/**
 * Values shared by every part of the model: an optional value (JavaScript's
 * `null`/`undefined` versus a present value) and a JavaScript number, kept
 * as an exact rational with `NaN` as a separate variant.
 */
module Values {

  /** `None` stands for `null` or `undefined`, `Some(v)` for a present value. */
  datatype Option<T> = None | Some(value: T)

  /**
   * A JavaScript number. Finite numbers are exact rationals; `NaN` is kept
   * apart because the code maps it to its own defaults.
   */
  datatype JsNumber = Num(value: real) | NaN

  /** JavaScript truthiness of an optional string: present and non-empty. */
  predicate Truthy(s: Option<string>)
  {
    s.Some? && s.value != ""
  }
}

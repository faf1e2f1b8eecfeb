/**
 * The `Set-Cookie` header value built by the pages-router Supabase client:
 * `name=value` followed by the attributes of section 4.1.1 of RFC 6265, each
 * introduced by "; ", in one fixed order.
 */
module Cookies {
  import opened Values
  import opened Strings

  /**
   * An `expires` option: a `Date`, or a string to be parsed as one. `utc`
   * is what `toUTCString()` gives for it; a `Date`'s formatting is not part
   * of this model.
   */
  datatype Expiry = DateValue(utc: string) | DateString(text: string, utc: string)

  /** A `Date` object is always truthy; a string only when it is not empty. */
  predicate ExpiryTruthy(e: Option<Expiry>)
  {
    e.Some? && (e.value.DateString? ==> e.value.text != "")
  }

  /** The options the serialiser reads; `None` is null or undefined. */
  datatype CookieOptions = CookieOptions(
    maxAge: Option<JsNumber>,
    domain: Option<string>,
    path: Option<string>,
    expires: Option<Expiry>,
    httpOnly: bool,
    secure: Option<bool>,
    sameSite: Option<string>)

  /** One attribute, with the text that follows its name. */
  datatype CookieAttr =
    | MaxAge(seconds: string)
    | Domain(domain: string)
    | Path(path: string)
    | Expires(date: string)
    | HttpOnly
    | Secure
    | SameSite(policy: string)

  /** The attribute's place in the header. */
  function Rank(a: CookieAttr): nat
  {
    match a
    case MaxAge(_) => 0
    case Domain(_) => 1
    case Path(_) => 2
    case Expires(_) => 3
    case HttpOnly => 4
    case Secure => 5
    case SameSite(_) => 6
  }

  /** `Math.floor(maxAge)` as text: the whole seconds, or "NaN". */
  function MaxAgeText(n: JsNumber): (r: string)
    ensures n.Num? ==> r == IntToString(n.value.Floor)
    ensures n.NaN? ==> r == "NaN"
  {
    if n.Num? then IntToString(n.value.Floor) else "NaN"
  }

  /** The path written: the option unless it is null or undefined, "/" otherwise. */
  /** A non-negative `maxAge` is written as the digits of its whole part; a negative one as '-' and the digits of its magnitude. */
  lemma MaxAgeTextReadsBack(x: real)
    ensures x >= 0.0 ==> AllDigits(MaxAgeText(Num(x))) && DigitsValue(MaxAgeText(Num(x))) == x.Floor
    ensures x < 0.0 ==> MaxAgeText(Num(x))[0] == '-' && AllDigits(MaxAgeText(Num(x))[1..])
                        && DigitsValue(MaxAgeText(Num(x))[1..]) == -x.Floor
  {
  }

  function PathOf(o: CookieOptions): string
  {
    if o.path.Some? then o.path.value else "/"
  }

  /** Whether `Secure` is written: the option when set, otherwise whether the environment is production. */
  predicate SecureOf(o: CookieOptions, production: bool)
  {
    if o.secure.Some? then o.secure.value else production
  }

  // The attributes, one run per option: each is empty or holds the one attribute of its rank.

  function MaxAgePart(o: CookieOptions): (r: seq<CookieAttr>)
    ensures o.maxAge.Some? ==> r == [MaxAge(MaxAgeText(o.maxAge.value))]
    ensures o.maxAge.None? ==> r == []
  {
    if o.maxAge.Some? then [MaxAge(MaxAgeText(o.maxAge.value))] else []
  }

  function DomainPart(o: CookieOptions): (r: seq<CookieAttr>)
    ensures Truthy(o.domain) ==> r == [Domain(o.domain.value)]
    ensures !Truthy(o.domain) ==> r == []
  {
    if Truthy(o.domain) then [Domain(o.domain.value)] else []
  }

  function ExpiresPart(o: CookieOptions): (r: seq<CookieAttr>)
    ensures ExpiryTruthy(o.expires) ==> r == [Expires(o.expires.value.utc)]
    ensures !ExpiryTruthy(o.expires) ==> r == []
  {
    if ExpiryTruthy(o.expires) then [Expires(o.expires.value.utc)] else []
  }

  function HttpOnlyPart(o: CookieOptions): (r: seq<CookieAttr>)
    ensures o.httpOnly ==> r == [HttpOnly]
    ensures !o.httpOnly ==> r == []
  {
    if o.httpOnly then [HttpOnly] else []
  }

  function SecurePart(o: CookieOptions, production: bool): (r: seq<CookieAttr>)
    ensures SecureOf(o, production) ==> r == [Secure]
    ensures !SecureOf(o, production) ==> r == []
  {
    if SecureOf(o, production) then [Secure] else []
  }

  function SameSitePart(o: CookieOptions): (r: seq<CookieAttr>)
    ensures Truthy(o.sameSite) ==> r == [SameSite(o.sameSite.value)]
    ensures !Truthy(o.sameSite) ==> r == []
  {
    if Truthy(o.sameSite) then [SameSite(o.sameSite.value)] else []
  }

  // The attributes written so far, after each step of the serialiser.

  function ThroughDomain(o: CookieOptions): seq<CookieAttr>
  {
    MaxAgePart(o) + DomainPart(o)
  }

  function ThroughPath(o: CookieOptions): seq<CookieAttr>
  {
    ThroughDomain(o) + [Path(PathOf(o))]
  }

  function ThroughExpires(o: CookieOptions): seq<CookieAttr>
  {
    ThroughPath(o) + ExpiresPart(o)
  }

  function ThroughHttpOnly(o: CookieOptions): seq<CookieAttr>
  {
    ThroughExpires(o) + HttpOnlyPart(o)
  }

  function ThroughSecure(o: CookieOptions, production: bool): seq<CookieAttr>
  {
    ThroughHttpOnly(o) + SecurePart(o, production)
  }

  /** The attributes written for the options, in header order. */
  function CookieAttrs(o: CookieOptions, production: bool): seq<CookieAttr>
  {
    ThroughSecure(o, production) + SameSitePart(o)
  }

  /** An attribute as it appears in the header, "; " included. */
  function Render(a: CookieAttr): (r: string)
  {
    "; " + match a
      case MaxAge(s) => "Max-Age=" + s
      case Domain(d) => "Domain=" + d
      case Path(p) => "Path=" + p
      case Expires(d) => "Expires=" + d
      case HttpOnly => "HttpOnly"
      case Secure => "Secure"
      case SameSite(s) => "SameSite=" + s
  }

  /** Every attribute's text starts with the "; " separator and is more than the separator. */
  lemma RenderSeparated(a: CookieAttr)
    ensures |Render(a)| > 2 && Render(a)[..2] == "; "
  {
  }

  function RenderAll(attrs: seq<CookieAttr>): (r: string)
  {
    if attrs == [] then "" else Render(attrs[0]) + RenderAll(attrs[1..])
  }

  lemma {:induction false} RenderAllConcat(a: seq<CookieAttr>, b: seq<CookieAttr>)
    ensures RenderAll(a + b) == RenderAll(a) + RenderAll(b)
    decreases |a|
  {
    if a != [] {
      RenderAllConcat(a[1..], b);
      assert (a + b)[1..] == a[1..] + b;
    } else {
      assert a + b == b;
    }
  }

  /**
   * `serializeCookie(name, val, options)`: `name=value`, then one guarded
   * append per attribute in header order; each `...Part` is empty exactly
   * when the source's guard for that attribute is false. `encode` stands for
   * `encodeURIComponent` and `production` for `NODE_ENV === "production"`.
   */
  method SerializeCookie(name: string, val: string, o: CookieOptions, production: bool,
                         encode: string -> string) returns (cookie: string)
    ensures cookie == name + "=" + encode(val) + RenderAll(CookieAttrs(o, production))
  {
    var head := name + "=" + encode(val);
    cookie := head;
    cookie := AppendPart(head, [], MaxAgePart(o), cookie);
    cookie := AppendPart(head, MaxAgePart(o), DomainPart(o), cookie);
    cookie := AppendPart(head, ThroughDomain(o), [Path(PathOf(o))], cookie);
    cookie := AppendPart(head, ThroughPath(o), ExpiresPart(o), cookie);
    cookie := AppendPart(head, ThroughExpires(o), HttpOnlyPart(o), cookie);
    cookie := AppendPart(head, ThroughHttpOnly(o), SecurePart(o, production), cookie);
    cookie := AppendPart(head, ThroughSecure(o, production), SameSitePart(o), cookie);
  }

  /** One `if (...) cookie += ...` step: append the attribute of the run, if there is one. */
  method AppendPart(head: string, done: seq<CookieAttr>, part: seq<CookieAttr>, cookie: string)
    returns (after: string)
    requires |part| <= 1 && cookie == head + RenderAll(done)
    ensures after == head + RenderAll(done + part)
  {
    after := cookie;
    if part != [] {
      after := after + Render(part[0]);
    }
    Extended(head, done, part, cookie, after);
  }

  /** Appending the text of a run of at most one attribute keeps the header equal to the rendering of what was written. */
  lemma Extended(head: string, done: seq<CookieAttr>, part: seq<CookieAttr>, before: string, after: string)
    requires |part| <= 1 && before == head + RenderAll(done)
    requires after == before + (if part == [] then "" else Render(part[0]))
    ensures after == head + RenderAll(done + part)
  {
    if part == [] {
      assert after == before;
      assert done + part == done;
    } else {
      assert RenderAll(part) == Render(part[0]) by {
        assert part[1..] == [];
        assert RenderAll(part[1..]) == "";
      }
      RenderAllConcat(done, part);
      Associative(head, RenderAll(done), Render(part[0]));
    }
  }

  /** String concatenation regroups; a lemma over plain names keeps the rendered terms folded where it is used. */
  lemma Associative(x: string, y: string, z: string)
    ensures (x + y) + z == x + (y + z)
  {
  }

  /** The `remove` callback: an empty value with the options and a `maxAge` of 0. */
  method RemoveCookie(name: string, o: CookieOptions, production: bool, encode: string -> string)
    returns (cookie: string)
    ensures cookie == name + "=" + encode("") + "; Max-Age=0" + RenderAll(CookieAttrs(o.(maxAge := None), production))
  {
    var o' := o.(maxAge := Some(Num(0.0)));
    cookie := SerializeCookie(name, "", o', production, encode);
    RemoveKeepsOtherAttributes(o, production);
    var rest := CookieAttrs(o.(maxAge := None), production);
    LeadingMaxAgeZero(rest);
    var head := name + "=" + encode("");
    assert (head + "; Max-Age=0") + RenderAll(rest) == head + ("; Max-Age=0" + RenderAll(rest));
  }

  /** A leading `Max-Age=0` renders as its text followed by the rest. */
  lemma LeadingMaxAgeZero(rest: seq<CookieAttr>)
    ensures RenderAll([MaxAge("0")] + rest) == "; Max-Age=0" + RenderAll(rest)
  {
    RenderAllConcat([MaxAge("0")], rest);
    assert RenderAll([MaxAge("0")]) == Render(MaxAge("0")) by {
      assert [MaxAge("0")][1..] == [];
    }
  }

  // ---------------------------------------------------------------------------
  // What the attribute list promises
  // ---------------------------------------------------------------------------

  /** Each attribute comes after every attribute of lower rank. */
  predicate Ordered(attrs: seq<CookieAttr>)
  {
    forall i, j :: 0 <= i < j < |attrs| ==> Rank(attrs[i]) < Rank(attrs[j])
  }

  predicate RanksBelow(attrs: seq<CookieAttr>, k: nat)
  {
    forall a :: a in attrs ==> Rank(a) < k
  }

  /** Two ordered runs, the first wholly below the second, make an ordered run. */
  lemma OrderedAppend(xs: seq<CookieAttr>, k: nat, ys: seq<CookieAttr>)
    requires Ordered(xs) && Ordered(ys) && RanksBelow(xs, k)
    requires forall a :: a in ys ==> Rank(a) >= k
    ensures Ordered(xs + ys)
  {
    var zs := xs + ys;
    forall i, j | 0 <= i < j < |zs|
      ensures Rank(zs[i]) < Rank(zs[j])
    {
      if j < |xs| {
      } else if i < |xs| {
        assert zs[i] in xs;
        assert zs[j] in ys;
      } else {
        assert zs[i] == ys[i - |xs|] && zs[j] == ys[j - |xs|];
      }
    }
  }

  /** Attributes come in the fixed order Max-Age, Domain, Path, Expires, HttpOnly, Secure, SameSite, so none repeats. */
  lemma AttrsOrdered(o: CookieOptions, production: bool)
    ensures Ordered(CookieAttrs(o, production))
    ensures forall i, j :: 0 <= i < j < |CookieAttrs(o, production)| ==>
      CookieAttrs(o, production)[i] != CookieAttrs(o, production)[j]
  {
    ThroughExpiresOrdered(o);
    OrderedStep(ThroughExpires(o), 4, HttpOnlyPart(o));
    OrderedStep(ThroughHttpOnly(o), 5, SecurePart(o, production));
    OrderedStep(ThroughSecure(o, production), 6, SameSitePart(o));
  }

  lemma ThroughExpiresOrdered(o: CookieOptions)
    ensures Ordered(ThroughExpires(o)) && RanksBelow(ThroughExpires(o), 4)
  {
    assert MaxAgePart(o) == [] + MaxAgePart(o);
    OrderedStep([], 0, MaxAgePart(o));
    OrderedStep(MaxAgePart(o), 1, DomainPart(o));
    OrderedStep(ThroughDomain(o), 2, [Path(PathOf(o))]);
    OrderedStep(ThroughPath(o), 3, ExpiresPart(o));
  }

  /** Appending at most one attribute of rank `k` to an ordered run below `k` gives an ordered run below `k + 1`. */
  lemma OrderedStep(xs: seq<CookieAttr>, k: nat, part: seq<CookieAttr>)
    requires Ordered(xs) && RanksBelow(xs, k)
    requires |part| <= 1 && forall a :: a in part ==> Rank(a) == k
    ensures Ordered(xs + part) && RanksBelow(xs + part, k + 1)
  {
    OrderedAppend(xs, k, part);
  }

  /** An attribute is written exactly when its run holds it. */
  lemma InAttrs(o: CookieOptions, production: bool, a: CookieAttr)
    ensures a in CookieAttrs(o, production) <==>
      || a in MaxAgePart(o) || a in DomainPart(o) || a == Path(PathOf(o))
      || a in ExpiresPart(o) || a in HttpOnlyPart(o) || a in SecurePart(o, production) || a in SameSitePart(o)
  {
  }

  /** `Path` is always written, with "/" when the option is null or undefined, and only once. */
  lemma PathAlwaysPresent(o: CookieOptions, production: bool)
    ensures Path(PathOf(o)) in CookieAttrs(o, production)
    ensures o.path.None? ==> Path("/") in CookieAttrs(o, production)
    ensures forall a :: a in CookieAttrs(o, production) && a.Path? ==> a.path == PathOf(o)
  {
    InAttrs(o, production, Path(PathOf(o)));
    forall a | a in CookieAttrs(o, production) && a.Path?
      ensures a.path == PathOf(o)
    {
      InAttrs(o, production, a);
    }
  }

  /** `Max-Age` is written exactly when the option is set, 0 included, and then it comes first. */
  lemma MaxAgeIffSet(o: CookieOptions, production: bool)
    ensures (exists a :: a in CookieAttrs(o, production) && a.MaxAge?) <==> o.maxAge.Some?
    ensures o.maxAge.Some? ==> CookieAttrs(o, production)[0] == MaxAge(MaxAgeText(o.maxAge.value))
  {
    if o.maxAge.Some? {
      InAttrs(o, production, MaxAge(MaxAgeText(o.maxAge.value)));
    } else {
      forall a | a in CookieAttrs(o, production)
        ensures !a.MaxAge?
      {
        InAttrs(o, production, a);
      }
    }
  }

  /** `Secure` follows the option when it is set and the environment when it is not. */
  lemma SecureRule(o: CookieOptions, production: bool)
    ensures Secure in CookieAttrs(o, production) <==> (if o.secure.Some? then o.secure.value else production)
  {
    InAttrs(o, production, Secure);
  }

  /** `Domain`, `Expires`, `HttpOnly` and `SameSite` appear exactly when their option is truthy. */
  lemma TruthyAttributes(o: CookieOptions, production: bool)
    ensures (exists a :: a in CookieAttrs(o, production) && a.Domain?) <==> Truthy(o.domain)
    ensures (exists a :: a in CookieAttrs(o, production) && a.Expires?) <==> ExpiryTruthy(o.expires)
    ensures HttpOnly in CookieAttrs(o, production) <==> o.httpOnly
    ensures (exists a :: a in CookieAttrs(o, production) && a.SameSite?) <==> Truthy(o.sameSite)
  {
    InAttrs(o, production, HttpOnly);
    if Truthy(o.domain) {
      InAttrs(o, production, Domain(o.domain.value));
    }
    if ExpiryTruthy(o.expires) {
      InAttrs(o, production, Expires(o.expires.value.utc));
    }
    if Truthy(o.sameSite) {
      InAttrs(o, production, SameSite(o.sameSite.value));
    }
    forall a | a in CookieAttrs(o, production)
      ensures a.Domain? ==> Truthy(o.domain)
      ensures a.Expires? ==> ExpiryTruthy(o.expires)
      ensures a.SameSite? ==> Truthy(o.sameSite)
    {
      InAttrs(o, production, a);
    }
  }

  /** Setting `maxAge` to 0 puts `Max-Age=0` first and leaves every other attribute as it was. */
  lemma RemoveKeepsOtherAttributes(o: CookieOptions, production: bool)
    ensures CookieAttrs(o.(maxAge := Some(Num(0.0))), production)
         == [MaxAge("0")] + CookieAttrs(o.(maxAge := None), production)
  {
    var zero, none := o.(maxAge := Some(Num(0.0))), o.(maxAge := None);
    assert MaxAgeText(Num(0.0)) == "0";
    assert ThroughDomain(zero) == [MaxAge("0")] + ThroughDomain(none) by {
      assert MaxAgePart(zero) == [MaxAge("0")];
      assert MaxAgePart(none) == [];
      assert DomainPart(zero) == DomainPart(none);
    }
    assert ThroughPath(zero) == [MaxAge("0")] + ThroughPath(none);
    assert ThroughExpires(zero) == [MaxAge("0")] + ThroughExpires(none);
    assert ThroughHttpOnly(zero) == [MaxAge("0")] + ThroughHttpOnly(none);
    assert ThroughSecure(zero, production) == [MaxAge("0")] + ThroughSecure(none, production);
  }
}

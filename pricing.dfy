/**
 * The pricing engine: the charge for a booking from a per-person price, a
 * guest count, a solo-traveller multiplier, an ordered table of group
 * discount tiers and a coupon percentage.
 *
 * Numbers are exact: JavaScript numbers are rationals (`real`), `NaN` is a
 * variant of its own, and every monetary amount the engine returns is an
 * integer number of yen produced by `Math.round`.
 */
module Pricing {
  import opened Values

  // ---------------------------------------------------------------------------
  // Arithmetic helpers
  // ---------------------------------------------------------------------------

  function Max(a: real, b: real): real { if a < b then b else a }
  function Min(a: real, b: real): real { if a < b then a else b }

  /** `Math.round(x)`: the nearest integer, a half rounded towards +infinity. */
  function Round(x: real): (r: int)
    ensures x - 0.5 < r as real <= x + 0.5
  {
    (x + 0.5).Floor
  }

  /** Rounding an integer gives it back. */
  lemma RoundInt(k: int)
    ensures Round(k as real) == k
  {
  }

  /** Rounding never reverses the order of two numbers. */
  lemma RoundMonotone(x: real, y: real)
    requires x <= y
    ensures Round(x) <= Round(y)
  {
  }

  /** A number between 0 and an integer bound rounds to an integer within the same bounds. */
  lemma RoundWithin(x: real, bound: int)
    requires 0.0 <= x <= bound as real
    ensures 0 <= Round(x) <= bound
  {
    RoundMonotone(0.0, x);
    RoundMonotone(x, bound as real);
    RoundInt(0);
    RoundInt(bound);
  }

  /** A fraction between 0 and 1 of a non-negative amount lies between 0 and that amount. */
  lemma ScaleWithin(a: real, f: real)
    requires 0.0 <= a && 0.0 <= f <= 1.0
    ensures 0.0 <= a * f <= a
  {
    assert a * (1.0 - f) >= 0.0;
  }

  /** A larger fraction of a non-negative amount is no smaller. */
  lemma ScaleMonotone(a: real, f: real, g: real)
    requires 0.0 <= a && f <= g
    ensures a * f <= a * g
  {
    assert a * (g - f) >= 0.0;
  }

  /** `Math.round(amount * (percent / 100))`: a percentage of an amount, in whole yen. */
  function PercentOf(amount: int, percent: real): int
  {
    Round(amount as real * (percent / 100.0))
  }

  /** A percentage between 0 and 100 of a non-negative amount is between 0 and the amount. */
  lemma DiscountWithin(amount: int, percent: real)
    requires amount >= 0 && 0.0 <= percent <= 100.0
    ensures 0 <= PercentOf(amount, percent) <= amount
  {
    var f := percent / 100.0;
    assert 0.0 <= f <= 1.0;
    ScaleWithin(amount as real, f);
    var scaled := amount as real * f;
    assert 0.0 <= scaled <= amount as real;
    RoundWithin(scaled, amount);
  }

  // ---------------------------------------------------------------------------
  // Percent clamp (`clampPercent`)
  // ---------------------------------------------------------------------------

  /** `x` is a whole number of hundredths. */
  predicate IsHundredths(x: real)
  {
    (x * 100.0).Floor as real == x * 100.0
  }

  /**
   * `clampPercent(n)`: `NaN` becomes 0; otherwise the value rounded to the
   * nearest hundredth and limited to [0, 100].
   */
  function ClampPercent(n: JsNumber): (r: real)
    ensures 0.0 <= r <= 100.0
    ensures IsHundredths(r)
    ensures n.NaN? ==> r == 0.0
    ensures n.Num? && n.value <= 0.0 ==> r == 0.0
    ensures n.Num? && n.value >= 100.0 ==> r == 100.0
    ensures n.Num? && 0.0 <= n.value <= 100.0 ==> -0.005 < r - n.value <= 0.005
  {
    match n
    case NaN => 0.0
    case Num(x) =>
      var hundredths := Round(x * 100.0);
      Min(100.0, Max(0.0, hundredths as real / 100.0))
  }

  /** A whole number of hundredths within [0, 100] is left as it is. */
  lemma ClampFixedPoint(x: real)
    requires 0.0 <= x <= 100.0 && IsHundredths(x)
    ensures ClampPercent(Num(x)) == x
  {
    RoundInt((x * 100.0).Floor);
  }

  /** Clamping twice is clamping once. */
  lemma ClampIdempotent(n: JsNumber)
    ensures ClampPercent(Num(ClampPercent(n))) == ClampPercent(n)
  {
    ClampFixedPoint(ClampPercent(n));
  }

  /** Clamping never reverses the order of two percentages. */
  lemma ClampMonotone(x: real, y: real)
    requires x <= y
    ensures ClampPercent(Num(x)) <= ClampPercent(Num(y))
  {
    RoundMonotone(x * 100.0, y * 100.0);
  }

  // ---------------------------------------------------------------------------
  // Group discount tiers (`DEFAULT_GROUP_RULES`, `getGroupDiscountPercent`)
  // ---------------------------------------------------------------------------

  /** A tier: guests from `min` up to `max` inclusive; no `max` means open-ended. */
  datatype GroupRule = GroupRule(min: int, max: Option<int>, percent: JsNumber)

  /** The canonical table: 3 -> 10%, 4 -> 15%, 5 -> 20%, 6-7 -> 30%, 8 or more -> 45%. */
  const DefaultGroupRules: seq<GroupRule> := [
    GroupRule(3, Some(3), Num(10.0)),
    GroupRule(4, Some(4), Num(15.0)),
    GroupRule(5, Some(5), Num(20.0)),
    GroupRule(6, Some(7), Num(30.0)),
    GroupRule(8, None, Num(45.0))
  ]

  predicate RuleMatches(rule: GroupRule, guests: real)
  {
    guests >= rule.min as real && (rule.max.Some? ==> guests <= rule.max.value as real)
  }

  /** `rules.find(...)`: the index of the first matching rule, or `|rules|` when none matches. */
  function FirstMatch(rules: seq<GroupRule>, guests: real): (k: nat)
    ensures k <= |rules|
    ensures k < |rules| ==> RuleMatches(rules[k], guests)
    ensures forall j :: 0 <= j < k ==> !RuleMatches(rules[j], guests)
    decreases |rules|
  {
    if rules == [] then 0
    else if RuleMatches(rules[0], guests) then 0
    else 1 + FirstMatch(rules[1..], guests)
  }

  /**
   * `getGroupDiscountPercent(guests, rules)`: no discount for a guest count
   * that is `NaN` or not positive; otherwise the clamped percent of the
   * first matching rule, or no discount when none matches.
   */
  function GroupDiscountPercent(guests: JsNumber, rules: seq<GroupRule>): (r: real)
    ensures 0.0 <= r <= 100.0
    ensures guests.NaN? || guests.value <= 0.0 ==> r == 0.0
  {
    if guests.NaN? || guests.value <= 0.0 then 0.0
    else
      var k := FirstMatch(rules, guests.value);
      if k < |rules| then ClampPercent(rules[k].percent) else 0.0
  }

  /** The first rule that matches, in table order, decides the percent. */
  lemma GroupDiscountFirstMatch(guests: real, rules: seq<GroupRule>, i: nat)
    requires guests > 0.0 && i < |rules| && RuleMatches(rules[i], guests)
    requires forall j :: 0 <= j < i ==> !RuleMatches(rules[j], guests)
    ensures GroupDiscountPercent(Num(guests), rules) == ClampPercent(rules[i].percent)
  {
  }

  /** When no rule matches there is no discount. */
  lemma GroupDiscountNoMatch(guests: real, rules: seq<GroupRule>)
    requires forall j :: 0 <= j < |rules| ==> !RuleMatches(rules[j], guests)
    ensures GroupDiscountPercent(Num(guests), rules) == 0.0
  {
  }

  /** The default table written out as a plain table lookup. */
  function DefaultTier(guests: int): real
  {
    if guests < 3 then 0.0
    else if guests == 3 then 10.0
    else if guests == 4 then 15.0
    else if guests == 5 then 20.0
    else if guests <= 7 then 30.0
    else 45.0
  }

  /** The default rule table resolves every whole guest count as the plain lookup says. */
  lemma DefaultTable(guests: int)
    ensures GroupDiscountPercent(Num(guests as real), DefaultGroupRules) == DefaultTier(guests)
  {
    var g := guests as real;
    var rules := DefaultGroupRules;
    if guests > 0 {
      if guests < 3 {
        GroupDiscountNoMatch(g, rules);
      } else if guests == 3 {
        ClampFixedPoint(10.0);
        GroupDiscountFirstMatch(g, rules, 0);
      } else if guests == 4 {
        ClampFixedPoint(15.0);
        GroupDiscountFirstMatch(g, rules, 1);
      } else if guests == 5 {
        ClampFixedPoint(20.0);
        GroupDiscountFirstMatch(g, rules, 2);
      } else if guests <= 7 {
        ClampFixedPoint(30.0);
        GroupDiscountFirstMatch(g, rules, 3);
      } else {
        ClampFixedPoint(45.0);
        GroupDiscountFirstMatch(g, rules, 4);
      }
    }
  }

  /** Under the default table the discount is always one of 0, 10, 15, 20, 30 and 45 percent. */
  lemma DefaultTableValues(guests: JsNumber)
    ensures GroupDiscountPercent(guests, DefaultGroupRules) in {0.0, 10.0, 15.0, 20.0, 30.0, 45.0}
  {
    ClampFixedPoint(10.0);
    ClampFixedPoint(15.0);
    ClampFixedPoint(20.0);
    ClampFixedPoint(30.0);
    ClampFixedPoint(45.0);
  }

  // ---------------------------------------------------------------------------
  // Price breakdown (`priceBreakdown`)
  // ---------------------------------------------------------------------------

  /**
   * The request. `None` stands for an omitted optional field, which takes
   * its default: a solo multiplier of 2, no coupon, the default rule table.
   */
  datatype PriceInput = PriceInput(
    pricePerPerson: JsNumber,
    guests: JsNumber,
    soloMultiplier: Option<JsNumber>,
    couponPercent: Option<JsNumber>,
    groupRules: Option<seq<GroupRule>>)

  datatype PriceBreakdown = PriceBreakdown(
    basePerPerson: real,
    guests: int,
    soloApplied: bool,
    soloMultiplier: JsNumber,
    baseTotal: int,
    groupDiscountPercent: real,
    groupDiscountAmount: int,
    subtotalAfterGroup: int,
    couponPercent: real,
    couponAmount: int,
    total: int)

  /** `Math.max(0, Number(price || 0))`: `NaN` and negative prices become 0. */
  function SafePrice(price: JsNumber): (r: real)
    ensures r >= 0.0
    ensures price.Num? && price.value >= 0.0 ==> r == price.value
    ensures price.NaN? || price.value <= 0.0 ==> r == 0.0
  {
    match price
    case NaN => 0.0
    case Num(x) => Max(0.0, x)
  }

  /** `Math.max(1, Math.floor(guests || 1))`: whole guests, at least one. */
  function SafeGuests(guests: JsNumber): (r: int)
    ensures r >= 1
    ensures guests.Num? && guests.value >= 1.0 ==> r == guests.value.Floor
    ensures guests.NaN? || guests.value < 1.0 ==> r == 1
  {
    match guests
    case NaN => 1
    case Num(x) => if x == 0.0 then 1 else if x.Floor < 1 then 1 else x.Floor
  }

  /** The solo surcharge applies to exactly one guest with a multiplier above 1. */
  predicate SoloApplies(safeGuests: int, multiplier: JsNumber)
  {
    safeGuests == 1 && multiplier.Num? && multiplier.value > 1.0
  }

  /** `Math.max(0, n)` on whole yen. */
  function MaxZero(n: int): int { if n < 0 then 0 else n }

  /**
   * The base total: the price times the solo multiplier when the surcharge
   * applies, otherwise the price times the guest count, rounded.
   */
  function BaseTotal(safePrice: real, safeGuests: int, multiplier: JsNumber): (r: int)
    requires safePrice >= 0.0 && safeGuests >= 1
    ensures r >= 0
    ensures SoloApplies(safeGuests, multiplier) ==> r == Round(safePrice * multiplier.value)
    ensures !SoloApplies(safeGuests, multiplier) ==> r == Round(safePrice * safeGuests as real)
  {
    if SoloApplies(safeGuests, multiplier) then
      ScaleWithin(safePrice, 0.0);
      RoundMonotone(0.0, safePrice * multiplier.value);
      Round(safePrice * multiplier.value)
    else
      RoundMonotone(0.0, safePrice * safeGuests as real);
      Round(safePrice * safeGuests as real)
  }

  /** `priceBreakdown(input)`: the charge computed step by step, each discount on what the previous one left. */
  function Breakdown(input: PriceInput): (b: PriceBreakdown)
    ensures b.basePerPerson == SafePrice(input.pricePerPerson)
    ensures b.guests == SafeGuests(input.guests)
    ensures b.soloApplied <==> b.guests == 1 && b.soloMultiplier.Num? && b.soloMultiplier.value > 1.0
    ensures 0 <= b.total <= b.subtotalAfterGroup <= b.baseTotal
    ensures b.groupDiscountAmount >= 0 && b.couponAmount >= 0
    ensures b.subtotalAfterGroup == b.baseTotal - b.groupDiscountAmount
    ensures b.total == b.subtotalAfterGroup - b.couponAmount
    ensures 0.0 <= b.groupDiscountPercent <= 100.0 && 0.0 <= b.couponPercent <= 100.0
    ensures b.baseTotal == BaseTotal(b.basePerPerson, b.guests, b.soloMultiplier)
    ensures b.groupDiscountAmount == PercentOf(b.baseTotal, b.groupDiscountPercent)
    ensures b.couponAmount == PercentOf(b.subtotalAfterGroup, b.couponPercent)
    ensures b.soloMultiplier == if input.soloMultiplier.Some? then input.soloMultiplier.value else Num(2.0)
    ensures b.groupDiscountPercent
         == GroupDiscountPercent(Num(b.guests as real),
                                 if input.groupRules.Some? then input.groupRules.value else DefaultGroupRules)
    ensures b.couponPercent == ClampPercent(if input.couponPercent.Some? then input.couponPercent.value else Num(0.0))
  {
    var multiplier := if input.soloMultiplier.Some? then input.soloMultiplier.value else Num(2.0);
    var coupon := if input.couponPercent.Some? then input.couponPercent.value else Num(0.0);
    var rules := if input.groupRules.Some? then input.groupRules.value else DefaultGroupRules;

    var safePrice := SafePrice(input.pricePerPerson);
    var safeGuests := SafeGuests(input.guests);

    var soloApplied := SoloApplies(safeGuests, multiplier);
    var baseTotal := BaseTotal(safePrice, safeGuests, multiplier);

    var groupPercent := GroupDiscountPercent(Num(safeGuests as real), rules);
    var groupAmount := PercentOf(baseTotal, groupPercent);
    var subtotal := MaxZero(baseTotal - groupAmount);

    var couponPercent := ClampPercent(coupon);
    var couponAmount := PercentOf(subtotal, couponPercent);
    var total := MaxZero(subtotal - couponAmount);

    DiscountWithin(baseTotal, groupPercent);
    DiscountWithin(subtotal, couponPercent);
    PriceBreakdown(safePrice, safeGuests, soloApplied, multiplier, baseTotal,
                   groupPercent, groupAmount, subtotal, couponPercent, couponAmount, total)
  }

  /** The group discount comes from the normalised guest count, whether or not solo pricing applied. */
  lemma GroupDiscountFromGuests(input: PriceInput)
    ensures var b := Breakdown(input);
            var rules := if input.groupRules.Some? then input.groupRules.value else DefaultGroupRules;
            b.groupDiscountPercent == GroupDiscountPercent(Num(b.guests as real), rules)
  {
  }

  /** With the default multiplier a single guest pays twice the price, rounded. */
  lemma DefaultSoloDoubles(input: PriceInput)
    requires input.soloMultiplier.None? && SafeGuests(input.guests) == 1
    ensures Breakdown(input).soloApplied
    ensures Breakdown(input).baseTotal == Round(SafePrice(input.pricePerPerson) * 2.0)
  {
  }

  /** A multiplier of 1 or less (or `NaN`) switches the surcharge off, whatever the guest count. */
  lemma NoSurchargeAtOrBelowOne(input: PriceInput, m: JsNumber)
    requires input.soloMultiplier == Some(m) && (m.NaN? || m.value <= 1.0)
    ensures !Breakdown(input).soloApplied
  {
  }

  /** With the default table a single guest never reaches a tier: no group discount at all. */
  lemma SoloGetsNoGroupDiscount(input: PriceInput)
    requires input.groupRules.None? && SafeGuests(input.guests) == 1
    ensures Breakdown(input).groupDiscountPercent == 0.0
    ensures Breakdown(input).groupDiscountAmount == 0
    ensures Breakdown(input).subtotalAfterGroup == Breakdown(input).baseTotal
  {
    DefaultTable(1);
    RoundInt(0);
  }

  /** The coupon is taken from the subtotal after the group discount, so the two discounts compound. */
  lemma CouponPercentClamped(input: PriceInput)
    ensures var b := Breakdown(input);
            b.couponPercent == ClampPercent(if input.couponPercent.Some? then input.couponPercent.value else Num(0.0))
  {
  }

  /** The coupon plays no part in the figures before it. */
  lemma SubtotalIgnoresCoupon(input: PriceInput, coupon: Option<JsNumber>)
    ensures Breakdown(input.(couponPercent := coupon)).subtotalAfterGroup == Breakdown(input).subtotalAfterGroup
  {
  }

  /** A larger percentage of the same non-negative amount is no smaller. */
  lemma PercentOfMonotone(amount: int, low: real, high: real)
    requires amount >= 0 && low <= high
    ensures PercentOf(amount, low) <= PercentOf(amount, high)
  {
    ScaleMonotone(amount as real, low / 100.0, high / 100.0);
    RoundMonotone(amount as real * (low / 100.0), amount as real * (high / 100.0));
  }

  /** Holding everything else fixed, a larger coupon percent never increases the total. */
  lemma CouponMonotone(input: PriceInput, low: real, high: real)
    requires low <= high
    ensures Breakdown(input.(couponPercent := Some(Num(high)))).total
         <= Breakdown(input.(couponPercent := Some(Num(low)))).total
  {
    var bl := Breakdown(input.(couponPercent := Some(Num(low))));
    var bh := Breakdown(input.(couponPercent := Some(Num(high))));
    SubtotalIgnoresCoupon(input, Some(Num(low)));
    SubtotalIgnoresCoupon(input, Some(Num(high)));
    CouponPercentClamped(input.(couponPercent := Some(Num(low))));
    CouponPercentClamped(input.(couponPercent := Some(Num(high))));
    ClampMonotone(low, high);
    PercentOfMonotone(bl.subtotalAfterGroup, bl.couponPercent, bh.couponPercent);
  }

  /** A coupon of 100 percent or more takes the whole subtotal: the total is 0. */
  lemma FullCouponIsFree(input: PriceInput, coupon: real)
    requires input.couponPercent == Some(Num(coupon)) && coupon >= 100.0
    ensures Breakdown(input).couponPercent == 100.0
    ensures Breakdown(input).couponAmount == Breakdown(input).subtotalAfterGroup
    ensures Breakdown(input).total == 0
  {
    var b := Breakdown(input);
    assert b.subtotalAfterGroup as real * (100.0 / 100.0) == b.subtotalAfterGroup as real;
    RoundInt(b.subtotalAfterGroup);
  }

  /** A `NaN` or non-positive price costs nothing, whatever the guests and coupon. */
  lemma FreeWhenNoPrice(input: PriceInput)
    requires input.pricePerPerson.NaN? || input.pricePerPerson.value <= 0.0
    ensures Breakdown(input).baseTotal == 0
    ensures Breakdown(input).total == 0
  {
    var b := Breakdown(input);
    assert b.basePerPerson == 0.0;
    assert b.baseTotal == 0 by {
      assert b.baseTotal == BaseTotal(0.0, b.guests, b.soloMultiplier);
      RoundInt(0);
    }
  }

  /** Guest counts that are `NaN`, zero, fractional below one or negative are all priced as one guest. */
  lemma GuestsNormalised(input: PriceInput)
    requires input.guests.NaN? || input.guests.value < 1.0
    ensures Breakdown(input).guests == 1
  {
  }

  // ---------------------------------------------------------------------------
  // Worked examples (default rules, solo multiplier 2)
  // ---------------------------------------------------------------------------

  lemma ExampleSolo()
    ensures var b := Breakdown(PriceInput(Num(10000.0), Num(1.0), None, None, None));
            b.soloApplied && b.baseTotal == 20000 && b.groupDiscountPercent == 0.0 && b.total == 20000
  {
    DefaultTable(1);
    RoundInt(20000);
    RoundInt(0);
  }

  lemma ExampleThreeGuests()
    ensures var b := Breakdown(PriceInput(Num(10000.0), Num(3.0), None, Some(Num(0.0)), None));
            && b.baseTotal == 30000 && b.groupDiscountPercent == 10.0 && b.groupDiscountAmount == 3000
            && b.subtotalAfterGroup == 27000 && b.total == 27000
  {
    DefaultTable(3);
    RoundInt(30000);
    RoundInt(3000);
    RoundInt(0);
  }

  /** 80000 less 45% is 44000; the 20% coupon then takes 8800 of that, not of 80000. */
  lemma ExampleEightGuestsWithCoupon()
    ensures var b := Breakdown(PriceInput(Num(10000.0), Num(8.0), None, Some(Num(20.0)), None));
            && b.baseTotal == 80000 && b.groupDiscountPercent == 45.0 && b.groupDiscountAmount == 36000
            && b.subtotalAfterGroup == 44000 && b.couponAmount == 8800 && b.total == 35200
  {
    DefaultTable(8);
    ClampFixedPoint(20.0);
    RoundInt(80000);
    RoundInt(36000);
    RoundInt(8800);
  }

  lemma ExampleTwoGuestsHalfCoupon()
    ensures var b := Breakdown(PriceInput(Num(10000.0), Num(2.0), None, Some(Num(50.0)), None));
            && b.baseTotal == 20000 && b.groupDiscountPercent == 0.0 && b.subtotalAfterGroup == 20000
            && b.couponAmount == 10000 && b.total == 10000
  {
    DefaultTable(2);
    ClampFixedPoint(50.0);
    RoundInt(20000);
    RoundInt(10000);
    RoundInt(0);
  }

  // ---------------------------------------------------------------------------
  // Currency display (`fmtJPY`): the amount handed to the formatter
  // ---------------------------------------------------------------------------

  /** `Math.max(0, Math.round(n))`: the whole number of yen that `fmtJPY` formats. */
  function DisplayYen(n: real): (r: int)
    ensures r >= 0
    ensures n < 0.0 ==> r == 0
    ensures n >= 0.0 ==> n - 0.5 < r as real <= n + 0.5
  {
    var rounded := Round(n);
    if rounded < 0 then 0 else rounded
  }
}

/** What a request costs: prices and the cost are decimals, rounded half to even; division is taken as exact. */
module Billing {
  import opened Options

  predicate Whole(x: real) {
    x.Floor as real == x
  }

  /** `y` is the integer nearest to `x`, and the even one of two that are equally near. */
  predicate HalfEven(x: real, y: real) {
    && Whole(y) && -0.5 <= y - x <= 0.5
    && (y - x == 0.5 || x - y == 0.5 ==> y.Floor % 2 == 0)
  }

  /** The nearest integer, and the even one of two that are equally near. */
  function RoundEven(x: real): (n: int)
    ensures -0.5 <= n as real - x <= 0.5
    ensures n as real - x == 0.5 || x - n as real == 0.5 ==> n % 2 == 0
  {
    var low := x.Floor;
    var part := x - low as real;
    if part < 0.5 || (part == 0.5 && low % 2 == 0) then low else low + 1
  }

  lemma RoundEvenMonotone(x: real, y: real)
    requires x <= y
    ensures RoundEven(x) <= RoundEven(y)
  {
    // Only a midpoint is as near to two integers, and only one of those is even.
  }

  lemma Places12(n: int)
    ensures n as real / 1_000_000_000_000.0 * 1_000_000_000_000.0 == n as real
  {
  }

  lemma Places8(n: int)
    ensures n as real / 100_000_000.0 * 100_000_000.0 == n as real
  {
  }

  /** Prices are rounded at 12 decimal places. */
  function RoundPrice(x: real): (r: real)
    ensures -0.000_000_000_000_5 <= r - x <= 0.000_000_000_000_5
    ensures HalfEven(x * 1_000_000_000_000.0, r * 1_000_000_000_000.0)
  {
    Places12(RoundEven(x * 1_000_000_000_000.0));
    RoundEven(x * 1_000_000_000_000.0) as real / 1_000_000_000_000.0
  }

  /** Costs are rounded at 8 decimal places. */
  function RoundCost(x: real): (r: real)
    ensures -0.000_000_005 <= r - x <= 0.000_000_005
    ensures HalfEven(x * 100_000_000.0, r * 100_000_000.0)
  {
    Places8(RoundEven(x * 100_000_000.0));
    RoundEven(x * 100_000_000.0) as real / 100_000_000.0
  }

  lemma RoundCostMonotone(x: real, y: real)
    requires x <= y
    ensures RoundCost(x) <= RoundCost(y)
  {
    RoundEvenMonotone(x * 100_000_000.0, y * 100_000_000.0);
  }

  lemma DivideOrdered(x: real, y: real, s: real)
    requires x <= y && s > 0.0
    ensures x / s <= y / s
  {
  }

  lemma ScaleOrdered(x: real, y: real, s: real)
    requires x <= y && s >= 0.0
    ensures x * s <= y * s && s * x <= s * y
  {
  }

  // --------------------------------------------------------------------------------------------------- Cost

  datatype Usage = Usage(input: int, cached: int, cacheWrite: int, output: int)

  datatype Prices = Prices(input: real, cached: real, cacheWrite: real, output: real)

  function Amount(tokens: int, price: real): real {
    tokens as real * price
  }

  function Weighed(u: Usage, p: Prices): real {
    Amount(u.input - u.cached, p.input) + Amount(u.cached, p.cached)
    + Amount(u.cacheWrite, p.cacheWrite) + Amount(u.output, p.output)
  }

  function CalculateCost(u: Usage, p: Prices, unit: int): real
    requires unit > 0
  {
    RoundCost(Weighed(u, p) / unit as real)
  }

  function MultipliedPrice(price: real, multiplier: real): real {
    price * multiplier
  }

  function EffectiveUnitPrice(price: real, multiplier: real): real {
    RoundPrice(MultipliedPrice(price, multiplier))
  }

  function Effective(p: Prices, multiplier: real): Prices {
    Prices(EffectiveUnitPrice(p.input, multiplier), EffectiveUnitPrice(p.cached, multiplier),
           EffectiveUnitPrice(p.cacheWrite, multiplier), EffectiveUnitPrice(p.output, multiplier))
  }

  function Unrounded(p: Prices, multiplier: real): Prices {
    Prices(MultipliedPrice(p.input, multiplier), MultipliedPrice(p.cached, multiplier),
           MultipliedPrice(p.cacheWrite, multiplier), MultipliedPrice(p.output, multiplier))
  }

  datatype LogOutcome = Succeeded | Failed | Rejected | Cancelled

  /** The billed amount of a request; its prices are those of the model, or of the context tier it falls into. */
  function RequestCost(p: Prices, multiplier: real, unit: int, usage: Option<Usage>, outcome: LogOutcome)
    : (cost: Option<real>)
    requires unit > 0
    ensures cost.None? <==> usage.None? && (outcome.Succeeded? || outcome.Rejected?)
    ensures outcome.Failed? || outcome.Cancelled? ==> cost == Some(0.0)
  {
    if outcome.Failed? || outcome.Cancelled? then Some(0.0)
    else if usage.None? then None
    else Some(CalculateCost(usage.value, Effective(p, multiplier), unit))
  }

  predicate NonNegative(p: Prices) {
    p.input >= 0.0 && p.cached >= 0.0 && p.cacheWrite >= 0.0 && p.output >= 0.0
  }

  lemma MoreTokens(few: int, many: int, price: real)
    requires few <= many && price >= 0.0
    ensures Amount(few, price) <= Amount(many, price)
  {
  }

  /** More input, cache-write or output tokens never cost less. */
  lemma CostMonotone(u: Usage, v: Usage, p: Prices, unit: int)
    requires unit > 0 && NonNegative(p)
    requires u.cached == v.cached && u.input <= v.input && u.cacheWrite <= v.cacheWrite && u.output <= v.output
    ensures CalculateCost(u, p, unit) <= CalculateCost(v, p, unit)
  {
    hide Amount;
    MoreTokens(u.input - u.cached, v.input - v.cached, p.input);
    MoreTokens(u.cacheWrite, v.cacheWrite, p.cacheWrite);
    MoreTokens(u.output, v.output, p.output);
    DivideOrdered(Weighed(u, p), Weighed(v, p), unit as real);
    RoundCostMonotone(Weighed(u, p) / unit as real, Weighed(v, p) / unit as real);
  }

  predicate Metered(u: Usage) {
    0 <= u.cached <= u.input && 0 <= u.cacheWrite && 0 <= u.output
  }

  function Tokens(u: Usage): int {
    u.input + u.cacheWrite + u.output
  }

  /** The cost without any rounding. */
  function ExactCost(u: Usage, p: Prices, multiplier: real, unit: int): real
    requires unit > 0
  {
    Weighed(u, Unrounded(p, multiplier)) / unit as real
  }

  /** Half of the last place of a price, for every token. */
  function PriceSlack(tokens: int): real {
    tokens as real * 0.000_000_000_000_5
  }

  lemma AmountError(tokens: int, price: real, multiplier: real)
    requires tokens >= 0
    ensures var d := Amount(tokens, EffectiveUnitPrice(price, multiplier)) - Amount(tokens, MultipliedPrice(price, multiplier));
            -PriceSlack(tokens) <= d <= PriceSlack(tokens)
  {
    hide RoundPrice, MultipliedPrice, Amount, PriceSlack;
    PriceError(tokens, EffectiveUnitPrice(price, multiplier), MultipliedPrice(price, multiplier));
  }

  lemma PriceError(tokens: int, a: real, b: real)
    requires tokens >= 0 && -0.000_000_000_000_5 <= a - b <= 0.000_000_000_000_5
    ensures -PriceSlack(tokens) <= Amount(tokens, a) - Amount(tokens, b) <= PriceSlack(tokens)
  {
    hide Amount, PriceSlack;
    AmountOfDifference(tokens, a, b);
    AmountBound(tokens, a - b);
  }

  lemma AmountOfDifference(tokens: int, a: real, b: real)
    ensures Amount(tokens, a) - Amount(tokens, b) == Amount(tokens, a - b)
  {
  }

  lemma AmountBound(tokens: int, e: real)
    requires tokens >= 0 && -0.000_000_000_000_5 <= e <= 0.000_000_000_000_5
    ensures -PriceSlack(tokens) <= Amount(tokens, e) <= PriceSlack(tokens)
  {
    ScaleOrdered(-0.000_000_000_000_5, e, tokens as real);
    ScaleOrdered(e, 0.000_000_000_000_5, tokens as real);
  }

  lemma SlackAdds(a: int, b: int)
    ensures PriceSlack(a + b) == PriceSlack(a) + PriceSlack(b)
  {
  }

  lemma WeighedError(u: Usage, p: Prices, multiplier: real)
    requires Metered(u)
    ensures var d := Weighed(u, Effective(p, multiplier)) - Weighed(u, Unrounded(p, multiplier));
            -PriceSlack(Tokens(u)) <= d <= PriceSlack(Tokens(u))
  {
    hide EffectiveUnitPrice, MultipliedPrice, Amount, PriceSlack;
    var e, x := Effective(p, multiplier), Unrounded(p, multiplier);
    AmountError(u.input - u.cached, p.input, multiplier);
    AmountError(u.cached, p.cached, multiplier);
    AmountError(u.cacheWrite, p.cacheWrite, multiplier);
    AmountError(u.output, p.output, multiplier);
    AddErrors(Amount(u.input - u.cached, e.input) - Amount(u.input - u.cached, x.input), u.input - u.cached,
              Amount(u.cached, e.cached) - Amount(u.cached, x.cached), u.cached,
              Amount(u.cacheWrite, e.cacheWrite) - Amount(u.cacheWrite, x.cacheWrite), u.cacheWrite,
              Amount(u.output, e.output) - Amount(u.output, x.output), u.output);
  }

  lemma AddErrors(a: real, i: int, b: real, j: int, c: real, k: int, d: real, l: int)
    requires -PriceSlack(i) <= a <= PriceSlack(i) && -PriceSlack(j) <= b <= PriceSlack(j)
    requires -PriceSlack(k) <= c <= PriceSlack(k) && -PriceSlack(l) <= d <= PriceSlack(l)
    ensures -PriceSlack(i + j + k + l) <= a + b + c + d <= PriceSlack(i + j + k + l)
  {
    SlackAdds(i, j);
    SlackAdds(i + j, k);
    SlackAdds(i + j + k, l);
    hide PriceSlack;
  }

  /** The billed cost is off by at most half a unit of each rounding. */
  lemma CostError(u: Usage, p: Prices, multiplier: real, unit: int)
    requires unit > 0 && Metered(u)
    ensures var error := CalculateCost(u, Effective(p, multiplier), unit) - ExactCost(u, p, multiplier, unit);
            var bound := 0.000_000_005 + PriceSlack(Tokens(u)) / unit as real;
            -bound <= error <= bound
  {
    hide RoundCost, Weighed, Effective, Unrounded, Tokens, PriceSlack;
    WeighedError(u, p, multiplier);
    var b := PriceSlack(Tokens(u));
    var w := Weighed(u, Effective(p, multiplier));
    var x := Weighed(u, Unrounded(p, multiplier));
    Divided(w, x, b, unit as real);
  }

  lemma Divided(w: real, x: real, b: real, n: real)
    requires n > 0.0 && x - b <= w <= x + b
    ensures x / n - b / n <= w / n <= x / n + b / n
  {
  }

  // --------------------------------------------------------------------------------------- Billing a request

  lemma Expanded(a: real, b: real, c: real, d: real, w: real, x: real, y: real, z: real, m: real)
    ensures a * (w * m) + b * (x * m) + c * (y * m) + d * (z * m) == (a * w + b * x + c * y + d * z) * m
  {
  }

  lemma WeighedExpanded(u: Usage, p: Prices, multiplier: real)
    ensures Weighed(u, Unrounded(p, multiplier)) ==
            ((u.input - u.cached) as real * p.input + u.cached as real * p.cached
             + u.cacheWrite as real * p.cacheWrite + u.output as real * p.output) * multiplier
  {
    Expanded((u.input - u.cached) as real, u.cached as real, u.cacheWrite as real, u.output as real,
             p.input, p.cached, p.cacheWrite, p.output, multiplier);
  }

  /** Tokens times price times multiplier over the unit. */
  ghost function Formula(p: Prices, multiplier: real, unit: int, u: Usage): real
    requires unit > 0
  {
    ((u.input - u.cached) as real * p.input + u.cached as real * p.cached
     + u.cacheWrite as real * p.cacheWrite + u.output as real * p.output) * multiplier / unit as real
  }

  /** Half a unit of the cost, and half a unit of the price for every token. */
  ghost function Tolerance(unit: int, u: Usage): real
    requires unit > 0
  {
    0.000_000_005 + (u.input + u.cacheWrite + u.output) as real * 0.000_000_000_000_5 / unit as real
  }

  /** The amount is the formula up to the tolerance, in whole units of the eighth decimal place. */
  ghost predicate Amounts(p: Prices, multiplier: real, unit: int, u: Usage, cost: real)
    requires unit > 0
  {
    && -Tolerance(unit, u) <= cost - Formula(p, multiplier, unit, u) <= Tolerance(unit, u)
    && Whole(cost * 100_000_000.0)
  }

  /** Nothing for a failed or cancelled request; for any other the amount of its usage, and none at all without usage. */
  lemma RequestCostError(p: Prices, multiplier: real, unit: int, usage: Option<Usage>, outcome: LogOutcome)
    requires unit > 0 && (usage.Some? ==> Metered(usage.value))
    ensures var cost := RequestCost(p, multiplier, unit, usage, outcome);
            match outcome
            case Failed => cost == Some(0.0)
            case Cancelled => cost == Some(0.0)
            case _ =>
              match usage
              case None => cost == None
              case Some(u) => cost.Some? && Amounts(p, multiplier, unit, u, cost.value)
  {
    hide Amounts, CalculateCost, Effective;
    if usage.Some? {
      BilledCost(p, multiplier, unit, usage.value);
    }
  }

  lemma BilledCost(p: Prices, multiplier: real, unit: int, u: Usage)
    requires unit > 0 && Metered(u)
    ensures Amounts(p, multiplier, unit, u, CalculateCost(u, Effective(p, multiplier), unit))
  {
    CostError(u, p, multiplier, unit);
    ExactIsFormula(p, multiplier, unit, u);
    hide Formula, Tolerance, ExactCost, PriceSlack, Effective, Weighed, RoundCost;
  }

  lemma ExactIsFormula(p: Prices, multiplier: real, unit: int, u: Usage)
    requires unit > 0
    ensures ExactCost(u, p, multiplier, unit) == Formula(p, multiplier, unit, u)
    ensures 0.000_000_005 + PriceSlack(Tokens(u)) / unit as real == Tolerance(unit, u)
  {
    hide Unrounded, Weighed;
    WeighedExpanded(u, p, multiplier);
  }

  lemma RoundPriceSign(x: real)
    requires x >= 0.0
    ensures RoundPrice(x) >= 0.0
  {
    RoundEvenMonotone(0.0, x * 1_000_000_000_000.0);
  }

  lemma EffectiveSign(price: real, multiplier: real)
    requires price >= 0.0 && multiplier >= 0.0
    ensures EffectiveUnitPrice(price, multiplier) >= 0.0
  {
    hide RoundPrice;
    ScaleOrdered(0.0, price, multiplier);
    RoundPriceSign(MultipliedPrice(price, multiplier));
  }

  /** At prices and a multiplier that are not negative, a request never costs less for more usage. */
  lemma RequestCostMonotone(p: Prices, multiplier: real, unit: int, u: Usage, v: Usage, outcome: LogOutcome)
    requires unit > 0 && NonNegative(p) && multiplier >= 0.0
    requires u.cached == v.cached && u.input <= v.input && u.cacheWrite <= v.cacheWrite && u.output <= v.output
    ensures RequestCost(p, multiplier, unit, Some(u), outcome).value <=
            RequestCost(p, multiplier, unit, Some(v), outcome).value
  {
    hide CalculateCost, EffectiveUnitPrice;
    EffectiveSign(p.input, multiplier);
    EffectiveSign(p.cached, multiplier);
    EffectiveSign(p.cacheWrite, multiplier);
    EffectiveSign(p.output, multiplier);
    CostMonotone(u, v, Effective(p, multiplier), unit);
  }
}

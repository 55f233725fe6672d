/** Exact pricing with one upward rounding (recon_cockpit/secure_agent/cost_contract.py). */
module CostContract {
  import opened Prelude

  const MAX_AMOUNT := 1000000000000000
  const MAX_TOKENS := 1000000000

  /** Input includes cached input. */
  datatype TokenUsage = TokenUsage(input: int, output: int, cached: int)

  /** Prices in microUSD per million tokens, and a fixed charge per request. */
  datatype PriceCard = PriceCard(input: int, cached: int, output: int, request: int)

  predicate ValidUsage(u: TokenUsage) {
    0 <= u.input <= MAX_TOKENS && 0 <= u.output <= MAX_TOKENS && 0 <= u.cached <= u.input
  }

  predicate ValidCard(p: PriceCard) {
    0 <= p.input <= MAX_AMOUNT && 0 <= p.cached <= MAX_AMOUNT && 0 <= p.output <= MAX_AMOUNT
      && 0 <= p.request <= MAX_AMOUNT
  }

  /** Rounding up to whole microUSD: the least amount that covers the weighted sum. */
  function RoundUp(weighted: int): (r: int)
    requires 0 <= weighted
    ensures 0 <= r && (r - 1) * 1000000 < weighted <= r * 1000000
  {
    (weighted + 999999) / 1000000
  }

  function Weighted(p: PriceCard, u: TokenUsage): int {
    (u.input - u.cached) * p.input + u.cached * p.cached + u.output * p.output
  }

  lemma Product(x: int, y: int)
    requires 0 <= x && 0 <= y
    ensures 0 <= x * y
  {
  }

  lemma WeightedPositive(p: PriceCard, u: TokenUsage)
    requires ValidCard(p) && ValidUsage(u)
    ensures 0 <= Weighted(p, u)
  {
    Product(u.input - u.cached, p.input);
    Product(u.cached, p.cached);
    Product(u.output, p.output);
  }

  /** The exact price before it is checked against the accepted range. */
  function Price(p: PriceCard, u: TokenUsage): int
    requires ValidCard(p) && ValidUsage(u)
  {
    WeightedPositive(p, u);
    p.request + RoundUp(Weighted(p, u))
  }

  /** cost() */
  function Cost(p: PriceCard, u: TokenUsage): Option<int>
    requires ValidCard(p) && ValidUsage(u)
  {
    if Price(p, u) <= MAX_AMOUNT then Some(Price(p, u)) else None
  }

  /** The dearest usage within the limits: all input is of the dearer kind. */
  function Dearest(p: PriceCard, inputLimit: int, outputLimit: int): TokenUsage {
    TokenUsage(inputLimit, outputLimit, if p.cached > p.input then inputLimit else 0)
  }

  /** ceiling() */
  function Ceiling(p: PriceCard, inputLimit: int, outputLimit: int): Option<int>
    requires ValidCard(p)
  {
    if !(0 <= inputLimit <= MAX_TOKENS && 0 <= outputLimit <= MAX_TOKENS) then None
    else Cost(p, Dearest(p, inputLimit, outputLimit))
  }

  /** quote(): the estimate and the ceiling it stays under. */
  function Quote(p: PriceCard, u: TokenUsage, inputLimit: int, outputLimit: int): Option<(int, int)>
    requires ValidCard(p) && ValidUsage(u)
  {
    var ceiling := Ceiling(p, inputLimit, outputLimit);
    if ceiling.None? || u.input > inputLimit || u.output > outputLimit then None
    else match Cost(p, u)
      case None => None
      case Some(estimate) => Some((estimate, ceiling.value))
  }

  // ------------------------------------------------------------------ rounding

  lemma RoundUpMonotone(a: int, b: int)
    requires 0 <= a <= b
    ensures RoundUp(a) <= RoundUp(b)
  {
  }

  /** One rounding of a sum never exceeds the sum of separate roundings, and is less than it by two at most. */
  lemma OneRounding(a: int, b: int, c: int)
    requires 0 <= a && 0 <= b && 0 <= c
    ensures RoundUp(a) + RoundUp(b) + RoundUp(c) - 2 <= RoundUp(a + b + c) <= RoundUp(a) + RoundUp(b) + RoundUp(c)
  {
  }

  /** The price is the fixed charge and the whole charge for each kind of token, rounded up by less than one microUSD:
      no smaller amount covers it. */
  lemma PriceCovers(p: PriceCard, u: TokenUsage, amount: int)
    requires ValidCard(p) && ValidUsage(u)
    ensures Price(p, u) <= amount <==>
      (amount - p.request) * 1000000 >= (u.input - u.cached) * p.input + u.cached * p.cached + u.output * p.output
  {
    WeightedPositive(p, u);
    var least := RoundUp(Weighted(p, u));
    if least <= amount - p.request {
      assert (amount - p.request) * 1000000 >= least * 1000000;
    } else {
      assert (amount - p.request) * 1000000 <= (least - 1) * 1000000;
    }
  }

  lemma SingleRounding(p: PriceCard, u: TokenUsage)
    requires ValidCard(p) && ValidUsage(u)
    ensures 0 <= (u.input - u.cached) * p.input && 0 <= u.cached * p.cached && 0 <= u.output * p.output
    ensures Price(p, u)
      <= p.request + RoundUp((u.input - u.cached) * p.input) + RoundUp(u.cached * p.cached)
         + RoundUp(u.output * p.output)
  {
    Product(u.input - u.cached, p.input);
    Product(u.cached, p.cached);
    Product(u.output, p.output);
    OneRounding((u.input - u.cached) * p.input, u.cached * p.cached, u.output * p.output);
  }

  // ---------------------------------------------------------------- monotonicity

  lemma ProductMonotone(x: int, x': int, y: int)
    requires 0 <= x <= x' && 0 <= y
    ensures x * y <= x' * y
  {
    Product(x' - x, y);
    assert x' * y == x * y + (x' - x) * y;
  }

  /** More tokens of any one kind, or of several, never cost less. */
  lemma CostMonotone(p: PriceCard, u: TokenUsage, v: TokenUsage)
    requires ValidCard(p) && ValidUsage(u) && ValidUsage(v)
    requires u.input - u.cached <= v.input - v.cached && u.cached <= v.cached && u.output <= v.output
    ensures Price(p, u) <= Price(p, v)
    ensures Cost(p, v).Some? ==> Cost(p, u).Some? && Cost(p, u).value <= Cost(p, v).value
  {
    ProductMonotone(u.input - u.cached, v.input - v.cached, p.input);
    ProductMonotone(u.cached, v.cached, p.cached);
    ProductMonotone(u.output, v.output, p.output);
    WeightedPositive(p, u);
    RoundUpMonotone(Weighted(p, u), Weighted(p, v));
  }

  lemma Dearer(p: PriceCard, u: TokenUsage, inputLimit: int, outputLimit: int)
    requires ValidCard(p) && ValidUsage(u) && u.input <= inputLimit <= MAX_TOKENS
    requires u.output <= outputLimit <= MAX_TOKENS
    ensures ValidUsage(Dearest(p, inputLimit, outputLimit))
    ensures Weighted(p, u) <= Weighted(p, Dearest(p, inputLimit, outputLimit))
  {
    var dear := if p.cached > p.input then p.cached else p.input;
    Product(u.input - u.cached, dear - p.input);
    Product(u.cached, dear - p.cached);
    assert (u.input - u.cached) * (dear - p.input) == (u.input - u.cached) * dear - (u.input - u.cached) * p.input;
    assert u.cached * (dear - p.cached) == u.cached * dear - u.cached * p.cached;
    assert (u.input - u.cached) * dear + u.cached * dear == u.input * dear;
    ProductMonotone(u.input, inputLimit, dear);
    ProductMonotone(u.output, outputLimit, p.output);
  }

  /** An accepted ceiling is an accepted cost within the limits, and no usage within them costs more: it is the
      maximum. */
  lemma CeilingIsMaximum(p: PriceCard, inputLimit: int, outputLimit: int)
    requires ValidCard(p) && 0 <= inputLimit <= MAX_TOKENS && 0 <= outputLimit <= MAX_TOKENS
    ensures Ceiling(p, inputLimit, outputLimit).Some? <==>
      forall u :: ValidUsage(u) && u.input <= inputLimit && u.output <= outputLimit ==> Cost(p, u).Some?
    ensures Ceiling(p, inputLimit, outputLimit).Some? ==>
      forall u :: ValidUsage(u) && u.input <= inputLimit && u.output <= outputLimit ==>
        Cost(p, u).Some? && Cost(p, u).value <= Ceiling(p, inputLimit, outputLimit).value
    ensures var d := Dearest(p, inputLimit, outputLimit);
      ValidUsage(d) && d.input <= inputLimit && d.output <= outputLimit
        && Cost(p, d) == Ceiling(p, inputLimit, outputLimit)
  {
    forall u | ValidUsage(u) && u.input <= inputLimit && u.output <= outputLimit
      ensures Price(p, u) <= Price(p, Dearest(p, inputLimit, outputLimit))
    {
      Dearer(p, u, inputLimit, outputLimit);
      WeightedPositive(p, u);
      RoundUpMonotone(Weighted(p, u), Weighted(p, Dearest(p, inputLimit, outputLimit)));
    }
  }

  /** A quote is refused exactly for a ceiling out of range or a usage beyond its limits; its estimate never
      exceeds its ceiling. */
  lemma QuoteWithinCeiling(p: PriceCard, u: TokenUsage, inputLimit: int, outputLimit: int)
    requires ValidCard(p) && ValidUsage(u)
    ensures Quote(p, u, inputLimit, outputLimit).Some?
      <==> Ceiling(p, inputLimit, outputLimit).Some? && u.input <= inputLimit && u.output <= outputLimit
    ensures Quote(p, u, inputLimit, outputLimit).Some? ==>
      && Price(p, u) == Quote(p, u, inputLimit, outputLimit).value.0 <= Quote(p, u, inputLimit, outputLimit).value.1
      && Some(Quote(p, u, inputLimit, outputLimit).value.1) == Ceiling(p, inputLimit, outputLimit)
  {
    if 0 <= inputLimit <= MAX_TOKENS && 0 <= outputLimit <= MAX_TOKENS { CeilingIsMaximum(p, inputLimit, outputLimit); }
  }
}

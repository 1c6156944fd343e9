/** Integer money: multiplying by a rate, and subtraction that refuses to go below zero. */
module Paise {
  import opened Outcomes
  import opened Rounding

  /** Rates are integer basis points: 10 000 is 100%. */
  const RATE_SCALE: int := 10_000

  function MulRate(amountPaise: nat, rateBp: nat): nat
  {
    var numerator := amountPaise * rateBp;
    var quotient := numerator / RATE_SCALE;
    var remainder := numerator % RATE_SCALE;
    if remainder * 2 >= RATE_SCALE then quotient + 1 else quotient
  }

  function SubPaise(minuend: int, subtrahend: int): Outcome<nat>
  {
    if minuend < subtrahend then Thrown(Underflow) else Ok(minuend - subtrahend)
  }

  /** Quotient-and-remainder rounding is half-up division by the scale. */
  lemma MulRateIsRoundHalfUp(a: nat, r: nat)
    ensures MulRate(a, r) == RoundHalfUp(a * r, RATE_SCALE)
  {
    RoundHalfUpIff(a * r, RATE_SCALE, MulRate(a, r));
  }

  /** The result is within half a paisa of the exact product, ties going up. */
  lemma MulRateError(a: nat, r: nat)
    ensures -RATE_SCALE <= 2 * (a * r - RATE_SCALE * MulRate(a, r)) < RATE_SCALE
  {
    MulRateIsRoundHalfUp(a, r);
    RoundHalfUpIff(a * r, RATE_SCALE, MulRate(a, r));
  }

  /** `m` is the whole number of paise nearest to `rateBp` of `amount`, a half going up. */
  predicate NearestPaisa(m: int, amount: nat, rateBp: nat)
  {
    -RATE_SCALE <= 2 * (amount * rateBp - RATE_SCALE * m) < RATE_SCALE
  }

  /** Only one amount is nearest, and it is what multiplying by a rate returns. */
  lemma MulRateIsNearest(a: nat, r: nat, m: int)
    ensures NearestPaisa(m, a, r) <==> m == MulRate(a, r)
  {
    MulRateError(a, r);
  }

  lemma MulRateMonotone(a: nat, b: nat, r: nat, s: nat)
    requires a <= b && r <= s
    ensures MulRate(a, r) <= MulRate(b, s)
  {
    MulLe(a, b, r);
    MulLe(r, s, b);
    MulRateError(a, r);
    MulRateError(b, s);
  }

  /** At a rate of at most 100%, a paisa more in adds at most a paisa out. */
  lemma MulRateLipschitz(a: nat, b: nat, r: nat)
    requires a <= b && r <= RATE_SCALE
    ensures MulRate(a, r) <= MulRate(b, r) <= MulRate(a, r) + (b - a)
  {
    MulRateMonotone(a, b, r, r);
    MulRateError(a, r);
    MulRateError(b, r);
    assert b * r == a * r + (b - a) * r;
    MulLe(r, RATE_SCALE, b - a);
  }

  /** A rate takes no more than the whole exactly when its excess over 100% rounds away. */
  lemma MulRateAtMostWhole(a: nat, r: nat)
    ensures MulRate(a, r) <= a <==> 2 * (a * (r - RATE_SCALE)) < RATE_SCALE
  {
    MulRateError(a, r);
    assert a * (r - RATE_SCALE) == a * r - a * RATE_SCALE;
  }
}

/**
  `x.quantize(Decimal("0.01"), rounding=ROUND_HALF_UP)`: rounding to whole cents, to the
  nearest cent, with ties going away from zero. A rounded amount is an `int` number of cents.
 */
module Rounding {

  /** The decimal value of `c` cents. */
  function Amount(c: int): real {
    c as real / 100.0
  }

  /**
    The cent count nearest to `x`; an exact half cent goes away from zero, so it rounds
    up for positive and down for negative amounts.
   */
  function RoundHalfUpCents(x: real): (c: int)
    ensures x >= 0.0 ==> c as real - 0.5 <= 100.0 * x < c as real + 0.5
    ensures x < 0.0 ==> c as real - 0.5 < 100.0 * x <= c as real + 0.5
  {
    if x >= 0.0 then (100.0 * x + 0.5).Floor else -((0.5 - 100.0 * x).Floor)
  }

  /** The two bounds above pin the rounded value down: no other cent count meets them. */
  lemma RoundHalfUpUnique(x: real, c: int)
    requires x >= 0.0 ==> c as real - 0.5 <= 100.0 * x < c as real + 0.5
    requires x < 0.0 ==> c as real - 0.5 < 100.0 * x <= c as real + 0.5
    ensures RoundHalfUpCents(x) == c
  {
  }

  /** An amount already in whole cents is left as it is. */
  lemma RoundWholeCents(c: int)
    ensures RoundHalfUpCents(Amount(c)) == c
  {
    assert 100.0 * Amount(c) == c as real;
    RoundHalfUpUnique(Amount(c), c);
  }

  /** Exactly half a cent above `k` cents rounds up; exactly half a cent below `-k` cents rounds down. */
  lemma RoundHalfCentAwayFromZero(k: nat)
    ensures RoundHalfUpCents(Amount(k) + 0.005) == k + 1
    ensures RoundHalfUpCents(-(Amount(k) + 0.005)) == -(k + 1)
  {
    RoundHalfUpUnique(Amount(k) + 0.005, k + 1);
    RoundHalfUpUnique(-(Amount(k) + 0.005), -(k + 1));
  }

  /** Rounding is symmetric about zero. */
  lemma RoundNegate(x: real)
    ensures RoundHalfUpCents(-x) == -RoundHalfUpCents(x)
  {
    var c := RoundHalfUpCents(x);
    if x > 0.0 || x < 0.0 {
      RoundHalfUpUnique(-x, -c);
    }
  }

  /** Rounding never reverses the order of two amounts. */
  lemma RoundMonotone(x: real, y: real)
    requires x <= y
    ensures RoundHalfUpCents(x) <= RoundHalfUpCents(y)
  {
  }

  /** A non-negative amount rounds to a non-negative number of cents. */
  lemma RoundNonNegative(x: real)
    requires x >= 0.0
    ensures RoundHalfUpCents(x) >= 0
  {
  }

  /** Rounding an amount bounded by whole cents stays within those cents. */
  lemma RoundBetween(lo: int, x: real, hi: int)
    requires Amount(lo) <= x <= Amount(hi)
    ensures lo <= RoundHalfUpCents(x) <= hi
  {
    RoundMonotone(Amount(lo), x);
    RoundMonotone(x, Amount(hi));
    RoundWholeCents(lo);
    RoundWholeCents(hi);
  }
}

/** Python's round(x, digits) on exact reals: round half to even at the
    given number of decimals. */
module Rounding {

  /** The nearest integer to x, ties going to the even neighbour. */
  function RoundHalfEven(x: real): (n: int)
    ensures n as real - 0.5 <= x <= n as real + 0.5
    ensures (x - n as real == 0.5 || n as real - x == 0.5) ==> n % 2 == 0
  {
    var f := x.Floor;
    var frac := x - f as real;
    if frac < 0.5 then f
    else if frac > 0.5 then f + 1
    else if f % 2 == 0 then f else f + 1
  }

  /** Rounding an integer gives it back. */
  lemma RoundHalfEvenOfInt(k: int)
    ensures RoundHalfEven(k as real) == k
  {
  }

  /** Rounding is monotone: two values could only swap order if both were
      ties at the same point, rounding to neighbours that are both even. */
  lemma RoundHalfEvenMonotone(x: real, y: real)
    requires x <= y
    ensures RoundHalfEven(x) <= RoundHalfEven(y)
  {
  }

  /** round(x, 2): within half a hundredth of x. */
  function Round2(x: real): (r: real)
    ensures x - 0.005 <= r <= x + 0.005
  {
    RoundHalfEven(x * 100.0) as real / 100.0
  }

  /** round(x, 1): within half a tenth of x. */
  function Round1(x: real): (r: real)
    ensures x - 0.05 <= r <= x + 0.05
  {
    RoundHalfEven(x * 10.0) as real / 10.0
  }

  lemma Round2Monotone(x: real, y: real)
    requires x <= y
    ensures Round2(x) <= Round2(y)
  {
    RoundHalfEvenMonotone(x * 100.0, y * 100.0);
  }

  lemma Round1Monotone(x: real, y: real)
    requires x <= y
    ensures Round1(x) <= Round1(y)
  {
    RoundHalfEvenMonotone(x * 10.0, y * 10.0);
  }

  /** Values in [0, 1] stay in [0, 1] after round(x, 2). */
  lemma Round2UnitInterval(x: real)
    requires 0.0 <= x <= 1.0
    ensures 0.0 <= Round2(x) <= 1.0
  {
    Round2Monotone(0.0, x);
    Round2Monotone(x, 1.0);
    RoundHalfEvenOfInt(0);
    RoundHalfEvenOfInt(100);
  }

  /** round(2.5, 2) is 2.5. */
  lemma Round2OfTwoAndAHalf()
    ensures Round2(2.5) == 2.5
  {
    RoundHalfEvenOfInt(250);
  }

  /** Values in [lo, hi] with one-decimal bounds stay there after round(x, 1). */
  lemma Round1Within(x: real, lo: int, hi: int)
    requires lo as real / 10.0 <= x <= hi as real / 10.0
    ensures lo as real / 10.0 <= Round1(x) <= hi as real / 10.0
  {
    Round1Monotone(lo as real / 10.0, x);
    Round1Monotone(x, hi as real / 10.0);
    RoundHalfEvenOfInt(lo);
    RoundHalfEvenOfInt(hi);
    assert (lo as real / 10.0) * 10.0 == lo as real;
    assert (hi as real / 10.0) * 10.0 == hi as real;
  }
}

/** Value types and exact real arithmetic shared by every stage of the
    signal-scoring pipeline. Prices are exact reals; an indicator entry or a
    detection result that the source marks with NaN, inf or None is an
    explicit Option here. */
module Common {

  /** An entry that may be unavailable (the source's NaN or None). */
  datatype Option<+T> = None | Some(value: T)

  /** One OHLC candle: open time in milliseconds and the four prices. */
  datatype Candle = Candle(openTime: int, open: real, high: real, low: real, close: real)

  /** The larger of two reals (Python's max of two floats). */
  function Max(a: real, b: real): (r: real)
    ensures r >= a && r >= b
    ensures r == a || r == b
  {
    if a >= b then a else b
  }

  /** The smaller of two reals (Python's min of two floats). */
  function Min(a: real, b: real): (r: real)
    ensures r <= a && r <= b
    ensures r == a || r == b
  {
    if a <= b then a else b
  }

  /** Absolute value. */
  function Abs(x: real): (r: real)
    ensures r >= 0.0
    ensures r == x || r == -x
  {
    if x >= 0.0 then x else -x
  }

  /** The last element of a non-empty sequence (Python's xs[-1]). */
  function Last<T>(xs: seq<T>): (x: T)
    requires |xs| > 0
    ensures x in xs
  {
    xs[|xs| - 1]
  }

  /** Left-to-right sum, as Python's built-in sum. */
  function Sum(xs: seq<real>): (s: real)
  {
    if xs == [] then 0.0 else Sum(xs[..|xs| - 1]) + xs[|xs| - 1]
  }

  /** Arithmetic mean of a non-empty sequence (statistics.fmean, or sum/len). */
  function Mean(xs: seq<real>): (m: real)
    requires |xs| > 0
  {
    Sum(xs) / |xs| as real
  }

  /** Absolute values, element by element. */
  function AbsAll(xs: seq<real>): (r: seq<real>)
    ensures |r| == |xs|
    ensures forall i :: 0 <= i < |xs| ==> r[i] == Abs(xs[i])
  {
    seq(|xs|, i requires 0 <= i < |xs| => Abs(xs[i]))
  }

  lemma MulNonneg(a: real, b: real)
    ensures a >= 0.0 && b >= 0.0 ==> a * b >= 0.0
  {
  }

  /** A quotient by a positive real has the sign of the dividend. */
  lemma QuotientSign(a: real, d: real)
    ensures d > 0.0 ==> (a / d > 0.0 <==> a > 0.0) && (a / d < 0.0 <==> a < 0.0)
  {
    if d > 0.0 {
      var q := a / d;
      assert q * d == a;
      if q > 0.0 {
        assert q * d > 0.0;
      } else if q < 0.0 {
        assert (-q) * d > 0.0;
      }
    }
  }

  /** Multiplying by a non-zero real and dividing by it again is the identity. */
  lemma MulDivCancel(a: real, r: real)
    requires r != 0.0
    ensures (a * r) / r == a
  {
  }

  /** Division by a positive real is monotone. */
  lemma DivMonotone(a: real, b: real, d: real)
    requires d > 0.0 && a <= b
    ensures a / d <= b / d
  {
    QuotientSign(b - a, d);
    assert (b - a) / d == b / d - a / d;
  }

  /** A positive real divided by a positive real is positive. */
  lemma DivPositive(a: real, b: real)
    requires a > 0.0 && b > 0.0
    ensures a / b > 0.0
  {
  }

  /** Dividing a lower bound on s by n > 0. */
  lemma DivAtLeast(s: real, n: real, lo: real)
    requires n > 0.0 && s >= n * lo
    ensures s / n >= lo
  {
    var m := s / n;
    assert m * n == s;
    if m < lo {
      assert (lo - m) * n > 0.0;
    }
  }

  /** Dividing an upper bound on s by n > 0. */
  lemma DivAtMost(s: real, n: real, hi: real)
    requires n > 0.0 && s <= n * hi
    ensures s / n <= hi
  {
    var m := s / n;
    assert m * n == s;
    if m > hi {
      assert (m - hi) * n > 0.0;
    }
  }

  /** Every element at least lo makes the sum at least |xs| * lo. */
  lemma {:induction false} SumAtLeast(xs: seq<real>, lo: real)
    requires forall i :: 0 <= i < |xs| ==> xs[i] >= lo
    ensures Sum(xs) >= |xs| as real * lo
  {
    if xs != [] {
      SumAtLeast(xs[..|xs| - 1], lo);
    }
  }

  /** A sum of non-negative reals is non-negative. */
  lemma SumNonneg(xs: seq<real>)
    ensures (forall i :: 0 <= i < |xs| ==> xs[i] >= 0.0) ==> Sum(xs) >= 0.0
  {
    if forall i :: 0 <= i < |xs| ==> xs[i] >= 0.0 {
      SumAtLeast(xs, 0.0);
    }
  }

  /** Every element at most hi makes the sum at most |xs| * hi. */
  lemma {:induction false} SumAtMost(xs: seq<real>, hi: real)
    requires forall i :: 0 <= i < |xs| ==> xs[i] <= hi
    ensures Sum(xs) <= |xs| as real * hi
  {
    if xs != [] {
      SumAtMost(xs[..|xs| - 1], hi);
    }
  }

  /** A non-empty sequence of positive reals has a positive sum. */
  lemma {:induction false} SumPositive(xs: seq<real>)
    requires |xs| > 0
    requires forall i :: 0 <= i < |xs| ==> xs[i] > 0.0
    ensures Sum(xs) > 0.0
  {
    var init := xs[..|xs| - 1];
    if init != [] {
      SumPositive(init);
    }
  }

  /** The mean lies between the smallest and largest bound of the elements. */
  lemma MeanWithin(xs: seq<real>, lo: real, hi: real)
    requires |xs| > 0
    requires forall i :: 0 <= i < |xs| ==> lo <= xs[i] <= hi
    ensures lo <= Mean(xs) <= hi
  {
    SumAtLeast(xs, lo);
    SumAtMost(xs, hi);
    DivAtLeast(Sum(xs), |xs| as real, lo);
    DivAtMost(Sum(xs), |xs| as real, hi);
  }
}

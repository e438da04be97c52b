/** The indicator library: exponential moving average (trend), Wilder RSI
    (momentum) and Wilder ATR (volatility). Each indicator is a method that
    builds its output step by step, as the source does, and is proved equal
    to a specification function; the properties are lemmas about those
    functions. */
module Indicators {
  import opened Common

  // ---------------------------------------------------------------------
  // EMA
  // ---------------------------------------------------------------------

  /** Smoothing factor k = 2 / (period + 1). */
  function EmaFactor(period: int): (k: real)
    requires period >= 1
    ensures 0.0 < k <= 1.0
  {
    2.0 / (period + 1) as real
  }

  /** One EMA step: the new value weighted by k, the previous EMA by 1 - k. */
  function EmaStep(v: real, prev: real, k: real): (e: real)
  {
    v * k + prev * (1.0 - k)
  }

  /** The EMA at index i: values[0] at index 0, then one EmaStep per value. */
  function EmaAt(values: seq<real>, k: real, i: nat): (e: real)
    requires i < |values|
  {
    if i == 0 then values[0] else EmaStep(values[i], EmaAt(values, k, i - 1), k)
  }

  /** The EMA series: empty for empty input or a non-positive period,
      otherwise aligned with the input and seeded with its first value. */
  function EmaSeries(values: seq<real>, period: int): (r: seq<real>)
    ensures |r| == if values == [] || period <= 0 then 0 else |values|
    ensures r != [] ==> r[0] == values[0]
  {
    if values == [] || period <= 0 then []
    else seq(|values|, i requires 0 <= i < |values| => EmaAt(values, EmaFactor(period), i))
  }

  /** Appends one smoothed value per input value after the seed. */
  method Ema(values: seq<real>, period: int) returns (out: seq<real>)
    ensures out == EmaSeries(values, period)
  {
    if values == [] || period <= 0 {
      return [];
    }
    var k := 2.0 / (period + 1) as real;
    out := [values[0]];
    var i := 1;
    while i < |values|
      invariant 1 <= i <= |values|
      invariant |out| == i
      invariant forall j :: 0 <= j < i ==> out[j] == EmaAt(values, k, j)
    {
      out := out + [EmaStep(values[i], out[|out| - 1], k)];
      i := i + 1;
    }
  }

  lemma {:induction false} EmaAtConstant(values: seq<real>, k: real, c: real, i: nat)
    requires i < |values|
    requires forall j :: 0 <= j < |values| ==> values[j] == c
    ensures EmaAt(values, k, i) == c
  {
    if i > 0 {
      EmaAtConstant(values, k, c, i - 1);
    }
  }

  /** A constant series has that constant as its EMA at every index. */
  lemma EmaOfConstant(values: seq<real>, period: int, c: real)
    requires forall j :: 0 <= j < |values| ==> values[j] == c
    ensures forall i :: 0 <= i < |EmaSeries(values, period)| ==> EmaSeries(values, period)[i] == c
  {
    forall i | 0 <= i < |EmaSeries(values, period)|
      ensures EmaSeries(values, period)[i] == c
    {
      EmaAtConstant(values, EmaFactor(period), c, i);
    }
  }

  /** A step between two values in [lo, hi] stays in [lo, hi]. */
  lemma EmaStepWithin(v: real, prev: real, k: real, lo: real, hi: real)
    requires 0.0 <= k <= 1.0 && lo <= v <= hi && lo <= prev <= hi
    ensures lo <= EmaStep(v, prev, k) <= hi
  {
    MulNonneg(v - lo, k);
    MulNonneg(prev - lo, 1.0 - k);
    MulNonneg(hi - v, k);
    MulNonneg(hi - prev, 1.0 - k);
    assert EmaStep(v, prev, k) - lo == (v - lo) * k + (prev - lo) * (1.0 - k);
    assert hi - EmaStep(v, prev, k) == (hi - v) * k + (hi - prev) * (1.0 - k);
  }

  lemma {:induction false} EmaAtWithin(values: seq<real>, k: real, lo: real, hi: real, i: nat)
    requires i < |values| && 0.0 <= k <= 1.0
    requires forall j :: 0 <= j < |values| ==> lo <= values[j] <= hi
    ensures lo <= EmaAt(values, k, i) <= hi
  {
    if i > 0 {
      EmaAtWithin(values, k, lo, hi, i - 1);
      EmaStepWithin(values[i], EmaAt(values, k, i - 1), k, lo, hi);
    }
  }

  /** The EMA is a running convex combination: it never leaves the range
      of the input values. */
  lemma EmaWithinRange(values: seq<real>, period: int, lo: real, hi: real)
    requires forall j :: 0 <= j < |values| ==> lo <= values[j] <= hi
    ensures forall i :: 0 <= i < |EmaSeries(values, period)| ==> lo <= EmaSeries(values, period)[i] <= hi
  {
    forall i | 0 <= i < |EmaSeries(values, period)|
      ensures lo <= EmaSeries(values, period)[i] <= hi
    {
      EmaAtWithin(values, EmaFactor(period), lo, hi, i);
    }
  }

  // ---------------------------------------------------------------------
  // RSI
  // ---------------------------------------------------------------------

  /** Positive parts of the close-to-close changes; index 0 holds 0. */
  function Gains(closes: seq<real>): (g: seq<real>)
    ensures |g| == |closes|
    ensures forall i :: 0 <= i < |g| ==> g[i] >= 0.0
  {
    seq(|closes|, i requires 0 <= i < |closes| => if i == 0 then 0.0 else Max(closes[i] - closes[i - 1], 0.0))
  }

  /** Negative parts of the close-to-close changes, as positive numbers; index 0 holds 0. */
  function Losses(closes: seq<real>): (l: seq<real>)
    ensures |l| == |closes|
    ensures forall i :: 0 <= i < |l| ==> l[i] >= 0.0
  {
    seq(|closes|, i requires 0 <= i < |closes| => if i == 0 then 0.0 else Max(-(closes[i] - closes[i - 1]), 0.0))
  }

  /** One step of the RSI's Wilder smoothing: (previous * (period - 1) + x) / period. */
  function RsiSmooth(prev: real, x: real, period: int): (r: real)
    requires period >= 1
    ensures prev >= 0.0 && x >= 0.0 ==> r >= 0.0
  {
    MulNonneg(prev, (period - 1) as real);
    (prev * (period - 1) as real + x) / period as real
  }

  /** The RSI's running average of xs at index i: at index period + 1 the
      mean of xs[1..period], and at each later index i the Wilder step
      (previous * (period - 1) + xs[i]) / period. The entry xs[period + 1]
      is never read. */
  function RsiAverage(xs: seq<real>, period: int, i: int): (avg: real)
    requires period >= 1 && |xs| >= period + 1
    requires period + 1 <= i && (i == period + 1 || i < |xs|)
    ensures (forall j :: 0 <= j < |xs| ==> xs[j] >= 0.0) ==> avg >= 0.0
    decreases i
  {
    if i == period + 1 then
      var seed := xs[1..period + 1];
      SumNonneg(seed);
      Sum(seed) / period as real
    else
      RsiSmooth(RsiAverage(xs, period, i - 1), xs[i], period)
  }

  /** RSI from the two averages. A zero average loss makes the relative
      strength infinite, and the RSI is then 100. */
  function RsiOf(avgGain: real, avgLoss: real): (r: real)
    requires avgGain >= 0.0 && avgLoss >= 0.0
    ensures 0.0 <= r <= 100.0
    ensures r == 100.0 <==> avgLoss == 0.0
    ensures avgGain == 0.0 && avgLoss > 0.0 ==> r == 0.0
  {
    if avgLoss == 0.0 then 100.0
    else
      var rs := avgGain / avgLoss;
      assert rs >= 0.0;
      var part := 100.0 / (1.0 + rs);
      assert part * (1.0 + rs) == 100.0;
      assert part > 0.0;
      MulNonneg(part, rs);
      100.0 - part
  }

  /** Length of the RSI output for input length n: n when n < period + 1,
      otherwise the larger of period + 2 and n. */
  function RsiLength(n: nat, period: int): (len: nat)
    requires period >= 1
  {
    if n < period + 1 then n else if n > period + 2 then n else period + 2
  }

  /** The RSI entry at index i > period of an input with the given gains and losses. */
  function RsiEntry(gains: seq<real>, losses: seq<real>, period: int, i: int): (r: real)
    requires period >= 1 && |gains| == |losses| >= period + 1
    requires period + 1 <= i && (i == period + 1 || i < |gains|)
    requires forall j :: 0 <= j < |gains| ==> gains[j] >= 0.0 && losses[j] >= 0.0
    ensures 0.0 <= r <= 100.0
  {
    RsiOf(RsiAverage(gains, period, i), RsiAverage(losses, period, i))
  }

  /** The RSI values for the given gains and losses (at least period + 1
      of each): indices 0..period are unavailable and every later index
      holds RsiOf of the two running averages. */
  function RsiValues(gains: seq<real>, losses: seq<real>, period: int): (r: seq<Option<real>>)
    requires period >= 1 && |gains| == |losses| >= period + 1
    requires forall j :: 0 <= j < |gains| ==> gains[j] >= 0.0 && losses[j] >= 0.0
    ensures |r| == RsiLength(|gains|, period)
    ensures forall i :: 0 <= i < |r| ==> (r[i].Some? <==> i > period)
    ensures forall i :: 0 <= i < |r| && r[i].Some? ==> 0.0 <= r[i].value <= 100.0
  {
    seq(RsiLength(|gains|, period), i requires 0 <= i < RsiLength(|gains|, period) =>
      if i <= period then None else Some(RsiEntry(gains, losses, period, i)))
  }

  /** The RSI series. Too short an input gives all-unavailable entries;
      otherwise the RSI values of its gains and losses. */
  function RsiSeries(closes: seq<real>, period: int): (r: seq<Option<real>>)
    requires period >= 1
    ensures |r| == RsiLength(|closes|, period) && |r| >= |closes|
    ensures |closes| < period + 1 ==> forall i :: 0 <= i < |r| ==> r[i].None?
    ensures |closes| >= period + 1 ==> forall i :: 0 <= i < |r| ==> (r[i].Some? <==> i > period)
    ensures forall i :: 0 <= i < |r| && r[i].Some? ==> 0.0 <= r[i].value <= 100.0
  {
    if |closes| < period + 1 then seq(|closes|, _ => None)
    else RsiValues(Gains(closes), Losses(closes), period)
  }

  /** The first loop of the RSI: gains and losses of every close-to-close
      change, each list starting with 0. */
  method ChangeParts(closes: seq<real>) returns (gains: seq<real>, losses: seq<real>)
    requires |closes| > 0
    ensures gains == Gains(closes) && losses == Losses(closes)
  {
    gains := [0.0];
    losses := [0.0];
    var i := 1;
    while i < |closes|
      invariant 1 <= i <= |closes|
      invariant |gains| == |losses| == i
      invariant forall j :: 0 <= j < i ==> gains[j] == Gains(closes)[j] && losses[j] == Losses(closes)[j]
    {
      var ch := closes[i] - closes[i - 1];
      gains := gains + [Max(ch, 0.0)];
      losses := losses + [Max(-ch, 0.0)];
      i := i + 1;
    }
  }

  /** The seed averages and the second loop of the RSI: one value per index
      after period, updating the two averages by Wilder smoothing. */
  method SmoothedRsi(gains: seq<real>, losses: seq<real>, period: int) returns (rsis: seq<Option<real>>)
    requires period >= 1 && |gains| == |losses| >= period + 1
    requires forall j :: 0 <= j < |gains| ==> gains[j] >= 0.0 && losses[j] >= 0.0
    ensures rsis == RsiValues(gains, losses, period)
  {
    ghost var spec := RsiValues(gains, losses, period);
    var avgGain := Sum(gains[1..period + 1]) / period as real;
    var avgLoss := Sum(losses[1..period + 1]) / period as real;
    assert avgGain == RsiAverage(gains, period, period + 1);
    assert avgLoss == RsiAverage(losses, period, period + 1);
    rsis := seq(period + 1, _ => None);
    assert rsis == spec[..period + 1];
    rsis := rsis + [Some(RsiOf(avgGain, avgLoss))];
    assert spec[..period + 2] == spec[..period + 1] + [spec[period + 1]];
    var i := period + 2;
    while i < |gains|
      invariant period + 2 <= i <= |spec|
      invariant avgGain == RsiAverage(gains, period, i - 1)
      invariant avgLoss == RsiAverage(losses, period, i - 1)
      invariant rsis == spec[..i]
    {
      avgGain := RsiSmooth(avgGain, gains[i], period);
      avgLoss := RsiSmooth(avgLoss, losses[i], period);
      assert spec[..i + 1] == spec[..i] + [spec[i]];
      rsis := rsis + [Some(RsiOf(avgGain, avgLoss))];
      i := i + 1;
    }
    assert spec[..i] == spec;
  }

  /** Builds gains and losses, then the seed and one RSI value per later
      index. */
  method Rsi(closes: seq<real>, period: int) returns (rsis: seq<Option<real>>)
    requires period >= 1
    ensures rsis == RsiSeries(closes, period)
  {
    if |closes| < period + 1 {
      return seq(|closes|, _ => None);
    }
    var gains, losses := ChangeParts(closes);
    rsis := SmoothedRsi(gains, losses, period);
  }

  lemma {:induction false} RsiAverageZero(xs: seq<real>, period: int, i: int)
    requires period >= 1 && |xs| >= period + 1
    requires period + 1 <= i && (i == period + 1 || i < |xs|)
    requires forall j :: 0 <= j < |xs| ==> xs[j] == 0.0
    ensures RsiAverage(xs, period, i) == 0.0
  {
    if i == period + 1 {
      var seed := xs[1..period + 1];
      assert forall j :: 0 <= j < |seed| ==> seed[j] == xs[j + 1];
      SumAtLeast(seed, 0.0);
      SumAtMost(seed, 0.0);
    } else {
      RsiAverageZero(xs, period, i - 1);
    }
  }

  /** A smoothing step with a positive new entry is positive. */
  lemma RsiSmoothPositive(prev: real, x: real, period: int)
    requires period >= 1 && prev >= 0.0 && x > 0.0
    ensures RsiSmooth(prev, x, period) > 0.0
  {
    MulNonneg(prev, (period - 1) as real);
    var num := prev * (period - 1) as real + x;
    assert num > 0.0;
    DivPositive(num, period as real);
  }

  lemma {:induction false} RsiAveragePositive(xs: seq<real>, period: int, i: int)
    requires period >= 1 && |xs| >= period + 1
    requires period + 1 <= i && (i == period + 1 || i < |xs|)
    requires forall j :: 1 <= j < |xs| ==> xs[j] > 0.0
    ensures RsiAverage(xs, period, i) > 0.0
  {
    if i == period + 1 {
      var seed := xs[1..period + 1];
      assert forall j :: 0 <= j < |seed| ==> seed[j] == xs[j + 1];
      SumPositive(seed);
    } else {
      RsiAveragePositive(xs, period, i - 1);
      RsiSmoothPositive(RsiAverage(xs, period, i - 1), xs[i], period);
    }
  }

  /** Closes that never fall have no losses: every defined RSI is 100. */
  lemma RsiOfRisingCloses(closes: seq<real>, period: int)
    requires period >= 1
    requires forall i :: 1 <= i < |closes| ==> closes[i - 1] <= closes[i]
    ensures forall i :: 0 <= i < |RsiSeries(closes, period)| && RsiSeries(closes, period)[i].Some? ==>
              RsiSeries(closes, period)[i].value == 100.0
  {
    var r := RsiSeries(closes, period);
    if |closes| >= period + 1 {
      var losses := Losses(closes);
      forall j | 0 <= j < |losses|
        ensures losses[j] == 0.0
      {
        if j > 0 {
          assert closes[j - 1] <= closes[j];
        }
      }
      forall i | 0 <= i < |r| && r[i].Some?
        ensures r[i].value == 100.0
      {
        RsiAverageZero(losses, period, i);
      }
    }
  }

  /** Strictly falling closes have no gains and positive losses: every
      defined RSI is 0. */
  lemma RsiOfFallingCloses(closes: seq<real>, period: int)
    requires period >= 1
    requires forall i :: 1 <= i < |closes| ==> closes[i - 1] > closes[i]
    ensures forall i :: 0 <= i < |RsiSeries(closes, period)| && RsiSeries(closes, period)[i].Some? ==>
              RsiSeries(closes, period)[i].value == 0.0
  {
    var r := RsiSeries(closes, period);
    if |closes| >= period + 1 {
      var gains := Gains(closes);
      var losses := Losses(closes);
      assert forall j :: 0 <= j < |gains| ==> gains[j] == 0.0;
      assert forall j :: 1 <= j < |losses| ==> losses[j] > 0.0;
      forall i | 0 <= i < |r| && r[i].Some?
        ensures r[i].value == 0.0
      {
        RsiAverageZero(gains, period, i);
        RsiAveragePositive(losses, period, i);
      }
    }
  }

  lemma {:induction false} RsiAverageSkipsSeedStep(xs: seq<real>, ys: seq<real>, period: int, i: int)
    requires period >= 1 && |xs| == |ys| >= period + 1
    requires period + 1 <= i && (i == period + 1 || i < |xs|)
    requires forall j :: 0 <= j < |xs| && j != period + 1 ==> xs[j] == ys[j]
    ensures RsiAverage(xs, period, i) == RsiAverage(ys, period, i)
  {
    if i == period + 1 {
      assert xs[1..period + 1] == ys[1..period + 1];
    } else {
      RsiAverageSkipsSeedStep(xs, ys, period, i - 1);
    }
  }

  /** The source's off-by-one, reproduced: the first RSI value (index
      period + 1) is computed from the changes at indices 1..period and the
      smoothing starts at index period + 2, so the change at index
      period + 1 never enters the RSI. Two close series whose changes agree
      everywhere else have the same RSI series. */
  lemma RsiIgnoresChangeAtSeedIndex(c1: seq<real>, c2: seq<real>, period: int)
    requires period >= 1 && |c1| == |c2|
    requires forall j :: 0 <= j < |c1| && j != period + 1 ==> Gains(c1)[j] == Gains(c2)[j] && Losses(c1)[j] == Losses(c2)[j]
    ensures RsiSeries(c1, period) == RsiSeries(c2, period)
  {
    var r1, r2 := RsiSeries(c1, period), RsiSeries(c2, period);
    if |c1| >= period + 1 {
      forall i | 0 <= i < |r1|
        ensures r1[i] == r2[i]
      {
        if i > period {
          RsiAverageSkipsSeedStep(Gains(c1), Gains(c2), period, i);
          RsiAverageSkipsSeedStep(Losses(c1), Losses(c2), period, i);
        }
      }
    }
  }

  // ---------------------------------------------------------------------
  // ATR
  // ---------------------------------------------------------------------

  /** True range at index i >= 1: the largest of high - low and the
      distances of high and low from the previous close. */
  function TrueRange(highs: seq<real>, lows: seq<real>, closes: seq<real>, i: int): (tr: real)
    requires |highs| == |lows| == |closes|
    requires 1 <= i < |closes|
    ensures tr >= 0.0
    ensures tr >= highs[i] - lows[i] && tr >= Abs(highs[i] - closes[i - 1]) && tr >= Abs(lows[i] - closes[i - 1])
    ensures tr == highs[i] - lows[i] || tr == Abs(highs[i] - closes[i - 1]) || tr == Abs(lows[i] - closes[i - 1])
  {
    Max(Max(highs[i] - lows[i], Abs(highs[i] - closes[i - 1])), Abs(lows[i] - closes[i - 1]))
  }

  /** True ranges aligned with the input; index 0 stands for the source's
      NaN entry and is never read. */
  function TrueRanges(highs: seq<real>, lows: seq<real>, closes: seq<real>): (trs: seq<real>)
    requires |highs| == |lows| == |closes|
    ensures |trs| == |closes|
    ensures forall i :: 1 <= i < |trs| ==>
              trs[i] >= 0.0 && trs[i] >= highs[i] - lows[i]
              && trs[i] >= Abs(highs[i] - closes[i - 1]) && trs[i] >= Abs(lows[i] - closes[i - 1])
              && (trs[i] == highs[i] - lows[i] || trs[i] == Abs(highs[i] - closes[i - 1])
                  || trs[i] == Abs(lows[i] - closes[i - 1]))
  {
    seq(|closes|, i requires 0 <= i < |closes| => if i == 0 then 0.0 else TrueRange(highs, lows, closes, i))
  }

  /** One step of the ATR's Wilder smoothing with alpha = 1 / period:
      previous - alpha * previous + alpha * tr. */
  function AtrSmooth(prev: real, tr: real, period: int): (r: real)
    requires period >= 1
    ensures prev >= 0.0 && tr >= 0.0 ==> r >= 0.0
  {
    var alpha := 1.0 / period as real;
    MulNonneg(prev, 1.0 - alpha);
    MulNonneg(alpha, tr);
    prev - alpha * prev + alpha * tr
  }

  /** Wilder RMA of the true ranges: at index period the mean of
      trs[1..period], then previous - previous / period + trs[i] / period. */
  function AtrAt(trs: seq<real>, period: int, i: int): (a: real)
    requires period >= 1 && period <= i < |trs|
    ensures (forall j :: 1 <= j < |trs| ==> trs[j] >= 0.0) ==> a >= 0.0
    decreases i
  {
    if i == period then
      SumNonneg(trs[1..period + 1]);
      Sum(trs[1..period + 1]) / period as real
    else
      AtrSmooth(AtrAt(trs, period, i - 1), trs[i], period)
  }

  /** The ATR values for true ranges trs: all unavailable when there are
      at most period of them, otherwise unavailable before index period and
      the Wilder average from there on. */
  function AtrValues(trs: seq<real>, period: int): (r: seq<Option<real>>)
    requires period >= 1
    ensures |r| == |trs|
    ensures forall i :: 0 <= i < |r| ==> (r[i].Some? <==> period < |trs| && i >= period)
    ensures (forall j :: 1 <= j < |trs| ==> trs[j] >= 0.0) ==>
              forall i :: 0 <= i < |r| && r[i].Some? ==> r[i].value >= 0.0
  {
    if |trs| <= period then seq(|trs|, _ => None)
    else seq(|trs|, i requires 0 <= i < |trs| => if i < period then None else Some(AtrAt(trs, period, i)))
  }

  /** The ATR series, aligned with closes. Mismatched input lengths or at
      most period candles give all-unavailable entries; otherwise indices
      before period are unavailable, index period is the mean of the first
      period true ranges, and every defined value is non-negative. */
  function AtrSeries(highs: seq<real>, lows: seq<real>, closes: seq<real>, period: int): (r: seq<Option<real>>)
    requires period >= 1
    ensures |r| == |closes|
    ensures (|highs| != |lows| || |highs| != |closes| || |closes| <= period) ==> forall i :: 0 <= i < |r| ==> r[i].None?
    ensures (|highs| == |lows| == |closes| && |closes| > period) ==>
              (forall i :: 0 <= i < |r| ==> (r[i].Some? <==> i >= period))
              && r[period] == Some(Sum(TrueRanges(highs, lows, closes)[1..period + 1]) / period as real)
    ensures forall i :: 0 <= i < |r| && r[i].Some? ==> r[i].value >= 0.0
  {
    if |highs| != |lows| || |highs| != |closes| then seq(|closes|, _ => None)
    else AtrValues(TrueRanges(highs, lows, closes), period)
  }

  /** The first loop of the ATR: the true range of every candle after the
      first, behind a placeholder entry for the first candle. */
  method TrueRangeList(highs: seq<real>, lows: seq<real>, closes: seq<real>) returns (trs: seq<real>)
    requires |highs| == |lows| == |closes| > 0
    ensures trs == TrueRanges(highs, lows, closes)
  {
    trs := [0.0];
    var i := 1;
    while i < |closes|
      invariant 1 <= i <= |closes|
      invariant |trs| == i
      invariant trs[0] == 0.0
      invariant forall j :: 1 <= j < i ==> trs[j] == TrueRange(highs, lows, closes, j)
    {
      var hl := highs[i] - lows[i];
      var hc := Abs(highs[i] - closes[i - 1]);
      var lc := Abs(lows[i] - closes[i - 1]);
      trs := trs + [Max(Max(hl, hc), lc)];
      i := i + 1;
    }
  }

  /** The RMA part of the ATR: an array of unavailable entries, filled in
      place from index period on when there are more than period true
      ranges. */
  method SmoothedAtr(trs: seq<real>, period: int) returns (result: seq<Option<real>>)
    requires period >= 1
    ensures result == AtrValues(trs, period)
  {
    var out := new Option<real>[|trs|](_ => None);
    if |trs| <= period {
      return out[..];
    }
    ghost var spec := AtrValues(trs, period);
    out[period] := Some(Sum(trs[1..period + 1]) / period as real);
    var i := period + 1;
    while i < |trs|
      invariant period + 1 <= i <= |trs| == out.Length == |spec|
      invariant forall j :: 0 <= j < i ==> out[j] == spec[j]
      invariant forall j :: i <= j < out.Length ==> out[j] == None
    {
      var prev := out[i - 1].value;
      out[i] := Some(AtrSmooth(prev, trs[i], period));
      assert out[i] == spec[i];
      i := i + 1;
    }
    result := out[..];
  }

  /** Collects the true ranges, then smooths them. */
  method Atr(highs: seq<real>, lows: seq<real>, closes: seq<real>, period: int) returns (result: seq<Option<real>>)
    requires period >= 1
    ensures result == AtrSeries(highs, lows, closes, period)
  {
    if |highs| != |lows| || |highs| != |closes| {
      return seq(|closes|, _ => None);
    }
    if |closes| == 0 {
      return [];
    }
    var trs := TrueRangeList(highs, lows, closes);
    result := SmoothedAtr(trs, period);
  }

  /** One smoothing step keeps the ATR between any bounds of the previous
      value and the new true range. */
  lemma AtrSmoothWithin(prev: real, tr: real, period: int, lo: real, hi: real)
    requires period >= 1
    requires lo <= prev <= hi && lo <= tr <= hi
    ensures lo <= AtrSmooth(prev, tr, period) <= hi
  {
    var alpha := 1.0 / period as real;
    assert 0.0 < alpha <= 1.0;
    MulNonneg(prev - lo, 1.0 - alpha);
    MulNonneg(alpha, tr - lo);
    MulNonneg(hi - prev, 1.0 - alpha);
    MulNonneg(alpha, hi - tr);
    assert AtrSmooth(prev, tr, period) - lo == (prev - lo) * (1.0 - alpha) + alpha * (tr - lo);
    assert hi - AtrSmooth(prev, tr, period) == (hi - prev) * (1.0 - alpha) + alpha * (hi - tr);
  }

  /** Every ATR value lies between any bounds of the true ranges. */
  lemma {:induction false} AtrAtWithin(trs: seq<real>, period: int, lo: real, hi: real, i: int)
    requires period >= 1 && period <= i < |trs|
    requires forall j :: 1 <= j < |trs| ==> lo <= trs[j] <= hi
    ensures lo <= AtrAt(trs, period, i) <= hi
  {
    if i == period {
      var seed := trs[1..period + 1];
      assert forall j :: 0 <= j < |seed| ==> seed[j] == trs[j + 1];
      MeanWithin(seed, lo, hi);
    } else {
      AtrAtWithin(trs, period, lo, hi, i - 1);
      AtrSmoothWithin(AtrAt(trs, period, i - 1), trs[i], period, lo, hi);
    }
  }

  /** Candles with no range whose close equals the next candle's prices
      (a flat market) have true range 0, and the ATR settles at 0. */
  lemma AtrOfFlatMarket(highs: seq<real>, lows: seq<real>, closes: seq<real>, period: int, c: real)
    requires period >= 1 && |highs| == |lows| == |closes|
    requires forall i :: 0 <= i < |closes| ==> highs[i] == c && lows[i] == c && closes[i] == c
    ensures forall i :: 0 <= i < |closes| && AtrSeries(highs, lows, closes, period)[i].Some? ==>
              AtrSeries(highs, lows, closes, period)[i].value == 0.0
  {
    var r := AtrSeries(highs, lows, closes, period);
    if |closes| > period {
      var trs := TrueRanges(highs, lows, closes);
      forall i | 0 <= i < |closes| && r[i].Some?
        ensures r[i].value == 0.0
      {
        AtrAtWithin(trs, period, 0.0, 0.0, i);
      }
    }
  }
}

/** The three-candle fair-value-gap detector: a bullish gap when the
    current candle's low clears the high of the candle two bars back, a
    bearish gap in the mirror case, each confirmed by a strong middle candle
    whose body exceeds an adaptive threshold. */
module Gaps {
  import opened Common

  /** Body of a candle as a signed fraction of its open, divided by a
      further 100; 0 for a zero open. With a positive open it has the sign
      of the body. */
  function BarDeltaPercent(open: real, close: real): (r: real)
    ensures open == 0.0 ==> r == 0.0
    ensures open > 0.0 ==> (r > 0.0 <==> close > open) && (r < 0.0 <==> close < open)
  {
    if open == 0.0 then 0.0
    else
      QuotientSign(close - open, open * 100.0);
      (close - open) / (open * 100.0)
  }

  /** For a non-zero open, the bar delta times 100 times the open recovers
      the body: the delta is the body on the open * 100 scale. */
  lemma BarDeltaScale(open: real, close: real)
    requires open != 0.0
    ensures BarDeltaPercent(open, close) * (open * 100.0) == close - open
  {
  }

  /** Start index of the Python slice xs[-w:] on a list of length n. */
  function SuffixStart(n: nat, w: int): (s: nat)
    ensures s <= n
    ensures w >= 1 ==> s == if w <= n then n - w else 0
    ensures w == 0 ==> s == 0
    ensures w < 0 ==> s == if -w <= n then -w else n
  {
    if w > 0 then (if w <= n then n - w else 0)
    else if w == 0 then 0
    else if -w <= n then -w else n
  }

  /** The sample the threshold averages: the last window entries when the
      series is longer than window, otherwise the whole series. A window
      of 0 takes the whole series and a negative window drops that many
      leading entries, as Python's slicing does. */
  function ThresholdSample(bdp: seq<real>, window: int): (s: seq<real>)
    ensures window >= 1 ==> |s| == (if |bdp| > window then window else |bdp|) && s == bdp[|bdp| - |s|..]
    ensures window == 0 ==> s == bdp
    ensures window < 0 ==> s == if -window <= |bdp| then bdp[-window..] else []
  {
    if |bdp| > window then bdp[SuffixStart(|bdp|, window)..] else bdp
  }

  /** Twice the mean absolute bar delta over the sample; 0 for an empty
      series or an empty sample. */
  function AutoThreshold(bdp: seq<real>, window: int): (t: real)
    ensures t >= 0.0
    ensures bdp == [] || ThresholdSample(bdp, window) == [] ==> t == 0.0
  {
    if bdp == [] then 0.0
    else
      var sample := ThresholdSample(bdp, window);
      if sample == [] then 0.0
      else
        SumNonneg(AbsAll(sample));
        2.0 * Mean(AbsAll(sample))
  }

  /** The threshold is at most twice the largest magnitude in the sample. */
  lemma AutoThresholdBound(bdp: seq<real>, window: int, m: real)
    requires forall i :: 0 <= i < |bdp| ==> Abs(bdp[i]) <= m
    ensures AutoThreshold(bdp, window) <= 2.0 * Max(m, 0.0)
  {
    if bdp != [] {
      var sample := ThresholdSample(bdp, window);
      if sample != [] {
        var a := AbsAll(sample);
        assert forall i :: 0 <= i < |sample| ==> sample[i] in bdp;
        MeanWithin(a, 0.0, Max(m, 0.0));
      }
    }
  }

  /** For a window of at least 1, only the last window entries matter: two
      series that agree on them give the same threshold. */
  lemma AutoThresholdRecentWindow(a: seq<real>, b: seq<real>, window: int)
    requires window >= 1 && |a| >= window && |b| >= window
    requires a[|a| - window..] == b[|b| - window..]
    ensures AutoThreshold(a, window) == AutoThreshold(b, window)
  {
    assert ThresholdSample(a, window) == a[|a| - window..];
    assert ThresholdSample(b, window) == b[|b| - window..];
  }

  /** The bar deltas of a candle list, one per candle. */
  function BarDeltas(klines: seq<Candle>): (r: seq<real>)
    ensures |r| == |klines|
    ensures forall i :: 0 <= i < |klines| ==> r[i] == BarDeltaPercent(klines[i].open, klines[i].close)
  {
    seq(|klines|, i requires 0 <= i < |klines| => BarDeltaPercent(klines[i].open, klines[i].close))
  }

  /** The detector's result: a bullish gap as (bottom, top), a bearish gap
      as (top, bottom). */
  datatype Fvg = Fvg(bull: Option<(real, real)>, bear: Option<(real, real)>)

  /** The threshold the middle candle's body must beat: the auto threshold
      of every candle except the current one, or 0 when it is disabled. */
  function GapThreshold(klines: seq<Candle>, autoThreshold: bool, window: int): (t: real)
    requires |klines| >= 1
    ensures t >= 0.0
    ensures !autoThreshold ==> t == 0.0
  {
    if autoThreshold then AutoThreshold(BarDeltas(klines[..|klines| - 1]), window) else 0.0
  }

  /** The bullish conditions on the last three candles. */
  predicate BullishSetup(prev2: Candle, prev1: Candle, curr: Candle, thr: real)
  {
    curr.low > prev2.high && prev1.close > prev2.high && BarDeltaPercent(prev1.open, prev1.close) > thr
  }

  /** The bearish conditions, mirrored. */
  predicate BearishSetup(prev2: Candle, prev1: Candle, curr: Candle, thr: real)
  {
    curr.high < prev2.low && prev1.close < prev2.low && -BarDeltaPercent(prev1.open, prev1.close) > thr
  }

  /** The detector on the last three candles of klines. */
  function DetectFvg(klines: seq<Candle>, autoThreshold: bool, window: int): (d: Fvg)
    ensures |klines| < 3 ==> d == Fvg(None, None)
    ensures |klines| >= 3 ==>
              var n := |klines|;
              var thr := GapThreshold(klines, autoThreshold, window);
              (d.bull.Some? <==> BullishSetup(klines[n - 3], klines[n - 2], klines[n - 1], thr))
              && (d.bear.Some? <==> BearishSetup(klines[n - 3], klines[n - 2], klines[n - 1], thr))
    ensures d.bull.Some? ==> d.bull.value == (klines[|klines| - 3].high, klines[|klines| - 1].low)
                              && d.bull.value.0 < d.bull.value.1
    ensures d.bear.Some? ==> d.bear.value == (klines[|klines| - 3].low, klines[|klines| - 1].high)
                              && d.bear.value.0 > d.bear.value.1
  {
    if |klines| < 3 then Fvg(None, None)
    else
      var prev2 := klines[|klines| - 3];
      var prev1 := klines[|klines| - 2];
      var curr := klines[|klines| - 1];
      var thr := GapThreshold(klines, autoThreshold, window);
      var bull :=
        if BullishSetup(prev2, prev1, curr, thr)
        then Some((Min(curr.low, prev2.high), Max(curr.low, prev2.high)))
        else None;
      var bear :=
        if BearishSetup(prev2, prev1, curr, thr)
        then Some((Max(curr.high, prev2.low), Min(curr.high, prev2.low)))
        else None;
      Fvg(bull, bear)
  }

  /** A bullish and a bearish gap are never reported together, for any
      candles: the middle candle's bar delta would have to exceed a
      non-negative threshold and fall below its negation. */
  lemma NeverBoth(klines: seq<Candle>, autoThreshold: bool, window: int)
    ensures !(DetectFvg(klines, autoThreshold, window).bull.Some? && DetectFvg(klines, autoThreshold, window).bear.Some?)
  {
    if |klines| >= 3 {
      var thr := GapThreshold(klines, autoThreshold, window);
      assert thr >= 0.0;
    }
  }

  /** A bullish gap needs a middle candle that closed above a positive open
      (or opened below zero); a bearish gap the mirror. */
  lemma GapNeedsStrongMiddleBar(klines: seq<Candle>, autoThreshold: bool, window: int)
    requires |klines| >= 3 && klines[|klines| - 2].open > 0.0
    ensures DetectFvg(klines, autoThreshold, window).bull.Some? ==> klines[|klines| - 2].close > klines[|klines| - 2].open
    ensures DetectFvg(klines, autoThreshold, window).bear.Some? ==> klines[|klines| - 2].close < klines[|klines| - 2].open
  {
  }

  /** The current candle's open and close never matter: the threshold
      excludes it and the tests read only its high and low. */
  lemma DetectIgnoresCurrentBody(k1: seq<Candle>, k2: seq<Candle>, autoThreshold: bool, window: int)
    requires |k1| == |k2| >= 1
    requires k1[..|k1| - 1] == k2[..|k2| - 1]
    requires k1[|k1| - 1].high == k2[|k2| - 1].high && k1[|k1| - 1].low == k2[|k2| - 1].low
    ensures DetectFvg(k1, autoThreshold, window) == DetectFvg(k2, autoThreshold, window)
  {
    var n := |k1|;
    if n >= 3 {
      assert k1[n - 3] == k1[..n - 1][n - 3] == k2[..n - 1][n - 3] == k2[n - 3];
      assert k1[n - 2] == k1[..n - 1][n - 2] == k2[..n - 1][n - 2] == k2[n - 2];
    }
  }

  /** With a window of at least 2, the detector reads only the last
      window + 1 candles: two histories that end with the same window + 1
      candles give the same result. */
  lemma DetectUsesRecentBars(pre1: seq<Candle>, pre2: seq<Candle>, recent: seq<Candle>, autoThreshold: bool, window: int)
    requires window >= 2 && |recent| == window + 1
    ensures DetectFvg(pre1 + recent, autoThreshold, window) == DetectFvg(pre2 + recent, autoThreshold, window)
  {
    var k1, k2 := pre1 + recent, pre2 + recent;
    assert k1[|k1| - 3] == recent[window - 2] == k2[|k2| - 3];
    assert k1[|k1| - 2] == recent[window - 1] == k2[|k2| - 2];
    assert k1[|k1| - 1] == recent[window] == k2[|k2| - 1];
    GapThresholdUsesRecentBars(pre1, pre2, recent, autoThreshold, window);
    DetectSameInputs(k1, k2, autoThreshold, window);
  }

  /** The threshold reads only the window candles before the current one. */
  lemma GapThresholdUsesRecentBars(pre1: seq<Candle>, pre2: seq<Candle>, recent: seq<Candle>, autoThreshold: bool, window: int)
    requires window >= 1 && |recent| == window + 1
    ensures GapThreshold(pre1 + recent, autoThreshold, window) == GapThreshold(pre2 + recent, autoThreshold, window)
  {
    var k1, k2 := pre1 + recent, pre2 + recent;
    var w := recent[..window];
    assert k1[..|k1| - 1] == pre1 + w;
    assert k2[..|k2| - 1] == pre2 + w;
    GapThresholdOfHistory(k1, pre1 + w, autoThreshold, window);
    GapThresholdOfHistory(k2, pre2 + w, autoThreshold, window);
    var b1, b2 := BarDeltas(pre1 + w), BarDeltas(pre2 + w);
    BarDeltasSuffix(pre1 + w, |pre1|);
    BarDeltasSuffix(pre2 + w, |pre2|);
    assert (pre1 + w)[|pre1|..] == w;
    assert (pre2 + w)[|pre2|..] == w;
    AutoThresholdRecentWindow(b1, b2, window);
  }

  /** The auto threshold is taken over the history before the current candle. */
  lemma GapThresholdOfHistory(klines: seq<Candle>, history: seq<Candle>, autoThreshold: bool, window: int)
    requires |klines| >= 1 && klines[..|klines| - 1] == history
    ensures autoThreshold ==> GapThreshold(klines, autoThreshold, window) == AutoThreshold(BarDeltas(history), window)
  {
  }

  /** The detector reads only the last three candles and the threshold. */
  lemma DetectSameInputs(k1: seq<Candle>, k2: seq<Candle>, autoThreshold: bool, window: int)
    requires |k1| >= 3 && |k2| >= 3
    requires k1[|k1| - 3] == k2[|k2| - 3] && k1[|k1| - 2] == k2[|k2| - 2] && k1[|k1| - 1] == k2[|k2| - 1]
    requires GapThreshold(k1, autoThreshold, window) == GapThreshold(k2, autoThreshold, window)
    ensures DetectFvg(k1, autoThreshold, window) == DetectFvg(k2, autoThreshold, window)
  {
  }

  /** Bar deltas commute with dropping leading candles. */
  lemma BarDeltasSuffix(klines: seq<Candle>, a: nat)
    requires a <= |klines|
    ensures BarDeltas(klines)[a..] == BarDeltas(klines[a..])
  {
  }

  /** A flat candle, a rising candle that closes below the first high, and
      a candle whose low clears that high: with the threshold disabled the
      gap from the first high to the current low is bullish. */
  lemma BullishGapExample()
    ensures DetectFvg([Candle(0, 100.0, 100.0, 100.0, 100.0), Candle(1, 100.0, 105.0, 99.0, 104.0),
                       Candle(2, 110.0, 112.0, 108.0, 111.0)], false, 100) == Fvg(Some((100.0, 108.0)), None)
  {
    var k := [Candle(0, 100.0, 100.0, 100.0, 100.0), Candle(1, 100.0, 105.0, 99.0, 104.0),
              Candle(2, 110.0, 112.0, 108.0, 111.0)];
    assert BarDeltaPercent(100.0, 104.0) == 4.0 / 10000.0;
  }

  /** The same candles with the auto threshold enabled: the middle candle's
      bar delta only equals twice the mean of the two prior deltas, so no
      gap is reported. */
  lemma AutoThresholdRejectsExample()
    ensures DetectFvg([Candle(0, 100.0, 100.0, 100.0, 100.0), Candle(1, 100.0, 105.0, 99.0, 104.0),
                       Candle(2, 110.0, 112.0, 108.0, 111.0)], true, 100) == Fvg(None, None)
  {
    var k := [Candle(0, 100.0, 100.0, 100.0, 100.0), Candle(1, 100.0, 105.0, 99.0, 104.0),
              Candle(2, 110.0, 112.0, 108.0, 111.0)];
    var b := BarDeltas(k[..2]);
    assert b == [0.0, 4.0 / 10000.0];
    assert ThresholdSample(b, 100) == b;
    assert AbsAll(b) == b;
    assert Sum(b) == 4.0 / 10000.0 by {
      assert b[..1] == [0.0];
      assert Sum(b[..1]) == 0.0 by { assert b[..1][..0] == []; }
    }
    assert GapThreshold(k, true, 100) == 4.0 / 10000.0;
  }
}

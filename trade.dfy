/** Trade parameters for a detected gap (entry at the midpoint, a stop
    beyond the far edge with an ATR cushion, targets at 1.5 and 2.5 times
    the risk) and the heuristic confidence score in [0, 1]. */
module Trade {
  import opened Common

  datatype Side = Long | Short

  /** The smallest risk the calculator divides by (1e-12). */
  const RiskFloor: real := 0.000000000001

  /** Entry, stop loss, the two take-profit levels and the reward-to-risk
      ratio of the second target. */
  datatype Levels = Levels(entry: real, stopLoss: real, takeProfit1: real, takeProfit2: real, riskReward: real)

  /** A gap tuple in either order, as (low, high). */
  function GapBounds(gap: (real, real)): (b: (real, real))
    ensures b.0 <= b.1
    ensures b.0 == Min(gap.0, gap.1) && b.1 == Max(gap.0, gap.1)
  {
    if gap.0 < gap.1 then gap else (gap.1, gap.0)
  }

  /** The stop cushion: a fifth of the ATR when it is available, else 0. */
  function Cushion(atr: Option<real>): (c: real)
    ensures atr.None? ==> c == 0.0
    ensures atr.Some? && atr.value >= 0.0 ==> c >= 0.0
  {
    if atr.Some? then 0.2 * atr.value else 0.0
  }

  /** Entry, stop and targets for a gap. The price is accepted and not
      used, as in the source. */
  function SmartTpSlEntry(side: Side, gap: (real, real), price: real, atr: Option<real>): (lv: Levels)
    ensures lv.entry == (gap.0 + gap.1) / 2.0
    ensures side == Long ==> lv.stopLoss == Min(gap.0, gap.1) - Cushion(atr)
    ensures side == Short ==> lv.stopLoss == Max(gap.0, gap.1) + Cushion(atr)
    ensures side == Long ==>
              var risk := Max(lv.entry - lv.stopLoss, RiskFloor);
              lv.takeProfit1 == lv.entry + 1.5 * risk && lv.takeProfit2 == lv.entry + 2.5 * risk
    ensures side == Short ==>
              var risk := Max(lv.stopLoss - lv.entry, RiskFloor);
              lv.takeProfit1 == lv.entry - 1.5 * risk && lv.takeProfit2 == lv.entry - 2.5 * risk
    ensures lv.riskReward == 2.5
  {
    var (lo, hi) := GapBounds(gap);
    var entry := (lo + hi) / 2.0;
    var cushion := Cushion(atr);
    if side == Long then
      var sl := lo - cushion;
      var risk := Max(entry - sl, RiskFloor);
      var tp1 := entry + 1.5 * risk;
      var tp2 := entry + 2.5 * risk;
      assert tp2 - entry == 2.5 * risk;
      MulDivCancel(2.5, risk);
      Levels(entry, sl, tp1, tp2, (tp2 - entry) / risk)
    else
      var sl := hi + cushion;
      var risk := Max(sl - entry, RiskFloor);
      var tp1 := entry - 1.5 * risk;
      var tp2 := entry - 2.5 * risk;
      assert entry - tp2 == 2.5 * risk;
      MulDivCancel(2.5, risk);
      Levels(entry, sl, tp1, tp2, (entry - tp2) / risk)
  }

  /** For a gap of positive width and a non-negative (or unavailable) ATR
      the levels are strictly ordered: stop, entry, first target, second
      target for a long, and the mirror for a short. */
  lemma LevelsOrdered(side: Side, gap: (real, real), price: real, atr: Option<real>)
    requires gap.0 != gap.1
    requires atr.None? || atr.value >= 0.0
    ensures var lv := SmartTpSlEntry(side, gap, price, atr);
            if side == Long then lv.stopLoss < lv.entry < lv.takeProfit1 < lv.takeProfit2
            else lv.takeProfit2 < lv.takeProfit1 < lv.entry < lv.stopLoss
  {
  }

  /** Whatever the gap, the targets lie beyond the entry: the floored risk
      is always positive. */
  lemma TargetsBeyondEntry(side: Side, gap: (real, real), price: real, atr: Option<real>)
    ensures var lv := SmartTpSlEntry(side, gap, price, atr);
            if side == Long then lv.entry < lv.takeProfit1 < lv.takeProfit2
            else lv.takeProfit2 < lv.takeProfit1 < lv.entry
  {
  }

  /** With no ATR the stop sits exactly on the far edge of the gap. */
  lemma NoAtrStopOnEdge(side: Side, gap: (real, real), price: real)
    ensures SmartTpSlEntry(side, gap, price, None).stopLoss == if side == Long then Min(gap.0, gap.1) else Max(gap.0, gap.1)
  {
  }

  /** The order of the gap tuple does not matter. */
  lemma LevelsIgnoreGapOrder(side: Side, a: real, b: real, price: real, atr: Option<real>)
    ensures SmartTpSlEntry(side, (a, b), price, atr) == SmartTpSlEntry(side, (b, a), price, atr)
  {
  }

  /** A long on the gap (100, 110) with ATR 5: entry 105, stop 99 (cushion
      1, risk 6), targets 114 and 120, reward-to-risk 2.5. */
  lemma LevelsExample()
    ensures SmartTpSlEntry(Long, (100.0, 110.0), 107.0, Some(5.0)) == Levels(105.0, 99.0, 114.0, 120.0, 2.5)
  {
  }

  // ---------------------------------------------------------------------
  // Confidence score
  // ---------------------------------------------------------------------

  /** Price on the trend side of the EMA: above for a long, below for a short. */
  predicate TrendAligned(side: Side, price: real, ema: real)
  {
    if side == Long then price > ema else price < ema
  }

  /** RSI on the wrong side of 50 for the trade direction. */
  predicate WrongSideRsi(side: Side, rsi: real)
  {
    (side == Long && rsi < 50.0) || (side == Short && rsi > 50.0)
  }

  /** +0.35 when the trend is aligned, -0.25 otherwise. */
  function TrendTerm(side: Side, price: real, ema: real): (t: real)
    ensures t == 0.35 || t == -0.25
    ensures t == 0.35 <==> TrendAligned(side, price, ema)
  {
    if TrendAligned(side, price, ema) then 0.35 else -0.25
  }

  /** The RSI's distance from 50, capped at 1 and weighted 0.25, less 0.15
      for an RSI on the wrong side; 0 for an unavailable RSI. */
  function MomentumTerm(side: Side, rsi: Option<real>): (t: real)
    ensures -0.15 <= t <= 0.25
    ensures rsi.None? ==> t == 0.0
    ensures rsi.Some? && !WrongSideRsi(side, rsi.value) ==> t >= 0.0
  {
    if rsi.None? then 0.0
    else
      var dist := Abs(rsi.value - 50.0) / 50.0;
      var bonus := Min(dist, 1.0) * 0.25;
      if WrongSideRsi(side, rsi.value) then bonus - 0.15 else bonus
  }

  /** The gap width as a fraction of the price; 0 for a non-positive price. */
  function GapFraction(gap: (real, real), price: real): (f: real)
    ensures f >= 0.0
  {
    var (lo, hi) := GapBounds(gap);
    if price > 0.0 then
      QuotientSign(hi - lo, price);
      (hi - lo) / price
    else 0.0
  }

  /** 50 times the gap fraction, capped at 0.3. */
  function GapTerm(gap: (real, real), price: real): (t: real)
    ensures 0.0 <= t <= 0.3
  {
    Min(GapFraction(gap, price) * 50.0, 0.3)
  }

  /** The ATR as a fraction of the price; 0 when the price is not positive
      or the ATR is unavailable. */
  function AtrFraction(atr: Option<real>, price: real): (f: real)
    ensures atr.Some? && atr.value >= 0.0 ==> f >= 0.0
  {
    if price > 0.0 && atr.Some? then
      QuotientSign(atr.value, price);
      atr.value / price
    else 0.0
  }

  /** 20 times the ATR fraction, clamped to [-0.1, 0.2]. */
  function VolatilityTerm(atr: Option<real>, price: real): (t: real)
    ensures -0.1 <= t <= 0.2
    ensures atr.None? || atr.value >= 0.0 ==> t >= 0.0
  {
    Min(Max(AtrFraction(atr, price) * 20.0, -0.1), 0.2)
  }

  /** The raw score: the sum of the four terms. */
  function RawScore(side: Side, price: real, ema: real, rsi: Option<real>, atr: Option<real>, gap: (real, real)): (s: real)
    ensures -0.5 <= s <= 1.1
    ensures TrendAligned(side, price, ema) && rsi.Some? && !WrongSideRsi(side, rsi.value) && (atr.None? || atr.value >= 0.0) ==> s >= 0.35
  {
    TrendTerm(side, price, ema) + MomentumTerm(side, rsi) + GapTerm(gap, price) + VolatilityTerm(atr, price)
  }

  /** The confidence: the raw score mapped by (s + 1) / 2 and clamped to [0, 1]. */
  function ConfidenceScore(side: Side, price: real, ema: real, rsi: Option<real>, atr: Option<real>, gap: (real, real)): (c: real)
    ensures 0.0 <= c <= 1.0
  {
    var score := RawScore(side, price, ema, rsi, atr, gap);
    Max(0.0, Min(1.0, (score + 1.0) / 2.0))
  }

  /** The lower clamp never binds: every score is at least 0.25, the value
      for a misaligned trend, a wrong-side RSI at 50, no gap and the
      largest volatility penalty. */
  lemma ConfidenceFloor(side: Side, price: real, ema: real, rsi: Option<real>, atr: Option<real>, gap: (real, real))
    ensures ConfidenceScore(side, price, ema, rsi, atr, gap) >= 0.25
  {
  }

  /** A candidate that passed the trend and RSI gates, with a non-negative
      or unavailable ATR, scores at least 0.675, above the default minimum
      confidence of 0.60. */
  lemma AlignedConfidenceFloor(side: Side, price: real, ema: real, rsi: real, atr: Option<real>, gap: (real, real))
    requires TrendAligned(side, price, ema)
    requires if side == Long then rsi > 50.0 else rsi < 50.0
    requires atr.None? || atr.value >= 0.0
    ensures ConfidenceScore(side, price, ema, Some(rsi), atr, gap) >= 0.675
  {
  }

  /** Widening the gap, all else fixed, never lowers the score. */
  lemma ConfidenceMonotoneInGap(side: Side, price: real, ema: real, rsi: Option<real>, atr: Option<real>,
                                g1: (real, real), g2: (real, real))
    requires Abs(g1.1 - g1.0) <= Abs(g2.1 - g2.0)
    ensures ConfidenceScore(side, price, ema, rsi, atr, g1) <= ConfidenceScore(side, price, ema, rsi, atr, g2)
  {
    if price > 0.0 {
      var w1, w2 := Abs(g1.1 - g1.0), Abs(g2.1 - g2.0);
      assert GapBounds(g1).1 - GapBounds(g1).0 == w1;
      assert GapBounds(g2).1 - GapBounds(g2).0 == w2;
      DivMonotone(w1, w2, price);
    }
  }

  /** Once the gap is at least 0.6 % of the price its term is capped at
      0.3: wider gaps add nothing more. */
  lemma GapTermSaturates(side: Side, price: real, ema: real, rsi: Option<real>, atr: Option<real>,
                         g1: (real, real), g2: (real, real))
    requires price > 0.0
    requires Abs(g1.1 - g1.0) >= 0.006 * price && Abs(g2.1 - g2.0) >= 0.006 * price
    ensures GapTerm(g1, price) == GapTerm(g2, price) == 0.3
    ensures ConfidenceScore(side, price, ema, rsi, atr, g1) == ConfidenceScore(side, price, ema, rsi, atr, g2)
  {
    var w1, w2 := Abs(g1.1 - g1.0), Abs(g2.1 - g2.0);
    assert GapBounds(g1).1 - GapBounds(g1).0 == w1;
    assert GapBounds(g2).1 - GapBounds(g2).0 == w2;
    assert GapFraction(g1, price) == w1 / price;
    assert GapFraction(g2, price) == w2 / price;
    DivAtLeast(w1, price, 0.006);
    DivAtLeast(w2, price, 0.006);
  }

  /** An unavailable RSI scores exactly as an RSI of 50: neither the
      distance bonus nor the wrong-side penalty applies. */
  lemma UnavailableRsiIsNeutral(side: Side, price: real, ema: real, atr: Option<real>, gap: (real, real))
    ensures ConfidenceScore(side, price, ema, None, atr, gap) == ConfidenceScore(side, price, ema, Some(50.0), atr, gap)
  {
    assert MomentumTerm(side, Some(50.0)) == 0.0;
  }

  /** The order of the gap tuple does not matter to the score. */
  lemma ConfidenceIgnoresGapOrder(side: Side, price: real, ema: real, rsi: Option<real>, atr: Option<real>, a: real, b: real)
    ensures ConfidenceScore(side, price, ema, rsi, atr, (a, b)) == ConfidenceScore(side, price, ema, rsi, atr, (b, a))
  {
    assert GapBounds((a, b)) == GapBounds((b, a));
  }
}

# Smart FVG screener: a Dafny model of its signal core

The screener scans Binance USDT-M perpetual futures on 4-hour candles for **fair value gaps** (FVGs). An FVG is a three-candle pattern: the current candle's range clears the range of the candle two bars back, and the middle candle is a strong one. For each gap it filters on trend (EMA 200) and momentum (RSI 14), and computes trade levels from the gap and the ATR 14. It scores each candidate with a heuristic confidence in [0, 1], ranks each side by (confidence, reward-to-risk) and summarises the run.

This project models that core in Dafny and proves properties of the model:

* `common.dfy` (`Common`): candles, the optional value that stands for Python's NaN, and sums and means with their bounds.
* `indicators.dfy` (`Indicators`): the EMA, Wilder RSI and Wilder ATR.
  * Each is an imperative method that builds its list step by step.
  * Each method is proved equal to a specification function, and the properties are proved about that function.
* `gaps.dfy` (`Gaps`): the gap detector.
  * It computes the bar delta percent and the auto threshold over the last `window` prior bars.
  * It tests the three most recent candles.
* `trade.dfy` (`Trade`): entry, stop and targets for a gap, and the confidence score split into its four terms.
* `rounding.dfy` (`Rounding`): `round(x, 2)` and `round(x, 1)`, rounding halves to even.
* `ranking.dfy` (`Ranking`): the emitted candidate records.
  * The stable descending sort that `list.sort(key=…, reverse=True)` performs, proved sorted, a permutation and stable.
  * The truncation of a side's list for display.
* `screener.dfy` (`Screener`): the per-symbol gates, the loop over the symbols, the ranking and the summary.
  * `RunScreener` is the loop.
  * `Screen` is the function it is proved equal to.

Floating-point numbers are exact reals. A NaN reading (an indicator entry that is not yet defined) is `None`. The only infinity in the source is RSI's `rs` when the average loss is 0 (app.py:147 and app.py:152); that is the `avgLoss == 0.0` branch of `Indicators.RsiOf`, which gives 100. The fetched candles of a run are a parameter: a map from symbol to candles, where a symbol missing from the map is one whose fetch failed. The module-level settings are a `Config` value; `DefaultConfig` holds the source's values.

Two details of the gap detector, as the code has them:

* `prev2` is `klines[-3]`, the first of the three candles. On the candles (100, 100, 100, 100), (100, 105, 99, 104), (110, 112, 108, 111) (open, high, low, close) the detector reports the bullish gap (100, 108) with the threshold off (`Gaps.BullishGapExample`) and no gap with the auto threshold on (`Gaps.AutoThresholdRejectsExample`).
* The bearish gap is returned as (top, bottom) (app.py:230-232), and `Gaps.DetectFvg` states that order.

## Model

| member | source | states |
|---|---|---|
| Common.MeanWithin | app.py:196 | the mean of a non-empty list whose entries lie in [lo, hi] lies in [lo, hi] |
| Indicators.EmaFactor | app.py:129 | the smoothing factor 2/(period+1) lies in (0, 1] for period ≥ 1 |
| Indicators.EmaSeries | app.py:126-133 | the EMA list is empty for no values or a period ≤ 0, else as long as the input and starting at the first value |
| Indicators.Ema | app.py:126-133 | the loop builds exactly the EMA list |
| Indicators.EmaAtConstant | app.py:130-132 | every step of the recurrence over a constant list is that constant |
| Indicators.EmaOfConstant | app.py:126-133 | the EMA of a constant series is that constant everywhere |
| Indicators.EmaStepWithin | app.py:132 | for 0 ≤ k ≤ 1, one smoothing step (`EmaStep`) of two values in [lo, hi] stays in [lo, hi] |
| Indicators.EmaAtWithin | app.py:130-132 | for 0 ≤ k ≤ 1, every step of the recurrence (`EmaAt`: the first value, then one `EmaStep` per value) stays within the input's range |
| Indicators.EmaWithinRange | app.py:126-133 | every EMA value lies between the input's bounds |
| Indicators.Gains | app.py:138-143 | the gain list is as long as the closes and never negative |
| Indicators.Losses | app.py:138-143 | the loss list is as long as the closes and never negative |
| Indicators.RsiSmooth | app.py:150-151 | a Wilder step of non-negative averages stays non-negative |
| Indicators.RsiAverage | app.py:144-151 | the seed mean and every smoothed average of non-negative parts are non-negative |
| Indicators.RsiOf | app.py:147-148 | RSI lies in [0, 100]; it is 100 exactly when the average loss is 0 (rs infinite); it is 0 when only losses occur |
| Indicators.RsiEntry | app.py:147-153 | every computed RSI lies in [0, 100] |
| Indicators.RsiValues | app.py:144-155 | entries 0..period are undefined, every later entry is defined and lies in [0, 100] |
| Indicators.RsiSeries | app.py:135-156 | a too-short input gives all undefined; otherwise exactly the entries after index `period` are defined, each in [0, 100] |
| Indicators.ChangeParts | app.py:138-143 | the loop builds exactly the gain and loss lists |
| Indicators.SmoothedRsi | app.py:144-155 | the seed and smoothing loop builds exactly the RSI list over the parts |
| Indicators.Rsi | app.py:135-156 | the method computes exactly the RSI list |
| Indicators.RsiAverageZero | app.py:144-151 | all-zero parts give average 0 at every step |
| Indicators.RsiSmoothPositive | app.py:150-151 | a step with a positive part gives a positive average |
| Indicators.RsiAveragePositive | app.py:144-151 | positive parts give a positive average at every step |
| Indicators.RsiOfRisingCloses | app.py:135-156 | non-decreasing closes give RSI 100 wherever it is defined |
| Indicators.RsiOfFallingCloses | app.py:135-156 | strictly falling closes give RSI 0 wherever it is defined |
| Indicators.RsiAverageSkipsSeedStep | app.py:144-151 | the averages never read the part at index period+1 |
| Indicators.RsiIgnoresChangeAtSeedIndex | app.py:144-153 | two close lists that differ only in the change at index period+1 have the same RSI list: the smoothing loop starts at period+2 and skips that change |
| Indicators.TrueRange | app.py:163-166 | the true range is at least each of high − low, abs(high − previous close) and abs(low − previous close), and equal to one of them, hence non-negative |
| Indicators.TrueRanges | app.py:161-166 | one entry per candle; every entry after the first is non-negative, at least each of the three range terms and equal to one of them |
| Indicators.AtrSmooth | app.py:175 | a Wilder step of non-negative values stays non-negative |
| Indicators.AtrAt | app.py:171-175 | the seed mean and every smoothed ATR of non-negative ranges are non-negative |
| Indicators.AtrValues | app.py:167-176 | entries before `period` are undefined; for more than `period` candles the rest are defined and non-negative |
| Indicators.AtrSeries | app.py:158-176 | mismatched lengths or too few candles give all undefined; otherwise exactly the entries from `period` on are defined, the first being the seed mean, all non-negative |
| Indicators.TrueRangeList | app.py:161-166 | the loop builds exactly the true-range list |
| Indicators.SmoothedAtr | app.py:167-176 | the in-place fill of the output array gives exactly the ATR list |
| Indicators.Atr | app.py:158-176 | the method computes exactly the ATR list |
| Indicators.AtrSmoothWithin | app.py:175 | one step of two values in [lo, hi] stays in [lo, hi] |
| Indicators.AtrAtWithin | app.py:171-175 | every ATR value lies within the range of the true ranges |
| Indicators.AtrOfFlatMarket | app.py:158-176 | constant candles give ATR 0 wherever it is defined |
| Gaps.BarDeltaPercent | app.py:181-185 | a zero open gives 0; for a positive open the sign follows close − open |
| Gaps.BarDeltaScale | app.py:185 | the delta times open·100 is close − open (the divisor is open·100) |
| Gaps.ThresholdSample | app.py:194 | for a window w ≥ 1 the sample is the last min(w, length) deltas; for w = 0 `bdp[-0:]` is the whole list; for negative w it is the slice Python takes, dropping the first −w deltas, or all of them when there are fewer |
| Gaps.AutoThreshold | app.py:187-198 | the threshold is non-negative and 0 for no deltas or an empty sample |
| Gaps.AutoThresholdBound | app.py:196 | deltas bounded by m in absolute value give a threshold of at most 2m |
| Gaps.AutoThresholdRecentWindow | app.py:194-196 | for a window ≥ 1 and series at least that long, only the last `window` deltas matter |
| Gaps.GapThreshold | app.py:217-219 | the threshold over the prior bars is non-negative, and 0 with the auto threshold off |
| Gaps.DetectFvg | app.py:200-234 | fewer than 3 candles give no gap; a bullish (bearish) gap is reported exactly when its three conditions hold; the bullish gap is (prev2.high, curr.low) ascending, the bearish one (prev2.low, curr.high) descending |
| Gaps.NeverBoth | app.py:222-232 | no candle list gives both a bullish and a bearish gap |
| Gaps.GapNeedsStrongMiddleBar | app.py:220-229 | with a positive open, a bullish gap needs a rising middle candle and a bearish one a falling middle candle |
| Gaps.DetectIgnoresCurrentBody | app.py:213-232 | the current candle's open and close do not affect detection |
| Gaps.DetectUsesRecentBars | app.py:216-219 | for a window ≥ 2, candles older than the window plus one do not affect detection |
| Gaps.GapThresholdUsesRecentBars | app.py:217-219 | for a window ≥ 1, candles older than the window plus one do not affect the threshold |
| Gaps.GapThresholdOfHistory | app.py:218-219 | with the auto threshold on, the threshold is the auto threshold of the bars before the current one |
| Gaps.DetectSameInputs | app.py:213-232 | detection depends only on the last three candles and the threshold |
| Gaps.BarDeltasSuffix | app.py:218 | the bar deltas (`BarDeltas`: one `BarDeltaPercent` per candle) of a suffix are the suffix of the deltas |
| Gaps.BullishGapExample | app.py:200-234 | the three-candle example with the threshold off gives the bullish gap (100, 108) |
| Gaps.AutoThresholdRejectsExample | app.py:216-223 | the same candles with the auto threshold on give no gap |
| Trade.GapBounds | app.py:255 | the gap as (min, max) |
| Trade.Cushion | app.py:257 | the cushion is 0 without an ATR and non-negative for a non-negative ATR |
| Trade.SmartTpSlEntry | app.py:248-272 | entry is the gap midpoint; the stop is beyond the far edge by the cushion; targets are 1.5 and 2.5 times the floored risk; reward-to-risk is always 2.5 |
| Trade.LevelsOrdered | app.py:248-272 | for a gap of positive width and a non-negative ATR: stop < entry < tp1 < tp2 for a long, the mirror for a short |
| Trade.TargetsBeyondEntry | app.py:261-270 | for every gap the targets lie beyond the entry |
| Trade.NoAtrStopOnEdge | app.py:257-266 | without an ATR the stop is on the gap's far edge |
| Trade.LevelsIgnoreGapOrder | app.py:255 | the gap tuple's order does not matter |
| Trade.LevelsExample | app.py:248-272 | gap (100, 110), ATR 5: entry 105, stop 99, targets 114 and 120, ratio 2.5 |
| Trade.MomentumTerm | app.py:291-296 | in [−0.15, 0.25]; 0 without an RSI; non-negative unless the RSI is on the wrong side |
| Trade.GapFraction | app.py:299-300 | the gap as a fraction of price is non-negative |
| Trade.GapTerm | app.py:301 | in [0, 0.3] |
| Trade.AtrFraction | app.py:304 | non-negative for a non-negative ATR |
| Trade.VolatilityTerm | app.py:306 | in [−0.1, 0.2], and non-negative without an ATR or with a non-negative one |
| Trade.ConfidenceScore | app.py:274-310 | the score lies in [0, 1]; it is the clamped, normalised sum of the trend term (+0.35 when trend aligned, −0.25 otherwise) and the momentum, gap and volatility terms |
| Trade.RawScore | app.py:284-306 | the unclamped sum of the four terms lies in [−0.5, 1.1], and is at least 0.35 with trend aligned, RSI on the right side and no negative ATR |
| Trade.ConfidenceFloor | app.py:284-310 | the score is never below 0.25, so the lower clamp never binds |
| Trade.AlignedConfidenceFloor | app.py:284-310 | with trend aligned, RSI on the right side and a non-negative ATR the score is at least 0.675 |
| Trade.ConfidenceMonotoneInGap | app.py:299-301 | a wider gap never lowers the score |
| Trade.GapTermSaturates | app.py:300-301 | at a positive price, gaps at least 0.6% of price all earn the capped 0.3 and the same score |
| Trade.UnavailableRsiIsNeutral | app.py:291-296 | an unavailable RSI scores as RSI 50 |
| Trade.ConfidenceIgnoresGapOrder | app.py:299 | the gap tuple's order does not matter |
| Rounding.RoundHalfEven | app.py:364-366 | the result is within ½ of x, and ties go to even |
| Rounding.RoundHalfEvenOfInt | app.py:364-366 | integers are fixed points |
| Rounding.RoundHalfEvenMonotone | app.py:364-366 | rounding is monotone |
| Rounding.Round2 | app.py:364-365 | round(x, 2) is within 0.005 of x |
| Rounding.Round1 | app.py:366 | round(x, 1) is within 0.05 of x |
| Rounding.Round2Monotone | app.py:364-365 | round(x, 2) is monotone |
| Rounding.Round1Monotone | app.py:366 | round(x, 1) is monotone |
| Rounding.Round2UnitInterval | app.py:365 | values in [0, 1] stay in [0, 1] |
| Rounding.Round2OfTwoAndAHalf | app.py:364 | round(2.5, 2) is 2.5 |
| Rounding.Round1Within | app.py:366 | values between two one-decimal bounds stay between them |
| Ranking.Insert | app.py:394-395 | insertion adds exactly one element, keeping all others |
| Ranking.InsertSorted | app.py:394-395 | insertion into a ranked list keeps it ranked |
| Ranking.SortByRank | app.py:394-395 | the sort is a permutation, non-increasing by (confidence, reward-to-risk) |
| Ranking.InsertStable | app.py:394-395 | insertion keeps the relative order of equal keys |
| Ranking.SortStable | app.py:394-395 | the sort is stable, as Python's sort is |
| Ranking.SortHeadIsTop | app.py:394-395 | the first sorted element ranks at least as high as every input |
| Ranking.Shown | app.py:402 | the displayed part is the first min(n, length) entries |
| Ranking.ShownIsTop | app.py:394-402 | in a sorted list, every displayed entry ranks at least as high as every hidden one |
| Screener.MinBars | app.py:336 | the fewest candles: the largest of the three periods plus 5 |
| Screener.ComputeIndicators | app.py:239-246 | the three indicator lists over the candles |
| Screener.LatestReadings | app.py:348-350 | a defined latest RSI lies in [0, 100]; a defined latest ATR is non-negative |
| Screener.ReadingsAvailable | app.py:336-350 | with enough candles the latest RSI is defined and in [0, 100], and the latest ATR is defined and non-negative |
| Screener.SideCandidate | app.py:353-386 | a candidate exists only under a gap with trend aligned and RSI on the right side of 50; it carries the symbol, the side, the price and the gap as (low, high) |
| Screener.SideEmission | app.py:353-375 | a side's candidate exists exactly when the gap, trend, RSI and confidence gates pass; the ratio gate never rejects |
| Screener.SideGateInert | app.py:353-375 | with a minimum confidence ≤ 0.675 and a missing or non-negative ATR, the confidence gate never rejects |
| Screener.SideCandidateWellFormed | app.py:353-386 | for a positive-width gap, an RSI in [0, 100] and a missing or non-negative ATR, an emitted candidate has ordered levels, a positive-width gap stored (low, high), ratio 2.5, confidence in [0, 1] and RSI in [50, 100] (long) or [0, 50] (short) |
| Screener.EvaluateSymbol | app.py:336-386 | too few candles give no candidate; a candidate in the long (short) slot is a long (short) for this symbol |
| Screener.EmissionConditions | app.py:336-386 | a symbol yields nothing with too few candles; otherwise a long (short) exactly under a bullish (bearish) gap, price above (below) EMA, RSI above (below) 50 and enough confidence |
| Screener.ConfidenceGateInert | app.py:353-375 | for a symbol with at least `MinBars` candles and a minimum confidence ≤ 0.675 (the default 0.60 included), the candidates are exactly those that pass the gap, trend and RSI gates |
| Screener.DefaultConfigValid | app.py:24-30 | the default settings: 205 candles needed, confidence gate inert |
| Screener.CandidatesWellFormed | app.py:336-386 | every emitted candidate is well formed and carries its symbol and last close |
| Screener.Collect | app.py:333-392 | each side collects no more candidates than there are listed symbols |
| Screener.CollectMembers | app.py:333-392 | a candidate is collected exactly when some listed, fetched symbol emits it |
| Screener.CollectQualifies | app.py:333-392 | every collected candidate comes from a fetched symbol with enough candles and is well formed |
| Screener.Summarize | app.py:413-417 | the count of all signals; averages exactly when there is a signal |
| Screener.SummaryOfSignals | app.py:413-417 | over well-formed signals the average ratio is 2.5, and the average confidence is in [0, 1] |
| Screener.LatestIndicators | app.py:340-350 | the latest EMA, RSI and ATR readings |
| Screener.EvaluateOne | app.py:336-386 | the loop body computes exactly the symbol's evaluation |
| Screener.RunScreener | app.py:330-417 | the loop, sort and summary compute exactly the screening result |
| Screener.Screen | app.py:330-417 | both sides are ranked and hold no more candidates than there are listed symbols; at most `maxOutput` of each are shown; the summary counts both sides |
| Screener.ScreenRanked | app.py:394-402 | both sides are ranked permutations of the collected candidates; at most `maxOutput` are shown, the top ones |
| Screener.ScreenQualifies | app.py:333-395 | every listed candidate comes from a fetched symbol with enough candles and is well formed |
| Screener.SortedMembers | app.py:394-395 | sorting keeps the membership |
| Screener.ScreenSummary | app.py:413-417 | the summary counts both sides; when non-empty the average ratio is 2.5 and the average confidence is in [0, 1] |
| Screener.EvaluationIsolated | app.py:333-386 | a symbol's evaluation does not depend on any other symbol's candles |

## Left out

- HTTP: fetching the symbol list and the candles, retries and timeouts. The candles are a parameter; a symbol whose fetch failed is absent from the map.
- Sending to Telegram, the Flask endpoints, the scheduler, the JSON run log, `time.sleep` pacing and timestamps: these are I/O.
- Message formatting (`fmt_side`, the summary text, `:.4f` and `:.2f`, the "Above/Below EMA200" label). Only what is displayed (`Shown`) and the summary's numbers are modelled.
- The early return when the symbol list fails to load: it is I/O. An empty or failed symbol list gives an empty screening.
- Exceptions inside the loop body other than a failed fetch: none can arise for valid settings, because every index is in range and every division is guarded.
- Floating point: all arithmetic is on exact reals. Rounding, overflow and NaN propagation of IEEE doubles are not modelled; NaN becomes `None`; the infinite `rs` is the `avgLoss == 0.0` case of `Indicators.RsiOf`.
- `round` is round-half-even on the exact value. Python rounds the binary double, which can differ on decimal ties.
- Indicators.Rsi and Indicators.Atr require a period of at least 1. A period of 0 raises ZeroDivisionError in the source, and negative periods hit Python slice quirks. `ValidConfig` requires each period to be at least 1; the EMA's period ≤ 0 case is modelled.
- The padding loop at the end of `rsi` (app.py:154-155) never runs, because the list is already as long as the closes. It is not written as a loop; `RsiSeries`' length ensures states the resulting length.
- The placeholder `trs[0]` is NaN in the source and 0.0 in `TrueRanges`. It is never read.
- `statistics.fmean` is an exact mean. Its StatisticsError on an empty sample gives 0, as the source's except clause does.
- Screener.Config: `maxOutput` is a `nat`. A negative MAX_SYMBOLS_OUTPUT, which Python's `signals[:n]` reads as dropping the last −n entries, is not modelled.
- Indicators.RsiOfFallingCloses: states RSI 0 for strictly falling closes only. For non-increasing closes with flat steps the RSI is 0 where the average loss is positive and 100 where it is 0; that case is not stated.

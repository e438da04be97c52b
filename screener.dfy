/** The screener: for every symbol whose candles were fetched and are long
    enough, compute the indicators, detect the gaps and emit a long and a
    short candidate when every gate passes; then rank both sides, truncate
    them for display and summarise all signals. */
module Screener {
  import opened Common
  import opened Indicators
  import opened Gaps
  import opened Trade
  import opened Ranking
  import opened Rounding

  /** The module-level settings of the source, passed in explicitly. */
  datatype Config = Config(emaPeriod: int, rsiPeriod: int, atrPeriod: int, threshWindow: int,
                           autoThreshold: bool, minConfidence: real, maxOutput: nat)

  /** The source's settings: EMA 200, RSI 14, ATR 14, a threshold window of
      100 bars with the auto threshold on, minimum confidence 0.60 and 25
      candidates displayed per side. */
  const DefaultConfig: Config := Config(200, 14, 14, 100, true, 0.60, 25)

  /** Every indicator period is at least 1. */
  predicate ValidConfig(cfg: Config)
  {
    cfg.emaPeriod >= 1 && cfg.rsiPeriod >= 1 && cfg.atrPeriod >= 1
  }

  /** Fewest candles a symbol needs: five more than the longest period. */
  function MinBars(cfg: Config): (m: int)
    ensures m >= cfg.emaPeriod + 5 && m >= cfg.rsiPeriod + 5 && m >= cfg.atrPeriod + 5
    ensures m == cfg.emaPeriod + 5 || m == cfg.rsiPeriod + 5 || m == cfg.atrPeriod + 5
  {
    var a := cfg.emaPeriod + 5;
    var b := cfg.atrPeriod + 5;
    var c := cfg.rsiPeriod + 5;
    if a >= b && a >= c then a else if b >= c then b else c
  }

  function Closes(kl: seq<Candle>): (r: seq<real>)
    ensures |r| == |kl| && forall i :: 0 <= i < |kl| ==> r[i] == kl[i].close
  {
    seq(|kl|, i requires 0 <= i < |kl| => kl[i].close)
  }

  function Highs(kl: seq<Candle>): (r: seq<real>)
    ensures |r| == |kl| && forall i :: 0 <= i < |kl| ==> r[i] == kl[i].high
  {
    seq(|kl|, i requires 0 <= i < |kl| => kl[i].high)
  }

  function Lows(kl: seq<Candle>): (r: seq<real>)
    ensures |r| == |kl| && forall i :: 0 <= i < |kl| ==> r[i] == kl[i].low
  {
    seq(|kl|, i requires 0 <= i < |kl| => kl[i].low)
  }

  /** The three indicator series over a candle list. */
  method ComputeIndicators(kl: seq<Candle>, cfg: Config) returns (ema: seq<real>, rsi: seq<Option<real>>, atr: seq<Option<real>>)
    requires ValidConfig(cfg)
    ensures ema == EmaSeries(Closes(kl), cfg.emaPeriod)
    ensures rsi == RsiSeries(Closes(kl), cfg.rsiPeriod)
    ensures atr == AtrSeries(Highs(kl), Lows(kl), Closes(kl), cfg.atrPeriod)
  {
    var closes := Closes(kl);
    var highs := Highs(kl);
    var lows := Lows(kl);
    ema := Ema(closes, cfg.emaPeriod);
    rsi := Rsi(closes, cfg.rsiPeriod);
    atr := Atr(highs, lows, closes, cfg.atrPeriod);
  }

  /** The latest EMA, RSI and ATR of a symbol. */
  datatype Readings = Readings(ema: real, rsi: Option<real>, atr: Option<real>)

  /** The last entry of each of three series. */
  function ReadingsOf(ema: seq<real>, rsi: seq<Option<real>>, atr: seq<Option<real>>): (rd: Readings)
    requires |ema| > 0 && |rsi| > 0 && |atr| > 0
  {
    Readings(Last(ema), Last(rsi), Last(atr))
  }

  /** The last entry of each indicator series. */
  function LatestReadings(kl: seq<Candle>, cfg: Config): (rd: Readings)
    requires ValidConfig(cfg) && |kl| >= 1
    ensures rd.rsi.Some? ==> 0.0 <= rd.rsi.value <= 100.0
    ensures rd.atr.Some? ==> rd.atr.value >= 0.0
  {
    var closes := Closes(kl);
    ReadingsOf(EmaSeries(closes, cfg.emaPeriod), RsiSeries(closes, cfg.rsiPeriod),
               AtrSeries(Highs(kl), Lows(kl), closes, cfg.atrPeriod))
  }

  /** A symbol with at least MinBars candles has a defined latest RSI in
      [0, 100] and a defined, non-negative latest ATR. */
  lemma ReadingsAvailable(kl: seq<Candle>, cfg: Config)
    requires ValidConfig(cfg) && |kl| >= MinBars(cfg)
    ensures var rd := LatestReadings(kl, cfg);
            rd.rsi.Some? && 0.0 <= rd.rsi.value <= 100.0 && rd.atr.Some? && rd.atr.value >= 0.0
  {
    var closes := Closes(kl);
    var r := RsiSeries(closes, cfg.rsiPeriod);
    assert r[|r| - 1].Some?;
    var a := AtrSeries(Highs(kl), Lows(kl), closes, cfg.atrPeriod);
    assert a[|a| - 1].Some?;
  }

  /** The RSI gate: defined, and above 50 for a long or below 50 for a short. */
  predicate RsiGate(side: Side, rsi: Option<real>)
  {
    rsi.Some? && (if side == Long then rsi.value > 50.0 else rsi.value < 50.0)
  }

  /** The candidate of one side, if the gap exists and the trend, RSI,
      reward-to-risk (at least 1.5) and confidence gates pass. */
  function SideCandidate(sym: string, side: Side, gap: Option<(real, real)>, price: real, rd: Readings, minConfidence: real): (c: Option<Candidate>)
    ensures c.Some? ==> gap.Some? && TrendAligned(side, price, rd.ema) && RsiGate(side, rd.rsi)
    ensures c.Some? ==> c.value.symbol == sym && c.value.side == side && c.value.price == price
                        && (c.value.gapLow, c.value.gapHigh) == GapBounds(gap.value)
  {
    if gap.Some? && TrendAligned(side, price, rd.ema) && RsiGate(side, rd.rsi) then
      var lv := SmartTpSlEntry(side, gap.value, price, rd.atr);
      if lv.riskReward >= 1.5 then
        var conf := ConfidenceScore(side, price, rd.ema, rd.rsi, rd.atr, gap.value);
        if conf >= minConfidence then
          var (lo, hi) := GapBounds(gap.value);
          Some(Candidate(sym, side, price, lo, hi, lv.entry, lv.stopLoss, lv.takeProfit1, lv.takeProfit2,
                         Round2(lv.riskReward), Round2(conf), Round1(rd.rsi.value)))
        else None
      else None
    else None
  }

  /** A side's candidate exists exactly when the gap exists, the trend and
      RSI gates pass and the confidence reaches the minimum: the
      reward-to-risk gate never rejects, since the ratio is always 2.5. */
  lemma SideEmission(sym: string, side: Side, gap: Option<(real, real)>, price: real, rd: Readings, minConfidence: real)
    ensures SideCandidate(sym, side, gap, price, rd, minConfidence).Some? <==>
              gap.Some? && TrendAligned(side, price, rd.ema) && RsiGate(side, rd.rsi)
              && ConfidenceScore(side, price, rd.ema, rd.rsi, rd.atr, gap.value) >= minConfidence
  {
  }

  /** With a minimum confidence of at most 0.675 (the default is 0.60) the
      confidence gate never rejects a candidate that passed the trend and
      RSI gates. */
  lemma SideGateInert(sym: string, side: Side, gap: Option<(real, real)>, price: real, rd: Readings, minConfidence: real)
    requires minConfidence <= 0.675
    requires rd.atr.None? || rd.atr.value >= 0.0
    ensures SideCandidate(sym, side, gap, price, rd, minConfidence).Some? <==>
              gap.Some? && TrendAligned(side, price, rd.ema) && RsiGate(side, rd.rsi)
  {
    SideEmission(sym, side, gap, price, rd, minConfidence);
    if gap.Some? && TrendAligned(side, price, rd.ema) && RsiGate(side, rd.rsi) {
      AlignedConfidenceFloor(side, price, rd.ema, rd.rsi.value, rd.atr, gap.value);
    }
  }

  /** A well-formed long candidate: strictly ordered levels, a gap of
      positive width, reward-to-risk 2.5, confidence in [0, 1] and an RSI
      in [50, 100]. */
  predicate WellFormedLong(c: Candidate)
  {
    c.side == Long && c.stopLoss < c.entry < c.takeProfit1 < c.takeProfit2 && c.gapLow < c.gapHigh
    && c.riskReward == 2.5 && 0.0 <= c.confidence <= 1.0 && 50.0 <= c.rsi <= 100.0
  }

  /** The mirror for a short candidate, with an RSI in [0, 50]. */
  predicate WellFormedShort(c: Candidate)
  {
    c.side == Short && c.takeProfit2 < c.takeProfit1 < c.entry < c.stopLoss && c.gapLow < c.gapHigh
    && c.riskReward == 2.5 && 0.0 <= c.confidence <= 1.0 && 0.0 <= c.rsi <= 50.0
  }

  predicate WellFormed(side: Side, c: Candidate)
  {
    if side == Long then WellFormedLong(c) else WellFormedShort(c)
  }

  /** An emitted candidate over a gap of positive width, an RSI in
      [0, 100] and a non-negative ATR is well formed and carries the
      symbol's name, its price and the gap's bounds. */
  lemma SideCandidateWellFormed(sym: string, side: Side, gap: Option<(real, real)>, price: real, rd: Readings, minConfidence: real)
    requires gap.Some? ==> gap.value.0 != gap.value.1
    requires rd.rsi.Some? ==> 0.0 <= rd.rsi.value <= 100.0
    requires rd.atr.None? || rd.atr.value >= 0.0
    ensures var c := SideCandidate(sym, side, gap, price, rd, minConfidence);
            c.Some? ==> WellFormed(side, c.value) && c.value.symbol == sym && c.value.price == price
                        && (c.value.gapLow, c.value.gapHigh) == GapBounds(gap.value)
  {
    var c := SideCandidate(sym, side, gap, price, rd, minConfidence);
    if c.Some? {
      LevelsOrdered(side, gap.value, price, rd.atr);
      Round2OfTwoAndAHalf();
      Round2UnitInterval(ConfidenceScore(side, price, rd.ema, rd.rsi, rd.atr, gap.value));
      if side == Long {
        Round1Within(rd.rsi.value, 500, 1000);
      } else {
        Round1Within(rd.rsi.value, 0, 500);
      }
    }
  }

  /** One symbol's long and short candidates. */
  type Evaluation = (Option<Candidate>, Option<Candidate>)

  /** The candidates of one symbol: nothing for fewer than MinBars candles,
      else each side's candidate from the latest readings and the gaps of
      the last three candles. */
  function EvaluateSymbol(sym: string, kl: seq<Candle>, cfg: Config): (r: Evaluation)
    requires ValidConfig(cfg)
    ensures |kl| < MinBars(cfg) ==> r == (None, None)
    ensures r.0.Some? ==> r.0.value.side == Long && r.0.value.symbol == sym
    ensures r.1.Some? ==> r.1.value.side == Short && r.1.value.symbol == sym
  {
    if |kl| < MinBars(cfg) then (None, None)
    else
      var rd := LatestReadings(kl, cfg);
      var price := Last(kl).close;
      var d := DetectFvg(kl, cfg.autoThreshold, cfg.threshWindow);
      (SideCandidate(sym, Long, d.bull, price, rd, cfg.minConfidence),
       SideCandidate(sym, Short, d.bear, price, rd, cfg.minConfidence))
  }

  /** The long candidate exists exactly when the symbol has MinBars candles,
      a bullish gap, a price above the EMA, an RSI above 50 and a
      confidence at least the minimum; the short candidate mirrors it. */
  lemma EmissionConditions(sym: string, kl: seq<Candle>, cfg: Config)
    requires ValidConfig(cfg)
    ensures |kl| < MinBars(cfg) ==> EvaluateSymbol(sym, kl, cfg) == (None, None)
    ensures |kl| >= MinBars(cfg) ==>
              var rd := LatestReadings(kl, cfg);
              var price := Last(kl).close;
              var d := DetectFvg(kl, cfg.autoThreshold, cfg.threshWindow);
              (EvaluateSymbol(sym, kl, cfg).0.Some? <==>
                 d.bull.Some? && price > rd.ema && rd.rsi.Some? && rd.rsi.value > 50.0
                 && ConfidenceScore(Long, price, rd.ema, rd.rsi, rd.atr, d.bull.value) >= cfg.minConfidence)
              && (EvaluateSymbol(sym, kl, cfg).1.Some? <==>
                 d.bear.Some? && price < rd.ema && rd.rsi.Some? && rd.rsi.value < 50.0
                 && ConfidenceScore(Short, price, rd.ema, rd.rsi, rd.atr, d.bear.value) >= cfg.minConfidence)
  {
    if |kl| >= MinBars(cfg) {
      var rd := LatestReadings(kl, cfg);
      var price := Last(kl).close;
      var d := DetectFvg(kl, cfg.autoThreshold, cfg.threshWindow);
      SideEmission(sym, Long, d.bull, price, rd, cfg.minConfidence);
      SideEmission(sym, Short, d.bear, price, rd, cfg.minConfidence);
    }
  }

  /** Under a minimum confidence of at most 0.675, such as the default
      0.60, a symbol with enough candles emits a side's candidate exactly
      when the gap, trend and RSI gates pass. */
  lemma ConfidenceGateInert(sym: string, kl: seq<Candle>, cfg: Config)
    requires ValidConfig(cfg) && cfg.minConfidence <= 0.675 && |kl| >= MinBars(cfg)
    ensures var rd := LatestReadings(kl, cfg);
            var price := Last(kl).close;
            var d := DetectFvg(kl, cfg.autoThreshold, cfg.threshWindow);
            (EvaluateSymbol(sym, kl, cfg).0.Some? <==> d.bull.Some? && price > rd.ema && RsiGate(Long, rd.rsi))
            && (EvaluateSymbol(sym, kl, cfg).1.Some? <==> d.bear.Some? && price < rd.ema && RsiGate(Short, rd.rsi))
  {
    var rd := LatestReadings(kl, cfg);
    var price := Last(kl).close;
    var d := DetectFvg(kl, cfg.autoThreshold, cfg.threshWindow);
    ReadingsAvailable(kl, cfg);
    SideGateInert(sym, Long, d.bull, price, rd, cfg.minConfidence);
    SideGateInert(sym, Short, d.bear, price, rd, cfg.minConfidence);
  }

  /** The default settings: valid, 205 candles needed, and a minimum
      confidence under which the confidence gate is inert. */
  lemma DefaultConfigValid()
    ensures ValidConfig(DefaultConfig) && MinBars(DefaultConfig) == 205 && DefaultConfig.minConfidence <= 0.675
  {
  }

  /** A symbol's emitted candidates are well formed, carry its name and
      its last close as price. */
  lemma CandidatesWellFormed(sym: string, kl: seq<Candle>, cfg: Config)
    requires ValidConfig(cfg)
    ensures var r := EvaluateSymbol(sym, kl, cfg);
            (r.0.Some? ==> |kl| >= MinBars(cfg) && WellFormedLong(r.0.value) && r.0.value.symbol == sym
                           && r.0.value.price == Last(kl).close)
            && (r.1.Some? ==> |kl| >= MinBars(cfg) && WellFormedShort(r.1.value) && r.1.value.symbol == sym
                              && r.1.value.price == Last(kl).close)
  {
    if |kl| >= MinBars(cfg) {
      var rd := LatestReadings(kl, cfg);
      var price := Last(kl).close;
      var d := DetectFvg(kl, cfg.autoThreshold, cfg.threshWindow);
      ReadingsAvailable(kl, cfg);
      SideCandidateWellFormed(sym, Long, d.bull, price, rd, cfg.minConfidence);
      SideCandidateWellFormed(sym, Short, d.bear, price, rd, cfg.minConfidence);
    }
  }

  /** The evaluation of every fetched symbol. */
  function Evaluations(candles: map<string, seq<Candle>>, cfg: Config): (e: map<string, Evaluation>)
    requires ValidConfig(cfg)
    ensures e.Keys == candles.Keys
    ensures forall sym :: sym in candles ==> e[sym] == EvaluateSymbol(sym, candles[sym], cfg)
  {
    map sym | sym in candles :: EvaluateSymbol(sym, candles[sym], cfg)
  }

  /** The list of an optional candidate. */
  function Emit(c: Option<Candidate>): (cs: seq<Candidate>)
  {
    if c.Some? then [c.value] else []
  }

  /** The long and short candidates of the symbols in order. A symbol with
      no evaluation (its fetch failed) is skipped. */
  function Collect(symbols: seq<string>, evals: map<string, Evaluation>): (r: (seq<Candidate>, seq<Candidate>))
    ensures |r.0| <= |symbols| && |r.1| <= |symbols|
  {
    if symbols == [] then ([], [])
    else
      var (bulls, bears) := Collect(symbols[..|symbols| - 1], evals);
      var sym := symbols[|symbols| - 1];
      if sym !in evals then (bulls, bears)
      else (bulls + Emit(evals[sym].0), bears + Emit(evals[sym].1))
  }

  /** The collected long list holds exactly the long candidates of the
      evaluated symbols, and likewise for shorts. */
  lemma {:induction false} CollectMembers(symbols: seq<string>, evals: map<string, Evaluation>, c: Candidate)
    ensures c in Collect(symbols, evals).0 <==>
              exists i :: 0 <= i < |symbols| && symbols[i] in evals && evals[symbols[i]].0 == Some(c)
    ensures c in Collect(symbols, evals).1 <==>
              exists i :: 0 <= i < |symbols| && symbols[i] in evals && evals[symbols[i]].1 == Some(c)
  {
    if symbols != [] {
      var init := symbols[..|symbols| - 1];
      CollectMembers(init, evals, c);
      assert forall i :: 0 <= i < |init| ==> init[i] == symbols[i];
    }
  }

  /** Every collected candidate comes from a fetched symbol with at least
      MinBars candles, has that symbol's last close as price and is well
      formed. */
  lemma CollectQualifies(symbols: seq<string>, candles: map<string, seq<Candle>>, cfg: Config)
    requires ValidConfig(cfg)
    ensures forall c :: c in Collect(symbols, Evaluations(candles, cfg)).0 ==>
              c.symbol in candles && |candles[c.symbol]| >= MinBars(cfg)
              && c.price == Last(candles[c.symbol]).close && WellFormedLong(c)
    ensures forall c :: c in Collect(symbols, Evaluations(candles, cfg)).1 ==>
              c.symbol in candles && |candles[c.symbol]| >= MinBars(cfg)
              && c.price == Last(candles[c.symbol]).close && WellFormedShort(c)
  {
    var evals := Evaluations(candles, cfg);
    var r := Collect(symbols, evals);
    forall c | c in r.0
      ensures c.symbol in candles && |candles[c.symbol]| >= MinBars(cfg)
              && c.price == Last(candles[c.symbol]).close && WellFormedLong(c)
    {
      CollectMembers(symbols, evals, c);
      var i :| 0 <= i < |symbols| && symbols[i] in evals && evals[symbols[i]].0 == Some(c);
      CandidatesWellFormed(symbols[i], candles[symbols[i]], cfg);
    }
    forall c | c in r.1
      ensures c.symbol in candles && |candles[c.symbol]| >= MinBars(cfg)
              && c.price == Last(candles[c.symbol]).close && WellFormedShort(c)
    {
      CollectMembers(symbols, evals, c);
      var i :| 0 <= i < |symbols| && symbols[i] in evals && evals[symbols[i]].1 == Some(c);
      CandidatesWellFormed(symbols[i], candles[symbols[i]], cfg);
    }
  }

  /** Signal count and the average reward-to-risk and confidence over all
      signals; the averages are unavailable when there are none. */
  datatype Summary = Summary(count: nat, avgRiskReward: Option<real>, avgConfidence: Option<real>)

  function RiskRewards(s: seq<Candidate>): (r: seq<real>)
    ensures |r| == |s| && forall i :: 0 <= i < |s| ==> r[i] == s[i].riskReward
  {
    seq(|s|, i requires 0 <= i < |s| => s[i].riskReward)
  }

  function Confidences(s: seq<Candidate>): (r: seq<real>)
    ensures |r| == |s| && forall i :: 0 <= i < |s| ==> r[i] == s[i].confidence
  {
    seq(|s|, i requires 0 <= i < |s| => s[i].confidence)
  }

  function Summarize(all: seq<Candidate>): (s: Summary)
    ensures s.count == |all|
    ensures s.avgRiskReward.Some? <==> all != []
    ensures s.avgConfidence.Some? <==> all != []
  {
    if all == [] then Summary(0, None, None)
    else Summary(|all|, Some(Mean(RiskRewards(all))), Some(Mean(Confidences(all))))
  }

  /** Over signals that all have reward-to-risk 2.5 and a confidence in
      [0, 1], the average reward-to-risk is 2.5 and the average confidence
      lies in [0, 1]. */
  lemma SummaryOfSignals(all: seq<Candidate>)
    requires forall c :: c in all ==> c.riskReward == 2.5 && 0.0 <= c.confidence <= 1.0
    ensures all != [] ==> Summarize(all).avgRiskReward == Some(2.5)
                          && 0.0 <= Summarize(all).avgConfidence.value <= 1.0
  {
    if all != [] {
      assert forall i :: 0 <= i < |all| ==> all[i] in all;
      MeanWithin(RiskRewards(all), 2.5, 2.5);
      MeanWithin(Confidences(all), 0.0, 1.0);
    }
  }

  /** One run's result: both ranked sides in full, their displayed parts
      and the summary over all signals. */
  datatype ScreeningResult = ScreeningResult(bullish: seq<Candidate>, bearish: seq<Candidate>,
                                             shownBullish: seq<Candidate>, shownBearish: seq<Candidate>,
                                             summary: Summary)

  /** The screening of the given symbols over the fetched candles. */
  function Screen(symbols: seq<string>, candles: map<string, seq<Candle>>, cfg: Config): (res: ScreeningResult)
    requires ValidConfig(cfg)
    ensures SortedByRank(res.bullish) && SortedByRank(res.bearish)
    ensures |res.bullish| <= |symbols| && |res.bearish| <= |symbols|
    ensures |res.shownBullish| <= cfg.maxOutput && |res.shownBearish| <= cfg.maxOutput
    ensures res.summary.count == |res.bullish| + |res.bearish|
  {
    var (bulls, bears) := Collect(symbols, Evaluations(candles, cfg));
    var bullish, bearish := SortByRank(bulls), SortByRank(bears);
    ScreeningResult(bullish, bearish, Shown(bullish, cfg.maxOutput), Shown(bearish, cfg.maxOutput),
                    Summarize(bullish + bearish))
  }

  /** The latest indicator readings, computed from the three series. */
  method LatestIndicators(kl: seq<Candle>, cfg: Config) returns (rd: Readings)
    requires ValidConfig(cfg) && |kl| >= 1
    ensures rd == LatestReadings(kl, cfg)
  {
    var ema, rsi, atr := ComputeIndicators(kl, cfg);
    rd := ReadingsOf(ema, rsi, atr);
  }

  /** One symbol's evaluation, computed as the loop body does it. */
  method EvaluateOne(sym: string, kl: seq<Candle>, cfg: Config) returns (bull: Option<Candidate>, bear: Option<Candidate>)
    requires ValidConfig(cfg)
    ensures (bull, bear) == EvaluateSymbol(sym, kl, cfg)
  {
    if |kl| < MinBars(cfg) {
      return None, None;
    }
    var rd := LatestIndicators(kl, cfg);
    var price := kl[|kl| - 1].close;
    var d := DetectFvg(kl, cfg.autoThreshold, cfg.threshWindow);
    bull := SideCandidate(sym, Long, d.bull, price, rd, cfg.minConfidence);
    bear := SideCandidate(sym, Short, d.bear, price, rd, cfg.minConfidence);
  }

  /** The screener loop: evaluates each fetched symbol in turn, appends its
      candidates to the two lists, then sorts both and summarises. */
  method RunScreener(symbols: seq<string>, candles: map<string, seq<Candle>>, cfg: Config) returns (res: ScreeningResult)
    requires ValidConfig(cfg)
    ensures res == Screen(symbols, candles, cfg)
  {
    ghost var evals := Evaluations(candles, cfg);
    var bullish: seq<Candidate> := [];
    var bearish: seq<Candidate> := [];
    for idx := 0 to |symbols|
      invariant (bullish, bearish) == Collect(symbols[..idx], evals)
    {
      var sym := symbols[idx];
      assert symbols[..idx + 1][..idx] == symbols[..idx];
      if sym in candles {
        var bull, bear := EvaluateOne(sym, candles[sym], cfg);
        bullish := bullish + Emit(bull);
        bearish := bearish + Emit(bear);
      }
    }
    assert symbols[..|symbols|] == symbols;
    bullish := SortByRank(bullish);
    bearish := SortByRank(bearish);
    res := ScreeningResult(bullish, bearish, Shown(bullish, cfg.maxOutput), Shown(bearish, cfg.maxOutput),
                           Summarize(bullish + bearish));
  }

  /** Both sides come out ranked, each a permutation of its collected
      candidates, and every displayed entry ranks at least as high as every
      hidden one. */
  lemma ScreenRanked(symbols: seq<string>, candles: map<string, seq<Candle>>, cfg: Config)
    requires ValidConfig(cfg)
    ensures var res := Screen(symbols, candles, cfg);
            var (bulls, bears) := Collect(symbols, Evaluations(candles, cfg));
            SortedByRank(res.bullish) && SortedByRank(res.bearish)
            && multiset(res.bullish) == multiset(bulls) && multiset(res.bearish) == multiset(bears)
            && |res.shownBullish| <= cfg.maxOutput && |res.shownBearish| <= cfg.maxOutput
            && res.shownBullish == res.bullish[..|res.shownBullish|]
            && res.shownBearish == res.bearish[..|res.shownBearish|]
            && (forall i, j :: 0 <= i < |res.shownBullish| <= j < |res.bullish| ==> !RanksAbove(res.bullish[j], res.shownBullish[i]))
            && (forall i, j :: 0 <= i < |res.shownBearish| <= j < |res.bearish| ==> !RanksAbove(res.bearish[j], res.shownBearish[i]))
  {
    var res := Screen(symbols, candles, cfg);
    ShownIsTop(res.bullish, cfg.maxOutput);
    ShownIsTop(res.bearish, cfg.maxOutput);
  }

  /** Every listed candidate comes from a fetched symbol with enough candles,
      has that symbol's last close as price and is well formed. */
  lemma ScreenQualifies(symbols: seq<string>, candles: map<string, seq<Candle>>, cfg: Config)
    requires ValidConfig(cfg)
    ensures var res := Screen(symbols, candles, cfg);
            (forall c :: c in res.bullish ==> c.symbol in candles && |candles[c.symbol]| >= MinBars(cfg)
                                              && c.price == Last(candles[c.symbol]).close && WellFormedLong(c))
            && (forall c :: c in res.bearish ==> c.symbol in candles && |candles[c.symbol]| >= MinBars(cfg)
                                                 && c.price == Last(candles[c.symbol]).close && WellFormedShort(c))
  {
    var (bulls, bears) := Collect(symbols, Evaluations(candles, cfg));
    CollectQualifies(symbols, candles, cfg);
    SortedMembers(bulls);
    SortedMembers(bears);
  }

  /** The sorted list has the same members as its input. */
  lemma SortedMembers(s: seq<Candidate>)
    ensures forall c :: c in SortByRank(s) <==> c in s
  {
    var r := SortByRank(s);
    assert forall c :: c in r <==> c in multiset(r);
    assert forall c :: c in s <==> c in multiset(s);
  }

  /** The summary counts every signal; whenever there is one, the average
      reward-to-risk is 2.5 and the average confidence lies in [0, 1]. */
  lemma ScreenSummary(symbols: seq<string>, candles: map<string, seq<Candle>>, cfg: Config)
    requires ValidConfig(cfg)
    ensures var res := Screen(symbols, candles, cfg);
            res.summary.count == |res.bullish| + |res.bearish|
            && (res.summary.count > 0 ==>
                  res.summary.avgRiskReward == Some(2.5) && 0.0 <= res.summary.avgConfidence.value <= 1.0)
  {
    var res := Screen(symbols, candles, cfg);
    ScreenQualifies(symbols, candles, cfg);
    SummaryOfSignals(res.bullish + res.bearish);
  }

  /** A symbol's candidates depend only on its own candles: adding or
      changing another symbol's candles never changes them. */
  lemma EvaluationIsolated(sym: string, other: string, candles: map<string, seq<Candle>>, kl: seq<Candle>, cfg: Config)
    requires ValidConfig(cfg) && sym != other && sym in candles
    ensures Evaluations(candles[other := kl], cfg)[sym] == Evaluations(candles, cfg)[sym]
  {
  }
}

/** The whole brain in the reflected market: a BUY becomes the SELL with reflected levels. */
module SignalMirror {
  import opened Prelude
  import opened MarketData
  import opened Indicators
  import opened Regime
  import opened Structure
  import opened Mirror
  import opened StructureMirror
  import opened Scoring
  import opened SignalPipeline

  function ReflectTick(c: real, t: Tick): Tick { t.(bid := c - t.ask, ask := c - t.bid) }

  function OtherSide(side: Side): Side { if side == Buy then Sell else Buy }

  function ReflectSignal(c: real, s: Signal): Signal
  {
    if s.NoSignal? then s
    else Signal(OtherSide(s.side), s.confidence, c - s.stopLoss, c - s.takeProfit, c - s.entryReference)
  }

  function ReflectLevel(c: real, x: Option<real>): Option<real> { if x.Some? then Some(c - x.value) else None }

  function OppositeEvent(e: StructureEvent): StructureEvent
  {
    match e
    case BosBullish => BosBearish
    case BosBearish => BosBullish
    case ChochBullish => ChochBearish
    case ChochBearish => ChochBullish
    case NoEvent => NoEvent
  }

  function ReflectStructure(c: real, st: StructureState): StructureState
  {
    StructureState(Opposite(st.bias), ReflectLevel(c, st.recentSwingLow), ReflectLevel(c, st.recentSwingHigh),
                   OppositeEvent(st.lastEvent), Opposite(st.structuralDirection))
  }

  function OppositeMomentum(m: Momentum): Momentum
  {
    match m
    case MomentumBullish => MomentumBearish
    case MomentumBearish => MomentumBullish
    case _ => m
  }

  function OppositeSetup(s: Setup): Setup
  {
    match s
    case LongBreakout => ShortBreakout
    case ShortBreakout => LongBreakout
    case LongFakeoutReversal => ShortFakeoutReversal
    case ShortFakeoutReversal => LongFakeoutReversal
    case _ => s
  }

  // ---------------------------------------------------------------- regime, structure and setup

  /** The parts of a regime context that scoring reads, seen from below. */
  ghost predicate FlippedContext(a: RegimeContext, b: RegimeContext)
  {
    && b.regime == Flipped(a.regime) && b.trendDirection == Opposite(a.trendDirection)
    && b.trendStrength == a.trendStrength && b.momentumState == OppositeMomentum(a.momentumState)
    && b.volatilityState == a.volatilityState && b.atr == a.atr
  }

  lemma MomentumReflected(cfg: RegimeConfig, rsi: Option<real>, rsi': Option<real>, trend: Direction)
    requires Paired(cfg) && rsi.Some? == rsi'.Some? && (rsi.Some? ==> rsi'.value == 100.0 - rsi.value)
    ensures MomentumOf(rsi', Opposite(trend), cfg) == OppositeMomentum(MomentumOf(rsi, trend, cfg))
  {}

  /** The thresholds treat a reading of 100 differently under a trend and under its opposite. */
  predicate HundredUneven(cfg: RegimeConfig, trend: Direction)
  {
    if trend == Neutral then 100.0 >= cfg.rsiBullishMin
    else !(cfg.rsiOverbought <= 0.0 || (100.0 < cfg.rsiOverbought && 100.0 < cfg.rsiBullishMin))
  }

  lemma MomentumAtHundred(cfg: RegimeConfig, trend: Direction)
    requires Paired(cfg)
    ensures MomentumOf(Some(100.0), Opposite(trend), cfg) == OppositeMomentum(MomentumOf(Some(100.0), trend, cfg))
            <==> !HundredUneven(cfg, trend)
  {}

  lemma RegimeFlipsWithMomentum(v: Volatility, mas: bool, trend: Direction, s: Strength, m: Momentum)
    requires trend != Neutral ==> mas
    ensures RegimeOf(v, mas, Opposite(trend), s, OppositeMomentum(m)) == Flipped(RegimeOf(v, mas, trend, s, m))
  {}

  /** RSI reads 100 both ways up because nothing moved, and the thresholds tell the two ways apart. */
  predicate StuckAtHundred(bars: seq<Bar>, cfg: RegimeConfig)
  {
    |bars| >= MinBars(cfg) && Motionless(bars, cfg.rsiPeriod) && HundredUneven(cfg, TrendAt(bars, cfg))
  }

  /** The momentum flips exactly if the RSI is not stuck. */
  lemma MomentumFlipsExactly(c: real, bars: seq<Bar>, cfg: RegimeConfig)
    requires Paired(cfg) && |bars| >= MinBars(cfg)
    ensures MomentumOf(Rsi(Reflect(c, bars), cfg.rsiPeriod), Opposite(TrendAt(bars, cfg)), cfg) ==
            OppositeMomentum(MomentumOf(Rsi(bars, cfg.rsiPeriod), TrendAt(bars, cfg), cfg))
            <==> !StuckAtHundred(bars, cfg)
  {
    var rsi, rsi' := Rsi(bars, cfg.rsiPeriod), Rsi(Reflect(c, bars), cfg.rsiPeriod);
    RsiReflected(c, bars, cfg.rsiPeriod);
    if Motionless(bars, cfg.rsiPeriod) {
      RsiOfAverages(bars, cfg.rsiPeriod);
      assert rsi == Some(100.0) && rsi' == Some(100.0);
      MomentumAtHundred(cfg, TrendAt(bars, cfg));
    } else {
      MomentumReflected(cfg, rsi, rsi', TrendAt(bars, cfg));
    }
  }

  /** Everything of the context but momentum and regime reflects in every market. */
  lemma ContextParts(c: real, bars: seq<Bar>, cfg: RegimeConfig)
    requires |bars| >= MinBars(cfg)
    ensures var a, b := ClassifyRegime(bars, cfg), ClassifyRegime(Reflect(c, bars), cfg);
            && a.trendDirection == TrendAt(bars, cfg) && b.trendDirection == Opposite(TrendAt(bars, cfg))
            && b.trendStrength == a.trendStrength && b.volatilityState == a.volatilityState && b.atr == a.atr
            && b.fastMa.Some? == a.fastMa.Some? && b.slowMa.Some? == a.slowMa.Some?
  {
    EmaReflected(c, bars, cfg.fastPeriod);
    EmaReflected(c, bars, cfg.slowPeriod);
    RangesReflected(c, bars, cfg.atrPeriod, cfg.atrBaselineBars, cfg.adxPeriod);
  }

  lemma RegimeParts(bars: seq<Bar>, cfg: RegimeConfig)
    requires |bars| >= MinBars(cfg)
    ensures var a := ClassifyRegime(bars, cfg);
            && a.momentumState == MomentumOf(Rsi(bars, cfg.rsiPeriod), a.trendDirection, cfg)
            && a.regime == RegimeOf(a.volatilityState, a.fastMa.Some? && a.slowMa.Some?, a.trendDirection,
                                    a.trendStrength, a.momentumState)
            && (a.trendDirection != Neutral ==> a.fastMa.Some? && a.slowMa.Some?)
  {}

  /** The whole context flips exactly if the RSI is not stuck at 100. */
  lemma ContextReflected(c: real, bars: seq<Bar>, cfg: RegimeConfig)
    requires Paired(cfg)
    ensures FlippedContext(ClassifyRegime(bars, cfg), ClassifyRegime(Reflect(c, bars), cfg)) <==>
            !StuckAtHundred(bars, cfg)
  {
    if |bars| >= MinBars(cfg) {
      var a := ClassifyRegime(bars, cfg);
      ContextParts(c, bars, cfg);
      RegimeParts(bars, cfg);
      RegimeParts(Reflect(c, bars), cfg);
      MomentumFlipsExactly(c, bars, cfg);
      RegimeFlipsWithMomentum(a.volatilityState, a.fastMa.Some? && a.slowMa.Some?, a.trendDirection, a.trendStrength,
                              a.momentumState);
    }
  }

  /**
   * The pivot prices read the same way up in both images: contracting, expanding, or, with a negative
   * displacement, rising and falling at once.
   */
  predicate UnevenPivots(highs: seq<real>, lows: seq<real>, d: real)
  {
    if |highs| >= 2 && |lows| >= 2 then
      var up, down := Rises(highs, d) && Rises(lows, d), Falls(highs, d) && Falls(lows, d);
      (up && down) || (!up && !down && ((Falls(highs, d) && Rises(lows, d)) || (Rises(highs, d) && Falls(lows, d))))
    else if |highs| >= 2 then Rises(highs, d) && Falls(highs, d)
    else |lows| >= 2 && Rises(lows, d) && Falls(lows, d)
  }

  /** Without a negative displacement these are exactly the contracting and the expanding markets. */
  lemma UnevenMeansContractingOrExpanding(highs: seq<real>, lows: seq<real>, d: real)
    requires d >= 0.0
    ensures UnevenPivots(highs, lows, d) <==>
            |highs| >= 2 && |lows| >= 2 &&
            ((Falls(highs, d) && Rises(lows, d)) || (Rises(highs, d) && Falls(lows, d)))
  {}

  lemma ReadingMirrored(c: real, highs: seq<real>, lows: seq<real>, highs': seq<real>, lows': seq<real>, d: real)
    requires Reflected(c, highs, lows') && Reflected(c, lows, highs')
    ensures var r := Reading(highs, lows, d);
            Reading(highs', lows', d) == (Opposite(r.0), OppositeEvent(r.1), Opposite(r.2))
            <==> !UnevenPivots(highs, lows, d)
  {}

  lemma StateMirrored(c: real, highs: seq<real>, lows: seq<real>, highs': seq<real>, lows': seq<real>, d: real)
    requires Reflected(c, highs, lows') && Reflected(c, lows, highs')
    ensures StateOf(highs', lows', d) == ReflectStructure(c, StateOf(highs, lows, d)) <==> !UnevenPivots(highs, lows, d)
  {
    if highs != [] || lows != [] {
      ReadingMirrored(c, highs, lows, highs', lows', d);
      LastPriceReflected(c, highs, lows');
      LastPriceReflected(c, lows, highs');
    }
  }

  /** The structure reflects as a whole exactly if its pivot prices are not uneven. */
  lemma WholeStructureReflected(c: real, bars: seq<Bar>, lookback: int, atr: Option<real>, multiplier: real)
    ensures AnalyzeStructure(Reflect(c, bars), lookback, atr, multiplier) ==
            ReflectStructure(c, AnalyzeStructure(bars, lookback, atr, multiplier))
            <==> !UnevenPivots(PivotPrices(bars, lookback, true), PivotPrices(bars, lookback, false),
                               Displacement(atr, multiplier))
  {
    var r := Reflect(c, bars);
    PivotsOfReflection(c, bars, lookback, true);
    PivotsOfReflection(c, bars, lookback, false);
    StateComesFromPivots(bars, lookback, atr, multiplier);
    StateComesFromPivots(r, lookback, atr, multiplier);
    StateMirrored(c, PivotPrices(bars, lookback, true), PivotPrices(bars, lookback, false),
                  PivotPrices(r, lookback, true), PivotPrices(r, lookback, false), Displacement(atr, multiplier));
  }

  predicate BreaksUp(bars: seq<Bar>, high: real, gap: real)
    requires |bars| >= 2
  {
    bars[|bars| - 1].close > high + gap && bars[|bars| - 2].close <= high
  }

  predicate BreaksDown(bars: seq<Bar>, low: real, gap: real)
    requires |bars| >= 2
  {
    bars[|bars| - 1].close < low - gap && bars[|bars| - 2].close >= low
  }

  /** The last bar pierces the swing high and the swing low and closes between them. */
  predicate DoubleFakeout(bars: seq<Bar>, high: real, low: real)
    requires |bars| >= 2
  {
    var last := bars[|bars| - 1];
    last.high > high > last.close > low > last.low
  }

  /** Setups on both sides at once, of which the program always takes the same one. */
  predicate TwoWaySetup(bars: seq<Bar>, high: Option<real>, low: Option<real>, gap: real)
  {
    |bars| >= 2 && high.Some? && low.Some? &&
    var up, down := BreaksUp(bars, high.value, gap), BreaksDown(bars, low.value, gap);
    (up && down) || (!up && !down && DoubleFakeout(bars, high.value, low.value))
  }

  /** Without a negative displacement only a double fakeout is two-way. */
  lemma TwoWayMeansDoubleFakeout(bars: seq<Bar>, high: Option<real>, low: Option<real>, gap: real)
    requires gap >= 0.0
    ensures TwoWaySetup(bars, high, low, gap) <==>
            |bars| >= 2 && high.Some? && low.Some? && DoubleFakeout(bars, high.value, low.value)
  {}

  /** Long and short setups change places exactly if the setup is not two-way. */
  lemma SetupReflected(c: real, bars: seq<Bar>, st: StructureState, atr: Option<real>, minDisplacement: real)
    ensures DetectSetup(Reflect(c, bars), ReflectStructure(c, st), atr, minDisplacement) ==
            OppositeSetup(DetectSetup(bars, st, atr, minDisplacement))
            <==> !TwoWaySetup(bars, st.recentSwingHigh, st.recentSwingLow, Displacement(atr, minDisplacement))
  {
    if |bars| >= 2 {
      var r, n := Reflect(c, bars), |bars|;
      assert r[n - 1] == ReflectBar(c, bars[n - 1]) && r[n - 2] == ReflectBar(c, bars[n - 2]);
    }
  }

  // ---------------------------------------------------------------- scores and levels

  ghost predicate FlippedInputs(c: real, a: Inputs, b: Inputs)
  {
    && b.tick == ReflectTick(c, a.tick) && b.structure == ReflectStructure(c, a.structure) && b.news == a.news
    && FlippedContext(a.regime, b.regime) && b.setup == OppositeSetup(a.setup)
  }

  /** Each of the six scores treats the two sides alike. */
  lemma EvidenceReflected(c: real, a: Inputs, b: Inputs, side: Side)
    requires FlippedInputs(c, a, b)
    ensures EvidenceFor(OtherSide(side), b.structure, b.regime, b.setup) ==
            EvidenceFor(side, a.structure, a.regime, a.setup)
  {}

  function ReflectLevels(c: real, levels: Option<(real, real)>): Option<(real, real)>
  {
    if levels.Some? then Some((c - levels.value.0, c - levels.value.1)) else None
  }

  /** The stop before the minimum-distance test. */
  function StopAt(tick: Tick, st: StructureState, atr: real, side: Side, buffer: real): real
  {
    var entry := Entry(side, tick);
    match side
    case Buy =>
      (if st.recentSwingLow.Some? && st.recentSwingLow.value < entry then st.recentSwingLow.value else entry - atr) -
      atr * buffer
    case Sell =>
      (if st.recentSwingHigh.Some? && st.recentSwingHigh.value > entry then st.recentSwingHigh.value else entry + atr) +
      atr * buffer
  }

  /** Distance from entry to that stop, on the losing side. */
  function RiskAt(tick: Tick, st: StructureState, atr: real, side: Side, buffer: real): real
  {
    var stop := StopAt(tick, st, atr, side, buffer);
    if side == Buy then Entry(side, tick) - stop else stop - Entry(side, tick)
  }

  lemma StopDecides(tick: Tick, st: StructureState, atr: real, side: Side, cfg: ScorerConfig)
    ensures ComputeSlTp(tick, st, atr, side, cfg).Some? <==>
            RiskAt(tick, st, atr, side, cfg.slBuffer) >= atr * cfg.minSlAtr
    ensures ComputeSlTp(tick, st, atr, side, cfg).Some? ==>
              ComputeSlTp(tick, st, atr, side, cfg).value.0 == StopAt(tick, st, atr, side, cfg.slBuffer)
  {}

  lemma StopReflected(c: real, tick: Tick, st: StructureState, atr: real, side: Side, cfg: ScorerConfig)
    ensures StopAt(ReflectTick(c, tick), ReflectStructure(c, st), atr, OtherSide(side), cfg.slBuffer) ==
            c - StopAt(tick, st, atr, side, cfg.slBuffer)
    ensures RiskAt(ReflectTick(c, tick), ReflectStructure(c, st), atr, OtherSide(side), cfg.slBuffer) ==
            RiskAt(tick, st, atr, side, cfg.slBuffer)
  {}

  lemma LevelsReflected(c: real, tick: Tick, st: StructureState, atr: real, side: Side, cfg: ScorerConfig)
    ensures ComputeSlTp(ReflectTick(c, tick), ReflectStructure(c, st), atr, OtherSide(side), cfg) ==
            ReflectLevels(c, ComputeSlTp(tick, st, atr, side, cfg))
  {
    var tick', st', risk := ReflectTick(c, tick), ReflectStructure(c, st), RiskAt(tick, st, atr, side, cfg.slBuffer);
    StopDecides(tick, st, atr, side, cfg);
    StopDecides(tick', st', atr, OtherSide(side), cfg);
    StopReflected(c, tick, st, atr, side, cfg);
    if ComputeSlTp(tick, st, atr, side, cfg).Some? {
      LevelsShape(tick, st, atr, side, cfg, risk);
      LevelsShape(tick', st', atr, OtherSide(side), cfg, risk);
    }
  }

  /** One direction in one market is the other direction in the reflected one. */
  lemma ConsiderReflected(c: real, a: Inputs, b: Inputs, cfg: ScorerConfig, best: (Signal, real), side: Side)
    requires FlippedInputs(c, a, b)
    ensures Consider(b, cfg, (ReflectSignal(c, best.0), best.1), OtherSide(side)) ==
            (ReflectSignal(c, Consider(a, cfg, best, side).0), Consider(a, cfg, best, side).1)
  {
    EvidenceReflected(c, a, b, side);
    LevelsReflected(c, a.tick, a.structure, EffectiveAtr(a.regime), side, cfg);
  }

  lemma EvaluationReflected(c: real, a: Inputs, b: Inputs, cfg: ScorerConfig)
    requires FlippedInputs(c, a, b)
    ensures EvaluateIn(b, cfg, [Sell, Buy]) == ReflectSignal(c, EvaluateIn(a, cfg, [Buy, Sell]))
  {
    assert [Buy, Sell][..1] == [Buy] && [Sell, Buy][..1] == [Sell] && [Buy][..0] == [] && [Sell][..0] == [];
    var none := (NoSignal, 0.0);
    assert Gated(b, cfg) == Gated(a, cfg);
    assert ConsiderAll(a, cfg, [Buy]) == Consider(a, cfg, none, Buy);
    assert ConsiderAll(b, cfg, [Sell]) == Consider(b, cfg, none, Sell);
    assert ConsiderAll(a, cfg, [Buy, Sell]) == Consider(a, cfg, ConsiderAll(a, cfg, [Buy]), Sell);
    assert ConsiderAll(b, cfg, [Sell, Buy]) == Consider(b, cfg, ConsiderAll(b, cfg, [Sell]), Buy);
    ConsiderReflected(c, a, b, cfg, none, Buy);
    ConsiderReflected(c, a, b, cfg, ConsiderAll(a, cfg, [Buy]), Sell);
  }

  // ---------------------------------------------------------------- the whole pipeline

  /** What keeps the brain even-handed: paired thresholds, and a confidence threshold only one side can reach. */
  ghost predicate EvenHanded(cfg: PipelineConfig)
  {
    Paired(cfg.regime) && NonNegativeWeights(cfg.scorer) && 2.0 * cfg.scorer.minConfidence > TotalBound(cfg.scorer)
  }

  /** The markets the brain reads the same way up in both images, by indicators, pivot prices and the last bars. */
  predicate Lopsided(bars: seq<Bar>, cfg: PipelineConfig)
  {
    var highs, lows := PivotPrices(bars, cfg.swingLookback, true), PivotPrices(bars, cfg.swingLookback, false);
    var atr := Atr(bars, cfg.regime.atrPeriod);
    || StuckAtHundred(bars, cfg.regime)
    || UnevenPivots(highs, lows, Displacement(atr, cfg.minBosMultiplier))
    || TwoWaySetup(bars, LastPrice(highs), LastPrice(lows), Displacement(atr, cfg.minDisplacementAtr))
  }

  /** All that scoring reads reflects if and only if the market is not lopsided. */
  lemma InputsReflected(c: real, tick: Tick, bars: seq<Bar>, news: string, cfg: PipelineConfig)
    requires Paired(cfg.regime)
    ensures FlippedInputs(c, InputsFor(tick, bars, news, cfg), InputsFor(ReflectTick(c, tick), Reflect(c, bars), news, cfg))
            <==> !Lopsided(bars, cfg)
  {
    var atr := Atr(bars, cfg.regime.atrPeriod);
    AtrReflected(c, bars, cfg.regime.atrPeriod);
    ContextReflected(c, bars, cfg.regime);
    WholeStructureReflected(c, bars, cfg.swingLookback, atr, cfg.minBosMultiplier);
    StateComesFromPivots(bars, cfg.swingLookback, atr, cfg.minBosMultiplier);
    SetupReflected(c, bars, AnalyzeStructure(bars, cfg.swingLookback, atr, cfg.minBosMultiplier), atr,
                   cfg.minDisplacementAtr);
  }

  /**
   * Outside the lopsided markets an even-handed brain has no direction of its own: turning all prices
   * upside down turns every proposal into the opposite one with reflected entry, stop and target and
   * the same confidence.
   */
  lemma ProposalReflected(c: real, tick: Tick, bars: seq<Bar>, news: string, stale: bool, cfg: PipelineConfig)
    requires EvenHanded(cfg) && !Lopsided(bars, cfg)
    ensures Process(ReflectTick(c, tick), Reflect(c, bars), news, stale, cfg) ==
            ReflectSignal(c, Process(tick, bars, news, stale, cfg))
  {
    var a, b := InputsFor(tick, bars, news, cfg), InputsFor(ReflectTick(c, tick), Reflect(c, bars), news, cfg);
    SameClosedness(c, bars);
    InputsReflected(c, tick, bars, news, cfg);
    EvaluationReflected(c, a, b, cfg.scorer);
    AnalyzedStructureCoherent(Reflect(c, bars), cfg.swingLookback, Atr(Reflect(c, bars), cfg.regime.atrPeriod),
                              cfg.minBosMultiplier);
    UniqueDirection(b, cfg.scorer);
  }

  lemma SameClosedness(c: real, bars: seq<Bar>)
    ensures (exists i :: 0 <= i < |bars| && !bars[i].isClosed) <==>
            (exists i :: 0 <= i < |bars| && !Reflect(c, bars)[i].isClosed)
  {
    forall i | 0 <= i < |bars|
      ensures Reflect(c, bars)[i].isClosed == bars[i].isClosed
    {}
  }
}

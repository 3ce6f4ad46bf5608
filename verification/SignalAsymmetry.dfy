/** What each kind of lopsided market does to a proposal: by how much it moves the confidences of the two sides. */
module SignalAsymmetry {
  import opened Prelude
  import opened MarketData
  import opened Indicators
  import opened Regime
  import opened Structure
  import opened Mirror
  import opened StructureMirror
  import opened Scoring
  import opened SignalPipeline
  import opened SignalMirror

  /** Reflection takes `shift` from the favoured side and gives it to the other. */
  ghost predicate Moves(a: Inputs, b: Inputs, cfg: ScorerConfig, favoured: Side, shift: real)
  {
    && SideConfidence(b, cfg, OtherSide(favoured)) == SideConfidence(a, cfg, favoured) - shift
    && SideConfidence(b, cfg, favoured) == SideConfidence(a, cfg, OtherSide(favoured)) + shift
  }

  /** The inputs of the market as it is and of the reflected one differ by such a shift. */
  ghost predicate Shifts(c: real, tick: Tick, bars: seq<Bar>, news: string, cfg: PipelineConfig, favoured: Side, shift: real)
  {
    Moves(InputsFor(tick, bars, news, cfg), InputsFor(ReflectTick(c, tick), Reflect(c, bars), news, cfg), cfg.scorer,
          favoured, shift)
  }

  // ---------------------------------------------------------------- one kind at a time

  predicate Uneven(bars: seq<Bar>, cfg: PipelineConfig)
  {
    UnevenPivots(PivotPrices(bars, cfg.swingLookback, true), PivotPrices(bars, cfg.swingLookback, false),
                 Displacement(Atr(bars, cfg.regime.atrPeriod), cfg.minBosMultiplier))
  }

  predicate TwoWay(bars: seq<Bar>, cfg: PipelineConfig)
  {
    TwoWaySetup(bars, LastPrice(PivotPrices(bars, cfg.swingLookback, true)),
                LastPrice(PivotPrices(bars, cfg.swingLookback, false)),
                Displacement(Atr(bars, cfg.regime.atrPeriod), cfg.minDisplacementAtr))
  }

  lemma LopsidedInOneOfThreeWays(bars: seq<Bar>, cfg: PipelineConfig)
    ensures Lopsided(bars, cfg) <==> StuckAtHundred(bars, cfg.regime) || Uneven(bars, cfg) || TwoWay(bars, cfg)
  {}

  lemma DisplacementNonNegative(atr: Option<real>, multiplier: real)
    requires multiplier >= 0.0
    ensures Displacement(atr, multiplier) >= 0.0
  {}

  /** The setup looks at the recent swings and the bias only. */
  lemma SetupFromSwings(bars: seq<Bar>, s: StructureState, t: StructureState, atr: Option<real>, minDisplacement: real)
    requires s.recentSwingHigh == t.recentSwingHigh && s.recentSwingLow == t.recentSwingLow && s.bias == t.bias
    ensures DetectSetup(bars, s, atr, minDisplacement) == DetectSetup(bars, t, atr, minDisplacement)
  {}

  // ---------------------------------------------------------------- evidence

  function EvidenceIn(inp: Inputs, side: Side): Evidence { EvidenceFor(side, inp.structure, inp.regime, inp.setup) }

  lemma StructureWeighed(e: Evidence, e': Evidence, x: real, cfg: ScorerConfig)
    requires e' == e.(structure := e.structure + x)
    ensures Weighted(e', cfg) == Weighted(e, cfg) + x * cfg.wStructure
  {}

  lemma StructureMoves(a: Inputs, b: Inputs, cfg: ScorerConfig, favoured: Side, x: real)
    requires var e := EvidenceIn(a, favoured); EvidenceIn(b, OtherSide(favoured)) == e.(structure := e.structure + -x)
    requires var e := EvidenceIn(a, OtherSide(favoured)); EvidenceIn(b, favoured) == e.(structure := e.structure + x)
    ensures Moves(a, b, cfg, favoured, x * cfg.wStructure)
  {
    StructureWeighed(EvidenceIn(a, favoured), EvidenceIn(b, OtherSide(favoured)), -x, cfg);
    StructureWeighed(EvidenceIn(a, OtherSide(favoured)), EvidenceIn(b, favoured), x, cfg);
  }

  lemma SetupWeighed(e: Evidence, e': Evidence, x: real, cfg: ScorerConfig)
    requires e' == e.(setup := e.setup + x)
    ensures Weighted(e', cfg) == Weighted(e, cfg) + x * cfg.wSetup
  {}

  lemma SetupMoves(a: Inputs, b: Inputs, cfg: ScorerConfig, favoured: Side, x: real)
    requires var e := EvidenceIn(a, favoured); EvidenceIn(b, OtherSide(favoured)) == e.(setup := e.setup + -x)
    requires var e := EvidenceIn(a, OtherSide(favoured)); EvidenceIn(b, favoured) == e.(setup := e.setup + x)
    ensures Moves(a, b, cfg, favoured, x * cfg.wSetup)
  {
    SetupWeighed(EvidenceIn(a, favoured), EvidenceIn(b, OtherSide(favoured)), -x, cfg);
    SetupWeighed(EvidenceIn(a, OtherSide(favoured)), EvidenceIn(b, favoured), x, cfg);
  }

  lemma MomentumWeighed(e: Evidence, e': Evidence, x: real, cfg: ScorerConfig)
    requires e' == e.(momentum := e.momentum + x)
    ensures Weighted(e', cfg) == Weighted(e, cfg) + x * cfg.wMomentum
  {}

  lemma MomentumMoves(a: Inputs, b: Inputs, cfg: ScorerConfig, favoured: Side, x: real)
    requires var e := EvidenceIn(a, favoured); EvidenceIn(b, OtherSide(favoured)) == e.(momentum := e.momentum + -x)
    requires var e := EvidenceIn(a, OtherSide(favoured)); EvidenceIn(b, favoured) == e.(momentum := e.momentum + x)
    ensures Moves(a, b, cfg, favoured, x * cfg.wMomentum)
  {
    MomentumWeighed(EvidenceIn(a, favoured), EvidenceIn(b, OtherSide(favoured)), -x, cfg);
    MomentumWeighed(EvidenceIn(a, OtherSide(favoured)), EvidenceIn(b, favoured), x, cfg);
  }

  // ---------------------------------------------------------------- contracting and expanding markets

  /** The event of a contracting market speaks for BUY, that of an expanding one for SELL. */
  function FavouredByPivots(highs: seq<real>, d: real): Side
    requires |highs| >= 2
  {
    if Falls(highs, d) then Buy else Sell
  }

  lemma UnevenReading(highs: seq<real>, lows: seq<real>, d: real)
    requires d >= 0.0 && UnevenPivots(highs, lows, d)
    ensures |highs| >= 2 && |lows| >= 2
    ensures var side := FavouredByPivots(highs, d); var st := StateOf(highs, lows, d);
            && st.bias == Neutral && ScoreStructure(side, st) == 0.6 && ScoreStructure(OtherSide(side), st) == 0.0
    ensures StateOf(highs, lows, d).recentSwingHigh == LastPrice(highs)
    ensures StateOf(highs, lows, d).recentSwingLow == LastPrice(lows)
  {}

  /** Reflection exchanges highs and lows, and contracting stays contracting. */
  lemma UnevenStays(c: real, highs: seq<real>, lows: seq<real>, highs': seq<real>, lows': seq<real>, d: real)
    requires d >= 0.0 && UnevenPivots(highs, lows, d) && Reflected(c, highs, lows') && Reflected(c, lows, highs')
    ensures UnevenPivots(highs', lows', d) && FavouredByPivots(highs', d) == FavouredByPivots(highs, d)
    ensures LastPrice(highs') == ReflectLevel(c, LastPrice(lows)) && LastPrice(lows') == ReflectLevel(c, LastPrice(highs))
  {}

  /** The structures of both images in an uneven market. */
  ghost predicate UnevenImages(c: real, a: StructureState, b: StructureState, favoured: Side)
  {
    && a.bias == Neutral && b.bias == Neutral
    && b.recentSwingHigh == ReflectLevel(c, a.recentSwingLow) && b.recentSwingLow == ReflectLevel(c, a.recentSwingHigh)
    && ScoreStructure(favoured, a) == 0.6 && ScoreStructure(OtherSide(favoured), a) == 0.0
    && ScoreStructure(favoured, b) == 0.6 && ScoreStructure(OtherSide(favoured), b) == 0.0
  }

  lemma UnevenStructures(c: real, bars: seq<Bar>, lookback: int, atr: Option<real>, multiplier: real)
    requires multiplier >= 0.0
    requires UnevenPivots(PivotPrices(bars, lookback, true), PivotPrices(bars, lookback, false), Displacement(atr, multiplier))
    ensures |PivotPrices(bars, lookback, true)| >= 2
    ensures UnevenImages(c, AnalyzeStructure(bars, lookback, atr, multiplier),
                         AnalyzeStructure(Reflect(c, bars), lookback, atr, multiplier),
                         FavouredByPivots(PivotPrices(bars, lookback, true), Displacement(atr, multiplier)))
  {
    var r, d := Reflect(c, bars), Displacement(atr, multiplier);
    var highs, lows := PivotPrices(bars, lookback, true), PivotPrices(bars, lookback, false);
    var highs', lows' := PivotPrices(r, lookback, true), PivotPrices(r, lookback, false);
    DisplacementNonNegative(atr, multiplier);
    PivotsOfReflection(c, bars, lookback, true);
    PivotsOfReflection(c, bars, lookback, false);
    StateComesFromPivots(bars, lookback, atr, multiplier);
    StateComesFromPivots(r, lookback, atr, multiplier);
    UnevenStays(c, highs, lows, highs', lows', d);
    UnevenReading(highs, lows, d);
    UnevenReading(highs', lows', d);
  }

  lemma UnevenEvidence(c: real, a: Inputs, b: Inputs, favoured: Side)
    requires FlippedContext(a.regime, b.regime) && b.setup == OppositeSetup(a.setup)
    requires UnevenImages(c, a.structure, b.structure, favoured)
    ensures var e := EvidenceIn(a, favoured); EvidenceIn(b, OtherSide(favoured)) == e.(structure := e.structure + -0.6)
    ensures var e := EvidenceIn(a, OtherSide(favoured)); EvidenceIn(b, favoured) == e.(structure := e.structure + 0.6)
  {}

  lemma UnevenMoves(c: real, a: Inputs, b: Inputs, cfg: ScorerConfig, favoured: Side)
    requires FlippedContext(a.regime, b.regime) && b.setup == OppositeSetup(a.setup)
    requires UnevenImages(c, a.structure, b.structure, favoured)
    ensures Moves(a, b, cfg, favoured, 0.6 * cfg.wStructure)
  {
    UnevenEvidence(c, a, b, favoured);
    if favoured == Buy {
      StructureMoves(a, b, cfg, Buy, 0.6);
    } else {
      StructureMoves(a, b, cfg, Sell, 0.6);
    }
  }

  /** Setups of an uneven market still exchange. */
  lemma UnevenSetup(c: real, bars: seq<Bar>, a: StructureState, b: StructureState, favoured: Side, atr: Option<real>,
                    minDisplacement: real)
    requires UnevenImages(c, a, b, favoured)
    requires !TwoWaySetup(bars, a.recentSwingHigh, a.recentSwingLow, Displacement(atr, minDisplacement))
    ensures DetectSetup(Reflect(c, bars), b, atr, minDisplacement) ==
            OppositeSetup(DetectSetup(bars, a, atr, minDisplacement))
  {
    SetupReflected(c, bars, a, atr, minDisplacement);
    SetupFromSwings(Reflect(c, bars), b, ReflectStructure(c, a), atr, minDisplacement);
  }

  function PivotSide(bars: seq<Bar>, cfg: PipelineConfig): Side
    requires |PivotPrices(bars, cfg.swingLookback, true)| >= 2
  {
    FavouredByPivots(PivotPrices(bars, cfg.swingLookback, true),
                     Displacement(Atr(bars, cfg.regime.atrPeriod), cfg.minBosMultiplier))
  }

  lemma UnevenInputs(c: real, tick: Tick, bars: seq<Bar>, news: string, cfg: PipelineConfig)
    requires Paired(cfg.regime) && cfg.minBosMultiplier >= 0.0
    requires Uneven(bars, cfg) && !StuckAtHundred(bars, cfg.regime) && !TwoWay(bars, cfg)
    ensures |PivotPrices(bars, cfg.swingLookback, true)| >= 2
    ensures var a, b := InputsFor(tick, bars, news, cfg), InputsFor(ReflectTick(c, tick), Reflect(c, bars), news, cfg);
            && FlippedContext(a.regime, b.regime) && b.setup == OppositeSetup(a.setup)
            && UnevenImages(c, a.structure, b.structure, PivotSide(bars, cfg))
  {
    var atr := Atr(bars, cfg.regime.atrPeriod);
    var st := AnalyzeStructure(bars, cfg.swingLookback, atr, cfg.minBosMultiplier);
    var st' := AnalyzeStructure(Reflect(c, bars), cfg.swingLookback, atr, cfg.minBosMultiplier);
    AtrReflected(c, bars, cfg.regime.atrPeriod);
    ContextReflected(c, bars, cfg.regime);
    UnevenStructures(c, bars, cfg.swingLookback, atr, cfg.minBosMultiplier);
    StateComesFromPivots(bars, cfg.swingLookback, atr, cfg.minBosMultiplier);
    UnevenSetup(c, bars, st, st', PivotSide(bars, cfg), atr, cfg.minDisplacementAtr);
  }

  /** In a contracting market reflection takes 0.6 of the structure weight from BUY, in an expanding one from SELL. */
  lemma UnevenShifts(c: real, tick: Tick, bars: seq<Bar>, news: string, cfg: PipelineConfig)
    requires Paired(cfg.regime) && cfg.minBosMultiplier >= 0.0
    requires Uneven(bars, cfg) && !StuckAtHundred(bars, cfg.regime) && !TwoWay(bars, cfg)
    ensures |PivotPrices(bars, cfg.swingLookback, true)| >= 2
    ensures Shifts(c, tick, bars, news, cfg, PivotSide(bars, cfg), 0.6 * cfg.scorer.wStructure)
  {
    UnevenInputs(c, tick, bars, news, cfg);
    UnevenMoves(c, InputsFor(tick, bars, news, cfg), InputsFor(ReflectTick(c, tick), Reflect(c, bars), news, cfg),
                cfg.scorer, PivotSide(bars, cfg));
  }

  // ---------------------------------------------------------------- double fakeouts

  /** The fakeout above the swing high is tested first, so both images read it as SHORT. */
  lemma TwoWayReads(bars: seq<Bar>, st: StructureState, atr: Option<real>, minDisplacement: real)
    requires minDisplacement >= 0.0
    requires TwoWaySetup(bars, st.recentSwingHigh, st.recentSwingLow, Displacement(atr, minDisplacement))
    ensures DetectSetup(bars, st, atr, minDisplacement) == ShortFakeoutReversal
  {
    DisplacementNonNegative(atr, minDisplacement);
    TwoWayMeansDoubleFakeout(bars, st.recentSwingHigh, st.recentSwingLow, Displacement(atr, minDisplacement));
  }

  lemma TwoWayBothWaysUp(c: real, bars: seq<Bar>, high: Option<real>, low: Option<real>, gap: real)
    ensures TwoWaySetup(Reflect(c, bars), ReflectLevel(c, low), ReflectLevel(c, high), gap) == TwoWaySetup(bars, high, low, gap)
  {
    if |bars| >= 2 {
      var r, n := Reflect(c, bars), |bars|;
      assert r[n - 1] == ReflectBar(c, bars[n - 1]) && r[n - 2] == ReflectBar(c, bars[n - 2]);
    }
  }

  lemma TwoWayEvidence(c: real, a: Inputs, b: Inputs)
    requires FlippedContext(a.regime, b.regime) && b.structure == ReflectStructure(c, a.structure)
    requires a.setup == ShortFakeoutReversal && b.setup == ShortFakeoutReversal
    ensures var e := EvidenceIn(a, Sell); EvidenceIn(b, Buy) == e.(setup := e.setup + -0.8)
    ensures var e := EvidenceIn(a, Buy); EvidenceIn(b, Sell) == e.(setup := e.setup + 0.8)
  {}

  lemma TwoWayMoves(c: real, a: Inputs, b: Inputs, cfg: ScorerConfig)
    requires FlippedContext(a.regime, b.regime) && b.structure == ReflectStructure(c, a.structure)
    requires a.setup == ShortFakeoutReversal && b.setup == ShortFakeoutReversal
    ensures Moves(a, b, cfg, Sell, 0.8 * cfg.wSetup)
  {
    TwoWayEvidence(c, a, b);
    SetupMoves(a, b, cfg, Sell, 0.8);
  }

  lemma TwoWayInputs(c: real, tick: Tick, bars: seq<Bar>, news: string, cfg: PipelineConfig)
    requires Paired(cfg.regime) && cfg.minDisplacementAtr >= 0.0
    requires TwoWay(bars, cfg) && !StuckAtHundred(bars, cfg.regime) && !Uneven(bars, cfg)
    ensures var a, b := InputsFor(tick, bars, news, cfg), InputsFor(ReflectTick(c, tick), Reflect(c, bars), news, cfg);
            && FlippedContext(a.regime, b.regime) && b.structure == ReflectStructure(c, a.structure)
            && a.setup == ShortFakeoutReversal && b.setup == ShortFakeoutReversal
  {
    var atr := Atr(bars, cfg.regime.atrPeriod);
    var st := AnalyzeStructure(bars, cfg.swingLookback, atr, cfg.minBosMultiplier);
    AtrReflected(c, bars, cfg.regime.atrPeriod);
    ContextReflected(c, bars, cfg.regime);
    WholeStructureReflected(c, bars, cfg.swingLookback, atr, cfg.minBosMultiplier);
    StateComesFromPivots(bars, cfg.swingLookback, atr, cfg.minBosMultiplier);
    TwoWayReads(bars, st, atr, cfg.minDisplacementAtr);
    TwoWayBothWaysUp(c, bars, st.recentSwingHigh, st.recentSwingLow, Displacement(atr, cfg.minDisplacementAtr));
    TwoWayReads(Reflect(c, bars), ReflectStructure(c, st), atr, cfg.minDisplacementAtr);
  }

  /** A double fakeout takes 0.8 of the setup weight from SELL. */
  lemma TwoWayShifts(c: real, tick: Tick, bars: seq<Bar>, news: string, cfg: PipelineConfig)
    requires Paired(cfg.regime) && cfg.minDisplacementAtr >= 0.0
    requires TwoWay(bars, cfg) && !StuckAtHundred(bars, cfg.regime) && !Uneven(bars, cfg)
    ensures Shifts(c, tick, bars, news, cfg, Sell, 0.8 * cfg.scorer.wSetup)
  {
    TwoWayInputs(c, tick, bars, news, cfg);
    TwoWayMoves(c, InputsFor(tick, bars, news, cfg), InputsFor(ReflectTick(c, tick), Reflect(c, bars), news, cfg),
                cfg.scorer);
  }

  // ---------------------------------------------------------------- motionless markets

  /** The context of a motionless market in both images: bullish momentum, no trend. */
  ghost predicate StillImages(a: RegimeContext, b: RegimeContext)
  {
    && b.regime == a.regime && a.regime !in {TrendUp, TrendDown}
    && a.trendDirection == Neutral && b.trendDirection == Neutral && b.trendStrength == a.trendStrength
    && a.momentumState == MomentumBullish && b.momentumState == MomentumBullish
    && b.volatilityState == a.volatilityState && b.atr == a.atr
  }

  /** Smoothing over two bars or more, a stuck RSI means a market without trend. */
  lemma StuckHasNoTrend(bars: seq<Bar>, cfg: RegimeConfig)
    requires cfg.rsiPeriod >= 2 && StuckAtHundred(bars, cfg)
    ensures TrendAt(bars, cfg) == Neutral
  {
    MotionlessIsFlat(bars, cfg.rsiPeriod);
    FlatMarketHasNoTrend(bars, cfg.fastPeriod, cfg.slowPeriod);
  }

  lemma StillContexts(c: real, bars: seq<Bar>, cfg: RegimeConfig)
    requires StuckAtHundred(bars, cfg) && TrendAt(bars, cfg) == Neutral
    ensures StillImages(ClassifyRegime(bars, cfg), ClassifyRegime(Reflect(c, bars), cfg))
  {
    RsiReflected(c, bars, cfg.rsiPeriod);
    RsiOfAverages(bars, cfg.rsiPeriod);
    ContextParts(c, bars, cfg);
    RegimeParts(bars, cfg);
    RegimeParts(Reflect(c, bars), cfg);
  }

  lemma StillEvidence(c: real, a: Inputs, b: Inputs)
    requires StillImages(a.regime, b.regime) && b.structure == ReflectStructure(c, a.structure)
    requires b.setup == OppositeSetup(a.setup)
    ensures var e := EvidenceIn(a, Buy); EvidenceIn(b, Sell) == e.(momentum := e.momentum + -1.0)
    ensures var e := EvidenceIn(a, Sell); EvidenceIn(b, Buy) == e.(momentum := e.momentum + 1.0)
  {}

  lemma StillMoves(c: real, a: Inputs, b: Inputs, cfg: ScorerConfig)
    requires StillImages(a.regime, b.regime) && b.structure == ReflectStructure(c, a.structure)
    requires b.setup == OppositeSetup(a.setup)
    ensures Moves(a, b, cfg, Buy, cfg.wMomentum)
  {
    StillEvidence(c, a, b);
    MomentumMoves(a, b, cfg, Buy, 1.0);
  }

  lemma StillInputs(c: real, tick: Tick, bars: seq<Bar>, news: string, cfg: PipelineConfig)
    requires cfg.regime.rsiPeriod >= 2
    requires StuckAtHundred(bars, cfg.regime) && !Uneven(bars, cfg) && !TwoWay(bars, cfg)
    ensures var a, b := InputsFor(tick, bars, news, cfg), InputsFor(ReflectTick(c, tick), Reflect(c, bars), news, cfg);
            StillImages(a.regime, b.regime) && b.structure == ReflectStructure(c, a.structure) &&
            b.setup == OppositeSetup(a.setup)
  {
    var atr := Atr(bars, cfg.regime.atrPeriod);
    var st := AnalyzeStructure(bars, cfg.swingLookback, atr, cfg.minBosMultiplier);
    AtrReflected(c, bars, cfg.regime.atrPeriod);
    StuckHasNoTrend(bars, cfg.regime);
    StillContexts(c, bars, cfg.regime);
    WholeStructureReflected(c, bars, cfg.swingLookback, atr, cfg.minBosMultiplier);
    StateComesFromPivots(bars, cfg.swingLookback, atr, cfg.minBosMultiplier);
    SetupReflected(c, bars, st, atr, cfg.minDisplacementAtr);
  }

  /** A motionless market takes the momentum weight from BUY. */
  lemma StillShifts(c: real, tick: Tick, bars: seq<Bar>, news: string, cfg: PipelineConfig)
    requires cfg.regime.rsiPeriod >= 2
    requires StuckAtHundred(bars, cfg.regime) && !Uneven(bars, cfg) && !TwoWay(bars, cfg)
    ensures Shifts(c, tick, bars, news, cfg, Buy, cfg.scorer.wMomentum)
  {
    StillInputs(c, tick, bars, news, cfg);
    StillMoves(c, InputsFor(tick, bars, news, cfg), InputsFor(ReflectTick(c, tick), Reflect(c, bars), news, cfg),
               cfg.scorer);
  }

  // ---------------------------------------------------------------- what becomes of the proposal

  lemma {:induction false} SignalCarriesConfidence(inp: Inputs, cfg: ScorerConfig, sides: seq<Side>)
    ensures var signal := ConsiderAll(inp, cfg, sides).0;
            signal.Signal? ==> signal.confidence == SideConfidence(inp, cfg, signal.side)
  {
    if sides != [] {
      SignalCarriesConfidence(inp, cfg, sides[..|sides| - 1]);
    }
  }

  lemma ProposalCarriesConfidence(tick: Tick, bars: seq<Bar>, news: string, stale: bool, cfg: PipelineConfig)
    ensures var signal := Process(tick, bars, news, stale, cfg);
            signal.Signal? ==> signal.confidence == SideConfidence(InputsFor(tick, bars, news, cfg), cfg.scorer, signal.side)
  {
    SignalCarriesConfidence(InputsFor(tick, bars, news, cfg), cfg.scorer, SIDES);
  }

  /** A proposal of one image is the reflected one of the other only if there is none at all. */
  ghost predicate ReflectsOnlySilence(c: real, tick: Tick, bars: seq<Bar>, news: string, stale: bool, cfg: PipelineConfig)
  {
    var upright, reversed := Process(tick, bars, news, stale, cfg),
                             Process(ReflectTick(c, tick), Reflect(c, bars), news, stale, cfg);
    reversed == ReflectSignal(c, upright) <==> upright.NoSignal? && reversed.NoSignal?
  }

  lemma ShiftedProposal(c: real, tick: Tick, bars: seq<Bar>, news: string, stale: bool, cfg: PipelineConfig,
                        favoured: Side, shift: real)
    requires Shifts(c, tick, bars, news, cfg, favoured, shift) && shift != 0.0
    ensures ReflectsOnlySilence(c, tick, bars, news, stale, cfg)
  {
    ProposalCarriesConfidence(tick, bars, news, stale, cfg);
    ProposalCarriesConfidence(ReflectTick(c, tick), Reflect(c, bars), news, stale, cfg);
    var upright := Process(tick, bars, news, stale, cfg);
    if upright.Signal? {
      assert upright.side == favoured || upright.side == OtherSide(favoured);
    }
  }

  lemma UnevenBreaksProposals(c: real, tick: Tick, bars: seq<Bar>, news: string, stale: bool, cfg: PipelineConfig)
    requires Paired(cfg.regime) && cfg.minBosMultiplier >= 0.0 && cfg.scorer.wStructure != 0.0
    requires Uneven(bars, cfg) && !StuckAtHundred(bars, cfg.regime) && !TwoWay(bars, cfg)
    ensures ReflectsOnlySilence(c, tick, bars, news, stale, cfg)
  {
    UnevenShifts(c, tick, bars, news, cfg);
    ShiftedProposal(c, tick, bars, news, stale, cfg, PivotSide(bars, cfg), 0.6 * cfg.scorer.wStructure);
  }

  lemma TwoWayBreaksProposals(c: real, tick: Tick, bars: seq<Bar>, news: string, stale: bool, cfg: PipelineConfig)
    requires Paired(cfg.regime) && cfg.minDisplacementAtr >= 0.0 && cfg.scorer.wSetup != 0.0
    requires TwoWay(bars, cfg) && !StuckAtHundred(bars, cfg.regime) && !Uneven(bars, cfg)
    ensures ReflectsOnlySilence(c, tick, bars, news, stale, cfg)
  {
    TwoWayShifts(c, tick, bars, news, cfg);
    ShiftedProposal(c, tick, bars, news, stale, cfg, Sell, 0.8 * cfg.scorer.wSetup);
  }

  lemma StillBreaksProposals(c: real, tick: Tick, bars: seq<Bar>, news: string, stale: bool, cfg: PipelineConfig)
    requires cfg.regime.rsiPeriod >= 2 && cfg.scorer.wMomentum != 0.0
    requires StuckAtHundred(bars, cfg.regime) && !Uneven(bars, cfg) && !TwoWay(bars, cfg)
    ensures ReflectsOnlySilence(c, tick, bars, news, stale, cfg)
  {
    StillShifts(c, tick, bars, news, cfg);
    ShiftedProposal(c, tick, bars, news, stale, cfg, Buy, cfg.scorer.wMomentum);
  }
}

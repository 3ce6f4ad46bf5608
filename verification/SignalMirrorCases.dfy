/** Each kind of lopsided market on a concrete one: a proposal of the shipped scoring that its mirror image does not reflect. */
module SignalMirrorCases {
  import opened Prelude
  import opened MarketData
  import opened Indicators
  import opened IndicatorBounds
  import opened Regime
  import opened Structure
  import opened Mirror
  import opened StructureMirror
  import opened Scoring
  import opened SignalPipeline
  import opened SignalMirror
  import opened SignalAsymmetry

  /** Shorter periods than the shipped ones, so that a handful of bars is enough; all thresholds are the shipped ones. */
  const SHORT := RegimeConfig(1, 2, 2, 1, 14, 20.0, 52.0, 48.0, 70.0, 30.0, 50, 1.5, 2.0, Some(15.0))

  function Pipeline(scorer: ScorerConfig): PipelineConfig { PipelineConfig(true, 1, 0.3, 0.3, SHORT, scorer) }

  /** The shipped weights with a lower threshold. */
  const EASIER := DEFAULT_SCORER.(minConfidence := 0.65)

  const TICK := Tick("XAUUSD", 9.0, 9.25, 0, None)

  function ClosedBar(high: real, low: real, close: real): Bar
  {
    Bar("XAUUSD", "M15", 0, 0, close, high, low, close, 1.0, true)
  }

  lemma ShippedWeightsAreEvenHanded(scorer: ScorerConfig)
    requires scorer == DEFAULT_SCORER || scorer == EASIER
    ensures EvenHanded(Pipeline(scorer))
  {
    assert TotalBound(scorer) == 1.2;
  }

  /** The market is lopsided, a signal is proposed, and the mirror image does not propose its reflection. */
  ghost predicate BreaksSymmetry(c: real, bars: seq<Bar>, cfg: PipelineConfig)
  {
    var signal := Process(TICK, bars, "CLEAR", false, cfg);
    && EvenHanded(cfg) && Lopsided(bars, cfg) && signal.Signal?
    && Process(ReflectTick(c, TICK), Reflect(c, bars), "CLEAR", false, cfg) != ReflectSignal(c, signal)
  }

  // ---------------------------------------------------------------- indicators of short periods

  lemma WilderOfOne(xs: seq<real>, n: int)
    requires 0 < n <= |xs|
    ensures Wilder(xs, 1, n) == xs[n - 1]
  {
    if n == 1 {
      assert xs[..1] == [xs[0]] && Sum([xs[0]]) == Sum([]) + xs[0] by { assert [xs[0]][..0] == []; }
    }
  }

  lemma AtrOfLastBar(bars: seq<Bar>)
    requires |bars| >= 2
    ensures Atr(bars, 1) == Some(TrueRange(bars[|bars| - 1], bars[|bars| - 2]))
  {
    WilderOfOne(TrueRanges(bars), |bars| - 1);
  }

  lemma ShortWeights()
    ensures EmaWeight(1) == 1.0 && EmaWeight(2) == 2.0 / 3.0
  {}

  lemma EmaOfOne(bars: seq<Bar>)
    requires |bars| >= 1
    ensures Ema(bars, 1) == Some(bars[|bars| - 1].close)
  {
    var xs := Closes(bars);
    ShortWeights();
    SumAppend([], xs[0]);
    assert xs[..1] == [] + [xs[0]];
    if |bars| > 1 {
      var before := EmaAfter(xs, 1, |bars| - 1);
      assert EmaAfter(xs, 1, |bars|) == EmaStep(before, xs[|bars| - 1], EmaWeight(1)) == xs[|bars| - 1];
    }
  }

  lemma {:induction false} EmaOfTwoBelow(xs: seq<real>, n: int, hi: real)
    requires 2 <= n <= |xs| && forall i :: 0 <= i < n ==> xs[i] < hi
    ensures EmaAfter(xs, 2, n) < hi
    decreases n
  {
    ShortWeights();
    if n == 2 {
      SumAppend([], xs[0]);
      SumAppend([xs[0]], xs[1]);
      assert [] + [xs[0]] == [xs[0]] && xs[..2] == [xs[0]] + [xs[1]];
    } else {
      EmaOfTwoBelow(xs, n - 1, hi);
    }
  }

  /** A close above all earlier ones. */
  lemma NewHighIsBullish(bars: seq<Bar>)
    requires |bars| >= 3 && forall i :: 0 <= i < |bars| - 1 ==> bars[i].close < bars[|bars| - 1].close
    ensures TrendAt(bars, SHORT) == Bullish
  {
    var n, last := |bars|, bars[|bars| - 1].close;
    EmaOfOne(bars);
    ShortWeights();
    EmaOfTwoBelow(Closes(bars), n - 1, last);
    assert EmaAfter(Closes(bars), 2, n) == EmaStep(EmaAfter(Closes(bars), 2, n - 1), last, EmaWeight(2));
  }

  lemma NewLowIsBearish(bars: seq<Bar>)
    requires |bars| >= 3 && forall i :: 0 <= i < |bars| - 1 ==> bars[i].close > bars[|bars| - 1].close
    ensures TrendAt(bars, SHORT) == Bearish
  {
    NewHighIsBullish(Reflect(0.0, bars));
    EmaReflected(0.0, bars, 1);
    EmaReflected(0.0, bars, 2);
  }

  lemma MovingIsNotStuck(bars: seq<Bar>, i: nat)
    requires i < |bars| && bars[i].close != bars[0].close
    ensures !StuckAtHundred(bars, SHORT)
  {
    if StuckAtHundred(bars, SHORT) {
      MotionlessIsFlat(bars, 2);
    }
  }

  /** A handful of bars has no ADX and no ATR baseline, so entries are permitted unless the last bar is huge. */
  lemma FewBarsPermitEntry(bars: seq<Bar>, atr: real)
    requires 3 <= |bars| <= 28 && Atr(bars, 1) == Some(atr) && 0.0 <= atr <= 15.0
    ensures var r := ClassifyRegime(bars, SHORT);
            && r.PermitsNewEntry() && r.atr == Some(atr) && r.volatilityState == Normal
            && r.trendDirection == TrendAt(bars, SHORT) && (r.trendDirection != Neutral ==> r.trendStrength == Trending)
  {
    assert AtrBaseline(bars, 1, 50) == None;
    assert Adx(bars, 14) == NO_ADX;
    assert Ema(bars, 1).Some? && Ema(bars, 2).Some?;
  }

  // ---------------------------------------------------------------- how a signal gets proposed

  /** With the stop buffer above the minimum distance, levels always exist. */
  lemma LevelsExist(tick: Tick, st: StructureState, atr: real, side: Side, cfg: ScorerConfig)
    requires atr > 0.0 && cfg.slBuffer == 0.5 && cfg.minSlAtr == 0.3
    ensures ComputeSlTp(tick, st, atr, side, cfg).Some?
  {
    StopDecides(tick, st, atr, side, cfg);
  }

  lemma QualifyingIsProposed(inp: Inputs, cfg: ScorerConfig, side: Side)
    requires !Gated(inp, cfg) && Qualifies(inp, cfg, side)
    ensures EvaluateIn(inp, cfg, SIDES).Signal?
  {
    PickIsBest(inp, cfg, SIDES);
    assert SIDES[0] == Buy && SIDES[1] == Sell;
    assert side in SIDES;
  }

  /** A side that reaches the threshold makes the pipeline propose. */
  lemma ReachingIsProposed(bars: seq<Bar>, scorer: ScorerConfig, side: Side, atr: real)
    requires 3 <= |bars| <= 28 && forall i :: 0 <= i < |bars| ==> bars[i].isClosed
    requires Atr(bars, 1) == Some(atr) && 0.0 < atr <= 15.0
    requires scorer == DEFAULT_SCORER || scorer == EASIER
    requires SideConfidence(InputsFor(TICK, bars, "CLEAR", Pipeline(scorer)), scorer, side) >= scorer.minConfidence
    ensures Process(TICK, bars, "CLEAR", false, Pipeline(scorer)).Signal?
  {
    var inp := InputsFor(TICK, bars, "CLEAR", Pipeline(scorer));
    FewBarsPermitEntry(bars, atr);
    LevelsExist(TICK, inp.structure, atr, side, scorer);
    QualifyingIsProposed(inp, scorer, side);
  }

  /** Lower bounds of the six scores bound the confidence under the shipped weights. */
  lemma ConfidenceAtLeast(inp: Inputs, scorer: ScorerConfig, side: Side, least: Evidence)
    requires scorer == DEFAULT_SCORER || scorer == EASIER
    requires var e := EvidenceIn(inp, side);
             && e.structure >= least.structure && e.trend >= least.trend && e.setup >= least.setup
             && e.momentum >= least.momentum && e.volatility >= least.volatility && e.regime >= least.regime
    ensures SideConfidence(inp, scorer, side) >= 0.25 * least.structure + 0.2 * least.trend + 0.25 * least.setup +
                                                 0.1 * least.momentum + 0.1 * least.volatility + 0.1 * least.regime
  {}

  lemma InputsParts(bars: seq<Bar>, scorer: ScorerConfig)
    ensures var inp := InputsFor(TICK, bars, "CLEAR", Pipeline(scorer));
            && inp.regime == ClassifyRegime(bars, SHORT)
            && inp.structure == AnalyzeStructure(bars, 1, Atr(bars, 1), 0.3)
            && inp.setup == DetectSetup(bars, inp.structure, Atr(bars, 1), 0.3)
  {}

  // ---------------------------------------------------------------- pivots of seven bars

  /** The pivot at bar i when one bar on each side counts. */
  function PivotAt(bars: seq<Bar>, i: nat, high: bool): seq<real>
    requires 1 <= i < |bars| - 1
  {
    if high then (if bars[i].high > bars[i - 1].high && bars[i].high > bars[i + 1].high then [bars[i].high] else [])
    else (if bars[i].low < bars[i - 1].low && bars[i].low < bars[i + 1].low then [bars[i].low] else [])
  }

  /** The pivots at bars 1 .. end - 1. */
  function PivotsBelow(bars: seq<Bar>, end: nat, high: bool): seq<real>
    requires 1 <= end < |bars|
  {
    if end == 1 then [] else PivotsBelow(bars, end - 1, high) + PivotAt(bars, end - 1, high)
  }

  lemma NeighboursDecide(bars: seq<Bar>, i: nat)
    requires 1 <= i < |bars| - 1
    ensures SwingHigh(bars, 1, i) <==> bars[i].high > bars[i - 1].high && bars[i].high > bars[i + 1].high
    ensures SwingLow(bars, 1, i) <==> bars[i].low < bars[i - 1].low && bars[i].low < bars[i + 1].low
  {}

  lemma {:induction false} PivotsOneByOne(bars: seq<Bar>, end: nat, high: bool)
    requires 1 <= end < |bars|
    ensures PricesOfKind(SwingsUpTo(bars, 1, end), high) == PivotsBelow(bars, end, high)
  {
    if end > 1 {
      PivotsOneByOne(bars, end - 1, high);
      PricesConcat(SwingsUpTo(bars, 1, end - 1), SwingsAt(bars, 1, end - 1), high);
      PricesAtOneBar(bars, 1, end - 1, high);
      NeighboursDecide(bars, end - 1);
    }
  }

  lemma NoPivot(bars: seq<Bar>, end: nat, high: bool)
    requires 1 <= end < |bars| - 1 && PivotAt(bars, end, high) == []
    ensures PivotsBelow(bars, end + 1, high) == PivotsBelow(bars, end, high)
  {}

  lemma OnePivot(bars: seq<Bar>, end: nat, high: bool, x: real)
    requires 1 <= end < |bars| - 1 && PivotAt(bars, end, high) == [x]
    ensures PivotsBelow(bars, end + 1, high) == PivotsBelow(bars, end, high) + [x]
  {}

  lemma PivotsOfSeven(bars: seq<Bar>, high: bool)
    requires |bars| == 7
    ensures PivotPrices(bars, 1, high) == PivotsBelow(bars, 6, high)
  {
    PivotPricesAre(bars, 1, high);
    PivotsOneByOne(bars, 6, high);
  }

  /** Pivots at bars 1 and 3 only. */
  lemma FirstAndThird(bars: seq<Bar>, high: bool, a: real, b: real)
    requires |bars| == 7 && PivotAt(bars, 1, high) == [a] && PivotAt(bars, 3, high) == [b]
    requires PivotAt(bars, 2, high) == [] && PivotAt(bars, 4, high) == [] && PivotAt(bars, 5, high) == []
    ensures PivotPrices(bars, 1, high) == [a, b]
  {
    PivotsOfSeven(bars, high);
    OnePivot(bars, 1, high, a);
    NoPivot(bars, 2, high);
    OnePivot(bars, 3, high, b);
    NoPivot(bars, 4, high);
    NoPivot(bars, 5, high);
  }

  /** Pivots at bars 2 and 4 only. */
  lemma SecondAndFourth(bars: seq<Bar>, high: bool, a: real, b: real)
    requires |bars| == 7 && PivotAt(bars, 2, high) == [a] && PivotAt(bars, 4, high) == [b]
    requires PivotAt(bars, 1, high) == [] && PivotAt(bars, 3, high) == [] && PivotAt(bars, 5, high) == []
    ensures PivotPrices(bars, 1, high) == [a, b]
  {
    PivotsOfSeven(bars, high);
    NoPivot(bars, 1, high);
    OnePivot(bars, 2, high, a);
    NoPivot(bars, 3, high);
    OnePivot(bars, 4, high, b);
    NoPivot(bars, 5, high);
  }

  /** Last two bars, ATR and pivots of seven closed bars. */
  ghost predicate Looks(bars: seq<Bar>, atr: real, highs: seq<real>, lows: seq<real>)
  {
    && |bars| == 7 && (forall i :: 0 <= i < 7 ==> bars[i].isClosed)
    && Atr(bars, 1) == Some(atr) && 0.0 < atr <= 15.0
    && PivotPrices(bars, 1, true) == highs && PivotPrices(bars, 1, false) == lows
  }

  lemma StructureLooks(bars: seq<Bar>, atr: real, highs: seq<real>, lows: seq<real>)
    requires Looks(bars, atr, highs, lows)
    ensures AnalyzeStructure(bars, 1, Atr(bars, 1), 0.3) == StateOf(highs, lows, atr * 0.3)
  {
    StateComesFromPivots(bars, 1, Atr(bars, 1), 0.3);
  }

  /** Displaced by 0.3 ATR, these pivots are uneven or these bars two-way. */
  lemma KindsLook(bars: seq<Bar>, atr: real, highs: seq<real>, lows: seq<real>, scorer: ScorerConfig)
    requires Looks(bars, atr, highs, lows)
    ensures Uneven(bars, Pipeline(scorer)) <==> UnevenPivots(highs, lows, atr * 0.3)
    ensures TwoWay(bars, Pipeline(scorer)) <==> TwoWaySetup(bars, LastPrice(highs), LastPrice(lows), atr * 0.3)
  {}

  // ---------------------------------------------------------------- a market whose closes never move

  /** Swing highs 10 and 11, swing lows 7 and 8, the last low pierced, and all closes the same. */
  const STILL := [ClosedBar(9.5, 8.5, 9.0), ClosedBar(10.0, 8.6, 9.0), ClosedBar(9.6, 7.0, 9.0), ClosedBar(11.0, 8.7, 9.0),
                  ClosedBar(9.8, 8.0, 9.0), ClosedBar(9.7, 8.5, 9.0), ClosedBar(9.2, 7.9, 9.0)]

  lemma StillHighs()
    ensures PivotPrices(STILL, 1, true) == [10.0, 11.0]
  {
    FirstAndThird(STILL, true, 10.0, 11.0);
  }

  lemma StillLows()
    ensures PivotPrices(STILL, 1, false) == [7.0, 8.0]
  {
    SecondAndFourth(STILL, false, 7.0, 8.0);
  }

  lemma FlatIsMotionless(bars: seq<Bar>)
    requires |bars| >= 3 && forall i :: 0 <= i < |bars| ==> bars[i].close == bars[0].close
    ensures Motionless(bars, 2)
  {
    WilderInBand(Gains(bars), 2, |bars| - 1, 0.0, 0.0);
    WilderInBand(Losses(bars), 2, |bars| - 1, 0.0, 0.0);
  }

  lemma FlatIsStuck(bars: seq<Bar>)
    requires |bars| >= 3 && forall i :: 0 <= i < |bars| ==> bars[i].close == bars[0].close
    ensures StuckAtHundred(bars, SHORT) && TrendAt(bars, SHORT) == Neutral
  {
    FlatIsMotionless(bars);
    FlatMarketHasNoTrend(bars, 1, 2);
  }


  /** The last bar of STILL, on the way up from 10 and 7 to 11 and 8. */
  ghost predicate LooksStill(bars: seq<Bar>)
  {
    && Looks(bars, 1.3, [10.0, 11.0], [7.0, 8.0]) && (forall i :: 0 <= i < 7 ==> bars[i].close == 9.0)
    && bars[6].high == 9.2 && bars[6].low == 7.9
  }

  lemma StillBars()
    ensures |STILL| == 7 && forall i :: 0 <= i < 7 ==> STILL[i].isClosed
    ensures (forall i :: 0 <= i < 7 ==> STILL[i].close == 9.0) && STILL[6].high == 9.2 && STILL[6].low == 7.9
  {}

  lemma StillAtr()
    ensures |STILL| == 7 && Atr(STILL, 1) == Some(1.3)
  {
    AtrOfLastBar(STILL);
  }

  lemma StillLooks()
    ensures LooksStill(STILL)
  {
    StillHighs();
    StillLows();
    StillBars();
    StillAtr();
  }

  lemma StillStructure(bars: seq<Bar>)
    requires LooksStill(bars)
    ensures var st := AnalyzeStructure(bars, 1, Atr(bars, 1), 0.3);
            st.bias == Bullish && DetectSetup(bars, st, Atr(bars, 1), 0.3) == LongFakeoutReversal
  {
    StructureLooks(bars, 1.3, [10.0, 11.0], [7.0, 8.0]);
  }

  lemma StillMomentum(bars: seq<Bar>)
    requires LooksStill(bars)
    ensures ClassifyRegime(bars, SHORT).momentumState == MomentumBullish && ClassifyRegime(bars, SHORT).regime == Range
  {
    FlatIsMotionless(bars);
    FlatIsStuck(bars);
    FewBarsPermitEntry(bars, 1.3);
    RsiReflected(0.0, bars, 2);
    RegimeParts(bars, SHORT);
  }

  lemma StillIsProposed(bars: seq<Bar>)
    requires LooksStill(bars)
    ensures Process(TICK, bars, "CLEAR", false, Pipeline(EASIER)).Signal?
  {
    StillStructure(bars);
    StillMomentum(bars);
    FewBarsPermitEntry(bars, 1.3);
    InputsParts(bars, EASIER);
    ConfidenceAtLeast(InputsFor(TICK, bars, "CLEAR", Pipeline(EASIER)), EASIER, Buy, Evidence(1.0, 0.0, 0.8, 1.0, 1.0, 0.3));
    ReachingIsProposed(bars, EASIER, Buy, 1.3);
  }

  lemma StillIsOfOneKind(bars: seq<Bar>)
    requires LooksStill(bars)
    ensures StuckAtHundred(bars, SHORT) && !Uneven(bars, Pipeline(EASIER)) && !TwoWay(bars, Pipeline(EASIER))
  {
    FlatIsStuck(bars);
    KindsLook(bars, 1.3, [10.0, 11.0], [7.0, 8.0], EASIER);
  }

  /** RSI reads 100 both ways up where no close moved, so the BUY of this market is not reflected. */
  lemma MotionlessBreaksSymmetry(c: real)
    ensures BreaksSymmetry(c, STILL, Pipeline(EASIER))
  {
    StillLooks();
    ShippedWeightsAreEvenHanded(EASIER);
    StillIsProposed(STILL);
    StillIsOfOneKind(STILL);
    LopsidedInOneOfThreeWays(STILL, Pipeline(EASIER));
    StillBreaksProposals(c, TICK, STILL, "CLEAR", false, Pipeline(EASIER));
  }

  // ---------------------------------------------------------------- a contracting market

  /** Swing highs 10 and 9, swing lows 7 and 8, and a breakout upwards. */
  const CONTRACTING := [ClosedBar(8.5, 7.5, 8.0), ClosedBar(10.0, 7.6, 8.5), ClosedBar(8.6, 7.0, 8.0), ClosedBar(9.0, 8.2, 8.5),
                        ClosedBar(8.7, 8.0, 8.2), ClosedBar(8.6, 8.3, 8.4), ClosedBar(9.7, 8.35, 9.6)]

  lemma ContractingHighs()
    ensures PivotPrices(CONTRACTING, 1, true) == [10.0, 9.0]
  {
    FirstAndThird(CONTRACTING, true, 10.0, 9.0);
  }

  lemma ContractingLows()
    ensures PivotPrices(CONTRACTING, 1, false) == [7.0, 8.0]
  {
    SecondAndFourth(CONTRACTING, false, 7.0, 8.0);
  }


  /** The last two bars of CONTRACTING, and a last close above all others. */
  ghost predicate LooksContracting(bars: seq<Bar>)
  {
    && Looks(bars, 1.35, [10.0, 9.0], [7.0, 8.0]) && bars[6].close == 9.6 && bars[6].low == 8.35 && bars[5].close == 8.4
    && forall i :: 0 <= i < 6 ==> bars[i].close < 9.6
  }

  lemma ContractingBars()
    ensures |CONTRACTING| == 7 && forall i :: 0 <= i < 7 ==> CONTRACTING[i].isClosed
    ensures (forall i :: 0 <= i < 6 ==> CONTRACTING[i].close < 9.6) &&
            CONTRACTING[6].close == 9.6 && CONTRACTING[6].low == 8.35 && CONTRACTING[5].close == 8.4
  {}

  lemma ContractingAtr()
    ensures |CONTRACTING| == 7 && Atr(CONTRACTING, 1) == Some(1.35)
  {
    AtrOfLastBar(CONTRACTING);
  }

  lemma ContractingLooks()
    ensures LooksContracting(CONTRACTING)
  {
    ContractingHighs();
    ContractingLows();
    ContractingBars();
    ContractingAtr();
  }

  lemma ContractingStructure(bars: seq<Bar>)
    requires LooksContracting(bars)
    ensures var st := AnalyzeStructure(bars, 1, Atr(bars, 1), 0.3);
            ScoreStructure(Buy, st) == 0.6 && DetectSetup(bars, st, Atr(bars, 1), 0.3) == LongBreakout
  {
    StructureLooks(bars, 1.35, [10.0, 9.0], [7.0, 8.0]);
  }

  lemma ContractingIsProposed(bars: seq<Bar>)
    requires LooksContracting(bars)
    ensures Process(TICK, bars, "CLEAR", false, Pipeline(DEFAULT_SCORER)).Signal?
  {
    ContractingStructure(bars);
    NewHighIsBullish(bars);
    FewBarsPermitEntry(bars, 1.35);
    InputsParts(bars, DEFAULT_SCORER);
    ConfidenceAtLeast(InputsFor(TICK, bars, "CLEAR", Pipeline(DEFAULT_SCORER)), DEFAULT_SCORER, Buy,
                      Evidence(0.6, 1.0, 1.0, 0.0, 1.0, 0.0));
    ReachingIsProposed(bars, DEFAULT_SCORER, Buy, 1.35);
  }

  lemma ContractingIsOfOneKind(bars: seq<Bar>)
    requires LooksContracting(bars)
    ensures !StuckAtHundred(bars, SHORT) && Uneven(bars, Pipeline(DEFAULT_SCORER)) && !TwoWay(bars, Pipeline(DEFAULT_SCORER))
  {
    MovingIsNotStuck(bars, 6);
    KindsLook(bars, 1.35, [10.0, 9.0], [7.0, 8.0], DEFAULT_SCORER);
  }

  /** A contracting market speaks for BUY both ways up, so the BUY of this one is not reflected. */
  lemma ContractionBreaksSymmetry(c: real)
    ensures BreaksSymmetry(c, CONTRACTING, Pipeline(DEFAULT_SCORER))
  {
    ContractingLooks();
    ShippedWeightsAreEvenHanded(DEFAULT_SCORER);
    ContractingIsProposed(CONTRACTING);
    ContractingIsOfOneKind(CONTRACTING);
    LopsidedInOneOfThreeWays(CONTRACTING, Pipeline(DEFAULT_SCORER));
    UnevenBreaksProposals(c, TICK, CONTRACTING, "CLEAR", false, Pipeline(DEFAULT_SCORER));
  }

  // ---------------------------------------------------------------- a bar that fakes out on both sides

  /** Swing highs 12 and 10, swing lows 9 and 7, the last two pierced by the last bar. */
  const PIERCED := [ClosedBar(11.0, 9.5, 10.0), ClosedBar(12.0, 9.6, 10.5), ClosedBar(9.9, 9.0, 9.5), ClosedBar(10.0, 9.2, 9.6),
                    ClosedBar(9.5, 7.0, 8.5), ClosedBar(9.0, 7.5, 8.4), ClosedBar(10.5, 6.5, 7.8)]

  lemma PiercedHighs()
    ensures PivotPrices(PIERCED, 1, true) == [12.0, 10.0]
  {
    FirstAndThird(PIERCED, true, 12.0, 10.0);
  }

  lemma PiercedLows()
    ensures PivotPrices(PIERCED, 1, false) == [9.0, 7.0]
  {
    SecondAndFourth(PIERCED, false, 9.0, 7.0);
  }

  /** The last bar of PIERCED, with a close below all others. */
  ghost predicate LooksPierced(bars: seq<Bar>)
  {
    && Looks(bars, 4.0, [12.0, 10.0], [9.0, 7.0])
    && bars[6].high == 10.5 && bars[6].low == 6.5 && bars[6].close == 7.8 && bars[5].close == 8.4
    && forall i :: 0 <= i < 6 ==> bars[i].close > 7.8
  }

  lemma PiercedBars()
    ensures |PIERCED| == 7 && forall i :: 0 <= i < 7 ==> PIERCED[i].isClosed
    ensures (forall i :: 0 <= i < 6 ==> PIERCED[i].close > 7.8) && PIERCED[5].close == 8.4 &&
            PIERCED[6].high == 10.5 && PIERCED[6].low == 6.5 && PIERCED[6].close == 7.8
  {}

  lemma PiercedAtr()
    ensures |PIERCED| == 7 && Atr(PIERCED, 1) == Some(4.0)
  {
    AtrOfLastBar(PIERCED);
  }

  lemma PiercedLooks()
    ensures LooksPierced(PIERCED)
  {
    PiercedHighs();
    PiercedLows();
    PiercedBars();
    PiercedAtr();
  }

  lemma PiercedStructure(bars: seq<Bar>)
    requires LooksPierced(bars)
    ensures var st := AnalyzeStructure(bars, 1, Atr(bars, 1), 0.3);
            st.bias == Bearish && DetectSetup(bars, st, Atr(bars, 1), 0.3) == ShortFakeoutReversal
  {
    StructureLooks(bars, 4.0, [12.0, 10.0], [9.0, 7.0]);
  }

  lemma PiercedIsProposed(bars: seq<Bar>)
    requires LooksPierced(bars)
    ensures Process(TICK, bars, "CLEAR", false, Pipeline(DEFAULT_SCORER)).Signal?
  {
    PiercedStructure(bars);
    NewLowIsBearish(bars);
    FewBarsPermitEntry(bars, 4.0);
    InputsParts(bars, DEFAULT_SCORER);
    ConfidenceAtLeast(InputsFor(TICK, bars, "CLEAR", Pipeline(DEFAULT_SCORER)), DEFAULT_SCORER, Sell,
                      Evidence(1.0, 1.0, 0.8, 0.0, 1.0, 0.0));
    ReachingIsProposed(bars, DEFAULT_SCORER, Sell, 4.0);
  }

  lemma PiercedIsOfOneKind(bars: seq<Bar>)
    requires LooksPierced(bars)
    ensures !StuckAtHundred(bars, SHORT) && !Uneven(bars, Pipeline(DEFAULT_SCORER)) && TwoWay(bars, Pipeline(DEFAULT_SCORER))
  {
    MovingIsNotStuck(bars, 6);
    KindsLook(bars, 4.0, [12.0, 10.0], [9.0, 7.0], DEFAULT_SCORER);
  }

  /** The fakeout above is tested first both ways up, so the SELL of this market is not reflected. */
  lemma DoubleFakeoutBreaksSymmetry(c: real)
    ensures BreaksSymmetry(c, PIERCED, Pipeline(DEFAULT_SCORER))
  {
    PiercedLooks();
    ShippedWeightsAreEvenHanded(DEFAULT_SCORER);
    PiercedIsProposed(PIERCED);
    PiercedIsOfOneKind(PIERCED);
    LopsidedInOneOfThreeWays(PIERCED, Pipeline(DEFAULT_SCORER));
    TwoWayBreaksProposals(c, TICK, PIERCED, "CLEAR", false, Pipeline(DEFAULT_SCORER));
  }
}

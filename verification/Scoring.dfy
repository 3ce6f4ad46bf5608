/** Multi-factor scoring: from structure, regime and setup to a signal with stop and target. */
module Scoring {
  import opened Prelude
  import opened Arithmetic
  import opened MarketData
  import opened Regime
  import opened Structure

  datatype Side = Buy | Sell

  datatype Setup = LongBreakout | ShortBreakout | LongFakeoutReversal | ShortFakeoutReversal | Continuation | NoSetup

  datatype Signal =
    | NoSignal
    | Signal(side: Side, confidence: real, stopLoss: real, takeProfit: real, entryReference: real)

  datatype ScorerConfig = ScorerConfig(
    minConfidence: real, wStructure: real, wTrend: real, wSetup: real, wMomentum: real, wVolatility: real,
    wRegime: real, slBuffer: real, minSlAtr: real, rr: real, maxSpread: real)

  const DEFAULT_SCORER := ScorerConfig(0.70, 0.25, 0.20, 0.25, 0.10, 0.10, 0.10, 0.50, 0.30, 2.0, 1.0)

  // ---------------------------------------------------------------- the six scores

  function ScoreStructure(side: Side, st: StructureState): real
  {
    match side
    case Buy =>
      if st.bias == Bullish then 1.0
      else if st.lastEvent == ChochBullish then 0.6
      else if st.structuralDirection == Bullish then 0.4
      else 0.0
    case Sell =>
      if st.bias == Bearish then 1.0
      else if st.lastEvent == ChochBearish then 0.6
      else if st.structuralDirection == Bearish then 0.4
      else 0.0
  }

  function ScoreTrend(side: Side, reg: RegimeContext): real
  {
    var aligned := (side == Buy && reg.trendDirection == Bullish) || (side == Sell && reg.trendDirection == Bearish);
    (if aligned then 0.5 else 0.0) + (if reg.trendStrength == Trending then 0.5 else 0.0)
  }

  function ScoreSetup(side: Side, setup: Setup): real
  {
    if (side == Buy && setup == LongBreakout) || (side == Sell && setup == ShortBreakout) then 1.0
    else if (side == Buy && setup == LongFakeoutReversal) || (side == Sell && setup == ShortFakeoutReversal) then 0.8
    else if setup == Continuation then 0.5
    else 0.0
  }

  function ScoreMomentum(side: Side, reg: RegimeContext): real
  {
    if reg.momentumState == Exhausted then 0.0
    else if (side == Buy && reg.momentumState == MomentumBullish) ||
            (side == Sell && reg.momentumState == MomentumBearish) then 1.0
    else if reg.momentumState == MomentumNeutral then 0.5
    else 0.0
  }

  function ScoreVolatility(reg: RegimeContext): real
  {
    match reg.volatilityState
    case Normal => 1.0
    case Contracting => 0.8
    case Expanding => 0.5
    case _ => 0.0
  }

  function ScoreRegime(side: Side, reg: RegimeContext): real
  {
    if (side == Buy && reg.regime == TrendUp) || (side == Sell && reg.regime == TrendDown) then 1.0
    else if reg.regime == Range then 0.3
    else 0.0
  }

  /** One value per evidence dimension. */
  datatype Evidence = Evidence(structure: real, trend: real, setup: real, momentum: real, volatility: real, regime: real)

  function EvidenceFor(side: Side, st: StructureState, reg: RegimeContext, setup: Setup): Evidence
  {
    Evidence(ScoreStructure(side, st), ScoreTrend(side, reg), ScoreSetup(side, setup),
             ScoreMomentum(side, reg), ScoreVolatility(reg), ScoreRegime(side, reg))
  }

  function Weighted(e: Evidence, cfg: ScorerConfig): real
  {
    e.structure * cfg.wStructure + e.trend * cfg.wTrend + e.setup * cfg.wSetup +
    e.momentum * cfg.wMomentum + e.volatility * cfg.wVolatility + e.regime * cfg.wRegime
  }

  function Confidence(side: Side, st: StructureState, reg: RegimeContext, setup: Setup, cfg: ScorerConfig): real
  {
    Weighted(EvidenceFor(side, st, reg, setup), cfg)
  }

  // ---------------------------------------------------------------- stop and target

  /** A missing or zero ATR falls back to 1. */
  function EffectiveAtr(reg: RegimeContext): real
  {
    if reg.atr.None? || reg.atr.value == 0.0 then 1.0 else reg.atr.value
  }

  function Entry(side: Side, tick: Tick): real { if side == Buy then tick.ask else tick.bid }

  /** Stop and target, or nothing when the stop would be closer than the minimum. */
  function ComputeSlTp(tick: Tick, st: StructureState, atr: real, side: Side, cfg: ScorerConfig): Option<(real, real)>
  {
    var entry := Entry(side, tick);
    match side
    case Buy =>
      var low := st.recentSwingLow;
      var base := if low.Some? && low.value < entry then low.value else entry - atr;
      var sl := base - atr * cfg.slBuffer;
      if entry - sl < atr * cfg.minSlAtr then None else Some((sl, entry + (entry - sl) * cfg.rr))
    case Sell =>
      var high := st.recentSwingHigh;
      var base := if high.Some? && high.value > entry then high.value else entry + atr;
      var sl := base + atr * cfg.slBuffer;
      if sl - entry < atr * cfg.minSlAtr then None else Some((sl, entry - (sl - entry) * cfg.rr))
  }

  // ---------------------------------------------------------------- the evaluation

  datatype Inputs = Inputs(tick: Tick, structure: StructureState, regime: RegimeContext, news: string, setup: Setup)

  predicate Gated(inp: Inputs, cfg: ScorerConfig)
  {
    inp.news != "CLEAR" || inp.tick.Spread() > cfg.maxSpread || !inp.regime.PermitsNewEntry()
  }

  function SideConfidence(inp: Inputs, cfg: ScorerConfig, side: Side): real
  {
    Confidence(side, inp.structure, inp.regime, inp.setup, cfg)
  }

  /** One pass of the direction loop: a side replaces the best so far only if strictly better. */
  function Consider(inp: Inputs, cfg: ScorerConfig, best: (Signal, real), side: Side): (Signal, real)
  {
    var conf := SideConfidence(inp, cfg, side);
    if conf < cfg.minConfidence || conf <= best.1 then best
    else
      match ComputeSlTp(inp.tick, inp.structure, EffectiveAtr(inp.regime), side, cfg)
      case None => best
      case Some((sl, tp)) => (Signal(side, conf, sl, tp, Entry(side, inp.tick)), conf)
  }

  function ConsiderAll(inp: Inputs, cfg: ScorerConfig, sides: seq<Side>): (Signal, real)
  {
    if sides == [] then (NoSignal, 0.0)
    else Consider(inp, cfg, ConsiderAll(inp, cfg, sides[..|sides| - 1]), sides[|sides| - 1])
  }

  function EvaluateIn(inp: Inputs, cfg: ScorerConfig, sides: seq<Side>): Signal
  {
    if Gated(inp, cfg) then NoSignal else ConsiderAll(inp, cfg, sides).0
  }

  const SIDES := [Buy, Sell]

  method Evaluate(inp: Inputs, cfg: ScorerConfig) returns (signal: Signal)
    ensures signal == EvaluateIn(inp, cfg, SIDES)
  {
    signal := NoSignal;
    if Gated(inp, cfg) {
      return;
    }
    var bestConf := 0.0;
    for i := 0 to |SIDES|
      invariant (signal, bestConf) == ConsiderAll(inp, cfg, SIDES[..i])
    {
      assert SIDES[..i + 1][..i] == SIDES[..i];
      var conf := SideConfidence(inp, cfg, SIDES[i]);
      if conf < cfg.minConfidence || conf <= bestConf {
        continue;
      }
      var levels := ComputeSlTp(inp.tick, inp.structure, EffectiveAtr(inp.regime), SIDES[i], cfg);
      if levels.None? {
        continue;
      }
      bestConf := conf;
      signal := Signal(SIDES[i], conf, levels.value.0, levels.value.1, Entry(SIDES[i], inp.tick));
    }
    assert SIDES[..|SIDES|] == SIDES;
  }

  /** The side reaches the threshold, scores above zero and has levels. */
  predicate Qualifies(inp: Inputs, cfg: ScorerConfig, side: Side)
  {
    var conf := SideConfidence(inp, cfg, side);
    conf >= cfg.minConfidence && conf > 0.0 &&
    ComputeSlTp(inp.tick, inp.structure, EffectiveAtr(inp.regime), side, cfg).Some?
  }

  ghost predicate IsBestOf(inp: Inputs, cfg: ScorerConfig, sides: seq<Side>, pick: (Signal, real))
  {
    && pick.1 >= 0.0 && (pick.0.NoSignal? ==> pick.1 == 0.0)
    && (pick.0.Signal? ==>
          pick.0.side in sides && Qualifies(inp, cfg, pick.0.side) && pick.1 == SideConfidence(inp, cfg, pick.0.side))
    && (forall side :: side in sides && Qualifies(inp, cfg, side) ==>
          pick.0.Signal? && SideConfidence(inp, cfg, side) <= pick.1)
  }

  /** The loop returns a qualifying side of the highest confidence, and nothing only if no side qualifies. */
  lemma {:induction false} PickIsBest(inp: Inputs, cfg: ScorerConfig, sides: seq<Side>)
    ensures IsBestOf(inp, cfg, sides, ConsiderAll(inp, cfg, sides))
  {
    if sides != [] {
      var front, last := sides[..|sides| - 1], sides[|sides| - 1];
      PickIsBest(inp, cfg, front);
      BestOfOneMore(inp, cfg, front, last, ConsiderAll(inp, cfg, front));
      assert sides == front + [last];
    }
  }

  lemma BestOfOneMore(inp: Inputs, cfg: ScorerConfig, front: seq<Side>, last: Side, best: (Signal, real))
    requires IsBestOf(inp, cfg, front, best)
    ensures IsBestOf(inp, cfg, front + [last], Consider(inp, cfg, best, last))
  {
    assert last in front + [last];
    assert forall side :: side in front + [last] <==> side in front || side == last;
  }

  // ---------------------------------------------------------------- soundness

  /** Stop and target on opposite sides of the entry, at least `minimum` away, target rr times as far. */
  ghost predicate SoundLevels(side: Side, entry: real, sl: real, tp: real, minimum: real, rr: real)
  {
    Abs(entry - sl) >= minimum && Abs(tp - entry) == rr * Abs(entry - sl) &&
    if side == Buy then sl < entry < tp else tp < entry < sl
  }

  /** A signal the risk engine can size: entry at the touch, stop and target on opposite sides of it. */
  ghost predicate Sound(signal: Signal, tick: Tick, cfg: ScorerConfig, atr: real)
    requires signal.Signal?
  {
    var entry := Entry(signal.side, tick);
    && signal.entryReference == entry
    && signal.confidence >= cfg.minConfidence && signal.confidence > 0.0
    && SoundLevels(signal.side, entry, signal.stopLoss, signal.takeProfit, atr * cfg.minSlAtr, cfg.rr)
  }

  /** Levels derived from an entry and a positive risk lie on opposite sides of the entry. */
  lemma LevelsSound(entry: real, risk: real, rr: real)
    requires risk > 0.0 && rr > 0.0
    ensures entry - risk < entry < entry + risk * rr && entry - risk * rr < entry < entry + risk
    ensures Abs(entry - (entry - risk)) == risk == Abs(entry - (entry + risk))
    ensures Abs(entry + risk * rr - entry) == rr * risk == Abs(entry - risk * rr - entry)
  {
    ProductPositive(risk, rr);
  }

  lemma SlTpSound(tick: Tick, st: StructureState, atr: real, side: Side, cfg: ScorerConfig)
    requires atr > 0.0 && cfg.minSlAtr > 0.0 && cfg.rr > 0.0
    requires ComputeSlTp(tick, st, atr, side, cfg).Some?
    ensures var levels := ComputeSlTp(tick, st, atr, side, cfg).value;
            SoundLevels(side, Entry(side, tick), levels.0, levels.1, atr * cfg.minSlAtr, cfg.rr)
  {
    var levels, entry := ComputeSlTp(tick, st, atr, side, cfg).value, Entry(side, tick);
    var risk := if side == Buy then entry - levels.0 else levels.0 - entry;
    var minimum := atr * cfg.minSlAtr;
    ProductPositive(atr, cfg.minSlAtr);
    LevelsShape(tick, st, atr, side, cfg, risk);
    RiskSound(side, entry, risk, minimum, cfg.rr);
  }

  /** Both sides place the target rr times the distance of the stop away, on the other side. */
  lemma LevelsShape(tick: Tick, st: StructureState, atr: real, side: Side, cfg: ScorerConfig, risk: real)
    requires ComputeSlTp(tick, st, atr, side, cfg).Some?
    requires var sl := ComputeSlTp(tick, st, atr, side, cfg).value.0;
             risk == if side == Buy then Entry(side, tick) - sl else sl - Entry(side, tick)
    ensures risk >= atr * cfg.minSlAtr
    ensures ComputeSlTp(tick, st, atr, side, cfg).value.0 ==
            if side == Buy then Entry(side, tick) - risk else Entry(side, tick) + risk
    ensures ComputeSlTp(tick, st, atr, side, cfg).value.1 ==
            if side == Buy then Entry(side, tick) + risk * cfg.rr else Entry(side, tick) - risk * cfg.rr
  {
    var sl, entry := ComputeSlTp(tick, st, atr, side, cfg).value.0, Entry(side, tick);
    if side == Buy {
      assert (entry - sl) * cfg.rr == risk * cfg.rr;
    } else {
      assert (sl - entry) * cfg.rr == risk * cfg.rr;
    }
  }

  lemma RiskSound(side: Side, entry: real, risk: real, minimum: real, rr: real)
    requires risk >= minimum > 0.0 && rr > 0.0
    ensures SoundLevels(side, entry, if side == Buy then entry - risk else entry + risk,
                        if side == Buy then entry + risk * rr else entry - risk * rr, minimum, rr)
  {
    LevelsSound(entry, risk, rr);
  }

  ghost predicate SoundPick(inp: Inputs, cfg: ScorerConfig, pick: (Signal, real))
  {
    pick.1 >= 0.0 &&
    (pick.0.Signal? ==>
       pick.1 == pick.0.confidence == SideConfidence(inp, cfg, pick.0.side) &&
       Sound(pick.0, inp.tick, cfg, EffectiveAtr(inp.regime)))
  }

  lemma ConsiderSound(inp: Inputs, cfg: ScorerConfig, best: (Signal, real), side: Side)
    requires cfg.minSlAtr > 0.0 && cfg.rr > 0.0 && EffectiveAtr(inp.regime) > 0.0
    requires SoundPick(inp, cfg, best)
    ensures SoundPick(inp, cfg, Consider(inp, cfg, best, side))
  {
    if ComputeSlTp(inp.tick, inp.structure, EffectiveAtr(inp.regime), side, cfg).Some? {
      SlTpSound(inp.tick, inp.structure, EffectiveAtr(inp.regime), side, cfg);
    }
  }

  /** Every emitted signal is sound, for whatever structure, regime and setup it came from. */
  lemma {:induction false} SignalSound(inp: Inputs, cfg: ScorerConfig, sides: seq<Side>)
    requires cfg.minSlAtr > 0.0 && cfg.rr > 0.0
    requires inp.regime.atr.Some? ==> inp.regime.atr.value >= 0.0
    ensures SoundPick(inp, cfg, ConsiderAll(inp, cfg, sides))
  {
    if sides != [] {
      SignalSound(inp, cfg, sides[..|sides| - 1]);
      ConsiderSound(inp, cfg, ConsiderAll(inp, cfg, sides[..|sides| - 1]), sides[|sides| - 1]);
    }
  }

  // ---------------------------------------------------------------- unique direction

  /** What analyze_structure guarantees about its three labels. */
  ghost predicate Coherent(st: StructureState)
  {
    && (st.bias == Bullish ==> st.lastEvent == BosBullish && st.structuralDirection == Bullish)
    && (st.bias == Bearish ==> st.lastEvent == BosBearish && st.structuralDirection == Bearish)
    && (st.lastEvent == ChochBullish ==> st.structuralDirection == Bullish)
    && (st.lastEvent == ChochBearish ==> st.structuralDirection == Bearish)
  }

  lemma AnalyzedStructureCoherent(bars: seq<Bar>, lookback: int, atr: Option<real>, multiplier: real)
    ensures Coherent(AnalyzeStructure(bars, lookback, atr, multiplier))
  {}

  ghost predicate NonNegativeWeights(cfg: ScorerConfig)
  {
    cfg.wStructure >= 0.0 && cfg.wTrend >= 0.0 && cfg.wSetup >= 0.0 &&
    cfg.wMomentum >= 0.0 && cfg.wVolatility >= 0.0 && cfg.wRegime >= 0.0
  }

  /** Most the two sides can score together: only trend strength and volatility count for both. */
  const MOST := Evidence(1.0, 1.5, 1.0, 1.0, 2.0, 1.0)

  function TotalBound(cfg: ScorerConfig): real { Weighted(MOST, cfg) }

  ghost predicate Within(a: Evidence, b: Evidence, most: Evidence)
  {
    a.structure + b.structure <= most.structure && a.trend + b.trend <= most.trend &&
    a.setup + b.setup <= most.setup && a.momentum + b.momentum <= most.momentum &&
    a.volatility + b.volatility <= most.volatility && a.regime + b.regime <= most.regime
  }

  lemma WeightedPair(a: real, b: real, w: real, most: real)
    requires w >= 0.0 && a + b <= most
    ensures a * w + b * w <= most * w
  {
    assert a * w + b * w == (a + b) * w;
    assert (most - a - b) * w >= 0.0;
  }

  lemma WeightedWithin(a: Evidence, b: Evidence, most: Evidence, cfg: ScorerConfig)
    requires Within(a, b, most) && NonNegativeWeights(cfg)
    ensures Weighted(a, cfg) + Weighted(b, cfg) <= Weighted(most, cfg)
  {
    WeightedPair(a.structure, b.structure, cfg.wStructure, most.structure);
    WeightedPair(a.trend, b.trend, cfg.wTrend, most.trend);
    WeightedPair(a.setup, b.setup, cfg.wSetup, most.setup);
    WeightedPair(a.momentum, b.momentum, cfg.wMomentum, most.momentum);
    WeightedPair(a.volatility, b.volatility, cfg.wVolatility, most.volatility);
    WeightedPair(a.regime, b.regime, cfg.wRegime, most.regime);
  }

  /** The two directions share the evidence: together they never score above the bound. */
  lemma DirectionsShareEvidence(st: StructureState, reg: RegimeContext, setup: Setup, cfg: ScorerConfig)
    requires Coherent(st) && NonNegativeWeights(cfg)
    ensures Confidence(Buy, st, reg, setup, cfg) + Confidence(Sell, st, reg, setup, cfg) <= TotalBound(cfg)
  {
    var a, b := EvidenceFor(Buy, st, reg, setup), EvidenceFor(Sell, st, reg, setup);
    assert Within(a, b, MOST);
    WeightedWithin(a, b, MOST, cfg);
  }

  /**
   * Above half the bound at most one direction qualifies, so the order in which the loop tries them
   * cannot matter.
   */
  lemma UniqueDirection(inp: Inputs, cfg: ScorerConfig)
    requires Coherent(inp.structure) && NonNegativeWeights(cfg)
    requires 2.0 * cfg.minConfidence > TotalBound(cfg)
    ensures !(SideConfidence(inp, cfg, Buy) >= cfg.minConfidence && SideConfidence(inp, cfg, Sell) >= cfg.minConfidence)
    ensures EvaluateIn(inp, cfg, [Buy, Sell]) == EvaluateIn(inp, cfg, [Sell, Buy])
  {
    DirectionsShareEvidence(inp.structure, inp.regime, inp.setup, cfg);
    var s := ConsiderAll(inp, cfg, []);
    assert [Buy, Sell][..1] == [Buy] && [Sell, Buy][..1] == [Sell] && [Buy][..0] == [] && [Sell][..0] == [];
    assert ConsiderAll(inp, cfg, [Buy]) == Consider(inp, cfg, s, Buy);
    assert ConsiderAll(inp, cfg, [Sell]) == Consider(inp, cfg, s, Sell);
  }

  /** The shipped weights and threshold qualify. */
  lemma DefaultsHaveUniqueDirection()
    ensures NonNegativeWeights(DEFAULT_SCORER) && 2.0 * DEFAULT_SCORER.minConfidence > TotalBound(DEFAULT_SCORER)
  {}
}

/** The analytical pipeline: closed bars and a tick in, at most one proposed signal out. */
module SignalPipeline {
  import opened Prelude
  import opened MarketData
  import opened Indicators
  import opened Regime
  import opened Structure
  import opened Scoring

  datatype PipelineConfig = PipelineConfig(
    configured: bool, swingLookback: int, minBosMultiplier: real, minDisplacementAtr: real,
    regime: RegimeConfig, scorer: ScorerConfig)

  function DetectSetup(bars: seq<Bar>, st: StructureState, atr: Option<real>, minDisplacement: real): Setup
  {
    if |bars| < 2 then NoSetup
    else
      var last, prev := bars[|bars| - 1], bars[|bars| - 2];
      var gap := Displacement(atr, minDisplacement);
      var high, low := st.recentSwingHigh, st.recentSwingLow;
      if high.Some? && last.close > high.value + gap && prev.close <= high.value then LongBreakout
      else if low.Some? && last.close < low.value - gap && prev.close >= low.value then ShortBreakout
      else if high.Some? && last.high > high.value && last.close < high.value then ShortFakeoutReversal
      else if low.Some? && last.low < low.value && last.close > low.value then LongFakeoutReversal
      else if st.bias != Neutral then Continuation
      else NoSetup
  }

  function InputsFor(tick: Tick, bars: seq<Bar>, news: string, cfg: PipelineConfig): Inputs
  {
    var atr := Atr(bars, cfg.regime.atrPeriod);
    var st := AnalyzeStructure(bars, cfg.swingLookback, atr, cfg.minBosMultiplier);
    Inputs(tick, st, ClassifyRegime(bars, cfg.regime), news, DetectSetup(bars, st, atr, cfg.minDisplacementAtr))
  }

  /** `stale` is the verdict of the wall clock on the tick. */
  function Process(tick: Tick, bars: seq<Bar>, news: string, stale: bool, cfg: PipelineConfig): Signal
  {
    if bars == [] || (exists i :: 0 <= i < |bars| && !bars[i].isClosed) || !cfg.configured || stale then NoSignal
    else EvaluateIn(InputsFor(tick, bars, news, cfg), cfg.scorer, SIDES)
  }

  /**
   * From any bars and any tick, a proposed signal enters at the touch with stop and target on
   * opposite sides, and it is the only direction the evidence supports when the threshold is high enough.
   */
  lemma ProposalsSound(tick: Tick, bars: seq<Bar>, news: string, stale: bool, cfg: PipelineConfig)
    requires cfg.scorer.minSlAtr > 0.0 && cfg.scorer.rr > 0.0
    requires Process(tick, bars, news, stale, cfg).Signal?
    ensures var signal, inp := Process(tick, bars, news, stale, cfg), InputsFor(tick, bars, news, cfg);
            && Sound(signal, tick, cfg.scorer, EffectiveAtr(inp.regime))
            && inp.regime.PermitsNewEntry()
            && (NonNegativeWeights(cfg.scorer) && 2.0 * cfg.scorer.minConfidence > TotalBound(cfg.scorer) ==>
                  SideConfidence(inp, cfg.scorer, if signal.side == Buy then Sell else Buy) < cfg.scorer.minConfidence)
  {
    var inp := InputsFor(tick, bars, news, cfg);
    SignalSound(inp, cfg.scorer, SIDES);
    AnalyzedStructureCoherent(bars, cfg.swingLookback, Atr(bars, cfg.regime.atrPeriod), cfg.minBosMultiplier);
    if NonNegativeWeights(cfg.scorer) && 2.0 * cfg.scorer.minConfidence > TotalBound(cfg.scorer) {
      UniqueDirection(inp, cfg.scorer);
    }
  }
}

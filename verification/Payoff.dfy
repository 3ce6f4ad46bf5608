/** What a backtest trade of the pipeline earns at its target and loses at its stop, to the cent. */
module Payoff {
  import opened Prelude
  import opened MarketData
  import opened BarBuilding
  import opened Scoring
  import opened SignalPipeline
  import opened Ledger
  import opened LedgerTheorems
  import opened LossBound
  import opened Backtest

  /** Stop and target on opposite sides of the price that was sized, the target rr times as far. */
  ghost predicate SoundTrade(cfg: BacktestConfig, rr: real, t: Trade)
  {
    t.stopLoss.Some? && t.takeProfit.Some? &&
    SoundLevels(t.side, SizedAt(cfg, t), t.stopLoss.value, t.takeProfit.value, 0.0, rr)
  }

  ghost predicate SoundCandidate(c: Candidate, tick: Tick, rr: real)
  {
    c.Candidate? ==>
      c.stopLoss.Some? && c.takeProfit.Some? &&
      SoundLevels(c.side, Entry(c.side, tick), c.stopLoss.value, c.takeProfit.value, 0.0, rr)
  }

  lemma EntrySound(cfg: BacktestConfig, rr: real, i: nat, tick: Tick, c: Candidate, lots: real)
    requires c.Candidate? && SoundCandidate(c, tick, rr)
    ensures SoundTrade(cfg, rr, EntryTrade(cfg, i, tick, c, lots))
  {
    assert SizedAt(cfg, EntryTrade(cfg, i, tick, c, lots)) == Entry(c.side, tick);
  }

  ghost predicate AllSound(cfg: BacktestConfig, rr: real, ts: seq<Trade>)
  {
    forall k :: 0 <= k < |ts| ==> SoundTrade(cfg, rr, ts[k])
  }

  lemma StepSound(cfg: BacktestConfig, rr: real, l: Ledger, i: nat, tick: Tick, r: Reply)
    requires AllSound(cfg, rr, l.entered) && SoundCandidate(r.candidate, tick, rr)
    ensures AllSound(cfg, rr, StepTick(cfg, l, i, tick, r).entered)
  {
    var marked := Mark(cfg, Settle(cfg, l, tick), tick);
    if Enters(cfg, marked, tick, r) {
      EntrySound(cfg, rr, i, tick, r.candidate, DecisionFor(cfg, marked, tick, r).lots.value);
    }
  }

  lemma EveryEntrySound(cfg: BacktestConfig, rr: real, ticks: seq<Tick>, replies: seq<Reply>, n: nat)
    requires n <= |ticks| == |replies|
    requires forall i :: 0 <= i < |ticks| ==> SoundCandidate(replies[i].candidate, ticks[i], rr)
    ensures AllSound(cfg, rr, RunTo(cfg, ticks, replies, n).entered)
  {
    var p := (l: Ledger, i: nat) => AllSound(cfg, rr, l.entered);
    forall l: Ledger, i: nat | i < |ticks| && p(l, i)
      ensures p(StepTick(cfg, l, i, ticks[i], replies[i]), i + 1)
    {
      StepSound(cfg, rr, l, i, ticks[i], replies[i]);
    }
    RunInduction(cfg, ticks, replies, n, p);
  }

  // ---------------------------------------------------------------- the two payoffs

  /** Money between the price that was sized and the stop. */
  function RiskMoney(cfg: BacktestConfig, t: Trade): real
    requires t.stopLoss.Some?
  {
    Abs(SizedAt(cfg, t) - t.stopLoss.value) * (cfg.contractSize * t.lots)
  }

  /** A fill is the sized price plus slippage against the trade. */
  lemma DifferenceFromSized(cfg: BacktestConfig, t: Trade, price: real)
    ensures Difference(t, price) ==
            (if t.side == Buy then price - SizedAt(cfg, t) else SizedAt(cfg, t) - price) - cfg.Slippage()
  {}

  lemma PayoffArithmetic(move: real, slip: real, size: real, lots: real)
    ensures (move - slip) * size * lots == move * (size * lots) - slip * size * lots
  {
    assert (move - slip) * size * lots == (move - slip) * (size * lots);
    assert slip * size * lots == slip * (size * lots);
  }

  lemma StopPayoff(cfg: BacktestConfig, rr: real, t: Trade, time: int)
    requires SoundTrade(cfg, rr, t)
    ensures Realise(cfg, t, Exit(time, t.stopLoss.value, SlHit)).pnl == -RiskMoney(cfg, t) - Costs(cfg, t)
  {
    var risk := Abs(SizedAt(cfg, t) - t.stopLoss.value);
    DifferenceFromSized(cfg, t, t.stopLoss.value);
    assert Difference(t, t.stopLoss.value) == -risk - cfg.Slippage();
    PayoffArithmetic(-risk, cfg.Slippage(), cfg.contractSize, t.lots);
    assert (-risk) * (cfg.contractSize * t.lots) == -(risk * (cfg.contractSize * t.lots));
  }

  lemma TargetPayoff(cfg: BacktestConfig, rr: real, t: Trade, time: int)
    requires SoundTrade(cfg, rr, t)
    ensures Realise(cfg, t, Exit(time, t.takeProfit.value, TpHit)).pnl == rr * RiskMoney(cfg, t) - Costs(cfg, t)
  {
    var risk, scale := Abs(SizedAt(cfg, t) - t.stopLoss.value), cfg.contractSize * t.lots;
    DifferenceFromSized(cfg, t, t.takeProfit.value);
    assert Difference(t, t.takeProfit.value) == rr * risk - cfg.Slippage();
    PayoffArithmetic(rr * risk, cfg.Slippage(), cfg.contractSize, t.lots);
    assert (rr * risk) * scale == rr * (risk * scale);
  }

  /** The payoff of a trade that left at one of its levels. */
  ghost predicate PaysOff(cfg: BacktestConfig, rr: real, t: Trade)
  {
    t.stopLoss.Some? && t.exit.Some? &&
    match t.exit.value.reason
    case SlHit => t.pnl == -RiskMoney(cfg, t) - Costs(cfg, t)
    case TpHit => t.pnl == rr * RiskMoney(cfg, t) - Costs(cfg, t)
    case EndOfData => true
  }

  /** The level a touched trade leaves at. */
  lemma ExitLevel(t: Trade, tick: Tick)
    requires Touch(t, tick).Some?
    ensures Touch(t, tick).value.1 == SlHit ==> t.stopLoss == Some(Touch(t, tick).value.0)
    ensures Touch(t, tick).value.1 == TpHit ==> t.takeProfit == Some(Touch(t, tick).value.0)
    ensures Touch(t, tick).value.1 != EndOfData
  {}

  lemma TouchedPaysOff(cfg: BacktestConfig, rr: real, e: Trade, tick: Tick)
    requires SoundTrade(cfg, rr, e) && Touch(e, tick).Some?
    ensures PaysOff(cfg, rr, Realise(cfg, e, Exit(tick.time, Touch(e, tick).value.0, Touch(e, tick).value.1)))
  {
    ExitLevel(e, tick);
    StopPayoff(cfg, rr, e, tick.time);
    TargetPayoff(cfg, rr, e, tick.time);
  }

  lemma OutcomePaysOff(cfg: BacktestConfig, ticks: seq<Tick>, rr: real, e: Trade)
    requires ticks != [] && SoundTrade(cfg, rr, e)
    ensures PaysOff(cfg, rr, Outcome(cfg, ticks, e))
  {
    var k := Death(ticks, e);
    if k < |ticks| && Touch(e, ticks[k]).Some? {
      TouchedPaysOff(cfg, rr, e, ticks[k]);
    }
  }

  lemma CompletedPaysOff(cfg: BacktestConfig, ticks: seq<Tick>, rr: real, l: Ledger, t: Trade)
    requires ticks != [] && AllSound(cfg, rr, l.entered) && t in l.completed
    requires multiset(l.completed) == multiset(Outcomes(cfg, ticks, l.entered))
    ensures PaysOff(cfg, rr, t)
  {
    assert t in multiset(l.completed);
    var k := OutcomeOf(cfg, ticks, l.entered, t);
    OutcomePaysOff(cfg, ticks, rr, l.entered[k]);
  }

  lemma SignalCandidateSound(signal: Signal, tick: Tick, cfg: ScorerConfig, atr: real)
    requires signal.Signal? && Sound(signal, tick, cfg, atr)
    ensures SoundCandidate(CandidateOf(signal), tick, cfg.rr)
  {}

  lemma ProposalCandidateSound(tick: Tick, bars: seq<Bar>, stale: bool, pipeline: PipelineConfig)
    requires pipeline.scorer.minSlAtr > 0.0 && pipeline.scorer.rr > 0.0
    ensures SoundCandidate(CandidateOf(Process(tick, bars, "CLEAR", stale, pipeline)), tick, pipeline.scorer.rr)
  {
    var signal := Process(tick, bars, "CLEAR", stale, pipeline);
    if signal.Signal? {
      ProposalsSound(tick, bars, "CLEAR", stale, pipeline);
      SignalCandidateSound(signal, tick, pipeline.scorer, EffectiveAtr(InputsFor(tick, bars, "CLEAR", pipeline).regime));
    }
  }

  lemma CandidatesSound(s: Series, pipeline: PipelineConfig, b0: Builder, ticks: seq<Tick>, clocks: seq<Clock>, i: nat)
    requires s.interval > 0 && i < |ticks| == |clocks| && pipeline.scorer.minSlAtr > 0.0 && pipeline.scorer.rr > 0.0
    ensures SoundCandidate(ReplyAt(s, PipelineBrain(pipeline), b0, ticks, clocks, i).candidate, ticks[i], pipeline.scorer.rr)
  {
    ProposalCandidateSound(ticks[i], BarsClosed(s, b0, ticks, i + 1), clocks[i].staleForBrain, pipeline);
  }

  /**
   * From ticks to payoffs: whatever the ticks and the clock, every trade of the pipeline that leaves at
   * its target earns exactly the reward-to-risk ratio times the money it had at risk, and every one
   * that leaves at its stop loses exactly that money, each less slippage and commission.
   */
  lemma PayoffsEndToEnd(cfg: BacktestConfig, pipeline: PipelineConfig, b0: Builder, ticks: seq<Tick>,
                        clocks: seq<Clock>, l: Ledger, t: Trade)
    requires cfg.series.interval > 0 && ticks != [] && |ticks| == |clocks|
    requires pipeline.scorer.minSlAtr > 0.0 && pipeline.scorer.rr > 0.0
    requires l == RunAll(cfg, ticks, Replies(cfg.series, PipelineBrain(pipeline), b0, ticks, clocks)) && t in l.completed
    ensures PaysOff(cfg, pipeline.scorer.rr, t)
  {
    var replies, rr := Replies(cfg.series, PipelineBrain(pipeline), b0, ticks, clocks), pipeline.scorer.rr;
    forall i | 0 <= i < |ticks|
      ensures SoundCandidate(replies[i].candidate, ticks[i], rr)
    {
      CandidatesSound(cfg.series, pipeline, b0, ticks, clocks, i);
    }
    EveryEntrySound(cfg, rr, ticks, replies, |ticks|);
    EveryTradeLivesItsOwnLife(cfg, ticks, replies);
    CompletedPaysOff(cfg, ticks, rr, l, t);
  }
}

/**
 * A whole backtest in the reflected market: the same money, with the sides of all trades exchanged.
 * A run of the even-handed pipeline on the ticks turned upside down books the same balance, curve and results.
 */
module BacktestMirror {
  import opened Prelude
  import opened MarketData
  import opened BarBuilding
  import opened Scoring
  import opened SignalPipeline
  import opened Mirror
  import opened SignalMirror
  import opened Sizing
  import opened RiskEngine
  import opened Ledger
  import opened LedgerTheorems
  import opened Backtest

  function ReflectTicks(c: real, ticks: seq<Tick>): seq<Tick>
  {
    seq(|ticks|, i requires 0 <= i < |ticks| => ReflectTick(c, ticks[i]))
  }

  function ReflectExit(c: real, e: Exit): Exit { e.(price := c - e.price) }

  function ReflectTrade(c: real, t: Trade): Trade
  {
    t.(side := OtherSide(t.side), entryPrice := c - t.entryPrice, stopLoss := ReflectLevel(c, t.stopLoss),
       takeProfit := ReflectLevel(c, t.takeProfit),
       exit := if t.exit.Some? then Some(ReflectExit(c, t.exit.value)) else None)
  }

  function ReflectTrades(c: real, ts: seq<Trade>): seq<Trade>
  {
    seq(|ts|, i requires 0 <= i < |ts| => ReflectTrade(c, ts[i]))
  }

  /** The same money, the trades reflected. */
  function ReflectLedger(c: real, l: Ledger): Ledger
  {
    l.(open := ReflectTrades(c, l.open), completed := ReflectTrades(c, l.completed),
       entered := ReflectTrades(c, l.entered))
  }

  function ReflectCandidate(c: real, k: Candidate): Candidate
  {
    match k
    case NoCandidate => k
    case Candidate(side, stop, target, entry) =>
      Candidate(OtherSide(side), ReflectLevel(c, stop), ReflectLevel(c, target), ReflectLevel(c, entry))
  }

  function ReflectReply(c: real, r: Reply): Reply { r.(candidate := ReflectCandidate(c, r.candidate)) }

  function ReflectReplies(c: real, rs: seq<Reply>): seq<Reply>
  {
    seq(|rs|, i requires 0 <= i < |rs| => ReflectReply(c, rs[i]))
  }

  lemma TradesConcat(c: real, a: seq<Trade>, b: seq<Trade>)
    ensures ReflectTrades(c, a + b) == ReflectTrades(c, a) + ReflectTrades(c, b)
  {}

  lemma TradesFront(c: real, ts: seq<Trade>)
    requires ts != []
    ensures ReflectTrades(c, ts)[..|ts| - 1] == ReflectTrades(c, ts[..|ts| - 1])
    ensures ReflectTrades(c, ts)[|ts| - 1] == ReflectTrade(c, ts[|ts| - 1])
  {}

  // ---------------------------------------------------------------- one trade

  function ReflectTouch(c: real, hit: Option<(real, ExitReason)>): Option<(real, ExitReason)>
  {
    match hit case None => None case Some((price, reason)) => Some((c - price, reason))
  }

  lemma TouchReflected(c: real, t: Trade, tick: Tick)
    ensures Touch(ReflectTrade(c, t), ReflectTick(c, tick)) == ReflectTouch(c, Touch(t, tick))
  {}

  lemma GrossReflected(cfg: BacktestConfig, c: real, t: Trade, price: real)
    ensures GrossPnl(cfg, ReflectTrade(c, t), c - price) == GrossPnl(cfg, t, price)
  {
    assert Difference(ReflectTrade(c, t), c - price) == Difference(t, price);
  }

  lemma RealiseReflected(cfg: BacktestConfig, c: real, t: Trade, e: Exit)
    ensures Realise(cfg, ReflectTrade(c, t), ReflectExit(c, e)) == ReflectTrade(c, Realise(cfg, t, e))
  {
    GrossReflected(cfg, c, t, e.price);
  }

  lemma MarkPriceReflected(c: real, t: Trade, tick: Tick)
    ensures MarkPrice(ReflectTrade(c, t), ReflectTick(c, tick)) == c - MarkPrice(t, tick)
  {}

  // ---------------------------------------------------------------- all open trades

  lemma {:induction false} SurvivorsReflected(c: real, open: seq<Trade>, tick: Tick)
    ensures Survivors(ReflectTrades(c, open), ReflectTick(c, tick)) == ReflectTrades(c, Survivors(open, tick))
  {
    if open != [] {
      var front, t := open[..|open| - 1], open[|open| - 1];
      SurvivorsReflected(c, front, tick);
      TradesFront(c, open);
      TouchReflected(c, t, tick);
      TradesConcat(c, Survivors(front, tick), if Touch(t, tick).None? then [t] else []);
    }
  }

  lemma ExitPartReflected(cfg: BacktestConfig, c: real, t: Trade, tick: Tick)
    ensures ExitPart(cfg, ReflectTrade(c, t), ReflectTick(c, tick)) == ReflectTrades(c, ExitPart(cfg, t, tick))
  {
    TouchReflected(c, t, tick);
    match Touch(t, tick)
    case None =>
    case Some((price, reason)) => RealiseReflected(cfg, c, t, Exit(tick.time, price, reason));
  }

  lemma {:induction false} ExitsReflected(cfg: BacktestConfig, c: real, open: seq<Trade>, tick: Tick)
    ensures Exits(cfg, ReflectTrades(c, open), ReflectTick(c, tick)) == ReflectTrades(c, Exits(cfg, open, tick))
  {
    if open != [] {
      var front, t := open[..|open| - 1], open[|open| - 1];
      ExitsReflected(cfg, c, front, tick);
      TradesFront(c, open);
      ExitPartReflected(cfg, c, t, tick);
      TradesConcat(c, Exits(cfg, front, tick), ExitPart(cfg, t, tick));
    }
  }

  lemma {:induction false} FloatingReflected(cfg: BacktestConfig, c: real, open: seq<Trade>, tick: Tick)
    ensures Floating(cfg, ReflectTrades(c, open), ReflectTick(c, tick)) == Floating(cfg, open, tick)
  {
    if open != [] {
      var t := open[|open| - 1];
      FloatingReflected(cfg, c, open[..|open| - 1], tick);
      TradesFront(c, open);
      MarkPriceReflected(c, t, tick);
      GrossReflected(cfg, c, t, MarkPrice(t, tick));
    }
  }

  lemma {:induction false} SumsReflected(c: real, ts: seq<Trade>)
    ensures PnlSum(ReflectTrades(c, ts)) == PnlSum(ts) && LotsSum(ReflectTrades(c, ts)) == LotsSum(ts)
  {
    if ts != [] {
      SumsReflected(c, ts[..|ts| - 1]);
      TradesFront(c, ts);
    }
  }

  lemma {:induction false} CloseAllReflected(cfg: BacktestConfig, c: real, open: seq<Trade>, last: Tick)
    ensures CloseAll(cfg, ReflectTrades(c, open), ReflectTick(c, last)) == ReflectTrades(c, CloseAll(cfg, open, last))
  {
    if open != [] {
      var front, t := open[..|open| - 1], open[|open| - 1];
      var exit := Exit(last.time, MarkPrice(t, last), EndOfData);
      CloseAllReflected(cfg, c, front, last);
      TradesFront(c, open);
      MarkPriceReflected(c, t, last);
      RealiseReflected(cfg, c, t, exit);
      TradesConcat(c, CloseAll(cfg, front, last), [Realise(cfg, t, exit)]);
    }
  }

  // ---------------------------------------------------------------- risk and entry

  lemma FlooredByDistance(policy: Policy, equity: real, entry: real, stop: real, entry': real, stop': real)
    requires policy.Percentage? && policy.Usable() && entry != stop && entry' != stop'
    requires Abs(entry' - stop') == Abs(entry - stop)
    ensures FlooredLots(policy, equity, entry', stop') == FlooredLots(policy, equity, entry, stop)
  {
    assert RiskPerLot(policy, entry', stop') == RiskPerLot(policy, entry, stop);
    assert Steps(policy, equity, entry', stop') == Steps(policy, equity, entry, stop);
  }

  lemma SizeByDistance(policy: Policy, equity: real, entry: real, stop: real, entry': real, stop': real)
    requires policy.Percentage? && policy.Usable() && entry != stop && entry' != stop'
    requires FlooredLots(policy, equity, entry', stop') == FlooredLots(policy, equity, entry, stop)
    ensures CalculateLotSize(policy, equity, Some(entry'), Some(stop')) ==
            CalculateLotSize(policy, equity, Some(entry), Some(stop))
  {}

  /** Sizing sees only the distance between entry and stop. */
  lemma SizeReflected(c: real, policy: Policy, equity: real, entry: Option<real>, stop: Option<real>)
    requires policy.Usable()
    ensures CalculateLotSize(policy, equity, ReflectLevel(c, entry), ReflectLevel(c, stop)) ==
            CalculateLotSize(policy, equity, entry, stop)
  {
    if policy.Percentage? && entry.Some? && stop.Some? && entry.value != stop.value {
      FlooredByDistance(policy, equity, entry.value, stop.value, c - entry.value, c - stop.value);
      SizeByDistance(policy, equity, entry.value, stop.value, c - entry.value, c - stop.value);
    }
  }

  lemma VerdictReflected(c: real, cfg: RiskConfig, s: Snapshot, entry: Option<real>, stop: Option<real>,
                         market: Option<Market>, news: Option<string>)
    ensures RiskEngine.Evaluate(cfg, s, Some(Levels(ReflectLevel(c, entry), ReflectLevel(c, stop))), market, news) ==
            RiskEngine.Evaluate(cfg, s, Some(Levels(entry, stop)), market, news)
  {
    if SizingPolicy(cfg).Some? {
      SizeReflected(c, SizingPolicy(cfg).value, s.equity, entry, stop);
    }
  }

  lemma SnapshotReflected(cfg: BacktestConfig, c: real, l: Ledger, tick: Tick)
    ensures SnapshotOf(cfg, ReflectLedger(c, l), ReflectTick(c, tick)) == SnapshotOf(cfg, l, tick)
  {
    FloatingReflected(cfg, c, l.open, tick);
    SumsReflected(c, l.open);
  }

  lemma DecisionReflected(cfg: BacktestConfig, c: real, l: Ledger, tick: Tick, r: Reply)
    requires r.candidate.Candidate?
    ensures DecisionFor(cfg, ReflectLedger(c, l), ReflectTick(c, tick), ReflectReply(c, r)) == DecisionFor(cfg, l, tick, r)
  {
    SnapshotReflected(cfg, c, l, tick);
    assert ReflectTick(c, tick).Spread() == tick.Spread();
    VerdictReflected(c, cfg.risk, SnapshotOf(cfg, l, tick), r.candidate.entryReference, r.candidate.stopLoss,
                     Some(Market(true, r.stalenessMs, Some(tick.Spread()))), Some("CLEAR"));
  }

  lemma EntryReflected(cfg: BacktestConfig, c: real, i: nat, tick: Tick, k: Candidate, lots: real)
    requires k.Candidate?
    ensures EntryTrade(cfg, i, ReflectTick(c, tick), ReflectCandidate(c, k), lots) ==
            ReflectTrade(c, EntryTrade(cfg, i, tick, k, lots))
  {}

  lemma EnterReflected(cfg: BacktestConfig, c: real, l: Ledger, i: nat, tick: Tick, r: Reply)
    ensures Enter(cfg, ReflectLedger(c, l), i, ReflectTick(c, tick), ReflectReply(c, r)) ==
            ReflectLedger(c, Enter(cfg, l, i, tick, r))
  {
    if r.candidate.Candidate? {
      DecisionReflected(cfg, c, l, tick, r);
      var lots := DecisionFor(cfg, l, tick, r).lots;
      if lots.Some? {
        var t := EntryTrade(cfg, i, tick, r.candidate, lots.value);
        EntryReflected(cfg, c, i, tick, r.candidate, lots.value);
        TradesConcat(c, l.open, [t]);
        TradesConcat(c, l.entered, [t]);
      }
    }
  }

  // ---------------------------------------------------------------- the ledger of a run

  lemma SettleReflected(cfg: BacktestConfig, c: real, l: Ledger, tick: Tick)
    ensures Settle(cfg, ReflectLedger(c, l), ReflectTick(c, tick)) == ReflectLedger(c, Settle(cfg, l, tick))
  {
    var done := Exits(cfg, l.open, tick);
    ExitsReflected(cfg, c, l.open, tick);
    SurvivorsReflected(c, l.open, tick);
    SumsReflected(c, done);
    TradesConcat(c, l.completed, done);
  }

  lemma MarkReflected(cfg: BacktestConfig, c: real, l: Ledger, tick: Tick)
    ensures Mark(cfg, ReflectLedger(c, l), ReflectTick(c, tick)) == ReflectLedger(c, Mark(cfg, l, tick))
  {
    FloatingReflected(cfg, c, l.open, tick);
  }

  lemma StepTickReflected(cfg: BacktestConfig, c: real, l: Ledger, i: nat, tick: Tick, r: Reply)
    ensures StepTick(cfg, ReflectLedger(c, l), i, ReflectTick(c, tick), ReflectReply(c, r)) ==
            ReflectLedger(c, StepTick(cfg, l, i, tick, r))
  {
    var settled := Settle(cfg, l, tick);
    SettleReflected(cfg, c, l, tick);
    MarkReflected(cfg, c, settled, tick);
    EnterReflected(cfg, c, Mark(cfg, settled, tick), i, tick, r);
  }

  ghost predicate Reflects(c: real, mirrored: Ledger, l: Ledger) { mirrored == ReflectLedger(c, l) }

  lemma NextReflected(cfg: BacktestConfig, c: real, l: Ledger, mirrored: Ledger, i: nat, tick: Tick, r: Reply)
    requires Reflects(c, mirrored, l)
    ensures Reflects(c, StepTick(cfg, mirrored, i, ReflectTick(c, tick), ReflectReply(c, r)), StepTick(cfg, l, i, tick, r))
  {
    StepTickReflected(cfg, c, l, i, tick, r);
  }

  /** Whatever is proposed: reflected ticks and proposals make the reflected ledger. */
  lemma {:induction false} RunReflected(cfg: BacktestConfig, c: real, ticks: seq<Tick>, replies: seq<Reply>, n: nat)
    returns (l: Ledger, l': Ledger)
    requires n <= |ticks| == |replies|
    ensures ReachedBy(cfg, ticks, replies, n, l)
    ensures ReachedBy(cfg, ReflectTicks(c, ticks), ReflectReplies(c, replies), n, l')
    ensures Reflects(c, l', l)
  {
    if n == 0 {
      l, l' := Start(cfg), Start(cfg);
    } else {
      var i, ticks', replies' := n - 1, ReflectTicks(c, ticks), ReflectReplies(c, replies);
      var before, before' := RunReflected(cfg, c, ticks, replies, i);
      ReachedNext(cfg, ticks, replies, i, before);
      ReachedNext(cfg, ticks', replies', i, before');
      NextReflected(cfg, c, before, before', i, ticks[i], replies[i]);
      l, l' := StepTick(cfg, before, i, ticks[i], replies[i]), StepTick(cfg, before', i, ticks'[i], replies'[i]);
    }
  }

  lemma FinishReflected(cfg: BacktestConfig, c: real, l: Ledger, last: Tick)
    ensures Finish(cfg, ReflectLedger(c, l), ReflectTick(c, last)) == ReflectLedger(c, Finish(cfg, l, last))
  {
    var done := CloseAll(cfg, l.open, last);
    CloseAllReflected(cfg, c, l.open, last);
    SumsReflected(c, done);
    TradesConcat(c, l.completed, done);
  }

  lemma LedgerReflected(cfg: BacktestConfig, c: real, ticks: seq<Tick>, replies: seq<Reply>)
    requires ticks != [] && |ticks| == |replies|
    ensures RunAll(cfg, ReflectTicks(c, ticks), ReflectReplies(c, replies)) ==
            ReflectLedger(c, RunAll(cfg, ticks, replies))
  {
    var l, l' := RunReflected(cfg, c, ticks, replies, |ticks|);
    assert ReflectTicks(c, ticks)[|ticks| - 1] == ReflectTick(c, ticks[|ticks| - 1]);
    FinishReflected(cfg, c, l, ticks[|ticks| - 1]);
  }

  // ---------------------------------------------------------------- the bars of a run

  function ReflectPrices(c: real, p: Ohlcv): Ohlcv { Ohlcv(c - p.open, c - p.low, c - p.high, c - p.close, p.volume) }

  function ReflectBuilder(c: real, b: Builder): Builder
  {
    Builder(if b.running.Some? then Some(b.running.value.(prices := ReflectPrices(c, b.running.value.prices))) else None,
            Reflect(c, b.closed))
  }

  lemma BarsConcat(c: real, a: seq<Bar>, b: seq<Bar>)
    ensures Reflect(c, a + b) == Reflect(c, a) + Reflect(c, b)
  {}

  lemma TickPricesReflected(c: real, p: Ohlcv, t: Tick)
    ensures Single(ReflectTick(c, t)) == ReflectPrices(c, Single(t))
    ensures Merge(ReflectPrices(c, p), Single(ReflectTick(c, t))) == ReflectPrices(c, Merge(p, Single(t)))
  {
    assert ReflectTick(c, t).Mid() == c - t.Mid();
  }

  lemma NewBarsReflected(s: Series, c: real, b: Builder, t: Tick)
    requires s.interval > 0
    ensures NewBars(s, ReflectBuilder(c, b), ReflectTick(c, t)) == Reflect(c, NewBars(s, b, t))
  {}

  lemma StepReflected(s: Series, c: real, b: Builder, t: Tick)
    requires s.interval > 0
    ensures Step(s, ReflectBuilder(c, b), ReflectTick(c, t)) == ReflectBuilder(c, Step(s, b, t))
  {
    TickPricesReflected(c, if b.running.Some? then b.running.value.prices else Single(t), t);
    NewBarsReflected(s, c, b, t);
    BarsConcat(c, b.closed, NewBars(s, b, t));
  }

  /** The builder and the bars of the run, at every moment. */
  lemma {:induction false} BarsReflected(s: Series, c: real, b: Builder, ticks: seq<Tick>, n: nat)
    requires s.interval > 0 && n <= |ticks|
    ensures Fed(s, ReflectBuilder(c, b), ReflectTicks(c, ticks), n) == ReflectBuilder(c, Fed(s, b, ticks, n))
    ensures BarsClosed(s, ReflectBuilder(c, b), ReflectTicks(c, ticks), n) == Reflect(c, BarsClosed(s, b, ticks, n))
  {
    if n > 0 {
      var before := Fed(s, b, ticks, n - 1);
      BarsReflected(s, c, b, ticks, n - 1);
      StepReflected(s, c, before, ticks[n - 1]);
      NewBarsReflected(s, c, before, ticks[n - 1]);
      BarsConcat(c, BarsClosed(s, b, ticks, n - 1), NewBars(s, before, ticks[n - 1]));
    }
  }

  // ---------------------------------------------------------------- the whole backtest

  /** At no tick that closes a bar does the pipeline see a lopsided market. */
  ghost predicate NeverLopsided(s: Series, b: Builder, ticks: seq<Tick>, pipeline: PipelineConfig)
    requires s.interval > 0
  {
    forall i :: 0 <= i < |ticks| && Crosses(s, Fed(s, b, ticks, i), ticks[i]) ==>
      !Lopsided(BarsClosed(s, b, ticks, i + 1), pipeline)
  }

  lemma CandidateReflected(c: real, s: Signal)
    ensures CandidateOf(ReflectSignal(c, s)) == ReflectCandidate(c, CandidateOf(s))
  {}

  lemma ReplyToReflected(s: Series, c: real, pipeline: PipelineConfig, b: Builder, bars: seq<Bar>, tick: Tick, clock: Clock)
    requires s.interval > 0 && EvenHanded(pipeline) && (Crosses(s, b, tick) ==> !Lopsided(bars, pipeline))
    ensures ReplyTo(s, PipelineBrain(pipeline), ReflectBuilder(c, b), Reflect(c, bars), ReflectTick(c, tick), clock) ==
            ReflectReply(c, ReplyTo(s, PipelineBrain(pipeline), b, bars, tick, clock))
  {
    if Crosses(s, b, tick) {
      ProposalReflected(c, tick, bars, "CLEAR", clock.staleForBrain, pipeline);
      CandidateReflected(c, Process(tick, bars, "CLEAR", clock.staleForBrain, pipeline));
    }
  }

  /** What the reflected market asks the brain at tick i. */
  lemma QuestionReflected(s: Series, c: real, brain: Brain, b: Builder, ticks: seq<Tick>, clocks: seq<Clock>, i: nat)
    requires s.interval > 0 && i < |ticks| == |clocks|
    ensures ReplyAt(s, brain, ReflectBuilder(c, b), ReflectTicks(c, ticks), clocks, i) ==
            ReplyTo(s, brain, ReflectBuilder(c, Fed(s, b, ticks, i)), Reflect(c, BarsClosed(s, b, ticks, i + 1)),
                    ReflectTick(c, ticks[i]), clocks[i])
  {
    BarsReflected(s, c, b, ticks, i);
    BarsReflected(s, c, b, ticks, i + 1);
  }

  lemma ReplyAtReflected(s: Series, c: real, pipeline: PipelineConfig, b: Builder, ticks: seq<Tick>, clocks: seq<Clock>,
                         i: nat)
    requires s.interval > 0 && i < |ticks| == |clocks| && EvenHanded(pipeline) && NeverLopsided(s, b, ticks, pipeline)
    ensures ReplyAt(s, PipelineBrain(pipeline), ReflectBuilder(c, b), ReflectTicks(c, ticks), clocks, i) ==
            ReflectReply(c, ReplyAt(s, PipelineBrain(pipeline), b, ticks, clocks, i))
  {
    QuestionReflected(s, c, PipelineBrain(pipeline), b, ticks, clocks, i);
    ReplyToReflected(s, c, pipeline, Fed(s, b, ticks, i), BarsClosed(s, b, ticks, i + 1), ticks[i], clocks[i]);
  }

  lemma RepliesReflected(s: Series, c: real, pipeline: PipelineConfig, b: Builder, ticks: seq<Tick>, clocks: seq<Clock>)
    requires s.interval > 0 && |ticks| == |clocks| && EvenHanded(pipeline) && NeverLopsided(s, b, ticks, pipeline)
    ensures Replies(s, PipelineBrain(pipeline), ReflectBuilder(c, b), ReflectTicks(c, ticks), clocks) ==
            ReflectReplies(c, Replies(s, PipelineBrain(pipeline), b, ticks, clocks))
  {
    var brain := PipelineBrain(pipeline);
    forall i | 0 <= i < |ticks|
      ensures ReplyAt(s, brain, ReflectBuilder(c, b), ReflectTicks(c, ticks), clocks, i) ==
              ReflectReply(c, ReplyAt(s, brain, b, ticks, clocks, i))
    {
      ReplyAtReflected(s, c, pipeline, b, ticks, clocks, i);
    }
  }

  /**
   * From ticks to money: on the market turned upside down the even-handed pipeline makes the same
   * backtest, tick for tick the same balance, equity and drawdown, with every trade on the other side
   * at reflected prices, as long as no bar closes on a lopsided market.
   */
  lemma BacktestReflected(cfg: BacktestConfig, pipeline: PipelineConfig, c: real, b: Builder, ticks: seq<Tick>,
                          clocks: seq<Clock>)
    requires cfg.series.interval > 0 && ticks != [] && |ticks| == |clocks|
    requires EvenHanded(pipeline) && NeverLopsided(cfg.series, b, ticks, pipeline)
    ensures RunAll(cfg, ReflectTicks(c, ticks),
                   Replies(cfg.series, PipelineBrain(pipeline), ReflectBuilder(c, b), ReflectTicks(c, ticks), clocks)) ==
            ReflectLedger(c, RunAll(cfg, ticks, Replies(cfg.series, PipelineBrain(pipeline), b, ticks, clocks)))
  {
    RepliesReflected(cfg.series, c, pipeline, b, ticks, clocks);
    LedgerReflected(cfg, c, ticks, Replies(cfg.series, PipelineBrain(pipeline), b, ticks, clocks));
  }

  lemma {:induction false} PnlsReflected(c: real, ts: seq<Trade>)
    ensures Pnls(ReflectTrades(c, ts)) == Pnls(ts)
  {
    if ts != [] {
      PnlsReflected(c, ts[..|ts| - 1]);
      TradesFront(c, ts);
    }
  }

  /** No figure of the report depends on which way up the market is. */
  lemma ReportReflected(cfg: BacktestConfig, c: real, l: Ledger, r: BacktestResult)
    ensures Summarises(r, cfg, ReflectLedger(c, l)) <==> Summarises(r, cfg, l)
  {
    PnlsReflected(c, l.completed);
  }
}

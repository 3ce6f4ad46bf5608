/** What a backtest report means, end to end. */
module BacktestTheorems {
  import opened Prelude
  import opened MarketData
  import opened BarBuilding
  import opened Scoring
  import opened SignalPipeline
  import opened Drawdown
  import opened Ledger
  import opened LedgerTheorems
  import opened LossBound
  import opened Statistics
  import opened Backtest

  // ---------------------------------------------------------------- the figures of the report

  lemma {:induction false} PnlsSum(ts: seq<Trade>)
    ensures Sum(Pnls(ts)) == PnlSum(ts)
  {
    if ts != [] {
      PnlsSum(ts[..|ts| - 1]);
      assert Pnls(ts)[..|ts| - 1] == Pnls(ts[..|ts| - 1]);
    }
  }

  lemma {:induction false} OutcomesLength(cfg: BacktestConfig, ticks: seq<Tick>, ts: seq<Trade>)
    requires ticks != []
    ensures |Outcomes(cfg, ticks, ts)| == |ts|
  {
    if ts != [] {
      OutcomesLength(cfg, ticks, ts[..|ts| - 1]);
    }
  }

  lemma SummaryBalances(r: BacktestResult, cfg: BacktestConfig, l: Ledger)
    requires Summarises(r, cfg, l) && l.balance == cfg.initialBalance + PnlSum(l.completed)
    ensures r.grossProfit - r.grossLoss == r.netPnl == r.finalBalance - r.initialBalance
    ensures r.winningTrades + r.losingTrades <= r.totalTrades
  {
    PnlsSum(l.completed);
    GrossDifferenceIsNet(Pnls(l.completed));
    SelectedSum(Pnls(l.completed));
  }

  /**
   * The report balances: gross profit less gross loss is the change of the balance, every trade
   * entered is counted once, and the drawdown is the worst fall of the marked equity.
   */
  lemma ReportIsConsistent(cfg: BacktestConfig, ticks: seq<Tick>, replies: seq<Reply>, r: BacktestResult)
    requires ticks != [] && |ticks| == |replies| && Summarises(r, cfg, RunAll(cfg, ticks, replies))
    ensures r.grossProfit - r.grossLoss == r.netPnl == r.finalBalance - r.initialBalance
    ensures r.winningTrades + r.losingTrades <= r.totalTrades == |RunAll(cfg, ticks, replies).entered|
    ensures IsMaxDrawdown(r.maxDrawdown, RunAll(cfg, ticks, replies).curve)
  {
    var l := RunAll(cfg, ticks, replies);
    BalanceConserved(cfg, ticks, replies);
    SummaryBalances(r, cfg, l);
    MaxDrawdownExact(cfg, ticks, replies, |ticks|);
    EveryTradeLivesItsOwnLife(cfg, ticks, replies);
    OutcomesLength(cfg, ticks, l.entered);
    assert |multiset(l.completed)| == |multiset(Outcomes(cfg, ticks, l.entered))|;
  }

  /**
   * The report has a profit factor if and only if the run has both a winning and a losing trade, so a
   * run of losses looks like one without losses; a reported factor is gross profit per gross loss.
   */
  lemma ProfitFactorReported(r: BacktestResult, cfg: BacktestConfig, l: Ledger)
    requires Summarises(r, cfg, l)
    ensures r.profitFactor.Some? <==> r.winningTrades > 0 && r.losingTrades > 0
    ensures r.profitFactor.Some? ==> r.profitFactor.value * r.grossLoss == r.grossProfit
  {
    SelectedMatter(Pnls(l.completed));
    SelectedSum(Pnls(l.completed));
    if r.grossLoss > 0.0 {
      assert (r.grossProfit / r.grossLoss) * r.grossLoss == r.grossProfit;
    }
  }

  /** The reported percentage is the largest percentage fall exactly if no fall from a lower peak exceeds it. */
  lemma ReportedPercentage(cfg: BacktestConfig, ticks: seq<Tick>, replies: seq<Reply>, r: BacktestResult)
    requires ticks != [] && |ticks| == |replies| && Summarises(r, cfg, RunAll(cfg, ticks, replies))
    requires cfg.initialBalance > 0.0
    ensures var curve := RunAll(cfg, ticks, replies).curve;
            IsMaxPct(r.maxDrawdownPct, curve) <==>
            forall j :: 0 <= j < |curve| && FromLowerPeak(curve, j) ==> PctAt(curve, j) <= r.maxDrawdownPct
  {
    RunBalanced(cfg, ticks, replies, |ticks|);
    PercentageMaximalFromPositiveStart(RunAll(cfg, ticks, replies).curve);
  }

  // ---------------------------------------------------------------- the bars the brain sees

  /** The bars closed in the run are what the builder appended to the bars it had. */
  lemma {:induction false} BarsClosedAreAppended(s: Series, b: Builder, ticks: seq<Tick>, n: nat)
    requires s.interval > 0 && n <= |ticks|
    ensures Fed(s, b, ticks, n).closed == b.closed + BarsClosed(s, b, ticks, n)
  {
    if n > 0 {
      BarsClosedAreAppended(s, b, ticks, n - 1);
    }
  }

  lemma {:induction false} FedIsRun(s: Series, ticks: seq<Tick>, n: nat)
    requires s.interval > 0 && n <= |ticks|
    ensures Fed(s, EMPTY, ticks, n) == Run(s, ticks[..n])
  {
    if n > 0 {
      FedIsRun(s, ticks, n - 1);
      assert ticks[..n][..n - 1] == ticks[..n - 1];
    }
  }

  /** A new engine shows the brain exactly the closed bars of the live aggregator on the ticks so far. */
  lemma BrainSeesLiveBars(s: Series, ticks: seq<Tick>, n: nat)
    requires s.interval > 0 && n <= |ticks|
    ensures BarsClosed(s, EMPTY, ticks, n) == Run(s, ticks[..n]).closed
  {
    FedIsRun(s, ticks, n);
    BarsClosedAreAppended(s, EMPTY, ticks, n);
  }

  // ---------------------------------------------------------------- no lookahead

  ghost predicate AgreeTo(a: seq<Tick>, b: seq<Tick>, c: seq<Clock>, d: seq<Clock>, n: nat)
  {
    n <= |a| == |c| && n <= |b| == |d| && a[..n] == b[..n] && c[..n] == d[..n]
  }

  lemma AgreeAt(a: seq<Tick>, b: seq<Tick>, c: seq<Clock>, d: seq<Clock>, n: nat)
    requires AgreeTo(a, b, c, d, n) && n > 0
    ensures AgreeTo(a, b, c, d, n - 1) && a[n - 1] == b[n - 1] && c[n - 1] == d[n - 1]
  {
    assert a[..n][n - 1] == b[..n][n - 1] && c[..n][n - 1] == d[..n][n - 1];
    assert a[..n][..n - 1] == a[..n - 1] && b[..n][..n - 1] == b[..n - 1];
    assert c[..n][..n - 1] == c[..n - 1] && d[..n][..n - 1] == d[..n - 1];
  }

  lemma {:induction false} SameFeed(s: Series, b0: Builder, a: seq<Tick>, b: seq<Tick>, c: seq<Clock>, d: seq<Clock>, n: nat)
    requires s.interval > 0 && AgreeTo(a, b, c, d, n)
    ensures Fed(s, b0, a, n) == Fed(s, b0, b, n) && BarsClosed(s, b0, a, n) == BarsClosed(s, b0, b, n)
  {
    if n > 0 {
      AgreeAt(a, b, c, d, n);
      SameFeed(s, b0, a, b, c, d, n - 1);
    }
  }

  lemma SameReply(s: Series, brain: Brain, b0: Builder, a: seq<Tick>, b: seq<Tick>, c: seq<Clock>, d: seq<Clock>, n: nat)
    requires s.interval > 0 && AgreeTo(a, b, c, d, n) && n > 0
    ensures ReplyAt(s, brain, b0, a, c, n - 1) == ReplyAt(s, brain, b0, b, d, n - 1)
  {
    SameFeed(s, b0, a, b, c, d, n);
    AgreeAt(a, b, c, d, n);
    SameFeed(s, b0, a, b, c, d, n - 1);
  }

  /**
   * No lookahead: the ledger after n ticks, entries and their sizes included, is decided by the
   * first n ticks, whatever comes later.
   */
  lemma {:induction false} NoLookahead(cfg: BacktestConfig, brain: Brain, b0: Builder, a: seq<Tick>, b: seq<Tick>,
                                       c: seq<Clock>, d: seq<Clock>, n: nat)
    requires cfg.series.interval > 0 && AgreeTo(a, b, c, d, n)
    ensures RunTo(cfg, a, Replies(cfg.series, brain, b0, a, c), n) == RunTo(cfg, b, Replies(cfg.series, brain, b0, b, d), n)
  {
    if n > 0 {
      AgreeAt(a, b, c, d, n);
      NoLookahead(cfg, brain, b0, a, b, c, d, n - 1);
      SameReply(cfg.series, brain, b0, a, b, c, d, n);
    }
  }

  // ---------------------------------------------------------------- from the brain to the loss

  lemma {:induction false} ReferenceIsTouch(inp: Inputs, cfg: ScorerConfig, sides: seq<Side>)
    ensures var signal := ConsiderAll(inp, cfg, sides).0;
            signal.Signal? ==> signal.entryReference == Entry(signal.side, inp.tick)
  {
    if sides != [] {
      ReferenceIsTouch(inp, cfg, sides[..|sides| - 1]);
    }
  }

  lemma PipelineProposesAtTouch(tick: Tick, bars: seq<Bar>, news: string, stale: bool, cfg: PipelineConfig)
    ensures AtTouch(CandidateOf(Process(tick, bars, news, stale, cfg)), tick)
  {
    ReferenceIsTouch(InputsFor(tick, bars, news, cfg), cfg.scorer, SIDES);
  }

  lemma RepliesAtTouch(s: Series, pipeline: PipelineConfig, b0: Builder, ticks: seq<Tick>, clocks: seq<Clock>)
    requires s.interval > 0 && |ticks| == |clocks|
    ensures var replies := Replies(s, PipelineBrain(pipeline), b0, ticks, clocks);
            forall i :: 0 <= i < |ticks| ==> AtTouch(replies[i].candidate, ticks[i])
  {
    forall i | 0 <= i < |ticks|
      ensures AtTouch(Replies(s, PipelineBrain(pipeline), b0, ticks, clocks)[i].candidate, ticks[i])
    {
      PipelineProposesAtTouch(ticks[i], BarsClosed(s, b0, ticks, i + 1), "CLEAR", clocks[i].staleForBrain, pipeline);
    }
  }

  /** Budget, slippage and commission of a trade, for the contract size that sizing assumes. */
  function AtMostLost(cfg: BacktestConfig, equity: real, t: Trade): real
    requires cfg.risk.riskPerTradePct.Some?
  {
    equity * cfg.risk.riskPerTradePct.value + Costs(cfg, t)
  }

  lemma LimitAtHundred(cfg: BacktestConfig, equity: real, t: Trade, loss: real)
    requires cfg.risk.riskPerTradePct.Some? && cfg.contractSize == 100.0 && loss <= LossLimit(cfg, equity, t)
    ensures loss <= AtMostLost(cfg, equity, t)
  {
    Unscaled(loss, equity * cfg.risk.riskPerTradePct.value, cfg.contractSize / 100.0, Costs(cfg, t));
  }

  lemma Unscaled(loss: real, budget: real, scale: real, costs: real)
    requires scale == 1.0 && loss <= budget * scale + costs
    ensures loss <= budget + costs
  {}

  /**
   * End to end, from ticks to money: whatever the ticks and the clock, a trade proposed by the
   * pipeline and stopped out loses at most the configured share of the equity at its entry, plus
   * slippage and commission, when the contract size is the 100 that sizing assumes.
   */
  lemma StoppedLossEndToEnd(cfg: BacktestConfig, pipeline: PipelineConfig, b0: Builder, ticks: seq<Tick>,
                            clocks: seq<Clock>, l: Ledger, t: Trade)
    requires cfg.series.interval > 0 && ticks != [] && |ticks| == |clocks|
    requires PercentageSized(cfg.risk) && cfg.contractSize == 100.0
    requires l == RunAll(cfg, ticks, Replies(cfg.series, PipelineBrain(pipeline), b0, ticks, clocks))
    requires t in l.completed && t.exit.Some? && t.exit.value.reason == SlHit
    ensures t.id + 1 < |l.curve| && -t.pnl <= AtMostLost(cfg, l.curve[t.id + 1], t)
  {
    RepliesAtTouch(cfg.series, pipeline, b0, ticks, clocks);
    StoppedTradesLoseAtMostTheirBudget(cfg, ticks, Replies(cfg.series, PipelineBrain(pipeline), b0, ticks, clocks), t);
    LimitAtHundred(cfg, l.curve[t.id + 1], t, -t.pnl);
  }
}

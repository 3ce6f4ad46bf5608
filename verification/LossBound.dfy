/** End to end: what a stopped-out backtest trade can lose. */
module LossBound {
  import opened Prelude
  import opened Arithmetic
  import opened MarketData
  import opened Scoring
  import opened RiskEngine
  import opened Ledger
  import opened LedgerTheorems

  /** The price that sizing saw when the trade was entered: the fill without the slippage. */
  function SizedAt(cfg: BacktestConfig, t: Trade): real
  {
    if t.side == Buy then t.entryPrice - cfg.Slippage() else t.entryPrice + cfg.Slippage()
  }

  /** If a proposal names an entry, it is the side of the book the order would fill on. */
  predicate AtTouch(c: Candidate, tick: Tick)
  {
    c.Candidate? && c.entryReference.Some? ==> c.entryReference.value == Entry(c.side, tick)
  }

  ghost predicate PercentageSized(risk: RiskConfig) { risk.riskPerTradePct.Some? && risk.defaultLots.None? }

  /** Curve point id + 1 is the marked equity of the tick that entered trade id. */
  ghost predicate Funded(cfg: BacktestConfig, curve: seq<real>, t: Trade)
    requires PercentageSized(cfg.risk)
  {
    t.id + 1 < |curve| && t.stopLoss.Some? && t.lots > 0.0 &&
    t.lots * (Abs(SizedAt(cfg, t) - t.stopLoss.value) * 100.0) <= curve[t.id + 1] * cfg.risk.riskPerTradePct.value
  }

  ghost predicate AllFunded(cfg: BacktestConfig, l: Ledger, n: nat)
    requires PercentageSized(cfg.risk)
  {
    |l.curve| == n + 1 && forall k :: 0 <= k < |l.entered| ==> Funded(cfg, l.curve, l.entered[k])
  }

  lemma EntryIsFunded(cfg: BacktestConfig, l: Ledger, i: nat, tick: Tick, r: Reply)
    requires PercentageSized(cfg.risk) && Enters(cfg, l, tick, r) && AtTouch(r.candidate, tick)
    requires |l.curve| == i + 2 && l.curve[i + 1] == SnapshotOf(cfg, l, tick).equity
    ensures Funded(cfg, l.curve, EntryTrade(cfg, i, tick, r.candidate, DecisionFor(cfg, l, tick, r).lots.value))
  {
    var c := r.candidate;
    var market, news := Some(Market(true, r.stalenessMs, Some(tick.Spread()))), Some("CLEAR");
    if c.entryReference.Some? {
      ApprovedLotsWithinBudget(cfg.risk, SnapshotOf(cfg, l, tick), c.entryReference.value, c.stopLoss, market, news);
    } else {
      ApprovalRespectsLimits(cfg.risk, SnapshotOf(cfg, l, tick), Some(LevelsOf(c)), market, news);
      assert false;
    }
  }

  lemma MarkKeepsFunded(cfg: BacktestConfig, l: Ledger, n: nat, tick: Tick)
    requires PercentageSized(cfg.risk) && AllFunded(cfg, l, n)
    ensures AllFunded(cfg, Mark(cfg, Settle(cfg, l, tick), tick), n + 1)
  {
    var marked := Mark(cfg, Settle(cfg, l, tick), tick);
    forall k | 0 <= k < |marked.entered|
      ensures Funded(cfg, marked.curve, marked.entered[k])
    {
      assert Funded(cfg, l.curve, l.entered[k]);
    }
  }

  lemma EnterKeepsFunded(cfg: BacktestConfig, l: Ledger, n: nat, tick: Tick, r: Reply)
    requires PercentageSized(cfg.risk) && AllFunded(cfg, l, n + 1) && AtTouch(r.candidate, tick)
    requires l.curve[n + 1] == SnapshotOf(cfg, l, tick).equity
    ensures AllFunded(cfg, Enter(cfg, l, n, tick, r), n + 1)
  {
    if Enters(cfg, l, tick, r) {
      EntryIsFunded(cfg, l, n, tick, r);
    }
  }

  lemma EveryEntryFunded(cfg: BacktestConfig, ticks: seq<Tick>, replies: seq<Reply>, n: nat)
    requires n <= |ticks| == |replies| && PercentageSized(cfg.risk)
    requires forall i :: 0 <= i < |ticks| ==> AtTouch(replies[i].candidate, ticks[i])
    ensures AllFunded(cfg, RunTo(cfg, ticks, replies, n), n)
  {
    var p := (l: Ledger, i: nat) => AllFunded(cfg, l, i);
    forall l: Ledger, i: nat | i < |ticks| && p(l, i)
      ensures p(StepTick(cfg, l, i, ticks[i], replies[i]), i + 1)
    {
      MarkKeepsFunded(cfg, l, i, ticks[i]);
      EnterKeepsFunded(cfg, Mark(cfg, Settle(cfg, l, ticks[i]), ticks[i]), i, ticks[i], replies[i]);
    }
    RunInduction(cfg, ticks, replies, n, p);
  }

  // ---------------------------------------------------------------- the loss of one stopped trade

  lemma StopLossArithmetic(distance: real, moved: real, slip: real, lots: real, size: real, budget: real)
    requires moved <= distance + slip && lots >= 0.0 && size >= 0.0
    requires lots * (distance * 100.0) <= budget
    ensures moved * size * lots <= budget * (size / 100.0) + slip * size * lots
  {
    var scale := size * lots;
    ProductNonNegative(size, lots);
    TimesMonotone(moved, distance + slip, scale);
    TimesMonotone(lots * (distance * 100.0), budget, size / 100.0);
    assert (lots * (distance * 100.0)) * (size / 100.0) == distance * scale;
    assert moved * size * lots == moved * scale;
    assert (distance + slip) * scale == distance * scale + slip * size * lots;
  }

  /** Slippage of the fill and commission of both legs. */
  function Costs(cfg: BacktestConfig, t: Trade): real
  {
    cfg.Slippage() * cfg.contractSize * t.lots + t.commission
  }

  function LossLimit(cfg: BacktestConfig, equity: real, t: Trade): real
    requires cfg.risk.riskPerTradePct.Some?
  {
    equity * cfg.risk.riskPerTradePct.value * (cfg.contractSize / 100.0) + Costs(cfg, t)
  }

  lemma StoppedLoss(cfg: BacktestConfig, curve: seq<real>, t: Trade, time: int)
    requires PercentageSized(cfg.risk) && Funded(cfg, curve, t) && cfg.contractSize >= 0.0
    ensures -Realise(cfg, t, Exit(time, t.stopLoss.value, SlHit)).pnl <= LossLimit(cfg, curve[t.id + 1], t)
  {
    var stop := t.stopLoss.value;
    var moved := -Difference(t, stop);
    StopLossArithmetic(Abs(SizedAt(cfg, t) - stop), moved, cfg.Slippage(), t.lots, cfg.contractSize,
                       curve[t.id + 1] * cfg.risk.riskPerTradePct.value);
    assert GrossPnl(cfg, t, stop) == -(moved * cfg.contractSize * t.lots);
  }

  lemma {:induction false} OutcomeOf(cfg: BacktestConfig, ticks: seq<Tick>, ts: seq<Trade>, t: Trade) returns (k: nat)
    requires ticks != [] && t in Outcomes(cfg, ticks, ts)
    ensures k < |ts| && t == Outcome(cfg, ticks, ts[k])
  {
    var front, last := ts[..|ts| - 1], ts[|ts| - 1];
    if t == Outcome(cfg, ticks, last) {
      k := |ts| - 1;
    } else {
      k := OutcomeOf(cfg, ticks, front, t);
    }
  }

  /** A stopped-out outcome left at its own stop. */
  lemma StoppedAtStop(cfg: BacktestConfig, ticks: seq<Tick>, t: Trade)
    requires ticks != [] && Outcome(cfg, ticks, t).exit.Some? && Outcome(cfg, ticks, t).exit.value.reason == SlHit
    ensures t.stopLoss.Some?
    ensures exists time :: Outcome(cfg, ticks, t) == Realise(cfg, t, Exit(time, t.stopLoss.value, SlHit))
  {
    var k := Death(ticks, t);
    assert k < |ticks| && Touch(t, ticks[k]).Some? && Touch(t, ticks[k]).value.1 == SlHit;
    assert Outcome(cfg, ticks, t) == Realise(cfg, t, Exit(ticks[k].time, t.stopLoss.value, SlHit));
  }

  lemma StoppedOutcomeLoss(cfg: BacktestConfig, ticks: seq<Tick>, curve: seq<real>, e: Trade)
    requires ticks != [] && PercentageSized(cfg.risk) && cfg.contractSize >= 0.0 && Funded(cfg, curve, e)
    requires Outcome(cfg, ticks, e).exit.Some? && Outcome(cfg, ticks, e).exit.value.reason == SlHit
    ensures Outcome(cfg, ticks, e).id == e.id
    ensures -Outcome(cfg, ticks, e).pnl <= LossLimit(cfg, curve[e.id + 1], Outcome(cfg, ticks, e))
  {
    StoppedAtStop(cfg, ticks, e);
    var time :| Outcome(cfg, ticks, e) == Realise(cfg, e, Exit(time, e.stopLoss.value, SlHit));
    StoppedLoss(cfg, curve, e, time);
  }

  lemma LossOfCompleted(cfg: BacktestConfig, ticks: seq<Tick>, l: Ledger, n: nat, t: Trade)
    requires ticks != [] && PercentageSized(cfg.risk) && cfg.contractSize >= 0.0 && AllFunded(cfg, l, n)
    requires multiset(l.completed) == multiset(Outcomes(cfg, ticks, l.entered))
    requires t in l.completed && t.exit.Some? && t.exit.value.reason == SlHit
    ensures t.id + 1 < |l.curve| && -t.pnl <= LossLimit(cfg, l.curve[t.id + 1], t)
  {
    assert t in multiset(l.completed);
    var k := OutcomeOf(cfg, ticks, l.entered, t);
    StoppedOutcomeLoss(cfg, ticks, l.curve, l.entered[k]);
  }

  /**
   * With percentage sizing and no fixed-lot fallback, a trade that hits its stop loses at most the
   * budgeted share of the equity at its entry (scaled by how far the contract size is from the 100
   * that sizing assumes), plus slippage and commission, whatever the ticks and approvals were.
   */
  lemma StoppedTradesLoseAtMostTheirBudget(cfg: BacktestConfig, ticks: seq<Tick>, replies: seq<Reply>, t: Trade)
    requires ticks != [] && |ticks| == |replies|
    requires PercentageSized(cfg.risk) && cfg.contractSize >= 0.0
    requires forall i :: 0 <= i < |ticks| ==> AtTouch(replies[i].candidate, ticks[i])
    requires t in RunAll(cfg, ticks, replies).completed && t.exit.Some? && t.exit.value.reason == SlHit
    ensures var curve := RunAll(cfg, ticks, replies).curve;
            t.id + 1 < |curve| && -t.pnl <= LossLimit(cfg, curve[t.id + 1], t)
  {
    EveryTradeLivesItsOwnLife(cfg, ticks, replies);
    EveryEntryFunded(cfg, ticks, replies, |ticks|);
    LossOfCompleted(cfg, ticks, RunAll(cfg, ticks, replies), |ticks|, t);
  }
}

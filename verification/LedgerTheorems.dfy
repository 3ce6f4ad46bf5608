/** What every backtest run keeps, for every tick stream and every pattern of proposals and approvals. */
module LedgerTheorems {
  import opened Prelude
  import opened MarketData
  import opened Sizing
  import opened RiskEngine
  import opened Drawdown
  import opened Ledger

  lemma {:induction false} PnlConcat(a: seq<Trade>, b: seq<Trade>)
    ensures PnlSum(a + b) == PnlSum(a) + PnlSum(b)
  {
    if b == [] {
      assert a + b == a;
    } else {
      PnlConcat(a, b[..|b| - 1]);
      assert (a + b)[..|a + b| - 1] == a + b[..|b| - 1];
    }
  }

  /** What holds at the start and survives every step holds throughout every run. */
  lemma {:induction false} RunInduction(cfg: BacktestConfig, ticks: seq<Tick>, replies: seq<Reply>, n: nat,
                                        p: (Ledger, nat) -> bool)
    requires n <= |ticks| == |replies| && p(Start(cfg), 0)
    requires forall l: Ledger, i: nat {:trigger StepTick(cfg, l, i, ticks[i], replies[i])} ::
               i < |ticks| && p(l, i) ==>
               p(StepTick(cfg, l, i, ticks[i], replies[i]), i + 1)
    ensures p(RunTo(cfg, ticks, replies, n), n)
  {
    if n > 0 {
      RunInduction(cfg, ticks, replies, n - 1, p);
    }
  }

  /** l is the ledger after n ticks. */
  ghost predicate ReachedBy(cfg: BacktestConfig, ticks: seq<Tick>, replies: seq<Reply>, n: nat, l: Ledger)
    requires n <= |ticks| == |replies|
  {
    l == RunTo(cfg, ticks, replies, n)
  }

  lemma ReachedNext(cfg: BacktestConfig, ticks: seq<Tick>, replies: seq<Reply>, n: nat, l: Ledger)
    requires n < |ticks| == |replies| && ReachedBy(cfg, ticks, replies, n, l)
    ensures ReachedBy(cfg, ticks, replies, n + 1, StepTick(cfg, l, n, ticks[n], replies[n]))
  {}

  // ---------------------------------------------------------------- money

  /** Balance, curve and tracker belong together. */
  ghost predicate Balanced(cfg: BacktestConfig, l: Ledger, n: nat)
  {
    && l.balance == cfg.initialBalance + PnlSum(l.completed)
    && |l.curve| == n + 1 && l.curve[0] == cfg.initialBalance
    && l.tracker == TrackAll(l.curve)
  }

  lemma StepBalanced(cfg: BacktestConfig, l: Ledger, n: nat, tick: Tick, r: Reply)
    requires Balanced(cfg, l, n)
    ensures Balanced(cfg, StepTick(cfg, l, n, tick, r), n + 1)
  {
    var settled := Settle(cfg, l, tick);
    PnlConcat(l.completed, Exits(cfg, l.open, tick));
    TrackAppend(settled.curve, settled.balance + Floating(cfg, settled.open, tick));
  }

  lemma RunBalanced(cfg: BacktestConfig, ticks: seq<Tick>, replies: seq<Reply>, n: nat)
    requires n <= |ticks| == |replies|
    ensures Balanced(cfg, RunTo(cfg, ticks, replies, n), n)
  {
    var p := (l: Ledger, i: nat) => Balanced(cfg, l, i);
    forall l: Ledger, i: nat | i < |ticks| && p(l, i)
      ensures p(StepTick(cfg, l, i, ticks[i], replies[i]), i + 1)
    {
      StepBalanced(cfg, l, i, ticks[i], replies[i]);
    }
    RunInduction(cfg, ticks, replies, n, p);
  }

  /** Conservation: the final balance is the initial one plus every realised result, and nothing stays open. */
  lemma BalanceConserved(cfg: BacktestConfig, ticks: seq<Tick>, replies: seq<Reply>)
    requires ticks != [] && |ticks| == |replies|
    ensures var l := RunAll(cfg, ticks, replies);
            l.open == [] && l.balance == cfg.initialBalance + PnlSum(l.completed)
  {
    var l := RunTo(cfg, ticks, replies, |ticks|);
    RunBalanced(cfg, ticks, replies, |ticks|);
    PnlConcat(l.completed, CloseAll(cfg, l.open, ticks[|ticks| - 1]));
  }

  /** The reported drawdown is the largest fall of marked equity from any earlier point, the start included. */
  lemma MaxDrawdownExact(cfg: BacktestConfig, ticks: seq<Tick>, replies: seq<Reply>, n: nat)
    requires n <= |ticks| == |replies|
    ensures var l := RunTo(cfg, ticks, replies, n);
            |l.curve| == n + 1 && l.curve[0] == cfg.initialBalance &&
            IsMaxDrawdown(l.tracker.maxDrop, l.curve) && IsMaximum(l.tracker.peak, l.curve)
  {
    RunBalanced(cfg, ticks, replies, n);
    TrackerExact(RunTo(cfg, ticks, replies, n).curve);
  }

  // ---------------------------------------------------------------- lifetimes

  /** First tick from index `from` on that touches the trade's stop or target; |ticks| if none does. */
  function FirstTouch(ticks: seq<Tick>, t: Trade, from: nat): nat
    decreases |ticks| - from
  {
    if from >= |ticks| then |ticks|
    else if Touch(t, ticks[from]).Some? then from
    else FirstTouch(ticks, t, from + 1)
  }

  lemma {:induction false} FirstTouchIsFirst(ticks: seq<Tick>, t: Trade, from: nat)
    requires from <= |ticks|
    ensures var k := FirstTouch(ticks, t, from);
            from <= k <= |ticks| && (k < |ticks| ==> Touch(t, ticks[k]).Some?)
    ensures forall j :: from <= j < FirstTouch(ticks, t, from) ==> Touch(t, ticks[j]).None?
    decreases |ticks| - from
  {
    if from < |ticks| && Touch(t, ticks[from]).None? {
      FirstTouchIsFirst(ticks, t, from + 1);
    }
  }

  function Death(ticks: seq<Tick>, t: Trade): nat { FirstTouch(ticks, t, t.id + 1) }

  /** The whole life of one trade on its own, without a ledger. */
  function Outcome(cfg: BacktestConfig, ticks: seq<Tick>, t: Trade): Trade
    requires ticks != []
  {
    var k := Death(ticks, t);
    var last := ticks[|ticks| - 1];
    if k < |ticks| && Touch(t, ticks[k]).Some? then
      Realise(cfg, t, Exit(ticks[k].time, Touch(t, ticks[k]).value.0, Touch(t, ticks[k]).value.1))
    else Realise(cfg, t, Exit(last.time, MarkPrice(t, last), EndOfData))
  }

  function Outcomes(cfg: BacktestConfig, ticks: seq<Tick>, ts: seq<Trade>): seq<Trade>
    requires ticks != []
  {
    if ts == [] then [] else Outcomes(cfg, ticks, ts[..|ts| - 1]) + [Outcome(cfg, ticks, ts[|ts| - 1])]
  }

  /** Those not yet touched before tick n. */
  function Alive(ticks: seq<Tick>, ts: seq<Trade>, n: nat): seq<Trade>
  {
    if ts == [] then []
    else
      var t := ts[|ts| - 1];
      Alive(ticks, ts[..|ts| - 1], n) + (if Death(ticks, t) >= n then [t] else [])
  }

  /** The outcomes of those touched before tick n. */
  function Dead(cfg: BacktestConfig, ticks: seq<Tick>, ts: seq<Trade>, n: nat): seq<Trade>
    requires ticks != []
  {
    if ts == [] then []
    else
      var t := ts[|ts| - 1];
      Dead(cfg, ticks, ts[..|ts| - 1], n) + (if Death(ticks, t) < n then [Outcome(cfg, ticks, t)] else [])
  }

  /** A trade that lives to tick n dies there exactly if the tick touches it. */
  lemma DiesWhenTouched(ticks: seq<Tick>, t: Trade, n: nat)
    requires t.id < n < |ticks| && Death(ticks, t) >= n
    ensures Death(ticks, t) == n <==> Touch(t, ticks[n]).Some?
  {
    FirstTouchIsFirst(ticks, t, t.id + 1);
  }

  lemma SurvivorsAppend(open: seq<Trade>, t: Trade, tick: Tick)
    ensures Survivors(open + [t], tick) == Survivors(open, tick) + (if Touch(t, tick).None? then [t] else [])
  {
    assert (open + [t])[..|open|] == open;
  }

  lemma ExitsAppend(cfg: BacktestConfig, open: seq<Trade>, t: Trade, tick: Tick)
    ensures Exits(cfg, open + [t], tick) ==
            Exits(cfg, open, tick) +
            (if Touch(t, tick).None? then []
             else [Realise(cfg, t, Exit(tick.time, Touch(t, tick).value.0, Touch(t, tick).value.1))])
  {
    assert (open + [t])[..|open|] == open;
  }

  lemma {:induction false} SurvivorsAreAlive(ticks: seq<Tick>, ts: seq<Trade>, n: nat)
    requires n < |ticks| && forall i :: 0 <= i < |ts| ==> ts[i].id < n
    ensures Survivors(Alive(ticks, ts, n), ticks[n]) == Alive(ticks, ts, n + 1)
  {
    if ts != [] {
      var front, t := ts[..|ts| - 1], ts[|ts| - 1];
      SurvivorsAreAlive(ticks, front, n);
      if Death(ticks, t) >= n {
        DiesWhenTouched(ticks, t, n);
        SurvivorsAppend(Alive(ticks, front, n), t, ticks[n]);
      } else {
        assert Alive(ticks, front, n) + [] == Alive(ticks, front, n);
      }
    }
  }

  lemma JoinMultisets(a: seq<Trade>, a': seq<Trade>, b: seq<Trade>, b': seq<Trade>, c: seq<Trade>, c': seq<Trade>)
    requires multiset(a) + multiset(b) == multiset(c) && multiset(a') + multiset(b') == multiset(c')
    ensures multiset(a + a') + multiset(b + b') == multiset(c + c')
  {}

  /** What tick n does to one trade, as one-element lists. */
  function DeadPart(cfg: BacktestConfig, ticks: seq<Tick>, t: Trade, n: nat): seq<Trade>
    requires ticks != []
  {
    if Death(ticks, t) < n then [Outcome(cfg, ticks, t)] else []
  }

  function ExitPart(cfg: BacktestConfig, t: Trade, tick: Tick): seq<Trade>
  {
    if Touch(t, tick).None? then []
    else [Realise(cfg, t, Exit(tick.time, Touch(t, tick).value.0, Touch(t, tick).value.1))]
  }

  /** What tick n does to one entered trade: an exit if it is still alive. */
  function AliveExitPart(cfg: BacktestConfig, ticks: seq<Tick>, t: Trade, n: nat): seq<Trade>
    requires n < |ticks|
  {
    if Death(ticks, t) >= n then ExitPart(cfg, t, ticks[n]) else []
  }

  lemma OneTradeDies(cfg: BacktestConfig, ticks: seq<Tick>, t: Trade, n: nat)
    requires t.id < n < |ticks|
    ensures multiset(DeadPart(cfg, ticks, t, n)) + multiset(AliveExitPart(cfg, ticks, t, n)) ==
            multiset(DeadPart(cfg, ticks, t, n + 1))
  {
    if Death(ticks, t) >= n {
      DiesWhenTouched(ticks, t, n);
    }
  }

  lemma AliveExitsSplit(cfg: BacktestConfig, ticks: seq<Tick>, ts: seq<Trade>, n: nat)
    requires n < |ticks| && ts != []
    ensures Exits(cfg, Alive(ticks, ts, n), ticks[n]) ==
            Exits(cfg, Alive(ticks, ts[..|ts| - 1], n), ticks[n]) + AliveExitPart(cfg, ticks, ts[|ts| - 1], n)
  {
    var alive, t := Alive(ticks, ts[..|ts| - 1], n), ts[|ts| - 1];
    if Death(ticks, t) >= n {
      ExitsAppend(cfg, alive, t, ticks[n]);
    } else {
      assert alive + [] == alive && Exits(cfg, alive, ticks[n]) + [] == Exits(cfg, alive, ticks[n]);
    }
  }

  lemma DeadSplit(cfg: BacktestConfig, ticks: seq<Tick>, ts: seq<Trade>, n: nat)
    requires ticks != [] && ts != []
    ensures Dead(cfg, ticks, ts, n) == Dead(cfg, ticks, ts[..|ts| - 1], n) + DeadPart(cfg, ticks, ts[|ts| - 1], n)
  {}

  lemma {:induction false} ExitsAreDead(cfg: BacktestConfig, ticks: seq<Tick>, ts: seq<Trade>, n: nat)
    requires n < |ticks| && forall i :: 0 <= i < |ts| ==> ts[i].id < n
    ensures multiset(Dead(cfg, ticks, ts, n)) + multiset(Exits(cfg, Alive(ticks, ts, n), ticks[n])) ==
            multiset(Dead(cfg, ticks, ts, n + 1))
  {
    if ts != [] {
      var front, t := ts[..|ts| - 1], ts[|ts| - 1];
      ExitsAreDead(cfg, ticks, front, n);
      OneTradeDies(cfg, ticks, t, n);
      DeadSplit(cfg, ticks, ts, n);
      DeadSplit(cfg, ticks, ts, n + 1);
      AliveExitsSplit(cfg, ticks, ts, n);
      JoinMultisets(Dead(cfg, ticks, front, n), DeadPart(cfg, ticks, t, n),
                    Exits(cfg, Alive(ticks, front, n), ticks[n]), AliveExitPart(cfg, ticks, t, n),
                    Dead(cfg, ticks, front, n + 1), DeadPart(cfg, ticks, t, n + 1));
    }
  }

  /** Ids name the opening tick, so they increase strictly. */
  ghost predicate Numbered(ts: seq<Trade>, n: nat)
  {
    && (forall i :: 0 <= i < |ts| ==> ts[i].id < n)
    && (forall i, j :: 0 <= i < j < |ts| ==> ts[i].id < ts[j].id)
  }

  /** The ledger is the overlay of independent trades. */
  ghost predicate Overlays(cfg: BacktestConfig, ticks: seq<Tick>, l: Ledger, n: nat)
    requires ticks != []
  {
    && Numbered(l.entered, n)
    && l.open == Alive(ticks, l.entered, n)
    && multiset(l.completed) == multiset(Dead(cfg, ticks, l.entered, n))
  }

  lemma AliveAppend(ticks: seq<Tick>, ts: seq<Trade>, t: Trade, n: nat)
    ensures Alive(ticks, ts + [t], n) == Alive(ticks, ts, n) + (if Death(ticks, t) >= n then [t] else [])
  {
    assert (ts + [t])[..|ts|] == ts;
  }

  lemma DeadAppend(cfg: BacktestConfig, ticks: seq<Tick>, ts: seq<Trade>, t: Trade, n: nat)
    requires ticks != []
    ensures Dead(cfg, ticks, ts + [t], n) ==
            Dead(cfg, ticks, ts, n) + (if Death(ticks, t) < n then [Outcome(cfg, ticks, t)] else [])
  {
    assert (ts + [t])[..|ts|] == ts;
  }

  lemma SettleOverlays(cfg: BacktestConfig, ticks: seq<Tick>, l: Ledger, n: nat)
    requires n < |ticks| && Overlays(cfg, ticks, l, n)
    ensures Overlays(cfg, ticks, Mark(cfg, Settle(cfg, l, ticks[n]), ticks[n]), n + 1)
  {
    SurvivorsAreAlive(ticks, l.entered, n);
    ExitsAreDead(cfg, ticks, l.entered, n);
  }

  lemma NumberedAppend(ts: seq<Trade>, t: Trade, n: nat)
    requires Numbered(ts, n) && t.id == n
    ensures Numbered(ts + [t], n + 1)
  {}

  /** A trade entered at tick n is alive after it. */
  lemma NewTradeIsAlive(cfg: BacktestConfig, ticks: seq<Tick>, ts: seq<Trade>, t: Trade, n: nat)
    requires n < |ticks| && t.id == n
    ensures Alive(ticks, ts + [t], n + 1) == Alive(ticks, ts, n + 1) + [t]
    ensures Dead(cfg, ticks, ts + [t], n + 1) == Dead(cfg, ticks, ts, n + 1)
  {
    FirstTouchIsFirst(ticks, t, n + 1);
    AliveAppend(ticks, ts, t, n + 1);
    DeadAppend(cfg, ticks, ts, t, n + 1);
    assert Dead(cfg, ticks, ts, n + 1) + [] == Dead(cfg, ticks, ts, n + 1);
  }

  /** Any trade entered at tick n fits the overlay, whatever it is. */
  lemma NewTradeOverlays(cfg: BacktestConfig, ticks: seq<Tick>, l: Ledger, next: Ledger, n: nat, t: Trade)
    requires n < |ticks| && Overlays(cfg, ticks, l, n + 1) && Numbered(l.entered, n) && t.id == n
    requires next.entered == l.entered + [t] && next.open == l.open + [t] && next.completed == l.completed
    ensures Overlays(cfg, ticks, next, n + 1)
  {
    NumberedAppend(l.entered, t, n);
    NewTradeIsAlive(cfg, ticks, l.entered, t, n);
  }

  lemma EnterOverlays(cfg: BacktestConfig, ticks: seq<Tick>, l: Ledger, n: nat, r: Reply)
    requires n < |ticks| && Overlays(cfg, ticks, l, n + 1) && Numbered(l.entered, n)
    ensures Overlays(cfg, ticks, Enter(cfg, l, n, ticks[n], r), n + 1)
  {
    if Enters(cfg, l, ticks[n], r) {
      NewTradeOverlays(cfg, ticks, l, Enter(cfg, l, n, ticks[n], r), n,
                       EntryTrade(cfg, n, ticks[n], r.candidate, DecisionFor(cfg, l, ticks[n], r).lots.value));
    }
  }

  lemma StepOverlays(cfg: BacktestConfig, ticks: seq<Tick>, l: Ledger, n: nat, r: Reply)
    requires n < |ticks| && Overlays(cfg, ticks, l, n)
    ensures Overlays(cfg, ticks, StepTick(cfg, l, n, ticks[n], r), n + 1)
  {
    SettleOverlays(cfg, ticks, l, n);
    EnterOverlays(cfg, ticks, Mark(cfg, Settle(cfg, l, ticks[n]), ticks[n]), n, r);
  }

  ghost function OverlayInvariant(cfg: BacktestConfig, ticks: seq<Tick>): (Ledger, nat) -> bool
    requires ticks != []
  {
    (l: Ledger, i: nat) => Overlays(cfg, ticks, l, i)
  }

  lemma StepsKeepOverlay(cfg: BacktestConfig, ticks: seq<Tick>, replies: seq<Reply>)
    requires ticks != [] && |ticks| == |replies|
    ensures var p := OverlayInvariant(cfg, ticks);
            forall l: Ledger, i: nat {:trigger StepTick(cfg, l, i, ticks[i], replies[i])} ::
              i < |ticks| && p(l, i) ==> p(StepTick(cfg, l, i, ticks[i], replies[i]), i + 1)
  {
    forall l: Ledger, i: nat | i < |ticks| && Overlays(cfg, ticks, l, i)
      ensures Overlays(cfg, ticks, StepTick(cfg, l, i, ticks[i], replies[i]), i + 1)
    {
      StepOverlays(cfg, ticks, l, i, replies[i]);
    }
  }

  lemma RunOverlays(cfg: BacktestConfig, ticks: seq<Tick>, replies: seq<Reply>, n: nat)
    requires ticks != [] && n <= |ticks| == |replies|
    ensures Overlays(cfg, ticks, RunTo(cfg, ticks, replies, n), n)
  {
    StepsKeepOverlay(cfg, ticks, replies);
    RunInduction(cfg, ticks, replies, n, OverlayInvariant(cfg, ticks));
  }

  function FinalPart(cfg: BacktestConfig, t: Trade, last: Tick): Trade
  {
    Realise(cfg, t, Exit(last.time, MarkPrice(t, last), EndOfData))
  }

  lemma OneTradeEnds(cfg: BacktestConfig, ticks: seq<Tick>, t: Trade)
    requires ticks != [] && t.id < |ticks|
    ensures multiset(DeadPart(cfg, ticks, t, |ticks|)) +
            multiset(if Death(ticks, t) >= |ticks| then [FinalPart(cfg, t, ticks[|ticks| - 1])] else []) ==
            multiset([Outcome(cfg, ticks, t)])
  {
    FirstTouchIsFirst(ticks, t, t.id + 1);
  }

  lemma CloseAllAppend(cfg: BacktestConfig, open: seq<Trade>, t: Trade, last: Tick)
    ensures CloseAll(cfg, open + [t], last) == CloseAll(cfg, open, last) + [FinalPart(cfg, t, last)]
  {
    assert (open + [t])[..|open|] == open;
  }

  lemma {:induction false} CloseAllIsOutcome(cfg: BacktestConfig, ticks: seq<Tick>, ts: seq<Trade>)
    requires ticks != [] && forall i :: 0 <= i < |ts| ==> ts[i].id < |ticks|
    ensures multiset(Dead(cfg, ticks, ts, |ticks|)) +
            multiset(CloseAll(cfg, Alive(ticks, ts, |ticks|), ticks[|ticks| - 1])) ==
            multiset(Outcomes(cfg, ticks, ts))
  {
    if ts != [] {
      var front, t, last := ts[..|ts| - 1], ts[|ts| - 1], ticks[|ticks| - 1];
      CloseAllIsOutcome(cfg, ticks, front);
      OneTradeEnds(cfg, ticks, t);
      var alive := Alive(ticks, front, |ticks|);
      CloseAllAppend(cfg, alive, t, last);
      assert alive + [] == alive && CloseAll(cfg, alive, last) + [] == CloseAll(cfg, alive, last);
      JoinMultisets(Dead(cfg, ticks, front, |ticks|), DeadPart(cfg, ticks, t, |ticks|),
                    CloseAll(cfg, alive, last), if Death(ticks, t) >= |ticks| then [FinalPart(cfg, t, last)] else [],
                    Outcomes(cfg, ticks, front), [Outcome(cfg, ticks, t)]);
    }
  }

  /** Nothing is open, and the completed trades are the outcomes of the entered ones, each once. */
  ghost predicate LivedOut(cfg: BacktestConfig, ticks: seq<Tick>, l: Ledger)
    requires ticks != []
  {
    Numbered(l.entered, |ticks|) && l.open == [] && multiset(l.completed) == multiset(Outcomes(cfg, ticks, l.entered))
  }

  lemma FinishOverlays(cfg: BacktestConfig, ticks: seq<Tick>, l: Ledger)
    requires ticks != [] && Overlays(cfg, ticks, l, |ticks|)
    ensures LivedOut(cfg, ticks, Finish(cfg, l, ticks[|ticks| - 1]))
  {
    CloseAllIsOutcome(cfg, ticks, l.entered);
  }

  /**
   * Lifetimes: the completed trades are exactly the outcomes of the entered ones, each once. A trade
   * leaves at the first later tick that touches its stop or target, or else at the last tick,
   * whatever happened to the others.
   */
  lemma EveryTradeLivesItsOwnLife(cfg: BacktestConfig, ticks: seq<Tick>, replies: seq<Reply>)
    requires ticks != [] && |ticks| == |replies|
    ensures LivedOut(cfg, ticks, RunAll(cfg, ticks, replies))
  {
    RunOverlays(cfg, ticks, replies, |ticks|);
    FinishOverlays(cfg, ticks, RunTo(cfg, ticks, replies, |ticks|));
  }

  // ---------------------------------------------------------------- exposure

  ghost predicate NonNegativeLots(ts: seq<Trade>) { forall i :: 0 <= i < |ts| ==> ts[i].lots >= 0.0 }

  lemma {:induction false} SurvivorsShrink(open: seq<Trade>, tick: Tick)
    requires NonNegativeLots(open)
    ensures |Survivors(open, tick)| <= |open| && LotsSum(Survivors(open, tick)) <= LotsSum(open)
    ensures NonNegativeLots(Survivors(open, tick))
  {
    if open != [] {
      var front, t := open[..|open| - 1], open[|open| - 1];
      SurvivorsShrink(front, tick);
      var s := Survivors(front, tick);
      assert (s + [t])[..|s|] == s && s + [] == s;
    }
  }

  /** Both limits hold for the open positions. */
  ghost predicate WithinLimits(risk: RiskConfig, open: seq<Trade>)
  {
    && NonNegativeLots(open)
    && (risk.maxOpenPositions.Some? ==> |open| <= risk.maxOpenPositions.value)
    && (risk.maxOpenLots.Some? ==> LotsSum(open) <= risk.maxOpenLots.value)
  }

  /** Limits and the fixed-lot fallback are not negative. */
  ghost predicate SaneLimits(risk: RiskConfig)
  {
    && (risk.maxOpenPositions.Some? ==> risk.maxOpenPositions.value >= 0)
    && (risk.maxOpenLots.Some? ==> risk.maxOpenLots.value >= 0.0)
    && (risk.defaultLots.Some? ==> risk.defaultLots.value >= 0.0)
  }

  lemma AuthorizedLotsNonNegative(risk: RiskConfig, equity: real, candidate: Levels)
    requires risk.defaultLots.Some? ==> risk.defaultLots.value >= 0.0
    ensures AuthorizedLots(risk, equity, Some(candidate)).Some? ==>
              AuthorizedLots(risk, equity, Some(candidate)).value >= 0.0
  {
    if risk.riskPerTradePct.Some? && candidate.entry.Some? && candidate.stop.Some? {
      var policy := SizingPolicy(risk).value;
      if CalculateLotSize(policy, equity, candidate.entry, candidate.stop).Some? {
        GrantedLots(policy, equity, candidate.entry.value, candidate.stop.value);
      }
    }
  }

  lemma EnterWithinLimits(cfg: BacktestConfig, l: Ledger, i: nat, tick: Tick, r: Reply)
    requires SaneLimits(cfg.risk) && WithinLimits(cfg.risk, l.open)
    ensures WithinLimits(cfg.risk, Enter(cfg, l, i, tick, r).open)
  {
    if Enters(cfg, l, tick, r) {
      var d := DecisionFor(cfg, l, tick, r);
      ApprovalRespectsLimits(cfg.risk, SnapshotOf(cfg, l, tick), Some(LevelsOf(r.candidate)),
                             Some(Market(true, r.stalenessMs, Some(tick.Spread()))), Some("CLEAR"));
      AuthorizedLotsNonNegative(cfg.risk, SnapshotOf(cfg, l, tick).equity, LevelsOf(r.candidate));
      var t := EntryTrade(cfg, i, tick, r.candidate, d.lots.value);
      assert (l.open + [t])[..|l.open|] == l.open;
    }
  }

  lemma StepWithinLimits(cfg: BacktestConfig, l: Ledger, i: nat, tick: Tick, r: Reply)
    requires SaneLimits(cfg.risk) && WithinLimits(cfg.risk, l.open)
    ensures WithinLimits(cfg.risk, StepTick(cfg, l, i, tick, r).open)
  {
    SurvivorsShrink(l.open, tick);
    EnterWithinLimits(cfg, Mark(cfg, Settle(cfg, l, tick), tick), i, tick, r);
  }

  /** Exposure safety: at every tick of every run both exposure limits hold. */
  lemma ExposureSafe(cfg: BacktestConfig, ticks: seq<Tick>, replies: seq<Reply>, n: nat)
    requires n <= |ticks| == |replies| && SaneLimits(cfg.risk)
    ensures WithinLimits(cfg.risk, RunTo(cfg, ticks, replies, n).open)
  {
    var p := (l: Ledger, i: nat) => WithinLimits(cfg.risk, l.open);
    forall l: Ledger, i: nat | i < |ticks| && p(l, i)
      ensures p(StepTick(cfg, l, i, ticks[i], replies[i]), i + 1)
    {
      StepWithinLimits(cfg, l, i, ticks[i], replies[i]);
    }
    RunInduction(cfg, ticks, replies, n, p);
  }
}

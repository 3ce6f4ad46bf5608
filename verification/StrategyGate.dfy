/** The per-candle strategy gate of one account: evaluate, enable, disable and the kill switch. */
module StrategyGate {
  import opened Prelude
  import opened Scoring
  import opened AgentCommands

  datatype MarketState = NoMarketData | StaleMarketData | MalformedTick | FreshTick

  /** How far live execution got before it raised. */
  datatype Reached = NoCommand | CommandQueued | CommandSent | CommandFailed

  /** What became of live execution: the bool of send_json, or an exception anywhere on the way. */
  datatype Delivery = Delivered | NotDelivered | Raised(reached: Reached)

  /**
   * What one evaluation finds outside the engine's own state. `candle` is the open time of the last
   * closed M15 bar, missing while fewer than 50 are known; `otherGates` is the risk gate's verdict
   * apart from the kill switch.
   */
  datatype Surroundings = Surroundings(
    accountActive: bool, confirmedDemo: bool, tradingEnabled: bool, agent: Option<string>, connected: bool,
    market: MarketState, positionOpen: bool, tickAccepted: bool, candle: Option<int>, brain: Signal,
    otherGates: bool, delivery: Delivery)

  datatype SignalStatus = Proposed | BlockedByRisk | DryRun | AgentOffline | ExecutionPending | ExecutionFailed

  datatype SignalRow = SignalRow(id: string, candle: int, side: Side, status: SignalStatus)

  /** An OPEN_POSITION command as the audit trail records its creation. */
  datatype Issue = Issue(command: int, signal: string, candle: int)

  datatype Gate = Gate(
    enabled: bool, dryRun: bool, lastCandle: Option<int>, killSwitch: bool, signals: seq<SignalRow>, issued: seq<Issue>)

  /** A state row is created disabled and dry. */
  const NEW_GATE := Gate(false, true, None, false, [], [])

  datatype Skip =
    | StrategyDisabled | AccountInactive | NoData | StaleData | TickParseError | PositionAlreadyOpen | TickRejected
    | BarsWarmingUp | CandleCooldown

  datatype Verdict =
    | Skipped(why: Skip) | TradingDisabled | NoSignalThisCandle | RiskBlocked | DryRunOnly | NoAgent | DeliveryFailed
    | Dispatched(command: int) | ExecutionError

  // ---------------------------------------------------------------- what evaluation computes

  predicate LiveNotAllowed(g: Gate, e: Surroundings) { !g.dryRun && !e.confirmedDemo && !e.tradingEnabled }

  /** The first gate that stops the evaluation before the brain is asked. */
  function EarlyStop(g: Gate, e: Surroundings): Option<Skip>
  {
    if e.market == NoMarketData then Some(NoData)
    else if e.market == StaleMarketData then Some(StaleData)
    else if e.market == MalformedTick then Some(TickParseError)
    else if e.positionOpen then Some(PositionAlreadyOpen)
    else if !e.tickAccepted then Some(TickRejected)
    else if e.candle.None? then Some(BarsWarmingUp)
    else if g.lastCandle.Some? && g.lastCandle.value >= e.candle.value then Some(CandleCooldown)
    else None
  }

  function WithSignal(g: Gate, row: SignalRow): Gate
  {
    g.(lastCandle := Some(row.candle), signals := g.signals + [row])
  }

  /** Marks the queued command sent, and fails it if the socket did not take it. */
  function Handed(t: Table, agent: string, id: int, delivery: Delivery, now: int): Table
    requires id in t
  {
    var sent := t[id := SentRow(t[id], now)];
    if delivery in {NotDelivered, Raised(CommandFailed)} then
      Fail(sent, agent, id, Some("WebSocket delivery failed"), now).1
    else sent
  }

  /** Creates the command and hands it to the socket, as far as that gets. */
  function Issued(t: Table, agent: string, id: int, signal: string, delivery: Delivery, now: int): Table
  {
    var queued := t[id := NewCommand(agent, "OPEN_POSITION", Some(signal), now)];
    match delivery
    case Raised(NoCommand) => t
    case Raised(CommandQueued) => queued
    case _ => Handed(queued, agent, id, delivery, now)
  }

  /** The commands created: one, unless creating it raised. */
  function Created(delivery: Delivery, issue: Issue): seq<Issue>
  {
    if delivery == Raised(NoCommand) then [] else [issue]
  }

  function AfterDelivery(delivery: Delivery, command: int): (Verdict, SignalStatus)
  {
    match delivery
    case Delivered => (Dispatched(command), ExecutionPending)
    case NotDelivered => (DeliveryFailed, AgentOffline)
    case Raised(_) => (ExecutionError, ExecutionFailed)
  }

  /** Stages 9 to 11 for a proposed signal on a new candle. */
  function Act(g: Gate, t: Table, e: Surroundings, signal: string, command: int, now: int): (Verdict, Gate, Table)
    requires e.candle.Some? && e.brain.Signal?
  {
    var row := SignalRow(signal, e.candle.value, e.brain.side, Proposed);
    if g.killSwitch || !e.otherGates then (RiskBlocked, WithSignal(g, row.(status := BlockedByRisk)), t)
    else if g.dryRun then (DryRunOnly, WithSignal(g, row.(status := DryRun)), t)
    else if e.agent.None? || !e.connected then (NoAgent, WithSignal(g, row.(status := AgentOffline)), t)
    else
      var (verdict, status) := AfterDelivery(e.delivery, command);
      (verdict,
       WithSignal(g, row.(status := status)).(
         issued := g.issued + Created(e.delivery, Issue(command, signal, e.candle.value))),
       Issued(t, e.agent.value, command, signal, e.delivery, now))
  }

  /** `signal` and `command` are the UUIDs drawn if they are needed. */
  function Evaluation(g: Gate, t: Table, e: Surroundings, signal: string, command: int, now: int): (Verdict, Gate, Table)
  {
    if !g.enabled then (Skipped(StrategyDisabled), g, t)
    else if !e.accountActive then (Skipped(AccountInactive), g, t)
    else if LiveNotAllowed(g, e) then (TradingDisabled, g.(enabled := false, dryRun := true), t)
    else if EarlyStop(g, e).Some? then (Skipped(EarlyStop(g, e).value), g, t)
    else if e.brain.NoSignal? then (NoSignalThisCandle, g.(lastCandle := e.candle), t)
    else Act(g, t, e, signal, command, now)
  }

  // ---------------------------------------------------------------- the engine

  class StrategyEngine {
    const queue: Queue
    var enabled: bool
    var dryRun: bool
    var lastCandle: Option<int>
    var killSwitch: bool
    var signals: seq<SignalRow>
    var issued: seq<Issue>

    function View(): Gate
      reads this
    {
      Gate(enabled, dryRun, lastCandle, killSwitch, signals, issued)
    }

    constructor (queue: Queue)
      ensures this.queue == queue && View() == NEW_GATE
    {
      this.queue := queue;
      enabled, dryRun, lastCandle, killSwitch, signals, issued := false, true, None, false, [], [];
    }

    method Enable(dry: bool)
      modifies this
      ensures View() == old(View()).(enabled := true, dryRun := dry)
    {
      enabled, dryRun := true, dry;
    }

    method Disable()
      modifies this
      ensures View() == old(View()).(enabled := false)
    {
      enabled := false;
    }

    /** Arming also disables the engine; disarming does not enable it. */
    method SetKillSwitch(active: bool)
      modifies this
      ensures View() == Switched(old(View()), active)
    {
      killSwitch := active;
      if active {
        Disable();
      }
    }

    /** The status of the signal persisted last. */
    method SetStatus(status: SignalStatus)
      requires signals != []
      modifies this`signals
      ensures signals == old(signals)[|old(signals)| - 1 := old(signals)[|old(signals)| - 1].(status := status)]
    {
      signals := signals[|signals| - 1 := signals[|signals| - 1].(status := status)];
    }

    /** mark_sent, send_json and, if the socket did not take it, fail_command. */
    method HandOver(agent: string, command: int, delivery: Delivery, now: int)
      requires Owns(queue.rows, agent, command)
      modifies queue
      ensures queue.rows == Handed(old(queue.rows), agent, command, delivery, now)
    {
      var r := queue.MarkSent(agent, command, now);
      if delivery in {NotDelivered, Raised(CommandFailed)} {
        r := queue.FailCommand(agent, command, Some("WebSocket delivery failed"), now);
      }
    }

    /** What live execution does to the command queue, up to the exception if there is one. */
    method Transmit(agent: string, signal: string, candle: int, command: int, delivery: Delivery, now: int)
      requires command !in queue.rows
      modifies this`issued, queue
      ensures issued == old(issued) + Created(delivery, Issue(command, signal, candle))
      ensures queue.rows == Issued(old(queue.rows), agent, command, signal, delivery, now)
    {
      if delivery == Raised(NoCommand) {
        return;
      }
      var r := queue.CreateCommand(command, agent, "OPEN_POSITION", Some(signal), now);
      assert Upper("OPEN_POSITION") == "OPEN_POSITION";
      issued := issued + [Issue(command, signal, candle)];
      if delivery != Raised(CommandQueued) {
        HandOver(agent, command, delivery, now);
      }
    }

    /** Live execution through the agent's command queue, and the status it leaves on the signal. */
    method Send(agent: string, signal: string, candle: int, command: int, delivery: Delivery, now: int)
      returns (verdict: Verdict)
      requires command !in queue.rows && signals != []
      modifies this`signals, this`issued, queue
      ensures verdict == AfterDelivery(delivery, command).0
      ensures signals == old(signals)[|old(signals)| - 1 :=
                           old(signals)[|old(signals)| - 1].(status := AfterDelivery(delivery, command).1)]
      ensures issued == old(issued) + Created(delivery, Issue(command, signal, candle))
      ensures queue.rows == Issued(old(queue.rows), agent, command, signal, delivery, now)
    {
      Transmit(agent, signal, candle, command, delivery, now);
      match delivery
      case Delivered =>
        SetStatus(ExecutionPending);
        verdict := Dispatched(command);
      case NotDelivered =>
        SetStatus(AgentOffline);
        verdict := DeliveryFailed;
      case Raised(_) =>
        SetStatus(ExecutionFailed);
        verdict := ExecutionError;
    }

    method Evaluate(e: Surroundings, signal: string, command: int, now: int) returns (verdict: Verdict)
      requires command !in queue.rows
      modifies this, queue
      ensures (verdict, View(), queue.rows) == Evaluation(old(View()), old(queue.rows), e, signal, command, now)
    {
      if !enabled {
        return Skipped(StrategyDisabled);
      }
      if !e.accountActive {
        return Skipped(AccountInactive);
      }
      if !dryRun && !e.confirmedDemo && !e.tradingEnabled {
        enabled, dryRun := false, true;
        return TradingDisabled;
      }
      if e.market == NoMarketData {
        return Skipped(NoData);
      }
      if e.market == StaleMarketData {
        return Skipped(StaleData);
      }
      if e.market == MalformedTick {
        return Skipped(TickParseError);
      }
      if e.positionOpen {
        return Skipped(PositionAlreadyOpen);
      }
      if !e.tickAccepted {
        return Skipped(TickRejected);
      }
      if e.candle.None? {
        return Skipped(BarsWarmingUp);
      }
      if lastCandle.Some? && lastCandle.value >= e.candle.value {
        return Skipped(CandleCooldown);
      }
      if e.brain.NoSignal? {
        lastCandle := e.candle;
        return NoSignalThisCandle;
      }
      ghost var earlier, row := signals, SignalRow(signal, e.candle.value, e.brain.side, Proposed);
      signals := signals + [SignalRow(signal, e.candle.value, e.brain.side, Proposed)];
      assert forall status :: signals[|signals| - 1 := row.(status := status)] == earlier + [row.(status := status)];
      lastCandle := e.candle;
      if killSwitch || !e.otherGates {
        SetStatus(BlockedByRisk);
        return RiskBlocked;
      }
      if dryRun {
        SetStatus(DryRun);
        return DryRunOnly;
      }
      if e.agent.None? || !e.connected {
        SetStatus(AgentOffline);
        return NoAgent;
      }
      verdict := Send(e.agent.value, signal, e.candle.value, command, e.delivery, now);
    }
  }

  function Switched(g: Gate, active: bool): Gate
  {
    g.(killSwitch := active, enabled := if active then false else g.enabled)
  }

  // ---------------------------------------------------------------- runs

  datatype Step =
    | Evaluate(e: Surroundings, signal: string, command: int, now: int)
    | Enable(dry: bool)
    | Disable
    | KillSwitch(active: bool)

  function Apply(g: Gate, t: Table, step: Step): (Gate, Table)
  {
    match step
    case Evaluate(e, signal, command, now) =>
      var r := Evaluation(g, t, e, signal, command, now);
      (r.1, r.2)
    case Enable(dry) => (g.(enabled := true, dryRun := dry), t)
    case Disable => (g.(enabled := false), t)
    case KillSwitch(active) => (Switched(g, active), t)
  }

  /** `tables` is the queue as each step finds it, since agents change it in between. */
  function Play(g: Gate, steps: seq<Step>, tables: seq<Table>): Gate
    requires |steps| == |tables|
  {
    if steps == [] then g
    else
      var n := |steps| - 1;
      Apply(Play(g, steps[..n], tables[..n]), tables[n], steps[n]).0
  }

  // ---------------------------------------------------------------- one signal and one command per candle

  ghost predicate SignalsIncrease(rows: seq<SignalRow>)
  {
    forall i, j :: 0 <= i < j < |rows| ==> rows[i].candle < rows[j].candle
  }

  ghost predicate IssuesIncrease(issues: seq<Issue>)
  {
    forall i, j :: 0 <= i < j < |issues| ==> issues[i].candle < issues[j].candle
  }

  /** Every command was created for one of the signals. */
  ghost predicate IssuedForSignal(g: Gate, i: nat)
    requires i < |g.issued|
  {
    exists k :: 0 <= k < |g.signals| && g.signals[k].candle == g.issued[i].candle && g.signals[k].id == g.issued[i].signal
  }

  ghost predicate Paced(g: Gate)
  {
    && SignalsIncrease(g.signals) && IssuesIncrease(g.issued)
    && (g.lastCandle.None? ==> g.signals == [])
    && (g.lastCandle.Some? ==> forall k :: 0 <= k < |g.signals| ==> g.signals[k].candle <= g.lastCandle.value)
    && (forall i :: 0 <= i < |g.issued| ==> IssuedForSignal(g, i))
  }

  lemma IssuedBeforeLast(g: Gate, i: nat)
    requires Paced(g) && i < |g.issued|
    ensures g.lastCandle.Some? && g.issued[i].candle <= g.lastCandle.value
  {
    assert IssuedForSignal(g, i);
  }

  /** A new signal on a later candle, with or without a command, keeps the pace. */
  lemma NewSignalPaced(g: Gate, row: SignalRow, more: seq<Issue>)
    requires Paced(g) && (g.lastCandle.Some? ==> g.lastCandle.value < row.candle)
    requires more == [] || (|more| == 1 && more[0].candle == row.candle && more[0].signal == row.id)
    ensures Paced(WithSignal(g, row).(issued := g.issued + more))
  {
    var after := WithSignal(g, row).(issued := g.issued + more);
    forall i | 0 <= i < |after.issued|
      ensures IssuedForSignal(after, i) && (i < |g.issued| ==> after.issued[i].candle < row.candle)
    {
      if i < |g.issued| {
        IssuedBeforeLast(g, i);
        assert IssuedForSignal(g, i);
        var k :| 0 <= k < |g.signals| && g.signals[k].candle == g.issued[i].candle && g.signals[k].id == g.issued[i].signal;
        assert after.signals[k] == g.signals[k];
      } else {
        assert after.signals[|g.signals|] == row;
      }
    }
  }

  lemma ActPaced(g: Gate, t: Table, e: Surroundings, signal: string, command: int, now: int)
    requires Paced(g) && e.candle.Some? && e.brain.Signal?
    requires g.lastCandle.Some? ==> g.lastCandle.value < e.candle.value
    ensures Paced(Act(g, t, e, signal, command, now).1)
  {
    var after := Act(g, t, e, signal, command, now).1;
    var row := after.signals[|after.signals| - 1];
    var more := after.issued[|g.issued|..];
    assert after.issued == g.issued + more;
    NewSignalPaced(g, row, more);
  }

  lemma LaterCandlePaced(g: Gate, candle: int)
    requires Paced(g) && (g.lastCandle.Some? ==> g.lastCandle.value < candle)
    ensures Paced(g.(lastCandle := Some(candle)))
  {
    var after := g.(lastCandle := Some(candle));
    forall i | 0 <= i < |after.issued|
      ensures IssuedForSignal(after, i)
    {
      SameSignalsSameIssue(g, after, i);
    }
  }

  lemma SameSignalsSameIssue(g: Gate, h: Gate, i: nat)
    requires h.signals == g.signals && h.issued == g.issued && i < |g.issued| && IssuedForSignal(g, i)
    ensures IssuedForSignal(h, i)
  {
    var k :| 0 <= k < |g.signals| && g.signals[k].candle == g.issued[i].candle && g.signals[k].id == g.issued[i].signal;
    assert h.signals[k].candle == h.issued[i].candle;
  }

  lemma SwitchesPaced(g: Gate, h: Gate)
    requires Paced(g) && h.signals == g.signals && h.issued == g.issued && h.lastCandle == g.lastCandle
    ensures Paced(h)
  {
    forall i | 0 <= i < |h.issued|
      ensures IssuedForSignal(h, i)
    {
      SameSignalsSameIssue(g, h, i);
    }
  }

  lemma StepPaced(g: Gate, t: Table, step: Step)
    requires Paced(g)
    ensures Paced(Apply(g, t, step).0)
  {
    if step.Evaluate? && g.enabled && step.e.accountActive && !LiveNotAllowed(g, step.e) && EarlyStop(g, step.e).None? {
      if step.e.brain.NoSignal? {
        LaterCandlePaced(g, step.e.candle.value);
      } else {
        ActPaced(g, t, step.e, step.signal, step.command, step.now);
      }
    } else {
      SwitchesPaced(g, Apply(g, t, step).0);
    }
  }

  /**
   * Whatever the order of evaluations, enables, disables and kill-switch flips, the candles of the
   * persisted signals strictly increase and so do those of the commands, each created for one of the
   * signals: one candle never yields two signals or two commands.
   */
  lemma {:induction false} OnePerCandle(steps: seq<Step>, tables: seq<Table>)
    requires |steps| == |tables|
    ensures Paced(Play(NEW_GATE, steps, tables))
  {
    if steps != [] {
      var n := |steps| - 1;
      OnePerCandle(steps[..n], tables[..n]);
      StepPaced(Play(NEW_GATE, steps[..n], tables[..n]), tables[n], steps[n]);
    }
  }

  // ---------------------------------------------------------------- when a command may be created

  /** Every gate on the way to a command. */
  predicate AllGatesOpen(g: Gate, e: Surroundings)
  {
    && g.enabled && !g.dryRun && !g.killSwitch && e.otherGates
    && e.accountActive && (e.confirmedDemo || e.tradingEnabled) && e.agent.Some? && e.connected
    && e.market == FreshTick && !e.positionOpen && e.tickAccepted
    && e.candle.Some? && (g.lastCandle.Some? ==> g.lastCandle.value < e.candle.value)
    && e.brain.Signal? && e.delivery != Raised(NoCommand)
  }

  /** A command is created exactly if every gate is open, and nothing else touches the queue. */
  lemma CommandNeedsAllGates(g: Gate, t: Table, step: Step)
    ensures Apply(g, t, step).0.issued != g.issued <==> step.Evaluate? && AllGatesOpen(g, step.e)
    ensures Apply(g, t, step).1 != t ==> Apply(g, t, step).0.issued != g.issued
    ensures Apply(g, t, step).0.issued != g.issued ==>
              Apply(g, t, step).0.issued == g.issued + [Issue(step.command, step.signal, step.e.candle.value)]
  {}

  ghost predicate Disarms(steps: seq<Step>) { exists i :: 0 <= i < |steps| && steps[i] == KillSwitch(false) }

  ghost predicate EnablesLive(steps: seq<Step>) { exists i :: 0 <= i < |steps| && steps[i] == Enable(false) }

  lemma FrontDisarms(steps: seq<Step>)
    requires steps != []
    ensures Disarms(steps) <==> Disarms(steps[..|steps| - 1]) || steps[|steps| - 1] == KillSwitch(false)
  {
    var front := steps[..|steps| - 1];
    if Disarms(front) {
      var i :| 0 <= i < |front| && front[i] == KillSwitch(false);
      assert steps[i] == KillSwitch(false);
    }
    if Disarms(steps) && steps[|steps| - 1] != KillSwitch(false) {
      var i :| 0 <= i < |steps| && steps[i] == KillSwitch(false);
      assert front[i] == KillSwitch(false);
    }
  }

  lemma FrontEnables(steps: seq<Step>)
    requires steps != []
    ensures EnablesLive(steps) <==> EnablesLive(steps[..|steps| - 1]) || steps[|steps| - 1] == Enable(false)
  {
    var front := steps[..|steps| - 1];
    if EnablesLive(front) {
      var i :| 0 <= i < |front| && front[i] == Enable(false);
      assert steps[i] == Enable(false);
    }
    if EnablesLive(steps) && steps[|steps| - 1] != Enable(false) {
      var i :| 0 <= i < |steps| && steps[i] == Enable(false);
      assert front[i] == Enable(false);
    }
  }

  /**
   * After the kill switch is armed no command is created until it has been disarmed and the strategy
   * has been enabled for live trading again, in either order and among any other steps.
   */
  lemma {:induction false} KilledUntilDisarmedAndEnabled(g: Gate, steps: seq<Step>, tables: seq<Table>)
    requires |steps| == |tables|
    ensures var armed := Switched(g, true);
            var after := Play(armed, steps, tables);
            && (!Disarms(steps) ==> after.killSwitch)
            && (!EnablesLive(steps) ==> !after.enabled || after.dryRun)
            && (!(Disarms(steps) && EnablesLive(steps)) ==> after.issued == g.issued)
  {
    if steps != [] {
      var n := |steps| - 1;
      FrontDisarms(steps);
      FrontEnables(steps);
      KilledUntilDisarmedAndEnabled(g, steps[..n], tables[..n]);
      var before := Play(Switched(g, true), steps[..n], tables[..n]);
      if Apply(before, tables[n], steps[n]).0.issued != before.issued {
        CommandNeedsAllGates(before, tables[n], steps[n]);
      }
    }
  }
}

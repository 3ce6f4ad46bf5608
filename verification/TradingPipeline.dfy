/** The trading cycle from a proposal to reconciliation, and the account freeze. */
module TradingPipeline {
  import opened Prelude
  import opened Scoring
  import RiskEngine
  import opened Commands
  import opened Simulator
  import Reconciliation
  import opened ExecutionService

  /** A persisted signal with its risk decision; `signalId` and `commandId` are the UUIDs drawn for it. */
  datatype Proposal = Proposal(
    signalId: string, symbol: string, side: Side, stopLoss: Option<real>, takeProfit: Option<real>,
    decision: RiskEngine.Decision, bid: real, ask: real, commandId: string, expired: bool)

  /** What the stages before execution make of a tick. */
  datatype Arrival = InvalidTick | MarketNotReady | NoSignalProposed | SignalOutdated | Proposed(p: Proposal)

  datatype Status =
    | TickRejected | DataNotReady | AccountFrozen | SignalNone | SignalExpired
    | RiskBlocked | RiskNotConfigured | RiskEmergency
    | ExecutionRejected | ExecutionFilled | ExecutionExpired | TransactionFailed

  function RequestOf(account: string, p: Proposal): Request
  {
    Request(account, p.symbol, p.side, p.stopLoss, p.takeProfit, p.decision,
            Some(if p.side == Buy then p.ask else p.bid), Some("exec_" + account + "_" + p.signalId),
            p.commandId, p.expired)
  }

  /** Why an account is frozen: the kinds of its discrepancies. */
  type Reason = seq<Reconciliation.Kind>

  function Kinds(r: Reconciliation.Result): Reason
  {
    seq(|r.discrepancies|, i requires 0 <= i < |r.discrepancies| => r.discrepancies[i].kind)
  }

  /** What one pipeline works on: the shared database and simulator, and the accounts it has frozen itself. */
  datatype World = World(db: Database, sim: SimState, frozen: map<string, Reason>)

  function Reconciled(w: World, account: string): Reconciliation.Result
  {
    ReconcileAccount(w.db, account, OpenPositions(w.sim))
  }

  /** Why a proposal stops at the risk gate. */
  function RiskStatus(verdict: RiskEngine.Verdict): Status
  {
    match verdict
    case NotConfigured => RiskNotConfigured
    case Emergency => RiskEmergency
    case _ => RiskBlocked
  }

  function StatusOf(status: ExecutionStatus): Status
  {
    match status
    case FillDone => ExecutionFilled
    case FillExpired => ExecutionExpired
    case FillRejected => ExecutionRejected
  }

  /** Stage 10: a critical reconciliation freezes the account. */
  function FreezeOn(w: World, account: string, r: Reconciliation.Result): World
  {
    if r.HasCritical() then w.(frozen := w.frozen[account := Kinds(r)]) else w
  }

  function AfterReconciliation(w: World, account: string): World { FreezeOn(w, account, Reconciled(w, account)) }

  /** What the cycle makes of a dispatch: an executed request is reconciled. */
  function Concluded(d: (Outcome, Database, SimState), frozen: map<string, Reason>, account: string): (Status, World)
  {
    var after := World(d.1, d.2, frozen);
    match d.0
    case Refused => (ExecutionRejected, after)
    case Duplicate => (ExecutionRejected, after)
    case Conflict => (TransactionFailed, after)
    case Executed(report) => (StatusOf(report.status), AfterReconciliation(after, account))
  }

  /** Stages 9 and 10. */
  function ExecuteProposal(w: World, account: string, p: Proposal): (Status, World)
  {
    Concluded(Dispatch(w.db, w.sim, RequestOf(account, p)), w.frozen, account)
  }

  function Cycle(w: World, account: string, a: Arrival): (Status, World)
  {
    if a.InvalidTick? then (TickRejected, w)
    else if a.MarketNotReady? then (DataNotReady, w)
    else if account in w.frozen then (AccountFrozen, w)
    else if a.NoSignalProposed? then (SignalNone, w)
    else if a.SignalOutdated? then (SignalExpired, w)
    else if a.p.decision.verdict != RiskEngine.Approved then (RiskStatus(a.p.decision.verdict), w)
    else ExecuteProposal(w, account, a.p)
  }

  // ---------------------------------------------------------------- the class

  class Pipeline {
    const account: string
    const symbol: string
    const simulator: MT5AgentSimulator
    const service: Service
    var frozenAccounts: map<string, Reason>

    ghost predicate Valid() { service.simulator == simulator }

    constructor (account: string, symbol: string, simulator: MT5AgentSimulator)
      ensures Valid() && this.account == account && this.symbol == symbol
      ensures this.simulator == simulator && frozenAccounts == map[]
    {
      this.account, this.symbol, this.simulator := account, symbol, simulator;
      service := new Service(simulator);
      frozenAccounts := map[];
    }

    function WorldWith(session: Session): World
      reads this, session, simulator
    {
      World(session.View(), simulator.State(), frozenAccounts)
    }

    method FreezeAccount(account: string, reason: Reason)
      modifies this
      ensures frozenAccounts == old(frozenAccounts)[account := reason]
    {
      frozenAccounts := frozenAccounts[account := reason];
    }

    method UnfreezeAccount(account: string)
      modifies this
      ensures frozenAccounts == old(frozenAccounts) - {account}
    {
      frozenAccounts := frozenAccounts - {account};
    }

    predicate IsAccountFrozen(account: string)
      reads this
    {
      account in frozenAccounts
    }

    method ProcessTick(session: Session, arrival: Arrival, now: int) returns (status: Status)
      requires Valid()
      modifies this, session, simulator
      ensures (status, WorldWith(session)) == Cycle(old(WorldWith(session)), account, arrival)
    {
      if arrival.InvalidTick? {
        return TickRejected;
      }
      if arrival.MarketNotReady? {
        return DataNotReady;
      }
      if IsAccountFrozen(account) {
        return AccountFrozen;
      }
      if arrival.NoSignalProposed? {
        return SignalNone;
      }
      if arrival.SignalOutdated? {
        return SignalExpired;
      }
      if arrival.p.decision.verdict != RiskEngine.Approved {
        match arrival.p.decision.verdict {
          case NotConfigured => return RiskNotConfigured;
          case Emergency => return RiskEmergency;
          case _ => return RiskBlocked;
        }
      }
      ghost var before := WorldWith(session);
      var outcome, path := service.ExecuteApprovedSignal(session, RequestOf(account, arrival.p), now);
      if outcome.Conflict? {
        return TransactionFailed;
      }
      if !outcome.Executed? {
        return ExecutionRejected;
      }
      status := StatusOf(outcome.report.status);
      var positions := simulator.GetOpenPositions();
      var result := service.ReconcileAccountPositions(session, account, positions);
      if result.HasCritical() {
        FreezeAccount(account, Kinds(result));
      }
    }
  }

  // ---------------------------------------------------------------- runs

  /** Which pipeline: there is one per account and symbol. */
  datatype Desk = Desk(account: string, symbol: string)

  /** Any number of pipelines on one database and one simulator, each with its own frozen accounts. */
  datatype Platform = Platform(db: Database, sim: SimState, frozen: map<Desk, map<string, Reason>>)
  {
    /** What the pipeline of that desk sees. */
    function Seen(d: Desk): World { World(db, sim, if d in frozen then frozen[d] else map[]) }

    predicate Frozen(d: Desk) { d.account in Seen(d).frozen }
  }

  /** One step: a tick for one pipeline, or an operator lifting one of its freezes. */
  datatype Step = Tick(desk: Desk, arrival: Arrival) | Unfreeze(desk: Desk, account: string)

  function Advance(p: Platform, s: Step): Platform
  {
    match s
    case Tick(desk, arrival) =>
      var w := Cycle(p.Seen(desk), desk.account, arrival).1;
      Platform(w.db, w.sim, p.frozen[desk := w.frozen])
    case Unfreeze(desk, account) => p.(frozen := p.frozen[desk := p.Seen(desk).frozen - {account}])
  }

  function RunSteps(p: Platform, steps: seq<Step>): Platform
  {
    if steps == [] then p else Advance(RunSteps(p, steps[..|steps| - 1]), steps[|steps| - 1])
  }

  /** A simulator that has not opened anything. */
  function NewSimulator(bid: real, ask: real): SimState { SimState(bid, ask, FIRST_COUNTER, map[]) }

  /** An empty database and a new simulator. */
  function Origin(bid: real, ask: real): Platform { Platform(Database([], [], []), NewSimulator(bid, ask), map[]) }

  /** A freeze stops the pipeline that found the discrepancy and no other, not even of the same account. */
  lemma FreezeStaysAtItsDesk(p: Platform, s: Step, other: Desk)
    requires other != s.desk
    ensures Advance(p, s).Frozen(other) <==> p.Frozen(other)
  {}

  // ---------------------------------------------------------------- database and simulator agree

  function FilledRows(commands: seq<CommandRow>): seq<CommandRow>
  {
    if commands == [] then []
    else
      var row := commands[|commands| - 1];
      FilledRows(commands[..|commands| - 1]) + (if row.status == Filled then [row] else [])
  }

  ghost predicate DistinctKeys(commands: seq<CommandRow>)
  {
    forall i, j :: 0 <= i < j < |commands| ==> commands[i].key != commands[j].key
  }

  /** The row and the broker position are the same position. */
  predicate SamePosition(row: PositionRow, p: PositionReport)
  {
    row.account == p.account && row.ticket == p.ticket && row.side == p.side && row.lots == p.lots && row.status == "OPEN"
  }

  /** The row was opened by this command. */
  predicate OpenedBy(row: PositionRow, c: CommandRow)
  {
    row.commandId == c.id && row.account == c.account && row.side == c.side && row.lots == c.lots
  }

  ghost predicate TicketsMatch(positions: seq<PositionRow>, sim: SimState)
  {
    && sim.counter == FIRST_COUNTER + |positions|
    && (forall t :: t in sim.positions <==> FIRST_COUNTER < t <= sim.counter)
    && (forall i :: 0 <= i < |positions| ==> positions[i].ticket == FIRST_COUNTER + 1 + i)
    && (forall i {:trigger positions[i]} :: 0 <= i < |positions| ==>
          FIRST_COUNTER + 1 + i in sim.positions && SamePosition(positions[i], sim.positions[FIRST_COUNTER + 1 + i]))
  }

  /** Positions and filled commands correspond one to one, in order. */
  ghost predicate CommandsMatch(positions: seq<PositionRow>, commands: seq<CommandRow>)
  {
    && DistinctKeys(commands)
    && (forall i :: 0 <= i < |commands| ==> commands[i].status in {Filled, Expired})
    && |FilledRows(commands)| == |positions|
    && (forall i :: 0 <= i < |positions| ==> OpenedBy(positions[i], FilledRows(commands)[i]))
  }

  ghost predicate Agree(db: Database, sim: SimState)
  {
    TicketsMatch(db.positions, sim) && CommandsMatch(db.positions, db.commands)
  }

  ghost predicate Consistent(w: World) { Agree(w.db, w.sim) }

  lemma FilledRowsAppend(commands: seq<CommandRow>, row: CommandRow)
    ensures FilledRows(commands + [row]) == FilledRows(commands) + (if row.status == Filled then [row] else [])
  {
    assert (commands + [row])[..|commands|] == commands;
  }

  lemma DistinctAppend(commands: seq<CommandRow>, row: CommandRow)
    requires DistinctKeys(commands) && !KeyTaken(commands, row.key)
    ensures DistinctKeys(commands + [row])
  {}

  /** A fill is recorded under a ticket that no row has. */
  lemma FreshTicket(positions: seq<PositionRow>, sim: SimState, account: string)
    requires TicketsMatch(positions, sim)
    ensures !TicketTaken(positions, account, sim.counter + 1)
  {}

  lemma DispatchShape(db: Database, sim: SimState, r: Request)
    requires TicketsMatch(db.positions, sim) && Authorized(r) && !KeyTaken(db.commands, KeyOf(r))
    ensures var (outcome, db', sim') := Dispatch(db, sim, r);
            && outcome.Executed?
            && db'.commands == db.commands + [NewRow(r)]
            && (r.expired ==> db'.positions == db.positions && sim' == sim)
            && (!r.expired ==>
                  var p := OpenedPosition(sim, OrderFor(r), r.price);
                  db'.positions == db.positions + [RowFor(r, p)] &&
                  sim' == sim.(counter := p.ticket, positions := sim.positions[p.ticket := p]))
  {
    FreshTicket(db.positions, sim, r.account);
  }

  function NewRow(r: Request): CommandRow
    requires Authorized(r)
  {
    CommandRow(r.commandId, r.account, KeyOf(r), r.side, r.decision.lots.value, if r.expired then Expired else Filled)
  }

  function RowFor(r: Request, p: PositionReport): PositionRow
    requires Authorized(r)
  {
    PositionRow(r.account, r.commandId, p.ticket, r.symbol, r.side, r.decision.lots.value,
                OrElse(Some(p.openPrice), OrElse(r.price, 2000.0)), "OPEN")
  }

  lemma TicketsMatchAppend(positions: seq<PositionRow>, sim: SimState, row: PositionRow, p: PositionReport)
    requires TicketsMatch(positions, sim) && SamePosition(row, p) && p.ticket == sim.counter + 1
    ensures TicketsMatch(positions + [row], sim.(counter := p.ticket, positions := sim.positions[p.ticket := p]))
  {}

  lemma ExpiredCommandMatches(positions: seq<PositionRow>, commands: seq<CommandRow>, c: CommandRow)
    requires CommandsMatch(positions, commands) && !KeyTaken(commands, c.key) && c.status == Expired
    ensures CommandsMatch(positions, commands + [c])
  {
    FilledRowsAppend(commands, c);
    DistinctAppend(commands, c);
    assert FilledRows(commands + [c]) == FilledRows(commands);
  }

  lemma FilledCommandMatches(positions: seq<PositionRow>, commands: seq<CommandRow>, c: CommandRow, row: PositionRow)
    requires CommandsMatch(positions, commands) && !KeyTaken(commands, c.key) && c.status == Filled && OpenedBy(row, c)
    ensures CommandsMatch(positions + [row], commands + [c])
  {
    var rows, filled := positions + [row], FilledRows(commands) + [c];
    FilledRowsAppend(commands, c);
    DistinctAppend(commands, c);
    forall i | 0 <= i < |rows|
      ensures OpenedBy(rows[i], filled[i])
    {
      if i < |positions| {
        assert rows[i] == positions[i] && filled[i] == FilledRows(commands)[i];
      }
    }
  }

  /** Every dispatch, refused, duplicate, expired or filled, keeps database and simulator in agreement. */
  lemma DispatchKeepsAgreement(db: Database, sim: SimState, r: Request)
    requires Agree(db, sim)
    ensures !Dispatch(db, sim, r).0.Conflict? && Agree(Dispatch(db, sim, r).1, Dispatch(db, sim, r).2)
  {
    if Authorized(r) && !KeyTaken(db.commands, KeyOf(r)) {
      DispatchShape(db, sim, r);
      if r.expired {
        ExpiredCommandMatches(db.positions, db.commands, NewRow(r));
      } else {
        var p := OpenedPosition(sim, OrderFor(r), r.price);
        TicketsMatchAppend(db.positions, sim, RowFor(r, p), p);
        FilledCommandMatches(db.positions, db.commands, NewRow(r), RowFor(r, p));
      }
    }
  }

  /** A reconciliation changes nothing but whether its account is frozen. */
  lemma FreezeOnShape(w: World, account: string, r: Reconciliation.Result)
    ensures FreezeOn(w, account, r).db == w.db && FreezeOn(w, account, r).sim == w.sim
    ensures forall other :: other != account ==> (other in FreezeOn(w, account, r).frozen <==> other in w.frozen)
    ensures account !in w.frozen ==> (account in FreezeOn(w, account, r).frozen <==> r.HasCritical())
  {}

  lemma NotExecutedShape(d: (Outcome, Database, SimState), frozen: map<string, Reason>, account: string)
    requires !d.0.Executed?
    ensures Concluded(d, frozen, account).1 == World(d.1, d.2, frozen)
    ensures Concluded(d, frozen, account).0 == TransactionFailed <==> d.0.Conflict?
  {}

  lemma ExecutedShape(d: (Outcome, Database, SimState), frozen: map<string, Reason>, account: string,
                      r: Reconciliation.Result)
    requires d.0.Executed? && r == ReconcileAccount(d.1, account, OpenPositions(d.2))
    ensures Concluded(d, frozen, account).1 == FreezeOn(World(d.1, d.2, frozen), account, r)
    ensures Concluded(d, frozen, account).0 != TransactionFailed
  {}

  /** Execution changes database and simulator by the dispatch alone, and freezes nobody but the account. */
  lemma ConcludedShape(d: (Outcome, Database, SimState), frozen: map<string, Reason>, account: string)
    ensures var c := Concluded(d, frozen, account);
            && c.1.db == d.1 && c.1.sim == d.2 && (c.0 == TransactionFailed <==> d.0.Conflict?)
            && (forall other :: other != account ==> (other in c.1.frozen <==> other in frozen))
  {
    if d.0.Executed? {
      var r := ReconcileAccount(d.1, account, OpenPositions(d.2));
      ExecutedShape(d, frozen, account, r);
      FreezeOnShape(World(d.1, d.2, frozen), account, r);
    } else {
      NotExecutedShape(d, frozen, account);
    }
  }

  lemma ProposalKeepsAgreement(w: World, account: string, p: Proposal)
    requires Consistent(w)
    ensures Consistent(ExecuteProposal(w, account, p).1) && ExecuteProposal(w, account, p).0 != TransactionFailed
  {
    DispatchKeepsAgreement(w.db, w.sim, RequestOf(account, p));
    ConcludedShape(Dispatch(w.db, w.sim, RequestOf(account, p)), w.frozen, account);
  }

  lemma CycleShape(w: World, account: string, a: Arrival)
    ensures || (Cycle(w, account, a).1 == w && Cycle(w, account, a).0 != TransactionFailed)
            || (a.Proposed? && Cycle(w, account, a) == ExecuteProposal(w, account, a.p))
  {}

  lemma CycleKeepsAgreement(w: World, account: string, a: Arrival)
    requires Consistent(w)
    ensures Consistent(Cycle(w, account, a).1) && Cycle(w, account, a).0 != TransactionFailed
  {
    CycleShape(w, account, a);
    if a.Proposed? {
      ProposalKeepsAgreement(w, account, a.p);
    }
  }

  lemma AdvanceKeepsAgreement(p: Platform, s: Step)
    requires Agree(p.db, p.sim)
    ensures Agree(Advance(p, s).db, Advance(p, s).sim)
  {
    if s.Tick? {
      CycleKeepsAgreement(p.Seen(s.desk), s.desk.account, s.arrival);
    }
  }

  /**
   * Over every run of any number of pipelines from an empty database and one new simulator: open rows
   * and broker positions correspond one to one under tickets issued once, each position comes from
   * its own filled command with its own key, and no transaction ever fails on the ticket constraint.
   */
  lemma {:induction false} AlwaysConsistent(bid: real, ask: real, steps: seq<Step>)
    ensures var p := RunSteps(Origin(bid, ask), steps);
            Agree(p.db, p.sim) &&
            forall desk, arrival :: Cycle(p.Seen(desk), desk.account, arrival).0 != TransactionFailed
  {
    if steps != [] {
      AlwaysConsistent(bid, ask, steps[..|steps| - 1]);
      AdvanceKeepsAgreement(RunSteps(Origin(bid, ask), steps[..|steps| - 1]), steps[|steps| - 1]);
    }
    var p := RunSteps(Origin(bid, ask), steps);
    forall desk, arrival
      ensures Cycle(p.Seen(desk), desk.account, arrival).0 != TransactionFailed
    {
      CycleKeepsAgreement(p.Seen(desk), desk.account, arrival);
    }
  }

  /** One key never opens two positions. */
  lemma OnePositionPerKey(w: World, i: nat, j: nat)
    requires Consistent(w) && i < j < |w.db.positions|
    ensures FilledRows(w.db.commands)[i].key != FilledRows(w.db.commands)[j].key
    ensures w.db.positions[i].ticket != w.db.positions[j].ticket
  {
    FilledKeysDistinct(w.db.commands);
  }

  lemma {:induction false} FilledKeysDistinct(commands: seq<CommandRow>)
    requires DistinctKeys(commands)
    ensures DistinctKeys(FilledRows(commands))
    ensures forall i :: 0 <= i < |FilledRows(commands)| ==> KeyTaken(commands, FilledRows(commands)[i].key)
  {
    if commands != [] {
      var front, row := commands[..|commands| - 1], commands[|commands| - 1];
      FilledKeysDistinct(front);
      assert !KeyTaken(front, row.key);
      assert commands[|commands| - 1].key == row.key;
      forall i | 0 <= i < |FilledRows(commands)|
        ensures KeyTaken(commands, FilledRows(commands)[i].key)
      {
        if i < |FilledRows(front)| {
          var k :| 0 <= k < |front| && front[k].key == FilledRows(front)[i].key;
          assert commands[k].key == FilledRows(commands)[i].key;
        }
      }
    }
  }

  // ---------------------------------------------------------------- reconciliation along runs

  /** The open rows of the account are exactly those of the dictionary. */
  lemma {:induction false} ServerMapEntries(positions: seq<PositionRow>, account: string)
    requires forall i :: 0 <= i < |positions| ==>
               positions[i].ticket == FIRST_COUNTER + 1 + i && positions[i].status == "OPEN"
    ensures forall i :: 0 <= i < |positions| ==>
              (positions[i].ticket in ServerMap(positions, account) <==> positions[i].account == account)
    ensures forall i :: 0 <= i < |positions| && positions[i].account == account ==>
              ServerMap(positions, account)[positions[i].ticket] ==
              Reconciliation.ServerPosition(Some(positions[i].side), Some(positions[i].lots), None)
    ensures forall t :: t in ServerMap(positions, account) ==> FIRST_COUNTER < t <= FIRST_COUNTER + |positions|
  {
    if positions != [] {
      ServerMapEntries(positions[..|positions| - 1], account);
    }
  }

  ghost predicate HoldsForeign(sim: SimState, account: string)
  {
    exists t :: t in sim.positions && sim.positions[t].account != account
  }

  /** A broker position matches its own row, and is an orphan to every other account. */
  lemma ComparesByAccount(w: World, account: string, t: int)
    requires Consistent(w) && t in w.sim.positions
    ensures Reconciliation.Compare(ServerMap(w.db.positions, account), w.sim.positions[t]) ==
            if w.sim.positions[t].account == account then Reconciliation.Match else Reconciliation.Orphan
  {
    ServerMapEntries(w.db.positions, account);
    var i := t - FIRST_COUNTER - 1;
    assert SamePosition(w.db.positions[i], w.sim.positions[t]);
  }

  lemma OpenPositionsAre(sim: SimState)
    ensures forall p :: p in OpenPositions(sim) <==> exists t :: t in sim.positions && sim.positions[t] == p
  {
    var tickets := Ascending(sim.positions.Keys);
    forall p | exists t :: t in sim.positions && sim.positions[t] == p
      ensures p in OpenPositions(sim)
    {
      var t :| t in sim.positions && sim.positions[t] == p;
      assert t in tickets;
      var i :| 0 <= i < |tickets| && tickets[i] == t;
      assert OpenPositions(sim)[i] == p;
    }
    forall p | p in OpenPositions(sim)
      ensures exists t :: t in sim.positions && sim.positions[t] == p
    {
      var i :| 0 <= i < |tickets| && OpenPositions(sim)[i] == p;
      ListedKey(tickets, sim.positions.Keys, i);
      assert sim.positions[tickets[i]] == p;
    }
  }

  lemma TrackedMeansOwn(w: World, account: string)
    requires Consistent(w)
    ensures Reconciliation.AllTracked(ServerMap(w.db.positions, account), OpenPositions(w.sim)) <==>
            !HoldsForeign(w.sim, account)
  {
    var server, broker := ServerMap(w.db.positions, account), OpenPositions(w.sim);
    OpenPositionsAre(w.sim);
    if HoldsForeign(w.sim, account) {
      var t :| t in w.sim.positions && w.sim.positions[t].account != account;
      ComparesByAccount(w, account, t);
      assert w.sim.positions[t] in broker;
      var i :| 0 <= i < |broker| && broker[i] == w.sim.positions[t];
      assert Reconciliation.Compare(server, broker[i]) != Reconciliation.Match;
    } else {
      forall i | 0 <= i < |broker|
        ensures Reconciliation.Compare(server, broker[i]) == Reconciliation.Match
      {
        assert broker[i] in broker;
        var t :| t in w.sim.positions && w.sim.positions[t] == broker[i];
        ComparesByAccount(w, account, t);
      }
    }
  }

  /**
   * Along every run an account's reconciliation is critical exactly if the simulator also holds
   * another account's position; otherwise it is clean.
   */
  lemma CriticalMeansSharedSimulator(bid: real, ask: real, steps: seq<Step>, desk: Desk)
    ensures var p := RunSteps(Origin(bid, ask), steps);
            && (Reconciled(p.Seen(desk), desk.account).HasCritical() <==> HoldsForeign(p.sim, desk.account))
            && (Reconciled(p.Seen(desk), desk.account).isClean <==> !HoldsForeign(p.sim, desk.account))
  {
    var p := RunSteps(Origin(bid, ask), steps);
    AlwaysConsistent(bid, ask, steps);
    TrackedMeansOwn(p.Seen(desk), desk.account);
    ServiceCleanMeaning(p.db, desk.account, OpenPositions(p.sim));
  }

  ghost predicate OnlyOf(steps: seq<Step>, account: string)
  {
    forall i :: 0 <= i < |steps| ==> steps[i].desk.account == account
  }

  ghost predicate NothingFrozen(p: Platform) { forall d :: d in p.frozen ==> p.frozen[d] == map[] }

  /** With a simulator of its own every position is the account's own and none of its pipelines ever freezes. */
  lemma {:induction false} PrivateSimulatorNeverFreezes(bid: real, ask: real, steps: seq<Step>, account: string)
    requires OnlyOf(steps, account)
    ensures var p := RunSteps(Origin(bid, ask), steps); NothingFrozen(p) && !HoldsForeign(p.sim, account)
  {
    if steps != [] {
      var front, s := steps[..|steps| - 1], steps[|steps| - 1];
      PrivateSimulatorNeverFreezes(bid, ask, front, account);
      AlwaysConsistent(bid, ask, front);
      OwnStepKeepsOwn(RunSteps(Origin(bid, ask), front), s);
    }
  }

  lemma OwnStepKeepsOwn(p: Platform, s: Step)
    requires Agree(p.db, p.sim) && NothingFrozen(p) && !HoldsForeign(p.sim, s.desk.account)
    ensures NothingFrozen(Advance(p, s)) && !HoldsForeign(Advance(p, s).sim, s.desk.account)
  {
    if s.Tick? {
      CycleShape(p.Seen(s.desk), s.desk.account, s.arrival);
      if s.arrival.Proposed? {
        OwnTickKeepsOwn(p.Seen(s.desk), s.desk.account, s.arrival.p);
      }
    }
  }

  lemma OwnTickKeepsOwn(w: World, account: string, p: Proposal)
    requires Consistent(w) && w.frozen == map[] && !HoldsForeign(w.sim, account)
    ensures var w' := ExecuteProposal(w, account, p).1; w'.frozen == map[] && !HoldsForeign(w'.sim, account)
  {
    var r := RequestOf(account, p);
    var (outcome, db, sim) := Dispatch(w.db, w.sim, r);
    DispatchKeepsAgreement(w.db, w.sim, r);
    var after := World(db, sim, w.frozen);
    assert !HoldsForeign(sim, account);
    TrackedMeansOwn(after, account);
    ServiceCleanMeaning(db, account, OpenPositions(sim));
  }

  // ---------------------------------------------------------------- sharing a simulator freezes accounts

  /** The pipeline gets as far as executing the proposal. */
  predicate Executes(w: World, account: string, p: Proposal)
  {
    account !in w.frozen && Authorized(RequestOf(account, p)) && !KeyTaken(w.db.commands, KeyOf(RequestOf(account, p)))
  }

  lemma OwnPositionIsNotForeign(sim: SimState, r: Request)
    requires Authorized(r) && Ticketed(sim) && sim.counter >= FIRST_COUNTER
    ensures HoldsForeign(Execute(sim, OrderFor(r), r.price, r.expired).0, r.account) <==> HoldsForeign(sim, r.account)
  {
    var after := Execute(sim, OrderFor(r), r.price, r.expired).0;
    if HoldsForeign(sim, r.account) {
      var t :| t in sim.positions && sim.positions[t].account != r.account;
      assert after.positions[t] == sim.positions[t];
    }
  }

  lemma ConsistentIsTicketed(w: World)
    requires Consistent(w)
    ensures Ticketed(w.sim) && w.sim.counter >= FIRST_COUNTER
  {
    forall t | t in w.sim.positions
      ensures w.sim.positions[t].ticket == t
    {
      var i := t - FIRST_COUNTER - 1;
      assert SamePosition(w.db.positions[i], w.sim.positions[t]);
    }
  }

  lemma ExecutesConcludes(w: World, account: string, p: Proposal)
    requires Executes(w, account, p)
    ensures Cycle(w, account, Proposed(p)) == Concluded(Dispatch(w.db, w.sim, RequestOf(account, p)), w.frozen, account)
  {}

  lemma DispatchedIsShared(db: Database, sim: SimState, r: Request, frozen: map<string, Reason>)
    requires Agree(db, sim) && Authorized(r) && !KeyTaken(db.commands, KeyOf(r))
    ensures var d := Dispatch(db, sim, r);
            && d.0.Executed? && Agree(d.1, d.2)
            && (HoldsForeign(d.2, r.account) <==> HoldsForeign(sim, r.account))
  {
    DispatchShape(db, sim, r);
    DispatchKeepsAgreement(db, sim, r);
    ConsistentIsTicketed(World(db, sim, frozen));
    OwnPositionIsNotForeign(sim, r);
  }

  /**
   * An executed proposal, filled or expired, freezes its account if and only if the simulator already
   * held another account's position.
   */
  lemma FreezesExactlyWhenShared(w: World, account: string, p: Proposal)
    requires Consistent(w) && Executes(w, account, p)
    ensures account in Cycle(w, account, Proposed(p)).1.frozen <==> HoldsForeign(w.sim, account)
  {
    var d := Dispatch(w.db, w.sim, RequestOf(account, p));
    var result := ReconcileAccount(d.1, account, OpenPositions(d.2));
    ExecutesConcludes(w, account, p);
    DispatchedIsShared(w.db, w.sim, RequestOf(account, p), w.frozen);
    ExecutedShape(d, w.frozen, account, result);
    FreezeOnShape(World(d.1, d.2, w.frozen), account, result);
    TrackedMeansOwn(World(d.1, d.2, w.frozen), account);
    ServiceCleanMeaning(d.1, account, OpenPositions(d.2));
  }

  /** What a filled proposal leaves behind: one more command and a position that is foreign to all others. */
  lemma FilledProposal(w: World, account: string, p: Proposal, other: string, key: string)
    requires Consistent(w) && Executes(w, account, p) && !p.expired
    ensures var after := Cycle(w, account, Proposed(p)).1;
            && (other != account ==> HoldsForeign(after.sim, other) && (other in after.frozen <==> other in w.frozen))
            && (KeyTaken(after.db.commands, key) ==> KeyTaken(w.db.commands, key) || key == KeyOf(RequestOf(account, p)))
  {
    var r := RequestOf(account, p);
    var d := Dispatch(w.db, w.sim, r);
    ExecutesConcludes(w, account, p);
    ConcludedShape(d, w.frozen, account);
    DispatchShape(w.db, w.sim, r);
    assert d.2.positions[w.sim.counter + 1].account == account;
    TakenAfterAppend(w.db.commands, NewRow(r), key);
  }

  lemma TakenAfterAppend(commands: seq<CommandRow>, row: CommandRow, key: string)
    ensures KeyTaken(commands + [row], key) ==> KeyTaken(commands, key) || key == row.key
  {
    if KeyTaken(commands + [row], key) {
      var i :| 0 <= i < |commands + [row]| && (commands + [row])[i].key == key;
      assert i < |commands| ==> commands[i].key == key;
    }
  }

  /** An approved BUY of a tenth of a lot. */
  function SampleProposal(signalId: string): Proposal
  {
    Proposal(signalId, "XAUUSD", Buy, None, None, RiskEngine.Decision(RiskEngine.Approved, RiskEngine.AllChecksPassed, Some(0.1)),
             2000.0, 2000.2, "command " + signalId, false)
  }

  function SampleKey(account: string, signalId: string): string { "exec_" + account + "_" + signalId }

  const DESK_A := Desk("A", "XAUUSD")
  const DESK_B := Desk("B", "XAUUSD")

  function SampleTick(desk: Desk, signalId: string): Step { Tick(desk, Proposed(SampleProposal(signalId))) }

  lemma SampleExecutes(w: World, account: string, signalId: string)
    requires account !in w.frozen && !KeyTaken(w.db.commands, SampleKey(account, signalId))
    ensures Executes(w, account, SampleProposal(signalId))
    ensures KeyOf(RequestOf(account, SampleProposal(signalId))) == SampleKey(account, signalId)
  {
    assert |SampleKey(account, signalId)| > 0;
  }

  /** A sample trade keeps agreement, leaves a position foreign to all others, and takes no key but its own. */
  lemma SampleTrade(p: Platform, desk: Desk, signalId: string, other: string, key: string)
    requires Agree(p.db, p.sim) && !p.Frozen(desk) && !KeyTaken(p.db.commands, SampleKey(desk.account, signalId))
    ensures var after := Advance(p, SampleTick(desk, signalId));
            && Agree(after.db, after.sim)
            && (after.Frozen(desk) <==> HoldsForeign(p.sim, desk.account))
            && (other != desk.account ==> HoldsForeign(after.sim, other))
            && (KeyTaken(after.db.commands, key) ==> KeyTaken(p.db.commands, key) || key == SampleKey(desk.account, signalId))
  {
    SampleExecutes(p.Seen(desk), desk.account, signalId);
    AdvanceKeepsAgreement(p, SampleTick(desk, signalId));
    FreezesExactlyWhenShared(p.Seen(desk), desk.account, SampleProposal(signalId));
    FilledProposal(p.Seen(desk), desk.account, SampleProposal(signalId), other, key);
  }

  lemma SampleKeysDiffer()
    ensures SampleKey("A", "1") != SampleKey("B", "2") && SampleKey("A", "1") != SampleKey("A", "3")
    ensures SampleKey("B", "2") != SampleKey("A", "3")
  {
    assert SampleKey("A", "1")[5] == 'A' && SampleKey("B", "2")[5] == 'B' && SampleKey("A", "3")[5] == 'A';
    assert SampleKey("A", "1")[7] == '1' && SampleKey("A", "3")[7] == '3';
  }

  /** The first account to fill on a new simulator goes on trading. */
  lemma FirstAccountTrades(bid: real, ask: real)
    ensures var p := Advance(Origin(bid, ask), SampleTick(DESK_A, "1"));
            && Agree(p.db, p.sim) && !p.Frozen(DESK_A) && !p.Frozen(DESK_B) && HoldsForeign(p.sim, "B")
            && !KeyTaken(p.db.commands, SampleKey("B", "2")) && !KeyTaken(p.db.commands, SampleKey("A", "3"))
  {
    SampleKeysDiffer();
    SampleTrade(Origin(bid, ask), DESK_A, "1", "B", SampleKey("B", "2"));
    SampleTrade(Origin(bid, ask), DESK_A, "1", "B", SampleKey("A", "3"));
    FreezeStaysAtItsDesk(Origin(bid, ask), SampleTick(DESK_A, "1"), DESK_B);
  }

  /** The second account to fill is frozen by its own trade. */
  lemma SecondAccountFreezes(p: Platform)
    requires Agree(p.db, p.sim) && !p.Frozen(DESK_A) && !p.Frozen(DESK_B) && HoldsForeign(p.sim, "B")
    requires !KeyTaken(p.db.commands, SampleKey("B", "2")) && !KeyTaken(p.db.commands, SampleKey("A", "3"))
    ensures var p' := Advance(p, SampleTick(DESK_B, "2"));
            && Agree(p'.db, p'.sim) && p'.Frozen(DESK_B) && !p'.Frozen(DESK_A) && HoldsForeign(p'.sim, "A")
            && !KeyTaken(p'.db.commands, SampleKey("A", "3"))
  {
    SampleKeysDiffer();
    SampleTrade(p, DESK_B, "2", "A", SampleKey("A", "3"));
    FreezeStaysAtItsDesk(p, SampleTick(DESK_B, "2"), DESK_A);
  }

  /** Two accounts on one new simulator freeze each other: the second on its first fill, the first on its next. */
  lemma AccountsFreezeEachOther(bid: real, ask: real)
    ensures var first, second, third := SampleTick(DESK_A, "1"), SampleTick(DESK_B, "2"), SampleTick(DESK_A, "3");
            var o := Origin(bid, ask);
            && !RunSteps(o, [first]).Frozen(DESK_A) && !RunSteps(o, [first]).Frozen(DESK_B)
            && RunSteps(o, [first, second]).Frozen(DESK_B) && !RunSteps(o, [first, second]).Frozen(DESK_A)
            && RunSteps(o, [first, second, third]).Frozen(DESK_A) && RunSteps(o, [first, second, third]).Frozen(DESK_B)
  {
    var o := Origin(bid, ask);
    var a, b, c := SampleTick(DESK_A, "1"), SampleTick(DESK_B, "2"), SampleTick(DESK_A, "3");
    var p1 := Advance(o, a);
    var p2 := Advance(p1, b);
    FirstAccountTrades(bid, ask);
    SecondAccountFreezes(p1);
    SampleTrade(p2, DESK_A, "3", "B", "");
    FreezeStaysAtItsDesk(p2, c, DESK_B);
    ThreeSteps(o, a, b, c);
  }

  lemma ThreeSteps(w: Platform, a: Step, b: Step, c: Step)
    ensures RunSteps(w, [a]) == Advance(w, a)
    ensures RunSteps(w, [a, b]) == Advance(Advance(w, a), b)
    ensures RunSteps(w, [a, b, c]) == Advance(Advance(Advance(w, a), b), c)
  {
    assert [a, b, c][..2] == [a, b] && [a, b][..1] == [a] && [a][..0] == [];
    assert RunSteps(w, []) == w && RunSteps(w, [a]) == Advance(w, a);
  }
}

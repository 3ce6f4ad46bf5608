/** From an approved signal to a command, a simulated fill and the rows that record it. */
module ExecutionService {
  import opened Prelude
  import opened Scoring
  import RiskEngine
  import opened Commands
  import opened Simulator
  import Reconciliation

  datatype CommandRow = CommandRow(id: string, account: string, key: string, side: Side, lots: real, status: CommandState)

  datatype ReportRow = ReportRow(
    account: string, commandId: string, key: Option<string>, ticket: Option<int>, status: ExecutionStatus,
    lots: Option<real>, price: Option<real>)

  datatype PositionRow = PositionRow(
    account: string, commandId: string, ticket: int, symbol: string, side: Side, lots: real, openPrice: real,
    status: string)

  datatype Database = Database(commands: seq<CommandRow>, reports: seq<ReportRow>, positions: seq<PositionRow>)

  /** A signal with its risk decision; `commandId` is the UUID drawn for it, `expired` the clock's verdict. */
  datatype Request = Request(
    account: string, symbol: string, side: Side, stopLoss: Option<real>, takeProfit: Option<real>,
    decision: RiskEngine.Decision, price: Option<real>, key: Option<string>, commandId: string, expired: bool)

  /** Conflict: the position row violated the (account, ticket) constraint and the transaction rolled back. */
  datatype Outcome = Refused | Duplicate | Conflict | Executed(report: ReportRow)

  predicate Authorized(r: Request)
  {
    r.decision.verdict == RiskEngine.Approved && r.decision.lots.Some? && r.decision.lots.value > 0.0
  }

  /** A missing or empty key is derived from the account and the command. */
  function KeyOf(r: Request): string
  {
    if r.key.Some? && r.key.value != "" then r.key.value else "cmd_" + r.account + "_" + r.commandId
  }

  predicate KeyTaken(commands: seq<CommandRow>, key: string)
  {
    exists i :: 0 <= i < |commands| && commands[i].key == key
  }

  predicate TicketTaken(positions: seq<PositionRow>, account: string, ticket: int)
  {
    exists i :: 0 <= i < |positions| && positions[i].account == account && positions[i].ticket == ticket
  }

  function OrderFor(r: Request): Order
    requires Authorized(r)
  {
    Order(r.commandId, r.account, OrderOpen, r.symbol, r.side, r.decision.lots.value, r.stopLoss, r.takeProfit, None)
  }

  function FinalState(status: ExecutionStatus): CommandState
  {
    match status
    case FillDone => Filled
    case FillExpired => Expired
    case FillRejected => Rejected
  }

  function ReportFor(r: Request, rep: ExecutionReport): ReportRow
  {
    ReportRow(r.account, r.commandId, r.key, rep.ticket, rep.status, rep.lots, rep.price)
  }

  /** The position a fill opens; zero or missing report values fall back as Python's `or` does. */
  function NewPositions(r: Request, rep: ExecutionReport): seq<PositionRow>
    requires Authorized(r)
  {
    if rep.status == FillDone && rep.ticket.Some? && rep.ticket.value != 0 then
      [PositionRow(r.account, r.commandId, rep.ticket.value, r.symbol, r.side,
                   OrElse(rep.lots, r.decision.lots.value), OrElse(rep.price, OrElse(r.price, 2000.0)), "OPEN")]
    else []
  }

  /** execute_approved_signal as one committed transaction, with the simulator it talks to. */
  function Dispatch(db: Database, s: SimState, r: Request): (Outcome, Database, SimState)
  {
    if !Authorized(r) then (Refused, db, s)
    else if KeyTaken(db.commands, KeyOf(r)) then (Duplicate, db, s)
    else
      var (s', rep) := Execute(s, OrderFor(r), r.price, r.expired);
      var row := CommandRow(r.commandId, r.account, KeyOf(r), r.side, r.decision.lots.value, FinalState(rep.status));
      var added := NewPositions(r, rep);
      if added != [] && TicketTaken(db.positions, r.account, added[0].ticket) then (Conflict, db, s')
      else (Executed(ReportFor(r, rep)),
            Database(db.commands + [row], db.reports + [ReportFor(r, rep)], db.positions + added), s')
  }

  // ---------------------------------------------------------------- the service

  /** The tables a session writes to. */
  class Session {
    var commands: seq<CommandRow>
    var reports: seq<ReportRow>
    var positions: seq<PositionRow>

    function View(): Database
      reads this
    {
      Database(commands, reports, positions)
    }

    constructor ()
      ensures View() == Database([], [], [])
    {
      commands, reports, positions := [], [], [];
    }
  }

  class Service {
    const simulator: MT5AgentSimulator

    constructor (simulator: MT5AgentSimulator)
      ensures this.simulator == simulator
    {
      this.simulator := simulator;
    }

    /** Walks the in-memory command to the state the report calls for; `path` records every state it took. */
    method Conclude(command: ExecutionCommand, status: ExecutionStatus, now: int, ghost before: seq<CommandState>)
      returns (final: CommandState, ghost path: seq<CommandState>)
      requires LegalPath(before) && before[|before| - 1] == command.state == Sent
      modifies command
      ensures final == FinalState(status) == command.state
      ensures LegalPath(path) && path[|path| - 1] == final && before <= path
    {
      path := before;
      var ok;
      match status
      case FillDone =>
        ok := command.TransitionTo(Acknowledged, None, now);
        path := path + [command.state];
        ok := command.TransitionTo(Executing, None, now);
        path := path + [command.state];
        ok := command.TransitionTo(Filled, None, now);
        path := path + [command.state];
        final := Filled;
      case FillExpired =>
        ok := command.TransitionTo(Expired, None, now);
        path := path + [command.state];
        final := Expired;
      case FillRejected =>
        ok := command.TransitionTo(Rejected, None, now);
        path := path + [command.state];
        final := Rejected;
    }

    /** Creates the command in memory, sends it to the simulator and walks it to the state the report calls for. */
    method RunCommand(r: Request, now: int)
      returns (report: ExecutionReport, final: CommandState, ghost path: seq<CommandState>)
      requires Authorized(r)
      modifies simulator
      ensures (simulator.State(), report) == Execute(old(simulator.State()), OrderFor(r), r.price, r.expired)
      ensures final == FinalState(report.status) && LegalPath(path) && path[|path| - 1] == final
    {
      var command := new ExecutionCommand(r.commandId, r.account, OrderOpen, r.symbol, r.side, r.decision.lots.value,
                                          r.stopLoss, r.takeProfit, None);
      path := [command.state];
      var ok := command.TransitionTo(Sent, None, now);
      path := path + [command.state];
      report := simulator.ExecuteCommand(command, r.price, r.expired);
      final, path := Conclude(command, report.status, now, path);
    }

    /** The stored status always follows the in-memory command, which only makes legal transitions. */
    method ExecuteApprovedSignal(session: Session, r: Request, now: int)
      returns (outcome: Outcome, ghost path: seq<CommandState>)
      modifies session, simulator
      ensures (outcome, session.View(), simulator.State()) == Dispatch(old(session.View()), old(simulator.State()), r)
      ensures outcome.Executed? ==>
                LegalPath(path) && |session.commands| == |old(session.commands)| + 1 &&
                path[|path| - 1] == session.commands[|session.commands| - 1].status
    {
      path := [];
      if r.decision.verdict != RiskEngine.Approved {
        return Refused, path;
      }
      if r.decision.lots.None? || r.decision.lots.value <= 0.0 {
        return Refused, path;
      }
      var key := KeyOf(r);
      if KeyTaken(session.commands, key) {
        return Duplicate, path;
      }
      var report, final;
      report, final, path := RunCommand(r, now);
      var added := NewPositions(r, report);
      if added != [] && TicketTaken(session.positions, r.account, added[0].ticket) {
        return Conflict, path;
      }
      session.commands := session.commands + [CommandRow(r.commandId, r.account, key, r.side, r.decision.lots.value, final)];
      session.reports := session.reports + [ReportFor(r, report)];
      session.positions := session.positions + added;
      outcome := Executed(ReportFor(r, report));
    }

    /** Compares the account's open rows with what the broker reports. */
    method ReconcileAccountPositions(session: Session, account: string, broker: seq<PositionReport>)
      returns (result: Reconciliation.Result)
      ensures result == ReconcileAccount(session.View(), account, broker)
    {
      var server: map<int, Reconciliation.ServerPosition> := map[];
      for i := 0 to |session.positions|
        invariant server == ServerMap(session.positions[..i], account)
      {
        var p := session.positions[i];
        assert session.positions[..i + 1][..i] == session.positions[..i];
        if p.account == account && p.status == "OPEN" {
          server := server[p.ticket := Reconciliation.ServerPosition(Some(p.side), Some(p.lots), None)];
        }
      }
      assert session.positions[..|session.positions|] == session.positions;
      result := Reconciliation.Reconcile(account, server, broker);
    }
  }

  /** The dictionary handed to the reconciliation engine carries no status. */
  function ServerMap(positions: seq<PositionRow>, account: string): map<int, Reconciliation.ServerPosition>
  {
    if positions == [] then map[]
    else
      var front, p := ServerMap(positions[..|positions| - 1], account), positions[|positions| - 1];
      if p.account == account && p.status == "OPEN"
      then front[p.ticket := Reconciliation.ServerPosition(Some(p.side), Some(p.lots), None)] else front
  }

  function ReconcileAccount(db: Database, account: string, broker: seq<PositionReport>): Reconciliation.Result
  {
    Reconciliation.Outcome(account, ServerMap(db.positions, account), broker)
  }

  // ---------------------------------------------------------------- what this path cannot see

  lemma {:induction false} ServerMapHasNoStatus(positions: seq<PositionRow>, account: string)
    ensures forall t :: t in ServerMap(positions, account) ==> ServerMap(positions, account)[t].status.None?
  {
    if positions != [] {
      ServerMapHasNoStatus(positions[..|positions| - 1], account);
    }
  }

  /**
   * Through the service a reconciliation is clean exactly if every position the broker reports is
   * tracked: an OPEN row the broker no longer has is never reported.
   */
  lemma ServiceCleanMeaning(db: Database, account: string, broker: seq<PositionReport>)
    ensures ReconcileAccount(db, account, broker).isClean <==>
            Reconciliation.AllTracked(ServerMap(db.positions, account), broker)
    ensures !ReconcileAccount(db, account, broker).isClean <==> ReconcileAccount(db, account, broker).HasCritical()
  {
    ServerMapHasNoStatus(db.positions, account);
    Reconciliation.NoStatusNoPhantom(account, ServerMap(db.positions, account), broker);
    Reconciliation.VerdictMeaning(account, ServerMap(db.positions, account), broker);
  }

  /** One OPEN row and an empty broker: the engine would report a phantom, the service sees a clean account. */
  lemma PhantomUnseen()
    ensures var db := Database([], [], [PositionRow("A", "c", 1000001, "XAUUSD", Buy, 0.1, 2000.0, "OPEN")]);
            ReconcileAccount(db, "A", []).isClean
    ensures var server := map[1000001 := Reconciliation.ServerPosition(Some(Buy), Some(0.1), Some("OPEN"))];
            !Reconciliation.Outcome("A", server, []).isClean
  {
    var db := Database([], [], [PositionRow("A", "c", 1000001, "XAUUSD", Buy, 0.1, 2000.0, "OPEN")]);
    ServiceCleanMeaning(db, "A", []);
    var server := map[1000001 := Reconciliation.ServerPosition(Some(Buy), Some(0.1), Some("OPEN"))];
    Reconciliation.VerdictMeaning("A", server, []);
    assert Reconciliation.IsPhantom(server, Reconciliation.Tickets([]), 1000001);
  }
}

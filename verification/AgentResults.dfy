/** What an agent's result message does to the commands, the execution reports and the positions. */
module AgentResults {
  import opened Prelude
  import opened AgentCommands

  /** A JSON entry that should hold a ticket. */
  datatype Raw = Absent | Number(n: int) | Garbage
  {
    /** Python truthiness. */
    predicate Truthy() { Garbage? || (Number? && n != 0) }
  }

  datatype ResultData = ResultData(
    positionTicket: Raw, orderTicket: Raw, price: Option<real>, volume: Option<real>, side: Option<string>,
    text: Option<string>)

  /** A result message: COMPLETED or anything else, with what it reports. */
  datatype Message = Message(completed: bool, data: ResultData, error: Option<string>)

  datatype PositionStatus = Open | Closed

  datatype Position = Position(
    account: string, ticket: int, side: string, lots: real, openPrice: real, status: PositionStatus,
    closePrice: Option<real>)

  /** The stored row leaves its command empty; the command is kept here to count reports per command. */
  datatype Report = Report(command: int, filled: bool, ticket: Option<int>)

  datatype State = State(commands: Table, positions: seq<Position>, reports: seq<Report>)

  /** Crashed: int() on a malformed payload ticket raised, and the transaction rolled back. */
  datatype Answer = Recorded | Refused(error: Error) | Crashed

  // ---------------------------------------------------------------- reading the message

  /** The position ticket if it is truthy, else the order ticket; malformed entries count as missing. */
  function BrokerTicket(d: ResultData): Option<int>
  {
    var raw := if d.positionTicket.Truthy() then d.positionTicket else d.orderTicket;
    if raw.Number? then Some(raw.n) else None
  }

  predicate Names(ticket: Option<int>) { ticket.Some? && ticket.value != 0 }

  // ---------------------------------------------------------------- positions

  predicate IsAt(p: Position, account: string, ticket: int) { p.account == account && p.ticket == ticket }

  /** Index of the account's row for a ticket, or the length if there is none. */
  function FindPosition(ps: seq<Position>, account: string, ticket: int): (i: nat)
    ensures i <= |ps|
    ensures i < |ps| ==> IsAt(ps[i], account, ticket)
    ensures i == |ps| ==> forall j :: 0 <= j < |ps| ==> !IsAt(ps[j], account, ticket)
  {
    if ps == [] then 0
    else
      var i := FindPosition(ps[..|ps| - 1], account, ticket);
      if i < |ps| - 1 then i
      else if IsAt(ps[|ps| - 1], account, ticket) then |ps| - 1
      else |ps|
  }

  /** A row that already exists, open or closed, is left alone. */
  function OpenPosition(ps: seq<Position>, account: string, ticket: int, d: ResultData): seq<Position>
  {
    if FindPosition(ps, account, ticket) < |ps| then ps
    else ps + [Position(account, ticket, if d.side.Some? then d.side.value else "BUY", OrElse(d.volume, 0.01),
                        OrElse(d.price, 0.0), Open, None)]
  }

  /** Closes the row if it is open; a missing or zero price leaves the close price empty. */
  function ClosePosition(ps: seq<Position>, account: string, ticket: int, price: Option<real>): seq<Position>
  {
    var i := FindPosition(ps, account, ticket);
    if i < |ps| && ps[i].status == Open then
      ps[i := ps[i].(status := Closed, closePrice := if price.Some? && price.value != 0.0 then price else ps[i].closePrice)]
    else ps
  }

  /** The ticket a close targets: the reported one, else the one in the command's payload. */
  function CloseTarget(d: ResultData, payloadTicket: Raw): Raw
  {
    if Names(BrokerTicket(d)) then Number(BrokerTicket(d).value) else payloadTicket
  }

  predicate CloseCrashes(d: ResultData, payloadTicket: Raw) { CloseTarget(d, payloadTicket).Garbage? }

  function UpdatePositions(ps: seq<Position>, account: string, kind: string, m: Message, payloadTicket: Raw): seq<Position>
  {
    if !m.completed then ps
    else if kind == "OPEN_POSITION" && Names(BrokerTicket(m.data)) then
      OpenPosition(ps, account, BrokerTicket(m.data).value, m.data)
    else if kind == "CLOSE_POSITION" then
      var target := CloseTarget(m.data, payloadTicket);
      if target.Number? && target.n != 0 then ClosePosition(ps, account, target.n, m.data.price) else ps
    else ps
  }

  // ---------------------------------------------------------------- the whole transaction

  predicate Trades(kind: string) { kind == "OPEN_POSITION" || kind == "CLOSE_POSITION" }

  /** record_agent_execution_result for a command that has just been completed or failed. */
  function Record(s: State, account: string, id: int, m: Message, payloadTicket: Raw): State
    requires id in s.commands
  {
    var kind := s.commands[id].kind;
    if !Trades(kind) then s
    else s.(positions := UpdatePositions(s.positions, account, kind, m, payloadTicket),
            reports := s.reports + [Report(id, m.completed, BrokerTicket(m.data))])
  }

  /** The command's transition and the records belong to one transaction. */
  function HandleResult(s: State, agent: string, account: Option<string>, id: int, m: Message, payloadTicket: Raw,
                        now: int): (Answer, State)
  {
    var (r, commands) := if m.completed then Complete(s.commands, agent, id, m.data.text, now)
                         else Fail(s.commands, agent, id, m.error, now);
    if r.Rejected? then (Refused(r.error), s)
    else if account.None? then (Recorded, s.(commands := commands))
    else if m.completed && s.commands[id].kind == "CLOSE_POSITION" && CloseCrashes(m.data, payloadTicket) then
      (Crashed, s)
    else (Recorded, Record(s.(commands := commands), account.value, id, m, payloadTicket))
  }

  class ResultHandler {
    const queue: Queue
    var positions: seq<Position>
    var reports: seq<Report>

    function View(): State
      reads this, queue
    {
      State(queue.rows, positions, reports)
    }

    constructor (queue: Queue)
      ensures this.queue == queue && positions == [] && reports == []
    {
      this.queue, positions, reports := queue, [], [];
    }

    /** What record_agent_execution_result adds; `kind` is the type of the command just updated. */
    method RecordExecutionResult(account: string, id: int, kind: string, m: Message, payloadTicket: Raw)
      requires kind == "CLOSE_POSITION" && m.completed ==> !CloseCrashes(m.data, payloadTicket)
      modifies this
      ensures Trades(kind) ==>
                positions == UpdatePositions(old(positions), account, kind, m, payloadTicket) &&
                reports == old(reports) + [Report(id, m.completed, BrokerTicket(m.data))]
      ensures !Trades(kind) ==> unchanged(this)
    {
      if kind != "OPEN_POSITION" && kind != "CLOSE_POSITION" {
        return;
      }
      var ticket := BrokerTicket(m.data);
      reports := reports + [Report(id, m.completed, ticket)];
      if m.completed && kind == "OPEN_POSITION" && Names(ticket) {
        var i := FindPosition(positions, account, ticket.value);
        if i == |positions| {
          var side := if m.data.side.Some? then m.data.side.value else "BUY";
          positions := positions + [Position(account, ticket.value, side, OrElse(m.data.volume, 0.01),
                                             OrElse(m.data.price, 0.0), Open, None)];
        }
      } else if m.completed && kind == "CLOSE_POSITION" {
        var target := if Names(ticket) then Number(ticket.value) else payloadTicket;
        if target.Number? && target.n != 0 {
          var i := FindPosition(positions, account, target.n);
          if i < |positions| && positions[i].status == Open {
            var row := positions[i].(status := Closed);
            if m.data.price.Some? && m.data.price.value != 0.0 {
              row := row.(closePrice := m.data.price);
            }
            positions := positions[i := row];
          }
        }
      }
    }

    method HandleResultMessage(agent: string, account: Option<string>, id: int, m: Message, payloadTicket: Raw, now: int)
      returns (answer: Answer)
      modifies this, queue
      ensures (answer, View()) == HandleResult(old(View()), agent, account, id, m, payloadTicket, now)
    {
      if Owns(queue.rows, agent, id) && Allowed(queue.rows[id].status, if m.completed then Completed else Failed) &&
         account.Some? && m.completed && queue.rows[id].kind == "CLOSE_POSITION" && CloseCrashes(m.data, payloadTicket) {
        return Crashed;
      }
      var r;
      if m.completed {
        r := queue.CompleteCommand(agent, id, m.data.text, now);
      } else {
        r := queue.FailCommand(agent, id, m.error, now);
      }
      if r.Rejected? {
        return Refused(r.error);
      }
      if account.Some? {
        RecordExecutionResult(account.value, id, queue.rows[id].kind, m, payloadTicket);
      }
      answer := Recorded;
    }
  }

  // ---------------------------------------------------------------- what one result means for the positions

  /** The account's row for a ticket, if there is one. */
  function RowOf(ps: seq<Position>, account: string, ticket: int): Option<Position>
  {
    var i := FindPosition(ps, account, ticket);
    if i < |ps| then Some(ps[i]) else None
  }

  lemma FindAppend(ps: seq<Position>, p: Position, account: string, ticket: int)
    ensures FindPosition(ps + [p], account, ticket) ==
            if FindPosition(ps, account, ticket) < |ps| then FindPosition(ps, account, ticket)
            else if IsAt(p, account, ticket) then |ps| else |ps| + 1
  {
    assert (ps + [p])[..|ps|] == ps;
  }

  lemma {:induction false} FindKeepsIndex(ps: seq<Position>, qs: seq<Position>, account: string, ticket: int)
    requires |ps| == |qs|
    requires forall i :: 0 <= i < |ps| ==> ps[i].account == qs[i].account && ps[i].ticket == qs[i].ticket
    ensures FindPosition(ps, account, ticket) == FindPosition(qs, account, ticket)
  {
    if ps != [] {
      FindKeepsIndex(ps[..|ps| - 1], qs[..|qs| - 1], account, ticket);
    }
  }

  /** A filled open adds the reported position if its ticket is new to the account, and touches no other row. */
  lemma OpenResultMeaning(ps: seq<Position>, account: string, ticket: int, d: ResultData, a: string, t: int)
    ensures RowOf(OpenPosition(ps, account, ticket, d), a, t) ==
            if a == account && t == ticket && RowOf(ps, a, t).None? then
              Some(Position(a, t, if d.side.Some? then d.side.value else "BUY", OrElse(d.volume, 0.01),
                            OrElse(d.price, 0.0), Open, None))
            else RowOf(ps, a, t)
  {
    if FindPosition(ps, account, ticket) == |ps| {
      var p := OpenPosition(ps, account, ticket, d)[|ps|];
      FindAppend(ps, p, a, t);
    }
  }

  /** A filled close marks the account's open row for the ticket closed, and touches no other row. */
  lemma CloseResultMeaning(ps: seq<Position>, account: string, ticket: int, price: Option<real>, a: string, t: int)
    ensures var before, after := RowOf(ps, a, t), RowOf(ClosePosition(ps, account, ticket, price), a, t);
            if a == account && t == ticket && before.Some? && before.value.status == Open then
              after.Some? && after.value.status == Closed &&
              after.value.(status := Open, closePrice := before.value.closePrice) == before.value &&
              (price.Some? && price.value != 0.0 ==> after.value.closePrice == price)
            else after == before
  {
    FindKeepsIndex(ps, ClosePosition(ps, account, ticket, price), a, t);
  }
}

/** Safety of the agent command protocol under every interleaving of its transactions. */
module AgentProtocol {
  import opened Prelude
  import opened AgentCommands
  import opened AgentResults

  const CLAIM_LIMIT := 10

  /** One committed transaction. */
  datatype Step =
    | Create(id: int, agent: string, kind: string, payload: Option<string>, now: int)
    | Claim(agent: string, ids: seq<int>, now: int)
    | RevertDelivery(id: int)
    | Dispatch(agent: string, id: int, now: int)
    | Ack(agent: string, id: int, now: int)
    | Result(agent: string, account: Option<string>, id: int, m: Message, payloadTicket: Raw, now: int)

  /** UUIDs are new, a claim takes what the query returns, and mark_sent is called on pending commands only. */
  ghost predicate Enabled(s: State, step: Step)
  {
    match step
    case Create(id, _, kind, _, _) => id !in s.commands && Upper(kind) in SUPPORTED_COMMAND_TYPES
    case Claim(agent, ids, _) => IsOldestPending(s.commands, agent, CLAIM_LIMIT, ids)
    case Dispatch(agent, id, _) => Claimable(s.commands, agent, id)
    case _ => true
  }

  ghost function Apply(s: State, step: Step): State
  {
    if !Enabled(s, step) then s
    else
      match step
      case Create(id, agent, kind, payload, now) => s.(commands := s.commands[id := NewCommand(agent, kind, payload, now)])
      case Claim(_, ids, now) => s.(commands := Claimed(s.commands, ids, now))
      case RevertDelivery(id) => s.(commands := Reverted(s.commands, id))
      case Dispatch(_, id, now) => s.(commands := s.commands[id := SentRow(s.commands[id], now)])
      case Ack(agent, id, now) => s.(commands := Acknowledge(s.commands, agent, id, now).1)
      case Result(agent, account, id, m, payloadTicket, now) =>
        HandleResult(s, agent, account, id, m, payloadTicket, now).1
  }

  ghost function Play(s: State, steps: seq<Step>): State
  {
    if steps == [] then s else Apply(Play(s, steps[..|steps| - 1]), steps[|steps| - 1])
  }

  const EMPTY := State(map[], [], [])

  predicate Terminal(status: Status) { status in {Completed, Failed, Expired} }

  // ---------------------------------------------------------------- one step

  /** What one step may do to a status: a move of the table, or the revert of a failed delivery. */
  ghost predicate LegalMove(step: Step, id: int, before: Status, after: Status)
  {
    || before == after
    || Allowed(before, after)
    || (step == RevertDelivery(id) && before == Sent && after == Pending)
  }

  /** On the commands a result is a completion, a failure, or nothing. */
  lemma ResultCommands(s: State, agent: string, account: Option<string>, id: int, m: Message, payloadTicket: Raw, now: int)
    ensures var after := HandleResult(s, agent, account, id, m, payloadTicket, now).1.commands;
            || after == s.commands || after == Complete(s.commands, agent, id, m.data.text, now).1
            || after == Fail(s.commands, agent, id, m.error, now).1
  {}

  /** Statuses only move along the table or back from SENT to PENDING on a revert; rows never vanish. */
  lemma StepIsLegal(s: State, step: Step, id: int)
    requires id in s.commands
    ensures id in Apply(s, step).commands
    ensures LegalMove(step, id, s.commands[id].status, Apply(s, step).commands[id].status)
    ensures s.commands[id].agent == Apply(s, step).commands[id].agent
    ensures s.commands[id].kind == Apply(s, step).commands[id].kind
  {
    if step.Result? {
      ResultCommands(s, step.agent, step.account, step.id, step.m, step.payloadTicket, step.now);
    }
  }

  lemma TerminalStep(s: State, step: Step, id: int)
    requires id in s.commands && Terminal(s.commands[id].status)
    ensures id in Apply(s, step).commands && Apply(s, step).commands[id] == s.commands[id]
  {
    if step.Result? {
      ResultCommands(s, step.agent, step.account, step.id, step.m, step.payloadTicket, step.now);
    }
  }

  /** A finished command's row never changes again: its result, error and times are final. */
  lemma {:induction false} TerminalIsFinal(s: State, steps: seq<Step>, id: int)
    requires id in s.commands && Terminal(s.commands[id].status)
    ensures id in Play(s, steps).commands && Play(s, steps).commands[id] == s.commands[id]
  {
    if steps != [] {
      TerminalIsFinal(s, steps[..|steps| - 1], id);
      TerminalStep(Play(s, steps[..|steps| - 1]), steps[|steps| - 1], id);
    }
  }

  // ---------------------------------------------------------------- claimed once per revert

  ghost predicate NeverReverts(steps: seq<Step>, id: int)
  {
    forall i :: 0 <= i < |steps| ==> steps[i] != RevertDelivery(id)
  }

  /** Once claimed or dispatched, a command is offered again only after its delivery was reverted. */
  lemma {:induction false} ClaimedOncePerRevert(s: State, steps: seq<Step>, id: int)
    requires id in s.commands && s.commands[id].status != Pending && NeverReverts(steps, id)
    ensures id in Play(s, steps).commands && Play(s, steps).commands[id].status != Pending
    ensures forall agent, ids :: IsOldestPending(Play(s, steps).commands, agent, CLAIM_LIMIT, ids) ==> id !in ids
  {
    if steps != [] {
      ClaimedOncePerRevert(s, steps[..|steps| - 1], id);
      StepIsLegal(Play(s, steps[..|steps| - 1]), steps[|steps| - 1], id);
    }
  }

  ghost predicate Concerns(step: Step, id: int)
  {
    match step
    case RevertDelivery(other) => other == id
    case Ack(_, other, _) => other == id
    case Result(_, _, other, _, _, _) => other == id
    case _ => false
  }

  ghost predicate Unmentioned(steps: seq<Step>, id: int)
  {
    forall i :: 0 <= i < |steps| ==> !Concerns(steps[i], id)
  }

  lemma UnmentionedStep(s: State, step: Step, id: int)
    requires id in s.commands && s.commands[id].status == Sent && !Concerns(step, id)
    ensures id in Apply(s, step).commands && Apply(s, step).commands[id] == s.commands[id]
  {}

  /**
   * A command claimed but never sent, because an earlier send of the same delivery failed, stays SENT
   * for good: no claim, dispatch or other command's traffic moves it.
   */
  lemma {:induction false} UnsentCommandsStay(s: State, steps: seq<Step>, id: int)
    requires id in s.commands && s.commands[id].status == Sent && Unmentioned(steps, id)
    ensures id in Play(s, steps).commands && Play(s, steps).commands[id] == s.commands[id]
  {
    if steps != [] {
      UnsentCommandsStay(s, steps[..|steps| - 1], id);
      UnmentionedStep(Play(s, steps[..|steps| - 1]), steps[|steps| - 1], id);
    }
  }

  // ---------------------------------------------------------------- one report per command

  ghost predicate DistinctReports(reports: seq<Report>)
  {
    forall i, j :: 0 <= i < j < |reports| ==> reports[i].command != reports[j].command
  }

  /** A report belongs to a finished command, filled exactly if it completed. */
  ghost predicate ReportsFinished(s: State)
  {
    forall i :: 0 <= i < |s.reports| ==>
      var r := s.reports[i];
      r.command in s.commands && s.commands[r.command].status == if r.filled then Completed else Failed
  }

  lemma KeepsReports(s: State, step: Step)
    requires ReportsFinished(s) && Apply(s, step).reports == s.reports
    ensures ReportsFinished(Apply(s, step))
  {
    forall i | 0 <= i < |s.reports|
      ensures Apply(s, step).commands.Keys >= {s.reports[i].command} &&
              Apply(s, step).commands[s.reports[i].command] == s.commands[s.reports[i].command]
    {
      TerminalStep(s, step, s.reports[i].command);
    }
  }

  lemma AddsReport(s: State, agent: string, account: Option<string>, id: int, m: Message, payloadTicket: Raw, now: int)
    requires DistinctReports(s.reports) && ReportsFinished(s)
    ensures var s' := HandleResult(s, agent, account, id, m, payloadTicket, now).1;
            DistinctReports(s'.reports) && ReportsFinished(s')
  {
    var s' := HandleResult(s, agent, account, id, m, payloadTicket, now).1;
    if s'.commands != s.commands {
      assert id in s.commands && !Terminal(s.commands[id].status);
      forall i | 0 <= i < |s.reports|
        ensures s.reports[i].command != id && s'.reports[i] == s.reports[i]
      {
        assert s.reports[i].command in s.commands;
      }
    }
  }

  /** At most one result is ever recorded for a command, under every interleaving. */
  lemma {:induction false} OneReportPerCommand(steps: seq<Step>)
    ensures DistinctReports(Play(EMPTY, steps).reports) && ReportsFinished(Play(EMPTY, steps))
  {
    if steps != [] {
      OneReportPerCommand(steps[..|steps| - 1]);
      var s, step := Play(EMPTY, steps[..|steps| - 1]), steps[|steps| - 1];
      if step.Result? {
        AddsReport(s, step.agent, step.account, step.id, step.m, step.payloadTicket, step.now);
      } else {
        KeepsReports(s, step);
      }
    }
  }

  // ---------------------------------------------------------------- positions

  ghost predicate UniquePositions(ps: seq<Position>)
  {
    forall i, j :: 0 <= i < j < |ps| ==> !(ps[i].account == ps[j].account && ps[i].ticket == ps[j].ticket)
  }

  /** Rows keep their identity and terms; a closed row does not change at all. */
  ghost predicate Evolves(ps: seq<Position>, qs: seq<Position>)
  {
    |ps| <= |qs| &&
    forall i {:trigger qs[i]} :: 0 <= i < |ps| ==>
      && qs[i].account == ps[i].account && qs[i].ticket == ps[i].ticket && qs[i].side == ps[i].side
      && qs[i].lots == ps[i].lots && qs[i].openPrice == ps[i].openPrice
      && (ps[i].status == Closed ==> qs[i] == ps[i])
  }

  lemma OpenEvolves(ps: seq<Position>, account: string, ticket: int, d: ResultData)
    requires UniquePositions(ps)
    ensures UniquePositions(OpenPosition(ps, account, ticket, d)) && Evolves(ps, OpenPosition(ps, account, ticket, d))
  {}

  lemma CloseEvolves(ps: seq<Position>, account: string, ticket: int, price: Option<real>)
    requires UniquePositions(ps)
    ensures UniquePositions(ClosePosition(ps, account, ticket, price))
    ensures Evolves(ps, ClosePosition(ps, account, ticket, price))
  {}

  lemma UpdateEvolves(ps: seq<Position>, account: string, kind: string, m: Message, payloadTicket: Raw)
    requires UniquePositions(ps)
    ensures var qs := UpdatePositions(ps, account, kind, m, payloadTicket); UniquePositions(qs) && Evolves(ps, qs)
  {
    if m.completed && kind == "OPEN_POSITION" && Names(BrokerTicket(m.data)) {
      OpenEvolves(ps, account, BrokerTicket(m.data).value, m.data);
    } else if m.completed && kind == "CLOSE_POSITION" {
      var target := CloseTarget(m.data, payloadTicket);
      if target.Number? && target.n != 0 {
        CloseEvolves(ps, account, target.n, m.data.price);
      }
    }
  }

  lemma StepEvolves(s: State, step: Step)
    requires UniquePositions(s.positions)
    ensures UniquePositions(Apply(s, step).positions) && Evolves(s.positions, Apply(s, step).positions)
  {
    if step.Result? && step.id in s.commands && step.account.Some? {
      UpdateEvolves(s.positions, step.account.value, s.commands[step.id].kind, step.m, step.payloadTicket);
    }
  }

  lemma EvolvesTransitive(a: seq<Position>, b: seq<Position>, c: seq<Position>)
    requires Evolves(a, b) && Evolves(b, c)
    ensures Evolves(a, c)
  {}

  /**
   * Along every run no account has two rows for one ticket, no row is lost or rewritten, and a closed
   * position never opens again.
   */
  lemma {:induction false} PositionsEvolve(s: State, steps: seq<Step>)
    requires UniquePositions(s.positions)
    ensures UniquePositions(Play(s, steps).positions) && Evolves(s.positions, Play(s, steps).positions)
  {
    if steps != [] {
      var before := Play(s, steps[..|steps| - 1]);
      PositionsEvolve(s, steps[..|steps| - 1]);
      StepEvolves(before, steps[|steps| - 1]);
      EvolvesTransitive(s.positions, before.positions, Play(s, steps).positions);
    }
  }

  // ---------------------------------------------------------------- delivery

  /**
   * A delivery that stops at a failed send leaves the failing command to be claimed again and every
   * command claimed after it stuck in SENT.
   */
  lemma FailedDeliveryStrandsTheRest(t: Table, agent: string, ids: seq<int>, failed: nat, now: int)
    requires IsOldestPending(t, agent, CLAIM_LIMIT, ids) && failed < |ids|
    ensures var after := Reverted(Claimed(t, ids, now), ids[failed]);
            && Claimable(after, agent, ids[failed])
            && forall i :: 0 <= i < |ids| && i != failed ==> ids[i] in after && after[ids[i]].status == Sent
  {
    var claimed := Claimed(t, ids, now);
    assert ids[failed] in ids;
    forall i | 0 <= i < |ids| && i != failed
      ensures ids[i] != ids[failed] && ids[i] in claimed && claimed[ids[i]].status == Sent
    {
      assert ids[i] in ids && Claimable(t, agent, ids[i]);
    }
  }
}

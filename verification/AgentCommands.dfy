/** The queue of commands for MT5 agents: one table, one method per transaction. */
module AgentCommands {
  import opened Prelude

  datatype Status = Pending | Sent | Acknowledged | Completed | Failed | Expired

  const SUPPORTED_COMMAND_TYPES := {"PING", "GET_STATUS", "OPEN_POSITION", "CLOSE_POSITION"}

  const VALID_TRANSITIONS: map<Status, set<Status>> := map[
    Pending := {Sent, Failed, Expired},
    Sent := {Acknowledged, Completed, Failed, Expired},
    Acknowledged := {Completed, Failed},
    Completed := {},
    Failed := {},
    Expired := {}
  ]

  predicate Allowed(from: Status, to: Status)
  {
    from in VALID_TRANSITIONS && to in VALID_TRANSITIONS[from]
  }

  /** `result` and `error` hold what the agent reported. */
  datatype Command = Command(
    agent: string, kind: string, createdAt: int, status: Status, payload: Option<string>,
    result: Option<string>, error: Option<string>,
    sentAt: Option<int>, acknowledgedAt: Option<int>, completedAt: Option<int>)

  /** Keyed by the command's UUID. */
  type Table = map<int, Command>

  datatype Error = InvalidCommandType | CommandNotFound | InvalidStateTransition

  datatype Response = Done | Rejected(error: Error)

  /** ASCII upper case. */
  function Upper(s: string): string
  {
    seq(|s|, i requires 0 <= i < |s| => if 'a' <= s[i] <= 'z' then s[i] - 32 as char else s[i])
  }

  function NewCommand(agent: string, kind: string, payload: Option<string>, now: int): Command
  {
    Command(agent, Upper(kind), now, Pending, payload, None, None, None, None, None)
  }

  /** get_command: a command of another agent is as good as absent. */
  predicate Owns(t: Table, agent: string, id: int) { id in t && t[id].agent == agent }

  // ---------------------------------------------------------------- one transition

  /** What a guarded transition does: refuse, or update the row. */
  function Transition(t: Table, agent: string, id: int, to: Status, updated: Command -> Command): (Response, Table)
  {
    if !Owns(t, agent, id) then (Rejected(CommandNotFound), t)
    else if !Allowed(t[id].status, to) then (Rejected(InvalidStateTransition), t)
    else (Done, t[id := updated(t[id])])
  }

  function Acknowledge(t: Table, agent: string, id: int, now: int): (Response, Table)
  {
    Transition(t, agent, id, Acknowledged, (c: Command) => c.(status := Acknowledged, acknowledgedAt := Some(now)))
  }

  /** A missing result leaves the column as it was. */
  function Complete(t: Table, agent: string, id: int, result: Option<string>, now: int): (Response, Table)
  {
    Transition(t, agent, id, Completed,
               (c: Command) => c.(status := Completed, completedAt := Some(now),
                                  result := if result.Some? then result else c.result))
  }

  /** An empty message is not recorded, a long one is cut to 500 characters. */
  function ErrorColumn(message: Option<string>, before: Option<string>): Option<string>
  {
    if message.Some? && message.value != "" then
      Some(if |message.value| > 500 then message.value[..500] else message.value)
    else before
  }

  function Fail(t: Table, agent: string, id: int, message: Option<string>, now: int): (Response, Table)
  {
    Transition(t, agent, id, Failed,
               (c: Command) => c.(status := Failed, completedAt := Some(now), error := ErrorColumn(message, c.error)))
  }

  function SentRow(c: Command, now: int): Command { c.(status := Sent, sentAt := Some(now)) }

  /** Marking is a move of the table on a pending command only. */
  lemma MarkingIsLegal(c: Command, now: int)
    ensures Allowed(c.status, SentRow(c, now).status) <==> c.status == Pending
  {}

  /** A marked command can be completed whatever it was before, even completed or failed. */
  lemma MarkingReopens(t: Table, agent: string, id: int, result: Option<string>, now: int)
    requires Owns(t, agent, id)
    ensures Complete(t, agent, id, result, now).0 == Done <==> t[id].status in {Sent, Acknowledged}
    ensures Complete(t[id := SentRow(t[id], now)], agent, id, result, now).0 == Done
  {
    assert Allowed(Sent, Completed);
    assert Allowed(Acknowledged, Completed);
  }

  // ---------------------------------------------------------------- claiming

  predicate Claimable(t: Table, agent: string, id: int)
  {
    Owns(t, agent, id) && t[id].status == Pending
  }

  /** Oldest first, no repetition, at most `limit`, and nothing claimable left out that is older or fits. */
  ghost predicate IsOldestPending(t: Table, agent: string, limit: nat, ids: seq<int>)
  {
    && |ids| <= limit
    && (forall i :: 0 <= i < |ids| ==> Claimable(t, agent, ids[i]))
    && (forall i, j :: 0 <= i < j < |ids| ==> ids[i] != ids[j] && t[ids[i]].createdAt <= t[ids[j]].createdAt)
    && (forall id :: Claimable(t, agent, id) && id !in ids ==>
          |ids| == limit && forall i :: 0 <= i < |ids| ==> t[ids[i]].createdAt <= t[id].createdAt)
  }

  /** The first n of the ids have been marked. */
  function Claimed(t: Table, ids: seq<int>, now: int): Table
  {
    map id | id in t :: if id in ids then SentRow(t[id], now) else t[id]
  }

  lemma {:induction false} OldestExists(t: Table, s: set<int>)
    requires s != {} && forall k :: k in s ==> k in t
    ensures exists k :: k in s && forall j :: j in s ==> t[k].createdAt <= t[j].createdAt
  {
    if forall x :: x !in s {
      assert false;
    }
    var x :| x in s;
    var rest := s - {x};
    if rest == {} {
      assert s == {x};
    } else {
      OldestExists(t, rest);
      var k :| k in rest && forall j :: j in rest ==> t[k].createdAt <= t[j].createdAt;
      var m := if t[x].createdAt < t[k].createdAt then x else k;
      forall j | j in s ensures t[m].createdAt <= t[j].createdAt {
        assert j == x || j in rest;
      }
    }
  }

  function ClaimableIds(t: Table, agent: string): set<int>
  {
    set id | id in t && Claimable(t, agent, id)
  }

  /** The candidates are what the ids so far leave over, and none is older than any of them. */
  ghost predicate Selecting(t: Table, agent: string, ids: seq<int>, rest: set<int>)
  {
    && (forall i :: 0 <= i < |ids| ==> Claimable(t, agent, ids[i]) && ids[i] !in rest)
    && (forall i, j :: 0 <= i < j < |ids| ==> ids[i] != ids[j] && t[ids[i]].createdAt <= t[ids[j]].createdAt)
    && (forall id :: id in rest <==> Claimable(t, agent, id) && id !in ids)
    && (forall i, id :: 0 <= i < |ids| && id in rest ==> t[ids[i]].createdAt <= t[id].createdAt)
  }

  lemma SelectingStep(t: Table, agent: string, ids: seq<int>, rest: set<int>, k: int)
    requires Selecting(t, agent, ids, rest) && k in rest
    requires forall j :: j in rest ==> t[k].createdAt <= t[j].createdAt
    ensures Selecting(t, agent, ids + [k], rest - {k})
  {
    forall id
      ensures id in rest - {k} <==> Claimable(t, agent, id) && id !in ids + [k]
    {
      assert id in ids + [k] <==> id in ids || id == k;
    }
  }

  /** The query: this agent's pending commands, oldest first; ties in any order. */
  method SelectPending(t: Table, agent: string, limit: nat) returns (ids: seq<int>)
    ensures IsOldestPending(t, agent, limit, ids)
  {
    ids := [];
    var rest := ClaimableIds(t, agent);
    while |ids| < limit && rest != {}
      invariant Selecting(t, agent, ids, rest) && |ids| <= limit
      decreases limit - |ids|
    {
      OldestExists(t, rest);
      var k :| k in rest && forall j :: j in rest ==> t[k].createdAt <= t[j].createdAt;
      SelectingStep(t, agent, ids, rest, k);
      ids, rest := ids + [k], rest - {k};
    }
  }

  class Queue {
    var rows: Table

    constructor ()
      ensures rows == map[]
    {
      rows := map[];
    }

    /** `id` is the UUID drawn for the command. */
    method CreateCommand(id: int, agent: string, kind: string, payload: Option<string>, now: int) returns (r: Response)
      requires id !in rows
      modifies this
      ensures r == if Upper(kind) in SUPPORTED_COMMAND_TYPES then Done else Rejected(InvalidCommandType)
      ensures rows == if r.Done? then old(rows)[id := NewCommand(agent, kind, payload, now)] else old(rows)
    {
      var upper := Upper(kind);
      if upper !in SUPPORTED_COMMAND_TYPES {
        return Rejected(InvalidCommandType);
      }
      rows := rows[id := Command(agent, upper, now, Pending, payload, None, None, None, None, None)];
      r := Done;
    }

    method ClaimPendingCommands(agent: string, limit: nat, now: int) returns (ids: seq<int>)
      modifies this
      ensures IsOldestPending(old(rows), agent, limit, ids)
      ensures rows == Claimed(old(rows), ids, now)
    {
      ids := SelectPending(rows, agent, limit);
      ghost var before := rows;
      for i := 0 to |ids|
        invariant rows == Claimed(before, ids[..i], now)
      {
        assert ids[..i + 1] == ids[..i] + [ids[i]];
        assert ids[i] in before && ids[i] !in ids[..i];
        rows := rows[ids[i] := rows[ids[i]].(status := Sent, sentAt := Some(now))];
      }
      assert ids[..|ids|] == ids;
    }

    /** Marks an own command of any status; see MarkingReopens. */
    method MarkSent(agent: string, id: int, now: int) returns (r: Response)
      modifies this
      ensures r == if Owns(old(rows), agent, id) then Done else Rejected(CommandNotFound)
      ensures rows == if r.Done? then old(rows)[id := SentRow(old(rows)[id], now)] else old(rows)
    {
      if !Owns(rows, agent, id) {
        return Rejected(CommandNotFound);
      }
      rows := rows[id := rows[id].(status := Sent, sentAt := Some(now))];
      r := Done;
    }

    method AcknowledgeCommand(agent: string, id: int, now: int) returns (r: Response)
      modifies this
      ensures (r, rows) == Acknowledge(old(rows), agent, id, now)
    {
      if !Owns(rows, agent, id) {
        return Rejected(CommandNotFound);
      }
      if !Allowed(rows[id].status, Acknowledged) {
        return Rejected(InvalidStateTransition);
      }
      rows := rows[id := rows[id].(status := Acknowledged, acknowledgedAt := Some(now))];
      r := Done;
    }

    method CompleteCommand(agent: string, id: int, result: Option<string>, now: int) returns (r: Response)
      modifies this
      ensures (r, rows) == Complete(old(rows), agent, id, result, now)
    {
      if !Owns(rows, agent, id) {
        return Rejected(CommandNotFound);
      }
      if !Allowed(rows[id].status, Completed) {
        return Rejected(InvalidStateTransition);
      }
      var row := rows[id].(status := Completed, completedAt := Some(now));
      if result.Some? {
        row := row.(result := result);
      }
      rows := rows[id := row];
      r := Done;
    }

    method FailCommand(agent: string, id: int, message: Option<string>, now: int) returns (r: Response)
      modifies this
      ensures (r, rows) == Fail(old(rows), agent, id, message, now)
    {
      if !Owns(rows, agent, id) {
        return Rejected(CommandNotFound);
      }
      if !Allowed(rows[id].status, Failed) {
        return Rejected(InvalidStateTransition);
      }
      var row := rows[id].(status := Failed, completedAt := Some(now));
      if message.Some? && message.value != "" {
        row := row.(error := Some(if |message.value| > 500 then message.value[..500] else message.value));
      }
      rows := rows[id := row];
      r := Done;
    }

    /** Undoes a claim whose delivery failed, unless the command has moved on. */
    method Revert(id: int)
      modifies this
      ensures rows == Reverted(old(rows), id)
    {
      if id in rows && rows[id].status == Sent {
        rows := rows[id := rows[id].(status := Pending, sentAt := None)];
      }
    }

    /**
     * Claims, then sends one by one until a send fails; `sends` says which sends succeed. The failing
     * command goes back to PENDING, the ones claimed after it stay SENT without having been sent.
     */
    method DeliverPendingCommands(agent: string, sends: seq<bool>, now: int) returns (claimed: seq<int>, delivered: nat)
      requires |sends| >= 10
      modifies this
      ensures IsOldestPending(old(rows), agent, 10, claimed)
      ensures delivered <= |claimed| && (forall i :: 0 <= i < delivered ==> sends[i])
      ensures delivered == |claimed| ==> rows == Claimed(old(rows), claimed, now)
      ensures delivered < |claimed| ==>
                !sends[delivered] && rows == Reverted(Claimed(old(rows), claimed, now), claimed[delivered])
    {
      claimed := ClaimPendingCommands(agent, 10, now);
      delivered := 0;
      for i := 0 to |claimed|
        invariant delivered == i && rows == Claimed(old(rows), claimed, now)
        invariant forall j :: 0 <= j < i ==> sends[j]
      {
        if !sends[i] {
          Revert(claimed[i]);
          return;
        }
        delivered := delivered + 1;
      }
    }
  }

  function Reverted(t: Table, id: int): Table
  {
    if id in t && t[id].status == Sent then t[id := t[id].(status := Pending, sentAt := None)] else t
  }
}

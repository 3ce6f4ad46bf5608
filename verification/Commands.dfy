/** Execution commands and their lifecycle. */
module Commands {
  import opened Prelude
  import opened Scoring

  datatype CommandAction = OrderOpen | OrderClose | BasketClose | PositionModify

  datatype CommandState =
    | Created | Sent | Acknowledged | Executing | Filled | PartiallyFilled | Rejected | Expired | Reconciled

  const VALID_TRANSITIONS: map<CommandState, set<CommandState>> := map[
    Created := {Sent, Expired, Rejected},
    Sent := {Acknowledged, Expired, Rejected},
    Acknowledged := {Executing, Expired, Rejected},
    Executing := {Filled, PartiallyFilled, Rejected, Expired},
    Filled := {Reconciled},
    PartiallyFilled := {Filled, Reconciled},
    Rejected := {},
    Expired := {},
    Reconciled := {}
  ]

  predicate Allowed(from: CommandState, to: CommandState)
  {
    from in VALID_TRANSITIONS && to in VALID_TRANSITIONS[from]
  }

  class ExecutionCommand {
    const id: string
    const account: string
    const action: CommandAction
    const symbol: string
    const side: Side
    const lots: real
    const stopLoss: Option<real>
    const takeProfit: Option<real>
    const positionTicket: Option<int>
    var state: CommandState
    var rejectionReason: Option<string>
    var sentAt: Option<int>
    var acknowledgedAt: Option<int>

    constructor (id: string, account: string, action: CommandAction, symbol: string, side: Side, lots: real,
                 stopLoss: Option<real>, takeProfit: Option<real>, positionTicket: Option<int>)
      ensures this.id == id && this.account == account && this.action == action && this.symbol == symbol
      ensures this.side == side && this.lots == lots && this.stopLoss == stopLoss && this.takeProfit == takeProfit
      ensures this.positionTicket == positionTicket
      ensures state == Created && rejectionReason.None? && sentAt.None? && acknowledgedAt.None?
    {
      this.id, this.account, this.action, this.symbol, this.side := id, account, action, symbol, side;
      this.lots, this.stopLoss, this.takeProfit := lots, stopLoss, takeProfit;
      this.positionTicket := positionTicket;
      state, rejectionReason, sentAt, acknowledgedAt := Created, None, None, None;
    }

    /** A transition outside the table changes nothing; an empty reason is not recorded. */
    method TransitionTo(newState: CommandState, reason: Option<string>, now: int) returns (ok: bool)
      modifies this
      ensures ok <==> Allowed(old(state), newState)
      ensures !ok ==> unchanged(this)
      ensures ok ==> state == newState
      ensures ok ==> rejectionReason == if reason.Some? && reason.value != "" then reason else old(rejectionReason)
      ensures ok ==> sentAt == if newState == Sent then Some(now) else old(sentAt)
      ensures ok ==> acknowledgedAt == if newState == Acknowledged then Some(now) else old(acknowledgedAt)
    {
      var allowed := if state in VALID_TRANSITIONS then VALID_TRANSITIONS[state] else {};
      if newState !in allowed {
        return false;
      }
      state := newState;
      if reason.Some? && reason.value != "" {
        rejectionReason := reason;
      }
      if newState == Sent {
        sentAt := Some(now);
      } else if newState == Acknowledged {
        acknowledgedAt := Some(now);
      }
      return true;
    }
  }

  // ---------------------------------------------------------------- every life of a command

  /** The states a command went through, in order, each step allowed by the table. */
  ghost predicate LegalPath(path: seq<CommandState>)
  {
    path != [] && path[0] == Created && forall i :: 0 < i < |path| ==> Allowed(path[i - 1], path[i])
  }

  function Stage(s: CommandState): nat
  {
    match s
    case Created => 0
    case Sent => 1
    case Acknowledged => 2
    case Executing => 3
    case PartiallyFilled => 4
    case Filled => 5
    case _ => 6
  }

  lemma TransitionsAdvance(from: CommandState, to: CommandState)
    requires Allowed(from, to)
    ensures Stage(from) < Stage(to)
  {}

  lemma {:induction false} StagesIncrease(path: seq<CommandState>, i: nat, j: nat)
    requires LegalPath(path) && i < j < |path|
    ensures Stage(path[i]) + (j - i) <= Stage(path[j])
    decreases j
  {
    TransitionsAdvance(path[j - 1], path[j]);
    if i < j - 1 {
      StagesIncrease(path, i, j - 1);
    }
  }

  /** No state is entered twice, so a command makes at most six transitions. */
  lemma LivesAreShort(path: seq<CommandState>)
    requires LegalPath(path)
    ensures |path| <= 7
    ensures forall i, j :: 0 <= i < j < |path| ==> path[i] != path[j]
  {
    if |path| > 1 {
      StagesIncrease(path, 0, |path| - 1);
    }
    forall i, j | 0 <= i < j < |path|
      ensures path[i] != path[j]
    {
      StagesIncrease(path, i, j);
    }
  }

  /** A command that filled was sent, acknowledged and executing first, in that order. */
  lemma FilledWasExecuted(path: seq<CommandState>)
    requires LegalPath(path) && path[|path| - 1] in {Filled, PartiallyFilled}
    ensures |path| >= 5 && path[..4] == [Created, Sent, Acknowledged, Executing]
  {
    var n := |path| - 1;
    StagesIncrease(path, 0, n);
    assert Allowed(path[n - 1], path[n]);
    Prefix(path, n);
  }

  /** Before it fills, a command goes through the first states one by one. */
  lemma {:induction false} Prefix(path: seq<CommandState>, n: nat)
    requires LegalPath(path) && n < |path|
    ensures Stage(path[n]) <= 3 ==> n == Stage(path[n])
    ensures Stage(path[n]) <= 5 ==> forall i :: 0 <= i <= n && i <= 3 ==> Stage(path[i]) == i
    ensures path[n] in {Filled, PartiallyFilled} ==> n >= 4
    decreases n
  {
    if n > 0 {
      assert Allowed(path[n - 1], path[n]);
      Prefix(path, n - 1);
    }
  }

  /** Nothing leaves REJECTED, EXPIRED or RECONCILED; FILLED counts as terminal but may still be reconciled. */
  lemma Absorbing(from: CommandState)
    ensures (forall to :: !Allowed(from, to)) <==> from in {Rejected, Expired, Reconciled}
    ensures from == Filled ==> forall to :: Allowed(from, to) <==> to == Reconciled
  {
    assert Allowed(Created, Sent) && Allowed(Sent, Acknowledged) && Allowed(Acknowledged, Executing);
    assert Allowed(Executing, Filled) && Allowed(Filled, Reconciled) && Allowed(PartiallyFilled, Filled);
  }
}

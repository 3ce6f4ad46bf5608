/** When the ticket constraint fails a transaction: a new simulator on a database that already holds positions. */
module TicketConflicts {
  import opened Simulator
  import opened ExecutionService
  import opened TradingPipeline

  /**
   * A dispatch fails on the constraint if and only if it gets as far as a fill whose ticket the account
   * already has; then the database stays as it was while the simulator keeps the position.
   */
  lemma ConflictExactly(db: Database, sim: SimState, r: Request)
    ensures Dispatch(db, sim, r).0.Conflict? <==>
            && Authorized(r) && !KeyTaken(db.commands, KeyOf(r)) && !r.expired
            && sim.counter + 1 != 0 && TicketTaken(db.positions, r.account, sim.counter + 1)
    ensures Dispatch(db, sim, r).0.Conflict? ==>
              Dispatch(db, sim, r).1 == db && Dispatch(db, sim, r).2.counter == sim.counter + 1 &&
              sim.counter + 1 in Dispatch(db, sim, r).2.positions
  {}

  /** The same for a whole cycle of a pipeline that executes. */
  lemma FailsExactly(w: World, account: string, p: Proposal)
    requires Executes(w, account, p)
    ensures Cycle(w, account, Proposed(p)).0 == TransactionFailed <==>
            !p.expired && w.sim.counter + 1 != 0 && TicketTaken(w.db.positions, account, w.sim.counter + 1)
    ensures Cycle(w, account, Proposed(p)).0 == TransactionFailed ==>
              Cycle(w, account, Proposed(p)).1 ==
              World(w.db, Execute(w.sim, OrderFor(RequestOf(account, p)), RequestOf(account, p).price, false).0, w.frozen)
  {
    ExecutesConcludes(w, account, p);
    ConflictExactly(w.db, w.sim, RequestOf(account, p));
    ConcludedShape(Dispatch(w.db, w.sim, RequestOf(account, p)), w.frozen, account);
  }

  // ---------------------------------------------------------------- after a restart

  /** A new process on the same database: simulator and freezes start afresh. */
  function Restarted(p: Platform, bid: real, ask: real): Platform { Platform(p.db, NewSimulator(bid, ask), map[]) }

  /** Proposals that pass every gate and would fill. */
  ghost predicate Fillable(db: Database, account: string, ps: seq<Proposal>)
  {
    forall i :: 0 <= i < |ps| ==>
      Authorized(RequestOf(account, ps[i])) && !ps[i].expired && !KeyTaken(db.commands, KeyOf(RequestOf(account, ps[i])))
  }

  function TicksOf(desk: Desk, ps: seq<Proposal>): seq<Step>
  {
    seq(|ps|, i requires 0 <= i < |ps| => Tick(desk, Proposed(ps[i])))
  }

  ghost predicate OwnRows(positions: seq<PositionRow>, account: string)
  {
    forall i :: 0 <= i < |positions| ==> positions[i].account == account && positions[i].ticket == FIRST_COUNTER + 1 + i
  }

  /** The tickets drawn after the restart are taken as long as there are rows. */
  lemma TakenByRows(positions: seq<PositionRow>, account: string, k: nat)
    requires OwnRows(positions, account)
    ensures TicketTaken(positions, account, FIRST_COUNTER + k + 1) <==> k < |positions|
  {
    if k < |positions| {
      assert positions[k].ticket == FIRST_COUNTER + k + 1;
    }
  }

  /** After k attempts: nothing recorded, k tickets drawn, the pipeline not frozen. */
  ghost predicate Attempted(p: Platform, q: Platform, desk: Desk, k: nat)
  {
    q.db == p.db && q.sim.counter == FIRST_COUNTER + k && !q.Frozen(desk)
  }

  lemma OneMoreAttempt(p: Platform, q: Platform, desk: Desk, k: nat, proposal: Proposal)
    requires OwnRows(p.db.positions, desk.account) && k < |p.db.positions|
    requires Attempted(p, q, desk, k) && Fillable(p.db, desk.account, [proposal])
    ensures Cycle(q.Seen(desk), desk.account, Proposed(proposal)).0 == TransactionFailed
    ensures Attempted(p, Advance(q, Tick(desk, Proposed(proposal))), desk, k + 1)
  {
    assert [proposal][0] == proposal;
    TakenByRows(p.db.positions, desk.account, k);
    FailsExactly(q.Seen(desk), desk.account, proposal);
  }

  /** While there are rows left, every fill after the restart fails. */
  lemma {:induction false} RestartAttempts(p: Platform, desk: Desk, ps: seq<Proposal>, bid: real, ask: real)
    requires OwnRows(p.db.positions, desk.account)
    requires Fillable(p.db, desk.account, ps) && |ps| <= |p.db.positions|
    ensures Attempted(p, RunSteps(Restarted(p, bid, ask), TicksOf(desk, ps)), desk, |ps|)
  {
    if ps != [] {
      var front, last := ps[..|ps| - 1], ps[|ps| - 1];
      RestartAttempts(p, desk, front, bid, ask);
      assert TicksOf(desk, ps)[..|ps| - 1] == TicksOf(desk, front);
      OneMoreAttempt(p, RunSteps(Restarted(p, bid, ask), TicksOf(desk, front)), desk, |front|, last);
    }
  }

  /**
   * A restart costs an account exactly as many fills as it has positions: one proposal after the other
   * fails and records nothing until all its old tickets have been drawn again, and the next one goes through.
   */
  lemma RestartCostsOneFillPerPosition(p: Platform, desk: Desk, ps: seq<Proposal>, next: Proposal, bid: real, ask: real)
    requires OwnRows(p.db.positions, desk.account) && Fillable(p.db, desk.account, ps + [next])
    requires |ps| <= |p.db.positions|
    ensures var q := RunSteps(Restarted(p, bid, ask), TicksOf(desk, ps));
            && q.db == p.db
            && (Cycle(q.Seen(desk), desk.account, Proposed(next)).0 == TransactionFailed <==> |ps| < |p.db.positions|)
  {
    assert forall i :: 0 <= i < |ps| ==> ps[i] == (ps + [next])[i];
    assert next == (ps + [next])[|ps|];
    RestartAttempts(p, desk, ps, bid, ask);
    TakenByRows(p.db.positions, desk.account, |ps|);
    FailsExactly(RunSteps(Restarted(p, bid, ask), TicksOf(desk, ps)).Seen(desk), desk.account, next);
  }

  // ---------------------------------------------------------------- a run

  /** A fill adds one row, of the account and the next ticket. */
  lemma FillAddsRow(w: World, account: string, p: Proposal)
    requires Consistent(w) && Executes(w, account, p) && !p.expired
    ensures exists row: PositionRow :: row.account == account && row.ticket == w.sim.counter + 1 &&
                          Cycle(w, account, Proposed(p)).1.db.positions == w.db.positions + [row]
  {
    var r := RequestOf(account, p);
    ExecutesConcludes(w, account, p);
    ConcludedShape(Dispatch(w.db, w.sim, r), w.frozen, account);
    DispatchShape(w.db, w.sim, r);
    var row := RowFor(r, OpenedPosition(w.sim, OrderFor(r), r.price));
    assert row.account == account && row.ticket == w.sim.counter + 1;
  }

  /** After one trade the database holds one row, of the first ticket. */
  lemma OneTrade(bid: real, ask: real)
    ensures var p := Advance(Origin(bid, ask), SampleTick(DESK_A, "1"));
            |p.db.positions| == 1 && OwnRows(p.db.positions, "A")
  {
    var w := Origin(bid, ask).Seen(DESK_A);
    SampleExecutes(w, "A", "1");
    FillAddsRow(w, "A", SampleProposal("1"));
  }

  /** One trade, a restart, and the next trade of the account fails. */
  lemma RestartedAccountFails(bid: real, ask: real)
    ensures var p := Restarted(Advance(Origin(bid, ask), SampleTick(DESK_A, "1")), bid, ask);
            Cycle(p.Seen(DESK_A), "A", Proposed(SampleProposal("3"))).0 == TransactionFailed
  {
    var p := Advance(Origin(bid, ask), SampleTick(DESK_A, "1"));
    OneTrade(bid, ask);
    FirstAccountTrades(bid, ask);
    SampleExecutes(p.(frozen := map[]).Seen(DESK_A), "A", "3");
    assert ([] + [SampleProposal("3")])[0] == SampleProposal("3");
    RestartCostsOneFillPerPosition(p, DESK_A, [], SampleProposal("3"), bid, ask);
    assert TicksOf(DESK_A, []) == [];
  }
}

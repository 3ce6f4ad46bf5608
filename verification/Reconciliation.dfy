/** Comparison of server positions with broker positions. */
module Reconciliation {
  import opened Prelude
  import opened Scoring
  import opened Simulator

  /** A server position as a dictionary: any of the three entries may be missing. */
  datatype ServerPosition = ServerPosition(side: Option<Side>, lots: Option<real>, status: Option<string>)

  datatype Kind = Match | Orphan | Phantom | VolumeMismatch | SideMismatch

  datatype Discrepancy = Discrepancy(
    account: string, ticket: int, kind: Kind, serverVolume: Option<real>, brokerVolume: Option<real>)

  datatype Result = Result(account: string, isClean: bool, matchedCount: nat, discrepancies: seq<Discrepancy>)
  {
    predicate HasCritical()
    {
      exists i :: 0 <= i < |discrepancies| && discrepancies[i].kind in {Orphan, VolumeMismatch, SideMismatch}
    }
  }

  /** A missing volume counts as zero. */
  function ServerLots(p: ServerPosition): real { if p.lots.Some? then p.lots.value else 0.0 }

  /** The tests are ordered: volume before side. */
  function Compare(server: map<int, ServerPosition>, bp: PositionReport): Kind
  {
    if bp.ticket !in server then Orphan
    else if ServerLots(server[bp.ticket]) != bp.lots then VolumeMismatch
    else if server[bp.ticket].side != Some(bp.side) then SideMismatch
    else Match
  }

  function BrokerDiscrepancy(account: string, server: map<int, ServerPosition>, bp: PositionReport): Discrepancy
  {
    Discrepancy(account, bp.ticket, Compare(server, bp),
                if bp.ticket in server then Some(ServerLots(server[bp.ticket])) else None, Some(bp.lots))
  }

  function BrokerSide(account: string, server: map<int, ServerPosition>, broker: seq<PositionReport>): seq<Discrepancy>
  {
    if broker == [] then []
    else
      var bp := broker[|broker| - 1];
      BrokerSide(account, server, broker[..|broker| - 1]) +
      (if Compare(server, bp) == Match then [] else [BrokerDiscrepancy(account, server, bp)])
  }

  function Tickets(broker: seq<PositionReport>): set<int>
  {
    set i | 0 <= i < |broker| :: broker[i].ticket
  }

  predicate IsPhantom(server: map<int, ServerPosition>, seen: set<int>, ticket: int)
    requires ticket in server
  {
    ticket !in seen && server[ticket].status == Some("OPEN")
  }

  function ServerSide(account: string, server: map<int, ServerPosition>, seen: set<int>, tickets: seq<int>): seq<Discrepancy>
    requires forall i :: 0 <= i < |tickets| ==> tickets[i] in server
  {
    if tickets == [] then []
    else
      var t := tickets[|tickets| - 1];
      ServerSide(account, server, seen, tickets[..|tickets| - 1]) + Unseen(account, server, seen, t)
  }

  function Unseen(account: string, server: map<int, ServerPosition>, seen: set<int>, t: int): seq<Discrepancy>
    requires t in server
  {
    if IsPhantom(server, seen, t) then [Discrepancy(account, t, Phantom, Some(ServerLots(server[t])), None)] else []
  }

  /** The server dictionary is visited in ticket order. */
  function Visit(server: map<int, ServerPosition>): (tickets: seq<int>)
    ensures forall i :: 0 <= i < |tickets| ==> tickets[i] in server
    ensures forall t :: t in server ==> t in tickets
  {
    var tickets := Ascending(server.Keys);
    assert forall i :: 0 <= i < |tickets| ==> tickets[i] in tickets;
    tickets
  }

  function Outcome(account: string, server: map<int, ServerPosition>, broker: seq<PositionReport>): Result
  {
    var d := BrokerSide(account, server, broker) + ServerSide(account, server, Tickets(broker), Visit(server));
    Result(account, d == [], |broker| - MismatchCount(account, server, broker), d)
  }

  function MismatchCount(account: string, server: map<int, ServerPosition>, broker: seq<PositionReport>): (n: nat)
    ensures n <= |broker|
    ensures n == |BrokerSide(account, server, broker)|
  {
    if broker == [] then 0
    else
      MismatchCount(account, server, broker[..|broker| - 1]) +
      (if Compare(server, broker[|broker| - 1]) == Match then 0 else 1)
  }

  function OneSided(account: string, server: map<int, ServerPosition>, bp: PositionReport): seq<Discrepancy>
  {
    if Compare(server, bp) == Match then [] else [BrokerDiscrepancy(account, server, bp)]
  }

  /** One broker position against the server's record of it. */
  method CheckOne(account: string, server: map<int, ServerPosition>, bp: PositionReport) returns (found: seq<Discrepancy>)
    ensures found == OneSided(account, server, bp)
  {
    found := [];
    if bp.ticket !in server {
      found := [Discrepancy(account, bp.ticket, Orphan, None, Some(bp.lots))];
    } else {
      var sp := server[bp.ticket];
      var lots := if sp.lots.Some? then sp.lots.value else 0.0;
      if lots != bp.lots {
        found := [Discrepancy(account, bp.ticket, VolumeMismatch, Some(lots), Some(bp.lots))];
      } else if sp.side != Some(bp.side) {
        found := [Discrepancy(account, bp.ticket, SideMismatch, Some(lots), Some(bp.lots))];
      }
    }
  }

  lemma BrokerSideStep(account: string, server: map<int, ServerPosition>, broker: seq<PositionReport>, i: nat)
    requires i < |broker|
    ensures BrokerSide(account, server, broker[..i + 1]) ==
            BrokerSide(account, server, broker[..i]) + OneSided(account, server, broker[i])
    ensures Tickets(broker[..i + 1]) == Tickets(broker[..i]) + {broker[i].ticket}
  {
    assert broker[..i + 1][..i] == broker[..i] && broker[..i + 1] == broker[..i] + [broker[i]];
    TicketsAppend(broker[..i], broker[i]);
  }

  /** The first loop: broker positions, the tickets seen, and how many match. */
  method CheckBroker(account: string, server: map<int, ServerPosition>, broker: seq<PositionReport>)
    returns (found: seq<Discrepancy>, matched: nat, seen: set<int>)
    ensures found == BrokerSide(account, server, broker)
    ensures matched + |found| == |broker| && seen == Tickets(broker)
  {
    found, matched, seen := [], 0, {};
    for i := 0 to |broker|
      invariant found == BrokerSide(account, server, broker[..i])
      invariant matched + |found| == i
      invariant seen == Tickets(broker[..i])
    {
      BrokerSideStep(account, server, broker, i);
      seen := seen + {broker[i].ticket};
      var one := CheckOne(account, server, broker[i]);
      if one == [] {
        matched := matched + 1;
      }
      found := found + one;
    }
    assert broker[..|broker|] == broker;
  }

  lemma ServerSideStep(account: string, server: map<int, ServerPosition>, seen: set<int>, tickets: seq<int>, i: nat)
    requires i < |tickets| && forall i :: 0 <= i < |tickets| ==> tickets[i] in server
    ensures ServerSide(account, server, seen, tickets[..i + 1]) ==
            ServerSide(account, server, seen, tickets[..i]) + Unseen(account, server, seen, tickets[i])
  {
    assert tickets[..i + 1][..i] == tickets[..i];
  }

  method CheckMissing(account: string, server: map<int, ServerPosition>, seen: set<int>, t: int)
    returns (found: seq<Discrepancy>)
    requires t in server
    ensures found == Unseen(account, server, seen, t)
  {
    found := [];
    if t !in seen && server[t].status == Some("OPEN") {
      var lots := if server[t].lots.Some? then server[t].lots.value else 0.0;
      found := [Discrepancy(account, t, Phantom, Some(lots), None)];
    }
  }

  /** The second loop: server positions marked OPEN that the broker did not report. */
  method CheckServer(account: string, server: map<int, ServerPosition>, seen: set<int>)
    returns (found: seq<Discrepancy>)
    ensures found == ServerSide(account, server, seen, Visit(server))
  {
    found := [];
    var tickets := Visit(server);
    for i := 0 to |tickets|
      invariant found == ServerSide(account, server, seen, tickets[..i])
    {
      ServerSideStep(account, server, seen, tickets, i);
      var one := CheckMissing(account, server, seen, tickets[i]);
      found := found + one;
    }
    assert tickets[..|tickets|] == tickets;
  }

  method Reconcile(account: string, server: map<int, ServerPosition>, broker: seq<PositionReport>)
    returns (result: Result)
    ensures result == Outcome(account, server, broker)
  {
    var discrepancies, matched, seen := CheckBroker(account, server, broker);
    var missing := CheckServer(account, server, seen);
    discrepancies := discrepancies + missing;
    result := Result(account, |discrepancies| == 0, matched, discrepancies);
  }

  lemma TicketsAppend(broker: seq<PositionReport>, bp: PositionReport)
    ensures Tickets(broker + [bp]) == Tickets(broker) + {bp.ticket}
  {
    var all := broker + [bp];
    assert all[|broker|] == bp;
    forall t
      ensures t in Tickets(all) <==> t in Tickets(broker) + {bp.ticket}
    {
      if t in Tickets(broker) {
        var i :| 0 <= i < |broker| && broker[i].ticket == t;
        assert all[i].ticket == t;
      }
    }
  }

  // ---------------------------------------------------------------- what a verdict means

  /** Every broker position is known to the server with the same volume and side. */
  predicate AllTracked(server: map<int, ServerPosition>, broker: seq<PositionReport>)
  {
    forall i :: 0 <= i < |broker| ==> Compare(server, broker[i]) == Match
  }

  /** Some server position with status OPEN is missing at the broker. */
  predicate Missing(server: map<int, ServerPosition>, broker: seq<PositionReport>)
  {
    exists t :: t in server && IsPhantom(server, Tickets(broker), t)
  }

  lemma AllTrackedAppend(server: map<int, ServerPosition>, front: seq<PositionReport>, bp: PositionReport)
    ensures AllTracked(server, front + [bp]) <==> AllTracked(server, front) && Compare(server, bp) == Match
  {
    var all := front + [bp];
    assert all[|front|] == bp;
    assert forall i :: 0 <= i < |front| ==> all[i] == front[i];
  }

  lemma {:induction false} BrokerSideMeaning(account: string, server: map<int, ServerPosition>, broker: seq<PositionReport>)
    ensures BrokerSide(account, server, broker) == [] <==> AllTracked(server, broker)
    ensures forall i :: 0 <= i < |BrokerSide(account, server, broker)| ==>
              BrokerSide(account, server, broker)[i].kind in {Orphan, VolumeMismatch, SideMismatch}
  {
    if broker != [] {
      var front, bp := broker[..|broker| - 1], broker[|broker| - 1];
      BrokerSideMeaning(account, server, front);
      AllTrackedAppend(server, front, bp);
      assert broker == front + [bp];
      if Compare(server, bp) == Match {
        assert BrokerSide(account, server, broker) == BrokerSide(account, server, front);
      } else {
        assert BrokerSide(account, server, broker) ==
               BrokerSide(account, server, front) + [BrokerDiscrepancy(account, server, bp)];
      }
    }
  }

  ghost predicate SomePhantom(server: map<int, ServerPosition>, seen: set<int>, tickets: seq<int>)
    requires forall i :: 0 <= i < |tickets| ==> tickets[i] in server
  {
    exists i :: 0 <= i < |tickets| && IsPhantom(server, seen, tickets[i])
  }

  lemma SomePhantomAppend(server: map<int, ServerPosition>, seen: set<int>, front: seq<int>, t: int)
    requires t in server && forall i :: 0 <= i < |front| ==> front[i] in server
    ensures forall i :: 0 <= i < |front + [t]| ==> (front + [t])[i] in server
    ensures SomePhantom(server, seen, front + [t]) <==> SomePhantom(server, seen, front) || IsPhantom(server, seen, t)
  {
    var all := front + [t];
    assert all[|front|] == t;
    if SomePhantom(server, seen, front) {
      var i :| 0 <= i < |front| && IsPhantom(server, seen, front[i]);
      assert IsPhantom(server, seen, all[i]);
    }
  }

  lemma {:induction false} ServerSideMeaning(account: string, server: map<int, ServerPosition>, seen: set<int>,
                                             tickets: seq<int>)
    requires forall i :: 0 <= i < |tickets| ==> tickets[i] in server
    ensures ServerSide(account, server, seen, tickets) != [] <==> SomePhantom(server, seen, tickets)
    ensures forall i :: 0 <= i < |ServerSide(account, server, seen, tickets)| ==>
              ServerSide(account, server, seen, tickets)[i].kind == Phantom
  {
    if tickets != [] {
      var front, t := tickets[..|tickets| - 1], tickets[|tickets| - 1];
      ServerSideMeaning(account, server, seen, front);
      SomePhantomAppend(server, seen, front, t);
      assert tickets == front + [t];
    }
  }

  /**
   * A reconciliation is clean exactly if all broker positions are tracked and no OPEN server position
   * is missing, and it stops trading exactly if some broker position is untracked or different: a
   * missing one is reported but never critical.
   */
  lemma VerdictMeaning(account: string, server: map<int, ServerPosition>, broker: seq<PositionReport>)
    ensures Outcome(account, server, broker).isClean <==> AllTracked(server, broker) && !Missing(server, broker)
    ensures Outcome(account, server, broker).HasCritical() <==> !AllTracked(server, broker)
    ensures AllTracked(server, broker) ==> Outcome(account, server, broker).matchedCount == |broker|
  {
    BrokerSideMeaning(account, server, broker);
    ServerSideMeaning(account, server, Tickets(broker), Visit(server));
    PhantomsAreMissing(server, broker);
    Combine(account, Outcome(account, server, broker).matchedCount, BrokerSide(account, server, broker),
            ServerSide(account, server, Tickets(broker), Visit(server)));
  }

  lemma PhantomsAreMissing(server: map<int, ServerPosition>, broker: seq<PositionReport>)
    ensures Missing(server, broker) <==> SomePhantom(server, Tickets(broker), Visit(server))
  {
    if Missing(server, broker) {
      var t :| t in server && IsPhantom(server, Tickets(broker), t);
      assert t in Visit(server);
    }
  }

  lemma Combine(account: string, n: nat, a: seq<Discrepancy>, b: seq<Discrepancy>)
    requires forall i :: 0 <= i < |a| ==> a[i].kind in {Orphan, VolumeMismatch, SideMismatch}
    requires forall i :: 0 <= i < |b| ==> b[i].kind == Phantom
    ensures a + b == [] <==> a == [] && b == []
    ensures Result(account, a + b == [], n, a + b).HasCritical() <==> a != []
  {
    if a != [] {
      assert (a + b)[0] == a[0];
    }
  }

  /** Without a status entry no server position is ever reported missing. */
  lemma NoStatusNoPhantom(account: string, server: map<int, ServerPosition>, broker: seq<PositionReport>)
    requires forall t :: t in server ==> server[t].status.None?
    ensures Outcome(account, server, broker).isClean <==> AllTracked(server, broker)
  {
    VerdictMeaning(account, server, broker);
  }
}

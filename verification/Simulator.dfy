/** The simulated MT5 agent: broker-side positions and ticket numbers. */
module Simulator {
  import opened Prelude
  import opened Scoring
  import opened Commands

  datatype PositionReport = PositionReport(
    account: string, ticket: int, symbol: string, side: Side, lots: real, openPrice: real,
    stopLoss: Option<real>, takeProfit: Option<real>)

  datatype ExecutionStatus = FillDone | FillRejected | FillExpired

  datatype ExecutionReport = ExecutionReport(
    commandId: string, account: string, ticket: Option<int>, status: ExecutionStatus,
    lots: Option<real>, price: Option<real>)

  const FIRST_COUNTER := 1000000

  /** The part of the simulator that changes, with its quotes. */
  datatype SimState = SimState(bid: real, ask: real, counter: int, positions: map<int, PositionReport>)

  /** What an order asks for, as far as the simulator looks at it. */
  datatype Order = Order(id: string, account: string, action: CommandAction, symbol: string, side: Side, lots: real,
                         stopLoss: Option<real>, takeProfit: Option<real>, positionTicket: Option<int>)

  function OpenedPosition(s: SimState, o: Order, price: Option<real>): PositionReport
  {
    var fill := OrElse(price, if o.side == Buy then s.ask else s.bid);
    PositionReport(o.account, s.counter + 1, o.symbol, o.side, o.lots, fill, o.stopLoss, o.takeProfit)
  }

  function Execute(s: SimState, o: Order, price: Option<real>, expired: bool): (SimState, ExecutionReport)
  {
    if expired then (s, ExecutionReport(o.id, o.account, None, FillExpired, None, None))
    else
      match o.action
      case OrderOpen =>
        var p := OpenedPosition(s, o, price);
        (s.(counter := p.ticket, positions := s.positions[p.ticket := p]),
         ExecutionReport(o.id, o.account, Some(p.ticket), FillDone, Some(o.lots), Some(p.openPrice)))
      case OrderClose => (CloseTicket(s, o.positionTicket), CloseReport(s, o, price))
      case BasketClose => (CloseTicket(s, o.positionTicket), CloseReport(s, o, price))
      case PositionModify => (s, ExecutionReport(o.id, o.account, None, FillRejected, None, None))
  }

  /** Removes the position; an unknown, missing or zero ticket removes nothing. */
  function CloseTicket(s: SimState, ticket: Option<int>): SimState
  {
    if ticket.Some? && ticket.value != 0 && ticket.value in s.positions
    then s.(positions := s.positions - {ticket.value}) else s
  }

  /** A close is reported filled even when nothing was closed. */
  function CloseReport(s: SimState, o: Order, price: Option<real>): ExecutionReport
  {
    ExecutionReport(o.id, o.account, o.positionTicket, FillDone, Some(o.lots), Some(OrElse(price, s.bid)))
  }

  /** list(dict.values()): tickets are issued in increasing order, so insertion order is ticket order. */
  function OpenPositions(s: SimState): seq<PositionReport>
  {
    var tickets := Ascending(s.positions.Keys);
    seq(|tickets|, i requires 0 <= i < |tickets| => ListedKey(tickets, s.positions.Keys, i); s.positions[tickets[i]])
  }

  class MT5AgentSimulator {
    const bid: real
    const ask: real
    var ticketCounter: int
    var positions: map<int, PositionReport>

    function State(): SimState
      reads this
    {
      SimState(bid, ask, ticketCounter, positions)
    }

    constructor (bid: real, ask: real)
      ensures State() == SimState(bid, ask, FIRST_COUNTER, map[])
    {
      this.bid, this.ask := bid, ask;
      ticketCounter, positions := FIRST_COUNTER, map[];
    }

    method NextTicket() returns (ticket: int)
      modifies this`ticketCounter
      ensures ticket == ticketCounter == old(ticketCounter) + 1
    {
      ticketCounter := ticketCounter + 1;
      ticket := ticketCounter;
    }

    method GetOpenPositions() returns (open: seq<PositionReport>)
      ensures open == OpenPositions(State())
    {
      open := OpenPositions(State());
    }

    /** `expired` is the verdict of the wall clock on the command. */
    method ExecuteCommand(command: ExecutionCommand, marketPrice: Option<real>, expired: bool)
      returns (report: ExecutionReport)
      modifies this
      ensures (State(), report) == Execute(old(State()), OrderOf(command), marketPrice, expired)
    {
      if expired {
        return ExecutionReport(command.id, command.account, None, FillExpired, None, None);
      }
      if command.action == OrderOpen {
        var fallback := if command.side == Buy then ask else bid;
        var fillPrice := if marketPrice.Some? && marketPrice.value != 0.0 then marketPrice.value else fallback;
        var ticket := NextTicket();
        positions := positions[ticket := PositionReport(command.account, ticket, command.symbol, command.side,
                                                        command.lots, fillPrice, command.stopLoss, command.takeProfit)];
        report := ExecutionReport(command.id, command.account, Some(ticket), FillDone, Some(command.lots), Some(fillPrice));
      } else if command.action == OrderClose || command.action == BasketClose {
        var target := command.positionTicket;
        if target.Some? && target.value != 0 && target.value in positions {
          positions := positions - {target.value};
        }
        var fillPrice := if marketPrice.Some? && marketPrice.value != 0.0 then marketPrice.value else bid;
        report := ExecutionReport(command.id, command.account, target, FillDone, Some(command.lots), Some(fillPrice));
      } else {
        report := ExecutionReport(command.id, command.account, None, FillRejected, None, None);
      }
    }
  }

  function OrderOf(c: ExecutionCommand): Order
  {
    Order(c.id, c.account, c.action, c.symbol, c.side, c.lots, c.stopLoss, c.takeProfit, c.positionTicket)
  }

  // ---------------------------------------------------------------- tickets

  /** Every held position carries its own ticket, and no ticket beyond the counter exists yet. */
  ghost predicate Ticketed(s: SimState)
  {
    forall t :: t in s.positions ==> FIRST_COUNTER < t <= s.counter && s.positions[t].ticket == t
  }

  function ExecuteAll(s: SimState, orders: seq<(Order, Option<real>, bool)>): (SimState, seq<ExecutionReport>)
  {
    if orders == [] then (s, [])
    else
      var (before, reports) := ExecuteAll(s, orders[..|orders| - 1]);
      var (o, price, expired) := orders[|orders| - 1];
      var (after, report) := Execute(before, o, price, expired);
      (after, reports + [report])
  }

  predicate Opens(order: (Order, Option<real>, bool)) { order.0.action == OrderOpen && !order.2 }

  /**
   * Whatever mix of opens, closes, expiries and unsupported actions ran, an open draws a ticket that
   * no position has ever had: it is above the counter that bounds all earlier tickets.
   */
  lemma {:induction false} TicketsNeverReused(s: SimState, orders: seq<(Order, Option<real>, bool)>)
    requires Ticketed(s) && s.counter >= FIRST_COUNTER
    ensures Ticketed(ExecuteAll(s, orders).0) && |ExecuteAll(s, orders).1| == |orders|
    ensures forall i :: 0 <= i < |orders| && Opens(orders[i]) ==>
              var ticket := ExecuteAll(s, orders).1[i].ticket;
              ticket.Some? && s.counter < ticket.value <= ExecuteAll(s, orders).0.counter
    ensures forall i, j :: 0 <= i < j < |orders| && Opens(orders[i]) && Opens(orders[j]) ==>
              IssuedBefore(ExecuteAll(s, orders).1[i], ExecuteAll(s, orders).1[j])
    ensures s.counter <= ExecuteAll(s, orders).0.counter
  {
    if orders != [] {
      TicketsNeverReused(s, orders[..|orders| - 1]);
    }
  }

  predicate IssuedBefore(a: ExecutionReport, b: ExecutionReport)
  {
    a.ticket.Some? && b.ticket.Some? && a.ticket.value < b.ticket.value
  }

  /** Closing the ticket an open returned gives back the old positions, but not the ticket. */
  lemma CloseUndoesOpen(s: SimState, o: Order, price: Option<real>, c: Order, closePrice: Option<real>)
    requires Ticketed(s) && s.counter >= FIRST_COUNTER && o.action == OrderOpen && c.action in {OrderClose, BasketClose}
    requires c.positionTicket == Execute(s, o, price, false).1.ticket
    ensures var after := Execute(Execute(s, o, price, false).0, c, closePrice, false).0;
            after.positions == s.positions && after.counter == s.counter + 1
  {
    var held := Execute(s, o, price, false).0;
    assert s.counter + 1 !in s.positions;
    assert held.positions - {s.counter + 1} == s.positions;
  }

  /**
   * An unexpired close is reported filled whatever its ticket, and it closes something exactly if the
   * ticket names a held position.
   */
  lemma CloseAlwaysReportsFilled(s: SimState, o: Order, price: Option<real>)
    requires Ticketed(s) && o.action in {OrderClose, BasketClose}
    ensures Execute(s, o, price, false).1.status == FillDone
    ensures Execute(s, o, price, false).0.positions != s.positions <==>
            o.positionTicket.Some? && o.positionTicket.value in s.positions
  {
    if o.positionTicket.Some? && o.positionTicket.value in s.positions {
      assert o.positionTicket.value !in Execute(s, o, price, false).0.positions;
    }
  }

  /** A close of a ticket nobody holds, on a simulator that holds nothing, is reported filled. */
  lemma NothingClosedReportedFilled()
    ensures var s := SimState(2000.0, 2000.2, FIRST_COUNTER, map[]);
            var o := Order("c", "A", OrderClose, "XAUUSD", Buy, 0.1, None, None, Some(1000007));
            Execute(s, o, None, false) ==
            (s, ExecutionReport("c", "A", Some(1000007), FillDone, Some(0.1), Some(2000.0)))
  {
    var s := SimState(2000.0, 2000.2, FIRST_COUNTER, map[]);
    var o := Order("c", "A", OrderClose, "XAUUSD", Buy, 0.1, None, None, Some(1000007));
    CloseAlwaysReportsFilled(s, o, None);
  }
}

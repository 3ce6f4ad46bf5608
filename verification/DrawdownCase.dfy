/** A run in which the account halves and the report says 10 percent. */
module DrawdownCase {
  import opened Prelude
  import opened MarketData
  import opened BarBuilding
  import opened Scoring
  import opened RiskEngine
  import opened Drawdown
  import opened Ledger
  import opened LedgerTheorems
  import opened Backtest

  const RISK := RiskConfig(Some(1000.0), Some(1000.0), Some(1), None, None, None, None, Some(1.0), 0.0, 0.0, 2000, false)

  /** Fixed lots, contract size 1, no costs. */
  const CFG := BacktestConfig(100.0, Series("XAUUSD", "M15", 900), 0.01, 1.0, 0, 0.0, RISK)

  function Quote(price: real, time: int): Tick { Tick("XAUUSD", price, price, time, None) }

  const BUY := Candidate(Buy, Some(10.0), Some(2000.0), Some(100.0))

  /** One lot bought at 100 and held until the end of the data. */
  const TICKS := [Quote(100.0, 0), Quote(100.0, 900 * MICROS), Quote(50.0, 901 * MICROS), Quote(1000.0, 902 * MICROS),
                  Quote(900.0, 903 * MICROS)]

  const QUIET := Reply(false, NoCandidate, None)
  const REPLIES := [QUIET, Reply(true, BUY, None), QUIET, QUIET, QUIET]

  const HELD := Trade(1, Buy, 900 * MICROS, 100.0, 1.0, Some(10.0), Some(2000.0), 0.0, None, 0.0)

  function Marked(l: Ledger, equity: real): Ledger
  {
    l.(tracker := Track(l.tracker, equity), curve := l.curve + [equity])
  }

  lemma QuietStep(l: Ledger, i: nat, tick: Tick)
    requires l.open == []
    ensures StepTick(CFG, l, i, tick, QUIET) == Marked(l, l.balance)
  {
    assert l.completed + [] == l.completed;
  }

  lemma HeldTrade(tick: Tick)
    requires 10.0 < tick.bid < 2000.0
    ensures Survivors([HELD], tick) == [HELD] && Exits(CFG, [HELD], tick) == []
    ensures Floating(CFG, [HELD], tick) == tick.bid - 100.0
  {
    assert [HELD][..0] == [] && Touch(HELD, tick).None?;
    assert Floating(CFG, [HELD], tick) == Floating(CFG, [], tick) + GrossPnl(CFG, HELD, tick.bid);
  }

  lemma HoldStep(l: Ledger, i: nat, tick: Tick)
    requires l.open == [HELD] && 10.0 < tick.bid < 2000.0
    ensures StepTick(CFG, l, i, tick, QUIET) == Marked(l, l.balance + (tick.bid - 100.0))
  {
    HeldTrade(tick);
    assert l.completed + [] == l.completed;
  }

  lemma EntryStep(l: Ledger)
    requires l.open == [] && l.entered == [] && l.balance == 100.0 && l.tracker == Tracker(100.0, 0.0, 0.0)
    ensures StepTick(CFG, l, 1, TICKS[1], REPLIES[1]) == Marked(l, 100.0).(open := [HELD], entered := [HELD])
  {
    assert l.completed + [] == l.completed;
  }

  // ---------------------------------------------------------------- the run

  lemma HoldsOn(ticks: seq<Tick>, replies: seq<Reply>, n: nat, l: Ledger)
    requires n < |ticks| == |replies| && ReachedBy(CFG, ticks, replies, n, l)
    requires l.open == [HELD] && replies[n] == QUIET && 10.0 < ticks[n].bid < 2000.0
    ensures ReachedBy(CFG, ticks, replies, n + 1, Marked(l, l.balance + (ticks[n].bid - 100.0)))
  {
    ReachedNext(CFG, ticks, replies, n, l);
    HoldStep(l, n, ticks[n]);
  }

  /** The ledger after two ticks: one lot bought at 100. */
  lemma Bought(ticks: seq<Tick>, replies: seq<Reply>) returns (l: Ledger)
    requires ticks == TICKS && replies == REPLIES
    ensures ReachedBy(CFG, ticks, replies, 2, l)
    ensures l.open == [HELD] && l.balance == 100.0 && l.curve == [100.0, 100.0, 100.0] && l.tracker == Tracker(100.0, 0.0, 0.0)
  {
    var a := Start(CFG);
    var b := Marked(a, 100.0);
    ReachedNext(CFG, ticks, replies, 0, a);
    QuietStep(a, 0, ticks[0]);
    ReachedNext(CFG, ticks, replies, 1, b);
    EntryStep(b);
    l := Marked(b, 100.0).(open := [HELD], entered := [HELD]);
  }

  /** It halves, rises to 1000 and falls to 900. */
  lemma Fallen(ticks: seq<Tick>, replies: seq<Reply>) returns (l: Ledger)
    requires ticks == TICKS && replies == REPLIES
    ensures ReachedBy(CFG, ticks, replies, 5, l)
    ensures l.curve == [100.0, 100.0, 100.0, 50.0, 1000.0, 900.0] && l.tracker == Tracker(1000.0, 100.0, 10.0)
  {
    var c := Bought(ticks, replies);
    var d := Marked(c, 50.0);
    var e := Marked(d, 1000.0);
    HoldsOn(ticks, replies, 2, c);
    HoldsOn(ticks, replies, 3, d);
    HoldsOn(ticks, replies, 4, e);
    l := Marked(e, 900.0);
  }

  /** Every report of this run says 10 percent, although the marked equity fell from 100 to 50. */
  lemma HalvedReportedAsTenPercent(ticks: seq<Tick>, replies: seq<Reply>, r: BacktestResult)
    requires ticks == TICKS && replies == REPLIES && Summarises(r, CFG, RunAll(CFG, ticks, replies))
    ensures r.maxDrawdownPct == 10.0
    ensures RunAll(CFG, ticks, replies).curve == [100.0, 100.0, 100.0, 50.0, 1000.0, 900.0]
  {
    var l := Fallen(ticks, replies);
  }
}

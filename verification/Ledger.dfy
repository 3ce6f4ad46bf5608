/** The backtest as a ledger: exits, marking to market, entries through risk, final close-out. */
module Ledger {
  import opened Prelude
  import opened MarketData
  import opened BarBuilding
  import opened Scoring
  import opened RiskEngine
  import opened Drawdown

  datatype BacktestConfig = BacktestConfig(
    initialBalance: real, series: Series, pointValue: real, contractSize: real, slippagePoints: int,
    commissionPerLot: real, risk: RiskConfig)
  {
    function Slippage(): real { slippagePoints as real * pointValue }
  }

  datatype ExitReason = SlHit | TpHit | EndOfData

  datatype Exit = Exit(time: int, price: real, reason: ExitReason)

  /** `id` is the index of the tick that entered the trade; one tick opens at most one. */
  datatype Trade = Trade(
    id: nat, side: Side, entryTime: int, entryPrice: real, lots: real, stopLoss: Option<real>,
    takeProfit: Option<real>, commission: real, exit: Option<Exit>, pnl: real)

  datatype Candidate =
    | NoCandidate
    | Candidate(side: Side, stopLoss: Option<real>, takeProfit: Option<real>, entryReference: Option<real>)

  /** What happens around one tick: whether it closes a bar, what the brain proposes, how old the clock says it is. */
  datatype Reply = Reply(barClosed: bool, candidate: Candidate, stalenessMs: Option<int>)

  /** `curve` is the marked equity per tick after the initial balance, `entered` every trade as it was entered. */
  datatype Ledger = Ledger(
    balance: real, tracker: Tracker, open: seq<Trade>, completed: seq<Trade>,
    curve: seq<real>, entered: seq<Trade>)

  // ---------------------------------------------------------------- exits

  /** Price and reason at which a tick closes a position; the stop is tested before the target. */
  function Touch(t: Trade, tick: Tick): Option<(real, ExitReason)>
  {
    match t.side
    case Buy =>
      if t.stopLoss.Some? && tick.bid <= t.stopLoss.value then Some((t.stopLoss.value, SlHit))
      else if t.takeProfit.Some? && tick.bid >= t.takeProfit.value then Some((t.takeProfit.value, TpHit))
      else None
    case Sell =>
      if t.stopLoss.Some? && tick.ask >= t.stopLoss.value then Some((t.stopLoss.value, SlHit))
      else if t.takeProfit.Some? && tick.ask <= t.takeProfit.value then Some((t.takeProfit.value, TpHit))
      else None
  }

  function Difference(t: Trade, price: real): real
  {
    if t.side == Buy then price - t.entryPrice else t.entryPrice - price
  }

  function GrossPnl(cfg: BacktestConfig, t: Trade, price: real): real
  {
    Difference(t, price) * cfg.contractSize * t.lots
  }

  function Realise(cfg: BacktestConfig, t: Trade, e: Exit): Trade
  {
    t.(exit := Some(e), pnl := GrossPnl(cfg, t, e.price) - t.commission)
  }

  /** The price a position is marked at: the side of the book it would close on. */
  function MarkPrice(t: Trade, tick: Tick): real { if t.side == Buy then tick.bid else tick.ask }

  function Survivors(open: seq<Trade>, tick: Tick): seq<Trade>
  {
    if open == [] then []
    else
      var t := open[|open| - 1];
      Survivors(open[..|open| - 1], tick) + (if Touch(t, tick).None? then [t] else [])
  }

  function Exits(cfg: BacktestConfig, open: seq<Trade>, tick: Tick): seq<Trade>
  {
    if open == [] then []
    else
      var t := open[|open| - 1];
      Exits(cfg, open[..|open| - 1], tick) +
      (match Touch(t, tick)
       case None => []
       case Some((price, reason)) => [Realise(cfg, t, Exit(tick.time, price, reason))])
  }

  function PnlSum(trades: seq<Trade>): real
  {
    if trades == [] then 0.0 else PnlSum(trades[..|trades| - 1]) + trades[|trades| - 1].pnl
  }

  function Settle(cfg: BacktestConfig, l: Ledger, tick: Tick): Ledger
  {
    var done := Exits(cfg, l.open, tick);
    l.(balance := l.balance + PnlSum(done), open := Survivors(l.open, tick), completed := l.completed + done)
  }

  // ---------------------------------------------------------------- marking

  function Floating(cfg: BacktestConfig, open: seq<Trade>, tick: Tick): real
  {
    if open == [] then 0.0
    else
      var t := open[|open| - 1];
      Floating(cfg, open[..|open| - 1], tick) + GrossPnl(cfg, t, MarkPrice(t, tick))
  }

  function Mark(cfg: BacktestConfig, l: Ledger, tick: Tick): Ledger
  {
    var equity := l.balance + Floating(cfg, l.open, tick);
    l.(tracker := Track(l.tracker, equity), curve := l.curve + [equity])
  }

  // ---------------------------------------------------------------- entries

  function LotsSum(trades: seq<Trade>): real
  {
    if trades == [] then 0.0 else LotsSum(trades[..|trades| - 1]) + trades[|trades| - 1].lots
  }

  /** The account as the risk engine sees it at this tick. */
  function SnapshotOf(cfg: BacktestConfig, l: Ledger, tick: Tick): Snapshot
  {
    var floating := Floating(cfg, l.open, tick);
    Snapshot(l.balance + floating, l.tracker.peak, l.balance - cfg.initialBalance, floating, |l.open|,
             None, None, LotsSum(l.open), 0.0)
  }

  function LevelsOf(c: Candidate): Levels
    requires c.Candidate?
  {
    Levels(c.entryReference, c.stopLoss)
  }

  function DecisionFor(cfg: BacktestConfig, l: Ledger, tick: Tick, r: Reply): Decision
    requires r.candidate.Candidate?
  {
    RiskEngine.Evaluate(cfg.risk, SnapshotOf(cfg, l, tick), Some(LevelsOf(r.candidate)),
             Some(Market(true, r.stalenessMs, Some(tick.Spread()))), Some("CLEAR"))
  }

  /** An approval with no lots, or zero lots, opens nothing. */
  predicate Enters(cfg: BacktestConfig, l: Ledger, tick: Tick, r: Reply)
  {
    r.barClosed && r.candidate.Candidate? &&
    var d := DecisionFor(cfg, l, tick, r);
    d.verdict == Approved && d.lots.Some? && d.lots.value != 0.0
  }

  function EntryTrade(cfg: BacktestConfig, i: nat, tick: Tick, c: Candidate, lots: real): Trade
    requires c.Candidate?
  {
    var price := if c.side == Buy then tick.ask + cfg.Slippage() else tick.bid - cfg.Slippage();
    Trade(i, c.side, tick.time, price, lots, c.stopLoss, c.takeProfit,
          cfg.commissionPerLot * lots * 2.0, None, 0.0)
  }

  function Enter(cfg: BacktestConfig, l: Ledger, i: nat, tick: Tick, r: Reply): Ledger
  {
    if Enters(cfg, l, tick, r) then
      var t := EntryTrade(cfg, i, tick, r.candidate, DecisionFor(cfg, l, tick, r).lots.value);
      l.(open := l.open + [t], entered := l.entered + [t])
    else l
  }

  // ---------------------------------------------------------------- whole runs

  function Start(cfg: BacktestConfig): Ledger
  {
    Ledger(cfg.initialBalance, Tracker(cfg.initialBalance, 0.0, 0.0), [], [], [cfg.initialBalance], [])
  }

  function StepTick(cfg: BacktestConfig, l: Ledger, i: nat, tick: Tick, r: Reply): Ledger
  {
    Enter(cfg, Mark(cfg, Settle(cfg, l, tick), tick), i, tick, r)
  }

  /** The ledger after the first n ticks. */
  function RunTo(cfg: BacktestConfig, ticks: seq<Tick>, replies: seq<Reply>, n: nat): Ledger
    requires n <= |ticks| == |replies|
  {
    if n == 0 then Start(cfg)
    else StepTick(cfg, RunTo(cfg, ticks, replies, n - 1), n - 1, ticks[n - 1], replies[n - 1])
  }

  function CloseAll(cfg: BacktestConfig, open: seq<Trade>, last: Tick): seq<Trade>
  {
    if open == [] then []
    else
      var t := open[|open| - 1];
      CloseAll(cfg, open[..|open| - 1], last) + [Realise(cfg, t, Exit(last.time, MarkPrice(t, last), EndOfData))]
  }

  function Finish(cfg: BacktestConfig, l: Ledger, last: Tick): Ledger
  {
    var done := CloseAll(cfg, l.open, last);
    l.(balance := l.balance + PnlSum(done), open := [], completed := l.completed + done)
  }

  function RunAll(cfg: BacktestConfig, ticks: seq<Tick>, replies: seq<Reply>): Ledger
    requires ticks != [] && |ticks| == |replies|
  {
    Finish(cfg, RunTo(cfg, ticks, replies, |ticks|), ticks[|ticks| - 1])
  }
}

/** The backtest engine: a loop over mutable trade records, proved to compute the ledger. */
module Backtest {
  import opened Prelude
  import opened MarketData
  import opened BarBuilding
  import opened Scoring
  import opened SignalPipeline
  import opened RiskEngine
  import opened Drawdown
  import opened Ledger
  import opened Statistics

  // ---------------------------------------------------------------- what the brain answers

  /** What the wall clock says when a tick is processed: stale for the brain, and its age for the risk engine. */
  datatype Clock = Clock(staleForBrain: bool, tickAgeMs: Option<int>)

  /** Latest tick, closed bars, news state and staleness in; a signal or none out. */
  type Brain = (Tick, seq<Bar>, string, bool) -> Signal

  function PipelineBrain(cfg: PipelineConfig): Brain
  {
    (tick, bars, news, stale) => Process(tick, bars, news, stale, cfg)
  }

  function CandidateOf(s: Signal): Candidate
  {
    if s.NoSignal? then NoCandidate
    else Candidate(s.side, Some(s.stopLoss), Some(s.takeProfit), Some(s.entryReference))
  }

  /** The bar builder after the first n ticks of the run. */
  function Fed(s: Series, b: Builder, ticks: seq<Tick>, n: nat): Builder
    requires s.interval > 0 && n <= |ticks|
  {
    if n == 0 then b else Step(s, Fed(s, b, ticks, n - 1), ticks[n - 1])
  }

  /** The bar a tick closes, if it crosses into a new bucket. */
  function NewBars(s: Series, b: Builder, tick: Tick): seq<Bar>
    requires s.interval > 0
  {
    if Crosses(s, b, tick) then [CloseBar(s, b.running.value)] else []
  }

  /** The bars the first n ticks of the run closed. */
  function BarsClosed(s: Series, b: Builder, ticks: seq<Tick>, n: nat): seq<Bar>
    requires s.interval > 0 && n <= |ticks|
  {
    if n == 0 then []
    else BarsClosed(s, b, ticks, n - 1) + NewBars(s, Fed(s, b, ticks, n - 1), ticks[n - 1])
  }

  /** The brain runs only when the tick closes a bar, on the bars closed in this run. */
  function ReplyTo(s: Series, brain: Brain, b: Builder, bars: seq<Bar>, tick: Tick, clock: Clock): Reply
    requires s.interval > 0
  {
    Reply(Crosses(s, b, tick),
          if Crosses(s, b, tick) then CandidateOf(brain(tick, bars, "CLEAR", clock.staleForBrain))
          else NoCandidate,
          clock.tickAgeMs)
  }

  function ReplyAt(s: Series, brain: Brain, b: Builder, ticks: seq<Tick>, clocks: seq<Clock>, i: nat): Reply
    requires s.interval > 0 && i < |ticks| == |clocks|
  {
    ReplyTo(s, brain, Fed(s, b, ticks, i), BarsClosed(s, b, ticks, i + 1), ticks[i], clocks[i])
  }

  function Replies(s: Series, brain: Brain, b: Builder, ticks: seq<Tick>, clocks: seq<Clock>): seq<Reply>
    requires s.interval > 0 && |ticks| == |clocks|
  {
    seq(|ticks|, i requires 0 <= i < |ticks| => ReplyAt(s, brain, b, ticks, clocks, i))
  }

  // ---------------------------------------------------------------- mutable trade records

  class TradeRecord {
    const id: nat
    const side: Side
    const entryTime: int
    const entryPrice: real
    const lots: real
    const stopLoss: Option<real>
    const takeProfit: Option<real>
    const commission: real
    var exitTime: Option<int>
    var exitPrice: real
    var exitReason: ExitReason
    var pnl: real

    function View(): Trade
      reads this
    {
      Trade(id, side, entryTime, entryPrice, lots, stopLoss, takeProfit, commission,
            if exitTime.Some? then Some(Exit(exitTime.value, exitPrice, exitReason)) else None, pnl)
    }

    constructor (t: Trade)
      requires t.exit.None?
      ensures View() == t
    {
      id, side, entryTime, entryPrice, lots := t.id, t.side, t.entryTime, t.entryPrice, t.lots;
      stopLoss, takeProfit, commission, pnl := t.stopLoss, t.takeProfit, t.commission, t.pnl;
      exitTime, exitPrice, exitReason := None, 0.0, EndOfData;
    }

    /** Stamps the exit and books the result. */
    method Close(cfg: BacktestConfig, time: int, price: real, reason: ExitReason)
      modifies this
      ensures View() == Realise(cfg, old(View()), Exit(time, price, reason))
    {
      exitTime, exitPrice, exitReason := Some(time), price, reason;
      var diff := if side == Buy then price - entryPrice else entryPrice - price;
      var gross := diff * cfg.contractSize * lots;
      pnl := gross - commission;
    }
  }

  function Views(records: seq<TradeRecord>): seq<Trade>
    reads records
  {
    seq(|records|, i requires 0 <= i < |records| reads records => records[i].View())
  }

  ghost predicate Distinct(records: seq<TradeRecord>)
  {
    forall i, j :: 0 <= i < j < |records| ==> records[i] != records[j]
  }

  /** No record occurs twice in the two lists together. */
  ghost predicate Apart(a: seq<TradeRecord>, b: seq<TradeRecord>)
  {
    Distinct(a) && Distinct(b) && forall r :: r in a ==> r !in b
  }

  ghost predicate DrawnFrom(part: seq<TradeRecord>, whole: seq<TradeRecord>)
  {
    forall k :: 0 <= k < |part| ==> part[k] in whole
  }

  lemma ApartAppend(a: seq<TradeRecord>, b: seq<TradeRecord>, r: TradeRecord)
    requires Apart(a, b) && r !in a && r !in b
    ensures Apart(a + [r], b) && Apart(a, b + [r])
  {}

  lemma NotEarlier(records: seq<TradeRecord>, part: seq<TradeRecord>, i: nat)
    requires i < |records| && Distinct(records) && DrawnFrom(part, records[..i])
    ensures records[i] !in part
    ensures DrawnFrom(part, records[..i + 1]) && DrawnFrom(part + [records[i]], records[..i + 1])
  {
    assert records[i] !in records[..i];
    assert records[..i + 1] == records[..i] + [records[i]];
  }

  lemma ViewsAppend(records: seq<TradeRecord>, r: TradeRecord)
    ensures Views(records + [r]) == Views(records) + [r.View()]
  {}

  lemma ViewsConcat(a: seq<TradeRecord>, b: seq<TradeRecord>)
    ensures Views(a + b) == Views(a) + Views(b)
  {}

  // ---------------------------------------------------------------- settling

  lemma SurvivorsStep(open: seq<Trade>, i: nat, tick: Tick)
    requires i < |open|
    ensures Survivors(open[..i + 1], tick) ==
            if Touch(open[i], tick).None? then Survivors(open[..i], tick) + [open[i]] else Survivors(open[..i], tick)
  {
    assert open[..i + 1][..i] == open[..i];
    assert Survivors(open[..i], tick) + [] == Survivors(open[..i], tick);
  }

  lemma ExitsStep(cfg: BacktestConfig, open: seq<Trade>, i: nat, tick: Tick)
    requires i < |open|
    ensures Exits(cfg, open[..i + 1], tick) ==
            match Touch(open[i], tick)
            case None => Exits(cfg, open[..i], tick)
            case Some((price, reason)) =>
              Exits(cfg, open[..i], tick) + [Realise(cfg, open[i], Exit(tick.time, price, reason))]
  {
    assert open[..i + 1][..i] == open[..i];
    assert Exits(cfg, open[..i], tick) + [] == Exits(cfg, open[..i], tick);
  }

  lemma PnlAppend(ts: seq<Trade>, t: Trade)
    ensures PnlSum(ts + [t]) == PnlSum(ts) + t.pnl
  {
    assert (ts + [t])[..|ts|] == ts;
  }

  /** Closes one position if the tick touches it; the stop is tested before the target. */
  method CloseIfTouched(cfg: BacktestConfig, pos: TradeRecord, tick: Tick) returns (closed: bool)
    modifies pos
    ensures closed <==> Touch(old(pos.View()), tick).Some?
    ensures closed ==>
              var touch := Touch(old(pos.View()), tick).value;
              pos.View() == Realise(cfg, old(pos.View()), Exit(tick.time, touch.0, touch.1))
    ensures !closed ==> unchanged(pos)
  {
    closed := false;
    var exitPrice, exitReason := 0.0, EndOfData;
    if pos.side == Buy {
      if pos.stopLoss.Some? && tick.bid <= pos.stopLoss.value {
        closed, exitPrice, exitReason := true, pos.stopLoss.value, SlHit;
      } else if pos.takeProfit.Some? && tick.bid >= pos.takeProfit.value {
        closed, exitPrice, exitReason := true, pos.takeProfit.value, TpHit;
      }
    } else {
      if pos.stopLoss.Some? && tick.ask >= pos.stopLoss.value {
        closed, exitPrice, exitReason := true, pos.stopLoss.value, SlHit;
      } else if pos.takeProfit.Some? && tick.ask <= pos.takeProfit.value {
        closed, exitPrice, exitReason := true, pos.takeProfit.value, TpHit;
      }
    }
    if closed {
      pos.Close(cfg, tick.time, exitPrice, exitReason);
    }
  }

  /** Records from index i on have not been written to. */
  ghost predicate Untouched(records: seq<TradeRecord>, before: seq<Trade>, i: nat)
    requires i <= |records| == |before|
    reads records
  {
    forall k :: i <= k < |records| ==> records[k].View() == before[k]
  }

  /** The first i positions have been settled into these two lists and this balance. */
  ghost predicate Settled(cfg: BacktestConfig, before: seq<Trade>, i: nat, tick: Tick, kept: seq<Trade>,
                          gone: seq<Trade>, balance: real)
    requires i <= |before|
  {
    && kept == Survivors(before[..i], tick)
    && gone == Exits(cfg, before[..i], tick)
    && balance == PnlSum(gone)
  }

  lemma SettledKeeps(cfg: BacktestConfig, before: seq<Trade>, i: nat, tick: Tick, kept: seq<Trade>,
                     gone: seq<Trade>, balance: real)
    requires i < |before| && Settled(cfg, before, i, tick, kept, gone, balance) && Touch(before[i], tick).None?
    ensures Settled(cfg, before, i + 1, tick, kept + [before[i]], gone, balance)
  {
    SurvivorsStep(before, i, tick);
    ExitsStep(cfg, before, i, tick);
  }

  lemma SettledCloses(cfg: BacktestConfig, before: seq<Trade>, i: nat, tick: Tick, kept: seq<Trade>,
                      gone: seq<Trade>, balance: real, t: Trade)
    requires i < |before| && Settled(cfg, before, i, tick, kept, gone, balance) && Touch(before[i], tick).Some?
    requires var touch := Touch(before[i], tick).value;
             t == Realise(cfg, before[i], Exit(tick.time, touch.0, touch.1))
    ensures Settled(cfg, before, i + 1, tick, kept, gone + [t], balance + t.pnl)
  {
    SurvivorsStep(before, i, tick);
    ExitsStep(cfg, before, i, tick);
    PnlAppend(gone, t);
  }

  /** Splits the open positions into those the tick leaves open and those it closes. */
  method SettlePositions(cfg: BacktestConfig, open: seq<TradeRecord>, tick: Tick, balance: real)
    returns (still: seq<TradeRecord>, done: seq<TradeRecord>, newBalance: real)
    requires Distinct(open)
    modifies open
    ensures Views(still) == Survivors(old(Views(open)), tick)
    ensures Views(done) == Exits(cfg, old(Views(open)), tick)
    ensures newBalance == balance + PnlSum(Exits(cfg, old(Views(open)), tick))
    ensures Apart(still, done) && DrawnFrom(still, open) && DrawnFrom(done, open)
  {
    still, done, newBalance := [], [], balance;
    ghost var before := Views(open);
    for i := 0 to |open|
      invariant Untouched(open, before, i)
      invariant Settled(cfg, before, i, tick, Views(still), Views(done), newBalance - balance)
      invariant Apart(still, done) && DrawnFrom(still, open[..i]) && DrawnFrom(done, open[..i])
    {
      var pos := open[i];
      NotEarlier(open, still, i);
      NotEarlier(open, done, i);
      ApartAppend(still, done, pos);
      ghost var kept, gone := Views(still), Views(done);
      var closed := CloseIfTouched(cfg, pos, tick);
      if closed {
        SettledCloses(cfg, before, i, tick, kept, gone, newBalance - balance, pos.View());
        newBalance := newBalance + pos.pnl;
        ViewsAppend(done, pos);
        done := done + [pos];
      } else {
        SettledKeeps(cfg, before, i, tick, kept, gone, newBalance - balance);
        ViewsAppend(still, pos);
        still := still + [pos];
      }
    }
    assert before[..|open|] == before && open[..|open|] == open;
  }

  // ---------------------------------------------------------------- sums over open positions

  lemma FloatingStep(cfg: BacktestConfig, open: seq<Trade>, i: nat, tick: Tick)
    requires i < |open|
    ensures Floating(cfg, open[..i + 1], tick) ==
            Floating(cfg, open[..i], tick) + GrossPnl(cfg, open[i], MarkPrice(open[i], tick))
  {
    assert open[..i + 1][..i] == open[..i];
  }

  method FloatingPnl(cfg: BacktestConfig, open: seq<TradeRecord>, tick: Tick) returns (floating: real)
    ensures floating == Floating(cfg, Views(open), tick)
  {
    floating := 0.0;
    ghost var views := Views(open);
    for i := 0 to |open|
      invariant floating == Floating(cfg, views[..i], tick)
    {
      FloatingStep(cfg, views, i, tick);
      var pos := open[i];
      var diff := if pos.side == Buy then tick.bid - pos.entryPrice else pos.entryPrice - tick.ask;
      floating := floating + diff * cfg.contractSize * pos.lots;
    }
    assert views[..|open|] == views;
  }

  method OpenLots(open: seq<TradeRecord>) returns (lots: real)
    ensures lots == LotsSum(Views(open))
  {
    lots := 0.0;
    ghost var views := Views(open);
    for i := 0 to |open|
      invariant lots == LotsSum(views[..i])
    {
      assert views[..i + 1][..i] == views[..i];
      lots := lots + open[i].lots;
    }
    assert views[..|open|] == views;
  }

  lemma CloseAllStep(cfg: BacktestConfig, open: seq<Trade>, i: nat, last: Tick)
    requires i < |open|
    ensures CloseAll(cfg, open[..i + 1], last) ==
            CloseAll(cfg, open[..i], last) + [Realise(cfg, open[i], Exit(last.time, MarkPrice(open[i], last), EndOfData))]
  {
    assert open[..i + 1][..i] == open[..i];
  }

  /** The first i positions have been closed out into this list and this balance. */
  ghost predicate ClosedOut(cfg: BacktestConfig, before: seq<Trade>, i: nat, last: Tick, gone: seq<Trade>, balance: real)
    requires i <= |before|
  {
    gone == CloseAll(cfg, before[..i], last) && balance == PnlSum(gone)
  }

  lemma ClosedOutStep(cfg: BacktestConfig, before: seq<Trade>, i: nat, last: Tick, gone: seq<Trade>, balance: real, t: Trade)
    requires i < |before| && ClosedOut(cfg, before, i, last, gone, balance)
    requires t == Realise(cfg, before[i], Exit(last.time, MarkPrice(before[i], last), EndOfData))
    ensures ClosedOut(cfg, before, i + 1, last, gone + [t], balance + t.pnl)
  {
    CloseAllStep(cfg, before, i, last);
    PnlAppend(gone, t);
  }

  /** Closes what is still open at the price of the last tick. */
  method CloseRemaining(cfg: BacktestConfig, open: seq<TradeRecord>, last: Tick, balance: real)
    returns (done: seq<TradeRecord>, newBalance: real)
    requires Distinct(open)
    modifies open
    ensures Views(done) == CloseAll(cfg, old(Views(open)), last)
    ensures newBalance == balance + PnlSum(CloseAll(cfg, old(Views(open)), last))
  {
    done, newBalance := [], balance;
    ghost var before := Views(open);
    for i := 0 to |open|
      invariant Untouched(open, before, i)
      invariant ClosedOut(cfg, before, i, last, Views(done), newBalance - balance)
      invariant DrawnFrom(done, open[..i])
    {
      var pos := open[i];
      NotEarlier(open, done, i);
      ghost var gone := Views(done);
      pos.Close(cfg, last.time, if pos.side == Buy then last.bid else last.ask, EndOfData);
      ClosedOutStep(cfg, before, i, last, gone, newBalance - balance, pos.View());
      newBalance := newBalance + pos.pnl;
      ViewsAppend(done, pos);
      done := done + [pos];
    }
    assert before[..|open|] == before;
  }

  // ---------------------------------------------------------------- one tick of the run

  /** The locals of the run are those of the ledger. */
  ghost predicate Mirrors(l: Ledger, balance: real, tracker: Tracker, open: seq<TradeRecord>, completed: seq<TradeRecord>)
    reads open, completed
  {
    && Apart(open, completed)
    && l.balance == balance && l.tracker == tracker
    && Views(open) == l.open && Views(completed) == l.completed
  }

  lemma ApartConcat(still: seq<TradeRecord>, done: seq<TradeRecord>, open: seq<TradeRecord>, completed: seq<TradeRecord>)
    requires Apart(open, completed) && Apart(still, done) && DrawnFrom(still, open) && DrawnFrom(done, open)
    ensures Apart(still, completed + done)
  {
    forall i, j | 0 <= i < j < |completed + done|
      ensures (completed + done)[i] != (completed + done)[j]
    {
      if i < |completed| <= j {
        assert done[j - |completed|] in open;
      }
    }
  }

  /** The running peak and the largest drop from it. */
  method TrackEquity(tracker: Tracker, equity: real) returns (updated: Tracker)
    ensures updated == Track(tracker, equity)
  {
    var peak, maxDrop, maxDropPct := tracker.peak, tracker.maxDrop, tracker.maxDropPct;
    if equity > peak {
      peak := equity;
    }
    var drop := peak - equity;
    if drop > maxDrop {
      maxDrop := drop;
      if peak > 0.0 {
        maxDropPct := (drop / peak) * 100.0;
      }
    }
    updated := Tracker(peak, maxDrop, maxDropPct);
  }

  /** Exits: step 1 of the loop body. */
  method SettleTick(cfg: BacktestConfig, ghost l: Ledger, tick: Tick, open: seq<TradeRecord>,
                    completed: seq<TradeRecord>, balance: real, tracker: Tracker)
    returns (still: seq<TradeRecord>, done: seq<TradeRecord>, newBalance: real)
    requires Mirrors(l, balance, tracker, open, completed)
    modifies open
    ensures Mirrors(Settle(cfg, l, tick), newBalance, tracker, still, completed + done)
    ensures DrawnFrom(still, open) && DrawnFrom(done, open)
  {
    ghost var earlier := Views(completed);
    still, done, newBalance := SettlePositions(cfg, open, tick, balance);
    assert forall k :: 0 <= k < |completed| ==> completed[k] !in open && completed[k].View() == earlier[k];
    assert Views(completed) == earlier;
    ViewsConcat(completed, done);
    ApartConcat(still, done, open, completed);
  }

  /** Exits, then the equity mark: steps 1 and 2 of the loop body. */
  method SettleAndMark(cfg: BacktestConfig, ghost l: Ledger, tick: Tick, open: seq<TradeRecord>,
                       completed: seq<TradeRecord>, balance: real, tracker: Tracker)
    returns (still: seq<TradeRecord>, done: seq<TradeRecord>, newBalance: real, floating: real, newTracker: Tracker)
    requires Mirrors(l, balance, tracker, open, completed)
    modifies open
    ensures Mirrors(Mark(cfg, Settle(cfg, l, tick), tick), newBalance, newTracker, still, completed + done)
    ensures DrawnFrom(still, open) && DrawnFrom(done, open)
    ensures floating == Floating(cfg, Views(still), tick)
  {
    still, done, newBalance := SettleTick(cfg, l, tick, open, completed, balance, tracker);
    floating := FloatingPnl(cfg, still, tick);
    newTracker := TrackEquity(tracker, newBalance + floating);
  }

  /** The account and the market as run() hands them to the risk engine. */
  method AskRisk(cfg: BacktestConfig, ghost l: Ledger, tick: Tick, candidate: Candidate, tickAgeMs: Option<int>,
                 balance: real, tracker: Tracker, floating: real, open: seq<TradeRecord>)
    returns (decision: Decision)
    requires candidate.Candidate?
    requires l.balance == balance && l.tracker == tracker && l.open == Views(open)
    requires floating == Floating(cfg, l.open, tick)
    ensures decision == DecisionFor(cfg, l, tick, Reply(true, candidate, tickAgeMs))
  {
    var exposure := OpenLots(open);
    var snapshot := Snapshot(balance + floating, tracker.peak, balance - cfg.initialBalance, floating, |open|,
                             None, None, exposure, 0.0);
    assert snapshot == SnapshotOf(cfg, l, tick);
    var market := Market(true, tickAgeMs, Some(tick.ask - tick.bid));
    decision := RiskEngine.Evaluate(cfg.risk, snapshot, Some(LevelsOf(candidate)), Some(market), Some("CLEAR"));
  }

  /** A fill at the touch plus slippage, with the commission of both legs. */
  method OpenTrade(cfg: BacktestConfig, i: nat, tick: Tick, candidate: Candidate, lots: real)
    returns (record: TradeRecord)
    requires candidate.Candidate?
    ensures fresh(record) && record.View() == EntryTrade(cfg, i, tick, candidate, lots)
  {
    var slippage := cfg.slippagePoints as real * cfg.pointValue;
    var entryPrice := if candidate.side == Buy then tick.ask + slippage else tick.bid - slippage;
    record := new TradeRecord(Trade(i, candidate.side, tick.time, entryPrice, lots, candidate.stopLoss,
                                    candidate.takeProfit, cfg.commissionPerLot * lots * 2.0, None, 0.0));
  }

  /** Asks the risk engine, and on approval with lots creates the trade: step 4 of the loop body. */
  method ConsiderEntry(cfg: BacktestConfig, ghost l: Ledger, i: nat, tick: Tick, candidate: Candidate,
                       tickAgeMs: Option<int>, balance: real, tracker: Tracker, floating: real, open: seq<TradeRecord>)
    returns (trade: Option<TradeRecord>)
    requires candidate.Candidate?
    requires l.balance == balance && l.tracker == tracker && l.open == Views(open)
    requires floating == Floating(cfg, l.open, tick)
    ensures trade.Some? <==> Enters(cfg, l, tick, Reply(true, candidate, tickAgeMs))
    ensures trade.Some? ==>
              fresh(trade.value) &&
              trade.value.View() ==
              EntryTrade(cfg, i, tick, candidate,
                         DecisionFor(cfg, l, tick, Reply(true, candidate, tickAgeMs)).lots.value)
  {
    var decision := AskRisk(cfg, l, tick, candidate, tickAgeMs, balance, tracker, floating, open);
    trade := None;
    if decision.verdict == Approved && decision.lots.Some? && decision.lots.value != 0.0 {
      var record := OpenTrade(cfg, i, tick, candidate, decision.lots.value);
      trade := Some(record);
    }
  }

  // ---------------------------------------------------------------- the result

  /** The summary of a run; percentages and ratios before the two-decimal presentation. */
  datatype BacktestResult = BacktestResult(
    initialBalance: real, finalBalance: real, netPnl: real, totalTrades: nat, winningTrades: nat, losingTrades: nat,
    winRatePct: real, profitFactor: Option<real>, maxDrawdown: real, maxDrawdownPct: real, grossProfit: real,
    grossLoss: real, expectancy: real, largestWin: real, largestLoss: real, consecutiveWins: nat,
    consecutiveLosses: nat)

  function NoTrades(initial: real): BacktestResult
  {
    BacktestResult(initial, initial, 0.0, 0, 0, 0, 0.0, None, 0.0, 0.0, 0.0, 0.0, 0.0, 0.0, 0.0, 0, 0)
  }

  function Pnls(ts: seq<Trade>): seq<real>
  {
    seq(|ts|, i requires 0 <= i < |ts| => ts[i].pnl)
  }

  /** A ratio of zero is reported as missing, like one with no losses. */
  function ReportedProfitFactor(profit: real, loss: real): Option<real>
  {
    if loss > 0.0 && profit / loss != 0.0 then Some(profit / loss) else None
  }

  /** What each field of the summary says about the realised results of the run. */
  ghost predicate Summarises(r: BacktestResult, cfg: BacktestConfig, l: Ledger)
  {
    var pnls := Pnls(l.completed);
    var wins, losses := Select(Win, pnls), Select(Loss, pnls);
    && r.initialBalance == cfg.initialBalance && r.finalBalance == l.balance
    && r.netPnl == l.balance - cfg.initialBalance
    && r.totalTrades == |l.completed| && r.winningTrades == |wins| && r.losingTrades == |losses|
    && r.winRatePct == (if |pnls| > 0 then (|wins| as real / |pnls| as real) * 100.0 else 0.0)
    && r.grossProfit == Sum(wins) && r.grossLoss == Abs(Sum(losses))
    && r.profitFactor == ReportedProfitFactor(r.grossProfit, r.grossLoss)
    && r.expectancy == (if |pnls| > 0 then r.netPnl / |pnls| as real else 0.0)
    && r.maxDrawdown == l.tracker.maxDrop && r.maxDrawdownPct == l.tracker.maxDropPct
    && IsLargest(r.largestWin, Win, pnls) && IsLargest(r.largestLoss, Loss, pnls)
    && IsLongestRun(r.consecutiveWins, Win, pnls) && IsLongestRun(r.consecutiveLosses, Loss, pnls)
  }

  method Summarise(cfg: BacktestConfig, ghost l: Ledger, balance: real, tracker: Tracker, completed: seq<TradeRecord>)
    returns (r: BacktestResult)
    requires l.balance == balance && l.tracker == tracker && l.completed == Views(completed)
    ensures Summarises(r, cfg, l)
  {
    var pnls := Pnls(Views(completed));
    var wins, losses := Select(Win, pnls), Select(Loss, pnls);
    var winRate := if |pnls| > 0 then (|wins| as real / |pnls| as real) * 100.0 else 0.0;
    var grossProfit, grossLoss := Sum(wins), Abs(Sum(losses));
    var netPnl := balance - cfg.initialBalance;
    var largestWin := Largest(Win, pnls);
    var largestLoss := Largest(Loss, pnls);
    var consecutiveWins, consecutiveLosses := ConsecutiveRuns(pnls);
    r := BacktestResult(cfg.initialBalance, balance, netPnl, |completed|, |wins|, |losses|, winRate,
                        ReportedProfitFactor(grossProfit, grossLoss), tracker.maxDrop, tracker.maxDropPct,
                        grossProfit, grossLoss, if |pnls| > 0 then netPnl / |pnls| as real else 0.0,
                        largestWin, largestLoss, consecutiveWins, consecutiveLosses);
  }

  /** What run() hands back, against the finished ledger. */
  ghost predicate Reports(l: Ledger, cfg: BacktestConfig, r: BacktestResult, trades: seq<TradeRecord>)
    reads trades
  {
    Views(trades) == l.completed && Summarises(r, cfg, l)
  }

  /** Closes out at the last tick and summarises. */
  method Conclude(cfg: BacktestConfig, ghost l: Ledger, last: Tick, open: seq<TradeRecord>,
                  completed: seq<TradeRecord>, balance: real, tracker: Tracker)
    returns (result: BacktestResult, trades: seq<TradeRecord>)
    requires Mirrors(l, balance, tracker, open, completed)
    modifies open
    ensures Reports(Finish(cfg, l, last), cfg, result, trades)
  {
    ghost var earlier := Views(completed);
    var done, newBalance := CloseRemaining(cfg, open, last, balance);
    assert forall k :: 0 <= k < |completed| ==> completed[k] !in open && completed[k].View() == earlier[k];
    assert Views(completed) == earlier;
    ViewsConcat(completed, done);
    trades := completed + done;
    result := Summarise(cfg, Finish(cfg, l, last), newBalance, tracker, trades);
  }

  // ---------------------------------------------------------------- the engine

  class BacktestEngine {
    const cfg: BacktestConfig
    const brain: Brain
    const barBuilder: BarBuilder

    ghost predicate Valid() { barBuilder.Valid() && barBuilder.Describe() == cfg.series && cfg.series.interval > 0 }

    constructor (cfg: BacktestConfig, pipeline: PipelineConfig)
      requires TimeframeSeconds(cfg.series.timeframe) == Some(cfg.series.interval) && cfg.series.interval > 0
      ensures Valid() && fresh(barBuilder) && barBuilder.View() == EMPTY && this.cfg == cfg
      ensures brain == PipelineBrain(pipeline)
    {
      this.cfg, brain := cfg, PipelineBrain(pipeline);
      barBuilder := new BarBuilder(cfg.series.symbol, cfg.series.timeframe);
    }

    /** Feeds the bar builder and, when a bar closed, the brain and the risk engine: steps 3 and 4 of the loop body. */
    method FeedAndEnter(ghost l: Ledger, i: nat, tick: Tick, clock: Clock, closedBars: seq<Bar>, balance: real,
                        tracker: Tracker, floating: real, open: seq<TradeRecord>, ghost completed: seq<TradeRecord>)
      returns (bars: seq<Bar>, newOpen: seq<TradeRecord>)
      requires Valid() && Mirrors(l, balance, tracker, open, completed) && floating == Floating(cfg, l.open, tick)
      modifies barBuilder
      ensures barBuilder.View() == Step(cfg.series, old(barBuilder.View()), tick)
      ensures bars == closedBars + NewBars(cfg.series, old(barBuilder.View()), tick)
      ensures Mirrors(Enter(cfg, l, i, tick, ReplyTo(cfg.series, brain, old(barBuilder.View()), bars, tick, clock)),
                      balance, tracker, newOpen, completed)
      ensures forall k :: 0 <= k < |newOpen| ==> newOpen[k] in open || fresh(newOpen[k])
    {
      bars, newOpen := closedBars, open;
      var closedBar := barBuilder.ProcessTick(tick);
      if closedBar.Some? {
        bars := closedBars + [closedBar.value];
        var candidate := CandidateOf(brain(tick, bars, "CLEAR", clock.staleForBrain));
        if candidate.Candidate? {
          var trade := ConsiderEntry(cfg, l, i, tick, candidate, clock.tickAgeMs, balance, tracker, floating, open);
          if trade.Some? {
            ViewsAppend(open, trade.value);
            ApartAppend(open, completed, trade.value);
            newOpen := open + [trade.value];
          }
        }
      }
    }

    /** One pass of the loop body. */
    method ProcessTick(ghost l: Ledger, i: nat, tick: Tick, clock: Clock, closedBars: seq<Bar>, balance: real,
                       tracker: Tracker, open: seq<TradeRecord>, completed: seq<TradeRecord>)
      returns (bars: seq<Bar>, newOpen: seq<TradeRecord>, newCompleted: seq<TradeRecord>, newBalance: real,
               newTracker: Tracker)
      requires Valid() && Mirrors(l, balance, tracker, open, completed)
      modifies barBuilder, open
      ensures barBuilder.View() == Step(cfg.series, old(barBuilder.View()), tick)
      ensures bars == closedBars + NewBars(cfg.series, old(barBuilder.View()), tick)
      ensures Mirrors(StepTick(cfg, l, i, tick, ReplyTo(cfg.series, brain, old(barBuilder.View()), bars, tick, clock)),
                      newBalance, newTracker, newOpen, newCompleted)
      ensures forall k :: 0 <= k < |newOpen| ==> newOpen[k] in open || fresh(newOpen[k])
    {
      var still, done, floating;
      still, done, newBalance, floating, newTracker := SettleAndMark(cfg, l, tick, open, completed, balance, tracker);
      newCompleted := completed + done;
      bars, newOpen := FeedAndEnter(Mark(cfg, Settle(cfg, l, tick), tick), i, tick, clock, closedBars, newBalance,
                                    newTracker, floating, still, newCompleted);
    }

    /** The tick loop up to tick n. */
    ghost predicate Streamed(ticks: seq<Tick>, replies: seq<Reply>, b0: Builder, n: nat, closedBars: seq<Bar>,
                             balance: real, tracker: Tracker, open: seq<TradeRecord>, completed: seq<TradeRecord>)
      requires n <= |ticks| == |replies| && Valid()
      reads barBuilder, open, completed
    {
      && Mirrors(RunTo(cfg, ticks, replies, n), balance, tracker, open, completed)
      && barBuilder.View() == Fed(cfg.series, b0, ticks, n)
      && closedBars == BarsClosed(cfg.series, b0, ticks, n)
    }

    method StreamTick(ticks: seq<Tick>, clocks: seq<Clock>, ghost replies: seq<Reply>, ghost b0: Builder, i: nat,
                      closedBars: seq<Bar>, balance: real, tracker: Tracker, open: seq<TradeRecord>,
                      completed: seq<TradeRecord>)
      returns (bars: seq<Bar>, newOpen: seq<TradeRecord>, newCompleted: seq<TradeRecord>, newBalance: real,
               newTracker: Tracker)
      requires Valid() && i < |ticks| == |clocks| && replies == Replies(cfg.series, brain, b0, ticks, clocks)
      requires Streamed(ticks, replies, b0, i, closedBars, balance, tracker, open, completed)
      modifies barBuilder, open
      ensures Streamed(ticks, replies, b0, i + 1, bars, newBalance, newTracker, newOpen, newCompleted)
      ensures forall k :: 0 <= k < |newOpen| ==> newOpen[k] in open || fresh(newOpen[k])
    {
      bars, newOpen, newCompleted, newBalance, newTracker :=
        ProcessTick(RunTo(cfg, ticks, replies, i), i, ticks[i], clocks[i], closedBars, balance, tracker, open, completed);
    }

    lemma StreamStart(ticks: seq<Tick>, replies: seq<Reply>, b0: Builder)
      requires |ticks| == |replies| && Valid() && barBuilder.View() == b0
      ensures Streamed(ticks, replies, b0, 0, [], cfg.initialBalance, Tracker(cfg.initialBalance, 0.0, 0.0), [], [])
    {}

    /** The tick loop. */
    method Stream(ticks: seq<Tick>, clocks: seq<Clock>, ghost replies: seq<Reply>)
      returns (closedBars: seq<Bar>, open: seq<TradeRecord>, completed: seq<TradeRecord>, balance: real, tracker: Tracker)
      requires Valid() && |clocks| == |ticks|
      requires replies == Replies(cfg.series, brain, barBuilder.View(), ticks, clocks)
      modifies barBuilder
      ensures Streamed(ticks, replies, old(barBuilder.View()), |ticks|, closedBars, balance, tracker, open, completed)
      ensures forall k :: 0 <= k < |open| ==> fresh(open[k])
    {
      ghost var b0 := barBuilder.View();
      closedBars, open, completed := [], [], [];
      balance, tracker := cfg.initialBalance, Tracker(cfg.initialBalance, 0.0, 0.0);
      StreamStart(ticks, replies, b0);
      for i := 0 to |ticks|
        invariant Streamed(ticks, replies, b0, i, closedBars, balance, tracker, open, completed)
        invariant forall k :: 0 <= k < |open| ==> fresh(open[k])
      {
        closedBars, open, completed, balance, tracker :=
          StreamTick(ticks, clocks, replies, b0, i, closedBars, balance, tracker, open, completed);
      }
    }

    /**
     * The completed records are the completed trades of the ledger, in its order, and the summary
     * describes them. The bar builder belongs to the engine, so a second run starts from its state.
     */
    method Run(ticks: seq<Tick>, clocks: seq<Clock>) returns (result: BacktestResult, trades: seq<TradeRecord>)
      requires Valid() && |clocks| == |ticks|
      modifies barBuilder
      ensures barBuilder.View() == Fed(cfg.series, old(barBuilder.View()), ticks, |ticks|)
      ensures ticks == [] ==> result == NoTrades(cfg.initialBalance) && trades == []
      ensures ticks != [] ==>
                Reports(RunAll(cfg, ticks, Replies(cfg.series, brain, old(barBuilder.View()), ticks, clocks)),
                        cfg, result, trades)
    {
      if ticks == [] {
        return NoTrades(cfg.initialBalance), [];
      }
      ghost var replies := Replies(cfg.series, brain, barBuilder.View(), ticks, clocks);
      var closedBars, open, completed, balance, tracker := Stream(ticks, clocks, replies);
      result, trades := Conclude(cfg, RunTo(cfg, ticks, replies, |ticks|), ticks[|ticks| - 1], open, completed, balance,
                                 tracker);
    }
  }
}

/** The tick-to-bar aggregator: streaming state, seeding of history, and the class that holds both. */
module BarBuilding {
  import opened Prelude
  import opened MarketData

  /** What a builder aggregates: symbol, timeframe name and bucket width in seconds. */
  datatype Series = Series(symbol: string, timeframe: string, interval: int)

  /** The bar being built. */
  datatype Running = Running(start: int, prices: Ohlcv)

  datatype Builder = Builder(running: Option<Running>, closed: seq<Bar>)

  const EMPTY := Builder(None, [])

  function Single(t: Tick): Ohlcv { Ohlcv(t.Mid(), t.Mid(), t.Mid(), t.Mid(), t.TradedVolume()) }

  /** Price history `a` followed by price history `b`. */
  function Merge(a: Ohlcv, b: Ohlcv): Ohlcv
  {
    Ohlcv(a.open, Max(a.high, b.high), Min(a.low, b.low), b.close, a.volume + b.volume)
  }

  function CloseBar(s: Series, r: Running): Bar
  {
    Bar(s.symbol, s.timeframe, r.start, r.start + s.interval * MICROS,
        r.prices.open, r.prices.high, r.prices.low, r.prices.close, r.prices.volume, true)
  }

  predicate Crosses(s: Series, b: Builder, t: Tick)
    requires s.interval > 0
  {
    b.running.Some? && Bucket(s.interval, t.time) > b.running.value.start
  }

  function Step(s: Series, b: Builder, t: Tick): Builder
    requires s.interval > 0
  {
    var started := Some(Running(Bucket(s.interval, t.time), Single(t)));
    if b.running.None? then Builder(started, b.closed)
    else if Crosses(s, b, t) then Builder(started, b.closed + [CloseBar(s, b.running.value)])
    else Builder(Some(Running(b.running.value.start, Merge(b.running.value.prices, Single(t)))), b.closed)
  }

  /** A started builder after a whole stream. */
  function Run(s: Series, ticks: seq<Tick>): Builder
    requires s.interval > 0
  {
    if ticks == [] then EMPTY else Step(s, Run(s, ticks[..|ticks| - 1]), ticks[|ticks| - 1])
  }

  // ---------------------------------------------------------------- seeding

  const MAX_SEEDED := 300

  function LastBars(bars: seq<Bar>, n: nat): (r: seq<Bar>)
  {
    if |bars| > n then bars[|bars| - n..] else bars
  }

  /** The dictionary keyed by open time that a list of bars builds; later entries override. */
  function ByOpenTime(m: map<int, Bar>, bars: seq<Bar>): map<int, Bar>
  {
    if bars == [] then m
    else
      var front := ByOpenTime(m, bars[..|bars| - 1]);
      var b := bars[|bars| - 1];
      front[b.openTime := b]
  }

  function OnlyClosed(bars: seq<Bar>): seq<Bar>
  {
    if bars == [] then []
    else OnlyClosed(bars[..|bars| - 1]) + (if bars[|bars| - 1].isClosed then [bars[|bars| - 1]] else [])
  }

  function Values(m: map<int, Bar>, keys: seq<int>): seq<Bar>
    requires forall i :: 0 <= i < |keys| ==> keys[i] in m
  {
    seq(|keys|, i requires 0 <= i < |keys| => m[keys[i]])
  }

  /** sorted(m.values(), key=open_time). */
  function Chronological(m: map<int, Bar>): seq<Bar> { Values(m, Ascending(m.Keys)) }

  function Seed(closed: seq<Bar>, bars: seq<Bar>): seq<Bar>
  {
    LastBars(Chronological(ByOpenTime(ByOpenTime(map[], closed), OnlyClosed(bars))), MAX_SEEDED)
  }

  lemma ByOpenTimeStep(m: map<int, Bar>, bars: seq<Bar>, i: nat)
    requires i < |bars|
    ensures ByOpenTime(m, bars[..i + 1]) == ByOpenTime(m, bars[..i])[bars[i].openTime := bars[i]]
  {
    assert bars[..i + 1][..i] == bars[..i];
  }

  lemma OnlyClosedStep(m: map<int, Bar>, bars: seq<Bar>, i: nat)
    requires i < |bars|
    ensures ByOpenTime(m, OnlyClosed(bars[..i + 1])) ==
            if bars[i].isClosed then ByOpenTime(m, OnlyClosed(bars[..i]))[bars[i].openTime := bars[i]]
            else ByOpenTime(m, OnlyClosed(bars[..i]))
  {
    assert bars[..i + 1][..i] == bars[..i];
    var kept := OnlyClosed(bars[..i]);
    if bars[i].isClosed {
      ByOpenTimeStep(m, kept + [bars[i]], |kept|);
      assert (kept + [bars[i]])[..|kept|] == kept && (kept + [bars[i]])[..|kept| + 1] == kept + [bars[i]];
    } else {
      assert kept + [] == kept;
    }
  }

  // ---------------------------------------------------------------- the class

  class BarBuilder {
    const symbol: string
    const timeframe: string
    const interval: int
    var currentBarStart: Option<int>
    var open: real
    var high: real
    var low: real
    var close: real
    var volume: real
    var closedBars: seq<Bar>

    ghost predicate Valid() { TimeframeSeconds(timeframe) == Some(interval) && interval > 0 }

    function Describe(): Series { Series(symbol, timeframe, interval) }

    function View(): Builder
      reads this
    {
      Builder(if currentBarStart.None? then None
              else Some(Running(currentBarStart.value, Ohlcv(open, high, low, close, volume))),
              closedBars)
    }

    /** The source raises ValueError on any other timeframe, so no builder exists for one. */
    constructor (symbol: string, timeframe: string)
      requires TimeframeSeconds(timeframe).Some?
      ensures Valid() && View() == EMPTY
      ensures this.symbol == symbol && this.timeframe == timeframe
    {
      this.symbol, this.timeframe := symbol, timeframe;
      interval := TimeframeSeconds(timeframe).value;
      currentBarStart, volume, closedBars := None, 0.0, [];
      open, high, low, close := 0.0, 0.0, 0.0, 0.0;
    }

    method ProcessTick(tick: Tick) returns (closedBar: Option<Bar>)
      requires Valid()
      modifies this
      ensures View() == Step(Describe(), old(View()), tick)
      ensures closedBar == if Crosses(Describe(), old(View()), tick)
                           then Some(CloseBar(Describe(), old(View()).running.value)) else None
    {
      var price := tick.Mid();
      var bucketStart := Bucket(interval, tick.time);
      closedBar := None;
      if currentBarStart.None? {
        currentBarStart := Some(bucketStart);
        open, high, low, close, volume := price, price, price, price, tick.TradedVolume();
      } else if bucketStart > currentBarStart.value {
        var bar := Bar(symbol, timeframe, currentBarStart.value, currentBarStart.value + interval * MICROS,
                       open, high, low, close, volume, true);
        closedBar := Some(bar);
        closedBars := closedBars + [bar];
        currentBarStart := Some(bucketStart);
        open, high, low, close, volume := price, price, price, price, tick.TradedVolume();
      } else {
        if price > high {
          high := price;
        }
        if price < low {
          low := price;
        }
        close := price;
        volume := volume + tick.TradedVolume();
      }
    }

    method SeedClosedBars(bars: seq<Bar>)
      modifies this`closedBars
      ensures closedBars == Seed(old(closedBars), bars)
    {
      var existing: map<int, Bar> := map[];
      for i := 0 to |closedBars|
        invariant closedBars == old(closedBars)
        invariant existing == ByOpenTime(map[], closedBars[..i])
      {
        ByOpenTimeStep(map[], closedBars, i);
        existing := existing[closedBars[i].openTime := closedBars[i]];
      }
      assert closedBars[..|closedBars|] == closedBars;
      ghost var before := existing;
      for i := 0 to |bars|
        invariant existing == ByOpenTime(before, OnlyClosed(bars[..i]))
      {
        OnlyClosedStep(before, bars, i);
        if bars[i].isClosed {
          existing := existing[bars[i].openTime := bars[i]];
        }
      }
      assert bars[..|bars|] == bars;
      closedBars := Chronological(existing);
      if |closedBars| > MAX_SEEDED {
        closedBars := closedBars[|closedBars| - MAX_SEEDED..];
      }
    }
  }
}

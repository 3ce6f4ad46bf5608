/** Streaming aggregation computes one exact bar per bucket, whatever the order of the ticks. */
module StreamEqualsBatch {
  import opened MarketData
  import opened BarBuilding

  /**
   * Latest bucket reached by a stream. A late tick never reopens an earlier bar, so this is the
   * bucket a tick is booked to; on a time-ordered stream it is the tick's own bucket.
   */
  function Frontier(interval: int, ticks: seq<Tick>): int
    requires interval > 0 && ticks != []
  {
    var own := Bucket(interval, ticks[|ticks| - 1].time);
    if |ticks| == 1 then own
    else
      var before := Frontier(interval, ticks[..|ticks| - 1]);
      if own > before then own else before
  }

  /** The ticks booked to bucket b, in arrival order. */
  function Members(interval: int, ticks: seq<Tick>, b: int): seq<Tick>
    requires interval > 0
  {
    if ticks == [] then []
    else
      Members(interval, ticks[..|ticks| - 1], b) +
      (if Frontier(interval, ticks) == b then [ticks[|ticks| - 1]] else [])
  }

  function Volume(ticks: seq<Tick>): real
  {
    if ticks == [] then 0.0 else Volume(ticks[..|ticks| - 1]) + ticks[|ticks| - 1].TradedVolume()
  }

  function BarVolume(bars: seq<Bar>): real
  {
    if bars == [] then 0.0 else BarVolume(bars[..|bars| - 1]) + bars[|bars| - 1].volume
  }

  /** `p` is the OHLCV summary of exactly these ticks. */
  ghost predicate Summarises(p: Ohlcv, ticks: seq<Tick>)
  {
    && ticks != []
    && p.open == ticks[0].Mid()
    && p.close == ticks[|ticks| - 1].Mid()
    && (forall i :: 0 <= i < |ticks| ==> p.low <= ticks[i].Mid() <= p.high)
    && (exists i :: 0 <= i < |ticks| && ticks[i].Mid() == p.high)
    && (exists i :: 0 <= i < |ticks| && ticks[i].Mid() == p.low)
    && p.volume == Volume(ticks)
  }

  lemma SummaryOfOne(t: Tick)
    ensures Summarises(Single(t), [t])
  {
    assert [t][0].Mid() == t.Mid();
    assert Volume([t]) == Volume([]) + t.TradedVolume() by { assert [t][..0] == []; }
  }

  lemma SummaryExtends(p: Ohlcv, ticks: seq<Tick>, t: Tick)
    requires Summarises(p, ticks)
    ensures Summarises(Merge(p, Single(t)), ticks + [t])
  {
    var all, q := ticks + [t], Merge(p, Single(t));
    assert all[..|ticks|] == ticks;
    assert all[|ticks|] == t;
    var h :| 0 <= h < |ticks| && ticks[h].Mid() == p.high;
    var l :| 0 <= l < |ticks| && ticks[l].Mid() == p.low;
    assert all[h] == ticks[h] && all[l] == ticks[l];
    assert all[if p.high < t.Mid() then |ticks| else h].Mid() == q.high;
    assert all[if t.Mid() < p.low then |ticks| else l].Mid() == q.low;
  }

  /** No tick is booked beyond the frontier, and the frontier bucket is never empty. */
  lemma {:induction false} MembersBound(interval: int, ticks: seq<Tick>, b: int)
    requires interval > 0 && ticks != [] && b > Frontier(interval, ticks)
    ensures Members(interval, ticks, b) == []
  {
    if |ticks| > 1 {
      MembersBound(interval, ticks[..|ticks| - 1], b);
    }
  }

  /** What the builder has built so far, stated against the ticks alone. */
  ghost predicate Batched(s: Series, ticks: seq<Tick>, b: Builder)
    requires s.interval > 0 && ticks != []
  {
    && b.running.Some?
    && b.running.value.start == Frontier(s.interval, ticks)
    && Summarises(b.running.value.prices, Members(s.interval, ticks, Frontier(s.interval, ticks)))
    && (forall i :: 0 <= i < |b.closed| ==> BatchBar(s, ticks, b.closed[i]))
    && Ordered(b)
    && Complete(s, ticks, b)
    && BarVolume(b.closed) + b.running.value.prices.volume == Volume(ticks)
  }

  /** Open times strictly increase, up to and including the running bar's. */
  ghost predicate Ordered(b: Builder)
  {
    && (forall i, j :: 0 <= i < j < |b.closed| ==> b.closed[i].openTime < b.closed[j].openTime)
    && (b.running.Some? ==> forall i :: 0 <= i < |b.closed| ==> b.closed[i].openTime < b.running.value.start)
  }

  /** Every bucket the stream has reached has its bar. */
  ghost predicate Complete(s: Series, ticks: seq<Tick>, b: Builder)
    requires s.interval > 0
  {
    forall n :: 0 < n <= |ticks| ==> Covered(b, Frontier(s.interval, ticks[..n]))
  }

  /** A closed bar of the series that summarises exactly the ticks of its own aligned bucket. */
  ghost predicate BatchBar(s: Series, ticks: seq<Tick>, bar: Bar)
    requires s.interval > 0
  {
    && bar.symbol == s.symbol && bar.timeframe == s.timeframe && bar.isClosed
    && bar.closeTime == bar.openTime + s.interval * MICROS
    && Bucket(s.interval, bar.openTime) == bar.openTime
    && Summarises(bar.Prices(), Members(s.interval, ticks, bar.openTime))
  }

  /** Bucket f has its bar: closed, or still running. */
  ghost predicate Covered(b: Builder, f: int)
  {
    || (b.running.Some? && b.running.value.start == f)
    || exists i :: 0 <= i < |b.closed| && b.closed[i].openTime == f
  }

  lemma {:induction false} FrontierAligned(interval: int, ticks: seq<Tick>)
    requires interval > 0 && ticks != []
    ensures Bucket(interval, Frontier(interval, ticks)) == Frontier(interval, ticks)
  {
    BucketIdempotent(interval, ticks[|ticks| - 1].time);
    if |ticks| > 1 {
      FrontierAligned(interval, ticks[..|ticks| - 1]);
    }
  }

  /**
   * Streaming equals batch: after any non-empty stream the builder holds exactly one bar per
   * non-empty bucket, the newest one still running, each summarising exactly the ticks booked to it.
   */
  lemma {:induction false} StreamingEqualsBatch(s: Series, ticks: seq<Tick>)
    requires s.interval > 0 && ticks != []
    ensures Batched(s, ticks, Run(s, ticks))
  {
    var t := ticks[|ticks| - 1];
    var front := ticks[..|ticks| - 1];
    assert ticks == front + [t] && ticks[..|ticks|] == ticks;
    FrontierAligned(s.interval, ticks);
    if front == [] {
      SummaryOfOne(t);
      assert Members(s.interval, ticks, Frontier(s.interval, ticks)) == [t];
    } else {
      StreamingEqualsBatch(s, front);
      BatchedStep(s, front, Run(s, front), t);
    }
  }

  /** Where one more tick moves the frontier, and which ticks it joins. */
  lemma OneMoreTick(s: Series, front: seq<Tick>, b: Builder, t: Tick)
    requires s.interval > 0 && front != [] && Batched(s, front, b)
    ensures Frontier(s.interval, front + [t]) == Step(s, b, t).running.value.start
    ensures forall o :: o != Frontier(s.interval, front + [t]) ==>
              Members(s.interval, front + [t], o) == Members(s.interval, front, o)
    ensures Members(s.interval, front + [t], Frontier(s.interval, front + [t])) ==
            Members(s.interval, front, Frontier(s.interval, front + [t])) + [t]
    ensures Volume(front + [t]) == Volume(front) + t.TradedVolume()
  {
    assert (front + [t])[..|front|] == front && (front + [t])[|front|] == t;
  }

  lemma RunningStep(s: Series, front: seq<Tick>, b: Builder, t: Tick)
    requires s.interval > 0 && front != [] && Batched(s, front, b)
    ensures var f := Frontier(s.interval, front + [t]);
            Summarises(Step(s, b, t).running.value.prices, Members(s.interval, front + [t], f))
  {
    OneMoreTick(s, front, b, t);
    var f := Frontier(s.interval, front + [t]);
    if Crosses(s, b, t) {
      MembersBound(s.interval, front, f);
      SummaryOfOne(t);
      assert [] + [t] == [t];
    } else {
      SummaryExtends(b.running.value.prices, Members(s.interval, front, f), t);
    }
  }

  lemma KeptBar(s: Series, front: seq<Tick>, b: Builder, t: Tick, i: nat)
    requires s.interval > 0 && front != [] && Batched(s, front, b) && i < |b.closed|
    ensures BatchBar(s, front + [t], b.closed[i])
  {
    OneMoreTick(s, front, b, t);
    assert BatchBar(s, front, b.closed[i]);
    assert b.closed[i].openTime < b.running.value.start <= Frontier(s.interval, front + [t]);
  }

  lemma NewBar(s: Series, front: seq<Tick>, b: Builder, t: Tick)
    requires s.interval > 0 && front != [] && Batched(s, front, b) && Crosses(s, b, t)
    ensures BatchBar(s, front + [t], CloseBar(s, b.running.value))
  {
    OneMoreTick(s, front, b, t);
    FrontierAligned(s.interval, front);
    assert CloseBar(s, b.running.value).Prices() == b.running.value.prices;
    assert b.running.value.start < Frontier(s.interval, front + [t]);
  }

  lemma CoveredStep(s: Series, b: Builder, t: Tick, f: int)
    requires s.interval > 0 && Covered(b, f)
    ensures Covered(Step(s, b, t), f)
  {
    var after := Step(s, b, t);
    if b.running.Some? && b.running.value.start == f {
      if Crosses(s, b, t) {
        assert after.closed[|b.closed|].openTime == f;
      }
    } else {
      var i :| 0 <= i < |b.closed| && b.closed[i].openTime == f;
      assert after.closed[i] == b.closed[i];
    }
  }

  lemma OrderedStep(s: Series, b: Builder, t: Tick)
    requires s.interval > 0 && Ordered(b) && (b.closed != [] ==> b.running.Some?)
    ensures Ordered(Step(s, b, t))
  {}

  lemma CompleteStep(s: Series, front: seq<Tick>, b: Builder, t: Tick)
    requires s.interval > 0 && Complete(s, front, b)
    requires Covered(Step(s, b, t), Frontier(s.interval, front + [t]))
    ensures Complete(s, front + [t], Step(s, b, t))
  {
    var ticks := front + [t];
    forall n | 0 < n <= |ticks|
      ensures Covered(Step(s, b, t), Frontier(s.interval, ticks[..n]))
    {
      if n <= |front| {
        assert ticks[..n] == front[..n];
        CoveredStep(s, b, t, Frontier(s.interval, front[..n]));
      } else {
        assert ticks[..n] == ticks;
      }
    }
  }

  /** Closing a bar moves its volume from the running to the closed total; nothing is lost. */
  lemma VolumeStep(s: Series, b: Builder, t: Tick)
    requires s.interval > 0 && b.running.Some?
    ensures BarVolume(Step(s, b, t).closed) + Step(s, b, t).running.value.prices.volume ==
            BarVolume(b.closed) + b.running.value.prices.volume + t.TradedVolume()
  {
    if Crosses(s, b, t) {
      assert Step(s, b, t).closed[..|b.closed|] == b.closed;
    }
  }

  lemma ClosedStep(s: Series, front: seq<Tick>, b: Builder, t: Tick)
    requires s.interval > 0 && front != [] && Batched(s, front, b)
    ensures forall i :: 0 <= i < |Step(s, b, t).closed| ==> BatchBar(s, front + [t], Step(s, b, t).closed[i])
  {
    forall i | 0 <= i < |Step(s, b, t).closed|
      ensures BatchBar(s, front + [t], Step(s, b, t).closed[i])
    {
      if i < |b.closed| {
        KeptBar(s, front, b, t, i);
      } else {
        NewBar(s, front, b, t);
      }
    }
  }

  lemma FrontierStep(s: Series, front: seq<Tick>, b: Builder, t: Tick)
    requires s.interval > 0 && front != [] && Batched(s, front, b)
    ensures Step(s, b, t).running.Some? && Frontier(s.interval, front + [t]) == Step(s, b, t).running.value.start
    ensures Volume(front + [t]) == Volume(front) + t.TradedVolume()
  {
    OneMoreTick(s, front, b, t);
  }

  lemma BatchedStep(s: Series, front: seq<Tick>, b: Builder, t: Tick)
    requires s.interval > 0 && front != [] && Batched(s, front, b)
    ensures Batched(s, front + [t], Step(s, b, t))
  {
    FrontierStep(s, front, b, t);
    RunningStep(s, front, b, t);
    ClosedStep(s, front, b, t);
    OrderedStep(s, b, t);
    CompleteStep(s, front, b, t);
    VolumeStep(s, b, t);
  }

  // ---------------------------------------------------------------- time-ordered streams

  ghost predicate TimeOrdered(ticks: seq<Tick>)
  {
    forall i, j :: 0 <= i < j < |ticks| ==> ticks[i].time <= ticks[j].time
  }

  /** The ticks whose own timestamp lies in bucket b. */
  function InBucket(interval: int, ticks: seq<Tick>, b: int): seq<Tick>
    requires interval > 0
  {
    if ticks == [] then []
    else
      InBucket(interval, ticks[..|ticks| - 1], b) +
      (if Bucket(interval, ticks[|ticks| - 1].time) == b then [ticks[|ticks| - 1]] else [])
  }

  /** On a time-ordered stream, booking by frontier is booking by timestamp. */
  lemma {:induction false} OrderedFrontier(interval: int, ticks: seq<Tick>, b: int)
    requires interval > 0 && TimeOrdered(ticks)
    ensures ticks != [] ==> Frontier(interval, ticks) == Bucket(interval, ticks[|ticks| - 1].time)
    ensures Members(interval, ticks, b) == InBucket(interval, ticks, b)
  {
    if |ticks| > 1 {
      BucketMonotone(interval, ticks[|ticks| - 2].time, ticks[|ticks| - 1].time);
    }
    if ticks != [] {
      OrderedFrontier(interval, ticks[..|ticks| - 1], b);
    }
  }

  /** Streams of the backtest and of the bar manager are time-ordered: bars follow the timestamps. */
  lemma OrderedStreamBars(s: Series, ticks: seq<Tick>, i: nat)
    requires s.interval > 0 && ticks != [] && TimeOrdered(ticks) && i < |Run(s, ticks).closed|
    ensures var bar := Run(s, ticks).closed[i];
            Summarises(bar.Prices(), InBucket(s.interval, ticks, bar.openTime))
  {
    StreamingEqualsBatch(s, ticks);
    assert BatchBar(s, ticks, Run(s, ticks).closed[i]);
    OrderedFrontier(s.interval, ticks, Run(s, ticks).closed[i].openTime);
  }

  /** Every bar a builder ever closes is well formed, for any ticks whatsoever. */
  lemma ClosedBarsWellFormed(s: Series, ticks: seq<Tick>, i: nat)
    requires s.interval > 0 && i < |Run(s, ticks).closed|
    ensures Run(s, ticks).closed[i].WellFormed()
  {
    if ticks != [] {
      StreamingEqualsBatch(s, ticks);
      var bar := Run(s, ticks).closed[i];
      var ts := Members(s.interval, ticks, bar.openTime);
      assert BatchBar(s, ticks, bar);
      assert bar.Prices().low <= ts[0].Mid() <= bar.Prices().high;
      assert bar.Prices().low <= ts[|ts| - 1].Mid() <= bar.Prices().high;
    }
  }
}

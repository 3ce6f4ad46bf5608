/** Bars of nested timeframes agree: a coarse bar is the merge of the fine bars inside its bucket. */
module TimeframeHierarchy {
  import opened Prelude
  import opened MarketData
  import opened BarBuilding
  import opened StreamEqualsBatch

  function MergeAll(xs: seq<Ohlcv>): Ohlcv
    requires xs != []
  {
    if |xs| == 1 then xs[0] else Merge(MergeAll(xs[..|xs| - 1]), xs[|xs| - 1])
  }

  lemma MergeAllAppend(xs: seq<Ohlcv>, x: Ohlcv)
    ensures MergeAll(xs + [x]) == if xs == [] then x else Merge(MergeAll(xs), x)
  {
    assert (xs + [x])[..|xs|] == xs;
  }

  /** Prices of the bars whose open time falls in coarse bucket b. */
  function Inside(interval: int, bars: seq<Bar>, b: int): seq<Ohlcv>
    requires interval > 0
  {
    if bars == [] then []
    else
      Inside(interval, bars[..|bars| - 1], b) +
      (if Bucket(interval, bars[|bars| - 1].openTime) == b then [bars[|bars| - 1].Prices()] else [])
  }

  lemma InsideAppend(interval: int, bars: seq<Bar>, bar: Bar, b: int)
    requires interval > 0
    ensures Inside(interval, bars + [bar], b) ==
            if Bucket(interval, bar.openTime) == b then Inside(interval, bars, b) + [bar.Prices()]
            else Inside(interval, bars, b)
  {
    assert (bars + [bar])[..|bars|] == bars;
  }

  lemma {:induction false} InsideEmpty(interval: int, bars: seq<Bar>, b: int)
    requires interval > 0
    ensures Inside(interval, bars, b) == [] <==>
            forall i :: 0 <= i < |bars| ==> Bucket(interval, bars[i].openTime) != b
  {
    if bars != [] {
      var front := bars[..|bars| - 1];
      InsideEmpty(interval, front, b);
      assert bars == front + [bars[|bars| - 1]];
    }
  }

  /** The fine series divides the coarse one evenly. */
  ghost predicate Divides(fine: Series, coarse: Series)
  {
    fine.interval > 0 && coarse.interval > 0 &&
    exists ratio :: ratio > 0 && coarse.interval == fine.interval * ratio
  }

  lemma NestedBucket(fine: Series, coarse: Series, t: int)
    requires Divides(fine, coarse)
    ensures Bucket(coarse.interval, Bucket(fine.interval, t)) == Bucket(coarse.interval, t)
  {
    var ratio :| ratio > 0 && coarse.interval == fine.interval * ratio;
    BucketNests(fine.interval, ratio, t);
  }

  ghost predicate MergedBar(coarse: Series, fineBars: seq<Bar>, bar: Bar)
    requires coarse.interval > 0
  {
    var xs := Inside(coarse.interval, fineBars, bar.openTime);
    xs != [] && bar.Prices() == MergeAll(xs)
  }

  ghost predicate RunningAgrees(coarse: Series, f: Builder, c: Builder)
    requires coarse.interval > 0 && f.running.Some? && c.running.Some?
  {
    var start := c.running.value.start;
    && Bucket(coarse.interval, f.running.value.start) == start
    && c.running.value.prices == MergeAll(Inside(coarse.interval, f.closed, start) + [f.running.value.prices])
  }

  /** Every fine bar lies in the running coarse bucket or in that of a closed coarse bar. */
  ghost predicate Homed(coarse: Series, f: Builder, c: Builder)
    requires coarse.interval > 0 && c.running.Some?
  {
    forall i :: 0 <= i < |f.closed| ==>
      var b := Bucket(coarse.interval, f.closed[i].openTime);
      b <= c.running.value.start && Covered(c, b)
  }

  /** What ties two builders fed the same ticks together at every moment. */
  ghost predicate Agree(coarse: Series, f: Builder, c: Builder)
    requires coarse.interval > 0
  {
    && f.running.Some? == c.running.Some?
    && (f.running.None? ==> f.closed == [] && c.closed == [])
    && Ordered(c)
    && (forall i :: 0 <= i < |c.closed| ==> MergedBar(coarse, f.closed, c.closed[i]))
    && (f.running.Some? ==> RunningAgrees(coarse, f, c) && Homed(coarse, f, c))
  }

  /**
   * Hierarchy: for any ticks at all and any two nested timeframes, every closed coarse bar has the
   * open, high, low, close and volume of the merged closed fine bars of its bucket, and the running
   * coarse bar those of the closed fine bars so far plus the running fine one.
   */
  lemma {:induction false} CoarseMergesFine(fine: Series, coarse: Series, ticks: seq<Tick>)
    requires Divides(fine, coarse)
    ensures Agree(coarse, Run(fine, ticks), Run(coarse, ticks))
  {
    if ticks != [] {
      var front, t := ticks[..|ticks| - 1], ticks[|ticks| - 1];
      CoarseMergesFine(fine, coarse, front);
      var f, c := Run(fine, front), Run(coarse, front);
      if f.running.None? {
        NestedBucket(fine, coarse, t.time);
      } else {
        FineStartAligned(fine, front);
        CrossingTogether(fine, coarse, f, c, t);
        if Crosses(fine, f, t) {
          AgreeWhenFineCloses(fine, coarse, f, c, t);
        } else {
          AgreeInSameFineBar(fine, coarse, f, c, t);
        }
      }
    }
  }

  lemma FineStartAligned(fine: Series, ticks: seq<Tick>)
    requires fine.interval > 0 && ticks != []
    ensures Run(fine, ticks).running.Some?
    ensures Bucket(fine.interval, Run(fine, ticks).running.value.start) == Run(fine, ticks).running.value.start
  {
    StreamingEqualsBatch(fine, ticks);
    FrontierAligned(fine.interval, ticks);
  }

  /** A tick that stays in the fine bar stays in the coarse one, and buckets nest. */
  lemma CrossingTogether(fine: Series, coarse: Series, f: Builder, c: Builder, t: Tick)
    requires Divides(fine, coarse) && f.running.Some? && c.running.Some? && RunningAgrees(coarse, f, c)
    requires Bucket(fine.interval, f.running.value.start) == f.running.value.start
    ensures Bucket(coarse.interval, Bucket(fine.interval, t.time)) == Bucket(coarse.interval, t.time)
    ensures !Crosses(fine, f, t) ==> !Crosses(coarse, c, t)
    ensures Crosses(fine, f, t) ==> Bucket(coarse.interval, t.time) >= c.running.value.start
  {
    NestedBucket(fine, coarse, t.time);
    var tick, start := Bucket(fine.interval, t.time), f.running.value.start;
    if tick <= start {
      BucketMonotone(coarse.interval, tick, start);
    } else {
      BucketMonotone(coarse.interval, start, tick);
    }
  }

  lemma AgreeInSameFineBar(fine: Series, coarse: Series, f: Builder, c: Builder, t: Tick)
    requires Divides(fine, coarse) && f.running.Some? && Agree(coarse, f, c)
    requires !Crosses(fine, f, t) && !Crosses(coarse, c, t)
    ensures Agree(coarse, Step(fine, f, t), Step(coarse, c, t))
  {
    var xs := Inside(coarse.interval, f.closed, c.running.value.start);
    MergeAllAppend(xs, f.running.value.prices);
    MergeAllAppend(xs, Merge(f.running.value.prices, Single(t)));
  }

  /** The tick closes a fine bar; the coarse bucket it falls into is the running one or a later one. */
  ghost predicate FineCloses(fine: Series, coarse: Series, f: Builder, c: Builder, t: Tick)
  {
    && Divides(fine, coarse) && f.running.Some? && Agree(coarse, f, c) && Crosses(fine, f, t)
    && Bucket(coarse.interval, Bucket(fine.interval, t.time)) == Bucket(coarse.interval, t.time)
    && Bucket(coarse.interval, t.time) >= c.running.value.start
  }

  /** What the fine builder has closed after the tick. */
  lemma FineClosed(fine: Series, f: Builder, t: Tick)
    requires fine.interval > 0 && f.running.Some? && Crosses(fine, f, t)
    ensures Step(fine, f, t).closed == f.closed + [CloseBar(fine, f.running.value)]
    ensures CloseBar(fine, f.running.value).Prices() == f.running.value.prices
    ensures Step(fine, f, t).running == Some(Running(Bucket(fine.interval, t.time), Single(t)))
  {}

  lemma MergedBarsStay(fine: Series, coarse: Series, f: Builder, c: Builder, t: Tick)
    requires FineCloses(fine, coarse, f, c, t)
    ensures forall i :: 0 <= i < |c.closed| ==> MergedBar(coarse, Step(fine, f, t).closed, c.closed[i])
  {
    FineClosed(fine, f, t);
    forall i | 0 <= i < |c.closed|
      ensures MergedBar(coarse, Step(fine, f, t).closed, c.closed[i])
    {
      InsideAppend(coarse.interval, f.closed, CloseBar(fine, f.running.value), c.closed[i].openTime);
      assert MergedBar(coarse, f.closed, c.closed[i]);
    }
  }

  /** The running coarse bar merges the fine bars that are closed now. */
  lemma RunningIsMerged(fine: Series, coarse: Series, f: Builder, c: Builder, t: Tick)
    requires FineCloses(fine, coarse, f, c, t)
    ensures MergedBar(coarse, Step(fine, f, t).closed, CloseBar(coarse, c.running.value))
  {
    FineClosed(fine, f, t);
    InsideAppend(coarse.interval, f.closed, CloseBar(fine, f.running.value), c.running.value.start);
    assert CloseBar(coarse, c.running.value).Prices() == c.running.value.prices;
  }

  lemma RunningAfterClose(fine: Series, coarse: Series, f: Builder, c: Builder, t: Tick)
    requires FineCloses(fine, coarse, f, c, t)
    ensures RunningAgrees(coarse, Step(fine, f, t), Step(coarse, c, t))
  {
    var bar, iv := CloseBar(fine, f.running.value), coarse.interval;
    var closed := Step(fine, f, t).closed;
    FineClosed(fine, f, t);
    if Crosses(coarse, c, t) {
      InsideAppend(iv, f.closed, bar, Bucket(iv, t.time));
      InsideEmpty(iv, f.closed, Bucket(iv, t.time));
      assert [] + [Single(t)] == [Single(t)];
    } else {
      RunningIsMerged(fine, coarse, f, c, t);
      MergeAllAppend(Inside(iv, closed, c.running.value.start), Single(t));
    }
  }

  lemma HomedAfterClose(fine: Series, coarse: Series, f: Builder, c: Builder, t: Tick)
    requires FineCloses(fine, coarse, f, c, t)
    ensures Homed(coarse, Step(fine, f, t), Step(coarse, c, t))
  {
    var closed, iv := Step(fine, f, t).closed, coarse.interval;
    FineClosed(fine, f, t);
    forall i | 0 <= i < |closed|
      ensures var b := Bucket(iv, closed[i].openTime);
              b <= Step(coarse, c, t).running.value.start && Covered(Step(coarse, c, t), b)
    {
      var b := Bucket(iv, closed[i].openTime);
      assert i < |f.closed| ==> closed[i] == f.closed[i];
      assert Covered(c, b);
      CoveredStep(coarse, c, t, b);
    }
  }

  lemma AgreeWhenFineCloses(fine: Series, coarse: Series, f: Builder, c: Builder, t: Tick)
    requires FineCloses(fine, coarse, f, c, t)
    ensures Agree(coarse, Step(fine, f, t), Step(coarse, c, t))
  {
    OrderedStep(coarse, c, t);
    MergedBarsStay(fine, coarse, f, c, t);
    RunningIsMerged(fine, coarse, f, c, t);
    RunningAfterClose(fine, coarse, f, c, t);
    HomedAfterClose(fine, coarse, f, c, t);
  }
}

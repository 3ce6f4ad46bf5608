/** aggregate_bars: coarse bars synthesised from stored M15 bars, and its agreement with live building. */
module BarAggregation {
  import opened Prelude
  import opened MarketData
  import opened BarBuilding
  import opened StreamEqualsBatch
  import opened TimeframeHierarchy

  datatype Synthetic = Synthetic(openTime: int, closeTime: int, prices: Ohlcv)

  function HighOf(bars: seq<Bar>): (r: real)
    requires bars != []
    ensures IsHighest(bars, r)
  {
    var last := bars[|bars| - 1];
    if |bars| == 1 then last.high else
      var front := bars[..|bars| - 1];
      var r := Max(HighOf(front), last.high);
      HighestStep(front, last, HighOf(front));
      assert bars == front + [last];
      r
  }

  function LowOf(bars: seq<Bar>): (r: real)
    requires bars != []
    ensures IsLowest(bars, r)
  {
    var last := bars[|bars| - 1];
    if |bars| == 1 then last.low else
      var front := bars[..|bars| - 1];
      var r := Min(LowOf(front), last.low);
      LowestStep(front, last, LowOf(front));
      assert bars == front + [last];
      r
  }

  /** x is the high of some bar, and no bar has a higher one. */
  ghost predicate IsHighest(bars: seq<Bar>, x: real)
  {
    (exists i :: 0 <= i < |bars| && bars[i].high == x) && forall i :: 0 <= i < |bars| ==> bars[i].high <= x
  }

  ghost predicate IsLowest(bars: seq<Bar>, x: real)
  {
    (exists i :: 0 <= i < |bars| && bars[i].low == x) && forall i :: 0 <= i < |bars| ==> x <= bars[i].low
  }

  lemma HighestStep(front: seq<Bar>, last: Bar, x: real)
    requires IsHighest(front, x)
    ensures IsHighest(front + [last], Max(x, last.high))
  {
    var i :| 0 <= i < |front| && front[i].high == x;
    assert (front + [last])[i].high == x && (front + [last])[|front|].high == last.high;
  }

  lemma LowestStep(front: seq<Bar>, last: Bar, x: real)
    requires IsLowest(front, x)
    ensures IsLowest(front + [last], Min(x, last.low))
  {
    var i :| 0 <= i < |front| && front[i].low == x;
    assert (front + [last])[i].low == x && (front + [last])[|front|].low == last.low;
  }

  // ---------------------------------------------------------------- sorting by open time

  /** Insertion by open time, after bars with the same time: list.sort is stable. */
  function InsertByTime(sorted: seq<Bar>, b: Bar): seq<Bar>
  {
    if sorted == [] || sorted[|sorted| - 1].openTime <= b.openTime then sorted + [b]
    else InsertByTime(sorted[..|sorted| - 1], b) + [sorted[|sorted| - 1]]
  }

  function SortByTime(bars: seq<Bar>): (r: seq<Bar>)
    ensures StablySorted(bars, r)
  {
    if bars == [] then [] else
      var sorted, b := SortByTime(bars[..|bars| - 1]), bars[|bars| - 1];
      SortedStep(bars, sorted);
      InsertByTime(sorted, b)
  }

  ghost predicate ByTime(bars: seq<Bar>)
  {
    forall i, j :: 0 <= i < j < |bars| ==> bars[i].openTime <= bars[j].openTime
  }

  /** The bars that open at t, in their order. */
  function AtTime(bars: seq<Bar>, t: int): seq<Bar>
  {
    if bars == [] then []
    else AtTime(bars[..|bars| - 1], t) + (if bars[|bars| - 1].openTime == t then [bars[|bars| - 1]] else [])
  }

  /** The same bars at each time, in the same order. */
  ghost predicate SameAtAllTimes(a: seq<Bar>, b: seq<Bar>) { forall t :: AtTime(a, t) == AtTime(b, t) }

  /** The same bars in time order, those of equal time in the order they had. */
  ghost predicate StablySorted(bars: seq<Bar>, sorted: seq<Bar>)
  {
    ByTime(sorted) && multiset(sorted) == multiset(bars) && SameAtAllTimes(sorted, bars)
  }

  lemma {:induction false} InsertKeepsOrder(sorted: seq<Bar>, b: Bar, latest: int)
    requires ByTime(sorted) && b.openTime <= latest && forall i :: 0 <= i < |sorted| ==> sorted[i].openTime <= latest
    ensures ByTime(InsertByTime(sorted, b))
    ensures forall i :: 0 <= i < |InsertByTime(sorted, b)| ==> InsertByTime(sorted, b)[i].openTime <= latest
  {
    if !(sorted == [] || sorted[|sorted| - 1].openTime <= b.openTime) {
      InsertKeepsOrder(sorted[..|sorted| - 1], b, sorted[|sorted| - 1].openTime);
    }
  }

  lemma {:induction false} InsertAdds(sorted: seq<Bar>, b: Bar)
    ensures multiset(InsertByTime(sorted, b)) == multiset(sorted) + multiset{b}
  {
    if !(sorted == [] || sorted[|sorted| - 1].openTime <= b.openTime) {
      InsertAdds(sorted[..|sorted| - 1], b);
      assert sorted == sorted[..|sorted| - 1] + [sorted[|sorted| - 1]];
    }
  }

  lemma AtTimeAppend(bars: seq<Bar>, b: Bar, t: int)
    ensures AtTime(bars + [b], t) == AtTime(bars, t) + (if b.openTime == t then [b] else [])
  {
    assert (bars + [b])[..|bars|] == bars;
  }

  lemma {:induction false} InsertIsStable(sorted: seq<Bar>, b: Bar, t: int)
    ensures AtTime(InsertByTime(sorted, b), t) == AtTime(sorted, t) + (if b.openTime == t then [b] else [])
  {
    if sorted == [] || sorted[|sorted| - 1].openTime <= b.openTime {
      AtTimeAppend(sorted, b, t);
    } else {
      var front, last := sorted[..|sorted| - 1], sorted[|sorted| - 1];
      InsertIsStable(front, b, t);
      AtTimeAppend(InsertByTime(front, b), last, t);
    }
  }

  lemma SortedStep(bars: seq<Bar>, sorted: seq<Bar>)
    requires bars != [] && StablySorted(bars[..|bars| - 1], sorted)
    ensures StablySorted(bars, InsertByTime(sorted, bars[|bars| - 1]))
  {
    var front, b := bars[..|bars| - 1], bars[|bars| - 1];
    assert bars == front + [b];
    if sorted == [] {
      InsertKeepsOrder(sorted, b, b.openTime);
    } else {
      InsertKeepsOrder(sorted, b, if sorted[|sorted| - 1].openTime <= b.openTime then b.openTime else sorted[|sorted| - 1].openTime);
    }
    InsertAdds(sorted, b);
    forall t
      ensures AtTime(InsertByTime(sorted, b), t) == AtTime(bars, t)
    {
      InsertIsStable(sorted, b, t);
    }
  }

  lemma AtTimeOfLast(bars: seq<Bar>)
    requires bars != []
    ensures var own := AtTime(bars, bars[|bars| - 1].openTime); own != [] && own[|own| - 1] == bars[|bars| - 1]
  {}

  lemma {:induction false} AtTimeFromBars(bars: seq<Bar>, t: int)
    requires AtTime(bars, t) != []
    ensures exists i :: 0 <= i < |bars| && bars[i].openTime == t
  {
    if bars[|bars| - 1].openTime != t {
      AtTimeFromBars(bars[..|bars| - 1], t);
    }
  }

  /** The last of a sorted list is at least as late as the last of any list with the same bars at each time. */
  lemma LastIsLatest(a: seq<Bar>, b: seq<Bar>)
    requires a != [] && ByTime(b) && SameAtAllTimes(a, b)
    ensures b != [] && a[|a| - 1].openTime <= b[|b| - 1].openTime
  {
    AtTimeOfLast(a);
    AtTimeFromBars(b, a[|a| - 1].openTime);
  }

  /** There is only one stable sort of a list. */
  lemma {:induction false} StableSortUnique(a: seq<Bar>, b: seq<Bar>)
    requires ByTime(a) && ByTime(b) && SameAtAllTimes(a, b)
    ensures a == b
  {
    if a == [] && b != [] {
      LastIsLatest(b, a);
    } else if a != [] {
      LastIsLatest(a, b);
      LastIsLatest(b, a);
      AtTimeOfLast(a);
      AtTimeOfLast(b);
      FrontsAgree(a, b);
      StableSortUnique(a[..|a| - 1], b[..|b| - 1]);
    }
  }

  lemma CancelTail(x: seq<Bar>, y: seq<Bar>, tail: seq<Bar>)
    requires x + tail == y + tail
    ensures x == y
  {
    assert (x + tail)[..|x|] == x && (y + tail)[..|x|] == y;
  }

  lemma FrontAtTime(a: seq<Bar>, b: seq<Bar>, t: int)
    requires a != [] && b != [] && a[|a| - 1] == b[|b| - 1] && AtTime(a, t) == AtTime(b, t)
    ensures AtTime(a[..|a| - 1], t) == AtTime(b[..|b| - 1], t)
  {
    CancelTail(AtTime(a[..|a| - 1], t), AtTime(b[..|b| - 1], t), if a[|a| - 1].openTime == t then [a[|a| - 1]] else []);
  }

  lemma FrontsAgree(a: seq<Bar>, b: seq<Bar>)
    requires a != [] && b != [] && a[|a| - 1] == b[|b| - 1] && SameAtAllTimes(a, b)
    ensures SameAtAllTimes(a[..|a| - 1], b[..|b| - 1])
  {
    var front, front' := a[..|a| - 1], b[..|b| - 1];
    forall t
      ensures AtTime(front, t) == AtTime(front', t)
    {
      FrontAtTime(a, b, t);
    }
  }

  lemma SortOfSorted(bars: seq<Bar>)
    requires ByTime(bars)
    ensures SortByTime(bars) == bars
  {
    StableSortUnique(SortByTime(bars), bars);
  }

  // ---------------------------------------------------------------- buckets and their bars

  function Items(interval: int, bars: seq<Bar>, b: int): seq<Bar>
    requires interval > 0
  {
    if bars == [] then []
    else
      Items(interval, bars[..|bars| - 1], b) +
      (if Bucket(interval, bars[|bars| - 1].openTime) == b then [bars[|bars| - 1]] else [])
  }

  function BucketsOf(interval: int, bars: seq<Bar>): set<int>
    requires interval > 0
  {
    set i | 0 <= i < |bars| :: Bucket(interval, bars[i].openTime)
  }

  function Synthesise(b: int, items: seq<Bar>): Synthetic
    requires items != []
  {
    var sorted := SortByTime(items);
    assert |sorted| == |multiset(sorted)| == |multiset(items)| == |items|;
    Synthetic(b, sorted[|sorted| - 1].closeTime,
              Ohlcv(sorted[0].open, HighOf(sorted), LowOf(sorted), sorted[|sorted| - 1].close, BarVolume(sorted)))
  }

  /** Bar i is the earliest of its list, and of several that open together the first. */
  ghost predicate IsEarliest(bars: seq<Bar>, i: int)
  {
    && 0 <= i < |bars|
    && (forall j :: 0 <= j < i ==> bars[j].openTime > bars[i].openTime)
    && (forall j :: i <= j < |bars| ==> bars[j].openTime >= bars[i].openTime)
  }

  /** Bar i is the latest of its list, and of several that open together the last. */
  ghost predicate IsLatest(bars: seq<Bar>, i: int)
  {
    && 0 <= i < |bars|
    && (forall j :: 0 <= j <= i ==> bars[j].openTime <= bars[i].openTime)
    && (forall j :: i < j < |bars| ==> bars[j].openTime < bars[i].openTime)
  }

  /** What a synthetic bar of these bars, in whatever order, is. */
  ghost predicate SyntheticOf(items: seq<Bar>, s: Synthetic)
  {
    && (exists i :: IsEarliest(items, i) && s.prices.open == items[i].open)
    && (exists i :: IsLatest(items, i) && s.prices.close == items[i].close && s.closeTime == items[i].closeTime)
    && IsHighest(items, s.prices.high) && IsLowest(items, s.prices.low) && s.prices.volume == BarVolume(items)
  }

  lemma {:induction false} FirstAtTime(bars: seq<Bar>, t: int)
    requires AtTime(bars, t) != []
    ensures exists i :: 0 <= i < |bars| && bars[i] == AtTime(bars, t)[0] && bars[i].openTime == t &&
                        forall j :: 0 <= j < i ==> bars[j].openTime != t
  {
    var front := bars[..|bars| - 1];
    if AtTime(front, t) != [] {
      FirstAtTime(front, t);
    } else {
      forall j | 0 <= j < |front|
        ensures front[j].openTime != t
      {
        NoneAtTime(front, t, j);
      }
    }
  }

  lemma {:induction false} NoneAtTime(bars: seq<Bar>, t: int, j: nat)
    requires AtTime(bars, t) == [] && j < |bars|
    ensures bars[j].openTime != t
  {
    if j < |bars| - 1 {
      NoneAtTime(bars[..|bars| - 1], t, j);
    }
  }

  lemma {:induction false} LastAtTime(bars: seq<Bar>, t: int)
    requires AtTime(bars, t) != []
    ensures exists i :: 0 <= i < |bars| && bars[i] == AtTime(bars, t)[|AtTime(bars, t)| - 1] && bars[i].openTime == t &&
                        forall j :: i < j < |bars| ==> bars[j].openTime != t
  {
    if bars[|bars| - 1].openTime != t {
      LastAtTime(bars[..|bars| - 1], t);
    }
  }

  /** Every bar lies between the first and the last of the sorted list. */
  lemma WithinTimes(items: seq<Bar>, sorted: seq<Bar>)
    requires StablySorted(items, sorted) && sorted != []
    ensures forall j :: 0 <= j < |items| ==> sorted[0].openTime <= items[j].openTime <= sorted[|sorted| - 1].openTime
  {
    forall j | 0 <= j < |items|
      ensures sorted[0].openTime <= items[j].openTime <= sorted[|sorted| - 1].openTime
    {
      assert items[j] in multiset(items);
      var k :| 0 <= k < |sorted| && sorted[k] == items[j];
    }
  }

  lemma {:induction false} AtTimeOfFirst(bars: seq<Bar>, n: nat)
    requires 0 < n <= |bars|
    ensures var own := AtTime(bars[..n], bars[0].openTime); own != [] && own[0] == bars[0]
  {
    if n > 1 {
      AtTimeOfFirst(bars, n - 1);
      assert bars[..n][..n - 1] == bars[..n - 1];
    }
  }

  /** The first of a stable sort is the earliest bar. */
  lemma SortedFirst(items: seq<Bar>, sorted: seq<Bar>)
    requires StablySorted(items, sorted) && sorted != []
    ensures exists i :: IsEarliest(items, i) && sorted[0] == items[i]
  {
    var t := sorted[0].openTime;
    AtTimeOfFirst(sorted, |sorted|);
    assert sorted[..|sorted|] == sorted;
    FirstAtTime(items, t);
    WithinTimes(items, sorted);
    var i :| 0 <= i < |items| && items[i] == sorted[0] && forall j :: 0 <= j < i ==> items[j].openTime != t;
    assert IsEarliest(items, i);
  }

  lemma SortedLast(items: seq<Bar>, sorted: seq<Bar>)
    requires StablySorted(items, sorted) && sorted != []
    ensures exists i :: IsLatest(items, i) && sorted[|sorted| - 1] == items[i]
  {
    var t := sorted[|sorted| - 1].openTime;
    AtTimeOfLast(sorted);
    LastAtTime(items, t);
    WithinTimes(items, sorted);
    var i :| 0 <= i < |items| && items[i] == sorted[|sorted| - 1] && forall j :: i < j < |items| ==> items[j].openTime != t;
    assert IsLatest(items, i);
  }

  lemma ExtremaOfPermutation(items: seq<Bar>, sorted: seq<Bar>, high: real, low: real)
    requires multiset(sorted) == multiset(items) && IsHighest(sorted, high) && IsLowest(sorted, low)
    ensures IsHighest(items, high) && IsLowest(items, low)
  {
    var i :| 0 <= i < |sorted| && sorted[i].high == high;
    var k :| 0 <= k < |sorted| && sorted[k].low == low;
    assert sorted[i] in multiset(items) && sorted[k] in multiset(items);
    forall j | 0 <= j < |items|
      ensures low <= items[j].low && items[j].high <= high
    {
      assert items[j] in multiset(sorted);
    }
  }

  lemma {:induction false} VolumeOfInsert(sorted: seq<Bar>, b: Bar)
    ensures BarVolume(InsertByTime(sorted, b)) == BarVolume(sorted) + b.volume
  {
    if sorted == [] || sorted[|sorted| - 1].openTime <= b.openTime {
      assert (sorted + [b])[..|sorted|] == sorted;
    } else {
      var front, last := sorted[..|sorted| - 1], sorted[|sorted| - 1];
      VolumeOfInsert(front, b);
      assert (InsertByTime(front, b) + [last])[..|InsertByTime(front, b)|] == InsertByTime(front, b);
    }
  }

  lemma {:induction false} VolumeOfSorted(bars: seq<Bar>)
    ensures BarVolume(SortByTime(bars)) == BarVolume(bars)
  {
    if bars != [] {
      VolumeOfSorted(bars[..|bars| - 1]);
      VolumeOfInsert(SortByTime(bars[..|bars| - 1]), bars[|bars| - 1]);
    }
  }

  /** The synthesis computes what its figures are named after, in whatever order the bars come. */
  lemma SynthesisMeaning(b: int, items: seq<Bar>)
    requires items != []
    ensures SyntheticOf(items, Synthesise(b, items))
  {
    var sorted := SortByTime(items);
    assert |sorted| == |multiset(sorted)| == |items|;
    SortedFirst(items, sorted);
    SortedLast(items, sorted);
    ExtremaOfPermutation(items, sorted, HighOf(sorted), LowOf(sorted));
    VolumeOfSorted(items);
  }

  lemma EarliestUnique(bars: seq<Bar>, i: int, j: int)
    requires IsEarliest(bars, i) && IsEarliest(bars, j)
    ensures i == j
  {
    assert bars[i].openTime >= bars[j].openTime && bars[j].openTime >= bars[i].openTime;
  }

  lemma LatestUnique(bars: seq<Bar>, i: int, j: int)
    requires IsLatest(bars, i) && IsLatest(bars, j)
    ensures i == j
  {
    assert bars[i].openTime >= bars[j].openTime && bars[j].openTime >= bars[i].openTime;
  }

  /** Nothing else is a synthetic bar of these bars. */
  lemma SyntheticUnique(items: seq<Bar>, a: Synthetic, b: Synthetic)
    requires SyntheticOf(items, a) && SyntheticOf(items, b)
    ensures a.prices == b.prices && a.closeTime == b.closeTime
  {
    var i :| IsEarliest(items, i) && a.prices.open == items[i].open;
    var j :| IsEarliest(items, j) && b.prices.open == items[j].open;
    EarliestUnique(items, i, j);
    var k :| IsLatest(items, k) && a.prices.close == items[k].close && a.closeTime == items[k].closeTime;
    var l :| IsLatest(items, l) && b.prices.close == items[l].close && b.closeTime == items[l].closeTime;
    LatestUnique(items, k, l);
  }

  lemma {:induction false} ItemsEmpty(interval: int, bars: seq<Bar>, b: int)
    requires interval > 0
    ensures Items(interval, bars, b) != [] <==> b in BucketsOf(interval, bars)
  {
    if bars != [] {
      var front := bars[..|bars| - 1];
      ItemsEmpty(interval, front, b);
      assert BucketsOf(interval, bars) ==
             BucketsOf(interval, front) + {Bucket(interval, bars[|bars| - 1].openTime)};
    }
  }

  ghost predicate Grouped(interval: int, bars: seq<Bar>, buckets: map<int, seq<Bar>>)
    requires interval > 0
  {
    buckets.Keys == BucketsOf(interval, bars) &&
    forall k :: k in buckets ==> buckets[k] == Items(interval, bars, k)
  }

  lemma ItemsStep(interval: int, bars: seq<Bar>, n: nat, b: int)
    requires interval > 0 && n < |bars|
    ensures Items(interval, bars[..n + 1], b) ==
            if Bucket(interval, bars[n].openTime) == b then Items(interval, bars[..n], b) + [bars[n]]
            else Items(interval, bars[..n], b)
  {
    assert bars[..n + 1][..n] == bars[..n] && bars[..n + 1][n] == bars[n];
    assert Items(interval, bars[..n], b) + [] == Items(interval, bars[..n], b);
  }

  lemma BucketsStep(interval: int, bars: seq<Bar>, n: nat)
    requires interval > 0 && n < |bars|
    ensures BucketsOf(interval, bars[..n + 1]) == BucketsOf(interval, bars[..n]) + {Bucket(interval, bars[n].openTime)}
  {
    assert bars[..n + 1][n] == bars[n];
  }

  lemma GroupedStep(interval: int, bars: seq<Bar>, n: nat, buckets: map<int, seq<Bar>>)
    requires interval > 0 && n < |bars| && Grouped(interval, bars[..n], buckets)
    ensures var k := Bucket(interval, bars[n].openTime);
            Grouped(interval, bars[..n + 1],
                    buckets[k := (if k in buckets then buckets[k] else []) + [bars[n]]])
  {
    var k := Bucket(interval, bars[n].openTime);
    var items := (if k in buckets then buckets[k] else []) + [bars[n]];
    ItemsEmpty(interval, bars[..n], k);
    BucketsStep(interval, bars, n);
    var grouped := buckets[k := items];
    forall b | b in grouped
      ensures grouped[b] == Items(interval, bars[..n + 1], b)
    {
      ItemsStep(interval, bars, n, b);
    }
  }

  /** `s` is the synthetic bar of its bucket. */
  ghost predicate IsSynthetic(interval: int, bars: seq<Bar>, s: Synthetic)
    requires interval > 0
  {
    SyntheticOf(Items(interval, bars, s.openTime), s)
  }

  function Times(result: seq<Synthetic>): seq<int>
  {
    seq(|result|, i requires 0 <= i < |result| => result[i].openTime)
  }

  /** `result` has, in time order, the synthetic bar of every bucket that holds a bar, and no other. */
  ghost predicate Aggregates(interval: int, bars: seq<Bar>, result: seq<Synthetic>)
    requires interval > 0
  {
    Lists(Times(result), BucketsOf(interval, bars)) &&
    forall i :: 0 <= i < |result| ==> IsSynthetic(interval, bars, result[i])
  }

  /** aggregate_bars for the targets M30, H1, H4 and D1, over exact numbers. */
  method AggregateBars(m15Bars: seq<Bar>, target: string) returns (result: seq<Synthetic>)
    requires target in {"M30", "H1", "H4", "D1"}
    ensures TimeframeSeconds(target).Some? && TimeframeSeconds(target).value > 0
    ensures Aggregates(TimeframeSeconds(target).value, m15Bars, result)
  {
    var interval := TimeframeSeconds(target).value;
    var buckets := GroupByBucket(m15Bars, interval);
    result := SynthesiseBuckets(m15Bars, interval, buckets);
  }

  method GroupByBucket(m15Bars: seq<Bar>, interval: int) returns (buckets: map<int, seq<Bar>>)
    requires interval > 0
    ensures Grouped(interval, m15Bars, buckets)
  {
    buckets := map[];
    for n := 0 to |m15Bars|
      invariant Grouped(interval, m15Bars[..n], buckets)
    {
      GroupedStep(interval, m15Bars, n, buckets);
      var k := Bucket(interval, m15Bars[n].openTime);
      buckets := buckets[k := (if k in buckets then buckets[k] else []) + [m15Bars[n]]];
    }
    assert m15Bars[..|m15Bars|] == m15Bars;
  }

  method SynthesiseBucket(ghost bars: seq<Bar>, interval: int, buckets: map<int, seq<Bar>>, k: int)
    returns (s: Synthetic)
    requires interval > 0 && Grouped(interval, bars, buckets) && k in buckets
    ensures s.openTime == k && IsSynthetic(interval, bars, s)
  {
    ItemsEmpty(interval, bars, k);
    SynthesisMeaning(k, buckets[k]);
    s := Synthesise(k, buckets[k]);
  }

  /** The first i keys are done. */
  ghost predicate DoneUpTo(interval: int, bars: seq<Bar>, keys: seq<int>, i: nat, result: seq<Synthetic>)
    requires interval > 0 && i <= |keys|
  {
    Times(result) == keys[..i] && forall j :: 0 <= j < |result| ==> IsSynthetic(interval, bars, result[j])
  }

  lemma DoneOneMore(interval: int, bars: seq<Bar>, keys: seq<int>, i: nat, result: seq<Synthetic>, s: Synthetic)
    requires interval > 0 && i < |keys| && DoneUpTo(interval, bars, keys, i, result)
    requires s.openTime == keys[i] && IsSynthetic(interval, bars, s)
    ensures DoneUpTo(interval, bars, keys, i + 1, result + [s])
  {
    assert Times(result + [s]) == Times(result) + [s.openTime];
  }

  lemma AllDone(interval: int, bars: seq<Bar>, keys: seq<int>, result: seq<Synthetic>)
    requires interval > 0 && DoneUpTo(interval, bars, keys, |keys|, result) && Lists(keys, BucketsOf(interval, bars))
    ensures Aggregates(interval, bars, result)
  {
    assert keys[..|keys|] == keys;
  }

  method SynthesiseBuckets(ghost m15Bars: seq<Bar>, interval: int, buckets: map<int, seq<Bar>>)
    returns (result: seq<Synthetic>)
    requires interval > 0 && Grouped(interval, m15Bars, buckets)
    ensures Aggregates(interval, m15Bars, result)
  {
    result := [];
    var keys := Ascending(buckets.Keys);
    for i := 0 to |keys|
      invariant DoneUpTo(interval, m15Bars, keys, i, result)
    {
      ListedKey(keys, buckets.Keys, i);
      var s := SynthesiseBucket(m15Bars, interval, buckets, keys[i]);
      DoneOneMore(interval, m15Bars, keys, i, result, s);
      result := result + [s];
    }
    AllDone(interval, m15Bars, keys, result);
  }

  // ---------------------------------------------------------------- agreement with live bars

  function PricesOf(bars: seq<Bar>): seq<Ohlcv>
  {
    seq(|bars|, i requires 0 <= i < |bars| => bars[i].Prices())
  }

  lemma {:induction false} SynthesisIsMerge(bars: seq<Bar>)
    requires bars != []
    ensures MergeAll(PricesOf(bars)) ==
            Ohlcv(bars[0].open, HighOf(bars), LowOf(bars), bars[|bars| - 1].close, BarVolume(bars))
  {
    var front := bars[..|bars| - 1];
    if front == [] {
      assert BarVolume(bars) == BarVolume(front) + bars[0].volume;
    } else {
      SynthesisIsMerge(front);
      assert PricesOf(bars)[..|bars| - 1] == PricesOf(front);
    }
  }

  lemma PricesAppend(bars: seq<Bar>, b: Bar)
    ensures PricesOf(bars + [b]) == PricesOf(bars) + [b.Prices()]
  {}

  lemma {:induction false} ItemsAreInside(interval: int, bars: seq<Bar>, b: int)
    requires interval > 0
    ensures PricesOf(Items(interval, bars, b)) == Inside(interval, bars, b)
  {
    if bars != [] {
      var front, last := bars[..|bars| - 1], bars[|bars| - 1];
      ItemsAreInside(interval, front, b);
      PricesAppend(Items(interval, front, b), last);
      assert bars == front + [last];
      InsideAppend(interval, front, last, b);
      assert Items(interval, front, b) + [] == Items(interval, front, b);
    }
  }

  lemma {:induction false} ItemsByTime(interval: int, bars: seq<Bar>, b: int, latest: int)
    requires interval > 0 && ByTime(bars) && forall i :: 0 <= i < |bars| ==> bars[i].openTime <= latest
    ensures ByTime(Items(interval, bars, b))
    ensures forall i :: 0 <= i < |Items(interval, bars, b)| ==> Items(interval, bars, b)[i].openTime <= latest
  {
    if bars != [] {
      ItemsByTime(interval, bars[..|bars| - 1], b, bars[|bars| - 1].openTime);
    }
  }

  /** Synthesising from bars built live is merging the bars of the bucket. */
  lemma SynthesiseOrdered(interval: int, bars: seq<Bar>, b: int)
    requires interval > 0 && ByTime(bars) && Items(interval, bars, b) != []
    ensures Inside(interval, bars, b) != []
    ensures Synthesise(b, Items(interval, bars, b)).prices == MergeAll(Inside(interval, bars, b))
  {
    ItemsAreInside(interval, bars, b);
    ItemsByTime(interval, bars, b, bars[|bars| - 1].openTime);
    SortOfSorted(Items(interval, bars, b));
    SynthesisIsMerge(Items(interval, bars, b));
  }

  function OpenTimes(bars: seq<Bar>): seq<int>
  {
    seq(|bars|, i requires 0 <= i < |bars| => bars[i].openTime)
  }

  function WithRunning(c: Builder, made: set<int>): seq<int>
    requires c.running.Some?
  {
    OpenTimes(c.closed) + (if c.running.value.start in made then [c.running.value.start] else [])
  }

  lemma MadeIsExpected(coarse: Series, f: Builder, c: Builder, i: nat)
    requires coarse.interval > 0 && f.running.Some? && Agree(coarse, f, c) && i < |f.closed|
    ensures Bucket(coarse.interval, f.closed[i].openTime) in
            WithRunning(c, BucketsOf(coarse.interval, f.closed))
  {
    var k := Bucket(coarse.interval, f.closed[i].openTime);
    var expected := WithRunning(c, BucketsOf(coarse.interval, f.closed));
    assert Covered(c, k);
    if k == c.running.value.start {
      assert expected[|c.closed|] == k;
    } else {
      var j :| 0 <= j < |c.closed| && c.closed[j].openTime == k;
      assert expected[j] == k;
    }
  }

  lemma ExpectedIsMade(coarse: Series, f: Builder, c: Builder, j: nat)
    requires coarse.interval > 0 && f.running.Some? && Agree(coarse, f, c) && j < |c.closed|
    ensures c.closed[j].openTime in BucketsOf(coarse.interval, f.closed)
  {
    assert MergedBar(coarse, f.closed, c.closed[j]);
    InsideEmpty(coarse.interval, f.closed, c.closed[j].openTime);
  }

  /** Which buckets are synthesised: those of the closed coarse bars, and possibly the running one. */
  lemma SynthesisedBuckets(coarse: Series, f: Builder, c: Builder, times: seq<int>)
    requires coarse.interval > 0 && f.running.Some? && Agree(coarse, f, c)
    requires Lists(times, BucketsOf(coarse.interval, f.closed))
    ensures times == WithRunning(c, BucketsOf(coarse.interval, f.closed))
  {
    var made := BucketsOf(coarse.interval, f.closed);
    var expected := WithRunning(c, made);
    forall k | k in made
      ensures k in expected
    {
      var i :| 0 <= i < |f.closed| && Bucket(coarse.interval, f.closed[i].openTime) == k;
      MadeIsExpected(coarse, f, c, i);
    }
    forall k | k in expected
      ensures k in made
    {
      var j :| 0 <= j < |expected| && expected[j] == k;
      if j < |c.closed| {
        ExpectedIsMade(coarse, f, c, j);
      }
    }
    assert StrictlyIncreasing(expected);
    AscendingUnique(times, expected);
  }

  lemma SyntheticIsMerge(interval: int, bars: seq<Bar>, s: Synthetic)
    requires interval > 0 && IsSynthetic(interval, bars, s)
    requires ByTime(bars)
    ensures Inside(interval, bars, s.openTime) != []
    ensures s.prices == MergeAll(Inside(interval, bars, s.openTime))
  {
    var items := Items(interval, bars, s.openTime);
    SynthesisMeaning(s.openTime, items);
    SyntheticUnique(items, s, Synthesise(s.openTime, items));
    SynthesiseOrdered(interval, bars, s.openTime);
  }

  lemma SyntheticsAreMerges(interval: int, bars: seq<Bar>, result: seq<Synthetic>)
    requires interval > 0 && ByTime(bars) && Aggregates(interval, bars, result)
    ensures forall i :: 0 <= i < |result| ==>
              Inside(interval, bars, result[i].openTime) != [] &&
              result[i].prices == MergeAll(Inside(interval, bars, result[i].openTime))
  {
    forall i | 0 <= i < |result|
      ensures Inside(interval, bars, result[i].openTime) != []
      ensures result[i].prices == MergeAll(Inside(interval, bars, result[i].openTime))
    {
      SyntheticIsMerge(interval, bars, result[i]);
    }
  }

  lemma LiveBarsAreMerges(coarse: Series, f: Builder, c: Builder, result: seq<Synthetic>)
    requires coarse.interval > 0 && f.running.Some? && Agree(coarse, f, c) && |c.closed| <= |result|
    requires forall i :: 0 <= i < |c.closed| ==> Times(result)[i] == c.closed[i].openTime
    requires forall i :: 0 <= i < |result| ==>
               Inside(coarse.interval, f.closed, result[i].openTime) != [] &&
               result[i].prices == MergeAll(Inside(coarse.interval, f.closed, result[i].openTime))
    ensures forall i :: 0 <= i < |c.closed| ==>
              result[i].openTime == c.closed[i].openTime && result[i].prices == c.closed[i].Prices()
  {
    forall i | 0 <= i < |c.closed|
      ensures result[i].openTime == c.closed[i].openTime && result[i].prices == c.closed[i].Prices()
    {
      assert Times(result)[i] == c.closed[i].openTime;
      assert MergedBar(coarse, f.closed, c.closed[i]);
    }
  }

  /**
   * Aggregating the stored fine bars of any stream reproduces the live coarse bars, bar for bar; the
   * one extra bar, if any, is the part of the running coarse bar that is already closed on the fine side.
   */
  lemma AggregateMatchesLive(fine: Series, coarse: Series, ticks: seq<Tick>, result: seq<Synthetic>)
    requires Divides(fine, coarse) && ticks != []
    requires Aggregates(coarse.interval, Run(fine, ticks).closed, result)
    ensures MatchesLive(Run(fine, ticks), Run(coarse, ticks), result)
  {
    var f, c, iv := Run(fine, ticks), Run(coarse, ticks), coarse.interval;
    StreamingEqualsBatch(fine, ticks);
    CoarseMergesFine(fine, coarse, ticks);
    SynthesisedBuckets(coarse, f, c, Times(result));
    SyntheticsAreMerges(iv, f.closed, result);
    LiveBarsAreMerges(coarse, f, c, result);
    if |result| > |c.closed| {
      assert Times(result)[|c.closed|] == c.running.value.start;
      MergeAllAppend(Inside(iv, f.closed, c.running.value.start), f.running.value.prices);
    }
  }

  /** The synthetic bars are the closed coarse bars, plus at most the closed part of the running one. */
  ghost predicate MatchesLive(f: Builder, c: Builder, result: seq<Synthetic>)
  {
    && f.running.Some? && c.running.Some?
    && |c.closed| <= |result| <= |c.closed| + 1
    && (forall i :: 0 <= i < |c.closed| ==>
          result[i].openTime == c.closed[i].openTime && result[i].prices == c.closed[i].Prices())
    && (|result| == |c.closed| + 1 ==>
          result[|c.closed|].openTime == c.running.value.start &&
          c.running.value.prices == Merge(result[|c.closed|].prices, f.running.value.prices))
  }
}

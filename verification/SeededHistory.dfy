/** Seeding and ticks in any order: when the history of closed bars stays in time order. */
module SeededHistory {
  import opened Prelude
  import opened MarketData
  import opened BarBuilding
  import opened Seeding

  /** What can happen to a builder. */
  datatype Event = Ticked(t: Tick) | Seeded(bars: seq<Bar>)

  function Apply(s: Series, b: Builder, e: Event): Builder
    requires s.interval > 0
  {
    match e
    case Ticked(t) => Step(s, b, t)
    case Seeded(bars) => Builder(b.running, Seed(b.closed, bars))
  }

  /** A new builder after any events. */
  function After(s: Series, events: seq<Event>): Builder
    requires s.interval > 0
  {
    if events == [] then EMPTY else Apply(s, After(s, events[..|events| - 1]), events[|events| - 1])
  }

  /** The running bar starts after the newest bar held, if there is one. */
  predicate StartsAfterHistory(b: Builder)
    requires b.running.Some?
  {
    b.closed != [] ==> b.closed[|b.closed| - 1].openTime < b.running.value.start
  }

  /** If the event closes a bar, that bar starts after all others. */
  predicate ClosesInOrder(s: Series, b: Builder, e: Event)
    requires s.interval > 0
  {
    e.Ticked? && Crosses(s, b, e.t) ==> StartsAfterHistory(b)
  }

  lemma AppendInOrder(closed: seq<Bar>, bar: Bar)
    requires Chronicle(closed)
    ensures Chronicle(closed + [bar]) <==> closed == [] || closed[|closed| - 1].openTime < bar.openTime
  {
    var all := closed + [bar];
    if Chronicle(all) && closed != [] {
      assert all[|closed| - 1] == closed[|closed| - 1] && all[|closed|] == bar;
    }
  }

  /** Seeding puts any history in order, whatever state it was in. */
  lemma SeedingOrders(s: Series, b: Builder, bars: seq<Bar>)
    requires s.interval > 0
    ensures Chronicle(Apply(s, b, Seeded(bars)).closed)
  {
    SeedIsNewestPart(b.closed, bars);
  }

  /** One event keeps an ordered history in order exactly if it closes in order. */
  lemma OneEvent(s: Series, b: Builder, e: Event)
    requires s.interval > 0 && Chronicle(b.closed)
    ensures Chronicle(Apply(s, b, e).closed) <==> ClosesInOrder(s, b, e)
  {
    match e
    case Seeded(bars) => SeedingOrders(s, b, bars);
    case Ticked(t) =>
      if Crosses(s, b, t) {
        AppendInOrder(b.closed, CloseBar(s, b.running.value));
      }
  }

  /** The history is strictly increasing in open time at every moment. */
  ghost predicate AlwaysInOrder(s: Series, events: seq<Event>)
    requires s.interval > 0
  {
    forall n :: 0 <= n <= |events| ==> Chronicle(After(s, events[..n]).closed)
  }

  /** Every bar that closes starts after the newest one held at that moment. */
  ghost predicate EveryCloseInOrder(s: Series, events: seq<Event>)
    requires s.interval > 0
  {
    forall n :: 0 <= n < |events| ==> ClosesInOrder(s, After(s, events[..n]), events[n])
  }

  lemma AfterNext(s: Series, events: seq<Event>, n: nat)
    requires s.interval > 0 && n < |events|
    ensures After(s, events[..n + 1]) == Apply(s, After(s, events[..n]), events[n])
  {
    assert events[..n + 1][..n] == events[..n];
  }

  lemma {:induction false} InOrderUpTo(s: Series, events: seq<Event>, n: nat)
    requires s.interval > 0 && EveryCloseInOrder(s, events) && n <= |events|
    ensures Chronicle(After(s, events[..n]).closed)
  {
    if n > 0 {
      InOrderUpTo(s, events, n - 1);
      AfterNext(s, events, n - 1);
      OneEvent(s, After(s, events[..n - 1]), events[n - 1]);
    }
  }

  /**
   * Under any interleaving of ticks and seedings the closed bars stay strictly increasing in open time
   * if and only if every bar that closes starts after the newest one held at that moment.
   */
  lemma InOrderExactly(s: Series, events: seq<Event>)
    requires s.interval > 0
    ensures AlwaysInOrder(s, events) <==> EveryCloseInOrder(s, events)
  {
    if EveryCloseInOrder(s, events) {
      forall n | 0 <= n <= |events|
        ensures Chronicle(After(s, events[..n]).closed)
      {
        InOrderUpTo(s, events, n);
      }
    }
    if AlwaysInOrder(s, events) {
      forall n | 0 <= n < |events|
        ensures ClosesInOrder(s, After(s, events[..n]), events[n])
      {
        AfterNext(s, events, n);
        assert Chronicle(After(s, events[..n]).closed) && Chronicle(After(s, events[..n + 1]).closed);
        OneEvent(s, After(s, events[..n]), events[n]);
      }
    }
  }

  // ---------------------------------------------------------------- seeding what is older

  ghost predicate AllBefore(bars: seq<Bar>, t: int) { forall i :: 0 <= i < |bars| ==> bars[i].openTime < t }

  /** Closed bars that are seeded open before the running bar, and before the first tick's bucket when nothing runs. */
  ghost predicate OlderOnly(s: Series, b: Builder, e: Event)
    requires s.interval > 0
  {
    match e
    case Seeded(bars) => b.running.Some? ==> AllBefore(OnlyClosed(bars), b.running.value.start)
    case Ticked(t) => b.running.None? ==> AllBefore(b.closed, Bucket(s.interval, t.time))
  }

  ghost predicate Ahead(b: Builder) { b.running.Some? ==> AllBefore(b.closed, b.running.value.start) }

  lemma {:induction false} KeysFromBars(m: map<int, Bar>, bars: seq<Bar>, t: int)
    requires AllBefore(bars, t) && forall k :: k in m ==> k < t
    ensures forall k :: k in ByOpenTime(m, bars) ==> k < t
  {
    if bars != [] {
      KeysFromBars(m, bars[..|bars| - 1], t);
    }
  }

  lemma SeededBefore(closed: seq<Bar>, bars: seq<Bar>, t: int)
    requires AllBefore(closed, t) && AllBefore(OnlyClosed(bars), t)
    ensures AllBefore(Seed(closed, bars), t)
  {
    var before, m := ByOpenTime(map[], closed), ByOpenTime(ByOpenTime(map[], closed), OnlyClosed(bars));
    KeysFromBars(map[], closed, t);
    KeysFromBars(before, OnlyClosed(bars), t);
    ByOpenTimeKeyed(map[], closed);
    ByOpenTimeKeyed(before, OnlyClosed(bars));
    ChronologicalBefore(m, t);
  }

  lemma ChronologicalBefore(m: map<int, Bar>, t: int)
    requires Keyed(m) && forall k :: k in m ==> k < t
    ensures AllBefore(Chronological(m), t)
  {
    var keys := Ascending(m.Keys);
    forall i | 0 <= i < |keys|
      ensures Chronological(m)[i].openTime < t
    {
      ListedKey(keys, m.Keys, i);
    }
  }

  lemma StaysAhead(s: Series, b: Builder, e: Event)
    requires s.interval > 0 && Ahead(b) && OlderOnly(s, b, e)
    ensures Ahead(Apply(s, b, e)) && ClosesInOrder(s, b, e)
  {
    if e.Seeded? && b.running.Some? {
      SeededBefore(b.closed, e.bars, b.running.value.start);
    }
  }

  ghost predicate SeedsOlderOnly(s: Series, events: seq<Event>)
    requires s.interval > 0
  {
    forall n :: 0 <= n < |events| ==> OlderOnly(s, After(s, events[..n]), events[n])
  }

  lemma {:induction false} AheadUpTo(s: Series, events: seq<Event>, n: nat)
    requires s.interval > 0 && n <= |events| && SeedsOlderOnly(s, events)
    ensures Ahead(After(s, events[..n]))
  {
    if n > 0 {
      AheadUpTo(s, events, n - 1);
      AfterNext(s, events, n - 1);
      StaysAhead(s, After(s, events[..n - 1]), events[n - 1]);
    }
  }

  /** A caller that seeds only what is older than the running bar always keeps the history in order. */
  lemma SeedingOlderBarsIsSafe(s: Series, events: seq<Event>)
    requires s.interval > 0 && SeedsOlderOnly(s, events)
    ensures AlwaysInOrder(s, events)
  {
    forall n | 0 <= n < |events|
      ensures ClosesInOrder(s, After(s, events[..n]), events[n])
    {
      AheadUpTo(s, events, n);
      StaysAhead(s, After(s, events[..n]), events[n]);
    }
    InOrderExactly(s, events);
  }

  // ---------------------------------------------------------------- seeding the running bucket

  lemma OneBarSeeded(bar: Bar)
    requires bar.isClosed
    ensures Seed([], [bar]) == [bar]
  {
    assert OnlyClosed([bar]) == [bar] by { assert [bar][..0] == [] && OnlyClosed([]) == []; }
    assert ByOpenTime(map[], [bar]) == map[bar.openTime := bar] by { assert [bar][..0] == []; }
    AscendingUnique(Ascending({bar.openTime}), [bar.openTime]);
  }

  /** A first tick, the closed bar of its own bucket from elsewhere, and a tick in a later bucket. */
  function RunningBucketSeeded(t: Tick, bar: Bar, u: Tick): seq<Event> { [Ticked(t), Seeded([bar]), Ticked(u)] }

  lemma ThreeEvents(s: Series, t: Tick, bar: Bar, u: Tick)
    requires s.interval > 0
    ensures After(s, RunningBucketSeeded(t, bar, u)) ==
            Step(s, Apply(s, Step(s, EMPTY, t), Seeded([bar])), u)
  {
    var events := RunningBucketSeeded(t, bar, u);
    AfterNext(s, events, 0);
    AfterNext(s, events, 1);
    AfterNext(s, events, 2);
    assert events[..3] == events && events[..0] == [];
  }

  /** Seeding the bucket that is still running always ends with two bars of one open time. */
  lemma SeedingTheRunningBucketDuplicates(s: Series, t: Tick, bar: Bar, u: Tick)
    requires s.interval > 0 && bar.isClosed && bar.openTime == Bucket(s.interval, t.time) < Bucket(s.interval, u.time)
    ensures var closed := After(s, RunningBucketSeeded(t, bar, u)).closed;
            |closed| == 2 && closed[0] == bar && closed[1].openTime == bar.openTime
    ensures !AlwaysInOrder(s, RunningBucketSeeded(t, bar, u))
  {
    var events := RunningBucketSeeded(t, bar, u);
    OneBarSeeded(bar);
    ThreeEvents(s, t, bar, u);
    assert events[..3] == events;
  }
}

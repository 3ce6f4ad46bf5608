/** The manager that feeds validated ticks to one builder per timeframe. */
module MultiTimeframe {
  import opened Prelude
  import opened MarketData
  import opened BarBuilding
  import opened StreamEqualsBatch
  import opened TimeframeHierarchy

  datatype Rejection = SymbolMismatch | NonPositivePrice | CrossedSpread | OutOfOrder

  function ValidationError(symbol: string, last: Option<Tick>, tick: Tick): Option<Rejection>
  {
    if tick.symbol != symbol then Some(SymbolMismatch)
    else if tick.bid <= 0.0 || tick.ask <= 0.0 then Some(NonPositivePrice)
    else if tick.bid > tick.ask then Some(CrossedSpread)
    else if last.Some? && tick.time < last.value.time then Some(OutOfOrder)
    else None
  }

  ghost predicate Supported(timeframes: set<string>)
  {
    forall tf :: tf in timeframes ==> TimeframeSeconds(tf).Some? && TimeframeSeconds(tf).value > 0
  }

  function SeriesOf(symbol: string, timeframe: string): Series
    requires TimeframeSeconds(timeframe).Some?
  {
    Series(symbol, timeframe, TimeframeSeconds(timeframe).value)
  }

  /** Every builder steps once. */
  ghost function StepAll(symbol: string, views: map<string, Builder>, tick: Tick): map<string, Builder>
    requires Supported(views.Keys)
  {
    map tf | tf in views :: Step(SeriesOf(symbol, tf), views[tf], tick)
  }

  /** The bars one tick closes, by timeframe. */
  ghost function ClosedBy(symbol: string, views: map<string, Builder>, tick: Tick): map<string, Bar>
    requires Supported(views.Keys)
  {
    map tf | tf in views && Crosses(SeriesOf(symbol, tf), views[tf], tick) ::
      CloseBar(SeriesOf(symbol, tf), views[tf].running.value)
  }

  ghost function RunAll(symbol: string, timeframes: set<string>, ticks: seq<Tick>): map<string, Builder>
    requires Supported(timeframes)
  {
    map tf | tf in timeframes :: Run(SeriesOf(symbol, tf), ticks)
  }

  class MultiTimeframeBarManager {
    const symbol: string
    const builders: map<string, BarBuilder>
    var lastTick: Option<Tick>
    var tickCount: nat
    /** Every tick accepted so far. */
    ghost var accepted: seq<Tick>

    ghost predicate Valid()
      reads this, builders.Values
    {
      && Wired()
      && tickCount == |accepted|
      && TimeOrdered(accepted)
      && (forall i :: 0 <= i < |accepted| ==>
            accepted[i].symbol == symbol && 0.0 < accepted[i].bid <= accepted[i].ask)
      && lastTick == (if accepted == [] then None else Some(accepted[|accepted| - 1]))
    }

    /** Each timeframe has a builder of its own, made for it. */
    ghost predicate Wired()
    {
      && Supported(builders.Keys)
      && forall tf :: tf in builders ==> builders[tf].Valid() && builders[tf].Describe() == SeriesOf(symbol, tf)
    }

    ghost function Views(): map<string, Builder>
      reads builders.Values
    {
      map tf | tf in builders :: builders[tf].View()
    }

    /** No history was seeded: every builder is what the accepted ticks make it. */
    ghost predicate Unseeded()
      requires Wired()
      reads this, builders.Values
    {
      Views() == RunAll(symbol, builders.Keys, accepted)
    }

    constructor (symbol: string, timeframes: seq<string>)
      requires forall i :: 0 <= i < |timeframes| ==> TimeframeSeconds(timeframes[i]).Some?
      ensures Valid() && Unseeded() && accepted == []
      ensures this.symbol == symbol && builders.Keys == set i | 0 <= i < |timeframes| :: timeframes[i]
      ensures forall tf :: tf in builders ==> fresh(builders[tf])
    {
      var made: map<string, BarBuilder> := map[];
      for i := 0 to |timeframes|
        invariant made.Keys == set j | 0 <= j < i :: timeframes[j]
        invariant forall tf :: tf in made ==>
          made[tf].Valid() && made[tf].Describe() == Series(symbol, tf, made[tf].interval) &&
          made[tf].View() == EMPTY
        invariant forall tf :: tf in made ==> fresh(made[tf])
      {
        var b := new BarBuilder(symbol, timeframes[i]);
        made := made[timeframes[i] := b];
      }
      this.symbol, builders := symbol, made;
      lastTick, tickCount, accepted := None, 0, [];
    }

    method ValidateTick(tick: Tick) returns (error: Option<Rejection>)
      requires Valid()
      ensures error == ValidationError(symbol, lastTick, tick)
      ensures error.None? ==> TimeOrdered(accepted + [tick])
    {
      if tick.symbol != symbol {
        error := Some(SymbolMismatch);
      } else if tick.bid <= 0.0 || tick.ask <= 0.0 {
        error := Some(NonPositivePrice);
      } else if tick.bid > tick.ask {
        error := Some(CrossedSpread);
      } else if lastTick.Some? && tick.time < lastTick.value.time {
        error := Some(OutOfOrder);
      } else {
        error := None;
      }
    }

    /** A rejected tick changes nothing; an accepted one steps every builder once. */
    method IngestTick(tick: Tick) returns (error: Option<Rejection>, newlyClosed: map<string, Bar>)
      requires Valid()
      modifies this, builders.Values
      ensures Valid()
      ensures error == ValidationError(symbol, old(lastTick), tick)
      ensures accepted == if error.Some? then old(accepted) else old(accepted) + [tick]
      ensures Views() == if error.Some? then old(Views()) else StepAll(symbol, old(Views()), tick)
      ensures newlyClosed == if error.Some? then map[] else ClosedBy(symbol, old(Views()), tick)
      ensures old(Unseeded()) ==> Unseeded()
    {
      error := ValidateTick(tick);
      newlyClosed := map[];
      if error.Some? {
        return;
      }
      ghost var before := Views();
      lastTick := Some(tick);
      tickCount := tickCount + 1;
      accepted := accepted + [tick];
      assert Views() == before;
      RunAllStep(symbol, builders.Keys, old(accepted), tick);
      newlyClosed := FeedBuilders(tick);
    }

    static lemma RunAllStep(symbol: string, timeframes: set<string>, ticks: seq<Tick>, tick: Tick)
      requires Supported(timeframes)
      ensures RunAll(symbol, timeframes, ticks + [tick]) == StepAll(symbol, RunAll(symbol, timeframes, ticks), tick)
    {
      assert (ticks + [tick])[..|ticks|] == ticks;
    }

    method FeedBuilders(tick: Tick) returns (newlyClosed: map<string, Bar>)
      requires Wired()
      modifies builders.Values
      ensures Views() == StepAll(symbol, old(Views()), tick)
      ensures newlyClosed == ClosedBy(symbol, old(Views()), tick)
    {
      ghost var before := Views();
      newlyClosed := map[];
      var pending := builders.Keys;
      PartlyEnds(symbol, before, tick);
      while pending != {}
        invariant pending <= builders.Keys
        invariant Views() == Partly(before, StepAll(symbol, before, tick), pending)
        invariant newlyClosed == ClosedBy(symbol, before, tick) - pending
      {
        var tf :| tf in pending;
        newlyClosed := FeedNext(before, pending, tf, tick, newlyClosed);
        pending := pending - {tf};
      }
    }

    /** One pass of the loop over the builders. */
    method FeedNext(ghost before: map<string, Builder>, ghost pending: set<string>, tf: string, tick: Tick,
                    newlyClosed: map<string, Bar>) returns (extended: map<string, Bar>)
      requires Wired() && tf in pending && pending <= builders.Keys == before.Keys
      requires Views() == Partly(before, StepAll(symbol, before, tick), pending)
      requires newlyClosed == ClosedBy(symbol, before, tick) - pending
      modifies builders[tf]
      ensures Views() == Partly(before, StepAll(symbol, before, tick), pending - {tf})
      ensures extended == ClosedBy(symbol, before, tick) - (pending - {tf})
    {
      PartlyStep(symbol, before, tick, pending, tf);
      var bar := FeedOne(tf, tick);
      extended := if bar.Some? then newlyClosed[tf := bar.value] else newlyClosed;
    }

    static ghost function Partly(before: map<string, Builder>, after: map<string, Builder>, pending: set<string>)
      : map<string, Builder>
      requires before.Keys == after.Keys
    {
      map tf | tf in before :: if tf in pending then before[tf] else after[tf]
    }

    /** Before the loop nothing has been fed, after it everything. */
    static lemma PartlyEnds(symbol: string, before: map<string, Builder>, tick: Tick)
      requires Supported(before.Keys)
      ensures var after, closings := StepAll(symbol, before, tick), ClosedBy(symbol, before, tick);
              Partly(before, after, before.Keys) == before && Partly(before, after, {}) == after &&
              closings - before.Keys == map[] && closings - {} == closings
    {}

    static lemma PartlyStep(symbol: string, before: map<string, Builder>, tick: Tick, pending: set<string>, tf: string)
      requires Supported(before.Keys) && tf in before && tf in pending
      ensures var after, closings := StepAll(symbol, before, tick), ClosedBy(symbol, before, tick);
              Partly(before, after, pending)[tf := after[tf]] == Partly(before, after, pending - {tf}) &&
              closings - (pending - {tf}) ==
              if tf in closings then (closings - pending)[tf := closings[tf]] else closings - pending
    {}

    method FeedOne(tf: string, tick: Tick) returns (bar: Option<Bar>)
      requires Wired() && tf in builders
      modifies builders[tf]
      ensures Views() == old(Views())[tf := Step(SeriesOf(symbol, tf), old(Views())[tf], tick)]
      ensures bar == if Crosses(SeriesOf(symbol, tf), old(Views())[tf], tick)
                     then Some(CloseBar(SeriesOf(symbol, tf), old(Views())[tf].running.value)) else None
    {
      ghost var before := Views();
      OthersDiffer(tf);
      bar := builders[tf].ProcessTick(tick);
      OneChanged(before, Views(), tf);
    }

    /** Builders of different timeframes are different objects. */
    lemma OthersDiffer(tf: string)
      requires Wired() && tf in builders
      ensures forall other :: other in builders && other != tf ==> builders[other] != builders[tf]
    {
      forall other | other in builders && other != tf
        ensures builders[other] != builders[tf]
      {
        assert builders[other].Describe().timeframe == other && builders[tf].Describe().timeframe == tf;
      }
    }

    static lemma OneChanged(before: map<string, Builder>, after: map<string, Builder>, tf: string)
      requires before.Keys == after.Keys && tf in before
      requires forall other :: other in before && other != tf ==> after[other] == before[other]
      ensures after == before[tf := after[tf]]
    {}

    /** None stands for the ValueError on a timeframe that is not tracked. */
    method GetClosedBars(timeframe: string) returns (bars: Option<seq<Bar>>)
      requires Valid()
      ensures bars == if timeframe in builders then Some(builders[timeframe].closedBars) else None
      ensures Unseeded() && bars.Some? ==>
                bars.value == Run(SeriesOf(symbol, timeframe), accepted).closed
    {
      if timeframe in builders {
        assert Views()[timeframe].closed == builders[timeframe].closedBars;
        bars := Some(builders[timeframe].closedBars);
      } else {
        bars := None;
      }
    }

    method SeedClosedBars(timeframe: string, bars: seq<Bar>) returns (tracked: bool)
      requires Valid()
      modifies builders.Values
      ensures Valid() && tracked == (timeframe in builders)
      ensures forall tf :: tf in builders ==>
                builders[tf].closedBars == if tf == timeframe then Seed(old(builders[tf].closedBars), bars)
                                           else old(builders[tf].closedBars)
    {
      tracked := timeframe in builders;
      if tracked {
        builders[timeframe].SeedClosedBars(bars);
      }
    }

    /** The bars an unseeded manager serves agree across its timeframes at every moment. */
    lemma ServedBarsAgree(fine: string, coarse: string)
      requires Valid() && Unseeded() && fine in builders && coarse in builders
      requires Divides(SeriesOf(symbol, fine), SeriesOf(symbol, coarse))
      ensures forall i :: 0 <= i < |builders[coarse].closedBars| ==>
                MergedBar(SeriesOf(symbol, coarse), builders[fine].closedBars, builders[coarse].closedBars[i])
    {
      CoarseMergesFine(SeriesOf(symbol, fine), SeriesOf(symbol, coarse), accepted);
      assert Views()[fine].closed == builders[fine].closedBars;
      assert Views()[coarse].closed == builders[coarse].closedBars;
    }
  }
}

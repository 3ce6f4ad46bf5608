/** Structure in the reflected market: highs and lows change places, and the bias changes sign. */
module StructureMirror {
  import opened Prelude
  import opened MarketData
  import opened Regime
  import opened Structure
  import opened Mirror

  lemma PivotsReflected(c: real, bars: seq<Bar>, lookback: nat, i: nat)
    requires lookback <= i < |bars| - lookback
    ensures SwingHigh(Reflect(c, bars), lookback, i) == SwingLow(bars, lookback, i)
    ensures SwingLow(Reflect(c, bars), lookback, i) == SwingHigh(bars, lookback, i)
  {
    var r := Reflect(c, bars);
    assert forall j {:trigger r[j]} {:trigger bars[j]} :: 0 <= j < |bars| ==>
      r[j].high == c - bars[j].low && r[j].low == c - bars[j].high;
  }

  lemma {:induction false} PricesConcat(a: seq<SwingPoint>, b: seq<SwingPoint>, high: bool)
    ensures PricesOfKind(a + b, high) == PricesOfKind(a, high) + PricesOfKind(b, high)
  {
    if b == [] {
      assert a + b == a;
    } else {
      PricesConcat(a, b[..|b| - 1], high);
      assert (a + b)[..|a + b| - 1] == a + b[..|b| - 1];
    }
  }

  /** `ys` is `xs` reflected. */
  ghost predicate Reflected(c: real, xs: seq<real>, ys: seq<real>)
  {
    |xs| == |ys| && forall i :: 0 <= i < |xs| ==> ys[i] == c - xs[i]
  }

  lemma ReflectedConcat(c: real, a: seq<real>, b: seq<real>, a': seq<real>, b': seq<real>)
    requires Reflected(c, a, a') && Reflected(c, b, b')
    ensures Reflected(c, a + b, a' + b')
  {}

  lemma PricesAtOneBar(bars: seq<Bar>, lookback: nat, i: nat, high: bool)
    requires lookback <= i < |bars| - lookback
    ensures PricesOfKind(SwingsAt(bars, lookback, i), high) ==
            if high then (if SwingHigh(bars, lookback, i) then [bars[i].high] else [])
            else (if SwingLow(bars, lookback, i) then [bars[i].low] else [])
  {
    var top, bottom := SwingPoint(i, bars[i].high, true), SwingPoint(i, bars[i].low, false);
    PricesConcat(if SwingHigh(bars, lookback, i) then [top] else [],
                 if SwingLow(bars, lookback, i) then [bottom] else [], high);
    assert PricesOfKind([top], high) == if high then [top.price] else [];
    assert PricesOfKind([bottom], high) == if high then [] else [bottom.price];
  }

  lemma PivotsAtReflected(c: real, bars: seq<Bar>, lookback: nat, i: nat, high: bool)
    requires lookback <= i < |bars| - lookback
    ensures Reflected(c, PricesOfKind(SwingsAt(bars, lookback, i), high),
                      PricesOfKind(SwingsAt(Reflect(c, bars), lookback, i), !high))
  {
    PivotsReflected(c, bars, lookback, i);
    PricesAtOneBar(bars, lookback, i, high);
    PricesAtOneBar(Reflect(c, bars), lookback, i, !high);
  }

  lemma {:induction false} PivotPricesReflected(c: real, bars: seq<Bar>, lookback: nat, end: nat, high: bool)
    requires lookback <= end <= |bars| - lookback
    ensures Reflected(c, PricesOfKind(SwingsUpTo(bars, lookback, end), high),
                      PricesOfKind(SwingsUpTo(Reflect(c, bars), lookback, end), !high))
  {
    if end > lookback {
      var r, i := Reflect(c, bars), end - 1;
      PivotPricesReflected(c, bars, lookback, i, high);
      PivotsAtReflected(c, bars, lookback, i, high);
      PricesConcat(SwingsUpTo(bars, lookback, i), SwingsAt(bars, lookback, i), high);
      PricesConcat(SwingsUpTo(r, lookback, i), SwingsAt(r, lookback, i), !high);
      ReflectedConcat(c, PricesOfKind(SwingsUpTo(bars, lookback, i), high),
                      PricesOfKind(SwingsAt(bars, lookback, i), high),
                      PricesOfKind(SwingsUpTo(r, lookback, i), !high),
                      PricesOfKind(SwingsAt(r, lookback, i), !high));
    }
  }

  /** With a negative displacement a market can count as rising and falling at once; rising is then tested first. */
  ghost predicate Ambiguous(highs: seq<real>, lows: seq<real>, minBos: real)
  {
    |highs| >= 2 && |lows| >= 2 &&
    Rises(highs, minBos) && Rises(lows, minBos) && Falls(highs, minBos) && Falls(lows, minBos)
  }

  lemma ReadingReflected(c: real, highs: seq<real>, lows: seq<real>, highs': seq<real>, lows': seq<real>, d: real)
    requires Reflected(c, highs, lows') && Reflected(c, lows, highs')
    ensures Reading(highs', lows', d).0 == Opposite(Reading(highs, lows, d).0) <==> !Ambiguous(highs, lows, d)
  {}

  /** Which pivot prices the structure of some bars is read from. */
  function PivotPrices(bars: seq<Bar>, lookback: int, high: bool): seq<real>
  {
    PricesOfKind(Swings(bars, lookback), high)
  }

  lemma PivotPricesAre(bars: seq<Bar>, lookback: nat, high: bool)
    requires |bars| >= 2 * lookback + 1 && lookback >= 1
    ensures PivotPrices(bars, lookback, high) == PricesOfKind(SwingsUpTo(bars, lookback, |bars| - lookback), high)
  {}

  lemma SwingsAre(bars: seq<Bar>, lookback: nat)
    requires |bars| >= 2 * lookback + 1 && lookback >= 1
    ensures Swings(bars, lookback) == SwingsUpTo(bars, lookback, |bars| - lookback)
  {}

  lemma PricesOfLists(c: real, bars: seq<Bar>, r: seq<Bar>, lookback: int, high: bool, a: seq<SwingPoint>, b: seq<SwingPoint>)
    requires a == Swings(bars, lookback) && b == Swings(r, lookback)
    requires Reflected(c, PricesOfKind(a, high), PricesOfKind(b, !high))
    ensures Reflected(c, PivotPrices(bars, lookback, high), PivotPrices(r, lookback, !high))
  {}

  lemma PivotsReflectedTo(c: real, bars: seq<Bar>, r: seq<Bar>, lookback: nat, high: bool)
    requires r == Reflect(c, bars) && |r| == |bars| >= 2 * lookback + 1 && lookback >= 1
    ensures Reflected(c, PivotPrices(bars, lookback, high), PivotPrices(r, lookback, !high))
  {
    SwingsAre(bars, lookback);
    SwingsAre(r, lookback);
    PivotPricesReflected(c, bars, lookback, |bars| - lookback, high);
    PricesOfLists(c, bars, r, lookback, high, SwingsUpTo(bars, lookback, |bars| - lookback),
                  SwingsUpTo(r, lookback, |r| - lookback));
  }

  lemma NoPivots(bars: seq<Bar>, lookback: int, high: bool)
    requires |bars| < 2 * lookback + 1 || lookback < 1
    ensures PivotPrices(bars, lookback, high) == []
  {}

  lemma PivotsOfReflection(c: real, bars: seq<Bar>, lookback: int, high: bool)
    ensures Reflected(c, PivotPrices(bars, lookback, high), PivotPrices(Reflect(c, bars), lookback, !high))
  {
    if |bars| >= 2 * lookback + 1 && lookback >= 1 {
      PivotsReflectedTo(c, bars, Reflect(c, bars), lookback, high);
    } else {
      NoPivots(bars, lookback, high);
      NoPivots(Reflect(c, bars), lookback, !high);
    }
  }

  lemma NoPivotsNoPrices(swings: seq<SwingPoint>)
    ensures swings == [] <==> PricesOfKind(swings, true) == [] && PricesOfKind(swings, false) == []
  {}

  /** The state is read off the two lists of pivot prices alone. */
  function StateOf(highs: seq<real>, lows: seq<real>, d: real): StructureState
  {
    if highs == [] && lows == [] then NO_STRUCTURE
    else
      var r := Reading(highs, lows, d);
      StructureState(r.0, LastPrice(highs), LastPrice(lows), r.1, r.2)
  }

  lemma StateComesFromPivots(bars: seq<Bar>, lookback: int, atr: Option<real>, multiplier: real)
    ensures AnalyzeStructure(bars, lookback, atr, multiplier) ==
            StateOf(PivotPrices(bars, lookback, true), PivotPrices(bars, lookback, false), Displacement(atr, multiplier))
  {
    NoPivotsNoPrices(Swings(bars, lookback));
  }

  lemma LastPriceReflected(c: real, xs: seq<real>, ys: seq<real>)
    requires Reflected(c, xs, ys)
    ensures LastPrice(ys) == if LastPrice(xs).Some? then Some(c - LastPrice(xs).value) else None
  {}

  /** Swing highs and lows change places, and the bias changes sign unless the market is ambiguous. */
  ghost predicate MirrorImages(c: real, s: StructureState, s': StructureState, ambiguous: bool)
  {
    && (s'.bias == Opposite(s.bias) <==> !ambiguous)
    && s'.recentSwingHigh == (if s.recentSwingLow.Some? then Some(c - s.recentSwingLow.value) else None)
    && s'.recentSwingLow == (if s.recentSwingHigh.Some? then Some(c - s.recentSwingHigh.value) else None)
  }

  lemma StateReflected(c: real, highs: seq<real>, lows: seq<real>, highs': seq<real>, lows': seq<real>, d: real)
    requires Reflected(c, highs, lows') && Reflected(c, lows, highs')
    ensures MirrorImages(c, StateOf(highs, lows, d), StateOf(highs', lows', d), Ambiguous(highs, lows, d))
  {
    ReadingReflected(c, highs, lows, highs', lows', d);
    LastPriceReflected(c, highs, lows');
    LastPriceReflected(c, lows, highs');
  }

  /**
   * The bias of the reflected market is the opposite bias, exactly when the market is not ambiguous;
   * swing highs become reflected swing lows and the other way round.
   */
  lemma StructureReflected(c: real, bars: seq<Bar>, lookback: int, atr: Option<real>, multiplier: real)
    ensures MirrorImages(c, AnalyzeStructure(bars, lookback, atr, multiplier),
                         AnalyzeStructure(Reflect(c, bars), lookback, atr, multiplier),
                         Ambiguous(PivotPrices(bars, lookback, true), PivotPrices(bars, lookback, false),
                                   Displacement(atr, multiplier)))
  {
    var r := Reflect(c, bars);
    PivotsOfReflection(c, bars, lookback, true);
    PivotsOfReflection(c, bars, lookback, false);
    StateComesFromPivots(bars, lookback, atr, multiplier);
    StateComesFromPivots(r, lookback, atr, multiplier);
    StateReflected(c, PivotPrices(bars, lookback, true), PivotPrices(bars, lookback, false),
                   PivotPrices(r, lookback, true), PivotPrices(r, lookback, false), Displacement(atr, multiplier));
  }

  /** A non-negative multiplier, such as the default 0.30, leaves no ambiguity in any market. */
  lemma NeverAmbiguous(highs: seq<real>, lows: seq<real>, atr: Option<real>, multiplier: real)
    requires multiplier >= 0.0
    ensures !Ambiguous(highs, lows, Displacement(atr, multiplier))
  {}

  /** A contracting market is read the same way up in both images, so only the bias is symmetric. */
  lemma ContractionIsAlwaysBullish(c: real, highs: seq<real>, lows: seq<real>,
                                   highs': seq<real>, lows': seq<real>, d: real)
    requires d >= 0.0 && Reflected(c, highs, lows') && Reflected(c, lows, highs')
    requires |highs| >= 2 && |lows| >= 2 && Falls(highs, d) && Rises(lows, d)
    ensures Reading(highs, lows, d) == (Neutral, ChochBullish, Bullish)
    ensures Reading(highs', lows', d) == (Neutral, ChochBullish, Bullish)
  {}
}

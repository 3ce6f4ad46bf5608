/** Swing pivots and the structural bias read from them. */
module Structure {
  import opened Prelude
  import opened MarketData
  import opened Regime

  datatype SwingPoint = SwingPoint(barIndex: nat, price: real, isHigh: bool)

  /** Strictly above every other bar within `lookback` bars on both sides. */
  predicate SwingHigh(bars: seq<Bar>, lookback: nat, i: int)
    requires lookback <= i < |bars| - lookback
  {
    forall j :: i - lookback <= j <= i + lookback && j != i ==> bars[i].high > bars[j].high
  }

  predicate SwingLow(bars: seq<Bar>, lookback: nat, i: int)
    requires lookback <= i < |bars| - lookback
  {
    forall j :: i - lookback <= j <= i + lookback && j != i ==> bars[i].low < bars[j].low
  }

  /** The pivots at one bar: a high before a low. */
  function SwingsAt(bars: seq<Bar>, lookback: nat, i: nat): seq<SwingPoint>
    requires lookback <= i < |bars| - lookback
  {
    (if SwingHigh(bars, lookback, i) then [SwingPoint(i, bars[i].high, true)] else []) +
    (if SwingLow(bars, lookback, i) then [SwingPoint(i, bars[i].low, false)] else [])
  }

  /** Pivots at bars lookback .. end - 1. */
  function SwingsUpTo(bars: seq<Bar>, lookback: nat, end: nat): seq<SwingPoint>
    requires lookback <= end <= |bars| - lookback
  {
    if end == lookback then [] else SwingsUpTo(bars, lookback, end - 1) + SwingsAt(bars, lookback, end - 1)
  }

  function Swings(bars: seq<Bar>, lookback: int): seq<SwingPoint>
  {
    if |bars| < 2 * lookback + 1 || lookback < 1 then []
    else SwingsUpTo(bars, lookback, |bars| - lookback)
  }

  method DetectSwingPoints(bars: seq<Bar>, lookback: int) returns (swings: seq<SwingPoint>)
    ensures swings == Swings(bars, lookback)
  {
    swings := [];
    if |bars| < 2 * lookback + 1 || lookback < 1 {
      return;
    }
    for i := lookback to |bars| - lookback
      invariant swings == SwingsUpTo(bars, lookback, i)
    {
      var before := swings;
      if SwingHigh(bars, lookback, i) {
        swings := swings + [SwingPoint(i, bars[i].high, true)];
      }
      if SwingLow(bars, lookback, i) {
        swings := swings + [SwingPoint(i, bars[i].low, false)];
      }
      assert swings == before + SwingsAt(bars, lookback, i);
    }
  }

  // ---------------------------------------------------------------- what the pivots are

  /** `s` reports a pivot of the bars. */
  ghost predicate IsPivot(bars: seq<Bar>, lookback: nat, s: SwingPoint)
  {
    lookback <= s.barIndex < |bars| - lookback &&
    if s.isHigh then SwingHigh(bars, lookback, s.barIndex) && s.price == bars[s.barIndex].high
    else SwingLow(bars, lookback, s.barIndex) && s.price == bars[s.barIndex].low
  }

  lemma PivotsAtOneBar(bars: seq<Bar>, lookback: nat, i: nat, s: SwingPoint)
    requires lookback <= i < |bars| - lookback
    ensures s in SwingsAt(bars, lookback, i) <==> s.barIndex == i && IsPivot(bars, lookback, s)
  {
    if s.barIndex == i && IsPivot(bars, lookback, s) {
      assert s == SwingPoint(i, if s.isHigh then bars[i].high else bars[i].low, s.isHigh);
    }
  }

  /** The list holds exactly the pivots below `end`. */
  lemma {:induction false} SwingsExact(bars: seq<Bar>, lookback: nat, end: nat, s: SwingPoint)
    requires lookback <= end <= |bars| - lookback
    ensures s in SwingsUpTo(bars, lookback, end) <==> s.barIndex < end && IsPivot(bars, lookback, s)
  {
    if end > lookback {
      SwingsExact(bars, lookback, end - 1, s);
      PivotsAtOneBar(bars, lookback, end - 1, s);
      var front, last := SwingsUpTo(bars, lookback, end - 1), SwingsAt(bars, lookback, end - 1);
      assert s in front + last <==> s in front || s in last;
    }
  }

  /** Bar indices lie in [lo, hi) and never decrease. */
  ghost predicate InOrder(swings: seq<SwingPoint>, lo: nat, hi: nat)
  {
    && (forall i :: 0 <= i < |swings| ==> lo <= swings[i].barIndex < hi)
    && (forall i, j :: 0 <= i < j < |swings| ==> swings[i].barIndex <= swings[j].barIndex)
  }

  /** Pivots are listed in bar order. */
  lemma {:induction false} SwingsOrdered(bars: seq<Bar>, lookback: nat, end: nat)
    requires lookback <= end <= |bars| - lookback
    ensures InOrder(SwingsUpTo(bars, lookback, end), lookback, end)
  {
    if end > lookback {
      SwingsOrdered(bars, lookback, end - 1);
      var last := SwingsAt(bars, lookback, end - 1);
      assert forall i :: 0 <= i < |last| ==> last[i].barIndex == end - 1;
    }
  }

  function Before(swings: seq<SwingPoint>, index: int): seq<SwingPoint>
  {
    if swings == [] then []
    else
      var last := swings[|swings| - 1];
      Before(swings[..|swings| - 1], index) + (if last.barIndex < index then [last] else [])
  }

  lemma {:induction false} BeforeOfConcat(a: seq<SwingPoint>, b: seq<SwingPoint>, index: int)
    ensures Before(a + b, index) == Before(a, index) + Before(b, index)
  {
    if b == [] {
      assert a + b == a;
    } else {
      BeforeOfConcat(a, b[..|b| - 1], index);
      assert (a + b)[..|a + b| - 1] == a + b[..|b| - 1];
    }
  }

  lemma {:induction false} BeforeAll(swings: seq<SwingPoint>, index: int)
    requires forall i :: 0 <= i < |swings| ==> swings[i].barIndex < index
    ensures Before(swings, index) == swings
  {
    if swings != [] {
      BeforeAll(swings[..|swings| - 1], index);
    }
  }

  lemma {:induction false} BeforeNone(swings: seq<SwingPoint>, index: int)
    requires forall i :: 0 <= i < |swings| ==> swings[i].barIndex >= index
    ensures Before(swings, index) == []
  {
    if swings != [] {
      BeforeNone(swings[..|swings| - 1], index);
    }
  }

  lemma {:induction false} SwingsOfPrefix(bars: seq<Bar>, lookback: nat, m: nat, end: nat)
    requires m <= |bars| && lookback <= end <= m - lookback
    ensures SwingsUpTo(bars[..m], lookback, end) == SwingsUpTo(bars, lookback, end)
  {
    if end > lookback {
      SwingsOfPrefix(bars, lookback, m, end - 1);
      SamePivots(bars, lookback, m, end - 1);
      SameConcat(SwingsUpTo(bars[..m], lookback, end - 1), SwingsAt(bars[..m], lookback, end - 1),
                 SwingsUpTo(bars, lookback, end - 1), SwingsAt(bars, lookback, end - 1));
    }
  }

  lemma SameConcat(a: seq<SwingPoint>, b: seq<SwingPoint>, a': seq<SwingPoint>, b': seq<SwingPoint>)
    requires a == a' && b == b'
    ensures a + b == a' + b'
  {}

  lemma SamePivots(bars: seq<Bar>, lookback: nat, m: nat, i: nat)
    requires m <= |bars| && lookback <= i < m - lookback
    ensures SwingsAt(bars[..m], lookback, i) == SwingsAt(bars, lookback, i)
  {
    var w := bars[..m];
    assert forall j {:trigger w[j]} {:trigger bars[j]} :: 0 <= j < m ==> w[j] == bars[j];
    assert SwingHigh(w, lookback, i) == SwingHigh(bars, lookback, i);
    assert SwingLow(w, lookback, i) == SwingLow(bars, lookback, i);
  }

  lemma {:induction false} BeforeOfSwings(bars: seq<Bar>, lookback: nat, end: nat, index: nat)
    requires lookback <= index <= end <= |bars| - lookback
    ensures Before(SwingsUpTo(bars, lookback, end), index) == SwingsUpTo(bars, lookback, index)
    decreases end
  {
    if end == index {
      SwingsOrdered(bars, lookback, end);
      BeforeAll(SwingsUpTo(bars, lookback, end), index);
    } else {
      BeforeOfSwings(bars, lookback, end - 1, index);
      BeforeOfConcat(SwingsUpTo(bars, lookback, end - 1), SwingsAt(bars, lookback, end - 1), index);
      BeforeNone(SwingsAt(bars, lookback, end - 1), index);
    }
  }

  /**
   * No repaint: the pivots reported on the first m bars are exactly the final pivots below index
   * m - lookback, in the same order. A later bar can neither add, remove nor move one of them.
   */
  lemma NoRepaint(bars: seq<Bar>, lookback: int, m: nat)
    requires m <= |bars|
    ensures Swings(bars[..m], lookback) == Before(Swings(bars, lookback), m - lookback)
  {
    var prefix, whole := Swings(bars[..m], lookback), Swings(bars, lookback);
    if lookback < 1 || |bars| < 2 * lookback + 1 {
      assert Before([], m - lookback) == [];
    } else if m < 2 * lookback + 1 {
      NothingBefore(bars, lookback, m - lookback);
      assert prefix == [];
    } else {
      PrefixPivots(bars, lookback, m, m - lookback);
      assert prefix == SwingsUpTo(bars[..m], lookback, m - lookback);
    }
  }

  lemma NothingBefore(bars: seq<Bar>, lookback: nat, index: int)
    requires 2 * lookback + 1 <= |bars| && index <= lookback
    ensures Before(SwingsUpTo(bars, lookback, |bars| - lookback), index) == []
  {
    SwingsOrdered(bars, lookback, |bars| - lookback);
    BeforeNone(SwingsUpTo(bars, lookback, |bars| - lookback), index);
  }

  lemma PrefixPivots(bars: seq<Bar>, lookback: nat, m: nat, end: nat)
    requires 2 * lookback + 1 <= m <= |bars| && end == m - lookback
    ensures SwingsUpTo(bars[..m], lookback, end) == Before(SwingsUpTo(bars, lookback, |bars| - lookback), end)
  {
    SwingsOfPrefix(bars, lookback, m, end);
    BeforeOfSwings(bars, lookback, |bars| - lookback, end);
  }

  /** A pivot beats every bar within its window. */
  lemma PivotDominates(bars: seq<Bar>, lookback: nat, s: SwingPoint, j: nat)
    requires IsPivot(bars, lookback, s) && j != s.barIndex && s.barIndex - lookback <= j <= s.barIndex + lookback
    ensures if s.isHigh then bars[s.barIndex].high > bars[j].high else bars[s.barIndex].low < bars[j].low
  {}

  lemma SpacedPivots(bars: seq<Bar>, lookback: nat, a: SwingPoint, b: SwingPoint)
    requires IsPivot(bars, lookback, a) && IsPivot(bars, lookback, b)
    requires a.isHigh == b.isHigh && a.barIndex < b.barIndex
    ensures b.barIndex - a.barIndex > lookback
  {
    if b.barIndex - a.barIndex <= lookback {
      PivotDominates(bars, lookback, a, b.barIndex);
      PivotDominates(bars, lookback, b, a.barIndex);
    }
  }

  lemma SwingIsPivot(bars: seq<Bar>, lookback: int, s: SwingPoint)
    requires s in Swings(bars, lookback)
    ensures lookback >= 1 && IsPivot(bars, lookback, s)
  {
    SwingsExact(bars, lookback, |bars| - lookback, s);
  }

  /** Two pivots of the same kind are more than `lookback` bars apart. */
  lemma PivotsSpaced(bars: seq<Bar>, lookback: int, a: SwingPoint, b: SwingPoint)
    requires a in Swings(bars, lookback) && b in Swings(bars, lookback)
    requires a.isHigh == b.isHigh && a.barIndex < b.barIndex
    ensures b.barIndex - a.barIndex > lookback
  {
    SwingIsPivot(bars, lookback, a);
    SwingIsPivot(bars, lookback, b);
    SpacedPivots(bars, lookback, a, b);
  }

  // ---------------------------------------------------------------- structure

  datatype StructureEvent = BosBullish | BosBearish | ChochBullish | ChochBearish | NoEvent

  datatype StructureState = StructureState(
    bias: Direction, recentSwingHigh: Option<real>, recentSwingLow: Option<real>,
    lastEvent: StructureEvent, structuralDirection: Direction)

  const NO_STRUCTURE := StructureState(Neutral, None, None, NoEvent, Neutral)

  function PricesOfKind(swings: seq<SwingPoint>, high: bool): seq<real>
  {
    if swings == [] then []
    else
      var last := swings[|swings| - 1];
      PricesOfKind(swings[..|swings| - 1], high) + (if last.isHigh == high then [last.price] else [])
  }

  /** Minimum displacement of a break: a multiple of the ATR when there is one. */
  function Displacement(atr: Option<real>, multiplier: real): real
  {
    if atr.Some? && atr.value > 0.0 then atr.value * multiplier else 0.0
  }

  predicate Rises(prices: seq<real>, gap: real)
    requires |prices| >= 2
  {
    prices[|prices| - 1] > prices[|prices| - 2] + gap
  }

  predicate Falls(prices: seq<real>, gap: real)
    requires |prices| >= 2
  {
    prices[|prices| - 1] < prices[|prices| - 2] - gap
  }

  function LastPrice(prices: seq<real>): Option<real>
  {
    if prices == [] then None else Some(prices[|prices| - 1])
  }

  function TurnOf(prices: seq<real>, gap: real): Direction
    requires |prices| >= 2
  {
    if Rises(prices, gap) then Bullish else if Falls(prices, gap) then Bearish else Neutral
  }

  /** Bias, last event and direction; Bullish stands for the source's "UP" and Bearish for "DOWN". */
  function Reading(highs: seq<real>, lows: seq<real>, minBos: real): (Direction, StructureEvent, Direction)
  {
    if |highs| >= 2 && |lows| >= 2 then
      if Rises(highs, minBos) && Rises(lows, minBos) then (Bullish, BosBullish, Bullish)
      else if Falls(highs, minBos) && Falls(lows, minBos) then (Bearish, BosBearish, Bearish)
      else if Falls(highs, minBos) && Rises(lows, minBos) then (Neutral, ChochBullish, Bullish)
      else if Rises(highs, minBos) && Falls(lows, minBos) then (Neutral, ChochBearish, Bearish)
      else (Neutral, NoEvent, Neutral)
    else if |highs| >= 2 then (Neutral, NoEvent, TurnOf(highs, minBos))
    else if |lows| >= 2 then (Neutral, NoEvent, TurnOf(lows, minBos))
    else (Neutral, NoEvent, Neutral)
  }

  /** The equal-level tolerance only selects a branch that leaves the state neutral, so it is not a parameter. */
  function AnalyzeStructure(bars: seq<Bar>, lookback: int, atr: Option<real>, minBosMultiplier: real): StructureState
  {
    var swings := Swings(bars, lookback);
    if swings == [] then NO_STRUCTURE
    else
      var highs, lows := PricesOfKind(swings, true), PricesOfKind(swings, false);
      var (bias, event, direction) := Reading(highs, lows, Displacement(atr, minBosMultiplier));
      StructureState(bias, LastPrice(highs), LastPrice(lows), event, direction)
  }
}

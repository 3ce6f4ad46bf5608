/** Ranges of the indicators: ATR and its baseline, RSI, +DI, -DI and ADX. */
module IndicatorBounds {
  import opened Prelude
  import opened Arithmetic
  import opened MarketData
  import opened Indicators

  /** A Wilder average never leaves the band of its inputs. */
  lemma {:induction false} WilderInBand(xs: seq<real>, p: int, n: int, lo: real, hi: real)
    requires 0 < p <= n <= |xs| && forall i :: 0 <= i < |xs| ==> lo <= xs[i] <= hi
    ensures lo <= Wilder(xs, p, n) <= hi
    decreases n
  {
    if n == p {
      SumInBand(xs[..p], lo, hi);
      DivideBand(Sum(xs[..p]), p as real, lo, hi);
    } else {
      WilderInBand(xs, p, n - 1, lo, hi);
      BlendBand(Wilder(xs, p, n - 1), xs[n - 1], p, lo, hi);
    }
  }

  /** ATR is never negative, whatever the bars. */
  lemma AtrNonNegative(bars: seq<Bar>, period: int)
    requires Atr(bars, period).Some?
    ensures Atr(bars, period).value >= 0.0
  {
    WilderBand(TrueRanges(bars), period, |bars| - 1, 0.0);
  }

  /** The volatility baseline lies between the smallest and the largest true range. */
  lemma BaselineInBand(bars: seq<Bar>, period: int, count: int, lo: real, hi: real)
    requires AtrBaseline(bars, period, count).Some?
    requires forall i :: 0 <= i < |TrueRanges(bars)| ==> lo <= TrueRanges(bars)[i] <= hi
    ensures |RunningAtrs(bars, period, count)| == count
    ensures lo <= AtrBaseline(bars, period, count).value <= hi
  {
    var values := RunningAtrs(bars, period, count);
    forall i | 0 <= i < count
      ensures lo <= values[i] <= hi
    {
      WilderInBand(TrueRanges(bars), period, |bars| - count + i, lo, hi);
    }
    SumInBand(values, lo, hi);
    DivideBand(Sum(values), count as real, lo, hi);
  }

  lemma RsiInRange(bars: seq<Bar>, period: int)
    requires Rsi(bars, period).Some?
    ensures 0.0 <= Rsi(bars, period).value <= 100.0
  {
    var n := |bars| - 1;
    WilderBand(Gains(bars), period, n, 0.0);
    WilderBand(Losses(bars), period, n, 0.0);
    var gain, loss := Wilder(Gains(bars), period, n), Wilder(Losses(bars), period, n);
    if loss > 0.0 && gain > 0.0 {
      DivideAtLeast(gain, loss, 0.0);
      DivideBand(100.0, 1.0 + gain / loss, 0.0, 100.0);
    }
  }

  // ---------------------------------------------------------------- directional movement

  /** The smoothed sum is p times the Wilder average. */
  lemma {:induction false} SmoothedIsScaledWilder(xs: seq<real>, p: int, n: int)
    requires 0 < p <= n <= |xs|
    ensures Smoothed(xs, p, n) == p as real * Wilder(xs, p, n)
    decreases n
  {
    if n == p {
      ScaleBack(Sum(xs[..p]), p as real);
    } else {
      SmoothedIsScaledWilder(xs, p, n - 1);
      DecayIsScaledBlend(Wilder(xs, p, n - 1), xs[n - 1], p);
    }
  }

  lemma ScaleBack(x: real, d: real)
    requires d > 0.0
    ensures d * (x / d) == x && (d * x) / d == x
  {}

  lemma DecayIsScaledBlend(w: real, x: real, p: int)
    requires p > 0
    ensures Decay(p as real * w, x, p) == p as real * Blend(w, x, p)
  {
    ScaleBack(w, p as real);
    ScaleBack(w * (p - 1) as real + x, p as real);
    assert (p - 1) as real == p as real - 1.0;
  }

  /** Directional moves share at most the true range of a well-formed bar. */
  lemma MovesWithinRange(current: Bar, prev: Bar)
    requires current.WellFormed() && prev.WellFormed()
    ensures 0.0 <= PlusMove(current, prev) && 0.0 <= MinusMove(current, prev)
    ensures PlusMove(current, prev) + MinusMove(current, prev) <= TrueRange(current, prev)
  {}

  /** The inequality survives Wilder's smoothing. */
  lemma {:induction false} SmoothedMoves(xs: seq<real>, ys: seq<real>, zs: seq<real>, p: int, n: int)
    requires 0 < p <= n <= |xs| == |ys| == |zs|
    requires forall i :: 0 <= i < |xs| ==> 0.0 <= xs[i] && 0.0 <= ys[i] && xs[i] + ys[i] <= zs[i]
    ensures 0.0 <= Smoothed(xs, p, n) && 0.0 <= Smoothed(ys, p, n)
    ensures Smoothed(xs, p, n) + Smoothed(ys, p, n) <= Smoothed(zs, p, n)
    decreases n
  {
    if n == p {
      SumMoves(xs[..p], ys[..p], zs[..p]);
    } else {
      SmoothedMoves(xs, ys, zs, p, n - 1);
      var x, y, z := Smoothed(xs, p, n - 1), Smoothed(ys, p, n - 1), Smoothed(zs, p, n - 1);
      DecayNonNegative(x, p);
      DecayNonNegative(y, p);
      DecayNonNegative(z - x - y, p);
      DecayLinear(x, y, z, p as real);
    }
  }

  lemma {:induction false} SumMoves(xs: seq<real>, ys: seq<real>, zs: seq<real>)
    requires |xs| == |ys| == |zs|
    requires forall i :: 0 <= i < |xs| ==> 0.0 <= xs[i] && 0.0 <= ys[i] && xs[i] + ys[i] <= zs[i]
    ensures 0.0 <= Sum(xs) && 0.0 <= Sum(ys) && Sum(xs) + Sum(ys) <= Sum(zs)
  {
    var n := |xs|;
    if n > 0 {
      SumMoves(xs[..n - 1], ys[..n - 1], zs[..n - 1]);
    }
  }

  lemma DecayNonNegative(x: real, p: int)
    requires p > 0 && x >= 0.0
    ensures x - x / p as real >= 0.0
  {
    DivideBand(x, p as real, 0.0, x);
  }

  lemma DecayLinear(x: real, y: real, z: real, d: real)
    requires d > 0.0
    ensures (z - x - y) / d == z / d - x / d - y / d
  {}

  lemma DiPairBounds(plus: real, minus: real, range: real)
    requires 0.0 <= plus && 0.0 <= minus && plus + minus <= range
    ensures 0.0 <= Di(plus, range) && 0.0 <= Di(minus, range)
    ensures Di(plus, range) + Di(minus, range) <= 100.0
    ensures 0.0 <= Dx(Di(plus, range), Di(minus, range)) <= 100.0
  {
    if range > 0.0 {
      DivideBand(plus, range, 0.0, 1.0);
      DivideBand(minus, range, 0.0, 1.0);
      DivideBand(plus + minus, range, 0.0, 1.0);
      assert (plus + minus) / range == plus / range + minus / range;
    }
    var a, b := Di(plus, range), Di(minus, range);
    if a + b > 0.0 {
      DivideBand(Abs(a - b), a + b, 0.0, 1.0);
    }
  }

  lemma MovesOf(bars: seq<Bar>, p: int, n: int)
    requires 0 < p <= n < |bars| && forall i :: 0 <= i < |bars| ==> bars[i].WellFormed()
    ensures 0.0 <= Smoothed(PlusMoves(bars), p, n) && 0.0 <= Smoothed(MinusMoves(bars), p, n)
    ensures Smoothed(PlusMoves(bars), p, n) + Smoothed(MinusMoves(bars), p, n) <= Smoothed(TrueRanges(bars), p, n)
  {
    forall i | 0 <= i < |bars| - 1
      ensures 0.0 <= PlusMoves(bars)[i] && 0.0 <= MinusMoves(bars)[i] &&
              PlusMoves(bars)[i] + MinusMoves(bars)[i] <= TrueRanges(bars)[i]
    {
      MovesWithinRange(bars[i + 1], bars[i]);
    }
    SmoothedMoves(PlusMoves(bars), MinusMoves(bars), TrueRanges(bars), p, n);
  }

  lemma DxInRange(bars: seq<Bar>, p: int, n: int)
    requires 0 < p <= n < |bars| && forall i :: 0 <= i < |bars| ==> bars[i].WellFormed()
    ensures 0.0 <= DxAt(PlusMoves(bars), MinusMoves(bars), TrueRanges(bars), p, n) <= 100.0
  {
    MovesOf(bars, p, n);
    DiPairBounds(Smoothed(PlusMoves(bars), p, n), Smoothed(MinusMoves(bars), p, n), Smoothed(TrueRanges(bars), p, n));
  }

  /**
   * On well-formed bars that pass the length guard all three values are returned, +DI and -DI are
   * non-negative and share at most 100, and ADX lies in [0, 100].
   */
  lemma AdxBounds(bars: seq<Bar>, period: int)
    requires period > 0 && |bars| >= 2 * period + 1
    requires forall i :: 0 <= i < |bars| ==> bars[i].WellFormed()
    ensures var r := Adx(bars, period);
            r.adx.Some? && r.plusDi.Some? && r.minusDi.Some? &&
            0.0 <= r.plusDi.value && 0.0 <= r.minusDi.value && r.plusDi.value + r.minusDi.value <= 100.0 &&
            0.0 <= r.adx.value <= 100.0
  {
    var n, dxs := |bars| - 1, DxList(PlusMoves(bars), MinusMoves(bars), TrueRanges(bars), period);
    MovesOf(bars, period, n);
    DiPairBounds(Smoothed(PlusMoves(bars), period, n), Smoothed(MinusMoves(bars), period, n),
                 Smoothed(TrueRanges(bars), period, n));
    forall i | 0 <= i < |dxs|
      ensures 0.0 <= dxs[i] <= 100.0
    {
      DxInRange(bars, period, period + i);
    }
    WilderInBand(dxs, period, |bars| - period, 0.0, 100.0);
  }
}

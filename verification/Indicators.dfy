/** Closed-bar indicators: the recurrences, and the loops of indicators.py that compute them. */
module Indicators {
  import opened Prelude
  import opened MarketData
  import opened Arithmetic

  // ---------------------------------------------------------------- recurrences over number lists

  function Average(xs: seq<real>): real
    requires |xs| > 0
  {
    Sum(xs) / |xs| as real
  }

  /** One step of Wilder smoothing with period p. */
  function Blend(w: real, x: real, p: int): real
    requires p > 0
  {
    (w * (p - 1) as real + x) / p as real
  }

  /** Wilder average after the first n numbers: seeded by the mean of the first p. */
  function Wilder(xs: seq<real>, p: int, n: int): real
    requires 0 < p <= n <= |xs|
  {
    if n == p then Sum(xs[..p]) / p as real else Blend(Wilder(xs, p, n - 1), xs[n - 1], p)
  }

  /** Wilder's smoothed sum, the form calculate_adx keeps. */
  function Smoothed(xs: seq<real>, p: int, n: int): real
    requires 0 < p <= n <= |xs|
  {
    if n == p then Sum(xs[..p]) else Decay(Smoothed(xs, p, n - 1), xs[n - 1], p)
  }

  function Decay(s: real, x: real, p: int): real
    requires p > 0
  {
    s - s / p as real + x
  }

  function EmaWeight(p: int): real
    requires p > 0
  {
    2.0 / (p + 1) as real
  }

  function EmaAfter(xs: seq<real>, p: int, n: int): real
    requires 0 < p <= n <= |xs|
  {
    if n == p then Sum(xs[..p]) / p as real else EmaStep(EmaAfter(xs, p, n - 1), xs[n - 1], EmaWeight(p))
  }

  function EmaStep(ema: real, x: real, k: real): real { x * k + ema * (1.0 - k) }

  // ---------------------------------------------------------------- per-bar quantities

  function Closes(bars: seq<Bar>): seq<real>
  {
    seq(|bars|, i requires 0 <= i < |bars| => bars[i].close)
  }

  function TrueRange(current: Bar, prev: Bar): real
  {
    Max(current.high - current.low, Max(Abs(current.high - prev.close), Abs(current.low - prev.close)))
  }

  function Gain(current: Bar, prev: Bar): real { Max(current.close - prev.close, 0.0) }

  function Loss(current: Bar, prev: Bar): real { Max(prev.close - current.close, 0.0) }

  function PlusMove(current: Bar, prev: Bar): real
  {
    var up, down := current.high - prev.high, prev.low - current.low;
    if up > down && up > 0.0 then up else 0.0
  }

  function MinusMove(current: Bar, prev: Bar): real
  {
    var up, down := current.high - prev.high, prev.low - current.low;
    if down > up && down > 0.0 then down else 0.0
  }

  /** f over consecutive bars: element i compares bars i + 1 and i. */
  function Pairwise(bars: seq<Bar>, f: (Bar, Bar) -> real): (r: seq<real>)
    ensures |r| == if |bars| == 0 then 0 else |bars| - 1
    ensures forall i {:trigger r[i]} :: 0 <= i < |r| ==> r[i] == f(bars[i + 1], bars[i])
  {
    seq(if |bars| == 0 then 0 else |bars| - 1, i requires 0 <= i < |bars| - 1 => f(bars[i + 1], bars[i]))
  }

  function TrueRanges(bars: seq<Bar>): seq<real> { Pairwise(bars, TrueRange) }

  function Gains(bars: seq<Bar>): seq<real> { Pairwise(bars, Gain) }

  function Losses(bars: seq<Bar>): seq<real> { Pairwise(bars, Loss) }

  function PlusMoves(bars: seq<Bar>): seq<real> { Pairwise(bars, PlusMove) }

  function MinusMoves(bars: seq<Bar>): seq<real> { Pairwise(bars, MinusMove) }

  // ---------------------------------------------------------------- the indicators

  function Ema(bars: seq<Bar>, period: int): Option<real>
  {
    if |bars| < period || period <= 0 then None else Some(EmaAfter(Closes(bars), period, |bars|))
  }

  function Atr(bars: seq<Bar>, period: int): Option<real>
  {
    if |bars| < period + 1 || period <= 0 then None
    else Some(Wilder(TrueRanges(bars), period, |bars| - 1))
  }

  function RsiOf(gain: real, loss: real): real
    requires gain >= 0.0 && loss >= 0.0
  {
    if loss == 0.0 then 100.0
    else if gain == 0.0 then 0.0
    else 100.0 - 100.0 / (1.0 + gain / loss)
  }

  function Rsi(bars: seq<Bar>, period: int): Option<real>
  {
    if |bars| < period + 1 || period <= 0 then None
    else
      WilderBand(Gains(bars), period, |bars| - 1, 0.0);
      WilderBand(Losses(bars), period, |bars| - 1, 0.0);
      Some(RsiOf(Wilder(Gains(bars), period, |bars| - 1), Wilder(Losses(bars), period, |bars| - 1)))
  }

  function Dx(plusDi: real, minusDi: real): real
  {
    var total := plusDi + minusDi;
    if total == 0.0 then 0.0 else (Abs(plusDi - minusDi) / total) * 100.0
  }

  function Di(move: real, range: real): real { if range == 0.0 then 0.0 else (move / range) * 100.0 }

  /** Directional index after n bar-to-bar moves. */
  function DxAt(pdm: seq<real>, ndm: seq<real>, tr: seq<real>, p: int, n: int): real
    requires 0 < p <= n <= |tr| == |pdm| == |ndm|
  {
    Dx(Di(Smoothed(pdm, p, n), Smoothed(tr, p, n)), Di(Smoothed(ndm, p, n), Smoothed(tr, p, n)))
  }

  function DxList(pdm: seq<real>, ndm: seq<real>, tr: seq<real>, p: int): seq<real>
    requires 0 < p <= |tr| == |pdm| == |ndm|
  {
    seq(|tr| - p + 1, i requires 0 <= i <= |tr| - p => DxAt(pdm, ndm, tr, p, p + i))
  }

  datatype AdxResult = AdxResult(adx: Option<real>, plusDi: Option<real>, minusDi: Option<real>)

  const NO_ADX := AdxResult(None, None, None)

  function Adx(bars: seq<Bar>, period: int): AdxResult
  {
    if |bars| < period * 2 + 1 || period <= 0 then NO_ADX
    else
      var pdm, ndm, tr, n := PlusMoves(bars), MinusMoves(bars), TrueRanges(bars), |bars| - 1;
      AdxResult(Some(Wilder(DxList(pdm, ndm, tr, period), period, n - period + 1)),
                Some(Di(Smoothed(pdm, period, n), Smoothed(tr, period, n))),
                Some(Di(Smoothed(ndm, period, n), Smoothed(tr, period, n))))
  }

  /** Mean of the last `count` values of one running Wilder pass over the true ranges. */
  function AtrBaseline(bars: seq<Bar>, period: int, count: int): Option<real>
  {
    if |bars| < period + 1 + count || count <= 0 || period <= 0 then None
    else Some(Average(RunningAtrs(bars, period, count)))
  }

  function RunningAtrs(bars: seq<Bar>, period: int, count: int): seq<real>
    requires 0 < period && 0 < count && period + 1 + count <= |bars|
  {
    seq(count, i requires 0 <= i < count => Wilder(TrueRanges(bars), period, |bars| - count + i))
  }

  // ---------------------------------------------------------------- facts the definitions need

  lemma BlendBand(w: real, x: real, p: int, lo: real, hi: real)
    requires p > 0 && lo <= w <= hi && lo <= x <= hi
    ensures lo <= Blend(w, x, p) <= hi
  {
    var q, d := (p - 1) as real, p as real;
    BlendAtLeast(w, x, q, lo);
    BlendAtMost(w, x, q, hi);
    DivideBand(w * q + x, d, lo, hi);
  }

  lemma BlendAtLeast(w: real, x: real, q: real, lo: real)
    requires q >= 0.0 && lo <= w && lo <= x
    ensures lo * (q + 1.0) <= w * q + x
  {
    TimesMonotone(lo, w, q);
    assert lo * (q + 1.0) == lo * q + lo;
  }

  lemma BlendAtMost(w: real, x: real, q: real, hi: real)
    requires q >= 0.0 && w <= hi && x <= hi
    ensures w * q + x <= hi * (q + 1.0)
  {
    TimesMonotone(w, hi, q);
    assert hi * (q + 1.0) == hi * q + hi;
  }

  /** A Wilder average of numbers at least lo is at least lo. */
  lemma {:induction false} WilderBand(xs: seq<real>, p: int, n: int, lo: real)
    requires 0 < p <= n <= |xs| && forall i :: 0 <= i < |xs| ==> lo <= xs[i]
    ensures lo <= Wilder(xs, p, n)
    decreases n
  {
    if n == p {
      SumAtLeast(xs[..p], lo);
      DivideAtLeast(Sum(xs[..p]), p as real, lo);
    } else {
      WilderBand(xs, p, n - 1, lo);
      var w := Wilder(xs, p, n - 1);
      BlendBand(w, xs[n - 1], p, lo, Max(w, xs[n - 1]));
    }
  }

  lemma {:induction false} SumAtLeast(xs: seq<real>, lo: real)
    requires forall i :: 0 <= i < |xs| ==> lo <= xs[i]
    ensures lo * |xs| as real <= Sum(xs)
  {
    if |xs| > 0 {
      SumAtLeast(xs[..|xs| - 1], lo);
    }
  }
}

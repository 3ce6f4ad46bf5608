/** The loops of indicators.py, each computing its recurrence exactly. */
module IndicatorLoops {
  import opened Prelude
  import opened MarketData
  import opened Indicators

  method CalculateEma(bars: seq<Bar>, period: int) returns (r: Option<real>)
    ensures r == Ema(bars, period)
  {
    if |bars| < period || period <= 0 {
      return None;
    }
    var k := EmaWeight(period);
    var currentEma := Sum(Closes(bars[..period])) / period as real;
    assert Closes(bars[..period]) == Closes(bars)[..period];
    for i := period to |bars|
      invariant currentEma == EmaAfter(Closes(bars), period, i)
    {
      currentEma := EmaStep(currentEma, bars[i].close, k);
    }
    r := Some(currentEma);
  }

  /** The smoothing loop that calculate_atr and calculate_adx both end with. */
  method WilderAverage(xs: seq<real>, period: int) returns (w: real)
    requires 0 < period <= |xs|
    ensures w == Wilder(xs, period, |xs|)
  {
    w := Sum(xs[..period]) / period as real;
    for i := period to |xs|
      invariant w == Wilder(xs, period, i)
    {
      w := Blend(w, xs[i], period);
    }
  }

  method CalculateAtr(bars: seq<Bar>, period: int) returns (r: Option<real>)
    ensures r == Atr(bars, period)
  {
    if |bars| < period + 1 || period <= 0 {
      return None;
    }
    var trueRanges: seq<real> := [];
    for i := 1 to |bars|
      invariant |trueRanges| == i - 1
      invariant forall j {:trigger trueRanges[j]} :: 0 <= j < i - 1 ==> trueRanges[j] == TrueRange(bars[j + 1], bars[j])
    {
      trueRanges := trueRanges + [TrueRange(bars[i], bars[i - 1])];
    }
    assert trueRanges == TrueRanges(bars);
    var atr := WilderAverage(trueRanges, period);
    r := Some(atr);
  }

  method AverageMoves(bars: seq<Bar>, period: int) returns (avgGain: real, avgLoss: real)
    requires 0 < period < |bars|
    ensures avgGain == Wilder(Gains(bars), period, |bars| - 1)
    ensures avgLoss == Wilder(Losses(bars), period, |bars| - 1)
  {
    var gains: seq<real>, losses: seq<real> := [], [];
    for i := 1 to |bars|
      invariant |gains| == |losses| == i - 1
      invariant forall j {:trigger gains[j]} {:trigger losses[j]} :: 0 <= j < i - 1 ==>
        gains[j] == Gain(bars[j + 1], bars[j]) && losses[j] == Loss(bars[j + 1], bars[j])
    {
      var change := bars[i].close - bars[i - 1].close;
      if change > 0.0 {
        gains, losses := gains + [change], losses + [0.0];
      } else {
        gains, losses := gains + [0.0], losses + [Abs(change)];
      }
    }
    assert gains == Gains(bars) && losses == Losses(bars);
    avgGain := Sum(gains[..period]) / period as real;
    avgLoss := Sum(losses[..period]) / period as real;
    for i := period to |gains|
      invariant avgGain == Wilder(gains, period, i) && avgLoss == Wilder(losses, period, i)
    {
      avgGain := Blend(avgGain, gains[i], period);
      avgLoss := Blend(avgLoss, losses[i], period);
    }
  }

  method CalculateRsi(bars: seq<Bar>, period: int) returns (r: Option<real>)
    ensures r == Rsi(bars, period)
  {
    if |bars| < period + 1 || period <= 0 {
      return None;
    }
    var avgGain, avgLoss := AverageMoves(bars, period);
    WilderBand(Gains(bars), period, |bars| - 1, 0.0);
    WilderBand(Losses(bars), period, |bars| - 1, 0.0);
    if avgLoss == 0.0 {
      return Some(100.0);
    }
    if avgGain == 0.0 {
      return Some(0.0);
    }
    var rs := avgGain / avgLoss;
    r := Some(100.0 - 100.0 / (1.0 + rs));
  }

  /** True ranges of a prefix are a prefix of the true ranges; so are its Wilder averages. */
  lemma {:induction false} WilderOfPrefix(xs: seq<real>, ys: seq<real>, p: int, n: int)
    requires 0 < p <= n <= |xs| && xs <= ys
    ensures Wilder(xs, p, n) == Wilder(ys, p, n)
    decreases n
  {
    if n == p {
      assert xs[..p] == ys[..p];
    } else {
      WilderOfPrefix(xs, ys, p, n - 1);
    }
  }

  lemma AtrOfPrefix(bars: seq<Bar>, m: nat, p: int)
    requires 0 < p < m <= |bars|
    ensures Atr(bars[..m], p) == Some(Wilder(TrueRanges(bars), p, m - 1))
  {
    assert TrueRanges(bars[..m]) == TrueRanges(bars)[..m - 1];
    WilderOfPrefix(TrueRanges(bars[..m]), TrueRanges(bars), p, m - 1);
  }

  /** bars[:end], where a negative end counts from the back. */
  function PrefixSlice(bars: seq<Bar>, end: int): seq<Bar>
  {
    if 0 <= end <= |bars| then bars[..end]
    else if end > |bars| then bars
    else if |bars| + end > 0 then bars[..|bars| + end]
    else []
  }

  /**
   * The source recomputes the whole ATR on every prefix; the result is the mean of the last
   * `baselineBars` values of one running pass, and it always averages exactly that many.
   */
  method CalculateAtrBaseline(bars: seq<Bar>, atrPeriod: int, baselineBars: int) returns (r: Option<real>)
    ensures r == AtrBaseline(bars, atrPeriod, baselineBars)
  {
    if |bars| < atrPeriod + 1 + baselineBars || baselineBars <= 0 {
      return None;
    }
    ghost var passes: seq<real> := if atrPeriod > 0 then RunningAtrs(bars, atrPeriod, baselineBars) else [];
    var atrValues: seq<real> := [];
    for offset := 0 to baselineBars
      invariant atrValues == if atrPeriod > 0 then passes[..offset] else []
    {
      var window := PrefixSlice(bars, |bars| - baselineBars + offset + 1);
      var val := CalculateAtr(window, atrPeriod);
      if atrPeriod > 0 {
        AtrOfWindow(bars, atrPeriod, baselineBars, offset);
        assert passes[..offset + 1] == passes[..offset] + [passes[offset]];
      }
      if val.Some? {
        atrValues := atrValues + [val.value];
      }
    }
    if atrValues == [] {
      return None;
    }
    assert atrPeriod > 0 ==> atrValues == passes;
    r := Some(Average(atrValues));
  }

  /** Each recomputed window gives one value of the running pass. */
  lemma AtrOfWindow(bars: seq<Bar>, p: int, count: int, offset: nat)
    requires 0 < p && offset < count && p + 1 + count <= |bars|
    ensures Atr(PrefixSlice(bars, |bars| - count + offset + 1), p) == Some(RunningAtrs(bars, p, count)[offset])
  {
    AtrOfPrefix(bars, |bars| - count + offset + 1, p);
  }

  method DirectionalMoves(bars: seq<Bar>) returns (tr: seq<real>, pdm: seq<real>, ndm: seq<real>)
    requires |bars| > 0
    ensures tr == TrueRanges(bars) && pdm == PlusMoves(bars) && ndm == MinusMoves(bars)
  {
    tr, pdm, ndm := [], [], [];
    for i := 1 to |bars|
      invariant |tr| == |pdm| == |ndm| == i - 1
      invariant forall j {:trigger tr[j]} {:trigger pdm[j]} {:trigger ndm[j]} :: 0 <= j < i - 1 ==>
        tr[j] == TrueRange(bars[j + 1], bars[j]) &&
        pdm[j] == PlusMove(bars[j + 1], bars[j]) && ndm[j] == MinusMove(bars[j + 1], bars[j])
    {
      tr := tr + [TrueRange(bars[i], bars[i - 1])];
      var upMove, downMove := bars[i].high - bars[i - 1].high, bars[i - 1].low - bars[i].low;
      pdm := pdm + [if upMove > downMove && upMove > 0.0 then upMove else 0.0];
      ndm := ndm + [if downMove > upMove && downMove > 0.0 then downMove else 0.0];
    }
    assert tr == TrueRanges(bars) && pdm == PlusMoves(bars) && ndm == MinusMoves(bars);
  }

  method DirectionalIndices(tr: seq<real>, pdm: seq<real>, ndm: seq<real>, period: int)
    returns (dxList: seq<real>, atrS: real, pdmS: real, ndmS: real)
    requires 0 < period <= |tr| == |pdm| == |ndm|
    ensures dxList == DxList(pdm, ndm, tr, period)
    ensures atrS == Smoothed(tr, period, |tr|)
    ensures pdmS == Smoothed(pdm, period, |tr|) && ndmS == Smoothed(ndm, period, |tr|)
  {
    atrS, pdmS, ndmS := Sum(tr[..period]), Sum(pdm[..period]), Sum(ndm[..period]);
    dxList := [Dx(Di(pdmS, atrS), Di(ndmS, atrS))];
    for i := period to |tr|
      invariant atrS == Smoothed(tr, period, i)
      invariant pdmS == Smoothed(pdm, period, i) && ndmS == Smoothed(ndm, period, i)
      invariant |dxList| == i - period + 1
      invariant forall j :: 0 <= j < |dxList| ==> dxList[j] == DxAt(pdm, ndm, tr, period, period + j)
    {
      atrS := Decay(atrS, tr[i], period);
      pdmS := Decay(pdmS, pdm[i], period);
      ndmS := Decay(ndmS, ndm[i], period);
      dxList := dxList + [Dx(Di(pdmS, atrS), Di(ndmS, atrS))];
    }
  }

  method CalculateAdx(bars: seq<Bar>, period: int) returns (r: AdxResult)
    ensures r == Adx(bars, period)
  {
    if |bars| < period * 2 + 1 || period <= 0 {
      return NO_ADX;
    }
    var tr, pdm, ndm := DirectionalMoves(bars);
    var dxList, atrS, pdmS, ndmS := DirectionalIndices(tr, pdm, ndm, period);
    var adx := WilderAverage(dxList, period);
    r := AdxResult(Some(adx), Some(Di(pdmS, atrS)), Some(Di(ndmS, atrS)));
  }
}

/** Reflecting every price p to c - p turns the market upside down and the analysis with it. */
module Mirror {
  import opened Prelude
  import opened Arithmetic
  import opened MarketData
  import opened Indicators
  import opened IndicatorBounds
  import opened Regime

  function ReflectBar(c: real, b: Bar): Bar
  {
    b.(open := c - b.open, high := c - b.low, low := c - b.high, close := c - b.close)
  }

  function Reflect(c: real, bars: seq<Bar>): seq<Bar>
  {
    seq(|bars|, i requires 0 <= i < |bars| => ReflectBar(c, bars[i]))
  }

  function Opposite(d: Direction): Direction
  {
    match d case Bullish => Bearish case Bearish => Bullish case Neutral => Neutral
  }

  function Flipped(r: RegimeName): RegimeName
  {
    match r case TrendUp => TrendDown case TrendDown => TrendUp case _ => r
  }

  // ---------------------------------------------------------------- indicators

  lemma {:induction false} SumReflected(c: real, xs: seq<real>, ys: seq<real>)
    requires |xs| == |ys| && forall i :: 0 <= i < |xs| ==> ys[i] == c - xs[i]
    ensures Sum(ys) == c * |xs| as real - Sum(xs)
  {
    var n := |xs|;
    if n > 0 {
      SumReflected(c, xs[..n - 1], ys[..n - 1]);
      assert c * n as real == c * (n - 1) as real + c;
    }
  }

  lemma MeanReflected(c: real, total: real, n: int)
    requires n > 0
    ensures (c * n as real - total) / n as real == c - total / n as real
  {}

  lemma {:induction false} EmaAfterReflected(c: real, xs: seq<real>, ys: seq<real>, p: int, n: int)
    requires 0 < p <= n <= |xs| == |ys| && forall i :: 0 <= i < |xs| ==> ys[i] == c - xs[i]
    ensures EmaAfter(ys, p, n) == c - EmaAfter(xs, p, n)
    decreases n
  {
    if n == p {
      SumReflected(c, xs[..p], ys[..p]);
      MeanReflected(c, Sum(xs[..p]), p);
    } else {
      EmaAfterReflected(c, xs, ys, p, n - 1);
      EmaStepReflected(c, EmaAfter(xs, p, n - 1), xs[n - 1], EmaWeight(p));
    }
  }

  lemma EmaStepReflected(c: real, ema: real, x: real, k: real)
    ensures EmaStep(c - ema, c - x, k) == c - EmaStep(ema, x, k)
  {
    assert (c - x) * k == c * k - x * k;
    assert (c - ema) * (1.0 - k) == c * (1.0 - k) - ema * (1.0 - k);
    assert c * k + c * (1.0 - k) == c;
  }

  lemma EmaReflected(c: real, bars: seq<Bar>, period: int)
    ensures Ema(bars, period).Some? == Ema(Reflect(c, bars), period).Some?
    ensures Ema(bars, period).Some? ==> Ema(Reflect(c, bars), period).value == c - Ema(bars, period).value
  {
    if Ema(bars, period).Some? {
      EmaAfterReflected(c, Closes(bars), Closes(Reflect(c, bars)), period, |bars|);
    }
  }

  lemma PairsReflected(c: real, b: Bar, a: Bar)
    ensures TrueRange(ReflectBar(c, b), ReflectBar(c, a)) == TrueRange(b, a)
    ensures Gain(ReflectBar(c, b), ReflectBar(c, a)) == Loss(b, a)
    ensures Loss(ReflectBar(c, b), ReflectBar(c, a)) == Gain(b, a)
    ensures PlusMove(ReflectBar(c, b), ReflectBar(c, a)) == MinusMove(b, a)
    ensures MinusMove(ReflectBar(c, b), ReflectBar(c, a)) == PlusMove(b, a)
  {}

  lemma ListsReflected(c: real, bars: seq<Bar>)
    ensures TrueRanges(Reflect(c, bars)) == TrueRanges(bars)
    ensures Gains(Reflect(c, bars)) == Losses(bars) && Losses(Reflect(c, bars)) == Gains(bars)
    ensures PlusMoves(Reflect(c, bars)) == MinusMoves(bars) && MinusMoves(Reflect(c, bars)) == PlusMoves(bars)
  {
    forall i | 0 <= i < |bars| - 1
      ensures TrueRanges(Reflect(c, bars))[i] == TrueRanges(bars)[i]
      ensures Gains(Reflect(c, bars))[i] == Losses(bars)[i] && Losses(Reflect(c, bars))[i] == Gains(bars)[i]
      ensures PlusMoves(Reflect(c, bars))[i] == MinusMoves(bars)[i]
      ensures MinusMoves(Reflect(c, bars))[i] == PlusMoves(bars)[i]
    {
      PairsReflected(c, bars[i + 1], bars[i]);
    }
  }

  lemma AtrReflected(c: real, bars: seq<Bar>, period: int)
    ensures Atr(Reflect(c, bars), period) == Atr(bars, period)
  {
    ListsReflected(c, bars);
  }

  lemma BaselineReflected(c: real, bars: seq<Bar>, period: int, count: int)
    ensures AtrBaseline(Reflect(c, bars), period, count) == AtrBaseline(bars, period, count)
  {
    ListsReflected(c, bars);
    if AtrBaseline(bars, period, count).Some? {
      assert RunningAtrs(Reflect(c, bars), period, count) == RunningAtrs(bars, period, count);
    }
  }

  lemma AdxReflected(c: real, bars: seq<Bar>, period: int)
    ensures Adx(Reflect(c, bars), period) ==
            AdxResult(Adx(bars, period).adx, Adx(bars, period).minusDi, Adx(bars, period).plusDi)
  {
    ListsReflected(c, bars);
    if Adx(bars, period) != NO_ADX {
      DxSymmetric(PlusMoves(bars), MinusMoves(bars), TrueRanges(bars), period);
    }
  }

  /** ATR, its baseline and ADX do not see the reflection; +DI and -DI change places. */
  lemma RangesReflected(c: real, bars: seq<Bar>, atrPeriod: int, baselineBars: int, adxPeriod: int)
    ensures Atr(Reflect(c, bars), atrPeriod) == Atr(bars, atrPeriod)
    ensures AtrBaseline(Reflect(c, bars), atrPeriod, baselineBars) == AtrBaseline(bars, atrPeriod, baselineBars)
    ensures Adx(Reflect(c, bars), adxPeriod) ==
            AdxResult(Adx(bars, adxPeriod).adx, Adx(bars, adxPeriod).minusDi, Adx(bars, adxPeriod).plusDi)
  {
    AtrReflected(c, bars, atrPeriod);
    BaselineReflected(c, bars, atrPeriod, baselineBars);
    AdxReflected(c, bars, adxPeriod);
  }

  lemma DxSymmetric(pdm: seq<real>, ndm: seq<real>, tr: seq<real>, p: int)
    requires 0 < p <= |tr| == |pdm| == |ndm|
    ensures DxList(ndm, pdm, tr, p) == DxList(pdm, ndm, tr, p)
  {
    forall n | p <= n <= |tr|
      ensures DxAt(ndm, pdm, tr, p, n) == DxAt(pdm, ndm, tr, p, n)
    {
      DxSwap(Di(Smoothed(pdm, p, n), Smoothed(tr, p, n)), Di(Smoothed(ndm, p, n), Smoothed(tr, p, n)));
    }
  }

  lemma DxSwap(a: real, b: real)
    ensures Dx(a, b) == Dx(b, a)
  {
    assert Abs(a - b) == Abs(b - a) && a + b == b + a;
  }

  function AverageGain(bars: seq<Bar>, period: int): real
    requires 0 < period < |bars|
  {
    Wilder(Gains(bars), period, |bars| - 1)
  }

  function AverageLoss(bars: seq<Bar>, period: int): real
    requires 0 < period < |bars|
  {
    Wilder(Losses(bars), period, |bars| - 1)
  }

  /** No movement left in either average. RSI then reads 100, as it does in the mirror image. */
  predicate Motionless(bars: seq<Bar>, period: int)
  {
    0 < period < |bars| && AverageGain(bars, period) == 0.0 && AverageLoss(bars, period) == 0.0
  }

  lemma RsiOfSwapped(gain: real, loss: real)
    requires gain >= 0.0 && loss >= 0.0
    ensures RsiOf(loss, gain) == 100.0 - RsiOf(gain, loss) <==> !(gain == 0.0 && loss == 0.0)
  {
    if gain > 0.0 && loss > 0.0 {
      var x, y := gain / loss, loss / gain;
      assert x * y == 1.0;
      DivideAtLeast(gain, loss, 0.0);
      DivideAtLeast(loss, gain, 0.0);
      var u, v := 100.0 / (1.0 + x), 100.0 / (1.0 + y);
      assert u * (1.0 + x) == 100.0 && v * (1.0 + y) == 100.0;
      assert v * (1.0 + y) * x == v * (x + x * y);
      assert v * (1.0 + x) == 100.0 * x;
      assert (u + v) * (1.0 + x) == 100.0 * (1.0 + x);
      Cancel(u + v, 100.0, 1.0 + x);
    }
  }

  lemma AveragesNonNegative(bars: seq<Bar>, period: int)
    requires 0 < period < |bars|
    ensures AverageGain(bars, period) >= 0.0 && AverageLoss(bars, period) >= 0.0
  {
    WilderBand(Gains(bars), period, |bars| - 1, 0.0);
    WilderBand(Losses(bars), period, |bars| - 1, 0.0);
  }

  lemma AveragesSwap(c: real, bars: seq<Bar>, period: int)
    requires 0 < period < |bars|
    ensures AverageGain(Reflect(c, bars), period) == AverageLoss(bars, period)
    ensures AverageLoss(Reflect(c, bars), period) == AverageGain(bars, period)
  {
    ListsReflected(c, bars);
  }

  /** RSI comes from the two averages alone. */
  lemma RsiOfAverages(bars: seq<Bar>, period: int)
    requires 0 < period < |bars|
    ensures AverageGain(bars, period) >= 0.0 && AverageLoss(bars, period) >= 0.0
    ensures Rsi(bars, period) == Some(RsiOf(AverageGain(bars, period), AverageLoss(bars, period)))
  {
    AveragesNonNegative(bars, period);
  }

  /** RSI reflects to 100 - RSI exactly when the market moved. */
  lemma RsiReflected(c: real, bars: seq<Bar>, period: int)
    ensures Rsi(bars, period).Some? == Rsi(Reflect(c, bars), period).Some?
    ensures Rsi(bars, period).Some? ==>
              (Rsi(Reflect(c, bars), period).value == 100.0 - Rsi(bars, period).value
               <==> !Motionless(bars, period))
    ensures Rsi(bars, period).Some? && Motionless(bars, period) ==>
              Rsi(bars, period).value == 100.0 && Rsi(Reflect(c, bars), period).value == 100.0
  {
    if 0 < period < |bars| {
      RsiOfAverages(bars, period);
      RsiOfAverages(Reflect(c, bars), period);
      AveragesSwap(c, bars, period);
      RsiOfSwapped(AverageGain(bars, period), AverageLoss(bars, period));
    }
  }

  // ---------------------------------------------------------------- a motionless market

  lemma {:induction false} ZeroWilder(xs: seq<real>, p: int, n: int)
    requires 2 <= p <= n <= |xs| && forall i :: 0 <= i < |xs| ==> 0.0 <= xs[i]
    requires Wilder(xs, p, n) == 0.0
    ensures forall i :: 0 <= i < n ==> xs[i] == 0.0
    decreases n
  {
    if n == p {
      var total := Sum(xs[..p]);
      assert total == (total / p as real) * p as real;
      ZeroSum(xs[..p]);
      assert forall i :: 0 <= i < p ==> xs[..p][i] == xs[i];
    } else {
      var w := Wilder(xs, p, n - 1);
      WilderBand(xs, p, n - 1, 0.0);
      ZeroBlend(w, xs[n - 1], p);
      ZeroWilder(xs, p, n - 1);
    }
  }

  lemma ZeroBlend(w: real, x: real, p: int)
    requires p >= 2 && w >= 0.0 && x >= 0.0 && Blend(w, x, p) == 0.0
    ensures w == 0.0 && x == 0.0
  {
    var q := (p - 1) as real;
    var total := w * q + x;
    assert total == (total / p as real) * p as real;
    assert w * q >= w by { assert w * (q - 1.0) >= 0.0; }
  }

  lemma {:induction false} ZeroSum(xs: seq<real>)
    requires (forall i :: 0 <= i < |xs| ==> 0.0 <= xs[i]) && Sum(xs) == 0.0
    ensures forall i :: 0 <= i < |xs| ==> xs[i] == 0.0
  {
    if |xs| > 0 {
      var front := xs[..|xs| - 1];
      SumAtLeast(front, 0.0);
      ZeroSum(front);
      assert xs == front + [xs[|xs| - 1]];
    }
  }

  /** With a smoothing period of two or more, a motionless RSI means every close is the same. */
  lemma MotionlessIsFlat(bars: seq<Bar>, period: int)
    requires period >= 2 && Motionless(bars, period)
    ensures forall i :: 0 <= i < |bars| ==> bars[i].close == bars[0].close
  {
    ZeroWilder(Gains(bars), period, |bars| - 1);
    ZeroWilder(Losses(bars), period, |bars| - 1);
    var i := 1;
    while i < |bars|
      invariant 1 <= i <= |bars|
      invariant forall j :: 0 <= j < i ==> bars[j].close == bars[0].close
    {
      assert Gains(bars)[i - 1] == 0.0 && Losses(bars)[i - 1] == 0.0;
      i := i + 1;
    }
  }

  lemma {:induction false} EmaOfConstant(xs: seq<real>, v: real, p: int, n: int)
    requires 0 < p <= n <= |xs| && forall i :: 0 <= i < |xs| ==> xs[i] == v
    ensures EmaAfter(xs, p, n) == v
    decreases n
  {
    if n == p {
      SumInBand(xs[..p], v, v);
      DivideBand(Sum(xs[..p]), p as real, v, v);
    } else {
      EmaOfConstant(xs, v, p, n - 1);
      var k := EmaWeight(p);
      assert v * k + v * (1.0 - k) == v;
    }
  }

  lemma FlatMarketHasNoTrend(bars: seq<Bar>, fast: int, slow: int)
    requires forall i :: 0 <= i < |bars| ==> bars[i].close == bars[0].close
    ensures TrendOf(Ema(bars, fast), Ema(bars, slow)) == Neutral
  {
    if Ema(bars, fast).Some? && Ema(bars, slow).Some? {
      EmaOfConstant(Closes(bars), bars[0].close, fast, |bars|);
      EmaOfConstant(Closes(bars), bars[0].close, slow, |bars|);
    }
  }

  // ---------------------------------------------------------------- the classifier

  /** The two RSI bands mirror each other around 50. */
  ghost predicate Paired(cfg: RegimeConfig)
  {
    && cfg.rsiOversold == 100.0 - cfg.rsiOverbought
    && cfg.rsiBearishMax == 100.0 - cfg.rsiBullishMin
    && cfg.rsiBullishMin > cfg.rsiBearishMax
  }

  function TrendAt(bars: seq<Bar>, cfg: RegimeConfig): Direction
  {
    TrendOf(Ema(bars, cfg.fastPeriod), Ema(bars, cfg.slowPeriod))
  }

  function VolatilityAt(bars: seq<Bar>, cfg: RegimeConfig): Volatility
  {
    var atr := Atr(bars, cfg.atrPeriod);
    assert atr.Some? ==> atr.value >= 0.0 by {
      if atr.Some? {
        AtrNonNegative(bars, cfg.atrPeriod);
      }
    }
    VolatilityOf(atr, AtrBaseline(bars, cfg.atrPeriod, cfg.atrBaselineBars), cfg)
  }

  /**
   * The one way the classifier tells up from down: a strong directional trend whose RSI reads 100
   * because nothing moved, under thresholds that treat a reading of 100 differently on the two sides.
   */
  predicate OneSided(bars: seq<Bar>, cfg: RegimeConfig)
  {
    && |bars| >= MinBars(cfg)
    && Motionless(bars, cfg.rsiPeriod)
    && TrendAt(bars, cfg) != Neutral
    && StrengthOf(Adx(bars, cfg.adxPeriod).adx, TrendAt(bars, cfg), cfg.trendingThreshold) == Trending
    && VolatilityAt(bars, cfg) != AbnormalHigh
    && (100.0 < cfg.rsiOverbought) != (100.0 < cfg.rsiBullishMin && 0.0 < cfg.rsiOverbought)
  }

  lemma RegimeOfFlipped(cfg: RegimeConfig, v: Volatility, mas: bool, trend: Direction, s: Strength,
                        rsi: Option<real>, rsi': Option<real>)
    requires Paired(cfg) && (trend != Neutral ==> mas) && rsi.Some? == rsi'.Some?
    requires rsi.Some? ==> rsi'.value == 100.0 - rsi.value
    ensures RegimeOf(v, mas, Opposite(trend), s, MomentumOf(rsi', Opposite(trend), cfg)) ==
            Flipped(RegimeOf(v, mas, trend, s, MomentumOf(rsi, trend, cfg)))
  {}

  lemma RegimeWhenMotionless(cfg: RegimeConfig, v: Volatility, mas: bool, trend: Direction, s: Strength)
    requires Paired(cfg) && (trend != Neutral ==> mas)
    ensures RegimeOf(v, mas, Opposite(trend), s, MomentumOf(Some(100.0), Opposite(trend), cfg)) ==
            Flipped(RegimeOf(v, mas, trend, s, MomentumOf(Some(100.0), trend, cfg)))
            <==> !(trend != Neutral && s == Trending && v != AbnormalHigh &&
                   (100.0 < cfg.rsiOverbought) != (100.0 < cfg.rsiBullishMin && 0.0 < cfg.rsiOverbought))
  {}

  /**
   * Mirror symmetry of the whole classifier, with its exact exception: the reflected market has the
   * flipped regime if and only if the market is not one-sided.
   */
  lemma RegimeReflected(c: real, bars: seq<Bar>, cfg: RegimeConfig)
    requires Paired(cfg)
    ensures ClassifyRegime(Reflect(c, bars), cfg).trendDirection ==
            Opposite(ClassifyRegime(bars, cfg).trendDirection)
    ensures ClassifyRegime(Reflect(c, bars), cfg).regime == Flipped(ClassifyRegime(bars, cfg).regime)
            <==> !OneSided(bars, cfg)
  {
    EmaReflected(c, bars, cfg.fastPeriod);
    EmaReflected(c, bars, cfg.slowPeriod);
    RsiReflected(c, bars, cfg.rsiPeriod);
    RangesReflected(c, bars, cfg.atrPeriod, cfg.atrBaselineBars, cfg.adxPeriod);
    if |bars| >= MinBars(cfg) {
      var ctx := ClassifyRegime(bars, cfg);
      var mas := ctx.fastMa.Some? && ctx.slowMa.Some?;
      if Motionless(bars, cfg.rsiPeriod) {
        RegimeWhenMotionless(cfg, ctx.volatilityState, mas, ctx.trendDirection, ctx.trendStrength);
      } else {
        RegimeOfFlipped(cfg, ctx.volatilityState, mas, ctx.trendDirection, ctx.trendStrength,
                        ctx.rsi, Rsi(Reflect(c, bars), cfg.rsiPeriod));
      }
    }
  }

  /** No market is one-sided under a smoothing period of two or more, or thresholds within 100. */
  lemma NeverOneSided(bars: seq<Bar>, cfg: RegimeConfig)
    requires cfg.rsiPeriod >= 2 || (cfg.rsiOverbought <= 100.0 && cfg.rsiBullishMin <= 100.0)
    ensures !OneSided(bars, cfg)
  {
    if cfg.rsiPeriod >= 2 && Motionless(bars, cfg.rsiPeriod) {
      MotionlessIsFlat(bars, cfg.rsiPeriod);
      FlatMarketHasNoTrend(bars, cfg.fastPeriod, cfg.slowPeriod);
    }
  }

  function FlatBar(price: real): Bar { Bar("XAUUSD", "M15", 0, 0, price, price, price, price, 1.0, true) }

  /** Closes 1, 2, 2: rising on average, yet the last change is zero. */
  const STALLED := [FlatBar(1.0), FlatBar(2.0), FlatBar(2.0)]

  /** Paired RSI thresholds, one inside and one outside the indicator's range, and period-one smoothing. */
  const LOPSIDED := RegimeConfig(1, 2, 1, 1, 14, 20.0, 101.0, -1.0, 90.0, 10.0, 50, 1.5, 2.0, None)

  /** The exception is real: this market reads RANGE, its mirror image TREND_DOWN. */
  lemma OneSidedMarketExists()
    ensures Paired(LOPSIDED) && OneSided(STALLED, LOPSIDED)
    ensures ClassifyRegime(Reflect(10.0, STALLED), LOPSIDED).regime !=
            Flipped(ClassifyRegime(STALLED, LOPSIDED).regime)
  {
    var xs := Closes(STALLED);
    assert xs == [1.0, 2.0, 2.0];
    assert EmaWeight(1) == 1.0;
    EmaOfPeriodOne(xs, 3);
    assert xs[..2] == [1.0, 2.0] && xs[..2][..1] == [1.0];
    assert Sum([1.0]) == 1.0 by { assert [1.0][..0] == []; }
    assert Sum(xs[..2]) == 3.0;
    assert EmaAfter(xs, 2, 2) == 1.5;
    assert EmaAfter(xs, 2, 3) == EmaStep(1.5, 2.0, EmaWeight(2)) < 2.0;
    var gains, losses := Gains(STALLED), Losses(STALLED);
    assert gains[1] == 0.0 && losses[1] == 0.0;
    assert Wilder(gains, 1, 2) == Blend(Wilder(gains, 1, 1), 0.0, 1) == 0.0;
    assert Wilder(losses, 1, 2) == Blend(Wilder(losses, 1, 1), 0.0, 1) == 0.0;
    RegimeReflected(10.0, STALLED, LOPSIDED);
  }

  lemma EmaOfPeriodOne(xs: seq<real>, n: int)
    requires 1 < n <= |xs|
    ensures EmaAfter(xs, 1, n) == xs[n - 1]
  {
    assert EmaWeight(1) == 1.0;
    var e := EmaAfter(xs, 1, n - 1);
    assert EmaStep(e, xs[n - 1], 1.0) == xs[n - 1];
  }
}

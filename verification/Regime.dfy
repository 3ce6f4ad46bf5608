/** Regime classification from closed bars. */
module Regime {
  import opened Prelude
  import opened Arithmetic
  import opened MarketData
  import opened Indicators
  import opened IndicatorBounds

  datatype Direction = Bullish | Bearish | Neutral

  datatype Momentum = MomentumBullish | MomentumBearish | MomentumNeutral | Exhausted

  datatype Strength = Trending | Weak | StrengthUnknown

  datatype Volatility = Normal | Expanding | Contracting | AbnormalHigh | VolatilityUnknown

  datatype RegimeName = TrendUp | TrendDown | Range | Transition | HighVolatility | Unknown

  datatype RegimeContext = RegimeContext(
    regime: RegimeName, fastMa: Option<real>, slowMa: Option<real>, trendDirection: Direction,
    adx: Option<real>, plusDi: Option<real>, minusDi: Option<real>, trendStrength: Strength,
    rsi: Option<real>, momentumState: Momentum, atr: Option<real>, atrBaseline: Option<real>,
    volatilityState: Volatility)
  {
    predicate PermitsNewEntry() { regime !in {Unknown, HighVolatility, Transition} }
  }

  datatype RegimeConfig = RegimeConfig(
    fastPeriod: int, slowPeriod: int, rsiPeriod: int, atrPeriod: int, adxPeriod: int,
    trendingThreshold: real, rsiBullishMin: real, rsiBearishMax: real, rsiOverbought: real, rsiOversold: real,
    atrBaselineBars: int, volatilityNormalRatio: real, volatilityHighRatio: real, maxAtrThreshold: Option<real>)

  const UNKNOWN_CONTEXT := RegimeContext(Unknown, None, None, Neutral, None, None, None, StrengthUnknown,
                                         None, MomentumNeutral, None, None, VolatilityUnknown)

  function TrendOf(fast: Option<real>, slow: Option<real>): Direction
  {
    if fast.None? || slow.None? then Neutral
    else if fast.value > slow.value then Bullish
    else if fast.value < slow.value then Bearish
    else Neutral
  }

  function StrengthOf(adx: Option<real>, trend: Direction, threshold: real): Strength
  {
    if adx.Some? then (if adx.value >= threshold then Trending else Weak)
    else if trend != Neutral then Trending
    else StrengthUnknown
  }

  function MomentumOf(rsi: Option<real>, trend: Direction, cfg: RegimeConfig): Momentum
  {
    if rsi.None? then MomentumNeutral
    else if (trend == Bullish && rsi.value >= cfg.rsiOverbought) ||
            (trend == Bearish && rsi.value <= cfg.rsiOversold) then Exhausted
    else if rsi.value >= cfg.rsiBullishMin then MomentumBullish
    else if rsi.value <= cfg.rsiBearishMax then MomentumBearish
    else MomentumNeutral
  }

  /** ATR is never negative, so a ratio below the normal ratio makes that ratio positive: no division by zero. */
  function VolatilityOf(atr: Option<real>, baseline: Option<real>, cfg: RegimeConfig): Volatility
    requires atr.Some? ==> atr.value >= 0.0
  {
    if atr.None? then Normal
    else if baseline.Some? && baseline.value > 0.0 then
      DivideAtLeast(atr.value, baseline.value, 0.0);
      var ratio := atr.value / baseline.value;
      if ratio >= cfg.volatilityHighRatio then AbnormalHigh
      else if ratio >= cfg.volatilityNormalRatio then Expanding
      else if ratio < 1.0 / cfg.volatilityNormalRatio then Contracting
      else Normal
    else if cfg.maxAtrThreshold.Some? && atr.value > cfg.maxAtrThreshold.value then AbnormalHigh
    else Normal
  }

  function RegimeOf(volatility: Volatility, haveMas: bool, trend: Direction, strength: Strength,
                    momentum: Momentum): RegimeName
  {
    if volatility == AbnormalHigh then HighVolatility
    else if !haveMas then Unknown
    else if trend == Bullish && strength == Trending && momentum in {MomentumBullish, MomentumNeutral} then TrendUp
    else if trend == Bearish && strength == Trending && momentum in {MomentumBearish, MomentumNeutral} then TrendDown
    else if strength == Weak && trend != Neutral then Transition
    else Range
  }

  function MinBars(cfg: RegimeConfig): int
  {
    var m := if cfg.slowPeriod > cfg.rsiPeriod + 1 then cfg.slowPeriod else cfg.rsiPeriod + 1;
    if m > cfg.atrPeriod + 1 then m else cfg.atrPeriod + 1
  }

  function Assemble(cfg: RegimeConfig, fast: Option<real>, slow: Option<real>, rsi: Option<real>,
                    atr: Option<real>, baseline: Option<real>, adx: AdxResult): RegimeContext
    requires atr.Some? ==> atr.value >= 0.0
  {
    var trend := TrendOf(fast, slow);
    var strength := StrengthOf(adx.adx, trend, cfg.trendingThreshold);
    var momentum := MomentumOf(rsi, trend, cfg);
    var volatility := VolatilityOf(atr, baseline, cfg);
    RegimeContext(RegimeOf(volatility, fast.Some? && slow.Some?, trend, strength, momentum),
                  fast, slow, trend, adx.adx, adx.plusDi, adx.minusDi, strength,
                  rsi, momentum, atr, baseline, volatility)
  }

  function ClassifyRegime(bars: seq<Bar>, cfg: RegimeConfig): (r: RegimeContext)
    ensures r.atr.Some? ==> r.atr.value >= 0.0
  {
    if |bars| < MinBars(cfg) then UNKNOWN_CONTEXT
    else
      var atr := Atr(bars, cfg.atrPeriod);
      assert atr.Some? ==> atr.value >= 0.0 by {
        if atr.Some? {
          AtrNonNegative(bars, cfg.atrPeriod);
        }
      }
      Assemble(cfg, Ema(bars, cfg.fastPeriod), Ema(bars, cfg.slowPeriod), Rsi(bars, cfg.rsiPeriod), atr,
               AtrBaseline(bars, cfg.atrPeriod, cfg.atrBaselineBars), Adx(bars, cfg.adxPeriod))
  }
}

/** The risk engine: an ordered chain of gates, then sizing, then the exposure limit. */
module RiskEngine {
  import opened Prelude
  import opened Sizing

  datatype RiskConfig = RiskConfig(
    dailyLossLimit: Option<real>, maxDrawdown: Option<real>, maxOpenPositions: Option<int>,
    maxOpenLots: Option<real>, maxSpread: Option<real>, cautionDrawdownPct: Option<real>,
    riskPerTradePct: Option<real>, defaultLots: Option<real>,
    profitLockThreshold: real, profitLockFloorPct: real, maxTickStalenessMs: int, emergencyStop: bool)
  {
    predicate FullyConfigured()
    {
      dailyLossLimit.Some? && maxDrawdown.Some? && maxOpenPositions.Some? &&
      (riskPerTradePct.Some? || defaultLots.Some?)
    }
  }

  datatype Snapshot = Snapshot(
    equity: real, equityPeak: real, dailyRealized: real, dailyFloating: real, openPositions: int,
    sessionOpenEquity: Option<real>, sessionPeakProfit: Option<real>, openLots: real, inFlightLots: real)

  /** `stalenessMs` is the tick's age, reported or read off the wall clock. */
  datatype Market = Market(ready: bool, stalenessMs: Option<int>, spread: Option<real>)

  datatype Reason =
    | EmergencyStopActive | MissingParameters | MarketDataNotReady | StaleMarketData | SpreadTooHigh
    | NewsEventWindow | NewsDataUnavailable | DailyLossLimitHit | MaxDrawdownHit | CautionDrawdownReached
    | ProfitLockFloorBreached | MaxPositionsReached | MaxLotsExceeded | AllChecksPassed

  datatype Verdict = Approved | Blocked | NotConfigured | Emergency

  datatype Decision = Decision(verdict: Verdict, reason: Reason, lots: Option<real>)

  /** The price levels of a candidate that sizing looks at. */
  datatype Levels = Levels(entry: Option<real>, stop: Option<real>)

  /** The engine always sizes a percentage of equity with these broker constants. */
  function PercentagePolicy(pct: real): Policy { Percentage(pct, 100.0, 0.01, None, 0.01, 0.01) }

  lemma PercentagePolicyUsable(pct: real)
    ensures PercentagePolicy(pct).Usable()
  {
    assert Multiple(0.01, 1, 0.01);
  }

  function SizingPolicy(cfg: RiskConfig): (policy: Option<Policy>)
    ensures policy.Some? ==> policy.value.Usable()
  {
    if cfg.riskPerTradePct.Some? then
      PercentagePolicyUsable(cfg.riskPerTradePct.value);
      Some(PercentagePolicy(cfg.riskPerTradePct.value))
    else if cfg.defaultLots.Some? then Some(Fixed(cfg.defaultLots.value))
    else None
  }

  /** Sized lots, or else the legacy fixed lots if configured. */
  function AuthorizedLots(cfg: RiskConfig, equity: real, candidate: Option<Levels>): Option<real>
  {
    var policy := SizingPolicy(cfg);
    var sized := if candidate.Some? && policy.Some?
                 then CalculateLotSize(policy.value, equity, candidate.value.entry, candidate.value.stop)
                 else None;
    if sized.None? then cfg.defaultLots else sized
  }

  const NEWS_WINDOWS := {"PRE_EVENT", "IN_EVENT", "POST_EVENT"}
  const NEWS_GAPS := {"UNKNOWN", "PROVIDER_UNAVAILABLE", "STALE"}

  function Block(reason: Reason): Decision { Decision(Blocked, reason, None) }

  function MarketGate(cfg: RiskConfig, m: Market): Option<Reason>
  {
    if !m.ready then Some(MarketDataNotReady)
    else if m.stalenessMs.Some? && m.stalenessMs.value > cfg.maxTickStalenessMs then Some(StaleMarketData)
    else if cfg.maxSpread.Some? && m.spread.Some? && m.spread.value > cfg.maxSpread.value then Some(SpreadTooHigh)
    else None
  }

  function NewsGate(news: Option<string>): Option<Reason>
  {
    if news.Some? && news.value in NEWS_WINDOWS then Some(NewsEventWindow)
    else if news.Some? && news.value in NEWS_GAPS then Some(NewsDataUnavailable)
    else None
  }

  function LossGate(cfg: RiskConfig, s: Snapshot): Option<Reason>
  {
    var drawdown := s.equityPeak - s.equity;
    if cfg.dailyLossLimit.Some? && s.dailyRealized + s.dailyFloating <= -cfg.dailyLossLimit.value
    then Some(DailyLossLimitHit)
    else if cfg.maxDrawdown.Some? && drawdown >= cfg.maxDrawdown.value then Some(MaxDrawdownHit)
    else if cfg.maxDrawdown.Some? && cfg.cautionDrawdownPct.Some? &&
            drawdown >= cfg.maxDrawdown.value * cfg.cautionDrawdownPct.value then Some(CautionDrawdownReached)
    else None
  }

  function ProfitLockGate(cfg: RiskConfig, s: Snapshot): Option<Reason>
  {
    if s.sessionOpenEquity.Some? && s.sessionPeakProfit.Some? &&
       s.sessionPeakProfit.value >= cfg.profitLockThreshold &&
       s.equity - s.sessionOpenEquity.value < s.sessionPeakProfit.value * cfg.profitLockFloorPct
    then Some(ProfitLockFloorBreached)
    else None
  }

  function CountGate(cfg: RiskConfig, s: Snapshot): Option<Reason>
  {
    if cfg.maxOpenPositions.Some? && s.openPositions >= cfg.maxOpenPositions.value then Some(MaxPositionsReached)
    else None
  }

  function OrZero(lots: Option<real>): real { if lots.Some? then lots.value else 0.0 }

  function LotsGate(cfg: RiskConfig, s: Snapshot, lots: Option<real>): Option<Reason>
  {
    if cfg.maxOpenLots.Some? && s.openLots + s.inFlightLots + OrZero(lots) > cfg.maxOpenLots.value
    then Some(MaxLotsExceeded)
    else None
  }

  /** RiskEngine.evaluate: the first gate that trips decides. */
  function Evaluate(cfg: RiskConfig, s: Snapshot, candidate: Option<Levels>, market: Option<Market>,
                    news: Option<string>): Decision
  {
    if cfg.emergencyStop then Decision(Emergency, EmergencyStopActive, None)
    else if !cfg.FullyConfigured() then Decision(NotConfigured, MissingParameters, None)
    else if market.Some? && MarketGate(cfg, market.value).Some? then Block(MarketGate(cfg, market.value).value)
    else if NewsGate(news).Some? then Block(NewsGate(news).value)
    else if LossGate(cfg, s).Some? then Block(LossGate(cfg, s).value)
    else if ProfitLockGate(cfg, s).Some? then Block(ProfitLockGate(cfg, s).value)
    else if CountGate(cfg, s).Some? then Block(CountGate(cfg, s).value)
    else
      var lots := AuthorizedLots(cfg, s.equity, candidate);
      if LotsGate(cfg, s, lots).Some? then Block(MaxLotsExceeded) else Decision(Approved, AllChecksPassed, lots)
  }

  /** Every limit the configuration sets is respected by the account, the market and the news. */
  predicate WithinEveryLimit(cfg: RiskConfig, s: Snapshot, market: Option<Market>, news: Option<string>)
    requires cfg.FullyConfigured()
  {
    && (market.Some? ==>
          && market.value.ready
          && (market.value.stalenessMs.Some? ==> market.value.stalenessMs.value <= cfg.maxTickStalenessMs)
          && (cfg.maxSpread.Some? && market.value.spread.Some? ==> market.value.spread.value <= cfg.maxSpread.value))
    && (news.Some? ==> news.value !in NEWS_WINDOWS + NEWS_GAPS)
    && s.dailyRealized + s.dailyFloating > -cfg.dailyLossLimit.value
    && s.equityPeak - s.equity < cfg.maxDrawdown.value
    && (cfg.cautionDrawdownPct.Some? ==> s.equityPeak - s.equity < cfg.maxDrawdown.value * cfg.cautionDrawdownPct.value)
    && (s.sessionOpenEquity.Some? && s.sessionPeakProfit.Some? && s.sessionPeakProfit.value >= cfg.profitLockThreshold ==>
          s.equity - s.sessionOpenEquity.value >= s.sessionPeakProfit.value * cfg.profitLockFloorPct)
    && s.openPositions < cfg.maxOpenPositions.value
  }

  /**
   * An entry is approved exactly if the engine is armed and configured, every limit is respected and
   * the authorized lots still fit under the exposure limit; the other verdicts never carry lots.
   */
  lemma ApprovedExactly(cfg: RiskConfig, s: Snapshot, candidate: Option<Levels>, market: Option<Market>,
                        news: Option<string>)
    ensures var d, lots := Evaluate(cfg, s, candidate, market, news), AuthorizedLots(cfg, s.equity, candidate);
            && (d.verdict == Approved <==>
                  && !cfg.emergencyStop && cfg.FullyConfigured() && WithinEveryLimit(cfg, s, market, news)
                  && (cfg.maxOpenLots.Some? ==> s.openLots + s.inFlightLots + OrZero(lots) <= cfg.maxOpenLots.value))
            && (d.verdict == Emergency <==> cfg.emergencyStop)
            && (d.verdict == NotConfigured <==> !cfg.emergencyStop && !cfg.FullyConfigured())
            && d.lots == if d.verdict == Approved then lots else None
  {}

  /** The broker-side limits an approval certifies, whatever else the account looks like. */
  lemma ApprovalRespectsLimits(cfg: RiskConfig, s: Snapshot, candidate: Option<Levels>, market: Option<Market>,
                               news: Option<string>)
    requires Evaluate(cfg, s, candidate, market, news).verdict == Approved
    ensures !cfg.emergencyStop && cfg.FullyConfigured()
    ensures s.openPositions < cfg.maxOpenPositions.value
    ensures s.equityPeak - s.equity < cfg.maxDrawdown.value
    ensures s.dailyRealized + s.dailyFloating > -cfg.dailyLossLimit.value
    ensures cfg.maxOpenLots.Some? ==>
              s.openLots + s.inFlightLots + OrZero(Evaluate(cfg, s, candidate, market, news).lots)
              <= cfg.maxOpenLots.value
    ensures Evaluate(cfg, s, candidate, market, news).lots == AuthorizedLots(cfg, s.equity, candidate)
  {}

  /** Without the fixed-lot fallback, approved lots never put more than the configured share of equity at risk. */
  lemma ApprovedLotsWithinBudget(cfg: RiskConfig, s: Snapshot, entry: real, stop: Option<real>,
                                 market: Option<Market>, news: Option<string>)
    requires cfg.riskPerTradePct.Some? && cfg.defaultLots.None?
    requires Evaluate(cfg, s, Some(Levels(Some(entry), stop)), market, news).verdict == Approved
    requires Evaluate(cfg, s, Some(Levels(Some(entry), stop)), market, news).lots.Some?
    ensures var lots := Evaluate(cfg, s, Some(Levels(Some(entry), stop)), market, news).lots.value;
            stop.Some? && lots >= 0.01 &&
            lots * (Abs(entry - stop.value) * 100.0) <= s.equity * cfg.riskPerTradePct.value
  {
    var pct := cfg.riskPerTradePct.value;
    PercentagePolicyUsable(pct);
    SizingSafeAndMaximal(PercentagePolicy(pct), s.equity, entry, stop.value);
  }
}

/** Position sizing: percentage of equity at risk, floored to the broker's lot step. */
module Sizing {
  import opened Prelude
  import opened Arithmetic

  datatype Policy =
    | Percentage(riskPct: real, contractSize: real, minLot: real, maxLot: Option<real>, lotStep: real, quantum: real)
    | Fixed(lots: real)
  {
    /** Non-zero divisors; `quantum` is the decimal place of the lot step, so the step is a whole number of quanta. */
    ghost predicate Usable()
    {
      Percentage? ==>
        contractSize > 0.0 && minLot > 0.0 && lotStep > 0.0 && quantum > 0.0 &&
        exists n: int :: n > 0 && Multiple(lotStep, n, quantum)
    }
  }

  predicate Multiple(x: real, n: int, unit: real) { x == n as real * unit }

  /** Decimal's default rounding: to the nearest integer, ties to even. */
  function RoundHalfEven(x: real): int
  {
    var down := x.Floor;
    var rest := x - down as real;
    if rest < 0.5 then down
    else if rest > 0.5 then down + 1
    else if down % 2 == 0 then down
    else down + 1
  }

  /** Decimal.quantize to a multiple of q. */
  function Quantize(x: real, q: real): real
    requires q > 0.0
  {
    RoundHalfEven(x / q) as real * q
  }

  function RiskPerLot(policy: Policy, entry: real, stop: real): real
    requires policy.Percentage?
  {
    Abs(entry - stop) * policy.contractSize
  }

  /** Whole lot steps that the risk budget pays for. */
  function Steps(policy: Policy, equity: real, entry: real, stop: real): int
    requires policy.Percentage? && policy.Usable() && entry != stop
  {
    RiskPositive(policy, entry, stop);
    Truncate(((equity * policy.riskPct) / RiskPerLot(policy, entry, stop)) / policy.lotStep)
  }

  /** The floored lots, before the broker's minimum and maximum. */
  function FlooredLots(policy: Policy, equity: real, entry: real, stop: real): real
    requires policy.Percentage? && policy.Usable() && entry != stop
  {
    Steps(policy, equity, entry, stop) as real * policy.lotStep
  }

  lemma RiskPositive(policy: Policy, entry: real, stop: real)
    requires policy.Percentage? && policy.Usable() && entry != stop
    ensures RiskPerLot(policy, entry, stop) > 0.0
  {
    assert Abs(entry - stop) > 0.0;
  }

  function CalculateLotSize(policy: Policy, equity: real, entry: Option<real>, stop: Option<real>): Option<real>
    requires policy.Usable()
  {
    if policy.Fixed? then Some(policy.lots)
    else if entry.None? || stop.None? then None
    else if entry.value == stop.value || equity <= 0.0 then None
    else
      var lots := FlooredLots(policy, equity, entry.value, stop.value);
      if lots < policy.minLot then None
      else if policy.maxLot.Some? && lots > policy.maxLot.value then
        Some(Quantize(policy.maxLot.value, policy.quantum))
      else Some(Quantize(lots, policy.quantum))
  }

  // ---------------------------------------------------------------- rounding facts

  lemma RoundInteger(n: int)
    ensures RoundHalfEven(n as real) == n
  {}

  lemma RoundMonotone(x: real, n: int)
    requires x <= n as real
    ensures RoundHalfEven(x) <= n
  {}

  /** A whole number of lot steps survives quantize unchanged. */
  lemma QuantizeSteps(lots: real, steps: int, step: real, n: int, q: real)
    requires q > 0.0 && Multiple(step, n, q) && lots == steps as real * step
    ensures Quantize(lots, q) == lots
  {
    assert lots == (steps * n) as real * q;
    assert lots / q == (steps * n) as real;
    RoundInteger(steps * n);
  }

  lemma TruncateBounds(x: real)
    requires x >= 0.0
    ensures Truncate(x) as real <= x < (Truncate(x) + 1) as real && Truncate(x) >= 0
  {}

  lemma FloorFits(budget: real, risk: real, step: real, k: int)
    requires risk > 0.0 && step > 0.0 && k == Truncate((budget / risk) / step) && k > 0
    ensures (k as real * step) * risk <= budget < (k as real * step + step) * risk
  {
    var raw := budget / risk;
    var x := raw / step;
    QuotientTimes(budget, risk);
    QuotientTimes(raw, step);
    if x >= 0.0 {
      TruncateBounds(x);
    }
    Sandwich(k as real, x, (k + 1) as real, step, raw);
    Sandwich(k as real * step, raw, (k + 1) as real * step, risk, budget);
    assert (k + 1) as real * step == k as real * step + step;
  }

  lemma PositiveSteps(k: int, step: real)
    requires step > 0.0 && k as real * step > 0.0
    ensures k > 0
  {
    if k <= 0 {
      TimesMonotone(k as real, 0.0, step);
    }
  }

  lemma Sandwich(lo: real, x: real, hi: real, d: real, product: real)
    requires d > 0.0 && lo <= x < hi && x * d == product
    ensures lo * d <= product < hi * d
  {
    TimesMonotone(lo, x, d);
    TimesStrict(x, hi, d);
  }

  /** The floored lots fit the budget, and one more step would not. */
  lemma FlooredLotsFit(policy: Policy, equity: real, entry: real, stop: real)
    requires policy.Percentage? && policy.Usable() && entry != stop
    requires FlooredLots(policy, equity, entry, stop) > 0.0
    ensures var lots, risk := FlooredLots(policy, equity, entry, stop), RiskPerLot(policy, entry, stop);
            lots * risk <= equity * policy.riskPct < (lots + policy.lotStep) * risk
  {
    RiskPositive(policy, entry, stop);
    PositiveSteps(Steps(policy, equity, entry, stop), policy.lotStep);
    FloorFits(equity * policy.riskPct, RiskPerLot(policy, entry, stop), policy.lotStep,
              Steps(policy, equity, entry, stop));
  }

  /** Quantize leaves the floored lots alone. */
  lemma QuantizeHarmless(policy: Policy, equity: real, entry: real, stop: real)
    requires policy.Percentage? && policy.Usable() && entry != stop
    ensures Quantize(FlooredLots(policy, equity, entry, stop), policy.quantum) ==
            FlooredLots(policy, equity, entry, stop)
  {
    var n: int :| n > 0 && Multiple(policy.lotStep, n, policy.quantum);
    QuantizeSteps(FlooredLots(policy, equity, entry, stop), Steps(policy, equity, entry, stop), policy.lotStep, n,
                  policy.quantum);
  }

  /** Rounding a smaller cap never lifts it above the floored lots. */
  lemma CapStaysBelow(policy: Policy, cap: real, equity: real, entry: real, stop: real)
    requires policy.Percentage? && policy.Usable() && entry != stop
    requires cap <= FlooredLots(policy, equity, entry, stop)
    ensures Quantize(cap, policy.quantum) <= FlooredLots(policy, equity, entry, stop)
  {
    var n: int :| n > 0 && Multiple(policy.lotStep, n, policy.quantum);
    CapBelowSteps(cap, Steps(policy, equity, entry, stop), policy.lotStep, n, policy.quantum);
  }

  /** Lots are granted for a real stop distance and positive equity only, and are at most the floored ones. */
  lemma GrantedLots(policy: Policy, equity: real, entry: real, stop: real)
    requires policy.Percentage? && policy.Usable()
    requires CalculateLotSize(policy, equity, Some(entry), Some(stop)).Some?
    ensures var lots := CalculateLotSize(policy, equity, Some(entry), Some(stop)).value;
            && entry != stop && equity > 0.0
            && lots <= FlooredLots(policy, equity, entry, stop) && FlooredLots(policy, equity, entry, stop) >= policy.minLot
            && (policy.maxLot.None? ==> lots == FlooredLots(policy, equity, entry, stop))
  {
    QuantizeHarmless(policy, equity, entry, stop);
    if policy.maxLot.Some? && FlooredLots(policy, equity, entry, stop) > policy.maxLot.value {
      CapStaysBelow(policy, policy.maxLot.value, equity, entry, stop);
    }
  }

  /**
   * Sizing is safe and maximal: the lots risk no more than the budgeted share of equity if the stop
   * is hit, and without a cap one more lot step would exceed it.
   */
  lemma SizingSafeAndMaximal(policy: Policy, equity: real, entry: real, stop: real)
    requires policy.Percentage? && policy.Usable()
    requires CalculateLotSize(policy, equity, Some(entry), Some(stop)).Some?
    ensures var lots := CalculateLotSize(policy, equity, Some(entry), Some(stop)).value;
            && entry != stop && equity > 0.0
            && lots * RiskPerLot(policy, entry, stop) <= equity * policy.riskPct
            && (policy.maxLot.None? ==> lots >= policy.minLot)
            && (policy.maxLot.None? ==>
                  equity * policy.riskPct < (lots + policy.lotStep) * RiskPerLot(policy, entry, stop))
  {
    GrantedLots(policy, equity, entry, stop);
    RiskPositive(policy, entry, stop);
    FlooredLotsFit(policy, equity, entry, stop);
    TimesMonotone(CalculateLotSize(policy, equity, Some(entry), Some(stop)).value,
                  FlooredLots(policy, equity, entry, stop), RiskPerLot(policy, entry, stop));
  }

  lemma CapBelowSteps(cap: real, k: int, step: real, n: int, q: real)
    requires q > 0.0 && Multiple(step, n, q) && cap <= k as real * step
    ensures Quantize(cap, q) <= k as real * step
  {
    var m, x := k * n, cap / q;
    assert k as real * step == m as real * q;
    QuotientTimes(cap, q);
    if x > m as real {
      TimesStrict(m as real, x, q);
    }
    RoundMonotone(x, m);
    TimesMonotone(RoundHalfEven(x) as real, m as real, q);
  }

  // ---------------------------------------------------------------- the cap

  /** Rounding the cap to the lot step's decimal place carries it upwards. */
  predicate CapRoundsUp(maxLot: real, quantum: real)
    requires quantum > 0.0
  {
    var x := maxLot / quantum;
    var rest := x - x.Floor as real;
    rest > 0.5 || (rest == 0.5 && x.Floor % 2 != 0)
  }

  /** The configured maximum is respected exactly when it does not round up. */
  lemma CapRespected(policy: Policy, equity: real, entry: real, stop: real)
    requires policy.Percentage? && policy.Usable() && policy.maxLot.Some? && entry != stop && equity > 0.0
    requires FlooredLots(policy, equity, entry, stop) >= policy.minLot
    requires FlooredLots(policy, equity, entry, stop) > policy.maxLot.value
    ensures CalculateLotSize(policy, equity, Some(entry), Some(stop)).value <= policy.maxLot.value
            <==> !CapRoundsUp(policy.maxLot.value, policy.quantum)
  {
    GrantIsCap(policy, equity, entry, stop);
    CapComparison(policy.maxLot.value, policy.quantum);
  }

  lemma GrantIsCap(policy: Policy, equity: real, entry: real, stop: real)
    requires policy.Percentage? && policy.Usable() && policy.maxLot.Some? && entry != stop && equity > 0.0
    requires FlooredLots(policy, equity, entry, stop) >= policy.minLot
    requires FlooredLots(policy, equity, entry, stop) > policy.maxLot.value
    ensures CalculateLotSize(policy, equity, Some(entry), Some(stop)) ==
            Some(Quantize(policy.maxLot.value, policy.quantum))
  {}

  lemma CapComparison(cap: real, q: real)
    requires q > 0.0
    ensures Quantize(cap, q) <= cap <==> !CapRoundsUp(cap, q)
  {
    var x := cap / q;
    QuotientTimes(cap, q);
    if CapRoundsUp(cap, q) {
      TimesStrict(x, (x.Floor + 1) as real, q);
    } else {
      TimesMonotone(x.Floor as real, x, q);
    }
  }

  /** A maximum of 0.015 with a step of 0.01 lets 0.02 lots through. */
  lemma CapExceeded()
    ensures var policy := Percentage(0.01, 100.0, 0.01, Some(0.015), 0.01, 0.01);
            policy.Usable() &&
            CalculateLotSize(policy, 10000.0, Some(2000.0), Some(1990.0)) == Some(0.02)
  {
    assert Multiple(0.01, 1, 0.01);
    assert (0.015 / 0.01) == 1.5;
    assert RoundHalfEven(1.5) == 2;
  }

  /** A capped grant stays at or above the minimum exactly when the rounded cap does. */
  lemma CappedGrantReachesMinimum(policy: Policy, equity: real, entry: real, stop: real)
    requires policy.Percentage? && policy.Usable()
    requires CalculateLotSize(policy, equity, Some(entry), Some(stop)).Some?
    ensures CalculateLotSize(policy, equity, Some(entry), Some(stop)).value >= policy.minLot <==>
            policy.maxLot.None? || policy.maxLot.value >= FlooredLots(policy, equity, entry, stop) ||
            Quantize(policy.maxLot.value, policy.quantum) >= policy.minLot
  {
    QuantizeHarmless(policy, equity, entry, stop);
  }

  /** A maximum below half a step grants no lots at all. */
  lemma CapGrantsNothing()
    ensures var policy := Percentage(0.01, 100.0, 0.01, Some(0.004), 0.01, 0.01);
            policy.Usable() &&
            CalculateLotSize(policy, 10000.0, Some(2000.0), Some(1990.0)) == Some(0.0)
  {
    assert Multiple(0.01, 1, 0.01);
    assert (0.004 / 0.01) == 0.4;
    assert RoundHalfEven(0.4) == 0;
  }
}

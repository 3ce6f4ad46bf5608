/** Ticks, bars and the flooring of timestamps to timeframe buckets. */
module MarketData {
  import opened Prelude

  /** Timestamps are microseconds since the epoch, the resolution of a Python datetime. */
  const MICROS := 1_000_000

  datatype Tick = Tick(symbol: string, bid: real, ask: real, time: int, volume: Option<real>)
  {
    function Mid(): real { (bid + ask) / 2.0 }

    function Spread(): real { ask - bid }

    /** A tick without a broker volume counts as one unit. */
    function TradedVolume(): real { if volume.Some? then volume.value else 1.0 }
  }

  /** The part of a bar that aggregation folds. */
  datatype Ohlcv = Ohlcv(open: real, high: real, low: real, close: real, volume: real)

  datatype Bar = Bar(symbol: string, timeframe: string, openTime: int, closeTime: int,
                     open: real, high: real, low: real, close: real, volume: real, isClosed: bool)
  {
    function Prices(): Ohlcv { Ohlcv(open, high, low, close, volume) }

    /** Open and close lie between low and high. */
    predicate WellFormed() { low <= open <= high && low <= close <= high }
  }

  function TimeframeSeconds(timeframe: string): Option<int>
  {
    if timeframe == "M1" then Some(60)
    else if timeframe == "M5" then Some(300)
    else if timeframe == "M15" then Some(900)
    else if timeframe == "M30" then Some(1800)
    else if timeframe == "H1" then Some(3600)
    else if timeframe == "H4" then Some(14400)
    else if timeframe == "D1" then Some(86400)
    else None
  }

  /** Whole seconds of a timestamp; int() truncates towards zero, also before the epoch. */
  function EpochSeconds(t: int): int
  {
    if t >= 0 then t / MICROS else -((-t) / MICROS)
  }

  /** Start of the bucket of width `interval` seconds that holds t. */
  function Bucket(interval: int, t: int): int
    requires interval > 0
  {
    (EpochSeconds(t) / interval) * interval * MICROS
  }

  // ---------------------------------------------------------------- arithmetic of buckets

  lemma {:induction false} TimesNonNegative(x: int, d: int)
    requires x >= 0 && d > 0
    ensures x * d >= 0
  {
    if x > 0 {
      TimesNonNegative(x - 1, d);
      assert x * d == (x - 1) * d + d;
    }
  }

  lemma MulStep(a: int, b: int, d: int)
    requires d > 0 && a < b
    ensures a * d + d <= b * d
  {
    TimesNonNegative(b - a - 1, d);
    assert (b - a - 1) * d == b * d - a * d - d;
  }

  lemma QuotientUnique(n: int, d: int, q: int)
    requires d > 0 && q * d <= n < q * d + d
    ensures n / d == q
  {
    if n / d < q {
      MulStep(n / d, q, d);
    } else if n / d > q {
      MulStep(q, n / d, d);
    }
  }

  lemma QuotientMonotone(m: int, n: int, d: int)
    requires d > 0 && m <= n
    ensures (m / d) * d <= (n / d) * d
  {
    if m / d > n / d {
      MulStep(n / d, m / d, d);
    }
  }

  /** Flooring to multiples of d and then dividing by a multiple of d is dividing directly. */
  lemma NestedQuotient(n: int, d: int, ratio: int)
    requires d > 0 && ratio > 0 && d * ratio > 0
    ensures ((n / d) * d) / (d * ratio) == n / (d * ratio)
  {
    var q := n / (d * ratio);
    assert q * (d * ratio) <= n < q * (d * ratio) + d * ratio;
    assert q * (d * ratio) == (q * ratio) * d;
    QuotientMonotone((q * ratio) * d, n, d);
    QuotientUnique((q * ratio) * d, d, q * ratio);
    assert (n / d) * d <= n;
    QuotientUnique((n / d) * d, d * ratio, q);
  }

  /** A later timestamp never falls in an earlier bucket. */
  lemma BucketMonotone(interval: int, t: int, u: int)
    requires interval > 0 && t <= u
    ensures Bucket(interval, t) <= Bucket(interval, u)
  {
    assert EpochSeconds(t) <= EpochSeconds(u);
    QuotientMonotone(EpochSeconds(t), EpochSeconds(u), interval);
  }

  lemma SecondsOfBucket(interval: int, t: int)
    requires interval > 0
    ensures EpochSeconds(Bucket(interval, t)) == (EpochSeconds(t) / interval) * interval
  {
    var s := (EpochSeconds(t) / interval) * interval;
    assert (s * MICROS) / MICROS == s && ((-s) * MICROS) / MICROS == -s;
  }

  /** Flooring to a fine grid first does not change the coarse bucket. */
  lemma BucketNests(fine: int, ratio: int, t: int)
    requires fine > 0 && ratio > 0
    ensures fine * ratio > 0
    ensures Bucket(fine * ratio, Bucket(fine, t)) == Bucket(fine * ratio, t)
  {
    MulPositive(fine, ratio);
    SecondsOfBucket(fine, t);
    NestedQuotient(EpochSeconds(t), fine, ratio);
  }

  lemma MulPositive(a: int, b: int)
    requires a > 0 && b > 0
    ensures a * b > 0
  {}

  /** A bucket start is its own bucket. */
  lemma BucketIdempotent(interval: int, t: int)
    requires interval > 0
    ensures Bucket(interval, Bucket(interval, t)) == Bucket(interval, t)
  {
    BucketNests(interval, 1, t);
  }
}

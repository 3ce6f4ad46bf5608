/** Products and quotients of reals, in the few shapes the proofs need. */
module Arithmetic {

  lemma ProductPositive(a: real, b: real)
    requires a > 0.0 && b > 0.0
    ensures a * b > 0.0
  {}

  lemma ProductNonNegative(a: real, b: real)
    requires a >= 0.0 && b >= 0.0
    ensures a * b >= 0.0
  {}

  lemma TimesMonotone(a: real, b: real, d: real)
    requires a <= b && d >= 0.0
    ensures a * d <= b * d
  {
    ProductNonNegative(b - a, d);
    assert (b - a) * d == b * d - a * d;
  }

  lemma TimesStrict(a: real, b: real, d: real)
    requires a < b && d > 0.0
    ensures a * d < b * d
  {
    ProductPositive(b - a, d);
    assert (b - a) * d == b * d - a * d;
  }

  lemma QuotientTimes(x: real, d: real)
    requires d != 0.0
    ensures (x / d) * d == x
  {}

  lemma DivideAtLeast(total: real, d: real, lo: real)
    requires d > 0.0 && lo * d <= total
    ensures lo <= total / d
  {
    QuotientTimes(total, d);
    if total / d < lo {
      TimesStrict(total / d, lo, d);
    }
  }

  lemma DivideAtMost(total: real, d: real, hi: real)
    requires d > 0.0 && total <= hi * d
    ensures total / d <= hi
  {
    QuotientTimes(total, d);
    if hi < total / d {
      TimesStrict(hi, total / d, d);
    }
  }

  lemma DivideBand(total: real, d: real, lo: real, hi: real)
    requires d > 0.0 && lo * d <= total <= hi * d
    ensures lo <= total / d <= hi
  {
    DivideAtLeast(total, d, lo);
    DivideAtMost(total, d, hi);
  }

  lemma Cancel(a: real, b: real, d: real)
    requires d > 0.0 && a * d == b * d
    ensures a == b
  {
    if a < b {
      TimesStrict(a, b, d);
    } else if b < a {
      TimesStrict(b, a, d);
    }
  }
}

/** The delay before a retry: exponential in the attempt, capped, then jittered. Over the reals. */
module Backoff {
  import opened Util

  function Pow(factor: real, n: nat): real {
    if n == 0 then 1.0 else factor * Pow(factor, n - 1)
  }

  function Exponential(base: real, factor: real, n: nat): real {
    base * Pow(factor, n)
  }

  /** The delay before jitter. */
  function Nominal(attempt: int, base: real, factor: real, maxDelay: real): real {
    MinReal(Exponential(base, factor, Max(1, attempt) - 1), maxDelay)
  }

  /** How far jitter may move the delay either way. */
  function Spread(delay: real, jitter: real): real {
    if jitter != 0.0 then delay * jitter else 0.0
  }

  /** `draw` in [-1, 1] is where the random number falls in the spread. */
  function Jittered(delay: real, spread: real, draw: real): real {
    MaxReal(0.0, delay + draw * spread)
  }

  function Delay(attempt: int, base: real, factor: real, maxDelay: real, jitter: real, draw: real): real {
    var delay := Nominal(attempt, base, factor, maxDelay);
    Jittered(delay, Spread(delay, jitter), draw)
  }

  lemma {:induction false} PowGrows(factor: real, m: nat, n: nat)
    requires factor >= 1.0 && m <= n
    ensures 1.0 <= Pow(factor, m) <= Pow(factor, n)
    decreases n
  {
    if n > 0 {
      PowGrows(factor, 0, n - 1);
      assert Pow(factor, n) >= Pow(factor, n - 1);
      if m < n {
        PowGrows(factor, m, n - 1);
      }
    }
  }

  lemma TimesMonotone(base: real, x: real, y: real)
    requires base > 0.0 && x <= y
    ensures base * x <= base * y
  {
  }

  /** The nominal delay never shrinks from one attempt to a later one, and never passes the cap. */
  lemma NominalIsMonotoneAndCapped(a: int, b: int, base: real, factor: real, maxDelay: real)
    requires base > 0.0 && factor >= 1.0 && a <= b
    ensures Nominal(a, base, factor, maxDelay) <= Nominal(b, base, factor, maxDelay) <= maxDelay
  {
    PowGrows(factor, Max(1, a) - 1, Max(1, b) - 1);
    TimesMonotone(base, Pow(factor, Max(1, a) - 1), Pow(factor, Max(1, b) - 1));
  }

  lemma MultiplyBoth(x: real, y: real, c: real)
    requires c >= 0.0 && x <= y
    ensures x * c <= y * c
  {
  }

  lemma JitteredBounds(delay: real, spread: real, draw: real)
    requires 0.0 <= spread <= delay && -1.0 <= draw <= 1.0
    ensures delay - spread <= Jittered(delay, spread, draw) <= delay + spread
    ensures Jittered(delay, spread, draw) == delay + draw * spread
  {
    assert -spread <= draw * spread <= spread;
  }

  lemma SpreadBounds(delay: real, jitter: real)
    requires 0.0 <= delay && 0.0 <= jitter <= 1.0
    ensures 0.0 <= Spread(delay, jitter) <= delay
  {
  }

  lemma SpreadMonotone(delay: real, cap: real, jitter: real)
    requires delay <= cap && 0.0 <= jitter
    ensures Spread(delay, jitter) <= Spread(cap, jitter)
  {
  }

  lemma NominalIsNonNegative(attempt: int, base: real, factor: real, maxDelay: real)
    requires base > 0.0 && factor >= 1.0 && maxDelay >= 0.0
    ensures 0.0 <= Nominal(attempt, base, factor, maxDelay) <= maxDelay
  {
    PowGrows(factor, 0, Max(1, attempt) - 1);
    TimesMonotone(base, 1.0, Pow(factor, Max(1, attempt) - 1));
  }

  /** The delay lies within the spread of the nominal one, and the final clamp at zero never changes it. */
  lemma JitterStaysInBand(attempt: int, base: real, factor: real, maxDelay: real, jitter: real, draw: real)
    requires base > 0.0 && factor >= 1.0 && maxDelay >= 0.0 && 0.0 <= jitter <= 1.0 && -1.0 <= draw <= 1.0
    ensures var nominal := Nominal(attempt, base, factor, maxDelay);
            var spread := Spread(nominal, jitter);
            && nominal - spread <= Delay(attempt, base, factor, maxDelay, jitter, draw) <= nominal + spread
            && Delay(attempt, base, factor, maxDelay, jitter, draw) == nominal + draw * spread
  {
    var nominal := Nominal(attempt, base, factor, maxDelay);
    NominalIsNonNegative(attempt, base, factor, maxDelay);
    SpreadBounds(nominal, jitter);
    JitteredBounds(nominal, Spread(nominal, jitter), draw);
  }

  lemma SpreadIsBand(delay: real, nominal: real, jitter: real)
    requires nominal - Spread(nominal, jitter) <= delay <= nominal + Spread(nominal, jitter)
    ensures InBand(delay, nominal, jitter)
  {
  }

  /** Off by at most the jitter fraction. */
  predicate InBand(delay: real, nominal: real, jitter: real) {
    nominal - nominal * jitter <= delay <= nominal + nominal * jitter
  }

  /** The same with everything written out. */
  lemma JitteredIsInBand(attempt: int, base: real, factor: real, maxDelay: real, jitter: real, draw: real)
    requires base > 0.0 && factor >= 1.0 && maxDelay >= 0.0 && 0.0 <= jitter <= 1.0 && -1.0 <= draw <= 1.0
    ensures InBand(Delay(attempt, base, factor, maxDelay, jitter, draw),
                   MinReal(Exponential(base, factor, Max(1, attempt) - 1), maxDelay), jitter)
  {
    JitterStaysInBand(attempt, base, factor, maxDelay, jitter, draw);
    SpreadIsBand(Delay(attempt, base, factor, maxDelay, jitter, draw), Nominal(attempt, base, factor, maxDelay),
        jitter);
  }

  /** Jitter comes after the cap: the delay passes it by the cap's own spread at most ... */
  lemma JitterPassesTheCapBySpread(attempt: int, base: real, factor: real, maxDelay: real, jitter: real, draw: real)
    requires base > 0.0 && factor >= 1.0 && maxDelay >= 0.0 && 0.0 <= jitter <= 1.0 && -1.0 <= draw <= 1.0
    ensures Delay(attempt, base, factor, maxDelay, jitter, draw) <= maxDelay + Spread(maxDelay, jitter)
  {
    JitterStaysInBand(attempt, base, factor, maxDelay, jitter, draw);
    NominalIsMonotoneAndCapped(attempt, attempt, base, factor, maxDelay);
    SpreadMonotone(Nominal(attempt, base, factor, maxDelay), maxDelay, jitter);
  }

  /** No draw takes the delay of this attempt past the cap. */
  ghost predicate CapHolds(attempt: int, base: real, factor: real, maxDelay: real, jitter: real) {
    forall draw | -1.0 <= draw <= 1.0 :: Delay(attempt, base, factor, maxDelay, jitter, draw) <= maxDelay
  }

  /** ... and the cap holds for an attempt if and only if its spread still fits below it. */
  lemma CapHoldsIffSpreadFits(attempt: int, base: real, factor: real, maxDelay: real, jitter: real)
    requires base > 0.0 && factor >= 1.0 && maxDelay >= 0.0 && 0.0 <= jitter <= 1.0
    ensures var nominal := Nominal(attempt, base, factor, maxDelay);
            CapHolds(attempt, base, factor, maxDelay, jitter) <==> nominal + Spread(nominal, jitter) <= maxDelay
  {
    var nominal := Nominal(attempt, base, factor, maxDelay);
    JitterStaysInBand(attempt, base, factor, maxDelay, jitter, 1.0);
    assert Delay(attempt, base, factor, maxDelay, jitter, 1.0) == nominal + Spread(nominal, jitter);
    forall draw | -1.0 <= draw <= 1.0
      ensures Delay(attempt, base, factor, maxDelay, jitter, draw) <= nominal + Spread(nominal, jitter)
    {
      JitterStaysInBand(attempt, base, factor, maxDelay, jitter, draw);
    }
  }

  /** With the default settings the eleventh attempt may wait 360 s although the cap is 300 s. */
  lemma JitterMayPassTheCap()
    ensures Delay(11, 0.5, 2.0, 300.0, 0.2, 1.0) == 360.0
  {
    assert Pow(2.0, 4) == 16.0;
    assert Pow(2.0, 10) == 1024.0;
  }

  // ---------------------------------------------------------------- a whole retry budget

  function TotalNominal(m: nat, base: real, factor: real, maxDelay: real): real {
    if m == 0 then 0.0 else TotalNominal(m - 1, base, factor, maxDelay) + Nominal(m, base, factor, maxDelay)
  }

  /** The geometric bound `total <= base * (p - 1) / (factor - 1)` without the division. */
  predicate Geometric(total: real, base: real, p: real, factor: real) {
    total * factor - total <= base * p - base
  }

  lemma GeometricStart(total: real, base: real, p: real, factor: real)
    requires total == 0.0 && p == 1.0
    ensures Geometric(total, base, p, factor)
  {
    assert total * factor == 0.0;
  }

  lemma GeometricStep(before: real, last: real, total: real, base: real, p: real, next: real, factor: real)
    requires factor > 1.0 && Geometric(before, base, p, factor) && last <= base * p
    requires total == before + last && next == factor * p
    ensures Geometric(total, base, next, factor)
  {
    var step := factor - 1.0;
    MultiplyBoth(last, base * p, step);
    assert last * step == last * factor - last;
    assert (base * p) * step == base * (factor * p) - base * p;
  }

  lemma NominalIsUnderTheCurve(m: nat, base: real, factor: real, maxDelay: real)
    requires m > 0
    ensures Nominal(m, base, factor, maxDelay) <= base * Pow(factor, m - 1)
  {
  }

  lemma {:induction false} GeometricBound(m: nat, base: real, factor: real, maxDelay: real)
    requires base > 0.0 && factor > 1.0
    ensures Geometric(TotalNominal(m, base, factor, maxDelay), base, Pow(factor, m), factor)
    decreases m
  {
    var total, p := TotalNominal(m, base, factor, maxDelay), Pow(factor, m);
    if m == 0 {
      GeometricStart(total, base, p, factor);
    } else {
      GeometricBound(m - 1, base, factor, maxDelay);
      NominalIsUnderTheCurve(m, base, factor, maxDelay);
      GeometricStep(TotalNominal(m - 1, base, factor, maxDelay), Nominal(m, base, factor, maxDelay), total,
                    base, Pow(factor, m - 1), p, factor);
    }
  }

  lemma DivideBound(x: real, y: real, d: real)
    requires d > 0.0 && x * d <= y
    ensures x <= y / d
  {
    var q := y / d;
    assert q * d == y;
    if x > q {
      assert (x - q) * d > 0.0;
      assert x * d == (x - q) * d + q * d;
    }
  }

  /** base + base * factor + ... for the powers below `p`. */
  function GeometricSum(base: real, p: real, factor: real): real
    requires factor > 1.0
  {
    base * (p - 1.0) / (factor - 1.0)
  }

  lemma GeometricQuotient(total: real, base: real, p: real, factor: real)
    requires factor > 1.0 && Geometric(total, base, p, factor)
    ensures total <= GeometricSum(base, p, factor)
  {
    var d, e := factor - 1.0, p - 1.0;
    assert total * d == total * factor - total;
    assert base * e == base * p - base;
    DivideBound(total, base * e, d);
  }

  /** All the waiting that `m` retries can cost before jitter: `m` times the cap ... */
  lemma {:induction false} TotalWaitIsCapped(m: nat, base: real, factor: real, maxDelay: real)
    ensures TotalNominal(m, base, factor, maxDelay) <= m as real * maxDelay
    decreases m
  {
    if m > 0 {
      TotalWaitIsCapped(m - 1, base, factor, maxDelay);
      assert m as real * maxDelay == (m - 1) as real * maxDelay + maxDelay;
    }
  }

  /** ... and the geometric sum. */
  lemma TotalWaitIsGeometric(m: nat, base: real, factor: real, maxDelay: real)
    requires base > 0.0 && factor > 1.0
    ensures TotalNominal(m, base, factor, maxDelay) <= GeometricSum(base, Pow(factor, m), factor)
  {
    GeometricBound(m, base, factor, maxDelay);
    GeometricQuotient(TotalNominal(m, base, factor, maxDelay), base, Pow(factor, m), factor);
  }

  // ---------------------------------------------------------------- the cap is reached

  lemma BernoulliStep(p: real, factor: real, n: real)
    requires factor >= 1.0 && p >= 1.0 && p >= 1.0 + n * (factor - 1.0)
    ensures factor * p >= 1.0 + (n + 1.0) * (factor - 1.0)
  {
    MultiplyBoth(1.0, p, factor - 1.0);
    assert factor * p == p + p * (factor - 1.0);
    assert (n + 1.0) * (factor - 1.0) == n * (factor - 1.0) + (factor - 1.0);
  }

  lemma {:induction false} Bernoulli(factor: real, n: nat)
    requires factor >= 1.0
    ensures Pow(factor, n) >= 1.0 + n as real * (factor - 1.0)
    decreases n
  {
    if n > 0 {
      Bernoulli(factor, n - 1);
      PowGrows(factor, 0, n - 1);
      BernoulliStep(Pow(factor, n - 1), factor, (n - 1) as real);
      assert (n - 1) as real + 1.0 == n as real;
    }
  }

  lemma EnoughSteps(x: real, y: real) returns (n: nat)
    requires x > 0.0
    ensures n as real * x >= y
  {
    if y <= 0.0 {
      n := 0;
    } else {
      n := (y / x).Floor + 1;
      MultiplyBoth(y / x, n as real, x);
    }
  }

  ghost predicate CappedFrom(n: nat, base: real, factor: real, maxDelay: real) {
    forall k: nat | k >= n :: Nominal(k, base, factor, maxDelay) == maxDelay
  }

  lemma ScaledBernoulli(base: real, x: real, n: real, p: real, maxDelay: real)
    requires base > 0.0 && n * (base * x) >= maxDelay - base && p >= 1.0 + n * x
    ensures base * p >= maxDelay
  {
    TimesMonotone(base, 1.0 + n * x, p);
    assert base * (1.0 + n * x) == base + n * (base * x);
  }

  /** With a factor above one some attempt reaches the cap, and every later one stays there. */
  lemma TheCapIsReached(base: real, factor: real, maxDelay: real)
    requires base > 0.0 && factor > 1.0
    ensures exists n: nat :: CappedFrom(n, base, factor, maxDelay)
  {
    var steps := EnoughSteps(base * (factor - 1.0), maxDelay - base);
    Bernoulli(factor, steps);
    ScaledBernoulli(base, factor - 1.0, steps as real, Pow(factor, steps), maxDelay);
    forall k: nat | k >= steps + 1 ensures Nominal(k, base, factor, maxDelay) == maxDelay {
      PowGrows(factor, steps, k - 1);
      TimesMonotone(base, Pow(factor, steps), Pow(factor, k - 1));
    }
    assert CappedFrom(steps + 1, base, factor, maxDelay);
  }

  /** So for a factor above one and a positive cap, every attempt stays below the cap if and only if there
      is no jitter at all. */
  lemma CapHoldsAlwaysIffNoJitter(base: real, factor: real, maxDelay: real, jitter: real)
    requires base > 0.0 && factor > 1.0 && maxDelay > 0.0 && 0.0 <= jitter <= 1.0
    ensures (forall attempt: nat :: CapHolds(attempt, base, factor, maxDelay, jitter)) <==> jitter == 0.0
  {
    TheCapIsReached(base, factor, maxDelay);
    var n: nat :| CappedFrom(n, base, factor, maxDelay);
    CapHoldsIffSpreadFits(n, base, factor, maxDelay, jitter);
    assert jitter > 0.0 ==> maxDelay * jitter > 0.0;
    if jitter == 0.0 {
      forall attempt: nat ensures CapHolds(attempt, base, factor, maxDelay, jitter) {
        CapHoldsIffSpreadFits(attempt, base, factor, maxDelay, jitter);
      }
    }
  }
}

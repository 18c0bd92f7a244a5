/**
  Retry delays (internal/jobs/job.go) over exact arithmetic, and the whole-second
  scores of the scheduled set.  Durations and times are integer nanoseconds.
 */
module RetryTiming {
  import opened Prelude

  datatype Strategy = Exponential | Linear | Fixed | Unrecognised

  datatype RetryPolicy = RetryPolicy(strategy: Strategy, initialDelay: int, maxDelay: int, multiplier: real)

  function Power(base: real, n: nat): real {
    if n == 0 then 1.0 else Power(base, n - 1) * base
  }

  /** The multiplication loop; an exponent below one leaves the result at 1. */
  method Pow(base: real, exp: int) returns (result: real)
    ensures result == Power(base, Max(0, exp))
  {
    result := 1.0;
    var i := 0;
    while i < exp
      invariant 0 <= i <= Max(0, exp)
      invariant result == Power(base, i)
    {
      result := result * base;
      i := i + 1;
    }
  }

  /** Conversion of a real to an integer number of nanoseconds, toward zero. */
  function Truncate(x: real): int {
    if x >= 0.0 then x.Floor else -((-x).Floor)
  }

  function Uncapped(p: RetryPolicy, attempt: int): int {
    match p.strategy
    case Exponential => Exponentially(p.initialDelay as real, Power(p.multiplier, Max(0, attempt - 1)))
    case Linear => p.initialDelay * attempt
    case Fixed => p.initialDelay
    case Unrecognised => p.initialDelay
  }

  function Exponentially(initial: real, factor: real): int {
    Truncate(initial * factor)
  }

  function CalculateDelay(p: RetryPolicy, attempt: int): int {
    Min(Uncapped(p, attempt), p.maxDelay)
  }

  method ComputeDelay(p: RetryPolicy, attempt: int) returns (delay: int)
    ensures delay == CalculateDelay(p, attempt)
  {
    match p.strategy {
      case Exponential =>
        var factor := Pow(p.multiplier, attempt - 1);
        delay := Exponentially(p.initialDelay as real, factor);
      case Linear =>
        delay := p.initialDelay * attempt;
      case Fixed =>
        delay := p.initialDelay;
      case Unrecognised =>
        delay := p.initialDelay;
    }
    if delay > p.maxDelay {
      delay := p.maxDelay;
    }
  }

  lemma {:induction false} PowerGrows(base: real, m: nat, n: nat)
    requires base >= 1.0 && m <= n
    ensures 1.0 <= Power(base, m) <= Power(base, n)
    decreases n
  {
    if m < n {
      PowerGrows(base, m, n - 1);
      Scale(Power(base, n - 1), 1.0, base);
    } else if n > 0 {
      PowerGrows(base, n - 1, n - 1);
      Scale(Power(base, n - 1), 1.0, base);
    }
  }

  lemma Scale(x: real, a: real, b: real)
    requires x >= 0.0 && a <= b
    ensures x * a <= x * b
  {
  }

  lemma TruncateMonotone(x: real, y: real)
    requires 0.0 <= x <= y
    ensures Truncate(x) <= Truncate(y)
  {
  }

  lemma ProductGrows(initial: real, f: real, g: real)
    requires initial >= 0.0 && 0.0 <= f <= g
    ensures Exponentially(initial, f) <= Exponentially(initial, g)
  {
    Scale(initial, 0.0, f);
    Scale(initial, f, g);
    TruncateMonotone(initial * f, initial * g);
  }

  lemma LinearGrows(initial: int, m: int, n: int)
    requires initial >= 0 && m <= n
    ensures initial * m <= initial * n
  {
  }

  lemma {:induction false} ExponentialGrows(p: RetryPolicy, m: nat, n: nat)
    requires p.initialDelay >= 0 && p.multiplier >= 1.0 && m <= n
    ensures Exponentially(p.initialDelay as real, Power(p.multiplier, m)) <=
            Exponentially(p.initialDelay as real, Power(p.multiplier, n))
  {
    PowerGrows(p.multiplier, m, n);
    ProductGrows(p.initialDelay as real, Power(p.multiplier, m), Power(p.multiplier, n));
  }

  /** Under every strategy delays never shrink from one attempt to a later one, and never exceed MaxDelay. */
  lemma {:induction false} DelaysGrow(p: RetryPolicy, attempt: int, later: int)
    requires p.initialDelay >= 0 && p.multiplier >= 1.0 && attempt <= later
    ensures CalculateDelay(p, attempt) <= CalculateDelay(p, later) <= p.maxDelay
  {
    match p.strategy
    case Exponential => ExponentialGrows(p, Max(0, attempt - 1), Max(0, later - 1));
    case Linear => LinearGrows(p.initialDelay, attempt, later);
    case Fixed =>
    case Unrecognised =>
  }

  // ---------- What the delays are ----------

  /** A duration grown by a factor so many times. */
  function Grown(initial: real, factor: real, times: nat): real {
    if times == 0 then initial else factor * Grown(initial, factor, times - 1)
  }

  lemma {:induction false} GrownIsProduct(initial: real, factor: real, times: nat)
    ensures Grown(initial, factor, times) == initial * Power(factor, times)
  {
    if times > 0 {
      GrownIsProduct(initial, factor, times - 1);
      Regroup(factor, initial, Power(factor, times - 1));
    }
  }

  lemma Regroup(x: real, y: real, z: real)
    ensures x * (y * z) == y * (z * x)
  {
  }

  /** The first attempt waits InitialDelay under every strategy, up to the cap. */
  lemma FirstDelay(p: RetryPolicy)
    ensures CalculateDelay(p, 1) == if p.initialDelay <= p.maxDelay then p.initialDelay else p.maxDelay
  {
    assert Power(p.multiplier, 0) == 1.0;
    assert p.initialDelay as real * 1.0 == p.initialDelay as real;
    assert p.strategy.Exponential? ==> Uncapped(p, 1) == p.initialDelay;
  }

  /**
    Exponential: the n-th delay is InitialDelay grown by Multiplier n - 1 times and rounded down to a
    nanosecond, unless that reaches MaxDelay.
   */
  lemma {:induction false} ExponentialDelay(p: RetryPolicy, n: nat)
    requires p.strategy.Exponential? && p.initialDelay >= 0 && p.multiplier >= 0.0 && n >= 1
    ensures var (grown, delay) := (Grown(p.initialDelay as real, p.multiplier, n - 1), CalculateDelay(p, n));
      if grown >= p.maxDelay as real then delay == p.maxDelay
      else delay as real <= grown < delay as real + 1.0
  {
    GrownIsProduct(p.initialDelay as real, p.multiplier, n - 1);
    PowerNotNegative(p.multiplier, n - 1);
    Scale(p.initialDelay as real, 0.0, Power(p.multiplier, n - 1));
    Rounds(p.initialDelay as real * Power(p.multiplier, n - 1), p.maxDelay);
  }

  lemma Rounds(x: real, cap: int)
    requires x >= 0.0
    ensures if x >= cap as real then Truncate(x) >= cap
            else Truncate(x) < cap && Truncate(x) as real <= x < Truncate(x) as real + 1.0
  {
  }

  lemma {:induction false} PowerNotNegative(base: real, n: nat)
    requires base >= 0.0
    ensures Power(base, n) >= 0.0
  {
    if n > 0 {
      PowerNotNegative(base, n - 1);
      Scale(Power(base, n - 1), 0.0, base);
    }
  }

  /** With a whole multiplier each delay is that many times the one before, up to the cap. */
  lemma {:induction false} DelayMultiplies(p: RetryPolicy, m: int, n: nat)
    requires p.strategy.Exponential? && p.initialDelay >= 0 && p.maxDelay >= 0 && n >= 1
    requires m >= 1 && p.multiplier == m as real
    ensures CalculateDelay(p, n + 1) == Min(m * CalculateDelay(p, n), p.maxDelay)
  {
    WholeDelay(p, m, n);
    WholeDelay(p, m, n + 1);
    var u := Uncapped(p, n);
    assert Uncapped(p, n + 1) == m * u by {
      Commute(p.initialDelay, m, WholePower(m, n - 1));
    }
    WholeScale(u, m);
    WholeScale(p.maxDelay, m);
    if u > p.maxDelay {
      assert m * u >= u > p.maxDelay;
    }
  }

  function WholePower(m: int, n: nat): int {
    if n == 0 then 1 else WholePower(m, n - 1) * m
  }

  lemma Commute(x: int, y: int, z: int)
    ensures x * (z * y) == y * (x * z)
  {
  }

  lemma WholeScale(x: int, m: int)
    requires x >= 0 && m >= 1
    ensures m * x >= x
  {
  }

  lemma {:induction false} WholePowers(m: int, n: nat)
    requires m >= 0
    ensures Power(m as real, n) == WholePower(m, n) as real && WholePower(m, n) >= 0
  {
    if n > 0 {
      WholePowers(m, n - 1);
      assert WholePower(m, n - 1) as real * m as real == (WholePower(m, n - 1) * m) as real;
    }
  }

  lemma {:induction false} WholeDelay(p: RetryPolicy, m: int, n: nat)
    requires p.strategy.Exponential? && p.initialDelay >= 0 && m >= 0 && p.multiplier == m as real && n >= 1
    ensures Uncapped(p, n) == p.initialDelay * WholePower(m, n - 1) >= 0
  {
    WholePowers(m, n - 1);
    var k := WholePower(m, n - 1);
    assert p.initialDelay as real * k as real == (p.initialDelay * k) as real;
  }

  /** Linear: each delay is InitialDelay longer than the one before, up to the cap. */
  lemma {:induction false} LinearDelay(p: RetryPolicy, n: nat)
    requires p.strategy.Linear?
    ensures CalculateDelay(p, n) == Min(n * p.initialDelay, p.maxDelay)
    ensures p.initialDelay >= 0 ==> CalculateDelay(p, n + 1) == Min(CalculateDelay(p, n) + p.initialDelay, p.maxDelay)
  {
    assert p.initialDelay * (n + 1) == p.initialDelay * n + p.initialDelay;
  }

  /** Fixed, and anything unknown: every attempt waits as long as the first. */
  lemma ConstantDelay(p: RetryPolicy, m: int, n: int)
    requires p.strategy.Fixed? || p.strategy.Unrecognised?
    ensures CalculateDelay(p, m) == CalculateDelay(p, n) == CalculateDelay(p, 1)
  {
  }

  /** DefaultRetryPolicy's timing. */
  const DEFAULT_POLICY := RetryPolicy(Exponential, SECOND, 300 * SECOND, 2.0)

  /** The default policy waits 1, 2, 4 seconds and so on to 256, and five minutes from the tenth attempt on. */
  lemma {:induction false} DefaultDelays(n: nat)
    requires n >= 1
    ensures CalculateDelay(DEFAULT_POLICY, n) == (if n <= 9 then WholePower(2, n - 1) else 300) * SECOND
  {
    var p := DEFAULT_POLICY;
    if n == 1 {
      FirstDelay(p);
    } else {
      DefaultDelays(n - 1);
      DelayMultiplies(p, 2, n - 1);
      DoublesUpTo(n - 1);
    }
  }

  /** Eight doublings fit in 300, and the ninth does not. */
  lemma {:induction false} DoublesUpTo(n: nat)
    requires n >= 1
    ensures if n <= 8 then WholePower(2, n) == 2 * WholePower(2, n - 1) <= 256
            else WholePower(2, n - 1) >= 256
  {
    if n == 9 {
      DoublesUpTo(8);
      assert WholePower(2, 8) == 256 by {
        assert WholePower(2, 4) == 16;
      }
    } else if n > 1 {
      DoublesUpTo(n - 1);
    }
    if n <= 8 {
      assert WholePower(2, 8) == 256 by {
        assert WholePower(2, 4) == 16;
      }
    }
  }

  const SECOND := 1_000_000_000

  /** The whole second a time falls in, as used for scores and for the due check. */
  function Unix(t: int): int {
    t / SECOND
  }

  lemma UnixMonotone(t: int, u: int)
    requires t <= u
    ensures Unix(t) <= Unix(u)
  {
  }

  /** Rounding both sides down to whole seconds can release a job early, but by less than a second. */
  lemma DueWithinSecond(due: int, now: int)
    requires Unix(due) <= Unix(now)
    ensures due - SECOND < now
  {
  }
}

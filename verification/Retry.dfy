/** The attempt loop with capped exponential delay and jitter, over real delays. */
module Retry {
  datatype Answer = Success | Failure(retryable: bool)

  datatype RetryOptions = RetryOptions(maxAttempts: int, initialDelay: real, maxDelay: real, factor: real, jitter: bool)

  function Min(a: real, b: real): real {
    if a <= b then a else b
  }

  /** `Math.round`: halves go up (section 21.3.2.28 of ECMA-262). */
  function Round(x: real): int {
    (x + 0.5).Floor
  }

  function Pow(b: real, n: nat): real {
    if n == 0 then 1.0 else b * Pow(b, n - 1)
  }

  /** `currentDelay` when attempt `k` fails. */
  function Uncapped(o: RetryOptions, k: nat): real
    requires k >= 1
  {
    o.initialDelay * Pow(o.factor, k - 1)
  }

  lemma UncappedStep(o: RetryOptions, k: nat)
    requires k >= 1
    ensures Uncapped(o, 1) == o.initialDelay && Uncapped(o, k + 1) == Uncapped(o, k) * o.factor
  {
  }

  /** The capped delay before attempt `k + 1`, without jitter. */
  function Base(o: RetryOptions, k: nat): real
    requires k >= 1
  {
    Min(Uncapped(o, k), o.maxDelay)
  }

  /** A random multiplier between 0.8 and 1.2. */
  function Jittered(m: real, r: real): real {
    m * (0.8 + r * 0.4)
  }

  /** The sleep after failed attempt `k`, for the random number `r` drawn there. */
  function Sleep(o: RetryOptions, r: real, k: nat): real
    requires k >= 1
  {
    if o.jitter then Round(Jittered(Base(o, k), r)) as real else Base(o, k)
  }

  function Sum(s: seq<real>): real {
    if s == [] then 0.0 else Sum(s[..|s| - 1]) + s[|s| - 1]
  }

  /** Total time asleep in a call that makes `n` attempts. */
  function TotalSleep(o: RetryOptions, random: nat -> real, n: nat): real
    requires n >= 1
  {
    if n == 1 then 0.0 else TotalSleep(o, random, n - 1) + Sleep(o, random(n - 1), n - 1)
  }

  lemma {:induction false} SumOfSleeps(o: RetryOptions, random: nat -> real, sleeps: seq<real>)
    requires forall k :: 1 <= k <= |sleeps| ==> sleeps[k - 1] == Sleep(o, random(k), k)
    ensures Sum(sleeps) == TotalSleep(o, random, |sleeps| + 1)
  {
    hide Sleep;
    if sleeps != [] {
      SumOfSleeps(o, random, sleeps[..|sleeps| - 1]);
    }
  }

  /**
   * Runs attempts 1, 2, ... and returns how many there were; the outcome is the last one's answer.
   */
  method RetryWithBackoff(o: RetryOptions, answers: nat -> Answer, random: nat -> real)
    returns (attempts: nat, outcome: Answer, sleeps: seq<real>)
    ensures 1 <= attempts && (attempts == 1 || attempts <= o.maxAttempts)
    ensures outcome == answers(attempts)
    ensures outcome.Success? || !outcome.retryable || attempts >= o.maxAttempts
    ensures forall a :: 1 <= a < attempts ==> answers(a) == Failure(true)
    ensures |sleeps| == attempts - 1
    ensures forall k :: 1 <= k < attempts ==> sleeps[k - 1] == Sleep(o, random(k), k)
    ensures Sum(sleeps) == TotalSleep(o, random, attempts)
  {
    UncappedStep(o, 1);
    hide Jittered, Round, Sum, TotalSleep, Uncapped;
    attempts := 0;
    var currentDelay := o.initialDelay;
    sleeps := [];
    while true
      invariant |sleeps| == attempts && (attempts == 0 || attempts < o.maxAttempts)
      invariant currentDelay == Uncapped(o, attempts + 1)
      invariant forall a :: 1 <= a <= attempts ==> answers(a) == Failure(true)
      invariant forall k :: 1 <= k <= attempts ==> sleeps[k - 1] == Sleep(o, random(k), k)
      decreases o.maxAttempts - attempts
    {
      attempts := attempts + 1;
      outcome := answers(attempts);
      if outcome.Success? {
        SumOfSleeps(o, random, sleeps);
        return;
      }
      if attempts >= o.maxAttempts || !outcome.retryable {
        SumOfSleeps(o, random, sleeps);
        return;
      }
      var sleepDuration := Min(currentDelay, o.maxDelay);
      if o.jitter {
        sleepDuration := Round(Jittered(sleepDuration, random(attempts))) as real;
      }
      assert sleepDuration == Sleep(o, random(attempts), attempts);
      sleeps := sleeps + [sleepDuration];
      UncappedStep(o, attempts);
      currentDelay := currentDelay * o.factor;
    }
  }

  // Arithmetic of the delays

  lemma PowNonNegative(b: real, n: nat)
    requires b >= 0.0
    ensures Pow(b, n) >= 0.0
  {
  }

  lemma RoundMonotone(x: real, y: real)
    requires x <= y
    ensures Round(x) <= Round(y)
  {
  }

  lemma ScaleMonotone(m: real, x: real, y: real)
    requires m >= 0.0 && x <= y
    ensures m * x <= m * y
  {
  }

  lemma JitterRange(m: real, r: real)
    requires m >= 0.0 && 0.0 <= r < 1.0
    ensures m * 0.8 <= Jittered(m, r) <= m * 1.2
  {
    ScaleMonotone(m, 0.8, 0.8 + r * 0.4);
    ScaleMonotone(m, 0.8 + r * 0.4, 1.2);
  }

  /** A jittered sleep stays within a fifth of its base, up to rounding. */
  lemma SleepBounds(o: RetryOptions, r: real, k: nat)
    requires k >= 1 && o.jitter && 0.0 <= r < 1.0 && Base(o, k) >= 0.0
    ensures Round(Base(o, k) * 0.8) as real <= Sleep(o, r, k) <= Round(Base(o, k) * 1.2) as real
  {
    hide Jittered, Round, Base;
    var m := Base(o, k);
    JitterRange(m, r);
    RoundMonotone(m * 0.8, Jittered(m, r));
    RoundMonotone(Jittered(m, r), m * 1.2);
  }

  /** Rounding goes to a nearest integer, halves up. */
  lemma RoundIsNearest(x: real)
    ensures Round(x) as real - 0.5 <= x < Round(x) as real + 0.5
  {
  }

  function Between(low: real, high: real, r: real): real {
    low + (high - low) * r
  }

  /**
   * A sleep before rounding moves evenly with the random number, from four fifths of its base to six fifths;
   * the base is the delay grown so far, but never more than the cap.
   */
  lemma SleepIsSpread(o: RetryOptions, r: real, k: nat)
    requires k >= 1
    ensures var delay := Uncapped(o, k);
            var base := if delay <= o.maxDelay then delay else o.maxDelay;
            Sleep(o, r, k) == if o.jitter then Round(Between(base * 0.8, base * 1.2, r)) as real else base
  {
    hide Uncapped;
    var base := if Uncapped(o, k) <= o.maxDelay then Uncapped(o, k) else o.maxDelay;
    assert Base(o, k) == base;
    hide Round, Base;
    JitterIsLinear(base, r);
    hide Jittered, Between;
  }

  lemma JitterIsLinear(m: real, r: real)
    ensures Jittered(m, r) == Between(m * 0.8, m * 1.2, r)
  {
    assert m * 1.2 - m * 0.8 == m * 0.4;
    assert m * (0.8 + r * 0.4) == m * 0.8 + m * (r * 0.4) == m * 0.8 + (m * 0.4) * r;
  }

  /** No sleep is longer than the cap allows: a fifth more at most, up to rounding. */
  lemma SleepRespectsCap(o: RetryOptions, r: real, k: nat)
    requires k >= 1 && 0.0 <= r < 1.0 && o.maxDelay >= 0.0
    ensures if o.jitter then Sleep(o, r, k) <= Round(o.maxDelay * 1.2) as real else Sleep(o, r, k) <= o.maxDelay
  {
    hide Jittered, Round;
    if o.jitter {
      JitterBelow(Base(o, k), o.maxDelay, r);
      RoundMonotone(Jittered(Base(o, k), r), o.maxDelay * 1.2);
    }
  }

  lemma UncappedNonNegative(o: RetryOptions, k: nat)
    requires k >= 1 && o.factor >= 0.0 && o.initialDelay >= 0.0
    ensures Uncapped(o, k) >= 0.0
  {
    PowNonNegative(o.factor, k - 1);
    ScaleMonotone(o.initialDelay, 0.0, Pow(o.factor, k - 1));
  }

  /** Uncapped, the next base outgrows the jitter of this one. */
  lemma UncappedBases(o: RetryOptions, k: nat)
    requires k >= 1 && o.factor >= 1.5 && o.initialDelay >= 0.0
    requires Uncapped(o, k + 1) <= o.maxDelay
    ensures Base(o, k) >= 0.0 && Base(o, k + 1) >= 0.0
    ensures Base(o, k) * 1.2 <= Base(o, k + 1) * 0.8
  {
    UncappedNonNegative(o, k);
    UncappedStep(o, k);
    hide Uncapped;
    ScaleMonotone(Uncapped(o, k), 1.0, o.factor);
    ScaleMonotone(Uncapped(o, k), 1.5, o.factor);
  }

  /** Before the cap bites, a factor of 1.5 or more outruns any jitter. */
  lemma SleepsNeverDecrease(o: RetryOptions, r1: real, r2: real, k: nat)
    requires k >= 1 && o.jitter && 0.0 <= r1 < 1.0 && 0.0 <= r2 < 1.0
    requires o.factor >= 1.5 && o.initialDelay >= 0.0
    requires Uncapped(o, k + 1) <= o.maxDelay
    ensures Sleep(o, r1, k) <= Sleep(o, r2, k + 1)
  {
    UncappedBases(o, k);
    hide Base, Sleep, Round, Uncapped;
    SleepBounds(o, r1, k);
    SleepBounds(o, r2, k + 1);
    RoundMonotone(Base(o, k) * 1.2, Base(o, k + 1) * 0.8);
  }

  /** Below 1.5 it does not: some jitter makes the second sleep the shorter one. */
  lemma SmallFactorCanShrink(factor: real)
    requires 1.0 <= factor < 1.5
    ensures exists o: RetryOptions, r1: real, r2: real ::
              && o.jitter && o.factor == factor && o.initialDelay >= 0.0 && 0.0 <= r1 < 1.0 && 0.0 <= r2 < 1.0
              && Uncapped(o, 2) <= o.maxDelay
              && Sleep(o, r1, 1) > Sleep(o, r2, 2)
  {
    var r1 := factor - 0.5;            // half way between 2 * (factor - 1) and 1
    var gap := 1.5 - factor;           // first multiplier minus 0.8 * factor is 0.4 * gap
    var d := 5.0 / gap;
    assert d * gap == 5.0;
    var o := RetryOptions(3, d, d * factor, factor, true);
    assert Pow(factor, 1) == factor * Pow(factor, 0) == factor;
    assert Base(o, 1) == d by {
      assert Pow(factor, 0) == 1.0;
      ScaleMonotone(d, 1.0, factor);
    }
    assert Base(o, 2) == d * factor;
    assert d * (0.8 + r1 * 0.4) == d * factor * 0.8 + 0.4 * (d * gap);
    assert Sleep(o, r1, 1) > Sleep(o, 0.0, 2);
  }

  /** With the client's factor 2, sleeping is bounded by a geometric sum plus rounding. */
  lemma {:induction false} TotalSleepBound(o: RetryOptions, random: nat -> real, n: nat)
    requires n >= 1 && o.jitter && o.factor == 2.0 && o.initialDelay >= 0.0
    requires forall i :: 0.0 <= random(i) < 1.0
    ensures TotalSleep(o, random, n) <= 1.2 * o.initialDelay * (Pow(2.0, n - 1) - 1.0) + (n - 1) as real / 2.0
  {
    if n > 1 {
      TotalSleepBound(o, random, n - 1);
      SleepAtMost(o, random(n - 1), n - 1);
      DoublingSum(o.initialDelay, n - 1);
    }
  }

  lemma SleepAtMost(o: RetryOptions, r: real, k: nat)
    requires k >= 1 && o.jitter && o.factor == 2.0 && o.initialDelay >= 0.0 && 0.0 <= r < 1.0
    ensures Sleep(o, r, k) <= 1.2 * (o.initialDelay * Pow(2.0, k - 1)) + 0.5
  {
    UncappedNonNegative(o, k);
    JitterBelow(Base(o, k), Uncapped(o, k), r);
  }

  lemma JitterBelow(m: real, d: real, r: real)
    requires m <= d && d >= 0.0 && 0.0 <= r < 1.0
    ensures Jittered(m, r) <= 1.2 * d
  {
    ScaleMonotone(0.8 + r * 0.4, m, d);
    JitterRange(d, r);
  }

  lemma DoublingSum(x: real, k: nat)
    requires k >= 1
    ensures 1.2 * x * (Pow(2.0, k) - 1.0) == 1.2 * x * (Pow(2.0, k - 1) - 1.0) + 1.2 * (x * Pow(2.0, k - 1))
  {
  }
}

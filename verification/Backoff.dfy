/**
 The timing of `verify_action` (worker/verifier.py): when an attempt is the last, how long it sleeps before the next
 one, and why all sleeps together stay within the timeout. `readings` are the values of the clock in the order in which
 the loop asks for them: one for the deadline, then two per attempt, after the read and before the sleep.
 */
module Backoff {
  datatype Settings = Settings(maxAttempts: int, initialInterval: real, backoffFactor: real, maxInterval: real,
                               timeout: real)

  type Clock = nat -> real

  function Min(a: real, b: real): real { if b < a then b else a }

  function Times(a: real, x: real): real { a * x }

  function Max(a: real, b: real): real { if b > a then b else a }

  function MaxAttempts(s: Settings): nat { if s.maxAttempts > 1 then s.maxAttempts else 1 }

  function Deadline(s: Settings, readings: Clock): real { readings(0) + s.timeout }

  /** The reading that attempt `k`, counted from zero, compares with the deadline. */
  function Checked(readings: Clock, k: nat): real { readings(2 * k + 1) }

  /** The reading from which the sleep after attempt `k` is cut to the deadline. */
  function Paused(readings: Clock, k: nat): real { readings(2 * k + 2) }

  predicate IsFinal(s: Settings, readings: Clock, k: nat) {
    k + 1 >= MaxAttempts(s) || Checked(readings, k) >= Deadline(s, readings)
  }

  function Remaining(s: Settings, readings: Clock, k: nat): real {
    Max(0.0, Deadline(s, readings) - Paused(readings, k))
  }

  /** The interval with which attempt `k` begins: the sleep before it, grown and limited. */
  function Interval(s: Settings, readings: Clock, k: nat): real {
    if k == 0 then s.initialInterval
    else Min(Times(Min(Interval(s, readings, k - 1), Remaining(s, readings, k - 1)), s.backoffFactor), s.maxInterval)
  }

  /** The sleep after attempt `k`. */
  function Pause(s: Settings, readings: Clock, k: nat): real {
    Min(Interval(s, readings, k), Remaining(s, readings, k))
  }

  function Pauses(s: Settings, readings: Clock, n: nat): seq<real> {
    if n == 0 then [] else Pauses(s, readings, n - 1) + [Pause(s, readings, n - 1)]
  }

  function Total(sleeps: seq<real>): real {
    if sleeps == [] then 0.0 else Total(sleeps[..|sleeps| - 1]) + sleeps[|sleeps| - 1]
  }

  // ---------------------------------------------------------------- the budget

  predicate NonNegative(s: Settings) {
    s.initialInterval >= 0.0 && s.backoffFactor >= 0.0 && s.maxInterval >= 0.0 && s.timeout >= 0.0
  }

  /** The clock never goes back, and over the sleep after attempt `k` it advances at least that far. */
  predicate AdvancesAt(s: Settings, readings: Clock, k: nat) {
    Checked(readings, k) <= Paused(readings, k)
        && Paused(readings, k) + Pause(s, readings, k) <= Checked(readings, k + 1)
  }

  ghost predicate Advances(s: Settings, readings: Clock, n: nat) {
    readings(0) <= Checked(readings, 0) && forall k: nat | k < n :: AdvancesAt(s, readings, k)
  }

  lemma {:induction false} PausesAreNonNegative(s: Settings, readings: Clock, k: nat)
    requires NonNegative(s)
    ensures Interval(s, readings, k) >= 0.0 && Pause(s, readings, k) >= 0.0
  {
    if k > 0 {
      PausesAreNonNegative(s, readings, k - 1);
      Multiplied(0.0, Pause(s, readings, k - 1), s.backoffFactor);
    }
  }

  lemma {:induction false} PausesAt(s: Settings, readings: Clock, n: nat)
    ensures |Pauses(s, readings, n)| == n
    ensures forall k: nat | k < n :: Pauses(s, readings, n)[k] == Pause(s, readings, k)
  {
    hide Pause;
    if n > 0 { PausesAt(s, readings, n - 1); }
  }

  lemma TotalSteps(s: Settings, readings: Clock, n: nat)
    ensures Total(Pauses(s, readings, n + 1)) == Total(Pauses(s, readings, n)) + Pause(s, readings, n)
  {
    hide Pause;
    PausesAt(s, readings, n);
    assert Pauses(s, readings, n + 1)[..n] == Pauses(s, readings, n);
  }

  /** The time that has passed covers the sleeps so far. */
  lemma {:induction false} ClockCoversSleeps(s: Settings, readings: Clock, n: nat)
    requires Advances(s, readings, n)
    ensures readings(0) + Total(Pauses(s, readings, n)) <= Checked(readings, n)
  {
    hide Pause, Checked, Paused;
    if n > 0 {
      ClockCoversSleeps(s, readings, n - 1);
      TotalSteps(s, readings, n - 1);
      assert AdvancesAt(s, readings, n - 1);
      hide Pauses, Total;
    }
  }

  /** All sleeps together take no longer than the timeout. */
  lemma {:induction false} SleepsStayInBudget(s: Settings, readings: Clock, n: nat)
    requires NonNegative(s) && Advances(s, readings, n)
    ensures Total(Pauses(s, readings, n)) <= s.timeout
  {
    hide Interval, Checked, Paused;
    if n > 0 {
      SleepsStayInBudget(s, readings, n - 1);
      ClockCoversSleeps(s, readings, n - 1);
      TotalSteps(s, readings, n - 1);
      assert AdvancesAt(s, readings, n - 1);
      hide Pauses, Total;
    }
  }

  /** An attempt whose read begins at or after the deadline is the last, if its own reading is no earlier. */
  lemma LateReadIsLast(s: Settings, readings: Clock, k: nat, begun: real)
    requires begun <= Checked(readings, k) && begun >= Deadline(s, readings)
    ensures IsFinal(s, readings, k)
  {
  }

  // ---------------------------------------------------------------- the intervals

  function Power(x: real, n: nat): real {
    if n == 0 then 1.0 else Power(x, n - 1) * x
  }

  function Grown(s: Settings, k: nat): real { s.initialInterval * Power(s.backoffFactor, k) }

  /** Exponential backoff up to the largest interval; nothing limits the first sleep but the deadline. */
  function Backed(s: Settings, k: nat): real {
    if k == 0 then s.initialInterval else Min(Grown(s, k), s.maxInterval)
  }

  lemma GrownSteps(s: Settings, k: nat)
    ensures Grown(s, 0) == s.initialInterval
    ensures Grown(s, k + 1) == Times(Grown(s, k), s.backoffFactor)
  {
  }

  lemma Multiplied(a: real, b: real, x: real)
    requires a <= b && x >= 0.0
    ensures a * x <= b * x
  {
    assert (b - a) * x >= 0.0;
  }

  /** No sleep is longer than the backoff allows. */
  lemma {:induction false} SleepsBackOff(s: Settings, readings: Clock, k: nat)
    requires NonNegative(s)
    ensures Pause(s, readings, k) <= Backed(s, k)
  {
    IntervalIsLimit(s, readings, k);
    if k > 0 {
      SleepsBackOff(s, readings, k - 1);
      BackedIsGrown(s, k - 1);
      LimitsStep(s, readings, k - 1);
      hide Grown, Interval, Pause, Backed, Min, Times;
      LimitSteps(Pause(s, readings, k - 1), Grown(s, k - 1), s.backoffFactor, s.maxInterval);
    }
  }

  lemma LimitsStep(s: Settings, readings: Clock, k: nat)
    ensures Interval(s, readings, k + 1) == Min(Times(Pause(s, readings, k), s.backoffFactor), s.maxInterval)
    ensures Backed(s, k + 1) == Min(Times(Grown(s, k), s.backoffFactor), s.maxInterval)
  {
    hide Grown, Min, Times;
    GrownSteps(s, k);
  }

  lemma BackedIsGrown(s: Settings, k: nat)
    ensures Backed(s, k) <= Grown(s, k)
  {
  }

  lemma LimitSteps(a: real, b: real, x: real, cap: real)
    requires a <= b && x >= 0.0
    ensures Min(Times(a, x), cap) <= Min(Times(b, x), cap)
  {
    Multiplied(a, b, x);
  }

  lemma IntervalIsLimit(s: Settings, readings: Clock, k: nat)
    ensures Pause(s, readings, k) <= Interval(s, readings, k)
    ensures Unclamped(s, readings, k) ==> Pause(s, readings, k) == Interval(s, readings, k)
  {
    hide Interval, Remaining;
  }

  predicate Unclamped(s: Settings, readings: Clock, k: nat) {
    Interval(s, readings, k) <= Remaining(s, readings, k)
  }

  /** The backoff never shrinks, or is within its limit from the second sleep on, or never sleeps again. */
  predicate Settles(s: Settings) {
    s.backoffFactor >= 1.0 || s.initialInterval * s.backoffFactor <= s.maxInterval || s.maxInterval == 0.0
  }

  /** Until the deadline cuts a sleep, the sleeps are exactly those of the backoff. */
  lemma {:induction false} SleepsAreExact(s: Settings, readings: Clock, k: nat)
    requires NonNegative(s) && Settles(s)
    requires forall j: nat | j <= k :: Unclamped(s, readings, j)
    ensures Pause(s, readings, k) == Backed(s, k)
  {
    hide Grown, Remaining, Unclamped, Pause, Backed, Interval, Times, Min, Settles;
    IntervalIsLimit(s, readings, k);
    if k == 0 {
      FirstIsUnlimited(s, readings);
    } else {
      SleepsAreExact(s, readings, k - 1);
      LimitsStep(s, readings, k - 1);
      BackoffSteps(s, k - 1);
    }
  }

  lemma FirstIsUnlimited(s: Settings, readings: Clock)
    ensures Backed(s, 0) == s.initialInterval == Interval(s, readings, 0)
  {
  }

  lemma BackoffSteps(s: Settings, k: nat)
    requires NonNegative(s) && Settles(s)
    ensures Min(Times(Backed(s, k), s.backoffFactor), s.maxInterval) == Backed(s, k + 1)
  {
    GrownSteps(s, k);
    GrownSteps(s, 0);
    GrowthOf(s, k);
    hide Grown;
    if k > 0 && Grown(s, k) > s.maxInterval {
      Multiplied(s.maxInterval, Grown(s, k), s.backoffFactor);
      if s.backoffFactor >= 1.0 { Multiplied(1.0, s.backoffFactor, s.maxInterval); }
    }
  }

  lemma {:induction false} GrowthOf(s: Settings, k: nat)
    requires NonNegative(s)
    ensures Grown(s, k) >= 0.0
    ensures s.backoffFactor < 1.0 && k > 0 ==> Grown(s, k) <= Grown(s, 1)
  {
    GrownSteps(s, 0);
    if k > 0 {
      GrowthOf(s, k - 1);
      GrownSteps(s, k - 1);
      hide Grown, Times;
      TimesBounds(Grown(s, k - 1), s.backoffFactor);
    }
  }

  lemma TimesBounds(a: real, x: real)
    requires a >= 0.0 && x >= 0.0
    ensures Times(a, x) >= 0.0
    ensures x < 1.0 ==> Times(a, x) <= a
  {
    Multiplied(0.0, a, x);
    TimesCommutes(a, x);
    if x < 1.0 { Multiplied(x, 1.0, a); }
  }

  lemma TimesCommutes(a: real, x: real)
    ensures Times(a, x) == Times(x, a) && Times(0.0, x) == 0.0 && Times(1.0, x) == x
  {
  }

  /**
   The condition is exact: where it fails, the limit makes the code forget how far the interval had grown, and the
   third sleep is already too short.
   */
  lemma SettlesIsExact(s: Settings, readings: Clock)
    requires NonNegative(s) && Unclamped(s, readings, 0) && Unclamped(s, readings, 1) && Unclamped(s, readings, 2)
    ensures Pause(s, readings, 2) == Backed(s, 2) <==> Settles(s)
  {
    if Settles(s) {
      SleepsAreExact(s, readings, 2);
    } else {
      ThirdSleep(s, readings);
    }
  }

  lemma ThirdSleep(s: Settings, readings: Clock)
    requires NonNegative(s) && Unclamped(s, readings, 0) && Unclamped(s, readings, 1) && Unclamped(s, readings, 2)
              && !Settles(s)
    ensures Pause(s, readings, 2) != Backed(s, 2)
  {
    IntervalIsLimit(s, readings, 0);
    IntervalIsLimit(s, readings, 1);
    IntervalIsLimit(s, readings, 2);
    LimitsStep(s, readings, 0);
    LimitsStep(s, readings, 1);
    GrownSteps(s, 0);
    GrownSteps(s, 1);
    FirstIsUnlimited(s, readings);
    hide Grown, Interval, Pause, Unclamped, Backed;
    ThirdIsShort(s.initialInterval, s.backoffFactor, s.maxInterval);
  }

  lemma ThirdIsShort(initial: real, factor: real, cap: real)
    requires factor < 1.0 && cap > 0.0 && factor >= 0.0 && initial >= 0.0 && Times(initial, factor) > cap
    ensures Min(Times(initial, factor), cap) == cap
    ensures Min(Times(cap, factor), cap) != Min(Times(Times(initial, factor), factor), cap)
  {
    var grown := Times(initial, factor);
    TimesCommutes(initial, factor);
    TimesCommutes(initial, 0.0);
    TimesCommutes(cap, factor);
    TimesCommutes(factor, cap);
    TimesCommutes(1.0, cap);
    TimesSteps(cap, grown, factor);
    TimesSteps(factor, 1.0, cap);
    hide Times;
  }

  lemma TimesSteps(a: real, b: real, x: real)
    requires a < b && x >= 0.0
    ensures x > 0.0 ==> Times(a, x) < Times(b, x)
  {
    if x > 0.0 { assert (b - a) * x > 0.0; }
  }

  /**
   Settings and a clock under which it fails: from ten seconds and half as much each time, limited to one second, the
   sleeps are 10, 1 and 0.5 where the backoff has 10, 1 and 1.
   */
  lemma LimitForgetsGrowth() returns (s: Settings, readings: Clock)
    ensures NonNegative(s) && s.maxAttempts > 3 && Advances(s, readings, 3)
    ensures forall k: nat | k < 3 :: Unclamped(s, readings, k) && !IsFinal(s, readings, k)
    ensures Pause(s, readings, 2) < Backed(s, 2)
  {
    s, readings := Settings(5, 10.0, 0.5, 1.0, 1000.0), k => 10.0 * k as real;
    LimitsStep(s, readings, 0);
    LimitsStep(s, readings, 1);
    FirstIsUnlimited(s, readings);
    assert Remaining(s, readings, 0) == 980.0 && Remaining(s, readings, 1) == 960.0
        && Remaining(s, readings, 2) == 940.0;
    hide Remaining;
    IntervalIsLimit(s, readings, 0);
    assert Pause(s, readings, 0) == 10.0 && Interval(s, readings, 1) == 1.0;
    IntervalIsLimit(s, readings, 1);
    assert Pause(s, readings, 1) == 1.0 && Interval(s, readings, 2) == 0.5;
    IntervalIsLimit(s, readings, 2);
    SettlesIsExact(s, readings);
    SleepsBackOff(s, readings, 2);
    assert AdvancesAt(s, readings, 0) && AdvancesAt(s, readings, 1) && AdvancesAt(s, readings, 2);
  }
}

/**
 * The sampling schedule of a FunctionAnimation in exact arithmetic: how many
 * regular steps run, at which elapsed times they sample, and when the extra
 * sample at the full duration is appended.
 */
module Schedule {

  /** `Int(x)` of a Double: truncation toward zero. */
  function Trunc(x: real): (n: int)
    ensures 0.0 <= x ==> n as real <= x < n as real + 1.0
    ensures x < 0.0 ==> n as real - 1.0 < x <= n as real
  {
    if x >= 0.0 then x.Floor else -((-x).Floor)
  }

  /** The integer nearest to `x`, ties going to the even one: the quotient IEEE remainder rounds to. */
  function RoundHalfEven(x: real): (n: int)
    ensures -0.5 <= x - n as real <= 0.5
    ensures x == x.Floor as real ==> n == x.Floor
  {
    var f := x.Floor;
    var frac := x - f as real;
    if frac < 0.5 then f
    else if frac > 0.5 then f + 1
    else if f % 2 == 0 then f else f + 1
  }

  /** `duration.remainder(dividingBy: interval)`, IEEE remainder, computed exactly. */
  function Remainder(duration: real, interval: real): real
    requires interval != 0.0
  {
    duration - RoundHalfEven(duration / interval) as real * interval
  }

  /** `animationsCount`: the last regular step; steps 0..StepMax run. */
  function StepMax(duration: real, interval: real): int
    requires interval != 0.0
  {
    Trunc(duration / interval)
  }

  /** The range of Swift's 64-bit `Int`. */
  const IntMin: int := -0x8000_0000_0000_0000
  const IntMax: int := 0x7FFF_FFFF_FFFF_FFFF

  /**
   * `Int(duration / interval)` does not trap: the interval is not zero and the
   * truncated quotient fits in `Int`.
   */
  predicate Schedulable(duration: real, interval: real) {
    interval != 0.0 && IntMin <= StepMax(duration, interval) <= IntMax
  }

  /** `shouldAppendStep`: the remainder test. */
  predicate HasRemainder(duration: real, interval: real)
    requires interval != 0.0
  {
    Remainder(duration, interval) != 0.0
  }

  /** The elapsed time regular step `step` samples at. */
  function SampleTime(interval: real, step: int): real {
    step as real * interval
  }

  /** The sample times of regular steps `step`..`stepMax`, in order: step k samples at `k * interval`. */
  function TimesFrom(interval: real, step: int, stepMax: int): (ts: seq<real>)
    ensures |ts| == if step <= stepMax then stepMax - step + 1 else 0
    decreases if step <= stepMax then stepMax - step + 1 else 0
  {
    if step > stepMax then [] else [SampleTime(interval, step)] + TimesFrom(interval, step + 1, stepMax)
  }

  /** The regular times from a step that still runs, followed by `tail`: that step's time first. */
  lemma TimesFromThen(interval: real, step: int, stepMax: int, tail: seq<real>)
    requires step <= stepMax
    ensures TimesFrom(interval, step, stepMax) + tail == [SampleTime(interval, step)] + (TimesFrom(interval, step + 1, stepMax) + tail)
  {
    assert TimesFrom(interval, step, stepMax) == [SampleTime(interval, step)] + TimesFrom(interval, step + 1, stepMax);
  }

  /** The k-th regular time from `step` on is that of step `step + k`. */
  lemma {:induction false} TimesFromAt(interval: real, step: int, stepMax: int, k: int)
    requires 0 <= k < |TimesFrom(interval, step, stepMax)|
    ensures TimesFrom(interval, step, stepMax)[k] == SampleTime(interval, step + k)
    decreases k
  {
    if k > 0 {
      TimesFromAt(interval, step + 1, stepMax, k - 1);
    }
  }

  /** Every elapsed time a FunctionAnimation samples, in the order it samples them. */
  function SampleTimes(duration: real, interval: real): (ts: seq<real>)
    requires interval != 0.0
    // one regular sample per step 0..StepMax, plus one more when there is a remainder
    ensures |ts| == (if StepMax(duration, interval) >= 0 then StepMax(duration, interval) + 1 else 0)
                    + (if HasRemainder(duration, interval) then 1 else 0)
    // the appended sample is the last one, and is taken at the duration itself
    ensures HasRemainder(duration, interval) ==> ts[|ts| - 1] == duration
  {
    TimesFrom(interval, 0, StepMax(duration, interval)) + (if HasRemainder(duration, interval) then [duration] else [])
  }

  /** Regular step k samples at exactly k * interval. */
  lemma SampleTimesRegular(duration: real, interval: real)
    requires interval != 0.0
    ensures var ts := SampleTimes(duration, interval);
      forall k :: 0 <= k <= StepMax(duration, interval) ==> ts[k] == k as real * interval
  {
    var regular := TimesFrom(interval, 0, StepMax(duration, interval));
    forall k | 0 <= k <= StepMax(duration, interval)
      ensures SampleTimes(duration, interval)[k] == k as real * interval
    {
      TimesFromAt(interval, 0, StepMax(duration, interval), k);
      assert SampleTimes(duration, interval)[k] == regular[k];
    }
  }

  /** A sample is appended exactly when the duration is not a whole multiple of the interval. */
  lemma RemainderIffNotMultiple(duration: real, interval: real)
    requires interval != 0.0
    ensures HasRemainder(duration, interval) <==> (duration / interval).Floor as real != duration / interval
  {
    var q := duration / interval;
    var n := RoundHalfEven(q);
    assert duration == q * interval;
    assert Remainder(duration, interval) == (q - n as real) * interval;
    if q.Floor as real == q {
      assert n as real == q;
    } else {
      assert q != n as real;
      assert (q - n as real) * interval != 0.0;
    }
  }

  /** For a non-negative duration the step count is the floor of duration / interval, and the last regular sample does not pass the duration. */
  lemma StepMaxIsFloor(duration: real, interval: real)
    requires 0.0 <= duration && 0.0 < interval
    ensures StepMax(duration, interval) == (duration / interval).Floor
    ensures 0 <= StepMax(duration, interval)
    ensures StepMax(duration, interval) as real * interval <= duration
    ensures duration < (StepMax(duration, interval) + 1) as real * interval
  {
    var q := duration / interval;
    var n := StepMax(duration, interval);
    assert duration == q * interval;
    assert n as real <= q < n as real + 1.0;
    assert n as real * interval <= q * interval;
    var gap := n as real + 1.0 - q;
    assert gap > 0.0;
    assert gap * interval > 0.0;
    assert (n as real + 1.0) * interval == q * interval + gap * interval;
    assert (n + 1) as real == n as real + 1.0;
    assert duration < (n as real + 1.0) * interval;
    assert duration < (n + 1) as real * interval;
  }

  /** For a non-negative duration and a positive interval, step 0 always runs. */
  lemma StepMaxNonNegative(duration: real, interval: real)
    requires 0.0 <= duration && 0.0 < interval
    ensures 0 <= StepMax(duration, interval)
  {
    StepMaxIsFloor(duration, interval);
  }

  /** With a positive interval, later steps sample strictly later, and no step before 0 samples before 0. */
  lemma SampleTimeRises(interval: real, j: int, k: int)
    requires 0.0 < interval && 0 <= j < k
    ensures 0.0 <= SampleTime(interval, j) < SampleTime(interval, k)
  {
    assert SampleTime(interval, k) - SampleTime(interval, j) == (k - j) as real * interval;
    assert (k - j) as real * interval > 0.0;
    assert j as real * interval >= 0.0;
  }

  /** With a positive interval, regular samples rise strictly and lie between 0 and the last regular step's time. */
  lemma RegularTimesIncreasing(interval: real, stepMax: int)
    requires 0.0 < interval && 0 <= stepMax
    ensures forall k :: 0 <= k < |TimesFrom(interval, 0, stepMax)| ==>
      0.0 <= TimesFrom(interval, 0, stepMax)[k] <= SampleTime(interval, stepMax)
    ensures forall j, k :: 0 <= j < k < |TimesFrom(interval, 0, stepMax)| ==>
      TimesFrom(interval, 0, stepMax)[j] < TimesFrom(interval, 0, stepMax)[k]
  {
    var ts := TimesFrom(interval, 0, stepMax);
    forall k | 0 <= k < |ts|
      ensures 0.0 <= ts[k] <= SampleTime(interval, stepMax)
    {
      TimesFromAt(interval, 0, stepMax, k);
      if k < stepMax {
        SampleTimeRises(interval, k, stepMax);
      } else if 0 < k {
        SampleTimeRises(interval, 0, k);
      }
    }
    forall j, k | 0 <= j < k < |ts|
      ensures ts[j] < ts[k]
    {
      TimesFromAt(interval, 0, stepMax, j);
      TimesFromAt(interval, 0, stepMax, k);
      SampleTimeRises(interval, j, k);
    }
  }

  /** With a remainder, the duration lies strictly beyond the last regular sample. */
  lemma AppendedAfterRegular(duration: real, interval: real)
    requires 0.0 <= duration && 0.0 < interval
    requires HasRemainder(duration, interval)
    ensures SampleTime(interval, StepMax(duration, interval)) < duration
    ensures duration < SampleTime(interval, StepMax(duration, interval) + 1)
  {
    var q := duration / interval;
    var n := StepMax(duration, interval);
    StepMaxIsFloor(duration, interval);
    RemainderIffNotMultiple(duration, interval);
    assert n as real < q;
    assert duration == q * interval;
    assert n as real * interval < q * interval;
  }

  /** Without a remainder, the last regular sample is the duration itself. */
  lemma LastRegularIsDuration(duration: real, interval: real)
    requires 0.0 <= duration && 0.0 < interval
    requires !HasRemainder(duration, interval)
    ensures SampleTime(interval, StepMax(duration, interval)) == duration
  {
    var q := duration / interval;
    StepMaxIsFloor(duration, interval);
    RemainderIffNotMultiple(duration, interval);
    assert duration == q * interval;
  }

  /** A strictly rising sequence within [0, b), with b < x, stays strictly rising within [0, x] when x is appended. */
  lemma AppendKeepsIncreasing(xs: seq<real>, b: real, x: real)
    requires forall k :: 0 <= k < |xs| ==> 0.0 <= xs[k] <= b
    requires forall j, k :: 0 <= j < k < |xs| ==> xs[j] < xs[k]
    requires 0.0 <= x && b < x
    ensures var ys := xs + [x];
      && (forall k :: 0 <= k < |ys| ==> 0.0 <= ys[k] <= x)
      && (forall j, k :: 0 <= j < k < |ys| ==> ys[j] < ys[k])
  {
    var ys := xs + [x];
    forall j, k | 0 <= j < k < |ys|
      ensures ys[j] < ys[k]
    {
      assert ys[j] == xs[j];
      if k < |xs| {
        assert ys[k] == xs[k];
      }
    }
  }

  /** With a remainder: the regular samples, then the duration, rising strictly within [0, duration]. */
  lemma SampleTimesWithRemainder(duration: real, interval: real)
    requires 0.0 <= duration && 0.0 < interval
    requires HasRemainder(duration, interval)
    ensures var ts := SampleTimes(duration, interval);
      && ts == TimesFrom(interval, 0, StepMax(duration, interval)) + [duration]
      && (forall k :: 0 <= k < |ts| ==> 0.0 <= ts[k] <= duration)
      && (forall j, k :: 0 <= j < k < |ts| ==> ts[j] < ts[k])
  {
    var n := StepMax(duration, interval);
    StepMaxNonNegative(duration, interval);
    RegularTimesIncreasing(interval, n);
    AppendedAfterRegular(duration, interval);
    AppendKeepsIncreasing(TimesFrom(interval, 0, n), SampleTime(interval, n), duration);
  }

  /** Without a remainder: only the regular samples, rising strictly within [0, duration]. */
  lemma SampleTimesWithoutRemainder(duration: real, interval: real)
    requires 0.0 <= duration && 0.0 < interval
    requires !HasRemainder(duration, interval)
    ensures var ts := SampleTimes(duration, interval);
      && ts == TimesFrom(interval, 0, StepMax(duration, interval))
      && (forall k :: 0 <= k < |ts| ==> 0.0 <= ts[k] <= duration)
      && (forall j, k :: 0 <= j < k < |ts| ==> ts[j] < ts[k])
  {
    var n := StepMax(duration, interval);
    StepMaxNonNegative(duration, interval);
    RegularTimesIncreasing(interval, n);
    LastRegularIsDuration(duration, interval);
    assert SampleTimes(duration, interval) == TimesFrom(interval, 0, n) + [];
  }

  /**
   * For a non-negative duration and a positive interval: there are
   * StepMax + 1 + (remainder ? 1 : 0) samples, they start at 0, rise
   * strictly, stay within the duration and the last one is the duration.
   */
  lemma SampleTimesIncreasing(duration: real, interval: real)
    requires 0.0 <= duration && 0.0 < interval
    ensures var ts := SampleTimes(duration, interval);
      && |ts| == StepMax(duration, interval) + 1 + (if HasRemainder(duration, interval) then 1 else 0)
      && ts[0] == 0.0
      && ts[|ts| - 1] == duration
      && (forall k :: 0 <= k < |ts| ==> 0.0 <= ts[k] <= duration)
      && (forall j, k :: 0 <= j < k < |ts| ==> ts[j] < ts[k])
  {
    var n := StepMax(duration, interval);
    StepMaxNonNegative(duration, interval);
    TimesFromAt(interval, 0, n, 0);
    if HasRemainder(duration, interval) {
      SampleTimesWithRemainder(duration, interval);
    } else {
      SampleTimesWithoutRemainder(duration, interval);
      TimesFromAt(interval, 0, n, n);
      LastRegularIsDuration(duration, interval);
    }
  }

  /** 0.02 / 0.01 divides exactly: samples at 0, 0.01 and 0.02. */
  lemma ExactDivisionSamples()
    ensures Schedulable(0.02, 0.01)
    ensures SampleTimes(0.02, 0.01) == [0.0, 0.01, 0.02]
  {
    assert StepMax(0.02, 0.01) == 2;
    RemainderIffNotMultiple(0.02, 0.01);
  }

  /** 0.1 / 0.03 leaves a remainder: regular samples 0, 0.03, 0.06, 0.09, then 0.1 rather than 0.12. */
  lemma PartialIntervalSamples()
    ensures Schedulable(0.1, 0.03)
    ensures SampleTimes(0.1, 0.03) == [0.0, 0.03, 0.06, 0.09, 0.1]
  {
    assert StepMax(0.1, 0.03) == 3;
    RemainderIffNotMultiple(0.1, 0.03);
    assert HasRemainder(0.1, 0.03);
  }
}

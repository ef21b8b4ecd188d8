/**
 * FunctionAnimation: samples a function of elapsed time on a schedule and runs
 * one sub-animation per sample, each started only when the previous one has
 * emitted.  The pure `Step` mirrors the recursion on `step`/`stepMax`;
 * `FunctionAnimationObject` is the object that runs it in place, updating its
 * own `options` as it goes.
 */
module FunctionAnimations {
  import opened Optionals
  import opened AnimationOptions
  import opened Functions
  import opened Views
  import opened Schedule

  /** The sampling function of a convenience `*Function` animation, tagged with the sub-animation it builds. */
  datatype Sampled =
    | AlphaOf(single: real -> real)
    | RotateOf(single: real -> real)
    | ScaleOf(pair: real -> (real, real))
    | TranslateOf(pair: real -> (real, real))
    | MoveOf(pair: real -> (real, real))

  /** How many values one sample yields. */
  function Arity(s: Sampled): nat {
    if s.AlphaOf? || s.RotateOf? then 1 else 2
  }

  /** The values one sample yields: a single-valued function's result, or a pair-valued one's two components in order. */
  function Samples(s: Sampled, t: real): (results: seq<real>)
    ensures |results| == Arity(s)
  {
    if s.AlphaOf? || s.RotateOf? then [s.single(t)] else [s.pair(t).0, s.pair(t).1]
  }

  /** The samples are what the wrapper's `function`, packed to return an array, returns at `t`. */
  lemma SamplesArePacked(s: Sampled, t: real)
    ensures s.AlphaOf? || s.RotateOf? ==> Samples(s, t) == PackToArray(s.single)(t)
    ensures !(s.AlphaOf? || s.RotateOf?) ==> Samples(s, t) == PackPairToArray(s.pair)(t)
  {
  }

  /** `animationFunction`: the block of the sub-animation built from one sample's results. */
  function SubBlock(s: Sampled, results: seq<real>): Block
    requires |results| >= Arity(s)
  {
    match s
    case AlphaOf(_) => AssignAlpha(results[0])
    case RotateOf(_) => AssignTransform(Rotation(results[0]))
    case ScaleOf(_) => AssignTransform(Scaling(results[0], results[1]))
    case TranslateOf(_) => AssignTransform(Translation(results[0], results[1]))
    case MoveOf(_) => Offset(results[0], results[1])
  }

  /** The block of the sub-animation for the sample at `t`. */
  function SampleBlock(s: Sampled, t: real): Block {
    var results := Samples(s, t);
    SubBlock(s, results)
  }

  /**
   * Single-valued functions feed element 0 of the packed array to the block,
   * pair-valued ones element 0 as x and element 1 as y.
   */
  lemma SampleBlockUsesResults(s: Sampled, t: real)
    ensures s.AlphaOf? ==> SampleBlock(s, t) == AssignAlpha(s.single(t))
    ensures s.RotateOf? ==> SampleBlock(s, t) == AssignTransform(Rotation(s.single(t)))
    ensures s.ScaleOf? ==> SampleBlock(s, t) == AssignTransform(Scaling(s.pair(t).0, s.pair(t).1))
    ensures s.TranslateOf? ==> SampleBlock(s, t) == AssignTransform(Translation(s.pair(t).0, s.pair(t).1))
    ensures s.MoveOf? ==> SampleBlock(s, t) == Offset(s.pair(t).0, s.pair(t).1)
  {
  }

  /** The immutable parameters of a FunctionAnimation. */
  datatype FunctionSpec = FunctionSpec(duration: real, interval: real, isLinear: bool, sampled: Sampled)

  /** What running the chain yields, and the FunctionAnimation's own `options` afterwards. */
  datatype ChainResult = ChainResult(outcome: Outcome, options: Option<OptionBits>)

  /**
   * One sub-animation: sample at `t`, build the sub-animation with duration
   * `interval`, give it its options, and run it through the executor on `v`.
   * The second component is the FunctionAnimation's options afterwards.
   */
  function SubAnimation(spec: FunctionSpec, t: real, v: View, stored: Option<OptionBits>): (r: (Outcome, Option<OptionBits>))
    ensures var opts := SubAnimationOptions(spec.isLinear, stored);
      && r.0.count == 1 && r.0.view == ApplyBlock(SampleBlock(spec.sampled, t), v)
      && r.0.trace == [Effect(BlockWrite(SampleBlock(spec.sampled, t), v), Animated(spec.interval, 0.0, opts.0.GetOr({})))]
      && r.1 == opts.1
  {
    var opts := SubAnimationOptions(spec.isLinear, stored);
    (Execute(spec.interval, opts.0, SampleBlock(spec.sampled, t), v), opts.1)
  }

  /**
   * `animate(target:step:stepMax:appendedInterval:)`.  Past `stepMax` the
   * chain ends in the appended sub-animation, or in an empty Observable when
   * there is none.  Otherwise step `step` samples at `step * interval`, and
   * the rest of the chain is started from the `concatMap` on its one emission,
   * which is consumed there: only the rest's values reach the caller.
   */
  function Step(spec: FunctionSpec, v: View, step: int, stepMax: int, appended: Option<real>, stored: Option<OptionBits>): (r: ChainResult)
    // regular emissions are consumed, so only an appended sub-animation's value comes out
    ensures r.outcome.count == (if appended.Some? then 1 else 0)
    // one sub-animation per remaining regular step, plus the appended one
    ensures |r.outcome.trace| == (if step <= stepMax then stepMax - step + 1 else 0) + (if appended.Some? then 1 else 0)
    decreases if step <= stepMax then stepMax - step + 1 else 0
  {
    if step > stepMax then
      match appended
      case None => ChainResult(Outcome([], v, 0), stored)
      case Some(t) =>
        var sub := SubAnimation(spec, t, v, stored);
        ChainResult(sub.0, sub.1)
    else
      var sub := SubAnimation(spec, SampleTime(spec.interval, step), v, stored);
      var rest := Step(spec, sub.0.view, step + 1, stepMax, appended, sub.1);
      ChainResult(Outcome(sub.0.trace + rest.outcome.trace, rest.outcome.view, rest.outcome.count), rest.options)
  }

  /** `animate(target:)`: steps 0..StepMax, with the duration appended when the remainder is not zero. */
  function RunFunction(spec: FunctionSpec, stored: Option<OptionBits>, v: View): ChainResult
    requires Schedulable(spec.duration, spec.interval)
  {
    var appended := if HasRemainder(spec.duration, spec.interval) then Some(spec.duration) else None;
    Step(spec, v, 0, StepMax(spec.duration, spec.interval), appended, stored)
  }

  /** Reference definition: the sub-animations for the given sample times, run one after another. */
  function Replay(spec: FunctionSpec, times: seq<real>, v: View, stored: Option<OptionBits>): (r: (seq<Effect>, View, Option<OptionBits>))
    ensures |r.0| == |times|
  {
    if times == [] then ([], v, stored)
    else
      var sub := SubAnimation(spec, times[0], v, stored);
      var rest := Replay(spec, times[1..], sub.0.view, sub.1);
      (sub.0.trace + rest.0, rest.1, rest.2)
  }

  /** One regular step: its sub-animation, then the chain from the next step on the view and options it leaves. */
  lemma StepUnfold(spec: FunctionSpec, v: View, step: int, stepMax: int, appended: Option<real>, stored: Option<OptionBits>)
    requires step <= stepMax
    ensures var sub := SubAnimation(spec, SampleTime(spec.interval, step), v, stored);
      var rest := Step(spec, sub.0.view, step + 1, stepMax, appended, sub.1);
      Step(spec, v, step, stepMax, appended, stored)
        == ChainResult(Outcome(sub.0.trace + rest.outcome.trace, rest.outcome.view, rest.outcome.count), rest.options)
  {
  }

  /** Replaying a schedule that starts at `t`: that sub-animation, then the rest on the view and options it leaves. */
  lemma ReplayCons(spec: FunctionSpec, t: real, times: seq<real>, v: View, stored: Option<OptionBits>)
    ensures var sub := SubAnimation(spec, t, v, stored);
      var rest := Replay(spec, times, sub.0.view, sub.1);
      Replay(spec, [t] + times, v, stored) == (sub.0.trace + rest.0, rest.1, rest.2)
  {
    assert ([t] + times)[0] == t;
    assert ([t] + times)[1..] == times;
  }

  /** The recursion from `step` replays the regular times from `step` on, then the appended one. */
  lemma {:induction false} StepReplaysTimes(spec: FunctionSpec, v: View, step: int, stepMax: int, appended: Option<real>, stored: Option<OptionBits>)
    ensures var r := Step(spec, v, step, stepMax, appended, stored);
      var p := Replay(spec, TimesFrom(spec.interval, step, stepMax) + (if appended.Some? then [appended.value] else []), v, stored);
      r.outcome.trace == p.0 && r.outcome.view == p.1 && r.options == p.2
    decreases if step <= stepMax then stepMax - step + 1 else 0
  {
    var tail: seq<real> := if appended.Some? then [appended.value] else [];
    if step > stepMax {
      assert TimesFrom(spec.interval, step, stepMax) + tail == tail;
      if appended.Some? {
        ReplayCons(spec, appended.value, [], v, stored);
      }
    } else {
      var t := SampleTime(spec.interval, step);
      var sub := SubAnimation(spec, t, v, stored);
      var next := TimesFrom(spec.interval, step + 1, stepMax);
      TimesFromThen(spec.interval, step, stepMax, tail);
      ReplayCons(spec, t, next + tail, v, stored);
      StepUnfold(spec, v, step, stepMax, appended, stored);
      StepReplaysTimes(spec, sub.0.view, step + 1, stepMax, appended, sub.1);
    }
  }

  /**
   * A FunctionAnimation runs exactly the sub-animations of `SampleTimes`, in
   * that order, and emits one value when a sample was appended and none
   * otherwise.
   */
  lemma FunctionAnimationFollowsSchedule(spec: FunctionSpec, stored: Option<OptionBits>, v: View)
    requires Schedulable(spec.duration, spec.interval)
    ensures var r := RunFunction(spec, stored, v);
      var p := Replay(spec, SampleTimes(spec.duration, spec.interval), v, stored);
      && r.outcome.trace == p.0 && r.outcome.view == p.1 && r.options == p.2
      && r.outcome.count == (if HasRemainder(spec.duration, spec.interval) then 1 else 0)
  {
    var appended := if HasRemainder(spec.duration, spec.interval) then Some(spec.duration) else None;
    StepReplaysTimes(spec, v, 0, StepMax(spec.duration, spec.interval), appended, stored);
  }

  /** Every sub-animation is an animated write lasting one interval, with delay 0. */
  lemma {:induction false} ReplayTimings(spec: FunctionSpec, times: seq<real>, v: View, stored: Option<OptionBits>)
    ensures var r := Replay(spec, times, v, stored);
      && |r.0| == |times|
      && forall i :: 0 <= i < |times| ==>
        r.0[i].timing.Animated? && r.0[i].timing.duration == spec.interval && r.0[i].timing.delay == 0.0
  {
    if times != [] {
      var sub := SubAnimation(spec, times[0], v, stored);
      var rest := Replay(spec, times[1..], sub.0.view, sub.1);
      ReplayTimings(spec, times[1..], sub.0.view, sub.1);
      var r := Replay(spec, times, v, stored);
      assert r.0 == sub.0.trace + rest.0;
      forall i | 0 <= i < |times|
        ensures r.0[i].timing.Animated? && r.0[i].timing.duration == spec.interval && r.0[i].timing.delay == 0.0
      {
        if i > 0 {
          assert r.0[i] == rest.0[i - 1];
        }
      }
    }
  }

  /** Without isLinear every sub-animation gets the stored options (nil as the empty set), which stay as they were. */
  lemma {:induction false} ReplayPassesOptionsThrough(spec: FunctionSpec, times: seq<real>, v: View, stored: Option<OptionBits>)
    requires !spec.isLinear
    ensures var r := Replay(spec, times, v, stored);
      && |r.0| == |times|
      && (forall i :: 0 <= i < |times| ==> r.0[i].timing.Animated? && r.0[i].timing.options == stored.GetOr({}))
      && r.2 == stored
  {
    if times != [] {
      var sub := SubAnimation(spec, times[0], v, stored);
      var rest := Replay(spec, times[1..], sub.0.view, sub.1);
      assert sub.1 == stored;
      ReplayPassesOptionsThrough(spec, times[1..], sub.0.view, sub.1);
      var r := Replay(spec, times, v, stored);
      assert r.0 == sub.0.trace + rest.0;
      forall i | 0 <= i < |times|
        ensures r.0[i].timing.Animated? && r.0[i].timing.options == stored.GetOr({})
      {
        if i > 0 {
          assert r.0[i] == rest.0[i - 1];
        }
      }
    }
  }

  /**
   * With isLinear, from options that are nil or already hold .curveLinear,
   * every sub-animation gets exactly .curveLinear and the stored options end
   * as they began.
   */
  lemma {:induction false} ReplayLinearStable(spec: FunctionSpec, times: seq<real>, v: View, stored: Option<OptionBits>)
    requires spec.isLinear
    requires stored.None? || CurveLinear <= stored.value
    ensures var r := Replay(spec, times, v, stored);
      && |r.0| == |times|
      && (forall i :: 0 <= i < |times| ==> r.0[i].timing.Animated? && r.0[i].timing.options == CurveLinear)
      && r.2 == stored
  {
    if times != [] {
      LinearOptionsAreStable(stored);
      var sub := SubAnimation(spec, times[0], v, stored);
      var rest := Replay(spec, times[1..], sub.0.view, sub.1);
      assert sub.1 == stored;
      ReplayLinearStable(spec, times[1..], sub.0.view, sub.1);
      var r := Replay(spec, times, v, stored);
      assert r.0 == sub.0.trace + rest.0;
      forall i | 0 <= i < |times|
        ensures r.0[i].timing.Animated? && r.0[i].timing.options == CurveLinear
      {
        if i > 0 {
          assert r.0[i] == rest.0[i - 1];
        }
      }
    }
  }

  /**
   * With isLinear and non-nil stored options: `.curveLinear` ends up inserted
   * in them, the first sub-animation gets what `update(with:)` returned (a
   * partial curve when exactly one curve bit was set) and every later one gets
   * exactly `.curveLinear`.
   */
  lemma ReplayLinearFromStoredOptions(spec: FunctionSpec, times: seq<real>, v: View, o: OptionBits)
    requires spec.isLinear && |times| > 0
    ensures var r := Replay(spec, times, v, Some(o));
      && |r.0| == |times|
      && r.0[0].timing.Animated? && r.0[0].timing.options == SubAnimationOptions(true, Some(o)).0.value
      && (forall i :: 1 <= i < |times| ==> r.0[i].timing.Animated? && r.0[i].timing.options == CurveLinear)
      && r.2 == Some(o + CurveLinear)
  {
    var sub := SubAnimation(spec, times[0], v, Some(o));
    var rest := Replay(spec, times[1..], sub.0.view, sub.1);
    assert sub.1 == Some(o + CurveLinear);
    ReplayLinearStable(spec, times[1..], sub.0.view, sub.1);
    var r := Replay(spec, times, v, Some(o));
    assert r.0 == sub.0.trace + rest.0;
    forall i | 1 <= i < |times|
      ensures r.0[i].timing.Animated? && r.0[i].timing.options == CurveLinear
    {
      assert r.0[i] == rest.0[i - 1];
    }
  }

  /** The write an absolute sub-animation makes: its property set to the sample itself. */
  function AbsoluteWrite(s: Sampled, t: real): Write
    requires !s.MoveOf?
  {
    if s.AlphaOf? then AlphaSet(s.single(t))
    else if s.RotateOf? then TransformSet(Rotation(s.single(t)))
    else if s.ScaleOf? then TransformSet(Scaling(s.pair(t).0, s.pair(t).1))
    else TransformSet(Translation(s.pair(t).0, s.pair(t).1))
  }

  /** An absolute sub-animation writes the sample, whatever the view held. */
  lemma AbsoluteSampleWrite(s: Sampled, t: real, v: View)
    requires !s.MoveOf?
    ensures BlockWrite(SampleBlock(s, t), v) == AbsoluteWrite(s, t)
  {
    SampleBlockUsesResults(s, t);
  }

  /** A Move sub-animation writes the center moved by the sample, and leaves the view there. */
  lemma MoveSampleWrite(f: real -> (real, real), t: real, v: View)
    ensures var moved := Point(v.center.x + f(t).0, v.center.y + f(t).1);
      && BlockWrite(SampleBlock(MoveOf(f), t), v) == CenterSet(moved)
      && ApplyBlock(SampleBlock(MoveOf(f), t), v).center == moved
  {
    SampleBlockUsesResults(MoveOf(f), t);
  }

  /** Alpha, rotation, scale and translation sub-animations record the raw samples, whatever the view held. */
  lemma {:induction false} ReplayRecordsSamples(spec: FunctionSpec, times: seq<real>, v: View, stored: Option<OptionBits>)
    requires !spec.sampled.MoveOf?
    ensures var r := Replay(spec, times, v, stored);
      && |r.0| == |times|
      && forall i :: 0 <= i < |times| ==> r.0[i].write == AbsoluteWrite(spec.sampled, times[i])
  {
    if times != [] {
      var sub := SubAnimation(spec, times[0], v, stored);
      var rest := Replay(spec, times[1..], sub.0.view, sub.1);
      AbsoluteSampleWrite(spec.sampled, times[0], v);
      ReplayRecordsSamples(spec, times[1..], sub.0.view, sub.1);
      var r := Replay(spec, times, v, stored);
      assert r.0 == sub.0.trace + rest.0;
      forall i | 0 <= i < |times|
        ensures r.0[i].write == AbsoluteWrite(spec.sampled, times[i])
      {
        if i > 0 {
          assert r.0[i] == rest.0[i - 1];
          assert times[1..][i - 1] == times[i];
        }
      }
    }
  }

  /** Center `c` moved by the offsets sampled at each of `times`, in turn. */
  function Shifted(c: Point, f: real -> (real, real), times: seq<real>): Point
    decreases |times|
  {
    if times == [] then c
    else Shifted(Point(c.x + f(times[0]).0, c.y + f(times[0]).1), f, times[1..])
  }

  /** Moving by one more sample adds that sample's offsets to where the earlier ones left the center. */
  lemma {:induction false} ShiftedSnoc(c: Point, f: real -> (real, real), times: seq<real>, t: real)
    ensures var p := Shifted(c, f, times);
      Shifted(c, f, times + [t]) == Point(p.x + f(t).0, p.y + f(t).1)
    decreases |times|
  {
    if times == [] {
      assert [t][1..] == [];
    } else {
      assert (times + [t])[0] == times[0];
      assert (times + [t])[1..] == times[1..] + [t];
      ShiftedSnoc(Point(c.x + f(times[0]).0, c.y + f(times[0]).1), f, times[1..], t);
    }
  }

  /** Move sub-animations are relative: the i-th sets the center to the start plus the first i + 1 offsets. */
  lemma {:induction false} ReplayMovesCumulatively(spec: FunctionSpec, times: seq<real>, v: View, stored: Option<OptionBits>)
    requires spec.sampled.MoveOf?
    ensures var r := Replay(spec, times, v, stored);
      && |r.0| == |times|
      && forall i :: 0 <= i < |times| ==> r.0[i].write == CenterSet(Shifted(v.center, spec.sampled.pair, times[..i + 1]))
  {
    if times != [] {
      var f := spec.sampled.pair;
      var sub := SubAnimation(spec, times[0], v, stored);
      var rest := Replay(spec, times[1..], sub.0.view, sub.1);
      var moved := Point(v.center.x + f(times[0]).0, v.center.y + f(times[0]).1);
      MoveSampleWrite(f, times[0], v);
      ReplayMovesCumulatively(spec, times[1..], sub.0.view, sub.1);
      var r := Replay(spec, times, v, stored);
      assert r.0 == sub.0.trace + rest.0;
      forall i | 0 <= i < |times|
        ensures r.0[i].write == CenterSet(Shifted(v.center, f, times[..i + 1]))
      {
        var prefix := times[..i + 1];
        assert prefix[0] == times[0];
        assert prefix[1..] == times[1..][..i];
        assert Shifted(v.center, f, prefix) == Shifted(moved, f, times[1..][..i]);
        if i > 0 {
          assert r.0[i] == rest.0[i - 1];
        } else {
          assert Shifted(moved, f, []) == moved;
        }
      }
    }
  }

  /** The FunctionAnimation object, which updates its own `options` while it runs. */
  class FunctionAnimationObject {
    const spec: FunctionSpec
    var options: Option<OptionBits>

    constructor (spec: FunctionSpec)
      ensures this.spec == spec && options == None
    {
      this.spec := spec;
      options := None;
    }

    /** `with(options:)`: replaces the options and hands back this same object. */
    method With(newOptions: Option<OptionBits>) returns (same: FunctionAnimationObject)
      modifies this
      ensures options == newOptions && same == this
    {
      options := newOptions;
      same := this;
    }

    /** `isLinear ? (options?.update(with: .curveLinear) ?? .curveLinear) : options` */
    method NextSubOptions() returns (sub: Option<OptionBits>)
      modifies this
      ensures (sub, options) == SubAnimationOptions(spec.isLinear, old(options))
    {
      if !spec.isLinear {
        sub := options;
      } else {
        match options
        case None =>
          sub := Some(CurveLinear);
        case Some(o) =>
          var updated := Update(o, CurveLinear);
          options := Some(updated.0);
          sub := Some(updated.1.GetOr(CurveLinear));
      }
    }

    /**
     * One sub-animation on `target`: sample the function at `t`, build the
     * sub-animation from the results, give it its options and run it.
     */
    method RunSample(target: TargetView, t: real) returns (emissions: nat)
      modifies this, target
      ensures var r := SubAnimation(spec, t, old(target.Snapshot()), old(options));
        && target.Snapshot() == r.0.view
        && target.log == old(target.log) + r.0.trace
        && emissions == r.0.count
        && options == r.1
    {
      var results := Samples(spec.sampled, t);
      var sub := NextSubOptions();
      emissions := target.Animate(spec.interval, sub, SubBlock(spec.sampled, results));
    }

    /** `animate(target:step:stepMax:appendedInterval:)` run on `target`. */
    method AnimateStep(target: TargetView, step: int, stepMax: int, appended: Option<real>) returns (emissions: nat)
      modifies this, target
      ensures var r := Step(spec, old(target.Snapshot()), step, stepMax, appended, old(options));
        && target.Snapshot() == r.outcome.view
        && target.log == old(target.log) + r.outcome.trace
        && emissions == r.outcome.count
        && options == r.options
      decreases if step <= stepMax then stepMax - step + 1 else 0
    {
      if step > stepMax {
        match appended
        case None =>
          emissions := 0;
        case Some(t) =>
          emissions := RunSample(target, t);
      } else {
        ghost var before, stored := target.Snapshot(), options;
        var stepEmissions := RunSample(target, SampleTime(spec.interval, step));
        // the executor emits once; concatMap starts the next step on that value and forwards only the next step's values
        emissions := AnimateStep(target, step + 1, stepMax, appended);
        StepUnfold(spec, before, step, stepMax, appended, stored);
      }
    }

    /** `animate(target:)` run on `target`. */
    method Animate(target: TargetView) returns (emissions: nat)
      requires Schedulable(spec.duration, spec.interval)
      modifies this, target
      ensures var r := RunFunction(spec, old(options), old(target.Snapshot()));
        && target.Snapshot() == r.outcome.view
        && target.log == old(target.log) + r.outcome.trace
        && emissions == r.outcome.count
        && options == r.options
    {
      var animationsCount := Trunc(spec.duration / spec.interval);
      var shouldAppendStep := Remainder(spec.duration, spec.interval) != 0.0;
      emissions := AnimateStep(target, 0, animationsCount, if shouldAppendStep then Some(spec.duration) else None);
    }
  }
}

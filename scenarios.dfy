/**
 * The behaviours the library's own test suite checks, stated on the model:
 * a freshly created view, the tag and isHidden fixtures, and the property
 * snapshots a view records while function-based animations run.
 */
module Scenarios {
  import opened Optionals
  import opened Views
  import opened Schedule
  import opened FunctionAnimations
  import opened Animations

  /** The sampling function the tests use for two-valued animations. */
  function Diagonal(t: real): (real, real) {
    (t, t)
  }

  /** The sampling function the tests use for single-valued animations. */
  function Elapsed(t: real): real {
    t
  }

  /** With no animation at all, or only the base one, the view is emitted once and nothing is written. */
  lemma NothingToAnimate(v: View)
    ensures AnimateAll([], v) == Outcome([], v, 1)
    ensures AllRunnable([Identity(None)]) && AnimateAll([Identity(None)], v) == Outcome([], v, 1)
  {
    BindSingle(Outcome([], v, 1), Identity(None));
  }

  /** Two tag fixtures in a list write 41 and then 42, and the view ends with tag 42. */
  lemma TagsRecordedInListOrder(v: View)
    ensures AllRunnable([SetTag(41), SetTag(42)])
    ensures var r := AnimateAll([SetTag(41), SetTag(42)], v);
      Writes(r.trace) == [TagSet(41), TagSet(42)] && r.view.tag == 42 && r.count == 1
  {
    var anims := [SetTag(41), SetTag(42)];
    var first := Run(SetTag(41), v);
    var second := Run(SetTag(42), first.view);
    BindSingle(Outcome([], v, 1), SetTag(41));
    var acc := Bind(Outcome([], v, 1), SetTag(41));
    assert acc == Outcome([] + first.trace, first.view, 1);
    BindSingle(acc, SetTag(42));
    assert anims[1..] == [SetTag(42)];
    assert anims[1..][1..] == [];
    assert AnimateAll(anims, v) == Bind(acc, SetTag(42));
    assert Bind(acc, SetTag(42)).trace == [Effect(TagSet(41), Immediate), Effect(TagSet(42), Immediate)];
  }

  /** Setting the tag and then hiding the view, listed for `rx.animate`, leaves both effects and emits the view once. */
  lemma TagAndHiddenListed(v: View)
    ensures AllRunnable([SetTag(42), SetIsHidden(true)])
    ensures var r := AnimateAll([SetTag(42), SetIsHidden(true)], v);
      r.view.tag == 42 && r.view.isHidden && r.count == 1
  {
    var setTag := SetTag(42);
    var setHidden := SetIsHidden(true);
    FoldIsFollowedChain([setTag, setHidden], v);
    assert [setTag, setHidden][..1] == [setTag];
    assert [setTag][..0] == [];
    assert ChainOf([setTag]) == Followed(ChainOf([]), setTag);
    assert ChainOf([setTag, setHidden]) == Followed(Followed(Identity(None), setTag), setHidden);
    ConcatAssociative(Identity(None), setTag, setHidden, v, None, None, None, None);
    IdentityIsUnit(Followed(setTag, setHidden), v, None, None);
    TagAndHiddenFollowed(v);
  }

  /** `followed(by:)` and `+` both set the tag, then hide the view, and emit it once. */
  lemma TagAndHiddenFollowed(v: View)
    ensures var r := Run(Followed(SetTag(42), SetIsHidden(true)), v);
      r.view.tag == 42 && r.view.isHidden && r.count == 1
    ensures Run(Plus(SetTag(42), SetIsHidden(true)), v) == Run(Followed(SetTag(42), SetIsHidden(true)), v)
  {
    MutatorsApplyAtOnce(true, 42, None, v);
    MutatorsApplyAtOnce(true, 42, None, v.(tag := 42));
    ConcatSequential(None, SetTag(42), SetIsHidden(true), v);
  }

  /** `simultaneously(with:)` and `&` both leave the tag set and the view hidden, and emit it once. */
  lemma TagAndHiddenSimultaneous(v: View)
    ensures var r := Run(Simultaneously(SetTag(42), SetIsHidden(true)), v);
      r.view.tag == 42 && r.view.isHidden && r.count == 1
    ensures Run(And(SetTag(42), SetIsHidden(true)), v) == Run(Simultaneously(SetTag(42), SetIsHidden(true)), v)
  {
    MutatorsApplyAtOnce(true, 42, None, v);
    MutatorsApplyAtOnce(true, 42, None, v.(tag := 42));
    MergeRunsBoth(None, SetTag(42), SetIsHidden(true), v);
  }

  /** The centers a Move replay over three sample times writes: the start plus the running sums of the diagonal offsets. */
  lemma MoveReplayWrites(spec: FunctionSpec, t0: real, t1: real, t2: real, v: View)
    requires spec.sampled == MoveOf(Diagonal)
    ensures var c := v.center;
      Writes(Replay(spec, [t0, t1, t2], v, None).0)
        == [CenterSet(Point(c.x + t0, c.y + t0)),
            CenterSet(Point(c.x + t0 + t1, c.y + t0 + t1)),
            CenterSet(Point(c.x + t0 + t1 + t2, c.y + t0 + t1 + t2))]
  {
    var times := [t0, t1, t2];
    ReplayMovesCumulatively(spec, times, v, None);
    assert times[..1] == [t0] && times[..2] == [t0, t1] && times[..3] == times;
    DiagonalShiftsThree(v.center, t0, t1, t2);
  }

  /** Moving diagonally by the first one, two and three of `t0, t1, t2` adds up the running sums. */
  lemma DiagonalShiftsThree(c: Point, t0: real, t1: real, t2: real)
    ensures Shifted(c, Diagonal, [t0]) == Point(c.x + t0, c.y + t0)
    ensures Shifted(c, Diagonal, [t0, t1]) == Point(c.x + t0 + t1, c.y + t0 + t1)
    ensures Shifted(c, Diagonal, [t0, t1, t2]) == Point(c.x + t0 + t1 + t2, c.y + t0 + t1 + t2)
  {
    assert Shifted(c, Diagonal, []) == c;
    ShiftedSnoc(c, Diagonal, [], t0);
    assert [] + [t0] == [t0];
    ShiftedSnoc(c, Diagonal, [t0], t1);
    assert [t0] + [t1] == [t0, t1];
    ShiftedSnoc(c, Diagonal, [t0, t1], t2);
    assert [t0, t1] + [t2] == [t0, t1, t2];
  }

  /** Moving diagonally by the first four and all five of `t0, ..., t4` adds up the running sums. */
  lemma DiagonalShiftsFive(c: Point, t0: real, t1: real, t2: real, t3: real, t4: real)
    ensures Shifted(c, Diagonal, [t0, t1, t2, t3]) == Point(c.x + t0 + t1 + t2 + t3, c.y + t0 + t1 + t2 + t3)
    ensures Shifted(c, Diagonal, [t0, t1, t2, t3, t4]) == Point(c.x + t0 + t1 + t2 + t3 + t4, c.y + t0 + t1 + t2 + t3 + t4)
  {
    DiagonalShiftsThree(c, t0, t1, t2);
    ShiftedSnoc(c, Diagonal, [t0, t1, t2], t3);
    assert [t0, t1, t2] + [t3] == [t0, t1, t2, t3];
    ShiftedSnoc(c, Diagonal, [t0, t1, t2, t3], t4);
    assert [t0, t1, t2, t3] + [t4] == [t0, t1, t2, t3, t4];
  }

  /**
   * A Move function over 0.02 / 0.01 samples at 0, 0.01 and 0.02, and since
   * each offset adds to the last, the center goes to +0, +0.01 and +0.03 of
   * where it started (for a fresh view: 0, 0.01, 0.03).
   */
  lemma MoveFunctionExactSnapshots(v: View)
    ensures var c := v.center;
      Writes(Run(MoveFunction(0.02, 0.01, true, Diagonal), v).trace)
        == [CenterSet(c), CenterSet(Point(c.x + 0.01, c.y + 0.01)), CenterSet(Point(c.x + 0.03, c.y + 0.03))]
  {
    ExactDivisionSamples();
    MoveExactCenters(0.02, 0.01, 0.0, 0.01, 0.02, v);
  }

  /** The exact-division Move centers, for any duration and interval whose schedule is 0, 0.01, 0.02. */
  lemma MoveExactCenters(duration: real, interval: real, t0: real, t1: real, t2: real, v: View)
    requires Schedulable(duration, interval) && SampleTimes(duration, interval) == [t0, t1, t2]
    requires t0 == 0.0 && t1 == 0.01 && t2 == 0.02
    ensures var c := v.center;
      Writes(Run(MoveFunction(duration, interval, true, Diagonal), v).trace)
        == [CenterSet(c), CenterSet(Point(c.x + 0.01, c.y + 0.01)), CenterSet(Point(c.x + 0.03, c.y + 0.03))]
  {
    var spec := FunctionSpec(duration, interval, true, MoveOf(Diagonal));
    FunctionWrapperFollowsSchedule(None, spec, v);
    MoveReplayWrites(spec, t0, t1, t2, v);
    ExactRunningSums(Writes(Run(MoveFunction(duration, interval, true, Diagonal), v).trace), v.center, t0, t1, t2);
  }

  /** Centers written as the running sums of 0, 0.01 and 0.02 from `c`, added up. */
  lemma ExactRunningSums(written: seq<Write>, c: Point, t0: real, t1: real, t2: real)
    requires t0 == 0.0 && t1 == 0.01 && t2 == 0.02
    requires written == [CenterSet(Point(c.x + t0, c.y + t0)),
             CenterSet(Point(c.x + t0 + t1, c.y + t0 + t1)),
             CenterSet(Point(c.x + t0 + t1 + t2, c.y + t0 + t1 + t2))]
    ensures written == [CenterSet(c), CenterSet(Point(c.x + 0.01, c.y + 0.01)), CenterSet(Point(c.x + 0.03, c.y + 0.03))]
  {
  }

  /** The centers a Move replay over five sample times writes: the start plus the running sums of the diagonal offsets. */
  lemma MoveReplayWritesFive(spec: FunctionSpec, t0: real, t1: real, t2: real, t3: real, t4: real, v: View)
    requires spec.sampled == MoveOf(Diagonal)
    ensures var c := v.center;
      Writes(Replay(spec, [t0, t1, t2, t3, t4], v, None).0)
        == [CenterSet(Point(c.x + t0, c.y + t0)),
            CenterSet(Point(c.x + t0 + t1, c.y + t0 + t1)),
            CenterSet(Point(c.x + t0 + t1 + t2, c.y + t0 + t1 + t2)),
            CenterSet(Point(c.x + t0 + t1 + t2 + t3, c.y + t0 + t1 + t2 + t3)),
            CenterSet(Point(c.x + t0 + t1 + t2 + t3 + t4, c.y + t0 + t1 + t2 + t3 + t4))]
  {
    var c := v.center;
    var trace := Replay(spec, [t0, t1, t2, t3, t4], v, None).0;
    MoveReplayShiftsFive(spec, t0, t1, t2, t3, t4, v);
    DiagonalShiftsThree(c, t0, t1, t2);
    DiagonalShiftsFive(c, t0, t1, t2, t3, t4);
    WritesOfFive(trace);
  }

  /** A Move replay over five sample times writes, at each step, the start moved by every sample so far. */
  lemma MoveReplayShiftsFive(spec: FunctionSpec, t0: real, t1: real, t2: real, t3: real, t4: real, v: View)
    requires spec.sampled == MoveOf(Diagonal)
    ensures var trace := Replay(spec, [t0, t1, t2, t3, t4], v, None).0;
      && |trace| == 5
      && trace[0].write == CenterSet(Shifted(v.center, Diagonal, [t0]))
      && trace[1].write == CenterSet(Shifted(v.center, Diagonal, [t0, t1]))
      && trace[2].write == CenterSet(Shifted(v.center, Diagonal, [t0, t1, t2]))
      && trace[3].write == CenterSet(Shifted(v.center, Diagonal, [t0, t1, t2, t3]))
      && trace[4].write == CenterSet(Shifted(v.center, Diagonal, [t0, t1, t2, t3, t4]))
  {
    var times := [t0, t1, t2, t3, t4];
    ReplayMovesCumulatively(spec, times, v, None);
    assert times[..1] == [t0] && times[..2] == [t0, t1] && times[..3] == [t0, t1, t2];
    assert times[..4] == [t0, t1, t2, t3] && times[..5] == times;
  }

  /** The writes of a five-effect trace, listed. */
  lemma WritesOfFive(trace: seq<Effect>)
    requires |trace| == 5
    ensures Writes(trace) == [trace[0].write, trace[1].write, trace[2].write, trace[3].write, trace[4].write]
  {
  }

  /**
   * A Move function over 0.1 / 0.03 samples at 0, 0.03, 0.06, 0.09 and then
   * 0.1 itself, so the center goes to +0, +0.03, +0.09, +0.18 and +0.28 of
   * where it started.
   */
  lemma MoveFunctionPartialSnapshots(v: View)
    ensures var c := v.center;
      Writes(Run(MoveFunction(0.1, 0.03, true, Diagonal), v).trace)
        == [CenterSet(c), CenterSet(Point(c.x + 0.03, c.y + 0.03)), CenterSet(Point(c.x + 0.09, c.y + 0.09)),
            CenterSet(Point(c.x + 0.18, c.y + 0.18)), CenterSet(Point(c.x + 0.28, c.y + 0.28))]
  {
    PartialIntervalSamples();
    MovePartialCenters(0.1, 0.03, 0.0, 0.03, 0.06, 0.09, 0.1, v);
  }

  /** The partial-interval Move centers, for any duration and interval whose schedule is 0, 0.03, 0.06, 0.09, 0.1. */
  lemma MovePartialCenters(duration: real, interval: real, t0: real, t1: real, t2: real, t3: real, t4: real, v: View)
    requires Schedulable(duration, interval) && SampleTimes(duration, interval) == [t0, t1, t2, t3, t4]
    requires t0 == 0.0 && t1 == 0.03 && t2 == 0.06 && t3 == 0.09 && t4 == 0.1
    ensures var c := v.center;
      Writes(Run(MoveFunction(duration, interval, true, Diagonal), v).trace)
        == [CenterSet(c), CenterSet(Point(c.x + 0.03, c.y + 0.03)), CenterSet(Point(c.x + 0.09, c.y + 0.09)),
            CenterSet(Point(c.x + 0.18, c.y + 0.18)), CenterSet(Point(c.x + 0.28, c.y + 0.28))]
  {
    MoveFunctionWrites(duration, interval, t0, t1, t2, t3, t4, v);
    PartialRunningSums(Writes(Run(MoveFunction(duration, interval, true, Diagonal), v).trace), v.center, t0, t1, t2, t3, t4);
  }

  /** Centers written as the running sums of 0, 0.03, 0.06, 0.09 and 0.1 from `c`, added up. */
  lemma PartialRunningSums(written: seq<Write>, c: Point, t0: real, t1: real, t2: real, t3: real, t4: real)
    requires t0 == 0.0 && t1 == 0.03 && t2 == 0.06 && t3 == 0.09 && t4 == 0.1
    requires written == [CenterSet(Point(c.x + t0, c.y + t0)),
             CenterSet(Point(c.x + t0 + t1, c.y + t0 + t1)),
             CenterSet(Point(c.x + t0 + t1 + t2, c.y + t0 + t1 + t2)),
             CenterSet(Point(c.x + t0 + t1 + t2 + t3, c.y + t0 + t1 + t2 + t3)),
             CenterSet(Point(c.x + t0 + t1 + t2 + t3 + t4, c.y + t0 + t1 + t2 + t3 + t4))]
    ensures written == [CenterSet(c), CenterSet(Point(c.x + 0.03, c.y + 0.03)), CenterSet(Point(c.x + 0.09, c.y + 0.09)),
          CenterSet(Point(c.x + 0.18, c.y + 0.18)), CenterSet(Point(c.x + 0.28, c.y + 0.28))]
  {
  }

  /** A Move function whose schedule is the five given times writes the running sums of those times. */
  lemma MoveFunctionWrites(duration: real, interval: real, t0: real, t1: real, t2: real, t3: real, t4: real, v: View)
    requires Schedulable(duration, interval) && SampleTimes(duration, interval) == [t0, t1, t2, t3, t4]
    ensures var c := v.center;
      Writes(Run(MoveFunction(duration, interval, true, Diagonal), v).trace)
        == [CenterSet(Point(c.x + t0, c.y + t0)),
            CenterSet(Point(c.x + t0 + t1, c.y + t0 + t1)),
            CenterSet(Point(c.x + t0 + t1 + t2, c.y + t0 + t1 + t2)),
            CenterSet(Point(c.x + t0 + t1 + t2 + t3, c.y + t0 + t1 + t2 + t3)),
            CenterSet(Point(c.x + t0 + t1 + t2 + t3 + t4, c.y + t0 + t1 + t2 + t3 + t4))]
  {
    var spec := FunctionSpec(duration, interval, true, MoveOf(Diagonal));
    FunctionWrapperFollowsSchedule(None, spec, v);
    MoveReplayWritesFive(spec, t0, t1, t2, t3, t4, v);
  }

  /** An alpha function over 0.1 / 0.03 records the raw samples: alpha 0, 0.03, 0.06, 0.09 and then 0.1. */
  lemma AlphaFunctionPartialSnapshots(v: View)
    ensures Writes(Run(AlphaFunction(0.1, 0.03, true, Elapsed), v).trace)
      == [AlphaSet(0.0), AlphaSet(0.03), AlphaSet(0.06), AlphaSet(0.09), AlphaSet(0.1)]
  {
    var spec := FunctionSpec(0.1, 0.03, true, AlphaOf(Elapsed));
    var ts := SampleTimes(0.1, 0.03);
    PartialIntervalSamples();
    FunctionWrapperFollowsSchedule(None, spec, v);
    ReplayRecordsSamples(spec, ts, v, None);
    var trace := Replay(spec, ts, v, None).0;
    assert trace[0].write == AlphaSet(0.0);
    assert trace[1].write == AlphaSet(0.03);
    assert trace[2].write == AlphaSet(0.06);
    assert trace[3].write == AlphaSet(0.09);
    assert trace[4].write == AlphaSet(0.1);
  }

  /** A scale function over 0.02 / 0.01 records the raw samples: scale 0, 0.01 and 0.02 on both axes. */
  lemma ScaleFunctionExactSnapshots(v: View)
    ensures Writes(Run(ScaleFunction(0.02, 0.01, true, Diagonal), v).trace)
      == [TransformSet(Scaling(0.0, 0.0)), TransformSet(Scaling(0.01, 0.01)), TransformSet(Scaling(0.02, 0.02))]
  {
    var spec := FunctionSpec(0.02, 0.01, true, ScaleOf(Diagonal));
    var ts := SampleTimes(0.02, 0.01);
    ExactDivisionSamples();
    FunctionWrapperFollowsSchedule(None, spec, v);
    ReplayRecordsSamples(spec, ts, v, None);
    var trace := Replay(spec, ts, v, None).0;
    assert trace[0].write == TransformSet(Scaling(0.0, 0.0));
    assert trace[1].write == TransformSet(Scaling(0.01, 0.01));
    assert trace[2].write == TransformSet(Scaling(0.02, 0.02));
  }

  /** A translate function over 0.1 / 0.03 records the raw samples on both axes: 0, 0.03, 0.06, 0.09 and then 0.1. */
  lemma TranslateFunctionPartialSnapshots(v: View)
    ensures Writes(Run(TranslateFunction(0.1, 0.03, true, Diagonal), v).trace)
      == [TransformSet(Translation(0.0, 0.0)), TransformSet(Translation(0.03, 0.03)), TransformSet(Translation(0.06, 0.06)),
          TransformSet(Translation(0.09, 0.09)), TransformSet(Translation(0.1, 0.1))]
  {
    var spec := FunctionSpec(0.1, 0.03, true, TranslateOf(Diagonal));
    var ts := SampleTimes(0.1, 0.03);
    PartialIntervalSamples();
    FunctionWrapperFollowsSchedule(None, spec, v);
    ReplayRecordsSamples(spec, ts, v, None);
    var trace := Replay(spec, ts, v, None).0;
    assert trace[0].write == TransformSet(Translation(0.0, 0.0));
    assert trace[1].write == TransformSet(Translation(0.03, 0.03));
    assert trace[2].write == TransformSet(Translation(0.06, 0.06));
    assert trace[3].write == TransformSet(Translation(0.09, 0.09));
    assert trace[4].write == TransformSet(Translation(0.1, 0.1));
  }

  /** A single Move on a fresh view takes its center from the origin to (0.2, 0.2). */
  lemma MoveFromOrigin()
    ensures Run(Move(0.2, 0.2, 0.01), InitialView).view.center == Point(0.2, 0.2)
  {
    MoveIsRelative(0.2, 0.2, 0.01, None, InitialView);
  }
}

/**
 * The animation-combinator algebra: a closed datatype of animations, the
 * constructors the library offers for them, and their meaning on a view as
 * the ordered writes made, the view afterwards and how many values the
 * Observable returned by `animate(target:)` emits before it completes.
 */
module Animations {
  import opened Optionals
  import opened AnimationOptions
  import opened Views
  import opened Schedule
  import opened FunctionAnimations

  /**
   * A ReactiveAnimation.  Every node carries the `options` field of the base
   * class; only `Animate` and `FunctionAnimation` read it.
   */
  datatype Animation =
    | Identity(opts: Option<OptionBits>)
    | Mutate(opts: Option<OptionBits>, block: Block)
    | Animate(opts: Option<OptionBits>, duration: real, block: Block)
    | Concat(opts: Option<OptionBits>, left: Animation, right: Animation)
    | Merge(opts: Option<OptionBits>, left: Animation, right: Animation)
    | Delay(opts: Option<OptionBits>, inner: Animation, delayInterval: real)
    | Indefinite(opts: Option<OptionBits>, inner: Animation)
      /** The internal FunctionAnimation class, running with its own options. */
    | FunctionAnimation(opts: Option<OptionBits>, spec: FunctionSpec)
      /** A `*Function` wrapper: builds a fresh FunctionAnimation, so its own options never reach it. */
    | FunctionWrapper(opts: Option<OptionBits>, spec: FunctionSpec)

  // ---------------------------------------------------------------------
  // Constructors of the library (and SetTag, the tests' fixture).  Every
  // leaf completes after emitting once; a `*Function` wrapper completes
  // unless `Int(duration / interval)` traps, and emits only when a sample
  // is appended at the duration.
  // ---------------------------------------------------------------------

  function Alpha(alpha: real, duration: real): (a: Animation)
    ensures Runnable(a) && Emissions(a) == 1
  {
    Animate(None, duration, AssignAlpha(alpha))
  }

  function Rotate(angle: real, duration: real): (a: Animation)
    ensures Runnable(a) && Emissions(a) == 1
  {
    Animate(None, duration, AssignTransform(Rotation(angle)))
  }

  function Scale(factorX: real, factorY: real, duration: real): (a: Animation)
    ensures Runnable(a) && Emissions(a) == 1
  {
    Animate(None, duration, AssignTransform(Scaling(factorX, factorY)))
  }

  function Translate(translationX: real, translationY: real, duration: real): (a: Animation)
    ensures Runnable(a) && Emissions(a) == 1
  {
    Animate(None, duration, AssignTransform(Translation(translationX, translationY)))
  }

  function Move(offsetX: real, offsetY: real, duration: real): (a: Animation)
    ensures Runnable(a) && Emissions(a) == 1
  {
    Animate(None, duration, Offset(offsetX, offsetY))
  }

  function SetIsHidden(isHidden: bool): (a: Animation)
    ensures Runnable(a) && Emissions(a) == 1
  {
    Mutate(None, AssignHidden(isHidden))
  }

  function RemoveAllAnimations(): (a: Animation)
    ensures Runnable(a) && Emissions(a) == 1
  {
    Mutate(None, RemoveLayerAnimations)
  }

  function SetTag(tag: int): (a: Animation)
    ensures Runnable(a) && Emissions(a) == 1
  {
    Mutate(None, AssignTag(tag))
  }

  function AlphaFunction(duration: real, interval: real, isLinear: bool, f: real -> real): (a: Animation)
    ensures Runnable(a) <==> Schedulable(duration, interval)
    ensures Runnable(a) ==> (Emissions(a) == 1 <==> HasRemainder(duration, interval))
  {
    FunctionWrapper(None, FunctionSpec(duration, interval, isLinear, AlphaOf(f)))
  }

  function RotateFunction(duration: real, interval: real, isLinear: bool, f: real -> real): (a: Animation)
    ensures Runnable(a) <==> Schedulable(duration, interval)
    ensures Runnable(a) ==> (Emissions(a) == 1 <==> HasRemainder(duration, interval))
  {
    FunctionWrapper(None, FunctionSpec(duration, interval, isLinear, RotateOf(f)))
  }

  function ScaleFunction(duration: real, interval: real, isLinear: bool, f: real -> (real, real)): (a: Animation)
    ensures Runnable(a) <==> Schedulable(duration, interval)
    ensures Runnable(a) ==> (Emissions(a) == 1 <==> HasRemainder(duration, interval))
  {
    FunctionWrapper(None, FunctionSpec(duration, interval, isLinear, ScaleOf(f)))
  }

  function TranslateFunction(duration: real, interval: real, isLinear: bool, f: real -> (real, real)): (a: Animation)
    ensures Runnable(a) <==> Schedulable(duration, interval)
    ensures Runnable(a) ==> (Emissions(a) == 1 <==> HasRemainder(duration, interval))
  {
    FunctionWrapper(None, FunctionSpec(duration, interval, isLinear, TranslateOf(f)))
  }

  function MoveFunction(duration: real, interval: real, isLinear: bool, f: real -> (real, real)): (a: Animation)
    ensures Runnable(a) <==> Schedulable(duration, interval)
    ensures Runnable(a) ==> (Emissions(a) == 1 <==> HasRemainder(duration, interval))
  {
    FunctionWrapper(None, FunctionSpec(duration, interval, isLinear, MoveOf(f)))
  }

  /** `a.simultaneously(with: b)` */
  function Simultaneously(a: Animation, b: Animation): Animation {
    Merge(None, a, b)
  }

  /** `a & b` */
  function And(a: Animation, b: Animation): Animation {
    Simultaneously(a, b)
  }

  /** `a.followed(by: b)` */
  function Followed(a: Animation, b: Animation): Animation {
    Concat(None, a, b)
  }

  /** `a + b` */
  function Plus(a: Animation, b: Animation): Animation {
    Followed(a, b)
  }

  /** `a.delayed(by: delayInterval)` */
  function Delayed(a: Animation, delayInterval: real): Animation {
    Delay(None, a, delayInterval)
  }

  /** `a.indefinite()` */
  function Repeated(a: Animation): Animation {
    Indefinite(None, a)
  }

  /** `a.with(options: o)`: the same animation with its options replaced. */
  function WithOptions(a: Animation, o: Option<OptionBits>): Animation {
    a.(opts := o)
  }

  // ---------------------------------------------------------------------
  // Semantics
  // ---------------------------------------------------------------------

  /**
   * The animations the model runs: no Indefinite node, and no
   * FunctionAnimation whose `Int(duration / interval)` traps (a zero
   * interval, or a quotient outside `Int`'s range). Each of their
   * Observables completes; some others complete too (an Indefinite node
   * after a stage that emits nothing is never subscribed to).
   */
  predicate Runnable(a: Animation) {
    match a
    case Concat(_, l, r) => Runnable(l) && Runnable(r)
    case Merge(_, l, r) => Runnable(l) && Runnable(r)
    case Delay(_, inner, _) => Runnable(inner)
    case Indefinite(_, _) => false
    case FunctionAnimation(_, spec) => Schedulable(spec.duration, spec.interval)
    case FunctionWrapper(_, spec) => Schedulable(spec.duration, spec.interval)
    case _ => true
  }

  /**
   * `o.flatMap { view in a.animate(target: view) }`: `a` runs once for every
   * value `o` emits, on the view as the previous stage left it, and only the
   * values of those runs come out.
   */
  function Bind(o: Outcome, a: Animation): Outcome
    requires Runnable(a)
    decreases a, 2, 0
  {
    var rest := RunRepeated(a, o.view, o.count);
    Outcome(o.trace + rest.trace, rest.view, rest.count)
  }

  /** `n` runs of `a`, one after another, each on the view the previous one left. */
  function RunRepeated(a: Animation, v: View, n: nat): Outcome
    requires Runnable(a)
    decreases a, 1, n
  {
    if n == 0 then Outcome([], v, 0)
    else
      var first := Run(a, v);
      var rest := RunRepeated(a, first.view, n - 1);
      Outcome(first.trace + rest.trace, rest.view, first.count + rest.count)
  }

  /** `a.animate(target: v)`, run to completion. */
  function Run(a: Animation, v: View): Outcome
    requires Runnable(a)
    decreases a, 0, 0
  {
    match a
    case Identity(_) => Outcome([], v, 1)
    case Mutate(_, b) => Mutation(b, v)
    case Animate(o, d, b) => Execute(d, o, b, v)
    case Concat(_, l, r) => Bind(Run(l, v), r)
    case Merge(_, l, r) =>
      // both branches run on the same target object; the first merged value is skipped
      var lo := Run(l, v);
      var ro := Run(r, lo.view);
      Outcome(lo.trace + ro.trace, ro.view, if lo.count + ro.count == 0 then 0 else lo.count + ro.count - 1)
    case Delay(_, inner, _) => Bind(Outcome([], v, 1), inner)
    case FunctionAnimation(o, spec) => RunFunction(spec, o, v).outcome
    case FunctionWrapper(_, spec) => RunFunction(spec, None, v).outcome
  }

  predicate AllRunnable(anims: seq<Animation>) {
    forall i :: 0 <= i < |anims| ==> Runnable(anims[i])
  }

  /** `anims.reduce(acc) { acc, a in acc.flatMap { view in a.animate(target: view) } }` */
  function FoldFrom(acc: Outcome, anims: seq<Animation>): Outcome
    requires AllRunnable(anims)
    decreases |anims|
  {
    if |anims| == 0 then acc else FoldFrom(Bind(acc, anims[0]), anims[1..])
  }

  /** `v.rx.animate(animations: anims)`, and so also the variadic `v.rx.animate(a, b, ...)`. */
  function AnimateAll(anims: seq<Animation>, v: View): Outcome
    requires AllRunnable(anims)
  {
    FoldFrom(Outcome([], v, 1), anims)
  }

  // ---------------------------------------------------------------------
  // Emissions
  // ---------------------------------------------------------------------

  /**
   * How many values `a.animate(target:)` emits, read off the tree: leaves
   * emit once, Concat multiplies, Merge adds and drops one, a
   * FunctionAnimation emits only its appended step's value.  No animation
   * emits more than once.
   */
  function Emissions(a: Animation): (e: int)
    requires Runnable(a)
    ensures 0 <= e <= 1
  {
    match a
    case Identity(_) => 1
    case Mutate(_, _) => 1
    case Animate(_, _, _) => 1
    case Concat(_, l, r) => Emissions(l) * Emissions(r)
    case Merge(_, l, r) => if Emissions(l) + Emissions(r) == 0 then 0 else Emissions(l) + Emissions(r) - 1
    case Delay(_, inner, _) => Emissions(inner)
    case Indefinite(_, _) => assert false; 0
    case FunctionAnimation(_, spec) => if HasRemainder(spec.duration, spec.interval) then 1 else 0
    case FunctionWrapper(_, spec) => if HasRemainder(spec.duration, spec.interval) then 1 else 0
  }

  /** Running an animation emits as many values as `Emissions` reads off its tree, whatever the view. */
  lemma {:induction false} RunCount(a: Animation, v: View)
    requires Runnable(a)
    ensures Run(a, v).count == Emissions(a)
    decreases a, 0
  {
    match a
    case Identity(_) =>
    case Mutate(_, _) =>
    case Animate(_, _, _) =>
    case Concat(_, l, r) =>
      RunCount(l, v);
      RunRepeatedCount(r, Run(l, v).view, Run(l, v).count);
    case Merge(_, l, r) =>
      RunCount(l, v);
      RunCount(r, Run(l, v).view);
    case Delay(_, inner, _) =>
      RunRepeatedCount(inner, v, 1);
    case FunctionAnimation(o, spec) =>
      FunctionAnimationFollowsSchedule(spec, o, v);
    case FunctionWrapper(_, spec) =>
      FunctionAnimationFollowsSchedule(spec, None, v);
  }

  /** `n` runs emit `n` times as many values as one. */
  lemma {:induction false} RunRepeatedCount(a: Animation, v: View, n: nat)
    requires Runnable(a)
    ensures RunRepeated(a, v, n).count == n * Emissions(a)
    decreases a, 1, n
  {
    if n > 0 {
      var first := Run(a, v);
      RunCount(a, v);
      RunRepeatedCount(a, first.view, n - 1);
      assert RunRepeated(a, v, n).count == first.count + RunRepeated(a, first.view, n - 1).count;
      assert n * Emissions(a) == Emissions(a) + (n - 1) * Emissions(a);
    }
  }

  /** flatMap over a single value runs `a` once on the view it carries. */
  lemma BindSingle(o: Outcome, a: Animation)
    requires Runnable(a) && o.count == 1
    ensures var r := Run(a, o.view);
      Bind(o, a) == Outcome(o.trace + r.trace, r.view, r.count)
  {
    var r := Run(a, o.view);
    assert RunRepeated(a, o.view, 1) == Outcome(r.trace + [], r.view, r.count + 0);
    assert r.trace + [] == r.trace;
  }

  /** flatMap over an Observable that emits nothing never runs `a`. */
  lemma BindSilent(o: Outcome, a: Animation)
    requires Runnable(a) && o.count == 0
    ensures Bind(o, a) == o
  {
    assert o.trace + [] == o.trace;
  }

  // ---------------------------------------------------------------------
  // Concat, Merge, Delay, the identity and options
  // ---------------------------------------------------------------------

  /**
   * Concat runs the right animation on the view the left one emitted: when
   * the left emits once, all of its writes come first and the right's
   * follow; when it emits nothing the right never runs.  It emits the
   * product of the two counts.
   */
  lemma ConcatSequential(o: Option<OptionBits>, l: Animation, r: Animation, v: View)
    requires Runnable(l) && Runnable(r)
    ensures var lo := Run(l, v);
      var ro := Run(r, lo.view);
      && (Emissions(l) == 1 ==> Run(Concat(o, l, r), v) == Outcome(lo.trace + ro.trace, ro.view, ro.count))
      && (Emissions(l) == 0 ==> Run(Concat(o, l, r), v) == lo && lo.count == 0)
      && Run(Concat(o, l, r), v).count == Emissions(l) * Emissions(r)
  {
    RunCount(l, v);
    RunCount(Concat(o, l, r), v);
    if Emissions(l) == 1 {
      BindSingle(Run(l, v), r);
    } else {
      BindSilent(Run(l, v), r);
    }
  }

  /** Running `b` then `c` on what `o` emitted is running their Concat on it, when `o` emits at most once. */
  lemma BindAssociative(o: Outcome, b: Animation, c: Animation, ob: Option<OptionBits>)
    requires Runnable(b) && Runnable(c) && o.count <= 1
    ensures Bind(Bind(o, b), c) == Bind(o, Concat(ob, b, c))
  {
    if o.count == 0 {
      BindSilent(o, b);
      BindSilent(o, c);
      BindSilent(o, Concat(ob, b, c));
    } else {
      BindSingleAssociative(o, b, c, ob);
    }
  }

  lemma BindSingleAssociative(o: Outcome, b: Animation, c: Animation, ob: Option<OptionBits>)
    requires Runnable(b) && Runnable(c) && o.count == 1
    ensures Bind(Bind(o, b), c) == Bind(o, Concat(ob, b, c))
  {
    var rb := Run(b, o.view);
    BindSingle(o, b);
    BindSingle(o, Concat(ob, b, c));
    RunCount(b, o.view);
    if rb.count == 0 {
      BindSilent(Bind(o, b), c);
      BindSilent(rb, c);
    } else {
      var rc := Run(c, rb.view);
      assert Bind(o, b) == Outcome(o.trace + rb.trace, rb.view, 1);
      BindSingle(Bind(o, b), c);
      BindSingle(rb, c);
      assert Bind(rb, c) == Outcome(rb.trace + rc.trace, rc.view, rc.count);
      assert Run(Concat(ob, b, c), o.view) == Bind(rb, c);
      assert (o.trace + rb.trace) + rc.trace == o.trace + (rb.trace + rc.trace);
    }
  }

  /** Concat is associative: both groupings make the same writes in the same order, end on the same view and emit alike. */
  lemma ConcatAssociative(a: Animation, b: Animation, c: Animation, v: View, o1: Option<OptionBits>, o2: Option<OptionBits>, o3: Option<OptionBits>, o4: Option<OptionBits>)
    requires Runnable(a) && Runnable(b) && Runnable(c)
    ensures Run(Concat(o1, Concat(o2, a, b), c), v) == Run(Concat(o3, a, Concat(o4, b, c)), v)
  {
    RunCount(a, v);
    BindAssociative(Run(a, v), b, c, o4);
  }

  /** The base animation is a unit of Concat on either side. */
  lemma IdentityIsUnit(a: Animation, v: View, o1: Option<OptionBits>, o2: Option<OptionBits>)
    requires Runnable(a)
    ensures Run(Concat(o1, Identity(o2), a), v) == Run(a, v)
    ensures Run(Concat(o1, a, Identity(o2)), v) == Run(a, v)
  {
    var ra := Run(a, v);
    BindSingle(Outcome([], v, 1), a);
    assert [] + ra.trace == ra.trace;
    RunCount(a, v);
    if Emissions(a) == 0 {
      BindSilent(ra, Identity(o2));
    } else {
      BindSingle(ra, Identity(o2));
      assert ra.trace + [] == ra.trace;
    }
  }

  /** The base animation run any number of times in a row writes nothing, leaves the view as it was and emits once per run. */
  lemma {:induction false} IdentityRepeated(o: Option<OptionBits>, v: View, n: nat)
    ensures RunRepeated(Identity(o), v, n) == Outcome([], v, n)
    decreases n
  {
    if n > 0 {
      IdentityRepeated(o, v, n - 1);
      assert RunRepeated(Identity(o), v, n) == Outcome([] + [], v, 1 + (n - 1));
    }
  }

  /**
   * The operators build the same nodes as the methods they abbreviate, with
   * the receiver on the left; `delayed(by:)` and `indefinite()` wrap the
   * receiver and leave it as it was; every new node starts with nil options.
   */
  lemma CombinatorsKeepOperandOrder(a: Animation, b: Animation, delayInterval: real)
    ensures And(a, b) == Simultaneously(a, b) == Merge(None, a, b)
    ensures Plus(a, b) == Followed(a, b) == Concat(None, a, b)
    ensures Delayed(a, delayInterval) == Delay(None, a, delayInterval) && Delayed(a, delayInterval).inner == a
    ensures Repeated(a) == Indefinite(None, a) && Repeated(a).inner == a
  {
  }

  /**
   * Merge starts both branches on the same target, so the right branch runs
   * even when the left emits nothing; it emits once exactly when both
   * branches do, which is `max(0, countL + countR - 1)`.
   */
  lemma MergeRunsBoth(o: Option<OptionBits>, l: Animation, r: Animation, v: View)
    requires Runnable(l) && Runnable(r)
    ensures var lo := Run(l, v);
      var ro := Run(r, lo.view);
      var m := Run(Merge(o, l, r), v);
      && m.trace == lo.trace + ro.trace
      && m.view == ro.view
      && m.count == (if Emissions(l) + Emissions(r) == 0 then 0 else Emissions(l) + Emissions(r) - 1)
      && (m.count == 1 <==> Emissions(l) == 1 && Emissions(r) == 1)
  {
    RunCount(l, v);
    RunCount(r, Run(l, v).view);
  }

  /**
   * Merge and Concat emit alike; they differ in what runs only when the left
   * branch emits nothing, where Concat stops and Merge still runs the right.
   */
  lemma MergeAgainstConcat(o1: Option<OptionBits>, o2: Option<OptionBits>, l: Animation, r: Animation, v: View)
    requires Runnable(l) && Runnable(r)
    ensures Run(Merge(o1, l, r), v).count == Run(Concat(o2, l, r), v).count
    ensures Emissions(l) == 1 ==> Run(Merge(o1, l, r), v) == Run(Concat(o2, l, r), v)
    ensures Emissions(l) == 0 ==>
      && Run(Concat(o2, l, r), v) == Run(l, v)
      && Run(Merge(o1, l, r), v).trace == Run(l, v).trace + Run(r, Run(l, v).view).trace
  {
    MergeRunsBoth(o1, l, r, v);
    ConcatSequential(o2, l, r, v);
  }

  /** A delayed animation makes exactly the writes of the animation it wraps, and emits as it does. */
  lemma DelayedRunsInner(o: Option<OptionBits>, a: Animation, delayInterval: real, v: View)
    requires Runnable(a)
    ensures Run(Delay(o, a, delayInterval), v) == Run(a, v)
  {
    BindSingle(Outcome([], v, 1), a);
    assert [] + Run(a, v).trace == Run(a, v).trace;
  }

  /** `with(options:)` replaces what was there: the last call wins, and repeating a call changes nothing. */
  lemma WithOptionsReplaces(a: Animation, o1: Option<OptionBits>, o2: Option<OptionBits>)
    ensures WithOptions(a, o1).opts == o1
    ensures WithOptions(WithOptions(a, o1), o2) == WithOptions(a, o2)
    ensures WithOptions(WithOptions(a, o1), o1) == WithOptions(a, o1)
  {
  }

  /**
   * Options reach the executor only through Animate (and the internal
   * FunctionAnimation); on every other node they change nothing.
   */
  lemma OptionsReachOnlyExecutors(a: Animation, o: Option<OptionBits>, v: View)
    requires Runnable(a)
    ensures Runnable(WithOptions(a, o))
    ensures !a.Animate? && !a.FunctionAnimation? ==> Run(WithOptions(a, o), v) == Run(a, v)
    ensures a.Animate? ==> Run(WithOptions(a, o), v) == Execute(a.duration, o, a.block, v)
  {
  }

  // ---------------------------------------------------------------------
  // The convenience animations
  // ---------------------------------------------------------------------

  /**
   * Alpha, Rotate, Scale and Translate set their property to the given value
   * whatever it was, in one animated write that lasts `duration` and uses
   * the options given to the wrapper; each emits once.
   */
  lemma AbsoluteAnimationsSetTheirProperty(x: real, y: real, duration: real, o: Option<OptionBits>, v: View)
    ensures var timing := Animated(duration, 0.0, o.GetOr({}));
      && Run(WithOptions(Alpha(x, duration), o), v)
        == Outcome([Effect(AlphaSet(x), timing)], v.(alpha := x), 1)
      && Run(WithOptions(Rotate(x, duration), o), v)
        == Outcome([Effect(TransformSet(Rotation(x)), timing)], v.(transform := Rotation(x)), 1)
      && Run(WithOptions(Scale(x, y, duration), o), v)
        == Outcome([Effect(TransformSet(Scaling(x, y)), timing)], v.(transform := Scaling(x, y)), 1)
      && Run(WithOptions(Translate(x, y, duration), o), v)
        == Outcome([Effect(TransformSet(Translation(x, y)), timing)], v.(transform := Translation(x, y)), 1)
  {
    BlockChangesOneProperty(AssignAlpha(x), v);
    BlockChangesOneProperty(AssignTransform(Rotation(x)), v);
    BlockChangesOneProperty(AssignTransform(Scaling(x, y)), v);
    BlockChangesOneProperty(AssignTransform(Translation(x, y)), v);
  }

  /** Move is relative: the center becomes the current center plus the offset. */
  lemma MoveIsRelative(dx: real, dy: real, duration: real, o: Option<OptionBits>, v: View)
    ensures var moved := Point(v.center.x + dx, v.center.y + dy);
      Run(WithOptions(Move(dx, dy, duration), o), v)
        == Outcome([Effect(CenterSet(moved), Animated(duration, 0.0, o.GetOr({})))], v.(center := moved), 1)
  {
    var moved := Point(v.center.x + dx, v.center.y + dy);
    assert WithOptions(Move(dx, dy, duration), o) == Animate(o, duration, Offset(dx, dy));
    assert BlockWrite(Offset(dx, dy), v) == CenterSet(moved);
    BlockChangesOneProperty(Offset(dx, dy), v);
  }

  /** The mutators write at once, outside any UIView.animate call, ignore options and emit once. */
  lemma MutatorsApplyAtOnce(isHidden: bool, tag: int, o: Option<OptionBits>, v: View)
    ensures Run(WithOptions(SetIsHidden(isHidden), o), v)
      == Outcome([Effect(HiddenSet(isHidden), Immediate)], v.(isHidden := isHidden), 1)
    ensures Run(WithOptions(SetTag(tag), o), v)
      == Outcome([Effect(TagSet(tag), Immediate)], v.(tag := tag), 1)
    ensures Run(WithOptions(RemoveAllAnimations(), o), v)
      == Outcome([Effect(AnimationsRemoved, Immediate)], v, 1)
  {
    BlockChangesOneProperty(AssignHidden(isHidden), v);
    BlockChangesOneProperty(AssignTag(tag), v);
    BlockChangesOneProperty(RemoveLayerAnimations, v);
  }

  // ---------------------------------------------------------------------
  // The function-based wrappers
  // ---------------------------------------------------------------------

  /**
   * A `*Function` wrapper runs one sub-animation per sample time of its
   * schedule, in order, each lasting one interval with delay 0; its own
   * options never reach them, so with isLinear every one gets exactly
   * .curveLinear and without it the empty option set.  It emits one value
   * when a sample was appended and none otherwise.
   */
  lemma FunctionWrapperFollowsSchedule(o: Option<OptionBits>, spec: FunctionSpec, v: View)
    requires Schedulable(spec.duration, spec.interval)
    ensures var r := Run(FunctionWrapper(o, spec), v);
      var p := Replay(spec, SampleTimes(spec.duration, spec.interval), v, None);
      && r.trace == p.0 && r.view == p.1
      && r.count == (if HasRemainder(spec.duration, spec.interval) then 1 else 0)
      && forall i :: 0 <= i < |r.trace| ==>
        r.trace[i].timing == Animated(spec.interval, 0.0, if spec.isLinear then CurveLinear else {})
  {
    var times := SampleTimes(spec.duration, spec.interval);
    FunctionAnimationFollowsSchedule(spec, None, v);
    ReplayTimings(spec, times, v, None);
    if spec.isLinear {
      ReplayLinearStable(spec, times, v, None);
    } else {
      ReplayPassesOptionsThrough(spec, times, v, None);
    }
  }

  /**
   * `Int(duration / interval)` traps when the quotient leaves `Int`'s range,
   * so a function animation of 10^20 one-second steps has no run, while the
   * 0.1 / 0.03 one of the tests does.
   */
  lemma StepCountOutOfRangeTraps(f: real -> real)
    ensures !Runnable(AlphaFunction(100000000000000000000.0, 1.0, true, f))
    ensures Runnable(AlphaFunction(0.1, 0.03, true, f))
  {
    assert StepMax(100000000000000000000.0, 1.0) == 100000000000000000000;
    PartialIntervalSamples();
  }

  /**
   * A FunctionAnimation whose duration is a whole multiple of its interval
   * emits nothing, so whatever follows it never runs.
   */
  lemma ExactFunctionAnimationBlocksFollower(o: Option<OptionBits>, spec: FunctionSpec, next: Animation, v: View)
    requires Schedulable(spec.duration, spec.interval) && !HasRemainder(spec.duration, spec.interval) && Runnable(next)
    ensures Run(Followed(FunctionWrapper(o, spec), next), v) == Run(FunctionWrapper(o, spec), v)
    ensures Run(Followed(FunctionWrapper(o, spec), next), v).count == 0
  {
    RunCount(FunctionWrapper(o, spec), v);
    BindSilent(Run(FunctionWrapper(o, spec), v), next);
  }

  // ---------------------------------------------------------------------
  // The fold `animate(animations:)`
  // ---------------------------------------------------------------------

  /** `anims` chained with `followed(by:)` onto the base animation, from the left. */
  function ChainOf(anims: seq<Animation>): (c: Animation)
    ensures AllRunnable(anims) ==> Runnable(c)
    decreases |anims|
  {
    if |anims| == 0 then Identity(None)
    else Followed(ChainOf(anims[..|anims| - 1]), anims[|anims| - 1])
  }

  /** Folding one more animation runs it on what the fold so far emitted. */
  lemma {:induction false} FoldFromSnoc(acc: Outcome, anims: seq<Animation>, a: Animation)
    requires AllRunnable(anims) && Runnable(a)
    ensures AllRunnable(anims + [a])
    ensures FoldFrom(acc, anims + [a]) == Bind(FoldFrom(acc, anims), a)
    decreases |anims|
  {
    var all := anims + [a];
    assert forall i :: 0 <= i < |all| ==> all[i] == if i < |anims| then anims[i] else a;
    if |anims| == 0 {
      assert all[1..] == [];
    } else {
      assert all[0] == anims[0];
      assert all[1..] == anims[1..] + [a];
      FoldFromSnoc(Bind(acc, anims[0]), anims[1..], a);
    }
  }

  /**
   * The fold runs from left to right, each animation on the view the previous
   * stage emitted: it is the left-nested `followed(by:)` chain started from
   * the base animation.
   */
  lemma {:induction false} FoldIsFollowedChain(anims: seq<Animation>, v: View)
    requires AllRunnable(anims)
    ensures AnimateAll(anims, v) == Run(ChainOf(anims), v)
    decreases |anims|
  {
    if |anims| > 0 {
      var init := anims[..|anims| - 1];
      var last := anims[|anims| - 1];
      assert anims == init + [last];
      FoldFromSnoc(Outcome([], v, 1), init, last);
      FoldIsFollowedChain(init, v);
    }
  }

  /** Folding over an Observable that emitted nothing changes nothing. */
  lemma {:induction false} FoldFromSilent(acc: Outcome, anims: seq<Animation>)
    requires AllRunnable(anims) && acc.count == 0
    ensures FoldFrom(acc, anims) == acc
    decreases |anims|
  {
    if |anims| > 0 {
      BindSilent(acc, anims[0]);
      FoldFromSilent(acc, anims[1..]);
    }
  }

  /** Folding a list in two parts: the second part continues from what the first produced. */
  lemma {:induction false} FoldFromAppend(acc: Outcome, xs: seq<Animation>, ys: seq<Animation>)
    requires AllRunnable(xs) && AllRunnable(ys)
    ensures AllRunnable(xs + ys)
    ensures FoldFrom(acc, xs + ys) == FoldFrom(FoldFrom(acc, xs), ys)
    decreases |xs|
  {
    var all := xs + ys;
    assert forall i :: 0 <= i < |all| ==> all[i] == if i < |xs| then xs[i] else ys[i - |xs|];
    if |xs| > 0 {
      assert all[0] == xs[0];
      assert all[1..] == xs[1..] + ys;
      FoldFromAppend(Bind(acc, xs[0]), xs[1..], ys);
    } else {
      assert all == ys;
    }
  }

  /**
   * An animation that emits nothing ends the fold: the animations after it
   * never run, and the whole Observable emits nothing.
   */
  lemma SilentStageStopsFold(anims: seq<Animation>, i: int, v: View)
    requires AllRunnable(anims) && 0 <= i < |anims| && Emissions(anims[i]) == 0
    ensures AllRunnable(anims[..i + 1])
    ensures AnimateAll(anims, v) == AnimateAll(anims[..i + 1], v)
    ensures AnimateAll(anims, v).count == 0
  {
    var head := anims[..i];
    var upTo := anims[..i + 1];
    var tail := anims[i + 1..];
    var start := Outcome([], v, 1);
    assert upTo == head + [anims[i]];
    assert anims == upTo + tail;
    FoldFromSnoc(start, head, anims[i]);
    RunRepeatedCount(anims[i], FoldFrom(start, head).view, FoldFrom(start, head).count);
    FoldFromAppend(start, upTo, tail);
    FoldFromSilent(FoldFrom(start, upTo), tail);
  }

  /** A left-nested chain emits once exactly when every animation in it does. */
  lemma {:induction false} ChainEmissions(anims: seq<Animation>)
    requires AllRunnable(anims)
    ensures Emissions(ChainOf(anims)) == 1 <==> forall i :: 0 <= i < |anims| ==> Emissions(anims[i]) == 1
    decreases |anims|
  {
    if |anims| > 0 {
      var init := anims[..|anims| - 1];
      var last := anims[|anims| - 1];
      ChainEmissions(init);
      assert forall i :: 0 <= i < |init| ==> init[i] == anims[i];
    }
  }

  /** The fold emits the view once exactly when every listed animation emits once, and otherwise nothing. */
  lemma FoldEmitsOnceIffAllDo(anims: seq<Animation>, v: View)
    requires AllRunnable(anims)
    ensures AnimateAll(anims, v).count == 1 <==> forall i :: 0 <= i < |anims| ==> Emissions(anims[i]) == 1
    ensures AnimateAll(anims, v).count <= 1
  {
    FoldIsFollowedChain(anims, v);
    RunCount(ChainOf(anims), v);
    ChainEmissions(anims);
  }
}

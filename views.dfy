/**
 * The animated view: the properties the library's blocks write, the blocks
 * themselves, and the single-shot executor `rx.animate(duration:options:block:)`.
 */
module Views {
  import opened Optionals
  import opened AnimationOptions

  datatype Point = Point(x: real, y: real)

  /** A CGAffineTransform, as the constructor the library builds it with. */
  datatype Transform =
    | IdentityTransform
    | Rotation(angle: real)
    | Scaling(sx: real, sy: real)
    | Translation(tx: real, ty: real)

  datatype View = View(tag: int, isHidden: bool, alpha: real, transform: Transform, center: Point)

  /** A freshly created view: zero frame, opaque, untransformed, tag 0. */
  const InitialView := View(0, false, 1.0, IdentityTransform, Point(0.0, 0.0))

  /** The mutation closures the library hands to Mutate and Animate (and SetTag, the tests' fixture). */
  datatype Block =
    | AssignTag(newTag: int)
    | AssignHidden(hidden: bool)
    | AssignAlpha(newAlpha: real)
    | AssignTransform(newTransform: Transform)
    | Offset(dx: real, dy: real)
    | RemoveLayerAnimations

  /** One property write, as an observer on the view records it. */
  datatype Write =
    | TagSet(tag: int)
    | HiddenSet(hidden: bool)
    | AlphaSet(alpha: real)
    | TransformSet(transform: Transform)
    | CenterSet(center: Point)
    | AnimationsRemoved

  /** How a write was performed: synchronously, or inside one UIView.animate call. */
  datatype Timing = Immediate | Animated(duration: real, delay: real, options: OptionBits)

  datatype Effect = Effect(write: Write, timing: Timing)

  /**
   * What running an animation on a view amounts to: the ordered effects, the
   * view afterwards, and how many values the resulting Observable emits
   * before it completes.
   */
  datatype Outcome = Outcome(trace: seq<Effect>, view: View, count: nat)

  /** The write a block performs on view `v`; `Offset` reads the current center first. */
  function BlockWrite(b: Block, v: View): Write {
    match b
    case AssignTag(t) => TagSet(t)
    case AssignHidden(h) => HiddenSet(h)
    case AssignAlpha(a) => AlphaSet(a)
    case AssignTransform(t) => TransformSet(t)
    case Offset(dx, dy) => CenterSet(Point(v.center.x + dx, v.center.y + dy))
    case RemoveLayerAnimations => AnimationsRemoved
  }

  function ApplyWrite(w: Write, v: View): View {
    match w
    case TagSet(t) => v.(tag := t)
    case HiddenSet(h) => v.(isHidden := h)
    case AlphaSet(a) => v.(alpha := a)
    case TransformSet(t) => v.(transform := t)
    case CenterSet(c) => v.(center := c)
    case AnimationsRemoved => v
  }

  /** The view after running block `b` on it. */
  function ApplyBlock(b: Block, v: View): View {
    ApplyWrite(BlockWrite(b, v), v)
  }

  /**
   * Each block changes the one property it writes and nothing else: absolute
   * blocks set their property, `Offset` moves the center relative to where it
   * was, and clearing the layer's animations leaves every property alone.
   */
  lemma BlockChangesOneProperty(b: Block, v: View)
    ensures b.AssignTag? ==> ApplyBlock(b, v) == v.(tag := b.newTag)
    ensures b.AssignHidden? ==> ApplyBlock(b, v) == v.(isHidden := b.hidden)
    ensures b.AssignAlpha? ==> ApplyBlock(b, v) == v.(alpha := b.newAlpha)
    ensures b.AssignTransform? ==> ApplyBlock(b, v) == v.(transform := b.newTransform)
    ensures b.Offset? ==> ApplyBlock(b, v) == v.(center := Point(v.center.x + b.dx, v.center.y + b.dy))
    ensures b.RemoveLayerAnimations? ==> ApplyBlock(b, v) == v
  {
  }

  /** The writes of a trace, in order. */
  function Writes(trace: seq<Effect>): (ws: seq<Write>)
    ensures |ws| == |trace|
    ensures forall i :: 0 <= i < |trace| ==> ws[i] == trace[i].write
  {
    if trace == [] then [] else [trace[0].write] + Writes(trace[1..])
  }

  /**
   * `rx.animate(duration:options:block:)`: one UIView.animate call with delay 0
   * and `options ?? []` that runs the block on the view, then emits the view
   * once and completes.
   */
  function Execute(duration: real, options: Option<OptionBits>, b: Block, v: View): (o: Outcome)
    ensures o.count == 1 && o.view == ApplyBlock(b, v)
    ensures |o.trace| == 1 && o.trace[0].write == BlockWrite(b, v)
    ensures o.trace[0].timing.Animated? && o.trace[0].timing.duration == duration && o.trace[0].timing.delay == 0.0
    ensures options.None? ==> o.trace[0].timing.options == {}
    ensures options.Some? ==> o.trace[0].timing.options == options.value
  {
    Outcome([Effect(BlockWrite(b, v), Animated(duration, 0.0, options.GetOr({})))], ApplyBlock(b, v), 1)
  }

  /**
   * `Mutate.animate(target:)`: runs the block at once, outside any
   * UIView.animate call, then emits the view once and completes.
   */
  function Mutation(b: Block, v: View): (o: Outcome)
    ensures o.count == 1 && o.view == ApplyBlock(b, v)
    ensures |o.trace| == 1 && o.trace[0].write == BlockWrite(b, v) && o.trace[0].timing == Immediate
  {
    Outcome([Effect(BlockWrite(b, v), Immediate)], ApplyBlock(b, v), 1)
  }

  /** The view object itself, whose properties the blocks assign in place; `log` is what property observers record. */
  class TargetView {
    var tag: int
    var isHidden: bool
    var alpha: real
    var transform: Transform
    var center: Point
    var log: seq<Effect>

    function Snapshot(): View
      reads this
    {
      View(tag, isHidden, alpha, transform, center)
    }

    constructor (v: View)
      ensures Snapshot() == v && log == []
    {
      tag, isHidden, alpha, transform, center := v.tag, v.isHidden, v.alpha, v.transform, v.center;
      log := [];
    }

    /** Runs block `b` on this view, recording the write it makes. */
    method Perform(b: Block, timing: Timing)
      modifies this
      ensures Snapshot() == ApplyBlock(b, old(Snapshot()))
      ensures log == old(log) + [Effect(BlockWrite(b, old(Snapshot())), timing)]
    {
      log := log + [Effect(BlockWrite(b, Snapshot()), timing)];
      match b
      case AssignTag(t) => tag := t;
      case AssignHidden(h) => isHidden := h;
      case AssignAlpha(a) => alpha := a;
      case AssignTransform(t) => transform := t;
      case Offset(dx, dy) =>
        var currentCenter := center;
        center := Point(currentCenter.x + dx, currentCenter.y + dy);
      case RemoveLayerAnimations =>
    }

    /** `rx.animate(duration:options:block:)` on this view; returns the number of values emitted. */
    method Animate(duration: real, options: Option<OptionBits>, b: Block) returns (emissions: nat)
      modifies this
      ensures var o := Execute(duration, options, b, old(Snapshot()));
        Snapshot() == o.view && log == old(log) + o.trace && emissions == o.count
    {
      Perform(b, Animated(duration, 0.0, options.GetOr({})));
      emissions := 1;
    }

    /** `Mutate.animate(target:)` on this view: the block runs at once, then the view is emitted once. */
    method Mutate(b: Block) returns (emissions: nat)
      modifies this
      ensures var o := Mutation(b, old(Snapshot()));
        Snapshot() == o.view && log == old(log) + o.trace && emissions == o.count
    {
      Perform(b, Immediate);
      emissions := 1;
    }
  }
}

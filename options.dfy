/** Swift's Optional, as the combinators use it for their `options` field. */
module Optionals {

  datatype Option<+T> = None | Some(value: T) {

    /** `self ?? default` */
    function GetOr(default: T): T {
      match this
      case Some(v) => v
      case None => default
    }
  }
}

/**
 * UIView.AnimationOptions, an OptionSet over a bit mask, modelled as the set of
 * bit positions that are set in its raw value.  The curve occupies a two-bit
 * field: `.curveEaseIn` is 1 << 16, `.curveEaseOut` 2 << 16 and `.curveLinear`
 * 3 << 16, so `.curveLinear` holds both bits.
 */
module AnimationOptions {
  import opened Optionals

  type OptionBits = set<nat>

  const CurveEaseIn: OptionBits := {16}
  const CurveEaseOut: OptionBits := {17}
  const CurveLinear: OptionBits := {16, 17}

  /**
   * `OptionSet.update(with:)` of the Swift standard library: the receiver
   * becomes its union with `newMember`, and the call returns the part of
   * `newMember` that was already present, or nil when none of it was.
   * The first component is the receiver afterwards, the second the result.
   */
  function Update(s: OptionBits, newMember: OptionBits): (r: (OptionBits, Option<OptionBits>))
    ensures s <= r.0 && newMember <= r.0
    ensures forall x :: x in r.0 ==> x in s || x in newMember
    ensures r.1.None? <==> s !! newMember
    ensures r.1.Some? ==> r.1.value == s * newMember && r.1.value <= newMember
  {
    var common := s * newMember;
    assert common == {} <==> s !! newMember by {
      if common == {} {
        forall x | x in s ensures x !in newMember {
          assert x !in common;
        }
      }
    }
    (s + newMember, if common == {} then None else Some(common))
  }

  /**
   * The options a FunctionAnimation hands to one sub-animation, as
   * `isLinear ? (options?.update(with: .curveLinear) ?? .curveLinear) : options`
   * computes them.  The first component is the argument of the sub-animation's
   * `with(options:)`, the second the FunctionAnimation's own `options` afterwards
   * (the optional chaining updates them in place when they are not nil).
   */
  function SubAnimationOptions(isLinear: bool, stored: Option<OptionBits>): (r: (Option<OptionBits>, Option<OptionBits>))
    // without isLinear the options pass through and nothing changes
    ensures !isLinear ==> r.0 == stored && r.1 == stored
    // nil options stay nil, and the sub-animation gets exactly .curveLinear
    ensures isLinear && stored.None? ==> r.0 == Some(CurveLinear) && r.1.None?
    // non-nil options get .curveLinear inserted
    ensures isLinear && stored.Some? ==> r.1 == Some(stored.value + CurveLinear)
    // the sub-animation gets exactly .curveLinear unless the stored options held one curve bit only
    ensures isLinear ==>
      (r.0 == Some(CurveLinear) <==>
        stored.None? || CurveLinear <= stored.value || stored.value !! CurveLinear)
    // in that case it gets the partial curve that was stored
    ensures isLinear && r.0 != Some(CurveLinear) ==>
      stored.Some? && r.0 == Some(stored.value * CurveLinear) && r.0.value != {}
  {
    if !isLinear then (stored, stored)
    else
      match stored
      case None => (Some(CurveLinear), None)
      case Some(o) =>
        var u := Update(o, CurveLinear);
        assert u.1.GetOr(CurveLinear) == CurveLinear <==> CurveLinear <= o || o !! CurveLinear by {
          if 16 in o && 17 in o {
            assert o * CurveLinear == CurveLinear;
          }
        }
        (Some(u.1.GetOr(CurveLinear)), Some(u.0))
  }

  /** Once the stored options are nil or hold .curveLinear, every later step gets exactly .curveLinear and keeps them so. */
  lemma LinearOptionsAreStable(stored: Option<OptionBits>)
    requires stored.None? || CurveLinear <= stored.value
    ensures SubAnimationOptions(true, stored) == (Some(CurveLinear), stored)
  {
    if stored.Some? {
      assert stored.value + CurveLinear == stored.value;
    }
  }
}

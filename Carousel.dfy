/** The arc carousel (src/components/Carousel3D.tsx): cards laid out on a
    90-degree arc and turned toward its centre, one active card that a
    click changes while the card group turns, and a per-frame opacity
    that chases 1 for the active card and 0.4 for the others. */
module Carousel {
  import opened Reals

  /** Math.PI * 0.5 as the double the page computes. */
  const ArcAngle: real := 1.5707963267948966
  /** The number of projects the scene shows. */
  const CardCount: nat := 5
  const FacingFactor: real := 0.7
  const ActiveOpacity: real := 1.0
  const InactiveOpacity: real := 0.4
  const Smoothing: real := 0.1

  // --------------------------------------------------------------- layout

  /** The angle between neighbouring cards: n - 1 steps span the arc. */
  function AngleStep(n: nat): (step: real)
    requires n >= 2
    ensures step > 0.0
    ensures (n - 1) as real * step == ArcAngle
  {
    ArcAngle / (n - 1) as real
  }

  function BaseAngle(index: nat, n: nat): real
    requires n >= 2
  {
    -ArcAngle / 2.0 + index as real * AngleStep(n)
  }

  /** The first card sits at the left end of the arc, the last at the right
      end, and every card lies on the arc. */
  lemma BaseAngleSpansArc(index: nat, n: nat)
    requires n >= 2 && index < n
    ensures BaseAngle(0, n) == -ArcAngle / 2.0
    ensures BaseAngle(n - 1, n) == ArcAngle / 2.0
    ensures -ArcAngle / 2.0 <= BaseAngle(index, n) <= ArcAngle / 2.0
  {
  }

  /** Base angles strictly increase with the card index. */
  lemma BaseAngleIncreasing(i: nat, j: nat, n: nat)
    requires n >= 2 && i < j
    ensures BaseAngle(i, n) < BaseAngle(j, n)
  {
  }

  /** With an odd number of cards the middle card sits at angle 0. */
  lemma MiddleCardAtZero(n: nat)
    requires n >= 3 && n % 2 == 1
    ensures BaseAngle(n / 2, n) == 0.0
  {
  }

  /** The card's turn about its vertical axis: 70 % of its base angle,
      the other way, so every card faces partly toward the centre. */
  function RotationY(index: nat, n: nat): (r: real)
    requires n >= 2
    ensures BaseAngle(index, n) > 0.0 ==> r < 0.0
    ensures BaseAngle(index, n) < 0.0 ==> r > 0.0
    ensures BaseAngle(index, n) == 0.0 <==> r == 0.0
    ensures Abs(r) < Abs(BaseAngle(index, n)) || r == 0.0
  {
    -BaseAngle(index, n) * FacingFactor
  }

  // ----------------------------------------------------------- active card

  function InitialActive(n: nat): nat {
    n / 2
  }

  /** The group rotation that rotateToCard hands to the tween. */
  function TargetAngle(target: nat, n: nat): real
    requires n >= 2
  {
    (target - n / 2) as real * AngleStep(n)
  }

  /** The initially active card needs no group rotation, and with the five
      project cards it is card 2, which sits at angle 0. */
  lemma InitialCardCentred(n: nat)
    requires n >= 2
    ensures TargetAngle(InitialActive(n), n) == 0.0
    ensures InitialActive(CardCount) == 2 && BaseAngle(InitialActive(CardCount), CardCount) == 0.0
  {
  }

  /** The group rotation for a card is that card's base angle when the
      number of cards is odd, and half a step less when it is even. */
  lemma TargetAngleIsBaseAngle(target: nat, n: nat)
    requires n >= 2
    ensures n % 2 == 1 ==> TargetAngle(target, n) == BaseAngle(target, n)
    ensures n % 2 == 0 ==> TargetAngle(target, n) == BaseAngle(target, n) - AngleStep(n) / 2.0
  {
  }

  predicate IsActiveCard(index: nat, activeIndex: nat) {
    index == activeIndex
  }

  /** Exactly one card of the scene is active: the one at activeIndex. */
  lemma ExactlyOneActive(activeIndex: nat, n: nat)
    requires activeIndex < n
    ensures (set i: nat | i < n && IsActiveCard(i, activeIndex)) == {activeIndex}
  {
  }

  /** The scene's state: which card is active, whether the card group is
      mounted, and the group rotation the last tween was sent toward
      (0, the group's initial rotation, before any tween). */
  class Scene {
    const cardCount: nat
    var activeIndex: nat
    var groupMounted: bool
    var rotationTarget: real

    ghost predicate Valid()
      reads this
    {
      cardCount >= 2 && activeIndex < cardCount
      && rotationTarget == TargetAngle(activeIndex, cardCount)
    }

    constructor (n: nat)
      requires n >= 2
      ensures Valid()
      ensures cardCount == n && activeIndex == InitialActive(n)
      ensures !groupMounted && rotationTarget == 0.0
    {
      cardCount := n;
      activeIndex := n / 2;
      groupMounted := false;
      rotationTarget := 0.0;
      new;
      InitialCardCentred(n);
    }

    /** The group element has been attached to its ref. */
    method MountGroup()
      requires Valid()
      modifies this
      ensures Valid() && groupMounted
      ensures activeIndex == old(activeIndex) && rotationTarget == old(rotationTarget)
    {
      groupMounted := true;
    }

    function IsActive(index: nat): bool
      reads this
    {
      IsActiveCard(index, activeIndex)
    }

    /** A click on card `target`: nothing happens without a group or when
        the card is already active; otherwise it becomes the active card
        and the group turns toward its angle. */
    method RotateToCard(target: nat)
      requires Valid() && target < cardCount
      modifies this
      ensures Valid() && groupMounted == old(groupMounted)
      ensures !old(groupMounted) || target == old(activeIndex) ==>
        activeIndex == old(activeIndex) && rotationTarget == old(rotationTarget)
      ensures old(groupMounted) && target != old(activeIndex) ==>
        activeIndex == target && rotationTarget == TargetAngle(target, cardCount)
      ensures IsActive(target) || !groupMounted
    {
      if !groupMounted || target == activeIndex {
        return;
      }
      activeIndex := target;
      rotationTarget := TargetAngle(target, cardCount);
    }
  }

  // -------------------------------------------------------------- opacity

  function TargetOpacity(active: bool): real {
    if active then ActiveOpacity else InactiveOpacity
  }

  /** One frame of the opacity chase: a tenth of the way to the target. */
  function OpacityStep(o: real, target: real): (o': real)
    ensures MinReal(o, target) <= o' <= MaxReal(o, target)
    ensures Abs(target - o') == 0.9 * Abs(target - o)
  {
    o + (target - o) * Smoothing
  }

  /** The opacity after `frames` frames with the same target. */
  function Chase(o: real, target: real, frames: nat): real
    decreases frames
  {
    if frames == 0 then o else Chase(OpacityStep(o, target), target, frames - 1)
  }

  function Power(x: real, k: nat): real {
    if k == 0 then 1.0 else x * Power(x, k - 1)
  }

  /** After k frames the gap to the target is 0.9^k of the initial gap. */
  lemma {:induction false} ChaseGap(o: real, target: real, frames: nat)
    ensures target - Chase(o, target, frames) == Power(0.9, frames) * (target - o)
    decreases frames
  {
    if frames > 0 {
      var o' := OpacityStep(o, target);
      ChaseGap(o', target, frames - 1);
      assert target - o' == 0.9 * (target - o);
    }
  }

  /** An opacity in [0.4, 1] stays there whichever card is active. */
  lemma {:induction false} ChaseStaysInRange(o: real, active: bool, frames: nat)
    requires InactiveOpacity <= o <= ActiveOpacity
    ensures InactiveOpacity <= Chase(o, TargetOpacity(active), frames) <= ActiveOpacity
    decreases frames
  {
    if frames > 0 {
      ChaseStaysInRange(OpacityStep(o, TargetOpacity(active)), active, frames - 1);
    }
  }

  /** A card's material: its opacity starts at the target for its initial
      role and then moves once per rendered frame. */
  class CardMaterial {
    var opacity: real

    constructor (active: bool)
      ensures opacity == TargetOpacity(active)
    {
      opacity := TargetOpacity(active);
    }

    /** The frame callback; it does nothing while the mesh is not mounted. */
    method OnFrame(meshMounted: bool, active: bool)
      modifies this
      ensures meshMounted ==> opacity == OpacityStep(old(opacity), TargetOpacity(active))
      ensures !meshMounted ==> opacity == old(opacity)
      ensures InactiveOpacity <= old(opacity) <= ActiveOpacity ==>
        InactiveOpacity <= opacity <= ActiveOpacity
    {
      if meshMounted {
        opacity := opacity + (TargetOpacity(active) - opacity) * Smoothing;
      }
    }
  }
}

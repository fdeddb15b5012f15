/** The side navigation of the landing section (src/components/HeroSidebar.tsx):
    five lines whose widths swell in a cosine wave around the hovered item,
    one label shown for the hovered item, and the whole bar hidden once the
    landing section is mostly out of view. */
module HeroSidebar {
  import opened Options

  const NavCount: nat := 5
  const BaseWidth: real := 40.0
  const MaxWidth: real := 120.0
  const Amplitude: real := MaxWidth - BaseWidth
  const VisibilityThreshold: real := 0.1
  /** Math.cos(Math.PI / 4) as the page computes it. */
  const CosQuarterTurn: real := 0.7071067811865476
  /** Math.cos(1.5 * Math.PI * 0.5) as the page computes it. */
  const CosThreeEighthsTurn: real := -0.7071067811865475

  function Distance(index: nat, hovered: nat): nat {
    if index >= hovered then index - hovered else hovered - index
  }

  /** cos(distance * pi/4) at the five distances a five-item bar can have:
      it falls from 1 to -1, is positive below distance 2, zero at 2 and
      negative beyond. */
  function WaveFactor(distance: nat): (w: real)
    requires distance < NavCount
    ensures -1.0 <= w <= 1.0
    ensures w == 1.0 <==> distance == 0
    ensures w == -1.0 <==> distance == 4
    ensures w > 0.0 <==> distance < 2
    ensures w < 0.0 <==> distance > 2
  {
    if distance == 0 then 1.0
    else if distance == 1 then CosQuarterTurn
    else if distance == 2 then 0.0
    else if distance == 3 then CosThreeEighthsTurn
    else -1.0
  }

  /** The wave falls strictly with distance. */
  lemma WaveFactorDecreasing(d1: nat, d2: nat)
    requires d1 < d2 < NavCount
    ensures WaveFactor(d2) < WaveFactor(d1)
  {
  }

  /** getLineWidth: 40 px unless the bar is hovered over an item, then
      40 + 80 * max(0, wave) by the distance from that item. */
  function LineWidth(index: nat, isHovered: bool, hoveredIndex: Option<nat>): (w: real)
    requires index < NavCount
    requires hoveredIndex.Some? ==> hoveredIndex.value < NavCount
    ensures BaseWidth <= w <= MaxWidth
    ensures !isHovered || hoveredIndex.None? ==> w == BaseWidth
    ensures w == MaxWidth <==> isHovered && hoveredIndex == Some(index)
    ensures w > BaseWidth <==>
      isHovered && hoveredIndex.Some? && Distance(index, hoveredIndex.value) < 2
  {
    if !isHovered || hoveredIndex.None? then BaseWidth
    else
      var wave := WaveFactor(Distance(index, hoveredIndex.value));
      BaseWidth + Amplitude * (if wave > 0.0 then wave else 0.0)
  }

  /** The wave is symmetric about the hovered item: two items at the same
      distance from it get the same width. */
  lemma LineWidthSymmetric(i: nat, j: nat, hovered: nat)
    requires i < NavCount && j < NavCount && hovered < NavCount
    requires Distance(i, hovered) == Distance(j, hovered)
    ensures LineWidth(i, true, Some(hovered)) == LineWidth(j, true, Some(hovered))
  {
  }

  /** Widths never grow with distance from the hovered item, and items three
      or more places away keep the base width. */
  lemma LineWidthFallsOff(i: nat, j: nat, hovered: nat)
    requires i < NavCount && j < NavCount && hovered < NavCount
    requires Distance(i, hovered) <= Distance(j, hovered)
    ensures LineWidth(j, true, Some(hovered)) <= LineWidth(i, true, Some(hovered))
    ensures Distance(j, hovered) >= 3 ==> LineWidth(j, true, Some(hovered)) == BaseWidth
  {
  }

  /** An item's label is shown when it is the hovered item of a hovered bar. */
  predicate LabelShown(index: nat, isHovered: bool, hoveredIndex: Option<nat>) {
    hoveredIndex == Some(index) && isHovered
  }

  /** At most one label is shown, and none unless the bar is hovered over an
      item. */
  lemma AtMostOneLabel(i: nat, j: nat, isHovered: bool, hoveredIndex: Option<nat>)
    requires LabelShown(i, isHovered, hoveredIndex) && LabelShown(j, isHovered, hoveredIndex)
    ensures i == j && isHovered && hoveredIndex.Some?
  {
  }

  /** Whether the bar shows, given the landing section's visible fraction. */
  predicate VisibleAt(intersectionRatio: real) {
    intersectionRatio > VisibilityThreshold
  }

  /** The component's three pieces of state. */
  class Sidebar {
    var isVisible: bool
    var isHovered: bool
    var hoveredIndex: Option<nat>

    ghost predicate Valid()
      reads this
    {
      hoveredIndex.Some? ==> hoveredIndex.value < NavCount
    }

    constructor ()
      ensures Valid()
      ensures isVisible && !isHovered && hoveredIndex == None
    {
      isVisible := true;
      isHovered := false;
      hoveredIndex := None;
    }

    function Width(index: nat): real
      reads this
      requires Valid() && index < NavCount
    {
      LineWidth(index, isHovered, hoveredIndex)
    }

    predicate Label(index: nat)
      reads this
    {
      LabelShown(index, isHovered, hoveredIndex)
    }

    /** The intersection observer's report on the landing section. */
    method OnIntersection(intersectionRatio: real)
      requires Valid()
      modifies this
      ensures Valid()
      ensures isVisible == VisibleAt(intersectionRatio)
      ensures isHovered == old(isHovered) && hoveredIndex == old(hoveredIndex)
    {
      isVisible := intersectionRatio > VisibilityThreshold;
    }

    method OnNavEnter()
      requires Valid()
      modifies this
      ensures Valid()
      ensures isHovered
      ensures isVisible == old(isVisible) && hoveredIndex == old(hoveredIndex)
    {
      isHovered := true;
    }

    /** Leaving the bar clears the hover: no label shows and every line
        returns to the base width. */
    method OnNavLeave()
      requires Valid()
      modifies this
      ensures Valid()
      ensures !isHovered && hoveredIndex == None && isVisible == old(isVisible)
      ensures forall i :: 0 <= i < NavCount ==> Width(i) == BaseWidth && !Label(i)
    {
      isHovered := false;
      hoveredIndex := None;
    }

    method OnItemEnter(index: nat)
      requires Valid() && index < NavCount
      modifies this
      ensures Valid()
      ensures hoveredIndex == Some(index)
      ensures isVisible == old(isVisible) && isHovered == old(isHovered)
      ensures isHovered ==> Width(index) == MaxWidth && Label(index)
    {
      hoveredIndex := Some(index);
    }
  }
}

/** The scroll-in of the project cubes (src/components/Projects3DSection.tsx):
    every mounted cube is placed far away, small, tilted and invisible, and
    a scroll-scrubbed tween brings it to rest at the identity transform.
    Cubes are staggered in depth and in scroll offset by their position
    among the mounted cubes. */
module Projects3D {
  import Decimal
  import opened Options

  const BaseDepth: real := -1000.0
  const DepthStagger: real := 150.0
  const StartScale: real := 0.15
  const TriggerStagger: nat := 100

  /** The values a cube's transform is set to or tweened toward. */
  datatype CubeTransform = CubeTransform(
    z: real, scale: real, rotateX: real, rotateY: real, x: real, y: real, opacity: real)

  /** The four Math.random() draws made for one cube, in call order. */
  datatype Draws = Draws(rotateX: real, rotateY: real, x: real, y: real)

  predicate UnitDraw(r: real) {
    0.0 <= r < 1.0
  }

  predicate ValidDraws(d: Draws) {
    UnitDraw(d.rotateX) && UnitDraw(d.rotateY) && UnitDraw(d.x) && UnitDraw(d.y)
  }

  /** Each later cube starts 150 px deeper than the one before it. */
  function StartZ(index: nat): (z: real)
    ensures z <= BaseDepth
    ensures index > 0 ==> z < StartZ(index - 1)
  {
    BaseDepth - index as real * DepthStagger
  }

  /** Depth strictly decreases along the cubes. */
  lemma StartZDecreasing(i: nat, j: nat)
    requires i < j
    ensures StartZ(j) < StartZ(i)
  {
  }

  /** The state a cube is set to before it scrolls in. */
  function StartState(index: nat, d: Draws): (s: CubeTransform)
    requires ValidDraws(d)
    ensures s.z <= BaseDepth && s.scale == StartScale && s.opacity == 0.0
    ensures 15.0 <= s.rotateX < 25.0
    ensures -20.0 <= s.rotateY < 20.0
    ensures -50.0 <= s.x < 50.0
    ensures 30.0 <= s.y < 70.0
  {
    CubeTransform(
      StartZ(index), StartScale,
      15.0 + d.rotateX * 10.0, -20.0 + d.rotateY * 40.0,
      -50.0 + d.x * 100.0, 30.0 + d.y * 40.0, 0.0)
  }

  /** The draws a start state came from. */
  function DrawsOf(s: CubeTransform): Draws {
    Draws((s.rotateX - 15.0) / 10.0, (s.rotateY + 20.0) / 40.0, (s.x + 50.0) / 100.0, (s.y - 30.0) / 40.0)
  }

  /** The start state determines the draws: different draws never give the
      same start pose, and every pose in the ranges is reachable. */
  lemma StartStateRoundTrip(index: nat, d: Draws, s: CubeTransform)
    requires ValidDraws(d)
    ensures DrawsOf(StartState(index, d)) == d
    ensures s.z == StartZ(index) && s.scale == StartScale && s.opacity == 0.0
      && 15.0 <= s.rotateX < 25.0 && -20.0 <= s.rotateY < 20.0
      && -50.0 <= s.x < 50.0 && 30.0 <= s.y < 70.0
      ==> ValidDraws(DrawsOf(s)) && StartState(index, DrawsOf(s)) == s
  {
  }

  /** Where every cube comes to rest: in place, full size, upright, opaque. */
  const EndState: CubeTransform := CubeTransform(0.0, 1.0, 0.0, 0.0, 0.0, 0.0, 1.0)

  /** The scroll positions that start and end a cube's scrub. */
  function StartTrigger(index: nat): string {
    "top+=" + Decimal.NatToString(index * TriggerStagger) + " bottom+=200"
  }

  function EndTrigger(index: nat): string {
    "top+=" + Decimal.NatToString(index * TriggerStagger) + " center-=100"
  }

  /** The offset a trigger position adds to the element's top, read from
      the numeral that follows "top+=". */
  function TopOffset(position: string): Option<nat> {
    if |position| >= 5 && position[..5] == "top+="
       && Decimal.LeadingDigits(position[5..]) != []
    then Some(Decimal.DigitsValue(Decimal.LeadingDigits(position[5..])))
    else None
  }

  /** A position "top+=<n><suffix>" is read back as offset n whenever the
      suffix does not begin with a digit. */
  lemma TopOffsetOfNumeral(n: nat, suffix: string)
    requires suffix == [] || !Decimal.IsDigit(suffix[0])
    ensures TopOffset("top+=" + Decimal.NatToString(n) + suffix) == Some(n)
  {
    var digits := Decimal.NatToString(n);
    var position := "top+=" + digits + suffix;
    assert position[..5] == "top+=";
    assert position[5..] == digits + suffix;
    Decimal.LeadingDigitsOfNumeral(digits, suffix);
    Decimal.NatToStringRoundTrip(n);
  }

  /** Both ends of a cube's scrub carry the same offset, 100 px per cube;
      the scrub starts 200 px below the viewport bottom and ends 100 px
      above its centre. */
  lemma TriggersShareOffset(index: nat)
    ensures TopOffset(StartTrigger(index)) == Some(index * TriggerStagger)
    ensures TopOffset(EndTrigger(index)) == Some(index * TriggerStagger)
    ensures StartTrigger(index)[|StartTrigger(index)| - 12..] == " bottom+=200"
    ensures EndTrigger(index)[|EndTrigger(index)| - 12..] == " center-=100"
  {
    TopOffsetOfNumeral(index * TriggerStagger, " bottom+=200");
    TopOffsetOfNumeral(index * TriggerStagger, " center-=100");
  }

  /** Different cubes start their scrub at different offsets. */
  lemma TriggersDistinct(i: nat, j: nat)
    requires i != j
    ensures StartTrigger(i) != StartTrigger(j)
  {
    TriggersShareOffset(i);
    TriggersShareOffset(j);
  }

  /** `refs.filter(Boolean)`: the mounted cubes, in order. */
  function Mounted<E>(refs: seq<Option<E>>): (cubes: seq<E>)
    ensures |cubes| <= |refs|
    ensures forall i :: 0 <= i < |cubes| ==> Some(cubes[i]) in refs
    ensures forall i :: 0 <= i < |refs| && refs[i].Some? ==> refs[i].value in cubes
  {
    if refs == [] then []
    else if refs[0].Some? then [refs[0].value] + Mounted(refs[1..])
    else Mounted(refs[1..])
  }

  /** When every ref is mounted a cube's stagger index is its list index. */
  lemma {:induction false} MountedAll<E>(refs: seq<Option<E>>)
    requires forall i :: 0 <= i < |refs| ==> refs[i].Some?
    ensures |Mounted(refs)| == |refs|
    ensures forall i :: 0 <= i < |refs| ==> Mounted(refs)[i] == refs[i].value
  {
    if refs != [] {
      MountedAll(refs[1..]);
    }
  }

  /** A missing ref at any position drops out: the cubes after it are
      filtered as if it were not there, so each later stagger index is one
      lower than its ref position would suggest. */
  lemma MountedSkipsMissing<E>(refs: seq<Option<E>>, k: nat)
    requires k < |refs| && refs[k] == None
    ensures Mounted(refs) == Mounted(refs[..k]) + Mounted(refs[k + 1..])
  {
    assert refs == refs[..k] + ([refs[k]] + refs[k + 1..]);
    MountedAppend(refs[..k], [refs[k]] + refs[k + 1..]);
    assert ([refs[k]] + refs[k + 1..])[1..] == refs[k + 1..];
  }

  /** Filtering a concatenation filters each part and keeps their order. */
  lemma {:induction false} MountedAppend<E>(a: seq<Option<E>>, b: seq<Option<E>>)
    ensures Mounted(a + b) == Mounted(a) + Mounted(b)
  {
    if a == [] {
      assert a + b == b;
    } else {
      assert (a + b)[0] == a[0];
      assert (a + b)[1..] == a[1..] + b;
      MountedAppend(a[1..], b);
    }
  }

  /** The stagger index of the cube at ref position k is the number of
      mounted refs before it, wherever the missing refs are. */
  lemma StaggerIndex<E>(refs: seq<Option<E>>, k: nat)
    requires k < |refs| && refs[k].Some?
    ensures |Mounted(refs[..k])| < |Mounted(refs)|
    ensures Mounted(refs)[|Mounted(refs[..k])|] == refs[k].value
  {
    assert refs == refs[..k] + ([refs[k]] + refs[k + 1..]);
    MountedAppend(refs[..k], [refs[k]] + refs[k + 1..]);
    assert ([refs[k]] + refs[k + 1..])[1..] == refs[k + 1..];
  }

  /** What the effect hands to the animation library for one cube. */
  datatype CubePlan<E> = CubePlan(cube: E, from: CubeTransform, to: CubeTransform, start: string, end: string)

  function PlanFor<E>(cube: E, index: nat, d: Draws): CubePlan<E>
    requires ValidDraws(d)
  {
    CubePlan(cube, StartState(index, d), EndState, StartTrigger(index), EndTrigger(index))
  }

  /** The effect's loop over the mounted cubes; `draws[i]` are the random
      draws made while visiting the i-th of them. */
  method PlanScrollIn<E>(refs: seq<Option<E>>, draws: seq<Draws>) returns (plans: seq<CubePlan<E>>)
    requires |draws| == |Mounted(refs)|
    requires forall i :: 0 <= i < |draws| ==> ValidDraws(draws[i])
    ensures |plans| == |Mounted(refs)|
    ensures forall i :: 0 <= i < |plans| ==> plans[i] == PlanFor(Mounted(refs)[i], i, draws[i])
    ensures forall i, j :: 0 <= i < j < |plans| ==> plans[j].from.z < plans[i].from.z
  {
    var cubes := Mounted(refs);
    plans := [];
    for index := 0 to |cubes|
      invariant |plans| == index
      invariant forall i :: 0 <= i < index ==> plans[i] == PlanFor(cubes[i], i, draws[i])
    {
      plans := plans + [PlanFor(cubes[index], index, draws[index])];
    }
    forall i, j | 0 <= i < j < |plans|
      ensures plans[j].from.z < plans[i].from.z
    {
      StartZDecreasing(i, j);
    }
  }
}

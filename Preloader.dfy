/** The intro overlay (src/components/Preloader.tsx): a cloud of letters
    bucketed into five distance rings, fourteen letter beats that widen the
    visible ring, an outside-in fade of the rings, and a simultaneous portal
    zoom and overlay fade that hands control back to the page. */
module Preloader {
  import Decimal
  import opened Options
  import opened Reals

  const Letters: string := "KENJIZAHARCHUK"
  const BeatDuration: real := 0.16
  const RingCount: nat := 5
  const CloudSize: nat := 85
  /** The cloud radius, 45 % of the viewport, split into equal ring bands. */
  const CloudRadius: real := 45.0
  const RingWidth: real := CloudRadius / RingCount as real

  const ImplosionDelay: real := 0.2
  const RingFadeStagger: real := 0.06
  const RingFadeDuration: real := 0.12
  const RingFadeScale: real := 0.8
  const PortalDelay: real := 0.1
  const PortalDuration: real := 0.7
  const PortalScale: real := 60.0

  function MinInt(a: int, b: int): int { if a <= b then a else b }
  function MaxInt(a: int, b: int): int { if a >= b then a else b }

  /** Math.ceil: the least integer not below `x`. */
  function Ceil(x: real): (c: int)
    ensures (c - 1) as real < x <= c as real
  {
    if x.Floor as real == x then x.Floor else x.Floor + 1
  }

  // ---------------------------------------------------------------- cloud

  /** The ring of a point at `distance` from the centre: band `k` holds the
      distances in ((k-1)*9, k*9]; everything up to 9 is ring 1 and
      everything beyond 36 is ring 5. */
  function RingOf(distance: real): (ring: int)
    ensures 1 <= ring <= RingCount
    ensures ring > 1 ==> distance > (ring - 1) as real * RingWidth
    ensures ring < RingCount ==> distance <= ring as real * RingWidth
  {
    MinInt(RingCount, MaxInt(1, Ceil(distance / RingWidth)))
  }

  /** Farther points never land in an inner ring. */
  lemma RingOfMonotone(d1: real, d2: real)
    requires d1 <= d2
    ensures RingOf(d1) <= RingOf(d2)
  {
  }

  datatype CloudPoint = CloudPoint(distance: real, ring: int, id: string)

  function CloudId(i: nat): (id: string)
    ensures |id| > 6 && id[..6] == "cloud-"
  {
    "cloud-" + Decimal.NatToString(i)
  }

  /** Two cloud points get the same key only if they have the same index. */
  lemma CloudIdInjective(i: nat, j: nat)
    ensures CloudId(i) == CloudId(j) <==> i == j
  {
    if CloudId(i) == CloudId(j) {
      assert Decimal.NatToString(i) == CloudId(i)[6..];
      assert Decimal.NatToString(j) == CloudId(j)[6..];
      Decimal.NatToStringInjective(i, j);
    }
  }

  /** generateCloud: one point per loop step. The random angle, radius and
      jitter are not modelled; `distances[i]` is the distance from the
      centre that the i-th step produced. */
  method GenerateCloud(distances: seq<real>) returns (points: seq<CloudPoint>)
    requires |distances| == CloudSize
    ensures |points| == CloudSize
    ensures forall i :: 0 <= i < CloudSize ==>
      points[i] == CloudPoint(distances[i], RingOf(distances[i]), CloudId(i))
    ensures forall i :: 0 <= i < CloudSize ==> 1 <= points[i].ring <= RingCount
    ensures forall i, j :: 0 <= i < j < CloudSize ==> points[i].id != points[j].id
  {
    points := [];
    for i := 0 to CloudSize
      invariant |points| == i
      invariant forall k :: 0 <= k < i ==>
        points[k] == CloudPoint(distances[k], RingOf(distances[k]), CloudId(k))
    {
      var ring := RingOf(distances[i]);
      points := points + [CloudPoint(distances[i], ring, CloudId(i))];
    }
    forall i, j | 0 <= i < j < CloudSize
      ensures points[i].id != points[j].id
    {
      CloudIdInjective(i, j);
    }
  }

  /** A point is drawn when its ring is within the visible ring. */
  predicate Shown(p: CloudPoint, visibleRing: int) {
    p.ring <= visibleRing
  }

  /** The opacity of a shown point: fading with distance, floored at 0.15. */
  function BaseOpacity(distance: real): (o: real)
    requires distance >= 0.0
    ensures 0.15 <= o <= 0.5
    ensures o == 0.5 <==> distance == 0.0
  {
    MaxReal(0.15, 0.5 - distance * 0.008)
  }

  /** Nearer points are never fainter than farther ones. */
  lemma BaseOpacityMonotone(d1: real, d2: real)
    requires 0.0 <= d1 <= d2
    ensures BaseOpacity(d2) <= BaseOpacity(d1)
  {
  }

  /** The opacity the render gives a point for the current visible ring. */
  function PointOpacity(p: CloudPoint, visibleRing: int): (o: real)
    requires p.distance >= 0.0
    ensures Shown(p, visibleRing) ==> 0.15 <= o <= 0.5
    ensures !Shown(p, visibleRing) ==> o == 0.0
  {
    if Shown(p, visibleRing) then BaseOpacity(p.distance) else 0.0
  }

  /** With the initial visible ring 0 no point of the cloud is shown. */
  lemma NothingShownInitially(points: seq<CloudPoint>)
    requires forall i :: 0 <= i < |points| ==> 1 <= points[i].ring <= RingCount
    ensures forall i :: 0 <= i < |points| ==> !Shown(points[i], 0)
  {
  }

  // ---------------------------------------------------------------- beats

  /** The ring beat `index` makes visible: ceil((index+1)/14 * 5), that is
      the least ring `r` with r*14 >= (index+1)*5. */
  function RingProgress(index: nat): (r: int)
    requires index < |Letters|
    ensures 1 <= r <= RingCount
    ensures (r - 1) * |Letters| < (index + 1) * RingCount <= r * |Letters|
  {
    Ceil(((index + 1) as real / |Letters| as real) * RingCount as real)
  }

  /** Later beats never shrink the visible ring. */
  lemma RingProgressMonotone(i: nat, j: nat)
    requires i <= j < |Letters|
    ensures RingProgress(i) <= RingProgress(j)
  {
  }

  /** The first beat shows ring 1 only, the last one all five rings. */
  lemma RingProgressEnds()
    ensures RingProgress(0) == 1
    ensures RingProgress(|Letters| - 1) == RingCount
  {
  }

  /** Once a ring is visible, every point shown stays shown at later beats. */
  lemma ShownGrows(p: CloudPoint, i: nat, j: nat)
    requires i <= j < |Letters|
    requires Shown(p, RingProgress(i))
    ensures Shown(p, RingProgress(j))
  {
  }

  /** The React state the beats update. */
  class IntroState {
    var currentLetterIndex: nat
    var visibleRing: int

    ghost predicate Valid()
      reads this
    {
      currentLetterIndex < |Letters| && 0 <= visibleRing <= RingCount
    }

    constructor ()
      ensures Valid()
      ensures currentLetterIndex == 0 && visibleRing == 0
    {
      currentLetterIndex := 0;
      visibleRing := 0;
    }

    /** The letter shown at the centre and on every cloud point. */
    function CurrentLetter(): (c: char)
      reads this
      requires Valid()
      ensures c in Letters
    {
      Letters[currentLetterIndex]
    }

    /** The callback of beat `index`. */
    method FireBeat(index: nat)
      requires Valid() && index < |Letters|
      modifies this
      ensures Valid()
      ensures currentLetterIndex == index && visibleRing == RingProgress(index)
    {
      currentLetterIndex := index;
      visibleRing := RingProgress(index);
    }

    /** Plays the letter phase up to `elapsed` seconds: every beat whose
        offset has been reached fires, in schedule order. */
    method PlayBeats(elapsed: real)
      requires Valid()
      modifies this
      ensures Valid()
      ensures BeatsFired(elapsed) == 0 ==>
        currentLetterIndex == old(currentLetterIndex) && visibleRing == old(visibleRing)
      ensures BeatsFired(elapsed) > 0 ==>
        currentLetterIndex == BeatsFired(elapsed) - 1 && visibleRing == VisibleRingAt(elapsed)
    {
      var i := 0;
      while i < |Letters| && BeatOffset(i) <= elapsed
        invariant 0 <= i <= BeatsFired(elapsed)
        invariant Valid()
        invariant i == 0 ==>
          currentLetterIndex == old(currentLetterIndex) && visibleRing == old(visibleRing)
        invariant i > 0 ==> currentLetterIndex == i - 1 && visibleRing == RingProgress(i - 1)
      {
        FireBeat(i);
        i := i + 1;
      }
    }
  }

  // ------------------------------------------------------------- timeline

  function BeatOffset(index: nat): real {
    index as real * BeatDuration
  }

  /** The ring fades start 0.2 s after the slot of a fifteenth beat. */
  const ImplosionStart: real := |Letters| as real * BeatDuration + ImplosionDelay

  function RingFadeOffset(ring: int): real {
    ImplosionStart + (RingCount - ring) as real * RingFadeStagger
  }

  const PortalStart: real := ImplosionStart + RingCount as real * RingFadeStagger + PortalDelay

  /** What a tween animates. */
  datatype Target = RingLayer(ring: int) | CenterLetter | Container

  /** One entry of the intro timeline: a callback at a point in time, or a
      tween of `target` to `opacity` (and `scale`, if given); only a tween
      with `onComplete` calls back the page. */
  datatype Entry =
    | Beat(at: real, letter: nat)
    | Tween(at: real, target: Target, duration: real, opacity: real, scale: Option<real>, onComplete: bool)

  function End(e: Entry): real {
    match e
    case Beat(at, _) => at
    case Tween(at, _, duration, _, _, _) => at + duration
  }

  predicate IsRingFade(e: Entry) {
    e.Tween? && e.target.RingLayer?
  }

  function RingFade(ring: int): Entry {
    Tween(RingFadeOffset(ring), RingLayer(ring), RingFadeDuration, 0.0, Some(RingFadeScale), false)
  }

  const PortalZoom: Entry := Tween(PortalStart, CenterLetter, PortalDuration, 0.0, Some(PortalScale), false)
  const OverlayFade: Entry := Tween(PortalStart, Container, PortalDuration, 0.0, None, true)

  function Beats(n: nat): (t: seq<Entry>)
    ensures |t| == n
    ensures forall i :: 0 <= i < n ==> t[i] == Beat(BeatOffset(i), i)
  {
    seq(n, i requires 0 <= i => Beat(BeatOffset(i), i))
  }

  /** The fades of rings RingCount, RingCount-1, ... down to RingCount-n+1. */
  function RingFades(n: nat): (t: seq<Entry>)
    requires n <= RingCount
    ensures |t| == n
    ensures forall k :: 0 <= k < n ==> t[k] == RingFade(RingCount - k)
  {
    seq(n, k requires 0 <= k < n => RingFade(RingCount - k))
  }

  /** The whole intro, in the order the entries are added. */
  function IntroSchedule(): (t: seq<Entry>)
    ensures |t| == |Letters| + RingCount + 2
  {
    Beats(|Letters|) + RingFades(RingCount) + [PortalZoom, OverlayFade]
  }

  /** The timeline-building code: one call per letter, then a descending
      loop over the rings, then the two portal tweens. */
  method BuildTimeline() returns (timeline: seq<Entry>)
    ensures timeline == IntroSchedule()
  {
    timeline := [];
    for index := 0 to |Letters|
      invariant timeline == Beats(index)
    {
      timeline := timeline + [Beat(BeatOffset(index), index)];
    }
    var ring := RingCount as int;
    while ring >= 1
      invariant 0 <= ring <= RingCount
      invariant timeline == Beats(|Letters|) + RingFades(RingCount - ring)
    {
      timeline := timeline + [RingFade(ring)];
      ring := ring - 1;
    }
    timeline := timeline + [PortalZoom, OverlayFade];
  }

  /** The latest end of any entry: when the timeline is over. */
  function TotalDuration(t: seq<Entry>): (d: real)
    requires |t| > 0
    ensures forall i :: 0 <= i < |t| ==> End(t[i]) <= d
    ensures exists i :: 0 <= i < |t| && End(t[i]) == d
  {
    if |t| == 1 then End(t[0])
    else
      var rest := TotalDuration(t[1..]);
      assert forall i :: 1 <= i < |t| ==> t[i] == t[1..][i - 1];
      if End(t[0]) >= rest then End(t[0]) else rest
  }

  /** Beat `i` is the i-th entry, fires at i*0.16 s and names a letter that
      exists; beats are strictly increasing in time. */
  lemma BeatsInOrder()
    ensures forall i :: 0 <= i < |Letters| ==>
      IntroSchedule()[i].Beat? && IntroSchedule()[i].letter == i < |Letters|
      && IntroSchedule()[i].at == i as real * BeatDuration
    ensures forall i, j :: 0 <= i < j < |Letters| ==>
      IntroSchedule()[i].at < IntroSchedule()[j].at
  {
  }

  /** Every beat fires strictly before the implosion, and every tween
      starts at or after it. */
  lemma ImplosionAfterLastBeat()
    ensures forall i :: 0 <= i < |IntroSchedule()| && IntroSchedule()[i].Beat? ==>
      IntroSchedule()[i].at < ImplosionStart
    ensures forall i :: 0 <= i < |IntroSchedule()| && IntroSchedule()[i].Tween? ==>
      ImplosionStart <= IntroSchedule()[i].at
  {
  }

  /** Each ring fades exactly once; an outer ring starts fading strictly
      before an inner one. */
  lemma RingsFadeOutsideIn()
    ensures forall r :: 1 <= r <= RingCount ==>
      IntroSchedule()[|Letters| + RingCount - r] == RingFade(r)
    ensures forall r1, r2 :: 1 <= r2 < r1 <= RingCount ==>
      RingFadeOffset(r1) < RingFadeOffset(r2)
    ensures forall i :: 0 <= i < |IntroSchedule()| && IsRingFade(IntroSchedule()[i]) ==>
      i == |Letters| + RingCount - IntroSchedule()[i].target.ring
  {
  }

  /** The portal begins only after every ring fade has ended. */
  lemma PortalAfterRingFades()
    ensures forall i :: 0 <= i < |IntroSchedule()| && IsRingFade(IntroSchedule()[i]) ==>
      End(IntroSchedule()[i]) < PortalStart
  {
  }

  /** The centre zoom and the overlay fade start together and last equally
      long; the overlay fade alone carries the completion callback. */
  lemma PortalTogether()
    ensures PortalZoom.at == OverlayFade.at && PortalZoom.duration == OverlayFade.duration
    ensures forall i :: 0 <= i < |IntroSchedule()| ==>
      (IntroSchedule()[i].Tween? && IntroSchedule()[i].onComplete <==> IntroSchedule()[i] == OverlayFade)
  {
  }

  /** No entry ends after the overlay fade, so its completion callback
      fires when the whole timeline is over. */
  lemma OverlayFadeEndsLast()
    ensures forall i :: 0 <= i < |IntroSchedule()| ==> End(IntroSchedule()[i]) <= End(OverlayFade)
    ensures TotalDuration(IntroSchedule()) == End(OverlayFade)
  {
    var t := IntroSchedule();
    assert t[|t| - 1] == OverlayFade;
    assert forall i :: 0 <= i < |t| ==> End(t[i]) <= End(OverlayFade);
  }

  // ------------------------------------------------------------- playback

  /** How many beats have fired once the playhead is at `elapsed`:
      exactly those whose offset it has reached. */
  function BeatsFired(elapsed: real): (k: nat)
    ensures k <= |Letters|
    ensures forall i :: 0 <= i < |Letters| ==> (i < k <==> BeatOffset(i) <= elapsed)
  {
    FiredAmong(elapsed, |Letters|)
  }

  function FiredAmong(elapsed: real, n: nat): (k: nat)
    ensures k <= n
    ensures forall i :: 0 <= i < n ==> (i < k <==> BeatOffset(i) <= elapsed)
  {
    if n == 0 then 0
    else if BeatOffset(n - 1) <= elapsed then n
    else FiredAmong(elapsed, n - 1)
  }

  /** The visible ring once the playhead is at `elapsed`. */
  function VisibleRingAt(elapsed: real): (r: int)
    ensures 0 <= r <= RingCount
  {
    var k := BeatsFired(elapsed);
    if k == 0 then 0 else RingProgress(k - 1)
  }

  /** The visible ring never shrinks as the intro plays, so the set of shown
      points only grows. */
  lemma VisibleRingGrows(t1: real, t2: real, p: CloudPoint)
    requires t1 <= t2
    ensures VisibleRingAt(t1) <= VisibleRingAt(t2)
    ensures Shown(p, VisibleRingAt(t1)) ==> Shown(p, VisibleRingAt(t2))
  {
    var k1, k2 := BeatsFired(t1), BeatsFired(t2);
    if k1 > 0 {
      assert BeatOffset(k1 - 1) <= t2;
      RingProgressMonotone(k1 - 1, k2 - 1);
    }
  }

  /** When the rings start to fade, every beat has fired and all rings are
      visible. */
  lemma AllRingsVisibleAtImplosion()
    ensures BeatsFired(ImplosionStart) == |Letters|
    ensures VisibleRingAt(ImplosionStart) == RingCount
  {
  }
}

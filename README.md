# Portfolio intro, carousel, cube scroll-in and sidebar: a Dafny model

This project models the scheduling, layout and state-transition logic of four
components of a personal portfolio site. Most of the site is React and
three.js rendering. The logic modelled here is what those components compute
before handing values to the renderer or to the animation library:

- **Intro overlay** (`Preloader`). A cloud of 85 letters is bucketed into
  five distance rings. Fourteen letter beats, 0.16 s apart, each set the
  current letter and never narrow the visible ring (it grows at beats 0, 2,
  5, 8 and 11). After the beats the rings fade
  from the outside in. Then the centre letter zooms while the overlay fades;
  the overlay fade carries the page's completion callback. The timeline is
  built by a loop (`BuildTimeline`) and proved equal to the schedule
  `IntroSchedule`. Lemmas about that schedule give its orderings. The beats'
  effect on the React state is the class `IntroState`. How far the visible
  ring has grown at a given playback time is `VisibleRingAt`.
- **Arc carousel** (`Carousel`). Cards are spread over a 90-degree arc and
  turned partly toward its centre. One card is active. A click makes the
  clicked card active and sends the card group toward a target rotation
  (class `Scene`). Each frame, a card's opacity moves a tenth of the way
  toward 1 (active) or 0.4 (inactive) (class `CardMaterial`).
- **Project cube scroll-in** (`Projects3D`). Each mounted cube gets a start
  pose: deeper by 150 px per cube, and tilted and shifted by four random
  draws. It also gets the identity end pose and two scroll-trigger positions
  offset by 100 px per cube. `PlanScrollIn` is the loop over the mounted
  cubes.
- **Hero sidebar** (`HeroSidebar`). Line widths form a cosine wave around the
  hovered item, from 40 to 120 px. There is one label for the hovered item.
  The whole bar is hidden once at most 10 % of the landing section is in
  view (class `Sidebar`).

`Decimal` prints a non-negative integer below 10^21 as a template literal
does (the page prints nothing near that bound). It also
reads the numeral back, which is used to show that both trigger positions
carry the same offset. `Options` holds the `Option` type used for nullable
state and element refs.

Numbers are Dafny `real`s. The page's JavaScript doubles are not modelled
(see below). Constants that the page computes from `Math.PI` are written as
the decimal the page obtains: `Math.PI * 0.5`, `Math.cos(Math.PI / 4)` and `Math.cos(1.5 * Math.PI * 0.5)`.

## Model

| member | source | states |
|---|---|---|
| `Decimal.NatToString` | src/components/Projects3DSection.tsx:75-76 | an interpolated index is a non-empty run of digits with no leading zero (except for 0) |
| `Decimal.NatToStringRoundTrip` | src/components/Projects3DSection.tsx:75-76 | reading a printed number back gives the number |
| `Decimal.NatToStringInjective` | src/components/Preloader.tsx:46 | two numbers print alike exactly when they are equal |
| `Preloader.RingOf` | src/components/Preloader.tsx:39 | a point's ring is in 1..5; ring k > 1 means distance > 9(k-1); ring k < 5 means distance <= 9k |
| `Preloader.RingOfMonotone` | src/components/Preloader.tsx:39 | a farther point is never in an inner ring |
| `Preloader.CloudId` | src/components/Preloader.tsx:46 | every point key starts with "cloud-" |
| `Preloader.CloudIdInjective` | src/components/Preloader.tsx:46 | two points share a key only if they share an index |
| `Preloader.GenerateCloud` | src/components/Preloader.tsx:21-50 | 85 points, point i at the i-th distance with its ring in 1..5, all keys distinct |
| `Preloader.BaseOpacity` | src/components/Preloader.tsx:135 | a shown point's opacity lies in [0.15, 0.5] and is 0.5 only at the centre |
| `Preloader.BaseOpacityMonotone` | src/components/Preloader.tsx:135 | nearer points are never fainter |
| `Preloader.PointOpacity` | src/components/Preloader.tsx:133-144 | a point within the visible ring has opacity in [0.15, 0.5], any other point 0 |
| `Preloader.NothingShownInitially` | src/components/Preloader.tsx:57 | with the initial visible ring 0, no point is shown |
| `Preloader.RingProgress` | src/components/Preloader.tsx:70 | beat i shows ring r in 1..5 with (r-1)*14 < (i+1)*5 <= r*14 |
| `Preloader.RingProgressMonotone` | src/components/Preloader.tsx:65-76 | later beats never shrink the visible ring |
| `Preloader.RingProgressEnds` | src/components/Preloader.tsx:65-76 | the first beat shows ring 1 and the last beat shows ring 5 |
| `Preloader.ShownGrows` | src/components/Preloader.tsx:133 | a point shown at one beat stays shown at every later beat |
| `Preloader.IntroState.constructor` | src/components/Preloader.tsx:56-57 | letter index 0 and visible ring 0 at mount |
| `Preloader.IntroState.CurrentLetter` | src/components/Preloader.tsx:122 | the displayed letter always exists in the 14 letters |
| `Preloader.IntroState.FireBeat` | src/components/Preloader.tsx:68-71 | beat i sets the letter index to i and the visible ring to that beat's ring; the state stays in range |
| `Preloader.IntroState.PlayBeats` | src/components/Preloader.tsx:65-76 | firing, in order, every beat whose offset has been reached leaves the last such beat's letter and ring |
| `Preloader.BuildTimeline` | src/components/Preloader.tsx:62-117 | the loops build exactly the intro schedule: 14 beats, ring fades 5 down to 1, zoom, overlay fade |
| `Preloader.IntroSchedule` | src/components/Preloader.tsx:62-117 | the timeline has 14 + 5 + 2 entries |
| `Preloader.BeatsInOrder` | src/components/Preloader.tsx:65-76 | entry i is the beat for letter i < 14 at i*0.16 s; beat times strictly increase |
| `Preloader.ImplosionAfterLastBeat` | src/components/Preloader.tsx:74-78 | every beat fires strictly before 14*0.16+0.2 s, and every tween starts at or after it |
| `Preloader.RingsFadeOutsideIn` | src/components/Preloader.tsx:81-92 | each ring fades exactly once, ring 5 first; an outer ring starts strictly before an inner one |
| `Preloader.PortalAfterRingFades` | src/components/Preloader.tsx:81-94 | every ring fade has ended before the portal starts |
| `Preloader.PortalTogether` | src/components/Preloader.tsx:97-117 | zoom and overlay fade share start and duration; only the overlay fade carries the completion callback |
| `Preloader.OverlayFadeEndsLast` | src/components/Preloader.tsx:108-117 | no entry ends after the overlay fade, whose end is the timeline's total duration |
| `Preloader.TotalDuration` | src/components/Preloader.tsx:62-117 | the total duration is the latest end of any entry, reached by some entry |
| `Preloader.BeatsFired` | src/components/Preloader.tsx:65-76 | at playback time t exactly the beats with offset <= t have fired |
| `Preloader.VisibleRingAt` | src/components/Preloader.tsx:70-71 | the visible ring at any time is in 0..5 |
| `Preloader.VisibleRingGrows` | src/components/Preloader.tsx:65-76 | the visible ring, and so the set of shown points, only grows during playback |
| `Preloader.AllRingsVisibleAtImplosion` | src/components/Preloader.tsx:70-78 | when the fades begin, all 14 beats have fired and all five rings are shown |
| `Carousel.AngleStep` | src/components/Carousel3D.tsx:35 | with at least two cards the step is positive and n-1 steps span the arc |
| `Carousel.BaseAngleSpansArc` | src/components/Carousel3D.tsx:35-36 | card 0 is at -arc/2, card n-1 at +arc/2, every card in between |
| `Carousel.BaseAngleIncreasing` | src/components/Carousel3D.tsx:36 | base angles strictly increase with the index |
| `Carousel.MiddleCardAtZero` | src/components/Carousel3D.tsx:36 | with an odd number of cards the middle card is at angle 0 |
| `Carousel.RotationY` | src/components/Carousel3D.tsx:43 | the facing turn has the opposite sign to the base angle, is 0 only at angle 0, and is smaller in size |
| `Carousel.InitialCardCentred` | src/components/Carousel3D.tsx:101-111 | the initially active card needs group rotation 0; with five cards it is card 2, at angle 0 |
| `Carousel.TargetAngleIsBaseAngle` | src/components/Carousel3D.tsx:111 | the target group rotation is the card's base angle for odd n, half a step less for even n |
| `Carousel.ExactlyOneActive` | src/components/Carousel3D.tsx:32 | the active cards are exactly {activeIndex} |
| `Carousel.Scene.constructor` | src/components/Carousel3D.tsx:101 | the middle card floor(n/2) starts active with group rotation 0 |
| `Carousel.Scene.MountGroup` | src/components/Carousel3D.tsx:106 | attaching the group changes neither the active card nor the rotation |
| `Carousel.Scene.RotateToCard` | src/components/Carousel3D.tsx:105-118 | no-op without a group or for the active card; otherwise the target becomes active and the group heads to its target angle |
| `Carousel.OpacityStep` | src/components/Carousel3D.tsx:50 | the new opacity lies between the old one and the target, 0.9 times as far from the target |
| `Carousel.ChaseGap` | src/components/Carousel3D.tsx:46-52 | after k frames the gap to the target is 0.9^k of the initial gap |
| `Carousel.ChaseStaysInRange` | src/components/Carousel3D.tsx:46-52 | an opacity in [0.4, 1] stays there whatever the target |
| `Carousel.CardMaterial.constructor` | src/components/Carousel3D.tsx:68 | the material starts at its role's target opacity |
| `Carousel.CardMaterial.OnFrame` | src/components/Carousel3D.tsx:46-52 | with a mounted mesh, one chase step toward 1 or 0.4; otherwise no change; an opacity in [0.4, 1] stays there whichever card is active on that frame |
| `Projects3D.StartZ` | src/components/Projects3DSection.tsx:45 | start depth is at most -1000 and each cube starts deeper than the one before |
| `Projects3D.StartZDecreasing` | src/components/Projects3DSection.tsx:45 | start depth strictly decreases with the stagger index |
| `Projects3D.StartState` | src/components/Projects3DSection.tsx:45-61 | for draws in [0,1): rotateX in [15,25), rotateY in [-20,20), x in [-50,50), y in [30,70), opacity 0, scale 0.15 |
| `Projects3D.StartStateRoundTrip` | src/components/Projects3DSection.tsx:47-50 | the start pose determines the draws, and every pose in those ranges comes from some draws |
| `Projects3D.TopOffsetOfNumeral` | src/components/Projects3DSection.tsx:75-76 | "top+=" followed by a numeral and a non-digit is read as that offset |
| `Projects3D.TriggersShareOffset` | src/components/Projects3DSection.tsx:75-76 | start and end positions both carry offset 100*index and end in " bottom+=200" and " center-=100" |
| `Projects3D.TriggersDistinct` | src/components/Projects3DSection.tsx:75 | different cubes have different start positions |
| `Projects3D.Mounted` | src/components/Projects3DSection.tsx:41 | the filtered list holds every mounted element and nothing else (order: `MountedAppend`) |
| `Projects3D.MountedAppend` | src/components/Projects3DSection.tsx:41 | filtering keeps order: filtering a + b gives the filtered a followed by the filtered b |
| `Projects3D.StaggerIndex` | src/components/Projects3DSection.tsx:41-43 | the cube at ref position k gets stagger index = number of mounted refs before k, wherever refs are missing |
| `Projects3D.MountedAll` | src/components/Projects3DSection.tsx:41-43 | with no missing ref the stagger index equals the list index |
| `Projects3D.MountedSkipsMissing` | src/components/Projects3DSection.tsx:41-43 | a missing ref at any position k drops out: the filtered list is the filtered refs before k followed by the filtered refs after k |
| `Projects3D.PlanScrollIn` | src/components/Projects3DSection.tsx:40-81 | one plan per mounted cube, from its start pose to the identity end pose, staggered by position among mounted cubes, depths strictly decreasing |
| `HeroSidebar.WaveFactor` | src/components/HeroSidebar.tsx:56 | the wave is in [-1,1], 1 only at distance 0, -1 only at 4, positive below 2, negative above 2 |
| `HeroSidebar.WaveFactorDecreasing` | src/components/HeroSidebar.tsx:56 | the wave falls strictly with distance |
| `HeroSidebar.LineWidth` | src/components/HeroSidebar.tsx:43-60 | width in [40,120]; 40 unless hovered over an item; 120 exactly for the hovered item; above 40 exactly within distance 1 |
| `HeroSidebar.LineWidthSymmetric` | src/components/HeroSidebar.tsx:53-57 | items at equal distance from the hovered item get equal widths |
| `HeroSidebar.LineWidthFallsOff` | src/components/HeroSidebar.tsx:53-57 | width never grows with distance and is 40 from distance 3 on |
| `HeroSidebar.AtMostOneLabel` | src/components/HeroSidebar.tsx:94 | two shown labels are the same one, and a label shows only while hovered over an item |
| `HeroSidebar.Sidebar.constructor` | src/components/HeroSidebar.tsx:17-19 | the bar starts visible, not hovered, with no hovered item |
| `HeroSidebar.Sidebar.OnIntersection` | src/components/HeroSidebar.tsx:28 | the bar is visible iff the landing section's ratio exceeds 0.1; hover state unchanged |
| `HeroSidebar.Sidebar.OnNavEnter` | src/components/HeroSidebar.tsx:70 | entering the bar sets the hover flag and nothing else |
| `HeroSidebar.Sidebar.OnNavLeave` | src/components/HeroSidebar.tsx:71-74 | leaving clears the hover: no label shows and every width is 40 |
| `HeroSidebar.Sidebar.OnItemEnter` | src/components/HeroSidebar.tsx:80 | the entered item becomes the hovered item; if the bar is hovered its line is 120 and its label shows |

## Left out

- Floating point: all arithmetic is exact over `real`. The page uses doubles, so beat offsets such as 3*0.16 are not exact there. The ring formulas are unaffected: (i+1)*5/14 is a whole number only at i = 13, where the double is exact.
- HeroSidebar.WaveFactor: at distance 2 it uses the mathematical cos(pi/2) = 0. The double `Math.cos` returns about 6.1e-17 there, so the page renders 40.00000000000001 px (one double step, about 7.1e-15, above 40) at distance 2. At distances 1 and 3 the model uses the doubles the page computes, 0.7071067811865476 and -0.7071067811865475.
- Decimal.NatToString: numbers from 10^21 on, which JavaScript prints in exponent notation, are printed as plain digits; the page prints only small indices and offsets.
- Random draws, `Math.sin`/`Math.cos` positions and `Math.sqrt` distances of the point cloud are not modelled. `GenerateCloud` takes each point's distance as a parameter, and `PlanScrollIn` takes each cube's four draws as a parameter.
- Point x/y positions, the three.js card positions (`Math.sin`/`Math.cos` of the base angle) and card colours are trigonometry or presentation. They are not modelled.
- The animation library's playback is not modelled: easing curves, the interpolation inside tweens, scroll scrubbing and the CSS opacity transition. Only the offsets, durations, targets and trigger positions handed to it are modelled. `PlayBeats` and `BeatsFired` assume that a timeline call fires once its offset is reached, in timeline order.
- What the trigger positions mean in scroll pixels (element top, viewport bottom and centre) is library behaviour and is not modelled; only the strings and their offsets are.
- The group rotation tween of `RotateToCard` is modelled by its target value only. How the group's rotation actually moves is not modelled, and neither is where cards end up on screen.
- Re-rendering a card after the active card changes passes the new `opacity` prop to its material. What the renderer does with that prop is not modelled.
- Browser and DOM calls are not modelled: the IntersectionObserver, the missing-landing-section early return, `scrollIntoView`, killing every scroll trigger on teardown, and the ref callbacks that fill the cube list. `OnIntersection` is what the observer callback does with one report.
- Drag and inertia, easing functions and scroll-progress tracking: no such code appears in these four components, so nothing is modelled for them.
- StarField, Hero3D, the section components, the project cube and card markup, and the pages are rendering or markup. They are not part of this model.

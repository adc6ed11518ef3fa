# Horizontal momentum-scroll controller, modelled in Dafny

The portfolio site's "What I Bring" section is a horizontal carousel of ten
cards (six technical skills followed by four soft skills). Its controller
turns vertical wheel input into horizontal momentum, snaps to the nearest
slot once the momentum dies out, steps one card per arrow key, jumps to a
card when an indicator dot is clicked, and publishes the active card index
that the dots display. This project models that controller and proves
properties of the model.

- `jsmath.dfy` (module `JsMath`): `Math.abs`, `Math.round`, `Math.min`
  and `Math.max` over exact reals and integers.
- `geometry.dfy` (module `Geometry`): the breakpoint rule for the slot
  width, the active-index arithmetic, the snap target and the one-card
  step target, with lemmas on nearest card, snap idempotence, step
  clamping and step round trips.
- `momentum.dfy` (module `Momentum`): the wheel impulse, friction, and
  `Coast`, the momentum loop run to its end without further input.
  `Coast`'s contract gives the exact resting point
  (`offset + 12.5 * (velocity - residual)`), a bound on the number of
  frames, and the direction of travel.
- `controller.dfy` (module `Controller`): class `ScrollController` with
  the instance's state and one method per browser callback. The fields are
  the viewport offset, the velocity, the animation handle, a queued-frame
  flag, the number of armed scroll-end timers, the active index and a
  mounted flag.
  Every smooth scroll the controller issues is appended to `issued`,
  together with the velocity and handle state at the moment of issue.
  `Valid()` keeps the instance invariants: the index lies in [0, 9]; at
  most one scroll-end timer is armed (so `onScroll` must clear the old
  timer before arming a new one); while
  mounted, the handle is set exactly when a frame is queued and the
  velocity is 0 whenever no loop runs; nothing stays queued after the
  cleanup; and no smooth scroll is issued while momentum is live. (A
  cleanup during a fling leaves the velocity and the handle as they were,
  as the source does.)
- `scenarios.dfy` (module `Scenarios`): concrete runs: a single wheel
  notch, both as arithmetic and driven frame by frame through the
  controller until the loop stops by itself, three arrow presses with and without the browser catching up, a
  press at the last card, a dot click during a fling, a burst of scroll
  events, and scroll-end during a fling.

Time is not modelled. An animation frame firing is the call `Tick`, the
100 ms scroll-end timer firing is `ScrollEndFires`, and the browser moving
the viewport by itself (a smooth scroll in progress, touch, the scrollbar)
is `BrowserMoves`. The browser's `window` is a parameter of every
operation that reads the card width, since the source reads
`window.innerWidth` anew each time. For the same reason the container's
`scrollWidth` and `clientWidth` are parameters of `Wheel`, the only
handler that reads them.

Behaviour of the code a reader might not expect, which the model keeps:

- The snap at the end of momentum is not clamped to the card range, and
  it is always issued, even when the viewport is already on a card.
- The debounced scroll-end handler only republishes the index. It never
  snaps.
- Arrow steps and dot jumps do not clear a pending scroll-end timer.
- An arrow step at the first or last card still issues a scroll, to the
  card already shown.
- A frame checks the speed before moving: a frame that finds
  |v| > 0.5 moves by v, applies friction and queues the next frame. The
  loop only stops on the frame after the speed has fallen to 0.5 or below.
- The current card for a step is read from the offset. Arrow presses
  that arrive before the browser has moved the viewport all target the
  same card (`Scenarios.ArrowRightThriceUnsettled`).
- A step or a jump publishes the index for the offset the viewport had
  before its smooth scroll started.

## Model

| member | source | states |
|---|---|---|
| `JsMath.Round` | src/components/HorizontalScrollSection.tsx:100 | `Math.round`: the result r satisfies r - 0.5 <= x < r + 0.5 (nearest integer, ties upward) |
| `JsMath.Abs` | src/components/HorizontalScrollSection.tsx:109 | `Math.abs`: the result is non-negative and is x or -x |
| `JsMath.Min` | src/components/HorizontalScrollSection.tsx:157 | `Math.min`: the result is at most both arguments and is one of them |
| `JsMath.Max` | src/components/HorizontalScrollSection.tsx:159 | `Math.max`: the result is at least both arguments and is one of them |
| `Geometry.CardWidth` | src/components/HorizontalScrollSection.tsx:88-93 | slot width is 296 exactly when a window exists and is narrower than 768, and 344 otherwise |
| `Geometry.CardWidthMonotone` | src/components/HorizontalScrollSection.tsx:88-93 | slot width is positive and never shrinks as the window widens |
| `Geometry.SlotOverWidth` | src/components/HorizontalScrollSection.tsx:119 | `index * cardWidth` divided by the width gives the index back: card j starts j slots in |
| `Geometry.SlotOffsetSucc` | src/components/HorizontalScrollSection.tsx:162 | consecutive indices give targets exactly one slot width apart |
| `Geometry.SlotOffsetMonotone` | src/components/HorizontalScrollSection.tsx:340 | a higher index never gives a smaller target offset |
| `Geometry.ClampIndex` | src/components/HorizontalScrollSection.tsx:101 | `max(0, min(i, 9))` is in [0, 9], is i inside the range, and 0 below it or 9 above it |
| `Geometry.ActiveIndexFor` | src/components/HorizontalScrollSection.tsx:96-102 | the published active index always lies in [0, N-1] with N = 10 |
| `Geometry.ActiveIndexIsNearestCard` | src/components/HorizontalScrollSection.tsx:96-102 | the active index names the card whose start is nearest the scroll offset, among all ten cards |
| `Geometry.SnapIndex` | src/components/HorizontalScrollSection.tsx:117-118 | the snap index is the slot nearest the offset in card units (k - 0.5 <= offset/w < k + 0.5), not clamped to the cards |
| `Geometry.SnapTarget` | src/components/HorizontalScrollSection.tsx:117-120 | the snap target is within half a slot of the offset: offset - w/2 < target <= offset + w/2 |
| `Geometry.SnapAtSlot` | src/components/HorizontalScrollSection.tsx:117-120 | a viewport at the start of card k snaps to index k and to its own offset |
| `Geometry.SnapIdempotent` | src/components/HorizontalScrollSection.tsx:117-120 | snapping a snap target gives the same target |
| `Geometry.SnapOnActiveCard` | src/components/HorizontalScrollSection.tsx:117-121 | for offsets in [0, 9w] the snap lands on the card that is then published as active |
| `Geometry.SnapPastLastCard` | src/components/HorizontalScrollSection.tsx:118-119 | at 9.6 slots the unclamped snap index is 10 while the active index is 9 |
| `Geometry.StepIndex` | src/components/HorizontalScrollSection.tsx:155-160 | a right step gives the next card and never passes the last one (at or past it: the last card); a left step gives the previous card and never passes the first |
| `Geometry.StepTarget` | src/components/HorizontalScrollSection.tsx:151-162 | a right step never targets past the last card and a left one never left of 0; away from the ends a right step moves the viewport right by more than w/2 and at most 3w/2, a left step left by the same amounts |
| `Geometry.StepFromCard` | src/components/HorizontalScrollSection.tsx:151-163 | from the start of card k, a right step targets card min(k+1, 9) and a left step card max(k-1, 0); at the ends the target is the current spot |
| `Geometry.StepTargetOnACard` | src/components/HorizontalScrollSection.tsx:151-162 | for 0 <= offset < 10.5 slots, either step targets a card in [0, 9], i.e. an offset in [0, 9w] |
| `Geometry.StepLeftPastLastCard` | src/components/HorizontalScrollSection.tsx:158-162 | at 10.5 slots a left step targets slot 10, where no card starts, so the bound above is needed |
| `Geometry.StepRightThenLeft` | src/components/HorizontalScrollSection.tsx:140-164 | from card k < 9, a right step then a left step from the new target returns to card k |
| `Geometry.StepLeftThenRight` | src/components/HorizontalScrollSection.tsx:140-164 | from card k > 0, a left step then a right step returns to card k |
| `Momentum.Decay` | src/components/HorizontalScrollSection.tsx:111 | friction keeps the sign of the velocity and strictly lowers a non-zero speed |
| `Momentum.Impulse` | src/components/HorizontalScrollSection.tsx:187 | a downward delta raises the velocity, an upward one lowers it, by exactly 1.2·\|dy\| |
| `Momentum.ImpulsesAccumulate` | src/components/HorizontalScrollSection.tsx:187 | two wheel events before a frame give the same velocity as one event with the summed delta |
| `Momentum.Moving` | src/components/HorizontalScrollSection.tsx:109 | a frame moves only when the speed exceeds 0.5, and then friction takes more than 0.04 off the speed; a non-moving speed lies in [-0.5, 0.5] |
| `Momentum.Coast` | src/components/HorizontalScrollSection.tsx:105-123 | an undisturbed loop stops with a residual speed <= 0.5 of the same sign, after at most 25·\|v\| moving frames, at exactly offset + 12.5·(v - residual) |
| `Momentum.GlideBounds` | src/components/HorizontalScrollSection.tsx:109-112 | a fling travels less than 12.5·\|v\| and, if its first frame moves, at least 12.5·(\|v\| - 0.5) |
| `Momentum.MovingFramePreservesRest` | src/components/HorizontalScrollSection.tsx:109-112 | a moving frame leaves the resting point unchanged and uses up exactly one frame of the remaining run |
| `Momentum.StillLoopRestsInPlace` | src/components/HorizontalScrollSection.tsx:113-115 | with speed <= 0.5 the loop stops where it is, after no moving frame |
| `Controller.WheelAccepted` | src/components/HorizontalScrollSection.tsx:171-183 | an accepted event always adds momentum, vertical-dominant, and only towards an edge more than one unit away (down: offset < scrollWidth - clientWidth - 1; up: offset > 1) |
| `Controller.WheelIgnoredExactly` | src/components/HorizontalScrollSection.tsx:171-183 | a wheel event is left to the page exactly when \|dy\| <= \|dx\|, or it moves down with offset >= content - visible - 1, or up with offset <= 1 |
| `Controller.ScrollController.Mount` | src/components/HorizontalScrollSection.tsx:73-78 | a new instance is valid, at offset 0, with no momentum, no frame, no armed timer, card 0 active and no scroll issued; `mounted` holds, standing for the listeners the effect attaches at lines 221-235 |
| `Controller.ScrollController.UpdateActiveIndex` | src/components/HorizontalScrollSection.tsx:96-102 | sets the active index to the clamped rounded index of the current offset and changes nothing else |
| `Controller.ScrollController.Wheel` | src/components/HorizontalScrollSection.tsx:167-194 | with the extents read at the event, prevents the default exactly when the gate accepts; an accepted event adds exactly 1.2·dy to the velocity and leaves the handle set; a frame is requested only if none was pending; an ignored event changes nothing |
| `Controller.ScrollController.Tick` | src/components/HorizontalScrollSection.tsx:105-123 | a moving frame adds v to the offset, sets v to 0.92·v (smaller speed), keeps the loop and keeps the resting point; a stopping frame zeroes v, drops the handle, issues one scroll to round(offset/w)·w after momentum is stopped, and publishes the index of that resting offset |
| `Controller.ScrollController.ScrollTo` | src/components/HorizontalScrollSection.tsx:126-137 | cancels the frame and zeroes v before issuing the scroll to the target; publishes the index of the unchanged offset; leaves the timer alone |
| `Controller.ScrollController.Step` | src/components/HorizontalScrollSection.tsx:140-164 | issues one scroll to the step target of the current offset, with momentum already stopped |
| `Controller.ScrollController.KeyDown` | src/components/HorizontalScrollSection.tsx:197-212 | the arrow keys are prevented, stop momentum, issue one scroll to the step target and publish the index of the current offset; any other key changes nothing |
| `Controller.ScrollController.Jump` | src/components/HorizontalScrollSection.tsx:338-341 | a dot click for card k issues one scroll to k·w, with momentum already stopped |
| `Controller.ScrollController.OnScroll` | src/components/HorizontalScrollSection.tsx:227-230 | a scroll event clears the armed timer and arms a new one: afterwards exactly one timer is armed, whatever was armed before, and nothing else changes |
| `Controller.ScrollController.ScrollEndFires` | src/components/HorizontalScrollSection.tsx:215-219 | the firing timer is consumed, leaving none armed; with a running loop nothing else changes, otherwise only the index is republished; no scroll is issued |
| `Controller.ScrollController.Unmount` | src/components/HorizontalScrollSection.tsx:236-244 | the cleanup leaves no queued frame and no armed timer, and leaves the offset, velocity, handle, index and issued scrolls as they were |
| `Scenarios.SingleNotchFling` | src/components/HorizontalScrollSection.tsx:109-120 | one notch of 50 from the left edge gives v = 60 and comes to rest in [743.75, 750): snap to 688 (slot 2) and card 2 published at width 344, 888 (slot 3) and card 3 at width 296 |
| `Scenarios.RunFramesToRest` | src/components/HorizontalScrollSection.tsx:105-123 | firing the queued frames of an undisturbed loop ends with no frame, no momentum, the viewport at the predicted resting point, exactly one scroll issued (the snap of that point) and its card published |
| `Scenarios.SingleNotchFlingSettles` | src/components/HorizontalScrollSection.tsx:105-123 | the notch driven through the controller issues exactly one scroll, to 688 with card 2 published at width 344, to 888 with card 3 at width 296 |
| `Scenarios.ArrowRightThriceSettled` | src/components/HorizontalScrollSection.tsx:140-164 | three right presses, each after the browser finished the previous scroll, target cards 1, 2 and 3 |
| `Scenarios.ArrowRightThriceUnsettled` | src/components/HorizontalScrollSection.tsx:126-164 | three right presses before the viewport moves all target card 1, and the index stays at 0 |
| `Scenarios.ArrowRightAtLastCard` | src/components/HorizontalScrollSection.tsx:153-163 | a right press at the last card issues exactly one scroll, to the last card's own offset, and the index stays 9 |
| `Scenarios.ScrollBurst` | src/components/HorizontalScrollSection.tsx:227-230 | three scroll events in a row leave exactly one timer armed; after it fires none is left, and the scroll-end has published card 0 |
| `Scenarios.JumpDuringFling` | src/components/HorizontalScrollSection.tsx:126-137 | a dot click during a fling at 55.2 leaves velocity 0 and no queued frame, and issues the scroll to k·w with momentum stopped |
| `Scenarios.ScrollEndDuringFling` | src/components/HorizontalScrollSection.tsx:215-219 | a scroll-end during a fling leaves the index at 0 although the viewport is at card 1; a dot click for card 3 publishes 1, the card under the viewport; the scroll-end after the browser reaches card 3 publishes 3 |

## Left out

- Rendering: the markup, the framer-motion props (in-view entrance animations, hover, the rotating sparkle) and the styling other than scroll snapping.
- The focus test in `handleKeyDown` (lines 201-203): a key press is taken as reaching the carousel.
- The `if (!container) return` guards: the container exists while the instance is mounted.
- Adding and removing event listeners: the `mounted` flag stands for them.
- The browser's smooth-scroll animation and its clamping of `scrollLeft` to [0, scrollWidth - clientWidth]: a scroll is a recorded command, and `offset += velocity` is exact and unclamped. Offsets outside the card range can therefore appear in the model.
- CSS scroll snapping (`scrollSnapType: 'x mandatory'` at line 280 and `scrollSnapAlign: 'center'` at line 293): the browser re-aligns the viewport to a card centre after a scroll ends, programmatic ones included, so it may move the viewport away from the k·w targets the controller computes and from `offset + velocity` after a frame. That re-alignment is not modelled beyond what `BrowserMoves` can stand for; `Tick` takes the write of line 110 as exact.
- Scroll events raised by the browser when the offset changes: the environment calls `OnScroll` itself.
- Timing: `requestAnimationFrame` and the 100 ms `setTimeout` are pending flags with explicit "fires" methods. The delay is not modelled.
- IEEE-754 rounding: JavaScript numbers are exact reals.
- React state updates: `setActiveIndex` takes effect at once.
- `Momentum.Coast`: bounds the number of moving frames by 25·|v|, not by the logarithmic count (58 moving frames for v = 60), because the linear bound is what the termination measure gives.
- `src/components/FloatingGeometry.tsx`, `src/components/ParallaxSection.tsx` and the other section components: 3-D and parallax rendering, a `scrollBy(±400)` wrapper, a mail dialog and static content, none of it part of this controller.

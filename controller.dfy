/** The horizontal momentum-scroll controller of the "What I Bring"
    carousel: one instance per mounted carousel, holding the viewport
    offset, the momentum velocity, the pending animation frame, the pending
    scroll-end timer and the published active index.

    Browser callbacks become methods the environment calls: `Wheel`,
    `KeyDown`, `Jump` (an indicator dot's click), `OnScroll` (a scroll
    event), `Tick` (a queued animation frame firing), `ScrollEndFires`
    (the debounce timer firing) and `Unmount` (the effect cleanup).
    Smooth scrolls are not simulated: each `scrollTo` the controller issues
    is appended to `issued`, and `BrowserMoves` stands for the browser
    changing the offset on its own. */
module Controller {
  import opened JsMath
  import opened Geometry
  import opened Momentum

  /** One `scrollTo({ left: target, behavior: 'smooth' })`, with the
      momentum state at the instant it was issued. */
  datatype ScrollCommand = ScrollCommand(target: real, velocityAtIssue: real, loopPendingAtIssue: bool)

  datatype Key = ArrowRight | ArrowLeft | OtherKey

  /** The wheel gate: a vertical-dominant event, in a direction the
      viewport can still move by more than one unit. `contentExtent` and
      `visibleExtent` are the container's `scrollWidth` and `clientWidth`
      at the time of the event. An accepted event always adds momentum,
      and only towards an edge more than one unit away. */
  predicate WheelAccepted(offset: real, contentExtent: real, visibleExtent: real, deltaX: real, deltaY: real)
    ensures WheelAccepted(offset, contentExtent, visibleExtent, deltaX, deltaY) ==>
      Impulse(0.0, deltaY) != 0.0 && Abs(deltaX) < Abs(deltaY)
    ensures WheelAccepted(offset, contentExtent, visibleExtent, deltaX, deltaY) && Impulse(0.0, deltaY) > 0.0 ==>
      offset < contentExtent - visibleExtent - 1.0
    ensures WheelAccepted(offset, contentExtent, visibleExtent, deltaX, deltaY) && Impulse(0.0, deltaY) < 0.0 ==>
      offset > 1.0
  {
    && Abs(deltaY) > Abs(deltaX)
    && ((deltaY > 0.0 && offset < contentExtent - visibleExtent - 1.0)
        || (deltaY < 0.0 && offset > 1.0))
  }

  /** The three ways a wheel event is left to the page: it is not
      vertical-dominant, or it scrolls down within one unit of the right
      edge, or it scrolls up within one unit of the left edge. */
  lemma WheelIgnoredExactly(offset: real, contentExtent: real, visibleExtent: real, deltaX: real, deltaY: real)
    ensures !WheelAccepted(offset, contentExtent, visibleExtent, deltaX, deltaY) <==>
      || Abs(deltaY) <= Abs(deltaX)
      || (deltaY > 0.0 && offset >= contentExtent - visibleExtent - 1.0)
      || (deltaY < 0.0 && offset <= 1.0)
  {
  }

  class ScrollController {
    /** `container.scrollLeft`. */
    var offset: real
    /** `scrollVelocityRef.current`. */
    var velocity: real
    /** `rafIdRef.current !== null`. */
    var animPending: bool
    /** The browser holds a queued animation-frame callback. */
    var frameQueued: bool
    /** Scroll-end `setTimeout`s armed and not yet fired or cleared. The
      handler keeps one handle, so every clear must come before the next
      arm for this to stay at most one. */
    var armedTimers: nat
    /** The `activeIndex` state that drives the indicator dots. */
    var activeIndex: int
    /** Listeners are attached (between mount and cleanup). */
    var mounted: bool
    /** Every smooth scroll issued so far, oldest first. */
    var issued: seq<ScrollCommand>

    ghost predicate Valid()
      reads this
    {
      && 0 <= activeIndex < CardCount
      // while mounted, the animation handle is set exactly when a frame is queued
      && (mounted ==> frameQueued == animPending)
      // no momentum survives without a running loop
      && (mounted && !animPending ==> velocity == 0.0)
      // the cleanup leaves nothing to fire
      // one pending scroll-end evaluation at most
      && armedTimers <= 1
      && (!mounted ==> !frameQueued && armedTimers == 0)
      // no smooth scroll is ever issued while momentum is live
      && (forall i :: 0 <= i < |issued| ==>
            issued[i].velocityAtIssue == 0.0 && !issued[i].loopPendingAtIssue)
    }

    /** Where the viewport will come to rest if no further input arrives. */
    ghost function Rest(): (r: real)
      reads this
    {
      Coast(offset, velocity).rest
    }

    /** Mounting: the viewport starts at the left edge, nothing is pending
      and the first card is active. */
    constructor Mount()
      ensures Valid() && mounted
      ensures offset == 0.0 && velocity == 0.0 && activeIndex == 0
      ensures !animPending && !frameQueued && armedTimers == 0 && issued == []
    {
      offset, velocity, activeIndex := 0.0, 0.0, 0;
      animPending, frameQueued, armedTimers, mounted := false, false, 0, true;
      issued := [];
    }

    /** `updateActiveIndex`: publish the card nearest to the current
      offset (see Geometry.ActiveIndexIsNearestCard). */
    method UpdateActiveIndex(window: Window)
      requires Valid()
      modifies this`activeIndex
      ensures Valid()
      ensures activeIndex == ActiveIndexFor(offset, CardWidth(window))
    {
      var cardWidth := CardWidth(window);
      var newIndex := Round(offset / cardWidth as real);
      activeIndex := Max(0, Min(newIndex, CardCount - 1));
    }

    /** `handleWheel`. The container's `scrollWidth` and `clientWidth` are
      read anew on every event (a resize changes them), so they are
      parameters. Returns whether the event's default was prevented and
      whether a new animation frame was requested. */
    method Wheel(contentExtent: real, visibleExtent: real, deltaX: real, deltaY: real)
      returns (prevented: bool, scheduled: bool)
      requires Valid() && mounted
      modifies this
      ensures Valid() && mounted
      ensures prevented == WheelAccepted(old(offset), contentExtent, visibleExtent, deltaX, deltaY)
      ensures prevented ==> velocity == old(velocity) + deltaY * ScrollMultiplier && animPending
      ensures !prevented ==> velocity == old(velocity) && animPending == old(animPending)
      // at most one loop: a frame is requested only when none was pending
      ensures scheduled <==> prevented && !old(animPending)
      ensures offset == old(offset) && activeIndex == old(activeIndex)
      ensures armedTimers == old(armedTimers) && issued == old(issued)
    {
      prevented, scheduled := false, false;
      if Abs(deltaY) <= Abs(deltaX) {
        return;
      }
      var canScrollRight := offset < contentExtent - visibleExtent - 1.0;
      var canScrollLeft := offset > 1.0;
      var scrollingDown := deltaY > 0.0;
      var scrollingUp := deltaY < 0.0;
      if (scrollingDown && canScrollRight) || (scrollingUp && canScrollLeft) {
        prevented := true;
        velocity := Impulse(velocity, deltaY);
        if !animPending {
          animPending, frameQueued := true, true;
          scheduled := true;
        }
      }
    }

    /** `animateMomentum`, run by a queued frame. A moving frame shifts the
      viewport by the velocity, applies friction and queues the next frame;
      the point where the loop will stop does not change. A stopping frame
      zeroes the velocity, drops the handle, issues the (unclamped) snap
      scroll and publishes the index for the offset as it still is. */
    method Tick(window: Window)
      requires Valid() && frameQueued
      modifies this
      ensures Valid() && mounted
      ensures old(Moving(velocity)) ==>
        && offset == old(offset) + old(velocity)
        && velocity == Decay(old(velocity))
        && Abs(velocity) < Abs(old(velocity))
        && animPending && frameQueued
        && issued == old(issued) && activeIndex == old(activeIndex)
        && Rest() == old(Rest())
      ensures !old(Moving(velocity)) ==>
        && velocity == 0.0 && !animPending && !frameQueued
        && offset == old(offset) == old(Rest())
        && issued == old(issued) + [ScrollCommand(SnapTarget(offset, CardWidth(window)), 0.0, false)]
        && activeIndex == ActiveIndexFor(offset, CardWidth(window))
      ensures armedTimers == old(armedTimers)
    {
      frameQueued := false;
      if Abs(velocity) > MinVelocity {
        MovingFramePreservesRest(offset, velocity);
        offset := offset + velocity;
        velocity := Decay(velocity);
        frameQueued := true;
      } else {
        StillLoopRestsInPlace(offset, velocity);
        velocity := 0.0;
        animPending := false;
        var cardWidth := CardWidth(window);
        var targetIndex := Round(offset / cardWidth as real);
        var targetScroll := SlotOffset(targetIndex, cardWidth);
        issued := issued + [ScrollCommand(targetScroll, velocity, animPending)];
        UpdateActiveIndex(window);
      }
    }

    /** `smoothScrollTo`: cancel the momentum loop, zero the velocity, issue
      the smooth scroll, then publish the index for the offset the
      viewport still has (the smooth scroll has not moved it yet). The
      scroll-end timer is left alone. */
    method ScrollTo(target: real, window: Window)
      requires Valid() && mounted
      modifies this
      ensures Valid() && mounted
      ensures velocity == 0.0 && !animPending && !frameQueued
      ensures issued == old(issued) + [ScrollCommand(target, 0.0, false)]
      ensures activeIndex == ActiveIndexFor(offset, CardWidth(window))
      ensures offset == old(offset) && armedTimers == old(armedTimers)
    {
      if animPending {
        frameQueued := false;
        animPending := false;
      }
      velocity := 0.0;
      issued := issued + [ScrollCommand(target, velocity, animPending)];
      UpdateActiveIndex(window);
    }

    /** `scrollByOneCard`: scroll to the card next to the rounded current
      one, clamped to the first and last card. */
    method Step(dir: Direction, window: Window)
      requires Valid() && mounted
      modifies this
      ensures Valid() && mounted
      ensures velocity == 0.0 && !animPending && !frameQueued
      ensures issued == old(issued) + [ScrollCommand(StepTarget(offset, CardWidth(window), dir), 0.0, false)]
      ensures activeIndex == ActiveIndexFor(offset, CardWidth(window))
      ensures offset == old(offset) && armedTimers == old(armedTimers)
    {
      var cardWidth := CardWidth(window);
      var currentIndex := Round(offset / cardWidth as real);
      var maxIndex := CardCount - 1;
      var newIndex;
      if dir == Right {
        newIndex := Min(currentIndex + 1, maxIndex);
      } else {
        newIndex := Max(currentIndex - 1, 0);
      }
      var targetScroll := SlotOffset(newIndex, cardWidth);
      ScrollTo(targetScroll, window);
    }

    /** `handleKeyDown` once the carousel has focus: the arrow keys step,
      other keys are left alone. */
    method KeyDown(key: Key, window: Window) returns (prevented: bool)
      requires Valid() && mounted
      modifies this
      ensures Valid() && mounted
      ensures prevented <==> key != OtherKey
      ensures key == ArrowRight ==>
        issued == old(issued) + [ScrollCommand(StepTarget(offset, CardWidth(window), Right), 0.0, false)]
      ensures key == ArrowLeft ==>
        issued == old(issued) + [ScrollCommand(StepTarget(offset, CardWidth(window), Left), 0.0, false)]
      ensures key == OtherKey ==>
        && velocity == old(velocity) && animPending == old(animPending)
        && issued == old(issued) && activeIndex == old(activeIndex)
      ensures key != OtherKey ==> velocity == 0.0 && !animPending && !frameQueued
      ensures key != OtherKey ==> activeIndex == ActiveIndexFor(offset, CardWidth(window))
      ensures offset == old(offset) && armedTimers == old(armedTimers)
    {
      prevented := false;
      if key == ArrowRight {
        prevented := true;
        Step(Right, window);
      } else if key == ArrowLeft {
        prevented := true;
        Step(Left, window);
      }
    }

    /** An indicator dot's click: scroll straight to card `index`. */
    method Jump(index: int, window: Window)
      requires Valid() && mounted
      requires 0 <= index < CardCount
      modifies this
      ensures Valid() && mounted
      ensures velocity == 0.0 && !animPending && !frameQueued
      ensures issued == old(issued) + [ScrollCommand(SlotOffset(index, CardWidth(window)), 0.0, false)]
      ensures activeIndex == ActiveIndexFor(offset, CardWidth(window))
      ensures offset == old(offset) && armedTimers == old(armedTimers)
    {
      var cardWidth := CardWidth(window);
      ScrollTo(SlotOffset(index, cardWidth), window);
    }

    /** `onScroll`: clear the scroll-end timer and arm a new one (100 ms),
      so a burst of scroll events leaves exactly one pending evaluation. */
    method OnScroll()
      requires Valid() && mounted
      modifies this`armedTimers
      ensures Valid() && armedTimers == 1
    {
      // clearTimeout(scrollTimeout): a no-op once the timer has fired
      if armedTimers > 0 {
        armedTimers := armedTimers - 1;
      }
      // scrollTimeout = setTimeout(handleScrollEnd, 100)
      armedTimers := armedTimers + 1;
    }

    /** `handleScrollEnd`, run by the timer: while the momentum loop holds
      its handle it does nothing; otherwise it publishes the index for
      the current offset. It never issues a scroll. */
    method ScrollEndFires(window: Window)
      requires Valid() && armedTimers > 0
      modifies this
      ensures Valid() && mounted && armedTimers == old(armedTimers) - 1 == 0
      ensures activeIndex == if old(animPending) then old(activeIndex) else ActiveIndexFor(offset, CardWidth(window))
      ensures offset == old(offset) && velocity == old(velocity) && issued == old(issued)
      ensures animPending == old(animPending) && frameQueued == old(frameQueued)
    {
      armedTimers := armedTimers - 1;
      if animPending {
        return;
      }
      UpdateActiveIndex(window);
    }

    /** The effect cleanup: remove the listeners, clear the scroll-end
      timer and cancel a queued frame. `rafIdRef` itself keeps its value. */
    method Unmount()
      requires Valid() && mounted
      modifies this
      ensures Valid() && !mounted && !frameQueued && armedTimers == 0
      ensures offset == old(offset) && velocity == old(velocity) && animPending == old(animPending)
      ensures activeIndex == old(activeIndex) && issued == old(issued)
    {
      mounted := false;
      armedTimers := 0;
      if animPending {
        frameQueued := false;
      }
    }

    /** The browser moves the viewport by itself: a smooth scroll in
      progress or done, a touch or trackpad gesture, the scrollbar. */
    method BrowserMoves(newOffset: real)
      requires Valid()
      modifies this`offset
      ensures Valid() && offset == newOffset
    {
      offset := newOffset;
    }
  }
}

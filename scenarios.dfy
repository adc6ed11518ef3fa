/** Concrete runs of the controller, as a user would produce them. Each
    builds a fresh carousel, drives it through the controller's entry
    points and returns what it observed. */
module Scenarios {
  import opened JsMath
  import opened Geometry
  import opened Momentum
  import opened Controller

  /** One wheel notch of 50 from a resting viewport at the left edge gives
      a velocity of 60. Left alone, the viewport comes to rest between
      743.75 and 750, which is slot 2 in the wide layout (width 344) and
      slot 3 in the narrow one (width 296): that is where the snap scroll
      goes and the card that is published. */
  lemma {:induction false} SingleNotchFling(offset: real, velocity: real)
    requires offset == 0.0 && velocity == Impulse(0.0, 50.0)
    ensures velocity == 60.0
    ensures 743.75 <= Coast(offset, velocity).rest < 750.0
    ensures SnapIndex(Coast(offset, velocity).rest, 344) == 2
    ensures SnapIndex(Coast(offset, velocity).rest, 296) == 3
    ensures SnapTarget(Coast(offset, velocity).rest, 344) == 688.0
    ensures SnapTarget(Coast(offset, velocity).rest, 296) == 888.0
    ensures ActiveIndexFor(Coast(offset, velocity).rest, 344) == 2
    ensures ActiveIndexFor(Coast(offset, velocity).rest, 296) == 3
  {
    var rest := Coast(offset, velocity).rest;
    assert 743.75 <= rest < 750.0;
    RestingBetween(rest);
  }

  /** Any resting point in [743.75, 750) snaps to slot 2 (688) at width 344
      and to slot 3 (888) at width 296, and publishes that card. */
  lemma RestingBetween(rest: real)
    requires 743.75 <= rest < 750.0
    ensures SnapIndex(rest, 344) == 2 && SnapIndex(rest, 296) == 3
    ensures SnapTarget(rest, 344) == 688.0 && SnapTarget(rest, 296) == 888.0
    ensures ActiveIndexFor(rest, 344) == 2 && ActiveIndexFor(rest, 296) == 3
  {
    assert 1.5 <= rest / 344.0 < 2.5;
    SettlesOnCard(rest, 344, 2);
    assert SlotOffset(2, 344) == 688.0;
    assert 2.5 <= rest / 296.0 < 3.5;
    SettlesOnCard(rest, 296, 3);
    assert SlotOffset(3, 296) == 888.0;
  }

  /** An offset within half a slot of card k's start, in card units,
      snaps to card k and publishes it. */
  lemma SettlesOnCard(offset: real, width: int, k: int)
    requires width > 0 && 0 <= k <= MaxIndex
    requires k as real - 0.5 <= offset / width as real < k as real + 0.5
    ensures SnapIndex(offset, width) == k
    ensures SnapTarget(offset, width) == SlotOffset(k, width)
    ensures ActiveIndexFor(offset, width) == k
  {
    RoundUnique(offset / width as real, k);
  }

  /** The browser firing queued frames with no other input until the
      momentum loop stops by itself: exactly one scroll is issued, the snap
      of the point where the loop was headed when the frames began, and
      the card at that point is published. */
  method RunFramesToRest(c: ScrollController, window: Window)
    requires c.Valid() && c.mounted && c.frameQueued
    modifies c
    ensures c.Valid() && c.mounted && !c.frameQueued && !c.animPending && c.velocity == 0.0
    ensures c.offset == old(c.Rest())
    ensures c.issued == old(c.issued) + [ScrollCommand(SnapTarget(old(c.Rest()), CardWidth(window)), 0.0, false)]
    ensures c.activeIndex == ActiveIndexFor(old(c.Rest()), CardWidth(window))
  {
    ghost var rest := c.Rest();
    ghost var before := c.issued;
    while c.frameQueued
      invariant c.Valid() && c.mounted
      invariant c.frameQueued ==> c.Rest() == rest && c.issued == before
      invariant !c.frameQueued ==>
        && !c.animPending && c.velocity == 0.0 && c.offset == rest
        && c.issued == before + [ScrollCommand(SnapTarget(rest, CardWidth(window)), 0.0, false)]
        && c.activeIndex == ActiveIndexFor(rest, CardWidth(window))
      decreases c.frameQueued, Coast(c.offset, c.velocity).frames
    {
      if Moving(c.velocity) {
        MovingFramePreservesRest(c.offset, c.velocity);
      }
      c.Tick(window);
    }
  }

  /** The same notch driven through the controller: after the wheel event
      the queued frames run until the loop stops by itself. The one scroll
      issued is the snap of the resting point, slot 2 (688) in the wide
      layout and slot 3 (888) in the narrow one, and that card is
      published. */
  method SingleNotchFlingSettles(window: Window, contentExtent: real, visibleExtent: real)
    returns (commands: seq<ScrollCommand>, index: int)
    requires contentExtent - visibleExtent > 1.0
    ensures |commands| == 1 && commands[0].velocityAtIssue == 0.0 && !commands[0].loopPendingAtIssue
    ensures CardWidth(window) == 344 ==> commands[0].target == 688.0 && index == 2
    ensures CardWidth(window) == 296 ==> commands[0].target == 888.0 && index == 3
  {
    var c := new ScrollController.Mount();
    var prevented, scheduled := c.Wheel(contentExtent, visibleExtent, 0.0, 50.0);
    ghost var rest := c.Rest();
    assert && SnapTarget(rest, 344) == 688.0 && ActiveIndexFor(rest, 344) == 2
           && SnapTarget(rest, 296) == 888.0 && ActiveIndexFor(rest, 296) == 3 by {
      SingleNotchFling(c.offset, c.velocity);
    }
    RunFramesToRest(c, window);
    commands, index := c.issued, c.activeIndex;
  }

  /** Three right-arrow presses from the first card, the browser finishing
      each smooth scroll before the next press: cards 1, 2 and 3 are
      targeted in turn. */
  method ArrowRightThriceSettled(window: Window)
    returns (targets: seq<real>)
    ensures targets == [SlotOffset(1, CardWidth(window)), SlotOffset(2, CardWidth(window)),
                        SlotOffset(3, CardWidth(window))]
  {
    var w := CardWidth(window);
    var c := new ScrollController.Mount();
    assert c.offset == SlotOffset(0, w);
    StepFromCard(0, w);
    c.Step(Right, window);
    c.BrowserMoves(c.issued[0].target);
    StepFromCard(1, w);
    c.Step(Right, window);
    c.BrowserMoves(c.issued[1].target);
    StepFromCard(2, w);
    c.Step(Right, window);
    targets := [c.issued[0].target, c.issued[1].target, c.issued[2].target];
  }

  /** The same three presses arriving before the browser has moved the
      viewport at all: the current card is read from the offset, so every
      press targets card 1, and the published index stays at card 0. */
  method ArrowRightThriceUnsettled(window: Window)
    returns (targets: seq<real>, index: int)
    ensures targets == [SlotOffset(1, CardWidth(window)), SlotOffset(1, CardWidth(window)),
                        SlotOffset(1, CardWidth(window))]
    ensures index == 0
  {
    var w := CardWidth(window);
    var c := new ScrollController.Mount();
    assert c.offset == SlotOffset(0, w);
    StepFromCard(0, w);
    c.Step(Right, window);
    c.Step(Right, window);
    c.Step(Right, window);
    SnapAtSlot(0, w);
    targets := [c.issued[0].target, c.issued[1].target, c.issued[2].target];
    index := c.activeIndex;
  }

  /** At the last card a right-arrow press still issues a scroll, to the
      spot the viewport is already at, and the index stays on the last
      card. */
  method ArrowRightAtLastCard(window: Window)
    returns (commands: seq<ScrollCommand>, index: int)
    ensures commands == [ScrollCommand(SlotOffset(MaxIndex, CardWidth(window)), 0.0, false)]
    ensures index == MaxIndex
  {
    var w := CardWidth(window);
    var c := new ScrollController.Mount();
    c.BrowserMoves(SlotOffset(MaxIndex, w));
    StepFromCard(MaxIndex, w);
    c.Step(Right, window);
    SnapAtSlot(MaxIndex, w);
    commands := c.issued;
    index := c.activeIndex;
  }

  /** A dot clicked while a fling is running (one notch of 50 gave 60, one
      frame of friction left 55.2): the velocity is zeroed and the queued frame cancelled before the jump's
      scroll is issued, so no frame can re-apply momentum afterwards. */
  method JumpDuringFling(window: Window, contentExtent: real, visibleExtent: real, k: int)
    returns (flingVelocity: real, velocity: real, frameQueued: bool, command: ScrollCommand)
    requires contentExtent - visibleExtent > 1.0
    requires 0 <= k < CardCount
    ensures flingVelocity == 55.2
    ensures velocity == 0.0 && !frameQueued
    ensures command == ScrollCommand(SlotOffset(k, CardWidth(window)), 0.0, false)
  {
    var c := new ScrollController.Mount();
    var prevented, scheduled := c.Wheel(contentExtent, visibleExtent, 0.0, 50.0);
    assert prevented && scheduled && c.velocity == 60.0;
    c.Tick(window);
    flingVelocity := c.velocity;
    c.Jump(k, window);
    velocity, frameQueued, command := c.velocity, c.frameQueued, c.issued[0];
  }

  /** A burst of three scroll events leaves exactly one scroll-end timer
      armed; once it has fired, none is left, so the burst is evaluated
      once. */
  method ScrollBurst(window: Window) returns (armedAfterBurst: nat, armedAfterFire: nat, index: int)
    ensures armedAfterBurst == 1 && armedAfterFire == 0
    ensures index == 0
  {
    var c := new ScrollController.Mount();
    c.OnScroll();
    c.OnScroll();
    c.OnScroll();
    armedAfterBurst := c.armedTimers;
    c.ScrollEndFires(window);
    SnapAtSlot(0, CardWidth(window));
    assert c.offset == SlotOffset(0, CardWidth(window));
    armedAfterFire, index := c.armedTimers, c.activeIndex;
  }

  /** Scroll events during a fling arm the scroll-end timer, but when it
      fires while the loop still holds its handle it leaves the index
      alone, although the viewport has reached card 1. A dot click for
      card 3 then cancels the loop and publishes card 1, the card under
      the viewport before its smooth scroll. Once the browser has carried
      the viewport to card 3, the next scroll-end publishes 3. */
  method ScrollEndDuringFling(window: Window, contentExtent: real, visibleExtent: real)
    returns (indexDuringFling: int, indexAtJump: int, indexAfterScrollEnd: int)
    requires contentExtent - visibleExtent > 1.0
    ensures indexDuringFling == 0
    ensures indexAtJump == 1
    ensures indexAfterScrollEnd == 3
  {
    var w := CardWidth(window);
    var c := new ScrollController.Mount();
    var prevented, scheduled := c.Wheel(contentExtent, visibleExtent, 0.0, 50.0);
    c.OnScroll();
    c.BrowserMoves(SlotOffset(1, w));
    c.OnScroll();
    c.ScrollEndFires(window);
    indexDuringFling := c.activeIndex;
    c.Jump(3, window);
    SnapAtSlot(1, w);
    indexAtJump := c.activeIndex;
    c.BrowserMoves(SlotOffset(3, w));
    c.OnScroll();
    c.ScrollEndFires(window);
    SnapAtSlot(3, w);
    indexAfterScrollEnd := c.activeIndex;
  }
}

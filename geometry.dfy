/** Layout of the "What I Bring" carousel: how wide one card slot is, which
    card a scroll offset shows, and where the snap and the arrow-key steps
    send the viewport. Card i starts at offset i * width. */
module Geometry {
  import opened JsMath

  /** Six technical skills followed by four soft skills. */
  const CardCount: int := 6 + 4
  const MaxIndex: int := CardCount - 1

  /** Window widths below this use the narrow card layout. */
  const Breakpoint: int := 768

  /** The global `window` as the controller sees it: absent when the code
      runs without a browser, otherwise its `innerWidth`. */
  datatype Window = NoWindow | Browser(innerWidth: int)

  /** `getCardWidth`: card width plus the gap after it, 280 + 16 in the
      narrow layout and 320 + 24 otherwise. */
  function CardWidth(window: Window): (width: int)
    ensures width == 296 || width == 344
    ensures width == 296 <==> window.Browser? && window.innerWidth < Breakpoint
  {
    if window.Browser? && window.innerWidth < Breakpoint then 280 + 16 else 320 + 24
  }

  /** A wider window never gets a narrower slot. */
  lemma CardWidthMonotone(narrow: int, wide: int)
    requires narrow <= wide
    ensures 0 < CardWidth(Browser(narrow)) <= CardWidth(Browser(wide))
  {
  }

  /** Offset at which card j starts: j slots in. */
  function SlotOffset(j: int, width: int): (o: real)
  {
    j as real * width as real
  }

  /** Distance from a scroll offset to the start of card j. */
  function SlotDistance(offset: real, width: int, j: int): (d: real)
  {
    Abs(offset - SlotOffset(j, width))
  }

  /** `Math.max(0, Math.min(i, showcaseItems.length - 1))`. */
  function ClampIndex(i: int): (k: int)
    ensures 0 <= k <= MaxIndex
    ensures 0 <= i <= MaxIndex ==> k == i
    ensures i < 0 ==> k == 0
    ensures i > MaxIndex ==> k == MaxIndex
  {
    Max(0, Min(i, MaxIndex))
  }

  /** The index `updateActiveIndex` publishes for a scroll offset. */
  function ActiveIndexFor(offset: real, width: int): (k: int)
    requires width > 0
    ensures 0 <= k < CardCount
  {
    ClampIndex(Round(offset / width as real))
  }

  /** Slot index the momentum snap aims at: the slot nearest to the
      offset in card units, not clamped to the cards. */
  function SnapIndex(offset: real, width: int): (k: int)
    requires width > 0
    ensures k as real - 0.5 <= offset / width as real < k as real + 0.5
  {
    Round(offset / width as real)
  }

  /** Target of the scroll issued when momentum ends: the snap moves the
      viewport by at most half a slot. */
  function SnapTarget(offset: real, width: int): (t: real)
    requires width > 0
    ensures offset - width as real / 2.0 < t <= offset + width as real / 2.0
  {
    HalfSlotScaled(offset, SnapIndex(offset, width) as real, width as real);
    SlotOffset(SnapIndex(offset, width), width)
  }

  datatype Direction = Left | Right

  /** New index of a one-card step from card `current`: one card over,
      except that a right step never passes the last card and a left step
      never passes the first. */
  function StepIndex(current: int, dir: Direction): (n: int)
    ensures dir == Right ==> n <= MaxIndex && (current < MaxIndex ==> n == current + 1)
    ensures dir == Right && current >= MaxIndex ==> n == MaxIndex
    ensures dir == Left ==> n >= 0 && (current > 0 ==> n == current - 1)
    ensures dir == Left && current <= 0 ==> n == 0
  {
    match dir
    case Right => Min(current + 1, MaxIndex)
    case Left => Max(current - 1, 0)
  }

  /** Target of `scrollByOneCard(dir)` from a scroll offset. Away from the
      ends, a right step moves the viewport right by more than half a slot
      and at most one and a half; a left step mirrors it. A right step
      never targets past the last card, a left step never left of 0. */
  function StepTarget(offset: real, width: int, dir: Direction): (t: real)
    requires width > 0
    ensures dir == Right ==> t <= SlotOffset(MaxIndex, width)
    ensures dir == Left ==> t >= 0.0
    ensures dir == Right && Round(offset / width as real) < MaxIndex ==>
      offset + width as real / 2.0 < t <= offset + 3.0 * width as real / 2.0
    ensures dir == Left && Round(offset / width as real) > 0 ==>
      offset - 3.0 * width as real / 2.0 < t <= offset - width as real / 2.0
  {
    var w := width as real;
    var r := Round(offset / w);
    var n := StepIndex(r, dir);
    HalfSlotScaled(offset, r as real, w);
    assert (r as real + 1.0) * w == r as real * w + w;
    assert (r as real - 1.0) * w == r as real * w - w;
    if dir == Right then
      SlotOffsetMonotone(n, MaxIndex, width);
      SlotOffset(n, width)
    else
      SlotOffsetMonotone(0, n, width);
      SlotOffset(n, width)
  }

  // ---------------------------------------------------------------------
  // Arithmetic helpers: moving between card units (offset / width) and
  // offset units.

  lemma MulLeOfLeDiv(a: real, offset: real, w: real)
    requires w > 0.0 && a <= offset / w
    ensures a * w <= offset
  {
    assert (offset / w) * w == offset;
    assert offset - a * w == (offset / w - a) * w;
  }

  lemma LtMulOfDivLt(a: real, offset: real, w: real)
    requires w > 0.0 && offset / w < a
    ensures offset < a * w
  {
    assert (offset / w) * w == offset;
    assert a * w - offset == (a - offset / w) * w;
  }

  lemma DivLeOfLeMul(offset: real, a: real, w: real)
    requires w > 0.0 && offset <= a * w
    ensures offset / w <= a
  {
    assert offset / w - a == (offset - a * w) / w;
    assert (offset - a * w) / w <= 0.0;
  }

  lemma DivLtOfLtMul(offset: real, a: real, w: real)
    requires w > 0.0 && offset < a * w
    ensures offset / w < a
  {
    assert offset / w - a == (offset - a * w) / w;
    assert (offset - a * w) / w < 0.0;
  }

  /** In card units, card j starts at j. */
  lemma SlotOverWidth(j: int, width: int)
    requires width > 0
    ensures SlotOffset(j, width) / width as real == j as real
  {
  }

  lemma SlotOffsetMonotone(i: int, j: int, width: int)
    requires width > 0 && i <= j
    ensures SlotOffset(i, width) <= SlotOffset(j, width)
  {
  }

  /** Rounding in card units puts the slot within half a slot in offset
      units. */
  lemma HalfSlotScaled(offset: real, r: real, w: real)
    requires w > 0.0
    requires r - 0.5 <= offset / w < r + 0.5
    ensures offset - w / 2.0 < r * w <= offset + w / 2.0
  {
    MulLeOfLeDiv(r - 0.5, offset, w);
    LtMulOfDivLt(r + 0.5, offset, w);
    assert (r - 0.5) * w == r * w - 0.5 * w;
    assert (r + 0.5) * w == r * w + 0.5 * w;
  }

  /** Consecutive cards start one slot apart. */
  lemma SlotOffsetSucc(j: int, width: int)
    ensures SlotOffset(j + 1, width) == SlotOffset(j, width) + width as real
  {
    assert (j as real + 1.0) * width as real == j as real * width as real + width as real;
  }

  // ---------------------------------------------------------------------
  // Properties of the index arithmetic.

  /** The published active index names the card whose start is closest to
      the scroll offset, among all cards. */
  lemma {:induction false} ActiveIndexIsNearestCard(offset: real, width: int, j: int)
    requires width > 0 && 0 <= j < CardCount
    ensures SlotDistance(offset, width, ActiveIndexFor(offset, width)) <= SlotDistance(offset, width, j)
  {
    var w := width as real;
    var r := Round(offset / w);
    // the rounded slot starts within half a slot of the offset
    HalfSlotScaled(offset, r as real, w);
    assert offset - w / 2.0 < SlotOffset(r, width) <= offset + w / 2.0;
    if r < 0 {
      // left of the first card: card 0 is nearest, every card lies right of the offset
      SlotOffsetMonotone(r, -1, width);
      SlotOffsetSucc(-1, width);
      SlotOffsetMonotone(0, j, width);
      assert offset < SlotOffset(0, width);
    } else if r > MaxIndex {
      // right of the last card: the last card is nearest, every card lies left of the offset
      SlotOffsetMonotone(MaxIndex + 1, r, width);
      SlotOffsetSucc(MaxIndex, width);
      SlotOffsetMonotone(j, MaxIndex, width);
      assert SlotOffset(MaxIndex, width) < offset;
    } else if j > r {
      SlotOffsetSucc(r, width);
      SlotOffsetMonotone(r + 1, j, width);
    } else if j < r {
      SlotOffsetSucc(r - 1, width);
      SlotOffsetMonotone(j, r - 1, width);
    }
  }

  /** A viewport already at the start of card k snaps to that same spot:
      the snap is a zero-length scroll there. */
  lemma {:induction false} SnapAtSlot(k: int, width: int)
    requires width > 0
    ensures SnapIndex(SlotOffset(k, width), width) == k
    ensures SnapTarget(SlotOffset(k, width), width) == SlotOffset(k, width)
  {
    SlotOverWidth(k, width);
    RoundUnique(k as real, k);
  }

  /** Snapping twice is snapping once. */
  lemma {:induction false} SnapIdempotent(offset: real, width: int)
    requires width > 0
    ensures SnapTarget(SnapTarget(offset, width), width) == SnapTarget(offset, width)
  {
    SnapAtSlot(SnapIndex(offset, width), width);
  }

  /** Inside the card range the snap lands on the active card. Past the
      last card it does not: the snap index is left unclamped. */
  lemma {:induction false} SnapOnActiveCard(offset: real, width: int)
    requires width > 0
    requires 0.0 <= offset <= SlotOffset(MaxIndex, width)
    ensures SnapTarget(offset, width) == SlotOffset(ActiveIndexFor(offset, width), width)
  {
    var w := width as real;
    DivLeOfLeMul(offset, MaxIndex as real, w);
    assert 0.0 <= offset / w <= MaxIndex as real;
  }

  /** Example: a viewport 9.6 slots in snaps to slot 10, where no card
      starts, while the active index it publishes is 9. */
  lemma SnapPastLastCard(width: int)
    requires width > 0
    ensures SnapIndex(9.6 * width as real, width) == 10
    ensures ActiveIndexFor(9.6 * width as real, width) == MaxIndex
  {
    var w := width as real;
    assert (9.6 * w) / w == 9.6;
    RoundUnique(9.6, 10);
  }

  /** From the start of card k a right step targets card k + 1 and a left
      step card k - 1; at the last (first) card a right (left) step targets
      the card already shown. The source still issues that scroll. */
  lemma {:induction false} StepFromCard(k: int, width: int)
    requires width > 0 && 0 <= k <= MaxIndex
    ensures StepTarget(SlotOffset(k, width), width, Right) == SlotOffset(if k < MaxIndex then k + 1 else k, width)
    ensures StepTarget(SlotOffset(k, width), width, Left) == SlotOffset(if k > 0 then k - 1 else k, width)
  {
    SnapAtSlot(k, width);
  }

  /** A step lands on a card: it targets a slot in [0, MaxIndex], provided
      the viewport is not scrolled left of 0 nor more than half a slot past
      the slot after the last card. */
  lemma {:induction false} StepTargetOnACard(offset: real, width: int, dir: Direction)
    requires width > 0
    requires 0.0 <= offset < SlotOffset(CardCount, width) + width as real / 2.0
    ensures 0 <= StepIndex(Round(offset / width as real), dir) <= MaxIndex
    ensures 0.0 <= StepTarget(offset, width, dir) <= SlotOffset(MaxIndex, width)
  {
    var w := width as real;
    assert CardCount as real * w + w / 2.0 == (CardCount as real + 0.5) * w;
    DivLtOfLtMul(offset, CardCount as real + 0.5, w);
    var i := StepIndex(Round(offset / w), dir);
    assert 0 <= i <= MaxIndex;
    SlotOffsetMonotone(0, i, width);
    SlotOffsetMonotone(i, MaxIndex, width);
  }

  /** Example: scrolled 10.5 slots in, a left step targets slot 10, where no
      card starts. The bound in StepTargetOnACard is therefore needed. */
  lemma StepLeftPastLastCard(width: int)
    requires width > 0
    ensures StepTarget(10.5 * width as real, width, Left) == SlotOffset(CardCount, width)
  {
    var w := width as real;
    assert (10.5 * w) / w == 10.5;
    RoundUnique(10.5, 11);
  }

  /** A right step from card k followed by a left step from where it landed
      returns to card k, for every k but the last. */
  lemma {:induction false} StepRightThenLeft(k: int, width: int)
    requires width > 0 && 0 <= k < MaxIndex
    ensures StepTarget(StepTarget(SlotOffset(k, width), width, Right), width, Left) == SlotOffset(k, width)
  {
    StepFromCard(k, width);
    StepFromCard(k + 1, width);
  }

  /** And symmetrically a left step then a right step, for every k but the
      first. */
  lemma {:induction false} StepLeftThenRight(k: int, width: int)
    requires width > 0 && 0 < k <= MaxIndex
    ensures StepTarget(StepTarget(SlotOffset(k, width), width, Left), width, Right) == SlotOffset(k, width)
  {
    StepFromCard(k, width);
    StepFromCard(k - 1, width);
  }
}

/**
 * The anchor arithmetic shared by the two editors (src/view.py and
 * src/sbardef.py): `clamp`, the anchor correction `addToScene` applies and
 * the inverse correction `SBarElem.mouseReleaseEvent` applies when a drag is
 * committed. Halving is the integer `>> 1` of src/sbardef.py.
 */
module Geometry {
  import opened DoomData

  /** clamp(smallest, largest, n) = max(smallest, min(n, largest)). */
  function Clamp(smallest: int, largest: int, n: int): (r: int)
    ensures smallest <= n <= largest ==> r == n
    ensures smallest <= largest ==> smallest <= r <= largest
    ensures largest < smallest ==> r == smallest
    ensures n < smallest ==> r == smallest
    ensures smallest <= largest < n ==> r == largest
  {
    var m := if n < largest then n else largest;
    if smallest < m then m else smallest
  }

  /**
   * How far the top-left of a raster `width` wide lies left of its anchor:
   * half the width for h_middle (which wins over h_right), the width for
   * h_right, nothing for left.
   */
  function HShift(alignment: int, width: nat): nat
  {
    if HMiddle(alignment) then width / 2 else if HRight(alignment) then width else 0
  }

  /** The vertical counterpart: v_middle, then v_bottom, else top. */
  function VShift(alignment: int, height: nat): nat
  {
    if VMiddle(alignment) then height / 2 else if VBottom(alignment) then height else 0
  }

  /**
   * The size `boundingRect()` reports for a selectable pixmap item: the
   * pixmap padded by half a pixel on every side, so one more than the pixmap
   * on each axis. The release reads its width and height from it.
   */
  function Bound(size: nat): nat
  {
    size + 1
  }

  /**
   * The committed top-left x of a drop, for an item whose bounding rectangle
   * is `width` wide: clamped to [0, SCREENWIDTH - width + 1] unless the item
   * is h_middle aligned. Right alignment is still clamped. For a bounding
   * width `Bound(w)` the range keeps the whole `w`-wide pixmap on the canvas.
   */
  function DropX(alignment: int, width: nat, dropX: int): (r: int)
    ensures HMiddle(alignment) ==> r == dropX
    ensures !HMiddle(alignment) && width <= SCREENWIDTH + 1 ==> 0 <= r <= SCREENWIDTH - width + 1
    ensures !HMiddle(alignment) && 0 <= dropX <= SCREENWIDTH - width + 1 ==> r == dropX
  {
    if HMiddle(alignment) then dropX else Clamp(0, SCREENWIDTH - width + 1, dropX)
  }

  /** The committed top-left y: clamped to [0, screenHeight - height + 1] unless v_middle aligned. */
  function DropY(alignment: int, height: nat, screenHeight: int, dropY: int): (r: int)
    ensures VMiddle(alignment) ==> r == dropY
    ensures !VMiddle(alignment) && height <= screenHeight + 1 ==> 0 <= r <= screenHeight - height + 1
    ensures !VMiddle(alignment) && 0 <= dropY <= screenHeight - height + 1 ==> r == dropY
  {
    if VMiddle(alignment) then dropY else Clamp(0, screenHeight - height + 1, dropY)
  }

  /**
   * The `x` the release writes back into the element, for an item whose
   * bounding rectangle is `width` wide: the committed top-left moved back by
   * the anchor shift of that width, minus the `x_diff` captured at layout
   * time.
   */
  function CommitX(alignment: int, width: nat, xDiff: int, dropX: int): int
  {
    DropX(alignment, width, dropX) + HShift(alignment, width) - xDiff
  }

  function CommitY(alignment: int, height: nat, yDiff: int, screenHeight: int, dropY: int): int
  {
    DropY(alignment, height, screenHeight, dropY) + VShift(alignment, height) - yDiff
  }

  /**
   * The write-back with the shift addToScene applied, that of the pixmap
   * (`width` wide), rather than that of its bounding rectangle; the clamp
   * is the release's own.
   */
  function CorrectedCommitX(alignment: int, width: nat, xDiff: int, dropX: int): int
  {
    DropX(alignment, Bound(width), dropX) + HShift(alignment, width) - xDiff
  }

  function CorrectedCommitY(alignment: int, height: nat, yDiff: int, screenHeight: int, dropY: int): int
  {
    DropY(alignment, Bound(height), screenHeight, dropY) + VShift(alignment, height) - yDiff
  }

  /** How much further the bounding rectangle's anchor shift reaches than the pixmap's. */
  function HDrift(alignment: int, width: nat): int
  {
    HShift(alignment, Bound(width)) - HShift(alignment, width)
  }

  function VDrift(alignment: int, height: nat): int
  {
    VShift(alignment, Bound(height)) - VShift(alignment, height)
  }

  /**
   * The drift is one pixel on a right or bottom aligned axis, one pixel on a
   * middle aligned axis of odd size, and nothing otherwise.
   */
  lemma {:induction false} DriftValues(alignment: int, width: nat, height: nat)
    ensures HDrift(alignment, width) == if HMiddle(alignment) then width % 2 else if HRight(alignment) then 1 else 0
    ensures VDrift(alignment, height) == if VMiddle(alignment) then height % 2 else if VBottom(alignment) then 1 else 0
  {
    assert (width + 1) / 2 - width / 2 == width % 2;
    assert (height + 1) / 2 - height / 2 == height % 2;
  }

  /** The release as written writes back the corrected value moved by the drift. */
  lemma CommitDrift(alignment: int, width: nat, height: nat, screenHeight: int,
                    xDiff: int, yDiff: int, dropX: int, dropY: int)
    ensures CommitX(alignment, Bound(width), xDiff, dropX) == CorrectedCommitX(alignment, width, xDiff, dropX) + HDrift(alignment, width)
    ensures CommitY(alignment, Bound(height), yDiff, screenHeight, dropY)
      == CorrectedCommitY(alignment, height, yDiff, screenHeight, dropY) + VDrift(alignment, height)
  {
  }

  /**
   * The corrected write-back undoes addToScene's anchor shift: dropping an
   * item where layout put it (inside the clamp range, or on a middle-aligned
   * axis) writes back the anchor minus the captured difference.
   */
  lemma {:induction false} CommitUndoesAnchorShift(alignment: int, width: nat, height: nat, screenHeight: int,
                                                   anchorX: int, anchorY: int, xDiff: int, yDiff: int)
    requires HMiddle(alignment) || 0 <= anchorX - HShift(alignment, width) <= SCREENWIDTH - Bound(width) + 1
    requires VMiddle(alignment) || 0 <= anchorY - VShift(alignment, height) <= screenHeight - Bound(height) + 1
    ensures CorrectedCommitX(alignment, width, xDiff, anchorX - HShift(alignment, width)) == anchorX - xDiff
    ensures CorrectedCommitY(alignment, height, yDiff, screenHeight, anchorY - VShift(alignment, height)) == anchorY - yDiff
  {
  }

  /**
   * As written, a right-aligned item 16 pixels wide whose anchor is at x 100
   * (so drawn from 84), released without moving, writes back x 101.
   */
  lemma RightAlignedReleaseDrifts()
    ensures HRight(H_RIGHT) && !HMiddle(H_RIGHT)
    ensures CommitX(H_RIGHT, Bound(16), 0, 100 - HShift(H_RIGHT, 16)) == 101
    ensures CorrectedCommitX(H_RIGHT, 16, 0, 100 - HShift(H_RIGHT, 16)) == 100
  {
  }
}

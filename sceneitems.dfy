/**
 * The movable scene item of one drawn element (`SBarElem` in src/view.py
 * and src/sbardef.py): it remembers the element it belongs to and the
 * difference between its layout anchor and the element's own `x, y`, and
 * on mouse release writes the dropped position back into the document.
 */
module SceneItems {
  import opened DoomData
  import opened Document
  import opened Geometry
  import opened Layout

  /** The scene items as layout nodes, in the order they were added. */
  ghost function Nodes(items: seq<SBarElem>): seq<Node>
  {
    if items == [] then [] else Nodes(items[..|items| - 1]) + [items[|items| - 1].Node()]
  }

  /** Concatenation regroups; stated once so that the drawing proofs need not re-derive it. */
  lemma AppendAssoc<T>(a: seq<T>, b: seq<T>, c: seq<T>)
    ensures a + (b + c) == (a + b) + c
  {
  }

  class SBarElem {
    /** The document the element lives in, and where: status bar `bar`, child path `path`. */
    const doc: Doc
    const bar: nat
    const path: seq<nat>
    const alignment: int
    /** The size of the item's pixmap; its bounding rectangle is `Bound` of it. */
    const width: nat
    const height: nat
    /** Layout anchor minus the element's `x`/`y`, captured at construction. */
    const xDiff: int
    const yDiff: int
    const screenHeight: int
    /** The anchor the layout gave the item (the source keeps only its difference to the element's `x, y`). */
    ghost const anchorX: int
    ghost const anchorY: int
    /** The item's position in the scene (its top-left corner). */
    var x: int
    var y: int

    /** The scene item as the layout node it was created for. */
    ghost function Node(): Node
    {
      Layout.Node(path, anchorX - HShift(alignment, width), anchorY - VShift(alignment, height),
                  width, height, alignment, xDiff, yDiff)
    }

    /** The item sits where the layout put it: its anchor shifted by the alignment. */
    ghost predicate AtLayoutPosition()
      reads this
    {
      x == Node().drawX && y == Node().drawY
    }

    /**
     * An item for element `e` anchored at (ax, ay). Its position is the
     * scene's origin until it is placed.
     */
    constructor(ax: int, ay: int, e: Element, doc: Doc, bar: nat, path: seq<nat>,
                screenHeight: int, width: nat, height: nat)
      ensures this.doc == doc && this.bar == bar && this.path == path && this.alignment == e.alignment
      ensures this.width == width && this.height == height && this.screenHeight == screenHeight
      ensures xDiff == ax - e.x && yDiff == ay - e.y
      ensures Node() == MakeNode(ax, ay, e, path, width, height)
      ensures x == 0 && y == 0
    {
      this.doc := doc;
      this.bar := bar;
      this.path := path;
      this.alignment := e.alignment;
      this.width := width;
      this.height := height;
      xDiff := ax - e.x;
      yDiff := ay - e.y;
      anchorX := ax;
      anchorY := ay;
      this.screenHeight := screenHeight;
      x := 0;
      y := 0;
    }

    /** setPos: also what dragging the item with the mouse does. */
    method SetPos(x: int, y: int)
      modifies this
      ensures this.x == x && this.y == y
    {
      this.x := x;
      this.y := y;
    }

    /**
     * mouseReleaseEvent: clamp the dropped position to the canvas on each
     * axis that is not middle-aligned, move the item there, and write the
     * corresponding anchor, less the captured difference, into the
     * element's `x, y`; no other part of the document changes. The size it
     * works with is that of the item's bounding rectangle, `Bound` of the
     * pixmap's, both for the clamp and for moving back to the anchor.
     */
    method MouseRelease()
      requires bar < |doc.statusbars| && ValidPath(doc.statusbars[bar].children, path)
      modifies this, doc
      ensures x == DropX(alignment, Bound(width), old(x)) && y == DropY(alignment, Bound(height), screenHeight, old(y))
      ensures doc.numberfonts == old(doc.numberfonts)
      ensures doc.statusbars == old(doc.statusbars)[bar := old(doc.statusbars[bar]).(children :=
        SetXY(old(doc.statusbars[bar].children), path,
              CommitX(alignment, Bound(width), xDiff, old(x)),
              CommitY(alignment, Bound(height), yDiff, screenHeight, old(y))))]
      ensures ValidPath(doc.statusbars[bar].children, path)
      ensures var t := ElemAt(doc.statusbars[bar].children, path);
        x + HShift(alignment, Bound(width)) - xDiff == t.x && y + VShift(alignment, Bound(height)) - yDiff == t.y
    {
      var nx := x;
      var ny := y;
      var w := width + 1;
      var h := height + 1;
      if !HMiddle(alignment) {
        nx := Clamp(0, SCREENWIDTH - w + 1, nx);
      }
      if !VMiddle(alignment) {
        ny := Clamp(0, screenHeight - h + 1, ny);
      }
      SetPos(nx, ny);
      if HMiddle(alignment) {
        nx := nx + w / 2;
      } else if HRight(alignment) {
        nx := nx + w;
      }
      if VMiddle(alignment) {
        ny := ny + h / 2;
      } else if VBottom(alignment) {
        ny := ny + h;
      }
      var b := doc.statusbars[bar];
      SetXYWritesOnlyXY(b.children, path, nx - xDiff, ny - yDiff, path);
      doc.statusbars := doc.statusbars[bar := b.(children := SetXY(b.children, path, nx - xDiff, ny - yDiff))];
    }
  }
}

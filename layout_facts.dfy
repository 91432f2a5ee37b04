/**
 * Properties of the layout `drawElem` computes: the shape of each item, where
 * in the tree it comes from, how a committed drag moves it, and which
 * elements produce items at all.
 */
module LayoutFacts {
  import opened Wrappers
  import opened DoomData
  import opened Conditions
  import opened Document
  import opened Glyphs
  import opened Geometry
  import opened Layout

  /**
   * A number or percent element adds exactly one item per font of its name,
   * in font order, each as wide as that font's strip (with the percent
   * glyph exactly when the kind is percent) and as high as its digits.
   */
  lemma {:induction false} FontNodesPerMatchingFont(fonts: seq<FontData>, x: int, y: int, e: Element, path: seq<nat>,
                                                    font: string, maxLength: nat, pct: bool)
    ensures var ns := FontNodes(fonts, x, y, e, path, font, maxLength, pct);
            var ms := MatchingFonts(fonts, font);
            |ns| == |ms| &&
            forall i :: 0 <= i < |ns| ==>
              ms[i].name == font &&
              ns[i] == MakeNode(x, y, e, path, ms[i].StripWidth(maxLength, pct), ms[i].maxHeight)
    decreases |fonts|
  {
    if fonts != [] {
      FontNodesPerMatchingFont(fonts[..|fonts| - 1], x, y, e, path, font, maxLength, pct);
    }
  }

  /** Every item an element adds itself is addToScene's node for the element's anchor. */
  lemma OwnNodeShape(lumps: map<string, Lump>, fonts: seq<FontData>, x: int, y: int, e: Element, path: seq<nat>, n: Node)
    requires n in OwnNodes(lumps, fonts, x, y, e, path)
    ensures n == MakeNode(x, y, e, path, n.width, n.height)
  {
    if e.kind.Number? || e.kind.Percent? {
      FontNodesPerMatchingFont(fonts, x, y, e, path, e.kind.font, e.kind.maxLength, e.kind.Percent?);
    }
  }

  /** An element's own item count is the number of fonts of its name, or one per found lump. */
  lemma OwnNodeCount(lumps: map<string, Lump>, fonts: seq<FontData>, x: int, y: int, e: Element, path: seq<nat>)
    ensures |OwnNodes(lumps, fonts, x, y, e, path)| == OwnCount(lumps, fonts, e)
  {
    if e.kind.Number? || e.kind.Percent? {
      FontNodesPerMatchingFont(fonts, x, y, e, path, e.kind.font, e.kind.maxLength, e.kind.Percent?);
    }
  }

  /**
   * Own items do not depend on where the element is: an element of the same
   * kind and alignment anchored elsewhere has the same items there.
   */
  lemma OwnNodesMove(lumps: map<string, Lump>, fonts: seq<FontData>, x: int, y: int, e: Element, path: seq<nat>,
                     n: Node, x2: int, y2: int, e2: Element)
    requires n in OwnNodes(lumps, fonts, x, y, e, path)
    requires e2.kind == e.kind && e2.alignment == e.alignment
    ensures MakeNode(x2, y2, e2, path, n.width, n.height) in OwnNodes(lumps, fonts, x2, y2, e2, path)
  {
    if e.kind.Number? || e.kind.Percent? {
      var font, maxLength, pct := e.kind.font, e.kind.maxLength, e.kind.Percent?;
      FontNodesPerMatchingFont(fonts, x, y, e, path, font, maxLength, pct);
      FontNodesPerMatchingFont(fonts, x2, y2, e2, path, font, maxLength, pct);
      var ns := FontNodes(fonts, x, y, e, path, font, maxLength, pct);
      var i :| 0 <= i < |ns| && ns[i] == n;
      assert FontNodes(fonts, x2, y2, e2, path, font, maxLength, pct)[i] == MakeNode(x2, y2, e2, path, n.width, n.height);
    }
  }

  /** An item of child `j` is an item of the children list. */
  lemma {:induction false} ChildNodeInList(g: Gate, lumps: map<string, Lump>, fonts: seq<FontData>,
                                          px: int, py: int, cs: seq<Element>, path: seq<nat>, j: nat, n: Node)
    requires j < |cs|
    requires n in LayoutElem(g, lumps, fonts, px, py, cs[j], path + [j])
    ensures n in LayoutChildren(g, lumps, fonts, px, py, cs, path)
    decreases |cs|
  {
    var init := cs[..|cs| - 1];
    if j < |cs| - 1 {
      assert init[j] == cs[j];
      ChildNodeInList(g, lumps, fonts, px, py, init, path, j, n);
    }
  }

  /** Every item of a children list is an item of one child. */
  lemma {:induction false} ListNodeOfChild(g: Gate, lumps: map<string, Lump>, fonts: seq<FontData>,
                                          px: int, py: int, cs: seq<Element>, path: seq<nat>, n: Node) returns (j: nat)
    requires n in LayoutChildren(g, lumps, fonts, px, py, cs, path)
    ensures j < |cs| && n in LayoutElem(g, lumps, fonts, px, py, cs[j], path + [j])
    decreases |cs|
  {
    var init := cs[..|cs| - 1];
    if n in LayoutChildren(g, lumps, fonts, px, py, init, path) {
      j := ListNodeOfChild(g, lumps, fonts, px, py, init, path, n);
      assert init[j] == cs[j];
    } else {
      j := |cs| - 1;
    }
  }
  /** An item of an element belongs to the element or to one of its descendants. */
  lemma {:induction false} ElemNodePath(g: Gate, lumps: map<string, Lump>, fonts: seq<FontData>,
                                       px: int, py: int, e: Element, path: seq<nat>, n: Node)
    requires n in LayoutElem(g, lumps, fonts, px, py, e, path)
    ensures |path| <= |n.path| && n.path[..|path|] == path && ValidSubPath(e, n.path[|path|..])
    decreases e
  {
    var x := px + e.x - OffsetX(lumps, e);
    var y := py + e.y - OffsetY(lumps, e);
    assert Visible(g, e);
    ShownElem(g, lumps, fonts, px, py, e, path, x, y);
    if n in OwnNodes(lumps, fonts, x, y, e, path) {
      OwnNodeShape(lumps, fonts, x, y, e, path, n);
      assert n.path[|path|..] == [];
    } else {
      ListNodePath(g, lumps, fonts, x, y, e.children, path, n);
    }
  }

  /** An item of a children list belongs to an element below the list. */
  lemma {:induction false} ListNodePath(g: Gate, lumps: map<string, Lump>, fonts: seq<FontData>,
                                       px: int, py: int, cs: seq<Element>, path: seq<nat>, n: Node)
    requires n in LayoutChildren(g, lumps, fonts, px, py, cs, path)
    ensures |path| < |n.path| && n.path[..|path|] == path && ValidPath(cs, n.path[|path|..])
    decreases cs
  {
    var j := ListNodeOfChild(g, lumps, fonts, px, py, cs, path, n);
    ElemNodePath(g, lumps, fonts, px, py, cs[j], path + [j], n);
    var q := n.path[|path|..];
    assert n.path[..|path| + 1] == path + [j];
    assert n.path[..|path|] == (path + [j])[..|path|] == path;
    assert q[0] == j && q[1..] == n.path[|path| + 1..];
  }

  /**
   * Where an item of an element comes from: its path extends the element's
   * path by a valid sub-path `r`; it carries the alignment of the element
   * `t` at `r`; its anchor (draw position plus the anchor shift) is the
   * parent origin plus the path sum of `x` less lump offsets; and `x_diff` is
   * that anchor less `t.x`.
   */
  lemma {:induction false} ElemNodeOrigin(g: Gate, lumps: map<string, Lump>, fonts: seq<FontData>,
                                         px: int, py: int, e: Element, path: seq<nat>, n: Node)
    requires n in LayoutElem(g, lumps, fonts, px, py, e, path)
    ensures |path| <= |n.path| && n.path[..|path|] == path
    ensures ValidSubPath(e, n.path[|path|..])
    ensures var r := n.path[|path|..];
            var t := SubElemAt(e, r);
            n.alignment == t.alignment &&
            n.drawX + HShift(n.alignment, n.width) == px + SubPathX(lumps, e, r) &&
            n.drawY + VShift(n.alignment, n.height) == py + SubPathY(lumps, e, r) &&
            n.xDiff == px + SubPathX(lumps, e, r) - t.x &&
            n.yDiff == py + SubPathY(lumps, e, r) - t.y
    decreases e
  {
    var x := px + e.x - OffsetX(lumps, e);
    var y := py + e.y - OffsetY(lumps, e);
    assert Visible(g, e);
    ShownElem(g, lumps, fonts, px, py, e, path, x, y);
    if n in OwnNodes(lumps, fonts, x, y, e, path) {
      OwnNodeShape(lumps, fonts, x, y, e, path, n);
      assert n.path[|path|..] == [];
    } else {
      ListNodeOrigin(g, lumps, fonts, x, y, e.children, path, n);
    }
  }

  /** The same for the items of a children list, whose paths are strictly longer. */
  lemma {:induction false} ListNodeOrigin(g: Gate, lumps: map<string, Lump>, fonts: seq<FontData>,
                                         px: int, py: int, cs: seq<Element>, path: seq<nat>, n: Node)
    requires n in LayoutChildren(g, lumps, fonts, px, py, cs, path)
    ensures |path| < |n.path| && n.path[..|path|] == path
    ensures ValidPath(cs, n.path[|path|..])
    ensures var q := n.path[|path|..];
            var t := ElemAt(cs, q);
            n.alignment == t.alignment &&
            n.drawX + HShift(n.alignment, n.width) == px + PathX(lumps, cs, q) &&
            n.drawY + VShift(n.alignment, n.height) == py + PathY(lumps, cs, q) &&
            n.xDiff == px + PathX(lumps, cs, q) - t.x &&
            n.yDiff == py + PathY(lumps, cs, q) - t.y
    decreases cs
  {
    var j := ListNodeOfChild(g, lumps, fonts, px, py, cs, path, n);
    ElemNodeOrigin(g, lumps, fonts, px, py, cs[j], path + [j], n);
    var q := n.path[|path|..];
    assert n.path[..|path| + 1] == path + [j];
    assert n.path[..|path|] == (path + [j])[..|path|] == path;
    assert q[0] == j && q[1..] == n.path[|path| + 1..];
  }

  /**
   * The corrected write-back: releasing an item where layout put it (inside
   * the release's clamp range, or on a middle-aligned axis) writes back the
   * element's own `x`, `y`.
   */
  lemma ReleaseInPlaceKeepsElement(g: Gate, lumps: map<string, Lump>, fonts: seq<FontData>, bar: StatusBar, n: Node)
    requires n in LayoutBar(g, lumps, fonts, bar)
    requires HMiddle(n.alignment) || 0 <= n.drawX <= SCREENWIDTH - Bound(n.width) + 1
    requires VMiddle(n.alignment) || 0 <= n.drawY <= bar.height - Bound(n.height) + 1
    ensures ValidPath(bar.children, n.path)
    ensures CorrectedCommitX(n.alignment, n.width, n.xDiff, n.drawX) == ElemAt(bar.children, n.path).x
    ensures CorrectedCommitY(n.alignment, n.height, n.yDiff, bar.height, n.drawY) == ElemAt(bar.children, n.path).y
  {
    ListNodeOrigin(g, lumps, fonts, 0, 0, bar.children, [], n);
    assert n.path[0..] == n.path;
    var anchorX := n.drawX + HShift(n.alignment, n.width);
    var anchorY := n.drawY + VShift(n.alignment, n.height);
    CommitUndoesAnchorShift(n.alignment, n.width, n.height, bar.height, anchorX, anchorY, n.xDiff, n.yDiff);
  }

  /**
   * The release as written: the same in-place release writes back the
   * element's `x`, `y` moved by the drift, one pixel on a right, bottom or
   * odd-sized middle aligned axis (see DriftValues).
   */
  lemma ReleaseInPlaceDrifts(g: Gate, lumps: map<string, Lump>, fonts: seq<FontData>, bar: StatusBar, n: Node)
    requires n in LayoutBar(g, lumps, fonts, bar)
    requires HMiddle(n.alignment) || 0 <= n.drawX <= SCREENWIDTH - Bound(n.width) + 1
    requires VMiddle(n.alignment) || 0 <= n.drawY <= bar.height - Bound(n.height) + 1
    ensures ValidPath(bar.children, n.path)
    ensures CommitX(n.alignment, Bound(n.width), n.xDiff, n.drawX)
      == ElemAt(bar.children, n.path).x + HDrift(n.alignment, n.width)
    ensures CommitY(n.alignment, Bound(n.height), n.yDiff, bar.height, n.drawY)
      == ElemAt(bar.children, n.path).y + VDrift(n.alignment, n.height)
  {
    ReleaseInPlaceKeepsElement(g, lumps, fonts, bar, n);
    CommitDrift(n.alignment, n.width, n.height, bar.height, n.xDiff, n.yDiff, n.drawX, n.drawY);
  }

  /** An item moved by (dx, dy). */
  function Shifted(n: Node, dx: int, dy: int): Node
  {
    n.(drawX := n.drawX + dx, drawY := n.drawY + dy)
  }

  /** Writing `x, y` anywhere in a drawable element keeps it drawable. */
  lemma {:induction false} SubSetXYDrawable(g: Gate, lumps: map<string, Lump>, fonts: seq<FontData>,
                                           e: Element, r: seq<nat>, ex: int, ey: int)
    requires Drawable(g, lumps, fonts, e) && ValidSubPath(e, r)
    ensures Drawable(g, lumps, fonts, SubSetXY(e, r, ex, ey))
    decreases e
  {
    var e2 := SubSetXY(e, r, ex, ey);
    assert e2.conditions == e.conditions && e2.kind == e.kind;
    assert Evaluable(g, e2);
    if Visible(g, e) && r != [] {
      SetXYDrawable(g, lumps, fonts, e.children, r, ex, ey);
    }
  }

  lemma {:induction false} SetXYDrawable(g: Gate, lumps: map<string, Lump>, fonts: seq<FontData>,
                                        cs: seq<Element>, q: seq<nat>, ex: int, ey: int)
    requires AllDrawable(g, lumps, fonts, cs) && ValidPath(cs, q)
    ensures AllDrawable(g, lumps, fonts, SetXY(cs, q, ex, ey))
    decreases cs
  {
    SubSetXYDrawable(g, lumps, fonts, cs[q[0]], q[1..], ex, ey);
  }

  /** The element at `q` moved by (dx, dy): a relative form of SetXY. */
  function ShiftXY(cs: seq<Element>, q: seq<nat>, dx: int, dy: int): seq<Element>
    requires ValidPath(cs, q)
    decreases |q|, 0
  {
    cs[q[0] := SubShiftXY(cs[q[0]], q[1..], dx, dy)]
  }

  function SubShiftXY(e: Element, r: seq<nat>, dx: int, dy: int): Element
    requires ValidSubPath(e, r)
    decreases |r|, 1
  {
    if r == [] then e.(x := e.x + dx, y := e.y + dy) else e.(children := ShiftXY(e.children, r, dx, dy))
  }

  /** Writing `x, y` is moving by the difference from the element's current `x, y`. */
  lemma {:induction false} SetXYIsShift(cs: seq<Element>, q: seq<nat>, ex: int, ey: int)
    requires ValidPath(cs, q)
    ensures SetXY(cs, q, ex, ey) == ShiftXY(cs, q, ex - ElemAt(cs, q).x, ey - ElemAt(cs, q).y)
    decreases |q|
  {
    var e := cs[q[0]];
    if q[1..] != [] {
      SetXYIsShift(e.children, q[1..], ex, ey);
    }
  }

  /** Moving a shown element moves its own items with it. */
  lemma OwnMove(g: Gate, lumps: map<string, Lump>, fonts: seq<FontData>,
                px: int, py: int, e: Element, path: seq<nat>, n: Node, dx: int, dy: int)
    requires Visible(g, e)
    requires n in OwnNodes(lumps, fonts, px + e.x - OffsetX(lumps, e), py + e.y - OffsetY(lumps, e), e, path)
    ensures Shifted(n, dx, dy) in LayoutElem(g, lumps, fonts, px, py, e.(x := e.x + dx, y := e.y + dy), path)
  {
    var x := px + e.x - OffsetX(lumps, e);
    var y := py + e.y - OffsetY(lumps, e);
    OwnNodeShape(lumps, fonts, x, y, e, path, n);
    var e2 := e.(x := e.x + dx, y := e.y + dy);
    var x2 := px + e2.x - OffsetX(lumps, e2);
    var y2 := py + e2.y - OffsetY(lumps, e2);
    OwnNodesMove(lumps, fonts, x, y, e, path, n, x2, y2, e2);
    assert MakeNode(x2, y2, e2, path, n.width, n.height) == Shifted(n, dx, dy);
    assert e2.conditions == e.conditions;
    ShownElem(g, lumps, fonts, px, py, e2, path, x2, y2);
  }

  /** Replacing a shown element's children keeps the children's items among the element's. */
  lemma ChildrenReplaced(g: Gate, lumps: map<string, Lump>, fonts: seq<FontData>,
                         px: int, py: int, e: Element, cs2: seq<Element>, path: seq<nat>, m: Node, x: int, y: int)
    requires Visible(g, e) && x == px + e.x - OffsetX(lumps, e) && y == py + e.y - OffsetY(lumps, e)
    requires m in LayoutChildren(g, lumps, fonts, x, y, cs2, path)
    ensures m in LayoutElem(g, lumps, fonts, px, py, e.(children := cs2), path)
  {
    var e2 := e.(children := cs2);
    assert e2.conditions == e.conditions && e2.kind == e.kind;
    assert OffsetX(lumps, e2) == OffsetX(lumps, e) && OffsetY(lumps, e2) == OffsetY(lumps, e);
    ShownElem(g, lumps, fonts, px, py, e2, path, x, y);
  }

  /**
   * Moving the element an item belongs to by (dx, dy) moves that item by
   * (dx, dy), and nothing else about it changes.
   */
  lemma {:induction false} ElemMove(g: Gate, lumps: map<string, Lump>, fonts: seq<FontData>,
                                   px: int, py: int, e: Element, path: seq<nat>, n: Node, dx: int, dy: int)
    requires n in LayoutElem(g, lumps, fonts, px, py, e, path)
    requires |path| <= |n.path| && ValidSubPath(e, n.path[|path|..])
    ensures Shifted(n, dx, dy) in LayoutElem(g, lumps, fonts, px, py, SubShiftXY(e, n.path[|path|..], dx, dy), path)
    decreases e, 1
  {
    var x := px + e.x - OffsetX(lumps, e);
    var y := py + e.y - OffsetY(lumps, e);
    assert Visible(g, e);
    ShownElem(g, lumps, fonts, px, py, e, path, x, y);
    if n in OwnNodes(lumps, fonts, x, y, e, path) {
      OwnNodeShape(lumps, fonts, x, y, e, path, n);
      assert n.path[|path|..] == [];
      OwnMove(g, lumps, fonts, px, py, e, path, n, dx, dy);
    } else {
      ListNodePath(g, lumps, fonts, x, y, e.children, path, n);
      ChildMove(g, lumps, fonts, px, py, e, path, n, dx, dy, x, y);
    }
  }

  /** ElemMove for an item of one of the element's descendants. */
  lemma {:induction false} ChildMove(g: Gate, lumps: map<string, Lump>, fonts: seq<FontData>,
                                    px: int, py: int, e: Element, path: seq<nat>, n: Node, dx: int, dy: int,
                                    x: int, y: int)
    requires Visible(g, e) && x == px + e.x - OffsetX(lumps, e) && y == py + e.y - OffsetY(lumps, e)
    requires n in LayoutChildren(g, lumps, fonts, x, y, e.children, path)
    requires |path| < |n.path| && ValidPath(e.children, n.path[|path|..])
    ensures Shifted(n, dx, dy) in LayoutElem(g, lumps, fonts, px, py, e.(children := ShiftXY(e.children, n.path[|path|..], dx, dy)), path)
    decreases e, 0
  {
    ListMove(g, lumps, fonts, x, y, e.children, path, n, dx, dy);
    ChildrenReplaced(g, lumps, fonts, px, py, e, ShiftXY(e.children, n.path[|path|..], dx, dy), path, Shifted(n, dx, dy), x, y);
  }

  lemma {:induction false} ListMove(g: Gate, lumps: map<string, Lump>, fonts: seq<FontData>,
                                   px: int, py: int, cs: seq<Element>, path: seq<nat>, n: Node, dx: int, dy: int)
    requires n in LayoutChildren(g, lumps, fonts, px, py, cs, path)
    requires |path| <= |n.path| && ValidPath(cs, n.path[|path|..])
    ensures Shifted(n, dx, dy) in LayoutChildren(g, lumps, fonts, px, py, ShiftXY(cs, n.path[|path|..], dx, dy), path)
    decreases cs
  {
    var j := ListNodeOfChild(g, lumps, fonts, px, py, cs, path, n);
    ElemNodePath(g, lumps, fonts, px, py, cs[j], path + [j], n);
    var q := n.path[|path|..];
    assert n.path[..|path| + 1] == path + [j];
    assert q[0] == j && q[1..] == n.path[|path| + 1..];
    assert |path + [j]| == |path| + 1;
    ElemMove(g, lumps, fonts, px, py, cs[j], path + [j], n, dx, dy);
    ChildNodeInList(g, lumps, fonts, px, py, ShiftXY(cs, q, dx, dy), path, j, Shifted(n, dx, dy));
  }

  /**
   * Writing `ex, ey` into the element of item `n` and laying the status bar
   * out again puts an item of that element where `n` was, moved by the
   * change of the element's position.
   */
  lemma RelayoutAfterWrite(g: Gate, lumps: map<string, Lump>, fonts: seq<FontData>, bar: StatusBar,
                           n: Node, ex: int, ey: int)
    requires n in LayoutBar(g, lumps, fonts, bar)
    ensures ValidPath(bar.children, n.path)
    ensures var t := ElemAt(bar.children, n.path);
            n.drawX + HShift(n.alignment, n.width) - n.xDiff == t.x &&
            n.drawY + VShift(n.alignment, n.height) - n.yDiff == t.y &&
            Shifted(n, ex - t.x, ey - t.y) in LayoutBar(g, lumps, fonts, bar.(children := SetXY(bar.children, n.path, ex, ey)))
  {
    ListNodeOrigin(g, lumps, fonts, 0, 0, bar.children, [], n);
    assert n.path[0..] == n.path;
    var t := ElemAt(bar.children, n.path);
    SetXYIsShift(bar.children, n.path, ex, ey);
    ListMove(g, lumps, fonts, 0, 0, bar.children, [], n, ex - t.x, ey - t.y);
  }

  /**
   * With the corrected write-back a committed drag survives a redraw: laying
   * the status bar out again puts an item of that element exactly where the
   * release left the dragged one (the clamped drop position), with the same
   * size, alignment and differences.
   */
  lemma CommitThenRelayout(g: Gate, lumps: map<string, Lump>, fonts: seq<FontData>, bar: StatusBar,
                           n: Node, dropX: int, dropY: int)
    requires n in LayoutBar(g, lumps, fonts, bar)
    ensures ValidPath(bar.children, n.path)
    ensures var bar2 := bar.(children := SetXY(bar.children, n.path,
                                                CorrectedCommitX(n.alignment, n.width, n.xDiff, dropX),
                                                CorrectedCommitY(n.alignment, n.height, n.yDiff, bar.height, dropY)));
            n.(drawX := DropX(n.alignment, Bound(n.width), dropX), drawY := DropY(n.alignment, Bound(n.height), bar.height, dropY))
              in LayoutBar(g, lumps, fonts, bar2)
  {
    RelayoutAfterWrite(g, lumps, fonts, bar, n, CorrectedCommitX(n.alignment, n.width, n.xDiff, dropX),
                       CorrectedCommitY(n.alignment, n.height, n.yDiff, bar.height, dropY));
  }

  /**
   * With the write-back as written, the redrawn item lands the drift away
   * from where the release left the dragged one.
   */
  lemma CommitThenRelayoutAsWritten(g: Gate, lumps: map<string, Lump>, fonts: seq<FontData>, bar: StatusBar,
                                    n: Node, dropX: int, dropY: int)
    requires n in LayoutBar(g, lumps, fonts, bar)
    ensures ValidPath(bar.children, n.path)
    ensures var bar2 := bar.(children := SetXY(bar.children, n.path,
                                                CommitX(n.alignment, Bound(n.width), n.xDiff, dropX),
                                                CommitY(n.alignment, Bound(n.height), n.yDiff, bar.height, dropY)));
            n.(drawX := DropX(n.alignment, Bound(n.width), dropX) + HDrift(n.alignment, n.width),
               drawY := DropY(n.alignment, Bound(n.height), bar.height, dropY) + VDrift(n.alignment, n.height))
              in LayoutBar(g, lumps, fonts, bar2)
  {
    CommitDrift(n.alignment, n.width, n.height, bar.height, n.xDiff, n.yDiff, dropX, dropY);
    RelayoutAfterWrite(g, lumps, fonts, bar, n, CommitX(n.alignment, Bound(n.width), n.xDiff, dropX),
                       CommitY(n.alignment, Bound(n.height), n.yDiff, bar.height, dropY));
  }

  /**
   * A hidden element contributes nothing: no item of the layout belongs to
   * it or to anything below it.
   */
  lemma {:induction false} ElemHidden(g: Gate, lumps: map<string, Lump>, fonts: seq<FontData>,
                                     px: int, py: int, e: Element, path: seq<nat>, r: seq<nat>, n: Node)
    requires ValidSubPath(e, r) && !Visible(g, SubElemAt(e, r))
    requires n in LayoutElem(g, lumps, fonts, px, py, e, path)
    ensures !(|path + r| <= |n.path| && n.path[..|path + r|] == path + r)
    decreases e
  {
    var x := px + e.x - OffsetX(lumps, e);
    var y := py + e.y - OffsetY(lumps, e);
    if n in OwnNodes(lumps, fonts, x, y, e, path) {
      OwnNodeShape(lumps, fonts, x, y, e, path, n);
    } else {
      ListHidden(g, lumps, fonts, x, y, e.children, path, r, n);
    }
  }

  lemma {:induction false} ListHidden(g: Gate, lumps: map<string, Lump>, fonts: seq<FontData>,
                                     px: int, py: int, cs: seq<Element>, path: seq<nat>, q: seq<nat>, n: Node)
    requires ValidPath(cs, q) && !Visible(g, ElemAt(cs, q))
    requires n in LayoutChildren(g, lumps, fonts, px, py, cs, path)
    ensures !(|path + q| <= |n.path| && n.path[..|path + q|] == path + q)
    decreases cs
  {
    var j := ListNodeOfChild(g, lumps, fonts, px, py, cs, path, n);
    ElemNodePath(g, lumps, fonts, px, py, cs[j], path + [j], n);
    assert n.path[|path|] == (path + [j])[|path|] == j;
    if j == q[0] {
      ElemHidden(g, lumps, fonts, px, py, cs[j], path + [j], q[1..], n);
      assert path + [j] + q[1..] == path + q;
    } else {
      assert (path + q)[|path|] == q[0];
    }
  }

  /**
   * Without the condition check (src/sbardef.py), every element whose own
   * pixmap is found produces an item, however deep it lies.
   */
  lemma {:induction false} ElemEmits(lumps: map<string, Lump>, fonts: seq<FontData>,
                                    px: int, py: int, e: Element, path: seq<nat>, r: seq<nat>) returns (n: Node)
    requires ValidSubPath(e, r) && OwnCount(lumps, fonts, SubElemAt(e, r)) > 0
    ensures n in LayoutElem(Unconditional, lumps, fonts, px, py, e, path) && n.path == path + r
    decreases e
  {
    var x := px + e.x - OffsetX(lumps, e);
    var y := py + e.y - OffsetY(lumps, e);
    ShownElem(Unconditional, lumps, fonts, px, py, e, path, x, y);
    if r == [] {
      OwnNodeCount(lumps, fonts, x, y, e, path);
      n := OwnNodes(lumps, fonts, x, y, e, path)[0];
      OwnNodeShape(lumps, fonts, x, y, e, path, n);
      assert path + r == path;
    } else {
      n := ListEmits(lumps, fonts, x, y, e.children, path, r);
    }
  }

  lemma {:induction false} ListEmits(lumps: map<string, Lump>, fonts: seq<FontData>,
                                    px: int, py: int, cs: seq<Element>, path: seq<nat>, q: seq<nat>) returns (n: Node)
    requires ValidPath(cs, q) && OwnCount(lumps, fonts, ElemAt(cs, q)) > 0
    ensures n in LayoutChildren(Unconditional, lumps, fonts, px, py, cs, path) && n.path == path + q
    decreases cs
  {
    var j := q[0];
    n := ElemEmits(lumps, fonts, px, py, cs[j], path + [j], q[1..]);
    assert path + [j] + q[1..] == path + q;
    ChildNodeInList(Unconditional, lumps, fonts, px, py, cs, path, j, n);
  }
}

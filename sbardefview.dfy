/**
 * The older stand-alone editor view (src/sbardef.py): it draws a status bar
 * without consulting any condition, records on every element the item last
 * drawn for it (`elem["sceneitem"]`), and after an item is dropped moves the
 * items of the element's descendants.
 *
 * An item is recorded by its coordinates: `itemPos` maps the element's
 * status bar and child path to the position its `sceneitem` was given.
 */
module SBarDefView {
  import opened DoomData
  import opened Document
  import opened Glyphs
  import opened Geometry
  import opened Layout
  import LayoutFacts
  import opened SceneItems

  /** An element's place in the document: its status bar and its child path there. */
  type Key = (nat, seq<nat>)

  /**
   * The records after addToScene has placed the items `ns` of status bar
   * `bar` one after the other: each write replaces the element's earlier one.
   */
  function Recorded(m: map<Key, (int, int)>, bar: nat, ns: seq<Node>): map<Key, (int, int)>
    decreases |ns|
  {
    if ns == [] then m
    else
      var n := ns[|ns| - 1];
      Recorded(m, bar, ns[..|ns| - 1])[(bar, n.path) := (n.drawX, n.drawY)]
  }

  /** Placing `a` and then `b` records what placing `a + b` records. */
  lemma {:induction false} RecordedAppend(m: map<Key, (int, int)>, bar: nat, a: seq<Node>, b: seq<Node>)
    ensures Recorded(m, bar, a + b) == Recorded(Recorded(m, bar, a), bar, b)
    decreases |b|
  {
    if b == [] {
      assert a + b == a;
    } else {
      assert (a + b)[..|a + b| - 1] == a + b[..|b| - 1];
      RecordedAppend(m, bar, a, b[..|b| - 1]);
    }
  }

  /** An element has a record afterwards exactly when it had one before or one of the items is its. */
  lemma {:induction false} RecordedKeys(m: map<Key, (int, int)>, bar: nat, ns: seq<Node>, k: Key)
    ensures k in Recorded(m, bar, ns) <==> k in m || (k.0 == bar && exists i :: 0 <= i < |ns| && ns[i].path == k.1)
    decreases |ns|
  {
    if ns != [] {
      var front := ns[..|ns| - 1];
      RecordedKeys(m, bar, front, k);
      if k.0 == bar && exists i :: 0 <= i < |ns| && ns[i].path == k.1 {
        var i :| 0 <= i < |ns| && ns[i].path == k.1;
        if i < |ns| - 1 {
          assert front[i].path == k.1;
        }
      }
    }
  }

  /** The record of an element is the position of its last item; one without items keeps its old record. */
  lemma {:induction false} RecordedLast(m: map<Key, (int, int)>, bar: nat, ns: seq<Node>, i: nat)
    requires i < |ns| && forall j :: i < j < |ns| ==> ns[j].path != ns[i].path
    ensures (bar, ns[i].path) in Recorded(m, bar, ns)
    ensures Recorded(m, bar, ns)[(bar, ns[i].path)] == (ns[i].drawX, ns[i].drawY)
    decreases |ns|
  {
    if i < |ns| - 1 {
      RecordedLast(m, bar, ns[..|ns| - 1], i);
    }
  }

  lemma {:induction false} RecordedElsewhere(m: map<Key, (int, int)>, bar: nat, ns: seq<Node>, k: Key)
    requires k in m && (k.0 != bar || forall i :: 0 <= i < |ns| ==> ns[i].path != k.1)
    ensures k in Recorded(m, bar, ns) && Recorded(m, bar, ns)[k] == m[k]
    decreases |ns|
  {
    if ns != [] {
      RecordedElsewhere(m, bar, ns[..|ns| - 1], k);
    }
  }

  /**
   * After draw, every element of the status bar whose own pixmap is found
   * has a record, however deep it lies: without a condition check nothing
   * is skipped.
   */
  lemma DrawnIsRecorded(m: map<Key, (int, int)>, bar: nat, lumps: map<string, Lump>, fonts: seq<FontData>,
                        b: StatusBar, q: seq<nat>)
    requires ValidPath(b.children, q) && OwnCount(lumps, fonts, ElemAt(b.children, q)) > 0
    ensures (bar, q) in Recorded(m, bar, LayoutBar(Unconditional, lumps, fonts, b))
  {
    var ns := LayoutBar(Unconditional, lumps, fonts, b);
    var n := LayoutFacts.ListEmits(lumps, fonts, 0, 0, b.children, [], q);
    assert [] + q == q;
    var i :| 0 <= i < |ns| && ns[i] == n;
    RecordedKeys(m, bar, ns, (bar, q));
  }

  /** Key `k` names the element at `p` or one below it, in status bar `bar`. */
  predicate Below(k: Key, bar: nat, p: seq<nat>)
  {
    k.0 == bar && p <= k.1
  }

  /** Key `k` names an element at or below one of the first `n` children of the element at `p`. */
  predicate InList(k: Key, bar: nat, p: seq<nat>, n: nat)
  {
    k.0 == bar && |p| < |k.1| && p <= k.1 && k.1[|p|] < n
  }

  /** Below child `n` of the element at `p` is below one of its first `n + 1` children. */
  lemma BelowChild(k: Key, bar: nat, p: seq<nat>, n: nat)
    ensures Below(k, bar, p + [n]) ==> InList(k, bar, p, n + 1)
  {
    if Below(k, bar, p + [n]) {
      assert k.1[|p|] == (p + [n])[|p|];
    }
  }

  /**
   * updateElem(x, y, elem) for the element `e` at `p`: its item moves to
   * (x + e.x, y + e.y), then its children follow from that point.
   */
  function WalkElem(m: map<Key, (int, int)>, bar: nat, x: int, y: int, e: Element, p: seq<nat>): (r: map<Key, (int, int)>)
    ensures m.Keys <= r.Keys
    decreases e, 1
  {
    WalkList(m[(bar, p) := (x + e.x, y + e.y)], bar, x + e.x, y + e.y, e.children, p)
  }

  /** The loop `for child in children: self.updateElem(x, y, child)`, child `i` at `p + [i]`. */
  function WalkList(m: map<Key, (int, int)>, bar: nat, x: int, y: int, cs: seq<Element>, p: seq<nat>)
    : (r: map<Key, (int, int)>)
    ensures m.Keys <= r.Keys
    decreases cs
  {
    if cs == [] then m
    else WalkElem(WalkList(m, bar, x, y, cs[..|cs| - 1], p), bar, x, y, cs[|cs| - 1], p + [|cs| - 1])
  }

  /** The plain running sum of `x` along path `q` below `cs`, with no offset and no alignment. */
  function RunX(cs: seq<Element>, q: seq<nat>): int
    requires ValidPath(cs, q)
    decreases |q|, 0
  {
    SubRunX(cs[q[0]], q[1..])
  }

  function SubRunX(e: Element, r: seq<nat>): int
    requires ValidSubPath(e, r)
    decreases |r|, 1
  {
    e.x + (if r == [] then 0 else RunX(e.children, r))
  }

  function RunY(cs: seq<Element>, q: seq<nat>): int
    requires ValidPath(cs, q)
    decreases |q|, 0
  {
    SubRunY(cs[q[0]], q[1..])
  }

  function SubRunY(e: Element, r: seq<nat>): int
    requires ValidSubPath(e, r)
    decreases |r|, 1
  {
    e.y + (if r == [] then 0 else RunY(e.children, r))
  }

  /** The walk below `e` at `p` changes no record outside that subtree. */
  lemma {:induction false} WalkElemFrame(m: map<Key, (int, int)>, bar: nat, x: int, y: int, e: Element, p: seq<nat>, k: Key)
    requires !Below(k, bar, p)
    ensures k in WalkElem(m, bar, x, y, e, p) <==> k in m
    ensures k in m ==> WalkElem(m, bar, x, y, e, p)[k] == m[k]
    decreases e, 1
  {
    WalkListFrame(m[(bar, p) := (x + e.x, y + e.y)], bar, x + e.x, y + e.y, e.children, p, k);
  }

  lemma {:induction false} WalkListFrame(m: map<Key, (int, int)>, bar: nat, x: int, y: int, cs: seq<Element>,
                                        p: seq<nat>, k: Key)
    requires !InList(k, bar, p, |cs|)
    ensures k in WalkList(m, bar, x, y, cs, p) <==> k in m
    ensures k in m ==> WalkList(m, bar, x, y, cs, p)[k] == m[k]
    decreases cs
  {
    if cs != [] {
      var n := |cs| - 1;
      BelowChild(k, bar, p, n);
      WalkListFrame(m, bar, x, y, cs[..n], p, k);
      WalkElemFrame(WalkList(m, bar, x, y, cs[..n], p), bar, x, y, cs[n], p + [n], k);
    }
  }

  /**
   * The walk below `e` at `p` from (x, y) puts the element at `p + r` at
   * (x, y) plus the plain sum of the `x, y` of the elements from `e` down
   * to it.
   */
  lemma {:induction false} WalkElemValue(m: map<Key, (int, int)>, bar: nat, x: int, y: int, e: Element, p: seq<nat>,
                                        r: seq<nat>)
    requires ValidSubPath(e, r)
    ensures (bar, p + r) in WalkElem(m, bar, x, y, e, p)
    ensures WalkElem(m, bar, x, y, e, p)[(bar, p + r)] == (x + SubRunX(e, r), y + SubRunY(e, r))
    decreases e, 1
  {
    var m' := m[(bar, p) := (x + e.x, y + e.y)];
    if r == [] {
      assert p + r == p;
      WalkListFrame(m', bar, x + e.x, y + e.y, e.children, p, (bar, p));
    } else {
      WalkListValue(m', bar, x + e.x, y + e.y, e.children, p, r);
    }
  }

  lemma {:induction false} WalkListValue(m: map<Key, (int, int)>, bar: nat, x: int, y: int, cs: seq<Element>,
                                        p: seq<nat>, q: seq<nat>)
    requires ValidPath(cs, q)
    ensures (bar, p + q) in WalkList(m, bar, x, y, cs, p)
    ensures WalkList(m, bar, x, y, cs, p)[(bar, p + q)] == (x + RunX(cs, q), y + RunY(cs, q))
    decreases cs
  {
    var n := |cs| - 1;
    var front := WalkList(m, bar, x, y, cs[..n], p);
    if q[0] == n {
      assert p + [n] + q[1..] == p + q;
      WalkElemValue(front, bar, x, y, cs[n], p + [n], q[1..]);
    } else {
      assert (p + q)[|p|] == q[0];
      WalkListValue(m, bar, x, y, cs[..n], p, q);
      WalkElemFrame(front, bar, x, y, cs[n], p + [n], (bar, p + q));
    }
  }

  /**
   * update(elem) for the element `e` at `p`: the items of every element
   * strictly below it, and of nothing else, move, each to the sum of `e`'s
   * own `x, y` and the `x, y` of the elements between; neither lump offsets
   * nor anchor alignment enter.
   */
  lemma UpdateMovesDescendants(m: map<Key, (int, int)>, bar: nat, e: Element, p: seq<nat>, k: Key)
    ensures forall q :: ValidPath(e.children, q) ==>
      (bar, p + q) in WalkList(m, bar, e.x, e.y, e.children, p) &&
      WalkList(m, bar, e.x, e.y, e.children, p)[(bar, p + q)] == (e.x + RunX(e.children, q), e.y + RunY(e.children, q))
    ensures !InList(k, bar, p, |e.children|) && k in m ==>
      k in WalkList(m, bar, e.x, e.y, e.children, p) && WalkList(m, bar, e.x, e.y, e.children, p)[k] == m[k]
  {
    forall q | ValidPath(e.children, q)
      ensures (bar, p + q) in WalkList(m, bar, e.x, e.y, e.children, p)
      ensures WalkList(m, bar, e.x, e.y, e.children, p)[(bar, p + q)] == (e.x + RunX(e.children, q), e.y + RunY(e.children, q))
    {
      WalkListValue(m, bar, e.x, e.y, e.children, p, q);
    }
    if !InList(k, bar, p, |e.children|) {
      WalkListFrame(m, bar, e.x, e.y, e.children, p, k);
    }
  }

  /** Every element below `cs` at `p` has a record, so updateElem raises no KeyError. */
  ghost predicate RecordedBelow(m: map<Key, (int, int)>, bar: nat, cs: seq<Element>, p: seq<nat>)
  {
    forall q :: ValidPath(cs, q) ==> (bar, p + q) in m
  }

  lemma RecordedChild(m: map<Key, (int, int)>, bar: nat, cs: seq<Element>, p: seq<nat>, i: nat)
    requires RecordedBelow(m, bar, cs, p) && i < |cs|
    ensures (bar, p + [i]) in m && RecordedBelow(m, bar, cs[i].children, p + [i])
  {
    assert ValidPath(cs, [i]);
    forall q | ValidPath(cs[i].children, q)
      ensures (bar, p + [i] + q) in m
    {
      assert ([i] + q)[1..] == q;
      assert ValidPath(cs, [i] + q);
      assert p + ([i] + q) == p + [i] + q;
    }
  }

  /** An element's combo entry. */
  function Label(b: StatusBar): string
  {
    if b.fullscreenRender then "Fullscreen" else "Statusbar"
  }

  class SBarDef {
    const doc: Doc
    /** The graphics, patches and sprites of the WAD, by name. */
    const lumps: map<string, Lump>
    var numberfonts: seq<NumberFont>
    /** The entries of the status-bar combo box, one per status bar. */
    var comboItems: seq<string>
    var screenHeight: int
    /** The movable items of the scene, in the order they were added. */
    var scene: seq<SBarElem>
    /** Where the `sceneitem` of each element drawn so far was last put. */
    var itemPos: map<Key, (int, int)>

    /**
     * The items from index `s` on belong to status bar `bar` of this
     * document, know the current screen height and sit where the layout
     * put them.
     */
    ghost predicate Owned(bar: nat, s: nat)
      reads this, scene
    {
      s <= |scene| &&
      forall i :: s <= i < |scene| ==>
        scene[i].doc == doc && scene[i].bar == bar && scene[i].screenHeight == screenHeight &&
        scene[i].AtLayoutPosition()
    }

    /**
     * __init__ with the document and the lumps already read: one combo
     * entry per status bar, then the fonts.
     */
    constructor(doc: Doc, lumps: map<string, Lump>)
      ensures this.doc == doc && this.lumps == lumps && scene == [] && itemPos == map[]
      ensures |comboItems| == |doc.statusbars|
      ensures forall i :: 0 <= i < |doc.statusbars| ==> comboItems[i] == Label(doc.statusbars[i])
      ensures |numberfonts| == |doc.numberfonts|
      ensures forall i :: 0 <= i < |numberfonts| ==> numberfonts[i].Data() == LoadedFont(doc.numberfonts[i], lumps)
    {
      this.doc := doc;
      this.lumps := lumps;
      scene := [];
      itemPos := map[];
      screenHeight := 0;
      numberfonts := [];
      var items: seq<string> := [];
      for i := 0 to |doc.statusbars|
        invariant |items| == i
        invariant forall j :: 0 <= j < i ==> items[j] == Label(doc.statusbars[j])
      {
        if doc.statusbars[i].fullscreenRender {
          items := items + ["Fullscreen"];
        } else {
          items := items + ["Statusbar"];
        }
      }
      comboItems := items;
      new;
      LoadFonts();
    }

    /** loadFonts: one font per definition, in order, each holding the keyed glyphs its stem names. */
    method LoadFonts()
      modifies this
      ensures comboItems == old(comboItems) && scene == old(scene) && itemPos == old(itemPos)
      ensures screenHeight == old(screenHeight)
      ensures |numberfonts| == |doc.numberfonts|
      ensures forall i :: 0 <= i < |numberfonts| ==>
        fresh(numberfonts[i]) && numberfonts[i].Data() == LoadedFont(doc.numberfonts[i], lumps)
    {
      numberfonts := Glyphs.LoadFonts(doc.numberfonts, lumps);
    }

    /**
     * draw(barindex): the scene is cleared and refilled with exactly the
     * items the layout of that status bar prescribes with no element
     * skipped, and each element drawn records its last item's position.
     */
    method Draw(barIndex: nat)
      requires barIndex < |doc.statusbars|
      requires AllDrawable(Unconditional, lumps, FontsData(numberfonts), doc.statusbars[barIndex].children)
      modifies this
      ensures screenHeight == doc.statusbars[barIndex].height
      ensures numberfonts == old(numberfonts) && comboItems == old(comboItems)
      ensures Nodes(scene) == LayoutBar(Unconditional, lumps, FontsData(numberfonts), doc.statusbars[barIndex])
      ensures itemPos == Recorded(old(itemPos), barIndex, Nodes(scene))
      ensures Owned(barIndex, 0)
    {
      scene := [];
      var statusbar := doc.statusbars[barIndex];
      screenHeight := statusbar.height;
      DrawChildren(barIndex, 0, 0, statusbar.children, [], FontsData(numberfonts), 0);
    }

    /** The loop `for child in children: self.drawElem(x, y, child)` of draw and drawElem. */
    method DrawChildren(bar: nat, x: int, y: int, cs: seq<Element>, path: seq<nat>, ghost fonts: seq<FontData>,
                        ghost s: nat)
      requires fonts == FontsData(numberfonts) && AllDrawable(Unconditional, lumps, fonts, cs) && Owned(bar, s)
      modifies this
      ensures numberfonts == old(numberfonts) && comboItems == old(comboItems) && screenHeight == old(screenHeight)
      ensures old(scene) <= scene && Owned(bar, s)
      ensures Nodes(scene) == old(Nodes(scene)) + LayoutChildren(Unconditional, lumps, fonts, x, y, cs, path)
      ensures itemPos == Recorded(old(itemPos), bar, LayoutChildren(Unconditional, lumps, fonts, x, y, cs, path))
      decreases cs
    {
      ghost var start := Nodes(scene);
      ghost var m := itemPos;
      for i := 0 to |cs|
        invariant numberfonts == old(numberfonts) && comboItems == old(comboItems) && screenHeight == old(screenHeight)
        invariant old(scene) <= scene && Owned(bar, s)
        invariant Nodes(scene) == start + LayoutChildren(Unconditional, lumps, fonts, x, y, cs[..i], path)
        invariant itemPos == Recorded(m, bar, LayoutChildren(Unconditional, lumps, fonts, x, y, cs[..i], path))
      {
        assert cs[..i + 1][..i] == cs[..i];
        ghost var done := LayoutChildren(Unconditional, lumps, fonts, x, y, cs[..i], path);
        ghost var next := LayoutElem(Unconditional, lumps, fonts, x, y, cs[i], path + [i]);
        AppendAssoc(start, done, next);
        RecordedAppend(m, bar, done, next);
        DrawElem(bar, x, y, cs[i], path + [i], fonts, s);
      }
      assert cs[..|cs|] == cs;
    }

    /**
     * drawElem(x, y, elem): the element's own items at its origin, then its
     * children from there; nothing is skipped.
     */
    method DrawElem(bar: nat, px: int, py: int, e: Element, path: seq<nat>, ghost fonts: seq<FontData>, ghost s: nat)
      requires fonts == FontsData(numberfonts) && Drawable(Unconditional, lumps, fonts, e) && Owned(bar, s)
      modifies this
      ensures numberfonts == old(numberfonts) && comboItems == old(comboItems) && screenHeight == old(screenHeight)
      ensures old(scene) <= scene && Owned(bar, s)
      ensures Nodes(scene) == old(Nodes(scene)) + LayoutElem(Unconditional, lumps, fonts, px, py, e, path)
      ensures itemPos == Recorded(old(itemPos), bar, LayoutElem(Unconditional, lumps, fonts, px, py, e, path))
      decreases e
    {
      ghost var start := Nodes(scene);
      ghost var m := itemPos;
      var x, y := DrawOwn(bar, px + e.x, py + e.y, e, path, fonts, s);
      ShownElem(Unconditional, lumps, fonts, px, py, e, path, x, y);
      ghost var own := OwnNodes(lumps, fonts, x, y, e, path);
      ghost var below := LayoutChildren(Unconditional, lumps, fonts, x, y, e.children, path);
      AppendAssoc(start, own, below);
      RecordedAppend(m, bar, own, below);
      DrawChildren(bar, x, y, e.children, path, fonts, s);
    }

    /** The kind-specific part of drawElem: the element's own items, and the origin its children are drawn from. */
    method DrawOwn(bar: nat, x0: int, y0: int, e: Element, path: seq<nat>, ghost fonts: seq<FontData>, ghost s: nat)
      returns (x: int, y: int)
      requires fonts == FontsData(numberfonts) && OwnDrawable(lumps, fonts, e) && Owned(bar, s)
      modifies this
      ensures x == x0 - OffsetX(lumps, e) && y == y0 - OffsetY(lumps, e)
      ensures numberfonts == old(numberfonts) && comboItems == old(comboItems) && screenHeight == old(screenHeight)
      ensures old(scene) <= scene && Owned(bar, s)
      ensures Nodes(scene) == old(Nodes(scene)) + OwnNodes(lumps, fonts, x, y, e, path)
      ensures itemPos == Recorded(old(itemPos), bar, OwnNodes(lumps, fonts, x, y, e, path))
    {
      x, y := x0, y0;
      match e.kind {
        case Graphic(patch) =>
          if patch in lumps {
            var lump := lumps[patch];
            x := x - lump.xOffset;
            y := y - lump.yOffset;
            var pixmap := CyanToAlpha(lump.image);
            AddToScene(bar, x, y, e, path, pixmap.width, pixmap.height, s);
          }
        case Number(font, maxLength) =>
          DrawNumber(bar, x, y, e, path, font, maxLength, false, fonts, s);
        case Percent(font, maxLength) =>
          DrawNumber(bar, x, y, e, path, font, maxLength, true, fonts, s);
        case Face =>
          var lump := lumps[FACE_PATCH];
          x := x - lump.xOffset;
          y := y - lump.yOffset;
          var pixmap := CyanToAlpha(lump.image);
          AddToScene(bar, x, y, e, path, pixmap.width, pixmap.height, s);
      }
    }

    /** The font loop of drawElem: one item per font of the element's font name, in font order. */
    method DrawNumber(bar: nat, x: int, y: int, e: Element, path: seq<nat>, font: string, maxLength: nat, pct: bool,
                      ghost fonts: seq<FontData>, ghost s: nat)
      requires fonts == FontsData(numberfonts) && FontsUsable(fonts, font) && Owned(bar, s)
      modifies this
      ensures numberfonts == old(numberfonts) && comboItems == old(comboItems) && screenHeight == old(screenHeight)
      ensures old(scene) <= scene && Owned(bar, s)
      ensures Nodes(scene) == old(Nodes(scene)) + FontNodes(fonts, x, y, e, path, font, maxLength, pct)
      ensures itemPos == Recorded(old(itemPos), bar, FontNodes(fonts, x, y, e, path, font, maxLength, pct))
    {
      var fontList := numberfonts;
      ghost var start := Nodes(scene);
      ghost var m := itemPos;
      for j := 0 to |fontList|
        invariant numberfonts == old(numberfonts) && comboItems == old(comboItems) && screenHeight == old(screenHeight)
        invariant old(scene) <= scene && Owned(bar, s)
        invariant Nodes(scene) == start + FontNodes(fonts[..j], x, y, e, path, font, maxLength, pct)
        invariant itemPos == Recorded(m, bar, FontNodes(fonts[..j], x, y, e, path, font, maxLength, pct))
      {
        assert fonts[..j + 1][..j] == fonts[..j];
        var f := fontList[j];
        assert f.Data() == fonts[j];
        ghost var done := FontNodes(fonts[..j], x, y, e, path, font, maxLength, pct);
        if f.name == font {
          ghost var next := [MakeNode(x, y, e, path, fonts[j].StripWidth(maxLength, pct), fonts[j].maxHeight)];
          AppendAssoc(start, done, next);
          RecordedAppend(m, bar, done, next);
          AddStrip(bar, x, y, e, path, f, maxLength, pct, fonts[j], s);
          assert FontNodes(fonts[..j + 1], x, y, e, path, font, maxLength, pct) == done + next;
        } else {
          assert FontNodes(fonts[..j + 1], x, y, e, path, font, maxLength, pct) == done;
        }
      }
      assert fonts[..|fontList|] == fonts;
    }

    /** One pass of that loop for a font of the right name: its strip, added to the scene. */
    method AddStrip(bar: nat, x: int, y: int, e: Element, path: seq<nat>, f: NumberFont, maxLength: nat, pct: bool,
                    ghost data: FontData, ghost s: nat)
      requires f.Data() == data && |data.numbers| > 0 && Owned(bar, s)
      modifies this
      ensures numberfonts == old(numberfonts) && comboItems == old(comboItems) && screenHeight == old(screenHeight)
      ensures old(scene) <= scene && Owned(bar, s)
      ensures var n := MakeNode(x, y, e, path, data.StripWidth(maxLength, pct), data.maxHeight);
        Nodes(scene) == old(Nodes(scene)) + [n] && itemPos == Recorded(old(itemPos), bar, [n])
    {
      var strip := f.GetPixmap(maxLength, pct);
      AddToScene(bar, x, y, e, path, strip.width, strip.height, s);
    }

    /**
     * addToScene: a new item for `e` anchored at (x, y), its top-left corner
     * shifted by the alignment, recorded as the element's `sceneitem`.
     */
    method AddToScene(bar: nat, x: int, y: int, e: Element, path: seq<nat>, width: nat, height: nat, ghost s: nat)
      requires Owned(bar, s)
      modifies this
      ensures numberfonts == old(numberfonts) && comboItems == old(comboItems) && screenHeight == old(screenHeight)
      ensures |scene| == old(|scene|) + 1 && old(scene) <= scene && Owned(bar, s)
      ensures fresh(scene[|scene| - 1]) && scene[|scene| - 1].AtLayoutPosition()
      ensures var n := MakeNode(x, y, e, path, width, height);
        Nodes(scene) == old(Nodes(scene)) + [n] && itemPos == Recorded(old(itemPos), bar, [n])
    {
      var item := new SBarElem(x, y, e, doc, bar, path, screenHeight, width, height);
      var left := x;
      var top := y;
      if HMiddle(e.alignment) {
        left := left - width / 2;
      } else if HRight(e.alignment) {
        left := left - width;
      }
      if VMiddle(e.alignment) {
        top := top - height / 2;
      } else if VBottom(e.alignment) {
        top := top - height;
      }
      item.SetPos(left, top);
      itemPos := itemPos[(bar, path) := (left, top)];
      scene := scene + [item];
    }

    /**
     * The item of the element at `path` in status bar `bar` was dropped:
     * its release writes the element back, and the `updateElem` signal it
     * emits runs `update` on that element.
     */
    method Release(item: SBarElem)
      requires item.doc == doc && item.bar < |doc.statusbars| && ValidPath(doc.statusbars[item.bar].children, item.path)
      requires RecordedBelow(itemPos, item.bar, ElemAt(doc.statusbars[item.bar].children, item.path).children, item.path)
      modifies this, item, doc
      ensures item.x == DropX(item.alignment, Bound(item.width), old(item.x))
      ensures item.y == DropY(item.alignment, Bound(item.height), item.screenHeight, old(item.y))
      ensures doc.statusbars == old(doc.statusbars)[item.bar := old(doc.statusbars[item.bar]).(children :=
        SetXY(old(doc.statusbars[item.bar].children), item.path,
              CommitX(item.alignment, Bound(item.width), item.xDiff, old(item.x)),
              CommitY(item.alignment, Bound(item.height), item.yDiff, item.screenHeight, old(item.y))))]
      ensures numberfonts == old(numberfonts) && scene == old(scene)
      ensures ValidPath(doc.statusbars[item.bar].children, item.path)
      ensures var e := ElemAt(doc.statusbars[item.bar].children, item.path);
        itemPos == WalkList(old(itemPos), item.bar, e.x, e.y, e.children, item.path)
    {
      ghost var cs := doc.statusbars[item.bar].children;
      ghost var dropX, dropY := item.x, item.y;
      item.MouseRelease();
      SetXYAt(cs, item.path, CommitX(item.alignment, Bound(item.width), item.xDiff, dropX),
              CommitY(item.alignment, Bound(item.height), item.yDiff, item.screenHeight, dropY));
      Update(item.bar, item.path);
    }

    /**
     * update(elem) for the element at `path` of status bar `bar`: the items
     * of its descendants follow it (see UpdateMovesDescendants).
     */
    method Update(bar: nat, path: seq<nat>)
      requires bar < |doc.statusbars| && ValidPath(doc.statusbars[bar].children, path)
      requires RecordedBelow(itemPos, bar, ElemAt(doc.statusbars[bar].children, path).children, path)
      modifies this
      ensures numberfonts == old(numberfonts) && scene == old(scene) && screenHeight == old(screenHeight)
      ensures var e := ElemAt(doc.statusbars[bar].children, path);
        itemPos == WalkList(old(itemPos), bar, e.x, e.y, e.children, path)
    {
      var e := ElemAt(doc.statusbars[bar].children, path);
      UpdateChildren(bar, e.x, e.y, e.children, path);
    }

    /** updateElem(x, y, elem) for the element `e` at `path`. */
    method UpdateElem(bar: nat, x: int, y: int, e: Element, path: seq<nat>)
      requires (bar, path) in itemPos && RecordedBelow(itemPos, bar, e.children, path)
      modifies this
      ensures numberfonts == old(numberfonts) && scene == old(scene) && screenHeight == old(screenHeight)
      ensures itemPos == WalkElem(old(itemPos), bar, x, y, e, path)
      decreases e, 1
    {
      var nx := x + e.x;
      var ny := y + e.y;
      itemPos := itemPos[(bar, path) := (nx, ny)];
      UpdateChildren(bar, nx, ny, e.children, path);
    }

    /** The loop `for child in children: self.updateElem(x, y, child)`. */
    method UpdateChildren(bar: nat, x: int, y: int, cs: seq<Element>, path: seq<nat>)
      requires RecordedBelow(itemPos, bar, cs, path)
      modifies this
      ensures numberfonts == old(numberfonts) && scene == old(scene) && screenHeight == old(screenHeight)
      ensures itemPos == WalkList(old(itemPos), bar, x, y, cs, path)
      decreases cs
    {
      ghost var m := itemPos;
      for i := 0 to |cs|
        invariant numberfonts == old(numberfonts) && scene == old(scene) && screenHeight == old(screenHeight)
        invariant itemPos == WalkList(m, bar, x, y, cs[..i], path)
      {
        assert cs[..i + 1][..i] == cs[..i];
        RecordedChild(m, bar, cs, path, i);
        UpdateElem(bar, x, y, cs[i], path + [i]);
      }
      assert cs[..|cs|] == cs;
    }
  }
}

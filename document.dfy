/**
 * The status-bar definition document (the parsed SBARDEF lump): status bars
 * holding trees of elements, and the number-font definitions. An element is
 * addressed by its path of child indices below its status bar.
 */
module Document {
  import opened Wrappers
  import opened Conditions

  /**
   * The element kind, which the document encodes as the single key of the
   * element's object, with the fields specific to it.
   */
  datatype Kind =
    | Graphic(patch: string)
    | Number(font: string, maxLength: nat)
    | Percent(font: string, maxLength: nat)
    | Face

  /**
   * An element. `x` and `y` are relative to the parent's resolved origin.
   * A `null` children list and an empty one are traversed alike, so both
   * are the empty sequence here.
   */
  datatype Element = Element(
    kind: Kind,
    x: int,
    y: int,
    alignment: int,
    conditions: Option<seq<Condition>>,
    children: seq<Element>)

  datatype StatusBar = StatusBar(height: int, fullscreenRender: bool, children: seq<Element>)

  datatype FontDef = FontDef(name: string, stem: string)

  /**
   * A path of child indices is valid below `cs` when every index is in
   * range at its level; the empty path names no element of a list.
   */
  predicate ValidPath(cs: seq<Element>, p: seq<nat>)
    decreases |p|, 0
  {
    |p| > 0 && p[0] < |cs| && ValidSubPath(cs[p[0]], p[1..])
  }

  /** A path relative to element `e`: empty for `e` itself. */
  predicate ValidSubPath(e: Element, q: seq<nat>)
    decreases |q|, 1
  {
    q == [] || ValidPath(e.children, q)
  }

  function ElemAt(cs: seq<Element>, p: seq<nat>): Element
    requires ValidPath(cs, p)
    decreases |p|, 0
  {
    SubElemAt(cs[p[0]], p[1..])
  }

  function SubElemAt(e: Element, q: seq<nat>): Element
    requires ValidSubPath(e, q)
    decreases |q|, 1
  {
    if q == [] then e else ElemAt(e.children, q)
  }

  /** The document after `elem["x"], elem["y"] = x, y` on the element at `p`. */
  function SetXY(cs: seq<Element>, p: seq<nat>, x: int, y: int): seq<Element>
    requires ValidPath(cs, p)
    decreases |p|, 0
  {
    cs[p[0] := SubSetXY(cs[p[0]], p[1..], x, y)]
  }

  function SubSetXY(e: Element, q: seq<nat>, x: int, y: int): Element
    requires ValidSubPath(e, q)
    decreases |q|, 1
  {
    if q == [] then e.(x := x, y := y) else e.(children := SetXY(e.children, q, x, y))
  }

  /** An element's own fields, without its subtree. */
  function Fields(e: Element): Element
  {
    e.(children := [])
  }

  /**
   * Writing `x, y` at `p` touches nothing else: the same paths stay valid,
   * the element at `p` differs only in `x, y`, and every other element keeps
   * all its own fields.
   */
  lemma {:induction false} SetXYWritesOnlyXY(cs: seq<Element>, p: seq<nat>, x: int, y: int, q: seq<nat>)
    requires ValidPath(cs, p)
    ensures ValidPath(SetXY(cs, p, x, y), q) <==> ValidPath(cs, q)
    ensures ValidPath(cs, q) && q == p ==>
      Fields(ElemAt(SetXY(cs, p, x, y), q)) == Fields(ElemAt(cs, q)).(x := x, y := y)
    ensures ValidPath(cs, q) && q != p ==> Fields(ElemAt(SetXY(cs, p, x, y), q)) == Fields(ElemAt(cs, q))
    decreases |p|, 0
  {
    if |q| > 0 && q[0] < |cs| {
      SubSetXYWritesOnlyXY(cs[p[0]], p[1..], x, y, q[1..]);
    }
  }

  lemma {:induction false} SubSetXYWritesOnlyXY(e: Element, p: seq<nat>, x: int, y: int, q: seq<nat>)
    requires ValidSubPath(e, p)
    ensures ValidSubPath(SubSetXY(e, p, x, y), q) <==> ValidSubPath(e, q)
    ensures ValidSubPath(e, q) && q == p ==>
      Fields(SubElemAt(SubSetXY(e, p, x, y), q)) == Fields(SubElemAt(e, q)).(x := x, y := y)
    ensures ValidSubPath(e, q) && q != p ==> Fields(SubElemAt(SubSetXY(e, p, x, y), q)) == Fields(SubElemAt(e, q))
    decreases |p|, 1
  {
    if p != [] && q != [] {
      SetXYWritesOnlyXY(e.children, p, x, y, q);
    }
  }

  /** After the write, the element at `p` is the old one with the new `x, y` and its subtree intact. */
  lemma {:induction false} SetXYAt(cs: seq<Element>, p: seq<nat>, x: int, y: int)
    requires ValidPath(cs, p)
    ensures ValidPath(SetXY(cs, p, x, y), p)
    ensures ElemAt(SetXY(cs, p, x, y), p) == ElemAt(cs, p).(x := x, y := y)
    decreases |p|, 0
  {
    SubSetXYAt(cs[p[0]], p[1..], x, y);
  }

  lemma {:induction false} SubSetXYAt(e: Element, p: seq<nat>, x: int, y: int)
    requires ValidSubPath(e, p)
    ensures ValidSubPath(SubSetXY(e, p, x, y), p)
    ensures SubElemAt(SubSetXY(e, p, x, y), p) == SubElemAt(e, p).(x := x, y := y)
    decreases |p|, 1
  {
    if p != [] {
      SetXYAt(e.children, p, x, y);
    }
  }

  /** The parsed document, which the drag write-back mutates in place. */
  class Doc {
    var statusbars: seq<StatusBar>
    var numberfonts: seq<FontDef>

    constructor(statusbars: seq<StatusBar>, numberfonts: seq<FontDef>)
      ensures this.statusbars == statusbars && this.numberfonts == numberfonts
    {
      this.statusbars := statusbars;
      this.numberfonts := numberfonts;
    }
  }
}

/**
 * What `drawElem` computes, as specification functions: the scene items a
 * status bar's element tree produces, in the order they are added, each
 * with its draw position, size, anchor alignment and the `x_diff`/`y_diff`
 * its `SBarElem` captures. src/view.py consults the element conditions;
 * src/sbardef.py does not, which is the `Gate` parameter here.
 */
module Layout {
  import opened Wrappers
  import opened DoomData
  import opened Conditions
  import opened Document
  import opened Glyphs
  import opened Geometry

  /** The lump the face element draws. */
  const FACE_PATCH: string := "STFST00"

  /** Whether drawing consults conditions, and against which game state. */
  datatype Gate = Unconditional | Conditional(state: GameState)

  /** The conditions of `e` can be evaluated without an IndexError. */
  predicate Evaluable(g: Gate, e: Element)
  {
    g.Conditional? ==> g.state.Valid() && (e.conditions.Some? ==> AllDefined(e.conditions.value, g.state))
  }

  /**
   * `drawElem` goes on past its first test: the check is skipped, or did not
   * give `False`. (Conditions that cannot be evaluated make the source raise;
   * `Drawable` excludes them, and they count as shown here.)
   */
  predicate Visible(g: Gate, e: Element)
  {
    !Evaluable(g, e) || g.Unconditional? || !Hides(e.conditions, g.state)
  }

  /** One scene item. */
  datatype Node = Node(
    path: seq<nat>,     // the element it belongs to, below its status bar
    drawX: int,         // the position addToScene gives it
    drawY: int,
    width: nat,         // the size of its pixmap
    height: nat,
    alignment: int,     // the element's alignment
    xDiff: int,         // anchor minus the element's x, captured by SBarElem
    yDiff: int)

  /** addToScene for an element anchored at (x, y) with a `width` by `height` pixmap. */
  function MakeNode(x: int, y: int, e: Element, path: seq<nat>, width: nat, height: nat): Node
  {
    Node(path, x - HShift(e.alignment, width), y - VShift(e.alignment, height),
         width, height, e.alignment, x - e.x, y - e.y)
  }

  /** The lump offset an element's anchor is moved by: a found graphic's, or the face lump's. */
  function OffsetX(lumps: map<string, Lump>, e: Element): int
  {
    match e.kind
    case Graphic(patch) => if patch in lumps then lumps[patch].xOffset else 0
    case Face => if FACE_PATCH in lumps then lumps[FACE_PATCH].xOffset else 0
    case _ => 0
  }

  function OffsetY(lumps: map<string, Lump>, e: Element): int
  {
    match e.kind
    case Graphic(patch) => if patch in lumps then lumps[patch].yOffset else 0
    case Face => if FACE_PATCH in lumps then lumps[FACE_PATCH].yOffset else 0
    case _ => 0
  }

  /** Every number font with this name has a digit-0 glyph (getPixmap reads `numbers[0]`). */
  predicate FontsUsable(fonts: seq<FontData>, name: string)
  {
    forall i :: 0 <= i < |fonts| && fonts[i].name == name ==> |fonts[i].numbers| > 0
  }

  /** Drawing the element's own pixmaps raises nothing. */
  predicate OwnDrawable(lumps: map<string, Lump>, fonts: seq<FontData>, e: Element)
  {
    match e.kind
    case Face => FACE_PATCH in lumps
    case Number(font, _) => FontsUsable(fonts, font)
    case Percent(font, _) => FontsUsable(fonts, font)
    case Graphic(_) => true
  }

  /** The items of a number or percent element: one per font of that name, in font order. */
  function FontNodes(fonts: seq<FontData>, x: int, y: int, e: Element, path: seq<nat>,
                     font: string, maxLength: nat, pct: bool): seq<Node>
    decreases |fonts|
  {
    if fonts == [] then []
    else
      var f := fonts[|fonts| - 1];
      FontNodes(fonts[..|fonts| - 1], x, y, e, path, font, maxLength, pct)
      + (if f.name == font then [MakeNode(x, y, e, path, f.StripWidth(maxLength, pct), f.maxHeight)] else [])
  }

  /** The items an element adds itself, anchored at (x, y). */
  function OwnNodes(lumps: map<string, Lump>, fonts: seq<FontData>, x: int, y: int, e: Element, path: seq<nat>): seq<Node>
  {
    match e.kind
    case Graphic(patch) =>
      if patch in lumps then [MakeNode(x, y, e, path, lumps[patch].image.width, lumps[patch].image.height)] else []
    case Number(font, maxLength) => FontNodes(fonts, x, y, e, path, font, maxLength, false)
    case Percent(font, maxLength) => FontNodes(fonts, x, y, e, path, font, maxLength, true)
    case Face =>
      // Without the face lump the source raises; `Drawable` excludes that case.
      if FACE_PATCH in lumps then [MakeNode(x, y, e, path, lumps[FACE_PATCH].image.width, lumps[FACE_PATCH].image.height)]
      else []
  }

  /** Drawing `e` raises nothing: its conditions evaluate and, when it is shown, so does everything below. */
  predicate Drawable(g: Gate, lumps: map<string, Lump>, fonts: seq<FontData>, e: Element)
    decreases e
  {
    Evaluable(g, e) &&
    (Visible(g, e) ==>
      OwnDrawable(lumps, fonts, e) &&
      forall i :: 0 <= i < |e.children| ==> Drawable(g, lumps, fonts, e.children[i]))
  }

  predicate AllDrawable(g: Gate, lumps: map<string, Lump>, fonts: seq<FontData>, cs: seq<Element>)
  {
    forall i :: 0 <= i < |cs| ==> Drawable(g, lumps, fonts, cs[i])
  }

  /**
   * drawElem(px, py, e): nothing when the element is hidden; otherwise its
   * own items anchored at its origin, then its children from that origin.
   */
  function LayoutElem(g: Gate, lumps: map<string, Lump>, fonts: seq<FontData>,
                      px: int, py: int, e: Element, path: seq<nat>): seq<Node>
    decreases e
  {
    if !Visible(g, e) then []
    else
      var x := px + e.x - OffsetX(lumps, e);
      var y := py + e.y - OffsetY(lumps, e);
      OwnNodes(lumps, fonts, x, y, e, path) + LayoutChildren(g, lumps, fonts, x, y, e.children, path)
  }

  /** A hidden element adds nothing, and neither does its subtree. */
  lemma HiddenElem(g: Gate, lumps: map<string, Lump>, fonts: seq<FontData>,
                   px: int, py: int, e: Element, path: seq<nat>)
    requires !Visible(g, e)
    ensures LayoutElem(g, lumps, fonts, px, py, e, path) == []
  {
  }

  /** A shown element: its own items at its origin, then its children's. */
  lemma ShownElem(g: Gate, lumps: map<string, Lump>, fonts: seq<FontData>,
                  px: int, py: int, e: Element, path: seq<nat>, x: int, y: int)
    requires Visible(g, e) && x == px + e.x - OffsetX(lumps, e) && y == py + e.y - OffsetY(lumps, e)
    ensures LayoutElem(g, lumps, fonts, px, py, e, path)
      == OwnNodes(lumps, fonts, x, y, e, path) + LayoutChildren(g, lumps, fonts, x, y, e.children, path)
  {
  }

  /** The loop over a children list, child `i` having path `path + [i]`. */
  function LayoutChildren(g: Gate, lumps: map<string, Lump>, fonts: seq<FontData>,
                          px: int, py: int, cs: seq<Element>, path: seq<nat>): seq<Node>
    decreases cs
  {
    if cs == [] then []
    else
      LayoutChildren(g, lumps, fonts, px, py, cs[..|cs| - 1], path)
      + LayoutElem(g, lumps, fonts, px, py, cs[|cs| - 1], path + [|cs| - 1])
  }

  /** draw(barindex): the top-level children from (0, 0). */
  function LayoutBar(g: Gate, lumps: map<string, Lump>, fonts: seq<FontData>, bar: StatusBar): seq<Node>
  {
    LayoutChildren(g, lumps, fonts, 0, 0, bar.children, [])
  }

  /** The fonts of a given name, in font order. */
  function MatchingFonts(fonts: seq<FontData>, name: string): seq<FontData>
    decreases |fonts|
  {
    if fonts == [] then []
    else
      MatchingFonts(fonts[..|fonts| - 1], name)
      + (if fonts[|fonts| - 1].name == name then [fonts[|fonts| - 1]] else [])
  }

  /** How many items an element adds itself when it is drawn. */
  function OwnCount(lumps: map<string, Lump>, fonts: seq<FontData>, e: Element): nat
  {
    match e.kind
    case Graphic(patch) => if patch in lumps then 1 else 0
    case Number(font, _) => |MatchingFonts(fonts, font)|
    case Percent(font, _) => |MatchingFonts(fonts, font)|
    case Face => if FACE_PATCH in lumps then 1 else 0
  }

  /**
   * The anchor of the element at path `q` below `cs`, relative to the
   * origin of `cs`: the sum of `x` along the path, less the lump offset of
   * every graphic and face element on it.
   */
  function PathX(lumps: map<string, Lump>, cs: seq<Element>, q: seq<nat>): int
    requires ValidPath(cs, q)
    decreases |q|, 0
  {
    SubPathX(lumps, cs[q[0]], q[1..])
  }

  function SubPathX(lumps: map<string, Lump>, e: Element, r: seq<nat>): int
    requires ValidSubPath(e, r)
    decreases |r|, 1
  {
    e.x - OffsetX(lumps, e) + (if r == [] then 0 else PathX(lumps, e.children, r))
  }

  function PathY(lumps: map<string, Lump>, cs: seq<Element>, q: seq<nat>): int
    requires ValidPath(cs, q)
    decreases |q|, 0
  {
    SubPathY(lumps, cs[q[0]], q[1..])
  }

  function SubPathY(lumps: map<string, Lump>, e: Element, r: seq<nat>): int
    requires ValidSubPath(e, r)
    decreases |r|, 1
  {
    e.y - OffsetY(lumps, e) + (if r == [] then 0 else PathY(lumps, e.children, r))
  }
}

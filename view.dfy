/**
 * The editor's view (src/view.py): drawing a status bar into the scene, one
 * movable item per pixmap, skipping every element whose conditions the
 * model reports as exactly `False`.
 */
module View {
  import opened Wrappers
  import opened DoomData
  import opened Conditions
  import opened Document
  import opened Glyphs
  import opened Layout
  import opened SceneItems
  import opened Model

  class View {
    const model: SBarModel
    /** The movable items of the scene, in the order they were added. */
    var scene: seq<SBarElem>
    var screenHeight: int
    /** The status bar the scene shows. */
    var barIndex: nat

    constructor(model: SBarModel)
      ensures this.model == model && scene == []
    {
      this.model := model;
      scene := [];
      screenHeight := 0;
      barIndex := 0;
    }

    /**
     * The items from index `start` on belong to the status bar on show and
     * sit where the layout put them.
     */
    ghost predicate NewItems(start: nat)
      reads this, model, scene
    {
      start <= |scene| &&
      forall i :: start <= i < |scene| ==>
        scene[i].doc == model.doc && scene[i].bar == barIndex && scene[i].screenHeight == screenHeight &&
        scene[i].AtLayoutPosition()
    }

    /**
     * draw(barindex): the scene is cleared and refilled with exactly the
     * items the layout of that status bar prescribes, from the origin, under
     * the model's game state.
     */
    method Draw(barIndex: nat)
      requires model.doc != null && barIndex < |model.doc.statusbars|
      requires AllDrawable(Conditional(model.state), model.lumps, FontsData(model.numberfonts),
                           model.doc.statusbars[barIndex].children)
      modifies this
      ensures this.barIndex == barIndex && screenHeight == model.doc.statusbars[barIndex].height
      ensures Nodes(scene) == LayoutBar(Conditional(model.state), model.lumps, FontsData(model.numberfonts),
                                        model.doc.statusbars[barIndex])
      ensures NewItems(0)
    {
      scene := [];
      this.barIndex := barIndex;
      var statusbar := model.doc.statusbars[barIndex];
      screenHeight := statusbar.height;
      DrawChildren(0, 0, statusbar.children, [], FontsData(model.numberfonts), 0);
    }

    /**
     * The loop `for child in children: self.drawElem(x, y, child)` of draw
     * and drawElem: appends the items the layout prescribes for the list.
     */
    method DrawChildren(x: int, y: int, cs: seq<Element>, path: seq<nat>, ghost fonts: seq<FontData>, ghost s: nat)
      requires model.doc != null && fonts == FontsData(model.numberfonts) && NewItems(s)
      requires AllDrawable(Conditional(model.state), model.lumps, fonts, cs)
      modifies this
      ensures barIndex == old(barIndex) && screenHeight == old(screenHeight)
      ensures old(scene) <= scene && NewItems(s)
      ensures Nodes(scene) == old(Nodes(scene)) +
        LayoutChildren(Conditional(model.state), model.lumps, fonts, x, y, cs, path)
      decreases cs
    {
      ghost var g := Conditional(model.state);
      ghost var start := Nodes(scene);
      for i := 0 to |cs|
        invariant barIndex == old(barIndex) && screenHeight == old(screenHeight)
        invariant old(scene) <= scene && NewItems(s)
        invariant Nodes(scene) == start + LayoutChildren(g, model.lumps, fonts, x, y, cs[..i], path)
      {
        assert cs[..i + 1][..i] == cs[..i];
        AppendAssoc(start, LayoutChildren(g, model.lumps, fonts, x, y, cs[..i], path),
                    LayoutElem(g, model.lumps, fonts, x, y, cs[i], path + [i]));
        DrawElem(x, y, cs[i], path + [i], fonts, s);
      }
      assert cs[..|cs|] == cs;
    }

    /**
     * drawElem(x, y, elem): appends to the scene exactly the items the
     * layout prescribes for `e` and its subtree below origin (px, py).
     */
    method DrawElem(px: int, py: int, e: Element, path: seq<nat>, ghost fonts: seq<FontData>, ghost s: nat)
      requires model.doc != null && fonts == FontsData(model.numberfonts) && NewItems(s)
      requires Drawable(Conditional(model.state), model.lumps, fonts, e)
      modifies this
      ensures barIndex == old(barIndex) && screenHeight == old(screenHeight)
      ensures old(scene) <= scene && NewItems(s)
      ensures Nodes(scene) == old(Nodes(scene)) +
        LayoutElem(Conditional(model.state), model.lumps, fonts, px, py, e, path)
      decreases e, 1
    {
      var v := model.CheckConditions(e.conditions);
      if v == PyBool(false) {
        HiddenElem(Conditional(model.state), model.lumps, fonts, px, py, e, path);
        return;
      }
      DrawShown(px, py, e, path, fonts, s);
    }

    /** The rest of drawElem once the element is known to be shown. */
    method DrawShown(px: int, py: int, e: Element, path: seq<nat>, ghost fonts: seq<FontData>, ghost s: nat)
      requires model.doc != null && fonts == FontsData(model.numberfonts) && NewItems(s)
      requires Drawable(Conditional(model.state), model.lumps, fonts, e) && Visible(Conditional(model.state), e)
      modifies this
      ensures barIndex == old(barIndex) && screenHeight == old(screenHeight)
      ensures old(scene) <= scene && NewItems(s)
      ensures Nodes(scene) == old(Nodes(scene)) +
        LayoutElem(Conditional(model.state), model.lumps, fonts, px, py, e, path)
      decreases e, 0
    {
      ghost var start := Nodes(scene);
      var x, y := DrawOwn(px + e.x, py + e.y, e, path, fonts, s);
      ShownElem(Conditional(model.state), model.lumps, fonts, px, py, e, path, x, y);
      AppendAssoc(start, OwnNodes(model.lumps, fonts, x, y, e, path),
                  LayoutChildren(Conditional(model.state), model.lumps, fonts, x, y, e.children, path));
      DrawChildren(x, y, e.children, path, fonts, s);
    }

    /**
     * The kind-specific part of drawElem for an element whose origin before
     * any lump offset is (x0, y0): the element's own items, and the origin
     * its children are drawn from.
     */
    method DrawOwn(x0: int, y0: int, e: Element, path: seq<nat>, ghost fonts: seq<FontData>, ghost s: nat)
      returns (x: int, y: int)
      requires model.doc != null && fonts == FontsData(model.numberfonts) && OwnDrawable(model.lumps, fonts, e)
      requires NewItems(s)
      modifies this
      ensures x == x0 - OffsetX(model.lumps, e) && y == y0 - OffsetY(model.lumps, e)
      ensures barIndex == old(barIndex) && screenHeight == old(screenHeight)
      ensures old(scene) <= scene && NewItems(s)
      ensures Nodes(scene) == old(Nodes(scene)) + OwnNodes(model.lumps, fonts, x, y, e, path)
    {
      x, y := x0, y0;
      match e.kind {
        case Graphic(patch) =>
          if patch in model.lumps {
            var lump := model.lumps[patch];
            x := x - lump.xOffset;
            y := y - lump.yOffset;
            var pixmap := CyanToAlpha(lump.image);
            AddToScene(x, y, e, path, pixmap.width, pixmap.height, s);
          }
        case Number(font, maxLength) =>
          DrawNumber(x, y, e, path, font, maxLength, false, fonts, s);
        case Percent(font, maxLength) =>
          DrawNumber(x, y, e, path, font, maxLength, true, fonts, s);
        case Face =>
          var lump := model.lumps[FACE_PATCH];
          x := x - lump.xOffset;
          y := y - lump.yOffset;
          var pixmap := CyanToAlpha(lump.image);
          AddToScene(x, y, e, path, pixmap.width, pixmap.height, s);
      }
    }

    /**
     * The font loop of drawElem for a number (`pct` false) or percent
     * element: one item per font of that name, in font order, sized as
     * that font's strip.
     */
    method DrawNumber(x: int, y: int, e: Element, path: seq<nat>, font: string, maxLength: nat, pct: bool,
                      ghost fonts: seq<FontData>, ghost s: nat)
      requires model.doc != null && fonts == FontsData(model.numberfonts) && FontsUsable(fonts, font)
      requires NewItems(s)
      modifies this
      ensures barIndex == old(barIndex) && screenHeight == old(screenHeight)
      ensures old(scene) <= scene && NewItems(s)
      ensures Nodes(scene) == old(Nodes(scene)) +
        FontNodes(fonts, x, y, e, path, font, maxLength, pct)
    {
      var numberfonts := model.numberfonts;
      ghost var start := Nodes(scene);
      for j := 0 to |numberfonts|
        invariant barIndex == old(barIndex) && screenHeight == old(screenHeight)
        invariant old(scene) <= scene && NewItems(s)
        invariant Nodes(scene) == start + FontNodes(fonts[..j], x, y, e, path, font, maxLength, pct)
      {
        assert fonts[..j + 1][..j] == fonts[..j];
        var f := numberfonts[j];
        assert f.Data() == fonts[j];
        if f.name == font {
          AppendAssoc(start, FontNodes(fonts[..j], x, y, e, path, font, maxLength, pct),
                      [MakeNode(x, y, e, path, fonts[j].StripWidth(maxLength, pct), fonts[j].maxHeight)]);
          AddStrip(x, y, e, path, f, maxLength, pct, s);
        }
      }
      assert fonts[..|numberfonts|] == fonts;
    }

    /** One pass of that loop for a font of the right name: its strip, added to the scene. */
    method AddStrip(x: int, y: int, e: Element, path: seq<nat>, f: NumberFont, maxLength: nat, pct: bool,
                    ghost s: nat)
      requires model.doc != null && |f.numbers| > 0 && NewItems(s)
      modifies this
      ensures barIndex == old(barIndex) && screenHeight == old(screenHeight)
      ensures |scene| == old(|scene|) + 1 && old(scene) <= scene && NewItems(s)
      ensures fresh(scene[|scene| - 1])
      ensures Nodes(scene) == old(Nodes(scene)) + [MakeNode(x, y, e, path, f.Data().StripWidth(maxLength, pct), f.maxHeight)]
    {
      var strip := f.GetPixmap(maxLength, pct);
      AddToScene(x, y, e, path, strip.width, strip.height, s);
    }

    /**
     * addToScene: a new item for `e` anchored at (x, y), placed with its
     * top-left corner shifted left by none, half or all of its width and up
     * by none, half or all of its height, as the alignment says.
     */
    method AddToScene(x: int, y: int, e: Element, path: seq<nat>, width: nat, height: nat, ghost s: nat)
      requires model.doc != null && NewItems(s)
      modifies this
      ensures barIndex == old(barIndex) && screenHeight == old(screenHeight)
      ensures |scene| == old(|scene|) + 1 && old(scene) <= scene && NewItems(s)
      ensures fresh(scene[|scene| - 1])
      ensures Nodes(scene) == old(Nodes(scene)) + [MakeNode(x, y, e, path, width, height)]
    {
      var item := new SBarElem(x, y, e, model.doc, barIndex, path, screenHeight, width, height);
      var left := x;
      var top := y;
      if HMiddle(e.alignment) {
        left := left - width / 2;
      } else if HRight(e.alignment) {
        left := left - width;
      }
      if VMiddle(e.alignment) {
        top := top - height / 2;
      } else if VBottom(e.alignment) {
        top := top - height;
      }
      item.SetPos(left, top);
      scene := scene + [item];
    }
  }
}

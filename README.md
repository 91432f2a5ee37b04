# id24editor status-bar core, in Dafny

id24editor is a graphical editor for the SBARDEF lump of id24 Doom ports. The
lump is a JSON document of status bars, each holding a tree of elements
(graphics, numbers, percentages, the face) and a list of number fonts. This
project models the core of the editor, the part that:

- evaluates an element's visibility conditions against a previewed game state (`SBarModel.check_conditions`);
- builds number fonts from the digit, minus and percent lumps of a WAD (`load_fonts`, `NumberFont`);
- lays a status bar out as one movable scene item per pixmap (`drawElem`, `addToScene`);
- writes a dropped item's clamped position back into its element (`SBarElem.mouseReleaseEvent`);
- in the older stand-alone view, moves the recorded items of an element's descendants after a drop (`update`, `updateElem`).

Modules, one per concern:

- `DoomData` holds the constant tables of src/doomdata.py: alignment flags, condition codes, and the weapon, ammo, slot, session and mode tables.
- `Conditions` is the condition evaluator. Python's `result &= test` keeps a `bool` only while both operands are `bool`; the `weaponowned` and `weaponslotowned` tests yield an `int`. `PyValue` models both, because the caller hides an element only when the result `is False`.
- `Glyphs` covers the magenta keying of `cyanToAlpha`, the `NumberFont` class (a Dafny class whose methods update its fields), `getPixmap` as a composed `Strip` of pastes, and `load_fonts`.
- `Document` is the element tree. An element is referred to by its path of child indices within its status bar. `SetXY` is the write-back of a drop.
- `Geometry` holds `clamp`, the anchor shift of an alignment, and the drop and commit arithmetic of a mouse release.
- `Layout` holds specification functions for what drawing produces. `LayoutElem` gives the scene items of an element tree in the order they are added. A `Gate` says whether conditions are consulted: src/view.py consults them, src/sbardef.py does not.
- `LayoutFacts` holds properties of that layout.
- `SceneItems` is the `SBarElem` scene item: its captured `x_diff`/`y_diff`, and its mouse release.
- `Model` is `SBarModel`.
- `View` is the `View` class of src/view.py. Its drawing methods are proved to append exactly the layout's items.
- `SBarDefView` is the `SBarDef` class of src/sbardef.py. Here the `sceneitem` an element records is kept as a position in `itemPos`, keyed by status bar and path. `Update` is proved to move exactly the descendants' records.

src/model.py and src/sbardef.py each define `NumberFont` and `cyanToAlpha`, identically apart from `getPixmap`'s return type. src/view.py and src/sbardef.py each define `SBarElem`, `addToScene`, `drawElem` and `clamp`. The model defines each of these once. The two views differ where the model says so: conditions are consulted or not, and the `update` walk exists only in src/sbardef.py.

## Model

| member | source | states |
|---|---|---|
| DoomData.AlignmentAxesDisjoint | src/doomdata.py:5-13 | the horizontal and vertical alignment flags occupy disjoint bits; left and top are the absence of a flag; each flag test sees only its own axis |
| DoomData.AmmoTable | src/doomdata.py:51-68 | every weapon has an ammo type; only the fist has none |
| DoomData.SlotTable | src/doomdata.py:71-73 | every weapon's slot, less one, indexes the seven slot flags |
| DoomData.ConditionCodesDistinct | src/doomdata.py:16-35 | the nineteen condition codes are 0..18 and pairwise distinct |
| DoomData.SessionAndModeCodes | src/doomdata.py:76-87 | the session and game-mode codes have the source's values |
| Conditions.AndValue | src/model.py:106-107 | Python's `&` keeps a bool only for two bools; on 0/1 values it is logical AND |
| Conditions.Fold | src/model.py:100-151 | the loop's accumulator is a bool AND of the tests while no int-yielding test occurs, otherwise the int 0 or 1 with the same truth |
| Conditions.Evaluate | src/model.py:99-151 | no condition list gives `True`; otherwise the result is truthy exactly when every test holds |
| Conditions.ResultType | src/model.py:106-128 | the result is a bool exactly when no `weaponowned`/`weaponslotowned` condition occurs; an int result is at most 1 |
| Conditions.HidesExactly | src/view.py:298-299 | an element is skipped exactly when it has conditions, none yields an int, and some test fails |
| Conditions.IntConditionNeverHides | src/model.py:106-125 | a list containing `weaponowned` or `weaponslotowned` never hides its element, in any state |
| Conditions.OrderIndependent | src/model.py:100-151 | reordering a condition list does not change the result |
| Conditions.UnknownCodeIsNoOp | src/model.py:102-149 | a code with no branch (item and feature-level codes, unknown codes) inserted anywhere leaves the result unchanged |
| Conditions.StepShape | src/model.py:102-149 | one condition has no effect exactly for the item and feature-level codes and unknown codes; otherwise its test is an int, 0 or 1, exactly for `weaponowned` and `weaponslotowned`, and a bool for every other code |
| Conditions.SlotOwnedComplement | src/model.py:124-128 | `weaponslotowned` and `weaponslotnotowned` with the same parameter test complementary values |
| Conditions.SelectedWeaponHasAmmo | src/model.py:115-119 | `selectedweaponhasammo` is `weaponhasammo` asked about the selected weapon, whatever its own parameter |
| Model.SBarModel.constructor | src/model.py:17-68 | a fresh model has nothing loaded and the initial game state: everything owned, pistol and slot 1 selected, single player, commercial |
| Model.SBarModel.LoadWad | src/model.py:70-75 | the lumps are replaced; with an SBARDEF lump the document is replaced and its fonts rebuilt; without one both are kept |
| Model.SBarModel.LoadFonts | src/model.py:77-97 | one fresh font per definition, in order, each the font its stem's lumps define, with maxima that are those of its digits |
| Model.SBarModel.CheckConditions | src/model.py:99-151 | the `result &=` loop computes `Evaluate`, including its bool/int type |
| Glyphs.CyanToAlpha | src/sbardef.py:39-51 | the same size; exactly the magenta pixels become transparent magenta, all others are kept |
| Glyphs.KeyImageIdempotent | src/sbardef.py:39-51 | keying an already keyed image changes nothing |
| Glyphs.MaxSizeIsMaximum | src/sbardef.py:74-77 | the running maxima are upper bounds of every glyph's size, attained by some glyph, and 0 for no glyph |
| Glyphs.NumberFont.constructor | src/sbardef.py:66-72 | a new font has its name, no glyphs and zero maxima |
| Glyphs.NumberFont.AddNumber | src/sbardef.py:74-77 | the keyed digit is appended, the maxima grow to cover it, and the maxima stay those of the digits |
| Glyphs.NumberFont.AddMinus | src/sbardef.py:79-80 | only the minus glyph changes, to the keyed image |
| Glyphs.NumberFont.AddPercent | src/sbardef.py:82-83 | only the percent glyph changes, to the keyed image |
| Glyphs.NumberFont.GetPixmap | src/sbardef.py:85-100 | a strip `maxwidth * maxlength` wide, plus the percent glyph when asked for and present, and `maxheight` high; `maxlength` copies of digit 0 side by side and the percent glyph flush right; when the maxima are those of the digits, every paste lies horizontally inside the strip |
| Glyphs.DigitGlyphsAreThePresentDigits | src/sbardef.py:196-199 | the digit glyphs loaded are exactly the keyed lumps of the digits that exist, in ascending digit order |
| Glyphs.AllDigitsPresent | src/sbardef.py:196-199 | with all ten digit lumps present, glyph d is digit d |
| Glyphs.LoadFont | src/sbardef.py:192-209 | one definition yields a fresh font with the present digits, the minus and percent glyphs when they exist, and consistent maxima |
| Glyphs.LoadFonts | src/sbardef.py:189-209 | one fresh font per definition, in order |
| Geometry.Clamp | src/sbardef.py:35-36 | a value inside the range is kept; otherwise the nearer bound; an empty range gives the lower bound |
| Geometry.DropX | src/sbardef.py:124-129 | a middle-aligned x is kept; otherwise the drop lands in [0, 320 - width + 1] for the width the release reads, unchanged when already there; for a bounding width of pixmap + 1 that keeps the whole pixmap on the canvas |
| Geometry.DropY | src/sbardef.py:125-131 | the same vertically, against the status bar's height |
| Geometry.DriftValues | src/sbardef.py:124-142 | the anchor shift of the bounding size exceeds that of the pixmap by one pixel on a right or bottom aligned axis, by the size's parity on a middle-aligned one, and by nothing on a left or top one |
| Geometry.CommitDrift | src/sbardef.py:124-145 | the write-back as written is the corrected write-back moved by that drift, for every drop |
| Geometry.CommitUndoesAnchorShift | src/sbardef.py:133-145 | the corrected write-back undoes addToScene's alignment shift: an item dropped where it was placed writes back its anchor less the captured difference |
| Geometry.RightAlignedReleaseDrifts | src/sbardef.py:124-145 | as written, a right-aligned item with a 16-pixel pixmap anchored at x 100 and released in place writes back x 101; the corrected write-back gives 100 |
| Document.SetXYWritesOnlyXY | src/sbardef.py:144-145 | the write-back keeps every path valid, sets `x, y` of the target, and leaves every other field of every element unchanged |
| Document.SetXYAt | src/sbardef.py:144-145 | after the write-back the target is the old element with the new `x, y` and its subtree intact |
| SceneItems.SBarElem.constructor | src/view.py:168-183 | the item remembers its element and captures `x_diff`, `y_diff` as the anchor less the element's `x`, `y` |
| SceneItems.SBarElem.MouseRelease | src/view.py:191-215 | the item is moved to the drop clamped with its bounding size (pixmap + 1); exactly the element's `x, y` in the document change, to that position plus the bounding size's anchor shift less the captured difference |
| LayoutFacts.FontNodesPerMatchingFont | src/view.py:313-321 | a number or percent element adds one item per font of its name, in font order, sized as that font's strip |
| LayoutFacts.OwnNodeShape | src/view.py:335-351 | each of an element's own items is placed at its anchor shifted by the alignment, carrying the element's alignment and differences |
| LayoutFacts.OwnNodeCount | src/view.py:304-329 | an element adds one item per matching font, or one per found lump |
| LayoutFacts.ElemNodePath | src/view.py:294-333 | every item drawn for an element's subtree belongs to an element of that subtree |
| LayoutFacts.ElemNodeOrigin | src/view.py:294-333 | an item's anchor is the parent origin plus the sum of `x, y` along its path less the graphic and face lump offsets, and its `x_diff`/`y_diff` is that anchor less the element's `x, y` |
| LayoutFacts.ReleaseInPlaceKeepsElement | src/sbardef.py:121-145 | with the corrected write-back, releasing an item where the layout put it (inside the clamp range) writes back the element's own `x, y` |
| LayoutFacts.ReleaseInPlaceDrifts | src/sbardef.py:121-145 | with the write-back as written, the same release writes back the element's `x, y` moved by the drift |
| LayoutFacts.SetXYDrawable | src/view.py:214-215 | a write-back keeps a drawable status bar drawable |
| LayoutFacts.ElemMove | src/view.py:294-333 | moving one element of a subtree by (dx, dy) moves its item by exactly (dx, dy) in the new layout |
| LayoutFacts.RelayoutAfterWrite | src/view.py:294-333 | an item's anchor less its captured difference is its element's `x, y`; after any write-back of `x, y`, redrawing puts an item of that element where the old one was, moved by the change of position |
| LayoutFacts.CommitThenRelayout | src/view.py:191-217 | with the corrected write-back, redrawing puts an item of that element exactly where the release left the dragged one, with the same size, alignment and differences |
| LayoutFacts.CommitThenRelayoutAsWritten | src/view.py:191-217 | with the write-back as written, the redrawn item lands the drift away from where the release left the dragged one |
| LayoutFacts.ElemHidden | src/view.py:298-299 | no item of the layout belongs to a hidden element or anything below it |
| LayoutFacts.ElemEmits | src/sbardef.py:259-293 | without the condition check every element whose pixmap is found produces an item, however deep it lies |
| View.View.constructor | src/view.py:262-270 | a new view shows an empty scene for its model |
| View.View.Draw | src/view.py:276-292 | the scene is refilled with exactly the items of the status bar's layout under the model's game state, all for this bar, each at its layout position |
| View.View.DrawChildren | src/view.py:331-333 | the children loop appends exactly the layout of the children list |
| View.View.DrawElem | src/view.py:294-333 | drawElem appends exactly the layout of the element's subtree, nothing when its conditions are `False` |
| View.View.DrawShown | src/view.py:301-333 | a shown element appends its own items, then its children's |
| View.View.DrawOwn | src/view.py:301-329 | the kind-specific part appends the element's own items and returns the origin for its children, moved by the lump offset |
| View.View.DrawNumber | src/view.py:313-321 | the font loop appends one strip item per font of the element's name, in font order |
| View.View.AddStrip | src/view.py:316-321 | one pass adds one fresh item, as large as the font's strip |
| View.View.AddToScene | src/view.py:335-353 | one fresh item is appended, placed at its anchor shifted by the alignment |
| SBarDefView.RecordedKeys | src/sbardef.py:256 | after drawing, exactly the elements of this bar that got an item are recorded, besides the earlier records |
| SBarDefView.RecordedLast | src/sbardef.py:256 | an element's record is the position of the last item drawn for it |
| SBarDefView.RecordedElsewhere | src/sbardef.py:256 | records of elements that got no item are unchanged |
| SBarDefView.DrawnIsRecorded | src/sbardef.py:259-293 | after draw, every element whose own pixmap is found has a record, however deep it lies |
| SBarDefView.WalkElem | src/sbardef.py:211-221 | updateElem keeps every earlier record: it only adds or overwrites |
| SBarDefView.WalkElemFrame | src/sbardef.py:211-221 | updateElem changes no record outside the element's subtree |
| SBarDefView.WalkElemValue | src/sbardef.py:211-221 | updateElem puts each element of the subtree at the origin plus the plain sum of `x, y` along its path |
| SBarDefView.UpdateMovesDescendants | src/sbardef.py:223-237 | update moves the records of the element's descendants, and nothing else, to its own `x, y` plus the plain sums below it, with no lump offset and no alignment |
| SBarDefView.SBarDef.constructor | src/sbardef.py:152-187 | one combo entry per status bar, "Fullscreen" or "Statusbar" by its flag, then the loaded fonts |
| SBarDefView.SBarDef.LoadFonts | src/sbardef.py:189-209 | one fresh font per definition, in order, each the font its stem's lumps define |
| SBarDefView.SBarDef.Draw | src/sbardef.py:295-310 | the scene is refilled with exactly the status bar's layout, no element skipped, every item for this bar at its layout position, and each drawn element records its last item's position |
| SBarDefView.SBarDef.DrawChildren | src/sbardef.py:291-293 | the children loop appends exactly the children's layout and records it |
| SBarDefView.SBarDef.DrawElem | src/sbardef.py:259-293 | drawElem appends and records exactly the layout of the element's subtree |
| SBarDefView.SBarDef.DrawOwn | src/sbardef.py:263-289 | the kind-specific part appends and records the element's own items and returns the children's origin |
| SBarDefView.SBarDef.DrawNumber | src/sbardef.py:275-281 | the font loop appends and records one strip item per font of the element's name |
| SBarDefView.SBarDef.AddStrip | src/sbardef.py:278-281 | one pass adds and records one fresh item, as large as the font's strip |
| SBarDefView.SBarDef.AddToScene | src/sbardef.py:239-257 | one fresh item at its anchor shifted by the alignment, recorded as the element's `sceneitem` |
| SBarDefView.SBarDef.Release | src/sbardef.py:121-149 | a drop clamps the item with its bounding size, writes the element's `x, y` back as written, and the `update` it signals moves the descendants' records |
| SBarDefView.SBarDef.Update | src/sbardef.py:223-237 | the records change exactly as `UpdateMovesDescendants` describes |
| SBarDefView.SBarDef.UpdateElem | src/sbardef.py:211-221 | the element's record moves to the origin plus its `x, y`, then its children follow |
| SBarDefView.SBarDef.UpdateChildren | src/sbardef.py:219-221 | the children loop applies updateElem to each child in order |

## Left out

- The Qt user interface is not modelled: windows, dialogs, the property and condition trees, the combo box widget, signal wiring, the background rectangle and scene clearing. `update`'s property-tree refresh is left out for the same reason. controller.py and main.py are not part of this model.
- Reading the WAD (omg) and parsing the SBARDEF JSON are not modelled. `LoadWad` and the `SBarDef` constructor take the parsed document and the lumps as parameters.
- Images are modelled as a size plus a pixel sequence. The RGBA conversion and the raster work of `paste` are not modelled; a strip is the list of its pastes.
- View.View.AddToScene: src/view.py halves with float `/ 2`, both here and when its mouse release re-adds the shift, and truncates positions with `int()`. Both views are modelled with the integer halving of src/sbardef.py (`>> 1`), so half-pixel positions of odd-sized middle-aligned items in src/view.py are not captured.
- SceneItems.SBarElem.MouseRelease: the release reads its size from `boundingRect()`. Qt is not part of this model. The model takes that size to be the pixmap's plus one on each axis, because a selectable pixmap item's bounding rectangle is padded by half a pixel on every side. The clamp `[0, 320 - width + 1]` therefore keeps the whole pixmap on the canvas. An empty pixmap, whose bounding rectangle is empty, is not distinguished.
- View.View.Draw and SBarDefView.SBarDef.Draw require the status-bar index to be in range, and the tree to be drawable. Drawable means every condition can be evaluated, the face lump exists, and every font of a used name has a digit-0 glyph. The source raises IndexError or KeyError in those cases. The model states preconditions instead of modelling the exception, and negative indices are not modelled.
- SBarDefView.SBarDef.Update requires every descendant to have a recorded item. The source raises KeyError on a missing `sceneitem`.
- SBarDefView.SBarDef.Update moves the recorded positions in `itemPos`, not the `x, y` fields of the `SBarElem` objects. The item-to-element link and stale items from earlier draws are not modelled.
- SBarDefView.SBarDef.Draw clears the scene but keeps earlier records in `itemPos`, as the source keeps `sceneitem` in the document.
- Glyphs.LoadFonts states that each font is fresh, not that the fonts are pairwise distinct objects.
- Glyphs.NumberFont.GetPixmap takes `maxlength` as a `nat`. With a negative `maxlength` the source hands `Image.new` a negative width, which raises; that error path is not modelled.
- SceneItems.SBarElem: the anchor the layout gave an item is a ghost field. The source keeps only its difference to the element's `x, y`.
- View.View.AddToScene and AddStrip state freshness only for the item they add. Draw does not restate it for the whole scene.
- The zoom of the main window (`updateScale`) and the item names shown in the property tree are not modelled.

## Findings

The release operations (`SceneItems.SBarElem.MouseRelease`, `SBarDefView.SBarDef.Release`) model the code as written. The corrected write-back `Geometry.CorrectedCommitX`/`CorrectedCommitY` carries the intended properties.

| source | as written | input that shows it | evidently intended | confidence | as-written member | corrected member |
|---|---|---|---|---|---|---|
| src/sbardef.py:124-145 (also src/view.py:194-212) | the release re-adds the anchor shift of the bounding rectangle, one pixel larger than the pixmap that addToScene shifted by | a right-aligned element whose pixmap is 16 wide, anchored at x 100 and released without moving, gets x 101; each such release moves it one more pixel | re-add the pixmap's own shift, so that a release in place leaves the element unchanged and a redraw puts the item where it was dropped | medium, not executed; rests on Qt padding a selectable pixmap item's bounding rectangle | Geometry.RightAlignedReleaseDrifts, LayoutFacts.ReleaseInPlaceDrifts | LayoutFacts.ReleaseInPlaceKeepsElement, LayoutFacts.CommitThenRelayout |

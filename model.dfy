/**
 * SBarModel (src/model.py): the loaded document and lumps, the number fonts
 * built from them, and the game state the editor previews conditions
 * against.
 */
module Model {
  import opened Wrappers
  import opened Conditions
  import opened Document
  import opened Glyphs

  class SBarModel {
    /** The parsed SBARDEF lump, `None` until a WAD holding one is loaded. */
    var doc: Doc?
    /** The graphics, patches and sprites of the loaded WAD, by name. */
    var lumps: map<string, Lump>
    var numberfonts: seq<NumberFont>
    /** The flag tables and selections that the condition check reads. */
    var state: GameState

    /** A model with nothing loaded, in the initial game state. */
    constructor()
      ensures doc == null && lumps == map[] && numberfonts == []
      ensures state == INITIAL_STATE && state.Valid()
    {
      doc := null;
      lumps := map[];
      numberfonts := [];
      state := INITIAL_STATE;
    }

    /**
     * load_wad once the archive has been read: the lumps are replaced, and
     * when the archive holds an SBARDEF lump the document is replaced and
     * its fonts are loaded.
     */
    method LoadWad(sbardef: Option<Doc>, lumps: map<string, Lump>)
      modifies this
      ensures this.lumps == lumps && state == old(state)
      ensures sbardef.None? ==> doc == old(doc) && numberfonts == old(numberfonts)
      ensures sbardef.Some? ==> doc == sbardef.value && |numberfonts| == |doc.numberfonts|
      ensures sbardef.Some? ==>
        forall i :: 0 <= i < |numberfonts| ==>
          fresh(numberfonts[i]) && numberfonts[i].Data() == LoadedFont(doc.numberfonts[i], lumps)
    {
      this.lumps := lumps;
      if sbardef.Some? {
        doc := sbardef.value;
        LoadFonts();
      }
    }

    /**
     * load_fonts: the fonts are rebuilt, one per font definition of the
     * document, in order, each holding the keyed glyphs its stem names.
     */
    method LoadFonts()
      requires doc != null
      modifies this
      ensures doc == old(doc) && lumps == old(lumps) && state == old(state)
      ensures |numberfonts| == |doc.numberfonts|
      ensures forall i :: 0 <= i < |numberfonts| ==>
        fresh(numberfonts[i]) && numberfonts[i].Data() == LoadedFont(doc.numberfonts[i], lumps)
      ensures forall i :: 0 <= i < |numberfonts| ==> numberfonts[i].Data().Valid()
    {
      numberfonts := Glyphs.LoadFonts(doc.numberfonts, lumps);
    }

    /**
     * check_conditions: the loop that ANDs each condition's test into
     * `result`, which starts as `True`.
     */
    method CheckConditions(conditions: Option<seq<Condition>>) returns (result: PyValue)
      requires state.Valid() && (conditions.Some? ==> AllDefined(conditions.value, state))
      ensures result == Evaluate(conditions, state)
    {
      result := PyBool(true);
      if conditions.Some? {
        var cs := conditions.value;
        for i := 0 to |cs|
          invariant AllDefined(cs[..i], state)
          invariant result == Fold(cs[..i], state)
        {
          assert cs[..i + 1][..i] == cs[..i];
          match Step(cs[i], state)
          case None =>
          case Some(v) => result := AndValue(result, v);
        }
        assert cs[..|cs|] == cs;
      }
    }
  }
}

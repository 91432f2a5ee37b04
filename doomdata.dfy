/**
 * The constant tables of the game whose status bar is being edited:
 * screen size, alignment bit flags, condition codes, the weapon, ammo and
 * slot tables, session types and game modes (src/doomdata.py).
 */
module DoomData {

  const SCREENWIDTH: int := 320
  const SCREENHEIGHT: int := 200

  // Alignment bit flags. Left and top are the absence of a flag.
  const H_LEFT: int := 0x00
  const H_MIDDLE: int := 0x01
  const H_RIGHT: int := 0x02
  const H_MASK: int := 0x03
  const V_TOP: int := 0x00
  const V_MIDDLE: int := 0x04
  const V_BOTTOM: int := 0x08
  const V_MASK: int := 0x0C

  /** Bit `k` of `flags` in two's complement, i.e. Python's `flags & 2**k != 0`. */
  function Pow2(k: nat): (r: nat)
    ensures r >= 1
  {
    if k == 0 then 1 else 2 * Pow2(k - 1)
  }

  predicate HasBit(flags: int, k: nat)
  {
    (flags / Pow2(k)) % 2 == 1
  }

  /** `alignment & Alignment.h_middle` */
  predicate HMiddle(alignment: int) { HasBit(alignment, 0) }
  /** `alignment & Alignment.h_right` */
  predicate HRight(alignment: int) { HasBit(alignment, 1) }
  /** `alignment & Alignment.v_middle` */
  predicate VMiddle(alignment: int) { HasBit(alignment, 2) }
  /** `alignment & Alignment.v_bottom` */
  predicate VBottom(alignment: int) { HasBit(alignment, 3) }

  // Status-bar condition codes (class sbc).
  const WEAPON_OWNED: int := 0
  const WEAPON_SELECTED: int := 1
  const WEAPON_NOT_SELECTED: int := 2
  const WEAPON_HAS_AMMO: int := 3
  const SELECTED_WEAPON_HAS_AMMO: int := 4
  const SELECTED_WEAPON_AMMO_TYPE: int := 5
  const WEAPON_SLOT_OWNED: int := 6
  const WEAPON_SLOT_NOT_OWNED: int := 7
  const WEAPON_SLOT_SELECTED: int := 8
  const WEAPON_SLOT_NOT_SELECTED: int := 9
  const ITEM_OWNED: int := 10
  const ITEM_NOT_OWNED: int := 11
  const FEATURE_LEVEL_GREATER_EQUAL: int := 12
  const FEATURE_LEVEL_LESS: int := 13
  const SESSION_TYPE_EQUAL: int := 14
  const SESSION_TYPE_NOT_EQUAL: int := 15
  const MODE_EQUAL: int := 16
  const MODE_NOT_EQUAL: int := 17
  const HUD_MODE_EQUAL: int := 18

  /** Every condition code, in declaration order. */
  const CONDITION_CODES: seq<int> := [
    WEAPON_OWNED, WEAPON_SELECTED, WEAPON_NOT_SELECTED, WEAPON_HAS_AMMO,
    SELECTED_WEAPON_HAS_AMMO, SELECTED_WEAPON_AMMO_TYPE, WEAPON_SLOT_OWNED,
    WEAPON_SLOT_NOT_OWNED, WEAPON_SLOT_SELECTED, WEAPON_SLOT_NOT_SELECTED,
    ITEM_OWNED, ITEM_NOT_OWNED, FEATURE_LEVEL_GREATER_EQUAL, FEATURE_LEVEL_LESS,
    SESSION_TYPE_EQUAL, SESSION_TYPE_NOT_EQUAL, MODE_EQUAL, MODE_NOT_EQUAL,
    HUD_MODE_EQUAL
  ]

  // Weapons.
  const FIST: int := 0
  const PISTOL: int := 1
  const SHOTGUN: int := 2
  const CHAINGUN: int := 3
  const MISSILE: int := 4
  const PLASMA: int := 5
  const BFG: int := 6
  const CHAINSAW: int := 7
  const SUPERSHOTGUN: int := 8
  const NUM_WEAPONS: int := 9
  const DEFAULT_SELECTED_WEAPON: int := PISTOL

  // Ammo types. There is no type 4.
  const CLIP: int := 0
  const SHELL: int := 1
  const CELL: int := 2
  const MISL: int := 3
  const NOAMMO: int := 5

  /** Ammo type of each weapon, indexed by weapon code (Ammo.weapon). */
  const AMMO_OF_WEAPON: seq<int> := [NOAMMO, CLIP, SHELL, CLIP, MISL, CELL, CELL, CLIP, SHELL]

  /** Slot (1-based) of each weapon, indexed by weapon code (Slots.weapon). */
  const SLOT_OF_WEAPON: seq<int> := [1, 2, 3, 4, 5, 6, 7, 1, 3]
  const NUM_SLOTS: int := 7
  const DEFAULT_SELECTED_SLOT: int := 1

  // Session types.
  const SINGLEPLAYER: int := 0
  const COOPERATIVE: int := 1
  const DEATHMATCH: int := 2

  // Game modes.
  const SHAREWARE: int := 0
  const REGISTERED: int := 1
  const COMMERCIAL: int := 2
  const RETAIL: int := 3
  const INDETERMINED: int := 4

  /**
   * The two alignment axes use disjoint bits: writing an alignment as
   * `4 * v + h` with `h` in the horizontal mask, the horizontal tests see only
   * `h` and the vertical tests see only `4 * v`; left and top are the value 0.
   */
  lemma {:induction false} AlignmentAxesDisjoint(h: int, v: int)
    requires 0 <= h <= H_MASK
    ensures H_MASK == H_MIDDLE + H_RIGHT && V_MASK == V_MIDDLE + V_BOTTOM
    ensures H_LEFT == 0 && V_TOP == 0
    ensures HMiddle(4 * v + h) == HMiddle(h) && HRight(4 * v + h) == HRight(h)
    ensures VMiddle(4 * v + h) == VMiddle(4 * v) && VBottom(4 * v + h) == VBottom(4 * v)
    ensures !VMiddle(h) && !VBottom(h) && !HMiddle(4 * v) && !HRight(4 * v)
    ensures HMiddle(H_MIDDLE) && !HRight(H_MIDDLE) && HRight(H_RIGHT) && !HMiddle(H_RIGHT)
    ensures VMiddle(V_MIDDLE) && !VBottom(V_MIDDLE) && VBottom(V_BOTTOM) && !VMiddle(V_BOTTOM)
  {
    assert Pow2(0) == 1 && Pow2(1) == 2 && Pow2(2) == 4 && Pow2(3) == 8;
    var a := 4 * v + h;
    assert a / 1 == a;
    assert a / 2 == 2 * v + h / 2;
    assert a / 4 == v;
    if v % 2 == 0 {
      assert a / 8 == v / 2;
      assert (4 * v) / 8 == v / 2;
    } else {
      assert a / 8 == (v - 1) / 2;
      assert (4 * v) / 8 == (v - 1) / 2;
    }
    assert (4 * v) / 2 == 2 * v;
  }

  /** Ammo.weapon has one entry per weapon; only the fist uses no ammo. */
  lemma AmmoTable()
    ensures |AMMO_OF_WEAPON| == NUM_WEAPONS
    ensures forall w :: 0 <= w < NUM_WEAPONS ==> AMMO_OF_WEAPON[w] in {CLIP, SHELL, CELL, MISL, NOAMMO}
    ensures forall w :: 0 <= w < NUM_WEAPONS ==> (AMMO_OF_WEAPON[w] == NOAMMO <==> w == FIST)
  {
  }

  /**
   * Slots.weapon maps every weapon to a slot 1..7, so for a weapon parameter
   * p in 1..9 the index `Slots.weapon[p - 1] - 1` addresses one of the seven slot flags.
   */
  lemma SlotTable()
    ensures |SLOT_OF_WEAPON| == NUM_WEAPONS
    ensures forall w :: 0 <= w < NUM_WEAPONS ==> 0 <= SLOT_OF_WEAPON[w] - 1 < NUM_SLOTS
  {
  }

  /** The condition codes are 0..18 in order, hence pairwise distinct. */
  lemma ConditionCodesDistinct()
    ensures |CONDITION_CODES| == 19
    ensures forall i :: 0 <= i < |CONDITION_CODES| ==> CONDITION_CODES[i] == i
    ensures forall i, j :: 0 <= i < j < |CONDITION_CODES| ==> CONDITION_CODES[i] != CONDITION_CODES[j]
  {
  }

  /** Session codes are 0..2 and game-mode codes 0..4. */
  lemma SessionAndModeCodes()
    ensures [SINGLEPLAYER, COOPERATIVE, DEATHMATCH] == [0, 1, 2]
    ensures [SHAREWARE, REGISTERED, COMMERCIAL, RETAIL, INDETERMINED] == [0, 1, 2, 3, 4]
  {
  }
}

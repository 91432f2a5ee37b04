/**
 * The status-bar condition evaluator: `SBarModel.check_conditions`
 * (src/model.py) folds `result &= test` over an element's condition list.
 *
 * Python's `&=` keeps a `bool` only while both operands are `bool`; the tests
 * for `weaponowned` and `weaponslotowned` yield the stored flag, an `int`, and
 * from then on the accumulator is an `int`. The caller hides an element only
 * when the result `is False`, so the type of the result matters and is modelled.
 */
module Conditions {
  import opened Wrappers
  import opened DoomData

  /** The 0/1 flags the editor stores for owned weapons, ammo and slots. */
  type Bit = b: int | 0 <= b <= 1

  /**
   * The game state the conditions are tested against (the flag tables and
   * the current selections of SBarModel). The item names that accompany each
   * flag in the source are user-interface labels and are not modelled.
   */
  datatype GameState = GameState(
    weaponOwned: seq<Bit>,
    ammoOwned: seq<Bit>,
    slotOwned: seq<Bit>,
    otherFlags: seq<Bit>,   // one entry: CompactHUD
    weaponSelected: int,
    slotSelected: int,
    session: int,
    mode: int)
  {
    predicate Valid()
    {
      |weaponOwned| == NUM_WEAPONS && |ammoOwned| == 4 && |slotOwned| == NUM_SLOTS && |otherFlags| == 1
    }
  }

  /** The state SBarModel starts in: everything owned, pistol and slot 1 selected, single player, commercial. */
  const INITIAL_STATE: GameState := GameState(
    [1, 1, 1, 1, 1, 1, 1, 1, 1], [1, 1, 1, 1], [1, 1, 1, 1, 1, 1, 1], [0],
    DEFAULT_SELECTED_WEAPON, DEFAULT_SELECTED_SLOT, SINGLEPLAYER, COMMERCIAL)

  /** A Python value that is either a `bool` or a (non-negative) `int`. */
  datatype PyValue = PyBool(b: bool) | PyInt(i: nat)
  {
    /** Python truthiness. */
    predicate Truthy()
    {
      match this
      case PyBool(b) => b
      case PyInt(i) => i != 0
    }

    /** The value as an int (`True` is 1, `False` is 0). */
    function AsInt(): nat
    {
      match this
      case PyBool(b) => if b then 1 else 0
      case PyInt(i) => i
    }
  }

  /** Bitwise AND of two non-negative integers. */
  function BitAnd(a: nat, b: nat): nat
  {
    if a == 0 || b == 0 then 0 else 2 * BitAnd(a / 2, b / 2) + (a % 2) * (b % 2)
  }

  /** Python's `acc & v` for `bool` and `int` operands. */
  function AndValue(acc: PyValue, v: PyValue): (r: PyValue)
    ensures r.PyBool? <==> acc.PyBool? && v.PyBool?
    ensures acc.AsInt() <= 1 && v.AsInt() <= 1 ==> r.AsInt() <= 1 && (r.Truthy() <==> acc.Truthy() && v.Truthy())
  {
    if acc.PyBool? && v.PyBool? then PyBool(acc.b && v.b)
    else PyInt(BitAnd(acc.AsInt(), v.AsInt()))
  }

  /** Python indexing `s[i]`, where a negative index counts from the end. */
  function PyAt<T>(s: seq<T>, i: int): T
    requires -|s| <= i < |s|
  {
    if i < 0 then s[|s| + i] else s[i]
  }

  /** One `(condition, param)` entry of an element's condition list. */
  datatype Condition = Condition(code: int, param: int)

  /**
   * The condition can be evaluated without an IndexError: the table indexed by
   * the parameter (or by the selected weapon) has that index.
   */
  predicate Defined(c: Condition, st: GameState)
    requires st.Valid()
  {
    if c.code == WEAPON_OWNED || c.code == WEAPON_HAS_AMMO then -NUM_WEAPONS <= c.param < NUM_WEAPONS
    else if c.code == SELECTED_WEAPON_HAS_AMMO || c.code == SELECTED_WEAPON_AMMO_TYPE then
      -NUM_WEAPONS <= st.weaponSelected < NUM_WEAPONS
    else if c.code == WEAPON_SLOT_OWNED || c.code == WEAPON_SLOT_NOT_OWNED then
      -NUM_WEAPONS <= c.param - 1 < NUM_WEAPONS
    else true
  }

  predicate AllDefined(cs: seq<Condition>, st: GameState)
    requires st.Valid()
  {
    forall i :: 0 <= i < |cs| ==> Defined(cs[i], st)
  }

  /** The slot flag that `weaponslotowned`/`weaponslotnotowned` consult for a parameter. */
  function SlotFlag(param: int, st: GameState): Bit
    requires st.Valid() && -NUM_WEAPONS <= param - 1 < NUM_WEAPONS
  {
    SlotTable();
    st.slotOwned[PyAt(SLOT_OF_WEAPON, param - 1) - 1]
  }

  /**
   * The right-hand side of `result &= ...` for one condition, or None when
   * the code has no branch (itemowned, itemnotowned, the feature-level codes
   * and any unknown code), in which case the accumulator is left alone.
   */
  function Step(c: Condition, st: GameState): (r: Option<PyValue>)
    requires st.Valid() && Defined(c, st)
  {
    AmmoTable();
    var p := c.param;
    if c.code == WEAPON_OWNED then Some(PyInt(PyAt(st.weaponOwned, p)))
    else if c.code == WEAPON_SELECTED then Some(PyBool(st.weaponSelected == p))
    else if c.code == WEAPON_NOT_SELECTED then Some(PyBool(st.weaponSelected != p))
    else if c.code == WEAPON_HAS_AMMO then Some(PyBool(PyAt(AMMO_OF_WEAPON, p) != NOAMMO))
    else if c.code == SELECTED_WEAPON_HAS_AMMO then Some(PyBool(PyAt(AMMO_OF_WEAPON, st.weaponSelected) != NOAMMO))
    else if c.code == SELECTED_WEAPON_AMMO_TYPE then Some(PyBool(PyAt(AMMO_OF_WEAPON, st.weaponSelected) == p))
    else if c.code == WEAPON_SLOT_OWNED then Some(PyInt(SlotFlag(p, st)))
    else if c.code == WEAPON_SLOT_NOT_OWNED then Some(PyBool(SlotFlag(p, st) == 0))
    else if c.code == WEAPON_SLOT_SELECTED then Some(PyBool(st.slotSelected == p))
    else if c.code == WEAPON_SLOT_NOT_SELECTED then Some(PyBool(st.slotSelected != p))
    else if c.code == SESSION_TYPE_EQUAL then Some(PyBool(st.session == p))
    else if c.code == SESSION_TYPE_NOT_EQUAL then Some(PyBool(st.session != p))
    else if c.code == MODE_EQUAL then Some(PyBool(st.mode == p))
    else if c.code == MODE_NOT_EQUAL then Some(PyBool(st.mode != p))
    else if c.code == HUD_MODE_EQUAL then Some(PyBool(st.otherFlags[0] == p))
    else None
  }

  /**
   * Which codes have a branch, and what kind of value it yields: an int that
   * is 0 or 1 for exactly weaponowned and weaponslotowned, a bool otherwise.
   */
  lemma StepShape(c: Condition, st: GameState)
    requires st.Valid() && Defined(c, st)
    ensures Step(c, st).None? <==> c.code !in CONDITION_CODES || ITEM_OWNED <= c.code <= FEATURE_LEVEL_LESS
    ensures Step(c, st).Some? ==> (Step(c, st).value.PyInt? <==> YieldsInt(c)) && Step(c, st).value.AsInt() <= 1
  {
    ConditionCodesDistinct();
  }

  /** The test a condition stands for: true when it does not falsify the AND. */
  predicate Holds(c: Condition, st: GameState)
    requires st.Valid() && Defined(c, st)
  {
    match Step(c, st)
    case None => true
    case Some(v) => v.Truthy()
  }

  /** The two codes whose test yields an int rather than a bool. */
  predicate YieldsInt(c: Condition)
  {
    c.code == WEAPON_OWNED || c.code == WEAPON_SLOT_OWNED
  }

  predicate AllHold(cs: seq<Condition>, st: GameState)
    requires st.Valid() && AllDefined(cs, st)
  {
    forall i :: 0 <= i < |cs| ==> Holds(cs[i], st)
  }

  predicate AnyYieldsInt(cs: seq<Condition>)
  {
    exists i :: 0 <= i < |cs| && YieldsInt(cs[i])
  }

  /**
   * The value of `result` after the loop of check_conditions has run over
   * `cs` (from the back, so that a loop can extend it one condition at a time).
   * Closed form: a bool AND of the tests while no int-yielding code occurs,
   * otherwise the int 0 or 1 carrying the same truth.
   */
  function Fold(cs: seq<Condition>, st: GameState): (r: PyValue)
    requires st.Valid() && AllDefined(cs, st)
    ensures r == if AnyYieldsInt(cs) then PyInt(if AllHold(cs, st) then 1 else 0) else PyBool(AllHold(cs, st))
    decreases |cs|
  {
    if cs == [] then PyBool(true)
    else
      var init := cs[..|cs| - 1];
      var acc := Fold(init, st);
      SnocTests(cs, st);
      match Step(cs[|cs| - 1], st)
      case None => acc
      case Some(v) => AndValue(acc, v)
  }

  /** Splitting off the last condition splits both tests the fold depends on. */
  lemma SnocTests(cs: seq<Condition>, st: GameState)
    requires st.Valid() && AllDefined(cs, st) && cs != []
    ensures AllDefined(cs[..|cs| - 1], st)
    ensures AllHold(cs, st) <==> AllHold(cs[..|cs| - 1], st) && Holds(cs[|cs| - 1], st)
    ensures AnyYieldsInt(cs) <==> AnyYieldsInt(cs[..|cs| - 1]) || YieldsInt(cs[|cs| - 1])
  {
    var init := cs[..|cs| - 1];
    assert forall i :: 0 <= i < |init| ==> init[i] == cs[i];
  }

  /** check_conditions: no list is true; a list is its fold. */
  function Evaluate(conditions: Option<seq<Condition>>, st: GameState): (r: PyValue)
    requires st.Valid() && (conditions.Some? ==> AllDefined(conditions.value, st))
    ensures conditions.None? ==> r == PyBool(true)
    ensures conditions.Some? ==> (r.Truthy() <==> AllHold(conditions.value, st))
  {
    match conditions
    case None => PyBool(true)
    case Some(cs) => Fold(cs, st)
  }

  /** The caller's test `check_conditions(...) is False`. */
  predicate Hides(conditions: Option<seq<Condition>>, st: GameState)
    requires st.Valid() && (conditions.Some? ==> AllDefined(conditions.value, st))
  {
    Evaluate(conditions, st) == PyBool(false)
  }

  /**
   * The result is a bool unless a weaponowned or weaponslotowned condition
   * was processed, and then an int that is 0 or 1.
   */
  lemma ResultType(cs: seq<Condition>, st: GameState)
    requires st.Valid() && AllDefined(cs, st)
    ensures Fold(cs, st).PyBool? <==> forall i :: 0 <= i < |cs| ==> !YieldsInt(cs[i])
    ensures Fold(cs, st).PyInt? ==> Fold(cs, st).i <= 1
  {
  }

  /** An element is hidden exactly when no test yields an int and some test fails. */
  lemma {:induction false} HidesExactly(conditions: Option<seq<Condition>>, st: GameState)
    requires st.Valid() && (conditions.Some? ==> AllDefined(conditions.value, st))
    ensures Hides(conditions, st) <==>
      conditions.Some? && !AnyYieldsInt(conditions.value) && !AllHold(conditions.value, st)
  {
  }

  /** A list containing weaponowned or weaponslotowned never hides its element, whatever the state. */
  lemma IntConditionNeverHides(cs: seq<Condition>, st: GameState, k: int)
    requires st.Valid() && AllDefined(cs, st)
    requires 0 <= k < |cs| && YieldsInt(cs[k])
    ensures !Hides(Some(cs), st)
  {
  }

  /** The result depends only on which conditions occur, not on their order. */
  lemma {:induction false} OrderIndependent(cs: seq<Condition>, ds: seq<Condition>, st: GameState)
    requires st.Valid() && AllDefined(cs, st)
    requires multiset(cs) == multiset(ds)
    ensures AllDefined(ds, st)
    ensures Fold(cs, st) == Fold(ds, st)
  {
    assert forall c :: c in cs <==> c in ds by {
      forall c ensures c in cs <==> c in ds {
        assert c in cs <==> c in multiset(cs);
        assert c in ds <==> c in multiset(ds);
      }
    }
    assert AllDefined(ds, st) by {
      forall j | 0 <= j < |ds| ensures Defined(ds[j], st) {
        assert ds[j] in cs;
      }
    }
    assert AllHold(cs, st) ==> AllHold(ds, st) by {
      if AllHold(cs, st) {
        forall j | 0 <= j < |ds| ensures Holds(ds[j], st) {
          assert ds[j] in cs;
        }
      }
    }
    assert AllHold(ds, st) ==> AllHold(cs, st) by {
      if AllHold(ds, st) {
        forall i | 0 <= i < |cs| ensures Holds(cs[i], st) {
          assert cs[i] in ds;
        }
      }
    }
    assert AnyYieldsInt(cs) ==> AnyYieldsInt(ds) by {
      if AnyYieldsInt(cs) {
        var i :| 0 <= i < |cs| && YieldsInt(cs[i]);
        assert cs[i] in ds;
      }
    }
    assert AnyYieldsInt(ds) ==> AnyYieldsInt(cs) by {
      if AnyYieldsInt(ds) {
        var j :| 0 <= j < |ds| && YieldsInt(ds[j]);
        assert ds[j] in cs;
      }
    }
  }

  /** A code with no branch leaves the accumulator unchanged wherever it is inserted. */
  lemma {:induction false} UnknownCodeIsNoOp(cs: seq<Condition>, k: nat, u: Condition, st: GameState)
    requires st.Valid() && AllDefined(cs, st) && k <= |cs|
    requires u.code !in CONDITION_CODES || ITEM_OWNED <= u.code <= FEATURE_LEVEL_LESS
    ensures AllDefined(cs[..k] + [u] + cs[k..], st)
    ensures Fold(cs[..k] + [u] + cs[k..], st) == Fold(cs, st)
  {
    var ds := cs[..k] + [u] + cs[k..];
    assert Step(u, st) == None;
    assert forall i :: 0 <= i < k ==> ds[i] == cs[i];
    assert forall i :: k < i < |ds| ==> ds[i] == cs[i - 1];
    assert AllHold(ds, st) <==> AllHold(cs, st) by {
      if AllHold(cs, st) {
        forall i | 0 <= i < |ds| ensures Holds(ds[i], st) {
          if i > k { assert ds[i] == cs[i - 1]; }
        }
      }
      if AllHold(ds, st) {
        forall i | 0 <= i < |cs| ensures Holds(cs[i], st) {
          if i >= k { assert cs[i] == ds[i + 1]; } else { assert cs[i] == ds[i]; }
        }
      }
    }
    assert AnyYieldsInt(ds) <==> AnyYieldsInt(cs) by {
      if AnyYieldsInt(cs) {
        var i :| 0 <= i < |cs| && YieldsInt(cs[i]);
        if i >= k { assert ds[i + 1] == cs[i]; } else { assert ds[i] == cs[i]; }
      }
      if AnyYieldsInt(ds) {
        var i :| 0 <= i < |ds| && YieldsInt(ds[i]);
        assert i != k;
        if i > k { assert cs[i - 1] == ds[i]; } else { assert cs[i] == ds[i]; }
      }
    }
  }

  /** weaponslotowned and weaponslotnotowned with the same parameter test complementary values. */
  lemma SlotOwnedComplement(param: int, st: GameState)
    requires st.Valid() && -NUM_WEAPONS <= param - 1 < NUM_WEAPONS
    ensures Holds(Condition(WEAPON_SLOT_OWNED, param), st) <==> !Holds(Condition(WEAPON_SLOT_NOT_OWNED, param), st)
  {
  }

  /** selectedweaponhasammo is weaponhasammo asked about the selected weapon, whatever its own parameter. */
  lemma SelectedWeaponHasAmmo(param: int, st: GameState)
    requires st.Valid() && -NUM_WEAPONS <= st.weaponSelected < NUM_WEAPONS
    ensures Step(Condition(SELECTED_WEAPON_HAS_AMMO, param), st) == Step(Condition(WEAPON_HAS_AMMO, st.weaponSelected), st)
  {
  }
}

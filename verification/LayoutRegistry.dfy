/**
 The layout registry's static tables, filled in place by the two passes of reload.
 */
module LayoutRegistry {
  import opened Basics
  import opened LayoutIds

  /** The elements of all layers, in order. */
  function Flat(layers: seq<seq<Key>>): seq<Key> {
    if layers == [] then [] else layers[0] + Flat(layers[1..])
  }

  method ContainsValue(items: array<Word>, count: nat, value: Word) returns (found: bool)
    requires count <= items.Length
    ensures found == (value in items[..count])
  {
    var i := 0;
    while i < count
      invariant i <= count && value !in items[..i]
    {
      if items[i] == value { return true; }
      i := i + 1;
    }
    return false;
  }

  class Tables {
    const reservedIds: array<Word>
    const secondPassNumericIds: array<Word>
    const legacyIds: array<Entry>
    var reservedCount: nat
    var secondPassNumericCount: nat
    var loadedLegacyCount: nat
    var loadedElementCount: nat
    /** The ids handed to the endpoint index, element by element. */
    ghost var ids: seq<Word>

    ghost predicate Valid()
      reads this
    {
      && reservedIds.Length == MAX_ELEMENTS && secondPassNumericIds.Length == MAX_ELEMENTS &&
           legacyIds.Length == MAX_ELEMENTS
      && reservedIds != secondPassNumericIds && loadedElementCount == |ids|
      && reservedCount <= MAX_ELEMENTS && secondPassNumericCount <= MAX_ELEMENTS && loadedLegacyCount <= MAX_ELEMENTS
    }

    ghost function State(): Registry
      requires Valid()
      reads this, reservedIds, secondPassNumericIds, legacyIds
    {
      Registry(reservedIds[..reservedCount], secondPassNumericIds[..secondPassNumericCount],
          legacyIds[..loadedLegacyCount], ids)
    }

    constructor ()
      ensures Valid() && State() == Registry([], [], [], [])
      ensures fresh(reservedIds) && fresh(secondPassNumericIds) && fresh(legacyIds)
    {
      reservedIds := new Word[MAX_ELEMENTS](_ => 0);
      secondPassNumericIds := new Word[MAX_ELEMENTS](_ => 0);
      legacyIds := new Entry[MAX_ELEMENTS](_ => Entry(0, 0));
      reservedCount, secondPassNumericCount, loadedLegacyCount, loadedElementCount, ids := 0, 0, 0, 0, [];
    }

    method Reset()
      requires Valid()
      modifies this
      ensures Valid() && State() == Registry([], [], [], [])
    {
      reservedCount, secondPassNumericCount, loadedLegacyCount, loadedElementCount, ids := 0, 0, 0, 0, [];
    }

    /** allocateId: 0 when there is none to be had. */
    method AllocateId() returns (id: Word)
      requires Valid()
      modifies `reservedCount, reservedIds
      ensures Valid() && State() == old(State()).(reserved := Allocate(old(State()).reserved).0)
      ensures id == Allocate(old(State()).reserved).1
    {
      hide SmallestFree;
      id := FindFree();
      if id == 0 || reservedCount >= MAX_ELEMENTS { return 0; }
      reservedIds[reservedCount] := id;
      reservedCount := reservedCount + 1;
      assert reservedIds[..reservedCount] == old(reservedIds[..reservedCount]) + [id];
    }

    /** The smallest candidate that is not reserved, or 0. */
    method FindFree() returns (id: Word)
      requires Valid()
      ensures id == SmallestFree(reservedIds[..reservedCount], 1)
    {
      ghost var was := reservedIds[..reservedCount];
      var candidate := 1;
      while candidate <= 65535
        invariant 1 <= candidate <= 65536 && SmallestFree(was, 1) == SmallestFree(was, candidate)
      {
        var taken := ContainsValue(reservedIds, reservedCount, candidate);
        if !taken { return candidate; }
        candidate := candidate + 1;
      }
      return 0;
    }

    /** Where a hash is remembered. */
    method FindLegacy(hash: bv64) returns (i: nat)
      requires Valid()
      ensures i <= loadedLegacyCount
      ensures Lookup(legacyIds[..loadedLegacyCount], hash) ==
                if i < loadedLegacyCount then Some(legacyIds[i].id) else None
    {
      i := 0;
      ghost var all := legacyIds[..loadedLegacyCount];
      assert all[0..] == all;
      while i < loadedLegacyCount
        invariant i <= loadedLegacyCount && Lookup(all, hash) == Lookup(all[i..], hash)
      {
        assert all[i..][0] == legacyIds[i] && all[i..][1..] == all[i + 1..];
        if legacyIds[i].hash == hash { return; }
        i := i + 1;
      }
    }

    method RememberLegacy(text: seq<bv8>, id: Word)
      requires Valid()
      modifies `loadedLegacyCount, legacyIds
      ensures Valid() && State() == old(State()).(legacy := Remember(old(State()).legacy, text, id))
    {
      hide Hash, Lookup;
      if text == [] || id == 0 || loadedLegacyCount >= MAX_ELEMENTS { return; }
      var hash := Hash(text);
      var i := FindLegacy(hash);
      if i < loadedLegacyCount { return; }
      legacyIds[loadedLegacyCount] := Entry(hash, id);
      loadedLegacyCount := loadedLegacyCount + 1;
    }

    /** assignedId, and the element counted; 0 when no id could be had. */
    method AssignedId(key: Key) returns (id: Word)
      requires Valid()
      modifies this, reservedIds, secondPassNumericIds, legacyIds
      ensures Valid()
      ensures match Assign(old(State()), key)
              case Some(r) => id != 0 && State() == r && r.ids == old(ids) + [id]
              case None => id == 0
    {
      hide Hash, Lookup, SmallestFree, Remember;
      if Asks(key) {
        var taken := ContainsValue(secondPassNumericIds, secondPassNumericCount, key.raw);
        if !taken {
          if secondPassNumericCount < MAX_ELEMENTS {
            secondPassNumericIds[secondPassNumericCount] := key.raw;
            secondPassNumericCount := secondPassNumericCount + 1;
          }
          Loaded(key.raw);
          return key.raw;
        }
      }
      id := AllocateId();
      if id == 0 { return; }
      if key.Text? { RememberLegacy(key.text, id); }
      Loaded(id);
    }

    method Loaded(id: Word)
      requires Valid()
      modifies `loadedElementCount, `ids
      ensures Valid() && State() == old(State()).(ids := old(ids) + [id])
    {
      loadedElementCount := loadedElementCount + 1;
      ids := ids + [id];
    }

    /** The first pass over all layers. */
    method ReserveNumbers(layers: seq<seq<Key>>) returns (ok: bool)
      requires Valid() && State() == Registry([], [], [], [])
      modifies `reservedCount, reservedIds
      ensures Valid() && ok == Pass1(Flat(layers), []).Some?
      ensures ok ==> State() == Registry(Pass1(Flat(layers), []).value, [], [], [])
    {
      hide Pass1;
      var l := 0;
      assert layers[0..] == layers;
      while l < |layers|
        invariant l <= |layers| && Valid() && State() == Registry(State().reserved, [], [], [])
        invariant Pass1(Flat(layers), []) == Pass1(Flat(layers[l..]), State().reserved)
      {
        ghost var rest := Flat(layers[l + 1..]);
        assert layers[l..][1..] == layers[l + 1..] && Flat(layers[l..]) == layers[l] + rest;
        var e := 0;
        assert layers[l][0..] == layers[l];
        while e < |layers[l]|
          invariant e <= |layers[l]| && Valid() && State() == Registry(State().reserved, [], [], [])
          invariant Pass1(Flat(layers), []) == Pass1(layers[l][e..] + rest, State().reserved)
        {
          ghost var was := State().reserved;
          var key := layers[l][e];
          Pass1Step(layers[l][e..] + rest, State().reserved);
          assert (layers[l][e..] + rest)[1..] == layers[l][e + 1..] + rest;
          if Asks(key) {
            var found := ContainsValue(reservedIds, reservedCount, key.raw);
            if !found {
              if reservedCount >= MAX_ELEMENTS { return false; }
              reservedIds[reservedCount] := key.raw;
              reservedCount := reservedCount + 1;
              assert State().reserved == was + [key.raw];
            }
          }
          e := e + 1;
        }
        assert layers[l][e..] + rest == rest;
        l := l + 1;
      }
      assert Flat(layers[l..]) == [];
      NoneLeft(State().reserved);
      return true;
    }

    /** The second pass over all layers. */
    method AssignIds(layers: seq<seq<Key>>) returns (ok: bool)
      requires Valid()
      modifies this, reservedIds, secondPassNumericIds, legacyIds
      ensures Valid() && ok == Pass2(Flat(layers), old(State())).Some?
      ensures ok ==> State() == Pass2(Flat(layers), old(State())).value
    {
      hide Pass2, Assign;
      var l := 0;
      assert layers[0..] == layers;
      while l < |layers|
        invariant l <= |layers| && Valid()
        invariant Pass2(Flat(layers), old(State())) == Pass2(Flat(layers[l..]), State())
      {
        ghost var rest := Flat(layers[l + 1..]);
        assert layers[l..][1..] == layers[l + 1..] && Flat(layers[l..]) == layers[l] + rest;
        var e := 0;
        assert layers[l][0..] == layers[l];
        while e < |layers[l]|
          invariant e <= |layers[l]| && Valid()
          invariant Pass2(Flat(layers), old(State())) == Pass2(layers[l][e..] + rest, State())
        {
          Pass2Step(layers[l][e..] + rest, State());
          assert (layers[l][e..] + rest)[1..] == layers[l][e + 1..] + rest;
          if loadedElementCount >= MAX_ELEMENTS { return false; }
          var id := AssignedId(layers[l][e]);
          if id == 0 { return false; }
          e := e + 1;
        }
        assert layers[l][e..] + rest == rest;
        l := l + 1;
      }
      assert Flat(layers[l..]) == [];
      NoneLeftToAssign(State());
      return true;
    }

    /** reload, for a layout that could be read. */
    method ReloadLayout(layers: seq<seq<Key>>) returns (ok: bool)
      requires Valid()
      modifies this, reservedIds, secondPassNumericIds, legacyIds
      ensures Valid() && ok == Reload(Flat(layers)).Some?
      ensures State() == if ok then Reload(Flat(layers)).value else Registry([], [], [], [])
    {
      hide Pass1, Pass2, Flat;
      Reset();
      ok := ReserveNumbers(layers);
      if !ok {
        Reset();
        return;
      }
      ok := AssignIds(layers);
      if !ok { Reset(); }
    }

    method ResolveLegacyId(text: seq<bv8>) returns (id: Option<Word>)
      requires Valid()
      ensures id == Resolve(State(), text)
    {
      hide Hash, Lookup;
      if text == [] { return None; }
      var i := FindLegacy(Hash(text));
      if i < loadedLegacyCount { return Some(legacyIds[i].id); }
      return None;
    }
  }

  lemma Pass1Step(keys: seq<Key>, reserved: seq<Word>)
    requires keys != []
    ensures Pass1(keys, reserved) ==
            if !Asks(keys[0]) || keys[0].raw in reserved then Pass1(keys[1..], reserved)
            else if |reserved| >= MAX_ELEMENTS then None
            else Pass1(keys[1..], reserved + [keys[0].raw])
  {
  }

  lemma NoneLeft(reserved: seq<Word>)
    ensures Pass1([], reserved) == Some(reserved)
  {
  }

  lemma Pass2Step(keys: seq<Key>, r: Registry)
    requires keys != []
    ensures Pass2(keys, r) ==
            if |r.ids| >= MAX_ELEMENTS then None
            else match Assign(r, keys[0]) case None => None case Some(r') => Pass2(keys[1..], r')
  {
    hide Assign;
  }

  lemma NoneLeftToAssign(r: Registry)
    ensures Pass2([], r) == Some(r)
  {
  }
}

/**
 Numeric ids for the elements of a layout, in two passes: the first reserves what the file asks
 for, the second gives every element its id.
 */
module LayoutIds {
  import opened Basics

  const MAX_ELEMENTS := 384

  /** An element's id as the file has it. */
  datatype Key = Number(raw: int) | Text(text: seq<bv8>) | Other

  predicate Asks(k: Key) {
    k.Number? && 1 <= k.raw <= 65535
  }

  /** 64-bit FNV-1a. */
  function Hash(text: seq<bv8>): bv64 {
    if text == [] then 1469598103934665603
    else (Hash(text[..|text| - 1]) ^ (text[|text| - 1] as bv64)) * 1099511628211
  }

  datatype Entry = Entry(hash: bv64, id: Word)

  /** reservedIds, secondPassNumericIds, legacyIds, and the ids given so far. */
  datatype Registry = Registry(reserved: seq<Word>, second: seq<Word>, legacy: seq<Entry>, ids: seq<Word>)

  /** The numbers asked for, each once, in the order of the file. */
  function Collect(keys: seq<Key>, known: seq<Word>): seq<Word>
    decreases |keys|
  {
    if keys == [] then known
    else if Asks(keys[0]) && keys[0].raw !in known then Collect(keys[1..], known + [keys[0].raw])
    else Collect(keys[1..], known)
  }

  /** Pass 1. */
  function Pass1(keys: seq<Key>, reserved: seq<Word>): Option<seq<Word>>
    decreases |keys|
  {
    if keys == [] then Some(reserved)
    else if !Asks(keys[0]) || keys[0].raw in reserved then Pass1(keys[1..], reserved)
    else if |reserved| >= MAX_ELEMENTS then None
    else Pass1(keys[1..], reserved + [keys[0].raw])
  }

  /** The smallest number from a candidate on that is not reserved; 0 when there is none. */
  function SmallestFree(reserved: seq<Word>, from: nat): (id: Word)
    requires from >= 1
    ensures id != 0 ==> id >= from && id !in reserved && forall c :: from <= c < id ==> c in reserved
    ensures id == 0 ==> forall c :: from <= c <= 65535 ==> c in reserved
    decreases 65536 - from
  {
    if from > 65535 then 0 else if from in reserved then SmallestFree(reserved, from + 1) else from
  }

  /** allocateId */
  function Allocate(reserved: seq<Word>): (seq<Word>, Word) {
    var id := SmallestFree(reserved, 1);
    if id == 0 || |reserved| >= MAX_ELEMENTS then (reserved, 0) else (reserved + [id], id)
  }

  function Lookup(legacy: seq<Entry>, hash: bv64): Option<Word> {
    if legacy == [] then None else if legacy[0].hash == hash then Some(legacy[0].id) else Lookup(legacy[1..], hash)
  }

  /** rememberLegacy: the first owner of a text keeps it. */
  function Remember(legacy: seq<Entry>, text: seq<bv8>, id: Word): seq<Entry> {
    if text == [] || id == 0 || |legacy| >= MAX_ELEMENTS || Lookup(legacy, Hash(text)).Some? then legacy
    else legacy + [Entry(Hash(text), id)]
  }

  /** assignedId; None when no id could be had. */
  function Assign(r: Registry, k: Key): Option<Registry> {
    if Asks(k) && k.raw !in r.second then
      Some(r.(second := if |r.second| < MAX_ELEMENTS then r.second + [k.raw] else r.second, ids := r.ids + [k.raw]))
    else
      var (reserved, id) := Allocate(r.reserved);
      if id == 0 then None
      else
        Some(r.(reserved := reserved, ids := r.ids + [id],
                legacy := if k.Text? then Remember(r.legacy, k.text, id) else r.legacy))
  }

  /** Pass 2. */
  function Pass2(keys: seq<Key>, r: Registry): Option<Registry>
    decreases |keys|
  {
    if keys == [] then Some(r)
    else if |r.ids| >= MAX_ELEMENTS then None
    else
      match Assign(r, keys[0])
      case None => None
      case Some(r') => Pass2(keys[1..], r')
  }

  /** reload, for a file whose layers hold these elements, in order. */
  function Reload(keys: seq<Key>): Option<Registry> {
    match Pass1(keys, [])
    case None => None
    case Some(reserved) => Pass2(keys, Registry(reserved, [], [], []))
  }

  /** resolveLegacyId */
  function Resolve(r: Registry, text: seq<bv8>): Option<Word> {
    if text == [] then None else Lookup(r.legacy, Hash(text))
  }

  // ---------------------------------------------------------------- the first pass

  lemma {:induction false} CollectHas(keys: seq<Key>, known: seq<Word>, x: Word)
    ensures x in Collect(keys, known) <==>
              x in known || exists j :: 0 <= j < |keys| && Asks(keys[j]) && keys[j].raw == x
    decreases |keys|
  {
    if keys != [] {
      CollectHas(keys[1..], if Asks(keys[0]) && keys[0].raw !in known then known + [keys[0].raw] else known, x);
      assert forall j :: 0 <= j < |keys[1..]| ==> keys[1..][j] == keys[j + 1];
      if exists j :: 0 <= j < |keys| && Asks(keys[j]) && keys[j].raw == x {
        var j :| 0 <= j < |keys| && Asks(keys[j]) && keys[j].raw == x;
        if j > 0 { assert keys[1..][j - 1] == keys[j]; }
      }
    }
  }

  lemma {:induction false} CollectSize(keys: seq<Key>, known: seq<Word>)
    ensures |known| <= |Collect(keys, known)| <= |known| + |keys|
    decreases |keys|
  {
    if keys != [] {
      CollectSize(keys[1..], if Asks(keys[0]) && keys[0].raw !in known then known + [keys[0].raw] else known);
    }
  }

  lemma {:induction false} CollectSplit(a: seq<Key>, b: seq<Key>, known: seq<Word>)
    ensures Collect(a + b, known) == Collect(b, Collect(a, known))
    decreases |a|
  {
    if a == [] {
      assert a + b == b;
    } else {
      assert (a + b)[1..] == a[1..] + b;
      CollectSplit(a[1..], b, if Asks(a[0]) && a[0].raw !in known then known + [a[0].raw] else known);
    }
  }

  /** The first pass collects the numbers asked for, and fails only for lack of room. */
  lemma {:induction false} Pass1Collects(keys: seq<Key>, reserved: seq<Word>)
    requires |reserved| <= MAX_ELEMENTS
    ensures Pass1(keys, reserved) ==
            if |Collect(keys, reserved)| <= MAX_ELEMENTS then Some(Collect(keys, reserved)) else None
    decreases |keys|
  {
    if keys != [] {
      if !Asks(keys[0]) || keys[0].raw in reserved {
        Pass1Collects(keys[1..], reserved);
      } else if |reserved| >= MAX_ELEMENTS {
        CollectSize(keys[1..], reserved + [keys[0].raw]);
      } else {
        Pass1Collects(keys[1..], reserved + [keys[0].raw]);
      }
    }
  }

  // ---------------------------------------------------------------- the second pass

  /** The first element to ask for its number. */
  predicate IsFirst(keys: seq<Key>, i: nat)
    requires i < |keys|
  {
    Asks(keys[i]) && forall j :: 0 <= j < i ==> !(Asks(keys[j]) && keys[j].raw == keys[i].raw)
  }

  /** Asked for by some element, or given to one of the first i. */
  predicate Used(keys: seq<Key>, ids: seq<Word>, i: nat, x: int)
    requires i <= |ids|
  {
    (exists j :: 0 <= j < |keys| && Asks(keys[j]) && keys[j].raw == x) || x in ids[..i]
  }

  /** What element i is to be given: its number if it is the first to ask for it, else the smallest
      that no element asks for and none before it was given. */
  predicate Given(keys: seq<Key>, ids: seq<Word>, i: nat)
    requires i < |keys| && i < |ids|
  {
    if IsFirst(keys, i) then ids[i] == keys[i].raw
    else 1 <= ids[i] && !Used(keys, ids, i, ids[i]) && forall c :: 1 <= c < ids[i] ==> Used(keys, ids, i, c)
  }

  /** The first of the first i elements whose text has this hash. */
  function FirstText(keys: seq<Key>, hash: bv64, i: nat): (r: Option<nat>)
    requires i <= |keys|
    ensures r.Some? ==>
              r.value < i && keys[r.value].Text? && keys[r.value].text != [] && Hash(keys[r.value].text) == hash
    ensures forall j :: 0 <= j < (if r.Some? then r.value else i) ==>
              !(keys[j].Text? && keys[j].text != [] && Hash(keys[j].text) == hash)
  {
    if i == 0 then None
    else
      var before := FirstText(keys, hash, i - 1);
      if before.Some? then before
      else if keys[i - 1].Text? && keys[i - 1].text != [] && Hash(keys[i - 1].text) == hash then Some(i - 1)
      else None
  }

  ghost predicate Legacies(keys: seq<Key>, r: Registry)
    requires |r.ids| <= |keys|
  {
    && |r.legacy| <= |r.ids|
    && forall h: bv64 :: Lookup(r.legacy, h) ==
         (match FirstText(keys, h, |r.ids|) case Some(j) => Some(r.ids[j]) case None => None)
  }

  /** After the first |ids| elements. */
  ghost predicate Halfway(keys: seq<Key>, r: Registry) {
    var i, all := |r.ids|, Collect(keys, []);
    && i <= |keys|
    && r.second == Collect(keys[..i], [])
    && (forall x: int :: x in r.reserved <==> x in all || x in r.ids)
    && |r.reserved| + |r.second| == |all| + i
    && (forall j :: 0 <= j < i ==> Given(keys, r.ids, j))
    && Legacies(keys, r)
  }

  lemma SplitAt(keys: seq<Key>, i: nat)
    requires i < |keys|
    ensures keys[..i + 1] == keys[..i] + [keys[i]] && keys[..i] + keys[i..] == keys && keys[i..][1..] == keys[i + 1..]
  {
  }

  lemma CollectOne(k: Key, known: seq<Word>)
    ensures Collect([k], known) == if Asks(k) && k.raw !in known then known + [k.raw] else known
  {
    assert [k][1..] == [];
  }

  /** A number is new to the second pass exactly when its element is the first to ask for it. */
  lemma NewIsFirst(keys: seq<Key>, i: nat)
    requires i < |keys| && Asks(keys[i])
    ensures keys[i].raw !in Collect(keys[..i], []) <==> IsFirst(keys, i)
  {
    hide Collect;
    CollectHas(keys[..i], [], keys[i].raw);
    assert forall j :: 0 <= j < i ==> keys[..i][j] == keys[j];
  }

  /** There is always room: with at most 384 elements, what is reserved and what is still to come. */
  lemma RoomLeft(keys: seq<Key>, r: Registry)
    requires Halfway(keys, r) && |r.ids| < |keys| <= MAX_ELEMENTS
    requires var k := keys[|r.ids|]; !(Asks(k) && k.raw !in r.second)
    ensures |r.reserved| < MAX_ELEMENTS && |r.second| <= |r.ids|
  {
    hide Legacies, Given;
    var i := |r.ids|;
    SplitAt(keys, i);
    CollectSplit(keys[..i], keys[i..], []);
    assert Collect(keys[i..], r.second) == Collect(keys[i + 1..], r.second);
    CollectSize(keys[i + 1..], r.second);
    CollectSize(keys[..i], []);
  }

  lemma SecondRoom(keys: seq<Key>, r: Registry)
    requires Halfway(keys, r)
    ensures |r.second| <= |r.ids|
  {
    hide Legacies, Given;
    CollectSize(keys[..|r.ids|], []);
  }

  /** Something is always free. */
  lemma FreeOne(reserved: seq<Word>)
    requires |reserved| < MAX_ELEMENTS
    ensures SmallestFree(reserved, 1) != 0
  {
    var x := Pigeonhole(reserved + [0], 65536);
    assert x != 0 by { assert (reserved + [0])[|reserved|] == 0; }
  }

  /** The ids given before do not change what was right about them. */
  lemma GivenStays(keys: seq<Key>, ids: seq<Word>, id: Word, j: nat)
    requires j < |ids| < |keys| && Given(keys, ids, j)
    ensures Given(keys, ids + [id], j)
  {
    assert (ids + [id])[..j] == ids[..j];
    assert forall x: int :: Used(keys, ids + [id], j, x) == Used(keys, ids, j, x);
  }

  /** An element that is the first to ask for its number. */
  lemma AssignsNumber(keys: seq<Key>, r: Registry)
    requires Halfway(keys, r) && |r.ids| < |keys| <= MAX_ELEMENTS
    requires var k := keys[|r.ids|]; Asks(k) && k.raw !in r.second
    ensures var r' := Assign(r, keys[|r.ids|]); r'.Some? && Halfway(keys, r'.value) && |r'.value.ids| == |r.ids| + 1
  {
    hide Given, FirstText, Hash, Lookup, IsFirst;
    var i := |r.ids|;
    var r' := Assign(r, keys[i]).value;
    SplitAt(keys, i);
    SecondRoom(keys, r);
    CollectSplit(keys[..i], [keys[i]], []);
    CollectOne(keys[i], r.second);
    CollectHas(keys, [], keys[i].raw);
    NewIsFirst(keys, i);
    forall j | 0 <= j <= i ensures Given(keys, r'.ids, j) {
      if j < i { GivenStays(keys, r.ids, keys[i].raw, j); } else { FirstIsGiven(keys, r'.ids, i); }
    }
    LegaciesStay(keys, r, r');
  }

  lemma FirstIsGiven(keys: seq<Key>, ids: seq<Word>, i: nat)
    requires i < |keys| && i < |ids| && IsFirst(keys, i) && ids[i] == keys[i].raw
    ensures Given(keys, ids, i)
  {
  }

  lemma LegaciesStay(keys: seq<Key>, r: Registry, r': Registry)
    requires |r.ids| < |keys| && Legacies(keys, r) && !keys[|r.ids|].Text?
    requires |r'.ids| == |r.ids| + 1 && r'.ids[..|r.ids|] == r.ids && r'.legacy == r.legacy
    ensures Legacies(keys, r')
  {
    hide Hash, Lookup;
    forall h: bv64
      ensures Lookup(r'.legacy, h) ==
              (match FirstText(keys, h, |r'.ids|) case Some(j) => Some(r'.ids[j]) case None => None)
    {
      assert FirstText(keys, h, |r'.ids|) == FirstText(keys, h, |r.ids|);
    }
  }

  /** Any other element. */
  lemma AssignsFree(keys: seq<Key>, r: Registry)
    requires Halfway(keys, r) && |r.ids| < |keys| <= MAX_ELEMENTS
    requires var k := keys[|r.ids|]; !(Asks(k) && k.raw !in r.second)
    ensures var r' := Assign(r, keys[|r.ids|]); r'.Some? && Halfway(keys, r'.value) && |r'.value.ids| == |r.ids| + 1
  {
    hide Given, FirstText, Hash, Lookup, IsFirst, Remember, SmallestFree;
    var i := |r.ids|;
    RoomLeft(keys, r);
    FreeOne(r.reserved);
    var id := SmallestFree(r.reserved, 1);
    var r' := Assign(r, keys[i]).value;
    SplitAt(keys, i);
    CollectSplit(keys[..i], [keys[i]], []);
    CollectOne(keys[i], r.second);
    forall j | 0 <= j <= i ensures Given(keys, r'.ids, j) {
      if j < i { GivenStays(keys, r.ids, id, j); } else { FreeIsGiven(keys, r, r', id); }
    }
    LegaciesGrow(keys, r, r', id);
  }

  lemma FreeIsGiven(keys: seq<Key>, r: Registry, r': Registry, id: Word)
    requires Halfway(keys, r) && |r.ids| < |keys| && r'.ids == r.ids + [id]
    requires var k := keys[|r.ids|]; !(Asks(k) && k.raw !in r.second)
    requires id == SmallestFree(r.reserved, 1) && id != 0
    ensures Given(keys, r'.ids, |r.ids|)
  {
    hide FirstText, Hash, Lookup, Legacies, Collect, Given;
    var i := |r.ids|;
    if Asks(keys[i]) { NewIsFirst(keys, i); }
    forall x: int | 1 <= x <= 65535 ensures Used(keys, r'.ids, i, x) <==> x in r.reserved {
      CollectHas(keys, [], x);
      assert r'.ids[..i] == r.ids;
    }
    NotFirstGiven(keys, r'.ids, i);
  }

  lemma NotFirstGiven(keys: seq<Key>, ids: seq<Word>, i: nat)
    requires i < |keys| && i < |ids| && !IsFirst(keys, i)
    requires 1 <= ids[i] && !Used(keys, ids, i, ids[i]) && forall c :: 1 <= c < ids[i] ==> Used(keys, ids, i, c)
    ensures Given(keys, ids, i)
  {
  }

  lemma {:induction false} LookupMore(legacy: seq<Entry>, e: Entry, h: bv64)
    ensures Lookup(legacy + [e], h) ==
              if Lookup(legacy, h).Some? then Lookup(legacy, h) else if e.hash == h then Some(e.id) else None
  {
    if legacy == [] {
      assert legacy + [e] == [e] && [e][1..] == [];
    } else {
      assert (legacy + [e])[1..] == legacy[1..] + [e];
      LookupMore(legacy[1..], e, h);
    }
  }

  lemma LegaciesGrow(keys: seq<Key>, r: Registry, r': Registry, id: Word)
    requires |r.ids| < |keys| <= MAX_ELEMENTS && Legacies(keys, r) && id != 0 && r'.ids == r.ids + [id]
    requires var k := keys[|r.ids|]; r'.legacy == if k.Text? then Remember(r.legacy, k.text, id) else r.legacy
    ensures Legacies(keys, r')
  {
    hide Hash, Lookup;
    var k := keys[|r.ids|];
    if k.Text? {
      forall h: bv64
        ensures Lookup(r'.legacy, h) ==
                (match FirstText(keys, h, |r'.ids|) case Some(j) => Some(r'.ids[j]) case None => None)
      {
        LookupMore(r.legacy, Entry(Hash(k.text), id), h);
      }
    } else {
      LegaciesStay(keys, r, r');
    }
  }

  lemma {:induction false} Pass2Gives(keys: seq<Key>, r: Registry)
    requires Halfway(keys, r) && |keys| <= MAX_ELEMENTS
    ensures var r' := Pass2(keys[|r.ids|..], r);
            r'.Some? && Halfway(keys, r'.value) && |r'.value.ids| == |keys|
    decreases |keys| - |r.ids|
  {
    hide Halfway, Assign;
    HalfwayFits(keys, r);
    var i := |r.ids|;
    if i < |keys| {
      SplitAt(keys, i);
      if Asks(keys[i]) && keys[i].raw !in r.second { AssignsNumber(keys, r); } else { AssignsFree(keys, r); }
      Pass2Gives(keys, Assign(r, keys[i]).value);
    }
  }

  lemma HalfwayFits(keys: seq<Key>, r: Registry)
    requires Halfway(keys, r)
    ensures |r.ids| <= |keys|
  {
  }

  lemma StartsHalfway(keys: seq<Key>)
    ensures Halfway(keys, Registry(Collect(keys, []), [], [], []))
  {
    assert keys[..0] == [];
  }

  lemma {:induction false} Pass2Counts(keys: seq<Key>, r: Registry)
    requires |r.ids| <= MAX_ELEMENTS
    ensures var r' := Pass2(keys, r); r'.Some? ==> |r'.value.ids| == |r.ids| + |keys| <= MAX_ELEMENTS
    decreases |keys|
  {
    hide Allocate, Remember;
    if keys != [] && |r.ids| < MAX_ELEMENTS {
      match Assign(r, keys[0]) {
        case Some(r') => Pass2Counts(keys[1..], r');
        case None =>
      }
    }
  }

  // ---------------------------------------------------------------- what reload promises

  /** reload succeeds exactly for layouts of at most 384 elements, and then every element has what it
      is to be given. */
  lemma ReloadGives(keys: seq<Key>)
    ensures Reload(keys).Some? <==> |keys| <= 384
    ensures Reload(keys).Some? ==>
              var r := Reload(keys).value;
              |r.ids| == |keys| && (forall i :: 0 <= i < |keys| ==> Given(keys, r.ids, i)) && Legacies(keys, r)
  {
    hide Pass1, Pass2, Collect, Given, Legacies;
    Pass1Collects(keys, []);
    CollectSize(keys, []);
    var r := Registry(Collect(keys, []), [], [], []);
    Pass2Counts(keys, r);
    if |keys| <= MAX_ELEMENTS {
      StartsHalfway(keys);
      Pass2Gives(keys, r);
      assert keys[0..] == keys;
    }
  }

  /** All ids are distinct and in range; the first to ask for a number from 1 to 65535 has it. */
  lemma IdsAreDistinct(keys: seq<Key>)
    requires Reload(keys).Some?
    ensures var ids := Reload(keys).value.ids;
            && |ids| == |keys|
            && (forall i :: 0 <= i < |ids| ==> 1 <= ids[i] <= 65535)
            && (forall i :: 0 <= i < |ids| && keys[i].Number? && 1 <= keys[i].raw <= 65535 && keys[i] !in keys[..i] ==>
                  ids[i] == keys[i].raw)
            && (forall i, j :: 0 <= i < j < |ids| ==> ids[i] != ids[j])
  {
    hide Reload, Legacies;
    ReloadGives(keys);
    var ids := Reload(keys).value.ids;
    forall i | 0 <= i < |ids| ensures 1 <= ids[i] <= 65535 {
      assert Given(keys, ids, i);
    }
    forall i | 0 <= i < |ids| && keys[i].Number? && 1 <= keys[i].raw <= 65535 && keys[i] !in keys[..i]
      ensures ids[i] == keys[i].raw
    {
      NumberIsFirst(keys, i);
      assert Given(keys, ids, i);
    }
    forall i, j | 0 <= i < j < |ids| ensures ids[i] != ids[j] {
      GivenApart(keys, ids, i, j);
    }
  }

  lemma NumberIsFirst(keys: seq<Key>, i: nat)
    requires i < |keys| && keys[i].Number? && 1 <= keys[i].raw <= 65535 && keys[i] !in keys[..i]
    ensures IsFirst(keys, i)
  {
    forall j | 0 <= j < i ensures !(Asks(keys[j]) && keys[j].raw == keys[i].raw) {
      assert keys[j] in keys[..i];
    }
  }

  lemma GivenApart(keys: seq<Key>, ids: seq<Word>, i: nat, j: nat)
    requires i < j < |keys| == |ids| && Given(keys, ids, i) && Given(keys, ids, j)
    ensures ids[i] != ids[j]
  {
    if IsFirst(keys, j) {
      if !IsFirst(keys, i) { assert Asks(keys[j]) && !Used(keys, ids, i, ids[i]); }
    } else {
      assert ids[..j][i] == ids[i];
    }
  }

  /** A legacy text resolves to the id of the first element whose text has its hash; so it resolves
      to its own first owner exactly when no text before that owner's shares the hash. */
  lemma LegacyResolves(keys: seq<Key>, text: seq<bv8>, owner: nat)
    requires Reload(keys).Some? && text != [] && owner < |keys| && keys[owner] == Text(text)
    requires forall j :: 0 <= j < owner ==> keys[j] != Text(text)
    ensures var r := Reload(keys).value;
            |r.ids| == |keys| &&
            (Resolve(r, text) == Some(r.ids[owner]) <==>
               forall j :: 0 <= j < owner && keys[j].Text? && keys[j].text != [] ==> Hash(keys[j].text) != Hash(text))
  {
    hide Reload, Hash, Lookup, Given;
    ReloadGives(keys);
    IdsAreDistinct(keys);
    var r := Reload(keys).value;
    var first := FirstText(keys, Hash(text), |keys|);
    assert Lookup(r.legacy, Hash(text)) == match first case Some(j) => Some(r.ids[j]) case None => None;
    assert first.Some? && first.value <= owner;
  }

  /** And a text whose hash no element's text has resolves to nothing. */
  lemma UnknownTextResolvesToNothing(keys: seq<Key>, text: seq<bv8>)
    requires Reload(keys).Some?
    ensures Resolve(Reload(keys).value, text) == None <==>
              text == [] || forall j :: 0 <= j < |keys| && keys[j].Text? && keys[j].text != [] ==>
                    Hash(keys[j].text) != Hash(text)
  {
    hide Reload, Hash, Lookup, Given;
    ReloadGives(keys);
  }
}

/**
 The loco table in place: slots found, made, forgotten and recycled, and consists built through
 them and taken apart.
 */
module LocoTable {
  import opened Basics
  import opened LocoSlots
  import opened Reminders

  predicate InRange(id: int) {
    1 <= id <= 10239
  }

  /** The chain a slot had, or the one a new slot starts with. */
  ghost function WasHome(slots: seq<LocoSlot>, home: map<LocoSlot, seq<LocoSlot>>, s: LocoSlot): seq<LocoSlot> {
    if s in slots && s in home then home[s] else [s]
  }

  /** A speed packet for a loco. */
  datatype Told = Told(loco: Word, code: bv8)

  function SpeedCode(tSpeed: bv8, forward: bool): bv8 {
    (tSpeed & 0x7F) | if forward then 0x80 else 0
  }

  /** An emergency stop, the way it was going. */
  function Halted(code: bv8): bv8 {
    (code & 0x80) | 0x01
  }

  /** So a consist that had one direction stops in it, reversed locos the other way round. */
  lemma HaltedFollows(code: bv8)
    ensures Halted(code ^ 0x80) == Halted(code) ^ 0x80
  {
  }

  lemma SameSpeed(code: bv8)
    ensures code ^ 0 == code
  {
  }

  /** setThrottleDCC: turned round for a reversed loco, and an emergency stop while estop is locked. */
  function Tell(s: LocoSlot, code: bv8, locked: bool): Told
    reads s`loco, s`consistReverse
  {
    var turned := if s.consistReverse then code ^ 0x80 else code;
    Told(s.loco, if locked then (turned & 0x80) | 0x01 else turned)
  }

  ghost function TellAll(c: seq<LocoSlot>, code: bv8, locked: bool): (r: seq<Told>)
    reads SlotsOf(c)`loco, SlotsOf(c)`consistReverse
    ensures |r| == |c| && forall k :: 0 <= k < |c| ==> r[k] == Tell(c[k], code, locked)
  {
    if c == [] then [] else
      assert forall x :: x in SlotsOf(c[1..]) ==> x in c;
      [Tell(c[0], code, locked)] + TellAll(c[1..], code, locked)
  }

  /** Everybody heads for the lead's speed, the reversed followers the other way. */
  ghost predicate Follows(c: seq<LocoSlot>, code: bv8)
    reads SlotsOf(c)`targetSpeed, SlotsOf(c)`consistReverse
  {
    forall k :: 0 <= k < |c| ==> c[k].targetSpeed == if k > 0 && c[k].consistReverse then code ^ 0x80 else code
  }

  /** A speed code for this speed and direction: the low seven bits are the speed, the top one says
      forward. */
  predicate Shows(code: bv8, tSpeed: bv8, forward: bool) {
    code & 0x7F == tSpeed & 0x7F && (code & 0x80 != 0 <==> forward)
  }

  lemma CodeShows(code: bv8, tSpeed: bv8, forward: bool)
    ensures Shows(code, tSpeed, forward) <==> code == SpeedCode(tSpeed, forward)
  {
  }

  lemma TurnedShows(code: bv8, tSpeed: bv8, forward: bool)
    requires Shows(code, tSpeed, forward)
    ensures Shows(code ^ 0x80, tSpeed, !forward)
    ensures Shows(Halted(code), 1, forward) && Shows(Halted(code ^ 0x80), 1, !forward)
  {
  }

  lemma HaltedShows()
    ensures forall code :: Shows(Halted(code), 1, code & 0x80 != 0)
  {
  }

  /** Everybody heads for this speed, the reversed followers the other way. */
  ghost predicate HeadsFor(c: seq<LocoSlot>, tSpeed: bv8, forward: bool)
    reads SlotsOf(c)`targetSpeed, SlotsOf(c)`consistReverse
  {
    forall k :: 0 <= k < |c| ==> Shows(c[k].targetSpeed, tSpeed, forward != (k > 0 && c[k].consistReverse))
  }

  /** Everybody is told this speed, those that are reversed the other way. */
  ghost predicate AllTold(sent: seq<Told>, c: seq<LocoSlot>, tSpeed: bv8, forward: bool)
    reads SlotsOf(c)`loco, SlotsOf(c)`consistReverse
  {
    |sent| == |c| && forall k :: 0 <= k < |c| ==>
      sent[k].loco == c[k].loco && Shows(sent[k].code, tSpeed, forward != c[k].consistReverse)
  }

  /** A stop, told to a loco that may be reversed. */
  lemma StopShows(s: LocoSlot, locked: bool)
    ensures Tell(s, 1, locked).loco == s.loco && Shows(Tell(s, 1, locked).code, 1, s.consistReverse)
  {
  }

  lemma FollowsShow(c: seq<LocoSlot>, code: bv8, tSpeed: bv8, forward: bool)
    requires Follows(c, code) && Shows(code, tSpeed, forward)
    ensures HeadsFor(c, tSpeed, forward)
  {
    hide Shows;
    TurnedShows(code, tSpeed, forward);
  }

  lemma TellsShow(c: seq<LocoSlot>, code: bv8, locked: bool, tSpeed: bv8, forward: bool)
    requires Shows(code, tSpeed, forward)
    ensures AllTold(TellAll(c, code, locked), c, if locked then 1 else tSpeed, forward)
  {
    hide Shows;
    TurnedShows(code, tSpeed, forward);
  }

  lemma RowCount(slots: seq<LocoSlot>, table: seq<Row>)
    requires RowsAre(slots, table)
    ensures |table| == |slots|
  {
  }

  lemma RowAt(slots: seq<LocoSlot>, table: seq<Row>, i: nat)
    requires RowsAre(slots, table) && i < |slots|
    ensures i < |table| && table[i] == Row(slots[i].consistLead != null, slots[i].groups)
  {
  }

  lemma DueStep(table: seq<Row>, status: nat, i: nat)
    requires status < 10 && i <= |table|
    ensures FirstDue(table, status, i) ==
            if i == |table| || Due(table[i], status) then i else FirstDue(table, status, i + 1)
  {
  }

  lemma LinkedAt(head: LocoSlot?, s: seq<LocoSlot>, i: nat)
    requires Linked(head, s) && i < |s|
    ensures s[i].next == At(s, i + 1)
  {
  }

  lemma AtIs(s: seq<LocoSlot>, i: nat)
    ensures At(s, i) == if i < |s| then s[i] else null
  {
  }

  /** The table as reminders see it. */
  ghost predicate RowsAre(slots: seq<LocoSlot>, table: seq<Row>)
    reads slots`consistLead, slots`groups
  {
    |table| == |slots| && forall i :: 0 <= i < |slots| ==>
          table[i] == Row(slots[i].consistLead != null, slots[i].groups)
  }

  /** The positions of a chain of slots from here to its end. */
  ghost predicate Rest(s: seq<LocoSlot>, i: nat, p: LocoSlot?) {
    i <= |s| && p == At(s, i)
  }

  // ---------------------------------------------------------------- room in the table

  ghost function Ids(slots: seq<LocoSlot>): set<int>
    reads slots`loco
  {
    set s | s in slots :: s.loco as int
  }

  /** How many of the first n locos of a list have no slot. */
  function Missing(ids: set<int>, p: seq<int>, n: nat): nat
    requires n <= |p|
  {
    if n == 0 then 0 else Missing(ids, p, n - 1) + if Abs(p[n - 1]) in ids then 0 else 1
  }

  /** A list too long for the table: slots in use, and locos that need one. */
  predicate TooMany(ids: set<int>, used: nat, p: seq<int>, max: nat) {
    used + Missing(ids, p, |p|) > max
  }

  lemma {:induction false} MissingGrows(ids: set<int>, p: seq<int>, i: nat, n: nat)
    requires i <= n <= |p|
    ensures Missing(ids, p, i) <= Missing(ids, p, n)
    decreases n
  {
    if i < n { MissingGrows(ids, p, i, n - 1); }
  }

  /** Asking for a slot with getSlot: there is none to be had exactly when the loco has none and the
      table is full; else it has one, and takes room only if it had none. */
  predicate Took(ids: set<int>, used: nat, id: int, got: bool, ids': set<int>, used': nat, max: nat) {
    && (!got <==> id !in ids && used >= max)
    && used' == used + (if got && id !in ids then 1 else 0) && ids' == ids + if got then {id} else {}
  }

  /** The locos asked for so far, when all of them got their slots. */
  predicate TookAll(ids: set<int>, used: nat, p: seq<int>, n: nat, ids': set<int>, used': nat)
    requires n <= |p|
  {
    used' == used + Missing(ids, p, n) && (forall x :: x in ids ==> x in ids')
    && (forall k :: 0 <= k < n ==> Abs(p[k]) in ids')
    && forall x :: x in ids' ==> x in ids || exists k :: 0 <= k < n && x == Abs(p[k])
  }

  lemma TookNone(ids: set<int>, used: nat, p: seq<int>)
    ensures TookAll(ids, used, p, 0, ids, used)
  {
  }

  lemma TookNext(ids: set<int>, used: nat, p: seq<int>, i: nat, ids1: set<int>, used1: nat, got: bool, ids2: set<int>,
                 used2: nat, max: nat)
    requires IdsOk(p) && i < |p| && TookAll(ids, used, p, i, ids1, used1)
    requires Took(ids1, used1, Abs(p[i]), got, ids2, used2, max)
    ensures got ==> TookAll(ids, used, p, i + 1, ids2, used2)
    ensures !got ==> TooMany(ids, used, p, max)
  {
    var id := Abs(p[i]);
    assert id in ids1 <==> id in ids;
    if got {
      forall x | x in ids2 ensures x in ids || exists k :: 0 <= k < i + 1 && x == Abs(p[k]) {
        if x == id { assert x == Abs(p[i]); }
      }
    } else {
      MissingGrows(ids, p, i + 1, |p|);
    }
  }

  /** Nobody listed is in a consist, but for that of the first of the list. */
  ghost predicate FreeToBuild(slots: seq<LocoSlot>, home: map<LocoSlot, seq<LocoSlot>>, p: seq<int>)
    requires p != []
    reads slots`loco
  {
    forall s, k :: s in slots && 0 <= k < |p| && s.loco == Abs(p[k]) ==>
                     s in home &&
                         (home[s] == [s] || (home[s] != [] && home[s][0] in slots && home[s][0].loco == Abs(p[0])))
  }

  /** Such a list for an empty table: one loco more than there may be. */
  function OneTo(n: nat): (p: seq<int>)
    ensures |p| == n && forall k :: 0 <= k < n ==> p[k] == k + 1
  {
    if n == 0 then [] else OneTo(n - 1) + [n]
  }

  lemma {:induction false} AllMissing(p: seq<int>, n: nat)
    requires n <= |p|
    ensures Missing({}, p, n) == n
  {
    if n > 0 { AllMissing(p, n - 1); }
  }

  /** parse goes wrong where it can: for a table of any size up to 10238 there is a list that is
      valid, asks for nobody else's locos, and is too long. */
  lemma ListTooLong(max: nat)
    requires 1 <= max < 10239
    ensures var p := OneTo(max + 1); IdsOk(p) && |p| >= 2 && FreeToBuild([], map[], p) && TooMany({}, 0, p, max)
  {
    AllMissing(OneTo(max + 1), max + 1);
  }

  class Locos {
    const maxLocos: nat
    var firstSlot: LocoSlot?
    var recycler: LocoSlot?
    var slotCount: nat
    var chainModified: bool
    var nextLocoReminder: LocoSlot?
    var loopStatus: nat
    /** The table in order, the slots to recycle, and the chain each slot of the table is in. */
    ghost var slots: seq<LocoSlot>
    ghost var free: seq<LocoSlot>
    ghost var home: map<LocoSlot, seq<LocoSlot>>
    /** Every slot made. */
    ghost var made: set<LocoSlot>
    /** The position of nextLocoReminder. */
    ghost var reminderAt: nat

    ghost predicate Listing()
      reads `firstSlot, `recycler, `slotCount, `slots, `free, `made, slots`next, slots`loco, free`next
    {
      && Linked(firstSlot, slots) && Linked(recycler, free) && Named(slots)
      && (forall s :: s in slots ==> s !in free && s in made) && (forall s :: s in free ==> s in made)
      && |slots| + |free| == slotCount <= maxLocos
    }

    ghost predicate Valid()
      reads `firstSlot, `recycler, `slotCount, `slots, `free, `made, `home, slots, free`next
    {
      Listing() && Chains(slots, home)
    }

    /** nextLocoReminder is a slot of the table, or null; but once the chain of locos was modified it
        may be anything, as the next call starts over. */
    ghost predicate ReminderOk()
      reads `loopStatus, `chainModified, `reminderAt, `slots, `nextLocoReminder
    {
      loopStatus < 10 && (chainModified || (reminderAt <= |slots| && nextLocoReminder == At(slots, reminderAt)))
    }

    constructor (max: nat)
      ensures Valid() && slots == [] && free == [] && maxLocos == max && ReminderOk()
    {
      maxLocos := max;
      firstSlot, recycler, slotCount, chainModified := null, null, 0, false;
      slots, free, home, made := [], [], map[], {};
      nextLocoReminder, loopStatus, reminderAt := null, 0, 0;
    }

    /** getSlot's search. */
    method Find(locoId: Word) returns (slot: LocoSlot?)
      requires Listing()
      ensures slot != null ==> slot in slots && slot.loco == locoId
      ensures slot == null ==> forall s :: s in slots ==> s.loco != locoId
    {
      slot := firstSlot;
      ghost var i := 0;
      while slot != null
        invariant Rest(slots, i, slot)
        invariant forall k :: 0 <= k < i ==> slots[k].loco != locoId
        decreases |slots| - i
      {
        if slot.loco == locoId { return; }
        slot := slot.next;
        i := i + 1;
      }
    }

    /** getSlot would find or could make a slot. */
    ghost predicate HasRoom()
      reads this
    {
      free != [] || slotCount < maxLocos
    }

    method GetSlot(locoId: Word, autoCreate: bool) returns (slot: LocoSlot?)
      requires Valid()
      modifies `firstSlot, `recycler, `slotCount, `chainModified, `slots, `free, `home, `made, made
      ensures Valid()
      ensures slot != null ==> slot in slots && slot.loco == locoId != 0
      ensures slot == null ==> slots == old(slots) && free == old(free)
                               && (locoId == 0 || forall s :: s in slots ==> s.loco != locoId)
                               && (locoId == 0 || !autoCreate || !HasRoom())
      ensures slots == old(slots) ==> home == old(home) && free == old(free)
      ensures slots != old(slots) ==>
                && autoCreate && slot != null && slots == [slot] + old(slots) && home == old(home)[slot := [slot]]
                && (forall s :: s in old(slots) ==> s.loco != locoId)
                && (slot in old(free) || fresh(slot)) && chainModified
                && (free == if old(free) == [] then [] else old(free)[1..])
      ensures slots == old(slots) ==> chainModified == old(chainModified)
      ensures old(made) <= made && fresh(made - old(made))
      ensures forall s :: s in old(slots) ==> s.loco == old(s.loco) && s.consistReverse == old(s.consistReverse)
      ensures forall s :: s in old(slots) ==>
                s.targetSpeed == old(s.targetSpeed) && s.speedCode == old(s.speedCode) && s.groups == old(s.groups)
      ensures slots != old(slots) ==>
                slot.targetSpeed == 128 && slot.speedCode == 128 && forall g :: 0 <= g < GROUPS ==> !slot.groups[g]
      ensures old(ReminderOk()) ==> ReminderOk()
    {
      hide Linked, Chains, Named, Homes;
      if locoId == 0 { return null; }
      slot := Find(locoId);
      if slot != null || !autoCreate { return; }
      ghost var was := slots;
      LinkedHead(recycler, free);
      if recycler != null {
        LinkedTail(recycler, free);
        slot := recycler;
        recycler := recycler.next;
        free := free[1..];
      } else {
        if slotCount >= maxLocos { return null; }
        slot := new LocoSlot();
        slotCount := slotCount + 1;
        made := made + {slot};
      }
      Prepare(slot, locoId);
    }

    static method Wipe(p: LocoSlot, locoId: Word)
      modifies p`loco, p`speedCode, p`targetSpeed, p`groups, p`consistLead, p`consistNext, p`consistReverse
      ensures p.loco == locoId && p.consistLead == null && p.consistNext == null && !p.consistReverse
      ensures p.speedCode == 128 && p.targetSpeed == 128 && forall g :: 0 <= g < GROUPS ==> !p.groups[g]
    {
      p.loco := locoId;
      p.speedCode := 128; // default direction forward
      p.targetSpeed := 128;
      p.groups := [false, false, false, false, false];
      p.consistLead := null;
      p.consistNext := null;
      p.consistReverse := false;
    }

    /** prepare: a slot that is in no list joins the front of the table. */
    method Prepare(p: LocoSlot, locoId: Word)
      requires Linked(firstSlot, slots) && Linked(recycler, free) && Named(slots) && Chains(slots, home)
      requires (forall s :: s in slots ==> s !in free && s in made) && (forall s :: s in free ==> s in made)
      requires p !in slots && p !in free && p in made
      requires |slots| + 1 + |free| == slotCount <= maxLocos
      requires locoId != 0 && forall s :: s in slots ==> s.loco != locoId
      modifies `firstSlot, `chainModified, `slots, `home, p
      ensures Valid() && slots == [p] + old(slots) && home == old(home)[p := [p]] && p.loco == locoId && chainModified
      ensures p.targetSpeed == 128 && p.speedCode == 128 && forall g :: 0 <= g < GROUPS ==> !p.groups[g]
    {
      hide Linked, Homes, Chains, Named;
      ghost var slots1, home1 := [p] + slots, home[p := [p]];
      ChainsHome(slots, home);
      Wipe(p, locoId);
      NamedMore(slots, p);
      NewHome(slots, home, p);
      NewChains(slots, home, p);
      assert Named(slots1) && Chains(slots1, home1);
      ChainIn(p);
      assert Named(slots1) && Chains(slots1, home1);
      home := home1;
    }

    /** A slot joins the front of the table's chain. */
    method ChainIn(p: LocoSlot)
      requires Linked(firstSlot, slots) && Linked(recycler, free) && p !in slots && p !in free
      modifies `firstSlot, `chainModified, `slots, p`next
      ensures Linked(firstSlot, slots) && Linked(recycler, free) && slots == [p] + old(slots) && chainModified
    {
      hide Linked;
      p.next := firstSlot;
      LinkedFront(p, firstSlot, slots);
      firstSlot := p;
      chainModified := true;
      slots := [p] + slots;
    }

    /** deleteAnyConsist: the consist this loco is in, as lead or follower, falls apart. */
    method DeleteAnyConsist(locoId: Word)
      requires Valid()
      modifies `home, SlotsOf(slots)`consistLead, SlotsOf(slots)`consistNext, SlotsOf(slots)`consistReverse
      ensures Valid() && slots == old(slots) && free == old(free)
      ensures forall s :: s in slots && s.loco == locoId ==> home == Parted(old(home), old(home)[s]) && home[s] == [s]
      ensures (forall s :: s in slots ==> s.loco != locoId) ==> home == old(home)
      ensures forall s :: s in slots && home[s] == old(home)[s] ==> s.consistReverse == old(s.consistReverse)
    {
      hide Linked, Homes, Chain, Chains, Parted;
      var slot := Find(locoId);
      if slot == null { return; }
      OnlyOne(slots, slot);
      LeaveChain(slot);
    }

    /** A slot's chain falls apart, if it is in one with others. */
    method LeaveChain(slot: LocoSlot)
      requires Valid() && slot in slots
      modifies `home, SlotsOf(slots)`consistLead, SlotsOf(slots)`consistNext, SlotsOf(slots)`consistReverse
      ensures Valid() && slot in old(home) && slot in home
      ensures home == Parted(old(home), old(home)[slot]) && home[slot] == [slot]
      ensures forall s :: s in slots && home[s] == old(home)[s] ==> s.consistReverse == old(s.consistReverse)
    {
      hide Linked, Named, Homes, Chain;
      ghost var c, i := ChainOf(slot);
      RoleIs(c, i);
      var lead: LocoSlot? := slot;
      if !slot.IsConsistLead() { lead := slot.consistLead; }
      if lead == null {
        SinglePart(slots, home, c[i]);
        return;
      }
      Break(lead, c);
    }

    /** A whole chain falls apart. */
    method Break(lead: LocoSlot, ghost c: seq<LocoSlot>)
      requires Valid() && lead in slots && c == home[lead] && Chain(c) && Distinct(c) && lead == c[0]
      requires forall k :: 0 <= k < |c| ==> c[k] in slots
      modifies `home, SlotsOf(c)`consistLead, SlotsOf(c)`consistNext, SlotsOf(c)`consistReverse
      ensures Valid() && home == Parted(old(home), c)
    {
      hide Linked, Named, Homes, HomeOk, Chain, Parted, Chains;
      ChainsHome(slots, home);
      PartHomes(slots, home, lead);
      OthersApart(slots, home, lead);
      BreakLinks(slots, home, lead, c);
      PartedChains(slots, home, c);
      home := Parted(home, c);
    }

    static method BreakLinks(ghost slots: seq<LocoSlot>, ghost home: map<LocoSlot, seq<LocoSlot>>, lead: LocoSlot,
                             ghost c: seq<LocoSlot>)
      requires Chains(slots, home) && Chain(c) && Distinct(c) && lead == c[0]
      requires forall k :: 0 <= k < |c| ==> c[k] in slots
      requires forall t, x :: t in slots && t !in c && x in home[t] ==> x !in c
      modifies SlotsOf(c)`consistLead, SlotsOf(c)`consistNext, SlotsOf(c)`consistReverse
      ensures forall k :: 0 <= k < |c| ==> c[k].consistLead == null && c[k].consistNext == null && !c[k].consistReverse
      ensures forall s :: s in slots && s !in c ==> Chain(home[s])
    {
      hide Homes, HomeOk, Chain;
      ChainsEach(slots, home);
      Unchain(lead, c);
      forall s | s in slots && s !in c ensures Chain(home[s]) {
        assert old(Chain(home[s]));
        assert forall o :: o in SlotsOf(home[s]) ==> o !in SlotsOf(c);
      }
    }

    /** The chain a slot is in, and where. */
    ghost method ChainOf(slot: LocoSlot) returns (c: seq<LocoSlot>, i: nat)
      requires Valid() && slot in slots
      ensures c == home[slot] && i < |c| && c[i] == slot && Chain(c) && Distinct(c)
      ensures c[0] in slots && home[c[0]] == c && forall k :: 0 <= k < |c| ==> c[k] in slots
    {
      hide Linked, Named, Chain;
      assert HomeOk(slots, home, slot);
      c := home[slot];
      i :| 0 <= i < |c| && c[i] == slot;
    }

    /** Take a chain apart, slot by slot. */
    static method Unchain(lead: LocoSlot, ghost c: seq<LocoSlot>)
      requires Chain(c) && Distinct(c) && lead == c[0]
      modifies SlotsOf(c)`consistLead, SlotsOf(c)`consistNext, SlotsOf(c)`consistReverse
      ensures forall k :: 0 <= k < |c| ==> c[k].consistLead == null && c[k].consistNext == null && !c[k].consistReverse
    {
      var slot: LocoSlot? := lead;
      ghost var i := 0;
      while slot != null
        invariant Rest(c, i, slot)
        invariant forall k :: i <= k < |c| ==> c[k].consistNext == At(c, k + 1)
        invariant forall k :: 0 <= k < i ==>
                    c[k].consistLead == null && c[k].consistNext == null && !c[k].consistReverse
        decreases |c| - i
      {
        var next := slot.consistNext;
        slot.consistLead := null;
        slot.consistNext := null;
        slot.consistReverse := false;
        slot := next;
        i := i + 1;
      }
    }

    /** addLocoToConsist: behind the last of the consist that loco consistId is in, or starts now; l and
        a are the slots of the two locos. */
    method AddLocoToConsist(consistId: int, locoId: int, reversed: bool)
      returns (ok: bool, ghost l: LocoSlot?, ghost a: LocoSlot?)
      requires Valid()
      modifies `firstSlot, `recycler, `slotCount, `chainModified, `slots, `free, `home, `made, made
      ensures Valid() && (forall s :: s in old(slots) ==> s in slots) && old(made) <= made && fresh(made - old(made))
      ensures ok ==> InRange(consistId) && InRange(locoId)
      ensures l != null ==> l in slots && l.loco == consistId
      ensures a != null ==> a in slots && a.loco == locoId
      ensures ok && locoId != consistId ==>
                l != null && a != null && a.consistReverse == reversed && Added(old(slots), old(home), home, l, a)
      ensures !ok || locoId == consistId ==> forall s :: s in old(slots) ==> home[s] == old(home)[s]
      ensures !InRange(consistId) || !InRange(locoId) || locoId == consistId ==>
                ok == (InRange(consistId) && InRange(locoId)) && slots == old(slots)
      ensures forall s :: s in old(slots) && s != a ==> s.consistReverse == old(s.consistReverse)
      ensures !ok && InRange(consistId) && InRange(locoId) ==> !HasRoom() || (a != null && home[a] != [a])
      ensures old(ReminderOk()) ==> ReminderOk()
    {
      hide Valid, Listing, Chain, Joined, Chains, Added;
      l, a := null, null;
      if consistId < 1 || consistId > 10239 { return false, l, a; }
      if locoId < 1 || locoId > 10239 { return false, l, a; }
      if locoId == consistId { return true, l, a; }
      ok, l, a := AddSlots(consistId, locoId, reversed);
    }

    method AddSlots(consistId: Word, locoId: Word, reversed: bool)
        returns (ok: bool, ghost l: LocoSlot?, ghost a: LocoSlot?)
      requires Valid() && consistId != 0 && locoId != 0 && locoId != consistId
      modifies `firstSlot, `recycler, `slotCount, `chainModified, `slots, `free, `home, `made, made
      ensures Valid() && (forall s :: s in old(slots) ==> s in slots) && old(made) <= made && fresh(made - old(made))
      ensures l != null ==> l in slots && l.loco == consistId
      ensures a != null ==> a in slots && a.loco == locoId
      ensures ok ==> l != null && a != null && a.consistReverse == reversed && Added(old(slots), old(home), home, l, a)
      ensures !ok ==> forall s :: s in old(slots) ==> home[s] == old(home)[s]
      ensures forall s :: s in old(slots) && s != a ==> s.consistReverse == old(s.consistReverse)
      ensures !ok ==> !HasRoom() || (a != null && home[a] != [a])
      ensures old(ReminderOk()) ==> ReminderOk()
    {
      hide Valid, HasRoom, ReminderOk, Added, WasHome;
      l, a := null, null;
      ghost var slots0, home0 := slots, home;
      var leadSlot := Obtain(consistId);
      if leadSlot == null { return false, l, a; }
      l := leadSlot;
      ghost var slots1, home1 := slots, home;
      ok, a := AddBehind(leadSlot, locoId, reversed);
      if ok { AddedSince(slots0, home0, slots1, home1, home, l, a); }
    }

    /** The other loco behind the last of the consist that this one is in, or starts now. */
    method AddBehind(leadSlot: LocoSlot, locoId: Word, reversed: bool) returns (ok: bool, ghost a: LocoSlot?)
      requires Valid() && locoId != 0 && leadSlot in slots && leadSlot in home && leadSlot.loco != locoId
      modifies `firstSlot, `recycler, `slotCount, `chainModified, `slots, `free, `home, `made, made
      ensures Valid() && (forall s :: s in old(slots) ==> s in slots && s.loco == old(s.loco))
      ensures old(made) <= made && fresh(made - old(made))
      ensures a != null ==> a in slots && a.loco == locoId
      ensures ok ==> a != null && a.consistReverse == reversed && Added(old(slots), old(home), home, leadSlot, a)
      ensures !ok ==> forall s :: s in old(slots) ==> home[s] == old(home)[s]
      ensures forall s :: s in old(slots) && s != a ==> s.consistReverse == old(s.consistReverse)
      ensures !ok ==> !HasRoom() || (a != null && home[a] != [a])
      ensures old(ReminderOk()) ==> ReminderOk()
    {
      hide Listing, Chain, Joined, Chains, Added, HasRoom, ReminderOk;
      a := null;
      var lead, c := LeadOf(leadSlot);
      var tail := TailOf(lead, c);
      InOwnHome(slots, home, leadSlot);
      ghost var slots0, home0 := slots, home;
      var addSlot := Obtain(locoId);
      if addSlot == null { return false, a; }
      a := addSlot;
      ghost var home1 := home;
      StillApart(slots, home, lead, leadSlot, a);
      LeadMade(tail);
      LeadMade(addSlot);
      ok := Attach(lead, tail, addSlot, reversed, c);
      if ok { AddedUp(slots0, home0, home1, home, leadSlot, a, c); }
    }

    /** The end of addLocoToConsist: only a loco alone is chained in. */
    method Attach(lead: LocoSlot, tail: LocoSlot, a: LocoSlot, reversed: bool, ghost c: seq<LocoSlot>)
        returns (ok: bool)
      requires Valid() && lead in slots && c == home[lead] && c != [] && lead == c[0] && tail == c[|c| - 1]
      requires a in slots && (home[a] == [a] ==> a !in c)
      modifies `home, a`consistReverse, a`consistLead, tail`consistNext
      ensures Valid() && ok == (old(home)[a] == [a])
      ensures home == if ok then Joined(old(home), c + [a]) else old(home)
      ensures ok ==> a.consistReverse == reversed
    {
      hide Linked, Named, Homes, Chain, Joined, Chains;
      ghost var d, i := ChainOf(a);
      RoleIs(d, i);
      if a.IsConsistLead() || a.IsConsistFollower() { return false; }
      ghost var c', k := ChainOf(lead);
      LinkBehind(lead, tail, a, reversed, c);
      return true;
    }

    /** getSlot(id, true), for an id that is not 0: when there is a slot, and what it takes. */
    method Claim(locoId: Word) returns (slot: LocoSlot?)
      requires Valid() && locoId != 0
      modifies `firstSlot, `recycler, `slotCount, `chainModified, `slots, `free, `home, `made, made
      ensures Valid() && forall s :: s in old(slots) ==>
                s in slots && s in home && s in old(home) && home[s] == old(home)[s]
      ensures slot != null ==> slot in slots && slot in home && slot.loco == locoId
                               && home[slot] == WasHome(old(slots), old(home), slot)
      ensures forall s :: s in slots && s !in old(slots) ==> s == slot
      ensures Took(old(Ids(slots)), |old(slots)|, locoId, slot != null, Ids(slots), |slots|, maxLocos)
      ensures slot == null ==> !HasRoom()
      ensures old(made) <= made && fresh(made - old(made))
      ensures forall s :: s in old(slots) ==> s.loco == old(s.loco) && s.consistReverse == old(s.consistReverse)
      ensures old(ReminderOk()) ==> ReminderOk()
    {
      hide Linked, Named, Chains;
      ghost var slots0, ids0 := slots, Ids(slots);
      ChainsHome(slots, home);
      slot := GetSlot(locoId, true);
      if slots == slots0 && slot == null { assert !HasRoom(); }
      assert Ids(slots) == ids0 + if slot == null then {} else {locoId as int};
    }

    /** The same, where the room does not matter. */
    method Obtain(locoId: Word) returns (slot: LocoSlot?)
      requires Valid() && locoId != 0
      modifies `firstSlot, `recycler, `slotCount, `chainModified, `slots, `free, `home, `made, made
      ensures Valid() && forall s :: s in old(slots) ==>
                s in slots && s in home && s in old(home) && home[s] == old(home)[s]
      ensures slot != null ==> slot in slots && slot in home && slot.loco == locoId
                               && home[slot] == WasHome(old(slots), old(home), slot)
      ensures forall s :: s in slots && s !in old(slots) ==> s == slot
      ensures slot == null ==> !HasRoom()
      ensures old(made) <= made && fresh(made - old(made))
      ensures forall s :: s in old(slots) ==> s.loco == old(s.loco) && s.consistReverse == old(s.consistReverse)
      ensures old(ReminderOk()) ==> ReminderOk()
    {
      hide Listing, Chains, Took;
      slot := Claim(locoId);
    }

    /** Back up to the lead. */
    method LeadOf(slot: LocoSlot) returns (lead: LocoSlot, ghost c: seq<LocoSlot>)
      requires Valid() && slot in slots
      ensures c == home[slot] && c != [] && lead == c[0] && Chain(c) && Distinct(c)
      ensures lead in slots && home[lead] == c && forall k :: 0 <= k < |c| ==> c[k] in slots
    {
      hide Linked, Named, Homes, Chain;
      ghost var i;
      c, i := ChainOf(slot);
      lead := slot;
      RoleIs(c, i);
      RoleIs(c, 0);
      while lead.consistLead != null
        invariant 0 <= i < |c| && lead == c[i] && Chain(c)
        decreases i
      {
        RoleIs(c, i);
        lead := lead.consistLead;
        i := 0;
      }
      RoleIs(c, i);
    }

    /** The last of a chain. */
    static method TailOf(lead: LocoSlot, ghost c: seq<LocoSlot>) returns (tail: LocoSlot)
      requires Chain(c) && lead == c[0]
      ensures tail == c[|c| - 1]
    {
      hide Chain;
      tail := lead;
      ghost var i := 0;
      ChainStarts(c);
      RoleIs(c, 0);
      while tail.consistNext != null
        invariant 0 <= i < |c| && tail == c[i] && tail.consistNext == At(c, i + 1) && Chain(c)
        decreases |c| - i
      {
        tail := tail.consistNext;
        i := i + 1;
        RoleIs(c, i);
      }
    }

    /** A loco alone is chained in behind the tail of another chain. */
    method LinkBehind(lead: LocoSlot, tail: LocoSlot, a: LocoSlot, reversed: bool, ghost c: seq<LocoSlot>)
      requires Valid() && lead in slots && c == home[lead] && Chain(c) && Distinct(c) && lead == c[0]
      requires tail == c[|c| - 1] && a in slots && home[a] == [a] && a !in c
      requires forall k :: 0 <= k < |c| ==> c[k] in slots
      modifies `home, a`consistReverse, a`consistLead, tail`consistNext
      ensures Valid() && home == Joined(old(home), c + [a]) && a.consistReverse == reversed
    {
      hide Linked, Named, Homes, HomeOk, Chain, Joined, Chains;
      ChainsHome(slots, home);
      JoinHomes(slots, home, lead, a);
      OthersApart(slots, home, lead);
      AloneApart(slots, home, a);
      LinkOne(slots, home, lead, tail, a, reversed, c);
      JoinedChains(slots, home, c + [a]);
      home := Joined(home, c + [a]);
    }

    static method LinkOne(ghost slots: seq<LocoSlot>, ghost home: map<LocoSlot, seq<LocoSlot>>, lead: LocoSlot,
                          tail: LocoSlot, a: LocoSlot, reversed: bool, ghost c: seq<LocoSlot>)
      requires Chains(slots, home) && Chain(c) && Distinct(c) && lead == c[0] && tail == c[|c| - 1]
      requires a in slots && a in home && home[a] == [a] && a !in c
      requires forall t, x :: t in slots && t in home && t !in c && x in home[t] ==> x !in c
      requires forall t :: t in slots && t in home && t != a ==> a !in home[t]
      modifies a`consistReverse, a`consistLead, tail`consistNext
      ensures Chain(c + [a]) && a.consistReverse == reversed
      ensures forall s :: s in slots && s in home && s !in c + [a] ==> Chain(home[s])
    {
      hide Homes, HomeOk, Chains;
      ChainsEach(slots, home);
      LinkFields(lead, tail, a, reversed, c);
      forall s | s in slots && s in home && s !in c + [a] ensures Chain(home[s]) {
        assert old(Chain(home[s]));
        assert tail in c;
        assert forall o :: o in SlotsOf(home[s]) ==> o != a && o != tail;
      }
    }

    static method LinkFields(lead: LocoSlot, tail: LocoSlot, a: LocoSlot, reversed: bool, ghost c: seq<LocoSlot>)
      requires Chain(c) && Distinct(c) && lead == c[0] && tail == c[|c| - 1] && Chain([a]) && a !in c
      modifies a`consistReverse, a`consistLead, tail`consistNext
      ensures Chain(c + [a]) && a.consistReverse == reversed
    {
      a.consistReverse := reversed;
      if a != lead { a.consistLead := lead; }
      if tail != a { tail.consistNext := a; }
      ghost var d := c + [a];
      forall i | 0 <= i < |d|
        ensures d[i].consistNext == At(d, i + 1) && d[i].consistLead == if i == 0 then null else d[0]
      {
        if i < |c| { assert d[i] == c[i]; }
      }
    }

    /** The checks of parse: ids in range, no loco twice. */
    static method CheckIds(p: seq<int>) returns (ok: bool)
      ensures ok == IdsOk(p)
    {
      var i := 0;
      while i < |p|
        invariant 0 <= i <= |p|
        invariant forall k :: 0 <= k < i ==> InRange(Abs(p[k]))
        invariant forall k, l :: 0 <= k < i && k < l < |p| ==> Abs(p[k]) != Abs(p[l])
      {
        if !InRange(Abs(p[i])) { return false; }
        var j := i + 1;
        while j < |p|
          invariant i < j <= |p|
          invariant forall l :: i < l < j ==> Abs(p[i]) != Abs(p[l])
        {
          if Abs(p[j]) == Abs(p[i]) { return false; }
          j := j + 1;
        }
        i := i + 1;
      }
      return true;
    }

    /** No loco of the list is in a consist. */
    method CheckAlone(p: seq<int>) returns (ok: bool)
      requires Valid() && IdsOk(p)
      ensures ok == AloneFrom(slots, home, p, 0)
    {
      hide Linked, Named, Homes, Chain, Chains;
      var i := 0;
      while i < |p|
        invariant 0 <= i <= |p|
        invariant forall s, k :: s in slots && 0 <= k < i && s.loco == Abs(p[k]) ==> s in home && home[s] == [s]
      {
        var slot := Find(Abs(p[i]));
        EachHasHome(slots, home);
        if slot != null {
          ghost var c, k := ChainOf(slot);
          RoleIs(c, k);
          if slot.IsConsistLead() || slot.IsConsistFollower() { return false; }
          assert home[slot] == [slot];
          OnlyOne(slots, slot);
        }
        i := i + 1;
      }
      return true;
    }

    /** The building in parse: a chain of the listed locos, in order, each reversed where the list has
        it negative. It stops where getSlot has no slot to give, which the station does not check. */
    method Build(p: seq<int>) returns (stuck: bool, ghost c: seq<LocoSlot>)
      requires Valid() && IdsOk(p) && |p| >= 2
      requires AloneFrom(slots, home, p, 0)
      modifies `firstSlot, `recycler, `slotCount, `chainModified, `slots, `free, `home, `made, made
      ensures Valid() && old(made) <= made && fresh(made - old(made))
      ensures stuck <==> TooMany(old(Ids(slots)), |old(slots)|, p, maxLocos)
      ensures !stuck ==> BuiltAs(p, c) && Sharing(slots, home, c)
      ensures forall s :: s in old(slots) ==>
                s in slots && s in home && s in old(home) && (s in c || home[s] == old(home)[s])
      ensures forall s :: s in old(slots) && s !in c ==> s.consistReverse == old(s.consistReverse)
      ensures old(ReminderOk()) ==> ReminderOk()
    {
      hide Listing, Chains, ReadsAs, Sharing, AloneFrom, IdsOk, Took, TookAll, TooMany, Ids;
      ghost var ids0, used0 := Ids(slots), |slots|;
      TookNone(ids0, used0, p);
      var prev;
      prev, c := First(p);
      TookNext(ids0, used0, p, 0, ids0, used0, prev != null, Ids(slots), |slots|, maxLocos);
      if prev == null { return true, c; }
      var lead: LocoSlot := prev;
      var last: LocoSlot := prev;
      var i := 1;
      while i < |p|
        invariant 1 <= i <= |p| && Valid() && |c| == i && lead == c[0] && last == c[i - 1]
        invariant ReadsAs(p, c, i) && Sharing(slots, home, c) && AloneFrom(slots, home, p, i)
        invariant TookAll(ids0, used0, p, i, Ids(slots), |slots|)
        invariant old(made) <= made && fresh(made - old(made)) && (old(ReminderOk()) ==> ReminderOk())
        invariant forall s :: s in old(slots) ==>
                    s in slots && s in home && s in old(home) && (s in c || home[s] == old(home)[s])
        invariant forall s :: s in old(slots) && s !in c ==> s.consistReverse == old(s.consistReverse)
      {
        ghost var ids1, used1 := Ids(slots), |slots|;
        stuck, last, c := Extend(p, i, lead, last, c);
        TookNext(ids0, used0, p, i, ids1, used1, !stuck, Ids(slots), |slots|, maxLocos);
        if stuck { return; }
        i := i + 1;
      }
      stuck := false;
      Fits(ids0, used0, p);
      Lead(slots, home, c);
      LeadMade(lead);
      ReverseLead(p, lead, c);
    }

    lemma Fits(ids: set<int>, used: nat, p: seq<int>)
      requires Listing() && TookAll(ids, used, p, |p|, Ids(slots), |slots|)
      ensures !TooMany(ids, used, p, maxLocos)
    {
    }

    lemma LeadMade(lead: LocoSlot)
      requires Listing() && lead in slots
      ensures lead in made
    {
    }

    method First(p: seq<int>) returns (lead: LocoSlot?, ghost c: seq<LocoSlot>)
      requires Valid() && IdsOk(p) && |p| >= 2 && AloneFrom(slots, home, p, 0)
      modifies `firstSlot, `recycler, `slotCount, `chainModified, `slots, `free, `home, `made, made
      ensures Valid() && (lead == null ==> !HasRoom()) && old(made) <= made && fresh(made - old(made))
      ensures Took(old(Ids(slots)), |old(slots)|, Abs(p[0]), lead != null, Ids(slots), |slots|, maxLocos)
      ensures lead != null ==>
                c == [lead] && ReadsAs(p, c, 1) && Sharing(slots, home, c) && AloneFrom(slots, home, p, 1)
      ensures forall s :: s in old(slots) ==> s in slots && s in home && s in old(home) && home[s] == old(home)[s]
      ensures forall s :: s in old(slots) ==> s.consistReverse == old(s.consistReverse)
      ensures old(ReminderOk()) ==> ReminderOk()
    {
      hide Listing, Chains, Took;
      lead := Claim(Abs(p[0]));
      c := if lead == null then [] else [lead];
    }

    /** One more loco behind the chain. */
    method Extend(p: seq<int>, i: nat, lead: LocoSlot, prev: LocoSlot, ghost c: seq<LocoSlot>)
      returns (stuck: bool, a: LocoSlot, ghost d: seq<LocoSlot>)
      requires Valid() && IdsOk(p) && 1 <= i < |p| && ReadsAs(p, c, i) && Sharing(slots, home, c)
      requires lead == c[0] && prev == c[i - 1] && AloneFrom(slots, home, p, i)
      modifies `firstSlot, `recycler, `slotCount, `chainModified, `slots, `free, `home, `made, made
      ensures Valid() && (stuck ==> !HasRoom() && d == c) && old(made) <= made && fresh(made - old(made))
      ensures Took(old(Ids(slots)), |old(slots)|, Abs(p[i]), !stuck, Ids(slots), |slots|, maxLocos)
      ensures !stuck ==>
                d == c + [a] && ReadsAs(p, d, i + 1) && Sharing(slots, home, d) && AloneFrom(slots, home, p, i + 1)
      ensures forall s :: s in old(slots) ==>
                s in slots && s in home && s in old(home) && (s in d || home[s] == old(home)[s])
      ensures forall s :: s in old(slots) && s !in d ==> s.consistReverse == old(s.consistReverse)
      ensures old(ReminderOk()) ==> ReminderOk()
    {
      hide Valid, Listing, Chain, Joined, Chains, ReadsAs, AloneFrom, Sharing, HasRoom, IdsOk, Took, Ids, Abs;
      a, d := lead, c;
      var slot := ObtainNext(p, i, c);
      if slot == null { return true, a, d; }
      a := slot;
      InMade(c, lead, prev, a, p, i);
      JoinedIs(home, c + [a]);
      ghost var ids := Ids(slots);
      LinkNext(p, i, lead, prev, a, c);
      assert Ids(slots) == ids;
      d := c + [a];
      stuck := false;
    }

    lemma InMade(c: seq<LocoSlot>, lead: LocoSlot, prev: LocoSlot, a: LocoSlot, p: seq<int>, i: nat)
      requires Valid() && ReadsAs(p, c, i) && Sharing(slots, home, c) && lead == c[0] && prev == c[i - 1] && a in slots
      ensures a in made && prev in made && |c| == i
    {
      hide Linked, Named;
    }

    method ObtainNext(p: seq<int>, i: nat, ghost c: seq<LocoSlot>) returns (slot: LocoSlot?)
      requires Valid() && IdsOk(p) && 1 <= i < |p| && ReadsAs(p, c, i)
      requires Sharing(slots, home, c) && AloneFrom(slots, home, p, i)
      modifies `firstSlot, `recycler, `slotCount, `chainModified, `slots, `free, `home, `made, made
      ensures Valid() && (slot == null ==> !HasRoom()) && old(made) <= made && fresh(made - old(made))
      ensures Took(old(Ids(slots)), |old(slots)|, Abs(p[i]), slot != null, Ids(slots), |slots|, maxLocos)
      ensures ReadsAs(p, c, i) && Sharing(slots, home, c) && AloneFrom(slots, home, p, i)
      ensures slot != null ==>
                slot in slots && slot in home && home[slot] == [slot] && slot !in c && slot.loco == Abs(p[i])
      ensures forall s :: s in old(slots) ==> s in slots && s in home && s in old(home) && home[s] == old(home)[s]
      ensures forall s :: s in old(slots) ==> s.consistReverse == old(s.consistReverse)
      ensures old(ReminderOk()) ==> ReminderOk()
    {
      hide Linked, Named, Homes, HomeOk, Chain, Joined, Chains, Took;
      slot := Claim(Abs(p[i]));
    }

    method LinkNext(p: seq<int>, i: nat, lead: LocoSlot, prev: LocoSlot, a: LocoSlot, ghost c: seq<LocoSlot>)
      requires Valid() && IdsOk(p) && 1 <= i < |p| && |c| == i && lead == c[0] && prev == c[i - 1]
      requires ReadsAs(p, c, i) && Sharing(slots, home, c) && AloneFrom(slots, home, p, i)
      requires a in slots && a in home && home[a] == [a] && a !in c && a.loco == Abs(p[i])
      modifies `home, a`consistReverse, a`consistLead, prev`consistNext
      ensures Valid() && ReadsAs(p, c + [a], i + 1) && Sharing(slots, home, c + [a]) && AloneFrom(slots, home, p, i + 1)
      ensures home == Joined(old(home), c + [a])
    {
      hide Listing, Chain, Joined, Chains, ReadsAs, Sharing, AloneFrom, IdsOk;
      ghost var home0 := home;
      assert a !in SlotsOf(c);
      LinkOn(lead, prev, a, p[i] < 0, c);
      NextReads(p, c, a, i);
      NextShares(slots, home0, c, a);
      JoinedIs(home0, c + [a]);
      NextAlone(slots, home0, home, p, c, a, i);
    }

    method LinkOn(lead: LocoSlot, prev: LocoSlot, a: LocoSlot, reversed: bool, ghost c: seq<LocoSlot>)
      requires Valid() && c != [] && lead == c[0] && prev == c[|c| - 1] && Sharing(slots, home, c)
      requires a in slots && a in home && home[a] == [a] && a !in c
      modifies `home, a`consistReverse, a`consistLead, prev`consistNext
      ensures Valid() && home == Joined(old(home), c + [a]) && a.consistReverse == reversed
    {
      hide Linked, Named, Homes, HomeOk, Chain, Joined, Chains;
      ghost var c', k := ChainOf(lead);
      LinkBehind(lead, prev, a, reversed, c);
    }

    /** setConsistReverse on the lead of a chain of several. */
    method ReverseLead(p: seq<int>, lead: LocoSlot, ghost c: seq<LocoSlot>)
      requires Valid() && |p| > 1 && ReadsAs(p, c, |p|) && Sharing(slots, home, c) && lead == c[0]
      modifies lead`consistReverse
      ensures Valid() && BuiltAs(p, c)
    {
      hide Listing, Chains;
      Lead(slots, home, c);
      SetReverse(lead, p[0] < 0, c, p);
    }

    method SetReverse(lead: LocoSlot, reversed: bool, ghost c: seq<LocoSlot>, ghost p: seq<int>)
      requires Valid() && |c| > 1 && lead == c[0] && lead in slots && lead in home && home[lead] == c
      requires ReadsAs(p, c, |p|) && reversed == (p[0] < 0)
      modifies lead`consistReverse
      ensures Valid() && BuiltAs(p, c)
    {
      hide Linked, Named, Chain;
      EachHasHome(slots, home);
      assert HomeOk(slots, home, lead);
      TurnLead(lead, reversed, c);
      forall s | s in slots ensures Chain(home[s]) {
        assert HomeOk(slots, home, s);
        assert old(Chain(home[s]));
        if lead in home[s] { assert home[s] == c; } else { assert lead !in SlotsOf(home[s]); }
      }
    }

    /** The lead of several may be reversed. */
    static method TurnLead(lead: LocoSlot, reversed: bool, ghost c: seq<LocoSlot>)
      requires Chain(c) && |c| > 1 && lead == c[0]
      modifies lead`consistReverse
      ensures Chain(c) && lead.consistReverse == reversed
    {
      lead.consistReverse := reversed;
    }

    /** parse: lists, deletes, or builds a consist; broken is the consist it took apart, if the first
        loco led one, and c the chain it built. It is stuck where getSlot has no slot to give. */
    method Parse(p: seq<int>) returns (ok: bool, stuck: bool, ghost broken: seq<LocoSlot>, ghost c: seq<LocoSlot>)
      requires Valid()
      modifies `firstSlot, `recycler, `slotCount, `chainModified, `slots, `free, `home, `made, made
      ensures Valid() && old(made) <= made && fresh(made - old(made))
      ensures stuck <==> |p| >= 2 && IdsOk(p) && old(FreeToBuild(slots, home, p))
                         && TooMany(old(Ids(slots)), |old(slots)|, p, maxLocos)
      ensures ok <==> p == [] || (IdsOk(p) && (|p| == 1 || (old(FreeToBuild(slots, home, p))
                                               && !TooMany(old(Ids(slots)), |old(slots)|, p, maxLocos))))
      ensures p == [] || !IdsOk(p) ==> slots == old(slots) && home == old(home)
      ensures |p| < 2 || (!ok && !stuck) ==> c == [] && slots == old(slots)
      ensures ok && |p| >= 2 ==> BuiltAs(p, c) && Sharing(slots, home, c)
      ensures broken != [] ==>
                p != [] && broken[0] in old(slots) && old(broken[0].loco) == Abs(p[0]) && broken[0] in old(home)
                && broken == old(home)[broken[0]]
      ensures forall s :: s in old(slots) && IdsOk(p) && p != [] && old(Leads(home, s, Abs(p[0]))) ==>
                broken == old(home)[s]
      ensures forall s :: s in old(slots) && s !in c && s !in broken ==> s.consistReverse == old(s.consistReverse)
      ensures forall s :: s in old(slots) ==>
                s in slots && s in home && s in old(home)
                && (s in c || home[s] == if s in broken then [s] else old(home)[s])
      ensures old(ReminderOk()) ==> ReminderOk()
    {
      hide Listing, Chains, AloneFrom, Sharing, FreeToBuild, TooMany, Ids;
      c, broken := [], [];
      EachHasHome(slots, home);
      if p == [] { return true, false, broken, c; } // the list of consists
      var valid := CheckIds(p);
      if !valid { return false, false, broken, c; }
      broken := Clear(p);
      EachHasHome(slots, home);
      if |p| < 2 { return true, false, broken, c; }
      ok := CheckAlone(p);
      if !ok { return false, false, broken, c; }
      stuck, c := Build(p);
      ok := !stuck;
    }

    /** The slot of this loco, and the lead of a consist. */
    static ghost predicate Leads(home: map<LocoSlot, seq<LocoSlot>>, s: LocoSlot, locoId: int)
      reads s`loco
    {
      s.loco == locoId && s in home && |home[s]| > 1 && home[s][0] == s
    }

    /** The first loco's own consist falls apart; then the list can be built if it could be before. */
    method Clear(p: seq<int>) returns (ghost broken: seq<LocoSlot>)
      requires Valid() && p != [] && IdsOk(p)
      modifies `home, made
      ensures Valid()
      ensures broken != [] ==>
                broken[0] in slots && old(broken[0].loco) == Abs(p[0]) && broken[0] in old(home) &&
                    broken == old(home)[broken[0]]
      ensures forall s :: s in slots && old(Leads(home, s, Abs(p[0]))) ==> broken == old(home)[s]
      ensures forall s :: s in slots ==>
                s in home && s in old(home) && home[s] == if s in broken then [s] else old(home)[s]
      ensures forall s :: s in slots && s !in broken ==> s.consistReverse == old(s.consistReverse)
      ensures AloneFrom(slots, home, p, 0) <==> old(FreeToBuild(slots, home, p))
      ensures Ids(slots) == old(Ids(slots))
    {
      hide Listing, Chains, AloneFrom, Homes;
      ChainsHome(slots, home);
      EachHasHome(slots, home);
      ghost var home0, free0, ids0 := home, FreeToBuild(slots, home, p), Ids(slots);
      broken := DeleteLed(Abs(p[0]));
      assert FreeToBuild(slots, home0, p) == free0;
      assert Ids(slots) == ids0;
      AloneNow(slots, home0, home, broken, p);
    }

    /** If this loco is the lead of a consist, the consist falls apart. */
    method DeleteLed(locoId: Word) returns (ghost broken: seq<LocoSlot>)
      requires Valid()
      modifies `home, made
      ensures Valid()
      ensures broken != [] ==>
                broken[0] in slots && old(broken[0].loco) == locoId && broken[0] in old(home) &&
                    broken == old(home)[broken[0]]
      ensures forall s :: s in slots && old(Leads(home, s, locoId)) ==> broken == old(home)[s]
      ensures forall s :: s in slots ==>
                s in home && s in old(home) && home[s] == if s in broken then [s] else old(home)[s]
      ensures forall s :: s in slots && s !in broken ==> s.consistReverse == old(s.consistReverse)
      ensures forall s :: s in slots ==> s.loco == old(s.loco)
    {
      hide Linked, Named, Homes, Chain, Chains, Parted;
      broken := [];
      EachHasHome(slots, home);
      var slot := Find(locoId);
      if slot == null { return; }
      ghost var d, i := ChainOf(slot);
      RoleIs(d, i);
      OnlyOne(slots, slot);
      if slot.IsConsistLead() {
        AllMade();
        broken := d;
        PartedIs(home, home[slot]);
        DeleteAnyConsist(locoId);
      }
    }

    /** forget: a loco that is in no consist leaves the table, and its slot is recycled. */
    method Forget(slot: LocoSlot, ghost k: nat)
      requires Valid() && k < |slots| && slots[k] == slot && slot in home && home[slot] == [slot]
      modifies `firstSlot, `recycler, `chainModified, `slots, `free, `home, slots`next
      ensures Valid() && chainModified && slots == Cut(old(slots), k)
      ensures free == [slot] + old(free) && home == old(home) - {slot}
      ensures old(ReminderOk()) ==> ReminderOk()
    {
      hide Linked, Named, Homes, Chains, HomeOk, Chain, Cut;
      ForgetFacts(firstSlot, slots, home, slot, k);
      ghost var rest, home1 := Cut(slots, k), home - {slot};
      assert Named(rest) && Chains(rest, home1);
      Unlist(slot, k);
      assert forall x :: x in free ==> x.next == old(x.next);
      assert Named(rest) && Chains(rest, home1);
      Retire(slot);
      assert Named(rest) && Chains(rest, home1);
      home := home1;
    }

    /** The slot joins the recycle list. */
    method Retire(slot: LocoSlot)
      requires Linked(firstSlot, slots) && Linked(recycler, free) && slot !in slots && slot !in free
      modifies `recycler, `chainModified, `free, slot`next
      ensures Linked(firstSlot, slots) && Linked(recycler, free) && free == [slot] + old(free) && chainModified
    {
      hide Linked;
      slot.next := recycler;
      LinkedFront(slot, recycler, free);
      recycler := slot;
      free := [slot] + free;
      chainModified := true;
    }

    /** A slot leaves the table's chain. */
    method Unlist(slot: LocoSlot, ghost k: nat)
      requires Linked(firstSlot, slots) && k < |slots| && slots[k] == slot
      modifies `firstSlot, `slots, slots`next
      ensures Linked(firstSlot, slots) && slots == Cut(old(slots), k)
    {
      hide Linked, Cut;
      LinkedHead(firstSlot, slots);
      LinkedOnce(firstSlot, slots);
      if firstSlot == slot {
        Unlink(null, slot, k);
      } else {
        var prev := Before(slot, k);
        Unlink(prev, slot, k);
      }
    }

    method Unlink(prev: LocoSlot?, slot: LocoSlot, ghost k: nat)
      requires Linked(firstSlot, slots) && k < |slots| && slots[k] == slot
      requires prev == if k > 0 then slots[k - 1] else null
      modifies `firstSlot, `slots, slots`next
      ensures Linked(firstSlot, slots) && slots == Cut(old(slots), k)
    {
      hide Cut, At;
      ghost var was := slots;
      CutShape(was, k);
      AtIs(was, 0);
      AtIs(was, k);
      AtIs(was, k + 1);
      if prev == null {
        firstSlot := slot.next;
      } else {
        prev.next := slot.next;
      }
      slots := Cut(slots, k);
      forall j | 0 <= j < |slots| ensures slots[j].next == At(slots, j + 1) {
        assert slots[j] == was[if j < k then j else j + 1];
      }
    }

    method Before(slot: LocoSlot, ghost k: nat) returns (prev: LocoSlot)
      requires Linked(firstSlot, slots) && 0 < k < |slots| && slots[k] == slot
      ensures prev == slots[k - 1]
    {
      prev := firstSlot;
      ghost var i := 0;
      while prev.next != slot
        invariant i < k && prev == slots[i]
        decreases k - i
      {
        prev := prev.next;
        i := i + 1;
      }
    }

    /** forgetLoco: the loco is told to stop, leaves its consist, which falls apart, and the table. */
    method ForgetLoco(cab: Word, locked: bool) returns (sent: seq<Told>, ghost gone: LocoSlot?)
      requires Valid()
      modifies `firstSlot, `recycler, `chainModified, `slots, `free, `home, `nextLocoReminder, made
      ensures Valid() && forall s :: s in slots ==>
                s in old(slots) && s.loco == old(s.loco) != cab && s in home && s in old(home)
      ensures forall s :: s in old(slots) && old(s.loco) == cab ==>
                |sent| == 1 && sent[0].loco == cab && Shows(sent[0].code, 1, old(s.consistReverse))
      ensures gone == null ==>
                sent == [] && slots == old(slots) && home == old(home) && chainModified == old(chainModified)
      ensures gone != null ==>
                gone in old(slots) && gone in old(home) && old(gone.loco) == cab && gone in free && chainModified
                && (forall s :: s in old(slots) && s != gone ==> s in slots)
                && (forall s :: s in slots ==> home[s] == if s in old(home)[gone] then [s] else old(home)[s])
                && nextLocoReminder == if old(nextLocoReminder) == gone then old(gone.next) else old(nextLocoReminder)
      ensures old(ReminderOk()) ==> ReminderOk()
    {
      hide Listing, Homes, Chain, Chains, HomeOk, Cut;
      sent, gone := [], null;
      EachHasHome(slots, home);
      var slot := Find(cab);
      if slot == null { return; }
      gone := slot;
      Names();
      OnlyOne(slots, slot);
      sent := [Tell(slot, 1, locked)];
      StopShows(slot, locked);
      MoveOn(slot);
      AllMade();
      ghost var k := LeaveConsist(slot, cab);
      AllMade();
      ForgetNamed(slot, k);
    }

    /** forget, with what it leaves. */
    method ForgetNamed(slot: LocoSlot, ghost k: nat)
      requires Valid() && k < |slots| && slots[k] == slot && slot in home && home[slot] == [slot]
      modifies `firstSlot, `recycler, `chainModified, `slots, `free, `home, slots`next
      ensures Valid() && slot in free && chainModified && (loopStatus < 10 ==> ReminderOk())
      ensures forall s :: s in old(slots) && s != slot ==> s in slots
      ensures forall s :: s in slots ==>
                s in old(slots) && s.loco != slot.loco && s in home && s in old(home) && home[s] == old(home)[s]
    {
      hide Listing, Homes, Chain, Chains, HomeOk, Cut;
      Starts();
      CutOf(firstSlot, slots, k);
      Names();
      ForgottenName(slots, k);
      EachHasHome(slots, home);
      Forget(slot, k);
    }

    /** forgetAll, and the reminder pointer with it. */
    method ForgetAll() returns (sent: seq<Told>)
      requires Valid()
      modifies `firstSlot, `recycler, `slotCount, `chainModified, `slots, `free, `home, `nextLocoReminder
      ensures Valid() && slots == [] && free == [] && (loopStatus < 10 ==> ReminderOk()) && sent == [Told(0, 1)]
      ensures nextLocoReminder == null && chainModified
    {
      sent := [Told(0, 1)]; // a stop for all locos still on the track
      firstSlot, recycler, slotCount, chainModified := null, null, 0, true;
      nextLocoReminder := null;
      slots, free, home := [], [], map[];
    }

    /** The reminder pointer moves on if its slot is about to go. */
    method MoveOn(slot: LocoSlot)
      requires Valid() && slot in slots
      modifies `nextLocoReminder
      ensures Valid() && nextLocoReminder == if old(nextLocoReminder) == slot then slot.next else old(nextLocoReminder)
    {
      hide Valid;
      if nextLocoReminder == slot { nextLocoReminder := slot.next; }
    }

    lemma Names()
      requires Valid()
      ensures Named(slots)
    {
    }

    /** A loco leaves its consist, which falls apart. */
    method LeaveConsist(slot: LocoSlot, cab: Word) returns (ghost k: nat)
      requires Valid() && slot in slots && slot.loco == cab
      modifies `home, SlotsOf(slots)`consistLead, SlotsOf(slots)`consistNext, SlotsOf(slots)`consistReverse
      ensures Valid() && k < |slots| && slots[k] == slot && slot in home && home[slot] == [slot] && slot in old(home)
      ensures forall s :: s in slots ==>
                s in home && s in old(home) && home[s] == if s in old(home)[slot] then [s] else old(home)[s]
    {
      hide Linked, Named, Homes, Chain, Chains, Parted, HomeOk;
      EachHasHome(slots, home);
      ghost var d, i := ChainOf(slot);
      RoleIs(d, i);
      PartedIs(home, d);
      OnlyOne(slots, slot);
      if slot.IsConsistLead() || slot.IsConsistFollower() {
        DeleteAnyConsist(cab);
      } else {
        assert d == [slot];
      }
      EachHasHome(slots, home);
      k :| 0 <= k < |slots| && slots[k] == slot;
    }

    /** estopAll: a broadcast stop, and everybody heads for an emergency stop the way they were going. */
    method EstopAll() returns (sent: seq<Told>)
      requires Valid()
      modifies SlotsOf(slots)`targetSpeed, SlotsOf(slots)`speedCode
      ensures Valid() && sent == [Told(0, 1)]
      ensures forall s :: s in slots ==>
                s.targetSpeed == Halted(old(s.targetSpeed)) && s.speedCode == Halted(old(s.targetSpeed))
                && Shows(s.targetSpeed, 1, old(s.targetSpeed) & 0x80 != 0)
    {
      hide Named, Homes, HomeOk, Chain, Chains, Shows, Halted;
      sent := [Told(0, 1)];
      var slot := firstSlot;
      ghost var i := 0;
      while slot != null
        invariant Listing() && Rest(slots, i, slot)
        invariant forall k :: 0 <= k < i ==> slots[k].targetSpeed == Halted(old(slots[k].targetSpeed))
                                             && slots[k].speedCode == Halted(old(slots[k].targetSpeed))
        invariant forall k :: i <= k < |slots| ==> slots[k].targetSpeed == old(slots[k].targetSpeed)
        decreases |slots| - i
      {
        var newspeed := Halted(slot.targetSpeed);
        slot.speedCode := newspeed;
        slot.targetSpeed := newspeed;
        slot := slot.next;
        i := i + 1;
      }
      HaltedShows();
    }

    /** setThrottle. l is the loco's slot; whatever speeds there were, a slot that is new heads for 128,
        stop forward. */
    method SetThrottle(cab: Word, tSpeed: bv8, forward: bool, momentum: bool, locked: bool)
      returns (ok: bool, sent: seq<Told>, ghost l: LocoSlot?)
      requires Valid()
      modifies `firstSlot, `recycler, `slotCount, `chainModified, `slots, `free, `home, `made, made
      ensures Valid() && (forall s :: s in old(slots) ==> s in slots) && (!ok ==> cab == 0 || !HasRoom())
      ensures cab == 0 && tSpeed == 1 ==>
                ok && sent == [Told(0, 1)] && slots == old(slots)
                && forall s :: s in slots ==> Shows(s.targetSpeed, 1, old(s.targetSpeed) & 0x80 != 0)
      ensures cab != 0 || tSpeed != 1 ==> ok == (l != null)
      ensures l != null ==> l in slots && l.loco == cab && l in home && home[l] != []
      ensures !ok ==> sent == [] && forall s :: s in old(slots) ==> s.targetSpeed == old(s.targetSpeed)
      ensures l != null ==>
                var target := if l in old(slots) then old(l.targetSpeed) else 128;
                if l == home[l][0] && !Shows(target, tSpeed, forward) then
                  && HeadsFor(home[l], tSpeed, forward)
                  && (if momentum && tSpeed != 1 then sent == []
                      else AllTold(sent, home[l], if locked then 1 else tSpeed, forward)
                           && forall k :: 0 <= k < |home[l]| ==> Shows(home[l][k].speedCode, tSpeed, forward))
                  && forall s :: s in old(slots) && s !in home[l] ==> s.targetSpeed == old(s.targetSpeed)
                else sent == [] && forall s :: s in old(slots) ==> s.targetSpeed == old(s.targetSpeed)
      ensures old(ReminderOk()) ==> ReminderOk()
    {
      hide Listing, Chains, Follows, TellAll, SpeedCode, Halted, Shows, HeadsFor, AllTold;
      ok, sent, l := false, [], null;
      AllMade();
      if tSpeed == 1 && cab == 0 {
        sent := EstopAll();
        return true, sent, null;
      }
      var slot := GetSlot(cab, true);
      if slot == null { return; }
      ok, l := true, slot;
      AllMade();
      CodeShows(slot.targetSpeed, tSpeed, forward);
      CodeShows(SpeedCode(tSpeed, forward), tSpeed, forward);
      sent := Throttle(slot, SpeedCode(tSpeed, forward), momentum && tSpeed != 1, locked);
      TellsShow(home[slot], SpeedCode(tSpeed, forward), locked, tSpeed, forward);
      if Follows(home[slot], SpeedCode(tSpeed, forward)) {
        FollowsShow(home[slot], SpeedCode(tSpeed, forward), tSpeed, forward);
      }
    }

    /** The rest of setThrottle: nothing for a follower, or if the loco heads for this speed already;
        else its target goes to its followers, turned round for those that are reversed, and unless
        the reminders are to take them there they are told at once. */
    method Throttle(slot: LocoSlot, speedCode: bv8, later: bool, locked: bool) returns (sent: seq<Told>)
      requires Valid() && slot in slots
      modifies SlotsOf(slots)`targetSpeed, SlotsOf(slots)`speedCode
      ensures Valid() && slot in home && home[slot] != []
      ensures if slot == home[slot][0] && old(slot.targetSpeed) != speedCode then
                Follows(home[slot], speedCode) && sent == (if later then [] else TellAll(home[slot], speedCode, locked))
                && (!later ==> forall k :: 0 <= k < |home[slot]| ==> home[slot][k].speedCode == speedCode)
                && forall s :: s in slots && s !in home[slot] ==> s.targetSpeed == old(s.targetSpeed)
              else sent == [] && forall s :: s in slots ==> s.targetSpeed == old(s.targetSpeed)
    {
      hide Linked, Named, Homes, Chain, Follows, TellAll;
      sent := [];
      EachHasHome(slots, home);
      ghost var c, i := ChainOf(slot);
      RoleIs(c, i);
      if slot.IsConsistFollower() { return; }
      if slot.targetSpeed == speedCode { return; }
      assert forall x :: x in SlotsOf(c) ==> x in SlotsOf(slots);
      sent := Drive(slot, speedCode, later, locked, c);
    }

    /** A lead that is to go at another speed. */
    static method Drive(slot: LocoSlot, speedCode: bv8, later: bool, locked: bool, ghost c: seq<LocoSlot>)
        returns (sent: seq<Told>)
      requires Chain(c) && Distinct(c) && slot == c[0]
      modifies SlotsOf(c)`targetSpeed, SlotsOf(c)`speedCode
      ensures Follows(c, speedCode) && sent == if later then [] else TellAll(c, speedCode, locked)
      ensures !later ==> forall k :: 0 <= k < |c| ==> c[k].speedCode == speedCode
    {
      hide Chain, Follows, TellAll;
      sent := [];
      SetTargets(slot, speedCode, c);
      if !later {
        sent := SetThrottle2(slot, speedCode, locked, c);
      }
    }

    /** The lead's target, and the copies for its followers. */
    static method SetTargets(slot: LocoSlot, speedCode: bv8, ghost c: seq<LocoSlot>)
      requires Chain(c) && Distinct(c) && slot == c[0]
      modifies SlotsOf(c)`targetSpeed
      ensures Follows(c, speedCode)
    {
      hide Chain;
      ChainStarts(c);
      RoleIs(c, 0);
      slot.targetSpeed := speedCode;
      var follower := slot.consistNext;
      ghost var i := 1;
      while follower != null
        invariant 1 <= i && Rest(c, i, follower) && Chain(c)
        invariant forall k :: 0 <= k < i ==>
                    c[k].targetSpeed == if k > 0 && c[k].consistReverse then speedCode ^ 0x80 else speedCode
        decreases |c| - i
      {
        RoleIs(c, i);
        follower.targetSpeed := speedCode ^ if follower.consistReverse then 0x80 else 0;
        SameSpeed(speedCode);
        follower := follower.consistNext;
        i := i + 1;
      }
    }

    /** setThrottle2: lead and followers get the speed, and each is told the one it is to show. */
    static method SetThrottle2(slot: LocoSlot, speedCode: bv8, locked: bool, ghost c: seq<LocoSlot>)
        returns (sent: seq<Told>)
      requires Chain(c) && slot == c[0]
      modifies SlotsOf(c)`speedCode
      ensures sent == TellAll(c, speedCode, locked) && forall k :: 0 <= k < |c| ==> c[k].speedCode == speedCode
    {
      hide Chain;
      sent := [];
      ChainStarts(c);
      var follower: LocoSlot? := slot;
      ghost var i := 0;
      while follower != null
        invariant Rest(c, i, follower) && Chain(c) && |sent| == i
        invariant forall k :: 0 <= k < i ==> sent[k] == Tell(c[k], speedCode, locked) && c[k].speedCode == speedCode
        decreases |c| - i
      {
        RoleIs(c, i);
        follower.speedCode := speedCode;
        sent := sent + [Tell(follower, speedCode, locked)];
        follower := follower.consistNext;
        i := i + 1;
      }
    }

    /** issueReminders, for a table whose rows are these. */
    method IssueReminders(ghost table: seq<Row>) returns (reminded: LocoSlot?, ghost sent: Option<Reminders.Sent>)
      requires Valid() && ReminderOk() && RowsAre(slots, table)
      modifies `chainModified, `nextLocoReminder, `loopStatus, `reminderAt
      ensures Valid() && ReminderOk() && slots == old(slots) && (slots != [] ==> !chainModified)
      ensures var (t, s) := Issue(Turn(old(reminderAt), old(loopStatus)), table, old(chainModified));
              sent == s && Turn(reminderAt, loopStatus) == t
      ensures if sent.None? then reminded == null else sent.value.row < |slots| && reminded == slots[sent.value.row]
    {
      hide Valid, Listing, Linked, RowsAre, FirstDue, At;
      reminded, sent := null, None;
      Starts();
      RowCount(slots, table);
      if chainModified || nextLocoReminder == null {
        Restart();
        if nextLocoReminder == null { return; }
      }
      var slot, i := FindDue(table);
      AtIs(slots, i);
      if slot != null {
        nextLocoReminder := slot.next;
        reminded := slot;
        sent := Some(Reminders.Sent(i, loopStatus));
        reminderAt := i + 1;
      } else {
        nextLocoReminder := null;
        reminderAt := |slots|;
      }
    }

    lemma Starts()
      requires Valid()
      ensures Linked(firstSlot, slots) && firstSlot == At(slots, 0)
    {
    }

    /** From the top of the table, in the next loop state; but an empty table leaves that alone. */
    method Restart()
      requires Linked(firstSlot, slots) && loopStatus < 10
      modifies `chainModified, `nextLocoReminder, `loopStatus, `reminderAt
      ensures !chainModified && reminderAt == 0 && nextLocoReminder == At(slots, 0)
      ensures loopStatus == if slots == [] then old(loopStatus) else NextStatus(old(loopStatus))
    {
      chainModified := false;
      nextLocoReminder := firstSlot;
      reminderAt := 0;
      if nextLocoReminder == null { return; }
      loopStatus := loopStatus + 1;
      if loopStatus > 9 { loopStatus := 0; }
    }

    /** The walk of issueReminders, from nextLocoReminder on. */
    method FindDue(ghost table: seq<Row>) returns (slot: LocoSlot?, ghost i: nat)
      requires Linked(firstSlot, slots) && RowsAre(slots, table) && loopStatus < 10
      requires reminderAt <= |slots| && nextLocoReminder == At(slots, reminderAt)
      ensures |table| == |slots| && i == FirstDue(table, loopStatus, reminderAt) && slot == At(slots, i)
      ensures slot != null ==> slot.next == At(slots, i + 1)
    {
      hide Linked, RowsAre, FirstDue, At;
      RowCount(slots, table);
      AtIs(slots, reminderAt);
      slot := nextLocoReminder;
      i := reminderAt;
      while slot != null
        invariant Rest(slots, i, slot)
        invariant FirstDue(table, loopStatus, reminderAt) == FirstDue(table, loopStatus, i)
        decreases |slots| - i
      {
        AtIs(slots, i);
        LinkedAt(firstSlot, slots, i);
        RowAt(slots, table, i);
        DueStep(table, loopStatus, i);
        var due := IssueReminder(slot);
        if due { return; }
        slot := slot.next;
        i := i + 1;
      }
      AtIs(slots, i);
      DueStep(table, loopStatus, i);
    }

    /** issueReminder: in the even states a speed reminder, in the odd ones a function group's. */
    method IssueReminder(slot: LocoSlot) returns (due: bool)
      requires loopStatus < 10
      ensures due == Due(Row(slot.consistLead != null, slot.groups), loopStatus)
    {
      match loopStatus {
        case 0 | 2 | 4 | 6 | 8 => due := !slot.IsConsistFollower();
        case 1 => due := slot.groups[0];
        case 3 => due := slot.groups[1];
        case 5 => due := slot.groups[2];
        case 7 => due := slot.groups[3];
        case _ => due := slot.groups[4];
      }
    }

    lemma AllMade()
      requires Listing()
      ensures forall x :: x in SlotsOf(slots) ==> x in made
    {
    }
  }

  ghost function Cut(s: seq<LocoSlot>, k: nat): (r: seq<LocoSlot>)
    requires k < |s|
    ensures |r| == |s| - 1
  {
    s[..k] + s[k + 1..]
  }

  lemma CutShape(was: seq<LocoSlot>, k: nat)
    requires k < |was| && Distinct(was)
    ensures var now := Cut(was, k);
            && |now| == |was| - 1 && Distinct(now)
            && (forall j :: 0 <= j < |now| ==> now[j] == was[if j < k then j else j + 1])
            && (forall j: nat :: At(now, j) == At(was, if j < k then j else j + 1))
  {
  }

  lemma CutHas(s: seq<LocoSlot>, k: nat)
    requires k < |s| && Distinct(s)
    ensures forall x :: x in Cut(s, k) ==> x in s && x != s[k]
    ensures forall x :: x in s && x != s[k] ==> x in Cut(s, k)
  {
  }

  lemma LinkedOnce(head: LocoSlot?, s: seq<LocoSlot>)
    requires Linked(head, s)
    ensures Distinct(s)
  {
  }

  lemma CutOf(head: LocoSlot?, s: seq<LocoSlot>, k: nat)
    requires Linked(head, s) && k < |s|
    ensures forall x :: x in Cut(s, k) ==> x in s && x != s[k]
    ensures forall x :: x in s && x != s[k] ==> x in Cut(s, k)
  {
  }

  lemma ForgottenName(s: seq<LocoSlot>, k: nat)
    requires Named(s) && k < |s|
    ensures forall x :: x in s && x != s[k] ==> x.loco != s[k].loco
  {
  }

  lemma NamedLess(s: seq<LocoSlot>, k: nat)
    requires Named(s) && k < |s|
    ensures Named(Cut(s, k))
  {
  }

  lemma ForgetFacts(head: LocoSlot?, slots: seq<LocoSlot>, home: map<LocoSlot, seq<LocoSlot>>, p: LocoSlot, k: nat)
    requires Linked(head, slots) && Named(slots) && Chains(slots, home) && k < |slots| && slots[k] == p
    requires p in home && home[p] == [p]
    ensures Named(Cut(slots, k)) && Chains(Cut(slots, k), home - {p})
    ensures forall x :: x in Cut(slots, k) ==> x in slots && x != p
  {
    hide Linked, Named, Homes, Chains, Cut;
    LinkedOnce(head, slots);
    CutHas(slots, k);
    NamedLess(slots, k);
    ChainsHome(slots, home);
    var rest := Cut(slots, k);
    LessHome(slots, rest, home, p);
    ChainsLess(slots, rest, home, p);
  }

  lemma ChainsLess(slots: seq<LocoSlot>, rest: seq<LocoSlot>, home: map<LocoSlot, seq<LocoSlot>>, p: LocoSlot)
    requires Chains(slots, home) && Homes(rest, home - {p}) && forall x :: x in rest ==> x in slots && x != p
    ensures Chains(rest, home - {p})
  {
    hide Chain;
    forall s | s in rest ensures HomeOk(rest, home - {p}, s) && Chain((home - {p})[s]) {
      assert HomeOk(rest, home - {p}, s);
    }
  }

  lemma PartedIs(home: map<LocoSlot, seq<LocoSlot>>, c: seq<LocoSlot>)
    ensures Parted(home, c).Keys == home.Keys
    ensures forall s :: s in home ==> Parted(home, c)[s] == if s in c then [s] else home[s]
  {
  }

  /** The first n locos of the list, reversed as it says, but for the lead's flag. */
  ghost predicate ReadsAs(p: seq<int>, c: seq<LocoSlot>, n: nat)
    reads SlotsOf(c)`loco, SlotsOf(c)`consistReverse
  {
    && |c| == n > 0 && n <= |p|
    && forall k :: 0 <= k < n ==> c[k].loco == Abs(p[k]) && (k > 0 ==> c[k].consistReverse == (p[k] < 0))
  }

  /** All the locos of the list, each reversed as it says. */
  ghost predicate BuiltAs(p: seq<int>, c: seq<LocoSlot>)
    reads SlotsOf(c)`loco, SlotsOf(c)`consistReverse
  {
    |c| == |p| && forall k :: 0 <= k < |p| ==> c[k].loco == Abs(p[k]) && c[k].consistReverse == (p[k] < 0)
  }

  lemma Lead(slots: seq<LocoSlot>, home: map<LocoSlot, seq<LocoSlot>>, c: seq<LocoSlot>)
    requires c != [] && Sharing(slots, home, c)
    ensures c[0] in slots && c[0] in home && home[c[0]] == c
  {
  }

  /** A chain as the table has it. */
  ghost predicate Sharing(slots: seq<LocoSlot>, home: map<LocoSlot, seq<LocoSlot>>, c: seq<LocoSlot>) {
    forall k :: 0 <= k < |c| ==> c[k] in slots && c[k] in home && home[c[k]] == c
  }

  /** The locos of the list from the i-th on are in no consist. */
  ghost predicate AloneFrom(slots: seq<LocoSlot>, home: map<LocoSlot, seq<LocoSlot>>, p: seq<int>, i: nat)
    reads slots`loco
  {
    forall s, k :: s in slots && i <= k < |p| && s.loco == Abs(p[k]) ==> s in home && home[s] == [s]
  }

  lemma NextReads(p: seq<int>, c: seq<LocoSlot>, a: LocoSlot, i: nat)
    requires 1 <= i < |p| && ReadsAs(p, c, i) && a.loco == Abs(p[i]) && a.consistReverse == (p[i] < 0)
    ensures ReadsAs(p, c + [a], i + 1)
  {
  }

  lemma NextShares(slots: seq<LocoSlot>, home: map<LocoSlot, seq<LocoSlot>>, c: seq<LocoSlot>, a: LocoSlot)
    requires Sharing(slots, home, c) && a in slots && a in home
    ensures Sharing(slots, Joined(home, c + [a]), c + [a])
  {
  }

  lemma NextAlone(slots: seq<LocoSlot>, home0: map<LocoSlot, seq<LocoSlot>>, home: map<LocoSlot, seq<LocoSlot>>,
                  p: seq<int>, c: seq<LocoSlot>, a: LocoSlot, i: nat)
    requires IdsOk(p) && 1 <= i < |p| && ReadsAs(p, c, i) && a.loco == Abs(p[i]) && AloneFrom(slots, home0, p, i)
    requires home.Keys == home0.Keys && forall s :: s in home0 ==> home[s] == if s in c + [a] then c + [a] else home0[s]
    ensures AloneFrom(slots, home, p, i + 1)
  {
    forall s, k | s in slots && i + 1 <= k < |p| && s.loco == Abs(p[k]) ensures s in home && home[s] == [s] {
      assert s in home0 && home0[s] == [s];
      assert forall j :: 0 <= j < |c| ==> Abs(p[j]) != Abs(p[k]);
      assert s !in c + [a];
    }
  }

  function Abs(x: int): nat {
    if x < 0 then -x else x
  }

  predicate IdsOk(p: seq<int>) {
    && (forall k :: 0 <= k < |p| ==> InRange(Abs(p[k])))
    && (forall k, l :: 0 <= k < l < |p| ==> Abs(p[k]) != Abs(p[l]))
  }

  lemma ChainStarts(c: seq<LocoSlot>)
    requires Chain(c)
    ensures c != []
  {
  }

  lemma AloneApart(slots: seq<LocoSlot>, home: map<LocoSlot, seq<LocoSlot>>, a: LocoSlot)
    requires Homes(slots, home) && a in slots && home[a] == [a]
    ensures forall t :: t in slots && t != a ==> a !in home[t]
  {
    forall t | t in slots && t != a ensures a !in home[t] {
      HomesApart(slots, home, a, t);
    }
  }

  lemma JoinedChains(slots: seq<LocoSlot>, home: map<LocoSlot, seq<LocoSlot>>, c: seq<LocoSlot>)
    requires (forall s :: s in slots ==> s in home) && Homes(slots, Joined(home, c)) && Chain(c)
    requires forall s :: s in slots && s in home && s !in c ==> Chain(home[s])
    ensures Chains(slots, Joined(home, c))
  {
    hide Chain;
    forall s | s in slots ensures Chain(Joined(home, c)[s]) {
    }
  }

  lemma OnlyOne(slots: seq<LocoSlot>, s: LocoSlot)
    requires Named(slots) && s in slots
    ensures forall t :: t in slots && t.loco == s.loco ==> t == s
  {
  }

  lemma SinglePart(slots: seq<LocoSlot>, home: map<LocoSlot, seq<LocoSlot>>, s: LocoSlot)
    requires Homes(slots, home) && s in slots && |home[s]| == 1
    ensures home == Parted(home, home[s]) && home[s] == [s]
  {
    assert HomeOk(slots, home, s);
    assert home[s] == [s];
    assert forall x :: x in home ==> home[x] == Parted(home, home[s])[x];
  }

  lemma OthersApart(slots: seq<LocoSlot>, home: map<LocoSlot, seq<LocoSlot>>, s: LocoSlot)
    requires Homes(slots, home) && s in slots
    ensures forall t, x :: t in slots && t !in home[s] && x in home[t] ==> x !in home[s]
  {
    forall t | t in slots && t !in home[s] ensures forall x :: x in home[t] ==> x !in home[s] {
      HomesApart(slots, home, s, t);
    }
  }

  lemma PartedChains(slots: seq<LocoSlot>, home: map<LocoSlot, seq<LocoSlot>>, c: seq<LocoSlot>)
    requires (forall s :: s in slots ==> s in home) && Homes(slots, Parted(home, c))
    requires forall k :: 0 <= k < |c| ==> c[k].consistLead == null && c[k].consistNext == null && !c[k].consistReverse
    requires forall s :: s in slots && s !in c ==> Chain(home[s])
    ensures Chains(slots, Parted(home, c))
  {
    forall s | s in slots ensures Chain(Parted(home, c)[s]) {
      if s in c {
        var k :| 0 <= k < |c| && c[k] == s;
      }
    }
  }

  lemma ChainsHome(slots: seq<LocoSlot>, home: map<LocoSlot, seq<LocoSlot>>)
    requires Chains(slots, home)
    ensures Homes(slots, home) && forall s :: s in slots ==> s in home
  {
  }

  lemma JoinedIs(home: map<LocoSlot, seq<LocoSlot>>, c: seq<LocoSlot>)
    ensures Joined(home, c).Keys == home.Keys
    ensures forall s :: s in home ==> Joined(home, c)[s] == if s in c then c else home[s]
  {
  }

  lemma EachHasHome(slots: seq<LocoSlot>, home: map<LocoSlot, seq<LocoSlot>>)
    requires Chains(slots, home)
    ensures forall s :: s in slots ==> s in home
  {
  }

  lemma InOwnHome(slots: seq<LocoSlot>, home: map<LocoSlot, seq<LocoSlot>>, s: LocoSlot)
    requires Chains(slots, home) && s in slots
    ensures s in home && s in home[s]
  {
    assert HomeOk(slots, home, s);
  }

  /** What adding a to l's consist does to the chains: a, which was alone, is now the last of l's
      chain, and all others are as they were. */
  ghost predicate Added(slots0: seq<LocoSlot>, home0: map<LocoSlot, seq<LocoSlot>>, home: map<LocoSlot, seq<LocoSlot>>,
                        l: LocoSlot, a: LocoSlot)
  {
    && l in home && a in home
    && WasHome(slots0, home0, a) == [a]
    && home[l] == WasHome(slots0, home0, l) + [a] && home[a] == home[l]
    && forall s :: s in slots0 && s !in home[l] ==> s in home && s in home0 && home[s] == home0[s]
  }

  /** What was added since the first slot was obtained was added since before that. */
  lemma AddedSince(slots0: seq<LocoSlot>, home0: map<LocoSlot, seq<LocoSlot>>, slots1: seq<LocoSlot>,
                   home1: map<LocoSlot, seq<LocoSlot>>, home: map<LocoSlot, seq<LocoSlot>>, l: LocoSlot, a: LocoSlot)
    requires Added(slots1, home1, home, l, a) && l != a && l in slots1 && l in home1
    requires forall s :: s in slots0 ==> s in slots1 && s in home0 && s in home1 && home1[s] == home0[s]
    requires home1[l] == WasHome(slots0, home0, l) && forall s :: s in slots1 && s !in slots0 ==> s == l
    ensures Added(slots0, home0, home, l, a)
  {
  }

  lemma AddedUp(slots0: seq<LocoSlot>, home0: map<LocoSlot, seq<LocoSlot>>, home1: map<LocoSlot, seq<LocoSlot>>,
                home: map<LocoSlot, seq<LocoSlot>>, l: LocoSlot, a: LocoSlot, c: seq<LocoSlot>)
    requires l in home1 && a in home1 && l in c && home == Joined(home1, c + [a])
    requires c == WasHome(slots0, home0, l) && home1[a] == [a] && WasHome(slots0, home0, a) == [a]
    requires forall s :: s in slots0 ==> s in home0 && s in home1 && home1[s] == home0[s]
    ensures Added(slots0, home0, home, l, a)
  {
  }

  /** A slot that was obtained since, and is alone, is in no chain there was. */
  lemma StillApart(slots: seq<LocoSlot>, home: map<LocoSlot, seq<LocoSlot>>, lead: LocoSlot, l: LocoSlot, a: LocoSlot)
    requires Chains(slots, home) && lead in slots && l in slots && a in slots && lead in home && l in home && a in home
    requires l in home[lead] && l != a
    ensures home[a] == [a] ==> a !in home[lead]
  {
    assert HomeOk(slots, home, lead) && HomeOk(slots, home, a);
  }

  lemma ChainsEach(slots: seq<LocoSlot>, home: map<LocoSlot, seq<LocoSlot>>)
    requires Chains(slots, home)
    ensures forall s :: s in slots ==> s in home && Chain(home[s])
  {
  }

  lemma NamedMore(slots: seq<LocoSlot>, p: LocoSlot)
    requires Named(slots) && p.loco != 0 && forall s :: s in slots ==> s.loco != p.loco
    ensures Named([p] + slots)
  {
  }

  lemma NewChains(slots: seq<LocoSlot>, home: map<LocoSlot, seq<LocoSlot>>, p: LocoSlot)
    requires Chains(slots, home) && p !in slots && Homes([p] + slots, home[p := [p]])
    requires p.consistLead == null && p.consistNext == null && !p.consistReverse
    ensures Chains([p] + slots, home[p := [p]])
  {
    forall s | s in [p] + slots ensures Chain(home[p := [p]][s]) {
      if s != p { assert HomeOk(slots, home, s); }
    }
  }

  lemma AloneNow(slots: seq<LocoSlot>, home0: map<LocoSlot, seq<LocoSlot>>, home: map<LocoSlot, seq<LocoSlot>>,
                 broken: seq<LocoSlot>, p: seq<int>)
    requires Homes(slots, home0) && p != []
    requires broken != [] ==>
               broken[0] in slots && broken[0].loco == Abs(p[0]) && broken[0] in home0 && broken == home0[broken[0]]
    requires forall s :: s in slots && Locos.Leads(home0, s, Abs(p[0])) ==> broken == home0[s]
    requires forall s :: s in slots ==> s in home && s in home0 && home[s] == if s in broken then [s] else home0[s]
    ensures AloneFrom(slots, home, p, 0) <==> FreeToBuild(slots, home0, p)
  {
    if FreeToBuild(slots, home0, p) {
      forall s, k | s in slots && 0 <= k < |p| && s.loco == Abs(p[k]) ensures home[s] == [s] {
        if home0[s] != [s] { LedApart(slots, home0, s, broken, p); }
      }
    }
    if AloneFrom(slots, home, p, 0) {
      forall s, k | s in slots && 0 <= k < |p| && s.loco == Abs(p[k])
        ensures home0[s] == [s] || (home0[s] != [] && home0[s][0] in slots && home0[s][0].loco == Abs(p[0]))
      {
        assert home[s] == [s];
        if s in broken { assert HomeOk(slots, home0, broken[0]); }
      }
    }
  }

  lemma LedApart(slots: seq<LocoSlot>, home: map<LocoSlot, seq<LocoSlot>>, s: LocoSlot, broken: seq<LocoSlot>,
      p: seq<int>)
    requires Homes(slots, home) && s in slots && s in home && home[s] != [s] && p != []
    requires home[s] != [] && home[s][0] in slots && home[s][0].loco == Abs(p[0])
    requires forall t :: t in slots && Locos.Leads(home, t, Abs(p[0])) ==> broken == home[t]
    ensures s in broken
  {
    assert HomeOk(slots, home, s);
    var t := home[s][0];
    assert t in home[s] && home[t] == home[s];
    assert |home[t]| > 1;
    assert Locos.Leads(home, t, Abs(p[0]));
  }
}

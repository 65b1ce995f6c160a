/**
 Loco slots: the chain of the table they are in, and the consist chains through them.
 */
module LocoSlots {
  import opened Basics
  import opened Reminders

  class LocoSlot {
    var next: LocoSlot?
    var consistLead: LocoSlot?
    var consistNext: LocoSlot?
    var consistReverse: bool
    var loco: Word
    var targetSpeed: bv8
    var speedCode: bv8
    var groups: Groups            // groupFlags

    constructor ()
      ensures next == null && consistLead == null && consistNext == null && !consistReverse && loco == 0
    {
      next, consistLead, consistNext, consistReverse, loco := null, null, null, false, 0;
      targetSpeed, speedCode := 128, 128;
      groups := [false, false, false, false, false];
    }

    predicate IsConsistLead()
      reads `consistNext, `consistLead
    {
      consistNext != null && consistLead == null
    }

    predicate IsConsistFollower()
      reads `consistLead
    {
      consistLead != null
    }
  }

  /** The slot at a position, null past the end. */
  ghost function At(s: seq<LocoSlot>, i: nat): (p: LocoSlot?)
    ensures p == null <==> i >= |s|
  {
    if i < |s| then s[i] else null
  }

  ghost function SlotsOf(s: seq<LocoSlot>): (r: set<LocoSlot>)
    ensures forall x :: x in r ==> x in s
    ensures forall x :: x in s ==> x in r
  {
    set x | x in s
  }

  ghost predicate Distinct(s: seq<LocoSlot>) {
    forall i, j :: 0 <= i < j < |s| ==> s[i] != s[j]
  }

  // ---------------------------------------------------------------- the table's chain

  ghost predicate Linked(head: LocoSlot?, s: seq<LocoSlot>)
    reads s`next
  {
    Distinct(s) && head == At(s, 0) && forall i :: 0 <= i < |s| ==> s[i].next == At(s, i + 1)
  }

  lemma LinkedFront(p: LocoSlot, head: LocoSlot?, s: seq<LocoSlot>)
    requires Linked(head, s) && p !in s && p.next == head
    ensures Linked(p, [p] + s)
  {
    var all := [p] + s;
    forall i | 0 <= i < |all| ensures all[i].next == At(all, i + 1) {
      if i > 0 { assert all[i] == s[i - 1]; }
    }
  }

  lemma LinkedTail(head: LocoSlot?, s: seq<LocoSlot>)
    requires Linked(head, s) && s != []
    ensures head == s[0] && Linked(s[0].next, s[1..]) && s[0] !in s[1..]
  {
    forall i | 0 <= i < |s[1..]| ensures s[1..][i].next == At(s[1..], i + 1) {
      assert s[1..][i] == s[i + 1];
    }
  }

  lemma LinkedHead(head: LocoSlot?, s: seq<LocoSlot>)
    requires Linked(head, s)
    ensures head == At(s, 0)
  {
  }

  /** Every loco has one slot, and none has the number 0. */
  ghost predicate Named(s: seq<LocoSlot>)
    reads s`loco
  {
    && (forall i :: 0 <= i < |s| ==> s[i].loco != 0)
    && (forall i, j :: 0 <= i < j < |s| ==> s[i].loco != s[j].loco)
  }

  // ---------------------------------------------------------------- consist chains

  /** Each slot of the table has a chain, alone or with others, and all in it have the same. */
  ghost predicate Homes(slots: seq<LocoSlot>, home: map<LocoSlot, seq<LocoSlot>>) {
    && (forall s :: s in home ==> s in slots)
    && (forall s :: s in slots ==> HomeOk(slots, home, s))
  }

  ghost predicate HomeOk(slots: seq<LocoSlot>, home: map<LocoSlot, seq<LocoSlot>>, s: LocoSlot) {
    s in home && s in home[s] && Distinct(home[s])
    && forall t :: t in home[s] ==> t in slots && t in home && home[t] == home[s]
  }

  /** A chain as its slots have it: the lead has no lead, every follower has that lead, and each but
      the last has the next; a loco alone is not reversed. */
  ghost predicate Chain(c: seq<LocoSlot>)
    reads SlotsOf(c)`consistNext, SlotsOf(c)`consistLead, SlotsOf(c)`consistReverse
  {
    && c != []
    && (forall i :: 0 <= i < |c| ==>
            c[i].consistNext == At(c, i + 1) && c[i].consistLead == if i == 0 then null else c[0])
    && (|c| == 1 ==> !c[0].consistReverse)
  }

  ghost predicate Chains(slots: seq<LocoSlot>, home: map<LocoSlot, seq<LocoSlot>>)
    reads slots`consistNext, slots`consistLead, slots`consistReverse
  {
    Homes(slots, home) && forall s :: s in slots ==> HomeOk(slots, home, s) && Chain(home[s])
  }

  /** What a slot is in its chain, as its fields tell. */
  lemma RoleIs(c: seq<LocoSlot>, i: nat)
    requires Chain(c) && i < |c|
    ensures c[i].IsConsistLead() <==> i == 0 && |c| > 1
    ensures c[i].IsConsistFollower() <==> i > 0
    ensures i > 0 ==> c[i].consistLead == c[0]
    ensures c[i].consistNext == At(c, i + 1)
  {
  }

  /** New chains for old: these slots get one together or one each, the rest keep theirs. */
  ghost function Joined(home: map<LocoSlot, seq<LocoSlot>>, c: seq<LocoSlot>): map<LocoSlot, seq<LocoSlot>> {
    map s | s in home :: if s in c then c else home[s]
  }

  ghost function Parted(home: map<LocoSlot, seq<LocoSlot>>, c: seq<LocoSlot>): map<LocoSlot, seq<LocoSlot>> {
    map s | s in home :: if s in c then [s] else home[s]
  }

  lemma HomesApart(slots: seq<LocoSlot>, home: map<LocoSlot, seq<LocoSlot>>, s: LocoSlot, t: LocoSlot)
    requires Homes(slots, home) && s in slots && t in slots && t !in home[s]
    ensures forall x :: x in home[s] ==> x !in home[t]
  {
    assert HomeOk(slots, home, s) && HomeOk(slots, home, t);
  }

  /** A chain and a loco alone become one chain. */
  lemma JoinHomes(slots: seq<LocoSlot>, home: map<LocoSlot, seq<LocoSlot>>, s: LocoSlot, a: LocoSlot)
    requires Homes(slots, home) && s in slots && a in slots && home[a] == [a] && a !in home[s]
    ensures Homes(slots, Joined(home, home[s] + [a]))
  {
    var c := home[s] + [a];
    var home' := Joined(home, c);
    assert HomeOk(slots, home, s) && HomeOk(slots, home, a);
    forall x | x in slots ensures HomeOk(slots, home', x) {
      assert HomeOk(slots, home, x);
      if x !in c {
        HomesApart(slots, home, s, x);
        assert a !in home[x];
      }
    }
  }

  /** A chain falls apart into locos alone. */
  lemma PartHomes(slots: seq<LocoSlot>, home: map<LocoSlot, seq<LocoSlot>>, s: LocoSlot)
    requires Homes(slots, home) && s in slots
    ensures Homes(slots, Parted(home, home[s]))
  {
    var c := home[s];
    var home' := Parted(home, c);
    assert HomeOk(slots, home, s);
    forall x | x in slots ensures HomeOk(slots, home', x) {
      assert HomeOk(slots, home, x);
      if x !in c { HomesApart(slots, home, s, x); }
    }
  }

  /** A slot that is new to the table. */
  lemma NewHome(slots: seq<LocoSlot>, home: map<LocoSlot, seq<LocoSlot>>, p: LocoSlot)
    requires Homes(slots, home) && p !in slots
    ensures Homes([p] + slots, home[p := [p]])
  {
    var home' := home[p := [p]];
    forall x | x in [p] + slots ensures HomeOk([p] + slots, home', x) {
      if x != p { assert HomeOk(slots, home, x); }
    }
  }

  /** A slot that leaves the table, alone. */
  lemma LessHome(slots: seq<LocoSlot>, rest: seq<LocoSlot>, home: map<LocoSlot, seq<LocoSlot>>, p: LocoSlot)
    requires Homes(slots, home) && p in slots && home[p] == [p]
    requires (forall x :: x in rest ==> x in slots && x != p) && (forall x :: x in slots && x != p ==> x in rest)
    ensures Homes(rest, home - {p})
  {
    forall x | x in rest ensures HomeOk(rest, home - {p}, x) {
      assert HomeOk(slots, home, x) && HomeOk(slots, home, p);
      HomesApart(slots, home, p, x);
    }
  }

  /** What the table keeps: two locos share one chain or their chains share nobody, no chain comes
      back to a slot it has been through, and a follower's lead is the head of its chain, which
      follows nobody. */
  lemma ChainsAreApart(slots: seq<LocoSlot>, home: map<LocoSlot, seq<LocoSlot>>, s: LocoSlot, t: LocoSlot)
    requires Chains(slots, home) && s in slots && t in slots
    ensures s in home && t in home && s in home[s] && Distinct(home[s])
    ensures home[s] == home[t] || forall x :: x in home[s] ==> x !in home[t]
    ensures s.IsConsistFollower() ==> s.consistLead == home[s][0] && s != home[s][0] && !home[s][0].IsConsistFollower()
  {
    assert HomeOk(slots, home, s) && HomeOk(slots, home, t);
    var c := home[s];
    var i :| 0 <= i < |c| && c[i] == s;
    RoleIs(c, i);
    RoleIs(c, 0);
    if t !in c { HomesApart(slots, home, s, t); }
  }
}

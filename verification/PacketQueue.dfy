/**
 The packet queues in place: linked lists of slots that are used again and again, a high and a low
 priority one and the list of those to recycle.
 */
module PacketQueue {
  import opened Basics
  import opened QueueSpec
  import opened QueueTurns

  class PendingSlot {
    var next: PendingSlot?
    var kind: Kind
    var length: Byte
    var repeat: Byte
    var packet: Buffer            // inside the slot
    var shared: Word32            // locoId, delayOff and startTime

    constructor (buffer: Buffer)
      ensures packet == buffer && next == null
    {
      next, kind, length, repeat, packet, shared := null, DeadPacket, 0, 0, buffer, 0;
    }

    ghost function Value(): Slot
      reads `kind, `length, `repeat, `packet, `shared
    {
      Slot(kind, length, repeat, packet, shared)
    }
  }

  /** The node at a position of a list, null past its end. */
  ghost function At(nodes: seq<PendingSlot>, i: nat): (p: PendingSlot?)
    ensures p == null <==> i >= |nodes|
  {
    if i < |nodes| then nodes[i] else null
  }

  /** A list: from head along next through exactly these nodes, none of them twice. */
  ghost predicate Linked(head: PendingSlot?, nodes: seq<PendingSlot>)
    reads nodes`next
  {
    && head == At(nodes, 0)
    && (forall i, j :: 0 <= i < j < |nodes| ==> nodes[i] != nodes[j])
    && (forall i :: 0 <= i < |nodes| ==> nodes[i].next == At(nodes, i + 1))
  }

  lemma LinkedTail(head: PendingSlot?, nodes: seq<PendingSlot>)
    requires Linked(head, nodes) && nodes != []
    ensures head == nodes[0] && Linked(nodes[0].next, nodes[1..]) && nodes[0] !in nodes[1..]
  {
    forall i | 0 <= i < |nodes[1..]| ensures nodes[1..][i].next == At(nodes[1..], i + 1) {
      assert nodes[1..][i] == nodes[i + 1];
    }
  }

  lemma LinkedNull(head: PendingSlot?, nodes: seq<PendingSlot>)
    requires Linked(head, nodes)
    ensures head == null <==> nodes == []
  {
  }

  lemma HeadIs(head: PendingSlot?, nodes: seq<PendingSlot>)
    requires Linked(head, nodes)
    ensures head == At(nodes, 0)
  {
  }

  lemma AtIs(nodes: seq<PendingSlot>, i: nat)
    ensures At(nodes, i) == if i < |nodes| then nodes[i] else null
  {
  }

  /** Two lists with a common rest agree on what comes next. */
  lemma AtFrom(a: seq<PendingSlot>, k: nat, b: seq<PendingSlot>, i: nat)
    requires k < |a| && i < |b| && a[k..] == b[i..]
    ensures At(a, k + 1) == At(b, i + 1) && a[k] == b[i]
    ensures a[k + 1..] == b[i + 1..] && Cut(a, k)[k..] == b[i + 1..]
  {
    assert a[k..][1..] == a[k + 1..] && b[i..][1..] == b[i + 1..];
    assert |a[k..]| == |b[i..]|;
    if k + 1 < |a| { assert a[k..][1] == b[i..][1]; }
    assert a[k..][0] == b[i..][0];
  }

  lemma SlotsToo(nodes: seq<PendingSlot>, slots: seq<Slot>)
    requires Holds(nodes, slots)
    ensures |slots| == |nodes|
  {
  }

  /** The next slot of a queue under an estop. */
  lemma SurvivorsStep(s: seq<Slot>, loco: Word, i: nat, kept: seq<Slot>)
    requires i < |s| && Survivors(s, loco) == kept + Survivors(s[i..], loco)
    ensures Survives(s[i], loco) ==>
              Survivors(s, loco) == (kept + [s[i]]) + Survivors(s[i + 1..], loco)
              && kept + s[i..] == (kept + [s[i]]) + s[i + 1..]
    ensures !Survives(s[i], loco) ==>
              Survivors(s, loco) == kept + Survivors(s[i + 1..], loco)
              && Cut(kept + s[i..], |kept|) == kept + s[i + 1..]
  {
    hide Survives, Survivors, Cut;
    assert s[i..][0] == s[i] && s[i..][1..] == s[i + 1..];
    SurvivorsFront(s[i..], loco);
    KeptJoin(kept, s[i], Survivors(s[i + 1..], loco));
    KeptJoin(kept, s[i], s[i + 1..]);
    assert s[i..] == [s[i]] + s[i + 1..];
  }

  lemma SurvivorsFront(s: seq<Slot>, loco: Word)
    requires s != []
    ensures Survivors(s, loco) ==
              if Survives(s[0], loco) then [s[0]] + Survivors(s[1..], loco) else Survivors(s[1..], loco)
  {
    hide Survives;
  }

  lemma KeptJoin(kept: seq<Slot>, x: Slot, rest: seq<Slot>)
    ensures kept + ([x] + rest) == (kept + [x]) + rest
    ensures Cut(kept + ([x] + rest), |kept|) == kept + rest
  {
  }

  /** Half way through an estop's walk of the high queue: the slots that stay, then the rest. */
  ghost predicate Purging(was: seq<PendingSlot>, slots0: seq<Slot>, kept: seq<Slot>, i: nat,
                          nodes: seq<PendingSlot>, slots: seq<Slot>, loco: Word)
  {
    && i <= |was| == |slots0| && |nodes| == |slots| && |kept| <= |nodes| && nodes[|kept|..] == was[i..]
    && slots == kept + slots0[i..] && Survivors(slots0, loco) == kept + Survivors(slots0[i..], loco)
  }

  lemma PurgingStarts(was: seq<PendingSlot>, slots0: seq<Slot>, loco: Word)
    requires |was| == |slots0|
    ensures Purging(was, slots0, [], 0, was, slots0, loco)
  {
    hide Survives, Survivors;
    assert slots0[0..] == slots0 && [] + slots0 == slots0 && [] + Survivors(slots0, loco) == Survivors(slots0, loco);
  }

  lemma PurgingStep(was: seq<PendingSlot>, slots0: seq<Slot>, kept: seq<Slot>, i: nat,
                    nodes: seq<PendingSlot>, slots: seq<Slot>, loco: Word)
    requires Purging(was, slots0, kept, i, nodes, slots, loco) && At(was, i) != null
    ensures i < |was| == |slots0| && |kept| < |nodes| == |slots|
    ensures nodes[|kept|] == At(was, i) && slots[|kept|] == slots0[i]
    ensures At(nodes, |kept| + 1) == At(was, i + 1)
    ensures Survives(slots0[i], loco) ==> Purging(was, slots0, kept + [slots0[i]], i + 1, nodes, slots, loco)
    ensures !Survives(slots0[i], loco) ==>
              Purging(was, slots0, kept, i + 1, Cut(nodes, |kept|), Cut(slots, |kept|), loco)
  {
    hide Survives, Survivors;
    assert |nodes[|kept|..]| == |was[i..]|;
    AtFrom(nodes, |kept|, was, i);
    SurvivorsStep(slots0, loco, i, kept);
  }

  lemma PurgingEnds(was: seq<PendingSlot>, slots0: seq<Slot>, kept: seq<Slot>, i: nat,
                    nodes: seq<PendingSlot>, slots: seq<Slot>, loco: Word)
    requires Purging(was, slots0, kept, i, nodes, slots, loco) && At(was, i) == null
    ensures slots == Survivors(slots0, loco)
  {
    assert slots0[i..] == [] && kept + [] == kept;
  }

  lemma LinkedOnce(head: PendingSlot?, nodes: seq<PendingSlot>)
    requires Linked(head, nodes)
    ensures forall i, j :: 0 <= i < j < |nodes| ==> nodes[i] != nodes[j]
  {
  }

  lemma LinkedFront(p: PendingSlot, head: PendingSlot?, nodes: seq<PendingSlot>)
    requires Linked(head, nodes) && p !in nodes && p.next == head
    ensures Linked(p, [p] + nodes)
  {
    var all := [p] + nodes;
    forall i | 0 <= i < |all| ensures all[i].next == At(all, i + 1) {
      if i > 0 { assert all[i] == nodes[i - 1]; }
    }
  }

  /** Each slot ever made is in exactly one place, once: in a queue, in the recycle list, or out. */
  ghost predicate Parts(high: seq<PendingSlot>, low: seq<PendingSlot>, free: seq<PendingSlot>, out: seq<PendingSlot>,
                        made: set<PendingSlot>)
  {
    multiset(high) + multiset(low) + multiset(free) + multiset(out) == multiset(made)
  }

  ghost predicate Disjoint(a: seq<PendingSlot>, b: seq<PendingSlot>) {
    forall p :: p in a ==> p !in b
  }

  ghost predicate AllIn(a: seq<PendingSlot>, s: set<PendingSlot>) {
    forall p :: p in a ==> p in s
  }

  /** So no two places share a slot, and together they have as many as were made. */
  lemma Apart(high: seq<PendingSlot>, low: seq<PendingSlot>, free: seq<PendingSlot>, out: seq<PendingSlot>,
              made: set<PendingSlot>)
    requires Parts(high, low, free, out, made)
    ensures Disjoint(high, low) && Disjoint(high, free) && Disjoint(low, free)
    ensures Disjoint(out, high) && Disjoint(out, low) && Disjoint(out, free)
    ensures AllIn(high, made) && AllIn(low, made) && AllIn(free, made) && AllIn(out, made)
    ensures |made| == |high| + |low| + |free| + |out|
  {
    assert |made| == |multiset(made)|;
    assert |multiset(high) + multiset(low)| == |high| + |low|;
    forall p ensures multiset(high)[p] + multiset(low)[p] + multiset(free)[p] + multiset(out)[p] == multiset(made)[p] {
      var hl := multiset(high) + multiset(low);
      var hlf := hl + multiset(free);
      assert (hlf + multiset(out))[p] == multiset(made)[p];
    }
    forall p | p in high || p in low || p in free || p in out ensures p in made {
      assert multiset(made)[p] > 0;
    }
    forall p | p in high ensures p !in low && p !in free && p !in out {
      assert multiset(high)[p] >= 1 && multiset(made)[p] <= 1;
    }
    forall p | p in low ensures p !in free && p !in out {
      assert multiset(low)[p] >= 1 && multiset(made)[p] <= 1;
    }
    forall p | p in free ensures p !in out {
      assert multiset(free)[p] >= 1 && multiset(made)[p] <= 1;
    }
  }

  lemma TakeParts(high: seq<PendingSlot>, low: seq<PendingSlot>, free: seq<PendingSlot>, made: set<PendingSlot>)
    requires Parts(high, low, free, [], made) && free != []
    ensures Parts(high, low, free[1..], [free[0]], made)
  {
    assert free == [free[0]] + free[1..];
  }

  lemma NewParts(high: seq<PendingSlot>, low: seq<PendingSlot>, p: PendingSlot, made: set<PendingSlot>)
    requires Parts(high, low, [], [], made) && p !in made
    ensures Parts(high, low, [], [p], made + {p})
  {
    assert multiset(made + {p}) == multiset(made) + multiset{p};
    assert multiset([p]) == multiset{p};
  }

  lemma PlaceParts(high: seq<PendingSlot>, low: seq<PendingSlot>, free: seq<PendingSlot>, p: PendingSlot,
                   made: set<PendingSlot>)
    requires Parts(high, low, free, [p], made)
    ensures Parts([p] + high, low, free, [], made) && Parts(high + [p], low, free, [], made)
    ensures Parts(high, low + [p], free, [], made)
    ensures Parts(high, low, [p] + free, [], made)
  {
  }

  lemma CutParts(high: seq<PendingSlot>, low: seq<PendingSlot>, free: seq<PendingSlot>, k: nat, made: set<PendingSlot>)
    requires Parts(high, low, free, [], made)
    ensures k < |high| ==> Parts(Cut(high, k), low, free, [high[k]], made)
    ensures k < |low| ==> Parts(high, Cut(low, k), free, [low[k]], made)
  {
    if k < |high| { assert high == high[..k] + [high[k]] + high[k + 1..]; }
    if k < |low| { assert low == low[..k] + [low[k]] + low[k + 1..]; }
  }

  /** What the slots of a list hold; relinking does not change it. */
  ghost predicate Holds(nodes: seq<PendingSlot>, slots: seq<Slot>)
    reads nodes`kind, nodes`length, nodes`repeat, nodes`packet, nodes`shared
  {
    |slots| == |nodes| && forall i :: 0 <= i < |nodes| ==> nodes[i].Value() == slots[i]
  }

  lemma HoldsMore(p: PendingSlot, nodes: seq<PendingSlot>, slots: seq<Slot>)
    requires Holds(nodes, slots)
    ensures Holds(nodes + [p], slots + [p.Value()]) && Holds([p] + nodes, [p.Value()] + slots)
  {
  }

  lemma HoldsLess(nodes: seq<PendingSlot>, slots: seq<Slot>, k: nat)
    requires Holds(nodes, slots) && k < |nodes|
    ensures Holds(Cut(nodes, k), Cut(slots, k))
  {
  }

  lemma JoinAt(was: seq<PendingSlot>, p: PendingSlot)
    ensures forall j: nat :: At(was + [p], j) == if j < |was| then was[j] else if j == |was| then p else null
  {
  }

  lemma CutShape(was: seq<PendingSlot>, i: nat)
    requires i < |was| && forall j, k :: 0 <= j < k < |was| ==> was[j] != was[k]
    ensures var now := Cut(was, i);
            && |now| == |was| - 1
            && (forall j :: 0 <= j < |now| ==> now[j] == was[if j < i then j else j + 1])
            && (forall j, k :: 0 <= j < k < |now| ==> now[j] != now[k])
            && (forall j: nat :: At(now, j) == At(was, if j < i then j else j + 1))
  {
  }

  lemma HoldsAt(nodes: seq<PendingSlot>, slots: seq<Slot>, k: nat)
    requires Holds(nodes, slots) && k < |nodes|
    ensures nodes[k].Value() == slots[k]
  {
  }

  /** DCCQueue: one queue. */
  class PacketList {
    var head: PendingSlot?
    var tail: PendingSlot?
    ghost var nodes: seq<PendingSlot>
    ghost var slots: seq<Slot>

    ghost predicate Chain()
      reads this, nodes`next
    {
      && Linked(head, nodes)
      && tail == (if nodes == [] then null else nodes[|nodes| - 1])
    }

    ghost predicate Valid()
      reads this, nodes
    {
      Chain() && Holds(nodes, slots)
    }

    constructor ()
      ensures Valid() && nodes == [] && slots == []
    {
      head, tail, nodes, slots := null, null, [], [];
    }

    /** To the end. */
    method AddQueue(p: PendingSlot)
      requires Valid() && p !in nodes
      modifies this, p`next, (if tail == null then {} else {tail})`next
      ensures Valid() && nodes == old(nodes) + [p] && slots == old(slots) + [p.Value()]
    {
      hide Linked, Holds;
      HoldsMore(p, nodes, slots);
      LinkLast(p);
      slots := slots + [p.Value()];
    }

    method LinkLast(p: PendingSlot)
      requires Chain() && p !in nodes
      modifies `head, `tail, `nodes, p`next, (if tail == null then {} else {tail})`next
      ensures Chain() && nodes == old(nodes) + [p]
    {
      hide At;
      ghost var was := nodes;
      JoinAt(was, p);
      AtIs(was, 0);
      AtIs(was, |was|);
      AtIs(was + [p], |was|);
      if tail != null {
        tail.next := p;
      } else {
        head := p;
      }
      tail := p;
      p.next := null;
      nodes := nodes + [p];
      forall i | 0 <= i < |nodes| ensures nodes[i].next == At(nodes, i + 1) {
        AtIs(was, i + 1);
        if i < |was| { assert nodes[i] == was[i]; }
      }
    }

    /** To the front. */
    method JumpQueue(p: PendingSlot)
      requires Valid() && p !in nodes
      modifies this, p`next
      ensures Valid() && nodes == [p] + old(nodes) && slots == [p.Value()] + old(slots)
    {
      hide Linked, Holds;
      HoldsMore(p, nodes, slots);
      LinkFirst(p);
      slots := [p.Value()] + slots;
    }

    method LinkFirst(p: PendingSlot)
      requires Chain() && p !in nodes
      modifies `head, `tail, `nodes, p`next
      ensures Chain() && nodes == [p] + old(nodes)
    {
      hide At;
      ghost var was := nodes;
      AtIs(was, 0);
      AtIs([p] + was, 0);
      p.next := head;
      head := p;
      if tail == null { tail := p; }
      nodes := [p] + nodes;
      forall i | 0 <= i < |nodes| ensures nodes[i].next == At(nodes, i + 1) {
        AtIs(nodes, i + 1);
        AtIs(was, i);
        if i > 0 { assert nodes[i] == was[i - 1]; }
      }
    }

    /** Out of the list, wherever it is; nothing when it is not in the list. */
    method Remove(premove: PendingSlot)
      requires Valid()
      modifies this, nodes`next
      ensures Valid()
      ensures premove !in old(nodes) ==> nodes == old(nodes) && slots == old(slots)
      ensures forall k :: 0 <= k < |old(nodes)| && old(nodes)[k] == premove ==>
                            nodes == Cut(old(nodes), k) && slots == Cut(old(slots), k)
    {
      hide Holds, Cut, Linked;
      var previous, p, i := Search(premove);
      if p != null {
        HoldsLess(nodes, slots, i);
        assert Holds(Cut(nodes, i), Cut(slots, i));
        Unlink(previous, p, i);
        assert Holds(nodes, Cut(slots, i));
        slots := Cut(slots, i);
      }
    }

    /** The walk of remove. */
    method Search(premove: PendingSlot) returns (previous: PendingSlot?, p: PendingSlot?, ghost i: nat)
      requires Chain()
      ensures i <= |nodes| && p == At(nodes, i) && (p != null ==> p == premove)
      ensures previous == if i > 0 then nodes[i - 1] else null
      ensures forall k :: 0 <= k < |nodes| && nodes[k] == premove ==> k == i
    {
      previous, p, i := null, head, 0;
      while p != null
        invariant i <= |nodes| && p == At(nodes, i)
        invariant previous == if i > 0 then nodes[i - 1] else null
        invariant forall k :: 0 <= k < i ==> nodes[k] != premove
        decreases |nodes| - i
      {
        if p == premove {
          return;
        }
        previous := p;
        p := p.next;
        i := i + 1;
      }
    }

    /** The node after previous leaves the list. */
    method Unlink(previous: PendingSlot?, p: PendingSlot, ghost i: nat)
      requires Chain() && i < |nodes| && p == nodes[i] && previous == if i > 0 then nodes[i - 1] else null
      modifies `head, `tail, `nodes, nodes`next
      ensures Chain() && nodes == Cut(old(nodes), i)
    {
      hide Cut, At;
      ghost var was := nodes;
      CutShape(was, i);
      AtIs(was, i + 1);
      AtIs(was, i);
      AtIs(was, 0);
      if previous != null {
        previous.next := p.next;
      } else {
        head := p.next;
      }
      if p == tail { tail := previous; }
      nodes := Cut(nodes, i);
      forall j | 0 <= j < |nodes| ensures nodes[j].next == At(nodes, j + 1) {
        assert nodes[j] == was[if j < i then j else j + 1];
      }
    }

    /** The walk of scheduleDCCSpeedPacket. */
    method FindLoco(loco: Word) returns (p: PendingSlot?, ghost i: nat)
      requires Valid()
      ensures FirstLoco(slots, loco, 0) == if p == null then None else Some(i)
      ensures p != null ==> i < |nodes| && p == nodes[i]
    {
      p, i := head, 0;
      while p != null
        invariant i <= |nodes| && p == At(nodes, i)
        invariant FirstLoco(slots, loco, 0) == FirstLoco(slots, loco, i)
        decreases |nodes| - i
      {
        HoldsAt(nodes, slots, i);
        if p.shared % 0x1_0000 == loco { return; }
        p := p.next;
        i := i + 1;
      }
    }

    /** The walk of scheduleDCCFunctionPacket. */
    method FindGroup(loco: Word, kind: Kind) returns (p: PendingSlot?, ghost i: nat)
      requires Valid()
      ensures FirstGroup(slots, loco, kind, 0) == if p == null then None else Some(i)
      ensures p != null ==> i < |nodes| && p == nodes[i]
    {
      p, i := head, 0;
      while p != null
        invariant i <= |nodes| && p == At(nodes, i)
        invariant FirstGroup(slots, loco, kind, 0) == FirstGroup(slots, loco, kind, i)
        decreases |nodes| - i
      {
        HoldsAt(nodes, slots, i);
        if p.shared % 0x1_0000 == loco && p.kind == kind { return; }
        p := p.next;
        i := i + 1;
      }
    }

    /** The walk of scheduleNextInternal. */
    method FindSendable(last: Word, now: Word32) returns (p: PendingSlot?, ghost i: nat)
      requires Valid()
      ensures FirstSendable(slots, last, now, 0) == if p == null then None else Some(i)
      ensures p != null ==> i < |nodes| && p == nodes[i]
    {
      p, i := head, 0;
      while p != null
        invariant i <= |nodes| && p == At(nodes, i)
        invariant FirstSendable(slots, last, now, 0) == FirstSendable(slots, last, now, i)
        decreases |nodes| - i
      {
        HoldsAt(nodes, slots, i);
        var delayed := p.kind.AccOffPacket? && now < p.shared;
        if !delayed {
          if p.shared % 0x1_0000 == 0 || p.shared % 0x1_0000 != last { return; }
        }
        p := p.next;
        i := i + 1;
      }
    }

    /** Replace the packet in a slot of the list. */
    method Rewrite(p: PendingSlot, ghost k: nat, packet: seq<Byte>, repeat: Byte)
      requires Valid() && k < |nodes| && nodes[k] == p && |packet| <= MAX_PACKET_SIZE
      modifies `slots, p`packet, p`length, p`repeat
      ensures Valid() && nodes == old(nodes) && slots == old(slots)[k := Replaced(old(slots)[k], packet, repeat)]
    {
      hide Copied, Linked;
      LinkedOnce(head, nodes);
      p.packet := Copied(p.packet, packet);
      p.length := |packet|;
      p.repeat := repeat;
      slots := slots[k := p.Value()];
    }

    /** One send of a slot that stays. */
    method Spend(p: PendingSlot, ghost k: nat)
      requires Valid() && k < |nodes| && nodes[k] == p && p.repeat > 0
      modifies `slots, p`repeat
      ensures Valid() && nodes == old(nodes)
      ensures slots == old(slots)[k := old(slots)[k].(repeat := old(slots)[k].repeat - 1)]
    {
      hide Linked;
      LinkedOnce(head, nodes);
      p.repeat := p.repeat - 1;
      slots := slots[k := p.Value()];
    }
  }

  /** The statics: both queues, the slots to recycle, and the loco served last. */
  class Station {
    const high: PacketList
    const low: PacketList
    var recycleList: PendingSlot?
    var created: nat
    var lastSent: Word
    ghost var free: seq<PendingSlot>
    /** Every slot ever created. */
    ghost var made: set<PendingSlot>

    /** All is in order but for the slots that are out. */
    ghost predicate Without(out: seq<PendingSlot>)
      reads this, high, low, high.nodes, low.nodes, free
    {
      && high != low && high.Valid() && low.Valid() && Linked(recycleList, free)
      && Parts(high.nodes, low.nodes, free, out, made) && created == |made|
    }

    ghost predicate Valid()
      reads this, high, low, high.nodes, low.nodes, free
    {
      Without([])
    }

    ghost function State(): Queues
      reads this, high, low
    {
      Queues(high.slots, low.slots, lastSent)
    }

    constructor ()
      ensures Valid() && State() == Queues([], [], 0) && made == {} && fresh(high) && fresh(low)
    {
      high := new PacketList();
      low := new PacketList();
      recycleList, created, lastSent, free, made := null, 0, 0, [], {};
    }

    /** The length of a queue, as counted when a slot has to be created. */
    method Count(q: PacketList) returns (n: nat)
      requires q.Valid()
      ensures n == |q.nodes|
    {
      n := 0;
      var p := q.head;
      while p != null
        invariant n <= |q.nodes| && p == At(q.nodes, n)
        decreases |q.nodes| - n
      {
        p := p.next;
        n := n + 1;
      }
    }

    /** Take a slot to recycle, or a new one; then there is never a leak to report. */
    method Take(buffer: Buffer) returns (p: PendingSlot, ghost leak: bool)
      requires Valid()
      modifies `recycleList, `created, `free, `made
      ensures Without([p]) && !leak && State() == old(State())
      ensures old(free) != [] ==> p == old(free)[0] && free == old(free)[1..] && made == old(made)
      ensures old(free) == [] ==> fresh(p) && free == [] && made == old(made) + {p}
    {
      hide Linked, Parts, Holds;
      leak := false;
      LinkedNull(recycleList, free);
      Apart(high.nodes, low.nodes, free, [], made);
      if recycleList != null {
        LinkedTail(recycleList, free);
        TakeParts(high.nodes, low.nodes, free, made);
        p := recycleList;
        recycleList := p.next;
        free := free[1..];
      } else {
        var q1 := Count(high);
        var q2 := Count(low);
        leak := q1 + q2 != created;
        p := new PendingSlot(buffer);
        NewParts(high.nodes, low.nodes, p, made);
        created := created + 1;
        made := made + {p};
      }
    }

    /** getSlot: a slot with this content, in no list. */
    method GetSlot(kind: Kind, packet: seq<Byte>, repeats: Byte, loco: Word, newBuffer: Buffer)
      returns (p: PendingSlot, ghost buffer: Buffer)
      requires Valid() && |packet| < 256
      modifies `recycleList, `created, `free, `made, made
      ensures Without([p]) && State() == old(State()) && p.Value() == NewSlot(kind, packet, repeats, loco, buffer)
      ensures p in old(made) || fresh(p)
      ensures free == if old(free) == [] then [] else old(free)[1..]
      ensures old(made) <= made
    {
      hide Linked, Parts, Holds, Without, NewSlot;
      ghost var leak;
      p, leak := Take(newBuffer);
      buffer := p.packet;
      IsOut(p);
      Fill(p, kind, packet, repeats, loco);
    }

    lemma IsOut(p: PendingSlot)
      requires Without([p])
      ensures p in made
    {
      hide Linked, Parts, Holds;
      Apart(high.nodes, low.nodes, free, [p], made);
      assert p in [p];
    }

    /** The end of getSlot: the content of a slot that is out. */
    method Fill(p: PendingSlot, kind: Kind, packet: seq<Byte>, repeats: Byte, loco: Word)
      requires Without([p]) && |packet| < 256
      modifies p
      ensures Without([p]) && State() == old(State())
      ensures p.Value() == NewSlot(kind, packet, repeats, loco, old(p.packet))
    {
      hide Linked, Parts, Holds;
      Apart(high.nodes, low.nodes, free, [p], made);
      assert p in [p];
      p.next := null;
      p.kind := kind;
      p.length := |packet|;
      p.repeat := repeats;
      p.shared := 0;
      p.packet := Copied(p.packet, packet);
      p.shared := p.shared - p.shared % 0x1_0000 + loco;
    }

    /** A slot that is out joins the end of the low queue. */
    method JoinLow(p: PendingSlot)
      requires Without([p])
      modifies low, low.nodes`next, p`next
      ensures Valid() && State() == old(State()).(low := old(low.slots) + [p.Value()])
      ensures low.nodes == old(low.nodes) + [p]
    {
      hide Linked, Parts, Holds;
      Apart(high.nodes, low.nodes, free, [p], made);
      PlaceParts(high.nodes, low.nodes, free, p, made);
      assert p in [p];
      TailIn(low.tail, low.nodes);
      low.AddQueue(p);
    }

    method JoinHigh(p: PendingSlot)
      requires Without([p])
      modifies high, high.nodes`next, p`next
      ensures Valid() && State() == old(State()).(high := old(high.slots) + [p.Value()])
      ensures high.nodes == old(high.nodes) + [p]
    {
      hide Linked, Parts, Holds;
      Apart(high.nodes, low.nodes, free, [p], made);
      PlaceParts(high.nodes, low.nodes, free, p, made);
      assert p in [p];
      TailIn(high.tail, high.nodes);
      high.AddQueue(p);
    }

    method JumpHigh(p: PendingSlot)
      requires Without([p])
      modifies high, p`next
      ensures Valid() && State() == old(State()).(high := [p.Value()] + old(high.slots))
      ensures high.nodes == [p] + old(high.nodes)
    {
      hide Linked, Parts, Holds;
      Apart(high.nodes, low.nodes, free, [p], made);
      PlaceParts(high.nodes, low.nodes, free, p, made);
      assert p in [p];
      high.JumpQueue(p);
    }

    /** recycle: a slot that is out is free again. */
    method Recycle(p: PendingSlot)
      requires Without([p])
      modifies `recycleList, `free, p`next
      ensures Valid() && State() == old(State()) && free == [p] + old(free)
    {
      hide Linked, Parts, Holds;
      Apart(high.nodes, low.nodes, free, [p], made);
      PlaceParts(high.nodes, low.nodes, free, p, made);
      assert p in [p];
      p.next := recycleList;
      LinkedFront(p, recycleList, free);
      recycleList := p;
      free := [p] + free;
    }

    /** Slot k of a queue leaves it. */
    method TakeHigh(p: PendingSlot, ghost k: nat)
      requires Valid() && k < |high.nodes| && high.nodes[k] == p
      modifies high, high.nodes`next
      ensures Without([p]) && State() == old(State()).(high := Cut(old(high.slots), k))
      ensures high.nodes == Cut(old(high.nodes), k)
    {
      hide Linked, Parts, Holds, Cut;
      Apart(high.nodes, low.nodes, free, [], made);
      CutParts(high.nodes, low.nodes, free, k, made);
      assert forall q :: q in free || q in low.nodes ==> q !in high.nodes;
      high.Remove(p);
      assert forall q :: q in free || q in low.nodes ==> q.next == old(q.next);
    }

    method TakeLow(p: PendingSlot, ghost k: nat)
      requires Valid() && k < |low.nodes| && low.nodes[k] == p
      modifies low, low.nodes`next
      ensures Without([p]) && State() == old(State()).(low := Cut(old(low.slots), k))
      ensures low.nodes == Cut(old(low.nodes), k)
    {
      hide Linked, Parts, Holds, Cut;
      Apart(high.nodes, low.nodes, free, [], made);
      CutParts(high.nodes, low.nodes, free, k, made);
      assert forall q :: q in free || q in high.nodes ==> q !in low.nodes;
      low.Remove(p);
      assert forall q :: q in free || q in high.nodes ==> q.next == old(q.next);
    }

    method ScheduleDCCPacket(packet: seq<Byte>, repeats: Byte, loco: Word, newBuffer: Buffer)
      returns (ghost buffer: Buffer)
      requires Valid() && |packet| < 256
      modifies this, high, low, made
      ensures Valid() && (State(), None) == Do(old(State()), Normal(packet, repeats, loco, buffer))
      ensures old(made) <= made
    {
      hide Linked, Parts, Holds, NewSlot;
      Apart(high.nodes, low.nodes, free, [], made);
      var p;
      p, buffer := GetSlot(NormalPacket, packet, repeats, loco, newBuffer);
      JoinLow(p);
    }

    method ScheduleAccOnOffPacket(packet: seq<Byte>, repeats: Byte, delay: Word, newBuffer: Buffer)
      returns (ghost buffer: Buffer)
      requires Valid() && |packet| < 256
      modifies this, high, low, made
      ensures Valid() && (State(), None) == Do(old(State()), AccOnOff(packet, repeats, delay, buffer))
      ensures old(made) <= made
    {
      hide Linked, Parts, Holds, NewSlot;
      Apart(high.nodes, low.nodes, free, [], made);
      var p;
      p, buffer := GetOnSlot(packet, repeats, delay, newBuffer);
      JoinLow(p);
    }

    /** A slot for an accessory, with its delay. */
    method GetOnSlot(packet: seq<Byte>, repeats: Byte, delay: Word, newBuffer: Buffer)
      returns (p: PendingSlot, ghost buffer: Buffer)
      requires Valid() && |packet| < 256
      modifies `recycleList, `created, `free, `made, made
      ensures Without([p]) && State() == old(State())
      ensures p.Value() == NewSlot(AccOnPacket, packet, repeats, delay, buffer) && (p in old(made) || fresh(p))
      ensures old(made) <= made
    {
      hide Without, NewSlot;
      p, buffer := GetSlot(AccOnPacket, packet, repeats, 0, newBuffer);
      IsOut(p);
      DelayedSlot(packet, repeats, delay, buffer);
      SetDelay(p, delay);
    }

    static lemma DelayedSlot(packet: seq<Byte>, repeats: Byte, delay: Word, buffer: Buffer)
      requires |packet| < 256
      ensures var s := NewSlot(AccOnPacket, packet, repeats, 0, buffer);
              s.(shared := s.shared - s.shared % 0x1_0000 + delay)
                == NewSlot(AccOnPacket, packet, repeats, delay, buffer)
    {
    }

    /** p->delayOff=delayms: the low half of the shared word. */
    method SetDelay(p: PendingSlot, delay: Word)
      requires Without([p])
      modifies p`shared
      ensures Without([p]) && State() == old(State())
      ensures p.shared == old(p.shared) - old(p.shared) % 0x1_0000 + delay
    {
      hide Linked, Parts, Holds;
      Apart(high.nodes, low.nodes, free, [p], made);
      assert p in [p];
      p.shared := p.shared - p.shared % 0x1_0000 + delay;
    }

    /** Replaces the packet that has the loco's number in the high queue, or joins its end. */
    method ScheduleDCCSpeedPacket(packet: seq<Byte>, repeats: Byte, loco: Word, newBuffer: Buffer)
      returns (ghost buffer: Buffer)
      requires Valid() && |packet| <= MAX_PACKET_SIZE
      modifies this, high, low, made
      ensures Valid() && (State(), None) == Do(old(State()), Speed(packet, repeats, loco, buffer))
      ensures old(made) <= made
    {
      hide Linked, Parts, Holds, NewSlot, Replaced, FirstLoco;
      Apart(high.nodes, low.nodes, free, [], made);
      var p, i := high.FindLoco(loco);
      buffer := newBuffer;
      if p != null {
        assert p in high.nodes && p in made;
        high.Rewrite(p, i, packet, repeats);
        return;
      }
      p, buffer := GetSlot(SpeedPacket, packet, repeats, loco, newBuffer);
      JoinHigh(p);
    }

    static method TypeOf(group: Byte) returns (valid: bool, kind: Kind)
      ensures GroupKind(group) == if valid then Some(kind) else None
    {
      valid := true;
      match group {
        case 1 => kind := Function1Packet;
        case 2 => kind := Function2Packet;
        case 3 => kind := Function3Packet;
        case 4 => kind := Function4Packet;
        case 5 => kind := Function5Packet;
        case _ => valid, kind := false, DeadPacket;
      }
    }

    /** Replaces the packet for the same loco and group in the low queue, or joins its end. */
    method ScheduleDCCFunctionPacket(packet: seq<Byte>, loco: Word, group: Byte, newBuffer: Buffer)
      returns (ghost buffer: Buffer)
      requires Valid() && |packet| <= MAX_PACKET_SIZE
      modifies this, high, low, made
      ensures Valid() && (State(), None) == Do(old(State()), Function(packet, loco, group, buffer))
      ensures old(made) <= made
    {
      hide Linked, Parts, Holds, NewSlot, Replaced, FirstGroup, GroupKind;
      buffer := newBuffer;
      var valid, kind := TypeOf(group);
      if !valid { return; } // invalid group
      Apart(high.nodes, low.nodes, free, [], made);
      var p, i := low.FindGroup(loco, kind);
      if p != null {
        assert p in low.nodes && p in made;
        low.Rewrite(p, i, packet, 0);
        return;
      }
      p, buffer := GetSlot(kind, packet, 0, loco, newBuffer);
      JoinLow(p);
    }

    /** Recycles what an estop supersedes, and puts the estop in front. */
    method ScheduleEstopPacket(packet: seq<Byte>, repeats: Byte, loco: Word, newBuffer: Buffer)
      returns (ghost buffer: Buffer)
      requires Valid() && |packet| < 256
      modifies this, high, low, made
      ensures Valid() && (State(), None) == Do(old(State()), Estop(packet, repeats, loco, buffer))
      ensures old(made) <= made
    {
      hide Linked, Parts, Holds, NewSlot, Survivors;
      Purge(loco);
      Apart(high.nodes, low.nodes, free, [], made);
      var p;
      p, buffer := GetSlot(SpeedPacket, packet, repeats, 0, newBuffer);
      JumpHigh(p);
    }

    method Purge(loco: Word)
      requires Valid()
      modifies `recycleList, `free, high, made
      ensures Valid() && State() == old(State()).(high := Survivors(old(high.slots), loco)) && made == old(made)
    {
      hide Linked, Parts, Holds, Survives, At, Purging, Cut, Survivors;
      ghost var was, slots0 := high.nodes, high.slots;
      ghost var kept: seq<Slot>, i: nat := [], 0;
      var p := high.head;
      HeadIs(high.head, high.nodes);
      SlotsToo(high.nodes, high.slots);
      PurgingStarts(was, slots0, loco);
      while p != null
        invariant Valid() && made == old(made) && i <= |was|
        invariant State() == old(State()).(high := high.slots)
        invariant Purging(was, slots0, kept, i, high.nodes, high.slots, loco)
        invariant p == At(was, i)
        decreases |was| - i
      {
        PurgingStep(was, slots0, kept, i, high.nodes, high.slots, loco);
        var pNext := Following(high, p, |kept|);
        PurgeOne(p, loco, |kept|);
        if Survives(slots0[i], loco) { kept := kept + [slots0[i]]; }
        p := pNext;
        i := i + 1;
      }
      PurgingEnds(was, slots0, kept, i, high.nodes, high.slots, loco);
    }

    /** One slot of the high queue stays, or is recycled. */
    method PurgeOne(p: PendingSlot, loco: Word, ghost k: nat)
      requires Valid() && k < |high.nodes| && high.nodes[k] == p
      modifies `recycleList, `free, high, made
      ensures Valid() && made == old(made) && |old(high.slots)| == |old(high.nodes)|
      ensures var s := old(high.slots);
              && State() == old(State()).(high := if Survives(s[k], loco) then s else Cut(s, k))
              && high.nodes == (if Survives(s[k], loco) then old(high.nodes) else Cut(old(high.nodes), k))
    {
      hide Linked, Parts, Holds, Cut;
      Apart(high.nodes, low.nodes, free, [], made);
      HoldsAt(high.nodes, high.slots, k);
      SlotsToo(high.nodes, high.slots);
      if !p.kind.AccOffPacket? && (loco == 0 || p.shared % 0x1_0000 == loco) {
        assert p in made;
        TakeHigh(p, k);
        Recycle(p);
      }
    }

    method Following(q: PacketList, p: PendingSlot, ghost k: nat) returns (next: PendingSlot?)
      requires q.Valid() && k < |q.nodes| && q.nodes[k] == p
      ensures next == At(q.nodes, k + 1)
    {
      next := p.next;
    }

    /** A sent slot that leaves its queue: an on packet becomes its own delayed off packet and jumps
        the high queue, any other is recycled. */
    method Release(p: PendingSlot, now: Word32)
      requires Without([p])
      modifies `recycleList, `free, high, p
      ensures Valid() && made == old(made)
      ensures var jumps := if old(p.kind).AccOnPacket? then [TurnedOff(old(p.Value()), now)] else [];
              State() == old(State()).(high := jumps + old(high.slots))
    {
      hide Linked, Parts, Holds;
      assert [] + high.slots == high.slots;
      if p.kind.AccOnPacket? {
        TurnOff(p, now);
        JumpHigh(p);
      } else {
        Recycle(p);
      }
    }

    method TurnOff(p: PendingSlot, now: Word32)
      requires Without([p])
      modifies p`kind, p`packet, p`shared
      ensures Without([p]) && State() == old(State()) && p.Value() == TurnedOff(old(p.Value()), now)
    {
      hide Linked, Parts, Holds;
      Apart(high.nodes, low.nodes, free, [p], made);
      assert p in [p];
      p.kind := AccOffPacket;
      p.packet := p.packet[1 := GateOff(p.packet[1])];
      p.shared := (now + p.shared % 0x1_0000) % WORD_32;
    }

    /** Send slot k of the high queue. */
    method SendHigh(p: PendingSlot, ghost k: nat, now: Word32) returns (sent: Sent)
      requires Valid() && k < |high.nodes| == |high.slots| && high.nodes[k] == p
      modifies `recycleList, `free, `lastSent, high, made
      ensures Valid() && made == old(made)
      ensures var s := old(high.slots);
              var (rest, jumps) := After(s, k, now);
              && sent == SentOf(s[k]) && State() == Queues(jumps + rest, old(low.slots), s[k].Loco())
    {
      hide Linked, Parts, Holds, TurnedOff, Cut;
      Apart(high.nodes, low.nodes, free, [], made);
      HoldsAt(high.nodes, high.slots, k);
      assert p in high.nodes && p in made;
      var loco := p.shared % 0x1_0000;
      sent := Sent(loco, p.length, p.packet, if loco != 0 then 0 else p.repeat);
      lastSent := loco;
      if loco != 0 && p.repeat > 0 {
        high.Spend(p, k);
        assert [] + high.slots == high.slots;
        return;
      }
      TakeHigh(p, k);
      Release(p, now);
    }

    method SendLow(p: PendingSlot, ghost k: nat, now: Word32) returns (sent: Sent)
      requires Valid() && k < |low.nodes| == |low.slots| && low.nodes[k] == p
      modifies `recycleList, `free, `lastSent, high, low, made
      ensures Valid() && made == old(made)
      ensures var s := old(low.slots);
              var (rest, jumps) := After(s, k, now);
              && sent == SentOf(s[k]) && State() == Queues(jumps + old(high.slots), rest, s[k].Loco())
    {
      hide Linked, Parts, Holds, TurnedOff, Cut;
      Apart(high.nodes, low.nodes, free, [], made);
      HoldsAt(low.nodes, low.slots, k);
      assert p in low.nodes && p in made;
      var loco := p.shared % 0x1_0000;
      sent := Sent(loco, p.length, p.packet, if loco != 0 then 0 else p.repeat);
      lastSent := loco;
      if loco != 0 && p.repeat > 0 {
        low.Spend(p, k);
        assert [] + high.slots == high.slots;
        return;
      }
      TakeLow(p, k);
      Release(p, now);
    }

    /** scheduleNext: what goes to the waveform generator, if anything. */
    method ScheduleNext(force: bool, now: Word32) returns (sent: Option<Sent>)
      requires Valid()
      modifies this, high, low, made
      ensures Valid() && (State(), sent) == Do(old(State()), Next(force, now)) && made == old(made)
      ensures InTurn(old(State()), force, now, State(), sent)
    {
      hide Linked, Parts, Holds, After, SentOf, InTurn;
      NextInTurn(State(), force, now);
      Apart(high.nodes, low.nodes, free, [], made);
      SlotsToo(high.nodes, high.slots);
      SlotsToo(low.nodes, low.slots);
      var p, i := high.FindSendable(lastSent, now);
      if p != null {
        var s := SendHigh(p, i, now);
        return Some(s);
      }
      p, i := low.FindSendable(lastSent, now);
      if p != null {
        var s := SendLow(p, i, now);
        return Some(s);
      }
      if force {
        lastSent := 0;
        return Some(IDLE);
      }
      return None;
    }
  }

  lemma TailIn(tail: PendingSlot?, nodes: seq<PendingSlot>)
    requires tail == if nodes == [] then null else nodes[|nodes| - 1]
    ensures tail != null ==> tail in nodes
  {
  }
}

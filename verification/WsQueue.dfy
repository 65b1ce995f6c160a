/**
 What the inbound queue promises under every interleaving: first in, first out; nothing half filled
 is seen; every copy is given back exactly once.
 */
module WsQueue {
  import opened Basics
  import opened WsMachine

  // ---------------------------------------------------------------- places in the ring

  /** The slot of the n-th accepted item. */
  function Place(n: nat): (p: nat)
    ensures p < QUEUE_SIZE
  {
    n % QUEUE_SIZE
  }

  lemma PlacesApart(n: nat, m: nat)
    requires n < m < n + QUEUE_SIZE
    ensures Place(n) != Place(m)
  {
  }

  lemma NextPlace(n: nat)
    ensures Place(n + 1) == (Place(n) + 1) % QUEUE_SIZE
    ensures Place(n + QUEUE_SIZE) == Place(n)
  {
  }

  // ---------------------------------------------------------------- what holds

  predicate RingOk(r: Ring, accepted: nat, popped: nat) {
    && Shaped(r) && popped <= accepted && r.count == accepted - popped
    && r.head == Place(popped) && r.tail == Place(accepted)
  }

  /** The copy of an item holds its bytes; an item without bytes has none. */
  predicate CopyOk(item: Item, pay: Option<nat>, heap: seq<seq<Byte>>) {
    if item.bytes == [] then pay == None else pay.Some? && pay.value < |heap| && heap[pay.value] == item.bytes
  }

  /** How far a producer has got with its slot. */
  predicate FillOk(p: Producer, s: Slot) {
    p.Filling? ==>
      && p.step <= FILL_STEPS && !s.ready
      && (p.step < FILL_STEPS ==> s.payload == None)
      && (p.step > 1 ==> s.kind == p.item.kind)
      && (p.step > 2 ==> s.client == p.item.client)
      && (p.step > 3 ==> s.length == |p.item.bytes|)
      && (p.step == FILL_STEPS ==> s.payload == p.pay)
  }

  /** A filling producer has a turn of its own, and the slot that goes with it. */
  predicate TicketOk(p: Producer, r: Ring, accepted: seq<Accepted>, popped: nat)
    requires Shaped(r)
  {
    p.Filling? ==>
      && popped <= p.ticket < |accepted| && accepted[p.ticket] == Accepted(p.item, p.pay)
      && p.slot == Place(p.ticket) && FillOk(p, r.slots[p.slot])
  }

  predicate ProducersOk(producers: seq<Producer>, r: Ring, accepted: seq<Accepted>, popped: nat)
    requires Shaped(r)
  {
    && (forall k :: 0 <= k < |producers| ==> TicketOk(producers[k], r, accepted, popped))
    && (forall k, l :: 0 <= k < l < |producers| && producers[k].Filling? && producers[l].Filling? ==>
          producers[k].ticket != producers[l].ticket)
  }

  predicate Full(s: Slot, a: Accepted) {
    s.kind == a.item.kind && s.client == a.item.client && s.length == |a.item.bytes| && s.payload == a.pay
  }

  predicate BeingFilled(producers: seq<Producer>, n: nat) {
    exists k :: 0 <= k < |producers| && producers[k].Filling? && producers[k].ticket == n
  }

  /** A slot in use is ready and holds its item whole, or somebody is filling it. */
  predicate SlotOk(n: nat, r: Ring, producers: seq<Producer>, accepted: seq<Accepted>)
    requires Shaped(r) && n < |accepted|
  {
    var s := r.slots[Place(n)];
    if s.ready then Full(s, accepted[n]) else BeingFilled(producers, n)
  }

  predicate SlotsOk(r: Ring, producers: seq<Producer>, accepted: seq<Accepted>, popped: nat)
    requires Shaped(r)
  {
    && (forall n :: popped <= n < |accepted| ==> SlotOk(n, r, producers, accepted))
    && (forall n :: |accepted| <= n < popped + QUEUE_SIZE ==>
            r.slots[Place(n)].payload == None && !r.slots[Place(n)].ready)
  }

  function ItemsOf(accepted: seq<Accepted>): (r: seq<Item>)
    ensures |r| == |accepted| && forall i :: 0 <= i < |r| ==> r[i] == accepted[i].item
  {
    seq(|accepted|, i requires 0 <= i < |accepted| => accepted[i].item)
  }

  /** Handled is what was accepted, in order; in between handling and popping it is one ahead. */
  predicate ConsumerOk(c: Consumer, r: Ring, log: Log)
    requires Shaped(r)
  {
    && log.popped <= |log.accepted|
    && (c.Has? ==> r.count > 0 && c.slot == r.head && r.slots[r.head].ready)
    && (c.Handled? ==> r.count > 0 && r.slots[r.head].ready)
    && log.popped + (if c.Handled? then 1 else 0) <= |log.accepted|
    && log.handled == ItemsOf(log.accepted[..log.popped + if c.Handled? then 1 else 0])
  }

  predicate CopiesOk(s: Sys) {
    && (forall n :: 0 <= n < |s.log.accepted| ==> CopyOk(s.log.accepted[n].item, s.log.accepted[n].pay, s.heap))
    && (forall k :: 0 <= k < |s.producers| && s.producers[k].Holding? ==>
          CopyOk(s.producers[k].item, s.producers[k].pay, s.heap))
  }

  predicate Ok(s: Sys) {
    && RingOk(s.ring, |s.log.accepted|, s.log.popped)
    && ProducersOk(s.producers, s.ring, s.log.accepted, s.log.popped)
    && SlotsOk(s.ring, s.producers, s.log.accepted, s.log.popped)
    && ConsumerOk(s.consumer, s.ring, s.log)
    && CopiesOk(s)
  }

  // ---------------------------------------------------------------- the steps

  /** A producer that is not filling, before and after, concerns the ring not at all. */
  lemma OthersKeep(r: Ring, producers: seq<Producer>, k: nat, p: Producer, accepted: seq<Accepted>, popped: nat)
    requires Shaped(r) && k < |producers| && !producers[k].Filling? && !p.Filling?
    requires ProducersOk(producers, r, accepted, popped) && SlotsOk(r, producers, accepted, popped)
    ensures ProducersOk(producers[k := p], r, accepted, popped) && SlotsOk(r, producers[k := p], accepted, popped)
  {
    hide Place, FillOk;
    var ps := producers[k := p];
    forall n | popped <= n < |accepted| ensures SlotOk(n, r, ps, accepted) {
      assert SlotOk(n, r, producers, accepted);
      if !r.slots[Place(n)].ready {
        var l :| 0 <= l < |producers| && producers[l].Filling? && producers[l].ticket == n;
        assert ps[l].Filling? && ps[l].ticket == n;
      }
    }
  }

  lemma ArriveKeeps(s: Sys, k: nat, item: Item, allocates: bool)
    requires Ok(s) && k < |s.producers|
    ensures Ok(ArriveStep(s, k, item, allocates))
  {
    hide RingOk, ProducersOk, SlotsOk, ConsumerOk;
    var s' := ArriveStep(s, k, item, allocates);
    if s' != s {
      assert Shaped(s.ring) by { RingShaped(s.ring, |s.log.accepted|, s.log.popped); }
      OthersKeep(s.ring, s.producers, k, s'.producers[k], s.log.accepted, s.log.popped);
    }
  }

  lemma RingShaped(r: Ring, accepted: nat, popped: nat)
    requires RingOk(r, accepted, popped)
    ensures Shaped(r)
  {
  }

  /** A slot is reserved: the one behind the last accepted item. */
  lemma ReserveKeeps(s: Sys, k: nat)
    requires Ok(s) && k < |s.producers| && s.producers[k].Holding? && s.ring.count < QUEUE_SIZE
    ensures Ok(ProducerStep(s, k))
  {
    hide CopyOk, ItemsOf, Place;
    var s' := ProducerStep(s, k);
    var t, popped := |s.log.accepted|, s.log.popped;
    NextPlace(t);
    forall n | popped <= n < t ensures Place(n) != Place(t) { PlacesApart(n, t); }
    ReserveProducers(s, s', k);
    ReserveSlots(s, s', k);
    ReserveConsumer(s, s', k);
  }

  lemma ReserveProducers(s: Sys, s': Sys, k: nat)
    requires Ok(s) && k < |s.producers| && s.producers[k].Holding?
    requires s.ring.count < QUEUE_SIZE && s' == ProducerStep(s, k)
    ensures Shaped(s'.ring) && ProducersOk(s'.producers, s'.ring, s'.log.accepted, s'.log.popped)
  {
    hide CopyOk, ItemsOf, Place, SlotOk;
    var t, popped := |s.log.accepted|, s.log.popped;
    NextPlace(t);
    forall l | 0 <= l < |s'.producers| ensures TicketOk(s'.producers[l], s'.ring, s'.log.accepted, popped) {
      assert TicketOk(s.producers[l], s.ring, s.log.accepted, popped);
      if l != k && s.producers[l].Filling? { PlacesApart(s.producers[l].ticket, t); }
    }
  }

  lemma ReserveSlots(s: Sys, s': Sys, k: nat)
    requires Ok(s) && k < |s.producers| && s.producers[k].Holding?
    requires s.ring.count < QUEUE_SIZE && s' == ProducerStep(s, k)
    ensures Shaped(s'.ring) && SlotsOk(s'.ring, s'.producers, s'.log.accepted, s'.log.popped)
  {
    hide CopyOk, ItemsOf, Place, TicketOk;
    var t, popped := |s.log.accepted|, s.log.popped;
    NextPlace(t);
    forall n | popped <= n < t + 1 ensures SlotOk(n, s'.ring, s'.producers, s'.log.accepted) {
      if n < t {
        PlacesApart(n, t);
        assert SlotOk(n, s.ring, s.producers, s.log.accepted);
        if !s.ring.slots[Place(n)].ready {
          var l :| 0 <= l < |s.producers| && s.producers[l].Filling? && s.producers[l].ticket == n;
          assert s'.producers[l].Filling? && s'.producers[l].ticket == n;
        }
      } else {
        assert s'.producers[k].Filling? && s'.producers[k].ticket == n;
      }
    }
    forall n | t + 1 <= n < popped + QUEUE_SIZE
      ensures s'.ring.slots[Place(n)].payload == None && !s'.ring.slots[Place(n)].ready
    {
      PlacesApart(t, n);
    }
  }

  lemma ReserveConsumer(s: Sys, s': Sys, k: nat)
    requires Ok(s) && k < |s.producers| && s.producers[k].Holding?
    requires s.ring.count < QUEUE_SIZE && s' == ProducerStep(s, k)
    ensures Shaped(s'.ring) && ConsumerOk(s'.consumer, s'.ring, s'.log)
  {
    hide CopyOk, Place, SlotOk, TicketOk;
    var t, popped := |s.log.accepted|, s.log.popped;
    if s.ring.count > 0 { PlacesApart(popped, t); }
    var m := popped + if s.consumer.Handled? then 1 else 0;
    assert s'.log.accepted[..m] == s.log.accepted[..m];
  }

  /** One store of a filling producer into its own slot. */
  lemma FillKeeps(s: Sys, k: nat)
    requires Ok(s) && k < |s.producers| && s.producers[k].Filling? && s.producers[k].step < FILL_STEPS
    ensures Ok(ProducerStep(s, k))
  {
    hide CopyOk, ItemsOf, Place;
    assert TicketOk(s.producers[k], s.ring, s.log.accepted, s.log.popped);
    FillProducers(s, k);
    FillSlots(s, k);
  }

  lemma FillProducers(s: Sys, k: nat)
    requires Ok(s) && k < |s.producers| && s.producers[k].Filling? && s.producers[k].step < FILL_STEPS
    ensures var s' := ProducerStep(s, k);
            Shaped(s'.ring) && ProducersOk(s'.producers, s'.ring, s'.log.accepted, s'.log.popped)
  {
    hide CopyOk, ItemsOf, Place, SlotOk;
    var s' := ProducerStep(s, k);
    var p := s.producers[k];
    assert TicketOk(p, s.ring, s.log.accepted, s.log.popped);
    forall l | 0 <= l < |s'.producers| ensures TicketOk(s'.producers[l], s'.ring, s'.log.accepted, s'.log.popped) {
      assert TicketOk(s.producers[l], s.ring, s.log.accepted, s.log.popped);
      if l != k && s.producers[l].Filling? {
        TicketsApart(p.ticket, s.producers[l].ticket, s.log.popped, |s.log.accepted|);
      }
    }
  }

  lemma TicketsApart(a: nat, b: nat, popped: nat, accepted: nat)
    requires popped <= a < accepted <= popped + QUEUE_SIZE && popped <= b < accepted && a != b
    ensures Place(a) != Place(b)
  {
    if a < b { PlacesApart(a, b); } else { PlacesApart(b, a); }
  }

  lemma FillSlots(s: Sys, k: nat)
    requires Ok(s) && k < |s.producers| && s.producers[k].Filling? && s.producers[k].step < FILL_STEPS
    ensures var s' := ProducerStep(s, k);
            Shaped(s'.ring) && SlotsOk(s'.ring, s'.producers, s'.log.accepted, s'.log.popped)
  {
    hide CopyOk, ItemsOf, Place;
    var s' := ProducerStep(s, k);
    var p := s.producers[k];
    assert TicketOk(p, s.ring, s.log.accepted, s.log.popped);
    forall n | s.log.popped <= n < |s.log.accepted| ensures SlotOk(n, s'.ring, s'.producers, s'.log.accepted) {
      assert SlotOk(n, s.ring, s.producers, s.log.accepted);
      if n != p.ticket { TicketsApart(p.ticket, n, s.log.popped, |s.log.accepted|); }
      if !s.ring.slots[Place(n)].ready {
        var l :| 0 <= l < |s.producers| && s.producers[l].Filling? && s.producers[l].ticket == n;
        assert s'.producers[l].Filling? && s'.producers[l].ticket == n;
      }
    }
    forall n | |s.log.accepted| <= n < s.log.popped + QUEUE_SIZE
      ensures s'.ring.slots[Place(n)].payload == None && !s'.ring.slots[Place(n)].ready
    {
      PlacesApart(p.ticket, n);
    }
  }

  /** The slot is published: by then it holds the item whole. */
  lemma PublishKeeps(s: Sys, k: nat)
    requires Ok(s) && k < |s.producers| && s.producers[k].Filling? && s.producers[k].step >= FILL_STEPS
    ensures Ok(ProducerStep(s, k))
  {
    hide CopyOk, ItemsOf, Place;
    assert TicketOk(s.producers[k], s.ring, s.log.accepted, s.log.popped);
    PublishProducers(s, k);
    PublishSlots(s, k);
  }

  lemma PublishProducers(s: Sys, k: nat)
    requires Ok(s) && k < |s.producers| && s.producers[k].Filling? && s.producers[k].step >= FILL_STEPS
    ensures var s' := ProducerStep(s, k);
            Shaped(s'.ring) && ProducersOk(s'.producers, s'.ring, s'.log.accepted, s'.log.popped)
  {
    hide CopyOk, ItemsOf, Place, SlotOk;
    var s' := ProducerStep(s, k);
    var p := s.producers[k];
    assert TicketOk(p, s.ring, s.log.accepted, s.log.popped);
    forall l | 0 <= l < |s'.producers| ensures TicketOk(s'.producers[l], s'.ring, s'.log.accepted, s'.log.popped) {
      assert TicketOk(s.producers[l], s.ring, s.log.accepted, s.log.popped);
      if l != k && s.producers[l].Filling? {
        TicketsApart(p.ticket, s.producers[l].ticket, s.log.popped, |s.log.accepted|);
      }
    }
  }

  lemma PublishSlots(s: Sys, k: nat)
    requires Ok(s) && k < |s.producers| && s.producers[k].Filling? && s.producers[k].step >= FILL_STEPS
    ensures var s' := ProducerStep(s, k);
            Shaped(s'.ring) && SlotsOk(s'.ring, s'.producers, s'.log.accepted, s'.log.popped)
  {
    hide CopyOk, ItemsOf, Place;
    var s' := ProducerStep(s, k);
    var p := s.producers[k];
    assert TicketOk(p, s.ring, s.log.accepted, s.log.popped);
    forall n | s.log.popped <= n < |s.log.accepted| ensures SlotOk(n, s'.ring, s'.producers, s'.log.accepted) {
      assert SlotOk(n, s.ring, s.producers, s.log.accepted);
      if n != p.ticket {
        TicketsApart(p.ticket, n, s.log.popped, |s.log.accepted|);
        if !s.ring.slots[Place(n)].ready {
          var l :| 0 <= l < |s.producers| && s.producers[l].Filling? && s.producers[l].ticket == n;
          assert s'.producers[l].Filling? && s'.producers[l].ticket == n;
        }
      }
    }
    forall n | |s.log.accepted| <= n < s.log.popped + QUEUE_SIZE
      ensures s'.ring.slots[Place(n)].payload == None && !s'.ring.slots[Place(n)].ready
    {
      PlacesApart(p.ticket, n);
    }
  }

  lemma ProducerKeeps(s: Sys, k: nat)
    requires Ok(s) && k < |s.producers|
    requires s.producers[k].Filling? ==> s.producers[k].slot < QUEUE_SIZE
    ensures Shaped(s.ring) && Ok(ProducerStep(s, k))
  {
    hide Place, FillOk, SlotOk, CopyOk, ItemsOf;
    match s.producers[k]
    case Idle =>
    case Holding(item, pay) =>
      if s.ring.count < QUEUE_SIZE {
        ReserveKeeps(s, k);
      } else {
        OthersKeep(s.ring, s.producers, k, Dropping(pay), s.log.accepted, s.log.popped);
      }
    case Dropping(pay) => OthersKeep(s.ring, s.producers, k, Idle, s.log.accepted, s.log.popped);
    case Filling(_, _, _, step, _) => if step < FILL_STEPS { FillKeeps(s, k); } else { PublishKeeps(s, k); }
  }

  /** The consumer reads an item whole, and it is the next in turn. */
  lemma ReadsNext(s: Sys)
    requires Ok(s) && s.consumer.Has?
    ensures s.log.popped < |s.log.accepted|
    ensures Read(s.ring.slots[s.consumer.slot], s.heap) == s.log.accepted[s.log.popped].item
  {
    hide Place, TicketOk, ItemsOf;
    assert SlotOk(s.log.popped, s.ring, s.producers, s.log.accepted);
  }

  lemma HandleKeeps(s: Sys, headroom: bool)
    requires Ok(s) && (s.consumer.Has? ==> s.consumer.slot < QUEUE_SIZE) && !s.consumer.Handled?
    ensures Shaped(s.ring) && Ok(ConsumerStep(s, headroom))
  {
    hide Place, TicketOk, SlotOk, CopyOk;
    if s.consumer.Has? {
      ReadsNext(s);
      var n := s.log.popped;
      assert s.log.accepted[..n + 1] == s.log.accepted[..n] + [s.log.accepted[n]];
      assert ItemsOf(s.log.accepted[..n + 1]) == ItemsOf(s.log.accepted[..n]) + [s.log.accepted[n].item];
    }
  }

  lemma PopKeeps(s: Sys, headroom: bool)
    requires Ok(s) && s.consumer.Handled?
    ensures Shaped(s.ring) && Ok(ConsumerStep(s, headroom))
  {
    hide Place, CopyOk, ItemsOf;
    NextPlace(s.log.popped);
    PopProducers(s);
    PopSlots(s);
  }

  lemma PopProducers(s: Sys)
    requires Ok(s) && s.consumer.Handled?
    ensures var r := Pop(s.ring).0; Shaped(r) && ProducersOk(s.producers, r, s.log.accepted, s.log.popped + 1)
  {
    hide Place, CopyOk, ItemsOf, SlotOk;
    var r, n := Pop(s.ring).0, s.log.popped;
    forall l | 0 <= l < |s.producers| ensures TicketOk(s.producers[l], r, s.log.accepted, n + 1) {
      assert TicketOk(s.producers[l], s.ring, s.log.accepted, n);
      if s.producers[l].Filling? && s.producers[l].ticket != n { PlacesApart(n, s.producers[l].ticket); }
    }
  }

  lemma PopSlots(s: Sys)
    requires Ok(s) && s.consumer.Handled?
    ensures var r := Pop(s.ring).0; Shaped(r) && SlotsOk(r, s.producers, s.log.accepted, s.log.popped + 1)
  {
    hide Place, CopyOk, ItemsOf, TicketOk;
    var r, n := Pop(s.ring).0, s.log.popped;
    NextPlace(n);
    forall m | n + 1 <= m < |s.log.accepted| ensures SlotOk(m, r, s.producers, s.log.accepted) {
      PlacesApart(n, m);
      assert SlotOk(m, s.ring, s.producers, s.log.accepted);
    }
    forall m | |s.log.accepted| <= m < n + 1 + QUEUE_SIZE
      ensures r.slots[Place(m)].payload == None && !r.slots[Place(m)].ready
    {
      if m < n + QUEUE_SIZE { PlacesApart(n, m); }
    }
  }

  lemma OkIsAble(s: Sys, a: Action)
    requires Ok(s)
    ensures Able(s, a)
  {
    hide CopyOk, ItemsOf, SlotOk;
    forall k | 0 <= k < |s.producers| && s.producers[k].Filling? ensures s.producers[k].slot < QUEUE_SIZE {
      assert TicketOk(s.producers[k], s.ring, s.log.accepted, s.log.popped);
    }
  }

  /** Whatever anybody does next. */
  lemma StepKeeps(s: Sys, a: Action)
    requires Ok(s)
    ensures Able(s, a) && Ok(Step(s, a))
  {
    hide Ok, ArriveStep, ProducerStep, ConsumerStep;
    OkIsAble(s, a);
    match a
    case Arrive(k, item, allocates) => if k < |s.producers| { ArriveKeeps(s, k, item, allocates); }
    case Go(k) => if k < |s.producers| { ProducerKeeps(s, k); }
    case Consume(headroom) => if s.consumer.Handled? { PopKeeps(s, headroom); } else { HandleKeeps(s, headroom); }
  }
}

/**
 Who owns which copy of a payload: every copy made has one owner, or has been freed, once.
 */
module WsCopies {
  import opened Basics
  import opened WsMachine
  import opened WsQueue

  /** How often copy p is among these. */
  function Count(pays: seq<Option<nat>>, p: nat): nat {
    if pays == [] then 0 else Is(pays[0], p) + Count(pays[1..], p)
  }

  function Is(pay: Option<nat>, p: nat): nat {
    if pay == Some(p) then 1 else 0
  }

  lemma {:induction false} CountUpdate(pays: seq<Option<nat>>, i: nat, x: Option<nat>, p: nat)
    requires i < |pays|
    ensures Count(pays[i := x], p) + Is(pays[i], p) == Count(pays, p) + Is(x, p)
  {
    if i > 0 {
      CountUpdate(pays[1..], i - 1, x, p);
      assert pays[i := x][1..] == pays[1..][i - 1 := x];
    } else {
      assert pays[0 := x][1..] == pays[1..];
    }
  }

  lemma {:induction false} Counted(pays: seq<Option<nat>>, i: nat, p: nat)
    requires i < |pays| && pays[i] == Some(p)
    ensures Count(pays, p) > 0
  {
    if i > 0 { Counted(pays[1..], i - 1, p); }
  }

  lemma {:induction false} NoneCounted(pays: seq<Option<nat>>, p: nat)
    requires forall i :: 0 <= i < |pays| ==> pays[i] == None
    ensures Count(pays, p) == 0
  {
    if pays != [] { NoneCounted(pays[1..], p); }
  }

  /** The copy a producer has in hand: until it has stored it in its slot. */
  function Held(p: Producer): Option<nat> {
    match p
    case Idle => None
    case Holding(_, pay) => pay
    case Filling(_, pay, _, step, _) => if step < FILL_STEPS then pay else None
    case Dropping(pay) => pay
  }

  function HeldBy(producers: seq<Producer>): (r: seq<Option<nat>>)
    ensures |r| == |producers| && forall i :: 0 <= i < |r| ==> r[i] == Held(producers[i])
  {
    seq(|producers|, i requires 0 <= i < |producers| => Held(producers[i]))
  }

  function Stored(slots: seq<Slot>): (r: seq<Option<nat>>)
    ensures |r| == |slots| && forall i :: 0 <= i < |r| ==> r[i] == slots[i].payload
  {
    seq(|slots|, i requires 0 <= i < |slots| => slots[i].payload)
  }

  function Carried(c: Consumer): Option<nat> {
    if c.Freeing? then c.pay else None
  }

  /** How many have copy p in hand, have it stored or carry it, and how often it has been freed. */
  function Owners(s: Sys, p: nat): nat {
    Count(HeldBy(s.producers), p) + Count(Stored(s.ring.slots), p) + Is(Carried(s.consumer), p) +
        multiset(s.log.freed)[p]
  }

  /** Every copy made is in one hand, or has been freed once. */
  ghost predicate OwnOk(s: Sys) {
    forall p: nat :: Owners(s, p) == if p < |s.heap| then 1 else 0
  }

  lemma Hands(producers: seq<Producer>, k: nat, x: Producer, p: nat)
    requires k < |producers|
    ensures Count(HeldBy(producers[k := x]), p) + Is(Held(producers[k]), p) == Count(HeldBy(producers), p) +
            Is(Held(x), p)
  {
    assert HeldBy(producers[k := x]) == HeldBy(producers)[k := Held(x)];
    CountUpdate(HeldBy(producers), k, Held(x), p);
  }

  lemma Stores(slots: seq<Slot>, i: nat, x: Slot, p: nat)
    requires i < |slots|
    ensures Count(Stored(slots[i := x]), p) + Is(slots[i].payload, p) == Count(Stored(slots), p) + Is(x.payload, p)
  {
    assert Stored(slots[i := x]) == Stored(slots)[i := x.payload];
    CountUpdate(Stored(slots), i, x.payload, p);
  }

  lemma FreedCount(freed: seq<nat>, pay: Option<nat>, p: nat)
    ensures multiset(Freed(freed, pay))[p] == multiset(freed)[p] + Is(pay, p)
  {
  }

  lemma ArriveOwns(s: Sys, k: nat, item: Item, allocates: bool)
    requires OwnOk(s) && k < |s.producers|
    ensures OwnOk(ArriveStep(s, k, item, allocates))
  {
    hide HeldBy, Stored, Count;
    var s' := ArriveStep(s, k, item, allocates);
    forall p: nat ensures Owners(s', p) == if p < |s'.heap| then 1 else 0 {
      assert Owners(s, p) == if p < |s.heap| then 1 else 0;
      if s'.producers != s.producers { Hands(s.producers, k, s'.producers[k], p); }
    }
  }

  lemma ProducerOwns(s: Sys, k: nat)
    requires Ok(s) && OwnOk(s) && k < |s.producers|
    requires s.producers[k].Filling? ==> s.producers[k].slot < QUEUE_SIZE
    ensures Shaped(s.ring) && OwnOk(ProducerStep(s, k))
  {
    hide Place, SlotOk, ConsumerOk, CopiesOk, OwnOk, ProducerStep;
    if s.producers[k].Filling? {
      assert TicketOk(s.producers[k], s.ring, s.log.accepted, s.log.popped);
      FillOwns(s, k);
    } else {
      QueueOwns(s, k);
    }
  }

  lemma QueueOwns(s: Sys, k: nat)
    requires Shaped(s.ring) && OwnOk(s) && k < |s.producers| && !s.producers[k].Filling?
    ensures OwnOk(ProducerStep(s, k))
  {
    hide HeldBy, Stored, Count, Freed;
    var s' := ProducerStep(s, k);
    forall p: nat ensures Owners(s', p) == if p < |s'.heap| then 1 else 0 {
      assert Owners(s, p) == if p < |s.heap| then 1 else 0;
      match s.producers[k] {
        case Idle =>
        case Dropping(pay) =>
          Hands(s.producers, k, Idle, p);
          FreedCount(s.log.freed, pay, p);
        case Holding(item, pay) =>
          Hands(s.producers, k, s'.producers[k], p);
          Stores(s.ring.slots, s.ring.tail, s.ring.slots[s.ring.tail].(ready := false), p);
      }
    }
  }

  lemma FillOwns(s: Sys, k: nat)
    requires Shaped(s.ring) && OwnOk(s) && k < |s.producers| && s.producers[k].Filling?
    requires s.producers[k].slot < QUEUE_SIZE && FillOk(s.producers[k], s.ring.slots[s.producers[k].slot])
    ensures OwnOk(ProducerStep(s, k))
  {
    hide HeldBy, Stored, Count;
    var s', x := ProducerStep(s, k), s.producers[k];
    forall p: nat ensures Owners(s', p) == if p < |s'.heap| then 1 else 0 {
      assert Owners(s, p) == if p < |s.heap| then 1 else 0;
      Hands(s.producers, k, s'.producers[k], p);
      Stores(s.ring.slots, x.slot, s'.ring.slots[x.slot], p);
    }
  }

  lemma ConsumerOwns(s: Sys, headroom: bool)
    requires OwnOk(s) && Shaped(s.ring) && (s.consumer.Has? ==> s.consumer.slot < QUEUE_SIZE)
    ensures OwnOk(ConsumerStep(s, headroom))
  {
    hide HeldBy, Stored, Count, Freed;
    var s' := ConsumerStep(s, headroom);
    forall p: nat ensures Owners(s', p) == if p < |s'.heap| then 1 else 0 {
      assert Owners(s, p) == if p < |s.heap| then 1 else 0;
      if s.consumer.Handled? && s.ring.count > 0 {
        Stores(s.ring.slots, s.ring.head, s'.ring.slots[s.ring.head], p);
      } else if s.consumer.Freeing? {
        FreedCount(s.log.freed, s.consumer.pay, p);
      }
    }
  }

  // ---------------------------------------------------------------- freed on pop

  /** What was popped has been given back, or is about to be. */
  predicate FreedOk(s: Sys) {
    forall n :: 0 <= n < s.log.popped && n < |s.log.accepted| && s.log.accepted[n].pay.Some? ==>
      s.log.accepted[n].pay.value in s.log.freed || Carried(s.consumer) == s.log.accepted[n].pay
  }

  lemma FreedKeeps(s: Sys, a: Action)
    requires Ok(s) && Able(s, a) && FreedOk(s)
    ensures FreedOk(Step(s, a))
  {
    hide Place, TicketOk, CopiesOk;
    if a.Consume? && s.consumer.Handled? {
      PopsItsCopy(s);
    }
  }

  /** The payload that pop takes is the next item's copy. */
  lemma PopsItsCopy(s: Sys)
    requires Ok(s) && s.consumer.Handled?
    ensures s.log.popped < |s.log.accepted| && Pop(s.ring).1 == s.log.accepted[s.log.popped].pay
  {
    hide Place, TicketOk, ItemsOf, CopiesOk;
    assert SlotOk(s.log.popped, s.ring, s.producers, s.log.accepted);
  }

  // ---------------------------------------------------------------- runs

  ghost predicate AllOk(s: Sys) {
    Ok(s) && OwnOk(s) && FreedOk(s)
  }

  function Start(producers: nat): Sys {
    Sys(Ring(seq(QUEUE_SIZE, _ => EMPTY_SLOT), 0, 0, 0), seq(producers, _ => Idle), Looking, [], Log([], 0, [], []))
  }

  lemma StartOk(producers: nat)
    ensures AllOk(Start(producers))
  {
    hide Count;
    var s := Start(producers);
    forall p: nat ensures Owners(s, p) == 0 {
      NoneCounted(HeldBy(s.producers), p);
      NoneCounted(Stored(s.ring.slots), p);
    }
    assert s.log.accepted[..0] == [];
  }

  lemma AllKeep(s: Sys, a: Action)
    requires AllOk(s)
    ensures Able(s, a) && AllOk(Step(s, a))
  {
    hide Ok, OwnOk, FreedOk, ArriveStep, ProducerStep, ConsumerStep;
    OkIsAble(s, a);
    StepKeeps(s, a);
    FreedKeeps(s, a);
    match a
    case Arrive(k, item, allocates) => if k < |s.producers| { ArriveOwns(s, k, item, allocates); }
    case Go(k) => if k < |s.producers| { ProducerOwns(s, k); }
    case Consume(headroom) => ConsumerOwns(s, headroom);
  }

  ghost function Run(s: Sys, actions: seq<Action>): (r: Sys)
    requires AllOk(s)
    ensures AllOk(r)
    decreases |actions|
  {
    if actions == [] then s
    else
      AllKeep(s, actions[0]);
      Run(Step(s, actions[0]), actions[1..])
  }

  /** Any number of producers, and any interleaving of their steps with the consumer's. */
  ghost function Reached(producers: nat, actions: seq<Action>): (r: Sys)
    ensures AllOk(r)
  {
    StartOk(producers);
    Run(Start(producers), actions)
  }

  /** First in, first out, at most six at a time: what was handled is, in the order of reservation,
      everything accepted but the last few, each once. */
  lemma FirstInFirstOut(producers: nat, actions: seq<Action>)
    ensures var s := Reached(producers, actions);
            && s.log.handled <= ItemsOf(s.log.accepted)
            && s.log.popped <= |s.log.handled| <= s.log.popped + 1
            && |s.log.accepted| - s.log.popped == s.ring.count <= 6
  {
    hide Reached, SlotsOk, ProducersOk, OwnOk, FreedOk, CopiesOk;
    var s := Reached(producers, actions);
    var m := |s.log.handled|;
    assert ItemsOf(s.log.accepted)[..m] == ItemsOf(s.log.accepted[..m]);
  }

  /** The consumer never sees a slot that is not whole, nor out of turn. */
  lemma SeesOnlyWholeItems(producers: nat, actions: seq<Action>)
    ensures var s := Reached(producers, actions);
            s.consumer.Has? ==>
              s.consumer.slot < |s.ring.slots| && s.log.popped < |s.log.accepted|
              && Read(s.ring.slots[s.consumer.slot], s.heap) == s.log.accepted[s.log.popped].item
  {
    hide Reached, SlotsOk, ProducersOk, OwnOk, FreedOk, CopiesOk;
    var s := Reached(producers, actions);
    if s.consumer.Has? { ReadsNext(s); }
  }

  /** Every copy is freed at most once; that of an accepted item on its pop, and not before. */
  lemma FreedOnceOnPop(producers: nat, actions: seq<Action>, n: nat)
    requires n < |Reached(producers, actions).log.accepted| && Reached(producers, actions).log.accepted[n].pay.Some?
    ensures var s := Reached(producers, actions);
            var p := s.log.accepted[n].pay.value;
            && multiset(s.log.freed)[p] == (if n < s.log.popped && s.consumer != Freeing(Some(p)) then 1 else 0)
  {
    hide Reached, SlotsOk, ProducersOk, CopiesOk, Count, Stored, HeldBy, ConsumerOk;
    var s := Reached(producers, actions);
    var p := s.log.accepted[n].pay.value;
    assert Owners(s, p) <= 1;
    if n >= s.log.popped {
      NotFreedYet(s, n, p);
    } else if s.consumer != Freeing(Some(p)) {
      assert p in multiset(s.log.freed);
    }
  }

  lemma NotFreedYet(s: Sys, n: nat, p: nat)
    requires Ok(s) && OwnOk(s) && s.log.popped <= n < |s.log.accepted| && s.log.accepted[n].pay == Some(p)
    ensures multiset(s.log.freed)[p] == 0 && s.consumer != Freeing(Some(p))
  {
    hide Place, CopiesOk, Count, Stored, HeldBy, ConsumerOk;
    assert Owners(s, p) <= 1;
    assert SlotOk(n, s.ring, s.producers, s.log.accepted);
    if s.ring.slots[Place(n)].ready {
      Counted(Stored(s.ring.slots), Place(n), p);
    } else {
      var k :| 0 <= k < |s.producers| && s.producers[k].Filling? && s.producers[k].ticket == n;
      assert TicketOk(s.producers[k], s.ring, s.log.accepted, s.log.popped);
      if s.producers[k].step < FILL_STEPS {
        Counted(HeldBy(s.producers), k, p);
      } else {
        Counted(Stored(s.ring.slots), Place(n), p);
      }
    }
  }

  /** Nothing leaks: once the ring is empty and everybody is done, every copy ever made, also of
      items that were dropped, has been freed, once. */
  lemma NothingLeaks(producers: nat, actions: seq<Action>, p: nat)
    ensures var s := Reached(producers, actions);
            s.ring.count == 0 && s.consumer.Looking?
            && (forall k :: 0 <= k < |s.producers| ==> s.producers[k].Idle?) ==>
              multiset(s.log.freed)[p] == if p < |s.heap| then 1 else 0
  {
    hide Reached, ProducersOk, CopiesOk, Count, ConsumerOk;
    var s := Reached(producers, actions);
    if s.ring.count == 0 && s.consumer.Looking? && forall k :: 0 <= k < |s.producers| ==> s.producers[k].Idle? {
      assert Owners(s, p) == if p < |s.heap| then 1 else 0;
      NoneCounted(HeldBy(s.producers), p);
      NothingStored(s.ring, s.producers, s.log.accepted, s.log.popped);
      NoneCounted(Stored(s.ring.slots), p);
    }
  }

  lemma NothingStored(r: Ring, producers: seq<Producer>, accepted: seq<Accepted>, popped: nat)
    requires RingOk(r, |accepted|, popped) && SlotsOk(r, producers, accepted, popped) && r.count == 0
    ensures forall i :: 0 <= i < QUEUE_SIZE ==> r.slots[i].payload == None
  {
    hide SlotOk;
    forall i | 0 <= i < QUEUE_SIZE ensures r.slots[i].payload == None {
      var n := popped + (i + QUEUE_SIZE - Place(popped)) % QUEUE_SIZE;
      assert Place(n) == i;
    }
  }
}

/**
 The inbound WebSocket queue: a ring whose slots are reserved under a lock, filled without it and
 published under it, by any number of producers, for one consumer; step by step.
 */
module WsMachine {
  import opened Basics

  const QUEUE_SIZE := 6
  const MAX_COMMAND_BYTES := 7168

  datatype Kind = Connect | Disconnect | Data

  /** What a network callback brings. */
  datatype Item = Item(kind: Kind, client: nat, bytes: seq<Byte>)

  /** A slot; payload names an allocated copy. */
  datatype Slot = Slot(ready: bool, kind: Kind, client: nat, length: nat, payload: Option<nat>)

  datatype Ring = Ring(slots: seq<Slot>, head: nat, tail: nat, count: nat)

  predicate Shaped(r: Ring) {
    |r.slots| == QUEUE_SIZE && r.head < QUEUE_SIZE && r.tail < QUEUE_SIZE && r.count <= QUEUE_SIZE
  }

  const EMPTY_SLOT := Slot(false, Connect, 0, 0, None)

  /** The first locked section of enqueueWsInbound. */
  function Reserve(r: Ring): (Ring, Option<nat>)
    requires Shaped(r)
  {
    if r.count >= QUEUE_SIZE then (r, None)
    else (r.(slots := r.slots[r.tail := r.slots[r.tail].(ready := false)], tail := (r.tail + 1) % QUEUE_SIZE,
             count := r.count + 1), Some(r.tail))
  }

  /** The unlocked filling, one store at a time. */
  function Fill(r: Ring, slot: nat, item: Item, pay: Option<nat>, step: nat): Ring
    requires Shaped(r) && slot < QUEUE_SIZE
  {
    var s := r.slots[slot];
    var s' := if step == 0 then s.(payload := None)
              else if step == 1 then s.(kind := item.kind)
              else if step == 2 then s.(client := item.client)
              else if step == 3 then s.(length := |item.bytes|)
              else s.(payload := pay);
    r.(slots := r.slots[slot := s'])
  }

  const FILL_STEPS := 5

  function Publish(r: Ring, slot: nat): Ring
    requires Shaped(r) && slot < QUEUE_SIZE
  {
    r.(slots := r.slots[slot := r.slots[slot].(ready := true)])
  }

  function Peek(r: Ring): Option<nat>
    requires Shaped(r)
  {
    if r.count > 0 && r.slots[r.head].ready then Some(r.head) else None
  }

  /** The locked section of popWsInbound, and the payload to free. */
  function Pop(r: Ring): (Ring, Option<nat>)
    requires Shaped(r)
  {
    if r.count == 0 then (r, None)
    else
      (r.(slots := r.slots[r.head := r.slots[r.head].(payload := None, length := 0, ready := false)],
          head := (r.head + 1) % QUEUE_SIZE, count := r.count - 1),
       r.slots[r.head].payload)
  }

  // ---------------------------------------------------------------- producers and the consumer

  /** Idle; with a copy in hand; filling the slot it reserved, whose turn is ticket; or with a copy
      to give back because the ring was full. */
  datatype Producer =
    | Idle
    | Holding(item: Item, pay: Option<nat>)
    | Filling(item: Item, pay: Option<nat>, slot: nat, step: nat, ticket: nat)
    | Dropping(pay: Option<nat>)

  datatype Consumer = Looking | Has(slot: nat) | Handled | Freeing(pay: Option<nat>)

  /** An item that was given a slot, with its copy. */
  datatype Accepted = Accepted(item: Item, pay: Option<nat>)

  datatype Log = Log(accepted: seq<Accepted>, popped: nat, handled: seq<Item>, freed: seq<nat>)

  /** heap holds what the copies made so far contain. */
  datatype Sys = Sys(ring: Ring, producers: seq<Producer>, consumer: Consumer, heap: seq<seq<Byte>>, log: Log)

  datatype Action =
    | Arrive(k: nat, item: Item, allocates: bool)
    | Go(k: nat)
    | Consume(headroom: bool)

  function Freed(freed: seq<nat>, pay: Option<nat>): seq<nat> {
    if pay.Some? then freed + [pay.value] else freed
  }

  /** What the consumer reads in a slot. */
  function Read(s: Slot, heap: seq<seq<Byte>>): Item {
    Item(s.kind, s.client, if s.payload.Some? && s.payload.value < |heap| then heap[s.payload.value] else [])
  }

  /** enqueueWsInbound up to the first lock: too long, or no memory for a copy, and it is dropped. */
  function ArriveStep(s: Sys, k: nat, item: Item, allocates: bool): Sys
    requires k < |s.producers|
  {
    if !s.producers[k].Idle? || |item.bytes| > MAX_COMMAND_BYTES then s
    else if item.bytes == [] then s.(producers := s.producers[k := Holding(item, None)])
    else if !allocates then s
    else s.(producers := s.producers[k := Holding(item, Some(|s.heap|))], heap := s.heap + [item.bytes])
  }

  /** The next step of a producer. */
  function ProducerStep(s: Sys, k: nat): Sys
    requires Shaped(s.ring) && k < |s.producers| && (s.producers[k].Filling? ==> s.producers[k].slot < QUEUE_SIZE)
  {
    match s.producers[k]
    case Idle => s
    case Holding(item, pay) =>
      var (ring, slot) := Reserve(s.ring);
      if slot.None? then s.(producers := s.producers[k := Dropping(pay)])
      else s.(ring := ring, producers := s.producers[k := Filling(item, pay, slot.value, 0, |s.log.accepted|)],
              log := s.log.(accepted := s.log.accepted + [Accepted(item, pay)]))
    case Dropping(pay) =>
      s.(producers := s.producers[k := Idle], log := s.log.(freed := Freed(s.log.freed, pay)))
    case Filling(item, pay, slot, step, ticket) =>
      if step == 0 then
        s.(ring := Fill(s.ring, slot, item, pay, 0), producers := s.producers[k := Filling(item, pay, slot, 1, ticket)],
           log := s.log.(freed := Freed(s.log.freed, s.ring.slots[slot].payload)))
      else if step < FILL_STEPS then
        s.(ring := Fill(s.ring, slot, item, pay, step),
            producers := s.producers[k := Filling(item, pay, slot, step + 1, ticket)])
      else s.(ring := Publish(s.ring, slot), producers := s.producers[k := Idle])
  }

  /** The next step of processWsInbound: without headroom a data item stays where it is. */
  function ConsumerStep(s: Sys, headroom: bool): Sys
    requires Shaped(s.ring) && (s.consumer.Has? ==> s.consumer.slot < QUEUE_SIZE)
  {
    match s.consumer
    case Looking => (match Peek(s.ring) case None => s case Some(i) => s.(consumer := Has(i)))
    case Has(i) =>
      var item := Read(s.ring.slots[i], s.heap);
      if item.kind.Data? && !headroom then s.(consumer := Looking)
      else s.(consumer := Handled, log := s.log.(handled := s.log.handled + [item]))
    case Handled =>
      var (ring, pay) := Pop(s.ring);
      s.(ring := ring, consumer := Freeing(pay), log := s.log.(popped := s.log.popped + 1))
    case Freeing(pay) => s.(consumer := Looking, log := s.log.(freed := Freed(s.log.freed, pay)))
  }

  predicate Able(s: Sys, a: Action) {
    && Shaped(s.ring) && (s.consumer.Has? ==> s.consumer.slot < QUEUE_SIZE)
    && (forall k :: 0 <= k < |s.producers| && s.producers[k].Filling? ==> s.producers[k].slot < QUEUE_SIZE)
  }

  /** A step of anybody; producers that do not exist do nothing. */
  function Step(s: Sys, a: Action): Sys
    requires Able(s, a)
  {
    match a
    case Arrive(k, item, allocates) => if k < |s.producers| then ArriveStep(s, k, item, allocates) else s
    case Go(k) => if k < |s.producers| then ProducerStep(s, k) else s
    case Consume(headroom) => ConsumerStep(s, headroom)
  }
}

/**
 The inbound queue's ring in place: what each locked section and each store does to it.
 */
module WsInbound {
  import opened Basics
  import opened WsMachine

  class InboundQueue {
    const slots: array<Slot>
    var head: nat
    var tail: nat
    var count: nat

    ghost predicate Valid()
      reads this, slots
    {
      slots.Length == QUEUE_SIZE && head < QUEUE_SIZE && tail < QUEUE_SIZE && count <= QUEUE_SIZE
    }

    ghost function State(): (r: Ring)
      requires Valid()
      reads this, slots
      ensures Shaped(r)
    {
      Ring(slots[..], head, tail, count)
    }

    constructor ()
      ensures Valid() && State() == Ring(seq(QUEUE_SIZE, _ => EMPTY_SLOT), 0, 0, 0) && fresh(slots)
    {
      slots := new Slot[QUEUE_SIZE](_ => EMPTY_SLOT);
      head, tail, count := 0, 0, 0;
      new;
      assert slots[..] == seq(QUEUE_SIZE, _ => EMPTY_SLOT);
    }

    /** The locked section that reserves a slot, if the ring has one. */
    method ReserveSlot() returns (slot: Option<nat>)
      requires Valid()
      modifies this, slots
      ensures Valid() && (State(), slot) == Reserve(old(State()))
    {
      if count >= QUEUE_SIZE { return None; }
      slot := Some(tail);
      tail := (tail + 1) % QUEUE_SIZE;
      count := count + 1;
      slots[slot.value] := slots[slot.value].(ready := false);
    }

    /** The unlocked stores, all of them; returns a stale payload to free, if there is one. */
    method FillSlot(slot: nat, item: Item, pay: Option<nat>) returns (stale: Option<nat>)
      requires Valid() && slot < QUEUE_SIZE
      modifies slots
      ensures Valid() && stale == old(slots[slot]).payload
      ensures State() == Filled(old(State()), slot, item, pay, FILL_STEPS)
    {
      ghost var r := State();
      stale := slots[slot].payload;
      slots[slot] := slots[slot].(payload := None);
      assert State() == Filled(r, slot, item, pay, 1);
      slots[slot] := slots[slot].(kind := item.kind);
      assert State() == Filled(r, slot, item, pay, 2);
      slots[slot] := slots[slot].(client := item.client);
      assert State() == Filled(r, slot, item, pay, 3);
      slots[slot] := slots[slot].(length := |item.bytes|);
      assert State() == Filled(r, slot, item, pay, 4);
      slots[slot] := slots[slot].(payload := pay);
    }

    /** The locked section that publishes a slot. */
    method PublishSlot(slot: nat)
      requires Valid() && slot < QUEUE_SIZE
      modifies slots
      ensures Valid() && State() == Publish(old(State()), slot)
    {
      slots[slot] := slots[slot].(ready := true);
    }

    /** peekWsInbound */
    method PeekSlot() returns (slot: Option<nat>)
      requires Valid()
      ensures slot == Peek(State())
    {
      slot := None;
      if count > 0 && slots[head].ready { slot := Some(head); }
    }

    /** popWsInbound's locked section, and the payload to free behind it. */
    method PopSlot() returns (pay: Option<nat>)
      requires Valid()
      modifies this, slots
      ensures Valid() && (State(), pay) == Pop(old(State()))
    {
      pay := None;
      if count > 0 {
        pay := slots[head].payload;
        slots[head] := slots[head].(payload := None, length := 0, ready := false);
        head := (head + 1) % QUEUE_SIZE;
        count := count - 1;
      }
    }
  }

  /** The first n stores of the filling. */
  function Filled(r: Ring, slot: nat, item: Item, pay: Option<nat>, n: nat): (r': Ring)
    requires Shaped(r) && slot < QUEUE_SIZE
    ensures Shaped(r')
    decreases n
  {
    if n == 0 then r else Fill(Filled(r, slot, item, pay, n - 1), slot, item, pay, n - 1)
  }
}

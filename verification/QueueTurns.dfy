/**
 Whose turn it is: the high queue before the low one, the first in either that may go; and what
 scheduling leaves alone.
 */
module QueueTurns {
  import opened Basics
  import opened QueueSpec
  import opened QueueRules

  // ---------------------------------------------------------------- what goes out

  /** Its time has come, if it is an off packet, and the packet before was not for the same loco. */
  predicate CanGo(s: Slot, last: Word, now: Word32) {
    (s.kind.AccOffPacket? ==> s.shared <= now) && (s.Loco() == 0 || s.Loco() != last)
  }

  /** Slot i is the first of the queue that can go. */
  predicate FirstToGo(q: seq<Slot>, i: nat, last: Word, now: Word32) {
    i < |q| && CanGo(q[i], last, now) && forall k :: 0 <= k < i ==> !CanGo(q[k], last, now)
  }

  predicate NoneToGo(q: seq<Slot>, last: Word, now: Word32) {
    forall k :: 0 <= k < |q| ==> !CanGo(q[k], last, now)
  }

  /** The packet of a slot on its way: repeats are left to the generator unless it is for a loco. */
  predicate Carries(sent: Option<Sent>, s: Slot) {
    && sent.Some? && sent.value.loco == s.Loco() && sent.value.length == s.length && sent.value.packet == s.packet
    && sent.value.repeats == if s.Loco() == 0 then s.repeat else 0
  }

  /** Nothing of it is left to send. */
  predicate Last(s: Slot) {
    s.Loco() == 0 || s.repeat == 0
  }

  /** The queue after slot i went out: it is gone, or has one repeat less. */
  predicate Less(q: seq<Slot>, i: nat, r: seq<Slot>)
    requires i < |q|
  {
    if Last(q[i]) then r == q[..i] + q[i + 1..] else r == q[i := q[i].(repeat := q[i].repeat - 1)]
  }

  /** The off packet of an accessory: due after its delay, and but for the gate bit the same packet. */
  predicate IsOff(off: Slot, s: Slot, now: Word32) {
    && off.kind.AccOffPacket? && off.length == s.length && off.repeat == s.repeat
    && off.shared == (now + s.Loco()) % WORD_32
    && (forall k :: 0 <= k < MAX_PACKET_SIZE && k != 1 ==> off.packet[k] == s.packet[k])
    && (off.packet[1] / 8) % 2 == 0 && off.packet[1] % 8 == s.packet[1] % 8
    && off.packet[1] / 16 == s.packet[1] / 16
  }

  /** What one call of scheduleNext has to do: the high queue goes first, and in each queue the first
      that can go; an idle packet, or nothing, only when neither has one. */
  ghost predicate InTurn(q: Queues, force: bool, now: Word32, q': Queues, sent: Option<Sent>) {
    && (forall i: nat :: FirstToGo(q.high, i, q.last, now) ==>
          && Carries(sent, q.high[i]) && q'.last == q.high[i].Loco() && q'.low == q.low
          && (!q.high[i].kind.AccOnPacket? ==> Less(q.high, i, q'.high)))
    && (forall i: nat :: NoneToGo(q.high, q.last, now) && FirstToGo(q.low, i, q.last, now) ==>
          && Carries(sent, q.low[i]) && q'.last == q.low[i].Loco() && Less(q.low, i, q'.low)
          && if q.low[i].kind.AccOnPacket? && Last(q.low[i])
             then q'.high != [] && IsOff(q'.high[0], q.low[i], now) && q'.high[1..] == q.high
             else q'.high == q.high)
    && (NoneToGo(q.high, q.last, now) && NoneToGo(q.low, q.last, now) ==>
          && q'.high == q.high && q'.low == q.low
          && if force then sent == Some(IDLE) && q'.last == 0 else sent == None && q'.last == q.last)
  }

  lemma SendableGoes(s: Slot, last: Word, now: Word32)
    ensures s.Sendable(last, now) <==> CanGo(s, last, now)
  {
  }

  lemma FirstGoes(q: seq<Slot>, last: Word, now: Word32)
    ensures match FirstSendable(q, last, now, 0)
            case Some(i) => forall k: nat :: FirstToGo(q, k, last, now) <==> k == i
            case None => NoneToGo(q, last, now) && forall k: nat :: !FirstToGo(q, k, last, now)
    ensures FirstSendable(q, last, now, 0).Some? ==> !NoneToGo(q, last, now)
  {
    hide CanGo;
    forall k | 0 <= k < |q| ensures q[k].Sendable(last, now) <==> CanGo(q[k], last, now) {
      SendableGoes(q[k], last, now);
    }
  }

  /** In every queue there is a first that can go, or none can. */
  lemma SomeTurn(q: seq<Slot>, last: Word, now: Word32)
    ensures NoneToGo(q, last, now) <==> !exists i: nat :: FirstToGo(q, i, last, now)
  {
    hide CanGo;
    FirstGoes(q, last, now);
    match FirstSendable(q, last, now, 0)
    case Some(i) => assert FirstToGo(q, i, last, now);
    case None =>
  }

  lemma OffIs(s: Slot, now: Word32)
    ensures IsOff(TurnedOff(s, now), s, now)
  {
  }

  lemma AfterLess(q: seq<Slot>, i: nat, now: Word32)
    requires i < |q|
    ensures Less(q, i, After(q, i, now).0)
    ensures After(q, i, now).1 == if q[i].kind.AccOnPacket? && Last(q[i]) then [TurnedOff(q[i], now)] else []
  {
  }

  lemma NextInTurn(q: Queues, force: bool, now: Word32)
    ensures InTurn(q, force, now, NextSpec(q, force, now).0, NextSpec(q, force, now).1)
  {
    hide FirstSendable, FirstToGo, NoneToGo, Less, After, Last, Carries, IsOff;
    FirstGoes(q.high, q.last, now);
    FirstGoes(q.low, q.last, now);
    match FirstSendable(q.high, q.last, now, 0)
    case Some(i) =>
      AfterLess(q.high, i, now);
      CarriesIt(q.high[i]);
      assert [] + After(q.high, i, now).0 == After(q.high, i, now).0;
    case None =>
      match FirstSendable(q.low, q.last, now, 0) {
        case Some(i) =>
          AfterLess(q.low, i, now);
          CarriesIt(q.low[i]);
          OffInFront(q, i, now);
        case None =>
      }
  }

  lemma CarriesIt(s: Slot)
    ensures Carries(Some(SentOf(s)), s)
  {
  }

  /** The off packet jumps the high queue, if the packet that went out was the last of an on packet. */
  lemma OffInFront(q: Queues, i: nat, now: Word32)
    requires i < |q.low|
    ensures var high := After(q.low, i, now).1 + q.high;
            if q.low[i].kind.AccOnPacket? && Last(q.low[i])
            then high != [] && IsOff(high[0], q.low[i], now) && high[1..] == q.high
            else high == q.high
  {
    hide After, Last, IsOff, TurnedOff;
    AfterLess(q.low, i, now);
    OffIs(q.low[i], now);
    assert [] + q.high == q.high && ([TurnedOff(q.low[i], now)] + q.high)[1..] == q.high;
  }

  /** A packet that is taken on from the queues is never an accessory's off packet before its time. */
  lemma OffWaitsItsTime(q: Queues, force: bool, now: Word32, i: nat)
    requires HighOk(q.high) && i < |q.high| && q.high[i].kind.AccOffPacket? && now < q.high[i].shared
    ensures q.high[i] in NextSpec(q, force, now).0.high
  {
    hide Last, IsOff, Carries, NextSpec, HighOk, FirstSendable;
    NextInTurn(q, force, now);
    FirstGoes(q.high, q.last, now);
    FirstGoes(q.low, q.last, now);
    var q' := NextSpec(q, force, now).0;
    match FirstSendable(q.high, q.last, now, 0)
    case Some(j) =>
      assert FirstToGo(q.high, j, q.last, now) && j != i;
      HighKind(q.high, j);
      assert q'.high[if i < j || |q'.high| == |q.high| then i else i - 1] == q.high[i];
    case None =>
      match FirstSendable(q.low, q.last, now, 0) {
        case Some(j) =>
          assert FirstToGo(q.low, j, q.last, now);
          if q'.high != q.high { assert q'.high[1 + i] == q.high[i]; }
        case None =>
      }
  }

  // ---------------------------------------------------------------- what scheduling leaves alone

  predicate OneMore(q: seq<Slot>, r: seq<Slot>) {
    |r| == |q| + 1 && r[..|q|] == q
  }

  /** One slot has another packet, for whom and of what kind it was. */
  predicate OneReplaced(q: seq<Slot>, r: seq<Slot>) {
    |r| == |q| && exists i :: 0 <= i < |q| && r == q[i := r[i]] && r[i].kind == q[i].kind && r[i].shared == q[i].shared
  }

  /** But for an estop, whatever is scheduled leaves all other packets queued where they are, and the
      other queue alone: speed packets go to the high queue, everything else to the low one. */
  lemma OthersStay(q: Queues, c: Call)
    requires c.Fits() && !c.Next? && !c.Estop?
    ensures var (q', sent) := Do(q, c);
            && sent == None && q'.last == q.last
            && (c.Speed? ==> q'.low == q.low && (OneMore(q.high, q'.high) || OneReplaced(q.high, q'.high)))
            && (c.Normal? || c.AccOnOff? ==> q'.high == q.high && OneMore(q.low, q'.low))
            && (c.Function? ==> q'.high == q.high && (OneMore(q.low, q'.low) || OneReplaced(q.low, q'.low)
                                                      || (q'.low == q.low && !(1 <= c.group <= 5))))
  {
    hide FirstLoco, FirstGroup, NewSlot;
  }

  /** What joins the low queue's end: the packet as it was given, for its loco or with its delay. */
  lemma JoinsEnd(q: Queues, c: Call)
    requires c.Fits() && (c.Normal? || c.AccOnOff?)
    ensures var low := Do(q, c).0.low;
            && |low| == |q.low| + 1
            && var s := low[|q.low|];
               && s.kind == (if c.Normal? then NormalPacket else AccOnPacket)
               && s.Loco() == (if c.Normal? then c.loco else c.delay) && s.repeat == c.repeat && s.length == |c.packet|
               && (|c.packet| <= MAX_PACKET_SIZE ==> s.packet[..|c.packet|] == c.packet)
  {
    hide NewSlot;
    if c.Normal? {
      NewSlotIs(NormalPacket, c.packet, c.repeat, c.loco, c.buffer);
    } else {
      NewSlotIs(AccOnPacket, c.packet, c.repeat, c.delay, c.buffer);
    }
  }

  // ---------------------------------------------------------------- where a function packet goes

  /** Each of the five groups has a kind of its own, other numbers have none. */
  lemma GroupsApart(g: Byte, h: Byte)
    ensures GroupKind(g).Some? <==> 1 <= g <= 5
    ensures GroupKind(g).Some? ==> IsFunction(GroupKind(g).value)
    ensures g != h && GroupKind(g).Some? ==> GroupKind(g) != GroupKind(h)
  {
  }

  /** The packet queued for a loco and a function group. */
  function FunctionFor(q: seq<Slot>, loco: Word, group: Byte): (r: Option<Slot>)
    ensures r.Some? ==> r.value in q && Some(r.value.kind) == GroupKind(group) && r.value.Loco() == loco
    ensures r.None? ==> forall s :: s in q && Some(s.kind) == GroupKind(group) ==> s.Loco() != loco
  {
    if q == [] then None
    else if Some(q[0].kind) == GroupKind(group) && q[0].Loco() == loco then Some(q[0])
    else FunctionFor(q[1..], loco, group)
  }

  /** Only the slots of that loco and group matter, and their order. */
  lemma {:induction false} FunctionForUpdate(q: seq<Slot>, i: nat, s: Slot, loco: Word, group: Byte)
    requires i < |q| && s.kind == q[i].kind && s.Loco() == q[i].Loco()
    ensures !(Some(s.kind) == GroupKind(group) && s.Loco() == loco) ==>
              FunctionFor(q[i := s], loco, group) == FunctionFor(q, loco, group)
    ensures Some(s.kind) == GroupKind(group) && s.Loco() == loco
            && (forall k :: 0 <= k < i ==> q[k].kind != s.kind || q[k].Loco() != loco) ==>
              FunctionFor(q[i := s], loco, group) == Some(s)
    decreases |q|
  {
    hide GroupKind;
    if i > 0 {
      assert q[i := s][1..] == q[1..][i - 1 := s];
      FunctionForUpdate(q[1..], i - 1, s, loco, group);
    } else {
      assert q[i := s][1..] == q[1..];
    }
  }

  lemma {:induction false} FunctionForMore(q: seq<Slot>, s: Slot, loco: Word, group: Byte)
    ensures !(Some(s.kind) == GroupKind(group) && s.Loco() == loco) ==>
              FunctionFor(q + [s], loco, group) == FunctionFor(q, loco, group)
    ensures Some(s.kind) == GroupKind(group) && s.Loco() == loco && FunctionFor(q, loco, group).None? ==>
              FunctionFor(q + [s], loco, group) == Some(s)
  {
    hide GroupKind;
    if q == [] {
      assert q + [s] == [s] && [s][1..] == [];
    } else {
      assert (q + [s])[1..] == q[1..] + [s];
      FunctionForMore(q[1..], s, loco, group);
    }
  }

  /** scheduleDCCFunctionPacket gets the packet queued for its loco and group, and every other loco and
      group has what it had. */
  lemma FunctionIsQueued(q: Queues, packet: seq<Byte>, loco: Word, group: Byte, buffer: Buffer, loco2: Word,
                         group2: Byte)
    requires |packet| <= MAX_PACKET_SIZE && 1 <= group <= 5
    ensures var low := Do(q, Function(packet, loco, group, buffer)).0.low;
            && (var s := FunctionFor(low, loco, group);
                s.Some? && s.value.length == |packet| && s.value.repeat == 0 && s.value.packet[..|packet|] == packet)
            && (loco2 != loco || group2 != group ==>
                  FunctionFor(low, loco2, group2) == FunctionFor(q.low, loco2, group2))
  {
    hide NewSlot, FunctionFor, GroupKind, Replaced;
    GroupsApart(group, group2);
    var kind := GroupKind(group).value;
    match FirstGroup(q.low, loco, kind, 0)
    case Some(i) =>
      ReplacedIs(q.low[i], packet, 0);
      FunctionForUpdate(q.low, i, Replaced(q.low[i], packet, 0), loco, group);
      FunctionForUpdate(q.low, i, Replaced(q.low[i], packet, 0), loco2, group2);
    case None =>
      NewSlotIs(kind, packet, 0, loco, buffer);
      FunctionForMore(q.low, NewSlot(kind, packet, 0, loco, buffer), loco, group);
      FunctionForMore(q.low, NewSlot(kind, packet, 0, loco, buffer), loco2, group2);
  }

  lemma ReplacedIs(s: Slot, packet: seq<Byte>, repeat: Byte)
    requires |packet| <= MAX_PACKET_SIZE
    ensures var r := Replaced(s, packet, repeat);
            && r.kind == s.kind && r.shared == s.shared && r.length == |packet| && r.repeat == repeat
            && r.packet[..|packet|] == packet
  {
    assert packet + s.packet[|packet|..] == Copied(s.packet, packet);
  }
}

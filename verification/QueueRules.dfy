/**
 What the two packet queues promise: no two packets in a row to one loco, one speed packet per loco
 and one function packet per group, an estop that nothing undoes, and queues that drain.
 */
module QueueRules {
  import opened Basics
  import opened QueueSpec

  // ---------------------------------------------------------------- spacing

  lemma NextAlternates(q: Queues, force: bool, now: Word32)
    ensures var (q', sent) := NextSpec(q, force, now);
            && (sent.Some? ==> q'.last == sent.value.loco && (q.last != 0 ==> sent.value.loco != q.last))
            && (sent.None? ==> q' == q)
  {
  }

  /** No two in a row for one loco, nor the first for the one served last. */
  predicate Spaced(last: Word, sent: seq<Sent>) {
    && (sent != [] && last != 0 ==> sent[0].loco != last)
    && forall i :: 0 <= i < |sent| - 1 && sent[i].loco != 0 ==> sent[i + 1].loco != sent[i].loco
  }

  lemma SpacedJoin(last: Word, s: Sent, rest: seq<Sent>)
    requires (last != 0 ==> s.loco != last) && Spaced(s.loco, rest)
    ensures Spaced(last, [s] + rest)
  {
    var all := [s] + rest;
    forall i | 0 <= i < |all| - 1 && all[i].loco != 0 ensures all[i + 1].loco != all[i].loco {
      if i > 0 { assert all[i] == rest[i - 1] && all[i + 1] == rest[i]; }
    }
  }

  /** In any run, no two packets in a row go to the same loco. */
  lemma {:induction false} NoTwoInARow(q: Queues, calls: seq<Call>)
    requires forall i :: 0 <= i < |calls| ==> calls[i].Fits()
    ensures Spaced(q.last, Run(q, calls).1)
    decreases |calls|
  {
    hide NextSpec, SpeedSpec, FunctionSpec, Survivors, NewSlot, Spaced;
    if calls == [] {
      assert Spaced(q.last, []) by { NoneSpaced(q.last); }
    } else {
      if calls[0].Next? { NextAlternates(q, calls[0].force, calls[0].now); }
      var (q1, sent) := Do(q, calls[0]);
      var rest := Run(q1, calls[1..]).1;
      NoTwoInARow(q1, calls[1..]);
      if sent.Some? { SpacedJoin(q.last, sent.value, rest); } else { assert [] + rest == rest; }
    }
  }

  lemma NoneSpaced(last: Word)
    ensures Spaced(last, [])
  {
  }

  // ---------------------------------------------------------------- one slot each

  /** The high queue holds speed and accessory off packets, and one speed packet per loco. */
  predicate HighOk(q: seq<Slot>) {
    && (forall i :: 0 <= i < |q| ==> q[i].kind.SpeedPacket? || q[i].kind.AccOffPacket?)
    && (forall i, j :: 0 <= i < j < |q| && q[i].kind.SpeedPacket? && q[j].kind.SpeedPacket? && q[i].Loco() != 0 ==>
                         q[i].Loco() != q[j].Loco())
  }

  /** The low queue holds the rest, and one packet per loco and function group. */
  predicate LowOk(q: seq<Slot>) {
    && (forall i :: 0 <= i < |q| ==> q[i].kind.NormalPacket? || q[i].kind.AccOnPacket? || IsFunction(q[i].kind))
    && (forall i, j :: 0 <= i < j < |q| && IsFunction(q[i].kind) && q[i].kind == q[j].kind ==>
            q[i].Loco() != q[j].Loco())
  }

  lemma CutKeeps(q: seq<Slot>, i: nat)
    requires i < |q|
    ensures HighOk(q) ==> HighOk(Cut(q, i))
    ensures LowOk(q) ==> LowOk(Cut(q, i))
  {
    var r := Cut(q, i);
    assert forall k :: 0 <= k < |r| ==> r[k] == q[if k < i then k else k + 1];
  }

  lemma UpdateKeeps(q: seq<Slot>, i: nat, s: Slot)
    requires i < |q| && s.kind == q[i].kind && s.Loco() == q[i].Loco()
    ensures HighOk(q) ==> HighOk(q[i := s])
    ensures LowOk(q) ==> LowOk(q[i := s])
  {
  }

  lemma AfterKeeps(q: seq<Slot>, i: nat, now: Word32)
    requires i < |q|
    ensures HighOk(q) ==> HighOk(After(q, i, now).0) && After(q, i, now).1 == []
    ensures LowOk(q) ==> LowOk(After(q, i, now).0)
    ensures forall k :: 0 <= k < |After(q, i, now).1| ==> After(q, i, now).1[k].kind.AccOffPacket?
  {
    hide HighOk, LowOk;
    if q[i].Loco() != 0 && q[i].repeat > 0 {
      UpdateKeeps(q, i, q[i].(repeat := q[i].repeat - 1));
    } else {
      CutKeeps(q, i);
    }
    if HighOk(q) { HighKind(q, i); }
  }

  lemma HighKind(q: seq<Slot>, i: nat)
    requires HighOk(q) && i < |q|
    ensures !q[i].kind.AccOnPacket?
  {
  }

  lemma JumpKeeps(jumps: seq<Slot>, q: seq<Slot>)
    requires HighOk(q) && |jumps| <= 1
    requires forall k :: 0 <= k < |jumps| ==>
               jumps[k].kind.AccOffPacket? || (jumps[k].kind.SpeedPacket? && jumps[k].Loco() == 0)
    ensures HighOk(jumps + q)
  {
    var r := jumps + q;
    assert forall k :: 0 <= k < |r| ==> r[k] == if k < |jumps| then jumps[k] else q[k - |jumps|];
  }

  lemma NextKeeps(q: Queues, force: bool, now: Word32)
    requires HighOk(q.high) && LowOk(q.low)
    ensures var q' := NextSpec(q, force, now).0;
            HighOk(q'.high) && LowOk(q'.low)
  {
    hide HighOk, LowOk, After;
    match FirstSendable(q.high, q.last, now, 0) {
      case Some(i) =>
        AfterKeeps(q.high, i, now);
        assert [] + After(q.high, i, now).0 == After(q.high, i, now).0;
      case None =>
        match FirstSendable(q.low, q.last, now, 0) {
          case Some(i) =>
            AfterKeeps(q.low, i, now);
            JumpsAtMostOnce(q.low, i, now);
            JumpKeeps(After(q.low, i, now).1, q.high);
          case None =>
        }
    }
  }

  lemma JumpsAtMostOnce(q: seq<Slot>, i: nat, now: Word32)
    requires i < |q|
    ensures |After(q, i, now).1| <= 1
  {
  }

  lemma SpeedKeeps(q: seq<Slot>, packet: seq<Byte>, repeat: Byte, loco: Word, buffer: Buffer)
    requires HighOk(q) && |packet| <= MAX_PACKET_SIZE
    ensures HighOk(SpeedSpec(q, packet, repeat, loco, buffer))
  {
    match FirstLoco(q, loco, 0) {
      case Some(i) => UpdateKeeps(q, i, Replaced(q[i], packet, repeat));
      case None =>
    }
  }

  lemma FunctionKeeps(q: seq<Slot>, packet: seq<Byte>, loco: Word, kind: Kind, buffer: Buffer)
    requires LowOk(q) && |packet| <= MAX_PACKET_SIZE && IsFunction(kind)
    ensures LowOk(FunctionSpec(q, packet, loco, kind, buffer))
  {
    match FirstGroup(q, loco, kind, 0) {
      case Some(i) => UpdateKeeps(q, i, Replaced(q[i], packet, 0));
      case None =>
    }
  }

  /** Positions in a queue, one further back. */
  function Shifted(at: seq<nat>): (r: seq<nat>)
    ensures |r| == |at| && forall k :: 0 <= k < |at| ==> r[k] == at[k] + 1
  {
    if at == [] then [] else [at[0] + 1] + Shifted(at[1..])
  }

  lemma ShiftedIn(at: seq<nat>, i: nat)
    ensures i + 1 in Shifted(at) <==> i in at
    ensures 0 !in Shifted(at)
  {
    if i in at {
      var k :| 0 <= k < |at| && at[k] == i;
      assert Shifted(at)[k] == i + 1;
    }
    if i + 1 in Shifted(at) {
      var k :| 0 <= k < |at| && Shifted(at)[k] == i + 1;
      assert at[k] == i;
    }
  }

  /** The positions in q, in rising order, of what an estop leaves. */
  function Kept(q: seq<Slot>, loco: Word): seq<nat> {
    if q == [] then [] else (if Survives(q[0], loco) then [0] else []) + Shifted(Kept(q[1..], loco))
  }

  lemma {:induction false} KeptWhich(q: seq<Slot>, loco: Word, i: nat)
    requires i < |q|
    ensures i in Kept(q, loco) <==> Survives(q[i], loco)
  {
    hide Survives, Shifted;
    var rest := Shifted(Kept(q[1..], loco));
    if i == 0 {
      ShiftedIn(Kept(q[1..], loco), 0);
    } else {
      KeptWhich(q[1..], loco, i - 1);
      ShiftedIn(Kept(q[1..], loco), i - 1);
    }
  }

  predicate InOrder(q: seq<Slot>, r: seq<Slot>, at: seq<nat>) {
    && |at| == |r|
    && (forall k :: 0 <= k < |at| ==> at[k] < |q| && r[k] == q[at[k]])
    && (forall k, l :: 0 <= k < l < |at| ==> at[k] < at[l])
  }

  lemma OneMoreInOrder(q: seq<Slot>, r: seq<Slot>, at: seq<nat>)
    requires q != [] && InOrder(q[1..], r, at)
    ensures InOrder(q, r, Shifted(at)) && InOrder(q, [q[0]] + r, [0] + Shifted(at))
  {
    hide Shifted;
  }

  lemma {:induction false} KeptInOrder(q: seq<Slot>, loco: Word)
    ensures InOrder(q, Survivors(q, loco), Kept(q, loco))
  {
    hide Survives, InOrder, Shifted;
    if q == [] {
      assert InOrder(q, [], []) by { NoneInOrder(q); }
    } else {
      KeptInOrder(q[1..], loco);
      OneMoreInOrder(q, Survivors(q[1..], loco), Kept(q[1..], loco));
      var r, at := Survivors(q[1..], loco), Shifted(Kept(q[1..], loco));
      assert [] + r == r && [] + at == at;
    }
  }

  lemma NoneInOrder(q: seq<Slot>)
    ensures InOrder(q, [], [])
  {
  }

  /** Survivors keep their order: a strictly rising choice of positions, and all of those. */
  lemma SurvivorsInOrder(q: seq<Slot>, loco: Word) returns (at: seq<nat>)
    ensures InOrder(q, Survivors(q, loco), at)
    ensures forall i :: 0 <= i < |q| ==> (i in at <==> Survives(q[i], loco))
  {
    hide Survives, InOrder, Kept, Survivors;
    at := Kept(q, loco);
    KeptInOrder(q, loco);
    forall i | 0 <= i < |q| ensures i in at <==> Survives(q[i], loco) {
      KeptWhich(q, loco, i);
    }
  }

  lemma PickedKeeps(q: seq<Slot>, r: seq<Slot>, at: seq<nat>)
    requires HighOk(q) && InOrder(q, r, at)
    ensures HighOk(r)
  {
  }

  lemma EstopKeeps(q: seq<Slot>, packet: seq<Byte>, repeat: Byte, loco: Word, buffer: Buffer)
    requires HighOk(q) && |packet| < 256
    ensures HighOk([NewSlot(SpeedPacket, packet, repeat, 0, buffer)] + Survivors(q, loco))
  {
    hide Survives, Survivors, NewSlot, InOrder, HighOk;
    var at := SurvivorsInOrder(q, loco);
    PickedKeeps(q, Survivors(q, loco), at);
    NewSlotIs(SpeedPacket, packet, repeat, 0, buffer);
    JumpKeeps([NewSlot(SpeedPacket, packet, repeat, 0, buffer)], Survivors(q, loco));
  }

  lemma NewSlotIs(kind: Kind, packet: seq<Byte>, repeat: Byte, loco: Word, buffer: Buffer)
    requires |packet| < 256
    ensures var s := NewSlot(kind, packet, repeat, loco, buffer);
            s.kind == kind && s.Loco() == loco && s.repeat == repeat && s.length == |packet|
            && (|packet| <= MAX_PACKET_SIZE ==> s.packet[..|packet|] == packet)
  {
  }

  /** In every reachable state: at most one speed packet per loco in the high queue, and at most one
      packet per loco and function group in the low queue. */
  lemma {:induction false} OneSlotEach(q: Queues, calls: seq<Call>)
    requires forall i :: 0 <= i < |calls| ==> calls[i].Fits()
    requires HighOk(q.high) && LowOk(q.low)
    ensures HighOk(Run(q, calls).0.high) && LowOk(Run(q, calls).0.low)
    decreases |calls|
  {
    hide HighOk, LowOk, Do;
    if calls != [] {
      DoKeeps(q, calls[0]);
      OneSlotEach(Do(q, calls[0]).0, calls[1..]);
    }
  }

  lemma DoKeeps(q: Queues, c: Call)
    requires c.Fits() && HighOk(q.high) && LowOk(q.low)
    ensures HighOk(Do(q, c).0.high) && LowOk(Do(q, c).0.low)
  {
    hide HighOk, LowOk, NextSpec, SpeedSpec, FunctionSpec, Survivors, NewSlot;
    match c
    case Normal(p, n, loco, b) => JoinKeeps(q.low, NormalPacket, p, n, loco, b);
    case AccOnOff(p, n, delay, b) => JoinKeeps(q.low, AccOnPacket, p, n, delay, b);
    case Speed(p, n, loco, b) => SpeedKeeps(q.high, p, n, loco, b);
    case Function(p, loco, group, b) =>
      if GroupKind(group).Some? { FunctionKeeps(q.low, p, loco, GroupKind(group).value, b); }
    case Estop(p, n, loco, b) => EstopKeeps(q.high, p, n, loco, b);
    case Next(force, now) => NextKeeps(q, force, now);
  }

  lemma JoinKeeps(q: seq<Slot>, kind: Kind, packet: seq<Byte>, repeat: Byte, loco: Word, buffer: Buffer)
    requires LowOk(q) && (kind.NormalPacket? || kind.AccOnPacket?) && |packet| < 256
    ensures LowOk(q + [NewSlot(kind, packet, repeat, loco, buffer)])
  {
  }

  // ---------------------------------------------------------------- estop

  /** Once an estop for a loco, or for all with 0, is queued: it is in front, with no loco of its
      own, and behind it come the other packets in their old order, of which none but off packets
      is for that loco. */
  lemma EstopPurges(q: Queues, packet: seq<Byte>, repeat: Byte, loco: Word, buffer: Buffer) returns (at: seq<nat>)
    requires |packet| < 256
    ensures var (q', sent) := Do(q, Estop(packet, repeat, loco, buffer));
            && sent == None && q'.low == q.low && q'.last == q.last
            && q'.high != [] && q'.high[0] == NewSlot(SpeedPacket, packet, repeat, 0, buffer)
            && InOrder(q.high, q'.high[1..], at)
            && (forall i :: 0 <= i < |q.high| ==>
                  (i in at <==> q.high[i].kind.AccOffPacket? || (loco != 0 && q.high[i].Loco() != loco)))
            && forall i :: 1 <= i < |q'.high| && (loco == 0 || q'.high[i].Loco() == loco) ==>
                   q'.high[i].kind.AccOffPacket?
  {
    hide InOrder, NewSlot, Survivors;
    at := SurvivorsInOrder(q.high, loco);
  }

  // ---------------------------------------------------------------- where a speed packet goes

  /** The speed packet queued for a loco. */
  function SpeedFor(q: seq<Slot>, loco: Word): (r: Option<Slot>)
    ensures r.Some? ==> r.value in q && r.value.kind.SpeedPacket? && r.value.Loco() == loco
    ensures r.None? ==> forall s :: s in q && s.kind.SpeedPacket? ==> s.Loco() != loco
  {
    if q == [] then None
    else if q[0].kind.SpeedPacket? && q[0].Loco() == loco then Some(q[0])
    else SpeedFor(q[1..], loco)
  }

  /** This packet is what the queue has for the loco. */
  predicate Queued(q: seq<Slot>, packet: seq<Byte>, repeat: Byte, loco: Word) {
    var s := SpeedFor(q, loco);
    s.Some? && s.value.length == |packet| && s.value.repeat == repeat
    && |packet| <= MAX_PACKET_SIZE && s.value.packet[..|packet|] == packet
  }

  /** The first slot with the loco's number is an accessory off packet: the low half of its start
      time happens to be that number. */
  predicate Mistaken(q: seq<Slot>, loco: Word) {
    var i := FirstLoco(q, loco, 0);
    i.Some? && q[i.value].kind.AccOffPacket?
  }

  lemma {:induction false} SpeedForAt(q: seq<Slot>, i: nat, loco: Word)
    requires i < |q| && forall k :: 0 <= k < i ==> !(q[k].kind.SpeedPacket? && q[k].Loco() == loco)
    ensures q[i].kind.SpeedPacket? && q[i].Loco() == loco ==> SpeedFor(q, loco) == Some(q[i])
    ensures !(q[i].kind.SpeedPacket? && q[i].Loco() == loco) ==> SpeedFor(q, loco) == SpeedFor(q[i + 1..], loco)
  {
    if i > 0 {
      assert q[1..][i - 1] == q[i] && q[1..][i..] == q[i + 1..];
      SpeedForAt(q[1..], i - 1, loco);
    }
  }

  lemma SpeedForReplaced(q: seq<Slot>, i: nat, s: Slot, loco: Word)
    requires i < |q| && q[i].kind.AccOffPacket? && s.kind.AccOffPacket?
    requires forall k :: 0 <= k < i ==> q[k].Loco() != loco
    ensures SpeedFor(q[i := s], loco) == SpeedFor(q, loco)
  {
    SpeedForAt(q, i, loco);
    SpeedForAt(q[i := s], i, loco);
    assert q[i := s][i + 1..] == q[i + 1..];
  }

  /** scheduleDCCSpeedPacket gets the packet queued for its loco, unless an off packet is taken for
      the loco's: then it is the off packet that is overwritten, and the loco has what it had. */
  lemma SpeedIsQueued(q: seq<Slot>, packet: seq<Byte>, repeat: Byte, loco: Word, buffer: Buffer)
    requires HighOk(q) && |packet| <= MAX_PACKET_SIZE
    ensures var r := SpeedSpec(q, packet, repeat, loco, buffer);
            Queued(r, packet, repeat, loco) <==> !Mistaken(q, loco) || Queued(q, packet, repeat, loco)
  {
    hide Survivors;
    var r := SpeedSpec(q, packet, repeat, loco, buffer);
    match FirstLoco(q, loco, 0) {
      case Some(i) =>
        if q[i].kind.AccOffPacket? {
          SpeedForReplaced(q, i, r[i], loco);
        } else {
          SpeedForAt(r, i, loco);
          assert packet + q[i].packet[|packet|..] == Copied(q[i].packet, packet);
        }
      case None =>
        SpeedForAt(r, |q|, loco);
        NewSlotIs(SpeedPacket, packet, repeat, loco, buffer);
    }
  }

  /** An accessory is set, for 100 ms, and then the queues are asked once a millisecond, the last time
      at 65439. */
  function Accessory(on: seq<Byte>, buffer: Buffer): seq<Call> {
    [AccOnOff(on, 3, 100, buffer), Next(true, 65433), Next(true, 65434), Next(true, 65435), Next(true, 65436),
     Next(true, 65437), Next(true, 65438), Next(true, 65439)]
  }

  /** It happens, from empty queues on: by then the accessory's off packet waits until 65539, and a
      packet that stops loco 3 overwrites it instead of being queued. */
  lemma OffTakenForLoco(on: seq<Byte>, buffer: Buffer, stop: seq<Byte>, other: Buffer)
    requires |on| == 2 && |stop| == 3
    ensures var off := TurnedOff(NewSlot(AccOnPacket, on, 0, 100, buffer), 65439);
            var q := Run(Queues([], [], 0), Accessory(on, buffer)).0;
            var r := Do(q, Speed(stop, 0, 3, other)).0;
            && q == Queues([off], [], 100) && off.kind.AccOffPacket? && off.shared == 65539
            && r == Queues([off.(packet := Copied(off.packet, stop), length := 3, repeat := 0)], [], 100)
            && SpeedFor(r.high, 3) == None && r.high[0].Delayed(65439)
  {
    hide Run, NextSpec, SpeedSpec;
    var s := NewSlot(AccOnPacket, on, 3, 100, buffer);
    var off := TurnedOff(s.(repeat := 0), 65439);
    OffWaits(on, buffer);
    assert off.Loco() == 3;
    FoundFirst(off, 3);
    TakesOff(off, stop, other);
  }

  lemma FoundFirst(s: Slot, loco: Word)
    requires s.Loco() == loco
    ensures FirstLoco([s], loco, 0) == Some(0)
  {
  }

  lemma TakesOff(off: Slot, stop: seq<Byte>, other: Buffer)
    requires off.kind.AccOffPacket? && |stop| == 3 && FirstLoco([off], 3, 0) == Some(0)
    ensures var r := SpeedSpec([off], stop, 0, 3, other);
            r == [off.(packet := Copied(off.packet, stop), length := 3, repeat := 0)] && SpeedFor(r, 3) == None
  {
  }

  lemma OffWaits(on: seq<Byte>, buffer: Buffer)
    requires |on| == 2
    ensures Run(Queues([], [], 0), Accessory(on, buffer)).0
         == Queues([TurnedOff(NewSlot(AccOnPacket, on, 0, 100, buffer), 65439)], [], 100)
  {
    hide NextSpec, NewSlot, TurnedOff, Run;
    var s := NewSlot(AccOnPacket, on, 3, 100, buffer);
    NewOn(on, buffer);
    var c := Accessory(on, buffer);
    assert c[0..] == c && [] + [s] == [s];
    RunFrom(Queues([], [], 0), c, 0);
    assert Run(Queues([], [], 0), c).0 == Run(Queues([], [s], 0), c[1..]).0;
    SendsOn(s, 0, 65433);
    RunFrom(Queues([], [s], 0), c, 1);
    WaitsOn(s.(repeat := 2), 65434);
    RunFrom(Queues([], [s.(repeat := 2)], 100), c, 2);
    SendsOn(s.(repeat := 2), 0, 65435);
    RunFrom(Queues([], [s.(repeat := 2)], 0), c, 3);
    WaitsOn(s.(repeat := 1), 65436);
    RunFrom(Queues([], [s.(repeat := 1)], 100), c, 4);
    OffComes(s, c);
  }

  /** From the third time on. */
  lemma OffComes(s: Slot, c: seq<Call>)
    requires s.kind.AccOnPacket? && s.Loco() == 100 && |c| == 8 && forall i :: 0 <= i < 8 ==> c[i].Fits()
    requires c[5] == Next(true, 65437) && c[6] == Next(true, 65438) && c[7] == Next(true, 65439)
    ensures Run(Queues([], [s.(repeat := 1)], 0), c[5..]).0 == Queues([TurnedOff(s.(repeat := 0), 65439)], [], 100)
  {
    hide NextSpec, TurnedOff, Run;
    SendsOn(s.(repeat := 1), 0, 65437);
    RunFrom(Queues([], [s.(repeat := 1)], 0), c, 5);
    WaitsOn(s.(repeat := 0), 65438);
    RunFrom(Queues([], [s.(repeat := 0)], 100), c, 6);
    SendsOn(s.(repeat := 0), 0, 65439);
    RunFrom(Queues([], [s.(repeat := 0)], 0), c, 7);
    RunOut(Queues([TurnedOff(s.(repeat := 0), 65439)], [], 100), c[8..]);
  }

  lemma NewOn(on: seq<Byte>, buffer: Buffer)
    requires |on| == 2
    ensures var s := NewSlot(AccOnPacket, on, 3, 100, buffer);
            s.kind.AccOnPacket? && s.Loco() == 100 && s.repeat == 3 &&
                s.(repeat := 0) == NewSlot(AccOnPacket, on, 0, 100, buffer)
  {
  }

  lemma RunFrom(q: Queues, calls: seq<Call>, n: nat)
    requires n < |calls| && forall i :: 0 <= i < |calls| ==> calls[i].Fits()
    ensures Run(q, calls[n..]).0 == Run(Do(q, calls[n]).0, calls[n + 1..]).0
  {
    hide NextSpec, SpeedSpec, FunctionSpec, Survivors, NewSlot;
    assert calls[n..][0] == calls[n] && calls[n..][1..] == calls[n + 1..];
  }

  lemma RunOut(q: Queues, calls: seq<Call>)
    requires calls == []
    ensures Run(q, calls).0 == q
  {
  }

  /** An accessory on packet goes out, or gives way once to an idle. */
  lemma SendsOn(s: Slot, last: Word, now: Word32)
    requires s.kind.AccOnPacket? && s.Loco() == 100 && last == 0
    ensures NextSpec(Queues([], [s], last), true, now).0
         == if s.repeat > 0 then Queues([], [s.(repeat := s.repeat - 1)], 100) else Queues([TurnedOff(s, now)], [], 100)
  {
    hide TurnedOff;
    assert FirstSendable([], last, now, 0) == None && FirstSendable([s], last, now, 0) == Some(0);
  }

  lemma WaitsOn(s: Slot, now: Word32)
    requires s.kind.AccOnPacket? && s.Loco() == 100
    ensures NextSpec(Queues([], [s], 100), true, now).0 == Queues([], [s], 0)
  {
    assert FirstSendable([], 100, now, 0) == None;
    assert FirstSendable([s], 100, now, 0) == None by { assert FirstSendable([s], 100, now, 1) == None; }
  }
}

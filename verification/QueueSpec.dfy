/**
 The two packet queues as values: what each operation leaves queued and what it sends.
 */
module QueueSpec {
  import opened Basics

  /** The bytes inside a slot. */
  type Buffer = b: seq<Byte> | |b| == MAX_PACKET_SIZE witness [0, 0, 0, 0, 0]

  datatype Kind =
    | NormalPacket
    | Function1Packet | Function2Packet | Function3Packet | Function4Packet | Function5Packet
    | SpeedPacket | AccOnPacket | AccOffPacket | DeadPacket

  predicate IsFunction(k: Kind) {
    k.Function1Packet? || k.Function2Packet? || k.Function3Packet? || k.Function4Packet? || k.Function5Packet?
  }

  const WORD_32 := 0x1_0000_0000

  type Word32 = w: int | 0 <= w < 0x1_0000_0000

  /** A pending packet. shared is the 32-bit word that the loco id, the off delay and the start time
      all live in: the first two are its low half. */
  datatype Slot = Slot(kind: Kind, length: Byte, repeat: Byte, packet: Buffer, shared: Word32) {
    function Loco(): (r: Word) {
      shared % 0x1_0000
    }

    /** An accessory off packet whose time has not come. */
    predicate Delayed(now: Word32) {
      kind.AccOffPacket? && now < shared
    }

    predicate Sendable(last: Word, now: Word32) {
      !Delayed(now) && (Loco() != 0 ==> Loco() != last)
    }

    /** How often this is still to go out on the track. An accessory packet goes out on and then
        off; with a delay it counts as a packet for a loco, so that it has used up its repeats by
        the time it is turned off. */
    function Airtime(): nat {
      if !kind.AccOnPacket? then repeat + 1
      else if Loco() == 0 then 2 * (repeat + 1)
      else repeat + 2
    }
  }

  /** memcpy over the front of a packet buffer. */
  function Copied(buffer: Buffer, packet: seq<Byte>): (r: Buffer) {
    if |packet| <= |buffer| then packet + buffer[|packet|..] else packet[..|buffer|]
  }

  /** What getSlot makes of a slot whose buffer held something before. */
  function NewSlot(kind: Kind, packet: seq<Byte>, repeat: Byte, loco: Word, buffer: Buffer): (s: Slot)
    requires |packet| < 256
  {
    Slot(kind, |packet|, repeat, Copied(buffer, packet), loco)
  }

  /** What reaches the waveform generator. */
  datatype Sent = Sent(loco: Word, length: Byte, packet: seq<Byte>, repeats: Byte)

  const IDLE: Sent := Sent(0, 2, [0xFF, 0x00], 0)

  /** high and low, and lastSentPacketLocoId. */
  datatype Queues = Queues(high: seq<Slot>, low: seq<Slot>, last: Word)

  // ---------------------------------------------------------------- scheduling

  /** The first slot from i on with this loco id. */
  function FirstLoco(q: seq<Slot>, loco: Word, i: nat): (r: Option<nat>)
    requires i <= |q|
    ensures r.Some? ==> i <= r.value < |q| && q[r.value].Loco() == loco
    ensures forall k :: i <= k < (if r.Some? then r.value else |q|) ==> q[k].Loco() != loco
    decreases |q| - i
  {
    if i == |q| then None else if q[i].Loco() == loco then Some(i) else FirstLoco(q, loco, i + 1)
  }

  function FirstGroup(q: seq<Slot>, loco: Word, kind: Kind, i: nat): (r: Option<nat>)
    requires i <= |q|
    ensures r.Some? ==> i <= r.value < |q| && q[r.value].Loco() == loco && q[r.value].kind == kind
    ensures forall k :: i <= k < (if r.Some? then r.value else |q|) ==> q[k].Loco() != loco || q[k].kind != kind
    decreases |q| - i
  {
    if i == |q| then None
    else if q[i].Loco() == loco && q[i].kind == kind then Some(i)
    else FirstGroup(q, loco, kind, i + 1)
  }

  /** The slot with its packet replaced in place. */
  function Replaced(s: Slot, packet: seq<Byte>, repeat: Byte): Slot
    requires |packet| <= MAX_PACKET_SIZE
  {
    s.(packet := Copied(s.packet, packet), length := |packet|, repeat := repeat)
  }

  function SpeedSpec(high: seq<Slot>, packet: seq<Byte>, repeat: Byte, loco: Word, buffer: Buffer): (r: seq<Slot>)
    requires |packet| <= MAX_PACKET_SIZE
  {
    match FirstLoco(high, loco, 0)
    case Some(i) => high[i := Replaced(high[i], packet, repeat)]
    case None => high + [NewSlot(SpeedPacket, packet, repeat, loco, buffer)]
  }

  function GroupKind(group: Byte): Option<Kind> {
    if group == 1 then Some(Function1Packet)
    else if group == 2 then Some(Function2Packet)
    else if group == 3 then Some(Function3Packet)
    else if group == 4 then Some(Function4Packet)
    else if group == 5 then Some(Function5Packet)
    else None
  }

  function FunctionSpec(low: seq<Slot>, packet: seq<Byte>, loco: Word, kind: Kind, buffer: Buffer): (r: seq<Slot>)
    requires |packet| <= MAX_PACKET_SIZE
  {
    match FirstGroup(low, loco, kind, 0)
    case Some(i) => low[i := Replaced(low[i], packet, 0)]
    case None => low + [NewSlot(kind, packet, 0, loco, buffer)]
  }

  /** An estop for this loco, or for all, leaves these. */
  predicate Survives(s: Slot, loco: Word) {
    s.kind.AccOffPacket? || (loco != 0 && s.Loco() != loco)
  }

  function Survivors(q: seq<Slot>, loco: Word): (r: seq<Slot>)
    ensures forall i :: 0 <= i < |r| ==> r[i] in q && Survives(r[i], loco)
    ensures forall s :: s in q && Survives(s, loco) ==> s in r
  {
    if q == [] then [] else (if Survives(q[0], loco) then [q[0]] else []) + Survivors(q[1..], loco)
  }

  // ---------------------------------------------------------------- sending

  function FirstSendable(q: seq<Slot>, last: Word, now: Word32, i: nat): (r: Option<nat>)
    requires i <= |q|
    ensures r.Some? ==> i <= r.value < |q| && q[r.value].Sendable(last, now)
    ensures forall k :: i <= k < (if r.Some? then r.value else |q|) ==> !q[k].Sendable(last, now)
    decreases |q| - i
  {
    if i == |q| then None else if q[i].Sendable(last, now) then Some(i) else FirstSendable(q, last, now, i + 1)
  }

  /** An accessory on packet that went out, as its own off packet. */
  function TurnedOff(s: Slot, now: Word32): Slot {
    s.(kind := AccOffPacket, shared := (now + s.Loco()) % WORD_32,
       packet := s.packet[1 := GateOff(s.packet[1])])
  }

  /** The C bit is clear; the three bits below it and the four above stay. */
  function GateOff(b: Byte): (r: Byte)
    ensures (r / 8) % 2 == 0 && r % 8 == b % 8 && r / 16 == b / 16
  {
    if (b / 8) % 2 == 1 then b - 8 else b
  }

  function Cut<T>(s: seq<T>, i: nat): (r: seq<T>)
    requires i < |s|
    ensures |r| == |s| - 1
  {
    s[..i] + s[i + 1..]
  }

  /** What sending slot i of a queue leaves of the queue, and what jumps the high queue. */
  function After(q: seq<Slot>, i: nat, now: Word32): (r: (seq<Slot>, seq<Slot>))
    requires i < |q|
  {
    var s := q[i];
    if s.Loco() != 0 && s.repeat > 0 then (q[i := s.(repeat := s.repeat - 1)], [])
    else (Cut(q, i), if s.kind.AccOnPacket? then [TurnedOff(s, now)] else [])
  }

  function SentOf(s: Slot): Sent {
    Sent(s.Loco(), s.length, s.packet, if s.Loco() != 0 then 0 else s.repeat)
  }

  /** scheduleNext. */
  function NextSpec(q: Queues, force: bool, now: Word32): (r: (Queues, Option<Sent>)) {
    match FirstSendable(q.high, q.last, now, 0)
    case Some(i) =>
      var (rest, jumps) := After(q.high, i, now);
      (Queues(jumps + rest, q.low, q.high[i].Loco()), Some(SentOf(q.high[i])))
    case None =>
      match FirstSendable(q.low, q.last, now, 0)
      case Some(i) =>
        var (rest, jumps) := After(q.low, i, now);
        (Queues(jumps + q.high, rest, q.low[i].Loco()), Some(SentOf(q.low[i])))
      case None => if force then (q.(last := 0), Some(IDLE)) else (q, None)
  }

  // ---------------------------------------------------------------- runs

  /** A call from outside; buffer is what the slot it takes held before. */
  datatype Call =
    | Normal(packet: seq<Byte>, repeat: Byte, loco: Word, buffer: Buffer)
    | Speed(packet: seq<Byte>, repeat: Byte, loco: Word, buffer: Buffer)
    | Function(packet: seq<Byte>, loco: Word, group: Byte, buffer: Buffer)
    | Estop(packet: seq<Byte>, repeat: Byte, loco: Word, buffer: Buffer)
    | AccOnOff(packet: seq<Byte>, repeat: Byte, delay: Word, buffer: Buffer)
    | Next(force: bool, now: Word32)
  {
    /** What replaces a packet in place has to fit the buffer; what takes a new slot is cut short,
        though its length is kept. */
    predicate Fits() {
      Next? || |packet| <= if Speed? || Function? then MAX_PACKET_SIZE else 255
    }
  }

  function Do(q: Queues, c: Call): (r: (Queues, Option<Sent>))
    requires c.Fits()
  {
    match c
    case Normal(p, n, loco, b) => (q.(low := q.low + [NewSlot(NormalPacket, p, n, loco, b)]), None)
    case Speed(p, n, loco, b) => (q.(high := SpeedSpec(q.high, p, n, loco, b)), None)
    case Function(p, loco, group, b) =>
      (match GroupKind(group) case Some(k) => q.(low := FunctionSpec(q.low, p, loco, k, b)) case None => q, None)
    case Estop(p, n, loco, b) => (q.(high := [NewSlot(SpeedPacket, p, n, 0, b)] + Survivors(q.high, loco)), None)
    case AccOnOff(p, n, delay, b) => (q.(low := q.low + [NewSlot(AccOnPacket, p, n, delay, b)]), None)
    case Next(force, now) => NextSpec(q, force, now)
  }

  function Run(q: Queues, calls: seq<Call>): (r: (Queues, seq<Sent>))
    requires forall i :: 0 <= i < |calls| ==> calls[i].Fits()
    decreases |calls|
  {
    if calls == [] then (q, [])
    else
      var (q1, sent) := Do(q, calls[0]);
      var (q2, rest) := Run(q1, calls[1..]);
      (q2, (if sent.Some? then [sent.value] else []) + rest)
  }
}

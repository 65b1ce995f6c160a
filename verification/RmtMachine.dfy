/**
 The ESP32 waveform channel: hardware that sends its memory again and again, an interrupt between
 two rounds that may refill it, and the producer, step by step.
 */
module RmtMachine {
  import opened Basics
  import opened BitStream
  import opened FrameLog

  datatype Item = One | Zero | Eot

  function ItemOf(bit: bool): Item {
    if bit then One else Zero
  }

  function Items(bits: seq<bool>): (r: seq<Item>)
    ensures |r| == |bits| && forall i :: 0 <= i < |bits| ==> r[i] == ItemOf(bits[i])
  {
    seq(|bits|, i requires 0 <= i < |bits| => ItemOf(bits[i]))
  }

  /** What the hardware sends of its memory: everything before the end marker. */
  function OnRails(memory: seq<Item>): seq<bool> {
    if memory == [] || memory[0].Eot? then [] else [memory[0].One?] + OnRails(memory[1..])
  }

  const MEMORY := 128
  const MAX_DATA := 55

  /** rmt_fill_tx_items */
  function Refilled(memory: seq<Item>, items: seq<Item>, offset: nat): (r: seq<Item>)
    requires offset + |items| <= |memory|
    ensures |r| == |memory|
  {
    memory[..offset] + items + memory[offset + |items|..]
  }

  /** A frame's items behind the zero that starts it: the bytes with zeros between, a one at the
      end, and the marker. */
  function DataItems(f: Packet): (r: seq<Item>)
    requires f != []
    ensures |r| == 9 * |f| + 1
  {
    Items(FrameBits(f)[1..] + [true]) + [Eot]
  }

  datatype Channel = Channel(data: seq<Item>, dataLen: nat, ready: bool, repeat: Byte, memory: seq<Item>)

  /** The preamble and the zero behind it; its marker is overwritten at once. */
  function PreambleItems(plen: nat): (r: seq<Item>)
    ensures |r| == plen + 2
  {
    Items(Ones(plen)) + [Zero, Eot]
  }

  /** As constructed and prefilled. */
  function Prefilled(plen: nat, t: Track, data: seq<Item>, memory: seq<Item>): Channel
    requires plen <= 22 && |memory| == MEMORY
  {
    Channel(data, 0, false, 0, Refilled(Refilled(memory, PreambleItems(plen), 0), DataItems(Filler(t)), plen + 1))
  }

  predicate Sized(c: Channel, plen: nat) {
    |c.data| == MAX_DATA && |c.memory| == MEMORY && plen <= 22 && c.dataLen <= MAX_DATA
  }

  /** RMTinterrupt; the flag says that data was reported lost. */
  function Interrupt(c: Channel, plen: nat, t: Track): (r: (Channel, bool))
    requires Sized(c, plen)
    ensures Sized(r.0, plen)
  {
    if !c.ready && c.repeat == 0 then (c.(memory := Refilled(c.memory, DataItems(Filler(t)), plen + 1)), false)
    else
      var c1 := if c.ready then c.(memory := Refilled(c.memory, c.data[..c.dataLen], plen + 1), ready := false) else c;
      (if c1.repeat > 0 then c1.(repeat := c1.repeat - 1) else c1, c.ready && c1.repeat == 0)
  }

  /** schedulePacket: waits for the last data to be copied, then asks RMTfillData until it takes the
      packet; there it looks at dataRepeat, at dataReady, and then writes step by step. */
  datatype Caller = Idle | Waiting(p: Packet, r: Byte) | Asking(p: Packet, r: Byte) | Looking(p: Packet, r: Byte)
                  | Writing(p: Packet, r: Byte, step: nat)

  /** Bit k of the data as first written: the last zero is turned into a one afterwards. */
  function RawItem(f: Packet, k: nat): Item
    requires k < 9 * |f|
  {
    if k + 1 < 9 * |f| then ItemOf(FrameBits(f)[k + 1]) else Zero
  }

  function Call(c: Channel, caller: Caller): (Channel, Caller)
    requires |c.data| == MAX_DATA && (!caller.Idle? ==> |caller.p| <= MAX_PACKET_SIZE)
  {
    match caller
    case Idle => (c, caller)
    case Waiting(p, r) => (c, if c.ready then caller else Asking(p, r))
    case Asking(p, r) => (c, if c.repeat > 0 then caller else Looking(p, r))
    case Looking(p, r) => (c, if c.ready then Asking(p, r) else Writing(p, r, 0))
    case Writing(p, r, n) =>
      var f := Summed(p);
      var bits := 9 * |f|;
      if n < bits then (c.(data := c.data[n := RawItem(f, n)]), Writing(p, r, n + 1))
      else if n == bits then (c.(data := c.data[bits - 1 := One]), Writing(p, r, n + 1))
      else if n == bits + 1 then (c.(data := c.data[bits := Eot]), Writing(p, r, n + 1))
      else if n == bits + 2 then (c.(dataLen := bits + 1), Writing(p, r, n + 1))
      else (c.(ready := true, repeat := (r + 1) % 256), Idle)
  }

  // ---------------------------------------------------------------- history

  /** rails is all the bits sent, round by round; lost the jobs reported lost. */
  datatype Log = Log(rails: seq<bool>, blocks: seq<Block>, jobs: seq<Job>, lost: seq<nat>)

  datatype Sys = Sys(c: Channel, caller: Caller, log: Log)

  datatype Action = RoundOver | CallerOn | Begin(p: Packet, r: Byte)

  function Chosen(blocks: seq<Block>, jobs: seq<Job>, c: Channel, t: Track): seq<Block> {
    if c.ready && Taken(blocks) < |jobs| then
      blocks + [Block(Some(Taken(blocks)), Summed(jobs[Taken(blocks)].p), 1, false, |jobs|)]
    else if c.repeat > 0 && blocks != [] then
      blocks[|blocks| - 1 := blocks[|blocks| - 1].(times := blocks[|blocks| - 1].times + 1)]
    else blocks + [Block(None, Filler(t), 1, false, |jobs|)]
  }

  function Step(s: Sys, plen: nat, t: Track, a: Action): Sys
    requires Sized(s.c, plen) && (!s.caller.Idle? ==> |s.caller.p| <= MAX_PACKET_SIZE)
  {
    match a
    case RoundOver =>
      var (c, lost) := Interrupt(s.c, plen, t);
      s.(c := c,
         log := s.log.(rails := s.log.rails + OnRails(c.memory),
                       blocks := Chosen(s.log.blocks, s.log.jobs, s.c, t),
                       lost := s.log.lost + if lost then [Taken(s.log.blocks)] else []))
    case CallerOn =>
      var (c, caller) := Call(s.c, s.caller);
      s.(c := c, caller := caller,
         log := if c.ready && !s.c.ready && s.caller.Writing? then
                  s.log.(jobs := s.log.jobs + [Job(s.caller.p, s.caller.r)])
                else s.log)
    case Begin(p, r) =>
      if s.caller.Idle? && |p| <= MAX_PACKET_SIZE then s.(caller := Waiting(p, r)) else s
  }

  // ---------------------------------------------------------------- what holds

  /** How often a packet accepted with repeats r goes out: dataRepeat is a byte, and r + 1 wraps. */
  function Sends(r: Byte): nat {
    if r < 255 then r + 1 else 1
  }

  function SendsOf(src: Option<nat>, jobs: seq<Job>): nat {
    if src.Some? && src.value < |jobs| then Sends(jobs[src.value].r) else 1
  }

  predicate RoundsOk(blocks: seq<Block>, jobs: seq<Job>, ready: bool, repeat: nat, t: Track) {
    && blocks != [] && |jobs| == Taken(blocks) + (if ready then 1 else 0)
    && (forall k :: 0 <= k < |blocks| ==> InTurn(blocks, k, jobs, t))
    && (forall k :: 0 <= k < |blocks| - 1 ==> blocks[k].times == SendsOf(blocks[k].src, jobs))
    && blocks[|blocks| - 1].times + (if ready then 0 else repeat) == SendsOf(blocks[|blocks| - 1].src, jobs)
    && (ready ==> repeat == (jobs[|jobs| - 1].r + 1) % 256)
  }

  /** The data of the job that is ready, or what the caller has written of it so far. */
  predicate DataOk(c: Channel, caller: Caller, jobs: seq<Job>) {
    && |c.data| == MAX_DATA && c.dataLen <= MAX_DATA
    && (!caller.Idle? ==> |caller.p| <= MAX_PACKET_SIZE)
    && (c.ready ==>
          jobs != [] && var j := jobs[|jobs| - 1];
          |j.p| <= MAX_PACKET_SIZE && c.dataLen == 9 * (|j.p| + 1) + 1 && c.data[..c.dataLen] == DataItems(Summed(j.p)))
    && ((caller.Looking? || caller.Writing?) ==> c.repeat == 0)
    && (caller.Writing? ==> !c.ready && Written(c, caller))
  }

  predicate Written(c: Channel, caller: Caller)
    requires caller.Writing? && |caller.p| <= MAX_PACKET_SIZE && |c.data| == MAX_DATA
  {
    var f, n := Summed(caller.p), caller.step;
    var bits := 9 * |f|;
    && n <= bits + 3
    && (forall k :: 0 <= k < (if n < bits then n else bits) && (k < bits - 1 || n <= bits) ==>
            c.data[k] == RawItem(f, k))
    && (n > bits ==> c.data[bits - 1] == One)
    && (n > bits + 1 ==> c.data[bits] == Eot)
    && (n > bits + 2 ==> c.dataLen == bits + 1)
  }

  lemma DataDone(f: Packet, data: seq<Item>)
    requires f != [] && 9 * |f| < |data|
    requires forall k :: 0 <= k < 9 * |f| - 1 ==> data[k] == RawItem(f, k)
    requires data[9 * |f| - 1] == One && data[9 * |f|] == Eot
    ensures data[..9 * |f| + 1] == DataItems(f)
  {
    hide DataItems, FrameBits, RawItem;
    ItemsAre(f);
    var d := data[..9 * |f| + 1];
    assert |d| == |DataItems(f)|;
    forall k | 0 <= k < |d| ensures d[k] == DataItems(f)[k] {
      assert d[k] == data[k];
    }
  }

  lemma ItemsAre(f: Packet)
    requires f != []
    ensures var items := DataItems(f);
            && |items| == 9 * |f| + 1 && items[9 * |f| - 1] == One && items[9 * |f|] == Eot
            && forall k :: 0 <= k < 9 * |f| - 1 ==> items[k] == RawItem(f, k)
  {
    var bits := FrameBits(f)[1..] + [true];
    forall k | 0 <= k < 9 * |f| - 1 ensures DataItems(f)[k] == RawItem(f, k) {
      assert bits[k] == FrameBits(f)[k + 1];
    }
  }

  /** A step of the caller. */
  lemma CallKeeps(c: Channel, caller: Caller, jobs: seq<Job>)
    requires DataOk(c, caller, jobs)
    ensures var (c', caller') := Call(c, caller);
            var jobs' := if c'.ready && !c.ready && caller.Writing? then jobs + [Job(caller.p, caller.r)] else jobs;
            DataOk(c', caller', jobs')
  {
    hide RawItem, FrameBits, DataItems, Xor;
    if caller.Writing? && caller.step == 9 * (|caller.p| + 1) + 3 {
      DataDone(Summed(caller.p), c.data);
    }
  }
}

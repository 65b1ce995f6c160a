/**
 The ESP32 channel's buffers and flags, changed in place by its interrupt and by RMTfillData.
 */
module RmtChannel {
  import opened Basics
  import opened BitStream
  import opened FrameLog
  import opened RmtMachine
  import opened RmtPromise

  /** The item of a frame's data at a position, before its last zero is made a one. */
  lemma RawBit(f: Packet, n: nat, bit: nat)
    requires n < |f| && bit < 9
    ensures 9 * n + bit < 9 * |f|
    ensures RawItem(f, 9 * n + bit) == if bit < 8 then ItemOf(f[n] & Mask(bit) != 0) else Zero
  {
    hide Mask;
    if bit < 8 {
      BitInFrame(f, n, bit + 1);
    } else if n + 1 < |f| {
      BitInFrame(f, n + 1, 0);
    }
  }

  /** The fillers, item by item. */
  lemma FillerItems(t: Track, k: nat)
    requires k < 28
    ensures DataItems(Filler(t))[k] ==
            if k == 27 then Eot else if k == 26 || (t.isMain && (k < 8 || k >= 18)) then One else Zero
  {
    hide Mask;
    var f := Filler(t);
    var bits := FrameBits(f)[1..] + [true];
    if k < 26 {
      var n, bit := (k + 1) / 9, (k + 1) % 9;
      BitInFrame(f, n, bit);
      assert bits[k] == FrameBits(f)[k + 1];
      if bit > 0 { AllOrNothing(bit - 1); }
    }
  }

  lemma AllOrNothing(i: nat)
    requires i < 8
    ensures 0xFF & Mask(i) != 0 && 0x00 & Mask(i) == 0
  {
  }

  class RMTChannel {
    const plen: nat
    const track: Track
    const preamble: array<Item>
    const idle: array<Item>
    const data: array<Item>
    const memory: array<Item>     // the hardware's
    var dataLen: nat
    var dataReady: bool
    var dataRepeat: Byte
    var packetCounter: nat

    ghost predicate Valid()
      reads this, preamble, idle, data, memory
    {
      && data.Length == MAX_DATA && memory.Length == MEMORY && dataLen <= MAX_DATA && plen <= 22
      && idle !in {data, memory} && preamble !in {data, memory} && data != memory
      && preamble[..] == PreambleItems(plen) && idle[..] == DataItems(Filler(track))
    }

    ghost function State(): (c: Channel)
      requires Valid()
      reads this, preamble, idle, data, memory
      ensures Sized(c, plen)
    {
      Channel(data[..], dataLen, dataReady, dataRepeat, memory[..])
    }

    /** The buffers as malloc gave them: junk and noise. */
    constructor (isMain: bool, preambleBits: nat, junk: array<Item>, noise: array<Item>)
      requires preambleBits <= 22 && junk.Length == MAX_DATA && noise.Length == MEMORY && junk != noise
      modifies noise
      ensures Valid() && plen == preambleBits && track == Track(preambleBits, isMain)
      ensures State() == Prefilled(plen, track, old(junk[..]), old(noise[..]))
    {
      hide PreambleItems, DataItems, Filler, Refilled;
      plen, track, data, memory := preambleBits, Track(preambleBits, isMain), junk, noise;
      dataLen, dataReady, dataRepeat, packetCounter := 0, false, 0, 0;
      var lead := MakePreamble(preambleBits);
      var filler := MakeIdle(Track(preambleBits, isMain));
      preamble, idle := lead, filler;
      new;
      assert preamble[..preamble.Length] == preamble[..] && idle[..idle.Length] == idle[..];
      FillTx(preamble, preamble.Length, 0);
      FillTx(idle, idle.Length, preamble.Length - 1);
    }

    static method MakePreamble(plen: nat) returns (preamble: array<Item>)
      ensures fresh(preamble) && preamble.Length == plen + 2 && preamble[..] == PreambleItems(plen)
    {
      preamble := new Item[plen + 2](_ => Eot);
      var n := 0;
      while n < plen
        invariant n <= plen
        invariant forall k :: 0 <= k < n ==> preamble[k] == One
      {
        preamble[n] := One;
        n := n + 1;
      }
      preamble[plen] := Zero;
      preamble[plen + 1] := Eot;
      assert preamble[..] == PreambleItems(plen);
    }

    static method MakeIdle(t: Track) returns (idle: array<Item>)
      ensures fresh(idle) && idle.Length == 28 && idle[..] == DataItems(Filler(t))
    {
      hide DataItems, Filler;
      idle := new Item[28](_ => Zero);
      if t.isMain {
        SetItems(idle, 0, 8, One);
        SetItems(idle, 8, 18, Zero);
        SetItems(idle, 18, 26, One);
      } else {
        SetItems(idle, 0, 26, Zero);
      }
      idle[26] := One;
      idle[27] := Eot;
      IsFiller(idle[..], t);
    }

    static method SetItems(items: array<Item>, from: nat, to: nat, item: Item)
      requires from <= to <= items.Length
      modifies items
      ensures forall k :: 0 <= k < items.Length ==> items[k] == if from <= k < to then item else old(items[k])
    {
      var n := from;
      while n < to
        invariant from <= n <= to
        invariant forall k :: 0 <= k < items.Length ==> items[k] == if from <= k < n then item else old(items[k])
      {
        items[n] := item;
        n := n + 1;
      }
    }

    /** rmt_fill_tx_items */
    method FillTx(items: array<Item>, count: nat, offset: nat)
      requires Valid() && items != memory && count <= items.Length && offset + count <= MEMORY
      modifies memory
      ensures Valid() && memory[..] == Refilled(old(memory[..]), items[..count], offset)
    {
      var k := 0;
      while k < count
        invariant k <= count
        invariant forall i :: 0 <= i < MEMORY ==>
                    memory[i] == if offset <= i < offset + k then items[i - offset] else old(memory[i])
      {
        memory[offset + k] := items[k];
        k := k + 1;
      }
      assert memory[..] == Refilled(old(memory[..]), items[..count], offset);
    }

    /** RMTinterrupt; true when it reports that the channel lost data. */
    method RMTInterrupt() returns (lost: bool)
      requires Valid()
      modifies `packetCounter, `dataReady, `dataRepeat, memory
      ensures Valid() && (State(), lost) == Interrupt(old(State()), plen, track)
      ensures packetCounter == old(packetCounter) + 1
    {
      hide Refilled, DataItems, PreambleItems;
      lost := false;
      packetCounter := packetCounter + 1;
      if !dataReady && dataRepeat == 0 {
        assert idle[..idle.Length] == idle[..];
        IdleFits(idle[..], track);
        FillTx(idle, idle.Length, plen + 1);
        return;
      }
      if dataReady {
        assert data[..dataLen] == data[..][..dataLen];
        FillTx(data, dataLen, plen + 1);
        dataReady := false;
        if dataRepeat == 0 { lost := true; }
      }
      if dataRepeat > 0 { dataRepeat := dataRepeat - 1; }
    }

    /** RMTfillData: refuses while there is work to do; there is always room for what schedulePacket
        passes on, so it never answers -1 there. */
    method RMTfillData(buffer: Packet, repeatCount: Byte) returns (ret: int)
      requires Valid() && buffer != []
      modifies `dataLen, `dataReady, `dataRepeat, data
      ensures Valid()
      ensures ret != 0 ==> State() == old(State())
      ensures ret == if old(dataRepeat) > 0 then old(dataRepeat) else if old(dataReady) then 1000
                     else if |buffer| > MAX_PACKET_SIZE + 1 then -1 else 0
      ensures ret == 0 ==>
                State() == old(State()).(data := DataItems(buffer) + old(data[..])[9 * |buffer| + 1..],
                                         dataLen := 9 * |buffer| + 1, ready := true, repeat := (repeatCount + 1) % 256)
    {
      hide DataItems, PreambleItems, Filler;
      if dataRepeat > 0 { return dataRepeat; }
      if dataReady { return 1000; }
      if 9 * |buffer| + 1 > MAX_DATA { return -1; }
      WriteData(buffer);
      dataLen := 9 * |buffer| + 1;
      dataReady := true;
      dataRepeat := (repeatCount + 1) % 256;
      return 0;
    }

    method WriteData(buffer: Packet)
      requires Valid() && buffer != [] && |buffer| <= MAX_PACKET_SIZE + 1
      modifies data
      ensures Valid() && data[..] == DataItems(buffer) + old(data[..])[9 * |buffer| + 1..]
    {
      hide DataItems, PreambleItems, Filler, RawItem, Mask;
      ghost var was := data[..];
      var bits := WriteBytes(buffer);
      data[bits - 1] := One;
      data[bits] := Eot;
      DataDone(buffer, data[..]);
      WholeData(data[..], was, buffer);
    }

    method WriteBytes(buffer: Packet) returns (bitcounter: nat)
      requires Valid() && buffer != [] && |buffer| <= MAX_PACKET_SIZE + 1
      modifies data
      ensures Valid() && bitcounter == 9 * |buffer|
      ensures forall k :: 0 <= k < MAX_DATA ==> data[k] == if k < bitcounter then RawItem(buffer, k) else old(data[k])
    {
      hide DataItems, PreambleItems, Filler, RawItem, Mask;
      bitcounter := 0;
      var n := 0;
      while n < |buffer|
        invariant n <= |buffer| && bitcounter == 9 * n
        invariant forall k :: 0 <= k < MAX_DATA ==>
                    data[k] == if k < bitcounter then RawItem(buffer, k) else old(data[k])
      {
        var bit := 0;
        while bit < 8
          invariant bit <= 8 && bitcounter == 9 * n + bit
          invariant forall k :: 0 <= k < MAX_DATA ==>
                      data[k] == if k < bitcounter then RawItem(buffer, k) else old(data[k])
        {
          RawBit(buffer, n, bit);
          data[bitcounter] := if buffer[n] & Mask(bit) != 0 then One else Zero;
          bitcounter := bitcounter + 1;
          bit := bit + 1;
        }
        RawBit(buffer, n, 8);
        data[bitcounter] := Zero;
        bitcounter := bitcounter + 1;
        n := n + 1;
      }
    }
  }

  lemma IsFiller(items: seq<Item>, t: Track)
    requires |items| == 28
    requires forall k :: 0 <= k < 28 ==>
               items[k] == if k == 27 then Eot else if k == 26 || (t.isMain && (k < 8 || k >= 18)) then One else Zero
    ensures items == DataItems(Filler(t))
  {
    hide DataItems, Filler;
    forall k | 0 <= k < 28 ensures items[k] == DataItems(Filler(t))[k] {
      FillerItems(t, k);
    }
  }

  lemma IdleFits(items: seq<Item>, t: Track)
    requires items == DataItems(Filler(t))
    ensures |items| == 28
  {
  }
}

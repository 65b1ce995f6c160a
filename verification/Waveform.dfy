/**
 The waveform generator's fields, changed in place by the interrupt and by schedulePacket.
 */
module Waveform {
  import opened Basics
  import opened BitStream
  import opened FrameLog
  import opened WaveMachine

  class DCCWaveform {
    const track: Track
    const transmitPacket: array<bv8>
    const pendingPacket: array<bv8>
    var transmitLength: nat
    var transmitRepeats: Byte
    var remainingPreambles: nat
    var bitsSent: nat
    var bytesSent: nat
    var state: WaveState
    var packetPending: bool
    var pendingLength: nat
    var pendingRepeats: Byte
    var sentResets: nat

    ghost predicate Valid()
      reads this, transmitPacket, pendingPacket
    {
      && transmitPacket != pendingPacket
      && transmitPacket.Length == MAX_PACKET_SIZE + 1 && pendingPacket.Length == MAX_PACKET_SIZE + 1
    }

    ghost function State(): Wave
      requires Valid()
      reads this, transmitPacket, pendingPacket
    {
      Wave(state, transmitPacket[..], transmitLength, transmitRepeats, remainingPreambles, bitsSent, bytesSent,
           packetPending, pendingPacket[..], pendingLength, pendingRepeats, sentResets)
    }

    constructor (preambleBits: nat, isMain: bool)
      ensures Valid() && State() == Boot() && track == Track(preambleBits + 1, isMain)
      ensures fresh(transmitPacket) && fresh(pendingPacket)
    {
      track := Track(preambleBits + 1, isMain);
      transmitPacket := new bv8[6] [0xFF, 0x00, 0xFF, 0, 0, 0];
      pendingPacket := new bv8[6] [0, 0, 0, 0, 0, 0];
      transmitLength, transmitRepeats, remainingPreambles, bitsSent, bytesSent := 0, 0, 0, 0, 0;
      state, packetPending, pendingLength, pendingRepeats, sentResets := START, false, 0, 0, 0;
      new;
      assert transmitPacket[..] == IDLE + [0, 0, 0];
      assert pendingPacket[..] == [0, 0, 0, 0, 0, 0];
    }

    /** memcpy of the first n bytes of a source. */
    method CopyIn(source: seq<bv8>)
      requires Valid() && |source| <= MAX_PACKET_SIZE + 1
      modifies transmitPacket
      ensures transmitPacket[..] == source + old(transmitPacket[..])[|source|..]
    {
      ghost var was := transmitPacket[..];
      var b := 0;
      while b < |source|
        invariant b <= |source|
        invariant forall k :: 0 <= k < transmitPacket.Length ==>
                    transmitPacket[k] == if k < b then source[k] else was[k]
      {
        transmitPacket[b] := source[b];
        b := b + 1;
      }
    }

    /** promotePendingPacket */
    method PromotePendingPacket()
      requires Valid()
      modifies `transmitLength, `transmitRepeats, `packetPending, `sentResets, transmitPacket
      ensures Valid() && State() == Promote(old(State()), track)
    {
      if transmitRepeats > 0 {
        transmitRepeats := transmitRepeats - 1;
        return;
      }
      if packetPending {
        CopyIn(pendingPacket[..]);
        assert transmitPacket[..] == pendingPacket[..];
        transmitLength := pendingLength;
        transmitRepeats := pendingRepeats;
        packetPending := false;
        sentResets := 0;
        return;
      }
      CopyIn(if track.isMain then IDLE else RESET);
      transmitLength := 3;
      transmitRepeats := 0;
      if sentResets < 250 { sentResets := sentResets + 1; }
    }

    /** interrupt2 */
    method Interrupt2() returns (ghost bit: bool)
      requires Valid() && InBuffer(State())
      modifies this, transmitPacket
      ensures Valid() && (State(), bit) == NextBit(old(State()), track)
    {
      hide Promote;
      if remainingPreambles > 0 {
        state := MID_1;
        remainingPreambles := remainingPreambles - 1;
        if remainingPreambles == 1 { PromotePendingPacket(); }
        return true;
      }
      var on := bitsSent > 0 && transmitPacket[bytesSent] & Mask(bitsSent - 1) != 0;
      state := if on then MID_1 else HIGH_0;
      bitsSent := bitsSent + 1;
      if bitsSent == 9 {
        bitsSent := 0;
        bytesSent := bytesSent + 1;
        if bytesSent >= transmitLength {
          bytesSent := 0;
          remainingPreambles := track.required;
        }
      }
      return on;
    }

    /** interruptHandler, for this track; the level is the pin's. */
    method Interrupt() returns (level: bool, ghost bit: Option<bool>)
      requires Valid() && InBuffer(State())
      modifies this, transmitPacket
      ensures Valid() && (State(), level, bit) == Tick(old(State()), track)
    {
      hide NextBit, Promote;
      level := state.START? || state.HIGH_0?;
      state := Transform(state);
      bit := None;
      if state == PENDING {
        ghost var b := Interrupt2();
        bit := Some(b);
      }
    }

    /** schedulePacket, once no packet is pending; a packet that is too long is ignored. */
    method SchedulePacket(buffer: seq<bv8>, repeats: Byte)
      requires Valid() && !packetPending
      modifies this, pendingPacket
      ensures Valid()
      ensures State() == if |buffer| > MAX_PACKET_SIZE then old(State()) else Scheduled(old(State()), buffer, repeats)
    {
      if |buffer| > MAX_PACKET_SIZE { return; }
      FillPending(buffer);
      pendingLength := |buffer| + 1;
      pendingRepeats := repeats;
      packetPending := true;
      sentResets := 0;
    }

    method FillPending(buffer: seq<bv8>)
      requires Valid() && |buffer| <= MAX_PACKET_SIZE
      modifies pendingPacket
      ensures pendingPacket[..] == Summed(buffer) + old(pendingPacket[..])[|buffer| + 1..]
    {
      hide Xor;
      var checksum := 0;
      XorNone();
      assert buffer[..0] == [];
      var b := 0;
      while b < |buffer|
        invariant b <= |buffer| && checksum == Xor(buffer[..b])
        invariant forall k :: 0 <= k < pendingPacket.Length ==>
                    pendingPacket[k] == if k < b then buffer[k] else old(pendingPacket[k])
      {
        XorMore(buffer, b);
        checksum := checksum ^ buffer[b];
        pendingPacket[b] := buffer[b];
        b := b + 1;
      }
      assert buffer[..b] == buffer;
      pendingPacket[|buffer|] := checksum;
    }
  }
}

/**
 What a decoder on the rails makes of the waveform generator, over whole runs.
 */
module WavePromise {
  import opened Basics
  import opened BitStream
  import opened FrameLog
  import opened WaveMachine
  import opened WaveStream

  /** Any steps, in any order, from boot on. */
  function Run(s: Sys, t: Track, actions: seq<Action>): (r: Sys)
    requires Ok(s, t)
    ensures Ok(r, t)
    decreases |actions|
  {
    if actions == [] then s
    else
      StepKeeps(s, t, actions[0]);
      Run(Step(s, t, actions[0]), t, actions[1..])
  }

  /** A state that can be reached. */
  function Reached(t: Track, actions: seq<Action>): (r: Sys)
    requires t.required >= 2
    ensures Ok(r, t)
  {
    StartOk(t);
    Run(Start(), t, actions)
  }

  /** In every reachable state: job i, once taken, has had one run of frames, after those of the jobs
      before it and before those of the jobs behind it; and unless its repeats were cleared, or its
      run is the one going on, there were exactly its repeats and one more. */
  lemma EachJobAsAsked(t: Track, actions: seq<Action>, i: nat) returns (k: nat)
    requires t.required >= 2
    requires i < Taken(Reached(t, actions).log.blocks)
    ensures var log := Reached(t, actions).log;
            && k < |log.blocks| && i < |log.jobs| && log.blocks[k].src == Some(i)
            && log.blocks[k].bytes == Summed(log.jobs[i].p)
            && (forall l :: 0 <= l < |log.blocks| && log.blocks[l].src.Some? ==>
                  (l < k ==> log.blocks[l].src.value < i) && (l > k ==> log.blocks[l].src.value > i))
            && (k < |log.blocks| - 1 && !log.blocks[k].cut ==> log.blocks[k].times == log.jobs[i].r + 1)
            && 1 <= log.blocks[k].times <= log.jobs[i].r + 1
  {
    hide Reached, Taken, Frames, Stream, Placed, LevelsOk, PendOk, Loaded, FramesOk;
    var s := Reached(t, actions);
    k := BlockOfJob(s.log.blocks, s.log.jobs, t, i);
    assert InTurn(s.log.blocks, k, s.log.jobs, t);
  }

  /** A filler goes out only when every job accepted so far had been taken. */
  lemma FillersOnlyWhenIdle(t: Track, actions: seq<Action>, k: nat)
    requires t.required >= 2
    requires k < |Reached(t, actions).log.blocks|
    ensures var blocks := Reached(t, actions).log.blocks;
            blocks[k].src.None? ==>
              && blocks[k].times == 1 && blocks[k].seen == Taken(blocks[..k])
              && blocks[k].bytes == if t.isMain then [0xFF, 0x00, 0xFF] else [0x00, 0x00, 0x00]
  {
    hide Reached, Taken, Frames, Stream, Placed, LevelsOk, PendOk, Loaded, FramesOk;
    var s := Reached(t, actions);
    assert InTurn(s.log.blocks, k, s.log.jobs, t);
  }

  // ---------------------------------------------------------------- reception

  /** The frames that are over: the one going on, or waiting for its end bit, is not. */
  function Complete(w: Wave, frames: seq<Packet>, t: Track): seq<Packet> {
    if 2 <= w.preambles < t.required || frames == [] then frames else Before(frames)
  }

  lemma BootBits()
    ensures FrameBits(BOOT) == [false] + Ones(8)
  {
    assert ByteBits(0xFF) == Ones(8);
    assert BOOT[1..] == [];
  }

  lemma ReceivesBoot(least: nat)
    requires least >= 1
    ensures Received(Preamble(0), FrameBits(BOOT), least) == (Preamble(8), [])
  {
    BootBits();
    ReceivedJoin(Preamble(0), [false], Ones(8), least);
    assert [false][1..] == [];
    ReceivesOnes(0, 8, least);
  }

  /** Nothing can have come out of a part of what nothing comes out of. */
  lemma ReceivesPart(s: Receiver, bits: seq<bool>, n: nat, least: nat)
    requires n <= |bits| && Received(s, bits, least).1 == []
    ensures Received(s, bits[..n], least).1 == []
  {
    assert bits == bits[..n] + bits[n..];
    ReceivedJoin(s, bits[..n], bits[n..], least);
  }

  /** BOOT and whole frames. */
  lemma ReceivesWhole(frames: seq<Packet>, p: nat, least: nat) returns (s: Receiver, out: seq<Packet>)
    requires 1 <= least <= p && forall i :: 0 <= i < |frames| ==> frames[i] != []
    ensures (s, out) == Received(Preamble(0), FrameBits(BOOT) + WaveBits(frames, p), least)
    ensures !s.InByte? && out + Held(s) == frames && (frames != [] ==> s.AfterByte?)
  {
    hide Received, WaveBits, FrameBits;
    ReceivesBoot(least);
    ReceivesWave(Preamble(8), frames, p, least);
    ReceivedJoin(Preamble(0), FrameBits(BOOT), WaveBits(frames, p), least);
    var (s1, out1) := Received(Preamble(8), WaveBits(frames, p), least);
    s, out := s1, [] + out1;
    assert [] + out1 == out1 && [] + frames == frames;
  }

  /** And a preamble, or the part of one. */
  lemma ReceivesSoFar(frames: seq<Packet>, p: nat, n: nat, least: nat) returns (s: Receiver)
    requires 1 <= least <= p && forall i :: 0 <= i < |frames| ==> frames[i] != []
    ensures var r := Received(Preamble(0), FrameBits(BOOT) + WaveBits(frames, p) + Ones(n), least);
            r.0 == s && r.1 == (if n > 0 || frames == [] then frames else Before(frames))
            && (n > 0 ==> s.Preamble? && s.ones >= n)
  {
    hide Received, WaveBits, FrameBits, Ones;
    var s0, out := ReceivesWhole(frames, p, least);
    if n > 0 {
      ReceivedJoin(Preamble(0), FrameBits(BOOT) + WaveBits(frames, p), Ones(n), least);
      ReceivesPreamble(s0, n, least);
      s := Received(s0, Ones(n), least).0;
    } else {
      assert FrameBits(BOOT) + WaveBits(frames, p) + Ones(0) == FrameBits(BOOT) + WaveBits(frames, p);
      s := s0;
      if frames != [] { assert out == (out + Held(s0))[..|out|] && |out| == |frames| - 1; }
    }
  }

  /** In every reachable state a decoder that wants at most a whole preamble has received exactly
      the frames that are over, in order. */
  lemma DecoderSeesFrames(t: Track, actions: seq<Action>, least: nat)
    requires t.required >= 2 && 1 <= least <= t.required
    ensures var s := Reached(t, actions);
            Received(Preamble(0), s.log.bits, least).1 == Complete(s.w, Frames(s.log.blocks), t)
  {
    hide Reached, Received, WaveBits, FrameBits, Frames, PendOk, BlocksOk, Loaded, LevelsOk, Ones;
    var s := Reached(t, actions);
    var frames := Frames(s.log.blocks);
    var sent := 9 * s.w.bytes + s.w.bits;
    if s.w.preambles >= 2 {
      var r := ReceivesSoFar(frames, t.required, t.required - s.w.preambles, least);
    } else if frames == [] {
      ReceivesBoot(least);
      ReceivesPart(Preamble(0), FrameBits(BOOT), sent, least);
    } else if s.w.preambles == 1 {
      var r := ReceivesSoFar(Before(frames), t.required, t.required - 1, least);
    } else {
      var r := ReceivesSoFar(Before(frames), t.required, t.required, least);
      var whole := FrameBits(BOOT) + WaveBits(Before(frames), t.required) + Ones(t.required);
      ReceivesFrame(r.ones, Last(frames), least);
      ReceivesPart(r, FrameBits(Last(frames)), sent, least);
      ReceivedJoin(Preamble(0), whole, FrameBits(Last(frames))[..sent], least);
      assert Before(frames) + [] == Before(frames);
    }
  }

  /** The pin says the same as the bits: between bits, its levels read back as exactly those. */
  lemma PinSpellsBits(t: Track, actions: seq<Action>)
    requires t.required >= 2
    ensures var s := Reached(t, actions);
            s.w.state.START? ==> BitsIn(s.log.levels) == s.log.bits
  {
    hide Reached, BitsIn, LevelsOf;
    var s := Reached(t, actions);
    LevelsAreBits(s.log.bits);
  }
}

/**
 The reset counter of the waveform generator: it never counts a filler too many since the last
 packet, and counts each up to 250.
 */
module WaveResets {
  import opened Basics
  import opened BitStream
  import opened FrameLog
  import opened WaveMachine
  import opened WaveStream
  import opened WavePromise

  /** Fillers at the end of the log, behind the last packet. */
  function Fillers(blocks: seq<Block>): nat {
    if blocks == [] || blocks[|blocks| - 1].src.Some? then 0 else 1 + Fillers(blocks[..|blocks| - 1])
  }

  /** So many frames at the end were fillers. */
  lemma {:induction false} FillersAre(blocks: seq<Block>, k: nat)
    requires |blocks| - Fillers(blocks) <= k < |blocks|
    ensures blocks[k].src.None?
    decreases |blocks|
  {
    var n := |blocks| - 1;
    if k < n {
      FillersAre(blocks[..n], k);
      assert blocks[..n][k] == blocks[k];
    }
  }

  /** A new frame was chosen: the log has one block more. */
  predicate ChoseNew(s: Sys, s': Sys) {
    |s'.log.blocks| == |s.log.blocks| + 1
  }

  /** schedulePacket is over. */
  predicate Scheduled(s: Sys, s': Sys) {
    !s.prod.Quiet? && s'.prod.Quiet?
  }

  /** What each step does to the counter: a packet that goes out for the first time, or the end of
      schedulePacket, clears it, a filler counts, and nothing else does. */
  lemma ResetsExact(s: Sys, t: Track, a: Action)
    requires Ok(s, t)
    ensures var s' := Step(s, t, a);
            s'.w.resets ==
              if (ChoseNew(s, s') && s'.log.blocks[|s.log.blocks|].src.Some?) || Scheduled(s, s') then 0
              else if ChoseNew(s, s') && s.w.resets < 250 then s.w.resets + 1
              else s.w.resets
  {
    hide Taken, Frames, Stream, Placed, LevelsOk, Loaded, FramesOk, Summed, Xor;
    if a.TickOn? { TickResets(s, t); }
  }

  lemma TickResets(s: Sys, t: Track)
    requires Ok(s, t)
    ensures var s' := Step(s, t, TickOn);
            && s'.prod == s.prod
            && s'.w.resets ==
               if ChoseNew(s, s') && s'.log.blocks[|s.log.blocks|].src.Some? then 0
               else if ChoseNew(s, s') && s.w.resets < 250 then s.w.resets + 1
               else s.w.resets
    ensures s.w.repeats == 0 && !s.w.pending ==>
              var s' := Step(s, t, TickOn);
              s'.w.repeats == 0 && !s'.w.pending && (s'.log.blocks == s.log.blocks ||
                  (ChoseNew(s, s') && s'.log.blocks[..|s.log.blocks|] == s.log.blocks
                   && s'.log.blocks[|s.log.blocks|].src.None?))
  {
    hide Taken, Frames, Stream, Placed, LevelsOk, Loaded, FramesOk, Summed, Xor, InTurn;
  }

  predicate ResetsOk(s: Sys) {
    s.w.resets <= 250 && s.w.resets <= Fillers(s.log.blocks)
  }

  lemma StepResets(s: Sys, t: Track, a: Action)
    requires Ok(s, t) && ResetsOk(s)
    ensures ResetsOk(Step(s, t, a))
  {
    hide Ok;
    ResetsExact(s, t, a);
    BlocksMove(s, t, a);
  }

  /** The log of frames grows at its end, or its last entry has one frame more or is cut. */
  lemma BlocksMove(s: Sys, t: Track, a: Action)
    requires Ok(s, t)
    ensures var b, b' := s.log.blocks, Step(s, t, a).log.blocks;
            Fillers(b') == if ChoseNew(s, Step(s, t, a)) then if b'[|b|].src.Some? then 0 else Fillers(b) + 1
                           else Fillers(b)
  {
    hide Taken, Frames, Stream, Placed, LevelsOk, Loaded, FramesOk, Summed, Xor, InTurn;
    var b, b' := s.log.blocks, Step(s, t, a).log.blocks;
    if |b'| == |b| + 1 {
      assert b'[..|b|] == b;
    } else if b != [] {
      assert b'[..|b| - 1] == b[..|b| - 1];
    }
  }

  lemma CanStep(s: Sys, t: Track)
    requires Ok(s, t)
    ensures InBuffer(s.w) && (!s.prod.Quiet? ==> |s.prod.p| <= MAX_PACKET_SIZE)
  {
  }

  lemma {:induction false} RunResets(s: Sys, t: Track, actions: seq<Action>)
    requires Ok(s, t) && ResetsOk(s)
    ensures ResetsOk(Run(s, t, actions))
    decreases |actions|
  {
    hide Ok, ResetsOk, Step;
    if actions != [] {
      CanStep(s, t);
      StepResets(s, t, actions[0]);
      StepKeeps(s, t, actions[0]);
      RunResets(Step(s, t, actions[0]), t, actions[1..]);
    }
  }

  /** What a reader of the counter relies on: in every reachable state, whatever ran in between, at least
      so many of the frames chosen last were fillers, on the programming track resets. */
  lemma ResetsWereChosen(t: Track, actions: seq<Action>, k: nat)
    requires t.required >= 2
    ensures var s := Reached(t, actions); s.w.resets <= |s.log.blocks|
    ensures var s := Reached(t, actions);
            |s.log.blocks| - s.w.resets <= k < |s.log.blocks| ==>
              && s.log.blocks[k].src.None? && s.log.blocks[k].times == 1
              && s.log.blocks[k].bytes == if t.isMain then [0xFF, 0x00, 0xFF] else [0x00, 0x00, 0x00]
  {
    hide Ok, Reached, Run;
    var s := Reached(t, actions);
    ReachedResets(t, actions);
    FillersFew(s.log.blocks);
    if |s.log.blocks| - s.w.resets <= k < |s.log.blocks| {
      FillersAre(s.log.blocks, k);
      FillersOnlyWhenIdle(t, actions, k);
    }
  }

  lemma ReachedResets(t: Track, actions: seq<Action>)
    requires t.required >= 2
    ensures ResetsOk(Reached(t, actions))
  {
    hide Ok;
    StartOk(t);
    RunResets(Start(), t, actions);
  }

  lemma {:induction false} FillersFew(blocks: seq<Block>)
    ensures Fillers(blocks) <= |blocks|
  {
    if blocks != [] { FillersFew(blocks[..|blocks| - 1]); }
  }

  /** And while no packet comes, every frame counts: so a wait for the counter ends. */
  lemma {:induction false} CountsEachFiller(s: Sys, t: Track, ticks: seq<Action>)
    requires Ok(s, t) && s.w.resets <= 250 && s.w.repeats == 0 && !s.w.pending
    requires forall i :: 0 <= i < |ticks| ==> ticks[i] == TickOn
    ensures var s' := Run(s, t, ticks);
            && s.log.blocks <= s'.log.blocks
            && s'.w.resets == AtMost250(s.w.resets + |s'.log.blocks| - |s.log.blocks|)
            && forall k :: |s.log.blocks| <= k < |s'.log.blocks| ==> s'.log.blocks[k].src.None?
    decreases |ticks|
  {
    hide Ok, Step;
    if ticks != [] {
      CanStep(s, t);
      TickResets(s, t);
      StepKeeps(s, t, TickOn);
      CountsEachFiller(Step(s, t, TickOn), t, ticks[1..]);
    }
  }

  function AtMost250(n: nat): nat {
    if n < 250 then n else 250
  }
}

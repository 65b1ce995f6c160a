/**
 That the waveform generator and its producer get on: a packet that is scheduled is accepted, and
 what was accepted goes out.
 */
module WaveServed {
  import opened Basics
  import opened BitStream
  import opened FrameLog
  import opened WaveMachine
  import opened WaveStream
  import opened WavePromise
  import opened WaveResets

  function ProducerSteps(actions: seq<Action>): nat {
    if actions == [] then 0 else (if actions[0].ProducerOn? then 1 else 0) + ProducerSteps(actions[1..])
  }

  function Ticks(actions: seq<Action>): nat {
    if actions == [] then 0 else (if actions[0].TickOn? then 1 else 0) + Ticks(actions[1..])
  }

  // ---------------------------------------------------------------- what is scheduled is accepted

  /** The producer has this many steps to go until its packet is pending. */
  predicate ToGo(s: Sys, p: Packet, r: Byte, n: nat) {
    match s.prod
    case Quiet => false
    case Waiting(q, u) => q == p && u == r && !s.w.pending && n >= |p| + 5
    case Filling(q, u, step, _) => q == p && u == r && step <= |p| + 3 && n >= |p| + 4 - step
  }

  lemma StepGoes(s: Sys, t: Track, a: Action, p: Packet, r: Byte, n: nat)
    requires Ok(s, t) && ToGo(s, p, r, n)
    ensures CanStepIs(s) && var s' := Step(s, t, a);
            if a.ProducerOn? then n > 0 && (Accepted(s.log.jobs, s'.log.jobs, Job(p, r)) ||
                                            (s'.log.jobs == s.log.jobs && ToGo(s', p, r, n - 1)))
            else s'.log.jobs == s.log.jobs && ToGo(s', p, r, n)
  {
    hide Taken, Frames, Stream, Placed, LevelsOk, Loaded, FramesOk, Summed, Xor, BlocksOk;
    CanStep(s, t);
  }

  predicate CanStepIs(s: Sys) {
    InBuffer(s.w) && (!s.prod.Quiet? ==> |s.prod.p| <= MAX_PACKET_SIZE)
  }

  /** No job is ever taken back. */
  lemma {:induction false} JobsGrow(s: Sys, t: Track, actions: seq<Action>)
    requires Ok(s, t)
    ensures s.log.jobs <= Run(s, t, actions).log.jobs
    decreases |actions|
  {
    hide Ok;
    if actions != [] {
      CanStep(s, t);
      StepKeeps(s, t, actions[0]);
      JobsGrow(Step(s, t, actions[0]), t, actions[1..]);
    }
  }

  lemma {:induction false} GetsAccepted(s: Sys, t: Track, actions: seq<Action>, p: Packet, r: Byte, n: nat)
    requires Ok(s, t) && ToGo(s, p, r, n) && ProducerSteps(actions) >= n
    ensures Accepted(s.log.jobs, Run(s, t, actions).log.jobs, Job(p, r))
    decreases |actions|
  {
    hide Ok, ToGo, Step;
    if actions == [] {
      NeverNone(s, p, r);
    } else {
      var a := actions[0];
      StepGoes(s, t, a, p, r, n);
      StepKeeps(s, t, a);
      var s1 := Step(s, t, a);
      if Accepted(s.log.jobs, s1.log.jobs, Job(p, r)) {
        JobsGrow(s1, t, actions[1..]);
      } else {
        GetsAccepted(s1, t, actions[1..], p, r, if a.ProducerOn? then n - 1 else n);
      }
    }
  }

  lemma NeverNone(s: Sys, p: Packet, r: Byte)
    ensures !ToGo(s, p, r, 0)
  {
  }

  /** A packet that fits, scheduled in any reachable state when nothing is pending: whatever the interrupt
      does meanwhile, it is accepted after its producer's next steps, one for each byte and five more. */
  lemma ScheduleIsAccepted(t: Track, before: seq<Action>, p: Packet, r: Byte, actions: seq<Action>)
    requires t.required >= 2 && |p| <= 5 && ProducerSteps(actions) >= |p| + 5
    requires var s := Reached(t, before); s.prod.Quiet? && !s.w.pending
    ensures var s := Reached(t, before);
            Accepted(s.log.jobs, Run(s, t, [Begin(p, r)] + actions).log.jobs, Job(p, r))
  {
    hide Reached, Ok;
    var s := Reached(t, before);
    CanStep(s, t);
    StepKeeps(s, t, Begin(p, r));
    assert ([Begin(p, r)] + actions)[1..] == actions;
    GetsAccepted(Step(s, t, Begin(p, r)), t, actions, p, r, |p| + 5);
  }

  // ---------------------------------------------------------------- what was accepted goes out

  /** Bits up to and with the one that chooses the next frame. */
  function BitsToChoice(w: Wave, t: Track): nat
    requires InBuffer(w) && t.required >= 2
  {
    if w.preambles >= 2 then w.preambles - 1
    else
      var bytes := (if w.bytes < w.length then w.length else w.bytes + 1) - w.bytes;
      w.preambles + (9 * bytes - w.bits) + (t.required - 1)
  }

  /** Ticks to the start of the next bit. */
  function TicksToBit(s: WaveState): nat {
    match s
    case START => 0
    case MID_1 => 1
    case HIGH_0 => 3
    case MID_0 => 2
    case LOW_0 => 1
    case PENDING => 0
  }

  /** Ticks up to and with the one that chooses the next frame, at most. */
  function TicksToChoice(w: Wave, t: Track): (n: nat)
    requires InBuffer(w) && t.required >= 2
    ensures n > 0
  {
    TicksToBit(w.state) + 4 * BitsToChoice(w, t) - 3
  }

  /** Ticks from one choice to the next, at most. */
  function FrameTicks(t: Track): nat {
    4 * (9 * 6 + t.required)
  }

  function Rounds(n: nat, each: nat): nat {
    if n == 0 then 0 else each + Rounds(n - 1, each)
  }

  /** Ticks until a pending packet is taken, at most: the repeats of the one before it come first. */
  function TicksToTake(w: Wave, t: Track): nat
    requires InBuffer(w) && t.required >= 2
  {
    TicksToChoice(w, t) + Rounds(w.repeats, FrameTicks(t))
  }

  /** A tick comes closer to the choice, or makes it, and then the next one is not too far. */
  lemma TickComesCloser(w: Wave, t: Track)
    requires InBuffer(w) && t.required >= 2 && w.length <= 6 && w.preambles <= t.required && w.state != PENDING
    ensures var (w', _, bit) := Tick(w, t);
            InBuffer(w') ==>
              if bit.Some? && w.preambles == 2 then
                && (w.repeats > 0 ==> w' == w.(state := MID_1, preambles := 1, repeats := w.repeats - 1)
                                      && TicksToChoice(w', t) <= FrameTicks(t))
                && (w.repeats == 0 && w.pending ==> !w'.pending)
              else
                w'.repeats == w.repeats && w'.pending == w.pending && TicksToChoice(w', t) < TicksToChoice(w, t)
  {
    hide FrameTicks, BitAt;
    if w.preambles == 2 && w.state.START? {
      ChoiceIsNear(w, t);
    }
  }

  lemma ChoiceIsNear(w: Wave, t: Track)
    requires InBuffer(w) && t.required >= 2 && w.length <= 6
    ensures var w' := w.(state := MID_1, preambles := 1, repeats := if w.repeats > 0 then w.repeats - 1 else 0);
            w.repeats > 0 ==> TicksToChoice(w', t) <= FrameTicks(t)
  {
  }

  lemma Bounds(s: Sys, t: Track)
    requires Ok(s, t)
    ensures CanStepIs(s) && t.required >= 2 && s.w.length <= 6 && s.w.preambles <= t.required && s.w.state != PENDING
    ensures |s.log.jobs| == Taken(s.log.blocks) + if s.w.pending then 1 else 0
  {
    hide Taken, Frames, Stream, FramesOk, Summed, Xor, BlocksOk;
    NotPending(s.w.state, s.log.levels, s.log.bits);
  }

  /** While a packet is pending, each tick comes closer to taking it, and nothing sets that back. */
  lemma StepTakes(s: Sys, t: Track, a: Action)
    requires Ok(s, t) && s.w.pending
    ensures CanStepIs(s) && Ok(Step(s, t, a), t) && t.required >= 2 && InBuffer(Step(s, t, a).w)
    ensures var s' := Step(s, t, a);
            || Taken(s'.log.blocks) == |s.log.jobs|
            || (s'.w.pending && s'.log.jobs == s.log.jobs
                && TicksToTake(s'.w, t) + (if a.TickOn? then 1 else 0) <= TicksToTake(s.w, t))
  {
    hide Ok, Taken, TicksToChoice, FrameTicks;
    Bounds(s, t);
    StepKeeps(s, t, a);
    var s' := Step(s, t, a);
    Bounds(s', t);
    match a
    case TickOn => TickComesCloser(s.w, t);
    case ProducerOn => PendingStays(s, t);
    case Begin(_, _) =>
    case ClearRepeats => SameTicks(s.w, t);
  }

  lemma SameTicks(w: Wave, t: Track)
    requires InBuffer(w) && t.required >= 2
    ensures TicksToChoice(w.(repeats := 0), t) == TicksToChoice(w, t)
  {
  }

  /** What is pending is left alone by the producer. */
  lemma PendingStays(s: Sys, t: Track)
    requires Ok(s, t) && s.w.pending
    ensures CanStepIs(s) && InBuffer(s.w) && t.required >= 2
    ensures var s' := Step(s, t, ProducerOn);
            s'.w == s.w.(resets := s'.w.resets) && s'.log.jobs == s.log.jobs && InBuffer(s'.w)
            && TicksToChoice(s'.w, t) == TicksToChoice(s.w, t)
  {
    hide Taken, Frames, Stream, FramesOk, Summed, Xor, BlocksOk, Loaded, Placed, LevelsOk, HalfFilled;
  }

  lemma {:induction false} TakenStays(s: Sys, t: Track, actions: seq<Action>, n: nat)
    requires Ok(s, t) && Taken(s.log.blocks) >= n
    ensures Taken(Run(s, t, actions).log.blocks) >= n
    decreases |actions|
  {
    hide Ok, Step, Taken;
    if actions != [] {
      StepTaken(s, t, actions[0]);
      TakenStays(Step(s, t, actions[0]), t, actions[1..], n);
    }
  }

  lemma StepTaken(s: Sys, t: Track, a: Action)
    requires Ok(s, t)
    ensures CanStepIs(s) && Ok(Step(s, t, a), t) && Taken(Step(s, t, a).log.blocks) >= Taken(s.log.blocks)
  {
    hide Ok;
    Bounds(s, t);
    StepKeeps(s, t, a);
    var b, b' := s.log.blocks, Step(s, t, a).log.blocks;
    if |b'| == |b| + 1 {
      assert b'[..|b|] == b;
    } else if b != [] {
      assert b'[..|b| - 1] == b[..|b| - 1];
    }
  }

  lemma {:induction false} GetsTaken(s: Sys, t: Track, actions: seq<Action>)
    requires Ok(s, t) && s.w.pending && InBuffer(s.w) && t.required >= 2 && Ticks(actions) >= TicksToTake(s.w, t)
    ensures Taken(Run(s, t, actions).log.blocks) >= |s.log.jobs|
    decreases |actions|
  {
    hide Ok, Step, Taken, TicksToTake;
    SomeTicks(s.w, t);
    var a := actions[0];
    StepTakes(s, t, a);
    var s1 := Step(s, t, a);
    if Taken(s1.log.blocks) == |s.log.jobs| {
      TakenStays(s1, t, actions[1..], |s.log.jobs|);
    } else {
      GetsTaken(s1, t, actions[1..]);
    }
  }

  lemma SomeTicks(w: Wave, t: Track)
    requires InBuffer(w) && t.required >= 2
    ensures TicksToTake(w, t) > 0
  {
    hide TicksToChoice;
  }

  /** In every reachable state: what is pending is taken to be sent within so many more ticks, whatever its
      producer does meanwhile; and then it is sent as EachJobAsAsked says. */
  lemma PendingGoesOut(t: Track, before: seq<Action>, actions: seq<Action>)
    requires t.required >= 2 && Reached(t, before).w.pending
    requires InBuffer(Reached(t, before).w) && Ticks(actions) >= TicksToTake(Reached(t, before).w, t)
    ensures var s := Reached(t, before);
            |s.log.jobs| > 0 && Taken(Run(s, t, actions).log.blocks) >= |s.log.jobs|
  {
    hide Reached, Ok, Taken, TicksToTake;
    Bounds(Reached(t, before), t);
    GetsTaken(Reached(t, before), t, actions);
  }

  // ---------------------------------------------------------------- what is cut short

  predicate NoneCut(blocks: seq<Block>) {
    forall k :: 0 <= k < |blocks| ==> !blocks[k].cut
  }

  lemma StepCuts(s: Sys, t: Track, a: Action)
    requires Ok(s, t) && NoneCut(s.log.blocks) && !a.ClearRepeats?
    ensures CanStepIs(s) && NoneCut(Step(s, t, a).log.blocks)
  {
    hide Ok, Taken;
    Bounds(s, t);
  }

  lemma {:induction false} RunCuts(s: Sys, t: Track, actions: seq<Action>)
    requires Ok(s, t) && NoneCut(s.log.blocks) && forall i :: 0 <= i < |actions| ==> !actions[i].ClearRepeats?
    ensures NoneCut(Run(s, t, actions).log.blocks)
    decreases |actions|
  {
    hide Ok, Step, NoneCut;
    if actions != [] {
      StepCuts(s, t, actions[0]);
      StepKeeps(s, t, actions[0]);
      RunCuts(Step(s, t, actions[0]), t, actions[1..]);
    }
  }

  /** Unless somebody clears repeats, every packet that is over went out exactly its repeats and once. */
  lemma ExactlyAsAsked(t: Track, actions: seq<Action>, i: nat) returns (k: nat)
    requires t.required >= 2 && i < Taken(Reached(t, actions).log.blocks)
    requires forall n :: 0 <= n < |actions| ==> !actions[n].ClearRepeats?
    ensures var log := Reached(t, actions).log;
            && k < |log.blocks| && i < |log.jobs| && log.blocks[k].src == Some(i)
            && log.blocks[k].bytes == Summed(log.jobs[i].p)
            && (k < |log.blocks| - 1 ==> log.blocks[k].times == log.jobs[i].r + 1)
  {
    hide Ok, Reached, Taken;
    k := EachJobAsAsked(t, actions, i);
    NothingCut(t, actions);
  }

  lemma NothingCut(t: Track, actions: seq<Action>)
    requires t.required >= 2 && forall n :: 0 <= n < |actions| ==> !actions[n].ClearRepeats?
    ensures NoneCut(Reached(t, actions).log.blocks)
  {
    hide Ok;
    StartOk(t);
    RunCuts(Start(), t, actions);
  }
}

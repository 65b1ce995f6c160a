/**
 That the ESP32 channel and its caller get on: a packet that is scheduled is accepted once the rounds
 of the one before are over, and goes out at the end of the next round.
 */
module RmtServed {
  import opened Basics
  import opened BitStream
  import opened FrameLog
  import opened RmtMachine
  import opened RmtPromise

  function RoundsOver(actions: seq<Action>): nat {
    if actions == [] then 0 else (if actions[0].RoundOver? then 1 else 0) + RoundsOver(actions[1..])
  }

  function CallerSteps(actions: seq<Action>): nat {
    if actions == [] then 0 else (if actions[0].CallerOn? then 1 else 0) + CallerSteps(actions[1..])
  }

  /** The caller is about this packet. */
  predicate About(caller: Caller, p: Packet, r: Byte) {
    !caller.Idle? && caller.p == p && caller.r == r
  }

  /** Rounds until everything handed over is in the hardware, and the last one of its repeats began. */
  function RoundsLeft(c: Channel): nat {
    if c.ready && c.repeat == 0 then 1 else c.repeat
  }

  /** Steps of the caller until its packet is handed over, with nothing in its way. */
  function StepsLeft(caller: Caller): int
    requires !caller.Idle?
  {
    var bits := 9 * (|caller.p| + 1);
    match caller
    case Waiting(_, _) => bits + 7
    case Asking(_, _) => bits + 6
    case Looking(_, _) => bits + 5
    case Writing(_, _, n) => bits + 4 - n
  }

  predicate Fits(s: Sys, plen: nat) {
    Sized(s.c, plen) && (!s.caller.Idle? ==> |s.caller.p| <= MAX_PACKET_SIZE)
  }

  lemma OkFits(s: Sys, plen: nat, t: Track)
    requires Ok(s, plen, t)
    ensures Fits(s, plen) && (s.caller.Writing? ==> RoundsLeft(s.c) == 0 && s.caller.step <= 9 * (|s.caller.p| + 1) + 3)
  {
    hide RoundsOk, MemoryOk, RmtBits, Frames, LostOk;
  }

  /** One step: the packet is accepted, or the caller is still about it, and nobody set it back. */
  lemma StepServes(s: Sys, plen: nat, t: Track, a: Action, p: Packet, r: Byte)
    requires Ok(s, plen, t) && About(s.caller, p, r)
    ensures Fits(s, plen) && Ok(Step(s, plen, t, a), plen, t)
    ensures var s' := Step(s, plen, t, a);
            || Accepted(s.log.jobs, s'.log.jobs, Job(p, r))
            || (&& s'.log.jobs == s.log.jobs && About(s'.caller, p, r)
                && RoundsLeft(s'.c) == RoundsLeft(s.c) - (if a.RoundOver? && RoundsLeft(s.c) > 0 then 1 else 0)
                && (RoundsLeft(s.c) == 0 ==>
                      StepsLeft(s'.caller) == StepsLeft(s.caller) - if a.CallerOn? then 1 else 0))
  {
    hide Ok, Refilled, DataItems, RawItem, Summed, Xor, OnRails, Chosen;
    OkFits(s, plen, t);
    StepKeeps(s, plen, t, a);
    match a
    case RoundOver =>
    case CallerOn => CallServes(s.c, s.caller);
    case Begin(_, _) =>
  }

  lemma CallServes(c: Channel, caller: Caller)
    requires |c.data| == MAX_DATA && !caller.Idle? && |caller.p| <= MAX_PACKET_SIZE
    requires caller.Writing? ==> RoundsLeft(c) == 0 && caller.step <= 9 * (|caller.p| + 1) + 3
    ensures var (c', caller') := Call(c, caller);
            || (caller.Writing? && c'.ready && !c.ready)
            || (&& !(caller.Writing? && c'.ready) && About(caller', caller.p, caller.r)
                && RoundsLeft(c') == RoundsLeft(c)
                && (RoundsLeft(c) == 0 ==> StepsLeft(caller') == StepsLeft(caller) - 1))
  {
    hide DataItems, RawItem, Xor;
  }

  lemma {:induction false} JobsGrow(s: Sys, plen: nat, t: Track, actions: seq<Action>)
    requires Ok(s, plen, t)
    ensures s.log.jobs <= Run(s, plen, t, actions).log.jobs
    decreases |actions|
  {
    hide Ok;
    if actions != [] {
      OkFits(s, plen, t);
      StepKeeps(s, plen, t, actions[0]);
      JobsGrow(Step(s, plen, t, actions[0]), plen, t, actions[1..]);
    }
  }

  /** After as many rounds as are left the channel is free, unless the packet was accepted before. */
  lemma {:induction false} FreesUp(s: Sys, plen: nat, t: Track, actions: seq<Action>, p: Packet, r: Byte)
    requires Ok(s, plen, t) && About(s.caller, p, r) && RoundsOver(actions) >= RoundsLeft(s.c)
    ensures var s' := Run(s, plen, t, actions);
            || Accepted(s.log.jobs, s'.log.jobs, Job(p, r))
            || (s'.log.jobs == s.log.jobs && About(s'.caller, p, r) && RoundsLeft(s'.c) == 0)
    decreases |actions|
  {
    hide Ok, Step, About, RoundsLeft;
    if actions != [] {
      StepServes(s, plen, t, actions[0], p, r);
      var s1 := Step(s, plen, t, actions[0]);
      if Accepted(s.log.jobs, s1.log.jobs, Job(p, r)) {
        JobsGrow(s1, plen, t, actions[1..]);
      } else {
        FreesUp(s1, plen, t, actions[1..], p, r);
      }
    }
  }

  /** Then as many steps of the caller as it has left hand the packet over. */
  lemma {:induction false} GetsAccepted(s: Sys, plen: nat, t: Track, actions: seq<Action>, p: Packet, r: Byte)
    requires Ok(s, plen, t) && About(s.caller, p, r) && RoundsLeft(s.c) == 0
    requires CallerSteps(actions) >= StepsLeft(s.caller)
    ensures Accepted(s.log.jobs, Run(s, plen, t, actions).log.jobs, Job(p, r))
    decreases |actions|
  {
    hide Ok, Step, RoundsLeft;
    OkFits(s, plen, t);
    var a := actions[0];
    StepServes(s, plen, t, a, p, r);
    var s1 := Step(s, plen, t, a);
    if Accepted(s.log.jobs, s1.log.jobs, Job(p, r)) {
      JobsGrow(s1, plen, t, actions[1..]);
    } else {
      GetsAccepted(s1, plen, t, actions[1..], p, r);
    }
  }

  /** A packet that fits, scheduled in any reachable state: whatever else happens, it is accepted once the
      rounds are over that were left, and its caller has then made nine steps for each byte, the sum
      included, and seven more. */
  lemma ScheduleIsAccepted(plen: nat, t: Track, data: seq<Item>, memory: seq<Item>, before: seq<Action>, p: Packet,
                           r: Byte, first: seq<Action>, second: seq<Action>)
    requires plen <= 22 && |memory| == MEMORY && |data| == MAX_DATA && |p| <= 5
    requires var s := Reached(plen, t, data, memory, before);
             s.caller.Idle? && RoundsOver(first) >= RoundsLeft(s.c)
    requires CallerSteps(second) >= 9 * (|p| + 1) + 7
    ensures var s := Reached(plen, t, data, memory, before);
            var s' := Run(Run(s, plen, t, [Begin(p, r)] + first), plen, t, second);
            Accepted(s.log.jobs, s'.log.jobs, Job(p, r))
  {
    hide Reached, Ok, RoundsLeft;
    var s := Reached(plen, t, data, memory, before);
    OkFits(s, plen, t);
    StepKeeps(s, plen, t, Begin(p, r));
    assert ([Begin(p, r)] + first)[1..] == first;
    FreesUp(Step(s, plen, t, Begin(p, r)), plen, t, first, p, r);
    var s1 := Run(s, plen, t, [Begin(p, r)] + first);
    if Accepted(s.log.jobs, s1.log.jobs, Job(p, r)) {
      JobsGrow(s1, plen, t, second);
    } else {
      AtMostAll(s1, plen, t, p, r);
      GetsAccepted(s1, plen, t, second, p, r);
    }
  }

  lemma AtMostAll(s: Sys, plen: nat, t: Track, p: Packet, r: Byte)
    requires Ok(s, plen, t) && About(s.caller, p, r)
    ensures StepsLeft(s.caller) <= 9 * (|p| + 1) + 7
  {
    hide Ok;
  }

  /** What was accepted is what the hardware sends from the end of the round going on. */
  lemma RoundTakes(plen: nat, t: Track, data: seq<Item>, memory: seq<Item>, before: seq<Action>)
    requires plen <= 22 && |memory| == MEMORY && |data| == MAX_DATA && Reached(plen, t, data, memory, before).c.ready
    ensures var s := Reached(plen, t, data, memory, before);
            Fits(s, plen) && Taken(Step(s, plen, t, RoundOver).log.blocks) == |s.log.jobs| > Taken(s.log.blocks)
  {
    hide Reached, Taken, Frames, DataOk, Holds, LostOk, RmtBits, Interrupt, OnRails;
    var s := Reached(plen, t, data, memory, before);
    OkFits(s, plen, t);
    RoundKeeps(s.c, s.caller, s.log.blocks, s.log.jobs, plen, t);
  }
}

/**
 What the ESP32 channel puts on the rails, whatever its caller is doing meanwhile.
 */
module RmtPromise {
  import opened Basics
  import opened BitStream
  import opened FrameLog
  import opened RmtMachine

  // ---------------------------------------------------------------- memory

  lemma {:induction false} OnRailsItems(bits: seq<bool>, rest: seq<Item>)
    ensures OnRails(Items(bits) + ([Eot] + rest)) == bits
    decreases |bits|
  {
    var m := Items(bits) + ([Eot] + rest);
    if bits == [] {
      assert m == [Eot] + rest;
    } else {
      OnRailsItems(bits[1..], rest);
      assert m[1..] == Items(bits[1..]) + ([Eot] + rest);
      assert m[0] == ItemOf(bits[0]);
    }
  }

  /** The memory holds this frame behind its preamble. */
  predicate Holds(memory: seq<Item>, plen: nat, f: Packet) {
    && f != [] && plen + 1 + |DataItems(f)| <= |memory|
    && memory[..plen + 1] == Items(Ones(plen)) + [Zero]
    && memory[plen + 1..plen + 1 + |DataItems(f)|] == DataItems(f)
  }

  /** What then goes out: the preamble, the bytes behind their zeros, and the end bit. */
  lemma HeldGoesOut(memory: seq<Item>, plen: nat, f: Packet)
    requires Holds(memory, plen, f)
    ensures OnRails(memory) == Ones(plen) + FrameBits(f) + [true]
  {
    hide OnRails, Items, FrameBits, Ones, DataItems;
    var bits := Ones(plen) + FrameBits(f) + [true];
    var end := plen + 1 + |DataItems(f)|;
    var rest := memory[end..];
    assert memory == memory[..plen + 1] + memory[plen + 1..end] + rest;
    Spelled(f, plen);
    assert Items(bits) + [Eot] + rest == Items(bits) + ([Eot] + rest);
    OnRailsItems(bits, rest);
  }

  lemma StartsWithZero(f: Packet)
    requires f != []
    ensures FrameBits(f) == [false] + FrameBits(f)[1..]
  {
  }

  lemma Spelled(f: Packet, plen: nat)
    requires f != []
    ensures Items(Ones(plen)) + [Zero] + DataItems(f) == Items(Ones(plen) + FrameBits(f) + [true]) + [Eot]
  {
    hide FrameBits;
    StartsWithZero(f);
    var tail := FrameBits(f)[1..] + [true];
    assert Ones(plen) + FrameBits(f) + [true] == Ones(plen) + [false] + tail;
    assert Items(Ones(plen) + [false] + tail) == Items(Ones(plen)) + [Zero] + Items(tail);
  }

  lemma FillHolds(memory: seq<Item>, plen: nat, items: seq<Item>, f: Packet)
    requires |memory| == MEMORY && plen <= 22 && f != [] && |f| <= MAX_PACKET_SIZE + 1 && items == DataItems(f)
    requires memory[..plen + 1] == Items(Ones(plen)) + [Zero]
    ensures Holds(Refilled(memory, items, plen + 1), plen, f)
  {
    hide DataItems, Items, Ones;
    var m := Refilled(memory, items, plen + 1);
    assert m[..plen + 1] == memory[..plen + 1];
    assert m[plen + 1..plen + 1 + |items|] == items;
  }

  lemma PrefillHolds(plen: nat, t: Track, data: seq<Item>, memory: seq<Item>)
    requires plen <= 22 && |memory| == MEMORY
    ensures Holds(Prefilled(plen, t, data, memory).memory, plen, Filler(t))
  {
    hide DataItems, Items, Ones;
    var m := Refilled(memory, PreambleItems(plen), 0);
    assert m[..plen + 2] == PreambleItems(plen);
    assert m[..plen + 1] == PreambleItems(plen)[..plen + 1];
    FillHolds(m, plen, DataItems(Filler(t)), Filler(t));
  }

  // ---------------------------------------------------------------- one round

  /** The frame the memory holds is the last block's. */
  predicate MemoryOk(memory: seq<Item>, plen: nat, blocks: seq<Block>) {
    blocks != [] && Holds(memory, plen, blocks[|blocks| - 1].bytes)
  }

  /** The end of a round, as blocks. */
  lemma RoundKeeps(c: Channel, caller: Caller, blocks: seq<Block>, jobs: seq<Job>, plen: nat, t: Track)
    requires Sized(c, plen) && DataOk(c, caller, jobs) && RoundsOk(blocks, jobs, c.ready, c.repeat, t)
    requires MemoryOk(c.memory, plen, blocks)
    ensures var (c', lost) := Interrupt(c, plen, t);
            var blocks' := Chosen(blocks, jobs, c, t);
            && DataOk(c', caller, jobs) && RoundsOk(blocks', jobs, c'.ready, c'.repeat, t)
            && MemoryOk(c'.memory, plen, blocks')
            && Frames(blocks') == Frames(blocks) + [blocks'[|blocks'| - 1].bytes]
            && (lost <==> c.ready && jobs[|jobs| - 1].r == 255)
            && Taken(blocks') == Taken(blocks) + (if c.ready then 1 else 0)
  {
    hide Taken, Frames, Summed, Xor, DataItems, Items, Ones, Refilled, RawItem;
    MemoryStart(c.memory, plen, blocks);
    var blocks' := Chosen(blocks, jobs, c, t);
    if c.ready {
      OneMoreBlock(blocks, blocks'[|blocks|], jobs, t);
      FillHolds(c.memory, plen, c.data[..c.dataLen], Summed(jobs[|jobs| - 1].p));
    } else if c.repeat == 0 {
      OneMoreBlock(blocks, blocks'[|blocks|], jobs, t);
      FillHolds(c.memory, plen, DataItems(Filler(t)), Filler(t));
    } else {
      var b := blocks[|blocks| - 1].(times := blocks[|blocks| - 1].times + 1);
      SameLast(blocks, b);
      TurnsStay(blocks, b, jobs, t);
    }
  }

  lemma MemoryStart(memory: seq<Item>, plen: nat, blocks: seq<Block>)
    requires MemoryOk(memory, plen, blocks) && |memory| == MEMORY
    ensures plen + 1 <= MEMORY && memory[..plen + 1] == Items(Ones(plen)) + [Zero]
  {
  }

  lemma {:induction false} MoreRmt(frames: seq<Packet>, f: Packet, p: nat)
    ensures RmtBits(frames + [f], p) == RmtBits(frames, p) + (Ones(p) + FrameBits(f) + [true])
    decreases |frames|
  {
    hide Ones, FrameBits;
    if frames == [] {
      var all := Ones(p) + FrameBits(f) + [true];
      assert RmtBits([f], p) == all + RmtBits([], p);
      assert all + [] == all && [] + all == all;
    } else {
      MoreRmt(frames[1..], f, p);
      assert (frames + [f])[1..] == frames[1..] + [f];
      var a, b, c := Ones(p) + FrameBits(frames[0]) + [true], RmtBits(frames[1..], p), Ones(p) + FrameBits(f) + [true];
      assert a + (b + c) == (a + b) + c;
    }
  }

  // ---------------------------------------------------------------- every reachable state

  /** Exactly the jobs taken whose repeat count wraps were reported lost. */
  ghost predicate LostOk(lost: seq<nat>, blocks: seq<Block>, jobs: seq<Job>) {
    forall i: nat :: i in lost <==> i < Taken(blocks) && i < |jobs| && jobs[i].r == 255
  }

  ghost predicate Ok(s: Sys, plen: nat, t: Track) {
    && Sized(s.c, plen) && DataOk(s.c, s.caller, s.log.jobs)
    && RoundsOk(s.log.blocks, s.log.jobs, s.c.ready, s.c.repeat, t)
    && MemoryOk(s.c.memory, plen, s.log.blocks)
    && s.log.rails == RmtBits(Frames(s.log.blocks), plen)
    && LostOk(s.log.lost, s.log.blocks, s.log.jobs)
  }

  /** The first round sends what was prefilled. */
  function Start(plen: nat, t: Track, data: seq<Item>, memory: seq<Item>): Sys
    requires plen <= 22 && |memory| == MEMORY
  {
    var c := Prefilled(plen, t, data, memory);
    Sys(c, Idle, Log(OnRails(c.memory), [Block(None, Filler(t), 1, false, 0)], [], []))
  }

  lemma StartOk(plen: nat, t: Track, data: seq<Item>, memory: seq<Item>)
    requires plen <= 22 && |memory| == MEMORY && |data| == MAX_DATA
    ensures Ok(Start(plen, t, data, memory), plen, t)
  {
    hide Refilled, DataItems, Items, Ones, OnRails;
    PrefillHolds(plen, t, data, memory);
    var s := Start(plen, t, data, memory);
    HeldGoesOut(s.c.memory, plen, Filler(t));
    var b := Block(None, Filler(t), 1, false, 0);
    NoneBefore(b);
    OneMoreBlock([], b, [], t);
    assert [] + [b] == [b] && [] + [Filler(t)] == [Filler(t)];
    MoreRmt([], Filler(t), plen);
    assert [] + s.log.rails == s.log.rails;
  }

  lemma NoneBefore(b: Block)
    ensures Taken([]) == 0 && Frames([]) == []
  {
  }

  lemma LostMore(lost: seq<nat>, blocks: seq<Block>, blocks': seq<Block>, jobs: seq<Job>, now: bool, ready: bool)
    requires LostOk(lost, blocks, jobs) && |jobs| == Taken(blocks) + (if ready then 1 else 0)
    requires Taken(blocks') == Taken(blocks) + if ready then 1 else 0
    requires now <==> ready && jobs[|jobs| - 1].r == 255
    ensures LostOk(lost + if now then [Taken(blocks)] else [], blocks', jobs)
  {
    hide Taken;
  }

  lemma RoundStep(s: Sys, plen: nat, t: Track)
    requires Ok(s, plen, t)
    ensures Ok(Step(s, plen, t, RoundOver), plen, t)
  {
    hide Taken, Frames, RmtBits, DataOk, RoundsOk, Holds, LostOk, OnRails, Chosen, FrameBits, Ones, Interrupt;
    FitsFrom(s.c, s.caller, s.log.jobs);
    JobsFrom(s.log.blocks, s.log.jobs, s.c.ready, s.c.repeat, t);
    RoundKeeps(s.c, s.caller, s.log.blocks, s.log.jobs, plen, t);
    var (c, lost) := Interrupt(s.c, plen, t);
    var blocks := Chosen(s.log.blocks, s.log.jobs, s.c, t);
    var f := blocks[|blocks| - 1].bytes;
    HeldGoesOut(c.memory, plen, f);
    MoreRmt(Frames(s.log.blocks), f, plen);
    LostMore(s.log.lost, s.log.blocks, blocks, s.log.jobs, lost, s.c.ready);
  }

  lemma FitsFrom(c: Channel, caller: Caller, jobs: seq<Job>)
    requires DataOk(c, caller, jobs)
    ensures !caller.Idle? ==> |caller.p| <= MAX_PACKET_SIZE
  {
  }

  lemma JobsFrom(blocks: seq<Block>, jobs: seq<Job>, ready: bool, repeat: nat, t: Track)
    requires RoundsOk(blocks, jobs, ready, repeat, t)
    ensures |jobs| == Taken(blocks) + (if ready then 1 else 0)
  {
  }

  lemma CallerStep(s: Sys, plen: nat, t: Track)
    requires Ok(s, plen, t)
    ensures Ok(Step(s, plen, t, CallerOn), plen, t)
  {
    hide Taken, Frames, RmtBits, DataOk, RoundsOk, Holds, LostOk, OnRails, FrameBits, Ones, RawItem, Xor;
    FitsFrom(s.c, s.caller, s.log.jobs);
    CallKeeps(s.c, s.caller, s.log.jobs);
    if s.caller.Writing? {
      WritingMeans(s.c, s.caller, s.log.jobs);
      var j := Job(s.caller.p, s.caller.r);
      AcceptKeeps(s.log.blocks, s.log.jobs, j, t);
      LostSame(s.log.lost, s.log.blocks, s.log.jobs, j, t);
    }
  }

  lemma WritingMeans(c: Channel, caller: Caller, jobs: seq<Job>)
    requires DataOk(c, caller, jobs) && caller.Writing?
    ensures !c.ready && c.repeat == 0
  {
  }

  lemma AcceptKeeps(blocks: seq<Block>, jobs: seq<Job>, j: Job, t: Track)
    ensures RoundsOk(blocks, jobs, false, 0, t) ==> RoundsOk(blocks, jobs + [j], true, (j.r + 1) % 256, t)
  {
    hide Taken, Xor;
    if RoundsOk(blocks, jobs, false, 0, t) {
      forall k | 0 <= k < |blocks|
        ensures InTurn(blocks, k, jobs + [j], t) && SendsOf(blocks[k].src, jobs + [j]) == SendsOf(blocks[k].src, jobs)
      {
        assert InTurn(blocks, k, jobs, t);
      }
    }
  }

  lemma LostSame(lost: seq<nat>, blocks: seq<Block>, jobs: seq<Job>, j: Job, t: Track)
    requires LostOk(lost, blocks, jobs)
    ensures RoundsOk(blocks, jobs, false, 0, t) ==> LostOk(lost, blocks, jobs + [j])
  {
    hide Taken, InTurn;
  }

  /** Whatever rounds end and whatever steps the caller takes, and in whatever order. */
  lemma StepKeeps(s: Sys, plen: nat, t: Track, a: Action)
    requires Ok(s, plen, t)
    ensures Ok(Step(s, plen, t, a), plen, t)
  {
    match a
    case RoundOver =>
      hide *;
      RoundStep(s, plen, t);
    case CallerOn =>
      hide *;
      CallerStep(s, plen, t);
    case Begin(p, r) =>
      hide Taken, Frames, RmtBits, RoundsOk, Holds, LostOk, OnRails, FrameBits, Ones, RawItem, Xor;
  }

  ghost function Run(s: Sys, plen: nat, t: Track, actions: seq<Action>): (r: Sys)
    requires Ok(s, plen, t)
    ensures Ok(r, plen, t)
    decreases |actions|
  {
    if actions == [] then s
    else
      StepKeeps(s, plen, t, actions[0]);
      Run(Step(s, plen, t, actions[0]), plen, t, actions[1..])
  }

  /** A state that can be reached; what the memory and the data held before does not matter. */
  ghost function Reached(plen: nat, t: Track, data: seq<Item>, memory: seq<Item>, actions: seq<Action>): (r: Sys)
    requires plen <= 22 && |memory| == MEMORY && |data| == MAX_DATA
    ensures Ok(r, plen, t)
  {
    StartOk(plen, t, data, memory);
    Run(Start(plen, t, data, memory), plen, t, actions)
  }

  /** In every reachable state: packet i, once it went out, did so in one run of rounds, in turn; and
      unless that run is still going on, in Sends(r) rounds: r + 1, but for r = 255 only one. */
  lemma EachPacketAsAsked(plen: nat, t: Track, data: seq<Item>, memory: seq<Item>, actions: seq<Action>, i: nat)
    returns (k: nat)
    requires plen <= 22 && |memory| == MEMORY && |data| == MAX_DATA
    requires i < Taken(Reached(plen, t, data, memory, actions).log.blocks)
    ensures var log := Reached(plen, t, data, memory, actions).log;
            && k < |log.blocks| && i < |log.jobs| && log.blocks[k].src == Some(i)
            && log.blocks[k].bytes == Summed(log.jobs[i].p)
            && (forall l :: 0 <= l < |log.blocks| && log.blocks[l].src.Some? ==>
                  (l < k ==> log.blocks[l].src.value < i) && (l > k ==> log.blocks[l].src.value > i))
            && (k < |log.blocks| - 1 ==> log.blocks[k].times == if log.jobs[i].r < 255 then log.jobs[i].r + 1 else 1)
            && log.blocks[k].times <= log.jobs[i].r + 1
  {
    hide Reached, Taken, Frames, DataOk, Holds, LostOk, RmtBits;
    var s := Reached(plen, t, data, memory, actions);
    k := BlockOfJob(s.log.blocks, s.log.jobs, t, i);
    assert InTurn(s.log.blocks, k, s.log.jobs, t);
  }

  /** In every reachable state: data has been reported lost exactly for the packets that went out
      with 255 repeats. */
  lemma LostExactlyWhenWrapped(plen: nat, t: Track, data: seq<Item>, memory: seq<Item>, actions: seq<Action>)
    requires plen <= 22 && |memory| == MEMORY && |data| == MAX_DATA
    ensures var log := Reached(plen, t, data, memory, actions).log;
            log.lost != [] <==> exists i :: 0 <= i < |log.jobs| && i < Taken(log.blocks) && log.jobs[i].r == 255
  {
    hide Reached, Taken, Frames, DataOk, Holds, RoundsOk, RmtBits;
    var s := Reached(plen, t, data, memory, actions);
    if s.log.lost != [] { assert s.log.lost[0] in s.log.lost; }
  }

  /** In every reachable state a decoder has received exactly the frames of the rounds so far, each
      of them once for each time it was sent; and but for the end bits it is the stream the
      tick-driven generator makes of these frames. */
  lemma RailsAreFrames(plen: nat, t: Track, data: seq<Item>, memory: seq<Item>, actions: seq<Action>, least: nat)
    requires plen <= 22 && |memory| == MEMORY && |data| == MAX_DATA && least <= plen
    ensures var log := Reached(plen, t, data, memory, actions).log;
            && Received(Preamble(0), log.rails, least).1 == Frames(log.blocks)
            && [true] + log.rails == WaveBits(Frames(log.blocks), plen + 1) + [true]
  {
    hide Reached, Taken, Frames, DataOk, Holds, RoundsOk, RmtBits, Received, WaveBits;
    var log := Reached(plen, t, data, memory, actions).log;
    SameStream(Frames(log.blocks), plen);
    TurnsOf(log.blocks, log.jobs, plen, t, data, memory, actions);
    FramesFull(log.blocks, log.jobs, t);
    ReceivesRmt(0, Frames(log.blocks), plen, least);
  }

  lemma TurnsOf(blocks: seq<Block>, jobs: seq<Job>, plen: nat, t: Track, data: seq<Item>, memory: seq<Item>,
      actions: seq<Action>)
    requires plen <= 22 && |memory| == MEMORY && |data| == MAX_DATA
    requires var log := Reached(plen, t, data, memory, actions).log; blocks == log.blocks && jobs == log.jobs
    ensures forall k :: 0 <= k < |blocks| ==> InTurn(blocks, k, jobs, t)
  {
    hide Reached, Taken, Frames, DataOk, Holds, RmtBits;
  }

  // ---------------------------------------------------------------- the caller alone

  function Calls(c: Channel, caller: Caller, n: nat): (Channel, Caller)
    requires |c.data| == MAX_DATA && (!caller.Idle? ==> |caller.p| <= MAX_PACKET_SIZE)
    decreases n
  {
    if n == 0 then (c, caller)
    else
      var (c1, caller1) := Call(c, caller);
      Calls(c1, caller1, n - 1)
  }

  /** The data with the first n items written. */
  predicate WrittenTo(now: seq<Item>, was: seq<Item>, f: Packet, n: nat) {
    |now| == |was| && n <= 9 * |f| <= |now|
    && forall k :: 0 <= k < |now| ==> now[k] == if k < n then RawItem(f, k) else was[k]
  }

  /** When no round ends meanwhile, the steps of the writing add up to RMTfillData's effect. */
  lemma {:induction false} CallsAddUp(c0: Channel, c: Channel, p: Packet, r: Byte, n: nat)
    requires |p| <= MAX_PACKET_SIZE && |c0.data| == MAX_DATA && c == c0.(data := c.data)
    requires WrittenTo(c.data, c0.data, Summed(p), n)
    ensures var f := Summed(p);
            Calls(c, Writing(p, r, n), 9 * |f| + 4 - n) ==
            (c0.(data := DataItems(f) + c0.data[9 * |f| + 1..], dataLen := 9 * |f| + 1, ready := true,
                 repeat := (r + 1) % 256), Idle)
    decreases 9 * |p| + 9 - n
  {
    hide Xor, RawItem, DataItems, FrameBits;
    var f := Summed(p);
    if n < 9 * |f| {
      CallsAddUp(c0, c.(data := c.data[n := RawItem(f, n)]), p, r, n + 1);
    } else {
      CallsEnd(c0, c, p, r);
    }
  }

  lemma CallsEnd(c0: Channel, c: Channel, p: Packet, r: Byte)
    requires |p| <= MAX_PACKET_SIZE && |c0.data| == MAX_DATA && c == c0.(data := c.data)
    requires WrittenTo(c.data, c0.data, Summed(p), 9 * |Summed(p)|)
    ensures var f := Summed(p);
            Calls(c, Writing(p, r, 9 * |f|), 4) ==
            (c0.(data := DataItems(f) + c0.data[9 * |f| + 1..], dataLen := 9 * |f| + 1, ready := true,
                 repeat := (r + 1) % 256), Idle)
  {
    hide Xor, RawItem, DataItems, FrameBits, Calls, Call;
    var f := Summed(p);
    var n := 9 * |f|;
    var c1 := c.(data := c.data[n - 1 := One]);
    var c2 := c1.(data := c1.data[n := Eot]);
    var c3 := c2.(dataLen := n + 1);
    LastCalls(c, c1, c2, c3, p, r, n);
    CallsStep(c, Writing(p, r, n), 4);
    CallsStep(c1, Writing(p, r, n + 1), 3);
    CallsStep(c2, Writing(p, r, n + 2), 2);
    CallsStep(c3, Writing(p, r, n + 3), 1);
    CallsNone(c3.(ready := true, repeat := (r + 1) % 256));
    DataDone(f, c2.data);
    WholeData(c2.data, c0.data, f);
  }

  lemma CallsStep(c: Channel, caller: Caller, n: nat)
    requires |c.data| == MAX_DATA && (!caller.Idle? ==> |caller.p| <= MAX_PACKET_SIZE) && n > 0
    ensures var (c1, caller1) := Call(c, caller);
            Calls(c, caller, n) == Calls(c1, caller1, n - 1)
  {
    hide Call;
  }

  lemma CallsNone(c: Channel)
    requires |c.data| == MAX_DATA
    ensures Calls(c, Idle, 0) == (c, Idle)
  {
  }

  lemma LastCalls(c: Channel, c1: Channel, c2: Channel, c3: Channel, p: Packet, r: Byte, n: nat)
    requires |p| <= MAX_PACKET_SIZE && |c.data| == MAX_DATA && n == 9 * (|p| + 1)
    requires c1 == c.(data := c.data[n - 1 := One])
    requires c2 == c1.(data := c1.data[n := Eot]) && c3 == c2.(dataLen := n + 1)
    ensures Call(c, Writing(p, r, n)) == (c1, Writing(p, r, n + 1))
    ensures Call(c1, Writing(p, r, n + 1)) == (c2, Writing(p, r, n + 2))
    ensures Call(c2, Writing(p, r, n + 2)) == (c3, Writing(p, r, n + 3))
    ensures Call(c3, Writing(p, r, n + 3)) == (c3.(ready := true, repeat := (r + 1) % 256), Idle)
  {
    hide Xor, RawItem;
  }

  lemma WholeData(now: seq<Item>, was: seq<Item>, f: Packet)
    requires f != [] && 9 * |f| + 1 <= |now| == |was| && now[..9 * |f| + 1] == DataItems(f)
    requires forall k :: 9 * |f| + 1 <= k < |now| ==> now[k] == was[k]
    ensures now == DataItems(f) + was[9 * |f| + 1..]
  {
    hide DataItems;
    assert now == now[..9 * |f| + 1] + now[9 * |f| + 1..];
  }
}

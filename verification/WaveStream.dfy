/**
 What the waveform generator puts on the rails: frames, in the order in which packets were
 accepted, each as often as asked for, whatever the producer is doing meanwhile.
 */
module WaveStream {
  import opened Basics
  import opened BitStream
  import opened FrameLog
  import opened WaveMachine

  // ---------------------------------------------------------------- jobs and blocks

  function Min(a: nat, b: nat): nat {
    if a < b then a else b
  }

  /** How often a block's frame is to be sent. */
  function Times(src: Option<nat>, jobs: seq<Job>): nat {
    if src.Some? && src.value < |jobs| then jobs[src.value].r + 1 else 1
  }

  /** Every block in turn; each but the last sent as often as asked for, or cut short; the last with
      the repeats still to come. */
  predicate BlocksOk(blocks: seq<Block>, jobs: seq<Job>, repeats: nat, t: Track) {
    && (forall k :: 0 <= k < |blocks| ==> InTurn(blocks, k, jobs, t))
    && (forall k :: 0 <= k < |blocks| ==> blocks[k].times > 0)
    && (forall k :: 0 <= k < |blocks| - 1 ==>
          blocks[k].times == Times(blocks[k].src, jobs)
          || (blocks[k].cut && blocks[k].times < Times(blocks[k].src, jobs)))
    && (blocks == [] ==> repeats == 0)
    && (blocks != [] ==>
          var b := blocks[|blocks| - 1];
          b.times + repeats == Times(b.src, jobs)
          || (b.cut && repeats == 0 && b.times < Times(b.src, jobs)))
  }

  /** What is pending, and what the producer has put there so far. */
  predicate PendOk(w: Wave, prod: Producer, taken: nat, jobs: seq<Job>) {
    && |jobs| == taken + (if w.pending then 1 else 0)
    && (w.pending ==>
          var j := jobs[|jobs| - 1];
          |j.p| <= MAX_PACKET_SIZE && w.pendingLength == |j.p| + 1 && w.pendingPacket[..|j.p| + 1] == Summed(j.p)
          && w.pendingRepeats == j.r)
    && (!prod.Quiet? ==> |prod.p| <= MAX_PACKET_SIZE)
    && (prod.Filling? && prod.step <= |prod.p| + 3 ==> !w.pending && HalfFilled(w, prod))
  }

  predicate HalfFilled(w: Wave, prod: Producer)
    requires prod.Filling? && |prod.p| <= MAX_PACKET_SIZE
  {
    var p, n := prod.p, prod.step;
    var m := Min(n, |p|);
    && w.pendingPacket[..m] == p[..m] && prod.sum == Xor(p[..m])
    && (n > |p| ==> w.pendingPacket[..|p| + 1] == Summed(p))
    && (n > |p| + 1 ==> w.pendingLength == |p| + 1)
    && (n > |p| + 2 ==> w.pendingRepeats == prod.r)
  }

  /** A step of the producer. */
  lemma ProduceKeeps(w: Wave, prod: Producer, taken: nat, jobs: seq<Job>)
    requires PendOk(w, prod, taken, jobs)
    ensures var (w', prod') := Produce(w, prod);
            var jobs' := if w'.pending && !w.pending && prod.Filling? then jobs + [Job(prod.p, prod.r)] else jobs;
            PendOk(w', prod', taken, jobs')
  {
    hide Xor, Summed;
    if prod.Filling? {
      var p, n := prod.p, prod.step;
      if n < |p| {
        XorMore(p, n);
        FillsByte(w, p, n);
      } else if n == |p| {
        FillsSum(w, p, prod.sum);
      }
    } else if prod.Waiting? {
      assert Xor(prod.p[..0]) == 0 by { XorNone(); assert prod.p[..0] == []; }
    }
  }

  lemma FillsByte(w: Wave, p: Packet, n: nat)
    requires n < |p| <= MAX_PACKET_SIZE && w.pendingPacket[..n] == p[..n]
    ensures w.pendingPacket[n := p[n]][..n + 1] == p[..n + 1]
  {
    var b := w.pendingPacket[n := p[n]];
    assert b[..n + 1] == b[..n] + [p[n]] && b[..n] == w.pendingPacket[..n] && p[..n + 1] == p[..n] + [p[n]];
  }

  lemma FillsSum(w: Wave, p: Packet, sum: bv8)
    requires |p| <= MAX_PACKET_SIZE && w.pendingPacket[..|p|] == p[..|p|] && sum == Xor(p[..|p|])
    ensures w.pendingPacket[|p| := sum][..|p| + 1] == Summed(p) && w.pendingPacket[|p| := sum][..|p|] == p
  {
    hide Xor;
    var b := w.pendingPacket[|p| := sum];
    assert p[..|p|] == p;
    assert b[..|p| + 1] == b[..|p|] + [sum] && b[..|p|] == w.pendingPacket[..|p|];
  }

  /** The producer alone, for a number of steps. */
  function Unbroken(w: Wave, prod: Producer, n: nat): (Wave, Producer)
    requires !prod.Quiet? ==> |prod.p| <= MAX_PACKET_SIZE
    decreases n
  {
    if n == 0 then (w, prod)
    else
      var (w1, prod1) := Produce(w, prod);
      Unbroken(w1, prod1, n - 1)
  }

  /** When nothing comes between, the steps add up to one packet scheduled. */
  lemma StepsSchedule(w: Wave, p: Packet, r: Byte)
    requires |p| <= MAX_PACKET_SIZE && !w.pending
    ensures Unbroken(w, Waiting(p, r), |p| + 6) == (Scheduled(w, p, r), Quiet)
  {
    hide Xor, Summed;
    XorNone();
    assert p[..0] == [] && w.pendingPacket[0..] == w.pendingPacket && [] + w.pendingPacket == w.pendingPacket;
    FillsOn(w, w, p, r, 0);
  }

  lemma {:induction false} FillsOn(w0: Wave, w: Wave, p: Packet, r: Byte, n: nat)
    requires n <= |p| <= MAX_PACKET_SIZE && w == w0.(pendingPacket := p[..n] + w0.pendingPacket[n..])
    ensures Unbroken(w, Filling(p, r, n, Xor(p[..n])), |p| + 5 - n) == (Scheduled(w0, p, r), Quiet)
    decreases |p| - n
  {
    hide Xor;
    if n < |p| {
      XorMore(p, n);
      assert w.pendingPacket[n := p[n]] == p[..n + 1] + w0.pendingPacket[n + 1..];
      FillsOn(w0, w.(pendingPacket := w.pendingPacket[n := p[n]]), p, r, n + 1);
    } else {
      assert p[..n] == p;
      FillsEnd(w0, w, p, r);
    }
  }

  lemma FillsEnd(w0: Wave, w: Wave, p: Packet, r: Byte)
    requires |p| <= MAX_PACKET_SIZE && w == w0.(pendingPacket := p + w0.pendingPacket[|p|..])
    ensures Unbroken(w, Filling(p, r, |p|, Xor(p)), 5) == (Scheduled(w0, p, r), Quiet)
  {
    hide Xor;
    var n, sum := |p|, Xor(p);
    var w1 := w.(pendingPacket := w.pendingPacket[n := sum]);
    assert w1.pendingPacket == Summed(p) + w0.pendingPacket[n + 1..];
    assert Unbroken(w, Filling(p, r, n, sum), 5) == Unbroken(w1, Filling(p, r, n + 1, sum), 4);
    var w2 := w1.(pendingLength := n + 1);
    assert Unbroken(w1, Filling(p, r, n + 1, sum), 4) == Unbroken(w2, Filling(p, r, n + 2, sum), 3);
    var w3 := w2.(pendingRepeats := r);
    assert Unbroken(w2, Filling(p, r, n + 2, sum), 3) == Unbroken(w3, Filling(p, r, n + 3, sum), 2);
    var w4 := w3.(pending := true);
    assert Unbroken(w3, Filling(p, r, n + 3, sum), 2) == Unbroken(w4, Filling(p, r, n + 4, sum), 1);
  }

  /** A job that is accepted changes nothing about the blocks before. */
  lemma MoreJobs(blocks: seq<Block>, jobs: seq<Job>, j: Job, repeats: nat, t: Track)
    requires BlocksOk(blocks, jobs, repeats, t)
    ensures BlocksOk(blocks, jobs + [j], repeats, t)
  {
    hide Taken;
    forall k | 0 <= k < |blocks| ensures InTurn(blocks, k, jobs + [j], t) {
      assert InTurn(blocks, k, jobs, t);
    }
    forall k | 0 <= k < |blocks| ensures Times(blocks[k].src, jobs + [j]) == Times(blocks[k].src, jobs) {
      assert InTurn(blocks, k, jobs, t);
    }
  }

  lemma ClearKeeps(blocks: seq<Block>, jobs: seq<Job>, repeats: nat, t: Track)
    requires BlocksOk(blocks, jobs, repeats, t) && repeats > 0
    ensures BlocksOk(Cut(blocks), jobs, 0, t) && Taken(Cut(blocks)) == Taken(blocks)
    ensures |Cut(blocks)| == |blocks| && Frames(Cut(blocks)) == Frames(blocks)
  {
    hide Taken, Frames;
    SameLast(blocks, blocks[|blocks| - 1].(cut := true));
    TurnsStay(blocks, blocks[|blocks| - 1].(cut := true), jobs, t);
  }

  /** The bytes in the transmit buffer are those of the last frame. */
  predicate Loaded(w: Wave, blocks: seq<Block>) {
    if blocks == [] then w.length == 0 && w.packet == IDLE + [0, 0, 0]
    else
      var f := blocks[|blocks| - 1].bytes;
      |f| > 0 && w.length == |f| <= MAX_PACKET_SIZE + 1 && w.packet[..|f|] == f
  }

  /** Choosing the next frame: a repeat, the pending packet, or a filler. */
  lemma PromoteKeeps(w: Wave, prod: Producer, blocks: seq<Block>, jobs: seq<Job>, t: Track)
    requires PendOk(w, prod, Taken(blocks), jobs) && BlocksOk(blocks, jobs, w.repeats, t) && Loaded(w, blocks)
    ensures var w', blocks' := Promote(w, t), Chosen(blocks, jobs, w, t);
            && PendOk(w', prod, Taken(blocks'), jobs) && BlocksOk(blocks', jobs, w'.repeats, t) && Loaded(w', blocks')
            && blocks' != [] && Frames(blocks') == Frames(blocks) + [blocks'[|blocks'| - 1].bytes]
  {
    hide Taken, Frames, Summed, Xor;
    var blocks' := Chosen(blocks, jobs, w, t);
    if w.repeats > 0 {
      var b := blocks[|blocks| - 1].(times := blocks[|blocks| - 1].times + 1);
      SameLast(blocks, b);
      TurnsStay(blocks, b, jobs, t);
    } else {
      OneMoreBlock(blocks, blocks'[|blocks|], jobs, t);
    }
  }

  // ---------------------------------------------------------------- bits

  /** As the station boots, a byte of ones goes out before there is a frame. */
  const BOOT: Packet := [0xFF]

  function Last(frames: seq<Packet>): (f: Packet)
    requires frames != []
  {
    frames[|frames| - 1]
  }

  function Before(frames: seq<Packet>): seq<Packet>
    requires frames != []
  {
    frames[..|frames| - 1]
  }

  /** Where the generator stands within a frame and its preamble. */
  predicate Placed(w: Wave, frames: seq<Packet>, t: Track) {
    && w.preambles <= t.required && w.bits < 9
    && (w.preambles > 0 ==> w.bits == 0 && w.bytes == 0)
    && (w.preambles == 1 ==> frames != [])
    && (w.preambles == 0 ==> w.bytes < if frames == [] then 1 else |Last(frames)|)
  }

  /** The bits so far: whole frames, and how far the generator is into the next. */
  function Stream(w: Wave, frames: seq<Packet>, t: Track): seq<bool>
    requires Placed(w, frames, t)
  {
    var sent := 9 * w.bytes + w.bits;
    if w.preambles >= 2 then FrameBits(BOOT) + WaveBits(frames, t.required) + Ones(t.required - w.preambles)
    else if frames == [] then FrameBits(BOOT)[..sent]
    else if w.preambles == 1 then FrameBits(BOOT) + WaveBits(Before(frames), t.required) + Ones(t.required - 1)
    else FrameBits(BOOT) + WaveBits(Before(frames), t.required) + Ones(t.required) + FrameBits(Last(frames))[..sent]
  }

  lemma MoreOnes(n: nat)
    ensures Ones(n + 1) == Ones(n) + [true]
  {
  }

  lemma {:induction false} MoreFrames(frames: seq<Packet>, f: Packet, p: nat)
    ensures WaveBits(frames + [f], p) == WaveBits(frames, p) + Ones(p) + FrameBits(f)
    decreases |frames|
  {
    hide Ones, FrameBits;
    if frames == [] {
      assert WaveBits([f], p) == Ones(p) + FrameBits(f) + WaveBits([], p);
    } else {
      MoreFrames(frames[1..], f, p);
      assert (frames + [f])[1..] == frames[1..] + [f];
      var a, b, c, d, e := Ones(p), FrameBits(frames[0]), WaveBits(frames[1..], p), Ones(p), FrameBits(f);
      assert a + b + (c + d + e) == a + b + c + d + e;
    }
  }

  /** The next preamble one. */
  lemma PreambleStream(w: Wave, frames: seq<Packet>, t: Track)
    requires InBuffer(w) && Placed(w, frames, t) && w.preambles > 0 && w.preambles != 2
    requires frames != [] ==> Last(frames) != []
    ensures var (w', bit) := NextBit(w, t);
            bit && Placed(w', frames, t) && Stream(w', frames, t) == Stream(w, frames, t) + [bit]
  {
    hide Ones, WaveBits, FrameBits, Promote;
    MoreOnes(t.required - w.preambles);
    if w.preambles > 2 {
      Assoc(FrameBits(BOOT), WaveBits(frames, t.required), Ones(t.required - w.preambles));
    } else {
      Assoc(FrameBits(BOOT), WaveBits(Before(frames), t.required), Ones(t.required - 1));
      assert FrameBits(Last(frames))[..0] == [];
    }
  }

  lemma Assoc(a: seq<bool>, b: seq<bool>, c: seq<bool>)
    ensures a + b + (c + [true]) == a + b + c + [true]
  {
  }

  /** The preamble one at which the next frame is chosen. */
  lemma ChoiceStream(w: Wave, frames: seq<Packet>, f: Packet, t: Track)
    requires InBuffer(w) && Placed(w, frames, t) && w.preambles == 2
    ensures var (w', bit) := NextBit(w, t);
            bit && Placed(w', frames + [f], t) && Stream(w', frames + [f], t) == Stream(w, frames, t) + [bit]
  {
    hide Ones, WaveBits, FrameBits;
    MoreOnes(t.required - 2);
    assert Before(frames + [f]) == frames;
    Assoc(FrameBits(BOOT), WaveBits(frames, t.required), Ones(t.required - 2));
  }

  lemma NextData(w: Wave, t: Track)
    requires InBuffer(w) && w.preambles == 0
    ensures var (w', bit) := NextBit(w, t);
            && bit == BitAt(w.packet[w.bytes], w.bits)
            && if w.bits < 8 then w' == w.(state := w'.state, bits := w.bits + 1)
               else if w.bytes + 1 < w.length then w' == w.(state := w'.state, bits := 0, bytes := w.bytes + 1)
               else w' == w.(state := w'.state, bits := 0, bytes := 0, preambles := t.required)
  {
    hide BitAt;
  }

  /** A bit of a frame, or of the boot byte. */
  lemma DataStream(w: Wave, frames: seq<Packet>, t: Track)
    requires InBuffer(w) && Placed(w, frames, t) && w.preambles == 0 && t.required >= 2
    requires frames != [] ==>
               Last(frames) != [] && w.length == |Last(frames)| <= |w.packet| && w.packet[..w.length] == Last(frames)
    requires frames == [] ==> w.length == 0 && w.packet[..1] == BOOT
    ensures var (w', bit) := NextBit(w, t);
            Placed(w', frames, t) && Stream(w', frames, t) == Stream(w, frames, t) + [bit]
  {
    hide Ones, WaveBits, FrameBits, BitAt, NextBit;
    NextData(w, t);
    var f := if frames == [] then BOOT else Last(frames);
    BitInFrame(f, w.bytes, w.bits);
    assert f[w.bytes] == w.packet[..|f|][w.bytes];
    var sent := 9 * w.bytes + w.bits;
    var (w', bit) := NextBit(w, t);
    var body := FrameBits(f);
    assert body[..sent + 1] == body[..sent] + [bit];
    if w'.preambles > 0 {
      assert sent + 1 == 9 * |f|;
      assert body[..sent + 1] == body;
      FrameDone(w', frames, t);
    }
    if frames != [] {
      var a, b, c := FrameBits(BOOT), WaveBits(Before(frames), t.required), Ones(t.required);
      assert a + b + c + (body[..sent] + [bit]) == a + b + c + body[..sent] + [bit];
    }
  }

  /** After the last bit of a frame it is one of the whole frames. */
  lemma FrameDone(w: Wave, frames: seq<Packet>, t: Track)
    requires Placed(w, frames, t) && w.preambles == t.required >= 2
    ensures frames == [] ==> Stream(w, frames, t) == FrameBits(BOOT)
    ensures frames != [] ==>
              Stream(w, frames, t) ==
              FrameBits(BOOT) + WaveBits(Before(frames), t.required) + Ones(t.required) + FrameBits(Last(frames))
  {
    hide FrameBits;
    assert Ones(0) == [];
    if frames == [] {
      assert WaveBits([], t.required) == [];
    } else {
      MoreFrames(Before(frames), Last(frames), t.required);
      assert Before(frames) + [Last(frames)] == frames;
      var a, b, c, d := FrameBits(BOOT), WaveBits(Before(frames), t.required), Ones(t.required),
          FrameBits(Last(frames));
      assert a + (b + c + d) + [] == a + b + c + d;
    }
  }

  // ---------------------------------------------------------------- ticks

  /** The levels so far: all the bits but the last, and how far that one is. */
  predicate LevelsOk(state: WaveState, levels: seq<bool>, bits: seq<bool>) {
    match state
    case START => levels == LevelsOf(bits)
    case PENDING => false
    case MID_1 => bits != [] && bits[|bits| - 1] && levels == LevelsOf(bits[..|bits| - 1]) + [true]
    case HIGH_0 => bits != [] && !bits[|bits| - 1] && levels == LevelsOf(bits[..|bits| - 1]) + [true]
    case MID_0 => bits != [] && !bits[|bits| - 1] && levels == LevelsOf(bits[..|bits| - 1]) + [true, true]
    case LOW_0 => bits != [] && !bits[|bits| - 1] && levels == LevelsOf(bits[..|bits| - 1]) + [true, true, false]
  }

  lemma OneLevel(bit: bool)
    ensures LevelsOf([bit]) == Levels(bit)
  {
    hide Levels;
    assert [bit][1..] == [];
    assert Levels(bit) + [] == Levels(bit);
  }

  lemma LastLevel(bits: seq<bool>)
    requires bits != []
    ensures LevelsOf(bits) == LevelsOf(bits[..|bits| - 1]) + Levels(bits[|bits| - 1])
  {
    hide Levels, LevelsOf;
    OneMoreLevel(bits[..|bits| - 1], bits[|bits| - 1]);
    assert bits == bits[..|bits| - 1] + [bits[|bits| - 1]];
  }

  lemma OneMoreLevel(bits: seq<bool>, bit: bool)
    ensures LevelsOf(bits + [bit]) == LevelsOf(bits) + Levels(bit)
  {
    hide Levels, LevelsOf;
    LevelsJoin(bits, [bit]);
    OneLevel(bit);
  }

  lemma NextState(w: Wave, t: Track)
    requires InBuffer(w)
    ensures var (w', bit) := NextBit(w, t); w'.state == if bit then MID_1 else HIGH_0
  {
    hide BitAt;
  }

  lemma LevelStep(w: Wave, t: Track, levels: seq<bool>, bits: seq<bool>)
    requires InBuffer(w) && LevelsOk(w.state, levels, bits)
    ensures var (w', level, bit) := Tick(w, t);
            LevelsOk(w'.state, levels + [level], bits + if bit.Some? then [bit.value] else [])
  {
    hide LevelsOf, NextBit;
    assert bits + [] == bits;
    match w.state {
      case START =>
        var (_, bit) := NextBit(w.(state := PENDING), t);
        NextState(w.(state := PENDING), t);
        assert (bits + [bit])[..|bits|] == bits;
      case MID_1 =>
        LastLevel(bits);
        Levels3(LevelsOf(bits[..|bits| - 1]));
      case LOW_0 =>
        LastLevel(bits);
        Levels3(LevelsOf(bits[..|bits| - 1]));
      case HIGH_0 =>
        Levels3(LevelsOf(bits[..|bits| - 1]));
      case MID_0 =>
        Levels3(LevelsOf(bits[..|bits| - 1]));
      case PENDING =>
    }
  }

  lemma Levels3(l: seq<bool>)
    ensures l + [true] + [false] == l + [true, false] && l + [true] + [true] == l + [true, true]
    ensures l + [true, true] + [false] == l + [true, true, false]
    ensures l + [true, true, false] + [false] == l + [true, true, false, false]
  {
  }

  // ---------------------------------------------------------------- every reachable state

  predicate Ok(s: Sys, t: Track) {
    && InBuffer(s.w) && t.required >= 2
    && PendOk(s.w, s.prod, Taken(s.log.blocks), s.log.jobs)
    && BlocksOk(s.log.blocks, s.log.jobs, s.w.repeats, t)
    && Loaded(s.w, s.log.blocks)
    && FramesOk(s.log.blocks)
    && Placed(s.w, Frames(s.log.blocks), t)
    && s.log.bits == Stream(s.w, Frames(s.log.blocks), t)
    && LevelsOk(s.w.state, s.log.levels, s.log.bits)
  }

  /** The last frame is the last block's, and no frame is empty. */
  predicate FramesOk(blocks: seq<Block>) {
    && (blocks == [] <==> Frames(blocks) == [])
    && (blocks != [] ==> Last(Frames(blocks)) == blocks[|blocks| - 1].bytes)
    && (forall i :: 0 <= i < |Frames(blocks)| ==> Frames(blocks)[i] != [])
  }

  function Start(): Sys {
    Sys(Boot(), Quiet, Log([], [], [], []))
  }

  lemma StartOk(t: Track)
    requires t.required >= 2
    ensures Ok(Start(), t)
  {
    assert FrameBits(BOOT)[..0] == [];
  }

  lemma ProducerKeeps(s: Sys, t: Track)
    requires Ok(s, t)
    ensures Ok(Step(s, t, ProducerOn), t)
  {
    hide PendOk, BlocksOk, Loaded, Frames, Taken, FramesOk, Placed, Stream, LevelsOk, Summed, Xor;
    FitsFrom(s.w, s.prod, Taken(s.log.blocks), s.log.jobs);
    ProducedApart(s.w, Produce(s.w, s.prod).0, s.log.blocks, t);
    ProduceKeeps(s.w, s.prod, Taken(s.log.blocks), s.log.jobs);
    if s.prod.Filling? { MoreJobs(s.log.blocks, s.log.jobs, Job(s.prod.p, s.prod.r), s.w.repeats, t); }
  }

  /** What is being sent is none of the producer's business. */
  lemma ProducedApart(w: Wave, w': Wave, blocks: seq<Block>, t: Track)
    requires w' == w.(pending := w'.pending, pendingPacket := w'.pendingPacket, pendingLength := w'.pendingLength,
                      pendingRepeats := w'.pendingRepeats, resets := w'.resets)
    ensures Loaded(w', blocks) == Loaded(w, blocks) && Placed(w', Frames(blocks), t) == Placed(w, Frames(blocks), t)
    ensures Placed(w, Frames(blocks), t) ==> Stream(w', Frames(blocks), t) == Stream(w, Frames(blocks), t)
  {
    hide Frames;
  }

  lemma FitsFrom(w: Wave, prod: Producer, taken: nat, jobs: seq<Job>)
    requires PendOk(w, prod, taken, jobs)
    ensures !prod.Quiet? ==> |prod.p| <= MAX_PACKET_SIZE
    ensures |jobs| == taken + if w.pending then 1 else 0
  {
  }

  lemma QuietTick(s: Sys, t: Track)
    requires Ok(s, t) && !s.w.state.START?
    ensures Ok(Step(s, t, TickOn), t)
  {
    hide PendOk, BlocksOk, Loaded, Frames, Taken, FramesOk, FrameBits, WaveBits, Ones, LevelsOk, LevelsOf;
    FitsFrom(s.w, s.prod, Taken(s.log.blocks), s.log.jobs);
    LevelStep(s.w, t, s.log.levels, s.log.bits);
    StatelessOk(s.w, s.w.(state := Transform(s.w.state)), s.prod, s.log.blocks, s.log.jobs);
    assert s.log.bits + [] == s.log.bits;
    NotPending(s.w.state, s.log.levels, s.log.bits);
  }

  lemma NotPending(state: WaveState, levels: seq<bool>, bits: seq<bool>)
    requires LevelsOk(state, levels, bits)
    ensures state != PENDING
  {
  }

  /** Neither the state engine nor the position in a frame matters to these. */
  lemma StatelessOk(w: Wave, w': Wave, prod: Producer, blocks: seq<Block>, jobs: seq<Job>)
    requires w' == w.(state := w'.state, preambles := w'.preambles, bits := w'.bits, bytes := w'.bytes)
    ensures PendOk(w', prod, Taken(blocks), jobs) == PendOk(w, prod, Taken(blocks), jobs)
    ensures Loaded(w', blocks) == Loaded(w, blocks)
  {
    hide Taken, Summed, Xor;
  }

  /** What a tick at the start of a bit needs and keeps, the levels apart. */
  lemma BitKeeps(s: Sys, t: Track)
    requires Ok(s, t) && s.w.state.START?
    ensures var s' := Step(s, t, TickOn);
            var blocks := s'.log.blocks;
            && InBuffer(s'.w) && PendOk(s'.w, s'.prod, Taken(blocks), s'.log.jobs)
            && BlocksOk(blocks, s'.log.jobs, s'.w.repeats, t) && Loaded(s'.w, blocks) && FramesOk(blocks)
            && Placed(s'.w, Frames(blocks), t) && s'.log.bits == Stream(s'.w, Frames(blocks), t)
  {
    hide PendOk, BlocksOk, Loaded, Frames, Taken, FramesOk, Stream, Placed, LevelsOk, BitAt, Promote, Chosen;
    FitsFrom(s.w, s.prod, Taken(s.log.blocks), s.log.jobs);
    var w0 := s.w.(state := PENDING);
    if s.w.preambles == 2 {
      ChoiceKeeps(s, t);
    } else {
      NoChoiceKeeps(s, t);
    }
  }

  lemma ChoiceKeeps(s: Sys, t: Track)
    requires Ok(s, t) && s.w.state.START? && s.w.preambles == 2
    ensures var (w', bit) := NextBit(s.w.(state := PENDING), t);
            var blocks := Chosen(s.log.blocks, s.log.jobs, s.w, t);
            && InBuffer(w') && PendOk(w', s.prod, Taken(blocks), s.log.jobs)
            && BlocksOk(blocks, s.log.jobs, w'.repeats, t) && Loaded(w', blocks) && FramesOk(blocks)
            && Placed(w', Frames(blocks), t) && s.log.bits + [bit] == Stream(w', Frames(blocks), t)
  {
    hide PendOk, BlocksOk, Frames, Taken, LevelsOk, Loaded, Placed, Stream, Chosen, NextBit, Promote, FramesOk;
    var w1 := s.w.(state := MID_1, preambles := 1);
    var blocks := Chosen(s.log.blocks, s.log.jobs, s.w, t);
    ChoiceIs(s.w, s.log.blocks, s.log.jobs, t);
    StatelessOk(s.w, w1, s.prod, s.log.blocks, s.log.jobs);
    PromoteKeeps(w1, s.prod, s.log.blocks, s.log.jobs, t);
    SameStreamFrom(s.w, s.w.(state := PENDING), Frames(s.log.blocks), t);
    ChoiceStream(s.w.(state := PENDING), Frames(s.log.blocks), blocks[|blocks| - 1].bytes, t);
    FramesGrow(s.log.blocks, blocks, Promote(w1, t));
  }

  /** The last bit but one of a preamble chooses the next frame. */
  lemma ChoiceIs(w: Wave, blocks: seq<Block>, jobs: seq<Job>, t: Track)
    requires InBuffer(w) && w.preambles == 2
    ensures var w1 := w.(state := MID_1, preambles := 1);
            && NextBit(w.(state := PENDING), t) == (Promote(w1, t), true) && InBuffer(Promote(w1, t))
            && Chosen(blocks, jobs, w, t) == Chosen(blocks, jobs, w1, t)
  {
    hide Filler, Summed, Taken;
  }

  lemma FramesGrow(was: seq<Block>, now: seq<Block>, w: Wave)
    requires FramesOk(was) && now != [] && Loaded(w, now) && Frames(now) == Frames(was) + [now[|now| - 1].bytes]
    ensures FramesOk(now)
  {
    hide Frames;
  }

  lemma SameStreamFrom(w: Wave, w': Wave, frames: seq<Packet>, t: Track)
    requires Placed(w, frames, t) && w' == w.(state := w'.state)
    ensures Placed(w', frames, t) && Stream(w', frames, t) == Stream(w, frames, t)
  {
  }

  lemma NoChoiceKeeps(s: Sys, t: Track)
    requires Ok(s, t) && s.w.state.START? && s.w.preambles != 2
    ensures var (w', bit) := NextBit(s.w.(state := PENDING), t);
            var blocks := s.log.blocks;
            && InBuffer(w') && PendOk(w', s.prod, Taken(blocks), s.log.jobs)
            && BlocksOk(blocks, s.log.jobs, w'.repeats, t) && Loaded(w', blocks) && FramesOk(blocks)
            && Placed(w', Frames(blocks), t) && s.log.bits + [bit] == Stream(w', Frames(blocks), t)
  {
    hide PendOk, BlocksOk, Frames, Taken, LevelsOk, Ones, WaveBits, FrameBits, Summed, Xor, BitAt, Stream;
    var w0 := s.w.(state := PENDING);
    var (w', bit) := NextBit(w0, t);
    StatelessOk(s.w, w', s.prod, s.log.blocks, s.log.jobs);
    SameStreamFrom(s.w, w0, Frames(s.log.blocks), t);
    if s.w.preambles > 0 {
      PreambleStream(w0, Frames(s.log.blocks), t);
    } else {
      DataStream(w0, Frames(s.log.blocks), t);
    }
  }

  /** Whatever steps the generator and its producer take, and in whatever order. */
  lemma StepKeeps(s: Sys, t: Track, a: Action)
    requires Ok(s, t)
    ensures Ok(Step(s, t, a), t)
  {
    hide *;
    match a
    case TickOn => if s.w.state.START? { BitTick(s, t); } else { QuietTick(s, t); }
    case ProducerOn => ProducerKeeps(s, t);
    case Begin(p, r) => BeginKeeps(s, t, p, r);
    case ClearRepeats => ClearsKeeps(s, t);
  }

  lemma BitTick(s: Sys, t: Track)
    requires Ok(s, t) && s.w.state.START?
    ensures Ok(Step(s, t, TickOn), t)
  {
    hide PendOk, BlocksOk, Loaded, Frames, Taken, FramesOk, Stream, Placed, LevelsOk, BitAt, Promote, Chosen;
    FitsFrom(s.w, s.prod, Taken(s.log.blocks), s.log.jobs);
    BitKeeps(s, t);
    LevelStep(s.w, t, s.log.levels, s.log.bits);
  }

  lemma BeginKeeps(s: Sys, t: Track, p: Packet, r: Byte)
    requires Ok(s, t)
    ensures Ok(Step(s, t, Begin(p, r)), t)
  {
    hide BlocksOk, Loaded, Frames, Taken, FramesOk, Stream, Placed, LevelsOk, Summed, Xor;
  }

  lemma ClearsKeeps(s: Sys, t: Track)
    requires Ok(s, t)
    ensures Ok(Step(s, t, ClearRepeats), t)
  {
    hide BlocksOk, Frames, Taken, Stream, LevelsOk, Summed, Xor, FrameBits, WaveBits, Ones;
    FitsFrom(s.w, s.prod, Taken(s.log.blocks), s.log.jobs);
    if s.w.repeats > 0 {
      ClearKeeps(s.log.blocks, s.log.jobs, s.w.repeats, t);
      SameStreamUnrepeated(s.w, Frames(s.log.blocks), t);
    }
  }

  lemma SameStreamUnrepeated(w: Wave, frames: seq<Packet>, t: Track)
    requires Placed(w, frames, t)
    ensures Placed(w.(repeats := 0), frames, t) && Stream(w.(repeats := 0), frames, t) == Stream(w, frames, t)
  {
  }
}

/**
 The tick-driven waveform generator of one track, and its producer, step by step: at any point
 between two steps of the one the other may run.
 */
module WaveMachine {
  import opened Basics
  import opened BitStream
  import opened FrameLog

  datatype WaveState = START | MID_1 | HIGH_0 | MID_0 | LOW_0 | PENDING

  /** stateTransform */
  function Transform(s: WaveState): WaveState {
    match s
    case START => PENDING
    case MID_1 => START
    case HIGH_0 => MID_0
    case MID_0 => LOW_0
    case LOW_0 => START
    case PENDING => PENDING
  }

  /** signalTransform: the pin is high. */
  function Signal(s: WaveState): bool {
    s.START? || s.HIGH_0?
  }

  /** A packet buffer, with room for the checksum. */
  type Buffer = b: seq<bv8> | |b| == MAX_PACKET_SIZE + 1 witness [0, 0, 0, 0, 0, 0]

  datatype Wave = Wave(state: WaveState, packet: Buffer, length: nat, repeats: Byte, preambles: nat,
                       bits: nat, bytes: nat, pending: bool, pendingPacket: Buffer, pendingLength: nat,
                       pendingRepeats: Byte, resets: nat)

  /** As the station boots: nothing to send, but the idle bytes are in the buffer. */
  function Boot(): Wave {
    Wave(START, IDLE + [0, 0, 0], 0, 0, 0, 0, 0, false, [0, 0, 0, 0, 0, 0], 0, 0, 0)
  }

  /** promotePendingPacket */
  function Promote(w: Wave, t: Track): Wave {
    if w.repeats > 0 then w.(repeats := w.repeats - 1)
    else if w.pending then
      w.(packet := w.pendingPacket, length := w.pendingLength, repeats := w.pendingRepeats, pending := false,
          resets := 0)
    else
      w.(packet := Filler(t) + w.packet[3..], length := 3, repeats := 0,
         resets := if w.resets < 250 then w.resets + 1 else w.resets)
  }

  /** Between bytes and preambles, the buffer is not left. */
  predicate InBuffer(w: Wave) {
    w.bits < 9 && w.bytes <= MAX_PACKET_SIZE
  }

  /** interrupt2: the next bit, and what follows from it. */
  function NextBit(w: Wave, t: Track): (Wave, bool)
    requires InBuffer(w)
  {
    if w.preambles > 0 then
      var w1 := w.(state := MID_1, preambles := w.preambles - 1);
      (if w1.preambles == 1 then Promote(w1, t) else w1, true)
    else
      var bit := BitAt(w.packet[w.bytes], w.bits);
      var w1 := w.(state := if bit then MID_1 else HIGH_0, bits := w.bits + 1);
      if w1.bits < 9 then (w1, bit)
      else
        var w2 := w1.(bits := 0, bytes := w1.bytes + 1);
        (if w2.bytes >= w2.length then w2.(bytes := 0, preambles := t.required) else w2, bit)
  }

  /** interruptHandler, for this track: the level, and on with the state engine. */
  function Tick(w: Wave, t: Track): (Wave, bool, Option<bool>)
    requires InBuffer(w)
  {
    var w1 := w.(state := Transform(w.state));
    if w1.state.PENDING? then
      var (w2, bit) := NextBit(w1, t);
      (w2, Signal(w.state), Some(bit))
    else (w1, Signal(w.state), None)
  }

  // ---------------------------------------------------------------- the producer

  /** schedulePacket: waiting for room, or at a step of the filling. */
  datatype Producer = Quiet | Waiting(p: Packet, r: Byte) | Filling(p: Packet, r: Byte, step: nat, sum: bv8)

  /** One step: a byte, the checksum, the length, the repeats, the flag, the resets. */
  function Produce(w: Wave, prod: Producer): (Wave, Producer)
    requires !prod.Quiet? ==> |prod.p| <= MAX_PACKET_SIZE
  {
    match prod
    case Quiet => (w, prod)
    case Waiting(p, r) => (w, if w.pending then prod else Filling(p, r, 0, 0))
    case Filling(p, r, n, sum) =>
      if n < |p| then (w.(pendingPacket := w.pendingPacket[n := p[n]]), Filling(p, r, n + 1, sum ^ p[n]))
      else if n == |p| then (w.(pendingPacket := w.pendingPacket[n := sum]), Filling(p, r, n + 1, sum))
      else if n == |p| + 1 then (w.(pendingLength := |p| + 1), Filling(p, r, n + 1, sum))
      else if n == |p| + 2 then (w.(pendingRepeats := r), Filling(p, r, n + 1, sum))
      else if n == |p| + 3 then (w.(pending := true), Filling(p, r, n + 1, sum))
      else (w.(resets := 0), Quiet)
  }

  /** All steps of the filling at once. */
  function Scheduled(w: Wave, p: Packet, r: Byte): Wave
    requires |p| <= MAX_PACKET_SIZE
  {
    w.(pendingPacket := Summed(p) + w.pendingPacket[|p| + 1..], pendingLength := |p| + 1, pendingRepeats := r,
       pending := true, resets := 0)
  }

  // ---------------------------------------------------------------- history

  datatype Log = Log(levels: seq<bool>, bits: seq<bool>, blocks: seq<Block>, jobs: seq<Job>)

  datatype Sys = Sys(w: Wave, prod: Producer, log: Log)

  datatype Action = TickOn | ProducerOn | Begin(p: Packet, r: Byte) | ClearRepeats

  /** One more frame: again the last block's, or a new block. */
  function Chosen(blocks: seq<Block>, jobs: seq<Job>, w: Wave, t: Track): seq<Block> {
    if w.repeats > 0 && blocks != [] then
      blocks[|blocks| - 1 := blocks[|blocks| - 1].(times := blocks[|blocks| - 1].times + 1)]
    else if w.pending && Taken(blocks) < |jobs| then
      blocks + [Block(Some(Taken(blocks)), Summed(jobs[Taken(blocks)].p), 1, false, |jobs|)]
    else blocks + [Block(None, Filler(t), 1, false, |jobs|)]
  }

  /** The last block will get no more repeats. */
  function Cut(blocks: seq<Block>): seq<Block> {
    if blocks == [] then [] else blocks[|blocks| - 1 := blocks[|blocks| - 1].(cut := true)]
  }

  function Step(s: Sys, t: Track, a: Action): Sys
    requires InBuffer(s.w) && (!s.prod.Quiet? ==> |s.prod.p| <= MAX_PACKET_SIZE)
  {
    match a
    case TickOn =>
      var (w, level, bit) := Tick(s.w, t);
      var promoted := bit.Some? && s.w.preambles == 2;
      s.(w := w,
         log := s.log.(levels := s.log.levels + [level],
                       bits := s.log.bits + if bit.Some? then [bit.value] else [],
                       blocks := if promoted then Chosen(s.log.blocks, s.log.jobs, s.w, t) else s.log.blocks))
    case ProducerOn =>
      var (w, prod) := Produce(s.w, s.prod);
      s.(w := w, prod := prod,
         log := if w.pending && !s.w.pending && s.prod.Filling? then
                  s.log.(jobs := s.log.jobs + [Job(s.prod.p, s.prod.r)])
                else s.log)
    case Begin(p, r) =>
      if s.prod.Quiet? && |p| <= MAX_PACKET_SIZE then s.(prod := Waiting(p, r)) else s
    case ClearRepeats =>
      s.(w := s.w.(repeats := 0), log := if s.w.repeats > 0 then s.log.(blocks := Cut(s.log.blocks)) else s.log)
  }
}

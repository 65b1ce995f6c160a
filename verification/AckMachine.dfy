/**
 The ack manager as it runs: `loop` is called again and again, waits for resets and acks, restarts
 a failed program, and walks the track back to the power and join state it had before it calls
 back.
 */
module AckMachine {
  import opened Basics
  import opened AckProgram

  datatype Stage = AFTER_READ | AFTER_WRITE | WAITING_100 | WAITING_30 | READY

  datatype AckState = Pending | Acked | Silent

  /** What one pass through loop reads: the driver's overload state, the reset counter, the ack
      state and the clock. */
  datatype Env = Env(overload: bool, resets: nat, ack: AckState, now: nat)

  datatype Event =
    | Sent(packet: Packet)
    | Power(on: bool)
    | Rejoin
    | Restart
    | Called(value: int)

  datatype Machine = Machine(prog: Option<seq<Byte>>, start: seq<Byte>, regs: Regs, retry: nat,
                             rejoin: bool, autoOff: bool, stage: Stage, since: nat,
                             power: bool, joined: bool)

  /** callback: retry, or one more step towards calling the user back. */
  function Callback(m: Machine, value: int, now: nat): (Machine, seq<Event>) {
    if value == -1 && m.retry > 0 then
      (m.(retry := m.retry - 1, prog := Some(m.start)), [Restart])
    else
      match m.stage
      case AFTER_READ =>
        if m.rejoin && !m.autoOff then (m.(power := false, since := now, stage := WAITING_30), [Power(false)])
        else (m.(stage := READY), [])
      case AFTER_WRITE =>
        if !m.rejoin && !m.autoOff then (m.(stage := READY), [])
        else (m.(since := now, stage := WAITING_100), [])
      case WAITING_100 =>
        if now < m.since + 100 then (m, [])
        else if m.autoOff then (m.(stage := READY), [])
        else (m.(power := false, since := now, stage := WAITING_30), [Power(false)])
      case WAITING_30 =>
        if now < m.since + 30 then (m, []) else (m.(power := true, stage := READY), [Power(true)])
      case READY =>
        (m.(power := if m.autoOff then false else m.power, joined := if m.rejoin then true else m.joined, prog := None),
         (if m.autoOff then [Power(false)] else []) + (if m.rejoin then [Rejoin] else []) + [Called(value)])
  }

  const RESET_MIN := 8

  function BaselineResets(m: Machine): nat {
    if m.autoOff || m.rejoin then 20 else 3
  }

  /** One pass: the new state, what was done, and whether loop returns afterwards. */
  function Pass(m: Machine, env: Env): (Machine, seq<Event>, bool)
    requires m.prog.Some?
  {
    match Decode(m.prog.value, m.regs)
    case Goto(next, r) => (m.(prog := Some(next), regs := r), [], false)
    case Base(next, _) =>
      if env.overload || env.resets < BaselineResets(m) then (m, [], true)
      else (m.(prog := Some(next), stage := AFTER_READ), [], false)
    case Issue(next, _, p) =>
      if env.resets < RESET_MIN then (m, [], true)
      else (m.(prog := Some(next), stage := if p.IsWrite() then AFTER_WRITE else m.stage), [Sent(p)], false)
    case Await(next, r) =>
      if env.ack.Pending? then (m, [], true)
      else (m.(prog := Some(next), regs := r.(ack := env.ack.Acked?)), [], false)
    case Report(r, v) =>
      var (m', es) := Callback(m.(regs := r), v, env.now);
      (m', es, true)
    case RunOff => (m, [], true)
  }

  /** A pass that only waits. */
  predicate Blocked(m: Machine, env: Env)
    requires m.prog.Some?
  {
    var (m', es, _) := Pass(m, env);
    es == [] && m'.prog == m.prog && m'.retry == m.retry && m'.stage == m.stage
  }

  datatype Stamped = Stamped(at: nat, event: Event)

  function Stamp(es: seq<Event>, now: nat): (r: seq<Stamped>)
    ensures |r| == |es| && forall i :: 0 <= i < |r| ==> r[i] == Stamped(now, es[i])
  {
    seq(|es|, i requires 0 <= i < |es| => Stamped(now, es[i]))
  }

  // ---------------------------------------------------------------- Setup

  datatype Track = Track(hasDriver: bool, measures: bool, power: bool, joined: bool)

  /** Setup on a track: refused with a callback at once, or accepted; m is the machine then. */
  datatype Answered = Refused(value: int, m: Machine) | Started(m: Machine)

  function Setup(was: Machine, track: Track, cv: int, byteOrBit: Byte, program: seq<Byte>, ackRetry: nat): Answered {
    if !track.hasDriver then Refused(-3, was.(rejoin := track.joined, joined := false))
    else if !track.measures then Refused(-2, was.(rejoin := track.joined, joined := track.joined))
    else
      Started(Machine(Some(program), program,
                      was.regs.(cv := cv, byte := byteOrBit, verify := byteOrBit, bit := byteOrBit),
                      ackRetry, track.joined, !track.power, was.stage, was.since, true, false))
  }

  /** Setup is turned away just for want of a driver, with -3 and the track left unjoined, or of a driver
      that measures, with -2 and the track joined as it was. */
  lemma RefusesExactly(was: Machine, track: Track, cv: int, byteOrBit: Byte, program: seq<Byte>, ackRetry: nat)
    ensures var r := Setup(was, track, cv, byteOrBit, program, ackRetry);
            && (r.Refused? <==> !track.hasDriver || !track.measures)
            && (r.Refused? ==> r.value == (if track.hasDriver then -2 else -3) && r.m.prog == was.prog
                               && r.m.joined == (track.hasDriver && track.joined))
  {
  }

  // ---------------------------------------------------------------- one turn

  /** Power and join are as the last switching left them, and nothing else changes them. */
  lemma PowerFollows(m: Machine, env: Env)
    requires m.prog.Some?
    ensures var (m', es, _) := Pass(m, env);
            && (forall i :: 0 <= i < |es| && es[i].Power? ==> m'.power == es[i].on)
            && ((forall i :: 0 <= i < |es| ==> !es[i].Power?) ==> m'.power == m.power)
            && m'.joined == (Rejoin in es || m.joined)
  {
    hide Decode;
    if Decode(m.prog.value, m.regs).Report? {
      CallbackSwitches(m.(regs := Decode(m.prog.value, m.regs).regs), Decode(m.prog.value, m.regs).value, env.now);
    }
  }

  lemma CallbackSwitches(m: Machine, value: int, now: nat)
    ensures var (m', es) := Callback(m, value, now);
            && (forall i :: 0 <= i < |es| && es[i].Power? ==> m'.power == es[i].on)
            && ((forall i :: 0 <= i < |es| ==> !es[i].Power?) ==> m'.power == m.power)
            && m'.joined == (Rejoin in es || m.joined)
  {
    var es := Callback(m, value, now).1;
    assert es != [] ==> es[0].Power? || es[0] in [Restart, Rejoin, Called(value)];
  }

  /** callback only waits in the two stages for it, for 100 ms and for 30 ms and no longer. */
  lemma CallbackWaits(m: Machine, value: int, now: nat)
    requires value != -1 || m.retry == 0
    ensures Callback(m, value, now) == (m, []) <==>
              (m.stage == WAITING_100 && now < m.since + 100) || (m.stage == WAITING_30 && now < m.since + 30)
  {
  }

  /** loop goes on turn by turn until one waits or comes to callback. */
  lemma ReturnsWhenWaiting(m: Machine, env: Env)
    requires m.prog.Some?
    ensures var (m', es, back) := Pass(m, env);
            back <==> (m' == m && es == []) || Decode(m.prog.value, m.regs).Report?
  {
    hide Decode;
    if m.prog.value == [] { EndsHere(m.regs); }
  }

  lemma EndsHere(r: Regs)
    ensures Decode([], r) == RunOff
  {
  }

  // ---------------------------------------------------------------- programs fit to run

  datatype Kind = Any | NoWrites | NoBaseline {
    predicate Allows(op: Byte) {
      match this
      case Any => true
      case NoWrites => op != W0 && op != W1 && op != WB
      case NoBaseline => op != BASELINE
    }
  }

  /** Every path through the program ends in a report before the table does, and meets only
      operations of this kind. */
  predicate AllOps(code: seq<Byte>, k: Kind)
    decreases |code|
  {
    code != [] && k.Allows(code[0]) &&
    var op, next := code[0], code[1..];
    if op == CALLFAIL || op == COMBINELOCOID || op == COMBINE1920 then true
    else if op == SETBIT || op == SETCV || op == SETBYTE then next != [] && AllOps(next[1..], k)
    else if op == ITSKIP || op == NAKSKIP || op == BAD20SKIP then AllOps(next, k) && AllOps(AfterTarget(next), k)
    else AllOps(next, k)
  }

  predicate Closed(code: seq<Byte>) {
    AllOps(code, Any)
  }

  lemma NextOps(code: seq<Byte>, r: Regs, k: Kind)
    requires AllOps(code, k)
    ensures var a := Decode(code, r);
            && !a.RunOff? && (!a.Report? ==> AllOps(a.code, k))
            && (k == NoWrites && a.Issue? ==> !a.packet.IsWrite()) && (k == NoBaseline ==> !a.Base?)
  {
    hide AfterTarget;
  }

  lemma ClosedNext(code: seq<Byte>, r: Regs)
    requires Closed(code)
    ensures var a := Decode(code, r);
            !a.RunOff? && (!a.Report? ==> Closed(a.code))
  {
    hide AllOps;
    NextOps(code, r, Any);
  }

  /** A report reported again is the same report. */
  lemma ReportAgain(code: seq<Byte>, r: Regs)
    ensures var a := Decode(code, r);
            a.Report? ==> Decode(code, a.regs) == a
  {
    hide Decode;
    if code != [] && code[0] == COMBINE1920 { Combined(code, r); } else { ReportKeeps(code, r); }
  }

  lemma Combined(code: seq<Byte>, r: Regs)
    requires code != [] && code[0] == COMBINE1920
    ensures var a := Decode(code, r); a.Report? && Decode(code, a.regs) == a
  {
    hide Decode;
    DecodeCombine(code, r);
    var b: Byte := (r.byte % 128) % 100;
    DecodeCombine(code, r.(byte := b));
    SevenBitsAgain(r.byte);
  }

  lemma DecodeCombine(code: seq<Byte>, r: Regs)
    requires code != [] && code[0] == COMBINE1920
    ensures var b: Byte := (r.byte % 128) % 100; Decode(code, r) == Report(r.(byte := b), r.stash * 100 + b)
  {
    hide AfterTarget, Marked;
  }

  lemma SevenBitsAgain(b: Byte)
    ensures var c := (b % 128) % 100; (c % 128) % 100 == c
  {
  }

  lemma ReportKeeps(code: seq<Byte>, r: Regs)
    requires code == [] || code[0] != COMBINE1920
    ensures Decode(code, r).Report? ==> Decode(code, r).regs == r
  {
    hide AfterTarget, Marked;
  }

  /** Up to and including its first packet, which is a write, the program only sets registers. */
  predicate Prelude(code: seq<Byte>)
    decreases |code|
  {
    code != [] &&
    var op, next := code[0], code[1..];
    if op == SETBIT || op == SETCV || op == SETBYTE then next != [] && Prelude(next[1..])
    else if op == BASELINE || op == SETBYTEH || op == SETBYTEL || op == BIV || op == STARTMERGE then Prelude(next)
    else (op == W0 || op == W1 || op == WB) && AllOps(next, NoBaseline)
  }

  /** What every program of the station is: it starts with BASELINE, cannot run off its table, and
      either writes nothing or writes with its first packet. */
  predicate Fit(prog: seq<Byte>) {
    && Closed(prog) && prog != [] && prog[0] == BASELINE
    && (AllOps(prog, NoWrites) || Prelude(prog))
  }

  lemma PreludeNext(code: seq<Byte>, r: Regs)
    requires Prelude(code)
    ensures var a := Decode(code, r);
            && !a.Report? && !a.Await? && !a.RunOff?
            && (a.Issue? ==> a.packet.IsWrite() && AllOps(a.code, NoBaseline))
            && (a.Goto? || a.Base? ==> Prelude(a.code))
  {
    hide AfterTarget, AllOps;
  }

  // ---------------------------------------------------------------- ending

  function Rank(s: Stage): nat {
    match s
    case AFTER_WRITE => 4
    case WAITING_100 => 3
    case AFTER_READ => 3
    case WAITING_30 => 2
    case READY => 1
  }

  /** Retries left, code left, callback stage. */
  function Measure(m: Machine): nat {
    match m.prog
    case None => 0
    case Some(code) => m.retry * (5 * |m.start|) + 5 * |code| + Rank(m.stage)
  }

  lemma PassDecreases(m: Machine, env: Env)
    requires m.prog.Some? && Closed(m.prog.value) && Closed(m.start)
    ensures var (m', es, _) := Pass(m, env);
            && (m'.prog.Some? ==> Closed(m'.prog.value)) && m'.start == m.start
            && (Blocked(m, env) || Measure(m') < Measure(m))
  {
    hide Decode, Closed;
    ClosedNext(m.prog.value, m.regs);
    ReportAgain(m.prog.value, m.regs);
    EndsHere(m.regs);
    var a := Decode(m.prog.value, m.regs);
    if a.Report? {
      assert |m.prog.value| >= 1;
      CallbackDecreases(m.(regs := a.regs), a.value, env.now);
    }
  }

  lemma CallbackDecreases(m: Machine, value: int, now: nat)
    requires m.prog.Some? && |m.prog.value| >= 1
    ensures var (m', es) := Callback(m, value, now);
            && m'.start == m.start && (m'.prog.Some? ==> m'.prog == m.prog || m'.prog == Some(m.start))
            && ((es == [] && m'.prog == m.prog && m'.retry == m.retry && m'.stage == m.stage) ||
                  Measure(m') < Measure(m))
  {
    if value == -1 && m.retry > 0 {
      assert (m.retry - 1) * (5 * |m.start|) == m.retry * (5 * |m.start|) - 5 * |m.start|;
    }
  }

  /** A turn on a fair track, at least 100 ms after the last one counted: no overload, the resets
      sent, the ack settled. */
  predicate Fair(env: Env, base: nat) {
    !env.overload && env.resets >= 20 && !env.ack.Pending? && env.now >= base + 100
  }

  predicate Waits(s: Stage) {
    s == WAITING_100 || s == WAITING_30
  }

  /** A fair turn does more than wait, unless a callback stage began since the last one. */
  lemma FairMoves(m: Machine, env: Env, base: nat)
    requires m.prog.Some? && Closed(m.prog.value) && Fair(env, base) && (Waits(m.stage) ==> m.since <= base)
    ensures !Blocked(m, env)
  {
    hide AfterTarget, Closed;
    ClosedNext(m.prog.value, m.regs);
    ReportAgain(m.prog.value, m.regs);
    DecodeShrinks(m.prog.value, m.regs);
  }

  lemma DecodeShrinks(code: seq<Byte>, r: Regs)
    ensures var a := Decode(code, r); !a.Report? && !a.RunOff? ==> |a.code| < |code|
  {
  }

  lemma MeasurePositive(m: Machine)
    requires m.prog.Some?
    ensures Measure(m) >= 1
  {
  }

  lemma BlockedMeasure(m: Machine, env: Env)
    requires m.prog.Some? && Blocked(m, env)
    ensures Measure(Pass(m, env).0) == Measure(m)
  {
    hide Decode;
  }

  /** The user is called back when the program is over, and last of all; a restart uses up a retry. */
  predicate CallsLast(es: seq<Event>, over: bool) {
    && (over ==> es != [] && es[|es| - 1].Called?)
    && forall i :: 0 <= i < |es| && es[i].Called? ==> over && i == |es| - 1
  }

  /** The program has its final result, and only the walk back to the user is left. */
  predicate Committed(m: Machine)
    requires m.prog.Some?
  {
    var a := Decode(m.prog.value, m.regs);
    a.Report? && a.regs == m.regs && (a.value != -1 || m.retry == 0)
  }

  /** A program whose BASELINE is still to come: whatever stage an earlier one left is not looked at. */
  predicate Unbegun(m: Machine) {
    m.prog == Some(m.start) && m.start != [] && m.start[0] == BASELINE && m.power
  }

  /** The track has power, but for the gap of 30 ms; and the waiting stages only wait. */
  predicate Begun(m: Machine)
    requires m.prog.Some?
  {
    && (m.stage != WAITING_30 ==> m.power) && (m.stage == WAITING_30 ==> !m.autoOff)
    && (Waits(m.stage) ==> Committed(m))
  }

  /** While a program is under way the track is unjoined. */
  predicate UnderWay(m: Machine) {
    m.prog.Some? && !m.joined && (Unbegun(m) || Begun(m))
  }

  predicate Restored(m: Machine) {
    m.prog.None? && m.stage == READY && m.power == !m.autoOff && m.joined == m.rejoin
  }

  lemma PassCounts(m: Machine, env: Env)
    requires UnderWay(m)
    ensures var (m', es, _) := Pass(m, env);
            && CallsLast(es, m'.prog.None?)
            && (if Restart in es then es == [Restart] && m.retry == m'.retry + 1 else m'.retry == m.retry)
            && m'.rejoin == m.rejoin && m'.autoOff == m.autoOff && m'.start == m.start
            && if m'.prog.Some? then UnderWay(m') else Restored(m')
  {
    hide Decode, Callback, CallsLast;
    if Unbegun(m) { BaseFirst(m.start, m.regs); }
    var a := Decode(m.prog.value, m.regs);
    if a.Report? {
      ReportAgain(m.prog.value, m.regs);
      CallbackCounts(m, a.regs, a.value, env.now);
    } else {
      Quietly(Pass(m, env).1);
    }
  }

  lemma Quietly(es: seq<Event>)
    ensures (forall i :: 0 <= i < |es| ==> es[i].Sent?) ==> CallsLast(es, false) && Restart !in es
  {
  }

  lemma CallbackCounts(m: Machine, r: Regs, v: int, now: nat)
    requires UnderWay(m) && Decode(m.prog.value, m.regs) == Report(r, v) && Decode(m.prog.value, r) == Report(r, v)
    requires !Unbegun(m)
    ensures var (m', es) := Callback(m.(regs := r), v, now);
            && CallsLast(es, m'.prog.None?)
            && (if Restart in es then es == [Restart] && m.retry == m'.retry + 1 else m'.retry == m.retry)
            && m'.rejoin == m.rejoin && m'.autoOff == m.autoOff && m'.start == m.start
            && if m'.prog.Some? then UnderWay(m') else Restored(m')
  {
    hide Decode;
  }

  lemma BaseFirst(code: seq<Byte>, r: Regs)
    requires code != [] && code[0] == BASELINE
    ensures Decode(code, r) == Base(code[1..], r)
  {
  }
}

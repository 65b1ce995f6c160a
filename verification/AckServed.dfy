/**
 Round trips from request to callback: on a fair track with a decoder that answers, setting an id
 and then asking for it call back success and the id.
 */
module AckServed {
  import opened Basics
  import opened AckProgram
  import opened AckReads
  import opened AckRoundTrips
  import opened AckConsists
  import opened AckCvReads
  import opened AckBits
  import opened AckMachine
  import opened AckCalls
  import opened AckCoupling
  import opened AckTiming
  import opened AckFit

  /** A run against a decoder is a run of turns, the acks being the decoder's; and these turns are as
      fair as those. */
  lemma {:induction false} TrackIsGo(l: Line, d: Decoder, heard: bool, envs: seq<Env>, clock: nat, base: nat)
      returns (acts: seq<Act>)
    requires Monotone(Turns(envs), clock)
    ensures AllProper(acts) && NoneAsked(acts) && Monotone(acts, clock) && End(acts, clock) == End(Turns(envs), clock)
    ensures FairTurns(acts, base) == FairTurns(Turns(envs), base)
    ensures Go(l, acts).0.m == TrackRun(l.m, d, heard, envs).0
    decreases |envs|
  {
    hide Pass, Answer;
    if envs == [] || l.m.prog.None? {
      acts := Turns(envs);
      StaysPut(l, acts);
    } else {
      var env := envs[0];
      var ack := if env.ack.Pending? then Pending else if heard then Acked else Silent;
      var (m1, d1, heard1, _) := TrackPass(l.m, d, heard, env);
      var a := Turn(env.(ack := ack));
      var fair := Fair(env, base);
      assert Turns(envs)[1..] == Turns(envs[1..]);
      var rest := TrackIsGo(Step(l, a).0, d1, heard1, envs[1..], env.now, if fair then env.now else base);
      acts := [a] + rest;
      assert acts[1..] == rest;
    }
  }

  lemma {:induction false} StaysPut(l: Line, acts: seq<Act>)
    requires NoneAsked(acts)
    ensures acts == [] || l.m.prog.None? ==> Go(l, acts).0 == l
    decreases |acts|
  {
    hide Pass;
    if acts != [] && l.m.prog.None? {
      assert NoneAsked(acts[1..]) by { AskedFirst(acts); }
      StaysPut(l, acts[1..]);
    }
  }

  /** An accepted request for a program of the station, and then turns on a fair track: the run ends,
      in a state in which the next request can come. */
  lemma TrackEnds(l: Line, a: Act, d: Decoder, heard: bool, envs: seq<Env>, clock: nat)
    requires LineOk(l, clock) && a.Accepted() && Stock(a.program) && Monotone(Turns(envs), clock)
    requires FairTurns(Turns(envs), clock) >= Enough(a)
    ensures var l1 := Step(l, a).0;
            var m' := TrackRun(l1.m, d, heard, envs).0;
            m'.prog.None? && LineOk(l1.(m := m'), End(Turns(envs), clock))
  {
    hide Step, Go, TrackRun, LineOk, Stock, Fit, AllProper, NoneAsked, Monotone, FairTurns, End, Enough;
    var l1 := Step(l, a).0;
    StockIsFit(a.program);
    StepKeeps(l, a, clock);
    var acts := TrackIsGo(l1, d, heard, envs, clock, clock);
    NoneIsNone(acts);
    var k := SetupEnds(l, a, acts, clock);
    GoKeeps(l1, acts, clock);
    IdleAtEnd(l1, acts, k);
    LineIdle(l1.(m := Go(l1, acts).0.m), Go(l1, acts).0, End(acts, clock));
  }

  lemma NoneIsNone(acts: seq<Act>)
    requires NoneAsked(acts)
    ensures NoneAccepted(acts)
  {
  }

  lemma LineIdle(l: Line, l': Line, clock: nat)
    requires l.m == l'.m && LineOk(l', clock) && l.m.prog.None?
    ensures LineOk(l, clock)
  {
  }

  /** Once idle, idle to the end. */
  lemma {:induction false} IdleAtEnd(l: Line, acts: seq<Act>, k: nat)
    requires NoneAsked(acts) && k <= |acts| && Until(l, acts[..k])
    ensures Go(l, acts).0.m.prog.None?
    decreases |acts|
  {
    hide Step;
    if l.m.prog.None? {
      StaysPut(l, acts);
    } else {
      assert acts[..k][0] == acts[0] && acts[..k][1..] == acts[1..][..k - 1];
      AskedFirst(acts);
      IdleAtEnd(Step(l, acts[0]).0, acts[1..], k - 1);
    }
  }

  /** A request as the station makes it, with a word for the program or without. */
  predicate Asks(a: Act, program: seq<Byte>, word: Option<int>) {
    a.Accepted() && a.program == program && (word.Some? ==> a.word == word)
  }

  lemma FreshOf(l: Line, a: Act, clock: nat)
    requires LineOk(l, clock) && a.Accepted() && Stock(a.program)
    ensures var m := Step(l, a).0.m; Fresh(m, a.program) && (a.word.Some? ==> m.regs.word == a.word.value)
  {
    hide Stock, Fit, LineOk, UnderWay;
    LineIs(l, clock);
    StockIsFit(a.program);
    AcceptedTells(l, a, clock);
  }

  /** setLocoId and then getLocoId, each asked for in any reachable state and followed by enough fair
      turns, on any decoder with the CVs the id needs: both end, and call back 1 and then the id. */
  lemma LocoIdServed(id: int, l: Line, a: Act, b: Act, d: Decoder, heard: bool, envs1: seq<Env>, heard2: bool,
                     envs2: seq<Env>, clock: nat)
    requires 1 <= id <= 10239 && CanSetId(d, id) && LineOk(l, clock)
    requires Asks(a, SetIdProg(id), Some(SetIdWord(id))) && Asks(b, LOCO_READ_ID_PROG, None)
    requires Monotone(Turns(envs1), clock) && FairTurns(Turns(envs1), clock) >= Enough(a)
    requires var now := End(Turns(envs1), clock);
             Monotone(Turns(envs2), now) && FairTurns(Turns(envs2), now) >= Enough(b)
    ensures var l1 := Step(l, a).0;
            var (e1, d1, es1) := TrackRun(l1.m, d, heard, envs1);
            var (e2, d2, es2) := TrackRun(Step(l1.(m := e1), b).0.m, d1, heard2, envs2);
            && e1.prog.None? && e2.prog.None? && d2 == d1
            && es1 != [] && es1[|es1| - 1] == Called(1) && es2 != [] && es2[|es2| - 1] == Called(Shown(id))
  {
    hide Step, TrackRun, LineOk, Exec, SetIdWord, Shown, Monotone, FairTurns, Enough, Turns, End, CanSetId,
      LOCO_READ_ID_PROG, SHORT_LOCO_ID_PROG, LONG_LOCO_ID_PROG;
    var l1 := Step(l, a).0;
    TrackEnds(l, a, d, heard, envs1, clock);
    FreshOf(l, a, clock);
    var (e1, d1, _) := TrackRun(l1.m, d, heard, envs1);
    var l2, now := l1.(m := e1), End(Turns(envs1), clock);
    TrackEnds(l2, b, d1, heard2, envs2, now);
    FreshOf(l2, b, now);
    LocoIdRoundTrip(id, d, heard, l1.m, envs1, Step(l2, b).0.m, heard2, envs2);
  }

  /** The same for setConsistId and getConsistId. */
  lemma ConsistServed(id: int, reverse: bool, l: Line, a: Act, b: Act, d: Decoder, heard: bool, envs1: seq<Env>,
                      heard2: bool, envs2: seq<Env>, clock: nat)
    requires 0 <= id <= 10239 && Has(d, 19) && (id > 127 ==> Has(d, 20) && d.acksWrites) && LineOk(l, clock)
    requires Asks(a, CONSIST_ID_PROG, Some(ConsistWord(id, reverse))) && Asks(b, LOCO_READ_CONSIST_PROG, None)
    requires Monotone(Turns(envs1), clock) && FairTurns(Turns(envs1), clock) >= Enough(a)
    requires var now := End(Turns(envs1), clock);
             Monotone(Turns(envs2), now) && FairTurns(Turns(envs2), now) >= Enough(b)
    ensures var l1 := Step(l, a).0;
            var (e1, d1, es1) := TrackRun(l1.m, d, heard, envs1);
            var (e2, d2, es2) := TrackRun(Step(l1.(m := e1), b).0.m, d1, heard2, envs2);
            && e1.prog.None? && e2.prog.None? && d2 == d1
            && es1 != [] && es1[|es1| - 1] == Called(1) && es2 != [] && es2[|es2| - 1] == Called(id)
            && Has(d2, 19) && (d2.cvs[19] >= 128 <==> reverse)
  {
    hide Step, TrackRun, LineOk, Exec, ConsistWord, Monotone, FairTurns, Enough, Turns, End, CONSIST_ID_PROG,
      LOCO_READ_CONSIST_PROG;
    var l1 := Step(l, a).0;
    TrackEnds(l, a, d, heard, envs1, clock);
    FreshOf(l, a, clock);
    var (e1, d1, _) := TrackRun(l1.m, d, heard, envs1);
    var l2, now := l1.(m := e1), End(Turns(envs1), clock);
    TrackEnds(l2, b, d1, heard2, envs2, now);
    FreshOf(l2, b, now);
    ConsistRoundTrip(id, reverse, d, heard, l1.m, envs1, Step(l2, b).0.m, heard2, envs2);
  }

  // ---------------------------------------------------------------- single bits and bytes

  lemma RegsOf(l: Line, a: Act)
    requires a.Accepted()
    ensures var r := Step(l, a).0.m.regs;
            r.cv == a.cv && r.byte == a.byteOrBit && r.bit == a.byteOrBit && r.verify == a.byteOrBit
  {
  }

  /** On a CV that is not there every attempt fails. */
  lemma {:induction false} NoCvAttempts(prog: seq<Byte>, b: Bench, retry: nat)
    requires CvProgram(prog) && !Has(b.d, b.regs.cv)
    ensures Reports(Attempts(prog, prog, b, retry), -1, b.d)
    decreases retry
  {
    hide Exec, CvProgram;
    NoCvReports(prog, b);
    var r := Exec(prog, b);
    if retry > 0 { NoCvAttempts(prog, Bench(r.regs, r.d, r.heard), retry - 1); }
  }

  /** A program for a single CV, asked for in any reachable state and followed by enough fair turns: it
      ends, and calls back what its straight execution reports. */
  lemma CvServed(l: Line, a: Act, d: Decoder, heard: bool, envs: seq<Env>, clock: nat)
    requires LineOk(l, clock) && a.Accepted() && CvProgram(a.program)
    requires Monotone(Turns(envs), clock) && FairTurns(Turns(envs), clock) >= Enough(a)
    requires var r := Exec(a.program, Bench(Step(l, a).0.m.regs, d, heard)); Has(d, a.cv) ==> r.Result? && r.value != -1
    ensures var m := Step(l, a).0.m;
            var r := Exec(a.program, Bench(m.regs, d, heard));
            var (e, d', es) := TrackRun(m, d, heard, envs);
            && r.Result? && e.prog.None? && es != [] && es[|es| - 1] == Called(r.value) && d' == r.d
            && LineOk(Step(l, a).0.(m := e), End(Turns(envs), clock))
  {
    hide Step, TrackRun, LineOk, Exec, Monotone, FairTurns, Enough, Turns, End, Attempts, CvProgram, Stock;
    var m := Step(l, a).0.m;
    var b := Bench(m.regs, d, heard);
    IsStock(a.program);
    FreshOf(l, a, clock);
    RegsOf(l, a);
    TrackEnds(l, a, d, heard, envs, clock);
    if Has(d, a.cv) {
      FirstAttempt(m, a.program, d, heard);
    } else {
      NoCvReports(a.program, b);
      NoCvAttempts(a.program, b, m.retry);
    }
    RunGivesOutcome(m, d, heard, envs);
  }

  lemma IsStock(prog: seq<Byte>)
    requires CvProgram(prog)
    ensures Stock(prog)
  {
    hide WRITE_BIT0_PROG, WRITE_BIT1_PROG, VERIFY_BIT0_PROG, VERIFY_BIT1_PROG, READ_BIT_PROG, WRITE_BYTE_PROG,
      VERIFY_BYTE_PROG, READ_CV_PROG, LOCO_READ_ID_PROG, LOCO_READ_CONSIST_PROG, LOCO_DRIVEAWAY_PROG,
      SHORT_LOCO_ID_PROG, LONG_LOCO_ID_PROG, CONSIST_ID_PROG;
  }

  /** A request about one CV. */
  predicate AsksCv(a: Act, program: seq<Byte>, cv: int, byteOrBit: Byte) {
    a.Accepted() && a.program == program && a.cv == cv && a.byteOrBit == byteOrBit
  }

  /** writeCVBit and then readCVBit, each asked for in any reachable state and followed by enough fair
      turns, on any decoder: they call back 1 and the bit if the decoder has the CV, else -1 twice; and
      the decoder is as it was but for that bit. */
  lemma BitServed(cv: int, i: Byte, on: bool, l: Line, a: Act, b: Act, d: Decoder, heard: bool, envs1: seq<Env>,
                  heard2: bool, envs2: seq<Env>, clock: nat)
    requires i < 8 && LineOk(l, clock) && AsksCv(a, WriteBitProg(on), cv, i) && AsksCv(b, READ_BIT_PROG, cv, i)
    requires Monotone(Turns(envs1), clock) && FairTurns(Turns(envs1), clock) >= Enough(a)
    requires var now := End(Turns(envs1), clock);
             Monotone(Turns(envs2), now) && FairTurns(Turns(envs2), now) >= Enough(b)
    ensures var l1 := Step(l, a).0;
            var (e1, d1, es1) := TrackRun(l1.m, d, heard, envs1);
            var (e2, d2, es2) := TrackRun(Step(l1.(m := e1), b).0.m, d1, heard2, envs2);
            && e1.prog.None? && e2.prog.None? && d2 == d1 == WithCvBit(d, cv, i, on)
            && es1 != [] && es1[|es1| - 1] == Called(if Has(d, cv) then 1 else -1)
            && es2 != [] && es2[|es2| - 1] == Called(if !Has(d, cv) then -1 else if on then 1 else 0)
  {
    hide Step, TrackRun, LineOk, Exec, Monotone, FairTurns, Enough, Turns, End, CvProgram, READ_BIT_PROG, WriteBitProg,
      WithBit, BitOf;
    BitPrograms(on);
    var l1 := Step(l, a).0;
    RegsOf(l, a);
    WritesBit(on, Bench(l1.m.regs, d, heard));
    CvServed(l, a, d, heard, envs1, clock);
    var (e1, d1, _) := TrackRun(l1.m, d, heard, envs1);
    var l2, now := l1.(m := e1), End(Turns(envs1), clock);
    RegsOf(l2, b);
    ReadsBit(on, Bench(Step(l2, b).0.m.regs, d1, heard2));
    if Has(d, cv) { WithBitSets(d.cvs[cv], i, on); }
    CvServed(l2, b, d1, heard2, envs2, now);
  }

  lemma BitPrograms(on: bool)
    ensures CvProgram(WriteBitProg(on)) && CvProgram(READ_BIT_PROG)
  {
    hide WRITE_BIT0_PROG, WRITE_BIT1_PROG, VERIFY_BIT0_PROG, VERIFY_BIT1_PROG, READ_BIT_PROG, WRITE_BYTE_PROG,
      VERIFY_BYTE_PROG, READ_CV_PROG;
  }

  /** The same for writeCVByte and readCV. */
  lemma ByteServed(cv: int, byte: Byte, l: Line, a: Act, b: Act, d: Decoder, heard: bool, envs1: seq<Env>,
                   heard2: bool, envs2: seq<Env>, clock: nat)
    requires LineOk(l, clock) && AsksCv(a, WRITE_BYTE_PROG, cv, byte) && AsksCv(b, READ_CV_PROG, cv, 0)
    requires Monotone(Turns(envs1), clock) && FairTurns(Turns(envs1), clock) >= Enough(a)
    requires var now := End(Turns(envs1), clock);
             Monotone(Turns(envs2), now) && FairTurns(Turns(envs2), now) >= Enough(b)
    ensures var l1 := Step(l, a).0;
            var (e1, d1, es1) := TrackRun(l1.m, d, heard, envs1);
            var (e2, d2, es2) := TrackRun(Step(l1.(m := e1), b).0.m, d1, heard2, envs2);
            && e1.prog.None? && e2.prog.None? && d2 == d1 == Written(d, cv, byte)
            && es1 != [] && es1[|es1| - 1] == Called(if Has(d, cv) then 1 else -1)
            && es2 != [] && es2[|es2| - 1] == Called(if Has(d, cv) then byte else -1)
  {
    hide Step, TrackRun, LineOk, Exec, Monotone, FairTurns, Enough, Turns, End, CvProgram, WRITE_BYTE_PROG,
      READ_CV_PROG;
    BytePrograms();
    var l1 := Step(l, a).0;
    RegsOf(l, a);
    WritesByte(Bench(l1.m.regs, d, heard));
    CvServed(l, a, d, heard, envs1, clock);
    var (e1, d1, _) := TrackRun(l1.m, d, heard, envs1);
    var l2, now := l1.(m := e1), End(Turns(envs1), clock);
    RegsOf(l2, b);
    ReadsCv(Bench(Step(l2, b).0.m.regs, d1, heard2));
    CvServed(l2, b, d1, heard2, envs2, now);
  }

  lemma BytePrograms()
    ensures CvProgram(WRITE_BYTE_PROG) && CvProgram(READ_CV_PROG)
  {
    hide WRITE_BIT0_PROG, WRITE_BIT1_PROG, VERIFY_BIT0_PROG, VERIFY_BIT1_PROG, READ_BIT_PROG, WRITE_BYTE_PROG,
      VERIFY_BYTE_PROG, READ_CV_PROG;
  }
}

/**
 The running ack manager against a compliant decoder: however the waits fall, the value called
 back and what the decoder is left with are those of the program's straight execution.
 */
module AckCoupling {
  import opened Basics
  import opened AckProgram
  import opened AckReads
  import opened AckRoundTrips
  import opened AckConsists
  import opened AckMachine

  /** A pass on a track whose acks, when they come, are the decoder's. */
  function TrackPass(m: Machine, d: Decoder, heard: bool, env: Env): (Machine, Decoder, bool, seq<Event>)
    requires m.prog.Some?
  {
    var ack := if env.ack.Pending? then Pending else if heard then Acked else Silent;
    var (m', es, _) := Pass(m, env.(ack := ack));
    if es != [] && es[0].Sent? then
      var (d', heard') := Answer(d, es[0].packet);
      (m', d', heard', es)
    else (m', d, heard, es)
  }

  function TrackRun(m: Machine, d: Decoder, heard: bool, envs: seq<Env>): (Machine, Decoder, seq<Event>)
    decreases |envs|
  {
    if envs == [] || m.prog.None? then (m, d, [])
    else
      var (m1, d1, heard1, es) := TrackPass(m, d, heard, envs[0]);
      var (m2, d2, rest) := TrackRun(m1, d1, heard1, envs[1..]);
      (m2, d2, es + rest)
  }

  /** The straight execution, with its retries. */
  function Attempts(prog: seq<Byte>, code: seq<Byte>, b: Bench, retry: nat): Result
    decreases retry
  {
    var r := Exec(code, b);
    if r.Result? && r.value == -1 && retry > 0 then
      Attempts(prog, prog, Bench(r.regs, r.d, r.heard), retry - 1)
    else r
  }

  function Outcome(m: Machine, d: Decoder, heard: bool): Result
    requires m.prog.Some?
  {
    Attempts(m.start, m.prog.value, Bench(m.regs, d, heard), m.retry)
  }

  /** A pass leaves the outcome as it was, or is the callback with it. */
  lemma PassKeepsOutcome(m: Machine, d: Decoder, heard: bool, env: Env)
    requires m.prog.Some? && Outcome(m, d, heard).Result?
    ensures var (m', d', heard', es) := TrackPass(m, d, heard, env);
            if m'.prog.Some? then Outcome(m', d', heard') == Outcome(m, d, heard)
            else es != [] && es[|es| - 1] == Called(Outcome(m, d, heard).value) && d' == Outcome(m, d, heard).d
  {
    hide Decode, Answer, TrackPass, Outcome;
    if Decode(m.prog.value, m.regs).Report? {
      ReportPass(m, d, heard, env);
    } else {
      PlainPass(m, d, heard, env);
    }
  }

  lemma PlainPass(m: Machine, d: Decoder, heard: bool, env: Env)
    requires m.prog.Some? && !Decode(m.prog.value, m.regs).Report?
    ensures var (m', d', heard', _) := TrackPass(m, d, heard, env);
            m'.prog.Some? && Outcome(m', d', heard') == Outcome(m, d, heard)
  {
    hide Decode, Answer, Attempts;
    var code := m.prog.value;
    var a := Decode(code, m.regs);
    var (m', d', heard', es) := TrackPass(m, d, heard, env);
    if m' != m {
      var b, b' := Bench(m.regs, d, heard), Bench(m'.regs, d', heard');
      assert m'.prog == Some(a.code) && m'.start == m.start && m'.retry == m.retry;
      ExecPass(code, b, b');
      SameAttempts(m.start, code, b, a.code, b', m.retry);
    }
  }

  lemma ReportPass(m: Machine, d: Decoder, heard: bool, env: Env)
    requires m.prog.Some? && Decode(m.prog.value, m.regs).Report?
    ensures var (m', d', heard', es) := TrackPass(m, d, heard, env);
            if m'.prog.Some? then Outcome(m', d', heard') == Outcome(m, d, heard)
            else es != [] && es[|es| - 1] == Called(Outcome(m, d, heard).value) && d' == Outcome(m, d, heard).d
  {
    hide Decode, Answer, Attempts, Exec, Outcome, Callback, Pass;
    var a := Decode(m.prog.value, m.regs);
    ReportKeepsOutcome(m, d, heard, a.regs, a.value);
    var ack := if env.ack.Pending? then Pending else if heard then Acked else Silent;
    ReportCalls(m, a.regs, a.value, env.(ack := ack));
    OutcomeIs(Pass(m, env.(ack := ack)).0, d, heard);
  }

  /** A program that reports: restarted, still on its way to the callback, or called back. */
  lemma ReportCalls(m: Machine, r: Regs, v: int, env: Env)
    requires m.prog.Some? && Decode(m.prog.value, m.regs) == Report(r, v)
    ensures var (m', es, _) := Pass(m, env);
            && !(es != [] && es[0].Sent?) && m'.start == m.start && m'.regs == r
            && (if v == -1 && m.retry > 0 then m'.prog == Some(m.start) && m'.retry == m.retry - 1
                else if m'.prog.Some? then m'.prog == m.prog && m'.retry == m.retry
                else es != [] && es[|es| - 1] == Called(v))
  {
    hide Decode;
  }

  lemma OutcomeIs(m: Machine, d: Decoder, heard: bool)
    ensures m.prog.Some? ==>
              Outcome(m, d, heard) == Attempts(m.start, m.prog.value, Bench(m.regs, d, heard), m.retry)
  {
  }

  /** One operation of the straight execution. */
  lemma ExecPass(code: seq<Byte>, b: Bench, b': Bench)
    requires match Decode(code, b.regs)
             case Goto(_, r) => b' == b.(regs := r)
             case Base(_, r) => b' == b.(regs := r)
             case Issue(_, r, p) => b' == Bench(r, Answer(b.d, p).0, Answer(b.d, p).1)
             case Await(_, r) => b' == b.(regs := r.(ack := b.heard))
             case _ => false
    ensures Exec(code, b) == Exec(Decode(code, b.regs).code, b')
  {
    hide Decode, Answer;
  }

  lemma SameAttempts(prog: seq<Byte>, code: seq<Byte>, b: Bench, code': seq<Byte>, b': Bench, retry: nat)
    requires Exec(code, b) == Exec(code', b')
    ensures Attempts(prog, code, b, retry) == Attempts(prog, code', b', retry)
  {
    hide Exec;
  }

  /** Once the program reports: the outcome is that value, or that of one more attempt. */
  lemma ReportKeepsOutcome(m: Machine, d: Decoder, heard: bool, r: Regs, v: int)
    requires m.prog.Some? && Decode(m.prog.value, m.regs) == Report(r, v)
    ensures v == -1 && m.retry > 0 ==>
              Outcome(m, d, heard) == Attempts(m.start, m.start, Bench(r, d, heard), m.retry - 1)
    ensures !(v == -1 && m.retry > 0) ==>
              Outcome(m, d, heard) == Result(v, r, d, heard)
              && Attempts(m.start, m.prog.value, Bench(r, d, heard), m.retry) == Result(v, r, d, heard)
  {
    hide Decode;
    ReportAgain(m.prog.value, m.regs);
  }

  /** However the waits fall, a run that ends calls back the straight execution's value and leaves
      the decoder as that execution does. */
  lemma {:induction false} RunGivesOutcome(m: Machine, d: Decoder, heard: bool, envs: seq<Env>)
    requires m.prog.Some? && Outcome(m, d, heard).Result?
    ensures var (m', d', es) := TrackRun(m, d, heard, envs);
            m'.prog.None? ==> es != [] && es[|es| - 1] == Called(Outcome(m, d, heard).value)
                              && d' == Outcome(m, d, heard).d
    decreases |envs|
  {
    hide TrackPass, Outcome;
    if envs != [] {
      PassKeepsOutcome(m, d, heard, envs[0]);
      var (m1, d1, heard1, es) := TrackPass(m, d, heard, envs[0]);
      if m1.prog.Some? {
        RunGivesOutcome(m1, d1, heard1, envs[1..]);
        assert TrackRun(m, d, heard, envs).2 == es + TrackRun(m1, d1, heard1, envs[1..]).2;
      } else {
        assert TrackRun(m, d, heard, envs).2 == es + [];
      }
    }
  }

  /** A machine just set up with a program and word. */
  predicate Fresh(m: Machine, program: seq<Byte>) {
    m.prog == Some(program) && m.start == program
  }

  lemma FirstAttempt(m: Machine, program: seq<Byte>, d: Decoder, heard: bool)
    requires Fresh(m, program)
    ensures var r := Exec(program, Bench(m.regs, d, heard));
            r.Result? && r.value != -1 ==> Outcome(m, d, heard) == r
  {
    hide Exec;
  }

  /** Over the running interpreter: setLocoId(id), then getLocoId, on any decoder with the CVs the
      id needs: the first run calls back 1 and the second the id. */
  lemma LocoIdRoundTrip(id: int, d: Decoder, heard: bool, m1: Machine, envs1: seq<Env>, m2: Machine, heard2: bool,
                        envs2: seq<Env>)
    requires 1 <= id <= 10239 && CanSetId(d, id)
    requires Fresh(m1, SetIdProg(id)) && m1.regs.word == SetIdWord(id) && Fresh(m2, LOCO_READ_ID_PROG)
    ensures var (e1, d1, es1) := TrackRun(m1, d, heard, envs1);
            var (e2, d2, es2) := TrackRun(m2, d1, heard2, envs2);
            e1.prog.None? && e2.prog.None? ==>
              es1 != [] && es1[|es1| - 1] == Called(1) && es2 != [] && es2[|es2| - 1] == Called(Shown(id)) && d2 == d1
  {
    hide Exec, TrackRun, Outcome, SetIdProg, SetIdWord, LOCO_READ_ID_PROG, Shown;
    var (e1, d1, es1) := TrackRun(m1, d, heard, envs1);
    var set0 := Bench(m1.regs, d, heard);
    var r1 := Exec(SetIdProg(id), set0);
    var get0 := Bench(m2.regs, if r1.Result? then r1.d else d, heard2);
    SetThenGetLocoId(id, set0, get0);
    FirstAttempt(m1, SetIdProg(id), d, heard);
    RunGivesOutcome(m1, d, heard, envs1);
    assert Shown(id) != -1 by { ShownIsPositive(id); }
    FirstAttempt(m2, LOCO_READ_ID_PROG, get0.d, heard2);
    RunGivesOutcome(m2, get0.d, heard2, envs2);
  }

  lemma ShownIsPositive(id: int)
    requires id >= 1
    ensures Shown(id) >= 1
  {
  }

  /** The same for setConsistId and getConsistId. */
  lemma ConsistRoundTrip(id: int, reverse: bool, d: Decoder, heard: bool, m1: Machine, envs1: seq<Env>, m2: Machine,
                         heard2: bool, envs2: seq<Env>)
    requires 0 <= id <= 10239 && Has(d, 19) && (id > 127 ==> Has(d, 20) && d.acksWrites)
    requires Fresh(m1, CONSIST_ID_PROG) && m1.regs.word == ConsistWord(id, reverse) && Fresh(m2, LOCO_READ_CONSIST_PROG)
    ensures var (e1, d1, es1) := TrackRun(m1, d, heard, envs1);
            var (e2, d2, es2) := TrackRun(m2, d1, heard2, envs2);
            e1.prog.None? && e2.prog.None? ==>
              es1 != [] && es1[|es1| - 1] == Called(1) && es2 != [] && es2[|es2| - 1] == Called(id) && d2 == d1
              && Has(d2, 19) && (d2.cvs[19] >= 128 <==> reverse)
  {
    hide Exec, TrackRun, Outcome, CONSIST_ID_PROG, ConsistWord, LOCO_READ_CONSIST_PROG;
    var (e1, d1, es1) := TrackRun(m1, d, heard, envs1);
    var set0 := Bench(m1.regs, d, heard);
    var r1 := Exec(CONSIST_ID_PROG, set0);
    var get0 := Bench(m2.regs, if r1.Result? then r1.d else d, heard2);
    SetThenGetConsistId(id, reverse, set0, get0);
    FirstAttempt(m1, CONSIST_ID_PROG, d, heard);
    RunGivesOutcome(m1, d, heard, envs1);
    FirstAttempt(m2, LOCO_READ_CONSIST_PROG, get0.d, heard2);
    RunGivesOutcome(m2, get0.d, heard2, envs2);
  }
}

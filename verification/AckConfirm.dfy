/**
 Reads on a track that acks as it likes, by the running machine with its waits, retries and
 callback stages: what is called back was confirmed.
 */
module AckConfirm {
  import opened Basics
  import opened AckProgram
  import opened AckCvReads
  import opened AckMachine

  /** The packet sent last, and what the wait for its ack has read since. */
  datatype Ear = Ear(last: Option<Packet>, acked: bool)

  function Listened(m: Machine, ear: Ear, env: Env): Ear
    requires m.prog.Some?
  {
    var es := Pass(m, env).1;
    if es != [] && es[0].Sent? then Ear(Some(es[0].packet), false)
    else if Decode(m.prog.value, m.regs).Await? && !env.ack.Pending? then ear.(acked := env.ack.Acked?)
    else ear
  }

  /** The callback of a run, and what had been sent and heard by then. */
  function CallHeard(m: Machine, ear: Ear, envs: seq<Env>): Option<(int, Ear)>
    decreases |envs|
  {
    if envs == [] || m.prog.None? then None
    else
      var (m', es, _) := Pass(m, envs[0]);
      if es != [] && es[|es| - 1].Called? then Some((es[|es| - 1].value, ear))
      else CallHeard(m', Listened(m, ear, envs[0]), envs[1..])
  }

  /** Where the program is, and what that says was last sent and heard. */
  predicate At(prog: seq<Byte>, at: nat, m: Machine, ear: Ear, cv: int) {
    && Confirming(prog) && prog != [] && prog[0] == BASELINE && at <= |prog|
    && m.start == prog && m.prog == Some(prog[at..]) && m.regs.cv == cv
    && Ready(prog, at, m.regs, ear.last, ear.acked)
  }

  lemma TurnHears(prog: seq<Byte>, at: nat, m: Machine, ear: Ear, cv: int, env: Env) returns (q: nat)
    requires At(prog, at, m, ear, cv)
    ensures var (m', es, _) := Pass(m, env);
            && (m'.prog.Some? ==> At(prog, q, m', Listened(m, ear, env), cv))
            && (es != [] && es[|es| - 1].Called? && es[|es| - 1].value >= 0 ==>
                  ear.acked && Confirmed(ear.last, cv, es[|es| - 1].value))
  {
    hide Decode, Ready, Confirming, Pass, Listened, Confirmed;
    q := at;
    if at == |prog| {
      assert prog[at..] == [];
      NothingDecoded(m.regs);
      RunOffWaits(m, ear, env);
    } else if Decode(prog[at..], m.regs).Report? {
      q := ReportHears(prog, at, m, ear, cv, env);
    } else {
      q := PlainHears(prog, at, m, ear, cv, env);
    }
  }

  lemma RunOffWaits(m: Machine, ear: Ear, env: Env)
    requires m.prog.Some? && Decode(m.prog.value, m.regs).RunOff?
    ensures Pass(m, env).0 == m && Pass(m, env).1 == [] && Listened(m, ear, env) == ear
  {
    hide Decode;
  }

  lemma PlainHears(prog: seq<Byte>, at: nat, m: Machine, ear: Ear, cv: int, env: Env) returns (q: nat)
    requires At(prog, at, m, ear, cv) && at < |prog| && !Decode(prog[at..], m.regs).Report?
    ensures var (m', es, _) := Pass(m, env);
            m'.prog.Some? && At(prog, q, m', Listened(m, ear, env), cv) && !(es != [] && es[|es| - 1].Called?)
  {
    hide Decode, Ready, Confirming, Callback;
    var a := Decode(prog[at..], m.regs);
    var heard := if a.Await? then env.ack.Acked? else ear.acked;
    AnyAck(prog, at, m.regs, ear.last, ear.acked, heard);
    q := ReadyNext(prog, at, m.regs, ear.last, heard, false);
    if Pass(m, env).0 == m { q := at; }
  }

  lemma ReportHears(prog: seq<Byte>, at: nat, m: Machine, ear: Ear, cv: int, env: Env) returns (q: nat)
    requires At(prog, at, m, ear, cv) && at < |prog| && Decode(prog[at..], m.regs).Report?
    ensures var (m', es, _) := Pass(m, env);
            && (m'.prog.Some? ==> At(prog, q, m', Listened(m, ear, env), cv))
            && (es != [] && es[|es| - 1].Called? && es[|es| - 1].value >= 0 ==>
                  ear.acked && Confirmed(ear.last, cv, es[|es| - 1].value))
  {
    hide Decode, Ready, Confirming, Confirmed;
    ReportsPlain(prog, at, m.regs);
    q := ReadyNext(prog, at, m.regs, ear.last, ear.acked, false);
    StartReady(prog, m.regs, ear.last, ear.acked);
    assert prog[0..] == prog;
    q := if Pass(m, env).1 == [Restart] then 0 else at;
  }

  lemma NothingDecoded(r: Regs)
    ensures Decode([], r).RunOff?
  {
  }

  /** While it waits for an ack, it does not matter yet what that will be. */
  lemma AnyAck(prog: seq<Byte>, at: nat, r: Regs, last: Option<Packet>, acked: bool, heard: bool)
    requires at < |prog| && Ready(prog, at, r, last, acked) && (heard != acked ==> Decode(prog[at..], r).Await?)
    ensures Ready(prog, at, r, last, heard)
  {
  }

  lemma ReportsPlain(prog: seq<Byte>, at: nat, r: Regs)
    requires Confirming(prog) && at < |prog|
    ensures var a := Decode(prog[at..], r); a.Report? ==> a.regs == r
  {
    assert prog[at..][0] == prog[at] && ConfirmsAt(prog, at);
  }

  lemma StartReady(prog: seq<Byte>, r: Regs, last: Option<Packet>, acked: bool)
    requires prog != [] && prog[0] == BASELINE
    ensures Ready(prog, 0, r, last, acked)
  {
  }

  lemma {:induction false} RunHears(prog: seq<Byte>, at: nat, m: Machine, ear: Ear, cv: int, envs: seq<Env>)
    requires At(prog, at, m, ear, cv)
    ensures var c := CallHeard(m, ear, envs);
            c.Some? && c.value.0 >= 0 ==> c.value.1.acked && Confirmed(c.value.1.last, cv, c.value.0)
    decreases |envs|
  {
    hide Pass, At, Listened;
    if envs != [] && m.prog.Some? {
      var q := TurnHears(prog, at, m, ear, cv, envs[0]);
      var m' := Pass(m, envs[0]).0;
      if m'.prog.Some? { RunHears(prog, q, m', Listened(m, ear, envs[0]), cv, envs[1..]); }
    }
  }

  /** readCV and verifyCVByte as they run, with waits and retries, whatever is acked and when: a value
      of at least 0 that is called back was confirmed. The packet sent last was a verify of that value
      in that CV, and the wait for its ack read one. */
  lemma RunsAreConfirmed(m: Machine, envs: seq<Env>)
    requires (m.start == READ_CV_PROG || m.start == VERIFY_BYTE_PROG) && m.prog == Some(m.start)
    ensures var c := CallHeard(m, Ear(None, false), envs);
            c.Some? && c.value.0 >= 0 ==> c.value.1.acked && Confirmed(c.value.1.last, m.regs.cv, c.value.0)
  {
    hide CallHeard, Confirming, READ_BIT_7, MERGE_7, Confirmed;
    BothConfirm();
    assert READ_CV_PROG[0] == BASELINE && VERIFY_BYTE_PROG[0] == BASELINE;
    assert m.start[0..] == m.start;
    StartReady(m.start, m.regs, None, false);
    RunHears(m.start, 0, m, Ear(None, false), m.regs.cv, envs);
  }
}

/**
 How long the track has power, over whole runs: after a write it is not switched off for 100 ms,
 and before a rejoin it has been off for 30 ms; whenever requests come in.
 */
module AckTiming {
  import opened Basics
  import opened AckProgram
  import opened AckMachine
  import opened AckCalls

  // ---------------------------------------------------------------- before a packet

  /** A packet goes out in just those turns that find at least 8 resets counted, the first one only after
      the resets BASELINE waits for, 20 on a track that was off or joined and else 3; and an answer is
      looked at once it is no longer pending. */
  lemma PacketsAfterResets(m: Machine, env: Env)
    requires m.prog.Some? && m.prog.value != []
    ensures var op := m.prog.value[0];
            var (m', es, _) := Pass(m, env);
            && (op == BASELINE ==>
                  && es == []
                  && (m' != m <==> !env.overload && env.resets >= if m.autoOff || m.rejoin then 20 else 3))
            && (W0 <= op <= V1 ==> ((es != [] && es[0].Sent?) <==> env.resets >= 8))
            && (es != [] && es[0].Sent? ==> W0 <= op <= V1)
            && (op == WACK ==> es == [] && (m' == m <==> env.ack.Pending?))
  {
    hide AfterTarget;
    assert |m.prog.value[1..]| < |m.prog.value|;
  }

  // ---------------------------------------------------------------- power after a write

  predicate Settled(wrote: Option<nat>, clock: nat) {
    wrote.Some? ==> wrote.value + 100 <= clock
  }

  /** Nothing that is to be switched off, or joined, afterwards. */
  predicate Quiet(m: Machine) {
    !m.autoOff && !m.rejoin
  }

  /** A program that writes nothing; or one that is before its first write, or past it. */
  predicate Kinds(m: Machine)
    requires m.prog.Some?
  {
    if AllOps(m.start, NoWrites) then AllOps(m.prog.value, NoWrites)
    else Prelude(m.prog.value) || AllOps(m.prog.value, NoBaseline)
  }

  /** Past its first write. */
  predicate Writing(m: Machine)
    requires m.prog.Some?
  {
    !AllOps(m.start, NoWrites) && AllOps(m.prog.value, NoBaseline)
  }

  /** What is known of the last write, whose time is wrote. */
  predicate Safe(m: Machine, wrote: Option<nat>, clock: nat) {
    && Sane(m, clock) && (wrote.Some? ==> wrote.value <= clock)
    && if m.prog.None? then Settled(wrote, clock) || (m.power && !m.joined)
       else
         && Kinds(m)
         && (|| Settled(wrote, clock) || Quiet(m) || Prelude(m.prog.value)
             || (m.stage == AFTER_WRITE && Writing(m))
             || (m.stage == WAITING_100 && Committed(m)))
         && (Waits(m.stage) && Committed(m) ==> Held(m, wrote, clock))
  }

  /** In the waiting stages of callback. */
  predicate Held(m: Machine, wrote: Option<nat>, clock: nat) {
    if m.stage == WAITING_100 then wrote.Some? ==> wrote.value <= m.since else Settled(wrote, clock)
  }

  function LastWrite(wrote: Option<nat>, es: seq<Event>, now: nat): Option<nat> {
    if es != [] && es[0].Sent? && es[0].packet.IsWrite() then Some(now) else wrote
  }

  /** The program goes on in its kind, and says what it can do next. */
  lemma KindTurn(m: Machine, env: Env, clock: nat)
    requires Sane(m, clock) && m.prog.Some? && Kinds(m)
    ensures var (m', es, _) := Pass(m, env);
            var a := Decode(m.prog.value, m.regs);
            && (m'.prog.Some? ==> Kinds(m'))
            && (Prelude(m.prog.value) ==> !a.Report? && m'.prog.Some?
                                          && (if a.Issue? && m' != m then a.packet.IsWrite()
                                              else Prelude(m'.prog.value)))
            && (a.Issue? && a.packet.IsWrite() && m' != m ==> Writing(m'))
            && (Writing(m) && m'.prog.Some? ==> Writing(m') || Prelude(m'.prog.value))
            && (Writing(m) ==> !a.Base?)
  {
    hide Decode, AllOps, Prelude, UnderWay, Closed, Callback;
    var code := m.prog.value;
    FitFacts(m.start);
    if Decode(code, m.regs).Report? {
      ClosedReport(m, Decode(code, m.regs).regs, Decode(code, m.regs).value, env.now);
    }
    if Prelude(code) { PreludeNext(code, m.regs); }
    if AllOps(code, NoBaseline) { NextOps(code, m.regs, NoBaseline); }
    if AllOps(code, NoWrites) { NextOps(code, m.regs, NoWrites); }
  }

  lemma ClosedReport(m: Machine, r: Regs, v: int, now: nat)
    requires m.prog.Some?
    ensures var (m', es) := Callback(m.(regs := r), v, now);
            m'.start == m.start && (m'.prog.Some? ==> m'.prog == m.prog || m'.prog == Some(m.start))
  {
  }

  lemma FitFacts(prog: seq<Byte>)
    requires Fit(prog)
    ensures prog != [] && (!AllOps(prog, NoWrites) ==> Prelude(prog))
  {
  }
  lemma SafeTurn(m: Machine, wrote: Option<nat>, clock: nat, env: Env)
    requires Safe(m, wrote, clock) && m.prog.Some? && clock <= env.now
    ensures var (m', es, _) := Pass(m, env);
            && Safe(m', LastWrite(wrote, es, env.now), env.now)
            && (wrote.Some? && Power(false) in es ==> wrote.value + 100 <= env.now)
            && (|es| > 1 ==> forall e :: e in es ==> !e.Sent?)
  {
    hide Decode, AllOps, Prelude, Closed, Sane, Fit, UnderWay, Unbegun, Kinds, Writing, Committed;
    TurnKeeps(m, env, clock);
    SaneFacts(m, clock);
    assert UnderWay(m) by { SaneOn(m, clock); }
    KindTurn(m, env, clock);
    PassCounts(m, env);
    ReportAgain(m.prog.value, m.regs);
    CommittedIs(m);
    CommittedIs(Pass(m, env).0);
  }

  lemma SaneFacts(m: Machine, clock: nat)
    requires Sane(m, clock) && m.prog.Some?
    ensures !m.joined && (Begun(m) || (m.power && Decode(m.prog.value, m.regs).Base?))
    ensures (Waits(m.stage) ==> m.since <= clock)
  {
    hide Fit, Closed, Decode;
    if Unbegun(m) { BaseFirst(m.start, m.regs); }
  }

  lemma SaneOn(m: Machine, clock: nat)
    requires Sane(m, clock) && m.prog.Some?
    ensures UnderWay(m)
  {
  }

  lemma CommittedIs(m: Machine)
    ensures m.prog.Some? ==>
              (Committed(m) <==>
               var a := Decode(m.prog.value, m.regs); a.Report? && a.regs == m.regs && (a.value != -1 || m.retry == 0))
  {
  }

  lemma SafeRequest(m: Machine, wrote: Option<nat>, clock: nat, a: Act)
    requires Safe(m, wrote, clock) && a.Request? && a.Proper()
    ensures Safe(Reply(m, a).m, wrote, clock)
  {
    hide AllOps, Prelude, Closed, Setup, Decode, Sane;
    if m.prog.Some? {
      SaneFacts(m, clock);
      CommittedIs(m);
    }
    if a.Accepted() {
      AcceptedKeeps(m, a, clock);
      FitFacts(a.program);
      FitIsClosed(a.program);
      BaseFirst(a.program, Reply(m, a).m.regs);
    } else {
      RefusedKeeps(m, a, clock);
      assert m.prog.Some? ==> Kinds(Reply(m, a).m) == Kinds(m) && Writing(Reply(m, a).m) == Writing(m);
    }
    if Reply(m, a).m.prog.Some? { CommittedIs(Reply(m, a).m); }
  }

  predicate IsWrite(n: Note) {
    n.Did? && n.event.Sent? && n.event.packet.IsWrite()
  }

  predicate IsOff(n: Note) {
    n.Did? && n.event == Power(false)
  }

  /** No power-off less than 100 ms after a write that went before it, whoever's they are. */
  predicate WritesSettle(notes: seq<Note>) {
    forall i, j :: 0 <= i < j < |notes| && IsWrite(notes[i]) && IsOff(notes[j]) ==> notes[i].at + 100 <= notes[j].at
  }

  /** Nor less than 100 ms after wrote. */
  predicate OffsAfter(wrote: Option<nat>, notes: seq<Note>) {
    wrote.Some? ==> forall j :: 0 <= j < |notes| && IsOff(notes[j]) ==> wrote.value + 100 <= notes[j].at
  }

  lemma {:induction false} WritesAreSafe(l: Line, wrote: Option<nat>, clock: nat, acts: seq<Act>)
    requires Safe(l.m, wrote, clock) && AllProper(acts) && Monotone(acts, clock)
    ensures WritesSettle(Go(l, acts).1) && OffsAfter(wrote, Go(l, acts).1)
    decreases |acts|
  {
    hide Pass, Safe, Setup, Act.Proper;
    if acts != [] {
      var a := acts[0];
      var (l1, head) := Step(l, a);
      var tail := Go(l1, acts[1..]).1;
      assert AllProper(acts[1..]);
      match a {
        case Turn(env) =>
          if l.m.prog.None? {
            IdleSafe(l.m, wrote, clock, env.now);
            WritesAreSafe(l1, wrote, env.now, acts[1..]);
            assert head + tail == tail;
          } else {
            SafeTurn(l.m, wrote, clock, env);
            var es := Pass(l.m, env).1;
            var wrote1 := LastWrite(wrote, es, env.now);
            WritesAreSafe(l1, wrote1, env.now, acts[1..]);
            SafeClock(l.m, wrote, clock);
            SettleJoins(head, tail, wrote, wrote1, env.now);
          }
        case Request(_, _, _, _, _, _, _) =>
          SafeRequest(l.m, wrote, clock, a);
          WritesAreSafe(l1, wrote, clock, acts[1..]);
      }
    }
  }

  lemma IdleSafe(m: Machine, wrote: Option<nat>, clock: nat, later: nat)
    requires Safe(m, wrote, clock) && m.prog.None? && clock <= later
    ensures Safe(m, wrote, later)
  {
  }

  lemma SafeClock(m: Machine, wrote: Option<nat>, clock: nat)
    requires Safe(m, wrote, clock)
    ensures wrote.Some? ==> wrote.value <= clock
  {
  }

  lemma SettleJoins(head: seq<Note>, tail: seq<Note>, wrote: Option<nat>, wrote1: Option<nat>, now: nat)
    requires forall i :: 0 <= i < |head| ==> head[i].Did? && head[i].at == now
    requires forall i :: 0 <= i < |head| && head[i].event.Sent? ==> |head| == 1
    requires forall i :: 0 <= i < |head| && IsWrite(head[i]) ==> wrote1 == Some(now)
    requires wrote.Some? ==> wrote1.Some? && wrote.value <= wrote1.value
    requires WritesSettle(tail) && OffsAfter(wrote1, tail) && OffsAfter(wrote, head)
    ensures WritesSettle(head + tail) && OffsAfter(wrote, head + tail)
  {
  }

  // ---------------------------------------------------------------- the gap before a rejoin

  /** For this request the track was off for 30 ms and is on again. */
  predicate Gapped(past: seq<Note>, who: nat) {
    exists i, j :: 0 <= i < j < |past| && past[i].Did? && past[j].Did? && past[i].who == past[j].who == who
      && past[i].event == Power(false) && past[j].event == Power(true) && past[i].at + 30 <= past[j].at
  }

  /** While this request's program is under way, on a track that is to stay on. */
  predicate GapSafe(l: Line, past: seq<Note>, who: nat) {
    l.m.prog.Some? && l.owner == who ==>
      && !l.m.autoOff
      && (l.m.stage == WAITING_30 && Committed(l.m) ==> Did(who, l.m.since, Power(false)) in past)
      && (l.m.stage == READY && l.m.rejoin ==> Gapped(past, who) || l.m.prog == Some(l.m.start))
  }

  lemma GapTurn(l: Line, past: seq<Note>, who: nat, env: Env, clock: nat)
    requires GapSafe(l, past, who) && LineOk(l, clock) && clock <= env.now && l.m.prog.Some?
    ensures var (l1, notes) := Step(l, Turn(env));
            && GapSafe(l1, past + notes, who)
            && (l.owner == who && Did(who, env.now, Rejoin) in notes ==> Gapped(past, who) && |notes| <= 2)
  {
    hide Decode, Committed, Gapped, Closed, Fit, AllOps, UnderWay;
    var m := l.m;
    SaneFacts(m, clock);
    assert UnderWay(m) by { SaneOn(m, clock); }
    PassCounts(m, env);
    ReportAgain(m.prog.value, m.regs);
    CommittedIs(m);
    var (m', es, _) := Pass(m, env);
    CommittedIs(m');
    var notes := Tagged(l.owner, env.now, es);
    var now := past + notes;
    if l.owner == who {
      if Gapped(past, who) { GapStays(past, notes, who); }
      StartsWithBase(m, clock);
      if es == [Power(false)] { assert now[|past|] == Did(who, env.now, Power(false)); }
      if es == [Power(true)] {
        var i :| 0 <= i < |past| && past[i] == Did(who, m.since, Power(false));
        GapMade(now, i, |past|, who);
      }
    }
  }

  lemma StartsWithBase(m: Machine, clock: nat)
    requires Sane(m, clock) && m.prog.Some?
    ensures forall r :: Decode(m.start, r).Base?
  {
    hide Decode;
    FitIsClosed(m.start);
    forall r ensures Decode(m.start, r).Base? { BaseFirst(m.start, r); }
  }

  lemma GapMade(past: seq<Note>, i: nat, j: nat, who: nat)
    requires i < j < |past| && past[i].Did? && past[j].Did? && past[i].who == past[j].who == who
    requires past[i].event == Power(false) && past[j].event == Power(true) && past[i].at + 30 <= past[j].at
    ensures Gapped(past, who)
  {
  }

  lemma GapStays(past: seq<Note>, more: seq<Note>, who: nat)
    requires Gapped(past, who)
    ensures Gapped(past + more, who)
  {
    var i, j :| 0 <= i < j < |past| && past[i].Did? && past[j].Did? && past[i].who == past[j].who == who
      && past[i].event == Power(false) && past[j].event == Power(true) && past[i].at + 30 <= past[j].at;
    GapMade(past + more, i, j, who);
  }

  predicate IsRejoin(n: Note, who: nat) {
    n.Did? && n.who == who && n.event == Rejoin
  }

  /** A rejoin for this request comes after the gap. */
  predicate RejoinsGapped(past: seq<Note>, notes: seq<Note>, who: nat) {
    forall k :: 0 <= k < |notes| && IsRejoin(notes[k], who) ==> Gapped(past + notes[..k], who)
  }

  lemma GapsJoin(past: seq<Note>, head: seq<Note>, tail: seq<Note>, who: nat)
    requires forall k :: 0 <= k < |head| && IsRejoin(head[k], who) ==> Gapped(past, who)
    requires RejoinsGapped(past + head, tail, who)
    ensures RejoinsGapped(past, head + tail, who)
  {
    hide Gapped;
    var all := head + tail;
    forall k | 0 <= k < |all| && IsRejoin(all[k], who)
      ensures Gapped(past + all[..k], who)
    {
      if k < |head| {
        GapStays(past, all[..k], who);
      } else {
        var j := k - |head|;
        assert tail[j].event == Rejoin;
        assert past + all[..k] == (past + head) + tail[..j];
      }
    }
  }

  lemma {:induction false} RejoinsAfterGap(l: Line, past: seq<Note>, who: nat, acts: seq<Act>, clock: nat)
    requires GapSafe(l, past, who) && LineOk(l, clock) && who < l.asked && AllProper(acts) && Monotone(acts, clock)
    ensures RejoinsGapped(past, Go(l, acts).1, who)
    decreases |acts|
  {
    hide Pass, Setup, GapSafe, Gapped, RejoinsGapped, LineOk, Act.Proper;
    if acts == [] {
      NothingGapped(past, who);
    } else {
      var a := acts[0];
      var (l1, head) := Step(l, a);
      StepKeeps(l, a, clock);
      assert AllProper(acts[1..]);
      match a {
        case Turn(env) =>
          if l.m.prog.Some? { GapTurn(l, past, who, env, clock); } else { assert past + [] == past; }
        case Request(_, _, _, _, _, _, _) => GapRequest(l, past, who, a, clock);
      }
      RejoinsAfterGap(l1, past + head, who, acts[1..], Clock(a, clock));
      GapsJoin(past, head, Go(l1, acts[1..]).1, who);
    }
  }

  lemma NothingGapped(past: seq<Note>, who: nat)
    ensures RejoinsGapped(past, [], who)
  {
  }

  lemma GapRequest(l: Line, past: seq<Note>, who: nat, a: Act, clock: nat)
    requires GapSafe(l, past, who) && LineOk(l, clock) && who < l.asked && a.Request? && a.Proper()
    ensures var (l1, notes) := Step(l, a);
            GapSafe(l1, past + notes, who) && forall k :: 0 <= k < |notes| ==> !notes[k].Did?
  {
    hide Setup, Closed, Fit, Sane, Committed, Gapped;
    LineIs(l, clock);
    if a.Accepted() {
      AcceptedTells(l, a, clock);
    } else {
      RefusedKeeps(l.m, a, clock);
    }
  }

  // ---------------------------------------------------------------- from the start on

  /** What holds of every state that can be reached, whoever asked for what and when. */
  predicate Known(l: Line, clock: nat) {
    LineOk(l, clock) && Safe(l.m, None, clock)
  }

  lemma StartIsKnown(m: Machine)
    requires m.prog.None? && m.stage == READY
    ensures Known(Line(m, 0, 0), 0)
  {
  }

  lemma {:induction false} ReachedIsKnown(l: Line, acts: seq<Act>, clock: nat)
    requires Known(l, clock) && AllProper(acts) && Monotone(acts, clock)
    ensures Known(Go(l, acts).0, End(acts, clock))
    decreases |acts|
  {
    hide Pass, Setup, LineOk, Safe, Act.Proper;
    if acts != [] {
      var a := acts[0];
      StepKeeps(l, a, clock);
      match a {
        case Turn(env) =>
          if l.m.prog.None? {
            IdleSafe(l.m, None, clock, env.now);
          } else {
            SafeTurn(l.m, None, clock, env);
            ForgetWrite(Pass(l.m, env).0, LastWrite(None, Pass(l.m, env).1, env.now), env.now);
          }
        case Request(_, _, _, _, _, _, _) => SafeRequest(l.m, None, clock, a);
      }
      assert AllProper(acts[1..]);
      ReachedIsKnown(Step(l, a).0, acts[1..], Clock(a, clock));
    }
  }

  lemma ForgetWrite(m: Machine, wrote: Option<nat>, clock: nat)
    requires Safe(m, wrote, clock)
    ensures Safe(m, None, clock)
  {
    hide Sane, Kinds, Committed;
  }

  /** From an accepted Setup on, whatever is asked later: every power-off is 100 ms clear of the
      writes before it, and when the track was found on, its rejoin comes after a 30 ms gap. */
  lemma SetupIsTimely(l: Line, a: Act, acts: seq<Act>, clock: nat)
    requires Known(l, clock) && a.Accepted() && a.Proper() && AllProper(acts) && Monotone(acts, clock)
    ensures var notes := Go(Step(l, a).0, acts).1;
            && WritesSettle(notes)
            && (l.m.power ==>
                  forall k :: 0 <= k < |notes| && IsRejoin(notes[k], l.asked) ==>
                                Gapped(notes[..k], l.asked))
  {
    hide Go, LineOk, Safe, AllOps, Prelude, Gapped, Decode, Pass, Setup, Monotone;
    var l1 := Step(l, a).0;
    StepKeeps(l, a, clock);
    LineIs(l, clock);
    AcceptedTells(l, a, clock);
    SafeRequest(l.m, None, clock, a);
    WritesAreSafe(l1, None, clock, acts);
    if l.m.power {
      FreshGap(l1, a, l.asked);
      RejoinsAfterGap(l1, [], l.asked, acts, clock);
      var notes := Go(l1, acts).1;
      forall k | 0 <= k < |notes| && IsRejoin(notes[k], l.asked)
        ensures Gapped(notes[..k], l.asked)
      {
        assert [] + notes[..k] == notes[..k];
      }
    }
  }

  lemma FreshGap(l: Line, a: Act, who: nat)
    requires a.Request? && Fit(a.program)
    requires l.m.prog == Some(a.program) && l.m.start == a.program && !l.m.autoOff
    ensures GapSafe(l, [], who)
  {
    hide Decode;
    FitIsClosed(a.program);
    BaseFirst(a.program, l.m.regs);
  }
}

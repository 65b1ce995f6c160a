/**
 Setup at any time: the ack manager's runs with requests coming in between its turns, also while a
 program is under way, for which Setup does not look. Who gets the callback, and how the track is
 left.
 */
module AckCalls {
  import opened Basics
  import opened AckProgram
  import opened AckMachine

  /** A turn of loop, or a call of Setup; the one that takes a word comes with one. */
  datatype Act =
    | Turn(env: Env)
    | Request(hasDriver: bool, measures: bool, word: Option<int>, cv: int, byteOrBit: Byte, program: seq<Byte>,
              ackRetry: nat)
  {
    predicate Accepted() { Request? && hasDriver && measures }
    predicate Proper() { Request? ==> Fit(program) }
  }

  /** What happens, and for which request: a program's doings, a request taken on a track found so,
      or turned away with a value. */
  datatype Note =
    | Did(who: nat, at: nat, event: Event)
    | Took(who: nat, power: bool, joined: bool)
    | Turned(who: nat, value: int)

  /** owner is the request whose callback is kept, asked how many there were. */
  datatype Line = Line(m: Machine, owner: nat, asked: nat)

  function Tagged(who: nat, now: nat, es: seq<Event>): (r: seq<Note>)
    ensures |r| == |es| && forall i :: 0 <= i < |r| ==> r[i] == Did(who, now, es[i])
  {
    seq(|es|, i requires 0 <= i < |es| => Did(who, now, es[i]))
  }

  function Reply(m: Machine, a: Act): Answered
    requires a.Request?
  {
    var was := if a.word.Some? then m.(regs := m.regs.(word := a.word.value)) else m;
    Setup(was, Track(a.hasDriver, a.measures, m.power, m.joined), a.cv, a.byteOrBit, a.program, a.ackRetry)
  }

  function Step(l: Line, a: Act): (Line, seq<Note>) {
    match a
    case Turn(env) =>
      if l.m.prog.None? then (l, [])
      else
        var (m, es, _) := Pass(l.m, env);
        (l.(m := m), Tagged(l.owner, env.now, es))
    case Request(_, _, _, _, _, _, _) =>
      match Reply(l.m, a)
      case Refused(v, m) => (Line(m, l.owner, l.asked + 1), [Turned(l.asked, v)])
      case Started(m) => (Line(m, l.asked, l.asked + 1), [Took(l.asked, l.m.power, l.m.joined)])
  }

  function Go(l: Line, acts: seq<Act>): (Line, seq<Note>)
    decreases |acts|
  {
    if acts == [] then (l, [])
    else
      var (l1, notes) := Step(l, acts[0]);
      var (l2, rest) := Go(l1, acts[1..]);
      (l2, notes + rest)
  }

  function Turns(envs: seq<Env>): (acts: seq<Act>)
    ensures |acts| == |envs| && forall i :: 0 <= i < |acts| ==> acts[i] == Turn(envs[i])
  {
    seq(|envs|, i requires 0 <= i < |envs| => Turn(envs[i]))
  }

  /** The machine is idle after the last of these, and not before. */
  predicate Until(l: Line, acts: seq<Act>)
    decreases |acts|
  {
    if l.m.prog.None? then acts == [] else acts != [] && Until(Step(l, acts[0]).0, acts[1..])
  }

  predicate AllProper(acts: seq<Act>) {
    forall i :: 0 <= i < |acts| ==> acts[i].Proper()
  }

  predicate NoneAccepted(acts: seq<Act>) {
    forall i :: 0 <= i < |acts| ==> !acts[i].Accepted()
  }

  predicate NoneAsked(acts: seq<Act>) {
    forall i :: 0 <= i < |acts| ==> !acts[i].Request?
  }

  /** Turns read a clock that does not run backwards. */
  predicate Monotone(acts: seq<Act>, clock: nat)
    decreases |acts|
  {
    acts == [] || (clock <= Clock(acts[0], clock) && Monotone(acts[1..], Clock(acts[0], clock)))
  }

  function Clock(a: Act, clock: nat): nat {
    if a.Turn? then a.env.now else clock
  }

  // ---------------------------------------------------------------- every state there is

  predicate Sane(m: Machine, clock: nat) {
    if m.prog.None? then m.stage == READY
    else UnderWay(m) && Fit(m.start) && Closed(m.prog.value) && (Waits(m.stage) ==> m.since <= clock)
  }

  predicate LineOk(l: Line, clock: nat) {
    Sane(l.m, clock) && (l.m.prog.Some? ==> l.owner < l.asked)
  }

  lemma TurnKeeps(m: Machine, env: Env, clock: nat)
    requires Sane(m, clock) && m.prog.Some? && clock <= env.now
    ensures Sane(Pass(m, env).0, env.now)
  {
    hide Closed, AfterTarget, Committed, Fit, Unbegun, Begun, AllOps;
    PassCounts(m, env);
    FitIsClosed(m.start);
    PassDecreases(m, env);
  }

  lemma FitIsClosed(prog: seq<Byte>)
    requires Fit(prog)
    ensures Closed(prog) && prog != [] && prog[0] == BASELINE
  {
  }

  /** The word counts only where a byte of it is taken. */
  lemma WordApart(m: Machine, w: int)
    requires m.prog.Some?
    ensures Committed(m.(regs := m.regs.(word := w))) <==> Committed(m)
  {
    hide AfterTarget;
  }

  /** A request turned away changes only what is to be joined again. */
  lemma RefusedKeeps(m: Machine, a: Act, clock: nat)
    requires Sane(m, clock) && a.Request? && !a.Accepted()
    ensures var r := Reply(m, a);
            && r.Refused? && Sane(r.m, clock) && r.m.prog == m.prog && r.m.start == m.start && r.m.retry == m.retry
            && r.m.autoOff == m.autoOff && r.m.power == m.power && r.m.stage == m.stage && r.m.since == m.since
            && r.m.rejoin == m.joined && (!m.joined ==> !r.m.joined)
            && (m.prog.Some? ==> !m.joined && (Committed(r.m) <==> Committed(m)))
  {
    hide Decode, Fit, Closed;
    if m.prog.Some? {
      if a.word.Some? { WordApart(m, a.word.value); }
      SameCommitted(m.(regs := Reply(m, a).m.regs), Reply(m, a).m);
    }
  }

  lemma SameCommitted(m: Machine, m': Machine)
    requires m.prog.Some? && m'.prog == m.prog && m'.regs == m.regs && m'.retry == m.retry
    ensures Committed(m) <==> Committed(m')
  {
    hide Decode;
  }

  lemma AcceptedKeeps(m: Machine, a: Act, clock: nat)
    requires Sane(m, clock) && a.Accepted() && a.Proper()
    ensures var r := Reply(m, a);
            && r.Started? && r.m.prog == Some(a.program) && r.m.start == a.program && r.m.retry == a.ackRetry
            && Unbegun(r.m) && !r.m.joined && r.m.autoOff == !m.power && r.m.rejoin == m.joined
            && r.m.stage == m.stage && r.m.since == m.since && Sane(r.m, clock)
  {
    hide Committed, AllOps;
    FitIsClosed(a.program);
  }

  lemma StepKeeps(l: Line, a: Act, clock: nat)
    requires LineOk(l, clock) && a.Proper() && clock <= Clock(a, clock)
    ensures var l1 := Step(l, a).0;
            LineOk(l1, Clock(a, clock)) && l.asked <= l1.asked && (l1.m.prog.Some? ==> l1.owner < l1.asked)
  {
    hide Pass, Setup, Sane, Reply, Fit;
    if l.m.prog.None? { SaneIdle(l.m, clock); }
    match a {
      case Turn(env) => if l.m.prog.Some? { TurnKeeps(l.m, env, clock); }
      case Request(_, _, _, _, _, _, _) =>
        if a.Accepted() { AcceptedKeeps(l.m, a, clock); } else { RefusedKeeps(l.m, a, clock); }
    }
  }

  lemma SaneIdle(m: Machine, clock: nat)
    requires Sane(m, clock) && m.prog.None?
    ensures forall later :: Sane(m, later)
  {
  }

  /** The clock after all of these. */
  function End(acts: seq<Act>, clock: nat): nat
    decreases |acts|
  {
    if acts == [] then clock else End(acts[1..], Clock(acts[0], clock))
  }

  /** Every state that can be reached, with requests at any time. */
  lemma {:induction false} GoKeeps(l: Line, acts: seq<Act>, clock: nat)
    requires LineOk(l, clock) && AllProper(acts) && Monotone(acts, clock)
    ensures clock <= End(acts, clock) && LineOk(Go(l, acts).0, End(acts, clock))
    decreases |acts|
  {
    hide Step, LineOk, Act.Proper;
    if acts != [] {
      StepKeeps(l, acts[0], clock);
      assert AllProper(acts[1..]);
      GoKeeps(Step(l, acts[0]).0, acts[1..], Clock(acts[0], clock));
    }
  }

  /** From the start on: nothing asked yet, whatever the track is like. */
  lemma StartIsOk(m: Machine)
    requires m.prog.None? && m.stage == READY
    ensures LineOk(Line(m, 0, 0), 0)
  {
  }

  // ---------------------------------------------------------------- who is called back

  predicate IsCall(n: Note, who: nat) {
    n.Did? && n.who == who && n.event.Called?
  }

  predicate NeverCalled(notes: seq<Note>, who: nat) {
    forall i :: 0 <= i < |notes| ==> !IsCall(notes[i], who)
  }

  predicate CalledOnce(notes: seq<Note>, who: nat) {
    exists i :: 0 <= i < |notes| && IsCall(notes[i], who)
      && NeverCalled(notes[..i], who) && NeverCalled(notes[i + 1..], who)
  }

  function Restarts(notes: seq<Note>): nat {
    if notes == [] then 0
    else (if notes[0].Did? && notes[0].event.Restart? then 1 else 0) + Restarts(notes[1..])
  }

  lemma {:induction false} RestartsAdd(a: seq<Note>, b: seq<Note>)
    ensures Restarts(a + b) == Restarts(a) + Restarts(b)
  {
    if a == [] {
      assert a + b == b;
    } else {
      RestartsAdd(a[1..], b);
      assert (a + b)[1..] == a[1..] + b;
    }
  }

  lemma NeverJoins(a: seq<Note>, b: seq<Note>, who: nat)
    ensures NeverCalled(a, who) && NeverCalled(b, who) ==> NeverCalled(a + b, who)
    ensures NeverCalled(a, who) && CalledOnce(b, who) ==> CalledOnce(a + b, who)
  {
    var all := a + b;
    if NeverCalled(a, who) && CalledOnce(b, who) {
      var i :| 0 <= i < |b| && IsCall(b[i], who) && NeverCalled(b[..i], who) && NeverCalled(b[i + 1..], who);
      var k := |a| + i;
      assert all[k] == b[i] && all[..k] == a + b[..i] && all[k + 1..] == b[i + 1..];
    }
  }

  /** A request that is not, or no longer, the one to be called back, never is again. */
  lemma {:induction false} NotAgain(l: Line, acts: seq<Act>, who: nat)
    requires who < l.asked && (l.m.prog.None? || l.owner != who)
    ensures NeverCalled(Go(l, acts).1, who)
    decreases |acts|
  {
    hide Pass, Setup;
    if acts != [] {
      var (l1, notes) := Step(l, acts[0]);
      assert NeverCalled(notes, who);
      if acts[0].Request? { RefusedOrNot(l.m, acts[0]); }
      NotAgain(l1, acts[1..], who);
      NeverJoins(notes, Go(l1, acts[1..]).1, who);
    }
  }

  lemma RefusedOrNot(m: Machine, a: Act)
    requires a.Request?
    ensures Reply(m, a).Refused? <==> !a.Accepted()
    ensures Reply(m, a).Refused? ==> Reply(m, a).m.prog == m.prog
  {
  }

  /** A turn of a program that is under way: called back, and the track restored, or still under way. */
  lemma TurnTells(l: Line, env: Env, clock: nat)
    requires LineOk(l, clock) && l.m.prog.Some? && clock <= env.now
    ensures var (l1, notes) := Step(l, Turn(env));
            && l1.owner == l.owner && l1.asked == l.asked && l1.m.rejoin == l.m.rejoin && l1.m.autoOff == l.m.autoOff
            && Restarts(notes) + l1.m.retry == l.m.retry
            && (if l1.m.prog.Some? then NeverCalled(notes, l.owner) else CalledOnce(notes, l.owner) && Restored(l1.m))
  {
    hide Pass, UnderWay, Closed, Fit;
    PassCounts(l.m, env);
    var (m, es, _) := Pass(l.m, env);
    var notes := Tagged(l.owner, env.now, es);
    if Restart in es {
      assert notes == [Did(l.owner, env.now, Restart)];
      assert Restarts(notes) == 1 by { assert notes[1..] == []; }
    } else {
      NoRestarts(notes);
    }
    if m.prog.None? { assert IsCall(notes[|es| - 1], l.owner); }
  }

  lemma {:induction false} NoRestarts(notes: seq<Note>)
    requires forall i :: 0 <= i < |notes| ==> notes[i].Did? ==> notes[i].event != Restart
    ensures Restarts(notes) == 0
  {
    if notes != [] { NoRestarts(notes[1..]); }
  }

  /** A run in which no further request is accepted: one callback, at most as many restarts as there
      were retries, power as found, and joined as found unless a request was turned away. */
  lemma {:induction false} OwnRun(l: Line, acts: seq<Act>, clock: nat)
    requires LineOk(l, clock) && l.m.prog.Some? && AllProper(acts) && Monotone(acts, clock)
    requires Until(l, acts) && NoneAccepted(acts)
    ensures var (l', notes) := Go(l, acts);
            && CalledOnce(notes, l.owner) && Restarts(notes) <= l.m.retry
            && l'.m.power == !l.m.autoOff && l'.m.joined == (l.m.rejoin && NoneAsked(acts))
    decreases |acts|
  {
    hide Step, LineOk, Restored, Act.Proper, CalledOnce, NeverCalled;
    var a := acts[0];
    var (l1, notes) := Step(l, a);
    StepKeeps(l, a, clock);
    assert AllProper(acts[1..]) && NoneAccepted(acts[1..]);
    var (l', rest) := Go(l1, acts[1..]);
    match a {
      case Turn(env) => TurnTells(l, env, clock);
      case Request(_, _, _, _, _, _, _) => RequestTells(l, a, clock);
    }
    if l1.m.prog.Some? {
      OwnRun(l1, acts[1..], Clock(a, clock));
      NeverJoins(notes, rest, l.owner);
      RestartsAdd(notes, rest);
      assert NoneAsked(acts) == (!a.Request? && NoneAsked(acts[1..])) by { AskedFirst(acts); }
    } else {
      assert acts[1..] == [] && notes + [] == notes;
      AskedFirst(acts);
      RestoredIs(l1.m);
    }
  }

  lemma AskedFirst(acts: seq<Act>)
    requires acts != []
    ensures NoneAsked(acts) <==> !acts[0].Request? && NoneAsked(acts[1..])
  {
  }

  lemma RestoredIs(m: Machine)
    requires Restored(m)
    ensures m.power == !m.autoOff && m.joined == m.rejoin
  {
  }

  /** A request turned away in the middle of a run. */
  lemma RequestTells(l: Line, a: Act, clock: nat)
    requires LineOk(l, clock) && l.m.prog.Some? && a.Request? && !a.Accepted()
    ensures var (l1, notes) := Step(l, a);
            && l1.owner == l.owner && l1.m.prog.Some? && !l1.m.rejoin && l1.m.autoOff == l.m.autoOff
            && l1.m.retry == l.m.retry && Restarts(notes) == 0 && NeverCalled(notes, l.owner)
  {
    hide Setup;
    RefusedKeeps(l.m, a, clock);
    NoRestarts(Step(l, a).1);
    assert !l.m.joined;
  }

  /** A run in which a further request is accepted: the first one is never called back. */
  lemma {:induction false} Overtaken(l: Line, acts: seq<Act>, clock: nat)
    requires LineOk(l, clock) && l.m.prog.Some? && AllProper(acts) && Monotone(acts, clock)
    requires Until(l, acts) && !NoneAccepted(acts)
    ensures NeverCalled(Go(l, acts).1, l.owner)
    decreases |acts|
  {
    hide Step, LineOk, Restored, Act.Proper, CalledOnce;
    LineIs(l, clock);
    var a := acts[0];
    var (l1, notes) := Step(l, a);
    StepKeeps(l, a, clock);
    assert AllProper(acts[1..]);
    if a.Accepted() {
      AcceptedTells(l, a, clock);
      NotAgain(l1, acts[1..], l.owner);
    } else {
      assert !NoneAccepted(acts[1..]);
      match a {
        case Turn(env) => TurnTells(l, env, clock);
        case Request(_, _, _, _, _, _, _) => RequestTells(l, a, clock);
      }
      Overtaken(l1, acts[1..], Clock(a, clock));
    }
    NeverJoins(notes, Go(l1, acts[1..]).1, l.owner);
  }

  lemma AcceptedTells(l: Line, a: Act, clock: nat)
    requires Sane(l.m, clock) && a.Accepted() && a.Proper()
    ensures var (l1, notes) := Step(l, a);
            && l1.owner == l.asked && l1.asked == l.asked + 1 && l1.m.prog.Some? && l1.m.autoOff == !l.m.power
            && l1.m.rejoin == l.m.joined && l1.m.retry == a.ackRetry && notes == [Took(l.asked, l.m.power, l.m.joined)]
            && l1.m.prog == Some(a.program) && l1.m.start == a.program && l1.m.stage == l.m.stage
  {
    hide Setup, Sane;
    AcceptedKeeps(l.m, a, clock);
  }

  /** An accepted Setup, at any time: by the end of its run it was called back exactly once, and the
      track has the power and the join state it was found with, if and only if no further request was
      accepted before that, and none turned away either if the track was found joined. And after
      that it is never called back again. */
  lemma SetupIsServed(l: Line, a: Act, acts: seq<Act>, more: seq<Act>, clock: nat)
    requires LineOk(l, clock) && a.Accepted() && a.Proper() && AllProper(acts) && Monotone(acts, clock)
    requires Until(Step(l, a).0, acts)
    ensures var (l', notes) := Go(Step(l, a).0, acts);
            && (CalledOnce(notes, l.asked) && l'.m.power == l.m.power && l'.m.joined == l.m.joined
                <==> NoneAccepted(acts) && (l.m.joined ==> NoneAsked(acts)))
            && (CalledOnce(notes, l.asked) <==> NoneAccepted(acts))
            && (CalledOnce(notes, l.asked) || NeverCalled(notes, l.asked))
            && (NoneAccepted(acts) ==> Restarts(notes) <= a.ackRetry)
            && NeverCalled(Go(l', more).1, l.asked)
  {
    hide Step, Go, LineOk, Until, NoneAsked, NoneAccepted, AllProper, Monotone, Act.Proper;
    assert Sane(l.m, clock) by { LineIs(l, clock); }
    var l1 := Step(l, a).0;
    AcceptedTells(l, a, clock);
    StepKeeps(l, a, clock);
    var (l', notes) := Go(l1, acts);
    if NoneAccepted(acts) {
      OwnRun(l1, acts, clock);
    } else {
      Overtaken(l1, acts, clock);
    }
    UntilIdle(l1, acts);
    NotAgain(l', more, l.asked);
  }

  lemma LineIs(l: Line, clock: nat)
    requires LineOk(l, clock)
    ensures Sane(l.m, clock) && (l.m.prog.Some? ==> l.owner < l.asked)
  {
  }

  lemma {:induction false} UntilIdle(l: Line, acts: seq<Act>)
    requires Until(l, acts)
    ensures Go(l, acts).0.m.prog.None? && l.asked <= Go(l, acts).0.asked
    decreases |acts|
  {
    hide Pass, Setup;
    if acts != [] { UntilIdle(Step(l, acts[0]).0, acts[1..]); }
  }

  // ---------------------------------------------------------------- a fair track

  /** How many turns are fair, each at least 100 ms after the last one counted; what comes between
      does not matter. */
  function FairTurns(acts: seq<Act>, base: nat): nat
    decreases |acts|
  {
    if acts == [] then 0
    else if acts[0].Turn? && Fair(acts[0].env, base) then 1 + FairTurns(acts[1..], acts[0].env.now)
    else FairTurns(acts[1..], base)
  }

  /** One more fair turn is needed when a callback stage began since the last one counted. */
  function Left(m: Machine, base: nat): nat {
    Measure(m) + if m.prog.Some? && Waits(m.stage) && m.since > base then 1 else 0
  }

  lemma TurnLeaves(m: Machine, env: Env, clock: nat, base: nat)
    requires Sane(m, clock) && m.prog.Some? && base <= clock <= env.now
    ensures var m1 := Pass(m, env).0;
            && Left(m1, base) <= Left(m, base)
            && (Fair(env, base) ==> Left(m1, env.now) < Left(m, base))
  {
    hide Closed, AfterTarget, UnderWay, Fit;
    FitIsClosed(m.start);
    PassDecreases(m, env);
    if Blocked(m, env) { BlockedMeasure(m, env); }
    if Fair(env, base) && (Waits(m.stage) ==> m.since <= base) { FairMoves(m, env, base); }
    SinceWhen(m, env);
    hide Measure;
  }

  /** A stage begins with the turn that enters it. */
  lemma SinceWhen(m: Machine, env: Env)
    requires m.prog.Some?
    ensures var m1 := Pass(m, env).0; m1.since == m.since || m1.since == env.now
    ensures Blocked(m, env) ==> Pass(m, env).0.since == m.since
  {
    hide Decode;
  }

  lemma RefusedLeaves(m: Machine, a: Act, clock: nat, base: nat)
    requires Sane(m, clock) && a.Request? && !a.Accepted()
    ensures Left(Reply(m, a).m, base) == Left(m, base)
  {
    hide Sane, Setup;
    RefusedKeeps(m, a, clock);
  }

  /** On a fair track a run ends: after as many fair turns as there is left to do, unless another
      request is accepted first. */
  lemma {:induction false} FairEnds(l: Line, acts: seq<Act>, clock: nat, base: nat)
    requires LineOk(l, clock) && base <= clock && AllProper(acts) && Monotone(acts, clock) && NoneAccepted(acts)
    ensures FairTurns(acts, base) >= Left(l.m, base) ==> Go(l, acts).0.m.prog.None?
    decreases |acts|
  {
    hide Step, Pass, LineOk, Left, Act.Proper, Fair;
    LineIs(l, clock);
    if l.m.prog.None? {
      StaysIdle(l, acts);
    } else if acts == [] {
      MeasurePositive(l.m);
      assert Left(l.m, base) >= 1 by { LeftIs(l.m, base); }
    } else {
      var a := acts[0];
      StepKeeps(l, a, clock);
      assert AllProper(acts[1..]) && NoneAccepted(acts[1..]);
      var fair := a.Turn? && Fair(a.env, base);
      match a {
        case Turn(env) =>
          TurnLeaves(l.m, env, clock, base);
          StepTurn(l, env);
        case Request(_, _, _, _, _, _, _) =>
          RefusedLeaves(l.m, a, clock, base);
          StepRefused(l, a);
      }
      FairEnds(Step(l, a).0, acts[1..], Clock(a, clock), if fair then a.env.now else base);
    }
  }

  lemma LeftIs(m: Machine, base: nat)
    ensures Left(m, base) >= Measure(m)
  {
  }

  lemma StepTurn(l: Line, env: Env)
    requires l.m.prog.Some?
    ensures Step(l, Turn(env)).0.m == Pass(l.m, env).0
  {
  }

  lemma StepRefused(l: Line, a: Act)
    requires a.Request? && !a.Accepted()
    ensures Step(l, a).0.m == Reply(l.m, a).m
  {
    hide Pass;
  }

  lemma {:induction false} StaysIdle(l: Line, acts: seq<Act>)
    requires l.m.prog.None? && NoneAccepted(acts)
    ensures Go(l, acts).0.m.prog.None?
    decreases |acts|
  {
    hide Pass, Setup;
    if acts != [] {
      if acts[0].Request? { RefusedOrNot(l.m, acts[0]); }
      assert NoneAccepted(acts[1..]);
      StaysIdle(Step(l, acts[0]).0, acts[1..]);
    }
  }

  /** A run that is over was over for the first time at some point. */
  lemma {:induction false} FirstIdle(l: Line, acts: seq<Act>) returns (k: nat)
    requires Go(l, acts).0.m.prog.None?
    ensures k <= |acts| && Until(l, acts[..k])
    decreases |acts|
  {
    hide Step;
    k := 0;
    if l.m.prog.Some? {
      k := FirstIdle(Step(l, acts[0]).0, acts[1..]);
      k := k + 1;
      assert acts[..k][0] == acts[0] && acts[..k][1..] == acts[1..][..k - 1];
    }
  }

  /** What a fresh run has to do. */
  function Enough(a: Act): nat
    requires a.Accepted()
  {
    (a.ackRetry + 1) * 5 * |a.program| + 5
  }

  /** So an accepted Setup ends on a fair track, unless another one is accepted before. */
  lemma SetupEnds(l: Line, a: Act, acts: seq<Act>, clock: nat) returns (k: nat)
    requires LineOk(l, clock) && a.Accepted() && a.Proper() && AllProper(acts)
    requires Monotone(acts, clock) && NoneAccepted(acts)
    requires FairTurns(acts, clock) >= Enough(a)
    ensures k <= |acts| && Until(Step(l, a).0, acts[..k])
  {
    hide Step, LineOk, Act.Proper, AllProper, NoneAccepted, Monotone;
    LineIs(l, clock);
    var l1 := Step(l, a).0;
    AcceptedTells(l, a, clock);
    StepKeeps(l, a, clock);
    FairEnds(l1, acts, clock, clock);
    assert (a.ackRetry + 1) * 5 * |a.program| == a.ackRetry * (5 * |a.program|) + 5 * |a.program|;
    k := FirstIdle(l1, acts);
  }

  // ---------------------------------------------------------------- two at once

  /** Turns of a quiet track, 100 ms apart. */
  function Patient(n: nat, from: nat): (acts: seq<Act>)
    ensures |acts| == n && AllProper(acts) && NoneAsked(acts)
  {
    if n == 0 then [] else [Turn(Env(false, 20, Silent, from + 100))] + Patient(n - 1, from + 100)
  }

  lemma {:induction false} PatientIsFair(n: nat, from: nat)
    ensures FairTurns(Patient(n, from), from) == n && Monotone(Patient(n, from), from)
  {
    if n > 0 { PatientIsFair(n - 1, from + 100); }
  }

  lemma {:induction false} MonotonePart(acts: seq<Act>, k: nat, clock: nat)
    requires Monotone(acts, clock) && k <= |acts|
    ensures Monotone(acts[..k], clock)
    decreases k
  {
    if k > 0 {
      assert acts[..k][0] == acts[0] && acts[..k][1..] == acts[1..][..k - 1];
      MonotonePart(acts[1..], k - 1, Clock(acts[0], clock));
    }
  }

  /** It happens: with the track off and joined, a second request is accepted before the first one's
      program has made a turn. The first one is never called back; the second one is, and leaves the
      track as it found it, which is with power and unjoined. */
  lemma TwoAtOnce(m: Machine, a: Act, b: Act) returns (k: nat)
    requires m.prog.None? && m.stage == READY && !m.power && m.joined
    requires a.Accepted() && a.Proper() && b.Accepted() && b.Proper()
    ensures k <= Enough(b)
    ensures var (l', notes) := Go(Line(m, 0, 0), [a, b] + Patient(Enough(b), 0)[..k]);
            && l'.m.prog.None? && l'.m.power && !l'.m.joined
            && NeverCalled(notes, 0) && CalledOnce(notes, 1)
            && |notes| >= 2 && notes[..2] == [Took(0, false, true), Took(1, true, false)]
  {
    hide Sane, Go, Enough, Until, CalledOnce, NeverCalled;
    var l, turns := Line(m, 0, 0), Patient(Enough(b), 0);
    StartIsOk(m);
    StepKeeps(l, a, 0);
    AcceptedTells(l, a, 0);
    var l1 := Step(l, a).0;
    AcceptedKeeps(m, a, 0);
    PatientIsFair(Enough(b), 0);
    k := SetupEnds(l1, b, turns, 0);
    MonotonePart(turns, k, 0);
    SetupIsServed(l1, b, turns[..k], [], 0);
    AcceptedTells(l1, b, 0);
    UntilIdle(Step(l1, b).0, turns[..k]);
    NotAgain(Step(l1, b).0, turns[..k], 0);
    GoTwo(l, a, b, turns[..k]);
    TookFirst(Go(Step(l1, b).0, turns[..k]).1);
  }

  lemma GoTwo(l: Line, a: Act, b: Act, acts: seq<Act>)
    ensures var (l1, first) := Step(l, a);
            var (l2, second) := Step(l1, b);
            var (l', rest) := Go(l2, acts);
            Go(l, [a, b] + acts) == (l', first + (second + rest))
  {
    hide Step;
    var all := [a, b] + acts;
    assert all[1..] == [b] + acts && all[1..][1..] == acts;
  }

  lemma TookFirst(rest: seq<Note>)
    ensures var notes := [Took(0, false, true)] + ([Took(1, true, false)] + rest);
            && |notes| >= 2 && notes[..2] == [Took(0, false, true), Took(1, true, false)]
            && (NeverCalled(rest, 0) ==> NeverCalled(notes, 0)) && (CalledOnce(rest, 1) ==> CalledOnce(notes, 1))
  {
    NeverJoins([Took(0, false, true), Took(1, true, false)], rest, 0);
    NeverJoins([Took(0, false, true), Took(1, true, false)], rest, 1);
    assert [Took(0, false, true)] + ([Took(1, true, false)] + rest)
        == [Took(0, false, true), Took(1, true, false)] + rest;
  }
}

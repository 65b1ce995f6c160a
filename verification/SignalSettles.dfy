/**
 The lines always match the progress the engine has recorded, and once inputs hold still they come
 to show what the rules ask for.
 */
module SignalSettles {
  import opened Basics
  import opened SignalRules

  // ---------------------------------------------------------------- configuration

  /** What loading a signal checks. */
  predicate Formed(s: Signal) {
    s.outputCount >= 1 && (s.extended ==> s.outputCount == 1)
  }

  /** No line belongs to two signals. */
  predicate Apart(a: Signal, b: Signal, layout: Endpoints)
    requires a.id in layout && b.id in layout
  {
    forall n, m :: 0 <= n < a.outputCount && 0 <= m < b.outputCount ==>
      LineOf(a, layout[a.id], n) != LineOf(b, layout[b.id], m)
  }

  predicate ConfigOk(signals: seq<Signal>, layout: Endpoints) {
    && (forall i :: 0 <= i < |signals| ==> Formed(signals[i]))
    && (forall i, j ::
          (0 <= i < |signals| && 0 <= j < |signals| && i != j && signals[i].id in layout && signals[j].id in layout) ==>
            Apart(signals[i], signals[j], layout))
  }

  /** Only the record of progress differs. */
  predicate Same(a: Signal, b: Signal) {
    a.id == b.id && a.extended == b.extended && a.outputCount == b.outputCount && a.defaultValue == b.defaultValue
    && a.rules == b.rules
  }

  predicate AllSame(a: seq<Signal>, b: seq<Signal>) {
    |a| == |b| && forall i :: 0 <= i < |a| ==> Same(a[i], b[i])
  }

  lemma ConfigStays(a: seq<Signal>, b: seq<Signal>, layout: Endpoints)
    requires ConfigOk(a, layout) && AllSame(a, b)
    ensures ConfigOk(b, layout)
  {
    forall i, j | 0 <= i < |b| && 0 <= j < |b| && i != j && b[i].id in layout && b[j].id in layout
      ensures Apart(b[i], b[j], layout)
    {
      assert Same(a[i], b[i]) && Same(a[j], b[j]);
      assert Apart(a[i], a[j], layout);
      forall n, m | 0 <= n < b[i].outputCount && 0 <= m < b[j].outputCount
        ensures LineOf(b[i], layout[b[i].id], n) != LineOf(b[j], layout[b[j].id], m)
      {
        assert LineOf(a[i], layout[a[i].id], n) != LineOf(a[j], layout[a[j].id], m);
      }
    }
  }

  lemma {:induction false} SameValueFrom(a: Signal, b: Signal, now: Readings, i: nat)
    requires Same(a, b) && i <= |a.rules|
    ensures ValueFrom(a, now, i) == ValueFrom(b, now, i)
    decreases |a.rules| - i
  {
    if i < |a.rules| { SameValueFrom(a, b, now, i + 1); }
  }

  // ---------------------------------------------------------------- progress and wire

  /** The first n lines of a signal show this value. */
  predicate Shows(s: Signal, value: Word, n: nat, layout: Endpoints, wire: Wire)
    requires s.id in layout
  {
    forall k :: 0 <= k < n ==>
      LineOf(s, layout[s.id], k) in wire && wire[LineOf(s, layout[s.id], k)] == Level(s, value, k)
  }

  /** What is recorded as sent is on the lines. */
  predicate ProgressOk(s: Signal, layout: Endpoints, wire: Wire) {
    s.id in layout ==>
      && (s.outputPending ==> s.outputIndex < s.outputCount && Shows(s, s.desiredValue, s.outputIndex, layout, wire))
      && (s.lastValueValid && !s.outputPending ==> Shows(s, s.lastValue, s.outputCount, layout, wire))
  }

  predicate AllProgress(signals: seq<Signal>, layout: Endpoints, wire: Wire) {
    forall i :: 0 <= i < |signals| ==> ProgressOk(signals[i], layout, wire)
  }

  lemma EvaluatedKeeps(signals: seq<Signal>, now: Readings, layout: Endpoints, wire: Wire)
    requires ConfigOk(signals, layout) && AllProgress(signals, layout, wire)
    ensures AllProgress(EvaluatedAll(signals, now), layout, wire) && AllSame(signals, EvaluatedAll(signals, now))
  {
    hide Value, Apart;
    var r := EvaluatedAll(signals, now);
    forall i | 0 <= i < |r| ensures ProgressOk(r[i], layout, wire) {
      assert ProgressOk(signals[i], layout, wire) && Formed(signals[i]);
      assert r[i] == Evaluated(signals[i], now);
    }
  }

  /** One output of one signal. */
  lemma WriteKeeps(signals: seq<Signal>, i: nat, layout: Endpoints, wire: Wire)
    requires ConfigOk(signals, layout) && AllProgress(signals, layout, wire)
    requires i < |signals| && signals[i].outputPending && signals[i].id in layout
    ensures var s := signals[i];
            AllProgress(signals[i := Advanced(s)], layout, Put(wire, Some(WriteOf(s, layout[s.id]))))
  {
    hide Level, LineOf, Apart;
    var s, r := signals[i], signals[i := Advanced(signals[i])];
    var wire' := Put(wire, Some(WriteOf(s, layout[s.id])));
    assert ProgressOk(s, layout, wire) && Formed(s);
    forall j | 0 <= j < |r| ensures ProgressOk(r[j], layout, wire') {
      if j == i {
        ShowsMore(s, layout, wire);
        ShowsSame(s, Advanced(s), layout, wire');
      } else if signals[j].id in layout {
        assert ProgressOk(signals[j], layout, wire);
        assert Apart(s, signals[j], layout);
        OthersShow(s, signals[j], layout, wire);
      }
    }
  }

  lemma ShowsMore(s: Signal, layout: Endpoints, wire: Wire)
    requires s.id in layout && Formed(s) && s.outputIndex < s.outputCount
    requires Shows(s, s.desiredValue, s.outputIndex, layout, wire)
    ensures Shows(s, s.desiredValue, s.outputIndex + 1, layout, Put(wire, Some(WriteOf(s, layout[s.id]))))
  {
    hide Level;
  }

  /** The lines do not depend on the progress. */
  lemma ShowsSame(a: Signal, b: Signal, layout: Endpoints, wire: Wire)
    requires Same(a, b) && a.id in layout
    ensures forall v: Word, n: nat :: Shows(a, v, n, layout, wire) ==> Shows(b, v, n, layout, wire)
  {
    forall v: Word, n: nat | Shows(a, v, n, layout, wire) ensures Shows(b, v, n, layout, wire) {
      forall k | 0 <= k < n
        ensures LineOf(b, layout[b.id], k) in wire && wire[LineOf(b, layout[b.id], k)] == Level(b, v, k)
      {
        assert LineOf(a, layout[a.id], k) in wire && Level(a, v, k) == Level(b, v, k);
      }
    }
  }

  lemma OthersShow(s: Signal, o: Signal, layout: Endpoints, wire: Wire)
    requires s.id in layout && o.id in layout && Apart(s, o, layout) && s.outputIndex < s.outputCount
    ensures forall v: Word, n: nat :: n <= o.outputCount && Shows(o, v, n, layout, wire) ==>
              Shows(o, v, n, layout, Put(wire, Some(WriteOf(s, layout[s.id]))))
  {
    hide Level, LineOf;
  }

  lemma {:induction false} ProcessKeeps(signals: seq<Signal>, layout: Endpoints, wire: Wire, i: nat)
    requires i <= |signals| && ConfigOk(signals, layout) && AllProgress(signals, layout, wire)
    ensures var (r, w) := ProcessFrom(signals, layout, i);
            AllProgress(r, layout, Put(wire, w)) && AllSame(signals, r)
    decreases |signals| - i
  {
    hide ProgressOk, Shows, Apart, Level, LineOf;
    if i < |signals| {
      var s := signals[i];
      if !s.outputPending {
        ProcessKeeps(signals, layout, wire, i + 1);
      } else if s.id !in layout {
        var next := signals[i := s.(outputPending := false, lastValueValid := false)];
        assert ProgressOk(next[i], layout, wire) by { Absent(next[i], layout, wire); }
        ConfigStays(signals, next, layout);
        ProcessKeeps(next, layout, wire, i + 1);
      } else {
        WriteKeeps(signals, i, layout, wire);
      }
    }
  }

  lemma Absent(s: Signal, layout: Endpoints, wire: Wire)
    requires s.id !in layout
    ensures ProgressOk(s, layout, wire)
  {
  }

  // ---------------------------------------------------------------- every reachable state

  predicate Ok(e: Engine, wire: Wire, layout: Endpoints) {
    ConfigOk(e.signals, layout) && (e.running ==> AllProgress(e.signals, layout, wire))
  }

  lemma LoopKeeps(e: Engine, wire: Wire, now: Readings, noticed: bool, layout: Endpoints)
    requires Ok(e, wire, layout)
    ensures var (e', w) := Loop(e, now, noticed, layout);
            Ok(e', Put(wire, w), layout) && AllSame(e.signals, e'.signals)
  {
    hide ConfigOk, AllProgress, ProcessFrom, Evaluated;
    if e.running {
      EvaluatedKeeps(e.signals, now, layout, wire);
      ConfigStays(e.signals, EvaluatedAll(e.signals, now), layout);
      var signals := if e.evaluationPending || noticed then EvaluatedAll(e.signals, now) else e.signals;
      ProcessKeeps(signals, layout, wire, 0);
      ConfigStays(signals, ProcessFrom(signals, layout, 0).0, layout);
    }
  }

  lemma StepKeeps(e: Engine, wire: Wire, a: Action, layout: Endpoints)
    requires Ok(e, wire, layout)
    ensures var (e', wire') := Step(e, wire, a, layout);
            Ok(e', wire', layout) && AllSame(e.signals, e'.signals)
  {
    hide Loop, Shows, Apart, LineOf, Level;
    match a
    case LoopOnce(now, noticed) => LoopKeeps(e, wire, now, noticed, layout);
    case Notified =>
    case Forced => ConfigStays(e.signals, ForgottenAll(e.signals), layout);
    case Enable(on) =>
      ConfigStays(e.signals, ForgottenAll(e.signals), layout);
      ConfigStays(e.signals, StoppedAll(e.signals), layout);
  }

  /** While the engine runs, the lines match the recorded progress, whatever happened before and
      whatever inputs changed in the middle of an update. */
  lemma {:induction false} LinesMatchProgress(e: Engine, wire: Wire, actions: seq<Action>, layout: Endpoints)
    requires Ok(e, wire, layout)
    ensures var (e', wire') := Run(e, wire, actions, layout);
            Ok(e', wire', layout) && AllSame(e.signals, e'.signals)
    decreases |actions|
  {
    hide Step, Ok, Same;
    if actions == [] {
      assert AllSame(e.signals, e.signals) by { SameSelf(e.signals); }
    } else {
      StepKeeps(e, wire, actions[0], layout);
      var (e1, wire1) := Step(e, wire, actions[0], layout);
      LinesMatchProgress(e1, wire1, actions[1..], layout);
      SameThrough(e.signals, e1.signals, Run(e1, wire1, actions[1..], layout).0.signals);
    }
  }

  /** As loaded, nothing is recorded as sent, so that whatever the lines show is no contradiction. */
  lemma LoadedMatches(signals: seq<Signal>, on: bool, wire: Wire, layout: Endpoints)
    requires ConfigOk(signals, layout)
    ensures Ok(Engine(LoadedAll(signals), on, on, on), wire, layout)
  {
    hide Apart;
    ConfigStays(signals, LoadedAll(signals), layout);
  }

  /** So in every state that can be reached from there, while the engine runs, the lines match the
      progress; and the signals have the rules they were loaded with. */
  lemma ReachedMatches(signals: seq<Signal>, on: bool, wire: Wire, actions: seq<Action>, layout: Endpoints)
    requires ConfigOk(signals, layout)
    ensures var (e, wire') := Run(Engine(LoadedAll(signals), on, on, on), wire, actions, layout);
            && (e.running ==> AllProgress(e.signals, layout, wire')) && AllSame(signals, e.signals)
  {
    hide Run, Ok, Same;
    var e0 := Engine(LoadedAll(signals), on, on, on);
    LoadedMatches(signals, on, wire, layout);
    LinesMatchProgress(e0, wire, actions, layout);
    LoadedSame(signals);
    var (e, wire') := Run(e0, wire, actions, layout);
    SameThrough(signals, e0.signals, e.signals);
    OkIs(e, wire', layout);
  }

  lemma LoadedSame(signals: seq<Signal>)
    ensures AllSame(signals, LoadedAll(signals))
  {
  }

  lemma OkIs(e: Engine, wire: Wire, layout: Endpoints)
    requires Ok(e, wire, layout)
    ensures e.running ==> AllProgress(e.signals, layout, wire)
  {
  }

  lemma SameSelf(a: seq<Signal>)
    ensures AllSame(a, a)
  {
  }

  lemma SameThrough(a: seq<Signal>, b: seq<Signal>, c: seq<Signal>)
    requires AllSame(a, b) && AllSame(b, c)
    ensures AllSame(a, c)
  {
    forall i | 0 <= i < |a| ensures Same(a[i], c[i]) {
      assert Same(a[i], b[i]) && Same(b[i], c[i]);
    }
  }

  // ---------------------------------------------------------------- settling

  predicate Present(signals: seq<Signal>, layout: Endpoints) {
    forall i :: 0 <= i < |signals| ==> signals[i].id in layout
  }

  /** The engine has, or is on its way to, what the rules ask for. */
  predicate Aimed(s: Signal, now: Readings) {
    if s.outputPending then s.desiredValue == Value(s, now) else s.lastValueValid && s.lastValue == Value(s, now)
  }

  predicate AllAimed(signals: seq<Signal>, now: Readings) {
    forall i :: 0 <= i < |signals| ==> Aimed(signals[i], now)
  }

  /** Outputs still to send. */
  function Left(signals: seq<Signal>): nat {
    if signals == [] then 0
    else
      var s := signals[0];
      (if s.outputPending && s.outputIndex < s.outputCount then s.outputCount - s.outputIndex else 0) +
          Left(signals[1..])
  }

  function Outputs(signals: seq<Signal>): nat {
    if signals == [] then 0 else signals[0].outputCount + Outputs(signals[1..])
  }

  lemma {:induction false} LeftIsBounded(signals: seq<Signal>)
    ensures Left(signals) <= Outputs(signals)
  {
    if signals != [] { LeftIsBounded(signals[1..]); }
  }

  lemma {:induction false} SameOutputs(a: seq<Signal>, b: seq<Signal>)
    requires AllSame(a, b)
    ensures Outputs(a) == Outputs(b)
  {
    if a != [] {
      assert Same(a[0], b[0]);
      assert AllSame(a[1..], b[1..]) by {
        forall i | 0 <= i < |a[1..]| ensures Same(a[1..][i], b[1..][i]) { assert Same(a[i + 1], b[i + 1]); }
      }
      SameOutputs(a[1..], b[1..]);
    }
  }

  lemma EvaluatedAims(signals: seq<Signal>, now: Readings)
    ensures AllAimed(EvaluatedAll(signals, now), now)
  {
    hide ValueFrom;
    forall i | 0 <= i < |signals| ensures Aimed(EvaluatedAll(signals, now)[i], now) {
      SameValueFrom(signals[i], Evaluated(signals[i], now), now, 0);
    }
  }

  /** Evaluating again with the same inputs changes nothing. */
  lemma AimedIsStable(signals: seq<Signal>, now: Readings)
    requires AllAimed(signals, now)
    ensures EvaluatedAll(signals, now) == signals
  {
    hide ValueFrom;
    forall i | 0 <= i < |signals| ensures EvaluatedAll(signals, now)[i] == signals[i] {
      assert Aimed(signals[i], now);
    }
  }

  lemma {:induction false} LeftUpdate(signals: seq<Signal>, i: nat, s: Signal)
    requires i < |signals| && signals[i].outputPending && signals[i].outputIndex < signals[i].outputCount
    requires s == Advanced(signals[i]) && Formed(signals[i])
    ensures Left(signals[i := s]) + 1 == Left(signals)
  {
    if i > 0 {
      LeftUpdate(signals[1..], i - 1, s);
      assert signals[i := s][1..] == signals[1..][i - 1 := s];
    } else {
      assert signals[0 := s][1..] == signals[1..];
    }
  }

  predicate NonePending(signals: seq<Signal>, i: nat) {
    forall k :: 0 <= k < i && k < |signals| ==> !signals[k].outputPending
  }

  lemma {:induction false} NoneLeft(signals: seq<Signal>)
    requires NonePending(signals, |signals|)
    ensures Left(signals) == 0
  {
    if signals != [] {
      forall k | 0 <= k < |signals[1..]| ensures !signals[1..][k].outputPending {
        assert !signals[k + 1].outputPending;
      }
      NoneLeft(signals[1..]);
    }
  }

  /** One output goes out, if any is left. */
  lemma {:induction false} ProcessAims(signals: seq<Signal>, layout: Endpoints, wire: Wire, now: Readings, i: nat)
    requires i <= |signals| && ConfigOk(signals, layout)
    requires AllProgress(signals, layout, wire) && Present(signals, layout)
    requires AllAimed(signals, now) && NonePending(signals, i)
    ensures var r := ProcessFrom(signals, layout, i).0;
            AllAimed(r, now) && (if Left(signals) > 0 then Left(r) + 1 == Left(signals) else r == signals)
    decreases |signals| - i
  {
    hide Value, Shows, Apart, LineOf, Level;
    if i == |signals| {
      NoneLeft(signals);
    } else if !signals[i].outputPending {
      ProcessAims(signals, layout, wire, now, i + 1);
    } else {
      var s := signals[i];
      assert ProgressOk(s, layout, wire) && Formed(s) && Aimed(s, now);
      LeftUpdate(signals, i, Advanced(s));
      AdvancedAims(s, now);
    }
  }

  lemma AdvancedAims(s: Signal, now: Readings)
    requires Aimed(s, now) && s.outputPending
    ensures Aimed(Advanced(s), now)
  {
    hide ValueFrom;
    SameValueFrom(s, Advanced(s), now, 0);
  }

  /** loop, once for each entry, while the inputs hold still. */
  function Loops(e: Engine, wire: Wire, now: Readings, noticed: seq<bool>, layout: Endpoints): (Engine, Wire)
    decreases |noticed|
  {
    if noticed == [] then (e, wire)
    else
      var (e1, w) := Loop(e, now, noticed[0], layout);
      Loops(e1, Put(wire, w), now, noticed[1..], layout)
  }

  lemma LoopAims(e: Engine, wire: Wire, now: Readings, noticed: bool, layout: Endpoints)
    requires Ok(e, wire, layout) && e.running && Present(e.signals, layout)
    requires AllAimed(e.signals, now) || e.evaluationPending || noticed
    ensures var (e', w) := Loop(e, now, noticed, layout);
            var was := if e.evaluationPending || noticed then EvaluatedAll(e.signals, now) else e.signals;
            && e'.running && Present(e'.signals, layout) && AllAimed(e'.signals, now)
            && (AllAimed(e.signals, now) ==> was == e.signals)
            && (if Left(was) > 0 then Left(e'.signals) + 1 == Left(was) else e'.signals == was)
  {
    hide ConfigOk, AllProgress, AllAimed, Left, ProcessFrom, Evaluated;
    var signals := if e.evaluationPending || noticed then EvaluatedAll(e.signals, now) else e.signals;
    EvaluatedAims(e.signals, now);
    if AllAimed(e.signals, now) { AimedIsStable(e.signals, now); }
    EvaluatedKeeps(e.signals, now, layout, wire);
    ConfigStays(e.signals, EvaluatedAll(e.signals, now), layout);
    PresentStays(e.signals, EvaluatedAll(e.signals, now), layout);
    ProcessAims(signals, layout, wire, now, 0);
    ProcessKeeps(signals, layout, wire, 0);
    PresentStays(signals, ProcessFrom(signals, layout, 0).0, layout);
  }

  lemma PresentStays(a: seq<Signal>, b: seq<Signal>, layout: Endpoints)
    requires Present(a, layout) && AllSame(a, b)
    ensures Present(b, layout)
  {
    forall i | 0 <= i < |b| ensures b[i].id in layout { assert Same(a[i], b[i]); }
  }

  /** Once aimed, as many loops as there are outputs left bring everything out. */
  lemma {:induction false} AimedSettles(e: Engine, wire: Wire, now: Readings, noticed: seq<bool>, layout: Endpoints)
    requires Ok(e, wire, layout) && e.running && Present(e.signals, layout) && AllAimed(e.signals, now)
    ensures var (e', wire') := Loops(e, wire, now, noticed, layout);
            && Ok(e', wire', layout) && e'.running && Present(e'.signals, layout) && AllAimed(e'.signals, now)
            && AllSame(e.signals, e'.signals)
            && (|noticed| >= Left(e.signals) ==> Left(e'.signals) == 0)
    decreases |noticed|
  {
    hide Ok, Present, AllAimed, Left, Loop, Same;
    if noticed == [] {
      SameSelf(e.signals);
    } else {
      LoopKeeps(e, wire, now, noticed[0], layout);
      LoopAims(e, wire, now, noticed[0], layout);
      var (e1, w) := Loop(e, now, noticed[0], layout);
      AimedSettles(e1, Put(wire, w), now, noticed[1..], layout);
      SameThrough(e.signals, e1.signals, Loops(e1, Put(wire, w), now, noticed[1..], layout).0.signals);
    }
  }

  lemma {:induction false} LeftIsNone(signals: seq<Signal>, layout: Endpoints, wire: Wire)
    requires Left(signals) == 0 && AllProgress(signals, layout, wire) && Present(signals, layout)
    ensures NonePending(signals, |signals|)
  {
    hide Shows;
    if signals != [] {
      assert ProgressOk(signals[0], layout, wire);
      forall i | 0 <= i < |signals[1..]| ensures ProgressOk(signals[1..][i], layout, wire) {
        assert ProgressOk(signals[i + 1], layout, wire);
      }
      LeftIsNone(signals[1..], layout, wire);
      forall k | 0 <= k < |signals| ensures !signals[k].outputPending {
        if k > 0 { assert !signals[1..][k - 1].outputPending; }
      }
    }
  }

  /** After the inputs have held still since the engine was told to evaluate, or a poll found a change:
      as many loops as all signals have outputs, and every line shows what the rules ask for. */
  lemma SettlesOnRules(e: Engine, wire: Wire, now: Readings, noticed: seq<bool>, layout: Endpoints, i: nat)
    requires Ok(e, wire, layout) && e.running && Present(e.signals, layout)
    requires noticed != [] && (e.evaluationPending || noticed[0]) && |noticed| >= Outputs(e.signals) && i < |e.signals|
    ensures var (e', wire') := Loops(e, wire, now, noticed, layout);
            Shows(e.signals[i], Value(e.signals[i], now), e.signals[i].outputCount, layout, wire')
  {
    hide Ok, AllAimed, Left, Loop, Same, Value, Outputs, Shows;
    LoopKeeps(e, wire, now, noticed[0], layout);
    LoopAims(e, wire, now, noticed[0], layout);
    var (e1, w) := Loop(e, now, noticed[0], layout);
    var was := EvaluatedAll(e.signals, now);
    LeftIsBounded(was);
    EvaluatedSame(e.signals, now);
    SameOutputs(e.signals, was);
    AimedSettles(e1, Put(wire, w), now, noticed[1..], layout);
    var (e', wire') := Loops(e, wire, now, noticed, layout);
    SameThrough(e.signals, e1.signals, e'.signals);
    SettledShows(e.signals, e', wire', now, layout, i);
  }

  lemma EvaluatedSame(signals: seq<Signal>, now: Readings)
    ensures AllSame(signals, EvaluatedAll(signals, now))
  {
    hide Value;
  }

  lemma SettledShows(signals: seq<Signal>, e: Engine, wire: Wire, now: Readings, layout: Endpoints, i: nat)
    requires Ok(e, wire, layout) && e.running && Present(e.signals, layout) && AllAimed(e.signals, now)
    requires Left(e.signals) == 0 && AllSame(signals, e.signals) && i < |signals| && Present(signals, layout)
    ensures Shows(signals[i], Value(signals[i], now), signals[i].outputCount, layout, wire)
  {
    hide Left, ConfigOk, Shows, ValueFrom;
    LeftIsNone(e.signals, layout, wire);
    var s, t := signals[i], e.signals[i];
    assert Same(s, t) && Aimed(t, now) && ProgressOk(t, layout, wire) && !t.outputPending;
    SameValueFrom(s, t, now, 0);
    ShowsSame(t, s, layout, wire);
  }
}

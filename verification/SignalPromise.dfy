/**
 What a user of the signal logic is promised: once told of a change, and with inputs that then hold
 still, every signal comes to show the first rule that is fulfilled.
 */
module SignalPromise {
  import opened Basics
  import opened SignalRules
  import opened SignalSettles

  // ---------------------------------------------------------------- what is asked for

  /** Every point of the rule can be read, and is as its condition wants it. */
  predicate Fulfilled(r: Rule, now: Readings) {
    forall c :: c in r.conditions ==> c.point in now && if c.value then now[c.point] else !now[c.point]
  }

  /** The result of the first rule that is fulfilled, or if none is the default. */
  predicate AsksFor(s: Signal, now: Readings, v: Word) {
    || (v == s.defaultValue && forall k :: 0 <= k < |s.rules| ==> !Fulfilled(s.rules[k], now))
    || exists k :: && 0 <= k < |s.rules| && Fulfilled(s.rules[k], now) && v == s.rules[k].result
                   && forall j :: 0 <= j < k ==> !Fulfilled(s.rules[j], now)
  }

  lemma MatchesFulfilled(r: Rule, now: Readings)
    ensures RuleMatches(r, now) <==> Fulfilled(r, now)
  {
    if RuleMatches(r, now) {
      forall c | c in r.conditions ensures c.point in now && if c.value then now[c.point] else !now[c.point] {
        var i :| 0 <= i < |r.conditions| && r.conditions[i] == c;
        assert Matches(r.conditions[i], now);
      }
    }
    if Fulfilled(r, now) {
      forall i | 0 <= i < |r.conditions| ensures Matches(r.conditions[i], now) {
        assert r.conditions[i] in r.conditions;
      }
    }
  }

  lemma {:induction false} ValueFromAsks(s: Signal, now: Readings, i: nat)
    requires i <= |s.rules| && forall j :: 0 <= j < i ==> !Fulfilled(s.rules[j], now)
    ensures AsksFor(s, now, ValueFrom(s, now, i))
    decreases |s.rules| - i
  {
    hide Fulfilled, RuleMatches;
    if i < |s.rules| {
      MatchesFulfilled(s.rules[i], now);
      if !Fulfilled(s.rules[i], now) { ValueFromAsks(s, now, i + 1); }
    }
  }

  lemma ValueAsks(s: Signal, now: Readings)
    ensures AsksFor(s, now, Value(s, now))
  {
    hide AsksFor, ValueFrom;
    ValueFromAsks(s, now, 0);
  }

  // ---------------------------------------------------------------- what the lines say

  function OutputAt(address: nat, k: nat): Line {
    Output(address + k)
  }

  /** This many outputs from an address on are at one level or the other. */
  predicate Driven(wire: Wire, address: nat, n: nat) {
    forall k :: 0 <= k < n ==> OutputAt(address, k) in wire && wire[OutputAt(address, k)] <= 1
  }

  /** The number that n basic outputs spell from an address on, the first being the lowest bit. */
  function Spelled(wire: Wire, address: nat, n: nat): nat
    requires Driven(wire, address, n)
  {
    if n == 0 then 0 else Spelled(wire, address, n - 1) + wire[OutputAt(address, n - 1)] * Power2(n - 1)
  }

  /** An extended signal's aspect is the value, a basic one's outputs are its bits. */
  predicate Says(s: Signal, v: Word, layout: Endpoints, wire: Wire)
    requires s.id in layout
  {
    if s.extended then Aspect(layout[s.id]) in wire && wire[Aspect(layout[s.id])] == v % 256
    else
      && Driven(wire, layout[s.id], s.outputCount)
      && Spelled(wire, layout[s.id], s.outputCount) == v % Power2(s.outputCount)
  }

  lemma {:induction false} BitsSpell(v: Word, wire: Wire, address: nat, n: nat)
    requires Driven(wire, address, n) && forall k :: 0 <= k < n ==> wire[OutputAt(address, k)] == BitOf(v, k)
    ensures Spelled(wire, address, n) == v % Power2(n)
    decreases n
  {
    hide BitOf, Power2, OutputAt;
    if n == 0 {
      PowerZero();
    } else {
      BitsSpell(v, wire, address, n - 1);
      OneMoreBit(v, n - 1);
    }
  }

  lemma PowerZero()
    ensures Power2(0) == 1
  {
  }

  /** The remainder of twice the power has one bit more. */
  lemma OneMoreBit(v: nat, n: nat)
    requires v < 65536
    ensures v % Power2(n + 1) == v % Power2(n) + BitOf(v, n) * Power2(n)
  {
    var p := Power2(n);
    assert Power2(n + 1) == 2 * p;
    TwiceRemainder(v, p);
  }

  lemma TwiceRemainder(v: nat, p: nat)
    requires p > 0
    ensures v % (2 * p) == v % p + ((v / p) % 2) * p
  {
    var q, r := v / p, v % p;
    var h, b := q / 2, q % 2;
    Divides(v, p);
    Distributes(p, h, b);
    RemainderIs(v, 2 * p, h, r + (if b == 0 then 0 else p));
  }

  lemma Divides(v: nat, p: nat)
    requires p > 0
    ensures v == p * (v / p) + v % p && v % p < p
  {
  }

  lemma Distributes(p: int, h: int, b: int)
    ensures p * (2 * h + b) == (2 * p) * h + p * b
  {
  }

  lemma RemainderIs(x: nat, m: nat, q: nat, r: nat)
    requires m > 0 && x == m * q + r && r < m
    ensures x % m == r
  {
    var y := x / m;
    assert x == m * y + x % m;
    assert y < q ==> m * (y + 1) <= m * q;
    assert y > q ==> m * (q + 1) <= m * y;
    assert m * (y + 1) == m * y + m && m * (q + 1) == m * q + m;
  }

  lemma ShowsSays(s: Signal, v: Word, layout: Endpoints, wire: Wire)
    requires s.id in layout && Formed(s) && Shows(s, v, s.outputCount, layout, wire)
    ensures Says(s, v, layout, wire)
  {
    hide Power2, BitOf, Spelled;
    assert LineOf(s, layout[s.id], 0) in wire;
    if !s.extended {
      forall k | 0 <= k < s.outputCount
        ensures OutputAt(layout[s.id], k) in wire && wire[OutputAt(layout[s.id], k)] == BitOf(v, k) <= 1
      {
        assert LineOf(s, layout[s.id], k) == OutputAt(layout[s.id], k);
        BitIsSmall(v, k);
      }
      BitsSpell(v, wire, layout[s.id], s.outputCount);
    }
  }

  lemma BitIsSmall(v: Word, k: nat)
    ensures BitOf(v, k) <= 1
  {
  }

  // ---------------------------------------------------------------- told of a change

  /** A change is notified, everything is to be sent again, or the engine is switched on. */
  predicate Tells(a: Action) {
    a.Notified? || a.Forced? || a == Enable(true)
  }

  /** An engine that runs will evaluate; only switching it on starts one that does not. */
  lemma ToldEvaluates(e: Engine, wire: Wire, told: Action, layout: Endpoints)
    requires Tells(told)
    ensures var e1 := Step(e, wire, told, layout).0;
            e1.running == (e.running || told.Enable?) && (e1.running ==> e1.evaluationPending)
    ensures Step(e, wire, told, layout).1 == wire
  {
  }

  lemma {:induction false} OffIsSilent(e: Engine, wire: Wire, now: Readings, noticed: seq<bool>, layout: Endpoints)
    requires !e.running
    ensures Loops(e, wire, now, noticed, layout) == (e, wire)
    decreases |noticed|
  {
    if noticed != [] { OffIsSilent(e, wire, now, noticed[1..], layout); }
  }

  lemma SomeOutputs(signals: seq<Signal>, layout: Endpoints)
    requires ConfigOk(signals, layout) && signals != []
    ensures Outputs(signals) >= 1
  {
    assert Formed(signals[0]);
  }

  /** From loading on, whatever happened: once the running engine is told of a change, and the inputs then
      hold still, as many loops as the signals have outputs bring every line of every signal to the
      first rule that is fulfilled, or to the default. An engine that does not run sends nothing. */
  lemma ToldSettles(signals: seq<Signal>, on: bool, wire: Wire, actions: seq<Action>, told: Action, now: Readings,
                    noticed: seq<bool>, layout: Endpoints, i: nat)
    requires ConfigOk(signals, layout) && Present(signals, layout) && Tells(told)
    requires i < |signals| && |noticed| >= Outputs(signals)
    ensures var (e, wire1) := Run(Engine(LoadedAll(signals), on, on, on), wire, actions, layout);
            var (e1, wire2) := Step(e, wire1, told, layout);
            var wire' := Loops(e1, wire2, now, noticed, layout).1;
            if e.running || told.Enable? then
              exists v :: AsksFor(signals[i], now, v) && Says(signals[i], v, layout, wire')
            else wire' == wire1
  {
    hide Run, Step, Loops, Ok, Same, ConfigOk, Value, AsksFor, Shows, Says, Outputs, Tells;
    var e0 := Engine(LoadedAll(signals), on, on, on);
    LoadedMatches(signals, on, wire, layout);
    LinesMatchProgress(e0, wire, actions, layout);
    LoadedSame(signals);
    var (e, wire1) := Run(e0, wire, actions, layout);
    SameThrough(signals, e0.signals, e.signals);
    StepKeeps(e, wire1, told, layout);
    var (e1, wire2) := Step(e, wire1, told, layout);
    SameThrough(signals, e.signals, e1.signals);
    ToldEvaluates(e, wire1, told, layout);
    if e1.running {
      PresentStays(signals, e1.signals, layout);
      SomeOutputs(signals, layout);
      SameOutputs(signals, e1.signals);
      SettlesOnRules(e1, wire2, now, noticed, layout, i);
      var (_, wire') := Loops(e1, wire2, now, noticed, layout);
      AsLoaded(signals, e1.signals, now, layout, wire', i);
    } else {
      OffIsSilent(e1, wire2, now, noticed, layout);
    }
  }

  /** What the signal shows is what it was loaded to show. */
  lemma AsLoaded(signals: seq<Signal>, later: seq<Signal>, now: Readings, layout: Endpoints, wire: Wire, i: nat)
    requires i < |signals| && AllSame(signals, later) && Present(signals, layout) && Present(later, layout)
    requires ConfigOk(signals, layout)
    requires Shows(later[i], Value(later[i], now), later[i].outputCount, layout, wire)
    ensures AsksFor(signals[i], now, Value(signals[i], now))
    ensures Says(signals[i], Value(signals[i], now), layout, wire)
  {
    hide Apart, ValueFrom, AsksFor, Shows, Says;
    var s, t := signals[i], later[i];
    assert Same(s, t) && Formed(s);
    SameValueFrom(s, t, now, 0);
    ShowsSame(t, s, layout, wire);
    ValueAsks(s, now);
    ShowsSays(s, Value(s, now), layout, wire);
  }

  // ---------------------------------------------------------------- switched off

  /** Once switched off, nothing is sent whatever happens, until it is switched on; and the engine says so
      of itself. */
  lemma SwitchedOff(e: Engine, wire: Wire, actions: seq<Action>, layout: Endpoints)
    requires forall i :: 0 <= i < |actions| ==> actions[i] != Enable(true)
    ensures var (e1, wire1) := Step(e, wire, Enable(false), layout);
            var (e', wire') := Run(e1, wire1, actions, layout);
            wire' == wire && !e'.running && !e'.enabled
  {
    hide Run;
    var (e1, wire1) := Step(e, wire, Enable(false), layout);
    StaysOff(e1, wire1, actions, layout);
  }

  lemma {:induction false} StaysOff(e: Engine, wire: Wire, actions: seq<Action>, layout: Endpoints)
    requires !e.running && !e.enabled && forall i :: 0 <= i < |actions| ==> actions[i] != Enable(true)
    ensures var (e', wire') := Run(e, wire, actions, layout);
            wire' == wire && !e'.running && !e'.enabled
    decreases |actions|
  {
    if actions != [] {
      var (e1, wire1) := Step(e, wire, actions[0], layout);
      StaysOff(e1, wire1, actions[1..], layout);
    }
  }

  /** It says it is enabled just when it runs. */
  lemma {:induction false} EnabledRuns(e: Engine, wire: Wire, actions: seq<Action>, layout: Endpoints)
    requires e.enabled == e.running
    ensures var e' := Run(e, wire, actions, layout).0; e'.enabled == e'.running
    decreases |actions|
  {
    hide ProcessFrom;
    if actions != [] {
      var (e1, wire1) := Step(e, wire, actions[0], layout);
      EnabledRuns(e1, wire1, actions[1..], layout);
    }
  }
}

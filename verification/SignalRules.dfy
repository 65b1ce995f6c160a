/**
 Signal logic as values: which value the rules ask for, and how far its outputs have got.
 */
module SignalRules {
  import opened Basics

  datatype Source = Turnout | Sensor

  /** Something whose state a condition reads. */
  datatype Point = Point(source: Source, id: Word, channel: Byte)

  datatype Condition = Condition(point: Point, value: bool)

  datatype Rule = Rule(result: Word, conditions: seq<Condition>)

  datatype Signal = Signal(id: Word, extended: bool, outputCount: nat, defaultValue: Word, rules: seq<Rule>,
                           lastValueValid: bool, lastValue: Word, desiredValue: Word, outputPending: bool,
                           outputIndex: nat)

  /** The states that can be read now: turnout logic or sensor, 0 or 1; a point that is missing here
      cannot be read. */
  type Readings = map<Point, bool>

  predicate Matches(c: Condition, now: Readings) {
    c.point in now && now[c.point] == c.value
  }

  predicate RuleMatches(r: Rule, now: Readings) {
    forall i :: 0 <= i < |r.conditions| ==> Matches(r.conditions[i], now)
  }

  /** The first rule from i on that matches, or the default. */
  function ValueFrom(s: Signal, now: Readings, i: nat): Word
    requires i <= |s.rules|
    decreases |s.rules| - i
  {
    if i == |s.rules| then s.defaultValue
    else if RuleMatches(s.rules[i], now) then s.rules[i].result
    else ValueFrom(s, now, i + 1)
  }

  /** evaluateSignal */
  function Value(s: Signal, now: Readings): Word {
    ValueFrom(s, now, 0)
  }

  /** evaluateAll, for one signal. */
  function Evaluated(s: Signal, now: Readings): Signal {
    var next := Value(s, now);
    if s.lastValueValid && s.lastValue == next && !s.outputPending then s
    else if s.outputPending && s.desiredValue == next then s
    else s.(desiredValue := next, outputIndex := 0, outputPending := true)
  }

  function EvaluatedAll(signals: seq<Signal>, now: Readings): (r: seq<Signal>)
    ensures |r| == |signals| && forall i :: 0 <= i < |r| ==> r[i] == Evaluated(signals[i], now)
  {
    seq(|signals|, i requires 0 <= i < |signals| => Evaluated(signals[i], now))
  }

  // ---------------------------------------------------------------- outputs

  /** One line: an extended accessory's aspect, or one basic output. */
  datatype Line = Aspect(address: nat) | Output(address: nat)

  /** The addresses of the signals in the layout. */
  type Endpoints = map<Word, Word>

  function Power2(n: nat): (p: nat)
    ensures p > 0
  {
    if n == 0 then 1 else 2 * Power2(n - 1)
  }

  /** Bit n of a value. */
  function BitOf(value: Word, n: nat): nat {
    (value / Power2(n)) % 2
  }

  /** The n-th line of a signal, and what a value asks for there. */
  function LineOf(s: Signal, address: Word, n: nat): Line {
    if s.extended then Aspect(address) else Output(address + n)
  }

  function Level(s: Signal, value: Word, n: nat): nat {
    if s.extended then value % 256 else BitOf(value, n)
  }

  datatype Write = Write(line: Line, level: nat)

  /** What processOneOutput does to a signal that is pending and in the layout. */
  function Advanced(s: Signal): Signal {
    if s.extended || s.outputIndex + 1 >= s.outputCount then
      s.(outputIndex := if s.extended then s.outputIndex else s.outputIndex + 1,
         lastValue := s.desiredValue, lastValueValid := true, outputPending := false)
    else s.(outputIndex := s.outputIndex + 1)
  }

  function WriteOf(s: Signal, address: Word): Write {
    Write(LineOf(s, address, s.outputIndex), Level(s, s.desiredValue, s.outputIndex))
  }

  /** processOneOutput from signal i on. */
  function ProcessFrom(signals: seq<Signal>, layout: Endpoints, i: nat): (seq<Signal>, Option<Write>)
    requires i <= |signals|
    decreases |signals| - i
  {
    if i == |signals| then (signals, None)
    else
      var s := signals[i];
      if !s.outputPending then ProcessFrom(signals, layout, i + 1)
      else if s.id !in layout then
        ProcessFrom(signals[i := s.(outputPending := false, lastValueValid := false)], layout, i + 1)
      else (signals[i := Advanced(s)], Some(WriteOf(s, layout[s.id])))
  }

  // ---------------------------------------------------------------- the engine

  datatype Engine = Engine(signals: seq<Signal>, enabled: bool, running: bool, evaluationPending: bool)

  /** The levels on the lines. */
  type Wire = map<Line, nat>

  function Put(wire: Wire, w: Option<Write>): Wire {
    if w.Some? then wire[w.value.line := w.value.level] else wire
  }

  /** loop; noticed says that polling the sensors found a change. */
  function Loop(e: Engine, now: Readings, noticed: bool, layout: Endpoints): (Engine, Option<Write>) {
    if !e.running then (e, None)
    else
      var evaluates := e.evaluationPending || noticed;
      var signals := if evaluates then EvaluatedAll(e.signals, now) else e.signals;
      var (signals', w) := ProcessFrom(signals, layout, 0);
      (e.(signals := signals', evaluationPending := false), w)
  }

  function Stopped(s: Signal): Signal {
    s.(outputPending := false)
  }

  function Forgotten(s: Signal): Signal {
    s.(lastValueValid := false, outputPending := false)
  }

  function StoppedAll(signals: seq<Signal>): (r: seq<Signal>)
    ensures |r| == |signals| && forall i :: 0 <= i < |r| ==> r[i] == Stopped(signals[i])
  {
    seq(|signals|, i requires 0 <= i < |signals| => Stopped(signals[i]))
  }

  function ForgottenAll(signals: seq<Signal>): (r: seq<Signal>)
    ensures |r| == |signals| && forall i :: 0 <= i < |r| ==> r[i] == Forgotten(signals[i])
  {
    seq(|signals|, i requires 0 <= i < |signals| => Forgotten(signals[i]))
  }

  /** A signal as it is read from the rules file: nothing sent, nothing to send. */
  function Loaded(s: Signal): Signal {
    s.(lastValueValid := false, lastValue := 0, desiredValue := 0, outputPending := false, outputIndex := 0)
  }

  function LoadedAll(signals: seq<Signal>): (r: seq<Signal>)
    ensures |r| == |signals| && forall i :: 0 <= i < |r| ==> r[i] == Loaded(signals[i])
  {
    seq(|signals|, i requires 0 <= i < |signals| => Loaded(signals[i]))
  }

  function ForceEvaluate(e: Engine): Engine {
    e.(signals := ForgottenAll(e.signals), evaluationPending := e.evaluationPending || e.running)
  }

  function SetEnabled(e: Engine, on: bool): Engine {
    if on then ForceEvaluate(e.(enabled := true, running := true))
    else e.(enabled := false, running := false, signals := StoppedAll(e.signals))
  }

  /** notifyTurnout, and notifySensor for a sensor that a rule reads. */
  function Notify(e: Engine): Engine {
    if e.running then e.(evaluationPending := true) else e
  }

  datatype Action = LoopOnce(now: Readings, noticed: bool) | Notified | Forced | Enable(on: bool)

  function Step(e: Engine, wire: Wire, a: Action, layout: Endpoints): (Engine, Wire) {
    match a
    case LoopOnce(now, noticed) => var (e', w) := Loop(e, now, noticed, layout); (e', Put(wire, w))
    case Notified => (Notify(e), wire)
    case Forced => (ForceEvaluate(e), wire)
    case Enable(on) => (SetEnabled(e, on), wire)
  }

  function Run(e: Engine, wire: Wire, actions: seq<Action>, layout: Endpoints): (Engine, Wire)
    decreases |actions|
  {
    if actions == [] then (e, wire)
    else
      var (e1, wire1) := Step(e, wire, actions[0], layout);
      Run(e1, wire1, actions[1..], layout)
  }
}

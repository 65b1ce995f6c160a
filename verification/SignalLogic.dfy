/**
 The signal logic in place: the table of signals, evaluated and brought out by loops.
 */
module SignalLogic {
  import opened Basics
  import opened SignalRules

  class Logic {
    const table: array<Signal>
    var signalCount: nat
    var enabled: bool
    var running: bool
    var evaluationPending: bool

    ghost predicate Valid()
      reads this
    {
      signalCount <= table.Length
    }

    ghost function State(): Engine
      requires Valid()
      reads this, table
    {
      Engine(table[..signalCount], enabled, running, evaluationPending)
    }

    /** As after reload: signals with these rules, nothing sent yet. */
    constructor (signals: seq<Signal>, on: bool)
      ensures Valid() && fresh(table) && State() == Engine(LoadedAll(signals), on, on, on)
    {
      table := new Signal[|signals|](i requires 0 <= i < |signals| => Loaded(signals[i]));
      signalCount := |signals|;
      enabled, running, evaluationPending := on, on, on;
      new;
      assert table[..|signals|] == LoadedAll(signals);
    }

    static method DoesRuleMatch(rule: Rule, now: Readings) returns (matches: bool)
      ensures matches == RuleMatches(rule, now)
    {
      var i := 0;
      while i < |rule.conditions|
        invariant i <= |rule.conditions|
        invariant forall k :: 0 <= k < i ==> Matches(rule.conditions[k], now)
      {
        var c := rule.conditions[i];
        if !(c.point in now && now[c.point] == c.value) { return false; }
        i := i + 1;
      }
      return true;
    }

    static method EvaluateSignal(signal: Signal, now: Readings) returns (value: Word)
      ensures value == Value(signal, now)
    {
      var i := 0;
      while i < |signal.rules|
        invariant i <= |signal.rules| && Value(signal, now) == ValueFrom(signal, now, i)
      {
        var matches := DoesRuleMatch(signal.rules[i], now);
        if matches { return signal.rules[i].result; }
        i := i + 1;
      }
      return signal.defaultValue;
    }

    method EvaluateAll(now: Readings)
      requires Valid()
      modifies table
      ensures State() == old(State()).(signals := EvaluatedAll(old(State()).signals, now))
    {
      var i := 0;
      while i < signalCount
        invariant i <= signalCount
        invariant forall k :: 0 <= k < signalCount ==>
                    table[k] == if k < i then Evaluated(old(table[k]), now) else old(table[k])
      {
        var signal := table[i];
        var nextValue := EvaluateSignal(signal, now);
        if signal.lastValueValid && signal.lastValue == nextValue && !signal.outputPending {
        } else if signal.outputPending && signal.desiredValue == nextValue {
        } else {
          table[i] := signal.(desiredValue := nextValue, outputIndex := 0, outputPending := true);
        }
        i := i + 1;
      }
    }

    method ProcessOneOutput(layout: Endpoints) returns (w: Option<Write>)
      requires Valid()
      modifies table
      ensures (State().signals, w) == ProcessFrom(old(State()).signals, layout, 0)
    {
      hide Level, LineOf;
      var i := 0;
      while i < signalCount
        invariant i <= signalCount
        invariant ProcessFrom(old(State()).signals, layout, 0) == ProcessFrom(table[..signalCount], layout, i)
      {
        ghost var was := table[..signalCount];
        var signal := table[i];
        if signal.outputPending {
          if signal.id !in layout {
            table[i] := signal.(outputPending := false, lastValueValid := false);
            assert table[..signalCount] == was[i := table[i]];
          } else {
            var address := layout[signal.id];
            if signal.extended {
              table[i] := signal.(lastValue := signal.desiredValue, lastValueValid := true, outputPending := false);
            } else {
              table[i] := signal.(outputIndex := signal.outputIndex + 1);
              if table[i].outputIndex >= signal.outputCount {
                table[i] := table[i].(lastValue := signal.desiredValue, lastValueValid := true, outputPending := false);
              }
            }
            assert table[..signalCount] == was[i := Advanced(signal)];
            return Some(Write(LineOf(signal, address, signal.outputIndex),
                              Level(signal, signal.desiredValue, signal.outputIndex)));
          }
        }
        i := i + 1;
      }
      return None;
    }

    method LoopOnce(now: Readings, noticed: bool, layout: Endpoints) returns (w: Option<Write>)
      requires Valid()
      modifies `evaluationPending, table
      ensures Valid() && (State(), w) == Loop(old(State()), now, noticed, layout)
    {
      hide ProcessFrom, Evaluated;
      if !running { return None; }
      if noticed { evaluationPending := true; }
      if evaluationPending {
        evaluationPending := false;
        EvaluateAll(now);
      }
      w := ProcessOneOutput(layout);
    }

    method TurnOn(nextEnabled: bool)
      requires Valid()
      modifies `enabled, `running, `evaluationPending, table
      ensures Valid() && State() == SetEnabled(old(State()), nextEnabled)
    {
      enabled := nextEnabled;
      running := nextEnabled;
      if !running {
        var i := 0;
        while i < signalCount
          invariant i <= signalCount
          invariant forall k :: 0 <= k < signalCount ==>
                      table[k] == if k < i then Stopped(old(table[k])) else old(table[k])
          modifies table
        {
          table[i] := table[i].(outputPending := false);
          i := i + 1;
        }
        return;
      }
      Reevaluate();
    }

    method Reevaluate()
      requires Valid()
      modifies `evaluationPending, table
      ensures Valid() && State() == ForceEvaluate(old(State()))
    {
      var i := 0;
      while i < signalCount
        invariant i <= signalCount
        invariant forall k :: 0 <= k < signalCount ==>
                    table[k] == if k < i then Forgotten(old(table[k])) else old(table[k])
        modifies table
      {
        table[i] := table[i].(lastValueValid := false, outputPending := false);
        i := i + 1;
      }
      if running { evaluationPending := true; }
    }

    method NotifyTurnout()
      requires Valid()
      modifies `evaluationPending
      ensures Valid() && State() == Notify(old(State()))
    {
      if !running { return; }
      evaluationPending := true;
    }
  }
}

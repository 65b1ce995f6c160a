/**
 The EXRAIL interpreter: one task serving one table entry per call, and the look-up list that
 finds routes.  `Step` says what one service does; class `Task` is the interpreter's own form.
 */
module ExrailVm {
  import opened Basics
  import opened ExrailScript

  // ---------------------------------------------------------------- what one service does

  datatype Thread = Thread(pc: int, stack: seq<int>)

  datatype Outcome = Running(t: Thread) | Killed

  /** What the outside world answers while one entry is served: whether a waiting opcode may go
      on, whether a condition holds, and the clock a random choice uses. */
  datatype Input = Input(ready: bool, holds: bool, millis: nat)

  datatype Reason = Ended | AllKilled | CallDepth | UnknownRoute | ReturnDepth | MissingEndif | InvalidOp

  datatype Event =
    | Did(op: Byte, operands: seq<Word>)
    | Waited(op: Byte, operands: seq<Word>)
    | Tested(op: Byte, operands: seq<Word>, holds: bool)
    | Started(op: Byte, operands: seq<Word>, found: bool)
    | Called(route: Word)
    | Followed(route: Word)
    | Returned
    | Ceased(reason: Reason)

  /** Where the scan for the matching ELSE or ENDIF stops: at that entry. */
  function SkipIf(code: seq<Byte>, pc: int, nest: nat): (r: Option<int>)
    requires 0 <= pc && nest >= 1
    ensures r.Some? ==> pc + 3 <= r.value < |code|
    decreases |code| - pc
  {
    var p := pc + 3;
    if p >= |code| then None
    else if code[p] > IF_TYPE_OPCODES then SkipIf(code, p, nest + 1)
    else if code[p] == ENDEXRAIL then None
    else if code[p] == ENDIF then if nest == 1 then Some(p) else SkipIf(code, p, nest - 1)
    else if code[p] == ELSE && nest == 1 then Some(p)
    else SkipIf(code, p, nest)
  }

  predicate IsRouteMark(op: Byte) { op == ROUTE || op == AUTOMATION }
  predicate IsSequenceMark(op: Byte) { op == SEQUENCE }

  datatype Kinds = Routes | Sequences {
    predicate Has(op: Byte) {
      if Routes? then IsRouteMark(op) else IsSequenceMark(op)
    }
  }

  /** The (parameter, position) pairs a look-up list of these kinds is loaded with. */
  function Marks(code: seq<Byte>, pc: int, kinds: Kinds): seq<(Word, int)>
    requires 0 <= pc
    decreases |code| - pc
  {
    if pc >= |code| || code[pc] == ENDEXRAIL then []
    else (if kinds.Has(code[pc]) then [(Operand(code, pc, 0), pc)] else []) + Marks(code, pc + 3, kinds)
  }

  function FirstMark(marks: seq<(Word, int)>, id: Word): Option<int> {
    if marks == [] then None
    else if marks[0].0 == id then Some(marks[0].1)
    else FirstMark(marks[1..], id)
  }

  /** The same search without the list: the first matching entry from pc on. */
  function FirstPc(code: seq<Byte>, pc: int, kinds: Kinds, id: Word): Option<int>
    requires 0 <= pc
    decreases |code| - pc
  {
    if pc >= |code| || code[pc] == ENDEXRAIL then None
    else if kinds.Has(code[pc]) && Operand(code, pc, 0) == id then Some(pc)
    else FirstPc(code, pc + 3, kinds, id)
  }

  lemma {:induction false} FirstMarkIsFirstPc(code: seq<Byte>, pc: int, kinds: Kinds, id: Word)
    requires 0 <= pc
    ensures FirstMark(Marks(code, pc, kinds), id) == FirstPc(code, pc, kinds, id)
    decreases |code| - pc
  {
    if pc < |code| && code[pc] != ENDEXRAIL {
      FirstMarkIsFirstPc(code, pc + 3, kinds, id);
      var rest := Marks(code, pc + 3, kinds);
      assert [(Operand(code, pc, 0), pc)] + rest != [] && ([(Operand(code, pc, 0), pc)] + rest)[1..] == rest;
      assert [] + rest == rest;
    }
  }

  /** Look-up results are kept as 16-bit signed numbers. */
  function ToInt16(x: int): (r: int)
    ensures -32768 <= r < 32768
    ensures -32768 <= x < 32768 ==> r == x
  {
    (x + 32768) % 65536 - 32768
  }

  /** routeLookup: ROUTE and AUTOMATION entries, chained to SEQUENCE entries; -1 when absent. */
  function LookupPc(code: seq<Byte>, id: Word): int {
    match FirstMark(Marks(code, 0, Routes), id)
    case Some(pc) => ToInt16(pc)
    case None =>
      match FirstMark(Marks(code, 0, Sequences), id)
      case Some(pc) => ToInt16(pc)
      case None => -1
  }

  /** The route a START-type opcode names: SENDLOCO names the cab first. */
  function StartRoute(op: Byte, ws: seq<Word>): Word {
    if op == SENDLOCO && |ws| > 1 then ws[1] else if ws != [] then ws[0] else 0
  }

  function Kill(why: Reason): (Outcome, Option<Event>) {
    (Killed, Some(Ceased(why)))
  }

  /** FOLLOW and CALL: go to a route, or die if there is none. */
  function Go(code: seq<Byte>, route: Word, stack: seq<int>, e: Event): (Outcome, Option<Event>) {
    var pc := LookupPc(code, route);
    if pc < 0 then Kill(UnknownRoute) else (Running(Thread(pc, stack)), Some(e))
  }

  /** A failed IF, or an ELSE reached from above: on to just past the matching ELSE or ENDIF. */
  function SkipTo(code: seq<Byte>, t: Thread, e: Option<Event>): (Outcome, Option<Event>)
    requires 0 <= t.pc
  {
    match SkipIf(code, t.pc, 1)
    case None => Kill(MissingEndif)
    case Some(p) => (Running(t.(pc := p + 3)), e)
  }

  /** The entry at pc holds an opcode, and the table ends in ENDEXRAIL. */
  predicate OnEntry(code: seq<Byte>, pc: int) {
    && |code| % 3 == 0 && |code| >= 6 && code[|code| - 3] == ENDEXRAIL
    && 0 <= pc < |code| && pc % 3 == 0
  }

  predicate SetsCounter(op: Byte) {
    op == FOLLOW || op == CALL || op == RANDOM_FOLLOW || op == RANDOM_CALL || op == RETURN
  }

  predicate IsRandom(op: Byte) {
    op == RANDOM_FOLLOW || op == RANDOM_CALL
  }

  /** One service of a task whose delay has passed. */
  function Step(code: seq<Byte>, t: Thread, input: Input): (Outcome, Option<Event>)
    requires OnEntry(code, t.pc)
  {
    var op := code[t.pc];
    var operand := Operand(code, t.pc, 0);
    var ws := Operands(code, t.pc, Arity(op));
    var next := Running(t.(pc := t.pc + 3));
    if op == PAD || op == ENDIF || IsMark(op) then (next, None)
    else if op == ELSE then SkipTo(code, t, None)
    else if IsIf(op) then
      var e := Tested(op, ws, input.holds);
      if input.holds then (next, Some(e)) else SkipTo(code, t, Some(e))
    else if op == FOLLOW then Go(code, operand, t.stack, Followed(operand))
    else if op == CALL then
      if |t.stack| == MAX_STACK_DEPTH then Kill(CallDepth)
      else Go(code, operand, t.stack + [t.pc + 3], Called(operand))
    else if op == RANDOM_FOLLOW && operand > 0 then
      var route := Operand(code, t.pc, 1 + input.millis % operand);
      Go(code, route, t.stack, Followed(route))
    else if op == RANDOM_CALL && operand > 0 then
      if |t.stack| == MAX_STACK_DEPTH then Kill(CallDepth)
      else
        var route := Operand(code, t.pc, 1 + input.millis % operand);
        Go(code, route, t.stack + [t.pc + 3 * (operand + 1)], Called(route))
    else if op == RETURN then
      if t.stack == [] then Kill(ReturnDepth)
      else (Running(Thread(t.stack[|t.stack| - 1], t.stack[..|t.stack| - 1])), Some(Returned))
    else if op == ENDTASK || op == ENDEXRAIL then Kill(Ended)
    else if op == KILLALL then Kill(AllKilled)
    else if IsStart(op) then (next, Some(Started(op, ws, LookupPc(code, StartRoute(op, ws)) >= 0)))
    else if IsAct(op) then
      if CanWait(op) && !input.ready then (Running(t), Some(Waited(op, ws)))
      else (next, Some(Did(op, ws)))
    else Kill(InvalidOp)
  }

  /** Everything a task does while it is served with these answers. */
  function Trace(code: seq<Byte>, o: Outcome, inputs: seq<Input>): seq<Event>
    decreases |inputs|
  {
    if inputs == [] || o.Killed? || !OnEntry(code, o.t.pc) then []
    else
      var (o', e) := Step(code, o.t, inputs[0]);
      (if e.Some? then [e.value] else []) + Trace(code, o', inputs[1..])
  }

  /** The answers that were asked for: those given while a PAD, mark, ENDIF or ELSE was served
      are not. */
  function Visible(code: seq<Byte>, o: Outcome, inputs: seq<Input>): seq<Input>
    decreases |inputs|
  {
    if inputs == [] || o.Killed? || !OnEntry(code, o.t.pc) then []
    else
      var (o', e) := Step(code, o.t, inputs[0]);
      (if e.Some? then [inputs[0]] else []) + Visible(code, o', inputs[1..])
  }

  /** One entry of the scan. */
  lemma SkipStep(code: seq<Byte>, pc: int, nest: nat)
    requires 0 <= pc && pc + 3 < |code| && nest >= 1
    ensures var p := pc + 3;
            SkipIf(code, pc, nest) ==
            if code[p] > IF_TYPE_OPCODES then SkipIf(code, p, nest + 1)
            else if code[p] == ENDEXRAIL then None
            else if code[p] == ENDIF then if nest == 1 then Some(p) else SkipIf(code, p, nest - 1)
            else if code[p] == ELSE && nest == 1 then Some(p)
            else SkipIf(code, p, nest)
  {
  }

  // ---------------------------------------------------------------- the look-up list in place

  class LookList {
    var size: nat
    var loaded: nat
    var lookups: array<Word>
    var results: array<int>
    var next: LookList?

    ghost predicate Valid()
      reads this, lookups, results
    {
      && loaded == size == lookups.Length == results.Length
      && lookups as object != results
      && forall i :: 0 <= i < size ==> -32768 <= results[i] < 32768
    }

    /** The list's pairs; positions appear as the 16-bit numbers they are stored as. */
    ghost predicate Holds(marks: seq<(Word, int)>)
      reads this, lookups, results
    {
      && Valid() && size == |marks|
      && forall i :: 0 <= i < size ==> lookups[i] == marks[i].0 && results[i] == ToInt16(marks[i].1)
    }

    /** LookListLoader, first pass: how many entries match. */
    static method Count(code: seq<Byte>, kinds: Kinds) returns (count: nat)
      requires OnEntry(code, 0)
      ensures count == |Marks(code, 0, kinds)|
    {
      count := 0;
      var pc := 0;
      while code[pc] != ENDEXRAIL
        invariant OnEntry(code, pc)
        invariant count + |Marks(code, pc, kinds)| == |Marks(code, 0, kinds)|
        decreases |code| - pc
      {
        if kinds.Has(code[pc]) { count := count + 1; }
        pc := pc + 3;
      }
    }

    constructor (count: nat)
      ensures size == lookups.Length == results.Length == count && loaded == 0 && next == null
      ensures fresh(lookups) && fresh(results) && lookups as object != results
    {
      size, loaded, next := count, 0, null;
      lookups := new Word[count](_ => 0);
      results := new int[count](_ => 0);
    }

    /** One more pair; a full list stays as it is. */
    method Add(lookup: Word, result: int)
      requires loaded <= size == lookups.Length == results.Length && lookups as object != results
      modifies this`loaded, lookups, results
      ensures loaded == if old(loaded) < size then old(loaded) + 1 else size
      ensures old(loaded) < size ==> lookups[old(loaded)] == lookup && results[old(loaded)] == ToInt16(result)
      ensures forall i :: 0 <= i < old(loaded) ==> lookups[i] == old(lookups[i]) && results[i] == old(results[i])
    {
      if loaded == size { return; } // and forget
      lookups[loaded] := lookup;
      results[loaded] := ToInt16(result);
      loaded := loaded + 1;
    }

    /** LookListLoader, second pass: store every matching entry. */
    method Load(code: seq<Byte>, kinds: Kinds)
      requires OnEntry(code, 0) && loaded == 0 && lookups as object != results
      requires size == lookups.Length == results.Length == |Marks(code, 0, kinds)|
      modifies this`loaded, lookups, results
      ensures Holds(Marks(code, 0, kinds))
    {
      hide Operand, ToInt16;
      ghost var all := Marks(code, 0, kinds);
      var pc := 0;
      assert all[0..] == all;
      while code[pc] != ENDEXRAIL
        invariant OnEntry(code, pc) && Partly(all, Marks(code, pc, kinds))
        decreases |code| - pc
      {
        if kinds.Has(code[pc]) {
          Store(Operand(code, pc, 0), pc, all, Marks(code, pc + 3, kinds));
        }
        pc := pc + 3;
      }
      assert all[loaded..] == [];
    }

    /** The rest of the pairs is still to be stored. */
    ghost predicate Partly(all: seq<(Word, int)>, rest: seq<(Word, int)>)
      reads this, lookups, results
    {
      && loaded <= size == lookups.Length == results.Length == |all| && lookups as object != results
      && all[loaded..] == rest
      && forall i :: 0 <= i < loaded ==> lookups[i] == all[i].0 && results[i] == ToInt16(all[i].1)
    }

    method Store(lookup: Word, result: int, ghost all: seq<(Word, int)>, ghost rest: seq<(Word, int)>)
      requires Partly(all, [(lookup, result)] + rest)
      modifies this`loaded, lookups, results
      ensures Partly(all, rest)
    {
      hide ToInt16;
      TakesFirst(all, loaded, (lookup, result), rest);
      Add(lookup, result);
    }

    static lemma TakesFirst(all: seq<(Word, int)>, n: nat, mark: (Word, int), rest: seq<(Word, int)>)
      requires n <= |all| && all[n..] == [mark] + rest
      ensures n < |all| && all[n] == mark && all[n + 1..] == rest
    {
      assert n < |all| && all[n] == all[n..][0];
      assert all[n + 1..] == all[n..][1..];
    }

    /** find: the first match here, else the chained list's, else -1. */
    method Find(id: Word, ghost marks: seq<(Word, int)>, ghost more: seq<(Word, int)>) returns (r: int)
      requires Holds(marks)
      requires next == null ==> more == []
      requires next != null ==> next.next == null && next.Holds(more)
      ensures r == match FirstMark(marks, id)
                   case Some(pc) => ToInt16(pc)
                   case None => match FirstMark(more, id)
                                case Some(pc) => ToInt16(pc)
                                case None => -1
      decreases if next == null then 0 else 1
    {
      var i := 0;
      while i < size
        invariant 0 <= i <= size && FirstMark(marks, id) == FirstMark(marks[i..], id)
      {
        if lookups[i] == id { return results[i]; }
        assert marks[i..][1..] == marks[i + 1..];
        i := i + 1;
      }
      assert marks[i..] == [];
      if next != null {
        r := next.Find(id, more, []);
      } else {
        r := -1;
      }
    }
  }

  /** routeLookup as begin() leaves it. */
  ghost predicate Indexes(routes: LookList, code: seq<Byte>)
    reads routes, routes.lookups, routes.results
    reads if routes.next == null then {} else {routes.next, routes.next.lookups, routes.next.results}
  {
    && routes.Holds(Marks(code, 0, Routes))
    && routes.next != null && routes.next.next == null && routes.next.Holds(Marks(code, 0, Sequences))
  }

  /** The part of begin() that builds routeLookup. */
  method BuildRouteLookup(code: seq<Byte>) returns (routes: LookList)
    requires OnEntry(code, 0)
    ensures fresh(routes) && Indexes(routes, code)
  {
    var n := LookList.Count(code, Routes);
    routes := new LookList(n);
    routes.Load(code, Routes);
    n := LookList.Count(code, Sequences);
    var more := new LookList(n);
    more.Load(code, Sequences);
    routes.next := more;
  }

  // ---------------------------------------------------------------- the interpreter in place

  class Task {
    var progCounter: int
    var callStack: array<int>
    var stackDepth: nat
    var killed: bool

    ghost predicate Valid()
      reads this, callStack
    {
      callStack.Length == MAX_STACK_DEPTH && stackDepth <= MAX_STACK_DEPTH
    }

    ghost function State(): Thread
      requires Valid()
      reads this, callStack
    {
      Thread(progCounter, callStack[..stackDepth])
    }

    ghost function Now(): Outcome
      requires Valid()
      reads this, callStack
    {
      if killed then Killed else Running(State())
    }

    constructor (pc: int)
      ensures Valid() && fresh(callStack) && !killed && State() == Thread(pc, [])
    {
      progCounter, stackDepth, killed := pc, 0, false;
      callStack := new int[MAX_STACK_DEPTH];
    }

    /** skipIfBlock: moves the program counter; false when the table ended first. */
    method SkipIfBlock(code: seq<Byte>) returns (found: bool)
      requires Valid() && OnEntry(code, progCounter) && code[progCounter] != ENDEXRAIL && !killed
      modifies this
      ensures Valid() && stackDepth == old(stackDepth) && callStack == old(callStack)
      ensures var r := SkipIf(code, old(progCounter), 1);
              found == r.Some? && killed == !found && (found ==> progCounter == r.value)
    {
      hide SkipIf;
      var nest := 1;
      while nest > 0
        invariant Valid() && stackDepth == old(stackDepth) && callStack == old(callStack) && !killed
        invariant OnEntry(code, progCounter) && code[progCounter] != ENDEXRAIL
        invariant nest >= 0
        invariant SkipIf(code, old(progCounter), 1) ==
                  if nest == 0 then Some(progCounter) else SkipIf(code, progCounter, nest)
        decreases nest > 0, |code| - progCounter
      {
        SkipStep(code, progCounter, nest);
        progCounter := progCounter + 3;
        var opcode := code[progCounter];
        if opcode > IF_TYPE_OPCODES {
          nest := nest + 1;
        } else if opcode == ENDEXRAIL {
          killed := true;
          return false;
        } else if opcode == ENDIF {
          nest := nest - 1;
        } else if opcode == ELSE {
          if nest == 1 { nest := 0; }
        }
      }
      return true;
    }

    /** Go to a route, or be killed. */
    method Jump(code: seq<Byte>, routes: LookList, route: Word)
      requires Valid() && !killed && OnEntry(code, 0)
      requires Indexes(routes, code)
      modifies this
      ensures Valid() && stackDepth == old(stackDepth) && callStack == old(callStack)
      ensures progCounter == LookupPc(code, route) && killed == (progCounter < 0)
    {
      progCounter := routes.Find(route, Marks(code, 0, Routes), Marks(code, 0, Sequences));
      if progCounter < 0 { killed := true; }
    }

    /** The cases of loop2 that set the program counter themselves. */
    method ServeJump(code: seq<Byte>, routes: LookList, input: Input) returns (e: Option<Event>)
      requires Valid() && OnEntry(code, progCounter) && !killed && SetsCounter(code[progCounter])
      requires Indexes(routes, code)
      requires callStack !in {routes.results, routes.next.results}
      requires callStack as object !in {routes.lookups as object, routes.next.lookups}
      requires Operand(code, progCounter, 0) > 0 || !IsRandom(code[progCounter])
      modifies this, callStack
      ensures Valid() && callStack == old(callStack)
      ensures (Now(), e) == Step(code, old(State()), input)
    {
      if code[progCounter] == RETURN {
        e := ServeReturn(code, input);
      } else {
        e := ServeGo(code, routes, input);
      }
    }

    /** RETURN: back to where the last call was made. */
    method ServeReturn(code: seq<Byte>, ghost input: Input) returns (e: Option<Event>)
      requires Valid() && OnEntry(code, progCounter) && !killed && code[progCounter] == RETURN
      modifies this
      ensures Valid() && callStack == old(callStack)
      ensures (Now(), e) == Step(code, old(State()), input)
    {
      hide Operands, StartRoute, LookupPc, SkipIf;
      if stackDepth == 0 { killed := true; return Some(Ceased(ReturnDepth)); }
      ghost var was := callStack[..stackDepth];
      stackDepth := stackDepth - 1;
      progCounter := callStack[stackDepth];
      assert callStack[..stackDepth] == was[..stackDepth] && progCounter == was[stackDepth];
      return Some(Returned);
    }

    /** FOLLOW, CALL and the random ones: to a route, and for a call remember where to resume. */
    method ServeGo(code: seq<Byte>, routes: LookList, input: Input) returns (e: Option<Event>)
      requires Valid() && OnEntry(code, progCounter) && !killed && SetsCounter(code[progCounter])
      requires code[progCounter] != RETURN && Indexes(routes, code)
      requires callStack !in {routes.results, routes.next.results}
      requires callStack as object !in {routes.lookups as object, routes.next.lookups}
      requires Operand(code, progCounter, 0) > 0 || !IsRandom(code[progCounter])
      modifies this, callStack
      ensures Valid() && callStack == old(callStack)
      ensures (Now(), e) == Step(code, old(State()), input)
    {
      hide Operands, StartRoute, SkipIf, Indexes, LookupPc;
      var opcode := code[progCounter];
      var operand: int := Operand(code, progCounter, 0);
      var newroute := Operand(code, progCounter, 0);
      if IsRandom(opcode) {
        newroute := Operand(code, progCounter, 1 + input.millis % operand);
      }
      if opcode == CALL || opcode == RANDOM_CALL {
        if stackDepth == MAX_STACK_DEPTH { killed := true; return Some(Ceased(CallDepth)); }
        Push(if opcode == CALL then progCounter + 3 else progCounter + 3 * (operand + 1));
      }
      Jump(code, routes, newroute);
      if killed { return Some(Ceased(UnknownRoute)); }
      return Some(if opcode == CALL || opcode == RANDOM_CALL then Called(newroute) else Followed(newroute));
    }

    /** One more place to resume at. */
    method Push(pc: int)
      requires Valid() && stackDepth < MAX_STACK_DEPTH
      modifies `stackDepth, callStack
      ensures Valid() && stackDepth == old(stackDepth) + 1
      ensures callStack[..stackDepth] == old(callStack[..stackDepth]) + [pc]
    {
      callStack[stackDepth] := pc;
      stackDepth := stackDepth + 1;
    }

    /** loop2, once the task's delay has passed. */
    method Loop2(code: seq<Byte>, routes: LookList, input: Input) returns (e: Option<Event>)
      requires Valid() && OnEntry(code, progCounter) && !killed && Indexes(routes, code)
      requires callStack !in {routes.results, routes.next.results}
      requires callStack as object !in {routes.lookups as object, routes.next.lookups}
      modifies this, callStack
      ensures Valid() && callStack == old(callStack)
      ensures (Now(), e) == Step(code, old(State()), input)
    {
      var opcode := code[progCounter];
      var operand := Operand(code, progCounter, 0);
      var ws := Operands(code, progCounter, Arity(opcode));
      var skipIf := false;
      e := None;
      if SetsCounter(opcode) && (operand > 0 || !IsRandom(opcode)) {
        e := ServeJump(code, routes, input);
        return;
      } else if opcode == PAD || opcode == ENDIF || IsMark(opcode) {
      } else if opcode == ELSE {
        skipIf := true;
      } else if IsIf(opcode) {
        skipIf := !input.holds;
        e := Some(Tested(opcode, ws, input.holds));
      } else if opcode == ENDTASK || opcode == ENDEXRAIL {
        killed := true;
        return Some(Ceased(Ended));
      } else if opcode == KILLALL {
        killed := true;
        return Some(Ceased(AllKilled));
      } else if IsStart(opcode) {
        var pc := routes.Find(StartRoute(opcode, ws), Marks(code, 0, Routes), Marks(code, 0, Sequences));
        e := Some(Started(opcode, ws, pc >= 0));
      } else if IsAct(opcode) {
        if CanWait(opcode) && !input.ready { return Some(Waited(opcode, ws)); }
        e := Some(Did(opcode, ws));
      } else {
        killed := true;
        return Some(Ceased(InvalidOp));
      }
      if skipIf {
        var found := SkipIfBlock(code);
        if !found { return Some(Ceased(MissingEndif)); }
      }
      progCounter := progCounter + 3;
    }
  }
}

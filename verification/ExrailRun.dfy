/**
 The simulation: a task serving the table and a runner following the script stay at the same
 place, forever, and do the same things.
 */
module ExrailRun {
  import opened Basics
  import opened ExrailScript
  import opened ExrailVm
  import opened ExrailCorrect

  // ---------------------------------------------------------------- routes

  lemma EndOfTable(code: seq<Byte>, pc: int)
    requires At(code, pc, Trailer())
    ensures pc == |code| - 6 && code[pc] == ENDTASK && code[|code| - 3] == ENDEXRAIL
    ensures forall kinds, id :: FirstPc(code, pc, kinds, id) == None
  {
    FetchItem(code, pc, ENDTASK, 0, Item(ENDEXRAIL, 0));
    assert Item(ENDEXRAIL, 0) == Item(ENDEXRAIL, 0) + [];
    FetchItem(code, pc + 3, ENDEXRAIL, 0, []);
  }

  /** Searching the table for a kind of declaration finds the one the script would name. */
  lemma SearchAgrees(file: Script, kinds: Kinds, id: Word)
    requires ScriptOk(file)
    ensures var code, r := RouteCode(file), FindMark(Place(file, Top), kinds, id);
            match r
            case None => FirstPc(code, 0, kinds, id) == None
            case Some(q) => PlaceOk(q) && At(code, PcOf(code, q), Code(q))
                            && FirstPc(code, 0, kinds, id) == Some(PcOf(code, q))
  {
    hide FirstPc, FindMark, Code, Compile;
    var code, p := RouteCode(file), Place(file, Top);
    CodeIs(p);
    assert code[0..] == code;
    FindBlock(code, 0, p, kinds, id);
    EndOfTable(code, |Compile(file)|);
  }

  /** Route look-up, for tables its 16-bit results can hold. */
  lemma LookupAgrees(file: Script, id: Word)
    requires ScriptOk(file) && |RouteCode(file)| <= 32768
    ensures var code := RouteCode(file);
            match FindRoute(file, id)
            case None => LookupPc(code, id) == -1
            case Some(q) => PlaceOk(q) && At(code, PcOf(code, q), Code(q)) && LookupPc(code, id) == PcOf(code, q)
  {
    hide FirstMark, Marks, FirstPc, FindMark, RouteCode;
    FirstMarkIsFirstPc(RouteCode(file), 0, Routes, id);
    FirstMarkIsFirstPc(RouteCode(file), 0, Sequences, id);
    SearchAgrees(file, Routes, id);
    SearchAgrees(file, Sequences, id);
  }

  /** In a larger table a route is found exactly when it starts below byte 32768. */
  lemma LookupTruncates(file: Script, id: Word, q: Place)
    requires ScriptOk(file) && FindRoute(file, id) == Some(q)
    ensures var code := RouteCode(file);
            && LookupPc(code, id) == ToInt16(PcOf(code, q))
            && (LookupPc(code, id) == PcOf(code, q) <==> PcOf(code, q) < 32768)
  {
    hide FirstMark, Marks, FirstPc, FindMark, RouteCode;
    FirstMarkIsFirstPc(RouteCode(file), 0, Routes, id);
    FirstMarkIsFirstPc(RouteCode(file), 0, Sequences, id);
    SearchAgrees(file, Routes, id);
    SearchAgrees(file, Sequences, id);
  }

  /** A sequence behind n other statements. */
  function Late(n: nat, id: Word): Script
  {
    if n == 0 then Cons(Mark(SEQUENCE, [id]), Nil) else Cons(Done, Late(n - 1, id))
  }

  lemma {:induction false} LateIs(n: nat, id: Word)
    ensures ScriptOk(Late(n, id)) && Entries(Late(n, id)) == n + 1
    ensures FindMark(Place(Late(n, id), Top), Routes, id) == None
    ensures FindMark(Place(Late(n, id), Top), Sequences, id) == Some(Place(Late(0, id), Top))
  {
    if n > 0 { LateIs(n - 1, id); }
  }

  /** It happens: from 10923 statements on, the sequence behind them is not found where it is; while
      the table is under 64 KiB, it is not found at all. */
  lemma LateIsLost(n: nat, id: Word)
    requires n >= 10923
    ensures var file, code := Late(n, id), RouteCode(Late(n, id));
            && ScriptOk(file) && FindRoute(file, id) == Some(Place(Late(0, id), Top))
            && PcOf(code, Place(Late(0, id), Top)) == 3 * n && LookupPc(code, id) != 3 * n
            && (n <= 21845 ==> LookupPc(code, id) < 0)
  {
    hide FindMark, RouteCode, LookupPc, Late;
    var file := Late(n, id);
    LateIs(n, id);
    LateIs(0, id);
    LookupTruncates(file, id, Place(Late(0, id), Top));
  }

  // ---------------------------------------------------------------- being at the same place

  /** The task's counter stands at place p, after any parameters still to be stepped over; the
      runner is at p too, up to declarations and ends of blocks; and every return address is the
      place the runner remembers. */
  predicate Tracks(code: seq<Byte>, t: Thread, r: Runner, pads: seq<Word>, p: Place) {
    && PlaceOk(p) && OnEntry(code, t.pc) && At(code, t.pc, Pads(pads) + Code(p))
    && Settle(p) == Settle(r.place)
    && Remembers(code, t.stack, r.stack)
  }

  predicate Remembers(code: seq<Byte>, stack: seq<int>, places: seq<Place>) {
    && |stack| == |places| <= MAX_STACK_DEPTH
    && forall i :: 0 <= i < |stack| ==> PlaceOk(places[i]) && At(code, stack[i], Code(places[i]))
  }

  /** One service matches: either nothing happens and the runner is still at the same place, or
      the runner does the same thing in one step. */
  predicate Matches(file: Script, code: seq<Byte>, out: (Outcome, Option<Event>), r: Runner, input: Input,
                    pads: seq<Word>, p: Place) {
    match out.1
    case None => out.0.Running? && Tracks(code, out.0.t, r, pads, p)
    case Some(e) =>
      var (ph, e') := ScriptStep(file, r, input);
      e == e' && match out.0
                 case Killed => ph.Over?
                 case Running(t) => ph.Active? && Tracks(code, t, ph.r, pads, p)
  }

  predicate Table(file: Script, code: seq<Byte>) {
    ScriptOk(file) && code == RouteCode(file) && |code| <= 32768
  }

  lemma TableShape(file: Script, code: seq<Byte>)
    requires Table(file, code)
    ensures |code| == 3 * (Entries(file) + 2) && |code| % 3 == 0 && code[|code| - 3] == ENDEXRAIL
  {
    hide Compile, Item;
    var m := |Compile(file)|;
    assert code[m..] == Trailer();
    EndOfTable(code, m);
  }

  /** Standing at a place of the table is standing on an entry. */
  lemma AtIsOnEntry(file: Script, code: seq<Byte>, pc: int, pads: seq<Word>, p: Place)
    requires Table(file, code) && At(code, pc, Pads(pads) + Code(p))
    ensures OnEntry(code, pc)
  {
    hide Table, Code, Pads;
    TableShape(file, code);
    assert |Pads(pads) + Code(p)| == 3 * |pads| + 3 * (Entries(p.todo) + EntriesAfter(p.ctx));
    assert pc == 3 * (Entries(file) + 2 - |pads| - Entries(p.todo) - EntriesAfter(p.ctx));
  }

  lemma EmptyPads(p: Place)
    ensures Pads([]) + Code(p) == Code(p)
  {
    hide Code;
  }

  /** Arriving at a place of the table with the same return addresses. */
  lemma Arrives(file: Script, code: seq<Byte>, t: Thread, r: Runner, pads: seq<Word>, p: Place)
    requires Table(file, code) && PlaceOk(p) && At(code, t.pc, Pads(pads) + Code(p))
    requires Settle(p) == Settle(r.place) && Remembers(code, t.stack, r.stack)
    ensures Tracks(code, t, r, pads, p)
  {
    hide Table, At, Code, PlaceOk, Settle, Remembers, Pads;
    AtIsOnEntry(file, code, t.pc, pads, p);
  }

  lemma ArrivesAt(file: Script, code: seq<Byte>, t: Thread, r: Runner, p: Place)
    requires Table(file, code) && PlaceOk(p) && At(code, t.pc, Code(p))
    requires Settle(p) == Settle(r.place) && Remembers(code, t.stack, r.stack)
    ensures Tracks(code, t, r, [], p)
  {
    hide *;
    EmptyPads(p);
    Arrives(file, code, t, r, [], p);
  }

  // ---------------------------------------------------------------- entries with no effect

  lemma StepOver(code: seq<Byte>, t: Thread, input: Input)
    requires OnEntry(code, t.pc) && (code[t.pc] == PAD || code[t.pc] == ENDIF || IsMark(code[t.pc]))
    ensures Step(code, t, input) == (Running(t.(pc := t.pc + 3)), None)
  {
  }

  lemma StepElse(code: seq<Byte>, t: Thread, input: Input, end: int)
    requires OnEntry(code, t.pc) && code[t.pc] == ELSE && SkipIf(code, t.pc, 1) == Some(end)
    ensures Step(code, t, input) == (Running(t.(pc := end + 3)), None)
  {
    hide SkipIf;
  }

  lemma PadStep(file: Script, code: seq<Byte>, t: Thread, r: Runner, pads: seq<Word>, p: Place, input: Input)
    requires Table(file, code) && Tracks(code, t, r, pads, p) && pads != []
    ensures Matches(file, code, Step(code, t, input), r, input, pads[1..], p)
  {
    hide Code, PlaceOk, Settle, Remembers, ScriptStep, Item, Table, Step, At;
    assert Pads(pads) + Code(p) == Item(PAD, pads[0]) + (Pads(pads[1..]) + Code(p));
    FetchItem(code, t.pc, PAD, pads[0], Pads(pads[1..]) + Code(p));
    StepOver(code, t, input);
    Arrives(file, code, t.(pc := t.pc + 3), r, pads[1..], p);
  }

  /** The parameters that follow in PAD entries. */
  function Rest(ws: seq<Word>): seq<Word> {
    if ws == [] then [] else ws[1..]
  }

  /** Past a declaration, with its further parameters still to be stepped over. */
  lemma MarkStep(file: Script, code: seq<Byte>, t: Thread, r: Runner, p: Place, input: Input)
    requires Table(file, code) && Tracks(code, t, r, [], p) && p.todo.Cons? && p.todo.head.Mark?
    ensures Matches(file, code, Step(code, t, input), r, input, Rest(p.todo.head.operands),
                    Place(p.todo.tail, p.ctx))
  {
    hide Code, Remembers, ScriptStep, Item, Table, Step, At, Op, Pads;
    var h, next := p.todo.head, Place(p.todo.tail, p.ctx);
    EmptyPads(p);
    CodeCons(p);
    FetchOp(code, t.pc, h.op, h.operands, Code(next));
    StepOver(code, t, input);
    Arrives(file, code, t.(pc := t.pc + 3), r, Rest(h.operands), next);
  }

  /** An ENDIF: on to what follows the IF. */
  lemma EndifStep(file: Script, code: seq<Byte>, t: Thread, r: Runner, p: Place, input: Input)
    requires Table(file, code) && Tracks(code, t, r, [], p) && p.todo.Nil? && p.ctx.InLast?
    ensures Matches(file, code, Step(code, t, input), r, input, [], Place(p.ctx.rest, p.ctx.up))
  {
    hide Code, Remembers, ScriptStep, Item, Table, Step, At, Pads;
    var next := Place(p.ctx.rest, p.ctx.up);
    EmptyPads(p);
    EnterThen(p, next);
    assert Code(p) == Item(ENDIF, 0) + Code(next);
    FetchItem(code, t.pc, ENDIF, 0, Code(next));
    StepOver(code, t, input);
    ArrivesAt(file, code, t.(pc := t.pc + 3), r, next);
  }

  /** An ELSE reached from above: past the ELSE branch, to what follows the IF. */
  lemma ElseStep(file: Script, code: seq<Byte>, t: Thread, r: Runner, p: Place, input: Input)
    requires Table(file, code) && Tracks(code, t, r, [], p) && p.todo.Nil? && p.ctx.InThen?
    ensures Matches(file, code, Step(code, t, input), r, input, [], Place(p.ctx.rest, p.ctx.up))
  {
    hide Code, Remembers, ScriptStep, Item, Table, Step, At, Pads, SkipIf;
    var next := Place(p.ctx.rest, p.ctx.up);
    var other := Place(p.ctx.els, InLast(p.ctx.rest, p.ctx.up));
    EmptyPads(p);
    EnterThen(other, next);
    EnterBoth(p, other, next);
    assert Code(p) == Item(ELSE, 0) + Code(other);
    FetchItem(code, t.pc, ELSE, 0, Code(other));
    SkipLands(code, t.pc, p.ctx.els, ENDIF, Code(next));
    var end := t.pc + 3 + |Compile(p.ctx.els)|;
    StepElse(code, t, input, end);
    ArrivesAt(file, code, t.(pc := end + 3), r, next);
  }

  lemma FileEndStep(file: Script, code: seq<Byte>, t: Thread, r: Runner, p: Place, input: Input)
    requires Table(file, code) && Tracks(code, t, r, [], p) && p.todo.Nil? && p.ctx.Top?
    ensures Matches(file, code, Step(code, t, input), r, input, [], p)
  {
    hide Code, Remembers, Table;
    EmptyPads(p);
    CodeIs(p);
    assert Code(p) == Trailer();
    EndOfTable(code, t.pc);
  }

  // ---------------------------------------------------------------- entries that do something

  /** The next statement, its entry and the code after it. */
  lemma AtHead(code: seq<Byte>, t: Thread, p: Place)
    requires PlaceOk(p) && p.todo.Cons? && !p.todo.head.Mark? && At(code, t.pc, Pads([]) + Code(p))
    ensures Settle(p) == p && StmtOk(p.todo.head) && PlaceOk(Place(p.todo.tail, p.ctx))
    ensures At(code, t.pc, Emit(p.todo.head) + Code(Place(p.todo.tail, p.ctx)))
  {
    hide Code, At;
    EmptyPads(p);
    CodeCons(p);
  }

  lemma StepAct(code: seq<Byte>, t: Thread, input: Input, op: Byte, ws: seq<Word>)
    requires OnEntry(code, t.pc) && code[t.pc] == op && IsAct(op) && Operands(code, t.pc, Arity(op)) == ws
    ensures Step(code, t, input) == if CanWait(op) && !input.ready then (Running(t), Some(Waited(op, ws)))
                                    else (Running(t.(pc := t.pc + 3)), Some(Did(op, ws)))
  {
    hide Operands, Arity, CanWait;
  }

  lemma ActStep(file: Script, code: seq<Byte>, t: Thread, r: Runner, p: Place, input: Input)
    requires Table(file, code) && Tracks(code, t, r, [], p) && p.todo.Cons? && p.todo.head.Act?
    ensures var h := p.todo.head;
            if CanWait(h.op) && !input.ready then Matches(file, code, Step(code, t, input), r, input, [], p)
            else Matches(file, code, Step(code, t, input), r, input, Rest(h.operands), Place(p.todo.tail, p.ctx))
  {
    hide Code, Remembers, Item, Table, Step, At, Op, Pads, Settle, CanWait, Arity, Operands, IsAct;
    var h, next := p.todo.head, Place(p.todo.tail, p.ctx);
    AtHead(code, t, p);
    FetchOp(code, t.pc, h.op, h.operands, Code(next));
    StepAct(code, t, input, h.op, h.operands);
    if CanWait(h.op) && !input.ready {
    } else {
      Arrives(file, code, t.(pc := t.pc + 3), r.(place := next), Rest(h.operands), next);
    }
  }

  lemma StepStart(code: seq<Byte>, t: Thread, input: Input, op: Byte, ws: seq<Word>)
    requires OnEntry(code, t.pc) && code[t.pc] == op && IsStart(op) && Operands(code, t.pc, Arity(op)) == ws
    ensures Step(code, t, input)
         == (Running(t.(pc := t.pc + 3)), Some(Started(op, ws, LookupPc(code, StartRoute(op, ws)) >= 0)))
  {
    hide Operands, Arity, LookupPc, StartRoute;
  }

  lemma StartStep(file: Script, code: seq<Byte>, t: Thread, r: Runner, p: Place, input: Input)
    requires Table(file, code) && Tracks(code, t, r, [], p) && p.todo.Cons? && p.todo.head.Start?
    ensures Matches(file, code, Step(code, t, input), r, input, Rest(p.todo.head.operands),
                    Place(p.todo.tail, p.ctx))
  {
    hide Code, Remembers, Item, Step, At, Op, Pads, Settle, Arity, Operands, IsStart, LookupPc, FindRoute,
         StartRoute, RouteCode;
    var h, next := p.todo.head, Place(p.todo.tail, p.ctx);
    AtHead(code, t, p);
    FetchOp(code, t.pc, h.op, h.operands, Code(next));
    StepStart(code, t, input, h.op, h.operands);
    var id := StartRoute(h.op, h.operands);
    LookupAgrees(file, id);
    assert LookupPc(code, id) >= 0 <==> FindRoute(file, id).Some? by { FoundIsPositive(file, code, id); }
    Arrives(file, code, t.(pc := t.pc + 3), r.(place := next), Rest(h.operands), next);
  }

  lemma FoundIsPositive(file: Script, code: seq<Byte>, id: Word)
    requires Table(file, code)
    ensures LookupPc(code, id) >= 0 <==> FindRoute(file, id).Some?
  {
    hide LookupPc, FindRoute, Code, RouteCode;
    LookupAgrees(file, id);
  }

  lemma StepIf(code: seq<Byte>, t: Thread, input: Input, op: Byte, ws: seq<Word>)
    requires OnEntry(code, t.pc) && code[t.pc] == op && IsIf(op) && Operands(code, t.pc, Arity(op)) == ws
    ensures var e := Tested(op, ws, input.holds);
            input.holds ==> Step(code, t, input) == (Running(t.(pc := t.pc + 3)), Some(e))
    ensures var e := Tested(op, ws, input.holds);
            !input.holds ==> forall end :: SkipIf(code, t.pc, 1) == Some(end) ==>
                               Step(code, t, input) == (Running(t.(pc := end + 3)), Some(e))
  {
    hide Operands, Arity, SkipIf;
  }

  /** A failed IF skips from its own entry as from its last parameter. */
  lemma SkipOwnPads(code: seq<Byte>, pc: int, ws: seq<Word>, rest: seq<Byte>)
    requires |ws| >= 1 && 0 <= pc && At(code, pc + 3, Pads(ws[1..]) + rest)
    ensures SkipIf(code, pc, 1) == SkipIf(code, pc + 3 * |ws| - 3, 1)
  {
    hide At, Pads, SkipIf;
    SkipPads(code, pc, ws[1..], rest, 1);
  }

  /** A condition that holds: on to the THEN branch, past the condition's own parameters. */
  lemma IfTaken(file: Script, code: seq<Byte>, t: Thread, r: Runner, op: Byte, ws: seq<Word>, inner: Place,
                input: Input)
    requires Table(file, code) && OnEntry(code, t.pc) && At(code, t.pc, Op(op, ws) + Code(inner))
    requires IsIf(op) && |ws| == Arity(op) && PlaceOk(inner) && Remembers(code, t.stack, r.stack) && input.holds
    ensures Step(code, t, input) == (Running(t.(pc := t.pc + 3)), Some(Tested(op, ws, true)))
    ensures Tracks(code, t.(pc := t.pc + 3), r.(place := inner), Rest(ws), inner)
  {
    hide Code, Remembers, Table, Step, At, Op, Pads, Settle, Operands, IsIf, SkipIf, OnEntry, PlaceOk;
    FetchOp(code, t.pc, op, ws, Code(inner));
    StepIf(code, t, input, op, ws);
    Arrives(file, code, t.(pc := t.pc + 3), r.(place := inner), Rest(ws), inner);
  }

  /** A condition that fails: past the THEN branch and the entry that ends it. */
  lemma IfSkipped(file: Script, code: seq<Byte>, t: Thread, r: Runner, op: Byte, ws: seq<Word>, thn: Script,
                  end: Byte, dest: Place, input: Input)
    requires Table(file, code) && OnEntry(code, t.pc) && (end == ENDIF || end == ELSE) && ScriptOk(thn)
    requires At(code, t.pc, Op(op, ws) + (Compile(thn) + (Item(end, 0) + Code(dest))))
    requires IsIf(op) && |ws| == Arity(op) && PlaceOk(dest) && Remembers(code, t.stack, r.stack) && !input.holds
    ensures var t' := t.(pc := t.pc + 3 * |ws| + |Compile(thn)| + 3);
            && Step(code, t, input) == (Running(t'), Some(Tested(op, ws, false)))
            && Tracks(code, t', r.(place := dest), [], dest)
  {
    hide Code, Remembers, Table, Step, At, Op, Pads, Settle, Operands, IsIf, SkipIf, PlaceOk, Compile, Item;
    var rest := Compile(thn) + (Item(end, 0) + Code(dest));
    FetchOp(code, t.pc, op, ws, rest);
    StepIf(code, t, input, op, ws);
    SkipOwnPads(code, t.pc, ws, rest);
    SkipLands(code, t.pc + 3 * |ws| - 3, thn, end, Code(dest));
    ArrivesAt(file, code, t.(pc := t.pc + 3 * |ws| + |Compile(thn)| + 3), r.(place := dest), dest);
  }

  lemma IfStep(file: Script, code: seq<Byte>, t: Thread, r: Runner, p: Place, input: Input)
    requires Table(file, code) && Tracks(code, t, r, [], p) && p.todo.Cons? && p.todo.head.If?
    ensures var h, next := p.todo.head, Place(p.todo.tail, p.ctx);
            var out := Step(code, t, input);
            if input.holds then Matches(file, code, out, r, input, Rest(h.operands),
                                        Place(h.thn, InLast(p.todo.tail, p.ctx)))
            else Matches(file, code, out, r, input, [], next)
  {
    hide Code, Remembers, Item, Table, Step, At, Op, Pads, Settle, SkipIf, Compile, Emit, PlaceOk, OnEntry;
    var h, next := p.todo.head, Place(p.todo.tail, p.ctx);
    AtHead(code, t, p);
    EmitIf(h, Code(next));
    var inner := Place(h.thn, InLast(p.todo.tail, p.ctx));
    EnterThen(inner, next);
    if input.holds {
      IfTaken(file, code, t, r, h.op, h.operands, inner, input);
    } else {
      IfSkipped(file, code, t, r, h.op, h.operands, h.thn, ENDIF, next, input);
    }
  }

  lemma IfElseStep(file: Script, code: seq<Byte>, t: Thread, r: Runner, p: Place, input: Input)
    requires Table(file, code) && Tracks(code, t, r, [], p) && p.todo.Cons? && p.todo.head.IfElse?
    ensures var h := p.todo.head;
            var out := Step(code, t, input);
            if input.holds then Matches(file, code, out, r, input, Rest(h.operands),
                                        Place(h.thn, InThen(h.els, p.todo.tail, p.ctx)))
            else Matches(file, code, out, r, input, [], Place(h.els, InLast(p.todo.tail, p.ctx)))
  {
    hide Code, Remembers, Item, Table, Step, At, Op, Pads, Settle, SkipIf, Compile, Emit, PlaceOk, OnEntry;
    var h, next := p.todo.head, Place(p.todo.tail, p.ctx);
    AtHead(code, t, p);
    EmitIfElse(h, Code(next));
    var other := Place(h.els, InLast(p.todo.tail, p.ctx));
    var inner := Place(h.thn, InThen(h.els, p.todo.tail, p.ctx));
    EnterThen(other, next);
    EnterBoth(inner, other, next);
    if input.holds {
      IfTaken(file, code, t, r, h.op, h.operands, inner, input);
    } else {
      IfSkipped(file, code, t, r, h.op, h.operands, h.thn, ELSE, other, input);
    }
  }

  // ---------------------------------------------------------------- calls, jumps and ends

  /** Going to a route: both find it, at the same place, or neither does. */
  lemma Goes(file: Script, code: seq<Byte>, stack: seq<int>, places: seq<Place>, id: Word, e: Event)
      returns (p': Place)
    requires Table(file, code) && Remembers(code, stack, places)
    ensures var out := Go(code, id, stack, e);
            var (ph, e') := Enter(file, id, places, e);
            out.1 == Some(e') && match out.0
                                 case Killed => ph.Over?
                                 case Running(t) => ph.Active? && Tracks(code, t, ph.r, [], p')
  {
    hide Code, Remembers, RouteCode, LookupPc, FindRoute, Settle;
    LookupAgrees(file, id);
    FoundIsPositive(file, code, id);
    match FindRoute(file, id)
    case None => p' := Place(Nil, Top);
    case Some(q) =>
      p' := q;
      ArrivesAt(file, code, Thread(PcOf(code, q), stack), Runner(q, places), q);
  }

  /** A further return address. */
  lemma RemembersMore(code: seq<Byte>, stack: seq<int>, places: seq<Place>, pc: int, p: Place)
    requires Remembers(code, stack, places) && |stack| < MAX_STACK_DEPTH
    requires PlaceOk(p) && At(code, pc, Code(p))
    ensures Remembers(code, stack + [pc], places + [p])
  {
    hide At, Code, PlaceOk;
  }

  lemma StepGo(code: seq<Byte>, t: Thread, input: Input, op: Byte, w: Word)
    requires OnEntry(code, t.pc) && code[t.pc] == op && Operand(code, t.pc, 0) == w
    ensures op == FOLLOW ==> Step(code, t, input) == Go(code, w, t.stack, Followed(w))
    ensures op == CALL && |t.stack| < MAX_STACK_DEPTH ==>
              Step(code, t, input) == Go(code, w, t.stack + [t.pc + 3], Called(w))
    ensures op == CALL && |t.stack| == MAX_STACK_DEPTH ==> Step(code, t, input) == Kill(CallDepth)
  {
    hide Operand, Go, Operands;
  }

  lemma CallStep(file: Script, code: seq<Byte>, t: Thread, r: Runner, p: Place, input: Input) returns (p': Place)
    requires Table(file, code) && Tracks(code, t, r, [], p) && p.todo.Cons?
    requires p.todo.head.Call? || p.todo.head.Follow?
    ensures Matches(file, code, Step(code, t, input), r, input, [], p')
  {
    hide Code, Remembers, Item, Table, Step, At, Pads, Settle, Go, Enter;
    var h, next := p.todo.head, Place(p.todo.tail, p.ctx);
    AtHead(code, t, p);
    var op := if h.Call? then CALL else FOLLOW;
    FetchItem(code, t.pc, op, h.route, Code(next));
    StepGo(code, t, input, op, h.route);
    p' := p;
    SameDepth(code, t, r);
    if h.Follow? {
      p' := Goes(file, code, t.stack, r.stack, h.route, Followed(h.route));
    } else if |t.stack| < MAX_STACK_DEPTH {
      RemembersMore(code, t.stack, r.stack, t.pc + 3, next);
      p' := Goes(file, code, t.stack + [t.pc + 3], r.stack + [next], h.route, Called(h.route));
    }
  }

  lemma SameDepth(code: seq<Byte>, t: Thread, r: Runner)
    requires Remembers(code, t.stack, r.stack)
    ensures |t.stack| == |r.stack| <= MAX_STACK_DEPTH
  {
  }

  lemma StepRandom(code: seq<Byte>, t: Thread, input: Input, op: Byte, rs: seq<Word>)
    requires OnEntry(code, t.pc) && code[t.pc] == op && Operand(code, t.pc, 0) == |rs| && 1 <= |rs| <= 8
    requires forall i :: 0 <= i < |rs| ==> Operand(code, t.pc, 1 + i) == rs[i]
    ensures var w := rs[input.millis % |rs|];
            && (op == RANDOM_FOLLOW ==> Step(code, t, input) == Go(code, w, t.stack, Followed(w)))
            && (op == RANDOM_CALL && |t.stack| < MAX_STACK_DEPTH ==>
                  Step(code, t, input) == Go(code, w, t.stack + [t.pc + 3 * (|rs| + 1)], Called(w)))
            && (op == RANDOM_CALL && |t.stack| == MAX_STACK_DEPTH ==> Step(code, t, input) == Kill(CallDepth))
  {
    hide Operand, Go, Operands;
  }

  /** The choices are read back as the list they were written as. */
  lemma FetchRandom(code: seq<Byte>, pc: int, op: Byte, rs: seq<Word>, rest: seq<Byte>)
    requires |rs| <= 8 && At(code, pc, Item(op, |rs|) + Choices(rs) + rest)
    ensures pc + 3 <= |code| && code[pc] == op && Operand(code, pc, 0) == |rs|
    ensures forall i :: 0 <= i < |rs| ==> Operand(code, pc, 1 + i) == rs[i]
    ensures At(code, pc + 3 * (|rs| + 1), rest)
  {
    hide At, Item, Choices;
    assert Item(op, |rs|) + Choices(rs) + rest == Item(op, |rs|) + (Choices(rs) + rest);
    FetchItem(code, pc, op, |rs|, Choices(rs) + rest);
    FetchChoices(code, pc + 3, rs, rest);
    forall i | 0 <= i < |rs| ensures Operand(code, pc, 1 + i) == rs[i] {
      assert Operand(code, pc, 1 + i) == Operand(code, pc + 3, i);
    }
  }

  lemma RandomStep(file: Script, code: seq<Byte>, t: Thread, r: Runner, p: Place, input: Input) returns (p': Place)
    requires Table(file, code) && Tracks(code, t, r, [], p) && p.todo.Cons?
    requires p.todo.head.RandomCall? || p.todo.head.RandomFollow?
    ensures Matches(file, code, Step(code, t, input), r, input, [], p')
  {
    hide Code, Remembers, Item, Table, Step, At, Pads, Settle, Go, Enter, Choices, Operand;
    var h, next := p.todo.head, Place(p.todo.tail, p.ctx);
    AtHead(code, t, p);
    var op := if h.RandomCall? then RANDOM_CALL else RANDOM_FOLLOW;
    FetchRandom(code, t.pc, op, h.routes, Code(next));
    StepRandom(code, t, input, op, h.routes);
    var id := h.routes[input.millis % |h.routes|];
    p' := p;
    SameDepth(code, t, r);
    if h.RandomFollow? {
      p' := Goes(file, code, t.stack, r.stack, id, Followed(id));
    } else if |t.stack| < MAX_STACK_DEPTH {
      var back := t.pc + 3 * (|h.routes| + 1);
      RemembersMore(code, t.stack, r.stack, back, next);
      p' := Goes(file, code, t.stack + [back], r.stack + [next], id, Called(id));
    }
  }

  lemma StepReturn(code: seq<Byte>, t: Thread, input: Input)
    requires OnEntry(code, t.pc) && code[t.pc] == RETURN
    ensures Step(code, t, input)
         == if t.stack == [] then Kill(ReturnDepth)
            else (Running(Thread(t.stack[|t.stack| - 1], t.stack[..|t.stack| - 1])), Some(Returned))
  {
    hide Operands, Operand;
  }

  /** In any table: a CALL that finds its route and has room goes there, and a RETURN with the stack as it
      was then goes on behind the CALL with the stack as it was before; behind all its choices for a
      RANDOM_CALL. */
  lemma CallComesBack(code: seq<Byte>, t: Thread, input: Input, t2: Thread, input2: Input)
    requires OnEntry(code, t.pc) && (code[t.pc] == CALL || (code[t.pc] == RANDOM_CALL && Operand(code, t.pc, 0) > 0))
    requires OnEntry(code, t2.pc) && code[t2.pc] == RETURN
    ensures var (o, _) := Step(code, t, input);
            var n: nat := Operand(code, t.pc, 0);
            var route := if code[t.pc] == CALL then n else Operand(code, t.pc, 1 + input.millis % n);
            (if |t.stack| == 4 || LookupPc(code, route) < 0 then o == Killed
             else o.Running? && o.t.pc == LookupPc(code, route))
            && (o.Running? && t2.stack == o.t.stack ==>
                  Step(code, t2, input2) ==
                    (Running(Thread(if code[t.pc] == CALL then t.pc + 3 else t.pc + 3 * (n + 1), t.stack)),
                     Some(Returned)))
  {
    hide Operands, Operand, LookupPc;
    var (o, _) := Step(code, t, input);
    if o.Running? { assert o.t.stack[..|o.t.stack| - 1] == t.stack; }
  }

  /** A FOLLOW or RANDOM_FOLLOW goes to its route with the stack as it was, or the task dies for want of the
      route. */
  lemma FollowKeepsStack(code: seq<Byte>, t: Thread, input: Input)
    requires OnEntry(code, t.pc)
    requires code[t.pc] == FOLLOW || (code[t.pc] == RANDOM_FOLLOW && Operand(code, t.pc, 0) > 0)
    ensures var n: nat := Operand(code, t.pc, 0);
            var pc := LookupPc(code, if code[t.pc] == FOLLOW then n else Operand(code, t.pc, 1 + input.millis % n));
            Step(code, t, input).0 == if pc < 0 then Killed else Running(Thread(pc, t.stack))
  {
    hide Operands, Operand, LookupPc;
  }

  /** RETURN resumes just after the CALL or RANDOM_CALL that was made last. */
  lemma ReturnStep(file: Script, code: seq<Byte>, t: Thread, r: Runner, p: Place, input: Input) returns (p': Place)
    requires Table(file, code) && Tracks(code, t, r, [], p) && p.todo.Cons? && p.todo.head.Return?
    ensures Matches(file, code, Step(code, t, input), r, input, [], p')
  {
    hide Code, Item, Table, Step, At, Pads, Settle, PlaceOk;
    AtHead(code, t, p);
    FetchItem(code, t.pc, RETURN, 0, Code(Place(p.todo.tail, p.ctx)));
    StepReturn(code, t, input);
    var n := |t.stack|;
    if n == 0 {
      p' := p;
    } else {
      p' := r.stack[n - 1];
      ArrivesAt(file, code, Thread(t.stack[n - 1], t.stack[..n - 1]), Runner(p', r.stack[..n - 1]), p');
    }
  }

  lemma StopStep(file: Script, code: seq<Byte>, t: Thread, r: Runner, p: Place, input: Input)
    requires Table(file, code) && Tracks(code, t, r, [], p) && p.todo.Cons?
    requires p.todo.head.Done? || p.todo.head.KillAll?
    ensures Matches(file, code, Step(code, t, input), r, input, [], p)
  {
    hide Code, Item, Table, At, Pads, Settle, Remembers, Operands, Operand;
    AtHead(code, t, p);
    FetchItem(code, t.pc, if p.todo.head.Done? then ENDTASK else KILLALL, 0, Code(Place(p.todo.tail, p.ctx)));
  }

  // ---------------------------------------------------------------- every run

  lemma OneService(file: Script, code: seq<Byte>, t: Thread, r: Runner, pads: seq<Word>, p: Place, input: Input)
      returns (pads': seq<Word>, p': Place)
    requires Table(file, code) && Tracks(code, t, r, pads, p)
    ensures Matches(file, code, Step(code, t, input), r, input, pads', p')
  {
    hide Matches, Tracks, Table, Step;
    pads', p' := [], p;
    if pads != [] {
      PadStep(file, code, t, r, pads, p, input);
      pads' := pads[1..];
    } else {
      match p.todo
      case Nil =>
        match p.ctx {
          case Top => FileEndStep(file, code, t, r, p, input);
          case InLast(rest, up) => EndifStep(file, code, t, r, p, input); p' := Place(rest, up);
          case InThen(_, rest, up) => ElseStep(file, code, t, r, p, input); p' := Place(rest, up);
        }
      case Cons(h, tail) =>
        match h {
          case Mark(_, ws) =>
            MarkStep(file, code, t, r, p, input);
            pads', p' := Rest(ws), Place(tail, p.ctx);
          case Act(op, ws) =>
            ActStep(file, code, t, r, p, input);
            if !CanWait(op) || input.ready { pads', p' := Rest(ws), Place(tail, p.ctx); }
          case Start(_, ws) =>
            StartStep(file, code, t, r, p, input);
            pads', p' := Rest(ws), Place(tail, p.ctx);
          case If(_, ws, thn) =>
            IfStep(file, code, t, r, p, input);
            if input.holds { pads', p' := Rest(ws), Place(thn, InLast(tail, p.ctx)); }
            else { p' := Place(tail, p.ctx); }
          case IfElse(_, ws, thn, els) =>
            IfElseStep(file, code, t, r, p, input);
            if input.holds { pads', p' := Rest(ws), Place(thn, InThen(els, tail, p.ctx)); }
            else { p' := Place(els, InLast(tail, p.ctx)); }
          case Call(_) => p' := CallStep(file, code, t, r, p, input);
          case Follow(_) => p' := CallStep(file, code, t, r, p, input);
          case RandomCall(_) => p' := RandomStep(file, code, t, r, p, input);
          case RandomFollow(_) => p' := RandomStep(file, code, t, r, p, input);
          case Return => p' := ReturnStep(file, code, t, r, p, input);
          case Done => StopStep(file, code, t, r, p, input);
          case KillAll => StopStep(file, code, t, r, p, input);
        }
    }
  }

  /** Whatever the answers from outside, the task does exactly what the script does with the
      answers that were asked for. */
  lemma {:induction false} RunsAgree(file: Script, code: seq<Byte>, t: Thread, r: Runner, pads: seq<Word>, p: Place,
                                     inputs: seq<Input>)
    requires Table(file, code) && Tracks(code, t, r, pads, p)
    ensures Trace(code, Running(t), inputs) == Story(file, Active(r), Visible(code, Running(t), inputs))
    decreases |inputs|
  {
    hide Step, ScriptStep, Table, At, Code, PlaceOk, Settle, Remembers, OnEntry;
    if inputs != [] {
      var (o, e) := Step(code, t, inputs[0]);
      var pads', p' := OneService(file, code, t, r, pads, p, inputs[0]);
      var rest := Visible(code, o, inputs[1..]);
      match e
      case None =>
        RunsAgree(file, code, o.t, r, pads', p', inputs[1..]);
        assert [] + Trace(code, o, inputs[1..]) == Trace(code, o, inputs[1..]);
        assert [] + rest == rest;
      case Some(_) =>
        var (ph, _) := ScriptStep(file, r, inputs[0]);
        assert ([inputs[0]] + rest)[1..] == rest;
        if o.Running? {
          RunsAgree(file, code, o.t, ph.r, pads', p', inputs[1..]);
        }
    }
  }

  /** The same from the start of any route: what a task created by START does. */
  lemma RouteRuns(file: Script, id: Word, inputs: seq<Input>)
    requires ScriptOk(file) && |RouteCode(file)| <= 32768 && FindRoute(file, id).Some?
    ensures var code, o := RouteCode(file), Running(Thread(LookupPc(RouteCode(file), id), []));
            Trace(code, o, inputs) ==
              Story(file, Active(Runner(FindRoute(file, id).value, [])), Visible(code, o, inputs))
  {
    hide Trace, Story, Visible, LookupPc, FindRoute, Code, PlaceOk, Settle;
    var code, q := RouteCode(file), FindRoute(file, id).value;
    LookupAgrees(file, id);
    var t := Thread(PcOf(code, q), []);
    ArrivesAt(file, code, t, Runner(q, []), q);
    RunsAgree(file, code, t, Runner(q, []), [], q, inputs);
  }

  /** The places of a script: its start, what follows each statement, and the starts of branches. */
  predicate Within(p: Place, q: Place)
    decreases p.todo
  {
    p == q ||
    (p.todo.Cons? &&
     var next := Place(p.todo.tail, p.ctx);
     (Within(next, q) ||
      match p.todo.head
      case If(_, _, thn) => Within(Place(thn, InLast(next.todo, p.ctx)), q)
      case IfElse(_, _, thn, els) =>
        Within(Place(thn, InThen(els, next.todo, p.ctx)), q) || Within(Place(els, InLast(next.todo, p.ctx)), q)
      case _ => false))
  }

  /** Each of them has its code in the table. */
  lemma {:induction false} PlacesAreThere(code: seq<Byte>, pc: int, p: Place, q: Place)
    requires Within(p, q) && PlaceOk(p) && At(code, pc, Code(p))
    ensures PlaceOk(q) && At(code, PcOf(code, q), Code(q))
    decreases p.todo
  {
    hide At, Emit, Compile, Code, Op, Item;
    if p == q {
      AtFromEnd(code, pc, Code(p));
    } else {
      var h, next := p.todo.head, Place(p.todo.tail, p.ctx);
      CodeCons(p);
      if Within(next, q) {
        Advance(code, pc, Emit(h), Code(next));
        PlacesAreThere(code, pc + |Emit(h)|, next, q);
      } else if h.If? {
        EmitIf(h, Code(next));
        var inner := Place(h.thn, InLast(next.todo, p.ctx));
        EnterThen(inner, next);
        Advance(code, pc, Op(h.op, h.operands), Code(inner));
        PlacesAreThere(code, pc + |Op(h.op, h.operands)|, inner, q);
      } else {
        EmitIfElse(h, Code(next));
        var other := Place(h.els, InLast(next.todo, p.ctx));
        var inner := Place(h.thn, InThen(h.els, next.todo, p.ctx));
        EnterThen(other, next);
        EnterBoth(inner, other, next);
        var m := pc + |Op(h.op, h.operands)|;
        Advance(code, pc, Op(h.op, h.operands), Code(inner));
        if Within(inner, q) {
          PlacesAreThere(code, m, inner, q);
        } else {
          Advance(code, m, Compile(h.thn), Item(ELSE, 0) + Code(other));
          Advance(code, m + |Compile(h.thn)|, Item(ELSE, 0), Code(other));
          PlacesAreThere(code, m + |Compile(h.thn)| + |Item(ELSE, 0)|, other, q);
        }
      }
    }
  }

  lemma AtFromEnd(code: seq<Byte>, pc: int, bytes: seq<Byte>)
    requires At(code, pc, bytes)
    ensures At(code, |code| - |bytes|, bytes)
  {
  }

  /** A task started anywhere in the file, as AUTOSTART and the event handlers do, runs the script from
      there on. */
  lemma StartedRuns(file: Script, q: Place, inputs: seq<Input>)
    requires ScriptOk(file) && |RouteCode(file)| <= 32768 && Within(Place(file, Top), q)
    ensures var code, o := RouteCode(file), Running(Thread(PcOf(RouteCode(file), q), []));
            Trace(code, o, inputs) == Story(file, Active(Runner(q, [])), Visible(code, o, inputs))
  {
    hide Trace, Story, Visible, Code, PlaceOk, Settle, Within, PcOf;
    var code, p := RouteCode(file), Place(file, Top);
    WholeFile(file);
    PlacesAreThere(code, 0, p, q);
    var t := Thread(PcOf(code, q), []);
    ArrivesAt(file, code, t, Runner(q, []), q);
    RunsAgree(file, code, t, Runner(q, []), [], q, inputs);
  }

  lemma WholeFile(file: Script)
    requires ScriptOk(file)
    ensures var p := Place(file, Top); PlaceOk(p) && At(RouteCode(file), 0, Code(p)) && PcOf(RouteCode(file), p) == 0
  {
    hide Compile;
    assert RouteCode(file)[0..] == RouteCode(file);
  }

  /** From byte 0 of the table: the whole file. */
  lemma FileRuns(file: Script, inputs: seq<Input>)
    requires ScriptOk(file) && |RouteCode(file)| <= 32768
    ensures var code, o := RouteCode(file), Running(Thread(0, []));
            Trace(code, o, inputs) == Story(file, Active(Runner(Place(file, Top), [])), Visible(code, o, inputs))
  {
    hide Trace, Story, Visible, PcOf, RouteCode;
    WholeFile(file);
    StartedRuns(file, Place(file, Top), inputs);
  }

  /** In any table, also one no script made, a skip stops on an entry, at an ELSE or ENDIF. */
  lemma {:induction false} SkipAligned(code: seq<Byte>, pc: int, nest: nat)
    requires 0 <= pc && pc % 3 == 0 && nest >= 1
    ensures var r := SkipIf(code, pc, nest);
            r.Some? ==> r.value % 3 == 0 && (code[r.value] == ENDIF || code[r.value] == ELSE)
    decreases |code| - pc
  {
    var p := pc + 3;
    if p < |code| {
      if code[p] > IF_TYPE_OPCODES {
        SkipAligned(code, p, nest + 1);
      } else if code[p] == ENDIF {
        if nest > 1 { SkipAligned(code, p, nest - 1); }
      } else if code[p] != ENDEXRAIL {
        SkipAligned(code, p, nest);
      }
    }
  }

  /** A service without effect moves the counter on, still within the table. */
  lemma SilentMoves(code: seq<Byte>, t: Thread, input: Input)
    requires OnEntry(code, t.pc) && Step(code, t, input).1.None?
    ensures var o := Step(code, t, input).0;
            o.Running? && o.t.pc > t.pc && OnEntry(code, o.t.pc)
  {
    hide Operand, Operands, LookupPc, SkipIf, StartRoute, IsAct;
    SkipAligned(code, t.pc, 1);
  }

  /** A task cannot be served for ever without doing anything: each silent service moves its
      counter further down the table. */
  lemma {:induction false} NeverSilentForever(code: seq<Byte>, t: Thread, inputs: seq<Input>)
    requires OnEntry(code, t.pc) && |inputs| > |code| - t.pc
    ensures Trace(code, Running(t), inputs) != []
    decreases |inputs|
  {
    hide Operand, Operands, LookupPc, Go, SkipIf;
    var (o, e) := Step(code, t, inputs[0]);
    if e.None? {
      SilentMoves(code, t, inputs[0]);
      NeverSilentForever(code, o.t, inputs[1..]);
    }
  }
}

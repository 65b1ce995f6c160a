/**
 The macro pass and the interpreter together mean what the script says.

 `ScriptStep` runs a script as it is written: blocks nest, a CALL remembers the place after it.
 It knows no table, no PAD and no program counter.  `RunsAgree` says that serving the table does
 exactly what running the script does, for every file, every run and every answer from outside.
 */
module ExrailCorrect {
  import opened Basics
  import opened ExrailScript
  import opened ExrailVm

  // ---------------------------------------------------------------- scripts as written

  datatype Runner = Runner(place: Place, stack: seq<Place>)

  datatype Phase = Active(r: Runner) | Over

  /** On to the next statement that does something: past declarations and ends of blocks. */
  function Settle(p: Place): (q: Place)
    ensures (q.todo.Nil? ==> q.ctx.Top?) && (q.todo.Cons? ==> !q.todo.head.Mark?)
    decreases |Code(p)|
  {
    match p.todo
    case Cons(Mark(_, _), tail) => Settle(Place(tail, p.ctx))
    case Cons(_, _) => p
    case Nil =>
      match p.ctx
      case Top => p
      case InLast(rest, up) => Settle(Place(rest, up))
      case InThen(_, rest, up) => Settle(Place(rest, up))
  }

  /** The first declaration of this kind and id, in the order the file is written. */
  function FindMark(p: Place, kinds: Kinds, id: Word): Option<Place>
    decreases p.todo, 1
  {
    match p.todo
    case Nil => None
    case Cons(_, tail) =>
      var r := FindHead(p, kinds, id);
      if r.Some? then r else FindMark(Place(tail, p.ctx), kinds, id)
  }

  /** The first such declaration at or inside the next statement. */
  function FindHead(p: Place, kinds: Kinds, id: Word): Option<Place>
    requires p.todo.Cons?
    decreases p.todo, 0
  {
    var Cons(h, tail) := p.todo;
    match h
    case Mark(op, ws) => if kinds.Has(op) && ws != [] && ws[0] == id then Some(p) else None
    case If(_, _, thn) => FindMark(Place(thn, InLast(tail, p.ctx)), kinds, id)
    case IfElse(_, _, thn, els) =>
      var r := FindMark(Place(thn, InThen(els, tail, p.ctx)), kinds, id);
      if r.Some? then r else FindMark(Place(els, InLast(tail, p.ctx)), kinds, id)
    case _ => None
  }

  /** Routes and automations are looked for before sequences. */
  function FindRoute(file: Script, id: Word): Option<Place> {
    var r := FindMark(Place(file, Top), Routes, id);
    if r.Some? then r else FindMark(Place(file, Top), Sequences, id)
  }

  function Enter(file: Script, id: Word, stack: seq<Place>, e: Event): (Phase, Event) {
    match FindRoute(file, id)
    case None => (Over, Ceased(UnknownRoute))
    case Some(q) => (Active(Runner(q, stack)), e)
  }

  /** One step of a script as it is written. */
  function ScriptStep(file: Script, r: Runner, input: Input): (Phase, Event) {
    var p := Settle(r.place);
    match p.todo
    case Nil => (Over, Ceased(Ended))
    case Cons(s, tail) =>
      var next := Place(tail, p.ctx);
      match s
      case Act(op, ws) =>
        if CanWait(op) && !input.ready then (Active(r.(place := p)), Waited(op, ws))
        else (Active(r.(place := next)), Did(op, ws))
      case Start(op, ws) =>
        (Active(r.(place := next)), Started(op, ws, FindRoute(file, StartRoute(op, ws)).Some?))
      case If(op, ws, thn) =>
        (Active(r.(place := if input.holds then Place(thn, InLast(tail, p.ctx)) else next)),
         Tested(op, ws, input.holds))
      case IfElse(op, ws, thn, els) =>
        (Active(r.(place := if input.holds then Place(thn, InThen(els, tail, p.ctx))
                            else Place(els, InLast(tail, p.ctx)))),
         Tested(op, ws, input.holds))
      case Call(id) =>
        if |r.stack| == MAX_STACK_DEPTH then (Over, Ceased(CallDepth))
        else Enter(file, id, r.stack + [next], Called(id))
      case RandomCall(ids) =>
        if ids == [] then (Over, Ceased(InvalidOp))
        else if |r.stack| == MAX_STACK_DEPTH then (Over, Ceased(CallDepth))
        else
          var id := ids[input.millis % |ids|];
          Enter(file, id, r.stack + [next], Called(id))
      case Follow(id) => Enter(file, id, r.stack, Followed(id))
      case RandomFollow(ids) =>
        if ids == [] then (Over, Ceased(InvalidOp))
        else
          var id := ids[input.millis % |ids|];
          Enter(file, id, r.stack, Followed(id))
      case Return =>
        if r.stack == [] then (Over, Ceased(ReturnDepth))
        else (Active(Runner(r.stack[|r.stack| - 1], r.stack[..|r.stack| - 1])), Returned)
      case Done => (Over, Ceased(Ended))
      case KillAll => (Over, Ceased(AllKilled))
      case Mark(_, _) => (Over, Ceased(InvalidOp)) // Settle leaves no declaration in front
  }

  /** Everything a script does, given these answers. */
  function Story(file: Script, ph: Phase, inputs: seq<Input>): seq<Event>
    decreases |inputs|
  {
    if inputs == [] || ph.Over? then []
    else
      var (ph', e) := ScriptStep(file, ph.r, inputs[0]);
      [e] + Story(file, ph', inputs[1..])
  }

  // ---------------------------------------------------------------- skipping a whole script

  /** Entries that neither open nor close a block are passed by a skip. */
  predicate Flat(op: Byte) {
    op <= IF_TYPE_OPCODES && op != ENDEXRAIL && op != ENDIF && op != ELSE
  }

  lemma SkipFlat(code: seq<Byte>, pc: int, op: Byte, w: Word, rest: seq<Byte>, nest: nat)
    requires nest >= 1 && Flat(op) && 0 <= pc && At(code, pc + 3, Item(op, w) + rest)
    ensures At(code, pc + 6, rest) && SkipIf(code, pc, nest) == SkipIf(code, pc + 3, nest)
  {
    FetchItem(code, pc + 3, op, w, rest);
  }

  /** The entry that ends the block being skipped. */
  lemma SkipEnd(code: seq<Byte>, pc: int, end: Byte, rest: seq<Byte>)
    requires (end == ENDIF || end == ELSE) && 0 <= pc && At(code, pc + 3, Item(end, 0) + rest)
    ensures SkipIf(code, pc, 1) == Some(pc + 3) && At(code, pc + 6, rest)
  {
    FetchItem(code, pc + 3, end, 0, rest);
  }

  /** An ENDIF inside closes the nested block. */
  lemma SkipInnerEndif(code: seq<Byte>, pc: int, rest: seq<Byte>, nest: nat)
    requires nest >= 1 && 0 <= pc && At(code, pc + 3, Item(ENDIF, 0) + rest)
    ensures SkipIf(code, pc, nest + 1) == SkipIf(code, pc + 3, nest) && At(code, pc + 6, rest)
  {
    FetchItem(code, pc + 3, ENDIF, 0, rest);
  }

  /** An ELSE inside belongs to the nested block and is passed. */
  lemma SkipInnerElse(code: seq<Byte>, pc: int, rest: seq<Byte>, nest: nat)
    requires nest >= 1 && 0 <= pc && At(code, pc + 3, Item(ELSE, 0) + rest)
    ensures SkipIf(code, pc, nest + 1) == SkipIf(code, pc + 3, nest + 1) && At(code, pc + 6, rest)
  {
    FetchItem(code, pc + 3, ELSE, 0, rest);
  }

  lemma {:induction false} SkipPads(code: seq<Byte>, pc: int, ws: seq<Word>, rest: seq<Byte>, nest: nat)
    requires nest >= 1 && 0 <= pc && At(code, pc + 3, Pads(ws) + rest)
    ensures At(code, pc + 3 + 3 * |ws|, rest)
    ensures SkipIf(code, pc, nest) == SkipIf(code, pc + 3 * |ws|, nest)
    decreases |ws|
  {
    if ws != [] {
      assert Pads(ws) + rest == Item(PAD, ws[0]) + (Pads(ws[1..]) + rest);
      SkipFlat(code, pc, PAD, ws[0], Pads(ws[1..]) + rest, nest);
      SkipPads(code, pc + 3, ws[1..], rest, nest);
    }
  }

  lemma {:induction false} SkipChoices(code: seq<Byte>, pc: int, ws: seq<Word>, rest: seq<Byte>, nest: nat)
    requires nest >= 1 && 0 <= pc && At(code, pc + 3, Choices(ws) + rest)
    ensures At(code, pc + 3 + 3 * |ws|, rest)
    ensures SkipIf(code, pc, nest) == SkipIf(code, pc + 3 * |ws|, nest)
    decreases |ws|
  {
    if ws != [] {
      assert Choices(ws) + rest == Item(CALL, ws[0]) + (Choices(ws[1..]) + rest);
      SkipFlat(code, pc, CALL, ws[0], Choices(ws[1..]) + rest, nest);
      SkipChoices(code, pc + 3, ws[1..], rest, nest);
    }
  }

  lemma SkipOp(code: seq<Byte>, pc: int, op: Byte, ws: seq<Word>, rest: seq<Byte>, nest: nat)
    requires nest >= 1 && 0 <= pc && |ws| >= 1 && (Flat(op) || IsIf(op))
    requires At(code, pc + 3, Op(op, ws) + rest)
    ensures At(code, pc + 3 + 3 * |ws|, rest)
    ensures SkipIf(code, pc, nest) == SkipIf(code, pc + 3 * |ws|, if IsIf(op) then nest + 1 else nest)
  {
    hide Op, Item, Pads, Operand, At, SkipIf;
    OpParts(op, ws, rest);
    FetchItem(code, pc + 3, op, ws[0], Pads(ws[1..]) + rest);
    SkipHead(code, pc, nest);
    SkipPads(code, pc + 3, ws[1..], rest, if IsIf(op) then nest + 1 else nest);
  }

  lemma SkipHead(code: seq<Byte>, pc: int, nest: nat)
    requires nest >= 1 && 0 <= pc && pc + 3 < |code| && (Flat(code[pc + 3]) || IsIf(code[pc + 3]))
    ensures SkipIf(code, pc, nest) == SkipIf(code, pc + 3, if IsIf(code[pc + 3]) then nest + 1 else nest)
  {
  }

  /** A skip passes over a well-nested script, whatever stands in it. */
  lemma {:induction false} SkipScript(code: seq<Byte>, pc: int, s: Script, rest: seq<Byte>, nest: nat)
    requires ScriptOk(s) && nest >= 1 && 0 <= pc && At(code, pc + 3, Compile(s) + rest)
    ensures At(code, pc + 3 + |Compile(s)|, rest)
    ensures SkipIf(code, pc, nest) == SkipIf(code, pc + |Compile(s)|, nest)
    decreases s, 2
  {
    hide SkipIf, At, Emit;
    match s
    case Nil => assert Compile(s) + rest == rest;
    case Cons(h, t) =>
      assert StmtOk(h) && ScriptOk(t);
      assert Compile(s) + rest == Emit(h) + (Compile(t) + rest);
      SkipStmt(code, pc, h, Compile(t) + rest, nest);
      SkipScript(code, pc + |Emit(h)|, t, rest, nest);
  }

  lemma {:induction false} SkipStmt(code: seq<Byte>, pc: int, s: Stmt, rest: seq<Byte>, nest: nat)
    requires StmtOk(s) && nest >= 1 && 0 <= pc && At(code, pc + 3, Emit(s) + rest)
    ensures At(code, pc + 3 + |Emit(s)|, rest)
    ensures SkipIf(code, pc, nest) == SkipIf(code, pc + |Emit(s)|, nest)
    decreases s, 1
  {
    hide SkipIf, At, Compile, Choices, ScriptOk, Op, Item;
    Advance(code, pc + 3, Emit(s), rest);
    match s
    case If(_, _, _) => SkipThen(code, pc, s, rest, nest);
    case IfElse(_, _, _, _) => SkipBoth(code, pc, s, rest, nest);
    case RandomCall(rs) => SkipRandom(code, pc, RANDOM_CALL, rs, rest, nest);
    case RandomFollow(rs) => SkipRandom(code, pc, RANDOM_FOLLOW, rs, rest, nest);
    case _ => SkipSimple(code, pc, s, rest, nest);
  }

  /** Statements that compile to one opcode with its parameters. */
  predicate OneOp(s: Stmt, op: Byte, ws: seq<Word>) {
    |ws| >= 1 && Emit(s) == Op(op, ws) && Flat(op)
  }

  lemma SimpleIsOneOp(s: Stmt) returns (op: Byte, ws: seq<Word>)
    requires StmtOk(s) && !s.If? && !s.IfElse? && !s.RandomCall? && !s.RandomFollow?
    ensures OneOp(s, op, ws)
    ensures if s.Mark? then op == s.op && ws == s.operands else !IsRouteMark(op) && !IsSequenceMark(op)
  {
    match s
    case Act(o, xs) => op, ws := o, xs;
    case Start(o, xs) => op, ws := o, xs;
    case Mark(o, xs) => op, ws := o, xs;
    case Call(r) => op, ws := CALL, [r];
    case Follow(r) => op, ws := FOLLOW, [r];
    case Return => op, ws := RETURN, [0];
    case Done => op, ws := ENDTASK, [0];
    case KillAll => op, ws := KILLALL, [0];
  }

  lemma SkipSimple(code: seq<Byte>, pc: int, s: Stmt, rest: seq<Byte>, nest: nat)
    requires StmtOk(s) && !s.If? && !s.IfElse? && !s.RandomCall? && !s.RandomFollow?
    requires nest >= 1 && 0 <= pc && At(code, pc + 3, Emit(s) + rest)
    ensures SkipIf(code, pc, nest) == SkipIf(code, pc + |Emit(s)|, nest)
  {
    var op, ws := SimpleIsOneOp(s);
    hide SkipIf, At, Emit, StmtOk;
    SkipOp(code, pc, op, ws, rest, nest);
  }

  lemma SkipRandom(code: seq<Byte>, pc: int, op: Byte, rs: seq<Word>, rest: seq<Byte>, nest: nat)
    requires nest >= 1 && 0 <= pc && Flat(op) && |rs| <= 8
    requires At(code, pc + 3, Item(op, |rs|) + Choices(rs) + rest)
    ensures SkipIf(code, pc, nest) == SkipIf(code, pc + 3 + 3 * |rs|, nest)
  {
    assert Item(op, |rs|) + Choices(rs) + rest == Item(op, |rs|) + (Choices(rs) + rest);
    SkipFlat(code, pc, op, |rs|, Choices(rs) + rest, nest);
    SkipChoices(code, pc + 3, rs, rest, nest);
  }

  lemma EmitIf(s: Stmt, rest: seq<Byte>)
    requires s.If? && StmtOk(s)
    ensures IsIf(s.op) && |s.operands| >= 1 && ScriptOk(s.thn)
    ensures |Emit(s)| == 3 * |s.operands| + |Compile(s.thn)| + 3
    ensures Emit(s) + rest == Op(s.op, s.operands) + (Compile(s.thn) + (Item(ENDIF, 0) + rest))
  {
    hide Op, Compile, Item;
  }

  lemma EmitIfElse(s: Stmt, rest: seq<Byte>)
    requires s.IfElse? && StmtOk(s)
    ensures IsIf(s.op) && |s.operands| >= 1 && ScriptOk(s.thn) && ScriptOk(s.els)
    ensures |Emit(s)| == 3 * |s.operands| + |Compile(s.thn)| + 3 + |Compile(s.els)| + 3
    ensures Emit(s) + rest
         == Op(s.op, s.operands) + (Compile(s.thn) + (Item(ELSE, 0) + (Compile(s.els) + (Item(ENDIF, 0) + rest))))
  {
    hide Op, Compile, Item;
  }

  lemma {:induction false} SkipThen(code: seq<Byte>, pc: int, s: Stmt, rest: seq<Byte>, nest: nat)
    requires StmtOk(s) && s.If? && nest >= 1 && 0 <= pc && At(code, pc + 3, Emit(s) + rest)
    ensures SkipIf(code, pc, nest) == SkipIf(code, pc + |Emit(s)|, nest)
    decreases s, 0
  {
    hide *;
    EmitIf(s, rest);
    var q := pc + 3 * |s.operands|;
    var tail := Item(ENDIF, 0) + rest;
    SkipOp(code, pc, s.op, s.operands, Compile(s.thn) + tail, nest);
    SkipScript(code, q, s.thn, tail, nest + 1);
    SkipInnerEndif(code, q + |Compile(s.thn)|, rest, nest);
  }

  lemma {:induction false} SkipBoth(code: seq<Byte>, pc: int, s: Stmt, rest: seq<Byte>, nest: nat)
    requires StmtOk(s) && s.IfElse? && nest >= 1 && 0 <= pc && At(code, pc + 3, Emit(s) + rest)
    ensures SkipIf(code, pc, nest) == SkipIf(code, pc + |Emit(s)|, nest)
    decreases s, 0
  {
    hide *;
    EmitIfElse(s, rest);
    var q := pc + 3 * |s.operands|;
    var m := q + |Compile(s.thn)|;
    var tail := Item(ENDIF, 0) + rest;
    var mid := Item(ELSE, 0) + (Compile(s.els) + tail);
    SkipOp(code, pc, s.op, s.operands, Compile(s.thn) + mid, nest);
    SkipScript(code, q, s.thn, mid, nest + 1);
    SkipInnerElse(code, m, Compile(s.els) + tail, nest);
    SkipScript(code, m + 3, s.els, tail, nest + 1);
    SkipInnerEndif(code, m + 3 + |Compile(s.els)|, rest, nest);
  }

  /** A failed IF lands just past its own ELSE or ENDIF, and a reached ELSE just past its ENDIF. */
  lemma SkipLands(code: seq<Byte>, pc: int, s: Script, end: Byte, rest: seq<Byte>)
    requires ScriptOk(s) && (end == ENDIF || end == ELSE) && 0 <= pc
    requires At(code, pc + 3, Compile(s) + (Item(end, 0) + rest))
    ensures SkipIf(code, pc, 1) == Some(pc + 3 + |Compile(s)|)
    ensures At(code, pc + 6 + |Compile(s)|, rest)
  {
    hide *;
    SkipScript(code, pc, s, Item(end, 0) + rest, 1);
    SkipEnd(code, pc + |Compile(s)|, end, rest);
  }

  // ---------------------------------------------------------------- finding routes

  function PcOf(code: seq<Byte>, p: Place): int {
    |code| - |Code(p)|
  }

  /** Entries the search for a route passes. */
  predicate Passes(kinds: Kinds, op: Byte) {
    op != ENDEXRAIL && !kinds.Has(op)
  }

  lemma PassItem(code: seq<Byte>, pc: int, op: Byte, w: Word, rest: seq<Byte>, kinds: Kinds, id: Word)
    requires Passes(kinds, op) && At(code, pc, Item(op, w) + rest)
    ensures At(code, pc + 3, rest) && FirstPc(code, pc, kinds, id) == FirstPc(code, pc + 3, kinds, id)
  {
    FetchItem(code, pc, op, w, rest);
  }

  lemma {:induction false} PassPads(code: seq<Byte>, pc: int, ws: seq<Word>, rest: seq<Byte>, kinds: Kinds, id: Word)
    requires At(code, pc, Pads(ws) + rest)
    ensures At(code, pc + 3 * |ws|, rest)
    ensures FirstPc(code, pc, kinds, id) == FirstPc(code, pc + 3 * |ws|, kinds, id)
    decreases |ws|
  {
    hide FirstPc, At, Item;
    if ws != [] {
      assert Pads(ws) + rest == Item(PAD, ws[0]) + (Pads(ws[1..]) + rest);
      PassItem(code, pc, PAD, ws[0], Pads(ws[1..]) + rest, kinds, id);
      PassPads(code, pc + 3, ws[1..], rest, kinds, id);
    } else {
      assert Pads(ws) + rest == rest;
    }
  }

  lemma {:induction false} PassChoices(code: seq<Byte>, pc: int, ws: seq<Word>, rest: seq<Byte>, kinds: Kinds, id: Word)
    requires At(code, pc, Choices(ws) + rest)
    ensures At(code, pc + 3 * |ws|, rest)
    ensures FirstPc(code, pc, kinds, id) == FirstPc(code, pc + 3 * |ws|, kinds, id)
    decreases |ws|
  {
    hide FirstPc, At, Item;
    if ws != [] {
      assert Choices(ws) + rest == Item(CALL, ws[0]) + (Choices(ws[1..]) + rest);
      PassItem(code, pc, CALL, ws[0], Choices(ws[1..]) + rest, kinds, id);
      PassChoices(code, pc + 3, ws[1..], rest, kinds, id);
    } else {
      assert Choices(ws) + rest == rest;
    }
  }

  lemma PassOp(code: seq<Byte>, pc: int, op: Byte, ws: seq<Word>, rest: seq<Byte>, kinds: Kinds, id: Word)
    requires |ws| >= 1 && At(code, pc, Op(op, ws) + rest)
    ensures At(code, pc + 3 * |ws|, rest)
    ensures (Passes(kinds, op) || (kinds.Has(op) && ws[0] != id)) ==>
              FirstPc(code, pc, kinds, id) == FirstPc(code, pc + 3 * |ws|, kinds, id)
    ensures kinds.Has(op) && ws[0] == id ==> FirstPc(code, pc, kinds, id) == Some(pc)
  {
    hide Op, Item, Pads, Operand, At, FirstPc;
    OpParts(op, ws, rest);
    FetchItem(code, pc, op, ws[0], Pads(ws[1..]) + rest);
    assert pc >= 0 by { AtIsHere(code, pc, Op(op, ws) + rest); }
    PassPads(code, pc + 3, ws[1..], rest, kinds, id);
    FirstHead(code, pc, kinds, id);
  }

  lemma AtIsHere(code: seq<Byte>, pc: int, bytes: seq<Byte>)
    requires At(code, pc, bytes)
    ensures 0 <= pc <= |code|
  {
  }

  lemma FirstHead(code: seq<Byte>, pc: int, kinds: Kinds, id: Word)
    requires 0 <= pc < |code|
    ensures code[pc] == ENDEXRAIL ==> FirstPc(code, pc, kinds, id) == None
    ensures code[pc] != ENDEXRAIL ==>
              FirstPc(code, pc, kinds, id) == if kinds.Has(code[pc]) && Operand(code, pc, 0) == id then Some(pc)
                                              else FirstPc(code, pc + 3, kinds, id)
  {
  }

  /** What the search through a block's entries gives: the declaration the search through the
      block's statements gives, or else what lies beyond the block. */
  predicate Found(code: seq<Byte>, pc: int, beyond: int, r: Option<Place>, kinds: Kinds, id: Word)
    requires 0 <= pc && 0 <= beyond
  {
    match r
    case None => FirstPc(code, pc, kinds, id) == FirstPc(code, beyond, kinds, id)
    case Some(q) =>
      PlaceOk(q) && At(code, PcOf(code, q), Code(q)) && FirstPc(code, pc, kinds, id) == Some(PcOf(code, q))
  }

  lemma FoundThen(code: seq<Byte>, pc: int, mid: int, beyond: int, r: Option<Place>, r': Option<Place>,
                  kinds: Kinds, id: Word)
    requires 0 <= pc && 0 <= mid && 0 <= beyond
    requires Found(code, pc, mid, r, kinds, id) && Found(code, mid, beyond, r', kinds, id)
    ensures Found(code, pc, beyond, if r.Some? then r else r', kinds, id)
  {
    hide PlaceOk, At, Code, FirstPc;
  }

  lemma CodeCons(p: Place)
    requires p.todo.Cons?
    ensures Code(p) == Emit(p.todo.head) + Code(Place(p.todo.tail, p.ctx))
    ensures Compile(p.todo) == Emit(p.todo.head) + Compile(p.todo.tail)
    ensures PlaceOk(p) ==> StmtOk(p.todo.head) && PlaceOk(Place(p.todo.tail, p.ctx))
  {
    hide Emit, After;
    assert Compile(p.todo) == Emit(p.todo.head) + Compile(p.todo.tail);
  }

  lemma {:induction false} FindBlock(code: seq<Byte>, pc: int, p: Place, kinds: Kinds, id: Word)
    requires PlaceOk(p) && At(code, pc, Code(p)) && 0 <= pc
    ensures Found(code, pc, pc + |Compile(p.todo)|, FindMark(p, kinds, id), kinds, id)
    ensures At(code, pc + |Compile(p.todo)|, After(p.ctx))
    decreases p.todo, 2
  {
    hide At, Emit, After, Compile, FirstPc, Code, PlaceOk, FindHead;
    CodeIs(p);
    Advance(code, pc, Compile(p.todo), After(p.ctx));
    if p.todo.Cons? {
      var next := Place(p.todo.tail, p.ctx);
      var mid := pc + |Emit(p.todo.head)|;
      CodeCons(p);
      Advance(code, pc, Emit(p.todo.head), Code(next));
      FindInHead(code, pc, p, kinds, id);
      FindBlock(code, mid, next, kinds, id);
      FoundThen(code, pc, mid, pc + |Compile(p.todo)|, FindHead(p, kinds, id), FindMark(next, kinds, id), kinds, id);
    }
  }

  lemma CodeIs(p: Place)
    ensures Code(p) == Compile(p.todo) + After(p.ctx)
    ensures p.todo.Nil? ==> Compile(p.todo) == []
  {
    hide After;
  }

  lemma {:induction false} FindInHead(code: seq<Byte>, pc: int, p: Place, kinds: Kinds, id: Word)
    requires p.todo.Cons? && PlaceOk(p) && At(code, pc, Code(p)) && 0 <= pc
    ensures Found(code, pc, pc + |Emit(p.todo.head)|, FindHead(p, kinds, id), kinds, id)
    decreases p.todo, 1
  {
    hide At, Emit, Compile, FirstPc, Code, Op, Item, Found, FindMark, FindHead, After;
    CodeCons(p);
    var rest := Code(Place(p.todo.tail, p.ctx));
    match p.todo.head
    case If(_, _, _) => FindInThen(code, pc, p, kinds, id);
    case IfElse(_, _, _, _) => FindInBoth(code, pc, p, kinds, id);
    case RandomCall(rs) => FindInRandom(code, pc, p, kinds, id);
    case RandomFollow(rs) => FindInRandom(code, pc, p, kinds, id);
    case _ => FindSimple(code, pc, p, kinds, id);
  }

  lemma FindInRandom(code: seq<Byte>, pc: int, p: Place, kinds: Kinds, id: Word)
    requires p.todo.Cons? && PlaceOk(p) && At(code, pc, Code(p)) && 0 <= pc
    requires p.todo.head.RandomCall? || p.todo.head.RandomFollow?
    ensures Found(code, pc, pc + |Emit(p.todo.head)|, FindHead(p, kinds, id), kinds, id)
  {
    hide At, FirstPc, Code, Compile, After, Item, Choices;
    CodeCons(p);
    var h := p.todo.head;
    PassRandom(code, pc, if h.RandomCall? then RANDOM_CALL else RANDOM_FOLLOW, h.routes,
               Code(Place(p.todo.tail, p.ctx)), kinds, id);
  }

  lemma PassRandom(code: seq<Byte>, pc: int, op: Byte, rs: seq<Word>, rest: seq<Byte>, kinds: Kinds, id: Word)
    requires Passes(kinds, op) && |rs| <= 8 && 0 <= pc
    requires At(code, pc, Item(op, |rs|) + Choices(rs) + rest)
    ensures FirstPc(code, pc, kinds, id) == FirstPc(code, pc + 3 + 3 * |rs|, kinds, id)
  {
    hide At, FirstPc, Passes;
    assert Item(op, |rs|) + Choices(rs) + rest == Item(op, |rs|) + (Choices(rs) + rest);
    PassItem(code, pc, op, |rs|, Choices(rs) + rest, kinds, id);
    PassChoices(code, pc + 3, rs, rest, kinds, id);
  }

  lemma FindSimple(code: seq<Byte>, pc: int, p: Place, kinds: Kinds, id: Word)
    requires p.todo.Cons? && PlaceOk(p) && At(code, pc, Code(p)) && 0 <= pc
    requires var h := p.todo.head; !h.If? && !h.IfElse? && !h.RandomCall? && !h.RandomFollow?
    ensures Found(code, pc, pc + |Emit(p.todo.head)|, FindHead(p, kinds, id), kinds, id)
  {
    hide FirstPc, Op, Pads, Item, Code;
    CodeCons(p);
    var h := p.todo.head;
    var op, ws := SimpleIsOneOp(h);
    PassOp(code, pc, op, ws, Code(Place(p.todo.tail, p.ctx)), kinds, id);
  }

  lemma {:induction false} FindInThen(code: seq<Byte>, pc: int, p: Place, kinds: Kinds, id: Word)
    requires p.todo.Cons? && p.todo.head.If? && PlaceOk(p) && At(code, pc, Code(p)) && 0 <= pc
    ensures Found(code, pc, pc + |Emit(p.todo.head)|, FindHead(p, kinds, id), kinds, id)
    decreases p.todo, 0
  {
    hide At, Emit, Compile, FirstPc, Code, Op, Item;
    var h, next := p.todo.head, Place(p.todo.tail, p.ctx);
    CodeCons(p);
    EmitIf(h, Code(next));
    var inner := Place(h.thn, InLast(p.todo.tail, p.ctx));
    EnterThen(inner, next);
    PassOp(code, pc, h.op, h.operands, Code(inner), kinds, id);
    var q := pc + 3 * |h.operands|;
    FindBlock(code, q, inner, kinds, id);
    PassItem(code, q + |Compile(h.thn)|, ENDIF, 0, Code(next), kinds, id);
  }

  lemma PlaceHead(p: Place)
    requires p.todo.Cons? && PlaceOk(p)
    ensures StmtOk(p.todo.head) && PlaceOk(Place(p.todo.tail, p.ctx))
  {
  }

  /** The code of a last branch: its statements, ENDIF, and the code after the IF. */
  lemma EnterThen(inner: Place, next: Place)
    requires inner.ctx == InLast(next.todo, next.ctx)
    ensures Code(inner) == Compile(inner.todo) + (Item(ENDIF, 0) + Code(next))
    ensures After(inner.ctx) == Item(ENDIF, 0) + Code(next)
    ensures ScriptOk(inner.todo) && PlaceOk(next) ==> PlaceOk(inner)
  {
    hide Compile, Item;
  }

  /** The code of a THEN branch that an ELSE follows. */
  lemma EnterBoth(inner: Place, other: Place, next: Place)
    requires other.ctx == InLast(next.todo, next.ctx)
    requires inner.ctx == InThen(other.todo, next.todo, next.ctx)
    ensures Code(inner) == Compile(inner.todo) + (Item(ELSE, 0) + Code(other))
    ensures After(inner.ctx) == Item(ELSE, 0) + Code(other)
    ensures ScriptOk(inner.todo) && ScriptOk(other.todo) && PlaceOk(next) ==> PlaceOk(inner) && PlaceOk(other)
  {
    hide Compile, Item;
  }

  lemma {:induction false} FindInBoth(code: seq<Byte>, pc: int, p: Place, kinds: Kinds, id: Word)
    requires p.todo.Cons? && p.todo.head.IfElse? && PlaceOk(p) && At(code, pc, Code(p)) && 0 <= pc
    ensures Found(code, pc, pc + |Emit(p.todo.head)|, FindHead(p, kinds, id), kinds, id)
    decreases p.todo, 0
  {
    hide At, Emit, Compile, FirstPc, Code, Op, Item, Found, FindMark, FindHead, ScriptOk, PlaceOk, After;
    PlaceHead(p);
    var h, next := p.todo.head, Place(p.todo.tail, p.ctx);
    CodeCons(p);
    EmitIfElse(h, Code(next));
    var other := Place(h.els, InLast(p.todo.tail, p.ctx));
    var inner := Place(h.thn, InThen(h.els, p.todo.tail, p.ctx));
    EnterThen(other, next);
    EnterBoth(inner, other, next);
    PassOp(code, pc, h.op, h.operands, Code(inner), kinds, id);
    var q := pc + 3 * |h.operands|;
    var m := FindBranch(code, q, inner, ELSE, other, kinds, id);
    var e := FindBranch(code, m, other, ENDIF, next, kinds, id);
    var r, r' := FindMark(inner, kinds, id), FindMark(other, kinds, id);
    FoundVia(code, pc, q, m, m, r, kinds, id);
    FoundThen(code, pc, m, e, r, r', kinds, id);
    HeadOfBoth(p, kinds, id);
  }

  lemma HeadOfBoth(p: Place, kinds: Kinds, id: Word)
    requires p.todo.Cons? && p.todo.head.IfElse?
    ensures var h, tail := p.todo.head, p.todo.tail;
            var r := FindMark(Place(h.thn, InThen(h.els, tail, p.ctx)), kinds, id);
            FindHead(p, kinds, id) == if r.Some? then r else FindMark(Place(h.els, InLast(tail, p.ctx)), kinds, id)
  {
    hide FindMark;
  }

  /** A branch, and the entry that ends it. */
  lemma {:induction false} FindBranch(code: seq<Byte>, pc: int, p: Place, end: Byte, next: Place,
                                      kinds: Kinds, id: Word)
      returns (beyond: int)
    requires PlaceOk(p) && At(code, pc, Code(p)) && 0 <= pc && Passes(kinds, end)
    requires After(p.ctx) == Item(end, 0) + Code(next)
    ensures beyond == pc + |Compile(p.todo)| + 3 && At(code, beyond, Code(next))
    ensures Found(code, pc, beyond, FindMark(p, kinds, id), kinds, id)
    decreases p.todo, 3
  {
    hide At, Emit, After, Compile, FirstPc, Code, PlaceOk, FindHead, Item, Found, FindMark, Passes;
    FindBlock(code, pc, p, kinds, id);
    var m := pc + |Compile(p.todo)|;
    PassItem(code, m, end, 0, Code(next), kinds, id);
    beyond := m + 3;
    FoundVia(code, pc, pc, m, beyond, FindMark(p, kinds, id), kinds, id);
  }

  lemma FoundVia(code: seq<Byte>, pc: int, from: int, to: int, beyond: int, r: Option<Place>, kinds: Kinds, id: Word)
    requires 0 <= pc && 0 <= from && 0 <= to && 0 <= beyond && Found(code, from, to, r, kinds, id)
    requires FirstPc(code, pc, kinds, id) == FirstPc(code, from, kinds, id)
    requires FirstPc(code, to, kinds, id) == FirstPc(code, beyond, kinds, id)
    ensures Found(code, pc, beyond, r, kinds, id)
  {
    hide PlaceOk, At, Code, FirstPc;
  }
}

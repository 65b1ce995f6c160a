/**
 EXRAIL scripts and the table the macros turn them into.

 A script is written with nested macros (IF ... ELSE ... ENDIF, CALL, RANDOM_CALL, ...).
 The last macro pass expands it to one flat table of three-byte entries: an opcode and a
 little-endian 16-bit parameter.  Further parameters follow in entries whose opcode is PAD.
 */
module ExrailScript {
  import opened Basics

  // Opcode numbers, as the enumeration assigns them.
  const RESERVE: Byte := 11
  const FREE: Byte := 12
  const ENDIF: Byte := 26
  const ELSE: Byte := 27
  const PAD: Byte := 48
  const FOLLOW: Byte := 49
  const CALL: Byte := 50
  const RETURN: Byte := 51
  const START: Byte := 57
  const SENDLOCO: Byte := 62
  const KILLALL: Byte := 78
  const ROUTE: Byte := 79
  const AUTOMATION: Byte := 80
  const SEQUENCE: Byte := 81
  const ENDTASK: Byte := 82
  const ENDEXRAIL: Byte := 83
  const FREEALL: Byte := 131
  const RANDOM_CALL: Byte := 137
  const RANDOM_FOLLOW: Byte := 138
  const IF_TYPE_OPCODES: Byte := 140
  const IFRESERVE: Byte := 150
  const LAST_OPCODE: Byte := 163

  const MAX_STACK_DEPTH := 4

  /** Every opcode above the divider opens a block that ENDIF closes. */
  predicate IsIf(op: Byte) {
    IF_TYPE_OPCODES < op <= LAST_OPCODE
  }

  /** Entries that the interpreter steps over at run time: declarations, entry points, PAD. */
  predicate IsMark(op: Byte) {
    || op == 16 || op == 46 || 68 <= op <= 71 || 75 <= op <= 76 || 79 <= op <= 81 || 86 <= op <= 89
    || 91 <= op <= 95 || op == 100 || 103 <= op <= 107 || 117 <= op <= 118 || 121 <= op <= 122 || op == 130
  }

  predicate IsStart(op: Byte) {
    57 <= op <= 59 || op == SENDLOCO
  }

  /** Opcodes that move the program counter by their own rule. */
  predicate IsControl(op: Byte) {
    || op == ENDIF || op == ELSE || 48 <= op <= 51 || op == KILLALL || op == ENDTASK || op == ENDEXRAIL
    || op == RANDOM_CALL || op == RANDOM_FOLLOW
  }

  /** Opcodes with no run-time case, and BLINK, whose private tasks are not modelled. */
  predicate IsInvalid(op: Byte) {
    op == 25 || op == 45 || op == 77 || op == 90 || op == 119 || op == IF_TYPE_OPCODES || op > LAST_OPCODE
  }

  /** Opcodes that act on the layout and go on (or wait). */
  predicate IsAct(op: Byte) {
    !IsIf(op) && !IsMark(op) && !IsStart(op) && !IsControl(op) && !IsInvalid(op)
  }

  /** Opcodes that may leave the program counter where it is and be served again. */
  predicate CanWait(op: Byte) {
    || op == RESERVE || 13 <= op <= 15 || 17 <= op <= 18 || op == 20 || op == 47 || op == 55 || op == 97
    || op == 132
  }

  /** Number of parameters an opcode's run-time case fetches. */
  function Arity(op: Byte): (n: nat)
    ensures 1 <= n <= 4
  {
    if op == 44 || op == 99 || op == 120 then 4
    else if op == 96 || op == 124 then 3
    else if op == 10 || op == 14 || 17 <= op <= 18 || op == 20 || 23 <= op <= 24 || 34 <= op <= 35 then 2
    else if 37 <= op <= 39 || op == 56 || op == SENDLOCO || op == 85 || 101 <= op <= 102 then 2
    else if 125 <= op <= 127 || 144 <= op <= 145 || op == 153 || op == 155 || 158 <= op <= 159 then 2
    else 1
  }

  datatype Script = Nil | Cons(head: Stmt, tail: Script)

  datatype Stmt =
    | Act(op: Byte, operands: seq<Word>)
    | Start(op: Byte, operands: seq<Word>)
    | Mark(op: Byte, operands: seq<Word>)
    | If(op: Byte, operands: seq<Word>, thn: Script)
    | IfElse(op: Byte, operands: seq<Word>, thn: Script, els: Script)
    | Call(route: Word)
    | RandomCall(routes: seq<Word>)
    | Follow(route: Word)
    | RandomFollow(routes: seq<Word>)
    | Return
    | Done
    | KillAll

  /** What the macros accept: each opcode in its own role and with its own number of parameters. */
  predicate StmtOk(s: Stmt) {
    match s
    case Act(op, ws) => IsAct(op) && |ws| == Arity(op)
    case Start(op, ws) => IsStart(op) && |ws| == Arity(op)
    case Mark(op, ws) => IsMark(op) && |ws| >= 1
    case If(op, ws, thn) => IsIf(op) && |ws| == Arity(op) && ScriptOk(thn)
    case IfElse(op, ws, thn, els) => IsIf(op) && |ws| == Arity(op) && ScriptOk(thn) && ScriptOk(els)
    case RandomCall(rs) => 1 <= |rs| <= 8
    case RandomFollow(rs) => 1 <= |rs| <= 8
    case _ => true
  }

  predicate ScriptOk(s: Script) {
    match s
    case Nil => true
    case Cons(h, t) => StmtOk(h) && ScriptOk(t)
  }

  // ---------------------------------------------------------------- the macro pass

  /** One entry: V(val) puts the low byte first. */
  function Item(op: Byte, w: Word): (b: seq<Byte>)
    ensures |b| == 3
  {
    [op, w % 256, w / 256]
  }

  function Pads(ws: seq<Word>): (b: seq<Byte>)
    ensures |b| == 3 * |ws|
  {
    if ws == [] then [] else Item(PAD, ws[0]) + Pads(ws[1..])
  }

  /** RANDOM_CALL and RANDOM_FOLLOW list their choices as CALL entries. */
  function Choices(ws: seq<Word>): (b: seq<Byte>)
    ensures |b| == 3 * |ws|
  {
    if ws == [] then [] else Item(CALL, ws[0]) + Choices(ws[1..])
  }

  /** An opcode and its parameters; one written without parameters gets a zero. */
  function Op(op: Byte, ws: seq<Word>): (b: seq<Byte>)
    ensures |b| == 3 * OpEntries(ws)
  {
    if ws == [] then Item(op, 0) else Item(op, ws[0]) + Pads(ws[1..])
  }

  function OpEntries(ws: seq<Word>): nat {
    if ws == [] then 1 else |ws|
  }

  /** Number of table entries a statement takes. */
  function StmtEntries(s: Stmt): (n: nat) {
    match s
    case Act(_, ws) => OpEntries(ws)
    case Start(_, ws) => OpEntries(ws)
    case Mark(_, ws) => OpEntries(ws)
    case If(_, ws, thn) => OpEntries(ws) + Entries(thn) + 1
    case IfElse(_, ws, thn, els) => OpEntries(ws) + Entries(thn) + Entries(els) + 2
    case RandomCall(rs) => 1 + |rs|
    case RandomFollow(rs) => 1 + |rs|
    case _ => 1
  }

  function Entries(s: Script): nat {
    match s
    case Nil => 0
    case Cons(h, t) => StmtEntries(h) + Entries(t)
  }

  function Emit(s: Stmt): (b: seq<Byte>)
    ensures |b| == 3 * StmtEntries(s) && |b| >= 3
  {
    match s
    case Act(op, ws) => Op(op, ws)
    case Start(op, ws) => Op(op, ws)
    case Mark(op, ws) => Op(op, ws)
    case If(op, ws, thn) => Op(op, ws) + Compile(thn) + Item(ENDIF, 0)
    case IfElse(op, ws, thn, els) =>
      Op(op, ws) + Compile(thn) + Item(ELSE, 0) + Compile(els) + Item(ENDIF, 0)
    case Call(r) => Item(CALL, r)
    case RandomCall(rs) => Item(RANDOM_CALL, |rs| % 65536) + Choices(rs)
    case Follow(r) => Item(FOLLOW, r)
    case RandomFollow(rs) => Item(RANDOM_FOLLOW, |rs| % 65536) + Choices(rs)
    case Return => Item(RETURN, 0)
    case Done => Item(ENDTASK, 0)
    case KillAll => Item(KILLALL, 0)
  }

  function Compile(s: Script): (b: seq<Byte>)
    ensures |b| == 3 * Entries(s)
  {
    match s
    case Nil => []
    case Cons(h, t) => Emit(h) + Compile(t)
  }

  /** The two entries the table ends with. */
  function Trailer(): (b: seq<Byte>)
    ensures |b| == 6
  {
    Item(ENDTASK, 0) + Item(ENDEXRAIL, 0)
  }

  /** The whole RouteCode table of a script file. */
  function RouteCode(file: Script): (b: seq<Byte>)
    ensures |b| == 3 * Entries(file) + 6
  {
    Compile(file) + Trailer()
  }

  // ---------------------------------------------------------------- places in a script

  /** What surrounds the rest of the innermost block: nothing, the last branch of an IF, or a
      THEN branch that an ELSE follows. */
  datatype Ctx =
    | Top
    | InLast(rest: Script, up: Ctx)
    | InThen(els: Script, rest: Script, up: Ctx)

  datatype Place = Place(todo: Script, ctx: Ctx)

  predicate CtxOk(c: Ctx) {
    match c
    case Top => true
    case InLast(rest, up) => ScriptOk(rest) && CtxOk(up)
    case InThen(els, rest, up) => ScriptOk(els) && ScriptOk(rest) && CtxOk(up)
  }

  predicate PlaceOk(p: Place) {
    ScriptOk(p.todo) && CtxOk(p.ctx)
  }

  /** Number of table entries after the innermost block. */
  function EntriesAfter(c: Ctx): nat {
    match c
    case Top => 2
    case InLast(rest, up) => 1 + Entries(rest) + EntriesAfter(up)
    case InThen(els, rest, up) => 2 + Entries(els) + Entries(rest) + EntriesAfter(up)
  }

  function After(c: Ctx): (b: seq<Byte>)
    ensures |b| == 3 * EntriesAfter(c) && |b| >= 6
  {
    match c
    case Top => Trailer()
    case InLast(rest, up) => Item(ENDIF, 0) + (Compile(rest) + After(up))
    case InThen(els, rest, up) =>
      Item(ELSE, 0) + (Compile(els) + (Item(ENDIF, 0) + (Compile(rest) + After(up))))
  }

  /** All table bytes from a place to the end of the table. */
  function Code(p: Place): (b: seq<Byte>)
    ensures |b| == 3 * (Entries(p.todo) + EntriesAfter(p.ctx)) && |b| >= 6
  {
    Compile(p.todo) + After(p.ctx)
  }

  /** The bytes found at pc, up to the end of the table. */
  predicate At(code: seq<Byte>, pc: int, bytes: seq<Byte>) {
    0 <= pc <= |code| && code[pc..] == bytes
  }

  /** Parameter n of the entry at pc; past the end of the table nothing is modelled. */
  function Operand(code: seq<Byte>, pc: int, n: nat): Word {
    var i := pc + 1 + 3 * n;
    if 0 <= i < |code| - 1 then
      var lsb: int, msb: int := code[i], code[i + 1];
      lsb + 256 * msb
    else 0
  }

  function Operands(code: seq<Byte>, pc: int, n: nat): (ws: seq<Word>)
    ensures |ws| == n
  {
    seq(n, i requires 0 <= i => Operand(code, pc, i))
  }

  lemma FetchItem(code: seq<Byte>, pc: int, op: Byte, w: Word, rest: seq<Byte>)
    requires At(code, pc, Item(op, w) + rest)
    ensures pc + 3 <= |code| && code[pc] == op && Operand(code, pc, 0) == w
    ensures At(code, pc + 3, rest)
  {
    var tail := code[pc..];
    assert code[pc] == tail[0] && code[pc + 1] == tail[1] && code[pc + 2] == tail[2];
    assert code[pc + 3..] == tail[3..] == rest;
  }

  /** Peeling bytes from the front of what stands at pc. */
  lemma Advance(code: seq<Byte>, pc: int, front: seq<Byte>, rest: seq<Byte>)
    requires At(code, pc, front + rest)
    ensures At(code, pc + |front|, rest)
  {
    assert code[pc + |front|..] == code[pc..][|front|..] == rest;
  }

  lemma {:induction false} FetchPads(code: seq<Byte>, pc: int, ws: seq<Word>, rest: seq<Byte>)
    requires At(code, pc, Pads(ws) + rest)
    ensures At(code, pc + 3 * |ws|, rest)
    ensures forall i :: 0 <= i < |ws| ==> Operand(code, pc, i) == ws[i]
    decreases |ws|
  {
    if ws != [] {
      assert Pads(ws) + rest == Item(PAD, ws[0]) + (Pads(ws[1..]) + rest);
      FetchItem(code, pc, PAD, ws[0], Pads(ws[1..]) + rest);
      FetchPads(code, pc + 3, ws[1..], rest);
      forall i | 0 <= i < |ws| ensures Operand(code, pc, i) == ws[i] {
        if i > 0 {
          assert Operand(code, pc, i) == Operand(code, pc + 3, i - 1);
        }
      }
    }
  }

  lemma {:induction false} FetchChoices(code: seq<Byte>, pc: int, ws: seq<Word>, rest: seq<Byte>)
    requires At(code, pc, Choices(ws) + rest)
    ensures At(code, pc + 3 * |ws|, rest)
    ensures forall i :: 0 <= i < |ws| ==> Operand(code, pc, i) == ws[i]
    decreases |ws|
  {
    if ws != [] {
      assert Choices(ws) + rest == Item(CALL, ws[0]) + (Choices(ws[1..]) + rest);
      FetchItem(code, pc, CALL, ws[0], Choices(ws[1..]) + rest);
      FetchChoices(code, pc + 3, ws[1..], rest);
      forall i | 0 <= i < |ws| ensures Operand(code, pc, i) == ws[i] {
        if i > 0 {
          assert Operand(code, pc, i) == Operand(code, pc + 3, i - 1);
        }
      }
    }
  }

  /** An opcode with its padded parameters: they are read back unchanged. */
  lemma FetchOp(code: seq<Byte>, pc: int, op: Byte, ws: seq<Word>, rest: seq<Byte>)
    requires |ws| >= 1 && At(code, pc, Op(op, ws) + rest)
    ensures pc + 3 * |ws| <= |code| && code[pc] == op
    ensures Operands(code, pc, |ws|) == ws
    ensures At(code, pc + 3, Pads(ws[1..]) + rest)
    ensures At(code, pc + 3 * |ws|, rest)
  {
    hide Op, Item, Pads, Operand, At;
    OpParts(op, ws, rest);
    FetchItem(code, pc, op, ws[0], Pads(ws[1..]) + rest);
    FetchPads(code, pc + 3, ws[1..], rest);
    forall i | 0 <= i < |ws| ensures Operand(code, pc, i) == ws[i] {
      if i > 0 { NextOperand(code, pc, i); }
    }
    InTable(code, pc + 3 * |ws|, rest);
  }

  lemma OpParts(op: Byte, ws: seq<Word>, rest: seq<Byte>)
    requires |ws| >= 1
    ensures Op(op, ws) + rest == Item(op, ws[0]) + (Pads(ws[1..]) + rest)
  {
  }

  lemma NextOperand(code: seq<Byte>, pc: int, i: nat)
    requires i > 0
    ensures Operand(code, pc, i) == Operand(code, pc + 3, i - 1)
  {
  }

  lemma InTable(code: seq<Byte>, pc: int, rest: seq<Byte>)
    requires At(code, pc, rest)
    ensures pc <= |code|
  {
  }
}

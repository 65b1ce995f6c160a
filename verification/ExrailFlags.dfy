/**
 The flag table EXRAIL tasks share, and block reservation by interleaved tasks.
 */
module ExrailFlags {
  import opened Basics
  import opened ExrailScript
  import opened ExrailVm

  const MAX_FLAGS := 256
  const SECTION_FLAG: bv8 := 0x80
  const LATCH_FLAG: bv8 := 0x40
  const TASK_FLAG: bv8 := 0x20
  const SIGNAL_MASK: bv8 := 0x0C

  const LATCH: Byte := 21
  const UNLATCH: Byte := 22

  type Flags = f: seq<bv8> | |f| == MAX_FLAGS witness seq(MAX_FLAGS, _ => 0)

  /** setFlag: clear the off bits, then set the on bits; ids beyond the table are ignored. */
  function SetFlag(f: Flags, id: nat, on: bv8, off: bv8): Flags {
    if id >= MAX_FLAGS then f else f[id := (f[id] & !off) | on]
  }

  /** getFlag: ids beyond the table read as clear. */
  predicate GetFlag(f: Flags, id: nat, mask: bv8) {
    id < MAX_FLAGS && f[id] & mask != 0
  }

  function FreeAll(f: Flags): Flags {
    seq(MAX_FLAGS, i requires 0 <= i < MAX_FLAGS => f[i] & !SECTION_FLAG)
  }

  /** Clearing and setting touch the masked bits only. */
  lemma SetFlagFrame(f: Flags, id: nat, on: bv8, off: bv8, mask: bv8, x: nat)
    requires mask & on == 0 && mask & off == 0 && x < MAX_FLAGS
    ensures SetFlag(f, id, on, off)[x] & mask == f[x] & mask
  {
    if id == x {
      BitFrame(f[x], on, off, mask);
    }
  }

  lemma BitFrame(b: bv8, on: bv8, off: bv8, mask: bv8)
    requires mask & on == 0 && mask & off == 0
    ensures ((b & !off) | on) & mask == b & mask
  {
  }

  // ---------------------------------------------------------------- interleaved tasks

  /** What happens next: some task is served, whichever the ring's turn may be, or something else
      writes flags: an operator's command, a signal changing, a task id being taken or given back. */
  datatype Action =
    | Serve(who: nat, input: Input)
    | Command(op: Byte, id: Word)
    | ShowSignal(slot: nat, rag: bv8)
    | MarkTask(taskId: nat, taken: bool)

  datatype System = System(tasks: seq<Outcome>, flags: Flags)

  datatype Note = Note(who: int, event: Event)

  /** RESERVE may go on, and IFRESERVE holds, exactly when the section is free. */
  function Answer(f: Flags, op: Byte, operand: Word, input: Input): Input {
    if op == RESERVE then input.(ready := !GetFlag(f, operand, SECTION_FLAG))
    else if op == IFRESERVE then input.(holds := !GetFlag(f, operand, SECTION_FLAG))
    else input
  }

  predicate Acquires(e: Event, id: Word) {
    e == Did(RESERVE, [id]) || e == Tested(IFRESERVE, [id], true)
  }

  predicate Releases(e: Event, id: Word) {
    match e
    case Did(op, ws) => op == FREEALL || (op == FREE && ws != [] && ws[0] == id)
    case _ => false
  }

  /** What an event does to the flags. */
  function Effect(f: Flags, e: Event): Flags {
    match e
    case Did(op, ws) =>
      if op == FREEALL then FreeAll(f)
      else if ws == [] then f
      else if op == RESERVE then SetFlag(f, ws[0], SECTION_FLAG, 0)
      else if op == FREE then SetFlag(f, ws[0], 0, SECTION_FLAG)
      else if op == LATCH then SetFlag(f, ws[0], LATCH_FLAG, 0)
      else if op == UNLATCH then SetFlag(f, ws[0], 0, LATCH_FLAG)
      else f
    case Tested(op, ws, holds) =>
      if op == IFRESERVE && holds && ws != [] then SetFlag(f, ws[0], SECTION_FLAG, 0) else f
    case _ => f
  }

  /** A START that finds its route adds a task, KILLALL ends them all. */
  function Crew(code: seq<Byte>, tasks: seq<Outcome>, e: Event): seq<Outcome> {
    match e
    case Started(op, ws, found) =>
      if found then tasks + [Running(Thread(LookupPc(code, StartRoute(op, ws)), []))] else tasks
    case Ceased(why) => if why == AllKilled then seq(|tasks|, _ => Killed) else tasks
    case _ => tasks
  }

  /** One action: the new state, and what is noted of it. */
  function Act(code: seq<Byte>, s: System, a: Action): (System, seq<Note>) {
    match a
    case Serve(who, input) =>
      if who < |s.tasks| && s.tasks[who].Running? && OnEntry(code, s.tasks[who].t.pc) then
        var t := s.tasks[who].t;
        var (o, e) := Step(code, t, Answer(s.flags, code[t.pc], Operand(code, t.pc, 0), input));
        match e {
          case None => (s.(tasks := s.tasks[who := o]), [])
          case Some(ev) => (System(Crew(code, s.tasks[who := o], ev), Effect(s.flags, ev)), [Note(who, ev)])
        }
      else (s, [])
    case Command(op, id) =>
      // an operator may reserve without asking, free, free all, latch and unlatch
      if op == RESERVE then (s.(flags := SetFlag(s.flags, id, SECTION_FLAG, 0)), [])
      else (s.(flags := Effect(s.flags, Did(op, [id]))), [Note(-1, Did(op, [id]))])
    case ShowSignal(slot, rag) => (s.(flags := SetFlag(s.flags, slot, rag & SIGNAL_MASK, SIGNAL_MASK)), [])
    case MarkTask(id, taken) =>
      (s.(flags := if taken then SetFlag(s.flags, id, TASK_FLAG, 0) else SetFlag(s.flags, id, 0, TASK_FLAG)), [])
  }

  function Log(code: seq<Byte>, s: System, actions: seq<Action>): seq<Note>
    decreases |actions|
  {
    if actions == [] then []
    else
      var (s', notes) := Act(code, s, actions[0]);
      notes + Log(code, s', actions[1..])
  }

  /** What the flag operations do to section id. */
  lemma FlagFacts(f: Flags, id: Word)
    requires id < MAX_FLAGS
    ensures forall x: nat :: GetFlag(SetFlag(f, x, SECTION_FLAG, 0), id, SECTION_FLAG)
                         <==> x == id || GetFlag(f, id, SECTION_FLAG)
    ensures forall x: nat :: GetFlag(SetFlag(f, x, 0, SECTION_FLAG), id, SECTION_FLAG)
                         <==> x != id && GetFlag(f, id, SECTION_FLAG)
    ensures forall x: nat, on: bv8, off: bv8 :: SECTION_FLAG & on == 0 && SECTION_FLAG & off == 0 ==>
              (GetFlag(SetFlag(f, x, on, off), id, SECTION_FLAG) <==> GetFlag(f, id, SECTION_FLAG))
    ensures !GetFlag(FreeAll(f), id, SECTION_FLAG)
  {
    forall x: nat, on: bv8, off: bv8 | SECTION_FLAG & on == 0 && SECTION_FLAG & off == 0
      ensures GetFlag(SetFlag(f, x, on, off), id, SECTION_FLAG) <==> GetFlag(f, id, SECTION_FLAG)
    {
      SetFlagFrame(f, x, on, off, SECTION_FLAG, id);
    }
    assert (f[id] & !SECTION_FLAG) & SECTION_FLAG == 0;
    assert ((f[id] & !0) | SECTION_FLAG) & SECTION_FLAG != 0;
  }

  lemma EffectOnSection(f: Flags, e: Event, id: Word)
    requires id < MAX_FLAGS
    ensures Acquires(e, id) ==> GetFlag(Effect(f, e), id, SECTION_FLAG)
    ensures GetFlag(f, id, SECTION_FLAG) && !Releases(e, id) ==> GetFlag(Effect(f, e), id, SECTION_FLAG)
  {
    hide GetFlag, SetFlag, FreeAll;
    FlagFacts(f, id);
    assert SECTION_FLAG & LATCH_FLAG == 0 && SECTION_FLAG & 0 == 0;
  }

  /** A step that acquires found the section free; a step that neither acquires nor releases
      leaves a section held. */
  lemma SectionStep(code: seq<Byte>, s: System, a: Action, id: Word)
    requires id < 256
    ensures var (s', notes) := Act(code, s, a);
            && |notes| <= 1
            && (forall n :: n in notes && Acquires(n.event, id) ==>
                  !GetFlag(s.flags, id, SECTION_FLAG) && GetFlag(s'.flags, id, SECTION_FLAG))
            && (GetFlag(s.flags, id, SECTION_FLAG) && (forall n :: n in notes ==> !Releases(n.event, id)) ==>
                  GetFlag(s'.flags, id, SECTION_FLAG))
  {
    hide Step, Arity, Operands, Operand, IsAct, Trace, GetFlag, SetFlag, FreeAll, Effect, Releases, Crew;
    FlagFacts(s.flags, id);
    match a
    case Serve(who, input) =>
      if who < |s.tasks| && s.tasks[who].Running? && OnEntry(code, s.tasks[who].t.pc) {
        var t := s.tasks[who].t;
        ServedEvent(code, t, s.flags, input);
        var (_, e) := Step(code, t, Answer(s.flags, code[t.pc], Operand(code, t.pc, 0), input));
        if e.Some? {
          EffectOnSection(s.flags, e.value, id);
          assert Note(who, e.value) in Act(code, s, a).1;
        }
      }
    case Command(op, x) =>
      EffectOnSection(s.flags, Did(op, [x]), id);
      if op != RESERVE { assert Note(-1, Did(op, [x])) in Act(code, s, a).1; }
    case ShowSignal(slot, rag) => assert SECTION_FLAG & (rag & SIGNAL_MASK) == 0 && SECTION_FLAG & SIGNAL_MASK == 0;
    case MarkTask(_, _) => assert SECTION_FLAG & TASK_FLAG == 0 && SECTION_FLAG & 0 == 0;
  }

  /** The events of RESERVE and IFRESERVE, and their section. */
  lemma ServedEvent(code: seq<Byte>, t: Thread, f: Flags, input: Input)
    requires OnEntry(code, t.pc)
    ensures var operand := Operand(code, t.pc, 0);
            var (o, e) := Step(code, t, Answer(f, code[t.pc], operand, input));
            && (forall ws :: e == Some(Did(RESERVE, ws)) ==> ws == [operand] && !GetFlag(f, operand, SECTION_FLAG))
            && (forall ws :: e == Some(Tested(IFRESERVE, ws, true)) ==>
                  ws == [operand] && !GetFlag(f, operand, SECTION_FLAG))
            && (forall ws :: e == Some(Waited(RESERVE, ws)) ==>
                  ws == [operand] && GetFlag(f, operand, SECTION_FLAG) && o == Running(t))
  {
    hide GetFlag, Operand, LookupPc, SkipIf, StartRoute, IsMark;
    assert Arity(RESERVE) == 1 && Arity(IFRESERVE) == 1;
    assert Operands(code, t.pc, 1) == [Operand(code, t.pc, 0)];
  }

  /** Mutual exclusion: in any interleaving, between two acquisitions of a section somebody
      freed it. */
  lemma {:induction false} BetweenAcquisitions(code: seq<Byte>, s: System, actions: seq<Action>, id: Word, i: nat,
      j: nat)
    requires id < 256
    requires i < j < |Log(code, s, actions)|
    requires Acquires(Log(code, s, actions)[i].event, id) && Acquires(Log(code, s, actions)[j].event, id)
    ensures exists k :: i < k < j && Releases(Log(code, s, actions)[k].event, id)
    decreases |actions|
  {
    hide Act, GetFlag;
    var (s', notes) := Act(code, s, actions[0]);
    var rest := Log(code, s', actions[1..]);
    SectionStep(code, s, actions[0], id);
    assert notes + rest == Log(code, s, actions);
    if |notes| == 0 {
      assert rest == Log(code, s, actions);
      BetweenAcquisitions(code, s', actions[1..], id, i, j);
    } else if i > 0 {
      BetweenAcquisitions(code, s', actions[1..], id, i - 1, j - 1);
      var k :| i - 1 < k < j - 1 && Releases(rest[k].event, id);
      assert Log(code, s, actions)[k + 1] == rest[k];
    } else {
      assert notes[0] in notes;
      var k := HeldUntilReleased(code, s', actions[1..], id, j - 1);
      assert Log(code, s, actions)[k + 1] == rest[k];
    }
  }

  /** A held section can only be acquired after a release. */
  lemma {:induction false} HeldUntilReleased(code: seq<Byte>, s: System, actions: seq<Action>, id: Word, j: nat)
      returns (k: nat)
    requires id < 256 && GetFlag(s.flags, id, SECTION_FLAG)
    requires j < |Log(code, s, actions)| && Acquires(Log(code, s, actions)[j].event, id)
    ensures k < j && Releases(Log(code, s, actions)[k].event, id)
    decreases |actions|
  {
    hide Act, GetFlag;
    var (s', notes) := Act(code, s, actions[0]);
    SectionStep(code, s, actions[0], id);
    var rest := Log(code, s', actions[1..]);
    assert notes + rest == Log(code, s, actions);
    if |notes| == 0 {
      k := HeldUntilReleased(code, s', actions[1..], id, j);
    } else {
      assert notes[0] in notes;
      if Releases(notes[0].event, id) {
        k := 0;
      } else {
        k := HeldUntilReleased(code, s', actions[1..], id, j - 1);
        k := k + 1;
      }
    }
  }

  /** What the guard of setFlag is for: an id outside the table would be acquired without a mark, so it
      would exclude nobody. The asserts on scripts, and the operator's command, let no such id through. */
  lemma NoExclusionBeyondTable(code: seq<Byte>, t: Thread, f: Flags, input: Input)
    requires OnEntry(code, t.pc) && code[t.pc] == RESERVE
    ensures var id := Operand(code, t.pc, 0);
            var (o, e) := Step(code, t, Answer(f, RESERVE, id, input));
            id >= 256 ==> e == Some(Did(RESERVE, [id])) && Effect(f, e.value) == f
  {
    hide Operand, LookupPc, SkipIf, StartRoute;
    assert Arity(RESERVE) == 1;
    assert Operands(code, t.pc, 1) == [Operand(code, t.pc, 0)];
  }

  predicate IsSectionEvent(e: Event) {
    match e
    case Did(op, _) => op == RESERVE || op == FREE || op == FREEALL
    case Tested(op, _, _) => op == IFRESERVE
    case _ => false
  }

  /** Section operations leave every latch, task and signal bit alone, and the rest leave every
      section bit alone. */
  lemma SectionsAreSeparate(f: Flags, e: Event, x: nat)
    requires x < MAX_FLAGS
    ensures IsSectionEvent(e) ==> Effect(f, e)[x] & 0x7F == f[x] & 0x7F
    ensures !IsSectionEvent(e) ==> Effect(f, e)[x] & SECTION_FLAG == f[x] & SECTION_FLAG
  {
    hide SetFlag, FreeAll;
    match e {
      case Did(op, ws) => if ws != [] { SectionFrames(f, ws[0], x); }
      case Tested(op, ws, _) => if ws != [] { SectionFrames(f, ws[0], x); }
      case _ =>
    }
    FreeAllFrame(f, x);
  }

  lemma SectionFrames(f: Flags, id: nat, x: nat)
    requires x < MAX_FLAGS
    ensures SetFlag(f, id, SECTION_FLAG, 0)[x] & 0x7F == f[x] & 0x7F
    ensures SetFlag(f, id, 0, SECTION_FLAG)[x] & 0x7F == f[x] & 0x7F
    ensures SetFlag(f, id, LATCH_FLAG, 0)[x] & SECTION_FLAG == f[x] & SECTION_FLAG
    ensures SetFlag(f, id, 0, LATCH_FLAG)[x] & SECTION_FLAG == f[x] & SECTION_FLAG
  {
    hide SetFlag;
    SetFlagFrame(f, id, SECTION_FLAG, 0, 0x7F, x);
    SetFlagFrame(f, id, 0, SECTION_FLAG, 0x7F, x);
    SetFlagFrame(f, id, LATCH_FLAG, 0, SECTION_FLAG, x);
    SetFlagFrame(f, id, 0, LATCH_FLAG, SECTION_FLAG, x);
  }

  lemma FreeAllFrame(f: Flags, x: nat)
    requires x < MAX_FLAGS
    ensures FreeAll(f)[x] & 0x7F == f[x] & 0x7F
  {
    assert (f[x] & !SECTION_FLAG) & 0x7F == f[x] & 0x7F;
  }

  // ---------------------------------------------------------------- exactly when a bit is set

  predicate Held(s: System, id: Word) {
    GetFlag(s.flags, id, SECTION_FLAG)
  }

  predicate Latched(s: System, id: Word) {
    GetFlag(s.flags, id, LATCH_FLAG)
  }

  /** The action reserved section id: a task acquired it, or an operator's command did. */
  predicate Reserves(a: Action, notes: seq<Note>, id: Word) {
    a == Command(RESERVE, id) || exists n :: n in notes && Acquires(n.event, id)
  }

  predicate Noted(notes: seq<Note>, op: Byte, id: Word) {
    exists n :: n in notes && n.event.Did? && n.event.op == op && n.event.operands != [] && n.event.operands[0] == id
  }

  predicate NotedRelease(notes: seq<Note>, id: Word) {
    exists n :: n in notes && Releases(n.event, id)
  }

  lemma LatchFacts(f: Flags, id: Word)
    requires id < MAX_FLAGS
    ensures forall x: nat :: GetFlag(SetFlag(f, x, LATCH_FLAG, 0), id, LATCH_FLAG)
                         <==> x == id || GetFlag(f, id, LATCH_FLAG)
    ensures forall x: nat :: GetFlag(SetFlag(f, x, 0, LATCH_FLAG), id, LATCH_FLAG)
                         <==> x != id && GetFlag(f, id, LATCH_FLAG)
    ensures forall x: nat, on: bv8, off: bv8 :: LATCH_FLAG & on == 0 && LATCH_FLAG & off == 0 ==>
              (GetFlag(SetFlag(f, x, on, off), id, LATCH_FLAG) <==> GetFlag(f, id, LATCH_FLAG))
    ensures GetFlag(FreeAll(f), id, LATCH_FLAG) <==> GetFlag(f, id, LATCH_FLAG)
  {
    forall x: nat, on: bv8, off: bv8 | LATCH_FLAG & on == 0 && LATCH_FLAG & off == 0
      ensures GetFlag(SetFlag(f, x, on, off), id, LATCH_FLAG) <==> GetFlag(f, id, LATCH_FLAG)
    {
      SetFlagFrame(f, x, on, off, LATCH_FLAG, id);
    }
    assert (f[id] & !LATCH_FLAG) & LATCH_FLAG == 0;
    assert ((f[id] & !0) | LATCH_FLAG) & LATCH_FLAG != 0;
    assert (f[id] & !SECTION_FLAG) & LATCH_FLAG == f[id] & LATCH_FLAG;
  }

  /** RESERVE and IFRESERVE have one parameter. */
  predicate OneOperand(e: Event) {
    match e
    case Did(op, ws) => op == RESERVE ==> |ws| == 1
    case Tested(op, ws, holds) => op == IFRESERVE && holds ==> |ws| == 1
    case _ => true
  }

  /** An event sets and clears just the section and the latch that it names. */
  lemma EffectExact(f: Flags, e: Event, id: Word)
    requires id < MAX_FLAGS
    requires OneOperand(e)
    ensures GetFlag(Effect(f, e), id, SECTION_FLAG)
       <==> Acquires(e, id) || (GetFlag(f, id, SECTION_FLAG) && !Releases(e, id))
    ensures GetFlag(Effect(f, e), id, LATCH_FLAG)
       <==> Noted([Note(0, e)], LATCH, id) || (GetFlag(f, id, LATCH_FLAG) && !Noted([Note(0, e)], UNLATCH, id))
  {
    hide GetFlag, SetFlag, FreeAll;
    FlagFacts(f, id);
    LatchFacts(f, id);
    assert SECTION_FLAG & LATCH_FLAG == 0 && SECTION_FLAG & 0 == 0 && LATCH_FLAG & 0 == 0;
    assert Note(0, e) in [Note(0, e)];
    if e.Did? && e.operands != [] { assert e.operands == [e.operands[0]] + e.operands[1..]; }
    if e.Tested? && e.operands != [] { assert e.operands == [e.operands[0]] + e.operands[1..]; }
  }

  /** Serving a task changes the flags by the one event that is noted, if there is one. */
  lemma ServeFlags(code: seq<Byte>, s: System, who: nat, input: Input)
    ensures var (s', notes) := Act(code, s, Serve(who, input));
            && (notes == [] ==> s'.flags == s.flags)
            && (notes != [] ==>
                  && |notes| == 1 && s'.flags == Effect(s.flags, notes[0].event)
                  && OneOperand(notes[0].event))
  {
    hide Step, Arity, Operands, Operand, IsAct, GetFlag, Effect, Crew;
    if who < |s.tasks| && s.tasks[who].Running? && OnEntry(code, s.tasks[who].t.pc) {
      ServedEvent(code, s.tasks[who].t, s.flags, input);
    }
  }

  lemma OneNote(notes: seq<Note>, op: Byte, id: Word)
    requires |notes| == 1
    ensures Noted(notes, op, id) <==> Noted([Note(0, notes[0].event)], op, id)
    ensures NotedRelease(notes, id) <==> Releases(notes[0].event, id)
    ensures (exists n :: n in notes && Acquires(n.event, id)) <==> Acquires(notes[0].event, id)
  {
    assert notes[0] in notes && Note(0, notes[0].event) in [Note(0, notes[0].event)];
  }

  /** Exactly when a section is held, and a sensor latched, after any action by anybody. */
  lemma BitsExact(code: seq<Byte>, s: System, a: Action, id: Word)
    requires id < 256
    ensures var (s', notes) := Act(code, s, a);
            && (Held(s', id) <==> Reserves(a, notes, id) || (Held(s, id) && !NotedRelease(notes, id)))
            && (Latched(s', id) <==> Noted(notes, LATCH, id) || (Latched(s, id) && !Noted(notes, UNLATCH, id)))
  {
    hide Act, GetFlag, SetFlag, FreeAll, Effect, Releases, Noted;
    FlagFacts(s.flags, id);
    LatchFacts(s.flags, id);
    var (s', notes) := Act(code, s, a);
    match a
    case Serve(who, input) =>
      ServeFlags(code, s, who, input);
      if notes == [] {
        NoneNoted(id);
      } else {
        EffectExact(s.flags, notes[0].event, id);
        OneNote(notes, LATCH, id);
        OneNote(notes, UNLATCH, id);
      }
    case _ => OtherBits(code, s, a, id);
  }

  lemma NoneNoted(id: Word)
    ensures forall op :: !Noted([], op, id)
  {
  }

  lemma OtherBits(code: seq<Byte>, s: System, a: Action, id: Word)
    requires id < MAX_FLAGS && !a.Serve?
    ensures var (s', notes) := Act(code, s, a);
            && (Held(s', id) <==> Reserves(a, notes, id) || (Held(s, id) && !NotedRelease(notes, id)))
            && (Latched(s', id) <==> Noted(notes, LATCH, id) || (Latched(s, id) && !Noted(notes, UNLATCH, id)))
  {
    hide GetFlag, SetFlag, FreeAll, Effect, Releases, Noted;
    FlagFacts(s.flags, id);
    LatchFacts(s.flags, id);
    NoneNoted(id);
    var (s', notes) := Act(code, s, a);
    match a
    case Command(op, x) =>
      if op == RESERVE {
        assert LATCH_FLAG & SECTION_FLAG == 0 && LATCH_FLAG & 0 == 0;
      } else {
        EffectExact(s.flags, Did(op, [x]), id);
        assert notes == [Note(-1, Did(op, [x]))];
        OneNote(notes, LATCH, id);
        OneNote(notes, UNLATCH, id);
      }
    case ShowSignal(slot, rag) =>
      assert SECTION_FLAG & (rag & SIGNAL_MASK) == 0 && SECTION_FLAG & SIGNAL_MASK == 0;
      assert LATCH_FLAG & (rag & SIGNAL_MASK) == 0 && LATCH_FLAG & SIGNAL_MASK == 0;
    case MarkTask(_, _) =>
      assert SECTION_FLAG & TASK_FLAG == 0 && SECTION_FLAG & 0 == 0;
      assert LATCH_FLAG & TASK_FLAG == 0 && LATCH_FLAG & 0 == 0;
  }

  /** Events leave the task and the signal bits alone. */
  lemma EffectFrame(f: Flags, e: Event, x: nat)
    requires x < MAX_FLAGS
    ensures Effect(f, e)[x] & 0x3F == f[x] & 0x3F
  {
    hide SetFlag, FreeAll;
    FreeAllLow(f, x);
    match e {
      case Did(op, ws) => if ws != [] { LowFrames(f, ws[0], x); }
      case Tested(op, ws, _) => if ws != [] { LowFrames(f, ws[0], x); }
      case _ =>
    }
  }

  lemma LowFrames(f: Flags, id: nat, x: nat)
    requires x < MAX_FLAGS
    ensures SetFlag(f, id, SECTION_FLAG, 0)[x] & 0x3F == f[x] & 0x3F
    ensures SetFlag(f, id, 0, SECTION_FLAG)[x] & 0x3F == f[x] & 0x3F
    ensures SetFlag(f, id, LATCH_FLAG, 0)[x] & 0x3F == f[x] & 0x3F
    ensures SetFlag(f, id, 0, LATCH_FLAG)[x] & 0x3F == f[x] & 0x3F
  {
    hide SetFlag;
    SetFlagFrame(f, id, SECTION_FLAG, 0, 0x3F, x);
    SetFlagFrame(f, id, 0, SECTION_FLAG, 0x3F, x);
    SetFlagFrame(f, id, LATCH_FLAG, 0, 0x3F, x);
    SetFlagFrame(f, id, 0, LATCH_FLAG, 0x3F, x);
  }

  lemma FreeAllLow(f: Flags, x: nat)
    requires x < MAX_FLAGS
    ensures FreeAll(f)[x] & 0x3F == f[x] & 0x3F
  {
    assert (f[x] & !SECTION_FLAG) & 0x3F == f[x] & 0x3F;
  }

  lemma LowBits(a: bv8, b: bv8)
    ensures a & 0x7F == b & 0x7F ==> a & 0x3F == b & 0x3F
    ensures a & 0x3F == b & 0x3F ==> a & SIGNAL_MASK == b & SIGNAL_MASK && a & TASK_FLAG == b & TASK_FLAG
  {
  }

  /** A signal's bits are what was shown last; a task id is marked if it was taken, or was marked and not
      given back. */
  predicate MarksFollow(f: Flags, f': Flags, a: Action, x: Word)
    requires x < MAX_FLAGS
  {
    && f'[x] & SIGNAL_MASK == (if a.ShowSignal? && a.slot == x then a.rag else f[x]) & SIGNAL_MASK
    && (GetFlag(f', x, TASK_FLAG) <==> a == MarkTask(x, true) || (GetFlag(f, x, TASK_FLAG) && a != MarkTask(x, false)))
  }

  /** Exactly what a signal's bits and a task id's mark are after any action. */
  lemma MarksExact(code: seq<Byte>, s: System, a: Action, x: Word)
    requires x < 256
    ensures MarksFollow(s.flags, Act(code, s, a).0.flags, a, x)
  {
    hide Act, SetFlag, FreeAll, Effect;
    match a
    case Serve(who, input) =>
      ServeFlags(code, s, who, input);
      var notes := Act(code, s, a).1;
      if notes != [] { EffectFrame(s.flags, notes[0].event, x); }
      LowBits(Act(code, s, a).0.flags[x], s.flags[x]);
    case _ => OtherMarks(code, s, a, x);
  }

  lemma OtherMarks(code: seq<Byte>, s: System, a: Action, x: Word)
    requires x < MAX_FLAGS && !a.Serve?
    ensures MarksFollow(s.flags, Act(code, s, a).0.flags, a, x)
  {
    hide FreeAll, Effect, SetFlag, MarksFollow;
    match a
    case Command(op, id) => CommandMarks(s.flags, op, id, x);
    case ShowSignal(slot, rag) => ShownMarks(s.flags, slot, rag, x);
    case MarkTask(id, taken) => TaskMarks(s.flags, id, taken, x);
  }

  lemma CommandMarks(f: Flags, op: Byte, id: Word, x: Word)
    requires x < MAX_FLAGS
    ensures MarksFollow(f, SetFlag(f, id, SECTION_FLAG, 0), Command(op, id), x)
    ensures MarksFollow(f, Effect(f, Did(op, [id])), Command(op, id), x)
  {
    hide SetFlag, Effect;
    LowFrames(f, id, x);
    EffectFrame(f, Did(op, [id]), x);
    LowBits(SetFlag(f, id, SECTION_FLAG, 0)[x], f[x]);
    LowBits(Effect(f, Did(op, [id]))[x], f[x]);
  }

  lemma ShownMarks(f: Flags, slot: nat, rag: bv8, x: Word)
    requires x < MAX_FLAGS
    ensures MarksFollow(f, SetFlag(f, slot, rag & SIGNAL_MASK, SIGNAL_MASK), ShowSignal(slot, rag), x)
  {
    SignalBits(f[x], rag);
  }

  lemma TaskMarks(f: Flags, id: nat, taken: bool, x: Word)
    requires x < MAX_FLAGS
    ensures MarksFollow(f, if taken then SetFlag(f, id, TASK_FLAG, 0) else SetFlag(f, id, 0, TASK_FLAG),
                        MarkTask(id, taken), x)
  {
    TaskBits(f[x]);
  }

  lemma SignalBits(b: bv8, rag: bv8)
    ensures ((b & !SIGNAL_MASK) | (rag & SIGNAL_MASK)) & SIGNAL_MASK == rag & SIGNAL_MASK
    ensures ((b & !SIGNAL_MASK) | (rag & SIGNAL_MASK)) & TASK_FLAG == b & TASK_FLAG
  {
  }

  lemma TaskBits(b: bv8)
    ensures ((b & !0) | TASK_FLAG) & TASK_FLAG != 0 && ((b & !TASK_FLAG) | 0) & TASK_FLAG == 0
    ensures ((b & !0) | TASK_FLAG) & SIGNAL_MASK == b & SIGNAL_MASK
    ensures ((b & !TASK_FLAG) | 0) & SIGNAL_MASK == b & SIGNAL_MASK
  {
  }

  // ---------------------------------------------------------------- what is freed can be reserved

  /** Task who is alive and stands on this opcode. */
  predicate Stands(code: seq<Byte>, s: System, who: nat, op: Byte) {
    who < |s.tasks| && s.tasks[who].Running? && OnEntry(code, s.tasks[who].t.pc) && code[s.tasks[who].t.pc] == op
  }

  /** An opcode that cannot wait is done when it is served, with the parameter that stands in the table. */
  lemma ServedAct(code: seq<Byte>, s: System, who: nat, input: Input, op: Byte)
    requires Stands(code, s, who, op) && IsAct(op) && !CanWait(op) && Arity(op) == 1
    ensures Act(code, s, Serve(who, input)).1 == [Note(who, Did(op, [Operand(code, s.tasks[who].t.pc, 0)]))]
  {
    hide Operand, GetFlag, Effect, LookupPc, SkipIf, StartRoute;
    var pc := s.tasks[who].t.pc;
    assert Operands(code, pc, 1) == [Operand(code, pc, 0)];
  }

  /** RESERVE of a free section takes it and goes on; of a held one it changes nothing and waits. */
  lemma ServedReserve(code: seq<Byte>, s: System, who: nat, input: Input)
    requires Stands(code, s, who, RESERVE)
    ensures var t := s.tasks[who].t;
            var id := Operand(code, t.pc, 0);
            var (s', notes) := Act(code, s, Serve(who, input));
            id < 256 ==>
              if Held(s, id) then s' == s && notes == [Note(who, Waited(RESERVE, [id]))]
              else
                && notes == [Note(who, Did(RESERVE, [id]))] && Held(s', id)
                && s'.tasks == s.tasks[who := Running(t.(pc := t.pc + 3))]
  {
    hide Operand, GetFlag, SetFlag, LookupPc, SkipIf, StartRoute;
    var pc := s.tasks[who].t.pc;
    assert Arity(RESERVE) == 1;
    assert Operands(code, pc, 1) == [Operand(code, pc, 0)];
    if Operand(code, pc, 0) < MAX_FLAGS { FlagFacts(s.flags, Operand(code, pc, 0)); }
  }

  /** IFRESERVE of a free section takes it and enters the block; of a held one it passes the block, or
      ends the task if the table has no end of it. */
  lemma ServedIfReserve(code: seq<Byte>, s: System, who: nat, input: Input)
    requires Stands(code, s, who, IFRESERVE)
    ensures var t := s.tasks[who].t;
            var id := Operand(code, t.pc, 0);
            var (s', notes) := Act(code, s, Serve(who, input));
            id < 256 ==>
              if Held(s, id) then
                && s'.flags == s.flags && |notes| == 1
                && (notes[0].event == Tested(IFRESERVE, [id], false) || notes[0].event == Ceased(MissingEndif))
              else
                && notes == [Note(who, Tested(IFRESERVE, [id], true))] && Held(s', id)
                && s'.tasks == s.tasks[who := Running(t.(pc := t.pc + 3))]
  {
    hide Operand, GetFlag, SetFlag, LookupPc, SkipIf, StartRoute;
    var pc := s.tasks[who].t.pc;
    assert Arity(IFRESERVE) == 1 && IsIf(IFRESERVE);
    assert Operands(code, pc, 1) == [Operand(code, pc, 0)];
    if Operand(code, pc, 0) < MAX_FLAGS { FlagFacts(s.flags, Operand(code, pc, 0)); }
  }

  /** Frees section id: FREE, or FREEALL, by a task or by the operator. */
  predicate Frees(code: seq<Byte>, s: System, a: Action, id: Word) {
    match a
    case Command(op, x) => op == FREEALL || (op == FREE && x == id)
    case Serve(who, _) =>
      || Stands(code, s, who, FREEALL)
      || (Stands(code, s, who, FREE) && Operand(code, s.tasks[who].t.pc, 0) == id)
    case _ => false
  }

  /** The state after a series of actions. */
  function Then(code: seq<Byte>, s: System, actions: seq<Action>): System
    decreases |actions|
  {
    if actions == [] then s else Then(code, Act(code, s, actions[0]).0, actions[1..])
  }

  /** None of these actions reserves section id. */
  predicate NobodyReserves(code: seq<Byte>, s: System, actions: seq<Action>, id: Word)
    decreases |actions|
  {
    actions == [] ||
    (var (s', notes) := Act(code, s, actions[0]);
     !Reserves(actions[0], notes, id) && NobodyReserves(code, s', actions[1..], id))
  }

  lemma FreedIsFree(code: seq<Byte>, s: System, a: Action, id: Word)
    requires id < 256 && Frees(code, s, a, id)
    ensures !Held(Act(code, s, a).0, id)
  {
    hide Act, Operand, GetFlag, Noted;
    BitsExact(code, s, a, id);
    match a
    case Command(op, x) => CommandNoted(code, s, op, x);
    case Serve(who, input) =>
      var op := code[s.tasks[who].t.pc];
      assert IsAct(op) && !CanWait(op) && Arity(op) == 1;
      ServedAct(code, s, who, input, op);
      assert Act(code, s, a).1[0] in Act(code, s, a).1;
  }

  lemma CommandNoted(code: seq<Byte>, s: System, op: Byte, id: Word)
    ensures op != RESERVE ==> Note(-1, Did(op, [id])) in Act(code, s, Command(op, id)).1
    ensures op != RESERVE ==> forall n :: n in Act(code, s, Command(op, id)).1 ==> n == Note(-1, Did(op, [id]))
  {
  }

  lemma {:induction false} StaysFree(code: seq<Byte>, s: System, actions: seq<Action>, id: Word)
    requires id < 256 && !Held(s, id) && NobodyReserves(code, s, actions, id)
    ensures !Held(Then(code, s, actions), id)
    decreases |actions|
  {
    hide Act, Held, Reserves, NotedRelease;
    if actions != [] {
      BitsExact(code, s, actions[0], id);
      StaysFree(code, Act(code, s, actions[0]).0, actions[1..], id);
    }
  }

  /** Once a section was freed, by a task or by the operator, and whatever else happens but that somebody
      reserves it, the next RESERVE of it gets it. */
  lemma ReservedAfterFree(code: seq<Byte>, s: System, a: Action, actions: seq<Action>, who: nat, input: Input)
    requires var s' := Then(code, Act(code, s, a).0, actions);
             && Stands(code, s', who, RESERVE)
             && var id := Operand(code, s'.tasks[who].t.pc, 0);
                id < 256 && Frees(code, s, a, id) && NobodyReserves(code, Act(code, s, a).0, actions, id)
    ensures var s' := Then(code, Act(code, s, a).0, actions);
            var t := s'.tasks[who].t;
            var id := Operand(code, t.pc, 0);
            var (s'', notes) := Act(code, s', Serve(who, input));
            && notes == [Note(who, Did(RESERVE, [id]))] && Held(s'', id)
            && s''.tasks == s'.tasks[who := Running(t.(pc := t.pc + 3))]
  {
    hide Act, Then, Held, NobodyReserves, Frees, Operand;
    var s' := Then(code, Act(code, s, a).0, actions);
    var id := Operand(code, s'.tasks[who].t.pc, 0);
    FreedIsFree(code, s, a, id);
    StaysFree(code, Act(code, s, a).0, actions, id);
    ServedReserve(code, s', who, input);
  }
}

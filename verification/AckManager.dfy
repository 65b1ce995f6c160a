/**
 The ack manager's static state, changed in place by Setup, loop and callback.
 */
module AckManager {
  import opened Basics
  import opened AckProgram
  import opened AckMachine
  import opened AckCalls

  /** One call of loop: passes until one of them returns. */
  function LoopSpec(m: Machine, readings: seq<Env>): (Machine, seq<Stamped>)
    decreases |readings|
  {
    if readings == [] || m.prog.None? then (m, [])
    else
      var (m1, es, stop) := Pass(m, readings[0]);
      var head := Stamp(es, readings[0].now);
      if stop then (m1, head)
      else
        var (m2, rest) := LoopSpec(m1, readings[1..]);
        (m2, head + rest)
  }

  /** A call from outside: of loop, with what its turns read, or of Setup. */
  datatype Call = Loops(readings: seq<Env>) | Asks(a: Act) {
    predicate IsCall() { Asks? ==> a.Request? }
  }

  function NotesOf(who: nat, trace: seq<Stamped>): (notes: seq<Note>)
    ensures |notes| == |trace| && forall i :: 0 <= i < |notes| ==> notes[i] == Did(who, trace[i].at, trace[i].event)
  {
    seq(|trace|, i requires 0 <= i < |trace| => Did(who, trace[i].at, trace[i].event))
  }

  function OneCall(l: Line, c: Call): (Line, seq<Note>) {
    match c
    case Loops(readings) => var (m, trace) := LoopSpec(l.m, readings); (l.(m := m), NotesOf(l.owner, trace))
    case Asks(a) => Step(l, a)
  }

  function Calls(l: Line, calls: seq<Call>): (Line, seq<Note>)
    decreases |calls|
  {
    if calls == [] then (l, [])
    else
      var (l1, head) := OneCall(l, calls[0]);
      var (l2, rest) := Calls(l1, calls[1..]);
      (l2, head + rest)
  }

  /** One call of loop is as many turns as it takes to where it returns. */
  lemma {:induction false} LoopIsGo(l: Line, readings: seq<Env>) returns (n: nat)
    ensures n <= |readings| && Go(l, Turns(readings[..n])) == OneCall(l, Loops(readings))
    ensures readings != [] && l.m.prog.Some? ==> n > 0
    decreases |readings|
  {
    hide Pass;
    if readings == [] || l.m.prog.None? {
      n := 0;
      assert NotesOf(l.owner, []) == [];
    } else {
      var (m1, es, stop) := Pass(l.m, readings[0]);
      var head := Stamp(es, readings[0].now);
      var l1 := l.(m := m1);
      var k := 0;
      if !stop { k := LoopIsGo(l1, readings[1..]); }
      n := k + 1;
      assert Turns(readings[..n])[1..] == Turns(readings[1..][..k]);
      assert Tagged(l.owner, readings[0].now, es) == NotesOf(l.owner, head);
      if stop {
        assert NotesOf(l.owner, head) + [] == NotesOf(l.owner, head);
      } else {
        assert NotesOf(l.owner, head + LoopSpec(m1, readings[1..]).1)
            == NotesOf(l.owner, head) + NotesOf(l.owner, LoopSpec(m1, readings[1..]).1);
      }
    }
  }

  lemma {:induction false} GoSplit(l: Line, a: seq<Act>, b: seq<Act>)
    ensures var (l1, first) := Go(l, a);
            var (l2, second) := Go(l1, b);
            Go(l, a + b) == (l2, first + second)
    decreases |a|
  {
    hide Step;
    if a == [] {
      assert a + b == b && [] + Go(l, b).1 == Go(l, b).1;
    } else {
      GoSplit(Step(l, a[0]).0, a[1..], b);
      assert (a + b)[1..] == a[1..] + b;
      var (l1, head) := Step(l, a[0]);
      var (l2, rest) := Go(l1, a[1..]);
      assert head + (rest + Go(l2, b).1) == (head + rest) + Go(l2, b).1;
    }
  }

  lemma GoOne(l: Line, a: Act)
    ensures Go(l, [a]) == Step(l, a)
  {
    hide Step;
    assert Step(l, a).1 + [] == Step(l, a).1;
  }

  /** However often loop and Setup are called, and wherever each call of loop returns, together the
      calls are one run of turns and requests: what holds of every run holds of the program as it is
      really driven. */
  lemma {:induction false} CallsAreGo(l: Line, calls: seq<Call>) returns (acts: seq<Act>)
    requires forall i :: 0 <= i < |calls| ==> calls[i].IsCall()
    ensures Calls(l, calls) == Go(l, acts)
    decreases |calls|
  {
    hide Pass, Step, LoopSpec;
    acts := [];
    if calls != [] {
      var c := calls[0];
      var first;
      match c {
        case Loops(readings) =>
          var n := LoopIsGo(l, readings);
          first := Turns(readings[..n]);
        case Asks(a) =>
          GoOne(l, a);
          first := [a];
      }
      var rest := CallsAreGo(OneCall(l, c).0, calls[1..]);
      acts := first + rest;
      GoSplit(l, first, rest);
    }
  }

  class AckManager {
    var program: seq<Byte>        // ackManagerProgStart
    var at: nat                   // ackManagerProg, as a position in the program
    var running: bool             // ackManagerProg is not null
    var cv: int
    var bitNum: Byte
    var byte: Byte
    var verify: Byte
    var stash: Byte
    var word: int
    var ackReceived: bool
    var retry: nat
    var rejoin: bool
    var autoPowerOff: bool
    var callback: nat             // ackManagerCallback: whose it is
    var callbackState: Stage
    var callbackStart: nat
    var power: bool
    var joined: bool

    ghost predicate Valid()
      reads this
    {
      running ==> at < |program| && Closed(program[at..]) && Closed(program)
    }

    ghost function Registers(): Regs
      reads this
    {
      Regs(cv, bitNum, byte, verify, stash, word, ackReceived)
    }

    ghost function State(): Machine
      requires Valid()
      reads this
    {
      Machine(if running then Some(program[at..]) else None, program, Registers(), retry, rejoin, autoPowerOff,
              callbackState, callbackStart, power, joined)
    }

    constructor ()
      ensures Valid()
      ensures State() == Machine(None, [], Regs(0, 0, 0, 0, 0, 0, false), 0, false, false, READY, 0, false, false)
    {
      program, at, running := [], 0, false;
      cv, bitNum, byte, verify, stash, word, ackReceived := 0, 0, 0, 0, 0, 0, false;
      retry, rejoin, autoPowerOff := 0, false, false;
      callback, callbackState, callbackStart := 0, READY, 0;
      power, joined := false, false;
    }

    /** Setup: refuses with a callback value, or starts the program; a program that is under way is
        not looked at. caller is whose callback it comes with. */
    method Setup(track: Track, cv: int, byteOrBit: Byte, prog: seq<Byte>, ackRetry: nat, caller: nat)
      returns (refused: Option<int>)
      requires Valid() && Closed(prog)
      modifies this
      ensures Valid()
      ensures match AckMachine.Setup(old(State()), track, cv, byteOrBit, prog, ackRetry)
              case Refused(v, m) => refused == Some(v) && State() == m && callback == old(callback)
              case Started(m) => refused == None && State() == m && callback == caller
    {
      hide AllOps, Closed;
      refused := Admit(track);
      if refused.None? { Accept(track, cv, byteOrBit, prog, ackRetry, caller); }
    }

    /** The rest of Setup, on a track that can be used. */
    method Accept(track: Track, cv: int, byteOrBit: Byte, prog: seq<Byte>, ackRetry: nat, caller: nat)
      requires Closed(prog)
      modifies `autoPowerOff, `power, `callback, `cv, `program, `at, `running, `retry, `byte, `verify, `bitNum
      ensures Valid() && callback == caller
      ensures State() == Machine(Some(prog), prog,
                                 old(Registers()).(cv := cv, byte := byteOrBit, verify := byteOrBit, bit := byteOrBit),
                                 ackRetry, rejoin, !track.power, callbackState, callbackStart, true, joined)
    {
      hide AllOps, Closed;
      PowerUp(track);
      callback := caller;
      Begin(cv, byteOrBit, prog, ackRetry);
    }

    /** The track is unjoined, and looked at. */
    method Admit(track: Track) returns (refused: Option<int>)
      modifies `rejoin, `joined
      ensures rejoin == track.joined
      ensures refused == if !track.hasDriver then Some(-3) else if !track.measures then Some(-2) else None
      ensures joined == (refused == Some(-2) && track.joined)
    {
      rejoin := track.joined;
      joined := false;
      if !track.hasDriver { return Some(-3); }
      if !track.measures {
        joined := rejoin;
        return Some(-2);
      }
      return None;
    }

    /** The Setup that takes a word. */
    method SetupWord(track: Track, word: int, prog: seq<Byte>, ackRetry: nat, caller: nat)
        returns (refused: Option<int>)
      requires Valid() && Closed(prog)
      modifies this
      ensures Valid()
      ensures var was := old(State()).(regs := old(State()).regs.(word := word));
              match AckMachine.Setup(was, track, 0, 0, prog, ackRetry)
              case Refused(v, m) => refused == Some(v) && State() == m && callback == old(callback)
              case Started(m) => refused == None && State() == m && callback == caller
    {
      hide AllOps, Closed;
      this.word := word;
      refused := Setup(track, 0, 0, prog, ackRetry, caller);
    }

    method PowerUp(track: Track)
      modifies `autoPowerOff, `power
      ensures autoPowerOff == !track.power && power
    {
      autoPowerOff := false;
      power := track.power;
      if !track.power {
        autoPowerOff := true;
        power := true;
      }
    }

    method Begin(cv: int, byteOrBit: Byte, prog: seq<Byte>, ackRetry: nat)
      requires Closed(prog)
      modifies `cv, `program, `at, `running, `retry, `byte, `verify, `bitNum
      ensures running && program == prog && at == 0 && retry == ackRetry && Valid() && program[at..] == prog
      ensures this.cv == cv && byte == byteOrBit && verify == byteOrBit && bitNum == byteOrBit
    {
      hide AllOps, Closed;
      this.cv := cv;
      program, at, running := prog, 0, true;
      retry := ackRetry;
      byte, verify, bitNum := byteOrBit, byteOrBit, byteOrBit;
      assert prog[0..] == prog;
      ClosedNotEmpty(prog);
    }

    /** callback */
    method Callback(value: int, now: nat) returns (es: seq<Event>)
      requires Valid() && running
      modifies this
      ensures Valid() && (State(), es) == AckMachine.Callback(old(State()), value, now) && callback == old(callback)
    {
      hide Closed, AllOps;
      es := [];
      if value == -1 && retry > 0 {
        retry := retry - 1;
        at := 0;
        assert program[0..] == program;
        assert at < |program| by { ClosedNotEmpty(program); }
        return [Restart];
      }
      match callbackState {
        case AFTER_READ =>
          if rejoin && !autoPowerOff {
            power, callbackStart, callbackState := false, now, WAITING_30;
            es := [Event.Power(false)];
          } else {
            callbackState := READY;
          }
        case AFTER_WRITE =>
          if !rejoin && !autoPowerOff {
            callbackState := READY;
          } else {
            callbackStart, callbackState := now, WAITING_100;
          }
        case WAITING_100 =>
          if now >= callbackStart + 100 {
            if autoPowerOff {
              callbackState := READY;
            } else {
              power, callbackStart, callbackState := false, now, WAITING_30;
              es := [Event.Power(false)];
            }
          }
        case WAITING_30 =>
          if now >= callbackStart + 30 {
            power, callbackState := true, READY;
            es := [Event.Power(true)];
          }
        case READY =>
          if autoPowerOff {
            power := false;
            es := [Event.Power(false)];
          }
          if rejoin {
            joined := true;
            es := es + [Rejoin];
          }
          running := false;
          assert [] + [Rejoin] == [Rejoin];
          assert es + [] + [Called(value)] == es + [Called(value)];
          es := es + [Called(value)];
      }
    }

    /** Where the pointer moves to, as a position: what is left of the table from there. */
    lemma Moves(n: nat)
      requires at + n <= |program|
      ensures program[at..][n..] == program[at + n..]
    {
    }

    /** W0, W1, WB, VB, V0, V1: nothing until the track has had its resets, then the packet. */
    method Issue(env: Env) returns (es: seq<Event>, stop: bool)
      requires Valid() && running && W0 <= program[at] <= V1
      modifies this
      ensures Valid() && (State(), es, stop) == Pass(old(State()), env) && callback == old(callback)
    {
      hide AllOps, Closed, AfterTarget;
      var op := program[at];
      ghost var was := State();
      ClosedNext(program[at..], Registers());
      if env.resets < RESET_MIN { return [], true; }
      var packet;
      if op == W0 || op == W1 {
        packet := WriteBit(cv, bitNum, op == W1);
        callbackState := AFTER_WRITE;
      } else if op == WB {
        packet := WriteByte(cv, byte);
        callbackState := AFTER_WRITE;
      } else if op == VB {
        packet := VerifyByte(cv, byte);
      } else {
        packet := VerifyBit(cv, bitNum, op == V1);
      }
      Moves(1);
      at := at + 1;
      ClosedNotEmpty(program[at..]);
      return [Sent(packet)], false;
    }

    /** BASELINE and WACK: wait for the track, or for the ack. */
    method Wait(env: Env) returns (stop: bool)
      requires Valid() && running && (program[at] == BASELINE || program[at] == WACK)
      modifies this
      ensures Valid() && (State(), [], stop) == Pass(old(State()), env) && callback == old(callback)
    {
      hide AllOps, Closed, AfterTarget;
      ClosedNext(program[at..], Registers());
      if program[at] == BASELINE {
        if env.overload { return true; }
        var needed := if autoPowerOff || rejoin then 20 else 3;
        if env.resets < needed { return true; }
        callbackState := AFTER_READ;
      } else {
        if env.ack.Pending? { return true; }
        ackReceived := env.ack.Acked?;
      }
      Moves(1);
      at := at + 1;
      ClosedNotEmpty(program[at..]);
      return false;
    }

    /** ITC0, ITC1, ITCB, ITCBV, ITCB7, NAKFAIL, CALLFAIL, FAIL_IF_NONZERO_NAK: call back, or go on. */
    method Test(env: Env) returns (es: seq<Event>, stop: bool)
      requires Valid() && running && IsTest(program[at])
      modifies this
      ensures Valid() && (State(), es, stop) == Pass(old(State()), env) && callback == old(callback)
    {
      hide AllOps, Closed, AfterTarget, AckMachine.Callback;
      var op := program[at];
      ClosedNext(program[at..], Registers());
      var value := -1;
      var calls := true;
      if op == NAKFAIL {
        calls := !ackReceived;
      } else if op == FAIL_IF_NONZERO_NAK {
        calls := byte != 0;
        value := -4;
      } else if op != CALLFAIL {
        calls := ackReceived;
        value := if op == ITC1 then 1 else if op == ITC0 then 0 else if op == ITCB7 then byte % 128 else byte;
      }
      if calls {
        es := Callback(value, env.now);
        return es, true;
      }
      Moves(1);
      at := at + 1;
      ClosedNotEmpty(program[at..]);
      return [], false;
    }

    /** COMBINELOCOID and COMBINE1920: call back with the two bytes combined. */
    method Combine(env: Env) returns (es: seq<Event>)
      requires Valid() && running && (program[at] == COMBINELOCOID || program[at] == COMBINE1920)
      modifies this
      ensures Valid() && (State(), es, true) == Pass(old(State()), env) && callback == old(callback)
    {
      hide AllOps, Closed, AfterTarget, AckMachine.Callback, Marked;
      if program[at] == COMBINELOCOID {
        es := Callback(Marked(byte + (stash - 192) * 256), env.now);
      } else {
        byte := byte % 128;
        byte := byte % 100;
        es := Callback(stash * 100 + byte, env.now);
      }
    }

    /** The operations on registers. */
    method Assign(env: Env)
      requires Valid() && running && IsAssign(program[at])
      modifies this
      ensures Valid() && (State(), [], false) == Pass(old(State()), env) && callback == old(callback)
    {
      hide AllOps, Closed, AfterTarget, Decode;
      ghost var r := Registers();
      ClosedNext(program[at..], r);
      Moves(1);
      AssignDecodes(program[at..], r);
      Change(program[at]);
      at := at + 1;
      ClosedNotEmpty(program[at..]);
    }

    method Change(op: Byte)
      modifies `byte, `bitNum, `stash
      ensures Registers() == Changed(op, old(Registers()))
    {
      if op == BIV {
        byte := verify;
      } else if op == STARTMERGE {
        bitNum, byte := 7, 0;
      } else if op == MERGE {
        byte := (2 * byte) % 256 + if ackReceived then 0 else 1;
        bitNum := (bitNum + 255) % 256;
      } else if op == SETBYTEH {
        byte := (word / 256) % 256;
      } else if op == SETBYTEL {
        byte := word % 256;
      } else if op == STASHLOCOID {
        stash := byte;
      }
    }

    /** SETBIT, SETCV, SETBYTE: the operand follows in the table. */
    method Take(env: Env)
      requires Valid() && running && (program[at] == SETBIT || program[at] == SETCV || program[at] == SETBYTE)
      modifies this
      ensures Valid() && (State(), [], false) == Pass(old(State()), env) && callback == old(callback)
    {
      hide AllOps, Closed, AfterTarget;
      var op := program[at];
      ClosedNext(program[at..], Registers());
      assert program[at..][1..] == program[at + 1..] by { Moves(1); }
      assert program[at + 1..] != [];
      assert program[at..][1..][1..] == program[at + 2..];
      at := at + 1;
      var x := program[at];
      if op == SETBIT {
        bitNum := x;
      } else if op == SETCV {
        cv := x;
      } else {
        byte := x;
      }
      at := at + 1;
      ClosedNotEmpty(program[at..]);
    }

    /** ITSKIP, NAKSKIP, BAD20SKIP: go on, or skip. */
    method Skip(env: Env)
      requires Valid() && running && (program[at] == ITSKIP || program[at] == NAKSKIP || program[at] == BAD20SKIP)
      modifies this
      ensures Valid() && (State(), [], false) == Pass(old(State()), env) && callback == old(callback)
    {
      hide AllOps, Closed, AfterTarget;
      var op := program[at];
      ClosedNext(program[at..], Registers());
      Moves(1);
      var skips := if op == ITSKIP then ackReceived else if op == NAKSKIP then !ackReceived else byte > 120;
      if skips {
        ClosedNotEmpty(AfterTarget(program[at + 1..]));
        SkipToTarget();
      }
      at := at + 1;
      ClosedNotEmpty(program[at..]);
    }

    /** Skip operations until SKIPTARGET is found. */
    method SkipToTarget()
      requires at < |program| && program[at] != SKIPTARGET && AfterTarget(program[at + 1..]) != []
      modifies `at
      ensures at < |program| && program[at + 1..] == AfterTarget(program[old(at) + 1..])
    {
      var op := program[at];
      ghost var rest := AfterTarget(program[at + 1..]);
      while op != SKIPTARGET
        invariant at < |program| && op == program[at]
        invariant rest == if op == SKIPTARGET then program[at + 1..] else AfterTarget(program[at + 1..])
        decreases |program| - at
      {
        assert program[at + 1..] != [];
        assert program[at + 1..][1..] == program[at + 2..];
        at := at + 1;
        op := program[at];
      }
    }

    /** One turn of loop's switch: what was done, and whether it returned. */
    method Interpret(env: Env) returns (es: seq<Event>, stop: bool)
      requires Valid() && running
      modifies this
      ensures Valid() && (State(), es, stop) == Pass(old(State()), env) && callback == old(callback)
    {
      hide AllOps, Closed, AfterTarget, AckMachine.Callback;
      var op := program[at];
      es, stop := [], false;
      if op == BASELINE || op == WACK {
        stop := Wait(env);
      } else if op <= V1 {
        es, stop := Issue(env);
      } else if IsTest(op) {
        es, stop := Test(env);
      } else if op == SETBIT || op == SETCV || op == SETBYTE {
        Take(env);
      } else if op == ITSKIP || op == NAKSKIP || op == BAD20SKIP {
        Skip(env);
      } else if op == COMBINELOCOID || op == COMBINE1920 {
        es := Combine(env);
        stop := true;
      } else if IsAssign(op) {
        Assign(env);
      } else {
        es := Callback(-1, env.now);
        stop := true;
      }
    }

    /** loop, with what each turn of it reads. */
    method Loop(readings: seq<Env>) returns (trace: seq<Stamped>)
      requires Valid()
      modifies this
      ensures Valid() && (State(), trace) == LoopSpec(old(State()), readings) && callback == old(callback)
    {
      hide AllOps, Closed, Pass, Stamp;
      trace := [];
      var i := 0;
      assert readings[0..] == readings;
      assert [] + LoopSpec(State(), readings).1 == LoopSpec(State(), readings).1;
      while running && i < |readings|
        invariant i <= |readings| && Valid() && callback == old(callback)
        invariant LoopSpec(old(State()), readings) ==
                  var (m, rest) := LoopSpec(State(), readings[i..]); (m, trace + rest)
      {
        ghost var was := State();
        var es, stop := Interpret(readings[i]);
        var head := Stamp(es, readings[i].now);
        assert readings[i..][1..] == readings[i + 1..];
        ghost var rest := LoopSpec(State(), readings[i + 1..]).1;
        assert (trace + head) + rest == trace + (head + rest);
        trace := trace + head;
        if stop { return; }
        i := i + 1;
      }
      assert trace + [] == trace;
    }
  }

  predicate IsTest(op: Byte) {
    ITC1 <= op <= CALLFAIL || op == FAIL_IF_NONZERO_NAK
  }

  predicate IsAssign(op: Byte) {
    op == BIV || op == STARTMERGE || op == MERGE || op == SETBYTEH || op == SETBYTEL || op == STASHLOCOID ||
        op == SKIPTARGET
  }

  /** What an operation on registers makes of them. */
  function Changed(op: Byte, r: Regs): Regs {
    if op == BIV then r.(byte := r.verify)
    else if op == STARTMERGE then r.(bit := 7, byte := 0)
    else if op == MERGE then r.(byte := (2 * r.byte) % 256 + if r.ack then 0 else 1, bit := (r.bit + 255) % 256)
    else if op == SETBYTEH then r.(byte := (r.word / 256) % 256)
    else if op == SETBYTEL then r.(byte := r.word % 256)
    else if op == STASHLOCOID then r.(stash := r.byte)
    else r
  }

  lemma AssignDecodes(code: seq<Byte>, r: Regs)
    requires code != [] && IsAssign(code[0])
    ensures Decode(code, r) == Goto(code[1..], Changed(code[0], r))
  {
  }

  lemma ClosedNotEmpty(prog: seq<Byte>)
    requires Closed(prog)
    ensures prog != []
  {
  }
}

/**
 Single-CV programs: on a compliant decoder the value called back is the value stored; on any
 track, with any acks, a value called back was verified last.
 */
module AckCvReads {
  import opened Basics
  import opened AckProgram
  import opened AckReads

  /** The first bit, with its excursion: bit 7 is read when the CV answers, else the program
      gives up with -1. */
  lemma ReadsTopBit(rest: seq<Byte>, b: Bench) returns (b': Bench)
    ensures if Has(b.d, b.regs.cv) then Exec(READ_BIT_7 + rest, b) == Exec(rest, b')
            else Reports(Exec(READ_BIT_7 + rest, b), -1, b.d)
    ensures b'.d == b.d
    ensures b'.regs == b.regs.(byte := b'.regs.byte, bit := b'.regs.bit, ack := b'.regs.ack)
    ensures Has(b.d, b.regs.cv) ==> b'.regs.byte == b.d.cvs[b.regs.cv] / 128 && b'.regs.bit == 6
  {
    hide Exec, BitOf;
    var end := [SKIPTARGET] + rest;
    var extra := [SETBIT, 7, V1, WACK, NAKFAIL, SETBIT, 6];
    assert READ_BIT_7 + rest == [STARTMERGE] + ([V0, WACK, MERGE] + ([ITSKIP] + (extra + end)));
    Plain(STARTMERGE, [V0, WACK, MERGE] + ([ITSKIP] + (extra + end)), b);
    var b1 := b.(regs := b.regs.(bit := 7, byte := 0));
    MergeOne([ITSKIP] + (extra + end), b1);
    var b2 := Merged(Asked(V0, b1));
    Skips(ITSKIP, extra, rest, b2);
    b' := b2;
    TopBit(if Has(b.d, b.regs.cv) then b.d.cvs[b.regs.cv] else 0);
    if !b2.regs.ack {
      b' := Excursion(rest, b2);
    }
  }

  lemma TopBit(v: Byte)
    ensures v / 128 == if BitOf(v, 7) then 1 else 0
  {
    assert Pow2(4) == 16 && Pow2(5) == 32 && Pow2(6) == 64 && Pow2(7) == 128;
  }

  /** No ack for a zero: the bit is a one, or nobody is there. */
  lemma Excursion(rest: seq<Byte>, b: Bench) returns (b': Bench)
    requires Has(b.d, b.regs.cv) ==> BitOf(b.d.cvs[b.regs.cv], 7)
    ensures var code := [SETBIT, 7, V1, WACK, NAKFAIL, SETBIT, 6] + ([SKIPTARGET] + rest);
            if Has(b.d, b.regs.cv) then Exec(code, b) == Exec(rest, b') else Reports(Exec(code, b), -1, b.d)
    ensures b'.d == b.d && b'.regs == b.regs.(bit := 6, ack := b'.regs.ack)
  {
    hide Exec, BitOf;
    var end := [SKIPTARGET] + rest;
    var last := [SETBIT, 6] + end;
    assert [SETBIT, 7, V1, WACK, NAKFAIL, SETBIT, 6] + end == [SETBIT, 7] + ([V1, WACK] + ([NAKFAIL] + last));
    SetOp(SETBIT, 7, [V1, WACK] + ([NAKFAIL] + last), b);
    var b1 := b.(regs := b.regs.(bit := 7));
    Ask(V1, [NAKFAIL] + last, b1);
    var b2 := Asked(V1, b1);
    Test(NAKFAIL, last, b2);
    SetOp(SETBIT, 6, end, b2);
    b' := b2.(regs := b2.regs.(bit := 6));
    Plain(SKIPTARGET, rest, b');
  }

  /** The eight bits and the final verify, with either opcode that reports the byte. */
  lemma ReadsWhole(op: Byte, b: Bench)
    requires op == ITCB || op == ITCBV
    ensures Reports(Exec(READ_BIT_7 + (MERGE_7 + ([VB, WACK] + ([op] + ([CALLFAIL] + [])))), b),
                    if Has(b.d, b.regs.cv) then b.d.cvs[b.regs.cv] else -1, b.d)
  {
    hide Exec, READ_BIT_7, MERGE_7, Groups, BitOf;
    GroupsAre();
    var back := [op] + ([CALLFAIL] + []);
    var b1 := ReadsTopBit(MERGE_7 + ([VB, WACK] + back), b);
    if Has(b.d, b.regs.cv) {
      var v := b.d.cvs[b.regs.cv];
      assert Pow2(7) == 128 by { TopBit(0); assert Pow2(4) == 16; }
      var b2 := MergeBits(7, v, [VB, WACK] + back, b1);
      Ask(VB, back, b2);
      var b3 := Asked(VB, b2);
      Test(op, [CALLFAIL] + [], b3);
    }
  }

  /** readCV calls back exactly the stored byte, or -1 when the CV does not answer. */
  lemma ReadsCv(b: Bench)
    ensures Reports(Exec(READ_CV_PROG, b), if Has(b.d, b.regs.cv) then b.d.cvs[b.regs.cv] else -1, b.d)
  {
    hide Exec, READ_BIT_7, MERGE_7;
    var code := READ_BIT_7 + (MERGE_7 + ([VB, WACK] + ([ITCB] + ([CALLFAIL] + []))));
    ReadShape([BASELINE], READ_BIT_7, MERGE_7, ITCB);
    Plain(BASELINE, code, b);
    ReadsWhole(ITCB, b);
  }

  lemma ReadShape(a: seq<Byte>, x: seq<Byte>, m: seq<Byte>, op: Byte)
    ensures a + x + m + [VB, WACK, op, CALLFAIL] == a + (x + (m + ([VB, WACK] + ([op] + ([CALLFAIL] + [])))))
  {
    assert [VB, WACK, op, CALLFAIL] == [VB, WACK] + ([op] + ([CALLFAIL] + []));
  }

  /** verifyCVByte calls back exactly the stored byte too, whatever value it starts from. */
  lemma VerifiesCv(b: Bench)
    ensures Reports(Exec(VERIFY_BYTE_PROG, b), if Has(b.d, b.regs.cv) then b.d.cvs[b.regs.cv] else -1, b.d)
  {
    hide Exec, READ_BIT_7, MERGE_7;
    var code := READ_BIT_7 + (MERGE_7 + ([VB, WACK] + ([ITCBV] + ([CALLFAIL] + []))));
    ReadShape([BASELINE, BIV, VB, WACK, ITCB], READ_BIT_7, MERGE_7, ITCBV);
    assert [BASELINE, BIV, VB, WACK, ITCB] + code == [BASELINE] + ([BIV] + ([VB, WACK] + ([ITCB] + code)));
    Plain(BASELINE, [BIV] + ([VB, WACK] + ([ITCB] + code)), b);
    Plain(BIV, [VB, WACK] + ([ITCB] + code), b);
    var b1 := b.(regs := b.regs.(byte := b.regs.verify));
    Ask(VB, [ITCB] + code, b1);
    var b2 := Asked(VB, b1);
    Test(ITCB, code, b2);
    ReadsWhole(ITCBV, b2);
  }

  /** writeCVByte then readCV gives the byte back, on every decoder that has the CV. */
  lemma WriteThenReadCv(set0: Bench, get0: Bench)
    requires get0.regs.cv == set0.regs.cv
    requires Exec(WRITE_BYTE_PROG, set0).Result? ==> get0.d == Exec(WRITE_BYTE_PROG, set0).d
    ensures var r := Exec(WRITE_BYTE_PROG, set0);
            && r.Result? && (r.value == 1 <==> Has(set0.d, set0.regs.cv)) && (r.value != 1 ==> r.value == -1)
            && (r.value == 1 ==> Reports(Exec(READ_CV_PROG, get0), set0.regs.byte, r.d))
  {
    hide Exec, READ_CV_PROG;
    ReadsCv(get0);
    var last := [ITC1] + ([CALLFAIL] + []);
    assert WRITE_BYTE_PROG == [BASELINE] + ([WB, WACK] + ([ITC1] + ([VB, WACK] + last)));
    Plain(BASELINE, [WB, WACK] + ([ITC1] + ([VB, WACK] + last)), set0);
    Ask(WB, [ITC1] + ([VB, WACK] + last), set0);
    var b1 := Asked(WB, set0);
    Test(ITC1, [VB, WACK] + last, b1);
    Ask(VB, last, b1);
    var b2 := Asked(VB, b1);
    Test(ITC1, [CALLFAIL] + [], b2);
    Test(CALLFAIL, [], b2);
  }

  // ---------------------------------------------------------------- any track, any acks

  /** Values of at least 0 are reported only by an ITCB or ITCBV right after a VB and its WACK, and
      nothing else leads there: the table says so byte by byte. */
  predicate Confirming(code: seq<Byte>) {
    forall i :: 0 <= i < |code| ==> ConfirmsAt(code, i)
  }

  predicate ConfirmsAt(code: seq<Byte>, i: nat)
    requires i < |code|
  {
    && !Excluded(code[i])
    && (code[i] == ITCB || code[i] == ITCBV ==>
          i >= 2 && code[i - 1] == WACK && code[i - 2] == VB && (i >= 3 ==> !TakesByte(code[i - 3])))
  }

  /** Operations that report something else, or change the CV. */
  predicate Excluded(op: Byte) {
    op == ITC0 || op == ITC1 || op == ITCB7 || op == COMBINELOCOID || op == COMBINE1920 || op == SETCV
  }

  predicate TakesByte(op: Byte) {
    op == SETBIT || op == SETCV || op == SETBYTE
  }

  predicate Confirmed(last: Option<Packet>, cv: int, value: int) {
    last.Some? && last.value.VerifyByte? && last.value.cv == cv && last.value.byte == value
  }

  /** Where the program stands says what was last sent and heard. */
  predicate Ready(prog: seq<Byte>, at: nat, r: Regs, last: Option<Packet>, acked: bool)
    requires at <= |prog|
  {
    && (at < |prog| && at >= 1 && prog[at] == WACK && prog[at - 1] == VB && (at >= 2 ==> !TakesByte(prog[at - 2])) ==>
          last == Some(VerifyByte(r.cv, r.byte)))
    && (at < |prog| && (prog[at] == ITCB || prog[at] == ITCBV) ==>
          last == Some(VerifyByte(r.cv, r.byte)) && r.ack == acked)
  }

  /** A skip lands at the end or just past a SKIPTARGET. */
  lemma {:induction false} LandsAt(prog: seq<Byte>, at: nat) returns (q: nat)
    requires at <= |prog|
    ensures at <= q <= |prog| && AfterTarget(prog[at..]) == prog[q..]
    ensures q < |prog| ==> q > at && prog[q - 1] == SKIPTARGET
    decreases |prog| - at
  {
    if at == |prog| {
      q := at;
    } else if prog[at] == SKIPTARGET {
      q := at + 1;
      assert prog[at..][1..] == prog[q..];
    } else {
      q := LandsAt(prog, at + 1);
      assert prog[at..][1..] == prog[at + 1..];
    }
  }

  /** One operation keeps track: wherever it goes on, Ready holds there. */
  lemma ReadyNext(prog: seq<Byte>, at: nat, r: Regs, last: Option<Packet>, acked: bool, answer: bool) returns (q: nat)
    requires Confirming(prog) && at < |prog| && Ready(prog, at, r, last, acked)
    ensures var a := Decode(prog[at..], r);
            match a
            case Goto(next, r') => at < q <= |prog| && next == prog[q..] && r'.cv == r.cv &&
                Ready(prog, q, r', last, acked)
            case Base(next, r') => at < q <= |prog| && next == prog[q..] && r' == r && Ready(prog, q, r', last, acked)
            case Issue(next, r', p) =>
              at < q <= |prog| && next == prog[q..] && r' == r && Ready(prog, q, r', Some(p), answer)
            case Await(next, r') =>
              at < q <= |prog| && next == prog[q..] && r' == r && Ready(prog, q, r'.(ack := acked), last, acked)
            case Report(_, v) => v >= 0 ==> Confirmed(last, r.cv, v) && acked
            case RunOff => true
  {
    hide AfterTarget;
    var code := prog[at..];
    var op := prog[at];
    assert ConfirmsAt(prog, at) && (at + 1 < |prog| ==> ConfirmsAt(prog, at + 1));
    assert at + 2 < |prog| ==> ConfirmsAt(prog, at + 2);
    assert code[0] == op && code[1..] == prog[at + 1..];
    if op == ITSKIP || op == NAKSKIP || op == BAD20SKIP {
      q := SkipNext(prog, at, r, last, acked);
    } else if TakesByte(op) && |code| >= 2 {
      q := at + 2;
      assert code[1..][1..] == prog[q..];
    } else {
      q := at + 1;
    }
  }

  lemma SkipNext(prog: seq<Byte>, at: nat, r: Regs, last: Option<Packet>, acked: bool) returns (q: nat)
    requires Confirming(prog) && at < |prog| && prog[at] in {ITSKIP, NAKSKIP, BAD20SKIP}
    ensures var a := Decode(prog[at..], r);
            a.Goto? && a.regs == r && at < q <= |prog| && a.code == prog[q..] && Ready(prog, q, r, last, acked)
  {
    hide Decode;
    var code := prog[at..];
    assert code[0] == prog[at] && code[1..] == prog[at + 1..];
    SkipGoes(code, r);
    if Decode(code, r).code == code[1..] {
      q := at + 1;
    } else {
      q := LandsAt(prog, at + 1);
    }
    ReadyAfter(prog, q, r, last, acked);
  }

  lemma SkipGoes(code: seq<Byte>, r: Regs)
    requires code != [] && code[0] in {ITSKIP, NAKSKIP, BAD20SKIP}
    ensures var a := Decode(code, r);
            a.Goto? && a.regs == r && (a.code == code[1..] || a.code == AfterTarget(code[1..]))
  {
  }

  lemma ReadyAfter(prog: seq<Byte>, q: nat, r: Regs, last: Option<Packet>, acked: bool)
    requires Confirming(prog) && 0 < q <= |prog| && (q < |prog| ==> prog[q - 1] != WACK && prog[q - 1] != VB)
    ensures Ready(prog, q, r, last, acked)
  {
    if q < |prog| { assert ConfirmsAt(prog, q); }
  }

  /** Whatever the track answers, a value the CV read or byte verify calls back was confirmed: the
      last packet sent was a verify of that value in that CV, and it was acknowledged. */
  lemma {:induction false} ConfirmedFrom(prog: seq<Byte>, at: nat, r: Regs, last: Option<Packet>, acked: bool,
                                         answers: seq<bool>)
    requires Confirming(prog) && at <= |prog| && Ready(prog, at, r, last, acked)
    ensures var h := Listen(prog[at..], r, last, acked, answers);
            h.Heard? && h.value >= 0 ==> h.acked && Confirmed(h.lastPacket, r.cv, h.value)
    decreases |prog| - at
  {
    hide Decode, Ready, Confirming;
    if at < |prog| {
      var answer := answers != [] && answers[0];
      var rest := if answers == [] then [] else answers[1..];
      var q := ReadyNext(prog, at, r, last, acked, answer);
      match Decode(prog[at..], r)
      case Goto(_, r') => ConfirmedFrom(prog, q, r', last, acked, answers);
      case Base(_, r') => ConfirmedFrom(prog, q, r', last, acked, answers);
      case Issue(_, r', p) => ConfirmedFrom(prog, q, r', Some(p), answer, rest);
      case Await(_, r') => ConfirmedFrom(prog, q, r'.(ack := acked), last, acked, answers);
      case _ =>
    } else {
      assert prog[at..] == [];
      NothingLeft(r, last, acked, answers);
    }
  }

  lemma NothingLeft(r: Regs, last: Option<Packet>, acked: bool, answers: seq<bool>)
    ensures Listen([], r, last, acked, answers) == Unheard
  {
  }

  /** Nothing here reports, and the next byte is an operation. */
  predicate Quiet(s: seq<Byte>) {
    && (forall i :: 0 <= i < |s| ==> !Excluded(s[i]) && s[i] != ITCB && s[i] != ITCBV)
    && (s != [] ==> !TakesByte(s[|s| - 1]))
  }

  lemma QuietJoins(a: seq<Byte>, b: seq<Byte>)
    requires Quiet(a) && Quiet(b)
    ensures Quiet(a + b)
  {
  }

  lemma QuietThenVerify(a: seq<Byte>, q: seq<Byte>, op: Byte)
    requires Confirming(a) && (a == [] || !TakesByte(a[|a| - 1])) && Quiet(q) && (op == ITCB || op == ITCBV)
    ensures Confirming(a + q + [VB, WACK, op, CALLFAIL])
  {
    var c := a + q + [VB, WACK, op, CALLFAIL];
    var n := |a| + |q|;
    assert c[n] == VB && c[n + 1] == WACK && c[n + 2] == op && c[n + 3] == CALLFAIL;
    forall i | 0 <= i < |c| ensures ConfirmsAt(c, i) {
      if i < |a| {
        assert ConfirmsAt(a, i);
      } else if i < n {
        assert c[i] == q[i - |a|];
      } else if n > 0 {
        assert c[n - 1] == if q != [] then q[|q| - 1] else a[|a| - 1];
      }
    }
  }

  lemma QuietReads()
    ensures Quiet(READ_BIT_7) && Quiet(MERGE_7)
  {
  }

  lemma BothConfirm()
    ensures Confirming(READ_CV_PROG) && Confirming(VERIFY_BYTE_PROG)
  {
    hide READ_BIT_7, MERGE_7, Quiet;
    QuietReads();
    QuietJoins(READ_BIT_7, MERGE_7);
    QuietThenVerify([BASELINE], READ_BIT_7 + MERGE_7, ITCB);
    QuietThenVerify([BASELINE, BIV, VB, WACK, ITCB], READ_BIT_7 + MERGE_7, ITCBV);
    JoinThree([BASELINE], READ_BIT_7, MERGE_7);
    JoinThree([BASELINE, BIV, VB, WACK, ITCB], READ_BIT_7, MERGE_7);
  }

  lemma JoinThree(a: seq<Byte>, x: seq<Byte>, m: seq<Byte>)
    ensures a + (x + m) == a + x + m
  {
  }

  lemma ReadsAreConfirmed(prog: seq<Byte>, r: Regs, answers: seq<bool>)
    requires prog == READ_CV_PROG || prog == VERIFY_BYTE_PROG
    ensures var h := Listen(prog, r, None, false, answers);
            h.Heard? && h.value >= 0 ==> h.acked && Confirmed(h.lastPacket, r.cv, h.value)
  {
    hide Listen, Confirming, READ_BIT_7, MERGE_7;
    BothConfirm();
    assert prog[0..] == prog;
    assert Ready(prog, 0, r, None, false) by { StartsReady(r); }
    ConfirmedFrom(prog, 0, r, None, false, answers);
  }

  lemma StartsReady(r: Regs)
    ensures Ready(READ_CV_PROG, 0, r, None, false) && Ready(VERIFY_BYTE_PROG, 0, r, None, false)
  {
    hide READ_BIT_7, MERGE_7;
    assert READ_CV_PROG[0] == BASELINE && VERIFY_BYTE_PROG[0] == BASELINE;
  }
}

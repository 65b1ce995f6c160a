/**
 Single bits and bytes of a CV: what the write programs leave in the decoder, what the others call
 back, and that what was written is what is read.
 */
module AckBits {
  import opened Basics
  import opened AckProgram
  import opened AckReads
  import opened AckRoundTrips
  import opened AckCvReads

  /** The program writeCVBit hands to Setup, for bits below 8; for others it calls back -1 itself. */
  function WriteBitProg(on: bool): seq<Byte> {
    if on then WRITE_BIT1_PROG else WRITE_BIT0_PROG
  }

  function VerifyBitProg(on: bool): seq<Byte> {
    if on then VERIFY_BIT1_PROG else VERIFY_BIT0_PROG
  }

  // ---------------------------------------------------------------- one bit of a byte

  /** w is v with bit i as given. */
  predicate BitChanged(v: Byte, w: Byte, i: nat, on: bool) {
    forall j :: 0 <= j < 8 ==> BitOf(w, j) == if j == i then on else BitOf(v, j)
  }

  lemma WithBitChanges(v: Byte, i: nat, on: bool)
    requires i < 8
    ensures BitChanged(v, WithBit(v, i, on), i, on)
  {
    hide BitOf, WithBit;
    var w := WithBit(v, i, on);
    forall j | 0 <= j < 8 ensures BitOf(w, j) == if j == i then on else BitOf(v, j) {
      if j == i {
        WithBitSets(v, i, on);
      } else if on != BitOf(v, i) {
        var low, high := if on then v else w, if on then w else v;
        LowAndHigh(v, i, on);
        if j < i { BitsBelow(low, i, j); } else { BitsAbove(low, i, j); }
      } else {
        SameByte(v, i, on);
      }
    }
  }

  lemma SameByte(v: Byte, i: nat, on: bool)
    requires i < 8 && on == BitOf(v, i)
    ensures WithBit(v, i, on) == v
  {
  }

  /** Of the two bytes one is the other plus the bit's weight. */
  lemma LowAndHigh(v: Byte, i: nat, on: bool)
    requires i < 8 && on != BitOf(v, i)
    ensures var w := WithBit(v, i, on);
            var low, high := if on then v else w, if on then w else v;
            !BitOf(low, i) && high == low + Pow2(i)
  {
    hide BitOf, Pow2;
    BitsAreSmall(v, i);
    WithBitSets(v, i, on);
  }

  lemma {:induction false} PowerBelow(i: nat, j: nat)
    requires j < i
    ensures Pow2(i) == Pow2(j) * Pow2(i - j) && Pow2(i - j) % 2 == 0
    decreases i
  {
    HalfPower(i - j);
    if j > 0 { PowerBelow(i - 1, j - 1); }
  }

  lemma BitsBelow(low: nat, i: nat, j: nat)
    requires j < i < 8 && low + Pow2(i) < 256
    ensures BitOf(low + Pow2(i), j) == BitOf(low, j)
  {
    hide Pow2;
    PowerBelow(i, j);
    DivMore(low, Pow2(j), Pow2(i - j));
    EvenAdds(low / Pow2(j), Pow2(i - j));
  }

  lemma BitsAbove(low: nat, i: nat, j: nat)
    requires i < j < 8 && low + Pow2(i) < 256 && !BitOf(low, i)
    ensures BitOf(low + Pow2(i), j) == BitOf(low, j)
  {
    hide Pow2;
    FirstAbove(low, i);
    SameQuotients(low, low + Pow2(i), i + 1, j);
  }

  lemma FirstAbove(low: nat, i: nat)
    requires i < 8 && low + Pow2(i) < 256 && !BitOf(low, i)
    ensures low / Pow2(i + 1) == (low + Pow2(i)) / Pow2(i + 1)
  {
    hide Pow2;
    HalfBit(low, i);
    HalfBit(low + Pow2(i), i);
    DivMore(low, Pow2(i), 1);
  }

  lemma {:induction false} SameQuotients(v: Byte, w: Byte, i: nat, j: nat)
    requires i <= j <= 8 && v / Pow2(i) == w / Pow2(i)
    ensures v / Pow2(j) == w / Pow2(j)
    decreases j
  {
    hide Pow2;
    if i < j {
      SameQuotients(v, w, i, j - 1);
      HalfBit(v, j - 1);
      HalfBit(w, j - 1);
    }
  }

  // ---------------------------------------------------------------- the five bit programs

  /** What a read of bit i calls back. */
  function BitRead(d: Decoder, cv: int, i: nat): int {
    if !Has(d, cv) then -1 else if BitOf(d.cvs[cv], i) then 1 else 0
  }

  /** The decoder with that bit written, if it has the CV. */
  function WithCvBit(d: Decoder, cv: int, i: nat, on: bool): Decoder {
    if Has(d, cv) && i < 8 then d.(cvs := d.cvs[cv := WithBit(d.cvs[cv], i, on)]) else d
  }

  /** Asking for the bit one way, and then the other. */
  lemma AsksBoth(first: Byte, second: Byte, b: Bench)
    requires b.regs.bit < 8 || !Has(b.d, b.regs.cv)
    requires (first == V0 && second == V1) || (first == V1 && second == V0)
    ensures var code := [BASELINE] + ([first, WACK] + ([if first == V0 then ITC0 else ITC1]
                        + ([second, WACK] + ([if second == V0 then ITC0 else ITC1] + ([CALLFAIL] + [])))));
            Reports(Exec(code, b), BitRead(b.d, b.regs.cv, b.regs.bit), b.d)
  {
    hide Exec, BitOf;
    var t1, t2 := if first == V0 then ITC0 else ITC1, if second == V0 then ITC0 else ITC1;
    var end := [t2] + ([CALLFAIL] + []);
    var again := [second, WACK] + end;
    Plain(BASELINE, [first, WACK] + ([t1] + again), b);
    Ask(first, [t1] + again, b);
    var b1 := Asked(first, b);
    Test(t1, again, b1);
    Ask(second, end, b1);
    var b2 := Asked(second, b1);
    Test(t2, [CALLFAIL] + [], b2);
    Test(CALLFAIL, [], b2);
  }

  /** readCVBit and verifyCVBit call back the bit as the decoder has it, or -1 for a CV it lacks; whatever
      value is to be verified. */
  lemma ReadsBit(on: bool, b: Bench)
    requires b.regs.bit < 8 || !Has(b.d, b.regs.cv)
    ensures Reports(Exec(READ_BIT_PROG, b), BitRead(b.d, b.regs.cv, b.regs.bit), b.d)
    ensures Reports(Exec(VerifyBitProg(on), b), BitRead(b.d, b.regs.cv, b.regs.bit), b.d)
  {
    hide Exec, BitRead;
    AsksBoth(V0, V1, b);
    AsksBoth(V1, V0, b);
    assert READ_BIT_PROG
        == [BASELINE] + ([V1, WACK] + ([ITC1] + ([V0, WACK] + ([ITC0] + ([CALLFAIL] + [])))));
    assert VERIFY_BIT1_PROG
        == [BASELINE] + ([V1, WACK] + ([ITC1] + ([V0, WACK] + ([ITC0] + ([CALLFAIL] + [])))));
    assert VERIFY_BIT0_PROG
        == [BASELINE] + ([V0, WACK] + ([ITC0] + ([V1, WACK] + ([ITC1] + ([CALLFAIL] + [])))));
  }

  /** writeCVBit calls back 1 if the decoder has the CV, whether or not it acknowledges writes, and else
      -1; and that bit is then as asked. */
  lemma WritesBit(on: bool, b: Bench)
    requires b.regs.bit < 8 || !Has(b.d, b.regs.cv)
    ensures Reports(Exec(WriteBitProg(on), b), if Has(b.d, b.regs.cv) then 1 else -1,
                    WithCvBit(b.d, b.regs.cv, b.regs.bit, on))
  {
    hide Exec, BitOf, WithBit;
    var w, v := if on then W1 else W0, if on then V1 else V0;
    var end := [ITC1] + ([CALLFAIL] + []);
    assert WriteBitProg(on) == [BASELINE] + ([w, WACK] + ([v, WACK] + end));
    Plain(BASELINE, [w, WACK] + ([v, WACK] + end), b);
    Ask(w, [v, WACK] + end, b);
    var b1 := Asked(w, b);
    Ask(v, end, b1);
    var b2 := Asked(v, b1);
    if Has(b.d, b.regs.cv) { WithBitSets(b.d.cvs[b.regs.cv], b.regs.bit, on); }
    Test(ITC1, [CALLFAIL] + [], b2);
    Test(CALLFAIL, [], b2);
  }

  /** Written, a bit is as asked, the other seven and every other CV are as they were. */
  lemma OneBitWritten(d: Decoder, cv: int, i: nat, on: bool)
    requires i < 8
    ensures var d' := WithCvBit(d, cv, i, on);
            && d'.acksWrites == d.acksWrites && d'.cvs.Keys == d.cvs.Keys
            && (forall c :: c in d.cvs && c != cv ==> d'.cvs[c] == d.cvs[c])
            && (Has(d, cv) ==> BitChanged(d.cvs[cv], d'.cvs[cv], i, on))
  {
    hide BitOf, WithBit, BitChanged;
    if Has(d, cv) { WithBitChanges(d.cvs[cv], i, on); }
  }

  /** The round trip: a bit written to a CV the decoder has is read back so, by itself and in its byte. */
  lemma WriteThenReadBit(on: bool, set0: Bench, get0: Bench)
    requires set0.regs.bit < 8 && get0.regs.cv == set0.regs.cv && get0.regs.bit == set0.regs.bit
    requires Exec(WriteBitProg(on), set0).Result? ==> get0.d == Exec(WriteBitProg(on), set0).d
    ensures var r := Exec(WriteBitProg(on), set0);
            var byte := Exec(READ_CV_PROG, get0);
            && r.Result? && r.value == (if Has(set0.d, set0.regs.cv) then 1 else -1)
            && Reports(Exec(READ_BIT_PROG, get0), if r.value == -1 then -1 else if on then 1 else 0, r.d)
            && byte.Result? && byte.d == r.d
            && (r.value == 1 ==> 0 <= byte.value < 256
                                 && BitChanged(set0.d.cvs[set0.regs.cv], byte.value, set0.regs.bit, on))
  {
    hide Exec, WriteBitProg, READ_BIT_PROG, READ_CV_PROG, BitChanged, WithBit, BitOf;
    WritesBit(on, set0);
    ReadsBit(on, get0);
    ReadsCv(get0);
    OneBitWritten(set0.d, set0.regs.cv, set0.regs.bit, on);
    if Has(set0.d, set0.regs.cv) { WithBitSets(set0.d.cvs[set0.regs.cv], set0.regs.bit, on); }
  }

  /** writeCVByte: 1 or -1, and the CV holds the byte. */
  lemma WritesByte(b: Bench)
    ensures Reports(Exec(WRITE_BYTE_PROG, b), if Has(b.d, b.regs.cv) then 1 else -1,
                    Written(b.d, b.regs.cv, b.regs.byte))
  {
    hide Exec;
    assert WRITE_BYTE_PROG == [BASELINE] + STORE;
    Plain(BASELINE, STORE, b);
    Stores(b);
  }

  // ---------------------------------------------------------------- a CV that is not there

  /** The programs that deal with the one CV they are given. */
  predicate CvProgram(prog: seq<Byte>) {
    || prog == WRITE_BIT0_PROG || prog == WRITE_BIT1_PROG || prog == VERIFY_BIT0_PROG || prog == VERIFY_BIT1_PROG
    || prog == READ_BIT_PROG || prog == WRITE_BYTE_PROG || prog == VERIFY_BYTE_PROG || prog == READ_CV_PROG
  }

  lemma NoCvIsSet(prog: seq<Byte>)
    requires CvProgram(prog)
    ensures SETCV !in prog
  {
    hide READ_BIT_7, MERGE_7;
    assert SETCV !in READ_BIT_7 && SETCV !in MERGE_7 by { PartsSetNone(); }
  }

  lemma PartsSetNone()
    ensures SETCV !in READ_BIT_7 && SETCV !in MERGE_7
  {
  }

  /** Without a SETCV only the CV that is given is asked for; if it is not there, the decoder stays as it
      is. */
  lemma {:induction false} Untouched(code: seq<Byte>, b: Bench)
    requires SETCV !in code && !Has(b.d, b.regs.cv)
    ensures var r := Exec(code, b); r.Result? ==> r.d == b.d && r.regs.cv == b.regs.cv
    decreases |code|
  {
    hide Decode, AfterTarget;
    OneOp(code, b.regs);
    match Decode(code, b.regs)
    case Goto(next, r) => Untouched(next, b.(regs := r));
    case Base(next, r) => Untouched(next, b.(regs := r));
    case Issue(next, r, p) => Untouched(next, Bench(r, b.d, false));
    case Await(next, r) => Untouched(next, b.(regs := r.(ack := b.heard)));
    case _ =>
  }

  lemma OneOp(code: seq<Byte>, r: Regs)
    requires SETCV !in code
    ensures var a := Decode(code, r);
            && (!a.RunOff? ==> a.regs.cv == r.cv)
            && (!a.RunOff? && !a.Report? ==> SETCV !in a.code)
            && (a.Issue? ==> a.packet.cv == r.cv)
  {
    if code != [] { NoneBehind(code[1..]); }
  }

  lemma {:induction false} NoneBehind(code: seq<Byte>)
    requires SETCV !in code
    ensures SETCV !in AfterTarget(code)
    decreases |code|
  {
    if code != [] && code[0] != SKIPTARGET { NoneBehind(code[1..]); }
  }

  /** Each of them then reports -1, every time. */
  lemma NoCvReports(prog: seq<Byte>, b: Bench)
    requires CvProgram(prog) && !Has(b.d, b.regs.cv)
    ensures Reports(Exec(prog, b), -1, b.d) && Exec(prog, b).regs.cv == b.regs.cv
  {
    hide Exec, WRITE_BIT0_PROG, WRITE_BIT1_PROG, VERIFY_BIT0_PROG, VERIFY_BIT1_PROG, READ_BIT_PROG, WRITE_BYTE_PROG,
      VERIFY_BYTE_PROG, READ_CV_PROG;
    NoCvIsSet(prog);
    Untouched(prog, b);
    ReadsBit(true, b);
    ReadsBit(false, b);
    WritesBit(true, b);
    WritesBit(false, b);
    WritesByte(b);
    VerifiesCv(b);
    ReadsCv(b);
  }
}

/**
 Whole programs: what is written is what is read back.
 */
module AckRoundTrips {
  import opened Basics
  import opened AckProgram
  import opened AckReads

  // ---------------------------------------------------------------- loco addresses

  /** getLocoId reports the decoder's address, for every decoder. */
  lemma ReadsId(b: Bench)
    ensures Reports(Exec(LOCO_READ_ID_PROG, b), IdOf(b.d), b.d)
  {
    hide Exec, READ_LONG_ID, READ_SHORT_ID, LongIdOf, ShortIdOf, BitOf;
    var tail := [SKIPTARGET] + READ_SHORT_ID;
    var code := READ_LONG_ID + tail;
    IdShape(READ_LONG_ID, READ_SHORT_ID);
    Plain(BASELINE, [SETCV, 29] + ([SETBIT, 5] + ([V0, WACK] + ([ITSKIP] + code))), b);
    SetOp(SETCV, 29, [SETBIT, 5] + ([V0, WACK] + ([ITSKIP] + code)), b);
    var b1 := b.(regs := b.regs.(cv := 29));
    SetOp(SETBIT, 5, [V0, WACK] + ([ITSKIP] + code), b1);
    var b2 := b1.(regs := b1.regs.(bit := 5));
    Ask(V0, [ITSKIP] + code, b2);
    var b3 := Asked(V0, b2);
    NoTargets();
    Skips(ITSKIP, READ_LONG_ID, READ_SHORT_ID, b3);
    ReadsShortId(b3);
    ReadsLongId(tail, b3);
  }

  lemma IdShape(long: seq<Byte>, short: seq<Byte>)
    ensures [BASELINE, SETCV, 29, SETBIT, 5, V0, WACK, ITSKIP] + long + [SKIPTARGET] + short ==
            [BASELINE] + ([SETCV, 29] + ([SETBIT, 5] + ([V0, WACK] + ([ITSKIP] + (long + ([SKIPTARGET] + short))))))
  {
    var a := [BASELINE, SETCV, 29, SETBIT, 5, V0, WACK, ITSKIP];
    var e := long + ([SKIPTARGET] + short);
    assert a + e == [BASELINE] + ([SETCV, 29] + ([SETBIT, 5] + ([V0, WACK] + ([ITSKIP] + e))));
    assert a + long + [SKIPTARGET] + short == a + e;
  }

  lemma NoTargets()
    ensures SKIPTARGET !in MERGE_7 && SKIPTARGET !in MERGE_BYTE
    ensures SKIPTARGET !in READ_LONG_ID && SKIPTARGET !in READ_1920
  {
    hide MERGE_BYTE, MERGE_7;
    NoTargetInMerge();
    Joined([SETCV, 17, STARTMERGE], MERGE_BYTE);
    assert SKIPTARGET !in [SETCV, 17, STARTMERGE] + MERGE_BYTE;
    assert SKIPTARGET !in [SETCV, 17, STARTMERGE] + MERGE_BYTE +
           [VB, WACK, NAKFAIL, STASHLOCOID, SETCV, 18, STARTMERGE];
  }

  lemma NoTargetInMerge()
    ensures SKIPTARGET !in MERGE_7 && SKIPTARGET !in MERGE_BYTE
  {
    assert MERGE_BYTE == MERGE_7 + [V0, WACK, MERGE];
  }

  lemma Joined(a: seq<Byte>, b: seq<Byte>)
    ensures SKIPTARGET in a + b <==> SKIPTARGET in a || SKIPTARGET in b
  {
  }

  /** The word setLocoId hands to the long-address program. */
  function LongWord(id: int): int {
    0xC000 + id
  }

  /** CVs 19 and 20, where supported, say: no consist. */
  function Cleared(d: Decoder): Decoder {
    d.(cvs := map cv | cv in d.cvs :: if cv == 19 || cv == 20 then 0 else d.cvs[cv])
  }

  lemma ClearsConsist(rest: seq<Byte>, b: Bench) returns (b': Bench)
    ensures Exec(CLEAR_CONSIST + rest, b) == Exec(rest, b')
    ensures b'.d == Cleared(b.d) && b'.regs.word == b.regs.word
  {
    hide Exec;
    assert CLEAR_CONSIST + rest == [SETCV, 20] +
           ([SETBYTE, 0] + ([WB, WACK] + ([SETCV, 19] + ([SETBYTE, 0] + ([WB, WACK] + rest)))));
    SetOp(SETCV, 20, [SETBYTE, 0] + ([WB, WACK] + ([SETCV, 19] + ([SETBYTE, 0] + ([WB, WACK] + rest)))), b);
    var b1 := b.(regs := b.regs.(cv := 20));
    SetOp(SETBYTE, 0, [WB, WACK] + ([SETCV, 19] + ([SETBYTE, 0] + ([WB, WACK] + rest))), b1);
    var b2 := b1.(regs := b1.regs.(byte := 0));
    Ask(WB, [SETCV, 19] + ([SETBYTE, 0] + ([WB, WACK] + rest)), b2);
    var b3 := Asked(WB, b2);
    SetOp(SETCV, 19, [SETBYTE, 0] + ([WB, WACK] + rest), b3);
    var b4 := b3.(regs := b3.regs.(cv := 19));
    SetOp(SETBYTE, 0, [WB, WACK] + rest, b4);
    var b5 := b4.(regs := b4.regs.(byte := 0));
    Ask(WB, rest, b5);
    b' := Asked(WB, b5);
    assert b'.d.cvs == Cleared(b.d).cvs;
  }

  /** A supported CV takes the value; an unsupported one ignores it. */
  function Written(d: Decoder, cv: int, v: Byte): Decoder {
    if Has(d, cv) then d.(cvs := d.cvs[cv := v]) else d
  }

  /** CV 29 with the long-address bit as given. */
  function Flagged(d: Decoder, long: bool): Decoder {
    if Has(d, 29) then d.(cvs := d.cvs[29 := WithBit(d.cvs[29], 5, long)]) else d
  }

  lemma WithBitSets(v: Byte, i: nat, on: bool)
    requires i < 8
    ensures BitOf(WithBit(v, i, on), i) == on
  {
    hide Pow2;
    BitsAreSmall(v, i);
    var p := Pow2(i);
    if on && !BitOf(v, i) { DivMore(v, p, 1); }
    if !on && BitOf(v, i) { DivMore(v - p, p, 1); }
  }

  const STORE: seq<Byte> := [WB, WACK, ITC1, VB, WACK, ITC1, CALLFAIL]

  /** Write a byte; when the write is not acknowledged, verify it; report 1, or -1. */
  lemma Stores(b: Bench)
    ensures Reports(Exec(STORE, b), if Has(b.d, b.regs.cv) then 1 else -1, Written(b.d, b.regs.cv, b.regs.byte))
  {
    hide Exec;
    var last := [ITC1] + ([CALLFAIL] + []);
    assert STORE == [WB, WACK] + ([ITC1] + ([VB, WACK] + last));
    Ask(WB, [ITC1] + ([VB, WACK] + last), b);
    var b1 := Asked(WB, b);
    Test(ITC1, [VB, WACK] + last, b1);
    Ask(VB, last, b1);
    var b2 := Asked(VB, b1);
    Test(ITC1, [CALLFAIL] + [], b2);
    Test(CALLFAIL, [], b2);
    assert Has(b.d, b.regs.cv) ==> b2.d == Written(b.d, b.regs.cv, b.regs.byte);
  }

  /** The low or high byte of the word goes to a CV. */
  lemma StoresWord(cv: Byte, op: Byte, b: Bench)
    requires op == SETBYTEL || op == SETBYTEH
    ensures var v: Byte := if op == SETBYTEL then b.regs.word % 256 else (b.regs.word / 256) % 256;
            Reports(Exec([SETCV, cv] + ([op] + STORE), b), if Has(b.d, cv) then 1 else -1, Written(b.d, cv, v))
  {
    hide Exec, STORE;
    SetOp(SETCV, cv, [op] + STORE, b);
    var b1 := b.(regs := b.regs.(cv := cv));
    Plain(op, STORE, b1);
    Stores(b1.(regs := b1.regs.(byte := if op == SETBYTEL then b.regs.word % 256 else (b.regs.word / 256) % 256)));
  }

  const SET_FLAG_0: seq<Byte> := [SETCV, 29, SETBIT, 5, W0, WACK, V0, WACK, NAKFAIL]
  const SET_FLAG_1: seq<Byte> := [SETCV, 29, SETBIT, 5, W1, WACK, V1, WACK, NAKFAIL]

  /** Write the long-address bit and verify it; give up if CV 29 does not answer. */
  lemma SetsFlag(long: bool, rest: seq<Byte>, b: Bench) returns (b': Bench)
    ensures var code := (if long then SET_FLAG_1 else SET_FLAG_0) + rest;
            if Has(b.d, 29) then Exec(code, b) == Exec(rest, b') else Reports(Exec(code, b), -1, b.d)
    ensures b'.d == Flagged(b.d, long) && b'.regs.word == b.regs.word
  {
    hide Exec, BitOf, WithBit;
    var w, v := if long then W1 else W0, if long then V1 else V0;
    assert (if long then SET_FLAG_1 else SET_FLAG_0) + rest ==
           [SETCV, 29] + ([SETBIT, 5] + ([w, WACK] + ([v, WACK] + ([NAKFAIL] + rest))));
    SetOp(SETCV, 29, [SETBIT, 5] + ([w, WACK] + ([v, WACK] + ([NAKFAIL] + rest))), b);
    var b1 := b.(regs := b.regs.(cv := 29));
    SetOp(SETBIT, 5, [w, WACK] + ([v, WACK] + ([NAKFAIL] + rest)), b1);
    var b2 := b1.(regs := b1.regs.(bit := 5));
    Ask(w, [v, WACK] + ([NAKFAIL] + rest), b2);
    var b3 := Asked(w, b2);
    Ask(v, [NAKFAIL] + rest, b3);
    b' := Asked(v, b3);
    Test(NAKFAIL, rest, b');
    if Has(b.d, 29) { WithBitSets(b.d.cvs[29], 5, long); }
  }

  /** setLocoId, short form: what it reports and leaves behind, on every decoder. */
  lemma SetsShortId(b: Bench)
    ensures var d := Flagged(Cleared(b.d), false);
            Reports(Exec(SHORT_LOCO_ID_PROG, b), if Has(b.d, 29) && Has(b.d, 1) then 1 else -1,
                    if Has(b.d, 29) then Written(d, 1, b.regs.word % 256) else d)
  {
    hide Exec, CLEAR_CONSIST, BitOf, WithBit;
    ShortSetShape(CLEAR_CONSIST);
    var tail := [SETCV, 1] + ([SETBYTEL] + STORE);
    Plain(BASELINE, CLEAR_CONSIST + (SET_FLAG_0 + tail), b);
    var b1 := ClearsConsist(SET_FLAG_0 + tail, b);
    var b2 := SetsFlag(false, tail, b1);
    StoresWord(1, SETBYTEL, b2);
  }

  lemma ShortSetShape(c: seq<Byte>)
    ensures [BASELINE] + c + [SETCV, 29, SETBIT, 5, W0, WACK, V0, WACK, NAKFAIL, SETCV, 1, SETBYTEL, WB, WACK, ITC1, VB,
                              WACK, ITC1, CALLFAIL]
         == [BASELINE] + (c + (SET_FLAG_0 + ([SETCV, 1] + ([SETBYTEL] + STORE))))
  {
    assert [SETCV, 29, SETBIT, 5, W0, WACK, V0, WACK, NAKFAIL, SETCV, 1, SETBYTEL, WB, WACK, ITC1, VB, WACK, ITC1,
           CALLFAIL]
        == SET_FLAG_0 + ([SETCV, 1] + ([SETBYTEL] + STORE));
  }

  const STORE_17: seq<Byte> := [SETCV, 17, SETBYTEH, WB, WACK, ITSKIP, VB, WACK, ITSKIP, CALLFAIL, SKIPTARGET]

  /** The high byte goes to CV 17, or the program gives up. */
  lemma Stores17(rest: seq<Byte>, b: Bench) returns (b': Bench)
    ensures if Has(b.d, 17) then Exec(STORE_17 + rest, b) == Exec(rest, b')
            else Reports(Exec(STORE_17 + rest, b), -1, b.d)
    ensures b'.d == Written(b.d, 17, (b.regs.word / 256) % 256) && b'.regs.word == b.regs.word
  {
    hide Exec;
    var end := [SKIPTARGET] + rest;
    var fail := [CALLFAIL] + end;
    var retry := [VB, WACK] + ([ITSKIP] + fail);
    assert STORE_17 + rest == [SETCV, 17] + ([SETBYTEH] + ([WB, WACK] + ([ITSKIP] + retry)));
    SetOp(SETCV, 17, [SETBYTEH] + ([WB, WACK] + ([ITSKIP] + retry)), b);
    var b1 := b.(regs := b.regs.(cv := 17));
    Plain(SETBYTEH, [WB, WACK] + ([ITSKIP] + retry), b1);
    var b2 := b1.(regs := b1.regs.(byte := (b.regs.word / 256) % 256));
    Ask(WB, [ITSKIP] + retry, b2);
    b' := Asked(WB, b2);
    assert retry == [VB, WACK, ITSKIP, CALLFAIL] + end;
    Skips(ITSKIP, [VB, WACK, ITSKIP, CALLFAIL], rest, b');
    if !b'.regs.ack {
      Ask(VB, [ITSKIP] + fail, b');
      var b3 := Asked(VB, b');
      Skips(ITSKIP, [CALLFAIL], rest, b3);
      Test(CALLFAIL, end, b3);
      b' := b3;
    }
  }

  /** setLocoId, long form. */
  lemma SetsLongId(b: Bench)
    ensures var d := Flagged(Cleared(b.d), true);
            var d' := if Has(d, 29) then Written(d, 17, (b.regs.word / 256) % 256) else d;
            Reports(Exec(LONG_LOCO_ID_PROG, b), if Has(d, 29) && Has(d, 17) && Has(d, 18) then 1 else -1,
                    if Has(d, 29) && Has(d, 17) then Written(d', 18, b.regs.word % 256) else d')
  {
    hide Exec, CLEAR_CONSIST, BitOf, WithBit;
    LongSetShape(CLEAR_CONSIST);
    var last := [SETCV, 18] + ([SETBYTEL] + STORE);
    Plain(BASELINE, CLEAR_CONSIST + (SET_FLAG_1 + (STORE_17 + last)), b);
    var b1 := ClearsConsist(SET_FLAG_1 + (STORE_17 + last), b);
    var b2 := SetsFlag(true, STORE_17 + last, b1);
    var b3 := Stores17(last, b2);
    StoresWord(18, SETBYTEL, b3);
  }

  lemma LongSetShape(c: seq<Byte>)
    ensures [BASELINE] + c + [SETCV, 29, SETBIT, 5, W1, WACK, V1, WACK, NAKFAIL]
            + [SETCV, 17, SETBYTEH, WB, WACK, ITSKIP, VB, WACK, ITSKIP, CALLFAIL, SKIPTARGET]
            + [SETCV, 18, SETBYTEL, WB, WACK, ITC1, VB, WACK, ITC1, CALLFAIL]
         == [BASELINE] + (c + (SET_FLAG_1 + (STORE_17 + ([SETCV, 18] + ([SETBYTEL] + STORE)))))
  {
    assert [SETCV, 18, SETBYTEL, WB, WACK, ITC1, VB, WACK, ITC1, CALLFAIL] == [SETCV, 18] + ([SETBYTEL] + STORE);
  }

  /** The program and word setLocoId chooses. */
  function SetIdProg(id: int): seq<Byte> {
    if id <= 127 then SHORT_LOCO_ID_PROG else LONG_LOCO_ID_PROG
  }

  function SetIdWord(id: int): int {
    if id <= 127 then id else LongWord(id)
  }

  /** What getLocoId is expected to give back: long addresses carry the marker. */
  function Shown(id: int): int {
    if id <= 127 then id else id + 0x4000
  }

  predicate CanSetId(d: Decoder, id: int) {
    Has(d, 29) && if id <= 127 then Has(d, 1) else Has(d, 17) && Has(d, 18)
  }

  /** setLocoId(id) reports success exactly on decoders with the CVs it needs, whether or not they
      acknowledge writes, and then getLocoId gives the id back. */
  lemma SetThenGetLocoId(id: int, set0: Bench, get0: Bench)
    requires 1 <= id <= 10239 && set0.regs.word == SetIdWord(id)
    requires Exec(SetIdProg(id), set0).Result? ==> get0.d == Exec(SetIdProg(id), set0).d
    ensures var r := Exec(SetIdProg(id), set0);
            r.Result? && r.value == (if CanSetId(set0.d, id) then 1 else -1)
            && (CanSetId(set0.d, id) ==> Reports(Exec(LOCO_READ_ID_PROG, get0), Shown(id), r.d))
  {
    hide Exec, SHORT_LOCO_ID_PROG, LONG_LOCO_ID_PROG, LOCO_READ_ID_PROG, BitOf, WithBit;
    SetsShortId(set0);
    SetsLongId(set0);
    ReadsId(get0);
    if Has(set0.d, 29) {
      WithBitSets(Cleared(set0.d).cvs[29], 5, id > 127);
      if id > 127 { LongBytes(id); }
    }
  }

  lemma LongBytes(id: int)
    requires 128 <= id <= 10239
    ensures var w := LongWord(id);
            var high: int, low: int := (w / 256) % 256, w % 256;
            Marked(low + (high - 192) * 256) == id + 0x4000
  {
  }
}

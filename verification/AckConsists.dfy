/**
 Consist addresses: CVs 19 and 20, written and read back, and the drive-away read that prefers
 them to the loco's own address.
 */
module AckConsists {
  import opened Basics
  import opened AckProgram
  import opened AckReads
  import opened AckRoundTrips

  /** The decoder has an extended consist address; CV 20 above 120 is not believed. */
  predicate Extended(d: Decoder) {
    Has(d, 20) && 0 < d.cvs[20] <= 120
  }

  function ExtendedOf(d: Decoder): int
    requires Has(d, 20)
  {
    if Has(d, 19) then d.cvs[20] as int * 100 + (d.cvs[19] % 128) % 100 else -1
  }

  /** The consist address: 0 for none, the last two digits in CV 19 and the rest in CV 20. */
  function ConsistOf(d: Decoder): int {
    if Extended(d) then ExtendedOf(d) else if Has(d, 19) then d.cvs[19] % 128 else -1
  }

  /** The address to drive away with: the consist's if there is one, else the loco's own. */
  function DriveOf(d: Decoder): int {
    if Extended(d) then ExtendedOf(d)
    else if Has(d, 19) && d.cvs[19] % 128 != 0 then d.cvs[19] % 128
    else IdOf(d)
  }

  /** Once CV 20 is read and verified: believe it and read CV 19, or skip to what follows. */
  const REST_1920: seq<Byte> := [BAD20SKIP] + STASH_19
  const STASH_19: seq<Byte> := [STASHLOCOID, SETCV, 19, STARTMERGE] + MERGE_BYTE + [VB, WACK, NAKFAIL, COMBINE1920]

  lemma Shape1920(m: seq<Byte>, second: seq<Byte>)
    ensures var stash := [STASHLOCOID, SETCV, 19, STARTMERGE] + m + [VB, WACK, NAKFAIL, COMBINE1920];
            [STARTMERGE] + m + [VB, WACK, NAKSKIP, BAD20SKIP, STASHLOCOID, SETCV, 19, STARTMERGE] + m
            + [VB, WACK, NAKFAIL, COMBINE1920] + ([SKIPTARGET] + second) ==
            [STARTMERGE] + (m + ([VB, WACK] + ([NAKSKIP] + (([BAD20SKIP] + stash) + ([SKIPTARGET] + second)))))
  {
    var c := [VB, WACK, NAKSKIP, BAD20SKIP, STASHLOCOID, SETCV, 19, STARTMERGE];
    var e := [VB, WACK, NAKFAIL, COMBINE1920];
    var t := [SKIPTARGET] + second;
    assert c + (m + (e + t)) == [VB, WACK] +
           ([NAKSKIP] + (([BAD20SKIP] + ([STASHLOCOID, SETCV, 19, STARTMERGE] + m + e)) + t));
    assert [STARTMERGE] + m + c + m + e + t == [STARTMERGE] + (m + (c + (m + (e + t))));
  }

  lemma ShapeStash(m: seq<Byte>, t: seq<Byte>)
    ensures [STASHLOCOID, SETCV, 19, STARTMERGE] + m + [VB, WACK, NAKFAIL, COMBINE1920] + t
         == [STASHLOCOID] + ([SETCV, 19] + ([STARTMERGE] + (m + ([VB, WACK] + ([NAKFAIL] + ([COMBINE1920] + t))))))
  {
    var e := [VB, WACK, NAKFAIL, COMBINE1920] + t;
    assert e == [VB, WACK] + ([NAKFAIL] + ([COMBINE1920] + t));
    assert [STASHLOCOID, SETCV, 19, STARTMERGE] + m + [VB, WACK, NAKFAIL, COMBINE1920] + t
        == [STASHLOCOID, SETCV, 19, STARTMERGE] + (m + e);
  }

  lemma NoTargetInRest()
    ensures SKIPTARGET !in REST_1920 && SKIPTARGET !in STASH_19
  {
    hide MERGE_BYTE, MERGE_7;
    NoTargetInMerge();
    assert SKIPTARGET !in [STASHLOCOID, SETCV, 19, STARTMERGE] + MERGE_BYTE;
  }

  /** With CV 20 in hand: stash it, read CV 19 and combine the two. */
  lemma Combines(t: seq<Byte>, b: Bench)
    ensures var r := Exec(STASH_19 + t, b);
            r.Result? && r.d == b.d
            && r.value == if Has(b.d, 19) then b.regs.byte as int * 100 + (b.d.cvs[19] % 128) % 100 else -1
  {
    hide Exec, MERGE_BYTE;
    ShapeStash(MERGE_BYTE, t);
    var back := [NAKFAIL] + ([COMBINE1920] + t);
    Plain(STASHLOCOID, [SETCV, 19] + ([STARTMERGE] + (MERGE_BYTE + ([VB, WACK] + back))), b);
    var b1 := b.(regs := b.regs.(stash := b.regs.byte));
    SetOp(SETCV, 19, [STARTMERGE] + (MERGE_BYTE + ([VB, WACK] + back)), b1);
    var b2 := ReadByte(back, b1.(regs := b1.regs.(cv := 19)));
    Test(NAKFAIL, [COMBINE1920] + t, b2);
    Combine1920(t, b2);
  }

  lemma Combine1920(t: seq<Byte>, b: Bench)
    ensures var r := Exec([COMBINE1920] + t, b);
            r.Result? && r.d == b.d && r.value == b.regs.stash as int * 100 + (b.regs.byte % 128) % 100
  {
    hide AfterTarget, Answer;
    Front(COMBINE1920, t);
  }

  lemma ReadsExtended(second: seq<Byte>, b: Bench) returns (b': Bench)
    ensures var code := [BASELINE, SETCV, 20, SETBYTE, 0, VB, WACK, ITSKIP] + (READ_1920 + ([SKIPTARGET] + second));
            if Extended(b.d) then Reports(Exec(code, b), ExtendedOf(b.d), b.d) else Exec(code, b) == Exec(second, b')
    ensures b'.d == b.d
  {
    hide Exec, READ_1920, REST_1920, STASH_19, MERGE_BYTE;
    var ext := READ_1920 + ([SKIPTARGET] + second);
    assert [BASELINE, SETCV, 20, SETBYTE, 0, VB, WACK, ITSKIP] + ext ==
           [BASELINE] + ([SETCV, 20] + ([SETBYTE, 0] + ([VB, WACK] + ([ITSKIP] + ext))));
    Plain(BASELINE, [SETCV, 20] + ([SETBYTE, 0] + ([VB, WACK] + ([ITSKIP] + ext))), b);
    SetOp(SETCV, 20, [SETBYTE, 0] + ([VB, WACK] + ([ITSKIP] + ext)), b);
    var b1 := b.(regs := b.regs.(cv := 20));
    SetOp(SETBYTE, 0, [VB, WACK] + ([ITSKIP] + ext), b1);
    var b2 := b1.(regs := b1.regs.(byte := 0));
    Ask(VB, [ITSKIP] + ext, b2);
    var b3 := Asked(VB, b2);
    NoTargets();
    Skips(ITSKIP, READ_1920, second, b3);
    b' := b3;
    if !b3.regs.ack { b' := ReadsNonzero20(second, b3); }
  }

  lemma ReadsNonzero20(second: seq<Byte>, b: Bench) returns (b': Bench)
    requires b.regs.cv == 20
    ensures var code := READ_1920 + ([SKIPTARGET] + second);
            if Has(b.d, 20) && b.d.cvs[20] <= 120 then Reports(Exec(code, b), ExtendedOf(b.d), b.d)
            else Exec(code, b) == Exec(second, b')
    ensures b'.d == b.d
  {
    hide Exec, MERGE_BYTE, STASH_19;
    var t := [SKIPTARGET] + second;
    Shape1920Of(second);
    b' := ReadByte([NAKSKIP] + (REST_1920 + t), b);
    NoTargetInRest();
    Skips(NAKSKIP, REST_1920, second, b');
    if b'.regs.ack {
      Assoc([BAD20SKIP], STASH_19, t);
      Skips(BAD20SKIP, STASH_19, second, b');
      Combines(t, b');
    }
  }

  lemma Shape1920Of(second: seq<Byte>)
    ensures READ_1920 + ([SKIPTARGET] + second)
         == [STARTMERGE] + (MERGE_BYTE + ([VB, WACK] + ([NAKSKIP] + (REST_1920 + ([SKIPTARGET] + second)))))
  {
    hide MERGE_BYTE;
    Shape1920(MERGE_BYTE, second);
  }

  // ---------------------------------------------------------------- the consist programs

  const SECOND_CONSIST: seq<Byte> :=
    [SETCV, 19, SETBYTE, 0, VB, WACK, ITC0, SETBYTE, 128, VB, WACK, ITC0, STARTMERGE] + MERGE_BYTE
    + [VB, WACK, ITCB7, CALLFAIL]

  lemma ReadsSecond(b: Bench)
    ensures Reports(Exec(SECOND_CONSIST, b), if Has(b.d, 19) then b.d.cvs[19] % 128 else -1, b.d)
  {
    hide Exec, MERGE_BYTE;
    var end := [ITCB7] + ([CALLFAIL] + []);
    var read := [STARTMERGE] + (MERGE_BYTE + ([VB, WACK] + end));
    var try128 := [SETBYTE, 128] + ([VB, WACK] + ([ITC0] + read));
    SecondShape(MERGE_BYTE);
    SetOp(SETCV, 19, [SETBYTE, 0] + ([VB, WACK] + ([ITC0] + try128)), b);
    var b1 := b.(regs := b.regs.(cv := 19));
    SetOp(SETBYTE, 0, [VB, WACK] + ([ITC0] + try128), b1);
    var b2 := b1.(regs := b1.regs.(byte := 0));
    Ask(VB, [ITC0] + try128, b2);
    var b3 := Asked(VB, b2);
    Test(ITC0, try128, b3);
    if !b3.regs.ack {
      SetOp(SETBYTE, 128, [VB, WACK] + ([ITC0] + read), b3);
      var b4 := b3.(regs := b3.regs.(byte := 128));
      Ask(VB, [ITC0] + read, b4);
      var b5 := Asked(VB, b4);
      Test(ITC0, read, b5);
      if !b5.regs.ack {
        var b6 := ReadByte(end, b5);
        Test(ITCB7, [CALLFAIL] + [], b6);
        Test(CALLFAIL, [], b6);
      }
    }
  }

  lemma SecondShape(m: seq<Byte>)
    ensures [SETCV, 19, SETBYTE, 0, VB, WACK, ITC0, SETBYTE, 128, VB, WACK, ITC0, STARTMERGE] + m +
            [VB, WACK, ITCB7, CALLFAIL]
         == [SETCV, 19] + ([SETBYTE, 0] + ([VB, WACK] + ([ITC0] + ([SETBYTE, 128] + ([VB, WACK] + ([ITC0]
            + ([STARTMERGE] + (m + ([VB, WACK] + ([ITCB7] + ([CALLFAIL] + [])))))))))))
  {
    var e := [VB, WACK, ITCB7, CALLFAIL];
    assert e == [VB, WACK] + ([ITCB7] + ([CALLFAIL] + []));
    var r := [STARTMERGE] + (m + e);
    var a := [SETCV, 19, SETBYTE, 0, VB, WACK, ITC0, SETBYTE, 128, VB, WACK, ITC0];
    assert a + r == [SETCV, 19] +
           ([SETBYTE, 0] + ([VB, WACK] + ([ITC0] + ([SETBYTE, 128] + ([VB, WACK] + ([ITC0] + r))))));
    assert [SETCV, 19, SETBYTE, 0, VB, WACK, ITC0, SETBYTE, 128, VB, WACK, ITC0, STARTMERGE] + m + e == a + r;
  }

  /** getConsistId reports the decoder's consist address, for every decoder. */
  lemma ReadsConsist(b: Bench)
    ensures Reports(Exec(LOCO_READ_CONSIST_PROG, b), ConsistOf(b.d), b.d)
  {
    hide Exec, READ_1920, SECOND_CONSIST, LOCO_READ_CONSIST_PROG;
    ConsistIs();
    var b' := ReadsExtended(SECOND_CONSIST, b);
    ReadsSecond(b');
  }

  lemma ConsistIs()
    ensures LOCO_READ_CONSIST_PROG ==
            [BASELINE, SETCV, 20, SETBYTE, 0, VB, WACK, ITSKIP] + (READ_1920 + ([SKIPTARGET] + SECOND_CONSIST))
  {
    hide READ_1920, MERGE_BYTE;
    ConsistShape(READ_1920, MERGE_BYTE);
  }

  lemma ConsistShape(x: seq<Byte>, m: seq<Byte>)
    ensures [BASELINE, SETCV, 20, SETBYTE, 0, VB, WACK, ITSKIP] + x + [SKIPTARGET]
            + [SETCV, 19, SETBYTE, 0, VB, WACK, ITC0, SETBYTE, 128, VB, WACK, ITC0, STARTMERGE] + m
            + [VB, WACK, ITCB7, CALLFAIL]
         == [BASELINE, SETCV, 20, SETBYTE, 0, VB, WACK, ITSKIP] + (x + ([SKIPTARGET] +
            ([SETCV, 19, SETBYTE, 0, VB, WACK, ITC0, SETBYTE, 128, VB, WACK, ITC0, STARTMERGE] + m +
                [VB, WACK, ITCB7, CALLFAIL])))
  {
  }

  /** setConsistId: what it reports and leaves behind. A non-zero CV 20 has to be acknowledged. */
  lemma SetsConsist(b: Bench)
    ensures var high: Byte, low: Byte := (b.regs.word / 256) % 256, b.regs.word % 256;
            var d := Written(b.d, 20, high);
            Reports(Exec(CONSIST_ID_PROG, b),
                    if high != 0 && !(Has(b.d, 20) && b.d.acksWrites) then -4 else if Has(b.d, 19) then 1 else -1,
                    if high != 0 && !(Has(b.d, 20) && b.d.acksWrites) then d else Written(d, 19, low))
  {
    hide Exec;
    var last := [SETCV, 19] + ([SETBYTEL] + STORE);
    assert CONSIST_ID_PROG == [BASELINE] +
           ([SETCV, 20] + ([SETBYTEH] + ([WB, WACK] + ([ITSKIP] + ([FAIL_IF_NONZERO_NAK] + ([SKIPTARGET] + last))))));
    var skip := [ITSKIP] + ([FAIL_IF_NONZERO_NAK] + ([SKIPTARGET] + last));
    Plain(BASELINE, [SETCV, 20] + ([SETBYTEH] + ([WB, WACK] + skip)), b);
    SetOp(SETCV, 20, [SETBYTEH] + ([WB, WACK] + skip), b);
    var b1 := b.(regs := b.regs.(cv := 20));
    Plain(SETBYTEH, [WB, WACK] + skip, b1);
    var b2 := b1.(regs := b1.regs.(byte := (b.regs.word / 256) % 256));
    Ask(WB, skip, b2);
    var b3 := Asked(WB, b2);
    Skips(ITSKIP, [FAIL_IF_NONZERO_NAK], last, b3);
    if !b3.regs.ack {
      Test(FAIL_IF_NONZERO_NAK, [SKIPTARGET] + last, b3);
      if b3.regs.byte == 0 { Plain(SKIPTARGET, last, b3); }
    }
    StoresWord(19, SETBYTEL, b3);
  }

  /** The word setConsistId makes of an id and a direction. */
  function ConsistWord(id: int, reverse: bool): int {
    var cv20, cv19 := if id <= 127 then 0 else id / 100, if id <= 127 then id else id % 100;
    cv20 * 256 + cv19 + if reverse then 128 else 0
  }

  lemma ConsistBytes(id: int, reverse: bool)
    requires 0 <= id <= 10239
    ensures var w := ConsistWord(id, reverse);
            var high, low := (w / 256) % 256, w % 256;
            && (high == 0 <==> id <= 127) && high <= 102
            && (id <= 127 ==> low % 128 == id)
            && (id > 127 ==> high * 100 + (low % 128) % 100 == id)
            && (low >= 128 <==> reverse)
  {
    var flag := if reverse then 128 else 0;
    if id <= 127 {
      LowAndHigh(0, id + flag);
    } else {
      LowAndHigh(id / 100, id % 100 + flag);
    }
  }

  lemma LowAndHigh(high: Byte, low: Byte)
    ensures var w := high * 256 + low;
            w / 256 == high && w % 256 == low
  {
  }

  /** setConsistId succeeds exactly where it can, and then getConsistId gives the id back, reversed
      or not, and the direction is the top bit of CV 19; ids above 127 need a decoder that acknowledges
      the write of CV 20, the rest do not. */
  lemma SetThenGetConsistId(id: int, reverse: bool, set0: Bench, get0: Bench)
    requires 0 <= id <= 10239 && set0.regs.word == ConsistWord(id, reverse)
    requires Exec(CONSIST_ID_PROG, set0).Result? ==> get0.d == Exec(CONSIST_ID_PROG, set0).d
    ensures var d, r := set0.d, Exec(CONSIST_ID_PROG, set0);
            && r.Result?
            && (r.value == 1 <==> Has(d, 19) && (id > 127 ==> Has(d, 20) && d.acksWrites))
            && (r.value == 1 ==> Reports(Exec(LOCO_READ_CONSIST_PROG, get0), id, r.d)
                                 && Has(r.d, 19) && (r.d.cvs[19] >= 128 <==> reverse))
  {
    hide Exec, CONSIST_ID_PROG, LOCO_READ_CONSIST_PROG, ConsistWord;
    SetsConsist(set0);
    ReadsConsist(get0);
    ConsistBytes(id, reverse);
  }

  // ---------------------------------------------------------------- driving away

  const SECOND_DRIVE: seq<Byte> :=
    [SETCV, 19, SETBYTE, 0, VB, WACK, ITSKIP, SETBYTE, 128, VB, WACK, ITSKIP, STARTMERGE] + MERGE_BYTE +
        [VB, WACK, ITCB7]

  const THIRD_DRIVE: seq<Byte> :=
    [SETCV, 29, SETBIT, 5, V0, WACK, ITSKIP] + READ_LONG_ID + [SKIPTARGET] + READ_SHORT_ID

  /** The tail both id reads share. */
  lemma ReadsThird(b: Bench)
    ensures Reports(Exec(THIRD_DRIVE, b), IdOf(b.d), b.d)
  {
    hide Exec, READ_LONG_ID, READ_SHORT_ID, IdOf, LOCO_READ_ID_PROG;
    ReadsId(b);
    ThirdShape(READ_LONG_ID, READ_SHORT_ID);
    Plain(BASELINE, THIRD_DRIVE, b);
    assert LOCO_READ_ID_PROG == [BASELINE] + THIRD_DRIVE by { ReadIdIs(); }
  }

  lemma ThirdShape(long: seq<Byte>, short: seq<Byte>)
    ensures [BASELINE, SETCV, 29, SETBIT, 5, V0, WACK, ITSKIP] + long + [SKIPTARGET] + short
         == [BASELINE] + ([SETCV, 29, SETBIT, 5, V0, WACK, ITSKIP] + long + [SKIPTARGET] + short)
  {
  }

  lemma ReadIdIs()
    ensures LOCO_READ_ID_PROG == [BASELINE] + THIRD_DRIVE
  {
    hide READ_LONG_ID, READ_SHORT_ID;
    ThirdShape(READ_LONG_ID, READ_SHORT_ID);
  }

  lemma DriveSecond(b: Bench)
    ensures Reports(Exec(SECOND_DRIVE + ([SKIPTARGET] + THIRD_DRIVE), b),
                    if Has(b.d, 19) && b.d.cvs[19] % 128 != 0 then b.d.cvs[19] % 128 else IdOf(b.d), b.d)
  {
    hide Exec, MERGE_BYTE, MERGE_7, THIRD_DRIVE, IdOf;
    var t := [SKIPTARGET] + THIRD_DRIVE;
    var front2 := [STARTMERGE] + MERGE_BYTE + [VB, WACK, ITCB7];
    var front1 := [SETBYTE, 128, VB, WACK, ITSKIP] + front2;
    DriveShape(MERGE_BYTE, t);
    NoTargetInMerge();
    assert SKIPTARGET !in front2 && SKIPTARGET !in front1;
    SetOp(SETCV, 19, [SETBYTE, 0] + ([VB, WACK] + ([ITSKIP] + (front1 + t))), b);
    var b1 := b.(regs := b.regs.(cv := 19));
    SetOp(SETBYTE, 0, [VB, WACK] + ([ITSKIP] + (front1 + t)), b1);
    var b2 := b1.(regs := b1.regs.(byte := 0));
    Ask(VB, [ITSKIP] + (front1 + t), b2);
    var b3 := Asked(VB, b2);
    Skips(ITSKIP, front1, THIRD_DRIVE, b3);
    if b3.regs.ack {
      ReadsThird(b3);
    } else {
      SetOp(SETBYTE, 128, [VB, WACK] + ([ITSKIP] + (front2 + t)), b3);
      var b4 := b3.(regs := b3.regs.(byte := 128));
      Ask(VB, [ITSKIP] + (front2 + t), b4);
      var b5 := Asked(VB, b4);
      Skips(ITSKIP, front2, THIRD_DRIVE, b5);
      if b5.regs.ack {
        ReadsThird(b5);
      } else {
        var b6 := ReadByte([ITCB7] + t, b5);
        Test(ITCB7, t, b6);
        if !b6.regs.ack {
          Plain(SKIPTARGET, THIRD_DRIVE, b6);
          ReadsThird(b6);
        }
      }
    }
  }

  lemma DriveShape(m: seq<Byte>, t: seq<Byte>)
    ensures var front2 := [STARTMERGE] + m + [VB, WACK, ITCB7];
            var front1 := [SETBYTE, 128, VB, WACK, ITSKIP] + front2;
            && [SETCV, 19, SETBYTE, 0, VB, WACK, ITSKIP, SETBYTE, 128, VB, WACK, ITSKIP, STARTMERGE] + m +
                 [VB, WACK, ITCB7] + t
                 == [SETCV, 19] + ([SETBYTE, 0] + ([VB, WACK] + ([ITSKIP] + (front1 + t))))
            && front1 + t == [SETBYTE, 128] + ([VB, WACK] + ([ITSKIP] + (front2 + t)))
            && front2 + t == [STARTMERGE] + (m + ([VB, WACK] + ([ITCB7] + t)))
  {
    var front2 := [STARTMERGE] + m + [VB, WACK, ITCB7];
    var front1 := [SETBYTE, 128, VB, WACK, ITSKIP] + front2;
    assert front2 + t == [STARTMERGE] + (m + ([VB, WACK] + ([ITCB7] + t)));
    assert front1 + t == [SETBYTE, 128] + ([VB, WACK] + ([ITSKIP] + (front2 + t)));
    assert [SETCV, 19, SETBYTE, 0, VB, WACK, ITSKIP, SETBYTE, 128, VB, WACK, ITSKIP, STARTMERGE] + m +
           [VB, WACK, ITCB7] + t
        == [SETCV, 19, SETBYTE, 0, VB, WACK, ITSKIP] + (front1 + t);
  }

  /** getDriveawayLocoId: the consist's address or the loco's own, for every decoder. */
  lemma ReadsDriveaway(b: Bench)
    ensures Reports(Exec(LOCO_DRIVEAWAY_PROG, b), DriveOf(b.d), b.d)
  {
    hide Exec, READ_1920, SECOND_DRIVE, THIRD_DRIVE, IdOf;
    DriveIs();
    var b' := ReadsExtended(SECOND_DRIVE + ([SKIPTARGET] + THIRD_DRIVE), b);
    DriveSecond(b');
  }

  lemma DriveIs()
    ensures LOCO_DRIVEAWAY_PROG == [BASELINE, SETCV, 20, SETBYTE, 0, VB, WACK, ITSKIP]
            + (READ_1920 + ([SKIPTARGET] + (SECOND_DRIVE + ([SKIPTARGET] + THIRD_DRIVE))))
  {
    hide READ_1920, MERGE_BYTE, READ_LONG_ID, READ_SHORT_ID;
    DriveJoin(READ_1920, MERGE_BYTE, READ_LONG_ID, READ_SHORT_ID);
  }

  lemma DriveJoin(x: seq<Byte>, m: seq<Byte>, long: seq<Byte>, short: seq<Byte>)
    ensures var a := [BASELINE, SETCV, 20, SETBYTE, 0, VB, WACK, ITSKIP];
            var c := [SETCV, 19, SETBYTE, 0, VB, WACK, ITSKIP, SETBYTE, 128, VB, WACK, ITSKIP, STARTMERGE];
            var e := [SETCV, 29, SETBIT, 5, V0, WACK, ITSKIP];
            a + x + [SKIPTARGET] + c + m + [VB, WACK, ITCB7] + [SKIPTARGET] + e + long + [SKIPTARGET] + short ==
            a + (x + ([SKIPTARGET] +
                      ((c + m + [VB, WACK, ITCB7]) + ([SKIPTARGET] + (e + long + [SKIPTARGET] + short)))))
  {
  }
}

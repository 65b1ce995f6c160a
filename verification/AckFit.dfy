/**
 The station's own programs are fit to run: each starts with BASELINE, reports before its table
 ends whatever is acked, and writes with its first packet or not at all.
 */
module AckFit {
  import opened Basics
  import opened AckProgram
  import opened AckReads
  import opened AckRoundTrips
  import opened AckConsists
  import opened AckCvReads
  import opened AckMachine
  import opened AckCalls
  import opened AckTiming

  predicate OneByte(op: Byte) {
    op != SETBIT && op != SETCV && op != SETBYTE && op != ITSKIP && op != NAKSKIP && op != BAD20SKIP
  }

  lemma {:induction false} RunOps(front: seq<Byte>, rest: seq<Byte>, k: Kind)
    requires forall i :: 0 <= i < |front| ==> OneByte(front[i]) && k.Allows(front[i])
    requires AllOps(rest, k)
    ensures AllOps(front + rest, k)
    decreases |front|
  {
    if front == [] {
      assert front + rest == rest;
    } else {
      RunOps(front[1..], rest, k);
      assert (front + rest)[1..] == front[1..] + rest;
    }
  }

  lemma PairOps(op: Byte, x: Byte, rest: seq<Byte>, k: Kind)
    requires (op == SETBIT || op == SETCV || op == SETBYTE) && AllOps(rest, k)
    ensures AllOps([op, x] + rest, k)
  {
    var code := [op, x] + rest;
    assert code[1..][1..] == rest;
  }

  lemma SkipOps(op: Byte, front: seq<Byte>, rest: seq<Byte>, k: Kind)
    requires (op == ITSKIP || op == NAKSKIP || op == BAD20SKIP) && SKIPTARGET !in front
    requires AllOps(front + ([SKIPTARGET] + rest), k) && AllOps(rest, k)
    ensures AllOps([op] + (front + ([SKIPTARGET] + rest)), k)
  {
    TargetAfter(front, rest);
    Front(op, front + ([SKIPTARGET] + rest));
  }

  lemma EndOps(front: seq<Byte>, op: Byte, rest: seq<Byte>, k: Kind)
    requires forall i :: 0 <= i < |front| ==> OneByte(front[i]) && k.Allows(front[i])
    requires op == CALLFAIL || op == COMBINELOCOID || op == COMBINE1920
    ensures AllOps(front + ([op] + rest), k)
  {
    RunOps(front, [op] + rest, k);
  }

  lemma {:induction false} WeakerKind(code: seq<Byte>, k: Kind)
    requires AllOps(code, k)
    ensures AllOps(code, Any)
    decreases |code|
  {
    var op, next := code[0], code[1..];
    if op == CALLFAIL || op == COMBINELOCOID || op == COMBINE1920 {
    } else if op == SETBIT || op == SETCV || op == SETBYTE {
      WeakerKind(next[1..], k);
    } else {
      WeakerKind(next, k);
      if op == ITSKIP || op == NAKSKIP || op == BAD20SKIP { WeakerKind(AfterTarget(next), k); }
    }
  }

  lemma {:induction false} PreludeCloses(code: seq<Byte>)
    requires Prelude(code)
    ensures Closed(code)
    decreases |code|
  {
    var op, next := code[0], code[1..];
    if op == SETBIT || op == SETCV || op == SETBYTE {
      PreludeCloses(next[1..]);
    } else if op == W0 || op == W1 || op == WB {
      WeakerKind(next, NoBaseline);
    } else {
      PreludeCloses(next);
    }
  }

  // ---------------------------------------------------------------- programs that only read

  lemma MergesRead()
    ensures forall i :: 0 <= i < |MERGE_BYTE| ==> OneByte(MERGE_BYTE[i]) && NoWrites.Allows(MERGE_BYTE[i])
    ensures forall i :: 0 <= i < |MERGE_7| ==> OneByte(MERGE_7[i]) && NoWrites.Allows(MERGE_7[i])
    ensures SKIPTARGET !in MERGE_7 && SKIPTARGET !in MERGE_BYTE
  {
    assert MERGE_7 == MERGE_BYTE[..|MERGE_7|];
  }

  lemma LongIdReads(rest: seq<Byte>)
    ensures AllOps(READ_LONG_ID + rest, NoWrites)
  {
    hide AllOps, MERGE_BYTE, MERGE_7;
    MergesRead();
    LongShape(MERGE_BYTE, rest);
    var back := MERGE_BYTE + ([VB, WACK] + ([NAKFAIL] + ([COMBINELOCOID] + rest)));
    EndOps([NAKFAIL], COMBINELOCOID, rest, NoWrites);
    ByteReads([NAKFAIL] + ([COMBINELOCOID] + rest));
    PairOps(SETCV, 18, [STARTMERGE] + back, NoWrites);
    RunOps([STASHLOCOID], [SETCV, 18] + ([STARTMERGE] + back), NoWrites);
    RunOps([NAKFAIL], [STASHLOCOID] + ([SETCV, 18] + ([STARTMERGE] + back)), NoWrites);
    ByteReads([NAKFAIL] + ([STASHLOCOID] + ([SETCV, 18] + ([STARTMERGE] + back))));
    PairOps(SETCV, 17, [STARTMERGE] +
        (MERGE_BYTE + ([VB, WACK] + ([NAKFAIL] + ([STASHLOCOID] + ([SETCV, 18] + ([STARTMERGE] + back)))))),
            NoWrites);
  }

  /** Reading and verifying one byte. */
  lemma ByteReads(rest: seq<Byte>)
    requires AllOps(rest, NoWrites)
    ensures AllOps([STARTMERGE] + (MERGE_BYTE + ([VB, WACK] + rest)), NoWrites)
  {
    hide AllOps, MERGE_BYTE, MERGE_7;
    MergesRead();
    RunOps([VB, WACK], rest, NoWrites);
    RunOps(MERGE_BYTE, [VB, WACK] + rest, NoWrites);
    RunOps([STARTMERGE], MERGE_BYTE + ([VB, WACK] + rest), NoWrites);
  }

  lemma ShortIdReads()
    ensures AllOps(READ_SHORT_ID, NoWrites)
  {
    hide AllOps, MERGE_BYTE, MERGE_7;
    MergesRead();
    ShortShape(MERGE_7);
    var back := [ITCB] + ([CALLFAIL] + []);
    EndOps([ITCB], CALLFAIL, [], NoWrites);
    RunOps([VB, WACK], back, NoWrites);
    RunOps(MERGE_7, [VB, WACK] + back, NoWrites);
    PairOps(SETBIT, 6, MERGE_7 + ([VB, WACK] + back), NoWrites);
    RunOps([STARTMERGE], [SETBIT, 6] + (MERGE_7 + ([VB, WACK] + back)), NoWrites);
    PairOps(SETCV, 1, [STARTMERGE] + ([SETBIT, 6] + (MERGE_7 + ([VB, WACK] + back))), NoWrites);
  }

  lemma ReadIdFits()
    ensures Fit(LOCO_READ_ID_PROG)
  {
    hide AllOps, READ_LONG_ID, READ_SHORT_ID, MERGE_BYTE, MERGE_7;
    IdShape(READ_LONG_ID, READ_SHORT_ID);
    ThirdReads();
    var third := [SETCV, 29] +
        ([SETBIT, 5] + ([V0, WACK] + ([ITSKIP] + (READ_LONG_ID + ([SKIPTARGET] + READ_SHORT_ID)))));
    RunOps([BASELINE], third, NoWrites);
    WeakerKind(LOCO_READ_ID_PROG, NoWrites);
  }

  /** CV 29 and the id it leads to. */
  lemma ThirdReads()
    ensures AllOps([SETCV, 29] +
            ([SETBIT, 5] + ([V0, WACK] + ([ITSKIP] + (READ_LONG_ID + ([SKIPTARGET] + READ_SHORT_ID))))), NoWrites)
  {
    hide AllOps, READ_LONG_ID, READ_SHORT_ID, MERGE_BYTE, MERGE_7;
    NoTargets();
    ShortIdReads();
    LongIdReads([SKIPTARGET] + READ_SHORT_ID);
    var code := READ_LONG_ID + ([SKIPTARGET] + READ_SHORT_ID);
    SkipOps(ITSKIP, READ_LONG_ID, READ_SHORT_ID, NoWrites);
    RunOps([V0, WACK], [ITSKIP] + code, NoWrites);
    PairOps(SETBIT, 5, [V0, WACK] + ([ITSKIP] + code), NoWrites);
    PairOps(SETCV, 29, [SETBIT, 5] + ([V0, WACK] + ([ITSKIP] + code)), NoWrites);
  }

  /** CVs 20 and 19, with the two skips past them. */
  lemma ExtendedReads(second: seq<Byte>)
    requires AllOps(second, NoWrites)
    ensures AllOps([BASELINE, SETCV, 20, SETBYTE, 0, VB, WACK, ITSKIP] + (READ_1920 + ([SKIPTARGET] + second)),
            NoWrites)
  {
    hide AllOps, READ_1920, REST_1920, STASH_19, MERGE_BYTE, MERGE_7;
    var t := [SKIPTARGET] + second;
    RunOps([SKIPTARGET], second, NoWrites);
    StashReads(t);
    NoTargets();
    NoTargetInRest();
    SkipOps(BAD20SKIP, STASH_19, second, NoWrites);
    RestIs(t);
    SkipOps(NAKSKIP, REST_1920, second, NoWrites);
    ByteReads([NAKSKIP] + (REST_1920 + t));
    Shape1920Of(second);
    var code := READ_1920 + t;
    SkipOps(ITSKIP, READ_1920, second, NoWrites);
    RunOps([VB, WACK], [ITSKIP] + code, NoWrites);
    PairOps(SETBYTE, 0, [VB, WACK] + ([ITSKIP] + code), NoWrites);
    PairOps(SETCV, 20, [SETBYTE, 0] + ([VB, WACK] + ([ITSKIP] + code)), NoWrites);
    RunOps([BASELINE], [SETCV, 20] + ([SETBYTE, 0] + ([VB, WACK] + ([ITSKIP] + code))), NoWrites);
    assert [BASELINE, SETCV, 20, SETBYTE, 0, VB, WACK, ITSKIP] + code
        == [BASELINE] + ([SETCV, 20] + ([SETBYTE, 0] + ([VB, WACK] + ([ITSKIP] + code))));
  }

  lemma RestIs(t: seq<Byte>)
    ensures REST_1920 + t == [BAD20SKIP] + (STASH_19 + t)
  {
    hide STASH_19;
  }

  lemma StashReads(t: seq<Byte>)
    ensures AllOps(STASH_19 + t, NoWrites)
  {
    hide AllOps, MERGE_BYTE, MERGE_7;
    ShapeStash(MERGE_BYTE, t);
    var back := [NAKFAIL] + ([COMBINE1920] + t);
    EndOps([NAKFAIL], COMBINE1920, t, NoWrites);
    ByteReads(back);
    PairOps(SETCV, 19, [STARTMERGE] + (MERGE_BYTE + ([VB, WACK] + back)), NoWrites);
    RunOps([STASHLOCOID], [SETCV, 19] + ([STARTMERGE] + (MERGE_BYTE + ([VB, WACK] + back))), NoWrites);
  }

  lemma ReadConsistFits()
    ensures Fit(LOCO_READ_CONSIST_PROG)
  {
    hide AllOps, READ_1920, MERGE_BYTE, MERGE_7, SECOND_CONSIST;
    SecondReads();
    ExtendedReads(SECOND_CONSIST);
    ConsistIs();
    WeakerKind(LOCO_READ_CONSIST_PROG, NoWrites);
  }

  lemma SecondReads()
    ensures AllOps(SECOND_CONSIST, NoWrites)
  {
    hide AllOps, MERGE_BYTE, MERGE_7;
    SecondShape(MERGE_BYTE);
    EndOps([ITCB7], CALLFAIL, [], NoWrites);
    ByteReads([ITCB7] + ([CALLFAIL] + []));
    var read := [STARTMERGE] + (MERGE_BYTE + ([VB, WACK] + ([ITCB7] + ([CALLFAIL] + []))));
    RunOps([ITC0], read, NoWrites);
    RunOps([VB, WACK], [ITC0] + read, NoWrites);
    PairOps(SETBYTE, 128, [VB, WACK] + ([ITC0] + read), NoWrites);
    var try128 := [SETBYTE, 128] + ([VB, WACK] + ([ITC0] + read));
    RunOps([ITC0], try128, NoWrites);
    RunOps([VB, WACK], [ITC0] + try128, NoWrites);
    PairOps(SETBYTE, 0, [VB, WACK] + ([ITC0] + try128), NoWrites);
    PairOps(SETCV, 19, [SETBYTE, 0] + ([VB, WACK] + ([ITC0] + try128)), NoWrites);
  }

  lemma DriveawayFits()
    ensures Fit(LOCO_DRIVEAWAY_PROG)
  {
    hide AllOps, READ_1920, MERGE_BYTE, MERGE_7, SECOND_DRIVE, THIRD_DRIVE;
    DriveReads();
    ExtendedReads(SECOND_DRIVE + ([SKIPTARGET] + THIRD_DRIVE));
    DriveIs();
    WeakerKind(LOCO_DRIVEAWAY_PROG, NoWrites);
  }

  lemma ThirdIs()
    ensures THIRD_DRIVE == [SETCV, 29] +
            ([SETBIT, 5] + ([V0, WACK] + ([ITSKIP] + (READ_LONG_ID + ([SKIPTARGET] + READ_SHORT_ID)))))
  {
    hide READ_LONG_ID, READ_SHORT_ID;
    ThirdSplit(READ_LONG_ID, READ_SHORT_ID);
  }

  lemma ThirdSplit(long: seq<Byte>, short: seq<Byte>)
    ensures [SETCV, 29, SETBIT, 5, V0, WACK, ITSKIP] + long + [SKIPTARGET] + short ==
            [SETCV, 29] + ([SETBIT, 5] + ([V0, WACK] + ([ITSKIP] + (long + ([SKIPTARGET] + short)))))
  {
    var e := long + ([SKIPTARGET] + short);
    assert [SETCV, 29, SETBIT, 5, V0, WACK, ITSKIP] + e == [SETCV, 29] + ([SETBIT, 5] + ([V0, WACK] + ([ITSKIP] + e)));
  }

  lemma DriveReads()
    ensures AllOps(SECOND_DRIVE + ([SKIPTARGET] + THIRD_DRIVE), NoWrites)
  {
    hide AllOps, MERGE_BYTE, MERGE_7, THIRD_DRIVE;
    ThirdReads();
    ThirdIs();
    var t := [SKIPTARGET] + THIRD_DRIVE;
    var front2 := [STARTMERGE] + MERGE_BYTE + [VB, WACK, ITCB7];
    var front1 := [SETBYTE, 128, VB, WACK, ITSKIP] + front2;
    DriveShape(MERGE_BYTE, t);
    NoTargetInMerge();
    assert SKIPTARGET !in front2 && SKIPTARGET !in front1;
    RunOps([SKIPTARGET], THIRD_DRIVE, NoWrites);
    RunOps([ITCB7], t, NoWrites);
    ByteReads([ITCB7] + t);
    SkipOps(ITSKIP, front2, THIRD_DRIVE, NoWrites);
    RunOps([VB, WACK], [ITSKIP] + (front2 + t), NoWrites);
    PairOps(SETBYTE, 128, [VB, WACK] + ([ITSKIP] + (front2 + t)), NoWrites);
    SkipOps(ITSKIP, front1, THIRD_DRIVE, NoWrites);
    RunOps([VB, WACK], [ITSKIP] + (front1 + t), NoWrites);
    PairOps(SETBYTE, 0, [VB, WACK] + ([ITSKIP] + (front1 + t)), NoWrites);
    PairOps(SETCV, 19, [SETBYTE, 0] + ([VB, WACK] + ([ITSKIP] + (front1 + t))), NoWrites);
  }

  /** The whole-byte read at the end of readCV and verifyCVByte. */
  lemma WholeReads(op: Byte)
    requires op == ITCB || op == ITCBV
    ensures AllOps(READ_BIT_7 + (MERGE_7 + ([VB, WACK] + ([op] + ([CALLFAIL] + [])))), NoWrites)
  {
    hide AllOps, MERGE_BYTE, MERGE_7;
    MergesRead();
    var back := [op] + ([CALLFAIL] + []);
    EndOps([op], CALLFAIL, [], NoWrites);
    RunOps([VB, WACK], back, NoWrites);
    RunOps(MERGE_7, [VB, WACK] + back, NoWrites);
    TopBitReads(MERGE_7 + ([VB, WACK] + back));
  }

  lemma TopBitReads(rest: seq<Byte>)
    requires AllOps(rest, NoWrites)
    ensures AllOps(READ_BIT_7 + rest, NoWrites)
  {
    hide AllOps, READ_BIT_7;
    var end := [SKIPTARGET] + rest;
    RunOps([SKIPTARGET], rest, NoWrites);
    PairOps(SETBIT, 6, end, NoWrites);
    RunOps([V1, WACK, NAKFAIL], [SETBIT, 6] + end, NoWrites);
    PairOps(SETBIT, 7, [V1, WACK, NAKFAIL] + ([SETBIT, 6] + end), NoWrites);
    var extra := [SETBIT, 7, V1, WACK, NAKFAIL, SETBIT, 6];
    TopBitShape(end);
    SkipOps(ITSKIP, extra, rest, NoWrites);
    RunOps([STARTMERGE, V0, WACK, MERGE], [ITSKIP] + (extra + end), NoWrites);
    TopBitStart(rest);
  }

  lemma TopBitShape(end: seq<Byte>)
    ensures [SETBIT, 7] + ([V1, WACK, NAKFAIL] + ([SETBIT, 6] + end)) == [SETBIT, 7, V1, WACK, NAKFAIL, SETBIT, 6] + end
  {
  }

  lemma TopBitStart(rest: seq<Byte>)
    ensures READ_BIT_7 + rest == [STARTMERGE, V0, WACK, MERGE]
            + ([ITSKIP] + ([SETBIT, 7, V1, WACK, NAKFAIL, SETBIT, 6] + ([SKIPTARGET] + rest)))
  {
  }

  lemma ReadCvFits()
    ensures Fit(READ_CV_PROG) && Fit(VERIFY_BYTE_PROG)
  {
    hide AllOps, READ_BIT_7, MERGE_7;
    WholeReads(ITCB);
    WholeReads(ITCBV);
    ReadShape([BASELINE], READ_BIT_7, MERGE_7, ITCB);
    ReadShape([BASELINE, BIV, VB, WACK, ITCB], READ_BIT_7, MERGE_7, ITCBV);
    RunOps([BASELINE], READ_BIT_7 + (MERGE_7 + ([VB, WACK] + ([ITCB] + ([CALLFAIL] + [])))), NoWrites);
    RunOps([BASELINE, BIV, VB, WACK, ITCB], READ_BIT_7 + (MERGE_7 + ([VB, WACK] + ([ITCBV] + ([CALLFAIL] + [])))),
        NoWrites);
    WeakerKind(READ_CV_PROG, NoWrites);
    WeakerKind(VERIFY_BYTE_PROG, NoWrites);
  }

  /** The one-bit reads. */
  lemma BitReadsFit()
    ensures Fit(VERIFY_BIT0_PROG) && Fit(VERIFY_BIT1_PROG) && Fit(READ_BIT_PROG)
  {
    hide AllOps;
    EndOps([BASELINE, V0, WACK, ITC0, V1, WACK, ITC1], CALLFAIL, [], NoWrites);
    EndOps([BASELINE, V1, WACK, ITC1, V0, WACK, ITC0], CALLFAIL, [], NoWrites);
    assert VERIFY_BIT0_PROG == [BASELINE, V0, WACK, ITC0, V1, WACK, ITC1] + ([CALLFAIL] + []);
    assert VERIFY_BIT1_PROG == [BASELINE, V1, WACK, ITC1, V0, WACK, ITC0] + ([CALLFAIL] + []);
    WeakerKind(VERIFY_BIT0_PROG, NoWrites);
    WeakerKind(VERIFY_BIT1_PROG, NoWrites);
  }

  // ---------------------------------------------------------------- programs that write

  lemma WriteFirst(op: Byte, rest: seq<Byte>)
    requires (op == W0 || op == W1 || op == WB) && AllOps(rest, NoBaseline)
    ensures Fit([BASELINE, op] + rest)
  {
    hide AllOps;
    var code := [BASELINE, op] + rest;
    assert code[1..] == [op] + rest && ([op] + rest)[1..] == rest;
    assert Prelude([op] + rest);
    PreludeCloses(code);
  }

  lemma WritesFit()
    ensures Fit(WRITE_BIT0_PROG) && Fit(WRITE_BIT1_PROG) && Fit(WRITE_BYTE_PROG)
  {
    hide Fit, AllOps;
    EndOps([WACK, V0, WACK, ITC1], CALLFAIL, [], NoBaseline);
    EndOps([WACK, V1, WACK, ITC1], CALLFAIL, [], NoBaseline);
    EndOps([WACK, ITC1, VB, WACK, ITC1], CALLFAIL, [], NoBaseline);
    WriteFirst(W0, [WACK, V0, WACK, ITC1] + ([CALLFAIL] + []));
    WriteFirst(W1, [WACK, V1, WACK, ITC1] + ([CALLFAIL] + []));
    WriteFirst(WB, [WACK, ITC1, VB, WACK, ITC1] + ([CALLFAIL] + []));
    assert WRITE_BIT0_PROG == [BASELINE, W0] + ([WACK, V0, WACK, ITC1] + ([CALLFAIL] + []));
    assert WRITE_BIT1_PROG == [BASELINE, W1] + ([WACK, V1, WACK, ITC1] + ([CALLFAIL] + []));
    assert WRITE_BYTE_PROG == [BASELINE, WB] + ([WACK, ITC1, VB, WACK, ITC1] + ([CALLFAIL] + []));
  }

  /** Every id and consist write starts by setting CV 20. */
  lemma Write20First(sets: seq<Byte>, rest: seq<Byte>)
    requires sets == [SETBYTE, 0] || sets == [SETBYTEH]
    requires AllOps(rest, NoBaseline)
    ensures Fit([BASELINE, SETCV, 20] + (sets + ([WB] + rest)))
  {
    hide AllOps;
    var c2 := [WB] + rest;
    assert c2[1..] == rest;
    assert Prelude(c2);
    var c1 := sets + c2;
    assert Prelude(c1) by {
      if sets == [SETBYTEH] { assert c1[1..] == c2; } else { assert c1[1..][1..] == c2; }
    }
    var code := [BASELINE, SETCV, 20] + c1;
    assert code[1..][1..][1..] == c1;
    assert Prelude(code[1..]);
    PreludeCloses(code);
  }

  /** STORE: write, or verify what was written. */
  lemma StoreOps()
    ensures AllOps(STORE, NoBaseline)
  {
    hide AllOps;
    EndOps([WB, WACK, ITC1, VB, WACK, ITC1], CALLFAIL, [], NoBaseline);
    assert STORE == [WB, WACK, ITC1, VB, WACK, ITC1] + ([CALLFAIL] + []);
  }

  lemma LastStore(cv: Byte)
    ensures AllOps([SETCV, cv] + ([SETBYTEL] + STORE), NoBaseline)
  {
    hide AllOps;
    StoreOps();
    RunOps([SETBYTEL], STORE, NoBaseline);
    PairOps(SETCV, cv, [SETBYTEL] + STORE, NoBaseline);
  }

  lemma SetConsistFits()
    ensures Fit(CONSIST_ID_PROG)
  {
    hide AllOps, Fit, CONSIST_ID_PROG, STORE;
    var last := [SETCV, 19] + ([SETBYTEL] + STORE);
    LastStore(19);
    RunOps([SKIPTARGET], last, NoBaseline);
    RunOps([FAIL_IF_NONZERO_NAK], [SKIPTARGET] + last, NoBaseline);
    SkipOps(ITSKIP, [FAIL_IF_NONZERO_NAK], last, NoBaseline);
    var skip := [ITSKIP] + ([FAIL_IF_NONZERO_NAK] + ([SKIPTARGET] + last));
    RunOps([WACK], skip, NoBaseline);
    Write20First([SETBYTEH], [WACK] + skip);
    ConsistIdShape();
  }

  lemma ConsistIdShape()
    ensures CONSIST_ID_PROG ==
            [BASELINE, SETCV, 20] + ([SETBYTEH] + ([WB] + ([WACK] + ([ITSKIP] + ([FAIL_IF_NONZERO_NAK] + ([SKIPTARGET]
            + ([SETCV, 19] + ([SETBYTEL] + STORE))))))))
  {
    var last := [SETCV, 19, SETBYTEL, WB, WACK, ITC1, VB, WACK, ITC1, CALLFAIL];
    assert last == [SETCV, 19] + ([SETBYTEL] + STORE);
    ConsistIdStart(last);
  }

  lemma ConsistIdStart(last: seq<Byte>)
    ensures [BASELINE, SETCV, 20, SETBYTEH, WB, WACK, ITSKIP, FAIL_IF_NONZERO_NAK, SKIPTARGET] + last ==
            [BASELINE, SETCV, 20] +
                ([SETBYTEH] + ([WB] + ([WACK] + ([ITSKIP] + ([FAIL_IF_NONZERO_NAK] + ([SKIPTARGET] + last))))))
  {
  }

  /** After CLEAR_CONSIST's first write. */
  lemma ClearFirst(rest: seq<Byte>)
    requires AllOps(rest, NoBaseline)
    ensures Fit([BASELINE] + (CLEAR_CONSIST + rest))
  {
    hide AllOps, Fit, CLEAR_CONSIST;
    RunOps([WB, WACK], rest, NoBaseline);
    PairOps(SETBYTE, 0, [WB, WACK] + rest, NoBaseline);
    PairOps(SETCV, 19, [SETBYTE, 0] + ([WB, WACK] + rest), NoBaseline);
    var more := [SETCV, 19] + ([SETBYTE, 0] + ([WB, WACK] + rest));
    RunOps([WACK], more, NoBaseline);
    Write20First([SETBYTE, 0], [WACK] + more);
    ClearShape(rest);
  }

  lemma ClearShape(rest: seq<Byte>)
    ensures [BASELINE] + (CLEAR_CONSIST + rest) == [BASELINE, SETCV, 20] + ([SETBYTE, 0] + ([WB] + ([WACK]
            + ([SETCV, 19] + ([SETBYTE, 0] + ([WB, WACK] + rest))))))
  {
    var more := [SETCV, 19] + ([SETBYTE, 0] + ([WB, WACK] + rest));
    assert CLEAR_CONSIST + rest == [SETCV, 20, SETBYTE, 0, WB, WACK] + more;
    ClearStart(more);
  }

  lemma ClearStart(more: seq<Byte>)
    ensures [BASELINE] + ([SETCV, 20, SETBYTE, 0, WB, WACK] + more) ==
            [BASELINE, SETCV, 20] + ([SETBYTE, 0] + ([WB] + ([WACK] + more)))
  {
  }

  lemma FlagOps(w: Byte, v: Byte, rest: seq<Byte>)
    requires (w == W0 && v == V0) || (w == W1 && v == V1)
    requires AllOps(rest, NoBaseline)
    ensures AllOps([SETCV, 29, SETBIT, 5, w, WACK, v, WACK, NAKFAIL] + rest, NoBaseline)
  {
    hide AllOps;
    RunOps([w, WACK, v, WACK, NAKFAIL], rest, NoBaseline);
    PairOps(SETBIT, 5, [w, WACK, v, WACK, NAKFAIL] + rest, NoBaseline);
    PairOps(SETCV, 29, [SETBIT, 5] + ([w, WACK, v, WACK, NAKFAIL] + rest), NoBaseline);
    assert [SETCV, 29, SETBIT, 5, w, WACK, v, WACK, NAKFAIL] + rest
        == [SETCV, 29] + ([SETBIT, 5] + ([w, WACK, v, WACK, NAKFAIL] + rest));
  }

  lemma SetIdFits()
    ensures Fit(SHORT_LOCO_ID_PROG) && Fit(LONG_LOCO_ID_PROG)
  {
    hide AllOps, Fit, CLEAR_CONSIST;
    LastStore(1);
    FlagOps(W0, V0, [SETCV, 1] + ([SETBYTEL] + STORE));
    ClearFirst(SET_FLAG_0 + ([SETCV, 1] + ([SETBYTEL] + STORE)));
    ShortSetShape(CLEAR_CONSIST);
    var last := [SETCV, 18] + ([SETBYTEL] + STORE);
    LastStore(18);
    Store17Ops(last);
    FlagOps(W1, V1, STORE_17 + last);
    ClearFirst(SET_FLAG_1 + (STORE_17 + last));
    LongSetShape(CLEAR_CONSIST);
  }

  lemma Store17Ops(rest: seq<Byte>)
    requires AllOps(rest, NoBaseline)
    ensures AllOps(STORE_17 + rest, NoBaseline)
  {
    hide AllOps, STORE_17;
    var end := [SKIPTARGET] + rest;
    EndOps([], CALLFAIL, end, NoBaseline);
    assert [] + ([CALLFAIL] + end) == [CALLFAIL] + end;
    SkipOps(ITSKIP, [CALLFAIL], rest, NoBaseline);
    RunOps([VB, WACK], [ITSKIP] + ([CALLFAIL] + end), NoBaseline);
    RetryShape(end);
    SkipOps(ITSKIP, [VB, WACK, ITSKIP, CALLFAIL], rest, NoBaseline);
    var skip := [ITSKIP] + ([VB, WACK, ITSKIP, CALLFAIL] + end);
    RunOps([SETBYTEH, WB, WACK], skip, NoBaseline);
    PairOps(SETCV, 17, [SETBYTEH, WB, WACK] + skip, NoBaseline);
    Store17Shape(rest);
  }

  lemma RetryShape(end: seq<Byte>)
    ensures [VB, WACK] + ([ITSKIP] + ([CALLFAIL] + end)) == [VB, WACK, ITSKIP, CALLFAIL] + end
  {
  }

  lemma Store17Shape(rest: seq<Byte>)
    ensures STORE_17 + rest == [SETCV, 17] +
            ([SETBYTEH, WB, WACK] + ([ITSKIP] + ([VB, WACK, ITSKIP, CALLFAIL] + ([SKIPTARGET] + rest))))
  {
  }

  /** Every program the station hands to Setup. */
  predicate Stock(prog: seq<Byte>) {
    || prog == WRITE_BIT0_PROG || prog == WRITE_BIT1_PROG || prog == VERIFY_BIT0_PROG || prog == VERIFY_BIT1_PROG
    || prog == READ_BIT_PROG || prog == WRITE_BYTE_PROG || prog == VERIFY_BYTE_PROG || prog == READ_CV_PROG
    || prog == LOCO_READ_ID_PROG || prog == LOCO_READ_CONSIST_PROG || prog == LOCO_DRIVEAWAY_PROG
    || prog == SHORT_LOCO_ID_PROG || prog == LONG_LOCO_ID_PROG || prog == CONSIST_ID_PROG
  }

  lemma StockIsFit(prog: seq<Byte>)
    requires Stock(prog)
    ensures Fit(prog)
  {
    hide Fit, WRITE_BIT0_PROG, WRITE_BIT1_PROG, VERIFY_BIT0_PROG, VERIFY_BIT1_PROG, READ_BIT_PROG, WRITE_BYTE_PROG,
      VERIFY_BYTE_PROG, READ_CV_PROG, LOCO_READ_ID_PROG, LOCO_READ_CONSIST_PROG, LOCO_DRIVEAWAY_PROG,
      SHORT_LOCO_ID_PROG, LONG_LOCO_ID_PROG, CONSIST_ID_PROG;
    WritesFit();
    BitReadsFit();
    ReadCvFits();
    ReadIdFits();
    ReadConsistFits();
    DriveawayFits();
    SetIdFits();
    SetConsistFits();
  }

  /** Only the station's own programs are asked for. */
  predicate StockOnly(acts: seq<Act>) {
    forall i :: 0 <= i < |acts| && acts[i].Request? ==> Stock(acts[i].program)
  }

  lemma StockIsProper(acts: seq<Act>)
    requires StockOnly(acts)
    ensures AllProper(acts)
  {
    hide Stock, Fit;
    forall i | 0 <= i < |acts| ensures acts[i].Proper() {
      if acts[i].Request? { StockIsFit(acts[i].program); }
    }
  }

  /** What is promised of a request that is accepted, when acts follow, and more after them. By the end
      of its run it was called back exactly once, and the track has the power and the join state it
      was found with, if and only if no further request was accepted before, nor, if the track was
      found joined, turned away. On a fair track the run does end, unless another one is accepted
      before. And every power-off keeps clear of the writes before it, and a rejoin comes after its
      gap. */
  ghost predicate Behaves(l: Line, a: Act, acts: seq<Act>, more: seq<Act>, clock: nat)
    requires a.Accepted()
  {
    var l1 := Step(l, a).0;
    var (l', notes) := Go(l1, acts);
    && (Until(l1, acts) ==>
          && (CalledOnce(notes, l.asked) && l'.m.power == l.m.power && l'.m.joined == l.m.joined
              <==> NoneAccepted(acts) && (l.m.joined ==> NoneAsked(acts)))
          && (NoneAccepted(acts) ==> Restarts(notes) <= a.ackRetry)
          && NeverCalled(Go(l', more).1, l.asked))
    && (NoneAccepted(acts) && FairTurns(acts, clock) >= Enough(a) ==>
          exists k :: 0 <= k <= |acts| && Until(l1, acts[..k]))
    && WritesSettle(notes)
    && (l.m.power ==>
          forall k :: 0 <= k < |notes| && IsRejoin(notes[k], l.asked) ==> Gapped(notes[..k], l.asked))
  }

  /** Any program of the station, accepted in any state the station can be in, with other requests
      for its programs coming at any time, whatever the track does. */
  lemma StationProgramsBehave(l: Line, a: Act, acts: seq<Act>, more: seq<Act>, clock: nat)
    requires Known(l, clock) && a.Accepted() && Stock(a.program) && StockOnly(acts) && Monotone(acts, clock)
    ensures Behaves(l, a, acts, more, clock)
  {
    hide Step, Go, Until, CalledOnce, NeverCalled, NoneAccepted, NoneAsked, FairTurns, Enough, WritesSettle, Gapped,
      IsRejoin, Known, LineOk, Stock, StockOnly, Monotone, Fit, Act.Accepted, Act.Proper, AllProper, Restarts;
    StockIsProper(acts);
    ProperStock(a);
    KnownIs(l, clock);
    SetupIsTimely(l, a, acts, clock);
    if Until(Step(l, a).0, acts) { SetupIsServed(l, a, acts, more, clock); }
    if NoneAccepted(acts) && FairTurns(acts, clock) >= Enough(a) { var k := SetupEnds(l, a, acts, clock); }
  }

  /** In particular from the start on: whatever was asked before, at any times, of an idle machine on
      a track in any state. */
  lemma StationBehavesFromStart(m: Machine, before: seq<Act>, a: Act, acts: seq<Act>, more: seq<Act>)
    requires m.prog.None? && m.stage == READY && a.Accepted() && Stock(a.program)
    requires StockOnly(before) && Monotone(before, 0) && StockOnly(acts) && Monotone(acts, End(before, 0))
    ensures Behaves(Go(Line(m, 0, 0), before).0, a, acts, more, End(before, 0))
  {
    hide *;
    StockIsProper(before);
    StartIsKnown(m);
    ReachedIsKnown(Line(m, 0, 0), before, 0);
    StationProgramsBehave(Go(Line(m, 0, 0), before).0, a, acts, more, End(before, 0));
  }

  lemma ProperStock(a: Act)
    requires a.Accepted() && Stock(a.program)
    ensures a.Proper()
  {
    hide Stock, Fit;
    StockIsFit(a.program);
  }

  lemma KnownIs(l: Line, clock: nat)
    requires Known(l, clock)
    ensures LineOk(l, clock)
  {
  }
}

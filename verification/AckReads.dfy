/**
 What the reading and writing programs achieve on a compliant decoder, whatever its CVs held.
 */
module AckReads {
  import opened Basics
  import opened AckProgram

  predicate Has(d: Decoder, cv: int) {
    cv in d.cvs
  }

  // ---------------------------------------------------------------- operation by operation

  lemma Front(op: Byte, rest: seq<Byte>)
    ensures ([op] + rest)[0] == op && ([op] + rest)[1..] == rest
  {
  }

  lemma Front2(op: Byte, x: Byte, rest: seq<Byte>)
    ensures [op, x] + rest == [op] + ([x] + rest)
  {
  }

  lemma Front3(a: Byte, b: Byte, c: Byte, rest: seq<Byte>)
    ensures [a, b, c] + rest == [a, b] + ([c] + rest)
  {
  }

  /** Any operation but a skip that goes on with the next. */
  lemma Plain(op: Byte, rest: seq<Byte>, b: Bench)
    ensures op == BASELINE ==> Exec([op] + rest, b) == Exec(rest, b)
    ensures op == SKIPTARGET ==> Exec([op] + rest, b) == Exec(rest, b)
    ensures op == WACK ==> Exec([op] + rest, b) == Exec(rest, b.(regs := b.regs.(ack := b.heard)))
    ensures op == STARTMERGE ==> Exec([op] + rest, b) == Exec(rest, b.(regs := b.regs.(bit := 7, byte := 0)))
    ensures op == BIV ==> Exec([op] + rest, b) == Exec(rest, b.(regs := b.regs.(byte := b.regs.verify)))
    ensures op == SETBYTEH ==>
              Exec([op] + rest, b) == Exec(rest, b.(regs := b.regs.(byte := (b.regs.word / 256) % 256)))
    ensures op == SETBYTEL ==> Exec([op] + rest, b) == Exec(rest, b.(regs := b.regs.(byte := b.regs.word % 256)))
    ensures op == STASHLOCOID ==> Exec([op] + rest, b) == Exec(rest, b.(regs := b.regs.(stash := b.regs.byte)))
  {
    hide AfterTarget, Answer;
    Front(op, rest);
  }

  /** Operations that report or go on. */
  lemma Test(op: Byte, rest: seq<Byte>, b: Bench)
    ensures op == ITC1 && b.regs.ack ==> Exec([op] + rest, b) == Result(1, b.regs, b.d, b.heard)
    ensures op == ITC0 && b.regs.ack ==> Exec([op] + rest, b) == Result(0, b.regs, b.d, b.heard)
    ensures (op == ITCB || op == ITCBV) && b.regs.ack ==>
              Exec([op] + rest, b) == Result(b.regs.byte, b.regs, b.d, b.heard)
    ensures op == ITCB7 && b.regs.ack ==> Exec([op] + rest, b) == Result(b.regs.byte % 128, b.regs, b.d, b.heard)
    ensures op in {ITC1, ITC0, ITCB, ITCBV, ITCB7} && !b.regs.ack ==> Exec([op] + rest, b) == Exec(rest, b)
    ensures op == NAKFAIL ==>
              Exec([op] + rest, b) == if b.regs.ack then Exec(rest, b) else Result(-1, b.regs, b.d, b.heard)
    ensures op == CALLFAIL ==> Exec([op] + rest, b) == Result(-1, b.regs, b.d, b.heard)
    ensures op == FAIL_IF_NONZERO_NAK ==>
              Exec([op] + rest, b) == if b.regs.byte == 0 then Exec(rest, b) else Result(-4, b.regs, b.d, b.heard)
  {
    hide AfterTarget, Answer;
    Front(op, rest);
  }

  function Assigned(op: Byte, x: Byte, r: Regs): Regs {
    if op == SETCV then r.(cv := x) else if op == SETBYTE then r.(byte := x) else r.(bit := x)
  }

  lemma SetOp(op: Byte, x: Byte, rest: seq<Byte>, b: Bench)
    requires op == SETCV || op == SETBYTE || op == SETBIT
    ensures Exec([op, x] + rest, b) == Exec(rest, b.(regs := Assigned(op, x, b.regs)))
  {
    hide AfterTarget, Answer;
    var code := [op, x] + rest;
    assert code[0] == op && code[1..][0] == x && code[1..][1..] == rest;
    assert Decode(code, b.regs) == Goto(rest, Assigned(op, x, b.regs));
  }

  function PacketOf(op: Byte, r: Regs): Packet {
    if op == W0 then WriteBit(r.cv, r.bit, false)
    else if op == W1 then WriteBit(r.cv, r.bit, true)
    else if op == WB then WriteByte(r.cv, r.byte)
    else if op == VB then VerifyByte(r.cv, r.byte)
    else if op == V0 then VerifyBit(r.cv, r.bit, false)
    else VerifyBit(r.cv, r.bit, true)
  }

  /** A packet and the wait for its answer. */
  function Asked(op: Byte, b: Bench): Bench {
    var (d, a) := Answer(b.d, PacketOf(op, b.regs));
    Bench(b.regs.(ack := a), d, a)
  }

  lemma Ask(op: Byte, rest: seq<Byte>, b: Bench)
    requires W0 <= op <= V1
    ensures Exec([op, WACK] + rest, b) == Exec(rest, Asked(op, b))
  {
    hide AfterTarget, Answer;
    Front2(op, WACK, rest);
    Front(op, [WACK] + rest);
    Front(WACK, rest);
    var (d, a) := Answer(b.d, PacketOf(op, b.regs));
    assert Exec([op] + ([WACK] + rest), b) == Exec([WACK] + rest, Bench(b.regs, d, a));
  }

  /** A taken skip goes just past the next SKIPTARGET. */
  lemma {:induction false} TargetAfter(front: seq<Byte>, rest: seq<Byte>)
    requires SKIPTARGET !in front
    ensures AfterTarget(front + ([SKIPTARGET] + rest)) == rest
    decreases |front|
  {
    if front == [] {
      assert front + ([SKIPTARGET] + rest) == [SKIPTARGET] + rest;
    } else {
      assert (front + ([SKIPTARGET] + rest))[1..] == front[1..] + ([SKIPTARGET] + rest);
      TargetAfter(front[1..], rest);
    }
  }

  lemma Skips(op: Byte, front: seq<Byte>, rest: seq<Byte>, b: Bench)
    requires SKIPTARGET !in front && (op == ITSKIP || op == NAKSKIP || op == BAD20SKIP)
    ensures var code := [op] + (front + ([SKIPTARGET] + rest));
            Exec(code, b) ==
              if (op == ITSKIP && b.regs.ack) || (op == NAKSKIP && !b.regs.ack) ||
                  (op == BAD20SKIP && b.regs.byte > 120)
              then Exec(rest, b) else Exec(front + ([SKIPTARGET] + rest), b)
  {
    hide Decode, AfterTarget, Answer;
    var tail := front + ([SKIPTARGET] + rest);
    SkipDecodes(op, tail, b.regs);
    TargetAfter(front, rest);
    assert Decode([op] + tail, b.regs).Goto?;
  }

  /** Where each of the three skips goes on. */
  lemma SkipDecodes(op: Byte, tail: seq<Byte>, r: Regs)
    requires op == ITSKIP || op == NAKSKIP || op == BAD20SKIP
    ensures Decode([op] + tail, r) ==
            Goto(if (op == ITSKIP && r.ack) || (op == NAKSKIP && !r.ack) || (op == BAD20SKIP && r.byte > 120)
                 then AfterTarget(tail) else tail, r)
  {
    hide AfterTarget;
    Front(op, tail);
  }

  // ---------------------------------------------------------------- reading a byte

  lemma HalfBit(v: Byte, i: nat)
    requires i < 8
    ensures 2 * (v / Pow2(i + 1)) + (if BitOf(v, i) then 1 else 0) == v / Pow2(i)
    ensures v / Pow2(i + 1) < 128
  {
    assert Pow2(0) == 1 && Pow2(1) == 2 && Pow2(2) == 4 && Pow2(3) == 8;
    assert Pow2(4) == 16 && Pow2(5) == 32 && Pow2(6) == 64 && Pow2(7) == 128 && Pow2(8) == 256;
  }

  function Groups(n: nat): seq<Byte> {
    if n == 0 then [] else [V0, WACK, MERGE] + Groups(n - 1)
  }

  lemma GroupsAre()
    ensures Groups(7) == MERGE_7 && Groups(8) == MERGE_BYTE
  {
    assert Groups(2) == [V0, WACK, MERGE, V0, WACK, MERGE];
    assert Groups(4) == Groups(2) + Groups(2) by { assert Groups(3) == [V0, WACK, MERGE] + Groups(2); }
    assert Groups(7) == MERGE_7 by {
      assert Groups(6) == Groups(2) + Groups(4) by { assert Groups(5) == [V0, WACK, MERGE] + Groups(4); }
      assert Groups(7) == [V0, WACK, MERGE] + Groups(6);
    }
    assert Groups(8) == [V0, WACK, MERGE] + Groups(7);
  }

  function Merged(b: Bench): Bench {
    b.(regs := b.regs.(byte := (2 * b.regs.byte) % 256 + if b.regs.ack then 0 else 1, bit := (b.regs.bit + 255) % 256))
  }

  lemma MergeOne(rest: seq<Byte>, b: Bench)
    ensures Exec([V0, WACK, MERGE] + rest, b) == Exec(rest, Merged(Asked(V0, b)))
  {
    hide AfterTarget, Answer;
    Front3(V0, WACK, MERGE, rest);
    Ask(V0, [MERGE] + rest, b);
    var m := Asked(V0, b);
    var code := [MERGE] + rest;
    assert code[0] == MERGE && code[1..] == rest;
    assert Decode(code, m.regs) == Goto(rest, Merged(m).regs);
  }

  /** n groups read the low n bits of a supported CV below the bits already read of w. */
  lemma {:induction false} MergeBits(n: nat, w: Byte, rest: seq<Byte>, b: Bench) returns (b': Bench)
    requires n <= 8 && Has(b.d, b.regs.cv)
    requires forall i :: 0 <= i < n ==> BitOf(b.d.cvs[b.regs.cv], i) == BitOf(w, i)
    requires b.regs.byte == w / Pow2(n) && b.regs.bit == (n + 255) % 256
    ensures Exec(Groups(n) + rest, b) == Exec(rest, b')
    ensures b'.d == b.d && b'.regs == b.regs.(byte := w, bit := 255, ack := b'.regs.ack)
  {
    hide Exec, BitOf, Answer, Merged, Asked;
    if n == 0 {
      assert Groups(0) + rest == rest;
      assert w / Pow2(0) == w;
      b' := b;
    } else {
      assert Groups(n) + rest == [V0, WACK, MERGE] + (Groups(n - 1) + rest);
      MergeOne(Groups(n - 1) + rest, b);
      MergeReads(n, w, b);
      b' := MergeBits(n - 1, w, rest, Merged(Asked(V0, b)));
    }
  }

  /** One group: the bit below those already read. */
  lemma MergeReads(n: nat, w: Byte, b: Bench)
    requires 1 <= n <= 8 && Has(b.d, b.regs.cv) && BitOf(b.d.cvs[b.regs.cv], n - 1) == BitOf(w, n - 1)
    requires b.regs.byte == w / Pow2(n) && b.regs.bit == (n + 255) % 256
    ensures var m := Merged(Asked(V0, b));
            && m.d == b.d && m.regs == b.regs.(byte := m.regs.byte, bit := m.regs.bit, ack := m.regs.ack)
            && m.regs.byte == w / Pow2(n - 1) && m.regs.bit == (n + 254) % 256
  {
    hide BitOf, Pow2;
    HalfBit(w, n - 1);
  }

  /** Groups on an unsupported CV get no ack and change nothing that matters. */
  lemma {:induction false} MergeSilence(n: nat, rest: seq<Byte>, b: Bench) returns (b': Bench)
    requires !Has(b.d, b.regs.cv)
    ensures Exec(Groups(n) + rest, b) == Exec(rest, b')
    ensures b'.d == b.d && b'.regs == b.regs.(byte := b'.regs.byte, bit := b'.regs.bit, ack := b'.regs.ack)
  {
    hide Exec;
    if n == 0 {
      assert Groups(0) + rest == rest;
      b' := b;
    } else {
      assert Groups(n) + rest == [V0, WACK, MERGE] + (Groups(n - 1) + rest);
      MergeOne(Groups(n - 1) + rest, b);
      b' := MergeSilence(n - 1, rest, Merged(Asked(V0, b)));
    }
  }

  /** A whole byte, read and verified: the CV's value and an ack, or no ack. */
  lemma ReadByte(rest: seq<Byte>, b: Bench) returns (b': Bench)
    ensures Exec([STARTMERGE] + (MERGE_BYTE + ([VB, WACK] + rest)), b) == Exec(rest, b')
    ensures b'.d == b.d && b'.regs.ack == Has(b.d, b.regs.cv)
    ensures b'.regs == b.regs.(byte := b'.regs.byte, bit := b'.regs.bit, ack := b'.regs.ack)
    ensures Has(b.d, b.regs.cv) ==> b'.regs.byte == b.d.cvs[b.regs.cv]
  {
    hide Exec, MERGE_BYTE, Groups;
    GroupsAre();
    Plain(STARTMERGE, MERGE_BYTE + ([VB, WACK] + rest), b);
    var b0 := b.(regs := b.regs.(bit := 7, byte := 0));
    var b1;
    if Has(b.d, b.regs.cv) {
      var v := b.d.cvs[b.regs.cv];
      assert v / Pow2(8) == 0 by { HalfBit(v, 7); }
      b1 := MergeBits(8, v, [VB, WACK] + rest, b0);
    } else {
      b1 := MergeSilence(8, [VB, WACK] + rest, b0);
    }
    Ask(VB, rest, b1);
    b' := Asked(VB, b1);
  }

  lemma Assoc(a: seq<Byte>, b: seq<Byte>, c: seq<Byte>)
    ensures (a + b) + c == a + (b + c)
  {
  }

  // ---------------------------------------------------------------- the loco's own address

  function LongIdOf(d: Decoder): int {
    if Has(d, 17) && Has(d, 18) then
      var high: int, low: int := d.cvs[17], d.cvs[18];
      Marked(low + (high - 192) * 256)
    else -1
  }

  function ShortIdOf(d: Decoder): int {
    if Has(d, 1) && d.cvs[1] < 128 then d.cvs[1] else -1
  }

  /** The address a decoder has, by its CV 29, as the read-back reports it. */
  function IdOf(d: Decoder): int {
    if Has(d, 29) && !BitOf(d.cvs[29], 5) then ShortIdOf(d) else LongIdOf(d)
  }

  predicate Reports(r: Result, v: int, d: Decoder) {
    r.Result? && r.value == v && r.d == d
  }

  lemma ReadsLongId(rest: seq<Byte>, b: Bench)
    ensures Reports(Exec(READ_LONG_ID + rest, b), LongIdOf(b.d), b.d)
  {
    hide Exec, MERGE_BYTE;
    var back := [COMBINELOCOID] + rest;
    var mid := [STASHLOCOID] + ([SETCV, 18] + ([STARTMERGE] + (MERGE_BYTE + ([VB, WACK] + ([NAKFAIL] + back)))));
    LongShape(MERGE_BYTE, rest);
    SetOp(SETCV, 17, [STARTMERGE] + (MERGE_BYTE + ([VB, WACK] + ([NAKFAIL] + mid))), b);
    var b1 := ReadByte([NAKFAIL] + mid, b.(regs := b.regs.(cv := 17)));
    Test(NAKFAIL, mid, b1);
    if Has(b.d, 17) {
      Plain(STASHLOCOID, mid[1..], b1);
      var b2 := b1.(regs := b1.regs.(stash := b1.regs.byte));
      assert mid[1..] == [SETCV, 18] + ([STARTMERGE] + (MERGE_BYTE + ([VB, WACK] + ([NAKFAIL] + back))));
      SetOp(SETCV, 18, [STARTMERGE] + (MERGE_BYTE + ([VB, WACK] + ([NAKFAIL] + back))), b2);
      var b3 := ReadByte([NAKFAIL] + back, b2.(regs := b2.regs.(cv := 18)));
      Test(NAKFAIL, back, b3);
      CombineLong(rest, b3);
    }
  }

  lemma CombineLong(rest: seq<Byte>, b: Bench)
    ensures Exec([COMBINELOCOID] + rest, b) == Result(Marked(b.regs.byte + (b.regs.stash - 192) * 256), b.regs, b.d,
            b.heard)
  {
    hide AfterTarget, Answer, Marked;
    Front(COMBINELOCOID, rest);
  }

  lemma LongShape(m: seq<Byte>, rest: seq<Byte>)
    ensures [SETCV, 17, STARTMERGE] + m + [VB, WACK, NAKFAIL, STASHLOCOID, SETCV, 18, STARTMERGE] + m
            + [VB, WACK, NAKFAIL, COMBINELOCOID] + rest ==
            [SETCV, 17] + ([STARTMERGE] + (m + ([VB, WACK] + ([NAKFAIL] + ([STASHLOCOID] + ([SETCV, 18] + ([STARTMERGE]
            + (m + ([VB, WACK] + ([NAKFAIL] + ([COMBINELOCOID] + rest)))))))))))
  {
    var e := [VB, WACK, NAKFAIL, COMBINELOCOID] + rest;
    assert e == [VB, WACK] + ([NAKFAIL] + ([COMBINELOCOID] + rest));
    var c := [VB, WACK, NAKFAIL, STASHLOCOID, SETCV, 18, STARTMERGE];
    assert c + (m + e) == [VB, WACK] + ([NAKFAIL] + ([STASHLOCOID] + ([SETCV, 18] + ([STARTMERGE] + (m + e)))));
    var a := [SETCV, 17, STARTMERGE];
    assert a + (m + (c + (m + e))) == [SETCV, 17] + ([STARTMERGE] + (m + (c + (m + e))));
    assert a + m + c + m + [VB, WACK, NAKFAIL, COMBINELOCOID] + rest == a + (m + (c + (m + e)));
  }

  /** The seven groups of CV 1, and the verify. */
  lemma ReadsShortId(b: Bench)
    ensures Reports(Exec(READ_SHORT_ID, b), ShortIdOf(b.d), b.d)
  {
    hide Exec, MERGE_7, Groups;
    GroupsAre();
    ShortShape(MERGE_7);
    var back := [ITCB] + ([CALLFAIL] + []);
    SetOp(SETCV, 1, [STARTMERGE] + ([SETBIT, 6] + (MERGE_7 + ([VB, WACK] + back))), b);
    var b1 := b.(regs := b.regs.(cv := 1));
    Plain(STARTMERGE, [SETBIT, 6] + (MERGE_7 + ([VB, WACK] + back)), b1);
    var b2 := b1.(regs := b1.regs.(bit := 7, byte := 0));
    SetOp(SETBIT, 6, MERGE_7 + ([VB, WACK] + back), b2);
    var b3 := b2.(regs := b2.regs.(bit := 6));
    var b4 := SevenBits([VB, WACK] + back, b3);
    Ask(VB, back, b4);
    var b5 := Asked(VB, b4);
    Test(ITCB, [CALLFAIL] + [], b5);
    Test(CALLFAIL, [], b5);
  }

  lemma ShortShape(m: seq<Byte>)
    ensures [SETCV, 1, STARTMERGE, SETBIT, 6] + m + [VB, WACK, ITCB, CALLFAIL] ==
            [SETCV, 1] + ([STARTMERGE] + ([SETBIT, 6] + (m + ([VB, WACK] + ([ITCB] + ([CALLFAIL] + []))))))
  {
    var e := [VB, WACK, ITCB, CALLFAIL];
    assert e == [VB, WACK] + ([ITCB] + ([CALLFAIL] + []));
    assert [SETCV, 1, STARTMERGE, SETBIT, 6] + (m + e) == [SETCV, 1] + ([STARTMERGE] + ([SETBIT, 6] + (m + e)));
  }

  /** Seven groups starting from zero read the low seven bits. */
  lemma SevenBits(rest: seq<Byte>, b: Bench) returns (b': Bench)
    requires b.regs.byte == 0 && b.regs.bit == 6
    ensures Exec(MERGE_7 + rest, b) == Exec(rest, b')
    ensures b'.d == b.d && b'.regs == b.regs.(byte := b'.regs.byte, bit := b'.regs.bit, ack := b'.regs.ack)
    ensures Has(b.d, b.regs.cv) ==> b'.regs.byte == b.d.cvs[b.regs.cv] % 128
  {
    hide Exec, Groups, MERGE_7;
    GroupsAre();
    if Has(b.d, b.regs.cv) {
      var v := b.d.cvs[b.regs.cv];
      forall i | 0 <= i < 7 ensures BitOf(v, i) == BitOf(v % 128, i) { LowBit(v, i); }
      assert (v % 128) / Pow2(7) == 0 by {
        HalfBit(v % 128, 6);
        PowersPair(0);
      }
      b' := MergeBits(7, v % 128, rest, b);
    } else {
      b' := MergeSilence(7, rest, b);
    }
  }

  lemma LowBit(v: Byte, i: nat)
    requires i < 7
    ensures BitOf(v % 128, i) == BitOf(v, i)
  {
    hide Pow2;
    PowersPair(i);
    HalfPower(7 - i);
    LowQuotient(v, Pow2(i), Pow2(7 - i));
    EvenAdds(v % 128 / Pow2(i), Pow2(7 - i) * (v / 128));
  }

  lemma LowQuotient(v: nat, p: nat, h: nat)
    requires p > 0 && p * h == 128
    ensures v / p == v % 128 / p + h * (v / 128)
  {
    var k := v / 128;
    DivMore(v % 128, p, h * k);
    Regroup(p, h, k);
    assert v == v % 128 + 128 * k;
  }

  lemma Regroup(a: int, b: int, c: int)
    ensures a * (b * c) == (a * b) * c
  {
  }

  lemma EvenAdds(x: int, y: int)
    requires y % 2 == 0
    ensures (x + y) % 2 == x % 2
  {
  }

  lemma HalfPower(i: nat)
    requires i > 0
    ensures forall k: nat :: (Pow2(i) * k) % 2 == 0
  {
    var h := Pow2(i - 1);
    forall k: nat ensures (Pow2(i) * k) % 2 == 0 {
      assert Pow2(i) * k == 2 * (h * k);
    }
  }

  lemma DivMore(w: nat, p: nat, c: nat)
    requires p > 0
    ensures (w + p * c) / p == w / p + c
  {
    var q, r := w / p, w % p;
    assert p * (q + c) == p * q + p * c;
    QuotientIs(w + p * c, p, q + c, r);
  }

  lemma QuotientIs(x: nat, p: nat, q: nat, r: nat)
    requires p > 0 && x == p * q + r && r < p
    ensures x / p == q
  {
    var y := x / p;
    assert y < q ==> p * (y + 1) <= p * q;
    assert y > q ==> p * (q + 1) <= p * y;
    assert p * (y + 1) == p * y + p && p * (q + 1) == p * q + p;
  }
}

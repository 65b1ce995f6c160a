/**
 Programming-track programs: what each operation does to the ack manager's registers, and a
 decoder that answers the packets.

 A program is a table of bytes and `ackManagerProg` points into it, so a position is what is left
 of the table from there on.
 */
module AckProgram {
  import opened Basics

  const BASELINE: Byte := 0
  const W0: Byte := 1
  const W1: Byte := 2
  const WB: Byte := 3
  const VB: Byte := 4
  const V0: Byte := 5
  const V1: Byte := 6
  const WACK: Byte := 7
  const ITC1: Byte := 8
  const ITC0: Byte := 9
  const ITCB: Byte := 10
  const ITCBV: Byte := 11
  const ITCB7: Byte := 12
  const NAKFAIL: Byte := 13
  const CALLFAIL: Byte := 14
  const BIV: Byte := 15
  const STARTMERGE: Byte := 16
  const MERGE: Byte := 17
  const SETBIT: Byte := 18
  const SETCV: Byte := 19
  const SETBYTE: Byte := 20
  const SETBYTEH: Byte := 21
  const SETBYTEL: Byte := 22
  const STASHLOCOID: Byte := 23
  const COMBINELOCOID: Byte := 24
  const ITSKIP: Byte := 25
  const NAKSKIP: Byte := 26
  const COMBINE1920: Byte := 27
  const BAD20SKIP: Byte := 28
  const FAIL_IF_NONZERO_NAK: Byte := 29
  const SKIPTARGET: Byte := 255

  const LONG_ADDR_MARKER := 0x4000

  /** The ack manager's registers. */
  datatype Regs = Regs(cv: int, bit: Byte, byte: Byte, verify: Byte, stash: Byte, word: int, ack: bool)

  /** A service-mode packet. */
  datatype Packet =
    | WriteByte(cv: int, byte: Byte)
    | VerifyByte(cv: int, byte: Byte)
    | WriteBit(cv: int, bit: Byte, on: bool)
    | VerifyBit(cv: int, bit: Byte, on: bool)
  {
    predicate IsWrite() { WriteByte? || WriteBit? }
  }

  /** What the operation in front asks for; every kind but the last two says where to go on. */
  datatype Action =
    | Goto(code: seq<Byte>, regs: Regs)
    | Issue(code: seq<Byte>, regs: Regs, packet: Packet)
    | Await(code: seq<Byte>, regs: Regs)
    | Base(code: seq<Byte>, regs: Regs)
    | Report(regs: Regs, value: int)
    | RunOff

  /** Just past the next SKIPTARGET. */
  function AfterTarget(code: seq<Byte>): (r: seq<Byte>)
    ensures |r| <= |code|
  {
    if code == [] then [] else if code[0] == SKIPTARGET then code[1..] else AfterTarget(code[1..])
  }

  /** LONG_ADDR_MARKER | x, for two's complement x. */
  function Marked(x: int): int {
    if x % 0x8000 >= LONG_ADDR_MARKER then x else x + LONG_ADDR_MARKER
  }

  /** Bit 14 is set, the bits below and above are as they were. */
  lemma MarkedSets(x: int)
    ensures var r := Marked(x); (r / 0x4000) % 2 == 1 && r % 0x4000 == x % 0x4000 && r / 0x8000 == x / 0x8000
  {
    var q, low := x / 0x8000, x % 0x8000;
    if low >= 0x4000 { Bit14Set(q, low - 0x4000); } else { Bit14Set(q, low); }
  }

  lemma Bit14Set(q: int, low: nat)
    requires low < 0x4000
    ensures var r := q * 0x8000 + 0x4000 + low; r / 0x8000 == q && r / 0x4000 == 2 * q + 1 && r % 0x4000 == low
    ensures (q * 0x8000 + low) % 0x4000 == low && (2 * q + 1) % 2 == 1
  {
    Quotient15(q, 0x4000 + low);
    Quotient14(2 * q + 1, low);
    Quotient14(2 * q, low);
  }

  lemma Quotient15(q: int, s: nat)
    requires s < 0x8000
    ensures (q * 0x8000 + s) / 0x8000 == q
  {
  }

  lemma Quotient14(q: int, s: nat)
    requires s < 0x4000
    ensures (q * 0x4000 + s) / 0x4000 == q && (q * 0x4000 + s) % 0x4000 == s
  {
  }

  /** One operation. */
  function Decode(code: seq<Byte>, r: Regs): (a: Action)
    ensures a.Goto? || a.Issue? || a.Await? || a.Base? ==> |a.code| < |code|
    ensures a.Issue? || a.Await? || a.Base? ==> a.regs == r
  {
    if code == [] then RunOff
    else
      var op, next := code[0], code[1..];
      if op == BASELINE then Base(next, r)
      else if op == W0 then Issue(next, r, WriteBit(r.cv, r.bit, false))
      else if op == W1 then Issue(next, r, WriteBit(r.cv, r.bit, true))
      else if op == WB then Issue(next, r, WriteByte(r.cv, r.byte))
      else if op == VB then Issue(next, r, VerifyByte(r.cv, r.byte))
      else if op == V0 then Issue(next, r, VerifyBit(r.cv, r.bit, false))
      else if op == V1 then Issue(next, r, VerifyBit(r.cv, r.bit, true))
      else if op == WACK then Await(next, r)
      else if op == ITC1 then if r.ack then Report(r, 1) else Goto(next, r)
      else if op == ITC0 then if r.ack then Report(r, 0) else Goto(next, r)
      else if op == ITCB || op == ITCBV then if r.ack then Report(r, r.byte) else Goto(next, r)
      else if op == ITCB7 then if r.ack then Report(r, r.byte % 128) else Goto(next, r)
      else if op == NAKFAIL then if r.ack then Goto(next, r) else Report(r, -1)
      else if op == CALLFAIL then Report(r, -1)
      else if op == BIV then Goto(next, r.(byte := r.verify))
      else if op == STARTMERGE then Goto(next, r.(bit := 7, byte := 0))
      else if op == MERGE then
        Goto(next, r.(byte := (2 * r.byte) % 256 + if r.ack then 0 else 1, bit := (r.bit + 255) % 256))
      else if op == SETBIT then if next == [] then RunOff else Goto(next[1..], r.(bit := next[0]))
      else if op == SETCV then if next == [] then RunOff else Goto(next[1..], r.(cv := next[0]))
      else if op == SETBYTE then if next == [] then RunOff else Goto(next[1..], r.(byte := next[0]))
      else if op == SETBYTEH then Goto(next, r.(byte := (r.word / 256) % 256))
      else if op == SETBYTEL then Goto(next, r.(byte := r.word % 256))
      else if op == STASHLOCOID then Goto(next, r.(stash := r.byte))
      else if op == COMBINELOCOID then Report(r, Marked(r.byte + (r.stash - 192) * 256))
      else if op == COMBINE1920 then
        var b: Byte := (r.byte % 128) % 100;
        Report(r.(byte := b), r.stash * 100 + b)
      else if op == ITSKIP then if r.ack then Goto(AfterTarget(next), r) else Goto(next, r)
      else if op == NAKSKIP then if r.ack then Goto(next, r) else Goto(AfterTarget(next), r)
      else if op == BAD20SKIP then if r.byte > 120 then Goto(AfterTarget(next), r) else Goto(next, r)
      else if op == FAIL_IF_NONZERO_NAK then if r.byte == 0 then Goto(next, r) else Report(r, -4)
      else if op == SKIPTARGET then Goto(next, r)
      else Report(r, -1)
  }

  // ---------------------------------------------------------------- a compliant decoder

  function Pow2(i: nat): (p: nat)
    ensures p >= 1
  {
    if i == 0 then 1 else 2 * Pow2(i - 1)
  }

  predicate BitOf(v: Byte, i: nat) {
    (v / Pow2(i)) % 2 == 1
  }

  /** The decoder's CVs, and whether it acknowledges what it writes; a CV that is missing here is
      one it does not support, and never acknowledges. */
  datatype Decoder = Decoder(cvs: map<int, Byte>, acksWrites: bool)

  function WithBit(v: Byte, i: nat, on: bool): Byte
    requires i < 8
  {
    BitsAreSmall(v, i);
    if on == BitOf(v, i) then v else if on then v + Pow2(i) else v - Pow2(i)
  }

  lemma BitsAreSmall(v: Byte, i: nat)
    requires i < 8
    ensures Pow2(i) <= 128
    ensures BitOf(v, i) ==> v >= Pow2(i)
    ensures !BitOf(v, i) ==> v + Pow2(i) < 256
  {
    hide Pow2;
    PowersPair(i);
    DivBit(v, Pow2(i), Pow2(7 - i));
  }

  lemma PowersPair(i: nat)
    requires i < 8
    ensures Pow2(i) * Pow2(7 - i) == 128 && Pow2(i) <= 128
  {
    assert Pow2(0) == 1 && Pow2(1) == 2 && Pow2(2) == 4 && Pow2(3) == 8;
    assert Pow2(4) == 16 && Pow2(5) == 32 && Pow2(6) == 64 && Pow2(7) == 128;
  }

  /** A bit that is set is at most the value, one that is not leaves room for it. */
  lemma DivBit(v: nat, p: nat, m: nat)
    requires p > 0 && p * m == 128 && v < 256
    ensures (v / p) % 2 == 1 ==> v >= p
    ensures (v / p) % 2 == 0 ==> v + p < 256
  {
    var q := v / p;
    assert v == q * p + v % p;
    assert 2 * m * p == 256 by { assert 2 * m * p == 2 * (p * m); }
    if q >= 2 * m {
      Scaled(2 * m, q, p);
    } else if q % 2 == 0 {
      assert q + 2 <= 2 * m;
      Scaled(q + 2, 2 * m, p);
      assert (q + 2) * p == q * p + 2 * p;
    } else {
      Scaled(1, q, p);
    }
  }

  lemma Scaled(a: nat, b: nat, p: nat)
    requires a <= b
    ensures a * p <= b * p
  {
  }

  /** What a packet does to a compliant decoder, and whether it acknowledges. */
  function Answer(d: Decoder, p: Packet): (Decoder, bool) {
    if p.cv !in d.cvs then (d, false)
    else
      match p
      case WriteByte(cv, b) => (d.(cvs := d.cvs[cv := b]), d.acksWrites)
      case VerifyByte(cv, b) => (d, d.cvs[cv] == b)
      case WriteBit(cv, i, on) =>
        if i < 8 then (d.(cvs := d.cvs[cv := WithBit(d.cvs[cv], i, on)]), d.acksWrites) else (d, false)
      case VerifyBit(cv, i, on) => (d, i < 8 && BitOf(d.cvs[cv], i) == on)
  }

  datatype Result = Result(value: int, regs: Regs, d: Decoder, heard: bool) | Lost

  /** A registers-and-track state: heard is the answer to the last packet. */
  datatype Bench = Bench(regs: Regs, d: Decoder, heard: bool)

  /** One run of a program against a decoder. */
  function Exec(code: seq<Byte>, b: Bench): Result
    decreases |code|
  {
    match Decode(code, b.regs)
    case Goto(next, r) => Exec(next, b.(regs := r))
    case Base(next, r) => Exec(next, b.(regs := r))
    case Issue(next, r, p) =>
      var (d, a) := Answer(b.d, p);
      Exec(next, Bench(r, d, a))
    case Await(next, r) => Exec(next, b.(regs := r.(ack := b.heard)))
    case Report(r, v) => Result(v, r, b.d, b.heard)
    case RunOff => Lost
  }

  /** One run of a program against arbitrary answers, one per packet; silence when they run out. */
  datatype Heard = Heard(value: int, lastPacket: Option<Packet>, acked: bool) | Unheard

  function Listen(code: seq<Byte>, r: Regs, last: Option<Packet>, acked: bool, answers: seq<bool>): Heard
    decreases |code|
  {
    match Decode(code, r)
    case Goto(next, r') => Listen(next, r', last, acked, answers)
    case Base(next, r') => Listen(next, r', last, acked, answers)
    case Issue(next, r', p) =>
      if answers == [] then Listen(next, r', Some(p), false, [])
      else Listen(next, r', Some(p), answers[0], answers[1..])
    case Await(next, r') => Listen(next, r'.(ack := acked), last, acked, answers)
    case Report(_, v) => Heard(v, last, acked)
    case RunOff => Unheard
  }

  // ---------------------------------------------------------------- the programs

  /** Eight V0, WACK, MERGE groups: one whole byte, highest bit first. */
  const MERGE_BYTE: seq<Byte> := MERGE_7 + [V0, WACK, MERGE]
  const MERGE_7: seq<Byte> := [V0, WACK, MERGE, V0, WACK, MERGE, V0, WACK, MERGE, V0, WACK, MERGE,
                               V0, WACK, MERGE, V0, WACK, MERGE, V0, WACK, MERGE]

  const WRITE_BIT0_PROG: seq<Byte> := [BASELINE, W0, WACK, V0, WACK, ITC1, CALLFAIL]
  const WRITE_BIT1_PROG: seq<Byte> := [BASELINE, W1, WACK, V1, WACK, ITC1, CALLFAIL]
  const VERIFY_BIT0_PROG: seq<Byte> := [BASELINE, V0, WACK, ITC0, V1, WACK, ITC1, CALLFAIL]
  const VERIFY_BIT1_PROG: seq<Byte> := [BASELINE, V1, WACK, ITC1, V0, WACK, ITC0, CALLFAIL]
  const READ_BIT_PROG: seq<Byte> := [BASELINE, V1, WACK, ITC1, V0, WACK, ITC0, CALLFAIL]

  const WRITE_BYTE_PROG: seq<Byte> := [BASELINE, WB, WACK, ITC1, VB, WACK, ITC1, CALLFAIL]

  /** The first bit of a CV read, with the excursion that tells an absent decoder from a one. */
  const READ_BIT_7: seq<Byte> := [STARTMERGE, V0, WACK, MERGE, ITSKIP, SETBIT, 7, V1, WACK, NAKFAIL, SETBIT, 6,
                                  SKIPTARGET]

  const VERIFY_BYTE_PROG: seq<Byte> :=
    [BASELINE, BIV, VB, WACK, ITCB] + READ_BIT_7 + MERGE_7 + [VB, WACK, ITCBV, CALLFAIL]

  const READ_CV_PROG: seq<Byte> := [BASELINE] + READ_BIT_7 + MERGE_7 + [VB, WACK, ITCB, CALLFAIL]

  /** CVs 17 and 18 as one long address. */
  const READ_LONG_ID: seq<Byte> :=
    [SETCV, 17, STARTMERGE] + MERGE_BYTE + [VB, WACK, NAKFAIL, STASHLOCOID, SETCV, 18, STARTMERGE] + MERGE_BYTE
    + [VB, WACK, NAKFAIL, COMBINELOCOID]

  const READ_SHORT_ID: seq<Byte> := [SETCV, 1, STARTMERGE, SETBIT, 6] + MERGE_7 + [VB, WACK, ITCB, CALLFAIL]

  const LOCO_READ_ID_PROG: seq<Byte> :=
    [BASELINE, SETCV, 29, SETBIT, 5, V0, WACK, ITSKIP] + READ_LONG_ID + [SKIPTARGET] + READ_SHORT_ID

  /** CVs 20 and 19 as one extended consist address. */
  const READ_1920: seq<Byte> :=
    [STARTMERGE] + MERGE_BYTE + [VB, WACK, NAKSKIP, BAD20SKIP, STASHLOCOID, SETCV, 19, STARTMERGE] + MERGE_BYTE
    + [VB, WACK, NAKFAIL, COMBINE1920]

  const LOCO_READ_CONSIST_PROG: seq<Byte> :=
    [BASELINE, SETCV, 20, SETBYTE, 0, VB, WACK, ITSKIP] + READ_1920 + [SKIPTARGET]
    + [SETCV, 19, SETBYTE, 0, VB, WACK, ITC0, SETBYTE, 128, VB, WACK, ITC0, STARTMERGE] + MERGE_BYTE
    + [VB, WACK, ITCB7, CALLFAIL]

  /** getDriveawayLocoId: the consist address if there is one, else the loco's own. */
  const LOCO_DRIVEAWAY_PROG: seq<Byte> :=
    [BASELINE, SETCV, 20, SETBYTE, 0, VB, WACK, ITSKIP] + READ_1920 + [SKIPTARGET]
    + [SETCV, 19, SETBYTE, 0, VB, WACK, ITSKIP, SETBYTE, 128, VB, WACK, ITSKIP, STARTMERGE] + MERGE_BYTE
    + [VB, WACK, ITCB7] + [SKIPTARGET]
    + [SETCV, 29, SETBIT, 5, V0, WACK, ITSKIP] + READ_LONG_ID + [SKIPTARGET] + READ_SHORT_ID

  const CLEAR_CONSIST: seq<Byte> := [SETCV, 20, SETBYTE, 0, WB, WACK, SETCV, 19, SETBYTE, 0, WB, WACK]

  const SHORT_LOCO_ID_PROG: seq<Byte> :=
    [BASELINE] + CLEAR_CONSIST
    + [SETCV, 29, SETBIT, 5, W0, WACK, V0, WACK, NAKFAIL, SETCV, 1, SETBYTEL, WB, WACK, ITC1, VB, WACK, ITC1, CALLFAIL]

  const LONG_LOCO_ID_PROG: seq<Byte> :=
    [BASELINE] + CLEAR_CONSIST
    + [SETCV, 29, SETBIT, 5, W1, WACK, V1, WACK, NAKFAIL]
    + [SETCV, 17, SETBYTEH, WB, WACK, ITSKIP, VB, WACK, ITSKIP, CALLFAIL, SKIPTARGET]
    + [SETCV, 18, SETBYTEL, WB, WACK, ITC1, VB, WACK, ITC1, CALLFAIL]

  const CONSIST_ID_PROG: seq<Byte> :=
    [BASELINE, SETCV, 20, SETBYTEH, WB, WACK, ITSKIP, FAIL_IF_NONZERO_NAK, SKIPTARGET]
    + [SETCV, 19, SETBYTEL, WB, WACK, ITC1, VB, WACK, ITC1, CALLFAIL]
}

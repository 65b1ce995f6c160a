/**
 Packets as bits on the rails, section A of NMRA S-9.2: preamble ones, then each byte behind a zero,
 then a one; and a decoder that reads the bits back.
 */
module BitStream {
  type Packet = seq<bv8>

  function Mask(i: nat): bv8
    requires i < 8
  {
    if i == 0 then 0x80 else if i == 1 then 0x40 else if i == 2 then 0x20 else if i == 3 then 0x10
    else if i == 4 then 0x08 else if i == 5 then 0x04 else if i == 6 then 0x02 else 0x01
  }

  /** A byte's bits, the highest first. */
  function ByteBits(b: bv8): (r: seq<bool>)
    ensures |r| == 8 && forall i :: 0 <= i < 8 ==> r[i] == (b & Mask(i) != 0)
  {
    [b & 0x80 != 0, b & 0x40 != 0, b & 0x20 != 0, b & 0x10 != 0, b & 0x08 != 0, b & 0x04 != 0, b & 0x02 != 0,
        b & 0x01 != 0]
  }

  function If(on: bool, mask: bv8): bv8 {
    if on then mask else 0
  }

  /** The byte with these bits. */
  function ByteOf(s: seq<bool>): bv8
    requires |s| == 8
  {
    If(s[0], 0x80) | If(s[1], 0x40) | If(s[2], 0x20) | If(s[3], 0x10) | If(s[4], 0x08) | If(s[5], 0x04) |
        If(s[6], 0x02) | If(s[7], 0x01)
  }

  lemma ByteBitsOf(b: bv8)
    ensures ByteOf(ByteBits(b)) == b
  {
    assert If(b & 0x80 != 0, 0x80) | If(b & 0x40 != 0, 0x40) | If(b & 0x20 != 0, 0x20) | If(b & 0x10 != 0, 0x10)
         | If(b & 0x08 != 0, 0x08) | If(b & 0x04 != 0, 0x04) | If(b & 0x02 != 0, 0x02) | If(b & 0x01 != 0, 0x01) == b;
  }

  function Ones(n: nat): (r: seq<bool>)
    ensures |r| == n && forall i :: 0 <= i < n ==> r[i]
  {
    seq(n, _ => true)
  }

  /** Each byte behind a zero. */
  function FrameBits(f: Packet): (r: seq<bool>)
    ensures |r| == 9 * |f|
  {
    if f == [] then [] else [false] + ByteBits(f[0]) + FrameBits(f[1..])
  }

  /** bitMask: nothing, so a zero, and then the bits of a byte. */
  function BitAt(b: bv8, i: nat): bool
    requires i < 9
  {
    i > 0 && b & Mask(i - 1) != 0
  }

  lemma {:induction false} BitInFrame(f: Packet, i: nat, j: nat)
    requires i < |f| && j < 9
    ensures 9 * i + j < |FrameBits(f)| && FrameBits(f)[9 * i + j] == BitAt(f[i], j)
    decreases i
  {
    hide Mask;
    var head := [false] + ByteBits(f[0]);
    assert FrameBits(f) == head + FrameBits(f[1..]);
    if i > 0 {
      BitInFrame(f[1..], i - 1, j);
      assert 9 * i + j - 9 == 9 * (i - 1) + j;
    }
  }

  /** Frames one after the other, each behind p ones, of which the first ends the frame before. */
  function WaveBits(frames: seq<Packet>, p: nat): seq<bool> {
    if frames == [] then [] else Ones(p) + FrameBits(frames[0]) + WaveBits(frames[1..], p)
  }

  /** The same with an end bit of its own for each frame. */
  function RmtBits(frames: seq<Packet>, p: nat): seq<bool> {
    if frames == [] then [] else Ones(p) + FrameBits(frames[0]) + [true] + RmtBits(frames[1..], p)
  }

  /** But for where the end bit is counted, the two are one stream. */
  lemma {:induction false} SameStream(frames: seq<Packet>, p: nat)
    ensures [true] + RmtBits(frames, p) == WaveBits(frames, p + 1) + [true]
  {
    hide FrameBits, Ones;
    if frames != [] {
      SameStream(frames[1..], p);
      OneMore(p);
      SameFrame(Ones(p), FrameBits(frames[0]), RmtBits(frames[1..], p), WaveBits(frames[1..], p + 1));
    }
  }

  lemma OneMore(p: nat)
    ensures Ones(p + 1) == [true] + Ones(p)
  {
  }

  lemma SameFrame(ones: seq<bool>, body: seq<bool>, rmt: seq<bool>, wave: seq<bool>)
    requires [true] + rmt == wave + [true]
    ensures [true] + (ones + body + [true] + rmt) == ([true] + ones) + body + wave + [true]
  {
    assert ones + body + [true] + rmt == ones + body + (wave + [true]);
  }

  /** The exclusive or of a packet's bytes. */
  function Xor(p: Packet): bv8 {
    if p == [] then 0 else Xor(p[..|p| - 1]) ^ p[|p| - 1]
  }

  lemma XorNone()
    ensures Xor([]) == 0
  {
  }

  lemma XorMore(p: Packet, n: nat)
    requires n < |p|
    ensures Xor(p[..n + 1]) == Xor(p[..n]) ^ p[n]
  {
    assert p[..n + 1][..n] == p[..n];
  }

  /** A packet with its checksum. */
  function Summed(p: Packet): (f: Packet)
    ensures |f| == |p| + 1 && f[..|p|] == p
  {
    p + [Xor(p)]
  }

  lemma SummedIsZero(p: Packet)
    ensures Xor(Summed(p)) == 0
  {
    var x := Xor(p);
    assert Summed(p)[..|p|] == p;
    assert x ^ x == 0;
  }

  // ---------------------------------------------------------------- a decoder

  datatype Receiver =
    | Preamble(ones: nat)
    | InByte(frame: Packet, got: seq<bool>)
    | AfterByte(frame: Packet)

  /** One bit; a frame comes out with the one behind its last byte, which is also the first bit of
      the next preamble. A preamble has to have at least so many ones. */
  function Receive(s: Receiver, bit: bool, least: nat): (Receiver, seq<Packet>) {
    match s
    case Preamble(n) =>
      if bit then (Preamble(n + 1), []) else if n >= least then (InByte([], []), []) else (Preamble(0), [])
    case InByte(f, got) =>
      if |got| == 7 then (AfterByte(f + [ByteOf(got + [bit])]), [])
      else (InByte(f, got + [bit]), [])
    case AfterByte(f) => if bit then (Preamble(1), [f]) else (InByte(f, []), [])
  }

  function Received(s: Receiver, stream: seq<bool>, least: nat): (r: (Receiver, seq<Packet>))
    decreases |stream|
  {
    if stream == [] then (s, [])
    else
      var (s1, out) := Receive(s, stream[0], least);
      var (s2, rest) := Received(s1, stream[1..], least);
      (s2, out + rest)
  }

  lemma {:induction false} ReceivedJoin(s: Receiver, a: seq<bool>, b: seq<bool>, least: nat)
    ensures var (s1, out) := Received(s, a, least);
            var (s2, rest) := Received(s1, b, least);
            Received(s, a + b, least) == (s2, out + rest)
    decreases |a|
  {
    hide Receive;
    if a == [] {
      assert a + b == b;
      assert [] + Received(s, b, least).1 == Received(s, b, least).1;
    } else {
      var (s1, out) := Receive(s, a[0], least);
      ReceivedJoin(s1, a[1..], b, least);
      assert (a + b)[1..] == a[1..] + b;
      var mid, rest := Received(s1, a[1..], least).1, Received(Received(s1, a[1..], least).0, b, least).1;
      assert (out + mid) + rest == out + (mid + rest);
    }
  }

  lemma {:induction false} ReceivesOnes(n0: nat, n: nat, least: nat)
    ensures Received(Preamble(n0), Ones(n), least) == (Preamble(n0 + n), [])
    decreases n
  {
    if n > 0 {
      assert Ones(n)[1..] == Ones(n - 1);
      ReceivesOnes(n0 + 1, n - 1, least);
      assert [] + Received(Preamble(n0 + 1), Ones(n - 1), least).1 == [];
    }
  }

  /** The rest of a byte's bits. */
  lemma {:induction false} ReceivesByte(f: Packet, bits: seq<bool>, i: nat, least: nat)
    requires |bits| == 8 && i < 8
    ensures Received(InByte(f, bits[..i]), bits[i..], least) == (AfterByte(f + [ByteOf(bits)]), [])
    decreases 8 - i
  {
    hide ByteOf;
    assert bits[i..][0] == bits[i] && bits[i..][1..] == bits[i + 1..];
    assert bits[..i] + [bits[i]] == bits[..i + 1];
    if i < 7 {
      ReceivesByte(f, bits, i + 1, least);
    } else {
      var end := AfterByte(f + [ByteOf(bits)]);
      assert bits[..8] == bits && bits[i..][1..] == [];
      assert Receive(InByte(f, bits[..i]), bits[i], least) == (end, []);
      var none: seq<Packet> := [];
      assert Received(end, bits[i..][1..], least) == (end, none) && none + none == none;
    }
  }

  /** Bytes behind a byte. */
  lemma {:induction false} ReceivesBytes(f: Packet, more: Packet, least: nat)
    ensures Received(AfterByte(f), FrameBits(more), least) == (AfterByte(f + more), [])
    decreases |more|
  {
    hide Receive, ByteOf;
    if more == [] {
      assert f + more == f;
    } else {
      OneByte(AfterByte(f), f, more[0], least);
      ReceivedJoin(AfterByte(f), [false] + ByteBits(more[0]), FrameBits(more[1..]), least);
      ReceivesBytes(f + [more[0]], more[1..], least);
      assert f + [more[0]] + more[1..] == f + more;
    }
  }

  /** A zero and a byte. */
  lemma OneByte(s: Receiver, f: Packet, b: bv8, least: nat)
    requires s == AfterByte(f) || (f == [] && s.Preamble? && s.ones >= least)
    ensures Received(s, [false] + ByteBits(b), least) == (AfterByte(f + [b]), [])
  {
    hide ByteOf, ByteBits;
    var bits := ByteBits(b);
    assert ([false] + bits)[1..] == bits && bits[..0] == [] && bits[0..] == bits;
    ReceivesByte(f, bits, 0, least);
    ByteBitsOf(b);
  }

  /** A frame behind a preamble that is long enough. */
  lemma ReceivesFrame(n: nat, f: Packet, least: nat)
    requires n >= least && f != []
    ensures Received(Preamble(n), FrameBits(f), least) == (AfterByte(f), [])
  {
    hide Receive, ByteOf;
    OneByte(Preamble(n), [], f[0], least);
    ReceivedJoin(Preamble(n), [false] + ByteBits(f[0]), FrameBits(f[1..]), least);
    ReceivesBytes([f[0]], f[1..], least);
    assert [] + [f[0]] == [f[0]] && [f[0]] + f[1..] == f;
  }

  /** What a decoder has of a frame that has no end bit yet. */
  function Held(s: Receiver): seq<Packet> {
    if s.AfterByte? then [s.frame] else []
  }

  /** Ones end the frame before, and are a preamble. */
  lemma ReceivesPreamble(s: Receiver, n: nat, least: nat)
    requires !s.InByte? && n > 0
    ensures var (s', out) := Received(s, Ones(n), least);
            s'.Preamble? && s'.ones >= n && out == Held(s)
  {
    if s.Preamble? {
      ReceivesOnes(s.ones, n, least);
    } else {
      assert Ones(n)[1..] == Ones(n - 1);
      ReceivesOnes(1, n - 1, least);
    }
  }

  /** The bits of any frames, each behind a preamble that is long enough, are received as exactly
      those frames, the last of them once its end bit comes. */
  lemma {:induction false} ReceivesWave(s: Receiver, frames: seq<Packet>, p: nat, least: nat)
    requires !s.InByte? && p > 0 && p >= least && forall i :: 0 <= i < |frames| ==> frames[i] != []
    ensures var (s', out) := Received(s, WaveBits(frames, p), least);
            && !s'.InByte? && (frames != [] ==> s'.AfterByte?) && (frames == [] ==> s' == s)
            && out + Held(s') == Held(s) + frames
    decreases |frames|
  {
    hide Receive, Ones, FrameBits;
    if frames == [] {
      assert Received(s, [], least) == (s, []);
    } else {
      var f := frames[0];
      ReceivesPreamble(s, p, least);
      var s1 := Received(s, Ones(p), least).0;
      ReceivesFrame(s1.ones, f, least);
      ReceivedJoin(s, Ones(p), FrameBits(f), least);
      ReceivedJoin(s, Ones(p) + FrameBits(f), WaveBits(frames[1..], p), least);
      ReceivesWave(AfterByte(f), frames[1..], p, least);
      var rest := Received(AfterByte(f), WaveBits(frames[1..], p), least);
      assert Held(s) + [] == Held(s) && [f] + frames[1..] == frames;
      assert (Held(s) + rest.1) + Held(rest.0) == Held(s) + (rest.1 + Held(rest.0));
    }
  }

  /** So a stream has one reading: the frames that were sent. */
  lemma StreamIsFrames(n: nat, frames: seq<Packet>, p: nat, least: nat)
    requires p > 0 && p >= least && forall i :: 0 <= i < |frames| ==> frames[i] != []
    ensures Received(Preamble(n), WaveBits(frames, p) + [true], least).1 == frames
  {
    hide Received, WaveBits;
    ReceivesWave(Preamble(n), frames, p, least);
    var (s1, out) := Received(Preamble(n), WaveBits(frames, p), least);
    ReceivedJoin(Preamble(n), WaveBits(frames, p), [true], least);
    ReceivesOne(s1, least);
    assert [] + frames == frames;
  }

  lemma ReceivesOne(s: Receiver, least: nat)
    requires !s.InByte?
    ensures Received(s, [true], least).1 == Held(s)
  {
    assert [true][1..] == [];
  }

  /** The same with end bits of their own. */
  lemma {:induction false} ReceivesRmt(n: nat, frames: seq<Packet>, p: nat, least: nat)
    requires least <= p && forall i :: 0 <= i < |frames| ==> frames[i] != []
    ensures Received(Preamble(n), RmtBits(frames, p), least).1 == frames
    decreases |frames|
  {
    hide Receive, Ones, FrameBits;
    if frames != [] {
      var f := frames[0];
      ReceivesOnes(n, p, least);
      ReceivesFrame(n + p, f, least);
      ReceivedJoin(Preamble(n), Ones(p), FrameBits(f), least);
      ReceivesEnd(f, least);
      ReceivedJoin(Preamble(n), Ones(p) + FrameBits(f), [true], least);
      ReceivedJoin(Preamble(n), Ones(p) + FrameBits(f) + [true], RmtBits(frames[1..], p), least);
      ReceivesRmt(1, frames[1..], p, least);
      assert [f] + frames[1..] == frames;
    }
  }

  lemma ReceivesEnd(f: Packet, least: nat)
    ensures Received(AfterByte(f), [true], least) == (Preamble(1), [f])
  {
    assert [true][1..] == [] && [f] + [] == [f];
  }

  // ---------------------------------------------------------------- half bits

  /** A bit as the levels at successive ticks: a one is short, a zero long. */
  function Levels(bit: bool): seq<bool> {
    if bit then [true, false] else [true, true, false, false]
  }

  function LevelsOf(bits: seq<bool>): seq<bool> {
    if bits == [] then [] else Levels(bits[0]) + LevelsOf(bits[1..])
  }

  /** Reading the levels back. */
  function BitsIn(levels: seq<bool>): seq<bool>
    decreases |levels|
  {
    if |levels| >= 2 && levels[0] && !levels[1] then [true] + BitsIn(levels[2..])
    else if |levels| >= 4 && levels[0] && levels[1] && !levels[2] && !levels[3] then [false] + BitsIn(levels[4..])
    else []
  }

  lemma {:induction false} LevelsAreBits(bits: seq<bool>)
    ensures BitsIn(LevelsOf(bits)) == bits
  {
    if bits != [] {
      LevelsAreBits(bits[1..]);
      assert LevelsOf(bits)[|Levels(bits[0])|..] == LevelsOf(bits[1..]);
    }
  }

  lemma JoinsAfter<T>(x: seq<T>, y: seq<T>, z: seq<T>)
    ensures x + (y + z) == x + y + z
  {
  }

  lemma {:induction false} LevelsJoin(a: seq<bool>, b: seq<bool>)
    ensures LevelsOf(a + b) == LevelsOf(a) + LevelsOf(b)
  {
    hide Levels;
    if a == [] {
      assert a + b == b;
    } else {
      var s := a + b;
      LevelsJoin(a[1..], b);
      assert s[0] == a[0] && s[1..] == a[1..] + b;
      JoinsAfter(Levels(a[0]), LevelsOf(a[1..]), LevelsOf(b));
    }
  }
}

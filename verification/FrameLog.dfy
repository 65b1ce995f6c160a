/**
 What is logged of the frames that go out: runs of one frame, each a packet that was accepted, in
 turn, or a filler.
 */
module FrameLog {
  import opened Basics
  import opened BitStream

  datatype Track = Track(required: nat, isMain: bool)

  const IDLE: Packet := [0xFF, 0x00, 0xFF]
  const RESET: Packet := [0x00, 0x00, 0x00]

  function Filler(t: Track): (f: Packet)
    ensures |f| == 3
  {
    if t.isMain then IDLE else RESET
  }

  datatype Job = Job(p: Packet, r: Byte)

  /** The same jobs as before and this one behind them, and perhaps more. */
  predicate Accepted(jobs: seq<Job>, now: seq<Job>, j: Job) {
    jobs + [j] <= now
  }

  /** The same frame a number of times: accepted job src, or a filler; cut when its repeats were
      cleared. seen is how many jobs had been accepted when it was chosen. */
  datatype Block = Block(src: Option<nat>, bytes: Packet, times: nat, cut: bool, seen: nat)

  /** Jobs among these blocks. */
  function Taken(blocks: seq<Block>): nat {
    if blocks == [] then 0
    else Taken(blocks[..|blocks| - 1]) + if blocks[|blocks| - 1].src.Some? then 1 else 0
  }

  function Copies(f: Packet, n: nat): (r: seq<Packet>)
    ensures |r| == n && forall i :: 0 <= i < n ==> r[i] == f
  {
    seq(n, _ => f)
  }

  /** The frames of these blocks. */
  function Frames(blocks: seq<Block>): seq<Packet> {
    if blocks == [] then []
    else Frames(blocks[..|blocks| - 1]) + Copies(blocks[|blocks| - 1].bytes, blocks[|blocks| - 1].times)
  }

  /** Block k is the next job in turn, or a filler sent when no job was waiting. */
  predicate InTurn(blocks: seq<Block>, k: nat, jobs: seq<Job>, t: Track)
    requires k < |blocks|
  {
    var b, before := blocks[k], Taken(blocks[..k]);
    match b.src
    case Some(i) => i == before && i < |jobs| && b.bytes == Summed(jobs[i].p)
    case None => b.bytes == Filler(t) && b.seen == before
  }

  /** Changing only how often the last block is sent. */
  lemma SameLast(blocks: seq<Block>, b: Block)
    requires blocks != [] && b.src == blocks[|blocks| - 1].src && b.bytes == blocks[|blocks| - 1].bytes
    ensures var r := blocks[|blocks| - 1 := b];
            && Taken(r) == Taken(blocks)
            && (b.times == blocks[|blocks| - 1].times ==> Frames(r) == Frames(blocks))
            && (b.times == blocks[|blocks| - 1].times + 1 ==> Frames(r) == Frames(blocks) + [b.bytes])
  {
    var r := blocks[|blocks| - 1 := b];
    var n := |blocks| - 1;
    assert r[..n] == blocks[..n];
    assert Copies(b.bytes, blocks[n].times + 1) == Copies(b.bytes, blocks[n].times) + [b.bytes];
    assert Frames(blocks[..n]) + (Copies(b.bytes, blocks[n].times) + [b.bytes])
        == (Frames(blocks[..n]) + Copies(b.bytes, blocks[n].times)) + [b.bytes];
  }

  lemma TurnsStay(blocks: seq<Block>, b: Block, jobs: seq<Job>, t: Track)
    requires blocks != [] && b.src == blocks[|blocks| - 1].src && b.bytes == blocks[|blocks| - 1].bytes
    requires b.seen == blocks[|blocks| - 1].seen && forall k :: 0 <= k < |blocks| ==> InTurn(blocks, k, jobs, t)
    ensures var r := blocks[|blocks| - 1 := b]; forall k :: 0 <= k < |r| ==> InTurn(r, k, jobs, t)
  {
    hide Taken;
    var r := blocks[|blocks| - 1 := b];
    forall k | 0 <= k < |blocks| ensures InTurn(r, k, jobs, t) {
      assert InTurn(blocks, k, jobs, t);
      assert r[..k] == blocks[..k];
    }
  }

  /** One more block. */
  lemma OneMoreBlock(blocks: seq<Block>, b: Block, jobs: seq<Job>, t: Track)
    requires forall k :: 0 <= k < |blocks| ==> InTurn(blocks, k, jobs, t)
    requires match b.src
             case Some(i) => i == Taken(blocks) && i < |jobs| && b.bytes == Summed(jobs[i].p)
             case None => b.bytes == Filler(t) && b.seen == Taken(blocks)
    requires b.times == 1
    ensures var r := blocks + [b];
            && (forall k :: 0 <= k < |r| ==> InTurn(r, k, jobs, t))
            && Taken(r) == Taken(blocks) + (if b.src.Some? then 1 else 0)
            && Frames(r) == Frames(blocks) + [b.bytes]
  {
    var r := blocks + [b];
    assert r[..|blocks|] == blocks;
    assert Copies(b.bytes, 1) == [b.bytes];
    forall k | 0 <= k < |r| ensures InTurn(r, k, jobs, t) {
      hide Taken;
      if k < |blocks| {
        assert InTurn(blocks, k, jobs, t);
        assert r[..k] == blocks[..k];
      }
    }
  }

  // ---------------------------------------------------------------- order

  lemma {:induction false} TakenGrows(blocks: seq<Block>, k: nat)
    requires k < |blocks|
    ensures Taken(blocks[..k]) + (if blocks[k].src.Some? then 1 else 0) <= Taken(blocks)
    decreases |blocks|
  {
    var n := |blocks| - 1;
    if k < n {
      assert blocks[..n][..k] == blocks[..k];
      TakenGrows(blocks[..n], k);
    }
  }

  /** Every job taken has a block, before those of later jobs and after those of earlier ones. */
  lemma {:induction false} BlockOfJob(blocks: seq<Block>, jobs: seq<Job>, t: Track, i: nat) returns (k: nat)
    requires (forall k :: 0 <= k < |blocks| ==> InTurn(blocks, k, jobs, t)) && i < Taken(blocks)
    ensures k < |blocks| && blocks[k].src == Some(i)
    ensures forall l :: 0 <= l < k && blocks[l].src.Some? ==> blocks[l].src.value < i
    ensures forall l :: k < l < |blocks| && blocks[l].src.Some? ==> blocks[l].src.value > i
    decreases |blocks|
  {
    var n := |blocks| - 1;
    assert InTurn(blocks, n, jobs, t);
    if blocks[n].src == Some(i) {
      k := n;
      EarlierJobs(blocks, jobs, t, n);
    } else {
      forall l | 0 <= l < n ensures InTurn(blocks[..n], l, jobs, t) {
        assert InTurn(blocks, l, jobs, t);
        assert blocks[..n][..l] == blocks[..l];
      }
      k := BlockOfJob(blocks[..n], jobs, t, i);
      assert blocks[k] == blocks[..n][k];
      forall l | k < l < |blocks| && blocks[l].src.Some? ensures blocks[l].src.value > i {
        if l < n { assert blocks[l] == blocks[..n][l]; }
      }
    }
  }

  lemma EarlierJobs(blocks: seq<Block>, jobs: seq<Job>, t: Track, n: nat)
    requires (forall k :: 0 <= k < |blocks| ==> InTurn(blocks, k, jobs, t)) && n < |blocks| && blocks[n].src.Some?
    ensures forall l :: 0 <= l < n && blocks[l].src.Some? ==> blocks[l].src.value < blocks[n].src.value
  {
    hide Taken;
    assert InTurn(blocks, n, jobs, t);
    forall l | 0 <= l < n && blocks[l].src.Some? ensures blocks[l].src.value < blocks[n].src.value {
      assert InTurn(blocks, l, jobs, t);
      assert blocks[..n][..l] == blocks[..l];
      TakenGrows(blocks[..n], l);
    }
  }

  /** Every frame on the rails is a packet with a checksum that makes its bytes cancel out. */
  lemma {:induction false} FramesCancel(blocks: seq<Block>, jobs: seq<Job>, t: Track, f: nat)
    requires (forall k :: 0 <= k < |blocks| ==> InTurn(blocks, k, jobs, t)) && f < |Frames(blocks)|
    ensures Xor(Frames(blocks)[f]) == 0
    decreases |blocks|
  {
    var n := |blocks| - 1;
    if f < |Frames(blocks[..n])| {
      forall l | 0 <= l < n ensures InTurn(blocks[..n], l, jobs, t) {
        assert InTurn(blocks, l, jobs, t);
        assert blocks[..n][..l] == blocks[..l];
      }
      FramesCancel(blocks[..n], jobs, t, f);
    } else {
      assert InTurn(blocks, n, jobs, t);
      if blocks[n].src.Some? { SummedIsZero(jobs[blocks[n].src.value].p); } else { FillersCancel(t); }
    }
  }

  lemma FillersCancel(t: Track)
    ensures Xor(Filler(t)) == 0
  {
    hide Xor, Summed;
    SummedIsZero([0xFF, 0x00]);
    SummedIsZero([0x00, 0x00]);
    assert Summed([0xFF, 0x00]) == IDLE by { SumOfTwo(0xFF, 0x00); }
    assert Summed([0x00, 0x00]) == RESET by { SumOfTwo(0x00, 0x00); }
  }

  lemma SumOfTwo(a: bv8, b: bv8)
    ensures Summed([a, b]) == [a, b, a ^ b]
  {
    hide Xor;
    XorLast([], a);
    XorLast([a], b);
    assert [] + [a] == [a] && [a] + [b] == [a, b];
    XorNone();
    NothingChanges(a);
  }

  lemma XorLast(p: Packet, b: bv8)
    ensures Xor(p + [b]) == Xor(p) ^ b
  {
    assert (p + [b])[..|p|] == p;
  }

  lemma NothingChanges(a: bv8)
    ensures 0 ^ a == a
  {
  }

  /** No frame is empty. */
  lemma {:induction false} FramesFull(blocks: seq<Block>, jobs: seq<Job>, t: Track)
    requires forall k :: 0 <= k < |blocks| ==> InTurn(blocks, k, jobs, t)
    ensures forall i :: 0 <= i < |Frames(blocks)| ==> Frames(blocks)[i] != []
    decreases |blocks|
  {
    if blocks != [] {
      var n := |blocks| - 1;
      forall l | 0 <= l < n ensures InTurn(blocks[..n], l, jobs, t) {
        assert InTurn(blocks, l, jobs, t);
        assert blocks[..n][..l] == blocks[..l];
      }
      FramesFull(blocks[..n], jobs, t);
      assert InTurn(blocks, n, jobs, t);
    }
  }
}

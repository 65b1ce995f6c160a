/** Small shared types. */
module Basics {
  type Byte = x: int | 0 <= x < 256
  type Word = x: int | 0 <= x < 65536

  /** The most bytes of a packet, without its checksum. */
  const MAX_PACKET_SIZE := 5

  datatype Option<+T> = None | Some(value: T)

  /** Fewer than `bound` numbers leave one below `bound` unused. */
  lemma {:induction false} Pigeonhole(s: seq<int>, bound: nat) returns (x: nat)
    requires |s| < bound
    ensures x < bound && x !in s
    decreases bound
  {
    var last := bound - 1;
    if last !in s {
      x := last;
    } else {
      var i :| 0 <= i < |s| && s[i] == last;
      var t := s[..i] + s[i + 1..];
      x := Pigeonhole(t, last);
      forall j | 0 <= j < |s| ensures s[j] != x {
        assert j < i ==> t[j] == s[j];
        assert j > i ==> t[j - 1] == s[j];
      }
    }
  }

  /** Distinct numbers below `bound` are at most that many. */
  lemma {:induction false} AtMost(s: seq<nat>, bound: nat)
    requires (forall i, j :: 0 <= i < j < |s| ==> s[i] != s[j]) && forall i :: 0 <= i < |s| ==> s[i] < bound
    ensures |s| <= bound
    decreases bound
  {
    if s != [] {
      assert s[0] < bound;
      var last := bound - 1;
      if last in s {
        var i :| 0 <= i < |s| && s[i] == last;
        var t := s[..i] + s[i + 1..];
        assert forall j :: 0 <= j < |t| ==> t[j] == s[if j < i then j else j + 1];
        AtMost(t, last);
      } else {
        AtMost(s, last);
      }
    }
  }
}

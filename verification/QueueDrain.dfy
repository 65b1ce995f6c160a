/**
 What goes out and what is left: airtime is conserved, and the queues drain.
 */
module QueueDrain {
  import opened Basics
  import opened QueueSpec

  function Total(q: seq<Slot>): nat {
    if q == [] then 0 else q[0].Airtime() + Total(q[1..])
  }

  /** Transmissions still to be made. */
  function Owed(q: Queues): nat {
    Total(q.high) + Total(q.low)
  }

  lemma {:induction false} TotalJoin(a: seq<Slot>, b: seq<Slot>)
    ensures Total(a + b) == Total(a) + Total(b)
  {
    if a == [] {
      assert a + b == b;
    } else {
      TotalJoin(a[1..], b);
      assert (a + b)[1..] == a[1..] + b;
    }
  }

  lemma TotalAt(q: seq<Slot>, i: nat)
    requires i < |q|
    ensures Total(q) == Total(q[..i]) + q[i].Airtime() + Total(q[i + 1..])
  {
    assert q == q[..i] + ([q[i]] + q[i + 1..]);
    TotalJoin(q[..i], [q[i]] + q[i + 1..]);
    assert ([q[i]] + q[i + 1..])[1..] == q[i + 1..];
  }

  /** Sending a slot uses up as much airtime as it takes. */
  lemma AfterOwes(q: seq<Slot>, i: nat, now: Word32)
    requires i < |q|
    ensures var (rest, jumps) := After(q, i, now);
            Total(q) == Total(jumps) + Total(rest) + SentOf(q[i]).repeats + 1
  {
    TotalAt(q, i);
    var s := q[i];
    if s.Loco() != 0 && s.repeat > 0 {
      var t := s.(repeat := s.repeat - 1);
      TotalAt(q[i := t], i);
      assert q[i := t][..i] == q[..i] && q[i := t][i + 1..] == q[i + 1..];
    } else {
      TotalJoin(q[..i], q[i + 1..]);
      if s.kind.AccOnPacket? {
        assert Total([TurnedOff(s, now)]) == TurnedOff(s, now).Airtime();
      }
    }
  }

  /** Something in the queues can go out now. */
  predicate Served(q: Queues, now: Word32) {
    FirstSendable(q.high, q.last, now, 0).Some? || FirstSendable(q.low, q.last, now, 0).Some?
  }

  /** scheduleNext takes off what is owed exactly what it puts on the track. */
  lemma NextOwes(q: Queues, force: bool, now: Word32)
    ensures var (q', sent) := NextSpec(q, force, now);
            && (Served(q, now) ==> sent.Some? && Owed(q) == Owed(q') + sent.value.repeats + 1)
            && (!Served(q, now) ==>
                  q'.high == q.high && q'.low == q.low && (force ==> sent == Some(IDLE) && q'.last == 0))
  {
    hide After, Total, SentOf;
    match FirstSendable(q.high, q.last, now, 0) {
      case Some(i) =>
        AfterOwes(q.high, i, now);
        TotalJoin(After(q.high, i, now).1, After(q.high, i, now).0);
      case None =>
        match FirstSendable(q.low, q.last, now, 0) {
          case Some(i) =>
            AfterOwes(q.low, i, now);
            TotalJoin(After(q.low, i, now).1, q.high);
          case None =>
        }
    }
  }

  /** scheduleNext again and again, forced or not, with nothing arriving. */
  function Ticks(q: Queues, ticks: seq<(bool, Word32)>): Queues
    decreases |ticks|
  {
    if ticks == [] then q else Ticks(NextSpec(q, ticks[0].0, ticks[0].1).0, ticks[1..])
  }

  /** The airtime given to queued packets. */
  function Aired(q: Queues, ticks: seq<(bool, Word32)>): nat
    decreases |ticks|
  {
    if ticks == [] then 0
    else
      var (q', sent) := NextSpec(q, ticks[0].0, ticks[0].1);
      (if Served(q, ticks[0].1) && sent.Some? then sent.value.repeats + 1 else 0) + Aired(q', ticks[1..])
  }

  /** Over any run with nothing arriving: what has gone out and what is left add up. */
  lemma {:induction false} AirtimeIsConserved(q: Queues, ticks: seq<(bool, Word32)>)
    ensures Owed(Ticks(q, ticks)) + Aired(q, ticks) == Owed(q)
    decreases |ticks|
  {
    hide NextSpec, Owed, Served;
    if ticks != [] {
      NextOwes(q, ticks[0].0, ticks[0].1);
      var q' := NextSpec(q, ticks[0].0, ticks[0].1).0;
      if !Served(q, ticks[0].1) { assert Owed(q') == Owed(q) by { SameQueues(q, q'); } }
      AirtimeIsConserved(q', ticks[1..]);
    }
  }

  lemma SameQueues(q: Queues, q': Queues)
    requires q'.high == q.high && q'.low == q.low
    ensures Owed(q') == Owed(q)
  {
  }

  predicate NoneDelayed(q: Queues, now: Word32) {
    && (forall i :: 0 <= i < |q.high| ==> !q.high[i].Delayed(now))
    && (forall i :: 0 <= i < |q.low| ==> !q.low[i].Delayed(now))
  }

  predicate Empty(q: Queues) {
    q.high == [] && q.low == []
  }

  /** With the last loco forgotten, anything that is not delayed can go out. */
  lemma ServedAfterIdle(q: Queues, now: Word32)
    requires !Empty(q) && NoneDelayed(q, now) && q.last == 0
    ensures Served(q, now)
  {
    if q.high != [] { assert q.high[0].Sendable(0, now); } else { assert q.low[0].Sendable(0, now); }
  }

  /** Once no off packet is delayed, two forced calls send at least one packet of the queues. */
  lemma TwoCallsProgress(q: Queues, t1: Word32, t2: Word32)
    requires t1 <= t2 && NoneDelayed(q, t1) && !Empty(q)
    ensures Owed(Ticks(q, [(true, t1), (true, t2)])) < Owed(q)
  {
    hide NextSpec, Owed, Served, NoneDelayed, Empty;
    NextOwes(q, true, t1);
    var q1 := NextSpec(q, true, t1).0;
    NextOwes(q1, true, t2);
    var q2 := NextSpec(q1, true, t2).0;
    TwoTicks(q, t1, t2);
    if !Served(q, t1) {
      SameQueues(q, q1);
      StillNoneDelayed(q, q1, t1, t2);
      ServedAfterIdle(q1, t2);
    } else if !Served(q1, t2) {
      SameQueues(q1, q2);
    }
  }

  lemma TwoTicks(q: Queues, t1: Word32, t2: Word32)
    ensures Ticks(q, [(true, t1), (true, t2)]) == NextSpec(NextSpec(q, true, t1).0, true, t2).0
  {
    hide NextSpec;
    var first, second: seq<(bool, Word32)> := [(true, t1), (true, t2)], [(true, t2)];
    var q1 := NextSpec(q, true, t1).0;
    assert first[1..] == second && |second[1..]| == 0;
    assert Ticks(q1, second) == Ticks(NextSpec(q1, true, t2).0, second[1..]);
  }

  lemma StillNoneDelayed(q: Queues, q1: Queues, t1: Word32, t2: Word32)
    requires t1 <= t2 && NoneDelayed(q, t1) && !Empty(q) && q1.high == q.high && q1.low == q.low
    ensures NoneDelayed(q1, t2) && !Empty(q1)
  {
  }

  /** Pairs of forced calls, each pair starting with no off packet delayed. */
  predicate Steady(q: Queues, pairs: seq<(Word32, Word32)>)
    decreases |pairs|
  {
    pairs == [] || (
      var (t1, t2) := pairs[0];
      t1 <= t2 && NoneDelayed(q, t1) && Steady(Ticks(q, [(true, t1), (true, t2)]), pairs[1..]))
  }

  function Pairs(q: Queues, pairs: seq<(Word32, Word32)>): Queues
    decreases |pairs|
  {
    if pairs == [] then q else Pairs(Ticks(q, [(true, pairs[0].0), (true, pairs[0].1)]), pairs[1..])
  }

  /** The queues drain: with nothing arriving and off packets let go when their time has come, they
      are empty after twice as many forced calls as there were transmissions owed. */
  lemma {:induction false} QueuesDrain(q: Queues, pairs: seq<(Word32, Word32)>)
    requires Steady(q, pairs)
    ensures |pairs| >= Owed(q) ==> Empty(Pairs(q, pairs))
    decreases |pairs|
  {
    hide Ticks, Owed, NoneDelayed, Empty;
    if pairs == [] {
      if Owed(q) == 0 { NothingOwed(q); }
    } else {
      var (t1, t2) := pairs[0];
      var q' := Ticks(q, [(true, t1), (true, t2)]);
      if Empty(q) { EmptyStays(q, t1, t2); } else { TwoCallsProgress(q, t1, t2); }
      QueuesDrain(q', pairs[1..]);
    }
  }

  lemma NothingOwed(q: Queues)
    requires Owed(q) == 0
    ensures Empty(q)
  {
  }

  lemma EmptyStays(q: Queues, t1: Word32, t2: Word32)
    requires Empty(q)
    ensures Owed(q) == 0 && Owed(Ticks(q, [(true, t1), (true, t2)])) == 0
  {
    TwoTicks(q, t1, t2);
  }
}

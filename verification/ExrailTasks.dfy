/**
 The ring of live EXRAIL tasks, in place: creation chains a task in after the one served last,
 destruction unchains it, and each loop serves the next one round.
 */
module ExrailTasks {
  import opened Basics
  import opened ExrailFlags

  class RingTask {
    var next: RingTask
    var taskId: nat
    const pc: int
    constructor (pc: int)
      ensures next == this && taskId == 255 && this.pc == pc
    {
      this.pc, taskId := pc, 255; // in case of overflow
      next := this;
    }
  }

  /** The task after position i of a ring. */
  function After<T>(ring: seq<T>, i: nat): T
    requires i < |ring|
  {
    if i + 1 < |ring| then ring[i + 1] else ring[0]
  }

  /** The ring after the task at its head moves to the back: the next one is served. */
  function Rotated<T>(ring: seq<T>): (r: seq<T>)
    ensures |r| == |ring|
  {
    if ring == [] then [] else ring[1..] + ring[..1]
  }

  /** Who is served in n turns. */
  function Turns<T>(ring: seq<T>, n: nat): (ts: seq<T>)
    requires ring != []
    ensures |ts| == n
    decreases n
  {
    if n == 0 then [] else [Rotated(ring)[0]] + Turns(Rotated(ring), n - 1)
  }

  /** Turn k serves the task k + 1 places round. */
  lemma {:induction false} TurnAt<T>(ring: seq<T>, n: nat, k: nat)
    requires k < n <= |ring|
    ensures Turns(ring, n)[k] == After(ring, k)
    decreases n
  {
    if k > 0 {
      TurnAt(Rotated(ring), n - 1, k - 1);
    }
  }

  /** In as many turns as there are tasks, each is served exactly once, the last-served last. */
  lemma FairTurns<T>(ring: seq<T>)
    requires ring != []
    ensures Turns(ring, |ring|) == ring[1..] + ring[..1]
    ensures multiset(Turns(ring, |ring|)) == multiset(ring)
  {
    hide Turns;
    forall k | 0 <= k < |ring| ensures Turns(ring, |ring|)[k] == (ring[1..] + ring[..1])[k] {
      TurnAt(ring, |ring|, k);
    }
    Halves(ring[..1], ring[1..]);
    assert ring == ring[..1] + ring[1..];
  }

  lemma TurnFirst<T>(ring: seq<T>, n: nat)
    requires ring != [] && n > 0
    ensures Turns(ring, n) == [Rotated(ring)[0]] + Turns(Rotated(ring), n - 1)
  {
  }

  lemma RotatedRange<T>(was: seq<T>, i: nat)
    requires i < |was|
    ensures Rotated(was[i..] + was[..i]) == was[i + 1..] + was[..i + 1]
  {
  }

  lemma Regroup<T>(a: seq<T>, x: T, b: seq<T>)
    ensures a + ([x] + b) == (a + [x]) + b
  {
  }

  /** After i of n turns of a ring: who was served, and who is still to be. */
  ghost predicate Going<T>(was: seq<T>, i: nat, n: nat, served: seq<T>, ring: seq<T>) {
    && ring != [] && was != [] && i <= n && Turns(was, n) == served + Turns(ring, n - i)
    && (n <= |was| ==> ring == was[i..] + was[..i])
  }

  lemma GoingRound<T>(was: seq<T>, n: nat)
    requires was != []
    ensures Going(was, 0, n, [], was)
  {
    hide Turns;
    assert was[0..] + was[..0] == was && [] + Turns(was, n) == Turns(was, n);
  }

  lemma GoingOn<T>(was: seq<T>, i: nat, n: nat, served: seq<T>, ring: seq<T>)
    requires Going(was, i, n, served, ring) && i < n
    ensures ring != [] && Rotated(ring) != [] && Going(was, i + 1, n, served + [Rotated(ring)[0]], Rotated(ring))
  {
    hide Turns;
    TurnFirst(ring, n - i);
    if i < |was| { RotatedRange(was, i); }
    Regroup(served, Rotated(ring)[0], Turns(Rotated(ring), n - i - 1));
  }

  lemma GoneRound<T>(was: seq<T>, n: nat, served: seq<T>, ring: seq<T>)
    requires Going(was, n, n, served, ring)
    ensures served == Turns(was, n)
    ensures n == |was| ==> ring == was && multiset(served) == multiset(was)
  {
    assert Turns(ring, 0) == [] && served + [] == served;
    if n == |was| {
      FairTurns(was);
      assert was[n..] + was[..n] == was;
    }
  }

  lemma Halves<T>(a: seq<T>, b: seq<T>)
    ensures multiset(a + b) == multiset(b + a)
  {
  }

  /** The first flag entry not marked as a task id; 255 when all are. */
  function FirstFree(f: Flags, from: nat): (id: nat)
    requires from <= MAX_FLAGS
    ensures id == 255 || (from <= id < MAX_FLAGS && !GetFlag(f, id, TASK_FLAG))
    ensures (exists x :: from <= x < MAX_FLAGS && !GetFlag(f, x, TASK_FLAG)) ==> !GetFlag(f, id, TASK_FLAG)
    decreases MAX_FLAGS - from
  {
    if from == MAX_FLAGS then 255
    else if !GetFlag(f, from, TASK_FLAG) then from
    else FirstFree(f, from + 1)
  }

  lemma TaskBit(f: Flags, id: nat, x: nat)
    requires x < MAX_FLAGS
    ensures GetFlag(SetFlag(f, id, TASK_FLAG, 0), x, TASK_FLAG) <==> x == id || GetFlag(f, x, TASK_FLAG)
    ensures GetFlag(SetFlag(f, id, 0, TASK_FLAG), x, TASK_FLAG) <==> x != id && GetFlag(f, x, TASK_FLAG)
  {
    assert ((f[x] & !0) | TASK_FLAG) & TASK_FLAG != 0;
    assert ((f[x] & !TASK_FLAG) | 0) & TASK_FLAG == 0;
  }

  /** The ids of live tasks are distinct, and TASK_FLAG marks exactly those ids. */
  predicate IdsOk(ids: seq<nat>, f: Flags) {
    && (forall i, j :: 0 <= i < j < |ids| ==> ids[i] != ids[j])
    && (forall x :: x in ids ==> x < MAX_FLAGS)
    && (forall x :: 0 <= x < MAX_FLAGS ==> (GetFlag(f, x, TASK_FLAG) <==> x in ids))
  }

  /** A newcomer goes second. */
  function Joined<T>(s: seq<T>, x: T): seq<T> {
    if s == [] then [x] else [s[0], x] + s[1..]
  }

  /** The ring from just after position k round to just before it. */
  function Without<T>(s: seq<T>, k: nat): (r: seq<T>)
    requires k < |s|
    ensures |r| == |s| - 1
  {
    s[k + 1..] + s[..k]
  }

  /** The old position of what stands at position j once position k is gone. */
  function Round(n: nat, k: nat, j: nat): (m: nat)
    requires k < n && j < n - 1
    ensures m < n && m != k
  {
    if k + 1 + j < n then k + 1 + j else k + 1 + j - n
  }

  /** In the ring without position k, everybody has the neighbour it had, but for the one before
      the gap, whose neighbour is the one after it. */
  lemma WithoutNeighbours<T>(s: seq<T>, k: nat)
    requires k < |s| && |s| > 1
    ensures var r, n := Without(s, k), |s|;
            && r[0] == After(s, k)
            && (forall j :: 0 <= j < n - 1 ==> r[j] == s[Round(n, k, j)])
            && (forall j :: 0 <= j < n - 2 ==> After(r, j) == After(s, Round(n, k, j)))
            && r[n - 2] == s[if k > 0 then k - 1 else n - 1] && After(r, n - 2) == After(s, k)
    ensures var n := |s|; forall j :: 0 <= j < n - 2 ==> Round(n, k, j) != if k > 0 then k - 1 else n - 1
  {
  }

  /** A member is its own neighbour exactly when it is alone. */
  lemma Alone<T>(s: seq<T>, k: nat)
    requires k < |s| && forall i, j :: 0 <= i < j < |s| ==> s[i] != s[j]
    ensures After(s, k) == s[k] <==> |s| == 1
  {
  }

  /** While fewer than 256 tasks live, a new one gets an id of its own. */
  lemma JoinKeepsIds(ids: seq<nat>, f: Flags)
    requires IdsOk(ids, f) && |ids| < 256
    ensures var id := FirstFree(f, 0);
            !GetFlag(f, id, TASK_FLAG) && IdsOk(Joined(ids, id), SetFlag(f, id, TASK_FLAG, 0))
  {
    hide SetFlag, GetFlag;
    var id := FirstFree(f, 0);
    var free := Pigeonhole(ids, MAX_FLAGS);
    assert !GetFlag(f, free, TASK_FLAG);
    var ids' := Joined(ids, id);
    assert forall x :: x in ids' <==> x == id || x in ids;
    assert id !in ids;
    forall x | 0 <= x < MAX_FLAGS
      ensures GetFlag(SetFlag(f, id, TASK_FLAG, 0), x, TASK_FLAG) <==> x in ids'
    {
      TaskBit(f, id, x);
    }
  }

  /** A task that ends gives its id back. */
  lemma LeaveKeepsIds(ids: seq<nat>, f: Flags, k: nat)
    requires IdsOk(ids, f) && k < |ids|
    ensures IdsOk(Without(ids, k), SetFlag(f, ids[k], 0, TASK_FLAG))
  {
    hide SetFlag, GetFlag;
    var ids' := Without(ids, k);
    assert forall x :: x in ids' <==> x in ids && x != ids[k] by {
      assert ids == ids[..k] + [ids[k]] + ids[k + 1..];
    }
    forall x | 0 <= x < MAX_FLAGS
      ensures GetFlag(SetFlag(f, ids[k], 0, TASK_FLAG), x, TASK_FLAG) <==> x in ids'
    {
      TaskBit(f, ids[k], x);
    }
  }

  /** With 256 alive the next task shares id 255 with one of them, and the ids are exact no more. */
  lemma OverflowSharesId(ids: seq<nat>, f: Flags)
    requires IdsOk(ids, f) && |ids| == 256
    ensures FirstFree(f, 0) == 255 && 255 in ids
    ensures !IdsOk(Joined(ids, 255), f)
  {
    hide GetFlag;
    forall x: nat | x < MAX_FLAGS ensures x in ids {
      if x !in ids {
        var more := ids + [x];
        forall i | 0 <= i < |more| ensures more[i] < MAX_FLAGS && (i < |ids| ==> more[i] in ids) {
          if i < |ids| { assert ids[i] in ids; }
        }
        AtMost(more, MAX_FLAGS);
      }
    }
    assert 255 in ids;
    var i :| 0 <= i < |ids| && ids[i] == 255;
    assert Joined(ids, 255)[1] == 255 && Joined(ids, 255)[if i == 0 then 0 else i + 1] == 255;
  }

  /** The one served last is killed: its successor, which would have been next, is served last. */
  lemma KilledSkipsNext<T>(ring: seq<T>)
    requires |ring| >= 2
    ensures Turns(Without(ring, 0), |ring| - 1) == ring[2..] + [ring[1]]
  {
    hide Turns;
    assert Without(ring, 0) == ring[1..];
    FairTurns(ring[1..]);
  }

  // ---------------------------------------------------------------- ids over whole runs

  /** The ids of the live tasks in ring order, and the flags. */
  datatype Census = Census(ids: seq<nat>, flags: Flags)

  datatype Change = Born | Gone(k: nat) | AllGone | Turned | Written(id: nat, on: bv8, off: bv8)

  predicate Exact(c: Census) {
    IdsOk(c.ids, c.flags)
  }

  function Cleared(c: Census): Census
    decreases |c.ids|
  {
    if c.ids == [] then c else Cleared(Leave(c, 0))
  }

  function Leave(c: Census, k: nat): Census
    requires k < |c.ids|
  {
    Census(Without(c.ids, k), SetFlag(c.flags, c.ids[k], 0, TASK_FLAG))
  }

  function Enter(c: Census): Census {
    var id := FirstFree(c.flags, 0);
    Census(Joined(c.ids, id), if GetFlag(c.flags, id, TASK_FLAG) then c.flags else SetFlag(c.flags, id, TASK_FLAG, 0))
  }

  /** A task is created or ends, all end, the next one's turn comes, or other flag bits are written. */
  function Do(c: Census, ch: Change): Census {
    match ch
    case Born => Enter(c)
    case Gone(k) => if k < |c.ids| then Leave(c, k) else c
    case AllGone => Cleared(c)
    case Turned => c.(ids := Rotated(c.ids))
    case Written(id, on, off) =>
      if TASK_FLAG & on == 0 && TASK_FLAG & off == 0 then c.(flags := SetFlag(c.flags, id, on, off)) else c
  }

  function Lived(c: Census, changes: seq<Change>): Census
    decreases |changes|
  {
    if changes == [] then c else Lived(Do(c, changes[0]), changes[1..])
  }

  lemma IdsAtMost(c: Census)
    requires Exact(c)
    ensures |c.ids| <= MAX_FLAGS
  {
    hide GetFlag;
    forall i | 0 <= i < |c.ids| ensures c.ids[i] < MAX_FLAGS { assert c.ids[i] in c.ids; }
    AtMost(c.ids, MAX_FLAGS);
  }

  /** In the turned ring everybody is one place further on, and has the neighbour it had. */
  lemma RotatedAt<T>(s: seq<T>)
    ensures |Rotated(s)| == |s| && (s == [] ==> Rotated(s) == [])
    ensures forall j :: 0 <= j < |s| ==> Rotated(s)[j] == After(s, j) == s[if j + 1 < |s| then j + 1 else 0]
    ensures forall j :: 0 <= j < |s| ==> After(Rotated(s), j) == After(s, if j + 1 < |s| then j + 1 else 0)
  {
  }

  lemma RotatedKeeps(ids: seq<nat>, f: Flags)
    requires IdsOk(ids, f)
    ensures IdsOk(Rotated(ids), f)
  {
    hide GetFlag;
    if ids != [] {
      var r := Rotated(ids);
      assert forall x :: x in r <==> x in ids by { assert ids == ids[..1] + ids[1..]; }
    }
  }

  lemma WrittenKeeps(ids: seq<nat>, f: Flags, id: nat, on: bv8, off: bv8)
    requires TASK_FLAG & on == 0 && TASK_FLAG & off == 0
    ensures IdsOk(ids, SetFlag(f, id, on, off)) <==> IdsOk(ids, f)
    ensures Marked(ids, SetFlag(f, id, on, off)) <==> Marked(ids, f)
  {
    hide SetFlag;
    forall x | 0 <= x < MAX_FLAGS
      ensures GetFlag(SetFlag(f, id, on, off), x, TASK_FLAG) == GetFlag(f, x, TASK_FLAG)
    {
      SetFlagFrame(f, id, on, off, TASK_FLAG, x);
    }
  }

  /** One more change, while there are no more than 256. */
  lemma ChangeKeeps(c: Census, ch: Change)
    requires Exact(c) && |Do(c, ch).ids| <= MAX_FLAGS
    ensures Exact(Do(c, ch))
  {
    hide SetFlag, GetFlag, IdsOk, FirstFree, Without;
    match ch {
      case Born => JoinKeepsIds(c.ids, c.flags);
      case Gone(k) => if k < |c.ids| { LeaveKeepsIds(c.ids, c.flags, k); }
      case AllGone => ClearedKeeps(c);
      case Turned => RotatedKeeps(c.ids, c.flags);
      case Written(id, on, off) =>
        if TASK_FLAG & on == 0 && TASK_FLAG & off == 0 { WrittenKeeps(c.ids, c.flags, id, on, off); }
    }
  }

  lemma {:induction false} ClearedKeeps(c: Census)
    requires Exact(c)
    ensures Exact(Cleared(c))
    decreases |c.ids|
  {
    hide SetFlag, GetFlag, IdsOk, Without;
    if c.ids != [] {
      LeaveKeepsIds(c.ids, c.flags, 0);
      ClearedKeeps(Leave(c, 0));
    }
  }

  /** Never more than 256 after any of these. */
  predicate NeverMore(c: Census, changes: seq<Change>) {
    forall n :: 0 <= n <= |changes| ==> |Lived(c, changes[..n]).ids| <= 256
  }

  predicate AlwaysExact(c: Census, changes: seq<Change>) {
    forall n :: 0 <= n <= |changes| ==> Exact(Lived(c, changes[..n]))
  }

  lemma {:induction false} FewAreExact(c: Census, changes: seq<Change>)
    requires Exact(c) && NeverMore(c, changes)
    ensures AlwaysExact(c, changes)
    decreases |changes|
  {
    hide IdsOk, Do;
    assert changes[..0] == [];
    if changes != [] {
      var ch, rest := changes[0], changes[1..];
      forall n | 0 <= n <= |rest| ensures Lived(Do(c, ch), rest[..n]) == Lived(c, changes[..n + 1]) {
        LivedStep(c, changes, n);
      }
      assert |Lived(Do(c, ch), rest[..0]).ids| <= MAX_FLAGS && rest[..0] == [];
      ChangeKeeps(c, ch);
      FewAreExact(Do(c, ch), rest);
      forall n | 0 <= n <= |changes| ensures Exact(Lived(c, changes[..n])) {
        if n > 0 { assert Lived(Do(c, ch), rest[..n - 1]) == Lived(c, changes[..n]); }
      }
    }
  }

  lemma LivedStep(c: Census, changes: seq<Change>, n: nat)
    requires changes != [] && n <= |changes| - 1
    ensures Lived(Do(c, changes[0]), changes[1..][..n]) == Lived(c, changes[..n + 1])
  {
    hide Do;
    assert changes[..n + 1][0] == changes[0] && changes[..n + 1][1..] == changes[1..][..n];
  }

  /** Every mark is a live task's, also when ids are shared. */
  predicate Marked(ids: seq<nat>, f: Flags) {
    forall x :: 0 <= x < MAX_FLAGS && GetFlag(f, x, TASK_FLAG) ==> x in ids
  }

  lemma LeaveMarks(c: Census, k: nat)
    requires Marked(c.ids, c.flags) && k < |c.ids|
    ensures var c' := Leave(c, k); Marked(c'.ids, c'.flags)
  {
    hide SetFlag, GetFlag;
    var c' := Leave(c, k);
    forall x | 0 <= x < MAX_FLAGS && GetFlag(c'.flags, x, TASK_FLAG) ensures x in c'.ids {
      TaskBit(c.flags, c.ids[k], x);
      assert c.ids == c.ids[..k] + [c.ids[k]] + c.ids[k + 1..];
    }
  }

  lemma EnterMarks(c: Census)
    requires Marked(c.ids, c.flags)
    ensures var c' := Enter(c); Marked(c'.ids, c'.flags)
  {
    hide SetFlag, GetFlag, FirstFree;
    var id, c' := FirstFree(c.flags, 0), Enter(c);
    assert forall x :: x in c.ids || x == id ==> x in c'.ids;
    forall x | 0 <= x < MAX_FLAGS && GetFlag(c'.flags, x, TASK_FLAG) ensures x in c'.ids {
      TaskBit(c.flags, id, x);
    }
  }

  lemma {:induction false} ClearedMarks(c: Census)
    requires Marked(c.ids, c.flags)
    ensures var c' := Cleared(c); c'.ids == [] && Marked(c'.ids, c'.flags)
    decreases |c.ids|
  {
    hide Marked, Leave;
    if c.ids != [] {
      LeaveMarks(c, 0);
      assert |Leave(c, 0).ids| < |c.ids| by { LeaveLess(c); }
      ClearedMarks(Leave(c, 0));
    }
  }

  lemma LeaveLess(c: Census)
    requires c.ids != []
    ensures |Leave(c, 0).ids| < |c.ids|
  {
  }

  lemma {:induction false} LivedMarks(c: Census, changes: seq<Change>)
    requires Marked(c.ids, c.flags)
    ensures var c' := Lived(c, changes); Marked(c'.ids, c'.flags)
    decreases |changes|
  {
    hide Enter, Leave, Cleared, SetFlag;
    if changes != [] {
      match changes[0] {
        case Born => EnterMarks(c);
        case Gone(k) => if k < |c.ids| { LeaveMarks(c, k); }
        case AllGone => ClearedMarks(c);
        case Turned => if c.ids != [] { assert c.ids == c.ids[..1] + c.ids[1..]; }
        case Written(id, on, off) =>
          if TASK_FLAG & on == 0 && TASK_FLAG & off == 0 { WrittenKeeps(c.ids, c.flags, id, on, off); }
      }
      LivedMarks(Do(c, changes[0]), changes[1..]);
    }
  }

  /** From any time on when there was no task, in whatever way that came about: the ids are distinct
      and the marks exact at every moment since, if and only if there were never more than 256. */
  lemma ExactExactlyWhileFew(c: Census, before: seq<Change>, changes: seq<Change>)
    requires c.ids == [] && Marked(c.ids, c.flags) && Lived(c, before).ids == []
    ensures var c0 := Lived(c, before); AlwaysExact(c0, changes) <==> NeverMore(c0, changes)
  {
    hide Do, Lived;
    LivedMarks(c, before);
    var c0 := Lived(c, before);
    assert Exact(c0);
    if NeverMore(c0, changes) { FewAreExact(c0, changes); }
    if AlwaysExact(c0, changes) {
      forall n | 0 <= n <= |changes| ensures |Lived(c0, changes[..n]).ids| <= MAX_FLAGS {
        assert Exact(Lived(c0, changes[..n]));
        IdsAtMost(Lived(c0, changes[..n]));
      }
    }
  }

  class Exrail {
    var loopTask: RingTask?
    var pausingTask: RingTask?
    var flags: array<bv8>
    /** The live tasks, the one served last first, and their ids. */
    ghost var ring: seq<RingTask>
    ghost var ids: seq<nat>

    ghost predicate RingOk()
      reads this, ring
    {
      && flags.Length == MAX_FLAGS && |ids| == |ring|
      && (loopTask == null <==> ring == [])
      && (ring != [] ==> loopTask == ring[0])
      && (forall i, j :: 0 <= i < j < |ring| ==> ring[i] != ring[j])
      && (forall i :: 0 <= i < |ring| ==> ring[i].next == After(ring, i))
      && (forall i :: 0 <= i < |ring| ==> ring[i].taskId == ids[i])
    }

    /** The ids of the live tasks, and the flags. */
    ghost function Now(): Census
      requires flags.Length == MAX_FLAGS
      reads this, flags
    {
      Census(ids, flags[..])
    }

    constructor ()
      ensures RingOk() && ring == [] && fresh(flags) && IdsOk(ids, flags[..]) && pausingTask == null
    {
      loopTask, pausingTask, ring, ids := null, null, [], [];
      flags := new bv8[MAX_FLAGS](_ => 0);
    }

    method PutFlag(id: nat, on: bv8, off: bv8)
      requires flags.Length == MAX_FLAGS
      modifies flags
      ensures flags[..] == SetFlag(old(flags[..]), id, on, off)
    {
      if id >= MAX_FLAGS { return; }
      flags[id] := (flags[id] & !off) | on;
    }

    /** The constructor's search for an unused id. */
    method TakeId() returns (id: nat)
      requires flags.Length == MAX_FLAGS
      modifies flags
      ensures id == FirstFree(old(flags[..]), 0)
      ensures flags[..] == if GetFlag(old(flags[..]), id, TASK_FLAG) then old(flags[..])
                           else SetFlag(old(flags[..]), id, TASK_FLAG, 0)
    {
      id := 255;
      var f := 0;
      while f < MAX_FLAGS
        invariant 0 <= f <= MAX_FLAGS && id == 255 && flags[..] == old(flags[..])
        invariant FirstFree(flags[..], 0) == FirstFree(flags[..], f)
        invariant forall x :: 0 <= x < f ==> GetFlag(flags[..], x, TASK_FLAG)
      {
        if flags[f] & TASK_FLAG == 0 {
          PutFlag(f, TASK_FLAG, 0);
          return f;
        }
        f := f + 1;
      }
    }

    /** Chain a task in after the one served last. */
    method Chain(t: RingTask)
      requires RingOk() && t !in ring && t.next == t
      modifies this`loopTask, this`ring, this`ids, t`next, (if loopTask == null then {} else {loopTask})`next
      ensures RingOk() && flags == old(flags)
      ensures ring == Joined(old(ring), t) && ids == Joined(old(ids), t.taskId)
    {
      if loopTask == null {
        loopTask := t;
      } else {
        t.next := loopTask.next;
        loopTask.next := t;
      }
      ring, ids := Joined(ring, t), Joined(ids, t.taskId);
    }

    /** new RMFT2: an unused id, and a place in the ring. */
    method Create(pc: int) returns (t: RingTask)
      requires RingOk()
      modifies this`loopTask, this`ring, this`ids, flags, (if loopTask == null then {} else {loopTask})`next
      ensures RingOk() && fresh(t) && t.pc == pc && flags == old(flags)
      ensures flags[..] == if GetFlag(old(flags[..]), t.taskId, TASK_FLAG) then old(flags[..])
                           else SetFlag(old(flags[..]), t.taskId, TASK_FLAG, 0)
      ensures ring == Joined(old(ring), t) && ids == Joined(old(ids), t.taskId)
      ensures t.taskId == FirstFree(old(flags[..]), 0)
      ensures Now() == Do(old(Now()), Born)
      ensures old(IdsOk(ids, flags[..])) && |old(ring)| < MAX_FLAGS ==> IdsOk(ids, flags[..])
    {
      hide IdsOk, GetFlag, SetFlag, Joined;
      t := new RingTask(pc);
      ghost var f0 := flags[..];
      var id := TakeId();
      t.taskId := id;
      if IdsOk(ids, f0) && |ring| < MAX_FLAGS { JoinKeepsIds(ids, f0); }
      Chain(t);
    }

    /** The destructor's walk to the task before t. */
    method Before(t: RingTask, ghost k: nat) returns (prev: RingTask)
      requires RingOk() && k < |ring| && ring[k] == t && |ring| > 1
      ensures prev == ring[if k > 0 then k - 1 else |ring| - 1]
    {
      ghost var n := |ring|;
      prev := t.next;
      ghost var i := if k + 1 < n then k + 1 else 0;
      while prev.next != t
        invariant 0 <= i < n && prev == ring[i] && i != k
        decreases if i > k then k + n - i else k - i
      {
        prev := prev.next;
        i := if i + 1 < n then i + 1 else 0;
      }
    }

    /** Unchain a task, and leave the ring at the task that came next. */
    method Unchain(t: RingTask, ghost k: nat)
      requires RingOk() && k < |ring| && ring[k] == t
      modifies this`loopTask, this`ring, this`ids, ring`next
      ensures RingOk() && flags == old(flags)
      ensures ring == Without(old(ring), k) && ids == Without(old(ids), k)
    {
      hide Without, After;
      ghost var s, n := ring, |ring|;
      Alone(s, k);
      if t.next == t {
        loopTask := null;
        ring, ids := Without(ring, k), Without(ids, k);
        return;
      }
      var prev := Before(t, k);
      prev.next := t.next;
      loopTask := t.next;
      ring, ids := Without(ring, k), Without(ids, k);
      WithoutNeighbours(s, k);
      WithoutNeighbours(old(ids), k);
      forall j | 0 <= j < n - 1 ensures ring[j].next == After(ring, j) {
        ghost var m := Round(n, k, j);
        assert ring[j] == s[m];
        if j < n - 2 { assert s[m] != prev; }
      }
    }

    /** ~RMFT2: give the id back and leave the ring. */
    method Destroy(t: RingTask, ghost k: nat)
      requires RingOk() && k < |ring| && ring[k] == t
      modifies this`loopTask, this`ring, this`ids, flags, ring`next
      ensures RingOk() && flags == old(flags)
      ensures ring == Without(old(ring), k) && ids == Without(old(ids), k)
      ensures flags[..] == SetFlag(old(flags[..]), t.taskId, 0, TASK_FLAG)
      ensures Now() == Do(old(Now()), Gone(k))
      ensures old(IdsOk(ids, flags[..])) ==> IdsOk(ids, flags[..])
    {
      hide IdsOk, GetFlag, SetFlag, Without;
      if IdsOk(ids, flags[..]) { LeaveKeepsIds(ids, flags[..], k); }
      PutFlag(t.taskId, 0, TASK_FLAG);
      Unchain(t, k);
    }

    /** KILLALL. */
    method KillAll()
      requires RingOk()
      modifies this`loopTask, this`ring, this`ids, flags, ring`next
      ensures RingOk() && ring == [] && flags == old(flags)
      ensures Now() == Do(old(Now()), AllGone)
      ensures old(IdsOk(ids, flags[..])) ==> IdsOk([], flags[..])
      ensures forall x :: 0 <= x < MAX_FLAGS ==> flags[..][x] & !TASK_FLAG == old(flags[..])[x] & !TASK_FLAG
    {
      hide IdsOk, GetFlag, SetFlag, After;
      while loopTask != null
        invariant RingOk() && flags == old(flags) && Cleared(Now()) == Cleared(old(Now()))
        invariant forall i :: 0 <= i < |ring| ==> ring[i] in old(ring)
        invariant old(IdsOk(ids, flags[..])) ==> IdsOk(ids, flags[..])
        invariant forall x :: 0 <= x < MAX_FLAGS ==> flags[..][x] & !TASK_FLAG == old(flags[..])[x] & !TASK_FLAG
        decreases |ring|
      {
        ghost var f, id := flags[..], loopTask.taskId;
        Destroy(loopTask, 0);
        forall x | 0 <= x < MAX_FLAGS ensures flags[..][x] & !TASK_FLAG == f[x] & !TASK_FLAG {
          SetFlagFrame(f, id, 0, TASK_FLAG, !TASK_FLAG, x);
        }
      }
    }

    /** loop: one task on round the ring; while a task pauses the rest, only it is served. */
    method Loop() returns (served: RingTask?)
      requires RingOk()
      modifies this`loopTask, this`ring, this`ids
      ensures RingOk() && ring == Rotated(old(ring)) && ids == Rotated(old(ids))
      ensures served == if ring == [] || (pausingTask != null && pausingTask != ring[0]) then null else ring[0]
      ensures flags == old(flags) && Now() == Do(old(Now()), Turned)
      ensures old(IdsOk(ids, flags[..])) ==> IdsOk(ids, flags[..])
    {
      hide GetFlag, IdsOk, After, Rotated;
      if IdsOk(ids, flags[..]) { RotatedKeeps(ids, flags[..]); }
      if loopTask == null { return null; }
      RotatedAt(ring);
      RotatedAt(ids);
      loopTask := loopTask.next;
      ring, ids := Rotated(ring), Rotated(ids);
      return if pausingTask == null || pausingTask == loopTask then loopTask else null;
    }

    lemma FlagsFit()
      requires RingOk()
      ensures flags.Length == MAX_FLAGS
    {
    }

    /** loop, called n times with nobody pausing the rest, and nobody coming or going: in as many calls
        as there are tasks each of them is served once, and the ring is as it was. */
    method LoopRepeatedly(n: nat) returns (served: seq<RingTask>)
      requires RingOk() && pausingTask == null && ring != []
      modifies this`loopTask, this`ring, this`ids
      ensures RingOk() && flags == old(flags) && served == Turns(old(ring), n)
      ensures n == |old(ring)| ==> ring == old(ring) && multiset(served) == multiset(old(ring))
      ensures old(IdsOk(ids, flags[..])) ==> IdsOk(ids, flags[..])
    {
      hide IdsOk, RingOk, Do, Turns, Rotated, Now, Round;
      FlagsFit();
      served := [];
      var i := 0;
      ghost var was, exact := ring, IdsOk(ids, flags[..]);
      GoingRound(was, n);
      while i < n
        invariant RingOk() && flags == old(flags) && pausingTask == null && Going(was, i, n, served, ring)
        invariant flags.Length == MAX_FLAGS && (exact ==> IdsOk(ids, flags[..]))
      {
        GoingOn(was, i, n, served, ring);
        var t := Loop();
        served := served + [t];
        i := i + 1;
      }
      GoneRound(was, n, served, ring);
    }
  }
}

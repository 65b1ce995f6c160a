/**
 Reminders: speed and function packets for every loco in the table, in turn.
 */
module Reminders {
  import opened Basics

  const GROUPS := 5

  /** The function groups that have been touched. */
  type Groups = g: seq<bool> | |g| == GROUPS witness [false, false, false, false, false]

  /** What a reminder depends on: consist followers have no speed reminders, and a function group is
      reminded once it has been touched. */
  datatype Row = Row(follower: bool, groups: Groups)

  /** loopStatus 0, 2, 4, 6, 8 is for speeds, 1, 3, 5, 7, 9 for the function groups. */
  predicate IsSpeed(status: nat) {
    status % 2 == 0
  }

  /** issueReminder sends something. */
  predicate Due(row: Row, status: nat)
    requires status < 10
  {
    if IsSpeed(status) then !row.follower else row.groups[status / 2]
  }

  /** nextLocoReminder as a position, |table| for none; and loopStatus. */
  datatype Turn = Turn(at: nat, status: nat)

  /** A reminder for the loco at a position, in a loop status. */
  datatype Sent = Sent(row: nat, status: nat)

  function FirstDue(table: seq<Row>, status: nat, from: nat): (r: nat)
    requires status < 10 && from <= |table|
    ensures from <= r <= |table|
    ensures r < |table| ==> Due(table[r], status)
    ensures forall k :: from <= k < r ==> !Due(table[k], status)
    decreases |table| - from
  {
    if from == |table| then from else if Due(table[from], status) then from else FirstDue(table, status, from + 1)
  }

  function NextStatus(status: nat): nat {
    if status + 1 > 9 then 0 else status + 1
  }

  /** issueReminders; modified says that the chain of locos was changed since the last call. */
  function Issue(t: Turn, table: seq<Row>, modified: bool): (r: (Turn, Option<Sent>))
    requires t.status < 10 && (modified || t.at <= |table|)
    ensures r.0.status < 10 && r.0.at <= |table|
  {
    var restart := modified || t.at == |table|;
    if restart && table == [] then (Turn(0, t.status), None)
    else
      var from, status := if restart then 0 else t.at, if restart then NextStatus(t.status) else t.status;
      var i := FirstDue(table, status, from);
      if i < |table| then (Turn(i + 1, status), Some(Sent(i, status))) else (Turn(|table|, status), None)
  }

  /** Calls with no loco added or forgotten; the function groups may change at any time. */
  predicate SameLocos(a: seq<Row>, b: seq<Row>) {
    |a| == |b| && forall i :: 0 <= i < |a| ==> a[i].follower == b[i].follower
  }

  predicate Steady(tables: seq<seq<Row>>) {
    forall j, l :: 0 <= j < |tables| && 0 <= l < |tables| ==> SameLocos(tables[j], tables[l])
  }

  /** How many more calls loco i's next speed reminder takes, at most. */
  function Wait(t: Turn, n: nat, i: nat): nat
    requires t.at <= n && i < n
  {
    if !IsSpeed(t.status) then (n - t.at) + i + 1
    else if t.at <= i then i + 1 - t.at
    else (n - t.at) + n + i + 1
  }

  lemma WaitIsShort(t: Turn, n: nat, i: nat)
    requires t.at <= n && i < n
    ensures Wait(t, n, i) <= 2 * n
  {
  }

  /** Each call either reminds loco i of its speed or brings that closer. */
  lemma WaitShrinks(t: Turn, table: seq<Row>, i: nat)
    requires t.status < 10 && t.at <= |table| && i < |table| && !table[i].follower
    ensures var (t', sent) := Issue(t, table, false);
            (sent.Some? && sent.value.row == i && IsSpeed(sent.value.status)) ||
                Wait(t', |table|, i) < Wait(t, |table|, i)
  {
    hide FirstDue;
  }

  /** With the table unchanged but for function groups, every loco that is no follower has a speed
      reminder within any 2n calls. */
  lemma {:induction false} SpeedWithinTwoRounds(t: Turn, tables: seq<seq<Row>>, i: nat) returns (k: nat)
    requires t.status < 10 && tables != [] && t.at <= |tables[0]| && i < |tables[0]| && !tables[0][i].follower
    requires Steady(tables)
    requires |tables| >= Wait(t, |tables[0]|, i)
    ensures k < |tables| && k < Wait(t, |tables[0]|, i)
    ensures var sent := Calls(t, tables)[k]; sent.Some? && sent.value.row == i && IsSpeed(sent.value.status)
    decreases |tables|
  {
    hide FirstDue, Issue, Wait;
    WaitShrinks(t, tables[0], i);
    var (t', sent) := Issue(t, tables[0], false);
    if sent.Some? && sent.value.row == i && IsSpeed(sent.value.status) {
      WaitPositive(t, |tables[0]|, i);
      k := 0;
    } else {
      WaitPositive(t', |tables[0]|, i);
      assert SameLocos(tables[0], tables[1]);
      var k' := SpeedWithinTwoRounds(t', tables[1..], i);
      k := k' + 1;
    }
  }

  lemma WaitPositive(t: Turn, n: nat, i: nat)
    requires t.at <= n && i < n
    ensures Wait(t, n, i) >= 1
  {
  }

  /** The reminders of successive calls. */
  function Calls(t: Turn, tables: seq<seq<Row>>): (r: seq<Option<Sent>>)
    requires t.status < 10 && (tables != [] ==> t.at <= |tables[0]|)
    requires Steady(tables)
    ensures |r| == |tables|
    decreases |tables|
  {
    if tables == [] then []
    else
      var (t', sent) := Issue(t, tables[0], false);
      [sent] + Calls(t', tables[1..])
  }

  /** In any 2n consecutive calls, from any point on. */
  lemma AnyTwoRounds(t: Turn, tables: seq<seq<Row>>, i: nat) returns (k: nat)
    requires t.status < 10 && tables != [] && t.at <= |tables[0]| && i < |tables[0]| && !tables[0][i].follower
    requires Steady(tables)
    requires |tables| == 2 * |tables[0]|
    ensures k < |tables|
    ensures var sent := Calls(t, tables)[k]; sent.Some? && sent.value.row == i && IsSpeed(sent.value.status)
  {
    hide Calls, Wait;
    WaitIsShort(t, |tables[0]|, i);
    k := SpeedWithinTwoRounds(t, tables, i);
  }

  /** Calls that m rounds take, at most. */
  function Rounds(m: nat, n: nat): nat {
    if m == 0 then 0 else n + Rounds(m - 1, n)
  }

  lemma {:induction false} RoundsUpTo(m: nat, k: nat, n: nat)
    requires m <= k
    ensures Rounds(m, n) <= Rounds(k, n) == k * n
    decreases k
  {
    if k > 0 { RoundsUpTo(if m == 0 then 0 else m - 1, k - 1, n); }
  }

  /** How many loop states from one to another, at least one. */
  function Ahead(status: nat, want: nat): (d: nat)
    requires status < 10 && want < 10
    ensures 1 <= d <= 10
  {
    if want > status then want - status else want + 10 - status
  }

  /** How many more calls it takes, at most, until loco i is reminded in loop state want. */
  function StateWait(t: Turn, n: nat, i: nat, want: nat): nat
    requires t.at <= n && i < n && t.status < 10 && want < 10
  {
    if t.status == want && t.at <= i then i + 1 - t.at
    else (n - t.at) + Rounds(Ahead(t.status, want) - 1, n) + i + 1
  }

  lemma StateWaitIsShort(t: Turn, n: nat, i: nat, want: nat)
    requires t.at <= n && i < n && t.status < 10 && want < 10
    ensures 1 <= StateWait(t, n, i, want) <= 10 * n
  {
    hide Rounds;
    RoundsUpTo(Ahead(t.status, want) - 1, if t.status == want then 9 else 8, n);
  }

  /** Each call either reminds loco i in that state or brings that closer. */
  lemma StateWaitShrinks(t: Turn, table: seq<Row>, i: nat, want: nat)
    requires t.status < 10 && t.at <= |table| && i < |table| && want < 10 && Due(table[i], want)
    ensures var (t', sent) := Issue(t, table, false);
            sent == Some(Sent(i, want)) || StateWait(t', |table|, i, want) < StateWait(t, |table|, i, want)
  {
    hide FirstDue, Due, Rounds;
    if t.at == |table| {
      var d := Ahead(t.status, want);
      if d > 1 { OneRound(d - 1, |table|); }
      assert d > 1 ==> Ahead(NextStatus(t.status), want) == d - 1;
    }
  }

  lemma OneRound(m: nat, n: nat)
    requires m > 0
    ensures Rounds(m, n) == n + Rounds(m - 1, n)
  {
  }

  /** With no loco added or forgotten, every function group that was touched is reminded within any 10n
      calls, and so is the speed of a loco that is no follower in each of the five states for it. */
  lemma {:induction false} WithinTenRounds(t: Turn, tables: seq<seq<Row>>, i: nat, want: nat) returns (k: nat)
    requires t.status < 10 && tables != [] && t.at <= |tables[0]| && i < |tables[0]| && want < 10 && Steady(tables)
    requires forall j :: 0 <= j < |tables| ==> i < |tables[j]| && Due(tables[j][i], want)
    requires |tables| >= StateWait(t, |tables[0]|, i, want)
    ensures k < |tables| && k < StateWait(t, |tables[0]|, i, want)
    ensures Calls(t, tables)[k] == Some(Sent(i, want))
    decreases |tables|
  {
    hide FirstDue, Issue, StateWait, Due;
    StateWaitIsShort(t, |tables[0]|, i, want);
    StateWaitShrinks(t, tables[0], i, want);
    var (t', sent) := Issue(t, tables[0], false);
    if sent == Some(Sent(i, want)) {
      k := 0;
    } else {
      StateWaitIsShort(t', |tables[0]|, i, want);
      assert SameLocos(tables[0], tables[1]);
      var k' := WithinTenRounds(t', tables[1..], i, want);
      k := k' + 1;
    }
  }

  /** In any 10n consecutive calls every function group that is and stays touched is reminded. */
  lemma GroupsReminded(t: Turn, tables: seq<seq<Row>>, i: nat, group: nat) returns (k: nat)
    requires t.status < 10 && tables != [] && t.at <= |tables[0]| && i < |tables[0]| && group < GROUPS
    requires Steady(tables) && |tables| == 10 * |tables[0]|
    requires forall j :: 0 <= j < |tables| ==> i < |tables[j]| && tables[j][i].groups[group]
    ensures k < |tables| && Calls(t, tables)[k] == Some(Sent(i, 2 * group + 1))
  {
    hide Calls, StateWait;
    StateWaitIsShort(t, |tables[0]|, i, 2 * group + 1);
    k := WithinTenRounds(t, tables, i, 2 * group + 1);
  }

  /** And no follower is ever reminded of its speed by itself, nor a group that was never touched. */
  lemma OnlyWhatIsDue(t: Turn, table: seq<Row>, modified: bool)
    requires t.status < 10 && (modified || t.at <= |table|)
    ensures var sent := Issue(t, table, modified).1;
            sent.Some? ==> sent.value.row < |table| && sent.value.status < 10
                           && (if IsSpeed(sent.value.status) then !table[sent.value.row].follower
                               else table[sent.value.row].groups[sent.value.status / 2])
  {
  }
}

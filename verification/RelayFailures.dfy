/** Failure counters of peers, whose attempts finish out of order. */
module RelayFailures {
  type Server = string

  /** Start time of the attempt last recorded, and consecutive failures (0 after a success). */
  datatype Row = Row(failedAt: int, failures: nat)

  datatype Option<T> = None | Some(value: T)

  /** One finished attempt: when it started, and whether it succeeded. */
  datatype Outcome = Outcome(at: int, ok: bool)

  /** The row after an outcome commits; outcomes of attempts older than the row are ignored,
      and at equal start times a success outranks a failure. */
  function Commit(row: Option<Row>, o: Outcome): Row {
    if o.ok then
      if row.Some? && row.value.failedAt > o.at then row.value else Row(o.at, 0)
    else
      if row.Some? && (row.value.failedAt > o.at || (row.value.failedAt == o.at && row.value.failures == 0))
      then row.value
      else Row(o.at, (if row.Some? then row.value.failures else 0) + 1)
  }

  /** The row after outcomes commit in the given order. */
  function CommitAll(row: Option<Row>, outs: seq<Outcome>): Option<Row> {
    if outs == [] then row
    else Some(Commit(CommitAll(row, outs[..|outs| - 1]), outs[|outs| - 1]))
  }

  lemma {:induction false} CommitSplit(row: Option<Row>, a: seq<Outcome>, b: seq<Outcome>)
    ensures CommitAll(row, a + b) == CommitAll(CommitAll(row, a), b)
  {
    if b == [] {
      assert a + b == a;
    } else {
      CommitSplit(row, a, b[..|b| - 1]);
      assert (a + b)[..|a + b| - 1] == a + b[..|b| - 1];
    }
  }

  predicate SucceededAt(outs: seq<Outcome>, t: int) { Outcome(t, true) in outs }

  /** Whatever the order, the row ends at the latest start time, with a zero count exactly
      when some attempt started then succeeded. */
  lemma {:induction false} FinalRow(outs: seq<Outcome>)
    requires outs != []
    ensures var r := CommitAll(None, outs).value;
      && (forall o :: o in outs ==> o.at <= r.failedAt)
      && (exists o :: o in outs && o.at == r.failedAt)
      && (r.failures == 0 <==> SucceededAt(outs, r.failedAt))
  {
    var n := |outs| - 1;
    var prev, last := outs[..n], outs[n];
    assert outs == prev + [last];
    if prev == [] {
      assert CommitAll(None, prev) == None;
      assert last in outs;
    } else {
      FinalRow(prev);
      var p := CommitAll(None, prev).value;
      assert forall o :: o in outs <==> o in prev || o == last;
      var r := CommitAll(None, outs).value;
      if r.failedAt == p.failedAt {
        var o :| o in prev && o.at == p.failedAt;
        assert o in outs;
      } else {
        assert last in outs;
      }
    }
  }

  /** For any multiset of outcomes, committed in any order, the recorded start time and
      whether the count is zero are the same. */
  lemma OrderIndependent(a: seq<Outcome>, b: seq<Outcome>)
    requires multiset(a) == multiset(b) && a != []
    ensures b != []
    ensures var r, q := CommitAll(None, a).value, CommitAll(None, b).value;
      r.failedAt == q.failedAt && (r.failures == 0 <==> q.failures == 0)
  {
    assert |multiset(a)| == |multiset(b)|;
    forall o ensures o in a <==> o in b {
      assert o in multiset(a) <==> o in multiset(b);
    }
    FinalRow(a);
    FinalRow(b);
  }

  // ---- the whole row ----

  function At(outs: seq<Outcome>, t: int): seq<Outcome> {
    if outs == [] then []
    else if outs[|outs| - 1].at == t then At(outs[..|outs| - 1], t) + [outs[|outs| - 1]]
    else At(outs[..|outs| - 1], t)
  }

  function NotAt(outs: seq<Outcome>, t: int): seq<Outcome> {
    if outs == [] then []
    else if outs[|outs| - 1].at != t then NotAt(outs[..|outs| - 1], t) + [outs[|outs| - 1]]
    else NotAt(outs[..|outs| - 1], t)
  }

  lemma {:induction false} Partition(outs: seq<Outcome>, t: int)
    ensures multiset(At(outs, t)) + multiset(NotAt(outs, t)) == multiset(outs)
    ensures forall o :: o in At(outs, t) <==> o in outs && o.at == t
    ensures forall o :: o in NotAt(outs, t) <==> o in outs && o.at != t
  {
    if outs != [] {
      Partition(outs[..|outs| - 1], t);
      assert outs == outs[..|outs| - 1] + [outs[|outs| - 1]];
    }
  }

  lemma {:induction false} AtCount(a: seq<Outcome>, t: int)
    ensures |At(a, t)| == multiset(a)[Outcome(t, true)] + multiset(a)[Outcome(t, false)]
  {
    if a != [] {
      AtCount(a[..|a| - 1], t);
      assert a == a[..|a| - 1] + [a[|a| - 1]];
    }
  }

  /** Failures that all started at `t` add up on a row that is not after `t`. */
  lemma {:induction false} FailuresAddUp(row: Option<Row>, outs: seq<Outcome>, t: int)
    requires forall o :: o in outs ==> o == Outcome(t, false)
    requires row.Some? ==> row.value.failedAt < t
    requires outs != []
    ensures CommitAll(row, outs) == Some(Row(t, (if row.Some? then row.value.failures else 0) + |outs|))
  {
    var prev := outs[..|outs| - 1];
    assert outs[|outs| - 1] in outs;
    assert forall o :: o in prev ==> o in outs;
    if prev == [] {
      assert CommitAll(row, prev) == row;
    } else {
      FailuresAddUp(row, prev, t);
    }
  }

  lemma {:induction false} StaleIgnored(row: Option<Row>, outs: seq<Outcome>)
    requires row.Some? && forall o :: o in outs ==> o.at < row.value.failedAt
    ensures CommitAll(row, outs) == row
  {
    if outs != [] {
      assert outs[|outs| - 1] in outs;
      StaleIgnored(row, outs[..|outs| - 1]);
    }
  }

  /** With no success at the latest time `t` and no failure before it, the count is the
      number of attempts started at `t`, in any order. */
  lemma {:induction false} CountIsLatest(outs: seq<Outcome>, t: int)
    requires forall o :: o in outs ==> o.at <= t && (o.at == t <==> !o.ok)
    ensures outs == [] ==> CommitAll(None, outs) == None
    ensures outs != [] ==>
      var r := CommitAll(None, outs).value;
      if At(outs, t) == [] then r.failures == 0 && r.failedAt < t else r == Row(t, |At(outs, t)|)
  {
    if outs != [] {
      var prev, last := outs[..|outs| - 1], outs[|outs| - 1];
      assert last in outs && outs == prev + [last];
      assert forall o :: o in prev ==> o in outs;
      CountIsLatest(prev, t);
      if prev == [] { assert At(prev, t) == []; }
    }
  }

  /** No outcome started later than `t`, and one started then. */
  ghost predicate IsLatest(outs: seq<Outcome>, t: int) {
    (exists o :: o in outs && o.at == t) && forall o :: o in outs ==> o.at <= t
  }

  lemma {:induction false} SomeLatest(outs: seq<Outcome>) returns (t: int)
    requires outs != []
    ensures IsLatest(outs, t)
  {
    var prev, last := outs[..|outs| - 1], outs[|outs| - 1];
    assert outs == prev + [last];
    t := last.at;
    if prev != [] {
      var u := SomeLatest(prev);
      var o :| o in prev && o.at == u;
      if u > t { t := u; }
      assert o in outs && last in outs;
    }
  }

  /** The row ends at the latest start time. */
  lemma EndsAtLatest(outs: seq<Outcome>, t: int)
    requires outs != [] && IsLatest(outs, t)
    ensures CommitAll(None, outs).Some? && CommitAll(None, outs).value.failedAt == t
  {
    FinalRow(outs);
  }

  /** An attempt started at `t` has succeeded, or no failure started before `t`. */
  predicate Determined(outs: seq<Outcome>, t: int) {
    SucceededAt(outs, t) || forall o :: o in outs && o.at < t ==> o.ok
  }

  lemma DeterminedEnough(a: seq<Outcome>, b: seq<Outcome>, t: int)
    requires multiset(a) == multiset(b) && a != [] && IsLatest(a, t) && Determined(a, t)
    ensures CommitAll(None, a) == CommitAll(None, b)
  {
    OrderIndependent(a, b);
    EndsAtLatest(a, t);
    FinalRow(a);
    FinalRow(b);
    forall o ensures o in a <==> o in b { assert o in multiset(a) <==> o in multiset(b); }
    if !SucceededAt(a, t) {
      forall o | o in a ensures o.at <= t && (o.at == t <==> !o.ok) {
        assert o == Outcome(o.at, o.ok);
      }
      CountIsLatest(a, t);
      CountIsLatest(b, t);
      AtCount(a, t);
      AtCount(b, t);
    }
  }

  /** Otherwise two orders disagree: the latest first, or an earlier failure first. */
  lemma UndeterminedDiffers(a: seq<Outcome>, t: int) returns (b: seq<Outcome>, c: seq<Outcome>)
    requires a != [] && IsLatest(a, t) && !Determined(a, t)
    ensures multiset(b) == multiset(a) && multiset(c) == multiset(a)
    ensures CommitAll(None, b) != CommitAll(None, c)
  {
    var latest, rest := At(a, t), NotAt(a, t);
    Partition(a, t);
    var f :| f in a && f.at < t && !f.ok;
    var x :| x in a && x.at == t;
    assert x in latest && f in rest;
    forall o | o in latest ensures o == Outcome(t, false) {
      assert o == Outcome(o.at, o.ok);
    }
    b := latest + rest;
    LatestFirst(latest, rest, t);
    var others := PullOut(rest, f);
    c := [f] + latest + others;
    EarlierFirst(f, latest, others, t);
  }

  lemma PullOut(rest: seq<Outcome>, f: Outcome) returns (others: seq<Outcome>)
    requires f in rest
    ensures multiset(rest) == multiset{f} + multiset(others)
    ensures forall o :: o in others ==> o in rest
  {
    var i :| 0 <= i < |rest| && rest[i] == f;
    others := rest[..i] + rest[i + 1..];
    assert rest == rest[..i] + [f] + rest[i + 1..];
  }

  lemma LatestFirst(latest: seq<Outcome>, rest: seq<Outcome>, t: int)
    requires latest != [] && forall o :: o in latest ==> o == Outcome(t, false)
    requires forall o :: o in rest ==> o.at < t
    ensures CommitAll(None, latest + rest) == Some(Row(t, |latest|))
  {
    CommitSplit(None, latest, rest);
    FailuresAddUp(None, latest, t);
    StaleIgnored(CommitAll(None, latest), rest);
  }

  lemma EarlierFirst(f: Outcome, latest: seq<Outcome>, others: seq<Outcome>, t: int)
    requires f.at < t && !f.ok
    requires latest != [] && forall o :: o in latest ==> o == Outcome(t, false)
    requires forall o :: o in others ==> o.at < t
    ensures CommitAll(None, [f] + latest + others) == Some(Row(t, |latest| + 1))
  {
    CommitSplit(None, [f] + latest, others);
    CommitSplit(None, [f], latest);
    assert [f][..0] == [];
    assert CommitAll(None, [f]) == Some(Row(f.at, 1));
    FailuresAddUp(Some(Row(f.at, 1)), latest, t);
    StaleIgnored(CommitAll(None, [f] + latest), others);
  }

  /** With `t` the latest start time, the whole row is independent of the order outcomes
      commit in if and only if an attempt started at `t` succeeded or no failure started
      before `t`. */
  lemma WholeRowOrderIndependent(a: seq<Outcome>, t: int)
    requires a != [] && IsLatest(a, t)
    ensures (forall b :: multiset(b) == multiset(a) ==> CommitAll(None, b) == CommitAll(None, a))
       <==> SucceededAt(a, t) || forall o :: o in a && o.at < t ==> o.ok
  {
    if Determined(a, t) {
      forall b | multiset(b) == multiset(a) ensures CommitAll(None, b) == CommitAll(None, a) {
        DeterminedEnough(a, b, t);
      }
    } else {
      var b, c := UndeterminedDiffers(a, t);
      assert multiset(b) == multiset(a) && multiset(c) == multiset(a);
    }
  }

  /** Attempts that share one start time leave the same row in every order. */
  lemma OneStartTime(a: seq<Outcome>, b: seq<Outcome>)
    requires forall o, x :: o in a && x in a ==> o.at == x.at
    requires multiset(b) == multiset(a)
    ensures CommitAll(None, b) == CommitAll(None, a)
  {
    if a == [] {
      assert |multiset(b)| == 0;
    } else {
      var t := SomeLatest(a);
      DeterminedEnough(a, b, t);
    }
  }

  // ---- what is counted ----

  /** The failures since the last success. */
  function Trailing(outs: seq<Outcome>): nat {
    if outs == [] || outs[|outs| - 1].ok then 0 else Trailing(outs[..|outs| - 1]) + 1
  }

  /** Outcomes that commit in the order their attempts started count the failures in a row. */
  lemma {:induction false} CountsFailuresInARow(outs: seq<Outcome>)
    requires outs != [] && forall i, j :: 0 <= i < j < |outs| ==> outs[i].at < outs[j].at
    ensures CommitAll(None, outs) == Some(Row(outs[|outs| - 1].at, Trailing(outs)))
  {
    if |outs| > 1 {
      CountsFailuresInARow(outs[..|outs| - 1]);
    } else {
      assert outs[..0] == [];
    }
  }

  function Failed(outs: seq<Outcome>): nat {
    if outs == [] then 0 else Failed(outs[..|outs| - 1]) + if outs[|outs| - 1].ok then 0 else 1
  }

  /** In whatever order, no peer is charged more failures than it had. */
  lemma {:induction false} NeverOvercharged(outs: seq<Outcome>)
    requires outs != []
    ensures CommitAll(None, outs).value.failures <= Failed(outs)
  {
    if |outs| > 1 {
      NeverOvercharged(outs[..|outs| - 1]);
    } else {
      assert outs[..0] == [];
    }
  }

  // ---- the stored table ----

  class FailureTable {
    var rows: map<Server, Row>

    constructor ()
      ensures rows == map[]
    {
      rows := map[];
    }

    function Lookup(server: Server): (r: Option<Row>)
      reads this
      ensures r.Some? <==> server in rows
      ensures r.Some? ==> r.value == rows[server]
    {
      if server in rows then Some(rows[server]) else None
    }

    method RecordFailure(server: Server, attemptAt: int)
      modifies this
      ensures rows == old(rows)[server := Commit(old(Lookup(server)), Outcome(attemptAt, false))]
    {
      var stale := server in rows
        && (rows[server].failedAt > attemptAt || (rows[server].failedAt == attemptAt && rows[server].failures == 0));
      if !stale {
        var prevCount := if server in rows then rows[server].failures else 0;
        rows := rows[server := Row(attemptAt, prevCount + 1)];
      }
    }

    method ClearFailure(server: Server, attemptAt: int)
      modifies this
      ensures rows == old(rows)[server := Commit(old(Lookup(server)), Outcome(attemptAt, true))]
    {
      var stale := server in rows && rows[server].failedAt > attemptAt;
      if !stale { rows := rows[server := Row(attemptAt, 0)]; }
    }
  }
}

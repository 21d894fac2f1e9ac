/** How much of a poll page the client reads (core/src/app.rs). */
module ClientPages {
  import opened Conversations
  import opened ClientModel
  import F = Framing

  predicate Fits(e: PageEvent) { e.size <= F.MAX_BLOB_LEN * 2 }

  /** Events of a page that count against the limits, and their bytes. */
  function Load(events: seq<PageEvent>): nat {
    if events == [] then 0 else Load(events[..|events| - 1]) + if Fits(events[|events| - 1]) then 1 else 0
  }

  function Bytes(events: seq<PageEvent>): nat {
    if events == [] then 0
    else Bytes(events[..|events| - 1]) + if Fits(events[|events| - 1]) then events[|events| - 1].size / 2 else 0
  }

  predicate InCaps(events: seq<PageEvent>) { Load(events) <= MAX_POLL_EVENTS && Bytes(events) <= MAX_POLL_TOTAL_BYTES }

  lemma {:induction false} LoadConcat(a: seq<PageEvent>, b: seq<PageEvent>)
    ensures Load(a + b) == Load(a) + Load(b) && Bytes(a + b) == Bytes(a) + Bytes(b)
  {
    if b == [] {
      assert a + b == a;
    } else {
      LoadConcat(a, b[..|b| - 1]);
      assert (a + b)[..|a + b| - 1] == a + b[..|b| - 1];
    }
  }

  lemma LoadOne(e: PageEvent)
    ensures Load([e]) == (if Fits(e) then 1 else 0) && Bytes([e]) == if Fits(e) then e.size / 2 else 0
  {
    assert [e][..0] == [];
  }

  lemma LoadSplice(head: seq<PageEvent>, one: seq<PageEvent>, tail: seq<PageEvent>)
    ensures Load((head + one) + tail) == Load(one) + Load(head + tail)
    ensures Bytes((head + one) + tail) == Bytes(one) + Bytes(head + tail)
    ensures multiset((head + one) + tail) == multiset(one) + multiset(head + tail)
  {
    LoadConcat(head + one, tail);
    LoadConcat(head, one);
    LoadConcat(head, tail);
  }

  lemma {:induction false} LoadPermutes(a: seq<PageEvent>, b: seq<PageEvent>)
    requires multiset(a) == multiset(b)
    ensures Load(a) == Load(b) && Bytes(a) == Bytes(b)
    decreases |a|, 1
  {
    if a == [] {
      assert |multiset(b)| == 0;
    } else {
      assert a[0] in multiset(b);
      var j :| 0 <= j < |b| && b[j] == a[0];
      assert a == ([] + [a[0]]) + a[1..] && b == (b[..j] + [a[0]]) + b[j + 1..];
      LoadPermutesStep(a[0], a[1..], b[..j], b[j + 1..]);
    }
  }

  lemma {:induction false} LoadPermutesStep(e: PageEvent, rest: seq<PageEvent>, head: seq<PageEvent>, tail: seq<PageEvent>)
    requires multiset(([] + [e]) + rest) == multiset((head + [e]) + tail)
    ensures Load(([] + [e]) + rest) == Load((head + [e]) + tail) && Bytes(([] + [e]) + rest) == Bytes((head + [e]) + tail)
    decreases 1 + |rest|, 0
  {
    LoadSplice([], [e], rest);
    LoadSplice(head, [e], tail);
    assert [] + rest == rest;
    assert multiset(rest) == multiset([e]) + multiset(rest) - multiset([e]);
    LoadPermutes(rest, head + tail);
  }

  lemma InCapsPrefix(events: seq<PageEvent>, k: nat, n: nat)
    requires k <= n <= |events| && InCaps(events[..n])
    ensures InCaps(events[..k])
  {
    LoadConcat(events[..k], events[k..n]);
    assert events[..n] == events[..k] + events[k..n];
  }

  /** What the events that are not too long say, in order. */
  function Contents(events: seq<PageEvent>): seq<Decoded> {
    if events == [] then []
    else (if Fits(events[0]) && events[0].content.Some? then [events[0].content.value] else []) + Contents(events[1..])
  }

  ghost predicate Yields(events: seq<PageEvent>, d: Decoded) {
    exists e :: e in events && Fits(e) && e.content == Some(d)
  }

  lemma {:induction false} ContentsYield(events: seq<PageEvent>, d: Decoded)
    ensures d in Contents(events) <==> Yields(events, d)
  {
    if events != [] {
      ContentsYield(events[1..], d);
      assert forall x :: x in events <==> x == events[0] || x in events[1..];
    }
  }

  // ---- where reading stops ----

  predicate Within(events: seq<PageEvent>, processed: nat, room: nat) {
    processed + Load(events) <= MAX_POLL_EVENTS && Bytes(events) <= room
  }

  lemma WithinCons(e: PageEvent, rest: seq<PageEvent>, processed: nat, room: nat)
    ensures !Fits(e) ==> Within([e] + rest, processed, room) == Within(rest, processed, room)
    ensures Fits(e) ==>
      Within([e] + rest, processed, room) == (e.size / 2 <= room && Within(rest, processed + 1, room - e.size / 2))
  {
    LoadConcat([e], rest);
    LoadOne(e);
  }

  lemma ContentsCons(e: PageEvent, rest: seq<PageEvent>)
    ensures Contents([e] + rest) == (if Fits(e) && e.content.Some? then [e.content.value] else []) + Contents(rest)
  {
    assert ([e] + rest)[1..] == rest;
  }

  /** Reading from here stops at `s`: what is before it is the longest part within the caps,
      and all it says is added to what was taken in. */
  ghost predicate Stops(events: seq<PageEvent>, processed: nat, room: nat, decoded: seq<Decoded>, s: nat) {
    && s <= |events| && Admit(events, processed, room, decoded) == Admission(decoded + Contents(events[..s]), s < |events|)
    && Within(events[..s], processed, room) && (s < |events| ==> !Within(events[..s + 1], processed, room))
  }

  lemma {:induction false} StopsAt(events: seq<PageEvent>, processed: nat, room: nat, decoded: seq<Decoded>) returns (s: nat)
    requires processed <= MAX_POLL_EVENTS
    ensures Stops(events, processed, room, decoded, s)
    decreases |events|
  {
    s := 0;
    if events != [] {
      var e, rest := events[0], events[1..];
      assert events == [e] + rest;
      if !Fits(e) {
        s := StopsAt(rest, processed, room, decoded);
        SkippedOne(e, rest, processed, room, decoded, s);
        s := s + 1;
      } else if processed >= MAX_POLL_EVENTS || e.size / 2 > room {
        WithinCons(e, [], processed, room);
        assert [e] + [] == events[..1];
      } else {
        s := StopsAt(rest, processed + 1, room - e.size / 2, if e.content.Some? then decoded + [e.content.value] else decoded);
        TookOne(e, rest, processed, room, decoded, s);
        s := s + 1;
      }
    }
  }

  lemma SkippedOne(e: PageEvent, rest: seq<PageEvent>, processed: nat, room: nat, decoded: seq<Decoded>, s: nat)
    requires !Fits(e) && Stops(rest, processed, room, decoded, s)
    ensures Stops([e] + rest, processed, room, decoded, s + 1)
  {
    StopsLater(e, rest, processed, room, s);
    assert ([e] + rest)[1..] == rest;
  }

  lemma TookOne(e: PageEvent, rest: seq<PageEvent>, processed: nat, room: nat, decoded: seq<Decoded>, s: nat)
    requires Fits(e) && processed < MAX_POLL_EVENTS && e.size / 2 <= room
    requires Stops(rest, processed + 1, room - e.size / 2, if e.content.Some? then decoded + [e.content.value] else decoded, s)
    ensures Stops([e] + rest, processed, room, decoded, s + 1)
  {
    StopsLater(e, rest, processed, room, s);
    Joined(decoded, if e.content.Some? then [e.content.value] else [], Contents(rest[..s]));
    assert ([e] + rest)[1..] == rest;
  }

  lemma Joined(a: seq<Decoded>, b: seq<Decoded>, c: seq<Decoded>)
    ensures (a + b) + c == a + (b + c) && a + [] == a
  {
  }

  lemma StopsLater(e: PageEvent, rest: seq<PageEvent>, processed: nat, room: nat, s: nat)
    requires s <= |rest| && (Fits(e) ==> e.size / 2 <= room)
    requires var p, r := if Fits(e) then processed + 1 else processed, if Fits(e) then room - e.size / 2 else room;
      Within(rest[..s], p, r) && (s < |rest| ==> !Within(rest[..s + 1], p, r))
    ensures var events := [e] + rest;
      && Within(events[..s + 1], processed, room) && (s < |rest| ==> !Within(events[..s + 2], processed, room))
      && Contents(events[..s + 1]) == (if Fits(e) && e.content.Some? then [e.content.value] else []) + Contents(rest[..s])
  {
    var events := [e] + rest;
    assert events[..s + 1] == [e] + rest[..s];
    WithinCons(e, rest[..s], processed, room);
    ContentsCons(e, rest[..s]);
    if s < |rest| {
      assert events[..s + 2] == [e] + rest[..s + 1];
      WithinCons(e, rest[..s + 1], processed, room);
    }
  }

  /** Reading stops at `s`: what is before it is the longest part within the caps, and all
      that part says is taken in. */
  ghost predicate ReadsUpTo(events: seq<PageEvent>, s: nat) {
    && s <= |events| && AdmitPage(events) == Admission(Contents(events[..s]), s < |events|)
    && forall n :: 0 <= n <= |events| ==> (InCaps(events[..n]) <==> n <= s)
  }

  /** The client reads exactly the longest part of the page within the caps, from its start,
      and takes in, in order, all that part says. */
  lemma AdmitsLongestPrefix(events: seq<PageEvent>)
    ensures exists s: nat :: ReadsUpTo(events, s)
  {
    var s := StopsAt(events, 0, MAX_POLL_TOTAL_BYTES, []);
    forall n | 0 <= n <= |events| ensures InCaps(events[..n]) <==> n <= s {
      if n <= s { InCapsPrefix(events, n, s); } else if InCaps(events[..n]) { InCapsPrefix(events, s + 1, n); }
    }
    assert ReadsUpTo(events, s);
  }

  /** A page within the caps is read to its end. */
  lemma AdmitAll(events: seq<PageEvent>)
    requires InCaps(events)
    ensures var a := AdmitPage(events); !a.cut && forall d :: d in a.decoded <==> Yields(events, d)
  {
    AdmitsLongestPrefix(events);
    var s: nat :| ReadsUpTo(events, s);
    assert events[..|events|] == events;
    forall d ensures d in Contents(events) <==> Yields(events, d) { ContentsYield(events, d); }
  }

  /** The event is read: it is not too long, and with all before it within the caps. */
  predicate Reads(events: seq<PageEvent>, p: nat) {
    p < |events| && Fits(events[p]) && InCaps(events[..p + 1])
  }

  /** What an event that is read says is taken in. */
  lemma ReadIsAdmitted(events: seq<PageEvent>, p: nat)
    requires Reads(events, p) && events[p].content.Some?
    ensures events[p].content.value in AdmitPage(events).decoded
  {
    AdmitsLongestPrefix(events);
    var s: nat :| ReadsUpTo(events, s);
    assert p < s && events[..s][p] == events[p];
    ContentsYield(events[..s], events[p].content.value);
  }

  lemma {:induction false} LastOverCaps(events: seq<PageEvent>)
    requires !InCaps(events)
    ensures exists p: nat :: p < |events| && Fits(events[p]) && !Reads(events, p)
  {
    var p: nat := |events| - 1;
    assert events[..p + 1] == events;
    if !Fits(events[p]) {
      LastOverCaps(events[..p]);
      var r: nat :| r < p && Fits(events[..p][r]) && !Reads(events[..p], r);
      assert events[..p][..r + 1] == events[..r + 1] && !Reads(events, r);
    }
  }

  /** The cursor passes an event of the page that is short enough and yet is not read. */
  ghost predicate PassesUnread(cursor: int, pageCursor: int, events: seq<PageEvent>, now: int) {
    && NextCursor(cursor, pageCursor, events, now) > cursor
    && exists p: nat :: p < |events| && Fits(events[p]) && !Reads(events, p)
  }

  lemma CutExactly(cursor: int, pageCursor: int, events: seq<PageEvent>, now: int)
    ensures PassesUnread(cursor, pageCursor, events, now) <==>
      && Min(pageCursor, now + 60000) > cursor && !InCaps(events)
      && exists p: nat :: Reads(events, p) && events[p].content.Some?
  {
    AdmitsLongestPrefix(events);
    var s: nat :| ReadsUpTo(events, s);
    assert events[..|events|] == events;
    if InCaps(events) {
      forall p: nat | p < |events| && Fits(events[p]) ensures Reads(events, p) { InCapsPrefix(events, p + 1, |events|); }
    } else {
      LastOverCaps(events);
      DecodedIsRead(events, s);
      assert events != [];
    }
  }

  lemma DecodedIsRead(events: seq<PageEvent>, s: nat)
    requires ReadsUpTo(events, s)
    ensures AdmitPage(events).decoded != [] <==> exists p: nat :: Reads(events, p) && events[p].content.Some?
  {
    var ds := AdmitPage(events).decoded;
    if ds != [] {
      ContentsYield(events[..s], ds[0]);
      var e :| e in events[..s] && Fits(e) && e.content == Some(ds[0]);
      var p: nat :| p < s && events[p] == e;
      assert Reads(events, p);
    }
    if p: nat :| Reads(events, p) && events[p].content.Some? { ReadIsAdmitted(events, p); }
  }

  // ---- pages that can be received ----

  /** The page can come in a body that the client accepts. */
  predicate Receivable(events: seq<PageEvent>) { Hex(events) <= MAX_POLL_RESPONSE_BYTES }

  lemma {:induction false} HexBounds(events: seq<PageEvent>)
    requires Receivable(events)
    ensures Load(events) == |events| && 2 * Bytes(events) <= Hex(events)
    ensures forall p :: 0 <= p < |events| ==> Fits(events[p])
  {
    if events != [] {
      HexBounds(events[..|events| - 1]);
    }
  }

  lemma {:induction false} HexPrefix(events: seq<PageEvent>, n: nat)
    requires n <= |events|
    ensures Hex(events[..n]) <= Hex(events)
  {
    if n < |events| {
      HexPrefix(events[..|events| - 1], n);
      assert events[..|events| - 1][..n] == events[..n];
    } else {
      assert events[..n] == events;
    }
  }

  /** Of a page that can be received exactly the first 2000 events are read: the byte budget
      never cuts one short, nor is any event of it too long. */
  lemma ReadsFirst(events: seq<PageEvent>, p: nat)
    requires Receivable(events) && p < |events|
    ensures Reads(events, p) <==> p < MAX_POLL_EVENTS
  {
    HexBounds(events);
    HexPrefix(events, p + 1);
    HexBounds(events[..p + 1]);
  }

  /** A received page of at most 2000 events is taken in whole. */
  lemma TakenWhole(events: seq<PageEvent>, e: PageEvent)
    requires Receivable(events) && |events| <= MAX_POLL_EVENTS && e in events && e.content.Some?
    ensures e.content.value in AdmitPage(events).decoded
  {
    var p: nat :| p < |events| && events[p] == e;
    ReadsFirst(events, p);
    ReadIsAdmitted(events, p);
  }

  /** The next poll acks an event of a received page that was not read exactly when the
      page's cursor is new, it has more than 2000 events, and one of the first 2000 could be
      read. */
  lemma PassesUnreadExactly(cursor: int, pageCursor: int, events: seq<PageEvent>, now: int)
    requires Receivable(events)
    ensures PassesUnread(cursor, pageCursor, events, now) <==>
      && Min(pageCursor, now + 60000) > cursor && |events| > MAX_POLL_EVENTS
      && exists p: nat :: p < MAX_POLL_EVENTS && events[p].content.Some?
  {
    CutExactly(cursor, pageCursor, events, now);
    HexBounds(events);
    forall p: nat | p < |events| ensures Reads(events, p) <==> p < MAX_POLL_EVENTS { ReadsFirst(events, p); }
  }
}

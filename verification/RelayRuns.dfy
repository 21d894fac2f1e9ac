/**
 Whole runs of the relay.

 Every `atomic` block of a handler or background loop is one step, so a handler that
 calls out between two blocks is two steps with anything in between. Clocks are read
 before a block commits and are not assumed to agree or to advance.
 */
module RelayRuns {
  import opened RelayState
  import opened RelayMailbox
  import opened RelayForwards

  /** A poll handler that has acked its cursor and has yet to return its page. */
  datatype Poll = Poll(key: Key, cursor: int, waiting: bool)

  datatype World = World(relay: State, polls: map<nat, Poll>)

  datatype Event =
    | Send(to: Key, blob: Blob, t: int, remote: set<Server>)
    | Receive(to: Key, blob: Blob, t: int)
    | Setup(id: nat, key: Key, cursor: int, t: int)
    | Collect(id: nat, t: int, next: int)
    | Expire(t: int)
    | Attempt(to: Key, blob: Blob, server: Server, ok: bool)
    | Delivered(to: Key, blob: Blob, server: Server)
    | Announce(keys: set<Key>, server: Server)
    | Offline(keys: set<Key>, server: Server)
    | Denied(server: Server)

  function PageOf(w: World, id: nat, t: int): set<Message>
    requires id in w.polls
  {
    Page(w.relay.messages, w.polls[id].key, w.polls[id].cursor, t)
  }

  /** The collect returns to the client, rather than going on to wait for mail. */
  predicate Returns(w: World, id: nat, t: int)
    requires id in w.polls
  {
    PageOf(w, id, t) != {} || w.polls[id].waiting
  }

  ghost predicate Next(w: World, e: Event, w': World) {
    match e
    case Send(to, blob, t, remote) =>
      w'.polls == w.polls && Sent(w.relay, to, blob, t, remote, w'.relay)
    case Receive(to, blob, t) =>
      w' == w.(relay := Append(w.relay, to, blob, t))
    case Setup(id, key, cursor, t) =>
      var c := Clamp(w.relay, cursor, t);
      && id !in w.polls
      && w' == World(if c > 0 then Ack(w.relay, key, c) else w.relay, w.polls[id := Poll(key, c, false)])
    case Collect(id, t, next) =>
      && id in w.polls
      && IsPageCursor(PageOf(w, id, t), w.polls[id].cursor, next)
      && w' == w.(polls := if Returns(w, id, t) then w.polls - {id} else w.polls[id := w.polls[id].(waiting := true)])
    case Expire(t) => w' == w.(relay := Prune(w.relay, t))
    case Attempt(to, blob, server, ok) => w' == w.(relay := Swept(w.relay, to, blob, server, ok))
    case Delivered(to, blob, server) => w' == w.(relay := Landed(w.relay, to, blob, server))
    case Announce(keys, server) => w'.polls == w.polls && Staged(w.relay, keys, server, w'.relay)
    case Offline(keys, server) => w' == w.(relay := Cancel(w.relay, server, keys))
    case Denied(server) => w' == w.(relay := DropServer(w.relay, server))
  }

  ghost predicate Run(ws: seq<World>, es: seq<Event>) {
    && |ws| == |es| + 1
    && ws[0] == World(State({}, 0, {}), map[])
    && forall i: nat :: i < |es| ==> StepAt(ws, es, i)
  }

  ghost predicate StepAt(ws: seq<World>, es: seq<Event>, i: nat)
    requires i < |es| < |ws|
  {
    Next(ws[i], es[i], ws[i + 1])
  }

  // ---- every reachable state ----

  lemma StepKeeps(w: World, e: Event, w': World)
    requires Inv(w.relay) && Next(w, e, w')
    ensures Inv(w'.relay)
    ensures w.relay.counter <= w'.relay.counter
  {
    match e
    case Send(to, blob, t, remote) =>
      AppendKeeps(w.relay, to, blob, t);
      StagingKeeps(w.relay, to, blob, t, remote, {}, "", w'.relay);
    case Receive(to, blob, t) => ReceiveKeeps(w.relay, to, blob, t);
    case Setup(id, key, cursor, t) => RemovalsKeep(w.relay, key, Clamp(w.relay, cursor, t), 0, "", {});
    case Collect(_, _, _) =>
    case Expire(t) => RemovalsKeep(w.relay, "", 0, t, "", {});
    case Attempt(to, blob, server, ok) => AttemptsKeep(w.relay, to, blob, server, ok);
    case Delivered(to, blob, server) => AttemptsKeep(w.relay, to, blob, server, true);
    case Announce(keys, server) => StagingKeeps(w.relay, "", "", 0, {}, keys, server, w'.relay);
    case Offline(keys, server) => RemovalsKeep(w.relay, "", 0, 0, server, keys);
    case Denied(server) => RemovalsKeep(w.relay, "", 0, 0, server, {});
  }

  lemma ReceiveKeeps(s: State, to: Key, blob: Blob, t: int)
    requires Inv(s)
    ensures Inv(Append(s, to, blob, t))
  {
    AppendKeeps(s, to, blob, t);
    forall m | m in Append(s, to, blob, t).messages ensures m in s.messages || m.deliveredTo == {} {
      AppendRows(s, to, blob, t, m);
    }
    SoundSubset(s.messages, s.forwards, Append(s, to, blob, t).messages, s.forwards);
  }

  /** Mailbox and outbox invariants hold in every state of every run. */
  lemma {:induction false} AlwaysInv(ws: seq<World>, es: seq<Event>, i: nat)
    requires Run(ws, es) && i < |ws|
    ensures Inv(ws[i].relay)
  {
    if i == 0 {
      EmptyInv();
    } else {
      AlwaysInv(ws, es, i - 1);
      assert StepAt(ws, es, i - 1);
      StepKeeps(ws[i - 1], es[i - 1], ws[i]);
    }
  }

  lemma EmptyInv()
    ensures Inv(State({}, 0, {}))
  {
    forall k ensures |RowsFor({}, k)| == 0 { assert RowsFor({}, k) == {}; }
    forall server ensures |To({}, server)| == 0 { assert To({}, server) == {}; }
  }

  // ---- a cursor never destroys unseen mail ----

  /** Step `j` returned a page, and the cursor `es[j].next`, to key `k`. */
  ghost predicate ReturnedTo(ws: seq<World>, es: seq<Event>, j: nat, k: Key)
    requires j < |es| < |ws|
  {
    && es[j].Collect? && es[j].id in ws[j].polls
    && ws[j].polls[es[j].id].key == k
    && Returns(ws[j], es[j].id, es[j].t)
  }

  /** `k` only presents cursors at most equal to one this relay returned to it, or zero. */
  ghost predicate Honest(ws: seq<World>, es: seq<Event>, k: Key)
    requires |es| < |ws|
  {
    forall i :: 0 <= i < |es| && es[i].Setup? && es[i].key == k && es[i].cursor > 0 ==>
      Known(ws, es, i, k, es[i].cursor)
  }

  /** Before step `i` the relay returned to `k` a cursor of at least `c`. */
  ghost predicate Known(ws: seq<World>, es: seq<Event>, i: nat, k: Key, c: int)
    requires i <= |es| < |ws|
  {
    exists j: nat :: j < i && ReturnedTo(ws, es, j, k) && c <= es[j].next
  }

  /** Step `j` handed the row to its recipient, or found it past its TTL. */
  ghost predicate Served(ws: seq<World>, es: seq<Event>, j: nat, m: Message)
    requires j < |es| < |ws|
  {
    && ReturnedTo(ws, es, j, m.toKey)
    && m.receivedAt <= es[j].next
    && (es[j].t - m.receivedAt >= MESSAGE_MAX_AGE
        || exists row :: row in PageOf(ws[j], es[j].id, es[j].t) && SameRow(row, m))
  }

  ghost predicate ServedBefore(ws: seq<World>, es: seq<Event>, i: nat, m: Message)
    requires i <= |es| < |ws|
  {
    exists j: nat :: j < i && Served(ws, es, j, m)
  }

  /** Every page returned before step `i` whose cursor covers the row served the row. */
  ghost predicate AlwaysServed(ws: seq<World>, es: seq<Event>, i: nat, m: Message)
    requires i <= |es| < |ws|
  {
    forall j: nat :: j < i && ReturnedTo(ws, es, j, m.toKey) && m.receivedAt <= es[j].next ==> Served(ws, es, j, m)
  }

  /** A poll that has yet to return left no row of its key at or below its cursor. */
  ghost predicate AckedBelow(w: World, k: Key) {
    forall id, m :: id in w.polls && w.polls[id].key == k && m in w.relay.messages && m.toKey == k ==>
      m.receivedAt > w.polls[id].cursor
  }

  /** The inductive invariant, for one honest key, at state `i`. */
  ghost predicate Covered(ws: seq<World>, es: seq<Event>, i: nat, k: Key)
    requires i <= |es| < |ws|
  {
    && (forall m :: m in ws[i].relay.messages && m.toKey == k ==> AlwaysServed(ws, es, i, m))
    && (forall j: nat :: j < i && ReturnedTo(ws, es, j, k) ==> es[j].next <= ws[i].relay.counter)
    && (forall id :: id in ws[i].polls && ws[i].polls[id].key == k ==>
          ws[i].polls[id].cursor == 0 || Known(ws, es, i, k, ws[i].polls[id].cursor))
    && AckedBelow(ws[i], k)
  }

  /** Every row after a step was there before it, or carries a number never issued before. */
  lemma RowOrigin(w: World, e: Event, w': World, m: Message) returns (o: Message)
    requires Inv(w.relay) && Next(w, e, w') && m in w'.relay.messages
    ensures (m.receivedAt > w.relay.counter && !e.Collect?) || (o in w.relay.messages && SameRow(o, m))
  {
    o := m;
    match e
    case Send(to, blob, t, _) => AppendKeeps(w.relay, to, blob, t);
    case Receive(to, blob, t) => AppendKeeps(w.relay, to, blob, t);
    case Attempt(to, blob, server, _) =>
      if m !in w.relay.messages { o :| o in w.relay.messages && m == MarkRow(o, to, blob, server); }
    case Delivered(to, blob, server) =>
      if m !in w.relay.messages { o :| o in w.relay.messages && m == MarkRow(o, to, blob, server); }
    case _ =>
  }

  /** A collect serves every row of its key up to the cursor it returns. */
  lemma CollectServes(ws: seq<World>, es: seq<Event>, i: nat, k: Key, m: Message)
    requires Run(ws, es) && i < |es| && AckedBelow(ws[i], k)
    requires ReturnedTo(ws, es, i, k)
    requires m in ws[i].relay.messages && m.toKey == k && m.receivedAt <= es[i].next
    ensures Served(ws, es, i, m)
  {
    assert StepAt(ws, es, i);
    var t := es[i].t;
    if t - m.receivedAt < MESSAGE_MAX_AGE {
      PageIsPrefix(ws[i].relay.messages, k, ws[i].polls[es[i].id].cursor, t, es[i].next, m);
      assert SameRow(m, m);
    }
  }

  lemma Served'(ws: seq<World>, es: seq<Event>, j: nat, o: Message, m: Message)
    requires j < |es| < |ws| && SameRow(o, m) && Served(ws, es, j, o)
    ensures Served(ws, es, j, m)
  {
    if es[j].t - o.receivedAt < MESSAGE_MAX_AGE {
      var row :| row in PageOf(ws[j], es[j].id, es[j].t) && SameRow(row, o);
      assert SameRow(row, m);
    }
  }

  lemma RowsStayServed(ws: seq<World>, es: seq<Event>, i: nat, k: Key, m: Message, j: nat)
    requires Run(ws, es) && i < |es| && Inv(ws[i].relay) && Covered(ws, es, i, k)
    requires m in ws[i + 1].relay.messages && m.toKey == k
    requires j < i + 1 && ReturnedTo(ws, es, j, k) && m.receivedAt <= es[j].next
    ensures Served(ws, es, j, m)
  {
    assert StepAt(ws, es, i);
    var o := RowOrigin(ws[i], es[i], ws[i + 1], m);
    if j == i {
      CollectServes(ws, es, i, k, o);
    } else {
      assert es[j].next <= ws[i].relay.counter;
      assert AlwaysServed(ws, es, i, o);
    }
    Served'(ws, es, j, o, m);
  }

  lemma SetupAcksBelow(w: World, e: Event, w': World, m: Message)
    requires Next(w, e, w') && e.Setup? && Inv(w'.relay)
    requires m in w'.relay.messages && m.toKey == e.key
    ensures e.id in w'.polls && m.receivedAt > w'.polls[e.id].cursor
  {
  }

  lemma PollsStayBelow(ws: seq<World>, es: seq<Event>, i: nat, k: Key, id: nat, m: Message)
    requires Run(ws, es) && i < |es| && Inv(ws[i].relay) && Inv(ws[i + 1].relay) && Covered(ws, es, i, k)
    requires id in ws[i + 1].polls && ws[i + 1].polls[id].key == k
    requires m in ws[i + 1].relay.messages && m.toKey == k
    ensures m.receivedAt > ws[i + 1].polls[id].cursor
  {
    assert StepAt(ws, es, i);
    if es[i].Setup? && es[i].id == id {
      SetupAcksBelow(ws[i], es[i], ws[i + 1], m);
    } else {
      PollIsOld(ws[i], es[i], ws[i + 1], id);
      var c := ws[i].polls[id].cursor;
      if c != 0 { CursorIsIssued(ws, es, i, k, c); }
      var o := RowOrigin(ws[i], es[i], ws[i + 1], m);
    }
  }

  lemma PollIsOld(w: World, e: Event, w': World, id: nat)
    requires Next(w, e, w') && id in w'.polls && !(e.Setup? && e.id == id)
    ensures id in w.polls && w.polls[id].key == w'.polls[id].key && w.polls[id].cursor == w'.polls[id].cursor
  {
  }

  lemma CursorIsIssued(ws: seq<World>, es: seq<Event>, i: nat, k: Key, c: int)
    requires i <= |es| < |ws| && Covered(ws, es, i, k) && Known(ws, es, i, k, c)
    ensures c <= ws[i].relay.counter
  {
    var j: nat :| j < i && ReturnedTo(ws, es, j, k) && c <= es[j].next;
  }

  /** Returned cursors stay at or below the sequence counter. */
  lemma CursorsStayIssued(ws: seq<World>, es: seq<Event>, i: nat, k: Key)
    requires Run(ws, es) && i < |es| && Inv(ws[i].relay) && Covered(ws, es, i, k)
    ensures forall j: nat :: j < i + 1 && ReturnedTo(ws, es, j, k) ==> es[j].next <= ws[i + 1].relay.counter
  {
    assert StepAt(ws, es, i);
    StepKeeps(ws[i], es[i], ws[i + 1]);
    if ReturnedTo(ws, es, i, k) {
      var c := ws[i].polls[es[i].id].cursor;
      if es[i].next == c && c != 0 {
        var j: nat :| j < i && ReturnedTo(ws, es, j, k) && c <= es[j].next;
      }
    }
  }

  lemma KnownLater(ws: seq<World>, es: seq<Event>, i: nat, k: Key, c: int, d: int)
    requires i < |es| < |ws| && Known(ws, es, i, k, c) && d <= c
    ensures Known(ws, es, i + 1, k, d) && Known(ws, es, i, k, d)
  {
    var j: nat :| j < i && ReturnedTo(ws, es, j, k) && c <= es[j].next;
    assert j < i + 1 && d <= es[j].next;
  }

  lemma PollsStayKnown(ws: seq<World>, es: seq<Event>, i: nat, k: Key, id: nat)
    requires Run(ws, es) && i < |es| && Honest(ws, es, k) && Covered(ws, es, i, k)
    requires id in ws[i + 1].polls && ws[i + 1].polls[id].key == k
    ensures ws[i + 1].polls[id].cursor == 0 || Known(ws, es, i + 1, k, ws[i + 1].polls[id].cursor)
  {
    var c := ws[i + 1].polls[id].cursor;
    assert StepAt(ws, es, i);
    if c != 0 {
      if es[i].Setup? && es[i].id == id {
        KnownLater(ws, es, i, k, es[i].cursor, c);
      } else {
        KnownLater(ws, es, i, k, c, c);
      }
    }
  }

  lemma {:induction false} AlwaysCovered(ws: seq<World>, es: seq<Event>, i: nat, k: Key)
    requires Run(ws, es) && Honest(ws, es, k) && i <= |es|
    ensures Covered(ws, es, i, k)
  {
    if i > 0 {
      var p := i - 1;
      AlwaysInv(ws, es, p);
      AlwaysCovered(ws, es, p, k);
      AlwaysInv(ws, es, i);
      forall m, j: nat | m in ws[i].relay.messages && m.toKey == k && j < i && ReturnedTo(ws, es, j, k) && m.receivedAt <= es[j].next
        ensures Served(ws, es, j, m) { RowsStayServed(ws, es, p, k, m, j); }
      forall id, m | id in ws[i].polls && ws[i].polls[id].key == k && m in ws[i].relay.messages && m.toKey == k
        ensures m.receivedAt > ws[i].polls[id].cursor { PollsStayBelow(ws, es, p, k, id, m); }
      CursorsStayIssued(ws, es, p, k);
      forall id | id in ws[i].polls && ws[i].polls[id].key == k
        ensures ws[i].polls[id].cursor == 0 || Known(ws, es, i, k, ws[i].polls[id].cursor) {
        PollsStayKnown(ws, es, p, k, id);
      }
    }
  }

  /** In every run, each row that an honest key's cursor deletes was in a page this relay
      had already returned to that key, or was past its TTL when that page was built: every
      such page whose cursor covers the row, not just one of them. */
  lemma AckDeletesOnlySeenMail(ws: seq<World>, es: seq<Event>, k: Key, i: nat, m: Message)
    requires Run(ws, es) && Honest(ws, es, k)
    requires i < |es| && es[i].Setup? && es[i].key == k
    requires m in ws[i].relay.messages && m !in ws[i + 1].relay.messages
    ensures m.toKey == k && m.receivedAt <= es[i].cursor
    ensures ServedBefore(ws, es, i, m) && AlwaysServed(ws, es, i, m)
  {
    AlwaysInv(ws, es, i);
    AlwaysCovered(ws, es, i, k);
    assert StepAt(ws, es, i);
    assert Known(ws, es, i, k, es[i].cursor);
    var j: nat :| j < i && ReturnedTo(ws, es, j, k) && es[i].cursor <= es[j].next;
    assert AlwaysServed(ws, es, i, m);
    assert Served(ws, es, j, m);
  }

  /** In every run, a row stored after a page was returned to an honest key is above
      every cursor that key holds, so no such cursor can ever delete it unseen. */
  lemma LaterMailIsAboveCursors(ws: seq<World>, es: seq<Event>, k: Key, j: nat, i: nat, m: Message)
    requires Run(ws, es) && Honest(ws, es, k)
    requires j < i < |es| && ReturnedTo(ws, es, j, k)
    requires m in ws[i + 1].relay.messages && forall o :: o in ws[i].relay.messages ==> !SameRow(o, m)
    ensures m.receivedAt > es[j].next
  {
    AlwaysInv(ws, es, i);
    AlwaysCovered(ws, es, i, k);
    assert StepAt(ws, es, i);
    var o := RowOrigin(ws[i], es[i], ws[i + 1], m);
  }

  /** Honesty is needed: the clamp stops at the clock, so a key that presents a cursor it
      was never given deletes mail it has not seen. */
  lemma UnissuedCursorDeletes(k: Key, b: Blob, t: int)
    requires t > 0
    ensures var w0 := World(State({}, 0, {}), map[]);
            var w1 := World(State({Message(k, b, t, {})}, t, {}), map[]);
            var w2 := World(State({}, t, {}), map[0 := Poll(k, t, false)]);
            Run([w0, w1, w2], [Receive(k, b, t), Setup(0, k, t, t)])
  {
    var s0 := State({}, 0, {});
    EmptyInv();
    RoomMade(s0, k);
    assert MakeRoom({}, k) == {};
    var s1 := Append(s0, k, b, t);
    assert s1 == State({Message(k, b, t, {})}, t, {});
    assert Ack(s1, k, t).messages == {};
  }

  // ---- the sweep gives up ----

  ghost predicate Queued(w: World, k: Key, b: Blob, server: Server) {
    exists f :: f in w.relay.forwards && Matches(f, k, b, server)
  }

  predicate IsAttempt(e: Event, k: Key, b: Blob, server: Server) {
    e.Attempt? && e.to == k && e.blob == b && e.server == server
  }

  /** How many sweep attempts on one entry the steps contain. */
  function Attempts(es: seq<Event>, k: Key, b: Blob, server: Server): nat {
    if es == [] then 0
    else Attempts(es[..|es| - 1], k, b, server) + if IsAttempt(es[|es| - 1], k, b, server) then 1 else 0
  }

  lemma SweptCounts(s: State, k: Key, b: Blob, server: Server, ok: bool, f: Forward, f': Forward)
    requires Sound(s.messages, s.forwards)
    requires f in s.forwards && f' in Swept(s, k, b, server, ok).forwards && Matches(f', f.toKey, f.blob, f.toServer)
    ensures f'.retries == f.retries + if Matches(f, k, b, server) then 1 else 0
  {
    var g :| g in s.forwards && f' == Bump(g, k, b, server);
    var h := Bump(g, k, b, server);
    assert h.toKey == g.toKey && h == f';
    assert Matches(g, f.toKey, f.blob, f.toServer);
  }

  /** A step that leaves the entry queued moves its counter by one if it was an attempt on
      it, and not at all otherwise; an attempt at nine removes it. */
  lemma AttemptCounts(w: World, e: Event, w': World, f: Forward, f': Forward)
    requires Inv(w.relay) && Next(w, e, w')
    requires f in w.relay.forwards && f' in w'.relay.forwards && Matches(f', f.toKey, f.blob, f.toServer)
    ensures f'.retries == f.retries + if IsAttempt(e, f.toKey, f.blob, f.toServer) then 1 else 0
  {
    match e
    case Send(to, blob, t, remote) => AppendKeeps(w.relay, to, blob, t);
    case Receive(to, blob, t) => AppendKeeps(w.relay, to, blob, t);
    case Attempt(to, blob, server, ok) => SweptCounts(w.relay, to, blob, server, ok, f, f');
    case _ =>
  }

  lemma RetriesInRange(ws: seq<World>, es: seq<Event>, i: nat, f: Forward)
    requires Run(ws, es) && i <= |es| && f in ws[i].relay.forwards
    ensures 0 <= f.retries < MAX_FORWARD_RETRIES
  {
    AlwaysInv(ws, es, i);
  }

  lemma OneEntry(ws: seq<World>, es: seq<Event>, i: nat, f: Forward, f': Forward)
    requires Run(ws, es) && i <= |es|
    requires f in ws[i].relay.forwards && f' in ws[i].relay.forwards && Matches(f', f.toKey, f.blob, f.toServer)
    ensures f == f'
  {
    AlwaysInv(ws, es, i);
  }

  lemma AttemptAt(ws: seq<World>, es: seq<Event>, i: nat, f: Forward, f': Forward)
    requires Run(ws, es) && i < |es|
    requires f in ws[i].relay.forwards && f' in ws[i + 1].relay.forwards && Matches(f', f.toKey, f.blob, f.toServer)
    ensures f'.retries == f.retries + if IsAttempt(es[i], f.toKey, f.blob, f.toServer) then 1 else 0
  {
    AlwaysInv(ws, es, i);
    assert StepAt(ws, es, i);
    AttemptCounts(ws[i], es[i], ws[i + 1], f, f');
  }

  /** In every run, while an entry stays queued from state `i` to state `j` its counter
      counts the sweep's attempts on it, which are fewer than ten: the tenth is the last. */
  lemma {:induction false} SweepGivesUp(ws: seq<World>, es: seq<Event>, i: nat, j: nat, f: Forward, f': Forward)
    requires Run(ws, es) && i <= j <= |es|
    requires f in ws[i].relay.forwards && f' in ws[j].relay.forwards && Matches(f', f.toKey, f.blob, f.toServer)
    requires forall n :: i <= n <= j ==> Queued(ws[n], f.toKey, f.blob, f.toServer)
    ensures f'.retries == f.retries + Attempts(es[i..j], f.toKey, f.blob, f.toServer)
    ensures Attempts(es[i..j], f.toKey, f.blob, f.toServer) < MAX_FORWARD_RETRIES
    decreases j
  {
    RetriesInRange(ws, es, i, f);
    RetriesInRange(ws, es, j, f');
    if i < j {
      assert Queued(ws[j - 1], f.toKey, f.blob, f.toServer);
      var mid :| mid in ws[j - 1].relay.forwards && Matches(mid, f.toKey, f.blob, f.toServer);
      SweepGivesUp(ws, es, i, j - 1, f, mid);
      AttemptAt(ws, es, j - 1, mid, f');
      var part := es[i..j];
      assert part[..|part| - 1] == es[i..j - 1] && part[|part| - 1] == es[j - 1];
    } else {
      OneEntry(ws, es, i, f, f');
    }
  }
}

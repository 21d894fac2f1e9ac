/** What folding a poll page into the model keeps. */
module ClientIngest {
  import opened Conversations
  import opened ClientModel
  import opened ClientOutbox
  import opened ClientWorld
  import P = Payloads
  import F = Framing

  /** The rest of the model stays; the queue is extended and contacts are only added. */
  ghost predicate Grown(m: Model, m': Model) {
    && m' == m.(contacts := m'.contacts, messages := m'.messages, seen := m'.seen, outbox := m'.outbox, pushed := m'.pushed)
    && m.outbox <= m'.outbox && m'.pushed == m.pushed + |m'.outbox| - |m.outbox|
    && (forall i :: |m.outbox| <= i < |m'.outbox| ==> m'.outbox[i].id >= m.pushed)
    && forall k :: k in m.contacts ==> k in m'.contacts && m'.contacts[k].blocked == m.contacts[k].blocked
  }

  lemma GrownTrans(a: Model, b: Model, c: Model)
    requires Grown(a, b) && Grown(b, c)
    ensures Grown(a, c)
  {
  }

  /** What a page is folded into and by. */
  ghost predicate Ready(m: Model, now: int) {
    && OutInv(m) && InboxInv(m) && AckInv(m, now)
    && m.profile.Profile? && P.Acceptable(m.profile)
    && 0 <= now && P.IsI64(now + MAX_FUTURE_SKEW_MS)
  }

  /** Whoever is owed an ack is a contact we may write to, and every id owed fits the cap. */
  ghost predicate Owable(m: Model, targets: map<Key, seq<Id>>) {
    forall k :: k in targets ==> Reachable(m.contacts, k) && forall id :: id in targets[k] ==> P.ByteLen(id) <= P.MAX_ID_LEN
  }

  // ---- one event ----

  lemma NewContactKeeps(m: Model, k: Key, now: int)
    requires Ready(m, now) && k !in m.contacts
    ensures var m' := m.(contacts := m.contacts[k := NEWCOMER]);
      Grown(m, m') && Ready(m', now) && Reachable(m'.contacts, k)
  {
    var m' := m.(contacts := m.contacts[k := NEWCOMER]);
    assert forall x :: x in m'.outbox ==> GoodItem(m.contacts, m.pushed, x);
    forall j ensures PeerInv(PeerOf(m', j)) { assert PeerOf(m', j) == PeerOf(m, j); }
  }

  lemma PushReady(m: Model, k: Key, p: P.Payload, ts: int, now: int)
    requires Ready(m, now) && Reachable(m.contacts, k) && P.Acceptable(p) && P.IsI64(ts)
    ensures Grown(m, Push(m, k, p, ts)) && Ready(Push(m, k, p, ts), now)
  {
    var m' := Push(m, k, p, ts);
    PushKeeps(m, k, p, ts);
    assert m'.outbox[..|m.outbox|] == m.outbox;
    forall j ensures PeerInv(PeerOf(m', j)) { assert PeerOf(m', j) == PeerOf(m, j); }
  }

  lemma GreetKeeps(m: Model, k: Key, ts: int, now: int)
    requires Ready(m, now) && P.IsI64(ts) && !(k in m.contacts && m.contacts[k].blocked)
    ensures Grown(m, Greet(m, k, ts)) && Ready(Greet(m, k, ts), now) && Reachable(Greet(m, k, ts).contacts, k)
  {
    if k !in m.contacts {
      var m1 := m.(contacts := m.contacts[k := NEWCOMER]);
      NewContactKeeps(m, k, now);
      PushReady(m1, k, m.profile, ts, now);
      GrownTrans(m, m1, Greet(m, k, ts));
    }
  }

  lemma StoreKeeps(m: Model, k: Key, x: StoredMessage, m': Model, now: int)
    requires Ready(m, now) && !x.outgoing && k in m'.messages && k in m'.seen
    requires m' == m.(messages := m.messages[k := m'.messages[k]], seen := m.seen[k := m'.seen[k]])
    requires Received(PeerOf(m, k), x, PeerOf(m', k))
    ensures Grown(m, m') && Ready(m', now)
  {
    ReceivedKeeps(PeerOf(m, k), x, PeerOf(m', k));
    forall j ensures PeerInv(PeerOf(m', j)) {
      assert j != k ==> PeerOf(m', j) == PeerOf(m, j);
    }
  }

  lemma ContactKeeps(m: Model, k: Key, c: Contact, now: int)
    requires Ready(m, now) && k in m.contacts && c.blocked == m.contacts[k].blocked && c.lastAckTs == m.contacts[k].lastAckTs
    ensures Grown(m, m.(contacts := m.contacts[k := c])) && Ready(m.(contacts := m.contacts[k := c]), now)
  {
    var m' := m.(contacts := m.contacts[k := c]);
    assert forall x :: x in m'.outbox ==> GoodItem(m.contacts, m.pushed, x);
    forall j ensures PeerInv(PeerOf(m', j)) { assert PeerOf(m', j) == PeerOf(m, j); }
  }

  lemma TargetKeeps(m: Model, targets: map<Key, seq<Id>>, k: Key, id: Id)
    requires Owable(m, targets) && Reachable(m.contacts, k) && P.ByteLen(id) <= P.MAX_ID_LEN
    ensures Owable(m, Target(targets, k, id))
  {
    var t := Target(targets, k, id);
    forall j | j in t ensures Reachable(m.contacts, j) && forall i :: i in t[j] ==> P.ByteLen(i) <= P.MAX_ID_LEN {
      if j == k { assert forall i :: i in t[k] ==> i == id || (k in targets && i in targets[k]); }
    }
  }

  lemma OwableGrown(m: Model, m': Model, targets: map<Key, seq<Id>>)
    requires Owable(m, targets) && Grown(m, m')
    ensures Owable(m', targets)
  {
  }

  lemma GreetStoreKeeps(m: Model, k: Key, ts: int, x: StoredMessage, m': Model, now: int)
    requires Ready(m, now) && P.IsI64(ts) && !(k in m.contacts && m.contacts[k].blocked)
    requires !x.outgoing && k in m'.messages && k in m'.seen
    requires var m1 := Greet(m, k, ts); m' == m1.(messages := m1.messages[k := m'.messages[k]], seen := m1.seen[k := m'.seen[k]])
    requires Received(PeerOf(m, k), x, PeerOf(m', k))
    ensures Grown(m, m') && Ready(m', now) && Reachable(m'.contacts, k)
  {
    var m1 := Greet(m, k, ts);
    GreetKeeps(m, k, ts, now);
    assert PeerOf(m1, k) == PeerOf(m, k);
    StoreKeeps(m1, k, x, m', now);
    GrownTrans(m, m1, m');
  }

  lemma TextKeeps(m: Model, g: Gathered, d: Decoded, now: int, m': Model, g': Gathered)
    requires Ready(m, now) && Owable(m, g.targets) && P.Acceptable(d.payload) && d.payload.Text?
    requires Absorbed(m, g, d, now, m', g') && m' != m
    ensures Grown(m, m') && Ready(m', now) && Owable(m', g'.targets)
  {
    var ts := ClampTs(d.ts, now);
    var x := StoredMessage(d.payload.id, d.payload.body, ts, false, false);
    GreetStoreKeeps(m, d.sender, ts, x, m', now);
    OwableGrown(m, m', g.targets);
    if d.payload.id !in Seeded(PeerOf(m, d.sender)) { TargetKeeps(m', g.targets, d.sender, d.payload.id); }
  }

  lemma AbsorbedInPlace(m: Model, g: Gathered, d: Decoded, now: int, g': Gathered)
    requires Owable(m, g.targets) && P.Acceptable(d.payload) && d.payload.Text? && Absorbed(m, g, d, now, m, g')
    ensures Owable(m, g'.targets)
  {
    if g' != g {
      assert Reachable(m.contacts, d.sender);
      TargetKeeps(m, g.targets, d.sender, d.payload.id);
    }
  }

  lemma ProfileKeeps(m: Model, g: Gathered, d: Decoded, now: int, m': Model, g': Gathered)
    requires Ready(m, now) && Owable(m, g.targets) && d.payload.Profile?
    requires Absorbed(m, g, d, now, m', g') && m' != m
    ensures Grown(m, m') && Ready(m', now) && Owable(m', g'.targets)
  {
    ContactKeeps(m, d.sender, m'.contacts[d.sender], now);
    OwableGrown(m, m', g.targets);
  }

  lemma AbsorbedKeeps(m: Model, g: Gathered, d: Decoded, now: int, m': Model, g': Gathered)
    requires Ready(m, now) && Owable(m, g.targets) && P.Acceptable(d.payload)
    requires Absorbed(m, g, d, now, m', g')
    ensures Grown(m, m') && Ready(m', now) && Owable(m', g'.targets)
  {
    if m' == m {
      if d.payload.Text? { AbsorbedInPlace(m, g, d, now, g'); }
    } else if d.payload.Text? {
      TextKeeps(m, g, d, now, m', g');
    } else {
      assert d.payload.Profile?;
      ProfileKeeps(m, g, d, now, m', g');
    }
  }

  /** An event changes nothing of a contact but their profile and its watermark, and a new
      contact is not blocked and has neither. */
  lemma AbsorbedContacts(m: Model, g: Gathered, d: Decoded, now: int, m': Model, g': Gathered, k: Key)
    requires Absorbed(m, g, d, now, m', g')
    ensures m'.me == m.me
    ensures k in m.contacts ==>
      k in m'.contacts && m'.contacts[k] == m.contacts[k].(lastProfileTs := m'.contacts[k].lastProfileTs, card := m'.contacts[k].card)
    ensures k in m'.contacts && k !in m.contacts ==> m'.contacts[k] == NEWCOMER
  {
    if m' != m && d.payload.Text? {
      GreetContacts(m, d.sender, ClampTs(d.ts, now), k);
      assert m'.contacts == Greet(m, d.sender, ClampTs(d.ts, now)).contacts;
    }
  }

  lemma GreetContacts(m: Model, s: Key, ts: int, k: Key)
    ensures var c := Greet(m, s, ts).contacts;
      && Greet(m, s, ts).me == m.me
      && (k in m.contacts ==> k in c && c[k] == m.contacts[k])
      && (k in c && k !in m.contacts ==> c[k] == NEWCOMER)
  {
    assert Greet(m, s, ts).contacts == if s in m.contacts then m.contacts else m.contacts[s := NEWCOMER];
  }

  lemma AbsorbedMarks(m: Model, g: Gathered, d: Decoded, now: int, m': Model, g': Gathered, k: Key)
    requires Absorbed(m, g, d, now, m', g') && k in m.contacts
    ensures k in m'.contacts && m'.contacts[k].lastAckTs == m.contacts[k].lastAckTs
  {
    AbsorbedContacts(m, g, d, now, m', g', k);
  }

  // ---- the event loop ----

  ghost predicate Readable(decoded: seq<Decoded>) {
    forall i :: 0 <= i < |decoded| ==> P.Acceptable(decoded[i].payload)
  }

  lemma {:induction false} LoopKeeps(trail: Trail, decoded: seq<Decoded>, now: int, n: nat)
    requires Follows(trail, decoded, now) && Readable(decoded) && n <= |decoded|
    requires Ready(trail.models[0], now)
    ensures Grown(trail.models[0], trail.models[n]) && Ready(trail.models[n], now)
    ensures Owable(trail.models[n], trail.gathered[n].targets)
  {
    if n > 0 {
      LoopKeeps(trail, decoded, now, n - 1);
      assert AbsorbedAt(trail, decoded, now, n - 1);
      AbsorbedKeeps(trail.models[n - 1], trail.gathered[n - 1], decoded[n - 1], now, trail.models[n], trail.gathered[n]);
      GrownTrans(trail.models[0], trail.models[n - 1], trail.models[n]);
    }
  }

  lemma {:induction false} LoopMarks(trail: Trail, decoded: seq<Decoded>, now: int, n: nat, k: Key)
    requires Follows(trail, decoded, now) && n <= |decoded| && k in trail.models[0].contacts
    ensures k in trail.models[n].contacts && trail.models[n].contacts[k].lastAckTs == trail.models[0].contacts[k].lastAckTs
  {
    if n > 0 {
      LoopMarks(trail, decoded, now, n - 1, k);
      assert AbsorbedAt(trail, decoded, now, n - 1);
      AbsorbedMarks(trail.models[n - 1], trail.gathered[n - 1], decoded[n - 1], now, trail.models[n], trail.gathered[n], k);
    }
  }

  // ---- after the loop ----

  /** Acks only move watermarks forward, and never past the clock. */
  lemma ApplyAcksKeeps(m: Model, acks: map<Key, PendingAck>, now: int)
    requires Ready(m, now)
    ensures var m' := ApplyAcks(m, acks, now);
      && Grown(m, m') && Ready(m', now)
      && forall k :: k in m.contacts ==> m.contacts[k].lastAckTs <= m'.contacts[k].lastAckTs
  {
    var m' := ApplyAcks(m, acks, now);
    forall x | x in m'.outbox ensures GoodItem(m'.contacts, m'.pushed, x) {
      assert GoodItem(m.contacts, m.pushed, x);
    }
    forall k ensures PeerInv(PeerOf(m', k)) {
      assert PeerInv(PeerOf(m, k));
      if k in m.messages && k in acks && !Stale(m, acks, k) { MarkKeeps(PeerOf(m, k), acks[k].ids); }
    }
  }

  lemma {:induction false} PushAcksKeeps(m: Model, k: Key, chunks: seq<seq<Id>>, now: int)
    requires Ready(m, now) && Reachable(m.contacts, k)
    requires forall i :: 0 <= i < |chunks| ==> P.Acceptable(P.Ack(chunks[i]))
    ensures var m' := PushAcks(m, k, chunks, now);
      Grown(m, m') && Ready(m', now) && m' == m.(outbox := m'.outbox, pushed := m'.pushed)
  {
    if chunks != [] {
      var front := chunks[..|chunks| - 1];
      PushAcksKeeps(m, k, front, now);
      var m1 := PushAcks(m, k, front, now);
      var m' := PushAcks(m, k, chunks, now);
      PushReady(m1, k, P.Ack(chunks[|chunks| - 1]), now, now);
      GrownTrans(m, m1, m');
    }
  }

  lemma {:induction false} OweAcksKeeps(m: Model, targets: map<Key, seq<Id>>, senders: seq<Key>, now: int)
    requires Ready(m, now) && Owable(m, targets) && forall k :: k in senders ==> k in targets
    ensures var m' := OweAcks(m, targets, senders, now);
      Grown(m, m') && Ready(m', now) && m' == m.(outbox := m'.outbox, pushed := m'.pushed)
  {
    if senders != [] {
      var front, k := senders[..|senders| - 1], senders[|senders| - 1];
      OweAcksKeeps(m, targets, front, now);
      var m1 := OweAcks(m, targets, front, now);
      forall i | 0 <= i < |P.Chunks(targets[k])| ensures P.Acceptable(P.Ack(P.Chunks(targets[k])[i])) {
        P.ChunkAcceptable(targets[k], i);
      }
      PushAcksKeeps(m1, k, P.Chunks(targets[k]), now);
      GrownTrans(m, m1, OweAcks(m, targets, senders, now));
    }
  }

  // ---- the page ----

  ghost predicate ReadablePage(events: seq<PageEvent>) {
    forall i :: 0 <= i < |events| && events[i].content.Some? ==> P.Acceptable(events[i].content.value.payload)
  }

  lemma {:induction false} AdmitReadable(events: seq<PageEvent>, processed: nat, room: nat, decoded: seq<Decoded>)
    requires ReadablePage(events) && Readable(decoded)
    ensures Readable(Admit(events, processed, room, decoded).decoded)
    decreases |events|
  {
    if events != [] {
      var e := events[0];
      if e.size > F.MAX_BLOB_LEN * 2 {
        AdmitReadable(events[1..], processed, room, decoded);
      } else if processed >= MAX_POLL_EVENTS || e.size / 2 > room {
      } else {
        AdmitReadable(events[1..], processed + 1, room - e.size / 2, if e.content.Some? then decoded + [e.content.value] else decoded);
      }
    }
  }

  /** A folded page only adds contacts and queued items, keeps every conversation ordered
      and free of repeats, and moves no watermark back or past the clock. */
  lemma IngestedKeeps(m: Model, pageCursor: int, events: seq<PageEvent>, now: int, trail: Trail, m': Model)
    requires Ready(m, now) && ReadablePage(events) && Ingested(m, pageCursor, events, now, trail, m')
    ensures Grown(m.(cursor := NextCursor(m.cursor, pageCursor, events, now)), m') && Ready(m', now)
    ensures forall k :: k in m.contacts ==> k in m'.contacts && m.contacts[k].lastAckTs <= m'.contacts[k].lastAckTs
  {
    var a := AdmitPage(events);
    var n := |a.decoded|;
    var m0 := trail.models[0];
    forall k ensures PeerInv(PeerOf(m0, k)) { assert PeerOf(m0, k) == PeerOf(m, k); }
    AdmitReadable(events, 0, MAX_POLL_TOTAL_BYTES, []);
    LoopKeeps(trail, a.decoded, now, n);
    var m1, g := trail.models[n], trail.gathered[n];
    ApplyAcksKeeps(m1, g.acks, now);
    var m2 := ApplyAcks(m1, g.acks, now);
    OwableGrown(m1, m2, g.targets);
    OweAcksKeeps(m2, g.targets, trail.senders, now);
    GrownTrans(m0, m1, m2);
    GrownTrans(m0, m2, m');
    forall k | k in m.contacts ensures k in m'.contacts && m.contacts[k].lastAckTs <= m'.contacts[k].lastAckTs {
      LoopMarks(trail, a.decoded, now, n, k);
    }
  }
}

/** Delivery acks: those a page brings, and those it makes us owe. */
module ClientAcks {
  import opened Conversations
  import opened ClientModel
  import opened ClientWorld
  import opened ClientIngest
  import opened ClientPages
  import P = Payloads

  predicate Heard(m: Model, k: Key) { k != m.me && !(k in m.contacts && m.contacts[k].blocked) }

  // ---- the order of a page ----

  predicate IsAckFrom(d: Decoded, k: Key) { d.sender == k && d.payload.Ack? }

  ghost predicate Sends(ds: seq<Decoded>, k: Key, id: Id) {
    exists d :: d in ds && IsAckFrom(d, k) && id in d.payload.ids
  }

  ghost predicate Acked(ds: seq<Decoded>, k: Key) { exists d :: d in ds && IsAckFrom(d, k) }

  /** The latest of one sender's ack dates, and zero if there is none later. */
  ghost predicate Latest(ds: seq<Decoded>, k: Key, now: int, ts: int) {
    && 0 <= ts
    && (forall d :: d in ds && IsAckFrom(d, k) ==> ClampTs(d.ts, now) <= ts)
    && (ts != 0 ==> exists d :: d in ds && IsAckFrom(d, k) && ClampTs(d.ts, now) == ts)
  }

  /** The acks collected from a page, said without an order. */
  ghost predicate CollectsFrom(m: Model, ds: seq<Decoded>, now: int, acks: map<Key, PendingAck>, k: Key) {
    && (k in acks <==> Heard(m, k) && Acked(ds, k))
    && (k in acks ==> Latest(ds, k, now, acks[k].ts) && forall id :: id in acks[k].ids <==> Sends(ds, k, id))
  }

  ghost predicate Collects(m: Model, ds: seq<Decoded>, now: int, acks: map<Key, PendingAck>) {
    forall k :: CollectsFrom(m, ds, now, acks, k)
  }

  ghost predicate SameElements(a: seq<Decoded>, b: seq<Decoded>) { forall d :: d in a <==> d in b }

  lemma LatestOnce(a: seq<Decoded>, b: seq<Decoded>, k: Key, now: int, s: int, t: int)
    requires Latest(a, k, now, s) && Latest(b, k, now, t) && SameElements(a, b)
    ensures s <= t
  {
    if s != 0 { var d :| d in a && IsAckFrom(d, k) && ClampTs(d.ts, now) == s; assert d in b; }
  }

  lemma CollectsAt(m: Model, a: seq<Decoded>, b: seq<Decoded>, now: int, x: map<Key, PendingAck>, y: map<Key, PendingAck>, k: Key)
    requires CollectsFrom(m, a, now, x, k) && CollectsFrom(m, b, now, y, k) && SameElements(a, b)
    ensures k in x <==> k in y
    ensures k in x ==> x[k] == y[k]
  {
    assert Acked(a, k) <==> Acked(b, k);
    if k in x {
      LatestOnce(a, b, k, now, x[k].ts, y[k].ts);
      LatestOnce(b, a, k, now, y[k].ts, x[k].ts);
      forall id ensures id in x[k].ids <==> id in y[k].ids { assert Sends(a, k, id) <==> Sends(b, k, id); }
      assert x[k].ids == y[k].ids;
    }
  }

  /** What was collected depends on what the page holds, not on its order. */
  lemma CollectsOnce(m: Model, a: seq<Decoded>, b: seq<Decoded>, now: int, x: map<Key, PendingAck>, y: map<Key, PendingAck>)
    requires Collects(m, a, now, x) && Collects(m, b, now, y) && SameElements(a, b)
    ensures x == y
  {
    forall k ensures (k in x <==> k in y) && (k in x ==> x[k] == y[k]) { CollectsAt(m, a, b, now, x, y, k); }
  }

  ghost predicate AllAcks(ds: seq<Decoded>) { forall d :: d in ds ==> d.payload.Ack? }

  lemma Snoc(ds: seq<Decoded>, d: Decoded, k: Key, id: Id)
    requires d.payload.Ack?
    ensures Acked(ds + [d], k) <==> Acked(ds, k) || d.sender == k
    ensures Sends(ds + [d], k, id) <==> Sends(ds, k, id) || (d.sender == k && id in d.payload.ids)
  {
    assert forall x :: x in ds + [d] <==> x in ds || x == d;
    assert d in ds + [d] && IsAckFrom(d, d.sender);
  }

  lemma LatestSnoc(ds: seq<Decoded>, d: Decoded, k: Key, now: int, ts: int)
    requires d.payload.Ack? && Latest(ds, k, now, ts)
    ensures Latest(ds + [d], k, now, if d.sender == k then Max(ts, ClampTs(d.ts, now)) else ts)
  {
    var ts' := if d.sender == k then Max(ts, ClampTs(d.ts, now)) else ts;
    assert forall x :: x in ds + [d] <==> x in ds || x == d;
    if ts' != 0 {
      if ts' == ts {
        var x :| x in ds && IsAckFrom(x, k) && ClampTs(x.ts, now) == ts;
        assert x in ds + [d];
      } else {
        assert d in ds + [d] && IsAckFrom(d, k);
      }
    }
  }

  lemma CollectsSnoc(m: Model, ds: seq<Decoded>, d: Decoded, now: int, acks: map<Key, PendingAck>, k: Key)
    requires CollectsFrom(m, ds, now, acks, k) && d.payload.Ack?
    ensures CollectsFrom(m, ds + [d], now,
      if Heard(m, d.sender) then AddAck(acks, d.sender, ClampTs(d.ts, now), d.payload.ids) else acks, k)
  {
    var acks' := if Heard(m, d.sender) then AddAck(acks, d.sender, ClampTs(d.ts, now), d.payload.ids) else acks;
    Snoc(ds, d, k, "");
    if k in acks' {
      var prev := if k in acks then acks[k] else PendingAck(0, {});
      LatestSnoc(ds, d, k, now, prev.ts);
      forall id ensures id in acks'[k].ids <==> Sends(ds + [d], k, id) {
        Snoc(ds, d, k, id);
        assert k !in acks ==> !Sends(ds, k, id);
      }
    }
  }

  /** Acks alone leave the model as it is until they are applied. */
  lemma {:induction false} AckLoop(trail: Trail, ds: seq<Decoded>, now: int, n: nat)
    requires Follows(trail, ds, now) && AllAcks(ds) && n <= |ds|
    ensures trail.models[n] == trail.models[0] && trail.gathered[n].targets == map[]
    ensures Collects(trail.models[0], ds[..n], now, trail.gathered[n].acks)
  {
    if n > 0 {
      AckLoop(trail, ds, now, n - 1);
      assert AbsorbedAt(trail, ds, now, n - 1);
      assert ds[n - 1] in ds;
      assert ds[..n] == ds[..n - 1] + [ds[n - 1]];
      forall k ensures CollectsFrom(trail.models[0], ds[..n], now, trail.gathered[n].acks, k) {
        CollectsSnoc(trail.models[0], ds[..n - 1], ds[n - 1], now, trail.gathered[n - 1].acks, k);
      }
    }
  }

  // ---- pages of acks ----

  ghost predicate AckPage(events: seq<PageEvent>) {
    forall e :: e in events && e.content.Some? ==> e.content.value.payload.Ack?
  }

  lemma AckPageResult(m: Model, cursor: int, events: seq<PageEvent>, now: int, trail: Trail, m': Model)
    requires Ingested(m, cursor, events, now, trail, m') && InCaps(events) && AckPage(events)
    ensures var ds := AdmitPage(events).decoded;
      var m0 := m.(cursor := NextCursor(m.cursor, cursor, events, now));
      Collects(m0, ds, now, trail.gathered[|ds|].acks) && m' == ApplyAcks(m0, trail.gathered[|ds|].acks, now)
  {
    var ds := AdmitPage(events).decoded;
    assert trail.senders != [] ==> trail.senders[0] in trail.senders;
    AdmitAll(events);
    forall d | d in ds ensures d.payload.Ack? {
      assert Yields(events, d);
    }
    AckLoop(trail, ds, now, |ds|);
    assert ds[..|ds|] == ds;
  }

  /** A page of acks within the caps has the same effect in whatever order its events come. */
  lemma AckPagesPermute(m: Model, cursor: int, events: seq<PageEvent>, events': seq<PageEvent>, now: int,
                        trail: Trail, trail': Trail, m1: Model, m2: Model)
    requires multiset(events) == multiset(events') && InCaps(events) && AckPage(events)
    requires Ingested(m, cursor, events, now, trail, m1) && Ingested(m, cursor, events', now, trail', m2)
    ensures m1 == m2
  {
    LoadPermutes(events, events');
    forall e ensures e in events <==> e in events' { assert e in multiset(events) <==> e in multiset(events'); }
    AckPageResult(m, cursor, events, now, trail, m1);
    AckPageResult(m, cursor, events', now, trail', m2);
    AdmitAll(events);
    AdmitAll(events');
    var ds, ds' := AdmitPage(events).decoded, AdmitPage(events').decoded;
    forall d ensures d in ds <==> d in ds' { assert Yields(events, d) <==> Yields(events', d); }
    assert events == [] <==> events' == [] by { assert |multiset(events)| == |events| && |multiset(events')| == |events'|; }
    var m0 := m.(cursor := NextCursor(m.cursor, cursor, events, now));
    CollectsOnce(m0, ds, ds', now, trail.gathered[|ds|].acks, trail'.gathered[|ds'|].acks);
  }

  // ---- an ack that is not stale counts ----

  lemma AbsorbedNew(m: Model, g: Gathered, d: Decoded, now: int, m': Model, g': Gathered, k: Key)
    requires Absorbed(m, g, d, now, m', g') && k !in m.contacts && k in m'.contacts
    ensures m'.contacts[k].lastAckTs == 0
  {
    AbsorbedContacts(m, g, d, now, m', g', k);
  }

  lemma {:induction false} NewAreUnmarked(trail: Trail, ds: seq<Decoded>, now: int, n: nat, k: Key)
    requires Follows(trail, ds, now) && n <= |ds| && k !in trail.models[0].contacts && k in trail.models[n].contacts
    ensures trail.models[n].contacts[k].lastAckTs == 0
  {
    if n > 0 {
      assert AbsorbedAt(trail, ds, now, n - 1);
      if k in trail.models[n - 1].contacts {
        NewAreUnmarked(trail, ds, now, n - 1, k);
        AbsorbedMarks(trail.models[n - 1], trail.gathered[n - 1], ds[n - 1], now, trail.models[n], trail.gathered[n], k);
      } else {
        AbsorbedNew(trail.models[n - 1], trail.gathered[n - 1], ds[n - 1], now, trail.models[n], trail.gathered[n], k);
      }
    }
  }

  /** The gathered acks hold the ack: its ids, and a date no earlier than its own. */
  predicate Holds(acks: map<Key, PendingAck>, k: Key, ts: int, ids: seq<Id>) {
    k in acks && ts <= acks[k].ts && forall id :: id in ids ==> id in acks[k].ids
  }

  lemma HoldsStays(m: Model, g: Gathered, d: Decoded, now: int, m': Model, g': Gathered, k: Key, ts: int, ids: seq<Id>)
    requires Absorbed(m, g, d, now, m', g') && Holds(g.acks, k, ts, ids)
    ensures Holds(g'.acks, k, ts, ids)
  {
  }

  lemma {:induction false} AckIsGathered(trail: Trail, ds: seq<Decoded>, now: int, i: nat, n: nat)
    requires Follows(trail, ds, now) && i < n <= |ds| && ds[i].payload.Ack? && Heard(trail.models[i], ds[i].sender)
    ensures Holds(trail.gathered[n].acks, ds[i].sender, ClampTs(ds[i].ts, now), ds[i].payload.ids)
  {
    assert AbsorbedAt(trail, ds, now, n - 1);
    if n - 1 > i {
      AckIsGathered(trail, ds, now, i, n - 1);
      HoldsStays(trail.models[n - 1], trail.gathered[n - 1], ds[n - 1], now, trail.models[n], trail.gathered[n],
                 ds[i].sender, ClampTs(ds[i].ts, now), ds[i].payload.ids);
    }
  }

  lemma AppliedAck(m: Model, acks: map<Key, PendingAck>, now: int, k: Key, ts: int, ids: seq<Id>)
    requires Holds(acks, k, ts, ids) && (k in m.contacts ==> m.contacts[k].lastAckTs <= ts)
    ensures var m' := ApplyAcks(m, acks, now);
      k in m'.messages ==> forall x :: x in m'.messages[k] && x.outgoing && x.id in ids ==> x.delivered
  {
    var m' := ApplyAcks(m, acks, now);
    if k in m'.messages {
      forall x | x in m'.messages[k] && x.outgoing && x.id in ids ensures x.delivered {
        var j :| 0 <= j < |m'.messages[k]| && m'.messages[k][j] == x;
        assert x == MarkOne(m.messages[k][j], acks[k].ids);
      }
    }
  }

  /** An ack dated no earlier than the clock of every earlier step is never dropped as
      stale, wherever in its page it comes: our messages it names end up delivered. */
  lemma FreshAckCounts(m: Model, cursor: int, events: seq<PageEvent>, clock: int, now: int, trail: Trail, m': Model, i: nat)
    requires Ready(m, now) && AckInv(m, clock) && 0 <= clock <= now && ReadablePage(events)
    requires Ingested(m, cursor, events, now, trail, m') && i < |AdmitPage(events).decoded|
    requires var d := AdmitPage(events).decoded[i]; d.payload.Ack? && Heard(m, d.sender) && clock <= d.ts
    ensures var d := AdmitPage(events).decoded[i];
      d.sender in m'.messages ==> forall x :: x in m'.messages[d.sender] && x.outgoing && x.id in d.payload.ids ==> x.delivered
  {
    var ds := AdmitPage(events).decoded;
    var n, d := |ds|, ds[i];
    LoopReady(m, cursor, events, now, trail, m');
    LoopKeeps(trail, ds, now, i);
    LoopKeeps(trail, ds, now, n);
    StillHeard(trail, ds, now, i, d.sender);
    AckIsGathered(trail, ds, now, i, n);
    StillMarked(trail, ds, now, n, d.sender, clock);
    var m1, g := trail.models[n], trail.gathered[n];
    AppliedAck(m1, g.acks, now, d.sender, ClampTs(d.ts, now), d.payload.ids);
    ApplyAcksKeeps(m1, g.acks, now);
    OwableGrown(m1, ApplyAcks(m1, g.acks, now), g.targets);
    OweAcksKeeps(ApplyAcks(m1, g.acks, now), g.targets, trail.senders, now);
  }

  /** The loop over the events moves no watermark past `clock`. */
  lemma StillMarked(trail: Trail, ds: seq<Decoded>, now: int, n: nat, k: Key, clock: int)
    requires Follows(trail, ds, now) && n <= |ds| && AckInv(trail.models[0], clock) && 0 <= clock
    ensures k in trail.models[n].contacts ==> trail.models[n].contacts[k].lastAckTs <= clock
  {
    if k in trail.models[0].contacts {
      LoopMarks(trail, ds, now, n, k);
    } else if k in trail.models[n].contacts {
      NewAreUnmarked(trail, ds, now, n, k);
    }
  }

  lemma LoopReady(m: Model, cursor: int, events: seq<PageEvent>, now: int, trail: Trail, m': Model)
    requires Ready(m, now) && ReadablePage(events) && Ingested(m, cursor, events, now, trail, m')
    ensures Ready(trail.models[0], now) && Readable(AdmitPage(events).decoded)
  {
    AdmitReadable(events, 0, MAX_POLL_TOTAL_BYTES, []);
    forall k ensures PeerInv(PeerOf(trail.models[0], k)) { assert PeerOf(trail.models[0], k) == PeerOf(m, k); }
  }

  lemma AbsorbedHeard(m: Model, g: Gathered, d: Decoded, now: int, m': Model, g': Gathered, k: Key)
    requires Absorbed(m, g, d, now, m', g') && Heard(m, k)
    ensures Heard(m', k)
  {
    AbsorbedContacts(m, g, d, now, m', g', k);
  }

  lemma {:induction false} StillHeard(trail: Trail, ds: seq<Decoded>, now: int, n: nat, k: Key)
    requires Follows(trail, ds, now) && n <= |ds| && Heard(trail.models[0], k)
    ensures Heard(trail.models[n], k)
  {
    if n > 0 {
      StillHeard(trail, ds, now, n - 1, k);
      assert AbsorbedAt(trail, ds, now, n - 1);
      AbsorbedHeard(trail.models[n - 1], trail.gathered[n - 1], ds[n - 1], now, trail.models[n], trail.gathered[n], k);
    }
  }

  // ---- the acks we owe ----

  function ReadIds(j: P.Json): seq<Id> {
    var p := P.Parse(j);
    if p.Some? && p.value.payload.Ack? then p.value.payload.ids else []
  }

  /** Each item is an ack, dated `now`, to any reader. */
  ghost predicate AcksOf(items: seq<Item>, now: int) {
    forall x :: x in items ==> P.Parse(x.envelope).Some? && P.Parse(x.envelope).value.ts == now && P.Parse(x.envelope).value.payload.Ack?
  }

  lemma AckIsDated(m: Model, s: Key, c: seq<Id>, now: int)
    requires P.IsI64(now) && P.Acceptable(P.Ack(c))
    ensures AcksOf([Item(m.pushed, s, P.Serialize(P.Ack(c), now), false, 0, 0)], now)
  {
    P.CleanedAcceptable(P.Ack(c));
    P.PayloadRoundTrip(P.Ack(c), now);
  }

  /** The queue is extended by acks dated `now`. */
  ghost predicate AddsAcks(a: seq<Item>, b: seq<Item>, now: int) { a <= b && AcksOf(b[|a|..], now) }

  lemma AddsAcksNext(a: seq<Item>, b: seq<Item>, x: Item, now: int)
    requires AddsAcks(a, b, now) && AcksOf([x], now)
    ensures AddsAcks(a, b + [x], now)
  {
    assert x in [x] && (b + [x])[|a|..] == b[|a|..] + [x];
  }

  lemma AddsAcksTrans(a: seq<Item>, b: seq<Item>, c: seq<Item>, now: int)
    requires AddsAcks(a, b, now) && AddsAcks(b, c, now)
    ensures AddsAcks(a, c, now)
  {
    assert c[|a|..] == b[|a|..] + c[|b|..];
  }

  lemma {:induction false} PushedAcksAreDated(m: Model, s: Key, chunks: seq<seq<Id>>, now: int)
    requires P.IsI64(now) && forall i :: 0 <= i < |chunks| ==> P.Acceptable(P.Ack(chunks[i]))
    ensures AddsAcks(m.outbox, PushAcks(m, s, chunks, now).outbox, now)
  {
    if chunks != [] {
      var front, c := chunks[..|chunks| - 1], chunks[|chunks| - 1];
      PushedAcksAreDated(m, s, front, now);
      var mid := PushAcks(m, s, front, now);
      AckIsDated(mid, s, c, now);
      AddsAcksNext(m.outbox, mid.outbox, Item(mid.pushed, s, P.Serialize(P.Ack(c), now), false, 0, 0), now);
    }
  }

  lemma {:induction false} OwedAcksAreDated(m: Model, targets: map<Key, seq<Id>>, senders: seq<Key>, now: int)
    requires P.IsI64(now) && forall s :: s in senders ==> s in targets
    requires forall s :: s in targets ==> forall id :: id in targets[s] ==> P.ByteLen(id) <= P.MAX_ID_LEN
    ensures AddsAcks(m.outbox, OweAcks(m, targets, senders, now).outbox, now)
  {
    if senders != [] {
      var front, s := senders[..|senders| - 1], senders[|senders| - 1];
      OwedAcksAreDated(m, targets, front, now);
      var mid := OweAcks(m, targets, front, now);
      forall i | 0 <= i < |P.Chunks(targets[s])| ensures P.Acceptable(P.Ack(P.Chunks(targets[s])[i])) { P.ChunkAcceptable(targets[s], i); }
      PushedAcksAreDated(mid, s, P.Chunks(targets[s]), now);
      AddsAcksTrans(m.outbox, mid.outbox, OweAcks(m, targets, senders, now).outbox, now);
    }
  }

  /** The ids acked to a peer by the queued items, in order. */
  function AckedTo(items: seq<Item>, k: Key): seq<Id> {
    if items == [] then []
    else
      var x := items[|items| - 1];
      AckedTo(items[..|items| - 1], k) + if x.recipient == k then ReadIds(x.envelope) else []
  }

  lemma AckedSnoc(items: seq<Item>, x: Item, k: Key)
    ensures AckedTo(items + [x], k) == AckedTo(items, k) + if x.recipient == k then ReadIds(x.envelope) else []
  {
    assert (items + [x])[..|items|] == items;
  }

  lemma ReadBack(p: P.Payload, ts: int)
    requires P.IsI64(ts) && P.Acceptable(p)
    ensures ReadIds(P.Serialize(p, ts)) == if p.Ack? then p.ids else []
  {
    P.CleanedAcceptable(p);
    P.PayloadRoundTrip(p, ts);
  }

  lemma {:induction false} ConcatSnoc(chunks: seq<seq<string>>, c: seq<string>)
    ensures P.Concat(chunks + [c]) == P.Concat(chunks) + c
  {
    if chunks == [] {
      assert [c][1..] == [];
      assert chunks + [c] == [c];
    } else {
      ConcatSnoc(chunks[1..], c);
      assert (chunks + [c])[1..] == chunks[1..] + [c];
    }
  }

  lemma PushedAck(m: Model, s: Key, c: seq<Id>, now: int, k: Key)
    requires P.IsI64(now) && P.Acceptable(P.Ack(c))
    ensures AckedTo(Push(m, s, P.Ack(c), now).outbox, k) == AckedTo(m.outbox, k) + if k == s then c else []
  {
    AckedSnoc(m.outbox, Item(m.pushed, s, P.Serialize(P.Ack(c), now), false, 0, 0), k);
    ReadBack(P.Ack(c), now);
  }

  lemma Associate(a: seq<Id>, b: seq<Id>, c: seq<Id>)
    ensures (a + b) + c == a + (b + c)
  {
  }

  lemma ConcatMore(done: seq<Id>, front: seq<seq<Id>>, c: seq<Id>)
    ensures (done + P.Concat(front)) + c == done + P.Concat(front + [c])
  {
    ConcatSnoc(front, c);
    Associate(done, P.Concat(front), c);
  }

  lemma {:induction false} PushedAcks(m: Model, s: Key, chunks: seq<seq<Id>>, now: int, k: Key)
    requires P.IsI64(now) && forall i :: 0 <= i < |chunks| ==> P.Acceptable(P.Ack(chunks[i]))
    ensures AckedTo(PushAcks(m, s, chunks, now).outbox, k) == AckedTo(m.outbox, k) + if k == s then P.Concat(chunks) else []
  {
    if chunks != [] {
      var front, c := chunks[..|chunks| - 1], chunks[|chunks| - 1];
      PushedAcks(m, s, front, now, k);
      PushedAck(PushAcks(m, s, front, now), s, c, now, k);
      assert chunks == front + [c];
      ConcatMore(AckedTo(m.outbox, k), front, c);
    }
  }

  lemma OwedOne(m: Model, s: Key, ids: seq<Id>, now: int, k: Key)
    requires P.IsI64(now) && forall id :: id in ids ==> P.ByteLen(id) <= P.MAX_ID_LEN
    ensures AckedTo(PushAcks(m, s, P.Chunks(ids), now).outbox, k) == AckedTo(m.outbox, k) + if k == s then ids else []
  {
    forall i | 0 <= i < |P.Chunks(ids)| ensures P.Acceptable(P.Ack(P.Chunks(ids)[i])) { P.ChunkAcceptable(ids, i); }
    PushedAcks(m, s, P.Chunks(ids), now, k);
    P.ChunksCover(ids);
  }

  ghost predicate NoRepeats(senders: seq<Key>) { forall i, j :: 0 <= i < j < |senders| ==> senders[i] != senders[j] }

  lemma LastIsNew(senders: seq<Key>)
    requires NoRepeats(senders) && senders != []
    ensures var front := senders[..|senders| - 1];
      NoRepeats(front) && senders[|senders| - 1] !in front && forall k :: k in senders <==> k in front || k == senders[|senders| - 1]
  {
  }

  /** Each sender is queued acks for exactly the ids owed to them, in order. */
  lemma {:induction false} OwedAcks(m: Model, targets: map<Key, seq<Id>>, senders: seq<Key>, now: int, k: Key)
    requires P.IsI64(now) && NoRepeats(senders) && forall s :: s in senders ==> s in targets
    requires forall s :: s in targets ==> forall id :: id in targets[s] ==> P.ByteLen(id) <= P.MAX_ID_LEN
    ensures AckedTo(OweAcks(m, targets, senders, now).outbox, k) == AckedTo(m.outbox, k) + if k in senders then targets[k] else []
  {
    if senders != [] {
      LastIsNew(senders);
      OwedAcks(m, targets, senders[..|senders| - 1], now, k);
      OwedNext(m, targets, senders, now, k);
    }
  }

  lemma OwedNext(m: Model, targets: map<Key, seq<Id>>, senders: seq<Key>, now: int, k: Key)
    requires P.IsI64(now) && senders != [] && forall s :: s in senders ==> s in targets
    requires forall id :: id in targets[senders[|senders| - 1]] ==> P.ByteLen(id) <= P.MAX_ID_LEN
    ensures var s, before := senders[|senders| - 1], OweAcks(m, targets, senders[..|senders| - 1], now);
      AckedTo(OweAcks(m, targets, senders, now).outbox, k) == AckedTo(before.outbox, k) + if k == s then targets[s] else []
  {
    var s := senders[|senders| - 1];
    OwedOne(OweAcks(m, targets, senders[..|senders| - 1], now), s, targets[s], now, k);
  }

  /** The event is a text that is taken into its sender's conversation. */
  predicate Stores(m: Model, d: Decoded) {
    && Heard(m, d.sender) && d.payload.Text?
    && (d.sender in m.contacts || |m.contacts| < 500)
    && d.payload.id !in Seeded(PeerOf(m, d.sender))
  }

  /** The ids stored from one sender by the first `n` events, in page order. */
  function StoredFrom(trail: Trail, ds: seq<Decoded>, k: Key, n: nat): seq<Id>
    requires n <= |ds| <= |trail.models|
  {
    if n == 0 then []
    else
      var d := ds[n - 1];
      StoredFrom(trail, ds, k, n - 1) + if d.sender == k && Stores(trail.models[n - 1], d) then [d.payload.id] else []
  }

  function Owed(targets: map<Key, seq<Id>>, k: Key): seq<Id> { if k in targets then targets[k] else [] }

  lemma AbsorbedOwes(m: Model, g: Gathered, d: Decoded, now: int, m': Model, g': Gathered, k: Key)
    requires Absorbed(m, g, d, now, m', g')
    ensures Owed(g'.targets, k) == Owed(g.targets, k) + if d.sender == k && Stores(m, d) then [d.payload.id] else []
  {
  }

  lemma TargetsNext(trail: Trail, ds: seq<Decoded>, now: int, n: nat, k: Key)
    requires Follows(trail, ds, now) && n < |ds| && Owed(trail.gathered[n].targets, k) == StoredFrom(trail, ds, k, n)
    ensures Owed(trail.gathered[n + 1].targets, k) == StoredFrom(trail, ds, k, n + 1)
  {
    assert AbsorbedAt(trail, ds, now, n);
    AbsorbedOwes(trail.models[n], trail.gathered[n], ds[n], now, trail.models[n + 1], trail.gathered[n + 1], k);
  }

  lemma TargetsAreStored(trail: Trail, ds: seq<Decoded>, now: int, n: nat, k: Key)
    requires Follows(trail, ds, now) && n <= |ds|
    ensures Owed(trail.gathered[n].targets, k) == StoredFrom(trail, ds, k, n)
  {
    for i := 0 to n
      invariant Owed(trail.gathered[i].targets, k) == StoredFrom(trail, ds, k, i)
    {
      TargetsNext(trail, ds, now, i, k);
    }
  }

  lemma GreetAcksNothing(m: Model, s: Key, ts: int, k: Key)
    requires P.IsI64(ts) && m.profile.Profile? && P.Acceptable(m.profile)
    ensures AckedTo(Greet(m, s, ts).outbox, k) == AckedTo(m.outbox, k)
  {
    if s !in m.contacts {
      AckedSnoc(m.outbox, Item(m.pushed, s, P.Serialize(m.profile, ts), true, 0, 0), k);
      ReadBack(m.profile, ts);
    }
  }

  lemma AbsorbedAcksNothing(trail: Trail, ds: seq<Decoded>, now: int, n: nat, k: Key)
    requires Follows(trail, ds, now) && Readable(ds) && n < |ds| && Ready(trail.models[0], now)
    ensures AckedTo(trail.models[n + 1].outbox, k) == AckedTo(trail.models[n].outbox, k)
  {
    LoopKeeps(trail, ds, now, n);
    assert AbsorbedAt(trail, ds, now, n);
    GreetAcksNothing(trail.models[n], ds[n].sender, ClampTs(ds[n].ts, now), k);
  }

  lemma LoopAcksNothing(trail: Trail, ds: seq<Decoded>, now: int, n: nat, k: Key)
    requires Follows(trail, ds, now) && Readable(ds) && n <= |ds| && Ready(trail.models[0], now)
    ensures AckedTo(trail.models[n].outbox, k) == AckedTo(trail.models[0].outbox, k)
  {
    for i := 0 to n
      invariant AckedTo(trail.models[i].outbox, k) == AckedTo(trail.models[0].outbox, k)
    {
      AbsorbedAcksNothing(trail, ds, now, i, k);
    }
  }

  /** After a page the queue acks to each sender exactly the ids that were stored from that
      sender's texts in this page, in page order, in payloads a reader accepts, behind
      everything else that the page queued, and dated when it was folded in. */
  lemma AcksMatchStored(m: Model, cursor: int, events: seq<PageEvent>, now: int, trail: Trail, m': Model, k: Key)
    requires Ready(m, now) && ReadablePage(events) && Ingested(m, cursor, events, now, trail, m')
    ensures var ds := AdmitPage(events).decoded;
      && AckedTo(m'.outbox, k) == AckedTo(m.outbox, k) + StoredFrom(trail, ds, k, |ds|)
      && AddsAcks(trail.models[|ds|].outbox, m'.outbox, now)
  {
    var ds := AdmitPage(events).decoded;
    var n := |ds|;
    LoopReady(m, cursor, events, now, trail, m');
    LoopKeeps(trail, ds, now, n);
    LoopAcksNothing(trail, ds, now, n, k);
    TargetsAreStored(trail, ds, now, n, k);
    var m1, g := trail.models[n], trail.gathered[n];
    ApplyAcksKeeps(m1, g.acks, now);
    OwableGrown(m1, ApplyAcks(m1, g.acks, now), g.targets);
    OwedAcks(ApplyAcks(m1, g.acks, now), g.targets, trail.senders, now, k);
    OwedAcksAreDated(ApplyAcks(m1, g.acks, now), g.targets, trail.senders, now);
  }
}

/** What becomes of a contact: being added, blocked, deleted, acked, greeted and shown to. */
module ClientPeers {
  import opened Conversations
  import opened ClientModel
  import opened ClientOutbox
  import opened ClientWorld
  import opened ClientIngest
  import opened ClientSteps
  import opened ClientProgress
  import opened ClientAcks
  import opened ClientRuns
  import opened ClientConvos
  import P = Payloads

  // ---- the contact list ----

  /** Adding a key makes it a contact, not blocked, and leaves one that is there alone; our
      own key is refused. */
  lemma AddIsExact(m: Model, who: Option<Key>)
    ensures var m' := AddContact(m, who).model;
      && m'.contacts.Keys == m.contacts.Keys + (if who.Some? && who.value != m.me then {who.value} else {})
      && (forall k :: k in m.contacts ==> m'.contacts[k] == m.contacts[k])
      && (forall k :: k in m'.contacts && k !in m.contacts ==> m'.contacts[k] == Contact(false, 0, 0, Card("", "", P.None)))
      && m' == m.(contacts := m'.contacts)
  {
  }

  /** Blocking sets that contact's flag to what was asked, and nothing else about anyone; then
      nothing is queued for the peer, and a send to it pops nothing. */
  lemma BlockIsExact(m: Model, peer: Key, blocked: bool)
    ensures var m' := SetBlocked(m, peer, blocked).model;
      && m'.contacts.Keys == m.contacts.Keys
      && (forall k :: k in m.contacts ==> m'.contacts[k] == if k == peer then m.contacts[k].(blocked := blocked) else m.contacts[k])
      && (blocked ==> (forall x :: x in m'.outbox <==> x in m.outbox && x.recipient != peer)
                      && (m'.inFlight.Some? ==> m'.inFlight.value.recipient != peer && m'.inFlight == m.inFlight))
      && (!blocked ==> m'.outbox == m.outbox && m'.inFlight == m.inFlight)
      && m'.messages == m.messages && m'.seen == m.seen
  {
    if blocked { SparingMembers(m.outbox, peer); }
  }

  /** Deleting forgets the contact, its conversation, its seen ids and what is queued for it,
      and nothing about anyone else. */
  lemma DeleteIsExact(m: Model, peer: Key)
    ensures var m' := DeleteContact(m, peer).model;
      && m'.contacts == m.contacts - {peer} && m'.messages == m.messages - {peer} && m'.seen == m.seen - {peer}
      && (forall x :: x in m'.outbox <==> x in m.outbox && x.recipient != peer)
      && (m'.inFlight.Some? ==> m'.inFlight.value.recipient != peer && m'.inFlight == m.inFlight)
  {
    SparingMembers(m.outbox, peer);
  }

  // ---- what a page's acks come to ----

  lemma AbsorbedHeardSame(m: Model, g: Gathered, d: Decoded, now: int, m': Model, g': Gathered, k: Key)
    requires Absorbed(m, g, d, now, m', g')
    ensures Heard(m', k) <==> Heard(m, k)
  {
    AbsorbedContacts(m, g, d, now, m', g', k);
  }

  lemma HeardStaysSame(trail: Trail, ds: seq<Decoded>, now: int, n: nat, k: Key)
    requires Follows(trail, ds, now) && n <= |ds|
    ensures Heard(trail.models[n], k) <==> Heard(trail.models[0], k)
  {
    for i := 0 to n
      invariant Heard(trail.models[i], k) <==> Heard(trail.models[0], k)
    {
      assert AbsorbedAt(trail, ds, now, i);
      AbsorbedHeardSame(trail.models[i], trail.gathered[i], ds[i], now, trail.models[i + 1], trail.gathered[i + 1], k);
    }
  }

  lemma OtherEventAcks(m: Model, ds: seq<Decoded>, d: Decoded, now: int, acks: map<Key, PendingAck>, k: Key)
    requires CollectsFrom(m, ds, now, acks, k) && !d.payload.Ack?
    ensures CollectsFrom(m, ds + [d], now, acks, k)
  {
    assert forall x :: x in ds + [d] <==> x in ds || x == d;
    assert Acked(ds + [d], k) <==> Acked(ds, k);
    forall id ensures Sends(ds + [d], k, id) <==> Sends(ds, k, id) {
      if x :| x in ds && IsAckFrom(x, k) && id in x.payload.ids { assert x in ds + [d]; }
    }
    if k in acks && acks[k].ts != 0 {
      var x :| x in ds && IsAckFrom(x, k) && ClampTs(x.ts, now) == acks[k].ts;
      assert x in ds + [d];
    }
  }

  lemma AckCollectedFrom(m: Model, ds: seq<Decoded>, d: Decoded, now: int, acks: map<Key, PendingAck>, acks': map<Key, PendingAck>, k: Key)
    requires CollectsFrom(m, ds, now, acks, k)
    requires acks' == if d.payload.Ack? && Heard(m, d.sender) then AddAck(acks, d.sender, ClampTs(d.ts, now), d.payload.ids) else acks
    ensures CollectsFrom(m, ds + [d], now, acks', k)
  {
    if d.payload.Ack? { CollectsSnoc(m, ds, d, now, acks, k); } else { OtherEventAcks(m, ds, d, now, acks, k); }
  }

  lemma AbsorbedCollects(m: Model, g: Gathered, d: Decoded, now: int, m': Model, g': Gathered)
    requires Absorbed(m, g, d, now, m', g')
    ensures g'.acks == if d.payload.Ack? && Heard(m, d.sender) then AddAck(g.acks, d.sender, ClampTs(d.ts, now), d.payload.ids) else g.acks
  {
  }

  /** Whatever else is on the page, its acks are collected sender by sender. */
  lemma PageCollects(trail: Trail, ds: seq<Decoded>, now: int, n: nat, k: Key)
    requires Follows(trail, ds, now) && n <= |ds|
    ensures CollectsFrom(trail.models[0], ds[..n], now, trail.gathered[n].acks, k)
  {
    for i := 0 to n
      invariant CollectsFrom(trail.models[0], ds[..i], now, trail.gathered[i].acks, k)
    {
      assert AbsorbedAt(trail, ds, now, i);
      HeardStaysSame(trail, ds, now, i, ds[i].sender);
      AbsorbedCollects(trail.models[i], trail.gathered[i], ds[i], now, trail.models[i + 1], trail.gathered[i + 1]);
      AckCollectedFrom(trail.models[0], ds[..i], ds[i], now, trail.gathered[i].acks, trail.gathered[i + 1].acks, k);
      assert ds[..i + 1] == ds[..i] + [ds[i]];
    }
  }

  /** The date an ack counts as: its own, from zero to now. */
  function AckDate(ts: int, now: int): int { if ts < 0 then 0 else if ts > now then now else ts }

  lemma AckDateIs(ts: int, now: int)
    requires 0 <= now
    ensures Min(ClampTs(ts, now), now) == AckDate(ts, now)
  {
  }

  lemma OwedLeaves(m: Model, targets: map<Key, seq<Id>>, senders: seq<Key>, now: int)
    requires forall k :: k in senders ==> k in targets
    ensures OweAcks(m, targets, senders, now).contacts == m.contacts && OweAcks(m, targets, senders, now).messages == m.messages
  {
    for i := 0 to |senders|
      invariant OweAcks(m, targets, senders[..i], now).contacts == m.contacts && OweAcks(m, targets, senders[..i], now).messages == m.messages
    {
      assert senders[..i + 1][..i] == senders[..i];
      PushAcksLeave(OweAcks(m, targets, senders[..i], now), senders[i], P.Chunks(targets[senders[i]]), now);
    }
    assert senders[..|senders|] == senders;
  }

  lemma {:induction false} PushAcksLeave(m: Model, s: Key, chunks: seq<seq<Id>>, now: int)
    ensures PushAcks(m, s, chunks, now).contacts == m.contacts && PushAcks(m, s, chunks, now).messages == m.messages
  {
    if chunks != [] { PushAcksLeave(m, s, chunks[..|chunks| - 1], now); }
  }

  /** Some ack of the peer on the page has this date. */
  ghost predicate AckedAt(ds: seq<Decoded>, k: Key, now: int, t: int) {
    exists d :: d in ds && IsAckFrom(d, k) && AckDate(d.ts, now) == t
  }

  lemma AppliedMark(m: Model, acks: map<Key, PendingAck>, now: int, k: Key)
    requires k in m.contacts && k in acks
    ensures ApplyAcks(m, acks, now).contacts[k].lastAckTs
      == if acks[k].ts < m.contacts[k].lastAckTs then m.contacts[k].lastAckTs else Min(acks[k].ts, now)
  {
  }

  lemma UnappliedMark(m: Model, acks: map<Key, PendingAck>, now: int, k: Key)
    requires k in m.contacts && k !in acks
    ensures ApplyAcks(m, acks, now).contacts[k] == m.contacts[k]
  {
  }

  /** After a page a contact's watermark is no earlier than any ack of theirs on it that we
      hear, and it moves only to the date of one: an older ack can never count again. */
  lemma MarkIsLatestAck(m: Model, cursor: int, events: seq<PageEvent>, now: int, trail: Trail, m': Model, k: Key)
    requires Ready(m, now) && ReadablePage(events) && Ingested(m, cursor, events, now, trail, m') && k in m.contacts
    ensures k in m'.contacts
    ensures var ds := AdmitPage(events).decoded;
      && (forall d :: d in ds && IsAckFrom(d, k) && Heard(m, k) ==> AckDate(d.ts, now) <= m'.contacts[k].lastAckTs)
      && (m'.contacts[k].lastAckTs != m.contacts[k].lastAckTs ==> Heard(m, k) && AckedAt(ds, k, now, m'.contacts[k].lastAckTs))
  {
    var ds := AdmitPage(events).decoded;
    var n := |ds|;
    LoopReady(m, cursor, events, now, trail, m');
    LoopMarks(trail, ds, now, n, k);
    PageCollects(trail, ds, now, n, k);
    assert ds[..n] == ds;
    var m1, acks := trail.models[n], trail.gathered[n].acks;
    assert Heard(trail.models[0], k) <==> Heard(m, k);
    OwedLeaves(ApplyAcks(m1, acks, now), trail.gathered[n].targets, trail.senders, now);
    if k in acks {
      AppliedMark(m1, acks, now, k);
      MarkMoves(m, ds, now, k, acks[k].ts, m.contacts[k].lastAckTs);
    } else {
      UnappliedMark(m1, acks, now, k);
    }
  }

  lemma MarkMoves(m: Model, ds: seq<Decoded>, now: int, k: Key, ts: int, mark: int)
    requires Latest(ds, k, now, ts) && 0 <= now && mark <= now
    ensures var mark' := if ts < mark then mark else Min(ts, now);
      && (forall d :: d in ds && IsAckFrom(d, k) ==> AckDate(d.ts, now) <= mark')
      && (mark' != mark && 0 <= mark ==> AckedAt(ds, k, now, mark'))
  {
    forall d | d in ds && IsAckFrom(d, k) ensures AckDate(d.ts, now) <= if ts < mark then mark else Min(ts, now) { AckDateIs(d.ts, now); }
    if ts != 0 {
      var d :| d in ds && IsAckFrom(d, k) && ClampTs(d.ts, now) == ts;
      AckDateIs(d.ts, now);
    }
  }

  // ---- a message shows as delivered only if its peer acked it ----

  lemma {:induction false} FileAllMembers(c: Convo, xs: Convo, x: StoredMessage)
    requires x in FileAll(c, xs)
    ensures x in c || x in xs
  {
    if xs != [] {
      var front, y := xs[..|xs| - 1], xs[|xs| - 1];
      InsertMembers(FileAll(c, front), y);
      if x != y { FileAllMembers(c, front, x); }
    }
  }

  lemma {:induction false} FiledAreNew(trail: Trail, ds: seq<Decoded>, now: int, k: Key, n: nat, x: StoredMessage)
    requires n <= |ds| <= |trail.models| && x in FiledFrom(trail, ds, now, k, n)
    ensures !x.outgoing && !x.delivered
  {
    if n > 0 {
      if x in FiledFrom(trail, ds, now, k, n - 1) { FiledAreNew(trail, ds, now, k, n - 1, x); }
    }
  }

  /** The page holds an ack of the peer that names the message, and one of theirs that is no
      older than the contact's watermark. */
  ghost predicate AcksIt(m: Model, ds: seq<Decoded>, k: Key, id: Id) {
    && Heard(m, k) && Sends(ds, k, id)
    && (k in m.contacts && m.contacts[k].lastAckTs > 0 ==> exists d :: d in ds && IsAckFrom(d, k) && m.contacts[k].lastAckTs <= d.ts)
  }

  lemma MarkedMember(c: Convo, ids: set<Id>, x: StoredMessage)
    requires x in MarkAll(c, ids)
    ensures x in c || (x.outgoing && x.delivered && x.id in ids)
    ensures x in c || x.(delivered := false) in c || x.(delivered := true) in c
  {
    var i :| 0 <= i < |c| && MarkAll(c, ids)[i] == x;
    MarksExactly(c, ids, i);
    assert c[i] in c;
  }

  lemma FreshEnough(m: Model, ds: seq<Decoded>, now: int, acks: map<Key, PendingAck>, k: Key, mark: int)
    requires CollectsFrom(m, ds, now, acks, k) && k in acks && mark <= acks[k].ts && 0 < mark && 0 <= now
    ensures exists d :: d in ds && IsAckFrom(d, k) && mark <= d.ts
  {
    var d :| d in ds && IsAckFrom(d, k) && ClampTs(d.ts, now) == acks[k].ts;
  }

  lemma PageHolds(m: Model, cursor: int, events: seq<PageEvent>, now: int, trail: Trail, m': Model, k: Key)
    requires Ingested(m, cursor, events, now, trail, m')
    ensures var n := |AdmitPage(events).decoded|;
      var m1, acks := trail.models[n], trail.gathered[n].acks;
      Held(m', k) == if k in m1.messages && k in acks && !Stale(m1, acks, k) then MarkAll(Held(m1, k), acks[k].ids) else Held(m1, k)
  {
    var n := |AdmitPage(events).decoded|;
    var m1, g := trail.models[n], trail.gathered[n];
    OwedLeaves(ApplyAcks(m1, g.acks, now), g.targets, trail.senders, now);
    AppliedHolds(m1, g.acks, now, k);
  }

  lemma AckThatCounts(m: Model, cursor: int, events: seq<PageEvent>, now: int, trail: Trail, m': Model, k: Key, id: Id)
    requires Ready(m, now) && ReadablePage(events) && Ingested(m, cursor, events, now, trail, m')
    requires var n := |AdmitPage(events).decoded|;
      k in trail.gathered[n].acks && !Stale(trail.models[n], trail.gathered[n].acks, k) && id in trail.gathered[n].acks[k].ids
    ensures AcksIt(m, AdmitPage(events).decoded, k, id)
  {
    var ds := AdmitPage(events).decoded;
    var n := |ds|;
    PageCollects(trail, ds, now, n, k);
    assert ds[..n] == ds;
    if k in m.contacts && m.contacts[k].lastAckTs > 0 {
      LoopReady(m, cursor, events, now, trail, m');
      LoopMarks(trail, ds, now, n, k);
      FreshEnough(trail.models[0], ds, now, trail.gathered[n].acks, k, m.contacts[k].lastAckTs);
    }
  }

  /** A page sets the flag of a message only if an ack of its peer on it names it, and not if
      all their acks on it are older than the last that counted. It clears none. */
  lemma PageFlags(m: Model, cursor: int, events: seq<PageEvent>, now: int, trail: Trail, m': Model, k: Key, x: StoredMessage)
    requires Ready(m, now) && ReadablePage(events) && Ingested(m, cursor, events, now, trail, m') && x in Held(m', k)
    ensures x.delivered ==> x in Held(m, k) || (x.outgoing && AcksIt(m, AdmitPage(events).decoded, k, x.id))
    ensures x.outgoing && !x.delivered ==> x in Held(m, k)
  {
    var ds := AdmitPage(events).decoded;
    var n := |ds|;
    assert Held(trail.models[0], k) == Held(m, k);
    LoopFiles(trail, ds, now, k, n);
    PageMember(trail, ds, now, k, x);
    PageHolds(m, cursor, events, now, trail, m', k);
    if x !in Held(trail.models[n], k) {
      MarkedMember(Held(trail.models[n], k), trail.gathered[n].acks[k].ids, x);
      AckThatCounts(m, cursor, events, now, trail, m', k, x.id);
    }
  }

  lemma PageMember(trail: Trail, ds: seq<Decoded>, now: int, k: Key, x: StoredMessage)
    requires Follows(trail, ds, now)
    requires Held(trail.models[|ds|], k) == FileAll(Held(trail.models[0], k), FiledFrom(trail, ds, now, k, |ds|))
    ensures x in Held(trail.models[|ds|], k) ==> x in Held(trail.models[0], k) || (!x.outgoing && !x.delivered)
  {
    if x in Held(trail.models[|ds|], k) {
      FileAllMembers(Held(trail.models[0], k), FiledFrom(trail, ds, now, k, |ds|), x);
      if x in FiledFrom(trail, ds, now, k, |ds|) { FiledAreNew(trail, ds, now, k, |ds|, x); }
    }
  }

  // ---- over runs ----

  /** Step `j` folds in a page on which the peer acks the message. */
  ghost predicate AckedAtStep(ws: seq<World>, acts: seq<Act>, j: nat, k: Key, id: Id)
    requires |ws| == |acts| + 1 && j < |acts|
  {
    Ingests(ws[j].m, acts[j].event) && AcksIt(ws[j].m, AdmitPage(acts[j].event.page.events).decoded, k, id)
  }

  ghost predicate LoadedAtStep(acts: seq<Act>, j: nat, k: Key, x: StoredMessage)
    requires j < |acts|
  {
    var e := acts[j].event;
    e.Loaded? && e.peer == k && e.found.KvFound? && x in e.found.list
  }

  lemma {:induction false} WithoutMembers(list: Convo, ids: set<Id>, x: StoredMessage)
    requires x in Without(list, ids)
    ensures x in list
  {
    if list != [] {
      assert list == list[..|list| - 1] + [list[|list| - 1]];
      if x in Without(list[..|list| - 1], ids) { WithoutMembers(list[..|list| - 1], ids, x); }
    }
  }

  lemma WriteMember(m: Model, e: Event, env: Env, k: Key, x: StoredMessage)
    requires e.WriteText? && x in Held(SendText(m, e.chat, e.body, e.id, env).model, k)
    ensures x in Held(m, k) || !x.delivered
  {
    WriteFiles(m, e, env, k);
    FileAllMembers(Held(m, k), Filed(m, e, env.now, k), x);
  }

  lemma QuietMember(m: Model, e: Event, env: Env, k: Key, x: StoredMessage)
    requires !Ingests(m, e) && !e.Loaded? && x in Held(Apply(m, e, env).model, k)
    ensures x in Held(m, k) || !x.delivered
  {
    if e.WriteText? {
      WriteMember(m, e, env, k, x);
    } else if ByUser(e) {
      UserFiles(m, e, env, k);
    } else {
      OtherBooks(m, e, env);
    }
  }

  lemma LoadMember(w: World, e: Event, env: Env, k: Key, x: StoredMessage)
    requires WInv(w) && Legal(w, e, env) && e.Loaded? && x in Held(Next(w, e, env).m, k)
    ensures x in Held(w.m, k) || (e.peer == k && e.found.KvFound? && x in e.found.list)
  {
    LoadFiles(w.m, e, env, k);
    FileAllMembers(Held(w.m, k), Filed(w.m, e, env.now, k), x);
    if x !in Held(w.m, k) { WithoutMembers(e.found.list, Ids(Held(w.m, k)), x); }
  }

  lemma StepFlag(ws: seq<World>, acts: seq<Act>, i: nat, k: Key, x: StoredMessage)
    requires Run(ws, acts) && i < |acts| && x in Held(ws[i + 1].m, k) && x.outgoing && x.delivered
    ensures x in Held(ws[i].m, k) || AckedAtStep(ws, acts, i, k, x.id) || LoadedAtStep(acts, i, k, x)
  {
    var w, e, env := ws[i], acts[i].event, acts[i].env;
    AlwaysInv(ws, acts, i);
    assert StepAt(ws, acts, i);
    if Ingests(w.m, e) {
      IngestFlag(w, e, env, k, x);
    } else if e.Loaded? {
      LoadMember(w, e, env, k, x);
    } else {
      QuietMember(w.m, e, env, k, x);
    }
  }

  lemma FoldedFlag(w: World, e: Event, env: Env, k: Key, x: StoredMessage)
    requires WInv(w) && Legal(w, e, env) && Ingests(w.m, e) && x in Held(e.page.ingested, k) && x.outgoing && x.delivered
    ensures x in Held(w.m, k) || AcksIt(w.m, AdmitPage(e.page.events).decoded, k, x.id)
  {
    var m := w.m.(polling := false);
    PageReady(w, m, env.now);
    PageFlags(m, e.page.cursor, e.page.events, env.now, e.page.trail, e.page.ingested, k, x);
    assert Held(m, k) == Held(w.m, k);
  }

  lemma IngestFlag(w: World, e: Event, env: Env, k: Key, x: StoredMessage)
    requires WInv(w) && Legal(w, e, env) && Ingests(w.m, e) && x in Held(Next(w, e, env).m, k) && x.outgoing && x.delivered
    ensures x in Held(w.m, k) || AcksIt(w.m, AdmitPage(e.page.events).decoded, k, x.id)
  {
    IngestCore(w.m, e.q.gen, e.page, env);
    FoldedFlag(w, e, env, k, x);
  }

  /** In every state of every run a message of ours shows as delivered only if its peer acked
      it on a page that was folded in, or it was stored so. */
  lemma {:induction false} DeliveredMeansAcked(ws: seq<World>, acts: seq<Act>, i: nat, k: Key, x: StoredMessage)
    requires Run(ws, acts) && i < |ws| && x in Held(ws[i].m, k) && x.outgoing && x.delivered
    ensures x in Held(ws[0].m, k) || exists j: nat :: j < i && (AckedAtStep(ws, acts, j, k, x.id) || LoadedAtStep(acts, j, k, x))
  {
    if i > 0 {
      StepFlag(ws, acts, i - 1, k, x);
      if x in Held(ws[i - 1].m, k) { DeliveredMeansAcked(ws, acts, i - 1, k, x); }
    }
  }
}

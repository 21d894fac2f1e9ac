/** What goes into the queue, what is sent of it and when, and what an answer does to it. */
module ClientSending {
  import opened Conversations
  import opened ClientModel
  import opened ClientOutbox
  import opened ClientWorld
  import opened ClientSteps
  import opened ClientProgress
  import opened ClientRuns
  import P = Payloads
  import F = Framing

  // ---- the queue a step leaves to its flush ----

  /** The queue as the event changes it, before whatever the step flushes. */
  function QueueBefore(m: Model, e: Event, env: Env): seq<Item> {
    if e.EditProfile? && e.profile.Profile? && P.Acceptable(e.profile) then
      SupersedeAll(m.(profile := e.profile), Live(m), e.peers, env.now).outbox
    else if e.WriteText? && !Refused(m, e.chat, e.body) then Written(m, e.chat.value, e.body, e.id, env.now).outbox
    else if CutsOff(e) then Sparing(m.outbox, e.peer)
    else if Ingests(m, e) then e.page.ingested.outbox
    else if Fails(m, e) then Charge(m.outbox[..Head(m, m.inFlight)], env.now) + m.outbox[Head(m, m.inFlight)..]
    else if Finishes(m, e) && !m.kvFailed then m.outbox[Head(m, m.inFlight)..]
    else m.outbox
  }

  lemma AddFlushes(m: Model, who: Option<Key>)
    ensures AddContact(m, who).model.outbox == m.outbox
  {
  }

  lemma BlockFlushes(m: Model, peer: Key, blocked: bool)
    ensures SetBlocked(m, peer, blocked).model.outbox == if blocked then Sparing(m.outbox, peer) else m.outbox
  {
  }

  lemma DeleteFlushes(m: Model, peer: Key)
    ensures DeleteContact(m, peer).model.outbox == Sparing(m.outbox, peer)
  {
  }

  lemma LoadFlushes(m: Model, peer: Key, found: KvAnswer)
    ensures LoadedMessages(m, peer, found).model.outbox == m.outbox
  {
  }

  lemma ContactsFlush(m: Model, e: Event, env: Env)
    requires e.Add? || e.Block? || e.Delete? || e.Loaded?
    ensures Apply(m, e, env).model.outbox == if CutsOff(e) then Sparing(m.outbox, e.peer) else m.outbox
  {
    match e
    case Add(who) => AddFlushes(m, who);
    case Block(peer, blocked) => BlockFlushes(m, peer, blocked);
    case Delete(peer) => DeleteFlushes(m, peer);
    case Loaded(peer, found) => LoadFlushes(m, peer, found);
  }

  lemma UserFlushes(m: Model, e: Event, env: Env)
    requires ByUser(e) || e.Loaded?
    ensures Flushed(QueueBefore(m, e, env), Apply(m, e, env).model.outbox, env)
  {
    if e.EditProfile? {
      EditCore(m, e.profile, e.peers, env);
    } else if e.WriteText? {
      WriteCore(m, e.chat, e.body, e.id, env);
    } else {
      ContactsFlush(m, e, env);
    }
  }

  lemma HeldBackFlushes(m: Model, e: Event, env: Env)
    requires Receipt(m, e) && !Fails(m, e) && !Finishes(m, e)
    ensures Flushed(m.outbox, SendResult(m, e.q.gen, e.receipt, env).model.outbox, env)
  {
    if Halves(m, e) {
      SplitCore(m, e, env);
    } else if Waits(m, e) {
      PauseCore(m, e, env);
    } else if Charges(e.receipt, m.inFlight) {
      DetachedCore(m, e, env);
    } else {
      ReauthCore(m, e, env);
    }
  }

  lemma ReceiptFlushes(m: Model, e: Event, env: Env)
    requires Receipt(m, e)
    ensures Flushed(QueueBefore(m, e, env), SendResult(m, e.q.gen, e.receipt, env).model.outbox, env)
  {
    if Fails(m, e) {
      FailCore(m, e, env);
    } else if Finishes(m, e) {
      FinishCore(m, e, env);
    } else {
      HeldBackFlushes(m, e, env);
    }
  }

  lemma StepFlushes(m: Model, e: Event, env: Env)
    ensures Flushed(QueueBefore(m, e, env), Apply(m, e, env).model.outbox, env)
  {
    if ByUser(e) || e.Loaded? {
      UserFlushes(m, e, env);
    } else if e.Switch? {
      SwitchCore(m, e.to, env);
    } else if !Answers(e) {
      TimerCore(m, e, env);
    } else if Receipt(m, e) {
      ReceiptFlushes(m, e, env);
    } else if Ingests(m, e) {
      IngestCore(m, e.q.gen, e.page, env);
    } else {
      AnswerCore(m, e, env);
    }
  }

  /** The item is in the queue, dated at most. */
  ghost predicate Waiting(items: seq<Item>, now: int, x: Item) { exists y :: y in items && Stamped(x, now, y) }

  /** A flush drops only what cannot be encrypted. */
  lemma FlushSpares(a: seq<Item>, b: seq<Item>, env: Env, x: Item)
    requires Flushed(a, b, env) && Ascending(a) && x in a && env.weigh(x).Some?
    ensures Waiting(b, env.now, x)
  {
    FlushedIds(a, b, env, x.id);
    if !HasId(b, x.id) {
      var z :| z in a && z.id == x.id && env.weigh(z).None?;
      IdUnique(a, x, z);
      assert false;
    }
    var y :| y in b && y.id == x.id;
    var z := FlushedItem(a, b, env, y);
    IdUnique(a, x, z);
  }

  // ---- a text that is written is queued ----

  /** The program takes the text: for a peer that is not blocked, not empty, not too long, and
      with room for a new contact if it makes one. */
  predicate TakesText(m: Model, chat: Option<Key>, body: string) {
    && chat.Some? && !(chat.value in m.contacts && m.contacts[chat.value].blocked)
    && body != "" && P.ByteLen(body) <= 65536 && (chat.value in m.contacts || |m.contacts| < 500)
  }

  lemma WrittenItems(m: Model, k: Key, body: string, id: Id, now: int)
    ensures var text := Item(m.pushed, k, P.Serialize(P.Text(id, body), now), false, 0, 0);
      var profile := Item(m.pushed + 1, k, P.Serialize(m.profile, now), m.profile.Profile?, 0, 0);
      Written(m, k, body, id, now).outbox == m.outbox + [text] + if k in m.contacts then [] else [profile]
  {
  }

  /** The item, dated at most, says this to the peer. */
  ghost predicate Says(y: Item, id: nat, k: Key, now: int, p: P.Payload) {
    y.id == id && y.recipient == k && y.retries == 0 && P.Parse(y.envelope) == P.Some(P.Parsed(now, p))
  }

  lemma PushedIsWaiting(w: World, e: Event, env: Env, x: Item)
    requires WInv(w) && Legal(w, e, env) && e.WriteText? && TakesText(w.m, e.chat, e.body) && env.usable(e.chat.value)
    requires x in Written(w.m, e.chat.value, e.body, e.id, env.now).outbox && x.recipient == e.chat.value
    requires P.TextLen(x.envelope) <= P.MAX_PLAINTEXT_LEN
    ensures Waiting(Next(w, e, env).m.outbox, env.now, x)
  {
    LaterReady(w, env.now);
    WrittenReady(w.m, e.chat.value, e.body, e.id, env.now);
    StepFlushes(w.m, e, env);
    FlushSpares(QueueBefore(w.m, e, env), Next(w, e, env).m.outbox, env, x);
  }

  lemma TextIsRead(k: Key, id: Id, body: string, now: int, n: nat, y: Item)
    requires P.IsI64(now) && P.ByteLen(id) <= 128 && P.ByteLen(body) <= 65536
    requires Stamped(Item(n, k, P.Serialize(P.Text(id, body), now), false, 0, 0), now, y)
    ensures Says(y, n, k, now, P.Text(id, P.Sanitize(body)))
  {
    P.CleanedAcceptable(P.Text(id, body));
    P.PayloadRoundTrip(P.Text(id, body), now);
  }

  lemma ProfileIsRead(k: Key, profile: P.Payload, ts: int, now: int, n: nat, y: Item)
    requires P.IsI64(ts) && profile.Profile? && P.Acceptable(profile)
    requires Stamped(Item(n, k, P.Serialize(profile, ts), true, 0, 0), now, y)
    ensures Says(y, n, k, ts, P.Cleaned(profile))
  {
    P.CleanedAcceptable(profile);
    P.PayloadRoundTrip(profile, ts);
  }

  lemma TextWaits(w: World, e: Event, env: Env)
    requires WInv(w) && Legal(w, e, env) && e.WriteText? && TakesText(w.m, e.chat, e.body) && env.usable(e.chat.value)
    ensures exists y :: y in Next(w, e, env).m.outbox && Says(y, w.m.pushed, e.chat.value, env.now, P.Text(e.id, P.Sanitize(e.body)))
  {
    var k := e.chat.value;
    var x := Item(w.m.pushed, k, P.Serialize(P.Text(e.id, e.body), env.now), false, 0, 0);
    WrittenItems(w.m, k, e.body, e.id, env.now);
    P.PayloadFitsPlaintext(P.Text(e.id, e.body), env.now);
    PushedIsWaiting(w, e, env, x);
    var y :| y in Next(w, e, env).m.outbox && Stamped(x, env.now, y);
    TextIsRead(k, e.id, e.body, env.now, w.m.pushed, y);
  }

  lemma ProfileWaits(w: World, e: Event, env: Env)
    requires WInv(w) && Legal(w, e, env) && e.WriteText? && TakesText(w.m, e.chat, e.body) && env.usable(e.chat.value)
    requires e.chat.value !in w.m.contacts
    ensures exists y :: y in Next(w, e, env).m.outbox && Says(y, w.m.pushed + 1, e.chat.value, env.now, P.Cleaned(w.m.profile))
  {
    var k := e.chat.value;
    var x := Item(w.m.pushed + 1, k, P.Serialize(w.m.profile, env.now), true, 0, 0);
    WrittenItems(w.m, k, e.body, e.id, env.now);
    P.PayloadFitsPlaintext(w.m.profile, env.now);
    PushedIsWaiting(w, e, env, x);
    var y :| y in Next(w, e, env).m.outbox && Stamped(x, env.now, y);
    ProfileIsRead(k, w.m.profile, env.now, env.now, w.m.pushed + 1, y);
  }

  /** In any run a text that is taken is queued for its peer under the next number, and says
      what was written to any reader; behind it a new peer is queued our profile. One that is
      not taken changes nothing. */
  lemma WhatIsWrittenIsQueued(ws: seq<World>, acts: seq<Act>, i: nat)
    requires Run(ws, acts) && i < |acts| && acts[i].event.WriteText?
    ensures var m, e, env, after := ws[i].m, acts[i].event, acts[i].env, ws[i + 1].m.outbox;
      && (TakesText(m, e.chat, e.body) && env.usable(e.chat.value) ==>
            && (exists y :: y in after && Says(y, m.pushed, e.chat.value, env.now, P.Text(e.id, P.Sanitize(e.body))))
            && (e.chat.value !in m.contacts ==>
                  exists y :: y in after && Says(y, m.pushed + 1, e.chat.value, env.now, P.Cleaned(m.profile))))
      && (!TakesText(m, e.chat, e.body) ==> ws[i + 1].m == m && ws[i + 1].sent == ws[i].sent)
  {
    var w, e, env := ws[i], acts[i].event, acts[i].env;
    AlwaysInv(ws, acts, i);
    assert StepAt(ws, acts, i);
    if TakesText(w.m, e.chat, e.body) {
      if env.usable(e.chat.value) {
        TextWaits(w, e, env);
        if e.chat.value !in w.m.contacts { ProfileWaits(w, e, env); }
      }
    } else {
      RequestsOf([], [], ChallengeReq(0, ""), w.m, []);
    }
  }

  // ---- what a charged failure does ----

  lemma ChargedItem(items: seq<Item>, n: nat, now: int, x: Item)
    requires Ascending(items) && n <= |items| && x in items[..n]
    ensures var after := Charge(items[..n], now) + items[n..];
      if WornOut(x, now) then !HasId(after, x.id) else x.(retries := x.retries + 1) in after
  {
    ChargeMembers(items[..n], now);
    var after := Charge(items[..n], now) + items[n..];
    assert x in items;
    if WornOut(x, now) {
      forall y | y in after ensures y.id != x.id {
        if y in items[n..] {
          HeadBeforeTail(items, n, x, y);
        } else if y.id == x.id {
          IdUnique(items, x, y.(retries := y.retries - 1));
          assert false;
        }
      }
    }
  }

  /** In any run, when a live send fails for no fault of a rate limit or a login, each item it
      carried stays with one retry more, if and only if that is not its tenth and it was
      first tried no more than a day ago. */
  lemma FailureCostsExactly(ws: seq<World>, acts: seq<Act>, i: nat, x: Item)
    requires Run(ws, acts) && i < |acts| && Fails(ws[i].m, acts[i].event) && acts[i].event.q.SendReq? && x in acts[i].event.q.carried
    ensures x in ws[i].m.outbox
    ensures WornOut(x, acts[i].env.now) ==> !HasId(ws[i + 1].m.outbox, x.id)
    ensures !WornOut(x, acts[i].env.now) && acts[i].env.usable(x.recipient) ==>
      Waiting(ws[i + 1].m.outbox, acts[i].env.now, x.(retries := x.retries + 1))
  {
    var w, e, env := ws[i], acts[i].event, acts[i].env;
    AlwaysInv(ws, acts, i);
    assert StepAt(ws, acts, i);
    TheCarrier(w, e.q);
    var n := w.m.inFlight.value.count;
    assert x in w.m.outbox[..n];
    ChargedItem(w.m.outbox, n, env.now, x);
    StepFlushes(w.m, e, env);
    var before, after := QueueBefore(w.m, e, env), ws[i + 1].m.outbox;
    FlushedIds(before, after, env, x.id);
    if !WornOut(x, env.now) && env.usable(x.recipient) { ChargedWaits(w, e, env, x); }
  }

  lemma ChargedWaits(w: World, e: Event, env: Env, x: Item)
    requires WInv(w) && Legal(w, e, env) && Fails(w.m, e) && x in w.m.outbox && env.usable(x.recipient)
    requires x.(retries := x.retries + 1) in QueueBefore(w.m, e, env)
    ensures Waiting(Next(w, e, env).m.outbox, env.now, x.(retries := x.retries + 1))
  {
    LaterReady(w, env.now);
    FailReady(w.m, env.now);
    StepFlushes(w.m, e, env);
    assert GoodItem(w.m.contacts, w.m.pushed, x);
    FlushSpares(QueueBefore(w.m, e, env), Next(w, e, env).m.outbox, env, x.(retries := x.retries + 1));
  }

  // ---- retries count failures ----

  /** Old items keep their numbers and retries. */
  ghost predicate KeepsCounts(a: seq<Item>, pushed: nat, b: seq<Item>) {
    forall y :: y in b && y.id < pushed ==> exists x :: x in a && x.id == y.id && x.retries == y.retries
  }

  lemma {:induction false} EditKeepsCounts(m: Model, live: nat, peers: seq<Key>, ts: int)
    requires live <= |m.outbox| && m.profile.Profile?
    ensures var m' := SupersedeAll(m, live, peers, ts);
      && m'.profile == m.profile && m.pushed <= m'.pushed && live <= |m'.outbox| && KeepsCounts(m.outbox, m.pushed, m'.outbox)
  {
    if peers != [] {
      var front, k := peers[..|peers| - 1], peers[|peers| - 1];
      EditKeepsCounts(m, live, front, ts);
      var mid := SupersedeAll(m, live, front, ts);
      SupersedeIs(mid, live, k, ts);
      PutKeepsCounts(m.outbox, m.pushed, mid, live, k, P.Serialize(mid.profile, ts), SupersedeAll(m, live, peers, ts));
    }
  }

  lemma PutKeepsCounts(items: seq<Item>, pushed: nat, mid: Model, live: nat, k: Key, j: P.Json, m': Model)
    requires KeepsCounts(items, pushed, mid.outbox) && pushed <= mid.pushed && live <= |mid.outbox|
    requires var r := Pending(mid.outbox, live, k);
      m' == if r < |mid.outbox| then mid.(outbox := mid.outbox[r := mid.outbox[r].(envelope := j)])
            else mid.(outbox := mid.outbox + [Item(mid.pushed, k, j, true, 0, 0)], pushed := mid.pushed + 1)
    ensures KeepsCounts(items, pushed, m'.outbox) && pushed <= m'.pushed && live <= |m'.outbox|
  {
    forall y | y in m'.outbox && y.id < pushed ensures exists z :: z in mid.outbox && z.id == y.id && z.retries == y.retries {
      var i :| 0 <= i < |m'.outbox| && m'.outbox[i] == y;
      assert i < |mid.outbox| && mid.outbox[i] in mid.outbox;
    }
  }

  lemma GrownKeepsCounts(a: seq<Item>, pushed: nat, b: seq<Item>)
    requires a <= b && forall i :: |a| <= i < |b| ==> b[i].id >= pushed
    ensures KeepsCounts(a, pushed, b)
  {
    forall y | y in b && y.id < pushed ensures y in a {
      var i :| 0 <= i < |b| && b[i] == y;
      assert a[i] in a;
    }
  }

  lemma UserKeepsCounts(w: World, e: Event, env: Env)
    requires WInv(w) && Legal(w, e, env) && (e.EditProfile? || e.WriteText?)
    ensures KeepsCounts(w.m.outbox, w.m.pushed, QueueBefore(w.m, e, env))
  {
    if e.EditProfile? {
      LiveFits(w);
      if e.profile.Profile? { EditKeepsCounts(w.m.(profile := e.profile), Live(w.m), e.peers, env.now); }
    } else if !Refused(w.m, e.chat, e.body) {
      WrittenItems(w.m, e.chat.value, e.body, e.id, env.now);
      GrownKeepsCounts(w.m.outbox, w.m.pushed, QueueBefore(w.m, e, env));
    }
  }

  lemma BeforeKeepsCounts(w: World, e: Event, env: Env)
    requires WInv(w) && Legal(w, e, env) && !Fails(w.m, e)
    ensures KeepsCounts(w.m.outbox, w.m.pushed, QueueBefore(w.m, e, env))
  {
    if e.EditProfile? || e.WriteText? {
      UserKeepsCounts(w, e, env);
    } else if CutsOff(e) {
      SparingMembers(w.m.outbox, e.peer);
    } else if Ingests(w.m, e) {
      LaterReady(w, env.now);
      PageReadies(w.m, e.page, env);
      GrownKeepsCounts(w.m.outbox, w.m.pushed, QueueBefore(w.m, e, env));
    }
  }

  /** The step's failure is charged to the item. */
  ghost predicate ChargedTo(m: Model, e: Event, id: nat) { Fails(m, e) && e.q.SendReq? && HasId(e.q.carried, id) }

  lemma StepCounts(w: World, e: Event, env: Env, x: Item, y: Item)
    requires WInv(w) && Legal(w, e, env) && x in w.m.outbox && y in Next(w, e, env).m.outbox && x.id == y.id
    ensures y.retries == x.retries + if ChargedTo(w.m, e, x.id) then 1 else 0
  {
    StepFlushes(w.m, e, env);
    var z := FlushedItem(QueueBefore(w.m, e, env), Next(w, e, env).m.outbox, env, y);
    if Fails(w.m, e) { FailStepCounts(w, e, env, x, z); } else { OtherStepCounts(w, e, env, x, z); }
  }

  lemma FailStepCounts(w: World, e: Event, env: Env, x: Item, z: Item)
    requires WInv(w) && Legal(w, e, env) && Fails(w.m, e) && x in w.m.outbox && z in QueueBefore(w.m, e, env) && x.id == z.id
    ensures z.retries == x.retries + if ChargedTo(w.m, e, x.id) then 1 else 0
  {
    TheCarrier(w, e.q);
    FailCounts(w.m.outbox, w.m.inFlight.value.count, env.now, x, z);
  }

  lemma OtherStepCounts(w: World, e: Event, env: Env, x: Item, z: Item)
    requires WInv(w) && Legal(w, e, env) && !Fails(w.m, e) && x in w.m.outbox && z in QueueBefore(w.m, e, env) && x.id == z.id
    ensures z.retries == x.retries
  {
    BeforeKeepsCounts(w, e, env);
    assert GoodItem(w.m.contacts, w.m.pushed, x);
    var o :| o in w.m.outbox && o.id == z.id && o.retries == z.retries;
    IdUnique(w.m.outbox, x, o);
  }

  lemma FailCounts(items: seq<Item>, n: nat, now: int, x: Item, z: Item)
    requires Ascending(items) && n <= |items| && x in items && z in Charge(items[..n], now) + items[n..] && z.id == x.id
    ensures z.retries == x.retries + if HasId(items[..n], x.id) then 1 else 0
  {
    ChargeMembers(items[..n], now);
    if z in items[n..] {
      IdUnique(items, x, z);
      forall y | y in items[..n] ensures y.id != x.id { HeadBeforeTail(items, n, y, z); }
    } else {
      var o := z.(retries := z.retries - 1);
      assert o in items[..n];
      IdUnique(items, x, o);
    }
  }

  /** How many steps of a stretch charged a failure to the item. */
  ghost function ChargesTo(ws: seq<World>, acts: seq<Act>, i: nat, j: nat, id: nat): nat
    requires |ws| == |acts| + 1 && i <= j <= |acts|
  {
    if i == j then 0 else ChargesTo(ws, acts, i, j - 1, id) + if ChargedTo(ws[j - 1].m, acts[j - 1].event, id) then 1 else 0
  }

  /** In any run an item that stays queued has as many retries more as failures were charged
      to requests that carried it, whatever else happened. */
  lemma {:induction false} RetriesCountFailures(ws: seq<World>, acts: seq<Act>, i: nat, j: nat, x: Item, y: Item)
    requires Run(ws, acts) && i <= j < |ws| && x in ws[i].m.outbox && y in ws[j].m.outbox && x.id == y.id
    ensures y.retries == x.retries + ChargesTo(ws, acts, i, j, x.id)
  {
    AlwaysInv(ws, acts, i);
    if i == j {
      IdUnique(ws[i].m.outbox, x, y);
    } else {
      assert GoodItem(ws[i].m.contacts, ws[i].m.pushed, x);
      StillThere(ws, acts, i, j - 1, j, x.id);
      var z :| z in ws[j - 1].m.outbox && z.id == x.id;
      RetriesCountFailures(ws, acts, i, j - 1, x, z);
      AlwaysInv(ws, acts, j - 1);
      assert StepAt(ws, acts, j - 1);
      StepCounts(ws[j - 1], acts[j - 1].event, acts[j - 1].env, z, y);
    }
  }

  lemma StillThere(ws: seq<World>, acts: seq<Act>, i: nat, n: nat, j: nat, id: nat)
    requires Run(ws, acts) && i <= n <= j < |ws| && id < ws[i].m.pushed && HasId(ws[j].m.outbox, id)
    ensures HasId(ws[n].m.outbox, id)
  {
    QueueDescends(ws, acts, i, n);
    if !HasId(ws[n].m.outbox, id) { GoneForGood(ws, acts, n, j, id); }
  }

  // ---- what is sent, and when ----

  /** Nothing stands in the way of a send but one that is under way. */
  predicate MaySend(m: Model, now: int) { !m.kvFailed && m.identity && m.token.Some? && m.pausedUntil <= now }

  /** The request a flush may send: a new one, to this relay under its token, with a part of
      the head of the queue that has been dated. */
  ghost predicate GoodSend(m: Model, env: Env, q: Request, m': Model) {
    && q.SendReq? && !m.flushing && MaySend(m, env.now) && env.builds
    && q.gen == m.flushGen + 1 && q.url == m.url && m.token == Some(q.token)
    && q.carried != [] && q.carried <= m'.outbox
    && (forall x :: x in q.carried ==> x.firstAttempt != 0 || env.now == 0)
  }

  lemma StampedAll(items: seq<Item>, now: int)
    ensures forall x :: x in Stamp(items, now) ==> x.firstAttempt != 0 || now == 0
  {
  }

  /** A flush sends at most that one request, and leaves nothing waiting that could go. */
  lemma FlushSends(m: Model, env: Env)
    ensures var o := FlushNext(m, env);
      && (forall q :: Ask(q) in o.effects ==> GoodSend(m, env, q, o.model) && o.model.flushing)
      && (o.model.flushing && !m.flushing ==> exists q :: Ask(q) in o.effects)
      && (m.flushing || !MaySend(m, env.now) || !env.builds || o.model.outbox == [] || o.model.flushing)
  {
    if MayFlush(m, env) {
      var p := Fill(m.outbox, env, Budget(m), [], 0);
      NothingLeft(m.outbox, env, Budget(m));
      if p.taken != [] {
        StampedAll(p.taken, env.now);
        LaunchSends(m.(outbox := Stamp(p.taken, env.now) + p.rest), |p.taken|, p.bytes, Dirty(p, m.outbox), env);
      }
    }
  }

  lemma {:induction false} NothingLeftOver(rest: seq<Item>, env: Env, budget: nat, taken: seq<Item>, bytes: nat)
    ensures var p := Fill(rest, env, budget, taken, bytes); taken <= p.taken && (p.taken == [] ==> p.rest == [])
    decreases |rest|
  {
    if |taken| >= MAX_SEND_BATCH || rest == [] || (taken != [] && taken[0].recipient != rest[0].recipient) {
    } else {
      match env.weigh(rest[0])
      case None => NothingLeftOver(rest[1..], env, budget, taken, bytes);
      case Some(size) =>
        var w := F.HexWeight(size);
        if !(taken != [] && bytes + w > budget) { NothingLeftOver(rest[1..], env, budget, taken + [rest[0]], bytes + w); }
    }
  }

  lemma NothingLeft(items: seq<Item>, env: Env, budget: nat)
    ensures Fill(items, env, budget, [], 0).taken == [] ==> Fill(items, env, budget, [], 0).rest == []
  {
    NothingLeftOver(items, env, budget, [], 0);
  }

  lemma LaunchSends(m: Model, count: nat, bytes: nat, dirty: bool, env: Env)
    requires 1 <= count <= |m.outbox| && m.token.Some? && !m.flushing
    requires forall x :: x in m.outbox[..count] ==> x.firstAttempt != 0 || env.now == 0
    ensures var o := Launch(m, count, bytes, dirty, env);
      && o.model.outbox == m.outbox && o.model.flushing == env.builds
      && (forall q :: Ask(q) in o.effects ==> env.builds && q == SendReq(m.flushGen + 1, m.url, m.token.value, m.outbox[..count]))
      && (env.builds ==> Ask(SendReq(m.flushGen + 1, m.url, m.token.value, m.outbox[..count])) in o.effects)
  {
  }

  /** The request is in order as the step leaves the client: nothing forbids it, it is the
      one under way, and it carries dated items of the head of the queue to this relay. */
  ghost predicate SentWell(m: Model, env: Env, q: Request)
    requires q.SendReq?
  {
    && m.flushing && MaySend(m, env.now) && env.builds
    && q.gen == m.flushGen && q.url == m.url && m.token == Some(q.token)
    && q.carried != [] && q.carried <= m.outbox
    && (forall x :: x in q.carried ==> x.firstAttempt != 0 || env.now == 0)
  }

  ghost predicate SendsWell(o: Out, env: Env) { forall q: Request :: Ask(q) in o.effects && q.SendReq? ==> SentWell(o.model, env, q) }

  ghost predicate SendsNone(o: Out) { forall q: Request :: Ask(q) in o.effects ==> !q.SendReq? }

  /** Nothing waits that could be sent. */
  predicate NotIdle(m: Model, env: Env) { m.flushing || !MaySend(m, env.now) || !env.builds || m.outbox == [] }

  /** The same as far as sends go. */
  predicate SameSends(m: Model, m': Model) {
    && m'.flushing == m.flushing && m'.flushGen == m.flushGen && m'.outbox == m.outbox && m'.token == m.token && m'.url == m.url
    && m'.kvFailed == m.kvFailed && m'.identity == m.identity && m'.pausedUntil == m.pausedUntil
  }

  lemma FlushIsWell(m: Model, env: Env)
    ensures SendsWell(FlushNext(m, env), env) && NotIdle(FlushNext(m, env).model, env)
  {
    FlushSends(m, env);
    FlushShape(m, env);
  }

  lemma SendsAfter(o: Out, n: Out, env: Env)
    requires SendsNone(o) && SendsWell(n, env)
    ensures SendsWell(Join(o, n), env)
  {
  }

  lemma SendsBefore(o: Out, n: Out, env: Env)
    requires SendsWell(o, env) && SendsNone(n) && SameSends(o.model, n.model)
    ensures SendsWell(Join(o, n), env)
  {
  }

  lemma AuthSendsNone(m: Model, env: Env)
    ensures SendsNone(Authenticate(m, env)) && SameSends(m, Authenticate(m, env).model)
    ensures SendsNone(StartPoll(m, env)) && SameSends(m, StartPoll(m, env).model)
    ensures SendsNone(Reconnect(m, env)) && SameSends(m, Reconnect(m, env).model)
  {
  }

  lemma SavingSendsNone(m: Model, m': Model, keys: seq<string>)
    ensures SendsNone(Out(m', Saving(m, keys)))
  {
  }

  lemma SaveFlushIsWell(m: Model, keys: seq<string>, env: Env)
    ensures var o := Join(Out(m, Saving(m, keys)), FlushNext(m, env)); SendsWell(o, env) && NotIdle(o.model, env)
  {
    SavingSendsNone(m, m, keys);
    FlushIsWell(m, env);
    SendsAfter(Out(m, Saving(m, keys)), FlushNext(m, env), env);
  }

  lemma TokenSendsWell(m: Model, gen: nat, token: Option<Token>, env: Env)
    ensures var o := VerifyResult(m, gen, token, env);
      SendsWell(o, env) && (gen == m.authGen && token.Some? && token.value != "" ==> NotIdle(o.model, env))
  {
    if gen == m.authGen && token.Some? && token.value != "" {
      var polled := StartPoll(m.(authenticating := false, token := token, conn := Online), env);
      AuthSendsNone(m.(authenticating := false, token := token, conn := Online), env);
      FlushIsWell(polled.model, env);
      SendsAfter(polled, FlushNext(polled.model, env), env);
    }
  }

  lemma PageSendsWell(m: Model, prev: int, keys: seq<string>, env: Env)
    ensures var o := AfterPage(m, prev, keys, env); SendsWell(o, env) && NotIdle(o.model, env)
  {
    SaveFlushIsWell(m, keys, env);
    var flushed := Join(Out(m, Saving(m, keys)), FlushNext(m, env));
    if m.cursor != prev {
      SavingSendsNone(m, flushed.model, ["cursor"]);
      SendsBefore(flushed, Out(flushed.model, Saving(m, ["cursor"])), env);
    } else {
      AuthSendsNone(flushed.model, env);
      SendsBefore(flushed, StartPoll(flushed.model, env), env);
    }
  }

  lemma PollAnswerSendsWell(m: Model, e: Event, env: Env)
    requires e.GotPage?
    ensures SendsWell(Apply(m, e, env), env) && (Ingests(m, e) ==> NotIdle(Apply(m, e, env).model, env))
  {
    if Ingests(m, e) {
      PageSendsWell(e.page.ingested, m.cursor, e.page.trail.keys, env);
    } else {
      AuthSendsNone(m.(polling := false, token := None), env);
    }
  }

  lemma RetrySendsWell(m: Model, batch: InFlight, env: Env)
    ensures var o := RetryBatch(m, Some(batch), env);
      SendsWell(o, env) && (|Charge(m.outbox[..Head(m, Some(batch))], env.now)| != Head(m, Some(batch)) ==> NotIdle(o.model, env))
  {
    var n := Head(m, Some(batch));
    var m1 := m.(outbox := Charge(m.outbox[..n], env.now) + m.outbox[n..]);
    SavingSendsNone(m1, m1, ["outbox"]);
    SaveFlushIsWell(m1, ["outbox"], env);
  }

  lemma SettleSendsWell(m: Model, batch: Option<InFlight>, a: SendAnswer, env: Env)
    ensures var o := Settle(m, batch, a, env);
      && SendsWell(o, env)
      && (a.SendStatus? && (Accepted(a.code) || Splits(a.code, batch)) ==> NotIdle(o.model, env))
  {
    if Charges(a, batch) {
      if batch.Some? { RetrySendsWell(m, batch.value, env); }
    } else if Accepted(a.code) {
      SaveFlushIsWell(m.(sendRetries := 0, outbox := if m.kvFailed then m.outbox else m.outbox[Head(m, batch)..]), ["outbox"], env);
    } else if a.code == 401 {
      AuthSendsNone(m.(token := None), env);
    } else if a.code != 429 {
      FlushIsWell(m.(budget := Some(batch.value.bytes / 2)), env);
    }
  }

  /** The step has something to do about the queue: it changed it, the relay can take sends
      again, or a send is over. */
  ghost predicate Kicks(m: Model, e: Event, env: Env) {
    || (e.WriteText? && TakesText(m, e.chat, e.body)) || Broadcasts(e)
    || e.FlushTimer? || (e.FlushWatch? && e.gen == m.flushGen && m.flushing)
    || (e.GotToken? && e.q.gen == m.authGen && e.token.Some? && e.token.value != "")
    || Ingests(m, e) || Finishes(m, e) || Halves(m, e)
    || (Fails(m, e) && exists x :: x in m.outbox[..Head(m, m.inFlight)] && WornOut(x, env.now))
  }

  lemma WriteSendsWell(m: Model, chat: Option<Key>, body: string, id: Id, env: Env)
    ensures var o := SendText(m, chat, body, id, env); SendsWell(o, env) && (TakesText(m, chat, body) ==> NotIdle(o.model, env))
  {
    if !Refused(m, chat, body) {
      SaveFlushIsWell(Written(m, chat.value, body, id, env.now), [MessagesKey(chat.value), "contacts", "outbox"], env);
    }
  }

  lemma EditSendsWell(m: Model, profile: P.Payload, peers: seq<Key>, env: Env)
    ensures var o := SaveProfile(m, profile, peers, env);
      SendsWell(o, env) && (profile.Profile? && P.Acceptable(profile) ==> NotIdle(o.model, env))
  {
    if profile.Profile? && P.Acceptable(profile) {
      SaveFlushIsWell(SupersedeAll(m.(profile := profile), Live(m), peers, env.now), ["profile", "outbox"], env);
    }
  }

  lemma AddSendsNone(m: Model, who: Option<Key>)
    ensures SendsNone(AddContact(m, who))
  {
  }

  lemma BlockSendsNone(m: Model, peer: Key, blocked: bool)
    ensures SendsNone(SetBlocked(m, peer, blocked))
  {
  }

  lemma EraseSendsNone(m: Model, key: string)
    ensures SendsNone(Out(m, Saving(m, ["contacts"]) + [Erase(key)] + Saving(m, ["outbox", "seen_ids"])))
  {
  }

  lemma DeleteSendsNone(m: Model, peer: Key)
    ensures SendsNone(DeleteContact(m, peer))
  {
    EraseSendsNone(DeleteContact(m, peer).model, MessagesKey(peer));
  }

  lemma LoadSendsNone(m: Model, peer: Key, found: KvAnswer)
    ensures SendsNone(LoadedMessages(m, peer, found))
  {
  }

  lemma ContactsSendNone(m: Model, e: Event, env: Env)
    requires e.Add? || e.Block? || e.Delete? || e.Loaded?
    ensures SendsWell(Apply(m, e, env), env)
  {
    match e
    case Add(who) => AddSendsNone(m, who);
    case Block(peer, blocked) => BlockSendsNone(m, peer, blocked);
    case Delete(peer) => DeleteSendsNone(m, peer);
    case Loaded(peer, found) => LoadSendsNone(m, peer, found);
  }

  lemma UserSendsWell(m: Model, e: Event, env: Env)
    requires ByUser(e) || e.Loaded?
    ensures SendsWell(Apply(m, e, env), env) && (Kicks(m, e, env) ==> NotIdle(Apply(m, e, env).model, env))
  {
    if e.EditProfile? {
      EditSendsWell(m, e.profile, e.peers, env);
    } else if e.WriteText? {
      WriteSendsWell(m, e.chat, e.body, e.id, env);
    } else {
      ContactsSendNone(m, e, env);
    }
  }

  lemma TimerSendsWell(m: Model, e: Event, env: Env)
    requires !ByUser(e) && !e.Loaded? && !Answers(e)
    ensures SendsWell(Apply(m, e, env), env) && (Kicks(m, e, env) ==> NotIdle(Apply(m, e, env).model, env))
  {
    if e.FlushTimer? {
      FlushIsWell(m, env);
    } else if e.FlushWatch? {
      FlushIsWell(AbandonFlush(m), env);
    } else {
      LoopSendsNone(m, e, env);
    }
  }

  lemma LoopSendsNone(m: Model, e: Event, env: Env)
    requires !ByUser(e) && !e.Loaded? && !Answers(e) && !e.FlushTimer? && !e.FlushWatch?
    ensures SendsNone(Apply(m, e, env))
  {
    match e
    case Switch(url) => if url.Some? { SwitchSendsNone(m, url.value, env); }
    case Foreground => AuthSendsNone(AbandonAuth(m), env);
    case AuthTimer => AuthSendsNone(m, env);
    case PollTimer => AuthSendsNone(m, env);
    case AuthWatch(_) => AuthSendsNone(AbandonAuth(m), env);
    case PollWatch(_) => AuthSendsNone(AbandonPoll(m), env);
    case CursorSaved(_) => AuthSendsNone(m, env);
  }

  lemma SwitchSendsNone(m: Model, url: Url, env: Env)
    ensures SendsNone(SetServerUrl(m, Some(url), env))
  {
    var m1 := Switched(m, url);
    SavingSendsNone(m1, m1, ["settings", "cursor"]);
    AuthSendsNone(AbandonAuth(m1), env);
  }

  lemma ApplySendsWell(m: Model, e: Event, env: Env)
    ensures SendsWell(Apply(m, e, env), env) && (Kicks(m, e, env) ==> NotIdle(Apply(m, e, env).model, env))
  {
    if ByUser(e) || e.Loaded? {
      UserSendsWell(m, e, env);
    } else if !Answers(e) {
      TimerSendsWell(m, e, env);
    } else {
      AnswerSendsWell(m, e, env);
    }
  }

  lemma {:induction false} ChargeShrinks(items: seq<Item>, now: int, x: Item)
    requires x in items && WornOut(x, now)
    ensures |Charge(items, now)| < |items|
  {
    ChargeNoMore(items[..|items| - 1], now);
    assert items == items[..|items| - 1] + [items[|items| - 1]];
    if x in items[..|items| - 1] { ChargeShrinks(items[..|items| - 1], now, x); }
  }

  lemma {:induction false} ChargeNoMore(items: seq<Item>, now: int)
    ensures |Charge(items, now)| <= |items|
  {
    if items != [] { ChargeNoMore(items[..|items| - 1], now); }
  }

  lemma ReceiptSendsWell(m: Model, e: Event, env: Env)
    requires e.GotReceipt?
    ensures SendsWell(Apply(m, e, env), env) && (Kicks(m, e, env) ==> NotIdle(Apply(m, e, env).model, env))
  {
    if e.q.gen == m.flushGen {
      var m1 := m.(flushing := false, inFlight := None);
      SettleSendsWell(m1, m.inFlight, e.receipt, env);
      if Fails(m, e) {
        RetrySendsWell(m1, m.inFlight.value, env);
        if x :| x in m.outbox[..Head(m, m.inFlight)] && WornOut(x, env.now) { ChargeShrinks(m.outbox[..Head(m, m.inFlight)], env.now, x); }
      }
    }
  }

  lemma AnswerSendsWell(m: Model, e: Event, env: Env)
    requires Answers(e)
    ensures SendsWell(Apply(m, e, env), env) && (Kicks(m, e, env) ==> NotIdle(Apply(m, e, env).model, env))
  {
    match e
    case GotChallenge(_, _) =>
    case GotToken(q, token) => TokenSendsWell(m, q.gen, token, env);
    case GotPage(_, _) => PollAnswerSendsWell(m, e, env);
    case GotReceipt(_, _) => ReceiptSendsWell(m, e, env);
  }

  lemma NewlySent(w: World, e: Event, env: Env, q: Request)
    requires q in Next(w, e, env).sent && q !in w.sent
    ensures Ask(q) in Apply(w.m, e, env).effects
  {
  }

  /** In any run every send is made while storage works, under the token of the relay it goes
      to, no earlier than a pause allows, one at a time, with the head of the queue, dated. */
  lemma SendsAreInOrder(ws: seq<World>, acts: seq<Act>, i: nat, q: Request)
    requires Run(ws, acts) && i < |acts| && q in ws[i + 1].sent && q !in ws[i].sent && q.SendReq?
    ensures SentWell(ws[i + 1].m, acts[i].env, q)
  {
    assert StepAt(ws, acts, i);
    NewlySent(ws[i], acts[i].event, acts[i].env, q);
    ApplySendsWell(ws[i].m, acts[i].event, acts[i].env);
  }

  /** In any run a step that has to do with the queue leaves nothing waiting that could go. */
  lemma NothingWaitsThatCouldGo(ws: seq<World>, acts: seq<Act>, i: nat)
    requires Run(ws, acts) && i < |acts| && Kicks(ws[i].m, acts[i].event, acts[i].env)
    ensures NotIdle(ws[i + 1].m, acts[i].env)
  {
    assert StepAt(ws, acts, i);
    ApplySendsWell(ws[i].m, acts[i].event, acts[i].env);
  }

  /** No step of the stretch moves to another relay or is told to wait. */
  predicate Unpaused(ws: seq<World>, acts: seq<Act>, i: nat, j: nat)
    requires |ws| == |acts| + 1 && i <= j <= |acts|
  {
    forall n :: i <= n < j ==> !Moves(acts[n].event) && !Waits(ws[n].m, acts[n].event)
  }

  lemma StepPause(ws: seq<World>, acts: seq<Act>, i: nat)
    requires Run(ws, acts) && i < |acts| && !Moves(acts[i].event)
    ensures ws[i + 1].m.pausedUntil == if Waits(ws[i].m, acts[i].event)
                                       then acts[i].env.now + Wait(acts[i].event.receipt.retryAfter, ws[i].m.sendRetries)
                                       else ws[i].m.pausedUntil
  {
    StepIs(ws, acts, i);
  }

  lemma PauseStays(ws: seq<World>, acts: seq<Act>, i: nat, j: nat)
    requires Run(ws, acts) && i <= j <= |acts| && Unpaused(ws, acts, i, j)
    ensures ws[j].m.pausedUntil == ws[i].m.pausedUntil
  {
    for n := i to j
      invariant ws[n].m.pausedUntil == ws[i].m.pausedUntil
    {
      StepPause(ws, acts, n);
    }
  }

  /** In any run, once the relay says to wait, nothing is sent to it before the time it named
      is up, or, if it named none, before our own backoff is, whoever wakes the queue. */
  lemma WaitIsKept(ws: seq<World>, acts: seq<Act>, i: nat, j: nat, q: Request)
    requires Run(ws, acts) && i < j < |acts| && Waits(ws[i].m, acts[i].event) && !Moves(acts[i].event)
    requires Unpaused(ws, acts, i + 1, j + 1) && q in ws[j + 1].sent && q !in ws[j].sent && q.SendReq?
    ensures acts[i].env.now + Wait(acts[i].event.receipt.retryAfter, ws[i].m.sendRetries) <= acts[j].env.now
  {
    StepPause(ws, acts, i);
    PauseStays(ws, acts, i + 1, j + 1);
    SendsAreInOrder(ws, acts, j, q);
  }
}

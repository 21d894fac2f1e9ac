/** Nothing that is kept changes without being written. */
module ClientStorage {
  import opened Conversations
  import opened ClientModel
  import opened ClientWorld
  import opened ClientSteps
  import opened ClientProgress
  import opened ClientRuns
  import opened ClientConvos
  import P = Payloads

  predicate Puts(fx: seq<Effect>, key: string) { Write(key) in fx }

  /** Each part of the state that is stored is written if it is not what it was; the
      conversation of a deleted contact is removed instead. */
  ghost predicate Saved(m: Model, fx: seq<Effect>, m': Model) {
    && (m'.contacts != m.contacts ==> Puts(fx, "contacts"))
    && (m'.outbox != m.outbox ==> Puts(fx, "outbox"))
    && (m'.cursor != m.cursor ==> Puts(fx, "cursor"))
    && (m'.url != m.url ==> Puts(fx, "settings"))
    && (m'.profile != m.profile ==> Puts(fx, "profile"))
    && (forall k :: Held(m', k) != Held(m, k) ==> Puts(fx, "messages:" + k) || Erase("messages:" + k) in fx)
  }

  /** All but the queue is what it was. */
  predicate OnlyQueue(m: Model, m': Model) {
    m'.contacts == m.contacts && m'.cursor == m.cursor && m'.url == m.url && m'.profile == m.profile && m'.messages == m.messages
    && m'.kvFailed == m.kvFailed
  }

  lemma SavedJoin(m: Model, fx: seq<Effect>, m1: Model, gx: seq<Effect>, m': Model)
    requires Saved(m, fx, m1) && Saved(m1, gx, m')
    ensures Saved(m, fx + gx, m')
  {
  }

  lemma SavingWrites(m: Model, keys: seq<string>, key: string)
    requires !m.kvFailed && key in keys
    ensures Puts(Saving(m, keys), key)
  {
    var i :| 0 <= i < |keys| && keys[i] == key;
    assert Saving(m, keys)[i] == Write(key);
  }

  // ---- flushes ----

  lemma {:induction false} FillKeepsAll(rest: seq<Item>, env: Env, budget: nat, taken: seq<Item>, bytes: nat)
    ensures var p := Fill(rest, env, budget, taken, bytes);
      |p.taken| + |p.rest| <= |taken| + |rest| && (|p.taken| + |p.rest| == |taken| + |rest| ==> p.taken + p.rest == taken + rest)
    decreases |rest|
  {
    if |taken| >= MAX_SEND_BATCH || rest == [] || (taken != [] && taken[0].recipient != rest[0].recipient) {
    } else {
      match env.weigh(rest[0])
      case None => FillKeepsAll(rest[1..], env, budget, taken, bytes);
      case Some(size) =>
        var w := F.HexWeight(size);
        if !(taken != [] && bytes + w > budget) {
          FillKeepsAll(rest[1..], env, budget, taken + [rest[0]], bytes + w);
          assert (taken + [rest[0]]) + rest[1..] == taken + rest;
        }
    }
  }

  lemma StampNone(items: seq<Item>, now: int)
    requires !FirstTry(items)
    ensures Stamp(items, now) == items
  {
  }

  lemma CleanIsSame(p: Pick, items: seq<Item>, env: Env, budget: nat)
    requires p == Fill(items, env, budget, [], 0) && !Dirty(p, items)
    ensures Stamp(p.taken, env.now) + p.rest == items
  {
    FillKeepsAll(items, env, budget, [], 0);
    StampNone(p.taken, env.now);
    assert [] + items == items;
  }

  lemma FlushIsSaved(m: Model, env: Env)
    requires !m.kvFailed
    ensures var o := FlushNext(m, env); OnlyQueue(m, o.model) && (o.model.outbox != m.outbox ==> Puts(o.effects, "outbox"))
  {
    FlushShape(m, env);
    if MayFlush(m, env) {
      var p := Fill(m.outbox, env, Budget(m), [], 0);
      if !Dirty(p, m.outbox) { CleanIsSame(p, m.outbox, env, Budget(m)); }
      SavingWrites(m, ["outbox"], "outbox");
      if p.taken != [] { LaunchIsSaved(m.(outbox := Stamp(p.taken, env.now) + p.rest), |p.taken|, p.bytes, Dirty(p, m.outbox), env); }
    }
  }

  lemma LaunchIsSaved(m: Model, count: nat, bytes: nat, dirty: bool, env: Env)
    requires 1 <= count <= |m.outbox| && m.token.Some? && !m.kvFailed
    ensures dirty ==> Puts(Launch(m, count, bytes, dirty, env).effects, "outbox")
    ensures Launch(m, count, bytes, dirty, env).model.outbox == m.outbox
  {
    SavingWrites(m, ["outbox"], "outbox");
  }

  /** The queue aside, what was saved stays saved; a flush saves the queue. */
  lemma ThenFlushIsSaved(m: Model, m1: Model, keys: seq<string>, env: Env)
    requires !m1.kvFailed && Saved(m, Saving(m1, keys), m1)
    ensures var o := Join(Out(m1, Saving(m1, keys)), FlushNext(m1, env)); Saved(m, o.effects, o.model)
  {
    FlushIsSaved(m1, env);
    assert forall k :: Held(FlushNext(m1, env).model, k) == Held(m1, k);
  }

  lemma AuthIsSaved(m: Model, env: Env)
    ensures OnlyQueue(m, Authenticate(m, env).model) && Authenticate(m, env).model.outbox == m.outbox
    ensures OnlyQueue(m, StartPoll(m, env).model) && StartPoll(m, env).model.outbox == m.outbox
    ensures OnlyQueue(m, Reconnect(m, env).model) && Reconnect(m, env).model.outbox == m.outbox
  {
  }

  lemma QuietIsSaved(m: Model, fx: seq<Effect>, m': Model)
    requires OnlyQueue(m, m') && (m'.outbox == m.outbox || Puts(fx, "outbox"))
    ensures Saved(m, fx, m')
  {
    assert forall k :: Held(m', k) == Held(m, k);
  }

  // ---- a page ----

  /** What has changed so far is on the list of what to write. */
  ghost predicate Listed(m: Model, t: Touched, m': Model) {
    && m'.url == m.url && m'.profile == m.profile && m'.kvFailed == m.kvFailed && m'.cursor == m.cursor
    && (m'.contacts != m.contacts ==> t.contacts) && (m'.outbox != m.outbox ==> t.outbox)
    && forall k :: Held(m', k) != Held(m, k) ==> k in t.convos
  }

  lemma GreetIsListed(m: Model, k: Key, ts: int)
    ensures var m' := Greet(m, k, ts);
      && m'.messages == m.messages && m'.url == m.url && m'.profile == m.profile && m'.kvFailed == m.kvFailed && m'.cursor == m.cursor
      && (k in m.contacts ==> m' == m)
  {
  }

  lemma TextIsListed(m: Model, g: Gathered, d: Decoded, now: int, m': Model, g': Gathered)
    requires Absorbed(m, g, d, now, m', g') && d.payload.Text?
    ensures Listed(m, g'.touched, m')
  {
    GreetIsListed(m, d.sender, ClampTs(d.ts, now));
    forall k | Held(m', k) != Held(m, k) ensures k in g'.touched.convos {
      if k == d.sender && d.payload.id in Seeded(PeerOf(m, k)) { KnownTextFiles(m, g, d, now, m', g'); }
      if k != d.sender { TextElsewhere(m, g, d, now, m', g', k); }
    }
  }

  lemma OtherIsListed(m: Model, g: Gathered, d: Decoded, now: int, m': Model, g': Gathered)
    requires Absorbed(m, g, d, now, m', g') && !d.payload.Text?
    ensures Listed(m, g'.touched, m')
  {
    UntouchedBy(m, g, d, now, m', g');
    assert forall k :: Held(m', k) == Held(m, k);
  }

  lemma ListGrows(m: Model, g: Gathered, d: Decoded, now: int, m': Model, g': Gathered)
    requires Absorbed(m, g, d, now, m', g')
    ensures g.touched.convos <= g'.touched.convos
    ensures (g.touched.contacts ==> g'.touched.contacts) && (g.touched.outbox ==> g'.touched.outbox)
  {
  }

  lemma EventIsListed(m: Model, g: Gathered, d: Decoded, now: int, m': Model, g': Gathered)
    requires Absorbed(m, g, d, now, m', g')
    ensures Listed(m, g'.touched, m')
    ensures g.touched.convos <= g'.touched.convos
    ensures (g.touched.contacts ==> g'.touched.contacts) && (g.touched.outbox ==> g'.touched.outbox)
  {
    ListGrows(m, g, d, now, m', g');
    if d.payload.Text? { TextIsListed(m, g, d, now, m', g'); } else { OtherIsListed(m, g, d, now, m', g'); }
  }

  lemma ListedOn(m: Model, t: Touched, m1: Model, t': Touched, m': Model)
    requires Listed(m, t, m1) && Listed(m1, t', m')
    requires t.convos <= t'.convos && (t.contacts ==> t'.contacts) && (t.outbox ==> t'.outbox)
    ensures Listed(m, t', m')
  {
  }

  lemma LoopIsListed(trail: Trail, ds: seq<Decoded>, now: int, n: nat)
    requires Follows(trail, ds, now) && n <= |ds|
    ensures Listed(trail.models[0], trail.gathered[n].touched, trail.models[n])
  {
    for i := 0 to n
      invariant Listed(trail.models[0], trail.gathered[i].touched, trail.models[i])
    {
      assert AbsorbedAt(trail, ds, now, i);
      EventIsListed(trail.models[i], trail.gathered[i], ds[i], now, trail.models[i + 1], trail.gathered[i + 1]);
      ListedOn(trail.models[0], trail.gathered[i].touched, trail.models[i], trail.gathered[i + 1].touched, trail.models[i + 1]);
    }
  }

  lemma AcksAreListed(m: Model, acks: map<Key, PendingAck>, now: int, t: Touched)
    ensures Listed(m, TouchedByAcks(m, acks, t), ApplyAcks(m, acks, now))
  {
    var m' := ApplyAcks(m, acks, now);
    if !(exists k :: k in acks && Moved(m, acks, k)) {
      assert forall k :: k in m.contacts ==> m'.contacts[k] == m.contacts[k];
      assert m'.contacts == m.contacts;
    }
    forall k | Held(m', k) != Held(m, k) ensures k in TouchedByAcks(m, acks, t).convos {
      AppliedHolds(m, acks, now, k);
      assert Flips(m, acks, k);
    }
  }

  lemma {:induction false} PushedOnly(m: Model, s: Key, chunks: seq<seq<Id>>, now: int)
    ensures var m' := PushAcks(m, s, chunks, now); m' == m.(outbox := m'.outbox, pushed := m'.pushed)
  {
    if chunks != [] { PushedOnly(m, s, chunks[..|chunks| - 1], now); }
  }

  lemma {:induction false} OwedOnly(m: Model, targets: map<Key, seq<Id>>, senders: seq<Key>, now: int)
    requires forall k :: k in senders ==> k in targets
    ensures var m' := OweAcks(m, targets, senders, now); m' == m.(outbox := m'.outbox, pushed := m'.pushed)
  {
    if senders != [] {
      var front, k := senders[..|senders| - 1], senders[|senders| - 1];
      OwedOnly(m, targets, front, now);
      PushedOnly(OweAcks(m, targets, front, now), k, P.Chunks(targets[k]), now);
    }
  }

  lemma OwedIsListed(m: Model, targets: map<Key, seq<Id>>, senders: seq<Key>, now: int, t: Touched)
    requires Enumerates(senders, targets.Keys) && (targets != map[] ==> t.outbox)
    ensures Listed(m, t, OweAcks(m, targets, senders, now))
  {
    OwedOnly(m, targets, senders, now);
    if senders != [] { assert senders[0] in targets; }
    assert forall k :: Held(OweAcks(m, targets, senders, now), k) == Held(m, k);
  }

  lemma PageIsListed(m: Model, cursor: int, events: seq<PageEvent>, now: int, trail: Trail, m': Model)
    requires Ingested(m, cursor, events, now, trail, m')
    ensures var n := |AdmitPage(events).decoded|;
      Listed(trail.models[0], TouchedByPage(trail.models[n], trail.gathered[n]), m')
  {
    var ds := AdmitPage(events).decoded;
    var n := |ds|;
    var m1, g := trail.models[n], trail.gathered[n];
    LoopIsListed(trail, ds, now, n);
    AcksAreListed(m1, g.acks, now, g.touched);
    var t := TouchedByPage(m1, g);
    ListedOn(trail.models[0], g.touched, m1, t, ApplyAcks(m1, g.acks, now));
    OwedIsListed(ApplyAcks(m1, g.acks, now), g.targets, trail.senders, now, t);
    ListedOn(trail.models[0], t, ApplyAcks(m1, g.acks, now), t, m');
  }

  lemma KeysOfPage(convos: seq<Key>, t: Touched)
    requires Enumerates(convos, t.convos)
    ensures forall k :: k in t.convos ==> "messages:" + k in PageKeys(convos, t)
    ensures t.contacts ==> "contacts" in PageKeys(convos, t)
    ensures t.outbox ==> "outbox" in PageKeys(convos, t)
    ensures t.convos != {} ==> "seen_ids" in PageKeys(convos, t)
  {
    forall k | k in t.convos ensures "messages:" + k in PageKeys(convos, t) {
      var i :| 0 <= i < |convos| && convos[i] == k;
      assert PageKeys(convos, t)[i] == MessagesKey(k);
    }
    if k :| k in t.convos { assert k in convos; }
  }

  lemma PageSaved(m: Model, a: PollAnswer, env: Env)
    requires Folds(m, a) && GoodAnswer(m, a, env)
    ensures var keys := a.trail.keys;
      && a.ingested.url == m.url && a.ingested.profile == m.profile && !a.ingested.kvFailed
      && (a.ingested.contacts != m.contacts ==> Puts(Saving(a.ingested, keys), "contacts"))
      && (a.ingested.outbox != m.outbox ==> Puts(Saving(a.ingested, keys), "outbox"))
      && forall k :: Held(a.ingested, k) != Held(m, k) ==> Puts(Saving(a.ingested, keys), "messages:" + k)
  {
    var m0 := m.(polling := false);
    var n := |AdmitPage(a.events).decoded|;
    var t := TouchedByPage(a.trail.models[n], a.trail.gathered[n]);
    PageIsListed(m0, a.cursor, a.events, env.now, a.trail, a.ingested);
    KeysOfPage(a.trail.convos, t);
    var m1 := a.trail.models[0];
    assert m1.contacts == m.contacts && m1.outbox == m.outbox && forall k :: Held(m1, k) == Held(m, k);
    if t.contacts { SavingWrites(a.ingested, a.trail.keys, "contacts"); }
    if t.outbox { SavingWrites(a.ingested, a.trail.keys, "outbox"); }
    forall k | k in t.convos ensures Puts(Saving(a.ingested, a.trail.keys), "messages:" + k) {
      SavingWrites(a.ingested, a.trail.keys, "messages:" + k);
    }
  }

  lemma PageShape(m1: Model, prev: int, keys: seq<string>, env: Env)
    requires !m1.kvFailed
    ensures var o, flushed := AfterPage(m1, prev, keys, env), FlushNext(m1, env);
      && OnlyQueue(m1, o.model) && o.model.outbox == flushed.model.outbox && (m1.cursor != prev ==> Puts(o.effects, "cursor"))
      && forall x :: x in Saving(m1, keys) || x in flushed.effects ==> x in o.effects
  {
    FlushIsSaved(m1, env);
    AuthIsSaved(FlushNext(m1, env).model, env);
    SavingWrites(m1, ["cursor"], "cursor");
  }

  lemma AfterPageSaved(m: Model, m1: Model, keys: seq<string>, env: Env)
    requires !m1.kvFailed && m1.url == m.url && m1.profile == m.profile
    requires (m1.contacts != m.contacts ==> Puts(Saving(m1, keys), "contacts")) && (m1.outbox != m.outbox ==> Puts(Saving(m1, keys), "outbox"))
    requires forall k :: Held(m1, k) != Held(m, k) ==> Puts(Saving(m1, keys), "messages:" + k)
    ensures var o := AfterPage(m1, m.cursor, keys, env); Saved(m, o.effects, o.model)
  {
    FlushIsSaved(m1, env);
    PageShape(m1, m.cursor, keys, env);
    assert forall k :: Held(AfterPage(m1, m.cursor, keys, env).model, k) == Held(m1, k);
  }

  lemma IngestSaved(m: Model, e: Event, env: Env)
    requires Ingests(m, e) && GoodAnswer(m, e.page, env)
    ensures Saved(m, Apply(m, e, env).effects, Apply(m, e, env).model)
  {
    PageSaved(m, e.page, env);
    AfterPageSaved(m, e.page.ingested, e.page.trail.keys, env);
  }

  // ---- the rest ----

  lemma WriteSaved(m: Model, chat: Option<Key>, body: string, id: Id, env: Env)
    requires !m.kvFailed
    ensures var o := SendText(m, chat, body, id, env); Saved(m, o.effects, o.model)
  {
    if Refused(m, chat, body) {
      QuietIsSaved(m, [], m);
    } else {
      var m1 := Written(m, chat.value, body, id, env.now);
      var keys := [MessagesKey(chat.value), "contacts", "outbox"];
      forall key | key in keys ensures Puts(Saving(m1, keys), key) { SavingWrites(m1, keys, key); }
      forall k | Held(m1, k) != Held(m, k) ensures Puts(Saving(m1, keys), "messages:" + k) {
        WrittenHolds(m, chat.value, body, id, env.now, k);
      }
      ThenFlushIsSaved(m, m1, keys, env);
    }
  }

  lemma EditSaved(m: Model, profile: P.Payload, peers: seq<Key>, env: Env)
    requires !m.kvFailed
    ensures var o := SaveProfile(m, profile, peers, env); Saved(m, o.effects, o.model)
  {
    if profile.Profile? && P.Acceptable(profile) {
      var m1 := SupersedeAll(m.(profile := profile), Live(m), peers, env.now);
      var keys := ["profile", "outbox"];
      EditedOnly(m.(profile := profile), Live(m), peers, env.now);
      forall key | key in keys ensures Puts(Saving(m1, keys), key) { SavingWrites(m1, keys, key); }
      assert forall k :: Held(m1, k) == Held(m, k);
      ThenFlushIsSaved(m, m1, keys, env);
    } else {
      QuietIsSaved(m, [], m);
    }
  }

  lemma PushOnly(m: Model, k: Key, p: P.Payload, ts: int)
    ensures var m' := Push(m, k, p, ts); m' == m.(outbox := m'.outbox, pushed := m'.pushed)
  {
  }

  lemma SupersedeOnly(m: Model, live: nat, k: Key, ts: int)
    ensures var m' := Supersede(m, live, k, ts); m' == m.(outbox := m'.outbox, pushed := m'.pushed)
  {
    var r := if live <= |m.outbox| then Pending(m.outbox, live, k) else |m.outbox|;
    if r < |m.outbox| {
      var items := m.outbox[r := m.outbox[r].(envelope := P.Serialize(m.profile, ts))];
      assert Supersede(m, live, k, ts) == m.(outbox := items);
    } else {
      PushOnly(m, k, m.profile, ts);
      assert Supersede(m, live, k, ts) == Push(m, k, m.profile, ts);
    }
  }

  lemma {:induction false} EditedOnly(m: Model, live: nat, peers: seq<Key>, ts: int)
    ensures var m' := SupersedeAll(m, live, peers, ts); m' == m.(outbox := m'.outbox, pushed := m'.pushed)
  {
    if peers != [] {
      EditedOnly(m, live, peers[..|peers| - 1], ts);
      SupersedeOnly(SupersedeAll(m, live, peers[..|peers| - 1], ts), live, peers[|peers| - 1], ts);
    }
  }

  lemma AddSaved(m: Model, who: Option<Key>)
    requires !m.kvFailed
    ensures var o := AddContact(m, who); Saved(m, o.effects, o.model)
  {
    SavingWrites(AddContact(m, who).model, ["contacts"], "contacts");
    assert forall k :: Held(AddContact(m, who).model, k) == Held(m, k);
  }

  lemma BlockSaved(m: Model, peer: Key, blocked: bool)
    requires !m.kvFailed
    ensures var o := SetBlocked(m, peer, blocked); Saved(m, o.effects, o.model)
  {
    var m1 := SetBlocked(m, peer, blocked).model;
    if blocked {
      SavingWrites(m1, ["contacts", "outbox"], "contacts");
      SavingWrites(m1, ["contacts", "outbox"], "outbox");
    } else {
      SavingWrites(m1, ["contacts"], "contacts");
    }
    assert forall k :: Held(m1, k) == Held(m, k);
  }

  lemma DeleteSaved(m: Model, peer: Key)
    requires !m.kvFailed
    ensures var o := DeleteContact(m, peer); Saved(m, o.effects, o.model)
  {
    var o := DeleteContact(m, peer);
    SavingWrites(o.model, ["contacts"], "contacts");
    SavingWrites(o.model, ["outbox", "seen_ids"], "outbox");
    assert Erase("messages:" + peer) in [Erase(MessagesKey(peer))];
    forall x | x in Saving(o.model, ["contacts"]) || x in [Erase(MessagesKey(peer))] || x in Saving(o.model, ["outbox", "seen_ids"])
      ensures x in o.effects {
    }
    assert forall k :: k != peer ==> Held(o.model, k) == Held(m, k);
  }

  lemma SwitchSaved(m: Model, url: Url, env: Env)
    requires !m.kvFailed
    ensures var o := SetServerUrl(m, Some(url), env); Saved(m, o.effects, o.model)
  {
    var m1 := Switched(m, url);
    SavingWrites(m1, ["settings", "cursor"], "settings");
    SavingWrites(m1, ["settings", "cursor"], "cursor");
    AuthIsSaved(AbandonAuth(m1), env);
    var o := SetServerUrl(m, Some(url), env);
    assert forall x :: x in Saving(m1, ["settings", "cursor"]) ==> x in o.effects;
    assert forall k :: Held(o.model, k) == Held(m, k);
  }

  lemma LoopSaved(m: Model, e: Event, env: Env)
    requires e.Foreground? || e.AuthTimer? || e.PollTimer? || e.AuthWatch? || e.PollWatch? || e.CursorSaved?
    ensures OnlyQueue(m, Apply(m, e, env).model) && Apply(m, e, env).model.outbox == m.outbox
  {
    match e
    case Foreground => AuthIsSaved(AbandonAuth(m), env);
    case AuthTimer => AuthIsSaved(m, env);
    case PollTimer => AuthIsSaved(m, env);
    case AuthWatch(_) => AuthIsSaved(AbandonAuth(m), env);
    case PollWatch(_) => AuthIsSaved(AbandonPoll(m), env);
    case CursorSaved(_) => AuthIsSaved(m, env);
  }

  lemma TimerSaved(m: Model, e: Event, env: Env)
    requires !m.kvFailed && !ByUser(e) && !e.Loaded? && !Answers(e)
    ensures Saved(m, Apply(m, e, env).effects, Apply(m, e, env).model)
  {
    if e.Switch? {
      if e.to.Some? { SwitchSaved(m, e.to.value, env); } else { QuietIsSaved(m, [], m); }
    } else if e.FlushTimer? || e.FlushWatch? {
      FlushSaved(m, e, env);
    } else {
      LoopSaved(m, e, env);
      QuietIsSaved(m, Apply(m, e, env).effects, Apply(m, e, env).model);
    }
  }

  lemma FlushSaved(m: Model, e: Event, env: Env)
    requires !m.kvFailed && (e.FlushTimer? || e.FlushWatch?)
    ensures Saved(m, Apply(m, e, env).effects, Apply(m, e, env).model)
  {
    FlushIsSaved(m, env);
    FlushIsSaved(AbandonFlush(m), env);
    QuietIsSaved(m, Apply(m, e, env).effects, Apply(m, e, env).model);
  }

  /** Only the queue changes, and is written if it does. */
  ghost predicate QueueSaved(m: Model, o: Out) { OnlyQueue(m, o.model) && (o.model.outbox == m.outbox || Puts(o.effects, "outbox")) }

  lemma PollThenFlushSaved(m: Model, env: Env)
    requires !m.kvFailed
    ensures var polled := StartPoll(m, env); QueueSaved(m, Join(polled, FlushNext(polled.model, env)))
  {
    AuthIsSaved(m, env);
    FlushIsSaved(StartPoll(m, env).model, env);
  }

  lemma TokenInstalledSaved(m: Model, token: Token, env: Env)
    requires !m.kvFailed && token != ""
    ensures var o := VerifyResult(m, m.authGen, Some(token), env); QueueSaved(m, o)
  {
    var m1 := m.(authenticating := false, token := Some(token), conn := Online);
    assert VerifyResult(m, m.authGen, Some(token), env) == Join(StartPoll(m1, env), FlushNext(StartPoll(m1, env).model, env));
    PollThenFlushSaved(m1, env);
  }

  lemma TokenSaved(m: Model, gen: nat, token: Option<Token>, env: Env)
    requires !m.kvFailed
    ensures var o := VerifyResult(m, gen, token, env); Saved(m, o.effects, o.model)
  {
    var o := VerifyResult(m, gen, token, env);
    if gen == m.authGen && token.Some? && token.value != "" {
      TokenInstalledSaved(m, token.value, env);
    } else {
      assert o == Quiet(m) || o == Quiet(m.(authenticating := false, conn := Offline));
    }
    QuietIsSaved(m, o.effects, o.model);
  }

  lemma AcceptedSaved(m: Model, batch: Option<InFlight>, a: SendAnswer, env: Env)
    requires !m.kvFailed && a.SendStatus? && Accepted(a.code)
    ensures QueueSaved(m, Settle(m, batch, a, env))
  {
    var m1 := m.(sendRetries := 0, outbox := m.outbox[Head(m, batch)..]);
    SavingWrites(m1, ["outbox"], "outbox");
    FlushIsSaved(m1, env);
  }

  lemma RefusedSaved(m: Model, batch: Option<InFlight>, a: SendAnswer, env: Env)
    requires a.SendStatus? && (a.code == 401 || a.code == 429)
    ensures QueueSaved(m, Settle(m, batch, a, env))
  {
    if a.code == 401 {
      assert Settle(m, batch, a, env) == Authenticate(m.(token := None), env);
      AuthIsSaved(m.(token := None), env);
    } else {
      assert Settle(m, batch, a, env) == Quiet(Pause(m, a.retryAfter, env.now));
    }
  }

  lemma SplitSaved(m: Model, batch: Option<InFlight>, a: SendAnswer, env: Env)
    requires !m.kvFailed && a.SendStatus? && Splits(a.code, batch)
    ensures QueueSaved(m, Settle(m, batch, a, env))
  {
    var m1 := m.(budget := Some(batch.value.bytes / 2));
    assert Settle(m, batch, a, env) == FlushNext(m1, env);
    FlushIsSaved(m1, env);
  }

  lemma SettleSaved(m: Model, batch: Option<InFlight>, a: SendAnswer, env: Env)
    requires !m.kvFailed
    ensures QueueSaved(m, Settle(m, batch, a, env))
  {
    if Charges(a, batch) {
      RetrySaved(m, batch, env);
    } else if Accepted(a.code) {
      AcceptedSaved(m, batch, a, env);
    } else if Splits(a.code, batch) {
      SplitSaved(m, batch, a, env);
    } else {
      RefusedSaved(m, batch, a, env);
    }
  }

  lemma RetrySaved(m: Model, batch: Option<InFlight>, env: Env)
    requires !m.kvFailed
    ensures QueueSaved(m, RetryBatch(m, batch, env))
  {
    if batch.Some? {
      var n := Head(m, batch);
      var m1 := m.(outbox := Charge(m.outbox[..n], env.now) + m.outbox[n..]);
      SavingWrites(m1, ["outbox"], "outbox");
      FlushIsSaved(m1, env);
    }
  }

  lemma ChallengeSaved(m: Model, gen: nat, a: ChallengeAnswer, env: Env)
    ensures var o := ChallengeResult(m, gen, a, env); Saved(m, o.effects, o.model)
  {
    var o := ChallengeResult(m, gen, a, env);
    ChallengeShape(m, gen, a, env);
    QuietIsSaved(m, o.effects, o.model);
  }

  lemma NoPageSaved(m: Model, gen: nat, a: PollAnswer, env: Env)
    requires !(gen == m.pollGen && Folds(m, a))
    ensures var o := PollResult(m, gen, a, env); Saved(m, o.effects, o.model)
  {
    var o := PollResult(m, gen, a, env);
    if gen == m.pollGen && a.PollStatus? && a.code == 401 {
      AuthIsSaved(m.(polling := false, token := None), env);
    } else {
      QuietPage(m, gen, a, env);
    }
    QuietIsSaved(m, o.effects, o.model);
  }

  lemma PlainAnswerSaved(m: Model, e: Event, env: Env)
    requires !m.kvFailed && (e.GotChallenge? || e.GotPage?) && !Ingests(m, e)
    ensures Saved(m, Apply(m, e, env).effects, Apply(m, e, env).model)
  {
    if e.GotPage? { NoPageSaved(m, e.q.gen, e.page, env); } else { ChallengeSaved(m, e.q.gen, e.challenge, env); }
  }

  lemma ReceiptSaved(m: Model, e: Event, env: Env)
    requires !m.kvFailed && e.GotReceipt?
    ensures Saved(m, Apply(m, e, env).effects, Apply(m, e, env).model)
  {
    SettleSaved(m.(flushing := false, inFlight := None), m.inFlight, e.receipt, env);
    QuietIsSaved(m, Apply(m, e, env).effects, Apply(m, e, env).model);
  }

  lemma ApplySaved(m: Model, e: Event, env: Env)
    requires !m.kvFailed && !e.Loaded? && (Ingests(m, e) ==> GoodAnswer(m, e.page, env))
    ensures Saved(m, Apply(m, e, env).effects, Apply(m, e, env).model)
  {
    match e
    case Add(who) => AddSaved(m, who);
    case Block(peer, blocked) => BlockSaved(m, peer, blocked);
    case Delete(peer) => DeleteSaved(m, peer);
    case EditProfile(profile, peers) => EditSaved(m, profile, peers, env);
    case WriteText(chat, body, id) => WriteSaved(m, chat, body, id, env);
    case GotToken(q, token) => TokenSaved(m, q.gen, token, env);
    case GotReceipt(_, _) => ReceiptSaved(m, e, env);
    case _ =>
      if !Answers(e) { TimerSaved(m, e, env); } else if Ingests(m, e) { IngestSaved(m, e, env); } else { PlainAnswerSaved(m, e, env); }
  }

  /** In any run, while storage works, no step changes the contacts, the queue, the cursor, the
      relay, the profile or what a conversation holds without writing it in the same step; a
      deleted contact's conversation is removed. What a load brings is stored already. */
  lemma NothingChangesUnsaved(ws: seq<World>, acts: seq<Act>, i: nat)
    requires Run(ws, acts) && i < |acts| && !ws[i].m.kvFailed && !acts[i].event.Loaded?
    ensures Saved(ws[i].m, Apply(ws[i].m, acts[i].event, acts[i].env).effects, ws[i + 1].m)
  {
    assert StepAt(ws, acts, i);
    ApplySaved(ws[i].m, acts[i].event, acts[i].env);
  }

  /** Whoever has a new text has the ids seen from them written with it. */
  lemma SeenIsWrittenToo(m: Model, a: PollAnswer, env: Env, k: Key)
    requires Folds(m, a) && GoodAnswer(m, a, env) && Held(a.ingested, k) != Held(m, k)
    ensures Puts(AfterPage(a.ingested, m.cursor, a.trail.keys, env).effects, "seen_ids")
  {
    var m0 := m.(polling := false);
    var n := |AdmitPage(a.events).decoded|;
    var t := TouchedByPage(a.trail.models[n], a.trail.gathered[n]);
    PageIsListed(m0, a.cursor, a.events, env.now, a.trail, a.ingested);
    KeysOfPage(a.trail.convos, t);
    assert Held(a.trail.models[0], k) == Held(m, k);
    SavingWrites(a.ingested, a.trail.keys, "seen_ids");
    assert Saving(a.ingested, a.trail.keys) <= AfterPage(a.ingested, m.cursor, a.trail.keys, env).effects;
  }
}

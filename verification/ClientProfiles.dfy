/** Who becomes a contact or stops being one, and which profiles reach whom. */
module ClientProfiles {
  import opened ClientModel
  import opened ClientOutbox
  import opened ClientWorld
  import opened ClientIngest
  import opened ClientSteps
  import opened ClientProgress
  import opened ClientAcks
  import opened ClientRuns
  import opened ClientSending
  import opened ClientPeers
  import P = Payloads

  // ---- what a page does to contacts ----

  /** A text on the page from this key. */
  ghost predicate Wrote(ds: seq<Decoded>, k: Key) { exists d :: d in ds && d.sender == k && d.payload.Text? }

  /** The date a text is filed under: its own, from zero to a minute from now. */
  function TextDate(ts: int, now: int): int { if ts < 0 then 0 else if ts > now + 60000 then now + 60000 else ts }

  /** A text of theirs on the page has this date. */
  ghost predicate WroteAt(ds: seq<Decoded>, k: Key, now: int, ts: int) {
    exists d :: d in ds && d.sender == k && d.payload.Text? && ts == TextDate(d.ts, now)
  }

  ghost predicate IsIntroduction(x: Item, pushed: nat, k: Key, profile: P.Payload, ts: int) {
    x.id >= pushed && x == Item(x.id, k, P.Serialize(profile, ts), true, 0, 0)
  }

  /** Our profile is in the queue for the peer, under a new number and dated as a text of
      theirs. */
  ghost predicate Introduced(items: seq<Item>, pushed: nat, k: Key, profile: P.Payload, ds: seq<Decoded>, now: int) {
    exists x, ts :: x in items && WroteAt(ds, k, now, ts) && IsIntroduction(x, pushed, k, profile, ts)
  }

  /** How one event changes who is a contact. */
  ghost predicate Meets(m: Model, d: Decoded, m': Model) {
    var met := d.payload.Text? && d.sender != m.me && d.sender !in m.contacts && |m.contacts| < 500;
    && m'.contacts.Keys == m.contacts.Keys + (if met then {d.sender} else {})
    && m'.me == m.me && m'.profile == m.profile
    && (if met then m'.pushed == m.pushed + 1 && |m'.outbox| == |m.outbox| + 1 && m'.outbox[..|m.outbox|] == m.outbox
        else m'.pushed == m.pushed && m'.outbox == m.outbox)
  }

  lemma AbsorbedMeets(m: Model, g: Gathered, d: Decoded, now: int, m': Model, g': Gathered)
    requires Absorbed(m, g, d, now, m', g')
    ensures Meets(m, d, m')
  {
    if d.payload.Text? && m' != m { GreetMeets(m, d.sender, ClampTs(d.ts, now)); }
  }

  lemma GreetMeets(m: Model, k: Key, ts: int)
    ensures var m' := Greet(m, k, ts);
      && m'.contacts.Keys == m.contacts.Keys + {k} && m'.me == m.me && m'.profile == m.profile
      && m'.outbox == m.outbox + (if k in m.contacts then [] else [Item(m.pushed, k, P.Serialize(m.profile, ts), m.profile.Profile?, 0, 0)])
      && m'.pushed == m.pushed + if k in m.contacts then 0 else 1
  {
    if k in m.contacts { assert m.contacts.Keys + {k} == m.contacts.Keys; }
  }

  lemma AbsorbedIntroduces(m: Model, g: Gathered, d: Decoded, now: int, m': Model, g': Gathered)
    requires Absorbed(m, g, d, now, m', g') && d.sender !in m.contacts && d.sender in m'.contacts
    requires m.profile.Profile? && 0 <= now && P.IsI64(now + MAX_FUTURE_SKEW_MS)
    ensures Introduced(m'.outbox, m.pushed, d.sender, m.profile, [d], now)
  {
    var ts := ClampTs(d.ts, now);
    assert d in [d] && ts == TextDate(d.ts, now);
    GreetMeets(m, d.sender, ts);
    var x := Item(m.pushed, d.sender, P.Serialize(m.profile, ts), true, 0, 0);
    assert m'.outbox == Greet(m, d.sender, ts).outbox;
    assert x in m'.outbox && WroteAt([d], d.sender, now, ts) && IsIntroduction(x, m.pushed, d.sender, m.profile, ts);
  }

  ghost predicate Met(m0: Model, ds: seq<Decoded>, now: int, m: Model, k: Key) {
    && m.me == m0.me && m.profile == m0.profile && m0.pushed <= m.pushed && m0.contacts.Keys <= m.contacts.Keys
    && (k in m.contacts && k !in m0.contacts ==> Wrote(ds, k) && k != m0.me && Introduced(m.outbox, m0.pushed, k, m0.profile, ds, now))
    && (k !in m.contacts && k != m0.me && Wrote(ds, k) ==> |m.contacts| >= 500)
  }

  lemma WroteNext(ds: seq<Decoded>, d: Decoded, k: Key)
    ensures Wrote(ds + [d], k) <==> Wrote(ds, k) || (d.sender == k && d.payload.Text?)
  {
    assert forall x :: x in ds + [d] <==> x in ds || x == d;
  }

  lemma IntroducedStays(items: seq<Item>, items': seq<Item>, later: nat, pushed: nat, k: Key, profile: P.Payload,
                        ds: seq<Decoded>, ds': seq<Decoded>, now: int)
    requires Introduced(items, later, k, profile, ds, now) && items <= items' && pushed <= later && forall d :: d in ds ==> d in ds'
    ensures Introduced(items', pushed, k, profile, ds', now)
  {
    var x, ts :| x in items && WroteAt(ds, k, now, ts) && IsIntroduction(x, later, k, profile, ts);
    assert x in items' && WroteAt(ds', k, now, ts) && IsIntroduction(x, pushed, k, profile, ts);
  }

  /** What one event does to who has been met. */
  lemma MetNext(m0: Model, ds: seq<Decoded>, now: int, m: Model, d: Decoded, m': Model, k: Key)
    requires Met(m0, ds, now, m, k) && Meets(m, d, m')
    requires k in m'.contacts && k !in m.contacts ==> Introduced(m'.outbox, m.pushed, k, m.profile, [d], now)
    ensures Met(m0, ds + [d], now, m', k)
  {
    WroteNext(ds, d, k);
    assert |m.contacts.Keys| == |m.contacts| && |m'.contacts.Keys| == |m'.contacts|;
    if k in m.contacts {
      if k !in m0.contacts { IntroducedStays(m.outbox, m'.outbox, m0.pushed, m0.pushed, k, m0.profile, ds, ds + [d], now); }
    } else if k in m'.contacts {
      IntroducedStays(m'.outbox, m'.outbox, m.pushed, m0.pushed, k, m.profile, [d], ds + [d], now);
    }
  }

  lemma MeetsNext(m0: Model, m: Model, g: Gathered, ds: seq<Decoded>, d: Decoded, now: int, m': Model, g': Gathered, k: Key)
    requires Met(m0, ds, now, m, k) && Absorbed(m, g, d, now, m', g') && Ready(m0, now)
    ensures Met(m0, ds + [d], now, m', k)
  {
    AbsorbedMeets(m, g, d, now, m', g');
    if k in m'.contacts && k !in m.contacts { AbsorbedIntroduces(m, g, d, now, m', g'); }
    MetNext(m0, ds, now, m, d, m', k);
  }

  lemma LoopMeets(trail: Trail, ds: seq<Decoded>, now: int, n: nat, k: Key)
    requires Follows(trail, ds, now) && n <= |ds| && Ready(trail.models[0], now)
    ensures Met(trail.models[0], ds[..n], now, trail.models[n], k)
  {
    for i := 0 to n
      invariant Met(trail.models[0], ds[..i], now, trail.models[i], k)
    {
      assert AbsorbedAt(trail, ds, now, i);
      assert ds[..i + 1] == ds[..i] + [ds[i]];
      MeetsNext(trail.models[0], trail.models[i], trail.gathered[i], ds[..i], ds[i], now, trail.models[i + 1], trail.gathered[i + 1], k);
    }
  }

  /** After a page the new contacts are exactly those strangers who wrote on it, as long as
      there was room for one more, and each is queued our profile. */
  lemma PageMeets(m: Model, cursor: int, events: seq<PageEvent>, now: int, trail: Trail, m': Model, k: Key)
    requires Ready(m, now) && ReadablePage(events) && Ingested(m, cursor, events, now, trail, m')
    ensures Met(m, AdmitPage(events).decoded, now, m', k)
  {
    var ds := AdmitPage(events).decoded;
    var n := |ds|;
    LoopReady(m, cursor, events, now, trail, m');
    LoopMeets(trail, ds, now, n, k);
    assert ds[..n] == ds;
    var m1, g := trail.models[n], trail.gathered[n];
    LoopKeeps(trail, ds, now, n);
    ApplyAcksKeeps(m1, g.acks, now);
    var m2 := ApplyAcks(m1, g.acks, now);
    assert m2.contacts.Keys == m1.contacts.Keys && m2.outbox == m1.outbox;
    OwableGrown(m1, m2, g.targets);
    OweAcksKeeps(m2, g.targets, trail.senders, now);
    OwedLeaves(m2, g.targets, trail.senders, now);
    MetGrown(m, ds, now, m1, m', k);
  }

  lemma MetGrown(m0: Model, ds: seq<Decoded>, now: int, m: Model, m': Model, k: Key)
    requires Met(m0, ds, now, m, k) && m'.contacts.Keys == m.contacts.Keys && m'.me == m.me && m'.profile == m.profile
    requires m.pushed <= m'.pushed && m.outbox <= m'.outbox
    ensures Met(m0, ds, now, m', k)
  {
    assert |m.contacts.Keys| == |m.contacts| && |m'.contacts.Keys| == |m'.contacts|;
    if k in m.contacts && k !in m0.contacts { IntroducedStays(m.outbox, m'.outbox, m0.pushed, m0.pushed, k, m0.profile, ds, ds, now); }
  }

  // ---- over runs ----

  lemma IntroductionWaits(before: seq<Item>, after: seq<Item>, env: Env, pushed: nat, k: Key, profile: P.Payload, ds: seq<Decoded>)
    requires Introduced(before, pushed, k, profile, ds, env.now) && Flushed(before, after, env) && Ascending(before)
    requires Encrypts(env) && env.usable(k) && profile.Profile? && P.Acceptable(profile)
    requires 0 <= env.now && P.IsI64(env.now + MAX_FUTURE_SKEW_MS)
    ensures exists y, ts :: y in after && y.id >= pushed && WroteAt(ds, k, env.now, ts) && Says(y, y.id, k, ts, P.Cleaned(profile))
  {
    var x, ts :| x in before && WroteAt(ds, k, env.now, ts) && IsIntroduction(x, pushed, k, profile, ts);
    P.PayloadFitsPlaintext(profile, ts);
    FlushSpares(before, after, env, x);
    var y :| y in after && Stamped(x, env.now, y);
    ProfileIsRead(k, profile, ts, env.now, x.id, y);
    assert Says(y, y.id, k, ts, P.Cleaned(profile));
  }

  lemma FoldedMeets(w: World, e: Event, env: Env, k: Key)
    requires WInv(w) && Legal(w, e, env) && Ingests(w.m, e)
    ensures Met(w.m, AdmitPage(e.page.events).decoded, env.now, e.page.ingested, k) && Ascending(e.page.ingested.outbox)
  {
    var m := w.m.(polling := false);
    PageReady(w, m, env.now);
    PageMeets(m, e.page.cursor, e.page.events, env.now, e.page.trail, e.page.ingested, k);
    IngestedKeeps(m, e.page.cursor, e.page.events, env.now, e.page.trail, e.page.ingested);
  }

  /** In any run a folded page makes contacts of exactly those strangers who wrote on it, but
      for want of room, and each of them is queued our profile, dated as a text of theirs. */
  lemma NewcomersAreGreeted(ws: seq<World>, acts: seq<Act>, i: nat, k: Key)
    requires Run(ws, acts) && i < |acts| && Ingests(ws[i].m, acts[i].event) && k !in ws[i].m.contacts
    ensures var m, m', ds := ws[i].m, ws[i + 1].m, AdmitPage(acts[i].event.page.events).decoded;
      && (k in m'.contacts ==> k != m.me && Wrote(ds, k))
      && (k != m.me && Wrote(ds, k) ==> k in m'.contacts || |m'.contacts| >= 500)
      && (k in m'.contacts && acts[i].env.usable(k) ==>
            exists y, ts :: y in m'.outbox && y.id >= m.pushed && WroteAt(ds, k, acts[i].env.now, ts)
                            && Says(y, y.id, k, ts, P.Cleaned(m.profile)))
  {
    var w, e, env := ws[i], acts[i].event, acts[i].env;
    AlwaysInv(ws, acts, i);
    assert StepAt(ws, acts, i);
    FoldedMeets(w, e, env, k);
    LaterReady(w, env.now);
    IngestCore(w.m, e.q.gen, e.page, env);
    if k in ws[i + 1].m.contacts && env.usable(k) {
      IntroductionWaits(e.page.ingested.outbox, ws[i + 1].m.outbox, env, w.m.pushed, k, w.m.profile, AdmitPage(e.page.events).decoded);
    }
  }

  lemma EditedWaits(before: seq<Item>, live: nat, after: seq<Item>, env: Env, k: Key, profile: P.Payload)
    requires QueuedFor(before, live, k, P.Serialize(profile, env.now)) && Flushed(before, after, env) && Ascending(before)
    requires Encrypts(env) && env.usable(k) && profile.Profile? && P.Acceptable(profile) && P.IsI64(env.now)
    ensures exists y :: y in after && y.profile && y.recipient == k && P.Parse(y.envelope) == P.Some(P.Parsed(env.now, P.Cleaned(profile)))
  {
    var i :| live <= i < |before| && before[i].recipient == k && before[i].profile && before[i].envelope == P.Serialize(profile, env.now);
    var x := before[i];
    P.PayloadFitsPlaintext(profile, env.now);
    FlushSpares(before, after, env, x);
    var y :| y in after && Stamped(x, env.now, y);
    P.CleanedAcceptable(profile);
    P.PayloadRoundTrip(profile, env.now);
  }

  /** In any run an edit of our profile within the caps is kept and is queued to each contact
      who is not blocked; one over the caps changes nothing. */
  lemma EditReachesContacts(ws: seq<World>, acts: seq<Act>, i: nat, k: Key)
    requires Run(ws, acts) && i < |acts| && acts[i].event.EditProfile?
    ensures var m, e, env, m' := ws[i].m, acts[i].event, acts[i].env, ws[i + 1].m;
      && (e.profile.Profile? && P.Acceptable(e.profile) ==> m'.profile == e.profile)
      && (e.profile.Profile? && P.Acceptable(e.profile) && k in m.contacts && !m.contacts[k].blocked && env.usable(k) ==>
            exists y :: y in m'.outbox && y.profile && y.recipient == k
                        && P.Parse(y.envelope) == P.Some(P.Parsed(env.now, P.Cleaned(e.profile))))
      && (!(e.profile.Profile? && P.Acceptable(e.profile)) ==> m' == m && ws[i + 1].sent == ws[i].sent)
  {
    var w, e, env := ws[i], acts[i].event, acts[i].env;
    AlwaysInv(ws, acts, i);
    assert StepAt(ws, acts, i);
    if e.profile.Profile? && P.Acceptable(e.profile) {
      LaterReady(w, env.now);
      LiveFits(w);
      EditReady(w.m, e.profile, e.peers, env.now);
      EditCore(w.m, e.profile, e.peers, env);
      ProfileReachesAll(w.m.(profile := e.profile), Live(w.m), e.peers, env.now);
      if k in w.m.contacts && !w.m.contacts[k].blocked && env.usable(k) {
        EditedWaits(QueueBefore(w.m, e, env), Live(w.m), ws[i + 1].m.outbox, env, k, e.profile);
      }
    } else {
      RequestsOf([], [], ChallengeReq(0, ""), w.m, []);
    }
  }
}

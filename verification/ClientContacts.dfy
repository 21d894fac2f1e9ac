/** How contacts change over a run, and what is left of a peer who is blocked. */
module ClientContacts {
  import opened Conversations
  import opened ClientModel
  import opened ClientOutbox
  import opened ClientWorld
  import opened ClientIngest
  import opened ClientSteps
  import opened ClientProgress
  import opened ClientAcks
  import opened ClientRuns
  import opened ClientSending
  import opened ClientConvos
  import opened ClientPeers
  import P = Payloads

  // ---- the contact list, step by step ----

  /** Who is a contact after the step. */
  ghost predicate IsContact(m: Model, e: Event, k: Key) {
    || (k in m.contacts && !Deletes(e, k))
    || (e.Add? && e.who == Some(k) && k != m.me)
    || (e.WriteText? && e.chat == Some(k) && TakesText(m, e.chat, e.body))
    || (Ingests(m, e) && k in e.page.ingested.contacts)
  }

  /** What a contact is after the step, if they were one. */
  function ContactThen(m: Model, e: Event, k: Key): Contact
    requires k in m.contacts
  {
    if e.Block? && e.peer == k then m.contacts[k].(blocked := e.blocked)
    else if Ingests(m, e) && k in e.page.ingested.contacts then e.page.ingested.contacts[k]
    else m.contacts[k]
  }

  ghost predicate ContactsMove(m: Model, e: Event, m': Model, k: Key) {
    && (k in m'.contacts <==> IsContact(m, e, k))
    && (k in m.contacts && k in m'.contacts ==> m'.contacts[k] == ContactThen(m, e, k))
    && (k in m'.contacts && k !in m.contacts && !Ingests(m, e) ==> m'.contacts[k] == Contact(false, 0, 0, Card("", "", P.None)))
  }

  lemma AddMoves(m: Model, e: Event, env: Env, k: Key)
    requires e.Add?
    ensures ContactsMove(m, e, Apply(m, e, env).model, k)
  {
    AddIsExact(m, e.who);
  }

  lemma BlockMoves(m: Model, e: Event, env: Env, k: Key)
    requires e.Block?
    ensures ContactsMove(m, e, Apply(m, e, env).model, k)
  {
    BlockIsExact(m, e.peer, e.blocked);
  }

  lemma DeleteMoves(m: Model, e: Event, env: Env, k: Key)
    requires e.Delete?
    ensures ContactsMove(m, e, Apply(m, e, env).model, k)
  {
    DeleteIsExact(m, e.peer);
  }

  lemma WrittenContacts(m: Model, k: Key, body: string, id: Id, now: int)
    ensures Written(m, k, body, id, now).contacts == if k in m.contacts then m.contacts else m.contacts[k := NEWCOMER]
  {
  }

  lemma WriteMoves(m: Model, e: Event, env: Env, k: Key)
    requires e.WriteText?
    ensures ContactsMove(m, e, Apply(m, e, env).model, k)
  {
    WriteCore(m, e.chat, e.body, e.id, env);
    if TakesText(m, e.chat, e.body) { WrittenContacts(m, e.chat.value, e.body, e.id, env.now); }
  }

  lemma {:induction false} EditLeavesContacts(m: Model, live: nat, peers: seq<Key>, ts: int)
    ensures SupersedeAll(m, live, peers, ts).contacts == m.contacts
  {
    if peers != [] { EditLeavesContacts(m, live, peers[..|peers| - 1], ts); }
  }

  lemma OtherMoves(m: Model, e: Event, env: Env)
    requires !e.Add? && !e.Block? && !e.Delete? && !e.WriteText? && !Ingests(m, e)
    ensures Apply(m, e, env).model.contacts == m.contacts
  {
    if e.EditProfile? {
      EditCore(m, e.profile, e.peers, env);
      EditLeavesContacts(m.(profile := e.profile), Live(m), e.peers, env.now);
    } else if e.Loaded? {
      LoadLeavesContacts(m, e.peer, e.found);
    } else if e.Switch? {
      SwitchCore(m, e.to, env);
    } else if !Answers(e) {
      TimerCore(m, e, env);
    } else if e.GotReceipt? && e.q.gen == m.flushGen {
      ReceiptLeavesContacts(m, e, env);
    } else {
      AnswerCore(m, e, env);
    }
  }

  lemma LoadLeavesContacts(m: Model, peer: Key, found: KvAnswer)
    ensures LoadedMessages(m, peer, found).model.contacts == m.contacts
  {
  }

  lemma ReceiptLeavesContacts(m: Model, e: Event, env: Env)
    requires Receipt(m, e)
    ensures Apply(m, e, env).model.contacts == m.contacts
  {
    if Fails(m, e) {
      FailCore(m, e, env);
    } else if Finishes(m, e) {
      FinishCore(m, e, env);
    } else {
      HeldBackLeavesContacts(m, e, env);
    }
  }

  lemma HeldBackLeavesContacts(m: Model, e: Event, env: Env)
    requires Receipt(m, e) && !Fails(m, e) && !Finishes(m, e)
    ensures SendResult(m, e.q.gen, e.receipt, env).model.contacts == m.contacts
  {
    if Halves(m, e) {
      SplitCore(m, e, env);
    } else if Waits(m, e) {
      PauseCore(m, e, env);
    } else if Charges(e.receipt, m.inFlight) {
      DetachedCore(m, e, env);
    } else {
      ReauthCore(m, e, env);
    }
  }

  lemma IngestMoves(w: World, e: Event, env: Env, k: Key)
    requires WInv(w) && Legal(w, e, env) && Ingests(w.m, e)
    ensures ContactsMove(w.m, e, Next(w, e, env).m, k)
  {
    LaterReady(w, env.now);
    PageReadies(w.m, e.page, env);
    IngestCore(w.m, e.q.gen, e.page, env);
  }

  /** In any run a contact is made only by adding a key, writing to it or a page, and lost only
      by deleting it; its flag changes only as the user asks, its watermarks only by a page. */
  lemma StepContacts(ws: seq<World>, acts: seq<Act>, i: nat, k: Key)
    requires Run(ws, acts) && i < |acts|
    ensures ContactsMove(ws[i].m, acts[i].event, ws[i + 1].m, k)
  {
    var w, e, env := ws[i], acts[i].event, acts[i].env;
    AlwaysInv(ws, acts, i);
    assert StepAt(ws, acts, i);
    if e.Add? {
      AddMoves(w.m, e, env, k);
    } else if e.Block? {
      BlockMoves(w.m, e, env, k);
    } else if e.Delete? {
      DeleteMoves(w.m, e, env, k);
    } else if e.WriteText? {
      WriteMoves(w.m, e, env, k);
    } else if Ingests(w.m, e) {
      IngestMoves(w, e, env, k);
    } else {
      OtherMoves(w.m, e, env);
    }
  }

  // ---- a page and one contact's profiles ----

  predicate IsProfileFrom(d: Decoded, k: Key) { d.sender == k && d.payload.Profile? }

  /** The watermark is at the latest date of the peer's profiles that was not older than it. */
  ghost predicate Latched(ds: seq<Decoded>, k: Key, now: int, mark: int, mark': int) {
    && mark <= mark' <= now
    && (forall d :: d in ds && IsProfileFrom(d, k) ==> AckDate(d.ts, now) <= mark')
    && (mark' != mark ==> exists d :: d in ds && IsProfileFrom(d, k) && AckDate(d.ts, now) == mark')
  }

  lemma AbsorbedProfile(m: Model, g: Gathered, d: Decoded, now: int, m': Model, g': Gathered, k: Key)
    requires Absorbed(m, g, d, now, m', g') && k in m.contacts && 0 <= now && m.contacts[k].lastProfileTs <= now
    ensures k in m'.contacts && (Heard(m', k) <==> Heard(m, k))
    ensures m'.contacts[k].lastProfileTs
      == if IsProfileFrom(d, k) && Heard(m, k) && AckDate(d.ts, now) >= m.contacts[k].lastProfileTs then AckDate(d.ts, now)
         else m.contacts[k].lastProfileTs
  {
    AbsorbedContacts(m, g, d, now, m', g', k);
    AckDateIs(d.ts, now);
    if d.payload.Text? && m' != m { GreetContacts(m, d.sender, ClampTs(d.ts, now), k); }
  }

  lemma LatchedNext(ds: seq<Decoded>, d: Decoded, k: Key, now: int, mark: int, mid: int, mark': int)
    requires Latched(ds, k, now, mark, mid) && 0 <= now
    requires mark' == if IsProfileFrom(d, k) && AckDate(d.ts, now) >= mid then AckDate(d.ts, now) else mid
    ensures Latched(ds + [d], k, now, mark, mark')
  {
    assert forall x :: x in ds + [d] <==> x in ds || x == d;
    if mark' != mid {
      assert d in ds + [d];
    } else if mark' != mark {
      var x :| x in ds && IsProfileFrom(x, k) && AckDate(x.ts, now) == mark';
      assert x in ds + [d];
    }
  }

  lemma LoopLatches(trail: Trail, ds: seq<Decoded>, now: int, n: nat, k: Key)
    requires Follows(trail, ds, now) && n <= |ds| && 0 <= now
    requires k in trail.models[0].contacts && trail.models[0].contacts[k].lastProfileTs <= now
    ensures var m0, m := trail.models[0], trail.models[n];
      && k in m.contacts && (Heard(m, k) <==> Heard(m0, k))
      && (if Heard(m0, k) then Latched(ds[..n], k, now, m0.contacts[k].lastProfileTs, m.contacts[k].lastProfileTs)
          else m.contacts[k].lastProfileTs == m0.contacts[k].lastProfileTs)
  {
    var m0 := trail.models[0];
    for i := 0 to n
      invariant var m := trail.models[i];
        && k in m.contacts && (Heard(m, k) <==> Heard(m0, k)) && m.contacts[k].lastProfileTs <= now
        && (if Heard(m0, k) then Latched(ds[..i], k, now, m0.contacts[k].lastProfileTs, m.contacts[k].lastProfileTs)
            else m.contacts[k].lastProfileTs == m0.contacts[k].lastProfileTs)
    {
      assert AbsorbedAt(trail, ds, now, i);
      AbsorbedProfile(trail.models[i], trail.gathered[i], ds[i], now, trail.models[i + 1], trail.gathered[i + 1], k);
      assert ds[..i + 1] == ds[..i] + [ds[i]];
      if Heard(m0, k) {
        LatchedNext(ds[..i], ds[i], k, now, m0.contacts[k].lastProfileTs, trail.models[i].contacts[k].lastProfileTs,
                    trail.models[i + 1].contacts[k].lastProfileTs);
      }
    }
  }

  lemma AppliedProfile(m: Model, acks: map<Key, PendingAck>, now: int, k: Key)
    requires k in m.contacts
    ensures k in ApplyAcks(m, acks, now).contacts && ApplyAcks(m, acks, now).contacts[k].lastProfileTs == m.contacts[k].lastProfileTs
  {
  }

  lemma PageLatches(m: Model, cursor: int, events: seq<PageEvent>, now: int, trail: Trail, m': Model, k: Key)
    requires Ingested(m, cursor, events, now, trail, m') && 0 <= now && k in m.contacts && m.contacts[k].lastProfileTs <= now
    ensures k in m'.contacts
    ensures if Heard(m, k) then Latched(AdmitPage(events).decoded, k, now, m.contacts[k].lastProfileTs, m'.contacts[k].lastProfileTs)
            else m'.contacts[k].lastProfileTs == m.contacts[k].lastProfileTs
  {
    var ds := AdmitPage(events).decoded;
    var n := |ds|;
    LoopLatches(trail, ds, now, n, k);
    assert ds[..n] == ds;
    assert Heard(trail.models[0], k) <==> Heard(m, k);
    var m1, g := trail.models[n], trail.gathered[n];
    AppliedProfile(m1, g.acks, now, k);
    OwedLeaves(ApplyAcks(m1, g.acks, now), g.targets, trail.senders, now);
  }

  /** The stretch deletes no contact `k`. */
  predicate Keeps(acts: seq<Act>, i: nat, j: nat, k: Key)
    requires i <= j <= |acts|
  {
    forall n :: i <= n < j ==> !Deletes(acts[n].event, k)
  }

  /** The page as the step folds it in. */
  lemma FoldedLatches(m: Model, e: Event, env: Env, k: Key)
    requires Ingests(m, e) && GoodAnswer(m, e.page, env) && 0 <= env.now && k in m.contacts && m.contacts[k].lastProfileTs <= env.now
    ensures k in e.page.ingested.contacts
    ensures var mark, mark' := m.contacts[k].lastProfileTs, e.page.ingested.contacts[k].lastProfileTs;
      if Heard(m, k) then Latched(AdmitPage(e.page.events).decoded, k, env.now, mark, mark') else mark' == mark
  {
    var m0 := m.(polling := false);
    PageLatches(m0, e.page.cursor, e.page.events, env.now, e.page.trail, e.page.ingested, k);
  }

  lemma StepLatches(ws: seq<World>, acts: seq<Act>, i: nat, k: Key)
    requires Run(ws, acts) && i < |acts| && k in ws[i].m.contacts && ws[i].m.contacts[k].lastProfileTs <= ws[i].clock && !Deletes(acts[i].event, k)
    ensures k in ws[i + 1].m.contacts && ws[i + 1].m.contacts[k].lastProfileTs <= ws[i + 1].clock
    ensures var mark, mark' := ws[i].m.contacts[k].lastProfileTs, ws[i + 1].m.contacts[k].lastProfileTs;
      if Ingests(ws[i].m, acts[i].event) && Heard(ws[i].m, k)
      then Latched(AdmitPage(acts[i].event.page.events).decoded, k, acts[i].env.now, mark, mark') else mark' == mark
  {
    var m, e, env := ws[i].m, acts[i].event, acts[i].env;
    StepContacts(ws, acts, i, k);
    StepIsLegal(ws, acts, i);
    if Ingests(m, e) { FoldedLatches(m, e, env, k); }
  }

  lemma StepIsLegal(ws: seq<World>, acts: seq<Act>, i: nat)
    requires Run(ws, acts) && i < |acts|
    ensures ws[i].clock <= acts[i].env.now == ws[i + 1].clock && 0 <= acts[i].env.now
    ensures Ingests(ws[i].m, acts[i].event) ==> GoodAnswer(ws[i].m, acts[i].event.page, acts[i].env)
  {
    AlwaysInv(ws, acts, i);
    assert StepAt(ws, acts, i);
  }

  /** In any run a contact's profile watermark only rises, to the date of a profile of theirs
      on a page, no later than the clock, and after a page none of theirs on it is later: an
      older profile cannot overwrite a newer one. */
  lemma ProfilesOnlyGetNewer(ws: seq<World>, acts: seq<Act>, i: nat, j: nat, k: Key)
    requires Run(ws, acts) && i <= j < |acts| && k in ws[i].m.contacts && ws[i].m.contacts[k].lastProfileTs <= ws[i].clock
    requires Keeps(acts, i, j + 1, k)
    ensures k in ws[j].m.contacts && k in ws[j + 1].m.contacts
    ensures var mark, mark' := ws[j].m.contacts[k].lastProfileTs, ws[j + 1].m.contacts[k].lastProfileTs;
      && ws[i].m.contacts[k].lastProfileTs <= mark <= ws[j].clock
      && if Ingests(ws[j].m, acts[j].event) && Heard(ws[j].m, k)
         then Latched(AdmitPage(acts[j].event.page.events).decoded, k, acts[j].env.now, mark, mark') else mark' == mark
  {
    for n := i to j
      invariant k in ws[n].m.contacts && ws[i].m.contacts[k].lastProfileTs <= ws[n].m.contacts[k].lastProfileTs <= ws[n].clock
    {
      StepLatches(ws, acts, n, k);
    }
    StepLatches(ws, acts, j, k);
  }

  // ---- who is blocked ----

  /** The user does not unblock, delete or reload the peer. */
  predicate StaysBlocked(acts: seq<Act>, i: nat, j: nat, k: Key)
    requires i <= j <= |acts|
  {
    forall n :: i <= n < j ==>
      var e := acts[n].event; !(e.Block? && e.peer == k && !e.blocked) && !Deletes(e, k) && !(e.Loaded? && e.peer == k)
  }

  lemma {:induction false} BlockedFilesNothing(trail: Trail, ds: seq<Decoded>, now: int, n: nat, k: Key)
    requires Follows(trail, ds, now) && n <= |ds| && k in trail.models[0].contacts && trail.models[0].contacts[k].blocked
    ensures FiledFrom(trail, ds, now, k, n) == []
    ensures k in trail.models[n].contacts && trail.models[n].contacts[k] == trail.models[0].contacts[k]
  {
    if n > 0 {
      BlockedFilesNothing(trail, ds, now, n - 1, k);
      assert AbsorbedAt(trail, ds, now, n - 1);
      BlockedEvent(trail.models[n - 1], trail.gathered[n - 1], ds[n - 1], now, trail.models[n], trail.gathered[n], k);
    }
  }

  lemma BlockedEvent(m: Model, g: Gathered, d: Decoded, now: int, m': Model, g': Gathered, k: Key)
    requires Absorbed(m, g, d, now, m', g') && k in m.contacts && m.contacts[k].blocked
    ensures FiledBy(m, d, now, k) == [] && k in m'.contacts && m'.contacts[k] == m.contacts[k]
  {
    if d.payload.Text? && m' != m { GreetContacts(m, d.sender, ClampTs(d.ts, now), k); }
  }

  lemma BlockedPage(m: Model, cursor: int, events: seq<PageEvent>, now: int, trail: Trail, m': Model, k: Key)
    requires Ready(m, now) && ReadablePage(events) && Ingested(m, cursor, events, now, trail, m') && k in m.contacts && m.contacts[k].blocked
    ensures k in m'.contacts && m'.contacts[k] == m.contacts[k] && Held(m', k) == Held(m, k)
  {
    var ds := AdmitPage(events).decoded;
    var n := |ds|;
    BlockedFilesNothing(trail, ds, now, n, k);
    LoopFiles(trail, ds, now, k, n);
    PageCollects(trail, ds, now, n, k);
    var m1, g := trail.models[n], trail.gathered[n];
    assert k !in g.acks;
    PageHolds(m, cursor, events, now, trail, m', k);
    UnappliedMark(m1, g.acks, now, k);
    OwedLeaves(ApplyAcks(m1, g.acks, now), g.targets, trail.senders, now);
    assert Held(trail.models[0], k) == Held(m, k);
  }

  lemma BlockedFolded(w: World, e: Event, env: Env, k: Key)
    requires WInv(w) && Legal(w, e, env) && Ingests(w.m, e) && k in w.m.contacts && w.m.contacts[k].blocked
    ensures k in e.page.ingested.contacts && e.page.ingested.contacts[k] == w.m.contacts[k] && Held(e.page.ingested, k) == Held(w.m, k)
  {
    var m := w.m.(polling := false);
    PageReady(w, m, env.now);
    BlockedPage(m, e.page.cursor, e.page.events, env.now, e.page.trail, e.page.ingested, k);
    assert Held(m, k) == Held(w.m, k);
  }

  lemma BlockedStep(ws: seq<World>, acts: seq<Act>, i: nat, k: Key)
    requires Run(ws, acts) && i < |acts| && StaysBlocked(acts, i, i + 1, k) && k in ws[i].m.contacts && ws[i].m.contacts[k].blocked
    ensures k in ws[i + 1].m.contacts && ws[i + 1].m.contacts[k] == ws[i].m.contacts[k] && Held(ws[i + 1].m, k) == Held(ws[i].m, k)
  {
    var w, e, env := ws[i], acts[i].event, acts[i].env;
    AlwaysInv(ws, acts, i);
    StepContacts(ws, acts, i, k);
    assert StepAt(ws, acts, i);
    if Ingests(w.m, e) {
      BlockedFolded(w, e, env, k);
      IngestCore(w.m, e.q.gen, e.page, env);
    } else {
      BlockedQuiet(w.m, e, env, k);
    }
  }

  lemma BlockedQuiet(m: Model, e: Event, env: Env, k: Key)
    requires !Ingests(m, e) && !Deletes(e, k) && !(e.Loaded? && e.peer == k) && k in m.contacts && m.contacts[k].blocked
    ensures Held(Apply(m, e, env).model, k) == Held(m, k)
  {
    if e.WriteText? {
      WriteFiles(m, e, env, k);
    } else if e.Loaded? {
      LoadElsewhere(m, e.peer, e.found, k);
    } else if ByUser(e) {
      UserFiles(m, e, env, k);
    } else {
      OtherBooks(m, e, env);
    }
  }

  /** In any run, from when a contact is blocked until the user lets them back, nothing a relay
      or the user sends in changes what is kept of them, nothing is queued for them, and no
      request that is sent carries anything to them. */
  lemma BlockedIsCutOff(ws: seq<World>, acts: seq<Act>, i: nat, j: nat, k: Key)
    requires Run(ws, acts) && i <= j <= |acts| && StaysBlocked(acts, i, j, k) && k in ws[i].m.contacts && ws[i].m.contacts[k].blocked
    ensures k in ws[j].m.contacts && ws[j].m.contacts[k] == ws[i].m.contacts[k] && Held(ws[j].m, k) == Held(ws[i].m, k)
    ensures forall x :: x in ws[j].m.outbox ==> x.recipient != k
    ensures forall q: Request, x :: i < j && q in ws[j].sent && q !in ws[j - 1].sent && q.SendReq? && x in q.carried ==> x.recipient != k
  {
    for n := i to j
      invariant k in ws[n].m.contacts && ws[n].m.contacts[k] == ws[i].m.contacts[k] && Held(ws[n].m, k) == Held(ws[i].m, k)
    {
      assert StaysBlocked(acts, n, n + 1, k);
      BlockedStep(ws, acts, n, k);
    }
    AlwaysInv(ws, acts, j);
    NothingFor(ws[j].m, k);
    forall q: Request, x | i < j && q in ws[j].sent && q !in ws[j - 1].sent && q.SendReq? && x in q.carried ensures x.recipient != k {
      SendsAreInOrder(ws, acts, j - 1, q);
    }
  }

  lemma NothingFor(m: Model, k: Key)
    requires OutInv(m) && k in m.contacts && m.contacts[k].blocked
    ensures forall x :: x in m.outbox ==> x.recipient != k
  {
    forall x | x in m.outbox ensures x.recipient != k { assert GoodItem(m.contacts, m.pushed, x); }
  }
}

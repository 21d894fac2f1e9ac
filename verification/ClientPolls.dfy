/** Where polls start from, and which pages move them on. */
module ClientPolls {
  import opened Conversations
  import opened ClientModel
  import opened ClientPages
  import opened ClientWorld
  import opened ClientSteps
  import opened ClientProgress
  import opened ClientRuns
  import P = Payloads

  // ---- every poll asks from the cursor of the model that sends it ----

  ghost predicate PollsFrom(fx: seq<Effect>, cursor: int) {
    forall q: Request :: Ask(q) in fx && q.PollReq? ==> q.cursor == cursor
  }

  /** Generations do not fall, and the polls sent are from the cursor. */
  ghost predicate Polls(m: Model, o: Out) {
    m.pollGen <= o.model.pollGen && PollsFrom(o.effects, o.model.cursor)
  }

  lemma PollsJoin(m: Model, o: Out, n: Out)
    requires Polls(m, o) && Polls(o.model, n) && n.model.cursor == o.model.cursor
    ensures Polls(m, Join(o, n))
  {
  }

  lemma PollsSaving(m: Model, m': Model, keys: seq<string>)
    requires m.pollGen <= m'.pollGen
    ensures Polls(m, Out(m', Saving(m', keys))) && Polls(m, Quiet(m'))
  {
  }

  lemma PollsAuth(m: Model, env: Env)
    ensures Polls(m, Authenticate(m, env)) && Authenticate(m, env).model.cursor == m.cursor
  {
  }

  lemma PollsPoll(m: Model, env: Env)
    ensures Polls(m, StartPoll(m, env)) && StartPoll(m, env).model.cursor == m.cursor
  {
    if !m.polling && m.token.None? { PollsAuth(m, env); }
  }

  lemma PollsFlush(m: Model, env: Env)
    ensures Polls(m, FlushNext(m, env)) && FlushNext(m, env).model.cursor == m.cursor
  {
  }

  lemma PollsSaveFlush(m: Model, m1: Model, keys: seq<string>, env: Env)
    requires m.pollGen <= m1.pollGen
    ensures var o := Join(Out(m1, Saving(m1, keys)), FlushNext(m1, env)); Polls(m, o) && o.model.cursor == m1.cursor
  {
    PollsSaving(m, m1, keys);
    PollsFlush(m1, env);
    PollsJoin(m, Out(m1, Saving(m1, keys)), FlushNext(m1, env));
  }

  lemma PollsReconnect(m: Model, env: Env)
    ensures Polls(m, Reconnect(m, env)) && Reconnect(m, env).model.cursor == m.cursor
  {
    PollsAuth(m, env);
    PollsPoll(m, env);
  }

  lemma PollsSwitch(m: Model, url: Option<Url>, env: Env)
    ensures Polls(m, SetServerUrl(m, url, env))
    ensures url.Some? ==> m.pollGen < SetServerUrl(m, url, env).model.pollGen
  {
    if url.Some? {
      var m1 := Switched(m, url.value);
      PollsReconnect(AbandonAuth(m1), env);
      PollsSaving(m, m1, ["settings", "cursor"]);
      PollsJoin(m, Out(m1, Saving(m1, ["settings", "cursor"])), Connect(m1, env));
    }
  }

  lemma PollsToken(m: Model, gen: nat, token: Option<Token>, env: Env)
    ensures Polls(m, VerifyResult(m, gen, token, env))
  {
    if gen == m.authGen && token.Some? && token.value != "" {
      var m1 := m.(authenticating := false, token := token, conn := Online);
      PollsPoll(m1, env);
      PollsFlush(StartPoll(m1, env).model, env);
      PollsJoin(m, StartPoll(m1, env), FlushNext(StartPoll(m1, env).model, env));
    }
  }

  lemma PollsAfterPage(m: Model, m1: Model, prev: int, keys: seq<string>, env: Env)
    requires m.pollGen <= m1.pollGen
    ensures Polls(m, AfterPage(m1, prev, keys, env))
  {
    PollsSaveFlush(m, m1, keys, env);
    var flushed := Join(Out(m1, Saving(m1, keys)), FlushNext(m1, env));
    if m1.cursor != prev {
      var next := Out(flushed.model, Saving(m1, ["cursor"]));
      assert Polls(flushed.model, next);
      PollsJoin(m, flushed, next);
    } else {
      PollsPoll(flushed.model, env);
      PollsJoin(m, flushed, StartPoll(flushed.model, env));
    }
  }

  lemma PollsPage(m: Model, gen: nat, a: PollAnswer, env: Env)
    requires gen == m.pollGen && Folds(m, a) ==> a.ingested.pollGen == m.pollGen
    ensures Polls(m, PollResult(m, gen, a, env))
  {
    if gen == m.pollGen && Folds(m, a) {
      PollsAfterPage(m, a.ingested, m.cursor, a.trail.keys, env);
    } else if gen == m.pollGen && a.PollStatus? && a.code == 401 {
      PollsAuth(m.(polling := false, token := None), env);
    }
  }

  lemma PollsSettle(m: Model, batch: Option<InFlight>, a: SendAnswer, env: Env)
    ensures Polls(m, Settle(m, batch, a, env))
  {
    if Charges(a, batch) {
      PollsRetry(m, batch, env);
    } else if Accepted(a.code) {
      PollsAccepted(m, batch, a, env);
    } else {
      PollsHeldBack(m, batch, a, env);
    }
  }

  lemma PollsHeldBack(m: Model, batch: Option<InFlight>, a: SendAnswer, env: Env)
    requires !Charges(a, batch) && !Accepted(a.code)
    ensures Polls(m, Settle(m, batch, a, env))
  {
    if a.code == 401 {
      PollsAuth(m.(token := None), env);
    } else if a.code != 429 {
      PollsFlush(m.(budget := Some(batch.value.bytes / 2)), env);
    }
  }

  lemma PollsAccepted(m: Model, batch: Option<InFlight>, a: SendAnswer, env: Env)
    requires a.SendStatus? && Accepted(a.code)
    ensures Polls(m, Settle(m, batch, a, env))
  {
    var m1 := m.(sendRetries := 0, outbox := if m.kvFailed then m.outbox else m.outbox[Head(m, batch)..]);
    PollsSaveFlush(m, m1, ["outbox"], env);
  }

  lemma PollsRetry(m: Model, batch: Option<InFlight>, env: Env)
    ensures Polls(m, RetryBatch(m, batch, env))
  {
    if batch.Some? {
      var n := Head(m, batch);
      var m1 := m.(outbox := Charge(m.outbox[..n], env.now) + m.outbox[n..]);
      PollsSaving(m, m1, ["outbox"]);
      PollsSaveFlush(m, m1, ["outbox"], env);
    }
  }

  lemma PollsEdit(m: Model, profile: P.Payload, peers: seq<Key>, env: Env)
    ensures Polls(m, SaveProfile(m, profile, peers, env))
  {
    if profile.Profile? && P.Acceptable(profile) {
      var m1 := SupersedeAll(m.(profile := profile), Live(m), peers, env.now);
      EditedPolls(m.(profile := profile), Live(m), peers, env.now);
      PollsSaveFlush(m, m1, ["profile", "outbox"], env);
    }
  }

  lemma {:induction false} EditedPolls(m: Model, live: nat, peers: seq<Key>, ts: int)
    ensures SupersedeAll(m, live, peers, ts).pollGen == m.pollGen
  {
    if peers != [] { EditedPolls(m, live, peers[..|peers| - 1], ts); }
  }

  lemma PollsWrite(m: Model, chat: Option<Key>, body: string, id: Id, env: Env)
    ensures Polls(m, SendText(m, chat, body, id, env))
  {
    if !Refused(m, chat, body) {
      PollsSaveFlush(m, Written(m, chat.value, body, id, env.now), [MessagesKey(chat.value), "contacts", "outbox"], env);
    }
  }

  lemma PollsAdd(m: Model, who: Option<Key>)
    ensures Polls(m, AddContact(m, who))
  {
  }

  lemma PollsBlock(m: Model, peer: Key, blocked: bool)
    ensures Polls(m, SetBlocked(m, peer, blocked))
  {
    if blocked {
      PollsSaving(m, SetBlocked(m, peer, true).model, ["contacts", "outbox"]);
    } else {
      PollsSaving(m, SetBlocked(m, peer, false).model, ["contacts"]);
    }
  }

  lemma PollsDelete(m: Model, peer: Key)
    ensures Polls(m, DeleteContact(m, peer))
  {
    PollsErasure(m, DeleteContact(m, peer).model, ["contacts"], MessagesKey(peer), ["outbox", "seen_ids"]);
  }

  lemma PollsErasure(m: Model, m': Model, before: seq<string>, key: string, after: seq<string>)
    requires m.pollGen <= m'.pollGen
    ensures Polls(m, Out(m', Saving(m', before) + [Erase(key)] + Saving(m', after)))
  {
  }

  lemma PollsUser(m: Model, e: Event, env: Env)
    requires ByUser(e) || e.Loaded?
    ensures Polls(m, Apply(m, e, env))
  {
    match e
    case Add(who) => PollsAdd(m, who);
    case Block(peer, blocked) => PollsBlock(m, peer, blocked);
    case Delete(peer) => PollsDelete(m, peer);
    case EditProfile(profile, peers) => PollsEdit(m, profile, peers, env);
    case WriteText(chat, body, id) => PollsWrite(m, chat, body, id, env);
    case Loaded(_, _) =>
  }

  lemma PollsTimer(m: Model, e: Event, env: Env)
    requires !ByUser(e) && !e.Loaded? && !Answers(e)
    ensures Polls(m, Apply(m, e, env)) && (Moves(e) ==> m.pollGen < Apply(m, e, env).model.pollGen)
  {
    match e
    case Switch(url) => PollsSwitch(m, url, env);
    case Foreground => PollsReconnect(AbandonAuth(m), env);
    case AuthTimer => PollsAuth(m, env);
    case PollTimer => PollsPoll(m, env);
    case FlushTimer => PollsFlush(m, env);
    case AuthWatch(_) => PollsAuth(AbandonAuth(m), env);
    case PollWatch(_) => PollsPoll(AbandonPoll(m), env);
    case FlushWatch(_) => PollsFlush(AbandonFlush(m), env);
    case CursorSaved(_) => PollsPoll(m, env);
  }

  lemma PollsAnswer(m: Model, e: Event, env: Env)
    requires Answers(e) && (Ingests(m, e) ==> e.page.ingested.pollGen == m.pollGen)
    ensures Polls(m, Apply(m, e, env))
  {
    match e
    case GotChallenge(_, _) =>
    case GotToken(q, token) => PollsToken(m, q.gen, token, env);
    case GotPage(q, a) => PollsPage(m, q.gen, a, env);
    case GotReceipt(q, a) => PollsSettle(m.(flushing := false, inFlight := None), m.inFlight, a, env);
  }

  lemma PollsStep(w: World, e: Event, env: Env)
    requires WInv(w) && Legal(w, e, env)
    ensures Polls(w.m, Apply(w.m, e, env)) && (Moves(e) ==> w.m.pollGen < Apply(w.m, e, env).model.pollGen)
  {
    if ByUser(e) || e.Loaded? {
      PollsUser(w.m, e, env);
    } else if Answers(e) {
      if Ingests(w.m, e) {
        LaterReady(w, env.now);
        PageReadies(w.m, e.page, env);
      }
      PollsAnswer(w.m, e, env);
    } else {
      PollsTimer(w.m, e, env);
    }
  }

  /** The poll whose answer will be acted on is from the cursor as it is. */
  ghost predicate AsksHere(w: World) {
    forall q :: q in w.net && q.PollReq? && Current(w.m, q) ==> q.cursor == w.m.cursor
  }

  /** A page is folded in only as the answer of the one current poll. */
  lemma NoOtherPoll(w: World, e: Event, env: Env, q: Request)
    requires NetInv(w) && Legal(w, e, env) && q in w.net && q.PollReq? && Current(w.m, q)
    requires !(Answers(e) && e.q == q)
    ensures !Ingests(w.m, e)
  {
  }

  lemma OldPoll(w: World, e: Event, env: Env, q: Request)
    requires WInv(w) && Legal(w, e, env) && AsksHere(w)
    requires q in w.net && q.PollReq? && !(Answers(e) && e.q == q) && Current(Apply(w.m, e, env).model, q)
    ensures q.cursor == Apply(w.m, e, env).model.cursor
  {
    PollsStep(w, e, env);
    assert q.gen <= Gen(w.m, LoopOf(q));
    NoOtherPoll(w, e, env, q);
    OnlyPagesMark(w.m, e, env);
  }

  lemma AsksHereStep(w: World, e: Event, env: Env)
    requires WInv(w) && Legal(w, e, env) && AsksHere(w)
    ensures AsksHere(Next(w, e, env))
  {
    var w', o := Next(w, e, env), Apply(w.m, e, env);
    PollsStep(w, e, env);
    forall q | q in w'.net && q.PollReq? && Current(w'.m, q) ensures q.cursor == w'.m.cursor {
      if q in Requests(o.effects) {
        assert Ask(q) in o.effects;
      } else {
        OldPoll(w, e, env, q);
      }
    }
  }

  /** In every state of every run the one poll whose answer counts asks from the cursor the
      client is at. */
  lemma PollsAskFromCursor(ws: seq<World>, acts: seq<Act>, i: nat)
    requires Run(ws, acts) && i < |ws|
    ensures AsksHere(ws[i])
  {
    for n := 0 to i
      invariant AsksHere(ws[n])
    {
      StepIs(ws, acts, n);
      AsksHereStep(ws[n], acts[n].event, acts[n].env);
    }
  }

  // ---- which pages move the cursor ----

  lemma StepWithoutPage(ws: seq<World>, acts: seq<Act>, i: nat)
    requires Run(ws, acts) && i < |acts| && !Ingests(ws[i].m, acts[i].event) && Stays(acts, i, i + 1)
    ensures ws[i + 1].m.cursor == ws[i].m.cursor
  {
    assert StepAt(ws, acts, i);
    OnlyPagesMark(ws[i].m, acts[i].event, acts[i].env);
  }

  /** A current page that is not folded in leaves all but the poll and the connection as it
      was, and asks for nothing. */
  lemma RefusedLeavesAll(m: Model, q: Request, a: PollAnswer, env: Env)
    requires q.PollReq? && Current(m, q) && a.Page? && !Folds(m, a)
    ensures PollResult(m, q.gen, a, env) == Quiet(m.(polling := false, conn := if m.kvFailed then m.conn else Offline))
  {
  }

  /** A page whose body is accepted and that no limit cuts short moves the cursor. */
  lemma FoldedAdvances(w: World, e: Event, env: Env)
    requires WInv(w) && Legal(w, e, env) && Ingests(w.m, e)
    requires 0 < |e.page.events| <= MAX_POLL_EVENTS && Min(e.page.cursor, env.now + 60000) > w.m.cursor
    ensures Next(w, e, env).m.cursor == Min(e.page.cursor, env.now + 60000)
  {
    LaterReady(w, env.now);
    PageReadies(w.m, e.page, env);
    IngestCore(w.m, e.q.gen, e.page, env);
    WholeMoves(w.m.cursor, e.page.cursor, e.page.events, env.now);
  }

  lemma WholeMoves(cursor: int, pageCursor: int, events: seq<PageEvent>, now: int)
    requires Receivable(events) && 0 < |events| <= MAX_POLL_EVENTS && Min(pageCursor, now + 60000) > cursor
    ensures NextCursor(cursor, pageCursor, events, now) == Min(pageCursor, now + 60000)
  {
    HexBounds(events);
    AdmitAll(events);
  }

  lemma RefusedStays(w: World, e: Event, env: Env)
    requires Legal(w, e, env) && e.GotPage? && e.page.Page? && Current(w.m, e.q) && !Folds(w.m, e.page)
    ensures Next(w, e, env).m == w.m.(polling := false, conn := if w.m.kvFailed then w.m.conn else Offline)
    ensures Next(w, e, env).sent == w.sent
  {
    RefusedLeavesAll(w.m, e.q, e.page, env);
    RequestsOf([], [], e.q, w.m, []);
  }

  /** A page of up to 2000 events with a cursor that is new. */
  predicate NewPage(m: Model, e: Event, now: int) {
    && e.GotPage? && e.page.Page? && Current(m, e.q) && !m.kvFailed
    && 0 < |e.page.events| <= 2000 && e.page.cursor > m.cursor && now + 60000 > m.cursor
  }

  lemma NewPageMoves(w: World, e: Event, env: Env)
    requires WInv(w) && Legal(w, e, env) && NewPage(w.m, e, env.now)
    ensures var w', fits := Next(w, e, env), e.page.length <= 67108864;
      && (w.m.cursor < w'.m.cursor <==> fits)
      && (fits ==> w'.m.cursor == if e.page.cursor < env.now + 60000 then e.page.cursor else env.now + 60000)
      && (!fits ==> w'.m == w.m.(polling := false, conn := Offline) && w'.sent == w.sent)
  {
    if e.page.length <= MAX_POLL_RESPONSE_BYTES { FoldedAdvances(w, e, env); } else { RefusedStays(w, e, env); }
  }

  /** In any run such a page moves the client on, to its cursor or a minute past the clock,
      if and only if its body is at most 64 MiB;
      refused, it leaves the client where it was and nothing is sent. */
  lemma PageAdvancesExactly(ws: seq<World>, acts: seq<Act>, i: nat)
    requires Run(ws, acts) && i < |acts| && NewPage(ws[i].m, acts[i].event, acts[i].env.now)
    ensures var fits, top := acts[i].event.page.length <= 67108864, acts[i].env.now + 60000;
      && (ws[i].m.cursor < ws[i + 1].m.cursor <==> fits)
      && (fits ==> ws[i + 1].m.cursor == if acts[i].event.page.cursor < top then acts[i].event.page.cursor else top)
      && (!fits ==> ws[i + 1].m == ws[i].m.(polling := false, conn := Offline) && ws[i + 1].sent == ws[i].sent)
  {
    AlwaysInv(ws, acts, i);
    assert StepAt(ws, acts, i);
    NewPageMoves(ws[i], acts[i].event, acts[i].env);
  }
}

/**
 One step of the client's world: the user acts, a timer fires, a stored conversation
 arrives, or any outstanding request is answered — in any order, or never.
 */
module ClientSteps {
  import opened Conversations
  import opened ClientModel
  import opened ClientOutbox
  import opened ClientWorld
  import opened ClientIngest
  import P = Payloads

  datatype Event =
    | Switch(to: Option<Url>)
    | Foreground
    | Add(who: Option<Key>)
    | Block(peer: Key, blocked: bool)
    | Delete(peer: Key)
    | EditProfile(profile: P.Payload, peers: seq<Key>)
    | WriteText(chat: Option<Key>, body: string, id: Id)
    | AuthTimer
    | PollTimer
    | FlushTimer
    | AuthWatch(gen: nat)
    | PollWatch(gen: nat)
    | FlushWatch(gen: nat)
    | CursorSaved(ok: bool)
    | Loaded(peer: Key, found: KvAnswer)
    | GotChallenge(q: Request, challenge: ChallengeAnswer)
    | GotToken(q: Request, token: Option<Token>)
    | GotPage(q: Request, page: PollAnswer)
    | GotReceipt(q: Request, receipt: SendAnswer)

  function Apply(m: Model, e: Event, env: Env): Out {
    match e
    case Switch(url) => SetServerUrl(m, url, env)
    case Foreground => Connect(m, env)
    case Add(who) => AddContact(m, who)
    case Block(peer, blocked) => SetBlocked(m, peer, blocked)
    case Delete(peer) => DeleteContact(m, peer)
    case EditProfile(profile, peers) => SaveProfile(m, profile, peers, env)
    case WriteText(chat, body, id) => SendText(m, chat, body, id, env)
    case AuthTimer => Authenticate(m, env)
    case PollTimer => StartPoll(m, env)
    case FlushTimer => FlushNext(m, env)
    case AuthWatch(gen) => AuthWatchdog(m, gen, env)
    case PollWatch(gen) => PollWatchdog(m, gen, env)
    case FlushWatch(gen) => FlushWatchdog(m, gen, env)
    case CursorSaved(ok) => SavedCursor(m, ok, env)
    case Loaded(peer, found) => LoadedMessages(m, peer, found)
    case GotChallenge(q, a) => ChallengeResult(m, q.gen, a, env)
    case GotToken(q, token) => VerifyResult(m, q.gen, token, env)
    case GotPage(q, a) => PollResult(m, q.gen, a, env)
    case GotReceipt(q, a) => SendResult(m, q.gen, a, env)
  }

  predicate Answers(e: Event) { e.GotChallenge? || e.GotToken? || e.GotPage? || e.GotReceipt? }

  /** The tokens an answer hands out, and the cursor of a page with events that is taken. */
  function Issues(e: Event): set<(Url, Token)> {
    if e.GotToken? && e.token.Some? then {(e.q.url, e.token.value)} else {}
  }

  /** The answer is a page the client folds in. */
  predicate Ingests(m: Model, e: Event) {
    e.GotPage? && e.q.gen == m.pollGen && Folds(m, e.page)
  }

  function Takes(m: Model, e: Event): set<(Url, int)> {
    if Ingests(m, e) && e.page.events != [] then {(e.q.url, e.page.cursor)} else {}
  }

  /** Time does not run back; encryption refuses only what it must; an answer is to an
      outstanding request of its kind; ids we make fit the cap; what the store returns is
      what this client stores. */
  ghost predicate Legal(w: World, e: Event, env: Env) {
    && w.clock <= env.now && P.IsI64(env.now + MAX_FUTURE_SKEW_MS) && Encrypts(env)
    && (Answers(e) ==> e.q in w.net)
    && match e
       case EditProfile(_, peers) => Audience(w.m, peers)
       case WriteText(_, _, id) => P.ByteLen(id) <= P.MAX_ID_LEN
       case Loaded(_, found) => found.KvFound? ==> Storable(found.list)
       case GotChallenge(q, _) => q.ChallengeReq?
       case GotToken(q, _) => q.VerifyReq?
       case GotPage(q, a) =>
         && q.PollReq? && (a.Page? ==> ReadablePage(a.events))
         && (Current(w.m, q) ==> GoodAnswer(w.m, a, env))
       case GotReceipt(q, _) => q.SendReq?
       case _ => true
  }

  function Deliver(w: World, e: Event, now: int): World {
    w.(net := w.net - (if Answers(e) then {e.q} else {}),
       issued := w.issued + Issues(e), taken := w.taken + Takes(w.m, e), clock := now)
  }

  function Next(w: World, e: Event, env: Env): World {
    Advance(Deliver(w, e, env.now), Apply(w.m, e, env))
  }

  // ---- the net ----

  /** Relays hand out more, and the client adopts a token or a cursor of its relay. */
  predicate Adopts(w: World, w': World) {
    && w' == w.(m := w.m.(token := w'.m.token, conn := w'.m.conn, cursor := w'.m.cursor),
                issued := w'.issued, taken := w'.taken, clock := w'.clock)
    && w.issued <= w'.issued && w.taken <= w'.taken
  }

  lemma AdoptsBound(w: World, w': World)
    requires Bound(w) && Adopts(w, w') && CursorOk(w'.taken, w'.m.url, w'.m.cursor)
    requires w'.m.token.Some? ==> (w'.m.url, w'.m.token.value) in w'.issued
    ensures Bound(w')
  {
    assert forall q :: Current(w'.m, q) == Current(w.m, q);
    forall q | q in w.net && q.PollReq? ensures CursorOk(w'.taken, q.url, q.cursor) {
      if q.cursor > 0 { var d :| (q.url, d) in w.taken && q.cursor <= d; assert (q.url, d) in w'.taken; }
    }
  }

  lemma AdoptsKeeps(w: World, w': World)
    requires NetInv(w) && Adopts(w, w') && CursorOk(w'.taken, w'.m.url, w'.m.cursor)
    requires w'.m.token.Some? ==> (w'.m.url, w'.m.token.value) in w'.issued
    ensures NetInv(w')
  {
    AdoptsBound(w, w');
    assert forall l :: Gen(w'.m, l) == Gen(w.m, l) && Guard(w'.m, l) == Guard(w.m, l);
    forall l ensures Guard(w'.m, l) <==> Unresolved(w', l) { assert Guard(w.m, l) <==> Unresolved(w, l); }
    if w.m.inFlight.Some? {
      var r :| r in w.net && r.SendReq? && r.gen == w.m.flushGen && Carries(w.m, r);
      assert Carries(w'.m, r);
    } else {
      forall q | q in w'.net && q.SendReq? && q.gen == w'.m.flushGen ensures Forgotten(w'.m, q) { assert Forgotten(w.m, q); }
    }
  }

  lemma CursorStays(taken: set<(Url, int)>, wider: set<(Url, int)>, url: Url, cursor: int)
    requires CursorOk(taken, url, cursor) && taken <= wider
    ensures CursorOk(wider, url, cursor)
  {
    if cursor > 0 { var d :| (url, d) in taken && cursor <= d; assert (url, d) in wider; }
  }

  /** The model as an answer finds it once its own guard is down. */
  function Settled(m: Model, e: Event): Model {
    if Answers(e) && Current(m, e.q) then Down(m, LoopOf(e.q)) else m
  }

  lemma DeliverAdopts(w: World, e: Event, now: int, w1: World)
    requires w1 == w.(net := w1.net, m := w1.m) && NetInv(w1)
    requires w1.net == w.net - (if Answers(e) then {e.q} else {})
    ensures NetInv(Deliver(w, e, now).(m := w1.m))
  {
    CursorStays(w.taken, w.taken + Takes(w.m, e), w1.m.url, w1.m.cursor);
    AdoptsKeeps(w1, Deliver(w, e, now).(m := w1.m));
  }

  lemma DeliverKeeps(w: World, e: Event, now: int)
    requires NetInv(w) && (Answers(e) ==> e.q in w.net)
    ensures NetInv(Deliver(w, e, now).(m := Settled(w.m, e)))
  {
    if Answers(e) {
      ResolveKeeps(w, e.q);
      DeliverAdopts(w, e, now, w.(net := w.net - {e.q}, m := Settled(w.m, e)));
    } else {
      assert w.net - {} == w.net;
      DeliverAdopts(w, e, now, w);
    }
  }

  lemma QueueSameKeeps(w: World, m': Model)
    requires NetInv(w) && NetSame(w.m, m') && QueueSame(w.m, m')
    ensures NetInv(w.(m := m'))
  {
    if m'.inFlight.Some? { FlightFits(w); }
    NetSameKeeps(w, m');
  }

  lemma FlightFits(w: World)
    requires NetInv(w) && w.m.inFlight.Some?
    ensures w.m.inFlight.value.count <= |w.m.outbox|
  {
    var r :| r in w.net && r.SendReq? && r.gen == w.m.flushGen && Carries(w.m, r);
  }

  /** With every request given up on, the client may move to another relay. */
  lemma SwitchedKeeps(w: World, url: Url)
    requires NetInv(w)
    ensures NetInv(w.(m := AbandonAuth(Switched(w.m, url))))
  {
    var m' := AbandonAuth(Switched(w.m, url));
    var w' := w.(m := m');
    assert forall l :: Gen(m', l) == Gen(w.m, l) + 1 && !Guard(m', l);
    forall q | q in w.sent ensures q.gen < Gen(m', LoopOf(q)) { assert q.gen <= Gen(w.m, LoopOf(q)); }
    forall l ensures !Unresolved(w', l) { }
  }

  lemma SwitchSound(w: World, url: Option<Url>, env: Env)
    requires NetInv(w)
    ensures Sound(w, SetServerUrl(w.m, url, env))
  {
    if url.None? {
      SoundSaving(w, w.m, []);
    } else {
      var m1 := Switched(w.m, url.value);
      var w1 := w.(m := AbandonAuth(m1));
      SwitchedKeeps(w, url.value);
      ReconnectKeeps(w1, env);
      var saved := Saving(m1, ["settings", "cursor"]);
      RequestsOf(saved, Connect(m1, env).effects, ChallengeReq(0, ""), m1, ["settings", "cursor"]);
      assert Advance(w, SetServerUrl(w.m, url, env)) == Advance(w1, Reconnect(w1.m, env));
    }
  }

  lemma PollThenFlush(w: World, env: Env)
    requires NetInv(w)
    ensures Sound(w, Join(StartPoll(w.m, env), FlushNext(StartPoll(w.m, env).model, env)))
  {
    StartPollKeeps(w, env);
    var polled := StartPoll(w.m, env);
    FlushNextKeeps(Advance(w, polled), env);
    SoundJoin(w, polled, FlushNext(polled.model, env));
  }

  lemma TokenInstalls(w: World, gen: nat, token: Option<Token>, env: Env)
    requires NetInv(w) && gen == w.m.authGen && !w.m.authenticating && token.Some? && token.value != ""
    requires (w.m.url, token.value) in w.issued
    ensures Sound(w, VerifyResult(w.m, gen, token, env))
  {
    var w1 := w.(m := w.m.(token := token, conn := Online));
    AdoptsKeeps(w, w1);
    PollThenFlush(w1, env);
    assert w.m.(authenticating := false, token := token, conn := Online) == w1.m;
    SameWorld(w, w1, VerifyResult(w.m, gen, token, env));
  }

  lemma TokenSound(w: World, gen: nat, token: Option<Token>, env: Env)
    requires NetInv(w) && gen == w.m.authGen && !w.m.authenticating
    requires token.Some? ==> (w.m.url, token.value) in w.issued
    ensures Sound(w, VerifyResult(w.m, gen, token, env))
  {
    if token.None? || token.value == "" {
      QueueSameKeeps(w, w.m.(conn := Offline));
      SoundSaving(w, w.m.(conn := Offline), []);
    } else {
      TokenInstalls(w, gen, token, env);
    }
  }

  lemma SameWorld(w: World, w1: World, o: Out)
    requires w1 == w.(m := w1.m) && Sound(w1, o)
    ensures Sound(w, o)
  {
    assert Advance(w, o) == Advance(w1, o);
  }

  lemma ChallengeSound(w: World, gen: nat, a: ChallengeAnswer, env: Env)
    requires NetInv(w) && gen == w.m.authGen && !w.m.authenticating
    requires forall v :: v in w.sent && v.VerifyReq? ==> v.gen != gen
    ensures Sound(w, ChallengeResult(w.m, gen, a, env))
  {
    var o := ChallengeResult(w.m, gen, a, env);
    if o.effects == [] {
      QueueSameKeeps(w, o.model);
      SoundSaving(w, o.model, []);
    } else {
      var q := VerifyReq(gen, w.m.url);
      RequestsOf([], [], q, w.m, []);
      OpenKeeps(w, o.model, q);
      assert Advance(w, o) == w.(m := o.model, net := w.net + {q}, sent := w.sent + {q});
    }
  }

  lemma NextCursorOk(taken: set<(Url, int)>, url: Url, cursor: int, pageCursor: int, events: seq<PageEvent>, now: int)
    requires CursorOk(taken, url, cursor) && (events != [] ==> (url, pageCursor) in taken)
    ensures CursorOk(taken, url, NextCursor(cursor, pageCursor, events, now))
    ensures cursor <= NextCursor(cursor, pageCursor, events, now)
  {
  }

  /** A model that only grew, with a cursor this relay returned. */
  lemma GrownKeeps(w: World, cursor: int, m': Model)
    requires NetInv(w) && Grown(w.m.(cursor := cursor), m') && CursorOk(w.taken, w.m.url, cursor)
    ensures NetInv(w.(m := m'))
  {
    var m1 := m'.(cursor := w.m.cursor);
    if m1.inFlight.Some? {
      FlightFits(w);
      var n := m1.inFlight.value.count;
      assert m1.outbox[..n] == w.m.outbox[..n];
    } else {
      forall id: nat | id < w.m.pushed && HasId(m1.outbox, id) ensures HasId(w.m.outbox, id) {
        var x :| x in m1.outbox && x.id == id;
        var i :| 0 <= i < |m1.outbox| && m1.outbox[i] == x;
        assert i < |w.m.outbox| && w.m.outbox[i] == x;
      }
    }
    NetSameKeeps(w, m1);
    AdoptsKeeps(w.(m := m1), w.(m := m'));
  }

  lemma ReauthSound(w: World, env: Env)
    requires NetInv(w)
    ensures Sound(w, Authenticate(w.m.(token := None), env))
  {
    var m1 := w.m.(token := None);
    QueueSameKeeps(w, m1);
    AuthenticateKeeps(w.(m := m1), env);
    SameWorld(w, w.(m := m1), Authenticate(m1, env));
  }

  lemma PageSound(w: World, gen: nat, a: PollAnswer, env: Env)
    requires NetInv(w) && gen == w.m.pollGen && !w.m.polling && Ready(w.m, env.now)
    requires GoodAnswer(w.m, a, env) && (a.Page? ==> ReadablePage(a.events))
    requires Folds(w.m, a) && a.events != [] ==> (w.m.url, a.cursor) in w.taken
    ensures Sound(w, PollResult(w.m, gen, a, env))
  {
    if Folds(w.m, a) { IngestedSound(w, a, env); } else { NoPageSound(w, gen, a, env); }
  }

  lemma NoPageSound(w: World, gen: nat, a: PollAnswer, env: Env)
    requires NetInv(w) && gen == w.m.pollGen && !w.m.polling && !Folds(w.m, a)
    ensures Sound(w, PollResult(w.m, gen, a, env))
  {
    var o := PollResult(w.m, gen, a, env);
    if a.PollStatus? && a.code == 401 {
      ReauthSound(w, env);
    } else {
      QueueSameKeeps(w, o.model);
      SoundSaving(w, o.model, []);
    }
  }

  lemma IngestedNet(w: World, a: PollAnswer, now: int)
    requires NetInv(w) && Ready(w.m, now) && a.Page? && ReadablePage(a.events)
    requires Ingested(w.m, a.cursor, a.events, now, a.trail, a.ingested)
    requires a.events != [] ==> (w.m.url, a.cursor) in w.taken
    ensures NetInv(w.(m := a.ingested))
  {
    IngestedKeeps(w.m, a.cursor, a.events, now, a.trail, a.ingested);
    NextCursorOk(w.taken, w.m.url, w.m.cursor, a.cursor, a.events, now);
    GrownKeeps(w, NextCursor(w.m.cursor, a.cursor, a.events, now), a.ingested);
  }

  lemma AfterPageSound(w: World, m1: Model, prev: int, keys: seq<string>, env: Env)
    requires NetInv(w.(m := m1))
    ensures Sound(w, AfterPage(m1, prev, keys, env))
  {
    SaveThenFlush(w, m1, keys, env);
    var flushed := Join(Out(m1, Saving(m1, keys)), FlushNext(m1, env));
    var w2 := Advance(w, flushed);
    if m1.cursor != prev {
      CursorWriteSound(w2, m1);
      SoundJoin(w, flushed, Out(flushed.model, Saving(m1, ["cursor"])));
    } else {
      StartPollKeeps(w2, env);
      SoundJoin(w, flushed, StartPoll(flushed.model, env));
    }
  }

  lemma IngestedSound(w: World, a: PollAnswer, env: Env)
    requires NetInv(w) && !w.m.polling && Ready(w.m, env.now) && Folds(w.m, a)
    requires GoodAnswer(w.m, a, env) && ReadablePage(a.events)
    requires a.events != [] ==> (w.m.url, a.cursor) in w.taken
    ensures Sound(w, PollResult(w.m, w.m.pollGen, a, env))
  {
    IngestedFits(w.m, a, env);
    IngestedNet(w, a, env.now);
    AfterPageSound(w, a.ingested, w.m.cursor, a.trail.keys, env);
  }

  lemma IngestedFits(m: Model, a: PollAnswer, env: Env)
    requires !m.polling && Folds(m, a) && GoodAnswer(m, a, env)
    ensures Ingested(m, a.cursor, a.events, env.now, a.trail, a.ingested)
    ensures PollResult(m, m.pollGen, a, env) == AfterPage(a.ingested, m.cursor, a.trail.keys, env)
  {
    assert m.(polling := false) == m;
  }

  lemma CursorWriteSound(w: World, m: Model)
    requires NetInv(w)
    ensures Sound(w, Out(w.m, Saving(m, ["cursor"])))
  {
    RequestsOf([], [], ChallengeReq(0, ""), m, ["cursor"]);
    assert Advance(w, Out(w.m, Saving(m, ["cursor"]))) == w;
  }

  lemma IdleSound(w: World, m': Model)
    requires NetInv(w) && !w.m.flushing && w.m.inFlight.None? && NetSame(w.m, m') && m'.inFlight.None?
    ensures NetInv(w.(m := m')) && Sound(w, Quiet(m'))
  {
    NetSameKeeps(w, m');
    SoundSaving(w, m', []);
  }

  lemma IdleFlush(w: World, m': Model, env: Env)
    requires NetInv(w) && !w.m.flushing && w.m.inFlight.None? && NetSame(w.m, m') && m'.inFlight.None?
    ensures Sound(w, FlushNext(m', env))
  {
    IdleSound(w, m');
    FlushNextKeeps(w.(m := m'), env);
    SameWorld(w, w.(m := m'), FlushNext(m', env));
  }

  lemma PopSound(w: World, batch: Option<InFlight>, a: SendAnswer, env: Env)
    requires NetInv(w) && !w.m.flushing && w.m.inFlight.None?
    requires a.SendStatus? && Accepted(a.code)
    ensures Sound(w, Settle(w.m, batch, a, env))
  {
    var m1 := w.m.(sendRetries := 0, outbox := if w.m.kvFailed then w.m.outbox else w.m.outbox[Head(w.m, batch)..]);
    IdleSound(w, m1);
    SaveThenFlush(w, m1, ["outbox"], env);
  }

  lemma SplitSound(w: World, batch: Option<InFlight>, a: SendAnswer, env: Env)
    requires NetInv(w) && !w.m.flushing && w.m.inFlight.None?
    requires a.SendStatus? && Splits(a.code, batch)
    ensures Sound(w, Settle(w.m, batch, a, env))
  {
    IdleFlush(w, w.m.(budget := Some(batch.value.bytes / 2)), env);
  }

  lemma LimitSound(w: World, batch: Option<InFlight>, a: SendAnswer, env: Env)
    requires NetInv(w) && !w.m.flushing && w.m.inFlight.None?
    requires a.SendStatus? && a.code == 429
    ensures Sound(w, Settle(w.m, batch, a, env))
  {
    var m1 := Pause(w.m, a.retryAfter, env.now);
    assert Settle(w.m, batch, a, env) == Quiet(m1);
    IdleSound(w, m1);
  }

  /** The answer costs every item of the batch a retry. */
  predicate Charges(a: SendAnswer, batch: Option<InFlight>) {
    a.SendFailed? || !(a.code == 401 || a.code == 429 || Splits(a.code, batch) || Accepted(a.code))
  }

  lemma SettleSound(w: World, batch: Option<InFlight>, a: SendAnswer, env: Env)
    requires NetInv(w) && !w.m.flushing && w.m.inFlight.None?
    ensures Sound(w, Settle(w.m, batch, a, env))
  {
    if Charges(a, batch) {
      RetryBatchKeeps(w, batch, env);
    } else if Accepted(a.code) {
      PopSound(w, batch, a, env);
    } else if a.code == 401 {
      ReauthSound(w, env);
    } else if a.code == 429 {
      LimitSound(w, batch, a, env);
    } else {
      SplitSound(w, batch, a, env);
    }
  }

  lemma SaveThenFlush(w: World, m1: Model, keys: seq<string>, env: Env)
    requires NetInv(w.(m := m1))
    ensures Sound(w, Join(Out(m1, Saving(m1, keys)), FlushNext(m1, env)))
  {
    SoundSaving(w, m1, keys);
    FlushNextKeeps(w.(m := m1), env);
    SoundJoin(w, Out(m1, Saving(m1, keys)), FlushNext(m1, env));
  }

  // ---- what the user does ----

  lemma CutOffKeeps(w: World, m': Model, peer: Key)
    requires NetInv(w) && NetSame(w.m, m') && OutInv(w.m)
    requires m'.outbox == Sparing(w.m.outbox, peer) && m'.pushed == w.m.pushed && m'.budget == w.m.budget
    requires m'.inFlight == Detach(w.m, peer).inFlight
    ensures NetInv(w.(m := m'))
  {
    if w.m.inFlight.Some? && w.m.inFlight.value.recipient == peer {
      DetachKeeps(w, m', peer);
    } else {
      if w.m.inFlight.Some? {
        FlightHead(w, peer);
      } else {
        SparingMembers(w.m.outbox, peer);
      }
      NetSameKeeps(w, m');
    }
  }

  lemma FlightHead(w: World, peer: Key)
    requires NetInv(w) && w.m.inFlight.Some? && w.m.inFlight.value.recipient != peer
    ensures var n := w.m.inFlight.value.count;
      n <= |w.m.outbox| && n <= |Sparing(w.m.outbox, peer)| && Sparing(w.m.outbox, peer)[..n] == w.m.outbox[..n]
  {
    var r :| r in w.net && r.SendReq? && r.gen == w.m.flushGen && Carries(w.m, r);
    SparingHead(w.m.outbox, peer, w.m.inFlight.value.count);
  }

  lemma BlockSound(w: World, peer: Key)
    requires NetInv(w) && OutInv(w.m)
    ensures Sound(w, SetBlocked(w.m, peer, true))
  {
    var o := SetBlocked(w.m, peer, true);
    CutOffKeeps(w, o.model, peer);
    SoundSaving(w, o.model, ["contacts", "outbox"]);
  }

  lemma UnblockSound(w: World, peer: Key)
    requires NetInv(w)
    ensures Sound(w, SetBlocked(w.m, peer, false))
  {
    var o := SetBlocked(w.m, peer, false);
    QueueSameKeeps(w, o.model);
    SoundSaving(w, o.model, ["contacts"]);
  }

  lemma ErasureSound(w: World, m: Model, before: seq<string>, key: string, after: seq<string>)
    requires NetInv(w.(m := m))
    ensures Sound(w, Out(m, Saving(m, before) + [Erase(key)] + Saving(m, after)))
  {
    RequestsOf(Saving(m, before) + [Erase(key)], Saving(m, after), ChallengeReq(0, ""), m, after);
    RequestsOf(Saving(m, before), [Erase(key)], ChallengeReq(0, ""), m, before);
    assert forall e :: e in [Erase(key)] <==> e == Erase(key);
    assert Requests([Erase(key)]) == {};
    assert Advance(w, Out(m, Saving(m, before) + [Erase(key)] + Saving(m, after))) == w.(m := m);
  }

  lemma DeleteSound(w: World, peer: Key)
    requires NetInv(w) && OutInv(w.m)
    ensures Sound(w, DeleteContact(w.m, peer))
  {
    var o := DeleteContact(w.m, peer);
    CutOffKeeps(w, o.model, peer);
    ErasureSound(w, o.model, ["contacts"], MessagesKey(peer), ["outbox", "seen_ids"]);
  }

  lemma LiveFits(w: World)
    requires NetInv(w)
    ensures Live(w.m) <= |w.m.outbox|
  {
    if w.m.inFlight.Some? { FlightFits(w); }
  }

  lemma EditSound(w: World, profile: P.Payload, peers: seq<Key>, env: Env)
    requires NetInv(w) && OutInv(w.m) && Audience(w.m, peers) && P.IsI64(env.now)
    ensures Sound(w, SaveProfile(w.m, profile, peers, env))
  {
    if !profile.Profile? || !P.Acceptable(profile) {
      SoundSaving(w, w.m, []);
    } else {
      LiveFits(w);
      var m0 := w.m.(profile := profile);
      SupersedeAllKeeps(m0, Live(w.m), peers, env.now);
      var m1 := SupersedeAll(m0, Live(w.m), peers, env.now);
      NetSameKeeps(w, m1);
      SaveThenFlush(w, m1, ["profile", "outbox"], env);
    }
  }

  lemma WrittenGrows(m: Model, k: Key, body: string, id: Id, now: int)
    ensures Grown(m, Written(m, k, body, id, now))
  {
    var convo := Wrote(PeerOf(m, k), StoredMessage(id, body, now, true, false)).convo.value;
    var m0 := m.(messages := m.messages[k := convo]);
    var m1 := Push(m0, k, P.Text(id, body), now);
    PushGrows(m0, k, P.Text(id, body), now);
    GrownTrans(m, m0, m1);
    if k !in m.contacts {
      var m2 := m1.(contacts := m1.contacts[k := NEWCOMER]);
      PushGrows(m2, k, m.profile, now);
      GrownTrans(m, m1, m2);
      GrownTrans(m, m2, Push(m2, k, m.profile, now));
    }
  }

  lemma PushGrows(m: Model, k: Key, p: P.Payload, ts: int)
    ensures Grown(m, Push(m, k, p, ts))
  {
    assert Push(m, k, p, ts).outbox[..|m.outbox|] == m.outbox;
  }

  lemma WriteSound(w: World, chat: Option<Key>, body: string, id: Id, env: Env)
    requires NetInv(w)
    ensures Sound(w, SendText(w.m, chat, body, id, env))
  {
    if Refused(w.m, chat, body) {
      SoundSaving(w, w.m, []);
    } else {
      var m1 := Written(w.m, chat.value, body, id, env.now);
      WrittenGrows(w.m, chat.value, body, id, env.now);
      GrownKeeps(w, w.m.cursor, m1);
      SaveThenFlush(w, m1, [MessagesKey(chat.value), "contacts", "outbox"], env);
    }
  }

  // ---- every step ----

  lemma LoadSound(w: World, peer: Key, found: KvAnswer)
    requires NetInv(w)
    ensures Sound(w, LoadedMessages(w.m, peer, found))
  {
    var o := LoadedMessages(w.m, peer, found);
    QueueSameKeeps(w, o.model);
    SoundSaving(w, o.model, []);
  }

  predicate ByUser(e: Event) { e.Add? || e.Block? || e.Delete? || e.EditProfile? || e.WriteText? }

  lemma UserSound(w: World, e: Event, env: Env)
    requires NetInv(w) && OutInv(w.m) && Legal(w, e, env) && P.IsI64(env.now) && ByUser(e)
    ensures Sound(w, Apply(w.m, e, env))
  {
    match e
    case Block(peer, blocked) => if blocked { BlockSound(w, peer); } else { UnblockSound(w, peer); }
    case Delete(peer) => DeleteSound(w, peer);
    case EditProfile(profile, peers) => EditSound(w, profile, peers, env);
    case WriteText(chat, body, id) => WriteSound(w, chat, body, id, env);
    case Add(who) => AddSound(w, who);
  }

  lemma AddSound(w: World, who: Option<Key>)
    requires NetInv(w)
    ensures Sound(w, AddContact(w.m, who))
  {
    var o := AddContact(w.m, who);
    QueueSameKeeps(w, o.model);
    SoundSaving(w, o.model, ["contacts"]);
  }

  lemma ForegroundSound(w: World, env: Env)
    requires NetInv(w)
    ensures Sound(w, Connect(w.m, env))
  {
    AbandonKeeps(w, AuthLoop);
    ReconnectKeeps(w.(m := AbandonAuth(w.m)), env);
    SameWorld(w, w.(m := AbandonAuth(w.m)), Connect(w.m, env));
  }

  lemma SavedSound(w: World, ok: bool, env: Env)
    requires NetInv(w)
    ensures Sound(w, SavedCursor(w.m, ok, env))
  {
    if ok {
      StartPollKeeps(w, env);
    } else {
      QueueSameKeeps(w, w.m.(conn := Offline));
      SoundSaving(w, w.m.(conn := Offline), []);
    }
  }

  lemma TimerSound(w: World, e: Event, env: Env)
    requires NetInv(w) && !Answers(e) && !ByUser(e)
    ensures Sound(w, Apply(w.m, e, env))
  {
    match e
    case Switch(url) => SwitchSound(w, url, env);
    case Foreground => ForegroundSound(w, env);
    case AuthTimer => AuthenticateKeeps(w, env);
    case PollTimer => StartPollKeeps(w, env);
    case FlushTimer => FlushNextKeeps(w, env);
    case AuthWatch(gen) => AuthWatchSound(w, gen, env);
    case PollWatch(gen) => PollWatchSound(w, gen, env);
    case FlushWatch(gen) => FlushWatchSound(w, gen, env);
    case CursorSaved(ok) => SavedSound(w, ok, env);
    case Loaded(peer, found) => LoadSound(w, peer, found);
  }

  lemma AuthWatchSound(w: World, gen: nat, env: Env)
    requires NetInv(w)
    ensures Sound(w, AuthWatchdog(w.m, gen, env))
  {
    if gen != w.m.authGen || !w.m.authenticating {
      SoundSaving(w, w.m, []);
    } else {
      AbandonKeeps(w, AuthLoop);
      AuthenticateKeeps(w.(m := AbandonAuth(w.m)), env);
      SameWorld(w, w.(m := AbandonAuth(w.m)), AuthWatchdog(w.m, gen, env));
    }
  }

  lemma PollWatchSound(w: World, gen: nat, env: Env)
    requires NetInv(w)
    ensures Sound(w, PollWatchdog(w.m, gen, env))
  {
    if gen != w.m.pollGen || !w.m.polling {
      SoundSaving(w, w.m, []);
    } else {
      AbandonKeeps(w, PollLoop);
      StartPollKeeps(w.(m := AbandonPoll(w.m)), env);
      SameWorld(w, w.(m := AbandonPoll(w.m)), PollWatchdog(w.m, gen, env));
    }
  }

  lemma FlushWatchSound(w: World, gen: nat, env: Env)
    requires NetInv(w)
    ensures Sound(w, FlushWatchdog(w.m, gen, env))
  {
    if gen != w.m.flushGen || !w.m.flushing {
      SoundSaving(w, w.m, []);
    } else {
      AbandonKeeps(w, SendLoop);
      FlushNextKeeps(w.(m := AbandonFlush(w.m)), env);
      SameWorld(w, w.(m := AbandonFlush(w.m)), FlushWatchdog(w.m, gen, env));
    }
  }

  lemma CurrentUrl(w: World, q: Request)
    requires Bound(w) && q in w.net && Current(w.m, q)
    ensures q.url == w.m.url
  {
  }

  lemma NoVerifyYet(w: World, q: Request)
    requires GenInv(w) && q in w.net && q.ChallengeReq?
    ensures forall v :: v in w.sent && v.VerifyReq? ==> v.gen != q.gen
  {
  }

  /** What the handler of an answer finds. */
  lemma AnswerArrives(w: World, e: Event, env: Env)
    requires NetInv(w) && Legal(w, e, env) && Answers(e) && Current(w.m, e.q)
    ensures var w1 := Deliver(w, e, env.now).(m := Down(w.m, LoopOf(e.q)));
      && NetInv(w1) && w1.m.url == e.q.url && w1.sent == w.sent
      && Issues(e) <= w1.issued && Takes(w.m, e) <= w1.taken
  {
    DeliverKeeps(w, e, env.now);
    CurrentUrl(w, e.q);
  }

  lemma AuthFits(m: Model, e: Event, env: Env)
    requires (e.GotChallenge? || e.GotToken?) && e.q.gen == m.authGen
    ensures e.GotChallenge? ==> ChallengeResult(Down(m, AuthLoop), e.q.gen, e.challenge, env) == Apply(m, e, env)
    ensures e.GotToken? ==> VerifyResult(Down(m, AuthLoop), e.q.gen, e.token, env) == Apply(m, e, env)
  {
    assert Down(m, AuthLoop).(authenticating := false) == m.(authenticating := false);
  }

  lemma ChallengeAnswerSound(w: World, e: Event, env: Env)
    requires NetInv(w) && Legal(w, e, env) && e.GotChallenge? && Current(w.m, e.q)
    ensures Sound(Deliver(w, e, env.now), Apply(w.m, e, env))
  {
    AnswerArrives(w, e, env);
    NoVerifyYet(w, e.q);
    AuthFits(w.m, e, env);
    var w1 := Deliver(w, e, env.now).(m := Down(w.m, AuthLoop));
    ChallengeSound(w1, e.q.gen, e.challenge, env);
    SameWorld(Deliver(w, e, env.now), w1, Apply(w.m, e, env));
  }

  lemma TokenAnswerSound(w: World, e: Event, env: Env)
    requires NetInv(w) && Legal(w, e, env) && e.GotToken? && Current(w.m, e.q)
    ensures Sound(Deliver(w, e, env.now), Apply(w.m, e, env))
  {
    AnswerArrives(w, e, env);
    AuthFits(w.m, e, env);
    var w1 := Deliver(w, e, env.now).(m := Down(w.m, AuthLoop));
    TokenSound(w1, e.q.gen, e.token, env);
    SameWorld(Deliver(w, e, env.now), w1, Apply(w.m, e, env));
  }

  lemma PageFits(m: Model, e: Event, env: Env)
    requires e.GotPage? && e.q.PollReq? && Current(m, e.q) && GoodAnswer(m, e.page, env)
    ensures GoodAnswer(Down(m, PollLoop), e.page, env)
    ensures PollResult(Down(m, PollLoop), e.q.gen, e.page, env) == Apply(m, e, env)
  {
    assert Down(m, PollLoop).(polling := false) == m.(polling := false);
  }

  lemma PageAnswerSound(w: World, e: Event, env: Env)
    requires WInv(w) && Legal(w, e, env) && e.GotPage? && Current(w.m, e.q)
    ensures Sound(Deliver(w, e, env.now), Apply(w.m, e, env))
  {
    AnswerArrives(w, e, env);
    var w1 := Deliver(w, e, env.now).(m := Down(w.m, PollLoop));
    PageReady(w, w1.m, env.now);
    PageFits(w.m, e, env);
    PageSound(w1, e.q.gen, e.page, env);
    SameWorld(Deliver(w, e, env.now), w1, Apply(w.m, e, env));
  }

  lemma ReceiptAnswerSound(w: World, e: Event, env: Env)
    requires NetInv(w) && Legal(w, e, env) && e.GotReceipt? && Current(w.m, e.q)
    ensures Sound(Deliver(w, e, env.now), Apply(w.m, e, env))
  {
    AnswerArrives(w, e, env);
    var w1 := Deliver(w, e, env.now).(m := Down(w.m, SendLoop));
    SettleSound(w1, w.m.inFlight, e.receipt, env);
    SameWorld(Deliver(w, e, env.now), w1, Apply(w.m, e, env));
  }

  /** A late answer changes nothing and asks for nothing. */
  lemma LateIsIgnored(m: Model, e: Event, env: Env)
    requires Answers(e) && !Current(m, e.q)
    requires (e.GotChallenge? ==> e.q.ChallengeReq?) && (e.GotToken? ==> e.q.VerifyReq?)
    requires (e.GotPage? ==> e.q.PollReq?) && (e.GotReceipt? ==> e.q.SendReq?)
    ensures Apply(m, e, env) == Quiet(m)
  {
  }

  lemma AnswerSound(w: World, e: Event, env: Env)
    requires WInv(w) && Legal(w, e, env) && Answers(e)
    ensures Sound(Deliver(w, e, env.now), Apply(w.m, e, env))
  {
    if !Current(w.m, e.q) {
      DeliverKeeps(w, e, env.now);
      LateIsIgnored(w.m, e, env);
      SoundSaving(Deliver(w, e, env.now), w.m, []);
    } else {
      match e
      case GotChallenge(_, _) => ChallengeAnswerSound(w, e, env);
      case GotToken(_, _) => TokenAnswerSound(w, e, env);
      case GotPage(_, _) => PageAnswerSound(w, e, env);
      case GotReceipt(_, _) => ReceiptAnswerSound(w, e, env);
    }
  }

  lemma PageReady(w: World, m: Model, now: int)
    requires StateInv(w.m, w.clock) && w.clock <= now && P.IsI64(now + MAX_FUTURE_SKEW_MS) && m == w.m.(polling := false)
    ensures Ready(m, now)
  {
    forall k ensures PeerInv(PeerOf(m, k)) { assert PeerOf(m, k) == PeerOf(w.m, k); }
  }

  /** Every step keeps the net in order, and never sends a request that was sent before. */
  lemma NetStep(w: World, e: Event, env: Env)
    requires WInv(w) && Legal(w, e, env)
    ensures Sound(Deliver(w, e, env.now), Apply(w.m, e, env)) && NetInv(Next(w, e, env))
  {
    if Answers(e) {
      AnswerSound(w, e, env);
    } else {
      DeliverKeeps(w, e, env.now);
      var w1 := Deliver(w, e, env.now);
      if ByUser(e) {
        UserSound(w1, e, env);
      } else {
        TimerSound(w1, e, env);
      }
    }
  }
}

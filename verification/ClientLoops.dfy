/** Which logins and polls each step starts: exactly those that are due. */
module ClientLoops {
  import opened Conversations
  import opened ClientModel
  import opened ClientWorld
  import opened ClientSteps
  import opened ClientProgress
  import opened ClientRuns
  import P = Payloads

  /** A login can be started: none is under way. */
  predicate LoginOpen(m: Model, env: Env) { !m.authenticating && m.identity && env.builds }

  /** A client without a token logs in where it would poll. */
  predicate LoginForPoll(m: Model, env: Env) { !m.polling && m.token.None? && LoginOpen(m, env) }

  predicate PollOpen(m: Model, env: Env) { !m.polling && m.token.Some? && env.builds }

  /** A folded page that moves no cursor goes on to the next poll at once. */
  predicate GoesOn(m: Model, e: Event) { Ingests(m, e) && e.page.ingested.cursor == m.cursor }

  predicate Revives(m: Model, e: Event) { e.PollWatch? && e.gen == m.pollGen && m.polling }

  /** The step starts a login. */
  predicate LoginDue(m: Model, e: Event, env: Env) {
    match e
    case AuthTimer => LoginOpen(m, env)
    case AuthWatch(gen) => gen == m.authGen && m.authenticating && m.identity && env.builds
    case PollTimer => LoginForPoll(m, env)
    case CursorSaved(ok) => ok && LoginForPoll(m, env)
    case PollWatch(_) => Revives(m, e) && m.token.None? && LoginOpen(m, env)
    case Foreground => !m.kvFailed && m.identity && env.builds && (m.conn != Online || (!m.polling && m.token.None?))
    case Switch(url) => url.Some? && !m.kvFailed && m.identity && env.builds
    case GotPage(q, a) =>
      q.gen == m.pollGen && LoginOpen(m, env) && ((a.PollStatus? && a.code == 401) || (GoesOn(m, e) && m.token.None?))
    case GotReceipt(q, a) => q.gen == m.flushGen && a.SendStatus? && a.code == 401 && LoginOpen(m, env)
    case _ => false
  }

  /** The step signs a challenge. */
  predicate ProofDue(m: Model, e: Event, env: Env) {
    e.GotChallenge? && e.q.gen == m.authGen && e.challenge.Challenged? && m.identity && env.builds
  }

  /** The step starts a poll. */
  predicate PollDue(m: Model, e: Event, env: Env) {
    match e
    case PollTimer => PollOpen(m, env)
    case CursorSaved(ok) => ok && PollOpen(m, env)
    case PollWatch(_) => Revives(m, e) && m.token.Some? && env.builds
    case Foreground => !m.kvFailed && m.identity && m.conn == Online && PollOpen(m, env)
    case GotToken(q, token) => q.gen == m.authGen && token.Some? && token.value != "" && !m.polling && env.builds
    case GotPage(_, _) => GoesOn(m, e) && m.token.Some? && env.builds
    case _ => false
  }

  /** The requests of the login and poll loops among the effects. */
  function Asked(fx: seq<Effect>): set<Request> { set q | q in Requests(fx) && !q.SendReq? }

  lemma AskedJoin(a: seq<Effect>, b: seq<Effect>)
    ensures Asked(a + b) == Asked(a) + Asked(b)
  {
    RequestsOf(a, b, ChallengeReq(0, ""), OneModel(), []);
  }

  /** Any model will do. */
  function OneModel(): Model {
    Model(false, "", "", P.Ack([]), map[], map[], map[], [], 0, 0, None, Offline, 0, false, 0, false, 0, false, 0, None, None, false, 0)
  }

  lemma AskedSaving(m: Model, keys: seq<string>, q: Request)
    ensures Asked(Saving(m, keys)) == {} && Asked([]) == {} && Asked([Ask(q)]) == if q.SendReq? then {} else {q}
  {
    RequestsOf([], [], q, m, keys);
  }

  // ---- each handler ----

  lemma AuthAsks(m: Model, env: Env)
    ensures var o := Authenticate(m, env);
      && Asked(o.effects) == (if LoginOpen(m, env) then {ChallengeReq(o.model.authGen, o.model.url)} else {})
      && o.model.pollGen == m.pollGen && o.model.polling == m.polling && o.model.url == m.url
  {
    AskedSaving(m, [], ChallengeReq(m.authGen + 1, m.url));
  }

  function PollRequest(m: Model): Request
    requires m.token.Some?
  {
    PollReq(m.pollGen, m.url, m.token.value, m.cursor)
  }

  lemma PollAsks(m: Model, env: Env)
    ensures var o := StartPoll(m, env);
      && o.model.token == m.token
      && Asked(o.effects) == (if LoginForPoll(m, env) then {ChallengeReq(o.model.authGen, o.model.url)}
                              else if PollOpen(m, env) then {PollRequest(o.model)} else {})
  {
    if !m.polling && m.token.None? {
      AuthAsks(m, env);
    } else if m.token.Some? {
      AskedSaving(m, [], PollReq(m.pollGen + 1, m.url, m.token.value, m.cursor));
    }
  }

  lemma FlushAsks(m: Model, env: Env)
    ensures Asked(FlushNext(m, env).effects) == {}
    ensures var m' := FlushNext(m, env).model;
      m'.authGen == m.authGen && m'.authenticating == m.authenticating && m'.pollGen == m.pollGen && m'.polling == m.polling
      && m'.url == m.url && m'.token == m.token && m'.cursor == m.cursor && m'.identity == m.identity
  {
    FlushShape(m, env);
    if MayFlush(m, env) {
      var p := Fill(m.outbox, env, Budget(m), [], 0);
      AskedSaving(m, ["outbox"], ChallengeReq(0, ""));
      if p.taken != [] { LaunchAsks(m.(outbox := Stamp(p.taken, env.now) + p.rest), |p.taken|, p.bytes, Dirty(p, m.outbox), env); }
    }
  }

  lemma LaunchAsks(m: Model, count: nat, bytes: nat, dirty: bool, env: Env)
    requires 1 <= count <= |m.outbox| && m.token.Some?
    ensures Asked(Launch(m, count, bytes, dirty, env).effects) == {}
  {
    var q := SendReq(m.flushGen + 1, m.url, m.token.value, m.outbox[..count]);
    AskedSaving(m, ["outbox"], q);
    AskedJoin(if dirty then Saving(m, ["outbox"]) else [], [Ask(q)]);
  }

  lemma SaveFlushAsks(m: Model, keys: seq<string>, env: Env)
    ensures Asked(Join(Out(m, Saving(m, keys)), FlushNext(m, env)).effects) == {}
  {
    AskedSaving(m, keys, ChallengeReq(0, ""));
    FlushAsks(m, env);
    AskedJoin(Saving(m, keys), FlushNext(m, env).effects);
  }

  lemma ReconnectAsks(m: Model, env: Env)
    requires !m.authenticating
    ensures var o := Reconnect(m, env);
      && (m.token.Some? ==> o.model.token == m.token)
      && Asked(o.effects) == (if m.kvFailed || !m.identity || !env.builds then {}
                              else if m.conn != Online || (!m.polling && m.token.None?) then {ChallengeReq(o.model.authGen, o.model.url)}
                              else if !m.polling then {PollRequest(o.model)} else {})
  {
    AuthAsks(m, env);
    PollAsks(m, env);
    AskedSaving(m, [], ChallengeReq(0, ""));
  }

  lemma SwitchAsks(m: Model, url: Url, env: Env)
    ensures var o := SetServerUrl(m, Some(url), env);
      Asked(o.effects) == if m.kvFailed || !m.identity || !env.builds then {} else {ChallengeReq(o.model.authGen, o.model.url)}
  {
    var m1 := Switched(m, url);
    AskedSaving(m1, ["settings", "cursor"], ChallengeReq(0, ""));
    ReconnectAsks(AbandonAuth(m1), env);
    AskedJoin(Saving(m1, ["settings", "cursor"]), Connect(m1, env).effects);
  }

  lemma TokenAsks(m: Model, gen: nat, token: Option<Token>, env: Env)
    ensures var o := VerifyResult(m, gen, token, env);
      && (gen == m.authGen && token.Some? && token.value != "" ==> o.model.token == token)
      && Asked(o.effects) == if gen == m.authGen && token.Some? && token.value != "" && !m.polling && env.builds
                             then {PollRequest(o.model)} else {}
  {
    AskedSaving(m, [], ChallengeReq(0, ""));
    if gen == m.authGen && token.Some? && token.value != "" {
      var m1 := m.(authenticating := false, token := token, conn := Online);
      var polled := StartPoll(m1, env);
      PollAsks(m1, env);
      FlushAsks(polled.model, env);
      AskedJoin(polled.effects, FlushNext(polled.model, env).effects);
    }
  }

  lemma AfterPageAsks(m: Model, prev: int, keys: seq<string>, env: Env)
    ensures var o := AfterPage(m, prev, keys, env);
      && o.model.token == m.token
      && Asked(o.effects) == (if m.cursor != prev then {}
                              else if LoginForPoll(m, env) then {ChallengeReq(o.model.authGen, o.model.url)}
                              else if PollOpen(m, env) then {PollRequest(o.model)} else {})
  {
    SaveFlushAsks(m, keys, env);
    FlushAsks(m, env);
    var flushed := Join(Out(m, Saving(m, keys)), FlushNext(m, env));
    if m.cursor != prev {
      AskedSaving(m, ["cursor"], ChallengeReq(0, ""));
      AskedJoin(flushed.effects, Saving(m, ["cursor"]));
    } else {
      PollAsks(flushed.model, env);
      AskedJoin(flushed.effects, StartPoll(flushed.model, env).effects);
    }
  }

  lemma SettleAsks(m: Model, batch: Option<InFlight>, a: SendAnswer, env: Env)
    ensures var o := Settle(m, batch, a, env);
      Asked(o.effects) == if a.SendStatus? && a.code == 401 && LoginOpen(m, env) then {ChallengeReq(o.model.authGen, o.model.url)} else {}
  {
    AskedSaving(m, [], ChallengeReq(0, ""));
    if Charges(a, batch) {
      RetryAsks(m, batch, env);
    } else if Accepted(a.code) {
      SaveFlushAsks(m.(sendRetries := 0, outbox := if m.kvFailed then m.outbox else m.outbox[Head(m, batch)..]), ["outbox"], env);
    } else if a.code == 401 {
      AuthAsks(m.(token := None), env);
    } else if a.code != 429 {
      FlushAsks(m.(budget := Some(batch.value.bytes / 2)), env);
    }
  }

  lemma RetryAsks(m: Model, batch: Option<InFlight>, env: Env)
    ensures Asked(RetryBatch(m, batch, env).effects) == {}
  {
    AskedSaving(m, [], ChallengeReq(0, ""));
    if batch.Some? {
      var n := Head(m, batch);
      var m1 := m.(outbox := Charge(m.outbox[..n], env.now) + m.outbox[n..]);
      AskedSaving(m1, ["outbox"], ChallengeReq(0, ""));
      SaveFlushAsks(m1, ["outbox"], env);
    }
  }

  // ---- each step ----

  /** What is due, as the step leaves the client. */
  ghost predicate AsksWhatIsDue(m: Model, e: Event, env: Env, o: Out) {
    && (PollDue(m, e, env) ==> o.model.token.Some?)
    && Asked(o.effects) == (if LoginDue(m, e, env) then {ChallengeReq(o.model.authGen, o.model.url)}
                            else if ProofDue(m, e, env) then {VerifyReq(o.model.authGen, o.model.url)}
                            else if PollDue(m, e, env) then {PollRequest(o.model)} else {})
  }

  lemma WriteAsks(m: Model, e: Event, env: Env)
    requires e.WriteText? || e.EditProfile?
    ensures Asked(Apply(m, e, env).effects) == {}
  {
    AskedSaving(m, [], ChallengeReq(0, ""));
    if e.WriteText? {
      if !Refused(m, e.chat, e.body) {
        SaveFlushAsks(Written(m, e.chat.value, e.body, e.id, env.now), [MessagesKey(e.chat.value), "contacts", "outbox"], env);
      }
    } else if e.profile.Profile? && P.Acceptable(e.profile) {
      SaveFlushAsks(SupersedeAll(m.(profile := e.profile), Live(m), e.peers, env.now), ["profile", "outbox"], env);
    }
  }

  lemma DeleteAsks(m: Model, before: seq<string>, key: string, after: seq<string>)
    ensures Asked(Saving(m, before) + [Erase(key)] + Saving(m, after)) == {}
  {
    AskedSaving(m, before, ChallengeReq(0, ""));
    AskedSaving(m, after, ChallengeReq(0, ""));
    assert forall x :: x in [Erase(key)] <==> x == Erase(key);
    assert Requests([Erase(key)]) == {};
    AskedJoin(Saving(m, before), [Erase(key)]);
    AskedJoin(Saving(m, before) + [Erase(key)], Saving(m, after));
  }

  lemma ContactAsks(m: Model, e: Event, env: Env)
    requires e.Add? || e.Block? || e.Delete? || e.Loaded?
    ensures Asked(Apply(m, e, env).effects) == {}
  {
    AskedSaving(m, [], ChallengeReq(0, ""));
    match e
    case Add(who) => AskedSaving(AddContact(m, who).model, ["contacts"], ChallengeReq(0, ""));
    case Block(peer, blocked) =>
      AskedSaving(SetBlocked(m, peer, blocked).model, if blocked then ["contacts", "outbox"] else ["contacts"], ChallengeReq(0, ""));
    case Delete(peer) => DeleteAsks(DeleteContact(m, peer).model, ["contacts"], MessagesKey(peer), ["outbox", "seen_ids"]);
    case Loaded(_, _) =>
  }

  lemma WatchAsks(m: Model, e: Event, env: Env)
    requires e.AuthWatch? || e.PollWatch? || e.FlushWatch?
    ensures AsksWhatIsDue(m, e, env, Apply(m, e, env))
  {
    AskedSaving(m, [], ChallengeReq(0, ""));
    match e
    case AuthWatch(_) => AuthAsks(AbandonAuth(m), env);
    case PollWatch(_) => PollAsks(AbandonPoll(m), env);
    case FlushWatch(_) => FlushAsks(AbandonFlush(m), env);
  }

  lemma TimerAsks(m: Model, e: Event, env: Env)
    requires !ByUser(e) && !e.Loaded? && !Answers(e)
    ensures AsksWhatIsDue(m, e, env, Apply(m, e, env))
  {
    AskedSaving(m, [], ChallengeReq(0, ""));
    match e
    case Switch(url) => if url.Some? { SwitchAsks(m, url.value, env); }
    case Foreground => ReconnectAsks(AbandonAuth(m), env);
    case AuthTimer => AuthAsks(m, env);
    case PollTimer => PollAsks(m, env);
    case FlushTimer => FlushAsks(m, env);
    case CursorSaved(_) => PollAsks(m, env);
    case _ => WatchAsks(m, e, env);
  }

  lemma ProofAsks(m: Model, e: Event, env: Env)
    requires e.GotChallenge?
    ensures AsksWhatIsDue(m, e, env, Apply(m, e, env))
  {
    AskedSaving(m, [], VerifyReq(m.authGen, m.url));
  }

  lemma PageAsks(m: Model, e: Event, env: Env)
    requires e.GotPage? && (Ingests(m, e) ==> var m1 := e.page.ingested;
      !m1.polling && m1.token == m.token && m1.authenticating == m.authenticating && m1.identity == m.identity)
    ensures AsksWhatIsDue(m, e, env, Apply(m, e, env))
  {
    AskedSaving(m, [], ChallengeReq(0, ""));
    if Ingests(m, e) {
      AfterPageAsks(e.page.ingested, m.cursor, e.page.trail.keys, env);
    } else {
      AuthAsks(m.(polling := false, token := None), env);
    }
  }

  lemma AnswerAsks(m: Model, e: Event, env: Env)
    requires Answers(e) && (Ingests(m, e) ==> var m1 := e.page.ingested;
      !m1.polling && m1.token == m.token && m1.authenticating == m.authenticating && m1.identity == m.identity)
    ensures AsksWhatIsDue(m, e, env, Apply(m, e, env))
  {
    match e
    case GotChallenge(_, _) => ProofAsks(m, e, env);
    case GotToken(q, token) => TokenAsks(m, q.gen, token, env);
    case GotPage(_, _) => PageAsks(m, e, env);
    case GotReceipt(q, a) =>
      AskedSaving(m, [], ChallengeReq(0, ""));
      SettleAsks(m.(flushing := false, inFlight := None), m.inFlight, a, env);
  }

  lemma ApplyAsks(w: World, e: Event, env: Env)
    requires WInv(w) && Legal(w, e, env)
    ensures AsksWhatIsDue(w.m, e, env, Apply(w.m, e, env))
  {
    if e.WriteText? || e.EditProfile? {
      WriteAsks(w.m, e, env);
    } else if ByUser(e) || e.Loaded? {
      ContactAsks(w.m, e, env);
    } else if !Answers(e) {
      TimerAsks(w.m, e, env);
    } else {
      if Ingests(w.m, e) {
        LaterReady(w, env.now);
        PageReadies(w.m, e.page, env);
      }
      AnswerAsks(w.m, e, env);
    }
  }

  lemma NewRequests(w: World, e: Event, env: Env)
    requires Requests(Apply(w.m, e, env).effects) !! w.sent
    ensures (set q | q in Next(w, e, env).sent && q !in w.sent && !q.SendReq?) == Asked(Apply(w.m, e, env).effects)
  {
  }

  /** In any run each step sends exactly the login and poll requests that are due: a login
      where there is no token or it was refused, the proof of a challenge, and a poll on
      every timer, watchdog, new token, saved cursor or page that moved no cursor — and no
      poll before a cursor that moved is saved. */
  lemma WhatIsDueIsAsked(ws: seq<World>, acts: seq<Act>, i: nat)
    requires Run(ws, acts) && i < |acts|
    ensures var m, e, env, m' := ws[i].m, acts[i].event, acts[i].env, ws[i + 1].m;
      && (PollDue(m, e, env) ==> m'.token.Some?)
      && (set q | q in ws[i + 1].sent && q !in ws[i].sent && !q.SendReq?)
         == if LoginDue(m, e, env) then {ChallengeReq(m'.authGen, m'.url)}
            else if ProofDue(m, e, env) then {VerifyReq(m'.authGen, m'.url)}
            else if PollDue(m, e, env) then {PollRequest(m')} else {}
  {
    AlwaysInv(ws, acts, i);
    assert StepAt(ws, acts, i);
    NetStep(ws[i], acts[i].event, acts[i].env);
    NewRequests(ws[i], acts[i].event, acts[i].env);
    ApplyAsks(ws[i], acts[i].event, acts[i].env);
  }

  // ---- the token and the connection ----

  predicate TokenComes(m: Model, e: Event) { e.GotToken? && e.q.gen == m.authGen && e.token.Some? && e.token.value != "" }

  /** The relay no longer takes the token. */
  predicate TokenRefused(m: Model, e: Event) {
    || (e.GotPage? && e.q.gen == m.pollGen && e.page.PollStatus? && e.page.code == 401)
    || (e.GotReceipt? && e.q.gen == m.flushGen && e.receipt.SendStatus? && e.receipt.code == 401)
  }

  /** A poll that was waited for brought neither a page nor a call to log in. */
  predicate PollFails(m: Model, a: PollAnswer) {
    || a.PollFailed? || (a.PollStatus? && a.code != 401)
    || (!m.kvFailed && (a.Garbled? || (a.Page? && a.length > 67108864)))
  }

  /** The client is not online any more: another relay, a login instead, a poll that cannot be
      built, a cursor that is not saved, or the answer waited for is a failure. */
  predicate GoesOffline(m: Model, e: Event, env: Env) {
    var building := env.(builds := true);
    || Moves(e) || LoginDue(m, e, building) || (PollDue(m, e, building) && !env.builds) || (e.CursorSaved? && !e.ok)
    || (e.GotPage? && e.q.gen == m.pollGen && PollFails(m, e.page))
    || (e.GotChallenge? && e.q.gen == m.authGen && (e.challenge.NoChallenge? || e.challenge.BadChallenge? || !env.builds))
    || (e.GotToken? && e.q.gen == m.authGen && !TokenComes(m, e))
  }

  function TokenThen(m: Model, e: Event): Option<Token> {
    if Moves(e) || TokenRefused(m, e) then None else if TokenComes(m, e) then e.token else m.token
  }

  predicate OnlineThen(m: Model, e: Event, env: Env) {
    if TokenComes(m, e) then m.polling || env.builds else m.conn == Online && !GoesOffline(m, e, env)
  }

  ghost predicate LoginIs(m: Model, e: Event, env: Env, m': Model) {
    m'.token == TokenThen(m, e) && (m'.conn == Online <==> OnlineThen(m, e, env))
  }

  /** The two as they are after a handler. */
  predicate LoginAs(m: Model, token: Option<Token>, online: bool) { m.token == token && (m.conn == Online <==> online) }

  predicate OnlineUnlessAuth(m: Model) { m.conn == Online && (m.authenticating || !m.identity) }

  predicate OnlineUnlessPoll(m: Model, env: Env) {
    m.conn == Online && (m.polling || if m.token.None? then m.authenticating || !m.identity else env.builds)
  }

  lemma AuthLogin(m: Model, env: Env)
    ensures LoginAs(Authenticate(m, env).model, m.token, OnlineUnlessAuth(m))
  {
  }

  lemma PollLogin(m: Model, env: Env)
    ensures LoginAs(StartPoll(m, env).model, m.token, OnlineUnlessPoll(m, env))
  {
    AuthLogin(m, env);
  }

  lemma ReconnectLogin(m: Model, env: Env)
    ensures LoginAs(Reconnect(m, env).model, m.token, m.conn == Online && (m.kvFailed || !m.identity || OnlineUnlessPoll(m, env)))
  {
    AuthLogin(m, env);
    PollLogin(m, env);
  }

  lemma FlushLogin(m: Model, env: Env)
    ensures LoginAs(FlushNext(m, env).model, m.token, m.conn == Online)
    ensures OnlineUnlessPoll(FlushNext(m, env).model, env) <==> OnlineUnlessPoll(m, env)
  {
    FlushShape(m, env);
  }

  lemma {:induction false} EditLogin(m: Model, live: nat, peers: seq<Key>, ts: int)
    ensures LoginAs(SupersedeAll(m, live, peers, ts), m.token, m.conn == Online)
  {
    if peers != [] { EditLogin(m, live, peers[..|peers| - 1], ts); }
  }

  lemma WriteLogin(m: Model, chat: Option<Key>, body: string, id: Id, env: Env)
    ensures LoginAs(SendText(m, chat, body, id, env).model, m.token, m.conn == Online)
  {
    if !Refused(m, chat, body) { FlushLogin(Written(m, chat.value, body, id, env.now), env); }
  }

  lemma ProfileLogin(m: Model, profile: P.Payload, peers: seq<Key>, env: Env)
    ensures LoginAs(SaveProfile(m, profile, peers, env).model, m.token, m.conn == Online)
  {
    if profile.Profile? && P.Acceptable(profile) {
      EditLogin(m.(profile := profile), Live(m), peers, env.now);
      FlushLogin(SupersedeAll(m.(profile := profile), Live(m), peers, env.now), env);
    }
  }

  lemma AddLogin(m: Model, who: Option<Key>)
    ensures LoginAs(AddContact(m, who).model, m.token, m.conn == Online)
  {
  }

  lemma BlockLogin(m: Model, peer: Key, blocked: bool)
    ensures LoginAs(SetBlocked(m, peer, blocked).model, m.token, m.conn == Online)
  {
  }

  lemma DeleteLogin(m: Model, peer: Key)
    ensures LoginAs(DeleteContact(m, peer).model, m.token, m.conn == Online)
  {
  }

  lemma LoadLogin(m: Model, peer: Key, found: KvAnswer)
    ensures LoginAs(LoadedMessages(m, peer, found).model, m.token, m.conn == Online)
  {
  }

  lemma UserLogin(m: Model, e: Event, env: Env)
    requires ByUser(e) || e.Loaded?
    ensures LoginAs(Apply(m, e, env).model, m.token, m.conn == Online)
  {
    match e
    case WriteText(chat, body, id) => WriteLogin(m, chat, body, id, env);
    case EditProfile(profile, peers) => ProfileLogin(m, profile, peers, env);
    case Add(who) => AddLogin(m, who);
    case Block(peer, blocked) => BlockLogin(m, peer, blocked);
    case Delete(peer) => DeleteLogin(m, peer);
    case Loaded(peer, found) => LoadLogin(m, peer, found);
  }

  lemma SwitchLogin(m: Model, url: Option<Url>, env: Env)
    ensures LoginAs(SetServerUrl(m, url, env).model, if url.Some? then None else m.token, url.None? && m.conn == Online)
  {
    if url.Some? { ReconnectLogin(AbandonAuth(Switched(m, url.value)), env); }
  }

  lemma WatchLogin(m: Model, gen: nat, env: Env)
    ensures LoginAs(AuthWatchdog(m, gen, env).model, m.token, m.conn == Online && (gen != m.authGen || !m.authenticating || !m.identity))
    ensures LoginAs(PollWatchdog(m, gen, env).model, m.token,
                    m.conn == Online && (gen != m.pollGen || !m.polling || OnlineUnlessPoll(AbandonPoll(m), env)))
    ensures LoginAs(FlushWatchdog(m, gen, env).model, m.token, m.conn == Online)
  {
    AuthLogin(AbandonAuth(m), env);
    PollLogin(AbandonPoll(m), env);
    FlushLogin(AbandonFlush(m), env);
  }

  lemma AuthWatchLogin(m: Model, e: Event, env: Env)
    requires e.AuthWatch? && m.identity
    ensures LoginIs(m, e, env, Apply(m, e, env).model)
  {
    WatchLogin(m, e.gen, env);
  }

  lemma PollWatchLogin(m: Model, e: Event, env: Env)
    requires e.PollWatch? && m.identity
    ensures LoginIs(m, e, env, Apply(m, e, env).model)
  {
    WatchLogin(m, e.gen, env);
  }

  lemma PollerLogin(m: Model, e: Event, env: Env)
    requires (e.PollTimer? || e.CursorSaved?) && m.identity
    ensures LoginIs(m, e, env, Apply(m, e, env).model)
  {
    PollLogin(m, env);
  }

  lemma TimerLogin(m: Model, e: Event, env: Env)
    requires !ByUser(e) && !e.Loaded? && !Answers(e) && m.identity
    ensures LoginIs(m, e, env, Apply(m, e, env).model)
  {
    if e.PollTimer? || e.CursorSaved? {
      PollerLogin(m, e, env);
    } else if e.AuthWatch? {
      AuthWatchLogin(m, e, env);
    } else if e.PollWatch? {
      PollWatchLogin(m, e, env);
    } else if e.FlushWatch? {
      WatchLogin(m, e.gen, env);
    } else if e.Switch? {
      SwitchLogin(m, e.to, env);
    } else if e.Foreground? {
      ReconnectLogin(AbandonAuth(m), env);
    } else {
      AuthLogin(m, env);
      FlushLogin(m, env);
    }
  }

  lemma ChallengeLogin(m: Model, e: Event, env: Env)
    requires e.GotChallenge? && m.identity
    ensures LoginIs(m, e, env, Apply(m, e, env).model)
  {
  }

  lemma InstalledLogin(m: Model, token: Option<Token>, env: Env)
    requires token.Some?
    ensures var m1 := m.(authenticating := false, token := token, conn := Online);
      LoginAs(FlushNext(StartPoll(m1, env).model, env).model, token, m.polling || env.builds)
  {
    var m1 := m.(authenticating := false, token := token, conn := Online);
    PollLogin(m1, env);
    FlushLogin(StartPoll(m1, env).model, env);
  }

  lemma TokenLogin(m: Model, gen: nat, token: Option<Token>, env: Env)
    ensures LoginAs(VerifyResult(m, gen, token, env).model,
                    if gen == m.authGen && token.Some? && token.value != "" then token else m.token,
                    if gen != m.authGen then m.conn == Online else token.Some? && token.value != "" && (m.polling || env.builds))
  {
    if gen == m.authGen && token.Some? && token.value != "" { InstalledLogin(m, token, env); }
  }

  lemma AfterPageLogin(m: Model, prev: int, keys: seq<string>, env: Env)
    ensures LoginAs(AfterPage(m, prev, keys, env).model, m.token, m.conn == Online && (m.cursor != prev || OnlineUnlessPoll(m, env)))
  {
    FlushLogin(m, env);
    PollLogin(FlushNext(m, env).model, env);
  }

  lemma IngestLogin(m: Model, e: Event, env: Env)
    requires m.identity && Ingests(m, e) && var m1 := e.page.ingested;
      && !m1.polling && m1.token == m.token && m1.conn == m.conn && m1.authenticating == m.authenticating && m1.identity == m.identity
    ensures LoginIs(m, e, env, Apply(m, e, env).model)
  {
    AfterPageLogin(e.page.ingested, m.cursor, e.page.trail.keys, env);
  }

  lemma RefusedPollLogin(m: Model, e: Event, env: Env)
    requires m.identity && e.GotPage? && TokenRefused(m, e)
    ensures LoginIs(m, e, env, Apply(m, e, env).model)
  {
    AuthLogin(m.(polling := false, token := None), env);
  }

  lemma NoPageLogin(m: Model, e: Event, env: Env)
    requires m.identity && e.GotPage? && !Ingests(m, e) && !TokenRefused(m, e)
    ensures LoginIs(m, e, env, Apply(m, e, env).model)
  {
  }

  lemma PageLogin(m: Model, e: Event, env: Env)
    requires m.identity && e.GotPage? && (Ingests(m, e) ==> var m1 := e.page.ingested;
      && !m1.polling && m1.token == m.token && m1.conn == m.conn && m1.authenticating == m.authenticating && m1.identity == m.identity)
    ensures LoginIs(m, e, env, Apply(m, e, env).model)
  {
    if Ingests(m, e) {
      IngestLogin(m, e, env);
    } else if TokenRefused(m, e) {
      RefusedPollLogin(m, e, env);
    } else {
      NoPageLogin(m, e, env);
    }
  }

  lemma RetryLogin(m: Model, batch: Option<InFlight>, env: Env)
    ensures LoginAs(RetryBatch(m, batch, env).model, m.token, m.conn == Online)
  {
    var n := Head(m, batch);
    FlushLogin(m.(outbox := Charge(m.outbox[..n], env.now) + m.outbox[n..]), env);
  }

  lemma AcceptedLogin(m: Model, n: nat, env: Env)
    requires n <= |m.outbox|
    ensures var m1 := m.(sendRetries := 0, outbox := if m.kvFailed then m.outbox else m.outbox[n..]);
      LoginAs(FlushNext(m1, env).model, m.token, m.conn == Online)
  {
    FlushLogin(m.(sendRetries := 0, outbox := if m.kvFailed then m.outbox else m.outbox[n..]), env);
  }

  lemma SplitLogin(m: Model, budget: nat, env: Env)
    ensures LoginAs(FlushNext(m.(budget := Some(budget)), env).model, m.token, m.conn == Online)
  {
    FlushLogin(m.(budget := Some(budget)), env);
  }

  lemma RefusedLogin(m: Model, env: Env)
    ensures LoginAs(Authenticate(m.(token := None), env).model, None, OnlineUnlessAuth(m))
  {
    AuthLogin(m.(token := None), env);
  }

  lemma SettledLogin(m: Model, batch: Option<InFlight>, a: SendAnswer, env: Env)
    requires a.SendStatus? && Accepted(a.code)
    ensures LoginAs(Settle(m, batch, a, env).model, m.token, m.conn == Online)
  {
    AcceptedLogin(m, Head(m, batch), env);
  }

  lemma ChargedLogin(m: Model, batch: Option<InFlight>, a: SendAnswer, env: Env)
    requires Charges(a, batch)
    ensures LoginAs(Settle(m, batch, a, env).model, m.token, m.conn == Online)
  {
    RetryLogin(m, batch, env);
    assert Settle(m, batch, a, env) == RetryBatch(m, batch, env);
  }

  lemma HeldBackLogin(m: Model, batch: Option<InFlight>, a: SendAnswer, env: Env)
    requires !Charges(a, batch) && !Accepted(a.code)
    ensures LoginAs(Settle(m, batch, a, env).model, if a.code == 401 then None else m.token,
                    if a.code == 401 then OnlineUnlessAuth(m) else m.conn == Online)
  {
    if a.code == 401 { RefusedLogin(m, env); } else if a.code != 429 { SplitLogin(m, batch.value.bytes / 2, env); }
  }

  lemma SettleLogin(m: Model, batch: Option<InFlight>, a: SendAnswer, env: Env)
    ensures var refused := a.SendStatus? && a.code == 401;
      LoginAs(Settle(m, batch, a, env).model, if refused then None else m.token, if refused then OnlineUnlessAuth(m) else m.conn == Online)
  {
    if Charges(a, batch) {
      ChargedLogin(m, batch, a, env);
    } else if Accepted(a.code) {
      SettledLogin(m, batch, a, env);
    } else {
      HeldBackLogin(m, batch, a, env);
    }
  }

  lemma AnswerLogin(m: Model, e: Event, env: Env)
    requires m.identity && Answers(e) && (Ingests(m, e) ==> var m1 := e.page.ingested;
      && !m1.polling && m1.token == m.token && m1.conn == m.conn && m1.authenticating == m.authenticating && m1.identity == m.identity)
    ensures LoginIs(m, e, env, Apply(m, e, env).model)
  {
    match e
    case GotChallenge(_, _) => ChallengeLogin(m, e, env);
    case GotToken(q, token) => TokenLogin(m, q.gen, token, env);
    case GotPage(_, _) => PageLogin(m, e, env);
    case GotReceipt(q, a) => SettleLogin(m.(flushing := false, inFlight := None), m.inFlight, a, env);
  }

  lemma UserLoginIs(m: Model, e: Event, env: Env)
    requires ByUser(e) || e.Loaded?
    ensures LoginIs(m, e, env, Apply(m, e, env).model)
  {
    UserLogin(m, e, env);
  }

  lemma ApplyLogin(w: World, e: Event, env: Env)
    requires WInv(w) && Legal(w, e, env)
    ensures LoginIs(w.m, e, env, Apply(w.m, e, env).model)
  {
    if ByUser(e) || e.Loaded? {
      UserLoginIs(w.m, e, env);
    } else if !Answers(e) {
      TimerLogin(w.m, e, env);
    } else {
      LaterReady(w, env.now);
      if Ingests(w.m, e) { PageReadies(w.m, e.page, env); }
      AnswerLogin(w.m, e, env);
    }
  }

  /** In any run the client has exactly the token it was given last, unless it has moved to
      another relay or the token was refused; and it counts as online exactly from a token on
      until something fails or a login is started. */
  lemma LoginIsExact(ws: seq<World>, acts: seq<Act>, i: nat)
    requires Run(ws, acts) && i < |acts|
    ensures LoginIs(ws[i].m, acts[i].event, acts[i].env, ws[i + 1].m)
  {
    AlwaysInv(ws, acts, i);
    assert StepAt(ws, acts, i);
    ApplyLogin(ws[i], acts[i].event, acts[i].env);
  }
}

/** What one step does to the queue, the contacts and the conversations. */
module ClientProgress {
  import opened Conversations
  import opened ClientModel
  import opened ClientOutbox
  import opened ClientWorld
  import opened ClientIngest
  import opened ClientSteps
  import P = Payloads

  predicate CutsOff(e: Event) { (e.Block? && e.blocked) || e.Delete? }

  predicate Broadcasts(e: Event) { e.EditProfile? && e.profile.Profile? && P.Acceptable(e.profile) }

  predicate Receipt(m: Model, e: Event) { e.GotReceipt? && e.q.gen == m.flushGen }

  /** A live send whose failure is charged to its items. */
  predicate Fails(m: Model, e: Event) {
    && Receipt(m, e) && m.inFlight.Some?
    && (e.receipt.SendFailed?
        || (var code := e.receipt.code;
            !(200 <= code < 300) && code !in {400, 401, 429} && !(code == 413 && m.inFlight.value.count > 1)))
  }

  /** A live send the relay accepted, or rejected for good. */
  predicate Finishes(m: Model, e: Event) {
    Receipt(m, e) && e.receipt.SendStatus? && (200 <= e.receipt.code < 300 || e.receipt.code == 400)
  }

  /** A live send the relay found too big, of more than one item. */
  predicate Halves(m: Model, e: Event) {
    Receipt(m, e) && e.receipt.SendStatus? && e.receipt.code == 413 && m.inFlight.Some? && m.inFlight.value.count > 1
  }

  predicate Waits(m: Model, e: Event) { Receipt(m, e) && e.receipt.SendStatus? && e.receipt.code == 429 }

  function Doubled(n: nat): nat { if n == 0 then 1 else 2 * Doubled(n - 1) }

  /** How long a 429 stops sends: the seconds the relay names, up to five minutes, or three
      seconds doubled for each 429 in a row before it that named none, up to thirty. */
  function Wait(retryAfter: Option<nat>, inARow: nat): int {
    if retryAfter.Some? then Min(1000 * retryAfter.value, 300000)
    else Min(3000 * Doubled(if inARow < 4 then inARow else 4), 30000)
  }

  lemma WaitIs(retryAfter: Option<nat>, inARow: nat)
    ensures WaitMs(retryAfter, inARow) == Wait(retryAfter, inARow) <= MAX_RETRY_AFTER_MS
  {
    assert Doubled(1) == 2 && Doubled(2) == 4 && Doubled(3) == 8 && Doubled(4) == 16;
  }

  /** Equal but for the loops, and for what a flush does to the queue. */
  ghost predicate SameCore(a: Model, b: Model, env: Env) {
    && b.identity == a.identity && b.me == a.me && b.profile == a.profile && b.kvFailed == a.kvFailed
    && b.contacts == a.contacts && b.messages == a.messages && b.seen == a.seen && b.pushed == a.pushed
    && b.url == a.url && b.cursor == a.cursor && b.budget == a.budget && b.pausedUntil == a.pausedUntil
    && b.sendRetries == a.sendRetries
    && Flushed(a.outbox, b.outbox, env)
  }

  lemma FlushCore(m: Model, env: Env)
    ensures SameCore(m, FlushNext(m, env).model, env)
  {
    FlushIsFlushed(m, env);
    FlushShape(m, env);
  }

  lemma AuthCore(m: Model, env: Env)
    ensures SameCore(m, Authenticate(m, env).model, env) && Authenticate(m, env).model.outbox == m.outbox
  {
  }

  lemma PollCore(m: Model, env: Env)
    ensures SameCore(m, StartPoll(m, env).model, env) && StartPoll(m, env).model.outbox == m.outbox
  {
    if !m.polling && m.token.None? { AuthCore(m, env); }
  }

  lemma ConnectCore(m: Model, env: Env)
    ensures SameCore(m, Connect(m, env).model, env)
  {
    var m1 := AbandonAuth(m);
    if m1.kvFailed || !m1.identity {
    } else if !m1.conn.Online? {
      AuthCore(m1, env);
    } else if !m1.polling {
      PollCore(m1, env);
    }
  }

  lemma SwitchCore(m: Model, url: Option<Url>, env: Env)
    ensures SameCore(if url.Some? then Switched(m, url.value) else m, SetServerUrl(m, url, env).model, env)
  {
    if url.Some? { ConnectCore(Switched(m, url.value), env); }
  }

  lemma WatchdogCore(m: Model, gen: nat, env: Env)
    ensures SameCore(m, AuthWatchdog(m, gen, env).model, env)
    ensures SameCore(m, PollWatchdog(m, gen, env).model, env)
  {
    AuthCore(AbandonAuth(m), env);
    PollCore(AbandonPoll(m), env);
  }

  lemma FlushWatchCore(m: Model, gen: nat, env: Env)
    ensures SameCore(m, FlushWatchdog(m, gen, env).model, env)
  {
    FlushCore(AbandonFlush(m), env);
  }

  lemma ChallengeCore(m: Model, gen: nat, a: ChallengeAnswer, env: Env)
    ensures SameCore(m, ChallengeResult(m, gen, a, env).model, env)
  {
    ChallengeShape(m, gen, a, env);
  }

  lemma ChallengeShape(m: Model, gen: nat, a: ChallengeAnswer, env: Env)
    ensures var m' := ChallengeResult(m, gen, a, env).model; m' == m.(authenticating := m'.authenticating, conn := m'.conn)
  {
  }

  lemma PollFlushCore(m: Model, env: Env)
    ensures SameCore(m, FlushNext(StartPoll(m, env).model, env).model, env)
  {
    PollCore(m, env);
    FlushCore(StartPoll(m, env).model, env);
  }

  lemma TokenCore(m: Model, gen: nat, token: Option<Token>, env: Env)
    ensures SameCore(m, VerifyResult(m, gen, token, env).model, env)
  {
    var m' := VerifyResult(m, gen, token, env).model;
    if gen != m.authGen {
      assert m' == m;
    } else if token.None? || token.value == "" {
      assert m' == m.(authenticating := false, conn := Offline);
    } else {
      var m1 := m.(authenticating := false, token := token, conn := Online);
      PollFlushCore(m1, env);
      assert m' == FlushNext(StartPoll(m1, env).model, env).model;
    }
  }

  lemma PageCore(m: Model, gen: nat, a: PollAnswer, env: Env)
    requires !(gen == m.pollGen && Folds(m, a))
    ensures SameCore(m, PollResult(m, gen, a, env).model, env)
  {
    if gen == m.pollGen && a.PollStatus? && a.code == 401 {
      AuthCore(m.(polling := false, token := None), env);
    } else {
      QuietPage(m, gen, a, env);
    }
  }

  lemma QuietPage(m: Model, gen: nat, a: PollAnswer, env: Env)
    requires !(gen == m.pollGen && Folds(m, a)) && !(gen == m.pollGen && a.PollStatus? && a.code == 401)
    ensures var m' := PollResult(m, gen, a, env).model; m' == m.(polling := m'.polling, conn := m'.conn)
  {
  }

  lemma IngestCore(m: Model, gen: nat, a: PollAnswer, env: Env)
    requires gen == m.pollGen && Folds(m, a)
    ensures SameCore(a.ingested, PollResult(m, gen, a, env).model, env)
  {
    FlushCore(a.ingested, env);
    PollCore(FlushNext(a.ingested, env).model, env);
  }

  lemma RetryCore(m: Model, batch: InFlight, env: Env)
    ensures var n := Head(m, Some(batch));
      SameCore(m.(outbox := Charge(m.outbox[..n], env.now) + m.outbox[n..]), RetryBatch(m, Some(batch), env).model, env)
  {
    var n := Head(m, Some(batch));
    FlushCore(m.(outbox := Charge(m.outbox[..n], env.now) + m.outbox[n..]), env);
  }

  lemma FailCore(m: Model, e: Event, env: Env)
    requires Fails(m, e)
    ensures var n := Head(m, m.inFlight);
      SameCore(m.(outbox := Charge(m.outbox[..n], env.now) + m.outbox[n..]), SendResult(m, e.q.gen, e.receipt, env).model, env)
  {
    RetryCore(m.(flushing := false, inFlight := None), m.inFlight.value, env);
  }

  lemma FinishCore(m: Model, e: Event, env: Env)
    requires Finishes(m, e)
    ensures SameCore((if m.kvFailed then m else m.(outbox := m.outbox[Head(m, m.inFlight)..])).(sendRetries := 0),
                     SendResult(m, e.q.gen, e.receipt, env).model, env)
  {
    var items := if m.kvFailed then m.outbox else m.outbox[Head(m, m.inFlight)..];
    var m1 := m.(flushing := false, inFlight := None, sendRetries := 0, outbox := items);
    FinishIs(m, e, env, m1);
    FlushCore(m1, env);
  }

  lemma FinishIs(m: Model, e: Event, env: Env, m1: Model)
    requires Finishes(m, e)
    requires m1 == m.(flushing := false, inFlight := None, sendRetries := 0,
                      outbox := if m.kvFailed then m.outbox else m.outbox[Head(m, m.inFlight)..])
    ensures SendResult(m, e.q.gen, e.receipt, env).model == FlushNext(m1, env).model
  {
    var m0 := m.(flushing := false, inFlight := None);
    assert Head(m0, m.inFlight) == Head(m, m.inFlight);
  }

  lemma DetachedCore(m: Model, e: Event, env: Env)
    requires Receipt(m, e) && Charges(e.receipt, m.inFlight) && m.inFlight.None?
    ensures SameCore(m, SendResult(m, e.q.gen, e.receipt, env).model, env)
  {
  }

  lemma SplitCore(m: Model, e: Event, env: Env)
    requires Halves(m, e)
    ensures SameCore(m.(budget := Some(m.inFlight.value.bytes / 2)), SendResult(m, e.q.gen, e.receipt, env).model, env)
  {
    FlushCore(m.(flushing := false, inFlight := None, budget := Some(m.inFlight.value.bytes / 2)), env);
  }

  lemma ReauthCore(m: Model, e: Event, env: Env)
    requires Receipt(m, e) && e.receipt.SendStatus? && e.receipt.code == 401
    ensures SameCore(m, SendResult(m, e.q.gen, e.receipt, env).model, env)
  {
    AuthCore(m.(flushing := false, inFlight := None, token := None), env);
  }

  lemma PauseCore(m: Model, e: Event, env: Env)
    requires Waits(m, e)
    ensures SameCore(Pause(m, e.receipt.retryAfter, env.now), SendResult(m, e.q.gen, e.receipt, env).model, env)
  {
    assert SendResult(m, e.q.gen, e.receipt, env).model
        == Pause(m.(flushing := false, inFlight := None), e.receipt.retryAfter, env.now);
  }

  lemma AnswerCore(m: Model, e: Event, env: Env)
    requires Answers(e) && !Receipt(m, e) && !Ingests(m, e)
    ensures SameCore(m, Apply(m, e, env).model, env)
  {
    match e
    case GotChallenge(q, a) => ChallengeCore(m, q.gen, a, env);
    case GotToken(q, token) => TokenCore(m, q.gen, token, env);
    case GotPage(q, a) => PageCore(m, q.gen, a, env);
    case GotReceipt(q, a) =>
  }

  lemma WriteCore(m: Model, chat: Option<Key>, body: string, id: Id, env: Env)
    ensures SameCore(if Refused(m, chat, body) then m else Written(m, chat.value, body, id, env.now),
                     SendText(m, chat, body, id, env).model, env)
  {
    if !Refused(m, chat, body) { FlushCore(Written(m, chat.value, body, id, env.now), env); }
  }

  lemma EditCore(m: Model, profile: P.Payload, peers: seq<Key>, env: Env)
    ensures SameCore(if profile.Profile? && P.Acceptable(profile) then SupersedeAll(m.(profile := profile), Live(m), peers, env.now) else m,
                     SaveProfile(m, profile, peers, env).model, env)
  {
    if profile.Profile? && P.Acceptable(profile) {
      FlushCore(SupersedeAll(m.(profile := profile), Live(m), peers, env.now), env);
    }
  }

  lemma TimerCore(m: Model, e: Event, env: Env)
    requires !Answers(e) && !ByUser(e) && !e.Loaded? && !e.Switch?
    ensures SameCore(m, Apply(m, e, env).model, env)
  {
    match e
    case Foreground => ConnectCore(m, env);
    case AuthTimer => AuthCore(m, env);
    case PollTimer => PollCore(m, env);
    case FlushTimer => FlushCore(m, env);
    case AuthWatch(gen) => WatchdogCore(m, gen, env);
    case PollWatch(gen) => WatchdogCore(m, gen, env);
    case FlushWatch(gen) => FlushWatchCore(m, gen, env);
    case CursorSaved(_) => PollCore(m, env);
  }

  // ---- what a step without a page leaves alone ----

  predicate Moves(e: Event) { e.Switch? && e.to.Some? }

  /** Contacts and conversations are the same. */
  predicate SameBooks(m: Model, m': Model) { m'.contacts == m.contacts && m'.messages == m.messages }

  lemma ChargedBooks(m: Model, e: Event, env: Env)
    requires Receipt(m, e) && Charges(e.receipt, m.inFlight)
    ensures var m' := SendResult(m, e.q.gen, e.receipt, env).model; SameBooks(m, m') && m'.cursor == m.cursor
  {
    if m.inFlight.Some? { FailCore(m, e, env); } else { DetachedCore(m, e, env); }
  }

  lemma HeldBackBooks(m: Model, e: Event, env: Env)
    requires Receipt(m, e) && e.receipt.SendStatus? && (e.receipt.code == 401 || e.receipt.code == 429)
    ensures var m' := SendResult(m, e.q.gen, e.receipt, env).model; SameBooks(m, m') && m'.cursor == m.cursor
  {
    if e.receipt.code == 429 { PauseCore(m, e, env); } else { ReauthCore(m, e, env); }
  }

  lemma ReceiptBooks(m: Model, e: Event, env: Env)
    requires Receipt(m, e)
    ensures var m' := SendResult(m, e.q.gen, e.receipt, env).model; SameBooks(m, m') && m'.cursor == m.cursor
  {
    if Charges(e.receipt, m.inFlight) {
      ChargedBooks(m, e, env);
    } else if Finishes(m, e) {
      FinishCore(m, e, env);
    } else if Halves(m, e) {
      SplitCore(m, e, env);
    } else {
      HeldBackBooks(m, e, env);
    }
  }

  /** Answers that are no page, and timers, touch no contact, conversation or cursor. */
  lemma OtherBooks(m: Model, e: Event, env: Env)
    requires !ByUser(e) && !e.Loaded? && !Ingests(m, e)
    ensures var m' := Apply(m, e, env).model; SameBooks(m, m') && (!Moves(e) ==> m'.cursor == m.cursor)
  {
    if e.Switch? {
      SwitchCore(m, e.to, env);
    } else if !Answers(e) {
      TimerCore(m, e, env);
    } else if Receipt(m, e) {
      ReceiptBooks(m, e, env);
    } else {
      AnswerCore(m, e, env);
    }
  }

  lemma {:induction false} EditedBooks(m: Model, live: nat, peers: seq<Key>, ts: int)
    ensures var m' := SupersedeAll(m, live, peers, ts); SameBooks(m, m') && m'.cursor == m.cursor
  {
    if peers != [] { EditedBooks(m, live, peers[..|peers| - 1], ts); }
  }

  lemma ProfileBooks(m: Model, profile: P.Payload, peers: seq<Key>, env: Env)
    ensures var m' := SaveProfile(m, profile, peers, env).model; SameBooks(m, m') && m'.cursor == m.cursor
  {
    EditCore(m, profile, peers, env);
    EditedBooks(m.(profile := profile), Live(m), peers, env.now);
  }

  /** No ack watermark is set: each is as it was, or zero for a new contact. */
  ghost predicate Unmarked(m: Model, m': Model) {
    forall k :: k in m'.contacts ==>
      m'.contacts[k].lastAckTs == 0 || (k in m.contacts && m'.contacts[k].lastAckTs == m.contacts[k].lastAckTs)
  }

  lemma WrittenMarksNone(m: Model, e: Event, env: Env)
    requires e.WriteText?
    ensures var m' := SendText(m, e.chat, e.body, e.id, env).model; Unmarked(m, m') && m'.cursor == m.cursor
  {
    WriteCore(m, e.chat, e.body, e.id, env);
    if !Refused(m, e.chat, e.body) { FiledMarksNone(m, e.chat.value, e.body, e.id, env.now); }
  }

  lemma FiledMarksNone(m: Model, k: Key, body: string, id: Id, now: int)
    ensures var m' := Written(m, k, body, id, now); Unmarked(m, m') && m'.cursor == m.cursor
  {
  }

  lemma ContactsMarkNone(m: Model, e: Event, env: Env)
    requires e.Add? || e.Block? || e.Delete? || e.Loaded?
    ensures var m' := Apply(m, e, env).model; Unmarked(m, m') && m'.cursor == m.cursor
  {
    match e
    case Add(who) => AddMarksNone(m, who);
    case Block(peer, blocked) => FlagMarksNone(m, peer, blocked);
    case Delete(peer) => DeleteMarksNone(m, peer);
    case Loaded(peer, found) => LoadMarksNone(m, peer, found);
  }

  lemma DeleteMarksNone(m: Model, peer: Key)
    ensures var m' := DeleteContact(m, peer).model; Unmarked(m, m') && m'.cursor == m.cursor
  {
  }

  lemma LoadMarksNone(m: Model, peer: Key, found: KvAnswer)
    ensures var m' := LoadedMessages(m, peer, found).model; Unmarked(m, m') && m'.cursor == m.cursor
  {
  }

  lemma AddMarksNone(m: Model, who: Option<Key>)
    ensures var m' := AddContact(m, who).model; Unmarked(m, m') && m'.cursor == m.cursor
  {
  }

  lemma FlagMarksNone(m: Model, peer: Key, blocked: bool)
    ensures var m' := SetBlocked(m, peer, blocked).model; Unmarked(m, m') && m'.cursor == m.cursor
  {
  }

  lemma UserMarksNone(m: Model, e: Event, env: Env)
    requires ByUser(e) || e.Loaded?
    ensures var m' := Apply(m, e, env).model; Unmarked(m, m') && m'.cursor == m.cursor
  {
    if e.EditProfile? {
      ProfileBooks(m, e.profile, e.peers, env);
    } else if e.WriteText? {
      WrittenMarksNone(m, e, env);
    } else {
      ContactsMarkNone(m, e, env);
    }
  }

  /** Only a page that is folded in sets watermarks or raises the cursor. */
  lemma OnlyPagesMark(m: Model, e: Event, env: Env)
    requires !Ingests(m, e)
    ensures var m' := Apply(m, e, env).model; Unmarked(m, m') && (!Moves(e) ==> m'.cursor == m.cursor)
  {
    if ByUser(e) || e.Loaded? { UserMarksNone(m, e, env); } else { OtherBooks(m, e, env); }
  }

  // ---- what the state keeps ----

  lemma QueueReady(m: Model, m': Model, now: int)
    requires Ready(m, now) && OutInv(m')
    requires m'.contacts == m.contacts && m'.messages == m.messages && m'.seen == m.seen && m'.profile == m.profile
    ensures Ready(m', now)
  {
    forall k ensures PeerInv(PeerOf(m', k)) { assert PeerOf(m', k) == PeerOf(m, k); }
  }

  lemma AddReady(m: Model, who: Option<Key>, now: int)
    requires Ready(m, now)
    ensures Ready(AddContact(m, who).model, now)
  {
    if who.Some? && who.value != m.me && who.value !in m.contacts { NewContactKeeps(m, who.value, now); }
  }

  lemma ContactsReady(m: Model, contacts: map<Key, Contact>, items: seq<Item>, now: int)
    requires Ready(m, now) && Ascending(items) && forall x :: x in items ==> x in m.outbox && Reachable(contacts, x.recipient)
    requires forall k :: k in contacts ==> k in m.contacts && contacts[k].lastAckTs == m.contacts[k].lastAckTs
    ensures Ready(m.(contacts := contacts, outbox := items), now)
  {
    var m' := m.(contacts := contacts, outbox := items);
    forall x | x in items ensures GoodItem(contacts, m.pushed, x) { assert GoodItem(m.contacts, m.pushed, x); }
    forall k ensures PeerInv(PeerOf(m', k)) { assert PeerOf(m', k) == PeerOf(m, k); }
  }

  lemma SparedReady(m: Model, contacts: map<Key, Contact>, peer: Key, now: int)
    requires Ready(m, now) && forall k :: k in m.contacts && k != peer ==> k in contacts && contacts[k] == m.contacts[k]
    requires forall k :: k in contacts ==> k in m.contacts && contacts[k].lastAckTs == m.contacts[k].lastAckTs
    ensures Ready(m.(contacts := contacts, outbox := Sparing(m.outbox, peer)), now)
  {
    SparingMembers(m.outbox, peer);
    SparingAscends(m.outbox, peer);
    forall x | x in Sparing(m.outbox, peer) ensures x in m.outbox && Reachable(contacts, x.recipient) {
      assert GoodItem(m.contacts, m.pushed, x);
    }
    ContactsReady(m, contacts, Sparing(m.outbox, peer), now);
  }

  lemma BlockReady(m: Model, peer: Key, now: int)
    requires Ready(m, now)
    ensures Ready(SetBlocked(m, peer, true).model, now)
  {
    var contacts := Flag(m.contacts, peer, true);
    SparedReady(m, contacts, peer, now);
    QueueReady(m.(contacts := contacts, outbox := Sparing(m.outbox, peer)), SetBlocked(m, peer, true).model, now);
  }

  lemma UnblockReady(m: Model, peer: Key, now: int)
    requires Ready(m, now)
    ensures Ready(SetBlocked(m, peer, false).model, now)
  {
    var m' := SetBlocked(m, peer, false).model;
    forall x | x in m.outbox ensures Reachable(m'.contacts, x.recipient) { assert GoodItem(m.contacts, m.pushed, x); }
    ContactsReady(m, m'.contacts, m.outbox, now);
  }

  lemma DeleteReady(m: Model, peer: Key, now: int)
    requires Ready(m, now)
    ensures Ready(DeleteContact(m, peer).model, now)
  {
    var m' := DeleteContact(m, peer).model;
    SparedReady(m, m.contacts - {peer}, peer, now);
    forall k ensures PeerInv(PeerOf(m', k)) {
      assert PeerOf(m', k) == if k == peer then Peer(None, None) else PeerOf(m, k);
    }
  }

  lemma EditReady(m: Model, profile: P.Payload, peers: seq<Key>, now: int)
    requires Ready(m, now) && profile.Profile? && P.Acceptable(profile) && Audience(m, peers) && Live(m) <= |m.outbox|
    ensures Ready(SupersedeAll(m.(profile := profile), Live(m), peers, now), now)
    ensures Superseded(m.(profile := profile), Live(m), SupersedeAll(m.(profile := profile), Live(m), peers, now))
  {
    var m0 := m.(profile := profile);
    forall k ensures PeerInv(PeerOf(m0, k)) { assert PeerOf(m0, k) == PeerOf(m, k); }
    SupersedeAllKeeps(m0, Live(m), peers, now);
    QueueReady(m0, SupersedeAll(m0, Live(m), peers, now), now);
  }

  lemma FiledReady(m: Model, k: Key, x: StoredMessage, now: int)
    requires Ready(m, now) && x.outgoing
    ensures Ready(m.(messages := m.messages[k := Wrote(PeerOf(m, k), x).convo.value]), now)
  {
    var m' := m.(messages := m.messages[k := Wrote(PeerOf(m, k), x).convo.value]);
    WroteKeeps(PeerOf(m, k), x);
    assert PeerOf(m', k) == Wrote(PeerOf(m, k), x);
    forall j ensures PeerInv(PeerOf(m', j)) { assert j != k ==> PeerOf(m', j) == PeerOf(m, j); }
  }

  lemma WrittenReady(m: Model, k: Key, body: string, id: Id, now: int)
    requires Ready(m, now) && !Refused(m, Some(k), body) && P.ByteLen(id) <= P.MAX_ID_LEN
    ensures Ready(Written(m, k, body, id, now), now)
  {
    var x := StoredMessage(id, body, now, true, false);
    FiledReady(m, k, x, now);
    var m0 := m.(messages := m.messages[k := Wrote(PeerOf(m, k), x).convo.value]);
    if k in m.contacts {
      PushReady(m0, k, P.Text(id, body), now, now);
    } else {
      FirstTextReady(m0, k, P.Text(id, body), now);
    }
  }

  /** A text to a new key: text, contact, profile, in that order. */
  lemma FirstTextReady(m: Model, k: Key, text: P.Payload, now: int)
    requires Ready(m, now) && k !in m.contacts && P.Acceptable(text)
    ensures var m1 := Push(m, k, text, now);
      Ready(Push(m1.(contacts := m1.contacts[k := NEWCOMER]), k, m.profile, now), now)
  {
    var m1 := Push(m, k, text, now);
    var met := m.(contacts := m.contacts[k := NEWCOMER]);
    NewContactKeeps(m, k, now);
    PushReady(met, k, text, now, now);
    assert Push(met, k, text, now) == m1.(contacts := m1.contacts[k := NEWCOMER]);
    PushReady(Push(met, k, text, now), k, m.profile, now, now);
  }

  lemma LoadReady(m: Model, k: Key, found: KvAnswer, now: int)
    requires Ready(m, now) && (found.KvFound? ==> Storable(found.list))
    ensures Ready(LoadedMessages(m, k, found).model, now)
  {
    var m' := LoadedMessages(m, k, found).model;
    if found.KvFound? {
      MergedKeeps(PeerOf(m, k), found.list);
      assert PeerOf(m', k) == Merged(PeerOf(m, k), found.list);
    }
    forall j ensures PeerInv(PeerOf(m', j)) {
      if j != k || !found.KvFound? { assert PeerOf(m', j) == PeerOf(m, j); }
    }
  }

  lemma FailReady(m: Model, now: int)
    requires Ready(m, now)
    ensures Ready(m.(outbox := Charge(m.outbox[..Head(m, m.inFlight)], now) + m.outbox[Head(m, m.inFlight)..]), now)
    ensures Ready(m.(outbox := m.outbox[Head(m, m.inFlight)..]), now)
  {
    var n := Head(m, m.inFlight);
    ChargedQueue(m, n, now);
    QueueReady(m, m.(outbox := Charge(m.outbox[..n], now) + m.outbox[n..]), now);
    GoodSlice(m.contacts, m.pushed, m.outbox, n);
    QueueReady(m, m.(outbox := m.outbox[n..]), now);
  }

  lemma PageReadies(m: Model, a: PollAnswer, env: Env)
    requires Ready(m, env.now) && Folds(m, a) && GoodAnswer(m, a, env) && ReadablePage(a.events)
    ensures Ready(a.ingested, env.now) && Grown(m.(polling := false, cursor := a.ingested.cursor), a.ingested)
    ensures a.ingested.cursor == NextCursor(m.cursor, a.cursor, a.events, env.now)
    ensures forall k :: k in m.contacts ==> k in a.ingested.contacts && m.contacts[k].lastAckTs <= a.ingested.contacts[k].lastAckTs
  {
    var m0 := m.(polling := false);
    forall k ensures PeerInv(PeerOf(m0, k)) { assert PeerOf(m0, k) == PeerOf(m, k); }
    IngestedKeeps(m0, a.cursor, a.events, env.now, a.trail, a.ingested);
  }

  // ---- one whole step ----

  lemma LaterReady(w: World, now: int)
    requires StateInv(w.m, w.clock) && w.clock <= now && P.IsI64(now + MAX_FUTURE_SKEW_MS)
    ensures Ready(w.m, now)
  {
  }

  /** One more failure is the item's tenth, or it was first tried more than a day ago. */
  predicate WornOut(x: Item, now: int) {
    x.retries + 1 >= 10 || (x.firstAttempt > 0 && now - x.firstAttempt > 86400000)
  }

  /** Why an item may leave the queue: a request carrying it was accepted or rejected for
      good, its last retry was charged, its peer was cut off, or its recipient's key cannot
      be encrypted to. */
  ghost predicate Reason(m: Model, e: Event, env: Env, x: Item) {
    || (Finishes(m, e) && !m.kvFailed && e.q.SendReq? && x in e.q.carried)
    || (Fails(m, e) && e.q.SendReq? && x in e.q.carried && WornOut(x, env.now))
    || (CutsOff(e) && x.recipient == e.peer)
    || !env.usable(x.recipient)
  }

  /** Relay, cursor, budget, pause, backoff and storage latch change only as the step says. */
  predicate Limits(m: Model, e: Event, env: Env, m': Model) {
    && m'.identity == m.identity
    && m'.kvFailed == (m.kvFailed || (e.Loaded? && e.found.KvFailed?))
    && m'.url == (if Moves(e) then e.to.value else m.url)
    && (if Moves(e) then m'.cursor == 0 else m.cursor <= m'.cursor && (m'.cursor == m.cursor || m'.cursor <= env.now + 60000))
    && m'.budget == (if Moves(e) then None else if Halves(m, e) then Some(m.inFlight.value.bytes / 2) else m.budget)
    && m'.pausedUntil == (if Moves(e) then 0
                          else if Waits(m, e) then env.now + Wait(e.receipt.retryAfter, m.sendRetries) else m.pausedUntil)
    && m'.sendRetries == (if Moves(e) || Finishes(m, e) then 0
                          else m.sendRetries + if Waits(m, e) && e.receipt.retryAfter.None? then 1 else 0)
  }

  /** Only a delete takes a contact away, and no ack watermark falls. */
  ghost predicate MarksRise(m: Model, e: Event, m': Model) {
    forall k :: k in m.contacts && !(e.Delete? && e.peer == k) ==>
      k in m'.contacts && m.contacts[k].lastAckTs <= m'.contacts[k].lastAckTs
  }

  ghost predicate Queue(m: Model, e: Event, env: Env, m': Model) {
    && OnlyOld(m, m') && Descends(m.outbox, m.pushed, m'.outbox)
    && (forall x :: x in m.outbox && !HasId(m'.outbox, x.id) ==> Reason(m, e, env, x))
    && Patience(m'.outbox) + (if Fails(m, e) then 1 else 0) <= Patience(m.outbox) + MAX_OUTBOX_RETRIES * (m'.pushed - m.pushed)
  }

  /** All a step does to the state, whatever the step. */
  ghost predicate Progress(m: Model, e: Event, env: Env, m': Model) {
    Ready(m', env.now) && Limits(m, e, env, m') && MarksRise(m, e, m') && Queue(m, e, env, m')
  }

  /** What a flush drops was queued before under the same recipient, whose key is unusable:
      every queued payload is short enough. */
  lemma DroppedIsUnusable(m: Model, env: Env, a: Model, x: Item, z: Item)
    requires OutInv(m) && OutInv(a) && Encrypts(env) && Descends(m.outbox, m.pushed, a.outbox)
    requires x in m.outbox && z in a.outbox && z.id == x.id && env.weigh(z).None?
    ensures !env.usable(x.recipient)
  {
    assert GoodItem(m.contacts, m.pushed, x) && GoodItem(a.contacts, a.pushed, z);
    var y :| y in m.outbox && SameItem(y, z);
    IdUnique(m.outbox, x, y);
  }

  lemma QueueFlush(m: Model, e: Event, env: Env, a: Model, b: Model)
    requires OutInv(m) && OutInv(a) && Encrypts(env)
    requires Queue(m, e, env, a) && SameCore(a, b, env)
    ensures Queue(m, e, env, b)
  {
    FlushedPatience(a.outbox, b.outbox, env);
    FlushedDescends(a.outbox, b.outbox, env, a.pushed);
    DescendsTrans(m.outbox, m.pushed, a.outbox, a.pushed, b.outbox);
    forall id: nat | HasId(b.outbox, id) ensures HasId(a.outbox, id) { FlushedIds(a.outbox, b.outbox, env, id); }
    forall x | x in m.outbox && !HasId(b.outbox, x.id) ensures Reason(m, e, env, x) {
      if HasId(a.outbox, x.id) {
        FlushedIds(a.outbox, b.outbox, env, x.id);
        var z :| z in a.outbox && z.id == x.id && env.weigh(z).None?;
        DroppedIsUnusable(m, env, a, x, z);
      }
    }
  }

  /** A flush after the step's own change changes none of it. */
  lemma ThenFlush(m: Model, e: Event, env: Env, a: Model, b: Model)
    requires OutInv(m) && Encrypts(env) && Progress(m, e, env, a) && SameCore(a, b, env)
    ensures Progress(m, e, env, b)
  {
    FlushedKeeps(a.outbox, b.outbox, env, a.contacts, a.pushed);
    QueueReady(a, b, env.now);
    QueueFlush(m, e, env, a, b);
  }

  /** A step that leaves the queue alone. */
  lemma KeepProgress(m: Model, e: Event, env: Env, m': Model)
    requires Ready(m', env.now) && Limits(m, e, env, m') && MarksRise(m, e, m') && !Fails(m, e)
    requires m'.outbox == m.outbox && m'.pushed == m.pushed
    ensures Progress(m, e, env, m')
  {
    assert forall x :: x in m.outbox ==> HasId(m'.outbox, x.id);
    DescendsFrom(m.outbox, m.pushed, m'.outbox);
  }

  lemma GrownQueue(m: Model, e: Event, env: Env, m': Model)
    requires !Fails(m, e) && m.outbox <= m'.outbox && m'.pushed == m.pushed + |m'.outbox| - |m.outbox|
    requires forall i :: |m.outbox| <= i < |m'.outbox| ==> m'.outbox[i].id >= m.pushed
    ensures Queue(m, e, env, m')
  {
    var more := m'.outbox[|m.outbox|..];
    assert m'.outbox == m.outbox + more;
    PatienceConcat(m.outbox, more);
    PatienceCap(more);
    forall x | x in m.outbox ensures HasId(m'.outbox, x.id) { assert x in m'.outbox; }
    forall id: nat | id < m.pushed && HasId(m'.outbox, id) ensures HasId(m.outbox, id) {
      var x :| x in m'.outbox && x.id == id;
      var i :| 0 <= i < |m'.outbox| && m'.outbox[i] == x;
      assert m.outbox[i] in m.outbox;
    }
    forall y | y in m'.outbox && y.id < m.pushed ensures y in m.outbox {
      var i :| 0 <= i < |m'.outbox| && m'.outbox[i] == y;
      assert m.outbox[i] in m.outbox;
    }
    DescendsFrom(m.outbox, m.pushed, m'.outbox);
  }

  lemma CutQueue(m: Model, e: Event, env: Env, m': Model)
    requires CutsOff(e) && m'.outbox == Sparing(m.outbox, e.peer) && m'.pushed == m.pushed
    ensures Queue(m, e, env, m')
  {
    SparingMembers(m.outbox, e.peer);
    PatienceSparing(m.outbox, e.peer);
    DescendsFrom(m.outbox, m.pushed, m'.outbox);
    forall x | x in m.outbox && !HasId(m'.outbox, x.id) ensures Reason(m, e, env, x) {
      assert x.recipient != e.peer ==> x in m'.outbox;
    }
  }

  lemma FailQueue(w: World, e: Event, env: Env, m': Model)
    requires WInv(w) && Fails(w.m, e) && e.q in w.net && e.q.SendReq?
    requires var n := Head(w.m, w.m.inFlight); m'.outbox == Charge(w.m.outbox[..n], env.now) + w.m.outbox[n..]
    requires m'.pushed == w.m.pushed
    ensures Queue(w.m, e, env, m')
  {
    var m := w.m;
    TheCarrier(w, e.q);
    var n := m.inFlight.value.count;
    ChargedFailureCosts(m, m.inFlight.value, env.now);
    ChargedDescends(m.outbox, n, env.now, m.pushed);
    forall x | x in m.outbox && !HasId(m'.outbox, x.id) ensures Reason(m, e, env, x) {
      ChargedLosses(m.outbox, n, env.now, x);
    }
    forall id: nat | HasId(m'.outbox, id) ensures HasId(m.outbox, id) { ChargedOld(m.outbox, n, env.now, id); }
  }

  lemma ChargedOld(items: seq<Item>, n: nat, now: int, id: nat)
    requires n <= |items| && HasId(Charge(items[..n], now) + items[n..], id)
    ensures HasId(items, id)
  {
    var x :| x in Charge(items[..n], now) + items[n..] && x.id == id;
    ChargeMembers(items[..n], now);
    if x in Charge(items[..n], now) {
      assert x.(retries := x.retries - 1) in items;
    } else {
      assert x in items;
    }
  }

  /** The live send is the one the batch on record is about. */
  lemma TheCarrier(w: World, q: Request)
    requires NetInv(w) && q in w.net && q.SendReq? && q.gen == w.m.flushGen
    ensures if w.m.inFlight.Some? then Carries(w.m, q) else Forgotten(w.m, q)
  {
    if w.m.inFlight.Some? {
      var r :| r in w.net && r.SendReq? && r.gen == w.m.flushGen && Carries(w.m, r);
      assert LoopOf(q) == LoopOf(r) && q == r;
    }
  }

  /** What is behind the first items of a queue is old, itself, and has no more retries left. */
  lemma RestIsOld(items: seq<Item>, n: nat, pushed: nat)
    requires n <= |items|
    ensures forall id :: HasId(items[n..], id) ==> HasId(items, id)
    ensures Patience(items[n..]) <= Patience(items) && Descends(items, pushed, items[n..])
  {
    assert items == items[..n] + items[n..];
    PatienceConcat(items[..n], items[n..]);
    DescendsFrom(items, pushed, items[n..]);
  }

  lemma FinishQueue(w: World, e: Event, env: Env, m': Model)
    requires WInv(w) && Finishes(w.m, e) && !w.m.kvFailed && e.q in w.net && e.q.SendReq?
    requires m'.outbox == w.m.outbox[Head(w.m, w.m.inFlight)..] && m'.pushed == w.m.pushed
    ensures Queue(w.m, e, env, m')
  {
    var n := Head(w.m, w.m.inFlight);
    FinishHead(w, e.q);
    RestIsOld(w.m.outbox, n, w.m.pushed);
    FinishLosses(w.m, n, m'.outbox, e.q, e, env);
  }

  lemma FinishHead(w: World, q: Request)
    requires NetInv(w) && q in w.net && q.SendReq? && q.gen == w.m.flushGen
    ensures var n := Head(w.m, w.m.inFlight); n <= |w.m.outbox| && (n > 0 ==> w.m.outbox[..n] == q.carried)
  {
    TheCarrier(w, q);
  }

  lemma FinishLosses(m: Model, n: nat, after: seq<Item>, q: Request, e: Event, env: Env)
    requires Finishes(m, e) && !m.kvFailed && e.q == q && q.SendReq? && n <= |m.outbox| && after == m.outbox[n..]
    requires n > 0 ==> m.outbox[..n] == q.carried
    ensures forall x :: x in m.outbox && !HasId(after, x.id) ==> Reason(m, e, env, x)
  {
    forall x | x in m.outbox && !HasId(after, x.id) ensures Reason(m, e, env, x) {
      assert x !in after && m.outbox == m.outbox[..n] + after;
    }
  }

  lemma EditQueue(m: Model, e: Event, env: Env, m': Model)
    requires Broadcasts(e) && Live(m) <= |m.outbox| && Superseded(m.(profile := e.profile), Live(m), m')
    ensures Queue(m, e, env, m')
  {
    forall x | x in m.outbox ensures HasId(m'.outbox, x.id) { assert HasId(m.(profile := e.profile).outbox, x.id); }
  }

  // ---- event by event ----

  lemma AddShape(m: Model, who: Option<Key>)
    ensures var m' := AddContact(m, who).model;
      m' == m.(contacts := m'.contacts) && forall k :: k in m.contacts ==> k in m'.contacts && m'.contacts[k] == m.contacts[k]
  {
  }

  lemma AddProgress(m: Model, e: Event, env: Env)
    requires Ready(m, env.now) && e.Add?
    ensures Progress(m, e, env, AddContact(m, e.who).model)
  {
    var m' := AddContact(m, e.who).model;
    AddReady(m, e.who, env.now);
    AddShape(m, e.who);
    KeepProgress(m, e, env, m');
  }

  lemma BlockProgress(m: Model, e: Event, env: Env)
    requires Ready(m, env.now) && e.Block? && e.blocked
    ensures Progress(m, e, env, SetBlocked(m, e.peer, true).model)
  {
    BlockReady(m, e.peer, env.now);
    CutQueue(m, e, env, SetBlocked(m, e.peer, true).model);
  }

  lemma UnblockProgress(m: Model, e: Event, env: Env)
    requires Ready(m, env.now) && e.Block? && !e.blocked
    ensures Progress(m, e, env, SetBlocked(m, e.peer, false).model)
  {
    UnblockReady(m, e.peer, env.now);
    KeepProgress(m, e, env, SetBlocked(m, e.peer, false).model);
  }

  lemma DeleteProgress(m: Model, e: Event, env: Env)
    requires Ready(m, env.now) && e.Delete?
    ensures Progress(m, e, env, DeleteContact(m, e.peer).model)
  {
    DeleteReady(m, e.peer, env.now);
    CutQueue(m, e, env, DeleteContact(m, e.peer).model);
  }

  lemma EditChange(w: World, e: Event, env: Env)
    requires WInv(w) && Legal(w, e, env) && Broadcasts(e)
    ensures Progress(w.m, e, env, SupersedeAll(w.m.(profile := e.profile), Live(w.m), e.peers, env.now))
  {
    var m1 := SupersedeAll(w.m.(profile := e.profile), Live(w.m), e.peers, env.now);
    LaterReady(w, env.now);
    LiveFits(w);
    EditReady(w.m, e.profile, e.peers, env.now);
    EditQueue(w.m, e, env, m1);
  }

  lemma EditProgress(w: World, e: Event, env: Env)
    requires WInv(w) && Legal(w, e, env) && e.EditProfile?
    ensures Progress(w.m, e, env, SaveProfile(w.m, e.profile, e.peers, env).model)
  {
    var m := w.m;
    LaterReady(w, env.now);
    EditCore(m, e.profile, e.peers, env);
    if Broadcasts(e) {
      EditChange(w, e, env);
      ThenFlush(m, e, env, SupersedeAll(m.(profile := e.profile), Live(m), e.peers, env.now),
                SaveProfile(m, e.profile, e.peers, env).model);
    } else {
      KeepProgress(m, e, env, m);
    }
  }

  lemma WrittenProgress(m: Model, e: Event, env: Env)
    requires Ready(m, env.now) && e.WriteText? && P.ByteLen(e.id) <= P.MAX_ID_LEN && !Refused(m, e.chat, e.body)
    ensures Progress(m, e, env, Written(m, e.chat.value, e.body, e.id, env.now))
  {
    WrittenReady(m, e.chat.value, e.body, e.id, env.now);
    WrittenGrows(m, e.chat.value, e.body, e.id, env.now);
    WrittenMarks(m, e.chat.value, e.body, e.id, env.now);
    GrownQueue(m, e, env, Written(m, e.chat.value, e.body, e.id, env.now));
  }

  lemma WriteProgress(m: Model, e: Event, env: Env)
    requires Encrypts(env) && Ready(m, env.now) && e.WriteText? && P.ByteLen(e.id) <= P.MAX_ID_LEN
    ensures Progress(m, e, env, SendText(m, e.chat, e.body, e.id, env).model)
  {
    WriteCore(m, e.chat, e.body, e.id, env);
    var m1 := if Refused(m, e.chat, e.body) then m else Written(m, e.chat.value, e.body, e.id, env.now);
    if Refused(m, e.chat, e.body) { KeepProgress(m, e, env, m); } else { WrittenProgress(m, e, env); }
    ThenFlush(m, e, env, m1, SendText(m, e.chat, e.body, e.id, env).model);
  }

  lemma WrittenMarks(m: Model, k: Key, body: string, id: Id, now: int)
    ensures forall j :: j in m.contacts ==> j in Written(m, k, body, id, now).contacts && Written(m, k, body, id, now).contacts[j] == m.contacts[j]
  {
  }

  lemma LoadProgress(m: Model, e: Event, env: Env)
    requires Ready(m, env.now) && e.Loaded? && (e.found.KvFound? ==> Storable(e.found.list))
    ensures Progress(m, e, env, LoadedMessages(m, e.peer, e.found).model)
  {
    LoadReady(m, e.peer, e.found, env.now);
    KeepProgress(m, e, env, LoadedMessages(m, e.peer, e.found).model);
  }

  lemma SwitchProgress(m: Model, e: Event, env: Env)
    requires Encrypts(env) && Ready(m, env.now) && e.Switch?
    ensures Progress(m, e, env, SetServerUrl(m, e.to, env).model)
  {
    SwitchCore(m, e.to, env);
    var m1 := if e.to.Some? then Switched(m, e.to.value) else m;
    QueueReady(m, m1, env.now);
    KeepProgress(m, e, env, m1);
    ThenFlush(m, e, env, m1, SetServerUrl(m, e.to, env).model);
  }

  lemma TimerProgress(m: Model, e: Event, env: Env)
    requires Encrypts(env) && Ready(m, env.now) && !Answers(e) && !ByUser(e) && !e.Loaded? && !e.Switch?
    ensures Progress(m, e, env, Apply(m, e, env).model)
  {
    KeepProgress(m, e, env, m);
    TimerCore(m, e, env);
    ThenFlush(m, e, env, m, Apply(m, e, env).model);
  }

  lemma PageProgress(m: Model, e: Event, env: Env)
    requires Encrypts(env) && Ready(m, env.now) && Ingests(m, e) && GoodAnswer(m, e.page, env) && ReadablePage(e.page.events)
    ensures Progress(m, e, env, PollResult(m, e.q.gen, e.page, env).model)
  {
    PageReadies(m, e.page, env);
    GrownQueue(m, e, env, e.page.ingested);
    IngestCore(m, e.q.gen, e.page, env);
    ThenFlush(m, e, env, e.page.ingested, PollResult(m, e.q.gen, e.page, env).model);
  }

  lemma FailChange(w: World, e: Event, env: Env, m1: Model)
    requires WInv(w) && Legal(w, e, env) && Fails(w.m, e)
    requires var n := Head(w.m, w.m.inFlight); m1 == w.m.(outbox := Charge(w.m.outbox[..n], env.now) + w.m.outbox[n..])
    ensures Progress(w.m, e, env, m1)
  {
    LaterReady(w, env.now);
    FailReady(w.m, env.now);
    FailQueue(w, e, env, m1);
  }

  lemma FailProgress(w: World, e: Event, env: Env)
    requires WInv(w) && Legal(w, e, env) && Fails(w.m, e)
    ensures Progress(w.m, e, env, SendResult(w.m, e.q.gen, e.receipt, env).model)
  {
    var n := Head(w.m, w.m.inFlight);
    var m1 := w.m.(outbox := Charge(w.m.outbox[..n], env.now) + w.m.outbox[n..]);
    FailChange(w, e, env, m1);
    FailCore(w.m, e, env);
    ThenFlush(w.m, e, env, m1, SendResult(w.m, e.q.gen, e.receipt, env).model);
  }

  lemma FinishChange(w: World, e: Event, env: Env, m1: Model)
    requires WInv(w) && Legal(w, e, env) && Finishes(w.m, e)
    requires m1 == (if w.m.kvFailed then w.m else w.m.(outbox := w.m.outbox[Head(w.m, w.m.inFlight)..])).(sendRetries := 0)
    ensures Progress(w.m, e, env, m1)
  {
    LaterReady(w, env.now);
    if w.m.kvFailed {
      QueueReady(w.m, m1, env.now);
      KeepProgress(w.m, e, env, m1);
    } else {
      FinishPops(w, e, env, m1);
    }
  }

  lemma FinishPops(w: World, e: Event, env: Env, m1: Model)
    requires WInv(w) && Ready(w.m, env.now) && Legal(w, e, env) && Finishes(w.m, e) && !w.m.kvFailed
    requires m1 == w.m.(outbox := w.m.outbox[Head(w.m, w.m.inFlight)..], sendRetries := 0)
    ensures Progress(w.m, e, env, m1)
  {
    FailReady(w.m, env.now);
    QueueReady(w.m.(outbox := w.m.outbox[Head(w.m, w.m.inFlight)..]), m1, env.now);
    FinishQueue(w, e, env, m1);
  }

  lemma FinishProgress(w: World, e: Event, env: Env)
    requires WInv(w) && Legal(w, e, env) && Finishes(w.m, e)
    ensures Progress(w.m, e, env, SendResult(w.m, e.q.gen, e.receipt, env).model)
  {
    var m1 := (if w.m.kvFailed then w.m else w.m.(outbox := w.m.outbox[Head(w.m, w.m.inFlight)..])).(sendRetries := 0);
    FinishChange(w, e, env, m1);
    FinishCore(w.m, e, env);
    ThenFlush(w.m, e, env, m1, SendResult(w.m, e.q.gen, e.receipt, env).model);
  }

  lemma HalveProgress(m: Model, e: Event, env: Env)
    requires Encrypts(env) && Ready(m, env.now) && Halves(m, e)
    ensures Progress(m, e, env, SendResult(m, e.q.gen, e.receipt, env).model)
  {
    var m1 := m.(budget := Some(m.inFlight.value.bytes / 2));
    QueueReady(m, m1, env.now);
    KeepProgress(m, e, env, m1);
    SplitCore(m, e, env);
    ThenFlush(m, e, env, m1, SendResult(m, e.q.gen, e.receipt, env).model);
  }

  lemma WaitProgress(m: Model, e: Event, env: Env)
    requires Encrypts(env) && Ready(m, env.now) && Waits(m, e)
    ensures Progress(m, e, env, SendResult(m, e.q.gen, e.receipt, env).model)
  {
    var m1 := Pause(m, e.receipt.retryAfter, env.now);
    WaitIs(e.receipt.retryAfter, m.sendRetries);
    QueueReady(m, m1, env.now);
    KeepProgress(m, e, env, m1);
    PauseCore(m, e, env);
    ThenFlush(m, e, env, m1, SendResult(m, e.q.gen, e.receipt, env).model);
  }

  lemma PlainReceipt(m: Model, e: Event, env: Env)
    requires Encrypts(env) && Ready(m, env.now) && Receipt(m, e) && !Fails(m, e) && !Finishes(m, e) && !Halves(m, e) && !Waits(m, e)
    ensures Progress(m, e, env, SendResult(m, e.q.gen, e.receipt, env).model)
  {
    KeepProgress(m, e, env, m);
    if Charges(e.receipt, m.inFlight) { DetachedCore(m, e, env); } else { ReauthCore(m, e, env); }
    ThenFlush(m, e, env, m, SendResult(m, e.q.gen, e.receipt, env).model);
  }

  lemma AnswerProgress(m: Model, e: Event, env: Env)
    requires Encrypts(env) && Ready(m, env.now) && Answers(e) && !Receipt(m, e) && !Ingests(m, e)
    ensures Progress(m, e, env, Apply(m, e, env).model)
  {
    KeepProgress(m, e, env, m);
    AnswerCore(m, e, env);
    ThenFlush(m, e, env, m, Apply(m, e, env).model);
  }

  lemma ReceiptProgress(w: World, e: Event, env: Env)
    requires WInv(w) && Legal(w, e, env) && Receipt(w.m, e)
    ensures Progress(w.m, e, env, SendResult(w.m, e.q.gen, e.receipt, env).model)
  {
    LaterReady(w, env.now);
    if Fails(w.m, e) {
      FailProgress(w, e, env);
    } else if Finishes(w.m, e) {
      FinishProgress(w, e, env);
    } else if Halves(w.m, e) {
      HalveProgress(w.m, e, env);
    } else if Waits(w.m, e) {
      WaitProgress(w.m, e, env);
    } else {
      PlainReceipt(w.m, e, env);
    }
  }

  lemma UserProgress(w: World, e: Event, env: Env)
    requires WInv(w) && Legal(w, e, env) && (ByUser(e) || e.Loaded?)
    ensures Progress(w.m, e, env, Apply(w.m, e, env).model)
  {
    LaterReady(w, env.now);
    match e
    case Add(_) => AddProgress(w.m, e, env);
    case Block(_, blocked) => if blocked { BlockProgress(w.m, e, env); } else { UnblockProgress(w.m, e, env); }
    case Delete(_) => DeleteProgress(w.m, e, env);
    case EditProfile(_, _) => EditProgress(w, e, env);
    case WriteText(_, _, _) => WriteProgress(w.m, e, env);
    case Loaded(_, _) => LoadProgress(w.m, e, env);
  }

  /** Every step makes the same kind of progress. */
  lemma StepProgress(w: World, e: Event, env: Env)
    requires WInv(w) && Legal(w, e, env)
    ensures Progress(w.m, e, env, Next(w, e, env).m)
  {
    LaterReady(w, env.now);
    if ByUser(e) || e.Loaded? {
      UserProgress(w, e, env);
    } else if Receipt(w.m, e) {
      ReceiptProgress(w, e, env);
    } else if Ingests(w.m, e) {
      PageProgress(w.m, e, env);
    } else if Answers(e) {
      AnswerProgress(w.m, e, env);
    } else if e.Switch? {
      SwitchProgress(w.m, e, env);
    } else {
      TimerProgress(w.m, e, env);
    }
  }

  /** What is known of the batch a live send carries. */
  lemma FlightSize(w: World)
    requires FlightInv(w) && w.m.inFlight.Some?
    ensures var f := w.m.inFlight.value;
      1 <= f.count <= |w.m.outbox| && 512 * f.count <= f.bytes && (f.count > 1 ==> f.bytes <= Budget(w.m))
  {
    var r :| r in w.net && r.SendReq? && r.gen == w.m.flushGen && Carries(w.m, r);
  }

  lemma ProgressKeeps(w: World, e: Event, env: Env, m': Model)
    requires WInv(w) && Legal(w, e, env) && Progress(w.m, e, env, m')
    ensures StateInv(m', env.now)
  {
    if Halves(w.m, e) { FlightSize(w); }
  }

  /** Every step keeps everything. */
  lemma Step(w: World, e: Event, env: Env)
    requires WInv(w) && Legal(w, e, env)
    ensures WInv(Next(w, e, env))
  {
    NetStep(w, e, env);
    StepProgress(w, e, env);
    ProgressKeeps(w, e, env, Next(w, e, env).m);
  }
}

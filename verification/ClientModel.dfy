/**
 The client's state machine as a function of its state (core/src/app.rs).

 Every arm of `update` is a function from the model to the next model and the effects it
 asks for. Events an arm queues for itself run before the next outside event, so an arm
 that queues one is the composition of the two. What an arm reads from the world (the
 clock, whether a request could be built, what encryption makes of an item) is `Env`.
 */
module ClientModel {
  import opened Conversations
  import P = Payloads
  import F = Framing

  type Key = string
  type Url = string
  type Token = string

  const MAX_FUTURE_SKEW_MS := 60000
  const MAX_CONTACTS: nat := 500
  const MAX_POLL_TOTAL_BYTES: nat := 64 * 1024 * 1024
  const MAX_POLL_EVENTS: nat := 2000
  const MAX_POLL_RESPONSE_BYTES: nat := 64 * 1024 * 1024
  const MAX_SEND_BATCH: nat := 100
  const MAX_SEND_BATCH_BYTES: nat := 4 * 1024 * 1024
  const MAX_RETRY_AFTER_MS: nat := 300000
  const MAX_OUTBOX_RETRIES: nat := 10
  const OUTBOX_TTL_MS := 86400000

  // ---- state ----

  /** A queued payload. `id` numbers the pushes, so that an item can be followed. */
  datatype Item = Item(id: nat, recipient: Key, envelope: P.Json, profile: bool, retries: nat, firstAttempt: int)

  /** The batch a live send is carrying: so many items at the head, all for one peer. */
  datatype InFlight = InFlight(recipient: Key, count: nat, bytes: nat)

  /** What a contact says about themselves. */
  datatype Card = Card(name: string, bio: string, photo: P.Option<string>)

  datatype Contact = Contact(blocked: bool, lastProfileTs: int, lastAckTs: int, card: Card)

  const NEWCOMER := Contact(false, 0, 0, Card("", "", P.None))

  datatype Conn = Offline | Connecting | Online

  datatype Model = Model(
    identity: bool,
    me: Key,
    url: Url,
    profile: P.Payload,
    contacts: map<Key, Contact>,
    messages: map<Key, Convo>,
    seen: map<Key, set<Id>>,
    outbox: seq<Item>,
    pushed: nat,
    cursor: int,
    token: Option<Token>,
    conn: Conn,
    sendRetries: nat,
    polling: bool,
    pollGen: nat,
    authenticating: bool,
    authGen: nat,
    flushing: bool,
    flushGen: nat,
    inFlight: Option<InFlight>,
    budget: Option<nat>,
    kvFailed: bool,
    pausedUntil: int)

  datatype Request =
    | ChallengeReq(gen: nat, url: Url)
    | VerifyReq(gen: nat, url: Url)
    | PollReq(gen: nat, url: Url, token: Token, cursor: int)
    | SendReq(gen: nat, url: Url, token: Token, carried: seq<Item>)

  /** An HTTP request, or the write or removal of a stored key. Timers may fire at any time
      anyway. */
  datatype Effect = Ask(request: Request) | Write(key: string) | Erase(key: string)

  datatype Out = Out(model: Model, effects: seq<Effect>)

  /** The clock, whether a request could be built, which keys can be encrypted to, and the
      size of the blob that encryption makes of an item, if any. */
  datatype Env = Env(now: int, builds: bool, usable: Key -> bool, weigh: Item -> Option<nat>)

  /** Encryption refuses an unusable key, and else nothing but an over-long plaintext. */
  ghost predicate Encrypts(env: Env) {
    forall x: Item ::
      && (!env.usable(x.recipient) ==> env.weigh(x).None?)
      && (env.weigh(x).None? ==> !env.usable(x.recipient) || P.TextLen(x.envelope) > P.MAX_PLAINTEXT_LEN)
  }

  function Quiet(m: Model): Out { Out(m, []) }

  function Join(o: Out, next: Out): Out { Out(next.model, o.effects + next.effects) }

  /** Stored keys are not written once a load has failed. */
  function Saving(m: Model, keys: seq<string>): seq<Effect> {
    if m.kvFailed then [] else Writes(keys)
  }

  function Writes(keys: seq<string>): seq<Effect> { seq(|keys|, i requires 0 <= i < |keys| => Write(keys[i])) }

  function MessagesKey(peer: Key): string { "messages:" + peer }

  // ---- abandoning ----

  function AbandonPoll(m: Model): Model { m.(polling := false, pollGen := m.pollGen + 1) }
  function AbandonFlush(m: Model): Model { m.(flushing := false, inFlight := None, flushGen := m.flushGen + 1) }
  function AbandonAuth(m: Model): Model { m.(authenticating := false, authGen := m.authGen + 1) }

  function Detach(m: Model, peer: Key): Model {
    m.(inFlight := if m.inFlight.Some? && m.inFlight.value.recipient == peer then None else m.inFlight)
  }

  // ---- auth and poll ----

  function Authenticate(m: Model, env: Env): Out {
    if m.authenticating || !m.identity then Quiet(m)
    else if !env.builds then Quiet(m.(conn := Offline))
    else Out(m.(conn := Connecting, authenticating := true, authGen := m.authGen + 1),
             [Ask(ChallengeReq(m.authGen + 1, m.url))])
  }

  function StartPoll(m: Model, env: Env): Out {
    if m.polling then Quiet(m)
    else if m.token.None? then Authenticate(m, env)
    else if !env.builds then Quiet(m.(conn := Offline))
    else Out(m.(polling := true, pollGen := m.pollGen + 1),
             [Ask(PollReq(m.pollGen + 1, m.url, m.token.value, m.cursor))])
  }

  /** Connecting, once the auth round-trip that was in flight is abandoned. */
  function Reconnect(m: Model, env: Env): Out {
    if m.kvFailed || !m.identity then Quiet(m)
    else if !m.conn.Online? then Authenticate(m, env)
    else if !m.polling then StartPoll(m, env)
    else Quiet(m)
  }

  function Connect(m: Model, env: Env): Out { Reconnect(AbandonAuth(m), env) }

  /** Forget everything that was about the old relay, requests included. */
  function Switched(m: Model, url: Url): Model {
    m.(url := url, token := None, conn := Offline, budget := None, cursor := 0, pausedUntil := 0, sendRetries := 0,
       polling := false, pollGen := m.pollGen + 1, flushing := false, inFlight := None, flushGen := m.flushGen + 1)
  }

  function SetServerUrl(m: Model, url: Option<Url>, env: Env): Out {
    if url.None? then Quiet(m)
    else
      var m1 := Switched(m, url.value);
      Join(Out(m1, Saving(m1, ["settings", "cursor"])), Connect(m1, env))
  }

  datatype ChallengeAnswer = NoChallenge | BadChallenge | Challenged

  function ChallengeResult(m: Model, gen: nat, a: ChallengeAnswer, env: Env): Out {
    if gen != m.authGen then Quiet(m)
    else
      var m1 := m.(authenticating := false);
      if a.NoChallenge? then Quiet(m1.(conn := Offline))
      else if !m.identity then Quiet(m1)
      else if a.BadChallenge? || !env.builds then Quiet(m1.(conn := Offline))
      else Out(m1.(authenticating := true), [Ask(VerifyReq(gen, m.url))])
  }

  function VerifyResult(m: Model, gen: nat, token: Option<Token>, env: Env): Out {
    if gen != m.authGen then Quiet(m)
    else
      var m1 := m.(authenticating := false);
      if token.None? || token.value == "" then Quiet(m1.(conn := Offline))
      else
        var polled := StartPoll(m1.(token := token, conn := Online), env);
        Join(polled, FlushNext(polled.model, env))
  }

  function AuthWatchdog(m: Model, gen: nat, env: Env): Out {
    if gen != m.authGen || !m.authenticating then Quiet(m) else Authenticate(AbandonAuth(m), env)
  }

  function PollWatchdog(m: Model, gen: nat, env: Env): Out {
    if gen != m.pollGen || !m.polling then Quiet(m) else StartPoll(AbandonPoll(m), env)
  }

  function SavedCursor(m: Model, ok: bool, env: Env): Out {
    if ok then StartPoll(m, env) else Quiet(m.(conn := Offline))
  }

  // ---- the outbox ----

  function Budget(m: Model): nat { if m.budget.Some? then m.budget.value else MAX_SEND_BATCH_BYTES }

  function Expired(item: Item, now: int): bool {
    item.retries >= MAX_OUTBOX_RETRIES || (item.firstAttempt > 0 && now - item.firstAttempt > OUTBOX_TTL_MS)
  }

  /** A batch being filled: what was taken, what it weighs, and what is left behind it. */
  datatype Pick = Pick(taken: seq<Item>, bytes: nat, rest: seq<Item>)

  /** Take items for one peer from the head until a limit stops it, dropping those that
      cannot be encrypted. */
  function Fill(rest: seq<Item>, env: Env, budget: nat, taken: seq<Item>, bytes: nat): Pick
    decreases |rest|
  {
    if |taken| >= MAX_SEND_BATCH || rest == [] then Pick(taken, bytes, rest)
    else if taken != [] && taken[0].recipient != rest[0].recipient then Pick(taken, bytes, rest)
    else
      match env.weigh(rest[0])
      case None => Fill(rest[1..], env, budget, taken, bytes)
      case Some(size) =>
        var w := F.HexWeight(size);
        if taken != [] && bytes + w > budget then Pick(taken, bytes, rest)
        else Fill(rest[1..], env, budget, taken + [rest[0]], bytes + w)
  }

  function Stamp(items: seq<Item>, now: int): (r: seq<Item>)
    ensures |r| == |items|
    ensures forall i :: 0 <= i < |items| ==>
      r[i] == if items[i].firstAttempt == 0 then items[i].(firstAttempt := now) else items[i]
  {
    if items == [] then []
    else
      var last := items[|items| - 1];
      Stamp(items[..|items| - 1], now) + [if last.firstAttempt == 0 then last.(firstAttempt := now) else last]
  }

  predicate MayFlush(m: Model, env: Env) {
    !m.flushing && !m.kvFailed && env.now >= m.pausedUntil && m.identity && m.token.Some?
  }

  /** The flush changed the queue: it dropped an item, or tries one for the first time. */
  predicate Dirty(pick: Pick, items: seq<Item>) {
    |pick.taken| + |pick.rest| != |items| || FirstTry(pick.taken)
  }

  predicate FirstTry(items: seq<Item>) { exists i :: 0 <= i < |items| && items[i].firstAttempt == 0 }

  /** The first items of the queue go out as one batch, under a new generation. */
  function Launch(m: Model, count: nat, bytes: nat, dirty: bool, env: Env): Out
    requires 1 <= count <= |m.outbox| && m.token.Some?
  {
    var writes := if dirty then Saving(m, ["outbox"]) else [];
    if !env.builds then Out(m.(flushGen := m.flushGen + 1, flushing := false, inFlight := None), writes)
    else
      Out(m.(flushGen := m.flushGen + 1, flushing := true, inFlight := Some(InFlight(m.outbox[0].recipient, count, bytes))),
          writes + [Ask(SendReq(m.flushGen + 1, m.url, m.token.value, m.outbox[..count]))])
  }

  function FlushNext(m: Model, env: Env): Out {
    if !MayFlush(m, env) then Quiet(m)
    else
      var pick := Fill(m.outbox, env, Budget(m), [], 0);
      var dirty := Dirty(pick, m.outbox);
      if pick.taken == [] then Out(m.(outbox := pick.rest), if dirty then Saving(m, ["outbox"]) else [])
      else Launch(m.(outbox := Stamp(pick.taken, env.now) + pick.rest), |pick.taken|, pick.bytes, dirty, env)
  }

  function FlushWatchdog(m: Model, gen: nat, env: Env): Out {
    if gen != m.flushGen || !m.flushing then Quiet(m) else FlushNext(AbandonFlush(m), env)
  }

  function Charged(item: Item): Item { item.(retries := item.retries + 1) }

  /** The batch after a charged failure: each item a retry poorer, the exhausted ones gone. */
  function Charge(items: seq<Item>, now: int): seq<Item> {
    if items == [] then []
    else
      var front := Charge(items[..|items| - 1], now);
      var last := Charged(items[|items| - 1]);
      if Expired(last, now) then front else front + [last]
  }

  function Head(m: Model, batch: Option<InFlight>): nat {
    if batch.None? then 0 else if batch.value.count <= |m.outbox| then batch.value.count else |m.outbox|
  }

  function RetryBatch(m: Model, batch: Option<InFlight>, env: Env): Out {
    if batch.None? then Quiet(m)
    else
      var n := Head(m, batch);
      var kept := Charge(m.outbox[..n], env.now);
      var m1 := m.(outbox := kept + m.outbox[n..]);
      var saved := Out(m1, Saving(m1, ["outbox"]));
      if |kept| == n then saved else Join(saved, FlushNext(m1, env))
  }

  function BackoffMs(retries: nat): nat {
    if retries == 0 then 3000 else if retries == 1 then 6000 else if retries == 2 then 12000
    else if retries == 3 then 24000 else 30000
  }

  datatype SendAnswer = SendFailed | SendStatus(code: nat, retryAfter: Option<nat>)

  /** How long to stop: what the relay asked for, up to five minutes, or our own backoff. */
  function WaitMs(retryAfter: Option<nat>, retries: nat): nat {
    if retryAfter.None? then BackoffMs(retries)
    else if retryAfter.value * 1000 <= MAX_RETRY_AFTER_MS then retryAfter.value * 1000
    else MAX_RETRY_AFTER_MS
  }

  function Pause(m: Model, retryAfter: Option<nat>, now: int): Model {
    m.(pausedUntil := now + WaitMs(retryAfter, m.sendRetries),
       sendRetries := m.sendRetries + if retryAfter.None? then 1 else 0)
  }

  predicate Accepted(code: nat) { 200 <= code < 300 || code == 400 }

  predicate Splits(code: nat, batch: Option<InFlight>) { code == 413 && batch.Some? && batch.value.count > 1 }

  /** A current answer, once the guard is down and the batch it was about is taken. */
  function Settle(m: Model, batch: Option<InFlight>, a: SendAnswer, env: Env): Out {
    if a.SendFailed? then RetryBatch(m, batch, env)
    else if a.code == 401 then Authenticate(m.(token := None), env)
    else if a.code == 429 then Quiet(Pause(m, a.retryAfter, env.now))
    else if Splits(a.code, batch) then FlushNext(m.(budget := Some(batch.value.bytes / 2)), env)
    else if Accepted(a.code) then
      var m1 := m.(sendRetries := 0, outbox := if m.kvFailed then m.outbox else m.outbox[Head(m, batch)..]);
      Join(Out(m1, Saving(m1, ["outbox"])), FlushNext(m1, env))
    else RetryBatch(m, batch, env)
  }

  function SendResult(m: Model, gen: nat, a: SendAnswer, env: Env): Out {
    if gen != m.flushGen then Quiet(m)
    else Settle(m.(flushing := false, inFlight := None), m.inFlight, a, env)
  }

  // ---- what the user does ----

  function Sparing(items: seq<Item>, peer: Key): seq<Item> {
    if items == [] then []
    else
      var front := Sparing(items[..|items| - 1], peer);
      if items[|items| - 1].recipient == peer then front else front + [items[|items| - 1]]
  }

  function Flag(contacts: map<Key, Contact>, peer: Key, blocked: bool): map<Key, Contact> {
    if peer in contacts then contacts[peer := contacts[peer].(blocked := blocked)] else contacts
  }

  function SetBlocked(m: Model, peer: Key, blocked: bool): Out {
    if blocked then
      var m1 := Detach(m.(contacts := Flag(m.contacts, peer, true), outbox := Sparing(m.outbox, peer)), peer);
      Out(m1, Saving(m1, ["contacts", "outbox"]))
    else
      var m1 := m.(contacts := Flag(m.contacts, peer, false));
      Out(m1, Saving(m1, ["contacts"]))
  }

  function DeleteContact(m: Model, peer: Key): Out {
    var m1 := Detach(m.(contacts := m.contacts - {peer}, messages := m.messages - {peer}, seen := m.seen - {peer},
                        outbox := Sparing(m.outbox, peer)), peer);
    Out(m1, Saving(m1, ["contacts"]) + [Erase(MessagesKey(peer))] + Saving(m1, ["outbox", "seen_ids"]))
  }

  function AddContact(m: Model, key: Option<Key>): Out {
    if key.None? || key.value == m.me then Quiet(m)
    else
      var m1 := m.(contacts := if key.value in m.contacts then m.contacts else m.contacts[key.value := NEWCOMER]);
      Out(m1, Saving(m1, ["contacts"]))
  }

  function Push(m: Model, recipient: Key, payload: P.Payload, ts: int): Model {
    m.(outbox := m.outbox + [Item(m.pushed, recipient, P.Serialize(payload, ts), payload.Profile?, 0, 0)],
       pushed := m.pushed + 1)
  }

  /** The first pending profile for the peer at or behind position `i`. */
  function Pending(items: seq<Item>, i: nat, peer: Key): (r: nat)
    requires i <= |items|
    ensures i <= r <= |items|
    ensures r < |items| ==> items[r].profile && items[r].recipient == peer
    ensures forall j :: i <= j < r ==> !(items[j].profile && items[j].recipient == peer)
    decreases |items| - i
  {
    if i == |items| || (items[i].profile && items[i].recipient == peer) then i else Pending(items, i + 1, peer)
  }

  /** Overwrite the pending profile for the peer behind the items on the wire, or queue one. */
  function Supersede(m: Model, live: nat, peer: Key, ts: int): Model {
    var r := if live <= |m.outbox| then Pending(m.outbox, live, peer) else |m.outbox|;
    if r < |m.outbox| then m.(outbox := m.outbox[r := m.outbox[r].(envelope := P.Serialize(m.profile, ts))])
    else Push(m, peer, m.profile, ts)
  }

  function SupersedeAll(m: Model, live: nat, peers: seq<Key>, ts: int): Model {
    if peers == [] then m else Supersede(SupersedeAll(m, live, peers[..|peers| - 1], ts), live, peers[|peers| - 1], ts)
  }

  function Live(m: Model): nat { if m.inFlight.Some? then m.inFlight.value.count else 0 }

  /** `peers` lists the contacts that are not blocked, each once. */
  ghost predicate Audience(m: Model, peers: seq<Key>) {
    && (forall k :: k in peers <==> k in m.contacts && !m.contacts[k].blocked)
    && (forall i, j :: 0 <= i < j < |peers| ==> peers[i] != peers[j])
  }

  function SaveProfile(m: Model, profile: P.Payload, peers: seq<Key>, env: Env): Out {
    if !profile.Profile? || !P.Acceptable(profile) then Quiet(m)
    else
      var m1 := SupersedeAll(m.(profile := profile), Live(m), peers, env.now);
      Join(Out(m1, Saving(m1, ["profile", "outbox"])), FlushNext(m1, env))
  }

  function PeerOf(m: Model, k: Key): Peer {
    Peer(if k in m.messages then Some(m.messages[k]) else None, if k in m.seen then Some(m.seen[k]) else None)
  }

  predicate Refused(m: Model, chat: Option<Key>, body: string) {
    || chat.None? || (chat.value in m.contacts && m.contacts[chat.value].blocked)
    || body == "" || P.ByteLen(body) > P.MAX_BODY_LEN || (chat.value !in m.contacts && |m.contacts| >= MAX_CONTACTS)
  }

  /** The text is filed and queued; a new key becomes a contact and is queued our profile. */
  function Written(m: Model, k: Key, body: string, id: Id, now: int): Model {
    var convo := Wrote(PeerOf(m, k), StoredMessage(id, body, now, true, false)).convo.value;
    var m1 := Push(m.(messages := m.messages[k := convo]), k, P.Text(id, body), now);
    if k in m.contacts then m1
    else Push(m1.(contacts := m1.contacts[k := NEWCOMER]), k, m.profile, now)
  }

  function SendText(m: Model, chat: Option<Key>, body: string, id: Id, env: Env): Out {
    if Refused(m, chat, body) then Quiet(m)
    else
      var m1 := Written(m, chat.value, body, id, env.now);
      Join(Out(m1, Saving(m1, [MessagesKey(chat.value), "contacts", "outbox"])), FlushNext(m1, env))
  }

  // ---- stored conversations ----

  datatype KvAnswer = KvFailed | KvAbsent | KvFound(list: Convo)

  function LoadedMessages(m: Model, k: Key, a: KvAnswer): Out {
    match a
    case KvFailed => Quiet(m.(kvFailed := true))
    case KvAbsent => Quiet(m)
    case KvFound(list) =>
      var p := Merged(PeerOf(m, k), list);
      Quiet(m.(messages := m.messages[k := p.convo.value], seen := if k in m.seen then m.seen[k := p.seen.value] else m.seen))
  }

  // ---- a poll page ----

  /** One event of a page: its hex length and, if it decrypts and parses, what it says. */
  datatype PageEvent = PageEvent(size: nat, content: Option<Decoded>)

  /** The blobs of a page in hex, all together. */
  function Hex(events: seq<PageEvent>): nat {
    if events == [] then 0 else Hex(events[..|events| - 1]) + events[|events| - 1].size
  }

  datatype Decoded = Decoded(sender: Key, ts: int, payload: P.Payload)

  /** What the page's limits let through, and whether a limit cut the page short. */
  datatype Admission = Admission(decoded: seq<Decoded>, cut: bool)

  function Admit(events: seq<PageEvent>, processed: nat, room: nat, decoded: seq<Decoded>): Admission
    decreases |events|
  {
    if events == [] then Admission(decoded, false)
    else
      var e := events[0];
      if e.size > F.MAX_BLOB_LEN * 2 then Admit(events[1..], processed, room, decoded)
      else if processed >= MAX_POLL_EVENTS || e.size / 2 > room then Admission(decoded, true)
      else
        Admit(events[1..], processed + 1, room - e.size / 2,
              if e.content.Some? then decoded + [e.content.value] else decoded)
  }

  function AdmitPage(events: seq<PageEvent>): Admission { Admit(events, 0, MAX_POLL_TOTAL_BYTES, []) }

  function Min(a: int, b: int): int { if a < b then a else b }
  function Max(a: int, b: int): int { if a < b then b else a }

  /** The cursor after a page: never past what the relay said or a minute from now, and not
      moved by an empty page or by one of which nothing could be used. */
  function NextCursor(cursor: int, pageCursor: int, events: seq<PageEvent>, now: int): int {
    var clamped := Min(pageCursor, now + 60000);
    var a := AdmitPage(events);
    if events == [] || clamped <= cursor || (a.cut && a.decoded == []) then cursor else clamped
  }

  /** Acks collected from one sender: the latest date and every id. */
  datatype PendingAck = PendingAck(ts: int, ids: set<Id>)

  /** What a page has changed so far, and so has to be written. */
  datatype Touched = Touched(convos: set<Key>, contacts: bool, outbox: bool)

  /** What the event loop gathers for after it: ids to ack, acks to apply, what to write. */
  datatype Gathered = Gathered(targets: map<Key, seq<Id>>, acks: map<Key, PendingAck>, touched: Touched)

  const NOTHING := Gathered(map[], map[], Touched({}, false, false))

  function ClampTs(ts: int, now: int): int { Min(Max(ts, 0), now + MAX_FUTURE_SKEW_MS) }

  function AddAck(acks: map<Key, PendingAck>, sender: Key, ts: int, ids: seq<Id>): map<Key, PendingAck> {
    var prev := if sender in acks then acks[sender] else PendingAck(0, {});
    acks[sender := PendingAck(Max(prev.ts, ts), prev.ids + set id | id in ids)]
  }

  function Target(targets: map<Key, seq<Id>>, sender: Key, id: Id): map<Key, seq<Id>> {
    targets[sender := (if sender in targets then targets[sender] else []) + [id]]
  }

  /** What a profile leaves out stays as it was. */
  function Overwrite(card: Card, name: P.Option<string>, bio: P.Option<string>, photo: P.Option<string>): Card {
    Card(if name.Some? then name.value else card.name, if bio.Some? then bio.value else card.bio, if photo.Some? then photo else card.photo)
  }

  function Updated(c: Contact, name: P.Option<string>, bio: P.Option<string>, photo: P.Option<string>, ts: int): Contact {
    c.(lastProfileTs := ts, card := Overwrite(c.card, name, bio, photo))
  }

  /** A stranger's first text makes a contact and sends them our profile. */
  function Greet(m: Model, sender: Key, ts: int): Model {
    if sender in m.contacts then m
    else Push(m.(contacts := m.contacts[sender := NEWCOMER]), sender, m.profile, ts)
  }

  /** What a text adds to what is gathered: a stranger's text changes contacts and queue, a
      new text its conversation. */
  function GatherText(m: Model, g: Gathered, sender: Key, id: Id): Gathered {
    var met := sender !in m.contacts;
    var t := Touched(g.touched.convos, g.touched.contacts || met, g.touched.outbox || met);
    if id in Seeded(PeerOf(m, sender)) then g.(touched := t)
    else g.(targets := Target(g.targets, sender, id), touched := t.(convos := t.convos + {sender}))
  }

  /** One decoded event is folded in. Which surplus seen ids go is not determined. */
  ghost predicate Absorbed(m: Model, g: Gathered, d: Decoded, now: int, m': Model, g': Gathered) {
    if d.sender == m.me || (d.sender in m.contacts && m.contacts[d.sender].blocked) then m' == m && g' == g
    else
      var ts := ClampTs(d.ts, now);
      match d.payload
      case Text(id, body) =>
        if d.sender !in m.contacts && |m.contacts| >= MAX_CONTACTS then m' == m && g' == g
        else
          var m1 := Greet(m, d.sender, ts);
          && d.sender in m'.messages && d.sender in m'.seen
          && m' == m1.(messages := m1.messages[d.sender := m'.messages[d.sender]], seen := m1.seen[d.sender := m'.seen[d.sender]])
          && Received(PeerOf(m, d.sender), StoredMessage(id, body, ts, false, false), PeerOf(m', d.sender))
          && g' == GatherText(m, g, d.sender, id)
      case Ack(ids) => m' == m && g' == g.(acks := AddAck(g.acks, d.sender, ts, ids))
      case Profile(name, bio, photo) =>
        if d.sender in m.contacts && ts >= m.contacts[d.sender].lastProfileTs then
          && m' == m.(contacts := m.contacts[d.sender := Updated(m.contacts[d.sender], name, bio, photo, Min(ts, now))])
          && g' == g.(touched := g.touched.(contacts := true))
        else m' == m && g' == g
  }

  predicate Stale(m: Model, acks: map<Key, PendingAck>, k: Key)
    requires k in acks
  {
    k in m.contacts && acks[k].ts < m.contacts[k].lastAckTs
  }

  /** Apply the collected acks, once per sender. */
  function ApplyAcks(m: Model, acks: map<Key, PendingAck>, now: int): Model {
    m.(contacts := map k | k in m.contacts ::
                     if k in acks && !Stale(m, acks, k) then m.contacts[k].(lastAckTs := Min(acks[k].ts, now)) else m.contacts[k],
       messages := map k | k in m.messages ::
                     if k in acks && !Stale(m, acks, k) then MarkAll(m.messages[k], acks[k].ids) else m.messages[k])
  }

  /** The sender's watermark moves; a flag of the sender's conversation flips. */
  predicate Moved(m: Model, acks: map<Key, PendingAck>, k: Key)
    requires k in acks
  {
    k in m.contacts && !Stale(m, acks, k)
  }

  predicate Flips(m: Model, acks: map<Key, PendingAck>, k: Key)
    requires k in acks
  {
    k in m.messages && !Stale(m, acks, k) && MarkAll(m.messages[k], acks[k].ids) != m.messages[k]
  }

  /** What applying the acks changes. */
  function TouchedByAcks(m: Model, acks: map<Key, PendingAck>, t: Touched): Touched {
    t.(convos := t.convos + (set k | k in acks && Flips(m, acks, k)),
       contacts := t.contacts || exists k :: k in acks && Moved(m, acks, k))
  }

  function PushAcks(m: Model, sender: Key, chunks: seq<seq<Id>>, now: int): Model {
    if chunks == [] then m
    else Push(PushAcks(m, sender, chunks[..|chunks| - 1], now), sender, P.Ack(chunks[|chunks| - 1]), now)
  }

  /** Queue the acks owed, sender by sender. */
  function OweAcks(m: Model, targets: map<Key, seq<Id>>, senders: seq<Key>, now: int): Model
    requires forall k :: k in senders ==> k in targets
  {
    if senders == [] then m
    else
      var k := senders[|senders| - 1];
      PushAcks(OweAcks(m, targets, senders[..|senders| - 1], now), k, P.Chunks(targets[k]), now)
  }

  /** The stored keys a page writes, its conversations in the order `convos`. */
  function PageKeys(convos: seq<Key>, t: Touched): seq<string> {
    seq(|convos|, i requires 0 <= i < |convos| => MessagesKey(convos[i]))
    + (if convos != [] then ["seen_ids"] else [])
    + (if t.contacts then ["contacts"] else [])
    + (if t.outbox then ["outbox"] else [])
  }

  /** `s` lists the keys of the set, each once. */
  ghost predicate Enumerates(s: seq<Key>, keys: set<Key>) {
    && (forall k :: k in s <==> k in keys)
    && (forall i, j :: 0 <= i < j < |s| ==> s[i] != s[j])
  }

  /** The states the event loop passes through, the orders in which senders are acked and
      conversations written, and the keys written. */
  datatype Trail = Trail(models: seq<Model>, gathered: seq<Gathered>, senders: seq<Key>, convos: seq<Key>, keys: seq<string>)

  ghost predicate Follows(trail: Trail, decoded: seq<Decoded>, now: int) {
    && |trail.models| == |trail.gathered| == |decoded| + 1
    && trail.gathered[0] == NOTHING
    && forall i :: 0 <= i < |decoded| ==> AbsorbedAt(trail, decoded, now, i)
  }

  ghost predicate AbsorbedAt(trail: Trail, decoded: seq<Decoded>, now: int, i: nat)
    requires i < |decoded| && |trail.models| == |trail.gathered| == |decoded| + 1
  {
    Absorbed(trail.models[i], trail.gathered[i], decoded[i], now, trail.models[i + 1], trail.gathered[i + 1])
  }

  /** What the whole page has changed. */
  function TouchedByPage(m: Model, g: Gathered): Touched {
    var t := TouchedByAcks(m, g.acks, g.touched);
    t.(outbox := t.outbox || g.targets != map[])
  }

  /** The page is folded in: cursor, event loop, acks to apply, acks to send, keys to write. */
  ghost predicate Ingested(m: Model, pageCursor: int, events: seq<PageEvent>, now: int, trail: Trail, m': Model) {
    var n := |AdmitPage(events).decoded|;
    && Follows(trail, AdmitPage(events).decoded, now)
    && trail.models[0] == m.(cursor := NextCursor(m.cursor, pageCursor, events, now))
    && Enumerates(trail.senders, trail.gathered[n].targets.Keys)
    && m' == OweAcks(ApplyAcks(trail.models[n], trail.gathered[n].acks, now), trail.gathered[n].targets, trail.senders, now)
    && var t := TouchedByPage(trail.models[n], trail.gathered[n]);
    && Enumerates(trail.convos, t.convos) && trail.keys == PageKeys(trail.convos, t)
  }

  datatype PollAnswer =
    | PollFailed
    | PollStatus(code: nat)
    | Garbled
    | Page(length: nat, cursor: int, events: seq<PageEvent>, trail: Trail, ingested: Model)

  /** The answer is a page that is folded in: storage works, and its body is not too long. */
  predicate Folds(m: Model, a: PollAnswer) {
    a.Page? && !m.kvFailed && a.length <= MAX_POLL_RESPONSE_BYTES
  }

  /** After a page: save, flush, then write the cursor if it moved, or poll again. */
  function AfterPage(m: Model, prev: int, keys: seq<string>, env: Env): Out {
    var flushed := Join(Out(m, Saving(m, keys)), FlushNext(m, env));
    if m.cursor != prev then Join(flushed, Out(flushed.model, Saving(m, ["cursor"])))
    else Join(flushed, StartPoll(flushed.model, env))
  }

  function PollResult(m: Model, gen: nat, a: PollAnswer, env: Env): Out {
    if gen != m.pollGen then Quiet(m)
    else
      var m1 := m.(polling := false);
      match a
      case PollFailed => Quiet(m1.(conn := Offline))
      case PollStatus(code) =>
        if code == 401 then Authenticate(m1.(token := None), env) else Quiet(m1.(conn := Offline))
      case Garbled => if m.kvFailed then Quiet(m1) else Quiet(m1.(conn := Offline))
      case Page(length, _, _, trail, ingested) =>
        if m.kvFailed then Quiet(m1)
        else if length > MAX_POLL_RESPONSE_BYTES then Quiet(m1.(conn := Offline))
        else AfterPage(ingested, m.cursor, trail.keys, env)
  }

  /** A refusal is not a 2xx, a body is no shorter than the blobs it holds, and a page was
      folded into the model the answer finds. */
  ghost predicate GoodAnswer(m: Model, a: PollAnswer, env: Env) {
    && (a.PollStatus? ==> !(200 <= a.code < 300))
    && (a.Page? ==> Hex(a.events) <= a.length)
    && (Folds(m, a) ==> Ingested(m.(polling := false), a.cursor, a.events, env.now, a.trail, a.ingested))
  }
}

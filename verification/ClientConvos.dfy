/** What is in a conversation at any point of a run: the newest of all that was filed in it. */
module ClientConvos {
  import opened Conversations
  import opened ClientModel
  import opened ClientWorld
  import opened ClientSteps
  import opened ClientProgress
  import opened ClientAcks
  import opened ClientRuns
  import Payloads

  function Held(m: Model, k: Key): Convo { ConvoOf(PeerOf(m, k)) }

  /** A text as it is filed: its date is the sender's, from zero to a minute from now. */
  function TextOf(d: Decoded, now: int): StoredMessage
    requires d.payload.Text?
  {
    StoredMessage(d.payload.id, d.payload.body, if d.ts < 0 then 0 else if d.ts > now + 60000 then now + 60000 else d.ts, false, false)
  }

  /** What one event of a page files in the conversation. */
  function FiledBy(m: Model, d: Decoded, now: int, k: Key): Convo {
    if d.sender == k && Stores(m, d) then [TextOf(d, now)] else []
  }

  /** What the first `n` events of a page file in it, in page order. */
  function FiledFrom(trail: Trail, ds: seq<Decoded>, now: int, k: Key, n: nat): Convo
    requires n <= |ds| <= |trail.models|
  {
    if n == 0 then [] else FiledFrom(trail, ds, now, k, n - 1) + FiledBy(trail.models[n - 1], ds[n - 1], now, k)
  }

  /** What a step files in it: a text we wrote, texts of a page that were not there, or what
      a stored conversation adds. */
  function Filed(m: Model, e: Event, now: int, k: Key): Convo {
    match e
    case WriteText(chat, body, id) =>
      if chat == Some(k) && !(k in m.contacts && m.contacts[k].blocked) && body != "" && Payloads.ByteLen(body) <= 65536
         && (k in m.contacts || |m.contacts| < 500) then [StoredMessage(id, body, now, true, false)] else []
    case Loaded(peer, found) => if peer == k && found.KvFound? then Without(found.list, Ids(Held(m, k))) else []
    case GotPage(_, page) =>
      var n := if Ingests(m, e) then |AdmitPage(page.events).decoded| else 0;
      if 0 < n <= |page.trail.models| then FiledFrom(page.trail, AdmitPage(page.events).decoded, now, k, n) else []
    case _ => []
  }

  predicate Deletes(e: Event, k: Key) { e.Delete? && e.peer == k }

  /** All that was filed in the conversation since it began: it begins with what the run
      starts with, and again, empty, when its contact is deleted. */
  function History(ws: seq<World>, acts: seq<Act>, k: Key, i: nat): Convo
    requires |ws| == |acts| + 1 && i < |ws|
  {
    if i == 0 then Held(ws[0].m, k)
    else if Deletes(acts[i - 1].event, k) then []
    else History(ws, acts, k, i - 1) + Filed(ws[i - 1].m, acts[i - 1].event, acts[i - 1].env.now, k)
  }

  // ---- a page ----

  lemma TextIs(d: Decoded, now: int)
    requires d.payload.Text? && 0 <= now
    ensures TextOf(d, now) == StoredMessage(d.payload.id, d.payload.body, ClampTs(d.ts, now), false, false)
  {
  }

  lemma StoredText(m: Model, g: Gathered, d: Decoded, now: int, m': Model, g': Gathered)
    requires Absorbed(m, g, d, now, m', g') && Stores(m, d)
    ensures var x := StoredMessage(d.payload.id, d.payload.body, ClampTs(d.ts, now), false, false);
      Held(m', d.sender) == Trim(Insert(Held(m, d.sender), x))
  {
  }

  lemma TextFiles(m: Model, g: Gathered, d: Decoded, now: int, m': Model, g': Gathered)
    requires Absorbed(m, g, d, now, m', g') && Stores(m, d)
    requires 0 <= now
    ensures Held(m', d.sender) == FileAll(Held(m, d.sender), [TextOf(d, now)])
  {
    TextIs(d, now);
    StoredText(m, g, d, now, m', g');
    OnlineOne(Held(m, d.sender), TextOf(d, now));
  }

  lemma KnownTextFiles(m: Model, g: Gathered, d: Decoded, now: int, m': Model, g': Gathered)
    requires Absorbed(m, g, d, now, m', g') && d.payload.Text? && d.payload.id in Seeded(PeerOf(m, d.sender))
    ensures Held(m', d.sender) == Held(m, d.sender)
  {
    assert m' == m || PeerOf(m', d.sender).convo == Some(Held(m, d.sender));
  }

  lemma UntouchedBy(m: Model, g: Gathered, d: Decoded, now: int, m': Model, g': Gathered)
    requires Absorbed(m, g, d, now, m', g') && !d.payload.Text?
    ensures m'.messages == m.messages
  {
  }

  lemma TextElsewhere(m: Model, g: Gathered, d: Decoded, now: int, m': Model, g': Gathered, k: Key)
    requires Absorbed(m, g, d, now, m', g') && d.payload.Text? && d.sender != k
    ensures Held(m', k) == Held(m, k)
  {
    assert m' != m ==> d.sender in m'.messages && m'.messages == m.messages[d.sender := m'.messages[d.sender]];
  }

  lemma AbsorbedRest(m: Model, g: Gathered, d: Decoded, now: int, m': Model, g': Gathered, k: Key)
    requires Absorbed(m, g, d, now, m', g') && !(d.sender == k && Stores(m, d))
    ensures Held(m', k) == Held(m, k)
  {
    if !d.payload.Text? {
      UntouchedBy(m, g, d, now, m', g');
    } else if d.sender != k {
      TextElsewhere(m, g, d, now, m', g', k);
    } else if d.payload.id in Seeded(PeerOf(m, k)) {
      KnownTextFiles(m, g, d, now, m', g');
    } else {
      assert m' == m;
    }
  }

  lemma AbsorbedFiles(m: Model, g: Gathered, d: Decoded, now: int, m': Model, g': Gathered, k: Key)
    requires Absorbed(m, g, d, now, m', g')
    requires 0 <= now
    ensures Held(m', k) == FileAll(Held(m, k), FiledBy(m, d, now, k))
  {
    if d.sender == k && Stores(m, d) { TextFiles(m, g, d, now, m', g'); } else { AbsorbedRest(m, g, d, now, m', g', k); }
  }

  lemma {:induction false} LoopFiles(trail: Trail, ds: seq<Decoded>, now: int, k: Key, n: nat)
    requires Follows(trail, ds, now) && n <= |ds|
    requires 0 <= now
    ensures Held(trail.models[n], k) == FileAll(Held(trail.models[0], k), FiledFrom(trail, ds, now, k, n))
  {
    if n > 0 {
      LoopFiles(trail, ds, now, k, n - 1);
      assert AbsorbedAt(trail, ds, now, n - 1);
      AbsorbedFiles(trail.models[n - 1], trail.gathered[n - 1], ds[n - 1], now, trail.models[n], trail.gathered[n], k);
      OnlineConcat(Held(trail.models[0], k), FiledFrom(trail, ds, now, k, n - 1), FiledBy(trail.models[n - 1], ds[n - 1], now, k));
    }
  }

  lemma AppliedHolds(m: Model, acks: map<Key, PendingAck>, now: int, k: Key)
    ensures Held(ApplyAcks(m, acks, now), k)
      == if k in m.messages && k in acks && !Stale(m, acks, k) then MarkAll(Held(m, k), acks[k].ids) else Held(m, k)
  {
    var m' := ApplyAcks(m, acks, now);
    assert k in m'.messages <==> k in m.messages;
  }

  lemma AppliedPlain(m: Model, acks: map<Key, PendingAck>, now: int, k: Key)
    ensures Plain(Held(ApplyAcks(m, acks, now), k)) == Plain(Held(m, k))
  {
    AppliedHolds(m, acks, now, k);
    if k in acks { PlainMarks(Held(m, k), acks[k].ids); }
  }

  lemma {:induction false} PushAcksFile(m: Model, s: Key, chunks: seq<seq<Id>>, now: int)
    ensures PushAcks(m, s, chunks, now).messages == m.messages
  {
    if chunks != [] { PushAcksFile(m, s, chunks[..|chunks| - 1], now); }
  }

  lemma {:induction false} OweAcksFile(m: Model, targets: map<Key, seq<Id>>, senders: seq<Key>, now: int)
    requires forall k :: k in senders ==> k in targets
    ensures OweAcks(m, targets, senders, now).messages == m.messages
  {
    if senders != [] {
      var front, k := senders[..|senders| - 1], senders[|senders| - 1];
      OweAcksFile(m, targets, front, now);
      PushAcksFile(OweAcks(m, targets, front, now), k, Payloads.Chunks(targets[k]), now);
    }
  }

  lemma PageFiles(m: Model, cursor: int, events: seq<PageEvent>, now: int, trail: Trail, m': Model, k: Key)
    requires Ingested(m, cursor, events, now, trail, m')
    requires 0 <= now
    ensures var ds := AdmitPage(events).decoded;
      Plain(Held(m', k)) == Plain(FileAll(Held(m, k), FiledFrom(trail, ds, now, k, |ds|)))
  {
    var ds := AdmitPage(events).decoded;
    var n := |ds|;
    assert Held(trail.models[0], k) == Held(m, k);
    LoopFiles(trail, ds, now, k, n);
    var m1, g := trail.models[n], trail.gathered[n];
    AppliedPlain(m1, g.acks, now, k);
    OweAcksFile(ApplyAcks(m1, g.acks, now), g.targets, trail.senders, now);
  }

  // ---- one step ----

  lemma CutOffFiles(m: Model, peer: Key, blocked: bool, k: Key)
    ensures SetBlocked(m, peer, blocked).model.messages == m.messages
    ensures Held(DeleteContact(m, peer).model, k) == if peer == k then [] else Held(m, k)
  {
  }

  lemma UserFiles(m: Model, e: Event, env: Env, k: Key)
    requires e.Add? || e.Block? || e.Delete? || e.EditProfile?
    ensures Held(Apply(m, e, env).model, k) == if Deletes(e, k) then [] else Held(m, k)
  {
    match e
    case Add(who) => AddShape(m, who);
    case Block(peer, blocked) => CutOffFiles(m, peer, blocked, k);
    case Delete(peer) => CutOffFiles(m, peer, false, k);
    case EditProfile(profile, peers) => ProfileBooks(m, profile, peers, env);
  }

  lemma WrittenHolds(m: Model, j: Key, body: string, id: Id, now: int, k: Key)
    ensures Held(Written(m, j, body, id, now), k)
      == FileAll(Held(m, k), if j == k then [StoredMessage(id, body, now, true, false)] else [])
  {
    OnlineOne(Held(m, k), StoredMessage(id, body, now, true, false));
  }

  lemma WriteFiles(m: Model, e: Event, env: Env, k: Key)
    requires e.WriteText?
    ensures Held(SendText(m, e.chat, e.body, e.id, env).model, k) == FileAll(Held(m, k), Filed(m, e, env.now, k))
  {
    WriteCore(m, e.chat, e.body, e.id, env);
    if !Refused(m, e.chat, e.body) { WrittenHolds(m, e.chat.value, e.body, e.id, env.now, k); }
  }

  lemma LoadHolds(m: Model, list: Convo, k: Key)
    requires Storable(list) && PeerInv(PeerOf(m, k))
    ensures Held(LoadedMessages(m, k, KvFound(list)).model, k) == FileAll(Held(m, k), Without(list, Ids(Held(m, k))))
  {
    MergedIsOnline(PeerOf(m, k), list);
    assert PeerOf(LoadedMessages(m, k, KvFound(list)).model, k).convo == Merged(PeerOf(m, k), list).convo;
  }

  lemma LoadFiles(m: Model, e: Event, env: Env, k: Key)
    requires e.Loaded? && (e.found.KvFound? ==> Storable(e.found.list)) && PeerInv(PeerOf(m, k))
    ensures Held(LoadedMessages(m, e.peer, e.found).model, k) == FileAll(Held(m, k), Filed(m, e, env.now, k))
  {
    if e.found.KvFound? && e.peer == k {
      LoadHolds(m, e.found.list, k);
    } else {
      assert Filed(m, e, env.now, k) == [];
      LoadElsewhere(m, e.peer, e.found, k);
    }
  }

  lemma LoadElsewhere(m: Model, peer: Key, found: KvAnswer, k: Key)
    requires peer != k || !found.KvFound?
    ensures Held(LoadedMessages(m, peer, found).model, k) == Held(m, k)
  {
  }

  lemma PageStepFiles(m: Model, e: Event, env: Env, k: Key)
    requires Ingests(m, e) && GoodAnswer(m, e.page, env)
    requires 0 <= env.now
    ensures Plain(Held(Apply(m, e, env).model, k)) == Plain(FileAll(Held(m, k), Filed(m, e, env.now, k)))
  {
    IngestCore(m, e.q.gen, e.page, env);
    PageFiles(m.(polling := false), e.page.cursor, e.page.events, env.now, e.page.trail, e.page.ingested, k);
  }

  lemma ApplyFiles(m: Model, e: Event, env: Env, k: Key)
    requires PeerInv(PeerOf(m, k)) && (e.Loaded? && e.found.KvFound? ==> Storable(e.found.list))
    requires Ingests(m, e) ==> GoodAnswer(m, e.page, env)
    requires !Deletes(e, k)
    requires 0 <= env.now
    ensures Plain(Held(Apply(m, e, env).model, k)) == Plain(FileAll(Held(m, k), Filed(m, e, env.now, k)))
  {
    if e.WriteText? {
      WriteFiles(m, e, env, k);
    } else if e.Loaded? {
      LoadFiles(m, e, env, k);
    } else if ByUser(e) {
      UserFiles(m, e, env, k);
    } else if Ingests(m, e) {
      PageStepFiles(m, e, env, k);
    } else {
      OtherBooks(m, e, env);
    }
  }

  /** Each step files its texts one by one, each in order and trimmed at once. */
  lemma StepFiles(w: World, e: Event, env: Env, k: Key)
    requires WInv(w) && Legal(w, e, env) && !Deletes(e, k)
    ensures Plain(Held(Next(w, e, env).m, k)) == Plain(FileAll(Held(w.m, k), Filed(w.m, e, env.now, k)))
  {
    ApplyFiles(w.m, e, env, k);
  }

  // ---- a run ----

  /** The conversation is what filing its history one by one gives. */
  ghost predicate InStep(c: Convo, history: Convo) { Plain(c) == FileAll([], Plain(history)) }

  ghost predicate InStepAt(ws: seq<World>, acts: seq<Act>, k: Key, i: nat)
    requires |ws| == |acts| + 1 && i < |ws|
  {
    InStep(Held(ws[i].m, k), History(ws, acts, k, i))
  }

  lemma HistoryStart(ws: seq<World>, acts: seq<Act>, k: Key)
    requires |ws| == |acts| + 1 && PeerInv(PeerOf(ws[0].m, k))
    ensures InStepAt(ws, acts, k, 0)
  {
    OnlineFixes(Plain(Held(ws[0].m, k)));
  }

  lemma HistoryOnline(ws: seq<World>, acts: seq<Act>, k: Key, i: nat)
    requires Run(ws, acts) && i < |ws|
    ensures InStepAt(ws, acts, k, i)
  {
    InboxIsSound(ws, acts, 0, k);
    HistoryStart(ws, acts, k);
    for n := 0 to i
      invariant InStepAt(ws, acts, k, n)
    {
      HistoryStep(ws, acts, k, n);
    }
  }

  lemma HistoryStep(ws: seq<World>, acts: seq<Act>, k: Key, i: nat)
    requires Run(ws, acts) && i < |acts| && InStepAt(ws, acts, k, i)
    ensures InStepAt(ws, acts, k, i + 1)
  {
    AlwaysInv(ws, acts, i);
    assert StepAt(ws, acts, i);
    var e, env := acts[i].event, acts[i].env;
    if Deletes(e, k) {
      UserFiles(ws[i].m, e, env, k);
    } else {
      StepFiles(ws[i], e, env, k);
      OnlineOn(Held(ws[i].m, k), History(ws, acts, k, i), Filed(ws[i].m, e, env.now, k));
    }
  }

  lemma OnlineOn(c: Convo, past: Convo, more: Convo)
    requires InStep(c, past)
    ensures InStep(FileAll(c, more), past + more)
  {
    PlainOnline(c, more);
    PlainConcat(past, more);
    OnlineConcat([], Plain(past), Plain(more));
  }

  /** In every state of every run each conversation is, up to delivery flags, exactly the
      newest thousand of a stable sort by date of all that was filed in it since it began. */
  lemma ConversationIsNewest(ws: seq<World>, acts: seq<Act>, k: Key, i: nat, ys: Convo)
    requires Run(ws, acts) && i < |ws| && StablySorted(Plain(History(ws, acts, k, i)), ys)
    ensures Plain(Held(ws[i].m, k)) == Last(ys, 1000)
  {
    HistoryOnline(ws, acts, k, i);
    OnlineIsLastThousand(Plain(History(ws, acts, k, i)), ys);
  }
}

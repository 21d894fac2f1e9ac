/** Whole runs of the client among relays that may answer late, out of order or never. */
module ClientRuns {
  import opened Conversations
  import opened ClientModel
  import opened ClientOutbox
  import opened ClientWorld
  import opened ClientSteps
  import opened ClientProgress
  import opened ClientAcks
  import P = Payloads

  datatype Act = Act(event: Event, env: Env)

  /** After the startup loads: nothing sent yet, every guard down, stored data as this
      client stores it, and a stored cursor that its relay returned. */
  ghost predicate Start(w: World) {
    && w.net == {} && w.sent == {} && (forall l :: !Guard(w.m, l))
    && w.m.inFlight.None? && w.m.token.None? && CursorOk(w.taken, w.m.url, w.m.cursor)
    && StateInv(w.m, w.clock)
  }

  /** A client that has stored nothing yet can start. */
  lemma FirstStart(me: Key, url: Url, profile: P.Payload, clock: int)
    requires profile.Profile? && P.Acceptable(profile) && 0 <= clock && P.IsI64(clock + MAX_FUTURE_SKEW_MS)
    ensures var m := Model(true, me, url, profile, map[], map[], map[], [], 0, 0, None, Offline, 0,
                           false, 0, false, 0, false, 0, None, None, false, 0);
      Start(World(m, {}, {}, {}, {}, clock))
  {
    var m := Model(true, me, url, profile, map[], map[], map[], [], 0, 0, None, Offline, 0,
                   false, 0, false, 0, false, 0, None, None, false, 0);
    forall k ensures PeerInv(PeerOf(m, k)) { assert PeerOf(m, k) == Peer(None, None); }
  }

  ghost predicate StepAt(ws: seq<World>, acts: seq<Act>, i: nat)
    requires |ws| == |acts| + 1 && i < |acts|
  {
    Legal(ws[i], acts[i].event, acts[i].env) && ws[i + 1] == Next(ws[i], acts[i].event, acts[i].env)
  }

  ghost predicate Run(ws: seq<World>, acts: seq<Act>) {
    && |ws| == |acts| + 1
    && Start(ws[0])
    && forall i :: 0 <= i < |acts| ==> StepAt(ws, acts, i)
  }

  lemma StartInv(w: World)
    requires Start(w)
    ensures WInv(w)
  {
    forall l ensures !Unresolved(w, l) { }
  }

  /** The invariant holds in every state of every run. */
  lemma {:induction false} AlwaysInv(ws: seq<World>, acts: seq<Act>, i: nat)
    requires Run(ws, acts) && i < |ws|
    ensures WInv(ws[i])
  {
    if i == 0 {
      StartInv(ws[0]);
    } else {
      AlwaysInv(ws, acts, i - 1);
      assert StepAt(ws, acts, i - 1);
      Step(ws[i - 1], acts[i - 1].event, acts[i - 1].env);
    }
  }

  lemma StepIs(ws: seq<World>, acts: seq<Act>, i: nat)
    requires Run(ws, acts) && i < |acts|
    ensures WInv(ws[i]) && WInv(ws[i + 1]) && Legal(ws[i], acts[i].event, acts[i].env)
    ensures ws[i + 1] == Next(ws[i], acts[i].event, acts[i].env)
    ensures Progress(ws[i].m, acts[i].event, acts[i].env, ws[i + 1].m)
  {
    AlwaysInv(ws, acts, i);
    AlwaysInv(ws, acts, i + 1);
    assert StepAt(ws, acts, i);
    StepProgress(ws[i], acts[i].event, acts[i].env);
  }

  // ---- generations ----

  /** In every state of every run a loop's guard is up exactly while its current request is
      unanswered; that request is the only one whose answer will be acted on, and an answer
      to any other leaves the model as it is and asks for nothing. */
  lemma GenerationProtocol(ws: seq<World>, acts: seq<Act>, i: nat, l: Loop)
    requires Run(ws, acts) && i < |ws|
    ensures Guard(ws[i].m, l) <==> exists q :: q in ws[i].net && LoopOf(q) == l && Current(ws[i].m, q)
    ensures forall q, r :: q in ws[i].net && r in ws[i].net && LoopOf(q) == LoopOf(r) && Current(ws[i].m, q) && Current(ws[i].m, r) ==> q == r
    ensures i < |acts| && Answers(acts[i].event) && !Current(ws[i].m, acts[i].event.q) ==>
      ws[i + 1].m == ws[i].m && ws[i + 1].sent == ws[i].sent
  {
    AlwaysInv(ws, acts, i);
    assert Guard(ws[i].m, l) <==> Unresolved(ws[i], l);
    if i < |acts| && Answers(acts[i].event) && !Current(ws[i].m, acts[i].event.q) { LateStep(ws, acts, i); }
  }

  lemma LateStep(ws: seq<World>, acts: seq<Act>, i: nat)
    requires Run(ws, acts) && i < |acts| && Answers(acts[i].event) && !Current(ws[i].m, acts[i].event.q)
    ensures ws[i + 1].m == ws[i].m && ws[i + 1].sent == ws[i].sent
  {
    assert StepAt(ws, acts, i);
    LateIsIgnored(ws[i].m, acts[i].event, acts[i].env);
    RequestsOf([], [], acts[i].event.q, ws[i].m, []);
  }

  /** A watchdog that is not the current one's leaves the model as it is. */
  lemma StaleWatchdog(m: Model, e: Event, env: Env)
    requires e.AuthWatch? || e.PollWatch? || e.FlushWatch?
    requires var l := if e.AuthWatch? then AuthLoop else if e.PollWatch? then PollLoop else SendLoop;
      e.gen != Gen(m, l) || !Guard(m, l)
    ensures Apply(m, e, env) == Quiet(m)
  {
  }

  /** A step sends only what was never sent before, and an answered request is off the net. */
  lemma StepSent(ws: seq<World>, acts: seq<Act>, i: nat)
    requires Run(ws, acts) && i < |acts|
    ensures ws[i].sent <= ws[i + 1].sent
    ensures forall q :: q in ws[i + 1].net ==> q in ws[i].net || q !in ws[i].sent
    ensures Answers(acts[i].event) ==> acts[i].event.q in ws[i].sent && acts[i].event.q !in ws[i + 1].net
  {
    StepIs(ws, acts, i);
    NetStep(ws[i], acts[i].event, acts[i].env);
  }

  lemma {:induction false} AnsweredIsGone(ws: seq<World>, acts: seq<Act>, i: nat, j: nat)
    requires Run(ws, acts) && i < j < |ws| && Answers(acts[i].event)
    ensures acts[i].event.q in ws[j].sent && acts[i].event.q !in ws[j].net
  {
    StepSent(ws, acts, j - 1);
    if j - 1 > i { AnsweredIsGone(ws, acts, i, j - 1); }
  }

  /** No request is ever answered twice, so each is acted on at most once. */
  lemma AnsweredOnce(ws: seq<World>, acts: seq<Act>, i: nat, j: nat)
    requires Run(ws, acts) && i < |acts| && j < |acts|
    requires Answers(acts[i].event) && Answers(acts[j].event) && acts[i].event.q == acts[j].event.q
    ensures i == j
  {
    StepIs(ws, acts, i);
    StepIs(ws, acts, j);
    if i < j { AnsweredIsGone(ws, acts, i, j); }
    if j < i { AnsweredIsGone(ws, acts, j, i); }
  }

  // ---- relays ----

  /** Every poll that is ever outstanding carries a token the relay it is addressed to
      issued, and a cursor that is not positive or at most one that relay returned on a
      page with events, however many relay switches there were. */
  lemma RelayBinding(ws: seq<World>, acts: seq<Act>, i: nat, q: Request)
    requires Run(ws, acts) && i < |ws| && q in ws[i].net && q.PollReq?
    ensures (q.url, q.token) in ws[i].issued
    ensures q.cursor <= 0 || exists d :: (q.url, d) in ws[i].taken && q.cursor <= d
  {
    AlwaysInv(ws, acts, i);
  }

  /** Step `i` folds in a page with events from a relay. */
  predicate TakenAt(ws: seq<World>, acts: seq<Act>, i: nat, url: Url)
    requires |ws| == |acts| + 1 && i < |acts|
  {
    Ingests(ws[i].m, acts[i].event) && acts[i].event.q.url == url && acts[i].event.page.events != []
  }

  /** Every page cursor the client goes by it had at the start or took from a page since. */
  lemma {:induction false} TakenPages(ws: seq<World>, acts: seq<Act>, i: nat, url: Url, d: int)
    requires Run(ws, acts) && i < |ws| && (url, d) in ws[i].taken && (url, d) !in ws[0].taken
    ensures exists a: nat :: a < i && TakenAt(ws, acts, a, url) && acts[a].event.page.cursor == d
  {
    if (url, d) in ws[i - 1].taken {
      TakenPages(ws, acts, i - 1, url, d);
    } else {
      assert StepAt(ws, acts, i - 1);
      assert TakenAt(ws, acts, i - 1, url) && acts[i - 1].event.page.cursor == d;
    }
  }

  /** No move to another relay between two states. */
  predicate Stays(acts: seq<Act>, i: nat, j: nat)
    requires i <= j <= |acts|
  {
    forall k :: i <= k < j ==> !Moves(acts[k].event)
  }

  lemma StepRises(ws: seq<World>, acts: seq<Act>, i: nat)
    requires Run(ws, acts) && i < |acts| && !Moves(acts[i].event)
    ensures ws[i].m.cursor <= ws[i + 1].m.cursor && ws[i].m.url == ws[i + 1].m.url
  {
    StepIs(ws, acts, i);
  }

  /** The cursor falls only on a move to another relay. */
  lemma CursorRises(ws: seq<World>, acts: seq<Act>, i: nat, j: nat)
    requires Run(ws, acts) && i <= j < |ws| && Stays(acts, i, j)
    ensures ws[i].m.cursor <= ws[j].m.cursor && ws[i].m.url == ws[j].m.url
  {
    for n := i to j
      invariant ws[i].m.cursor <= ws[n].m.cursor && ws[i].m.url == ws[n].m.url
    {
      StepRises(ws, acts, n);
    }
  }

  lemma StepCursor(ws: seq<World>, acts: seq<Act>, i: nat)
    requires Run(ws, acts) && i < |acts|
    ensures ws[i].clock <= ws[i + 1].clock
    ensures ws[i + 1].m.cursor <= Max(0, Max(ws[i].m.cursor, ws[i + 1].clock + 60000))
  {
    StepIs(ws, acts, i);
    LimitedCursor(ws[i].m, acts[i].event, acts[i].env, ws[i + 1].m);
  }

  lemma LimitedCursor(m: Model, e: Event, env: Env, m': Model)
    requires Limits(m, e, env, m')
    ensures m'.cursor <= Max(0, Max(m.cursor, env.now + 60000))
  {
  }

  /** No relay can push the cursor more than a minute past the clock, whatever it answers. */
  lemma {:induction false} CursorIsBounded(ws: seq<World>, acts: seq<Act>, i: nat)
    requires Run(ws, acts) && i < |ws| && ws[0].m.cursor <= ws[0].clock + 60000
    ensures ws[i].m.cursor <= ws[i].clock + 60000
  {
    AlwaysInv(ws, acts, i);
    if i > 0 {
      CursorIsBounded(ws, acts, i - 1);
      StepCursor(ws, acts, i - 1);
    }
  }

  // ---- the outbox ----

  /** An accepted or permanently rejected send takes exactly what it carried off the head of
      the queue, then the rest is flushed: none of what it carried is left, and any other
      item that goes is one that cannot be encrypted. A detached send takes nothing, and with
      storage broken the queue stays as it is. */
  lemma PopsExactlyCarried(ws: seq<World>, acts: seq<Act>, i: nat)
    requires Run(ws, acts) && i < |acts| && Finishes(ws[i].m, acts[i].event)
    ensures acts[i].event.q.SendReq?
    ensures var n := if ws[i].m.inFlight.Some? && !ws[i].m.kvFailed then |acts[i].event.q.carried| else 0;
      && n <= |ws[i].m.outbox| && (n > 0 ==> ws[i].m.outbox[..n] == acts[i].event.q.carried)
      && Flushed(ws[i].m.outbox[n..], ws[i + 1].m.outbox, acts[i].env)
    ensures ws[i].m.kvFailed ==> ws[i + 1].m.outbox == ws[i].m.outbox
    ensures !ws[i].m.kvFailed ==> forall x :: x in acts[i].event.q.carried ==> !HasId(ws[i + 1].m.outbox, x.id)
    ensures forall x :: x in ws[i].m.outbox && x !in acts[i].event.q.carried && !HasId(ws[i + 1].m.outbox, x.id) ==>
      acts[i].env.weigh(x).None? && !acts[i].env.usable(x.recipient)
  {
    var w, e, env := ws[i], acts[i].event, acts[i].env;
    StepIs(ws, acts, i);
    PoppedThenFlushed(w, e, env);
    var n := if w.m.inFlight.Some? && !w.m.kvFailed then |e.q.carried| else 0;
    if w.m.kvFailed {
      FinishLatched(w.m, e, env);
    } else {
      forall x | x in e.q.carried ensures !HasId(ws[i + 1].m.outbox, x.id) { CarriedIsPopped(w, e, x, ws[i + 1].m.outbox, env); }
    }
    forall x | x in w.m.outbox && x !in e.q.carried && !HasId(ws[i + 1].m.outbox, x.id)
      ensures env.weigh(x).None? && !env.usable(x.recipient) { DroppedByFlush(w.m, n, ws[i + 1].m.outbox, env, x); }
  }

  lemma PoppedThenFlushed(w: World, e: Event, env: Env)
    requires WInv(w) && Legal(w, e, env) && Finishes(w.m, e)
    ensures var n := if w.m.inFlight.Some? && !w.m.kvFailed then |e.q.carried| else 0;
      && n <= |w.m.outbox| && (n > 0 ==> w.m.outbox[..n] == e.q.carried)
      && (!w.m.kvFailed ==> n == Head(w.m, w.m.inFlight))
      && Flushed(w.m.outbox[n..], Next(w, e, env).m.outbox, env)
  {
    TheCarrier(w, e.q);
    FinishCore(w.m, e, env);
    assert w.m.outbox[0..] == w.m.outbox;
  }

  lemma InTheRest(items: seq<Item>, n: nat, x: Item)
    requires n <= |items| && x in items && x !in items[..n]
    ensures x in items[n..]
  {
    assert items == items[..n] + items[n..];
  }

  /** What a flush of the rest of the queue drops is an item that cannot be encrypted. */
  lemma DroppedByFlush(m: Model, n: nat, after: seq<Item>, env: Env, x: Item)
    requires OutInv(m) && Encrypts(env) && n <= |m.outbox| && Flushed(m.outbox[n..], after, env)
    requires x in m.outbox && x !in m.outbox[..n] && !HasId(after, x.id)
    ensures env.weigh(x).None? && !env.usable(x.recipient)
  {
    InTheRest(m.outbox, n, x);
    FlushedIds(m.outbox[n..], after, env, x.id);
    var z :| z in m.outbox[n..] && z.id == x.id && env.weigh(z).None?;
    IdUnique(m.outbox, x, z);
    assert GoodItem(m.contacts, m.pushed, x);
  }

  lemma FinishLatched(m: Model, e: Event, env: Env)
    requires Finishes(m, e) && m.kvFailed
    ensures SendResult(m, e.q.gen, e.receipt, env).model.outbox == m.outbox
  {
  }

  lemma CarriedIsPopped(w: World, e: Event, x: Item, after: seq<Item>, env: Env)
    requires WInv(w) && Finishes(w.m, e) && e.q in w.net && e.q.SendReq? && x in e.q.carried
    requires Flushed(w.m.outbox[Head(w.m, w.m.inFlight)..], after, env)
    ensures !HasId(after, x.id)
  {
    TheCarrier(w, e.q);
    var n := Head(w.m, w.m.inFlight);
    FlushedIds(w.m.outbox[n..], after, env, x.id);
    forall y | y in w.m.outbox[n..] ensures y.id != x.id {
      if w.m.inFlight.Some? { HeadBeforeTail(w.m.outbox, n, x, y); } else { assert y in w.m.outbox; }
    }
  }

  /** Some step between the two states took the item off the queue, for a stated reason. */
  ghost predicate LeftBetween(ws: seq<World>, acts: seq<Act>, i: nat, j: nat, id: nat)
    requires |ws| == |acts| + 1 && i <= j < |ws|
  {
    exists k, x :: i <= k < j && LeftAt(ws, acts, k, x) && x.id == id
  }

  ghost predicate LeftAt(ws: seq<World>, acts: seq<Act>, k: nat, x: Item)
    requires |ws| == |acts| + 1 && k < |acts|
  {
    x in ws[k].m.outbox && !HasId(ws[k + 1].m.outbox, x.id) && Reason(ws[k].m, acts[k].event, acts[k].env, x)
  }

  /** Over any stretch of any run an item leaves the queue only for a stated reason. */
  lemma {:induction false} Conservation(ws: seq<World>, acts: seq<Act>, i: nat, j: nat, id: nat)
    requires Run(ws, acts) && i <= j < |ws|
    requires HasId(ws[i].m.outbox, id) && !HasId(ws[j].m.outbox, id)
    ensures LeftBetween(ws, acts, i, j, id)
  {
    if !HasId(ws[j - 1].m.outbox, id) {
      Conservation(ws, acts, i, j - 1, id);
      var k, x :| i <= k < j - 1 && LeftAt(ws, acts, k, x) && x.id == id;
      assert LeftAt(ws, acts, k, x);
    } else {
      var x :| x in ws[j - 1].m.outbox && x.id == id;
      StepLoss(ws, acts, j - 1, x);
      assert LeftAt(ws, acts, j - 1, x);
    }
  }

  lemma StepLoss(ws: seq<World>, acts: seq<Act>, i: nat, x: Item)
    requires Run(ws, acts) && i < |acts| && x in ws[i].m.outbox && !HasId(ws[i + 1].m.outbox, x.id)
    ensures LeftAt(ws, acts, i, x)
  {
    StepIs(ws, acts, i);
  }

  lemma StepOnlyOld(ws: seq<World>, acts: seq<Act>, i: nat)
    requires Run(ws, acts) && i < |acts|
    ensures OnlyOld(ws[i].m, ws[i + 1].m)
  {
    StepIs(ws, acts, i);
  }

  lemma StepDescends(ws: seq<World>, acts: seq<Act>, i: nat)
    requires Run(ws, acts) && i < |acts|
    ensures Descends(ws[i].m.outbox, ws[i].m.pushed, ws[i + 1].m.outbox) && ws[i].m.pushed <= ws[i + 1].m.pushed
  {
    StepIs(ws, acts, i);
  }

  lemma {:induction false} QueueDescends(ws: seq<World>, acts: seq<Act>, i: nat, j: nat)
    requires Run(ws, acts) && i <= j < |ws|
    ensures Descends(ws[i].m.outbox, ws[i].m.pushed, ws[j].m.outbox) && ws[i].m.pushed <= ws[j].m.pushed
  {
    if i == j {
      DescendsFrom(ws[i].m.outbox, ws[i].m.pushed, ws[j].m.outbox);
    } else {
      QueueDescends(ws, acts, i, j - 1);
      StepDescends(ws, acts, j - 1);
      DescendsTrans(ws[i].m.outbox, ws[i].m.pushed, ws[j - 1].m.outbox, ws[j - 1].m.pushed, ws[j].m.outbox);
    }
  }

  /** An item that stays queued keeps its recipient and its payload over any stretch of a
      run, but for a pending profile, which may be rewritten; its retries only rise. */
  lemma ItemsStayThemselves(ws: seq<World>, acts: seq<Act>, i: nat, j: nat, x: Item, y: Item)
    requires Run(ws, acts) && i <= j < |ws| && x in ws[i].m.outbox && y in ws[j].m.outbox && x.id == y.id
    ensures SameItem(x, y)
  {
    AlwaysInv(ws, acts, i);
    QueueDescends(ws, acts, i, j);
    assert GoodItem(ws[i].m.contacts, ws[i].m.pushed, x);
    var z :| z in ws[i].m.outbox && SameItem(z, y);
    IdUnique(ws[i].m.outbox, x, z);
  }

  /** What has left the queue never returns to it. */
  lemma {:induction false} GoneForGood(ws: seq<World>, acts: seq<Act>, i: nat, j: nat, id: nat)
    requires Run(ws, acts) && i <= j < |ws| && id < ws[i].m.pushed && !HasId(ws[i].m.outbox, id)
    ensures id < ws[j].m.pushed && !HasId(ws[j].m.outbox, id)
  {
    if i < j {
      GoneForGood(ws, acts, i, j - 1, id);
      StepOnlyOld(ws, acts, j - 1);
    }
  }

  /** In every state the queue is in push order, every item is for a contact that is not
      blocked, has a retry left, and holds a payload a peer running this code accepts. */
  lemma QueueIsSound(ws: seq<World>, acts: seq<Act>, i: nat)
    requires Run(ws, acts) && i < |ws|
    ensures forall a, b :: 0 <= a < b < |ws[i].m.outbox| ==> ws[i].m.outbox[a].id < ws[i].m.outbox[b].id
    ensures forall x :: x in ws[i].m.outbox ==>
      Reachable(ws[i].m.contacts, x.recipient) && x.retries < MAX_OUTBOX_RETRIES && Usable(x.envelope)
  {
    AlwaysInv(ws, acts, i);
    assert forall x :: x in ws[i].m.outbox ==> GoodItem(ws[i].m.contacts, ws[i].m.pushed, x);
  }

  /** How many steps of a stretch charged a failure. */
  function Failures(ws: seq<World>, acts: seq<Act>, i: nat, j: nat): nat
    requires |ws| == |acts| + 1 && i <= j <= |acts|
  {
    if i == j then 0 else Failures(ws, acts, i, j - 1) + if Fails(ws[j - 1].m, acts[j - 1].event) then 1 else 0
  }

  /** Each charged failure spends a retry, and only new items bring retries: so over any
      stretch there are at most ten charged failures for each item queued before or in it. */
  lemma {:induction false} FailuresAreBounded(ws: seq<World>, acts: seq<Act>, i: nat, j: nat)
    requires Run(ws, acts) && i <= j <= |acts|
    ensures Failures(ws, acts, i, j) + Patience(ws[j].m.outbox) + MAX_OUTBOX_RETRIES * ws[i].m.pushed
      <= Patience(ws[i].m.outbox) + MAX_OUTBOX_RETRIES * ws[j].m.pushed
    ensures Failures(ws, acts, i, j) <= MAX_OUTBOX_RETRIES * (|ws[i].m.outbox| + ws[j].m.pushed - ws[i].m.pushed)
  {
    PatienceCap(ws[i].m.outbox);
    if i < j {
      FailuresAreBounded(ws, acts, i, j - 1);
      StepPatience(ws, acts, j - 1);
    }
  }

  /** A charged failure strictly lowers the retries left, but for those of new items. */
  lemma StepPatience(ws: seq<World>, acts: seq<Act>, i: nat)
    requires Run(ws, acts) && i < |acts|
    ensures Patience(ws[i + 1].m.outbox) + (if Fails(ws[i].m, acts[i].event) then 1 else 0)
      <= Patience(ws[i].m.outbox) + MAX_OUTBOX_RETRIES * (ws[i + 1].m.pushed - ws[i].m.pushed)
  {
    StepIs(ws, acts, i);
  }

  // ---- 413 ----

  /** How often a budget can be halved before no batch of two fits it. */
  function Halvings(budget: nat): nat {
    if budget < 1024 then 0 else 1 + Halvings(budget / 2)
  }

  lemma {:induction false} HalvingsGrow(a: nat, b: nat)
    requires a <= b
    ensures Halvings(a) <= Halvings(b)
  {
    if a >= 1024 { HalvingsGrow(a / 2, b / 2); }
  }

  lemma TopHalvings()
    ensures Halvings(MAX_SEND_BATCH_BYTES) == 13
  {
    assert Halvings(4096) == 3;
    assert Halvings(32768) == 6;
    assert Halvings(262144) == 9;
    assert Halvings(2097152) == 12;
  }

  function Splits413(ws: seq<World>, acts: seq<Act>, i: nat, j: nat): nat
    requires |ws| == |acts| + 1 && i <= j <= |acts|
  {
    if i == j then 0 else Splits413(ws, acts, i, j - 1) + if Halves(ws[j - 1].m, acts[j - 1].event) then 1 else 0
  }

  lemma HalvingStep(ws: seq<World>, acts: seq<Act>, i: nat)
    requires Run(ws, acts) && i < |acts| && !Moves(acts[i].event)
    ensures Halvings(Budget(ws[i + 1].m)) + (if Halves(ws[i].m, acts[i].event) then 1 else 0) <= Halvings(Budget(ws[i].m))
  {
    StepIs(ws, acts, i);
    if Halves(ws[i].m, acts[i].event) {
      FlightSize(ws[i]);
      HalvingsGrow(Budget(ws[i + 1].m), Budget(ws[i].m) / 2);
    }
  }

  lemma {:induction false} SplitsSpend(ws: seq<World>, acts: seq<Act>, i: nat, j: nat)
    requires Run(ws, acts) && i <= j <= |acts| && Stays(acts, i, j)
    ensures Splits413(ws, acts, i, j) + Halvings(Budget(ws[j].m)) <= Halvings(Budget(ws[i].m))
  {
    if i < j {
      SplitsSpend(ws, acts, i, j - 1);
      HalvingStep(ws, acts, j - 1);
    }
  }

  /** Between moves to another relay at most thirteen answers split a batch, however long
      the run and whatever else happens: every one halves a budget that no batch of two
      can undercut below a thousand and twenty-four characters. */
  lemma SplittingEnds(ws: seq<World>, acts: seq<Act>, i: nat, j: nat)
    requires Run(ws, acts) && i <= j <= |acts| && Stays(acts, i, j)
    ensures Splits413(ws, acts, i, j) <= 13
  {
    AlwaysInv(ws, acts, i);
    SplitsSpend(ws, acts, i, j);
    HalvingsGrow(Budget(ws[i].m), MAX_SEND_BATCH_BYTES);
    TopHalvings();
  }

  // ---- storage ----

  ghost predicate Silent(o: Out) { forall key :: Write(key) !in o.effects }

  lemma SilentAuth(m: Model, env: Env)
    ensures Silent(Authenticate(m, env)) && Silent(StartPoll(m, env))
  {
  }

  lemma {:induction false} SupersedeLatched(m: Model, live: nat, peers: seq<Key>, ts: int)
    ensures SupersedeAll(m, live, peers, ts).kvFailed == m.kvFailed
  {
    if peers != [] { SupersedeLatched(m, live, peers[..|peers| - 1], ts); }
  }

  lemma SilentFlush(m: Model, keys: seq<string>, env: Env)
    requires m.kvFailed
    ensures Silent(Out(m, Saving(m, keys))) && Silent(Join(Out(m, Saving(m, keys)), FlushNext(m, env)))
  {
  }

  lemma SilentEdit(m: Model, profile: P.Payload, peers: seq<Key>, env: Env)
    requires m.kvFailed
    ensures Silent(SaveProfile(m, profile, peers, env))
  {
    var m1 := SupersedeAll(m.(profile := profile), Live(m), peers, env.now);
    SupersedeLatched(m.(profile := profile), Live(m), peers, env.now);
    SilentFlush(m1, ["profile", "outbox"], env);
  }

  lemma SilentWrite(m: Model, chat: Option<Key>, body: string, id: Id, env: Env)
    requires m.kvFailed
    ensures Silent(SendText(m, chat, body, id, env))
  {
    if chat.Some? { SilentFlush(Written(m, chat.value, body, id, env.now), [MessagesKey(chat.value), "contacts", "outbox"], env); }
  }

  lemma SilentUser(m: Model, e: Event, env: Env)
    requires m.kvFailed && (ByUser(e) || e.Loaded?)
    ensures Silent(Apply(m, e, env))
  {
    if e.EditProfile? {
      SilentEdit(m, e.profile, e.peers, env);
    } else if e.WriteText? {
      SilentWrite(m, e.chat, e.body, e.id, env);
    }
  }

  lemma SilentTimer(m: Model, e: Event, env: Env)
    requires m.kvFailed && !ByUser(e) && !e.Loaded? && !Answers(e)
    ensures Silent(Apply(m, e, env))
  {
    match e
    case Switch(url) => if url.Some? { assert Connect(Switched(m, url.value), env).effects == []; }
    case CursorSaved(_) => SilentAuth(m, env);
    case AuthTimer => SilentAuth(m, env);
    case PollTimer => SilentAuth(m, env);
    case AuthWatch(_) => SilentAuth(AbandonAuth(m), env);
    case PollWatch(_) => SilentAuth(AbandonPoll(m), env);
    case _ =>
  }

  lemma SilentLatched(m: Model, e: Event, env: Env)
    requires m.kvFailed
    ensures Silent(Apply(m, e, env))
  {
    match e
    case GotChallenge(_, _) =>
    case GotToken(_, token) => SilentAuth(m.(authenticating := false, token := token, conn := Online), env);
    case GotPage(_, _) => SilentAuth(m.(polling := false, token := None), env);
    case GotReceipt(_, a) => SilentSettle(m.(flushing := false, inFlight := None), m.inFlight, a, env);
    case _ => if ByUser(e) || e.Loaded? { SilentUser(m, e, env); } else { SilentTimer(m, e, env); }
  }

  lemma SilentSettle(m: Model, batch: Option<InFlight>, a: SendAnswer, env: Env)
    requires m.kvFailed
    ensures Silent(Settle(m, batch, a, env))
  {
    if a.SendStatus? && a.code == 401 { SilentAuth(m.(token := None), env); }
  }

  lemma StepLatch(ws: seq<World>, acts: seq<Act>, i: nat)
    requires Run(ws, acts) && i < |acts|
    ensures ws[i].m.kvFailed ==> ws[i + 1].m.kvFailed
  {
    StepIs(ws, acts, i);
  }

  lemma {:induction false} StaysLatched(ws: seq<World>, acts: seq<Act>, i: nat, j: nat)
    requires Run(ws, acts) && i <= j < |ws| && ws[i].m.kvFailed
    ensures ws[j].m.kvFailed
  {
    if i < j {
      StaysLatched(ws, acts, i, j - 1);
      StepLatch(ws, acts, j - 1);
    }
  }

  /** Once a load has failed, no later step of the run writes a stored key. */
  lemma LatchHolds(ws: seq<World>, acts: seq<Act>, i: nat, j: nat)
    requires Run(ws, acts) && i <= j < |acts| && ws[i].m.kvFailed
    ensures ws[j].m.kvFailed && forall key :: Write(key) !in Apply(ws[j].m, acts[j].event, acts[j].env).effects
  {
    StaysLatched(ws, acts, i, j);
    SilentLatched(ws[j].m, acts[j].event, acts[j].env);
  }

  /** No relay can stop our sends for more than five minutes past the clock. */
  lemma PauseIsBounded(ws: seq<World>, acts: seq<Act>, i: nat)
    requires Run(ws, acts) && i < |ws|
    ensures ws[i].m.pausedUntil <= ws[i].clock + MAX_RETRY_AFTER_MS
  {
    AlwaysInv(ws, acts, i);
  }

  // ---- conversations and watermarks ----

  /** In every state every conversation is ordered, at most a thousand long, free of
      repeated incoming ids, and covered by the seen set once there is one. */
  lemma InboxIsSound(ws: seq<World>, acts: seq<Act>, i: nat, k: Key)
    requires Run(ws, acts) && i < |ws|
    ensures PeerInv(PeerOf(ws[i].m, k))
  {
    AlwaysInv(ws, acts, i);
  }

  predicate NotDeleted(acts: seq<Act>, i: nat, j: nat, k: Key)
    requires i <= j <= |acts|
  {
    forall n :: i <= n < j ==> !(acts[n].event.Delete? && acts[n].event.peer == k)
  }

  /** Until a contact is deleted it stays, and its ack watermark never goes back; no
      watermark is ever ahead of the clock. */
  lemma {:induction false} WatermarkRises(ws: seq<World>, acts: seq<Act>, i: nat, j: nat, k: Key)
    requires Run(ws, acts) && i <= j < |ws| && NotDeleted(acts, i, j, k) && k in ws[i].m.contacts
    ensures k in ws[j].m.contacts && ws[i].m.contacts[k].lastAckTs <= ws[j].m.contacts[k].lastAckTs <= ws[j].clock
  {
    AlwaysInv(ws, acts, j);
    if i < j {
      WatermarkRises(ws, acts, i, j - 1, k);
      StepIs(ws, acts, j - 1);
    }
  }

  /** Every page folded in before state `i` was folded in by the clock `c`. */
  ghost predicate PagesUpTo(ws: seq<World>, acts: seq<Act>, i: nat, c: int)
    requires |ws| == |acts| + 1 && i < |ws|
  {
    forall j: nat :: j < i && Ingests(ws[j].m, acts[j].event) ==> acts[j].env.now <= c
  }

  lemma StepMarks(ws: seq<World>, acts: seq<Act>, i: nat, c: int)
    requires Run(ws, acts) && i < |acts| && 0 <= c && AckInv(ws[i].m, c)
    requires Ingests(ws[i].m, acts[i].event) ==> acts[i].env.now <= c
    ensures AckInv(ws[i + 1].m, c)
  {
    if Ingests(ws[i].m, acts[i].event) {
      AlwaysInv(ws, acts, i + 1);
      StepClock(ws, acts, i);
    } else {
      assert StepAt(ws, acts, i);
      OnlyPagesMark(ws[i].m, acts[i].event, acts[i].env);
    }
  }

  lemma StepClock(ws: seq<World>, acts: seq<Act>, i: nat)
    requires Run(ws, acts) && i < |acts|
    ensures ws[i + 1].clock == acts[i].env.now
  {
    assert StepAt(ws, acts, i);
  }

  /** Watermarks are set only by pages, and never past the clock then. */
  lemma {:induction false} MarksAreOfPages(ws: seq<World>, acts: seq<Act>, i: nat, c: int)
    requires Run(ws, acts) && i < |ws| && 0 <= c && AckInv(ws[0].m, c) && PagesUpTo(ws, acts, i, c)
    ensures AckInv(ws[i].m, c)
  {
    if i > 0 {
      MarksAreOfPages(ws, acts, i - 1, c);
      StepMarks(ws, acts, i - 1, c);
    }
  }

  /** In any run, an ack dated at or after the clock of every page folded in before, and
      after every watermark the run started with, is honoured wherever its page puts it and
      however long it was on its way: our messages it names are delivered after the step. */
  lemma RecentAckIsHonoured(ws: seq<World>, acts: seq<Act>, i: nat, j: nat, c: int)
    requires Run(ws, acts) && i < |acts| && Ingests(ws[i].m, acts[i].event)
    requires 0 <= c && AckInv(ws[0].m, c) && PagesUpTo(ws, acts, i, c)
    requires j < |AdmitPage(acts[i].event.page.events).decoded|
    requires var d := AdmitPage(acts[i].event.page.events).decoded[j];
      d.payload.Ack? && Heard(ws[i].m, d.sender) && c <= d.ts
    ensures var d := AdmitPage(acts[i].event.page.events).decoded[j];
      d.sender in ws[i + 1].m.messages ==>
        forall x :: x in ws[i + 1].m.messages[d.sender] && x.outgoing && x.id in d.payload.ids ==> x.delivered
  {
    MarksAreOfPages(ws, acts, i, c);
    AckAtStep(ws, acts, i, j, c);
  }

  lemma AckAtStep(ws: seq<World>, acts: seq<Act>, i: nat, j: nat, c: int)
    requires Run(ws, acts) && i < |acts| && Ingests(ws[i].m, acts[i].event) && 0 <= c && AckInv(ws[i].m, c)
    requires j < |AdmitPage(acts[i].event.page.events).decoded|
    requires var d := AdmitPage(acts[i].event.page.events).decoded[j];
      d.payload.Ack? && Heard(ws[i].m, d.sender) && c <= d.ts
    ensures var d := AdmitPage(acts[i].event.page.events).decoded[j];
      d.sender in ws[i + 1].m.messages ==>
        forall x :: x in ws[i + 1].m.messages[d.sender] && x.outgoing && x.id in d.payload.ids ==> x.delivered
  {
    var w, e, env := ws[i], acts[i].event, acts[i].env;
    StepIs(ws, acts, i);
    PageReady(w, w.m.(polling := false), env.now);
    var bound := Min(c, env.now);
    FreshAckCounts(w.m.(polling := false), e.page.cursor, e.page.events, bound, env.now, e.page.trail, e.page.ingested, j);
    IngestCore(w.m, e.q.gen, e.page, env);
  }
}

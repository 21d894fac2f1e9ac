/**
 The client among its outstanding requests.

 A request, once sent, can be answered at any later time or never; it cannot be called
 back. The world keeps every unanswered request, and beside them what relays have handed
 out: the tokens each issued, and the cursor of each page with events that the client took
 from it. `sent` is every request there ever was.
 */
module ClientWorld {
  import opened Conversations
  import opened ClientModel
  import opened ClientOutbox
  import P = Payloads

  datatype World = World(m: Model, net: set<Request>, sent: set<Request>, issued: set<(Url, Token)>, taken: set<(Url, int)>, clock: int)

  datatype Loop = PollLoop | AuthLoop | SendLoop

  function LoopOf(q: Request): Loop {
    if q.PollReq? then PollLoop else if q.SendReq? then SendLoop else AuthLoop
  }

  function Gen(m: Model, l: Loop): nat {
    match l case PollLoop => m.pollGen case AuthLoop => m.authGen case SendLoop => m.flushGen
  }

  predicate Guard(m: Model, l: Loop) {
    match l case PollLoop => m.polling case AuthLoop => m.authenticating case SendLoop => m.flushing
  }

  predicate Current(m: Model, q: Request) { q.gen == Gen(m, LoopOf(q)) }

  /** Some request of the loop's current generation is unanswered. */
  ghost predicate Unresolved(w: World, l: Loop) {
    exists q :: q in w.net && LoopOf(q) == l && q.gen == Gen(w.m, l)
  }

  /** Each guard is up exactly while the request of the current generation is unanswered,
      and there is only one such request. No attempt has gone past its challenge while the
      challenge is unanswered. */
  ghost predicate GenInv(w: World) {
    && w.net <= w.sent
    && (forall q :: q in w.sent ==> q.gen <= Gen(w.m, LoopOf(q)))
    && (forall l :: Guard(w.m, l) <==> Unresolved(w, l))
    && (forall q, r :: q in w.net && r in w.net && LoopOf(q) == LoopOf(r) && q.gen == r.gen ==> q == r)
    && (forall q, r :: q in w.sent && q.VerifyReq? && r in w.net && r.ChallengeReq? ==> q.gen != r.gen)
  }

  /** A cursor is not positive, or at most that of a page with events taken from this relay. */
  ghost predicate CursorOk(taken: set<(Url, int)>, url: Url, cursor: int) {
    cursor <= 0 || exists d :: (url, d) in taken && cursor <= d
  }

  /** Every poll and send goes to the relay that issued its token, and every poll presents
      a cursor of the relay it goes to. */
  ghost predicate Bound(w: World) {
    && (forall q :: q in w.net && Current(w.m, q) ==> q.url == w.m.url)
    && (forall q :: q in w.net && q.PollReq? ==> (q.url, q.token) in w.issued && CursorOk(w.taken, q.url, q.cursor))
    && (forall q :: q in w.net && q.SendReq? ==> (q.url, q.token) in w.issued)
    && (w.m.token.Some? ==> (w.m.url, w.m.token.value) in w.issued)
    && CursorOk(w.taken, w.m.url, w.m.cursor)
  }

  /** The request carries exactly the head of the queue that its success will pop. */
  ghost predicate Carries(m: Model, q: Request)
    requires m.inFlight.Some? && q.SendReq?
  {
    var f := m.inFlight.value;
    && 1 <= f.count == |q.carried| <= |m.outbox|
    && m.outbox[..f.count] == q.carried
    && (forall i :: 0 <= i < f.count ==> m.outbox[i].recipient == f.recipient)
    && 512 * f.count <= f.bytes
    && (f.count > 1 ==> f.bytes <= Budget(m))
  }

  /** None of what the request carries is in the queue, nor can be again. */
  ghost predicate Forgotten(m: Model, q: Request)
    requires q.SendReq?
  {
    forall x :: x in q.carried ==> x.id < m.pushed && !HasId(m.outbox, x.id)
  }

  /** The live send carries the head of the queue, or nothing that is in the queue. */
  ghost predicate FlightInv(w: World) {
    if w.m.inFlight.Some?
    then exists q :: q in w.net && q.SendReq? && q.gen == w.m.flushGen && Carries(w.m, q)
    else forall q :: q in w.net && q.SendReq? && q.gen == w.m.flushGen ==> Forgotten(w.m, q)
  }

  ghost predicate InboxInv(m: Model) {
    forall k :: PeerInv(PeerOf(m, k))
  }

  /** No watermark is ahead of the clock. */
  ghost predicate AckInv(m: Model, clock: int) {
    forall k :: k in m.contacts ==> m.contacts[k].lastAckTs <= clock
  }

  ghost predicate StateInv(m: Model, clock: int) {
    && m.identity && OutInv(m) && InboxInv(m) && AckInv(m, clock)
    && m.profile.Profile? && P.Acceptable(m.profile)
    && Budget(m) <= MAX_SEND_BATCH_BYTES && m.pausedUntil <= clock + MAX_RETRY_AFTER_MS
    && 0 <= clock && P.IsI64(clock + MAX_FUTURE_SKEW_MS)
  }

  ghost predicate NetInv(w: World) {
    GenInv(w) && Bound(w) && FlightInv(w)
  }

  ghost predicate WInv(w: World) {
    NetInv(w) && StateInv(w.m, w.clock)
  }

  // ---- effects ----

  function Requests(fx: seq<Effect>): set<Request> {
    set e | e in fx && e.Ask? :: e.request
  }

  function Advance(w: World, o: Out): World {
    w.(m := o.model, net := w.net + Requests(o.effects), sent := w.sent + Requests(o.effects))
  }

  /** What is sent was never sent before, and the world stays in order. */
  ghost predicate Sound(w: World, o: Out) {
    NetInv(Advance(w, o)) && Requests(o.effects) !! w.sent
  }

  lemma SoundJoin(w: World, o: Out, n: Out)
    requires Sound(w, o) && Sound(Advance(w, o), n)
    ensures Sound(w, Join(o, n))
  {
    AdvanceJoin(w, o, n);
    RequestsOf(o.effects, n.effects, ChallengeReq(0, ""), w.m, []);
  }

  lemma SoundSaving(w: World, m: Model, keys: seq<string>)
    requires NetInv(w.(m := m))
    ensures Sound(w, Out(m, Saving(m, keys))) && Sound(w, Quiet(m))
    ensures Advance(w, Out(m, Saving(m, keys))) == w.(m := m) == Advance(w, Quiet(m))
  {
    AdvanceSaving(w, m, keys);
    AdvanceJoin(w, Quiet(m), Quiet(m));
    RequestsOf([], [], ChallengeReq(0, ""), m, keys);
  }

  lemma RequestsOf(a: seq<Effect>, b: seq<Effect>, q: Request, m: Model, keys: seq<string>)
    ensures Requests(a + b) == Requests(a) + Requests(b)
    ensures Requests([]) == {} && Requests([Ask(q)]) == {q} && Requests(Saving(m, keys)) == {}
  {
    assert forall e :: e in [Ask(q)] <==> e == Ask(q);
    assert forall e :: e in a + b <==> e in a || e in b;
  }

  lemma AdvanceJoin(w: World, o: Out, n: Out)
    ensures Advance(w, Join(o, n)) == Advance(Advance(w, o), n)
    ensures Advance(w, Quiet(o.model)) == w.(m := o.model)
  {
    RequestsOf(o.effects, n.effects, ChallengeReq(0, ""), w.m, []);
  }

  lemma AdvanceSaving(w: World, m: Model, keys: seq<string>)
    ensures Advance(w, Out(m, Saving(m, keys))) == w.(m := m)
  {
    RequestsOf([], [], ChallengeReq(0, ""), m, keys);
  }

  // ---- moves every handler is made of ----

  /** The model with a loop's guard down, as its answer leaves it. */
  function Down(m: Model, l: Loop): Model {
    match l
    case PollLoop => m.(polling := false)
    case AuthLoop => m.(authenticating := false)
    case SendLoop => m.(flushing := false, inFlight := None)
  }

  /** The model with a loop's request given up on. */
  function Abandon(m: Model, l: Loop): Model {
    match l case PollLoop => AbandonPoll(m) case AuthLoop => AbandonAuth(m) case SendLoop => AbandonFlush(m)
  }

  lemma ResolveGen(w: World, q: Request, w': World)
    requires GenInv(w) && q in w.net
    requires w' == w.(net := w.net - {q}, m := if Current(w.m, q) then Down(w.m, LoopOf(q)) else w.m)
    ensures GenInv(w')
    ensures Current(w.m, q) ==> Guard(w.m, LoopOf(q))
  {
    assert forall l :: Gen(w'.m, l) == Gen(w.m, l);
    assert Current(w.m, q) ==> Unresolved(w, LoopOf(q));
    forall l ensures Guard(w'.m, l) <==> Unresolved(w', l) {
      assert Guard(w.m, l) <==> Unresolved(w, l);
      if Unresolved(w, l) {
        var r :| r in w.net && LoopOf(r) == l && r.gen == Gen(w.m, l);
        if r != q { assert r in w'.net; }
      }
    }
  }

  lemma ResolveFlight(w: World, q: Request, w': World)
    requires GenInv(w) && FlightInv(w) && q in w.net
    requires w' == w.(net := w.net - {q}, m := if Current(w.m, q) then Down(w.m, LoopOf(q)) else w.m)
    ensures FlightInv(w')
  {
    if w'.m.inFlight.Some? {
      var r :| r in w.net && r.SendReq? && r.gen == w.m.flushGen && Carries(w.m, r);
      assert r in w'.net && Carries(w'.m, r);
    } else {
      forall r | r in w'.net && r.SendReq? && r.gen == w'.m.flushGen ensures Forgotten(w'.m, r) {
        assert r in w.net;
        assert w.m.inFlight.Some? ==> LoopOf(q) == LoopOf(r) && q.gen == r.gen;
        assert Forgotten(w.m, r);
      }
    }
  }

  /** An answer takes its request off the net; only a current one lowers the guard. */
  lemma ResolveKeeps(w: World, q: Request)
    requires NetInv(w) && q in w.net
    ensures NetInv(w.(net := w.net - {q}, m := if Current(w.m, q) then Down(w.m, LoopOf(q)) else w.m))
    ensures Current(w.m, q) ==> Guard(w.m, LoopOf(q))
  {
    var w' := w.(net := w.net - {q}, m := if Current(w.m, q) then Down(w.m, LoopOf(q)) else w.m);
    ResolveGen(w, q, w');
    ResolveFlight(w, q, w');
    assert w'.net <= w.net && forall r :: Current(w'.m, r) == Current(w.m, r);
  }

  lemma AbandonGen(w: World, l: Loop)
    requires GenInv(w)
    ensures GenInv(w.(m := Abandon(w.m, l)))
  {
    var w' := w.(m := Abandon(w.m, l));
    forall k ensures Guard(w'.m, k) <==> Unresolved(w', k) {
      assert Guard(w.m, k) <==> Unresolved(w, k);
      if k != l && Unresolved(w, k) {
        var r :| r in w.net && LoopOf(r) == k && r.gen == Gen(w.m, k);
        assert r.gen == Gen(w'.m, k);
      }
    }
  }

  lemma AbandonFlight(w: World, l: Loop)
    requires GenInv(w) && FlightInv(w)
    ensures FlightInv(w.(m := Abandon(w.m, l)))
  {
    var w' := w.(m := Abandon(w.m, l));
    if w'.m.inFlight.Some? {
      var r :| r in w.net && r.SendReq? && r.gen == w.m.flushGen && Carries(w.m, r);
      assert Carries(w'.m, r);
    } else {
      forall r | r in w'.net && r.SendReq? && r.gen == w'.m.flushGen ensures Forgotten(w'.m, r) {
        assert r.gen <= Gen(w.m, LoopOf(r));
        assert Forgotten(w.m, r);
      }
    }
  }

  lemma AbandonKeeps(w: World, l: Loop)
    requires NetInv(w)
    ensures NetInv(w.(m := Abandon(w.m, l)))
  {
    AbandonGen(w, l);
    AbandonFlight(w, l);
    var w' := w.(m := Abandon(w.m, l));
    assert forall q :: q in w.net && Current(w'.m, q) ==> Current(w.m, q);
  }

  /** A request of a generation no earlier request had, or the second leg of an attempt. */
  predicate Opens(w: World, m': Model, q: Request) {
    && !Guard(w.m, LoopOf(q)) && Guard(m', LoopOf(q)) && q.gen == Gen(m', LoopOf(q)) >= Gen(w.m, LoopOf(q))
    && (q.gen > Gen(w.m, LoopOf(q)) || (q.VerifyReq? && q !in w.sent))
    && (forall l :: l != LoopOf(q) ==> Guard(m', l) == Guard(w.m, l) && Gen(m', l) == Gen(w.m, l))
  }

  lemma OpenGuard(w: World, m': Model, q: Request, l: Loop)
    requires Opens(w, m', q) && (Guard(w.m, l) <==> Unresolved(w, l))
    ensures Guard(m', l) <==> Unresolved(w.(m := m', net := w.net + {q}, sent := w.sent + {q}), l)
  {
    var w' := w.(m := m', net := w.net + {q}, sent := w.sent + {q});
    if l == LoopOf(q) {
      assert q in w'.net;
    } else if Unresolved(w, l) {
      var r :| r in w.net && LoopOf(r) == l && r.gen == Gen(w.m, l);
      assert r in w'.net && r.gen == Gen(m', l);
    }
  }

  lemma OpenIsNew(w: World, m': Model, q: Request)
    requires GenInv(w) && Opens(w, m', q)
    ensures q !in w.sent
    ensures forall r :: r in w.net && LoopOf(r) == LoopOf(q) ==> r.gen != q.gen
    ensures forall r :: r in w.sent ==> r.gen <= Gen(m', LoopOf(r))
    ensures q.ChallengeReq? ==> forall r :: r in w.sent && r.VerifyReq? ==> r.gen != q.gen
  {
    assert Guard(w.m, LoopOf(q)) <==> Unresolved(w, LoopOf(q));
    forall r | r in w.sent ensures r.gen <= Gen(m', LoopOf(r)) {
      assert r.gen <= Gen(w.m, LoopOf(r));
    }
  }

  lemma OpenGen(w: World, m': Model, q: Request)
    requires GenInv(w) && Opens(w, m', q)
    ensures GenInv(w.(m := m', net := w.net + {q}, sent := w.sent + {q}))
    ensures q !in w.sent
  {
    var w' := w.(m := m', net := w.net + {q}, sent := w.sent + {q});
    OpenIsNew(w, m', q);
    forall l ensures Guard(m', l) <==> Unresolved(w', l) { OpenGuard(w, m', q, l); }
  }

  /** What a request needs to be about the relay it is addressed to. */
  predicate Addressed(m: Model, m': Model, q: Request) {
    && m'.url == m.url == q.url && m'.token == m.token && m'.cursor == m.cursor
    && (q.PollReq? || q.SendReq? ==> m.token == Some(q.token))
    && (q.PollReq? ==> q.cursor == m.cursor)
  }

  lemma OpenBound(w: World, m': Model, q: Request)
    requires GenInv(w) && Bound(w) && Opens(w, m', q) && Addressed(w.m, m', q)
    ensures Bound(w.(m := m', net := w.net + {q}, sent := w.sent + {q}))
  {
    forall r | r in w.net && Current(m', r) ensures r.url == w.m.url {
      assert Current(w.m, r) || LoopOf(r) == LoopOf(q);
      assert r.gen <= Gen(w.m, LoopOf(r));
    }
  }

  predicate QueueSame(m: Model, m': Model) {
    m'.inFlight == m.inFlight && m'.outbox == m.outbox && m'.pushed == m.pushed && m'.budget == m.budget
  }

  lemma OpenFlight(w: World, m': Model, q: Request)
    requires GenInv(w) && FlightInv(w) && Opens(w, m', q)
    requires if q.SendReq? then m'.inFlight.Some? && Carries(m', q) else QueueSame(w.m, m')
    ensures FlightInv(w.(m := m', net := w.net + {q}, sent := w.sent + {q}))
  {
    var w' := w.(m := m', net := w.net + {q}, sent := w.sent + {q});
    if q.SendReq? {
      assert q in w'.net;
    } else {
      assert Gen(m', SendLoop) == Gen(w.m, SendLoop);
      if m'.inFlight.Some? {
        var r :| r in w.net && r.SendReq? && r.gen == w.m.flushGen && Carries(w.m, r);
        assert r in w'.net && Carries(m', r);
      } else {
        forall r | r in w'.net && r.SendReq? && r.gen == m'.flushGen ensures Forgotten(m', r) {
          assert r in w.net && Forgotten(w.m, r);
        }
      }
    }
  }

  /** A new request opens the next generation of a loop whose guard is down, or is the
      second leg of an auth round-trip whose first leg was just answered. */
  lemma OpenKeeps(w: World, m': Model, q: Request)
    requires NetInv(w) && Opens(w, m', q) && Addressed(w.m, m', q)
    requires if q.SendReq? then m'.inFlight.Some? && Carries(m', q) else QueueSame(w.m, m')
    ensures NetInv(w.(m := m', net := w.net + {q}, sent := w.sent + {q}))
    ensures q !in w.sent
  {
    OpenGen(w, m', q);
    OpenBound(w, m', q);
    OpenFlight(w, m', q);
  }

  /** Nothing about the net changes when the model changes elsewhere. */
  predicate NetSame(m: Model, m': Model) {
    && m'.url == m.url && m'.cursor == m.cursor && (m'.token == m.token || m'.token.None?)
    && m'.polling == m.polling && m'.pollGen == m.pollGen
    && m'.authenticating == m.authenticating && m'.authGen == m.authGen
    && m'.flushing == m.flushing && m'.flushGen == m.flushGen
  }

  /** The batch on the wire is as it was, and so is the head of the queue it stands for. */
  predicate SameHead(m: Model, m': Model)
    requires m'.inFlight.Some?
  {
    var n := m'.inFlight.value.count;
    && m'.inFlight == m.inFlight && m'.budget == m.budget
    && n <= |m'.outbox| && n <= |m.outbox| && m'.outbox[..n] == m.outbox[..n]
  }

  lemma NetSameKeeps(w: World, m': Model)
    requires NetInv(w) && NetSame(w.m, m')
    requires if m'.inFlight.Some? then SameHead(w.m, m') else !m'.flushing || (w.m.inFlight.None? && OnlyOld(w.m, m'))
    ensures NetInv(w.(m := m'))
  {
    var w' := w.(m := m');
    forall l ensures Guard(m', l) <==> Unresolved(w', l) {
      assert Guard(w.m, l) <==> Unresolved(w, l);
      assert Gen(m', l) == Gen(w.m, l);
    }
    if m'.inFlight.Some? {
      var r :| r in w.net && r.SendReq? && r.gen == w.m.flushGen && Carries(w.m, r);
      var n := m'.inFlight.value.count;
      forall i | 0 <= i < n ensures m'.outbox[i].recipient == m'.inFlight.value.recipient {
        assert m'.outbox[..n][i] == w.m.outbox[..n][i];
      }
      assert Carries(m', r);
    } else if m'.flushing {
      forall q | q in w.net && q.SendReq? && q.gen == m'.flushGen ensures Forgotten(m', q) {
        assert Forgotten(w.m, q);
      }
    } else {
      assert !Guard(m', SendLoop);
      assert !Unresolved(w', SendLoop);
    }
  }

  /** The peer being cut off was the one the live send is for: its items are gone from the
      queue, and the answer will pop nothing. */
  lemma DetachKeeps(w: World, m': Model, peer: Key)
    requires NetInv(w) && NetSame(w.m, m') && OutInv(w.m)
    requires w.m.inFlight.Some? && w.m.inFlight.value.recipient == peer && m'.inFlight.None?
    requires m'.pushed == w.m.pushed && m'.outbox == Sparing(w.m.outbox, peer)
    ensures NetInv(w.(m := m'))
  {
    var w' := w.(m := m');
    forall l ensures Guard(m', l) <==> Unresolved(w', l) {
      assert Guard(w.m, l) <==> Unresolved(w, l);
      assert Gen(m', l) == Gen(w.m, l);
    }
    var r :| r in w.net && r.SendReq? && r.gen == w.m.flushGen && Carries(w.m, r);
    forall x | x in r.carried ensures x.id < m'.pushed && !HasId(m'.outbox, x.id) {
      CarriedAreGone(w.m, r, peer, x);
    }
    forall q | q in w.net && q.SendReq? && q.gen == m'.flushGen ensures Forgotten(m', q) {
      assert LoopOf(q) == LoopOf(r) && q == r;
    }
  }

  lemma CarriedAreGone(m: Model, r: Request, peer: Key, x: Item)
    requires OutInv(m) && m.inFlight.Some? && m.inFlight.value.recipient == peer
    requires r.SendReq? && Carries(m, r) && x in r.carried
    ensures x.id < m.pushed && !HasId(Sparing(m.outbox, peer), x.id)
  {
    var i :| 0 <= i < |r.carried| && r.carried[i] == x;
    assert m.outbox[i] == m.outbox[..m.inFlight.value.count][i] == x;
    assert m.outbox[i] in m.outbox;
    SparingMembers(m.outbox, peer);
    forall y | y in m.outbox && y.recipient != peer ensures y.id != x.id {
      var j :| 0 <= j < |m.outbox| && m.outbox[j] == y;
      assert i < j || j < i;
    }
  }

  // ---- the handlers that send ----

  lemma ChallengeSends(w: World, env: Env)
    requires NetInv(w) && !w.m.authenticating && w.m.identity && env.builds
    ensures Sound(w, Authenticate(w.m, env))
  {
    var o := Authenticate(w.m, env);
    var q := ChallengeReq(w.m.authGen + 1, w.m.url);
    RequestsOf([], [], q, w.m, []);
    OpenKeeps(w, o.model, q);
    assert Advance(w, o) == w.(m := o.model, net := w.net + {q}, sent := w.sent + {q});
  }

  lemma AuthenticateKeeps(w: World, env: Env)
    requires NetInv(w)
    ensures Sound(w, Authenticate(w.m, env))
  {
    if w.m.authenticating || !w.m.identity || !env.builds {
      var o := Authenticate(w.m, env);
      NetSameKeeps(w, o.model);
      SoundSaving(w, o.model, []);
    } else {
      ChallengeSends(w, env);
    }
  }

  lemma PollSends(w: World, env: Env)
    requires NetInv(w) && !w.m.polling && w.m.token.Some? && env.builds
    ensures Sound(w, StartPoll(w.m, env))
  {
    var o := StartPoll(w.m, env);
    var q := PollReq(w.m.pollGen + 1, w.m.url, w.m.token.value, w.m.cursor);
    RequestsOf([], [], q, w.m, []);
    OpenKeeps(w, o.model, q);
    assert Advance(w, o) == w.(m := o.model, net := w.net + {q}, sent := w.sent + {q});
  }

  lemma StartPollKeeps(w: World, env: Env)
    requires NetInv(w)
    ensures Sound(w, StartPoll(w.m, env))
  {
    var o := StartPoll(w.m, env);
    if !w.m.polling && w.m.token.None? {
      AuthenticateKeeps(w, env);
    } else if w.m.polling || !env.builds {
      AdvanceJoin(w, o, o);
      NetSameKeeps(w, o.model);
    } else {
      PollSends(w, env);
    }
  }

  lemma GenBump(w: World, m': Model)
    requires NetInv(w) && !w.m.flushing && w.m.inFlight.None? && m'.inFlight.None?
    requires NetSame(w.m, m'.(flushGen := w.m.flushGen)) && m'.flushGen == w.m.flushGen + 1
    ensures NetInv(w.(m := m'))
  {
    AbandonKeeps(w, SendLoop);
    NetSameKeeps(w.(m := AbandonFlush(w.m)), m');
  }

  /** The request a flush sends. */
  function BatchRequest(m: Model, env: Env): Request
    requires MayFlush(m, env)
  {
    SendReq(m.flushGen + 1, m.url, m.token.value, Stamp(Fill(m.outbox, env, Budget(m), [], 0).taken, env.now))
  }

  lemma FlushBatch(m: Model, env: Env)
    requires MayFlush(m, env) && Fill(m.outbox, env, Budget(m), [], 0).taken != [] && env.builds
    ensures var o := FlushNext(m, env);
      && o.model.inFlight.Some? && Carries(o.model, BatchRequest(m, env))
      && o.effects == (if Dirty(Fill(m.outbox, env, Budget(m), [], 0), m.outbox) then Saving(m, ["outbox"]) else []) + [Ask(BatchRequest(m, env))]
  {
    var p := Fill(m.outbox, env, Budget(m), [], 0);
    FillFits(m.outbox, env, Budget(m), [], 0);
    var stamped := Stamp(p.taken, env.now);
    var o := FlushNext(m, env);
    assert o.model.outbox[..|stamped|] == stamped;
    forall i | 0 <= i < |stamped| ensures o.model.outbox[i].recipient == p.taken[0].recipient {
      assert o.model.outbox[i] == stamped[i];
    }
  }

  lemma LaunchShape(m: Model, count: nat, bytes: nat, dirty: bool, env: Env)
    requires 1 <= count <= |m.outbox| && m.token.Some?
    ensures var m' := Launch(m, count, bytes, dirty, env).model;
      m' == m.(flushing := m'.flushing, flushGen := m'.flushGen, inFlight := m'.inFlight)
  {
  }

  lemma FlushShape(m: Model, env: Env)
    ensures var m' := FlushNext(m, env).model;
      m' == m.(outbox := m'.outbox, flushing := m'.flushing, flushGen := m'.flushGen, inFlight := m'.inFlight)
  {
    if MayFlush(m, env) {
      var p := Fill(m.outbox, env, Budget(m), [], 0);
      if p.taken != [] {
        LaunchShape(m.(outbox := Stamp(p.taken, env.now) + p.rest), |p.taken|, p.bytes, Dirty(p, m.outbox), env);
      }
    }
  }

  lemma FlushSends(w: World, env: Env)
    requires NetInv(w) && MayFlush(w.m, env) && env.builds
    requires Fill(w.m.outbox, env, Budget(w.m), [], 0).taken != []
    ensures Sound(w, FlushNext(w.m, env))
  {
    var o := FlushNext(w.m, env);
    var q := BatchRequest(w.m, env);
    FlushBatch(w.m, env);
    FlushShape(w.m, env);
    var writes := if Dirty(Fill(w.m.outbox, env, Budget(w.m), [], 0), w.m.outbox) then Saving(w.m, ["outbox"]) else [];
    RequestsOf(writes, [Ask(q)], q, w.m, ["outbox"]);
    assert Requests(o.effects) == {q};
    OpenKeeps(w, o.model, q);
  }

  lemma FlushNextKeeps(w: World, env: Env)
    requires NetInv(w)
    ensures Sound(w, FlushNext(w.m, env))
  {
    var o := FlushNext(w.m, env);
    RequestsOf([], [], ChallengeReq(0, ""), w.m, ["outbox"]);
    FlushShape(w.m, env);
    if MayFlush(w.m, env) {
      FlushIdle(w);
      var p := Fill(w.m.outbox, env, Budget(w.m), [], 0);
      if p.taken == [] {
        assert Advance(w, o) == w.(m := o.model);
        NetSameKeeps(w, o.model);
      } else if !env.builds {
        assert Advance(w, o) == w.(m := o.model);
        GenBump(w, o.model);
      } else {
        FlushSends(w, env);
      }
    } else {
      assert Advance(w, o) == w;
    }
  }

  /** With no send out there is no batch to pop. */
  lemma FlushIdle(w: World)
    requires NetInv(w) && !w.m.flushing
    ensures w.m.inFlight.None?
  {
    if w.m.inFlight.Some? {
      var r :| r in w.net && r.SendReq? && r.gen == w.m.flushGen && Carries(w.m, r);
      assert Unresolved(w, SendLoop);
      assert false;
    }
  }

  lemma ReconnectKeeps(w: World, env: Env)
    requires NetInv(w)
    ensures Sound(w, Reconnect(w.m, env))
  {
    if w.m.kvFailed || !w.m.identity {
      AdvanceJoin(w, Quiet(w.m), Quiet(w.m));
    } else if !w.m.conn.Online? {
      AuthenticateKeeps(w, env);
    } else if !w.m.polling {
      StartPollKeeps(w, env);
    } else {
      AdvanceJoin(w, Quiet(w.m), Quiet(w.m));
    }
  }

  lemma RetryBatchKeeps(w: World, batch: Option<InFlight>, env: Env)
    requires NetInv(w) && w.m.inFlight.None? && !w.m.flushing
    ensures Sound(w, RetryBatch(w.m, batch, env))
  {
    if batch.None? {
      AdvanceJoin(w, Quiet(w.m), Quiet(w.m));
    } else {
      var n := Head(w.m, batch);
      var m1 := w.m.(outbox := Charge(w.m.outbox[..n], env.now) + w.m.outbox[n..]);
      NetSameKeeps(w, m1);
      AdvanceSaving(w, m1, ["outbox"]);
      var w1 := w.(m := m1);
      FlushNextKeeps(w1, env);
      AdvanceJoin(w, Out(m1, Saving(m1, ["outbox"])), FlushNext(m1, env));
    }
  }
}

/** Why a stored row or a queued forward may go, and that nothing else takes it. */
module RelayLosses {
  import opened Pools
  import opened RelayState
  import opened RelayMailbox
  import opened RelayForwards
  import opened RelayRuns
  import opened RelayPages

  // ---- rows ----

  /** The row is stored, whatever peers have accepted it since. */
  ghost predicate Stored(msgs: set<Message>, m: Message) { exists o :: o in msgs && SameRow(o, m) }

  function Newest(msgs: set<Message>, m: Message): set<Message> { set o | o in msgs && o.receivedAt > m.receivedAt }

  /** Why a row may go: its recipient's cursor covers it, thirty days have passed, or a new
      row came in for a recipient with 9999 newer rows or a relay with a million newer rows. */
  ghost predicate RowReason(w: World, e: Event, m: Message) {
    || (e.Setup? && e.key == m.toKey && m.receivedAt <= e.cursor)
    || (e.Expire? && e.t - m.receivedAt >= 2592000000)
    || ((e.Send? || e.Receive?) && e.to == m.toKey && |set o | o in Newest(w.relay.messages, m) && o.toKey == m.toKey| >= 9999)
    || ((e.Send? || e.Receive?) && |Newest(w.relay.messages, m)| >= 1000000)
  }

  lemma AppendLoses(s: State, k: Key, b: Blob, t: int, m: Message)
    requires MailInv(s) && m in s.messages && m !in Append(s, k, b, t).messages
    ensures (m.toKey == k && |set o | o in Newest(s.messages, m) && o.toKey == m.toKey| >= 9999)
         || |Newest(s.messages, m)| >= 1000000
  {
    RoomMade(s, k);
    var mine := RowsFor(s.messages, k);
    var kept := (s.messages - mine) + Spared(s.messages, k);
    if m in kept {
      assert Ahead(kept, Newer, m) <= Newest(s.messages, m);
      SubsetCard(Ahead(kept, Newer, m), Newest(s.messages, m));
    } else {
      assert Ahead(mine, Newer, m) == set o | o in Newest(s.messages, m) && o.toKey == m.toKey;
    }
  }

  /** A step keeps each row but for a stated reason. */
  lemma RowLeaves(w: World, e: Event, w': World, m: Message)
    requires Inv(w.relay) && Next(w, e, w') && m in w.relay.messages
    ensures Stored(w'.relay.messages, m) || RowReason(w, e, m)
  {
    if m in w'.relay.messages {
      assert SameRow(m, m);
    } else {
      match e
      case Send(to, blob, t, _) => AppendLoses(w.relay, to, blob, t, m);
      case Receive(to, blob, t) => AppendLoses(w.relay, to, blob, t, m);
      case Attempt(to, blob, server, ok) => MarkedRow(w.relay.messages, w'.relay.messages, to, blob, server, m);
      case Delivered(to, blob, server) => MarkedRow(w.relay.messages, w'.relay.messages, to, blob, server, m);
      case _ =>
    }
  }

  lemma MarkedRow(msgs: set<Message>, msgs': set<Message>, k: Key, b: Blob, server: Server, m: Message)
    requires m in msgs && (msgs' == msgs || msgs' == set o | o in msgs :: MarkRow(o, k, b, server))
    ensures Stored(msgs', m)
  {
    assert SameRow(m, m) && SameRow(MarkRow(m, k, b, server), m);
    if msgs' != msgs { assert MarkRow(m, k, b, server) in msgs'; }
  }

  /** Some step of the stretch took the row, for a stated reason. */
  ghost predicate RowTaken(ws: seq<World>, es: seq<Event>, i: nat, j: nat, m: Message)
    requires i <= j <= |es| < |ws|
  {
    exists n, o :: i <= n < j && o in ws[n].relay.messages && SameRow(o, m) && RowReason(ws[n], es[n], o)
  }

  /** Over any stretch of any run mail leaves the relay only by a cursor of its own recipient
      that covers it, by age, or by an append under one of the two ceilings. */
  lemma {:induction false} MailIsConserved(ws: seq<World>, es: seq<Event>, i: nat, j: nat, m: Message)
    requires Run(ws, es) && i <= j <= |es|
    requires Stored(ws[i].relay.messages, m) && !Stored(ws[j].relay.messages, m)
    ensures RowTaken(ws, es, i, j, m)
  {
    if !Stored(ws[j - 1].relay.messages, m) {
      MailIsConserved(ws, es, i, j - 1, m);
      var n, o :| i <= n < j - 1 && o in ws[n].relay.messages && SameRow(o, m) && RowReason(ws[n], es[n], o);
    } else {
      var o :| o in ws[j - 1].relay.messages && SameRow(o, m);
      AlwaysInv(ws, es, j - 1);
      assert StepAt(ws, es, j - 1);
      RowLeaves(ws[j - 1], es[j - 1], ws[j], o);
    }
  }

  lemma NewRowIsSent(w: World, e: Event, w': World, m: Message)
    requires Inv(w.relay) && Next(w, e, w') && m in w'.relay.messages && m.receivedAt > w.relay.counter
    ensures (e.Send? || e.Receive?) && e.to == m.toKey && e.blob == m.blob
  {
    match e
    case Attempt(to, blob, server, ok) => if ok { MarkKeeps(w.relay, to, blob, server); }
    case Delivered(to, blob, server) => MarkKeeps(w.relay, to, blob, server);
    case _ =>
  }

  /** In every state of every run each stored row is of a ciphertext that was sent to it. */
  lemma {:induction false} MailIsNotInvented(ws: seq<World>, es: seq<Event>, i: nat, m: Message)
    requires Run(ws, es) && i <= |es| && m in ws[i].relay.messages
    ensures exists j: nat :: j < i && (es[j].Send? || es[j].Receive?) && es[j].to == m.toKey && es[j].blob == m.blob
  {
    AlwaysInv(ws, es, i - 1);
    assert StepAt(ws, es, i - 1);
    if m.receivedAt > ws[i - 1].relay.counter {
      NewRowIsSent(ws[i - 1], es[i - 1], ws[i], m);
    } else {
      var o := RowOrigin(ws[i - 1], es[i - 1], ws[i], m);
      MailIsNotInvented(ws, es, i - 1, o);
    }
  }

  /** A sweep leaves no row of thirty days, and no forward without a row. */
  lemma ExpireIsTotal(w: World, e: Event, w': World)
    requires Next(w, e, w') && e.Expire?
    ensures forall m :: m in w'.relay.messages ==> m in w.relay.messages && e.t - m.receivedAt < 2592000000
    ensures forall f :: f in w'.relay.forwards ==>
      exists m :: m in w'.relay.messages && m.toKey == f.toKey && m.blob == f.blob
  {
  }

  /** A poll deletes exactly its key's rows up to the cursor it presents, and goes on from
      that cursor if it is one that can have been handed out. */
  lemma SetupIsExact(w: World, e: Event, w': World)
    requires Inv(w.relay) && Next(w, e, w') && e.Setup?
    ensures w'.relay.messages == set m | m in w.relay.messages && !(m.toKey == e.key && m.receivedAt <= e.cursor)
    ensures e.id in w'.polls && w'.polls[e.id].key == e.key && !w'.polls[e.id].waiting
    ensures 0 <= e.cursor <= w.relay.counter ==> w'.polls[e.id].cursor == e.cursor
    ensures 0 <= w'.polls[e.id].cursor && (w'.polls[e.id].cursor <= w.relay.counter || w'.polls[e.id].cursor <= e.t)
  {
  }

  /** A page holds exactly the oldest fifty of its key's rows that are above the cursor and
      not thirty days old. */
  lemma PageIsExact(w: World, id: nat, t: int, m: Message)
    requires id in w.polls && m in w.relay.messages
    ensures var unread := set o | o in w.relay.messages && o.toKey == w.polls[id].key && o.receivedAt > w.polls[id].cursor
                                  && t - o.receivedAt < 2592000000;
      m in PageOf(w, id, t) <==> m in unread && |set o | o in unread && o.receivedAt < m.receivedAt| < 50
  {
    var unread := set o | o in w.relay.messages && o.toKey == w.polls[id].key && o.receivedAt > w.polls[id].cursor
                          && t - o.receivedAt < 2592000000;
    assert FreshFor(w.relay.messages, w.polls[id].key, w.polls[id].cursor, t) == unread;
    assert Ahead(unread, Older, m) == set o | o in unread && o.receivedAt < m.receivedAt;
  }

  // ---- forwards ----

  ghost predicate QueuedAs(fwds: set<Forward>, f: Forward) { exists g :: g in fwds && Matches(g, f.toKey, f.blob, f.toServer) }

  predicate IsAbout(f: Forward, k: Key, b: Blob, server: Server) { f.toKey == k && f.blob == b && f.toServer == server }

  /** The outbox is full of entries that are at or before this one. */
  ghost predicate Crowded(fwds: set<Forward>, f: Forward) {
    |fwds| == 50000 && forall g :: g in fwds ==> g.retries < f.retries || (g.retries == f.retries && TextLe(g.blob, f.blob))
  }

  /** Why a forward may go: it was accepted, its tenth attempt failed, its row was acked or is
      gone, its key went offline there, the peer is denied, or the outbox overflowed. */
  ghost predicate ForwardReason(w: World, e: Event, w': World, f: Forward) {
    || (e.Attempt? && IsAbout(f, e.to, e.blob, e.server) && (e.ok || f.retries == 9))
    || (e.Delivered? && IsAbout(f, e.to, e.blob, e.server))
    || (e.Setup? && f.toKey == e.key && exists m :: m in w.relay.messages && m.toKey == e.key && m.blob == f.blob && m.receivedAt <= e.cursor)
    || (e.Expire? && forall m :: m in w.relay.messages && m.toKey == f.toKey && m.blob == f.blob ==> e.t - m.receivedAt >= 2592000000)
    || (e.Offline? && e.server == f.toServer && f.toKey in e.keys)
    || (e.Denied? && e.server == f.toServer)
    || ((e.Send? || e.Announce?) && Crowded(w'.relay.forwards, f))
  }

  lemma CapCuts(fwds: set<Forward>, kept: set<Forward>, f: Forward)
    requires Capped(fwds, kept) && f in fwds && f !in kept
    ensures Crowded(kept, f)
  {
    if |fwds| <= MAX_FORWARDS_TOTAL { SubsetCard(kept, fwds); }
  }

  lemma SweptLeaves(s: State, k: Key, b: Blob, server: Server, ok: bool, f: Forward)
    requires f in s.forwards && Sound(s.messages, s.forwards)
    ensures QueuedAs(Swept(s, k, b, server, ok).forwards, f) || (IsAbout(f, k, b, server) && (ok || f.retries == 9))
  {
    if !Done(f, k, b, server, ok) { assert Bump(f, k, b, server) in Swept(s, k, b, server, ok).forwards; }
  }

  /** A step keeps each forward queued but for a stated reason. */
  lemma ForwardLeaves(w: World, e: Event, w': World, f: Forward)
    requires Inv(w.relay) && Next(w, e, w') && f in w.relay.forwards
    ensures QueuedAs(w'.relay.forwards, f) || ForwardReason(w, e, w', f)
  {
    if f in w'.relay.forwards {
      assert Matches(f, f.toKey, f.blob, f.toServer);
    } else {
      match e
      case Send(to, blob, t, remote) => CapCuts(w.relay.forwards + StagedBySend(w.relay, to, blob, remote), w'.relay.forwards, f);
      case Announce(keys, server) => CapCuts(w.relay.forwards + StagedByPresence(w.relay, keys, server), w'.relay.forwards, f);
      case Attempt(to, blob, server, ok) => SweptLeaves(w.relay, to, blob, server, ok, f);
      case _ =>
    }
  }

  ghost predicate ForwardTaken(ws: seq<World>, es: seq<Event>, i: nat, j: nat, f: Forward)
    requires i <= j <= |es| < |ws|
  {
    exists n, g :: i <= n < j && g in ws[n].relay.forwards && Matches(g, f.toKey, f.blob, f.toServer)
                   && ForwardReason(ws[n], es[n], ws[n + 1], g)
  }

  /** Over any stretch of any run a forward leaves the outbox only for a stated reason: a
      failed attempt alone never ends it before the tenth. */
  lemma {:induction false} ForwardsAreConserved(ws: seq<World>, es: seq<Event>, i: nat, j: nat, f: Forward)
    requires Run(ws, es) && i <= j <= |es|
    requires QueuedAs(ws[i].relay.forwards, f) && !QueuedAs(ws[j].relay.forwards, f)
    ensures ForwardTaken(ws, es, i, j, f)
  {
    if !QueuedAs(ws[j - 1].relay.forwards, f) {
      ForwardsAreConserved(ws, es, i, j - 1, f);
      var n, g :| i <= n < j - 1 && g in ws[n].relay.forwards && Matches(g, f.toKey, f.blob, f.toServer)
                  && ForwardReason(ws[n], es[n], ws[n + 1], g);
    } else {
      var g :| g in ws[j - 1].relay.forwards && Matches(g, f.toKey, f.blob, f.toServer);
      AlwaysInv(ws, es, j - 1);
      assert StepAt(ws, es, j - 1);
      ForwardLeaves(ws[j - 1], es[j - 1], ws[j], g);
    }
  }

  /** A failed attempt that is not the tenth costs its entry one retry and changes nothing
      else. */
  lemma FailedAttempt(w: World, e: Event, w': World, f: Forward)
    requires Inv(w.relay) && Next(w, e, w') && e.Attempt? && !e.ok
    requires f in w.relay.forwards && IsAbout(f, e.to, e.blob, e.server) && f.retries < 9
    ensures w'.relay == w.relay.(forwards := (w.relay.forwards - {f}) + {f.(retries := f.retries + 1)})
  {
    var fwds := w.relay.forwards;
    forall g | g in fwds && g != f ensures Bump(g, e.to, e.blob, e.server) == g && !Done(g, e.to, e.blob, e.server, false) {
      assert !Matches(g, f.toKey, f.blob, f.toServer);
    }
    assert Bump(f, e.to, e.blob, e.server) == f.(retries := f.retries + 1) && !Done(f, e.to, e.blob, e.server, false);
    assert w'.relay.forwards == (fwds - {f}) + {f.(retries := f.retries + 1)};
  }

  /** Each reason but the overflow does take the entry. */
  lemma ReasonTakes(w: World, e: Event, w': World, f: Forward)
    requires Inv(w.relay) && Next(w, e, w') && f in w.relay.forwards
    requires ForwardReason(w, e, w', f) && !e.Send? && !e.Announce?
    ensures !QueuedAs(w'.relay.forwards, f)
  {
    if e.Attempt? { SweptTakes(w.relay, e.to, e.blob, e.server, e.ok, f); }
    if e.Setup? { AckTakes(w, e, w', f); }
  }

  lemma SweptTakes(s: State, k: Key, b: Blob, server: Server, ok: bool, f: Forward)
    requires Sound(s.messages, s.forwards) && f in s.forwards && IsAbout(f, k, b, server) && (ok || f.retries == 9)
    ensures !QueuedAs(Swept(s, k, b, server, ok).forwards, f)
  {
    if g :| g in Swept(s, k, b, server, ok).forwards && Matches(g, f.toKey, f.blob, f.toServer) {
      var o :| o in s.forwards && !Done(o, k, b, server, ok) && g == Bump(o, k, b, server);
      assert Matches(o, f.toKey, f.blob, f.toServer);
    }
  }

  lemma AckTakes(w: World, e: Event, w': World, f: Forward)
    requires Inv(w.relay) && Next(w, e, w') && e.Setup? && f in w.relay.forwards && f.toKey == e.key
    requires exists m :: m in w.relay.messages && m.toKey == e.key && m.blob == f.blob && m.receivedAt <= e.cursor
    ensures !QueuedAs(w'.relay.forwards, f)
  {
    var m :| m in w.relay.messages && m.toKey == e.key && m.blob == f.blob && m.receivedAt <= e.cursor;
    var c := Clamp(w.relay, e.cursor, e.t);
    assert 0 < m.receivedAt <= c;
    if g :| g in w'.relay.forwards && Matches(g, f.toKey, f.blob, f.toServer) { AckedForwardsGone(w.relay, e.key, c, m, g); }
  }

  // ---- what is staged ----

  /** Entries come from sends and announcements only: for a peer named there, for a message
      it has not accepted and that is not queued for it, and with no attempt behind them. */
  lemma NewForwardIsOwed(w: World, e: Event, w': World, f: Forward)
    requires Inv(w.relay) && Next(w, e, w') && f in w'.relay.forwards && !QueuedAs(w.relay.forwards, f)
    ensures f.retries == 0
    ensures (e.Send? && f.toKey == e.to && f.blob == e.blob && f.toServer in e.remote)
         || (e.Announce? && f.toServer == e.server && f.toKey in e.keys
             && exists m :: m in w.relay.messages && m.toKey == f.toKey && m.blob == f.blob)
    ensures forall m :: m in w.relay.messages && m.toKey == f.toKey && m.blob == f.blob ==> f.toServer !in m.deliveredTo
  {
    if f in w.relay.forwards { OldIsQueued(w.relay.forwards, f); }
    if e.Attempt? { SweptIsOld(w.relay, e.to, e.blob, e.server, e.ok, f); }
  }

  lemma OldIsQueued(fwds: set<Forward>, f: Forward)
    requires f in fwds
    ensures QueuedAs(fwds, f)
  {
    assert Matches(f, f.toKey, f.blob, f.toServer);
  }

  lemma SweptIsOld(s: State, k: Key, b: Blob, server: Server, ok: bool, f: Forward)
    requires f in Swept(s, k, b, server, ok).forwards
    ensures QueuedAs(s.forwards, f)
  {
    var o :| o in s.forwards && !Done(o, k, b, server, ok) && f == Bump(o, k, b, server);
    var g := Bump(o, k, b, server);
    assert g.toKey == o.toKey && g == f;
    assert Matches(o, f.toKey, f.blob, f.toServer);
  }

  /** A send is queued for each peer named that has not accepted it, has fewer than two
      thousand entries, while the outbox has room for all. */
  lemma SendReaches(w: World, e: Event, w': World, server: Server)
    requires Inv(w.relay) && Next(w, e, w') && e.Send? && server in e.remote
    requires |w.relay.forwards| + |e.remote| <= 50000 && |To(w.relay.forwards, server)| < 2000
    requires forall m :: m in w.relay.messages && m.toKey == e.to && m.blob == e.blob ==> server !in m.deliveredTo
    ensures exists f :: f in w'.relay.forwards && IsAbout(f, e.to, e.blob, server)
  {
    var staged := StagedBySend(w.relay, e.to, e.blob, e.remote);
    var all := w.relay.forwards + staged;
    StagedCard(w.relay, e.to, e.blob, e.remote);
    SubsetCard(w'.relay.forwards, all);
    assert w'.relay.forwards == all;
    if exists f :: f in w.relay.forwards && Matches(f, e.to, e.blob, server) {
      var f :| f in w.relay.forwards && Matches(f, e.to, e.blob, server);
      assert f in all;
    } else {
      assert Forward(server, e.to, e.blob, 0) in staged;
    }
  }

  lemma {:induction false} StagedCard(s: State, k: Key, b: Blob, remote: set<Server>)
    ensures |StagedBySend(s, k, b, remote)| <= |remote|
    decreases |remote|
  {
    var staged := StagedBySend(s, k, b, remote);
    if remote == {} {
      assert staged == {};
    } else {
      var x :| x in remote;
      StagedCard(s, k, b, remote - {x});
      var fewer := StagedBySend(s, k, b, remote - {x});
      assert staged <= fewer + {Forward(x, k, b, 0)};
      SubsetCard(staged, fewer + {Forward(x, k, b, 0)});
    }
  }

  /** A row for a key announced online is queued for the peer, unless it has accepted it, if
      with the older rows like it there is room for two thousand entries of that peer and
      fifty thousand in all. */
  lemma AnnounceReaches(w: World, e: Event, w': World, m: Message)
    requires Inv(w.relay) && Next(w, e, w') && e.Announce? && m in w.relay.messages && m.toKey in e.keys && e.server !in m.deliveredTo
    requires |w.relay.forwards| + 2000 <= 50000 + |To(w.relay.forwards, e.server)|
    requires |set o | o in w.relay.messages && o.toKey in e.keys && o.receivedAt < m.receivedAt| + |To(w.relay.forwards, e.server)| < 2000
    ensures exists f :: f in w'.relay.forwards && IsAbout(f, m.toKey, m.blob, e.server)
  {
    var s := w.relay;
    var all := s.forwards + StagedByPresence(s, e.keys, e.server);
    PresenceFits(s, e.keys, e.server);
    SubsetCard(w'.relay.forwards, all);
    assert w'.relay.forwards == all;
    if exists f :: f in s.forwards && Matches(f, m.toKey, m.blob, e.server) {
      var f :| f in s.forwards && Matches(f, m.toKey, m.blob, e.server);
      assert f in all;
    } else {
      var older := set o | o in s.messages && o.toKey in e.keys && o.receivedAt < m.receivedAt;
      var candidates := Candidates(s, e.keys, e.server);
      assert m in candidates && Ahead(candidates, Older, m) <= older;
      SubsetCard(Ahead(candidates, Older, m), older);
      assert m in Chosen(s, e.keys, e.server);
      assert Forward(e.server, m.toKey, m.blob, 0) in all;
    }
  }

  // ---- accepted by a peer ----

  /** The step records that the peer accepted the ciphertext. */
  predicate Accepts(e: Event, k: Key, b: Blob, server: Server) {
    ((e.Attempt? && e.ok) || e.Delivered?) && e.to == k && e.blob == b && e.server == server
  }

  /** The row later: it names the peers it named, and one that just accepted it. */
  ghost predicate Later(m: Message, e: Event, o: Message) {
    SameRow(m, o) && forall server :: server in o.deliveredTo <==> server in m.deliveredTo || Accepts(e, o.toKey, o.blob, server)
  }

  lemma MarkedStep(msgs: set<Message>, k: Key, b: Blob, server: Server, o: Message) returns (m: Message)
    requires o in set x | x in msgs :: MarkRow(x, k, b, server)
    ensures m in msgs && SameRow(m, o)
    ensures forall s :: s in o.deliveredTo <==> s in m.deliveredTo || (o.toKey == k && o.blob == b && s == server)
  {
    m :| m in msgs && o == MarkRow(m, k, b, server);
  }

  /** A row learns of a peer only when that peer accepts it, and forgets none. */
  lemma AcceptedStep(w: World, e: Event, w': World, o: Message) returns (m: Message)
    requires Inv(w.relay) && Next(w, e, w') && o in w'.relay.messages && o.receivedAt <= w.relay.counter
    ensures m in w.relay.messages && Later(m, e, o)
  {
    m := o;
    match e
    case Send(to, blob, t, _) => AppendKeeps(w.relay, to, blob, t);
    case Receive(to, blob, t) => AppendKeeps(w.relay, to, blob, t);
    case Attempt(to, blob, server, ok) => if ok { m := MarkedStep(w.relay.messages, to, blob, server, o); }
    case Delivered(to, blob, server) => m := MarkedStep(w.relay.messages, to, blob, server, o);
    case _ =>
  }

  lemma NewRowIsUnaccepted(w: World, e: Event, w': World, o: Message)
    requires Inv(w.relay) && Next(w, e, w') && o in w'.relay.messages && o.receivedAt > w.relay.counter
    ensures o.deliveredTo == {}
  {
    match e
    case Attempt(to, blob, server, ok) => if ok { MarkKeeps(w.relay, to, blob, server); }
    case Delivered(to, blob, server) => MarkKeeps(w.relay, to, blob, server);
    case _ =>
  }

  /** In every state of every run a row names a peer only if that peer accepted it. */
  lemma {:induction false} NamedOnlyIfAccepted(ws: seq<World>, es: seq<Event>, i: nat, m: Message, server: Server)
    requires Run(ws, es) && i <= |es| && m in ws[i].relay.messages && server in m.deliveredTo
    ensures exists j: nat :: j < i && Accepts(es[j], m.toKey, m.blob, server)
  {
    AlwaysInv(ws, es, i - 1);
    assert StepAt(ws, es, i - 1);
    if m.receivedAt > ws[i - 1].relay.counter {
      NewRowIsUnaccepted(ws[i - 1], es[i - 1], ws[i], m);
    } else if !Accepts(es[i - 1], m.toKey, m.blob, server) {
      var o := AcceptedStep(ws[i - 1], es[i - 1], ws[i], m);
      NamedOnlyIfAccepted(ws, es, i - 1, o, server);
    }
  }

  lemma RowBefore(ws: seq<World>, es: seq<Event>, i: nat, j: nat, m: Message) returns (o: Message)
    requires Run(ws, es) && i <= j < |es| && m in ws[j + 1].relay.messages && m.receivedAt <= ws[i].relay.counter
    ensures o in ws[j].relay.messages && Later(o, es[j], m)
  {
    AlwaysInv(ws, es, j);
    assert StepAt(ws, es, j);
    CounterRises(ws, es, i, j);
    o := AcceptedStep(ws[j], es[j], ws[j + 1], m);
  }

  /** Once a peer has accepted a row, the row names it for as long as it is stored. */
  lemma {:induction false} AcceptedForGood(ws: seq<World>, es: seq<Event>, i: nat, j: nat, m: Message, server: Server)
    requires Run(ws, es) && i < j <= |es| && m in ws[j].relay.messages && m.receivedAt <= ws[i].relay.counter
    requires Accepts(es[i], m.toKey, m.blob, server)
    ensures server in m.deliveredTo
    decreases j
  {
    var o := RowBefore(ws, es, i, j - 1, m);
    if i < j - 1 { AcceptedForGood(ws, es, i, j - 1, o, server); }
  }

  /** In every run a peer that has accepted a message is never queued the message again,
      whatever is announced or sent, while the relay stores it. */
  lemma NeverForwardedAgain(ws: seq<World>, es: seq<Event>, i: nat, j: nat, m: Message, server: Server, f: Forward)
    requires Run(ws, es) && i < j <= |es| && m in ws[j].relay.messages && m.receivedAt <= ws[i].relay.counter
    requires Accepts(es[i], m.toKey, m.blob, server) && f in ws[j].relay.forwards
    ensures !IsAbout(f, m.toKey, m.blob, server)
  {
    AlwaysInv(ws, es, j);
    AcceptedForGood(ws, es, i, j, m, server);
  }
}

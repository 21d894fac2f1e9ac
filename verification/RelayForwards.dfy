/** The outbox of forwards to peer relays, and every atomic block that writes it. */
module RelayForwards {
  import opened Pools
  import opened RelayState
  import opened RelayMailbox

  // ---- the order `capForwards` sorts by ----

  predicate TextLe(a: string, b: string) {
    a == "" || (b != "" && (a[0] < b[0] || (a[0] == b[0] && TextLe(a[1..], b[1..]))))
  }

  /** Fewer retries first, then the smaller ciphertext. */
  predicate Sooner(a: Forward, b: Forward) {
    a.retries < b.retries || (a.retries == b.retries && TextLe(a.blob, b.blob))
  }

  lemma {:induction false} TextOrder(a: string, b: string, c: string)
    ensures TextLe(a, b) || TextLe(b, a)
    ensures TextLe(a, b) && TextLe(b, c) ==> TextLe(a, c)
    ensures TextLe(a, b) && TextLe(b, a) ==> a == b
  {
    if a != "" && b != "" && c != "" {
      TextOrder(a[1..], b[1..], c[1..]);
      assert a == [a[0]] + a[1..] && b == [b[0]] + b[1..];
    } else if a != "" && b != "" {
      TextOrder(a[1..], b[1..], c);
      assert a == [a[0]] + a[1..] && b == [b[0]] + b[1..];
    }
  }

  /** The order of texts is the usual one: a prefix comes first, and else the first difference
      decides. */
  predicate FirstDifference(a: string, b: string, n: nat) {
    n <= |a| && n <= |b| && a[..n] == b[..n] && (n == |a| || (n < |b| && a[n] < b[n]))
  }

  lemma {:induction false} TextLeIsOrder(a: string, b: string)
    ensures TextLe(a, b) <==> exists n: nat :: FirstDifference(a, b, n)
  {
    if a == "" {
      assert FirstDifference(a, b, 0);
    } else if b != "" {
      if a[0] < b[0] {
        assert FirstDifference(a, b, 0);
      } else if a[0] == b[0] {
        TextLeIsOrder(a[1..], b[1..]);
        if n: nat :| FirstDifference(a[1..], b[1..], n) { assert a[..n + 1] == [a[0]] + a[1..][..n] && FirstDifference(a, b, n + 1); }
        if n: nat :| FirstDifference(a, b, n) { LaterDifference(a, b, n); }
      }
    }
  }

  lemma LaterDifference(a: string, b: string, n: nat)
    requires FirstDifference(a, b, n) && a != "" && b != "" && a[0] == b[0]
    ensures n > 0 && FirstDifference(a[1..], b[1..], n - 1)
  {
    assert a[1..][..n - 1] == a[..n][1..];
  }

  lemma ForwardOrder(fwds: set<Forward>)
    ensures TotalPreorder(fwds, Sooner)
  {
    forall a, b, c: Forward ensures Sooner(a, b) || Sooner(b, a)
                            ensures Sooner(a, b) && Sooner(b, c) ==> Sooner(a, c) {
      TextOrder(a.blob, b.blob, c.blob);
    }
  }

  /** The outbox after a writer added rows: capped, in one of the ways ties allow. */
  ghost predicate Capped(fwds: set<Forward>, kept: set<Forward>) {
    Keeps(fwds, MAX_FORWARDS_TOTAL, Sooner, kept)
  }

  // ---- the invariant ----

  function To(fwds: set<Forward>, server: Server): set<Forward> {
    set f | f in fwds && f.toServer == server
  }

  /** Every clause of the outbox invariant but the global ceiling. */
  ghost predicate Sound(msgs: set<Message>, fwds: set<Forward>) {
    && (forall f, g :: f in fwds && g in fwds && Matches(f, g.toKey, g.blob, g.toServer) ==> f == g)
    && (forall f, m :: f in fwds && m in msgs && m.toKey == f.toKey && m.blob == f.blob ==> f.toServer !in m.deliveredTo)
    && (forall f :: f in fwds ==> 0 <= f.retries < MAX_FORWARD_RETRIES)
    && (forall server :: |To(fwds, server)| <= MAX_FORWARDS_PER_SERVER)
  }

  ghost predicate Inv(s: State) {
    MailInv(s) && Sound(s.messages, s.forwards) && |s.forwards| <= MAX_FORWARDS_TOTAL
  }

  lemma SoundSubset(msgs: set<Message>, fwds: set<Forward>, msgs': set<Message>, fwds': set<Forward>)
    requires Sound(msgs, fwds)
    requires fwds' <= fwds
    requires forall m :: m in msgs' ==> m in msgs || m.deliveredTo == {}
    ensures Sound(msgs', fwds')
    ensures |fwds'| <= |fwds|
  {
    SubsetCard(fwds', fwds);
    forall server ensures |To(fwds', server)| <= MAX_FORWARDS_PER_SERVER {
      SubsetCard(To(fwds', server), To(fwds, server));
    }
  }

  // ---- atomic blocks that only remove ----

  /** A peer reported keys offline, or its name is on the deny list. */
  function Cancel(s: State, server: Server, keys: set<Key>): State {
    s.(forwards := set f | f in s.forwards && !(f.toServer == server && f.toKey in keys))
  }

  function DropServer(s: State, server: Server): State {
    s.(forwards := set f | f in s.forwards && f.toServer != server)
  }

  lemma PruneKeeps(s: State, t: int)
    requires Inv(s)
    ensures Inv(Prune(s, t))
  {
    FewerRows(s, Prune(s, t));
    SoundSubset(s.messages, s.forwards, Prune(s, t).messages, Prune(s, t).forwards);
  }

  lemma RemovalsKeep(s: State, k: Key, cursor: int, t: int, server: Server, keys: set<Key>)
    requires Inv(s)
    ensures Inv(Ack(s, k, cursor)) && Inv(Prune(s, t)) && Inv(Cancel(s, server, keys)) && Inv(DropServer(s, server))
  {
    FewerRows(s, Ack(s, k, cursor));
    SoundSubset(s.messages, s.forwards, Ack(s, k, cursor).messages, Ack(s, k, cursor).forwards);
    PruneKeeps(s, t);
    SoundSubset(s.messages, s.forwards, s.messages, Cancel(s, server, keys).forwards);
    SoundSubset(s.messages, s.forwards, s.messages, DropServer(s, server).forwards);
  }

  /** No forward outlives a row its recipient acked. */
  lemma AckedForwardsGone(s: State, k: Key, cursor: int, m: Message, f: Forward)
    requires m in s.messages && m.toKey == k && m.receivedAt <= cursor
    requires f in Ack(s, k, cursor).forwards
    ensures !(f.toKey == m.toKey && f.blob == m.blob)
    ensures m !in Ack(s, k, cursor).messages
  {
    var acked := set x | x in s.messages && x.toKey == k && x.receivedAt <= cursor;
    assert m in acked;
  }

  // ---- outcomes of attempts ----

  function Bump(f: Forward, k: Key, b: Blob, server: Server): Forward {
    if Matches(f, k, b, server) then f.(retries := f.retries + 1) else f
  }

  predicate Done(f: Forward, k: Key, b: Blob, server: Server, ok: bool) {
    Matches(f, k, b, server) && (ok || f.retries + 1 >= MAX_FORWARD_RETRIES)
  }

  /** The forwards one attempt leaves, its own a retry poorer if it is left. */
  function Retried(fwds: set<Forward>, k: Key, b: Blob, server: Server, ok: bool): set<Forward> {
    set f | f in fwds && !Done(f, k, b, server, ok) :: Bump(f, k, b, server)
  }

  /** The sweep commits one attempt: every outcome consumes a retry. */
  function Swept(s: State, k: Key, b: Blob, server: Server, ok: bool): State {
    var s1 := s.(forwards := Retried(s.forwards, k, b, server, ok));
    if ok then Mark(s1, k, b, server) else s1
  }

  /** The immediate attempt that follows a send commits its success. */
  function Landed(s: State, k: Key, b: Blob, server: Server): State {
    Mark(s.(forwards := set f | f in s.forwards && !Matches(f, k, b, server)), k, b, server)
  }

  lemma MarkSound(s: State, fwds: set<Forward>, k: Key, b: Blob, server: Server)
    requires Sound(s.messages, fwds)
    requires forall f :: f in fwds ==> !Matches(f, k, b, server)
    ensures Sound(Mark(s, k, b, server).messages, fwds)
  {
  }

  lemma SweptCover(s: State, k: Key, b: Blob, server: Server, ok: bool, x: Forward)
    requires Sound(s.messages, s.forwards)
    requires x in s.forwards && Matches(x, k, b, server)
    ensures Swept(s, k, b, server, ok).forwards <= (s.forwards - {x}) + {Bump(x, k, b, server)}
    ensures forall f :: f in Swept(s, k, b, server, ok).forwards ==> 0 <= f.retries < MAX_FORWARD_RETRIES
  {
  }

  lemma ReplacedCounts(fwds: set<Forward>, x: Forward, y: Forward, fwds': set<Forward>, sv: Server)
    requires x in fwds && y.toServer == x.toServer && fwds' <= (fwds - {x}) + {y}
    ensures |fwds'| <= |fwds| && |To(fwds', sv)| <= |To(fwds, sv)|
  {
    SubsetCard(fwds', (fwds - {x}) + {y});
    if sv == x.toServer {
      SubsetCard(To(fwds', sv), (To(fwds, sv) - {x}) + {y});
    } else {
      SubsetCard(To(fwds', sv), To(fwds, sv));
    }
  }

  lemma SweptSound(s: State, k: Key, b: Blob, server: Server, ok: bool)
    requires Sound(s.messages, s.forwards)
    ensures Sound(s.messages, Swept(s, k, b, server, ok).forwards)
    ensures |Swept(s, k, b, server, ok).forwards| <= |s.forwards|
  {
    var fwds' := Swept(s, k, b, server, ok).forwards;
    if x :| x in s.forwards && Matches(x, k, b, server) {
      SweptCover(s, k, b, server, ok, x);
      ReplacedCounts(s.forwards, x, Bump(x, k, b, server), fwds', server);
      forall sv ensures |To(fwds', sv)| <= MAX_FORWARDS_PER_SERVER {
        ReplacedCounts(s.forwards, x, Bump(x, k, b, server), fwds', sv);
      }
    } else {
      assert fwds' <= s.forwards;
      SoundSubset(s.messages, s.forwards, s.messages, fwds');
    }
  }

  lemma AttemptsKeep(s: State, k: Key, b: Blob, server: Server, ok: bool)
    requires Inv(s)
    ensures Inv(Swept(s, k, b, server, ok)) && Inv(Landed(s, k, b, server))
  {
    SweptSound(s, k, b, server, ok);
    var s1 := s.(forwards := Swept(s, k, b, server, ok).forwards);
    MarkKeeps(s1, k, b, server);
    if ok { MarkSound(s1, s1.forwards, k, b, server); }
    var fwds := set f | f in s.forwards && !Matches(f, k, b, server);
    SoundSubset(s.messages, s.forwards, s.messages, fwds);
    MarkKeeps(s.(forwards := fwds), k, b, server);
    MarkSound(s.(forwards := fwds), fwds, k, b, server);
  }

  // ---- atomic blocks that stage ----

  function Accepted(msgs: set<Message>, k: Key, b: Blob): set<Server> {
    set m, d | m in msgs && m.toKey == k && m.blob == b && d in m.deliveredTo :: d
  }

  /** The forwards one sent message stages: peers that do not have it, are not already
      queued, and are below their ceiling. */
  function StagedBySend(s: State, k: Key, b: Blob, remote: set<Server>): set<Forward> {
    set server | server in remote
        && !(exists f :: f in s.forwards && Matches(f, k, b, server))
        && server !in Accepted(s.messages, k, b)
        && |To(s.forwards, server)| < MAX_FORWARDS_PER_SERVER
      :: Forward(server, k, b, 0)
  }

  /** One message of a send is stored and its forwards staged. */
  ghost predicate Sent(s: State, k: Key, b: Blob, t: int, remote: set<Server>, s': State) {
    var s1 := Append(s, k, b, t);
    && s' == s1.(forwards := s'.forwards)
    && Capped(s.forwards + StagedBySend(s, k, b, remote), s'.forwards)
  }

  function Candidates(s: State, keys: set<Key>, server: Server): set<Message> {
    set m | m in s.messages && m.toKey in keys
        && !(exists f :: f in s.forwards && Matches(f, m.toKey, m.blob, server))
        && server !in m.deliveredTo
  }

  function Room(s: State, server: Server): nat {
    var queued := |To(s.forwards, server)|;
    if queued < MAX_FORWARDS_PER_SERVER then MAX_FORWARDS_PER_SERVER - queued else 0
  }

  function Chosen(s: State, keys: set<Key>, server: Server): set<Message> {
    Best(Candidates(s, keys, server), Room(s, server), Older)
  }

  /** Stored mail for keys that came online at `server`, oldest first within its budget. */
  function StagedByPresence(s: State, keys: set<Key>, server: Server): set<Forward> {
    set m | m in Chosen(s, keys, server) :: Forward(server, m.toKey, m.blob, 0)
  }

  ghost predicate Staged(s: State, keys: set<Key>, server: Server, s': State) {
    && s' == s.(forwards := s'.forwards)
    && Capped(s.forwards + StagedByPresence(s, keys, server), s'.forwards)
  }

  /** New rows that match nothing queued, nothing delivered and each other keep the outbox sound. */
  lemma StagedSound(msgs: set<Message>, fwds: set<Forward>, staged: set<Forward>)
    requires Sound(msgs, fwds)
    requires forall f :: f in staged ==> f.retries == 0
    requires forall f, g :: f in staged && g in fwds ==> !Matches(f, g.toKey, g.blob, g.toServer)
    requires forall f, m :: f in staged && m in msgs && m.toKey == f.toKey && m.blob == f.blob ==> f.toServer !in m.deliveredTo
    requires forall server :: |To(fwds + staged, server)| <= MAX_FORWARDS_PER_SERVER
    ensures Sound(msgs, fwds + staged)
  {
  }

  lemma SendCounts(s: State, k: Key, b: Blob, remote: set<Server>, server: Server)
    requires |To(s.forwards, server)| <= MAX_FORWARDS_PER_SERVER
    ensures |To(s.forwards + StagedBySend(s, k, b, remote), server)| <= MAX_FORWARDS_PER_SERVER
  {
    var staged := StagedBySend(s, k, b, remote);
    var entry := Forward(server, k, b, 0);
    if entry in staged {
      assert To(s.forwards + staged, server) == To(s.forwards, server) + {entry};
    } else {
      assert To(s.forwards + staged, server) == To(s.forwards, server);
    }
  }

  lemma AppendRows(s: State, k: Key, b: Blob, t: int, m: Message)
    requires m in Append(s, k, b, t).messages
    ensures m in s.messages || m.deliveredTo == {}
  {
  }

  lemma SendStagesSoundly(s: State, k: Key, b: Blob, t: int, remote: set<Server>)
    requires Inv(s)
    ensures Sound(Append(s, k, b, t).messages, s.forwards + StagedBySend(s, k, b, remote))
  {
    var staged := StagedBySend(s, k, b, remote);
    var msgs := Append(s, k, b, t).messages;
    forall m | m in msgs ensures m in s.messages || m.deliveredTo == {} { AppendRows(s, k, b, t, m); }
    SoundSubset(s.messages, s.forwards, msgs, s.forwards);
    forall server ensures |To(s.forwards + staged, server)| <= MAX_FORWARDS_PER_SERVER {
      SendCounts(s, k, b, remote, server);
    }
    StagedSound(msgs, s.forwards, staged);
  }

  lemma {:induction false} ForwardsOf(rows: set<Message>, server: Server)
    ensures |set m | m in rows :: Forward(server, m.toKey, m.blob, 0)| <= |rows|
    decreases |rows|
  {
    if rows != {} {
      var x :| x in rows;
      ForwardsOf(rows - {x}, server);
      assert (set m | m in rows :: Forward(server, m.toKey, m.blob, 0))
          == (set m | m in rows - {x} :: Forward(server, m.toKey, m.blob, 0)) + {Forward(server, x.toKey, x.blob, 0)};
    }
  }

  lemma ChosenFit(candidates: set<Message>, room: nat)
    requires forall a, b :: a in candidates && b in candidates && a.receivedAt == b.receivedAt ==> a == b
    ensures |Best(candidates, room, Older)| <= room
  {
    AgeOrder(candidates);
    StrictOutcome(candidates, room, Older, Best(candidates, room, Older));
  }

  /** A presence announcement stages no more than the peer has room for. */
  lemma PresenceFits(s: State, keys: set<Key>, server: Server)
    requires |To(s.forwards, server)| <= MAX_FORWARDS_PER_SERVER
    requires forall a, b :: a in s.messages && b in s.messages && a.receivedAt == b.receivedAt ==> a == b
    ensures |StagedByPresence(s, keys, server)| <= Room(s, server)
  {
    ChosenFit(Candidates(s, keys, server), Room(s, server));
    ForwardsOf(Chosen(s, keys, server), server);
  }

  lemma AddedCounts(fwds: set<Forward>, staged: set<Forward>, server: Server, sv: Server)
    requires |To(fwds, sv)| <= MAX_FORWARDS_PER_SERVER
    requires forall f :: f in staged ==> f.toServer == server
    requires |staged| + |To(fwds, server)| <= MAX_FORWARDS_PER_SERVER
    ensures |To(fwds + staged, sv)| <= MAX_FORWARDS_PER_SERVER
  {
    if sv == server {
      assert To(fwds + staged, sv) == To(fwds, sv) + staged;
    } else {
      assert To(fwds + staged, sv) == To(fwds, sv);
    }
  }

  lemma PresenceStagesSoundly(s: State, keys: set<Key>, server: Server)
    requires Inv(s)
    ensures Sound(s.messages, s.forwards + StagedByPresence(s, keys, server))
  {
    var staged := StagedByPresence(s, keys, server);
    PresenceFits(s, keys, server);
    forall sv ensures |To(s.forwards + staged, sv)| <= MAX_FORWARDS_PER_SERVER {
      AddedCounts(s.forwards, staged, server, sv);
    }
    forall f | f in staged
      ensures exists m :: m in Candidates(s, keys, server) && f == Forward(server, m.toKey, m.blob, 0) {
    }
    StagedSound(s.messages, s.forwards, staged);
  }

  lemma StagingKeeps(s: State, k: Key, b: Blob, t: int, remote: set<Server>, keys: set<Key>, server: Server, s': State)
    requires Inv(s)
    requires Sent(s, k, b, t, remote, s') || Staged(s, keys, server, s')
    ensures Inv(s')
  {
    AppendKeeps(s, k, b, t);
    if Sent(s, k, b, t, remote, s') {
      SendStagesSoundly(s, k, b, t, remote);
      SoundSubset(s'.messages, s.forwards + StagedBySend(s, k, b, remote), s'.messages, s'.forwards);
    } else {
      PresenceStagesSoundly(s, keys, server);
      SoundSubset(s'.messages, s.forwards + StagedByPresence(s, keys, server), s'.messages, s'.forwards);
    }
  }

  // ---- what the cap really promises ----

  /** Which entry survives however ties are broken: one that fewer than the ceiling of
      others can be put before. */
  lemma CapIsExact(fwds: set<Forward>, f: Forward)
    requires f in fwds
    ensures (forall kept :: Capped(fwds, kept) ==> f in kept)
       <==> |Rivals(fwds, Sooner, f)| < MAX_FORWARDS_TOTAL
  {
    ForwardOrder(fwds);
    SurvivesEveryTieBreak(fwds, MAX_FORWARDS_TOTAL, Sooner, f);
  }

  /** The cap is meant to be deterministic because the ciphertext breaks ties. Exactly when
      it is: each entry is sure to stay, or has the ceiling of entries strictly ahead of it
      and is sure to go. */
  lemma CapIsDeterministicExactly(fwds: set<Forward>)
    ensures OneOutcome(fwds, MAX_FORWARDS_TOTAL, Sooner) <==> Settled(fwds, MAX_FORWARDS_TOTAL, Sooner)
  {
    ForwardOrder(fwds);
    OneOutcomeExactly(fwds, MAX_FORWARDS_TOTAL, Sooner);
  }

  /** One ciphertext queued for two peers ties with itself. */
  lemma SortKeyTies(a: Server, b: Server, k: Key, blob: Blob)
    requires a != b
    ensures var f, g := Forward(a, k, blob, 0), Forward(b, k, blob, 0);
            f != g && Sooner(f, g) && Sooner(g, f) && !Strict({f, g}, Sooner)
  {
    TextOrder(blob, blob, blob);
  }

  /** Two peers tie for the last place: either may lose its entry. */
  lemma TieAtCeiling(rest: set<Forward>, f: Forward, g: Forward)
    requires f != g && f !in rest && g !in rest && |rest| == MAX_FORWARDS_TOTAL - 1
    requires Sooner(f, g) && Sooner(g, f) && forall r :: r in rest ==> Sooner(r, f) && Sooner(r, g)
    ensures Capped(rest + {f, g}, rest + {f}) && Capped(rest + {f, g}, rest + {g})
    ensures rest + {f} != rest + {g} && |rest + {f, g}| == MAX_FORWARDS_TOTAL + 1
  {
    assert rest + {f, g} == (rest + {f}) + {g};
    assert f in rest + {f} && f !in rest + {g};
  }

  predicate Varied<T(==)>(s: seq<T>) { forall i, j :: 0 <= i < j < |s| ==> s[i] != s[j] }

  /** The ciphertexts are queued two thousand to a peer. */
  function QueuedAt(peers: seq<Server>, blobs: seq<Blob>, k: Key, i: nat): (f: Forward)
    requires i < |blobs| <= MAX_FORWARDS_PER_SERVER * |peers|
    ensures f.toServer == peers[i / MAX_FORWARDS_PER_SERVER] && f.toKey == k && f.blob == blobs[i] && f.retries == 0
  {
    Forward(peers[i / MAX_FORWARDS_PER_SERVER], k, blobs[i], 0)
  }

  function QueuedFirst(peers: seq<Server>, blobs: seq<Blob>, k: Key, n: nat): set<Forward>
    requires n <= |blobs| <= MAX_FORWARDS_PER_SERVER * |peers|
  {
    set i: nat | i < n :: QueuedAt(peers, blobs, k, i)
  }

  lemma QueuedNext(peers: seq<Server>, blobs: seq<Blob>, k: Key, n: nat)
    requires n < |blobs| <= MAX_FORWARDS_PER_SERVER * |peers|
    ensures QueuedFirst(peers, blobs, k, n + 1) == QueuedFirst(peers, blobs, k, n) + {QueuedAt(peers, blobs, k, n)}
  {
  }

  lemma {:induction false} QueuedFirstCard(peers: seq<Server>, blobs: seq<Blob>, k: Key, n: nat)
    requires n <= |blobs| <= MAX_FORWARDS_PER_SERVER * |peers| && Varied(blobs)
    ensures |QueuedFirst(peers, blobs, k, n)| == n
  {
    if n > 0 {
      QueuedFirstCard(peers, blobs, k, n - 1);
      QueuedNext(peers, blobs, k, n - 1);
    }
  }

  lemma {:induction false} QueuedPerPeer(peers: seq<Server>, blobs: seq<Blob>, k: Key, n: nat, q: nat)
    requires n <= |blobs| <= MAX_FORWARDS_PER_SERVER * |peers| && Varied(peers) && q < |peers|
    ensures var most := n - MAX_FORWARDS_PER_SERVER * q;
      |To(QueuedFirst(peers, blobs, k, n), peers[q])|
        <= if most <= 0 then 0 else if most <= MAX_FORWARDS_PER_SERVER then most else MAX_FORWARDS_PER_SERVER
  {
    if n == 0 {
      assert To(QueuedFirst(peers, blobs, k, 0), peers[q]) == {};
    } else {
      QueuedPerPeer(peers, blobs, k, n - 1, q);
      QueuedNext(peers, blobs, k, n - 1);
      var f, p := QueuedAt(peers, blobs, k, n - 1), (n - 1) / MAX_FORWARDS_PER_SERVER;
      ToOneMore(QueuedFirst(peers, blobs, k, n - 1), f, peers[q]);
      assert f.toServer == peers[q] ==> p == q;
    }
  }

  lemma ToOneMore(fwds: set<Forward>, f: Forward, server: Server)
    ensures |To(fwds + {f}, server)| <= |To(fwds, server)| + if f.toServer == server then 1 else 0
  {
    assert To(fwds + {f}, server) == To(fwds, server) + if f.toServer == server then {f} else {};
  }

  /** All but the last ciphertext are queued once. */
  lemma QueuedOnce(peers: seq<Server>, blobs: seq<Blob>, k: Key, n: nat)
    requires n < |blobs| <= MAX_FORWARDS_PER_SERVER * |peers| && Varied(blobs)
    ensures var rest := QueuedFirst(peers, blobs, k, n);
      && (forall f :: f in rest ==> f.toKey == k && f.blob in blobs && f.retries == 0 && f.blob != blobs[n])
      && forall f, g :: f in rest && g in rest && f.blob == g.blob ==> f == g
  {
  }

  lemma LastIsLast(rest: set<Forward>, f: Forward, blobs: seq<Blob>)
    requires forall blob :: blob in blobs ==> TextLe(blob, f.blob)
    requires f.retries == 0 && forall r :: r in rest ==> r.blob in blobs && r.retries == 0
    ensures forall r :: r in rest ==> Sooner(r, f)
  {
  }

  lemma TieIsSound(rest: set<Forward>, f: Forward, g: Forward)
    requires forall r :: r in rest ==> r.retries == 0 && r.blob != f.blob
    requires forall r, s :: r in rest && s in rest && r.blob == s.blob ==> r == s
    requires f.blob == g.blob && f.toServer != g.toServer && f.retries == g.retries == 0
    requires forall server :: |To(rest + {f, g}, server)| <= MAX_FORWARDS_PER_SERVER
    ensures Sound({}, rest + {f, g})
  {
  }

  /** A full outbox and one more entry that the cap may cut in two ways. All keep within
      two thousand a peer: 50000 ciphertexts for 26 peers, of which the last in the order
      is queued for two. */
  lemma CapHasTwoOutcomes(peers: seq<Server>, blobs: seq<Blob>, k: Key) returns (fwds: set<Forward>, a: set<Forward>, b: set<Forward>)
    requires |peers| == 26 && Varied(peers) && |blobs| == MAX_FORWARDS_TOTAL && Varied(blobs)
    requires forall blob :: blob in blobs ==> TextLe(blob, blobs[MAX_FORWARDS_TOTAL - 1])
    ensures Sound({}, fwds) && |fwds| == MAX_FORWARDS_TOTAL + 1
    ensures Capped(fwds, a) && Capped(fwds, b) && a != b
  {
    var n := MAX_FORWARDS_TOTAL - 1;
    var rest := QueuedFirst(peers, blobs, k, n);
    var f, g := Forward(peers[24], k, blobs[n], 0), Forward(peers[25], k, blobs[n], 0);
    QueuedFirstCard(peers, blobs, k, n);
    QueuedOnce(peers, blobs, k, n);
    SortKeyTies(peers[24], peers[25], k, blobs[n]);
    LastIsLast(rest, f, blobs);
    LastIsLast(rest, g, blobs);
    TieAtCeiling(rest, f, g);
    fwds, a, b := rest + {f, g}, rest + {f}, rest + {g};
    forall server ensures |To(rest + {f, g}, server)| <= MAX_FORWARDS_PER_SERVER { LastTwo(peers, blobs, k, server); }
    TieIsSound(rest, f, g);
  }

  lemma LastTwo(peers: seq<Server>, blobs: seq<Blob>, k: Key, server: Server)
    requires |peers| == 26 && Varied(peers) && |blobs| == MAX_FORWARDS_TOTAL && Varied(blobs)
    ensures var n := MAX_FORWARDS_TOTAL - 1;
      var f, g := Forward(peers[24], k, blobs[n], 0), Forward(peers[25], k, blobs[n], 0);
      |To(QueuedFirst(peers, blobs, k, n) + {f, g}, server)| <= MAX_FORWARDS_PER_SERVER
  {
    var n := MAX_FORWARDS_TOTAL - 1;
    var f, g := Forward(peers[24], k, blobs[n], 0), Forward(peers[25], k, blobs[n], 0);
    var rest := QueuedFirst(peers, blobs, k, n);
    assert To(rest + {f, g}, server) == To(rest, server) + To({f, g}, server);
    if server in peers {
      var q: nat :| q < |peers| && peers[q] == server;
      QueuedPerPeer(peers, blobs, k, n, q);
      assert To({f, g}, server) == if q == 24 then {f} else if q == 25 then {g} else {};
    } else {
      assert To(rest + {f, g}, server) == {};
    }
  }
}

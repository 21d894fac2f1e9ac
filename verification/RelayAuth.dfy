/** Challenge, verify and install: the relay's three-phase login. */
module RelayAuth {
  import opened Pools

  type Key = string
  type Text = string

  const MAX_CHALLENGES: nat := 10000
  const MAX_SESSIONS: nat := 10000
  const MAX_CHALLENGES_PER_KEY: nat := 5
  const MAX_SESSIONS_PER_KEY: nat := 10
  const CHALLENGE_EXPIRY := 60000
  const SESSION_EXPIRY := 3600000

  /** A challenge or a session: `secret` is the nonce of the one, the token of the other. */
  datatype Grant = Grant(pubkey: Key, secret: Text, expiresAt: int, ip: Text)

  datatype State = State(challenges: set<Grant>, sessions: set<Grant>)

  /** The name logins are bound to, and the signature check. */
  datatype Config = Config(host: Text, verify: (Key, Text, Text) -> bool)

  predicate Later(a: Grant, b: Grant) { a.expiresAt >= b.expiresAt }

  function Of(items: set<Grant>, pk: Key): set<Grant> { set x | x in items && x.pubkey == pk }

  function Live(items: set<Grant>, t: int): set<Grant> { set x | x in items && x.expiresAt > t }

  predicate MatchIp(clientIp: Text, boundIp: Text) { boundIp == "" || clientIp == boundIp }

  predicate Same(c: Grant, pk: Key, nonce: Text) { c.pubkey == pk && c.secret == nonce }

  function SignedText(host: Text, nonce: Text): Text { "skrepka-auth-v1:" + host + ":" + nonce }

  /** The key's own rows are capped to make room for one more; every other row stays. */
  ghost predicate CappedPerKey(items: set<Grant>, pk: Key, n: nat, out: set<Grant>)
    requires n > 0
  {
    && Keeps(Of(items, pk), n - 1, Later, Of(out, pk))
    && out - Of(out, pk) == items - Of(items, pk)
  }

  // ---- the atomic blocks ----

  /** A fresh challenge joins the pool. `room` is the pool after the per-key cap. */
  ghost predicate Issued(s: State, pk: Key, nonce: Text, t: int, ip: Text, room: set<Grant>, s': State) {
    && CappedPerKey(Live(s.challenges, t), pk, MAX_CHALLENGES_PER_KEY, room)
    && Keeps(room + {Grant(pk, nonce, t + CHALLENGE_EXPIRY, ip)}, MAX_CHALLENGES, Later, s'.challenges)
    && s'.sessions == s.sessions
  }

  /** Some stored challenge answers this login. */
  predicate Answers(c: Grant, pk: Key, nonce: Text, t: int, ip: Text) {
    Same(c, pk, nonce) && c.expiresAt > t && MatchIp(ip, c.ip)
  }

  /** The login consumes its challenge and installs its session. */
  ghost predicate Installed(s: State, v: Login, room: set<Grant>, s': State) {
    && s'.challenges == (set c | c in s.challenges && !(if v.revoke then c.pubkey == v.pubkey else Same(c, v.pubkey, v.nonce)))
    && (if v.revoke then room == s.sessions - Of(s.sessions, v.pubkey)
        else CappedPerKey(s.sessions, v.pubkey, MAX_SESSIONS_PER_KEY, room))
    && Keeps(room + {Seat(v)}, MAX_SESSIONS, Later, s'.sessions)
  }

  function Seat(v: Login): Grant { Grant(v.pubkey, v.token, v.t + SESSION_EXPIRY, v.ip) }

  function Swept(s: State, t: int): State {
    State(Live(s.challenges, t), Live(s.sessions, t))
  }

  // ---- runs ----

  /** A verify handler between its phases. */
  datatype Login = Login(pubkey: Key, nonce: Text, signature: Text, revoke: bool, ip: Text, t: int, token: Text)

  datatype Phase = Checked | Signed

  datatype World = World(relay: State, logins: map<nat, (Login, Phase)>)

  datatype Event =
    | Issue(pubkey: Key, nonce: Text, t: int, ip: Text, room: set<Grant>)
    | Begin(id: nat, login: Login)
    | CheckSignature(id: nat)
    | Install(id: nat, challenge: Grant, room: set<Grant>)
    | Refuse(id: nat)
    | Expire(t: int)

  ghost predicate Next(cfg: Config, w: World, e: Event, w': World) {
    match e
    case Issue(pk, nonce, t, ip, room) =>
      w'.logins == w.logins && Issued(w.relay, pk, nonce, t, ip, room, w'.relay)
    case Begin(id, v) =>
      && id !in w.logins
      && (exists c :: c in w.relay.challenges && Answers(c, v.pubkey, v.nonce, v.t, v.ip))
      && w' == w.(logins := w.logins[id := (v, Checked)])
    case CheckSignature(id) =>
      && id in w.logins
      && var (v, phase) := w.logins[id];
      && phase.Checked?
      && cfg.verify(v.pubkey, SignedText(cfg.host, v.nonce), v.signature)
      && w' == w.(logins := w.logins[id := (v, Signed)])
    case Install(id, c, room) =>
      && id in w.logins
      && var (v, phase) := w.logins[id];
      && phase.Signed?
      && c in w.relay.challenges && Answers(c, v.pubkey, v.nonce, v.t, v.ip)
      && w'.logins == w.logins - {id}
      && Installed(w.relay, v, room, w'.relay)
    case Refuse(id) => w' == w.(logins := w.logins - {id})
    case Expire(t) => w' == w.(relay := Swept(w.relay, t))
  }

  ghost predicate StepAt(cfg: Config, ws: seq<World>, es: seq<Event>, i: nat)
    requires i < |es| < |ws|
  {
    Next(cfg, ws[i], es[i], ws[i + 1])
  }

  ghost predicate Run(cfg: Config, ws: seq<World>, es: seq<Event>) {
    && |ws| == |es| + 1
    && ws[0] == World(State({}, {}), map[])
    && forall i: nat :: i < |es| ==> StepAt(cfg, ws, es, i)
  }

  // ---- ceilings ----

  ghost predicate Bounded(s: State) {
    && |s.challenges| <= MAX_CHALLENGES && |s.sessions| <= MAX_SESSIONS
    && (forall pk :: |Of(s.challenges, pk)| <= MAX_CHALLENGES_PER_KEY)
    && (forall pk :: |Of(s.sessions, pk)| <= MAX_SESSIONS_PER_KEY)
  }

  lemma OfSubset(a: set<Grant>, b: set<Grant>, pk: Key)
    requires a <= b
    ensures |Of(a, pk)| <= |Of(b, pk)|
  {
    SubsetCard(Of(a, pk), Of(b, pk));
  }

  /** One more row after the per-key cap stays within the key's ceiling. */
  lemma SeatFits(items: set<Grant>, x: Grant, n: nat, room: set<Grant>, total: nat, kept: set<Grant>, pk: Key)
    requires n > 0 && CappedPerKey(items, x.pubkey, n, room)
    requires |Of(items, pk)| <= n
    requires Keeps(room + {x}, total, Later, kept)
    ensures |Of(kept, pk)| <= n && |kept| <= total
  {
    OfSubset(kept, room + {x}, pk);
    if pk == x.pubkey {
      assert Of(room + {x}, pk) == Of(room, pk) + {x};
    } else {
      assert Of(room + {x}, pk) == Of(items, pk) by {
        forall y ensures y in Of(room + {x}, pk) <==> y in Of(items, pk) {
          assert y.pubkey == pk ==> (y in room <==> y in room - Of(room, x.pubkey));
          assert y.pubkey == pk ==> (y in items <==> y in items - Of(items, x.pubkey));
        }
      }
    }
  }

  lemma RevokeFits(items: set<Grant>, x: Grant, n: nat, total: nat, kept: set<Grant>, pk: Key)
    requires n > 0
    requires |Of(items, pk)| <= n
    requires Keeps((items - Of(items, x.pubkey)) + {x}, total, Later, kept)
    ensures |Of(kept, pk)| <= n && |kept| <= total
  {
    var all := (items - Of(items, x.pubkey)) + {x};
    OfSubset(kept, all, pk);
    if pk == x.pubkey {
      assert Of(all, pk) == {x};
    } else {
      assert Of(all, pk) == Of(items, pk);
    }
  }

  lemma IssueKeeps(s: State, pk: Key, nonce: Text, t: int, ip: Text, room: set<Grant>, s': State)
    requires Bounded(s) && Issued(s, pk, nonce, t, ip, room, s')
    ensures Bounded(s')
  {
    var active := Live(s.challenges, t);
    var x := Grant(pk, nonce, t + CHALLENGE_EXPIRY, ip);
    forall q ensures |Of(s'.challenges, q)| <= MAX_CHALLENGES_PER_KEY {
      OfSubset(active, s.challenges, q);
      SeatFits(active, x, MAX_CHALLENGES_PER_KEY, room, MAX_CHALLENGES, s'.challenges, q);
    }
  }

  lemma InstallKeeps(s: State, v: Login, room: set<Grant>, s': State)
    requires Bounded(s) && Installed(s, v, room, s')
    ensures Bounded(s')
  {
    SubsetCard(s'.challenges, s.challenges);
    forall q ensures |Of(s'.challenges, q)| <= MAX_CHALLENGES_PER_KEY {
      OfSubset(s'.challenges, s.challenges, q);
    }
    forall q ensures |Of(s'.sessions, q)| <= MAX_SESSIONS_PER_KEY {
      if v.revoke {
        RevokeFits(s.sessions, Seat(v), MAX_SESSIONS_PER_KEY, MAX_SESSIONS, s'.sessions, q);
      } else {
        SeatFits(s.sessions, Seat(v), MAX_SESSIONS_PER_KEY, room, MAX_SESSIONS, s'.sessions, q);
      }
    }
  }

  /** The four ceilings hold in every state of every run. */
  lemma {:induction false} AlwaysBounded(cfg: Config, ws: seq<World>, es: seq<Event>, i: nat)
    requires Run(cfg, ws, es) && i < |ws|
    ensures Bounded(ws[i].relay)
  {
    if i == 0 {
      forall pk ensures |Of({}, pk)| == 0 { assert Of({}, pk) == {}; }
    } else {
      AlwaysBounded(cfg, ws, es, i - 1);
      assert StepAt(cfg, ws, es, i - 1);
      var s, s' := ws[i - 1].relay, ws[i].relay;
      match es[i - 1]
      case Issue(pk, nonce, t, ip, room) => IssueKeeps(s, pk, nonce, t, ip, room, s');
      case Install(id, c, room) => InstallKeeps(s, ws[i - 1].logins[id].0, room, s');
      case Expire(t) =>
        SubsetCard(s'.challenges, s.challenges);
        SubsetCard(s'.sessions, s.sessions);
        forall pk ensures |Of(s'.challenges, pk)| <= MAX_CHALLENGES_PER_KEY && |Of(s'.sessions, pk)| <= MAX_SESSIONS_PER_KEY {
          OfSubset(s'.challenges, s.challenges, pk);
          OfSubset(s'.sessions, s.sessions, pk);
        }
      case _ =>
    }
  }

  // ---- one session per challenge ----

  predicate IsIssue(e: Event, pk: Key, nonce: Text) { e.Issue? && e.pubkey == pk && e.nonce == nonce }

  predicate IsInstall(w: World, e: Event, pk: Key, nonce: Text) {
    e.Install? && e.id in w.logins && w.logins[e.id].0.pubkey == pk && w.logins[e.id].0.nonce == nonce
  }

  function Issues(es: seq<Event>, pk: Key, nonce: Text): nat {
    if es == [] then 0 else Issues(es[..|es| - 1], pk, nonce) + if IsIssue(es[|es| - 1], pk, nonce) then 1 else 0
  }

  function Installs(ws: seq<World>, es: seq<Event>, n: nat, pk: Key, nonce: Text): nat
    requires n <= |es| < |ws|
  {
    if n == 0 then 0
    else Installs(ws, es, n - 1, pk, nonce) + if IsInstall(ws[n - 1], es[n - 1], pk, nonce) then 1 else 0
  }

  function Outstanding(s: State, pk: Key, nonce: Text): nat {
    if exists c :: c in s.challenges && Same(c, pk, nonce) then 1 else 0
  }

  lemma OutstandingStep(cfg: Config, w: World, e: Event, w': World, pk: Key, nonce: Text)
    requires Next(cfg, w, e, w')
    ensures Outstanding(w'.relay, pk, nonce) + (if IsInstall(w, e, pk, nonce) then 1 else 0)
         <= Outstanding(w.relay, pk, nonce) + (if IsIssue(e, pk, nonce) then 1 else 0)
  {
    match e
    case Issue(p, n, t, ip, room) =>
      if !IsIssue(e, pk, nonce) && Outstanding(w'.relay, pk, nonce) == 1 {
        var c :| c in w'.relay.challenges && Same(c, pk, nonce);
        assert c in room;
        if c.pubkey != p { assert c in room - Of(room, p); } else { assert c in Of(room, p); }
        assert c in w.relay.challenges;
      }
    case Install(id, c, room) =>
    case _ =>
  }

  /** In every run, however many verifies interleave, a nonce opens at most as many sessions
      for a key as times it was issued to that key. */
  lemma {:induction false} OneSessionPerChallenge(cfg: Config, ws: seq<World>, es: seq<Event>, n: nat, pk: Key, nonce: Text)
    requires Run(cfg, ws, es) && n <= |es|
    ensures Installs(ws, es, n, pk, nonce) + Outstanding(ws[n].relay, pk, nonce) <= Issues(es[..n], pk, nonce)
  {
    if n > 0 {
      OneSessionPerChallenge(cfg, ws, es, n - 1, pk, nonce);
      assert StepAt(cfg, ws, es, n - 1);
      OutstandingStep(cfg, ws[n - 1], es[n - 1], ws[n], pk, nonce);
      assert es[..n][..n - 1] == es[..n - 1];
    }
  }

  // ---- only after a signature check over this host ----

  ghost predicate VettedBefore(cfg: Config, ws: seq<World>, es: seq<Event>, i: nat, id: nat, v: Login)
    requires i <= |es| < |ws|
  {
    exists j: nat :: j < i && es[j] == CheckSignature(id) && id in ws[j].logins && ws[j].logins[id].0 == v
      && cfg.verify(v.pubkey, "skrepka-auth-v1:" + cfg.host + ":" + v.nonce, v.signature)
  }

  ghost predicate IssuedBefore(es: seq<Event>, i: nat, c: Grant)
    requires i <= |es|
  {
    exists j: nat :: j < i && IsIssue(es[j], c.pubkey, c.secret) && es[j].ip == c.ip && es[j].t + 60000 == c.expiresAt
  }

  lemma ChallengeOrigin(cfg: Config, w: World, e: Event, w': World, c: Grant)
    requires Next(cfg, w, e, w') && c in w'.relay.challenges
    ensures c in w.relay.challenges
         || (IsIssue(e, c.pubkey, c.secret) && e.ip == c.ip && e.t + CHALLENGE_EXPIRY == c.expiresAt)
  {
    match e
    case Issue(p, n, t, ip, room) =>
      if c in room {
        if c.pubkey != p { assert c in room - Of(room, p); } else { assert c in Of(room, p); }
      }
    case _ =>
  }

  lemma {:induction false} Provenance(cfg: Config, ws: seq<World>, es: seq<Event>, i: nat)
    requires Run(cfg, ws, es) && i <= |es|
    ensures forall c :: c in ws[i].relay.challenges ==> IssuedBefore(es, i, c)
    ensures forall id :: id in ws[i].logins && ws[i].logins[id].1.Signed? ==> VettedBefore(cfg, ws, es, i, id, ws[i].logins[id].0)
  {
    if i > 0 {
      var p := i - 1;
      Provenance(cfg, ws, es, p);
      assert StepAt(cfg, ws, es, p);
      forall c | c in ws[i].relay.challenges ensures IssuedBefore(es, i, c) {
        ChallengeOrigin(cfg, ws[p], es[p], ws[i], c);
        if c in ws[p].relay.challenges {
          assert IssuedBefore(es, p, c);
          var j: nat :| j < p && IsIssue(es[j], c.pubkey, c.secret) && es[j].ip == c.ip && es[j].t + CHALLENGE_EXPIRY == c.expiresAt;
        }
      }
      forall id | id in ws[i].logins && ws[i].logins[id].1.Signed? ensures VettedBefore(cfg, ws, es, i, id, ws[i].logins[id].0) {
        var v := ws[i].logins[id].0;
        if es[p] != CheckSignature(id) {
          assert VettedBefore(cfg, ws, es, p, id, v);
          var j: nat :| j < p && es[j] == CheckSignature(id) && id in ws[j].logins && ws[j].logins[id].0 == v;
        }
      }
    }
  }

  /** In every run, a session is installed only for the key its challenge was issued to,
      from an address the challenge was bound to, before it expired, and after this relay
      checked that key's signature over its own host and the nonce. */
  lemma InstalledOnlyAfterProof(cfg: Config, ws: seq<World>, es: seq<Event>, i: nat)
    requires Run(cfg, ws, es) && i < |es| && es[i].Install?
    ensures es[i].id in ws[i].logins
    ensures var v := ws[i].logins[es[i].id].0;
      && VettedBefore(cfg, ws, es, i, es[i].id, v)
      && IssuedBefore(es, i, es[i].challenge)
      && es[i].challenge.pubkey == v.pubkey && es[i].challenge.secret == v.nonce && v.t < es[i].challenge.expiresAt
      && (es[i].challenge.ip == "" || es[i].challenge.ip == v.ip)
      && (forall x :: x in ws[i + 1].relay.sessions ==> x in ws[i].relay.sessions || x == Grant(v.pubkey, v.token, v.t + 3600000, v.ip))
  {
    Provenance(cfg, ws, es, i);
    assert StepAt(cfg, ws, es, i);
    var v := ws[i].logins[es[i].id].0;
    forall x | x in ws[i + 1].relay.sessions ensures x in ws[i].relay.sessions || x == Seat(v) {
      var room := es[i].room;
      if x != Seat(v) {
        assert x in room;
        if !v.revoke {
          if x.pubkey != v.pubkey { assert x in room - Of(room, v.pubkey); } else { assert x in Of(room, v.pubkey); }
        }
      }
    }
  }

  /** What is signed for one relay is signed for no other: nonces have one length. */
  lemma SignedForOneHost(host: Text, nonce: Text, host': Text, nonce': Text)
    requires |nonce| == |nonce'| && SignedText(host, nonce) == SignedText(host', nonce')
    ensures host == host' && nonce == nonce'
  {
    var tag := "skrepka-auth-v1:";
    assert SignedText(host, nonce)[|tag|..|tag| + |host|] == host;
    assert SignedText(host', nonce')[|tag|..|tag| + |host'|] == host';
    assert SignedText(host, nonce)[|tag| + |host| + 1..] == nonce;
    assert SignedText(host', nonce')[|tag| + |host'| + 1..] == nonce';
  }

  // ---- what is granted stays ----

  function AsLate(items: set<Grant>, x: Grant): set<Grant> { set y | y in items && y != x && y.expiresAt >= x.expiresAt }

  /** Why a session or a challenge may go: its time is up, its key asked, it was used, or a
      new one came in for a key or a relay that has its fill of rows as late. */
  ghost predicate GrantReason(w: World, e: Event, x: Grant, pool: set<Grant>, perKey: nat) {
    || ((e.Expire? || e.Issue?) && x.expiresAt <= e.t)
    || (e.Install? && e.id in w.logins && var v := w.logins[e.id].0; v.pubkey == x.pubkey && (v.revoke || v.nonce == x.secret))
    || ((e.Issue? || e.Install?) && |set y | y in AsLate(pool, x) && y.pubkey == x.pubkey| >= perKey)
    || ((e.Issue? || e.Install?) && |AsLate(pool, x)| >= 9999)
  }

  lemma CapTakes(items: set<Grant>, n: nat, kept: set<Grant>, x: Grant)
    requires Keeps(items, n, Later, kept) && x in items && x !in kept
    ensures |AsLate(items, x)| >= n
  {
    assert kept <= AsLate(items, x);
    SubsetCard(kept, AsLate(items, x));
    if |items| <= n { SubsetCard(kept, items); }
  }

  lemma SeatTakes(items: set<Grant>, pk: Key, n: nat, room: set<Grant>, seat: Grant, total: nat, kept: set<Grant>, x: Grant)
    requires n > 0 && total > 0 && CappedPerKey(items, pk, n, room) && Keeps(room + {seat}, total, Later, kept)
    requires x in items && x !in kept
    ensures (x.pubkey == pk && |set y | y in AsLate(items, x) && y.pubkey == pk| >= n - 1) || |AsLate(items, x)| >= total - 1
  {
    if x !in room {
      assert x !in items - Of(items, pk);
      CapTakes(Of(items, pk), n - 1, Of(room, pk), x);
      assert AsLate(Of(items, pk), x) == set y | y in AsLate(items, x) && y.pubkey == pk;
    } else {
      CapTakes(room + {seat}, total, kept, x);
      RoomIsOld(items, pk, n, room);
      SubsetCard(AsLate(room + {seat}, x), AsLate(items, x) + {seat});
    }
  }

  lemma RoomIsOld(items: set<Grant>, pk: Key, n: nat, room: set<Grant>)
    requires n > 0 && CappedPerKey(items, pk, n, room)
    ensures room <= items
  {
    forall x | x in room ensures x in items { assert x in Of(room, pk) || x in room - Of(room, pk); }
  }

  lemma AmongAll(some: set<Grant>, all: set<Grant>, x: Grant, pk: Key)
    requires some <= all
    ensures |AsLate(some, x)| <= |AsLate(all, x)|
    ensures |set y | y in AsLate(some, x) && y.pubkey == pk| <= |set y | y in AsLate(all, x) && y.pubkey == pk|
  {
    SubsetCard(AsLate(some, x), AsLate(all, x));
    SubsetCard(set y | y in AsLate(some, x) && y.pubkey == pk, set y | y in AsLate(all, x) && y.pubkey == pk);
  }

  /** A session goes only when its hour is up, its key revokes it, its key has nine others as
      late, or the relay has its fill. */
  lemma SessionLeaves(cfg: Config, w: World, e: Event, w': World, x: Grant)
    requires Next(cfg, w, e, w') && x in w.relay.sessions && x !in w'.relay.sessions
    ensures !e.Issue? && GrantReason(w, e, x, w.relay.sessions, 9)
  {
    if e.Install? {
      var v := w.logins[e.id].0;
      if v.revoke {
        if x.pubkey != v.pubkey {
          CapTakes(e.room + {Seat(v)}, MAX_SESSIONS, w'.relay.sessions, x);
          SubsetCard(AsLate(e.room + {Seat(v)}, x), AsLate(w.relay.sessions, x) + {Seat(v)});
        }
      } else {
        SeatTakes(w.relay.sessions, v.pubkey, MAX_SESSIONS_PER_KEY, e.room, Seat(v), MAX_SESSIONS, w'.relay.sessions, x);
      }
    }
  }

  /** A challenge goes only when its minute is up, it is used or revoked, its key has four
      others as late, or the relay has its fill. */
  lemma ChallengeLeaves(cfg: Config, w: World, e: Event, w': World, x: Grant)
    requires Next(cfg, w, e, w') && x in w.relay.challenges && x !in w'.relay.challenges
    ensures GrantReason(w, e, x, w.relay.challenges, 4)
  {
    if e.Issue? && x.expiresAt > e.t {
      var live := Live(w.relay.challenges, e.t);
      AmongAll(live, w.relay.challenges, x, e.pubkey);
      SeatTakes(live, e.pubkey, MAX_CHALLENGES_PER_KEY, e.room, Grant(e.pubkey, e.nonce, e.t + CHALLENGE_EXPIRY, e.ip),
                MAX_CHALLENGES, w'.relay.challenges, x);
    }
  }

  /** Nothing whose time is up outlives a sweep. */
  lemma ExpireIsTotal(cfg: Config, w: World, e: Event, w': World)
    requires Next(cfg, w, e, w') && e.Expire?
    ensures forall x :: x in w'.relay.challenges + w'.relay.sessions ==> e.t < x.expiresAt
  {
  }

  /** A login that is let in leaves a session for its key under the token it answers with,
      good for an hour, unless ten thousand others last as long; its challenge is gone. */
  lemma LoginIsSeated(cfg: Config, w: World, e: Event, w': World)
    requires Next(cfg, w, e, w') && e.Install?
    ensures var v := w.logins[e.id].0;
      && (Grant(v.pubkey, v.token, v.t + 3600000, v.ip) in w'.relay.sessions
          || |set y | y in w.relay.sessions && y.expiresAt >= v.t + 3600000| >= 10000)
      && forall c :: c in w'.relay.challenges ==> !(c.pubkey == v.pubkey && c.secret == v.nonce)
  {
    var v := w.logins[e.id].0;
    var seat := Grant(v.pubkey, v.token, v.t + 3600000, v.ip);
    if seat !in w'.relay.sessions {
      var late := set y | y in w.relay.sessions && y.expiresAt >= v.t + 3600000;
      if !v.revoke { RoomIsOld(w.relay.sessions, v.pubkey, MAX_SESSIONS_PER_KEY, e.room); }
      CapTakes(e.room + {seat}, MAX_SESSIONS, w'.relay.sessions, seat);
      SubsetCard(AsLate(e.room + {seat}, seat), late);
    }
  }

  /** Revoking leaves the key no other session and no challenge to redeem. */
  lemma RevokeIsTotal(s: State, v: Login, room: set<Grant>, s': State)
    requires Installed(s, v, room, s') && v.revoke
    ensures Of(s'.challenges, v.pubkey) == {}
    ensures Of(s'.sessions, v.pubkey) <= {Seat(v)}
  {
  }

  // ---- does a fresh row survive its own cap? ----

  /** A fresh challenge is meant to outlive the cap that follows it because it expires last.
      Exactly when it does: fewer than the ceiling of other rows expire at or after it. */
  lemma FreshChallengeSurvives(room: set<Grant>, x: Grant)
    ensures (forall kept :: Keeps(room + {x}, MAX_CHALLENGES, Later, kept) ==> x in kept)
       <==> |set y | y in room && y != x && y.expiresAt >= x.expiresAt| < MAX_CHALLENGES
  {
    SurvivesEveryTieBreak(room + {x}, MAX_CHALLENGES, Later, x);
    assert Rivals(room + {x}, Later, x) == set y | y in room && y != x && y.expiresAt >= x.expiresAt;
  }

  /** A pool filled within one millisecond can lose the challenge it is handing out. */
  lemma FreshChallengeLost(room: set<Grant>, x: Grant) returns (kept: set<Grant>)
    requires x !in room && |room| >= MAX_CHALLENGES
    requires forall y :: y in room ==> y.expiresAt == x.expiresAt
    ensures Keeps(room + {x}, MAX_CHALLENGES, Later, kept) && x !in kept
  {
    assert Rivals(room + {x}, Later, x) == room;
    kept := OutcomeWithout(room + {x}, MAX_CHALLENGES, Later, x);
  }

  /** The challenge issued to the `n`th key, all in one millisecond. */
  function Nth(keys: seq<Key>, nonces: seq<Text>, n: nat, t: int): (g: Grant)
    requires n < |keys| == |nonces|
    ensures g.pubkey == keys[n] && g.expiresAt == t + CHALLENGE_EXPIRY
  {
    Grant(keys[n], nonces[n], t + CHALLENGE_EXPIRY, "")
  }

  function FirstGrants(keys: seq<Key>, nonces: seq<Text>, n: nat, t: int): set<Grant>
    requires n <= |keys| == |nonces|
  {
    set i: nat | i < n :: Nth(keys, nonces, i, t)
  }

  predicate NoRepeats(keys: seq<Key>) { forall i, j :: 0 <= i < j < |keys| ==> keys[i] != keys[j] }

  lemma NextGrant(keys: seq<Key>, nonces: seq<Text>, n: nat, t: int)
    requires n < |keys| == |nonces| && NoRepeats(keys)
    ensures FirstGrants(keys, nonces, n + 1, t) == FirstGrants(keys, nonces, n, t) + {Nth(keys, nonces, n, t)}
    ensures Nth(keys, nonces, n, t) !in FirstGrants(keys, nonces, n, t)
    ensures forall x :: x in FirstGrants(keys, nonces, n, t) ==> x.pubkey != keys[n]
  {
  }

  lemma {:induction false} FirstGrantsCard(keys: seq<Key>, nonces: seq<Text>, n: nat, t: int)
    requires n <= |keys| == |nonces| && NoRepeats(keys)
    ensures |FirstGrants(keys, nonces, n, t)| == n
  {
    if n > 0 {
      FirstGrantsCard(keys, nonces, n - 1, t);
      NextGrant(keys, nonces, n - 1, t);
    }
  }

  function IssueNth(keys: seq<Key>, nonces: seq<Text>, n: nat, t: int): Event
    requires n < |keys| == |nonces|
  {
    Issue(keys[n], nonces[n], t, "", FirstGrants(keys, nonces, n, t))
  }

  /** None of the earlier challenges is of the next key, and none has expired. */
  lemma NthRoom(keys: seq<Key>, nonces: seq<Text>, n: nat, t: int)
    requires n < |keys| == |nonces| && NoRepeats(keys)
    ensures var room := FirstGrants(keys, nonces, n, t);
      CappedPerKey(Live(room, t), keys[n], MAX_CHALLENGES_PER_KEY, room)
  {
    var room := FirstGrants(keys, nonces, n, t);
    NextGrant(keys, nonces, n, t);
    assert Live(room, t) == room;
    assert Of(room, keys[n]) == {};
  }

  lemma NthFits(keys: seq<Key>, nonces: seq<Text>, n: nat, t: int)
    requires n < |keys| == |nonces| && NoRepeats(keys) && n < MAX_CHALLENGES
    ensures var room := FirstGrants(keys, nonces, n, t);
      Issued(State(room, {}), keys[n], nonces[n], t, "", room, State(FirstGrants(keys, nonces, n + 1, t), {}))
  {
    NthRoom(keys, nonces, n, t);
    NextGrant(keys, nonces, n, t);
    FirstGrantsCard(keys, nonces, n + 1, t);
  }

  /** One challenge each to the first `n` keys. */
  lemma {:induction false} Filled(cfg: Config, keys: seq<Key>, nonces: seq<Text>, n: nat, t: int) returns (ws: seq<World>, es: seq<Event>)
    requires n <= |keys| == |nonces| && NoRepeats(keys) && n <= MAX_CHALLENGES
    ensures Run(cfg, ws, es) && |es| == n && ws[n] == World(State(FirstGrants(keys, nonces, n, t), {}), map[])
    ensures forall i :: 0 <= i < n ==> es[i] == IssueNth(keys, nonces, i, t)
  {
    if n == 0 {
      ws, es := [World(State({}, {}), map[])], [];
      assert FirstGrants(keys, nonces, 0, t) == {};
    } else {
      ws, es := Filled(cfg, keys, nonces, n - 1, t);
      NthFits(keys, nonces, n - 1, t);
      ws, es := Longer(cfg, ws, es, IssueNth(keys, nonces, n - 1, t), World(State(FirstGrants(keys, nonces, n, t), {}), map[]));
    }
  }

  lemma Longer(cfg: Config, ws: seq<World>, es: seq<Event>, e: Event, w: World) returns (ws': seq<World>, es': seq<Event>)
    requires Run(cfg, ws, es) && Next(cfg, ws[|es|], e, w)
    ensures Run(cfg, ws', es') && ws' == ws + [w] && es' == es + [e]
  {
    ws', es' := ws + [w], es + [e];
    forall i: nat | i < |es'| ensures StepAt(cfg, ws', es', i) {
      if i < |es| { assert StepAt(cfg, ws, es, i); }
    }
  }

  /** It happens: in any run that issues one challenge each to 10001 keys within one
      millisecond, the last answer may name a challenge that is not stored. */
  lemma IssuedButNotStored(cfg: Config, keys: seq<Key>, nonces: seq<Text>, t: int) returns (ws: seq<World>, es: seq<Event>)
    requires |keys| == |nonces| == MAX_CHALLENGES + 1 && NoRepeats(keys)
    ensures Run(cfg, ws, es) && |es| == MAX_CHALLENGES + 1
    ensures forall i :: 0 <= i < |es| ==> es[i].Issue? && es[i].pubkey == keys[i] && es[i].nonce == nonces[i] && es[i].t == t
    ensures forall c :: c in ws[MAX_CHALLENGES + 1].relay.challenges ==> !Same(c, keys[MAX_CHALLENGES], nonces[MAX_CHALLENGES])
  {
    var n := MAX_CHALLENGES;
    ws, es := Filled(cfg, keys, nonces, n, t);
    FirstGrantsCard(keys, nonces, n, t);
    NextGrant(keys, nonces, n, t);
    NthRoom(keys, nonces, n, t);
    var kept := FreshChallengeLost(FirstGrants(keys, nonces, n, t), Nth(keys, nonces, n, t));
    ws, es := Longer(cfg, ws, es, IssueNth(keys, nonces, n, t), World(State(kept, {}), map[]));
  }

  // ---- the stored tables ----

  class AuthTables {
    var challenges: set<Grant>
    var sessions: set<Grant>

    function View(): (s: State)
      reads this
    {
      State(challenges, sessions)
    }

    constructor ()
      ensures View() == State({}, {})
    {
      challenges, sessions := {}, {};
    }

    method IssueChallenge(pubkey: Key, nonce: Text, t: int, clientIp: Text) returns (expiresAt: int, ghost room: set<Grant>)
      requires Bounded(View())
      modifies this`challenges
      ensures Issued(old(View()), pubkey, nonce, t, clientIp, room, View())
      ensures expiresAt == t + CHALLENGE_EXPIRY
      ensures Bounded(View())
    {
      expiresAt := t + CHALLENGE_EXPIRY;
      var active := Live(challenges, t);
      var capped := CapPerKey(active, pubkey, MAX_CHALLENGES_PER_KEY);
      challenges := Cap(capped + {Grant(pubkey, nonce, expiresAt, clientIp)}, MAX_CHALLENGES, Later);
      room := capped;
      IssueKeeps(old(View()), pubkey, nonce, t, clientIp, room, View());
    }

    /** The third phase: re-check the challenge, consume it, seat the session. */
    method InstallSession(v: Login) returns (installed: bool, ghost room: set<Grant>)
      requires Bounded(View())
      modifies this
      ensures installed ==> Installed(old(View()), v, room, View())
      ensures installed ==> exists c :: c in old(challenges) && Answers(c, v.pubkey, v.nonce, v.t, v.ip)
      ensures !installed ==> View() == old(View())
      ensures !installed ==>
        || (forall c :: c in old(challenges) ==> !Same(c, v.pubkey, v.nonce))
        || (exists c :: c in old(challenges) && Same(c, v.pubkey, v.nonce) && !Answers(c, v.pubkey, v.nonce, v.t, v.ip))
      ensures Bounded(View())
    {
      room := {};
      installed := false;
      var same := set c | c in challenges && Same(c, v.pubkey, v.nonce);
      if same == {} {
        assert forall c :: c in challenges && Same(c, v.pubkey, v.nonce) ==> c in same;
        return;
      }
      var c :| c in same;
      if !(c.expiresAt > v.t && MatchIp(v.ip, c.ip)) { return; }
      challenges := if v.revoke then set x | x in challenges && x.pubkey != v.pubkey
                    else set x | x in challenges && !Same(x, v.pubkey, v.nonce);
      var pruned;
      if v.revoke {
        pruned := set x | x in sessions && x.pubkey != v.pubkey;
      } else {
        pruned := CapPerKey(sessions, v.pubkey, MAX_SESSIONS_PER_KEY);
      }
      sessions := Cap(pruned + {Seat(v)}, MAX_SESSIONS, Later);
      room := pruned;
      installed := true;
      InstallKeeps(old(View()), v, room, View());
    }
  }

  method CapPerKey(items: set<Grant>, pk: Key, n: nat) returns (out: set<Grant>)
    requires n > 0
    ensures CappedPerKey(items, pk, n, out)
  {
    var mine := set x | x in items && x.pubkey == pk;
    var kept := Cap(mine, n - 1, Later);
    out := (items - mine) + kept;
    assert Of(out, pk) == kept;
  }
}

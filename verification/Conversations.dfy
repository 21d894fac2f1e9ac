/** One peer's conversation: ordered insertion, trimming and deduplication (core/src/app.rs). */
module Conversations {
  type Id = string

  const MAX_MESSAGES_PER_PEER: nat := 1000
  const MAX_SEEN_IDS_PER_PEER: nat := 2000

  datatype Option<T> = None | Some(value: T)

  datatype StoredMessage = StoredMessage(id: Id, body: string, ts: int, outgoing: bool, delivered: bool)

  type Convo = seq<StoredMessage>

  ghost predicate Sorted(c: Convo) {
    forall i, j :: 0 <= i < j < |c| ==> c[i].ts <= c[j].ts
  }

  // ---- insert and trim ----

  /** A message goes after everything dated up to its own date. */
  function Insert(c: Convo, m: StoredMessage): (d: Convo)
    ensures |d| == |c| + 1
  {
    if c == [] || c[|c| - 1].ts <= m.ts then c + [m]
    else Insert(c[..|c| - 1], m) + [c[|c| - 1]]
  }

  function Last(c: Convo, n: nat): Convo {
    if |c| <= n then c else c[|c| - n..]
  }

  function Trim(c: Convo): Convo { Last(c, MAX_MESSAGES_PER_PEER) }

  lemma {:induction false} InsertIsSplice(c: Convo, m: StoredMessage, p: nat)
    requires Sorted(c) && p <= |c|
    requires (p > 0 ==> c[p - 1].ts <= m.ts) && (p < |c| ==> c[p].ts > m.ts)
    ensures Insert(c, m) == c[..p] + [m] + c[p..]
  {
    if p < |c| {
      var front, x := c[..|c| - 1], c[|c| - 1];
      assert c[p].ts <= x.ts;
      InsertIsSplice(front, m, p);
      SpliceSnoc(front, m, p, x);
      assert c == front + [x];
    } else {
      assert c[..p] == c && c[p..] == [];
    }
  }

  lemma SpliceSnoc(front: Convo, m: StoredMessage, p: nat, x: StoredMessage)
    requires p <= |front|
    ensures (front[..p] + [m] + front[p..]) + [x] == (front + [x])[..p] + [m] + (front + [x])[p..]
  {
  }

  /** The insertion point by bisection, then the insertion. */
  method InsertSorted(convo: Convo, m: StoredMessage) returns (c: Convo)
    requires Sorted(convo)
    ensures c == Insert(convo, m)
  {
    var lo, hi := 0, |convo|;
    while lo < hi
      invariant 0 <= lo <= hi <= |convo|
      invariant lo > 0 ==> convo[lo - 1].ts <= m.ts
      invariant hi < |convo| ==> convo[hi].ts > m.ts
    {
      var mid := (lo + hi) / 2;
      if convo[mid].ts <= m.ts { lo := mid + 1; } else { hi := mid; }
    }
    InsertIsSplice(convo, m, lo);
    c := convo[..lo] + [m] + convo[lo..];
  }

  /** Age out the front. */
  method TrimHistory(convo: Convo) returns (c: Convo)
    ensures c == Trim(convo)
    ensures |c| <= MAX_MESSAGES_PER_PEER
  {
    c := convo;
    if |c| >= MAX_MESSAGES_PER_PEER { c := c[|c| - MAX_MESSAGES_PER_PEER..]; }
  }

  // ---- the stable sort it stands for ----

  /** The messages dated `t`, in order. */
  function Dated(c: Convo, t: int): Convo {
    if c == [] then []
    else if c[|c| - 1].ts == t then Dated(c[..|c| - 1], t) + [c[|c| - 1]]
    else Dated(c[..|c| - 1], t)
  }

  /** `ys` is `xs` in date order, ties in the order of `xs`. */
  ghost predicate StablySorted(xs: Convo, ys: Convo) {
    Sorted(ys) && forall t :: Dated(ys, t) == Dated(xs, t)
  }

  lemma {:induction false} DatedConcat(a: Convo, b: Convo, t: int)
    ensures Dated(a + b, t) == Dated(a, t) + Dated(b, t)
  {
    if b == [] {
      assert a + b == a;
    } else {
      DatedConcat(a, b[..|b| - 1], t);
      assert (a + b)[..|a + b| - 1] == a + b[..|b| - 1];
    }
  }

  lemma {:induction false} DatedEmpty(c: Convo, t: int)
    ensures Dated(c, t) == [] <==> forall i :: 0 <= i < |c| ==> c[i].ts != t
    ensures Dated(c, t) != [] ==> Dated(c, t)[|Dated(c, t)| - 1].ts == t
  {
    if c != [] { DatedEmpty(c[..|c| - 1], t); }
  }

  /** A stable sort is determined by what it sorts. */
  lemma {:induction false} StableSortIsUnique(a: Convo, b: Convo)
    requires Sorted(a) && Sorted(b) && forall t :: Dated(a, t) == Dated(b, t)
    ensures a == b
  {
    if a == [] || b == [] {
      if a != [] { DatedEmpty(a, a[0].ts); DatedEmpty(b, a[0].ts); }
      if b != [] { DatedEmpty(b, b[0].ts); DatedEmpty(a, b[0].ts); }
    } else {
      LastsAgree(a, b);
      var x := a[|a| - 1];
      var a', b' := a[..|a| - 1], b[..|b| - 1];
      forall t ensures Dated(a', t) == Dated(b', t) {
        assert Dated(a, t) == if x.ts == t then Dated(a', t) + [x] else Dated(a', t);
        assert Dated(b, t) == if x.ts == t then Dated(b', t) + [x] else Dated(b', t);
        if x.ts == t {
          assert Dated(a', t) == Dated(a, t)[..|Dated(a, t)| - 1];
          assert Dated(b', t) == Dated(b, t)[..|Dated(b, t)| - 1];
        }
      }
      StableSortIsUnique(a', b');
      assert a == a' + [x] && b == b' + [x];
    }
  }

  lemma LastsAgree(a: Convo, b: Convo)
    requires Sorted(a) && Sorted(b) && forall t :: Dated(a, t) == Dated(b, t)
    requires a != [] && b != []
    ensures a[|a| - 1] == b[|b| - 1]
  {
    var x, y := a[|a| - 1], b[|b| - 1];
    LastIsLatest(a, b);
    LastIsLatest(b, a);
    assert Dated(a, x.ts) == Dated(a[..|a| - 1], x.ts) + [x];
    assert Dated(b, x.ts) == Dated(b[..|b| - 1], x.ts) + [y];
    assert Dated(a, x.ts)[|Dated(a, x.ts)| - 1] == x;
  }

  lemma LastIsLatest(a: Convo, b: Convo)
    requires Sorted(b) && a != [] && b != [] && forall t :: Dated(a, t) == Dated(b, t)
    ensures a[|a| - 1].ts <= b[|b| - 1].ts
  {
    var t := a[|a| - 1].ts;
    DatedEmpty(a, t);
    DatedEmpty(b, t);
    var i :| 0 <= i < |b| && b[i].ts == t;
  }

  lemma {:induction false} InsertMembers(c: Convo, m: StoredMessage)
    ensures forall x :: x in Insert(c, m) <==> x in c || x == m
  {
    if c != [] && c[|c| - 1].ts > m.ts {
      InsertMembers(c[..|c| - 1], m);
      assert c == c[..|c| - 1] + [c[|c| - 1]];
    }
  }

  lemma SortedSnoc(c: Convo, x: StoredMessage)
    requires Sorted(c) && forall y :: y in c ==> y.ts <= x.ts
    ensures Sorted(c + [x])
  {
  }

  lemma SortedFront(c: Convo)
    requires Sorted(c) && c != []
    ensures Sorted(c[..|c| - 1])
    ensures forall y :: y in c[..|c| - 1] ==> y.ts <= c[|c| - 1].ts
  {
  }

  lemma {:induction false} InsertStaysSorted(c: Convo, m: StoredMessage)
    requires Sorted(c)
    ensures Sorted(Insert(c, m))
  {
    if c == [] {
    } else if c[|c| - 1].ts <= m.ts {
      SortedFront(c);
      assert c == c[..|c| - 1] + [c[|c| - 1]];
      SortedSnoc(c, m);
    } else {
      SortedFront(c);
      InsertStaysSorted(c[..|c| - 1], m);
      InsertMembers(c[..|c| - 1], m);
      SortedSnoc(Insert(c[..|c| - 1], m), c[|c| - 1]);
    }
  }

  lemma {:induction false} DatedInsert(c: Convo, m: StoredMessage, t: int)
    requires Sorted(c)
    ensures Dated(Insert(c, m), t) == Dated(c, t) + if m.ts == t then [m] else []
  {
    if c == [] || c[|c| - 1].ts <= m.ts {
      assert (c + [m])[..|c|] == c;
    } else {
      var front, x := c[..|c| - 1], c[|c| - 1];
      DatedInsert(front, m, t);
      var d := Insert(front, m);
      assert (d + [x])[..|d|] == d;
      if x.ts == t { assert m.ts != t; }
    }
  }

  lemma DatedOne(m: StoredMessage, t: int)
    ensures Dated([m], t) == if m.ts == t then [m] else []
  {
    assert [m][..0] == [];
  }

  /** Inserting the next arrival into the sorted conversation sorts the arrivals. */
  lemma InsertSorts(xs: Convo, ys: Convo, m: StoredMessage)
    requires StablySorted(xs, ys)
    ensures StablySorted(xs + [m], Insert(ys, m))
  {
    InsertStaysSorted(ys, m);
    forall t ensures Dated(Insert(ys, m), t) == Dated(xs + [m], t) {
      DatedInsert(ys, m, t);
      DatedConcat(xs, [m], t);
      DatedOne(m, t);
    }
  }

  /** The stable sort, by insertion in arrival order. */
  function SortAll(xs: Convo): Convo {
    if xs == [] then [] else Insert(SortAll(xs[..|xs| - 1]), xs[|xs| - 1])
  }

  lemma {:induction false} SortAllSorts(xs: Convo)
    ensures StablySorted(xs, SortAll(xs))
  {
    if xs != [] {
      SortAllSorts(xs[..|xs| - 1]);
      InsertSorts(xs[..|xs| - 1], SortAll(xs[..|xs| - 1]), xs[|xs| - 1]);
      assert xs == xs[..|xs| - 1] + [xs[|xs| - 1]];
    }
  }

  lemma LastSnoc(c: Convo, x: StoredMessage, n: nat)
    ensures n > 0 ==> Last(c + [x], n) == Last(c, n - 1) + [x]
    ensures n == 0 ==> Last(c + [x], n) == []
  {
  }

  lemma InsertSnoc(c: Convo, x: StoredMessage, m: StoredMessage)
    ensures Insert(c + [x], m) == if x.ts <= m.ts then c + [x] + [m] else Insert(c, m) + [x]
  {
    assert (c + [x])[..|c|] == c;
  }

  /** Trimming before an insertion loses nothing that trimming after it would keep. */
  lemma {:induction false} TrimCommutes(c: Convo, m: StoredMessage, n: nat)
    ensures Last(Insert(Last(c, n), m), n) == Last(Insert(c, m), n)
  {
    if n > 0 && |c| > n {
      var front, x := c[..|c| - 1], c[|c| - 1];
      assert c == front + [x];
      var kept := Last(front, n - 1);
      LastSnoc(front, x, n);
      InsertSnoc(front, x, m);
      InsertSnoc(kept, x, m);
      if x.ts <= m.ts {
        LastSnoc(c, m, n);
        LastSnoc(kept + [x], m, n);
        LastOfLast(c, n, n - 1);
      } else {
        TrimCommutes(front, m, n - 1);
        LastSnoc(Insert(front, m), x, n);
        LastSnoc(Insert(kept, m), x, n);
      }
    }
  }

  lemma LastOfLast(c: Convo, n: nat, k: nat)
    requires k <= n
    ensures Last(Last(c, n), k) == Last(c, k)
  {
  }

  /** The conversation after arrivals, inserting and trimming at each one. */
  function FileAll(c: Convo, xs: Convo): Convo {
    if xs == [] then c else Trim(Insert(FileAll(c, xs[..|xs| - 1]), xs[|xs| - 1]))
  }

  lemma NextSort(xs: Convo, zs: Convo, m: StoredMessage, ys: Convo)
    requires StablySorted(xs, zs) && StablySorted(xs + [m], ys)
    ensures Insert(zs, m) == ys
  {
    InsertSorts(xs, zs, m);
    StableSortIsUnique(Insert(zs, m), ys);
  }

  lemma {:induction false} OnlineIsSuffix(c: Convo, xs: Convo, ys: Convo)
    requires Sorted(c) && |c| <= MAX_MESSAGES_PER_PEER
    requires StablySorted(c + xs, ys)
    ensures FileAll(c, xs) == Trim(ys)
  {
    if xs == [] {
      assert c + xs == c;
      StableSortIsUnique(c, ys);
    } else {
      var front, m := xs[..|xs| - 1], xs[|xs| - 1];
      var zs := SortAll(c + front);
      SortAllSorts(c + front);
      OnlineIsSuffix(c, front, zs);
      TrimCommutes(zs, m, MAX_MESSAGES_PER_PEER);
      assert (c + front) + [m] == c + xs;
      NextSort(c + front, zs, m, ys);
    }
  }

  /** Insert-then-trim at every arrival gives exactly the last thousand of the stable sort
      by date of everything that arrived, ties in arrival order. */
  lemma OnlineIsLastThousand(xs: Convo, ys: Convo)
    requires StablySorted(xs, ys)
    ensures FileAll([], xs) == Last(ys, 1000)
  {
    assert [] + xs == xs;
    OnlineIsSuffix([], xs, ys);
  }

  // ---- incoming ids ----

  /** How often `id` is the id of an incoming message. */
  function Times(c: Convo, id: Id): nat {
    if c == [] then 0
    else Times(c[..|c| - 1], id) + if !c[|c| - 1].outgoing && c[|c| - 1].id == id then 1 else 0
  }

  /** No incoming id occurs twice. */
  ghost predicate Distinct(c: Convo) { forall id :: Times(c, id) <= 1 }

  function Ids(c: Convo): set<Id> { set m | m in c :: m.id }

  lemma {:induction false} TimesConcat(a: Convo, b: Convo, id: Id)
    ensures Times(a + b, id) == Times(a, id) + Times(b, id)
  {
    if b == [] {
      assert a + b == a;
    } else {
      TimesConcat(a, b[..|b| - 1], id);
      assert (a + b)[..|a + b| - 1] == a + b[..|b| - 1];
    }
  }

  /** A message that came in under the id. */
  predicate CameAs(m: StoredMessage, id: Id) { !m.outgoing && m.id == id }

  /** The id counts only if some message came in under it. */
  lemma {:induction false} TimesWitness(c: Convo, id: Id) returns (m: StoredMessage)
    requires Times(c, id) > 0
    ensures m in c && CameAs(m, id)
  {
    m := c[|c| - 1];
    if !CameAs(m, id) {
      m := TimesWitness(c[..|c| - 1], id);
      assert m in c[..|c| - 1];
    }
  }

  lemma TimesInIds(c: Convo, id: Id)
    ensures Times(c, id) > 0 ==> id in Ids(c)
  {
    if Times(c, id) > 0 { var m := TimesWitness(c, id); }
  }

  lemma {:induction false} TimesInsert(c: Convo, m: StoredMessage, id: Id)
    ensures Times(Insert(c, m), id) == Times(c, id) + if !m.outgoing && m.id == id then 1 else 0
  {
    if c == [] || c[|c| - 1].ts <= m.ts {
      assert (c + [m])[..|c|] == c;
    } else {
      var d := Insert(c[..|c| - 1], m);
      TimesInsert(c[..|c| - 1], m, id);
      assert (d + [c[|c| - 1]])[..|d|] == d;
    }
  }

  lemma TimesLast(c: Convo, n: nat, id: Id)
    ensures Times(Last(c, n), id) <= Times(c, id)
  {
    if |c| > n {
      TimesConcat(c[..|c| - n], c[|c| - n..], id);
      assert c == c[..|c| - n] + c[|c| - n..];
    }
  }

  lemma {:induction false} TimesSortAll(xs: Convo, id: Id)
    ensures Times(SortAll(xs), id) == Times(xs, id)
  {
    if xs != [] {
      TimesSortAll(xs[..|xs| - 1], id);
      TimesInsert(SortAll(xs[..|xs| - 1]), xs[|xs| - 1], id);
    }
  }

  lemma {:induction false} IdsCard(c: Convo)
    ensures |Ids(c)| <= |c|
  {
    if c != [] {
      IdsCard(c[..|c| - 1]);
      assert c == c[..|c| - 1] + [c[|c| - 1]];
      assert Ids(c) == Ids(c[..|c| - 1]) + {c[|c| - 1].id};
    }
  }

  lemma InsertShape(c: Convo, m: StoredMessage)
    requires Sorted(c)
    ensures Ids(Insert(c, m)) == Ids(c) + {m.id}
    ensures Sorted(Insert(c, m)) && Sorted(Trim(Insert(c, m)))
  {
    InsertStaysSorted(c, m);
    InsertMembers(c, m);
    LastSorted(Insert(c, m), MAX_MESSAGES_PER_PEER);
  }

  lemma LastSorted(c: Convo, n: nat)
    requires Sorted(c)
    ensures Sorted(Last(c, n)) && |Last(c, n)| <= n
  {
  }

  // ---- one peer ----

  /** A peer's conversation and seen-id set; either may be absent. */
  datatype Peer = Peer(convo: Option<Convo>, seen: Option<set<Id>>)

  function ConvoOf(p: Peer): Convo { if p.convo.Some? then p.convo.value else [] }

  /** Ordered, bounded, no incoming id twice, and every incoming id is in the seen set once
      there is one. */
  ghost predicate PeerInv(p: Peer) {
    && Sorted(ConvoOf(p))
    && |ConvoOf(p)| <= MAX_MESSAGES_PER_PEER
    && Distinct(ConvoOf(p))
    && (p.seen.Some? ==> forall id :: Times(ConvoOf(p), id) > 0 ==> id in p.seen.value)
  }

  /** The seen set a text is checked against: seeded from the conversation when empty. */
  function Seeded(p: Peer): set<Id> {
    if p.seen.Some? && p.seen.value != {} then p.seen.value else Ids(ConvoOf(p))
  }

  /** The set after the cap dropped surplus ids, none of them still in the conversation. */
  ghost predicate Evicted(seen: set<Id>, convo: Convo, seen': set<Id>) {
    if |seen| <= MAX_SEEN_IDS_PER_PEER then seen' == seen
    else
      var excess := |seen| - MAX_SEEN_IDS_PER_PEER;
      var spare := seen - Ids(convo);
      && seen' <= seen && seen - seen' <= spare
      && |seen - seen'| == if excess <= |spare| then excess else |spare|
  }

  /** A text arrives: a known id changes nothing in the conversation, a new one is stored. */
  ghost predicate Received(p: Peer, m: StoredMessage, p': Peer) {
    if m.id in Seeded(p) then p' == Peer(Some(ConvoOf(p)), Some(Seeded(p)))
    else
      var convo := Insert(ConvoOf(p), m);
      && p'.convo == Some(Trim(convo))
      && p'.seen.Some? && Evicted(Seeded(p) + {m.id}, convo, p'.seen.value)
  }

  /** We wrote a text ourselves. */
  function Wrote(p: Peer, m: StoredMessage): Peer {
    p.(convo := Some(Trim(Insert(ConvoOf(p), m))))
  }

  function Without(list: Convo, ids: set<Id>): Convo {
    if list == [] then []
    else
      var front := Without(list[..|list| - 1], ids);
      if list[|list| - 1].id in ids then front else front + [list[|list| - 1]]
  }

  /** The stored conversation arrives from disk, possibly after polls already added to it. */
  function Merged(p: Peer, list: Convo): Peer {
    Peer(if p.convo.Some? then Some(Trim(SortAll(p.convo.value + Without(list, Ids(p.convo.value))))) else Some(list),
         if p.seen.Some? then Some(p.seen.value + Ids(list)) else None)
  }

  function MarkOne(m: StoredMessage, ids: set<Id>): StoredMessage {
    if m.outgoing && m.id in ids then m.(delivered := true) else m
  }

  /** Delivery acks flip flags of our own messages. */
  function MarkAll(c: Convo, ids: set<Id>): (d: Convo)
    ensures |d| == |c|
    ensures forall i :: 0 <= i < |c| ==> d[i] == MarkOne(c[i], ids)
  {
    if c == [] then [] else MarkAll(c[..|c| - 1], ids) + [MarkOne(c[|c| - 1], ids)]
  }

  lemma ReceivedKeeps(p: Peer, m: StoredMessage, p': Peer)
    requires PeerInv(p) && Received(p, m, p') && !m.outgoing
    ensures PeerInv(p')
  {
    var c := ConvoOf(p);
    forall id ensures Times(c, id) > 0 ==> id in Seeded(p) { TimesInIds(c, id); }
    if m.id !in Seeded(p) {
      var d := Insert(c, m);
      InsertShape(c, m);
      forall id ensures Times(Trim(d), id) <= 1 && (Times(Trim(d), id) > 0 ==> id in p'.seen.value) {
        TimesInsert(c, m, id);
        TimesLast(d, MAX_MESSAGES_PER_PEER, id);
        TimesInIds(d, id);
      }
    }
  }

  /** After each stored text the seen set holds at most two thousand ids: the conversation
      is at most a thousand and one long, so there are always enough ids to drop. None is
      dropped without need, and the new one and those of the conversation never. */
  lemma SeenStaysBounded(p: Peer, m: StoredMessage, p': Peer)
    requires PeerInv(p) && Received(p, m, p') && m.id !in Seeded(p)
    ensures |p'.seen.value| == if |Seeded(p)| < 2000 then |Seeded(p)| + 1 else 2000
    ensures p'.seen.value <= Seeded(p) + {m.id} && m.id in p'.seen.value && Ids(ConvoOf(p)) * Seeded(p) <= p'.seen.value
  {
    var seen := Seeded(p) + {m.id};
    var convo := Insert(ConvoOf(p), m);
    InsertShape(ConvoOf(p), m);
    IdsCard(convo);
    var seen' := p'.seen.value;
    if |seen| > MAX_SEEN_IDS_PER_PEER {
      var spare := seen - Ids(convo);
      assert seen == spare + seen * Ids(convo);
      assert seen * Ids(convo) <= Ids(convo);
      CardLe(seen * Ids(convo), Ids(convo));
      assert seen == seen' + (seen - seen');
    }
  }

  lemma CardLe(a: set<Id>, b: set<Id>)
    requires a <= b
    ensures |a| <= |b|
  {
    assert b == a + (b - a);
  }

  lemma WroteKeeps(p: Peer, m: StoredMessage)
    requires PeerInv(p) && m.outgoing
    ensures PeerInv(Wrote(p, m))
  {
    var c := ConvoOf(p);
    InsertShape(c, m);
    forall id ensures Times(Trim(Insert(c, m)), id) <= Times(c, id) {
      TimesInsert(c, m, id);
      TimesLast(Insert(c, m), MAX_MESSAGES_PER_PEER, id);
    }
  }

  lemma {:induction false} TimesWithout(list: Convo, ids: set<Id>, id: Id)
    ensures Times(Without(list, ids), id) == if id in ids then 0 else Times(list, id)
  {
    if list != [] {
      var front := Without(list[..|list| - 1], ids);
      TimesWithout(list[..|list| - 1], ids, id);
      var x := list[|list| - 1];
      assert (front + [x])[..|front|] == front;
    }
  }

  /** A stored conversation is one this client could have written. */
  ghost predicate Storable(list: Convo) {
    Sorted(list) && |list| <= MAX_MESSAGES_PER_PEER && Distinct(list)
  }

  /** A late load of the stored conversation keeps the invariant whatever polls did first. */
  lemma MergedKeeps(p: Peer, list: Convo)
    requires PeerInv(p) && Storable(list)
    ensures PeerInv(Merged(p, list))
  {
    var p' := Merged(p, list);
    if p.convo.None? {
      forall id ensures Times(list, id) > 0 ==> id in Ids(list) { TimesInIds(list, id); }
    } else {
      var c := p.convo.value;
      var all := c + Without(list, Ids(c));
      SortAllSorts(all);
      LastSorted(SortAll(all), MAX_MESSAGES_PER_PEER);
      forall id ensures Times(ConvoOf(p'), id) <= 1
                ensures Times(ConvoOf(p'), id) > 0 ==> Times(c, id) > 0 || id in Ids(list) {
        TimesLast(SortAll(all), MAX_MESSAGES_PER_PEER, id);
        TimesSortAll(all, id);
        TimesConcat(c, Without(list, Ids(c)), id);
        TimesWithout(list, Ids(c), id);
        TimesInIds(c, id);
        TimesInIds(list, id);
      }
    }
  }

  lemma {:induction false} MarkTimes(c: Convo, ids: set<Id>, id: Id)
    ensures Times(MarkAll(c, ids), id) == Times(c, id)
  {
    if c != [] {
      MarkTimes(c[..|c| - 1], ids, id);
      assert MarkAll(c, ids)[..|c| - 1] == MarkAll(c[..|c| - 1], ids);
    }
  }

  lemma MarkKeeps(p: Peer, ids: set<Id>)
    requires PeerInv(p) && p.convo.Some?
    ensures PeerInv(p.(convo := Some(MarkAll(p.convo.value, ids))))
  {
    forall id ensures Times(MarkAll(p.convo.value, ids), id) == Times(p.convo.value, id) {
      MarkTimes(p.convo.value, ids, id);
    }
  }

  // ---- delivery flags aside ----

  function Plain(c: Convo): (d: Convo)
    ensures |d| == |c|
    ensures forall i :: 0 <= i < |c| ==> d[i] == c[i].(delivered := false)
  {
    seq(|c|, i requires 0 <= i < |c| => c[i].(delivered := false))
  }

  lemma {:induction false} PlainInsert(c: Convo, m: StoredMessage)
    ensures Plain(Insert(c, m)) == Insert(Plain(c), m.(delivered := false))
  {
    if c != [] && c[|c| - 1].ts > m.ts {
      PlainInsert(c[..|c| - 1], m);
      assert Plain(c)[..|c| - 1] == Plain(c[..|c| - 1]);
    }
  }

  lemma {:induction false} PlainOnline(c: Convo, xs: Convo)
    ensures Plain(FileAll(c, xs)) == FileAll(Plain(c), Plain(xs))
  {
    if xs == [] {
      assert Plain(xs) == [];
    } else {
      var front, m := xs[..|xs| - 1], xs[|xs| - 1];
      PlainOnline(c, front);
      assert Plain(xs)[..|xs| - 1] == Plain(front);
      PlainInsert(FileAll(c, front), m);
      PlainTrim(Insert(FileAll(c, front), m));
    }
  }

  lemma PlainTrim(c: Convo)
    ensures Plain(Trim(c)) == Trim(Plain(c))
  {
  }

  lemma PlainMarks(c: Convo, ids: set<Id>)
    ensures Plain(MarkAll(c, ids)) == Plain(c)
  {
  }

  lemma PlainConcat(a: Convo, b: Convo)
    ensures Plain(a + b) == Plain(a) + Plain(b)
  {
  }

  lemma {:induction false} OnlineConcat(c: Convo, xs: Convo, ys: Convo)
    ensures FileAll(c, xs + ys) == FileAll(FileAll(c, xs), ys)
  {
    if ys == [] {
      assert xs + ys == xs;
    } else {
      OnlineConcat(c, xs, ys[..|ys| - 1]);
      assert (xs + ys)[..|xs + ys| - 1] == xs + ys[..|ys| - 1];
    }
  }

  lemma OnlineOne(c: Convo, m: StoredMessage)
    ensures FileAll(c, [m]) == Trim(Insert(c, m))
  {
    assert [m][..0] == [];
  }

  /** A conversation in order and within the bound is what its own arrival would give. */
  lemma OnlineFixes(c: Convo)
    requires Sorted(c) && |c| <= MAX_MESSAGES_PER_PEER
    ensures FileAll([], c) == c
  {
    OnlineIsLastThousand(c, c);
  }

  lemma {:induction false} WithoutNone(list: Convo)
    ensures Without(list, {}) == list
  {
    if list != [] {
      WithoutNone(list[..|list| - 1]);
      assert list == list[..|list| - 1] + [list[|list| - 1]];
    }
  }

  /** Merging a stored conversation is the arrival of what it adds. */
  lemma MergedIsOnline(p: Peer, list: Convo)
    requires PeerInv(p) && Storable(list)
    ensures ConvoOf(Merged(p, list)) == FileAll(ConvoOf(p), Without(list, Ids(ConvoOf(p))))
  {
    var c := ConvoOf(p);
    var more := Without(list, Ids(c));
    if p.convo.None? {
      assert Ids(c) == {};
      WithoutNone(list);
      OnlineFixes(list);
    } else {
      SortAllSorts(c + more);
      OnlineIsSuffix(c, more, SortAll(c + more));
    }
  }

  // ---- what a text, a load and an ack do, said plainly ----

  /** A text under the id of an incoming message that is there, or is remembered, is dropped;
      one under an id that is neither there nor remembered is filed, and remembered. */
  lemma ReceivedExactly(p: Peer, m: StoredMessage, p': Peer)
    requires PeerInv(p) && Received(p, m, p')
    ensures (exists x :: x in ConvoOf(p) && !x.outgoing && x.id == m.id) ==> ConvoOf(p') == ConvoOf(p)
    ensures p.seen.Some? && m.id in p.seen.value ==> ConvoOf(p') == ConvoOf(p)
    ensures (forall x :: x in ConvoOf(p) ==> x.id != m.id) && (p.seen.None? || m.id !in p.seen.value) ==>
      ConvoOf(p') == Trim(Insert(ConvoOf(p), m)) && p'.seen.Some? && m.id in p'.seen.value
  {
    if x :| x in ConvoOf(p) && !x.outgoing && x.id == m.id { TimesPositive(ConvoOf(p), x); }
    if m.id !in Seeded(p) { SeenStaysBounded(p, m, p'); }
  }

  lemma {:induction false} TimesPositive(c: Convo, x: StoredMessage)
    requires x in c && !x.outgoing
    ensures Times(c, x.id) > 0
  {
    assert c == c[..|c| - 1] + [c[|c| - 1]];
    if x != c[|c| - 1] { TimesPositive(c[..|c| - 1], x); }
  }

  /** A load adds each stored message whose id is not there yet, as often as it is stored. */
  lemma {:induction false} WithoutExactly(list: Convo, ids: set<Id>, x: StoredMessage)
    ensures multiset(Without(list, ids))[x] == if x.id in ids then 0 else multiset(list)[x]
  {
    if list != [] {
      WithoutExactly(list[..|list| - 1], ids, x);
      assert list == list[..|list| - 1] + [list[|list| - 1]];
    }
  }

  /** Acks set the flag of our own messages they name, and touch nothing else. */
  lemma MarksExactly(c: Convo, ids: set<Id>, i: nat)
    requires i < |c|
    ensures c[i].outgoing && c[i].id in ids ==> MarkAll(c, ids)[i] == c[i].(delivered := true)
    ensures !(c[i].outgoing && c[i].id in ids) ==> MarkAll(c, ids)[i] == c[i]
  {
  }
}

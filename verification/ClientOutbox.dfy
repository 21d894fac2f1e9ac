/** What every operation on the queue keeps, item by item. */
module ClientOutbox {
  import opened ClientModel
  import P = Payloads
  import F = Framing

  /** A peer running this same code can read it, and encryption will not refuse its length. */
  ghost predicate Usable(j: P.Json) {
    P.Parse(j).Some? && P.TextLen(j) < P.MAX_PLAINTEXT_LEN
  }

  predicate Reachable(contacts: map<Key, Contact>, k: Key) {
    k in contacts && !contacts[k].blocked
  }

  ghost predicate GoodItem(contacts: map<Key, Contact>, pushed: nat, x: Item) {
    x.id < pushed && Reachable(contacts, x.recipient) && x.retries < MAX_OUTBOX_RETRIES && Usable(x.envelope)
  }

  ghost predicate Ascending(items: seq<Item>) {
    forall i, j :: 0 <= i < j < |items| ==> items[i].id < items[j].id
  }

  /** Items are in push order, for known unblocked contacts, with retries left, and usable. */
  ghost predicate GoodQueue(contacts: map<Key, Contact>, pushed: nat, items: seq<Item>) {
    Ascending(items) && forall x :: x in items ==> GoodItem(contacts, pushed, x)
  }

  ghost predicate OutInv(m: Model) { GoodQueue(m.contacts, m.pushed, m.outbox) }

  predicate HasId(items: seq<Item>, id: nat) { exists x :: x in items && x.id == id }

  /** The same queued payload, later: its retries rise, it is dated once, and only a profile
      is ever rewritten. */
  predicate SameItem(x: Item, y: Item) {
    && y.id == x.id && y.recipient == x.recipient && y.profile == x.profile
    && x.retries <= y.retries && (y.envelope == x.envelope || x.profile)
    && (y.firstAttempt == x.firstAttempt || x.firstAttempt == 0)
  }

  ghost predicate From(items: seq<Item>, y: Item) { exists x :: x in items && SameItem(x, y) }

  /** Every item was queued before, or is new. */
  ghost predicate Descends(a: seq<Item>, pushed: nat, b: seq<Item>) {
    forall y :: y in b ==> y.id >= pushed || From(a, y)
  }

  lemma DescendsTrans(a: seq<Item>, pushed: nat, b: seq<Item>, pushed': nat, c: seq<Item>)
    requires Descends(a, pushed, b) && Descends(b, pushed', c) && pushed <= pushed'
    ensures Descends(a, pushed, c)
  {
    forall z | z in c && z.id < pushed ensures From(a, z) {
      var y :| y in b && SameItem(y, z);
      var x :| x in a && SameItem(x, y);
    }
  }

  lemma DescendsFrom(a: seq<Item>, pushed: nat, b: seq<Item>)
    requires forall y :: y in b && y.id < pushed ==> y in a
    ensures Descends(a, pushed, b)
  {
    assert forall y :: SameItem(y, y);
  }

  lemma IdUnique(items: seq<Item>, x: Item, y: Item)
    requires Ascending(items) && x in items && y in items && x.id == y.id
    ensures x == y
  {
    var i :| 0 <= i < |items| && items[i] == x;
    var j :| 0 <= j < |items| && items[j] == y;
  }

  /** Nothing that had left the queue is back in it. */
  ghost predicate OnlyOld(m: Model, m': Model) {
    m.pushed <= m'.pushed && forall id: nat :: id < m.pushed && HasId(m'.outbox, id) ==> HasId(m.outbox, id)
  }

  lemma GoodDrop(contacts: map<Key, Contact>, pushed: nat, a: seq<Item>, x: Item, b: seq<Item>)
    requires GoodQueue(contacts, pushed, a + [x] + b)
    ensures GoodQueue(contacts, pushed, a + b)
  {
    var c := a + [x] + b;
    forall i, j | 0 <= i < j < |a + b| ensures (a + b)[i].id < (a + b)[j].id {
      var i', j' := (if i < |a| then i else i + 1), (if j < |a| then j else j + 1);
      assert (a + b)[i] == c[i'] && (a + b)[j] == c[j'];
    }
    assert forall y :: y in a + b ==> y in c;
  }

  lemma GoodSlice(contacts: map<Key, Contact>, pushed: nat, items: seq<Item>, n: nat)
    requires GoodQueue(contacts, pushed, items) && n <= |items|
    ensures GoodQueue(contacts, pushed, items[n..]) && GoodQueue(contacts, pushed, items[..n])
  {
    assert forall y :: y in items[n..] ==> y in items;
    assert forall y :: y in items[..n] ==> y in items;
  }

  // ---- filling a batch ----

  predicate SamePeer(items: seq<Item>) {
    forall i :: 0 <= i < |items| ==> items[i].recipient == items[0].recipient
  }

  lemma {:induction false} FillKeepsQueue(rest: seq<Item>, env: Env, budget: nat, taken: seq<Item>, bytes: nat,
                                          contacts: map<Key, Contact>, pushed: nat)
    requires GoodQueue(contacts, pushed, taken + rest)
    ensures var p := Fill(rest, env, budget, taken, bytes); GoodQueue(contacts, pushed, p.taken + p.rest)
    decreases |rest|
  {
    if |taken| >= MAX_SEND_BATCH || rest == [] || (taken != [] && taken[0].recipient != rest[0].recipient) {
    } else {
      var x, tail := rest[0], rest[1..];
      assert taken + rest == taken + [x] + tail;
      match env.weigh(x)
      case None =>
        GoodDrop(contacts, pushed, taken, x, tail);
        FillKeepsQueue(tail, env, budget, taken, bytes, contacts, pushed);
      case Some(size) =>
        var w := F.HexWeight(size);
        if !(taken != [] && bytes + w > budget) {
          FillKeepsQueue(tail, env, budget, taken + [x], bytes + w, contacts, pushed);
        }
    }
  }

  /** What the item's blob weighs in hex. */
  function Weight(x: Item, env: Env): nat { if env.weigh(x).Some? then F.HexWeight(env.weigh(x).value) else 0 }

  /** The batch being filled, one item on. */
  lemma FillNext(rest: seq<Item>, env: Env, budget: nat, taken: seq<Item>, bytes: nat)
    requires rest != []
    ensures var p, x, w := Fill(rest, env, budget, taken, bytes), rest[0], Weight(rest[0], env);
      || p == Pick(taken, bytes, rest)
      || (env.weigh(x).None? && p == Fill(rest[1..], env, budget, taken, bytes))
      || (env.weigh(x).Some? && p == Fill(rest[1..], env, budget, taken + [x], bytes + w))
  {
  }

  /** Filling invents nothing and loses only what cannot be encrypted. */
  lemma {:induction false} FillMembers(rest: seq<Item>, env: Env, budget: nat, taken: seq<Item>, bytes: nat)
    ensures var p := Fill(rest, env, budget, taken, bytes);
      && (forall x :: x in taken + rest ==> x in p.taken + p.rest || env.weigh(x).None?)
      && (forall x :: x in p.taken + p.rest ==> x in taken + rest)
    decreases |rest|
  {
    if rest != [] {
      var x, tail := rest[0], rest[1..];
      assert taken + rest == taken + [x] + tail;
      FillNext(rest, env, budget, taken, bytes);
      FillMembers(tail, env, budget, taken, bytes);
      FillMembers(tail, env, budget, taken + [x], bytes + Weight(x, env));
    }
  }

  /** The hex characters of the items' blobs, together. */
  function Weights(items: seq<Item>, env: Env): nat {
    if items == [] then 0 else Weights(items[..|items| - 1], env) + Weight(items[|items| - 1], env)
  }

  lemma WeightsSnoc(items: seq<Item>, x: Item, env: Env)
    ensures Weights(items + [x], env) == Weights(items, env) + Weight(x, env)
  {
    assert (items + [x])[..|items|] == items;
  }

  /** The weight a batch is kept within is that of its items' blobs in hex. */
  lemma {:induction false} FillWeighs(rest: seq<Item>, env: Env, budget: nat, taken: seq<Item>, bytes: nat)
    requires bytes == Weights(taken, env)
    ensures Fill(rest, env, budget, taken, bytes).bytes == Weights(Fill(rest, env, budget, taken, bytes).taken, env)
    decreases |rest|
  {
    if rest != [] {
      FillNext(rest, env, budget, taken, bytes);
      FillWeighs(rest[1..], env, budget, taken, bytes);
      WeightsSnoc(taken, rest[0], env);
      FillWeighs(rest[1..], env, budget, taken + [rest[0]], bytes + Weight(rest[0], env));
    }
  }

  /** A batch is for one peer, within both limits, and weighs at least 512 an item. */
  lemma {:induction false} FillFits(rest: seq<Item>, env: Env, budget: nat, taken: seq<Item>, bytes: nat)
    requires SamePeer(taken) && |taken| <= 100 && 512 * |taken| <= bytes
    requires |taken| > 1 ==> bytes <= budget
    ensures var p := Fill(rest, env, budget, taken, bytes);
      && SamePeer(p.taken) && |taken| <= |p.taken| <= 100 && 512 * |p.taken| <= p.bytes
      && (|p.taken| > 1 ==> p.bytes <= budget)
    decreases |rest|
  {
    if |taken| >= MAX_SEND_BATCH || rest == [] || (taken != [] && taken[0].recipient != rest[0].recipient) {
    } else {
      match env.weigh(rest[0])
      case None => FillFits(rest[1..], env, budget, taken, bytes);
      case Some(size) =>
        var w := F.HexWeight(size);
        if !(taken != [] && bytes + w > budget) {
          FillFits(rest[1..], env, budget, taken + [rest[0]], bytes + w);
        }
    }
  }

  /** Filling stops only where it must: at the end, at a hundred items, at another peer's
      item, or at one that would overflow the budget. */
  lemma {:induction false} FillIsMaximal(rest: seq<Item>, env: Env, budget: nat, taken: seq<Item>, bytes: nat)
    ensures var p := Fill(rest, env, budget, taken, bytes);
      || p.rest == []
      || |p.taken| >= 100
      || (p.taken != [] && p.taken[0].recipient != p.rest[0].recipient)
      || (p.taken != [] && env.weigh(p.rest[0]).Some? && p.bytes + Weight(p.rest[0], env) > budget)
    decreases |rest|
  {
    if |taken| >= MAX_SEND_BATCH || rest == [] || (taken != [] && taken[0].recipient != rest[0].recipient) {
    } else {
      match env.weigh(rest[0])
      case None => FillIsMaximal(rest[1..], env, budget, taken, bytes);
      case Some(size) =>
        var w := F.HexWeight(size);
        if !(taken != [] && bytes + w > budget) {
          FillIsMaximal(rest[1..], env, budget, taken + [rest[0]], bytes + w);
        }
    }
  }

  /** The same queue but for when items were first tried. */
  predicate SameButDates(a: seq<Item>, b: seq<Item>) {
    |a| == |b| && forall i :: 0 <= i < |a| ==> b[i] == a[i].(firstAttempt := b[i].firstAttempt)
  }

  lemma StampIsDates(taken: seq<Item>, rest: seq<Item>, now: int)
    ensures SameButDates(taken + rest, Stamp(taken, now) + rest)
  {
    var a, b := taken + rest, Stamp(taken, now) + rest;
    forall i | 0 <= i < |a| ensures b[i] == a[i].(firstAttempt := b[i].firstAttempt) {
      if i < |taken| { assert a[i] == taken[i] && b[i] == Stamp(taken, now)[i]; }
    }
  }

  lemma DatesKeep(contacts: map<Key, Contact>, pushed: nat, a: seq<Item>, b: seq<Item>)
    requires GoodQueue(contacts, pushed, a) && SameButDates(a, b)
    ensures GoodQueue(contacts, pushed, b)
  {
    forall x | x in b ensures GoodItem(contacts, pushed, x) {
      var i :| 0 <= i < |b| && b[i] == x;
      assert a[i] in a;
    }
  }

  lemma DatesIds(a: seq<Item>, b: seq<Item>, id: nat)
    requires SameButDates(a, b) && HasId(a, id)
    ensures HasId(b, id)
  {
    var x :| x in a && x.id == id;
    var i :| 0 <= i < |a| && a[i] == x;
    assert b[i] in b;
  }

  lemma DatesIdsBack(a: seq<Item>, b: seq<Item>, id: nat)
    requires SameButDates(a, b) && HasId(b, id)
    ensures HasId(a, id)
  {
    var x :| x in b && x.id == id;
    var i :| 0 <= i < |b| && b[i] == x;
    assert a[i] in a;
  }

  lemma StampKeeps(contacts: map<Key, Contact>, pushed: nat, taken: seq<Item>, rest: seq<Item>, now: int)
    requires GoodQueue(contacts, pushed, taken + rest)
    ensures GoodQueue(contacts, pushed, Stamp(taken, now) + rest)
  {
    StampIsDates(taken, rest, now);
    DatesKeep(contacts, pushed, taken + rest, Stamp(taken, now) + rest);
  }

  /** The queue once a flush took a batch from its head within the budget. */
  predicate Dispatched(a: seq<Item>, b: seq<Item>, env: Env, budget: nat) {
    var p := Fill(a, env, budget, [], 0);
    b == Stamp(p.taken, env.now) + p.rest
  }

  /** The queue before and after a flush that may or may not have gone ahead. */
  ghost predicate Flushed(a: seq<Item>, b: seq<Item>, env: Env) {
    b == a || exists budget: nat :: Dispatched(a, b, env, budget)
  }

  lemma FlushIsFlushed(m: Model, env: Env)
    ensures Flushed(m.outbox, FlushNext(m, env).model.outbox, env)
  {
    if MayFlush(m, env) {
      var p := Fill(m.outbox, env, Budget(m), [], 0);
      assert p.taken == [] ==> Stamp(p.taken, env.now) + p.rest == p.rest;
      assert Dispatched(m.outbox, FlushNext(m, env).model.outbox, env, Budget(m));
    }
  }

  lemma FlushedKeeps(a: seq<Item>, b: seq<Item>, env: Env, contacts: map<Key, Contact>, pushed: nat)
    requires Flushed(a, b, env) && GoodQueue(contacts, pushed, a)
    ensures GoodQueue(contacts, pushed, b)
  {
    if b != a {
      var budget: nat :| Dispatched(a, b, env, budget);
      var p := Fill(a, env, budget, [], 0);
      assert [] + a == a;
      FillKeepsQueue(a, env, budget, [], 0, contacts, pushed);
      StampKeeps(contacts, pushed, p.taken, p.rest, env.now);
    }
  }

  /** A flush adds nothing to the queue, and takes off only what cannot be encrypted. */
  lemma FlushedIds(a: seq<Item>, b: seq<Item>, env: Env, id: nat)
    requires Flushed(a, b, env)
    ensures HasId(b, id) ==> HasId(a, id)
    ensures HasId(a, id) && !HasId(b, id) ==> exists x :: x in a && x.id == id && env.weigh(x).None?
  {
    if b != a {
      var budget: nat :| Dispatched(a, b, env, budget);
      var p := Fill(a, env, budget, [], 0);
      assert [] + a == a;
      FillMembers(a, env, budget, [], 0);
      StampIsDates(p.taken, p.rest, env.now);
      if HasId(b, id) { DatesIdsBack(p.taken + p.rest, b, id); }
      if HasId(a, id) && !HasId(b, id) {
        var x :| x in a && x.id == id;
        if x in p.taken + p.rest {
          assert HasId(p.taken + p.rest, id);
          DatesIds(p.taken + p.rest, b, id);
          assert false;
        }
      }
    }
  }

  /** What a flush leaves is what was there, an item tried for the first time dated. */
  ghost predicate Stamped(x: Item, now: int, y: Item) {
    y == x.(firstAttempt := y.firstAttempt) && (y.firstAttempt == x.firstAttempt || (x.firstAttempt == 0 && y.firstAttempt == now))
  }

  lemma FlushedItem(a: seq<Item>, b: seq<Item>, env: Env, y: Item) returns (x: Item)
    requires Flushed(a, b, env) && y in b
    ensures x in a && Stamped(x, env.now, y)
  {
    if b == a {
      x := y;
    } else {
      var budget: nat :| Dispatched(a, b, env, budget);
      var p := Fill(a, env, budget, [], 0);
      assert [] + a == a;
      FillMembers(a, env, budget, [], 0);
      var i :| 0 <= i < |b| && b[i] == y;
      x := (p.taken + p.rest)[i];
      assert x in p.taken + p.rest;
    }
  }

  lemma FlushedDescends(a: seq<Item>, b: seq<Item>, env: Env, pushed: nat)
    requires Flushed(a, b, env)
    ensures Descends(a, pushed, b)
  {
    forall y | y in b ensures From(a, y) {
      var x := FlushedItem(a, b, env, y);
      assert SameItem(x, y);
    }
  }

  // ---- charging a failure ----

  lemma AscendingSnoc(c: seq<Item>, y: Item)
    requires Ascending(c) && forall z :: z in c ==> z.id < y.id
    ensures Ascending(c + [y])
  {
  }

  lemma AscendingFront(items: seq<Item>)
    requires Ascending(items) && items != []
    ensures Ascending(items[..|items| - 1])
    ensures forall z :: z in items[..|items| - 1] ==> z.id < items[|items| - 1].id
  {
  }

  lemma {:induction false} ChargeMembers(items: seq<Item>, now: int)
    ensures forall x :: x in Charge(items, now) ==> x.retries > 0 && x.(retries := x.retries - 1) in items && !Expired(x, now)
    ensures forall y :: y in items ==> Charged(y) in Charge(items, now) || Expired(Charged(y), now)
  {
    if items != [] {
      var front, y := items[..|items| - 1], items[|items| - 1];
      ChargeMembers(front, now);
      assert items == front + [y];
      assert Charged(y).(retries := Charged(y).retries - 1) == y;
    }
  }

  lemma {:induction false} ChargeAscends(items: seq<Item>, now: int)
    requires Ascending(items)
    ensures Ascending(Charge(items, now))
    ensures |Charge(items, now)| <= |items|
  {
    if items != [] {
      var front, y := items[..|items| - 1], items[|items| - 1];
      AscendingFront(items);
      ChargeAscends(front, now);
      ChargeMembers(front, now);
      forall z | z in Charge(front, now) ensures z.id < y.id {
        assert z.(retries := z.retries - 1) in front;
      }
      AscendingSnoc(Charge(front, now), Charged(y));
    }
  }

  lemma ChargeKeeps(contacts: map<Key, Contact>, pushed: nat, items: seq<Item>, now: int)
    requires GoodQueue(contacts, pushed, items)
    ensures GoodQueue(contacts, pushed, Charge(items, now))
  {
    ChargeAscends(items, now);
    ChargeMembers(items, now);
    forall x | x in Charge(items, now) ensures GoodItem(contacts, pushed, x) {
      assert GoodItem(contacts, pushed, x.(retries := x.retries - 1));
    }
  }

  function Left(x: Item): nat { if x.retries < MAX_OUTBOX_RETRIES then MAX_OUTBOX_RETRIES - x.retries else 0 }

  /** Retries left over the whole queue. */
  function Patience(items: seq<Item>): nat {
    if items == [] then 0 else Patience(items[..|items| - 1]) + Left(items[|items| - 1])
  }

  lemma PatienceSnoc(c: seq<Item>, x: Item)
    ensures Patience(c + [x]) == Patience(c) + Left(x)
  {
    assert (c + [x])[..|c|] == c;
  }

  lemma {:induction false} PatienceConcat(a: seq<Item>, b: seq<Item>)
    ensures Patience(a + b) == Patience(a) + Patience(b)
  {
    if b == [] {
      assert a + b == a;
    } else {
      PatienceConcat(a, b[..|b| - 1]);
      PatienceConcatNext(a, b[..|b| - 1], b[|b| - 1]);
      assert b == b[..|b| - 1] + [b[|b| - 1]];
    }
  }

  lemma PatienceConcatNext(a: seq<Item>, front: seq<Item>, x: Item)
    requires Patience(a + front) == Patience(a) + Patience(front)
    ensures Patience(a + (front + [x])) == Patience(a) + Patience(front + [x])
  {
    PatienceSnoc(a + front, x);
    PatienceSnoc(front, x);
    assert a + (front + [x]) == (a + front) + [x];
  }

  /** The retries left in a batch and what is behind it are no more than there were. */
  ghost predicate NoMore(p: Pick, taken: seq<Item>, rest: seq<Item>) {
    Patience(p.taken) + Patience(p.rest) <= Patience(taken) + Patience(rest)
  }

  lemma NoMoreTaken(p: Pick, taken: seq<Item>, rest: seq<Item>)
    requires rest != [] && (NoMore(p, taken, rest[1..]) || NoMore(p, taken + [rest[0]], rest[1..]))
    ensures NoMore(p, taken, rest)
  {
    PatienceHead(rest);
    PatienceSnoc(taken, rest[0]);
  }

  lemma {:induction false} FillPatience(rest: seq<Item>, env: Env, budget: nat, taken: seq<Item>, bytes: nat)
    ensures NoMore(Fill(rest, env, budget, taken, bytes), taken, rest)
    decreases |rest|
  {
    if |taken| >= MAX_SEND_BATCH || rest == [] || (taken != [] && taken[0].recipient != rest[0].recipient) {
    } else {
      match env.weigh(rest[0])
      case None =>
        FillPatience(rest[1..], env, budget, taken, bytes);
        NoMoreTaken(Fill(rest, env, budget, taken, bytes), taken, rest);
      case Some(size) =>
        var w := F.HexWeight(size);
        if !(taken != [] && bytes + w > budget) {
          FillPatience(rest[1..], env, budget, taken + [rest[0]], bytes + w);
          NoMoreTaken(Fill(rest, env, budget, taken, bytes), taken, rest);
        }
    }
  }

  lemma PatienceHead(items: seq<Item>)
    requires items != []
    ensures Patience(items) == Left(items[0]) + Patience(items[1..])
  {
    PatienceConcat([items[0]], items[1..]);
    PatienceSnoc([], items[0]);
    assert [items[0]] + items[1..] == items;
    assert [] + [items[0]] == [items[0]];
  }

  lemma {:induction false} PatienceDates(a: seq<Item>, b: seq<Item>)
    requires SameButDates(a, b)
    ensures Patience(a) == Patience(b)
  {
    if a != [] { PatienceDates(a[..|a| - 1], b[..|b| - 1]); }
  }

  lemma FlushedPatience(a: seq<Item>, b: seq<Item>, env: Env)
    requires Flushed(a, b, env)
    ensures Patience(b) <= Patience(a)
  {
    if b != a {
      var budget: nat :| Dispatched(a, b, env, budget);
      var p := Fill(a, env, budget, [], 0);
      FillPatience(a, env, budget, [], 0);
      PatienceConcat(p.taken, p.rest);
      StampIsDates(p.taken, p.rest, env.now);
      PatienceDates(p.taken + p.rest, b);
    }
  }

  lemma {:induction false} PatienceCap(items: seq<Item>)
    ensures Patience(items) <= MAX_OUTBOX_RETRIES * |items|
  {
    if items != [] { PatienceCap(items[..|items| - 1]); }
  }

  lemma {:induction false} PatienceSparing(items: seq<Item>, peer: Key)
    ensures Patience(Sparing(items, peer)) <= Patience(items)
  {
    if items != [] {
      PatienceSparing(items[..|items| - 1], peer);
      PatienceSnoc(Sparing(items[..|items| - 1], peer), items[|items| - 1]);
    }
  }

  lemma {:induction false} ChargeCosts(items: seq<Item>, now: int)
    requires forall x :: x in items ==> x.retries < MAX_OUTBOX_RETRIES
    ensures Patience(Charge(items, now)) + |items| <= Patience(items)
  {
    if items != [] {
      var front, y := items[..|items| - 1], items[|items| - 1];
      assert items == front + [y];
      ChargeCosts(front, now);
      PatienceSnoc(front, y);
      PatienceSnoc(Charge(front, now), Charged(y));
    }
  }

  /** Each charged failure strictly lowers the retries left in the queue. */
  lemma ChargedFailureCosts(m: Model, batch: InFlight, now: int)
    requires OutInv(m) && 1 <= batch.count <= |m.outbox|
    ensures Patience(Charge(m.outbox[..batch.count], now) + m.outbox[batch.count..]) < Patience(m.outbox)
  {
    var n := batch.count;
    assert m.outbox == m.outbox[..n] + m.outbox[n..];
    PatienceConcat(m.outbox[..n], m.outbox[n..]);
    PatienceConcat(Charge(m.outbox[..n], now), m.outbox[n..]);
    forall x | x in m.outbox[..n] ensures x.retries < MAX_OUTBOX_RETRIES { assert x in m.outbox; }
    ChargeCosts(m.outbox[..n], now);
  }

  lemma GoodConcat(contacts: map<Key, Contact>, pushed: nat, a: seq<Item>, b: seq<Item>)
    requires GoodQueue(contacts, pushed, a) && GoodQueue(contacts, pushed, b)
    requires forall x, y :: x in a && y in b ==> x.id < y.id
    ensures GoodQueue(contacts, pushed, a + b)
  {
    forall i, j | 0 <= i < j < |a + b| ensures (a + b)[i].id < (a + b)[j].id {
      if i < |a| <= j { assert a[i] in a && b[j - |a|] in b; }
    }
  }

  lemma ChargedQueue(m: Model, n: nat, now: int)
    requires OutInv(m) && n <= |m.outbox|
    ensures GoodQueue(m.contacts, m.pushed, Charge(m.outbox[..n], now) + m.outbox[n..])
  {
    var head, tail := m.outbox[..n], m.outbox[n..];
    GoodSlice(m.contacts, m.pushed, m.outbox, n);
    ChargeKeeps(m.contacts, m.pushed, head, now);
    ChargeMembers(head, now);
    forall x, y | x in Charge(head, now) && y in tail ensures x.id < y.id {
      HeadBeforeTail(m.outbox, n, x.(retries := x.retries - 1), y);
    }
    GoodConcat(m.contacts, m.pushed, Charge(head, now), tail);
  }

  lemma ChargedDescends(items: seq<Item>, n: nat, now: int, pushed: nat)
    requires n <= |items|
    ensures Descends(items, pushed, Charge(items[..n], now) + items[n..])
  {
    ChargeMembers(items[..n], now);
    forall y | y in Charge(items[..n], now) + items[n..] ensures From(items, y) {
      if y in items {
        assert SameItem(y, y);
      } else {
        assert y.(retries := y.retries - 1) in items && SameItem(y.(retries := y.retries - 1), y);
      }
    }
  }

  lemma HeadBeforeTail(items: seq<Item>, n: nat, x: Item, y: Item)
    requires Ascending(items) && n <= |items| && x in items[..n] && y in items[n..]
    ensures x.id < y.id
  {
    var i :| 0 <= i < n && items[i] == x;
    var j :| 0 <= j < |items| - n && items[n..][j] == y;
    assert items[n + j] == y;
  }

  /** A charged failure drops only the batch items it exhausts. */
  lemma ChargedLosses(items: seq<Item>, n: nat, now: int, y: Item)
    requires n <= |items| && y in items
    requires !HasId(Charge(items[..n], now) + items[n..], y.id)
    ensures y in items[..n] && Expired(Charged(y), now)
  {
    ChargeMembers(items[..n], now);
    assert items == items[..n] + items[n..];
    var left := Charge(items[..n], now) + items[n..];
    assert y in items[n..] ==> y in left;
    assert Charged(y) in Charge(items[..n], now) ==> Charged(y) in left;
  }

  // ---- removing a peer ----

  lemma {:induction false} SparingMembers(items: seq<Item>, peer: Key)
    ensures forall x :: x in Sparing(items, peer) <==> x in items && x.recipient != peer
  {
    if items != [] {
      SparingMembers(items[..|items| - 1], peer);
      assert items == items[..|items| - 1] + [items[|items| - 1]];
    }
  }

  lemma {:induction false} SparingAscends(items: seq<Item>, peer: Key)
    requires Ascending(items)
    ensures Ascending(Sparing(items, peer))
  {
    if items != [] {
      AscendingFront(items);
      SparingAscends(items[..|items| - 1], peer);
      SparingMembers(items[..|items| - 1], peer);
      AscendingSnoc(Sparing(items[..|items| - 1], peer), items[|items| - 1]);
    }
  }

  lemma {:induction false} SparingAll(items: seq<Item>, peer: Key)
    requires forall i :: 0 <= i < |items| ==> items[i].recipient != peer
    ensures Sparing(items, peer) == items
  {
    if items != [] {
      SparingAll(items[..|items| - 1], peer);
      assert items == items[..|items| - 1] + [items[|items| - 1]];
    }
  }

  /** Removing a peer leaves a head of other peers' items where it was. */
  lemma {:induction false} SparingHead(items: seq<Item>, peer: Key, n: nat)
    requires n <= |items| && forall i :: 0 <= i < n ==> items[i].recipient != peer
    ensures n <= |Sparing(items, peer)| && Sparing(items, peer)[..n] == items[..n]
  {
    if |items| > n {
      SparingHead(items[..|items| - 1], peer, n);
      assert items[..|items| - 1][..n] == items[..n];
    } else {
      SparingAll(items, peer);
    }
  }

  // ---- pushing ----

  lemma PushedUsable(p: P.Payload, ts: int)
    requires P.Acceptable(p) && P.IsI64(ts)
    ensures Usable(P.Serialize(p, ts))
  {
    P.CleanedAcceptable(p);
    P.PayloadRoundTrip(p, ts);
    P.PayloadFitsPlaintext(p, ts);
  }

  lemma GoodSnoc(contacts: map<Key, Contact>, pushed: nat, items: seq<Item>, x: Item)
    requires GoodQueue(contacts, pushed, items) && GoodItem(contacts, pushed + 1, x) && x.id == pushed
    ensures GoodQueue(contacts, pushed + 1, items + [x])
  {
    var q := items + [x];
    forall y | y in q ensures GoodItem(contacts, pushed + 1, y) {
      if y in items { assert GoodItem(contacts, pushed, y); }
    }
    forall i, j | 0 <= i < j < |q| ensures q[i].id < q[j].id {
      if j == |items| { assert items[i] in items; }
    }
  }

  lemma PushedItem(m: Model, k: Key, p: P.Payload, ts: int) returns (x: Item)
    requires Reachable(m.contacts, k) && P.Acceptable(p) && P.IsI64(ts)
    ensures x.id == m.pushed && GoodItem(m.contacts, m.pushed + 1, x)
    ensures Push(m, k, p, ts) == m.(outbox := m.outbox + [x], pushed := m.pushed + 1)
  {
    PushedUsable(p, ts);
    x := Item(m.pushed, k, P.Serialize(p, ts), p.Profile?, 0, 0);
  }

  lemma PushKeeps(m: Model, k: Key, p: P.Payload, ts: int)
    requires OutInv(m) && Reachable(m.contacts, k) && P.Acceptable(p) && P.IsI64(ts)
    ensures OutInv(Push(m, k, p, ts))
    ensures forall x :: x in m.outbox ==> x in Push(m, k, p, ts).outbox
    ensures OnlyOld(m, Push(m, k, p, ts))
    ensures Patience(Push(m, k, p, ts).outbox) == Patience(m.outbox) + MAX_OUTBOX_RETRIES
    ensures |m.outbox| < |Push(m, k, p, ts).outbox| && Push(m, k, p, ts).outbox[..|m.outbox|] == m.outbox
  {
    var x := PushedItem(m, k, p, ts);
    GoodSnoc(m.contacts, m.pushed, m.outbox, x);
    PatienceSnoc(m.outbox, Item(m.pushed, k, P.Serialize(p, ts), p.Profile?, 0, 0));
  }

  lemma RewriteKeeps(m: Model, r: nat, j: P.Json)
    requires OutInv(m) && r < |m.outbox| && Usable(j)
    ensures var q := m.outbox[r := m.outbox[r].(envelope := j)];
      GoodQueue(m.contacts, m.pushed, q) && forall id :: HasId(m.outbox, id) <==> HasId(q, id)
  {
    var q := m.outbox[r := m.outbox[r].(envelope := j)];
    assert m.outbox[r] in m.outbox;
    forall x | x in q ensures GoodItem(m.contacts, m.pushed, x) {
      if x != q[r] { assert x in m.outbox; }
    }
    forall id | HasId(m.outbox, id) ensures HasId(q, id) {
      var x :| x in m.outbox && x.id == id;
      var i :| 0 <= i < |m.outbox| && m.outbox[i] == x;
      assert q[i] in q && q[i].id == id;
    }
    forall id | HasId(q, id) ensures HasId(m.outbox, id) {
      var x :| x in q && x.id == id;
      var i :| 0 <= i < |q| && q[i] == x;
      assert m.outbox[i] in m.outbox && m.outbox[i].id == id;
    }
  }

  lemma RewriteDescends(items: seq<Item>, r: nat, j: P.Json, pushed: nat)
    requires r < |items| && items[r].profile
    ensures Descends(items, pushed, items[r := items[r].(envelope := j)])
  {
    var q := items[r := items[r].(envelope := j)];
    forall y | y in q ensures From(items, y) {
      var i :| 0 <= i < |q| && q[i] == y;
      assert items[i] in items && SameItem(items[i], y);
    }
  }

  lemma {:induction false} RewritePatience(items: seq<Item>, r: nat, j: P.Json)
    requires r < |items|
    ensures Patience(items[r := items[r].(envelope := j)]) == Patience(items)
  {
    var q := items[r := items[r].(envelope := j)];
    if r < |items| - 1 {
      RewritePatience(items[..|items| - 1], r, j);
      assert q[..|q| - 1] == items[..|items| - 1][r := items[r].(envelope := j)];
    } else {
      assert q[..|q| - 1] == items[..|items| - 1];
    }
  }

  /** The queue with profiles rewritten or added behind the items on the wire: nothing is
      lost, nothing old comes back, and only new items add retries. */
  ghost predicate Superseded(m: Model, live: nat, m': Model)
    requires live <= |m.outbox|
  {
    && m' == m.(outbox := m'.outbox, pushed := m'.pushed)
    && OutInv(m') && live <= |m'.outbox| && m'.outbox[..live] == m.outbox[..live]
    && OnlyOld(m, m') && Patience(m'.outbox) <= Patience(m.outbox) + MAX_OUTBOX_RETRIES * (m'.pushed - m.pushed)
    && (forall id :: HasId(m.outbox, id) ==> HasId(m'.outbox, id))
    && Descends(m.outbox, m.pushed, m'.outbox)
  }

  lemma PushIds(m: Model, k: Key, p: P.Payload, ts: int)
    ensures forall id :: HasId(m.outbox, id) ==> HasId(Push(m, k, p, ts).outbox, id)
    ensures Descends(m.outbox, m.pushed, Push(m, k, p, ts).outbox)
  {
    var m' := Push(m, k, p, ts);
    forall id | HasId(m.outbox, id) ensures HasId(m'.outbox, id) {
      var x :| x in m.outbox && x.id == id;
      assert x in m'.outbox;
    }
    DescendsFrom(m.outbox, m.pushed, m'.outbox);
  }

  lemma PushedOnlyNew(m: Model, live: nat, m': Model, x: Item)
    requires OutInv(m) && live <= |m.outbox| && OutInv(m') && OnlyOld(m, m')
    requires m' == m.(outbox := m.outbox + [x], pushed := m.pushed + 1)
    requires Patience(m'.outbox) == Patience(m.outbox) + MAX_OUTBOX_RETRIES
    requires (forall id :: HasId(m.outbox, id) ==> HasId(m'.outbox, id)) && Descends(m.outbox, m.pushed, m'.outbox)
    ensures Superseded(m, live, m')
  {
    assert m'.outbox[..live] == m.outbox[..live];
  }

  lemma SupersedePushes(m: Model, live: nat, k: Key, ts: int)
    requires OutInv(m) && live <= |m.outbox| && Reachable(m.contacts, k) && P.Acceptable(m.profile) && P.IsI64(ts)
    ensures Superseded(m, live, Push(m, k, m.profile, ts))
  {
    PushKeeps(m, k, m.profile, ts);
    PushIds(m, k, m.profile, ts);
    var x := PushedItem(m, k, m.profile, ts);
    PushedOnlyNew(m, live, Push(m, k, m.profile, ts), x);
  }

  /** A profile edit rewrites nothing that is on the wire and loses nothing. */
  lemma SupersedeKeeps(m: Model, live: nat, k: Key, ts: int)
    requires OutInv(m) && live <= |m.outbox| && Reachable(m.contacts, k)
    requires m.profile.Profile? && P.Acceptable(m.profile) && P.IsI64(ts)
    ensures Superseded(m, live, Supersede(m, live, k, ts))
  {
    var r := Pending(m.outbox, live, k);
    if r < |m.outbox| {
      PushedUsable(m.profile, ts);
      RewriteKeeps(m, r, P.Serialize(m.profile, ts));
      RewritePatience(m.outbox, r, P.Serialize(m.profile, ts));
      RewriteDescends(m.outbox, r, P.Serialize(m.profile, ts), m.pushed);
    } else {
      SupersedePushes(m, live, k, ts);
    }
  }

  lemma SupersededTrans(a: Model, live: nat, b: Model, c: Model)
    requires live <= |a.outbox| && Superseded(a, live, b) && live <= |b.outbox| && Superseded(b, live, c)
    ensures Superseded(a, live, c)
  {
    DescendsTrans(a.outbox, a.pushed, b.outbox, b.pushed, c.outbox);
  }

  lemma SupersedeNext(m: Model, live: nat, mid: Model, k: Key, ts: int)
    requires live <= |m.outbox| && Superseded(m, live, mid) && Reachable(m.contacts, k)
    requires m.profile.Profile? && P.Acceptable(m.profile) && P.IsI64(ts)
    ensures Superseded(m, live, Supersede(mid, live, k, ts))
  {
    SupersedeKeeps(mid, live, k, ts);
    SupersededTrans(m, live, mid, Supersede(mid, live, k, ts));
  }

  lemma {:induction false} SupersedeAllKeeps(m: Model, live: nat, peers: seq<Key>, ts: int)
    requires OutInv(m) && live <= |m.outbox|
    requires forall k :: k in peers ==> Reachable(m.contacts, k)
    requires m.profile.Profile? && P.Acceptable(m.profile) && P.IsI64(ts)
    ensures Superseded(m, live, SupersedeAll(m, live, peers, ts))
  {
    if peers == [] {
      DescendsFrom(m.outbox, m.pushed, m.outbox);
    } else {
      var front, k := peers[..|peers| - 1], peers[|peers| - 1];
      assert k in peers && forall q :: q in front ==> q in peers;
      SupersedeAllKeeps(m, live, front, ts);
      SupersedeNext(m, live, SupersedeAll(m, live, front, ts), k, ts);
    }
  }

  // ---- an edit reaches every peer ----

  /** The profile `j` is put at position `r`: over the pending one, or at the end. */
  ghost predicate PutAt(items: seq<Item>, live: nat, k: Key, j: P.Json, r: nat, items': seq<Item>) {
    && live <= r <= |items| && |items'| == (if r < |items| then |items| else |items| + 1)
    && items'[r].recipient == k && items'[r].profile && items'[r].envelope == j
    && (if r < |items| then items[r].recipient == k && items[r].profile
        else forall i :: live <= i < |items| ==> !(items[i].recipient == k && items[i].profile))
    && forall i :: 0 <= i < |items| && i != r ==> items'[i] == items[i]
  }

  lemma RewritePuts(items: seq<Item>, live: nat, k: Key, j: P.Json, r: nat)
    requires live <= r < |items| && items[r].recipient == k && items[r].profile
    ensures PutAt(items, live, k, j, r, items[r := items[r].(envelope := j)])
  {
  }

  lemma PushPuts(items: seq<Item>, live: nat, x: Item)
    requires live <= |items| && x.profile && !HasPending(items, live, x.recipient)
    ensures PutAt(items, live, x.recipient, x.envelope, |items|, items + [x])
  {
  }

  lemma SupersedeIs(m: Model, live: nat, k: Key, ts: int)
    requires live <= |m.outbox| && m.profile.Profile?
    ensures var r, j := Pending(m.outbox, live, k), P.Serialize(m.profile, ts);
      Supersede(m, live, k, ts)
        == if r < |m.outbox| then m.(outbox := m.outbox[r := m.outbox[r].(envelope := j)])
           else m.(outbox := m.outbox + [Item(m.pushed, k, j, true, 0, 0)], pushed := m.pushed + 1)
  {
  }

  /** Whatever the item's text, either the pending profile is overwritten or one is added. */
  lemma EitherPuts(m: Model, live: nat, k: Key, j: P.Json, m': Model) returns (r: nat)
    requires live <= |m.outbox|
    requires m' == if Pending(m.outbox, live, k) < |m.outbox|
                   then m.(outbox := m.outbox[Pending(m.outbox, live, k) := m.outbox[Pending(m.outbox, live, k)].(envelope := j)])
                   else m.(outbox := m.outbox + [Item(m.pushed, k, j, true, 0, 0)], pushed := m.pushed + 1)
    ensures PutAt(m.outbox, live, k, j, r, m'.outbox)
    ensures m'.profile == m.profile && m'.pushed - m.pushed == |m'.outbox| - |m.outbox|
  {
    r := Pending(m.outbox, live, k);
    if r < |m.outbox| {
      RewritePuts(m.outbox, live, k, j, r);
    } else {
      PushPuts(m.outbox, live, Item(m.pushed, k, j, true, 0, 0));
    }
  }

  /** The profile `j` is queued for the peer behind the items on the wire. */
  ghost predicate QueuedFor(items: seq<Item>, live: nat, k: Key, j: P.Json) {
    exists i :: live <= i < |items| && items[i].recipient == k && items[i].profile && items[i].envelope == j
  }

  lemma PutIsQueued(items: seq<Item>, live: nat, k: Key, j: P.Json, r: nat, items': seq<Item>, q: Key)
    requires PutAt(items, live, k, j, r, items') && (q == k || QueuedFor(items, live, q, j))
    ensures QueuedFor(items', live, q, j)
  {
    if q == k {
      assert items'[r].recipient == k;
    } else {
      var i :| live <= i < |items| && items[i].recipient == q && items[i].profile && items[i].envelope == j;
      assert items'[i] == items[i];
    }
  }

  /** A profile for the peer is queued behind the items on the wire. */
  predicate HasPending(items: seq<Item>, live: nat, k: Key) {
    exists i :: live <= i < |items| && items[i].recipient == k && items[i].profile
  }

  /** Items are added at the end, at most one for each of the peers without one and none for
      another. */
  ghost predicate OneEach(items: seq<Item>, live: nat, peers: seq<Key>, items': seq<Item>) {
    && |items| <= |items'|
    && (forall i :: |items| <= i < |items'| ==> items'[i].recipient in peers && !HasPending(items, live, items'[i].recipient))
    && (forall i :: 0 <= i < |items| ==> items'[i].recipient == items[i].recipient && items'[i].profile == items[i].profile)
    && forall i, j :: |items| <= i < j < |items'| ==> items'[i].recipient != items'[j].recipient
  }

  lemma PutAddsOne(items: seq<Item>, peers: seq<Key>, live: nat, k: Key, j: P.Json, r: nat, mid: seq<Item>, items': seq<Item>)
    requires OneEach(items, live, peers, mid) && PutAt(mid, live, k, j, r, items') && k !in peers
    ensures OneEach(items, live, peers + [k], items')
  {
    assert k in peers + [k];
  }

  /** A profile edit reaches every peer: behind the items on the wire each has the new
      profile queued, and the queue has grown by one item for each who had none there. */
  lemma {:induction false} ProfileReachesAll(m: Model, live: nat, peers: seq<Key>, ts: int)
    requires live <= |m.outbox| && m.profile.Profile? && forall i, j :: 0 <= i < j < |peers| ==> peers[i] != peers[j]
    ensures var m' := SupersedeAll(m, live, peers, ts);
      && m'.profile == m.profile && m'.pushed - m.pushed == |m'.outbox| - |m.outbox|
      && OneEach(m.outbox, live, peers, m'.outbox)
      && forall k :: k in peers ==> QueuedFor(m'.outbox, live, k, P.Serialize(m.profile, ts))
  {
    if peers != [] {
      var front, k := peers[..|peers| - 1], peers[|peers| - 1];
      ProfileReachesAll(m, live, front, ts);
      var mid, m', j := SupersedeAll(m, live, front, ts), SupersedeAll(m, live, peers, ts), P.Serialize(m.profile, ts);
      SupersedeIs(mid, live, k, ts);
      var r := EitherPuts(mid, live, k, j, m');
      PutAddsOne(m.outbox, front, live, k, j, r, mid.outbox, m'.outbox);
      assert peers == front + [k];
      forall q | q in peers ensures QueuedFor(m'.outbox, live, q, j) { PutIsQueued(mid.outbox, live, k, j, r, m'.outbox, q); }
    }
  }
}

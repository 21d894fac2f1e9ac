/** What a relay's pages weigh, and that it builds the same page again until it is acked. */
module RelayPages {
  import opened Pools
  import opened RelayState
  import opened RelayMailbox
  import opened RelayForwards
  import opened RelayRuns

  // ---- the weight of a page ----

  /** A row as a page shows it: its number and its blob. */
  type Entry = (int, Blob)

  function Entries(rows: set<Message>): set<Entry> { set m | m in rows :: (m.receivedAt, m.blob) }

  /** What the blobs weigh together. */
  ghost function Heft(entries: set<Entry>, weigh: Blob -> nat): nat {
    if entries == {} then 0
    else
      var x :| x in entries;
      weigh(x.1) + Heft(entries - {x}, weigh)
  }

  lemma {:induction false} HeftPick(entries: set<Entry>, weigh: Blob -> nat, x: Entry)
    requires x in entries
    ensures Heft(entries, weigh) == weigh(x.1) + Heft(entries - {x}, weigh)
    decreases |entries|
  {
    var y :| y in entries && Heft(entries, weigh) == weigh(y.1) + Heft(entries - {y}, weigh);
    if y != x {
      HeftPick(entries - {y}, weigh, x);
      HeftPick(entries - {x}, weigh, y);
      assert entries - {y} - {x} == entries - {x} - {y};
    }
  }

  lemma {:induction false} HeftGrows(a: set<Entry>, b: set<Entry>, weigh: Blob -> nat)
    requires a <= b
    ensures Heft(a, weigh) <= Heft(b, weigh)
    decreases |a|
  {
    if a != {} {
      var x :| x in a;
      HeftPick(a, weigh, x);
      HeftPick(b, weigh, x);
      HeftGrows(a - {x}, b - {x}, weigh);
    }
  }

  // ---- how long a page is ----

  /** In every run a page holds at most fifty rows, each with a number of its own. */
  lemma PageSize(ws: seq<World>, es: seq<Event>, i: nat, id: nat, t: int)
    requires Run(ws, es) && i < |ws| && id in ws[i].polls
    ensures |PageOf(ws[i], id, t)| <= MAX_POLL_EVENTS
    ensures forall a, b :: a in PageOf(ws[i], id, t) && b in PageOf(ws[i], id, t) && a.receivedAt == b.receivedAt ==> a == b
  {
    AlwaysInv(ws, es, i);
    ChosenFit(FreshFor(ws[i].relay.messages, ws[i].polls[id].key, ws[i].polls[id].cursor, t), MAX_POLL_EVENTS);
  }

  // ---- the same rows again ----

  lemma {:induction false} CounterRises(ws: seq<World>, es: seq<Event>, i: nat, j: nat)
    requires Run(ws, es) && i <= j < |ws|
    ensures ws[i].relay.counter <= ws[j].relay.counter
  {
    if i < j {
      CounterRises(ws, es, i, j - 1);
      AlwaysInv(ws, es, j - 1);
      assert StepAt(ws, es, j - 1);
      StepKeeps(ws[j - 1], es[j - 1], ws[j]);
    }
  }

  ghost predicate KeptFrom(msgs: set<Message>, m: Message) { exists o :: o in msgs && SameRow(o, m) }

  /** A row numbered before a state was already there in it. */
  lemma {:induction false} OldRow(ws: seq<World>, es: seq<Event>, i: nat, j: nat, m: Message)
    requires Run(ws, es) && i <= j < |ws| && m in ws[j].relay.messages && m.receivedAt <= ws[i].relay.counter
    ensures KeptFrom(ws[i].relay.messages, m)
    decreases j
  {
    if i == j {
      assert SameRow(m, m);
    } else {
      AlwaysInv(ws, es, j - 1);
      assert StepAt(ws, es, j - 1);
      CounterRises(ws, es, i, j - 1);
      var o := RowOrigin(ws[j - 1], es[j - 1], ws[j], m);
      OldRow(ws, es, i, j - 1, o);
      var first :| first in ws[i].relay.messages && SameRow(first, o);
    }
  }

  function Numbers(rows: set<Message>): set<int> { set m | m in rows :: m.receivedAt }

  lemma {:induction false} NumbersCard(rows: set<Message>)
    requires forall a, b :: a in rows && b in rows && a.receivedAt == b.receivedAt ==> a == b
    ensures |Numbers(rows)| == |rows|
    decreases |rows|
  {
    if rows != {} {
      var x :| x in rows;
      NumbersCard(rows - {x});
      assert Numbers(rows) == Numbers(rows - {x}) + {x.receivedAt};
    }
  }

  /** Two polls of one key at one cursor, the later by no earlier clock. */
  ghost predicate SamePoll(ws: seq<World>, es: seq<Event>, i: nat, j: nat)
    requires i <= j < |es| < |ws|
  {
    && es[i].Collect? && es[i].id in ws[i].polls && es[j].Collect? && es[j].id in ws[j].polls
    && ws[j].polls[es[j].id].key == ws[i].polls[es[i].id].key
    && ws[j].polls[es[j].id].cursor == ws[i].polls[es[i].id].cursor && es[i].t <= es[j].t
  }

  function Unread(w: World, id: nat, t: int): set<Message>
    requires id in w.polls
  {
    FreshFor(w.relay.messages, w.polls[id].key, w.polls[id].cursor, t)
  }

  /** What is ahead of the row in the later poll was ahead of it in the earlier one. */
  lemma NoneOvertakes(ws: seq<World>, es: seq<Event>, i: nat, j: nat, m: Message, m': Message)
    requires Run(ws, es) && i <= j < |es| && SamePoll(ws, es, i, j)
    requires m in Unread(ws[i], es[i].id, es[i].t) && m' in Unread(ws[j], es[j].id, es[j].t) && SameRow(m, m')
    ensures |Ahead(Unread(ws[j], es[j].id, es[j].t), Older, m')| <= |Ahead(Unread(ws[i], es[i].id, es[i].t), Older, m)|
  {
    AlwaysInv(ws, es, i);
    AlwaysInv(ws, es, j);
    var before, after := Ahead(Unread(ws[i], es[i].id, es[i].t), Older, m), Ahead(Unread(ws[j], es[j].id, es[j].t), Older, m');
    forall y | y in after ensures y.receivedAt in Numbers(before) {
      OldRow(ws, es, i, j, y);
      var o :| o in ws[i].relay.messages && SameRow(o, y);
      assert o in before;
    }
    assert Numbers(after) <= Numbers(before);
    NumbersCard(before);
    NumbersCard(after);
    SubsetCard(Numbers(after), Numbers(before));
  }

  /** While the rows of a page are stored and have not expired, each later poll of that key
      at that cursor returns all of them again, whatever else has come in since. */
  lemma PageRepeats(ws: seq<World>, es: seq<Event>, i: nat, j: nat, m: Message, m': Message)
    requires Run(ws, es) && i <= j < |es| && SamePoll(ws, es, i, j)
    requires m in PageOf(ws[i], es[i].id, es[i].t)
    requires m' in ws[j].relay.messages && SameRow(m, m') && es[j].t - m.receivedAt < MESSAGE_MAX_AGE
    ensures m' in PageOf(ws[j], es[j].id, es[j].t)
  {
    NoneOvertakes(ws, es, i, j, m, m');
  }

  /** The rows of the earlier page are still stored and have not expired. */
  ghost predicate StillHeld(ws: seq<World>, es: seq<Event>, i: nat, j: nat)
    requires i <= j < |es| < |ws| && SamePoll(ws, es, i, j)
  {
    forall m :: m in PageOf(ws[i], es[i].id, es[i].t) ==>
      es[j].t - m.receivedAt < MESSAGE_MAX_AGE && KeptFrom(ws[j].relay.messages, m)
  }

  /** The later page weighs no less. */
  lemma PageStaysHeavy(ws: seq<World>, es: seq<Event>, i: nat, j: nat, weigh: Blob -> nat)
    requires Run(ws, es) && i <= j < |es| && SamePoll(ws, es, i, j) && StillHeld(ws, es, i, j)
    ensures Heft(Entries(PageOf(ws[i], es[i].id, es[i].t)), weigh) <= Heft(Entries(PageOf(ws[j], es[j].id, es[j].t)), weigh)
  {
    var before, after := PageOf(ws[i], es[i].id, es[i].t), PageOf(ws[j], es[j].id, es[j].t);
    forall x | x in Entries(before) ensures x in Entries(after) {
      var m :| m in before && (m.receivedAt, m.blob) == x;
      assert KeptFrom(ws[j].relay.messages, m);
      var o :| o in ws[j].relay.messages && SameRow(o, m);
      PageRepeats(ws, es, i, j, m, o);
    }
    HeftGrows(Entries(before), Entries(after), weigh);
  }

  // ---- two blobs on one page ----

  lemma HeftOfTwo(x: Entry, y: Entry, weigh: Blob -> nat)
    requires x != y
    ensures Heft({x, y}, weigh) == weigh(x.1) + weigh(y.1)
  {
    HeftPick({x, y}, weigh, x);
    assert {x, y} - {x} == {y};
    HeftPick({y}, weigh, y);
    assert {y} - {y} == {};
  }

  lemma FirstRow(k: Key, b: Blob, t: int)
    requires t > 0
    ensures Append(State({}, 0, {}), k, b, t) == State({Message(k, b, t, {})}, t, {})
  {
    EmptyInv();
    RoomMade(State({}, 0, {}), k);
    assert MakeRoom({}, k) == {};
  }

  lemma SecondRow(k: Key, a: Blob, b: Blob, t: int)
    requires t > 0 && a != b
    ensures Append(State({Message(k, a, t, {})}, t, {}), k, b, t)
      == State({Message(k, a, t, {}), Message(k, b, t + 1, {})}, t + 1, {})
  {
    var first := Message(k, a, t, {});
    var msgs := {first};
    assert !Held(msgs, k, b);
    assert RowsFor(msgs, k) == msgs;
    RoomBelowCeiling(msgs, k);
    SubsetCard(Spared(msgs, k), msgs);
    assert MakeRoom(msgs, k) == msgs;
  }

  lemma BothUnread(k: Key, a: Blob, b: Blob, t: int)
    requires t > 0 && a != b
    ensures var msgs := {Message(k, a, t, {}), Message(k, b, t + 1, {})}; Page(msgs, k, 0, t) == msgs
  {
    var msgs := {Message(k, a, t, {}), Message(k, b, t + 1, {})};
    var unread := FreshFor(msgs, k, 0, t);
    assert unread == msgs;
    forall m | m in unread ensures m in Page(msgs, k, 0, t) { SubsetCard(Ahead(unread, Older, m), unread); }
  }

  /** Two messages to one key, then a poll from the start. */
  lemma TwoBlobsRun(k: Key, a: Blob, b: Blob, t: int) returns (ws: seq<World>, es: seq<Event>)
    requires t > 0 && a != b
    ensures Run(ws, es) && |es| == 4 && es[3] == Collect(0, t, t + 1)
    ensures ws[3] == World(State({Message(k, a, t, {}), Message(k, b, t + 1, {})}, t + 1, {}), map[0 := Poll(k, 0, false)])
  {
    var x, y := Message(k, a, t, {}), Message(k, b, t + 1, {});
    FirstRow(k, a, t);
    SecondRow(k, a, b, t);
    BothUnread(k, a, b, t);
    var both := State({x, y}, t + 1, {});
    ws := [World(State({}, 0, {}), map[]), World(State({x}, t, {}), map[]), World(both, map[]),
           World(both, map[0 := Poll(k, 0, false)]), World(both, map[])];
    es := [Receive(k, a, t), Receive(k, b, t), Setup(0, k, 0, t), Collect(0, t, t + 1)];
    assert ws[3].polls - {0} == map[];
    assert y in PageOf(ws[3], 0, t);
  }

  /** A run that puts two blobs on one page. */
  lemma TwoBlobsPage(k: Key, a: Blob, b: Blob, t: int, weigh: Blob -> nat) returns (ws: seq<World>, es: seq<Event>)
    requires t > 0 && a != b
    ensures Run(ws, es) && |es| == 4 && es[3].Collect? && es[3].id in ws[3].polls && ws[3].polls[es[3].id] == Poll(k, 0, false)
    ensures Heft(Entries(PageOf(ws[3], es[3].id, es[3].t)), weigh) == weigh(a) + weigh(b)
  {
    ws, es := TwoBlobsRun(k, a, b, t);
    BothUnread(k, a, b, t);
    assert Entries({Message(k, a, t, {}), Message(k, b, t + 1, {})}) == {(t, a), (t + 1, b)};
    HeftOfTwo((t, a), (t + 1, b), weigh);
  }
}

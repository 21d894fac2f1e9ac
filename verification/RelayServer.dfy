/** The relay's stored relations and the atomic blocks that overwrite them. */
module RelayServer {
  import opened Pools
  import opened RelayState
  import opened RelayMailbox
  import opened RelayForwards

  /** One message of a send, with the peers its recipient is present at. */
  datatype Outgoing = Outgoing(to: Key, blob: Blob, remote: set<Server>)

  /** The states a batch passes through, one message at a time. */
  ghost predicate SentAll(states: seq<State>, batch: seq<Outgoing>, t: int) {
    && |states| == |batch| + 1
    && forall i :: 0 <= i < |batch| ==> SentAt(states, batch, t, i)
  }

  ghost predicate SentAt(states: seq<State>, batch: seq<Outgoing>, t: int, i: nat)
    requires i < |batch| < |states|
  {
    Sent(states[i], batch[i].to, batch[i].blob, t, batch[i].remote, states[i + 1])
  }

  lemma SentNext(states: seq<State>, batch: seq<Outgoing>, t: int, i: nat, s: State, s': State)
    requires i < |batch| && SentAll(states, batch[..i], t) && states[i] == s
    requires Sent(s, batch[i].to, batch[i].blob, t, batch[i].remote, s')
    ensures SentAll(states + [s'], batch[..i + 1], t)
  {
    var all, sent := states + [s'], batch[..i + 1];
    forall j | 0 <= j < |sent| ensures SentAt(all, sent, t, j) {
      assert j < i ==> SentAt(states, batch[..i], t, j);
    }
  }

  /** Evicting up to the sequence number of the last row to go is the same as evicting
      the rows themselves. */
  lemma ThresholdEvicts(msgs: set<Message>, k: Key, sorted: seq<Message>, excess: nat)
    requires forall a, b :: a in msgs && b in msgs && a.receivedAt == b.receivedAt ==> a == b
    requires Lists(sorted, RowsFor(msgs, k)) && Ranked(sorted, Older)
    requires 0 < excess == |sorted| - (MAX_MESSAGES_PER_RECIPIENT - 1)
    ensures (set m | m in msgs && !(m.toKey == k && m.receivedAt <= sorted[excess - 1].receivedAt))
         == (msgs - RowsFor(msgs, k)) + Spared(msgs, k)
  {
    var mine := RowsFor(msgs, k);
    var n := MAX_MESSAGES_PER_RECIPIENT - 1;
    var tail := Elements(sorted[excess..]);
    TailIsOutcome(sorted, mine, n);
    AgeOrder(mine);
    StrictOutcome(mine, n, Newer, tail);
    TailIsAbove(sorted, mine, excess);
  }

  lemma TailIsOutcome(sorted: seq<Message>, items: set<Message>, n: nat)
    requires Lists(sorted, items) && Ranked(sorted, Older)
    ensures Keeps(items, n, Newer, Elements(sorted[|sorted| - Smaller(n, |sorted|)..]))
  {
    var cut := |sorted| - Smaller(n, |sorted|);
    var tail := sorted[cut..];
    assert Elements(sorted) == items;
    ElementsCard(sorted);
    DistinctCard(tail);
    forall a, b | a in Elements(tail) && b in items && b !in Elements(tail) ensures Newer(a, b) {
      var i :| cut <= i < |sorted| && sorted[i] == a;
      var j :| 0 <= j < |sorted| && sorted[j] == b;
      assert j < cut by { assert forall x :: cut <= x < |sorted| ==> sorted[x] == tail[x - cut]; }
    }
  }

  lemma TailIsAbove(sorted: seq<Message>, items: set<Message>, cut: nat)
    requires Lists(sorted, items) && Ranked(sorted, Older) && 0 < cut <= |sorted|
    requires forall a, b :: a in items && b in items && a.receivedAt == b.receivedAt ==> a == b
    ensures forall m :: m in items ==> (m in Elements(sorted[cut..]) <==> m.receivedAt > sorted[cut - 1].receivedAt)
  {
    ElementsCard(sorted);
    assert Elements(sorted) == items;
    forall m | m in items
      ensures m in Elements(sorted[cut..]) <==> m.receivedAt > sorted[cut - 1].receivedAt
    {
      var i :| 0 <= i < |sorted| && sorted[i] == m;
      if i >= cut {
        assert sorted[cut..][i - cut] == m;
        assert sorted[i] != sorted[cut - 1];
      } else {
        assert i < cut - 1 ==> Older(sorted[i], sorted[cut - 1]);
      }
    }
  }

  class Relay {
    var messages: set<Message>
    var counter: int
    var forwards: set<Forward>

    constructor ()
      ensures View() == State({}, 0, {})
    {
      messages, counter, forwards := {}, 0, {};
    }

    function View(): (s: State)
      reads this
    {
      State(messages, counter, forwards)
    }

    /** Append one ciphertext, evicting by threshold. */
    method AppendMessage(toKey: Key, blob: Blob, t: int)
      requires MailInv(View())
      modifies this`messages, this`counter
      ensures View() == Append(old(View()), toKey, blob, t)
      ensures MailInv(View())
    {
      AppendKeeps(View(), toKey, blob, t);
      var held := exists m :: m in messages && m.toKey == toKey && m.blob == blob;
      if !held {
        var forRecipient := set m | m in messages && m.toKey == toKey;
        var capped := Evict(messages, toKey, forRecipient);
        counter := Max(t, counter + 1);
        messages := capped + {Message(toKey, blob, counter, {})};
      }
    }

    /** Drop every row the presented cursor covers, and their forwards. */
    method AckPolledMessages(pubkey: Key, cursor: int)
      modifies this`messages, this`forwards
      ensures View() == Ack(old(View()), pubkey, cursor)
    {
      var toAck := set m | m in messages && m.toKey == pubkey && m.receivedAt <= cursor;
      messages := set m | m in messages && !(m.toKey == pubkey && m.receivedAt <= cursor);
      forwards := set f | f in forwards && !(f.toKey == pubkey && Held(toAck, pubkey, f.blob));
      assert messages == old(messages) - toAck;
    }

    /** The first block of a poll: clamp the cursor and ack up to it. */
    method SetUpPoll(pubkey: Key, cursor: int, t: int) returns (clamped: int)
      modifies this`messages, this`forwards
      ensures clamped == Clamp(old(View()), cursor, t) && clamped >= 0
      ensures View() == if clamped > 0 then Ack(old(View()), pubkey, clamped) else old(View())
    {
      clamped := Max(0, Min(Max(t, counter), cursor));
      if clamped > 0 { AckPolledMessages(pubkey, clamped); }
    }

    /** The second block: the oldest fifty fresh rows and the cursor that acks them. */
    method CollectPage(pubkey: Key, cursor: int, now: int) returns (events: set<Blob>, next: int)
      requires MailInv(View())
      ensures events == set m | m in Page(messages, pubkey, cursor, now) :: m.blob
      ensures IsPageCursor(Page(messages, pubkey, cursor, now), cursor, next)
      ensures |events| <= MAX_POLL_EVENTS
    {
      var unread := FreshFor(messages, pubkey, cursor, now);
      AgeOrder(unread);
      var sorted := SortBy(unread, Older);
      var limited := sorted[..Smaller(MAX_POLL_EVENTS, |sorted|)];
      FrontIsOutcome(sorted, unread, MAX_POLL_EVENTS, Older);
      StrictOutcome(unread, MAX_POLL_EVENTS, Older, Elements(limited));
      events, next := Gather(limited, cursor);
    }

    method MarkDelivered(toKey: Key, blob: Blob, server: Server)
      modifies this`messages
      ensures View() == Mark(old(View()), toKey, blob, server)
    {
      messages := set m | m in messages ::
        if m.toKey == toKey && m.blob == blob && server !in m.deliveredTo
        then m.(deliveredTo := m.deliveredTo + {server})
        else m;
      forall m | m in old(messages)
        ensures MarkRow(m, toKey, blob, server)
             == if m.toKey == toKey && m.blob == blob && server !in m.deliveredTo
                then m.(deliveredTo := m.deliveredTo + {server}) else m
      {
        if server in m.deliveredTo { assert m.deliveredTo + {server} == m.deliveredTo; }
      }
    }

    /** The sweep commits the outcome of one attempt. */
    method CommitAttempt(toKey: Key, blob: Blob, server: Server, status: nat)
      requires Inv(View())
      modifies this`messages, this`forwards
      ensures View() == Swept(old(View()), toKey, blob, server, status < 400)
      ensures Inv(View())
    {
      var ok := status < 400;
      AttemptsKeep(View(), toKey, blob, server, ok);
      forwards := Retried(forwards, toKey, blob, server, ok);
      if ok { MarkDelivered(toKey, blob, server); }
    }

    /** The attempt that directly follows a send commits its success. */
    method CommitImmediate(toKey: Key, blob: Blob, server: Server)
      requires Inv(View())
      modifies this`messages, this`forwards
      ensures View() == Landed(old(View()), toKey, blob, server)
      ensures Inv(View())
    {
      AttemptsKeep(View(), toKey, blob, server, true);
      forwards := set f | f in forwards && !Matches(f, toKey, blob, server);
      MarkDelivered(toKey, blob, server);
    }

    /** Store one message of a send and stage its forwards. */
    method StoreAndStage(m: Outgoing, t: int)
      requires Inv(View())
      modifies this
      ensures Sent(old(View()), m.to, m.blob, t, m.remote, View())
      ensures Inv(View())
    {
      var staged := StagedBySend(View(), m.to, m.blob, m.remote);
      AppendMessage(m.to, m.blob, t);
      ForwardOrder(forwards + staged);
      forwards := Cap(forwards + staged, MAX_FORWARDS_TOTAL, Sooner);
      StagingKeeps(old(View()), m.to, m.blob, t, m.remote, {}, "", View());
    }

    /** A batch is committed in one block, message by message. */
    method StoreBatch(batch: seq<Outgoing>, t: int) returns (ghost states: seq<State>)
      requires Inv(View())
      modifies this
      ensures SentAll(states, batch, t)
      ensures states[0] == old(View()) && states[|batch|] == View()
      ensures Inv(View())
    {
      states := [View()];
      for i := 0 to |batch|
        invariant Inv(View())
        invariant SentAll(states, batch[..i], t) && states[0] == old(View()) && states[i] == View()
      {
        ghost var before := View();
        StoreAndStage(batch[i], t);
        SentNext(states, batch, t, i, before, View());
        states := states + [View()];
      }
      assert batch[..|batch|] == batch;
    }

    /** Keys came online at a peer: stage their stored mail. */
    method ForwardQueuedToAll(pubkeys: set<Key>, server: Server)
      requires Inv(View())
      modifies this`forwards
      ensures Staged(old(View()), pubkeys, server, View())
      ensures Inv(View())
    {
      var candidates := Candidates(View(), pubkeys, server);
      AgeOrder(candidates);
      var sorted := SortBy(candidates, Older);
      var room := Room(View(), server);
      FrontIsOutcome(sorted, candidates, room, Older);
      var chosen := Elements(sorted[..Smaller(room, |sorted|)]);
      StrictOutcome(candidates, room, Older, chosen);
      var staged := set m | m in chosen :: Forward(server, m.toKey, m.blob, 0);
      ForwardOrder(forwards + staged);
      forwards := Cap(forwards + staged, MAX_FORWARDS_TOTAL, Sooner);
      StagingKeeps(old(View()), "", "", 0, {}, pubkeys, server, View());
    }

    /** Drop what has outlived its TTL, then forwards without a row. */
    method PruneExpired(t: int)
      requires Inv(View())
      modifies this`messages, this`forwards
      ensures View() == Prune(old(View()), t)
      ensures Inv(View())
    {
      PruneKeeps(View(), t);
      var surviving := set m | m in messages && t - m.receivedAt < MESSAGE_MAX_AGE;
      messages := surviving;
      forwards := set f | f in forwards && Held(surviving, f.toKey, f.blob);
    }
  }

  /** The ciphertexts of a page, and the greatest sequence number among them. */
  method Gather(limited: seq<Message>, cursor: int) returns (events: set<Blob>, next: int)
    ensures events == set m | m in Elements(limited) :: m.blob
    ensures IsPageCursor(Elements(limited), cursor, next)
    ensures |events| <= |limited|
  {
    events := {};
    next := cursor;
    for i := 0 to |limited|
      invariant events == set m | m in limited[..i] :: m.blob
      invariant |events| <= i
      invariant IsPageCursor(Elements(limited[..i]), cursor, next)
    {
      assert limited[..i + 1] == limited[..i] + [limited[i]];
      assert Elements(limited[..i + 1]) == Elements(limited[..i]) + {limited[i]};
      events := events + {limited[i].blob};
      next := Max(next, limited[i].receivedAt);
    }
    assert limited[..|limited|] == limited;
  }

  /** Evict the recipient's oldest rows so that one more fits. */
  method EvictFor(msgs: set<Message>, k: Key, forRecipient: set<Message>) returns (kept: set<Message>)
    requires forall a, b :: a in msgs && b in msgs && a.receivedAt == b.receivedAt ==> a == b
    requires forRecipient == RowsFor(msgs, k)
    ensures kept == (msgs - RowsFor(msgs, k)) + Spared(msgs, k)
  {
    AgeOrder(forRecipient);
    RoomOutcome(msgs, k);
    var excess := Max(0, |forRecipient| - (MAX_MESSAGES_PER_RECIPIENT - 1));
    if excess > 0 {
      var sorted := SortBy(forRecipient, Older);
      var threshold := sorted[excess - 1].receivedAt;
      ThresholdEvicts(msgs, k, sorted, excess);
      kept := set m | m in msgs && !(m.toKey == k && m.receivedAt <= threshold);
    } else {
      SubsetCard(Spared(msgs, k), forRecipient);
      kept := msgs;
    }
  }

  /** Make room for one more row of the recipient. */
  method Evict(msgs: set<Message>, k: Key, forRecipient: set<Message>) returns (room: set<Message>)
    requires forall a, b :: a in msgs && b in msgs && a.receivedAt == b.receivedAt ==> a == b
    requires forRecipient == RowsFor(msgs, k)
    ensures room == MakeRoom(msgs, k)
  {
    RoomOutcome(msgs, k);
    var kept := EvictFor(msgs, k, forRecipient);
    room := EvictGlobally(kept);
  }

  /** Drop the globally oldest rows, only on overflow. */
  method EvictGlobally(kept: set<Message>) returns (capped: set<Message>)
    requires forall a, b :: a in kept && b in kept && a.receivedAt == b.receivedAt ==> a == b
    ensures capped == Best(kept, MAX_MESSAGES_TOTAL, Newer)
  {
    AgeOrder(kept);
    if |kept| > MAX_MESSAGES_TOTAL {
      var sorted := SortBy(kept, Older);
      capped := Elements(sorted[|kept| - MAX_MESSAGES_TOTAL..]);
      TailIsOutcome(sorted, kept, MAX_MESSAGES_TOTAL);
    } else {
      capped := kept;
    }
    StrictOutcome(kept, MAX_MESSAGES_TOTAL, Newer, capped);
  }
}

/** Appending to, acking and paging the mailbox. */
module RelayMailbox {
  import opened Pools
  import opened RelayState

  /** Sequence numbers are unique, a ciphertext is held once per recipient, and both
      ceilings hold. The global ceiling is overshot by the row just appended. */
  ghost predicate MailInv(s: State) {
    && 0 <= s.counter
    && (forall m :: m in s.messages ==> 0 < m.receivedAt <= s.counter)
    && (forall a, b :: a in s.messages && b in s.messages && a.receivedAt == b.receivedAt ==> a == b)
    && (forall a, b :: a in s.messages && b in s.messages && a.toKey == b.toKey && a.blob == b.blob ==> a == b)
    && (forall k :: |RowsFor(s.messages, k)| <= MAX_MESSAGES_PER_RECIPIENT)
    && |s.messages| <= MAX_MESSAGES_TOTAL + 1
  }

  /** The recipient's rows that fit beside one more. */
  function Spared(msgs: set<Message>, k: Key): set<Message> {
    Best(RowsFor(msgs, k), MAX_MESSAGES_PER_RECIPIENT - 1, Newer)
  }

  /** The mailbox after making room for one more row for `k`. */
  function MakeRoom(msgs: set<Message>, k: Key): set<Message> {
    Best((msgs - RowsFor(msgs, k)) + Spared(msgs, k), MAX_MESSAGES_TOTAL, Newer)
  }

  /** One ciphertext joins `k`'s mailbox under a fresh sequence number, unless it is there. */
  function Append(s: State, k: Key, b: Blob, t: int): State {
    if Held(s.messages, k, b) then s
    else
      var at := Max(t, s.counter + 1);
      s.(counter := at, messages := MakeRoom(s.messages, k) + {Message(k, b, at, {})})
  }

  /** Rows of `k` above the cursor that have not outlived their TTL. */
  function FreshFor(msgs: set<Message>, k: Key, cursor: int, now: int): set<Message> {
    set m | m in msgs && m.toKey == k && now - m.receivedAt < MESSAGE_MAX_AGE && m.receivedAt > cursor
  }

  /** The page a poll returns: the fifty oldest fresh rows. */
  function Page(msgs: set<Message>, k: Key, cursor: int, now: int): set<Message> {
    Best(FreshFor(msgs, k, cursor, now), MAX_POLL_EVENTS, Older)
  }

  /** The cursor that goes with a page: its greatest sequence number, else the input. */
  ghost predicate IsPageCursor(page: set<Message>, cursor: int, next: int) {
    && cursor <= next
    && (forall m :: m in page ==> m.receivedAt <= next)
    && (next == cursor || exists m :: m in page && m.receivedAt == next)
  }

  /** A presented cursor deletes everything up to it, and the forwards of what it deleted. */
  function Ack(s: State, k: Key, cursor: int): State {
    var acked := set m | m in s.messages && m.toKey == k && m.receivedAt <= cursor;
    s.(messages := s.messages - acked,
       forwards := set f | f in s.forwards && !(f.toKey == k && Held(acked, k, f.blob)))
  }

  /** The cursor a poll acts on: never past what was issued or the clock, never negative. */
  function Clamp(s: State, cursor: int, t: int): int {
    Max(0, Min(Max(t, s.counter), cursor))
  }

  function MarkRow(m: Message, k: Key, b: Blob, server: Server): Message {
    if m.toKey == k && m.blob == b then m.(deliveredTo := m.deliveredTo + {server}) else m
  }

  /** Record that `server` accepted a forward of the ciphertext. */
  function Mark(s: State, k: Key, b: Blob, server: Server): State {
    s.(messages := set m | m in s.messages :: MarkRow(m, k, b, server))
  }

  /** Drop rows past their TTL, then forwards left without a row. */
  function Prune(s: State, t: int): State {
    var live := set m | m in s.messages && t - m.receivedAt < MESSAGE_MAX_AGE;
    s.(messages := live, forwards := set f | f in s.forwards && Held(live, f.toKey, f.blob))
  }

  lemma AgeOrder(msgs: set<Message>)
    ensures TotalPreorder(msgs, Newer) && TotalPreorder(msgs, Older)
    ensures (forall a, b :: a in msgs && b in msgs && a.receivedAt == b.receivedAt ==> a == b)
         ==> Strict(msgs, Newer) && Strict(msgs, Older)
  {
  }

  /** Both evictions are exact caps: nothing dropped is newer than anything kept. */
  lemma RoomOutcome(msgs: set<Message>, k: Key)
    requires forall a, b :: a in msgs && b in msgs && a.receivedAt == b.receivedAt ==> a == b
    ensures Keeps(RowsFor(msgs, k), MAX_MESSAGES_PER_RECIPIENT - 1, Newer, Spared(msgs, k))
    ensures Keeps((msgs - RowsFor(msgs, k)) + Spared(msgs, k), MAX_MESSAGES_TOTAL, Newer, MakeRoom(msgs, k))
  {
    var mine := RowsFor(msgs, k);
    AgeOrder(mine);
    StrictOutcome(mine, MAX_MESSAGES_PER_RECIPIENT - 1, Newer, Spared(msgs, k));
    var kept := (msgs - mine) + Spared(msgs, k);
    AgeOrder(kept);
    StrictOutcome(kept, MAX_MESSAGES_TOTAL, Newer, MakeRoom(msgs, k));
  }

  lemma RoomMade(s: State, k: Key)
    requires MailInv(s)
    ensures MakeRoom(s.messages, k) <= s.messages
    ensures |MakeRoom(s.messages, k)| <= MAX_MESSAGES_TOTAL
    ensures |RowsFor(MakeRoom(s.messages, k), k)| <= MAX_MESSAGES_PER_RECIPIENT - 1
  {
    RoomOutcome(s.messages, k);
    SubsetCard(RowsFor(MakeRoom(s.messages, k), k), Spared(s.messages, k));
  }

  /** Append keeps the mailbox invariant, and its row is above every number issued before. */
  lemma AppendKeeps(s: State, k: Key, b: Blob, t: int)
    requires MailInv(s)
    ensures MailInv(Append(s, k, b, t))
    ensures Held(Append(s, k, b, t).messages, k, b)
    ensures s.counter <= Append(s, k, b, t).counter
    ensures forall m :: m in Append(s, k, b, t).messages ==> m in s.messages || m.receivedAt > s.counter
    ensures Append(s, k, b, t).forwards == s.forwards
  {
    if !Held(s.messages, k, b) {
      RoomMade(s, k);
      var s' := Append(s, k, b, t);
      var row := Message(k, b, s'.counter, {});
      var room := MakeRoom(s.messages, k);
      assert row in s'.messages;
      forall q ensures |RowsFor(s'.messages, q)| <= MAX_MESSAGES_PER_RECIPIENT {
        if q == k {
          assert RowsFor(s'.messages, k) == RowsFor(room, k) + {row};
        } else {
          assert RowsFor(s'.messages, q) <= RowsFor(s.messages, q);
          SubsetCard(RowsFor(s'.messages, q), RowsFor(s.messages, q));
        }
      }
    }
  }

  lemma RoomDropsOldest(msgs: set<Message>, k: Key, gone: Message, left: Message)
    requires forall a, b :: a in msgs && b in msgs && a.receivedAt == b.receivedAt ==> a == b
    requires gone in RowsFor(msgs, k) && gone !in MakeRoom(msgs, k)
    requires left in RowsFor(msgs, k) && left in MakeRoom(msgs, k)
    ensures gone.receivedAt < left.receivedAt
  {
    RoomOutcome(msgs, k);
    var kept := (msgs - RowsFor(msgs, k)) + Spared(msgs, k);
    assert left in kept;
    if gone in kept { assert Newer(left, gone); } else { assert Newer(left, gone); }
  }

  /** The recipient keeps its newest rows: a row of `k` that an append drops is older than
      every row of `k` that survives it. */
  lemma AppendDropsOldest(s: State, k: Key, b: Blob, t: int, gone: Message, left: Message)
    requires MailInv(s)
    requires gone in RowsFor(s.messages, k) && gone !in Append(s, k, b, t).messages
    requires left in RowsFor(s.messages, k) && left in Append(s, k, b, t).messages
    ensures gone.receivedAt < left.receivedAt
  {
    RoomDropsOldest(s.messages, k, gone, left);
  }

  lemma RoomBelowCeiling(msgs: set<Message>, k: Key)
    requires forall a, b :: a in msgs && b in msgs && a.receivedAt == b.receivedAt ==> a == b
    requires |msgs| <= MAX_MESSAGES_TOTAL
    ensures MakeRoom(msgs, k) == (msgs - RowsFor(msgs, k)) + Spared(msgs, k)
    ensures |Spared(msgs, k)| == Smaller(|RowsFor(msgs, k)|, MAX_MESSAGES_PER_RECIPIENT - 1)
    ensures Spared(msgs, k) <= RowsFor(msgs, k)
  {
    RoomOutcome(msgs, k);
    var kept := (msgs - RowsFor(msgs, k)) + Spared(msgs, k);
    SubsetCard(kept, msgs);
    SubsetCard(MakeRoom(msgs, k), kept);
  }

  lemma RowsAfter(msgs: set<Message>, k: Key, spared: set<Message>, row: Message)
    requires spared <= RowsFor(msgs, k) && row !in msgs && row.toKey == k
    ensures RowsFor((msgs - RowsFor(msgs, k)) + spared + {row}, k) == spared + {row}
    ensures |spared + {row}| == |spared| + 1
  {
  }

  /** The rows of the recipient newer than `m`. */
  function NewerThan(msgs: set<Message>, k: Key, m: Message): set<Message> {
    set o | o in msgs && o.toKey == k && o.receivedAt > m.receivedAt
  }

  /** Below the global ceiling an append costs nobody else a row, and the recipient keeps
      exactly its newest 9999 beside the new one. */
  lemma AppendIsExact(s: State, k: Key, b: Blob, t: int)
    requires MailInv(s) && !Held(s.messages, k, b)
    requires |s.messages| <= MAX_MESSAGES_TOTAL
    ensures forall m :: m in s.messages && m.toKey != k ==> m in Append(s, k, b, t).messages
    ensures forall m :: m in RowsFor(s.messages, k) ==>
      (m in Append(s, k, b, t).messages <==> |NewerThan(s.messages, k, m)| < MAX_MESSAGES_PER_RECIPIENT - 1)
    ensures |RowsFor(Append(s, k, b, t).messages, k)|
         == Smaller(|RowsFor(s.messages, k)|, MAX_MESSAGES_PER_RECIPIENT - 1) + 1
  {
    var s' := Append(s, k, b, t);
    var row := Message(k, b, s'.counter, {});
    var spared := Spared(s.messages, k);
    RoomBelowCeiling(s.messages, k);
    RowsAfter(s.messages, k, spared, row);
    forall m | m in RowsFor(s.messages, k) ensures m in s'.messages <==> |NewerThan(s.messages, k, m)| < MAX_MESSAGES_PER_RECIPIENT - 1 {
      assert Ahead(RowsFor(s.messages, k), Newer, m) == NewerThan(s.messages, k, m);
    }
  }

  /** Sequence numbers strictly increase from one stored row to the next. */
  lemma AppendAscends(s: State, k: Key, b: Blob, t: int)
    requires MailInv(s) && !Held(s.messages, k, b)
    ensures s.counter < Append(s, k, b, t).counter && t <= Append(s, k, b, t).counter
    ensures Append(s, k, b, t).counter == t || Append(s, k, b, t).counter == s.counter + 1
    ensures exists row :: row in Append(s, k, b, t).messages && row.toKey == k && row.blob == b
              && row.receivedAt == Append(s, k, b, t).counter && row.deliveredTo == {}
              && forall m :: m in s.messages ==> m.receivedAt < row.receivedAt
  {
    assert Message(k, b, Append(s, k, b, t).counter, {}) in Append(s, k, b, t).messages;
  }

  /** Any subset of a good mailbox is a good mailbox. */
  lemma FewerRows(s: State, s': State)
    requires MailInv(s) && s'.messages <= s.messages && s'.counter == s.counter
    ensures MailInv(s')
  {
    SubsetCard(s'.messages, s.messages);
    forall k ensures |RowsFor(s'.messages, k)| <= MAX_MESSAGES_PER_RECIPIENT {
      SubsetCard(RowsFor(s'.messages, k), RowsFor(s.messages, k));
    }
  }

  lemma {:induction false} ImageCard(msgs: set<Message>, k: Key, b: Blob, server: Server)
    ensures |set m | m in msgs :: MarkRow(m, k, b, server)| <= |msgs|
    decreases |msgs|
  {
    var image := set m | m in msgs :: MarkRow(m, k, b, server);
    if msgs != {} {
      var x :| x in msgs;
      var rest := msgs - {x};
      ImageCard(rest, k, b, server);
      assert image == (set m | m in rest :: MarkRow(m, k, b, server)) + {MarkRow(x, k, b, server)};
    }
  }

  lemma MarkKeeps(s: State, k: Key, b: Blob, server: Server)
    requires MailInv(s)
    ensures MailInv(Mark(s, k, b, server))
    ensures forall m :: m in Mark(s, k, b, server).messages ==> exists o :: o in s.messages && SameRow(o, m)
  {
    var s' := Mark(s, k, b, server);
    ImageCard(s.messages, k, b, server);
    forall m | m in s'.messages ensures exists o :: o in s.messages && SameRow(o, m) && m == MarkRow(o, k, b, server) {
      var o :| o in s.messages && m == MarkRow(o, k, b, server);
    }
    forall q ensures |RowsFor(s'.messages, q)| <= MAX_MESSAGES_PER_RECIPIENT {
      ImageCard(RowsFor(s.messages, q), k, b, server);
      assert RowsFor(s'.messages, q) == set m | m in RowsFor(s.messages, q) :: MarkRow(m, k, b, server);
    }
  }

  /** A page takes everything fresh up to the cursor it hands out. */
  lemma PageIsPrefix(msgs: set<Message>, k: Key, cursor: int, now: int, next: int, m: Message)
    requires IsPageCursor(Page(msgs, k, cursor, now), cursor, next)
    requires m in msgs && m.toKey == k && cursor < m.receivedAt <= next
    requires now - m.receivedAt < MESSAGE_MAX_AGE
    ensures m in Page(msgs, k, cursor, now)
  {
    var unread := FreshFor(msgs, k, cursor, now);
    var last :| last in Page(msgs, k, cursor, now) && last.receivedAt == next;
    SubsetCard(Ahead(unread, Older, m), Ahead(unread, Older, last));
  }
}

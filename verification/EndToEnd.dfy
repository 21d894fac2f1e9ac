/**
 The client and the relay together.

 The relay's promise about cursor acks needs an honest key; the client's runs show that it
 is one. All that is assumed of the network between them is that it invents nothing: every
 poll the relay sees under the client's key is one the client had outstanding to it, and
 every page the client folded in from this relay by then is one this relay had returned.
 Requests and answers may be lost, late or out of order.
 */
module EndToEnd {
  import Relay = RelayRuns
  import Stored = RelayState
  import Pages = RelayPages
  import opened Pools
  import opened Client = ClientRuns
  import opened ClientModel
  import opened ClientPages
  import opened ClientPolls
  import opened ClientSteps
  import opened ClientWorld

  /** What a stored blob is to the client: its length and, if it can be read, what it says. */
  type Reader = Stored.Blob -> PageEvent

  /** The events are the rows of the page, one for each and no others. */
  ghost predicate Shows(rows: seq<Stored.Message>, page: set<Stored.Message>, events: seq<PageEvent>, open: Reader) {
    Lists(rows, page) && |events| == |rows| && forall p :: 0 <= p < |rows| ==> events[p] == open(rows[p].blob)
  }

  /** The page that comes in at client step `a` is what the relay's step `j` returned: that
      cursor, and one event for each row. */
  ghost predicate Arrived(ws: seq<Relay.World>, es: seq<Relay.Event>, acts: seq<Act>, k: Stored.Key, open: Reader, j: nat, a: nat)
    requires j < |es| < |ws| && a < |acts| && acts[a].event.GotPage? && acts[a].event.page.Page?
  {
    && Relay.ReturnedTo(ws, es, j, k) && es[j].next == acts[a].event.page.cursor
    && exists rows :: Shows(rows, Relay.PageOf(ws[j], es[j].id, es[j].t), acts[a].event.page.events, open)
  }

  /** Poll setup `i` at the relay is the client's request `q`, outstanding in state `n`; by
      then the client had this relay's pages from this relay only. */
  ghost predicate Carried(ws: seq<Relay.World>, es: seq<Relay.Event>, cs: seq<World>, acts: seq<Act>, url: Url, k: Stored.Key,
                          open: Reader, i: nat, n: nat, q: Request)
    requires i < |es| < |ws| && es[i].Setup? && n < |cs| == |acts| + 1
  {
    && q in cs[n].net && q.PollReq? && q.url == url && q.cursor == es[i].cursor
    && (forall a: nat :: a < n && TakenAt(cs, acts, a, url) ==> exists j: nat :: j < i && Arrived(ws, es, acts, k, open, j, a))
    && forall d :: (url, d) in cs[0].taken ==> Relay.Known(ws, es, i, k, d)
  }

  ghost predicate NothingInvented(ws: seq<Relay.World>, es: seq<Relay.Event>, cs: seq<World>, acts: seq<Act>, url: Url,
                                  k: Stored.Key, open: Reader)
    requires |es| < |ws| && |cs| == |acts| + 1
  {
    forall i: nat :: i < |es| && es[i].Setup? && es[i].key == k ==>
      exists n: nat, q :: n < |cs| && Carried(ws, es, cs, acts, url, k, open, i, n, q)
  }

  /** The cursor of a carried poll is covered by one the client started with, or by that of
      a page it folded in. */
  lemma CursorSource(ws: seq<Relay.World>, es: seq<Relay.Event>, cs: seq<World>, acts: seq<Act>, url: Url, k: Stored.Key,
                     open: Reader, i: nat, n: nat, q: Request)
    requires Relay.Run(ws, es) && Run(cs, acts)
    requires i < |es| && es[i].Setup? && es[i].cursor > 0 && n < |cs| && Carried(ws, es, cs, acts, url, k, open, i, n, q)
    ensures (exists d :: (url, d) in cs[0].taken && es[i].cursor <= d && Relay.Known(ws, es, i, k, d))
      || exists a: nat, j: nat :: a < |acts| && j < i && TakenAt(cs, acts, a, url) && Arrived(ws, es, acts, k, open, j, a)
                                && es[i].cursor <= es[j].next
  {
    RelayBinding(cs, acts, n, q);
    var d :| (q.url, d) in cs[n].taken && q.cursor <= d;
    if (url, d) !in cs[0].taken {
      TakenPages(cs, acts, n, url, d);
      var a: nat :| a < n && TakenAt(cs, acts, a, url) && acts[a].event.page.cursor == d;
      var j: nat :| j < i && Arrived(ws, es, acts, k, open, j, a);
    }
  }

  /** Through any relay switches, answers out of order and lost requests, this client only
      presents cursors that this relay returned to it. */
  lemma ClientIsHonest(ws: seq<Relay.World>, es: seq<Relay.Event>, cs: seq<World>, acts: seq<Act>, url: Url, k: Stored.Key,
                       open: Reader)
    requires Relay.Run(ws, es) && Run(cs, acts) && NothingInvented(ws, es, cs, acts, url, k, open)
    ensures Relay.Honest(ws, es, k)
  {
    forall i: nat | i < |es| && es[i].Setup? && es[i].key == k && es[i].cursor > 0
      ensures Relay.Known(ws, es, i, k, es[i].cursor) {
      var n: nat, q :| n < |cs| && Carried(ws, es, cs, acts, url, k, open, i, n, q);
      CursorSource(ws, es, cs, acts, url, k, open, i, n, q);
      if d :| (url, d) in cs[0].taken && es[i].cursor <= d && Relay.Known(ws, es, i, k, d) {
        var j: nat :| j < i && Relay.ReturnedTo(ws, es, j, k) && d <= es[j].next;
      } else {
        var a: nat, j: nat :| a < |acts| && j < i && TakenAt(cs, acts, a, url) && Arrived(ws, es, acts, k, open, j, a)
                            && es[i].cursor <= es[j].next;
      }
    }
  }

  /** The event is on the page, and what it says is taken in if it can be read at all. */
  ghost predicate TakenIn(events: seq<PageEvent>, e: PageEvent) {
    e in events && (e.content.Some? ==> e.content.value in AdmitPage(events).decoded)
  }

  /** The client folded in a page, returned at relay step `j`, whose cursor covers the row:
      the row was on it and taken in, or was past its TTL when the relay built it. */
  ghost predicate HandedOver(ws: seq<Relay.World>, es: seq<Relay.Event>, cs: seq<World>, acts: seq<Act>, url: Url, k: Stored.Key,
                             open: Reader, a: nat, j: nat, m: Stored.Message)
    requires j < |es| < |ws| && a < |acts| && |cs| == |acts| + 1
  {
    && TakenAt(cs, acts, a, url) && Arrived(ws, es, acts, k, open, j, a) && m.receivedAt <= es[j].next
    && (es[j].t - m.receivedAt >= Stored.MESSAGE_MAX_AGE || TakenIn(acts[a].event.page.events, open(m.blob)))
  }

  /** A page the client folds in came in a body it accepts. */
  lemma FoldedIsReceivable(cs: seq<World>, acts: seq<Act>, a: nat)
    requires Run(cs, acts) && a < |acts| && Ingests(cs[a].m, acts[a].event)
    ensures Receivable(acts[a].event.page.events)
  {
    assert StepAt(cs, acts, a);
  }

  lemma ShownEvent(rows: seq<Stored.Message>, page: set<Stored.Message>, events: seq<PageEvent>, open: Reader, row: Stored.Message)
    requires Shows(rows, page, events, open) && row in page
    ensures open(row.blob) in events
  {
    var p :| 0 <= p < |rows| && rows[p] == row;
    assert events[p] == open(row.blob);
  }

  lemma ShownIsTakenIn(rows: seq<Stored.Message>, page: set<Stored.Message>, events: seq<PageEvent>, open: Reader, row: Stored.Message)
    requires Shows(rows, page, events, open) && row in page && Receivable(events) && |page| <= MAX_POLL_EVENTS
    ensures TakenIn(events, open(row.blob))
  {
    var e := open(row.blob);
    ShownEvent(rows, page, events, open, row);
    if e.content.Some? { TakenWhole(events, e); }
  }

  lemma RowIsTakenIn(ws: seq<Relay.World>, es: seq<Relay.Event>, cs: seq<World>, acts: seq<Act>, url: Url, k: Stored.Key,
                     open: Reader, a: nat, j: nat, m: Stored.Message)
    requires Relay.Run(ws, es) && Run(cs, acts) && j < |es| && a < |acts|
    requires TakenAt(cs, acts, a, url) && Arrived(ws, es, acts, k, open, j, a) && Relay.Served(ws, es, j, m)
    ensures HandedOver(ws, es, cs, acts, url, k, open, a, j, m)
  {
    if es[j].t - m.receivedAt < Stored.MESSAGE_MAX_AGE {
      var page := Relay.PageOf(ws[j], es[j].id, es[j].t);
      var row :| row in page && Stored.SameRow(row, m);
      var rows :| Shows(rows, page, acts[a].event.page.events, open);
      Pages.PageSize(ws, es, j, es[j].id, es[j].t);
      FoldedIsReceivable(cs, acts, a);
      ShownIsTakenIn(rows, page, acts[a].event.page.events, open, row);
    }
  }

  /** The two machines together never delete mail the client did not get: each row that a
      poll of this client deletes was on a page the client had folded in, and what it says
      was taken in if it can be read at all, or was past its TTL when that page was built;
      or an earlier session had acked it, by a cursor it stored. */
  lemma NoMailIsLostUnseen(ws: seq<Relay.World>, es: seq<Relay.Event>, cs: seq<World>, acts: seq<Act>, url: Url,
                           k: Stored.Key, open: Reader, i: nat, m: Stored.Message)
    requires Relay.Run(ws, es) && Run(cs, acts) && NothingInvented(ws, es, cs, acts, url, k, open)
    requires i < |es| && es[i].Setup? && es[i].key == k
    requires m in ws[i].relay.messages && m !in ws[i + 1].relay.messages
    ensures m.toKey == k && Relay.ServedBefore(ws, es, i, m)
    ensures (exists a: nat, j: nat :: a < |acts| && j < i && HandedOver(ws, es, cs, acts, url, k, open, a, j, m))
      || exists d :: (url, d) in cs[0].taken && m.receivedAt <= d && Relay.Known(ws, es, i, k, d)
  {
    ClientIsHonest(ws, es, cs, acts, url, k, open);
    Relay.AckDeletesOnlySeenMail(ws, es, k, i, m);
    AckNeedsCursor(ws, es, i, m);
    var n: nat, q :| n < |cs| && Carried(ws, es, cs, acts, url, k, open, i, n, q);
    CursorSource(ws, es, cs, acts, url, k, open, i, n, q);
    if a: nat, j: nat :| a < |acts| && j < i && TakenAt(cs, acts, a, url) && Arrived(ws, es, acts, k, open, j, a)
                          && es[i].cursor <= es[j].next {
      assert Relay.Served(ws, es, j, m);
      RowIsTakenIn(ws, es, cs, acts, url, k, open, a, j, m);
    }
  }

  lemma AckNeedsCursor(ws: seq<Relay.World>, es: seq<Relay.Event>, i: nat, m: Stored.Message)
    requires Relay.Run(ws, es) && i < |es| && es[i].Setup?
    requires m in ws[i].relay.messages && m !in ws[i + 1].relay.messages
    ensures es[i].cursor > 0
  {
    assert Relay.StepAt(ws, es, i);
  }

  // ---- a mailbox that stalls ----

  function Sizes(open: Reader): Stored.Blob -> nat { (b: Stored.Blob) => open(b).size }

  /** The blobs of the page that relay step `i` builds are too long for any body the client
      accepts. */
  ghost predicate TooHeavy(ws: seq<Relay.World>, es: seq<Relay.Event>, i: nat, open: Reader)
    requires i < |es| < |ws| && es[i].Collect? && es[i].id in ws[i].polls
  {
    Pages.Heft(Pages.Entries(Relay.PageOf(ws[i], es[i].id, es[i].t)), Sizes(open)) > MAX_POLL_RESPONSE_BYTES
  }

  lemma {:induction false} HexIsHeft(rows: seq<Stored.Message>, events: seq<PageEvent>, open: Reader)
    requires |events| == |rows| && forall p :: 0 <= p < |rows| ==> events[p] == open(rows[p].blob)
    requires forall p, q :: 0 <= p < q < |rows| ==> rows[p].receivedAt != rows[q].receivedAt
    ensures Hex(events) == Pages.Heft(Pages.Entries(Elements(rows)), Sizes(open))
  {
    if rows == [] {
      assert Pages.Entries(Elements(rows)) == {};
    } else {
      var front, x := rows[..|rows| - 1], rows[|rows| - 1];
      HexIsHeft(front, events[..|events| - 1], open);
      var all, fewer := Pages.Entries(Elements(rows)), Pages.Entries(Elements(front));
      assert rows == front + [x];
      assert all == fewer + {(x.receivedAt, x.blob)};
      assert (x.receivedAt, x.blob) !in fewer;
      Pages.HeftPick(all, Sizes(open), (x.receivedAt, x.blob));
      assert all - {(x.receivedAt, x.blob)} == fewer;
    }
  }

  lemma ArrivedWeight(ws: seq<Relay.World>, es: seq<Relay.Event>, acts: seq<Act>, k: Stored.Key, open: Reader, j: nat, a: nat)
    requires Relay.Run(ws, es) && j < |es| && a < |acts| && acts[a].event.GotPage? && acts[a].event.page.Page?
    requires Arrived(ws, es, acts, k, open, j, a)
    ensures Hex(acts[a].event.page.events) == Pages.Heft(Pages.Entries(Relay.PageOf(ws[j], es[j].id, es[j].t)), Sizes(open))
  {
    var page, events := Relay.PageOf(ws[j], es[j].id, es[j].t), acts[a].event.page.events;
    var rows :| Shows(rows, page, events, open);
    Pages.PageSize(ws, es, j, es[j].id, es[j].t);
    assert Elements(rows) == page;
    ElementsCard(rows);
    HexIsHeft(rows, events, open);
  }

  /** While the client is at the cursor of relay poll `i`, each page of that poll's key that
      answers it was built at that cursor, later, with the rows of `i` still there. */
  ghost predicate ServedAgain(ws: seq<Relay.World>, es: seq<Relay.Event>, cs: seq<World>, acts: seq<Act>, k: Stored.Key, open: Reader,
                        i: nat, a: nat)
    requires i < |es| < |ws| && es[i].Collect? && es[i].id in ws[i].polls && a < |acts| && |cs| == |acts| + 1
  {
    var e := acts[a].event;
    e.GotPage? && e.page.Page? && e.q.PollReq? && Current(cs[a].m, e.q) && e.q.cursor == ws[i].polls[es[i].id].cursor ==>
      exists j: nat :: i <= j < |es| && Pages.SamePoll(ws, es, i, j) && Pages.StillHeld(ws, es, i, j)
                       && Arrived(ws, es, acts, k, open, j, a)
  }

  lemma HeavyIsRefused(ws: seq<Relay.World>, es: seq<Relay.Event>, cs: seq<World>, acts: seq<Act>, k: Stored.Key, open: Reader,
                       i: nat, a: nat)
    requires Relay.Run(ws, es) && i < |es| && es[i].Collect? && es[i].id in ws[i].polls && TooHeavy(ws, es, i, open)
    requires Run(cs, acts) && a < |acts| && cs[a].m.cursor == ws[i].polls[es[i].id].cursor && ServedAgain(ws, es, cs, acts, k, open, i, a)
    ensures !Ingests(cs[a].m, acts[a].event)
  {
    if Ingests(cs[a].m, acts[a].event) {
      PollsAskFromCursor(cs, acts, a);
      assert StepAt(cs, acts, a);
      var j: nat :| i <= j < |es| && Pages.SamePoll(ws, es, i, j) && Pages.StillHeld(ws, es, i, j)
                    && Arrived(ws, es, acts, k, open, j, a);
      Pages.PageStaysHeavy(ws, es, i, j, Sizes(open));
      ArrivedWeight(ws, es, acts, k, open, j, a);
      FoldedIsReceivable(cs, acts, a);
      assert false;
    }
  }

  /** Once the oldest unread rows of a key are too long together for a body the client
      accepts, it stays where it is: while those rows are stored and do not expire, no page
      of that relay is folded in again, whatever else it stores for the key. */
  lemma MailboxStalls(ws: seq<Relay.World>, es: seq<Relay.Event>, cs: seq<World>, acts: seq<Act>, k: Stored.Key, open: Reader,
                      i: nat, n: nat, n': nat)
    requires Relay.Run(ws, es) && i < |es| && es[i].Collect? && es[i].id in ws[i].polls && TooHeavy(ws, es, i, open)
    requires Run(cs, acts) && n <= n' <= |acts| && Stays(acts, n, n') && cs[n].m.cursor == ws[i].polls[es[i].id].cursor
    requires forall a :: n <= a < n' ==> ServedAgain(ws, es, cs, acts, k, open, i, a)
    ensures forall a :: n <= a < n' ==> !Ingests(cs[a].m, acts[a].event)
    ensures cs[n'].m.cursor == cs[n].m.cursor
  {
    for a := n to n'
      invariant forall b :: n <= b < a ==> !Ingests(cs[b].m, acts[b].event)
      invariant cs[a].m.cursor == cs[n].m.cursor
    {
      HeavyIsRefused(ws, es, cs, acts, k, open, i, a);
      StepWithoutPage(cs, acts, a);
    }
  }

  /** The longest blob a relay stores, in hex. */
  const RELAY_MAX_BLOB: nat := 41943040

  /** Two blobs of the length a relay accepts are enough. */
  lemma TwoBlobsStall(k: Stored.Key, a: Stored.Blob, b: Stored.Blob, t: int, open: Reader)
    returns (ws: seq<Relay.World>, es: seq<Relay.Event>)
    requires t > 0 && a != b && |a| == |b| == RELAY_MAX_BLOB && open(a).size == |a| && open(b).size == |b|
    ensures Relay.Run(ws, es) && |es| == 4 && es[3].Collect? && es[3].id in ws[3].polls && TooHeavy(ws, es, 3, open)
    ensures ws[3].polls[es[3].id] == Relay.Poll(k, 0, false)
  {
    ws, es := Pages.TwoBlobsPage(k, a, b, t, Sizes(open));
  }
}

/** What a contact shows about themselves: field by field, the last they said that was not old. */
module ClientCards {
  import opened ClientModel
  import opened ClientWorld
  import opened ClientIngest
  import opened ClientSteps
  import opened ClientProgress
  import opened ClientAcks
  import opened ClientRuns
  import opened ClientConvos
  import opened ClientPeers
  import opened ClientProfiles
  import opened ClientContacts
  import P = Payloads

  datatype Part = Name | Bio | Photo

  /** What a profile says of the part, if it says anything. */
  function Said(d: Decoded, part: Part): P.Option<string>
    requires d.payload.Profile?
  {
    match part case Name => d.payload.name case Bio => d.payload.bio case Photo => d.payload.photo
  }

  function On(card: Card, part: Part): P.Option<string> {
    match part case Name => P.Some(card.name) case Bio => P.Some(card.bio) case Photo => card.photo
  }

  /** The i-th event is a profile of the peer that is older than neither the watermark nor any
      profile of theirs before it. */
  ghost predicate InTime(ds: seq<Decoded>, k: Key, now: int, mark: int, i: nat)
    requires i < |ds|
  {
    && IsProfileFrom(ds[i], k) && TextDate(ds[i].ts, now) >= mark
    && forall j :: 0 <= j < i && IsProfileFrom(ds[j], k) ==> AckDate(ds[j].ts, now) <= TextDate(ds[i].ts, now)
  }

  ghost predicate Tells(ds: seq<Decoded>, k: Key, now: int, mark: int, part: Part, i: nat)
    requires i < |ds|
  {
    InTime(ds, k, now, mark, i) && Said(ds[i], part).Some?
  }

  /** The part is as the last event that tells it says, or as it was if none does. */
  ghost predicate LastTold(ds: seq<Decoded>, k: Key, now: int, mark: int, part: Part, was: P.Option<string>, shown: P.Option<string>) {
    || (shown == was && forall i :: 0 <= i < |ds| ==> !Tells(ds, k, now, mark, part, i))
    || exists i :: 0 <= i < |ds| && Tells(ds, k, now, mark, part, i) && shown == Said(ds[i], part)
                   && forall j :: i < j < |ds| ==> !Tells(ds, k, now, mark, part, j)
  }

  // ---- one event ----

  lemma AbsorbedCard(m: Model, g: Gathered, d: Decoded, now: int, m': Model, g': Gathered, k: Key, part: Part)
    requires Absorbed(m, g, d, now, m', g') && k in m.contacts && 0 <= now
    ensures k in m'.contacts
    ensures On(m'.contacts[k].card, part)
      == if IsProfileFrom(d, k) && Heard(m, k) && TextDate(d.ts, now) >= m.contacts[k].lastProfileTs && Said(d, part).Some?
         then Said(d, part) else On(m.contacts[k].card, part)
  {
    if d.payload.Text? && m' != m { GreetContacts(m, d.sender, ClampTs(d.ts, now), k); }
  }

  lemma TellsBefore(ds: seq<Decoded>, d: Decoded, k: Key, now: int, mark: int, part: Part, i: nat)
    requires i < |ds|
    ensures Tells(ds + [d], k, now, mark, part, i) <==> Tells(ds, k, now, mark, part, i)
  {
    assert forall j :: 0 <= j <= i ==> (ds + [d])[j] == ds[j];
  }

  lemma TellsLast(ds: seq<Decoded>, d: Decoded, k: Key, now: int, mark: int, mid: int, part: Part)
    requires Latched(ds, k, now, mark, mid)
    ensures Tells(ds + [d], k, now, mark, part, |ds|)
       <==> IsProfileFrom(d, k) && TextDate(d.ts, now) >= mid && Said(d, part).Some?
  {
    var all := ds + [d];
    assert all[|ds|] == d && forall j :: 0 <= j < |ds| ==> all[j] == ds[j] && ds[j] in ds;
    if mid != mark {
      var x :| x in ds && IsProfileFrom(x, k) && AckDate(x.ts, now) == mid;
      var j :| 0 <= j < |ds| && ds[j] == x;
      assert all[j] == x;
    }
  }

  lemma ToldNext(ds: seq<Decoded>, d: Decoded, k: Key, now: int, mark: int, mid: int, part: Part, was: P.Option<string>,
                 shown: P.Option<string>, shown': P.Option<string>)
    requires Latched(ds, k, now, mark, mid) && LastTold(ds, k, now, mark, part, was, shown)
    requires shown' == if IsProfileFrom(d, k) && TextDate(d.ts, now) >= mid && Said(d, part).Some? then Said(d, part) else shown
    ensures LastTold(ds + [d], k, now, mark, part, was, shown')
  {
    var all := ds + [d];
    TellsLast(ds, d, k, now, mark, mid, part);
    forall i | 0 <= i < |ds| ensures Tells(all, k, now, mark, part, i) <==> Tells(ds, k, now, mark, part, i) {
      TellsBefore(ds, d, k, now, mark, part, i);
    }
    assert all[|ds|] == d && forall i :: 0 <= i < |ds| ==> all[i] == ds[i];
  }

  // ---- a page ----

  lemma LoopCards(trail: Trail, ds: seq<Decoded>, now: int, n: nat, k: Key, part: Part)
    requires Follows(trail, ds, now) && n <= |ds| && 0 <= now
    requires k in trail.models[0].contacts && trail.models[0].contacts[k].lastProfileTs <= now
    ensures var m0, m := trail.models[0], trail.models[n];
      k in m.contacts
      && if Heard(m0, k)
         then LastTold(ds[..n], k, now, m0.contacts[k].lastProfileTs, part, On(m0.contacts[k].card, part), On(m.contacts[k].card, part))
         else On(m.contacts[k].card, part) == On(m0.contacts[k].card, part)
  {
    var m0 := trail.models[0];
    for i := 0 to n
      invariant var m := trail.models[i];
        k in m.contacts
        && if Heard(m0, k)
           then LastTold(ds[..i], k, now, m0.contacts[k].lastProfileTs, part, On(m0.contacts[k].card, part), On(m.contacts[k].card, part))
           else On(m.contacts[k].card, part) == On(m0.contacts[k].card, part)
    {
      LoopLatches(trail, ds, now, i, k);
      assert AbsorbedAt(trail, ds, now, i);
      var m, m' := trail.models[i], trail.models[i + 1];
      AbsorbedCard(m, trail.gathered[i], ds[i], now, m', trail.gathered[i + 1], k, part);
      assert ds[..i + 1] == ds[..i] + [ds[i]];
      if Heard(m0, k) {
        ToldNext(ds[..i], ds[i], k, now, m0.contacts[k].lastProfileTs, m.contacts[k].lastProfileTs, part, On(m0.contacts[k].card, part),
                 On(m.contacts[k].card, part), On(m'.contacts[k].card, part));
      }
    }
  }

  lemma AppliedCard(m: Model, acks: map<Key, PendingAck>, now: int, k: Key)
    requires k in m.contacts
    ensures k in ApplyAcks(m, acks, now).contacts && ApplyAcks(m, acks, now).contacts[k].card == m.contacts[k].card
  {
  }

  lemma PageCards(m: Model, cursor: int, events: seq<PageEvent>, now: int, trail: Trail, m': Model, k: Key, part: Part)
    requires Ingested(m, cursor, events, now, trail, m') && 0 <= now && k in m.contacts && m.contacts[k].lastProfileTs <= now
    ensures k in m'.contacts
    ensures var was, shown := On(m.contacts[k].card, part), On(m'.contacts[k].card, part);
      if Heard(m, k) then LastTold(AdmitPage(events).decoded, k, now, m.contacts[k].lastProfileTs, part, was, shown) else shown == was
  {
    var ds := AdmitPage(events).decoded;
    var n := |ds|;
    LoopCards(trail, ds, now, n, k, part);
    assert ds[..n] == ds;
    assert Heard(trail.models[0], k) <==> Heard(m, k);
    var m1, g := trail.models[n], trail.gathered[n];
    AppliedCard(m1, g.acks, now, k);
    OwedLeaves(ApplyAcks(m1, g.acks, now), g.targets, trail.senders, now);
  }

  lemma FoldedCards(m: Model, e: Event, env: Env, k: Key, part: Part)
    requires Ingests(m, e) && GoodAnswer(m, e.page, env) && 0 <= env.now && k in m.contacts && m.contacts[k].lastProfileTs <= env.now
    ensures k in e.page.ingested.contacts
    ensures var was, shown := On(m.contacts[k].card, part), On(e.page.ingested.contacts[k].card, part);
      if Heard(m, k) then LastTold(AdmitPage(e.page.events).decoded, k, env.now, m.contacts[k].lastProfileTs, part, was, shown)
      else shown == was
  {
    PageCards(m.(polling := false), e.page.cursor, e.page.events, env.now, e.page.trail, e.page.ingested, k, part);
  }

  // ---- over runs ----

  /** In any run what a contact shows of their name, bio or photo changes only by a page, and
      after one it is what the last profile on it that tells it says, leaving out profiles
      that are older than what was there or came before. */
  lemma CardIsLastTold(ws: seq<World>, acts: seq<Act>, i: nat, j: nat, k: Key, part: Part)
    requires Run(ws, acts) && i <= j < |acts| && k in ws[i].m.contacts && ws[i].m.contacts[k].lastProfileTs <= ws[i].clock
    requires Keeps(acts, i, j + 1, k)
    ensures k in ws[j].m.contacts && k in ws[j + 1].m.contacts
    ensures var was, shown := On(ws[j].m.contacts[k].card, part), On(ws[j + 1].m.contacts[k].card, part);
      if Ingests(ws[j].m, acts[j].event) && Heard(ws[j].m, k)
      then LastTold(AdmitPage(acts[j].event.page.events).decoded, k, acts[j].env.now, ws[j].m.contacts[k].lastProfileTs, part, was, shown)
      else shown == was
  {
    ProfilesOnlyGetNewer(ws, acts, i, j, k);
    StepContacts(ws, acts, j, k);
    StepIsLegal(ws, acts, j);
    if Ingests(ws[j].m, acts[j].event) { FoldedCards(ws[j].m, acts[j].event, acts[j].env, k, part); }
  }
}

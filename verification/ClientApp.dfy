/**
 The client as the program has it: one object whose fields its handlers update in place.

 `View` is the value of the fields. Each handler leaves the fields at the value the state
 machine in ClientModel gives for its arm, and asks for the same effects.
 */
module ClientApp {
  import opened Conversations
  import opened ClientModel
  import P = Payloads
  import F = Framing

  datatype PollPage = PollPage(cursor: int, events: seq<PageEvent>)

  /** What a poll comes back with, before any of it is folded in: nothing, a refusal, or a
      body of some length, which may parse. */
  datatype Reply = NoReply | Status(code: nat) | Body(length: nat, page: Option<PollPage>)

  class Client {
    var identity: bool
    var me: Key
    var url: Url
    var profile: P.Payload
    var contacts: map<Key, Contact>
    var messages: map<Key, Convo>
    var seen: map<Key, set<Id>>
    var outbox: seq<Item>
    var pushed: nat
    var cursor: int
    var token: Option<Token>
    var conn: Conn
    var sendRetries: nat
    var polling: bool
    var pollGen: nat
    var authenticating: bool
    var authGen: nat
    var flushing: bool
    var flushGen: nat
    var inFlight: Option<InFlight>
    var budget: Option<nat>
    var kvFailed: bool
    var pausedUntil: int

    function View(): Model
      reads this
    {
      Model(identity, me, url, profile, contacts, messages, seen, outbox, pushed, cursor, token, conn, sendRetries,
            polling, pollGen, authenticating, authGen, flushing, flushGen, inFlight, budget, kvFailed, pausedUntil)
    }

    /** The model before anything is loaded. */
    constructor (url: Url, profile: P.Payload)
      ensures View() == Model(false, "", url, profile, map[], map[], map[], [], 0, 0, None, Offline, 0,
                              false, 0, false, 0, false, 0, None, None, false, 0)
    {
      identity, me, this.url, this.profile := false, "", url, profile;
      contacts, messages, seen, outbox, pushed, cursor := map[], map[], map[], [], 0, 0;
      token, conn, sendRetries := None, Offline, 0;
      polling, pollGen, authenticating, authGen, flushing, flushGen := false, 0, false, 0, false, 0;
      inFlight, budget, kvFailed, pausedUntil := None, None, false, 0;
    }

    // ---- guards and generations ----

    method AbandonPoll()
      modifies this`polling, this`pollGen
      ensures View() == ClientModel.AbandonPoll(old(View()))
    {
      polling, pollGen := false, pollGen + 1;
    }

    method AbandonFlush()
      modifies this`flushing, this`inFlight, this`flushGen
      ensures View() == ClientModel.AbandonFlush(old(View()))
    {
      flushing, inFlight, flushGen := false, None, flushGen + 1;
    }

    method AbandonAuth()
      modifies this`authenticating, this`authGen
      ensures View() == ClientModel.AbandonAuth(old(View()))
    {
      authenticating, authGen := false, authGen + 1;
    }

    method DetachInFlight(peer: Key)
      modifies this`inFlight
      ensures View() == Detach(old(View()), peer)
    {
      if inFlight.Some? && inFlight.value.recipient == peer { inFlight := None; }
    }

    // ---- auth and poll ----

    method Authenticate(env: Env) returns (fx: seq<Effect>)
      modifies this`conn, this`authenticating, this`authGen
      ensures Out(View(), fx) == ClientModel.Authenticate(old(View()), env)
    {
      fx := [];
      if authenticating || !identity { return; }
      conn := Connecting;
      if env.builds {
        authenticating := true;
        authGen := authGen + 1;
        fx := [Ask(ChallengeReq(authGen, url))];
      } else {
        conn := Offline;
      }
    }

    method Poll(env: Env) returns (fx: seq<Effect>)
      modifies this`conn, this`authenticating, this`authGen, this`polling, this`pollGen
      ensures Out(View(), fx) == StartPoll(old(View()), env)
    {
      fx := [];
      if polling { return; }
      if token.None? {
        fx := Authenticate(env);
      } else if env.builds {
        polling := true;
        pollGen := pollGen + 1;
        fx := [Ask(PollReq(pollGen, url, token.value, cursor))];
      } else {
        conn := Offline;
      }
    }

    method Connect(env: Env) returns (fx: seq<Effect>)
      modifies this`conn, this`authenticating, this`authGen, this`polling, this`pollGen
      ensures Out(View(), fx) == ClientModel.Connect(old(View()), env)
    {
      fx := [];
      AbandonAuth();
      if kvFailed || !identity { return; }
      if conn != Online {
        fx := Authenticate(env);
      } else if !polling {
        fx := Poll(env);
      }
    }

    /** Forget everything that was about the old relay. */
    method MoveTo(relay: Url)
      modifies this`url, this`token, this`conn, this`budget, this`cursor, this`pausedUntil, this`sendRetries
      modifies this`polling, this`pollGen, this`flushing, this`inFlight, this`flushGen
      ensures View() == Switched(old(View()), relay)
    {
      SignOut(relay);
      ResetLimits();
      AbandonPoll();
      AbandonFlush();
    }

    method SignOut(relay: Url)
      modifies this`url, this`token, this`conn
      ensures View() == old(View()).(url := relay, token := None, conn := Offline)
    {
      url, token, conn := relay, None, Offline;
    }

    method ResetLimits()
      modifies this`budget, this`cursor, this`pausedUntil, this`sendRetries
      ensures View() == old(View()).(budget := None, cursor := 0, pausedUntil := 0, sendRetries := 0)
    {
      budget, cursor, pausedUntil, sendRetries := None, 0, 0, 0;
    }

    method SetServerUrl(input: Option<Url>, env: Env) returns (fx: seq<Effect>)
      modifies this
      ensures Out(View(), fx) == ClientModel.SetServerUrl(old(View()), input, env)
    {
      fx := [];
      if input.Some? {
        MoveTo(input.value);
        var writes := Saving(View(), ["settings", "cursor"]);
        var more := Connect(env);
        fx := writes + more;
      }
    }

    method ChallengeResult(gen: nat, a: ChallengeAnswer, env: Env) returns (fx: seq<Effect>)
      modifies this`conn, this`authenticating
      ensures Out(View(), fx) == ClientModel.ChallengeResult(old(View()), gen, a, env)
    {
      fx := [];
      if gen != authGen { return; }
      authenticating := false;
      if a.NoChallenge? { conn := Offline; return; }
      if !identity { return; }
      if a.BadChallenge? { conn := Offline; return; }
      if env.builds {
        authenticating := true;
        fx := [Ask(VerifyReq(gen, url))];
      } else {
        conn := Offline;
      }
    }

    method PollWatchdog(gen: nat, env: Env) returns (fx: seq<Effect>)
      modifies this`conn, this`authenticating, this`authGen, this`polling, this`pollGen
      ensures Out(View(), fx) == ClientModel.PollWatchdog(old(View()), gen, env)
    {
      fx := [];
      if gen != pollGen || !polling { return; }
      AbandonPoll();
      fx := Poll(env);
    }

    method AuthWatchdog(gen: nat, env: Env) returns (fx: seq<Effect>)
      modifies this`conn, this`authenticating, this`authGen
      ensures Out(View(), fx) == ClientModel.AuthWatchdog(old(View()), gen, env)
    {
      fx := [];
      if gen != authGen || !authenticating { return; }
      AbandonAuth();
      fx := Authenticate(env);
    }

    method SavedCursor(ok: bool, env: Env) returns (fx: seq<Effect>)
      modifies this`conn, this`authenticating, this`authGen, this`polling, this`pollGen
      ensures Out(View(), fx) == ClientModel.SavedCursor(old(View()), ok, env)
    {
      fx := [];
      if ok { fx := Poll(env); } else { conn := Offline; }
    }

    method VerifyResult(gen: nat, answer: Option<Token>, env: Env) returns (fx: seq<Effect>)
      modifies this
      ensures Out(View(), fx) == ClientModel.VerifyResult(old(View()), gen, answer, env)
    {
      fx := [];
      if gen != authGen { return; }
      if answer.None? || answer.value == "" {
        authenticating, conn := false, Offline;
      } else {
        SignIn(answer);
        fx := PollAndFlush(env);
      }
    }

    method SignIn(answer: Option<Token>)
      modifies this`authenticating, this`token, this`conn
      ensures View() == old(View()).(authenticating := false, token := answer, conn := Online)
    {
      authenticating, token, conn := false, answer, Online;
    }

    method PollAndFlush(env: Env) returns (fx: seq<Effect>)
      modifies this`conn, this`authenticating, this`authGen, this`polling, this`pollGen
      modifies this`outbox, this`flushing, this`flushGen, this`inFlight
      ensures var polled := StartPoll(old(View()), env);
        Out(View(), fx) == Join(polled, ClientModel.FlushNext(polled.model, env))
    {
      var polled := Poll(env);
      var sent := FlushNext(env);
      fx := polled + sent;
    }

    // ---- the outbox ----

    /** Take the next item, or drop it if it cannot be encrypted, or stop before it. */
    method TakeNext(env: Env, limit: nat, count: nat, bytes: nat, ghost goal: Pick) returns (stop: bool, weight: nat, gone: bool)
      requires count < |outbox| && count < MAX_SEND_BATCH && Filling(outbox, count, env, limit, bytes, goal)
      modifies this`outbox
      ensures stop ==> outbox == old(outbox) && !gone && Full(outbox, count, env, limit, bytes)
      ensures !stop && gone ==> |outbox| == |old(outbox)| - 1 && Filling(outbox, count, env, limit, bytes, goal)
      ensures !stop && !gone ==> outbox == old(outbox) && Filling(outbox, count + 1, env, limit, bytes + weight, goal)
    {
      stop, weight, gone := Other(outbox, count), 0, false;
      if stop { return; }
      var blob := env.weigh(outbox[count]);
      if blob.None? {
        FillDrops(outbox, count, env, limit, bytes, goal);
        outbox, gone := Removed(outbox, count), true;
      } else {
        weight := F.HexWeight(blob.value);
        stop := count > 0 && bytes + weight > limit;
        if !stop { FillTakes(outbox, count, env, limit, bytes, goal); }
      }
    }

    /** Take a batch from the head, dropping what cannot be encrypted on the way. */
    method TakeBatch(env: Env, limit: nat) returns (count: nat, bytes: nat, dropped: bool)
      modifies this`outbox
      ensures var p := Fill(old(outbox), env, limit, [], 0);
        count == |p.taken| && bytes == p.bytes && outbox == p.taken + p.rest
      ensures dropped == (|outbox| != |old(outbox)|)
    {
      count, bytes, dropped := 0, 0, false;
      ghost var goal := Fill(outbox, env, limit, [], 0);
      assert outbox[0..] == outbox;
      while count < MAX_SEND_BATCH && count < |outbox|
        invariant |outbox| <= |old(outbox)| && dropped == (|outbox| != |old(outbox)|)
        invariant Filling(outbox, count, env, limit, bytes, goal)
        decreases |outbox| - count
      {
        var stop, weight, gone := TakeNext(env, limit, count, bytes, goal);
        if stop { break; }
        if gone { dropped := true; } else { count, bytes := count + 1, bytes + weight; }
      }
      FillStops(outbox, count, env, limit, bytes, goal);
    }

    /** Date the items going out for the first time. */
    method StampHead(count: nat, now: int) returns (stamped: bool)
      requires count <= |outbox|
      modifies this`outbox
      ensures outbox == Stamp(old(outbox)[..count], now) + old(outbox)[count..]
      ensures stamped == FirstTry(old(outbox)[..count])
    {
      stamped := false;
      for i := 0 to count
        invariant |outbox| == |old(outbox)|
        invariant forall j :: 0 <= j < |outbox| ==>
          outbox[j] == if j < i && old(outbox)[j].firstAttempt == 0 then old(outbox)[j].(firstAttempt := now) else old(outbox)[j]
        invariant stamped == exists j :: 0 <= j < i && old(outbox)[j].firstAttempt == 0
      {
        if outbox[i].firstAttempt == 0 {
          outbox := outbox[i := outbox[i].(firstAttempt := now)];
          stamped := true;
        }
      }
      assert forall j :: 0 <= j < count ==> old(outbox)[..count][j] == old(outbox)[j];
    }

    /** Send the first items of the queue as one batch. */
    method SendHead(count: nat, bytes: nat, dirty: bool, env: Env) returns (fx: seq<Effect>)
      requires 1 <= count <= |outbox| && token.Some?
      modifies this`flushing, this`flushGen, this`inFlight
      ensures Out(View(), fx) == Launch(old(View()), count, bytes, dirty, env)
    {
      fx := if dirty then Saving(View(), ["outbox"]) else [];
      flushGen := flushGen + 1;
      if env.builds {
        flushing, inFlight := true, Some(InFlight(outbox[0].recipient, count, bytes));
        fx := fx + [Ask(SendReq(flushGen, url, token.value, outbox[..count]))];
      } else {
        flushing, inFlight := false, None;
      }
    }

    method FlushNext(env: Env) returns (fx: seq<Effect>)
      modifies this`outbox, this`flushing, this`flushGen, this`inFlight
      ensures Out(View(), fx) == ClientModel.FlushNext(old(View()), env)
    {
      fx := [];
      if flushing || kvFailed || env.now < pausedUntil || !identity || token.None? { return; }
      fx := FlushQueue(env);
    }

    method FlushQueue(env: Env) returns (fx: seq<Effect>)
      requires MayFlush(View(), env)
      modifies this`outbox, this`flushing, this`flushGen, this`inFlight
      ensures Out(View(), fx) == ClientModel.FlushNext(old(View()), env)
    {
      var count, bytes, dirty := Prepare(env, if budget.Some? then budget.value else MAX_SEND_BATCH_BYTES);
      if count == 0 {
        fx := if dirty then Saving(View(), ["outbox"]) else [];
      } else {
        fx := SendHead(count, bytes, dirty, env);
      }
    }

    /** Take a batch and date its items. */
    method Prepare(env: Env, limit: nat) returns (count: nat, bytes: nat, dirty: bool)
      modifies this`outbox
      ensures var p := Fill(old(outbox), env, limit, [], 0);
        && count == |p.taken| && bytes == p.bytes && dirty == Dirty(p, old(outbox))
        && outbox == (if count == 0 then p.rest else Stamp(p.taken, env.now) + p.rest)
    {
      ghost var p := Fill(outbox, env, limit, [], 0);
      var dropped;
      count, bytes, dropped := TakeBatch(env, limit);
      assert outbox[..count] == p.taken && outbox[count..] == p.rest;
      var stamped := StampHead(count, env.now);
      dirty := dropped || stamped;
    }

    method FlushWatchdog(gen: nat, env: Env) returns (fx: seq<Effect>)
      modifies this`outbox, this`flushing, this`flushGen, this`inFlight
      ensures Out(View(), fx) == ClientModel.FlushWatchdog(old(View()), gen, env)
    {
      fx := [];
      if gen != flushGen || !flushing { return; }
      AbandonFlush();
      fx := FlushNext(env);
    }

    /** Charge the failed batch a retry, and drop what has none left. */
    method ChargeHead(n: nat, now: int) returns (expired: nat)
      requires n <= |outbox|
      modifies this`outbox
      ensures outbox == Charge(old(outbox)[..n], now) + old(outbox)[n..]
      ensures expired == n - |Charge(old(outbox)[..n], now)|
    {
      var items, kept := outbox, [];
      expired := 0;
      for i := 0 to |items|
        invariant outbox == old(outbox)
        invariant i <= n ==> kept == Charge(items[..i], now) && expired == i - |kept|
        invariant i >= n ==> kept == Charge(items[..n], now) + items[n..i] && expired == n - |Charge(items[..n], now)|
      {
        ghost var before := kept;
        if i < n {
          ChargeNext(items, i, now);
          var item := Charged(items[i]);
          if Expired(item, now) { expired := expired + 1; } else { kept := kept + [item]; }
          assert items[n..n] == [];
        } else {
          kept := kept + [items[i]];
          assert items[n..i + 1] == items[n..i] + [items[i]];
        }
      }
      assert items[n..|items|] == items[n..];
      outbox := kept;
    }

    method RetryBatch(batch: Option<InFlight>, env: Env) returns (fx: seq<Effect>)
      modifies this`outbox, this`flushing, this`flushGen, this`inFlight
      ensures Out(View(), fx) == ClientModel.RetryBatch(old(View()), batch, env)
    {
      fx := [];
      if batch.Some? {
        var n := if batch.value.count <= |outbox| then batch.value.count else |outbox|;
        var expired := ChargeHead(n, env.now);
        fx := Saving(View(), ["outbox"]);
        if expired > 0 {
          var more := FlushNext(env);
          fx := fx + more;
        }
      }
    }

    method PopHead(batch: Option<InFlight>)
      modifies this`outbox
      ensures outbox == old(outbox)[Head(old(View()), batch)..]
    {
      var n := if batch.Some? then batch.value.count else 0;
      for i := 0 to n
        invariant outbox == old(outbox)[if i <= |old(outbox)| then i else |old(outbox)|..]
      {
        if outbox != [] { outbox := outbox[1..]; }
      }
    }

    method SendResult(gen: nat, a: SendAnswer, env: Env) returns (fx: seq<Effect>)
      modifies this
      ensures Out(View(), fx) == ClientModel.SendResult(old(View()), gen, a, env)
    {
      fx := [];
      if gen != flushGen { return; }
      var batch := EndFlight();
      fx := Settle(batch, a, env);
    }

    method EndFlight() returns (batch: Option<InFlight>)
      modifies this`flushing, this`inFlight
      ensures batch == old(inFlight) && View() == old(View()).(flushing := false, inFlight := None)
    {
      batch, flushing, inFlight := inFlight, false, None;
    }

    method Settle(batch: Option<InFlight>, a: SendAnswer, env: Env) returns (fx: seq<Effect>)
      modifies this`token, this`conn, this`authenticating, this`authGen, this`pausedUntil, this`sendRetries, this`budget
      modifies this`outbox, this`flushing, this`flushGen, this`inFlight
      ensures Out(View(), fx) == ClientModel.Settle(old(View()), batch, a, env)
    {
      fx := [];
      if a.SendFailed? {
        fx := RetryBatch(batch, env);
      } else if a.code == 401 {
        fx := Reauthenticate(env);
      } else if a.code == 429 {
        RateLimited(a.retryAfter, env.now);
      } else if a.code == 413 && batch.Some? && batch.value.count > 1 {
        fx := Split(batch.value.bytes / 2, env);
      } else if 200 <= a.code < 300 || a.code == 400 {
        fx := Finish(batch, env);
      } else {
        fx := RetryBatch(batch, env);
      }
    }

    method Reauthenticate(env: Env) returns (fx: seq<Effect>)
      modifies this`token, this`conn, this`authenticating, this`authGen
      ensures Out(View(), fx) == ClientModel.Authenticate(old(View()).(token := None), env)
    {
      token := None;
      fx := Authenticate(env);
    }

    method Split(limit: nat, env: Env) returns (fx: seq<Effect>)
      modifies this`budget, this`outbox, this`flushing, this`flushGen, this`inFlight
      ensures Out(View(), fx) == ClientModel.FlushNext(old(View()).(budget := Some(limit)), env)
    {
      budget := Some(limit);
      fx := FlushNext(env);
    }

    method RateLimited(retryAfter: Option<nat>, now: int)
      modifies this`pausedUntil, this`sendRetries
      ensures View() == Pause(old(View()), retryAfter, now)
    {
      var delay := WaitMs(retryAfter, sendRetries);
      if retryAfter.None? { sendRetries := sendRetries + 1; }
      pausedUntil := now + delay;
    }

    method Finish(batch: Option<InFlight>, env: Env) returns (fx: seq<Effect>)
      modifies this`sendRetries, this`outbox, this`flushing, this`flushGen, this`inFlight
      ensures var m := old(View());
        var m1 := m.(sendRetries := 0, outbox := if m.kvFailed then m.outbox else m.outbox[Head(m, batch)..]);
        Out(View(), fx) == Join(Out(m1, Saving(m1, ["outbox"])), ClientModel.FlushNext(m1, env))
    {
      sendRetries := 0;
      if !kvFailed { PopHead(batch); }
      var writes := Saving(View(), ["outbox"]);
      var more := FlushNext(env);
      fx := writes + more;
    }

    // ---- what the user does ----

    /** Drop every item for the peer. */
    method RetainOthers(peer: Key)
      modifies this`outbox
      ensures outbox == Sparing(old(outbox), peer)
    {
      var kept := [];
      for i := 0 to |outbox|
        invariant outbox == old(outbox)
        invariant kept == Sparing(outbox[..i], peer)
      {
        assert outbox[..i + 1][..i] == outbox[..i];
        if outbox[i].recipient != peer { kept := kept + [outbox[i]]; }
      }
      assert outbox[..|outbox|] == outbox;
      outbox := kept;
    }

    method SetBlocked(peer: Key, blocked: bool) returns (fx: seq<Effect>)
      modifies this`contacts, this`outbox, this`inFlight
      ensures Out(View(), fx) == ClientModel.SetBlocked(old(View()), peer, blocked)
    {
      if peer in contacts { contacts := contacts[peer := contacts[peer].(blocked := blocked)]; }
      if blocked {
        RetainOthers(peer);
        DetachInFlight(peer);
        fx := Saving(View(), ["contacts", "outbox"]);
      } else {
        fx := Saving(View(), ["contacts"]);
      }
    }

    method Forget(peer: Key)
      modifies this`contacts, this`messages, this`seen
      ensures View() == old(View()).(contacts := old(contacts) - {peer}, messages := old(messages) - {peer}, seen := old(seen) - {peer})
    {
      contacts, messages, seen := contacts - {peer}, messages - {peer}, seen - {peer};
    }

    method DeleteContact(peer: Key) returns (fx: seq<Effect>)
      modifies this`contacts, this`messages, this`seen, this`outbox, this`inFlight
      ensures Out(View(), fx) == ClientModel.DeleteContact(old(View()), peer)
    {
      Forget(peer);
      RetainOthers(peer);
      DetachInFlight(peer);
      fx := Saving(View(), ["contacts"]) + [Erase(MessagesKey(peer))] + Saving(View(), ["outbox", "seen_ids"]);
    }

    method AddContact(key: Option<Key>) returns (fx: seq<Effect>)
      modifies this`contacts
      ensures Out(View(), fx) == ClientModel.AddContact(old(View()), key)
    {
      fx := [];
      if key.None? || key.value == me { return; }
      if key.value !in contacts { contacts := contacts[key.value := NEWCOMER]; }
      fx := Saving(View(), ["contacts"]);
    }

    method PushBack(recipient: Key, payload: P.Payload, ts: int)
      modifies this`outbox, this`pushed
      ensures View() == Push(old(View()), recipient, payload, ts)
    {
      outbox := outbox + [Item(pushed, recipient, P.Serialize(payload, ts), payload.Profile?, 0, 0)];
      pushed := pushed + 1;
    }

    /** The contacts that are not blocked, each once. */
    method Recipients() returns (peers: seq<Key>)
      ensures Audience(View(), peers)
    {
      peers := [];
      var left := contacts.Keys;
      while left != {}
        invariant left <= contacts.Keys
        invariant forall k :: k in peers <==> k in contacts && k !in left && !contacts[k].blocked
        invariant forall i, j :: 0 <= i < j < |peers| ==> peers[i] != peers[j]
        decreases |left|
      {
        var k :| k in left;
        if !contacts[k].blocked { peers := peers + [k]; }
        left := left - {k};
      }
    }

    /** Overwrite the pending profile for the peer behind the live items, or queue one. */
    method SupersedeFor(live: nat, peer: Key, ts: int)
      modifies this`outbox, this`pushed
      ensures View() == Supersede(old(View()), live, peer, ts)
    {
      var i := live;
      while i < |outbox| && !(outbox[i].profile && outbox[i].recipient == peer)
        invariant live <= |outbox| ==> live <= i <= |outbox| && Pending(outbox, live, peer) == Pending(outbox, i, peer)
        invariant live > |outbox| ==> i == live
      {
        i := i + 1;
      }
      if i < |outbox| {
        outbox := outbox[i := outbox[i].(envelope := P.Serialize(profile, ts))];
      } else {
        PushBack(peer, profile, ts);
      }
    }

    method SaveProfile(edited: P.Payload, env: Env) returns (fx: seq<Effect>, ghost peers: seq<Key>)
      requires edited.Profile?
      modifies this
      ensures Audience(old(View()), peers)
      ensures Out(View(), fx) == ClientModel.SaveProfile(old(View()), edited, peers, env)
    {
      var recipients := Recipients();
      fx, peers := [], recipients;
      if !P.Acceptable(edited) { return; }
      profile := edited;
      var live := if inFlight.Some? then inFlight.value.count else 0;
      ghost var m := View();
      for i := 0 to |recipients|
        invariant View() == SupersedeAll(m, live, recipients[..i], env.now)
        invariant View().profile == edited
      {
        assert recipients[..i + 1][..i] == recipients[..i];
        SupersedeFor(live, recipients[i], env.now);
      }
      assert recipients[..|recipients|] == recipients;
      var writes := Saving(View(), ["profile", "outbox"]);
      var more := FlushNext(env);
      fx := writes + more;
    }

    // ---- conversations ----

    ghost predicate Ordered()
      reads this
    {
      forall k :: k in messages ==> Sorted(messages[k])
    }

    method SendText(peer: Option<Key>, body: string, id: Id, env: Env) returns (fx: seq<Effect>)
      requires Ordered()
      modifies this`messages, this`contacts, this`outbox, this`pushed, this`flushing, this`flushGen, this`inFlight
      ensures Out(View(), fx) == ClientModel.SendText(old(View()), peer, body, id, env)
    {
      fx := [];
      if peer.None? { return; }
      var k := peer.value;
      if (k in contacts && contacts[k].blocked) || body == "" || P.ByteLen(body) > P.MAX_BODY_LEN { return; }
      if k !in contacts && |contacts| >= MAX_CONTACTS { return; }
      Compose(k, body, id, env.now);
      var writes := Saving(View(), [MessagesKey(k), "contacts", "outbox"]);
      var more := FlushNext(env);
      fx := writes + more;
    }

    /** File the text and queue it, with our profile behind it if the key is new. */
    method Compose(k: Key, body: string, id: Id, now: int)
      requires Ordered()
      modifies this`messages, this`contacts, this`outbox, this`pushed
      ensures View() == Written(old(View()), k, body, id, now)
    {
      var wasNew := k !in contacts;
      File(k, StoredMessage(id, body, now, true, false));
      PushBack(k, P.Text(id, body), now);
      if wasNew { Befriend(k, now); }
    }

    method Befriend(k: Key, now: int)
      modifies this`contacts, this`outbox, this`pushed
      ensures var m := old(View()); View() == Push(m.(contacts := m.contacts[k := NEWCOMER]), k, m.profile, now)
    {
      contacts := contacts[k := NEWCOMER];
      PushBack(k, profile, now);
    }

    /** Put a message we wrote in its place in the conversation. */
    method File(k: Key, x: StoredMessage)
      requires Ordered()
      modifies this`messages
      ensures messages == old(messages)[k := Wrote(PeerOf(old(View()), k), x).convo.value]
    {
      var convo := if k in messages then messages[k] else [];
      convo := InsertSorted(convo, x);
      convo := TrimHistory(convo);
      messages := messages[k := convo];
    }

    method LoadedMessages(k: Key, found: KvAnswer) returns (fx: seq<Effect>)
      modifies this`messages, this`seen, this`kvFailed
      ensures Out(View(), fx) == ClientModel.LoadedMessages(old(View()), k, found)
    {
      fx := [];
      match found
      case KvFailed => kvFailed := true;
      case KvAbsent =>
      case KvFound(list) =>
        if k in seen { seen := seen[k := seen[k] + Ids(list)]; }
        if k in messages {
          var merged := MergeConvo(messages[k], list);
          messages := messages[k := merged];
        } else {
          messages := messages[k := list];
        }
    }

    // ---- a poll page ----

    function PeerAt(k: Key): Peer
      reads this`messages, this`seen
    {
      Peer(if k in messages then Some(messages[k]) else None, if k in seen then Some(seen[k]) else None)
    }

    /** A text is checked against the seen ids and, if new, stored. */
    method Receive(k: Key, x: StoredMessage) returns (stored: bool)
      requires Ordered()
      modifies this`messages, this`seen
      ensures k in messages && messages == old(messages)[k := messages[k]]
      ensures k in seen && seen == old(seen)[k := seen[k]]
      ensures Received(old(PeerAt(k)), x, PeerAt(k)) && Ordered()
      ensures stored == (x.id !in Seeded(old(PeerAt(k))))
    {
      var taken;
      taken, stored := TakeText(PeerAt(k), x);
      messages := messages[k := taken.convo.value];
      seen := seen[k := taken.seen.value];
      assert PeerAt(k) == taken;
    }

    /** A stranger's first text makes a contact and sends them our profile. */
    method Welcome(sender: Key, ts: int)
      modifies this`contacts, this`outbox, this`pushed
      ensures View() == Greet(old(View()), sender, ts)
    {
      if sender !in contacts {
        contacts := contacts[sender := NEWCOMER];
        PushBack(sender, profile, ts);
      }
    }

    method AbsorbText(d: Decoded, now: int, g: Gathered) returns (g': Gathered)
      requires Ordered() && d.payload.Text? && d.sender != me && !(d.sender in contacts && contacts[d.sender].blocked)
      modifies this`contacts, this`messages, this`seen, this`outbox, this`pushed
      ensures Absorbed(old(View()), g, d, now, View(), g') && Ordered()
    {
      g' := g;
      if d.sender !in contacts && |contacts| >= MAX_CONTACTS { return; }
      var ts := ClampTs(d.ts, now);
      if d.sender !in contacts { g' := g.(touched := g.touched.(contacts := true, outbox := true)); }
      Welcome(d.sender, ts);
      var stored := Store(d.sender, StoredMessage(d.payload.id, d.payload.body, ts, false, false));
      if stored {
        g' := g'.(targets := Target(g.targets, d.sender, d.payload.id), touched := g'.touched.(convos := g.touched.convos + {d.sender}));
      }
    }

    method Store(k: Key, x: StoredMessage) returns (stored: bool)
      requires Ordered()
      modifies this`messages, this`seen
      ensures Ordered() && k in messages && k in seen
      ensures View() == old(View()).(messages := old(messages)[k := messages[k]], seen := old(seen)[k := seen[k]])
      ensures Received(PeerOf(old(View()), k), x, PeerOf(View(), k))
      ensures stored == (x.id !in Seeded(PeerOf(old(View()), k)))
    {
      assert PeerAt(k) == PeerOf(View(), k);
      stored := Receive(k, x);
      assert PeerAt(k) == PeerOf(View(), k);
    }

    /** Fields the profile leaves out stay. */
    method UpdateCard(k: Key, name: P.Option<string>, bio: P.Option<string>, photo: P.Option<string>, ts: int)
      requires k in contacts
      modifies this`contacts
      ensures contacts == old(contacts)[k := Updated(old(contacts)[k], name, bio, photo, ts)]
    {
      var card := contacts[k].card;
      if name.Some? { card := card.(name := name.value); }
      if bio.Some? { card := card.(bio := bio.value); }
      if photo.Some? { card := card.(photo := photo); }
      contacts := contacts[k := contacts[k].(card := card, lastProfileTs := ts)];
    }

    method Absorb(d: Decoded, now: int, g: Gathered) returns (g': Gathered)
      requires Ordered()
      modifies this`contacts, this`messages, this`seen, this`outbox, this`pushed
      ensures Absorbed(old(View()), g, d, now, View(), g') && Ordered()
    {
      g' := g;
      if d.sender == me { return; }
      if d.sender in contacts && contacts[d.sender].blocked { return; }
      var ts := ClampTs(d.ts, now);
      match d.payload
      case Text(_, _) => g' := AbsorbText(d, now, g);
      case Ack(ids) => g' := g.(acks := AddAck(g.acks, d.sender, ts, ids));
      case Profile(name, bio, photo) =>
        if d.sender in contacts && ts >= contacts[d.sender].lastProfileTs {
          UpdateCard(d.sender, name, bio, photo, Min(ts, now));
          g' := g.(touched := g.touched.(contacts := true));
        }
    }

    /** Fold the next event in, and follow it with the trail. */
    method TakeEvent(d: Decoded, now: int, g: Gathered, ghost trail: Trail, ghost decoded: seq<Decoded>, ghost start: Model)
      returns (g': Gathered, ghost trail': Trail)
      requires Ordered() && Leads(trail, decoded, now, start, View(), g)
      modifies this`contacts, this`messages, this`seen, this`outbox, this`pushed
      ensures Ordered() && Leads(trail', decoded + [d], now, start, View(), g')
    {
      ghost var was := View();
      g' := Absorb(d, now, g);
      trail' := LeadsOn(trail, decoded, now, start, was, g, d, View(), g');
    }

    /** Take the page's events one by one, until a limit cuts it short. */
    method IngestEvents(events: seq<PageEvent>, now: int) returns (g: Gathered, idle: bool, ghost trail: Trail)
      requires Ordered()
      modifies this`contacts, this`messages, this`seen, this`outbox, this`pushed
      ensures var a := AdmitPage(events);
        Leads(trail, a.decoded, now, old(View()), View(), g) && idle == (a.cut && a.decoded == [])
    {
      g := NOTHING;
      idle := false;
      var room, processed, stored := MAX_POLL_TOTAL_BYTES, 0, 0;
      ghost var decoded: seq<Decoded> := [];
      ghost var start := View();
      trail := Trail([start], [g], [], [], []);
      assert events[0..] == events;
      for i := 0 to |events|
        invariant Ordered() && 0 <= processed && 0 <= room && stored == |decoded| && !idle
        invariant Admit(events[i..], processed, room, decoded) == AdmitPage(events)
        invariant Leads(trail, decoded, now, start, View(), g)
      {
        var e := events[i];
        assert events[i..][0] == e && events[i..][1..] == events[i + 1..];
        if e.size > F.MAX_BLOB_LEN * 2 { continue; }
        if processed >= MAX_POLL_EVENTS || e.size / 2 > room {
          idle := stored == 0;
          break;
        }
        processed, room := processed + 1, room - e.size / 2;
        if e.content.Some? {
          stored := stored + 1;
          g, trail := TakeEvent(e.content.value, now, g, trail, decoded, start);
          decoded := decoded + [e.content.value];
        }
      }
    }

    /** Apply one sender's acks. */
    method ApplyOne(k: Key, ack: PendingAck, now: int, t: Touched) returns (t': Touched)
      modifies this`contacts, this`messages
      ensures contacts == Watermarked(old(contacts), k, ack, now) && messages == Flagged(old(contacts), old(messages), k, ack)
      ensures t' == TouchedOne(old(contacts), old(messages), k, ack, t)
    {
      t' := t;
      if k in contacts && ack.ts < contacts[k].lastAckTs { return; }
      if k in contacts {
        contacts := contacts[k := contacts[k].(lastAckTs := Min(ack.ts, now))];
        t' := t'.(contacts := true);
      }
      if k in messages {
        var marked, flipped := MarkDelivered(messages[k], ack.ids);
        assert messages[k := marked][k] == marked;
        messages := messages[k := marked];
        if flipped { t' := t'.(convos := t'.convos + {k}); }
      }
    }

    /** Apply the collected acks, sender by sender. */
    method ApplyEach(acks: map<Key, PendingAck>, now: int, t: Touched) returns (t': Touched)
      modifies this`contacts, this`messages
      ensures AppliedTo(old(View()), acks, acks.Keys, now, contacts, messages)
      ensures t' == TouchedByAcks(old(View()), acks, t)
    {
      var left := acks.Keys;
      ghost var m := View();
      t' := t;
      AppliedNone(m, acks, now, t);
      while left != {}
        invariant left <= acks.Keys && Halfway(m, acks, left, now, t, contacts, messages, t')
        decreases |left|
      {
        var k :| k in left;
        HalfwayNext(m, acks, left, k, now, t, contacts, messages, t');
        t' := ApplyOne(k, acks[k], now, t');
        left := left - {k};
      }
      assert acks.Keys - {} == acks.Keys;
      TouchedAll(m, acks, t);
    }

    method ApplyPending(acks: map<Key, PendingAck>, now: int, t: Touched) returns (t': Touched)
      modifies this`contacts, this`messages
      ensures View() == ApplyAcks(old(View()), acks, now)
      ensures t' == TouchedByAcks(old(View()), acks, t)
    {
      ghost var m := View();
      t' := ApplyEach(acks, now, t);
      AppliedAll(m, acks, now, contacts, messages);
    }

    /** Queue one sender's acks in pieces the reader accepts. */
    method QueueChunks(sender: Key, ids: seq<Id>, now: int)
      modifies this`outbox, this`pushed
      ensures View() == PushAcks(old(View()), sender, P.Chunks(ids), now)
    {
      var left := ids;
      ghost var done: seq<seq<Id>> := [];
      ghost var m := View();
      while left != []
        invariant P.Chunks(ids) == done + P.Chunks(left)
        invariant View() == PushAcks(m, sender, done, now)
        decreases |left|
      {
        var n := if |left| <= P.MAX_ACK_IDS then |left| else P.MAX_ACK_IDS;
        ChunksNext(done, left, n);
        PushNext(m, sender, done, left[..n], now);
        PushBack(sender, P.Ack(left[..n]), now);
        done, left := done + [left[..n]], left[n..];
      }
      assert done + P.Chunks([]) == done;
    }

    method QueueAcks(targets: map<Key, seq<Id>>, now: int) returns (ghost senders: seq<Key>)
      modifies this`outbox, this`pushed
      ensures Enumerates(senders, targets.Keys) && View() == OweAcks(old(View()), targets, senders, now)
    {
      var left := targets.Keys;
      senders := [];
      ghost var m := View();
      while left != {}
        invariant left <= targets.Keys
        invariant forall k :: k in senders <==> k in targets && k !in left
        invariant forall i, j :: 0 <= i < j < |senders| ==> senders[i] != senders[j]
        invariant View() == OweAcks(m, targets, senders, now)
        decreases |left|
      {
        var k :| k in left;
        QueueChunks(k, targets[k], now);
        assert (senders + [k])[..|senders|] == senders;
        senders, left := senders + [k], left - {k};
      }
    }

    /** The cursor is advanced before the events are taken, and put back if a limit stopped
        the page before anything in it could be used. */
    method IngestPage(pageCursor: int, events: seq<PageEvent>, now: int) returns (g: Gathered, ghost trail: Trail)
      requires Ordered()
      modifies this`contacts, this`messages, this`seen, this`outbox, this`pushed, this`cursor
      ensures Leads(trail, AdmitPage(events).decoded, now,
                    old(View()).(cursor := NextCursor(old(cursor), pageCursor, events, now)), View(), g)
    {
      var prev := cursor;
      var clamped := Min(pageCursor, now + 60000);
      if events != [] && clamped > cursor { cursor := clamped; }
      var idle;
      g, idle, trail := IngestEvents(events, now);
      if idle {
        cursor := prev;
        trail := Trail([View()], [g], [], [], []);
      }
    }

    /** Apply the acks the page brought, then queue those it makes us owe. */
    method Conclude(g: Gathered, now: int) returns (t: Touched, ghost senders: seq<Key>)
      modifies this`contacts, this`messages, this`outbox, this`pushed
      ensures Enumerates(senders, g.targets.Keys) && t == TouchedByPage(old(View()), g)
      ensures View() == OweAcks(ApplyAcks(old(View()), g.acks, now), g.targets, senders, now)
    {
      t := ApplyPending(g.acks, now, g.touched);
      senders := QueueAcks(g.targets, now);
      if g.targets != map[] { t := t.(outbox := true); }
    }

    /** Fold a page in: cursor, events, acks to apply, acks to send, keys to write. */
    method IngestPoll(pageCursor: int, events: seq<PageEvent>, now: int) returns (keys: seq<string>, ghost trail: Trail)
      requires Ordered()
      modifies this`contacts, this`messages, this`seen, this`outbox, this`pushed, this`cursor
      ensures Ingested(old(View()), pageCursor, events, now, trail, View()) && keys == trail.keys
    {
      var g;
      g, trail := IngestPage(pageCursor, events, now);
      var t;
      ghost var senders;
      t, senders := Conclude(g, now);
      var convos := ListKeys(t.convos);
      keys := PageKeys(convos, t);
      FollowsAny(trail, AdmitPage(events).decoded, now, senders, convos, keys);
      trail := trail.(senders := senders, convos := convos, keys := keys);
    }

    /** After a page: save, flush, then write the cursor if it moved or poll again. */
    method AfterPage(prev: int, keys: seq<string>, env: Env) returns (fx: seq<Effect>)
      modifies this`conn, this`authenticating, this`authGen, this`polling, this`pollGen
      modifies this`outbox, this`flushing, this`flushGen, this`inFlight
      ensures Out(View(), fx) == ClientModel.AfterPage(old(View()), prev, keys, env)
    {
      var writes := Saving(View(), keys);
      var sent := FlushNext(env);
      var next := Saving(View(), ["cursor"]);
      if cursor == prev { next := Poll(env); }
      fx := writes + sent + next;
    }

    method TakePage(length: nat, c: int, events: seq<PageEvent>, env: Env) returns (fx: seq<Effect>, ghost a: PollAnswer)
      requires Ordered() && !kvFailed && !polling && Hex(events) <= length <= MAX_POLL_RESPONSE_BYTES
      modifies this
      ensures Out(View(), fx) == ClientModel.PollResult(old(View()), old(pollGen), a, env)
      ensures GoodAnswer(old(View()), a, env) && a.Page? && a.length == length && a.cursor == c && a.events == events
    {
      var prev := cursor;
      var keys;
      ghost var trail;
      keys, trail := IngestPoll(c, events, env.now);
      a := Page(length, c, events, trail, View());
      fx := AfterPage(prev, keys, env);
    }

    /** An answer that is no page, or a page that must not be taken. */
    method SetBack(r: Reply, ghost a: PollAnswer, env: Env) returns (fx: seq<Effect>)
      requires !polling && Conveys(r, a) && !Folds(View(), a)
      modifies this`token, this`conn, this`authenticating, this`authGen
      ensures Out(View(), fx) == ClientModel.PollResult(old(View()), pollGen, a, env)
    {
      fx := [];
      if r.Status? && r.code == 401 {
        fx := Reauthenticate(env);
      } else if !r.Body? || !kvFailed {
        conn := Offline;
      }
    }

    /** A current answer, once the guard is down. */
    method TakeReply(r: Reply, env: Env) returns (fx: seq<Effect>, ghost a: PollAnswer)
      requires Ordered() && !polling && Sensible(r)
      modifies this
      ensures Out(View(), fx) == ClientModel.PollResult(old(View()), old(pollGen), a, env)
      ensures GoodAnswer(old(View()), a, env) && Conveys(r, a)
    {
      if !r.Body? || kvFailed || r.length > MAX_POLL_RESPONSE_BYTES || r.page.None? {
        a := Bare(r, View());
        fx := SetBack(r, a, env);
      } else {
        fx, a := TakePage(r.length, r.page.value.cursor, r.page.value.events, env);
      }
    }

    method LowerPoll()
      modifies this`polling
      ensures View() == old(View()).(polling := false)
    {
      polling := false;
    }

    method PollResult(gen: nat, r: Reply, env: Env) returns (fx: seq<Effect>, ghost a: PollAnswer)
      requires Ordered() && Sensible(r)
      modifies this
      ensures Out(View(), fx) == ClientModel.PollResult(old(View()), gen, a, env)
      ensures Conveys(r, a) && (gen == old(pollGen) ==> GoodAnswer(old(View()), a, env))
    {
      if gen != pollGen {
        fx, a := [], Bare(r, View());
      } else {
        LowerPoll();
        fx, a := TakeReply(r, env);
      }
    }
  }

  /** A refusal is not a 2xx, and a body is no shorter than the blobs it holds. */
  predicate Sensible(r: Reply) {
    && (r.Status? ==> !(200 <= r.code < 300))
    && (r.Body? && r.page.Some? ==> Hex(r.page.value.events) <= r.length)
  }

  /** The answer is what came back; a page brings the trail of folding it in besides. */
  predicate Conveys(r: Reply, a: PollAnswer) {
    match r
    case NoReply => a.PollFailed?
    case Status(code) => a == PollStatus(code)
    case Body(length, None) => a.Garbled?
    case Body(length, Some(p)) => a.Page? && a.length == length && a.cursor == p.cursor && a.events == p.events
  }

  function Bare(r: Reply, m: Model): (a: PollAnswer)
    ensures Conveys(r, a)
  {
    match r
    case NoReply => PollFailed
    case Status(code) => PollStatus(code)
    case Body(length, None) => Garbled
    case Body(length, Some(p)) => Page(length, p.cursor, p.events, Trail([], [], [], [], []), m)
  }

  /** A text against one peer's conversation and seen ids. */
  method TakeText(p: Peer, x: StoredMessage) returns (p': Peer, stored: bool)
    requires Sorted(ConvoOf(p))
    ensures Received(p, x, p') && p'.convo.Some? && p'.seen.Some? && Sorted(p'.convo.value)
    ensures stored == (x.id !in Seeded(p))
  {
    var convo := if p.convo.Some? then p.convo.value else [];
    var ids := if p.seen.Some? then p.seen.value else {};
    if ids == {} { ids := Ids(convo); }
    stored := x.id !in ids;
    if stored {
      InsertStaysSorted(convo, x);
      convo := InsertSorted(convo, x);
      ids := EvictSeen(ids + {x.id}, convo);
      LastSorted(convo, MAX_MESSAGES_PER_PEER);
      convo := TrimHistory(convo);
    }
    p' := Peer(Some(convo), Some(ids));
  }

  /** Keep the ids of the conversation; drop the surplus among the others. */
  method EvictSeen(seen: set<Id>, convo: Convo) returns (kept: set<Id>)
    ensures Evicted(seen, convo, kept)
  {
    kept := seen;
    if |seen| > MAX_SEEN_IDS_PER_PEER {
      var spare := seen - Ids(convo);
      var dropped := SomeOf(spare, |seen| - MAX_SEEN_IDS_PER_PEER);
      kept := seen - dropped;
      assert seen - kept == dropped;
    }
  }

  /** As many elements as asked for, or all there are. */
  method SomeOf(all: set<Id>, n: nat) returns (some: set<Id>)
    ensures some <= all && |some| == if n <= |all| then n else |all|
  {
    some := {};
    var left := all;
    while |some| < n && left != {}
      invariant some + left == all && some !! left && |some| <= n
      decreases |left|
    {
      var id :| id in left;
      some, left := some + {id}, left - {id};
    }
    CardLe(some, all);
  }

  /** The stored list joins what polls already added, once each, in date order. */
  method MergeConvo(existing: Convo, list: Convo) returns (c: Convo)
    ensures c == Trim(SortAll(existing + Without(list, Ids(existing))))
  {
    var ids := Ids(existing);
    var all := existing;
    for i := 0 to |list|
      invariant all == existing + Without(list[..i], ids)
    {
      assert list[..i + 1][..i] == list[..i];
      if list[i].id !in ids { all := all + [list[i]]; }
    }
    assert list[..|list|] == list;
    c := [];
    for i := 0 to |all|
      invariant c == SortAll(all[..i])
    {
      assert all[..i + 1][..i] == all[..i];
      SortAllSorts(all[..i]);
      c := InsertSorted(c, all[i]);
    }
    assert all[..|all|] == all;
    c := TrimHistory(c);
  }

  /** Flip the flags of the messages of ours that an ack names. */
  method MarkDelivered(convo: Convo, ids: set<Id>) returns (c: Convo, changed: bool)
    ensures c == MarkAll(convo, ids) && changed == (c != convo)
  {
    c, changed := convo, false;
    for i := 0 to |convo|
      invariant |c| == |convo|
      invariant forall j :: 0 <= j < |c| ==> c[j] == if j < i then MarkOne(convo[j], ids) else convo[j]
      invariant changed == exists j :: 0 <= j < i && c[j] != convo[j]
    {
      if c[i].outgoing && c[i].id in ids && !c[i].delivered {
        c := c[i := c[i].(delivered := true)];
        changed := true;
      }
    }
  }

  /** The keys of a set, each once. */
  method ListKeys(keys: set<Key>) returns (s: seq<Key>)
    ensures Enumerates(s, keys)
  {
    s := [];
    var left := keys;
    while left != {}
      invariant left <= keys
      invariant forall k :: k in s <==> k in keys && k !in left
      invariant forall i, j :: 0 <= i < j < |s| ==> s[i] != s[j]
      decreases |left|
    {
      var k :| k in left;
      s, left := s + [k], left - {k};
    }
  }

  /** Contacts and conversations once the acks of some senders are applied. */
  function MarkedContacts(m: Model, acks: map<Key, PendingAck>, done: set<Key>, now: int): map<Key, Contact> {
    map k | k in m.contacts ::
      if k in done && k in acks && !Stale(m, acks, k) then m.contacts[k].(lastAckTs := Min(acks[k].ts, now)) else m.contacts[k]
  }

  function MarkedConvo(m: Model, acks: map<Key, PendingAck>, done: set<Key>, k: Key): Convo
    requires k in m.messages
  {
    if k in done && k in acks && !Stale(m, acks, k) then MarkAll(m.messages[k], acks[k].ids) else m.messages[k]
  }

  function MarkedMessages(m: Model, acks: map<Key, PendingAck>, done: set<Key>): map<Key, Convo> {
    map k | k in m.messages :: MarkedConvo(m, acks, done, k)
  }

  ghost predicate AppliedTo(m: Model, acks: map<Key, PendingAck>, done: set<Key>, now: int, c: map<Key, Contact>, x: map<Key, Convo>) {
    c == MarkedContacts(m, acks, done, now) && x == MarkedMessages(m, acks, done)
  }

  predicate Late(c: map<Key, Contact>, k: Key, ack: PendingAck) { k in c && ack.ts < c[k].lastAckTs }

  /** One contact's watermark, and one conversation's flags, after an ack. */
  function Watermarked(c: map<Key, Contact>, k: Key, ack: PendingAck, now: int): map<Key, Contact> {
    if Late(c, k, ack) || k !in c then c else c[k := c[k].(lastAckTs := Min(ack.ts, now))]
  }

  function Flagged(c: map<Key, Contact>, x: map<Key, Convo>, k: Key, ack: PendingAck): map<Key, Convo> {
    if Late(c, k, ack) || k !in x then x else x[k := MarkAll(x[k], ack.ids)]
  }

  lemma ContactsNext(m: Model, acks: map<Key, PendingAck>, left: set<Key>, k: Key, now: int)
    requires k in left && left <= acks.Keys
    ensures var c := MarkedContacts(m, acks, acks.Keys - left, now);
      Late(c, k, acks[k]) == Stale(m, acks, k) && MarkedContacts(m, acks, acks.Keys - (left - {k}), now) == Watermarked(c, k, acks[k], now)
  {
    assert forall j :: j in acks.Keys - (left - {k}) <==> j in acks.Keys - left || j == k;
  }

  lemma MessagesNext(m: Model, acks: map<Key, PendingAck>, left: set<Key>, k: Key, c: map<Key, Contact>)
    requires k in left && left <= acks.Keys && Late(c, k, acks[k]) == Stale(m, acks, k)
    ensures MarkedMessages(m, acks, acks.Keys - (left - {k})) == Flagged(c, MarkedMessages(m, acks, acks.Keys - left), k, acks[k])
  {
    var done, done' := acks.Keys - left, acks.Keys - (left - {k});
    forall j | j in m.messages
      ensures MarkedConvo(m, acks, done', j)
        == if j == k && !Stale(m, acks, k) then MarkAll(MarkedConvo(m, acks, done, k), acks[k].ids) else MarkedConvo(m, acks, done, j) {
      assert j in done' <==> j in done || j == k;
    }
  }

  lemma AppliedNext(m: Model, acks: map<Key, PendingAck>, left: set<Key>, k: Key, now: int, c: map<Key, Contact>, x: map<Key, Convo>)
    requires k in left && left <= acks.Keys && AppliedTo(m, acks, acks.Keys - left, now, c, x)
    ensures AppliedTo(m, acks, acks.Keys - (left - {k}), now, Watermarked(c, k, acks[k], now), Flagged(c, x, k, acks[k]))
  {
    ContactsNext(m, acks, left, k, now);
    MessagesNext(m, acks, left, k, c);
  }

  /** What has been touched when the senders in `left` are still to come. */
  function TouchedSoFar(m: Model, acks: map<Key, PendingAck>, left: set<Key>, t: Touched): Touched {
    t.(convos := t.convos + (set k | k in acks && k !in left && Flips(m, acks, k)),
       contacts := t.contacts || exists k :: k in acks && k !in left && Moved(m, acks, k))
  }

  lemma TouchedAll(m: Model, acks: map<Key, PendingAck>, t: Touched)
    ensures TouchedSoFar(m, acks, {}, t) == TouchedByAcks(m, acks, t)
  {
    assert (set k | k in acks && k !in {} && Flips(m, acks, k)) == set k | k in acks && Flips(m, acks, k);
  }

  lemma ConvosNext(m: Model, acks: map<Key, PendingAck>, left: set<Key>, k: Key)
    requires k in left && left <= acks.Keys
    ensures (set j | j in acks && j !in left - {k} && Flips(m, acks, j))
         == (set j | j in acks && j !in left && Flips(m, acks, j)) + if Flips(m, acks, k) then {k} else {}
  {
  }

  function TouchedOne(c: map<Key, Contact>, x: map<Key, Convo>, k: Key, ack: PendingAck, t: Touched): Touched {
    t.(contacts := t.contacts || (k in c && !Late(c, k, ack)),
       convos := t.convos + if Flagged(c, x, k, ack) != x then {k} else {})
  }

  lemma MovedNext(m: Model, acks: map<Key, PendingAck>, left: set<Key>, k: Key, t: bool)
    requires k in left && left <= acks.Keys
    ensures (t || exists j :: j in acks && j !in left - {k} && Moved(m, acks, j))
      <==> (t || exists j :: j in acks && j !in left && Moved(m, acks, j)) || Moved(m, acks, k)
  {
  }

  lemma FlipsNow(m: Model, acks: map<Key, PendingAck>, left: set<Key>, k: Key, c: map<Key, Contact>, x: map<Key, Convo>)
    requires k in left && left <= acks.Keys && Late(c, k, acks[k]) == Stale(m, acks, k)
    requires x == MarkedMessages(m, acks, acks.Keys - left)
    ensures Flips(m, acks, k) <==> Flagged(c, x, k, acks[k]) != x
  {
    if k in x {
      assert x[k] == MarkedConvo(m, acks, acks.Keys - left, k) == m.messages[k];
      var y := x[k := MarkAll(x[k], acks[k].ids)];
      assert y[k] == MarkAll(x[k], acks[k].ids);
      if x[k] == MarkAll(x[k], acks[k].ids) { assert y == x; }
    }
  }

  lemma TouchedNext(m: Model, acks: map<Key, PendingAck>, left: set<Key>, k: Key, now: int, t: Touched,
                    c: map<Key, Contact>, x: map<Key, Convo>)
    requires k in left && left <= acks.Keys && AppliedTo(m, acks, acks.Keys - left, now, c, x)
    ensures TouchedSoFar(m, acks, left - {k}, t) == TouchedOne(c, x, k, acks[k], TouchedSoFar(m, acks, left, t))
  {
    ContactsNext(m, acks, left, k, now);
    FlipsNow(m, acks, left, k, c, x);
    ConvosNext(m, acks, left, k);
    MovedNext(m, acks, left, k, t.contacts);
  }

  /** Contacts, conversations and what was touched, with the senders in `left` to come. */
  ghost predicate Halfway(m: Model, acks: map<Key, PendingAck>, left: set<Key>, now: int, t: Touched,
                          c: map<Key, Contact>, x: map<Key, Convo>, t': Touched) {
    AppliedTo(m, acks, acks.Keys - left, now, c, x) && t' == TouchedSoFar(m, acks, left, t)
  }

  lemma HalfwayNext(m: Model, acks: map<Key, PendingAck>, left: set<Key>, k: Key, now: int, t: Touched,
                    c: map<Key, Contact>, x: map<Key, Convo>, t': Touched)
    requires k in left && left <= acks.Keys && Halfway(m, acks, left, now, t, c, x, t')
    ensures Halfway(m, acks, left - {k}, now, t, Watermarked(c, k, acks[k], now), Flagged(c, x, k, acks[k]),
                    TouchedOne(c, x, k, acks[k], t'))
  {
    AppliedNext(m, acks, left, k, now, c, x);
    TouchedNext(m, acks, left, k, now, t, c, x);
  }

  lemma AppliedNone(m: Model, acks: map<Key, PendingAck>, now: int, t: Touched)
    ensures Halfway(m, acks, acks.Keys, now, t, m.contacts, m.messages, t)
  {
    assert acks.Keys - acks.Keys == {};
    assert m.contacts == MarkedContacts(m, acks, acks.Keys - acks.Keys, now);
    assert m.messages == MarkedMessages(m, acks, acks.Keys - acks.Keys);
  }

  lemma AppliedAll(m: Model, acks: map<Key, PendingAck>, now: int, c: map<Key, Contact>, x: map<Key, Convo>)
    requires AppliedTo(m, acks, acks.Keys, now, c, x)
    ensures ApplyAcks(m, acks, now) == m.(contacts := c, messages := x)
  {
    assert c == ApplyAcks(m, acks, now).contacts;
    assert x == ApplyAcks(m, acks, now).messages;
  }

  /** The trail of the events so far, from one model to another. */
  ghost predicate Leads(trail: Trail, decoded: seq<Decoded>, now: int, start: Model, end: Model, g: Gathered) {
    Follows(trail, decoded, now) && trail.models[0] == start && trail.models[|decoded|] == end && trail.gathered[|decoded|] == g
  }

  lemma LeadsOn(trail: Trail, decoded: seq<Decoded>, now: int, start: Model, end: Model, g: Gathered,
                d: Decoded, end': Model, g': Gathered) returns (t: Trail)
    requires Leads(trail, decoded, now, start, end, g) && Absorbed(end, g, d, now, end', g')
    ensures Leads(t, decoded + [d], now, start, end', g')
  {
    t := Trail(trail.models + [end'], trail.gathered + [g'], [], [], []);
    var ds := decoded + [d];
    forall i | 0 <= i < |ds| ensures AbsorbedAt(t, ds, now, i) {
      if i < |decoded| { assert AbsorbedAt(trail, decoded, now, i); }
    }
  }

  lemma FollowsAny(trail: Trail, decoded: seq<Decoded>, now: int, senders: seq<Key>, convos: seq<Key>, keys: seq<string>)
    requires Follows(trail, decoded, now)
    ensures Follows(trail.(senders := senders, convos := convos, keys := keys), decoded, now)
  {
    var t := trail.(senders := senders, convos := convos, keys := keys);
    forall i | 0 <= i < |decoded| ensures AbsorbedAt(t, decoded, now, i) {
      assert AbsorbedAt(trail, decoded, now, i);
    }
  }

  lemma ChunksNext(done: seq<seq<Id>>, ids: seq<Id>, n: nat)
    requires ids != [] && n == if |ids| <= P.MAX_ACK_IDS then |ids| else P.MAX_ACK_IDS
    ensures done + P.Chunks(ids) == (done + [ids[..n]]) + P.Chunks(ids[n..])
  {
    ChunksHead(ids, n);
    Reassociate(done, [ids[..n]], P.Chunks(ids[n..]));
  }

  lemma Reassociate(a: seq<seq<Id>>, b: seq<seq<Id>>, c: seq<seq<Id>>)
    ensures (a + b) + c == a + (b + c)
  {
  }

  lemma ChunksHead(ids: seq<Id>, n: nat)
    requires ids != [] && n == if |ids| <= P.MAX_ACK_IDS then |ids| else P.MAX_ACK_IDS
    ensures P.Chunks(ids) == [ids[..n]] + P.Chunks(ids[n..])
  {
    if |ids| <= P.MAX_ACK_IDS {
      assert ids[..n] == ids && ids[n..] == [];
      assert P.Chunks([]) == [];
    }
  }

  lemma PushNext(m: Model, sender: Key, done: seq<seq<Id>>, ids: seq<Id>, now: int)
    ensures PushAcks(m, sender, done + [ids], now) == Push(PushAcks(m, sender, done, now), sender, P.Ack(ids), now)
  {
    assert (done + [ids])[..|done|] == done;
  }

  /** Filling from here on comes to what filling from the start does. */
  predicate Filling(items: seq<Item>, n: nat, env: Env, limit: nat, bytes: nat, goal: Pick) {
    n <= |items| && Fill(items[n..], env, limit, items[..n], bytes) == goal
  }

  /** The item is for another peer than the batch so far. */
  predicate Other(items: seq<Item>, n: nat)
    requires n < |items|
  {
    n > 0 && items[0].recipient != items[n].recipient
  }

  /** The next item does not go with the batch so far. */
  predicate Full(items: seq<Item>, n: nat, env: Env, limit: nat, bytes: nat)
    requires n < |items|
  {
    Other(items, n) || (n > 0 && env.weigh(items[n]).Some? && bytes + F.HexWeight(env.weigh(items[n]).value) > limit)
  }

  function Removed(items: seq<Item>, n: nat): (r: seq<Item>)
    requires n < |items|
    ensures |r| == |items| - 1
  {
    items[..n] + items[n + 1..]
  }

  lemma FillDrops(items: seq<Item>, n: nat, env: Env, limit: nat, bytes: nat, goal: Pick)
    requires n < |items| && n < MAX_SEND_BATCH && !Other(items, n) && env.weigh(items[n]).None?
    requires Filling(items, n, env, limit, bytes, goal)
    ensures Filling(Removed(items, n), n, env, limit, bytes, goal)
  {
    var after := Removed(items, n);
    assert items[n..][1..] == after[n..] && after[..n] == items[..n];
  }

  lemma FillTakes(items: seq<Item>, n: nat, env: Env, limit: nat, bytes: nat, goal: Pick)
    requires n < |items| && n < MAX_SEND_BATCH && !Other(items, n) && env.weigh(items[n]).Some?
    requires n > 0 ==> bytes + F.HexWeight(env.weigh(items[n]).value) <= limit
    requires Filling(items, n, env, limit, bytes, goal)
    ensures Filling(items, n + 1, env, limit, bytes + F.HexWeight(env.weigh(items[n]).value), goal)
  {
    assert items[n..][1..] == items[n + 1..] && items[..n] + [items[n]] == items[..n + 1];
  }

  lemma FillStops(items: seq<Item>, n: nat, env: Env, limit: nat, bytes: nat, goal: Pick)
    requires n <= |items|
    requires n >= MAX_SEND_BATCH || n == |items| || Full(items, n, env, limit, bytes)
    requires Filling(items, n, env, limit, bytes, goal)
    ensures n == |goal.taken| && bytes == goal.bytes && items == goal.taken + goal.rest
  {
    assert items == items[..n] + items[n..];
  }

  lemma ChargeNext(items: seq<Item>, i: nat, now: int)
    requires i < |items|
    ensures Charge(items[..i + 1], now) == Charge(items[..i], now) + if Expired(Charged(items[i]), now) then [] else [Charged(items[i])]
  {
    assert items[..i + 1][..i] == items[..i];
  }
}

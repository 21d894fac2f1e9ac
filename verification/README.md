# Verified model of skrepka

skrepka is an end-to-end encrypted messenger: a client core written as one state machine
(`core/src/app.rs` and its helpers) and a federating relay (`server.knot`). This project
models both in Dafny 4.11 and proves what they promise, over whole runs where the promise is
about runs. `dafny verify dfyconfig.toml` checks everything.

## How the model is laid out

The relay:

- `Pools.dfy`: a stored relation cut to a number of rows by a sort key, with every way ties
  can fall.
- `RelayState.dfy`, `RelayMailbox.dfy`, `RelayForwards.dfy`: the stored relations, and each
  `atomic` block as a function (or, where a cap leaves ties open, a relation) on them.
- `RelayRuns.dfy`: any interleaving of the atomic blocks of polls, sends, forwards, presence
  announcements and prunes, with network calls between the blocks.
- `RelayPages.dfy`: what pages weigh, and that a page is built again until it is acked.
- `RelayLosses.dfy`: what each step takes from the mailbox and the outbox, and why.
- `RelayServer.dfy`: the handlers as a class that overwrites its relations, proved against
  those functions.
- `RelayAuth.dfy`, `RelayFailures.dfy`: the three-phase login and the peer failure counters,
  each with its runs and its class.

The client:

- `Conversations.dfy`: one peer's conversation, seen ids and the merge of a late load.
- `ClientModel.dfy`: every arm of `update` as a function from the state to the next state and
  the effects it asks for. An event that an arm queues for itself is part of the arm.
- `ClientOutbox.dfy`, `ClientPages.dfy`, `ClientIngest.dfy`, `ClientAcks.dfy`: the queue, how
  much of a poll page is read, what folding it in does, and acks.
- `ClientWorld.dfy`, `ClientSteps.dfy`, `ClientProgress.dfy`, `ClientRuns.dfy`: the client
  among its outstanding requests. A request can be answered at any later time or never and
  cannot be called back; the user, timers and watchdogs act in between. `NetInv` and
  `StateInv` are the invariants, `Progress` says all that any step may do to the state.
- `ClientPolls.dfy`: from where each poll asks, and which pages move the cursor.
- `ClientConvos.dfy`: what each conversation holds at any point of a run.
- `ClientSending.dfy`: what goes into the queue, what is sent of it and when, and what each
  answer does to it.
- `ClientLoops.dfy`: which logins and polls each step starts, and what becomes of the token.
- `ClientPeers.dfy`, `ClientProfiles.dfy`, `ClientContacts.dfy`, `ClientCards.dfy`: delivery flags,
  ack and profile watermarks, whom our profile reaches, what is left of a blocked peer, and what
  a contact shows of themselves.
- `ClientStorage.dfy`: what each step writes.
- `ClientApp.dfy`: the client as an object whose handlers update its fields in place, with
  the program's loops. Each handler is proved to leave the fields at, and to ask for, what
  `ClientModel` says; so what the runs prove holds of it.

Both: `EndToEnd.dfy` joins the runs of the client to those of the relay.

Formats: `Framing.dfy` (padding and blob layout), `Payloads.dfy` and `Base64.dfy` (what is inside a blob),
`Phonemic.dfy` and `Syllables.dfy` (@p spelling).

## Assumptions

- Runs of the client start after the startup loads: no request has been sent, and stored data
  is data this client could have stored. A stored conversation may still arrive at any time,
  also after polls have added to it.
- The clock does not run back. Generations are natural numbers.
- Cryptographic primitives and zstd are abstract functions with inverse laws; JSON is its
  tree, the keys of an object distinct, and the length of its text. What a signature that
  verifies says about who signed is an assumption of `Framing.Unforgeable` alone.
- Encryption refuses an item whose recipient key is unusable, and otherwise only a plaintext
  over the cap (`core/src/crypto.rs:385-396`); which keys are usable is not modelled.
- The body of a poll response is no shorter than the blobs it holds.
- Lower-casing is known on ASCII text only.
- Queued items carry a push number, which the program does not store, so that an item can be
  followed through a run.
- The relay's promise about acks needs a client that presents only cursors it was given by
  that relay. `EndToEnd.ClientIsHonest` proves that this client is one, assuming only that
  the network between them invents no poll and no page: requests and answers may be lost,
  late and out of order.

## Where the code differs from its comments

- `server.knot:541-555` says the sort key of the forward cap is total, so the cap is
  deterministic. Two forwards of one ciphertext to two peers tie (`SortKeyTies`), and an
  outbox of 50001 has two outcomes (`CapHasTwoOutcomes`). `CapIsDeterministicExactly` says
  when there is one, `CapIsExact` which entries survive every tie-break.
- `server.knot:1285-1286` says the challenge just issued survives the cap because it expires last.
  Rows added in the same millisecond tie: `FreshChallengeSurvives` says exactly when the row
  is safe, `FreshChallengeLost` gives the pools that may lose it, and `IssuedButNotStored` a
  run that reaches one and answers with a challenge it has not stored.
- `core/src/app.rs:75-80` says the cap on a poll body is generously above what a full page of
  the relay can cost. Two blobs of the length the relay accepts are over it
  (`TwoBlobsStall`). Such a page is refused, the cursor stays, and the relay builds it again:
  `PageAdvancesExactly` says which pages move the client on, `MailboxStalls` that none does
  while those rows are stored and have not expired.
- The peer failure row as a whole does depend on commit order: `WholeRowOrderIndependent`
  says exactly when it does not. What retries are decided by never does.

## Model

| member | source | states |
|---|---|---|
| `EndToEnd.NoMailIsLostUnseen` | server.knot:1402-1500 | client and relay together, over any pair of runs: each row a poll of the client deletes was on a page the client had folded in, and what it says, if it can be read at all, was taken in; or it was past its TTL when that page was built, or covered by a cursor stored in an earlier session |
| `EndToEnd.ClientIsHonest` | core/src/app.rs:2112-2127 | this client only presents cursors the relay it polls returned to it, as the relay's promise needs |
| `EndToEnd.MailboxStalls` | core/src/app.rs:1405-1410 | once the oldest unread rows of a key are together too long for a body the client accepts, then while they are stored and do not expire no page of that relay is folded in and the cursor stays, whatever else comes in |
| `EndToEnd.TwoBlobsStall` | server.knot:73-74 | a run of the relay that reaches such a page with two blobs of the length it accepts |
| `RelayLosses.MailIsConserved` | server.knot:959-1060 | over any stretch of any run a stored row leaves only by a cursor of its own recipient that covers it, by a sweep when it is thirty days old, or by an append to a recipient with 9999 newer rows or to a relay with a million |
| `RelayLosses.MailIsNotInvented` | server.knot:959-995 | in every state of every run each stored row is of a ciphertext that was sent to that key |
| `RelayLosses.ExpireIsTotal` | server.knot:1037-1060 | a sweep leaves no row of thirty days and no forward without a row |
| `RelayLosses.SetupIsExact` | server.knot:1402-1445 | a poll deletes exactly its key's rows up to the cursor it presents, and goes on from it if it can have been handed out, never from one past both the clock and the numbers issued |
| `RelayLosses.PageIsExact` | server.knot:1453-1490 | a row is on a page if and only if it is of that key, above the cursor, not past its TTL, and fewer than fifty such rows are older |
| `RelayLosses.ForwardsAreConserved` | server.knot:1148-1173 | over any stretch of any run a queued forward leaves only because an attempt on it succeeded, its tenth failed, its row was acked or is past its TTL or gone, its key went offline at that peer, the peer was denied, or the outbox is full with entries at or before it |
| `RelayLosses.FailedAttempt` | server.knot:1161-1171 | a failed attempt that is not the tenth leaves its entry with exactly one retry more and every other entry as it was |
| `RelayLosses.ReasonTakes` | server.knot:1148-1173 | each of those reasons but the overflow does take the entry |
| `RelayLosses.NewForwardIsOwed` | server.knot:1534-1590 | a forward is queued, with no retry, only by a send or an announcement that names its peer, for a message that peer has not accepted |
| `RelayLosses.SendReaches` | server.knot:1534-1590 | a send is queued for each peer named that has not accepted the message and has fewer than 2000 entries, while the outbox has room for all of them |
| `RelayLosses.AnnounceReaches` | server.knot:1246-1259 | a stored row of a key announced online is queued for that peer, unless the peer has accepted it, if with the older rows of those keys there is room for 2000 entries of the peer and 50000 in all |
| `RelayLosses.NamedOnlyIfAccepted` | server.knot:1001-1011 | in every state of every run a row names a peer only if that peer accepted it |
| `RelayLosses.AcceptedForGood` | server.knot:1001-1011 | once a peer has accepted a row, the row names it as long as it is stored |
| `RelayLosses.NeverForwardedAgain` | server.knot:1001-1011 | in every run a peer that has accepted a message is never queued that row again |
| `RelayPages.PageRepeats` | server.knot:1453-1490 | while a row of a page is stored and has not expired, each later poll of that key at that cursor returns it again, whatever has come in since |
| `RelayPages.PageSize` | server.knot:1453-1490 | in every run a page holds at most fifty rows, each with a number of its own |
| `RelayRuns.AckDeletesOnlySeenMail` | server.knot:1402-1500 | in every interleaving, a row that an honest key's cursor deletes is at or below the cursor, and every page returned to that key before whose cursor covers the row (there is one) held it, or was built when it was past its TTL |
| `RelayRuns.LaterMailIsAboveCursors` | server.knot:959-995 | in every run, mail stored after a page was returned lies above every cursor returned before |
| `RelayRuns.UnissuedCursorDeletes` | server.knot:1402-1445 | honesty is needed: a run in which a cursor never returned deletes mail nobody saw |
| `RelayRuns.AlwaysInv` | server.knot:1148-1173 | mailbox and forward-outbox invariants hold in every state of every run |
| `RelayRuns.AttemptCounts` | server.knot:1148-1173 | a step moves a queued forward's counter by one if it is an attempt on it, and not otherwise |
| `RelayRuns.SweepGivesUp` | server.knot:1148-1173 | while a forward stays queued its counter counts the attempts on it exactly, and there are fewer than ten |
| `RelayMailbox.AppendKeeps` | server.knot:959-995 | an append keeps unique sequence numbers, unique (recipient, ciphertext) pairs, 10000 rows a recipient and the global ceiling plus one; its row is above every number issued before |
| `RelayMailbox.AppendAscends` | server.knot:938-995 | the new row's number is greater than that of every row stored |
| `RelayMailbox.AppendIsExact` | server.knot:959-995 | below the global ceiling nobody else loses a row, and a row of the recipient stays if and only if fewer than 9999 of theirs are newer |
| `RelayMailbox.AppendDropsOldest` | server.knot:959-995 | a row of the recipient that an append drops is older than each row of theirs it keeps |
| `RelayMailbox.RoomOutcome` | server.knot:959-995 | both evictions are exact caps: what is left is the newest, per recipient and overall |
| `RelayMailbox.PageIsPrefix` | server.knot:1453-1490 | a page takes every fresh row up to the cursor it hands out |
| `RelayServer.ThresholdEvicts` | server.knot:959-995 | the threshold filter keeps exactly the newest 9999 rows of the recipient and every row of everyone else |
| `RelayServer.Relay.AppendMessage` | server.knot:959-995 | the threshold form leaves the stored relations at the specified append, invariants kept |
| `RelayServer.Relay.AckPolledMessages` | server.knot:1492-1500 | rows up to the cursor go, and with them their forwards |
| `RelayServer.Relay.SetUpPoll` | server.knot:1402-1445 | the cursor is clamped to what was issued and the clock, and everything up to it is acked |
| `RelayServer.Relay.CollectPage` | server.knot:1453-1490 | the oldest fifty fresh rows, with the greatest sequence number among them |
| `RelayServer.Relay.MarkDelivered` | server.knot:1001-1011 | the peer joins `deliveredTo` of that one row |
| `RelayServer.Relay.CommitAttempt` | server.knot:1148-1173 | an attempt leaves exactly the state of the specified step: a success takes the forward and marks the row, a failure costs it a retry, the tenth takes it |
| `RelayServer.Relay.CommitImmediate` | server.knot:1597-1608 | the success of the attempt right after a send |
| `RelayServer.Relay.StoreAndStage` | server.knot:1534-1590 | one message of a send is stored, and forwards staged for peers that do not have it and are not queued |
| `RelayServer.Relay.StoreBatch` | server.knot:1534-1590 | a batch is the message-by-message composition |
| `RelayServer.Relay.ForwardQueuedToAll` | server.knot:1246-1259 | stored mail for keys that came online is staged, oldest first, within the peer's room |
| `RelayServer.Relay.PruneExpired` | server.knot:1037-1060 | the two filters leave exactly the state of the specified sweep |
| `RelayForwards.AckedForwardsGone` | server.knot:1492-1500 | after an ack no forward is left for an acked row |
| `RelayForwards.AttemptsKeep` | server.knot:1148-1173 | attempts keep entries unique, none to a peer that has the message, retries below ten, and both ceilings |
| `RelayForwards.StagingKeeps` | server.knot:1246-1259 | staging by a send or by presence keeps the same, within 2000 a peer and 50000 in all |
| `RelayForwards.RemovalsKeep` | server.knot:1037-1060 | acks, prunes, offline reports and deny-listing keep the same |
| `RelayForwards.CapIsExact` | server.knot:554-555 | a forward survives every tie-break of the cap if and only if fewer than 50000 others sort at or before it |
| `RelayForwards.CapIsDeterministicExactly` | server.knot:541-555 | the cap has one outcome if and only if each entry is sure to stay, or has 50000 entries strictly ahead of it |
| `RelayForwards.CapHasTwoOutcomes` | server.knot:541-555 | an outbox of 50001 entries, at most 2000 a peer, that the cap may cut in two ways |
| `RelayForwards.SortKeyTies` | server.knot:541-555 | the sort key is not total: one ciphertext to two peers ties |
| `RelayFailures.FinalRow` | server.knot:866-913 | whatever the order, the row ends at the latest start time, with a zero count exactly when a latest-started attempt succeeded |
| `RelayFailures.OrderIndependent` | server.knot:866-913 | for any multiset of outcomes in any two orders, the recorded time and whether the count is zero agree |
| `RelayFailures.WholeRowOrderIndependent` | server.knot:866-913 | the whole row is the same in every order if and only if an attempt that started at the latest start time succeeded or no failure started before it |
| `RelayFailures.OneStartTime` | server.knot:866-913 | outcomes sharing one start time leave the same whole row in every order |
| `RelayFailures.CountsFailuresInARow` | server.knot:866-913 | attempts that commit in the order they started leave the start time of the last and the number of failures in a row at the end |
| `RelayFailures.NeverOvercharged` | server.knot:866-913 | in any order the count is at most the number of failures that committed |
| `RelayFailures.FailureTable.RecordFailure` | server.knot:885-904 | the row of that peer moves as specified, every other row stays |
| `RelayFailures.FailureTable.ClearFailure` | server.knot:906-913 | the same for a success |
| `RelayAuth.OneSessionPerChallenge` | server.knot:1303-1386 | in every interleaving of verifies, a nonce opens at most as many sessions as challenges were issued for it |
| `RelayAuth.InstalledOnlyAfterProof` | server.knot:1303-1386 | a session is installed only for the key its challenge was issued to, unexpired and from the address it is bound to, after a signature over this host and that nonce was checked; it is the one handed out, for an hour, and nothing else is added |
| `RelayAuth.AlwaysBounded` | server.knot:523-531 | every reachable state has at most 10 sessions and 5 challenges a key, and 10000 of each |
| `RelayAuth.RevokeIsTotal` | server.knot:1340-1386 | revoking leaves the key no other session and no challenge |
| `RelayAuth.LoginIsSeated` | server.knot:1340-1386 | a login that is let in leaves a session for its key under the token it answers with, bound to its address and good for an hour, unless 10000 others last as long; its challenge is gone |
| `RelayAuth.SessionLeaves` | server.knot:1340-1386 | a session goes only when its time is up, its key revokes it, its key has nine others as late, or the relay has its fill of rows as late |
| `RelayAuth.ChallengeLeaves` | server.knot:1285-1296 | a challenge goes only when its time is up, it is used or revoked, its key has four others as late, or the relay has its fill of rows as late |
| `RelayAuth.SignedForOneHost` | server.knot:1311-1320 | what is signed for one host and nonce is signed for no other: nonces have one length |
| `RelayAuth.FreshChallengeSurvives` | server.knot:1285-1296 | the challenge just issued survives every tie-break of the cap if and only if fewer than 10000 others expire as late |
| `RelayAuth.FreshChallengeLost` | server.knot:523-524 | a pool of 10000 others that expire as late may lose the challenge it hands out |
| `RelayAuth.IssuedButNotStored` | server.knot:1285-1296 | for any 10001 different keys and any nonces, a run that issues each key its challenge in one millisecond and after which the last one handed out is not stored |
| `RelayAuth.AuthTables.IssueChallenge` | server.knot:1288-1296 | the pool is capped for the key, the challenge added, then capped overall |
| `RelayAuth.AuthTables.InstallSession` | server.knot:1340-1386 | a challenge still there is consumed and a session seated; otherwise nothing changes |
| `Pools.SurvivesEveryTieBreak` | server.knot:523-531 | a row survives a cap to n however ties fall if and only if fewer than n others sort at or before it |
| `Pools.StrictOutcome` | server.knot:523-531 | without ties a cap has one outcome: the rows with fewer than n ahead of them |
| `Pools.OneOutcomeExactly` | server.knot:523-531 | a cap to n has one outcome if and only if each row has fewer than n rivals or n rows strictly ahead |
| `Pools.Cap` | server.knot:523-531 | sorting and taking n is a legal outcome of the cap |
| `Conversations.OnlineIsLastThousand` | core/src/app.rs:2504-2517 | insert-then-trim at each arrival equals the last 1000 of any stable sort by date of everything that arrived |
| `Conversations.StableSortIsUnique` | core/src/app.rs:2495-2507 | a list in date order with ties in arrival order is determined by the arrivals |
| `Conversations.TrimCommutes` | core/src/app.rs:2513-2517 | trimming before an insertion loses nothing that trimming after it keeps |
| `Conversations.InsertSorted` | core/src/app.rs:2504-2507 | the bisection inserts after everything dated up to the message |
| `Conversations.TrimHistory` | core/src/app.rs:2513-2517 | the newest 1000 stay |
| `Conversations.ReceivedKeeps` | core/src/app.rs:2272-2333 | a text keeps the conversation ordered, bounded, free of repeated incoming ids, and covered by the seen set |
| `Conversations.SeenStaysBounded` | core/src/app.rs:2305-2327 | after a stored text the seen set keeps the new id and every id of the conversation, and once over the bound is left with exactly 2000: enough are always outside the conversation |
| `Conversations.ReceivedExactly` | core/src/app.rs:2272-2333 | a text under the id of an incoming message that is there, or of one that is remembered, changes nothing in the conversation; under an id neither there nor remembered it is inserted by date and remembered |
| `Conversations.WithoutExactly` | core/src/app.rs:818-851 | a late load adds each stored message whose id is not there yet, as often as it is stored, and no other |
| `Conversations.MarksExactly` | core/src/app.rs:2404-2434 | an ack leaves every message as it was but for the flag of an outgoing one it names, which is up |
| `Conversations.MergedKeeps` | core/src/app.rs:818-851 | a stored conversation that arrives after polls is merged without breaking any of that |
| `ClientConvos.ConversationIsNewest` | core/src/app.rs:2504-2517 | in every state of every run each conversation is, up to delivery flags, exactly the newest 1000 of a stable sort by date of all that was filed in it since it began: texts written, texts taken from pages in page order, and what late loads added |
| `ClientConvos.StepFiles` | core/src/app.rs:2272-2333 | each step leaves each conversation, up to delivery flags, at its old content with what the step files inserted and trimmed one by one; no other event touches it but the delete of its contact |
| `ClientRuns.AlwaysInv` | core/src/app.rs:504-559 | all client invariants hold in every state of every run |
| `ClientRuns.GenerationProtocol` | core/src/app.rs:1196-1377 | for poll, send and auth the guard is up exactly while the request of the current generation is unanswered, there is at most one such request, and an answer to any other changes nothing and sends nothing |
| `ClientRuns.AnsweredOnce` | core/src/app.rs:504-545 | no request is answered, so none acted on, twice: every request sent differs from all sent before |
| `ClientRuns.StaleWatchdog` | core/src/app.rs:1351-1365 | a watchdog of another generation, or with its guard down, changes nothing |
| `ClientRuns.RelayBinding` | core/src/app.rs:932-984 | every outstanding poll carries a token its relay issued and a cursor that is not positive or at most one of a page with events taken from that relay, across any relay switches |
| `ClientRuns.TakenPages` | core/src/app.rs:2112-2127 | each such cursor was there at the start of the run or is that of a page the client folded in at an earlier step |
| `ClientRuns.CursorRises` | core/src/app.rs:2112-2127 | the cursor falls only on a move to another relay |
| `ClientRuns.CursorIsBounded` | core/src/app.rs:2112-2127 | in every run the cursor is at most a minute past the clock, whatever a relay answers |
| `ClientRuns.FirstStart` | core/src/app.rs:450-482 | a client with nothing stored is a legal start of a run |
| `ClientRuns.PopsExactlyCarried` | core/src/app.rs:1567-1587 | a 2xx or 400 takes exactly what the request carried off the head of the queue, nothing if it was detached or storage is broken, whatever was blocked, deleted, edited or pushed meanwhile; the flush that follows acts on the rest alone, and any other item that goes had a recipient key that cannot be encrypted to |
| `ClientRuns.Conservation` | core/src/app.rs:1932-2101 | over any stretch of a run an item leaves the queue only because a request carrying it was accepted or rejected for good, it failed for the tenth time or more than a day after it was first tried, its peer was cut off, or its own recipient's key cannot be encrypted to |
| `ClientRuns.ItemsStayThemselves` | core/src/app.rs:1932-2101 | while it is queued an item keeps its recipient and payload over any stretch of a run, except that a pending profile may be rewritten, and its retries only rise |
| `ClientRuns.GoneForGood` | core/src/app.rs:1932-2101 | what has left the queue never returns |
| `ClientRuns.QueueIsSound` | core/src/app.rs:1055-1101 | always: push order, recipients known and not blocked, retries below ten, payloads a peer accepts and encryption does not refuse |
| `ClientRuns.StepPatience` | core/src/app.rs:2064-2085 | a charged failure strictly lowers the retries left, but for those of new items |
| `ClientRuns.FailuresAreBounded` | core/src/app.rs:2064-2101 | over any stretch of a run there are at most ten charged failures for each item queued before or in it |
| `ClientRuns.SplittingEnds` | core/src/app.rs:1546-1566 | at most thirteen 413 answers (section 15.5.14 of RFC 9110) split a batch between moves to another relay |
| `ClientRuns.LatchHolds` | core/src/app.rs:1730-1777 | once a load has failed no later step of the run writes a stored key |
| `ClientRuns.PauseIsBounded` | core/src/app.rs:1498-1545 | no relay stops sends for more than five minutes past the clock |
| `ClientRuns.InboxIsSound` | core/src/app.rs:2272-2333 | in every state of every run each conversation is ordered, bounded, free of repeats and covered by its seen set |
| `ClientRuns.WatermarkRises` | core/src/app.rs:2404-2434 | until a contact is deleted its ack watermark never goes back, and none is ahead of the clock |
| `ClientRuns.RecentAckIsHonoured` | core/src/app.rs:2335-2434 | in any run an ack dated at or after the clock of every page folded in before, and after every watermark the run started with, marks the messages it names, wherever its page puts it and however long it was on its way |
| `ClientSending.WhatIsWrittenIsQueued` | core/src/app.rs:1805-1908 | in any run a text that is taken is queued for its peer under the next number and reads as what was written; behind it a new peer is queued our profile; a text that is not taken changes nothing |
| `ClientSending.FailureCostsExactly` | core/src/app.rs:2064-2101 | in any run a charged failure keeps each item it carried, one retry poorer, if and only if that is not its tenth and it was first tried no more than a day ago |
| `ClientSending.RetriesCountFailures` | core/src/app.rs:2064-2085 | over any stretch of a run the retries an item gains are exactly the charged failures of requests that carried it |
| `ClientSending.SendsAreInOrder` | core/src/app.rs:1932-2053 | in any run each send goes out with storage working, a token of that relay, no earlier than the pause allows, one at a time, and carries dated items off the head of the queue |
| `ClientSending.NothingWaitsThatCouldGo` | core/src/app.rs:1932-2053 | in any run a step that has to do with the queue leaves nothing waiting that could be sent |
| `ClientSending.WaitIsKept` | core/src/app.rs:1498-1545 | in any run, once a relay says to wait, nothing is sent to it for as many seconds as it named, up to five minutes, or for our own doubling backoff, whoever wakes the queue |
| `ClientLoops.WhatIsDueIsAsked` | core/src/app.rs:985-1452 | in any run each step sends exactly the login and poll requests that are due |
| `ClientLoops.LoginIsExact` | core/src/app.rs:1196-1452 | in any run the token is exactly the last one given, unless the relay was left or refused it, and the client counts as online exactly from a token on until something fails or a login starts |
| `ClientStorage.NothingChangesUnsaved` | core/src/app.rs:1730-1777 | in any run, while storage works, no step changes contacts, queue, cursor, relay, profile or a conversation without writing it in the same step |
| `ClientStorage.SeenIsWrittenToo` | core/src/app.rs:2461-2475 | a page that adds to a conversation has the seen ids written with it |
| `ClientPeers.DeliveredMeansAcked` | core/src/app.rs:2335-2434 | in every state of every run a message of ours shows as delivered only if its own peer acked it on a page that was folded in, or it was stored so |
| `ClientPeers.PageFlags` | core/src/app.rs:2404-2434 | a page sets a flag only if an ack of that peer on it names the message and one is no older than the watermark, and clears none |
| `ClientPeers.MarkIsLatestAck` | core/src/app.rs:2404-2434 | after a page a contact's watermark is no earlier than any ack of theirs on it that is heard, and moved only to the date of one |
| `ClientPeers.BlockIsExact` | core/src/app.rs:1055-1076 | the flag ends at what was asked for, nobody else's changes, and blocking takes exactly the peer's items off the queue and its send off the record |
| `ClientProfiles.NewcomersAreGreeted` | core/src/app.rs:2272-2333 | in any run a folded page makes contacts of exactly those strangers who wrote on it, but for want of room under 500, and each is queued our profile, dated as a text of theirs |
| `ClientProfiles.EditReachesContacts` | core/src/app.rs:1102-1193 | in any run an edit within the caps is kept and queued to each contact who is not blocked, and reads as what was edited; one over the caps changes nothing |
| `ClientContacts.StepContacts` | core/src/app.rs:1020-1101 | in any run a contact is made only by adding a key, writing to it or a page, lost only by deleting it, and its flag changes only as asked |
| `ClientContacts.ProfilesOnlyGetNewer` | core/src/app.rs:2357-2402 | in any run a contact's profile watermark only rises, to the date of a profile of theirs, never past the clock, and after a page none of theirs on it is later |
| `ClientCards.CardIsLastTold` | core/src/app.rs:2357-2402 | in any run a contact's name, bio and photo each change only by a page, to what the last profile on it that tells it says, leaving out profiles older than the watermark or than one before them |
| `ClientContacts.BlockedIsCutOff` | core/src/app.rs:1055-1076 | in any run, from a block until the user lets the peer back, no page and no text changes what is kept of them, nothing is queued for them and no request carries anything to them |
| `ClientProgress.StepProgress` | core/src/app.rs:932-1598 | one relation covers every event: state invariants kept, limits changed only as the event says, no watermark back, every queued item an old one unchanged or new, nothing lost without a reason, no retries gained but by new items |
| `ClientSteps.NetStep` | core/src/app.rs:504-559 | every event keeps the guards, generations, relay binding and batch record in order, and sends no request twice |
| `ClientSteps.LateIsIgnored` | core/src/app.rs:1366-1377 | an answer of another generation changes nothing and asks for nothing |
| `ClientWorld.DetachKeeps` | core/src/app.rs:555-559 | cutting off the peer of the live send leaves none of what it carries in the queue, so its answer has nothing to pop |
| `ClientWorld.OpenKeeps` | core/src/app.rs:504-545 | a request that opens a generation is new, and the world stays in order |
| `ClientWorld.AbandonKeeps` | core/src/app.rs:512-545 | giving up on a request retires its generation: nothing outstanding is current for that loop |
| `ClientOutbox.FillFits` | core/src/app.rs:1961-1998 | a batch is for one peer, at most 100 items, within the budget if more than one, and weighs at least 512 an item |
| `ClientOutbox.FillWeighs` | core/src/app.rs:1976-1990 | the weight a batch is kept within is that of its items' blobs in hex |
| `ClientOutbox.FillIsMaximal` | core/src/app.rs:1963-1998 | filling stops only at the end, at 100, at another peer's item, or at one that overflows the budget |
| `ClientOutbox.FillKeepsQueue` | core/src/app.rs:1963-1998 | taking and dropping on the way keeps the queue good and in order |
| `ClientOutbox.FlushedIds` | core/src/app.rs:1932-2053 | a flush adds nothing to the queue and takes off only what cannot be encrypted |
| `ClientOutbox.ChargedFailureCosts` | core/src/app.rs:2064-2085 | charging a batch strictly lowers the retries left in the queue |
| `ClientOutbox.ChargedLosses` | core/src/model.rs:168-171 | an item a charged failure drops was of the batch, and is in its tenth failure or past a day since first tried |
| `ClientOutbox.SupersedeAllKeeps` | core/src/app.rs:1160-1186 | a profile edit rewrites nothing on the wire, loses nothing, and only new items bring retries |
| `ClientOutbox.ProfileReachesAll` | core/src/app.rs:1160-1186 | after it each peer has the new profile queued behind the items on the wire, and the queue has grown by one item for each who had none there |
| `ClientIngest.IngestedKeeps` | core/src/app.rs:2104-2478 | a page only adds contacts and queued items, keeps every conversation in order, and moves no watermark back or past the clock |
| `ClientPages.AdmitsLongestPrefix` | core/src/app.rs:2143-2203 | exactly the longest part of a page within both caps is read from its start, and all it says is taken in, in order |
| `ClientPages.ReadsFirst` | core/src/app.rs:2143-2203 | of a page that fits an accepted body exactly the first 2000 events are read: neither the byte budget nor the cap on one blob ever binds |
| `ClientPages.PassesUnreadExactly` | core/src/app.rs:2112-2203 | the cursor passes an unread event of such a page if and only if it is new, the page has more than 2000 events, and one of the first 2000 could be read |
| `ClientPolls.PageAdvancesExactly` | core/src/app.rs:1366-1441 | in any run a page of up to 2000 events with a new cursor moves the client on, to its own cursor or a minute past the clock, if and only if its body is at most 64 MiB; refused, it leaves all but the poll and the connection as it was and nothing is sent |
| `ClientPolls.PollsAskFromCursor` | core/src/app.rs:1315-1350 | in every state of every run the poll whose answer counts asks from the cursor the client is at |
| `ClientAcks.AckPagesPermute` | core/src/app.rs:2335-2356 | a page of acks within the caps has the same effect in every order of its events |
| `ClientAcks.FreshAckCounts` | core/src/app.rs:2404-2434 | an ack dated at or after a clock that no watermark is past marks what it names |
| `ClientAcks.AcksMatchStored` | core/src/app.rs:2436-2459 | after a page the queue acks to each sender exactly the ids stored from that sender in it, in page order, behind all else the page queued and dated when it was folded in |
| `ClientApp.Client.TakeBatch` | core/src/app.rs:1961-1998 | the loop takes and drops exactly what the filling function does |
| `ClientApp.Client.StampHead` | core/src/app.rs:2014-2019 | items tried for the first time are dated, the others not |
| `ClientApp.Client.FlushNext` | core/src/app.rs:1932-2053 | fields and effects are those of the flush function |
| `ClientApp.Client.ChargeHead` | core/src/app.rs:2072-2085 | the loop leaves the charged batch, without what it exhausted, in front of the rest |
| `ClientApp.Client.RetryBatch` | core/src/app.rs:2064-2101 | fields and effects of a charged failure |
| `ClientApp.Client.SendResult` | core/src/app.rs:1480-1598 | fields and effects for every answer to a send |
| `ClientApp.Client.SetServerUrl` | core/src/app.rs:932-984 | everything about the old relay is forgotten, its requests retired, and the client reconnects |
| `ClientApp.Client.Connect` | core/src/app.rs:985-1019 | the auth round-trip in flight is retired; then auth, poll or nothing |
| `ClientApp.Client.Authenticate` | core/src/app.rs:1196-1234 | one round-trip at a time, each under a new generation |
| `ClientApp.Client.ChallengeResult` | core/src/app.rs:1235-1286 | the second leg keeps the generation of the first |
| `ClientApp.Client.VerifyResult` | core/src/app.rs:1287-1312 | a token is installed, then poll and flush |
| `ClientApp.Client.Poll` | core/src/app.rs:1315-1350 | one poll at a time, with the current token and cursor |
| `ClientApp.Client.PollResult` | core/src/app.rs:1366-1452 | fields and effects for every answer to a poll: nothing, a refusal, a body over 64 MiB, one that does not parse, a page |
| `ClientApp.Client.SetBlocked` | core/src/app.rs:1055-1076 | blocking empties the queue of the peer and detaches a send to them |
| `ClientApp.Client.DeleteContact` | core/src/app.rs:1077-1101 | the same, and everything kept about the peer goes, the stored conversation too |
| `ClientApp.Client.SaveProfile` | core/src/app.rs:1102-1193 | every unblocked contact has the new profile queued behind the live items |
| `ClientApp.Client.SendText` | core/src/app.rs:1805-1908 | the text is filed in order and queued, with our profile behind it for a new key |
| `ClientApp.Client.LoadedMessages` | core/src/app.rs:818-866 | a stored conversation is merged, or the storage latch is set |
| `ClientApp.Client.IngestPoll` | core/src/app.rs:2104-2475 | the loop over the page's events, the acks applied and the acks queued amount to the specified fold of the page, and exactly the stored keys it changed are written |
| `ClientApp.Client.Receive` | core/src/app.rs:2272-2333 | one text against conversation and seen set, eviction included |
| `ClientApp.EvictSeen` | core/src/app.rs:2305-2327 | only surplus ids outside the conversation are dropped |
| `ClientApp.MergeConvo` | core/src/app.rs:833-848 | filter, stable sort and trim of the stored list joined to what is there |
| `Framing.PaddedLen` | core/src/crypto.rs:81-100 | the length is permitted and at least the input, and longer above 65536 |
| `Framing.PaddedLenIsLeast` | core/src/crypto.rs:81-100 | no permitted length in between is skipped |
| `Framing.PaddedLenIsMonotone` | core/src/crypto.rs:81-100 | a longer blob is never padded to a shorter one |
| `Framing.PaddedFitsCeiling` | core/src/crypto.rs:74-111 | the padded length stays within the ceiling if and only if the blob is shorter than it |
| `Framing.PadTo` | core/src/crypto.rs:81-100 | the scan over the buckets computes it |
| `Framing.InnerRoundTrip` | core/src/crypto.rs:487-567 | the big-endian length field separates the data from any padding |
| `Framing.BlobShape` | core/src/crypto.rs:385-472 | encryption refuses exactly the over-long plaintext, and the blob has a permitted length |
| `Framing.BlobRoundTrip` | core/src/crypto.rs:385-567 | decrypting what was encrypted gives the plaintext and the sender, for every plaintext up to the cap |
| `Framing.DecryptsExactly` | core/src/crypto.rs:487-567 | decryption answers a plaintext and a sender if and only if the blob has version 2 and a length in bounds, opens under this recipient's key and header to a sender, a signature and a rest, the signature is the sender's over the rest for this recipient, and the length field names a part that decompresses to the plaintext |
| `Framing.ForgeryIsRefused` | core/src/crypto.rs:545-554 | an opened blob whose signature does not verify is refused |
| `Framing.SenderMeantRecipient` | core/src/crypto.rs:545-554 | if signatures cannot be forged, whoever a blob names as its sender signed it for this recipient |
| `Framing.HexWeight` | core/src/crypto.rs:415-417 | a blob weighs at least 512 hex characters |
| `Framing.HexIsOfTheBlob` | core/src/app.rs:1976-1986 | the weight counted for an item is two characters for each byte of the blob encryption makes of it |
| `Payloads.PayloadRoundTrip` | core/src/protocol.rs:60-198 | what is written is read back sanitised, if and only if it is within the caps then; otherwise dropped |
| `Payloads.ReadBackIsStable` | core/src/protocol.rs:60-198 | what a reader accepted is read back unchanged when written again: sanitising reaches its fixed point at once |
| `Payloads.CleanedAcceptable` | core/src/protocol.rs:113-134 | what is within the caps stays within them when sanitised |
| `Payloads.SanitizeFixes` | core/src/protocol.rs:113-134 | sanitising changes a string if and only if it holds an invisible character |
| `Payloads.PayloadFitsPlaintext` | core/src/crypto.rs:394-396 | a payload within the caps stays under 1 MiB even with six-byte escapes (section 7 of RFC 8259) throughout |
| `Payloads.ChunksCover` | core/src/app.rs:2446-2459 | the pieces are within the cap, none empty, and concatenate to the ids |
| `Payloads.ReadIsSound` | core/src/protocol.rs:136-198 | whatever a reader accepts, from any tree, is what the tree says under its own type, shows no invisible character, and is within every cap |
| `Payloads.SanitizeParts` | core/src/protocol.rs:113-134 | sanitising takes each character by itself and drops exactly the invisible ones |
| `Base64.Base64Exactly` | core/src/protocol.rs:180-190 | a photo is accepted if and only if some bytes encode to it |
| `Syllables.PrefixRoundTrip` | core/src/phonemic.rs:9-30 | every prefix is looked up back to its byte, so the table has no duplicate |
| `Syllables.SuffixRoundTrip` | core/src/phonemic.rs:32-53 | the same for suffixes |
| `Phonemic.TablesAreLawful` | core/src/phonemic.rs:63-89 | lookup and table are each other's inverse, for both tables |
| `Phonemic.RoundTrip` | core/src/phonemic.rs:98-137 | exactly the non-empty even byte strings have a spelling, and it is parsed back |
| `Phonemic.AnyCasing` | core/src/phonemic.rs:118-137 | any mix of ASCII case of a spelling is parsed to the bytes it was printed from |
| `Phonemic.Injective` | core/src/phonemic.rs:98-116 | no two byte strings share a spelling |
| `Phonemic.Canonical` | core/src/phonemic.rs:118-137 | re-printing an accepted input gives the syllables of its lower-casing joined by single dashes, which is accepted as the same bytes |
| `Phonemic.OneSpelling` | core/src/phonemic.rs:98-137 | two accepted inputs mean the same bytes if and only if that spelling is the same |
| `Phonemic.ParseOb` | core/src/phonemic.rs:118-137 | lower-casing, then the loop over the parts, computes the parse |

## Left out

- The Swift shell, FFI, `view()`, navigation, error strings, nicknames and the compose field: no logic that spans operations.
- Timers, backoff delays of the poll and auth loops and liveness: any timer may fire at any time in the model, so only safety and bounded work are claimed.
- Startup loads and `IdentityLoaded`: runs begin after them.
- Wrap-around of generations at 2^64.
- Presence and gossip tables, rate limits, the deny list, name checks and header parsing of the relay: what they yield enters the model as arguments of the steps.
- Splitting a stored batch into the relay's per-message forks: a batch is its messages one after the other in one atomic step, and attempts are steps of their own.
- Real cryptography, zstd, JSON text and URL parsing: foreign code, kept as abstract functions or as lengths.
- The hex form of a key and the check that bytes are a curve point: foreign code.

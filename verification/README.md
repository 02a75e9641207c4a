# Clearance, verified

A Dafny model of the Clearance payment pipeline and proofs about it. Clearance takes
payment and deposit requests, evaluates their risk, and posts them to a double-entry
ledger. Services talk through a transactional outbox, Kafka topics and an inbox that
deduplicates; failed messages go to a dead-letter table that operators replay from, and
old inbox rows are pruned.

`dafny verify dfyconfig.toml` checks everything.

## How the model is laid out

- `Domain`, `Tables`, `Messages`, `Ordering`: the values, the tables as one database
  value `Db`, Kafka messages, and the order of rows.
- `Payments`, `Handlers`, `Outbox`, `DeadLetters`: each SQL transaction as a function from
  one committed database to the next, with its error cases.
- `Database`, `Services`, `Publishing`, `ConsumerLoop`, `Limiter`: the imperative code, in
  its own form. The store is a class whose methods run their statements in order and roll
  back on failure; each method is proved to do what the one-step function says. The
  broker, the handler's environment and other transactions are nondeterministic.
- `Invariants`, `Preservation`, `MoneyLemmas`: what every committed state satisfies, and
  that every operation keeps it.
- `Pipeline`, `PipelineInvariant`, `PipelineSteps`, `PipelineTheorems`, `Runs`: the whole
  system as a state machine. Any number of publishers, consumer sessions, handlers that
  outlive their session, operators and prunes interleave; each participant may stop
  between any two steps; clocks need not agree.
- `Coverage`, `NoLoss`, `Outcomes`, `Recovery`: the theorems over whole runs. `LostWork` and
  `Witnesses`: runs that show what is not promised. `Inductions`: induction along a run.
- `Futures`, `FuturesStuck`, `FuturesDecide`: which pending payments some future still decides.
  A future may hold any steps of the pipeline but those of handlers that outlive their
  session, and operators' clocks do not run back in it. It starts in a state in which no
  publisher and no operator is in the middle of its work.
- `MoneyPath`, `MoneyPathProofs`, `MoneyPathTheorems`: the three money transactions
  statement by statement, under READ COMMITTED, with row locks, unique keys and advisory
  locks on hashes that may collide. `MoneyPathPipeline` ties their commits to pipeline steps.
- `Requests`, `RequestProofs`: any number of concurrent calls of the request services.
- `Encoding`, `Pages`: the text that is hashed, and cursor pagination.

Database clocks, broker times and drawn ids are arguments. `NewID` is taken to draw ids
that are not in use. SHA-256 is injective, and a JSON document is the value it encodes.

## What does not hold, and when it does

- Work can be lost. When dead-lettering a message fails before its record is stored, the
  loop goes on, and a later commit in the partition covers the message. A run leaves no
  unsettled message below a commit point if and only if it never commits over one
  (`Coverage.CoveredExactly`). The first such commit needs a dead-lettering that stored no
  record, in the same session of that partition (`Coverage.OverNeedsFailure`). So no payment
  is lost in a run in which no such failure is followed by a commit of its session
  (`NoLoss.NoneLostUnlessOvertaken`). `LostWork.WorkIsLost` reaches a lost payment from the
  empty system. For the loop alone `ConsumerLoop.SkipsExactlyWhenOvertaken` is an
  if-and-only-if.
- A kept payment can be stuck. The replay of an OPEN dead letter is refused once the letter
  has left the replay window, and while its event is processed; and the inbox row of such an
  event is never pruned while the letter is OPEN. So an event is barred if it is processed and
  an OPEN dead letter names it. Some future decides a pending payment if and only if one of
  its events is not barred and is unpublished, undelivered, or in a dead letter that both
  replay checks let through (`FuturesDecide.DecidableIffMovable`). A stuck payment that was
  not lost is held by OPEN dead letters, all of which are refused
  (`FuturesDecide.HeldByRefusedLetters`). `Witnesses.CarrierExpires` reaches one whose letter
  is too old, and `Witnesses.CarrierIsProcessed` one with a letter inside the window whose
  event is processed.
- A payment can be evaluated twice: `Witnesses.EvaluatedTwice` reaches two risk events for
  one payment after the inbox row of its created event was pruned. It cannot happen while no
  risk-service row is pruned (`Recovery.RiskEvaluatedOnce`), and a delivery adds a risk event
  if and only if the inbox row is not there (`Recovery.EvaluatedAgainIffForgotten`). Whichever
  risk event comes first decides the payment; after that each further one is inert
  (`Outcomes.RedeliveryIsInert`).
- The prune guard protects the inbox row of an OPEN dead letter's message if and only if the
  message has an event_id header (`DeadLetters.GuardNeedsHeader`). A message whose identity
  is its legacy key is not protected: `Witnesses.LegacyRowIsPrunable`.
- One rate-limit window can admit more than twice the limit, because the window is sent to
  Redis in whole milliseconds. With times and window in nanoseconds and a window of at least a
  millisecond, the exact peak is given by `Limiter.Peak` (`Limiter.PeakIsExact`): twice the
  limit if the window is whole up to a nanosecond and keys go at their deadline, up to three
  times otherwise, and less if Redis keeps keys longer. It is at most twice the limit if and
  only if the window is at least a millisecond and either is whole up to a nanosecond, or
  Redis keeps a key for at least a millisecond past its deadline, or the limit is one and the
  window at least two milliseconds: `Limiter.AtMostTwiceIffSound`, with
  `Limiter.PartialMillisecond` for a window of 1.9 ms.
- With a status filter a row can leave the listing between two pages and never be shown
  (`Pages.FilteredRowIsMissed`). A walk shows a row, once, if and only if the row is selected
  when the page that covers it is asked for (`Pages.ShownOnceIffSelected`).
- The architecture notes say that inbox retention exceeds the replay window; the code also
  accepts equality. The model follows the code, and the theorems hold with equality.

## Model

| member | source | states |
|---|---|---|
| NoLoss.NoWorkLost | internal/consumer/loop.go:39-71 | in every state of every run in which no offset was committed over an unsettled message, each PENDING payment has an event that is unpublished, undelivered or kept in an OPEN dead letter; crashes, duplicates, requeues and pruning included |
| NoLoss.NoneLostUnlessOvertaken | internal/consumer/loop.go:56-71 | the same for every run in which no dead-lettering that stored no record is followed by a commit of the same session of its partition |
| FuturesDecide.DecidableIffMovable | internal/operations/service.go:79-93 | in every reachable state without a publisher or operator in mid-work, and at every time: some continuation of the run decides a PENDING payment if and only if one of its events is unpublished, undelivered or in a dead letter that the window check and the processed check both let through, and is not both processed and named by an OPEN dead letter |
| FuturesDecide.MovableDecides | internal/operations/service.go:68-114 | the steps of publishers, sessions, operators and prunes that lead from such an event to the decision, from any sound state |
| FuturesStuck.StuckForever | internal/postgres/maintenance.go:47-65 | without such an event the payment is PENDING in every future: no replay is let through, no prune frees the event, no copy appears |
| FuturesDecide.HeldByRefusedLetters | internal/operations/service.go:79-93 | a stuck payment that was not lost is held by OPEN dead letters, all refused; once its events are published and delivered it is stuck if and only if all its OPEN dead letters are refused |
| NoLoss.ExpiredForever | internal/operations/service.go:82-84 | a dead letter that the replay check refuses as expired is refused at every later time and state |
| NoLoss.LoggedIsCarried | internal/postgres/deadletter.go:172-226 | an event in a log has had its effect, is above the commit point, or is kept in an open dead letter, through any chain of replays |
| Coverage.CoveredExactly | internal/consumer/loop.go:56-71 | a run leaves no unsettled message below any commit point if and only if it never commits over one |
| Coverage.StepCovers | internal/consumer/loop.go:66-71 | a step keeps everything below the commit points settled if and only if it is not such a commit |
| Coverage.OverNeedsFailure | internal/deadletter/recorder.go:64-69 | the first commit over an unsettled message comes after a dead-lettering in its partition that stored no record, with no restart of the partition in between |
| Coverage.NotOvertaken | internal/consumer/loop.go:56-71 | a run in which no such failure is followed by a commit of the same session never commits over an unsettled message |
| LostWork.WorkIsLost | internal/consumer/loop.go:57-67 | a state reachable from the empty system, with an unsettled message below a commit point, holds a PENDING payment that nothing carries |
| Witnesses.CarrierExpires | internal/operations/service.go:82-84 | a reachable state in which a PENDING payment is held by an expired dead letter alone, and no future decides it |
| Witnesses.CarrierIsProcessed | internal/operations/service.go:85-93 | a reachable state in which a PENDING payment has an OPEN dead letter inside the replay window, its event is processed, and no future decides it |
| Witnesses.EvaluatedTwice | internal/postgres/maintenance.go:47-65 | a reachable state with two risk events for one payment, after a prune |
| Witnesses.LegacyRowIsPrunable | internal/kafkabus/bus.go:109-113 | a handled legacy message whose inbox row can be pruned under its OPEN dead letter |
| DeadLetters.GuardNeedsHeader | internal/postgres/maintenance.go:52-56 | the guard of an OPEN record protects its message's inbox row if and only if the message has an event_id header |
| PipelineTheorems.NextInv | internal/postgres/outbox.go:12-103 | every step of the pipeline keeps the money, event, request, lease, dead-letter and broker invariants together |
| Runs.RunInv | internal/postgres/consumer.go:12-98 | all of those invariants hold in every state of every run |
| Runs.RunPersists | migrations/001_init.sql:58-81 | over any stretch of a run decided transactions, published rows, keys, dead-letter messages, the replay count of a record that keeps its state, finished attempts, ledger prefixes and logs never change |
| Outcomes.DecidesOnce | internal/postgres/ledger.go:28-99 | over any run a payment leaves PENDING at most once |
| Outcomes.DecidedForever | internal/postgres/ledger.go:64-79 | a decided transaction row never changes again |
| Outcomes.OutcomeMatchesLedger | internal/postgres/ledger.go:44-95 | in every reachable state a transaction's entries are exactly those its status calls for, it is decided exactly if it has a final event, and it has at most one |
| Outcomes.BooksOfEveryState | internal/postgres/ledger.go:163-182 | a customer's scanned balance is deposits minus authorized payments and not negative, and every currency sums to zero |
| Outcomes.RedeliveryIsInert | internal/postgres/ledger.go:129-161 | a decided payment's risk event, delivered again, only refreshes last_seen_at if its inbox row is there, and is refused without effect if it was pruned |
| Outcomes.DeliveryIsDeduplicated | internal/postgres/consumer.go:57-98 | in every reachable state and for both consumers, delivering any log entry whose event has its inbox row succeeds, is a repeat, and changes nothing but last_seen_at |
| Outcomes.ReplayIsDeduplicated | internal/operations/service.go:94-107 | in every reachable state, the replay of a dead letter whose event has its inbox row succeeds wherever it lands, is a repeat, and changes nothing but last_seen_at |
| Handlers.SecondDeliveryRefreshes | internal/postgres/consumer.go:12-43 | on any database and for any message, a second delivery after a successful one succeeds, is a repeat, and only moves last_seen_at |
| Outcomes.DecisionByRule | internal/domain/domain.go:62-76 | every decided payment was decided at one moment by the amount limit and then by the balance at that moment |
| Outcomes.LimitHolds | internal/risk/service.go:43-63 | every authorized payment is within the limit and LOW, every larger decided one is FAILED and HIGH |
| Outcomes.KeyOwnsOnePayment | internal/postgres/transaction.go:39-91 | in every reachable state a payment key owns one payment with one created event |
| Outcomes.KeyOwnsOneDeposit | internal/postgres/funding.go:56-127 | a deposit key owns one deposit, alone with its source, reference and currency |
| Recovery.LeaseSafety | internal/postgres/outbox.go:12-103 | attempts stay below the maximum, are exactly the maximum when dead-lettered, and a PUBLISHED row was accepted by the broker |
| Recovery.PublishedForever | internal/postgres/outbox.go:66-103 | a PUBLISHED row never changes, whatever late holders do |
| Recovery.OnlyRequeueRevives | internal/postgres/outbox.go:191-226 | only a requeue of that row takes it out of DEAD_LETTERED |
| Recovery.ReplayAccounting | internal/postgres/deadletter.go:172-226 | replay_count is the number of PUBLISHED attempts and of audit rows and is 1 exactly when REPUBLISHED; at most one attempt is PENDING |
| Recovery.FinishedForever | internal/postgres/deadletter.go:129-202 | a finished or recovered attempt keeps its result, and finishing it later is refused |
| Recovery.OnlyPruneForgets | internal/postgres/maintenance.go:33-86 | no step of a run but a prune removes an inbox row |
| Recovery.PruneSparesOpen | internal/postgres/maintenance.go:47-65 | over any stretch of a run, as long as a dead letter that names the event stays OPEN, the event's inbox rows survive every prune |
| Recovery.ReplayOutlivesPrune | internal/maintenance/processed_events.go:48-72 | over any stretch of a run, an event that passed the replay check at time r keeps its inbox rows while prunes come by r plus retention minus window |
| Recovery.ReplayKeepsFullRetention | internal/operations/service.go:85-93 | over any stretch of a run, a row that a replay newly creates survives while prunes come by r plus the whole retention |
| Recovery.RiskEvaluatedOnce | internal/postgres/consumer.go:12-43 | a payment has at most one risk event while no prune removes a risk-service inbox row |
| Recovery.EvaluatedAgainIffForgotten | internal/risk/service.go:33-73 | a delivered created event adds a risk event if and only if its inbox row is gone |
| MoneyPathTheorems.Serializable | internal/postgres/ledger.go:14-100 | any interleaving of the statements of authorizations, deposits and payments leaves the tables that running the committed ones one by one in commit order leaves |
| MoneyPathTheorems.NeverOverdrawn | internal/postgres/ledger.go:102-127 | in every interleaving, with any hash collisions and any risk events, no customer balance is negative |
| MoneyPathTheorems.AnswersAreAtomic | internal/postgres/funding.go:56-127 | every commit and every refusal of a session is that of the whole operation run alone at that moment; the only other answer is an error, exactly when the inbox row was pruned between the insert that met it and its update; nothing but a commit changes the tables |
| MoneyPathTheorems.NoDeadlock | internal/postgres/funding.go:47-127 | the wait-for graph has no cycle in any reachable state |
| MoneyPathTheorems.SomeoneGoes | internal/postgres/ledger.go:28-61 | following the waits from any session leads to one that can go on |
| MoneyPathTheorems.SessionsDrain | internal/postgres/transaction.go:39-91 | from any sound state the open sessions alone can finish, within a bounded number of statements |
| MoneyPathTheorems.WantsRise | internal/postgres/ledger.go:28-61 | sessions take inbox row, transaction row, balance lock, deposit reference and key in one rising order |
| MoneyPathPipeline.CommitIsPipelineStep | internal/postgres/ledger.go:14-100 | every commit of every session is a step of the pipeline on the same database and keeps the pipeline's whole invariant |
| MoneyPathProofs.AnswersAtomically | internal/postgres/transaction.go:39-91 | what a session knows makes its commit or refusal agree with the atomic operation |
| MoneyPathProofs.LocksProtect | internal/postgres/ledger.go:102-161 | what a session has read stays true while others change only what it has not locked |
| MoneyPathProofs.CommitTouches | internal/postgres/funding.go:47-145 | a commit changes nothing that its session has not locked |
| MoneyPathProofs.AtomicKeepsBooks | internal/postgres/ledger.go:44-79 | no operation, whatever its arguments, unbalances the books or overdraws a customer |
| MoneyPathProofs.NextKeeps | internal/postgres/consumer.go:57-98 | every statement, abort and other commit keeps books, locks and sessions' knowledge sound |
| RequestProofs.OneAnswerPerKey | internal/transaction/service.go:65-131 | however calls interleave, all that succeed under one key get the same answer for the same request |
| RequestProofs.EqualCallsAgree | internal/funding/service.go:91-162 | when one call succeeds, no equal call under its key is ever told of a key or reference conflict |
| RequestProofs.DifferentRequestsConflict | internal/transaction/service.go:78-83 | a different request under a used key never gets the stored answer |
| RequestProofs.ReferencesCreditOnce | internal/postgres/funding.go:74-76 | two successful deposits with the same source, reference and currency used the same key |
| RequestProofs.ProceedOk | internal/funding/service.go:146-161 | each store call of a request leaves an answer that the stored rows justify |
| Requests.ValidPaymentFits | internal/transaction/service.go:133-148 | a validated payment passes every table check, and validating it again changes nothing |
| Requests.ValidDepositFits | internal/funding/service.go:164-184 | a validated deposit passes every table check, and validating it again changes nothing |
| Requests.CheckReason | internal/operations/service.go:136-147 | accepts exactly the reasons of 1 to 256 bytes, trimmed, without control characters |
| Services.CreateTransaction | internal/transaction/service.go:65-131 | with other transactions committing in between, success is the stored answer to this very request and a key conflict means another request is stored |
| Services.DepositFunds | internal/funding/service.go:91-162 | the same for deposits, operator reason included; a reference conflict means the key is not stored |
| Services.MoveToDeadLetter | internal/deadletter/recorder.go:64-88 | whatever statement or publish is lost: success means a stored, marked record and one copy over all successful moves; failure leaves nothing, or a refreshed record and at most one more copy; no other record changes |
| Services.ReplayDeadLetter | internal/operations/service.go:68-114 | with other transactions between its statements and answers lost: a replay begins only with a valid reason on a record that was open and recent when read and unprocessed when checked, and only as the one pending attempt; it sends the recorded message at most once; success means sent, counted and audited once, with an answer that agrees with the stored record; an invalid reason, a missing, an expired and a processed record are told apart exactly, and what is not started sends and writes nothing |
| Services.AnswerAgrees | internal/operations/service.go:111-113 | the state and replay count that a replay reports, from the record it first read, are the stored ones |
| Services.RequeueOutbox | internal/operations/service.go:116-134 | a requeue resets a row that both its look and its update find dead-lettered, audits it and changes nothing else; the three refusals are told apart, exactly, and change nothing; other transactions may commit in between |
| Database.Store.Create | internal/postgres/transaction.go:39-91 | the inserts in order, rolled back on any failure, are one creation or nothing |
| Database.Store.CreateDeposit | internal/postgres/funding.go:34-145 | the inserts, the balance read and the rollback are one deposit or nothing |
| Database.Store.SaveConsumerOutbox | internal/postgres/consumer.go:12-43 | claim and outbox row together or not at all |
| Database.Store.ClaimProcessedEvent | internal/postgres/consumer.go:57-98 | first delivery recorded, repeat refreshed, changed payload refused |
| Database.Store.ProcessRiskEvaluated | internal/postgres/ledger.go:14-100 | the statements of an authorization are one decision or nothing |
| Database.Store.Decide | internal/postgres/ledger.go:44-61 | a debit is posted exactly when the event approves and the balance covers it |
| Database.Store.NextPending | internal/postgres/outbox.go:12-64 | claims the oldest claimable row that is not locked, or none is claimable |
| Outbox.FailuresPark | internal/postgres/outbox.go:83-103 | a pending row takes exactly as many failures as it has attempts left, and the last one alone parks it |
| Outbox.RequeueStartsOver | internal/postgres/outbox.go:191-226 | a requeued row takes the full number of failures again |
| Outbox.LateMarksAreInert | internal/postgres/outbox.go:66-103 | any number of marks by a late holder change no row that is not PROCESSING and no other row |
| DeadLetters.FirstRecordStays | internal/postgres/deadletter.go:26-63 | any number of failures of one message keep the first record and its first failure, and move only the last failure time |
| DeadLetters.FirstMarkStays | internal/postgres/deadletter.go:65-81 | of any number of publication marks the first counts and nothing else changes |
| Database.Store.StartDeadLetterReplay | internal/postgres/deadletter.go:129-170 | fails stale attempts and opens one on an OPEN record without a pending one, or changes nothing |
| Database.Store.FinishDeadLetterReplay | internal/postgres/deadletter.go:172-226 | finishes a pending attempt, and on publication the record and the audit with it, or changes nothing |
| Database.OldestPrunable | internal/postgres/maintenance.go:47-65 | picks the oldest unguarded, unlocked rows up to the batch size, and leaves one only if the batch is full of older ones |
| Database.Store.PruneProcessedEvents | internal/postgres/maintenance.go:33-86 | deletes exactly such a batch, audits it and reports its size |
| DeadLetters.RetentionSettings | internal/maintenance/processed_events.go:48-72 | accepted settings keep rows at least for the replay window, in batches of 1 to 10000 |
| Publishing.Publisher.PublishNext | internal/outbox/publisher.go:38-65 | one claim, one publish and one mark of the oldest claimable row, with every failure in between |
| Publishing.Publisher.PublishAvailable | internal/outbox/publisher.go:67-77 | with successful marks it ends, finishes all rows or spends attempts, and keeps acceptance in order |
| Publishing.Publisher.Drain | cmd/outbox-publisher/main.go:57-67 | polling ends with every row PUBLISHED or DEAD_LETTERED, and no event accepted before an older one that was not parked |
| Publishing.AttemptSpends | internal/outbox/publisher.go:50-63 | each attempt lowers the sum of maximum minus attempts over unfinished rows |
| Publishing.AttemptInOrder | internal/postgres/outbox.go:20-43 | trying the oldest unfinished row keeps the topics in order |
| ConsumerLoop.Retry | internal/consumer/loop.go:74-96 | the exact number of handler calls, at most the maximum, and success exactly if one of them succeeds |
| ConsumerLoop.RunLoop | internal/consumer/loop.go:35-72 | commits are exactly those of resolved messages, calls are bounded, and the watermark skips nothing if and only if no failed dead-lettering is overtaken |
| ConsumerLoop.SkipsExactlyWhenOvertaken | internal/consumer/loop.go:56-71 | for any offsets: nothing below the watermark is unresolved if and only if no unresolved message is followed by a commit in its partition |
| ConsumerLoop.OvertakenRun | internal/consumer/loop.go:57-62 | two messages that show the condition is needed |
| Messages.FirstHeader | internal/deadletter/recorder.go:147-154 | the value of the first header with the key |
| Messages.CloneHeaders | internal/deadletter/recorder.go:156-162 | a fresh slice with the same headers |
| Messages.EncodeHeaders | internal/postgres/deadletter.go:268-274 | the stored form of a header slice, element by element |
| Messages.DecodeHeaders | internal/postgres/deadletter.go:276-286 | a fresh slice whose stored form is the given one |
| Messages.StoredInjective | internal/postgres/deadletter.go:268-286 | the stored form determines the headers in number, order and content |
| Messages.RecordAndReplay | internal/deadletter/recorder.go:90-109 | clone, encode, decode and clone again: the replay equals the consumed message and shares no storage with it |
| Messages.DeadLetterCopyKeepsIdentity | internal/kafkabus/bus.go:60-114 | the headers added for the dead-letter topic never change a message's identity |
| Messages.RecordNamesIdentity | internal/deadletter/recorder.go:90-97 | the record names the inbox identity if and only if the message has an event_id header |
| Messages.PublishedIdentity | internal/kafkabus/bus.go:89-114 | a published row's message carries the row's id |
| Encoding.PaymentTextsDiffer | internal/transaction/service.go:150-159 | validated payment requests have equal pre-hash texts if and only if all fields are equal |
| Encoding.DepositTextsDiffer | internal/funding/service.go:198-208 | the same for deposit requests |
| Encoding.SourceTextsDiffer | internal/deadletter/recorder.go:111-114 | dead-letter id texts are equal if and only if consumer, topic, partition and offset are, for names without NUL |
| Encoding.DigitsRoundTrip | internal/transaction/service.go:150-159 | the decimal text of an amount denotes that amount |
| Pages.ListTransactions | internal/postgres/query.go:33-68 | the newest limit plus one matching rows before the cursor, newest first |
| Pages.List | internal/transaction/query.go:85-118 | refuses exactly the invalid limits, accounts and cursors, and otherwise shows the page of the sorted listing |
| Pages.PagesAreTheListing | internal/transaction/query.go:110-117 | over one snapshot the pages put together are the sorted, filtered listing, and they run out |
| Pages.ShownOnceIffSelected | internal/transaction/query.go:85-118 | while the table changes in any way, a walk shows a row, exactly once, if and only if it is selected when the page that covers it is asked for |
| Pages.FilteredRowIsMissed | internal/postgres/query.go:37-45 | two snapshots in which a row changes status and is never shown |
| Pages.SteadyRowOnce | internal/postgres/query.go:37-45 | a row selected in every snapshot is shown exactly once |
| Pages.EveryRowOnce | internal/postgres/query.go:37-45 | without a status filter, every row there at the start is shown exactly once while rows are added |
| Pages.CursorIsAccepted | internal/transaction/query.go:148-161 | the cursor of a page over rows with real ids and times is accepted by the next request |
| Limiter.RedisLimiter.Allow | internal/redislimiter/limiter.go:37-46 | one increment of this key's counter, with expiry set only when it is created |
| Limiter.LifetimeAdmits | internal/redislimiter/limiter.go:13-19 | a counter's life admits its first requests up to the limit and refuses the rest |
| Limiter.DeadlineStays | internal/redislimiter/limiter.go:13-19 | no request, admitted or denied, moves the deadline of a live counter |
| Limiter.PeakIsExact | internal/redislimiter/limiter.go:37-46 | for every limit, window of at least a millisecond and expiry lag, the most that one window admits: never exceeded by any requests, and reached by some |
| Limiter.AtMostTwiceIffSound | internal/redislimiter/limiter.go:27-46 | no interval of one configured window admits more than twice the limit, if and only if the settings are sound, with times and window in nanoseconds and any window, below a millisecond too |
| Limiter.PartialMillisecond | internal/redislimiter/limiter.go:37-46 | a window of 1.9 ms that admits three times the limit |

## Left out

- HTTP routing, authentication, metrics, health servers, the frontend and the mains, apart from the publisher's polling loop.
- JSON, base64 and regular expressions: documents and cursors are values; fields that encode differently but decode alike are not told apart.
- Stored reasons, error classes and messages, correlation defaults of the HTTP layer: they do not affect the state machines.
- 64-bit overflow of amounts and sums: amounts are unbounded integers.
- Deletion of Kafka logs by retention, and topics other than the five of the pipeline.
- Rows written before the migrations: tables hold only what the modelled operations write.
- Publishing.Publisher.Drain: assumes one publisher whose statements reach the database; with several publishers or a lost mark a row waits for its lease and younger rows may go first.
- Pages.EveryRowOnce: is stated without a status filter, because a status change can take a row out of the listing; ShownOnceIffSelected covers every filter.
- Redis internals: a key goes a fixed number of milliseconds after its deadline; eviction, replication and failover are not modelled.
- Services.MoveToDeadLetter: runs without other transactions between its statements; interleaved moves of one message, and late ones, are steps of the pipeline.
- Services.ReplayDeadLetter: its reads always answer; a failed read writes nothing and is reported.
- FuturesDecide.DecidableIffMovable: starts with no publisher or operator in mid-work and leaves out handlers that outlive their session, either of which may still send or handle a copy.
- MoneyPath treats the prune as committing at once on rows that no session has locked; a prune that waits inside its own transaction is not modelled.

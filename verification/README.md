# Verification of the webhook gateway's protocols

The webhook gateway receives provider events, stores them durably, puts them on a queue, and lets queue
workers analyse them or synchronise a OneDrive drive; results leave through a result outbox. Its correctness
rests on small concurrent protocols over shared tables. This project models those protocols in Dafny, step by
step as the code takes them, and proves what they promise over every run: any number of workers, crashes
between any two steps, redeliveries, lease expiry, lost races, and the timer.

`dafny verify dfyconfig.toml` checks everything.

## How the model is built

- A protocol is a state machine: `Enabled(s, a)` and `Next(s, a)` say what one step between two table, broker
  or clock operations does, `Run(trace, actions)` is any interleaving from the initial state. An Azure Table
  operation is a read step and a conditional write step. Histories (sends, calls, commits) only observe.
- Objects that the code updates in place are classes whose methods are tied to specification functions; their
  loops carry invariants. The properties are lemmas about those functions and about runs.
- `GitHubIntake` and `CursorProtocol` compose others: GitHub intake is built from the quota calls of
  `QuotaProtocol` and the publishing of `Inbox`; OneDrive synchronisation from the rows of `CursorStores`, the
  collapse of `DeltaFeed` and the outbox of `ResultOutbox`.

| file | subject |
|---|---|
| `Prelude`, `Text`, `Places` | stock datatypes, the string operations behind keys, counting places |
| `Events`, `Payloads` | event envelopes, content hashes, the claim-check blob store |
| `DeltaFeed` | following the pages of a delta feed, last-wins collapse, replay |
| `CursorStores`, `CursorHistory` | the memory and Azure cursor stores, the simulation between them, their answers from their past |
| `Outbox` | durable staged records |
| `ResultOutbox`, `ResultWorkers`, `Results` | the result outbox protocol; its workers one by one; private records |
| `CursorProtocol`, `CursorSafety`, `CursorReplay`, `CursorRelease`, `CursorRecovery`, `LateSeeds` | OneDrive synchronisation end to end |
| `Quota`, `QuotaProtocol`, `QuotaSafety`, `QuotaLinear`, `QuotaRuns` | daily quotas: specification, optimistic loop, concurrent calls |
| `Inbox`, `InboxWorkers`, `GitHubIntake`, `GitHubHandlers`, `GitHubRuns` | the durable intake; GitHub deliveries from request to queue |
| `OneDriveBatch` | notification batches |
| `Analysis`, `AnalysisProtocol`, `AnalysisRuns` | checkpointed provider analyses, alone and concurrent |
| `RateLimitedQueue`, `RateLimitedSafety`, `RateLimitedFutures` | the rate-limited request queue |
| `RequestQueue`, `RequestQueueSafety`, `RequestQueueFutures` | the retrying request queue |

## Assumptions

SHA-256 and JSON serialisation are injective; every table write has a fresh etag; clocks are shared and never
run back; a conditional write and a two-row transaction are atomic; drawn UUIDs are fresh (the OneDrive lease
owner is the number of the worker that draws it). The OneDrive cursor is seeded before the first processing
run. `function_app.py:248-250` writes it whatever the row holds by then, so a later seed can move the cursor back
(`LateSeeds.SeedCanMoveBack`) or pass an unpublished change (`LateSeeds.SeedCanSkip`).
Graph is an append-only log of changes and a delta link is a position in it; an expired token lists from the start.

## Where the code does less than one might expect

- A seed written while workers run is safe from being undone if and only if it is the row's own position, or lies beyond
  it in a row that names no lease owner (`LateSeeds.RowDecidesLateSeeds`). Where no owner has read the cursor, or the
  link stays the same, every guarantee of the protocol holds from the seed on (`LateSeeds.LateSeedIsHarmless`). The code
  looks at none of this when it writes.
- Under a shared limit the table quota is linearizable exactly in the runs without a stale refusal, one that finds its
  own event reserved (`QuotaLinear.LinearizableUnlessStale`). That takes overlapping calls for one event, and then can
  happen at every limit (`QuotaRuns.OverlapCanRefuseAcceptedEvent`); where limits differ, another order may explain it
  (`QuotaRuns.UnsharedLimitsMayExplain`). `QuotaLinear.RefusalIsJustified` says which single refusals are justified.
- `max_retries` suffices if and only if it exceeds the shared limit (`QuotaRuns.ExhaustionNeedsTheLimit`). The defaults,
  8 retries and a limit of 100, do not.
- A delivery id with surrounding white space shares the reservation of the trimmed id but is its own inbox record. So
  the limit counts trimmed ids (`GitHubIntake.SpendIsBounded`); `GitHubRuns.DeliveriesThatPassTogether` says exactly
  which deliveries pass together.
- The Azure store may report a record as created and already sent (`Inbox.CreatorMayFindItSent`), exactly when another
  worker has marked it in between (`Inbox.CreatorFindsItSentIfMarked`).
- An envelope with an empty subject or receipt time does not survive serialisation
  (`Events.SerializationRoundTrip`, `Payloads.ClaimCheckRoundTrip`, both exact).
- A second worker per host may start an operation during a backoff (`RequestQueueSafety.SecondWorkerMayNotWait`).
- A request still waiting for a retry when `RateLimitedRequestQueue.close` returns is never settled
  (`RateLimitedSafety.NothingSettlesAfterDrain`), which happens (`RateLimitedSafety.CloseMayStrandARequest`); nor is a
  task still pending when `RequestQueue.close` is called (`RequestQueueFutures.NothingRunsAfterClose`).

## Model

| member | source | states |
|---|---|---|
| `CursorSafety.CommittedChangesArePublished` | function_app.py:590-613 | In every run, each change logged after the seed and before the committed cursor is in an already published result, itself or through a later change to the same item: the cursor never runs ahead of publication. |
| `CursorSafety.PublishedResultsReplayTheLog` | function_app.py:690-719 | Every committed position lies in a published result whose replay on any replica equals replaying the log stretch it reports. |
| `CursorSafety.CursorNeverMovesBack` | src/webhook_gateway/onedrive_sync.py:229-264 | In no run does the committed position ever decrease. |
| `CursorSafety.CommitsAreFenced` | src/webhook_gateway/onedrive_sync.py:229-264 | A commit that writes does so over the very cursor its owner read after its acquire, also when the lease has expired; all writes form one unbroken chain from the seed. |
| `CursorSafety.RunningLeaseRefusesOthers` | src/webhook_gateway/onedrive_sync.py:152-200 | While another owner's lease runs, an acquire fails, leaves the row as it is and ends the run. |
| `CursorSafety.LeaseHolds` | src/webhook_gateway/onedrive_sync.py:202-290 | A lease stays with its owner up to its end whatever is attempted, unless the row is in fact released or its delta committed. |
| `CursorRelease.ResultsNeedTheLease` | src/webhook_gateway/onedrive_sync.py:356-371 | In every run a listed delta becomes a result if and only if its owner still has the lease when it renews it, for another 720 seconds; otherwise `process` fails. |
| `CursorRelease.SyncsBringDeltas` | src/webhook_gateway/onedrive_sync.py:346-368 | In every run the result of a worker that has begun to synchronise is a delta that reports a stretch of the log, collapsed. |
| `CursorRelease.LosersLetGo` | src/webhook_gateway/onedrive_sync.py:266-290 | In every run, who has failed or has abandoned a losing result is never again the owner of the lease, whatever others write meanwhile. |
| `CursorRelease.DeltasAreSettled` | function_app.py:603-613 | In every run a delta is acknowledged, and so marked sent, only after its commit was tried; a delta that lost is left, short of a crash, only by the release of its lease. |
| `CursorRelease.ExpiredTokensListEverything` | src/webhook_gateway/onedrive_sync.py:334-345 | A listing from an expired token replays as all of the log that it lists. |
| `CursorReplay.CommittedDeltasRebuildTheDrive` | function_app.py:590-613 | Each move of the cursor has a published delta that starts no later; replaying these in order from the drive's items at the seed gives the items at the cursor, also where a delta listed anew from the beginning. |
| `CursorSafety.StepKeepsInv` | src/webhook_gateway/onedrive_sync.py:317-385 | Every read, write, crash, publication and timer step keeps the invariant that ties row, snapshots, staged and published results, and cursor together. |
| `CursorRecovery.CursorCanCatchUp` | src/webhook_gateway/onedrive_sync.py:317-385 | From every reachable state and for every event not yet processed, once the lease in force has ended a new worker can publish exactly the changes beyond the cursor, commit, and mark its result sent. |
| `CursorRecovery.PendingDeltasCanBeRecovered` | function_app.py:590-629 | From every reachable state the timer can publish a dispatchable staged result and mark it sent. |
| `CursorRecovery.PlainRunCommits` | src/webhook_gateway/onedrive_sync.py:317-385 | In a drive never synchronised, one event brings the cursor from 0 past the whole log. |
| `LateSeeds.LateSeedIsHarmless` | function_app.py:248-250 | In every run that goes on from a seed written in the middle of a run, no lease owner having read the cursor or the link being the same, the cursor never moves back behind the seed, each change from the seed to the cursor is in a published result, and so is each change before it that was at the write. |
| `LateSeeds.LateSeedCanBeUndone` | function_app.py:248-250 | If a lease owner can still commit a link before the seed - it is listing, has listed, or its result is being staged, is staged or is being dispatched - some run goes on in which the cursor moves back behind the seed. |
| `LateSeeds.RowDecidesLateSeeds` | function_app.py:248-250 | By what the row shows, for every link, owner and position: no run and no continuation brings the cursor before the seed, or before where it stood, if and only if the seed is the row's own position or lies beyond it in a row that names no lease owner. |
| `LateSeeds.SeedCanMoveBack` | src/webhook_gateway/onedrive_sync.py:139-150 | A run in which the drive changes and a worker commits between the listing of the seed and its write, which moves the cursor back. |
| `LateSeeds.SeedCanSkip` | function_app.py:248-250 | A run in which a worker crashes with a listed change that the seed, found missing before, then passes unpublished. |
| `CursorStores.TrueAnswersAreAtomic` | src/webhook_gateway/onedrive_sync.py:152-290 | Under arbitrary interference between read and write, a true answer is the memory operation's at one atomic point and a false one leaves the row unchanged. |
| `CursorStores.UncontendedStepsAgree` | src/webhook_gateway/onedrive_sync.py:134-290 | One undisturbed Azure operation has the memory operation's answer and effect. |
| `CursorStores.StoresAnswerAlike` | src/webhook_gateway/onedrive_sync.py:31-290 | Without contention both stores give the same answers to every operation sequence over a monotone clock. |
| `CursorHistory.AnswersAreThePast` | src/webhook_gateway/onedrive_sync.py:31-87 | Every answer of the memory store from its past answers alone: an acquire is refused if and only if another owner's lease runs, a renewal succeeds if and only if the owner holds the lease, a commit if and only if the owner holds it or this very commit still stands, and the link found is the last one written. |
| `CursorHistory.RepeatedCommit` | src/webhook_gateway/onedrive_sync.py:68-81 | A commit that has succeeded and is repeated, its owner having acquired no new lease, succeeds again and changes nothing if and only if nobody has set a link or acquired the lease since. |
| `CursorHistory.AzureAnswersAreThePast` | src/webhook_gateway/onedrive_sync.py:152-290 | Under interference, from the past of the row as it was read: a commit succeeds if and only if it still stood, and then changes nothing, or its owner held the lease and nobody wrote in between; renewals and releases if and only if the latter; acquires only if no other lease ran and nobody wrote. |
| `CursorStores.MemoryDeltaCursorStore.AcquireLease` | src/webhook_gateway/onedrive_sync.py:47-55 | A lease is refused exactly while another owner's runs; success forgets the last committer; other drives stay. |
| `CursorStores.MemoryDeltaCursorStore.RenewLease` | src/webhook_gateway/onedrive_sync.py:57-66 | Only the present owner renews, even after expiry. |
| `CursorStores.MemoryDeltaCursorStore.CommitLink` | src/webhook_gateway/onedrive_sync.py:68-81 | The dictionaries move as the abstract commit, whose answers `CursorHistory.AnswersAreThePast` characterises; other drives stay. |
| `CursorStores.MemoryDeltaCursorStore.ReleaseLease` | src/webhook_gateway/onedrive_sync.py:83-87 | Releasing drops the owner's own lease only. |
| `CursorStores.MemoryDeltaCursorStore.SetLink` | src/webhook_gateway/onedrive_sync.py:42-45 | An unconditional write of the link that keeps the lease. |
| `CursorStores.AzureTableDeltaCursorStore.AcquireLease` | src/webhook_gateway/onedrive_sync.py:152-200 | With others writing in between, success is the memory acquire on the row as they left it, failure keeps their row. |
| `CursorStores.AzureTableDeltaCursorStore.RenewLease` | src/webhook_gateway/onedrive_sync.py:202-227 | The same for the renewal. |
| `CursorStores.AzureTableDeltaCursorStore.CommitLink` | src/webhook_gateway/onedrive_sync.py:229-264 | With others writing in between, success is the memory commit on the row as they left it, or an already done one on the row as read; `CursorHistory.AzureAnswersAreThePast` says when. |
| `CursorStores.AzureTableDeltaCursorStore.ReleaseLease` | src/webhook_gateway/onedrive_sync.py:266-290 | The same for the release, which tells nothing. |
| `CursorStores.AzureTableDeltaCursorStore.SetLink` | src/webhook_gateway/onedrive_sync.py:139-150 | Merges link and committer into whatever row there is. |
| `ResultOutbox.ResultsAgree` | function_app.py:690-719 | All results ever published under one private id are one envelope, built from the staged winner; a sent result record was published. |
| `ResultWorkers.SentResultsAreLeftAlone` | function_app.py:693-713 | Once a result is marked sent, a worker that looks it up for a redelivered message, or finds it so after staging its own, drops the message: no later step of it processes, publishes or marks anything. |
| `ResultWorkers.PendingResultsAreDispatched` | function_app.py:693-719 | A worker that finds the result pending dispatches the stored winner: each of its later steps but a crash abandons its own losing result, publishes the winner, acknowledges it, and marks it sent, in this order. |
| `ResultWorkers.SentRecordsAreNotTakenUp` | function_app.py:622-629 | Once a record is sent the timer does not pick it, and only a worker that had it in hand before can publish it once more. |
| `ResultWorkers.MarkedCheckpointsAreNotPicked` | src/webhook_gateway/worker.py:132-133 | A checkpoint that the analysis has marked is never picked by the timer. |
| `ResultWorkers.LookupsBeginProcessing` | function_app.py:693-697 | A look at an event without a record begins to process it, and nothing else does. |
| `ResultWorkers.ResultsAnswerTheirEvents` | function_app.py:590-601 | Whatever is published answers an event that has arrived: under its id, with its correlation, receipt time and subject, and with the status and output that a `process` call for that event has returned. |
| `ResultOutbox.NoProcessingAfterWinner` | function_app.py:695-698 | A worker that looks after the winner is staged begins no `process` call. |
| `ResultOutbox.CheckpointsAreNeverPublished` | function_app.py:590-629 | A pending analysis checkpoint picked up by the timer is never published. |
| `ResultOutbox.ResultIdsIdentifyEvents` | function_app.py:590-601 | Events with colon-free sources never share a public result id. |
| `ResultOutbox.PendingResultsCanBeRecovered` | function_app.py:622-629 | From every reachable state the timer can publish a dispatchable winner and mark it sent. |
| `ResultOutbox.SentResultsAreDispatchable` | function_app.py:590-619 | Only dispatchable winners are ever marked sent, so exactly these can be recovered. |
| `ResultOutbox.StepKeepsInv` | function_app.py:590-629 | Every step keeps: published is what the store's winner says, in hand is what is stored, sent implies published. |
| `Results.PrivateRecordRoundTrip` | src/webhook_gateway/worker.py:46-68 | A result survives its private record exactly when it names its event, correlation and status; otherwise reading fails. |
| `Results.PublicResultsHideCheckpoints` | src/webhook_gateway/worker.py:38-50 | Public results are equal exactly when everything but the checkpoint is: nothing else is lost and the checkpoint never leaks. |
| `Results.DispatchableIsAccepted` | src/webhook_gateway/worker.py:52-68 | The outbox dispatches exactly the records that read back; an analysis checkpoint never reads back as a result. |
| `DeltaFeed.PagingIsTransparent` | src/webhook_gateway/onedrive.py:151-168 | Following next links to the first page without one returns all changes in order and its delta link, or the error for a malformed page, a missing delta link or an early end. |
| `DeltaFeed.ListDelta` | src/webhook_gateway/onedrive.py:151-168 | The page loop computes that listing. |
| `DeltaFeed.CollapsePreservesReplay` | src/webhook_gateway/onedrive_sync.py:346-355 | Any replica ends the same whether it replays the collapsed list or all changes in order. |
| `DeltaFeed.CollapsedShape` | src/webhook_gateway/onedrive_sync.py:346-355 | Each item once, none forgotten, and exactly the changes without an id at the end in their order. |
| `DeltaFeed.CollapsedRepresents` | src/webhook_gateway/onedrive_sync.py:346-355 | Each change is represented by one to the same item at its own or a later position. |
| `DeltaFeed.Collapse` | src/webhook_gateway/onedrive_sync.py:346-355 | The dictionary loop computes the collapse. |
| `Quota.AllowMeaning` | src/webhook_gateway/quota.py:69-81 | At most `limit` events pass per repository-day, the answer tells whether the event is in, other repository-days are untouched. |
| `Quota.AnswersAreFinal` | src/webhook_gateway/quota.py:69-81 | Across any sequence of requests, an event that has passed passes ever after under any limit, and a refused one is refused ever after as long as no one asks for the day with a larger limit. |
| `Quota.CaseAndSpaceShareALimit` | src/webhook_gateway/quota.py:27-36 | Which requests are invalid, and that two valid ones are for one repository if and only if the names differ in case and outer white space only. |
| `Quota.MemoryDailyQuota.AllowEvent` | src/webhook_gateway/quota.py:61-81 | The memory quota is the specification after normalising its inputs, and changes nothing on an input error. |
| `Quota.QuotaTable.Submit` | src/webhook_gateway/quota.py:190-215 | The two-row transaction commits exactly when the counter is as read and the event row is new, and keeps the counter equal to the number of events. |
| `Quota.QuotaTable.AllowEvent` | src/webhook_gateway/quota.py:164-225 | The retry loop with interference: what each outcome proves about the table, at least `max_retries` foreign reservations behind an exhaustion, and the specification when undisturbed. |
| `QuotaSafety.CounterCountsEvents` | src/webhook_gateway/quota.py:177-225 | In every interleaving the counter row exists exactly when an event row does and holds their number. |
| `QuotaSafety.LimitHolds` | src/webhook_gateway/quota.py:177-225 | The reservations of a repository-day never exceed a limit its callers share. |
| `QuotaSafety.FailuresAreCharged` | src/webhook_gateway/quota.py:177-225 | Each failed attempt is charged to a commit that another call made during that very attempt; attempts follow each other inside the call, so the commits differ; exhaustion means `max_retries` of them. |
| `QuotaSafety.EachCommitIsOneReservation` | src/webhook_gateway/quota.py:190-215 | The committed transactions of a repository-day are as many as its reservations. |
| `QuotaSafety.RetriesSuffice` | src/webhook_gateway/quota.py:177-225 | With a shared limit below `max_retries` the exhaustion error is unreachable. |
| `QuotaLinear.LinearizableUnlessStale` | src/webhook_gateway/quota.py:164-225 | When callers of a repository-day share their limit, a run is linearizable to the sequential specification if and only if no refusal finds its own event reserved at the counter read; otherwise no order of its answers, in real time or not, explains it. |
| `QuotaLinear.AnswersAreSequential` | src/webhook_gateway/quota.py:164-225 | Without overlapping calls for one event no refusal is stale, and the answers in order are the specification's and end in the table's reservations. |
| `QuotaLinear.AnswersHavePlaces` | src/webhook_gateway/quota.py:164-225 | In every run each answered call has exactly one place among the answers, between its beginning and its end. |
| `QuotaLinear.OrderRespectsRealTime` | src/webhook_gateway/quota.py:164-225 | In every run a call that has its answer precedes every call that begins later. |
| `QuotaLinear.RefusalIsJustified` | src/webhook_gateway/quota.py:177-189 | Under a shared limit, a refusal is the specification's at some moment of the call if and only if the event has no row when the counter is read. |
| `QuotaLinear.OnlyStaleRefusalsDeviate` | src/webhook_gateway/quota.py:164-225 | In any run, with any limits and any overlap, the answers in the order they are given are the specification's if and only if no refusal finds its own event reserved at the counter read. |
| `QuotaRuns.UnsharedLimitsMayExplain` | src/webhook_gateway/quota.py:164-225 | A run with different limits in one repository-day that has such a refusal and is linearizable all the same, by another order in real time. |
| `QuotaRuns.OverlapCanRefuseAcceptedEvent` | src/webhook_gateway/quota.py:177-203 | For every limit, a run in which an overlapping call for an accepted event is refused, against the specification. |
| `QuotaRuns.ExhaustionNeedsTheLimit` | src/webhook_gateway/quota.py:177-225 | For every shared limit and `max_retries`: some run exhausts the retries if and only if the limit is not below `max_retries`. |
| `QuotaRuns.ExhaustionIsReachable` | src/webhook_gateway/quota.py:216-225 | For every `max_retries` up to the limit, the run in which each attempt of one call meets another call's commit. |
| `Outbox.PendingEventsAreTheUnsent` | src/webhook_gateway/idempotency.py:95-99 | The unbounded pending listing is exactly the records not yet sent. |
| `Outbox.ListedIfFewBefore` | src/webhook_gateway/idempotency.py:95-99 | A listing with a limit shows an unsent record if and only if fewer than `limit` unsent records were stored before it. |
| `Outbox.LookupFindsTheWinner` | src/webhook_gateway/idempotency.py:61-85 | Whatever `stage` has answered, `get` finds in every later table, sent if it was; staging any event of the key again changes nothing and answers what `get` finds exactly when its payload is not refused. |
| `Outbox.MemoryIdempotencyStore.Stage` | src/webhook_gateway/idempotency.py:69-85 | Insert if absent; the answer is the winner, an error on a reused payload under the reject policy; no record changes. |
| `Outbox.MemoryIdempotencyStore.MarkSent` | src/webhook_gateway/idempotency.py:87-93 | The state goes to sent, content and order stay, a missing record is an error without effect. |
| `Outbox.MemoryIdempotencyStore.ListPending` | src/webhook_gateway/idempotency.py:95-99 | The first `limit` unsent records in insertion order. |
| `Inbox.StagedRecordsAreDurable` | src/webhook_gateway/intake.py:75-93 | Staged content never changes, state only goes from pending to sent, and a sent record was published. |
| `InboxWorkers.ReadersAreAnswered` | src/webhook_gateway/intake.py:75-93 | Any publisher that reads a record back: it ends if its event differs from the creator's in more than the receipt time, and else answers duplicate if and only if the record was marked sent since its creation, and otherwise sends what was stored; it counts as creator if and only if it created the record. |
| `InboxWorkers.RecordsAreCreated` | src/webhook_gateway/intake.py:85-85 | Every record has a step that created it from the first event of its key to be staged. |
| `InboxWorkers.FinishedPublishersAreSilent` | src/webhook_gateway/intake.py:86-87 | Who has found a duplicate or a reused id never sends or marks anything again. |
| `InboxWorkers.SendersSendTheStored` | src/webhook_gateway/intake.py:88-93 | Who has found an event to send sends this very event once, then marks it, and does nothing else, unless it crashes. |
| `InboxWorkers.SentRecordsAreNotTakenUp` | function_app.py:573-587 | Once a record is sent the timer does not pick it, and only who was sending it before can send it once more. |
| `InboxWorkers.SentEventsStandForEvents` | src/webhook_gateway/payloads.py:60-126 | What is sent stands for the event: it is the event, or its claim check, which redeems exactly under the two envelope conditions; key and message id are the event's. |
| `Inbox.KeysAreEnqueuedOnce` | function_app.py:573-587 | Every send for a (source, id) carries the stored envelope and one message id, and a deduplicating broker enqueues each key exactly once. |
| `Inbox.CreatorFindsItSentIfMarked` | src/webhook_gateway/idempotency.py:254-287 | The creator of a record reads it back as sent, and calls its delivery a duplicate, if and only if the record was marked in between; then another worker marked it and the stored event was sent, and otherwise the creator sends it itself. |
| `Inbox.CreatorMayFindItSent` | src/webhook_gateway/idempotency.py:254-287 | For every event a run in which staging reports created together with sent. |
| `Inbox.PendingRecordsCanBeRecovered` | function_app.py:573-587 | From every reachable state the timer can send a staged event and mark it. |
| `Inbox.StepKeepsInv` | src/webhook_gateway/intake.py:75-93 | Every step of requests, retries, crashes and the timer keeps the inbox and broker invariant. |
| `GitHubIntake.SpendIsBounded` | src/webhook_gateway/intake.py:142-166 | In every run each staged or published delivery is charged to a day of its own repository, and a repository-day is never charged for more than the limit of published deliveries, ids that differ in white space only counting once; nor for more ids, if no two differ so. |
| `GitHubIntake.TrimmedIdsAreToldApart` | src/webhook_gateway/quota.py:27-36 | Ids without surrounding white space never differ in white space only, so for them the bound counts ids. |
| `GitHubIntake.RedeliveryIsFree` | src/webhook_gateway/intake.py:142-149 | A redelivery of a staged record enters the inbox at once, and its handler never calls the quota, for the rest of the run. |
| `GitHubHandlers.TurnedAwayIsFinal` | src/webhook_gateway/intake.py:151-162 | A delivery turned away by the policy, as no valid request, or by the quota's answer reserves and stages nothing, then or later. |
| `GitHubHandlers.PublishersWereLetThrough` | src/webhook_gateway/intake.py:142-166 | A handler enters the inbox, with its delivery, if and only if the delivery was staged already or the quota has allowed it. |
| `GitHubHandlers.RenamedRepositoriesShareALimit` | src/webhook_gateway/intake.py:121-161 | Deliveries that name their repository's id are counted together if and only if the ids agree but for case and outer white space, whatever the repository is called; those without an id go by the name. |
| `GitHubRuns.UntrimmedIdsShareAReservation` | src/webhook_gateway/intake.py:142-166 | Whatever the limit, any number of deliveries of one repository whose ids trim to one text can be published on one reservation. |
| `GitHubRuns.DeliveriesThatPassTogether` | src/webhook_gateway/intake.py:142-166 | Deliveries with different ids can all be published and charged to one repository-day if and only if each names that repository and has an id that is not blank, and their trimmed ids are no more than the limit. |
| `GitHubIntake.StepKeepsInv` | src/webhook_gateway/intake.py:142-166 | Every interleaved step of handlers, quota calls, inbox and timer keeps: whoever publishes is paid for, within the limit. |
| `OneDriveBatch.OneDrive` | src/webhook_gateway/intake.py:268-352 | An invalid notification means the first error and no send; otherwise the batch's events are sent in order, all of them or those before the first refusal. |
| `OneDriveBatch.Grouped` | src/webhook_gateway/intake.py:282-325 | Validation and grouping: one group per (subscription, kind) in first-seen order, opened by its first notification, counting all. |
| `OneDriveBatch.BatchIsConserved` | src/webhook_gateway/intake.py:282-352 | Exactly one event per (subscription, kind): `drive.updated` exactly for signals without a lifecycle event and otherwise `drive.lifecycle.` with it; subscription, resource, tenant, change type and subject are those of the first signal, or the expected ones; and the notification counts sum to the batch length. |
| `OneDriveBatch.GroupingIsUnique` | src/webhook_gateway/intake.py:307-325 | A batch has exactly one grouping, order included. |
| `OneDriveBatch.KeysIdentifySignals` | src/webhook_gateway/intake.py:314-315 | Keys are equal exactly when subscription and lifecycle event are. |
| `OneDriveBatch.NotificationsAreJudged` | src/webhook_gateway/intake.py:290-313 | A notification is rejected for its form, its client state, or the first of its faults, and is valid without any; valid ones are read field by field. A lifecycle event needs no resource. |
| `Analysis.ValidationIsStable` | src/webhook_gateway/analysis.py:81-105 | A validated analysis validates to itself, and always asks for human approval. |
| `Analysis.ValidationAcceptsSpellings` | src/webhook_gateway/analysis.py:81-105 | A dictionary is accepted exactly if it spells an analysis, with untrimmed texts and any flag; that one is returned, marked for approval. |
| `Analysis.CheckpointsNameTheirProvider` | src/webhook_gateway/worker.py:137-141 | A checkpoint is read for a provider exactly if it names this provider and a model, and spells the analysis. |
| `Analysis.CheckpointsCarryTheirEvent` | src/webhook_gateway/worker.py:118-131 | A checkpoint goes by its event's id, correlation, receipt time and subject, and reads back as the answer. |
| `Analysis.InterpretationIsFaithful` | src/webhook_gateway/worker.py:128-141 | A provider's own checkpoint reads back as the very analysis it returned. |
| `Analysis.CheckpointIdsAreInjective` | src/webhook_gateway/worker.py:117-120 | Checkpoint ids of colon-free sources and providers never clash, whatever the event id holds. |
| `Analysis.Checkpointed` | src/webhook_gateway/worker.py:116-127 | One provider: called exactly when nothing is staged, its answer staged, the record marked sent. |
| `Analysis.Analyze` | src/webhook_gateway/worker.py:112-142 | The loop returns what the stored checkpoints say in provider order, and calls just the providers without one; it stops only at a provider that fails or at a checkpoint that is not its analysis. |
| `AnalysisProtocol.CompletedRunsAgree` | src/webhook_gateway/worker.py:112-142 | All completed runs for one event under a fixed routing, concurrent or after crashes, return the same list: one analysis from each provider it is routed to, in order. |
| `AnalysisRuns.CompletedRunsAreSettled` | src/webhook_gateway/analysis.py:271-281 | A completed run has read one analysis of each provider that its event asks for - the chosen one, all of them for "both", or the default - and each of their checkpoints is marked sent, for good. |
| `AnalysisRuns.NewRunsCanComplete` | src/webhook_gateway/worker.py:112-142 | From every reachable state, where the stored checkpoints of an event are sound and its providers answer, a new run can complete; an event routed nowhere fails at once. |
| `AnalysisProtocol.StagedProvidersAreNotCalled` | src/webhook_gateway/worker.py:112-142 | A run that looks after a provider's checkpoint is staged does not call that provider. |
| `AnalysisProtocol.AnalysesBelongToTheEvent` | src/webhook_gateway/worker.py:112-142 | A completed run's analyses come from calls made for this event and these providers, and a provider's validated answer is returned as it was given. |
| `Events.SerializationRoundTrip` | src/webhook_gateway/events.py:28-64 | An envelope survives serialisation exactly when its receipt time is set and its subject is not the empty text. |
| `Events.MissingFieldsDefault` | src/webhook_gateway/events.py:35-58 | A field left out is read as its default, or refused if required. |
| `Events.OnlyObjectsAreRead` | src/webhook_gateway/events.py:35-58 | Data or metadata that are no objects are refused. |
| `Events.PayloadHashIgnoresReceiptTimeOnly` | src/webhook_gateway/events.py:67-73 | Two envelopes hash alike exactly when they differ at most in their receipt time. |
| `Payloads.ClaimCheckRoundTrip` | src/webhook_gateway/payloads.py:60-126 | After any further uploads a claim check redeems to its envelope exactly when that has a receipt time and no empty subject. |
| `Payloads.PrepareIsIdempotent` | src/webhook_gateway/payloads.py:60-63 | Preparing a pointer changes neither it nor the store; preparing keeps everything but the data and the flag. |
| `Payloads.UnflaggedIsItself` | src/webhook_gateway/payloads.py:55-58 | An envelope whose metadata do not carry the flag is no claim check, whatever its data: it resolves to itself and is uploaded in full. |
| `Payloads.SourcesAreMadeSafe` | src/webhook_gateway/payloads.py:74-75 | The source's part of a blob name is never empty, of lower-case letters, digits and inner dashes, ignores case, and is the source itself if that is so. |
| `Payloads.UploadsNeverOverwrite` | src/webhook_gateway/payloads.py:77-82 | Whatever is stored, no upload replaces it. |
| `Payloads.StoredBlobsMatchTheirNames` | src/webhook_gateway/payloads.py:64-98 | After any history every blob hashes to the digest in its name and in its metadata. |
| `Payloads.HistoryKeepsStore` | src/webhook_gateway/payloads.py:60-107 | No upload ever changes a stored blob. |
| `Payloads.AzureBlobEventPayloadStore.Prepare` | src/webhook_gateway/payloads.py:60-107 | Uploads once under the content's name and returns the pointer; the integrity error cannot occur. |
| `Payloads.ResolvedIsAuthentic` | src/webhook_gateway/payloads.py:109-126 | A pointer is redeemed if and only if it names, by digest, a blob of this container that an envelope of its own id and source has uploaded; what comes back is that envelope. |
| `RateLimitedSafety.RequestsAreConserved` | infra/queue/request_queue.py:116-226 | An unsettled, uncancelled request is in exactly one place; calls in flight per host stay within the limit; `completed` counts the results and `total_enqueued` the requests. |
| `RateLimitedSafety.SettledOnce` | infra/queue/request_queue.py:203-226 | A settled or cancelled future never changes again. |
| `RateLimitedFutures.FuturesTellTheOutcome` | infra/queue/request_queue.py:152-226 | The caller of an uncancelled request gets a result if and only if a call has succeeded, an exception if and only if one has raised; until then the request is in exactly one place, and afterwards in none. |
| `RateLimitedFutures.CancelledIsNotCalled` | infra/queue/request_queue.py:158-161 | A request cancelled while queued or asleep is never called again. |
| `RateLimitedFutures.AttemptsCountTheLimits` | infra/queue/request_queue.py:53-60 | Wherever a request is, its attempt is the number of its rate-limited outcomes. |
| `RateLimitedFutures.CloseStopsEachWorkerOnce` | infra/queue/request_queue.py:108-114 | However often `close` is called, the sentinels queued and the workers that have left are together as many as there were workers. |
| `RateLimitedSafety.CloseDrainsTheQueue` | infra/queue/request_queue.py:108-114 | Once `close` of a started queue has returned, every request was settled, cancelled, or has received a rate-limited outcome; it is pending if and only if it was not cancelled and still waits, asleep or queued. |
| `RateLimitedSafety.NothingSettlesAfterDrain` | infra/queue/request_queue.py:196-201 | After that nothing is settled any more: a request still pending can only be cancelled. |
| `RateLimitedSafety.CloseMayStrandARequest` | infra/queue/request_queue.py:108-114 | For any number of workers and any host limit, a run in which `close` returns while a request waits for its retry. |
| `RateLimitedSafety.StepMovesPlaces` | infra/queue/request_queue.py:152-201 | Steps move requests between places; none is lost or copied. |
| `RequestQueueSafety.WorkIsBounded` | infra/queue/request_queue.py:357-395 | Each task's operation runs at most max(1, max_attempts) times, and all tasks together no more than their budgets. |
| `RequestQueueFutures.FuturesTellTheOutcome` | infra/queue/request_queue.py:357-395 | The caller of an uncancelled task gets a result if and only if an operation has succeeded, and an exception if and only if one has raised or was rate-limited as the last that the task may start. |
| `RequestQueueFutures.FuturesSettleOnce` | infra/queue/request_queue.py:357-395 | A settled or cancelled future stays as it is. |
| `RequestQueueFutures.PendingTasksAreKept` | infra/queue/request_queue.py:347-403 | While the queue is open, an uncancelled task has no outcome if and only if it is in exactly one place, queued, delayed or with a worker. |
| `RequestQueueFutures.TakersWaitForTheLatest` | infra/queue/request_queue.py:375-410 | For any number of workers: a backoff's delay is that of its place among those since the last success, and a worker takes the oldest task and waits until the last of these ends, no longer. |
| `RequestQueueFutures.NothingRunsAfterClose` | infra/queue/request_queue.py:418-427 | Once the queue is closed nothing starts and no future is settled: what is pending can only be cancelled. |
| `RequestQueueSafety.StepSpendsBudget` | infra/queue/request_queue.py:347-403 | The measure over all tasks falls by one with each operation started and rises only when a task is enqueued. |
| `RequestQueueSafety.SingleWorkerWaits` | infra/queue/request_queue.py:375-410 | With the default single worker no operation starts before any earlier backoff's time plus its jittered, capped delay. |
| `RequestQueueSafety.SecondWorkerMayNotWait` | infra/queue/request_queue.py:347-410 | With any larger number of workers, and any positive base and cap, there is a run that starts an operation before that deadline. |
| `RequestQueueSafety.DelaysGrow` | infra/queue/request_queue.py:375-386 | Delays of backoffs in a row never shrink, double up to the cap, reach what the header asks unless capped, and never exceed the cap. |

## Left out

- HTTP routes, Azure SDK, Graph and model calls, SQL text, environment settings and logging: I/O, replaced by tables, logs and parameters.
- Signatures, HMAC and origin checks: requests are taken as verified; the client-state verdict is a parameter.
- `sanitize_for_model`, `event_prompt` and `_safe_drive_item`: text truncation and redaction.
- Page items that are no objects: dropped before `DeltaFeed.Page`.
- `EventProcessor._analyze` without a processing store, and OpenAI callbacks: no checkpoints are involved.
- `src/github_client`: a thin retry wrapper.
- `GitHubAdmissionPolicy.evaluate`: one decision table; its verdict is a parameter of the `Admit` step. The repository it names is the one in the event's metadata.
- GitHub intake without policy or quota: only the configured case is modelled.
- Generic, OpenAI and Anthropic intakes: they only build an envelope for `Inbox`.
- OneDrive subscription seeding, repair and renewal: the first seed is part of the initial state, a later one a write of the row (`LateSeeds`).
- LateSeedCanBeUndone: goes one way for a given state; the exact condition is in what the seeder can see, the row (`LateSeeds.RowDecidesLateSeeds`).
- The OneDrive batch of a deployment without direct sends: then each event goes through `Inbox`.
- The SQLite and Azure idempotency stores: modelled as the table operations `Created` and `MarkedSent` that they share.
- Liveness: recovery is shown to be possible from every state, not to happen; `pending(limit=100)` shows a record only
  when fewer than 100 unsent ones stand before it (`Outbox.ListedIfFewBefore`).
- Consumers that replay results out of order: no claim that they converge.
- Claim checks inside `ResultOutbox` and `Inbox`: that a resolved envelope is the stored one is `Payloads.ClaimCheckRoundTrip`.
- Parsing of retry headers and the tests for a rate-limited response: the outcome of a call is a parameter.
- `RateLimitedRequestQueue` host backoff: its sleeps only delay steps; it is not rechecked after the semaphore wait, so nothing is claimed about it.
- A second `close` while the first still waits, and request functions that raise `CancelledError`.
- `RequestQueue` with several hosts: hosts share nothing but the closed flag, so one host is modelled; `close` takes effect on its workers at once.
- Unicode case folding and white space: `Quota.CaseFold`, `Payloads.SafeSource` and `Text.Strip` cover ASCII; JSON values other than text become text by a parameter.
- The syntax checks on blob names and hashes in a claim check: references are typed values.
- A broker's deduplication window: taken as unlimited.
- DeltaFeed.ListDelta: does not follow a recovery url; an expired token lists from the start in `CursorProtocol`.
- Inbox.KeysAreEnqueuedOnce: sources are free of the NUL that separates source and id in a message id.

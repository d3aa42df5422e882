# Verification of the GoCourier delivery pipeline

GoCourier takes notification requests, stores them, and delivers each one through a
provider. The path of a delivery runs through an ingest transaction, an outbox, a broker
that redelivers, several dispatch workers, a scheduler for later deliveries, and replays
of dead ones. Nothing is locked. What keeps the parts from treading on each other is a
write-once key row, a compare-and-swap on the status column, and the status checks of the
delivery object; every later write is unguarded.

This project models that pipeline as one interleaved state machine in which every
statement, broker call and provider call is one action of one process, every call can fail
(with or without effect), and every process can crash between two calls. It proves what
holds in all runs. Where one of the main promises needs an assumption about the deployment
(effectively-once, exclusive ownership, the edges of the status machine, that no work is
lost), it proves that the assumption is exactly what is needed. The services themselves are written as
imperative code over that machine and proved to be processes of it.

`dafny verify dfyconfig.toml` checks everything.

## How the files fit together

| file | contents |
|---|---|
| `Notification.dfy` | the delivery record, its status machine, the `Delivery` class |
| `Routing.dfy` | subjects: printing, parsing, enumeration, filters |
| `Protocol.dfy` | the state machine: tables, broker, program counters, actions, runs |
| `Frames.dfy` | what a step of one kind of process leaves alone |
| `Safety.dfy` | the inductive invariant of all runs |
| `Guarantees.dfy` | what follows: effectively-once, ownership, the status machine, no early send, orphans |
| `Answers.dfy`, `Requests.dfy` | what ingest clients are told, and that what is stored is what they asked for |
| `Columns.dfy` | which columns a step changes, and what errors and attempts say |
| `Carriers.dfy` | no work is lost: what carries an unfinished delivery on |
| `Progress.dfy`, `Endings.dfy` | exactly which deliveries can still be finished, in every reachable state |
| `Exactness.dfy`, `Overwrites.dfy`, `Losses.dfy` | the assumptions are needed: runs that break each promise without them |
| `Attempts.dfy`, `Retries.dfy`, `Redelivery.dfy`, `Backoff.dfy` | attempt rows, retry termination, deliveries of a message, the delay arithmetic |
| `Staleness.dfy` | stale retry counts, and where the retry limit stops to hold |
| `Publishing.dfy`, `Draining.dfy` | when a delivery is published once; repeated flushes with rows that cannot be published |
| `Promotions.dfy`, `Dispatches.dfy`, `Replays.dfy` | what a tick of the scheduler, a dispatch and a replay do when nothing else happens |
| `Repositories.dfy`, `Runtime.dfy`, `Services.dfy` | repositories, the surroundings of a process, and the services |
| `CircuitBreaker.dfy` | the circuit breaker |
| `LoadTest.dfy` | the load tester's requests and runners |
| `Consumers.dfy` | durable names of the workers |
| `Wrappers.dfy`, `Sets.dfy` | `Option`, facts about finite sets |

## Assumptions about the deployment

`Protocol.Config` carries three conditions that the code does not enforce:

- `oneScheduler`: one scheduler instance (stated in docs/analysis/tradeoffs.md:14).
- `serialReplays`: no two overlapping replays of the same delivery.
- `exclusiveHold`: a copy of a message is not redelivered while a worker still handles it
  (the acknowledgement wait is longer than a dispatch).

`Safety.Sound` is the first two together; a deployment is called sound if it has both.
`Carriers.Holding` is one scheduler, with copies held exclusively or a retry limit of one.
`Carriers.Live` asks for a consumer and a batch that is not empty. Ids are fresh and the
clock does not go back. Theorems that do not name a condition hold for every deployment.

## Findings

- Effectively-once fails, without any crash or lost write that would strand a delivery, as
  soon as two schedulers run or two replays of one delivery overlap: the provider accepts the
  same delivery twice (`Exactness.TwoSchedulers`, `Exactness.OverlappingReplays`). So do
  exclusive ownership, the edges of the status machine and the finality of a success: the
  late write of the second scheduler or replay finds anything at all (`Overwrites`).
- An expired idempotency key is refused and creates nothing; docs/analysis/tradeoffs.md:15
  says that keys are reusable after expiry (`Answers.SoloIngestOutcome`).
- In a sound deployment a delivery whose worker crashes while processing stays in that status
  for ever, whatever is redelivered; tests/failure/failure_test.go:15-38 expects the opposite
  (`Guarantees.CrashOrphans`, `Guarantees.OrphanForever`). More generally,
  `Endings.FinishableExactly` says of every reachable state which deliveries can still be
  finished, whatever has failed before.
- If a message is redelivered to a consumer while a worker still handles it, the second
  worker loses the compare-and-swap and acknowledges the copy that the first one needs for
  its retry, and the delivery is never finished (`Losses.LostWithoutExclusiveHold`). A second
  scheduler can lose a delivery as well: its late promotion queues a delivered one again, and
  the publisher marks the new outbox row without a message (`Losses.LostToSecondScheduler`).
  Overlapping replays, and shared copies where nothing is ever retried, lose nothing
  (`Losses.NoWorkIsLostExactly`).
- A scheduler that stops after storing a promotion but before marking it processed leaves a
  scheduled row that is fetched and skipped on every tick. Fewer of them than a batch do no
  harm; a batch of them holds up all later deliveries for ever
  (`Endings.FinishableUnlessJammed`, `Losses.JamHappens`).
- With a retry limit of three or more the compare-and-swap can write back an older retry
  count, and a delivery can be dispatched more often than the limit allows, even where each
  copy is held by one worker; with a limit of two or less neither can happen (`Staleness.ClaimsKeepCountExactly`,
  `Staleness.DispatchLimitExactly`).
- No attempt row is ever stored as a success (`Attempts.PersistedAttemptsNeverSucceed`).
- With one row a delivery, which one scheduler ensures, an outbox row is held up for ever by
  rows that cannot be published exactly if a batch of them is before it
  (`Draining.PublishedExactly`).
- A delivery can reach the broker twice from one outbox row as soon as there is a second
  publisher, or the reply to a publish or the mark after it can be lost, or a publisher can
  stop between the two (`Publishing.PublishedOnceExactly`).
- From the sixty-fourth attempt on the backoff panics whatever its settings
  (`Backoff.PanicsWhateverTheSettings`); the dispatcher never gets there with settings that fit
  (`Attempts.BackoffIsInRange`).

## Model

| member | source | states |
|---|---|---|
| `Guarantees.EffectivelyOnce` | internal/application/dispatch/service.go:97-162 | in every reachable state of a sound deployment, at most one provider call that returned success exists per idempotency key and channel, whatever crashes, redeliveries, failures and replays occurred |
| `Exactness.EffectivelyOnceExactly` | docs/adr/004-effectively-once.md:9-19 | effectively-once holds in all runs if and only if there is one scheduler and replays of a delivery do not overlap |
| `Exactness.TwoSchedulers` | internal/application/scheduler/service.go:78-106 | with two schedulers a run without stranding failures ends with two accepted calls for one key |
| `Exactness.OverlappingReplays` | internal/application/dispatch/service.go:280-312 | so it does with two replays that both read a dead delivery before either writes |
| `Exactness.OneOutboxRowExactly` | internal/application/scheduler/service.go:78-106 | no delivery ever gets a second outbox row, in all runs with crashes and restarts, if and only if there is one scheduler |
| `Guarantees.OneDeliveryPerKey` | internal/adapters/postgres/delivery_repo.go:187-206 | in every reachable state two deliveries with one key and channel are the same delivery |
| `Guarantees.OwnersAreExclusive` | internal/application/dispatch/service.go:118-125 | in a sound deployment at most one worker is between its successful compare-and-swap and its final write |
| `Guarantees.FinalWriteFindsOwnClaim` | internal/application/dispatch/service.go:160-194 | in a sound deployment the unguarded final update finds the row as the worker's own claim wrote it, and moves it along an edge of the status machine |
| `Guarantees.OwnedRowIsStable` | internal/adapters/postgres/delivery_repo.go:51-61 | in a sound deployment no action of another process changes the row of a delivery that a worker owns |
| `Guarantees.StatusChangesAreEdges` | internal/domain/notification/delivery.go:71-137 | in a sound deployment every persisted status change is an edge of the status machine, and only a replay leaves a terminal status, namely dlq |
| `Guarantees.UnusedStatuses` | internal/domain/notification/status.go:5-15 | failed, cancelled and rejected are never stored, in any deployment |
| `Guarantees.SucceededForever` | internal/application/dispatch/service.go:102-105 | in a sound deployment a row once stored as succeeded never changes again in any continuation |
| `Overwrites.OwnersAreExclusiveExactly` | internal/application/dispatch/service.go:118-125 | no two workers ever own one delivery if and only if the deployment is sound |
| `Overwrites.FinalWritesExactly` | internal/adapters/postgres/delivery_repo.go:42-49 | every unguarded final update finds the row of its own claim if and only if the deployment is sound |
| `Overwrites.OwnedRowsAreStableExactly` | internal/adapters/postgres/delivery_repo.go:42-49 | no action changes a row that another worker owns if and only if the deployment is sound |
| `Overwrites.EdgesExactly` | internal/domain/notification/delivery.go:71-137 | every persisted status change is an edge of the status machine if and only if the deployment is sound |
| `Overwrites.SucceededForeverExactly` | internal/application/dispatch/service.go:102-105 | succeeded rows never change again if and only if the deployment is sound |
| `Guarantees.NoEarlySend` | internal/domain/notification/delivery.go:139-141 | no provider call precedes its delivery's scheduled time, in any run of any deployment |
| `Requests.NothingIsSentEarly` | internal/application/ingest/service.go:89-94 | for every provider call of a run there is a request that a client made in it, with the contents of the delivery, whose time had come |
| `Requests.RowsAreRequested` | internal/domain/notification/delivery.go:42-69 | every stored row of a run has the key, priority and scheduled time of a request that a client looked up in it, and was created at that time |
| `Requests.CommitStoresTheRequest` | internal/adapters/postgres/delivery_repo.go:155-236 | a commit of a new key stores the row of such a request with no retries and no error, pending if its time is still to come and queued if not, its key row to expire a time to live later, and one scheduled row for that time or one outbox row under its channel and priority, and nothing else |
| `Requests.SoloIngestStores` | internal/application/ingest/service.go:58-133 | so does a request by itself whose key is new |
| `Requests.KeysExpireInTime` | internal/application/ingest/service.go:109 | in every reachable state a key expires the time to live after its delivery was created |
| `Requests.AnswersWithinTheTimeToLive` | internal/application/ingest/service.go:70-124 | a key is refused only once the time to live is over; until then every answer accepts it and names its one delivery |
| `Requests.DuplicatesInTime` | internal/adapters/postgres/delivery_repo.go:74-89 | in every reachable state a request for a used key is a duplicate within the time to live of its delivery, and refused after it |
| `Guarantees.MessagesAreAddressed` | internal/application/scheduler/service.go:90-101 | a broker message never refers to a pending delivery, and its subject parses back to the delivery's channel and priority |
| `Guarantees.PublishedReachedBroker` | internal/application/outbox/publisher.go:62-93 | an outbox row is marked published only if a message for its delivery is on the stream, for any number of publishers and crashes |
| `Guarantees.NoSecondOutboxRow` | internal/adapters/postgres/delivery_repo.go:208-225 | with one scheduler two outbox rows are never for the same delivery |
| `Guarantees.CommitYieldsExactlyOne` | internal/adapters/postgres/delivery_repo.go:208-225 | a commit that inserts leaves exactly one of a queued delivery with an outbox row and a pending delivery with a scheduled row |
| `Guarantees.RetryCountBound` | internal/application/dispatch/service.go:183-193 | stored retry counts and those of all worker snapshots, however stale, stay below max(1, maxAttempts) |
| `Guarantees.OrphanForever` | internal/domain/notification/delivery.go:80-91 | in a sound deployment a delivery in processing without an owner stays so in every continuation and is never sent again |
| `Guarantees.CrashOrphans` | tests/failure/failure_test.go:15-38 | in a sound deployment a crash of the owner makes such an orphan |
| `Guarantees.OnlyOwnersSend` | internal/application/dispatch/service.go:118-150 | the provider is called only by a worker that owns the delivery |
| `Safety.StepKeepsInv` | internal/application/dispatch/service.go:90-250 | every action of every process keeps the whole invariant, in every deployment |
| `Safety.ReachableInv` | internal/application/dispatch/service.go:90-250 | the invariant holds in every reachable state |
| `Answers.AnswersAgree` | internal/application/ingest/service.go:70-124 | any two acceptances of a key name the same delivery, and one of them at most is not marked duplicate |
| `Answers.AnswersAreRight` | internal/application/ingest/service.go:70-124 | every answer is about a registered key; an acceptance names the key's delivery, and a refusal was decided at a time when the key had expired |
| `Answers.ExactlyOneWinner` | internal/application/ingest/service.go:70-124 | when no client gave up and all are answered, a registered key has exactly one non-duplicate acceptance and all other answers are duplicates of it or, after expiry, refusals |
| `Answers.SoloIngestOutcome` | internal/adapters/postgres/delivery_repo.go:74-89 | a request creates a delivery exactly if its key was never used, is a duplicate exactly if the key is unexpired, and is refused without effect exactly if the key has expired |
| `Carriers.NoWorkIsLost` | internal/application/dispatch/service.go:118-125 | with one scheduler, and copies held by one worker at a time or nothing retried, in runs in which no process fails where a delivery depends on it alone, every unfinished delivery has a carrier: a scheduled row, an open outbox row, an owner, a replay or promotion under way, or a copy that will come back |
| `Losses.NoWorkIsLostExactly` | internal/adapters/nats/broker.go:121-152 | in all runs without stranding failures every delivery has a carrier, if and only if there is one scheduler and either a copy is held by one worker at a time or the retry limit is at most one; and exactly then every delivery but a pending one can always still be finished |
| `Losses.LostToSecondScheduler` | internal/application/outbox/publisher.go:63-75 | with two schedulers a run without stranding failures in which the late promotion queues a delivered delivery again and the publisher marks its second outbox row without publishing, after which no run whatever finishes it |
| `Losses.LostWithoutExclusiveHold` | internal/application/dispatch/service.go:118-125 | where copies are shared and the retry limit is two or more, a run without stranding failures in which the loser of the compare-and-swap acknowledges the copy that the retry needs, after which no run whatever finishes the delivery |
| `Endings.FinishableExactly` | internal/application/dispatch/service.go:90-250 | in every reachable state of a sound deployment, after any failures, some run finishes a delivery if and only if it is alive: pending with the scheduler about to come to it or fewer stuck rows than a batch before it; claimable with an outbox row, publish, promotion, replay, copy or contender to move it; or owned by a worker that will not just store it for a retry that never comes. Then a run without further stranding or jamming failures does it |
| `Endings.FinishableUnlessJammed` | internal/adapters/postgres/scheduled_repo.go:27-34 | in the deployments of `Carriers.NoWorkIsLost`, after any run without stranding failures, however often the scheduler has crashed, a delivery can be finished if and only if it is not pending, or wanted by the scheduler, or fewer rows than a batch are stuck before it |
| `Endings.CrashCostsTheOwned` | internal/domain/notification/delivery.go:80-91 | after such a run in a sound deployment the crash of a worker takes away the end of exactly the delivery it owns |
| `Endings.EveryDeliveryCanFinish` | internal/application/dispatch/service.go:90-250 | in the same deployments, after any run without stranding or jamming failures, some continuation, itself without them, brings any given delivery to succeeded or dlq |
| `Endings.JammedForever` | internal/adapters/postgres/scheduled_repo.go:27-34 | with one scheduler a delivery behind a full batch of promoted but unmarked scheduled rows is never promoted, in any continuation |
| `Losses.JamHappens` | internal/application/scheduler/service.go:84-106 | for every size of a batch such a state is reachable, with as many scheduler crashes and nothing stranded, and, if there is one scheduler, the delivery behind is never finished |
| `Staleness.RetryCountCanFall` | internal/adapters/postgres/delivery_repo.go:51-61 | with a limit of three or more, and a single consumer or several, a claim can take the stored retry count from the last value below the limit to one |
| `Staleness.ClaimsKeepCountExactly` | internal/adapters/postgres/delivery_repo.go:51-61 | in a deployment of any kind no claim of any reachable state changes a stored retry count if and only if the limit is two or less |
| `Staleness.TooManyDispatches` | internal/application/dispatch/service.go:118-194 | with a limit of three or more a sound deployment has a run without replays that dispatches a delivery more often than the limit |
| `Staleness.DispatchLimitExactly` | internal/application/dispatch/service.go:118-194 | in a sound deployment the limit bounds the dispatches between replays in all runs if and only if it is two or less |
| `Attempts.PersistedAttemptsNeverSucceed` | internal/application/dispatch/service.go:159-163 | in every reachable state all attempt rows are unsuccessful and numbered within the retry limit |
| `Columns.AttemptsTell` | internal/application/dispatch/service.go:141-194 | in every reachable state an attempt row has finished, not before it started, or, being that of a success, is stored unfinished and without an error |
| `Columns.SuccessHasNoError` | internal/domain/notification/delivery.go:98-105 | in every reachable state of any deployment a succeeded row has no error |
| `Columns.RowsChange` | internal/adapters/postgres/delivery_repo.go:42-61 | in a sound deployment a stored row changes only in its status, its time stamp and these columns: a replay resets the retry count, a claim may write back an older count and error, a success clears the error, a retry counts and gives an error, a dead letter gives an error |
| `Attempts.BackoffIsInRange` | internal/application/dispatch/service.go:193-206 | whenever a worker comes to the backoff it is called with 1 .. maxAttempts - 1, and with settings that fit it returns a delay in [m, m + m/2) |
| `Backoff.DelayInRange` | pkg/retry/backoff.go:8-18 | if base * 2^(n-1) and 1.5 * max fit in 64 bits the delay exists and lies in [m, m + m/2) for m = min(base * 2^(n-1), max) |
| `Backoff.EarlyAttemptsAreFirst` | pkg/retry/backoff.go:9-15 | attempt numbers below one count as the first, whose clamped delay is the base or the maximum |
| `Backoff.EveryDelayOccurs` | pkg/retry/backoff.go:16-17 | every value in that range is the delay of some draw |
| `Backoff.CeilingGrows` | pkg/retry/backoff.go:12-15 | m does not decrease with the attempt number |
| `Backoff.ClampedIsCeiling` | pkg/retry/backoff.go:12-15 | within the bound the wrapping product is the true one |
| `Backoff.PanicsExactly` | pkg/retry/backoff.go:16 | corollary: the random generator panics if and only if the clamped delay is below two |
| `Backoff.LateAttemptsPanic` | pkg/retry/backoff.go:12 | from attempt 64 on it always panics, the shift being the sign bit or zero |
| `Backoff.PanicsWhateverTheSettings` | pkg/retry/backoff.go:8-18 | an attempt number panics with all settings and draws if and only if it is 64 or more |
| `Retries.RetryTermination` | internal/application/dispatch/service.go:132-194 | in a sound deployment with one worker that does not crash and whose writes succeed, a round of a delivery has at most max(1, maxAttempts) dispatches, attempts numbered 1..n, and after that many the delivery has succeeded or is dead |
| `Retries.TotalAttemptBound` | internal/application/dispatch/service.go:280-297 | in such runs all attempt rows of a delivery together number at most max(1, maxAttempts) * (1 + replays) |
| `Redelivery.DeliveriesOfACopy` | internal/adapters/nats/broker.go:122-128 | if moreover the worker's reads succeed, no copy of a message is delivered more than (max(1, maxAttempts) - 1) * (1 + replays) + 1 times, so without replays a MaxDeliver of the retry limit suffices |
| `Retries.StepTracks` | internal/application/dispatch/service.go:175-250 | every step of such a run keeps claims, retry count and attempt numbers of a round in agreement |
| `Publishing.EachDeliveryPublishedOnce` | internal/application/outbox/publisher.go:62-93 | with one publisher that loses no reply to a publish and no mark and does not stop between them, all flushes together publish each delivery at most once, in any deployment and whatever else fails |
| `Publishing.FaultPublishesTwice` | internal/application/outbox/publisher.go:81-93 | any one of these four faults alone is enough for a second message |
| `Publishing.PublishedOnceExactly` | internal/application/outbox/publisher.go:62-93 | for any set of these faults, all runs with no others publish each delivery at most once if and only if the set is empty |
| `Draining.DrainsInTime` | internal/application/outbox/publisher.go:52-97 | with f unpublishable rows, f below the batch size, and no arrivals, the g other pending rows are published within ceil(g / (batch - f)) flushes, and no row is lost, created or redirected |
| `Draining.FlushMakesProgress` | internal/adapters/postgres/outbox_repo.go:31-39 | one flush publishes all publishable rows or at least batch - f of them |
| `Draining.FlushesKeepRows` | internal/adapters/postgres/outbox_repo.go:67-79 | flushes keep every row, its delivery and its subject, and never take a publication back |
| `Draining.FlushIsExact` | internal/application/outbox/publisher.go:62-93 | with one row a delivery, a flush marks the fetched rows that can be published, counts one failed attempt of the other fetched ones, and leaves all others as they are |
| `Draining.DuplicateIsMarked` | internal/application/outbox/publisher.go:68-75 | a further row of a published delivery is marked without a publish and without an attempt |
| `Draining.PublishedExactly` | internal/adapters/postgres/outbox_repo.go:31-39 | with one row a delivery, some flush publishes a publishable pending row if and only if fewer unpublishable pending rows than a batch are before it |
| `Draining.PoisonBlocks` | internal/adapters/postgres/outbox_repo.go:31-39 | so a batch of unpublishable rows at the head keeps every later row from being published, for ever |
| `Draining.PoisonBlocksAll` | internal/adapters/postgres/outbox_repo.go:31-39 | the same with any number of rows a delivery, if nothing has been published yet |
| `CircuitBreaker.Breaker.constructor` | pkg/circuitbreaker/breaker.go:29-36 | a new breaker has an empty history |
| `CircuitBreaker.Breaker.Allow` | pkg/circuitbreaker/breaker.go:38-55 | the answer is the one that the whole history of calls requires, and the fields go on agreeing with it |
| `CircuitBreaker.Breaker.RecordSuccess` | pkg/circuitbreaker/breaker.go:57-62 | a success is added to the history and the fields agree with it |
| `CircuitBreaker.Breaker.RecordFailure` | pkg/circuitbreaker/breaker.go:64-83 | the pruned list equals the last failure after the earlier ones since the last success that are strictly newer than its window, and the breaker opens exactly as the history requires |
| `CircuitBreaker.PruneOnce` | pkg/circuitbreaker/breaker.go:68-77 | pruning the list of the last failure gives the list that the next failure needs, under a monotone clock |
| `CircuitBreaker.RecentIsTheWindow` | pkg/circuitbreaker/breaker.go:69-77 | corollary: with a positive window the list is exactly the failures since the last success in the window of the last one |
| `CircuitBreaker.OpensAtThreshold` | pkg/circuitbreaker/breaker.go:79-82 | corollary: a closed breaker opens at a failure if and only if the failures in the window reach the threshold |
| `CircuitBreaker.ClosedMeansFew` | pkg/circuitbreaker/breaker.go:79-82 | a closed breaker has fewer failures in its list than the threshold |
| `CircuitBreaker.CooldownIsKept` | pkg/circuitbreaker/breaker.go:38-55 | after an opening, over all interleavings of callers, no call passes within the cooldown unless a success was recorded in between |
| `CircuitBreaker.StillTripped` | pkg/circuitbreaker/breaker.go:79-82 | until a success, later failures only move the opening forward |
| `CircuitBreaker.ProbesAreSpaced` | pkg/circuitbreaker/breaker.go:44-48 | once open, granted calls with a failure and no success between them are a cooldown apart |
| `CircuitBreaker.DenialsExactly` | pkg/circuitbreaker/breaker.go:38-55 | over every conforming history a call is denied if and only if the breaker opened less than a cooldown ago and no call has passed and nothing succeeded since |
| `CircuitBreaker.OpeningsExactly` | pkg/circuitbreaker/breaker.go:64-83 | a failure opens it if and only if it was open and had let a call pass, or the failures since the last success and later than the window's start, with this one, reach the threshold |
| `LoadTest.RunSequential` | web/src/lib/loadTest.ts:250-273 | requests 0 .. count-1 are sent once each in order, one at a time, and the tallies are the numbers of requests with each outcome |
| `LoadTest.RunParallel` | web/src/lib/loadTest.ts:221-248 | over every order in which answers arrive the run ends, sends each index once, has the tallies of the sequential run, and the most requests in flight at a time are exactly max(1, min(concurrency, count)), or none |
| `LoadTest.ParallelRun.constructor` | web/src/lib/loadTest.ts:228-231 | the worker limit is max(1, min(concurrency, count)) and nothing has been sent |
| `LoadTest.ParallelRun.Proceed` | web/src/lib/loadTest.ts:235-237 | the worker takes the next index or stops, and what holds at every await holds again |
| `LoadTest.ParallelRun.Count` | web/src/lib/loadTest.ts:238-240 | the answered request is counted under its outcome, once |
| `LoadTest.ParallelRun.InFlight` | web/src/lib/loadTest.ts:230-245 | whenever all workers wait, at most one request is in flight, or no more than the concurrency and no more than the count |
| `LoadTest.ParallelRun.Start` | web/src/lib/loadTest.ts:230-246 | max(1, min(concurrency, count)) workers start, and as many requests are in flight, if there are any |
| `LoadTest.RunScenario` | web/src/components/ops/LoadTestPanel.tsx:74-104 | a scenario with an invalid count is refused, and any other sends its number of its requests, once each and in order, with tallies that add up to it; sequential duplicates and staggered bursts have one request in flight at a time, the others as many as allowed |
| `LoadTest.TalliesAddUp` | web/src/lib/loadTest.ts:238-240 | the three tallies together count every answered request once |
| `LoadTest.TalliesMean` | web/src/lib/loadTest.ts:238-240 | accepted, duplicate and failed requests are each counted under their own tally |
| `LoadTest.RequestsMean` | web/src/lib/loadTest.ts:160-200 | for every scenario, the key, channel, priority and address of each request: shared keys for duplicates, the pool position of its turn or draw, the fixed priority unless it is to vary, and the recipients of the retry storm and the failure mix |
| `LoadTest.EveryPriorityOccurs` | web/src/lib/loadTest.ts:131-136 | where the priority varies each of the three comes out of some draw |
| `LoadTest.EveryRecipientOccurs` | web/src/lib/loadTest.ts:154-175 | so does each of the three recipients of a failure mix |
| `LoadTest.DuplicatesShareTheKey` | web/src/components/ops/LoadTestPanel.tsx:83-99 | all requests of a duplicate storm have the shared key, and those of other scenarios keys of their own |
| `LoadTest.RoundRobinBalance` | web/src/lib/loadTest.ts:114-128 | in a whole all-channels run every pool position is used floor(n/k) or ceil(n/k) times |
| `LoadTest.ChannelsStayInThePool` | web/src/lib/loadTest.ts:160-200 | which channels a scenario may use, for every scenario, mode, index and draw |
| `Routing.PrintParse` | internal/domain/routing/subjects.go:10-35 | parsing a printed subject gives back channel and priority if and only if the prefix has no dot |
| `Routing.PrintIsInjective` | internal/domain/routing/subjects.go:10-12 | different channels or priorities have different subjects, for every prefix |
| `Routing.NotificationIsNeverDlq` | internal/domain/routing/subjects.go:10-16 | no notification subject is a dead-letter subject |
| `Routing.SubjectsMatch` | internal/adapters/nats/broker.go:113-119 | every notification subject matches the filter of its prefix, and every dead-letter subject that of the dead-letter stream, with the channel as its one further token |
| `Routing.SubjectsAreSpelledOut` | internal/domain/routing/subjects_test.go:9-14 | two kinds of subjects as written out |
| `Routing.ParseChannelExactly` | internal/domain/notification/channel.go:17-25 | a channel is parsed from its name in any case with any blanks around it, and from nothing else |
| `Routing.ParsePriorityExactly` | internal/domain/notification/priority.go:16-28 | so is a priority, and the normal one from a blank string too |
| `Routing.AllNotificationSubjects` | internal/domain/routing/subjects.go:37-45 | the list holds exactly the printed subjects, each once |
| `Routing.AllDlqSubjects` | internal/domain/routing/subjects.go:47-53 | the list holds exactly the dead-letter subjects, each once |
| `Consumers.Subscriptions` | internal/application/dispatch/service.go:260-277 | max(1, concurrency) workers subscribe under pairwise different durable names |
| `Consumers.DurableNamesDiffer` | internal/adapters/nats/broker.go:121-122 | sanitising keeps the names of different workers apart, whatever the stream prefix |
| `Consumers.SanitizeConsumerName` | internal/adapters/nats/broker.go:176-195 | the loop computes the sanitised name |
| `Consumers.SanitisedMeans` | internal/adapters/nats/broker.go:176-195 | the sanitised name is what lies between the first and the last letter, digit or underscore, with a dash for every other character, or a fixed name if there is none |
| `Notification.Delivery.constructor` | internal/adapters/postgres/delivery_repo.go:105-131 | a loaded delivery has the columns of its row and no attempts |
| `Notification.Delivery.Queue` | internal/domain/notification/delivery.go:71-78 | succeeds exactly from pending, and then only status and time stamp change |
| `Notification.Delivery.StartProcessing` | internal/domain/notification/delivery.go:80-91 | succeeds exactly from queued and retrying, and then only status and time stamp change |
| `Notification.Delivery.RecordAttempt` | internal/domain/notification/delivery.go:93-96 | appends the attempt |
| `Notification.Delivery.MarkSucceeded` | internal/domain/notification/delivery.go:98-105 | the in-memory list gets a successful attempt, while the caller's own attempt stays as it was |
| `Notification.Delivery.MarkRetrying` | internal/domain/notification/delivery.go:107-116 | counts the retry, takes the error and the time given, and appends the failed attempt |
| `Notification.Delivery.MarkDlq` | internal/domain/notification/delivery.go:118-128 | dead, with the error and the time given, the retry count kept, and an attempt appended only if there was one |
| `Notification.Delivery.Replay` | internal/domain/notification/delivery.go:130-137 | succeeds exactly from dlq and failed |
| `Repositories.Store.Update` | internal/adapters/postgres/delivery_repo.go:42-49 | writes the four mutable columns of the row with that id and nothing else, or nothing if the write is lost |
| `Repositories.Store.UpdateIfStatus` | internal/adapters/postgres/delivery_repo.go:51-61 | the same, if and only if the stored status is the expected one, and says so |
| `Repositories.Store.FindByIdempotencyKey` | internal/adapters/postgres/delivery_repo.go:74-89 | finds the delivery of an unexpired key only, as it is stored |
| `Repositories.Store.RecordAttempt` | internal/adapters/postgres/delivery_repo.go:91-103 | appends one attempt row |
| `Repositories.Store.IngestTransactional` | internal/adapters/postgres/delivery_repo.go:155-236 | the statements together insert delivery, key and exactly one of outbox and scheduled row, or, if the key is taken, all are rolled back |
| `Repositories.Store.Enqueue` | internal/adapters/postgres/outbox_repo.go:19-29 | appends one pending row |
| `Repositories.Store.FetchPending` | internal/adapters/postgres/outbox_repo.go:31-59 | the oldest pending rows up to the limit, in order |
| `Protocol.OldestRows` | internal/adapters/postgres/outbox_repo.go:31-39 | what that means: pending, in order, and a pending row is left out only if the limit is reached by older ones |
| `Repositories.Store.MarkPublished` | internal/adapters/postgres/outbox_repo.go:67-72 | marks that row |
| `Repositories.Store.MarkFailed` | internal/adapters/postgres/outbox_repo.go:74-79 | counts a failed attempt of that row |
| `Repositories.Store.HasPublishedForDelivery` | internal/adapters/postgres/outbox_repo.go:81-89 | whether some row of the delivery is published |
| `Repositories.Store.FetchDue` | internal/adapters/postgres/scheduled_repo.go:27-49 | due unprocessed rows in order of their time, up to the limit, and a due row is left out only if the limit is reached by rows not later |
| `Repositories.Store.MarkProcessed` | internal/adapters/postgres/scheduled_repo.go:51-56 | marks that row |
| `Runtime.World.Update` | internal/application/dispatch/service.go:160-194 | among any steps of other processes the final write is the protocol's save, and in a sound deployment the row then equals the worker's delivery |
| `Runtime.World.UpdateIfStatus` | internal/application/dispatch/service.go:118-125 | among any steps of other processes the claim is the protocol's |
| `Services.DispatchService.constructor` | internal/application/dispatch/service.go:44-50 | every channel that has a provider, and no other, has a breaker of its own, new and with the limits given |
| `Services.DispatchService.Dispatch` | internal/application/dispatch/service.go:90-173 | among any steps of other processes and any other calls of the breakers the actions taken are exactly those of the dispatch's course, in order and up to the first failure: dead-lettered unattempted only if the delivery's channel has no provider, failed unsent only if its breaker denies the call, and otherwise sent once, with the breaker told of that result and nothing else; the worker is left at the reply that the protocol has for them, an acknowledgement if and only if there is no error; an error means a failed call or send, an open breaker, or a delivery that cannot be started; with settings that fit it does not panic; alone it computes `Dispatches.DispatchOnce` |
| `Dispatches.DispatchMeans` | internal/application/dispatch/service.go:90-250 | such a dispatch stores a queued or retrying delivery, for every answer of provider and breaker, with the status, retry count, error and time stamp called for and all other columns kept; adds the attempt row with its number, claim time, finishing time and error (none without a provider, an unfinished one for a success); logs one provider call at most; announces the delivery if and only if it is dead; acknowledges unless it is retried; and changes nothing else. Any other delivery is left alone, and its message acknowledged if and only if it has ended |
| `Services.DispatchService.HandleFailure` | internal/application/dispatch/service.go:175-214 | it carries out exactly the protocol's decision between retry and dead letter, with the calls of that plan up to the first failure, a retry is never reported as a success, and with settings that fit the backoff does not panic |
| `Services.DispatchService.MoveToDlq` | internal/application/dispatch/service.go:216-250 | attempt row, final write, announcement and audit are made in this order up to the first failure, where the announcement's does not count; alone all are made |
| `Services.DispatchService.Consume` | internal/adapters/nats/broker.go:133-152 | the actions are a pull, those of the dispatch, and the reply, or a crash if it panics; the reply acknowledges the copy if and only if there was no error; the breakers of all channels but that of the delivery hear of nothing |
| `Services.DispatchService.ReplayDelivery` | internal/application/dispatch/service.go:280-312 | success means that exactly the three steps of a replay were taken and the message is on the stream; an error, that a call failed, or that the delivery is not dead and nothing was done; alone it succeeds if and only if the delivery is dead, and computes `Replays.ReplayOnce` |
| `Replays.ReplayMeans` | internal/application/dispatch/service.go:280-312 | such a replay queues the delivery with no retries counted and its error kept, and puts one message on the stream, under its subject and marked as a replay, and changes nothing else |
| `Services.IngestService.Ingest` | internal/application/ingest/service.go:58-133 | the actions taken are those of the protocol's client for the response returned, which is the one logged, with a status that the delivery had during the call; no response means that a call failed; alone it computes `Answers.SoloIngest` |
| `Services.SchedulerService.ProcessDue` | internal/application/scheduler/service.go:69-113 | the result is true if and only if the actions taken are a whole tick, from fetching to its end with every write stored; if not, they end in a failed write or could not begin; alone it computes `Promotions.TickOnce` on a batch of due rows |
| `Promotions.TickPromotes` | internal/application/scheduler/service.go:78-106 | such a tick promotes exactly the pending deliveries it fetched, each with status and time stamp changed, one new outbox row under its subject and its scheduled row processed, and touches no other delivery |
| `Services.OutboxPublisher.Flush` | internal/application/outbox/publisher.go:52-97 | the actions taken are a whole flush, or none if fetching failed; alone it computes `Draining.FlushOnce` |

## Left out

- Telemetry, logging, metrics, configuration, the HTTP server, dashboard queries and the user interface: no state that the protocol reads.
- Request validation, JSON, identifiers and trace headers: a request is a key, a channel, a priority and a time; fresh ids are the next number.
- Recipient, template, payload, tenant and correlation columns: never written after insertion and never read by the protocol.
- The provider: any answer at any time, as success, transient or permanent failure with any message.
- Audit events: whether appending succeeds is modelled where its result is returned, its content is not.
- `FOR UPDATE SKIP LOCKED`: the fetches run outside a transaction (internal/adapters/postgres/outbox_repo.go:32-39), so the locks end with the statement.
- `MaxDeliver`: an unacknowledged copy may come again any number of times; `Redelivery.DeliveriesOfACopy` says how often it does.
- The order of redelivery and the delay before it: a worker may pull any outstanding copy at any time, and the backoff delay is only logged by the source.
- Clock reads are merged with the call before them: time may pass between calls only.
- A panic of the backoff takes all goroutines of its process down; the model takes down the worker, and the others may crash as well.
- HandleMessage: decoding the envelope; a message is the id it carries.
- Infinite runs and fairness: that a delivery does finish is stated as the existence of a finishing continuation from every state, and as a bound on dispatches for a single worker.
- Progress callbacks, stagger and elapsed time of the load tester, and its random picking but for the draws as parameters.

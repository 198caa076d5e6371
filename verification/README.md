# Posta's event pipeline and redirect path: a verified model

Posta is a link shortener with analytics. A redirect enqueues one event per click; a worker drains
the queue, batches the events, writes each batch to R2 as an NDJSON object and then to Postgres, and
sends what it cannot write to a dead-letter queue. R2 is the source of truth, Postgres a projection
that can be rebuilt. The redirect itself resolves a handle and a slug through caches in front of
Postgres and answers with a `Location` header.

This project models that behaviour in Dafny and proves what the repository promises about it.
`dafny verify dfyconfig.toml` checks everything.

## The files

| files | component |
|---|---|
| `Prelude`, `Sums`, `Utf16`, `Memos` | sequences, finite sums, JavaScript strings, the insertion-ordered memo |
| `ClassifyFlushError`, `SplitRetry`, `SplitRetryTheorems`, `SplitRetryBounds`, `SplitMachine` | retry, classify, split in two; what a run guarantees and costs; the same walk one call at a time |
| `EventsTable`, `R2Retry`, `Flush`, `FlushTheorems`, `PoisonFlush` | the events table, the R2 PUT with retries, one flush, the production flush, poison isolation seen from the stores |
| `Accumulator` | batches and the promises that wait for them |
| `Pipeline`, `PipelineInvariant`, `PipelineSteps`, `PipelineTheorems`, `PipelineAttempts` | the whole pipeline as one state with its steps, and what holds in every reachable state and of every run |
| `FlushInPipeline`, `Delivery` | the pipeline's steps carry out exactly the production flush, and the queue learns exactly how it ended |
| `DrainMeasure`, `Drain`, `Waiters`, `DlqService` | shutdown, the promises still pending, and the dead-letter queue's retention sweep |
| `Keys`, `KeysTheorems`, `Calendar`, `EventLog`, `Json`, `Ndjson`, `LogStream` | the calendar partition of R2, the log's text, and listing and streaming it |
| `Replay`, `Rebuild`, `ReplayRange` | replay of the log into the table, rebuilding from any reachable state, and the command that does it for a range |
| `CacheLadder`, `CacheTheorems`, `LookupAnswers`, `LinkTarget`, `Salt` | the handle and link ladders over Redis, what each tier answers, the redirect that uses them, and the daily salt |
| `TenantScope`, `RequestTarget`, `HeaderEncoding`, `HeaderTheorems` | predicate rendering, hosts and slugs, the `Location` header |
| `Migrations`, `Rollbacks`, `MigrationTheorems`, `MigrationRunner` | any number of migration runners and rollbacks at once, when rows and applied files agree, what a runner may rely on, and one runner's code |

## How the source is represented

- Code that acts step by step is a class or a method with loops, proved equal to a specification
  function; the theorems are about those functions. Code that is an expression is a function.
- Protocols are state machines: a datatype of steps, a predicate `Enabled`, a function `Apply`, and
  theorems over all sequences of enabled steps. A step is what happens between two awaits.
- A store's answer is a parameter of the step (or of an `Env`): success, failure without effect,
  failure after the effect, or an effect that lands later. Success is never reported for a write that
  did not happen.
- Assumed of what surrounds the code: the queue delivers at least once and keeps failed jobs, a
  statement is atomic, the primary key is enforced, R2 stores a value per key, Redis executes one
  command at a time, and freshly generated ids are new and hold no dot, slash or colon.

## What the proofs found

- The backoff budget beside the split-retry constants counts seven levels and "under 3.5s" for a
  batch of 100 events. The chain 100, 50, 25, 13, 7, 4, 2, 1 has eight failing sub-batches and costs
  3600 ms (`SplitRetryBounds.BackoffOfOneHundredEvents`).
- The comment on `tenantScope` says no possible extra predicate can escape. None does that is a predicate
  by itself. Of the other texts one escapes exactly when the whole still reads and has a further
  disjunct, outside the tenant condition's term, that can be true where the tenant condition is not
  (`TenantScope.EscapesExactly`): `a) or (b` does, `a) and (b` does not. A text that never closes a
  parenthesis it did not open cannot (`TenantScope.EscapingTextsDip`).
- The log's round trip holds exactly while no string in a logged column holds a unit, other than line
  feed and carriage return, at which the line reader breaks lines (`Ndjson.RoundTripIsExact`). With a
  reader that also breaks at U+2028 or U+2029, a `user_agent` with such a character makes the object
  unreadable (`Ndjson.LineSeparatorBreaksTheLog`). The redirect cannot capture one, since Node decodes
  header bytes as Latin-1; a job put on the queue in any other way can hold one, since the event schema
  takes any text (packages/contracts/src/capture.ts:56).
- A job can be delivered any number of times without one failed attempt, by stalling: what is bounded by
  five is the attempts that fail (`PipelineAttempts.RetriesAreBounded`,
  `PipelineAttempts.StalledJobsComeBackForEver`).
- `eventPrefixes` covers the range it is asked for exactly when its start is not in the years 0 to 99,
  which `Date.UTC` reads as 1900 to 1999 (`KeysTheorems.PrefixesCover`).
- `buildLinkUrl` builds URLs that do not parse back: for handles over 63 characters, reserved words and
  invalid slugs, and for nothing else (`RequestTarget.RoundTripIsExact`).
- `invalidateLink` makes later answers fresh exactly when no older write back, reply or query is still
  under way (`CacheTheorems.InvalidationIsExact`).
- From any state, instances agree on the day's salt from then on exactly when Redis holds it to the end of
  the next day and every timely reply under way carries it (`Salt.AgreementIsExact`). Losing the key
  within the day ends the agreement, on every day (`Salt.LosingTheKeySplitsTheDay`).
- `eventPrefixes` lists prefixes in the order in which R2 lists keys exactly when no step between two years
  of the range changes the number of characters, or, below zero, keeps it (`KeysTheorems.PrefixesIncrease`).
- `downSqlMigration` does not look whether the file is applied. While rollbacks run their SQL on tracked
  files only, rows and applied files agree whatever else runs at the same time
  (`Rollbacks.MigrationsAreSafe`); for every untracked file, a rollback together with a runner that
  applies it can leave the file applied without its row, with no failure reported
  (`Rollbacks.UntrackedRollbackCanTear`).
- The second half of `drain`'s loop condition is implied by the first: an open batch always has a call
  in flight (`Drain.QuietMeansSettled`).

## Model

| member | source | states |
|---|---|---|
| PipelineTheorems.NoEventIsLost | apps/worker/src/consumer/events.consumer.ts:376-407 | Over all runs with any interleaving, failure, redelivery and kill: every enqueued job is still in the queue with its data, or completed with its event in both stores or in the dead-letter queue (or swept from it) |
| PipelineTheorems.R2CoversPostgres | apps/worker/src/batch/flush.ts:559-582 | In every reachable state each row of the table is, up to derived columns, the projection of an event in a stored R2 object |
| PipelineTheorems.StoresNeverShrink | apps/worker/src/batch/flush.ts:541-583 | Rows and objects' event lists, once stored, stay as they are for the rest of every run |
| PipelineAttempts.RetriesAreBounded | packages/core/src/queue/events-queue.ts:78-85 | Over all runs: the failed runs of a job are what `attemptsMade` counts and at most five; its deliveries are exactly failures plus stalls plus the one that holds or completed it, so at most five plus the stalls; the final-failure handler is due only for failed jobs that used all five |
| PipelineAttempts.StalledJobsComeBackForEver | apps/worker/src/consumer/events.consumer.ts:225-247 | For every number there is a run that delivers one job that often, through kills and stalls, without a failed attempt |
| PipelineAttempts.RunMoves | packages/core/src/queue/events-queue.ts:78-85 | Between any two states of a run, counted step by step: attempts grow by the failures, and fetches balance failures, stalls and what is held |
| PipelineTheorems.OpenBatchWithinCalls | apps/worker/src/batch/accumulator.ts:224-253 | The open batch never holds more events than its process has unsettled `process()` calls |
| Waiters.WaitersWithinCalls | apps/worker/src/consumer/shutdown.ts:252-261 | The pending waiters of the open batch and of all detached ones together are exactly the calls that await a batch, and so at most the `process()` calls in flight |
| PipelineTheorems.CountTriggerNeverFires | apps/worker/src/env.ts:173-186 | With concurrency below batch size no run contains a step that trips the count trigger |
| PipelineTheorems.CountTriggerCanFire | apps/worker/src/env.ts:173-186 | The count trigger can fire in some run if and only if batch size is at most the concurrency |
| PipelineSteps.StepKeeps | apps/worker/src/consumer/events.consumer.ts:376-554 | Each of the eighteen kinds of step keeps the invariant, forgets nothing stored, and never un-completes a job |
| PipelineSteps.ProcessKeeps | apps/worker/src/consumer/events.consumer.ts:376-407 | `process()` up to its first await, whether the event joins, fills a batch or is malformed |
| PipelineSteps.AckedJobs | apps/worker/src/consumer/events.consumer.ts:376-407 | A call that lost its lock changes no job and makes no handler due; a job is completed only with its data durable |
| PipelineSteps.KillKeeps | apps/worker/src/consumer/events.consumer.ts:225-247 | SIGKILL wipes a process's memory and leaves its writes in flight without breaking the invariant |
| PipelineInvariant.PerformKeeps | apps/worker/src/batch/flush.ts:559-582 | A write in flight, or one that lands late, keeps R2 ahead of Postgres and forgets nothing, same-key overwrites included |
| PipelineInvariant.FiledOnce | apps/worker/src/batch/split-retry.ts:307-337 | An R2 key is never filed with two different lists of events |
| PipelineInvariant.FailKeepsPending | apps/worker/src/batch/split-retry.ts:259-343 | A failed sub-batch is retried, split or isolated; no event of it drops out |
| PipelineInvariant.SucceedOk | apps/worker/src/batch/split-retry.ts:259-263 | When the sub-batch on top is durable, moving on keeps every event of the batch accounted for |
| Drain.ShutdownService.Drain | apps/worker/src/consumer/shutdown.ts:252-261 | The drain loop terminates whatever the flushes do; a normal return means no call in flight, no open batch and no running flush; it rejects only when a final flush did |
| Drain.ShutdownService.FlushNow | apps/worker/src/batch/accumulator.ts:266-268 | Detaches and awaits the open batch; resolves only with all its events durable; a no-op without one |
| Drain.PausedProcessComesToRest | apps/worker/src/consumer/shutdown.ts:252-261 | After `pause`, the steps a process takes in any run are bounded by a number known at the pause |
| Drain.CallsCanMove | apps/worker/src/consumer/shutdown.ts:252-261 | No deadlock: with a call in flight there is a batch to flush or another step the process can take |
| Drain.OnlyAFlushHelps | apps/worker/src/consumer/shutdown.ts:245-261 | When every call waits in the open batch, a trigger is the only step left: waiting without flushing never ends |
| Drain.QuietMeansSettled | apps/worker/src/consumer/shutdown.ts:255-255 | No call in flight implies no open batch and no running flush |
| Drain.FairSurroundingsExist | apps/worker/src/consumer/shutdown.ts:252-261 | The scheduling that `drain` is proved to end under can be met for every process |
| DrainMeasure.OwnStepLowers | apps/worker/src/batch/split-retry.ts:249-343 | Every step a process takes itself strictly lowers what it can still do, whatever the stores answer |
| DrainMeasure.FailWork | apps/worker/src/batch/split-retry.ts:259-343 | A failed attempt leaves strictly less work: one attempt fewer, or two halves for the whole |
| SplitRetry.SplitRetrier.TryBatch | apps/worker/src/batch/split-retry.ts:257-269 | The attempt loop does exactly the calls and sleeps of its specification and ends with the last error |
| SplitRetry.SplitRetrier.AttemptBatch | apps/worker/src/batch/split-retry.ts:249-343 | World, journal of calls, sleeps and log, and outcome are those of the specified recursion |
| SplitRetry.SplitRetrier.RetryWithSplit | apps/worker/src/batch/split-retry.ts:372-401 | The same for the entry point, which resolves an empty batch without a call |
| SplitRetryTheorems.ResolvedPartitions | apps/worker/src/batch/split-retry.ts:339-343 | For any flush behaviour that resolves, committed and poisoned events, each in input order, shuffle back into the input |
| SplitRetryTheorems.RejectsExactlyOnInfrastructure | apps/worker/src/batch/split-retry.ts:274-287 | A run rejects exactly when a sub-batch ended in an infrastructure verdict, there, with the error of its last call |
| SplitRetryTheorems.PoisonIsASingleRowFault | apps/worker/src/batch/split-retry.ts:289-298 | Poison always is a row fault met by that event alone in a call of its own |
| SplitRetryTheorems.CommittedWasWritten | apps/worker/src/batch/split-retry.ts:259-262 | Every committed event was in a call that resolved |
| SplitRetryTheorems.NodeIdInjective | apps/worker/src/batch/split-retry.ts:310-315 | Distinct nodes of all split trees have distinct ids |
| SplitRetryTheorems.CallsAreNodes | apps/worker/src/batch/split-retry.ts:302-337 | Every call carries the id and exactly the events of one node of the split tree |
| SplitRetryTheorems.SameIdSameEvents | apps/worker/src/batch/split-retry.ts:310-315 | Within a run the id of a call determines its events |
| SplitRetryBounds.WorkBound | apps/worker/src/batch/split-retry.ts:249-343 | Calls are attempts times failing plus succeeding sub-batches, backoff is exact, and at most k·(⌈log2 n⌉+1) sub-batches fail |
| SplitRetryBounds.PoisonIsolationIsExact | apps/worker/src/batch/split-retry.ts:289-343 | Poison is the bad rows and committed the good rows, both in input order |
| SplitRetryBounds.FailuresAreTheBadNodes | apps/worker/src/batch/split-retry.ts:249-343 | Exactly the nodes that hold a bad row fail |
| SplitRetryBounds.FailingNodesBound | apps/worker/src/batch/split-retry.ts:302-304 | With k bad rows among n events at most k·(⌈log2 n⌉+1) nodes hold one |
| SplitRetryBounds.BoundIsReached | apps/worker/src/app.module.ts:195-217 | One bad row in front makes ⌈log2 n⌉+1 sub-batches fail |
| SplitRetryBounds.BackoffOfOneHundredEvents | apps/worker/src/app.module.ts:195-220 | With production's constants a first-row poison among 100 costs 8 failures and 3600 ms |
| SplitRetryBounds.CallsAreBounded | apps/worker/src/batch/split-retry.ts:249-343 | Whatever happens, n events cost at most maxAttempts·(2n−1) calls |
| SplitRetryBounds.CeilLog2Meaning | apps/worker/src/app.module.ts:200-202 | The bound's logarithm is the least exponent whose power of two reaches n |
| SplitMachine.MachineRunsAttempt | apps/worker/src/batch/split-retry.ts:249-343 | The one-call-at-a-time walk used by the pipeline refines the recursion: same world, verdict and poison after as many steps as calls |
| SplitMachine.MachineRunsBatch | apps/worker/src/batch/split-retry.ts:372-401 | For a whole batch: the walk empties its stack exactly when the run resolves, with the run's poison |
| FlushInPipeline.CallGoes | apps/worker/src/batch/flush.ts:541-583 | For all answers of the stores, the pipeline's SELECT, PUT, INSERT and queue steps leave the stores of one `flushBatch` call and go on as its outcome says |
| FlushInPipeline.PipelineRunsTheFlush | apps/worker/src/app.module.ts:322-336 | For all answers of the stores, a run of the batch's own steps leaves exactly the stores of the production flush, touches nothing else, and settles as it does |
| Delivery.SettlesItsWaiters | apps/worker/src/batch/accumulator.ts:372-399 | In every reachable state a finished flush settles exactly the calls that wait for its batch, each well if and only if it resolved, and changes nothing else |
| Delivery.FlushReachesTheQueue | apps/worker/src/consumer/events.consumer.ts:376-407 | For all answers of the stores: if the production flush of a detached batch resolves, a run of its own steps and its calls' reports completes every job under a waiting call's lock, with no attempt counted; if it rejects, each has failed exactly one attempt; no other call or job is touched |
| Delivery.MalformedJobIsFiled | apps/worker/src/consumer/events.consumer.ts:380-384 | A malformed job is completed by an answered dead-letter write of exactly its raw data, and fails one attempt by a failed one |
| Delivery.FinalFailureIsFiled | apps/worker/src/consumer/events.consumer.ts:494-520 | The handler of a final failure appends exactly one entry, with the job's event, or its raw data if that is malformed |
| Delivery.KilledWritesMayLand | apps/worker/src/consumer/events.consumer.ts:225-247 | A kill takes the process's memory only; exactly what it was writing may still land, and then does what the write says |
| Delivery.FatesOfAWrite | apps/worker/src/batch/flush.ts:559-582 | A write that is answered has happened; one reported as failed has, may still, once, or never does |
| Delivery.SweepsTakeTheOldest | apps/worker/src/consumer/dlq.service.ts:492-510 | The retention sweep takes entries off the dead-letter queue oldest first and touches nothing else |
| ClassifyFlushError.ExtractSqlState | apps/worker/src/batch/classify-flush-error.ts:86-98 | The walk returns the first code within five links of the cause chain, or none |
| ClassifyFlushError.RowFaultMeans | apps/worker/src/batch/classify-flush-error.ts:105-113 | Row fault if and only if the first code within five links is of class 22 or 23 |
| EventsTable.FirstWriterWinsIsExact | packages/core/src/db/events.ts:34-41 | DO NOTHING keeps old rows and lets the first writer of a new key win, and that determines the table |
| EventsTable.InsertIdempotent | packages/core/src/db/events.ts:14-22 | Inserting the same batch again changes nothing and returns no id |
| EventsTable.InsertAppend | packages/core/src/db/events.ts:34-41 | Two inserts in a row are one insert of both lists |
| EventsTable.ReturningCountsGrowth | packages/core/src/db/events.ts:43-86 | The number of returned ids is the growth of the table |
| EventsTable.EventsDb.InsertEventsBatch | packages/core/src/db/events.ts:34-41 | All rows or none, refused exactly when a row is refused |
| EventsTable.EventsDb.InsertEventsBatchWithCounts | packages/core/src/db/events.ts:73-86 | The same, with one id per row really inserted |
| R2Retry.RetryR2PutIsExact | apps/worker/src/batch/r2-retry.ts:211-246 | Every attempt but the last met a transient failure (no response, throttled, server error), an attempt that met none ends it, and with the doubling sleeps that determines the outcome |
| R2Retry.R2Putter.RetryR2Put | apps/worker/src/batch/r2-retry.ts:211-249 | The loop's world, sleeps and outcome are the specified ones |
| Flush.ProductionFlush.FlushBatch | apps/worker/src/batch/flush.ts:541-583 | SELECT, PUT with retries, then INSERT or the whole batch to the queue, in that order and with those results |
| Flush.ProductionFlush.PutR2BatchWithRetry | apps/worker/src/batch/r2-retry.ts:337-354 | A terminal PUT failure sends the whole batch to the queue and reports the queue's failure |
| Flush.ProductionFlush.SendPoisonEventsToDlq | apps/worker/src/batch/split-retry.ts:502-513 | One entry per poison event, in order, stopping at the first failure |
| Flush.ProductionFlush.FlushWithSplitRetryAndPoisonDlq | apps/worker/src/app.module.ts:322-336 | Split-retry over `flushBatch`, then the poison writes |
| FlushTheorems.RowSignals | apps/worker/src/batch/flush.ts:224-286 | A row's header-derived text never holds a NUL; text without one is kept, text with one becomes null |
| FlushTheorems.RowHasOneSource | apps/worker/src/batch/flush.ts:224-289 | Every row is the row of exactly one logged event without NUL, and that is the one it came from exactly when that one had none: the projection loses nothing else |
| FlushTheorems.OtherTenantsLinksDoNotShow | apps/worker/src/batch/flush.ts:295-326 | What is derived for an event is the same whatever links of other tenants the lookup finds |
| FlushTheorems.RecordsOfABatch | apps/worker/src/batch/flush.ts:224-326 | One record for each event in both stores, in order: the event as it came, its columns each in place, and what is derived with the found destination if and only if the link is found under the event's own tenant |
| FlushTheorems.NodeKeyInjective | packages/core/src/r2/keys.ts:111-120 | Distinct nodes of the same or different batches have distinct object keys |
| FlushTheorems.FlushBatchKeeps | apps/worker/src/batch/flush.ts:541-583 | If `flushBatch` resolves, each event is in both stores or in the queue; R2 covers Postgres either way |
| FlushTheorems.ProductionFlushIsDurable | apps/worker/src/app.module.ts:322-336 | If the production flush resolves, every event of the batch is durable; R2 covers Postgres and nothing is forgotten in any case |
| PoisonFlush.BadRowsAreDeadLettered | apps/worker/src/app.module.ts:322-336 | With the stores up and INSERTs refused exactly for bad rows, the flush resolves, Postgres gains exactly the good events' keys and the queue exactly one entry per bad event, in order |
| PoisonFlush.ProductionFailsOnBadRows | apps/worker/src/batch/flush.ts:541-583 | Then `flushBatch` fails, with a row fault, exactly on batches with a bad row, so the isolation and work bounds apply |
| Accumulator.EveryRunKeepsInv | apps/worker/src/batch/accumulator.ts:224-399 | Over every run the detached batches followed by the open one spell out the adds, events and promises alike; batches are never empty or oversized; promises settle with their batch |
| Accumulator.OperationsAreExact | apps/worker/src/batch/accumulator.ts:224-399 | What an add joins or opens and when it hands over, what a trigger hands over, and how exactly the promises of a batch and the flush time follow its outcome |
| Accumulator.PromiseTellsTheOutcome | apps/worker/src/batch/accumulator.ts:372-399 | A settled promise is that of an event in a flushed batch, settled as that flush was |
| Accumulator.SettlesOnce | apps/worker/src/batch/accumulator.ts:372-399 | None of a batch's promises is settled before its flush is |
| Accumulator.SettledForGood | apps/worker/src/batch/accumulator.ts:372-399 | No later step changes how a promise was settled |
| Accumulator.BatchAccumulator.constructor | apps/worker/src/batch/accumulator.ts:174-206 | Starts empty, with construction counting as a flush |
| Accumulator.BatchAccumulator.Add | apps/worker/src/batch/accumulator.ts:224-253 | Joins or opens a batch, returns a new promise, and hands over exactly a full batch |
| Accumulator.BatchAccumulator.TriggerFlush | apps/worker/src/batch/accumulator.ts:327-336 | Detaches the open batch before the callback runs, or does nothing |
| Accumulator.BatchAccumulator.FlushSettled | apps/worker/src/batch/accumulator.ts:372-399 | Settles every waiter of the batch alike; only success moves the last flush time |
| DlqService.CleanRemovesOnlyAged | apps/worker/src/consumer/dlq.service.ts:492-510 | A sweep keeps every young entry in order and removes the first aged ones up to the limit |
| DlqService.SweepsAreThrottled | apps/worker/src/consumer/dlq.service.ts:492-510 | Two sweep attempts are at least the throttle interval apart, however tight the sends |
| DlqService.SendIsExact | apps/worker/src/consumer/dlq.service.ts:407-510 | An hour or more after the last attempt, and only then, an answered send sweeps: the first thousand entries of seven days or more go, all others stay in order |
| DlqService.EntriesAreRetained | apps/worker/src/consumer/dlq.service.ts:407-435 | An acknowledged entry is in the queue until older than the retention window |
| DlqService.DlqService.SendEntry | apps/worker/src/consumer/dlq.service.ts:407-435 | Rejects exactly when the add does; a failing sweep is swallowed |
| Keys.EventPrefixes | packages/core/src/r2/keys.ts:173-206 | Which of the three errors is reported, else every hour of every UTC day of the range in order |
| Keys.WalkDays | packages/core/src/r2/keys.ts:191-205 | The nested loops yield the partitions of all hours from day to day |
| Keys.DayFromYearFormula | packages/core/src/r2/keys.ts:111-120 | The model's calendar agrees with the closed form of section 21.4.1 of ECMA-262 |
| Keys.DatesAreOrdered | packages/core/src/r2/keys.ts:194-199 | Later days have later civil dates |
| Calendar.DatesFollowTheCalendar | packages/core/src/r2/keys.ts:111-120 | Day 0 is 1970-01-01, and every day's date is followed by the next day of its month, of 31, 28 or 29, or 30 days, or by the first of the next month |
| Calendar.InstantParts | packages/core/src/r2/keys.ts:114-117 | An instant is its day, its hour from 0 to 23, and less than an hour |
| Calendar.KeyNamesItsHour | packages/core/src/r2/keys.ts:111-120 | The key's text is the date and hour of the instant, with the year's digits unpadded and two digits for month, day and hour, each read back as its number |
| Calendar.TwoDigitYearIsLast | packages/core/src/r2/keys.ts:177-178 | `Date.UTC` takes a year from 0 to 99 for one of the last century, where February 29 may become March 1 |
| KeysTheorems.KeyDeterminesBatch | packages/core/src/r2/keys.ts:111-120 | Equal object keys mean equal batch ids |
| KeysTheorems.PartitionsArePrefixFree | packages/core/src/r2/keys.ts:194-203 | No key starts with two different hours' prefixes |
| KeysTheorems.ExactlyOnePrefix | packages/core/src/r2/keys.ts:173-206 | An instant of the walked days has its key under exactly one listed prefix, any other instant under none |
| KeysTheorems.PrefixesCover | packages/core/src/r2/keys.ts:176-177 | The prefixes cover every instant of the range if and only if its start is not in the years 0 to 99 |
| KeysTheorems.PrefixesIncrease | packages/core/src/r2/keys.ts:173-206 | For every range: 24 entries a day, strictly increasing if and only if each year's text in it sorts before the next one's, which is a matter of their lengths |
| KeysTheorems.IncreasingIsNoDup | packages/core/src/r2/keys.ts:173-206 | A strictly increasing list holds no prefix twice |
| KeysTheorems.YearStep | packages/core/src/r2/keys.ts:196-201 | The unpadded texts of two years in a row are in order or in reverse order, decided by their lengths and the sign |
| KeysTheorems.OrderBreaksAtYear1000 | packages/core/src/r2/keys.ts:119-119 | No range over the change to four-digit years is in order |
| EventLog.EachKeyIsVisitedOnce | packages/core/src/r2/ndjson.ts:378-388 | Listing hour after hour visits no key twice |
| Json.ObjectReadsBack | packages/core/src/r2/ndjson.ts:134-143 | Every flat object reads back as printed, whatever code units its strings hold |
| Json.ObjectIsClean | packages/core/src/r2/ndjson.ts:134-143 | Printed text holds no control unit and no lone surrogate |
| Json.EscapesOfAString | packages/core/src/r2/ndjson.ts:134-143 | The escapes of `JSON.stringify`: seven short ones, four lower-case hexadecimal digits for other control units and lone surrogates, and everything else as it is |
| Ndjson.LineReadsBack | packages/core/src/r2/ndjson.ts:87-121 | A line reads back as the record restricted to the 31 columns; nothing else can reach the log |
| Ndjson.TextOfABatch | packages/core/src/r2/ndjson.ts:186-188 | A batch is its records' lines in order, each ended by one line feed and holding no control unit |
| Ndjson.RoundTripIsExact | packages/core/src/r2/ndjson.ts:186-188 | Reading a batch back yields exactly its records if and only if no string in a logged column holds a unit at which the reader also breaks lines; otherwise an error |
| Ndjson.LineHolds | packages/core/src/r2/ndjson.ts:87-121 | A line holds a unit that JSON prints as it is exactly when a string of a logged column does |
| Ndjson.CutLineFails | packages/core/src/r2/ndjson.ts:266-284 | A line cut short is reported, never silently skipped |
| Ndjson.LineErrors | packages/core/src/r2/ndjson.ts:266-284 | A line that is JSON but no object is reported apart from one that is not JSON, and nothing may follow an object |
| Ndjson.LineSeparatorBreaksTheLog | packages/core/src/r2/ndjson.ts:347-356 | Any record with U+2028 in its user agent cannot be read back by a reader that breaks lines there |
| Ndjson.StreamRecordsFromObject | packages/core/src/r2/ndjson.ts:335-362 | Yields the records of the lines in order, skips empty lines, stops at the first bad one with its number |
| LogStream.ListObjectKeys | packages/core/src/r2/ndjson.ts:294-326 | Every key once and in order whatever the page boundaries, up to the first truncated page without a token, and an error exactly if there is one |
| LogStream.StreamEventLog | packages/core/src/r2/ndjson.ts:378-388 | All that the stream yields and the error it ends with, whichever listing or object fails first; when no listing breaks off, the stream over all keys |
| LogStream.StreamRecoversTheBatches | packages/core/src/r2/ndjson.ts:378-388 | For a store of serialized batches the stream is exactly the original records, object by object, if no record holds a unit that breaks lines, and an error otherwise |
| Replay.ReplayEventLog | apps/worker/src/cli/replay-driver.ts:137-164 | Ends well exactly when the stream does and no kept record is refused, then equals one insert of all of them whatever the batch size; otherwise whole chunks before the refused one, or the whole chunks read, are in |
| Replay.ReplayWithReport | apps/worker/src/cli/replay-report.ts:334-412 | Inserted is the table's growth, inserted plus skipped is parsed, the buckets count the rejections, the mismatch exit never happens; too large a batch size writes nothing |
| Replay.EveryRecordCounted | apps/worker/src/cli/replay-report.ts:379-400 | Parsed and rejected records together are all records |
| Rebuild.PostgresIsRebuildable | apps/worker/src/cli/replay-driver.ts:137-164 | From any reachable state a replay into an empty table gives one row per archived key, covers the live table and is idempotent |
| Rebuild.RebuiltRowsAgree | apps/worker/src/cli/replay-driver.ts:137-164 | With unique ids a rebuilt row agrees with the live one in every captured column |
| Rebuild.RebuiltTable | apps/worker/src/cli/replay-driver.ts:137-164 | The rebuilt rows are projections of archived records, whatever the listing order |
| Rebuild.ReplayIntoLive | apps/worker/src/cli/replay-driver.ts:137-164 | Replaying into the live table leaves every live row and adds exactly the missing keys |
| ReplayRange.RunReplay | apps/worker/src/cli/replay.ts:293-350 | Prefixes, listings, stream and replay of a range together: one insert of the tenant's events under the range's prefixes, and into an empty table without a tenant the rebuild |
| ReplayRange.RangeListsTheArchive | packages/core/src/r2/keys.ts:173-206 | The keys under a range's prefixes are the whole archive, each once, if and only if the range's days hold the first instant of every object |
| ReplayRange.RangeRebuilds | apps/worker/src/cli/replay.ts:293-350 | From any reachable state such a range rebuilds one row per archived key and covers the live table |
| ReplayRange.LogStreamsBack | packages/core/src/r2/ndjson.ts:378-388 | Streaming the serialized archive gives back its events, in order and without an error |
| Memos.RememberKeepsCap | apps/api/src/redirect/resolve-tenant.ts:179-190 | The memo never exceeds its cap (or one entry for a cap of zero) |
| Memos.RememberMeaning | apps/api/src/redirect/resolve-tenant.ts:179-190 | Only the key itself changes and only the oldest entry can go, when the memo is full |
| Memos.RememberOrder | apps/api/src/redirect/resolve-tenant.ts:179-190 | A known key keeps its place, a new one goes last, and the first goes exactly when the memo is full |
| Memos.HandleMemo.RememberInMemo | apps/api/src/redirect/resolve-tenant.ts:179-190 | The in-place update is the specified one |
| CacheLadder.StalenessIsBounded | apps/api/src/redirect/resolve-tenant.ts:242-297 | However Redis fails, evicts or hangs, and whatever unreadable payloads it comes to hold for any time, every answer was Postgres's at an instant within the delays plus the TTLs of that kind of answer |
| CacheTheorems.UnreadablePayloadIsAMiss | apps/api/src/redirect/resolve-link.ts:176-186 | In any state an unreadable payload put under a key is read by the next lookup and answers nothing: the lookup goes on to Postgres |
| LookupAnswers.NoLookupIsLost | apps/api/src/redirect/resolve-link.ts:418-464 | Over every run each lookup that was begun is answered, still in flight, ended by a failed query, or lost with its process |
| LookupAnswers.RedisAnswers | apps/api/src/redirect/resolve-link.ts:418-450 | The tombstone answers null and a readable payload its value; any other reply, none, or a failed GET sends the lookup to Postgres, and nothing else happens |
| LookupAnswers.PostgresAnswers | apps/api/src/redirect/resolve-link.ts:450-463 | A query answered in time gives exactly Postgres's answer, which the process remembers, and issues its write back if it can be cached |
| LookupAnswers.QueriesMayFail | apps/api/src/redirect/resolve-link.ts:450-450 | A query may fail at any time, which ends its lookup and nothing else |
| LookupAnswers.FirstLookup | apps/api/src/redirect/resolve-tenant.ts:246-297 | From any state with nothing near, and with Redis up or down, a lookup ends with what Postgres holds, one answer, one memo entry and the write back |
| LookupAnswers.WriteBackServes | apps/api/src/redirect/resolve-link.ts:336-403 | A write back that lands answers every later lookup for exactly its time to live, and none after it |
| LookupAnswers.MemoServes | apps/api/src/redirect/resolve-tenant.ts:246-250 | What a process remembers answers at once for exactly the memo's time to live, and asks nobody |
| LookupAnswers.WhatHappensAround | packages/core/src/redis/invalidate.ts:40-46 | An invalidation or eviction takes away one key's entry, a landed or dropped write back itself, once, and a restart one process's memo and lookups; nothing else changes |
| LookupAnswers.HandleLookup | apps/api/src/redirect/resolve-tenant.ts:200-297 | What Postgres says about a handle is cached for an hour, or a minute if it is unknown, and remembered for a minute |
| LookupAnswers.LinkLookup | apps/api/src/redirect/resolve-link.ts:320-464 | A link whose destination validates is cached in its validated form for the configured time, an absence for a minute, anything else not at all |
| CacheTheorems.HandleAnswers | apps/api/src/redirect/resolve-tenant.ts:242-297 | A tenant is at most 61 minutes old, "unknown" at most two, plus delays; the memo holds at most 10000 handles |
| CacheTheorems.LinkAnswers | apps/api/src/redirect/resolve-link.ts:418-464 | Null is only a confirmed absence of the last minute plus delays; a hit validates to what Postgres's row validates to and belongs to the tenant |
| CacheTheorems.FreshnessIsExact | apps/api/src/redirect/resolve-link.ts:418-464 | All further answers are as of an instant or later if and only if nothing older is cached, memoized or under way |
| CacheTheorems.InvalidationIsExact | packages/core/src/redis/invalidate.ts:40-46 | After the `DEL` later answers are fresh if and only if no older write back, reply or query is still about |
| CacheTheorems.LinkKeyInjective | packages/core/src/redis/keys.ts:32-34 | No two links share a key, because tenant ids hold no colon |
| CacheTheorems.ColonsCollideExactly | packages/core/src/redis/keys.ts:32-34 | A name of any text shares its key with another one exactly when its tenant id or its slug holds a colon |
| CacheTheorems.LinkConfIsSound | apps/api/src/redirect/resolve-link.ts:320-350 | Writer and reader of the cached payload agree up to the destination schema, and never meet the tombstone |
| LinkTarget.Handler.HandleLinkTarget | apps/api/src/redirect/middleware.ts:484-758 | The effects of a request in order, and the response: 307 to the validated, encoded destination, or 404 |
| LinkTarget.EveryRequestIsAnswered | apps/api/src/redirect/middleware.ts:532-590 | Exactly one answer whatever the lookups do, a redirect exactly when there is a location, only lookups before it, and at most one event enqueued, after a redirect |
| LinkTarget.ClicksAreCaptured | apps/api/src/redirect/middleware.ts:686-740 | An event is enqueued, with the found tenant's and link's ids, if and only if the visitor is redirected and the capture succeeds; the tenant is always looked up, the link exactly for a found tenant; nothing happens twice |
| LinkTarget.RedirectsExactly | apps/api/src/redirect/middleware.ts:626-680 | A redirect exactly if both are found and the destination validates to text without a lone surrogate, and then to that text, escaped only where a header requires it |
| LinkTarget.LocationIsSafe | apps/api/src/redirect/middleware.ts:626-680 | What is sent is a validated destination and header-safe |
| LinkTarget.SameLocationFromEveryTier | apps/api/src/redirect/middleware.ts:655-680 | A cached link and the row it came from lead to the same location |
| LinkTarget.VisitorsFollowPostgres | apps/api/src/redirect/middleware.ts:626-680 | However Redis fails and whatever unreadable payloads it holds, a link answer sends the visitor where Postgres's row did within the cache's time to live plus delays |
| Salt.InstancesAgree | packages/core/src/redis/salt.ts:123-155 | In every run in which Redis does not lose the day's key before its time, whatever other keys it loses: all fetches of the day answered by a GET in time return one salt, and such a GET never comes back empty |
| Salt.AskingGivesAPromise | packages/core/src/redis/salt.ts:183-193 | The promise is the remembered one of the UTC day, or that of one new fetch, remembered from then on |
| Salt.FetchesNeverReject | packages/core/src/redis/salt.ts:131-154 | Whatever fails, and on an empty reply, a fetch returns its own candidate; otherwise what its GET read |
| Salt.CommandsOfAFetch | packages/core/src/redis/salt.ts:131-133 | SET NX writes only where nothing is live, for two days, and GET reads exactly what is live |
| Salt.LateSetsLandOnce | packages/core/src/redis/salt.ts:131-133 | A SET reported as failed that takes effect later does so once, and only where nothing is live |
| Salt.AgreementIsExact | packages/core/src/redis/salt.ts:123-155 | From any state of a day, all fetches newly answered by a timely GET get a given salt, in all continuations that keep the key, if and only if Redis holds it to the end of the next day and every timely reply under way carries it |
| Salt.AgreementWhenReached | packages/core/src/redis/salt.ts:123-155 | In every state that a run reaches, whatever Redis lost, holding it means just being live |
| Salt.LossEndsAgreement | packages/core/src/redis/salt.ts:123-155 | After the key is lost within the day no salt is agreed on |
| Salt.OneSaltADayPerProcess | packages/core/src/redis/salt.ts:179-194 | All calls of a process on a day get the same promise, with at most one fetch a day and two days in the memo |
| Salt.LosingTheKeySplitsTheDay | packages/core/src/redis/salt.ts:123-155 | On every day and from every state, losing the key between two new instances can give them different salts |
| TenantScope.ReadInvertsPrint | packages/core/src/db/tenant.ts:19-44 | A text is a predicate exactly when it is the print of one, and of one only |
| TenantScope.ScopeSelectsTenantRows | packages/core/src/db/tenant.ts:40-44 | For every extra predicate the rendered text is read as one that selects exactly the tenant's rows satisfying it |
| TenantScope.ScopeIsAtomicExactlyOnPredicates | packages/core/src/db/tenant.ts:24-38 | The text is the tenant condition ANDed with one group if and only if the extra text is a predicate by itself |
| TenantScope.EscapesExactly | packages/core/src/db/tenant.ts:24-38 | A text escapes, keeping some row where the tenant condition is not true, if and only if the whole reads and a further disjunct is true for some choice of its conditions without the tenant's |
| TenantScope.FurtherDecide | packages/core/src/db/tenant.ts:24-38 | Row by row: where the tenant condition is not true, the whole is true exactly when a further disjunct is |
| TenantScope.EscapingTextsDip | packages/core/src/db/tenant.ts:24-38 | A text that escapes closes a parenthesis it did not open |
| TenantScope.UnbalancedFragmentEscapes | packages/core/src/db/tenant.ts:35-38 | The fragment `a) or (b` escapes wherever `b` is true |
| TenantScope.UnbalancedFragmentStays | packages/core/src/db/tenant.ts:35-38 | The fragment `a) and (b` is no predicate either, reads, and never escapes |
| TenantScope.WithoutParenthesesItLeaks | packages/core/src/db/tenant.ts:24-38 | Without the inner parentheses, exactly which rows are selected in addition |
| TenantScope.LeakExample | packages/core/src/db/tenant.ts:29-35 | The example beside the code returns another tenant's row |
| RequestTarget.RoundTripIsExact | packages/contracts/src/domain.ts:188-197 | A built URL parses back to its handle and slug if and only if the handle is short enough and unreserved and the slug valid |
| RequestTarget.LinkTargetsRebuild | apps/api/src/redirect/host.ts:136-171 | Every link target the parser returns can be built and parses to itself |
| RequestTarget.LinkTargetsAreValid | apps/api/src/redirect/host.ts:136-171 | A link target's handle and slug have the promised shape whatever was requested |
| RequestTarget.OtherTargets | apps/api/src/redirect/host.ts:136-171 | What is decided without a lookup and in which order: foreign host, reserved handle, root, paths of slashes, reserved paths |
| RequestTarget.WellKnownIsADirectory | packages/contracts/src/reserved.ts:138-151 | The well-known prefix covers itself and everything under it, and nothing that merely begins with its text |
| RequestTarget.ParsedHandle | packages/contracts/src/domain.ts:212-237 | Exactly which hosts yield a handle |
| RequestTarget.LabelsAndSlugs | packages/contracts/src/links.ts:36-65 | Handles and slugs are exactly the texts of lower-case letters, digits and inner hyphens, slugs of 1 to 64 of them; no reserved path looks like one |
| RequestTarget.ReservedPathsExactly | packages/contracts/src/reserved.ts:138-151 | In normal form, exactly which paths are answered without a lookup |
| RequestTarget.LinkTargetExactly | apps/api/src/redirect/host.ts:92-171 | Exactly which requests are for a link, percent-encoded paths included |
| RequestTarget.PortAndRootDotAreIgnored | packages/contracts/src/domain.ts:111-117 | Port and root dot never change the target |
| RequestTarget.ResolveReservedHandles | packages/contracts/src/reserved.ts:91-104 | The built-in words first, plus exactly the non-empty configured ones, no word twice |
| HeaderEncoding.EncodeDestinationForHeader | apps/api/src/redirect/redirect-response.ts:179-198 | The scan and the loop return the specified encoding |
| HeaderEncoding.OutputIsSafeAndStable | apps/api/src/redirect/redirect-response.ts:122-198 | The fast path returns what the slow one would, every output unit is header-safe, encoding is idempotent |
| HeaderTheorems.VerbatimExactly | apps/api/src/redirect/redirect-response.ts:122-143 | A destination is sent unit for unit if and only if every unit is a tab, in 0x20 to 0x7e, or in 0x80 to 0xff |
| HeaderTheorems.EncodingIsExact | apps/api/src/redirect/redirect-response.ts:179-198 | Any other destination is sent with exactly the code points outside that set replaced by the upper-case escapes of their shortest UTF-8 form |
| HeaderEncoding.NullExactlyOnLoneSurrogates | apps/api/src/redirect/redirect-response.ts:179-198 | No encoding exactly for strings with a lone surrogate |
| HeaderEncoding.DecodingRecovers | apps/api/src/redirect/redirect-response.ts:179-198 | Without `%` in the input, decoding the escapes as UTF-8 gives the input back |
| HeaderEncoding.SendLinkRedirect | apps/api/src/redirect/redirect-response.ts:81-91 | The whole 307 or an untouched response, the latter exactly for lone surrogates |
| Rollbacks.MigrationsAreSafe | packages/core/src/db/sql-migrate.ts:99-239 | With any number of runners and rollbacks crashing anywhere connections are released exactly once; the tracking rows are the committed files, none twice, if there is no rollback or none runs its SQL on an untracked file |
| Rollbacks.MatchingIsExact | packages/core/src/db/sql-migrate.ts:213-239 | All along a run rows and applied files agree if and only if every rollback that commits deleted its row exactly if it undid its file |
| Rollbacks.TrackedRollbacksMatch | packages/core/src/db/sql-migrate.ts:213-239 | Rollbacks whose SQL runs on tracked files delete their rows exactly if they undo their files, whatever runs beside them |
| Rollbacks.UntrackedRollbackCanTear | packages/core/src/db/sql-migrate.ts:213-239 | For every database and untracked file there is a run of one rollback and one runner, without a failure, that leaves the file applied and its row gone |
| MigrationTheorems.EarlierFilesComeFirst | packages/core/src/db/sql-migrate.ts:146-185 | A runner that reaches a file found all earlier ones applied in its own version, and they are still unless rolled back, so an edited file stops it first |
| MigrationTheorems.EndedRunnersHoldNothing | packages/core/src/db/sql-migrate.ts:99-128 | A runner holds a connection exactly while inside a transaction |
| MigrationTheorems.LostCommitsMayLand | packages/core/src/db/sql-migrate.ts:99-128 | A runner that crashes with its COMMIT on the way leaves a transaction that may commit with all its work or abort with none |
| MigrationTheorems.RerunChangesNothing | packages/core/src/db/sql-migrate.ts:161-171 | In every run in which none of its files is rolled back, whatever the others do, a runner over unchanged applied files only checks: it never opens a connection and leaves rows, files and transactions alone |
| MigrationRunner.SqlMigrator.RunInTransaction | packages/core/src/db/sql-migrate.ts:99-128 | All of the work or none: success exactly when every statement is answered well, the work done exactly then or when only COMMIT's answer is lost; exactly one release, destruction exactly when ROLLBACK fails too |
| MigrationRunner.SqlMigrator.RunSqlMigrations | packages/core/src/db/sql-migrate.ts:146-185 | Applies exactly the untracked files of a prefix, the whole list on success; an edited file stops it, or a statement answered with an error, and nothing else |
| MigrationRunner.SqlMigrator.DownSqlMigration | packages/core/src/db/sql-migrate.ts:213-239 | The down SQL and the removal of the row together or not at all, and exactly when |
| MigrationRunner.RerunIsANoOp | packages/core/src/db/sql-migrate.ts:161-171 | A run over files that are all tracked as they are leaves the database as it was |
| MigrationRunner.SuccessIsStable | packages/core/src/db/sql-migrate.ts:146-185 | After a run that succeeds another one changes nothing |
| Rollbacks.DownKeepsTracking | packages/core/src/db/sql-migrate.ts:213-239 | Rolling a file back keeps rows and applied files equal |

## Left out

- Drain.ShutdownService.Drain: does not model the bound by `SHUTDOWN_TIMEOUT_MS`, after which the process exits; what is un-acked then is redelivered, as after a kill.
- Rebuild.PostgresIsRebuildable: assumes every archived row is accepted by the table; replay does not split, and `Replay.ReplayEventLog` says what happens otherwise.
- PipelineTheorems.NoEventIsLost: counts an entry that the retention sweep removed as having reached the dead-letter queue, and identifies a malformed job's entry by its raw data, before redaction.
- CacheTheorems.InvalidationIsExact: the handle memo has no invalidation in the source either; for that ladder the condition includes the memo entry.
- LogStream.StreamEventLog: `GetObject` failures and the bytes below the text are not modelled; texts without lone surrogates survive UTF-8. The objects do not change while they are streamed.
- ReplayRange.RunReplay: how a logged event becomes a record and back (ISO-8601 instants, names of columns) is a pair of functions that undo each other on the archived events; `--dry-run` and the warnings are left out.
- Json.ObjectReadsBack: arrays, nested objects, fractions, and white space between tokens are read as errors, because no printed line holds them; `asn` is a whole number.
- Rollbacks.MigrationsAreSafe: down SQL undoes its file when that is applied as it runs and does nothing otherwise; `set_config` counts as part of it. The list of files is given, not read from a directory, and a file's dependence on others is not modelled.
- RequestTarget.RoundTripIsExact: the configured domain is a plain host name, and WHATWG URL parsing is reduced to splitting at `://` and the next slash.
- CacheLadder.StalenessIsBounded: a payload that reads as an answer is put into Redis by the ladders only; what another writer puts there readable is answered as it stands. For handles every payload is readable.
- PoisonFlush.BadRowsAreDeadLettered: whether a row is refused may depend on the event and on what is derived from it, as long as all lookups during the flush agree; a refusal that comes and goes is not covered.
- Nest wiring, Express, env schemas, log texts, Prometheus counters, CLI argument parsing and `main` functions.
- The capture after the response: reading headers, geo lookup, hashing and building the payload count as one step that may fail; the 404 page.
- Parsing of ISO-8601 text, `enrich`, Zod schemas, hashing, randomness and ULID generation: uninterpreted functions or parameters.
- BullMQ's delays, lock renewal times and stalled counts: a stall may happen at any time and end either way.
- The web app, GeoIP, seeding and vendoring scripts.

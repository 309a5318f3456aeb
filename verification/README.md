# Verified model of the OpsNexus backend's stateful components

This project models five components of the OpsNexus backend, each of which keeps a promise over whole
runs, and proves those promises with Dafny 4.11. `dafny verify dfyconfig.toml` checks everything.

| files | component |
|---|---|
| `NotificationQueue`, `QueueInvariant`, `QueueGuarantees`, `QueueRefusals`, `QueueLedger`, `QueueCode` | notification queue, worker pool and delivery rows |
| `AlertStore`, `AlertHistory`, `AlertEngine`, `AlertGuarantees`, `AlertWrites`, `AlertRules`, `AlertOverlap`, `AlertCode`, `AlertLoops` | alert table and alert engine |
| `Rollup`, `Retention` | hourly rollup and purge |
| `RateLimiter` | sliding-window rate limiter |
| `Hub`, `HubCode`, `EventStream` | server-sent event hub, byte stream and parser |
| `Options`, `Traces` | optional values; folding a step over a trace |

**How concurrency is modelled.** For the queue and the engine a function `Advance` is one atomic action
of one goroutine (a channel operation, a section under the mutex, one SQL statement, one send, one
clock reading). `Do` lets any goroutine act at any moment, with every answer of the environment, and
`Execute` is a run. The hub's `Do` interleaves its select loop with publishers, subscribers and
listeners. The invariants hold in every state of every run. The classes in `QueueCode`, `AlertCode` and
`HubCode` have the source's own control flow; each method is proved to be a run of those atomic actions,
and `SoloIsARun` places such a run inside the interleaved system. Fields called `past`, `hist`, `sent`,
`ever`, `log` and the like record what has happened; no step's decision reads them, except that
generated ids are taken not to have been used before.

**Assumptions.** Clocks are monotone integers (nanoseconds in the engine, seconds in the retention
worker). Metric values are reals, so NaN and rounding do not occur. Generated ids are new, or the insert
fails. For the engine's results about whole histories, evaluations of one key do not overlap and no read
of a triggered evaluation fails while its key has an active alert. Nothing in the source enforces either:
evaluations are started with `go` (internal/telemetry/handler.go:96), the mutex is released before the
table is read (internal/alerting/engine.go:104, 115), and a read error is returned as "no alert"
(internal/alerting/repository.go:298-300). `AlertOverlap` therefore drops both, and says what goes wrong
without them, exactly when, and what remains true.

**Where the code falls short of what it is for.**

* An hourly row can end up telling of fewer samples than its hour had. `RollupAgreesIff` says exactly when,
  over every run with any failures, late samples and cutoffs: when a rollup runs over a bucket of which
  some samples are purged and some are left, or a purge takes samples that no rollup of the closed hour
  has seen. Among the causes:
  the cutoff is `now` minus whole days and not aligned to the hour, so a purge can split a bucket
  (`UnalignedRunsLoseSamples`; `PurgeHarmlessIff` and `AlignmentIsExact` say exactly which cutoffs do);
  the purge goes on when the rollup before it failed (internal/retention/worker.go:59-66,
  `FailedRollupLosesHour`);
  and a sample, whose timestamp is the client's (internal/telemetry/handler.go:65), may arrive after its
  hour was rolled up and purged (`LateSampleLosesHour`).
* When the channel is full on a retry, the failed row records one attempt more than was made. It does so
  exactly for the deliveries one of whose retries found the channel full (`OverCountedIff`, `RequeueIff`),
  and every configuration that retries has such a run (`OverCountAttained`).
* A delivery whose last row write fails stays `pending` for ever (`LostStaysPending`); these are the only
  ones (`EndedPendingIff`, `QuiescentMeansDone`), and every configuration has such a run (`LostAttained`).
* Overlapping evaluations of one key, or a failed read, can leave two active alerts (`OverlapDuplicates`,
  `FailedReadDuplicates`): exactly when an insert runs while the key has an active alert (`AtMostOneIff`).
  It is enough that triggered evaluations of a key take turns from read to insert and that their reads of
  an active key succeed (`AtMostOneUnderOverlap`), as when they do not overlap at all
  (`AtMostOneWithoutOverlap`).
* A hub client whose removal is served before its registration stays in the map
  (`EarlyRemovalLeavesClient`): over every run, serving a removal closes the channel exactly when the
  registration was served before (`RemovalClosesIffRegistered`), and a client is in the map exactly when
  its registration was served and since then no removal and no shutdown (`InMapIff`).
* An evaluation that should resolve an alert leaves it active exactly when its read or its write fails
  (`LeftActiveIff`, `FailedReadKeepsAlert`).
* Deleting a rule does not clear its sustained timestamps, so a rule created again under the same id
  continues the old streak: it can fire a nanosecond after its creation (`RecreatedRuleFiresEarly`), and its
  first triggered evaluation passes the duration check early exactly when the deletion found a timestamp
  old enough (`RecreatedRuleIff`).
* README.md speaks of "exponential backoffs"; the code's backoff is quadratic, and that is what is
  modelled.

## Model

| member | source | states |
|---|---|---|
| NotificationQueue.Normalised | internal/notifications/queue.go:29-52 | the configuration is always usable; each positive parameter is kept and each other replaced by 4, 256 or 3 |
| QueueInvariant.AdvanceHands | internal/notifications/queue.go:110-166 | the channel is first in, first out: an action takes its front job, appends the job it holds, or leaves it alone |
| QueueInvariant.AdvanceTokens | internal/notifications/queue.go:97-169 | every atomic action hands its delivery on; it leaves only where its last write is attempted and enters only where its row is created |
| QueueInvariant.AdvanceHolder | internal/notifications/queue.go:127-170 | every action keeps its job's attempt number one above the sends made and its backoff the sum of squares, and a job it puts on the channel too |
| QueueInvariant.StepKeepsInv | internal/notifications/queue.go:68-171 | conservation, attempt accounting and the send budget survive every step of any goroutine, new calls and cascading deletions |
| QueueInvariant.Reachable | internal/notifications/queue.go:54-171 | the invariant holds after every run of every interleaving |
| QueueGuarantees.ExactlyOnePlace | internal/notifications/queue.go:97-170 | a delivery is unfinished iff it is on the channel or in one goroutine's hands, and never in two places |
| QueueGuarantees.PendingMeansLive | internal/notifications/queue.go:92-169 | the pending rows are exactly the unfinished deliveries and those whose last write failed |
| QueueGuarantees.FinalRowsAreFinal | internal/notifications/repository.go:122-133 | over any continuation of a run a row keeps its channel, a delivered or failed row never changes again, and a deleted row does not come back |
| QueueGuarantees.RecordedAttempts | internal/notifications/queue.go:141-170 | the recorded attempts are the sends made, one more exactly on the retry that found the channel full, status and sent_at tell which branch ended it, and status code and error are those of the latest send, or "queue full" without one |
| QueueGuarantees.JobsOnChannel | internal/notifications/queue.go:103-166 | every job on the channel has 1 <= attempt <= maxRetries and attempt = sends + 1, and the channel keeps its capacity |
| QueueGuarantees.WorkBounds | internal/notifications/queue.go:157-170 | total sends <= maxRetries x deliveries; one delivery sleeps at most (m-1)m(2m-1)/6 seconds |
| QueueGuarantees.PendingBounded | internal/notifications/queue.go:43-51 | pending rows <= queue size + workers + Enqueue calls in flight + failed last writes |
| QueueGuarantees.WorkTerminates | internal/notifications/queue.go:119-171 | once no call begins, the number of actions is bounded by a measure that each action lowers |
| QueueGuarantees.SomeoneCanAct | internal/notifications/queue.go:110-166 | while a job is queued or a goroutine is busy, some goroutine can act |
| QueueGuarantees.QuiescentMeansDone | internal/notifications/queue.go:119-171 | when nothing can act, no delivery is unfinished and only rows with a failed last write are pending |
| QueueRefusals.LostStaysPending | internal/notifications/repository.go:122-133 | once the last write of a delivery failed its row never changes again, and stays pending unless removed |
| QueueRefusals.EndedPendingIff | internal/notifications/queue.go:113-169 | over every run, the row of a delivery that has ended is pending iff its last write was answered with an error |
| QueueRefusals.LostAttained | internal/notifications/queue.go:146-150 | for every configuration, a run whose only delivery was sent and whose row stays pending |
| QueueRefusals.RequeueIff | internal/notifications/queue.go:162-169 | a retry goes back on the channel iff there is room; otherwise its delivery fails with attempts = sends + 1 |
| QueueRefusals.OverCountedIff | internal/notifications/queue.go:157-169 | over every run, a final row's attempts are its sends, plus one iff some retry of it found the channel full |
| QueueRefusals.OverCountAttained | internal/notifications/queue.go:157-169 | for every configuration that retries, a run ends with one attempt too many recorded |
| QueueLedger.FinalRowTellsTheSends | internal/notifications/queue.go:127-170 | over every run, a final row's attempts count the steps that sent its delivery, plus one iff a retry found the channel full, and its status code and error are the answer to the last of them, or "queue full" without one |
| QueueLedger.SendsBounded | internal/notifications/queue.go:157-170 | the steps of a run that send anything number at most maxRetries x deliveries |
| QueueLedger.OfferIff | internal/notifications/queue.go:110-116 | a new delivery goes on the channel iff there is room, and is otherwise refused with no attempts and "queue full" |
| QueueLedger.DeliveriesMatchChannels | internal/notifications/queue.go:82-108 | over every run, what is queued, about to be sent or retried is for an enabled channel some Enqueue call listed, and its row names that channel |
| QueueCode.Queue.constructor | internal/notifications/queue.go:29-52 | a new queue is the start state of its normalised configuration |
| QueueCode.Queue.TrySend | internal/notifications/queue.go:163-165 | the job is appended iff there is room |
| QueueCode.Queue.UpdateDelivery | internal/notifications/repository.go:122-133 | only the delivery's own row changes, not its channel, and sent_at only on delivery; a missing row stays missing, a refused write changes no row |
| QueueCode.Queue.ProcessJob | internal/notifications/queue.go:127-171 | processing a job alone is a run of the worker's atomic actions from sending to idle |
| QueueCode.Queue.EnqueueOne | internal/notifications/queue.go:82-116 | one round of the loop is a run of the caller's actions to the next channel; it adds exactly one row, of that channel, iff the channel is enabled and the insert succeeds |
| QueueCode.Queue.Enqueue | internal/notifications/queue.go:68-117 | a call alone is a run of the caller's actions over all listed channels; every enabled channel whose insert succeeds gets a row that names it, and no other row appears |
| QueueCode.EnqueueIsARun | internal/notifications/queue.go:68-117 | such a call is a run of the interleaved system, from the call to its return |
| QueueCode.Queue.Worker | internal/notifications/queue.go:119-125 | a worker draining the channel, retries included, empties it and keeps the invariant, whatever sends and writes answer |
| QueueCode.SoloIsARun | internal/notifications/queue.go:54-60 | what a goroutine does alone is a run of the interleaved system |
| QueueCode.WholeRound | internal/notifications/queue.go:122-124 | taking and processing one job lowers the termination measure and keeps the invariant |
| AlertStore.EveryStoreCoherent | internal/alerting/repository.go:304-392 | after any sequence of writes resolved_at is set iff resolved, acknowledgement columns agree with the status, and started <= acknowledged <= resolved |
| AlertStore.LifecycleOfSurvivors | internal/alerting/repository.go:304-392 | over any sequence of writes a surviving row only moves firing, acknowledged, resolved; resolved rows are final and an acknowledgement is written once and kept |
| AlertStore.ActiveAfterCreate | internal/alerting/repository.go:304-334 | an insert adds exactly its id to its key's active alerts, firing, with the evaluation's value and message and the insert's time |
| AlertStore.ActiveAfterResolve | internal/alerting/repository.go:365-392 | resolving removes exactly that id from the active alerts of every key and sets its value and resolution time |
| AlertStore.Repository.GetActiveAlert | internal/alerting/repository.go:272-302 | an active row of the key if there is one, none if there is none or the read fails |
| AlertStore.Repository.Create | internal/alerting/repository.go:304-334 | the insert succeeds iff the id is new and the rule exists, and adds exactly one firing row with the given key, value and message and its time |
| AlertStore.Repository.Acknowledge | internal/alerting/repository.go:336-363 | succeeds iff the alert is firing; only that row changes, to acknowledged with time, user and comment |
| AlertStore.Repository.Resolve | internal/alerting/repository.go:365-392 | succeeds iff the alert is firing or acknowledged; only that row changes, to resolved with time and value, and keeps its acknowledgement |
| AlertStore.Repository.Remove | internal/alerting/repository.go:172-179 | the rule and every alert of it are gone, every other rule and alert is unchanged |
| AlertStore.Repository.Save | internal/alerting/repository.go:85-170 | the rule is stored as given, "warning" standing in for no severity, and nothing else changes |
| AlertHistory.StreakStartMeaning | internal/alerting/engine.go:98-115 | the one timestamp kept is the lock time of the first evaluation of the running triggered streak, and absent iff none runs |
| AlertHistory.LiveMeaning | internal/alerting/engine.go:106-187 | an alert is active iff some evaluation met its duration and was stored and nothing has ended the alert since, across rule edits, refused writes and deletions |
| AlertHistory.FixedRuleMeaning | internal/alerting/engine.go:106-117 | with one rule: active iff last evaluation time - streak start >= max(0, for_duration) |
| AlertHistory.NoEarlyFiring | internal/alerting/engine.go:98-118 | at a firing the key has been triggered at every evaluation for at least for_duration |
| AlertHistory.FiringsAreApart | internal/alerting/engine.go:98-187 | in a key's history two firings are separated by an evaluation that resolved (or a deletion), and by at least for_duration |
| AlertEngine.OwnStep | internal/alerting/engine.go:95-188 | every action of an evaluation keeps table, sustained map and history in step for its key, failed reads included unless they hide an active alert from a triggered evaluation |
| AlertEngine.AdvanceElsewhere | internal/alerting/engine.go:95-188 | an evaluation leaves every other key's alerts, timestamp and history alone |
| AlertEngine.StepKeepsInv | internal/alerting/engine.go:95-188 | the invariant survives every action of every evaluation, acknowledgements, rule edits and cascading deletions |
| AlertEngine.Reachable | internal/alerting/engine.go:24-35 | the invariant holds after every run |
| AlertGuarantees.AtMostOneActiveAlert | internal/alerting/engine.go:121-188 | never two active alerts of one rule and agent, at any point of any interleaving |
| AlertGuarantees.EngineRefinesHistory | internal/alerting/engine.go:95-188 | after any run, one row and one timestamp represent exactly the predicate over the key's whole history |
| AlertGuarantees.ActiveMeansSustained | internal/alerting/engine.go:95-188 | with one rule and no refusals: active iff sustained and the last evaluation is at least for_duration after the stored timestamp |
| AlertGuarantees.InsertsAreFirings | internal/alerting/engine.go:128-142 | an insert takes the key from no active alert to one firing alert with the evaluation's value, and is never early |
| AlertGuarantees.NoticesAlternate | internal/alerting/engine.go:150-185 | firing and resolved notices of a key alternate, firing first, and their difference is the number of active alerts |
| AlertGuarantees.HistGrows | internal/alerting/engine.go:95-188 | over any continuation of a run a key's history only grows, and only a deletion of its rule adds anything but evaluations |
| AlertGuarantees.InsertsAreApart | internal/alerting/engine.go:98-187 | between two inserts of one key in one run its alert was ended, and without a deletion they are at least for_duration apart |
| AlertWrites.InsertAcceptedIff | internal/alerting/engine.go:128-142 | in every reachable state the insert of a triggered evaluation goes through iff its id is new and its rule exists |
| AlertWrites.ResolveAcceptedIff | internal/alerting/engine.go:160-178 | in every reachable state the resolve goes through iff the alert found is still firing or acknowledged, which it is unless its rule was deleted; it leaves the key without an active alert, and the row with the evaluation's value and its acknowledgement |
| AlertWrites.AcknowledgedIsResolved | internal/alerting/repository.go:336-392 | for every rule, a run from the start in which an alert fires, is acknowledged and is then resolved, both notices sent and the acknowledgement kept |
| AlertRules.RecreatedRuleIff | internal/alerting/repository.go:172-179 | over any run with a rule deleted and created again: its next triggered evaluation passes the duration check early iff the deletion found a timestamp that is then old enough |
| AlertRules.RecreatedRuleFiresEarly | internal/alerting/repository.go:172-179 | for every rule with a duration, a run in which the re-created rule fires one nanosecond after its creation |
| AlertOverlap.DuplicateStepIff | internal/alerting/engine.go:121-142 | with overlap and failed reads: a step takes a key from at most one to two active alerts iff it inserts while the key has one |
| AlertOverlap.AtMostOneIff | internal/alerting/engine.go:121-142 | over every run: never two active alerts iff no insert runs while the key has one |
| AlertOverlap.AtMostOneUnderOverlap | internal/alerting/engine.go:121-142 | never two active alerts if triggered evaluations of the key take turns from read to insert and their reads of an active key succeed, whatever else overlaps |
| AlertOverlap.AtMostOneWithoutOverlap | internal/alerting/engine.go:121-188 | in particular when evaluations of that key do not overlap and none of its reads misses an active alert |
| AlertOverlap.OverlapDuplicates | internal/alerting/engine.go:121-142 | for every rule, a run from the start in which two evaluations that read before either writes leave two active alerts |
| AlertOverlap.FailedReadDuplicates | internal/alerting/repository.go:298-300 | for every rule, a run from the start in which a failed read makes the next evaluation add a second active alert |
| AlertOverlap.LeftActiveIff | internal/alerting/engine.go:121-188 | in every reachable state with at most one active alert, an evaluation that is not triggered leaves one behind iff there was one and its read or write failed |
| AlertOverlap.FailedReadKeepsAlert | internal/alerting/repository.go:298-300 | for every rule, a run from the start in which a failed read leaves the alert active after the evaluation that should have resolved it |
| AlertOverlap.SustainedUnderOverlap | internal/alerting/engine.go:98-115 | under any overlap the stored timestamp is that of the first locked section of the running triggered streak, in lock order |
| AlertOverlap.OverlapNeverEarly | internal/alerting/engine.go:98-142 | under any overlap and any failure no insert is early: the key was triggered at every lock for at least for_duration |
| AlertGuarantees.SustainedKeyInjective | internal/alerting/engine.go:96 | the string key determines rule and agent when rule ids hold no colon |
| AlertGuarantees.SustainedKeyCollision | internal/alerting/engine.go:96 | exactly which pairs of keys share a string |
| AlertCode.SoloIsARun | internal/alerting/engine.go:95-188 | an evaluation alone, with successful reads, is a run of the interleaved system |
| AlertCode.TelemetryTaskOrigin | internal/alerting/engine.go:49-72 | a telemetry message evaluates exactly the enabled rules whose metric it carries, each with its own key, for_duration, value and condition |
| AlertCode.OfflineTaskOrigin | internal/alerting/engine.go:81-92 | an offline check evaluates exactly the enabled agent_offline rules, each with its own key, for_duration, 1 or 0 and the flag |
| AlertCode.ConditionLaws | internal/alerting/engine.go:212-226 | each operator above, at and below every threshold; an unknown one never triggers |
| AlertCode.MetricLaws | internal/alerting/engine.go:54-62 | which object and field each metric reads, and that no other metric has a value |
| AlertCode.TelemetryTasksInOrder | internal/alerting/engine.go:49-72 | the rules are taken in list order, each for itself |
| AlertCode.OfflineTasksInOrder | internal/alerting/engine.go:81-92 | likewise for the offline check |
| AlertCode.TelemetryKeysDistinct | internal/alerting/engine.go:49-72 | the loop evaluates no key twice |
| AlertCode.LoopsAreDisjoint | internal/alerting/engine.go:37-93 | the two loops never evaluate the same key |
| AlertCode.Engine.Change | internal/alerting/engine.go:131-170 | the write is the one the evaluation's action makes, or the evaluation ends refused |
| AlertCode.Engine.ProcessAlertState | internal/alerting/engine.go:121-188 | from the read to the end, the method is a run of the evaluation's actions |
| AlertCode.Engine.UpdateSustained | internal/alerting/engine.go:98-115 | the section under the mutex is one action of the evaluation |
| AlertCode.Engine.ProcessSustainedAndState | internal/alerting/engine.go:95-119 | the method is a run of the evaluation's actions from start to finish |
| AlertCode.Engine.EvaluateTelemetry | internal/alerting/engine.go:37-73 | the loop runs the selected evaluations to their end, in rule order |
| AlertCode.Engine.EvaluateAgentOffline | internal/alerting/engine.go:75-93 | the loop runs the offline evaluations to their end, in rule order |
| AlertLoops.EvaluationNeverEarly | internal/alerting/engine.go:95-188 | whatever its reads and writes answer, an evaluation that adds an alert does so at least for_duration after its key's timestamp |
| AlertLoops.TelemetryNeverEarly | internal/alerting/engine.go:37-118 | an alert the telemetry loop inserts belongs to an enabled rule of the list and comes at least that rule's for_duration, in nanoseconds, after the key's timestamp |
| AlertLoops.OfflineNeverEarly | internal/alerting/engine.go:75-118 | likewise for the offline loop |
| AlertLoops.LoopStreak | internal/alerting/engine.go:95-118 | throughout a loop with successful reads that timestamp is the lock time of the first evaluation of the key's running streak |
| Rollup.RollupBucket | internal/retention/worker.go:117-144 | a rollup gives every closed bucket with raw samples their aggregate and leaves every other row alone |
| Rollup.RolledRowOrdered | internal/retention/worker.go:119-131 | in every rolled row min <= avg <= max for CPU and memory, missing readings included, and the count is the bucket's samples |
| Rollup.RollupIdempotent | internal/retention/worker.go:134-144 | a second rollup in the same hour over the same samples changes nothing |
| Rollup.RootDisk | internal/retention/worker.go:93-104 | the first partition mounted at the root decides, present reading or not; none without one |
| Rollup.RowSummarises | internal/retention/worker.go:119-128 | a row's minima and maxima are attained readings that bound all others, its averages times the number of readings are their sums, and without readings they are zero |
| Rollup.RowOfOne | internal/retention/worker.go:119-131 | the row of one sample holds that sample's CPU, memory and root-disk readings, zero for those it lacks, its bytes, and counts one |
| Rollup.RowOfParts | internal/retention/worker.go:119-131 | counts and bytes of two parts of a bucket add up, and their averages combine weighted by the number of readings |
| Rollup.InterfaceBytes | internal/retention/worker.go:107-108 | an interface counts with the bytes it reports received and sent, zero for those it does not |
| Rollup.InterfacesConcat | internal/retention/worker.go:107-108 | the interfaces of a sample add up |
| Rollup.HourStarts | internal/retention/worker.go:86 | a time lies within the 3600 seconds of the hour it is truncated to |
| Rollup.RollupConserves | internal/retention/worker.go:125-133 | after a rollup the counts, received and sent bytes of the buckets with raw samples sum to those of all closed-hour samples |
| Rollup.GroupOfPurged | internal/retention/worker.go:147-158 | a purge keeps of every bucket exactly the samples no older than the cutoff, in order |
| Retention.Worker.constructor | internal/retention/worker.go:19-35 | defaults replace parameters that are not positive |
| Retention.Worker.ExecuteRollup | internal/retention/worker.go:69-75 | every closed bucket with samples gets their aggregate and every other row stays, or nothing happens when it fails |
| Retention.Worker.PurgeOldTelemetry | internal/retention/worker.go:147-158 | exactly the samples older than now minus the retention days go, bucket by bucket in order, or nothing when it fails |
| Retention.Worker.RunRetentionTask | internal/retention/worker.go:55-67 | the task is a rollup and then a purge on the modelled tables, each left out when it fails; the rollup covers what the purge deletes |
| Retention.RollupAgreesIff | internal/retention/worker.go:55-158 | over every run with failed rollups, late samples and any cutoffs: after a rollup a closed hour's row is the aggregate of all samples ever stored in it iff no rollup ran over a partly purged bucket and no purge took samples unseen by a rollup of the closed hour |
| Retention.StepStands | internal/retention/worker.go:55-67 | every insert, rollup and purge keeps a bucket's row in agreement with its history or harms it, and harm is never undone |
| Retention.RollupAgreesWithHistory | internal/retention/worker.go:55-158 | at any point of a run that did not harm a bucket, its row, once rolled up, is the aggregate of all samples it had by the last rollup, purged ones included |
| Retention.AlignedRunsAgree | internal/retention/worker.go:55-158 | in particular when cutoffs lie on the hour, purges take only what the last rollup closed and saw, and no sample arrives for a purged hour |
| Retention.FailedRollupLosesHour | internal/retention/worker.go:59-66 | for every sample: if the rollup fails and the purge goes on, its hour never gets a row |
| Retention.LateSampleLosesHour | internal/retention/worker.go:55-158 | for every two samples of one hour: the second, arriving after rollup and purge, leaves a row that counts one |
| Retention.PurgeHarmlessIff | internal/retention/worker.go:77-158 | a row survives purge and next rollup iff the cutoff does not fall between two samples of its bucket |
| Retention.AlignmentIsExact | internal/retention/worker.go:148 | a cutoff is harmless for all tables iff it is on the hour |
| Retention.UnalignedRunsLoseSamples | internal/retention/worker.go:55-67 | at any time off the hour, two runs can turn a correct count of 2 into 1 |
| Middleware.ClientKeyDropsPort | internal/middleware/middleware.go:95-98 | exactly the port is dropped from the address, IPv6 colons included |
| Middleware.RateLimiter.constructor | internal/middleware/middleware.go:80-86 | a limiter starts with the given limit and window and an empty table |
| Middleware.RateLimiter.Limit | internal/middleware/middleware.go:88-124 | decision and table are those of the request function the run theorems are about |
| Middleware.ServeSound | internal/middleware/middleware.go:100-120 | serving a request keeps, for every client, the pruned list faithful, short and every window bounded |
| Middleware.WindowBound | internal/middleware/middleware.go:100-120 | in every run, at most limit admissions of a client in (x - window, x], for every instant x |
| Middleware.DecidesLikeFullHistory | internal/middleware/middleware.go:104-120 | a request is refused iff exactly limit admissions of its client, over the whole history, lie in its window |
| Middleware.StoredListIsWindow | internal/middleware/middleware.go:104-119 | the stored list is the full history filtered to the window, and at most limit long |
| Middleware.ClosedWindowBound | internal/middleware/middleware.go:107 | a window with both ends holds at most twice the limit |
| Middleware.ClosedWindowAttained | internal/middleware/middleware.go:107 | that is reached, for every limit and window |
| Middleware.ClientsAreIndependent | internal/middleware/middleware.go:95-119 | removing other clients' requests changes nothing for a client |
| Hub.StepKeepsInv | internal/events/hub.go:61-140 | ownership of channels, order and accounting survive every step |
| Hub.Reachable | internal/events/hub.go:48-140 | they hold after every run |
| Hub.ChannelsAreOwned | internal/events/hub.go:67-112 | no send or close hits a closed channel, each is closed at most once, and a closed client is never in the map or on its way into it |
| Hub.DeliveryOrder | internal/events/hub.go:91-101 | a client gets accepted events in publication order without duplicates, and each broadcast of its membership is buffered once or dropped |
| Hub.PublishedAccountedFor | internal/events/hub.go:117-126 | published = dropped at the hub + queued + processed |
| Hub.PublishLaw | internal/events/hub.go:117-126 | a published event is dropped iff 256 events wait |
| Hub.BroadcastLaw | internal/events/hub.go:91-101 | serving a broadcast appends it to every client of the map with fewer than 64 unread items and drops it for exactly the others |
| Hub.PingLaw | internal/events/hub.go:103-112 | a ping is appended to every client of the map with room |
| Hub.ReceiveLaw | internal/events/handler.go:47 | a listener takes the oldest unread item, and nobody else's buffer changes |
| Hub.DroppedIsOverflown | internal/events/hub.go:91-101 | over every run, a client's dropped events are exactly the broadcasts served while it was in the map with a full buffer |
| Hub.NothingLostWithRoom | internal/events/hub.go:91-101 | over every run, a client whose buffer was never full at a broadcast has every event processed since it joined, in order |
| Hub.ServingLaw | internal/events/hub.go:65-113 | each case is served iff something waits for it and the hub has not shut down |
| Hub.HandshakeLaw | internal/events/hub.go:128-140 | registrations and removals go through iff one of their 64 slots is free |
| Hub.InMapIff | internal/events/hub.go:67-89 | over every run, a client is in the map iff its registration was served and since then no removal of it and no shutdown |
| Hub.RemovalClosesIffRegistered | internal/events/hub.go:82-89 | over every run, serving a removal of an open client closes its channel iff its registration was served before |
| Hub.EarlyRemovalLeavesClient | internal/events/hub.go:76-89 | served the other way round, the client stays in the map with an open channel |
| Hub.PublishedReachesParser | internal/events/handler.go:38-61 | what a listener parses from the bytes is what the client received: accepted events in order, none twice |
| HubCode.EventHub.constructor | internal/events/hub.go:48-59 | a new hub is the start state |
| HubCode.EventHub.Publish | internal/events/hub.go:117-126 | the method is the publish step |
| HubCode.EventHub.Subscribe | internal/events/hub.go:128-133 | making the client and sending it on register are the two steps |
| HubCode.EventHub.ServeRegister | internal/events/hub.go:76-80 | the case is the registration step |
| HubCode.EventHub.ServeUnregister | internal/events/hub.go:82-89 | the case is the removal step |
| HubCode.EventHub.SendToAll | internal/events/hub.go:93-100 | the loop over the map, in any order, offers the item to every client once |
| HubCode.EventHub.ServeBroadcast | internal/events/hub.go:91-101 | the case is the broadcast step |
| HubCode.EventHub.ServePing | internal/events/hub.go:103-112 | the case is the ping step |
| HubCode.EventHub.CloseClients | internal/events/hub.go:69-72 | the loop closes every client once and empties the map |
| HubCode.EventHub.Shutdown | internal/events/hub.go:67-74 | the case is the shutdown step |
| EventStream.ServeHTTP | internal/events/handler.go:38-61 | the bytes that arrive are the comment and the frames of the events that can be marshalled, up to where the connection fails; the first failed frame ends the loop |
| EventStream.MarshalledOne | internal/events/handler.go:52-55 | an event makes one message of its type and text, or none when it cannot be marshalled |
| EventStream.MarshalledConcat | internal/events/handler.go:47-59 | the messages come in the order of the events |
| EventStream.StreamRoundTrip | internal/events/hub.go:142-148 | parsing the stream by sections 9.2.5 and 9.2.6 of the HTML Living Standard gives back exactly the messages |
| EventStream.CutStreamDeliversPrefix | internal/events/handler.go:52-59 | a stream cut anywhere has delivered a prefix of the messages, each whole |
| EventStream.RoundTripIff | internal/events/hub.go:142-148 | for every sequence, the messages come back iff no type is empty and no type or data holds a line break |

## Left out

- `Queue.Stop`: it closes the channel while a retrying worker may still send on it, and no code calls it.
- `Provider.Send`, signing and Slack payloads: a send is an answer of the environment, success or failure with a status code.
- `QueueCode.Queue.Worker`: drains the channel while the rest of the pool is idle; the general case is `WorkTerminates` over interleavings.
- `AlertGuarantees.EngineRefinesHistory`: evaluations of the key do not overlap and no triggered one misses an active alert, because the row is then no function of the history; `SustainedUnderOverlap`, `OverlapNeverEarly` and `AtMostOneIff` are what holds without.
- `AlertGuarantees.AtMostOneActiveAlert`: the same two conditions; `AtMostOneIff` and `AtMostOneUnderOverlap` have the exact and the weaker one.
- `AlertGuarantees.NoticesAlternate`: the same two conditions and a rule that was never deleted, because a deletion ends an alert without a notice.
- `AlertEngine.OwnStep`: reads that hide an active alert from a triggered evaluation, for the same reason.
- `AlertStore.Repository.Create`: the refusal of an unknown agent is one of the refused writes (`StoreError`), not derived from a table of agents.
- `EventStream.ServeHTTP`: a connection that fails one write and accepts a later one.
- Deletion of agents, and of the alerts it cascades to: rule deletion shows the same cascade.
- Comments, `ListAlerts` and the other read-only queries: no state to keep.
- `cooldown_seconds` and `duration_seconds`: stored and never read by the engine.
- The text of the alert message: formatting of floats; the rule's name stands for it.
- 64-bit overflow of network byte sums: sums are unbounded integers.
- `Rollup.Aggregate`: the order in which SQL adds floating-point values is not modelled; sums are real.
- Encoding of the stream as UTF-8, and the `id` and `retry` fields of the parser: the frames use neither field.
- The default timestamp of `Publish`: events carry their marshalled text instead of separate fields.
- `json.Marshal`: its output is an input here; `RoundTripIff` says what it must not contain.
- HTTP routing, authentication, CORS, configuration and the observability endpoints: plumbing or single-branch facts.

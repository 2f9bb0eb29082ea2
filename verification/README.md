# Verification of the distributed task queue

A Dafny model of the queue in `dtq/`: the Redis-backed broker, the worker pool and the scheduler, with
proofs of what they keep and promise.

Redis is a value (`Store.Redis`): three sorted sets, two lists, a counter and the task records. Each Lua
script, each MULTI/EXEC pipeline and each single command is one atomic step on it. The classes `Broker`,
`WorkerPool` and `Scheduler` update the keys in place, loops included; each method is proved equal to the step
functions, and its contract also says outright what the keys are afterwards. `Protocol` lets any number of
producers, workers, schedulers and control-plane clients interleave those steps; `dequeue`, `cancel` and
`requeue_dlq` take several. A client that crashes takes no further step, and a record with a TTL may vanish
at any time.

Two run disciplines appear. In *any run* a worker whose lease was reaped may still ack, retry or bury. In a
*crash-stop run* it does nothing any more, and only `requeue_dlq` enqueues an id twice. Each result names
the discipline it needs. `StaleRuns` has runs in which the weaker one breaks one place per task, the status
table, conservation, the retry budget and the earliest start. The exact condition is proved for delivery over
whole runs (`RunsLoseOnlyByLateCancelWrites`), and for the first late step for places (`LateSettlement`), the
table (`LateStepKeepsTable`), conservation (`LateSettlementConserves`) and the start (`LateStepIsOnTime`).

The scheduler results have premises of their own: a firing pass finishes within the lock's time to live, and
nobody edits a schedule that a pass has in hand, from `get_schedule` to `put_schedule`. `ReplicaGaps` has what
holds without them and the runs in which the rest fails.

| file | content |
|---|---|
| `util.dfy`, `zset.dfy`, `models.dfy`, `store.dfy` | milliseconds, sorted sets, tasks, atomic steps |
| `broker.dfy`, `worker.dfy`, `scheduler.dfy` | the three classes |
| `protocol.dfy`, `at_least_once.dfy`, `crash_stop.dfy` | interleaved runs, delivery, places, status, conservation |
| `stale_runs.dfy` | what a worker breaks that acts after its lease was reaped |
| `batches.dfy`, `lanes.dfy`, `ready_scores.dfy` | batch independence, the ready set as 256 FIFO lists |
| `backoff.dfy`, `policy.dfy`, `retry_budget.dfy`, `exhaustion.dfy`, `drain.dfy` | delays, retry budget, exhaustion, draining |
| `timing.dfy`, `lease_loop.dfy`, `pool.dfy` | never early, leases, the renewal loop, concurrency control |
| `leader.dfy`, `schedules.dfy`, `firing.dfy`, `replicas.dfy` | leader lock, due index, firing, replicas |
| `replica_gaps.dfy` | the due index in all runs, and replicas without the premises on lock and edits |
| `recent.dfy` | the activity feed |

Check everything with `dafny verify dfyconfig.toml`.

Where code and documentation differ the model follows the code:

- "No task is silently lost" (`dtq/broker.py:7-8`) fails when a requeue overtakes the record write of a
  cancel: `OvertakenCancelLosesATask`, and exactly then: `RunsLoseOnlyByLateCancelWrites`.
- "A lease-renewal loop keeps long-running tasks from being reaped" (`dtq/worker.py:5`) holds only with room
  for the delays, and the room of the interval alone is not enough: a lease ages from the dequeue's reading
  until its task is on the list, and a late renewal by the task's former process can set its deadline back.
  `LeaseLoopKeepsLeases` has the exact bound.
- "Each schedule fires exactly once per tick" (`dtq/scheduler.py:6-7`) fails when a pass outlasts its lock
  (`SlowPassFiresTwice`), and a schedule edited after the listing may fire early (`PutOffScheduleFiresEarly`)
  or drop out of the index (`LateDropLosesASchedule`, and exactly then: `IndexFailsOnlyByLateDrops`).
- "Exactly one of cron or interval must be provided" (`dtq/cron.py:21`) is not enforced: a non-empty cron
  expression wins (`CronWinsOverInterval`).
- `retry_backoff_max` is called the cap on a single delay (`dtq/config.py:25`), but jitter is applied after
  it: `JitterMayPassTheCap`, and the exact condition in `CapHoldsIffSpreadFits`.
- `RUNNING` is described as "present in the in-flight set" (`dtq/models.py:23`), but a reaped record keeps
  that status while its id is ready: `RunningMayBeReady`, `RunningIsLeasedUnlessReady`.
- A feed limit below one still lets the first id through (`dtq/broker.py:224-228`): `FeedBelowOne`.

Assumptions that a theorem states or the model makes and the code does not enforce: the sequence counter stays below 10^13
(scores); clocks are synchronised and readings are not negative (timing); a process begins a task again only
when its earlier execution of it has left the list (leases; `OverlappingExecutionsForgetALease` shows why);
the two premises on firing passes above (replicas); `promote_batch` and `reaper_batch` are at least one,
without which the loops of the scheduler would not sleep; `autoscale_scale_step` is at least one;
`result_ttl` is at least one second, below which Redis rejects the SET of an ack or a cancel. A lock
counts as expired from the millisecond of its deadline on, the reading that favours it least.

## Model

| member | source | states |
|---|---|---|
| `Brokers.Broker.constructor` | dtq/broker.py:28-32 | a broker attaches to whatever the key space holds |
| `Brokers.Broker.Enqueue` | dtq/broker.py:64-85 | exactly an eta that is set, not zero and later than now puts the id into the delayed set at its millisecond, as SCHEDULED; anything else makes it ready at priority * 10^13 + the next sequence number, as PENDING; the record has no TTL and the id leads the recent list, cut at 1000 |
| `Brokers.Broker.ClaimNext` | dtq/lua.py:29-42 | the first id of the ready set is leased until the deadline and its record returned; an id without a record is dropped |
| `Brokers.Broker.Dequeue` | dtq/broker.py:120-135 | the script, then the running snapshot with one attempt more is stored without TTL |
| `Brokers.Broker.Ack` | dtq/broker.py:137-146 | the lease goes, the record says SUCCESS with the result TTL, nothing else moves |
| `Brokers.Broker.Retry` | dtq/broker.py:148-159 | the lease goes, the record says FAILED without TTL, the id is delayed to now + delay |
| `Brokers.Broker.DeadLetter` | dtq/broker.py:161-171 | the lease goes, the record says DEAD with 24 times the result TTL, the id heads the dead-letter list |
| `Brokers.Broker.RenewLeases` | dtq/broker.py:173-180 | the loop of ZADD XX moves exactly the existing leases that are named and adds none |
| `Brokers.Broker.PromoteDue` | dtq/lua.py:48-69 | the batch loop computes one sweep of the delayed set and counts it |
| `Brokers.Broker.ReapExpired` | dtq/lua.py:75-96 | the batch loop computes one sweep of the inflight set and counts it |
| `Brokers.Broker.RecentTasks` | dtq/broker.py:211-229 | for a limit of at least one: the newest stored tasks of the first 2 * limit entries, each once and newest first, and none is left out unless limit newer ones are listed |
| `Brokers.Broker.Cancel` | dtq/broker.py:241-255 | true exactly when the id was ready or delayed; then it is in neither and its record, if any, says CANCELLED; otherwise nothing changes |
| `Brokers.Broker.RequeueDlq` | dtq/broker.py:267-282 | true exactly when the id was on the list and its record existed; its first occurrence goes, and then the task is ready again as PENDING, with attempts 0 on reset; an expired record only leaves the list |
| `Brokers.Broker.PutSchedule` | dtq/broker.py:322-329 | the schedule is stored, and indexed at the millisecond of its next run exactly when it is enabled and has one that is not zero; the other names stay as they are |
| `Brokers.Broker.DeleteSchedule` | dtq/broker.py:339-344 | both entries go and no other; true exactly when the schedule existed |
| `Brokers.Broker.AcquireLock` | dtq/broker.py:350-353 | SET NX PX: taken exactly when no live token is stored, and then it is the caller's for its time to live |
| `Brokers.Broker.RefreshLock` | dtq/lua.py:109-115 | extended by the time to live exactly when the live token is the caller's, otherwise unchanged |
| `Util.DueIsAtMostOneMsEarly` | dtq/util.py:41-43 | a score due at a clock value belongs to a time less than one millisecond ahead of it |
| `Util.MsCountsMilliseconds` | dtq/util.py:41-43 | a score is the time in milliseconds, truncated towards zero |
| `Store.DeadOutlivesResults` | dtq/broker.py:161-171 | dead records are kept at least 24 times as long as results |
| `AtLeastOnce.UnsettledTasksAreNeverLost` | dtq/broker.py:3-9 | at-least-once in any run, stale workers included: an id without ack, burial or successful cancel since its last enqueue is ready, delayed or leased, and its record cannot expire, provided no cancel is overtaken by an enqueue of the same id |
| `AtLeastOnce.LossIsExactlyALateCancelWrite` | dtq/broker.py:241-255 | a single step endangers an unsettled task if and only if it is the record write of a cancel that an enqueue of that id overtook |
| `AtLeastOnce.RunsLoseOnlyByLateCancelWrites` | dtq/broker.py:241-255 | over whole runs without any discipline: no state of the run has lost an unsettled task if and only if no step is such a late write |
| `AtLeastOnce.CrashStopNeverLosesTasks` | dtq/broker.py:3-9 | in crash-stop runs the guarantee needs no assumption on cancels |
| `AtLeastOnce.OvertakenCancelLosesATask` | dtq/broker.py:247-254 | a reachable state in which an unsettled task is in no queue and has no record: cancel script, late burial, requeue, cancel write, expiry, dequeue |
| `CrashStopRuns.StepKeepsInv` | dtq/broker.py:64-171 | every step of a crash-stop run keeps places, records, live executions and pending calls consistent |
| `Protocol.DequeueInOneGo` | dtq/broker.py:120-135 | the two steps of a dequeue, uninterrupted: leased, RUNNING, one attempt more |
| `Protocol.CancelInOneGo` | dtq/broker.py:241-255 | the three steps of a cancel, uninterrupted: in no queue, CANCELLED, with the result TTL |
| `Protocol.RequeueInOneGo` | dtq/broker.py:267-282 | the three steps of a requeue, uninterrupted: off the list, ready, PENDING |
| `CrashStopRuns.OnePlacePerTask` | dtq/keys.py:13-17 | ready, delayed, inflight and the dead-letter list are pairwise disjoint, the list without duplicates, in every crash-stop run |
| `CrashStopRuns.StatusTable` | dtq/models.py:20-27 | in crash-stop runs, what each status says about the place of its id; an unexpired record is DEAD exactly when its id is dead-lettered; queued and leased records have no TTL |
| `CrashStopRuns.DequeueIsEmptyOnlyWhenReadyIs` | dtq/broker.py:120-128 | in crash-stop runs dequeue finds nothing exactly when nothing is ready |
| `CrashStopRuns.CancelGapsTakeCareOfThemselves` | dtq/broker.py:241-255 | no crash-stop step enqueues an id whose cancel is under way |
| `CrashStopRuns.LateSettlement` | dtq/broker.py:137-171 | exactly when an ack, retry or burial by a reaped worker still leaves its task in one place |
| `CrashStopRuns.RunningIsLeasedUnlessReady` | dtq/models.py:23 | in crash-stop runs, outside gaps, a task whose record says RUNNING is leased if and only if it is not ready |
| `CrashStopRuns.LateStepKeepsTable` | dtq/models.py:20-27 | exactly when a start, ack, retry or burial by a reaped worker still leaves the status table right |
| `CrashStopRuns.TasksAreConserved` | dtq/broker.py:202-209 | in crash-stop runs ready + delayed + inflight + dead + requeues under way = fresh enqueues - acks - successful cancels - requeues of expired records |
| `CrashStopRuns.LateSettlementConserves` | dtq/broker.py:137-171 | exactly when an ack, retry or burial by a reaped worker keeps that balance |
| `StaleRuns.RunningMayBeReady` | dtq/lua.py:79-92 | a reachable state with a RUNNING record whose id is ready and not leased |
| `StaleRuns.LateRetryPutsATaskInTwoPlaces` | dtq/broker.py:148-159 | a reachable state with one id both ready and delayed, through the retry of a reaped worker |
| `StaleRuns.LateAckBreaksTheStatusTable` | dtq/broker.py:137-146 | a reachable state with a ready task marked SUCCESS, through the ack of a reaped worker |
| `StaleRuns.LateRetryBreaksConservation` | dtq/broker.py:148-159 | a reachable late retry that adds a member and counts as nothing |
| `StaleRuns.LateRetryStartsEarly` | dtq/broker.py:148-159 | a reachable late retry, with any delay, whose task the next dequeue leases at once |
| `StaleRuns.LateStartBreaksTheBudget` | dtq/broker.py:129-134 | a run in which the late start of a reaped worker makes two retries under a limit of one |
| `Batches.DrainIsOneSweep` | dtq/scheduler.py:54-71 | any sequence of PROMOTE or REAP calls with growing clocks and any limits, by any replicas, that ends below its limit equals one unlimited call at the last clock value, scores and counter included |
| `Batches.TwoDrains` | dtq/lua.py:48-96 | draining at one time and then at a later one is draining at the later one |
| `Batches.NothingDueIsLeft` | dtq/lua.py:48-69 | a call below its limit leaves exactly the members that were not due |
| `Batches.BatchTakesTheEarliest` | dtq/lua.py:48-69 | a call moves due members only, the earliest ones first, and as many as its limit allows |
| `Batches.MovedGetNewScores` | dtq/lua.py:56-63 | a moved member with a record is ready at its record's priority and a number not handed out before; other ready members keep their scores |
| `Batches.SweepShrinks` | dtq/lua.py:61-68 | a call removes as many members as it reports |
| `Schedulers.Scheduler.PromoteUntilSleep` | dtq/scheduler.py:54-62 | with a clock reading for each batch, the no-sleep loop terminates with nothing due at its last reading and, unless the clock goes back, in the state of one unlimited promotion then |
| `Schedulers.Scheduler.ReapUntilSleep` | dtq/scheduler.py:64-71 | the same for the reaper |
| `Lanes.ScoreDecodes` | dtq/broker.py:61-62 | a packed score decodes to its priority and sequence number and is below 2^53 |
| `Lanes.StepRefines` | dtq/lua.py:15-42 | one enqueue, dequeue or delete on the sorted set is the same operation on 256 lists, with the same answer |
| `Lanes.RunRefines` | dtq/lua.py:1-8 | every sequence of such operations gets the same answers from both, while the counter is below 10^13 |
| `ReadyScores.StepIsQueueOps` | dtq/lua.py:15-105 | what each protocol step does to the ready set, as list operations |
| `ReadyScores.ReadySetIsTheLists` | dtq/keys.py:13-14 | in every run of the whole protocol the ready set holds exactly what the 256 lists hold |
| `ReadyScores.ReadyScoresAreExact` | dtq/models.py:45-46 | ready scores are pairwise distinct, below 2^53, and decode to a priority in 0..255 and a number that was handed out |
| `ReadyScores.DequeueTakesTheLowestList` | dtq/lua.py:30-35 | a dequeue takes the head of the lowest-numbered non-empty list |
| `ReadyScores.ReadyScoresCarryThePriority` | dtq/lua.py:56-63 | with fresh ids, stale workers included, a ready score carries the producer's priority, and so does the record |
| `Backoff.NominalIsMonotoneAndCapped` | dtq/util.py:20-22 | the delay before jitter never shrinks with the attempt and never passes the cap |
| `Backoff.JitterStaysInBand` | dtq/util.py:23-26 | the jittered delay is within its spread of the nominal one, and the clamp at zero never acts |
| `Backoff.JitterPassesTheCapBySpread` | dtq/util.py:22-25 | the jittered delay is at most the cap plus the cap's spread |
| `Backoff.CapHoldsIffSpreadFits` | dtq/config.py:25 | no draw takes an attempt's delay past the cap if and only if the delay before jitter plus its spread is at most the cap |
| `Backoff.CapHoldsAlwaysIffNoJitter` | dtq/config.py:25-26 | for a factor above one and a positive cap, every attempt keeps to the cap if and only if the jitter is zero |
| `Backoff.JitterMayPassTheCap` | dtq/config.py:23-26 | with the default settings the eleventh attempt may wait 360 s under a cap of 300 s |
| `Backoff.TotalWaitIsCapped` | dtq/util.py:18-22 | the delays of m retries add up to at most m times the cap |
| `Backoff.TotalWaitIsGeometric` | dtq/util.py:18-22 | and to at most base * (factor^m - 1) / (factor - 1) |
| `Backoff.TheCapIsReached` | dtq/util.py:22 | for a factor above one the delay is the cap from some attempt on |
| `Policy.RetryDelayIsPromised` | dtq/worker.py:164-170 | the delay a worker uses lies within the jitter fraction of the capped exponential of the attempt, from the task's own backoff or else the settings |
| `Workers.WorkerPool.HandleFailure` | dtq/worker.py:156-177 | the limit is the task's, else the handler's, else the default; a retryable failure within it puts the task off by min(base * factor^(attempts - 1), cap), give or take the jitter fraction, with the task's own non-zero base and cap before the settings; every other failure buries it |
| `Workers.WorkerPool.Begin` | dtq/worker.py:120-121 | the task is on the list of leases from the start of its coroutine |
| `Workers.WorkerPool.Conclude` | dtq/worker.py:128-151 | a result acknowledges, an exception is a retryable failure, a task without a handler is buried |
| `Workers.WorkerPool.Leave` | dtq/worker.py:152-154 | the list entry goes when the coroutine ends |
| `RetryBudget.RetriesStayWithinBudget` | dtq/worker.py:156-173 | in crash-stop runs, crashes included, between two enqueues a task is retried at most max(0, limit - attempts at the enqueue) times |
| `RetryBudget.RetriesCarryMoreAttempts` | dtq/worker.py:162-171 | in crash-stop runs successive retries of a task carry strictly increasing attempts |
| `RetryBudget.NoBudgetMeansBurial` | dtq/worker.py:162-175 | in crash-stop runs a task enqueued with its budget used up is buried by the next reported failure |
| `Exhaustion.ExhaustionLastsUntilReset` | dtq/broker.py:274-281 | in crash-stop runs, from a burial by exhaustion until a requeue with reset: no live execution of the task will be retried, and a requeue opens an account without retries, or with the whole budget on reset |
| `Exhaustion.RunRemembers` | dtq/broker.py:161-171 | no crash-stop run without a reset makes the stored record, or what a requeue has read of it, forget an attempt that the task was buried with |
| `Drain.RoundMakesProgress` | dtq/worker.py:97-104 | promote, dequeue and settle executes one queued task, which is settled or goes back with one execution less to go |
| `Drain.DrainingTerminates` | dtq/worker.py:156-177 | from every crash-stop state, once the leases are reaped past the last deadline, the sum of max(1, limit + 1 - attempts) over queued and leased tasks is enough executions to empty all queues, with each of those tasks acknowledged or dead-lettered |
| `Drain.DrainKeeps` | dtq/worker.py:156-177 | the same from any store without leases in which the queues are disjoint and every queued task has its record |
| `Drain.RoundIsAProtocolRun` | dtq/worker.py:97-104 | such a round is a run of the protocol |
| `Timing.NeverEarly` | dtq/broker.py:64-75 | in crash-stop runs no dequeue takes effect earlier than 1 ms before the eta of its task or the time of its last retry, however old the readings of the commands in between |
| `Timing.LateStepIsOnTime` | dtq/broker.py:148-159 | exactly when a step by a reaped worker lets its task start early |
| `Timing.RenewedLeaseIsNeverReaped` | dtq/broker.py:173-180 | in crash-stop runs, while each renewal takes effect within the visibility timeout, less 1 ms, of the reading before it, the lease is never reaped |
| `Timing.ReapedExactlyWhenExpired` | dtq/lua.py:75-94 | from a crash-stop state, an unlimited reap takes a live lease if and only if its deadline has come, and the task is ready again exactly then |
| `LeaseLoops.LeaseLoopKeepsLeases` | dtq/worker.py:201-213 | with vt the visibility timeout, no lease of the process is reaped in any crash-stop run, renewals by others of any ids included, if and only if latency + 2 * extra is at most vt - 1.001 and at most 2 * vt / 3 - 0.001; latency runs from the reading of a dequeue to the entry in the list, extra is what a round adds to the interval |
| `LeaseLoops.SlackNeeds1001Ms` | dtq/worker.py:202 | these two bounds are what max(1, vt / 3) leaves of vt, less a millisecond; they leave room for any delay if and only if vt is at least 1.001 s |
| `LeaseLoops.OverlappingExecutionsForgetALease` | dtq/worker.py:121-154 | a reachable state in which an execution begins before an earlier one of its task has left, and then runs with a lease that no round lists |
| `Workers.WorkerPool.WakeUp` | dtq/worker.py:206-208 | a round names exactly the ids on the list, and nothing is sent when it is empty |
| `Workers.WorkerPool.Renew` | dtq/worker.py:207-208 | the named leases that still exist get the deadline of the round's reading |
| `Pools.TargetIsReachedOnTime` | dtq/worker.py:226-230 | under a constant backlog the target is the desired one exactly from tick ceil(distance / step) on |
| `Pools.DesiredIsGoal` | dtq/worker.py:222-225 | the desired target is the fewest workers, at least the minimum, with room for the backlog, cut at the maximum |
| `Pools.TicksApproach` | dtq/worker.py:226-230 | each tick comes one step nearer and never crosses the desired target |
| `Pools.TargetStaysInside` | dtq/worker.py:222-230 | under any backlogs a target within its bounds stays within them |
| `Pools.ExecutionsNeverExceedCap` | dtq/worker.py:95-108 | in every interleaving of dispatcher, completions and autoscaler the executions stay within the larger of initial and maximal concurrency |
| `Workers.WorkerPool.LookForWork` | dtq/worker.py:97-98 | the dispatcher awaits a dequeue exactly when there is room |
| `Workers.WorkerPool.FillSlots` | dtq/worker.py:97-104 | whatever completes and wherever the target moves while a dequeue is awaited: with a record for every ready task the loop claims the ready tasks first by priority and sequence, in that order, each onto a lease, stops exactly at the target or when nothing is ready, and never grows past a bound of the targets |
| `Workers.WorkerPool.Resume` | dtq/worker.py:98-104 | the answer to the dequeue adds one execution or none |
| `Workers.WorkerPool.AutoscaleTick` | dtq/worker.py:221-230 | the tick moves the target towards that goal for ready plus executing, by at most the step and never past it |
| `Leader.LeadersExclude` | dtq/scheduler.py:91-94 | if one replica is leader at t1 and another at a later t2, then t2 >= t1 + the first one's time to live |
| `Leader.PromptLeaderStays` | dtq/scheduler.py:91-94 | whatever others try in between, a leader that refreshes before its time to live is over stays leader for another one |
| `Schedulers.Scheduler.constructor` | dtq/scheduler.py:30 | the time to live of the lock is the whole milliseconds of six scheduler intervals, at least two seconds |
| `Schedulers.Scheduler.IsLeader` | dtq/scheduler.py:91-94 | a live owner stays leader and its lock runs anew; anyone becomes leader of a free lock; otherwise false and nothing changes |
| `Schedulers.Scheduler.FireDueSchedules` | dtq/scheduler.py:96-124 | the loop computes the pass function on the timetable and the enqueues on the queue |
| `Replicas.PassesNeverOverlap` | dtq/scheduler.py:81-88 | passes that finish within the time to live of their election never overlap between replicas |
| `Replicas.EachDueEntryFiresOnce` | dtq/scheduler.py:6-7 | after any run within the premises, each schedule that is due when a pass lists has had that due entry enqueued exactly once by the end of the pass if no edit of it came before the pass had dealt with it, and never if one did |
| `Replicas.NoEntryFiresTwice` | dtq/scheduler.py:81-124 | within the premises no due entry is ever enqueued twice, and between passes the enqueued entries are the consumed ones |
| `Replicas.IndexAlwaysAgrees` | dtq/broker.py:322-347 | within the premises, at every moment the due index is the set of enabled schedules with a next run, so the query equals the filter over the table |
| `Replicas.OnlyEditedSchedulesFireEarly` | dtq/scheduler.py:96-113 | a pass enqueues from the current definition of an enabled schedule, which is due at the reading of the pass unless it was edited between the listing and get_schedule |
| `ReplicaGaps.PutOffScheduleFiresEarly` | dtq/scheduler.py:98-113 | a run within the premises in which a schedule that was put off after the listing is fired early |
| `ReplicaGaps.IndexFailsOnlyByLateDrops` | dtq/scheduler.py:98-102 | over all runs, with any edits and any passes: index and table agree in every state if and only if no pass drops a name that is indexed by then |
| `ReplicaGaps.LateDropLosesASchedule` | dtq/scheduler.py:99-102 | a run in which a schedule is enabled again between get_schedule and ZREM, and is due and not in the index any more |
| `ReplicaGaps.SlowPassFiresTwice` | dtq/scheduler.py:81-113 | a run in which a pass outlasts its lock and one due entry is enqueued twice |
| `Schedules.NextRunIsLater` | dtq/cron.py:14-31 | a next run is strictly later than its base |
| `Schedules.FirstRunIsLater` | dtq/scheduler.py:127-155 | a new schedule first runs strictly after its base; a disabled one has no next run |
| `Schedules.MakingComputesTheNextRun` | dtq/scheduler.py:127-155 | a new schedule is its definition with the first next run, refused exactly when it is enabled and there is none |
| `Schedules.FiringRewrites` | dtq/scheduler.py:116-124 | firing records time and task and moves the next run by cron, else by a positive interval; with neither it disables; nothing else changes |
| `Schedules.CronWinsOverInterval` | dtq/cron.py:24-31 | a schedule given both runs by its cron expression, whatever the interval |
| `Schedules.DueQueryIsTheFilter` | dtq/broker.py:346-347 | where the index agrees, the query lists exactly the due schedules, each once, earliest first |
| `Firing.PassEffect` | dtq/scheduler.py:96-124 | a pass fires each due schedule once, however many ticks it missed, and leaves the others alone |
| `Firing.OneNameFires` | dtq/scheduler.py:98-124 | a listed name with an enabled schedule is sent once and rewritten; any other is only dropped from the index |
| `Firing.PassEnqueuesOnePerDueSchedule` | dtq/scheduler.py:104-113 | a pass makes exactly one ready task per due schedule, field by field from its definition; the other records, ready scores and keys of the queue stay as they were |
| `Firing.FiringMovesOn` | dtq/scheduler.py:118-124 | an interval schedule that fired at t is next run at t + interval and no longer due at t |
| `Firing.FiresAreSpaced` | dtq/scheduler.py:96-124 | consecutive fires are more than the interval less 1 ms apart |
| `Firing.FireCountIsBounded` | dtq/scheduler.py:96-124 | k fires span at least k - 1 times that |
| `Recent.FeedIsOrderedAndDistinct` | dtq/broker.py:214-219 | the feed is ordered by newest occurrence, each id once |
| `Recent.FeedIsStoredAndLimited` | dtq/broker.py:222-229 | it lists records that are stored, and for a limit of at least one at most that many |
| `Recent.FeedIsTheNewest` | dtq/broker.py:214-229 | for a limit of at least one the feed function is that: newest, stored, distinct, in order, and complete |
| `Recent.FeedIsFull` | dtq/broker.py:217-228 | with 2 * limit entries, none more than twice among them and none expired, the feed has exactly limit tasks |
| `Recent.FeedBelowOne` | dtq/broker.py:224-228 | a limit below one gives the newest entry if its record is stored, and nothing else |
| `Recent.PushedIsNewest` | dtq/lua.py:20-21 | a push puts the id first, keeps the order of the rest, and caps the list at 1000 |

## Left out

- Task and schedule ids are numbers whose order stands for the byte order of the strings; new ids are
  parameters that are fresh where a theorem needs it.
- JSON and pydantic serialisation: records are datatypes, so the undecodable-payload fallback to priority
  100 in PROMOTE and REAP never occurs.
- Task and schedule objects are passed by value; that `enqueue`, `ack` and the others also change the
  caller's object is not captured.
- Clock readings and random draws are parameters. Times, delays and powers are reals: binary rounding is
  not modelled, except that integer scores are proved to be exact doubles.
- croniter is an abstract function with a result strictly after its base, or a ValueError.
- Redis failures, reconnection and script registration: a command either takes effect or the client stops.
- `submit`, `stats`, `get_task`, `list_dlq` and `get_schedule` only build arguments or read.
- Workers.WorkerPool.Conclude: handler bodies, timeouts and metrics are replaced by how the handler ended.
- Workers.WorkerPool.FillSlots: the order of the claims is for one process; the commands of others between two
  dequeues are in `Protocol`, not here.
- Workers.WorkerPool.LookForWork: the adaptive poll sleep and graceful shutdown are not modelled.
- LeaseLoops.LeaseLoopKeepsLeases: a renewal that fails and is swallowed (`dtq/worker.py:209-210`) counts as a
  round that is late.
- Pools.ExecutionsNeverExceedCap: an execution is a number; the asyncio task behind it is not modelled.
- Drain.DrainingTerminates: rounds start late enough for every delayed task to be due, and no other client
  acts in between.
- Heartbeats, worker pruning, the handler registry, the HTTP control plane, the dashboard, the command line
  and the metrics.

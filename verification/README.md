# Chronon scheduler: protocol model and proofs

Chronon is a lease-based scheduler. Creators, coordinators, workers and reclaimers race on shared run and job
rows; SQL is the authority, a Redis sorted set only orders claims. This project models that protocol and the store
operations under it, and proves what holds over every interleaving. `dafny verify dfyconfig.toml` checks it all.

## What is modelled

- Time is an unbounded integer of nanoseconds on one clock that never goes backwards. Queue scores are whole
  milliseconds, rounded down. JSON columns are opaque strings, ids are strings.
- `RunStore`, `ReadyQueue`, `CompositeStore`, `JobStore`, `PartitionAssigner`, `LeaderElection`, `EventHandler`,
  `WorkerSlot` and `TickLoop` hold the classes whose methods follow the source's loops and branches. Each method
  equals a function of the old state, or states its result outright.
- `ClaimProtocol`, `LeaseSafety`, `LeaseExclusion` and `ClaimTurns` interleave creators, claimers, workers and
  reclaimers, one store call at a time, with a program counter per actor. The key invariant says who owes a queued run
  its place in the queue. `LateWrites` runs that protocol from empty stores into trouble; `BatchRules` says how far the
  batch claim loop gets.
- `TickProtocol`, `TickSafety`, `TickLimits`, `CronSafety`, `CronLimits` and `RowWrites` interleave any number of
  coordinators through the steps of `enqueue_due_job`, with stale due lists, pauses, deletes, upserts that read a row
  and write it back, failed enqueues and workers finishing runs. `TickRuns` puts stretches of such runs together, and
  `TickRules.AttemptIsARun` ties the sequential method to the protocol.
- `LeaderProtocol` interleaves electors against the leader row. `PartitionRound` composes refreshes one after another.
- `JobTableRules` covers the name index and the revision history; `DueScan` the due scan, idle sleep and buckets;
  `SqlGuards` the `WHERE` clauses under SQL's three-valued logic.

## Where the code promises less than it seems to

Each point names a lemma that exhibits failing inputs and the lemma with the exact condition.

- The claim loop can miss a claimable run. A run due later in the current millisecond sorts as due, is popped, put
  back in first place and popped again (`SubMillisecondRunStarvesTheQueue`). `FastClaimWinsIff` says exactly when the
  single-claim loop wins, `BatchWinsIff` when the batch loop does. The store contract says that `None` means the
  pool's queue is empty (chronon-core/src/store.rs:126-132).
- `skip_due_job` gives the tick lease back twice, because persisting the next fire already clears it, and a release
  does not check the claim id. A coordinator that enters in between loses its lease to the second release
  (`WindowBreaksExclusion`). As far as ticks go, exclusion under timely coordinators holds if and only if the job has no
  misfire window (`ExclusionIffNoWindow`). Run-once jobs need no such hypothesis, because a skip completes them first.
- An upsert reads the row and writes the whole row back, tick lease and run-once columns included. If a coordinator
  entered in between, its lease is gone (`StaleWriteBreaksExclusion`), and if a run-once job fired in between, it fires
  again (`StaleWriteFiresTwice`). The write keeps exclusion if and only if its lease covers the one inside
  (`RowWriteIsSafeIff`), and run-once if and only if its row is completed (`OnceWriteIsSafeIff`). The tick theorems take
  this as a hypothesis on upserts.
- A cron fire enqueued before its time can fire again: the next fire is recomputed from the clock, not from the fire.
  That happens with the 50 ms look-ahead while draining (`LookaheadFiresTwice`), and without it when a second ticker
  acts on a stale due list (`StaleListFiresTwice`). A fire is safe if its time has come; an early one is safe only if the
  job is gone, or if the fire came due while the attempt was under way and the misfire gate refuses the fire that is
  written back (`FireIsSafeIff`).
- `update_run` does not check the owner. One late start can put two workers on one run (`LateWriteBreaksExclusivity`):
  a running write is safe if and only if nobody else holds the run live (`StartIsSafeIff`). The last write of a run never
  breaks exclusivity (`EndIsSafe`). A late write can also revive a finished run (`LateWriteRevivesEndedRun`); nothing but
  a late write touches one (`OnlyLateWritesTouchEndedRuns`).
- `renew_run_lease` extends a lease that has lapsed (`LapsedLeaseIsRenewed`), although its contract says that it
  returns false then (chronon-core/src/store.rs:178-180). It succeeds if and only if the worker still owns the held
  run (`RunStore.RunTable.RenewRunLease`).
- A renaming service upsert onto a taken name with a changed revision is refused after its revision was written
  (`RefusedRenameLeavesRevision`, `RefusedUpsertLeavesNoRevisionIff`). The HTTP upsert never renames, so its histories
  are gap-free.
- Revision numbers stop at 2^31 - 1. From there on an accepted upsert changes the job and records nothing
  (`KnownUpsertIsRecorded`).
- A live partition row beyond the partition count takes up part of a coordinator's share and can leave a partition
  without owner (`StrayRowHidesPartition`). `RoundCoversIff` says exactly when a round covers everything all the same.
- A job keeps the bucket of the partition count it was created under (`ShrunkCountHidesJob`, `ChangedCountHidesIff`).
- A run-once claim with a NULL expiry reads differently in memory and in SQL (`NullExpiryReadsDifferently`,
  `RunOnceGuardsAgreeIff`); no sequence of store calls creates one.

## Model

The rows go by area: claim queue, run leases and workers, events, tick, due scan, job table, partitions, leader, SQL
guards. In each area the main results come first.

| member | source | states |
|---|---|---|
| ClaimProtocol.NoRunIsEverLost | chronon-backend-redis/src/composite/claim.rs:23-137 | In every interleaving of creators, claimers (single and batch), workers and reclaimers, split at each SQL and Redis call, every run SQL calls queued sits in its own pool's set under millis(scheduled_for), or some actor that popped, created or reset it still owes the claim or the re-add. |
| ClaimProtocol.StepKeepsInv | chronon-backend-redis/src/composite/mod.rs:110-212 | Each single store call of any actor keeps the obligation invariant and leaves what every run fixed at creation unchanged. |
| ClaimProtocol.RunKeepsInv | chronon-backend-redis/src/composite/claim.rs:60-137 | The invariant and the run snapshots hold after every finite run of the protocol. |
| ClaimProtocol.SnapshotsNeverChange | chronon-runtime/src/worker.rs:137-170 | A run's job, script, actor, parameters, pool, attempt and due time never change in any interleaving, and every copy a worker holds agrees with the store on them. |
| ClaimProtocol.RetriesCarrySnapshot | chronon-runtime/src/retry.rs:87-98 | Along every chain of retries that workers create, in every interleaving, attempts count up by one and job, script, actor, parameters, pool and placement are those of the first run. |
| ClaimProtocol.StepKeepsRetries | chronon-runtime/src/worker.rs:238-244 | Each step keeps every retry the next attempt of its run. |
| ClaimTurns.BatchIsSettled | chronon-backend-redis/src/composite/claim.rs:122-136 | From a pop through every interleaving to the end of the claimer's reconciliation: each popped run is exactly one of held by the claimer under this turn's lease, queued and waiting in its own set or owed by somebody else, or neither. |
| ClaimTurns.UntouchedRunIsWonOrWaits | chronon-backend-redis/src/composite/claim.rs:79-136 | A queued popped run that nobody else touched during the turn is either taken under the new lease and reported as won, or unchanged and waiting or owed by somebody else. |
| ClaimTurns.WonIsHeld | chronon-backend-redis/src/composite/claim.rs:128-134 | If no worker writes a run that another holds, what the claimer was told it won is held by it while the new lease lasts. |
| ClaimTurns.UnreturnedRunIsRecovered | chronon-backend-redis/src/composite/claim.rs:132-134 | A run that was won and not returned is taken back by a reclaim at or after its lease end, whatever timely steps come before it. |
| ClaimTurns.ForgottenRowStays | chronon-backend-mem/src/store/runs.rs:163-183 | Until then no timely step changes its row. |
| ClaimProtocol.HeldRowsAreLeased | chronon-backend-mem/src/store/runs.rs:100-103 | However late workers write, a claimed or running row has an owner and a lease end, and a reclaim frees it exactly from that end on. |
| CompositeRules.PutBackComplementsClaim | chronon-backend-redis/src/composite/claim.rs:23-58 | The put-back decision is the exact complement of the claim guard on queued runs and always names the run's own queue. |
| CompositeRules.FastClaimRefinesSimple | chronon-backend-redis/src/composite/claim.rs:108-120 | With nobody else in flight, what the single-claim loop wins is a claimable run of the smallest due millisecond, taken by the same row update as the simple claim; a drained queue means SQL holds nothing claimable; both stores stay in step. |
| CompositeRules.FastClaimWinsIff | chronon-backend-redis/src/composite/claim.rs:105-120 | The loop returns a run if and only if some claimable run has fewer than the attempt cap due members before it and none of those is put straight back into the same set. |
| CompositeRules.LosingTurnKeepsReach | chronon-backend-redis/src/composite/claim.rs:60-77 | One turn of the loop that pops an unclaimable member keeps the stores in step and leaves exactly the same runs within reach, with one attempt fewer. |
| BatchRules.BatchWinsIff | chronon-backend-redis/src/composite/claim.rs:122-136 | The batch loop returns a run if and only if a claimable run stands within reach in the pool's line of due members, where each turn gets a batch further, less the blockers that come up again. |
| BatchRules.ReachUnblocked | chronon-backend-redis/src/composite/claim.rs:122-136 | Without blockers the loop gets exactly attempts times the batch size down the line. |
| BatchRules.ReachStuck | chronon-backend-redis/src/composite/claim.rs:122-136 | A batch's worth of blockers stops the loop for good. |
| BatchRules.LossShortensLine | chronon-backend-redis/src/composite/claim.rs:79-94 | A losing turn leaves the line with the popped blockers in front, in order, and the rest of the popped members gone. |
| BatchRules.PoppedIsHead | chronon-backend-redis/src/queue.rs:167-176 | A pop takes exactly the head of the pool's line. |
| CompositeRules.FastClaimCompleteWhenUnblocked | chronon-backend-redis/src/composite/claim.rs:105-120 | With at most 64 due members and none that blocks, the fast claim finds a run exactly when the simple one would. |
| CompositeRules.SubMillisecondRunStarvesTheQueue | chronon-backend-redis/src/composite/claim.rs:36-46 | A concrete queue on which completeness fails for every number of attempts: a run due later in the current millisecond hides a claimable one. |
| CompositeRules.BlockedFirstStarves | chronon-backend-redis/src/composite/claim.rs:108-120 | A blocked first member makes the loop give up after any number of attempts, with both stores unchanged. |
| CompositeRules.TurnConserves | chronon-backend-redis/src/composite/claim.rs:122-136 | One batch turn: every popped waiting run is either taken under the new lease or waiting again in its own set, never both, and no other row changes. |
| CompositeRules.ConservedCompose | chronon-backend-redis/src/composite/claim.rs:122-136 | Conservation survives from turn to turn of a claim call. |
| CompositeRules.ConservedKeepsSync | chronon-backend-redis/src/composite/claim.rs:97-137 | A conserving call on stores in step leaves them in step. |
| CompositeStore.PostgresRedisStore.CreateRun | chronon-backend-redis/src/composite/mod.rs:110-119 | Row first, queue second; queued runs enter their own pool's set and the stores stay in step. |
| CompositeStore.PostgresRedisStore.RequeueMismatch | chronon-backend-redis/src/composite/claim.rs:23-58 | The re-read and three-way put-back equals the put-back function of the row. |
| CompositeStore.PostgresRedisStore.ClaimOne | chronon-backend-redis/src/composite/claim.rs:60-77 | Claims by id or puts back, never both. |
| CompositeStore.PostgresRedisStore.ClaimRunsByIds | chronon-core/src/store.rs:157-175 | Claiming ids one after another has the outcome of one statement over all of them, and returns exactly the rows it took. |
| CompositeStore.PostgresRedisStore.ReconcileUnclaimed | chronon-backend-redis/src/composite/claim.rs:79-94 | Re-adds every unclaimed popped id to its own set, whatever order it is done in. |
| CompositeStore.PostgresRedisStore.ClaimNextQueued | chronon-backend-redis/src/composite/claim.rs:97-137 | The whole call conserves runs for any batch size; a returned run is taken under the new lease; with a batch of one it is the single-claim loop, with a larger one it returns a run exactly when the batch loop wins. |
| CompositeStore.PostgresRedisStore.ClaimInBatches | chronon-backend-redis/src/composite/claim.rs:122-136 | The batch loop conserves runs over all its turns and returns a run exactly when BatchWins says so. |
| CompositeStore.PostgresRedisStore.BatchTurn | chronon-backend-redis/src/composite/claim.rs:123-134 | One turn pops the head of the line, claims what is claimable and puts the rest where it belongs. |
| CompositeStore.PostgresRedisStore.LoopTurn | chronon-backend-redis/src/composite/claim.rs:122-135 | A turn with left turns to go conserves runs, and the loop wins from its start exactly if the turn wins or the rest of the loop does. |
| CompositeStore.PostgresRedisStore.ClaimSingly | chronon-backend-redis/src/composite/claim.rs:108-120 | The single loop equals its recursive specification. |
| CompositeStore.PostgresRedisStore.ReclaimExpiredRunLeases | chronon-backend-redis/src/composite/mod.rs:201-212 | Every lapsed run is reset and waits in its own set again; the stores stay in step. |
| ReadyQueue.RedisQueue.EnqueueRun | chronon-backend-redis/src/queue.rs:119-135 | Adds or moves the member to the millisecond of its due time. |
| ReadyQueue.RedisQueue.ClaimNextRunIds | chronon-backend-redis/src/queue.rs:156-199 | Pops exactly the first due members, by score and then by member, at most the count. |
| ReadyQueue.RedisQueue.RemoveRun | chronon-backend-redis/src/queue.rs:206-216 | Removes one member and no other. |
| ReadyQueue.RedisQueue.FindFirst | chronon-backend-redis/src/queue.rs:167-176 | Finds the first due member in score and member order, or reports that none is due. |
| ReadyQueue.FirstIsUnique | chronon-backend-redis/src/queue.rs:167-176 | Score, then member, leaves exactly one first due member. |
| ReadyQueue.LexBelowIff | chronon-backend-redis/src/queue.rs:167-176 | Between equal scores, members are ordered by their first difference, a proper prefix first. |
| ReadyQueue.DueRangeIsDistinctAndDue | chronon-backend-redis/src/queue.rs:167-176 | A popped range repeats no member and holds only due ones. |
| Models.PoolTestIsQueueKey | chronon-backend-sql-common/src/row/pool_key.rs:4-9 | The pool test of the claim statements holds exactly when the run's queue key is that pool. |
| LeaseExclusion.LeasesAreExclusive | chronon-backend-mem/src/store/runs.rs:65-139 | In every run in which nobody starts a run that another worker holds live, no two workers hold the same run under live leases, however late workers finish. |
| LeaseExclusion.StartIsSafeIff | chronon-backend-mem/src/store/runs.rs:16-23 | A worker's running write is safe if and only if nobody else holds the run live: otherwise some timely continuation gives two workers the same run. |
| LeaseExclusion.ContendedStartIsJoined | chronon-backend-mem/src/store/runs.rs:163-183 | That continuation: a new reclaimer takes the run back at once and a new claimer pops and claims it while the second worker still holds it. |
| LeaseExclusion.EndIsSafe | chronon-runtime/src/retry.rs:56-72 | The last write of a run is always safe for exclusivity, contended or late. |
| LeaseExclusion.StepKeepsExclusion | chronon-backend-mem/src/store/runs.rs:65-183 | Each step keeps live leases separate, and each of them the row's own or on a run that has ended. |
| LeaseExclusion.ReachableStates | chronon-backend-mem/src/store/runs.rs:65-183 | The hypotheses of both hold in every state reached from empty stores without a contended start. |
| LeaseSafety.RunningWriteKeepsLeasesIff | chronon-backend-mem/src/store/runs.rs:16-23 | A worker's running write leaves every live lease recorded in its row if and only if no other actor holds the run live. |
| LeaseSafety.TerminalWriteKeepsLeasesIff | chronon-backend-mem/src/store/runs.rs:16-23 | The same for the last write of a run, which may leave another worker's lease unrecorded but not shared. |
| LeaseSafety.TimelyIsUncontended | chronon-runtime/src/worker.rs:137-146 | A worker inside its own lease never writes a run that another holds. |
| LeaseSafety.StepKeepsLeases | chronon-backend-mem/src/store/runs.rs:107-183 | Each step that writes no run held by another keeps every unexpired lease the one its row records. |
| LeaseSafety.TimelyRunKeepsLeases | chronon-runtime/src/worker.rs:137-244 | Timely runs are uncontended, keep the lease invariant and never change a row that has ended. |
| LeaseSafety.TerminalRowUnchanged | chronon-backend-mem/src/store/runs.rs:16-23 | No step changes a run that has ended. |
| LeaseSafety.OnlyLateWritesTouchEndedRuns | chronon-backend-mem/src/store/runs.rs:16-23 | With no hypothesis on the step: a run that has ended is changed only by a write that comes after the writer's own lease. |
| LeaseSafety.ClaimedAgainOnlyAfterReclaim | chronon-backend-mem/src/store/runs.rs:163-183 | With no hypothesis on late writes: a run that was claimed and is queued later was reclaimed in between, at or after its stored lease end. |
| LeaseSafety.LapsedRunIsRequeued | chronon-backend-mem/src/store/runs.rs:163-183 | A claimed run, returned to its worker or not, is queued by the next reclaim after its lease end and owed its queue entry; earlier ones leave it alone. |
| LateWrites.LateWriteBreaksExclusivity | chronon-backend-mem/src/store/runs.rs:16-23 | From empty stores, with every other write timely: one contended late write, a reclaim and a claim put two workers on the same run under live leases. |
| LateWrites.LateWriteRevivesEndedRun | chronon-backend-mem/src/store/runs.rs:16-23 | From empty stores, with every other write timely: one late write makes a finished run running again. |
| RunRules.ReclaimFreesEveryLapsedRun | chronon-backend-mem/src/store/runs.rs:163-183 | Reclaim leaves no active run lapsed, and each reclaimed run is claimable again by its own pool exactly once it is due. |
| RunRules.RenewRevivesLapsedLease | chronon-backend-mem/src/store/runs.rs:142-161 | A renewal by the owner takes a run off the reclaim list even after its lease end. |
| RunRules.LapsedLeaseIsRenewed | chronon-backend-mem/src/store/runs.rs:142-161 | Such a run, concretely. |
| RunRules.LeaseLastsItsTime | chronon-backend-mem/src/store/runs.rs:107-161 | A claimed run is its worker's alone: nobody else can claim or renew it, and it comes up for reclaim exactly when the requested seconds have passed since the claim or the last renewal. |
| RunRules.ReclaimUndoesClaim | chronon-backend-mem/src/store/runs.rs:163-183 | A reclaim leaves the run exactly as it waited in the queue, whether it was only claimed or started too. |
| RunStore.RunTable.CreateRun | chronon-backend-mem/src/store/runs.rs:11-14 | Stores the row. |
| RunStore.RunTable.UpdateRun | chronon-backend-mem/src/store/runs.rs:16-23 | Replaces a whole row of an existing run, with no check of its owner. |
| RunStore.RunTable.ListRunsForJob | chronon-backend-mem/src/store/runs.rs:29-44 | Returns the job's newest runs, at most the limit, none passed over. |
| RunStore.RunTable.ClaimNextQueued | chronon-backend-mem/src/store/runs.rs:65-105 | Takes a run with the earliest due time among all claimable ones, and fails exactly when there is none. |
| RunStore.RunTable.ClaimRunById | chronon-backend-mem/src/store/runs.rs:107-140 | Takes the run if and only if it is claimable by the pool. |
| RunStore.RunTable.RenewRunLease | chronon-backend-mem/src/store/runs.rs:142-161 | Succeeds exactly for the owner of a held run, even past its lease end. |
| RunStore.RunTable.ReclaimExpiredRunLeases | chronon-backend-mem/src/store/runs.rs:163-183 | Resets exactly the held runs whose lease has ended and names each once. |
| WorkerRules.ServedRunIsFinished | chronon-runtime/src/worker.rs:110-244 | A served run succeeds, fails or times out exactly as its script did, and fails at once if its job is gone; start and end are stamped, the snapshot untouched; a retry exists if and only if the script did not succeed and the attempt is from 1 to max_attempts. |
| WorkerRules.RetryIsClaimable | chronon-runtime/src/retry.rs:87-98 | The retry is queued one attempt later with job, script, actor, parameters and pool, and claimable by the same pool exactly from its due time on. |
| WorkerRules.FailingJobGetsEveryAttempt | chronon-runtime/src/retry.rs:74-98 | After n failing turns, each on the retry of the one before and with anything else in between, there is another retry if and only if n is at most max_attempts: a job that always fails gets exactly max_attempts + 1 runs. |
| WorkerRules.StreakCounts | chronon-runtime/src/retry.rs:87-98 | The k-th turn of such a streak serves attempt k + 1 with the first run's snapshot. |
| WorkerSlot.Worker.ServeOne | chronon-runtime/src/worker.rs:96-248 | One turn either changes no row or brings one claimable run to its end, touching no other row except claims of the same batch; every queued run still waits in its own set. |
| WorkerSlot.Worker.Execute | chronon-runtime/src/worker.rs:137-244 | Start, renewals, end and retry together leave the row built from the copy taken at the claim: renewals leave no trace. |
| WorkerSlot.Worker.KeepLease | chronon-runtime/src/worker.rs:148-164 | Renewals change nothing but the lease end of the run. |
| WorkerSlot.Worker.FinalizeFailedRun | chronon-runtime/src/retry.rs:43-119 | The failed row is stored, then the next attempt if the policy allows, and it is queued; when the row is gone, nothing happens. |
| EventRules.EventsOnlyAdvance | chronon-runtime/src/events.rs:18-108 | Over every event stream a run only moves from queued or claimed to running and then to one terminal status, its snapshot never changes, and no run has two retries. |
| EventRules.HandleProgress | chronon-runtime/src/events.rs:18-108 | One event makes at most one such move and leaves every other run alone. |
| EventRules.FirstEndDecides | chronon-runtime/src/events.rs:41-106 | In every event stream the first completion or failure of a running run decides its end, success or failure, with that event's time; without one the row stays as it is, and nothing later changes it. |
| EventRules.FirstStartDecides | chronon-runtime/src/events.rs:20-106 | A queued or claimed run starts with the first start event of its id, and only ends that come after it count. |
| EventRules.FailedRunIsRetriedIff | chronon-runtime/src/retry.rs:74-98 | After every event stream, the failed last run of a chain of attempts has been retried if and only if the chain has at most max_attempts runs: a job that always fails gets exactly max_attempts + 1. |
| EventRules.EventsRetryFailures | chronon-runtime/src/retry.rs:74-98 | No event leaves a failed run without the retry its policy allows. |
| EventRules.HandleKeepsInv | chronon-runtime/src/retry.rs:43-119 | Every retry continues a failed run one attempt later with everything that run fixed. |
| EventRules.RetryChainIsBounded | chronon-runtime/src/retry.rs:74-98 | With an unchanged policy a chain of attempts has at most max_attempts + 1 runs, all carrying job, script, actor, parameters and pool of the first. |
| EventRules.ChainCounts | chronon-runtime/src/retry.rs:87-98 | The k-th run of a chain is attempt k + 1 of the first and keeps its snapshot. |
| EventHandler.Handler.HandleExecutorEvent | chronon-runtime/src/events.rs:18-108 | The handler's guards and writes equal the transition function. |
| EventHandler.Handler.FinalizeFailedRun | chronon-runtime/src/retry.rs:43-119 | Terminal row, then retry, and nothing when the run is gone. |
| TickProtocol.TickSectionIsExclusive | chronon-scheduler/src/tick_loop.rs:95-246 | For any number of coordinators, with stale due lists, pauses, deletes and upserts, at most one is between its tick claim and its release, if leases are given back in time, nobody enters during a skip's double release, and a row that an upsert writes back has a tick lease that covers the one inside. |
| TickProtocol.StepKeepsSection | chronon-scheduler/src/tick_loop.rs:95-246 | Each store call keeps the section exclusive and its lease the owner's. |
| TickProtocol.RunKeepsSection | chronon-scheduler/src/tick_loop.rs:95-246 | The section invariant holds over all such runs. |
| TickProtocol.LeaseIsNeverLeftBehind | chronon-scheduler/src/tick_loop.rs:95-246 | In every run, timely or not, a row that came without a tick lease has one only while some coordinator is inside, if upserts write rows back with their columns current. |
| TickProtocol.ExitClearsLeases | chronon-scheduler/src/tick_loop.rs:95-246 | Each way out of the section clears the tick lease. |
| TickLimits.ExclusionIffNoWindow | chronon-scheduler/src/tick_loop.rs:79-91 | For a job that can fire, timely coordinators are kept apart if and only if the job has no misfire window, over all runs in which upserts write back rows that cover the one inside and keep the policy: a skip releases the tick lease twice. |
| TickLimits.RowWriteIsSafeIff | chronon-axum/src/handlers.rs:78-139 | An upsert may write its row back while a coordinator is inside if and only if that row's tick lease lasts as long as the coordinator's. |
| TickLimits.StaleWriteBreaksExclusion | chronon-backend-sql-common/src/jobs.rs:28-60 | For every job that can fire, window or not, from the start: an upsert that read the row before a tick claim writes it back unchanged, and a second coordinator enters. |
| TickLimits.WindowBreaksExclusion | chronon-backend-mem/src/store/claims.rs:138-155 | For every such job with a window, from the start: three timely coordinators, two inside. |
| TickLimits.ExclusionWithoutWindow | chronon-scheduler/src/tick_loop.rs:40-56 | Without a misfire window timeliness alone keeps the section exclusive. |
| TickLimits.LateTickIsJoined | chronon-backend-mem/src/store/claims.rs:115-136 | The timeliness hypothesis is needed: from the start, a coordinator past its lease end is joined by another. |
| TickSafety.TicksRespectConcurrency | chronon-scheduler/src/tick_loop.rs:123-133 | In disciplined runs with at most 10,000 recorded runs, a tick enqueue never leaves more runs that have not ended than the job's concurrency. |
| TickSafety.ActiveUntilFinished | chronon-core/src/models/run.rs:29-40 | A run counts as active from its creation until it has succeeded, failed, timed out or been canceled. |
| TickSafety.CountIsExactIff | chronon-scheduler/src/tick_loop.rs:26-29 | The count over the newest 10,000 runs is exact if and only if no active run is hidden behind them. |
| TickSafety.FireStaysWithinLimit | chronon-scheduler/src/tick_loop.rs:123-133 | A coordinator that counted has room for the run it creates. |
| TickSafety.RunOnceFiresAtMostOnce | chronon-scheduler/src/tick_loop.rs:140-216 | However stale the due lists and however many coordinators, a run-once job gets at most one tick run if leases are given back in time and upserts write rows back with their columns current; no hypothesis on misfire skips. |
| RowWrites.OnceWriteIsSafeIff | chronon-axum/src/handlers.rs:78-139 | Once a run-once job has fired, an upsert may write back a row that is otherwise free to fire if and only if that row is completed too. |
| RowWrites.StaleWriteFiresTwice | chronon-backend-mem/src/store/mod.rs:95-114 | From the start: an upsert reads a run-once job, the job fires, the upsert writes the row back, and the job fires again. |
| TickSafety.StepKeepsOnce | chronon-backend-mem/src/store/claims.rs:10-63 | Each step keeps at most one winner of the run-once claim. |
| TickSafety.SkippedRunOnceNeverFires | chronon-scheduler/src/tick_loop.rs:65-73 | A run-once job whose misfire was skipped never gets a tick run, if upserts write rows back with their columns current. |
| TickSafety.OutsideHoldsNoClaim | chronon-scheduler/src/tick_loop.rs:140-216 | In every run, timely or not, a coordinator outside the section holds no run-once claim, if upserts write rows back with their columns current. |
| CronSafety.PunctualFiresIncrease | chronon-scheduler/src/tick_loop.rs:31-56 | For any number of tickers, with or without look-ahead and on due lists however stale: in orderly runs without upserts in which every fire has come due, the due times of a cron job's tick runs strictly increase. |
| CronSafety.StepKeepsTickers | chronon-scheduler/src/tick_loop.rs:95-246 | Each such step keeps every carried row and the stored one ahead of all fires. |
| CronLimits.FireIsSafeIff | chronon-scheduler/src/tick_loop.rs:232-243 | A fire about to be enqueued is safe if and only if its time has come, or the job is gone, or the fire came due meanwhile and the misfire gate refuses what the schedule gives next. Otherwise some timely continuation in which all later fires are punctual repeats or reorders an instant. |
| CronLimits.OvertakenIsSafe | chronon-scheduler/src/tick_loop.rs:40-56 | The last of these cases, over every such continuation. |
| CronLimits.DeletedIsSafe | chronon-scheduler/src/tick_loop.rs:110-121 | A deleted job takes no further fire. |
| CronLimits.EarlyFireRepeats | chronon-scheduler/src/tick_loop.rs:232-243 | After any other early fire a punctual tick enqueues an instant that is no later. |
| CronLimits.StaleListFiresTwice | chronon-scheduler/src/tick_loop.rs:422-429 | From the start, two tickers without look-ahead and a job of any concurrency: one with a stale due list enqueues the next fire before its time, and the instant fires again when it comes. |
| CronSafety.CronFiresStrictlyIncrease | chronon-scheduler/src/tick_loop.rs:31-56 | Over every history of one ticker that does not look ahead, timely or not, the due times strictly increase, across enqueues, failed enqueues, skips and blocked ticks. |
| CronSafety.NextFireAdvancesIff | chronon-scheduler/src/tick_loop.rs:232-243 | The recomputed next fire is later than the one just enqueued if and only if that one had come due. |
| CronLimits.LookaheadFiresTwice | chronon-scheduler/src/tick_loop.rs:422-429 | From the start, with look-ahead and a job of any concurrency: one coordinator that ticks twice before a fire enqueues that instant twice. |
| TickSafety.TickRunIsClaimable | chronon-scheduler/src/tick_loop.rs:173-176 | A tick's run snapshots the loaded row and, from its due time on, is claimable by exactly the job's pool. |
| TickRules.AttemptIsARun | chronon-scheduler/src/tick_loop.rs:95-246 | What one uninterrupted attempt does to row and runs is a run of the multi-coordinator protocol. |
| TickRules.ClaimedIsARun | chronon-scheduler/src/tick_loop.rs:105-246 | The same, for each verdict of an attempt that got the tick lease. |
| TickRules.VerdictsAre | chronon-scheduler/src/tick_loop.rs:95-206 | Exactly when an attempt enqueues and exactly when it skips, in terms of the row, the count and the clock. |
| TickRules.GateOpensIff | chronon-scheduler/src/tick_loop.rs:38-56 | The misfire gate lets a fire through if and only if there is no window, or it is less than a second late, or the policy runs misfires and it is less than a second more than the window late. |
| TickRules.CronMovesOn | chronon-scheduler/src/tick_loop.rs:58-93 | An enqueue or skip moves a cron job on to its next fire, any other attempt leaves the fire; once the lease is given back only its time keeps it from being due. |
| TickRules.CronNeverStops | chronon-scheduler/src/tick_loop.rs:232-243 | A cron job whose schedule does not end keeps a next fire through any number of attempts, whatever their verdicts. |
| TickRules.OnceIsNeverDueAgain | chronon-scheduler/src/tick_loop.rs:65-78 | A run-once job that was enqueued or skipped is never due again. |
| TickRules.EnqueuedRow | chronon-scheduler/src/tick_loop.rs:208-243 | The calls of a successful enqueue compose to the settled row: lease and claims cleared, fire moved on, run-once completed. |
| TickRules.ReleasedAfterFailure | chronon-scheduler/src/tick_loop.rs:178-206 | Undoing a failed enqueue clears the run-once claim and the lease and nothing else. |
| TickRules.SkipReleasesTwice | chronon-scheduler/src/tick_loop.rs:79-91 | The second release of a skip changes nothing when nobody entered in between. |
| TickLoop.Coordinator.EnqueueDueJob | chronon-scheduler/src/tick_loop.rs:95-246 | An attempt enqueues if and only if the lease was free, fewer than concurrency runs were counted, the misfire gate lets the fire through, the run-once claim was won and the store took the run; row and runs are as that verdict says, and the gate is what GateIsOpen writes out. |
| TickLoop.Coordinator.EnqueueClaimedJob | chronon-scheduler/src/tick_loop.rs:105-246 | The attempt once the tick lease is won, by verdict. |
| TickLoop.Coordinator.FireClaimedJob | chronon-scheduler/src/tick_loop.rs:140-246 | The part inside the section, for run-once and other jobs. |
| TickLoop.Coordinator.CreateTickRun | chronon-scheduler/src/tick_loop.rs:173-246 | Creates the run and moves the job on, or undoes the claims when the store refuses it. |
| TickLoop.Coordinator.SkipDueJob | chronon-scheduler/src/tick_loop.rs:58-93 | A skip's calls, as one row update. |
| TickLoop.Coordinator.CountActiveRuns | chronon-scheduler/src/tick_loop.rs:26-29 | Counts the active ones of the newest 10,000 runs of the job: never more than there are, and all of them if the job has no more runs than that. |
| TickLoop.Coordinator.AttemptAll | chronon-scheduler/src/tick_loop.rs:473-482 | Every due job's row is settled by its own verdict, other rows are untouched, and the runs are the enqueued ones. |
| TickLoop.Coordinator.Plan | chronon-scheduler/src/tick_loop.rs:413-488 | Due list, drain flag and sleep of a tick. |
| TickLoop.Coordinator.RunOneTick | chronon-scheduler/src/tick_loop.rs:392-500 | A tick's plan and effects: what it reports is exactly what happened. |
| TickLoop.TickCountsItsRuns | chronon-scheduler/src/tick_loop.rs:473-499 | A tick creates exactly as many runs as it reports and rewrites none. |
| TickLoop.ListIsListing | chronon-backend-mem/src/store/runs.rs:29-44 | The list of newest runs is the listing the concurrency check of the protocol reads. |
| DueScan.ScanMissesNone | chronon-backend-mem/src/store/claims.rs:65-94 | A scan that left a due, free job out returned a full limit of jobs that fire no later. |
| TickLoop.IdlePlanWakesInTime | chronon-scheduler/src/tick_loop.rs:444-463 | A tick that found nothing sleeps at most a second, or one tick interval when no fire is known, and wakes no later than any free job fires. |
| TickLoop.PlanListsDueJobs | chronon-scheduler/src/tick_loop.rs:413-443 | A tick lists only free jobs whose fire has come, or comes within 50 ms while draining, and leaves such a job out only for a full batch of others that fire no later. |
| DueScan.IdleSleepWakesInTime | chronon-scheduler/src/tick_loop.rs:444-463 | The bound and the wake-up time for every clock reading and look-ahead. |
| DueScan.IdleWaitIsZeroIff | chronon-scheduler/src/tick_loop.rs:447-455 | The sleep is empty exactly when the next fire is less than 21 ms away. |
| DueScan.IdleWaitIsExact | chronon-scheduler/src/tick_loop.rs:447-455 | The ticker wakes after whole milliseconds, between 20 and 21 ms before the fire, or after a second if that is sooner, or at once. |
| DueScan.EveryStoredJobIsWatched | chronon-scheduler/src/partitioning.rs:9-23 | After any history of API calls with one partition count, an owner of all partitions watches every enabled, scheduled job with a next fire. |
| DueScan.ServiceKeepsBuckets | chronon-runtime/src/coordinator_service.rs:93-95 | Any service upsert stores the job under its bucket. |
| DueScan.BucketIsRemainder | chronon-scheduler/src/partitioning.rs:9-13 | A bucket is what whole turns through the partitions leave of the hash: every bucket is some hash's, and equal buckets are whole turns apart. |
| DueScan.ChangedCountHidesIff | chronon-scheduler/src/partitioning.rs:17-23 | After the partition count changes, a job is visible to an owner of everything if and only if its stored bucket is below the new count. |
| DueScan.ShrunkCountHidesJob | chronon-scheduler/src/partitioning.rs:17-23 | A job in bucket 63 of 64 is hidden from the owner of all of 32 partitions. |
| Ordering.TakeEarliestIsEarliest | chronon-backend-mem/src/store/claims.rs:86-93 | Sorting by key and taking the limit yields the earliest entries, whatever order they were collected in. |
| JobStore.JobTable.FindDueJobIds | chronon-backend-mem/src/store/claims.rs:65-94 | Returns the earliest due jobs of the owned partitions, at most the limit, none passed over. |
| JobStore.JobTable.MinNextRunAt | chronon-backend-mem/src/store/claims.rs:96-113 | Returns the earliest fire of any enabled, scheduled job in the owned partitions, or none exactly if there is none. |
| JobTableRules.IndexAlwaysAgrees | chronon-backend-mem/src/store/mod.rs:95-142 | Names and job ids are in bijection after every sequence of upserts with renames, deletes and row updates. |
| JobTableRules.OpKeepsIndex | chronon-backend-mem/src/store/mod.rs:95-142 | One operation keeps the bijection. |
| JobTableRules.LookupIsSearch | chronon-backend-mem/src/store/jobs.rs:18-27 | Lookup by name equals a search of all rows. |
| JobTableRules.HistoryIsGapFree | chronon-axum/src/handlers.rs:78-139 | After every sequence of HTTP upserts, deletes, pauses, resumes and tick writes, a stored job's revisions are exactly 1 to its current revision, and its id, name, script and creation time never change. |
| JobTableRules.HttpUpsertKeepsHistory | chronon-axum/src/handlers.rs:63-139 | An HTTP upsert keeps index and history, changes only the named job, and when refused changes nothing. |
| JobTableRules.AcceptedUpsertIsFound | chronon-axum/src/handlers.rs:78-139 | After an accepted upsert, lookup by name finds a job with the requested fields, each out-of-bounds value moved to the nearest bound; for what the request leaves out a known job keeps its values, tick lease and run-once columns included, and a new one has the defaults. |
| JobTableRules.KnownUpsertIsRecorded | chronon-runtime/src/coordinator_service.rs:103-119 | An accepted upsert of a known name at revision r stores revision r + 1 and appends exactly that stored job to the history; at the largest number neither number nor history changes. No other row or history does. |
| JobTableRules.NewUpsertIsRecorded | chronon-runtime/src/coordinator_service.rs:120-140 | An accepted upsert of a new name stores revision 1 and starts a history with it. |
| JobTableRules.UpsertAnswers | chronon-axum/src/handlers.rs:63-139 | For every request, what the upsert answers: the first failing check of script, actor, pool, cron and script match, or success exactly if none fails. |
| JobTableRules.LastRevisionDefinesJob | chronon-runtime/src/coordinator_service.rs:103-140 | After every sequence of API calls, each revision holds the job as stored under its number, and the last one all that defines the job as it is now, as long as the numbers last. |
| JobTableRules.DeletedJobIsGone | chronon-backend-mem/src/store/mod.rs:117-128 | A deleted job leaves its name free and no history; every other job, name and history stays. |
| JobTableRules.AcceptedPoolIsExecutionPool | chronon-axum/src/handlers.rs:38-55 | An accepted pool is the trimmed request, a valid queue key, normalising it again changes nothing, and the job's runs go to exactly that pool; a blank one means the general pool. |
| JobRules.TrimIsTrimmed | chronon-scheduler/src/partitioning.rs:31-38 | The trimmed string is the only part without Unicode white space at its ends that has nothing but white space around it. |
| JobRules.LastSwitchDecides | chronon-runtime/src/coordinator_service.rs:169-177 | After any store calls a job is enabled as its last pause or resume left it, and a paused one is never due nor claimed by a tick. |
| JobRules.OnceClaimStands | chronon-backend-mem/src/store/claims.rs:10-63 | A run-once claim stands through any store calls of others until it ends: their claims fail and their releases do not touch it. |
| JobRules.ExecutionPoolIgnoresBlanks | chronon-scheduler/src/partitioning.rs:31-38 | White space around a job's pool makes no difference to where its runs go; a blank pool is the general one. |
| JobTableRules.ApiOpKeepsHistory | chronon-runtime/src/coordinator_service.rs:92-148 | The same for deletes and row updates. |
| JobTableRules.ServiceAnswers | chronon-runtime/src/coordinator_service.rs:92-140 | For every service upsert: refused for a bad cron expression, another script than the stored job's or a name that another job holds, naming that job, and for nothing else; otherwise the job is stored under its id. |
| JobTableRules.RefusedUpsertLeavesNoRevisionIff | chronon-runtime/src/coordinator_service.rs:103-139 | A refused service upsert leaves the history unchanged if and only if it is not a rename of a stored job onto a taken name with a changed revision. |
| JobTableRules.RefusedRenameLeavesRevision | chronon-runtime/src/coordinator_service.rs:110-139 | Two concrete jobs for which a refused rename leaves a revision behind. |
| JobTableRules.OpKeepsIdentity | chronon-backend-mem/src/store/mod.rs:131-156 | Row updates never touch id, name, script, creation time, revision or anything else that an upsert defines. |
| JobStore.JobTable.WriteJob | chronon-backend-mem/src/store/mod.rs:95-114 | Refuses a name held by another job; otherwise row and index move together. |
| JobStore.JobTable.RemoveJob | chronon-backend-mem/src/store/mod.rs:117-128 | Removes row, name and revisions, and says whether there was one. |
| JobStore.JobTable.MutateJob | chronon-backend-mem/src/store/mod.rs:131-156 | Updates one stored row and keeps index and history. |
| JobStore.JobTable.GetJobByName | chronon-backend-mem/src/store/jobs.rs:18-27 | Looks a job up through the index. |
| JobStore.JobTable.AppendRevision | chronon-backend-mem/src/store/coordinator.rs:10-21 | Appends to the job's history. |
| JobStore.JobTable.ClaimJobForTick | chronon-backend-mem/src/store/claims.rs:115-136 | Claims exactly an enabled job whose tick lease has ended; the next claim can succeed exactly after the requested seconds. |
| JobStore.JobTable.TryClaimRunOnce | chronon-backend-mem/src/store/claims.rs:10-35 | Claims exactly when the guard allows; for exactly the requested seconds only the claimant could claim again. |
| JobStore.CoordinatorService.UpsertJob | chronon-runtime/src/coordinator_service.rs:92-140 | Hash, cron, script check, revision and store, as the specification function. |
| JobStore.CoordinatorService.FillFromRequest | chronon-axum/src/handlers.rs:78-134 | The field-by-field copy equals the requested job, and the error is that of the first failing check. |
| JobStore.CoordinatorService.ApplyRequest | chronon-axum/src/handlers.rs:87-119 | Fields the request leaves out are kept. |
| JobStore.CoordinatorService.UpsertFromRequest | chronon-axum/src/handlers.rs:63-139 | The whole handler keeps index and history; a refusal changes nothing, an accepted upsert of a known name records the next revision. |
| JobStore.CoordinatorService.RunNow | chronon-runtime/src/coordinator_service.rs:252-269 | Creates one run with the job's snapshot, claimable from now on by exactly the job's pool. |
| PartitionRound.RoundCoversEverything | chronon-scheduler/src/partition_assigner.rs:114-161 | Once each of k coordinators has refreshed, one after another, every partition has a live owner among them, if no row lies beyond the partition count. |
| PartitionRound.RoundOwnersAreDisjoint | chronon-scheduler/src/partition_assigner.rs:114-161 | The cached sets are ascending, still owned at the end of the round and pairwise disjoint. |
| PartitionRound.RefreshTakesShare | chronon-scheduler/src/partition_assigner.rs:119-156 | One refresh ends with its fair share of the round's partitions or with everything covered. |
| PartitionRules.RefreshIsFair | chronon-scheduler/src/partition_assigner.rs:119-156 | With k owners alive (one if there is none) among n partitions: a refresh that takes anything ends with fewer than n / k + 1, and it ends with at least n / k unless every partition is then held. |
| PartitionRules.RefreshLeasesOwn | chronon-scheduler/src/partition_assigner.rs:129-161 | A refresh keeps every live row of its own, leases each row it owns from now for the full time and leaves all others alone. |
| PartitionRound.SharesAddUp | chronon-scheduler/src/partition_assigner.rs:127 | k coordinators with a share each hold at least k shares. |
| PartitionRound.FairShareAtLeast | chronon-scheduler/src/partition_assigner.rs:126-127 | Fewer live owners never make the share smaller. |
| PartitionRound.FullShareTakesNothing | chronon-scheduler/src/partition_assigner.rs:143-156 | A coordinator at its share takes no free partition. |
| PartitionRound.RoundCoversIff | chronon-scheduler/src/partition_assigner.rs:114-161 | Whatever rows lie beyond the count and whoever holds them: a round covers every partition if and only if its coordinators want, each in its turn, at least as many as nobody held at its start, where each wants its share less all the rows it holds. |
| PartitionRound.RefreshMeetsDemand | chronon-scheduler/src/partition_assigner.rs:119-156 | A refresh takes exactly what its coordinator wants of the uncovered partitions, or all of them. |
| PartitionRound.LoneRefreshCoversIff | chronon-scheduler/src/partition_assigner.rs:119-156 | A lone coordinator covers every partition with one refresh if and only if it holds no live row beyond the partition count, or held every partition before. |
| PartitionRound.StrayRowHidesPartition | chronon-scheduler/src/partition_assigner.rs:119-156 | A concrete table with such a row, and the partition it leaves free. |
| PartitionAssigner.Assigner.RefreshLeases | chronon-scheduler/src/partition_assigner.rs:114-161 | One pass: own rows renewed, free partitions below the count taken in ascending order, every other row unchanged; owned is exactly what the table says, and the pass stops only at the share (RefreshIsFair) or when nothing is free. |
| PartitionAssigner.Assigner.EnsureRows | chronon-scheduler/src/partition_assigner.rs:115-117 | Adds the missing rows and no others. |
| PartitionAssigner.Assigner.TryStealPartition | chronon-scheduler/src/partition_assigner.rs:66-87 | Takes a row exactly if it is free or its own. |
| PartitionAssigner.Assigner.RenewOwned | chronon-scheduler/src/partition_assigner.rs:89-108 | Renews only rows of its own. |
| PartitionAssigner.Assigner.ListMine | chronon-scheduler/src/partition_assigner.rs:129-137 | Lists exactly the live rows of its own, each once. |
| PartitionAssigner.Assigner.RenewAll | chronon-scheduler/src/partition_assigner.rs:139-141 | Renews exactly its own rows. |
| PartitionAssigner.Assigner.StealUpTo | chronon-scheduler/src/partition_assigner.rs:143-156 | Takes free partitions below the count in ascending order up to the target, stopping early only when none is free, and touches no other row. |
| PartitionAssigner.Assigner.AssignAllEmbedded | chronon-scheduler/src/partition_assigner.rs:195-198 | Owns every partition, in order. |
| PartitionAssigner.Assigner.ReleaseAll | chronon-scheduler/src/partition_assigner.rs:203-205 | Owns nothing. |
| LeaderProtocol.LeaderSafety | chronon-scheduler/src/leader.rs:119-162 | In every interleaving of elector steps, two flags are up only if one instance has gone a full TTL since its last success; between steps the flag implies owning all partitions and no flag means none. |
| LeaderProtocol.StepKeepsInv | chronon-backend-mem/src/store/coordinator.rs:50-88 | A lease younger than a TTL is the one in the row, after every call of every instance. |
| LeaderProtocol.DeposedStepsDown | chronon-scheduler/src/leader.rs:121-142 | An instance deposed when it renews gives up its partitions and its flag in that step, whatever the others do in between. |
| LeaderProtocol.ConfirmedIff | chronon-scheduler/src/leader.rs:121-142 | After its renewal an instance stays leader if and only if the row is its own and has not run out; otherwise it gives up every partition. |
| LeaderProtocol.DeposedUntilOwnAcquire | chronon-backend-mem/src/store/coordinator.rs:72-88 | A deposed instance stays deposed until it acquires itself. |
| LeaderRules.LeaderGuardsAgree | chronon-backend-sql-common/src/coordinator.rs:85-130 | The memory guard equals the SQL conflict clause. |
| LeaderElection.LeaderElector.StepOnce | chronon-scheduler/src/leader.rs:119-162 | One step: a leader stays one if and only if the row was its own and its new lease has not run out at the confirmation; another becomes one if and only if the row was free, lapsed or its own; row and owned partitions follow. |
| LeaderElection.LeaderStore.TryAcquireLeader | chronon-backend-mem/src/store/coordinator.rs:50-70 | Wins exactly when the row is free, lapsed or its own. |
| LeaderElection.LeaderStore.RenewLeaderLease | chronon-backend-mem/src/store/coordinator.rs:72-88 | Renews only its own row, silently otherwise. |
| LeaderElection.LeaderStore.AmILeader | chronon-scheduler/src/leader.rs:72-77 | True exactly for the holder of an unexpired row. |
| SqlGuards.RunGuardsAgree | chronon-backend-sql-common/src/runs.rs:197-224 | Claim, renew and reclaim guards of the memory store equal their SQL clauses under null-compares-unknown, on every row. |
| SqlGuards.JobGuardsAgree | chronon-backend-sql-common/src/claims.rs:188-229 | The tick-claim and due-scan guards agree on every row. |
| SqlGuards.RunOnceGuardsAgreeIff | chronon-backend-sql-common/src/claims.rs:13-63 | The run-once guards agree on a row if and only if it is not an uncompleted claim by another with a NULL expiry. |
| SqlGuards.NullExpiryReadsDifferently | chronon-backend-sql-common/src/claims.rs:13-63 | Such a row, concretely. |
| SqlGuards.RunOnceStepsAgree | chronon-backend-mem/src/store/claims.rs:10-63 | No sequence of store calls reaches such a row, so the guards agree on every reachable one. |
| JobRules.ColumnsStayTogether | chronon-backend-mem/src/store/claims.rs:10-63 | The three columns of a run-once claim are always set and cleared together. |

## Left out

- Crashes and store errors between two store calls, except a refused `create_run` in the tick: a Redis id popped by a process that dies is not recovered by the code either, so no crash is a hypothesis of the queue proofs.
- Clock skew between hosts: one clock is a hypothesis.
- Concurrent partition stealing: `try_steal_partition` reads and then writes, so only refreshes one after another are claimed to cover everything.
- PartitionAssigner.Assigner.RefreshLeases: reads the clock once per pass, where the code reads it before each row, so a lease that lapses during the pass is not modelled; rows whose id is not a number are left out.
- WorkerSlot.Worker.KeepLease: renewals run one after another between start and finish; their racing with reclaimers and with the final write is in ClaimProtocol, where a renewal is a step of its own. A renewal that comes after the last write finds the run ended and does nothing, so it is no step.
- WorkerSlot.Worker.ServeOne: one turn of the endless slot loop, with the job table fixed during the turn; the pauses on an empty queue and the two environment switches that idle a worker are left out.
- TickLoop.Coordinator.EnqueueDueJob: the clock readings after the first are one value, and the branch for a job deleted between claim and load is only in TickProtocol, where other actors exist.
- TickLoop.Coordinator.RunOneTick: the environment switches that disable the coordinator are left out; a failing due query too.
- CronSafety.PunctualFiresIncrease: needs leases given back in time, nobody entering during a skip's double release, no upserts, and every fire to have come due; CronLimits says exactly when the last can be dropped.
- CronLimits.FireIsSafeIff: in the one case that an early fire is safe although its job is still there, other coordinators are taken to read the clock from then on; one that goes by an older reading may find the misfire gate open.
- TickProtocol.TickSectionIsExclusive: needs leases given back in time, nobody entering during a skip's double release, and upserts to write back rows that cover the one inside; TickLimits shows that none of these can be dropped.
- TickSafety.RunOnceFiresAtMostOnce: needs upserts to write rows back with their columns current; RowWrites shows that this cannot be dropped. An upsert in the protocols carries over the columns that no request sets; a host that stores a row of its own making is not modelled there.
- TickSafety.TicksRespectConcurrency: speaks of tick enqueues only; runs started by hand, retries and upserts that edit the limit are not bounded by the code.
- JobStore.JobTable.MutateJob: takes one of the eight named updates instead of a closure; its clock reading is part of the update.
- JobStore.CoordinatorService.UpsertFromRequest: script registry, actor policy, cron parser, id and clock are inputs; status codes and the response body are left out.
- JobRules.ColumnsStayTogether: the SQL `release_run_once_claim` leaves `updated_at` alone when the claimant differs, where the model and the memory store stamp it.
- RunStore.RunTable.CreateRun: an insert under an existing id overwrites the row, as the in-memory store does; the SQL stores refuse it, and the protocols only create under new ids.
- ReadyQueue.RedisQueue.EnqueueRun: scores are exact integers; the code sends them as 64-bit floats, exact up to 2^53 milliseconds.
- Retry delays: the back-off computation is floating point, so the due time of a retry is an input.
- Cron parsing, time zones and xxhash: a next fire is any later instant, a hash any natural number.
- Run outputs, durations, timeouts as clocks, placement and telemetry: no guard reads them.
- HTTP routing, authentication, list endpoints, the remote client, schema set-up, row mapping and JSON encoding: thin wrappers.
- Script registry, macros, executor and task supervision: dispatch around the protocol.
- Worker rows and heartbeats, script rows, `list_runs_filtered`, `list_due_jobs`: plain reads and writes with easy contracts.

/** Which jobs a tick sees, and how long it may sleep when it sees none. */
module DueScan {
  import opened Models
  import opened Collections
  import opened JobRules
  import opened JobTableRules
  import opened Ordering

  type Jobs = map<Id, Job>

  function Parts(owned: seq<int>): set<int> {
    set p | p in owned
  }

  /** The due jobs and their fire times. */
  function DueKeys(jobs: Jobs, dueUntil: Time, owned: set<int>, now: Time): map<Id, Time> {
    map id | id in jobs && Due(jobs[id], dueUntil, owned, now) :: jobs[id].nextRunAt.value
  }

  /** A job whose next fire bounds the idle sleep. */
  predicate Watched(job: Job, owned: set<int>) {
    && job.enabled && job.scheduleKind != Manual
    && job.partitionHash.Some? && job.partitionHash.value in owned
    && job.nextRunAt.Some?
  }

  predicate IsEarliestWatched(jobs: Jobs, owned: set<int>, next: Option<Time>) {
    && (next.None? ==> forall id :: id in jobs ==> !Watched(jobs[id], owned))
    && (next.Some? ==>
          && (exists id :: id in jobs && Watched(jobs[id], owned) && jobs[id].nextRunAt == next)
          && (forall id :: id in jobs && Watched(jobs[id], owned) ==> next.value <= jobs[id].nextRunAt.value))
  }

  /** A job that waits for nothing but its time. */
  predicate Free(job: Job, owned: set<int>, now: Time) {
    && Watched(job, owned)
    && (job.claimLeaseUntil.None? || job.claimLeaseUntil.value < now)
    && (job.scheduleKind != RunOnce || job.runOnceCompletedAt.None?)
  }

  /** A scan that did not fill its limit has seen every free job whose time has come; one that did left out only
      jobs that fire no earlier than those it returned. */
  lemma ScanMissesNone(jobs: Jobs, owned: set<int>, dueUntil: Time, now: Time, limit: nat, ids: seq<Id>, id: Id)
    requires EarliestOf(DueKeys(jobs, dueUntil, owned, now), ids, limit)
    requires id in jobs && Free(jobs[id], owned, now) && jobs[id].nextRunAt.value <= dueUntil && id !in ids
    ensures |ids| == limit
    ensures forall i :: 0 <= i < |ids| ==> ids[i] in jobs && jobs[ids[i]].nextRunAt.Some?
                                           && jobs[ids[i]].nextRunAt.value <= jobs[id].nextRunAt.value
  {
    var keys := DueKeys(jobs, dueUntil, owned, now);
    assert id in keys;
    if |keys| <= limit {
      var listed := set i | 0 <= i < |ids| :: ids[i];
      ListedCount(ids);
      assert listed <= keys.Keys && id !in listed;
      StrictSubsetIsSmaller(listed, keys.Keys, id);
    }
  }

  lemma {:induction false} ListedCount(ids: seq<Id>)
    requires Distinct(ids)
    ensures |set i | 0 <= i < |ids| :: ids[i]| == |ids|
  {
    if ids != [] {
      var front := ids[..|ids| - 1];
      ListedCount(front);
      assert (set i | 0 <= i < |ids| :: ids[i]) == (set i | 0 <= i < |front| :: front[i]) + {ids[|ids| - 1]};
    }
  }

  // ---- idle sleep -------------------------------------------------------------------------------

  const MAX_IDLE_SLEEP: Time := NANOS_PER_SEC
  const WAKE_EARLY_MS: int := 20

  /** Whole milliseconds of a duration, rounded towards zero. */
  function WholeMillis(d: Time): int {
    if d >= 0 then d / NANOS_PER_MILLI else -((-d) / NANOS_PER_MILLI)
  }

  function IdleWait(now: Time, next: Option<Time>, tickMs: nat): Time {
    match next
    case Some(t) =>
      var ms := WholeMillis(t - now) - WAKE_EARLY_MS;
      var wait := (if ms < 0 then 0 else ms) * NANOS_PER_MILLI;
      if wait < MAX_IDLE_SLEEP then wait else MAX_IDLE_SLEEP
    case None => tickMs * NANOS_PER_MILLI
  }

  /** After an empty scan the sleep is bounded, and it ends before any fire the scan was not shown yet: every free
      job fires at or after the moment the ticker wakes. The tick reads the clock at `now`, the store at `scanned`. */
  lemma IdleSleepWakesInTime(jobs: Jobs, owned: set<int>, lookahead: Time, now: Time, scanned: Time,
                             limit: nat, next: Option<Time>, tickMs: nat)
    requires limit > 0 && lookahead >= 0
    requires EarliestOf(DueKeys(jobs, now + lookahead, owned, scanned), [], limit)
    requires IsEarliestWatched(jobs, owned, next)
    ensures 0 <= IdleWait(now, next, tickMs)
    ensures next.Some? ==> IdleWait(now, next, tickMs) <= NANOS_PER_SEC
    ensures next.None? ==> IdleWait(now, next, tickMs) == tickMs * NANOS_PER_MILLI
                           && forall id :: id in jobs ==> !Free(jobs[id], owned, scanned)
    ensures forall id :: id in jobs && Free(jobs[id], owned, scanned) ==>
              now + lookahead < jobs[id].nextRunAt.value
              && now + IdleWait(now, next, tickMs) <= jobs[id].nextRunAt.value
  {
    forall id | id in jobs && Free(jobs[id], owned, scanned)
      ensures now + lookahead < jobs[id].nextRunAt.value
      ensures now + IdleWait(now, next, tickMs) <= jobs[id].nextRunAt.value
    {
      if jobs[id].nextRunAt.value <= now + lookahead {
        ScanMissesNone(jobs, owned, now + lookahead, scanned, limit, [], id);
      }
    }
  }

  /** The ticker does not spin: it sleeps for no time at all exactly when the earliest watched fire is less than
      21 ms away. */
  lemma IdleWaitIsZeroIff(now: Time, t: Time, tickMs: nat)
    ensures IdleWait(now, Some(t), tickMs) == 0 <==> t < now + (WAKE_EARLY_MS + 1) * NANOS_PER_MILLI
  {}

  /** With a fire 20 ms or more ahead the ticker wakes between 20 and 21 ms before it, after whole milliseconds; a
      fire further off than that and a second gets a second's sleep, a nearer one none. */
  lemma IdleWaitIsExact(now: Time, t: Time, tickMs: nat)
    ensures var wait := IdleWait(now, Some(t), tickMs);
            && wait % NANOS_PER_MILLI == 0
            && (t - now < 20 * NANOS_PER_MILLI ==> wait == 0)
            && (20 * NANOS_PER_MILLI <= t - now < 1_020 * NANOS_PER_MILLI ==>
                  t - 21 * NANOS_PER_MILLI < now + wait <= t - 20 * NANOS_PER_MILLI)
            && (t - now >= 1_020 * NANOS_PER_MILLI ==> wait == NANOS_PER_SEC)
  {
    var ms := WholeMillis(t - now);
    if t - now >= 0 {
      assert ms * NANOS_PER_MILLI <= t - now < (ms + 1) * NANOS_PER_MILLI;
    }
    assert ((if ms < 20 then 0 else ms - 20) * NANOS_PER_MILLI) % NANOS_PER_MILLI == 0;
  }

  // ---- partitions -------------------------------------------------------------------------------

  /** The bucket of a job whose id hashes to `hash`. */
  function PartitionIndex(hash: nat, partitions: nat): (index: int)
    ensures 0 <= index && (index < partitions || index == partitions == 0)
  {
    hash % (if partitions < 1 then 1 else partitions)
  }

  /** The bucket is what remains of the hash: `partitions` consecutive hashes fall into as many buckets, and equal
      buckets are whole turns apart. */
  lemma BucketIsRemainder(hash: nat, turns: nat, rest: nat, partitions: nat)
    requires rest < partitions
    ensures PartitionIndex(hash, partitions) == rest <==> exists q: nat :: hash == Turned(q, partitions, rest)
    ensures PartitionIndex(Turned(turns, partitions, rest), partitions) == rest
  {
    RestOfTurns(turns, partitions, rest);
    if PartitionIndex(hash, partitions) == rest {
      assert hash == Turned(hash / partitions, partitions, rest);
    }
    if q: nat :| hash == Turned(q, partitions, rest) {
      RestOfTurns(q, partitions, rest);
    }
  }

  /** `rest` after so many turns through all partitions. */
  function Turned(turns: nat, partitions: nat, rest: nat): nat {
    turns * partitions + rest
  }

  lemma RestOfTurns(turns: nat, partitions: nat, rest: nat)
    requires rest < partitions
    ensures Turned(turns, partitions, rest) % partitions == rest
  {
    var hash := Turned(turns, partitions, rest);
    var q, r := hash / partitions, hash % partitions;
    assert turns * partitions - q * partitions == r - rest;
    assert (turns - q) * partitions == turns * partitions - q * partitions;
    WholeTurns(turns - q, partitions);
    assert turns - q == 0;
  }

  lemma WholeTurns(turns: int, partitions: nat)
    ensures turns >= 1 ==> turns * partitions >= partitions
    ensures turns <= -1 ==> turns * partitions + partitions <= 0
  {}

  /** All stored jobs carry their bucket for this partition count. */
  predicate Bucketed(jobs: Jobs, hash: Id -> nat, partitions: nat) {
    forall id :: id in jobs ==> jobs[id].partitionHash == Some(PartitionIndex(hash(id), partitions))
  }

  /** The service hashes the id it stores with the current partition count. */
  predicate HashesAs(t: Table, op: ApiOp, hash: Id -> nat, partitions: nat) {
    op.HttpPut? ==>
      op.ctx.hash == PartitionIndex(hash(Requested(t, op.req, op.ctx, HttpPool(op.req)).jobId), partitions)
  }

  predicate AllHashAs(t: Table, ops: seq<ApiOp>, hash: Id -> nat, partitions: nat)
    decreases |ops|
  {
    ops == [] || (HashesAs(t, ops[0], hash, partitions) && AllHashAs(ApplyApi(t, ops[0]), ops[1..], hash, partitions))
  }

  lemma RequestedBucket(t: Table, req: Request, ctx: Context)
    requires IndexOk(t)
    ensures var raw := Requested(t, req, ctx, HttpPool(req));
            var job := WithSchedule(raw, ctx.hash, ctx.cron, ctx.now);
            && job.jobId == raw.jobId
            && (raw.jobId in t.jobs && LookupByName(t, req.jobName).Some? ==>
                  raw.partitionHash == t.jobs[raw.jobId].partitionHash)
            && (LookupByName(t, req.jobName).None? ==> raw.jobId == ctx.newId && raw.partitionHash == None)
            && job.partitionHash == (if raw.partitionHash.Some? then raw.partitionHash else Some(ctx.hash))
  {}

  /** Any upsert through the service, with a bucket of the caller's or none, stores a job under its bucket. */
  lemma ServiceKeepsBuckets(t: Table, job: Job, cron: CronOutcome, now: Time, hash: Id -> nat, partitions: nat)
    requires Bucketed(t.jobs, hash, partitions)
    requires job.partitionHash.Some? ==> job.partitionHash.value == PartitionIndex(hash(job.jobId), partitions)
    ensures var bucket := PartitionIndex(hash(job.jobId), partitions);
            Bucketed(ServiceUpsert(t, job, bucket, cron, now).0.jobs, hash, partitions)
  {
    var stored := WithSchedule(job, PartitionIndex(hash(job.jobId), partitions), cron, now);
    assert stored.jobId == job.jobId && stored.partitionHash == Some(PartitionIndex(hash(job.jobId), partitions));
    StoreWritesOneRow(t, stored);
  }

  lemma StoreWritesOneRow(t: Table, job: Job)
    ensures RecordAndStore(t, job).0.jobs == t.jobs || RecordAndStore(t, job).0.jobs == t.jobs[job.jobId := job]
  {}

  lemma PutKeepsBuckets(t: Table, req: Request, ctx: Context, hash: Id -> nat, partitions: nat)
    requires IndexOk(t) && Bucketed(t.jobs, hash, partitions) && HashesAs(t, HttpPut(req, ctx), hash, partitions)
    ensures Bucketed(HttpUpsert(t, req, ctx).0.jobs, hash, partitions)
  {
    if HttpAdmits(req, ctx) {
      RequestedBucket(t, req, ctx);
      ServiceKeepsBuckets(t, Requested(t, req, ctx, HttpPool(req)), ctx.cron, ctx.now, hash, partitions);
    }
  }

  lemma RowCallKeepsBucket(job: Job, op: JobOp)
    ensures ApplyOp(job, op).partitionHash == job.partitionHash
  {}

  lemma ApiOpKeepsBuckets(t: Table, op: ApiOp, hash: Id -> nat, partitions: nat)
    requires TableOk(t) && (op.HttpPut? ==> op.ctx.newId !in t.jobs)
    requires Bucketed(t.jobs, hash, partitions) && HashesAs(t, op, hash, partitions)
    ensures Bucketed(ApplyApi(t, op).jobs, hash, partitions)
  {
    match op
    case HttpPut(req, ctx) => PutKeepsBuckets(t, req, ctx, hash, partitions);
    case HttpDelete(_) =>
    case RowCall(id, jobOp) =>
      if id in t.jobs {
        RowCallKeepsBucket(t.jobs[id], jobOp);
      }
  }

  lemma {:induction false} BucketsAreKept(t: Table, ops: seq<ApiOp>, hash: Id -> nat, partitions: nat)
    requires TableOk(t) && AllNew(t, ops)
    requires Bucketed(t.jobs, hash, partitions) && AllHashAs(t, ops, hash, partitions)
    ensures Bucketed(ApplyApis(t, ops).jobs, hash, partitions)
    decreases |ops|
  {
    if ops != [] {
      ApiOpKeepsHistory(t, ops[0]);
      ApiOpKeepsBuckets(t, ops[0], hash, partitions);
      BucketsAreKept(ApplyApi(t, ops[0]), ops[1..], hash, partitions);
    }
  }

  /** An instance that owns every partition. */
  ghost predicate OwnsAll(owned: set<int>, partitions: nat) {
    forall p :: p in owned <==> 0 <= p < partitions
  }

  /** After any history of API calls with one partition count, an instance that owns all partitions watches every
      enabled, scheduled job with a next fire, whatever its hash: none is hidden from the scan. */
  lemma {:induction false} EveryStoredJobIsWatched(t: Table, ops: seq<ApiOp>, hash: Id -> nat, partitions: nat,
                                                   owned: set<int>, id: Id)
    requires TableOk(t) && AllNew(t, ops) && Bucketed(t.jobs, hash, partitions) && AllHashAs(t, ops, hash, partitions)
    requires partitions >= 1 && OwnsAll(owned, partitions) && id in ApplyApis(t, ops).jobs
    ensures var job := ApplyApis(t, ops).jobs[id];
            Watched(job, owned) <==> job.enabled && job.scheduleKind != Manual && job.nextRunAt.Some?
  {
    BucketsAreKept(t, ops, hash, partitions);
  }

  /** The stored bucket is never recomputed: after the partition count changes from `before` to `after`, owning
      every partition shows a job exactly when its old bucket is among the new ones. */
  lemma ChangedCountHidesIff(job: Job, hash: nat, before: nat, after: nat, owned: set<int>)
    requires job.partitionHash == Some(PartitionIndex(hash, before)) && OwnsAll(owned, after)
    requires job.enabled && job.scheduleKind != Manual && job.nextRunAt.Some?
    ensures Watched(job, owned) <==> PartitionIndex(hash, before) < after
    ensures 1 <= before <= after ==> Watched(job, owned)
  {}

  /** Such a job exists: bucket 63 of 64 is out of sight for the owner of all of 32. */
  lemma ShrunkCountHidesJob(job: Job, owned: set<int>) returns (hash: nat)
    requires job.enabled && job.scheduleKind != Manual && job.nextRunAt.Some? && OwnsAll(owned, 32)
    ensures !Watched(job.(partitionHash := Some(PartitionIndex(hash, 64))), owned)
  {
    hash := 63;
    ChangedCountHidesIff(job.(partitionHash := Some(PartitionIndex(hash, 64))), hash, 64, 32, owned);
  }
}

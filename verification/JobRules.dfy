/** Job rows and what each store call does to one of them. */
module JobRules {
  import opened Models

  datatype ScheduleKind = Cron | RunOnce | Manual

  datatype RetryPolicy = RetryPolicy(maxAttempts: nat)

  datatype MisfirePolicy = MisfirePolicy(runImmediately: bool, maxMisfireWindowSecs: nat)

  datatype Job = Job(
    jobId: Id,
    jobName: string,
    scriptName: string,
    enabled: bool,
    scheduleKind: ScheduleKind,
    cronExpr: Option<string>,
    timezone: Option<string>,
    runOnceClaimedAt: Option<Time>,
    runOnceClaimedBy: Option<Id>,
    runOnceCompletedAt: Option<Time>,
    runOnceClaimExpiresAt: Option<Time>,
    partitionHash: Option<int>,
    claimLeaseId: Option<string>,
    claimLeaseUntil: Option<Time>,
    pool: Option<string>,
    actorJson: string,
    paramsJson: string,
    concurrency: int,
    timeoutMs: Option<int>,
    retryPolicy: RetryPolicy,
    misfirePolicy: MisfirePolicy,
    nextRunAt: Option<Time>,
    currentRevision: int,
    updatedAt: Time,
    createdAt: Time)

  /** A retry is allowed after the attempts 1 to `maxAttempts`. */
  predicate ShouldRetry(policy: RetryPolicy, attempt: int) {
    0 < attempt <= policy.maxAttempts
  }

  function LatenessSecs(scheduledFor: Time, now: Time): nat {
    if now < scheduledFor then 0 else (now - scheduledFor) / NANOS_PER_SEC
  }

  predicate ShouldEnqueueForMisfire(scheduledFor: Time, now: Time, policy: MisfirePolicy) {
    || policy.maxMisfireWindowSecs == 0
    || LatenessSecs(scheduledFor, now) == 0
    || (LatenessSecs(scheduledFor, now) <= policy.maxMisfireWindowSecs && policy.runImmediately)
  }

  predicate TickClaimable(job: Job, now: Time) {
    job.enabled && !(job.claimLeaseUntil.Some? && job.claimLeaseUntil.value >= now)
  }

  predicate RunOnceClaimable(job: Job, claimant: Id, now: Time) {
    && job.runOnceCompletedAt.None?
    && !(&& job.runOnceClaimedAt.Some?
         && job.runOnceClaimExpiresAt.Some? && job.runOnceClaimExpiresAt.value > now
         && job.runOnceClaimedBy != Some(claimant))
  }

  /** The due scan picks this job for an instance that owns the partitions `owned`. */
  predicate Due(job: Job, dueUntil: Time, owned: set<int>, now: Time) {
    && job.enabled && job.scheduleKind != Manual
    && job.nextRunAt.Some? && job.nextRunAt.value <= dueUntil
    && job.partitionHash.Some? && job.partitionHash.value in owned
    && (job.claimLeaseUntil.None? || job.claimLeaseUntil.value < now)
    && (job.scheduleKind != RunOnce || job.runOnceCompletedAt.None?)
  }

  /** The job a run belongs to, if it is still there. */
  function JobOf(jobs: map<Id, Job>, run: Run): Option<Job> {
    if run.jobId.Some? && run.jobId.value in jobs then Some(jobs[run.jobId.value]) else None
  }

  /** A store call on one job row. */
  datatype JobOp =
    | ClaimTick(claimId: string, now: Time, ttlSecs: int)
    | ReleaseTick(at: Time)
    | PersistPostTick(nextRunAt: Option<Time>, at: Time)
    | ClaimRunOnce(claimant: Id, now: Time, ttlSecs: int)
    | CompleteRunOnce(completedAt: Time, at: Time)
    | ReleaseRunOnce(claimant: Id, now: Time)
    | Pause(at: Time)
    | Resume(at: Time)

  /** The call reports success; only the two claims can fail. */
  predicate OpSucceeds(job: Job, op: JobOp) {
    match op
    case ClaimTick(_, now, _) => TickClaimable(job, now)
    case ClaimRunOnce(claimant, now, _) => RunOnceClaimable(job, claimant, now)
    case _ => true
  }

  function ApplyOp(job: Job, op: JobOp): Job {
    if !OpSucceeds(job, op) then job else
    match op
    case ClaimTick(claimId, now, ttlSecs) =>
      job.(claimLeaseId := Some(claimId), claimLeaseUntil := Some(now + Seconds(ttlSecs)), updatedAt := now)
    case ReleaseTick(at) =>
      job.(claimLeaseId := None, claimLeaseUntil := None, updatedAt := at)
    case PersistPostTick(next, at) =>
      job.(nextRunAt := next, claimLeaseId := None, claimLeaseUntil := None, updatedAt := at)
    case ClaimRunOnce(claimant, now, ttlSecs) =>
      job.(runOnceClaimedAt := Some(now), runOnceClaimedBy := Some(claimant),
           runOnceClaimExpiresAt := Some(now + Seconds(ttlSecs)), updatedAt := now)
    case CompleteRunOnce(completedAt, at) =>
      job.(runOnceCompletedAt := Some(completedAt), runOnceClaimedAt := None, runOnceClaimedBy := None,
           runOnceClaimExpiresAt := None, updatedAt := at)
    case ReleaseRunOnce(claimant, now) =>
      if job.runOnceClaimedBy == Some(claimant) then
        job.(runOnceClaimedAt := None, runOnceClaimedBy := None, runOnceClaimExpiresAt := None, updatedAt := now)
      else
        job.(updatedAt := now)
    case Pause(at) => job.(enabled := false, updatedAt := at)
    case Resume(at) => job.(enabled := true, updatedAt := at)
  }

  function ApplyOps(job: Job, ops: seq<JobOp>): Job
    decreases |ops|
  {
    if ops == [] then job else ApplyOps(ApplyOp(job, ops[0]), ops[1..])
  }

  predicate RunOnceColumnsTogether(job: Job) {
    && (job.runOnceClaimedAt.Some? <==> job.runOnceClaimExpiresAt.Some?)
    && (job.runOnceClaimedAt.Some? <==> job.runOnceClaimedBy.Some?)
  }

  lemma {:induction false} ColumnsStayTogether(job: Job, ops: seq<JobOp>)
    requires RunOnceColumnsTogether(job)
    ensures RunOnceColumnsTogether(ApplyOps(job, ops))
    decreases |ops|
  {
    if ops != [] {
      ColumnsStayTogether(ApplyOp(job, ops[0]), ops[1..]);
    }
  }

  /** Nothing the claimant does to its run-once claim, and no claim at or after the claim's end. */
  predicate LeavesClaim(op: JobOp, claimant: Id, until: Time) {
    match op
    case ClaimRunOnce(c, now, _) => c != claimant && now < until
    case ReleaseRunOnce(c, _) => c != claimant
    case CompleteRunOnce(_, _) => false
    case _ => true
  }

  predicate HoldsClaim(job: Job, claimant: Id, since: Time, until: Time) {
    && job.runOnceCompletedAt.None? && job.runOnceClaimedAt == Some(since)
    && job.runOnceClaimedBy == Some(claimant) && job.runOnceClaimExpiresAt == Some(until)
  }

  /** A run-once claim stands through whatever others do until it ends: their claims fail and their releases do
      not touch it. */
  lemma {:induction false} OnceClaimStands(job: Job, ops: seq<JobOp>, claimant: Id, since: Time, until: Time)
    requires HoldsClaim(job, claimant, since, until)
    requires forall i :: 0 <= i < |ops| ==> LeavesClaim(ops[i], claimant, until)
    ensures HoldsClaim(ApplyOps(job, ops), claimant, since, until)
    ensures forall other, t :: RunOnceClaimable(ApplyOps(job, ops), other, t) <==> other == claimant || until <= t
    decreases |ops|
  {
    if ops != [] {
      assert LeavesClaim(ops[0], claimant, until);
      OnceClaimStands(ApplyOp(job, ops[0]), ops[1..], claimant, since, until);
    }
  }

  /** `k` is the place of the last pause or resume. */
  predicate LastSwitch(ops: seq<JobOp>, k: nat) {
    && k < |ops| && (ops[k].Pause? || ops[k].Resume?)
    && forall i :: k < i < |ops| ==> !ops[i].Pause? && !ops[i].Resume?
  }

  predicate NoSwitch(ops: seq<JobOp>) {
    forall i :: 0 <= i < |ops| ==> !ops[i].Pause? && !ops[i].Resume?
  }

  lemma {:induction false} NoSwitchKeepsEnabled(job: Job, ops: seq<JobOp>)
    requires NoSwitch(ops)
    ensures ApplyOps(job, ops).enabled == job.enabled
    decreases |ops|
  {
    if ops != [] {
      assert !ops[0].Pause? && !ops[0].Resume?;
      NoSwitchKeepsEnabled(ApplyOp(job, ops[0]), ops[1..]);
    }
  }

  /** Whatever else is called in between, a job is as the last pause or resume left it; a paused one is neither
      listed as due nor claimed. */
  lemma {:induction false} LastSwitchDecides(job: Job, ops: seq<JobOp>, k: nat)
    requires LastSwitch(ops, k)
    ensures ApplyOps(job, ops).enabled <==> ops[k].Resume?
    ensures ops[k].Pause? ==>
              forall dueUntil, owned, now ::
                !Due(ApplyOps(job, ops), dueUntil, owned, now) && !TickClaimable(ApplyOps(job, ops), now)
    decreases |ops|
  {
    if k == 0 {
      assert NoSwitch(ops[1..]);
      NoSwitchKeepsEnabled(ApplyOp(job, ops[0]), ops[1..]);
    } else {
      LastSwitchDecides(ApplyOp(job, ops[0]), ops[1..], k - 1);
    }
  }

  /** The characters with Unicode's White_Space property. */
  predicate IsSpace(c: char) {
    || '\t' <= c <= '\r' || c == ' ' || c == '\U{0085}' || c == '\U{00A0}' || c == '\U{1680}'
    || '\U{2000}' <= c <= '\U{200A}' || c == '\U{2028}' || c == '\U{2029}' || c == '\U{202F}'
    || c == '\U{205F}' || c == '\U{3000}'
  }

  function Trim(s: string): string {
    if s == "" then s
    else if IsSpace(s[0]) then Trim(s[1..])
    else if IsSpace(s[|s| - 1]) then Trim(s[..|s| - 1])
    else s
  }

  /** No blanks at either end. */
  predicate Trimmed(s: string) {
    s != "" ==> !IsSpace(s[0]) && !IsSpace(s[|s| - 1])
  }

  /** What is left of `s` without the blanks before `i` and from `j` on. */
  predicate Inner(part: string, s: string, i: nat, j: nat) {
    i <= j <= |s| && part == s[i..j] && forall k :: 0 <= k < |s| && !(i <= k < j) ==> IsSpace(s[k])
  }

  /** Trimming takes away blanks at the two ends, all of them, and nothing else. */
  lemma {:induction false} TrimIsInner(s: string) returns (i: nat, j: nat)
    ensures Inner(Trim(s), s, i, j) && Trimmed(Trim(s)) && (Trimmed(s) ==> Trim(s) == s)
    decreases |s|
  {
    if Trimmed(s) {
      i, j := 0, |s|;
    } else if IsSpace(s[0]) {
      i, j := TrimIsInner(s[1..]);
      InnerOfRest(Trim(s), s, i, j);
      i, j := i + 1, j + 1;
    } else {
      i, j := TrimIsInner(s[..|s| - 1]);
      InnerOfFront(Trim(s), s, i, j);
    }
  }

  lemma InnerOfRest(part: string, s: string, i: nat, j: nat)
    requires s != "" && IsSpace(s[0]) && Inner(part, s[1..], i, j)
    ensures Inner(part, s, i + 1, j + 1)
  {
    assert forall k :: 0 < k < |s| ==> s[k] == s[1..][k - 1];
    assert s[1..][i..j] == s[i + 1..j + 1];
  }

  lemma InnerOfFront(part: string, s: string, i: nat, j: nat)
    requires s != "" && IsSpace(s[|s| - 1]) && Inner(part, s[..|s| - 1], i, j)
    ensures Inner(part, s, i, j)
  {
    assert forall k :: 0 <= k < |s| - 1 ==> s[k] == s[..|s| - 1][k];
    assert s[..|s| - 1][i..j] == s[i..j];
  }

  /** Only one part of a string is trimmed and has nothing but blanks around it: the trimmed one. */
  lemma TrimIsTrimmed(s: string, part: string)
    ensures (exists i, j :: Inner(part, s, i, j)) && Trimmed(part) <==> part == Trim(s)
    ensures Trimmed(s) ==> Trim(s) == s
  {
    var a, b := TrimIsInner(s);
    if (exists i, j :: Inner(part, s, i, j)) && Trimmed(part) {
      var i, j :| Inner(part, s, i, j);
      InnerIsUnique(s, part, i, j, Trim(s), a, b);
    }
  }

  lemma InnerIsUnique(s: string, part: string, i: nat, j: nat, other: string, a: nat, b: nat)
    requires Inner(part, s, i, j) && Trimmed(part) && Inner(other, s, a, b) && Trimmed(other)
    ensures part == other
  {
    assert part != "" ==> a <= i < b && a <= j - 1 < b;
    assert other != "" ==> i <= a < j && i <= b - 1 < j;
  }

  /** The pool a job's runs are queued in. */
  function ExecutionPool(job: Job): string {
    if job.pool.Some? && Trim(job.pool.value) != "" then Trim(job.pool.value) else GENERAL
  }

  /** Blanks around the name of a pool make no difference, and a blank name is the general pool's. */
  lemma ExecutionPoolIgnoresBlanks(job: Job, pool: string, i: nat, j: nat)
    requires job.pool.Some? && Inner(pool, job.pool.value, i, j) && Trimmed(pool)
    ensures ExecutionPool(job) == if pool == "" then GENERAL else pool
  {
    TrimIsTrimmed(job.pool.value, pool);
  }
}

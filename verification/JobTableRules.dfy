/** The job table with its name index, and the revision history the service and the HTTP upsert keep. */
module JobTableRules {
  import opened Models
  import opened JobRules

  datatype Revision = Revision(number: int, snapshot: Job)

  datatype Table = Table(jobs: map<Id, Job>, byName: map<string, Id>, revisions: map<Id, seq<Revision>>)

  datatype Error = NameTaken(existing: Id) | ScriptMismatch | BadCron | UnknownScript | BadActor | BadPool

  datatype Outcome = Done | Refused(error: Error)

  // ---- map and index ----------------------------------------------------------------------------

  function WriteJob(t: Table, job: Job): (Table, Outcome) {
    if job.jobName in t.byName && t.byName[job.jobName] != job.jobId then
      (t, Refused(NameTaken(t.byName[job.jobName])))
    else
      var freed := if job.jobId in t.jobs && t.jobs[job.jobId].jobName != job.jobName
                   then t.byName - {t.jobs[job.jobId].jobName} else t.byName;
      (t.(jobs := t.jobs[job.jobId := job], byName := freed[job.jobName := job.jobId]), Done)
  }

  function RemoveJob(t: Table, id: Id): Table {
    if id in t.jobs then Table(t.jobs - {id}, t.byName - {t.jobs[id].jobName}, t.revisions - {id}) else t
  }

  function MutateJob(t: Table, id: Id, op: JobOp): Table {
    if id in t.jobs then t.(jobs := t.jobs[id := ApplyOp(t.jobs[id], op)]) else t
  }

  function LookupByName(t: Table, name: string): Option<Job> {
    if name in t.byName && t.byName[name] in t.jobs then Some(t.jobs[t.byName[name]]) else None
  }

  /** Names and job ids are in bijection, through the rows. */
  predicate IndexOk(t: Table) {
    && (forall id :: id in t.jobs ==>
          && t.jobs[id].jobId == id
          && t.jobs[id].jobName in t.byName && t.byName[t.jobs[id].jobName] == id)
    && (forall name :: name in t.byName ==> t.byName[name] in t.jobs && t.jobs[t.byName[name]].jobName == name)
  }

  /** What never changes about a stored job. */
  predicate SameIdentity(before: Job, after: Job) {
    after.jobId == before.jobId && after.jobName == before.jobName
    && after.scriptName == before.scriptName && after.createdAt == before.createdAt
  }

  /** What upserts say about a job, and no other call changes. */
  predicate SameDefinition(a: Job, b: Job) {
    && SameIdentity(a, b)
    && a.scheduleKind == b.scheduleKind && a.cronExpr == b.cronExpr && a.timezone == b.timezone
    && a.actorJson == b.actorJson && a.paramsJson == b.paramsJson && a.pool == b.pool
    && a.concurrency == b.concurrency && a.timeoutMs == b.timeoutMs
    && a.retryPolicy == b.retryPolicy && a.misfirePolicy == b.misfirePolicy && a.partitionHash == b.partitionHash
  }

  datatype TableOp = Upsert(job: Job) | Remove(id: Id) | Mutate(id: Id, op: JobOp)

  function ApplyTableOp(t: Table, op: TableOp): Table {
    match op
    case Upsert(job) => WriteJob(t, job).0
    case Remove(id) => RemoveJob(t, id)
    case Mutate(id, jobOp) => MutateJob(t, id, jobOp)
  }

  function ApplyTableOps(t: Table, ops: seq<TableOp>): Table
    decreases |ops|
  {
    if ops == [] then t else ApplyTableOps(ApplyTableOp(t, ops[0]), ops[1..])
  }

  lemma WriteKeepsIndex(t: Table, job: Job)
    requires IndexOk(t)
    ensures IndexOk(WriteJob(t, job).0)
  {}

  lemma RemoveKeepsIndex(t: Table, id: Id)
    requires IndexOk(t)
    ensures IndexOk(RemoveJob(t, id))
  {}

  /** Row updates never touch what defines a job, what names it or its revision. */
  lemma OpKeepsIdentity(job: Job, op: JobOp)
    ensures SameDefinition(job, ApplyOp(job, op)) && SameIdentity(job, ApplyOp(job, op))
    ensures ApplyOp(job, op).currentRevision == job.currentRevision
  {}

  lemma ReplaceKeepsIndex(t: Table, id: Id, job: Job)
    requires IndexOk(t) && id in t.jobs && SameIdentity(t.jobs[id], job)
    ensures IndexOk(t.(jobs := t.jobs[id := job]))
  {}

  lemma OpKeepsIndex(t: Table, op: TableOp)
    requires IndexOk(t)
    ensures IndexOk(ApplyTableOp(t, op))
  {
    match op
    case Upsert(job) => WriteKeepsIndex(t, job);
    case Remove(id) => RemoveKeepsIndex(t, id);
    case Mutate(id, jobOp) =>
      if id in t.jobs {
        OpKeepsIdentity(t.jobs[id], jobOp);
        ReplaceKeepsIndex(t, id, ApplyOp(t.jobs[id], jobOp));
      }
  }

  /** The index agrees with the map after every sequence of upserts with renames, deletes and row updates. */
  lemma {:induction false} IndexAlwaysAgrees(t: Table, ops: seq<TableOp>)
    requires IndexOk(t)
    ensures IndexOk(ApplyTableOps(t, ops))
    decreases |ops|
  {
    if ops != [] {
      OpKeepsIndex(t, ops[0]);
      IndexAlwaysAgrees(ApplyTableOp(t, ops[0]), ops[1..]);
    }
  }

  /** Lookup by name finds what a search of all rows would, and there is only one to find. */
  lemma LookupIsSearch(t: Table, name: string)
    requires IndexOk(t)
    ensures LookupByName(t, name).Some? <==> exists id :: id in t.jobs && t.jobs[id].jobName == name
    ensures forall id :: id in t.jobs && t.jobs[id].jobName == name ==> LookupByName(t, name) == Some(t.jobs[id])
  {}

  // ---- revisions --------------------------------------------------------------------------------

  const MAX_REVISION: int := 0x7fff_ffff

  /** The result of parsing the job's cron expression and asking for its next fire. */
  datatype CronOutcome = CronInvalid | CronNext(next: Option<Time>)

  function AppendRevision(t: Table, id: Id, revision: Revision): Table {
    var earlier := if id in t.revisions then t.revisions[id] else [];
    t.(revisions := t.revisions[id := earlier + [revision]])
  }

  function WithSchedule(job: Job, hash: int, cron: CronOutcome, now: Time): Job {
    var hashed := if job.partitionHash.None? then job.(partitionHash := Some(hash)) else job;
    var next := if job.scheduleKind == Cron && job.cronExpr.Some? && cron.CronNext? then cron.next else job.nextRunAt;
    hashed.(nextRunAt := next, updatedAt := now)
  }

  /** A stored job's history, extended when the revision number changes. */
  function Recorded(t: Table, job: Job): Table
    requires job.jobId in t.jobs
  {
    if t.jobs[job.jobId].currentRevision != job.currentRevision
    then AppendRevision(t, job.jobId, Revision(job.currentRevision, job)) else t
  }

  predicate CronRefused(job: Job, cron: CronOutcome) {
    job.scheduleKind == Cron && job.cronExpr.Some? && cron.CronInvalid?
  }

  /** The service's upsert: schedule, check the script, record a revision, store. */
  function ServiceUpsert(t: Table, job: Job, hash: int, cron: CronOutcome, now: Time): (Table, Outcome) {
    if CronRefused(job, cron) then (t, Refused(BadCron)) else RecordAndStore(t, WithSchedule(job, hash, cron, now))
  }

  function RecordAndStore(t: Table, job: Job): (Table, Outcome) {
    if job.jobId in t.jobs then
      if t.jobs[job.jobId].scriptName != job.scriptName then (t, Refused(ScriptMismatch))
      else
        WriteJob(Recorded(t, job), job)
    else if LookupByName(t, job.jobName).Some? then
      (t, Refused(NameTaken(LookupByName(t, job.jobName).value.jobId)))
    else
      WriteJob(AppendRevision(t, job.jobId, Revision(1, job)), job)
  }

  /** A refused service upsert leaves the history alone, except when it renames a stored job onto a name that
      another job holds: then the revision was written before the store refused. */
  lemma RefusedUpsertLeavesNoRevisionIff(t: Table, job: Job, hash: int, cron: CronOutcome, now: Time)
    requires IndexOk(t) && ServiceUpsert(t, job, hash, cron, now).1.Refused?
    ensures ServiceUpsert(t, job, hash, cron, now).0.jobs == t.jobs
    ensures ServiceUpsert(t, job, hash, cron, now).0.revisions == t.revisions <==>
            !(&& !CronRefused(job, cron)
              && job.jobId in t.jobs && t.jobs[job.jobId].scriptName == job.scriptName
              && t.jobs[job.jobId].currentRevision != job.currentRevision
              && job.jobName in t.byName && t.byName[job.jobName] != job.jobId)
  {
    var revision := Revision(job.currentRevision, WithSchedule(job, hash, cron, now));
    var earlier := if job.jobId in t.revisions then t.revisions[job.jobId] else [];
    assert |earlier + [revision]| > |earlier|;
    assert AppendRevision(t, job.jobId, revision).revisions[job.jobId] == earlier + [revision];
  }

  predicate NameHeldBy(t: Table, name: string, holder: Id) {
    holder in t.jobs && t.jobs[holder].jobName == name
  }

  /** A service upsert is refused for a bad cron expression, for another script than the stored job's, or for a
      name that another job holds, in this order, and for nothing else; otherwise it stores the job under its id. */
  lemma ServiceAnswers(t: Table, job: Job, hash: int, cron: CronOutcome, now: Time)
    requires IndexOk(t)
    ensures var (t', outcome) := ServiceUpsert(t, job, hash, cron, now);
            if job.scheduleKind == Cron && job.cronExpr.Some? && cron.CronInvalid? then outcome == Refused(BadCron)
            else if job.jobId in t.jobs && t.jobs[job.jobId].scriptName != job.scriptName
            then outcome == Refused(ScriptMismatch)
            else
              && (forall holder :: NameHeldBy(t, job.jobName, holder) && holder != job.jobId ==>
                    outcome == Refused(NameTaken(holder)))
              && (outcome == Done <==> forall holder :: NameHeldBy(t, job.jobName, holder) ==> holder == job.jobId)
              && (outcome == Done ==> t'.jobs == t.jobs[job.jobId := WithSchedule(job, hash, cron, now)])
  {
    StoreDecides(t, WithSchedule(job, hash, cron, now));
    HolderIsIndexed(t, job.jobName);
    assert job.jobName in t.byName ==> NameHeldBy(t, job.jobName, t.byName[job.jobName]);
  }

  lemma HolderIsIndexed(t: Table, name: string)
    requires IndexOk(t)
    ensures forall holder :: NameHeldBy(t, name, holder) <==> name in t.byName && t.byName[name] == holder
  {}

  lemma StoreDecides(t: Table, job: Job)
    requires IndexOk(t)
    ensures var (t', outcome) := RecordAndStore(t, job);
            outcome == (if job.jobId in t.jobs && t.jobs[job.jobId].scriptName != job.scriptName
                        then Refused(ScriptMismatch)
                        else if job.jobName in t.byName && t.byName[job.jobName] != job.jobId
                        then Refused(NameTaken(t.byName[job.jobName])) else Done)
            && (outcome == Done ==> t'.jobs == t.jobs[job.jobId := job])
  {}

  /** Such an upsert exists: jobs "a" and "b" are stored, and renaming "b" to the name of "a" is refused after
      revision 2 of "b" was written. */
  lemma RefusedRenameLeavesRevision() returns (t: Table, job: Job)
    ensures TableOk(t)
    ensures var (t', outcome) := ServiceUpsert(t, job, 0, CronNext(None), 0);
            outcome.Refused? && t'.revisions != t.revisions && !HistoryOk(t')
  {
    var a := StoredJob("a", "first", 1);
    var b := StoredJob("b", "second", 1);
    t := Table(map["a" := a, "b" := b], map["first" := "a", "second" := "b"],
               map["a" := [Revision(1, a)], "b" := [Revision(1, b)]]);
    job := StoredJob("b", "first", 2);
    RefusedUpsertLeavesNoRevisionIff(t, job, 0, CronNext(None), 0);
  }

  function StoredJob(id: Id, name: string, revision: int): Job {
    Job(id, name, "script", true, Manual, None, None, None, None, None, None, Some(0), None, None,
        None, "null", "{}", 1, None, RetryPolicy(0), MisfirePolicy(false, 0), None, revision, 0, 0)
  }

  // ---- the HTTP upsert --------------------------------------------------------------------------

  const MAX_POOL_CHARS: nat := 128
  const MAX_JOB_CONCURRENCY: int := 1_000
  const MAX_TIMEOUT_MS: int := 86_400_000
  const MAX_RETRY_ATTEMPTS: nat := 100

  datatype Request = Request(
    jobName: string,
    scriptName: string,
    enabled: bool,
    scheduleKind: ScheduleKind,
    cronExpr: Option<string>,
    timezone: Option<string>,
    paramsJson: string,
    concurrency: int,
    timeoutMs: Option<int>,
    actorJson: Option<string>,
    retryPolicy: Option<RetryPolicy>,
    misfirePolicy: Option<MisfirePolicy>,
    pool: Option<string>)

  /** What the handler learns from outside: the script registry, the actor policy, the cron library, the
      generated id, the partition hash and the clock. */
  datatype Context = Context(scriptKnown: bool, actorAllowed: bool, cron: CronOutcome, newId: Id, hash: int, now: Time)

  predicate PoolChar(c: char) {
    'a' <= c <= 'z' || 'A' <= c <= 'Z' || '0' <= c <= '9' || c == '.' || c == '_' || c == '/' || c == '-'
  }

  /** A trimmed pool; an empty one clears the job's pool. */
  function NormalizePool(raw: string): Option<Option<string>> {
    var pool := Trim(raw);
    if pool == "" then Some(None)
    else if |pool| <= MAX_POOL_CHARS && forall i :: 0 <= i < |pool| ==> PoolChar(pool[i]) then Some(Some(pool))
    else None
  }

  function NewJob(ctx: Context, req: Request): Job {
    Job(ctx.newId, req.jobName, req.scriptName, true, Cron, None, None, None, None, None, None, None, None, None,
        None, "null", "{}", 1, None, RetryPolicy(0), MisfirePolicy(false, 0), None, 1, ctx.now, ctx.now)
  }

  function Bumped(revision: int): int {
    if revision >= MAX_REVISION then MAX_REVISION else revision + 1
  }

  function Clamp(job: Job): Job {
    job.(concurrency := if job.concurrency < 1 then 1
                        else if job.concurrency > MAX_JOB_CONCURRENCY then MAX_JOB_CONCURRENCY else job.concurrency,
         timeoutMs := if job.timeoutMs.None? || job.timeoutMs.value <= 0 then None
                      else if job.timeoutMs.value > MAX_TIMEOUT_MS then Some(MAX_TIMEOUT_MS) else job.timeoutMs,
         retryPolicy := if job.retryPolicy.maxAttempts > MAX_RETRY_ATTEMPTS then RetryPolicy(MAX_RETRY_ATTEMPTS)
                        else job.retryPolicy)
  }

  /** Where the handler starts: the stored job of that name with its revision bumped, or a new one. */
  function Base(t: Table, req: Request, ctx: Context): Job {
    var found := LookupByName(t, req.jobName);
    if found.Some?
    then found.value.(scriptName := req.scriptName, currentRevision := Bumped(found.value.currentRevision))
    else NewJob(ctx, req)
  }

  /** The request's fields over a job; what the request leaves out is kept. */
  function Overlay(job: Job, req: Request, pool: Option<string>): Job {
    job.(
      enabled := req.enabled, scheduleKind := req.scheduleKind, cronExpr := req.cronExpr, timezone := req.timezone,
      paramsJson := req.paramsJson, concurrency := req.concurrency, timeoutMs := req.timeoutMs,
      actorJson := if req.actorJson.Some? then req.actorJson.value else job.actorJson,
      retryPolicy := if req.retryPolicy.Some? then req.retryPolicy.value else job.retryPolicy,
      misfirePolicy := if req.misfirePolicy.Some? then req.misfirePolicy.value else job.misfirePolicy,
      pool := if req.pool.Some? then pool else job.pool)
  }

  /** The job the request asks for. */
  function Requested(t: Table, req: Request, ctx: Context, pool: Option<string>): Job {
    var job := Clamp(Overlay(Base(t, req, ctx), req, pool));
    job.(nextRunAt := if job.scheduleKind == Cron && job.cronExpr.Some? && ctx.cron.CronNext? then ctx.cron.next
                      else job.nextRunAt)
  }

  /** The checks the handler makes before it calls the service. */
  predicate HttpAdmits(req: Request, ctx: Context) {
    && ctx.scriptKnown
    && (req.actorJson.Some? ==> ctx.actorAllowed)
    && (req.pool.Some? ==> NormalizePool(req.pool.value).Some?)
    && !(req.scheduleKind == Cron && req.cronExpr.Some? && ctx.cron.CronInvalid?)
  }

  /** The first check that fails, in the handler's order. */
  function HttpError(req: Request, ctx: Context): Error {
    if !ctx.scriptKnown then UnknownScript
    else if req.actorJson.Some? && !ctx.actorAllowed then BadActor
    else if req.pool.Some? && NormalizePool(req.pool.value).None? then BadPool
    else BadCron
  }

  function HttpPool(req: Request): Option<string> {
    if req.pool.Some? && NormalizePool(req.pool.value).Some? then NormalizePool(req.pool.value).value else None
  }

  /** An accepted upsert of a known name changes that name's row; of an unknown name, it adds a row. */
  predicate OnlyNamedJobChanged(t: Table, t': Table, name: string, newId: Id) {
    && LookupByName(t', name).Some?
    && (if LookupByName(t, name).Some?
        then t'.jobs.Keys == t.jobs.Keys else t'.jobs.Keys == t.jobs.Keys + {newId})
    && forall id :: id in t.jobs && t.jobs[id].jobName != name ==> id in t'.jobs && t'.jobs[id] == t.jobs[id]
  }

  function HttpUpsert(t: Table, req: Request, ctx: Context): (Table, Outcome) {
    if HttpAdmits(req, ctx) then
      ServiceUpsert(t, Requested(t, req, ctx, HttpPool(req)), ctx.hash, ctx.cron, ctx.now)
    else (t, Refused(HttpError(req, ctx)))
  }

  predicate Numbered(revisions: seq<Revision>, current: int) {
    |revisions| == current && forall i :: 0 <= i < |revisions| ==> revisions[i].number == i + 1
  }

  /** A stored job's revisions are 1 to its current revision, in order; no one else has any. */
  predicate HistoryOk(t: Table) {
    && t.revisions.Keys == t.jobs.Keys
    && forall id :: id in t.jobs ==>
         1 <= t.jobs[id].currentRevision <= MAX_REVISION && Numbered(t.revisions[id], t.jobs[id].currentRevision)
  }

  predicate TableOk(t: Table) {
    IndexOk(t) && HistoryOk(t)
  }

  /** Every stored row is still there, the same job as before. */
  predicate RowsKeepIdentity(t: Table, t': Table) {
    forall id :: id in t.jobs ==> id in t'.jobs && SameIdentity(t.jobs[id], t'.jobs[id])
  }

  lemma RecordKeepsHistory(t: Table, job: Job)
    requires HistoryOk(t) && job.jobId in t.jobs && job.currentRevision == Bumped(t.jobs[job.jobId].currentRevision)
    ensures HistoryOk(Recorded(t, job).(jobs := t.jobs[job.jobId := job]))
  {
    var id := job.jobId;
    var t' := Recorded(t, job).(jobs := t.jobs[id := job]);
    assert t'.revisions.Keys == t'.jobs.Keys;
    if t.jobs[id].currentRevision != job.currentRevision {
      assert t'.revisions[id] == t.revisions[id] + [Revision(job.currentRevision, job)];
    }
    forall other | other in t'.jobs && other != id
      ensures other in t.jobs && t'.revisions[other] == t.revisions[other] {}
  }

  lemma StoreExisting(t: Table, job: Job)
    requires TableOk(t) && job.jobId in t.jobs && SameIdentity(t.jobs[job.jobId], job)
    requires job.currentRevision == Bumped(t.jobs[job.jobId].currentRevision)
    ensures var (t', outcome) := WriteJob(Recorded(t, job), job);
            outcome == Done && TableOk(t') && t'.jobs == t.jobs[job.jobId := job]
  {
    var t' := WriteJob(Recorded(t, job), job).0;
    assert t'.byName == t.byName;
    RecordKeepsHistory(t, job);
    ReplaceKeepsIndex(t, job.jobId, job);
    assert IndexOk(t.(jobs := t.jobs[job.jobId := job]));
  }

  lemma FirstRevisionStartsHistory(t: Table, job: Job)
    requires HistoryOk(t) && job.jobId !in t.jobs && job.currentRevision == 1
    ensures HistoryOk(AppendRevision(t, job.jobId, Revision(1, job)).(jobs := t.jobs[job.jobId := job]))
  {
    var first := Revision(1, job);
    var t1 := AppendRevision(t, job.jobId, first);
    assert job.jobId !in t.revisions && [] + [first] == [first];
    assert t1.revisions == t.revisions[job.jobId := [first]];
    assert Numbered([first], 1);
  }

  lemma StoreNew(t: Table, job: Job)
    requires TableOk(t) && job.jobId !in t.jobs && job.jobName !in t.byName && job.currentRevision == 1
    ensures var (t', outcome) := WriteJob(AppendRevision(t, job.jobId, Revision(1, job)), job);
            outcome == Done && TableOk(t') && t'.jobs == t.jobs[job.jobId := job]
  {
    FirstRevisionStartsHistory(t, job);
    WriteKeepsIndex(t, job);
    var t' := WriteJob(AppendRevision(t, job.jobId, Revision(1, job)), job).0;
    assert t'.jobs == WriteJob(t, job).0.jobs && t'.byName == WriteJob(t, job).0.byName;
  }

  /** The job the handler hands to the service is the stored one with the next revision, or a new one with the
      first. */
  lemma RequestedIdentity(t: Table, req: Request, ctx: Context, pool: Option<string>)
    requires IndexOk(t)
    ensures var job := WithSchedule(Requested(t, req, ctx, pool), ctx.hash, ctx.cron, ctx.now);
            var found := LookupByName(t, req.jobName);
            && job.jobName == req.jobName && job.scriptName == req.scriptName
            && (found.Some? ==> && job.jobId == found.value.jobId && job.createdAt == found.value.createdAt
                                && job.currentRevision == Bumped(found.value.currentRevision))
            && (found.None? ==> job.jobId == ctx.newId && job.createdAt == ctx.now && job.currentRevision == 1)
  {}

  /** What the handler guarantees of the job it hands over. */
  predicate Continues(t: Table, job: Job) {
    if job.jobId in t.jobs then
      && job.jobName == t.jobs[job.jobId].jobName && job.createdAt == t.jobs[job.jobId].createdAt
      && job.currentRevision == Bumped(t.jobs[job.jobId].currentRevision)
    else job.currentRevision == 1
  }

  lemma StoreKeepsHistory(t: Table, job: Job)
    requires TableOk(t) && Continues(t, job)
    ensures var (t', outcome) := RecordAndStore(t, job);
            TableOk(t') && (if outcome.Refused? then t' == t else t'.jobs == t.jobs[job.jobId := job])
  {
    if job.jobId in t.jobs {
      if t.jobs[job.jobId].scriptName == job.scriptName {
        StoreExisting(t, job);
      }
    } else if LookupByName(t, job.jobName).None? {
      StoreNew(t, job);
    }
  }

  lemma StoreKeepsIdentity(t: Table, job: Job)
    requires TableOk(t) && Continues(t, job)
    ensures RowsKeepIdentity(t, RecordAndStore(t, job).0)
  {
    StoreKeepsHistory(t, job);
  }

  lemma StoreChangesOne(t: Table, job: Job)
    requires TableOk(t) && Continues(t, job) && RecordAndStore(t, job).1.Done?
    requires job.jobId in t.jobs || job.jobName !in t.byName
    ensures OnlyNamedJobChanged(t, RecordAndStore(t, job).0, job.jobName, job.jobId)
  {
    StoreKeepsHistory(t, job);
    var t' := RecordAndStore(t, job).0;
    assert t'.jobs[job.jobId].jobName == job.jobName;
  }

  lemma RequestedContinues(t: Table, req: Request, ctx: Context, pool: Option<string>)
    requires IndexOk(t) && ctx.newId !in t.jobs
    ensures var job := WithSchedule(Requested(t, req, ctx, pool), ctx.hash, ctx.cron, ctx.now);
            && job.jobName == req.jobName && Continues(t, job)
            && (job.jobId in t.jobs || (job.jobName !in t.byName && job.jobId == ctx.newId))
            && (job.jobId in t.jobs <==> req.jobName in t.byName)
  {
    RequestedIdentity(t, req, ctx, pool);
  }

  /** An HTTP upsert keeps index and history, changes at most the job it names, never that job's identity, and
      when it is refused changes nothing at all. */
  lemma HttpUpsertKeepsHistory(t: Table, req: Request, ctx: Context)
    requires TableOk(t) && ctx.newId !in t.jobs
    ensures var (t', outcome) := HttpUpsert(t, req, ctx);
            && TableOk(t') && RowsKeepIdentity(t, t')
            && (if outcome.Refused? then t' == t else OnlyNamedJobChanged(t, t', req.jobName, ctx.newId))
  {
    if HttpAdmits(req, ctx) && !CronRefused(Requested(t, req, ctx, HttpPool(req)), ctx.cron) {
      var job := WithSchedule(Requested(t, req, ctx, HttpPool(req)), ctx.hash, ctx.cron, ctx.now);
      RequestedContinues(t, req, ctx, HttpPool(req));
      StoreKeepsHistory(t, job);
      StoreKeepsIdentity(t, job);
      if RecordAndStore(t, job).1.Done? {
        StoreChangesOne(t, job);
      }
    }
  }

  predicate PoolName(pool: string) {
    1 <= |pool| <= MAX_POOL_CHARS && forall i :: 0 <= i < |pool| ==> PoolChar(pool[i])
  }

  /** A pool the handler accepts is a valid queue key, a second normalisation leaves it alone, and runs of the job
      go to that very pool; a pool it clears sends them to the general one. */
  lemma AcceptedPoolIsExecutionPool(raw: string, job: Job)
    requires NormalizePool(raw).Some? && job.pool == NormalizePool(raw).value
    ensures job.pool == if Trim(raw) == "" then None else Some(Trim(raw))
    ensures job.pool.None? ==> ExecutionPool(job) == GENERAL
    ensures job.pool.Some? ==> PoolName(job.pool.value) && NormalizePool(job.pool.value) == Some(job.pool)
                               && ExecutionPool(job) == job.pool.value
  {
    TrimIsTrimmed(raw, Trim(raw));
    TrimIsTrimmed(Trim(raw), Trim(raw));
  }

  /** What an accepted upsert leaves under the name: what the request says, within the bounds, and for what it
      leaves out the stored job's value. */
  predicate Honours(stored: Job, req: Request, ctx: Context) {
    HonoursFields(stored, req, ctx) && HonoursBounds(stored, req)
  }

  predicate HonoursFields(stored: Job, req: Request, ctx: Context) {
    && stored.scriptName == req.scriptName && stored.enabled == req.enabled
    && stored.scheduleKind == req.scheduleKind && stored.cronExpr == req.cronExpr && stored.timezone == req.timezone
    && stored.paramsJson == req.paramsJson
    && (req.actorJson.Some? ==> stored.actorJson == req.actorJson.value)
    && (req.misfirePolicy.Some? ==> stored.misfirePolicy == req.misfirePolicy.value)
    && (req.pool.Some? ==> Some(stored.pool) == NormalizePool(req.pool.value))
    && (req.scheduleKind == Cron && req.cronExpr.Some? ==> ctx.cron == CronNext(stored.nextRunAt))
    && stored.partitionHash.Some? && stored.updatedAt == ctx.now
  }

  /** A value out of bounds becomes the nearest one within; a timeout that is not positive means none. */
  predicate HonoursBounds(stored: Job, req: Request) {
    && (req.concurrency < 1 ==> stored.concurrency == 1)
    && (1 <= req.concurrency <= MAX_JOB_CONCURRENCY ==> stored.concurrency == req.concurrency)
    && (req.concurrency > MAX_JOB_CONCURRENCY ==> stored.concurrency == MAX_JOB_CONCURRENCY)
    && (req.timeoutMs.None? || req.timeoutMs.value <= 0 ==> stored.timeoutMs.None?)
    && (req.timeoutMs.Some? && 0 < req.timeoutMs.value <= MAX_TIMEOUT_MS ==> stored.timeoutMs == req.timeoutMs)
    && (req.timeoutMs.Some? && req.timeoutMs.value > MAX_TIMEOUT_MS ==> stored.timeoutMs == Some(MAX_TIMEOUT_MS))
    && (req.retryPolicy.Some? ==> stored.retryPolicy.maxAttempts == CappedRetries(req.retryPolicy.value))
  }

  function CappedRetries(policy: RetryPolicy): nat {
    if policy.maxAttempts > MAX_RETRY_ATTEMPTS then MAX_RETRY_ATTEMPTS else policy.maxAttempts
  }

  predicate KeepsRest(before: Job, stored: Job, req: Request) {
    && stored.currentRevision == Bumped(before.currentRevision) && stored.createdAt == before.createdAt
    && (req.actorJson.None? ==> stored.actorJson == before.actorJson)
    && (req.misfirePolicy.None? ==> stored.misfirePolicy == before.misfirePolicy)
    && (req.retryPolicy.None? ==> stored.retryPolicy.maxAttempts == CappedRetries(before.retryPolicy))
    && (req.pool.None? ==> stored.pool == before.pool)
    && (before.partitionHash.Some? ==> stored.partitionHash == before.partitionHash)
    && stored.claimLeaseId == before.claimLeaseId && stored.claimLeaseUntil == before.claimLeaseUntil
    && stored.runOnceCompletedAt == before.runOnceCompletedAt && stored.runOnceClaimedAt == before.runOnceClaimedAt
    && stored.runOnceClaimedBy == before.runOnceClaimedBy
    && stored.runOnceClaimExpiresAt == before.runOnceClaimExpiresAt
    && (req.scheduleKind != Cron || req.cronExpr.None? ==> stored.nextRunAt == before.nextRunAt)
  }

  /** What a new job is where the request says nothing. */
  predicate StartsFresh(stored: Job, req: Request, ctx: Context) {
    && stored.jobId == ctx.newId && stored.createdAt == ctx.now && stored.currentRevision == 1
    && (req.actorJson.None? ==> stored.actorJson == "null")
    && (req.retryPolicy.None? ==> stored.retryPolicy.maxAttempts == 0)
    && (req.misfirePolicy.None? ==> stored.misfirePolicy == MisfirePolicy(false, 0))
    && (req.pool.None? ==> stored.pool.None?)
    && stored.partitionHash == Some(ctx.hash)
    && stored.claimLeaseId.None? && stored.claimLeaseUntil.None?
    && stored.runOnceCompletedAt.None? && stored.runOnceClaimedAt.None?
    && stored.runOnceClaimedBy.None? && stored.runOnceClaimExpiresAt.None?
    && (req.scheduleKind != Cron || req.cronExpr.None? ==> stored.nextRunAt.None?)
  }

  lemma RequestedHonours(t: Table, req: Request, ctx: Context)
    requires HttpAdmits(req, ctx)
    ensures Honours(WithSchedule(Requested(t, req, ctx, HttpPool(req)), ctx.hash, ctx.cron, ctx.now), req, ctx)
  {
    RequestedHonoursFields(t, req, ctx);
    RequestedHonoursBounds(t, req, ctx);
  }

  lemma RequestedHonoursFields(t: Table, req: Request, ctx: Context)
    requires HttpAdmits(req, ctx)
    ensures HonoursFields(WithSchedule(Requested(t, req, ctx, HttpPool(req)), ctx.hash, ctx.cron, ctx.now), req, ctx)
  {}

  lemma RequestedHonoursBounds(t: Table, req: Request, ctx: Context)
    ensures HonoursBounds(WithSchedule(Requested(t, req, ctx, HttpPool(req)), ctx.hash, ctx.cron, ctx.now), req)
  {}

  lemma RequestedKeepsRest(t: Table, req: Request, ctx: Context)
    requires HttpAdmits(req, ctx) && LookupByName(t, req.jobName).Some?
    ensures var job := WithSchedule(Requested(t, req, ctx, HttpPool(req)), ctx.hash, ctx.cron, ctx.now);
            KeepsRest(LookupByName(t, req.jobName).value, job, req)
  {}

  lemma RequestedStartsFresh(t: Table, req: Request, ctx: Context)
    requires HttpAdmits(req, ctx) && LookupByName(t, req.jobName).None?
    ensures StartsFresh(WithSchedule(Requested(t, req, ctx, HttpPool(req)), ctx.hash, ctx.cron, ctx.now), req, ctx)
  {}

  lemma AcceptedIsStored(t: Table, req: Request, ctx: Context)
    requires TableOk(t) && ctx.newId !in t.jobs && HttpUpsert(t, req, ctx).1.Done?
    ensures HttpAdmits(req, ctx)
    ensures LookupByName(HttpUpsert(t, req, ctx).0, req.jobName)
            == Some(WithSchedule(Requested(t, req, ctx, HttpPool(req)), ctx.hash, ctx.cron, ctx.now))
  {
    var job := WithSchedule(Requested(t, req, ctx, HttpPool(req)), ctx.hash, ctx.cron, ctx.now);
    RequestedContinues(t, req, ctx, HttpPool(req));
    StoreKeepsHistory(t, job);
    var t' := HttpUpsert(t, req, ctx).0;
    assert t' == RecordAndStore(t, job).0;
    assert t'.jobs[job.jobId] == job && job.jobName == req.jobName;
    LookupIsSearch(t', req.jobName);
  }

  /** After an accepted upsert, lookup by name finds a job that honours the request and keeps the rest. */
  lemma AcceptedUpsertIsFound(t: Table, req: Request, ctx: Context)
    requires TableOk(t) && ctx.newId !in t.jobs && HttpUpsert(t, req, ctx).1.Done?
    ensures var found := LookupByName(HttpUpsert(t, req, ctx).0, req.jobName);
            && found.Some? && Honours(found.value, req, ctx)
            && if LookupByName(t, req.jobName).Some?
               then KeepsRest(LookupByName(t, req.jobName).value, found.value, req)
               else StartsFresh(found.value, req, ctx)
  {
    AcceptedIsStored(t, req, ctx);
    RequestedHonours(t, req, ctx);
    if LookupByName(t, req.jobName).Some? {
      RequestedKeepsRest(t, req, ctx);
    } else {
      RequestedStartsFresh(t, req, ctx);
    }
  }

  /** The job that a request names, as the table holds it. */
  predicate Known(t: Table, name: string, before: Job) {
    before.jobId in t.jobs && t.jobs[before.jobId] == before && before.jobName == name
  }

  /** The stored job has the next revision and its history one entry more; with the numbers used up it keeps the
      last number and its history. No other row or history changes. */
  predicate IsRevised(t: Table, t': Table, before: Job) {
    var id, r := before.jobId, before.currentRevision;
    && id in t'.jobs && t'.jobs == t.jobs[id := t'.jobs[id]] && t'.jobs[id].jobId == id && id in t.revisions
    && (r < MAX_REVISION ==>
          && t'.jobs[id].currentRevision == r + 1
          && t'.revisions == t.revisions[id := t.revisions[id] + [Revision(r + 1, t'.jobs[id])]])
    && (r == MAX_REVISION ==> t'.jobs[id].currentRevision == r && t'.revisions == t.revisions)
  }

  /** The new job has revision 1 and a history of that one entry. */
  predicate IsStarted(t: Table, t': Table, id: Id) {
    && id in t'.jobs && t'.jobs == t.jobs[id := t'.jobs[id]] && t'.jobs[id].jobId == id
    && t'.jobs[id].currentRevision == 1 && t'.revisions == t.revisions[id := [Revision(1, t'.jobs[id])]]
  }

  /** An accepted upsert of a known name stores the next revision and records it. */
  lemma KnownUpsertIsRecorded(t: Table, req: Request, ctx: Context, before: Job)
    requires TableOk(t) && ctx.newId !in t.jobs && HttpUpsert(t, req, ctx).1.Done? && Known(t, req.jobName, before)
    ensures IsRevised(t, HttpUpsert(t, req, ctx).0, before)
  {
    var job := WithSchedule(Requested(t, req, ctx, HttpPool(req)), ctx.hash, ctx.cron, ctx.now);
    LookupIsSearch(t, req.jobName);
    RequestedIdentity(t, req, ctx, HttpPool(req));
    assert job.jobId == before.jobId && RecordAndStore(t, job).1.Done?;
    StoreRecords(t, job);
  }

  lemma StoreRecords(t: Table, job: Job)
    requires TableOk(t) && RecordAndStore(t, job).1.Done?
    ensures var t' := RecordAndStore(t, job).0;
            && t'.jobs == t.jobs[job.jobId := job]
            && (job.jobId in t.jobs ==>
                  t'.revisions == if t.jobs[job.jobId].currentRevision == job.currentRevision then t.revisions
                    else t.revisions[job.jobId := t.revisions[job.jobId] + [Revision(job.currentRevision, job)]])
            && (job.jobId !in t.jobs ==> t'.revisions == t.revisions[job.jobId := [Revision(1, job)]])
  {
    assert [] + [Revision(1, job)] == [Revision(1, job)];
  }

  /** An accepted upsert of a new name starts a history. */
  lemma NewUpsertIsRecorded(t: Table, req: Request, ctx: Context)
    requires TableOk(t) && ctx.newId !in t.jobs && HttpUpsert(t, req, ctx).1.Done?
    requires forall id :: id in t.jobs ==> t.jobs[id].jobName != req.jobName
    ensures IsStarted(t, HttpUpsert(t, req, ctx).0, ctx.newId)
  {
    var job := WithSchedule(Requested(t, req, ctx, HttpPool(req)), ctx.hash, ctx.cron, ctx.now);
    LookupIsSearch(t, req.jobName);
    RequestedIdentity(t, req, ctx, HttpPool(req));
    StoreRecords(t, job);
  }

  /** When the handler accepts a request, and what it answers otherwise: the first check that fails decides. */
  lemma UpsertAnswers(t: Table, req: Request, ctx: Context)
    requires TableOk(t) && ctx.newId !in t.jobs
    ensures var found := LookupByName(t, req.jobName);
            HttpUpsert(t, req, ctx).1
            == if !ctx.scriptKnown then Refused(UnknownScript)
               else if req.actorJson.Some? && !ctx.actorAllowed then Refused(BadActor)
               else if req.pool.Some? && Trim(req.pool.value) != "" && !PoolName(Trim(req.pool.value))
                 then Refused(BadPool)
               else if req.scheduleKind == Cron && req.cronExpr.Some? && ctx.cron.CronInvalid? then Refused(BadCron)
               else if found.Some? && found.value.scriptName != req.scriptName then Refused(ScriptMismatch)
               else Done
  {
    var raw := Requested(t, req, ctx, HttpPool(req));
    if HttpAdmits(req, ctx) {
      assert !CronRefused(raw, ctx.cron);
      RequestedContinues(t, req, ctx, HttpPool(req));
      RequestedIdentity(t, req, ctx, HttpPool(req));
      StoreAnswers(t, WithSchedule(raw, ctx.hash, ctx.cron, ctx.now));
    }
  }

  lemma StoreAnswers(t: Table, job: Job)
    requires TableOk(t) && Continues(t, job)
    requires job.jobId in t.jobs || job.jobName !in t.byName
    ensures RecordAndStore(t, job).1
            == if job.jobId in t.jobs && t.jobs[job.jobId].scriptName != job.scriptName then Refused(ScriptMismatch)
               else Done
  {
    if job.jobId in t.jobs && t.jobs[job.jobId].scriptName == job.scriptName {
      StoreExisting(t, job);
    }
  }

  datatype ApiOp = HttpPut(req: Request, ctx: Context) | HttpDelete(id: Id) | RowCall(id: Id, op: JobOp)

  function ApplyApi(t: Table, op: ApiOp): Table {
    match op
    case HttpPut(req, ctx) => HttpUpsert(t, req, ctx).0
    case HttpDelete(id) => RemoveJob(t, id)
    case RowCall(id, jobOp) => MutateJob(t, id, jobOp)
  }

  /** Generated ids are new. */
  predicate AllNew(t: Table, ops: seq<ApiOp>)
    decreases |ops|
  {
    ops == [] || ((ops[0].HttpPut? ==> ops[0].ctx.newId !in t.jobs) && AllNew(ApplyApi(t, ops[0]), ops[1..]))
  }

  function ApplyApis(t: Table, ops: seq<ApiOp>): Table
    decreases |ops|
  {
    if ops == [] then t else ApplyApis(ApplyApi(t, ops[0]), ops[1..])
  }

  lemma RemoveKeepsHistory(t: Table, id: Id)
    requires TableOk(t)
    ensures TableOk(RemoveJob(t, id))
  {
    RemoveKeepsIndex(t, id);
  }

  lemma MutateKeepsHistory(t: Table, id: Id, op: JobOp)
    requires TableOk(t)
    ensures TableOk(MutateJob(t, id, op)) && RowsKeepIdentity(t, MutateJob(t, id, op))
  {
    if id in t.jobs {
      OpKeepsIdentity(t.jobs[id], op);
      ReplaceKeepsIndex(t, id, ApplyOp(t.jobs[id], op));
    }
  }

  lemma ApiOpKeepsHistory(t: Table, op: ApiOp)
    requires TableOk(t) && (op.HttpPut? ==> op.ctx.newId !in t.jobs)
    ensures TableOk(ApplyApi(t, op))
    ensures forall id :: id in t.jobs && op != HttpDelete(id) ==>
              id in ApplyApi(t, op).jobs && SameIdentity(t.jobs[id], ApplyApi(t, op).jobs[id])
  {
    match op
    case HttpPut(req, ctx) => HttpUpsertKeepsHistory(t, req, ctx);
    case HttpDelete(id) => RemoveKeepsHistory(t, id);
    case RowCall(id, jobOp) => MutateKeepsHistory(t, id, jobOp);
  }

  /** After every sequence of HTTP upserts, deletes, pauses, resumes and tick writes, each stored job's revisions
      are exactly 1 to its current revision, and a job that was not deleted is still the same job. */
  lemma {:induction false} HistoryIsGapFree(t: Table, ops: seq<ApiOp>)
    requires TableOk(t) && AllNew(t, ops)
    ensures TableOk(ApplyApis(t, ops))
    ensures forall id :: id in t.jobs && HttpDelete(id) !in ops ==>
              id in ApplyApis(t, ops).jobs && SameIdentity(t.jobs[id], ApplyApis(t, ops).jobs[id])
    decreases |ops|
  {
    if ops != [] {
      ApiOpKeepsHistory(t, ops[0]);
      var t1 := ApplyApi(t, ops[0]);
      HistoryIsGapFree(t1, ops[1..]);
      forall id | id in t.jobs && HttpDelete(id) !in ops
        ensures id in ApplyApis(t, ops).jobs && SameIdentity(t.jobs[id], ApplyApis(t, ops).jobs[id])
      {
        assert ops[0] in ops && HttpDelete(id) !in ops[1..];
        assert id in t1.jobs && SameIdentity(t.jobs[id], t1.jobs[id]);
      }
    }
  }

  // ---- what the revisions say -------------------------------------------------------------------

  /** Each revision holds the job as it was stored under that number, and the last one defines the stored job,
      until the numbers have run out. */
  predicate Tells(revisions: seq<Revision>, id: Id, job: Job) {
    && (forall i :: 0 <= i < |revisions| ==>
          revisions[i].snapshot.jobId == id && revisions[i].snapshot.currentRevision == revisions[i].number)
    && (job.currentRevision < MAX_REVISION ==>
          revisions != [] && SameDefinition(revisions[|revisions| - 1].snapshot, job))
  }

  predicate HistoryTells(t: Table) {
    forall id :: id in t.jobs ==> id in t.revisions && Tells(t.revisions[id], id, t.jobs[id])
  }

  lemma OneRowTells(t: Table, t': Table, id: Id)
    requires HistoryTells(t) && id in t'.jobs && t'.jobs == t.jobs[id := t'.jobs[id]]
    requires id in t'.revisions && t'.revisions == t.revisions[id := t'.revisions[id]]
    requires Tells(t'.revisions[id], id, t'.jobs[id])
    ensures HistoryTells(t')
  {}

  lemma TellsOneMore(revisions: seq<Revision>, id: Id, job: Job)
    requires forall i :: 0 <= i < |revisions| ==>
               revisions[i].snapshot.jobId == id && revisions[i].snapshot.currentRevision == revisions[i].number
    requires job.jobId == id
    ensures Tells(revisions + [Revision(job.currentRevision, job)], id, job)
  {}

  lemma RevisedTells(t: Table, t': Table, before: Job)
    requires HistoryTells(t) && before.jobId in t.jobs && t.jobs[before.jobId] == before && IsRevised(t, t', before)
    requires before.currentRevision <= MAX_REVISION
    ensures HistoryTells(t')
  {
    var id := before.jobId;
    assert Tells(t.revisions[id], id, before);
    if before.currentRevision < MAX_REVISION {
      TellsOneMore(t.revisions[id], id, t'.jobs[id]);
    }
    OneRowTells(t, t', id);
  }

  lemma StartedTells(t: Table, t': Table, id: Id)
    requires HistoryTells(t) && IsStarted(t, t', id)
    ensures HistoryTells(t')
  {
    TellsOneMore([], id, t'.jobs[id]);
    OneRowTells(t, t', id);
  }

  lemma PutKeepsTelling(t: Table, req: Request, ctx: Context)
    requires TableOk(t) && HistoryTells(t) && ctx.newId !in t.jobs
    ensures HistoryTells(HttpUpsert(t, req, ctx).0)
  {
    HttpUpsertKeepsHistory(t, req, ctx);
    if HttpUpsert(t, req, ctx).1.Done? {
      LookupIsSearch(t, req.jobName);
      if id :| id in t.jobs && t.jobs[id].jobName == req.jobName {
        KnownUpsertIsRecorded(t, req, ctx, t.jobs[id]);
        RevisedTells(t, HttpUpsert(t, req, ctx).0, t.jobs[id]);
      } else {
        NewUpsertIsRecorded(t, req, ctx);
        StartedTells(t, HttpUpsert(t, req, ctx).0, ctx.newId);
      }
    }
  }

  lemma RowCallTells(revisions: seq<Revision>, id: Id, job: Job, op: JobOp)
    requires Tells(revisions, id, job)
    ensures Tells(revisions, id, ApplyOp(job, op))
  {
    OpKeepsIdentity(job, op);
  }

  lemma ApiOpKeepsTelling(t: Table, op: ApiOp)
    requires TableOk(t) && HistoryTells(t) && (op.HttpPut? ==> op.ctx.newId !in t.jobs)
    ensures HistoryTells(ApplyApi(t, op))
  {
    match op
    case HttpPut(req, ctx) => PutKeepsTelling(t, req, ctx);
    case HttpDelete(_) =>
    case RowCall(id, jobOp) =>
      if id in t.jobs {
        RowCallTells(t.revisions[id], id, t.jobs[id], jobOp);
        OneRowTells(t, MutateJob(t, id, jobOp), id);
      }
  }

  /** After every such sequence, each revision is the job as stored under its number, and the last one holds all
      that defines the job as it is now. */
  lemma {:induction false} LastRevisionDefinesJob(t: Table, ops: seq<ApiOp>)
    requires TableOk(t) && HistoryTells(t) && AllNew(t, ops)
    ensures HistoryTells(ApplyApis(t, ops))
    decreases |ops|
  {
    if ops != [] {
      ApiOpKeepsHistory(t, ops[0]);
      ApiOpKeepsTelling(t, ops[0]);
      LastRevisionDefinesJob(ApplyApi(t, ops[0]), ops[1..]);
    }
  }

  /** A deleted job leaves nothing behind: its name is free and its history gone. Every other job stays. */
  lemma DeletedJobIsGone(t: Table, id: Id)
    requires TableOk(t) && id in t.jobs
    ensures var t' := ApplyApi(t, HttpDelete(id));
            && t'.jobs.Keys == t'.revisions.Keys == t.jobs.Keys - {id}
            && LookupByName(t', t.jobs[id].jobName).None?
            && forall other :: other in t.jobs && other != id ==>
                 t'.jobs[other] == t.jobs[other] && t'.revisions[other] == t.revisions[other]
                 && LookupByName(t', t.jobs[other].jobName) == Some(t.jobs[other])
  {
    RemoveKeepsHistory(t, id);
    var t' := RemoveJob(t, id);
    LookupIsSearch(t', t.jobs[id].jobName);
    forall other | other in t.jobs && other != id
      ensures LookupByName(t', t.jobs[other].jobName) == Some(t.jobs[other])
    {
      LookupIsSearch(t', t.jobs[other].jobName);
    }
  }
}

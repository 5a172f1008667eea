/** Rows and values shared by every part of the scheduler: time, runs, run status and pools. */
module Models {

  datatype Option<+T> = None | Some(value: T)

  /** Instants and durations count nanoseconds; instants are measured from the Unix epoch. */
  type Time = int

  type Id = string

  const NANOS_PER_MILLI: int := 1_000_000
  const NANOS_PER_SEC: int := 1_000_000_000

  /** The pool of a run or job that names none. */
  const GENERAL: string := "general"

  function Seconds(n: int): Time {
    n * NANOS_PER_SEC
  }

  /** Whole milliseconds since the epoch, rounded down: the score of a run in the ready queue. */
  function Millis(t: Time): int {
    t / NANOS_PER_MILLI
  }

  lemma MillisMonotone(a: Time, b: Time)
    requires a <= b
    ensures Millis(a) <= Millis(b)
  {}

  datatype RunStatus = Queued | Claimed | Running | Success | Failed | Canceled | Timeout {
    predicate Terminal() {
      Success? || Failed? || Canceled? || Timeout?
    }

    predicate Active() {
      Queued? || Claimed? || Running?
    }

    /** Held by a worker: the statuses whose lease can be renewed or reclaimed. */
    predicate Held() {
      Claimed? || Running?
    }
  }

  /** One execution of a job. JSON columns are opaque strings. */
  datatype Run = Run(
    runId: Id,
    jobId: Option<Id>,
    scriptName: string,
    parentRunId: Option<Id>,
    rootRunId: Option<Id>,
    scheduledFor: Time,
    startedAt: Option<Time>,
    finishedAt: Option<Time>,
    status: RunStatus,
    attempt: int,
    placementJson: Option<string>,
    poolId: Option<string>,
    actorJson: string,
    paramsJson: string,
    claimedBy: Option<Id>,
    claimLeaseUntil: Option<Time>)

  /** What a run fixes when it is created: everything a worker needs to execute it. */
  datatype Snapshot = Snapshot(
    jobId: Option<Id>,
    scriptName: string,
    parentRunId: Option<Id>,
    rootRunId: Option<Id>,
    scheduledFor: Time,
    attempt: int,
    placementJson: Option<string>,
    poolId: Option<string>,
    actorJson: string,
    paramsJson: string)

  function Snap(run: Run): Snapshot {
    Snapshot(run.jobId, run.scriptName, run.parentRunId, run.rootRunId, run.scheduledFor, run.attempt,
             run.placementJson, run.poolId, run.actorJson, run.paramsJson)
  }

  /** A new run of a job: queued, first attempt, held by nobody. */
  function NewRun(runId: Id, jobId: Id, scriptName: string, scheduledFor: Time): Run {
    Run(runId, Some(jobId), scriptName, None, None, scheduledFor, None, None, Queued, 1,
        None, None, "null", "{}", None, None)
  }

  function Started(run: Run, at: Time): Run {
    run.(status := Running, startedAt := Some(at))
  }

  function Finished(run: Run, status: RunStatus, at: Time): Run {
    run.(status := status, finishedAt := Some(at))
  }

  /** The next attempt of a failed run. */
  function NextAttempt(run: Run, runId: Id, scheduledFor: Time): Run {
    NewRun(runId, if run.jobId.Some? then run.jobId.value else "", run.scriptName, scheduledFor).(
      attempt := run.attempt + 1, actorJson := run.actorJson, paramsJson := run.paramsJson, poolId := run.poolId,
      placementJson := run.placementJson, parentRunId := run.parentRunId, rootRunId := run.rootRunId)
  }

  /** The queue a run waits in. */
  function RunPoolKey(poolId: Option<string>): string {
    match poolId
    case None => GENERAL
    case Some(p) => if p == GENERAL then GENERAL else p
  }

  /** The pool test written out in the claim statements of both stores. */
  predicate PoolMatches(poolId: Option<string>, pool: string) {
    poolId == Some(pool) || (pool == GENERAL && (poolId == None || poolId == Some(GENERAL)))
  }

  /** Routing and claiming agree: a pool may claim a run exactly when the run waits in that pool's queue. */
  lemma PoolTestIsQueueKey(poolId: Option<string>, pool: string)
    ensures PoolMatches(poolId, pool) <==> RunPoolKey(poolId) == pool
  {}
}

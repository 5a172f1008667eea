/** Executor events and retries: what an arbitrary stream of events can do to the runs. */
module EventRules {
  import opened Models
  import opened JobRules
  import opened RunRules

  /** A failure event comes with the id and due time its retry would get, and the clock reading. */
  datatype Event =
    | RunStarted(runId: Id, at: Time)
    | RunCompleted(runId: Id, at: Time)
    | RunFailed(runId: Id, at: Time, retryId: Id, retryAt: Time)

  /** `retryOf` records which run each retry was created for. */
  datatype World = World(runs: map<Id, Run>, jobs: map<Id, Job>, retryOf: map<Id, Id>)

  /** Stores the terminal row, then the next attempt when the policy allows one. */
  function FinalizeFailed(w: World, run: Run, job: Job, status: RunStatus, at: Time, retryId: Id, retryAt: Time)
    : World
  {
    if run.runId !in w.runs then w else
    var failed := Finished(run, if status == Timeout then Timeout else Failed, at);
    var stored := w.(runs := w.runs[run.runId := failed]);
    if ShouldRetry(job.retryPolicy, run.attempt) then
      stored.(runs := stored.runs[retryId := NextAttempt(failed, retryId, retryAt)],
              retryOf := stored.retryOf[retryId := run.runId])
    else
      stored
  }

  function Handle(w: World, ev: Event): World {
    if ev.runId !in w.runs then w else
    var run := w.runs[ev.runId];
    match ev
    case RunStarted(id, at) =>
      if run.status == Queued || run.status == Claimed then w.(runs := w.runs[id := Started(run, at)]) else w
    case RunCompleted(id, at) =>
      if run.status == Running then w.(runs := w.runs[id := Finished(run, Success, at)]) else w
    case RunFailed(id, at, retryId, retryAt) =>
      if run.status != Running then w
      else if JobOf(w.jobs, run).Some? then
        FinalizeFailed(w, run, JobOf(w.jobs, run).value, Failed, at, retryId, retryAt)
      else w.(runs := w.runs[id := Finished(run, Failed, at)])
  }

  /** Retry ids are new. */
  predicate Fresh(w: World, ev: Event) {
    ev.RunFailed? ==> ev.retryId !in w.runs
  }

  predicate AllFresh(w: World, evs: seq<Event>)
    decreases |evs|
  {
    evs == [] || (Fresh(w, evs[0]) && AllFresh(Handle(w, evs[0]), evs[1..]))
  }

  function HandleAll(w: World, evs: seq<Event>): World
    decreases |evs|
  {
    if evs == [] then w else HandleAll(Handle(w, evs[0]), evs[1..])
  }

  /** From waiting to running to one terminal status, never back, and nothing else moves. */
  predicate Progress(before: Run, after: Run) {
    && after.runId == before.runId && Snap(after) == Snap(before)
    && (|| after == before
        || ((before.status == Queued || before.status == Claimed)
            && (after.status == Running || after.status.Terminal()))
        || (before.status == Running && after.status.Terminal()))
  }

  /** What a single event may do to one run. */
  predicate OneMove(before: Run, after: Run) {
    && after.runId == before.runId && Snap(after) == Snap(before)
    && (|| after == before
        || ((before.status == Queued || before.status == Claimed) && after.status == Running)
        || (before.status == Running && after.status.Terminal()))
  }

  /** Each retry continues a run that has failed, one attempt later, under the same job and with everything
      the first run fixed; no run has two retries. */
  predicate RetryOk(w: World, id: Id) {
    && id in w.retryOf && id in w.runs && w.retryOf[id] in w.runs
    && var prior, next := w.runs[w.retryOf[id]], w.runs[id];
       && prior.status.Terminal()
       && prior.jobId.Some? && prior.jobId.value in w.jobs
       && ShouldRetry(w.jobs[prior.jobId.value].retryPolicy, prior.attempt)
       && next.attempt == prior.attempt + 1
       && Snap(next) == Snap(prior).(attempt := next.attempt, scheduledFor := next.scheduledFor)
  }

  predicate OneRetryEach(w: World) {
    forall x, y :: x in w.retryOf && y in w.retryOf && w.retryOf[x] == w.retryOf[y] ==> x == y
  }

  predicate Inv(w: World) {
    && Keyed(w.runs)
    && (forall id :: id in w.retryOf ==> RetryOk(w, id))
    && OneRetryEach(w)
  }

  lemma HandleProgress(w: World, ev: Event)
    requires Inv(w) && Fresh(w, ev)
    ensures var w' := Handle(w, ev);
            && w'.jobs == w.jobs && Keyed(w'.runs)
            && forall id :: id in w.runs ==> id in w'.runs && OneMove(w.runs[id], w'.runs[id])
  {}

  /** The only retry an event can add is the next attempt of the run it fails. */
  lemma RetryShape(w: World, ev: Event)
    requires Keyed(w.runs) && Fresh(w, ev)
    ensures var w' := Handle(w, ev);
            w'.retryOf == w.retryOf
            || (ev.RunFailed? && ev.runId in w.runs && w.runs[ev.runId].status == Running
                && w'.retryOf == w.retryOf[ev.retryId := ev.runId]
                && (ev.retryId !in w.retryOf || w.retryOf[ev.retryId] == ev.runId ==> RetryOk(w', ev.retryId)))
  {}

  lemma RetrySurvives(w: World, w': World, id: Id)
    requires RetryOk(w, id) && w'.jobs == w.jobs && id in w'.retryOf && w'.retryOf[id] == w.retryOf[id]
    requires id in w'.runs && Progress(w.runs[id], w'.runs[id])
    requires w.retryOf[id] in w'.runs && Progress(w.runs[w.retryOf[id]], w'.runs[w.retryOf[id]])
    ensures RetryOk(w', id)
  {}

  lemma HandleKeepsInv(w: World, ev: Event)
    requires Inv(w) && Fresh(w, ev)
    ensures Inv(Handle(w, ev))
  {
    var w' := Handle(w, ev);
    HandleProgress(w, ev);
    RetryShape(w, ev);
    RetriedRunsHaveEnded(w);
    HandleKeepsRetries(w, ev);
  }

  lemma RetriedRunsHaveEnded(w: World)
    requires forall id :: id in w.retryOf ==> RetryOk(w, id)
    ensures forall x :: x in w.retryOf ==>
              x in w.runs && w.retryOf[x] in w.runs && w.runs[w.retryOf[x]].status.Terminal()
  {
    forall x | x in w.retryOf ensures x in w.runs && w.retryOf[x] in w.runs && w.runs[w.retryOf[x]].status.Terminal() {
      assert RetryOk(w, x);
    }
  }

  lemma HandleKeepsRetries(w: World, ev: Event)
    requires Inv(w) && Fresh(w, ev)
    ensures forall id :: id in Handle(w, ev).retryOf ==> RetryOk(Handle(w, ev), id)
  {
    var w' := Handle(w, ev);
    HandleProgress(w, ev);
    RetryShape(w, ev);
    RetriedRunsHaveEnded(w);
    forall id | id in w'.retryOf ensures RetryOk(w', id) {
      if id in w.retryOf {
        RetrySurvives(w, w', id);
      }
    }
  }

  lemma ProgressTransitive(a: Run, b: Run, c: Run)
    requires Progress(a, b) && Progress(b, c)
    ensures Progress(a, c)
  {}

  /** Over every event stream, forged, repeated or late: each run only advances, at most one retry exists per
      run, and what a run fixed at creation never changes. */
  lemma {:induction false} EventsOnlyAdvance(w: World, evs: seq<Event>)
    requires Inv(w) && AllFresh(w, evs)
    ensures Inv(HandleAll(w, evs)) && HandleAll(w, evs).jobs == w.jobs
    ensures forall id :: id in w.runs ==>
              id in HandleAll(w, evs).runs && Progress(w.runs[id], HandleAll(w, evs).runs[id])
    decreases |evs|
  {
    if evs != [] {
      var w1 := Handle(w, evs[0]);
      HandleProgress(w, evs[0]);
      HandleKeepsInv(w, evs[0]);
      EventsOnlyAdvance(w1, evs[1..]);
      var w2 := HandleAll(w1, evs[1..]);
      forall id | id in w.runs ensures id in w2.runs && Progress(w.runs[id], w2.runs[id]) {
        ProgressTransitive(w.runs[id], w1.runs[id], w2.runs[id]);
      }
    }
  }

  // ---- which event decides ----------------------------------------------------------------------

  predicate Starts(ev: Event, id: Id) {
    ev.RunStarted? && ev.runId == id
  }

  predicate Ends(ev: Event, id: Id) {
    !ev.RunStarted? && ev.runId == id
  }

  /** The first event that starts the run is the `k`-th; there is none if `k` is the number of events. */
  predicate FirstStart(evs: seq<Event>, id: Id, k: nat) {
    k <= |evs| && (forall i :: 0 <= i < k ==> !Starts(evs[i], id)) && (k < |evs| ==> Starts(evs[k], id))
  }

  /** The first event from `since` on that ends the run is the `k`-th. */
  predicate FirstEnd(evs: seq<Event>, id: Id, since: nat, k: nat) {
    since <= k <= |evs| && (forall i :: since <= i < k ==> !Ends(evs[i], id)) && (k < |evs| ==> Ends(evs[k], id))
  }

  lemma IgnoredEvent(w: World, ev: Event, id: Id)
    requires Inv(w) && Fresh(w, ev) && id in w.runs
    requires if w.runs[id].status == Running then !Ends(ev, id) else !Starts(ev, id)
    ensures id in Handle(w, ev).runs && Handle(w, ev).runs[id] == w.runs[id]
  {}

  lemma EndingEvent(w: World, ev: Event, id: Id)
    requires Inv(w) && Fresh(w, ev) && id in w.runs && w.runs[id].status == Running && Ends(ev, id)
    ensures id in Handle(w, ev).runs
    ensures Handle(w, ev).runs[id]
            == w.runs[id].(status := if ev.RunCompleted? then Success else Failed, finishedAt := Some(ev.at))
  {}

  lemma EndedStays(w: World, evs: seq<Event>, id: Id)
    requires Inv(w) && AllFresh(w, evs) && id in w.runs && w.runs[id].status.Terminal()
    ensures id in HandleAll(w, evs).runs && HandleAll(w, evs).runs[id] == w.runs[id]
  {
    EventsOnlyAdvance(w, evs);
  }

  /** The first event that ends a running run decides, and nothing after it matters: completion means success,
      failure means failure, and without either the run stays as it is. */
  lemma {:induction false} FirstEndDecides(w: World, evs: seq<Event>, id: Id, k: nat)
    requires Inv(w) && AllFresh(w, evs) && id in w.runs && w.runs[id].status == Running && FirstEnd(evs, id, 0, k)
    ensures id in HandleAll(w, evs).runs
    ensures HandleAll(w, evs).runs[id]
            == if k == |evs| then w.runs[id]
               else w.runs[id].(status := if evs[k].RunCompleted? then Success else Failed,
                                finishedAt := Some(evs[k].at))
    decreases |evs|
  {
    if evs != [] {
      HandleKeepsInv(w, evs[0]);
      if k == 0 {
        EndingEvent(w, evs[0], id);
        EndedStays(Handle(w, evs[0]), evs[1..], id);
      } else {
        IgnoredEvent(w, evs[0], id);
        FirstEndDecides(Handle(w, evs[0]), evs[1..], id, k - 1);
      }
    }
  }

  /** The first event that starts a waiting run starts it; only from then on can an event end it. */
  lemma {:induction false} FirstStartDecides(w: World, evs: seq<Event>, id: Id, k: nat, m: nat)
    requires Inv(w) && AllFresh(w, evs) && id in w.runs
    requires w.runs[id].status == Queued || w.runs[id].status == Claimed
    requires FirstStart(evs, id, k) && (k < |evs| ==> FirstEnd(evs, id, k + 1, m))
    ensures id in HandleAll(w, evs).runs
    ensures var run := HandleAll(w, evs).runs[id];
            if k == |evs| then run == w.runs[id]
            else
              var started := w.runs[id].(status := RunStatus.Running, startedAt := Some(evs[k].at));
              if m == |evs| then run == started
              else run == started.(status := if evs[m].RunCompleted? then Success else Failed,
                                   finishedAt := Some(evs[m].at))
    decreases |evs|
  {
    if evs != [] {
      HandleKeepsInv(w, evs[0]);
      if k == 0 {
        FirstEndDecides(Handle(w, evs[0]), evs[1..], id, m - 1);
      } else {
        IgnoredEvent(w, evs[0], id);
        FirstStartDecides(Handle(w, evs[0]), evs[1..], id, k - 1, if k < |evs| then m - 1 else m);
      }
    }
  }

  // ---- chains of attempts -----------------------------------------------------------------------

  /** Consecutive attempts: each run after the first is the retry of the one before it. */
  predicate Chain(w: World, path: seq<Id>) {
    && path != [] && path[0] in w.runs
    && forall i :: 0 < i < |path| ==> path[i] in w.retryOf && w.retryOf[path[i]] == path[i - 1]
  }

  lemma {:induction false} ChainCounts(w: World, path: seq<Id>, k: nat)
    requires Inv(w) && Chain(w, path) && k < |path|
    ensures path[k] in w.runs
    ensures w.runs[path[k]].attempt == w.runs[path[0]].attempt + k
    ensures Snap(w.runs[path[k]]) == Snap(w.runs[path[0]]).(attempt := w.runs[path[k]].attempt,
                                                          scheduledFor := w.runs[path[k]].scheduledFor)
    decreases k
  {
    if k > 0 {
      ChainCounts(w, path, k - 1);
      assert RetryOk(w, path[k]);
    }
  }

  /** With an unchanged policy a chain of attempts has at most `maxAttempts + 1` runs, all of them with the
      job, script, actor, parameters and pool of the first. */
  lemma RetryChainIsBounded(w: World, evs: seq<Event>, path: seq<Id>, job: Job)
    requires Inv(w) && AllFresh(w, evs) && Chain(HandleAll(w, evs), path)
    requires var first := HandleAll(w, evs).runs[path[0]];
             first.attempt == 1 && JobOf(HandleAll(w, evs).jobs, first) == Some(job)
    ensures |path| <= job.retryPolicy.maxAttempts + 1
    ensures var e := HandleAll(w, evs);
            forall i :: 0 <= i < |path| ==>
              path[i] in e.runs && e.runs[path[i]].attempt == i + 1
              && Snap(e.runs[path[i]])
                 == Snap(e.runs[path[0]]).(attempt := i + 1, scheduledFor := e.runs[path[i]].scheduledFor)
  {
    var e := HandleAll(w, evs);
    EventsOnlyAdvance(w, evs);
    forall i | 0 <= i < |path|
      ensures path[i] in e.runs && e.runs[path[i]].attempt == i + 1
              && Snap(e.runs[path[i]])
                 == Snap(e.runs[path[0]]).(attempt := i + 1, scheduledFor := e.runs[path[i]].scheduledFor)
    {
      ChainCounts(e, path, i);
    }
    if |path| > 1 {
      var last := |path| - 1;
      assert RetryOk(e, path[last]);
      ChainCounts(e, path, last - 1);
    }
  }

  ghost predicate Retried(w: World, id: Id) {
    exists next :: next in w.retryOf && w.retryOf[next] == id
  }

  /** A failed attempt whose job is there and allows one more. */
  predicate OwesRetry(w: World, id: Id) {
    && id in w.runs && w.runs[id].status == Failed
    && JobOf(w.jobs, w.runs[id]).Some?
    && 1 <= w.runs[id].attempt <= JobOf(w.jobs, w.runs[id]).value.retryPolicy.maxAttempts
  }

  ghost predicate AllRetried(w: World) {
    forall id :: OwesRetry(w, id) ==> Retried(w, id)
  }

  lemma RetriedStays(w: World, ev: Event, id: Id)
    requires Inv(w) && Fresh(w, ev) && Retried(w, id)
    ensures Retried(Handle(w, ev), id)
  {
    var next :| next in w.retryOf && w.retryOf[next] == id;
    assert RetryOk(w, next);
    RetryShape(w, ev);
    assert next in Handle(w, ev).retryOf && Handle(w, ev).retryOf[next] == id;
  }

  lemma HandleRetriesFailures(w: World, ev: Event)
    requires Inv(w) && Fresh(w, ev) && AllRetried(w)
    ensures AllRetried(Handle(w, ev))
  {
    var w' := Handle(w, ev);
    forall id | OwesRetry(w', id) ensures Retried(w', id) {
      if ev.RunFailed? && ev.runId == id && id in w.runs && w.runs[id].status == Running {
        assert w'.retryOf == w.retryOf[ev.retryId := id];
        assert ev.retryId in w'.retryOf;
      } else {
        assert OwesRetry(w, id);
        RetriedStays(w, ev, id);
      }
    }
  }

  lemma {:induction false} EventsRetryFailures(w: World, evs: seq<Event>)
    requires Inv(w) && AllFresh(w, evs) && AllRetried(w)
    ensures Inv(HandleAll(w, evs)) && AllRetried(HandleAll(w, evs))
    decreases |evs|
  {
    if evs != [] {
      HandleKeepsInv(w, evs[0]);
      HandleRetriesFailures(w, evs[0]);
      EventsRetryFailures(Handle(w, evs[0]), evs[1..]);
    }
  }

  /** After every event stream: when the last run of a chain of attempts has failed, it has been tried again if and
      only if the chain has no more than `maxAttempts` runs. So a job whose every attempt fails gets exactly
      `maxAttempts + 1`. */
  lemma FailedRunIsRetriedIff(w: World, evs: seq<Event>, path: seq<Id>, job: Job)
    requires Inv(w) && AllFresh(w, evs) && AllRetried(w) && Chain(HandleAll(w, evs), path)
    requires var e := HandleAll(w, evs);
             && e.runs[path[0]].attempt == 1 && JobOf(e.jobs, e.runs[path[0]]) == Some(job)
             && path[|path| - 1] in e.runs && e.runs[path[|path| - 1]].status == Failed
    ensures Retried(HandleAll(w, evs), path[|path| - 1]) <==> |path| <= job.retryPolicy.maxAttempts
  {
    EventsRetryFailures(w, evs);
    LastAttempt(HandleAll(w, evs), path);
    RetriedIff(HandleAll(w, evs), path[|path| - 1], job);
  }

  lemma LastAttempt(w: World, path: seq<Id>)
    requires Inv(w) && Chain(w, path) && w.runs[path[0]].attempt == 1
    ensures path[|path| - 1] in w.runs && w.runs[path[|path| - 1]].attempt == |path|
    ensures JobOf(w.jobs, w.runs[path[|path| - 1]]) == JobOf(w.jobs, w.runs[path[0]])
  {
    ChainCounts(w, path, |path| - 1);
    assert Snap(w.runs[path[|path| - 1]]).jobId == Snap(w.runs[path[0]]).jobId;
  }

  lemma RetriedIff(w: World, id: Id, job: Job)
    requires Inv(w) && AllRetried(w) && id in w.runs && w.runs[id].status == Failed
    requires JobOf(w.jobs, w.runs[id]) == Some(job)
    ensures Retried(w, id) <==> 1 <= w.runs[id].attempt <= job.retryPolicy.maxAttempts
  {
    if next :| next in w.retryOf && w.retryOf[next] == id {
      assert RetryOk(w, next);
    }
    assert OwesRetry(w, id) ==> Retried(w, id);
  }
}

/** The handler as the runtime runs it: read the row, check the guard, write it back. */
module EventHandler {
  import opened Models
  import opened JobRules
  import opened RunRules
  import opened EventRules

  class Handler {
    var runs: map<Id, Run>
    var jobs: map<Id, Job>
    ghost var retryOf: map<Id, Id>

    ghost function World(): World
      reads this
    {
      EventRules.World.World(runs, jobs, retryOf)
    }

    constructor (jobs: map<Id, Job>)
      ensures this.jobs == jobs && runs == map[] && retryOf == map[]
    {
      this.jobs := jobs;
      runs := map[];
      retryOf := map[];
    }

    method FinalizeFailedRun(run: Run, job: Job, status: RunStatus, at: Time, retryId: Id, retryAt: Time)
      modifies this
      ensures World() == FinalizeFailed(old(World()), run, job, status, at, retryId, retryAt)
    {
      var failed := Finished(run, if status == Timeout then Timeout else Failed, at);
      if failed.runId !in runs {
        return;
      }
      runs := runs[failed.runId := failed];
      if !ShouldRetry(job.retryPolicy, failed.attempt) {
        return;
      }
      var next := NextAttempt(failed, retryId, retryAt);
      runs := runs[next.runId := next];
      retryOf := retryOf[retryId := run.runId];
    }

    method HandleExecutorEvent(ev: Event)
      requires Keyed(World().runs)
      modifies this
      ensures World() == Handle(old(World()), ev)
    {
      if ev.runId !in runs { return; }
      var run := runs[ev.runId];
      match ev {
        case RunStarted(id, at) =>
          if run.status != Queued && run.status != Claimed { return; }
          runs := runs[id := Started(run, at)];
        case RunCompleted(id, at) =>
          if run.status != Running { return; }
          runs := runs[id := Finished(run, Success, at)];
        case RunFailed(id, at, retryId, retryAt) =>
          if run.status != Running { return; }
          if run.jobId.Some? && run.jobId.value in jobs {
            FinalizeFailedRun(run, jobs[run.jobId.value], Failed, at, retryId, retryAt);
          } else {
            runs := runs[id := Finished(run, Failed, at)];
          }
      }
    }
  }
}

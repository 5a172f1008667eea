/** Claiming through the ready queue: SQL decides, the sorted sets only order. */
module CompositeRules {
  import opened Models
  import opened Collections
  import opened RunRules
  import opened ReadyQueue

  const MAX_ATTEMPTS: nat := 64

  /** Where a popped run that could not be claimed must be put back, if anywhere. */
  function RequeueTarget(run: Run, pool: string, now: Time): Option<string> {
    if run.status != Queued then None
    else if run.scheduledFor > now then Some(RunPoolKey(run.poolId))
    else if RunPoolKey(run.poolId) != pool then Some(RunPoolKey(run.poolId))
    else if LeaseLive(run, now) then Some(pool)
    else None
  }

  /** The put-back decision is the exact complement of the claim guard on queued runs, and it always names
      the run's own queue. */
  lemma PutBackComplementsClaim(run: Run, pool: string, now: Time)
    ensures RequeueTarget(run, pool, now).Some? <==> run.status == Queued && !Claimable(run, pool, now)
    ensures RequeueTarget(run, pool, now).Some? ==> RequeueTarget(run, pool, now).value == RunPoolKey(run.poolId)
  {
    PoolTestIsQueueKey(run.poolId, pool);
  }

  function PutBack(rows: Rows, scores: Scores, id: Id, pool: string, now: Time): Scores {
    if id in rows && RequeueTarget(rows[id], pool, now).Some? then
      Added(scores, RequeueTarget(rows[id], pool, now).value, id, rows[id].scheduledFor)
    else
      scores
  }

  /** A queued run sits in its own pool's set under its due millisecond. */
  predicate Waiting(rows: Rows, scores: Scores, id: Id) {
    && id in rows && rows[id].status == Queued
    && Entry(RunPoolKey(rows[id].poolId), id) in scores
    && scores[Entry(RunPoolKey(rows[id].poolId), id)] == Millis(rows[id].scheduledFor)
  }

  predicate InSync(rows: Rows, scores: Scores) {
    forall id :: id in rows && rows[id].status == Queued ==> Waiting(rows, scores, id)
  }

  predicate TakenBy(before: Rows, after: Rows, id: Id, pool: string, worker: Id, now: Time, ttlSecs: int) {
    && id in before && id in after
    && Claimable(before[id], pool, now)
    && after[id] == ClaimedRow(before[id], worker, now, ttlSecs)
  }

  /** A claim call neither loses nor invents anything: every waiting run is now held by the caller under
      the new lease or is still waiting, never both, and no other row changed. */
  predicate Conserved(rows: Rows, scores: Scores, rows': Rows, scores': Scores,
                      pool: string, worker: Id, now: Time, ttlSecs: int)
  {
    && rows'.Keys == rows.Keys
    && (forall id :: id in rows ==> rows'[id] == rows[id] || TakenBy(rows, rows', id, pool, worker, now, ttlSecs))
    && (forall id :: id in rows && Waiting(rows, scores, id) ==>
          (Waiting(rows', scores', id) <==> !TakenBy(rows, rows', id, pool, worker, now, ttlSecs)))
  }

  lemma ConservedCompose(rows: Rows, scores: Scores, scores': Scores, rows'': Rows, scores'': Scores,
                         pool: string, worker: Id, now: Time, ttlSecs: int)
    requires Conserved(rows, scores, rows, scores', pool, worker, now, ttlSecs)
    requires Conserved(rows, scores', rows'', scores'', pool, worker, now, ttlSecs)
    ensures Conserved(rows, scores, rows'', scores'', pool, worker, now, ttlSecs)
  {
    forall id | id in rows && Waiting(rows, scores, id)
      ensures Waiting(rows'', scores'', id) <==> !TakenBy(rows, rows'', id, pool, worker, now, ttlSecs)
    {
      assert !TakenBy(rows, rows, id, pool, worker, now, ttlSecs);
    }
  }

  /** A run is in sync before a claim call, so it is after it. */
  lemma ConservedKeepsSync(rows: Rows, scores: Scores, rows': Rows, scores': Scores,
                           pool: string, worker: Id, now: Time, ttlSecs: int)
    requires InSync(rows, scores)
    requires Conserved(rows, scores, rows', scores', pool, worker, now, ttlSecs)
    ensures InSync(rows', scores')
  {
    forall id | id in rows' && rows'[id].status == Queued ensures Waiting(rows', scores', id) {
      assert Waiting(rows, scores, id);
    }
  }

  // ---- one batch --------------------------------------------------------------------------------

  function SetOf(ids: seq<Id>): set<Id> {
    set id | id in ids
  }

  lemma SetOfTake(ids: seq<Id>, i: nat)
    requires i < |ids|
    ensures SetOf(ids[..i + 1]) == SetOf(ids[..i]) + {ids[i]}
  {
    assert ids[..i + 1] == ids[..i] + [ids[i]];
  }

  function ClaimableIds(rows: Rows, ids: set<Id>, pool: string, now: Time): set<Id> {
    set id | id in ids && id in rows && Claimable(rows[id], pool, now)
  }

  /** Claiming several ids: each claimable one is taken. */
  function ClaimSet(rows: Rows, ids: set<Id>, pool: string, worker: Id, now: Time, ttlSecs: int): Rows {
    map id | id in rows ::
      if id in ids && Claimable(rows[id], pool, now) then ClaimedRow(rows[id], worker, now, ttlSecs) else rows[id]
  }

  function Targets(rows: Rows, ids: set<Id>, pool: string, now: Time): set<Entry> {
    set id | id in ids && id in rows && RequeueTarget(rows[id], pool, now).Some? ::
      Entry(RequeueTarget(rows[id], pool, now).value, id)
  }

  function PutBackSet(rows: Rows, scores: Scores, ids: set<Id>, pool: string, now: Time): Scores {
    var targets := Targets(rows, ids, pool, now);
    map e | e in scores.Keys + targets ::
      if e in targets && e.runId in rows then Millis(rows[e.runId].scheduledFor) else scores[e]
  }

  /** Pop, claim, put back: one turn of the claim loop conserves every waiting run. */
  lemma TurnConserves(rows: Rows, scores: Scores, ids: seq<Id>, pool: string, worker: Id, now: Time, ttlSecs: int,
                      rows': Rows, scores': Scores, unclaimed: set<Id>)
    requires rows' == ClaimSet(rows, SetOf(ids), pool, worker, now, ttlSecs)
    requires forall id :: id in unclaimed <==> id in ids && !(id in rows && Claimable(rows[id], pool, now))
    requires scores' == PutBackSet(rows', Without(scores, pool, ids), unclaimed, pool, now)
    ensures Conserved(rows, scores, rows', scores', pool, worker, now, ttlSecs)
  {
    forall id | id in rows && Waiting(rows, scores, id)
      ensures Waiting(rows', scores', id) <==> !TakenBy(rows, rows', id, pool, worker, now, ttlSecs)
    {
      PutBackComplementsClaim(rows[id], pool, now);
      var e := Entry(RunPoolKey(rows[id].poolId), id);
      if id in ids && !Claimable(rows[id], pool, now) {
        assert id in unclaimed && rows'[id] == rows[id];
        assert e in Targets(rows', unclaimed, pool, now);
      }
    }
  }

  // ---- the single-claim loop --------------------------------------------------------------------

  datatype FastResult = Won(run: Run) | Drained | GaveUp

  ghost function First(scores: Scores, pool: string, max: int): (id: Option<Id>)
    ensures id.None? <==> DueIds(scores, pool, max) == {}
    ensures id.Some? ==> IsFirst(scores, pool, max, id.value)
  {
    if DueIds(scores, pool, max) == {} then None
    else
      FirstExists(scores, pool, max, DueIds(scores, pool, max));
      var id :| IsFirst(scores, pool, max, id);
      Some(id)
  }

  ghost predicate FirstAmong(scores: Scores, pool: string, max: int, among: set<Id>, id: Id) {
    && id in among && Due(scores, pool, max, id)
    && forall o :: o in among && Due(scores, pool, max, o) && o != id ==> Before(scores, pool, id, o)
  }

  lemma FirstExists(scores: Scores, pool: string, max: int, among: set<Id>)
    requires among != {}
    requires forall id :: id in among ==> Due(scores, pool, max, id)
    ensures exists id :: FirstAmong(scores, pool, max, among, id)
    ensures among == DueIds(scores, pool, max) ==> exists id :: IsFirst(scores, pool, max, id)
  {
    var x :| x in among;
    var best := x;
    if among != {x} {
      FirstExists(scores, pool, max, among - {x});
      var y :| FirstAmong(scores, pool, max, among - {x}, y);
      LexTotal(x, y);
      if Before(scores, pool, x, y) {
        StepsDown(scores, pool, max, y, x, among - {x});
      } else {
        best := y;
      }
    }
    assert FirstAmong(scores, pool, max, among, best);
    if among == DueIds(scores, pool, max) {
      forall o | Due(scores, pool, max, o) ensures o in among { DueIdsAreDue(scores, pool, max, o); }
      assert IsFirst(scores, pool, max, best);
    }
  }

  /** The loop with a batch of one and nobody else in flight. The row table changes only on a win. */
  ghost function FastClaim(rows: Rows, scores: Scores, pool: string, worker: Id, now: Time, ttlSecs: int,
                           attempts: nat): (Rows, Scores, FastResult)
    decreases attempts
  {
    if attempts == 0 then (rows, scores, GaveUp) else
    match First(scores, pool, Millis(now))
    case None => (rows, scores, Drained)
    case Some(id) =>
      var popped := Without(scores, pool, [id]);
      var (rows', claimed) := ClaimById(rows, id, pool, worker, now, ttlSecs);
      if claimed.Some? then (rows', popped, Won(claimed.value))
      else FastClaim(rows, PutBack(rows, popped, id, pool, now), pool, worker, now, ttlSecs, attempts - 1)
  }

  lemma PutBackKeepsSync(rows: Rows, scores: Scores, id: Id, pool: string, now: Time)
    requires InSync(rows, scores)
    requires !(id in rows && Claimable(rows[id], pool, now))
    ensures InSync(rows, PutBack(rows, Without(scores, pool, [id]), id, pool, now))
  {
    var scores' := PutBack(rows, Without(scores, pool, [id]), id, pool, now);
    forall o | o in rows && rows[o].status == Queued ensures Waiting(rows, scores', o) {
      assert Waiting(rows, scores, o);
      PutBackComplementsClaim(rows[o], pool, now);
    }
  }

  predicate NothingClaimable(rows: Rows, pool: string, now: Time) {
    forall id :: id in rows ==> !Claimable(rows[id], pool, now)
  }

  /** A claimable run waits in the pool's set with a score that has come due. */
  lemma ClaimableIsDue(rows: Rows, scores: Scores, pool: string, now: Time, id: Id)
    requires InSync(rows, scores) && id in rows && Claimable(rows[id], pool, now)
    ensures Due(scores, pool, Millis(now), id)
    ensures scores[Entry(pool, id)] == Millis(rows[id].scheduledFor)
  {
    PoolTestIsQueueKey(rows[id].poolId, pool);
    assert Waiting(rows, scores, id);
    MillisMonotone(rows[id].scheduledFor, now);
  }

  /** The fast claim refines the simple one: what it wins is a claimable run of the earliest due
      millisecond, taken by the same row update, and a drained queue means SQL has nothing to claim. */
  lemma {:induction false} FastClaimRefinesSimple(rows: Rows, scores: Scores, pool: string, worker: Id, now: Time,
                                                  ttlSecs: int, attempts: nat)
    requires Keyed(rows) && InSync(rows, scores)
    ensures var (rows', scores', result) := FastClaim(rows, scores, pool, worker, now, ttlSecs, attempts);
            && InSync(rows', scores')
            && (result.Drained? ==> rows' == rows && NothingClaimable(rows, pool, now))
            && (result.GaveUp? ==> rows' == rows)
            && (result.Won? ==>
                  && result.run.runId in rows && Claimable(rows[result.run.runId], pool, now)
                  && (rows', Some(result.run)) == ClaimById(rows, result.run.runId, pool, worker, now, ttlSecs)
                  && forall o :: o in rows && Claimable(rows[o], pool, now) ==>
                       Millis(result.run.scheduledFor) <= Millis(rows[o].scheduledFor))
    decreases attempts
  {
    forall o | o in rows && Claimable(rows[o], pool, now) ensures o in DueIds(scores, pool, Millis(now)) {
      ClaimableIsDue(rows, scores, pool, now, o);
      DueIdsAreDue(scores, pool, Millis(now), o);
    }
    var first := First(scores, pool, Millis(now));
    if attempts > 0 && first.Some? {
      var id := first.value;
      if id in rows && Claimable(rows[id], pool, now) {
        forall o | o in rows && Claimable(rows[o], pool, now)
          ensures Millis(rows[id].scheduledFor) <= Millis(rows[o].scheduledFor)
        {
          ClaimableIsDue(rows, scores, pool, now, o);
          ClaimableIsDue(rows, scores, pool, now, id);
          assert o == id || Before(scores, pool, id, o);
        }
        var rows' := ClaimById(rows, id, pool, worker, now, ttlSecs).0;
        forall o | o in rows' && rows'[o].status == Queued ensures Waiting(rows', Without(scores, pool, [id]), o) {
          assert Waiting(rows, scores, o);
        }
      } else {
        PutBackKeepsSync(rows, scores, id, pool, now);
        FastClaimRefinesSimple(rows, PutBack(rows, Without(scores, pool, [id]), id, pool, now),
                               pool, worker, now, ttlSecs, attempts - 1);
      }
    }
  }

  // ---- when the loop wins -----------------------------------------------------------------------

  /** A due member that the loop pops and puts straight back into the same set. */
  predicate Blocks(rows: Rows, pool: string, now: Time, id: Id) {
    id in rows && RequeueTarget(rows[id], pool, now) == Some(pool)
  }

  function DueBefore(scores: Scores, pool: string, max: int, id: Id): set<Id>
    requires Entry(pool, id) in scores
  {
    set o | o in DueIds(scores, pool, max) && Entry(pool, o) in scores && Before(scores, pool, o, id)
  }

  /** A claimable run with fewer than `attempts` due members before it, none of which blocks. */
  predicate Reachable(rows: Rows, scores: Scores, pool: string, now: Time, attempts: nat, id: Id) {
    && id in rows && Claimable(rows[id], pool, now)
    && Entry(pool, id) in scores
    && |DueBefore(scores, pool, Millis(now), id)| < attempts
    && forall o :: o in DueBefore(scores, pool, Millis(now), id) ==> !Blocks(rows, pool, now, o)
  }

  /** Popping a member that is not put back shortens the line in front of every later one by that member. */
  lemma DroppedFromLine(rows: Rows, scores: Scores, pool: string, now: Time, first: Id, id: Id)
    requires First(scores, pool, Millis(now)) == Some(first) && first != id
    requires Entry(pool, id) in scores && Due(scores, pool, Millis(now), id)
    requires !Blocks(rows, pool, now, first)
    ensures var scores' := PutBack(rows, Without(scores, pool, [first]), first, pool, now);
            && Entry(pool, id) in scores'
            && first in DueBefore(scores, pool, Millis(now), id)
            && DueBefore(scores', pool, Millis(now), id) == DueBefore(scores, pool, Millis(now), id) - {first}
  {
    var max := Millis(now);
    var scores' := PutBack(rows, Without(scores, pool, [first]), first, pool, now);
    DueIdsAreDue(scores, pool, max, first);
    assert Before(scores, pool, first, id);
    forall o
      ensures o in DueBefore(scores', pool, max, id) <==> o in DueBefore(scores, pool, max, id) - {first}
    {
      DueIdsAreDue(scores, pool, max, o);
      DueIdsAreDue(scores', pool, max, o);
    }
  }

  lemma NothingBeforeFirst(scores: Scores, pool: string, max: int, id: Id)
    requires IsFirst(scores, pool, max, id)
    ensures DueBefore(scores, pool, max, id) == {}
  {
    forall o | o in DueBefore(scores, pool, max, id) ensures false {
      DueIdsAreDue(scores, pool, max, o);
      LexTotal(o, id);
    }
  }

  lemma BlockedStaysPut(rows: Rows, scores: Scores, pool: string, now: Time, first: Id)
    requires InSync(rows, scores) && Entry(pool, first) in scores && Blocks(rows, pool, now, first)
    ensures PutBack(rows, Without(scores, pool, [first]), first, pool, now) == scores
  {
    PutBackComplementsClaim(rows[first], pool, now);
    assert Waiting(rows, scores, first);
  }

  /** Exactly when the loop returns a run: some claimable run stands early enough in the pool's line with no
      blocking member in front of it. */
  lemma {:induction false} FastClaimWinsIff(rows: Rows, scores: Scores, pool: string, worker: Id, now: Time,
                                            ttlSecs: int, attempts: nat)
    requires InSync(rows, scores)
    ensures FastClaim(rows, scores, pool, worker, now, ttlSecs, attempts).2.Won?
            <==> SomeReachable(rows, scores, pool, now, attempts)
    decreases attempts
  {
    var max := Millis(now);
    forall id | id in rows && Claimable(rows[id], pool, now) ensures id in DueIds(scores, pool, max) {
      ClaimableIsDue(rows, scores, pool, now, id);
      DueIdsAreDue(scores, pool, max, id);
    }
    var first := First(scores, pool, max);
    if attempts > 0 && first.Some? {
      var f := first.value;
      if f in rows && Claimable(rows[f], pool, now) {
        NothingBeforeFirst(scores, pool, max, f);
        assert Reachable(rows, scores, pool, now, attempts, f);
      } else {
        var scores' := PutBack(rows, Without(scores, pool, [f]), f, pool, now);
        LosingTurnKeepsReach(rows, scores, pool, now, attempts, f, f);
        FastClaimWinsIff(rows, scores', pool, worker, now, ttlSecs, attempts - 1);
        SomeStaysInReach(rows, scores, pool, now, attempts, f);
      }
    }
  }

  ghost predicate SomeReachable(rows: Rows, scores: Scores, pool: string, now: Time, attempts: nat) {
    exists id :: Reachable(rows, scores, pool, now, attempts, id)
  }

  lemma SomeStaysInReach(rows: Rows, scores: Scores, pool: string, now: Time, attempts: nat, f: Id)
    requires InSync(rows, scores) && attempts > 0
    requires First(scores, pool, Millis(now)) == Some(f) && !(f in rows && Claimable(rows[f], pool, now))
    ensures SomeReachable(rows, PutBack(rows, Without(scores, pool, [f]), f, pool, now), pool, now, attempts - 1)
            <==> SomeReachable(rows, scores, pool, now, attempts)
  {
    var scores' := PutBack(rows, Without(scores, pool, [f]), f, pool, now);
    if SomeReachable(rows, scores, pool, now, attempts) {
      var id :| Reachable(rows, scores, pool, now, attempts, id);
      LosingTurnKeepsReach(rows, scores, pool, now, attempts, f, id);
    }
    if SomeReachable(rows, scores', pool, now, attempts - 1) {
      var before: nat := attempts - 1;
      var id :| Reachable(rows, scores', pool, now, before, id);
      LosingTurnKeepsReach(rows, scores, pool, now, attempts, f, id);
    }
  }

  /** A turn that pops an unclaimable member and puts it where it belongs leaves the same runs within reach, with one
      attempt fewer. */
  lemma LosingTurnKeepsReach(rows: Rows, scores: Scores, pool: string, now: Time, attempts: nat, f: Id, id: Id)
    requires InSync(rows, scores) && attempts > 0
    requires First(scores, pool, Millis(now)) == Some(f) && !(f in rows && Claimable(rows[f], pool, now))
    ensures var scores' := PutBack(rows, Without(scores, pool, [f]), f, pool, now);
            InSync(rows, scores')
            && (Reachable(rows, scores', pool, now, attempts - 1, id)
                <==> Reachable(rows, scores, pool, now, attempts, id))
  {
    PutBackKeepsSync(rows, scores, f, pool, now);
    if id in rows && Claimable(rows[id], pool, now) {
      ClaimableIsDue(rows, scores, pool, now, id);
      if Blocks(rows, pool, now, f) {
        BlockedStaysPut(rows, scores, pool, now, f);
        DueIdsAreDue(scores, pool, Millis(now), f);
        assert f in DueBefore(scores, pool, Millis(now), id);
      } else {
        DroppedFromLine(rows, scores, pool, now, f, id);
      }
    }
  }

  /** In a queue with no blocking member and fewer than `attempts` due ones, the fast claim finds a run
      exactly when the simple one would. */
  lemma FastClaimCompleteWhenUnblocked(rows: Rows, scores: Scores, pool: string, worker: Id, now: Time, ttlSecs: int)
    requires InSync(rows, scores)
    requires |DueIds(scores, pool, Millis(now))| <= MAX_ATTEMPTS
    requires forall id :: id in DueIds(scores, pool, Millis(now)) ==> !Blocks(rows, pool, now, id)
    ensures FastClaim(rows, scores, pool, worker, now, ttlSecs, MAX_ATTEMPTS).2.Won?
            <==> !NothingClaimable(rows, pool, now)
  {
    FastClaimWinsIff(rows, scores, pool, worker, now, ttlSecs, MAX_ATTEMPTS);
    forall id | id in rows && Claimable(rows[id], pool, now)
      ensures Reachable(rows, scores, pool, now, MAX_ATTEMPTS, id)
    {
      ClaimableIsDue(rows, scores, pool, now, id);
      LexTotal(id, id);
      DueIdsAreDue(scores, pool, Millis(now), id);
      StrictSubsetIsSmaller(DueBefore(scores, pool, Millis(now), id), DueIds(scores, pool, Millis(now)), id);
    }
  }

  /** The condition is needed: a run due later in the current millisecond, first in line, hides a run that
      is already claimable, however often the loop tries. */
  lemma SubMillisecondRunStarvesTheQueue(attempts: nat) returns (rows: Rows, scores: Scores, now: Time)
    ensures Keyed(rows) && InSync(rows, scores)
    ensures !NothingClaimable(rows, GENERAL, now)
    ensures FastClaim(rows, scores, GENERAL, "w", now, 60, attempts).2 == GaveUp
  {
    var soon := NewRun("a", "job", "script", 1_900_000);
    var due := NewRun("b", "job", "script", 1_100_000);
    rows := map["a" := soon, "b" := due];
    scores := map[Entry(GENERAL, "a") := 1, Entry(GENERAL, "b") := 1];
    now := 1_500_000;
    assert Millis(soon.scheduledFor) == 1 && Millis(due.scheduledFor) == 1 && Millis(now) == 1;
    assert Waiting(rows, scores, "a") && Waiting(rows, scores, "b");
    assert Claimable(rows["b"], GENERAL, now);
    assert IsFirst(scores, GENERAL, 1, "a") by {
      assert LexBelow("a", "b");
    }
    FirstIsUnique(scores, GENERAL, 1, "a", First(scores, GENERAL, 1).value) by {
      DueIdsAreDue(scores, GENERAL, 1, "a");
    }
    BlockedFirstStarves(rows, scores, GENERAL, "w", now, 60, attempts, "a");
  }

  lemma {:induction false} BlockedFirstStarves(rows: Rows, scores: Scores, pool: string, worker: Id, now: Time,
                                               ttlSecs: int, attempts: nat, first: Id)
    requires InSync(rows, scores) && First(scores, pool, Millis(now)) == Some(first)
    requires Blocks(rows, pool, now, first)
    ensures FastClaim(rows, scores, pool, worker, now, ttlSecs, attempts) == (rows, scores, GaveUp)
    decreases attempts
  {
    if attempts > 0 {
      PutBackComplementsClaim(rows[first], pool, now);
      BlockedStaysPut(rows, scores, pool, now, first);
      BlockedFirstStarves(rows, scores, pool, worker, now, ttlSecs, attempts - 1, first);
    }
  }
}

/** SQL rows plus ready queue behind one claim operation. */
module CompositeStore {
  import opened Models
  import opened Collections
  import opened RunRules
  import opened RunStore
  import opened ReadyQueue
  import opened CompositeRules
  import opened BatchRules

  function RunIds(runs: seq<Run>): set<Id> {
    set r | r in runs :: r.runId
  }

  /** The state and result a single-claim loop of `attempts` turns ends with. */
  ghost predicate IsFastClaim(rows: Rows, scores: Scores, pool: string, worker: Id, now: Time, ttlSecs: int,
                              attempts: nat, rows': Rows, scores': Scores, claimed: Option<Run>)
  {
    var (r, s, result) := FastClaim(rows, scores, pool, worker, now, ttlSecs, attempts);
    rows' == r && scores' == s && claimed == if result.Won? then Some(result.run) else None
  }

  class PostgresRedisStore {
    const sql: RunTable
    const redis: RedisQueue

    constructor (sql: RunTable, redis: RedisQueue)
      ensures this.sql == sql && this.redis == redis
    {
      this.sql := sql;
      this.redis := redis;
    }

    /** Row first, queue second. */
    method CreateRun(run: Run)
      modifies sql, redis
      ensures sql.runs == old(sql.runs)[run.runId := run]
      ensures run.status == Queued ==>
                redis.scores == Added(old(redis.scores), RunPoolKey(run.poolId), run.runId, run.scheduledFor)
      ensures run.status != Queued ==> redis.scores == old(redis.scores)
      ensures InSync(old(sql.runs), old(redis.scores)) ==> InSync(sql.runs, redis.scores)
    {
      sql.CreateRun(run);
      if run.status == Queued {
        redis.EnqueueRun(RunPoolKey(run.poolId), run.runId, run.scheduledFor);
      }
      assert InSync(old(sql.runs), old(redis.scores)) ==> InSync(sql.runs, redis.scores) by {
        if InSync(old(sql.runs), old(redis.scores)) {
          forall id | id in sql.runs && sql.runs[id].status == Queued
            ensures Waiting(sql.runs, redis.scores, id)
          {
            assert id != run.runId ==> Waiting(old(sql.runs), old(redis.scores), id);
          }
        }
      }
    }

    method RequeueMismatch(runId: Id, pool: string, now: Time)
      requires Keyed(sql.runs)
      modifies redis
      ensures redis.scores == PutBack(sql.runs, old(redis.scores), runId, pool, now)
    {
      var found := sql.GetRun(runId);
      if found.None? { return; }
      var run := found.value;
      if run.status != Queued { return; }
      if run.scheduledFor > now {
        redis.EnqueueRun(RunPoolKey(run.poolId), run.runId, run.scheduledFor);
        return;
      }
      var actual := RunPoolKey(run.poolId);
      if actual != pool {
        redis.EnqueueRun(actual, run.runId, run.scheduledFor);
      } else if LeaseLive(run, now) {
        redis.EnqueueRun(pool, run.runId, run.scheduledFor);
      }
    }

    method ClaimOne(runId: Id, pool: string, worker: Id, now: Time, ttlSecs: int) returns (claimed: Option<Run>)
      requires Keyed(sql.runs)
      modifies sql, redis
      ensures (sql.runs, claimed) == ClaimById(old(sql.runs), runId, pool, worker, now, ttlSecs)
      ensures redis.scores == if claimed.Some? then old(redis.scores)
                              else PutBack(sql.runs, old(redis.scores), runId, pool, now)
    {
      claimed := sql.ClaimRunById(runId, pool, worker, now, ttlSecs);
      if claimed.None? {
        RequeueMismatch(runId, pool, now);
      }
    }

    /** One id after another; the outcome is that of the single statement over all of them. */
    method ClaimRunsByIds(ids: seq<Id>, pool: string, worker: Id, now: Time, ttlSecs: int) returns (claimed: seq<Run>)
      requires Keyed(sql.runs)
      modifies sql
      ensures Keyed(sql.runs)
      ensures sql.runs == ClaimSet(old(sql.runs), SetOf(ids), pool, worker, now, ttlSecs)
      ensures RunIds(claimed) == ClaimableIds(old(sql.runs), SetOf(ids), pool, now)
      ensures forall r :: r in claimed ==> r.runId in sql.runs && r == sql.runs[r.runId]
    {
      claimed := [];
      ghost var rows := sql.runs;
      assert rows == ClaimSet(rows, {}, pool, worker, now, ttlSecs);
      for i := 0 to |ids|
        invariant sql.runs == ClaimSet(rows, SetOf(ids[..i]), pool, worker, now, ttlSecs)
        invariant RunIds(claimed) == ClaimableIds(rows, SetOf(ids[..i]), pool, now)
        invariant forall r :: r in claimed ==> r.runId in sql.runs && r == sql.runs[r.runId]
      {
        SetOfTake(ids, i);
        ClaimSetOneMore(rows, SetOf(ids[..i]), ids[i], pool, worker, now, ttlSecs);
        var run := sql.ClaimRunById(ids[i], pool, worker, now, ttlSecs);
        if run.Some? {
          RunIdsAppend(claimed, run.value);
          claimed := claimed + [run.value];
        }
      }
      assert ids[..|ids|] == ids;
    }

    method ReconcileUnclaimed(ids: seq<Id>, claimed: seq<Run>, pool: string, now: Time)
      requires Keyed(sql.runs)
      modifies redis
      ensures redis.scores == PutBackSet(sql.runs, old(redis.scores), Unclaimed(ids, RunIds(claimed)), pool, now)
    {
      var claimedIds := RunIds(claimed);
      NothingPutBack(sql.runs, redis.scores, pool, now);
      for i := 0 to |ids|
        invariant redis.scores == PutBackSet(sql.runs, old(redis.scores), Unclaimed(ids[..i], claimedIds), pool, now)
      {
        UnclaimedOneMore(sql.runs, old(redis.scores), ids, i, claimedIds, pool, now);
        if ids[i] !in claimedIds {
          RequeueMismatch(ids[i], pool, now);
        }
      }
      assert ids[..|ids|] == ids;
    }

    /** Claims through the queue. With a batch of one this is exactly the loop whose wins are characterised
        above; with any batch no waiting run is lost, duplicated or changed by anything but the claim. */
    method ClaimNextQueued(pool: string, worker: Id, now: Time, ttlSecs: int, batch: nat) returns (claimed: Option<Run>)
      requires Keyed(sql.runs)
      modifies sql, redis
      ensures Conserved(old(sql.runs), old(redis.scores), sql.runs, redis.scores, pool, worker, now, ttlSecs)
      ensures claimed.None? ==> sql.runs == old(sql.runs)
      ensures claimed.Some? ==>
                && TakenBy(old(sql.runs), sql.runs, claimed.value.runId, pool, worker, now, ttlSecs)
                && claimed.value == sql.runs[claimed.value.runId]
      ensures batch > 1 ==>
                (claimed.Some? <==> BatchWins(old(sql.runs), old(redis.scores), pool, now, batch, MAX_ATTEMPTS))
      ensures batch <= 1 ==>
                IsFastClaim(old(sql.runs), old(redis.scores), pool, worker, now, ttlSecs, MAX_ATTEMPTS,
                            sql.runs, redis.scores, claimed)
    {
      if batch <= 1 {
        claimed := ClaimSingly(pool, worker, now, ttlSecs, MAX_ATTEMPTS);
      } else {
        claimed := ClaimInBatches(pool, worker, now, ttlSecs, batch, MAX_ATTEMPTS);
      }
    }

    /** One turn: pop a batch, claim what can be claimed, put the rest back. */
    method BatchTurn(pool: string, worker: Id, now: Time, ttlSecs: int, batch: nat)
      returns (drained: bool, won: seq<Run>)
      requires Keyed(sql.runs)
      modifies sql, redis
      ensures drained <==> Front(old(redis.scores), pool, Millis(now), batch) == []
      ensures drained ==> won == [] && sql.runs == old(sql.runs) && redis.scores == old(redis.scores)
      ensures !drained ==>
                IsBatchTurn(old(sql.runs), old(redis.scores), sql.runs, redis.scores,
                            Front(old(redis.scores), pool, Millis(now), batch), won, pool, worker, now, ttlSecs)
    {
      ghost var scores := redis.scores;
      var ids := redis.ClaimNextRunIds(pool, batch, now);
      FrontIsPopped(scores, pool, Millis(now), batch, ids);
      drained, won := ids == [], [];
      if drained {
        assert redis.scores == scores;
        return;
      }
      won := ClaimRunsByIds(ids, pool, worker, now, ttlSecs);
      ReconcileUnclaimed(ids, won, pool, now);
    }

    /** A turn of a loop with `left` turns to go: it wins now, or as often as what is left of the loop. */
    method LoopTurn(pool: string, worker: Id, now: Time, ttlSecs: int, batch: nat, ghost left: nat)
      returns (drained: bool, won: Option<Run>)
      requires Keyed(sql.runs) && left > 0
      modifies sql, redis
      ensures Conserved(old(sql.runs), old(redis.scores), sql.runs, redis.scores, pool, worker, now, ttlSecs)
      ensures won.None? ==> sql.runs == old(sql.runs)
      ensures won.Some? ==>
                TakenBy(old(sql.runs), sql.runs, won.value.runId, pool, worker, now, ttlSecs)
                && won.value == sql.runs[won.value.runId]
      ensures BatchWins(old(sql.runs), old(redis.scores), pool, now, batch, left)
              <==> won.Some? || (!drained && BatchWins(sql.runs, redis.scores, pool, now, batch, left - 1))
    {
      ghost var rows, scores := sql.runs, redis.scores;
      var batchWon;
      drained, batchWon := BatchTurn(pool, worker, now, ttlSecs, batch);
      won := if batchWon == [] then None else Some(batchWon[0]);
      if drained {
        DrainedConserves(rows, scores, pool, worker, now, ttlSecs);
      } else {
        ghost var ids := Front(scores, pool, Millis(now), batch);
        BatchTurnEffect(rows, scores, sql.runs, redis.scores, ids, batchWon, pool, worker, now, ttlSecs);
      }
    }

    /** Up to `attempts` turns; it returns a run exactly when its turns get to a claimable one. */
    method ClaimInBatches(pool: string, worker: Id, now: Time, ttlSecs: int, batch: nat, attempts: nat)
      returns (claimed: Option<Run>)
      requires Keyed(sql.runs)
      modifies sql, redis
      ensures Conserved(old(sql.runs), old(redis.scores), sql.runs, redis.scores, pool, worker, now, ttlSecs)
      ensures claimed.None? ==> sql.runs == old(sql.runs)
      ensures claimed.Some? ==>
                && TakenBy(old(sql.runs), sql.runs, claimed.value.runId, pool, worker, now, ttlSecs)
                && claimed.value == sql.runs[claimed.value.runId]
      ensures claimed.Some? <==> BatchWins(old(sql.runs), old(redis.scores), pool, now, batch, attempts)
    {
      var left := attempts;
      ghost var rows := sql.runs;
      ghost var goal := BatchWins(rows, redis.scores, pool, now, batch, attempts);
      while left > 0
        invariant sql.runs == rows
        invariant goal <==> BatchWins(rows, redis.scores, pool, now, batch, left)
        invariant Conserved(rows, old(redis.scores), rows, redis.scores, pool, worker, now, ttlSecs)
      {
        ghost var scores := redis.scores;
        var drained;
        drained, claimed := LoopTurn(pool, worker, now, ttlSecs, batch, left);
        ConservedCompose(rows, old(redis.scores), scores, sql.runs, redis.scores, pool, worker, now, ttlSecs);
        if drained || claimed.Some? { return; }
        left := left - 1;
      }
      claimed := None;
    }

    method ClaimSingly(pool: string, worker: Id, now: Time, ttlSecs: int, attempts: nat) returns (claimed: Option<Run>)
      requires Keyed(sql.runs)
      modifies sql, redis
      ensures Conserved(old(sql.runs), old(redis.scores), sql.runs, redis.scores, pool, worker, now, ttlSecs)
      ensures claimed.None? ==> sql.runs == old(sql.runs)
      ensures claimed.Some? ==>
                && TakenBy(old(sql.runs), sql.runs, claimed.value.runId, pool, worker, now, ttlSecs)
                && claimed.value == sql.runs[claimed.value.runId]
      ensures IsFastClaim(old(sql.runs), old(redis.scores), pool, worker, now, ttlSecs, attempts,
                          sql.runs, redis.scores, claimed)
    {
      var left := attempts;
      ghost var rows := sql.runs;
      ghost var goal := FastClaim(rows, redis.scores, pool, worker, now, ttlSecs, attempts);
      while left > 0
        invariant sql.runs == rows
        invariant goal == FastClaim(rows, redis.scores, pool, worker, now, ttlSecs, left)
        invariant Conserved(rows, old(redis.scores), rows, redis.scores, pool, worker, now, ttlSecs)
      {
        ghost var scores := redis.scores;
        var ids := redis.ClaimNextRunIds(pool, 1, now);
        PopIsFirst(scores, pool, Millis(now), ids);
        if ids == [] {
          assert redis.scores == scores;
          return None;
        }
        assert ids == [ids[0]];
        claimed := ClaimOne(ids[0], pool, worker, now, ttlSecs);
        SingleTurnConserves(rows, scores, ids[0], pool, worker, now, ttlSecs);
        ConservedCompose(rows, old(redis.scores), scores, sql.runs, redis.scores, pool, worker, now, ttlSecs);
        if claimed.Some? {
          return;
        }
        left := left - 1;
      }
      claimed := None;
    }

    /** Resets every lapsed run and queues it again, so the two stores stay in step. */
    method ReclaimExpiredRunLeases(now: Time) returns (ids: seq<Id>)
      requires Keyed(sql.runs)
      modifies sql, redis
      ensures sql.runs == ReclaimExpired(old(sql.runs), now)
      ensures forall id :: id in ids <==> id in ExpiredIds(old(sql.runs), now)
      ensures forall id :: id in ids ==> Waiting(sql.runs, redis.scores, id)
      ensures InSync(old(sql.runs), old(redis.scores)) ==> InSync(sql.runs, redis.scores)
    {
      ids := sql.ReclaimExpiredRunLeases(now);
      for i := 0 to |ids|
        invariant sql.runs == ReclaimExpired(old(sql.runs), now)
        invariant forall id :: id in ids[..i] ==> Waiting(sql.runs, redis.scores, id)
        invariant forall id :: id in old(sql.runs) && Waiting(old(sql.runs), old(redis.scores), id) ==>
                    Waiting(sql.runs, redis.scores, id)
      {
        assert ids[i] in ids;
        var found := sql.GetRun(ids[i]);
        if found.Some? {
          redis.EnqueueRun(RunPoolKey(found.value.poolId), found.value.runId, found.value.scheduledFor);
        }
        assert ids[..i + 1] == ids[..i] + [ids[i]];
      }
      assert ids[..|ids|] == ids;
      assert InSync(old(sql.runs), old(redis.scores)) ==> InSync(sql.runs, redis.scores) by {
        if InSync(old(sql.runs), old(redis.scores)) {
          forall id | id in sql.runs && sql.runs[id].status == Queued
            ensures Waiting(sql.runs, redis.scores, id)
          {
            assert id in ids || Waiting(old(sql.runs), old(redis.scores), id);
          }
        }
      }
    }
  }

  lemma ClaimSetOneMore(rows: Rows, done: set<Id>, id: Id, pool: string, worker: Id, now: Time, ttlSecs: int)
    ensures var before := ClaimSet(rows, done, pool, worker, now, ttlSecs);
            var (rows', claimed) := ClaimById(before, id, pool, worker, now, ttlSecs);
            && rows' == ClaimSet(rows, done + {id}, pool, worker, now, ttlSecs)
            && (claimed.Some? <==> id in ClaimableIds(rows, {id}, pool, now) - done)
            && (claimed.Some? ==> claimed.value.runId == rows[id].runId && claimed.value == rows'[id])
            && ClaimableIds(rows, done + {id}, pool, now)
               == ClaimableIds(rows, done, pool, now) + ClaimableIds(rows, {id}, pool, now)
  {}

  lemma RunIdsAppend(runs: seq<Run>, run: Run)
    ensures RunIds(runs + [run]) == RunIds(runs) + {run.runId}
  {
    forall id | id in RunIds(runs) ensures id in RunIds(runs + [run]) {
      var r :| r in runs && r.runId == id;
      assert r in runs + [run];
    }
    assert run in runs + [run];
  }

  /** The popped ids that were not claimed. */
  function Unclaimed(ids: seq<Id>, claimedIds: set<Id>): set<Id> {
    set id | id in ids && id !in claimedIds
  }

  /** What a turn did with the ids it popped. */
  predicate IsBatchTurn(rows: Rows, scores: Scores, rows': Rows, scores': Scores, ids: seq<Id>, won: seq<Run>,
                        pool: string, worker: Id, now: Time, ttlSecs: int)
  {
    && rows' == ClaimSet(rows, SetOf(ids), pool, worker, now, ttlSecs)
    && RunIds(won) == ClaimableIds(rows, SetOf(ids), pool, now)
    && (forall r :: r in won ==> r.runId in rows' && r == rows'[r.runId])
    && scores' == PutBackSet(rows', Without(scores, pool, ids), Unclaimed(ids, RunIds(won)), pool, now)
  }

  lemma BatchTurnEffect(rows: Rows, scores: Scores, rows': Rows, scores': Scores, ids: seq<Id>, won: seq<Run>,
                        pool: string, worker: Id, now: Time, ttlSecs: int)
    requires IsBatchTurn(rows, scores, rows', scores', ids, won, pool, worker, now, ttlSecs)
    ensures Conserved(rows, scores, rows', scores', pool, worker, now, ttlSecs)
    ensures won != [] <==> ClaimableIds(rows, SetOf(ids), pool, now) != {}
    ensures won != [] ==> won[0].runId in rows' && won[0] == rows'[won[0].runId]
                          && TakenBy(rows, rows', won[0].runId, pool, worker, now, ttlSecs)
    ensures won == [] ==> rows' == rows && scores' == AfterLoss(rows, scores, pool, now, ids)
  {
    TurnConserves(rows, scores, ids, pool, worker, now, ttlSecs, rows', scores', Unclaimed(ids, RunIds(won)));
    if won != [] {
      assert won[0] in won && won[0].runId in RunIds(won);
    } else {
      assert RunIds(won) == {} && Unclaimed(ids, {}) == SetOf(ids);
      NoneClaimed(rows, ids, pool, worker, now, ttlSecs);
    }
  }

  lemma DrainedConserves(rows: Rows, scores: Scores, pool: string, worker: Id, now: Time, ttlSecs: int)
    ensures Conserved(rows, scores, rows, scores, pool, worker, now, ttlSecs)
  {}

  lemma NoneClaimed(rows: Rows, ids: seq<Id>, pool: string, worker: Id, now: Time, ttlSecs: int)
    requires ClaimableIds(rows, SetOf(ids), pool, now) == {}
    ensures ClaimSet(rows, SetOf(ids), pool, worker, now, ttlSecs) == rows
  {
    assert forall id :: id in SetOf(ids) && id in rows ==> id !in ClaimableIds(rows, SetOf(ids), pool, now);
  }

  lemma NothingPutBack(rows: Rows, scores: Scores, pool: string, now: Time)
    ensures PutBackSet(rows, scores, Unclaimed([], {}), pool, now) == scores
    ensures forall claimedIds :: Unclaimed([], claimedIds) == {}
  {
    assert Targets(rows, {}, pool, now) == {};
    assert Unclaimed([], {}) == {};
  }

  lemma UnclaimedOneMore(rows: Rows, scores: Scores, ids: seq<Id>, i: nat, claimedIds: set<Id>, pool: string, now: Time)
    requires Keyed(rows) && i < |ids|
    ensures var before := PutBackSet(rows, scores, Unclaimed(ids[..i], claimedIds), pool, now);
            PutBackSet(rows, scores, Unclaimed(ids[..i + 1], claimedIds), pool, now)
            == if ids[i] in claimedIds then before else PutBack(rows, before, ids[i], pool, now)
  {
    assert ids[..i + 1] == ids[..i] + [ids[i]];
    var done := Unclaimed(ids[..i], claimedIds);
    assert Unclaimed(ids[..i + 1], claimedIds) == if ids[i] in claimedIds then done else done + {ids[i]};
    PutBackOneMore(rows, scores, done, ids[i], pool, now);
  }

  lemma PutBackOneMore(rows: Rows, scores: Scores, done: set<Id>, id: Id, pool: string, now: Time)
    requires Keyed(rows)
    ensures PutBack(rows, PutBackSet(rows, scores, done, pool, now), id, pool, now)
            == PutBackSet(rows, scores, done + {id}, pool, now)
  {
    var more := Targets(rows, done + {id}, pool, now);
    var fewer := Targets(rows, done, pool, now);
    if id in rows && RequeueTarget(rows[id], pool, now).Some? {
      var e := Entry(RequeueTarget(rows[id], pool, now).value, id);
      assert e in more;
      assert more == fewer + {e};
    } else {
      assert more == fewer;
    }
  }

  lemma PopIsFirst(scores: Scores, pool: string, max: int, ids: seq<Id>)
    requires IsDueRange(scores, pool, max, 1, ids)
    ensures First(scores, pool, max) == if ids == [] then None else Some(ids[0])
  {
    assert Without(scores, pool, []) == scores;
    if ids == [] {
      assert ids == [];
    } else {
      assert ids[..0] == [] && IsFirst(Without(scores, pool, ids[..0]), pool, max, ids[0]);
      DueIdsAreDue(scores, pool, max, ids[0]);
      FirstIsUnique(scores, pool, max, ids[0], First(scores, pool, max).value);
    }
  }

  lemma SingleTurnConserves(rows: Rows, scores: Scores, id: Id, pool: string, worker: Id, now: Time, ttlSecs: int)
    ensures var (rows', claimed) := ClaimById(rows, id, pool, worker, now, ttlSecs);
            var popped := Without(scores, pool, [id]);
            var scores' := if claimed.Some? then popped else PutBack(rows', popped, id, pool, now);
            Conserved(rows, scores, rows', scores', pool, worker, now, ttlSecs)
  {
    forall o | o in rows { PutBackComplementsClaim(rows[o], pool, now); }
  }
}

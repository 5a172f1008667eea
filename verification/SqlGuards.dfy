/** The WHERE clauses of the SQL stores under SQL's three-valued logic, and their agreement with the
    in-memory guards. */
module SqlGuards {
  import opened Models
  import opened RunRules
  import opened JobRules

  datatype Truth = Yes | No | Unknown

  function Not(a: Truth): Truth {
    match a case Yes => No case No => Yes case Unknown => Unknown
  }

  function And(a: Truth, b: Truth): Truth {
    if a == No || b == No then No else if a == Yes && b == Yes then Yes else Unknown
  }

  function Or(a: Truth, b: Truth): Truth {
    Not(And(Not(a), Not(b)))
  }

  function Lift(b: bool): Truth {
    if b then Yes else No
  }

  function IsNull<T>(c: Option<T>): Truth {
    Lift(c.None?)
  }

  /** A comparison with NULL is unknown. */
  function AtMost(c: Option<Time>, t: Time): Truth {
    if c.None? then Unknown else Lift(c.value <= t)
  }

  function Below(c: Option<Time>, t: Time): Truth {
    if c.None? then Unknown else Lift(c.value < t)
  }

  function Same(c: Option<string>, v: string): Truth {
    if c.None? then Unknown else Lift(c.value == v)
  }

  /** A row is updated only when its WHERE clause is true, not when it is unknown. */
  predicate Passes(where: Truth) {
    where == Yes
  }

  function WherePool(run: Run, pool: string): Truth {
    Or(Same(run.poolId, pool), And(Lift(pool == GENERAL), Or(IsNull(run.poolId), Same(run.poolId, GENERAL))))
  }

  function WhereClaim(run: Run, pool: string, now: Time): Truth {
    And(Lift(run.status == Queued),
        And(Lift(run.scheduledFor <= now),
            And(Or(IsNull(run.claimLeaseUntil), AtMost(run.claimLeaseUntil, now)), WherePool(run, pool))))
  }

  function WhereRenew(run: Run, worker: Id): Truth {
    And(Same(run.claimedBy, worker), Lift(run.status == Claimed || run.status == Running))
  }

  function WhereReclaim(run: Run, now: Time): Truth {
    And(Lift(run.status == Claimed || run.status == Running),
        And(Not(IsNull(run.claimLeaseUntil)), AtMost(run.claimLeaseUntil, now)))
  }

  function WhereTick(job: Job, now: Time): Truth {
    And(Lift(job.enabled), Or(IsNull(job.claimLeaseUntil), Below(job.claimLeaseUntil, now)))
  }

  function WhereRunOnce(job: Job, claimant: Id, now: Time): Truth {
    And(IsNull(job.runOnceCompletedAt),
        Or(IsNull(job.runOnceClaimedAt),
           Or(AtMost(job.runOnceClaimExpiresAt, now), Same(job.runOnceClaimedBy, claimant))))
  }

  function WhereDue(job: Job, dueUntil: Time, owned: set<int>, now: Time): Truth {
    And(Lift(job.enabled),
        And(Lift(job.scheduleKind != Manual),
            And(Not(IsNull(job.nextRunAt)),
                And(AtMost(job.nextRunAt, dueUntil),
                    And(if job.partitionHash.None? then Unknown else Lift(job.partitionHash.value in owned),
                        And(Or(IsNull(job.claimLeaseUntil), Below(job.claimLeaseUntil, now)),
                            Or(Lift(job.scheduleKind != RunOnce), IsNull(job.runOnceCompletedAt))))))))
  }

  /** Claim, renew and reclaim touch the same run rows in both stores, whatever columns are NULL. */
  lemma RunGuardsAgree(run: Run, pool: string, worker: Id, now: Time)
    ensures Passes(WhereClaim(run, pool, now)) <==> Claimable(run, pool, now)
    ensures Passes(WhereRenew(run, worker)) <==> Renewable(run, worker)
    ensures Passes(WhereReclaim(run, now)) <==> Expired(run, now)
  {}

  lemma JobGuardsAgree(job: Job, dueUntil: Time, owned: set<int>, now: Time)
    ensures Passes(WhereTick(job, now)) <==> TickClaimable(job, now)
    ensures Passes(WhereDue(job, dueUntil, owned, now)) <==> Due(job, dueUntil, owned, now)
  {}

  /** A claimed run-once job whose expiry is NULL: free to everyone in memory, to nobody else in SQL. */
  predicate ClaimWithoutExpiry(job: Job, claimant: Id) {
    && job.runOnceCompletedAt.None?
    && job.runOnceClaimedAt.Some?
    && job.runOnceClaimExpiresAt.None?
    && job.runOnceClaimedBy != Some(claimant)
  }

  /** The run-once guards agree on a row exactly when it is not of that shape. */
  lemma RunOnceGuardsAgreeIff(job: Job, claimant: Id, now: Time)
    ensures (Passes(WhereRunOnce(job, claimant, now)) <==> RunOnceClaimable(job, claimant, now))
            <==> !ClaimWithoutExpiry(job, claimant)
  {}

  /** Such a row: anyone may take it in memory, and nobody but its claimant in SQL. */
  lemma NullExpiryReadsDifferently(job: Job, now: Time)
    requires job.runOnceCompletedAt.None? && job.runOnceClaimExpiresAt.None?
    ensures var row := job.(runOnceClaimedAt := Some(now), runOnceClaimedBy := Some("a"));
            RunOnceClaimable(row, "b", now) && !Passes(WhereRunOnce(row, "b", now))
  {
    var row := job.(runOnceClaimedAt := Some(now), runOnceClaimedBy := Some("a"));
    RunOnceGuardsAgreeIff(row, "b", now);
  }

  /** The columns of a run-once claim are written and cleared together, so no reachable row has that shape. */
  lemma RunOnceStepsAgree(job: Job, ops: seq<JobOp>, claimant: Id, now: Time)
    requires RunOnceColumnsTogether(job)
    ensures var reached := ApplyOps(job, ops);
            RunOnceColumnsTogether(reached)
            && (Passes(WhereRunOnce(reached, claimant, now)) <==> RunOnceClaimable(reached, claimant, now))
  {
    ColumnsStayTogether(job, ops);
  }
}

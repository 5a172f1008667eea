/** How far the tick section's exclusion goes: exactly when timely coordinators are kept apart. */
module TickLimits {
  import opened Models
  import opened JobRules
  import opened TickProtocol
  import opened TickSafety
  import opened TickRuns

  // ---- misfire skips ----------------------------------------------------------------------------

  /** A job without a misfire window is never skipped. */
  predicate NoWindow(job: Job) {
    job.misfirePolicy.maxMisfireWindowSecs == 0
  }

  predicate NeverSkips(s: State) {
    && (s.job.Some? ==> NoWindow(s.job.value))
    && forall c :: c in s.coords ==>
         && !s.coords[c].Skipping? && !s.coords[c].SkipAdvancing? && !s.coords[c].SkipReleasing?
         && (Carries(s.coords[c]) ==> NoWindow(s.coords[c].job))
  }

  lemma StepNeverSkips(s: State, step: Step)
    requires NeverSkips(s) && Enabled(s, step) && Obeys(Steady, s, step)
    ensures NeverSkips(Apply(s, step))
  {
    if IsCoordStep(step) {
      NoSkipShape(s, step);
      CarryShape(s, step);
      RowShape(s, step);
    }
  }

  /** Without a misfire window nobody turns to skipping. */
  lemma NoSkipShape(s: State, step: Step)
    requires NeverSkips(s) && Enabled(s, step) && IsCoordStep(step)
    ensures var p' := At(Apply(s, step), step.c);
            !p'.Skipping? && !p'.SkipAdvancing? && !p'.SkipReleasing?
  {
    var p := At(s, step.c);
    assert !p.Skipping? && !p.SkipAdvancing? && !p.SkipReleasing? && (Carries(p) ==> NoWindow(p.job));
  }

  lemma {:induction false} ExclusionWithoutWindow(s: State, steps: seq<Step>)
    requires SectionInv(s) && NeverSkips(s) && Feasible(s, steps) && Lawful(Steady, s, steps)
    ensures SectionInv(After(s, steps))
    decreases |steps|
  {
    if steps != [] {
      assert EntersAlone(s, steps[0]);
      StepKeepsSection(s, steps[0]);
      StepNeverSkips(s, steps[0]);
      ExclusionWithoutWindow(Apply(s, steps[0]), steps[1..]);
    }
  }

  /** The moment the misfire gate starts to skip this job. */
  function SkipTime(job: Job): Time
    requires job.nextRunAt.Some?
  {
    job.nextRunAt.value + Seconds(job.misfirePolicy.maxMisfireWindowSecs + 1)
  }

  lemma SkippedAtSkipTime(job: Job)
    requires job.nextRunAt.Some? && !NoWindow(job)
    ensures !Enqueues(job, SkipTime(job))
  {
    var w := job.misfirePolicy.maxMisfireWindowSecs;
    assert LatenessSecs(job.nextRunAt.value, SkipTime(job)) == w + 1;
  }

  predicate TwoInside(s: State) {
    exists c, d :: c in s.coords && d in s.coords && c != d && Inside(s.coords[c]) && Inside(s.coords[d])
  }

  predicate CanFire(job: Job) {
    job.enabled && job.nextRunAt.Some? && job.claimLeaseUntil.None? && job.concurrency > 0
  }

  function Fresh(job: Job, clock: Time): State {
    State(clock, Some(job), map[], map[], [], map[])
  }

  /** a's second release clears b's lease, and c enters. */
  lemma SecondReleaseLetsIn(s: State, a: Id, b: Id, c: Id) returns (s': State)
    requires Timely(s) && At(s, a).SkipReleasing? && At(s, b).Entered? && At(s, c) == Started(s.clock)
    requires a != b && a != c && b != c && s.job.Some? && s.job.value.enabled
    ensures Reached(Steady, s, s') && TwoInside(s')
  {
    var s1 := s.(job := Some(ApplyOp(s.job.value, ReleaseTick(s.clock))), coords := s.coords[a := Out]);
    assert Apply(s, ReleaseSkip(a)) == s1;
    s' := AtEntry(s1, c);
    assert b in s'.coords && s'.coords[b] == s.coords[b] && Inside(s'.coords[b]) && Inside(s'.coords[c]);
    MoverIsTimely(s, a, Out);
    MoverIsTimely(s1, c, s'.coords[c]);
    Nowhere(Steady, s');
    EnterNow(Steady, s1, c, s');
    StepFirst(Steady, s, ReleaseSkip(a), s');
  }

  /** a skips; b enters after its first release and c after its second. */
  lemma SkipperLetsTwoIn(s: State, a: Id, b: Id, c: Id) returns (s': State)
    requires Timely(s) && At(s, a) == At(s, b) == At(s, c) == Started(s.clock) && a != b && a != c && b != c
    requires s.job.Some? && TickClaimable(s.job.value, s.clock) && |ActiveIds(s.runs)| < s.job.value.concurrency
    requires !Enqueues(s.job.value, s.clock)
    ensures Reached(Steady, s, s') && TwoInside(s')
  {
    var s4 := InGap(s, a, None);
    MoverIsTimely(s, a, SkipReleasing);
    var s5 := AtEntry(s4, b);
    MoverIsTimely(s4, b, s5.coords[b]);
    s' := SecondReleaseLetsIn(s5, a, b, c);
    EnterNow(Steady, s4, b, s');
    SkipNow(Steady, s, a, None, s');
  }

  /** With a misfire window, three timely coordinators can put two inside: the first skips, the second enters
      after its first release, its second release clears the second's lease, and the third enters. */
  lemma WindowBreaksExclusion(job: Job) returns (s: State, s': State)
    requires CanFire(job) && !NoWindow(job)
    ensures Init(s) && s.job == Some(job) && Reached(Steady, s, s') && TwoInside(s')
  {
    var now := SkipTime(job);
    SkippedAtSkipTime(job);
    s := Fresh(job, now);
    var s1 := Become(s, "a", Started(now));
    var s2 := Become(s1, "b", Started(now));
    var s3 := Become(s2, "c", Started(now));
    assert ActiveIds(s.runs) == {};
    s' := SkipperLetsTwoIn(s3, "a", "b", "c");
    ScanNow(Steady, s2, "c", 0, s');
    ScanNow(Steady, s1, "b", 0, s');
    ScanNow(Steady, s, "a", 0, s');
  }

  /** For a job that can fire, giving every lease back in time is enough for exclusion exactly when the job has
      no misfire window; upserts may come in between if the row they write back covers whoever is inside and keeps
      the misfire policy. */
  lemma ExclusionIffNoWindow(job: Job)
    requires CanFire(job)
    ensures (forall s, s' :: Init(s) && s.job == Some(job) && Reached(Steady, s, s') ==> !TwoInside(s'))
            <==> NoWindow(job)
  {
    if NoWindow(job) {
      forall s, s' | Init(s) && s.job == Some(job) && Reached(Steady, s, s') ensures !TwoInside(s') {
        var steps :| Feasible(s, steps) && Lawful(Steady, s, steps) && After(s, steps) == s';
        ExclusionWithoutWindow(s, steps);
      }
    } else {
      var s, s' := WindowBreaksExclusion(job);
    }
  }

  // ---- late ticks -------------------------------------------------------------------------------

  /** Timeliness is needed too: from a fresh start, a coordinator that is still inside after its lease has ended is
      joined by another. */
  lemma LateTickIsJoined(job: Job) returns (s: State, s': State)
    requires CanFire(job)
    ensures Init(s) && s.job == Some(job) && Reached(Anyhow, s, s') && TwoInside(s')
  {
    var now := job.nextRunAt.value;
    s := Fresh(job, now);
    var s1 := Become(s, "a", Started(now));
    s' := JoinedLate(AtEntry(s1, "a"), "a", "b");
    EnterNow(Anyhow, s1, "a", s');
    ScanNow(Anyhow, s, "a", 0, s');
  }

  lemma JoinedLate(s: State, c: Id, d: Id) returns (s': State)
    requires c in s.coords && Inside(s.coords[c]) && At(s, d).Out? && c != d && s.job.Some? && s.job.value.enabled
    requires s.job.value.nextRunAt.Some? && s.job.value.nextRunAt.value <= s.clock
    requires s.job.value.claimLeaseUntil.Some? && s.clock <= s.job.value.claimLeaseUntil.value
    ensures Reached(Anyhow, s, s') && TwoInside(s')
  {
    var late := s.job.value.claimLeaseUntil.value + 1;
    var s1 := s.(clock := late);
    var s2 := Become(s1, d, Listed(late));
    var s3 := Become(s1, d, Started(late));
    s' := AtEntry(s3, d);
    assert s'.coords[c] == s.coords[c] && Inside(s'.coords[d]);
    assert Become(s2, d, Started(late)) == s3 by { assert s2.coords[d := Started(late)] == s3.coords; }
    Nowhere(Anyhow, s');
    assert EnterSection(s3, d, "c", 1) == s';
    StepFirst(Anyhow, s3, Enter(d, "c", 1), s');
    StepFirst(Anyhow, s2, Begin(d), s');
    StepFirst(Anyhow, s1, Scan(d, 0), s');
    StepFirst(Anyhow, s, Advance(late), s');
  }

  // ---- upserts ----------------------------------------------------------------------------------

  /** `d` reads the clock at the last moment of the lease of the one inside, and enters. */
  lemma UncoveredIsJoined(s: State, c: Id, d: Id) returns (s': State)
    requires Timely(s) && NoGap(s) && c in s.coords && Inside(s.coords[c]) && d !in s.coords
    requires forall o :: o in s.coords && Inside(s.coords[o]) ==> o == c
    requires s.job.Some? && s.job.value.nextRunAt.Some? && !Covers(s.job.value, s.coords[c].until)
    ensures Reached(Orderly, s, s') && TwoInside(s')
  {
    var row := s.job.value.(enabled := true, updatedAt := s.clock);
    var until := s.coords[c].until;
    var s1 := s.(job := Some(row));
    var s2 := s1.(clock := until);
    var s3 := Become(s2, d, Started(until));
    var ahead := if row.nextRunAt.value <= until then 0 else row.nextRunAt.value - until;
    s' := AtEntry(s3, d);
    assert s'.coords[c] == s.coords[c] && Inside(s'.coords[d]);
    MoverIsTimely(s2, d, Started(until));
    MoverKeepsGap(s2.coords, d, Started(until));
    MoverIsTimely(s2, d, s'.coords[d]);
    assert s3.coords[d := s'.coords[d]] == s2.coords[d := s'.coords[d]];
    Nowhere(Orderly, s');
    EnterNow(Orderly, s3, d, s');
    ScanNow(Orderly, s2, d, ahead, s');
    PassTo(Orderly, s1, until, s');
    assert Apply(s, SetEnabled(true)) == s1;
    StepFirst(Orderly, s, SetEnabled(true), s');
  }

  /** Whether an upsert may write its row back while `c` is inside: exactly when that row's tick lease lasts as long
      as c's. Then no orderly continuation puts two inside, and otherwise one does. */
  lemma RowWriteIsSafeIff(s: State, c: Id, editor: Id, row: Job, d: Id)
    requires SectionInv(s) && Timely(s) && c in s.coords && Inside(s.coords[c]) && d !in s.coords
    requires Enabled(s, WriteRow(editor, row)) && row.nextRunAt.Some?
    ensures (forall s' :: Reached(Orderly, Apply(s, WriteRow(editor, row)), s') ==> !TwoInside(s'))
            <==> Covers(row, s.coords[c].until)
  {
    var s1 := Apply(s, WriteRow(editor, row));
    assert s1 == s.(job := Some(row)) && NoGap(s);
    if Covers(row, s.coords[c].until) {
      StepKeepsSection(s, WriteRow(editor, row));
      forall s' | Reached(Orderly, s1, s') ensures !TwoInside(s') {
        var steps :| Feasible(s1, steps) && Lawful(Orderly, s1, steps) && After(s1, steps) == s';
        RunKeepsSection(s1, steps);
      }
    } else {
      var s' := UncoveredIsJoined(s1, c, d);
    }
  }

  /** Such an upsert happens to every job that can fire, window or not: it reads the row, a coordinator enters, and it
      writes the row back, changing nothing. */
  lemma StaleWriteBreaksExclusion(job: Job) returns (s: State, mid: State, s': State)
    requires CanFire(job)
    ensures Init(s) && s.job == Some(job) && Reached(Orderly, s, mid)
    ensures Enabled(mid, WriteRow("e", job)) && !Current(mid, WriteRow("e", job))
    ensures Reached(Orderly, Apply(mid, WriteRow("e", job)), s') && TwoInside(s')
  {
    var now := job.nextRunAt.value;
    s := Fresh(job, now);
    var s1 := s.(copies := map["e" := job]);
    var s2 := Become(s1, "a", Started(now));
    mid := AtEntry(s2, "a");
    Nowhere(Orderly, mid);
    EnterNow(Orderly, s2, "a", mid);
    ScanNow(Orderly, s1, "a", 0, mid);
    assert Apply(s, ReadRow("e")) == s1;
    StepFirst(Orderly, s, ReadRow("e"), mid);
    var written := Apply(mid, WriteRow("e", job));
    assert written.coords == mid.coords && written.job == Some(job);
    s' := UncoveredIsJoined(written, "a", "b");
  }
}

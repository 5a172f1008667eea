/** What one late write can do: runs from empty stores in which every other write is timely. */
module LateWrites {
  import opened Models
  import opened Collections
  import opened RunRules
  import opened ReadyQueue
  import opened CompositeRules
  import opened ClaimProtocol
  import opened LeaseSafety
  import opened LeaseExclusion

  // ---- turns of the actors around one run -------------------------------------------------------

  /** The only run, due from the start. */
  const X: Run := NewRun("x", "job", "script", 0)

  const SLOT: Entry := Entry(GENERAL, "x")

  type Actors = map<Id, Actor>

  /** The run waits. */
  function Waits(clock: Time, actors: Actors): State {
    State(clock, map["x" := X], map[SLOT := 0], actors, map[])
  }

  /** The run is taken or over, and the queue is empty. */
  function Taken(clock: Time, row: Run, actors: Actors): State {
    State(clock, map["x" := row], map[], actors, map[])
  }

  function Lease(w: Id, clock: Time, ttlSecs: int): Run {
    ClaimedRow(X, w, clock, ttlSecs)
  }

  predicate Rests(actors: Actors, a: Id) {
    a in actors ==> actors[a].Idle?
  }

  lemma CreateTurn(a: Id, s': State)
    requires Reached(Waits(0, map[a := Idle]), s')
    ensures Reached(State(0, map[], map[], map[], map[]), s')
  {
    var s := State(0, map[], map[], map[], map[]);
    var s1 := State(0, map["x" := X], map[], map[a := Creating(X)], map[]);
    assert Apply(s, Create(a, X)) == s1;
    assert Apply(s1, EnqueueCreated(a)) == Waits(0, map[a := Idle]) by {
      assert s1.actors[a := Idle] == map[a := Idle];
    }
    StepFirst(s1, EnqueueCreated(a), s');
    StepFirst(s, Create(a, X), s');
  }

  lemma OnlyMemberIsPopped(now: Time)
    requires now >= 0
    ensures var scores: Scores := map[SLOT := 0];
            IsDueRange(scores, GENERAL, Millis(now), 1, ["x"]) && Without(scores, GENERAL, ["x"]) == map[]
  {
    var scores: Scores := map[SLOT := 0];
    assert Without(scores, GENERAL, []) == scores;
    assert ["x"][..0] == [];
    assert IsFirst(scores, GENERAL, Millis(now), "x");
  }

  /** Pops the run. */
  lemma PopTurn(clock: Time, actors: Actors, w: Id, ttlSecs: int, s': State)
    requires clock >= 0 && Rests(actors, w)
    requires Reached(Taken(clock, X, actors[w := Claiming(Request(GENERAL, clock, ttlSecs, 1), 0, ["x"], 0, [])]), s')
    ensures Reached(Waits(clock, actors), s')
  {
    var req := Request(GENERAL, clock, ttlSecs, 1);
    var s := Waits(clock, actors);
    var s1 := Waits(clock, actors[w := Popping(req, 0)]);
    var s2 := Taken(clock, X, actors[w := Claiming(req, 0, ["x"], 0, [])]);
    OnlyMemberIsPopped(clock);
    assert Apply(s, BeginClaim(w, GENERAL, ttlSecs, 1)) == s1;
    assert Popped(s1, w, ["x"]) == s2 by { assert s1.actors[w := s2.actors[w]] == s2.actors; }
    StepFirst(s1, Pop(w, ["x"]), s');
    StepFirst(s, BeginClaim(w, GENERAL, ttlSecs, 1), s');
  }

  /** Reconciles a batch of one that was won, and returns the run to its worker. */
  lemma ReturnWon(clock: Time, row: Run, actors: Actors, w: Id, req: Request, s': State)
    requires row.runId == "x"
    requires Reached(Taken(clock, row, actors[w := Holding(row, req.now + Seconds(req.ttlSecs))]), s')
    ensures Reached(Taken(clock, row, actors[w := Claiming(req, 0, ["x"], 1, [row])]), s')
  {
    var s3 := Taken(clock, row, actors[w := Claiming(req, 0, ["x"], 1, [row])]);
    var s4 := Taken(clock, row, actors[w := Reconciling(req, 0, ["x"], 0, [row])]);
    var s5 := Taken(clock, row, actors[w := Reconciling(req, 0, ["x"], 1, [row])]);
    var s6 := Taken(clock, row, actors[w := Holding(row, req.now + Seconds(req.ttlSecs))]);
    assert StartReconcile(s3, w) == s4 by { assert s3.actors[w := s4.actors[w]] == s4.actors; }
    assert row in [row] && "x" in WonIds([row]);
    assert CheckOneId(s4, w) == s5 by { assert s4.actors[w := s5.actors[w]] == s5.actors; }
    assert AfterReconcile(s5, w) == s6 by { assert s5.actors[w := s6.actors[w]] == s6.actors; }
    StepFirst(s5, DoneReconciling(w), s');
    StepFirst(s4, Check(w), s');
    StepFirst(s3, DoneClaiming(w), s');
  }

  /** Claims the popped run and returns it to its worker. */
  lemma ClaimPopped(clock: Time, actors: Actors, w: Id, ttlSecs: int, s': State)
    requires clock >= 0
    requires Reached(Taken(clock, Lease(w, clock, ttlSecs),
                           actors[w := Holding(Lease(w, clock, ttlSecs), clock + Seconds(ttlSecs))]), s')
    ensures Reached(Taken(clock, X, actors[w := Claiming(Request(GENERAL, clock, ttlSecs, 1), 0, ["x"], 0, [])]), s')
  {
    var req := Request(GENERAL, clock, ttlSecs, 1);
    var row := Lease(w, clock, ttlSecs);
    var s2 := Taken(clock, X, actors[w := Claiming(req, 0, ["x"], 0, [])]);
    var s3 := Taken(clock, row, actors[w := Claiming(req, 0, ["x"], 1, [row])]);
    ReturnWon(clock, row, actors, w, req, s');
    assert ClaimOneId(s2, w) == s3 by {
      assert [] + [row] == [row] && s2.actors[w := s3.actors[w]] == s3.actors && s2.rows["x" := row] == s3.rows;
    }
    StepFirst(s2, ClaimNext(w), s');
  }

  lemma ClaimTurn(clock: Time, actors: Actors, w: Id, ttlSecs: int, s': State)
    requires clock >= 0 && Rests(actors, w)
    requires Reached(Taken(clock, Lease(w, clock, ttlSecs),
                           actors[w := Holding(Lease(w, clock, ttlSecs), clock + Seconds(ttlSecs))]), s')
    ensures Reached(Waits(clock, actors), s')
  {
    ClaimPopped(clock, actors, w, ttlSecs, s');
    PopTurn(clock, actors, w, ttlSecs, s');
  }

  /** Queues the run that was taken back. */
  lemma QueueAgain(clock: Time, actors: Actors, r: Id, s': State)
    requires Reached(Waits(clock, actors[r := Idle]), s')
    ensures Reached(Taken(clock, X, actors[r := RequeuingOne(X, [])]), s')
  {
    var s2 := Taken(clock, X, actors[r := RequeuingOne(X, [])]);
    var s3 := Waits(clock, actors[r := Requeuing([])]);
    assert Apply(s2, EnqueueReclaimed(r)) == s3 by {
      assert s2.actors[r := s3.actors[r]] == s3.actors;
      assert Added(s2.scores, GENERAL, "x", 0) == map[SLOT := 0];
    }
    assert Apply(s3, DoneReclaiming(r)) == Waits(clock, actors[r := Idle]) by {
      assert s3.actors[r := Idle] == actors[r := Idle];
    }
    StepFirst(s3, DoneReclaiming(r), s');
    StepFirst(s2, EnqueueReclaimed(r), s');
  }

  /** Takes the lapsed run back and queues it. */
  lemma ReclaimTurn(clock: Time, row: Run, actors: Actors, r: Id, s': State)
    requires Rests(actors, r) && Expired(row, clock) && ResetRow(row) == X
    requires Reached(Waits(clock, actors[r := Idle]), s')
    ensures Reached(Taken(clock, row, actors), s')
  {
    var s := Taken(clock, row, actors);
    var s1 := Taken(clock, X, actors[r := Requeuing(["x"])]);
    var s2 := Taken(clock, X, actors[r := RequeuingOne(X, [])]);
    QueueAgain(clock, actors, r, s');
    assert SetOf(["x"]) == ExpiredIds(s.rows, clock) && Distinct(["x"]);
    assert Reset(s, r, clock, ["x"]) == s1 by { assert ReclaimExpired(s.rows, clock) == map["x" := X]; }
    assert ReclaimedRead(s1, r) == s2 by { assert ["x"][1..] == [] && s1.actors[r := s2.actors[r]] == s2.actors; }
    StepFirst(s1, ReadReclaimed(r), s');
    StepFirst(s, BeginReclaim(r, clock, ["x"]), s');
  }

  lemma Pass(s: State, to: Time, s': State)
    requires s.clock <= to && Reached(s.(clock := to), s')
    ensures Reached(s, s')
  {
    StepFirst(s, Advance(to), s');
  }

  lemma StartTurn(clock: Time, row: Run, actors: Actors, w: Id, until: Time, s': State)
    requires w in actors && actors[w] == Holding(row, until) && clock < until && row.runId == "x" && row.jobId.Some?
    requires Reached(Taken(clock, Started(row, clock), actors[w := Executing(Started(row, clock), until)]), s')
    ensures Reached(Taken(clock, row, actors), s')
  {
    var s := Taken(clock, row, actors);
    var actors' := actors[w := Executing(Started(row, clock), until)];
    assert RunningWritten(s, w) == Taken(clock, Started(row, clock), actors') by {
      assert s.rows["x" := Started(row, clock)] == map["x" := Started(row, clock)];
    }
    StepFirst(s, WriteRunning(w), s');
  }

  // ---- two workers on one run -------------------------------------------------------------------

  const T: Time := NANOS_PER_SEC

  /** Worker a's copy, whose lease ended at T, and worker b's, which runs from T to 1001 T. */
  const COPY_A: Run := Lease("a", 0, 1)
  const COPY_B: Run := Started(Lease("b", T, 1_000), T)

  function BothWorkers(): Actors {
    map["z" := Idle, "a" := Holding(COPY_A, T), "r" := Idle, "b" := Executing(COPY_B, T + Seconds(1_000))]
  }

  /** a claims, its lease lapses, the run is reclaimed, b claims and starts it: all in order so far. */
  lemma SecondWorkerRuns()
    ensures Reached(State(0, map[], map[], map[], map[]), Taken(T, COPY_B, BothWorkers()))
  {
    var e := Taken(T, COPY_B, BothWorkers());
    var actors1 := map["z" := Idle, "a" := Holding(COPY_A, T)];
    var actors2 := actors1["r" := Idle];
    var held := Lease("b", T, 1_000);
    Nowhere(e);
    var actors3 := actors2["b" := Holding(held, T + Seconds(1_000))];
    assert actors3["b" := Executing(COPY_B, T + Seconds(1_000))] == BothWorkers();
    StartTurn(T, held, actors3, "b", T + Seconds(1_000), e);
    ClaimTurn(T, actors2, "b", 1_000, e);
    ReclaimTurn(T, COPY_A, actors1, "r", e);
    assert Taken(0, COPY_A, actors1).(clock := T) == Taken(T, COPY_A, actors1);
    Pass(Taken(0, COPY_A, actors1), T, e);
    assert map["z" := Idle]["a" := Holding(COPY_A, T)] == actors1;
    ClaimTurn(0, map["z" := Idle], "a", 1, e);
    CreateTurn("z", e);
  }

  /** What a's late write leaves: its own copy, running, with a lease that has ended. */
  function AfterLateWrite(): State {
    Taken(T, Started(COPY_A, T), BothWorkers()["a" := Executing(Started(COPY_A, T), T)])
  }

  /** After it the run is reclaimed and c claims it. */
  lemma ThirdWorkerClaims() returns (e: State)
    ensures Reached(AfterLateWrite(), e) && e.clock == T
    ensures At(e, "b") == Executing(COPY_B, T + Seconds(1_000))
    ensures At(e, "c") == Holding(Lease("c", T, 1_000), T + Seconds(1_000))
  {
    var actors := BothWorkers()["a" := Executing(Started(COPY_A, T), T)];
    var actors' := actors["r" := Idle];
    e := Taken(T, Lease("c", T, 1_000), actors'["c" := Holding(Lease("c", T, 1_000), T + Seconds(1_000))]);
    Nowhere(e);
    ClaimTurn(T, actors', "c", 1_000, e);
    ReclaimTurn(T, Started(COPY_A, T), actors, "r", e);
  }

  /** From empty stores, with a single write that is not timely: afterwards b and c hold the same run under live
      leases. */
  lemma LateWriteBreaksExclusivity() returns (s: State, late: State, e: State)
    ensures Init(s) && Reached(s, late)
    ensures Enabled(late, WriteRunning("a")) && !Timely(late, WriteRunning("a")) && Contended(late, "a")
    ensures Reached(Apply(late, WriteRunning("a")), e)
    ensures HoldsLive(e, "b", "x") && HoldsLive(e, "c", "x")
  {
    s := State(0, map[], map[], map[], map[]);
    late := Taken(T, COPY_B, BothWorkers());
    SecondWorkerRuns();
    assert "b" in late.actors && Has(late.actors["b"], "x", T + Seconds(1_000));
    assert Apply(late, WriteRunning("a")) == AfterLateWrite() by {
      assert late.rows["x" := Started(COPY_A, T)] == AfterLateWrite().rows;
    }
    e := ThirdWorkerClaims();
    assert Has(At(e, "b"), "x", T + Seconds(1_000)) && Has(At(e, "c"), "x", T + Seconds(1_000));
  }

  /** The same history with b done: a's late write makes the finished run running again. */
  lemma LateWriteRevivesEndedRun() returns (s: State, late: State)
    ensures Init(s) && Reached(s, late) && Enabled(late, WriteRunning("a"))
    ensures "x" in late.rows && late.rows["x"].status == Success
    ensures Apply(late, WriteRunning("a")).rows["x"].status == Running
  {
    s := State(0, map[], map[], map[], map[]);
    SecondWorkerRuns();
    var running := Taken(T, COPY_B, BothWorkers());
    var steps :| Feasible(s, steps) && TimelyRun(s, steps) && After(s, steps) == running;
    late := Apply(running, WriteTerminal("b", Success, false));
    Nowhere(late);
    StepFirst(running, WriteTerminal("b", Success, false), late);
    ReachedFurther(s, steps, late);
  }
}

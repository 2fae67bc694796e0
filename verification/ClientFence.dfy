/** The fence around a client: while it is open, its claim is held, so no later
    generation of its agent exists. */
module ClientFence {
  import opened Texts
  import opened Types
  import opened Schema
  import opened Transactions
  import opened Fencing
  import opened Protocol
  import opened Ownership
  import opened Runtimes
  import opened Shutdown
  import opened Steps

  /** The run holds its agent under this very claim. */
  ghost predicate Holding(db: Db, key: LeaseKey) {
    && key.agent in db.agents && db.agents[key.agent].status.Held() && db.agents[key.agent].lease.Some?
    && LiveKey(db, key.agent) == key
  }

  /** The claim is still a goroutine's to use. A claim between the reservation and the
      setup is given up when the session shuts down. */
  predicate InPlay(job: Job, shuttingDown: bool) {
    && job.key.Some?
    && (InReservation(job.pc) || InSetup(job.pc) || IsOwned(job)
        || ((job.pc.Closing? || job.pc.Gap?) && !shuttingDown))
  }

  ghost predicate Fenced(db: Db, job: Job, shuttingDown: bool, runtime: Text) {
    && (job.key.Some? ==> job.key.value.runtime == runtime)
    && (InPlay(job, shuttingDown) && !job.ended && !job.lapsed ==> Holding(db, job.key.value))
  }

  ghost predicate FencedAt(s: State, j: JobId, runtime: Text)
    requires j in s.jobs
  {
    s.jobs[j].path in s.dbs && Fenced(s.dbs[s.jobs[j].path], s.jobs[j], s.shuttingDown, runtime)
  }

  ghost predicate Fences(s: State, runtime: Text) {
    forall j {:trigger FencedAt(s, j, runtime)} | j in s.jobs :: FencedAt(s, j, runtime)
  }

  // --- control steps ---------------------------------------------------------

  lemma ActInPlay(job: Job, act: Act, shuttingDown: bool)
    requires JobOk(job) && CanAct(job, act)
    ensures var job' := AfterAct(job, act, shuttingDown);
            && (InPlay(job', shuttingDown) ==> InPlay(job, shuttingDown))
            && job'.key == job.key && job'.path == job.path && job'.ended == job.ended && job'.lapsed == job.lapsed
  {
    ActCrosses(job, act, shuttingDown);
    match act
    case Call(c) => CallInPlay(job, c, shuttingDown);
    case Runner(r) => RunnerKeepsPc(job, r);
    case Clean(k) => CleanupKeepsPc(job, k);
    case Cancel(_) =>
  }

  lemma RunnerKeepsPc(job: Job, r: RunnerAct)
    requires CanRun(job, r)
    ensures var job' := RunnerStep(job, r); job'.pc == job.pc && job'.ended == job.ended && job'.lapsed == job.lapsed
  {
  }

  lemma CleanupKeepsPc(job: Job, k: CleanupAct)
    requires CanClean(job, k)
    ensures var job' := CleanupStep(job, k); job'.pc == job.pc && job'.ended == job.ended && job'.lapsed == job.lapsed
  {
  }

  lemma CallInPlay(job: Job, c: CallAct, shuttingDown: bool)
    requires CanCall(job, c)
    ensures var job' := CallStep(job, c, shuttingDown);
            && (job'.pc.Closing? || job'.pc.Gap? ==> InReservation(job.pc) || job.pc.Closing?)
            && job'.ended == job.ended && job'.lapsed == job.lapsed
  {
  }

  lemma StillFenced(db: Db, job: Job, job': Job, shuttingDown: bool, runtime: Text)
    requires Fenced(db, job, shuttingDown, runtime)
    requires InPlay(job', shuttingDown) ==> InPlay(job, shuttingDown)
    requires job'.key == job.key && job'.ended == job.ended && job'.lapsed == job.lapsed
    ensures Fenced(db, job', shuttingDown, runtime)
  {
  }

  lemma ActFences(s: State, j: JobId, act: Act, runtime: Text)
    requires Jobs(s) && Fences(s, runtime) && j in s.jobs && CanAct(s.jobs[j], act)
    ensures Fences(ActOn(s, j, act), runtime)
  {
    var job' := AfterAct(s.jobs[j], act, s.shuttingDown);
    JobFact(s, j);
    ActInPlay(s.jobs[j], act, s.shuttingDown);
    assert FencedAt(s, j, runtime);
    StillFenced(s.dbs[s.jobs[j].path], s.jobs[j], job', s.shuttingDown, runtime);
    MovedFrame(s, j, act, job');
    SetJobFences(s, ActOn(s, j, act), j, runtime);
  }

  lemma SetJobFences(s: State, s': State, j: JobId, runtime: Text)
    requires Fences(s, runtime) && j in s.jobs && s'.jobs.Keys == s.jobs.Keys && s'.dbs == s.dbs
    requires s'.shuttingDown == s.shuttingDown && FencedAt(s', j, runtime)
    requires forall k | k in s.jobs && k != j :: s'.jobs[k] == s.jobs[k]
    ensures Fences(s', runtime)
  {
    forall k | k in s'.jobs
      ensures FencedAt(s', k, runtime)
    {
      assert FencedAt(s, k, runtime);
    }
  }

  // --- transactions ----------------------------------------------------------

  /** A claim in play survives a transaction that is not its own ending, unless its
      lease has run out by then. */
  lemma HoldingSurvives(db: Db, env: Env, req: Request, key: LeaseKey)
    requires Inv(db) && Possible(db, env, req) && Holding(db, key) && env.now < db.agents[key.agent].lease.value.expires
    requires !EndsClaim(db, env, req, key.agent)
    ensures Holding(Serve(db, env, req), key)
  {
    OnlyHolderEndsClaim(db, env, req, key.agent);
  }

  /** The request neither ends this claim nor interrupts this runtime. */
  predicate Spares(env: Env, req: Request, key: LeaseKey) {
    env.runtime == key.runtime ==> !req.InterruptRuntime? && (EndsOwn(req) ==> WorkerKey(req) != Some(key))
  }

  lemma SparedIsNotEnded(db: Db, env: Env, req: Request, key: LeaseKey)
    requires Holding(db, key) && Spares(env, req, key)
    ensures !EndsClaim(db, env, req, key.agent)
  {
  }

  lemma LapseFences(db: Db, env: Env, req: Request, path: Text, job: Job, shuttingDown: bool, runtime: Text)
    requires Inv(db) && Possible(db, env, req) && job.path == path && Fenced(db, job, shuttingDown, runtime)
    requires job.key.Some? ==> Spares(env, req, job.key.value)
    ensures Fenced(Serve(db, env, req), Lapse(job, path, db, env.now), shuttingDown, runtime)
  {
    var job' := Lapse(job, path, db, env.now);
    LapseKeepsJob(job, job');
    if InPlay(job', shuttingDown) && !job'.ended && !job'.lapsed {
      SparedIsNotEnded(db, env, req, job.key.value);
      HoldingSurvives(db, env, req, job.key.value);
    }
  }

  lemma ServedAt(s: State, path: Text, env: Env, req: Request, j: JobId)
    requires path in s.dbs && j in s.jobs
    ensures var s' := Served(s, path, env, req);
            && j in s'.jobs && s'.jobs[j] == Lapse(s.jobs[j], path, s.dbs[path], env.now)
            && s'.jobs[j].path == s.jobs[j].path
            && s'.dbs == s.dbs[path := Serve(s.dbs[path], env, req)] && s'.shuttingDown == s.shuttingDown
  {
  }

  lemma ServedFences(s: State, path: Text, env: Env, req: Request, runtime: Text, j: JobId)
    requires path in s.dbs && Inv(s.dbs[path]) && Possible(s.dbs[path], env, req) && Fences(s, runtime) && j in s.jobs
    requires s.jobs[j].key.Some? ==> Spares(env, req, s.jobs[j].key.value)
    ensures j in Served(s, path, env, req).jobs && FencedAt(Served(s, path, env, req), j, runtime)
  {
    assert FencedAt(s, j, runtime);
    ServedAt(s, path, env, req, j);
    if s.jobs[j].path == path {
      LapseFences(s.dbs[path], env, req, path, s.jobs[j], s.shuttingDown, runtime);
    } else {
      assert Lapse(s.jobs[j], path, s.dbs[path], env.now) == s.jobs[j];
    }
  }

  lemma OthersFence(s: State, path: Text, env: Env, req: Request, runtime: Text)
    requires path in s.dbs && Inv(s.dbs[path]) && Possible(s.dbs[path], env, req) && Fences(s, runtime)
    requires ByOthers(env, req, runtime)
    ensures Fences(Served(s, path, env, req), runtime)
  {
    var s' := Served(s, path, env, req);
    forall j | j in s'.jobs
      ensures FencedAt(s', j, runtime)
    {
      assert FencedAt(s, j, runtime);
      ServedFences(s, path, env, req, runtime, j);
    }
  }

  /** A job's own transaction spares the claims of all other jobs. */
  lemma OtherJobsFenced(s: State, j: JobId, env: Env, req: Request, runtime: Text, k: JobId)
    requires Jobs(s) && Fences(s, runtime) && j in s.jobs && k in s.jobs && k != j
    requires CanTransact(s.jobs[j], req) && s.jobs[j].path in s.dbs
    requires Inv(s.dbs[s.jobs[j].path]) && Possible(s.dbs[s.jobs[j].path], env, req)
    ensures var s' := Served(s, s.jobs[j].path, env, req);
            k in s'.jobs && FencedAt(s', k, runtime)
  {
    if s.jobs[k].key.Some? {
      SparesOthers(s, j, env, req, k);
    }
    ServedFences(s, s.jobs[j].path, env, req, runtime, k);
  }

  lemma SparesOthers(s: State, j: JobId, env: Env, req: Request, k: JobId)
    requires Jobs(s) && j in s.jobs && k in s.jobs && k != j && CanTransact(s.jobs[j], req) && s.jobs[k].key.Some?
    ensures Spares(env, req, s.jobs[k].key.value)
  {
    assert !SameRun(s, j, k);
  }

  /** A transaction that is rolled back leaves the job's claim as it was. */
  lemma OwnRollback(db: Db, env: Env, req: Request)
    requires Transaction(db, env, req).Rollback?
    ensures Serve(db, env, req) == db
  {
  }

  /** What the job has after its own transaction. */
  lemma OwnFenced(s: State, j: JobId, env: Env, req: Request, again: bool, runtime: Text)
    requires Jobs(s) && Fences(s, runtime) && j in s.jobs && CanTransact(s.jobs[j], req) && s.jobs[j].path in s.dbs
    requires Inv(s.dbs[s.jobs[j].path]) && Possible(s.dbs[s.jobs[j].path], env, req) && env.runtime == runtime
    ensures var s' := TransactOn(s, j, env, req, again);
            FencedAt(s', j, runtime)
  {
    var path := s.jobs[j].path;
    var db := s.dbs[path];
    var db' := Serve(db, env, req);
    var committed := Transaction(db, env, req).Commit?;
    var job := Lapse(s.jobs[j], path, db, env.now);
    JobFact(s, j);
    assert FencedAt(s, j, runtime);
    LapseKeepsJob(s.jobs[j], job);
    CanStill(s.jobs[j], job, req);
    if Claims(req) {
      ReservationFenced(db, env, req, job, again, s.shuttingDown, runtime);
    } else if EndsOwn(req) && committed {
      EndedIsFenced(db', job, req, again, s.shuttingDown, runtime);
    } else {
      OwnServedFences(s, j, env, req, runtime);
      JobOkAfterLapse(s.jobs[j], job);
      KeptIsFenced(db', job, req, committed, again, s.shuttingDown, runtime);
    }
    OwnAfter(s, j, env, req, again);
  }

  lemma JobOkAfterLapse(job: Job, job': Job)
    requires JobOk(job) && SameButLapse(job, job')
    ensures JobOk(job')
  {
  }

  /** The job, its store and the flag after its transaction. */
  lemma OwnAfter(s: State, j: JobId, env: Env, req: Request, again: bool)
    requires j in s.jobs && CanTransact(s.jobs[j], req) && s.jobs[j].path in s.dbs
    ensures var path := s.jobs[j].path;
            var job := Lapse(s.jobs[j], path, s.dbs[path], env.now);
            var s' := TransactOn(s, j, env, req, again);
            && CanTransact(job, req) && j in s'.jobs && s'.shuttingDown == s.shuttingDown
            && s'.dbs == s.dbs[path := Serve(s.dbs[path], env, req)]
            && s'.jobs[j] == Transacted(job, req, Transaction(s.dbs[path], env, req).Commit?, again, Serve(s.dbs[path], env, req))
            && s'.jobs[j].path == path
  {
    var path := s.jobs[j].path;
    ServedAt(s, path, env, req, j);
    LapseKeepsJob(s.jobs[j], Lapse(s.jobs[j], path, s.dbs[path], env.now));
    CanStill(s.jobs[j], Lapse(s.jobs[j], path, s.dbs[path], env.now), req);
    SetAfter(s, Served(s, path, env, req), j, env, req, again);
  }

  lemma SetAfter(s: State, s1: State, j: JobId, env: Env, req: Request, again: bool)
    requires j in s.jobs && CanTransact(s.jobs[j], req) && s.jobs[j].path in s.dbs
    requires s1 == Served(s, s.jobs[j].path, env, req) && j in s1.jobs && CanTransact(s1.jobs[j], req) && s1.dbs.Keys == s.dbs.Keys
    ensures var s' := TransactOn(s, j, env, req, again);
            var committed := Transaction(s.dbs[s.jobs[j].path], env, req).Commit?;
            && s' == s1.(jobs := s1.jobs[j := Transacted(s1.jobs[j], req, committed, again, s1.dbs[s.jobs[j].path])])
            && s'.jobs[j].path == s1.jobs[j].path
  {
  }

  lemma ReservationFenced(db: Db, env: Env, req: Request, job: Job, again: bool, shuttingDown: bool, runtime: Text)
    requires Inv(db) && Possible(db, env, req) && env.runtime == runtime && CanTransact(job, req) && Claims(req)
    ensures Fenced(Serve(db, env, req),
                   Transacted(job, req, Transaction(db, env, req).Commit?, again, Serve(db, env, req)), shuttingDown, runtime)
  {
    if Transaction(db, env, req).Commit? {
      ReservationGives(db, env, req);
    }
    ClaimFenced(Serve(db, env, req), job, req, Transaction(db, env, req).Commit?, again, shuttingDown, runtime);
  }

  lemma ClaimFenced(db: Db, job: Job, req: Request, committed: bool, again: bool, shuttingDown: bool, runtime: Text)
    requires CanTransact(job, req) && Claims(req)
    requires committed ==> Target(req) in db.agents && db.agents[Target(req)].status.Held()
                           && db.agents[Target(req)].lease.Some? && db.agents[Target(req)].lease.value.runtime == runtime
    ensures Fenced(db, Transacted(job, req, committed, again, db), shuttingDown, runtime)
  {
  }

  lemma EndedIsFenced(db: Db, job: Job, req: Request, again: bool, shuttingDown: bool, runtime: Text)
    requires CanTransact(job, req) && EndsOwn(req) && job.key.value.runtime == runtime
    ensures Fenced(db, Transacted(job, req, true, again, db), shuttingDown, runtime)
  {
  }

  lemma KeptIsFenced(db: Db, job: Job, req: Request, committed: bool, again: bool, shuttingDown: bool, runtime: Text)
    requires JobOk(job) && CanTransact(job, req) && !Claims(req) && (EndsOwn(req) ==> !committed)
    requires Fenced(db, job, shuttingDown, runtime)
    ensures Fenced(db, Transacted(job, req, committed, again, db), shuttingDown, runtime)
  {
    TransactedCrosses(job, req, committed, again, db);
  }

  lemma OwnServedFences(s: State, j: JobId, env: Env, req: Request, runtime: Text)
    requires Fences(s, runtime) && j in s.jobs && s.jobs[j].path in s.dbs && CanTransact(s.jobs[j], req)
    requires Inv(s.dbs[s.jobs[j].path]) && Possible(s.dbs[s.jobs[j].path], env, req) && !Claims(req)
    requires EndsOwn(req) ==> Transaction(s.dbs[s.jobs[j].path], env, req).Rollback?
    ensures Fenced(Serve(s.dbs[s.jobs[j].path], env, req), Lapse(s.jobs[j], s.jobs[j].path, s.dbs[s.jobs[j].path], env.now),
                   s.shuttingDown, runtime)
  {
    var path := s.jobs[j].path;
    assert FencedAt(s, j, runtime);
    if EndsOwn(req) {
      OwnRollback(s.dbs[path], env, req);
      LapseKeepsJob(s.jobs[j], Lapse(s.jobs[j], path, s.dbs[path], env.now));
    } else {
      ServedFences(s, path, env, req, runtime, j);
    }
  }

  lemma TransactOther(s: State, j: JobId, env: Env, req: Request, again: bool, runtime: Text, k: JobId)
    requires j in s.jobs && CanTransact(s.jobs[j], req) && s.jobs[j].path in s.dbs && k in s.jobs && k != j
    requires k in Served(s, s.jobs[j].path, env, req).jobs && FencedAt(Served(s, s.jobs[j].path, env, req), k, runtime)
    ensures k in TransactOn(s, j, env, req, again).jobs && FencedAt(TransactOn(s, j, env, req, again), k, runtime)
  {
    ServedIsRelapsed(s, s.jobs[j].path, env, req);
    CanStill(s.jobs[j], Served(s, s.jobs[j].path, env, req).jobs[j], req);
    TransactOnIs(s, j, env, req, again);
  }

  lemma TransactKeys(s: State, j: JobId, env: Env, req: Request, again: bool)
    requires j in s.jobs && CanTransact(s.jobs[j], req) && s.jobs[j].path in s.dbs
    ensures TransactOn(s, j, env, req, again).jobs.Keys == s.jobs.Keys
  {
  }

  lemma TransactFences(s: State, j: JobId, env: Env, req: Request, again: bool, runtime: Text)
    requires Jobs(s) && Fences(s, runtime) && j in s.jobs && CanTransact(s.jobs[j], req) && s.jobs[j].path in s.dbs
    requires Inv(s.dbs[s.jobs[j].path]) && Possible(s.dbs[s.jobs[j].path], env, req) && env.runtime == runtime
    ensures Fences(TransactOn(s, j, env, req, again), runtime)
  {
    TransactKeys(s, j, env, req, again);
    forall k | k in s.jobs
      ensures k in TransactOn(s, j, env, req, again).jobs && FencedAt(TransactOn(s, j, env, req, again), k, runtime)
    {
      TransactFencesAt(s, j, env, req, again, runtime, k);
    }
  }

  lemma TransactFencesAt(s: State, j: JobId, env: Env, req: Request, again: bool, runtime: Text, k: JobId)
    requires Jobs(s) && Fences(s, runtime) && j in s.jobs && CanTransact(s.jobs[j], req) && s.jobs[j].path in s.dbs
    requires Inv(s.dbs[s.jobs[j].path]) && Possible(s.dbs[s.jobs[j].path], env, req) && env.runtime == runtime && k in s.jobs
    ensures k in TransactOn(s, j, env, req, again).jobs && FencedAt(TransactOn(s, j, env, req, again), k, runtime)
  {
    if k == j {
      OwnFenced(s, j, env, req, again, runtime);
    } else {
      OtherJobsFenced(s, j, env, req, runtime, k);
      TransactOther(s, j, env, req, again, runtime, k);
    }
  }

  // --- the shutdown ----------------------------------------------------------

  /** When the stores are interrupted, no claim is in play any more. */
  lemma NothingInPlay(s: State, j: JobId)
    requires Jobs(s) && Drains(s) && Rank(s.shutdown) >= 8 && j in s.jobs
    ensures !InPlay(s.jobs[j], s.shuttingDown)
  {
    JobFact(s, j);
  }

  lemma InterruptFences(s: State, h: Halt, runtime: Text)
    requires Jobs(s) && Drains(s) && Fences(s, runtime) && CanHalt(s, h, runtime) && h.InterruptStore?
    ensures Fences(HaltOn(s, h, runtime), runtime)
  {
    var s' := HaltOn(s, h, runtime);
    forall j | j in s'.jobs
      ensures FencedAt(s', j, runtime)
    {
      assert FencedAt(s, j, runtime);
      NothingInPlay(s, j);
      ServedAt(s, h.path, h.env, InterruptRuntime(h.message), j);
      LapseKeepsJob(s.jobs[j], s'.jobs[j]);
    }
  }

  lemma CancelFences(s: State, h: Halt, runtime: Text)
    requires Fences(s, runtime) && CanCancelTask(s, h)
    ensures Fences(TaskCanceled(s, h), runtime)
  {
    CanceledFrame(s, h);
    assert FencedAt(s, h.j, runtime);
    SetJobFences(s, TaskCanceled(s, h), h.j, runtime);
  }

  lemma HaltFences(s: State, h: Halt, runtime: Text)
    requires Fences(s, runtime) && CanHalt(s, h, runtime) && !h.InterruptStore? && !Cancels(h)
    ensures Fences(HaltOn(s, h, runtime), runtime)
  {
    var s' := HaltOn(s, h, runtime);
    HaltFrame(s, h, runtime);
    forall j | j in s'.jobs
      ensures FencedAt(s', j, runtime)
    {
      assert FencedAt(s, j, runtime);
    }
  }

  lemma HaltsFence(s: State, h: Halt, runtime: Text)
    requires Jobs(s) && Drains(s) && Fences(s, runtime) && CanHalt(s, h, runtime)
    ensures Fences(HaltOn(s, h, runtime), runtime)
  {
    if h.InterruptStore? {
      InterruptFences(s, h, runtime);
    } else if Cancels(h) {
      CancelFences(s, h, runtime);
    } else {
      HaltFences(s, h, runtime);
    }
  }

  lemma ReserveFences(s: State, j: JobId, path: Text, runtime: Text)
    requires Fences(s, runtime) && path in s.dbs
    ensures Fences(s.(jobs := s.jobs[j := NewJob(path)], reservations := s.reservations + {j}), runtime)
  {
    var s' := s.(jobs := s.jobs[j := NewJob(path)], reservations := s.reservations + {j});
    forall k | k in s'.jobs
      ensures FencedAt(s', k, runtime)
    {
      assert k in s.jobs ==> FencedAt(s, k, runtime);
    }
  }

  lemma OpenFences(s: State, path: Text, runtime: Text)
    requires Fences(s, runtime)
    ensures Fences(s.(stores := s.stores + {path}), runtime)
  {
    var s' := s.(stores := s.stores + {path});
    forall k | k in s'.jobs
      ensures FencedAt(s', k, runtime)
    {
      assert FencedAt(s, k, runtime);
    }
  }

  lemma TransactStepFences(s: State, step: Step, runtime: Text)
    requires Jobs(s) && Databases(s, runtime) && Fences(s, runtime) && Enabled(s, step, runtime)
    requires step.JobTransacts? || step.OthersTransact?
    ensures Fences(Do(s, step, runtime), runtime)
  {
    if step.JobTransacts? {
      TransactFences(s, step.j, step.env, step.req, step.again, runtime);
    } else {
      OthersFence(s, step.path, step.env, step.req, runtime);
    }
  }

  /** Every step keeps every claim in play held, unless its own job ends it or its
      lease runs out. */
  lemma StepFences(s: State, step: Step, runtime: Text)
    requires Sound(s, runtime) && Fences(s, runtime) && Enabled(s, step, runtime)
    ensures Fences(Do(s, step, runtime), runtime)
  {
    match step
    case OpenStore(path) => OpenFences(s, path, runtime);
    case Reserve(j, path) => if !s.shuttingDown { ReserveFences(s, j, path, runtime); }
    case JobActs(j, act) => ActFences(s, j, act, runtime);
    case JobTransacts(_, _, _, _) => TransactStepFences(s, step, runtime);
    case OthersTransact(_, _, _) => TransactStepFences(s, step, runtime);
    case ShutdownActs(h) => HaltsFence(s, h, runtime);
  }

  lemma InitialFences(s: State, runtime: Text)
    requires Initial(s, runtime)
    ensures Fences(s, runtime)
  {
  }

  lemma {:induction false} RunFences(states: seq<State>, steps: seq<Step>, runtime: Text)
    requires Run(states, steps, runtime)
    ensures Sound(states[|steps|], runtime) && Fences(states[|steps|], runtime)
  {
    if steps == [] {
      InitialSound(states[0], runtime);
      InitialFences(states[0], runtime);
    } else {
      var n := |steps| - 1;
      TraceTake(states, steps, runtime, n);
      RunFences(states[..n + 1], steps[..n], runtime);
      assert steps[n] == steps[|steps| - 1];
      StepSound(states[n], steps[n], runtime);
      StepFences(states[n], steps[n], runtime);
    }
  }

  /** While the client of a run is open, its answer is not recorded and its lease has
      not run out, the run holds its agent: there is no later generation. */
  lemma OpenClientHoldsClaim(states: seq<State>, steps: seq<Step>, runtime: Text, j: JobId)
    requires Run(states, steps, runtime) && j in states[|steps|].jobs
    requires var job := states[|steps|].jobs[j]; job.client.Held? && !job.completed && !job.lapsed
    ensures var s := states[|steps|];
            && s.jobs[j].key.Some? && s.jobs[j].path in s.dbs
            && Holding(s.dbs[s.jobs[j].path], s.jobs[j].key.value)
  {
    RunFences(states, steps, runtime);
    OpenClientIsFenced(states[|steps|], runtime, j);
  }

  lemma OpenClientIsFenced(s: State, runtime: Text, j: JobId)
    requires Jobs(s) && Fences(s, runtime) && j in s.jobs
    requires s.jobs[j].client.Held? && !s.jobs[j].completed && !s.jobs[j].lapsed
    ensures s.jobs[j].key.Some? && s.jobs[j].path in s.dbs && Holding(s.dbs[s.jobs[j].path], s.jobs[j].key.value)
  {
    JobFact(s, j);
    assert FencedAt(s, j, runtime);
  }

  /** So the store refuses to claim the agent again. */
  lemma HeldIsNotClaimed(db: Db, env: Env, key: LeaseKey, owner: Text, r: Id, token: Text, task: Text)
    requires Inv(db) && IsScan(env.scan, db.agents) && Holding(db, key)
    requires env.now < db.agents[key.agent].lease.value.expires
    ensures Transaction(db, env, Claim(owner, key.agent, r, token, task)).Rollback?
  {
    ReconcileKeepsClaim(db, env, key.agent);
    CommitNeedsBody(db, env, Claim(owner, key.agent, r, token, task));
    ClaimOfHeld(Mid(db, env), env, owner, key.agent, r, token, task);
  }

  lemma ClaimOfHeld(db: Db, env: Env, owner: Text, a: Id, r: Id, token: Text, task: Text)
    requires a in db.agents && db.agents[a].status.Held()
    ensures Body(db, env, Claim(owner, a, r, token, task)).Rollback?
  {
  }

  /** The step commits a new generation of an agent. */
  ghost predicate ClaimsAgent(s: State, step: Step, path: Text, a: Id) {
    match step
    case JobTransacts(k, env, req, _) => k in s.jobs && s.jobs[k].path == path && CommitsClaim(s, path, env, req, a)
    case OthersTransact(p, env, req) => p == path && CommitsClaim(s, path, env, req, a)
    case _ => false
  }

  ghost predicate CommitsClaim(s: State, path: Text, env: Env, req: Request, a: Id) {
    path in s.dbs && Claims(req) && Target(req) == a && Transaction(s.dbs[path], env, req).Commit?
  }

  lemma HeldIsNotTaken(db: Db, env: Env, req: Request, key: LeaseKey)
    requires Inv(db) && Possible(db, env, req) && Holding(db, key) && Claims(req) && Target(req) == key.agent
    requires env.now < db.agents[key.agent].lease.value.expires
    ensures Transaction(db, env, req).Rollback?
  {
    if req.Claim? {
      HeldIsNotClaimed(db, env, key, req.owner, req.r, req.token, req.task);
    }
  }

  /** A lease that is not found to have run out stood at the time of the transaction. */
  lemma UnlapsedStands(job: Job, db: Db, now: real)
    requires job.key.Some? && Holding(db, job.key.value) && !Lapse(job, job.path, db, now).lapsed
    ensures now < db.agents[job.key.value.agent].lease.value.expires
  {
  }

  lemma OthersDoNotClaim(s: State, env: Env, req: Request, j: JobId)
    requires j in s.jobs && s.jobs[j].key.Some? && s.jobs[j].path in s.dbs
    requires Inv(s.dbs[s.jobs[j].path]) && Possible(s.dbs[s.jobs[j].path], env, req)
    requires Holding(s.dbs[s.jobs[j].path], s.jobs[j].key.value)
    requires !Lapse(s.jobs[j], s.jobs[j].path, s.dbs[s.jobs[j].path], env.now).lapsed
    ensures !CommitsClaim(s, s.jobs[j].path, env, req, s.jobs[j].key.value.agent)
  {
    var db, key := s.dbs[s.jobs[j].path], s.jobs[j].key.value;
    if Claims(req) && Target(req) == key.agent {
      UnlapsedStands(s.jobs[j], db, env.now);
      HeldIsNotTaken(db, env, req, key);
    }
  }

  lemma StepDoesNotClaim(s: State, step: Step, runtime: Text, j: JobId)
    requires Enabled(s, step, runtime) && j in s.jobs && s.jobs[j].key.Some? && s.jobs[j].path in s.dbs
    requires Inv(s.dbs[s.jobs[j].path])
    requires Holding(s.dbs[s.jobs[j].path], s.jobs[j].key.value)
    requires j in Do(s, step, runtime).jobs && !Do(s, step, runtime).jobs[j].lapsed
    ensures !ClaimsAgent(s, step, s.jobs[j].path, s.jobs[j].key.value.agent)
  {
    match step
    case JobTransacts(k, env, req, again) =>
      JobDoesNotClaim(s, k, env, req, again, j);
    case OthersTransact(path, env, req) => ServedDoesNotClaim(s, path, env, req, j);
    case _ =>
  }

  lemma ServedDoesNotClaim(s: State, path: Text, env: Env, req: Request, j: JobId)
    requires j in s.jobs && s.jobs[j].key.Some? && s.jobs[j].path in s.dbs && path in s.dbs
    requires Inv(s.dbs[s.jobs[j].path]) && Possible(s.dbs[path], env, req)
    requires Holding(s.dbs[s.jobs[j].path], s.jobs[j].key.value)
    requires j in Served(s, path, env, req).jobs && !Served(s, path, env, req).jobs[j].lapsed
    ensures path == s.jobs[j].path ==> !CommitsClaim(s, s.jobs[j].path, env, req, s.jobs[j].key.value.agent)
  {
    if path == s.jobs[j].path {
      ServedAt(s, path, env, req, j);
      OthersDoNotClaim(s, env, req, j);
    }
  }

  lemma JobDoesNotClaim(s: State, k: JobId, env: Env, req: Request, again: bool, j: JobId)
    requires j in s.jobs && s.jobs[j].key.Some? && s.jobs[j].path in s.dbs && k in s.jobs && s.jobs[k].path in s.dbs
    requires Inv(s.dbs[s.jobs[j].path]) && CanTransact(s.jobs[k], req) && Possible(s.dbs[s.jobs[k].path], env, req)
    requires Holding(s.dbs[s.jobs[j].path], s.jobs[j].key.value)
    requires j in TransactOn(s, k, env, req, again).jobs && !TransactOn(s, k, env, req, again).jobs[j].lapsed
    ensures s.jobs[k].path == s.jobs[j].path ==>
              !CommitsClaim(s, s.jobs[j].path, env, req, s.jobs[j].key.value.agent)
  {
    if s.jobs[k].path == s.jobs[j].path && k != j {
      OthersTransactionLapses(s, k, env, req, again, j);
      OthersDoNotClaim(s, env, req, j);
    }
  }

  lemma OthersTransactionLapses(s: State, k: JobId, env: Env, req: Request, again: bool, j: JobId)
    requires k in s.jobs && j in s.jobs && k != j && CanTransact(s.jobs[k], req) && s.jobs[k].path in s.dbs
    ensures var path, s' := s.jobs[k].path, TransactOn(s, k, env, req, again);
            j in s'.jobs && s'.jobs[j] == Lapse(s.jobs[j], path, s.dbs[path], env.now)
  {
    ServedAt(s, s.jobs[k].path, env, req, j);
  }

  /** No later generation is claimed before the client has closed: at no step of a run,
      unless its answer is recorded or its lease has run out. */
  lemma NoClaimUnderOpenClient(states: seq<State>, steps: seq<Step>, runtime: Text, i: nat, j: JobId)
    requires Run(states, steps, runtime) && i < |steps| && j in states[i].jobs && j in states[i + 1].jobs
    requires states[i].jobs[j].client.Held? && !states[i].jobs[j].completed && !states[i + 1].jobs[j].lapsed
    ensures states[i].jobs[j].key.Some?
    ensures !ClaimsAgent(states[i], steps[i], states[i].jobs[j].path, states[i].jobs[j].key.value.agent)
  {
    TraceTake(states, steps, runtime, i);
    RunFences(states[..i + 1], steps[..i], runtime);
    OpenStepDoesNotClaim(states[i], steps[i], runtime, j);
  }

  lemma OpenStepDoesNotClaim(s: State, step: Step, runtime: Text, j: JobId)
    requires Sound(s, runtime) && Fences(s, runtime) && Enabled(s, step, runtime) && j in s.jobs
    requires s.jobs[j].client.Held? && !s.jobs[j].completed
    requires j in Do(s, step, runtime).jobs && !Do(s, step, runtime).jobs[j].lapsed
    ensures s.jobs[j].key.Some? && !ClaimsAgent(s, step, s.jobs[j].path, s.jobs[j].key.value.agent)
  {
    JobGrows(s, step, runtime, j);
    OpenClientIsFenced(s, runtime, j);
    StepDoesNotClaim(s, step, runtime, j);
  }

  /** The host's lease is given back only after the client has closed, and a cleanup
      that is done has given it back. */
  lemma LeaseOutlivesClient(states: seq<State>, steps: seq<Step>, runtime: Text, j: JobId)
    requires Run(states, steps, runtime) && j in states[|steps|].jobs
    ensures var job := states[|steps|].jobs[j];
            && (job.background.Given? ==> !job.client.Held?)
            && (job.cleanup.CleanedUp? ==> !job.background.Held? && !job.client.Held?)
  {
    RunSound(states, steps, runtime);
    ResourcesInOrder(states[|steps|], j);
  }

  lemma ResourcesInOrder(s: State, j: JobId)
    requires Jobs(s) && j in s.jobs
    ensures var job := s.jobs[j];
            && (job.background.Given? ==> !job.client.Held?)
            && (job.cleanup.CleanedUp? ==> !job.background.Held? && !job.client.Held?)
  {
    JobFact(s, j);
  }
}

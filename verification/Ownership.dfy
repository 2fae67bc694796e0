/** Who owns what: the runtime's maps always list exactly the goroutines between the
    critical sections that enter and leave them, and the shutdown drains them all. */
module Ownership {
  import opened Texts
  import opened Types
  import opened Transactions
  import opened Fencing
  import opened Protocol

  // --- one job ---------------------------------------------------------------

  /** A call that has not got as far as owning a run. */
  predicate BeforeOwning(pc: CallPc) {
    InReservation(pc) || pc.Closing? || pc.Gap? || pc.Preparing?
  }

  predicate KeyNeeded(pc: CallPc) {
    !pc.Reserving? && !pc.Returned? && pc != Leaving(false) && pc != Closing(false)
  }

  /** The setup, the runner and the cleanup of a claim hand it on one after the other. */
  predicate Handover(job: Job) {
    && (KeyNeeded(job.pc) || !job.runner.NoRunner? || !job.cleanup.NoCleanup? ==> job.key.Some?)
    && (!job.runner.NoRunner? ==> job.pc.SetupLeaving? || job.pc.SetupClosing? || job.pc.Returned?)
    && (RunnerLive(job.runner) && !job.runner.AwaitingCleanup? ==> job.cleanup.NoCleanup?)
    && (job.runner.AwaitingCleanup? ==> !job.cleanup.NoCleanup?)
    && (job.runner.Finished? ==> job.cleanup.CleanedUp?)
    && (job.pc.AwaitingSetupCleanup? ==> !job.cleanup.NoCleanup?)
    && (BeforeOwning(job.pc) || (OwnedBySetup(job.pc) && !job.pc.AwaitingSetupCleanup?) ==> job.cleanup.NoCleanup?)
    && (job.runner.NoRunner? && (job.pc.SetupLeaving? || job.pc.SetupClosing?) ==> job.cleanup.CleanedUp?)
    && (job.runner.NoRunner? && job.pc.Returned? ==> job.cleanup.NoCleanup? || job.cleanup.CleanedUp?)
  }

  /** The client is closed before the outcome is written, and the host's lease is
      released after that. */
  predicate Resources(job: Job) {
    && (job.client.Held? ==> RunnerLive(job.runner) && Progress(job.cleanup) <= 1)
    && (job.background.Held? ==> (OwnedBySetup(job.pc) || RunnerLive(job.runner)) && Progress(job.cleanup) <= 5)
    && (job.background.Given? ==> Progress(job.cleanup) >= 6)
  }

  /** Only a recorded answer ends a claim under an open client. */
  predicate History(job: Job) {
    && (job.client.Held? || (!job.runner.NoRunner? && job.cleanup.NoCleanup?) ==> (job.ended ==> job.completed))
    && (OwnedBySetup(job.pc) && !job.pc.AwaitingSetupCleanup? ==> !job.ended)
    && (job.completed ==> job.runner.Ending? || job.runner.AwaitingCleanup? || job.runner.Finished?)
    && (Accepted(job.pc) ==> !job.ended)
  }

  /** On the way to a launch. */
  predicate Accepted(pc: CallPc) {
    || pc.Reserving? || pc.Judging? || pc.Compensating? || pc == Leaving(true) || pc == Closing(true)
    || pc.Gap? || pc.Preparing?
  }

  predicate JobOk(job: Job) { Handover(job) && Resources(job) && History(job) }

  lemma CallKeepsHandover(job: Job, c: CallAct, shuttingDown: bool)
    requires Handover(job) && CanCall(job, c)
    ensures Handover(CallStep(job, c, shuttingDown))
  {
  }

  lemma CallKeepsResources(job: Job, c: CallAct, shuttingDown: bool)
    requires Handover(job) && Resources(job) && CanCall(job, c)
    ensures Resources(CallStep(job, c, shuttingDown))
  {
  }

  lemma CallKeepsHistory(job: Job, c: CallAct, shuttingDown: bool)
    requires Handover(job) && Resources(job) && History(job) && CanCall(job, c)
    ensures History(CallStep(job, c, shuttingDown))
  {
  }

  lemma RunnerKeepsHandover(job: Job, r: RunnerAct)
    requires Handover(job) && CanRun(job, r)
    ensures Handover(RunnerStep(job, r))
  {
  }

  lemma RunnerKeepsResources(job: Job, r: RunnerAct)
    requires Handover(job) && Resources(job) && CanRun(job, r)
    ensures Resources(RunnerStep(job, r))
  {
  }

  lemma RunnerKeepsHistory(job: Job, r: RunnerAct)
    requires Handover(job) && Resources(job) && History(job) && CanRun(job, r)
    ensures History(RunnerStep(job, r))
  {
  }

  lemma CleanupKeepsHandover(job: Job, k: CleanupAct)
    requires Handover(job) && CanClean(job, k)
    ensures Handover(CleanupStep(job, k))
  {
  }

  lemma CleanupKeepsResources(job: Job, k: CleanupAct)
    requires Handover(job) && Resources(job) && CanClean(job, k)
    ensures Resources(CleanupStep(job, k))
  {
  }

  lemma CleanupKeepsHistory(job: Job, k: CleanupAct)
    requires Handover(job) && Resources(job) && History(job) && CanClean(job, k)
    ensures History(CleanupStep(job, k))
  {
  }

  lemma CallKeepsJob(job: Job, c: CallAct, shuttingDown: bool)
    requires JobOk(job) && CanCall(job, c)
    ensures JobOk(CallStep(job, c, shuttingDown))
  {
    CallKeepsHandover(job, c, shuttingDown);
    CallKeepsResources(job, c, shuttingDown);
    CallKeepsHistory(job, c, shuttingDown);
  }

  lemma RunnerKeepsJob(job: Job, r: RunnerAct)
    requires JobOk(job) && CanRun(job, r)
    ensures JobOk(RunnerStep(job, r))
  {
    RunnerKeepsHandover(job, r);
    RunnerKeepsResources(job, r);
    RunnerKeepsHistory(job, r);
  }

  lemma CleanupKeepsJob(job: Job, k: CleanupAct)
    requires JobOk(job) && CanClean(job, k)
    ensures JobOk(CleanupStep(job, k))
  {
    CleanupKeepsHandover(job, k);
    CleanupKeepsResources(job, k);
    CleanupKeepsHistory(job, k);
  }

  lemma CancelKeepsJob(job: Job, w: CancelAct)
    requires JobOk(job)
    ensures JobOk(CancelStep(job, w))
  {
  }

  lemma ActKeepsJob(job: Job, act: Act, shuttingDown: bool)
    requires JobOk(job) && CanAct(job, act)
    ensures JobOk(AfterAct(job, act, shuttingDown))
  {
    match act
    case Call(c) => CallKeepsJob(job, c, shuttingDown);
    case Runner(r) => RunnerKeepsJob(job, r);
    case Clean(k) => CleanupKeepsJob(job, k);
    case Cancel(w) => CancelKeepsJob(job, w);
  }

  lemma EndingKeepsHandover(job: Job, completing: bool, committed: bool)
    requires Handover(job) && CanEnd(job, completing)
    ensures Handover(AfterEnding(job, completing, committed))
  {
  }

  lemma EndingKeepsResources(job: Job, completing: bool, committed: bool)
    requires Resources(job) && CanEnd(job, completing)
    ensures Resources(AfterEnding(job, completing, committed))
  {
  }

  lemma EndingKeepsHistory(job: Job, completing: bool, committed: bool)
    requires JobOk(job) && CanEnd(job, completing)
    ensures History(AfterEnding(job, completing, committed))
  {
  }

  /** A compensation happens before anything is owned. */
  lemma CompensationKeeps(job: Job, committed: bool)
    requires Handover(job) && job.pc.Compensating?
    ensures Keeps(job, AfterEnding(job, false, committed))
  {
  }

  lemma AnswerKeeps(job: Job, committed: bool)
    requires job.runner.Answered? && !job.pc.Compensating?
    ensures Keeps(job, AfterEnding(job, false, committed))
  {
  }

  lemma CleanupWriteKeeps(job: Job, completing: bool, committed: bool)
    requires if completing then job.cleanup.Completing? else job.cleanup.Writing?
    requires completing || (!job.runner.Answered? && !job.pc.Compensating?)
    ensures Keeps(job, AfterEnding(job, completing, committed))
  {
  }

  lemma EndingKeeps(job: Job, completing: bool, committed: bool)
    requires Handover(job) && CanEnd(job, completing)
    ensures Keeps(job, AfterEnding(job, completing, committed))
  {
    if !completing && job.pc.Compensating? {
      CompensationKeeps(job, committed);
    } else if !completing && job.runner.Answered? {
      AnswerKeeps(job, committed);
    } else {
      CleanupWriteKeeps(job, completing, committed);
    }
  }

  lemma Endings(job: Job, req: Request)
    requires CanTransact(job, req)
    ensures !Claims(req) && !req.Heartbeat? ==> CanEnd(job, req.CompleteCancel?)
  {
  }

  /** Listed in the same maps. */
  predicate Keeps(job: Job, job': Job) {
    && job'.path == job.path
    && InReservation(job'.pc) == InReservation(job.pc) && InSetup(job'.pc) == InSetup(job.pc)
    && InCleanup(job'.cleanup) == InCleanup(job.cleanup) && IsOwned(job') == IsOwned(job)
  }

  lemma TransactedKeepsJob(job: Job, req: Request, committed: bool, again: bool, db: Db)
    requires JobOk(job) && CanTransact(job, req)
    ensures JobOk(Transacted(job, req, committed, again, db))
  {
    Endings(job, req);
    if !Claims(req) && !req.Heartbeat? {
      EndingKeepsHandover(job, req.CompleteCancel?, committed);
      EndingKeepsResources(job, req.CompleteCancel?, committed);
      EndingKeepsHistory(job, req.CompleteCancel?, committed);
    }
  }

  // --- the maps --------------------------------------------------------------

  /** Each map lists a job exactly while its goroutines are between the two critical
      sections that enter and leave it there. */
  predicate Listed(s: State, j: JobId)
    requires j in s.jobs
  {
    var job := s.jobs[j];
    && (j in s.reservations <==> InReservation(job.pc))
    && (j in s.setupTasks <==> InSetup(job.pc))
    && (j in s.cleanupTasks <==> InCleanup(job.cleanup))
    && (job.key.Some? ==> (IsOwned(job) <==> RunKeyOf(job) in s.ownedRuns && s.ownedRuns[RunKeyOf(job)] == j))
  }

  ghost predicate SameRun(s: State, j: JobId, k: JobId)
    requires j in s.jobs && k in s.jobs
  {
    s.jobs[j].key.Some? && s.jobs[k].key.Some? && s.jobs[j].key.value.run == s.jobs[k].key.value.run
  }

  ghost predicate Jobs(s: State) {
    && (forall j {:trigger s.jobs[j]} | j in s.jobs :: JobOk(s.jobs[j]) && s.jobs[j].path in s.stores)
    && (forall j {:trigger Listed(s, j)} | j in s.jobs :: Listed(s, j))
    && s.stores <= s.dbs.Keys
    && s.reservations <= s.jobs.Keys && s.setupTasks <= s.jobs.Keys && s.cleanupTasks <= s.jobs.Keys
    && (forall key {:trigger s.ownedRuns[key]} | key in s.ownedRuns ::
          s.ownedRuns[key] in s.jobs && s.jobs[s.ownedRuns[key]].key.Some? && RunKeyOf(s.jobs[s.ownedRuns[key]]) == key)
    && (forall j, k {:trigger SameRun(s, j, k)} | j in s.jobs && k in s.jobs && SameRun(s, j, k) :: j == k)
  }

  lemma JobFact(s: State, j: JobId)
    requires Jobs(s) && j in s.jobs
    ensures JobOk(s.jobs[j]) && Listed(s, j) && s.jobs[j].path in s.stores
  {
    assert Listed(s, j);
  }

  lemma OtherRun(s: State, j: JobId, k: JobId)
    requires Jobs(s) && j in s.jobs && k in s.jobs && j != k && s.jobs[j].key.Some? && s.jobs[k].key.Some?
    ensures RunKeyOf(s.jobs[j]) != RunKeyOf(s.jobs[k])
  {
    assert !SameRun(s, j, k);
  }

  /** Which critical sections enter and leave which map. */
  predicate Crosses(job: Job, job': Job, act: Act, shuttingDown: bool) {
    && job'.key == job.key && job'.path == job.path
    && InReservation(job'.pc) == (InReservation(job.pc) && act != Call(Unreserve))
    && InSetup(job'.pc) == ((InSetup(job.pc) && act != Call(LeaveSetup)) || (act == Call(Prepare) && !shuttingDown))
    && InCleanup(job'.cleanup) == ((InCleanup(job.cleanup) && act != Clean(DeleteCleanup)) || StartsCleanup(act))
    && IsOwned(job') == ((IsOwned(job) && act != Clean(Release)) || TakesOwnership(job, act))
    && (IsOwned(job') ==> job.key.Some?)
  }

  lemma CallCrossesPc(job: Job, c: CallAct, shuttingDown: bool)
    requires CanCall(job, c)
    ensures var pc, pc' := job.pc, CallStep(job, c, shuttingDown).pc;
            && (InReservation(pc') <==> InReservation(pc) && c != Unreserve)
            && (InSetup(pc') <==> (InSetup(pc) && c != LeaveSetup) || (c == Prepare && !shuttingDown))
  {
    match c
    case Judge(_) =>
    case Prepare =>
    case Check =>
    case Launch =>
    case FailSetup =>
    case _ =>
  }

  lemma CallCrossesOwned(job: Job, c: CallAct, shuttingDown: bool)
    requires Handover(job) && CanCall(job, c)
    ensures var job' := CallStep(job, c, shuttingDown);
            && job'.key == job.key && job'.path == job.path
            && (InCleanup(job'.cleanup) <==> InCleanup(job.cleanup) || c == StartSetupCleanup)
            && (IsOwned(job') <==> IsOwned(job) || c == Own || (c == Launch && !job.setupCanceled))
            && (IsOwned(job') ==> job.key.Some?)
  {
    match c
    case Own =>
    case Launch =>
    case StartSetupCleanup =>
    case SetupCleanedUp =>
    case FailSetup =>
    case _ =>
  }

  lemma CallCrosses(job: Job, c: CallAct, shuttingDown: bool)
    requires Handover(job) && CanCall(job, c)
    ensures Crosses(job, CallStep(job, c, shuttingDown), Call(c), shuttingDown)
  {
    CallCrossesPc(job, c, shuttingDown);
    CallCrossesOwned(job, c, shuttingDown);
  }

  lemma RunnerCrosses(job: Job, r: RunnerAct, shuttingDown: bool)
    requires Handover(job) && CanRun(job, r)
    ensures Crosses(job, RunnerStep(job, r), Runner(r), shuttingDown)
  {
  }

  lemma CleanupCrosses(job: Job, k: CleanupAct, shuttingDown: bool)
    requires Handover(job) && CanClean(job, k)
    ensures Crosses(job, CleanupStep(job, k), Clean(k), shuttingDown)
  {
  }

  lemma CancelCrosses(job: Job, w: CancelAct, shuttingDown: bool)
    requires Handover(job)
    ensures Crosses(job, CancelStep(job, w), Act.Cancel(w), shuttingDown)
  {
  }

  lemma ActCrosses(job: Job, act: Act, shuttingDown: bool)
    requires JobOk(job) && CanAct(job, act)
    ensures Crosses(job, AfterAct(job, act, shuttingDown), act, shuttingDown)
  {
    match act
    case Call(c) => CallCrosses(job, c, shuttingDown);
    case Runner(r) => RunnerCrosses(job, r, shuttingDown);
    case Clean(k) => CleanupCrosses(job, k, shuttingDown);
    case Cancel(w) => CancelCrosses(job, w, shuttingDown);
  }

  lemma MovedListsSelf(s: State, j: JobId, act: Act, job': Job)
    requires j in s.jobs && Listed(s, j) && Crosses(s.jobs[j], job', act, s.shuttingDown)
    ensures Listed(Moved(s, j, act, job'), j)
  {
  }

  lemma MovedListsOther(s: State, j: JobId, act: Act, job': Job, k: JobId)
    requires j in s.jobs && k in s.jobs && j != k && Listed(s, k)
    requires s.jobs[j].key.Some? && s.jobs[k].key.Some? ==> RunKeyOf(s.jobs[j]) != RunKeyOf(s.jobs[k])
    ensures Listed(Moved(s, j, act, job'), k)
  {
  }

  lemma SameKeysKept(s: State, s': State)
    requires Jobs(s) && s'.jobs.Keys == s.jobs.Keys
    requires forall k | k in s.jobs :: s'.jobs[k].key == s.jobs[k].key
    ensures forall j, k {:trigger SameRun(s', j, k)} | j in s'.jobs && k in s'.jobs && SameRun(s', j, k) :: j == k
  {
    forall j, k | j in s'.jobs && k in s'.jobs && SameRun(s', j, k)
      ensures j == k
    {
      assert SameRun(s, j, k);
    }
  }

  /** What a control step leaves alone. */
  lemma MovedFrame(s: State, j: JobId, act: Act, job': Job)
    requires j in s.jobs
    ensures var s' := Moved(s, j, act, job');
            && s'.dbs == s.dbs && s'.stores == s.stores && s'.shuttingDown == s.shuttingDown && s'.shutdown == s.shutdown
            && s'.jobs == s.jobs[j := job']
            && s'.reservations <= s.reservations && s'.setupTasks <= s.setupTasks + {j}
            && s'.cleanupTasks <= s.cleanupTasks + {j}
            && (forall key | key in s'.ownedRuns ::
                  || (s.jobs[j].key.Some? && key == RunKeyOf(s.jobs[j]) && s'.ownedRuns[key] == j)
                  || (key in s.ownedRuns && s'.ownedRuns[key] == s.ownedRuns[key]))
  {
  }

  lemma MovedLists(s: State, j: JobId, act: Act, job': Job, k: JobId)
    requires Jobs(s) && j in s.jobs && Crosses(s.jobs[j], job', act, s.shuttingDown) && k in s.jobs
    ensures Listed(Moved(s, j, act, job'), k)
  {
    JobFact(s, j);
    JobFact(s, k);
    if k == j {
      MovedListsSelf(s, j, act, job');
    } else {
      if s.jobs[j].key.Some? && s.jobs[k].key.Some? {
        OtherRun(s, j, k);
      }
      MovedListsOther(s, j, act, job', k);
    }
  }

  lemma MovedKeepsJobs(s: State, j: JobId, act: Act, job': Job)
    requires Jobs(s) && j in s.jobs && JobOk(job') && Crosses(s.jobs[j], job', act, s.shuttingDown)
    ensures Jobs(Moved(s, j, act, job'))
  {
    forall k | k in s.jobs
      ensures Listed(Moved(s, j, act, job'), k)
    {
      MovedLists(s, j, act, job', k);
    }
    MovedFrame(s, j, act, job');
    JobFact(s, j);
    ReplacedKeepsJobs(s, Moved(s, j, act, job'), j, job');
  }

  lemma ReplacedKeepsJobs(s: State, s': State, j: JobId, job': Job)
    requires Jobs(s) && j in s.jobs && JobOk(job') && job'.key == s.jobs[j].key && job'.path == s.jobs[j].path
    requires s'.jobs == s.jobs[j := job'] && s'.dbs == s.dbs && s'.stores == s.stores
    requires forall k | k in s.jobs :: Listed(s', k)
    requires s'.reservations <= s.reservations && s'.setupTasks <= s.setupTasks + {j} && s'.cleanupTasks <= s.cleanupTasks + {j}
    requires forall key | key in s'.ownedRuns ::
               || (s.jobs[j].key.Some? && key == RunKeyOf(s.jobs[j]) && s'.ownedRuns[key] == j)
               || (key in s.ownedRuns && s'.ownedRuns[key] == s.ownedRuns[key])
    ensures Jobs(s')
  {
    SameKeysKept(s, s');
    forall key | key in s'.ownedRuns
      ensures s'.ownedRuns[key] in s'.jobs && s'.jobs[s'.ownedRuns[key]].key.Some? && RunKeyOf(s'.jobs[s'.ownedRuns[key]]) == key
    {
      if key in s.ownedRuns && s'.ownedRuns[key] == s.ownedRuns[key] {
        assert s.ownedRuns[key] in s.jobs;
      }
    }
  }

  lemma ActKeepsJobs(s: State, j: JobId, act: Act)
    requires Jobs(s) && j in s.jobs && CanAct(s.jobs[j], act)
    ensures Jobs(ActOn(s, j, act))
  {
    JobFact(s, j);
    ActKeepsJob(s.jobs[j], act, s.shuttingDown);
    ActCrosses(s.jobs[j], act, s.shuttingDown);
    MovedKeepsJobs(s, j, act, AfterAct(s.jobs[j], act, s.shuttingDown));
  }

  /** Only the history of leases changes for the other jobs when a store is used. */
  lemma ServedKeepsJobs(s: State, path: Text, env: Env, req: Request)
    requires Jobs(s) && path in s.dbs
    ensures Jobs(Served(s, path, env, req))
  {
    ServedIsRelapsed(s, path, env, req);
    RelapsedKeepsJobs(s, Served(s, path, env, req));
  }

  predicate SameButLapse(job: Job, job': Job) { job' == job || job' == job.(lapsed := true) }

  ghost predicate Relapsed(s: State, s': State) {
    && s'.jobs.Keys == s.jobs.Keys && s'.reservations == s.reservations && s'.setupTasks == s.setupTasks
    && s'.cleanupTasks == s.cleanupTasks && s'.ownedRuns == s.ownedRuns && s'.stores == s.stores
    && s'.dbs.Keys == s.dbs.Keys
    && forall k {:trigger s'.jobs[k]} | k in s.jobs :: SameButLapse(s.jobs[k], s'.jobs[k])
  }

  lemma ServedIsRelapsed(s: State, path: Text, env: Env, req: Request)
    requires path in s.dbs
    ensures Relapsed(s, Served(s, path, env, req))
    ensures Served(s, path, env, req).shutdown == s.shutdown && Served(s, path, env, req).shuttingDown == s.shuttingDown
  {
  }

  lemma LapseKeepsJob(job: Job, job': Job)
    requires SameButLapse(job, job')
    ensures JobOk(job) ==> JobOk(job')
    ensures job'.key == job.key && job'.path == job.path && job'.pc == job.pc && job'.cleanup == job.cleanup
    ensures IsOwned(job') == IsOwned(job)
  {
  }

  lemma RelapsedKeepsJobs(s: State, s': State)
    requires Jobs(s) && Relapsed(s, s')
    ensures Jobs(s')
  {
    forall k | k in s'.jobs
      ensures JobOk(s'.jobs[k]) && Listed(s', k) && s'.jobs[k].path == s.jobs[k].path && s'.jobs[k].key == s.jobs[k].key
    {
      JobFact(s, k);
      LapseKeepsJob(s.jobs[k], s'.jobs[k]);
    }
    SameKeysKept(s, s');
  }

  lemma TransactKeepsJobs(s: State, j: JobId, env: Env, req: Request, again: bool)
    requires Jobs(s) && j in s.jobs && CanTransact(s.jobs[j], req) && s.jobs[j].path in s.dbs
    requires FreshRun(s, req) && ClaimsOwnRun(s, j, env, req)
    ensures Jobs(TransactOn(s, j, env, req, again))
  {
    var path := s.jobs[j].path;
    var committed := Transaction(s.dbs[path], env, req).Commit?;
    var s1 := Served(s, path, env, req);
    ServedKeepsJobs(s, path, env, req);
    ServedIsRelapsed(s, path, env, req);
    LapseKeepsJob(s.jobs[j], s1.jobs[j]);
    CanStill(s.jobs[j], s1.jobs[j], req);
    if Claims(req) && committed && Target(req) in s1.dbs[path].agents && s1.dbs[path].agents[Target(req)].lease.Some? {
      RunIsNew(s, s1, j, env, req);
    }
    SetTransacted(s1, j, req, committed, again, s1.dbs[path]);
  }

  lemma SetTransacted(s: State, j: JobId, req: Request, committed: bool, again: bool, db: Db)
    requires Jobs(s) && j in s.jobs && CanTransact(s.jobs[j], req)
    requires Claims(req) && committed && Target(req) in db.agents && db.agents[Target(req)].lease.Some? ==>
               forall k | k in s.jobs && s.jobs[k].key.Some? :: s.jobs[k].key.value.run != LiveKey(db, Target(req)).run
    ensures Jobs(s.(jobs := s.jobs[j := Transacted(s.jobs[j], req, committed, again, db)]))
  {
    JobFact(s, j);
    TransactedKeepsJob(s.jobs[j], req, committed, again, db);
    TransactedCrosses(s.jobs[j], req, committed, again, db);
    SetJobKeeps(s, j, Transacted(s.jobs[j], req, committed, again, db));
  }

  lemma CanStill(job: Job, job': Job, req: Request)
    requires SameButLapse(job, job') && CanTransact(job, req)
    ensures CanTransact(job', req)
  {
  }

  /** A transaction moves no job across a map. */
  lemma TransactedCrosses(job: Job, req: Request, committed: bool, again: bool, db: Db)
    requires JobOk(job) && CanTransact(job, req)
    ensures Keeps(job, Transacted(job, req, committed, again, db))
    ensures Transacted(job, req, committed, again, db).key == job.key || NewKey(job, req, committed, again, db)
  {
    TransactedKeeps(job, req, committed, again, db);
  }

  ghost predicate NewKey(job: Job, req: Request, committed: bool, again: bool, db: Db)
    requires CanTransact(job, req)
  {
    && Claims(req) && job.key.None? && !IsOwned(Transacted(job, req, committed, again, db)) && committed
    && Target(req) in db.agents && db.agents[Target(req)].lease.Some?
    && Transacted(job, req, committed, again, db).key == Some(LiveKey(db, Target(req)))
  }

  lemma ReservationKeeps(job: Job, req: Request, committed: bool, again: bool, db: Db)
    requires CanTransact(job, req) && (Claims(req) || req.Heartbeat?)
    ensures Keeps(job, Transacted(job, req, committed, again, db))
  {
    if Claims(req) {
      assert job.pc.Reserving?;
    } else {
      assert job.pc.Beating?;
    }
  }

  lemma TransactedKeeps(job: Job, req: Request, committed: bool, again: bool, db: Db)
    requires Handover(job) && CanTransact(job, req)
    ensures Keeps(job, Transacted(job, req, committed, again, db))
  {
    if Claims(req) || req.Heartbeat? {
      ReservationKeeps(job, req, committed, again, db);
    } else {
      Endings(job, req);
      EndingKeeps(job, req.CompleteCancel?, committed);
    }
  }

  lemma RunIsNew(s: State, s1: State, j: JobId, env: Env, req: Request)
    requires j in s.jobs && CanTransact(s.jobs[j], req) && s.jobs[j].path in s.dbs && Relapsed(s, s1)
    requires FreshRun(s, req) && ClaimsOwnRun(s, j, env, req) && s1 == Served(s, s.jobs[j].path, env, req)
    requires Claims(req) && Transaction(s.dbs[s.jobs[j].path], env, req).Commit?
    requires Target(req) in s1.dbs[s.jobs[j].path].agents && s1.dbs[s.jobs[j].path].agents[Target(req)].lease.Some?
    ensures forall k | k in s1.jobs && s1.jobs[k].key.Some? ::
              s1.jobs[k].key.value.run != LiveKey(s1.dbs[s.jobs[j].path], Target(req)).run
  {
    forall k | k in s1.jobs && s1.jobs[k].key.Some?
      ensures s1.jobs[k].key.value.run != NewRun(req)
    {
      assert s1.jobs[k].key == s.jobs[k].key;
    }
  }

  /** The claim a reservation commits is for the run it named. */
  ghost predicate ClaimsOwnRun(s: State, j: JobId, env: Env, req: Request)
    requires j in s.jobs && s.jobs[j].path in s.dbs
  {
    var db' := Serve(s.dbs[s.jobs[j].path], env, req);
    Claims(req) && Transaction(s.dbs[s.jobs[j].path], env, req).Commit? && Target(req) in db'.agents && db'.agents[Target(req)].lease.Some? ==>
      LiveKey(db', Target(req)).run == NewRun(req)
  }

  /** Replacing one job by one that is listed in the same maps. */
  lemma SetJobKeeps(s: State, j: JobId, job': Job)
    requires Jobs(s) && j in s.jobs && JobOk(job') && Keeps(s.jobs[j], job')
    requires job'.key == s.jobs[j].key
             || (s.jobs[j].key.None? && job'.key.Some? && !IsOwned(job')
                 && forall k | k in s.jobs && s.jobs[k].key.Some? :: s.jobs[k].key.value.run != job'.key.value.run)
    ensures Jobs(s.(jobs := s.jobs[j := job']))
  {
    var s' := s.(jobs := s.jobs[j := job']);
    if job'.key != s.jobs[j].key {
      UnusedKey(s, job'.key.value.run);
    }
    forall k | k in s'.jobs
      ensures Listed(s', k)
    {
      JobFact(s, k);
    }
    forall i, k | i in s'.jobs && k in s'.jobs && SameRun(s', i, k)
      ensures i == k
    {
      if (i != j && k != j) || job'.key == s.jobs[j].key {
        assert SameRun(s, i, k);
      }
    }
    forall key | key in s'.ownedRuns
      ensures s'.ownedRuns[key] in s'.jobs && s'.jobs[s'.ownedRuns[key]].key.Some? && RunKeyOf(s'.jobs[s'.ownedRuns[key]]) == key
    {
      assert s.ownedRuns[key] in s.jobs && s.jobs[s.ownedRuns[key]].key.Some?;
    }
  }

  lemma UnusedKey(s: State, r: Id)
    requires Jobs(s) && forall k | k in s.jobs && s.jobs[k].key.Some? :: s.jobs[k].key.value.run != r
    ensures forall key | key in s.ownedRuns :: key.run != r
  {
    forall key | key in s.ownedRuns
      ensures key.run != r
    {
      assert s.ownedRuns[key] in s.jobs && s.jobs[s.ownedRuns[key]].key.Some?;
    }
  }
}

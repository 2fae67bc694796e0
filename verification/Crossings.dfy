/** When the first pass of the shutdown may end beside a live runner: exactly when a setup
    that is not canceled can still launch as the pass takes its tasks. */
module Crossings {
  import opened Texts
  import opened Types
  import opened Schema
  import opened Coherence
  import opened Transactions
  import opened Fencing
  import opened Protocol
  import opened Ownership
  import opened Runtimes
  import opened Shutdown
  import opened ClientFence
  import opened Steps
  import opened FirstPass

  // --- one job settles -------------------------------------------------------

  /** A call that is set up, or has been. */
  predicate Settling(job: Job) { InSetup(job.pc) || job.pc.SetupClosing? || job.pc.Returned? }

  predicate Settled(job: Job) { job.pc.Returned? && !RunnerLive(job.runner) }

  function SetupTodo(pc: CallPc): nat {
    match pc
    case Preparing => 9
    case Acquiring => 8
    case Checking => 7
    case Beating => 6
    case Launching => 5
    case FailingSetup => 4
    case AwaitingSetupCleanup => 3
    case SetupLeaving => 2
    case SetupClosing => 1
    case _ => 0
  }

  function RunnerTodo(r: RunnerPc): nat {
    match r
    case Starting => 5
    case Working => 4
    case Answered => 3
    case Ending(_) => 2
    case AwaitingCleanup => 1
    case _ => 0
  }

  function CleanupTodo(c: CleanupPc): (n: nat)
    ensures n <= 8
  {
    match c
    case ClosingClient(_) => 8
    case Writing(_) => 7
    case Attaching => 6
    case Completing => 5
    case ClosingLease => 4
    case Releasing => 3
    case Deleting => 2
    case ClosingCleanup => 1
    case _ => 0
  }

  function Todo(job: Job): nat { 10 * (SetupTodo(job.pc) + RunnerTodo(job.runner)) + CleanupTodo(job.cleanup) }

  function NextClean(c: CleanupPc): CleanupAct {
    match c
    case ClosingClient(_) => CloseClient
    case Writing(_) => SkipWrite
    case Attaching => Attached(false)
    case Completing => SkipComplete
    case ClosingLease => CloseLease
    case Releasing => Release
    case Deleting => DeleteCleanup
    case _ => CloseCleanup
  }

  function NextCall(pc: CallPc): CallAct {
    match pc
    case Preparing => Own
    case FailingSetup => StartSetupCleanup
    case AwaitingSetupCleanup => SetupCleanedUp
    case SetupLeaving => LeaveSetup
    case SetupClosing => CloseSetup
    case _ => FailSetup
  }

  function NextRun(r: RunnerPc): RunnerAct {
    match r
    case Ending(_) => StartCleanup
    case AwaitingCleanup => RunnerCleanedUp
    case _ => FailRunner
  }

  /** How a setup that fails, a runner that fails, and their cleanup go on. */
  function NextAct(job: Job): Act {
    if !job.cleanup.NoCleanup? && !job.cleanup.CleanedUp? then Clean(NextClean(job.cleanup))
    else if !job.pc.Returned? then Call(NextCall(job.pc))
    else Runner(NextRun(job.runner))
  }

  ghost predicate Nearer(job: Job, job': Job) {
    Todo(job') < Todo(job) && Settling(job') && (job'.runner.NoRunner? <==> job.runner.NoRunner?)
  }

  lemma CleansNearer(job: Job)
    requires Settling(job) && !job.cleanup.NoCleanup? && !job.cleanup.CleanedUp?
    ensures CanClean(job, NextClean(job.cleanup)) && Nearer(job, CleanupStep(job, NextClean(job.cleanup)))
  {
    var job' := CleanupStep(job, NextClean(job.cleanup));
    NextCleanIsOpen(job);
    CleanupCloser(job, NextClean(job.cleanup));
    assert job'.pc == job.pc && job'.runner == job.runner;
  }

  lemma NextCleanIsOpen(job: Job)
    requires !job.cleanup.NoCleanup? && !job.cleanup.CleanedUp?
    ensures CanClean(job, NextClean(job.cleanup))
  {
  }

  lemma CleanupCloser(job: Job, k: CleanupAct)
    requires CanClean(job, k)
    ensures CleanupTodo(CleanupStep(job, k).cleanup) < CleanupTodo(job.cleanup)
  {
    match k
    case Attached(ok) =>
    case CloseClient =>
    case _ =>
  }

  lemma CallsNearer(job: Job, shuttingDown: bool)
    requires Handover(job) && Settling(job) && !job.pc.Returned? && (job.cleanup.NoCleanup? || job.cleanup.CleanedUp?)
    ensures CanCall(job, NextCall(job.pc)) && Nearer(job, CallStep(job, NextCall(job.pc), shuttingDown))
  {
    AwaitedIsDone(job);
    NextCallIsOpen(job);
    NextCallFails(job.pc);
    SetupCloser(job, NextCall(job.pc), shuttingDown);
  }

  lemma AwaitedIsDone(job: Job)
    requires Handover(job) && (job.cleanup.NoCleanup? || job.cleanup.CleanedUp?)
    ensures job.pc.AwaitingSetupCleanup? || job.runner.AwaitingCleanup? ==> job.cleanup.CleanedUp?
  {
  }

  lemma NextCallIsOpen(job: Job)
    requires Settling(job) && !job.pc.Returned? && (job.pc.AwaitingSetupCleanup? ==> job.cleanup.CleanedUp?)
    ensures CanCall(job, NextCall(job.pc))
  {
  }

  /** The setup's ways to its end that launch nothing. */
  predicate Failing(c: CallAct) {
    || c.Own? || c.FailSetup? || c.StartSetupCleanup? || c.SetupCleanedUp? || c.LeaveSetup? || c.CloseSetup?
  }

  lemma SetupCloser(job: Job, c: CallAct, shuttingDown: bool)
    requires Failing(c) && CanCall(job, c)
    ensures SetupTodo(CallStep(job, c, shuttingDown).pc) < SetupTodo(job.pc)
    ensures Settling(CallStep(job, c, shuttingDown)) && CallStep(job, c, shuttingDown).runner == job.runner
  {
    match c
    case Own =>
    case FailSetup =>
    case StartSetupCleanup =>
    case SetupCleanedUp =>
    case LeaveSetup =>
    case CloseSetup =>
  }

  lemma NextCallFails(pc: CallPc)
    ensures Failing(NextCall(pc))
  {
  }

  lemma RunsNearer(job: Job)
    requires Handover(job) && job.pc.Returned? && RunnerLive(job.runner) && (job.cleanup.NoCleanup? || job.cleanup.CleanedUp?)
    ensures CanRun(job, NextRun(job.runner)) && Nearer(job, RunnerStep(job, NextRun(job.runner)))
  {
  }

  lemma ActsNearer(job: Job, shuttingDown: bool)
    requires JobOk(job) && Settling(job) && !Settled(job)
    ensures CanAct(job, NextAct(job)) && Nearer(job, AfterAct(job, NextAct(job), shuttingDown))
  {
    if !job.cleanup.NoCleanup? && !job.cleanup.CleanedUp? {
      CleansNearer(job);
    } else if !job.pc.Returned? {
      CallsNearer(job, shuttingDown);
    } else {
      RunsNearer(job);
    }
  }

  // --- steps that can be taken -----------------------------------------------

  ghost predicate OnlyJob(s: State, s': State, j: JobId) {
    && s'.dbs == s.dbs && s'.stores == s.stores && s'.shuttingDown == s.shuttingDown && s'.shutdown == s.shutdown
    && s'.jobs.Keys == s.jobs.Keys && j in s.jobs
    && forall k | k in s.jobs && k != j :: s'.jobs[k] == s.jobs[k]
  }

  lemma OnlyJobOn(s: State, s1: State, s': State, j: JobId)
    requires OnlyJob(s, s1, j) && OnlyJob(s1, s', j)
    ensures OnlyJob(s, s', j)
  {
  }

  lemma Acts(s: State, j: JobId, act: Act, runtime: Text) returns (s': State)
    requires Sound(s, runtime) && j in s.jobs && CanAct(s.jobs[j], act)
    ensures Reaches(s, s', runtime) && Sound(s', runtime) && OnlyJob(s, s', j)
    ensures s'.jobs[j] == AfterAct(s.jobs[j], act, s.shuttingDown)
  {
    s' := ActOn(s, j, act);
    ActReaches(s, j, act, runtime);
    ActSound(s, j, act, runtime);
    ActMovesOne(s, j, act);
  }

  lemma ActReaches(s: State, j: JobId, act: Act, runtime: Text)
    requires j in s.jobs && CanAct(s.jobs[j], act)
    ensures Reaches(s, ActOn(s, j, act), runtime)
  {
    StepReaches(s, JobActs(j, act), runtime);
  }

  lemma ActMovesOne(s: State, j: JobId, act: Act)
    requires j in s.jobs && CanAct(s.jobs[j], act)
    ensures OnlyJob(s, ActOn(s, j, act), j) && ActOn(s, j, act).jobs[j] == AfterAct(s.jobs[j], act, s.shuttingDown)
  {
    MovedFrame(s, j, act, AfterAct(s.jobs[j], act, s.shuttingDown));
  }

  /** Any setup and its runner can be brought to their end by failing. */
  lemma {:induction false} Settles(s: State, j: JobId, runtime: Text) returns (s': State)
    requires Sound(s, runtime) && j in s.jobs && Settling(s.jobs[j])
    ensures Reaches(s, s', runtime) && Sound(s', runtime) && OnlyJob(s, s', j) && Settled(s'.jobs[j])
    ensures s'.jobs[j].runner.NoRunner? <==> s.jobs[j].runner.NoRunner?
    decreases Todo(s.jobs[j])
  {
    if Settled(s.jobs[j]) {
      s' := s;
      StaysThere(s, runtime);
    } else {
      JobFact(s, j);
      ActsNearer(s.jobs[j], s.shuttingDown);
      var s1 := Acts(s, j, NextAct(s.jobs[j]), runtime);
      s' := Settles(s1, j, runtime);
      ReachesOn(s, s1, s', runtime);
      OnlyJobOn(s, s1, s', j);
    }
  }

  ghost predicate AllSettle(s: State, s': State, ks: set<JobId>) {
    && s'.shutdown == s.shutdown && s'.jobs.Keys == s.jobs.Keys
    && forall k {:trigger s'.jobs[k]} | k in s.jobs ::
         if k in ks then Settled(s'.jobs[k]) && (s'.jobs[k].runner.NoRunner? <==> s.jobs[k].runner.NoRunner?)
         else s'.jobs[k] == s.jobs[k]
  }

  lemma {:induction false} SettlesAll(s: State, ks: set<JobId>, runtime: Text) returns (s': State)
    requires Sound(s, runtime) && ks <= s.jobs.Keys && forall k | k in ks :: Settling(s.jobs[k])
    ensures Reaches(s, s', runtime) && Sound(s', runtime) && AllSettle(s, s', ks)
    decreases |ks|
  {
    if ks == {} {
      s' := s;
      StaysThere(s, runtime);
    } else {
      var k :| k in ks;
      var s1 := Settles(s, k, runtime);
      StillSettling(s, s1, k, ks);
      s' := SettlesAll(s1, ks - {k}, runtime);
      ReachesOn(s, s1, s', runtime);
      OneMoreSettles(s, s1, s', k, ks);
    }
  }

  lemma StillSettling(s: State, s1: State, k: JobId, ks: set<JobId>)
    requires OnlyJob(s, s1, k) && k in ks && ks <= s.jobs.Keys && forall i | i in ks :: Settling(s.jobs[i])
    ensures ks - {k} <= s1.jobs.Keys && (forall i | i in ks - {k} :: Settling(s1.jobs[i])) && |ks - {k}| < |ks|
  {
  }

  lemma OneMoreSettles(s: State, s1: State, s': State, k: JobId, ks: set<JobId>)
    requires OnlyJob(s, s1, k) && Settled(s1.jobs[k]) && (s1.jobs[k].runner.NoRunner? <==> s.jobs[k].runner.NoRunner?)
    requires AllSettle(s1, s', ks - {k}) && k in ks
    ensures AllSettle(s, s', ks)
  {
  }

  // --- the launch ------------------------------------------------------------

  /** A setup about to launch launches and returns, leaving its runner behind. */
  lemma LaunchesAndReturns(s: State, j: JobId, runtime: Text) returns (s': State)
    requires Sound(s, runtime) && j in s.jobs && s.jobs[j].pc.Launching? && !s.jobs[j].setupCanceled
    ensures Reaches(s, s', runtime) && Sound(s', runtime) && OnlyJob(s, s', j)
    ensures s'.jobs[j].pc.Returned? && Crossed(s'.jobs[j])
  {
    JobFact(s, j);
    LaunchCrosses(s.jobs[j], s.shuttingDown);
    var s1 := Launches(s, j, runtime);
    s' := Leaves(s1, j, runtime);
    ReachesOn(s, s1, s', runtime);
    OnlyJobOn(s, s1, s', j);
  }

  lemma Launches(s: State, j: JobId, runtime: Text) returns (s': State)
    requires Sound(s, runtime) && j in s.jobs && s.jobs[j].pc.Launching? && CanAct(s.jobs[j], Call(Launch))
    requires AfterAct(s.jobs[j], Call(Launch), s.shuttingDown)
             == s.jobs[j].(pc := SetupLeaving, runner := RunnerPc.Starting)
    ensures Reaches(s, s', runtime) && Sound(s', runtime) && OnlyJob(s, s', j)
    ensures s'.jobs[j] == s.jobs[j].(pc := SetupLeaving, runner := RunnerPc.Starting)
  {
    s' := Acts(s, j, Call(Launch), runtime);
  }

  lemma Leaves(s: State, j: JobId, runtime: Text) returns (s': State)
    requires Sound(s, runtime) && j in s.jobs && s.jobs[j].pc.SetupLeaving?
    ensures Reaches(s, s', runtime) && Sound(s', runtime) && OnlyJob(s, s', j)
    ensures s'.jobs[j] == s.jobs[j].(pc := Returned)
  {
    LeavesAndCloses(s.jobs[j], s.shuttingDown);
    var s1 := Acts(s, j, Call(LeaveSetup), runtime);
    s' := Acts(s1, j, Call(CloseSetup), runtime);
    ReachesOn(s, s1, s', runtime);
    OnlyJobOn(s, s1, s', j);
  }

  lemma LeavesAndCloses(job: Job, shuttingDown: bool)
    requires job.pc.SetupLeaving?
    ensures CanAct(job, Call(LeaveSetup)) && AfterAct(job, Call(LeaveSetup), shuttingDown) == job.(pc := SetupClosing)
    ensures var job1 := job.(pc := SetupClosing);
            CanAct(job1, Call(CloseSetup)) && AfterAct(job1, Call(CloseSetup), shuttingDown) == job.(pc := Returned)
  {
  }

  lemma LaunchCrosses(job: Job, shuttingDown: bool)
    requires Handover(job) && job.pc.Launching? && !job.setupCanceled
    ensures AfterAct(job, Call(Launch), shuttingDown) == job.(pc := SetupLeaving, runner := RunnerPc.Starting)
    ensures Crossed(job.(pc := Returned, runner := RunnerPc.Starting))
  {
  }

  /** An active claim can be renewed while its lease stands. */
  lemma HeartbeatCommits(db: Db, env: Env, key: LeaseKey)
    requires Inv(db) && IsScan(env.scan, db.agents) && ClaimActive(db, key) && env.runtime == key.runtime
    requires env.now < db.agents[key.agent].lease.value.expires
    ensures Transaction(db, env, Heartbeat(key)).Commit?
  {
    var mid := Mid(db, env);
    ReconcileKeepsClaim(db, env, key.agent);
    OneLeaseMatches(mid, key, env.runtime, env.now);
    AgentFact(mid.agents, mid.runs, key.agent);
    ActiveRenews(mid, env, key);
    CommitNeedsBody(db, env, Heartbeat(key));
  }

  lemma ActiveRenews(db: Db, env: Env, key: LeaseKey)
    requires Owns(db, key, env.runtime, env.now) && db.agents[key.agent].status.Active() && db.runs[key.run].status.Active()
    ensures Body(db, env, Heartbeat(key)).Commit?
  {
  }

  lemma SomeScan(ids: set<Id>) returns (scan: seq<Id>)
    ensures (forall a :: a in scan <==> a in ids) && forall i, j | 0 <= i < j < |scan| :: scan[i] != scan[j]
    decreases |ids|
  {
    if ids == {} {
      scan := [];
    } else {
      var a :| a in ids;
      var rest := SomeScan(ids - {a});
      scan := [a] + rest;
    }
  }

  ghost predicate OnlyRenewed(s: State, s': State, j: JobId) {
    && s'.shutdown == s.shutdown && s'.jobs.Keys == s.jobs.Keys && j in s.jobs
    && SameButLapse(s.jobs[j].(pc := Launching), s'.jobs[j])
    && forall k {:trigger s'.jobs[k]} | k in s.jobs && k != j :: SameButLapse(s.jobs[k], s'.jobs[k])
  }

  lemma OthersOnlyLapse(s: State, j: JobId, env: Env, req: Request)
    requires j in s.jobs && s.jobs[j].path in s.dbs && CanTransact(s.jobs[j], req)
    ensures var s' := TransactOn(s, j, env, req, false);
            s'.jobs.Keys == s.jobs.Keys
            && forall k {:trigger s'.jobs[k]} | k in s.jobs && k != j :: SameButLapse(s.jobs[k], s'.jobs[k])
  {
    TransactKeepsKeys(s, j, env, req, false);
    forall k | k in s.jobs && k != j
      ensures SameButLapse(s.jobs[k], TransactOn(s, j, env, req, false).jobs[k])
    {
      TransactedJob(s, j, env, req, false, k);
    }
  }

  lemma RenewsOwn(s: State, j: JobId, env: Env, key: LeaseKey)
    requires j in s.jobs && s.jobs[j].path in s.dbs && CanTransact(s.jobs[j], Heartbeat(key))
    requires Transaction(s.dbs[s.jobs[j].path], env, Heartbeat(key)).Commit?
    ensures var s' := TransactOn(s, j, env, Heartbeat(key), false);
            s'.shutdown == s.shutdown && j in s'.jobs && SameButLapse(s.jobs[j].(pc := Launching), s'.jobs[j])
  {
    OwnAfter(s, j, env, Heartbeat(key), false);
    TransactFrame(s, j, env, Heartbeat(key), false);
  }

  lemma RenewsOnly(s: State, j: JobId, env: Env, key: LeaseKey)
    requires j in s.jobs && s.jobs[j].path in s.dbs && CanTransact(s.jobs[j], Heartbeat(key))
    requires Transaction(s.dbs[s.jobs[j].path], env, Heartbeat(key)).Commit?
    ensures OnlyRenewed(s, TransactOn(s, j, env, Heartbeat(key), false), j)
  {
    OthersOnlyLapse(s, j, env, Heartbeat(key));
    RenewsOwn(s, j, env, key);
  }

  lemma RenewingEnv(db: Db, key: LeaseKey) returns (env: Env)
    requires Inv(db) && ClaimActive(db, key)
    ensures env.runtime == key.runtime && Possible(db, env, Heartbeat(key)) && Transaction(db, env, Heartbeat(key)).Commit?
  {
    var scan := SomeScan(db.agents.Keys);
    env := Env(key.runtime, false, db.agents[key.agent].lease.value.expires - 1.0, scan);
    HeartbeatCommits(db, env, key);
  }

  /** A setup about to renew an active claim gets as far as the launch. */
  lemma Renews(s: State, j: JobId, runtime: Text) returns (s': State)
    requires Sound(s, runtime) && Fences(s, runtime) && CanLaunch(s, j) && s.jobs[j].pc.Beating?
    ensures Reaches(s, s', runtime) && Sound(s', runtime) && OnlyRenewed(s, s', j)
  {
    var key := s.jobs[j].key.value;
    KeyRuntime(s, runtime, j);
    var env := RenewingEnv(s.dbs[s.jobs[j].path], key);
    s' := RenewsWith(s, j, env, key, runtime);
  }

  lemma RenewsWith(s: State, j: JobId, env: Env, key: LeaseKey, runtime: Text) returns (s': State)
    requires Sound(s, runtime) && j in s.jobs && s.jobs[j].pc.Beating? && s.jobs[j].key == Some(key)
    requires s.jobs[j].path in s.dbs && env.runtime == runtime && Possible(s.dbs[s.jobs[j].path], env, Heartbeat(key))
    requires Transaction(s.dbs[s.jobs[j].path], env, Heartbeat(key)).Commit?
    ensures Reaches(s, s', runtime) && Sound(s', runtime) && OnlyRenewed(s, s', j)
  {
    s' := TransactOn(s, j, env, Heartbeat(key), false);
    StepReaches(s, JobTransacts(j, env, Heartbeat(key), false), runtime);
    TransactSound(s, j, env, Heartbeat(key), false, runtime);
    RenewsOnly(s, j, env, key);
  }

  /** The first pass has ended beside a live runner of an owned run. */
  ghost predicate Leaks(s: State) {
    s.shutdown.FirstPassed? && exists j :: j in s.jobs && Crossed(s.jobs[j])
  }

  // --- the pass goes on to its end -------------------------------------------

  predicate Alike(job: Job, job': Job) {
    job'.pc == job.pc && job'.runner == job.runner && job'.cleanup == job.cleanup
  }

  /** The same pass, with the same jobs but for their cancellations. */
  ghost predicate OnlyCancels(s: State, s': State) {
    && s.shutdown.FirstPass? && s'.shutdown.FirstPass?
    && s'.shutdown.taken.setups == s.shutdown.taken.setups && s'.shutdown.taken.runners == s.shutdown.taken.runners
    && s'.jobs.Keys == s.jobs.Keys && forall k {:trigger s'.jobs[k]} | k in s.jobs :: Alike(s.jobs[k], s'.jobs[k])
  }

  lemma CancelIsOnly(s: State, h: Halt)
    requires s.shutdown.FirstPass? && CanCancelTask(s, h)
    ensures OnlyCancels(s, TaskCanceled(s, h))
    ensures TaskCanceled(s, h).shutdown.taken == LeftAfter(s.shutdown.taken, h)
  {
    CanceledFrame(s, h);
  }

  lemma CancelReaches(s: State, h: Halt, runtime: Text)
    requires CanCancelTask(s, h)
    ensures Reaches(s, TaskCanceled(s, h), runtime)
  {
    StepReaches(s, ShutdownActs(h), runtime);
  }

  lemma CancelsOn(s: State, s1: State, s': State)
    requires OnlyCancels(s, s1) && OnlyCancels(s1, s')
    ensures OnlyCancels(s, s')
  {
  }

  lemma OneLess(left: set<JobId>, j: JobId)
    requires j in left
    ensures |left - {j}| < |left|
  {
  }

  lemma CancelsSetup(s: State, left: set<JobId>, j: JobId, runtime: Text) returns (s': State)
    requires s.shutdown.FirstPass? && s.shutdown.taken.setupsLeft == left <= s.jobs.Keys && j in left
    ensures Reaches(s, s', runtime) && OnlyCancels(s, s') && |left - {j}| < |left|
    ensures s'.shutdown.taken.setupsLeft == left - {j} <= s'.jobs.Keys
    ensures s'.shutdown.taken.runnersLeft == s.shutdown.taken.runnersLeft
  {
    OneLess(left, j);
    s' := TaskCanceled(s, CancelSetupTask(j));
    CancelReaches(s, CancelSetupTask(j), runtime);
    CancelIsOnly(s, CancelSetupTask(j));
  }

  lemma CancelsRunner(s: State, left: set<JobId>, j: JobId, runtime: Text) returns (s': State)
    requires s.shutdown.FirstPass? && s.shutdown.taken.runnersLeft == left <= s.jobs.Keys && j in left
    requires s.shutdown.taken.setupsLeft == {}
    ensures Reaches(s, s', runtime) && OnlyCancels(s, s') && |left - {j}| < |left|
    ensures s'.shutdown.taken.runnersLeft == left - {j} <= s'.jobs.Keys && s'.shutdown.taken.setupsLeft == {}
  {
    OneLess(left, j);
    s' := TaskCanceled(s, CancelRunnerTask(j));
    CancelReaches(s, CancelRunnerTask(j), runtime);
    CancelIsOnly(s, CancelRunnerTask(j));
  }

  lemma {:induction false} CancelsSetups(s: State, left: set<JobId>, runtime: Text) returns (s': State)
    requires s.shutdown.FirstPass? && s.shutdown.taken.setupsLeft == left <= s.jobs.Keys
    ensures Reaches(s, s', runtime) && OnlyCancels(s, s')
    ensures s'.shutdown.taken.setupsLeft == {} && s'.shutdown.taken.runnersLeft == s.shutdown.taken.runnersLeft
    decreases |left|
  {
    if left == {} {
      s' := s;
      StaysThere(s, runtime);
    } else {
      var j :| j in left;
      var s1 := CancelsSetup(s, left, j, runtime);
      s' := CancelsSetups(s1, left - {j}, runtime);
      ReachesOn(s, s1, s', runtime);
      CancelsOn(s, s1, s');
    }
  }

  lemma {:induction false} CancelsRunners(s: State, left: set<JobId>, runtime: Text) returns (s': State)
    requires s.shutdown.FirstPass? && s.shutdown.taken.setupsLeft == {}
    requires s.shutdown.taken.runnersLeft == left <= s.jobs.Keys
    ensures Reaches(s, s', runtime) && OnlyCancels(s, s')
    ensures s'.shutdown.taken.setupsLeft == {} == s'.shutdown.taken.runnersLeft
    decreases |left|
  {
    if left == {} {
      s' := s;
      StaysThere(s, runtime);
    } else {
      var j :| j in left;
      var s1 := CancelsRunner(s, left, j, runtime);
      s' := CancelsRunners(s1, left - {j}, runtime);
      ReachesOn(s, s1, s', runtime);
      CancelsOn(s, s1, s');
    }
  }

  /** The tasks of a pass, but for one job's, can all be brought to their end. */
  ghost predicate Ready(s: State, j: JobId) {
    && s.shutdown.FirstPass? && j in s.jobs && j !in s.shutdown.taken.runners
    && s.shutdown.taken.setups + s.shutdown.taken.runners <= s.jobs.Keys
    && s.shutdown.taken.setupsLeft + s.shutdown.taken.runnersLeft <= s.jobs.Keys
    && forall k {:trigger s.jobs[k]} | k in s.jobs && k != j :: ReadyJob(s.shutdown.taken, k, s.jobs[k])
  }

  predicate ReadyJob(taken: Pass, k: JobId, job: Job) {
    && (k in taken.setups ==> Settling(job))
    && (k in taken.runners ==> Settling(job) && !job.runner.NoRunner?)
  }

  /** Nothing is done about the other jobs. */
  ghost predicate OthersAlike(s: State, s': State, j: JobId) {
    && s'.shutdown == s.shutdown && s'.jobs.Keys == s.jobs.Keys
    && forall k {:trigger s'.jobs[k]} | k in s.jobs && k != j :: Alike(s.jobs[k], s'.jobs[k])
  }

  lemma ReadyStill(s: State, s': State, j: JobId)
    requires Ready(s, j) && OthersAlike(s, s', j)
    ensures Ready(s', j)
  {
  }

  lemma CancelsAll(s: State, runtime: Text) returns (s': State)
    requires Sound(s, runtime) && s.shutdown.FirstPass?
    requires s.shutdown.taken.setupsLeft <= s.jobs.Keys && s.shutdown.taken.runnersLeft <= s.jobs.Keys
    ensures Reaches(s, s', runtime) && Sound(s', runtime) && OnlyCancels(s, s')
    ensures s'.shutdown.taken.setupsLeft == {} == s'.shutdown.taken.runnersLeft
  {
    var s1 := CancelsSetups(s, s.shutdown.taken.setupsLeft, runtime);
    s' := CancelsRunners(s1, s1.shutdown.taken.runnersLeft, runtime);
    CancelsOn(s, s1, s');
    ReachesOn(s, s1, s', runtime);
    SoundOnward(s, s', runtime);
  }

  lemma Awaits(s: State, runtime: Text) returns (s': State)
    requires s.shutdown.FirstPass? && PassDone(s, s.shutdown.taken)
    ensures Reaches(s, s', runtime) && s' == s.(shutdown := FirstPassed(s.shutdown.taken))
  {
    s' := HaltOn(s, AwaitFirst, runtime);
    StepReaches(s, ShutdownActs(AwaitFirst), runtime);
  }

  /** The pass cancels its tasks, waits for them, and ends beside a runner it did not take. */
  lemma EndsBeside(s: State, j: JobId, runtime: Text) returns (s': State)
    requires Sound(s, runtime) && Ready(s, j) && s.jobs[j].pc.Returned? && Crossed(s.jobs[j])
    ensures Reaches(s, s', runtime) && Leaks(s')
  {
    var s1 := CancelsAll(s, runtime);
    var ks := s.shutdown.taken.setups + s.shutdown.taken.runners - {j};
    StillReady(s, s1, j, ks);
    var s2 := SettlesAll(s1, ks, runtime);
    PassIsDone(s1, s2, j, ks);
    s' := Awaits(s2, runtime);
    ReachesOn(s, s1, s2, runtime);
    ReachesOn(s, s2, s', runtime);
  }

  lemma StillReady(s: State, s': State, j: JobId, ks: set<JobId>)
    requires Ready(s, j) && OnlyCancels(s, s') && ks == s.shutdown.taken.setups + s.shutdown.taken.runners - {j}
    ensures ks <= s'.jobs.Keys && (forall k | k in ks :: Settling(s'.jobs[k]))
    ensures forall k | k in ks && k in s.shutdown.taken.runners :: !s'.jobs[k].runner.NoRunner?
    ensures j in s'.jobs && Alike(s.jobs[j], s'.jobs[j])
  {
    forall k | k in ks
      ensures Settling(s'.jobs[k]) && (k in s.shutdown.taken.runners ==> !s'.jobs[k].runner.NoRunner?)
    {
      assert Alike(s.jobs[k], s'.jobs[k]);
    }
  }

  lemma PassIsDone(s: State, s': State, j: JobId, ks: set<JobId>)
    requires s.shutdown.FirstPass? && AllSettle(s, s', ks) && ks <= s.jobs.Keys
    requires var taken := s.shutdown.taken;
             taken.setupsLeft == {} == taken.runnersLeft && ks == taken.setups + taken.runners - {j} && j !in taken.runners
    requires forall k | k in ks && k in s.shutdown.taken.runners :: !s.jobs[k].runner.NoRunner?
    requires j in s.jobs && s.jobs[j].pc.Returned? && Crossed(s.jobs[j])
    ensures s'.shutdown.FirstPass? && PassDone(s', s'.shutdown.taken)
    ensures j in s'.jobs && Crossed(s'.jobs[j])
  {
  }

  // --- exactly when ----------------------------------------------------------

  lemma RenewedIsReady(s: State, s': State, j: JobId)
    requires Ready(s, j) && OnlyRenewed(s, s', j)
    ensures Ready(s', j) && s'.jobs[j].pc.Launching? && s'.jobs[j].setupCanceled == s.jobs[j].setupCanceled
  {
    ReadyStill(s, s', j);
  }

  lemma LaunchLeaks(s: State, j: JobId, runtime: Text) returns (s': State)
    requires Sound(s, runtime) && Ready(s, j) && s.jobs[j].pc.Launching? && !s.jobs[j].setupCanceled
    ensures Reaches(s, s', runtime) && Leaks(s')
  {
    var s1 := LaunchesAndReturns(s, j, runtime);
    ReadyStill(s, s1, j);
    s' := EndsBeside(s1, j, runtime);
    ReachesOn(s, s1, s', runtime);
  }

  lemma LaunchableLeaks(s: State, j: JobId, runtime: Text) returns (s': State)
    requires Sound(s, runtime) && Fences(s, runtime) && Ready(s, j) && CanLaunch(s, j)
    ensures Reaches(s, s', runtime) && Leaks(s')
  {
    if s.jobs[j].pc.Beating? {
      var s1 := Renews(s, j, runtime);
      RenewedIsReady(s, s1, j);
      s' := LaunchLeaks(s1, j, runtime);
      ReachesOn(s, s1, s', runtime);
    } else {
      s' := LaunchLeaks(s, j, runtime);
    }
  }

  /** The pass has just taken its tasks. */
  ghost predicate Taken(s: State) { s.shutdown == FirstPass(Snapshot(s)) }

  lemma TakenIsReady(s: State, j: JobId)
    requires Jobs(s) && Taken(s) && CanLaunch(s, j)
    ensures Ready(s, j) && j in s.shutdown.taken.setups
  {
    JobFact(s, j);
    forall k | k in s.jobs
      ensures ReadyJob(s.shutdown.taken, k, s.jobs[k])
    {
      JobFact(s, k);
    }
  }

  lemma TakenIsQuiet(s: State)
    requires Jobs(s) && Taken(s) && forall j | j in s.jobs :: !CanLaunch(s, j)
    ensures Quiet(s)
  {
    forall j | j in s.jobs
      ensures QuietJob(s, j)
    {
      if Crossed(s.jobs[j]) {
        CrossedIsTaken(s, j);
      }
    }
  }

  lemma QuietDoesNotLeak(s: State)
    requires Warned(s) && Quiet(s)
    ensures !Leaks(s)
  {
  }

  lemma QuietNeverLeaks(s: State, s': State, runtime: Text)
    requires Good(s, runtime) && Quiet(s) && Reaches(s, s', runtime)
    ensures !Leaks(s')
  {
    var states, steps :| Trace(states, steps, runtime) && states[0] == s && states[|steps|] == s';
    TraceQuiet(states, steps, runtime);
    QuietDoesNotLeak(s');
  }

  lemma TakeFirstTakes(s: State, runtime: Text)
    requires Good(s, runtime) && s.shutdown.Flagged?
    ensures Good(HaltOn(s, TakeFirst, runtime), runtime) && Taken(HaltOn(s, TakeFirst, runtime))
    ensures HaltOn(s, TakeFirst, runtime).jobs == s.jobs && HaltOn(s, TakeFirst, runtime).dbs == s.dbs
  {
    StepGood(s, ShutdownActs(TakeFirst), runtime);
  }

  lemma TakenLeaksExactly(s: State, runtime: Text)
    requires Good(s, runtime) && Taken(s)
    ensures (exists s' :: Reaches(s, s', runtime) && Leaks(s')) <==> (exists j :: j in s.shutdown.taken.setups && CanLaunch(s, j))
  {
    if j :| CanLaunch(s, j) {
      TakenIsReady(s, j);
      var s' := LaunchableLeaks(s, j, runtime);
    } else {
      TakenIsQuiet(s);
      forall s' | Reaches(s, s', runtime)
        ensures !Leaks(s')
      {
        QuietNeverLeaks(s, s', runtime);
      }
    }
  }

  /** Once a run has flagged the shutdown and its first pass takes its tasks, the pass can
      end beside a live runner in some continuation, if and only if it has taken a setup
      that is not canceled and about to launch, or about to renew an active claim. */
  lemma FirstPassLeaksExactly(states: seq<State>, steps: seq<Step>, runtime: Text)
    requires Run(states, steps, runtime) && states[|steps|].shutdown.Flagged?
    ensures var s := states[|steps|];
            var taken := HaltOn(s, TakeFirst, runtime);
            (exists s' :: Reaches(taken, s', runtime) && Leaks(s'))
            <==> (exists j :: j in Snapshot(s).setups && CanLaunch(s, j))
  {
    var s := states[|steps|];
    RunGood(states, steps, runtime);
    TakeFirstTakes(s, runtime);
    TakenLeaksExactly(HaltOn(s, TakeFirst, runtime), runtime);
    SameLaunchable(s, HaltOn(s, TakeFirst, runtime));
  }

  lemma SameLaunchable(s: State, s': State)
    requires s' == s.(shutdown := FirstPass(Snapshot(s)))
    ensures (exists j :: j in s'.shutdown.taken.setups && CanLaunch(s', j)) <==> (exists j :: j in Snapshot(s).setups && CanLaunch(s, j))
  {
  }
}

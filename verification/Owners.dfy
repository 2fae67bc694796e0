/** Whom a parent's cancellation stops: a run that is owned always has one goroutine that
    owns it, and that is the one named. */
module Owners {
  import opened Texts
  import opened Types
  import opened Transactions
  import opened Protocol
  import opened Ownership
  import opened Shutdown
  import opened Steps

  datatype Owner = TheRunner | TheSetup | TheCleanup

  /** Whom cancelLiveRun cancels: the runner, else the setup, else the cleanup. */
  function OwnerOf(job: Job): Option<Owner> {
    if !job.runner.NoRunner? then Some(TheRunner)
    else if OwnedBySetup(job.pc) && !Forgotten(job.cleanup) then Some(TheSetup)
    else if InCleanup(job.cleanup) && !Forgotten(job.cleanup) then Some(TheCleanup)
    else None
  }

  /** The goroutine that owns a run, between its start and its end: its cancellation is a
      step that can be taken. */
  predicate Owning(job: Job, owner: Owner) {
    match owner
    case TheRunner => RunnerLive(job.runner) && CanCancel(job, CancelRunner)
    case TheSetup => job.runner.NoRunner? && OwnedBySetup(job.pc) && CanCancel(job, CancelSetup)
    case TheCleanup => job.runner.NoRunner? && !OwnedBySetup(job.pc) && InCleanup(job.cleanup)
  }

  lemma OwnedIsListed(s: State, key: RunKey)
    requires Jobs(s) && key in s.ownedRuns
    ensures s.ownedRuns[key] in s.jobs
    ensures var job := s.jobs[s.ownedRuns[key]];
            && OwnerOf(job) == Some(if job.runner.NoRunner? then TheSetup else TheRunner)
            && Owning(job, if job.runner.NoRunner? then TheSetup else TheRunner)
  {
    var j := s.ownedRuns[key];
    assert j in s.jobs && s.jobs[j].key.Some?;
    JobFact(s, j);
  }

  // --- which runs have a runner ----------------------------------------------

  /** Step i launches j's runner. */
  ghost predicate Launches(states: seq<State>, steps: seq<Step>, i: nat, j: JobId) {
    i < |steps| < |states| && steps[i] == JobActs(j, Call(Launch)) && j in states[i].jobs && !states[i].jobs[j].setupCanceled
  }

  lemma ActLaunches(job: Job, act: Act, shuttingDown: bool)
    requires Handover(job) && CanAct(job, act)
    ensures AfterAct(job, act, shuttingDown).runner.NoRunner? <==>
              job.runner.NoRunner? && !(act == Call(Launch) && !job.setupCanceled)
  {
    match act
    case Call(c) => CallLaunches(job, c, shuttingDown);
    case Runner(r) => RunnerStays(job, r);
    case Clean(k) => CleanupStays(job, k);
    case Cancel(_) =>
  }

  lemma CallLaunches(job: Job, c: CallAct, shuttingDown: bool)
    requires CanCall(job, c)
    ensures CallStep(job, c, shuttingDown).runner == if c == Launch && !job.setupCanceled then RunnerPc.Starting else job.runner
  {
  }

  lemma RunnerStays(job: Job, r: RunnerAct)
    requires CanRun(job, r)
    ensures !job.runner.NoRunner? && !RunnerStep(job, r).runner.NoRunner?
  {
  }

  lemma CleanupStays(job: Job, k: CleanupAct)
    requires CanClean(job, k)
    ensures CleanupStep(job, k).runner == job.runner
  {
  }

  lemma EndingStays(job: Job, completing: bool, committed: bool)
    ensures AfterEnding(job, completing, committed).runner.NoRunner? <==> job.runner.NoRunner?
  {
  }

  lemma TransactedStays(job: Job, req: Request, committed: bool, again: bool, db: Db)
    requires CanTransact(job, req)
    ensures Transacted(job, req, committed, again, db).runner.NoRunner? <==> job.runner.NoRunner?
  {
    if !Claims(req) && !req.Heartbeat? && (committed || !again) {
      EndingStays(job, req.CompleteCancel?, committed);
    }
  }

  lemma TransactsStays(job: Job, job': Job, req: Request)
    requires Transacts(job, job', req)
    ensures job'.runner.NoRunner? <==> job.runner.NoRunner?
  {
    var job1, committed, again, db :|
      SameButLapse(job, job1) && CanTransact(job1, req) && job' == Transacted(job1, req, committed, again, db);
    TransactedStays(job1, req, committed, again, db);
  }

  lemma FollowsLaunch(s: State, step: Step, j: JobId, job': Job)
    requires j in s.jobs && Handover(s.jobs[j]) && Follows(s, step, j, job')
    ensures job'.runner.NoRunner? <==>
              s.jobs[j].runner.NoRunner? && !(step == JobActs(j, Call(Launch)) && !s.jobs[j].setupCanceled)
  {
    match step
    case JobActs(k, act) => if k == j { ActLaunches(s.jobs[j], act, s.shuttingDown); }
    case JobTransacts(k, env, req, again) => if k == j { TransactsStays(s.jobs[j], job', req); }
    case _ =>
  }

  lemma StepLaunches(s: State, step: Step, s': State, runtime: Text, j: JobId)
    requires Jobs(s) && Enabled(s, step, runtime) && s' == Do(s, step, runtime) && j in s.jobs
    ensures j in s'.jobs
    ensures s'.jobs[j].runner.NoRunner? <==>
              s.jobs[j].runner.NoRunner? && !(step == JobActs(j, Call(Launch)) && !s.jobs[j].setupCanceled)
  {
    JobFollows(s, step, runtime, j);
    JobFact(s, j);
    FollowsLaunch(s, step, j, s'.jobs[j]);
  }

  /** A new job has no runner. */
  lemma NewHasNone(s: State, step: Step, s': State, runtime: Text, j: JobId)
    requires Enabled(s, step, runtime) && s' == Do(s, step, runtime) && j !in s.jobs && j in s'.jobs
    ensures s'.jobs[j] == NewJob(s'.jobs[j].path)
  {
    match step
    case JobTransacts(k, env, req, again) => TransactKeepsKeys(s, k, env, req, again);
    case OthersTransact(path, env, req) => ServedIsRelapsed(s, path, env, req);
    case ShutdownActs(h) => HaltKeepsKeys(s, h, runtime);
    case _ =>
  }

  /** A job has a runner after a step if it had one, or if the step launches it. */
  lemma RunnerComes(s: State, step: Step, s': State, runtime: Text, j: JobId)
    requires Sound(s, runtime) && Enabled(s, step, runtime) && s' == Do(s, step, runtime) && j in s'.jobs
    ensures j !in s.jobs ==> s'.jobs[j].runner.NoRunner?
    ensures j in s.jobs ==> (s'.jobs[j].runner.NoRunner? <==>
              s.jobs[j].runner.NoRunner? && !(step == JobActs(j, Call(Launch)) && !s.jobs[j].setupCanceled))
  {
    if j in s.jobs {
      StepLaunches(s, step, s', runtime, j);
    } else {
      NewHasNone(s, step, s', runtime, j);
    }
  }

  lemma LaunchesEarlier(states: seq<State>, steps: seq<Step>, n: nat, i: nat, j: JobId)
    requires n < |steps| < |states|
    ensures Launches(states[..n + 1], steps[..n], i, j) <==> i < n && Launches(states, steps, i, j)
  {
  }

  lemma LastStep(states: seq<State>, steps: seq<Step>, runtime: Text, n: nat)
    requires Run(states, steps, runtime) && n < |steps|
    ensures Run(states[..n + 1], steps[..n], runtime) && Sound(states[n], runtime)
    ensures Enabled(states[n], steps[n], runtime) && states[n + 1] == Do(states[n], steps[n], runtime)
  {
    TraceTake(states, steps, runtime, n);
    RunSound(states[..n + 1], steps[..n], runtime);
  }

  lemma {:induction false} RunnerWasLaunched(states: seq<State>, steps: seq<Step>, runtime: Text, j: JobId)
    requires Run(states, steps, runtime) && j in states[|steps|].jobs && !states[|steps|].jobs[j].runner.NoRunner?
    ensures exists i: nat :: Launches(states, steps, i, j)
  {
    if steps != [] {
      var n := |steps| - 1;
      LastStep(states, steps, runtime, n);
      RunnerComes(states[n], steps[n], states[n + 1], runtime, j);
      if states[n].jobs[j].runner.NoRunner? {
        assert Launches(states, steps, n, j);
      } else {
        RunnerWasLaunched(states[..n + 1], steps[..n], runtime, j);
        var i: nat :| Launches(states[..n + 1], steps[..n], i, j);
        LaunchesEarlier(states, steps, n, i, j);
      }
    }
  }

  lemma LaunchesNow(states: seq<State>, steps: seq<Step>, i: nat, j: JobId)
    requires Launches(states, steps, i, j)
    ensures i < |steps| < |states| && j in states[i].jobs
    ensures steps[i] == JobActs(j, Call(Launch)) && !states[i].jobs[j].setupCanceled
  {
  }

  /** A job with a runner at state i has one in every later state. */
  lemma {:induction false} RunnerRemains(states: seq<State>, steps: seq<Step>, runtime: Text, i: nat, j: JobId)
    requires Run(states, steps, runtime) && i <= |steps| && j in states[i].jobs && !states[i].jobs[j].runner.NoRunner?
    ensures j in states[|steps|].jobs && !states[|steps|].jobs[j].runner.NoRunner?
    decreases |steps|
  {
    if i < |steps| {
      var n := |steps| - 1;
      LastStep(states, steps, runtime, n);
      RunnerRemains(states[..n + 1], steps[..n], runtime, i, j);
      LaunchedOnce(states[n], steps[n], states[n + 1], runtime, j);
    }
  }

  lemma LaunchedHasRunner(states: seq<State>, steps: seq<Step>, runtime: Text, i: nat, j: JobId)
    requires Run(states, steps, runtime) && Launches(states, steps, i, j)
    ensures j in states[|steps|].jobs && !states[|steps|].jobs[j].runner.NoRunner?
  {
    LaunchesNow(states, steps, i, j);
    LastStep(states, steps, runtime, i);
    LaunchedOnce(states[i], steps[i], states[i + 1], runtime, j);
    RunnerRemains(states, steps, runtime, i + 1, j);
  }

  lemma LaunchedOnce(s: State, step: Step, s': State, runtime: Text, j: JobId)
    requires Sound(s, runtime) && Enabled(s, step, runtime) && s' == Do(s, step, runtime) && j in s.jobs
    requires !s.jobs[j].runner.NoRunner? || (step == JobActs(j, Call(Launch)) && !s.jobs[j].setupCanceled)
    ensures j in s'.jobs && !s'.jobs[j].runner.NoRunner?
  {
    StepLaunches(s, step, s', runtime, j);
  }

  /** A job has a runner if and only if the run has launched it. */
  lemma RunnerIffLaunched(states: seq<State>, steps: seq<Step>, runtime: Text, j: JobId)
    requires Run(states, steps, runtime) && j in states[|steps|].jobs
    ensures !states[|steps|].jobs[j].runner.NoRunner? <==> exists i: nat :: Launches(states, steps, i, j)
  {
    if !states[|steps|].jobs[j].runner.NoRunner? {
      RunnerWasLaunched(states, steps, runtime, j);
    }
    forall i: nat | Launches(states, steps, i, j)
      ensures !states[|steps|].jobs[j].runner.NoRunner?
    {
      LaunchedHasRunner(states, steps, runtime, i, j);
    }
  }

  lemma OneOwner(job: Job)
    requires Owning(job, if job.runner.NoRunner? then TheSetup else TheRunner)
    ensures forall owner :: Owning(job, owner) <==> owner == if job.runner.NoRunner? then TheSetup else TheRunner
  {
  }

  /** In every run, a run found in ownedRuns has exactly one goroutine that owns it, which
      can be canceled and is the one named: its runner if one was launched, and otherwise
      its setup. The branch that names the cleanup, and the one without an owner, are never
      taken. */
  lemma OwnedHasOwner(states: seq<State>, steps: seq<Step>, runtime: Text, key: RunKey)
    requires Run(states, steps, runtime) && key in states[|steps|].ownedRuns
    ensures states[|steps|].ownedRuns[key] in states[|steps|].jobs
    ensures var j := states[|steps|].ownedRuns[key];
            var job := states[|steps|].jobs[j];
            && (OwnerOf(job) == Some(TheRunner) <==> exists i: nat :: Launches(states, steps, i, j))
            && (OwnerOf(job) == Some(TheSetup) <==> !exists i: nat :: Launches(states, steps, i, j))
            && (forall owner :: Owning(job, owner) <==> OwnerOf(job) == Some(owner))
  {
    RunSound(states, steps, runtime);
    OwnedIsListed(states[|steps|], key);
    RunnerIffLaunched(states, steps, runtime, states[|steps|].ownedRuns[key]);
    OneOwner(states[|steps|].jobs[states[|steps|].ownedRuns[key]]);
  }
}

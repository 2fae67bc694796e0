/** What one step of the protocol makes of a job and of the shutdown, and the states that
    follow from one another. */
module Steps {
  import opened Texts
  import opened Types
  import opened Transactions
  import opened Protocol
  import opened Ownership
  import opened Shutdown

  // --- one job ---------------------------------------------------------------

  /** What a step makes of a job: its own act or transaction, a cancellation by the
      shutdown, or nothing but the discovery that its lease has run out. */
  ghost predicate Follows(s: State, step: Step, j: JobId, job': Job)
    requires j in s.jobs
  {
    var job := s.jobs[j];
    match step
    case JobActs(k, act) => if k == j then CanAct(job, act) && job' == AfterAct(job, act, s.shuttingDown) else job' == job
    case JobTransacts(k, env, req, again) => if k == j then Transacts(job, job', req) else SameButLapse(job, job')
    case OthersTransact(_, _, _) => SameButLapse(job, job')
    case ShutdownActs(h) =>
      if Cancels(h) && h.j == j then job' == CancelStep(job, if h.CancelSetupTask? then CancelSetup else CancelRunner)
      else SameButLapse(job, job')
    case _ => job' == job
  }

  ghost predicate Transacts(job: Job, job': Job, req: Request) {
    CanTransact(job, req)
    && exists job1, committed, again, db {:trigger Transacted(job1, req, committed, again, db)} ::
         SameButLapse(job, job1) && CanTransact(job1, req) && job' == Transacted(job1, req, committed, again, db)
  }

  lemma MovedJob(s: State, k: JobId, act: Act, j: JobId)
    requires k in s.jobs && j in s.jobs && CanAct(s.jobs[k], act)
    ensures var s' := ActOn(s, k, act);
            j in s'.jobs && s'.jobs[j] == if k == j then AfterAct(s.jobs[j], act, s.shuttingDown) else s.jobs[j]
  {
  }

  lemma ServedJob(s: State, path: Text, env: Env, req: Request, j: JobId)
    requires path in s.dbs && j in s.jobs
    ensures var s' := Served(s, path, env, req);
            j in s'.jobs && SameButLapse(s.jobs[j], s'.jobs[j])
  {
    ServedIsRelapsed(s, path, env, req);
  }

  lemma TransactedJob(s: State, k: JobId, env: Env, req: Request, again: bool, j: JobId)
    requires k in s.jobs && j in s.jobs && CanTransact(s.jobs[k], req) && s.jobs[k].path in s.dbs
    ensures var s' := TransactOn(s, k, env, req, again);
            && j in s'.jobs
            && if k == j then Transacts(s.jobs[j], s'.jobs[j], req) else SameButLapse(s.jobs[j], s'.jobs[j])
  {
    var path := s.jobs[k].path;
    var committed := Transaction(s.dbs[path], env, req).Commit?;
    ServedJob(s, path, env, req, k);
    ServedJob(s, path, env, req, j);
    CanStill(s.jobs[k], Served(s, path, env, req).jobs[k], req);
    SetTransactedJob(Served(s, path, env, req), k, req, committed, again, Served(s, path, env, req).dbs[path], j);
    TransactOnIs(s, k, env, req, again);
  }

  lemma TransactOnIs(s: State, k: JobId, env: Env, req: Request, again: bool)
    requires k in s.jobs && CanTransact(s.jobs[k], req) && s.jobs[k].path in s.dbs
    requires var s1 := Served(s, s.jobs[k].path, env, req); k in s1.jobs && CanTransact(s1.jobs[k], req)
    ensures var path := s.jobs[k].path;
            var s1 := Served(s, path, env, req);
            TransactOn(s, k, env, req, again)
            == s1.(jobs := s1.jobs[k := Transacted(s1.jobs[k], req, Transaction(s.dbs[path], env, req).Commit?, again, s1.dbs[path])])
  {
  }

  lemma SetTransactedJob(s: State, k: JobId, req: Request, committed: bool, again: bool, db: Db, j: JobId)
    requires k in s.jobs && j in s.jobs && CanTransact(s.jobs[k], req)
    ensures var jobs := s.jobs[k := Transacted(s.jobs[k], req, committed, again, db)];
            j in jobs && jobs[j] == if k == j then Transacted(s.jobs[j], req, committed, again, db) else s.jobs[j]
  {
  }

  lemma HaltedJob(s: State, h: Halt, runtime: Text, j: JobId)
    requires CanHalt(s, h, runtime) && j in s.jobs
    ensures j in HaltOn(s, h, runtime).jobs && Follows(s, ShutdownActs(h), j, HaltOn(s, h, runtime).jobs[j])
  {
    if h.InterruptStore? {
      ServedJob(s, h.path, h.env, InterruptRuntime(h.message), j);
    } else if Cancels(h) {
      CanceledFrame(s, h);
    } else {
      HaltFrame(s, h, runtime);
    }
  }

  /** Every job of a state is there in the next one. */
  lemma JobFollows(s: State, step: Step, runtime: Text, j: JobId)
    requires Enabled(s, step, runtime) && j in s.jobs
    ensures j in Do(s, step, runtime).jobs && Follows(s, step, j, Do(s, step, runtime).jobs[j])
  {
    match step
    case OpenStore(_) =>
    case Reserve(_, _) =>
    case JobActs(k, act) => MovedJob(s, k, act, j);
    case JobTransacts(k, env, req, again) => TransactedJob(s, k, env, req, again, j);
    case OthersTransact(path, env, req) => ServedJob(s, path, env, req, j);
    case ShutdownActs(h) => HaltedJob(s, h, runtime, j);
  }

  /** What is never undone: a job's claim, its cancellation, its end, a lapse. */
  predicate Grows(job: Job, job': Job) {
    && job'.path == job.path && (job.key.Some? ==> job'.key == job.key)
    && (job.setupCanceled ==> job'.setupCanceled) && (job.parentCanceled ==> job'.parentCanceled)
    && (job.lapsed ==> job'.lapsed)
    && (job.runner.Finished? ==> job'.runner.Finished?)
  }

  lemma ActGrows(job: Job, act: Act, shuttingDown: bool)
    requires JobOk(job) && CanAct(job, act)
    ensures Grows(job, AfterAct(job, act, shuttingDown))
  {
    match act
    case Call(c) => CallGrows(job, c, shuttingDown);
    case Runner(r) => RunnerGrows(job, r);
    case Clean(k) => CleanupGrows(job, k);
    case Cancel(_) =>
  }

  lemma CallGrows(job: Job, c: CallAct, shuttingDown: bool)
    requires Handover(job) && CanCall(job, c)
    ensures Grows(job, CallStep(job, c, shuttingDown))
  {
  }

  lemma RunnerGrows(job: Job, r: RunnerAct)
    requires CanRun(job, r)
    ensures Grows(job, RunnerStep(job, r))
  {
  }

  lemma CleanupGrows(job: Job, k: CleanupAct)
    requires CanClean(job, k)
    ensures Grows(job, CleanupStep(job, k))
  {
  }

  lemma TransactedGrows(job: Job, req: Request, committed: bool, again: bool, db: Db)
    requires CanTransact(job, req)
    ensures Grows(job, Transacted(job, req, committed, again, db))
  {
  }

  lemma JobGrows(s: State, step: Step, runtime: Text, j: JobId)
    requires Jobs(s) && Enabled(s, step, runtime) && j in s.jobs
    ensures j in Do(s, step, runtime).jobs && Grows(s.jobs[j], Do(s, step, runtime).jobs[j])
  {
    JobFollows(s, step, runtime, j);
    JobFact(s, j);
    FollowsGrows(s, step, j, Do(s, step, runtime).jobs[j]);
  }

  lemma FollowsGrows(s: State, step: Step, j: JobId, job': Job)
    requires j in s.jobs && JobOk(s.jobs[j]) && Follows(s, step, j, job')
    ensures Grows(s.jobs[j], job')
  {
    match step
    case JobActs(k, act) => if k == j { ActGrows(s.jobs[j], act, s.shuttingDown); }
    case JobTransacts(k, env, req, again) =>
      if k == j {
        var job1, committed, again, db :|
          SameButLapse(s.jobs[j], job1) && CanTransact(job1, req) && job' == Transacted(job1, req, committed, again, db);
        TransactedGrows(job1, req, committed, again, db);
      }
    case _ =>
  }

  /** No job is added while the session shuts down. */
  lemma NoNewJob(s: State, step: Step, runtime: Text, j: JobId)
    requires Enabled(s, step, runtime) && s.shuttingDown && j in Do(s, step, runtime).jobs
    ensures j in s.jobs
  {
    match step
    case JobTransacts(k, env, req, again) => TransactKeepsKeys(s, k, env, req, again);
    case OthersTransact(path, env, req) => ServedIsRelapsed(s, path, env, req);
    case ShutdownActs(h) => HaltKeepsKeys(s, h, runtime);
    case _ =>
  }

  lemma TransactKeepsKeys(s: State, k: JobId, env: Env, req: Request, again: bool)
    requires k in s.jobs && CanTransact(s.jobs[k], req) && s.jobs[k].path in s.dbs
    ensures TransactOn(s, k, env, req, again).jobs.Keys == s.jobs.Keys
  {
  }

  lemma HaltKeepsKeys(s: State, h: Halt, runtime: Text)
    requires CanHalt(s, h, runtime)
    ensures HaltOn(s, h, runtime).jobs.Keys == s.jobs.Keys
  {
    if h.InterruptStore? {
      ServedIsRelapsed(s, h.path, h.env, InterruptRuntime(h.message));
    }
  }

  // --- the shutdown ----------------------------------------------------------

  lemma OnlyHaltsMove(s: State, step: Step, runtime: Text)
    requires Enabled(s, step, runtime) && !step.ShutdownActs?
    ensures Do(s, step, runtime).shutdown == s.shutdown && Do(s, step, runtime).shuttingDown == s.shuttingDown
  {
  }

  /** The first pass has taken its tasks and not yet gone on to the reservations. */
  predicate InFirstPass(pc: ShutdownPc) { pc.FirstPass? || pc.FirstPassed? }

  /** How a state within the first pass comes about. */
  ghost predicate PassStep(s: State, step: Step, s': State)
    requires InFirstPass(s'.shutdown)
  {
    if step == ShutdownActs(TakeFirst) then s.shutdown.Flagged? && s' == s.(shutdown := FirstPass(Snapshot(s)))
    else
      && InFirstPass(s.shutdown)
      && s'.shutdown.taken.setups == s.shutdown.taken.setups && s'.shutdown.taken.runners == s.shutdown.taken.runners
      && (s'.shutdown.FirstPass? ==> s.shutdown.FirstPass?)
      && (s'.shutdown.FirstPassed? && s.shutdown.FirstPass? ==>
            PassDone(s, s.shutdown.taken) && s' == s.(shutdown := s'.shutdown))
      && (forall j | j in s.shutdown.taken.setupsLeft && j !in s'.shutdown.taken.setupsLeft ::
            step == ShutdownActs(CancelSetupTask(j)))
  }

  lemma HaltsPassFollows(s: State, h: Halt, runtime: Text)
    requires CanHalt(s, h, runtime) && !h.InterruptStore? && !Cancels(h) && InFirstPass(HaltOn(s, h, runtime).shutdown)
    ensures PassStep(s, ShutdownActs(h), HaltOn(s, h, runtime))
  {
  }

  lemma CancelPassFollows(s: State, h: Halt)
    requires CanCancelTask(s, h) && InFirstPass(TaskCanceled(s, h).shutdown)
    ensures PassStep(s, ShutdownActs(h), TaskCanceled(s, h))
  {
    CanceledFrame(s, h);
  }

  lemma PassFollows(s: State, step: Step, runtime: Text)
    requires Enabled(s, step, runtime) && InFirstPass(Do(s, step, runtime).shutdown)
    ensures PassStep(s, step, Do(s, step, runtime))
  {
    if !step.ShutdownActs? {
      OnlyHaltsMove(s, step, runtime);
    } else if Cancels(step.h) {
      CancelPassFollows(s, step.h);
    } else if !step.h.InterruptStore? {
      HaltsPassFollows(s, step.h, runtime);
    }
  }

  // --- traces ----------------------------------------------------------------

  ghost predicate Reaches(s: State, s': State, runtime: Text) {
    exists states, steps {:trigger Trace(states, steps, runtime)} ::
      Trace(states, steps, runtime) && states[0] == s && states[|steps|] == s'
  }

  lemma StaysThere(s: State, runtime: Text)
    ensures Reaches(s, s, runtime)
  {
    assert Trace([s], [], runtime);
  }

  lemma StepReaches(s: State, step: Step, runtime: Text)
    requires Enabled(s, step, runtime)
    ensures Reaches(s, Do(s, step, runtime), runtime)
  {
    assert Trace([s, Do(s, step, runtime)], [step], runtime);
  }

  lemma TraceStep(states: seq<State>, steps: seq<Step>, runtime: Text, i: nat)
    requires Trace(states, steps, runtime) && i < |steps|
    ensures Enabled(states[i], steps[i], runtime) && states[i + 1] == Do(states[i], steps[i], runtime)
  {
  }

  /** The i-th state and step of a trace that is followed by another. */
  lemma JoinedFront(states1: seq<State>, steps1: seq<Step>, states2: seq<State>, steps2: seq<Step>, i: nat)
    requires |states1| == |steps1| + 1 && |states2| == |steps2| + 1 && i < |steps1|
    ensures var states, steps := states1 + states2[1..], steps1 + steps2;
            steps[i] == steps1[i] && states[i] == states1[i] && states[i + 1] == states1[i + 1]
  {
  }

  lemma JoinedBack(states1: seq<State>, steps1: seq<Step>, states2: seq<State>, steps2: seq<Step>, k: nat)
    requires |states1| == |steps1| + 1 && |states2| == |steps2| + 1 && k < |steps2| && states1[|steps1|] == states2[0]
    ensures var states, steps, n := states1 + states2[1..], steps1 + steps2, |steps1|;
            steps[n + k] == steps2[k] && states[n + k] == states2[k] && states[n + k + 1] == states2[k + 1]
  {
  }

  lemma JoinedAt(states1: seq<State>, steps1: seq<Step>, states2: seq<State>, steps2: seq<Step>, runtime: Text, i: nat)
    requires Trace(states1, steps1, runtime) && Trace(states2, steps2, runtime) && states1[|steps1|] == states2[0]
    requires i < |steps1| + |steps2|
    ensures var states, steps := states1 + states2[1..], steps1 + steps2;
            Enabled(states[i], steps[i], runtime) && states[i + 1] == Do(states[i], steps[i], runtime)
  {
    if i < |steps1| {
      TraceStep(states1, steps1, runtime, i);
      JoinedFront(states1, steps1, states2, steps2, i);
    } else {
      TraceStep(states2, steps2, runtime, i - |steps1|);
      JoinedBack(states1, steps1, states2, steps2, i - |steps1|);
    }
  }

  lemma TraceJoin(states1: seq<State>, steps1: seq<Step>, states2: seq<State>, steps2: seq<Step>, runtime: Text)
    requires Trace(states1, steps1, runtime) && Trace(states2, steps2, runtime) && states1[|steps1|] == states2[0]
    ensures Trace(states1 + states2[1..], steps1 + steps2, runtime)
    ensures (states1 + states2[1..])[|steps1 + steps2|] == states2[|steps2|]
  {
    var states, steps := states1 + states2[1..], steps1 + steps2;
    forall i | 0 <= i < |steps|
      ensures Enabled(states[i], steps[i], runtime) && states[i + 1] == Do(states[i], steps[i], runtime)
    {
      JoinedAt(states1, steps1, states2, steps2, runtime, i);
    }
  }

  lemma ReachesOn(s: State, s1: State, s2: State, runtime: Text)
    requires Reaches(s, s1, runtime) && Reaches(s1, s2, runtime)
    ensures Reaches(s, s2, runtime)
  {
    var states1, steps1 :| Trace(states1, steps1, runtime) && states1[0] == s && states1[|steps1|] == s1;
    var states2, steps2 :| Trace(states2, steps2, runtime) && states2[0] == s1 && states2[|steps2|] == s2;
    TraceJoin(states1, steps1, states2, steps2, runtime);
  }

  lemma SoundOnward(s: State, s': State, runtime: Text)
    requires Sound(s, runtime) && Reaches(s, s', runtime)
    ensures Sound(s', runtime)
  {
    var states, steps :| Trace(states, steps, runtime) && states[0] == s && states[|steps|] == s';
    TraceSound(states, steps, runtime);
  }
}

/** What a goroutine does rests on what it has found before: only a claim that was judged
    acceptable is set up, and a failure is written only over a run the parent had not
    canceled when its client was closed. */
module Decisions {
  import opened Texts
  import opened Types
  import opened Transactions
  import opened Protocol
  import opened Ownership
  import opened Shutdown
  import opened Steps
  import opened Owners

  // --- judged claims ---------------------------------------------------------

  /** The claim has been found acceptable: it goes on to a setup or is in one, or has a
      runner. */
  predicate GoesOn(job: Job) {
    || job.pc == Leaving(true) || job.pc == Closing(true) || job.pc.Gap? || InSetup(job.pc) || job.pc.SetupClosing?
    || !job.runner.NoRunner?
  }

  lemma CallGoesOn(job: Job, c: CallAct, shuttingDown: bool)
    requires Handover(job) && CanCall(job, c) && GoesOn(CallStep(job, c, shuttingDown))
    ensures GoesOn(job) || (c == Judge(false) && !shuttingDown)
  {
    match c
    case Judge(_) =>
    case GiveUp =>
    case Unreserve =>
    case CloseReservation =>
    case _ =>
  }

  lemma ActGoesOn(job: Job, act: Act, shuttingDown: bool)
    requires Handover(job) && CanAct(job, act) && GoesOn(AfterAct(job, act, shuttingDown))
    ensures GoesOn(job) || (act == Call(Judge(false)) && !shuttingDown)
  {
    match act
    case Call(c) => CallGoesOn(job, c, shuttingDown);
    case Runner(r) => RunnerStays(job, r);
    case Clean(k) => CleanupStays(job, k);
    case Cancel(_) =>
  }

  lemma EndingGoesOn(job: Job, completing: bool, committed: bool)
    ensures GoesOn(AfterEnding(job, completing, committed)) ==> GoesOn(job)
  {
  }

  lemma TransactedGoesOn(job: Job, req: Request, committed: bool, again: bool, db: Db)
    requires CanTransact(job, req) && GoesOn(Transacted(job, req, committed, again, db))
    ensures GoesOn(job)
  {
    if !Claims(req) && !req.Heartbeat? && (committed || !again) {
      EndingGoesOn(job, req.CompleteCancel?, committed);
    }
  }

  lemma TransactsGoesOn(job: Job, job': Job, req: Request)
    requires Transacts(job, job', req) && GoesOn(job')
    ensures GoesOn(job)
  {
    var job1, committed, again, db :|
      SameButLapse(job, job1) && CanTransact(job1, req) && job' == Transacted(job1, req, committed, again, db);
    TransactedGoesOn(job1, req, committed, again, db);
  }

  lemma FollowsGoesOn(s: State, step: Step, j: JobId, job': Job)
    requires j in s.jobs && Handover(s.jobs[j]) && Follows(s, step, j, job') && GoesOn(job')
    ensures GoesOn(s.jobs[j]) || (step == JobActs(j, Call(Judge(false))) && !s.shuttingDown)
  {
    match step
    case JobActs(k, act) => if k == j { ActGoesOn(s.jobs[j], act, s.shuttingDown); }
    case JobTransacts(k, env, req, again) => if k == j { TransactsGoesOn(s.jobs[j], job', req); }
    case _ =>
  }

  lemma NewDoesNotGoOn(path: Text)
    ensures !GoesOn(NewJob(path))
  {
  }

  lemma StepGoesOn(s: State, step: Step, s': State, runtime: Text, j: JobId)
    requires Sound(s, runtime) && Enabled(s, step, runtime) && s' == Do(s, step, runtime) && j in s'.jobs && GoesOn(s'.jobs[j])
    ensures j in s.jobs && (GoesOn(s.jobs[j]) || (step == JobActs(j, Call(Judge(false))) && !s.shuttingDown))
  {
    if j !in s.jobs {
      NewHasNone(s, step, s', runtime, j);
      NewDoesNotGoOn(s'.jobs[j].path);
    } else {
      JobFollows(s, step, runtime, j);
      JobFact(s, j);
      FollowsGoesOn(s, step, j, s'.jobs[j]);
    }
  }

  /** Step i finds that neither j's caller nor the session has stopped. */
  ghost predicate Accepts(states: seq<State>, steps: seq<Step>, i: nat, j: JobId) {
    i < |steps| < |states| && steps[i] == JobActs(j, Call(Judge(false))) && !states[i].shuttingDown
  }

  lemma AcceptsEarlier(states: seq<State>, steps: seq<Step>, n: nat, i: nat, j: JobId)
    requires n < |steps| < |states| && Accepts(states[..n + 1], steps[..n], i, j)
    ensures Accepts(states, steps, i, j)
  {
  }

  /** In every run, a claim is set up, and its runner launched, only if after its commit
      neither its caller nor the session was found to have stopped. */
  lemma {:induction false} OnlyAcceptedGoOn(states: seq<State>, steps: seq<Step>, runtime: Text, j: JobId)
    requires Run(states, steps, runtime) && j in states[|steps|].jobs && GoesOn(states[|steps|].jobs[j])
    ensures exists i: nat :: Accepts(states, steps, i, j)
  {
    if steps != [] {
      var n := |steps| - 1;
      LastStep(states, steps, runtime, n);
      StepGoesOn(states[n], steps[n], states[n + 1], runtime, j);
      if GoesOn(states[n].jobs[j]) {
        OnlyAcceptedGoOn(states[..n + 1], steps[..n], runtime, j);
        var i: nat :| Accepts(states[..n + 1], steps[..n], i, j);
        AcceptsEarlier(states, steps, n, i, j);
      } else {
        assert Accepts(states, steps, n, j);
      }
    }
  }

  // --- failures that are written ---------------------------------------------

  predicate Writes(job: Job) { job.cleanup == Writing(true) }

  lemma ActWrites(job: Job, act: Act, shuttingDown: bool)
    requires Handover(job) && CanAct(job, act) && Writes(AfterAct(job, act, shuttingDown))
    ensures Writes(job) || (act == Clean(CloseClient) && !job.parentCanceled)
  {
    match act
    case Call(c) => CallCleanup(job, c, shuttingDown);
    case Runner(r) => RunnerCleanup(job, r);
    case Clean(k) => CleanupWrites(job, k);
    case Cancel(_) =>
  }

  lemma CallCleanup(job: Job, c: CallAct, shuttingDown: bool)
    requires CanCall(job, c)
    ensures CallStep(job, c, shuttingDown).cleanup == if c.StartSetupCleanup? then ClosingClient(true) else job.cleanup
  {
  }

  lemma RunnerCleanup(job: Job, r: RunnerAct)
    requires CanRun(job, r)
    ensures RunnerStep(job, r).cleanup == if r.StartCleanup? then ClosingClient(job.runner.failed) else job.cleanup
  {
  }

  lemma CleanupWrites(job: Job, k: CleanupAct)
    requires CanClean(job, k) && Writes(CleanupStep(job, k))
    ensures k == CloseClient && !job.parentCanceled
  {
  }

  lemma EndingWrites(job: Job, completing: bool, committed: bool)
    ensures Writes(AfterEnding(job, completing, committed)) ==> Writes(job)
  {
  }

  lemma TransactedWrites(job: Job, req: Request, committed: bool, again: bool, db: Db)
    requires CanTransact(job, req) && Writes(Transacted(job, req, committed, again, db))
    ensures Writes(job)
  {
    if !Claims(req) && !req.Heartbeat? && (committed || !again) {
      EndingWrites(job, req.CompleteCancel?, committed);
    }
  }

  lemma TransactsWrites(job: Job, job': Job, req: Request)
    requires Transacts(job, job', req) && Writes(job')
    ensures Writes(job)
  {
    var job1, committed, again, db :|
      SameButLapse(job, job1) && CanTransact(job1, req) && job' == Transacted(job1, req, committed, again, db);
    TransactedWrites(job1, req, committed, again, db);
  }

  lemma FollowsWrites(s: State, step: Step, j: JobId, job': Job)
    requires j in s.jobs && Handover(s.jobs[j]) && Follows(s, step, j, job') && Writes(job')
    ensures Writes(s.jobs[j]) || (step == JobActs(j, Clean(CloseClient)) && !s.jobs[j].parentCanceled)
  {
    match step
    case JobActs(k, act) => if k == j { ActWrites(s.jobs[j], act, s.shuttingDown); }
    case JobTransacts(k, env, req, again) => if k == j { TransactsWrites(s.jobs[j], job', req); }
    case _ =>
  }

  lemma StepWrites(s: State, step: Step, s': State, runtime: Text, j: JobId)
    requires Sound(s, runtime) && Enabled(s, step, runtime) && s' == Do(s, step, runtime) && j in s'.jobs && Writes(s'.jobs[j])
    ensures j in s.jobs
    ensures Writes(s.jobs[j]) || (step == JobActs(j, Clean(CloseClient)) && !s.jobs[j].parentCanceled)
  {
    if j !in s.jobs {
      NewHasNone(s, step, s', runtime, j);
    } else {
      JobFollows(s, step, runtime, j);
      JobFact(s, j);
      FollowsWrites(s, step, j, s'.jobs[j]);
    }
  }

  /** Step i closes j's client and finds that the parent has not canceled the run. */
  ghost predicate FindsUncanceled(states: seq<State>, steps: seq<Step>, i: nat, j: JobId) {
    i < |steps| < |states| && steps[i] == JobActs(j, Clean(CloseClient)) && j in states[i].jobs && !states[i].jobs[j].parentCanceled
  }

  lemma FoundEarlier(states: seq<State>, steps: seq<Step>, n: nat, i: nat, j: JobId)
    requires n < |steps| < |states| && FindsUncanceled(states[..n + 1], steps[..n], i, j)
    ensures FindsUncanceled(states, steps, i, j)
  {
  }

  /** In every run, a cleanup writes an outcome of its own only if the parent had not
      canceled the run when its client was closed: a cancellation is not overwritten. */
  lemma {:induction false} CanceledIsNotOverwritten(states: seq<State>, steps: seq<Step>, runtime: Text, j: JobId)
    requires Run(states, steps, runtime) && j in states[|steps|].jobs && Writes(states[|steps|].jobs[j])
    ensures exists i: nat :: FindsUncanceled(states, steps, i, j)
  {
    if steps != [] {
      var n := |steps| - 1;
      LastStep(states, steps, runtime, n);
      StepWrites(states[n], steps[n], states[n + 1], runtime, j);
      if Writes(states[n].jobs[j]) {
        CanceledIsNotOverwritten(states[..n + 1], steps[..n], runtime, j);
        var i: nat :| FindsUncanceled(states[..n + 1], steps[..n], i, j);
        FoundEarlier(states, steps, n, i, j);
      } else {
        assert FindsUncanceled(states, steps, n, j);
      }
    }
  }

  // --- failures that are not written -----------------------------------------

  /** The cleanup has no failure to write. */
  predicate Spared(job: Job) {
    job.runner == RunnerPc.Ending(false) || job.cleanup == ClosingClient(false) || job.cleanup == Writing(false)
  }

  lemma RunnerSpared(job: Job, r: RunnerAct)
    requires CanRun(job, r) && Spared(RunnerStep(job, r))
    ensures Spared(job) || job.parentCanceled
  {
    RunnerCleanup(job, r);
    match r
    case FailRunner =>
    case CanceledAnswer =>
    case StartCleanup =>
    case _ =>
  }

  lemma CallSpared(job: Job, c: CallAct, shuttingDown: bool)
    requires CanCall(job, c) && Spared(CallStep(job, c, shuttingDown))
    ensures Spared(job)
  {
    CallCleanup(job, c, shuttingDown);
    CallLaunches(job, c, shuttingDown);
  }

  lemma CleanupSpared(job: Job, k: CleanupAct)
    requires CanClean(job, k) && Spared(CleanupStep(job, k))
    ensures Spared(job) || job.parentCanceled
  {
    CleanupStays(job, k);
    match k
    case CloseClient =>
    case Attached(_) =>
    case _ =>
  }

  lemma ActSpared(job: Job, act: Act, shuttingDown: bool)
    requires CanAct(job, act) && Spared(AfterAct(job, act, shuttingDown))
    ensures Spared(job) || job.parentCanceled
  {
    match act
    case Call(c) => CallSpared(job, c, shuttingDown);
    case Runner(r) => RunnerSpared(job, r);
    case Clean(k) => CleanupSpared(job, k);
    case Cancel(_) =>
  }

  lemma EndingSpared(job: Job, completing: bool, committed: bool)
    requires CanEnd(job, completing) && Spared(AfterEnding(job, completing, committed))
    ensures Spared(job) || (!completing && job.runner.Answered?)
  {
  }

  /** An answer is sent as the outcome of the run. */
  lemma AnswerIsFinish(job: Job, req: Request)
    requires Handover(job) && CanTransact(job, req) && !req.CompleteCancel? && job.runner.Answered?
    ensures req.Finish?
  {
  }

  lemma TransactedSpared(job: Job, req: Request, committed: bool, again: bool, db: Db)
    requires Handover(job) && CanTransact(job, req) && Spared(Transacted(job, req, committed, again, db))
    ensures Spared(job) || (req.Finish? && job.runner.Answered?)
  {
    if !Claims(req) && !req.Heartbeat? && (committed || !again) {
      Endings(job, req);
      EndingSpared(job, req.CompleteCancel?, committed);
      if !Spared(job) {
        AnswerIsFinish(job, req);
      }
    }
  }

  lemma LapseSpares(job: Job, job1: Job)
    requires SameButLapse(job, job1)
    ensures Spared(job1) == Spared(job) && job1.runner == job.runner
  {
  }

  lemma TransactsSpared(job: Job, job': Job, req: Request)
    requires JobOk(job) && Transacts(job, job', req) && Spared(job')
    ensures Spared(job) || (req.Finish? && job.runner.Answered?)
  {
    var job1, committed, again, db :|
      SameButLapse(job, job1) && CanTransact(job1, req) && job' == Transacted(job1, req, committed, again, db);
    LapseKeepsJob(job, job1);
    LapseSpares(job, job1);
    TransactedSpared(job1, req, committed, again, db);
  }

  /** The step sends the answer of j's runner to the store. */
  ghost predicate SendsAnswer(s: State, step: Step, j: JobId) {
    step.JobTransacts? && step.j == j && step.req.Finish? && j in s.jobs && s.jobs[j].runner.Answered?
  }

  lemma FollowsSpared(s: State, step: Step, j: JobId, job': Job)
    requires j in s.jobs && JobOk(s.jobs[j]) && Follows(s, step, j, job') && Spared(job')
    ensures Spared(s.jobs[j]) || s.jobs[j].parentCanceled || SendsAnswer(s, step, j)
  {
    match step
    case JobActs(k, act) => if k == j { ActSpared(s.jobs[j], act, s.shuttingDown); }
    case JobTransacts(k, env, req, again) => if k == j { TransactsSpared(s.jobs[j], job', req); }
    case _ =>
  }

  lemma NewIsNotSpared(path: Text)
    ensures !Spared(NewJob(path))
  {
  }

  lemma StepSpared(s: State, step: Step, s': State, runtime: Text, j: JobId)
    requires Sound(s, runtime) && Enabled(s, step, runtime) && s' == Do(s, step, runtime) && j in s'.jobs
    requires Spared(s'.jobs[j]) && !s'.jobs[j].parentCanceled
    ensures j in s.jobs && ((Spared(s.jobs[j]) && !s.jobs[j].parentCanceled) || SendsAnswer(s, step, j))
  {
    if j !in s.jobs {
      NewHasNone(s, step, s', runtime, j);
      NewIsNotSpared(s'.jobs[j].path);
    } else {
      JobFollows(s, step, runtime, j);
      JobFact(s, j);
      JobGrows(s, step, runtime, j);
      FollowsSpared(s, step, j, s'.jobs[j]);
    }
  }

  ghost predicate Answers(states: seq<State>, steps: seq<Step>, i: nat, j: JobId) {
    i < |steps| < |states| && SendsAnswer(states[i], steps[i], j)
  }

  lemma AnswersEarlier(states: seq<State>, steps: seq<Step>, n: nat, i: nat, j: JobId)
    requires n < |steps| < |states| && Answers(states[..n + 1], steps[..n], i, j)
    ensures Answers(states, steps, i, j)
  {
  }

  /** In every run, a cleanup is spared from writing a failure only if the runner has sent
      its answer to the store, or the parent has canceled the run. */
  lemma {:induction false} FailuresAreWritten(states: seq<State>, steps: seq<Step>, runtime: Text, j: JobId)
    requires Run(states, steps, runtime) && j in states[|steps|].jobs && Spared(states[|steps|].jobs[j])
    ensures states[|steps|].jobs[j].parentCanceled || exists i: nat :: Answers(states, steps, i, j)
  {
    if steps != [] && !states[|steps|].jobs[j].parentCanceled {
      var n := |steps| - 1;
      LastStep(states, steps, runtime, n);
      StepSpared(states[n], steps[n], states[n + 1], runtime, j);
      if SendsAnswer(states[n], steps[n], j) {
        assert Answers(states, steps, n, j);
      } else {
        FailuresAreWritten(states[..n + 1], steps[..n], runtime, j);
        var i: nat :| Answers(states[..n + 1], steps[..n], i, j);
        AnswersEarlier(states, steps, n, i, j);
      }
    }
  }
}

/** The first pass of the shutdown: which runners it may leave running, how they got past
    it, and exactly when one can. */
module FirstPass {
  import opened Texts
  import opened Types
  import opened Schema
  import opened Transactions
  import opened Legality
  import opened Fencing
  import opened Protocol
  import opened Ownership
  import opened Runtimes
  import opened Shutdown
  import opened ClientFence
  import opened Steps

  /** A run that is still owned, with a live runner. */
  predicate Crossed(job: Job) { IsOwned(job) && RunnerLive(job.runner) }

  /** The setups the first pass is done with are canceled, and after it every runner it
      took has finished. */
  ghost predicate Warned(s: State) {
    && (s.shutdown.FirstPass? ==>
          forall j {:trigger s.jobs[j]} | j in s.jobs && j in s.shutdown.taken.setups && j !in s.shutdown.taken.setupsLeft ::
            s.jobs[j].setupCanceled)
    && (s.shutdown.FirstPassed? ==>
          forall j {:trigger s.jobs[j]} | j in s.jobs && j in s.shutdown.taken.runners :: s.jobs[j].runner.Finished?)
  }

  ghost predicate Good(s: State, runtime: Text) { Sound(s, runtime) && Fences(s, runtime) && Warned(s) }

  // --- what the pass has done ------------------------------------------------

  lemma Shutting(s: State)
    requires Drains(s) && InFirstPass(s.shutdown)
    ensures s.shuttingDown
  {
  }

  /** What the first pass has done about a job. */
  ghost predicate WarnedJob(pc: ShutdownPc, j: JobId, job: Job) {
    && (pc.FirstPass? && j in pc.taken.setups && j !in pc.taken.setupsLeft ==> job.setupCanceled)
    && (pc.FirstPassed? && j in pc.taken.runners ==> job.runner.Finished?)
  }

  lemma WarnedAt(s: State, step: Step, runtime: Text, j: JobId)
    requires Jobs(s) && Warned(s) && Enabled(s, step, runtime) && step != ShutdownActs(TakeFirst) && j in s.jobs
    requires InFirstPass(Do(s, step, runtime).shutdown)
    ensures j in Do(s, step, runtime).jobs && WarnedJob(Do(s, step, runtime).shutdown, j, Do(s, step, runtime).jobs[j])
  {
    PassFollows(s, step, runtime);
    JobGrows(s, step, runtime, j);
    JobFollows(s, step, runtime, j);
    WarnedOn(s, step, j, Do(s, step, runtime));
  }

  lemma WarnedOn(s: State, step: Step, j: JobId, s': State)
    requires Warned(s) && j in s.jobs && j in s'.jobs && step != ShutdownActs(TakeFirst)
    requires InFirstPass(s'.shutdown) && PassStep(s, step, s')
    requires Grows(s.jobs[j], s'.jobs[j]) && Follows(s, step, j, s'.jobs[j])
    ensures WarnedJob(s'.shutdown, j, s'.jobs[j])
  {
  }

  lemma WarnedOnward(s: State, step: Step, runtime: Text)
    requires Sound(s, runtime) && Warned(s) && Enabled(s, step, runtime) && step != ShutdownActs(TakeFirst)
    requires InFirstPass(Do(s, step, runtime).shutdown)
    ensures Warned(Do(s, step, runtime))
  {
    var s' := Do(s, step, runtime);
    PassFollows(s, step, runtime);
    Shutting(s);
    forall j | j in s'.jobs
      ensures WarnedJob(s'.shutdown, j, s'.jobs[j])
    {
      NoNewJob(s, step, runtime, j);
      WarnedAt(s, step, runtime, j);
    }
  }

  lemma StepWarns(s: State, step: Step, runtime: Text)
    requires Sound(s, runtime) && Warned(s) && Enabled(s, step, runtime)
    ensures Warned(Do(s, step, runtime))
  {
    if InFirstPass(Do(s, step, runtime).shutdown) {
      if step == ShutdownActs(TakeFirst) {
        PassFollows(s, step, runtime);
      } else {
        WarnedOnward(s, step, runtime);
      }
    }
  }

  lemma StepGood(s: State, step: Step, runtime: Text)
    requires Good(s, runtime) && Enabled(s, step, runtime)
    ensures Good(Do(s, step, runtime), runtime)
  {
    StepSound(s, step, runtime);
    StepFences(s, step, runtime);
    StepWarns(s, step, runtime);
  }

  lemma {:induction false} TraceGood(states: seq<State>, steps: seq<Step>, runtime: Text)
    requires Trace(states, steps, runtime) && Good(states[0], runtime)
    ensures Good(states[|steps|], runtime)
  {
    if steps != [] {
      var n := |steps| - 1;
      TraceTake(states, steps, runtime, n);
      TraceGood(states[..n + 1], steps[..n], runtime);
      assert steps[n] == steps[|steps| - 1];
      StepGood(states[n], steps[n], runtime);
    }
  }

  lemma RunGood(states: seq<State>, steps: seq<Step>, runtime: Text)
    requires Run(states, steps, runtime)
    ensures Good(states[|steps|], runtime)
  {
    InitialSound(states[0], runtime);
    InitialFences(states[0], runtime);
    TraceGood(states, steps, runtime);
  }

  // --- how a runner crosses it -----------------------------------------------

  lemma CallCrossed(job: Job, c: CallAct, shuttingDown: bool)
    requires Handover(job) && CanCall(job, c) && Crossed(CallStep(job, c, shuttingDown))
    ensures Crossed(job) || (c == Launch && !job.setupCanceled)
  {
    CallCrosses(job, c, shuttingDown);
  }

  lemma RunnerCrossed(job: Job, r: RunnerAct)
    requires Handover(job) && CanRun(job, r) && Crossed(RunnerStep(job, r))
    ensures Crossed(job)
  {
  }

  lemma CleanupCrossed(job: Job, k: CleanupAct)
    requires Handover(job) && CanClean(job, k) && Crossed(CleanupStep(job, k))
    ensures Crossed(job)
  {
  }

  lemma OnlyLaunchCrosses(job: Job, act: Act, shuttingDown: bool)
    requires JobOk(job) && CanAct(job, act) && Crossed(AfterAct(job, act, shuttingDown))
    ensures Crossed(job) || (act == Call(Launch) && !job.setupCanceled)
  {
    match act
    case Call(c) => CallCrossed(job, c, shuttingDown);
    case Runner(r) => RunnerCrossed(job, r);
    case Clean(k) => CleanupCrossed(job, k);
    case Cancel(_) =>
  }

  lemma TransactionCrossesNone(job: Job, req: Request, committed: bool, again: bool, db: Db)
    requires JobOk(job) && CanTransact(job, req) && Crossed(Transacted(job, req, committed, again, db))
    ensures Crossed(job)
  {
    TransactedKeeps(job, req, committed, again, db);
  }

  lemma TransactsCrossesNone(job: Job, job': Job, req: Request)
    requires JobOk(job) && Transacts(job, job', req) && Crossed(job')
    ensures Crossed(job)
  {
    var job1, committed, again, db :|
      SameButLapse(job, job1) && CanTransact(job1, req) && job' == Transacted(job1, req, committed, again, db);
    LapseKeepsJob(job, job1);
    TransactionCrossesNone(job1, req, committed, again, db);
  }

  /** A runner comes to life, under its owned run, by the launch alone. */
  lemma FollowsCrossed(s: State, step: Step, j: JobId, job': Job)
    requires j in s.jobs && JobOk(s.jobs[j]) && Follows(s, step, j, job') && Crossed(job')
    ensures Crossed(s.jobs[j]) || (step == JobActs(j, Call(Launch)) && s.jobs[j].pc.Launching? && !s.jobs[j].setupCanceled)
  {
    match step
    case JobActs(k, act) => if k == j { OnlyLaunchCrosses(s.jobs[j], act, s.shuttingDown); }
    case JobTransacts(k, env, req, again) =>
      if k == j {
        TransactsCrossesNone(s.jobs[j], job', req);
      }
    case _ =>
  }

  /** The snapshot takes every runner there is of an owned run. */
  lemma CrossedIsTaken(s: State, j: JobId)
    requires Jobs(s) && j in s.jobs && Crossed(s.jobs[j])
    ensures j in Snapshot(s).runners
  {
    JobFact(s, j);
  }

  /** A setup about to launch within the first pass was taken by it, and launches only
      before the pass cancels it. */
  lemma LauncherIsTaken(s: State, j: JobId)
    requires Jobs(s) && Drains(s) && Warned(s) && InFirstPass(s.shutdown) && j in s.jobs
    requires s.jobs[j].pc.Launching? && !s.jobs[j].setupCanceled
    ensures s.shutdown.FirstPass? && j in s.shutdown.taken.setups && j in s.shutdown.taken.setupsLeft
  {
    JobFact(s, j);
  }

  /** A live runner the pass did not take was live before the step too, or is launched by
      it from a setup of the pass that is not canceled yet. */
  ghost predicate CrossesBy(s: State, step: Step, s': State, j: JobId) {
    && InFirstPass(s.shutdown) && InFirstPass(s'.shutdown) && j in s.jobs
    && s'.shutdown.taken.setups == s.shutdown.taken.setups && s'.shutdown.taken.runners == s.shutdown.taken.runners
    && (Crossed(s.jobs[j])
        || (step == JobActs(j, Call(Launch)) && s.shutdown.FirstPass? && j in s.shutdown.taken.setups
            && j in s.shutdown.taken.setupsLeft && !s.jobs[j].setupCanceled))
  }

  lemma CrossesOn(s: State, step: Step, s': State, j: JobId)
    requires Jobs(s) && Drains(s) && Warned(s) && InFirstPass(s'.shutdown) && PassStep(s, step, s')
    requires j in s'.jobs && Crossed(s'.jobs[j]) && j !in s'.shutdown.taken.runners
    requires j in s.jobs && Follows(s, step, j, s'.jobs[j])
    ensures CrossesBy(s, step, s', j)
  {
    JobFact(s, j);
    if step == ShutdownActs(TakeFirst) {
      CrossedIsTaken(s, j);
    } else {
      FollowsCrossed(s, step, j, s'.jobs[j]);
      if !Crossed(s.jobs[j]) {
        LauncherIsTaken(s, j);
      }
    }
  }

  lemma CrossesInside(s: State, step: Step, s': State, runtime: Text, j: JobId)
    requires Good(s, runtime) && Enabled(s, step, runtime) && s' == Do(s, step, runtime)
    requires InFirstPass(s'.shutdown) && j in s'.jobs && Crossed(s'.jobs[j]) && j !in s'.shutdown.taken.runners
    ensures CrossesBy(s, step, s', j)
  {
    PassFollows(s, step, runtime);
    if step != ShutdownActs(TakeFirst) {
      Shutting(s);
      NoNewJob(s, step, runtime, j);
    }
    JobFollows(s, step, runtime, j);
    CrossesOn(s, step, s', j);
  }

  /** Step i launches j's runner after the pass has taken its tasks and before it has
      canceled j's setup. */
  ghost predicate LaunchedInside(states: seq<State>, steps: seq<Step>, i: nat, j: JobId, taken: Pass) {
    && i < |steps| < |states| && steps[i] == JobActs(j, Call(Launch)) && states[i].shutdown.FirstPass?
    && states[i].shutdown.taken.setups == taken.setups && states[i].shutdown.taken.runners == taken.runners
    && j in states[i].shutdown.taken.setupsLeft && j in states[i].jobs && !states[i].jobs[j].setupCanceled
  }

  /** During the first pass, a live runner it did not take has crossed it in one way only:
      its setup was taken, and launched it before being canceled. */
  lemma {:induction false} CrossedByLaunch(states: seq<State>, steps: seq<Step>, runtime: Text, j: JobId)
    requires Run(states, steps, runtime) && InFirstPass(states[|steps|].shutdown)
    requires j in states[|steps|].jobs && Crossed(states[|steps|].jobs[j]) && j !in states[|steps|].shutdown.taken.runners
    ensures j in states[|steps|].shutdown.taken.setups
    ensures exists i: nat :: LaunchedInside(states, steps, i, j, states[|steps|].shutdown.taken)
  {
    if steps == [] {
      assert false;
    } else {
      var n := |steps| - 1;
      TraceTake(states, steps, runtime, n);
      RunGood(states[..n + 1], steps[..n], runtime);
      assert steps[n] == steps[|steps| - 1];
      CrossesInside(states[n], steps[n], states[n + 1], runtime, j);
      if Crossed(states[n].jobs[j]) {
        CrossedByLaunch(states[..n + 1], steps[..n], runtime, j);
        var i: nat :| LaunchedInside(states[..n + 1], steps[..n], i, j, states[n].shutdown.taken);
        LaunchedEarlier(states, steps, n, i, j, states[n].shutdown.taken, states[n + 1].shutdown.taken);
      } else {
        assert LaunchedInside(states, steps, n, j, states[n + 1].shutdown.taken);
      }
    }
  }

  lemma LaunchedEarlier(states: seq<State>, steps: seq<Step>, n: nat, i: nat, j: JobId, taken: Pass, taken': Pass)
    requires n < |steps| < |states| && LaunchedInside(states[..n + 1], steps[..n], i, j, taken)
    requires taken'.setups == taken.setups && taken'.runners == taken.runners
    ensures LaunchedInside(states, steps, i, j, taken')
  {
  }

  /** When the first pass has ended, a live runner is one whose run is already released,
      or one whose setup the pass took and that was launched before the pass canceled
      that setup; no runner the pass took is live. */
  lemma FirstPassLeaves(states: seq<State>, steps: seq<Step>, runtime: Text, j: JobId)
    requires Run(states, steps, runtime) && states[|steps|].shutdown.FirstPassed?
    requires j in states[|steps|].jobs && RunnerLive(states[|steps|].jobs[j].runner)
    ensures j !in states[|steps|].shutdown.taken.runners
    ensures || Forgotten(states[|steps|].jobs[j].cleanup)
            || (j in states[|steps|].shutdown.taken.setups
                && exists i: nat :: LaunchedInside(states, steps, i, j, states[|steps|].shutdown.taken))
  {
    RunGood(states, steps, runtime);
    if !Forgotten(states[|steps|].jobs[j].cleanup) {
      CrossedByLaunch(states, steps, runtime, j);
    }
  }

  // --- which setups can still launch -----------------------------------------

  /** A setup that is not canceled and is about to launch, or about to renew a claim that
      is still active in its store. */
  ghost predicate CanLaunch(s: State, j: JobId) {
    && j in s.jobs && !s.jobs[j].setupCanceled
    && (s.jobs[j].pc.Launching?
        || (s.jobs[j].pc.Beating? && s.jobs[j].key.Some? && s.jobs[j].path in s.dbs
            && ClaimActive(s.dbs[s.jobs[j].path], s.jobs[j].key.value)))
  }

  lemma HeartbeatBody(db: Db, env: Env, key: LeaseKey)
    requires Body(db, env, Heartbeat(key)).Commit?
    ensures Owns(db, key, env.runtime, env.now) && db.agents[key.agent].status.Active()
  {
  }

  /** Only an active claim is renewed. */
  lemma HeartbeatNeedsClaim(db: Db, env: Env, key: LeaseKey)
    requires Inv(db) && IsScan(env.scan, db.agents) && Transaction(db, env, Heartbeat(key)).Commit?
    ensures ClaimActive(db, key)
  {
    var mid := Mid(db, env);
    CommitNeedsBody(db, env, Heartbeat(key));
    HeartbeatBody(mid, env, key);
    MidFacts(db, env);
    OneLeaseMatches(mid, key, env.runtime, env.now);
    ClaimActiveIs(mid, key);
    ClaimActiveIs(db, key);
    if !ClaimActive(db, key) {
      MidAddsNone(db, env, key.runtime, Some(key));
    }
  }

  /** The request does not make this claim again: no run id is used twice. */
  ghost predicate NotAgain(env: Env, req: Request, key: LeaseKey) {
    env.runtime == key.runtime && Claims(req) ==> NewRun(req) != key.run
  }

  lemma ServedRevivesNone(s: State, path: Text, env: Env, req: Request, key: LeaseKey, p: Text)
    requires path in s.dbs && p in s.dbs && Inv(s.dbs[path]) && Possible(s.dbs[path], env, req) && NotAgain(env, req, key)
    requires ClaimActive(Served(s, path, env, req).dbs[p], key)
    ensures ClaimActive(s.dbs[p], key)
  {
    if p == path && !ClaimActive(s.dbs[path], key) {
      NoClaimRevives(s.dbs[path], env, req, key);
    }
  }

  lemma HaltRevivesNone(s: State, h: Halt, runtime: Text, key: LeaseKey, p: Text)
    requires CanHalt(s, h, runtime) && p in s.dbs && (forall path | path in s.dbs :: Inv(s.dbs[path]))
    requires p in HaltOn(s, h, runtime).dbs && ClaimActive(HaltOn(s, h, runtime).dbs[p], key)
    ensures ClaimActive(s.dbs[p], key)
  {
    if h.InterruptStore? {
      ServedRevivesNone(s, h.path, h.env, InterruptRuntime(h.message), key, p);
    } else if Cancels(h) {
      CanceledFrame(s, h);
    } else {
      HaltFrame(s, h, runtime);
    }
  }

  lemma TransactDbs(s: State, k: JobId, env: Env, req: Request, again: bool)
    requires k in s.jobs && CanTransact(s.jobs[k], req) && s.jobs[k].path in s.dbs
    ensures TransactOn(s, k, env, req, again).dbs == Served(s, s.jobs[k].path, env, req).dbs
  {
  }

  /** The claim of a job that is not active stays so at every step. */
  lemma ClaimStaysInactive(s: State, step: Step, runtime: Text, j: JobId, p: Text)
    requires Databases(s, runtime) && Enabled(s, step, runtime) && j in s.jobs && p in s.dbs
    requires s.jobs[j].key.Some? && s.jobs[j].key.value.runtime == runtime
    requires p in Do(s, step, runtime).dbs && ClaimActive(Do(s, step, runtime).dbs[p], s.jobs[j].key.value)
    ensures ClaimActive(s.dbs[p], s.jobs[j].key.value)
  {
    var key := s.jobs[j].key.value;
    match step
    case JobTransacts(k, env, req, again) =>
      TransactDbs(s, k, env, req, again);
      ServedRevivesNone(s, s.jobs[k].path, env, req, key, p);
    case OthersTransact(path, env, req) => ServedRevivesNone(s, path, env, req, key, p);
    case ShutdownActs(h) => HaltRevivesNone(s, h, runtime, key, p);
    case _ =>
  }

  // --- a setup that cannot launch never can ----------------------------------

  lemma CallBefore(job: Job, c: CallAct)
    requires CanCall(job, c)
    ensures !CallStep(job, c, true).pc.Beating? && !CallStep(job, c, true).pc.Launching?
  {
  }

  predicate OnTheWay(pc: CallPc) { pc.Beating? || pc.Launching? }

  lemma ActBefore(job: Job, act: Act)
    requires CanAct(job, act)
    ensures OnTheWay(AfterAct(job, act, true).pc) ==> AfterAct(job, act, true).pc == job.pc
  {
    match act
    case Call(c) => CallBefore(job, c);
    case Runner(r) => RunnerKeepsPc(job, r);
    case Clean(k) => CleanupKeepsPc(job, k);
    case Cancel(_) =>
  }

  lemma EndingBefore(job: Job, completing: bool, committed: bool)
    ensures OnTheWay(AfterEnding(job, completing, committed).pc) ==> AfterEnding(job, completing, committed).pc == job.pc
  {
  }

  lemma TransactedBefore(job: Job, req: Request, committed: bool, again: bool, db: Db)
    requires CanTransact(job, req) && OnTheWay(Transacted(job, req, committed, again, db).pc)
    ensures Transacted(job, req, committed, again, db).pc == job.pc
            || (committed && req.Heartbeat? && job.pc.Beating? && job.key == Some(req.key))
  {
    if !Claims(req) && !req.Heartbeat? && (committed || !again) {
      EndingBefore(job, req.CompleteCancel?, committed);
    }
  }

  /** A job of its own transaction gets to the launch only by renewing its claim. */
  lemma OwnBefore(s: State, j: JobId, env: Env, req: Request, again: bool)
    requires j in s.jobs && CanTransact(s.jobs[j], req) && s.jobs[j].path in s.dbs
    requires j in TransactOn(s, j, env, req, again).jobs && OnTheWay(TransactOn(s, j, env, req, again).jobs[j].pc)
    ensures TransactOn(s, j, env, req, again).jobs[j].pc == s.jobs[j].pc
            || (req.Heartbeat? && s.jobs[j].pc.Beating? && s.jobs[j].key == Some(req.key)
                && Transaction(s.dbs[s.jobs[j].path], env, req).Commit?)
  {
    var path := s.jobs[j].path;
    OwnAfter(s, j, env, req, again);
    LapseKeepsJob(s.jobs[j], Lapse(s.jobs[j], path, s.dbs[path], env.now));
    TransactedBefore(Lapse(s.jobs[j], path, s.dbs[path], env.now), req,
                     Transaction(s.dbs[path], env, req).Commit?, again, Serve(s.dbs[path], env, req));
  }

  lemma OwnLaunchable(s: State, j: JobId, env: Env, req: Request, again: bool, runtime: Text)
    requires Databases(s, runtime) && Enabled(s, JobTransacts(j, env, req, again), runtime)
    requires j in TransactOn(s, j, env, req, again).jobs && OnTheWay(TransactOn(s, j, env, req, again).jobs[j].pc)
    ensures TransactOn(s, j, env, req, again).jobs[j].pc == s.jobs[j].pc
            || (s.jobs[j].pc.Beating? && s.jobs[j].key.Some? && ClaimActive(s.dbs[s.jobs[j].path], s.jobs[j].key.value))
  {
    OwnBefore(s, j, env, req, again);
    if TransactOn(s, j, env, req, again).jobs[j].pc != s.jobs[j].pc {
      HeartbeatNeedsClaim(s.dbs[s.jobs[j].path], env, req.key);
    }
  }

  lemma FollowsBefore(s: State, step: Step, j: JobId, job': Job)
    requires s.shuttingDown && j in s.jobs && Follows(s, step, j, job') && OnTheWay(job'.pc)
    requires !(step.JobTransacts? && step.j == j)
    ensures job'.pc == s.jobs[j].pc
  {
    if step.JobActs? && step.j == j {
      ActBefore(s.jobs[j], step.act);
    }
  }

  lemma KeyRuntime(s: State, runtime: Text, j: JobId)
    requires Fences(s, runtime) && j in s.jobs
    ensures s.jobs[j].path in s.dbs && (s.jobs[j].key.Some? ==> s.jobs[j].key.value.runtime == runtime)
  {
    assert FencedAt(s, j, runtime);
  }

  lemma BeatingHasKey(s: State, j: JobId)
    requires Jobs(s) && j in s.jobs && s.jobs[j].pc.Beating?
    ensures s.jobs[j].key.Some?
  {
    JobFact(s, j);
  }

  lemma LaunchableBefore(s: State, step: Step, s': State, runtime: Text, j: JobId)
    requires Jobs(s) && Databases(s, runtime) && Fences(s, runtime) && Enabled(s, step, runtime) && s' == Do(s, step, runtime)
    requires s.shuttingDown && j in s.jobs && CanLaunch(s', j)
    ensures CanLaunch(s, j)
  {
    JobFollows(s, step, runtime, j);
    JobGrows(s, step, runtime, j);
    KeyRuntime(s, runtime, j);
    PcBefore(s, step, s', runtime, j);
    if s.jobs[j].pc.Beating? {
      BeatingHasKey(s, j);
      if s'.jobs[j].pc.Beating? {
        ClaimStaysInactive(s, step, runtime, j, s.jobs[j].path);
      }
    }
  }

  lemma PcBefore(s: State, step: Step, s': State, runtime: Text, j: JobId)
    requires Databases(s, runtime) && Enabled(s, step, runtime) && s' == Do(s, step, runtime) && s.shuttingDown
    requires j in s.jobs && j in s'.jobs && Follows(s, step, j, s'.jobs[j]) && OnTheWay(s'.jobs[j].pc)
    ensures s'.jobs[j].pc == s.jobs[j].pc
            || (s.jobs[j].pc.Beating? && s.jobs[j].key.Some? && s.jobs[j].path in s.dbs
                && ClaimActive(s.dbs[s.jobs[j].path], s.jobs[j].key.value))
  {
    if step.JobTransacts? && step.j == j {
      OwnLaunchable(s, j, step.env, step.req, step.again, runtime);
    } else {
      FollowsBefore(s, step, j, s'.jobs[j]);
    }
  }

  /** No setup can launch, and no runner has crossed. */
  ghost predicate Quiet(s: State) {
    && Rank(s.shutdown) >= 2
    && (InFirstPass(s.shutdown) ==>
          forall j {:trigger s.jobs[j]} | j in s.jobs :: QuietJob(s, j))
  }

  ghost predicate QuietJob(s: State, j: JobId)
    requires InFirstPass(s.shutdown) && j in s.jobs
  {
    !CanLaunch(s, j) && (Crossed(s.jobs[j]) ==> j in s.shutdown.taken.runners)
  }

  lemma RankGrows(s: State, step: Step, runtime: Text)
    requires Enabled(s, step, runtime)
    ensures Rank(Do(s, step, runtime).shutdown) >= Rank(s.shutdown)
  {
    if !step.ShutdownActs? {
      OnlyHaltsMove(s, step, runtime);
    } else {
      HaltRankGrows(s, step.h, runtime);
    }
  }

  lemma HaltRankGrows(s: State, h: Halt, runtime: Text)
    requires CanHalt(s, h, runtime)
    ensures Rank(HaltOn(s, h, runtime).shutdown) >= Rank(s.shutdown)
  {
  }

  lemma StaysQuietAt(s: State, step: Step, s': State, runtime: Text, j: JobId)
    requires Good(s, runtime) && Quiet(s) && Enabled(s, step, runtime) && s' == Do(s, step, runtime)
    requires InFirstPass(s'.shutdown) && j in s'.jobs
    ensures QuietJob(s', j)
  {
    PassFollows(s, step, runtime);
    Shutting(s);
    NoNewJob(s, step, runtime, j);
    assert QuietJob(s, j);
    if CanLaunch(s', j) {
      LaunchableBefore(s, step, s', runtime, j);
    }
    if Crossed(s'.jobs[j]) && j !in s'.shutdown.taken.runners {
      CrosserCanLaunch(s, step, s', runtime, j);
    }
  }

  lemma CrosserCanLaunch(s: State, step: Step, s': State, runtime: Text, j: JobId)
    requires Good(s, runtime) && Enabled(s, step, runtime) && s' == Do(s, step, runtime)
    requires InFirstPass(s'.shutdown) && j in s'.jobs && Crossed(s'.jobs[j]) && j !in s'.shutdown.taken.runners
    ensures InFirstPass(s.shutdown) && j in s.jobs && s'.shutdown.taken.runners == s.shutdown.taken.runners
    ensures Crossed(s.jobs[j]) || CanLaunch(s, j)
  {
    CrossesInside(s, step, s', runtime, j);
    JobFollows(s, step, runtime, j);
    if !Crossed(s.jobs[j]) {
      LaunchCanLaunch(s, step, j);
    }
  }

  lemma LaunchCanLaunch(s: State, step: Step, j: JobId)
    requires j in s.jobs && !s.jobs[j].setupCanceled
    ensures step == JobActs(j, Call(Launch)) && CanAct(s.jobs[j], Call(Launch)) ==> CanLaunch(s, j)
  {
  }

  lemma StaysQuiet(s: State, step: Step, s': State, runtime: Text)
    requires Good(s, runtime) && Quiet(s) && Enabled(s, step, runtime) && s' == Do(s, step, runtime)
    ensures Quiet(s')
  {
    RankGrows(s, step, runtime);
    if InFirstPass(s'.shutdown) {
      forall j | j in s'.jobs
        ensures QuietJob(s', j)
      {
        StaysQuietAt(s, step, s', runtime, j);
      }
    }
  }

  lemma {:induction false} TraceQuiet(states: seq<State>, steps: seq<Step>, runtime: Text)
    requires Trace(states, steps, runtime) && Good(states[0], runtime) && Quiet(states[0])
    ensures Good(states[|steps|], runtime) && Quiet(states[|steps|])
  {
    TraceGood(states, steps, runtime);
    if steps != [] {
      var n := |steps| - 1;
      TraceTake(states, steps, runtime, n);
      TraceQuiet(states[..n + 1], steps[..n], runtime);
      assert steps[n] == steps[|steps| - 1];
      StaysQuiet(states[n], steps[n], states[n + 1], runtime);
    }
  }
}

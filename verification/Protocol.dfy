/** The runtime's ownership protocol: goroutines that reserve a claim, set it up, run it
    and clean up after it, beside a shutdown. A step is one critical section, one channel
    operation, one cancellation or one store transaction. */
module Protocol {
  import opened Texts
  import opened Types
  import opened Schema
  import opened Transactions
  import opened Fencing

  type JobId = nat

  /** Where the goroutine of a spawn or follow-up call is. */
  datatype CallPc =
    | Reserving              // registered, before the store's Create or Claim
    | Judging                // committed, before asking whether the session still accepts
    | Compensating           // undoing the committed claim
    | Leaving(ok: bool)      // before its reservation is deleted
    | Closing(ok: bool)      // before its channel is closed
    | Gap                    // reserveClaim has returned the claim
    | Preparing              // registered as a setup
    | Acquiring              // owned; acquires the host's lease, forks, attaches
    | Checking               // before asking again whether the session still accepts
    | Beating                // before the heartbeat
    | Launching              // before the critical section of the launch
    | FailingSetup           // before the cleanup is started
    | AwaitingSetupCleanup   // until the cleanup is done
    | SetupLeaving           // before the setup is deleted
    | SetupClosing           // before its channel is closed
    | Returned

  datatype RunnerPc =
    | NoRunner
    | Starting               // before the client is created
    | Working                // the session runs
    | Answered               // before the outcome is recorded
    | Ending(failed: bool)   // before the cleanup is started
    | AwaitingCleanup        // until the cleanup is done
    | Finished

  datatype CleanupPc =
    | NoCleanup
    | ClosingClient(failed: bool)
    | Writing(failed: bool)
    | Attaching
    | Completing
    | ClosingLease
    | Releasing
    | Deleting
    | ClosingCleanup
    | CleanedUp

  datatype Resource = Never | Held | Given

  /** One claim's goroutines and resources. The last three fields are history: its claim
      was ended by its own request, by the recording of its answer, or its lease ran out. */
  datatype Job = Job(
    path: Text, key: Option<LeaseKey>, pc: CallPc, runner: RunnerPc, cleanup: CleanupPc,
    setupCanceled: bool, runnerCanceled: bool, parentCanceled: bool,
    client: Resource, background: Resource,
    ended: bool, completed: bool, lapsed: bool)

  /** The tasks one pass of the shutdown took, cancels and waits for, and those it has
      not canceled yet. */
  datatype Pass = Pass(setups: set<JobId>, runners: set<JobId>, setupsLeft: set<JobId>, runnersLeft: set<JobId>)

  datatype ShutdownPc =
    | Open
    | Flagged
    | FirstPass(taken: Pass)
    | FirstPassed(taken: Pass)
    | Draining(reservations: set<JobId>)
    | Drained
    | SecondPass(taken: Pass)
    | SecondPassed
    | AwaitingCleanups(pending: set<JobId>)
    | NoCleanups
    | Interrupting(left: set<Text>)
    | ShutDown

  datatype RunKey = RunKey(path: Text, run: Id)

  datatype State = State(
    dbs: map<Text, Db>, stores: set<Text>, jobs: map<JobId, Job>,
    reservations: set<JobId>, setupTasks: set<JobId>, cleanupTasks: set<JobId>,
    ownedRuns: map<RunKey, JobId>, shuttingDown: bool, shutdown: ShutdownPc)

  // --- control steps of one job ----------------------------------------------

  datatype CallAct =
    | Judge(callerCanceled: bool)
    | GiveUp
    | Unreserve
    | CloseReservation
    | Prepare
    | Own
    | Acquire
    | FailSetup
    | Check
    | Launch
    | StartSetupCleanup
    | SetupCleanedUp
    | LeaveSetup
    | CloseSetup

  datatype RunnerAct = OpenClient | Answer | CanceledAnswer | FailRunner | StartCleanup | RunnerCleanedUp

  datatype CleanupAct =
    | CloseClient
    | SkipWrite
    | Attached(ok: bool)
    | SkipComplete
    | CloseLease
    | Release
    | DeleteCleanup
    | CloseCleanup

  datatype CancelAct = CancelSetup | CancelRunner | CancelByParent

  /** A step of the call's goroutine, of its runner, of its cleanup, or a cancellation. */
  datatype Act = Call(c: CallAct) | Runner(r: RunnerAct) | Clean(k: CleanupAct) | Cancel(w: CancelAct)

  predicate InReservation(pc: CallPc) { pc.Reserving? || pc.Judging? || pc.Compensating? || pc.Leaving? }

  predicate InSetup(pc: CallPc) {
    || pc.Preparing? || pc.Acquiring? || pc.Checking? || pc.Beating? || pc.Launching? || pc.FailingSetup?
    || pc.AwaitingSetupCleanup? || pc.SetupLeaving?
  }

  /** How far a cleanup has got. */
  function Progress(c: CleanupPc): nat {
    match c
    case NoCleanup => 0
    case ClosingClient(_) => 1
    case Writing(_) => 2
    case Attaching => 3
    case Completing => 4
    case ClosingLease => 5
    case Releasing => 6
    case Deleting => 7
    case ClosingCleanup => 8
    case CleanedUp => 9
  }

  predicate InCleanup(c: CleanupPc) { 1 <= Progress(c) <= 7 }

  /** Released from the runtime's maps: the last critical sections of a cleanup. */
  predicate Forgotten(c: CleanupPc) { Progress(c) >= 7 }

  predicate RunnerLive(r: RunnerPc) { !r.NoRunner? && !r.Finished? }

  /** Whether the setup goroutine is between taking ownership and launching or failing. */
  predicate OwnedBySetup(pc: CallPc) {
    pc.Acquiring? || pc.Checking? || pc.Beating? || pc.Launching? || pc.FailingSetup? || pc.AwaitingSetupCleanup?
  }

  /** Whether the run is in ownedRuns. */
  predicate IsOwned(job: Job) {
    (OwnedBySetup(job.pc) || RunnerLive(job.runner)) && !Forgotten(job.cleanup)
  }

  predicate CanCall(job: Job, c: CallAct) {
    match c
    case Judge(_) => job.pc.Judging?
    case GiveUp => job.pc.Compensating?
    case Unreserve => job.pc.Leaving?
    case CloseReservation => job.pc.Closing?
    case Prepare => job.pc.Gap?
    case Own => job.pc.Preparing?
    case Acquire => job.pc.Acquiring?
    case FailSetup => job.pc.Acquiring? || job.pc.Checking? || job.pc.Beating? || job.pc.Launching?
    case Check => job.pc.Checking?
    case Launch => job.pc.Launching?
    case StartSetupCleanup => job.pc.FailingSetup?
    case SetupCleanedUp => job.pc.AwaitingSetupCleanup? && job.cleanup.CleanedUp?
    case LeaveSetup => job.pc.SetupLeaving?
    case CloseSetup => job.pc.SetupClosing?
  }

  predicate CanRun(job: Job, r: RunnerAct) {
    match r
    case OpenClient => job.runner.Starting?
    case Answer => job.runner.Working?
    case CanceledAnswer => job.runner.Working?
    case FailRunner => job.runner.Starting? || job.runner.Working? || job.runner.Answered?
    case StartCleanup => job.runner.Ending?
    case RunnerCleanedUp => job.runner.AwaitingCleanup? && job.cleanup.CleanedUp?
  }

  predicate CanClean(job: Job, k: CleanupAct) {
    match k
    case CloseClient => job.cleanup.ClosingClient?
    case SkipWrite => job.cleanup.Writing?
    case Attached(_) => job.cleanup.Attaching?
    case SkipComplete => job.cleanup.Completing?
    case CloseLease => job.cleanup.ClosingLease?
    case Release => job.cleanup.Releasing?
    case DeleteCleanup => job.cleanup.Deleting?
    case CloseCleanup => job.cleanup.ClosingCleanup?
  }

  predicate CanCancel(job: Job, w: CancelAct) {
    match w
    case CancelSetup => InSetup(job.pc)
    case CancelRunner => RunnerLive(job.runner)
    case CancelByParent => IsOwned(job)
  }

  predicate CanAct(job: Job, act: Act) {
    match act
    case Call(c) => CanCall(job, c)
    case Runner(r) => CanRun(job, r)
    case Clean(k) => CanClean(job, k)
    case Cancel(w) => CanCancel(job, w)
  }

  function CallStep(job: Job, c: CallAct, shuttingDown: bool): Job
    requires CanCall(job, c)
  {
    match c
    case Judge(callerCanceled) => job.(pc := if callerCanceled || shuttingDown then Compensating else Leaving(true))
    case GiveUp => job.(pc := Leaving(false))
    case Unreserve => job.(pc := Closing(job.pc.ok))
    case CloseReservation => job.(pc := if job.pc.ok then Gap else Returned)
    case Prepare => job.(pc := if shuttingDown then Returned else Preparing)
    case Own => job.(pc := Acquiring)
    case Acquire => job.(pc := Checking, background := Held)
    case FailSetup => job.(pc := FailingSetup)
    case Check => job.(pc := if shuttingDown then FailingSetup else Beating)
    case Launch => if job.setupCanceled then job.(pc := FailingSetup) else job.(pc := SetupLeaving, runner := RunnerPc.Starting)
    case StartSetupCleanup => job.(pc := AwaitingSetupCleanup, cleanup := ClosingClient(true))
    case SetupCleanedUp => job.(pc := SetupLeaving)
    case LeaveSetup => job.(pc := SetupClosing)
    case CloseSetup => job.(pc := Returned)
  }

  /** A runner that fails writes its failure, unless the parent has canceled it. */
  function RunnerStep(job: Job, r: RunnerAct): Job
    requires CanRun(job, r)
  {
    match r
    case OpenClient => job.(runner := Working, client := Held)
    case Answer => job.(runner := Answered)
    case CanceledAnswer => job.(runner := Ending(true))
    case FailRunner => job.(runner := Ending(!(job.runnerCanceled && job.parentCanceled)))
    case StartCleanup => job.(runner := AwaitingCleanup, cleanup := ClosingClient(job.runner.failed))
    case RunnerCleanedUp => job.(runner := Finished)
  }

  /** Once the client is closed, a failure is written unless the parent has canceled the run. */
  function CleanupStep(job: Job, k: CleanupAct): Job
    requires CanClean(job, k)
  {
    match k
    case CloseClient =>
      job.(cleanup := Writing(job.cleanup.failed && !job.parentCanceled), client := if job.client.Held? then Given else job.client)
    case SkipWrite => job.(cleanup := Attaching)
    case Attached(ok) => job.(cleanup := if ok then Completing else ClosingLease)
    case SkipComplete => job.(cleanup := ClosingLease)
    case CloseLease => job.(cleanup := Releasing, background := if job.background.Held? then Given else job.background)
    case Release => job.(cleanup := Deleting)
    case DeleteCleanup => job.(cleanup := ClosingCleanup)
    case CloseCleanup => job.(cleanup := CleanedUp)
  }

  function CancelStep(job: Job, w: CancelAct): Job {
    match w
    case CancelSetup => job.(setupCanceled := true)
    case CancelRunner => job.(runnerCanceled := true)
    case CancelByParent => job.(parentCanceled := true)
  }

  function AfterAct(job: Job, act: Act, shuttingDown: bool): Job
    requires CanAct(job, act)
  {
    match act
    case Call(c) => CallStep(job, c, shuttingDown)
    case Runner(r) => RunnerStep(job, r)
    case Clean(k) => CleanupStep(job, k)
    case Cancel(w) => CancelStep(job, w)
  }

  function RunKeyOf(job: Job): RunKey
    requires job.key.Some?
  {
    RunKey(job.path, job.key.value.run)
  }

  predicate StartsCleanup(act: Act) { act == Call(StartSetupCleanup) || act == Runner(StartCleanup) }

  predicate TakesOwnership(job: Job, act: Act) { act == Call(Own) || (act == Call(Launch) && !job.setupCanceled) }

  /** The job becomes job', and the critical sections update the maps. */
  function Moved(s: State, j: JobId, act: Act, job': Job): State
    requires j in s.jobs
  {
    var job := s.jobs[j];
    s.(jobs := s.jobs[j := job'],
       reservations := if act == Call(Unreserve) then s.reservations - {j} else s.reservations,
       setupTasks := if act == Call(Prepare) && !s.shuttingDown then s.setupTasks + {j}
                     else if act == Call(LeaveSetup) then s.setupTasks - {j} else s.setupTasks,
       cleanupTasks := if StartsCleanup(act) then s.cleanupTasks + {j}
                       else if act == Clean(DeleteCleanup) then s.cleanupTasks - {j} else s.cleanupTasks,
       ownedRuns := if job.key.None? then s.ownedRuns
                    else if TakesOwnership(job, act) then s.ownedRuns[RunKeyOf(job) := j]
                    else if act == Clean(Release) && RunKeyOf(job) in s.ownedRuns && s.ownedRuns[RunKeyOf(job)] == j
                    then s.ownedRuns - {RunKeyOf(job)} else s.ownedRuns)
  }

  function ActOn(s: State, j: JobId, act: Act): State
    requires j in s.jobs && CanAct(s.jobs[j], act)
  {
    Moved(s, j, act, AfterAct(s.jobs[j], act, s.shuttingDown))
  }

  // --- store transactions ----------------------------------------------------

  predicate Claims(req: Request) { req.Create? || req.Claim? }

  /** The requests with which the holder of a claim ends it. */
  predicate EndsOwn(req: Request) { req.Abort? || req.Finish? || req.CompleteCancel? }

  /** A job's lease has run out when a transaction finds it expired. */
  function Lapse(job: Job, path: Text, db: Db, now: real): Job {
    if job.path == path && job.key.Some? && job.key.value.agent in db.agents
       && db.agents[job.key.value.agent].lease.Some? && LiveKey(db, job.key.value.agent) == job.key.value
       && db.agents[job.key.value.agent].lease.value.expires <= now
    then job.(lapsed := true) else job
  }

  ghost function Served(s: State, path: Text, env: Env, req: Request): State
    requires path in s.dbs
  {
    s.(dbs := s.dbs[path := Serve(s.dbs[path], env, req)],
       jobs := map k | k in s.jobs :: Lapse(s.jobs[k], path, s.dbs[path], env.now))
  }

  /** The store transactions a job makes. Whether a cleanup writes an outcome is decided
      once, before its retries, so a cancellation may still come in between. */
  predicate CanTransact(job: Job, req: Request) {
    if Claims(req) then job.pc.Reserving? && job.key.None?
    else if req.Heartbeat? then job.pc.Beating? && job.key == Some(req.key)
    else if req.Abort? then (job.pc.Compensating? || job.cleanup == Writing(true)) && job.key == Some(req.key)
    else if req.Finish? then
      (job.pc.Compensating? || job.runner.Answered? || job.cleanup == Writing(true)) && job.key == Some(req.key)
    else if req.CompleteCancel? then job.cleanup.Completing? && job.key == Some(req.key)
    else false
  }

  /** The agent a reservation is for. */
  function Target(req: Request): Id
    requires Claims(req)
  {
    if req.Create? then req.a else req.a
  }

  function NewRun(req: Request): Id
    requires Claims(req)
  {
    if req.Create? then req.r else req.r
  }

  /** How a job goes on after its transaction. A failed write may be repeated. */
  ghost function Transacted(job: Job, req: Request, committed: bool, again: bool, db: Db): Job
    requires CanTransact(job, req)
  {
    if Claims(req) then
      if committed && Target(req) in db.agents && db.agents[Target(req)].lease.Some?
      then job.(pc := Judging, key := Some(LiveKey(db, Target(req)))) else job.(pc := Leaving(false))
    else if req.Heartbeat? then job.(pc := if committed then Launching else FailingSetup)
    else if !committed && again then job
    else AfterEnding(job, req.CompleteCancel?, committed)
  }

  /** The writes that end a claim: a compensation, a recorded answer, a failure written
      by the cleanup, and the completion of a cancellation. */
  predicate CanEnd(job: Job, completing: bool) {
    if completing then job.cleanup.Completing?
    else job.pc.Compensating? || job.runner.Answered? || job.cleanup == Writing(true)
  }

  function AfterEnding(job: Job, completing: bool, committed: bool): Job {
    var ended := job.ended || committed;
    if completing then job.(cleanup := ClosingLease, ended := ended)
    else if job.pc.Compensating? then job.(pc := Leaving(false), ended := ended)
    else if job.runner.Answered? then job.(runner := Ending(false), ended := ended, completed := job.completed || committed)
    else job.(cleanup := Attaching, ended := ended)
  }

  ghost function TransactOn(s: State, j: JobId, env: Env, req: Request, again: bool): State
    requires j in s.jobs && CanTransact(s.jobs[j], req) && s.jobs[j].path in s.dbs
  {
    var path := s.jobs[j].path;
    var committed := Transaction(s.dbs[path], env, req).Commit?;
    var s1 := Served(s, path, env, req);
    s1.(jobs := s1.jobs[j := Transacted(s1.jobs[j], req, committed, again, s1.dbs[path])])
  }

  /** Ids are generated afresh: no other claim of this session has the new run's id. */
  predicate FreshRun(s: State, req: Request) {
    Claims(req) ==> forall k | k in s.jobs && s.jobs[k].key.Some? :: s.jobs[k].key.value.run != NewRun(req)
  }

  /** What everybody else does: any request of another runtime, and this session's
      requests that neither make nor end a claim. */
  predicate ByOthers(env: Env, req: Request, runtime: Text) {
    env.runtime == runtime ==> !Claims(req) && !EndsOwn(req) && !req.InterruptRuntime?
  }

  // --- the shutdown ----------------------------------------------------------

  /** One step of the shutdown goroutine. */
  datatype Halt =
    | SetFlag
    | TakeFirst
    | CancelSetupTask(j: JobId)
    | CancelRunnerTask(j: JobId)
    | AwaitFirst
    | TakeReservations
    | AwaitReservations
    | TakeSecond
    | AwaitSecond
    | TakeCleanups
    | AwaitCleanups
    | TakeStores
    | InterruptStore(path: Text, env: Env, message: Text)
    | Finish

  /** cancelOwnedTasks: the unfinished setups, and the unfinished runners of owned runs. */
  function Snapshot(s: State): Pass {
    var setups := set j | j in s.setupTasks && j in s.jobs && !s.jobs[j].pc.Returned?;
    var runners := set j | j in s.jobs && s.jobs[j].key.Some? && RunKeyOf(s.jobs[j]) in s.ownedRuns
                           && s.ownedRuns[RunKeyOf(s.jobs[j])] == j && RunnerLive(s.jobs[j].runner);
    Pass(setups, runners, setups, runners)
  }

  /** Every task of the pass has been canceled, and then has ended. */
  predicate PassDone(s: State, taken: Pass) {
    && taken.setupsLeft == {} && taken.runnersLeft == {}
    && (forall j | j in taken.setups && j in s.jobs :: s.jobs[j].pc.Returned?)
    && (forall j | j in taken.runners && j in s.jobs :: s.jobs[j].runner.Finished?)
  }

  /** A pass cancels its setups before its runners, and all of them before it waits. */
  predicate CanCancelTask(s: State, h: Halt) {
    && (s.shutdown.FirstPass? || s.shutdown.SecondPass?)
    && match h
       case CancelSetupTask(j) => j in s.shutdown.taken.setupsLeft && j in s.jobs
       case CancelRunnerTask(j) =>
         s.shutdown.taken.setupsLeft == {} && j in s.shutdown.taken.runnersLeft && j in s.jobs
       case _ => false
  }

  function LeftAfter(taken: Pass, h: Halt): Pass {
    match h
    case CancelSetupTask(j) => taken.(setupsLeft := taken.setupsLeft - {j})
    case CancelRunnerTask(j) => taken.(runnersLeft := taken.runnersLeft - {j})
    case _ => taken
  }

  function TaskCanceled(s: State, h: Halt): State
    requires CanCancelTask(s, h)
  {
    s.(jobs := s.jobs[h.j := CancelStep(s.jobs[h.j], if h.CancelSetupTask? then CancelSetup else CancelRunner)],
       shutdown := s.shutdown.(taken := LeftAfter(s.shutdown.taken, h)))
  }

  ghost predicate CanHalt(s: State, h: Halt, runtime: Text) {
    match h
    case SetFlag => s.shutdown.Open?
    case TakeFirst => s.shutdown.Flagged?
    case CancelSetupTask(_) => CanCancelTask(s, h)
    case CancelRunnerTask(_) => CanCancelTask(s, h)
    case AwaitFirst => s.shutdown.FirstPass? && PassDone(s, s.shutdown.taken)
    case TakeReservations => s.shutdown.FirstPassed?
    case AwaitReservations =>
      s.shutdown.Draining? && forall j | j in s.shutdown.reservations && j in s.jobs ::
                                !InReservation(s.jobs[j].pc) && !s.jobs[j].pc.Closing?
    case TakeSecond => s.shutdown.Drained?
    case AwaitSecond => s.shutdown.SecondPass? && PassDone(s, s.shutdown.taken)
    case TakeCleanups => s.shutdown.SecondPassed?
    case AwaitCleanups =>
      s.shutdown.AwaitingCleanups? && forall j | j in s.shutdown.pending && j in s.jobs :: s.jobs[j].cleanup.CleanedUp?
    case TakeStores => s.shutdown.NoCleanups?
    case InterruptStore(path, env, message) =>
      && s.shutdown.Interrupting? && path in s.shutdown.left && path in s.dbs && env.runtime == runtime
      && IsScan(env.scan, s.dbs[path].agents)
    case Finish => s.shutdown.Interrupting? && s.shutdown.left == {}
  }

  ghost function HaltOn(s: State, h: Halt, runtime: Text): State
    requires CanHalt(s, h, runtime)
  {
    match h
    case SetFlag => s.(shuttingDown := true, shutdown := Flagged)
    case TakeFirst => s.(shutdown := FirstPass(Snapshot(s)))
    case CancelSetupTask(_) => TaskCanceled(s, h)
    case CancelRunnerTask(_) => TaskCanceled(s, h)
    case AwaitFirst => s.(shutdown := FirstPassed(s.shutdown.taken))
    case TakeReservations => s.(shutdown := Draining(s.reservations))
    case AwaitReservations => s.(shutdown := Drained)
    case TakeSecond => s.(shutdown := SecondPass(Snapshot(s)))
    case AwaitSecond => s.(shutdown := SecondPassed)
    case TakeCleanups => s.(shutdown := if s.cleanupTasks == {} then NoCleanups else AwaitingCleanups(s.cleanupTasks))
    case AwaitCleanups => s.(shutdown := SecondPassed)
    case TakeStores => s.(shutdown := Interrupting(s.stores))
    case InterruptStore(path, env, message) =>
      Served(s, path, env, InterruptRuntime(message)).(shutdown := Interrupting(s.shutdown.left - {path}))
    case Finish => s.(shutdown := ShutDown)
  }

  // --- runs ------------------------------------------------------------------

  datatype Step =
    | OpenStore(path: Text)
    | Reserve(j: JobId, path: Text)
    | JobActs(j: JobId, act: Act)
    | JobTransacts(j: JobId, env: Env, req: Request, again: bool)
    | OthersTransact(path: Text, env: Env, req: Request)
    | ShutdownActs(h: Halt)

  ghost predicate Enabled(s: State, step: Step, runtime: Text) {
    match step
    case OpenStore(path) => path in s.dbs
    case Reserve(j, path) => j !in s.jobs && path in s.stores
    case JobActs(j, act) => j in s.jobs && CanAct(s.jobs[j], act)
    case JobTransacts(j, env, req, again) =>
      && j in s.jobs && CanTransact(s.jobs[j], req) && s.jobs[j].path in s.dbs
      && env.runtime == runtime && Possible(s.dbs[s.jobs[j].path], env, req) && FreshRun(s, req)
    case OthersTransact(path, env, req) =>
      path in s.dbs && Possible(s.dbs[path], env, req) && ByOthers(env, req, runtime)
    case ShutdownActs(h) => CanHalt(s, h, runtime)
  }

  function NewJob(path: Text): Job {
    Job(path, None, Reserving, NoRunner, NoCleanup, false, false, false, Never, Never, false, false, false)
  }

  ghost function Do(s: State, step: Step, runtime: Text): State
    requires Enabled(s, step, runtime)
  {
    match step
    case OpenStore(path) => s.(stores := s.stores + {path})
    case Reserve(j, path) =>
      if s.shuttingDown then s
      else s.(jobs := s.jobs[j := NewJob(path)], reservations := s.reservations + {j})
    case JobActs(j, act) => ActOn(s, j, act)
    case JobTransacts(j, env, req, again) => TransactOn(s, j, env, req, again)
    case OthersTransact(path, env, req) => Served(s, path, env, req)
    case ShutdownActs(h) => HaltOn(s, h, runtime)
  }

  ghost predicate RowsUnder(db: Db, runtime: Text) {
    exists a :: a in db.agents && db.agents[a].status.Active() && db.agents[a].lease.Some?
                && db.agents[a].lease.value.runtime == runtime
  }

  /** A session starts with nothing running and no row under its new runtime id. */
  ghost predicate Initial(s: State, runtime: Text) {
    && s.jobs == map[] && s.stores == {} && s.reservations == {} && s.setupTasks == {} && s.cleanupTasks == {}
    && s.ownedRuns == map[] && !s.shuttingDown && s.shutdown.Open?
    && forall path | path in s.dbs :: Inv(s.dbs[path]) && !RowsUnder(s.dbs[path], runtime)
  }

  /** Every state follows from the one before by an enabled step. */
  ghost predicate Trace(states: seq<State>, steps: seq<Step>, runtime: Text) {
    && |states| == |steps| + 1
    && forall i {:trigger steps[i]} | 0 <= i < |steps| ::
         Enabled(states[i], steps[i], runtime) && states[i + 1] == Do(states[i], steps[i], runtime)
  }

  /** A run of the session. */
  ghost predicate Run(states: seq<State>, steps: seq<Step>, runtime: Text) {
    Trace(states, steps, runtime) && Initial(states[0], runtime)
  }
}

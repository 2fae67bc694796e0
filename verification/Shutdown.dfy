/** The shutdown drains everything: when it returns, nothing is reserved, set up, owned
    or being cleaned up, and no row is starting or running under this runtime. */
module Shutdown {
  import opened Texts
  import opened Types
  import opened Schema
  import opened Transactions
  import opened Legality
  import opened Protocol
  import opened Ownership
  import opened Runtimes

  ghost predicate Databases(s: State, runtime: Text) {
    && (forall path {:trigger s.dbs[path]} | path in s.dbs :: Inv(s.dbs[path]))
    && forall path | path in s.dbs && path !in s.stores :: !RowsUnder(s.dbs[path], runtime)
  }

  /** How far the shutdown has got. */
  function Rank(pc: ShutdownPc): nat {
    match pc
    case Open => 0
    case Flagged => 1
    case FirstPass(_) => 2
    case FirstPassed(_) => 3
    case Draining(_) => 4
    case Drained => 5
    case SecondPass(_) => 6
    case SecondPassed => 7
    case AwaitingCleanups(_) => 7
    case NoCleanups => 8
    case Interrupting(_) => 9
    case ShutDown => 10
  }

  ghost predicate NoneOwned(s: State) {
    forall j {:trigger s.jobs[j]} | j in s.jobs :: !IsOwned(s.jobs[j])
  }

  ghost predicate OnlyOwned(s: State, runners: set<JobId>) {
    forall j {:trigger s.jobs[j]} | j in s.jobs && IsOwned(s.jobs[j]) :: j in runners
  }

  /** What each stage of the shutdown has established, and what nobody undoes. */
  ghost predicate Drains(s: State) {
    && (s.shuttingDown <==> !s.shutdown.Open?)
    && (s.shutdown.FirstPass? ==> s.setupTasks <= s.shutdown.taken.setups)
    && (Rank(s.shutdown) >= 3 ==> s.setupTasks == {})
    && (s.shutdown.Draining? ==> s.reservations <= s.shutdown.reservations)
    && (Rank(s.shutdown) >= 5 ==> s.reservations == {})
    && (s.shutdown.SecondPass? ==> OnlyOwned(s, s.shutdown.taken.runners))
    && (Rank(s.shutdown) >= 7 ==> NoneOwned(s))
    && (Rank(s.shutdown) >= 8 ==> s.cleanupTasks == {})
  }

  ghost predicate Interrupted(s: State, runtime: Text) {
    && (s.shutdown.Interrupting? ==>
          forall path | path in s.dbs && path !in s.shutdown.left :: !RowsUnder(s.dbs[path], runtime))
    && (s.shutdown.ShutDown? ==> forall path | path in s.dbs :: !RowsUnder(s.dbs[path], runtime))
  }

  ghost predicate Sound(s: State, runtime: Text) {
    Jobs(s) && Databases(s, runtime) && Drains(s) && Interrupted(s, runtime)
  }

  // --- databases -------------------------------------------------------------

  lemma SetDatabases(s: State, s': State, path: Text, db: Db, runtime: Text)
    requires Databases(s, runtime) && path in s.dbs && Inv(db) && s'.stores == s.stores && s'.dbs == s.dbs[path := db]
    requires path !in s.stores ==> !RowsUnder(db, runtime)
    ensures Databases(s', runtime)
  {
    forall p | p in s'.dbs
      ensures Inv(s'.dbs[p])
    {
      assert p != path ==> s'.dbs[p] == s.dbs[p];
    }
  }

  lemma SetInterrupted(s: State, s': State, path: Text, db: Db, runtime: Text)
    requires Interrupted(s, runtime) && path in s.dbs && s'.shutdown == s.shutdown && s'.dbs == s.dbs[path := db]
    requires Rank(s.shutdown) >= 9 && !RowsUnder(s.dbs[path], runtime) ==> !RowsUnder(db, runtime)
    ensures Interrupted(s', runtime)
  {
  }

  /** What a transaction does to the rows under this runtime. */
  lemma ServedDatabase(s: State, path: Text, env: Env, req: Request, runtime: Text)
    requires Databases(s, runtime) && path in s.dbs && Possible(s.dbs[path], env, req)
    ensures Inv(Serve(s.dbs[path], env, req))
    ensures (env.runtime == runtime ==> !Claims(req)) && !RowsUnder(s.dbs[path], runtime) ==>
              !RowsUnder(Serve(s.dbs[path], env, req), runtime)
  {
    ServeKeepsInv(s.dbs[path], env, req);
    if (env.runtime == runtime ==> !Claims(req)) && !RowsUnder(s.dbs[path], runtime) {
      OthersAddNone(s.dbs[path], env, req, runtime);
    }
  }

  // --- control steps ---------------------------------------------------------

  lemma MovedDrains(s: State, j: JobId, act: Act, job': Job)
    requires Jobs(s) && Drains(s) && j in s.jobs && CanAct(s.jobs[j], act)
    requires Crosses(s.jobs[j], job', act, s.shuttingDown)
    ensures Drains(Moved(s, j, act, job'))
  {
    JobFact(s, j);
    NoNewOwner(s, j, act, job');
    NoNewCleanup(s, j, act);
  }

  /** Once the setups are drained, nothing new is owned. */
  lemma NoNewOwner(s: State, j: JobId, act: Act, job': Job)
    requires Jobs(s) && Drains(s) && j in s.jobs && CanAct(s.jobs[j], act)
    requires Crosses(s.jobs[j], job', act, s.shuttingDown)
    ensures Rank(s.shutdown) >= 3 && IsOwned(job') ==> IsOwned(s.jobs[j])
  {
    JobFact(s, j);
  }

  /** Once nothing is owned, no cleanup starts. */
  lemma NoNewCleanup(s: State, j: JobId, act: Act)
    requires Jobs(s) && Drains(s) && j in s.jobs && CanAct(s.jobs[j], act)
    ensures StartsCleanup(act) ==> Rank(s.shutdown) < 7
  {
    JobFact(s, j);
  }

  lemma ActSound(s: State, j: JobId, act: Act, runtime: Text)
    requires Sound(s, runtime) && j in s.jobs && CanAct(s.jobs[j], act)
    ensures Sound(ActOn(s, j, act), runtime)
  {
    JobFact(s, j);
    ActKeepsJobs(s, j, act);
    ActCrosses(s.jobs[j], act, s.shuttingDown);
    var job' := AfterAct(s.jobs[j], act, s.shuttingDown);
    MovedDrains(s, j, act, job');
    MovedFrame(s, j, act, job');
  }

  // --- transactions ----------------------------------------------------------

  lemma RelapsedDrains(s: State, s': State)
    requires Drains(s) && Relapsed(s, s') && s'.shutdown == s.shutdown && s'.shuttingDown == s.shuttingDown
    ensures Drains(s')
  {
    forall j | j in s.jobs
      ensures IsOwned(s'.jobs[j]) == IsOwned(s.jobs[j])
    {
      LapseKeepsJob(s.jobs[j], s'.jobs[j]);
    }
  }

  lemma ServedSound(s: State, path: Text, env: Env, req: Request, runtime: Text)
    requires Sound(s, runtime) && path in s.dbs && Possible(s.dbs[path], env, req)
    requires env.runtime == runtime && Claims(req) ==> path in s.stores && Rank(s.shutdown) < 9
    ensures Sound(Served(s, path, env, req), runtime)
  {
    var s', db := Served(s, path, env, req), Serve(s.dbs[path], env, req);
    ServedDatabase(s, path, env, req, runtime);
    ServedKeepsJobs(s, path, env, req);
    ServedIsRelapsed(s, path, env, req);
    RelapsedDrains(s, s');
    SetDatabases(s, s', path, db, runtime);
    SetInterrupted(s, s', path, db, runtime);
  }

  lemma SetJobDrains(s: State, j: JobId, job': Job)
    requires Drains(s) && j in s.jobs && IsOwned(job') == IsOwned(s.jobs[j])
    ensures Drains(s.(jobs := s.jobs[j := job']))
  {
  }

  lemma TransactSound(s: State, j: JobId, env: Env, req: Request, again: bool, runtime: Text)
    requires Sound(s, runtime) && Enabled(s, JobTransacts(j, env, req, again), runtime)
    ensures Sound(TransactOn(s, j, env, req, again), runtime)
  {
    var path := s.jobs[j].path;
    JobFact(s, j);
    if Claims(req) {
      ReservesBeforeDrained(s, j, req);
    }
    ServedSound(s, path, env, req, runtime);
    OwnRunClaimed(s, j, env, req);
    TransactKeepsJobs(s, j, env, req, again);
    TransactDrains(s, j, env, req, again);
    TransactFrame(s, j, env, req, again);
  }

  lemma TransactFrame(s: State, j: JobId, env: Env, req: Request, again: bool)
    requires j in s.jobs && CanTransact(s.jobs[j], req) && s.jobs[j].path in s.dbs
    ensures var s1, s' := Served(s, s.jobs[j].path, env, req), TransactOn(s, j, env, req, again);
            s'.dbs == s1.dbs && s'.stores == s1.stores && s'.shutdown == s1.shutdown
  {
  }

  lemma TransactDrains(s: State, j: JobId, env: Env, req: Request, again: bool)
    requires Jobs(s) && j in s.jobs && CanTransact(s.jobs[j], req) && s.jobs[j].path in s.dbs
    requires Drains(Served(s, s.jobs[j].path, env, req))
    ensures Drains(TransactOn(s, j, env, req, again))
  {
    var path := s.jobs[j].path;
    var committed := Transaction(s.dbs[path], env, req).Commit?;
    var s1 := Served(s, path, env, req);
    JobFact(s, j);
    ServedIsRelapsed(s, path, env, req);
    LapseKeepsJob(s.jobs[j], s1.jobs[j]);
    CanStill(s.jobs[j], s1.jobs[j], req);
    TransactedCrosses(s1.jobs[j], req, committed, again, s1.dbs[path]);
    SetJobDrains(s1, j, Transacted(s1.jobs[j], req, committed, again, s1.dbs[path]));
  }

  lemma ReservesBeforeDrained(s: State, j: JobId, req: Request)
    requires Jobs(s) && Drains(s) && j in s.jobs && CanTransact(s.jobs[j], req) && Claims(req)
    ensures Rank(s.shutdown) < 5
  {
    JobFact(s, j);
  }

  lemma OwnRunClaimed(s: State, j: JobId, env: Env, req: Request)
    requires j in s.jobs && s.jobs[j].path in s.dbs && Inv(s.dbs[s.jobs[j].path]) && Possible(s.dbs[s.jobs[j].path], env, req)
    ensures ClaimsOwnRun(s, j, env, req)
  {
    var db := s.dbs[s.jobs[j].path];
    if Claims(req) && Transaction(db, env, req).Commit? {
      ReservationGives(db, env, req);
    }
  }

  // --- the shutdown itself ---------------------------------------------------

  /** The first pass took every setup there is, as none is registered any more. */
  lemma TakesSetups(s: State)
    requires Jobs(s)
    ensures s.setupTasks <= Snapshot(s).setups
  {
    forall j | j in s.setupTasks
      ensures j in Snapshot(s).setups
    {
      JobFact(s, j);
    }
  }

  lemma TakesOwned(s: State)
    requires Jobs(s) && s.setupTasks == {}
    ensures OnlyOwned(s, Snapshot(s).runners)
  {
    forall j | j in s.jobs && IsOwned(s.jobs[j])
      ensures j in Snapshot(s).runners
    {
      JobFact(s, j);
    }
  }

  lemma AwaitsSetups(s: State, taken: Pass)
    requires Jobs(s) && s.setupTasks <= taken.setups && PassDone(s, taken)
    ensures s.setupTasks == {}
  {
    forall j | j in s.setupTasks
      ensures false
    {
      JobFact(s, j);
    }
  }

  lemma AwaitsOwned(s: State, taken: Pass)
    requires Jobs(s) && s.setupTasks == {} && OnlyOwned(s, taken.runners) && PassDone(s, taken)
    ensures NoneOwned(s)
  {
    forall j | j in s.jobs
      ensures !IsOwned(s.jobs[j])
    {
      JobFact(s, j);
    }
  }

  lemma AwaitsReservations(s: State, taken: set<JobId>)
    requires Jobs(s) && s.reservations <= taken
    requires forall j | j in taken && j in s.jobs :: !InReservation(s.jobs[j].pc) && !s.jobs[j].pc.Closing?
    ensures s.reservations == {}
  {
    forall j | j in s.reservations
      ensures false
    {
      JobFact(s, j);
    }
  }

  predicate Cancels(h: Halt) { h.CancelSetupTask? || h.CancelRunnerTask? }

  lemma HaltDrains(s: State, h: Halt, runtime: Text)
    requires Jobs(s) && Drains(s) && CanHalt(s, h, runtime) && !h.InterruptStore? && !Cancels(h)
    ensures Drains(HaltOn(s, h, runtime))
  {
    match h
    case TakeFirst => TakesSetups(s);
    case AwaitFirst => AwaitsSetups(s, s.shutdown.taken);
    case AwaitReservations => AwaitsReservations(s, s.shutdown.reservations);
    case TakeSecond => SecondPassDrains(s, h, runtime);
    case AwaitSecond => SecondPassDrains(s, h, runtime);
    case _ =>
  }

  lemma SecondPassDrains(s: State, h: Halt, runtime: Text)
    requires Jobs(s) && Drains(s) && CanHalt(s, h, runtime) && (h.TakeSecond? || h.AwaitSecond?)
    ensures Drains(HaltOn(s, h, runtime))
  {
    if h.TakeSecond? {
      TakesOwned(s);
    } else {
      AwaitsOwned(s, s.shutdown.taken);
    }
  }

  lemma HaltFrame(s: State, h: Halt, runtime: Text)
    requires CanHalt(s, h, runtime) && !h.InterruptStore? && !Cancels(h)
    ensures var s' := HaltOn(s, h, runtime);
            && s'.dbs == s.dbs && s'.stores == s.stores && s'.jobs == s.jobs && s'.reservations == s.reservations
            && s'.setupTasks == s.setupTasks && s'.cleanupTasks == s.cleanupTasks && s'.ownedRuns == s.ownedRuns
            && (s'.shutdown.Interrupting? ==> s'.shutdown.left == s.stores)
            && (s'.shutdown.ShutDown? ==> s.shutdown == Interrupting({}))
  {
  }

  lemma SameJobs(s: State, s': State)
    requires Jobs(s) && s'.dbs == s.dbs && s'.stores == s.stores && s'.jobs == s.jobs && s'.reservations == s.reservations
    requires s'.setupTasks == s.setupTasks && s'.cleanupTasks == s.cleanupTasks && s'.ownedRuns == s.ownedRuns
    ensures Jobs(s')
  {
    forall j | j in s'.jobs
      ensures Listed(s', j)
    {
      JobFact(s, j);
    }
    SameKeysKept(s, s');
  }

  lemma HaltSound(s: State, h: Halt, runtime: Text)
    requires Sound(s, runtime) && CanHalt(s, h, runtime) && !h.InterruptStore? && !Cancels(h)
    ensures Sound(HaltOn(s, h, runtime), runtime)
  {
    HaltFrame(s, h, runtime);
    HaltDrains(s, h, runtime);
    SameJobs(s, HaltOn(s, h, runtime));
  }

  /** What canceling a task of a pass changes. */
  lemma CanceledFrame(s: State, h: Halt)
    requires CanCancelTask(s, h)
    ensures var s' := TaskCanceled(s, h);
            var w := if h.CancelSetupTask? then CancelSetup else CancelRunner;
            var taken, left := s.shutdown.taken, s'.shutdown.taken;
            && h.j in s.jobs && s'.jobs == s.jobs[h.j := CancelStep(s.jobs[h.j], w)]
            && s' == s.(jobs := s'.jobs, shutdown := s'.shutdown)
            && s'.shutdown.FirstPass? == s.shutdown.FirstPass? && s'.shutdown.SecondPass? == s.shutdown.SecondPass?
            && left.setups == taken.setups && left.runners == taken.runners
  {
  }

  lemma CancelKeepsJobs(s: State, h: Halt)
    requires Jobs(s) && CanCancelTask(s, h)
    ensures Jobs(TaskCanceled(s, h))
  {
    CanceledFrame(s, h);
    var w := if h.CancelSetupTask? then CancelSetup else CancelRunner;
    var job' := CancelStep(s.jobs[h.j], w);
    JobFact(s, h.j);
    CancelKeepsJob(s.jobs[h.j], w);
    SetJobKeeps(s, h.j, job');
    SameJobs(s.(jobs := s.jobs[h.j := job']), TaskCanceled(s, h));
  }

  lemma CancelDrains(s: State, h: Halt)
    requires Drains(s) && CanCancelTask(s, h)
    ensures Drains(TaskCanceled(s, h))
  {
    CanceledFrame(s, h);
    var w := if h.CancelSetupTask? then CancelSetup else CancelRunner;
    SetJobDrains(s, h.j, CancelStep(s.jobs[h.j], w));
  }

  lemma CancelSound(s: State, h: Halt, runtime: Text)
    requires Sound(s, runtime) && CanCancelTask(s, h)
    ensures Sound(TaskCanceled(s, h), runtime)
  {
    CanceledFrame(s, h);
    CancelKeepsJobs(s, h);
    CancelDrains(s, h);
  }

  lemma InterruptSound(s: State, path: Text, env: Env, message: Text, runtime: Text)
    requires Sound(s, runtime) && CanHalt(s, InterruptStore(path, env, message), runtime)
    ensures Sound(HaltOn(s, InterruptStore(path, env, message), runtime), runtime)
  {
    var req := InterruptRuntime(message);
    var s1 := Served(s, path, env, req);
    ServedSound(s, path, env, req, runtime);
    ServedIsRelapsed(s, path, env, req);
    InterruptLeavesNone(s.dbs[path], env, message);
    OneStoreLess(s1, path, runtime);
  }

  lemma OneStoreLess(s: State, path: Text, runtime: Text)
    requires Sound(s, runtime) && s.shutdown.Interrupting? && path in s.dbs && !RowsUnder(s.dbs[path], runtime)
    ensures Sound(s.(shutdown := Interrupting(s.shutdown.left - {path})), runtime)
  {
    SameJobs(s, s.(shutdown := Interrupting(s.shutdown.left - {path})));
    OneStoreDrains(s, path, runtime);
  }

  lemma OneStoreDrains(s: State, path: Text, runtime: Text)
    requires Drains(s) && Interrupted(s, runtime) && s.shutdown.Interrupting?
    requires path in s.dbs && !RowsUnder(s.dbs[path], runtime)
    ensures Drains(s.(shutdown := Interrupting(s.shutdown.left - {path})))
    ensures Interrupted(s.(shutdown := Interrupting(s.shutdown.left - {path})), runtime)
  {
  }

  lemma HaltsSound(s: State, h: Halt, runtime: Text)
    requires Sound(s, runtime) && CanHalt(s, h, runtime)
    ensures Sound(HaltOn(s, h, runtime), runtime)
  {
    if h.InterruptStore? {
      InterruptSound(s, h.path, h.env, h.message, runtime);
    } else if Cancels(h) {
      CancelSound(s, h, runtime);
    } else {
      HaltSound(s, h, runtime);
    }
  }

  // --- every step ------------------------------------------------------------

  lemma OpenKeepsJobs(s: State, path: Text)
    requires Jobs(s) && path in s.dbs
    ensures Jobs(s.(stores := s.stores + {path}))
  {
    var s' := s.(stores := s.stores + {path});
    forall j | j in s'.jobs
      ensures Listed(s', j) && JobOk(s'.jobs[j]) && s'.jobs[j].path in s'.stores
    {
      JobFact(s, j);
    }
    SameKeysKept(s, s');
  }

  lemma OpenSound(s: State, path: Text, runtime: Text)
    requires Sound(s, runtime) && path in s.dbs
    ensures Sound(s.(stores := s.stores + {path}), runtime)
  {
    OpenKeepsJobs(s, path);
  }

  lemma ReserveKeepsJobs(s: State, j: JobId, path: Text)
    requires Jobs(s) && j !in s.jobs && path in s.stores
    ensures Jobs(s.(jobs := s.jobs[j := NewJob(path)], reservations := s.reservations + {j}))
  {
    var s' := s.(jobs := s.jobs[j := NewJob(path)], reservations := s.reservations + {j});
    forall k | k in s'.jobs
      ensures Listed(s', k) && JobOk(s'.jobs[k])
    {
      if k != j {
        JobFact(s, k);
      }
    }
    forall i, k | i in s'.jobs && k in s'.jobs && SameRun(s', i, k)
      ensures i == k
    {
      assert SameRun(s, i, k);
    }
  }

  lemma ReserveSound(s: State, j: JobId, path: Text, runtime: Text)
    requires Sound(s, runtime) && j !in s.jobs && path in s.stores && !s.shuttingDown
    ensures Sound(s.(jobs := s.jobs[j := NewJob(path)], reservations := s.reservations + {j}), runtime)
  {
    ReserveKeepsJobs(s, j, path);
  }

  /** Every step of every goroutine keeps the protocol sound. */
  lemma StepSound(s: State, step: Step, runtime: Text)
    requires Sound(s, runtime) && Enabled(s, step, runtime)
    ensures Sound(Do(s, step, runtime), runtime)
  {
    match step
    case OpenStore(path) => OpenSound(s, path, runtime);
    case Reserve(j, path) => if !s.shuttingDown { ReserveSound(s, j, path, runtime); }
    case JobActs(j, act) => ActSound(s, j, act, runtime);
    case JobTransacts(j, env, req, again) => TransactSound(s, j, env, req, again, runtime);
    case OthersTransact(path, env, req) => ServedSound(s, path, env, req, runtime);
    case ShutdownActs(h) => HaltsSound(s, h, runtime);
  }

  lemma InitialSound(s: State, runtime: Text)
    requires Initial(s, runtime)
    ensures Sound(s, runtime)
  {
  }

  lemma TraceTake(states: seq<State>, steps: seq<Step>, runtime: Text, n: nat)
    requires Trace(states, steps, runtime) && n <= |steps|
    ensures Trace(states[..n + 1], steps[..n], runtime)
  {
    forall i | 0 <= i < n
      ensures Enabled(states[..n + 1][i], steps[..n][i], runtime)
      ensures states[..n + 1][i + 1] == Do(states[..n + 1][i], steps[..n][i], runtime)
    {
      assert steps[..n][i] == steps[i];
    }
  }

  lemma {:induction false} TraceSound(states: seq<State>, steps: seq<Step>, runtime: Text)
    requires Trace(states, steps, runtime) && Sound(states[0], runtime)
    ensures Sound(states[|steps|], runtime)
  {
    if steps != [] {
      var n := |steps| - 1;
      TraceTake(states, steps, runtime, n);
      TraceSound(states[..n + 1], steps[..n], runtime);
      assert steps[n] == steps[|steps| - 1];
      StepSound(states[n], steps[n], runtime);
    }
  }

  lemma RunSound(states: seq<State>, steps: seq<Step>, runtime: Text)
    requires Run(states, steps, runtime)
    ensures Sound(states[|steps|], runtime)
  {
    InitialSound(states[0], runtime);
    TraceSound(states, steps, runtime);
  }

  /** Nothing is in flight and no row is starting or running under this runtime. */
  ghost predicate AllDrained(s: State, runtime: Text) {
    && s.reservations == {} && s.setupTasks == {} && s.cleanupTasks == {} && s.ownedRuns == map[]
    && forall path | path in s.dbs :: !RowsUnder(s.dbs[path], runtime)
  }

  lemma NoneOwnedIsEmpty(s: State)
    requires Jobs(s) && NoneOwned(s)
    ensures s.ownedRuns == map[]
  {
    forall key | key in s.ownedRuns
      ensures false
    {
      var j := s.ownedRuns[key];
      assert j in s.jobs;
      JobFact(s, j);
    }
  }

  lemma NothingAtEnd(s: State)
    requires Jobs(s) && Drains(s) && s.shutdown.ShutDown?
    ensures s.ownedRuns == map[]
  {
    NoneOwnedIsEmpty(s);
  }

  lemma EmptyAtEnd(s: State, runtime: Text)
    requires Drains(s) && Interrupted(s, runtime) && s.shutdown.ShutDown? && s.ownedRuns == map[]
    ensures AllDrained(s, runtime)
  {
  }

  /** In every interleaving, when the shutdown returns, everything is drained. */
  lemma ShutdownDrains(states: seq<State>, steps: seq<Step>, runtime: Text)
    requires Run(states, steps, runtime) && states[|steps|].shutdown.ShutDown?
    ensures AllDrained(states[|steps|], runtime)
  {
    RunSound(states, steps, runtime);
    NothingAtEnd(states[|steps|]);
    EmptyAtEnd(states[|steps|], runtime);
  }

  /** Nor does any job still hold a client or a lease of the host. */
  lemma ShutdownReleases(states: seq<State>, steps: seq<Step>, runtime: Text, j: JobId)
    requires Run(states, steps, runtime) && states[|steps|].shutdown.ShutDown? && j in states[|steps|].jobs
    ensures !states[|steps|].jobs[j].client.Held? && !states[|steps|].jobs[j].background.Held?
  {
    RunSound(states, steps, runtime);
    UnownedHoldsNothing(states[|steps|], j);
  }

  lemma UnownedHoldsNothing(s: State, j: JobId)
    requires Jobs(s) && Drains(s) && s.shutdown.ShutDown? && j in s.jobs
    ensures !s.jobs[j].client.Held? && !s.jobs[j].background.Held?
  {
    JobFact(s, j);
    assert !IsOwned(s.jobs[j]);
  }
}

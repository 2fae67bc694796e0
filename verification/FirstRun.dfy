/** A run of a session in which the first pass of the shutdown ends beside a live runner:
    the second pass is needed. */
module FirstRun {
  import opened Texts
  import opened Types
  import opened Schema
  import opened Changes
  import opened Coherence
  import opened Transactions
  import opened Legality
  import opened Protocol
  import opened Runtimes
  import opened Shutdown
  import opened ClientFence
  import opened Steps
  import opened FirstPass
  import opened Crossings

  // --- from the reservation to the heartbeat ---------------------------------

  /** How far a committed claim still is from its heartbeat; nothing elsewhere. */
  function Ahead(pc: CallPc): nat {
    match pc
    case Judging => 7
    case Leaving(ok) => if ok then 6 else 0
    case Closing(ok) => if ok then 5 else 0
    case Gap => 4
    case Preparing => 3
    case Acquiring => 2
    case Checking => 1
    case _ => 0
  }

  function Onward(pc: CallPc): CallAct {
    match pc
    case Judging => Judge(false)
    case Leaving(_) => Unreserve
    case Closing(_) => CloseReservation
    case Gap => Prepare
    case Preparing => Own
    case Acquiring => Acquire
    case _ => Check
  }

  lemma OnwardIsOpen(job: Job)
    requires Ahead(job.pc) > 0
    ensures CanCall(job, Onward(job.pc))
  {
  }

  predicate Climbs(c: CallAct) {
    c == Judge(false) || c.Unreserve? || c.CloseReservation? || c.Prepare? || c.Own? || c.Acquire? || c.Check?
  }

  lemma OnwardClimbs(pc: CallPc)
    ensures Climbs(Onward(pc))
  {
  }

  predicate OnlyPc(job: Job, job': Job) {
    job'.key == job.key && job'.path == job.path && job'.setupCanceled == job.setupCanceled
  }

  lemma OnwardIsNearer(job: Job, c: CallAct)
    requires Ahead(job.pc) > 0 && Climbs(c) && CanCall(job, c)
    ensures var job' := CallStep(job, c, false);
            OnlyPc(job, job') && (job'.pc.Beating? || Ahead(job'.pc) > 0) && Ahead(job'.pc) < Ahead(job.pc)
  {
    match c
    case Judge(_) =>
    case Unreserve =>
    case CloseReservation =>
    case _ =>
  }

  lemma ClimbsOnce(s: State, j: JobId, runtime: Text) returns (s': State)
    requires Sound(s, runtime) && !s.shuttingDown && j in s.jobs && Ahead(s.jobs[j].pc) > 0
    ensures Reaches(s, s', runtime) && Sound(s', runtime) && OnlyJob(s, s', j) && OnlyPc(s.jobs[j], s'.jobs[j])
    ensures (s'.jobs[j].pc.Beating? || Ahead(s'.jobs[j].pc) > 0) && Ahead(s'.jobs[j].pc) < Ahead(s.jobs[j].pc)
  {
    OnwardIsOpen(s.jobs[j]);
    OnwardClimbs(s.jobs[j].pc);
    OnwardIsNearer(s.jobs[j], Onward(s.jobs[j].pc));
    s' := Acts(s, j, Call(Onward(s.jobs[j].pc)), runtime);
  }

  lemma {:induction false} ComesToBeat(s: State, j: JobId, runtime: Text) returns (s': State)
    requires Sound(s, runtime) && !s.shuttingDown && j in s.jobs && (Ahead(s.jobs[j].pc) > 0 || s.jobs[j].pc.Beating?)
    ensures Reaches(s, s', runtime) && Sound(s', runtime) && OnlyJob(s, s', j)
    ensures s'.jobs[j].pc.Beating? && OnlyPc(s.jobs[j], s'.jobs[j])
    decreases Ahead(s.jobs[j].pc)
  {
    if s.jobs[j].pc.Beating? {
      s' := s;
      StaysThere(s, runtime);
    } else {
      var s1 := ClimbsOnce(s, j, runtime);
      s' := ComesToBeat(s1, j, runtime);
      ReachesOn(s, s1, s', runtime);
      OnlyJobOn(s, s1, s', j);
    }
  }

  // --- the first claim -------------------------------------------------------

  function FreshId(): Id { seq(ID_BYTES, _ => 0) }

  function FirstCreate(): Request { Create(FreshId(), FreshId(), [], [], [], [], [], Fresh) }

  function StartEnv(runtime: Text): Env { Env(runtime, false, 0.0, []) }

  lemma NothingToReconcile(runtime: Text)
    ensures Mid(EmptyDb, StartEnv(runtime)) == EmptyDb
  {
  }

  lemma FirstSpawn(c: Change)
    requires c.Spawn? && |c.a| == |c.r| == ID_BYTES && c.name == []
    ensures Legal(EmptyDb, c) && FetchAfter(EmptyDb, [c], c.a, None).Commit?
  {
    EmptyIsCoherent();
    EmptyHolds(c.owner);
    OneLegal(EmptyDb, c);
    RowsAfter(EmptyDb, c);
  }

  lemma EmptyHolds(owner: Text)
    ensures |HeldBy(EmptyDb.agents, owner)| == 0 && |HeldAgents(EmptyDb.agents)| == 0
  {
    assert HeldAgents(EmptyDb.agents) == {};
    assert HeldBy(EmptyDb.agents, owner) == {};
  }

  /** An empty database accepts an agent. */
  lemma FirstCreateCommits(runtime: Text)
    ensures Possible(EmptyDb, StartEnv(runtime), FirstCreate())
    ensures Transaction(EmptyDb, StartEnv(runtime), FirstCreate()).Commit?
  {
    var env := StartEnv(runtime);
    NothingToReconcile(runtime);
    EmptyHolds([]);
    FirstSpawn(Spawn(FreshId(), FreshId(), [], [], Fresh, [], [], LeaseCells(runtime, [], 0.0 + LEASE_SECONDS), 0.0));
    CommitNeedsBody(EmptyDb, env, FirstCreate());
  }

  /** A session over a new database, before anything has happened. */
  function NewSession(path: Text): State {
    State(map[path := EmptyDb], {}, map[], {}, {}, {}, map[], false, Open)
  }

  /** The session has accepted its first reservation. */
  function Reserved(path: Text): State {
    State(map[path := EmptyDb], {path}, map[0 := NewJob(path)], {0}, {}, {}, map[], false, Open)
  }

  lemma NewSessionIsInitial(path: Text, runtime: Text)
    ensures Initial(NewSession(path), runtime)
  {
    EmptyIsCoherent();
  }

  lemma Reserves(path: Text, runtime: Text)
    ensures Reaches(NewSession(path), Reserved(path), runtime) && Sound(Reserved(path), runtime)
  {
    var s0 := NewSession(path);
    var s1 := s0.(stores := {path});
    NewSessionIsInitial(path, runtime);
    InitialSound(s0, runtime);
    OpensAndReserves(path, runtime);
    StepSound(s0, OpenStore(path), runtime);
    StepSound(s1, Reserve(0, path), runtime);
    StepReaches(s0, OpenStore(path), runtime);
    StepReaches(s1, Reserve(0, path), runtime);
    ReachesOn(s0, s1, Reserved(path), runtime);
  }

  lemma OpensAndReserves(path: Text, runtime: Text)
    ensures var s0 := NewSession(path);
            var s1 := s0.(stores := {path});
            && Enabled(s0, OpenStore(path), runtime) && Do(s0, OpenStore(path), runtime) == s1
            && Enabled(s1, Reserve(0, path), runtime) && Do(s1, Reserve(0, path), runtime) == Reserved(path)
  {
  }

  /** A job that has just committed its claim. */
  ghost predicate JustClaimed(s: State, j: JobId) {
    && !s.shuttingDown && s.shutdown.Open? && j in s.jobs && s.jobs[j].pc.Judging? && !s.jobs[j].setupCanceled
    && s.jobs[j].key.Some? && s.jobs[j].path in s.dbs && ClaimActive(s.dbs[s.jobs[j].path], s.jobs[j].key.value)
  }

  lemma ClaimsFirst(path: Text, runtime: Text) returns (s: State)
    ensures Reaches(NewSession(path), s, runtime) && Sound(s, runtime) && JustClaimed(s, 0)
  {
    var s0, env := Reserved(path), StartEnv(runtime);
    Reserves(path, runtime);
    FirstCreateCommits(runtime);
    ClaimIsEnabled(path, runtime);
    s := Do(s0, JobTransacts(0, env, FirstCreate(), false), runtime);
    StepReaches(s0, JobTransacts(0, env, FirstCreate(), false), runtime);
    StepSound(s0, JobTransacts(0, env, FirstCreate(), false), runtime);
    ClaimsAs(path, runtime);
    ReachesOn(NewSession(path), s0, s, runtime);
  }

  lemma ClaimIsEnabled(path: Text, runtime: Text)
    requires Possible(EmptyDb, StartEnv(runtime), FirstCreate())
    ensures Enabled(Reserved(path), JobTransacts(0, StartEnv(runtime), FirstCreate(), false), runtime)
    ensures Do(Reserved(path), JobTransacts(0, StartEnv(runtime), FirstCreate(), false), runtime)
            == TransactOn(Reserved(path), 0, StartEnv(runtime), FirstCreate(), false)
  {
  }

  lemma ClaimsAs(path: Text, runtime: Text)
    requires Possible(EmptyDb, StartEnv(runtime), FirstCreate())
    requires Transaction(EmptyDb, StartEnv(runtime), FirstCreate()).Commit?
    ensures JustClaimed(TransactOn(Reserved(path), 0, StartEnv(runtime), FirstCreate(), false), 0)
  {
    EmptyIsCoherent();
    ReservationGives(EmptyDb, StartEnv(runtime), FirstCreate());
    OwnAfter(Reserved(path), 0, StartEnv(runtime), FirstCreate(), false);
    TransactFrame(Reserved(path), 0, StartEnv(runtime), FirstCreate(), false);
  }

  // --- the shutdown comes in between -----------------------------------------

  lemma Flags(s: State, runtime: Text) returns (s': State)
    requires Sound(s, runtime) && s.shutdown.Open?
    ensures Reaches(s, s', runtime) && s' == Flag(s)
  {
    s' := HaltOn(s, SetFlag, runtime);
    StepReaches(s, ShutdownActs(SetFlag), runtime);
  }

  /** The state in which the shutdown is flagged. */
  function Flag(s: State): State { s.(shuttingDown := true, shutdown := Flagged) }

  lemma BeatsFirst(path: Text, runtime: Text) returns (s: State)
    ensures Reaches(NewSession(path), s, runtime) && Sound(s, runtime) && s.shutdown.Open? && CanLaunch(Flag(s), 0)
  {
    var s1 := ClaimsFirst(path, runtime);
    s := BeatsNext(s1, runtime);
    ReachesOn(NewSession(path), s1, s, runtime);
  }

  lemma BeatsNext(s: State, runtime: Text) returns (s': State)
    requires Sound(s, runtime) && JustClaimed(s, 0)
    ensures Reaches(s, s', runtime) && Sound(s', runtime) && s'.shutdown.Open? && CanLaunch(Flag(s'), 0)
  {
    JustClaimedIsAhead(s, 0);
    s' := ComesToBeat(s, 0, runtime);
    BeatsWithClaim(s, s', 0);
  }

  /** A setup may be about to renew its claim as the shutdown is flagged. */
  lemma FlagsAtHeartbeat(path: Text, runtime: Text) returns (s: State)
    ensures Reaches(NewSession(path), s, runtime) && s.shutdown.Flagged? && CanLaunch(s, 0)
  {
    var s1 := BeatsFirst(path, runtime);
    s := Flags(s1, runtime);
    ReachesOn(NewSession(path), s1, s, runtime);
  }

  lemma JustClaimedIsAhead(s: State, j: JobId)
    requires JustClaimed(s, j)
    ensures !s.shuttingDown && j in s.jobs && Ahead(s.jobs[j].pc) > 0
  {
  }

  lemma BeatsWithClaim(s: State, s': State, j: JobId)
    requires JustClaimed(s, j) && OnlyJob(s, s', j) && OnlyPc(s.jobs[j], s'.jobs[j]) && s'.jobs[j].pc.Beating?
    ensures s'.shutdown.Open? && CanLaunch(Flag(s'), j)
  {
  }

  lemma GoodOnward(s: State, s': State, runtime: Text)
    requires Good(s, runtime) && Reaches(s, s', runtime)
    ensures Good(s', runtime)
  {
    var states, steps :| Trace(states, steps, runtime) && states[0] == s && states[|steps|] == s';
    TraceGood(states, steps, runtime);
  }

  lemma Takes(s: State, runtime: Text) returns (s': State)
    requires Good(s, runtime) && s.shutdown.Flagged?
    ensures Reaches(s, s', runtime) && Good(s', runtime) && Taken(s') && s'.jobs == s.jobs && s'.dbs == s.dbs
  {
    s' := HaltOn(s, TakeFirst, runtime);
    TakeFirstTakes(s, runtime);
    StepReaches(s, ShutdownActs(TakeFirst), runtime);
  }

  /** From a flagged state with a setup that can launch, the first pass may leave its
      runner behind. */
  lemma FlaggedLeaks(s: State, j: JobId, runtime: Text) returns (s': State)
    requires Good(s, runtime) && s.shutdown.Flagged? && CanLaunch(s, j)
    ensures Reaches(s, s', runtime) && Leaks(s')
  {
    var s1 := Takes(s, runtime);
    TakenIsReady(s1, j);
    s' := LaunchableLeaks(s1, j, runtime);
    ReachesOn(s, s1, s', runtime);
  }

  /** Why there are two passes: from a new session, a run of a single spawn, with the
      shutdown arriving at its heartbeat, ends the first pass beside a live runner. */
  lemma FirstPassDoesNotSuffice(path: Text, runtime: Text)
    ensures exists states, steps {:trigger Run(states, steps, runtime)} ::
              Run(states, steps, runtime) && states[0] == NewSession(path) && Leaks(states[|steps|])
  {
    NewSessionIsInitial(path, runtime);
    var s := FlagsAtHeartbeat(path, runtime);
    InitialGood(NewSession(path), runtime);
    GoodOnward(NewSession(path), s, runtime);
    var s' := FlaggedLeaks(s, 0, runtime);
    ReachesOn(NewSession(path), s, s', runtime);
    var states, steps :| Trace(states, steps, runtime) && states[0] == NewSession(path) && states[|steps|] == s';
    assert Run(states, steps, runtime);
  }

  lemma InitialGood(s: State, runtime: Text)
    requires Initial(s, runtime)
    ensures Good(s, runtime)
  {
    InitialSound(s, runtime);
    InitialFences(s, runtime);
  }
}

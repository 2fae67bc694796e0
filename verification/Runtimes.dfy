/** The rows a runtime holds: only its own Create and Claim add one, and its
    interruption leaves none. */
module Runtimes {
  import opened Texts
  import opened Types
  import opened Schema
  import opened Changes
  import opened Coherence
  import opened Transactions
  import opened Reconciliation
  import opened Legality
  import opened Notifications
  import opened Fencing
  import opened Protocol

  /** The row is active under the runtime: under any claim, or under a single one. */
  predicate Counts(a: Id, row: AgentRow, runtime: Text, only: Option<LeaseKey>) {
    HeldUnder(row, runtime) && (only.Some? ==> KeyOf(a, row) == only.value)
  }

  /** A change that gives an agent such a claim. */
  predicate Adds(c: Change, runtime: Text, only: Option<LeaseKey>) {
    (c.Spawn? || c.Reclaim?) && c.cells.runtime == runtime && (only.Some? ==> c.r == only.value.run)
  }

  ghost predicate AddsNone(log: seq<Change>, runtime: Text, only: Option<LeaseKey>) {
    forall i | 0 <= i < |log| :: !Adds(log[i], runtime, only)
  }

  ghost predicate NoRow(agents: map<Id, AgentRow>, runtime: Text, only: Option<LeaseKey>) {
    forall a | a in agents :: !Counts(a, agents[a], runtime, only)
  }

  lemma RowsUnderIs(db: Db, runtime: Text)
    ensures RowsUnder(db, runtime) <==> !NoRow(db.agents, runtime, None)
  {
    if RowsUnder(db, runtime) {
      var a :| a in db.agents && HeldUnder(db.agents[a], runtime);
      assert Counts(a, db.agents[a], runtime, None);
    }
  }

  lemma ChangeAddsNone(db: Db, c: Change, runtime: Text, only: Option<LeaseKey>)
    requires Legal(db, c) && NoRow(db.agents, runtime, only) && !Adds(c, runtime, only)
    ensures NoRow(Apply(db, c).agents, runtime, only)
  {
    RowsAfter(db, c);
    if InPlace(c) {
      assert !Counts(c.a, db.agents[c.a], runtime, only);
      InPlaceAddsNone(c.a, db.agents[c.a], c, runtime, only);
    }
  }

  /** An update in place never makes a row active, nor moves it to another runtime. */
  lemma InPlaceAddsNone(a: Id, row: AgentRow, c: Change, runtime: Text, only: Option<LeaseKey>)
    requires !Counts(a, row, runtime, only) && (c.Start? ==> row.status.Active())
    ensures !Counts(a, NewAgentRow(row, c), runtime, only)
  {
  }

  lemma {:induction false} ChangesAddNone(db: Db, cs: seq<Change>, runtime: Text, only: Option<LeaseKey>)
    requires Inv(db) && LegalAll(db, cs) && NoRow(db.agents, runtime, only) && AddsNone(cs, runtime, only)
    ensures NoRow(ApplyAll(db, cs).agents, runtime, only)
  {
    if cs != [] {
      var first := cs[..|cs| - 1];
      ChangesAddNone(db, first, runtime, only);
      ChangeAddsNone(ApplyAll(db, first), cs[|cs| - 1], runtime, only);
    }
  }

  /** The request makes no claim under the runtime, or none of the single claim's run. */
  predicate MakesNone(env: Env, req: Request, runtime: Text, only: Option<LeaseKey>) {
    env.runtime == runtime && Claims(req) ==> only.Some? && NewRun(req) != only.value.run
  }

  lemma BodyAddsNone(db: Db, env: Env, req: Request, runtime: Text, only: Option<LeaseKey>)
    requires Reconciles(req) && !req.InterruptRuntime? && MakesNone(env, req, runtime, only)
    ensures AddsNone(Body(db, env, req).Log(), runtime, only)
  {
    WorkerLogIsShort(db, env, req);
    if req.Create? && Body(db, env, req).Commit? {
      CreateBody(db, env, req);
    } else if req.Claim? && Body(db, env, req).Commit? {
      ClaimBody(db, env, req);
    }
  }

  lemma InterruptAddsNone(db: Db, env: Env, message: Text, runtime: Text, only: Option<LeaseKey>)
    requires Inv(db) && IsScan(env.scan, db.agents)
    ensures AddsNone(Body(db, env, InterruptRuntime(message)).Log(), runtime, only)
  {
    InterruptReleases(db, env, message);
  }

  lemma MidAddsNone(db: Db, env: Env, runtime: Text, only: Option<LeaseKey>)
    requires Inv(db) && IsScan(env.scan, db.agents) && NoRow(db.agents, runtime, only)
    ensures NoRow(Mid(db, env).agents, runtime, only)
  {
    MidFacts(db, env);
    ChangesAddNone(db, Reconcile(db, env), runtime, only);
  }

  lemma ReconcilingAddsNone(db: Db, env: Env, req: Request, runtime: Text, only: Option<LeaseKey>)
    requires Inv(db) && Possible(db, env, req) && Reconciles(req) && NoRow(db.agents, runtime, only)
    requires MakesNone(env, req, runtime, only)
    ensures NoRow(Serve(db, env, req).agents, runtime, only)
  {
    var mid := Mid(db, env);
    MidPossible(db, env, req);
    MidAddsNone(db, env, runtime, only);
    BodyLegal(mid, env, req);
    if req.InterruptRuntime? {
      InterruptAddsNone(mid, env, req.message, runtime, only);
    } else {
      BodyAddsNone(mid, env, req, runtime, only);
    }
    ChangesAddNone(mid, Body(mid, env, req).Log(), runtime, only);
    ServeIsBody(db, env, req);
  }

  lemma MailAddsNone(db: Db, env: Env, req: Request, runtime: Text, only: Option<LeaseKey>)
    requires Inv(db) && Possible(db, env, req) && !Reconciles(req) && NoRow(db.agents, runtime, only)
    ensures NoRow(Serve(db, env, req).agents, runtime, only)
  {
    MailLegal(db, env, req);
    ChangesAddNone(db, Transaction(db, env, req).Log(), runtime, only);
  }

  lemma ServeAddsNone(db: Db, env: Env, req: Request, runtime: Text, only: Option<LeaseKey>)
    requires Inv(db) && Possible(db, env, req) && NoRow(db.agents, runtime, only) && MakesNone(env, req, runtime, only)
    ensures NoRow(Serve(db, env, req).agents, runtime, only)
  {
    if Reconciles(req) {
      ReconcilingAddsNone(db, env, req, runtime, only);
    } else {
      MailAddsNone(db, env, req, runtime, only);
    }
  }

  /** A request that is not this runtime's own Create or Claim leaves it without rows. */
  lemma OthersAddNone(db: Db, env: Env, req: Request, runtime: Text)
    requires Inv(db) && Possible(db, env, req) && !RowsUnder(db, runtime)
    requires env.runtime == runtime ==> !Claims(req)
    ensures !RowsUnder(Serve(db, env, req), runtime)
  {
    RowsUnderIs(db, runtime);
    RowsUnderIs(Serve(db, env, req), runtime);
    ServeAddsNone(db, env, req, runtime, None);
  }

  /** A single claim is recorded and active. */
  ghost predicate ClaimActive(db: Db, key: LeaseKey) {
    && key.agent in db.agents && db.agents[key.agent].status.Active() && db.agents[key.agent].lease.Some?
    && LiveKey(db, key.agent) == key
  }

  lemma ClaimActiveIs(db: Db, key: LeaseKey)
    ensures ClaimActive(db, key) <==> !NoRow(db.agents, key.runtime, Some(key))
  {
    if ClaimActive(db, key) {
      assert Counts(key.agent, db.agents[key.agent], key.runtime, Some(key));
    }
  }

  /** A claim that is not active is never active again, as no run id is used twice. */
  lemma NoClaimRevives(db: Db, env: Env, req: Request, key: LeaseKey)
    requires Inv(db) && Possible(db, env, req) && !ClaimActive(db, key)
    requires env.runtime == key.runtime && Claims(req) ==> NewRun(req) != key.run
    ensures !ClaimActive(Serve(db, env, req), key)
  {
    ClaimActiveIs(db, key);
    ClaimActiveIs(Serve(db, env, req), key);
    ServeAddsNone(db, env, req, key.runtime, Some(key));
  }

  /** A session's interruption leaves no starting or running row under its runtime. */
  lemma InterruptLeavesNone(db: Db, env: Env, message: Text)
    requires Inv(db) && IsScan(env.scan, db.agents)
    ensures !RowsUnder(Serve(db, env, InterruptRuntime(message)), env.runtime)
  {
    MidFacts(db, env);
    InterruptBody(Mid(db, env), env, message);
    InterruptServes(db, env, message);
    RowsUnderIs(Serve(db, env, InterruptRuntime(message)), env.runtime);
  }

  lemma InterruptServes(db: Db, env: Env, message: Text)
    requires Body(Mid(db, env), env, InterruptRuntime(message)).Log() == InterruptTx(Mid(db, env), env, message).Log()
    ensures Serve(db, env, InterruptRuntime(message)) == ApplyAll(Mid(db, env), InterruptTx(Mid(db, env), env, message).Log())
  {
    ServeIsBody(db, env, InterruptRuntime(message));
  }

  lemma InterruptBody(db: Db, env: Env, message: Text)
    requires Inv(db) && IsScan(env.scan, db.agents)
    ensures Body(db, env, InterruptRuntime(message)).Log() == InterruptTx(db, env, message).Log()
    ensures NoRow(ApplyAll(db, InterruptTx(db, env, message).Log()).agents, env.runtime, None)
  {
    InterruptLegal(db, env, message);
    ReleasedLeavesNone(db, ApplyAll(db, InterruptTx(db, env, message).Log()), Ids(RuntimeRows(env.scan, db.agents, env.runtime)),
                       message, env.now, env.runtime);
  }

  lemma ReleasedLeavesNone(db: Db, db': Db, ended: set<Id>, message: Text, at: real, runtime: Text)
    requires Released(db, db', ended, message, at) && forall a :: a in ended <==> a in db.agents && HeldUnder(db.agents[a], runtime)
    ensures NoRow(db'.agents, runtime, None)
  {
  }

  // --- what a reservation commits --------------------------------------------

  lemma CreateBody(db: Db, env: Env, req: Request)
    requires req.Create? && Body(db, env, req).Commit?
    ensures Body(db, env, req).Log()
            == [Spawn(req.a, req.r, req.name, req.owner, req.mode, req.cwd, req.task,
                      LeaseCells(env.runtime, req.token, env.now + LEASE_SECONDS), env.now)]
  {
  }

  lemma ClaimBody(db: Db, env: Env, req: Request)
    requires req.Claim? && Body(db, env, req).Commit?
    ensures Body(db, env, req).Log()
            == [Reclaim(req.a, req.r, req.task, LeaseCells(env.runtime, req.token, env.now + LEASE_SECONDS), env.now)]
  {
  }

  function NewToken(req: Request): Text
    requires Claims(req)
  {
    if req.Create? then req.token else req.token
  }

  /** The agent is held by the new run, under the lease the caller gets. */
  ghost predicate Gives(db: Db, env: Env, a: Id, r: Id, token: Text) {
    && a in db.agents && db.agents[a].status.Starting? && db.agents[a].activeRun == r
    && db.agents[a].lease == Some(LeaseCells(env.runtime, token, env.now + LEASE_SECONDS))
  }

  lemma NewClaimGives(db: Db, c: Change, env: Env, token: Text)
    requires Legal(db, c) && (c.Spawn? || c.Reclaim?) && c.cells == LeaseCells(env.runtime, token, env.now + LEASE_SECONDS)
    ensures Gives(ApplyAll(db, [c]), env, c.a, c.r, token)
  {
    OneLegal(db, c);
    RowsAfter(db, c);
  }

  lemma BodyGives(db: Db, env: Env, req: Request)
    requires Inv(db) && Possible(db, env, req) && Claims(req) && Body(db, env, req).Commit?
    ensures Gives(ApplyAll(db, Body(db, env, req).Log()), env, Target(req), NewRun(req), NewToken(req))
  {
    BodyLegal(db, env, req);
    if req.Create? {
      CreateBody(db, env, req);
    } else {
      ClaimBody(db, env, req);
    }
    var c := Body(db, env, req).Log()[0];
    assert [c][..0] == [];
    NewClaimGives(db, c, env, NewToken(req));
  }

  /** A committed Create or Claim hands out the claim it has just made. */
  lemma ReservationGives(db: Db, env: Env, req: Request)
    requires Inv(db) && Possible(db, env, req) && Claims(req) && Transaction(db, env, req).Commit?
    ensures Gives(Serve(db, env, req), env, Target(req), NewRun(req), NewToken(req))
  {
    MidPossible(db, env, req);
    ServeIsBody(db, env, req);
    CommitNeedsBody(db, env, req);
    BodyGives(Mid(db, env), env, req);
  }

  lemma CommitNeedsBody(db: Db, env: Env, req: Request)
    requires Reconciles(req)
    ensures Transaction(db, env, req).Commit? <==> Body(Mid(db, env), env, req).Commit?
  {
  }

  /** The lease handed out with a claim is the one that matches. */
  lemma ReservationOwns(db: Db, env: Env, req: Request)
    requires Inv(db) && Possible(db, env, req) && Claims(req) && Transaction(db, env, req).Commit?
    ensures var db', a := Serve(db, env, req), Target(req);
            && a in db'.agents && db'.agents[a].lease.Some?
            && LiveKey(db', a) == LeaseKey(a, NewRun(req), db'.agents[a].generation, NewToken(req), env.runtime)
            && Owns(db', LiveKey(db', a), env.runtime, env.now)
  {
    ReservationGives(db, env, req);
    ServeKeepsInv(db, env, req);
    OneLeaseMatches(Serve(db, env, req), LiveKey(Serve(db, env, req), Target(req)), env.runtime, env.now);
  }
}

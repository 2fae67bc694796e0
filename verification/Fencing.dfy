/** The lease fence: only the holder of a live claim acts on it, and only the holder,
    its runtime's shutdown or the clock ends it. */
module Fencing {
  import opened Texts
  import opened Types
  import opened Schema
  import opened Changes
  import opened Coherence
  import opened Guards
  import opened Transactions
  import opened Reconciliation
  import opened Legality

  /** A lease matches when run, generation, token, runtime and expiry all do. */
  predicate Owns(db: Db, key: LeaseKey, runtime: Text, now: real) {
    RowsFound(db, key) && ValidateOwnership(db.agents[key.agent], db.runs[key.run], key, runtime, now).None?
  }

  /** The claim an agent's row records. */
  function KeyOf(a: Id, row: AgentRow): LeaseKey
    requires row.lease.Some?
  {
    LeaseKey(a, row.activeRun, row.generation, row.lease.value.token, row.lease.value.runtime)
  }

  /** The claim recorded for an agent. */
  function LiveKey(db: Db, a: Id): LeaseKey
    requires a in db.agents && db.agents[a].lease.Some?
  {
    KeyOf(a, db.agents[a])
  }

  /** At most one lease per agent matches: the one recorded with it, while unexpired. */
  lemma OneLeaseMatches(db: Db, key: LeaseKey, runtime: Text, now: real)
    requires Inv(db)
    ensures Owns(db, key, runtime, now) <==>
              && key.agent in db.agents
              && db.agents[key.agent].status.Held()
              && db.agents[key.agent].lease.Some?
              && key == LiveKey(db, key.agent)
              && key.runtime == runtime
              && now < db.agents[key.agent].lease.value.expires
  {
    if key.agent in db.agents {
      AgentFact(db.agents, db.runs, key.agent);
    }
  }

  function WorkerKey(req: Request): Option<LeaseKey> {
    match req
    case Abort(key) => Some(key)
    case AttachConversation(key, _) => Some(key)
    case AttachCanceling(key, _) => Some(key)
    case MarkRunning(key, _) => Some(key)
    case Finish(key, _, _) => Some(key)
    case Heartbeat(key) => Some(key)
    case HeartbeatCanceling(key) => Some(key)
    case CompleteCancel(key) => Some(key)
    case NextSteering(key) => Some(key)
    case AcknowledgeSteering(key, _) => Some(key)
    case _ => None
  }

  lemma FencedBody(db: Db, env: Env, req: Request)
    requires WorkerKey(req).Some? && !Owns(db, WorkerKey(req).value, env.runtime, env.now)
    ensures Body(db, env, req).Log() == []
  {
  }

  /** A worker request whose lease does not match leaves the database unchanged, or
      exactly as reconciliation alone leaves it. */
  lemma FencedOut(db: Db, env: Env, req: Request)
    requires WorkerKey(req).Some? && !Owns(Mid(db, env), WorkerKey(req).value, env.runtime, env.now)
    ensures Serve(db, env, req) == db || Serve(db, env, req) == Mid(db, env)
  {
    FencedBody(Mid(db, env), env, req);
    assert Reconcile(db, env) + [] == Reconcile(db, env);
  }

  // --- who can end a claim ---------------------------------------------------

  /** The requests that end the live claim of an agent: its holder's own, or the
      interruption of the runtime that holds it. */
  predicate EndsClaim(db: Db, env: Env, req: Request, a: Id)
    requires a in db.agents && db.agents[a].lease.Some?
  {
    && env.runtime == db.agents[a].lease.value.runtime
    && match req
       case Abort(key) => key == LiveKey(db, a)
       case Finish(key, _, _) => key == LiveKey(db, a)
       case CompleteCancel(key) => key == LiveKey(db, a)
       case InterruptRuntime(_) => true
       case _ => false
  }

  /** The claim of an agent is held by the same run under the same lease. */
  ghost predicate SameClaim(db: Db, db': Db, a: Id)
    requires a in db.agents && db.agents[a].lease.Some?
  {
    && a in db'.agents && db'.agents[a].status.Held() && db'.agents[a].lease.Some?
    && LiveKey(db', a) == LiveKey(db, a)
  }

  lemma ChangeKeepsClaim(db: Db, c: Change, a: Id)
    requires Inv(db) && Legal(db, c) && a in db.agents && db.agents[a].status.Held() && db.agents[a].lease.Some?
    requires !Ends(c, a)
    ensures SameClaim(db, Apply(db, c), a)
  {
    RowsAfter(db, c);
    if InPlace(c) {
      AgentFact(db.agents, db.runs, c.a);
      NewRows(db, c);
    }
  }

  lemma {:induction false} ChangesKeepClaim(db: Db, cs: seq<Change>, a: Id)
    requires Inv(db) && LegalAll(db, cs) && a in db.agents && db.agents[a].status.Held() && db.agents[a].lease.Some?
    requires forall i | 0 <= i < |cs| :: !Ends(cs[i], a)
    ensures SameClaim(db, ApplyAll(db, cs), a)
  {
    if cs != [] {
      var first := cs[..|cs| - 1];
      ChangesKeepClaim(db, first, a);
      ChangesKeepInv(db, first);
      ChangeKeepsClaim(ApplyAll(db, first), cs[|cs| - 1], a);
    }
  }

  predicate Ends(c: Change, a: Id) { (c.End? || c.FinishCancel? || c.Remove?) && c.a == a }

  lemma WorkerEnds(db: Db, env: Env, req: Request, a: Id)
    requires Inv(db) && WorkerKey(req).Some?
    requires a in db.agents && db.agents[a].status.Held() && db.agents[a].lease.Some?
    requires Body(db, env, req).Log() != [] && Ends(Body(db, env, req).Log()[0], a)
    ensures EndsClaim(db, env, req, a)
  {
    if !Owns(db, WorkerKey(req).value, env.runtime, env.now) {
      FencedBody(db, env, req);
    }
    OneLeaseMatches(db, WorkerKey(req).value, env.runtime, env.now);
    EndingRequest(db, env, req, a);
  }

  /** Only three worker requests can commit an end, each of its own claim. */
  lemma EndingRequest(db: Db, env: Env, req: Request, a: Id)
    requires WorkerKey(req).Some? && Body(db, env, req).Log() != [] && Ends(Body(db, env, req).Log()[0], a)
    ensures (req.Abort? || req.Finish? || req.CompleteCancel?) && WorkerKey(req).value.agent == a
  {
  }

  lemma WorkerLogIsShort(db: Db, env: Env, req: Request)
    requires Reconciles(req) && !req.InterruptRuntime?
    ensures |Body(db, env, req).Log()| <= 1
    ensures WorkerKey(req).None? && Body(db, env, req).Log() != [] ==>
              forall a :: !Ends(Body(db, env, req).Log()[0], a)
  {
  }

  /** An interruption commits releases and nothing else. */
  lemma InterruptReleases(db: Db, env: Env, message: Text)
    requires Inv(db) && IsScan(env.scan, db.agents)
    ensures var log := Body(db, env, InterruptRuntime(message)).Log();
            && LegalAll(db, log) && Releases(log, RuntimeRows(env.scan, db.agents, env.runtime), env.mail)
  {
    InterruptLegal(db, env, message);
    assert Body(db, env, InterruptRuntime(message)).Log() == InterruptTx(db, env, message).Log();
  }

  lemma InterruptEnds(db: Db, env: Env, message: Text, a: Id)
    requires Inv(db) && IsScan(env.scan, db.agents) && a in db.agents && !HeldUnder(db.agents[a], env.runtime)
    ensures forall i | 0 <= i < |InterruptTx(db, env, message).Log()| :: !Ends(InterruptTx(db, env, message).Log()[i], a)
  {
    InterruptLegal(db, env, message);
    var rows := RuntimeRows(env.scan, db.agents, env.runtime);
    assert a !in rows;
    forall i | 0 <= i < |InterruptTx(db, env, message).Log()|
      ensures !Ends(InterruptTx(db, env, message).Log()[i], a)
    {
      assert rows[i] in rows;
    }
  }

  /** What an operation does after reconciling ends no claim but its holder's. */
  lemma BodyEnds(db: Db, env: Env, req: Request, a: Id)
    requires Inv(db) && Possible(db, env, req) && Reconciles(req)
    requires a in db.agents && db.agents[a].status.Held() && db.agents[a].lease.Some?
    requires !EndsClaim(db, env, req, a)
    ensures forall i | 0 <= i < |Body(db, env, req).Log()| :: !Ends(Body(db, env, req).Log()[i], a)
  {
    if req.InterruptRuntime? {
      InterruptEnds(db, env, req.message, a);
      assert Body(db, env, req).Log() == InterruptTx(db, env, req.message).Log();
    } else {
      WorkerLogIsShort(db, env, req);
      if WorkerKey(req).Some? && Body(db, env, req).Log() != [] && Ends(Body(db, env, req).Log()[0], a) {
        WorkerEnds(db, env, req, a);
      }
    }
  }

  lemma ReconcileKeepsClaim(db: Db, env: Env, a: Id)
    requires Inv(db) && IsScan(env.scan, db.agents)
    requires a in db.agents && db.agents[a].status.Held() && db.agents[a].lease.Some?
    requires env.now < db.agents[a].lease.value.expires
    ensures Inv(Mid(db, env)) && a in Mid(db, env).agents && Mid(db, env).agents[a] == db.agents[a]
  {
    MidFacts(db, env);
    assert a !in ExpiredAgents(db.agents, env.now);
  }

  lemma BodyKeepsClaim(db: Db, env: Env, req: Request, a: Id)
    requires Inv(db) && Possible(db, env, req) && Reconciles(req)
    requires a in db.agents && db.agents[a].status.Held() && db.agents[a].lease.Some?
    requires !EndsClaim(db, env, req, a)
    ensures SameClaim(db, ApplyAll(db, Body(db, env, req).Log()), a)
  {
    BodyLegal(db, env, req);
    BodyEnds(db, env, req, a);
    ChangesKeepClaim(db, Body(db, env, req).Log(), a);
  }

  lemma MailKeepsClaim(db: Db, env: Env, req: Request, a: Id)
    requires Inv(db) && Possible(db, env, req) && !Reconciles(req)
    requires a in db.agents && db.agents[a].status.Held() && db.agents[a].lease.Some?
    ensures SameClaim(db, Serve(db, env, req), a)
  {
    MailLegal(db, env, req);
    MailEndsNothing(db, env, req, a);
    ChangesKeepClaim(db, Transaction(db, env, req).Log(), a);
  }

  lemma MailEndsNothing(db: Db, env: Env, req: Request, a: Id)
    requires !Reconciles(req)
    ensures var log := Transaction(db, env, req).Log(); forall i | 0 <= i < |log| :: !Ends(log[i], a)
  {
  }

  lemma ReconcilingKeepsClaim(db: Db, env: Env, req: Request, a: Id)
    requires Inv(db) && Possible(db, env, req) && Reconciles(req)
    requires a in db.agents && db.agents[a].status.Held() && db.agents[a].lease.Some?
    requires env.now < db.agents[a].lease.value.expires && !EndsClaim(db, env, req, a)
    ensures SameClaim(db, Serve(db, env, req), a)
  {
    ReconcileKeepsClaim(db, env, a);
    MidFacts(db, env);
    SameRowEndsSame(db, Mid(db, env), env, req, a);
    BodyKeepsClaim(Mid(db, env), env, req, a);
    ServeIsBody(db, env, req);
  }

  lemma SameRowEndsSame(db: Db, db': Db, env: Env, req: Request, a: Id)
    requires a in db.agents && db.agents[a].lease.Some? && a in db'.agents && db'.agents[a] == db.agents[a]
    ensures EndsClaim(db', env, req, a) <==> EndsClaim(db, env, req, a)
  {
  }

  /** A live claim survives every request by anyone but its holder: whatever leases,
      runtime ids or clock readings before its expiry the request carries. */
  lemma OnlyHolderEndsClaim(db: Db, env: Env, req: Request, a: Id)
    requires Inv(db) && Possible(db, env, req)
    requires a in db.agents && db.agents[a].status.Held() && db.agents[a].lease.Some?
    requires env.now < db.agents[a].lease.value.expires && !EndsClaim(db, env, req, a)
    ensures SameClaim(db, Serve(db, env, req), a)
  {
    if Reconciles(req) {
      ReconcilingKeepsClaim(db, env, req, a);
    } else {
      MailKeepsClaim(db, env, req, a);
    }
  }

  /** A reconciling request either rolls back or goes on from the reconciled state. */
  lemma ServeIsBody(db: Db, env: Env, req: Request)
    requires Reconciles(req)
    ensures Transaction(db, env, req).Commit? ==>
              Serve(db, env, req) == ApplyAll(Mid(db, env), Body(Mid(db, env), env, req).Log())
    ensures Transaction(db, env, req).Rollback? ==> Serve(db, env, req) == db
  {
    ApplyConcat(db, Reconcile(db, env), Body(Mid(db, env), env, req).Log());
  }

  /** A committed log is the reconciliation followed by the operation's own changes. */
  lemma LogOf(db: Db, env: Env, req: Request)
    requires Reconciles(req)
    ensures var tx := Body(Mid(db, env), env, req);
            Transaction(db, env, req).Log() == if tx.Commit? then Reconcile(db, env) + tx.log else []
  {
  }
}

/** Every transaction commits only legal changes: its guards establish what each
    change relies on. Hence every state a history can reach is coherent. */
module Legality {
  import opened Texts
  import opened Types
  import opened Schema
  import opened Changes
  import opened Coherence
  import opened Guards
  import opened Transactions
  import opened Reconciliation

  /** Reconciliation goes first; it keeps every invariant and all the table keys. */
  lemma MidFacts(db: Db, env: Env)
    requires Inv(db) && IsScan(env.scan, db.agents)
    ensures LegalAll(db, Reconcile(db, env))
    ensures Inv(Mid(db, env)) && IsScan(env.scan, Mid(db, env).agents)
    ensures Released(db, Mid(db, env), ExpiredAgents(db.agents, env.now), Explain(LeaseExpired), env.now)
    ensures ExpiredAgents(Mid(db, env).agents, env.now) == {}
    ensures Releases(Reconcile(db, env), ExpiredRows(env.scan, db.agents, env.now), env.mail)
  {
    ReconcileIsExact(db, env.scan, env.now, env.now, Explain(LeaseExpired), env.mail);
    ChangesKeepInv(db, Reconcile(db, env));
    assert forall a :: a in Mid(db, env).agents <==> a in db.agents;
  }

  lemma OneLegal(db: Db, c: Change)
    requires Legal(db, c)
    ensures LegalAll(db, [c]) && ApplyAll(db, [c]) == Apply(db, c)
  {
    assert [c][..0] == [];
  }

  lemma MaybeOneLegal(db: Db, c: Change)
    ensures Legal(db, c) ==> LegalAll(db, [c])
  {
    if Legal(db, c) { OneLegal(db, c); }
  }

  /** A valid claim's rows are the agent's row and its active run's row. */
  lemma GuardedIsActive(db: Db, key: LeaseKey, runtime: Text, now: real)
    requires ValidateActive(db, key, runtime, now).None?
    ensures Has(db, key.agent) && db.agents[key.agent].activeRun == key.run
    ensures db.agents[key.agent].status.Active() && db.runs[key.run].status.Active()
  {
  }

  lemma CreateLegal(db: Db, env: Env, req: Request)
    requires Inv(db) && Possible(db, env, req) && req.Create?
    ensures LegalAll(db, Body(db, env, req).Log())
  {
    MaybeOneLegal(db, Spawn(req.a, req.r, req.name, req.owner, req.mode, req.cwd, req.task,
                            LeaseCells(env.runtime, req.token, env.now + LEASE_SECONDS), env.now));
  }

  lemma ClaimLegal(db: Db, env: Env, req: Request)
    requires Inv(db) && Possible(db, env, req) && req.Claim?
    ensures LegalAll(db, Body(db, env, req).Log())
  {
    MaybeOneLegal(db, Reclaim(req.a, req.r, req.task, LeaseCells(env.runtime, req.token, env.now + LEASE_SECONDS), env.now));
  }

  lemma CancelLegal(db: Db, env: Env, req: Request)
    requires Inv(db) && req.Cancel?
    ensures LegalAll(db, Body(db, env, req).Log())
  {
    MaybeOneLegal(db, BeginCancel(req.a, env.now + LEASE_SECONDS, env.now));
    MaybeOneLegal(db, CancelInactive(req.a, env.now));
  }

  lemma AbortLegal(db: Db, env: Env, req: Request)
    requires Inv(db) && req.Abort?
    ensures LegalAll(db, Body(db, env, req).Log())
  {
    if ValidateActive(db, req.key, env.runtime, env.now).None? {
      GuardedIsActive(db, req.key, env.runtime, env.now);
      MaybeOneLegal(db, Remove(req.key.agent));
    }
  }

  lemma AttachLegal(db: Db, env: Env, key: LeaseKey, conversation: Text, canceling: bool)
    requires Inv(db)
    ensures LegalAll(db, AttachTx(db, env, key, conversation, canceling).Log())
  {
    MaybeOneLegal(db, Attach(key.agent, conversation, env.now));
  }

  lemma MarkRunningLegal(db: Db, env: Env, key: LeaseKey, conversation: Text)
    requires Inv(db)
    ensures LegalAll(db, MarkRunningTx(db, env, key, conversation).Log())
  {
    MaybeOneLegal(db, Start(key.agent, conversation, env.now, env.mail));
  }

  lemma WorkerBodyLegal(db: Db, env: Env, req: Request)
    requires Inv(db) && Reconciles(req)
    requires req.AttachConversation? || req.AttachCanceling? || req.MarkRunning? || req.Finish?
    ensures LegalAll(db, Body(db, env, req).Log())
  {
    match req
    case AttachConversation(key, conversation) => AttachLegal(db, env, key, conversation, false);
    case AttachCanceling(key, conversation) => AttachLegal(db, env, key, conversation, true);
    case MarkRunning(key, conversation) => MarkRunningLegal(db, env, key, conversation);
    case Finish(key, status, update) => TerminalLegal(db, env, key, status, update);
  }

  lemma JoinLegal(db: Db, env: Env, conversation: Text, allowRoot: bool)
    ensures LegalAll(db, JoinTx(db, env, conversation, allowRoot).Log())
  {
    var tx := JoinTx(db, env, conversation, allowRoot);
    if tx.Commit? {
      OneLegal(db, tx.log[0]);
    }
  }

  lemma RowBodyLegal(db: Db, env: Env, req: Request)
    requires Inv(db) && Reconciles(req)
    requires !(req.Create? || req.Claim? || req.Cancel? || req.Abort? || req.InterruptRuntime?)
    requires !(req.AttachConversation? || req.AttachCanceling? || req.MarkRunning? || req.Finish?)
    ensures LegalAll(db, Body(db, env, req).Log())
  {
    match req
    case Heartbeat(key) => MaybeOneLegal(db, Renew(key.agent, env.now + LEASE_SECONDS, env.now));
    case HeartbeatCanceling(key) => MaybeOneLegal(db, Renew(key.agent, env.now + LEASE_SECONDS, env.now));
    case CompleteCancel(key) => MaybeOneLegal(db, FinishCancel(key.agent, env.now, env.mail));
    case EnqueueSteering(owner, a, message) => MaybeOneLegal(db, Enqueue(a, message, env.now));
    case AcknowledgeSteering(key, id) => MaybeOneLegal(db, Dequeue(id));
    case JoinMailbox(conversation, allowRoot) => JoinLegal(db, env, conversation, allowRoot);
    case _ =>
  }

  lemma TerminalLegal(db: Db, env: Env, key: LeaseKey, status: TerminalStatus, update: TerminalUpdate)
    requires Inv(db)
    ensures LegalAll(db, TerminalTx(db, env, key, status, update).Log())
  {
    var tx := TerminalTx(db, env, key, status, update);
    if tx.Commit? && tx.log != [] {
      OneLegal(db, tx.log[0]);
    }
  }

  lemma InterruptLegal(db: Db, env: Env, message: Text)
    requires Inv(db) && IsScan(env.scan, db.agents)
    ensures var rows := RuntimeRows(env.scan, db.agents, env.runtime);
            && LegalAll(db, ReleaseAll(db, rows, message, env.now, env.mail))
            && Releases(ReleaseAll(db, rows, message, env.now, env.mail), rows, env.mail)
            && Released(db, ApplyAll(db, ReleaseAll(db, rows, message, env.now, env.mail)), Ids(rows), message, env.now)
            && forall a :: a in rows <==> a in db.agents && HeldUnder(db.agents[a], env.runtime)
  {
    RuntimeRowsAre(env.scan, db.agents, env.runtime);
    ReleaseAllEffect(db, RuntimeRows(env.scan, db.agents, env.runtime), message, env.now, env.mail);
  }

  lemma BodyLegal(db: Db, env: Env, req: Request)
    requires Inv(db) && Possible(db, env, req) && Reconciles(req)
    ensures LegalAll(db, Body(db, env, req).Log())
  {
    if req.Create? {
      CreateLegal(db, env, req);
    } else if req.Claim? {
      ClaimLegal(db, env, req);
    } else if req.Cancel? {
      CancelLegal(db, env, req);
    } else if req.Abort? {
      AbortLegal(db, env, req);
    } else if req.InterruptRuntime? {
      InterruptLegal(db, env, req.message);
    } else if req.AttachConversation? || req.AttachCanceling? || req.MarkRunning? || req.Finish? {
      WorkerBodyLegal(db, env, req);
    } else {
      RowBodyLegal(db, env, req);
    }
  }

  lemma MailLegal(db: Db, env: Env, req: Request)
    requires Inv(db) && Possible(db, env, req) && !Reconciles(req)
    ensures LegalAll(db, Transaction(db, env, req).Log())
  {
    match req
    case SendMail(who, to, subject, body) => SendLegal(db, env, who, to, subject, body);
    case ReadMails(who, ids) => OneLegal(db, MarkRead(IdSet(ids), env.now));
    case AckTerminalMail(owner, a, r) => OneLegal(db, AckTerminalTx(db, env, owner, a, r).log[0]);
  }

  lemma SendLegal(db: Db, env: Env, who: Identity, to: Party, subject: Text, body: Text)
    ensures LegalAll(db, SendTx(db, env, who, to, subject, body).Log())
  {
    var tx := SendTx(db, env, who, to, subject, body);
    if tx.Commit? {
      OneLegal(db, tx.log[0]);
    }
  }

  lemma ReconcilingLegal(db: Db, env: Env, req: Request)
    requires Inv(db) && Possible(db, env, req) && Reconciles(req)
    ensures LegalAll(db, Transaction(db, env, req).Log())
  {
    var mid := Mid(db, env);
    MidFacts(db, env);
    assert Possible(mid, env, req);
    BodyLegal(mid, env, req);
    ThenLegal(db, env, req);
  }

  lemma ThenLegal(db: Db, env: Env, req: Request)
    requires Reconciles(req) && LegalAll(db, Reconcile(db, env)) && LegalAll(Mid(db, env), Body(Mid(db, env), env, req).Log())
    ensures LegalAll(db, Transaction(db, env, req).Log())
  {
    ApplyConcat(db, Reconcile(db, env), Body(Mid(db, env), env, req).Log());
  }

  /** Whatever a request commits is legal where it commits it. */
  lemma TransactionLegal(db: Db, env: Env, req: Request)
    requires Inv(db) && Possible(db, env, req)
    ensures LegalAll(db, Transaction(db, env, req).Log())
  {
    if Reconciles(req) {
      ReconcilingLegal(db, env, req);
    } else {
      MailLegal(db, env, req);
    }
  }

  lemma ServeKeepsInv(db: Db, env: Env, req: Request)
    requires Inv(db) && Possible(db, env, req)
    ensures Inv(Serve(db, env, req))
  {
    TransactionLegal(db, env, req);
    ChangesKeepInv(db, Transaction(db, env, req).Log());
  }

  // --- histories -------------------------------------------------------------

  datatype Event = Event(env: Env, req: Request)

  /** The state after a history of requests by any stores, under any clocks. */
  ghost function After(db: Db, history: seq<Event>): Db {
    if history == [] then db
    else
      var last := history[|history| - 1];
      Serve(After(db, history[..|history| - 1]), last.env, last.req)
  }

  ghost predicate Allowed(db: Db, history: seq<Event>) {
    history != [] ==>
      var last := history[|history| - 1];
      Allowed(db, history[..|history| - 1]) && Possible(After(db, history[..|history| - 1]), last.env, last.req)
  }

  lemma {:induction false} AfterKeepsInv(db: Db, history: seq<Event>)
    requires Inv(db) && Allowed(db, history)
    ensures Inv(After(db, history))
  {
    if history != [] {
      var last := history[|history| - 1];
      AfterKeepsInv(db, history[..|history| - 1]);
      ServeKeepsInv(After(db, history[..|history| - 1]), last.env, last.req);
    }
  }

  /** Every database state reachable from the empty one is coherent. */
  lemma ReachableIsCoherent(history: seq<Event>)
    requires Allowed(EmptyDb, history)
    ensures Inv(After(EmptyDb, history))
  {
    EmptyIsCoherent();
    AfterKeepsInv(EmptyDb, history);
  }
}

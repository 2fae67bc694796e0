/** The joined notice: published at an agent's first start ever, and never again. */
module JoinedNotices {
  import opened Texts
  import opened Types
  import opened Notices
  import opened Schema
  import opened Changes
  import opened Coherence
  import opened Transactions
  import opened Reconciliation
  import opened Legality
  import opened Evolution
  import opened Fencing
  import opened Notifications

  predicate Starts(c: Change, a: Id) { c.Start? && c.a == a }

  lemma NotStartedIsUnpublished(db: Db, a: Id)
    requires Inv(db) && !HasStarted(db, a)
    ensures Unpublished(db, Joined(a))
  {
    if Joined(a) in db.events {
      EventFact(db, Joined(a));
    }
    NoEventNoMail(db, Joined(a));
  }

  lemma OthersDoNotStart(db: Db, c: Change, a: Id)
    requires Inv(db) && Legal(db, c) && !Starts(c, a) && !HasStarted(db, a)
    ensures !HasStarted(Apply(db, c), a)
  {
    RowsAfter(db, c);
    var now := StartedRuns(NewRuns(db, c), a);
    if HasStarted(Apply(db, c), a) {
      var r :| r in now;
      StartedBefore(db, c, a, r);
    }
  }

  /** Unless it is the change that starts it, a run found started was started before. */
  lemma StartedBefore(db: Db, c: Change, a: Id, r: Id)
    requires Inv(db) && Legal(db, c) && !Starts(c, a) && r in StartedRuns(NewRuns(db, c), a)
    ensures HasStarted(db, a)
  {
    if InPlace(c) {
      AgentFact(db.agents, db.runs, c.a);
    }
    assert r in db.runs && db.runs[r].agent == a && db.runs[r].startedAt.Some?;
    RunFact(db.agents, db.runs, r);
    assert r in StartedRuns(db.runs, a);
  }

  lemma StartIsFirst(db: Db, c: Change)
    requires Inv(db) && Legal(db, c) && c.Start? && !HasStarted(db, c.a)
    ensures StartedRuns(NewRuns(db, c), c.a) == {db.agents[c.a].activeRun}
    ensures db.runs[db.agents[c.a].activeRun].startedAt.None?
  {
    var r := db.agents[c.a].activeRun;
    AgentFact(db.agents, db.runs, c.a);
    assert StartedRuns(db.runs, c.a) == {};
    assert r !in StartedRuns(db.runs, c.a);
    forall s | s in StartedRuns(NewRuns(db, c), c.a)
      ensures s == r
    {
      assert s !in StartedRuns(db.runs, c.a);
    }
  }

  lemma StartAnnounces(db: Db, c: Change)
    requires Inv(db) && Legal(db, c) && c.Start? && !HasStarted(db, c.a)
    ensures HasStarted(Apply(db, c), c.a)
    ensures if c.mail && db.agents[c.a].owner in db.rooms
            then Published(Apply(db, c), Joined(c.a), db.agents, db.agents[c.a].owner, c.a)
            else Unpublished(Apply(db, c), Joined(c.a))
  {
    var a, r := c.a, db.agents[c.a].activeRun;
    var written := Written(db, c);
    NotStartedIsUnpublished(db, a);
    StartIsFirst(db, c);
    RowsAfter(db, c);
    AgentFact(db.agents, db.runs, a);
    assert r in StartedRuns(NewRuns(db, c), a);
    assert Unpublished(written, Joined(a));
    if c.mail && db.agents[a].owner in db.rooms {
      PublishReaches(written, Joined(a), a, r, c.at);
      InboxFrame(db, written, db.agents[a].owner, a);
    }
  }

  /** What became of an agent that had not started: announced exactly when its first
      start is committed by a store with mail enabled in a room that exists. */
  ghost predicate JoinAccounted(db: Db, db': Db, a: Id, mail: bool)
    requires a in db.agents
  {
    if HasStarted(db', a) && mail && db.agents[a].owner in db.rooms
    then Published(db', Joined(a), db.agents, db.agents[a].owner, a)
    else Unpublished(db', Joined(a))
  }

  lemma {:induction false} NoStart(db: Db, cs: seq<Change>, a: Id)
    requires Inv(db) && LegalAll(db, cs) && !HasStarted(db, a)
    requires forall i | 0 <= i < |cs| :: !Starts(cs[i], a)
    ensures !HasStarted(ApplyAll(db, cs), a)
  {
    if cs != [] {
      NoStart(db, cs[..|cs| - 1], a);
      ChangesKeepInv(db, cs[..|cs| - 1]);
      OthersDoNotStart(ApplyAll(db, cs[..|cs| - 1]), cs[|cs| - 1], a);
    }
  }

  lemma LogJoin(db: Db, cs: seq<Change>, a: Id, mail: bool)
    requires Inv(db) && LegalAll(db, cs) && a in db.agents && !HasStarted(db, a)
    requires (forall i | 0 <= i < |cs| :: !Starts(cs[i], a)) || (|cs| == 1 && cs[0].Start? && cs[0].mail == mail)
    ensures JoinAccounted(db, ApplyAll(db, cs), a, mail)
  {
    if forall i | 0 <= i < |cs| :: !Starts(cs[i], a) {
      NoStart(db, cs, a);
      ChangesKeepInv(db, cs);
      NotStartedIsUnpublished(ApplyAll(db, cs), a);
    } else {
      assert cs[..0] == [];
      StartAnnounces(db, cs[0]);
    }
  }

  lemma BodyStarts(db: Db, env: Env, req: Request)
    requires Reconciles(req) && !req.InterruptRuntime?
    ensures var log := Body(db, env, req).Log();
            log != [] && log[0].Start? ==> log[0].mail == env.mail
  {
  }

  lemma BodyJoin(db: Db, env: Env, req: Request, a: Id)
    requires Inv(db) && Possible(db, env, req) && Reconciles(req) && a in db.agents && !HasStarted(db, a)
    ensures JoinAccounted(db, ApplyAll(db, Body(db, env, req).Log()), a, env.mail)
  {
    if req.InterruptRuntime? {
      InterruptJoin(db, env, req.message, a);
    } else {
      BodyLegal(db, env, req);
      WorkerLogIsShort(db, env, req);
      BodyStarts(db, env, req);
      LogJoin(db, Body(db, env, req).Log(), a, env.mail);
    }
  }

  lemma InterruptJoin(db: Db, env: Env, message: Text, a: Id)
    requires Inv(db) && IsScan(env.scan, db.agents) && a in db.agents && !HasStarted(db, a)
    ensures JoinAccounted(db, ApplyAll(db, Body(db, env, InterruptRuntime(message)).Log()), a, env.mail)
  {
    var log := Body(db, env, InterruptRuntime(message)).Log();
    InterruptReleases(db, env, message);
    ReleasesJoin(db, log, RuntimeRows(env.scan, db.agents, env.runtime), a, env.mail);
  }

  lemma ReleasesJoin(db: Db, log: seq<Change>, rows: seq<Id>, a: Id, mail: bool)
    requires Inv(db) && LegalAll(db, log) && Releases(log, rows, mail) && a in db.agents && !HasStarted(db, a)
    ensures JoinAccounted(db, ApplyAll(db, log), a, mail)
  {
    LogJoin(db, log, a, mail);
  }

  lemma ReconcileDoesNotStart(db: Db, env: Env, a: Id)
    requires Inv(db) && IsScan(env.scan, db.agents) && !HasStarted(db, a)
    ensures Inv(Mid(db, env)) && !HasStarted(Mid(db, env), a)
    ensures Mid(db, env).agents.Keys == db.agents.Keys
    ensures forall b | b in db.agents :: Mid(db, env).agents[b].owner == db.agents[b].owner
    ensures forall o :: o in Mid(db, env).rooms <==> o in db.rooms
  {
    MidFacts(db, env);
    NoStart(db, Reconcile(db, env), a);
  }

  lemma ReconcilingJoin(db: Db, env: Env, req: Request, a: Id)
    requires Inv(db) && Possible(db, env, req) && Reconciles(req) && a in db.agents && !HasStarted(db, a)
    ensures JoinAccounted(db, ApplyAll(Mid(db, env), Body(Mid(db, env), env, req).Log()), a, env.mail)
  {
    ReconcileDoesNotStart(db, env, a);
    MidPossible(db, env, req);
    BodyJoin(Mid(db, env), env, req, a);
    InboxFrame(db, Mid(db, env), db.agents[a].owner, a);
  }

  lemma MailJoin(db: Db, env: Env, req: Request, a: Id)
    requires Inv(db) && Possible(db, env, req) && !Reconciles(req)
    requires a in db.agents && !HasStarted(db, a)
    ensures JoinAccounted(db, Serve(db, env, req), a, env.mail)
  {
    MailLegal(db, env, req);
    MailDoesNotStart(db, env, req, a);
    LogJoin(db, Transaction(db, env, req).Log(), a, env.mail);
  }

  lemma MailDoesNotStart(db: Db, env: Env, req: Request, a: Id)
    requires !Reconciles(req)
    ensures var log := Transaction(db, env, req).Log(); forall i | 0 <= i < |log| :: !Starts(log[i], a)
  {
  }

  /** One request on an agent that has not started yet; failed startups leave it so. */
  lemma JoinedNoticeOnce(db: Db, env: Env, req: Request, a: Id)
    requires Inv(db) && Possible(db, env, req) && a in db.agents && !HasStarted(db, a)
    ensures JoinAccounted(db, Serve(db, env, req), a, env.mail)
  {
    if Reconciles(req) {
      ReconcilingJoin(db, env, req, a);
      ServeIsBody(db, env, req);
      NotStartedIsUnpublished(db, a);
    } else {
      MailJoin(db, env, req, a);
    }
  }

  /** Once an agent has started, its joined notice is settled for good: neither marking
      a run again nor a follow-up announces it once more. */
  lemma JoinedNoticeIsFinal(db: Db, history: seq<Event>, a: Id)
    requires Inv(db) && Allowed(db, history) && HasStarted(db, a)
    ensures HasStarted(After(db, history), a)
    ensures Joined(a) in After(db, history).events <==> Joined(a) in db.events
    ensures forall p :: Addressed(After(db, history).mails, Joined(a), p) <==> Addressed(db.mails, Joined(a), p)
  {
    HistoryEvolves(db, history);
    LaterSame(db, After(db, history), Joined(a));
  }
}

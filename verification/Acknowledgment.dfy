/** WaitAgent's acknowledgement: the guard it applies is exactly what makes the
    acknowledgement final. */
module Acknowledgment {
  import opened Texts
  import opened Types
  import opened Order
  import opened Schema
  import opened Changes
  import opened Coherence
  import opened Transactions
  import opened Reconciliation
  import opened Legality
  import opened Evolution
  import opened Notifications

  /** The snapshot a wait returns is acknowledged unless the run is still going or its
      cancellation is still being cleaned up. */
  predicate MayAcknowledge(view: View) {
    !view.run.status.Active()
    && !(view.agent.status.Canceling? && view.run.generation == view.agent.generation)
  }

  /** The guard tells exactly the runs whose claims have been released. */
  lemma GuardMeansOver(db: Db, r: Id)
    requires Inv(db) && r in db.runs && db.runs[r].agent in db.agents
    ensures MayAcknowledge(View(db.runs[r].agent, db.agents[db.runs[r].agent], r, db.runs[r])) <==> Over(db, r)
  {
    var a := db.runs[r].agent;
    RunFact(db.agents, db.runs, r);
    AgentFact(db.agents, db.runs, a);
    if db.runs[r].generation == db.agents[a].generation {
      assert SameGeneration(db.runs, r, db.agents[a].activeRun);
    }
  }

  predicate MainNotice(m: MailRow, r: Id) { m.event == Some(Terminal(r)) && m.recipient == Main }

  ghost predicate AllRead(db: Db, r: Id) {
    forall i | 0 <= i < |db.mails| && MainNotice(db.mails[i], r) :: db.mails[i].readAt.Some?
  }

  /** The notice of a run names the owner, agent and run the acknowledgement asks for. */
  lemma NoticeMatches(db: Db, r: Id, i: nat)
    requires Inv(db) && r in db.runs && i < |db.mails| && MainNotice(db.mails[i], r) && db.mails[i].readAt.None?
    ensures db.runs[r].agent in db.agents
    ensures TerminalNoticeFor(db.mails[i], db.agents[db.runs[r].agent].owner, db.runs[r].agent, r)
  {
    assert MailOk(db.mails[i], db.events, db.rooms, db.runs);
    EventFact(db, Terminal(r));
  }

  lemma AcknowledgeReads(db: Db, env: Env, r: Id)
    requires Inv(db) && r in db.runs && db.runs[r].agent in db.agents
    ensures AllRead(Serve(db, env, AckTerminalMail(db.agents[db.runs[r].agent].owner, db.runs[r].agent, r)), r)
  {
    var a := db.runs[r].agent;
    var owner := db.agents[a].owner;
    var tx := AckTerminalTx(db, env, owner, a, r);
    OneLegal(db, tx.log[0]);
    var db' := ApplyAll(db, tx.log);
    forall i | 0 <= i < |db'.mails| && MainNotice(db'.mails[i], r)
      ensures db'.mails[i].readAt.Some?
    {
      if db.mails[i].readAt.None? {
        NoticeMatches(db, r, i);
        assert db.mails[i].id in tx.log[0].ids;
      }
    }
  }

  lemma ReadForGood(db: Db, db': Db, r: Id)
    requires AllRead(db, r) && Evolves(db, db') && Over(db, r)
    ensures AllRead(db', r)
  {
    forall i | 0 <= i < |db'.mails| && MainNotice(db'.mails[i], r)
      ensures db'.mails[i].readAt.Some?
    {
      if i < |db.mails| {
        assert SameMail(db.mails[i], db'.mails[i]);
      }
    }
  }

  /** A wait reads its snapshot in db, other requests intervene, the acknowledgement
      commits, and any requests follow: main has no unread terminal notice for that run. */
  lemma AcknowledgedForGood(db: Db, before: seq<Event>, env: Env, after: seq<Event>, view: View)
    requires Inv(db) && view.runId in db.runs && view.run == db.runs[view.runId]
    requires view.id == view.run.agent && view.id in db.agents && view.agent == db.agents[view.id]
    requires MayAcknowledge(view) && Allowed(db, before)
    requires var req := AckTerminalMail(view.agent.owner, view.id, view.runId);
             Possible(After(db, before), env, req) && Allowed(Serve(After(db, before), env, req), after)
    ensures var req := AckTerminalMail(view.agent.owner, view.id, view.runId);
            AllRead(After(Serve(After(db, before), env, req), after), view.runId)
  {
    var r, req := view.runId, AckTerminalMail(view.agent.owner, view.id, view.runId);
    GuardMeansOver(db, r);
    AfterKeepsInv(db, before);
    HistoryEvolves(db, before);
    var db1 := After(db, before);
    OwnerKept(db, db1, r);
    AcknowledgeReads(db1, env, r);
    var db2 := Serve(db1, env, req);
    ServeKeepsInv(db1, env, req);
    TransactionLegal(db1, env, req);
    ChangesEvolve(db1, Transaction(db1, env, req).Log());
    HistoryEvolves(db2, after);
    ReadForGood(db2, After(db2, after), r);
  }

  lemma OwnerKept(db: Db, db': Db, r: Id)
    requires Inv(db) && Inv(db') && Evolves(db, db') && Over(db, r)
    ensures r in db'.runs && db'.runs[r].agent == db.runs[r].agent && db.runs[r].agent in db'.agents
    ensures db.runs[r].agent in db.agents
    ensures db'.agents[db.runs[r].agent].owner == db.agents[db.runs[r].agent].owner
  {
    var a := db.runs[r].agent;
    RunFact(db.agents, db.runs, r);
    AgentFact(db.agents, db.runs, a);
    if db.runs[r].generation == db.agents[a].generation {
      assert SameGeneration(db.runs, r, db.agents[a].activeRun);
    }
    assert Permanent(db.agents[a]);
  }

  // --- why the guard is needed -----------------------------------------------

  lemma {:induction false} ReleasesAddUnread(db: Db, cs: seq<Change>)
    requires forall i | 0 <= i < |cs| :: IsRelease(cs[i])
    ensures |db.mails| <= |ApplyAll(db, cs).mails|
    ensures ApplyAll(db, cs).mails[..|db.mails|] == db.mails
    ensures forall i | |db.mails| <= i < |ApplyAll(db, cs).mails| :: ApplyAll(db, cs).mails[i].readAt.None?
  {
    if cs != [] {
      ReleasesAddUnread(db, cs[..|cs| - 1]);
      ReleaseAddsUnread(ApplyAll(db, cs[..|cs| - 1]), cs[|cs| - 1]);
    }
  }

  lemma ReleaseAddsUnread(db: Db, c: Change)
    requires IsRelease(c)
    ensures |db.mails| <= |Apply(db, c).mails| && Apply(db, c).mails[..|db.mails|] == db.mails
    ensures forall i | |db.mails| <= i < |Apply(db, c).mails| :: Apply(db, c).mails[i].readAt.None?
  {
  }

  lemma ScanExists(agents: map<Id, AgentRow>)
    ensures IsScan(Sorted(agents.Keys), agents)
  {
  }

  /** Without the guard the acknowledgement is lost: from every state in which the run
      still holds its claim, acknowledging and then letting the lease expire leaves main
      with an unread notice. */
  lemma EarlyAcknowledgementIsLost(db: Db, r: Id, env: Env) returns (expiry: Env)
    requires Inv(db) && HeldRun(db.agents, db.runs, r) && db.agents[db.runs[r].agent].owner in db.rooms
    requires IsScan(env.scan, db.agents)
    ensures var a := db.runs[r].agent;
            var req := AckTerminalMail(db.agents[a].owner, a, r);
            var db1 := Serve(db, env, req);
            && Possible(db, env, req) && Possible(db1, expiry, ReconcileExpired)
            && !AllRead(Serve(db1, expiry, ReconcileExpired), r)
  {
    var a := db.runs[r].agent;
    var req := AckTerminalMail(db.agents[a].owner, a, r);
    var db1 := Serve(db, env, req);
    AcknowledgeKeepsRows(db, env, req);
    ServeKeepsInv(db, env, req);
    HeldHasLease(db, r);
    ScanExists(db1.agents);
    expiry := Env(db.agents[a].lease.value.runtime, true, db.agents[a].lease.value.expires, Sorted(db1.agents.Keys));
    ExpiryPublishes(db1, expiry, r);
  }

  lemma AcknowledgeKeepsRows(db: Db, env: Env, req: Request)
    requires req.AckTerminalMail?
    ensures Serve(db, env, req).agents == db.agents && Serve(db, env, req).runs == db.runs
    ensures Serve(db, env, req).rooms == db.rooms
  {
    OneLegal(db, AckTerminalTx(db, env, req.owner, req.a, req.r).log[0]);
  }

  /** Serving nothing but the reconciliation. */
  lemma ExpiryIsMid(db: Db, env: Env)
    ensures Serve(db, env, ReconcileExpired) == Mid(db, env)
  {
    assert Reconcile(db, env) + [] == Reconcile(db, env);
  }

  lemma ExpiryEnds(db: Db, env: Env, r: Id)
    requires Inv(db) && HeldRun(db.agents, db.runs, r)
    requires IsScan(env.scan, db.agents) && Expired(db.agents[db.runs[r].agent], env.now)
    ensures Over(Mid(db, env), r)
  {
    MidFacts(db, env);
    assert db.runs[r].agent in ExpiredAgents(db.agents, env.now);
    ReleasedIsOver(db, Mid(db, env), ExpiredAgents(db.agents, env.now), r, Explain(LeaseExpired), env.now);
  }

  lemma ReleasedIsOver(db: Db, db': Db, ended: set<Id>, r: Id, message: Text, at: real)
    requires Released(db, db', ended, message, at) && HeldRun(db.agents, db.runs, r) && db.runs[r].agent in ended
    ensures Over(db', r)
  {
  }

  lemma UnreadCopy(db: Db, env: Env, r: Id)
    requires Inv(db) && HeldRun(db.agents, db.runs, r) && IsScan(env.scan, db.agents)
    requires Addressed(Mid(db, env).mails, Terminal(r), Main)
    ensures !AllRead(Mid(db, env), r)
  {
    var db' := Mid(db, env);
    MidFacts(db, env);
    HeldIsUnpublished(db, r);
    ReleasesAddUnread(db, Reconcile(db, env));
    var i :| 0 <= i < |db'.mails| && db'.mails[i].event == Some(Terminal(r)) && db'.mails[i].recipient == Main;
    if i < |db.mails| {
      assert db'.mails[i] == db'.mails[..|db.mails|][i] == db.mails[i];
      NoCopy(db.mails, Terminal(r), i);
    }
    assert MainNotice(db'.mails[i], r);
  }

  lemma ExpiryPublishes(db: Db, env: Env, r: Id)
    requires Inv(db) && HeldRun(db.agents, db.runs, r) && db.agents[db.runs[r].agent].owner in db.rooms
    requires IsScan(env.scan, db.agents) && env.mail && Expired(db.agents[db.runs[r].agent], env.now)
    ensures !AllRead(Serve(db, env, ReconcileExpired), r)
  {
    ExpiryIsMid(db, env);
    ExpiryEnds(db, env, r);
    TerminalNoticeOnce(db, env, ReconcileExpired, r);
    assert Addressed(Mid(db, env).mails, Terminal(r), Main);
    UnreadCopy(db, env, r);
  }
}

/** Every mail ever stored can be read: a sent mail is checked against the read budget,
    and a lifecycle mail always fits it. */
module Budgets {
  import opened Texts
  import opened Types
  import opened Notices
  import opened Schema
  import opened Changes
  import opened Coherence
  import opened Transactions
  import opened Legality
  import opened Fencing
  import opened Notifications
  import Lifecycle

  ghost predicate Readable(mails: seq<MailRow>) {
    forall i {:trigger WithinBudget(mails[i])} | 0 <= i < |mails| :: WithinBudget(mails[i])
  }

  lemma AppendReadable(mails: seq<MailRow>, more: seq<MailRow>)
    requires Readable(mails) && Readable(more)
    ensures Readable(mails + more)
  {
    forall i | 0 <= i < |mails + more|
      ensures WithinBudget((mails + more)[i])
    {
      if i < |mails| {
        assert WithinBudget(mails[i]);
      } else {
        assert WithinBudget(more[i - |mails|]);
      }
    }
  }

  lemma SameBudget(m: MailRow, n: MailRow)
    requires n.sender == m.sender && n.recipient == m.recipient && n.content == m.content
    requires n.agent == m.agent && n.run == m.run
    ensures WithinBudget(n) <==> WithinBudget(m)
  {
    assert RawParts(n) == RawParts(m);
    assert PartsOf(n) == PartsOf(m);
  }

  lemma PostedIsReadable(m: MailRow, id: nat)
    requires WithinBudget(m)
    ensures Readable([m.(id := id)])
  {
    SameBudget(m, m.(id := id));
  }

  lemma ReadKeepsBudget(mails: seq<MailRow>, ids: set<nat>, at: real)
    requires Readable(mails)
    ensures Readable(ReadAll(mails, ids, at))
  {
    var mails' := ReadAll(mails, ids, at);
    forall i | 0 <= i < |mails'|
      ensures WithinBudget(mails'[i])
    {
      SameBudget(mails[i], mails'[i]);
    }
  }

  lemma RecipientSize(agents: map<Id, AgentRow>, runs: map<Id, RunRow>, owner: Text, a: Id, i: nat)
    requires Rows(agents, runs) && i < |Recipients(agents, owner, a)|
    ensures |PartyText(Recipients(agents, owner, a)[i])| <= ID_BYTES
  {
    InPeers(agents, owner, a, i);
    if i > 0 {
      var b := Recipients(agents, owner, a)[i].id;
      assert AgentOk(b, agents[b], runs);
    }
  }

  lemma CopiesReadable(agents: map<Id, AgentRow>, runs: map<Id, RunRow>, key: EventKey, a: Id, r: Id, at: real, first: nat)
    requires Rows(agents, runs) && a in agents && r in runs
    ensures Readable(Copies(key, a, agents[a], r, runs[r], at, first, Recipients(agents, agents[a].owner, a)))
  {
    var to := Recipients(agents, agents[a].owner, a);
    var copies := Copies(key, a, agents[a], r, runs[r], at, first, to);
    AgentFact(agents, runs, a);
    RunFact(agents, runs, r);
    forall i | 0 <= i < |copies|
      ensures WithinBudget(copies[i])
    {
      RecipientSize(agents, runs, agents[a].owner, a, i);
      Lifecycle.NoticeWithinBudget(copies[i]);
    }
  }

  lemma PublishReadable(db: Db, key: EventKey, a: Id, r: Id, at: real)
    requires Rows(db.agents, db.runs) && Readable(db.mails)
    ensures Readable(PublishEvent(db, key, a, r, at).mails)
  {
    if a in db.agents && r in db.runs && db.agents[a].owner in db.rooms && key !in db.events {
      PublishedTables(db, key, a, r, at);
      NewCopiesReadable(db, key, a, r, at);
    }
  }

  lemma NewCopiesReadable(db: Db, key: EventKey, a: Id, r: Id, at: real)
    requires Rows(db.agents, db.runs) && Readable(db.mails) && a in db.agents && r in db.runs
    ensures Readable(db.mails + Copies(key, a, db.agents[a], r, db.runs[r], at, db.mailSeq + 1,
                                       Recipients(db.agents, db.agents[a].owner, a)))
  {
    var to := Recipients(db.agents, db.agents[a].owner, a);
    CopiesReadable(db.agents, db.runs, key, a, r, at, db.mailSeq + 1);
    AppendReadable(db.mails, Copies(key, a, db.agents[a], r, db.runs[r], at, db.mailSeq + 1, to));
  }

  /** What a transaction has checked of a mail it posts. */
  predicate Affordable(c: Change) { c.Post? ==> WithinBudget(c.m) }

  ghost predicate AllAffordable(log: seq<Change>) { forall i | 0 <= i < |log| :: Affordable(log[i]) }

  lemma AnnounceReadable(db: Db, c: Change)
    requires Inv(db) && Legal(db, c) && Readable(db.mails)
    ensures Readable(Announce(Written(db, c), db, c).mails)
  {
    WrittenKeeps(db, c);
    if c.Start? {
      PublishReadable(Written(db, c), Joined(c.a), c.a, db.agents[c.a].activeRun, c.at);
    } else if c.End? || c.FinishCancel? {
      PublishReadable(Written(db, c), Terminal(db.agents[c.a].activeRun), c.a, db.agents[c.a].activeRun, c.at);
    }
  }

  lemma ChangeKeepsReadable(db: Db, c: Change)
    requires Inv(db) && Legal(db, c) && Affordable(c) && Readable(db.mails)
    ensures Readable(Apply(db, c).mails)
  {
    if c.OpenRoom? {
    } else if c.Post? {
      PostedIsReadable(c.m, db.mailSeq + 1);
      AppendReadable(db.mails, [c.m.(id := db.mailSeq + 1)]);
    } else if c.MarkRead? {
      ReadKeepsBudget(db.mails, c.ids, c.at);
    } else {
      AnnounceReadable(db, c);
    }
  }

  lemma {:induction false} ChangesKeepReadable(db: Db, cs: seq<Change>)
    requires Inv(db) && LegalAll(db, cs) && AllAffordable(cs) && Readable(db.mails)
    ensures Readable(ApplyAll(db, cs).mails)
  {
    if cs != [] {
      var first := cs[..|cs| - 1];
      ChangesKeepReadable(db, first);
      ChangesKeepInv(db, first);
      ChangeKeepsReadable(ApplyAll(db, first), cs[|cs| - 1]);
    }
  }

  // --- every request ---------------------------------------------------------

  ghost predicate PostsNothing(log: seq<Change>) { forall i | 0 <= i < |log| :: !log[i].Post? }

  lemma PostsNothingIsAffordable(log: seq<Change>)
    ensures PostsNothing(log) ==> AllAffordable(log)
  {
  }

  lemma BodyPostsNothing(db: Db, env: Env, req: Request)
    requires Inv(db) && IsScan(env.scan, db.agents) && Reconciles(req)
    ensures PostsNothing(Body(db, env, req).Log())
  {
    if req.InterruptRuntime? {
      InterruptPostsNothing(db, env, req.message);
    } else {
      WorkerPostsNothing(db, env, req);
    }
  }

  lemma InterruptPostsNothing(db: Db, env: Env, message: Text)
    requires Inv(db) && IsScan(env.scan, db.agents)
    ensures PostsNothing(Body(db, env, InterruptRuntime(message)).Log())
  {
    InterruptReleases(db, env, message);
  }

  lemma WorkerPostsNothing(db: Db, env: Env, req: Request)
    requires Reconciles(req) && !req.InterruptRuntime?
    ensures PostsNothing(Body(db, env, req).Log())
  {
    WorkerLogIsShort(db, env, req);
  }

  lemma ReconcileReadable(db: Db, env: Env)
    requires Inv(db) && IsScan(env.scan, db.agents) && Readable(db.mails)
    ensures AllAffordable(Reconcile(db, env)) && Inv(Mid(db, env)) && Readable(Mid(db, env).mails)
  {
    MidFacts(db, env);
    assert PostsNothing(Reconcile(db, env));
    PostsNothingIsAffordable(Reconcile(db, env));
    ChangesKeepReadable(db, Reconcile(db, env));
  }

  lemma ReconcilingReadable(db: Db, env: Env, req: Request)
    requires Inv(db) && Possible(db, env, req) && Reconciles(req) && Readable(db.mails)
    ensures Readable(Serve(db, env, req).mails)
  {
    MidPossible(db, env, req);
    ReconcileReadable(db, env);
    BodyReadable(Mid(db, env), env, req);
    ServeIsBody(db, env, req);
  }

  lemma BodyReadable(db: Db, env: Env, req: Request)
    requires Inv(db) && Possible(db, env, req) && Reconciles(req) && Readable(db.mails)
    ensures Readable(ApplyAll(db, Body(db, env, req).Log()).mails)
  {
    BodyLegal(db, env, req);
    BodyPostsNothing(db, env, req);
    PostsNothingIsAffordable(Body(db, env, req).Log());
    ChangesKeepReadable(db, Body(db, env, req).Log());
  }

  lemma MailAffordable(db: Db, env: Env, req: Request)
    requires !Reconciles(req)
    ensures AllAffordable(Transaction(db, env, req).Log())
  {
  }

  lemma ServeKeepsReadable(db: Db, env: Env, req: Request)
    requires Inv(db) && Possible(db, env, req) && Readable(db.mails)
    ensures Readable(Serve(db, env, req).mails)
  {
    if Reconciles(req) {
      ReconcilingReadable(db, env, req);
    } else {
      MailReadable(db, env, req);
    }
  }

  lemma MailReadable(db: Db, env: Env, req: Request)
    requires Inv(db) && Possible(db, env, req) && !Reconciles(req) && Readable(db.mails)
    ensures Readable(Serve(db, env, req).mails)
  {
    MailLegal(db, env, req);
    MailAffordable(db, env, req);
    ChangesKeepReadable(db, Transaction(db, env, req).Log());
  }

  /** Every mail of every reachable database fits the read budget. */
  lemma {:induction false} HistoryIsReadable(db: Db, history: seq<Event>)
    requires Inv(db) && Allowed(db, history) && Readable(db.mails)
    ensures Readable(After(db, history).mails)
  {
    if history != [] {
      var first, last := history[..|history| - 1], history[|history| - 1];
      HistoryIsReadable(db, first);
      AfterKeepsInv(db, first);
      ServeKeepsReadable(After(db, first), last.env, last.req);
    }
  }

  lemma ReachableIsReadable(history: seq<Event>)
    requires Allowed(EmptyDb, history)
    ensures Readable(After(EmptyDb, history).mails)
  {
    EmptyIsCoherent();
    HistoryIsReadable(EmptyDb, history);
  }
}

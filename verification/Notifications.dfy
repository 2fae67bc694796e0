/** Lifecycle notices: published exactly once, to the right inboxes, and acknowledged
    for good. */
module Notifications {
  import opened Texts
  import opened Types
  import opened Order
  import opened Notices
  import opened Schema
  import opened Changes
  import opened Coherence
  import opened Transactions
  import opened Reconciliation
  import opened Legality
  import opened Evolution
  import opened Fencing

  // --- exactly once ----------------------------------------------------------

  /** A copy of the event's notice is in the inbox of p. */
  ghost predicate Addressed(mails: seq<MailRow>, key: EventKey, p: Party) {
    exists i :: 0 <= i < |mails| && mails[i].event == Some(key) && mails[i].recipient == p
  }

  /** The inboxes of a room, without one agent's own. */
  predicate Inbox(agents: map<Id, AgentRow>, owner: Text, a: Id, p: Party) {
    p == Main || (p.Worker? && p.id in agents && agents[p.id].owner == owner && p.id != a)
  }

  /** The event has been published to exactly these inboxes. By the uniqueness of
      (event, recipient) each of them holds one copy. */
  ghost predicate Published(db: Db, key: EventKey, agents: map<Id, AgentRow>, owner: Text, a: Id) {
    key in db.events && forall p :: Addressed(db.mails, key, p) <==> Inbox(agents, owner, a, p)
  }

  ghost predicate Unpublished(db: Db, key: EventKey) {
    key !in db.events && forall p :: !Addressed(db.mails, key, p)
  }

  lemma NoEventNoMail(db: Db, key: EventKey)
    requires Inv(db) && key !in db.events
    ensures Unpublished(db, key)
  {
    forall p
      ensures !Addressed(db.mails, key, p)
    {
      forall i | 0 <= i < |db.mails|
        ensures db.mails[i].event != Some(key)
      {
        NewKey(db, key, i);
      }
    }
  }

  lemma RecipientsAre(agents: map<Id, AgentRow>, owner: Text, a: Id, p: Party)
    ensures p in Recipients(agents, owner, a) <==> Inbox(agents, owner, a, p)
  {
    WorkersAre(Sorted(Peers(agents, owner, a)), p);
  }

  lemma WorkersAre(ids: seq<Id>, p: Party)
    ensures p in [Main] + Workers(ids) <==> p == Main || (p.Worker? && p.id in ids)
  {
    if p.Worker? && p.id in ids {
      var i :| 0 <= i < |ids| && ids[i] == p.id;
      assert Workers(ids)[i] == p;
    }
  }

  /** Publishing in a room that exists reaches exactly the room's other inboxes. */
  lemma PublishReaches(db: Db, key: EventKey, a: Id, r: Id, at: real)
    requires Unpublished(db, key) && a in db.agents && r in db.runs && db.agents[a].owner in db.rooms
    ensures Published(PublishEvent(db, key, a, r, at), key, db.agents, db.agents[a].owner, a)
  {
    var owner := db.agents[a].owner;
    PublishedTables(db, key, a, r, at);
    forall p
      ensures Addressed(PublishEvent(db, key, a, r, at).mails, key, p) <==> Inbox(db.agents, owner, a, p)
    {
      CopiesReach(db.mails, db.agents, key, a, r, db.runs[r], at, db.mailSeq + 1, p);
    }
  }

  lemma CopiesReach(mails: seq<MailRow>, agents: map<Id, AgentRow>, key: EventKey, a: Id, r: Id, run: RunRow, at: real,
                    first: nat, p: Party)
    requires a in agents && !Addressed(mails, key, p)
    ensures var to := Recipients(agents, agents[a].owner, a);
            Addressed(mails + Copies(key, a, agents[a], r, run, at, first, to), key, p) <==> Inbox(agents, agents[a].owner, a, p)
  {
    var to := Recipients(agents, agents[a].owner, a);
    RecipientsAre(agents, agents[a].owner, a, p);
    AddressedAfter(mails, Copies(key, a, agents[a], r, run, at, first, to), to, key, p);
  }

  /** Appending one copy for each recipient addresses exactly them. */
  lemma AddressedAfter(mails: seq<MailRow>, copies: seq<MailRow>, to: seq<Party>, key: EventKey, p: Party)
    requires |copies| == |to| && !Addressed(mails, key, p)
    requires forall i | 0 <= i < |to| :: copies[i].event == Some(key) && copies[i].recipient == to[i]
    ensures Addressed(mails + copies, key, p) <==> p in to
  {
    if p in to {
      var i :| 0 <= i < |to| && to[i] == p;
      assert (mails + copies)[|mails| + i] == copies[i];
    }
    if Addressed(mails + copies, key, p) {
      var i :| 0 <= i < |mails + copies| && (mails + copies)[i].event == Some(key) && (mails + copies)[i].recipient == p;
      if i >= |mails| {
        assert to[i - |mails|] == p;
      }
    }
  }

  lemma NoCopy(mails: seq<MailRow>, key: EventKey, i: nat)
    requires i < |mails| && !Addressed(mails, key, mails[i].recipient)
    ensures mails[i].event != Some(key)
  {
  }

  lemma PublishNothing(db: Db, key: EventKey, other: EventKey, a: Id, r: Id, at: real)
    requires Unpublished(db, key) && other != key
    ensures Unpublished(PublishEvent(db, other, a, r, at), key)
  {
    var db' := PublishEvent(db, other, a, r, at);
    forall i | 0 <= i < |db'.mails|
      ensures db'.mails[i].event != Some(key)
    {
      if i < |db.mails| {
        NoCopy(db.mails, key, i);
      }
    }
  }

  /** What is already published, or can no longer be, stays as it is. */
  lemma LaterSame(db: Db, db': Db, key: EventKey)
    requires Evolves(db, db') && !NotBefore(db, key)
    ensures key in db'.events <==> key in db.events
    ensures forall p :: Addressed(db'.mails, key, p) <==> Addressed(db.mails, key, p)
  {
    assert key in db'.events && key !in db.events ==> NotBefore(db, key);
    forall p
      ensures Addressed(db'.mails, key, p) <==> Addressed(db.mails, key, p)
    {
      if Addressed(db.mails, key, p) {
        var i :| 0 <= i < |db.mails| && db.mails[i].event == Some(key) && db.mails[i].recipient == p;
        assert SameMail(db.mails[i], db'.mails[i]);
      }
      if Addressed(db'.mails, key, p) {
        var i :| 0 <= i < |db'.mails| && db'.mails[i].event == Some(key) && db'.mails[i].recipient == p;
        if i < |db.mails| {
          assert SameMail(db.mails[i], db'.mails[i]);
        }
      }
    }
  }

  lemma EventFact(db: Db, key: EventKey)
    requires Events(db) && key in db.events
    ensures EventOk(key, db.events[key], db.agents, db.runs, db.rooms)
  {
    assert EventOk(key, db.events[key], db.agents, db.runs, db.rooms);
  }

  /** The conflict branch of a terminal event is unreachable: a run that still holds
      its claim has no terminal event yet. */
  lemma HeldIsUnpublished(db: Db, r: Id)
    requires Inv(db) && HeldRun(db.agents, db.runs, r)
    ensures Unpublished(db, Terminal(r))
  {
    if Terminal(r) in db.events {
      EventFact(db, Terminal(r));
    }
    NoEventNoMail(db, Terminal(r));
  }

  /** Whether the end of run r was announced as it should have been. */
  ghost predicate Announced(db: Db, db': Db, r: Id, mail: bool)
    requires r in db.runs && db.runs[r].agent in db.agents
  {
    var a := db.runs[r].agent;
    var owner := db.agents[a].owner;
    if mail && owner in db.rooms then Published(db', Terminal(r), db.agents, owner, a) else Unpublished(db', Terminal(r))
  }

  predicate IsRelease(c: Change) { c.End? || c.FinishCancel? }

  /** Releases keep the set of agents, so a notice reaches the inboxes there at the start. */
  ghost predicate SameRoom(db: Db, db': Db) {
    && db'.agents.Keys == db.agents.Keys && db'.runs.Keys == db.runs.Keys
    && (forall o :: o in db'.rooms <==> o in db.rooms)
    && (forall b | b in db.agents :: db'.agents[b].owner == db.agents[b].owner)
    && forall r | r in db.runs :: db'.runs[r].agent == db.runs[r].agent
  }

  lemma ReleaseKeepsRoom(db: Db, c: Change)
    requires Inv(db) && Legal(db, c) && IsRelease(c)
    ensures SameRoom(db, Apply(db, c))
  {
    RowsAfter(db, c);
    RoomsAfter(db, c);
    AgentFact(db.agents, db.runs, c.a);
    NewRows(db, c);
  }

  /** One release announces its own run and no other. */
  lemma ReleaseAnnounces(db: Db, c: Change, r: Id)
    requires Inv(db) && Legal(db, c) && IsRelease(c) && HeldRun(db.agents, db.runs, r)
    ensures var db' := Apply(db, c);
            if Over(db', r) then Announced(db, db', r, c.mail) else HeldRun(db'.agents, db'.runs, r)
  {
    HeldIsUnpublished(db, r);
    AgentFact(db.agents, db.runs, c.a);
    RowsAfter(db, c);
    ReleaseKeepsRoom(db, c);
    var s := db.agents[c.a].activeRun;
    var written := Written(db, c);
    assert Unpublished(written, Terminal(r));
    if s == r {
      if c.mail && db.agents[c.a].owner in db.rooms {
        PublishReaches(written, Terminal(r), c.a, r, c.at);
        InboxFrame(db, written, db.agents[c.a].owner, c.a);
      }
    } else {
      PublishNothing(written, Terminal(r), Terminal(s), c.a, s, c.at);
    }
  }

  lemma InboxFrame(db: Db, db': Db, owner: Text, a: Id)
    requires db'.agents.Keys == db.agents.Keys
    requires forall b | b in db.agents :: db'.agents[b].owner == db.agents[b].owner
    ensures forall p :: Inbox(db'.agents, owner, a, p) <==> Inbox(db.agents, owner, a, p)
  {
  }

  lemma {:induction false} ReleasesAnnounce(db: Db, cs: seq<Change>, r: Id, mail: bool)
    requires Inv(db) && LegalAll(db, cs) && HeldRun(db.agents, db.runs, r)
    requires forall i | 0 <= i < |cs| :: IsRelease(cs[i]) && cs[i].mail == mail
    ensures var db' := ApplyAll(db, cs);
            && SameRoom(db, db')
            && if Over(db', r) then Announced(db, db', r, mail) else HeldRun(db'.agents, db'.runs, r)
  {
    if cs != [] {
      var first, c := cs[..|cs| - 1], cs[|cs| - 1];
      var mid := ApplyAll(db, first);
      ReleasesAnnounce(db, first, r, mail);
      ChangesKeepInv(db, first);
      ReleaseKeepsRoom(mid, c);
      if Over(mid, r) {
        ChangeEvolves(mid, c);
        LaterSame(mid, Apply(mid, c), Terminal(r));
      } else {
        ReleaseAnnounces(mid, c, r);
        InboxFrame(db, mid, db.agents[db.runs[r].agent].owner, db.runs[r].agent);
      }
    }
  }

  // --- one request -----------------------------------------------------------

  /** The outcome of anything done from db for a run that held its claim there. */
  ghost predicate Accounted(db: Db, db': Db, r: Id, mail: bool)
    requires HeldRun(db.agents, db.runs, r)
  {
    r in db'.runs ==> if Over(db', r) then Announced(db, db', r, mail) else HeldRun(db'.agents, db'.runs, r)
  }

  lemma HeldHasLease(db: Db, r: Id)
    requires Inv(db) && HeldRun(db.agents, db.runs, r)
    ensures db.agents[db.runs[r].agent].lease.Some?
  {
    AgentFact(db.agents, db.runs, db.runs[r].agent);
  }

  /** Any change but a release leaves a held run held, or deletes it unstarted. */
  lemma OtherKeepsHeld(db: Db, c: Change, r: Id)
    requires Inv(db) && Legal(db, c) && !IsRelease(c) && HeldRun(db.agents, db.runs, r)
    ensures r in Apply(db, c).runs ==> HeldRun(Apply(db, c).agents, Apply(db, c).runs, r)
  {
    HeldHasLease(db, r);
    RowsAfter(db, c);
    var a := db.runs[r].agent;
    if !Ends(c, a) {
      ChangeKeepsClaim(db, c, a);
      ChangeKeepsInv(db, c);
      AgentFact(Apply(db, c).agents, Apply(db, c).runs, a);
    }
  }

  lemma ShortLogAccounted(db: Db, log: seq<Change>, r: Id, mail: bool)
    requires Inv(db) && LegalAll(db, log) && |log| <= 1 && HeldRun(db.agents, db.runs, r)
    requires log != [] && IsRelease(log[0]) ==> log[0].mail == mail
    ensures Accounted(db, ApplyAll(db, log), r, mail)
  {
    if log != [] {
      assert log[..0] == [];
      if IsRelease(log[0]) {
        ReleasesAnnounce(db, log, r, mail);
      } else {
        OtherKeepsHeld(db, log[0], r);
      }
    }
  }

  lemma BodyMail(db: Db, env: Env, req: Request)
    requires Reconciles(req) && !req.InterruptRuntime?
    ensures var log := Body(db, env, req).Log();
            log != [] && IsRelease(log[0]) ==> log[0].mail == env.mail
  {
  }

  lemma BodyAccounted(db: Db, env: Env, req: Request, r: Id)
    requires Inv(db) && Possible(db, env, req) && Reconciles(req) && HeldRun(db.agents, db.runs, r)
    ensures Accounted(db, ApplyAll(db, Body(db, env, req).Log()), r, env.mail)
  {
    if req.InterruptRuntime? {
      InterruptAccounted(db, env, req.message, r);
    } else {
      WorkerAccounted(db, env, req, r);
    }
  }

  lemma InterruptAccounted(db: Db, env: Env, message: Text, r: Id)
    requires Inv(db) && IsScan(env.scan, db.agents) && HeldRun(db.agents, db.runs, r)
    ensures Accounted(db, ApplyAll(db, Body(db, env, InterruptRuntime(message)).Log()), r, env.mail)
  {
    InterruptReleases(db, env, message);
    ReleasesAccounted(db, Body(db, env, InterruptRuntime(message)).Log(), RuntimeRows(env.scan, db.agents, env.runtime), r, env.mail);
  }

  lemma ReleasesAccounted(db: Db, log: seq<Change>, rows: seq<Id>, r: Id, mail: bool)
    requires Inv(db) && LegalAll(db, log) && Releases(log, rows, mail) && HeldRun(db.agents, db.runs, r)
    ensures Accounted(db, ApplyAll(db, log), r, mail)
  {
    ReleasesAnnounce(db, log, r, mail);
  }

  /** A worker's log: at most one change, announced as the store is set up to. */
  ghost predicate WorkerLog(db: Db, log: seq<Change>, mail: bool) {
    LegalAll(db, log) && |log| <= 1 && (log != [] && IsRelease(log[0]) ==> log[0].mail == mail)
  }

  lemma WorkerLogIs(db: Db, env: Env, req: Request)
    requires Inv(db) && Possible(db, env, req) && Reconciles(req) && !req.InterruptRuntime?
    ensures WorkerLog(db, Body(db, env, req).Log(), env.mail)
  {
    BodyLegal(db, env, req);
    WorkerLogIsShort(db, env, req);
    BodyMail(db, env, req);
  }

  lemma WorkerAccounted(db: Db, env: Env, req: Request, r: Id)
    requires Inv(db) && Possible(db, env, req) && Reconciles(req) && !req.InterruptRuntime? && HeldRun(db.agents, db.runs, r)
    ensures Accounted(db, ApplyAll(db, Body(db, env, req).Log()), r, env.mail)
  {
    WorkerLogIs(db, env, req);
    ShortLogAccounted(db, Body(db, env, req).Log(), r, env.mail);
  }

  lemma ReconcileAccounted(db: Db, env: Env, r: Id)
    requires Inv(db) && IsScan(env.scan, db.agents) && HeldRun(db.agents, db.runs, r)
    ensures Inv(Mid(db, env)) && SameRoom(db, Mid(db, env))
    ensures if Over(Mid(db, env), r) then Announced(db, Mid(db, env), r, env.mail)
            else HeldRun(Mid(db, env).agents, Mid(db, env).runs, r)
  {
    MidFacts(db, env);
    ReleasesAnnounce(db, Reconcile(db, env), r, env.mail);
  }

  /** Announcements made from the reconciled state are those made from the state before. */
  lemma AnnouncedFromMid(db: Db, mid: Db, db': Db, r: Id, mail: bool)
    requires SameRoom(db, mid) && r in db.runs && db.runs[r].agent in db.agents && Announced(mid, db', r, mail)
    ensures Announced(db, db', r, mail)
  {
    InboxFrame(db, mid, db.agents[db.runs[r].agent].owner, db.runs[r].agent);
  }

  lemma AfterMidAccounted(db: Db, mid: Db, log: seq<Change>, r: Id, mail: bool)
    requires HeldRun(db.agents, db.runs, r) && Inv(mid) && LegalAll(mid, log) && SameRoom(db, mid)
    requires if Over(mid, r) then Announced(db, mid, r, mail) else HeldRun(mid.agents, mid.runs, r)
    requires HeldRun(mid.agents, mid.runs, r) ==> Accounted(mid, ApplyAll(mid, log), r, mail)
    ensures Accounted(db, ApplyAll(mid, log), r, mail)
  {
    var db' := ApplyAll(mid, log);
    if Over(mid, r) {
      ChangesEvolve(mid, log);
      LaterSame(mid, db', Terminal(r));
    } else if Over(db', r) {
      AnnouncedFromMid(db, mid, db', r, mail);
    }
  }

  lemma ReconcilingAccounted(db: Db, env: Env, req: Request, r: Id)
    requires Inv(db) && Possible(db, env, req) && Reconciles(req) && HeldRun(db.agents, db.runs, r)
    ensures Accounted(db, ApplyAll(Mid(db, env), Body(Mid(db, env), env, req).Log()), r, env.mail)
  {
    var mid := Mid(db, env);
    ReconcileAccounted(db, env, r);
    MidPossible(db, env, req);
    BodyLegal(mid, env, req);
    if HeldRun(mid.agents, mid.runs, r) {
      BodyAccounted(mid, env, req, r);
    }
    AfterMidAccounted(db, mid, Body(mid, env, req).Log(), r, env.mail);
  }

  lemma MidPossible(db: Db, env: Env, req: Request)
    requires Inv(db) && Possible(db, env, req)
    ensures Inv(Mid(db, env)) && Possible(Mid(db, env), env, req)
  {
    MidFacts(db, env);
  }

  lemma MailAccounted(db: Db, env: Env, req: Request, r: Id)
    requires Inv(db) && Possible(db, env, req) && !Reconciles(req) && HeldRun(db.agents, db.runs, r)
    ensures Accounted(db, Serve(db, env, req), r, env.mail)
  {
    MailLegal(db, env, req);
    MailLogIsShort(db, env, req);
    ShortLogAccounted(db, Transaction(db, env, req).Log(), r, env.mail);
  }

  lemma MailLogIsShort(db: Db, env: Env, req: Request)
    requires !Reconciles(req)
    ensures var log := Transaction(db, env, req).Log(); |log| <= 1 && (log != [] ==> !IsRelease(log[0]))
  {
  }

  /** Terminal notices are exactly-once: when a request ends a run that held its claim,
      the same transaction publishes one event with one copy for main and for each other
      agent of the room, if mail is enabled and the room exists, and nothing otherwise. */
  lemma TerminalNoticeOnce(db: Db, env: Env, req: Request, r: Id)
    requires Inv(db) && Possible(db, env, req) && HeldRun(db.agents, db.runs, r)
    ensures Accounted(db, Serve(db, env, req), r, env.mail)
  {
    if Reconciles(req) {
      ReconcilingAccounted(db, env, req, r);
      ServeIsBody(db, env, req);
    } else {
      MailAccounted(db, env, req, r);
    }
  }

  /** Afterwards the event and its inboxes are settled: no later request adds a copy. */
  lemma TerminalNoticeIsFinal(db: Db, history: seq<Event>, r: Id)
    requires Inv(db) && Allowed(db, history) && Over(db, r)
    ensures Over(After(db, history), r)
    ensures Terminal(r) in After(db, history).events <==> Terminal(r) in db.events
    ensures forall p :: Addressed(After(db, history).mails, Terminal(r), p) <==> Addressed(db.mails, Terminal(r), p)
  {
    HistoryEvolves(db, history);
    LaterSame(db, After(db, history), Terminal(r));
  }
}

/** What a notice says of an agent and its run is true, and stays true: the run it reports
    as over is over with this very status, task and error in every later state. */
module NoticeTruth {
  import opened Types
  import opened Notices
  import opened Schema
  import opened Changes
  import opened Coherence
  import opened Transactions
  import opened Legality
  import opened Evolution
  import opened Notifications

  /** The notice says what the rows say. */
  predicate True(m: MailRow, agents: map<Id, AgentRow>, runs: map<Id, RunRow>) {
    m.event.Some? ==>
      && m.agent in agents && m.run in runs && runs[m.run].agent == m.agent && m.owner == agents[m.agent].owner
      && match m.event.value
         case Joined(a) => a == m.agent && m.content == JoinedNotice(agents[a].name, runs[m.run].task)
         case Terminal(r) =>
           && r == m.run && !runs[r].status.Active()
           && m.content == TerminalNotice(agents[m.agent].name, runs[r].status, runs[r].task, runs[r].error)
  }

  ghost predicate AllTrue(mails: seq<MailRow>, agents: map<Id, AgentRow>, runs: map<Id, RunRow>) {
    forall i {:trigger True(mails[i], agents, runs)} | 0 <= i < |mails| :: True(mails[i], agents, runs)
  }

  // --- notices that are there ------------------------------------------------

  /** No change renames an agent or gives a run to another, and a removed agent takes its
      runs with it. */
  lemma NamesStay(db: Db, c: Change)
    requires Legal(db, c)
    ensures var agents, runs := NewAgents(db, c), NewRuns(db, c);
            && (forall a | a in db.agents && a in agents ::
                  agents[a].name == db.agents[a].name && agents[a].owner == db.agents[a].owner)
            && (forall r | r in db.runs && r in runs ::
                  runs[r].agent == db.runs[r].agent && runs[r].task == db.runs[r].task)
            && (forall r | r in db.runs && db.runs[r].agent in agents :: r in runs)
  {
  }

  lemma StaysTrue(db: Db, c: Change, i: nat)
    requires Inv(db) && Legal(db, c) && Inv(Apply(db, c)) && Evolves(db, Apply(db, c)) && i < |db.mails|
    requires True(db.mails[i], db.agents, db.runs)
    ensures True(db.mails[i], Apply(db, c).agents, Apply(db, c).runs)
  {
    var m, db' := db.mails[i], Apply(db, c);
    NamesStay(db, c);
    RowsAfter(db, c);
    if m.event.Some? {
      assert MailOk(m, db.events, db.rooms, db.runs);
      EventFact(db, m.event.value);
      match m.event.value
      case Joined(a) =>
        assert HasStarted(db, a);
        assert HasStarted(db', a);
      case Terminal(r) =>
        assert Over(db, r);
        assert Over(db', r);
        RunFact(db'.agents, db'.runs, r);
    }
  }

  lemma ReadStaysTrue(m: MailRow, m': MailRow, agents: map<Id, AgentRow>, runs: map<Id, RunRow>)
    requires SameMail(m, m') && True(m, agents, runs)
    ensures True(m', agents, runs)
  {
  }

  // --- notices that are added ------------------------------------------------

  lemma CopiesAreTrue(db: Db, key: EventKey, a: Id, r: Id, at: real, i: nat)
    requires a in db.agents && r in db.runs && db.runs[r].agent == a
    requires key == Joined(a) || (key == Terminal(r) && !db.runs[r].status.Active())
    requires |db.mails| <= i < |PublishEvent(db, key, a, r, at).mails|
    ensures True(PublishEvent(db, key, a, r, at).mails[i], db.agents, db.runs)
  {
    PublishedTables(db, key, a, r, at);
  }

  lemma AnnouncesTruth(db: Db, c: Change, i: nat)
    requires Inv(db) && Legal(db, c) && |db.mails| <= i < |Announce(Written(db, c), db, c).mails|
    ensures True(Announce(Written(db, c), db, c).mails[i], NewAgents(db, c), NewRuns(db, c))
  {
    var db' := Written(db, c);
    if c.Start? || c.End? || c.FinishCancel? {
      var a, r := c.a, db.agents[c.a].activeRun;
      AgentFact(db.agents, db.runs, a);
      if c.Start? {
        if |StartedRuns(db'.runs, a)| == 1 {
          CopiesAreTrue(db', Joined(a), a, r, c.at, i);
        }
      } else {
        CopiesAreTrue(db', Terminal(r), a, r, c.at, i);
      }
    }
  }

  lemma AddsTruth(db: Db, c: Change, i: nat)
    requires Inv(db) && Legal(db, c) && |db.mails| <= i < |Apply(db, c).mails|
    ensures True(Apply(db, c).mails[i], Apply(db, c).agents, Apply(db, c).runs)
  {
    RowsAfter(db, c);
    if !c.OpenRoom? && !c.Post? && !c.MarkRead? {
      AnnouncesTruth(db, c, i);
    }
  }

  lemma ChangeKeepsTruth(db: Db, c: Change)
    requires Inv(db) && Legal(db, c) && AllTrue(db.mails, db.agents, db.runs)
    ensures AllTrue(Apply(db, c).mails, Apply(db, c).agents, Apply(db, c).runs)
  {
    var db' := Apply(db, c);
    ChangeKeepsInv(db, c);
    ChangeEvolves(db, c);
    forall i | 0 <= i < |db'.mails|
      ensures True(db'.mails[i], db'.agents, db'.runs)
    {
      if i < |db.mails| {
        assert True(db.mails[i], db.agents, db.runs);
        StaysTrue(db, c, i);
        assert SameMail(db.mails[i], db'.mails[i]);
        ReadStaysTrue(db.mails[i], db'.mails[i], db'.agents, db'.runs);
      } else {
        AddsTruth(db, c, i);
      }
    }
  }

  lemma {:induction false} ChangesKeepTruth(db: Db, cs: seq<Change>)
    requires Inv(db) && LegalAll(db, cs) && AllTrue(db.mails, db.agents, db.runs)
    ensures AllTrue(ApplyAll(db, cs).mails, ApplyAll(db, cs).agents, ApplyAll(db, cs).runs)
  {
    if cs != [] {
      var first := cs[..|cs| - 1];
      ChangesKeepTruth(db, first);
      ChangesKeepInv(db, first);
      ChangeKeepsTruth(ApplyAll(db, first), cs[|cs| - 1]);
    }
  }

  lemma {:induction false} HistoryIsTrue(db: Db, history: seq<Event>)
    requires Inv(db) && Allowed(db, history) && AllTrue(db.mails, db.agents, db.runs)
    ensures AllTrue(After(db, history).mails, After(db, history).agents, After(db, history).runs)
  {
    if history != [] {
      var first, last := history[..|history| - 1], history[|history| - 1];
      HistoryIsTrue(db, first);
      AfterKeepsInv(db, first);
      TransactionLegal(After(db, first), last.env, last.req);
      ChangesKeepTruth(After(db, first), Transaction(After(db, first), last.env, last.req).Log());
    }
  }

  /** In every reachable database, each notice tells its agent's name and its run's task,
      and each terminal notice how that run ended. */
  lemma ReachableNoticesAreTrue(history: seq<Event>)
    requires Allowed(EmptyDb, history)
    ensures var db := After(EmptyDb, history); AllTrue(db.mails, db.agents, db.runs)
  {
    EmptyIsCoherent();
    HistoryIsTrue(EmptyDb, history);
  }
}

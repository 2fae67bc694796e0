/** What never changes again: a relation between a state and every later one. */
module Evolution {
  import opened Texts
  import opened Types
  import opened Notices
  import opened Schema
  import opened Changes
  import opened Coherence
  import opened Transactions
  import opened Legality

  /** Once a run is over, its row never changes. */
  ghost predicate Frozen(runs: map<Id, RunRow>, runs': map<Id, RunRow>) {
    forall r {:trigger runs'[r]} {:trigger r in runs'} | r in runs && !runs[r].status.Active() :: r in runs' && runs'[r] == runs[r]
  }

  /** An agent that has got past its first reservation cannot be removed any more. */
  predicate Permanent(row: AgentRow) {
    !(row.status.Starting? && row.generation == 1 && row.child.None?)
  }

  ghost predicate Settled(agents: map<Id, AgentRow>, agents': map<Id, AgentRow>) {
    forall a {:trigger agents'[a]} {:trigger a in agents'} | a in agents && Permanent(agents[a]) ::
      && a in agents' && Permanent(agents'[a])
      && agents'[a].owner == agents[a].owner && agents'[a].name == agents[a].name
      && agents'[a].generation >= agents[a].generation
      && (agents[a].child.Some? ==> agents'[a].child == agents[a].child)
  }

  /** A run whose claim has been released. */
  ghost predicate Over(db: Db, r: Id) { r in db.runs && !HeldRun(db.agents, db.runs, r) }

  ghost predicate HasStarted(db: Db, a: Id) { a in db.agents && StartedRuns(db.runs, a) != {} }

  ghost predicate Irreversible(db: Db, db': Db) {
    && (forall r | Over(db, r) :: Over(db', r))
    && (forall a | HasStarted(db, a) :: HasStarted(db', a))
  }

  predicate SameMail(m: MailRow, m': MailRow) {
    m' == m || (m.readAt.None? && m' == m.(readAt := m'.readAt))
  }

  /** Mails are only added at the end, and only their first read time is set. */
  ghost predicate Kept(mails: seq<MailRow>, mails': seq<MailRow>) {
    |mails| <= |mails'| && forall i {:trigger mails'[i]} | 0 <= i < |mails| :: SameMail(mails[i], mails'[i])
  }

  /** What an event reports on had not happened before it was published. */
  ghost predicate NotBefore(db: Db, key: EventKey) {
    match key
    case Terminal(r) => !Over(db, r)
    case Joined(a) => !HasStarted(db, a)
  }

  /** No event or notice is added about a run that is already over, or about an agent
      that has already started. */
  ghost predicate Timely(db: Db, db': Db) {
    && (forall key {:trigger NotBefore(db, key)} {:trigger key in db'.events} | key in db'.events && key !in db.events :: NotBefore(db, key))
    && forall i {:trigger db'.mails[i]} | |db.mails| <= i < |db'.mails| && db'.mails[i].event.Some? ::
         NotBefore(db, db'.mails[i].event.value)
  }

  ghost predicate Evolves(db: Db, db': Db) {
    && Frozen(db.runs, db'.runs)
    && Settled(db.agents, db'.agents)
    && Irreversible(db, db')
    && (forall key | key in db.events :: key in db'.events && db'.events[key] == db.events[key])
    && (forall owner | owner in db.rooms :: owner in db'.rooms)
    && Kept(db.mails, db'.mails)
    && Timely(db, db')
  }

  lemma EvolvesReflexive(db: Db)
    ensures Evolves(db, db)
  {
  }

  lemma KeptTransitive(a: seq<MailRow>, b: seq<MailRow>, c: seq<MailRow>)
    requires Kept(a, b) && Kept(b, c)
    ensures Kept(a, c)
  {
    forall i | 0 <= i < |a|
      ensures SameMail(a[i], c[i])
    {
      assert SameMail(a[i], b[i]) && SameMail(b[i], c[i]);
    }
  }

  lemma TimelyTransitive(a: Db, b: Db, c: Db)
    requires Timely(a, b) && Timely(b, c) && Irreversible(a, b) && Kept(b.mails, c.mails) && Kept(a.mails, b.mails)
    ensures Timely(a, c)
  {
    forall i | |a.mails| <= i < |c.mails| && c.mails[i].event.Some?
      ensures NotBefore(a, c.mails[i].event.value)
    {
      if i < |b.mails| {
        assert SameMail(b.mails[i], c.mails[i]);
      } else {
        assert NotBefore(b, c.mails[i].event.value);
      }
    }
    forall key | key in c.events && key !in a.events
      ensures NotBefore(a, key)
    {
      assert key !in b.events ==> NotBefore(b, key);
    }
  }

  lemma EvolvesTransitive(a: Db, b: Db, c: Db)
    requires Evolves(a, b) && Evolves(b, c)
    ensures Evolves(a, c)
  {
    KeptTransitive(a.mails, b.mails, c.mails);
    TimelyTransitive(a, b, c);
    RowsTransitive(a, b, c);
  }

  lemma RowsTransitive(a: Db, b: Db, c: Db)
    requires Frozen(a.runs, b.runs) && Frozen(b.runs, c.runs)
    requires Settled(a.agents, b.agents) && Settled(b.agents, c.agents)
    ensures Frozen(a.runs, c.runs) && Settled(a.agents, c.agents)
  {
    forall r | r in a.runs && !a.runs[r].status.Active()
      ensures r in c.runs && c.runs[r] == a.runs[r]
    {
      assert b.runs[r] == a.runs[r];
    }
    forall d | d in a.agents && Permanent(a.agents[d])
      ensures && d in c.agents && Permanent(c.agents[d])
              && c.agents[d].owner == a.agents[d].owner && c.agents[d].name == a.agents[d].name
              && c.agents[d].generation >= a.agents[d].generation
              && (a.agents[d].child.Some? ==> c.agents[d].child == a.agents[d].child)
    {
      assert b.agents[d].generation >= a.agents[d].generation;
    }
  }

  // --- every change ----------------------------------------------------------

  lemma ChangeFreezes(db: Db, c: Change)
    requires Legal(db, c) && Rows(db.agents, db.runs)
    ensures Frozen(db.runs, NewRuns(db, c))
  {
    forall r | r in db.runs && !db.runs[r].status.Active()
      ensures r in NewRuns(db, c) && NewRuns(db, c)[r] == db.runs[r]
    {
      RunFact(db.agents, db.runs, r);
      if InPlace(c) {
        AgentFact(db.agents, db.runs, c.a);
        NewRows(db, c);
      } else if c.Remove? && db.runs[r].agent == c.a {
        AgentFact(db.agents, db.runs, c.a);
        assert SameGeneration(db.runs, r, db.agents[c.a].activeRun);
      }
    }
  }

  lemma ChangeSettles(db: Db, c: Change)
    requires Legal(db, c) && Rows(db.agents, db.runs)
    ensures Settled(db.agents, NewAgents(db, c))
  {
    if InPlace(c) {
      AgentFact(db.agents, db.runs, c.a);
      NewRows(db, c);
      NotRestarted(db, c);
    } else if c.Reclaim? {
      AgentFact(db.agents, db.runs, c.a);
    }
  }

  /** Only a follow-up puts an agent back to starting. */
  lemma NotRestarted(db: Db, c: Change)
    requires InPlace(c) && Legal(db, c)
    ensures var row := NewAgentRow(db.agents[c.a], c);
            row.status.Starting? ==> db.agents[c.a].status.Starting? && (row.child.None? ==> db.agents[c.a].child.None?)
  {
  }

  lemma ChangeIsIrreversible(db: Db, c: Change)
    requires Legal(db, c) && Rows(db.agents, db.runs)
    ensures Irreversible(db, Written(db, c))
  {
    forall r | Over(db, r)
      ensures Over(Written(db, c), r)
    {
      ReleasedKept(db, c, r);
    }
    forall a | HasStarted(db, a)
      ensures HasStarted(Written(db, c), a)
    {
      StartedKept(db, c, a);
    }
  }

  lemma WrittenEvolves(db: Db, c: Change)
    requires Legal(db, c) && Rows(db.agents, db.runs)
    ensures Evolves(db, Written(db, c))
  {
    ChangeFreezes(db, c);
    ChangeSettles(db, c);
    ChangeIsIrreversible(db, c);
  }

  /** A notice is published while what it reports on is being written. */
  lemma AnnounceEvolves(db: Db, c: Change)
    requires Legal(db, c) && Inv(db)
    ensures Evolves(db, Announce(Written(db, c), db, c))
  {
    WrittenEvolves(db, c);
    if c.Start? || c.End? || c.FinishCancel? {
      var a, r := c.a, db.agents[c.a].activeRun;
      AgentFact(db.agents, db.runs, a);
      assert HeldRun(db.agents, db.runs, r);
      if c.Start? && c.mail && db.runs[r].startedAt.None? && |StartedRuns(NewRuns(db, c), a)| == 1 {
        FirstStart(db, c);
        PublishEvolves(db, Written(db, c), Joined(a), a, r, c.at);
      } else if !c.Start? {
        PublishEvolves(db, Written(db, c), Terminal(r), a, r, c.at);
      }
    }
  }

  lemma FirstStart(db: Db, c: Change)
    requires c.Start? && Legal(db, c) && Rows(db.agents, db.runs) && |StartedRuns(NewRuns(db, c), c.a)| == 1
    requires db.runs[db.agents[c.a].activeRun].startedAt.None?
    ensures !HasStarted(db, c.a)
  {
    var r := db.agents[c.a].activeRun;
    AgentFact(db.agents, db.runs, c.a);
    var before, now := StartedRuns(db.runs, c.a), StartedRuns(NewRuns(db, c), c.a);
    assert r in now && r !in before;
    if s :| s in before {
      assert s in now;
      Subset({r, s}, now);
    }
  }

  lemma PublishEvolves(db: Db, db1: Db, key: EventKey, a: Id, r: Id, at: real)
    requires Evolves(db, db1) && db1.mails == db.mails
    requires NotBefore(db, key) && db1.events == db.events
    ensures Evolves(db, PublishEvent(db1, key, a, r, at))
  {
    var db' := PublishEvent(db1, key, a, r, at);
    forall i | |db.mails| <= i < |db'.mails| && db'.mails[i].event.Some?
      ensures db'.mails[i].event == Some(key)
    {
    }
  }

  lemma ChangeEvolves(db: Db, c: Change)
    requires Legal(db, c) && Inv(db)
    ensures Evolves(db, Apply(db, c))
  {
    if c.OpenRoom? || c.Post? || c.MarkRead? {
      TablesEvolve(db, c);
    } else {
      AnnounceEvolves(db, c);
    }
  }

  lemma TablesEvolve(db: Db, c: Change)
    requires c.OpenRoom? || c.Post? || c.MarkRead?
    requires Legal(db, c)
    ensures Evolves(db, Apply(db, c))
  {
  }

  lemma {:induction false} ChangesEvolve(db: Db, cs: seq<Change>)
    requires Inv(db) && LegalAll(db, cs)
    ensures Evolves(db, ApplyAll(db, cs))
  {
    if cs == [] {
      EvolvesReflexive(db);
    } else {
      var first := cs[..|cs| - 1];
      ChangesEvolve(db, first);
      ChangesKeepInv(db, first);
      ChangeEvolves(ApplyAll(db, first), cs[|cs| - 1]);
      EvolvesTransitive(db, ApplyAll(db, first), ApplyAll(db, cs));
    }
  }

  /** Any two states of a history, the later one after the earlier one. */
  lemma {:induction false} HistoryEvolves(db: Db, history: seq<Event>)
    requires Inv(db) && Allowed(db, history)
    ensures Evolves(db, After(db, history))
  {
    if history == [] {
      EvolvesReflexive(db);
    } else {
      var first, last := history[..|history| - 1], history[|history| - 1];
      var mid := After(db, first);
      HistoryEvolves(db, first);
      AfterKeepsInv(db, first);
      TransactionLegal(mid, last.env, last.req);
      ChangesEvolve(mid, Transaction(mid, last.env, last.req).Log());
      EvolvesTransitive(db, mid, After(db, history));
    }
  }
}

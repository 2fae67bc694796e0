/** What releasing claims does: exactly the selected agents and their active runs end,
    each once, and nothing else changes. */
module Reconciliation {
  import opened Texts
  import opened Types
  import opened Schema
  import opened Changes
  import opened Coherence
  import opened Transactions

  /** The row of an agent whose claim was released. */
  function ReleasedAgent(row: AgentRow, at: real): AgentRow {
    row.(status := if row.status.Canceling? then Canceled else Interrupted, lease := None, updatedAt := at)
  }

  /** The active run of such an agent; a canceled run is already over. */
  function ReleasedRun(row: AgentRow, run: RunRow, message: Text, at: real): RunRow {
    if row.status.Canceling? then run
    else run.(status := RunInterrupted, error := Some(message), completedAt := Some(at), updatedAt := at)
  }

  /** db' is db with the claims of the given agents released and every other row as it was. */
  ghost predicate Released(db: Db, db': Db, ended: set<Id>, message: Text, at: real) {
    && db'.agents.Keys == db.agents.Keys
    && db'.runs.Keys == db.runs.Keys
    && db'.steering == db.steering
    && db'.rooms == db.rooms
    && (forall a | a in db.agents ::
          db'.agents[a] == if a in ended then ReleasedAgent(db.agents[a], at) else db.agents[a])
    && (forall r | r in db.runs ::
          var a := db.runs[r].agent;
          db'.runs[r] == if a in ended && a in db.agents && db.agents[a].activeRun == r
                         then ReleasedRun(db.agents[a], db.runs[r], message, at) else db.runs[r])
  }

  ghost function Ids(rows: seq<Id>): set<Id> { set a | a in rows }

  ghost predicate Holders(rows: seq<Id>, agents: map<Id, AgentRow>) {
    && (forall a | a in rows :: a in agents && agents[a].status.Held())
    && forall i, j | 0 <= i < j < |rows| :: rows[i] != rows[j]
  }

  lemma ReleaseOne(db: Db, db0: Db, a: Id, message: Text, at: real, mail: bool)
    requires Inv(db) && Inv(db0) && a in db.agents && db.agents[a].status.Held()
    requires a in db0.agents && db0.agents[a] == db.agents[a] && db0.agents[a].activeRun in db0.runs
    requires Has(db, a) && db0.runs[db0.agents[a].activeRun] == db.runs[db.agents[a].activeRun]
    ensures Has(db, a) && |Release(db0, a, message, at, mail)| == 1
    ensures var c := Release(db0, a, message, at, mail)[0];
            && (c.End? || c.FinishCancel?) && c.a == a && c.mail == mail
            && Legal(db, c)
            && NewAgents(db, c) == db.agents[a := ReleasedAgent(db.agents[a], at)]
            && NewRuns(db, c) == db.runs[db.agents[a].activeRun := ReleasedRun(db.agents[a], db.runs[db.agents[a].activeRun], message, at)]
  {
    AgentFact(db.agents, db.runs, a);
    forall b | b in db.agents && b != a && db.agents[a].child.Some?
      ensures db.agents[b].child != db.agents[a].child
    {
      assert SameChild(db.agents, a, b) <==> db.agents[a].child.Some? && db.agents[a].child == db.agents[b].child;
    }
  }

  /** One change per selected agent, in the order of the selection. */
  ghost predicate Releases(log: seq<Change>, rows: seq<Id>, mail: bool) {
    |log| == |rows|
    && forall i | 0 <= i < |log| :: (log[i].End? || log[i].FinishCancel?) && log[i].a == rows[i] && log[i].mail == mail
  }

  /** The effect of a list of releases, whatever order SQLite lists the agents in. */
  lemma {:induction false} ReleaseAllEffect(db: Db, rows: seq<Id>, message: Text, at: real, mail: bool)
    requires Inv(db) && Holders(rows, db.agents)
    ensures LegalAll(db, ReleaseAll(db, rows, message, at, mail))
    ensures Releases(ReleaseAll(db, rows, message, at, mail), rows, mail)
    ensures Released(db, ApplyAll(db, ReleaseAll(db, rows, message, at, mail)), Ids(rows), message, at)
  {
    if rows == [] {
    } else {
      var n := |rows| - 1;
      var log := ReleaseAll(db, rows[..n], message, at, mail);
      HoldersInit(rows, db.agents);
      ReleaseAllEffect(db, rows[..n], message, at, mail);
      ChangesKeepInv(db, log);
      var c := ReleaseNext(db, ApplyAll(db, log), rows, message, at, mail);
      ApplySnoc(db, log, c);
      ReleasesSnoc(log, c, rows, mail);
    }
  }

  lemma HoldersInit(rows: seq<Id>, agents: map<Id, AgentRow>)
    requires rows != [] && Holders(rows, agents)
    ensures Holders(rows[..|rows| - 1], agents)
  {
    assert forall b | b in rows[..|rows| - 1] :: b in rows;
  }

  lemma ReleasesSnoc(log: seq<Change>, c: Change, rows: seq<Id>, mail: bool)
    requires rows != [] && Releases(log, rows[..|rows| - 1], mail)
    requires (c.End? || c.FinishCancel?) && c.a == rows[|rows| - 1] && c.mail == mail
    ensures Releases(log + [c], rows, mail)
  {
  }

  lemma ReleaseNext(db: Db, mid: Db, rows: seq<Id>, message: Text, at: real, mail: bool) returns (c: Change)
    requires Inv(db) && Inv(mid) && Holders(rows, db.agents) && rows != []
    requires Released(db, mid, Ids(rows[..|rows| - 1]), message, at)
    ensures Release(db, rows[|rows| - 1], message, at, mail) == [c]
    ensures (c.End? || c.FinishCancel?) && c.a == rows[|rows| - 1] && c.mail == mail
    ensures Legal(mid, c)
    ensures Released(db, Apply(mid, c), Ids(rows), message, at)
  {
    var a := rows[|rows| - 1];
    SnocMembers(rows);
    AgentFact(db.agents, db.runs, a);
    ReleaseOne(mid, db, a, message, at, mail);
    c := Release(db, a, message, at, mail)[0];
    RowsAfter(mid, c);
    RoomsAfter(mid, c);
    ReleaseKeepsQueue(mid, c);
    assert Ids(rows) == Ids(rows[..|rows| - 1]) + {a};
    ReleasedStep(db, mid, Apply(mid, c), Ids(rows[..|rows| - 1]), a, message, at);
  }

  lemma ReleaseKeepsQueue(db: Db, c: Change)
    requires (c.End? || c.FinishCancel?) && Legal(db, c)
    ensures NewSteering(db, c) == db.steering
  {
  }

  lemma RoomsAfter(db: Db, c: Change)
    requires c.End? || c.FinishCancel?
    ensures Apply(db, c).rooms == db.rooms
  {
  }

  lemma ReleasedStep(db: Db, mid: Db, db': Db, ended: set<Id>, a: Id, message: Text, at: real)
    requires Rows(db.agents, db.runs) && a in db.agents && a !in ended && Released(db, mid, ended, message, at)
    requires var r := db.agents[a].activeRun;
             && r in db.runs
             && db'.agents == mid.agents[a := ReleasedAgent(db.agents[a], at)]
             && db'.runs == mid.runs[r := ReleasedRun(db.agents[a], db.runs[r], message, at)]
             && db'.steering == mid.steering && db'.rooms == mid.rooms
    ensures Released(db, db', ended + {a}, message, at)
  {
    AgentFact(db.agents, db.runs, a);
  }

  // --- which agents are selected ---------------------------------------------

  lemma {:induction false} ExpiredRowsAre(scan: seq<Id>, agents: map<Id, AgentRow>, cutoff: real)
    requires forall i, j | 0 <= i < j < |scan| :: scan[i] != scan[j]
    ensures var rows := ExpiredRows(scan, agents, cutoff);
            && (forall a :: a in rows <==> a in scan && a in agents && Expired(agents[a], cutoff))
            && Holders(rows, agents)
  {
    if scan != [] {
      ExpiredRowsAre(scan[..|scan| - 1], agents, cutoff);
      SnocMembers(scan);
    }
  }

  predicate HeldUnder(agent: AgentRow, runtime: Text) {
    agent.status.Active() && agent.lease.Some? && agent.lease.value.runtime == runtime
  }

  lemma {:induction false} RuntimeRowsAre(scan: seq<Id>, agents: map<Id, AgentRow>, runtime: Text)
    requires forall i, j | 0 <= i < j < |scan| :: scan[i] != scan[j]
    ensures var rows := RuntimeRows(scan, agents, runtime);
            && (forall a :: a in rows <==> (a in scan && a in agents && HeldUnder(agents[a], runtime)))
            && Holders(rows, agents)
  {
    if scan != [] {
      RuntimeRowsAre(scan[..|scan| - 1], agents, runtime);
      SnocMembers(scan);
    }
  }

  lemma SnocMembers(scan: seq<Id>)
    requires scan != [] && forall i, j | 0 <= i < j < |scan| :: scan[i] != scan[j]
    ensures scan[|scan| - 1] !in scan[..|scan| - 1]
    ensures forall a :: a in scan <==> a in scan[..|scan| - 1] || a == scan[|scan| - 1]
  {
  }

  ghost function ExpiredAgents(agents: map<Id, AgentRow>, cutoff: real): set<Id> {
    set a | a in agents && Expired(agents[a], cutoff)
  }

  /** Reconciliation up to a cutoff ends exactly the claims that expire by it, returns
      their number, and leaves no such claim behind. */
  lemma ReconcileIsExact(db: Db, scan: seq<Id>, cutoff: real, at: real, message: Text, mail: bool)
    requires Inv(db) && IsScan(scan, db.agents)
    ensures var log := ReconcileLeases(db, scan, cutoff, at, message, mail);
            var rows := ExpiredRows(scan, db.agents, cutoff);
            && LegalAll(db, log)
            && Releases(log, rows, mail)
            && Released(db, ApplyAll(db, log), ExpiredAgents(db.agents, cutoff), message, at)
            && |log| == |ExpiredAgents(db.agents, cutoff)|
            && (forall a :: a in rows <==> a in ExpiredAgents(db.agents, cutoff))
            && ExpiredAgents(ApplyAll(db, log).agents, cutoff) == {}
  {
    var rows := ExpiredRows(scan, db.agents, cutoff);
    ExpiredRowsAre(scan, db.agents, cutoff);
    ReleaseAllEffect(db, rows, message, at, mail);
    DistinctCount(rows, ExpiredAgents(db.agents, cutoff));
    assert Ids(rows) == ExpiredAgents(db.agents, cutoff);
    NoneExpired(db, ApplyAll(db, ReleaseAll(db, rows, message, at, mail)), message, at, cutoff);
  }

  lemma NoneExpired(db: Db, db': Db, message: Text, at: real, cutoff: real)
    requires Released(db, db', ExpiredAgents(db.agents, cutoff), message, at)
    ensures ExpiredAgents(db'.agents, cutoff) == {}
  {
    forall a | a in db'.agents
      ensures !Expired(db'.agents[a], cutoff)
    {
      assert a in ExpiredAgents(db.agents, cutoff) <==> Expired(db.agents[a], cutoff);
    }
  }

  lemma {:induction false} DistinctCount(rows: seq<Id>, s: set<Id>)
    requires forall i, j | 0 <= i < j < |rows| :: rows[i] != rows[j]
    requires forall a :: a in rows <==> a in s
    ensures |rows| == |s|
  {
    if rows == [] {
      assert s == {};
    } else {
      SnocMembers(rows);
      DistinctCount(rows[..|rows| - 1], s - {rows[|rows| - 1]});
    }
  }

  /** Importing a database releases with a cutoff above every expiry: no claim survives. */
  lemma ImportLeavesNoClaim(db: Db, scan: seq<Id>, cutoff: real, at: real)
    requires Inv(db) && IsScan(scan, db.agents)
    requires forall a | a in db.agents && db.agents[a].lease.Some? :: db.agents[a].lease.value.expires <= cutoff
    ensures var db' := ApplyAll(db, ReconcileLeases(db, scan, cutoff, at, Explain(DatabaseImported), false));
            && HeldAgents(db'.agents) == {}
            && forall r | r in db'.runs :: !db'.runs[r].status.Active()
  {
    var log := ReconcileLeases(db, scan, cutoff, at, Explain(DatabaseImported), false);
    var db' := ApplyAll(db, log);
    ReconcileIsExact(db, scan, cutoff, at, Explain(DatabaseImported), false);
    ChangesKeepInv(db, log);
    forall a | a in db'.agents
      ensures !db'.agents[a].status.Held()
    {
      assert a !in ExpiredAgents(db'.agents, cutoff);
      AgentFact(db'.agents, db'.runs, a);
      AgentFact(db.agents, db.runs, a);
    }
    NoHolderNoActiveRun(db'.agents, db'.runs);
  }

  lemma NoHolderNoActiveRun(agents: map<Id, AgentRow>, runs: map<Id, RunRow>)
    requires Rows(agents, runs) && forall a | a in agents :: !agents[a].status.Held()
    ensures forall r | r in runs :: !runs[r].status.Active()
  {
    forall r | r in runs
      ensures !runs[r].status.Active()
    {
      RunFact(agents, runs, r);
      var a := runs[r].agent;
      AgentFact(agents, runs, a);
      if runs[r].generation == agents[a].generation {
        assert SameGeneration(runs, r, agents[a].activeRun);
      }
    }
  }
}

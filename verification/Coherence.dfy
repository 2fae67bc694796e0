/** Every legal change keeps every stored database coherent. */
module Coherence {
  import opened Texts
  import opened Types
  import opened Notices
  import opened Order
  import opened Schema
  import opened Changes

  lemma RowsAfter(db: Db, c: Change)
    requires Legal(db, c)
    ensures Apply(db, c).agents == NewAgents(db, c)
    ensures Apply(db, c).runs == NewRuns(db, c)
    ensures Apply(db, c).steering == NewSteering(db, c)
  {
  }

  // --- agents and runs -------------------------------------------------------

  lemma AgentFact(agents: map<Id, AgentRow>, runs: map<Id, RunRow>, a: Id)
    requires Rows(agents, runs) && a in agents
    ensures AgentOk(a, agents[a], runs)
    ensures RunOk(agents[a].activeRun, runs[agents[a].activeRun], agents)
  {
    assert AgentOk(a, agents[a], runs);
    assert RunOk(agents[a].activeRun, runs[agents[a].activeRun], agents);
  }

  lemma RunFact(agents: map<Id, AgentRow>, runs: map<Id, RunRow>, r: Id)
    requires Rows(agents, runs) && r in runs
    ensures RunOk(r, runs[r], agents)
  {
    assert RunOk(r, runs[r], agents);
  }

  /** What an in-place change makes of an agent's row and its active run's row. */
  ghost predicate RowStep(agent: AgentRow, run: RunRow, agent': AgentRow, run': RunRow) {
    && agent'.name == agent.name && agent'.owner == agent.owner
    && agent'.activeRun == agent.activeRun && agent'.generation == agent.generation
    && (agent.child.Some? ==> agent'.child == agent.child)
    && (agent'.status.Held() ==> agent.status.Held())
    && run'.agent == run.agent && run'.generation == run.generation
    && run'.token == run.token && run'.task == run.task
    && (run.startedAt.Some? ==> run'.startedAt == run.startedAt)
    && (run'.status.Active() ==> run.status.Active())
    && (!run.status.Active() ==> run' == run)
  }

  /** The new rows, taken by themselves. */
  lemma NewRows(db: Db, c: Change)
    requires InPlace(c) && Legal(db, c)
    requires AgentOk(c.a, db.agents[c.a], db.runs) && RunShape(db.runs[db.agents[c.a].activeRun])
    ensures var agent, run := db.agents[c.a], db.runs[db.agents[c.a].activeRun];
            var agent', run' := NewAgentRow(agent, c), NewRunRow(run, c);
            && RowStep(agent, run, agent', run')
            && AgentOk(c.a, agent', db.runs[agent.activeRun := run'])
            && RunShape(run')
            && (agent'.child.Some? ==> agent.child == agent'.child || ChildFree(db, c.a, agent'.child.value))
  {
  }

  /** Uniqueness of names and children survives when only one agent's columns change. */
  lemma UniqueKept(agents: map<Id, AgentRow>, agents': map<Id, AgentRow>, a: Id)
    requires UniqueChildren(agents) && UniqueNames(agents)
    requires forall b | b in agents' && b != a ::
               b in agents && agents'[b].child == agents[b].child
               && agents'[b].owner == agents[b].owner && agents'[b].name == agents[b].name
    requires forall b | a in agents' && b in agents' && b != a ::
               && (agents'[a].child.Some? ==> agents'[b].child != agents'[a].child)
               && (agents'[b].owner == agents'[a].owner ==> agents'[b].name != agents'[a].name)
    ensures UniqueChildren(agents') && UniqueNames(agents')
  {
    forall b, d | b in agents' && d in agents' && SameChild(agents', b, d)
      ensures b == d
    {
      if b != a && d != a {
        assert SameChild(agents, b, d);
      }
    }
    forall b, d | b in agents' && d in agents' && SameName(agents', b, d)
      ensures b == d
    {
      if b != a && d != a {
        assert SameName(agents, b, d);
      }
    }
  }

  lemma SetRowsKeepsRows(agents: map<Id, AgentRow>, runs: map<Id, RunRow>, a: Id, agent': AgentRow, run': RunRow)
    requires Rows(agents, runs) && a in agents && agents[a].activeRun in runs
    requires RowStep(agents[a], runs[agents[a].activeRun], agent', run')
    requires AgentOk(a, agent', runs[agent'.activeRun := run']) && RunShape(run')
    requires forall b | b in agents && b != a && agent'.child.Some? :: agents[b].child != agent'.child
    ensures Rows(agents[a := agent'], runs[agent'.activeRun := run'])
  {
    var r, agents', runs' := agent'.activeRun, agents[a := agent'], runs[agent'.activeRun := run'];
    assert AgentOk(a, agents[a], runs);
    forall b | b in agents'
      ensures AgentOk(b, agents'[b], runs')
    {
      assert b != a ==> AgentOk(b, agents[b], runs);
    }
    forall s | s in runs'
      ensures RunOk(s, runs'[s], agents')
    {
      assert RunOk(s, runs[s], agents);
    }
    SameRunKeys(runs, runs');
    forall b | b in agents && b != a
      ensures agents[b].owner == agents[a].owner ==> agents[b].name != agents[a].name
    {
      assert SameName(agents, a, b) <==> agents[b].owner == agents[a].owner && agents[b].name == agents[a].name;
    }
    UniqueKept(agents, agents', a);
  }

  lemma UpdateKeepsRows(db: Db, c: Change)
    requires InPlace(c) && Legal(db, c) && Rows(db.agents, db.runs)
    ensures Rows(NewAgents(db, c), NewRuns(db, c))
  {
    var a, r := c.a, db.agents[c.a].activeRun;
    var agent' := NewAgentRow(db.agents[a], c);
    assert AgentOk(a, db.agents[a], db.runs) && RunOk(r, db.runs[r], db.agents);
    NewRows(db, c);
    forall b | b in db.agents && b != a && agent'.child.Some?
      ensures db.agents[b].child != agent'.child
    {
      assert SameChild(db.agents, a, b) <==> db.agents[a].child.Some? && db.agents[a].child == db.agents[b].child;
    }
    SetRowsKeepsRows(db.agents, db.runs, a, agent', NewRunRow(db.runs[r], c));
  }

  ghost predicate SameKeys(runs: map<Id, RunRow>, runs': map<Id, RunRow>) {
    && runs.Keys == runs'.Keys
    && forall r | r in runs :: runs'[r].agent == runs[r].agent && runs'[r].generation == runs[r].generation
  }

  lemma HasRunFrom(runs: map<Id, RunRow>, runs': map<Id, RunRow>, a: Id, g: nat)
    requires HasRun(runs, a, g)
    requires forall r | r in runs && runs[r].agent == a ::
               r in runs' && runs'[r].agent == a && runs'[r].generation == runs[r].generation
    ensures HasRun(runs', a, g)
  {
    var r :| r in runs && runs[r].agent == a && runs[r].generation == g;
    assert r in runs' && runs'[r].agent == a && runs'[r].generation == g;
  }

  lemma SameRunKeys(runs: map<Id, RunRow>, runs': map<Id, RunRow>)
    requires SameKeys(runs, runs')
    ensures forall a, g: nat :: HasRun(runs, a, g) ==> HasRun(runs', a, g)
    ensures UniqueGenerations(runs) ==> UniqueGenerations(runs')
  {
    forall a, g: nat | HasRun(runs, a, g)
      ensures HasRun(runs', a, g)
    {
      HasRunFrom(runs, runs', a, g);
    }
    if UniqueGenerations(runs) {
      forall r, s | r in runs' && s in runs' && SameGeneration(runs', r, s)
        ensures r == s
      {
        assert SameGeneration(runs, r, s);
      }
    }
  }

  /** Adding the run of a new generation, which becomes its agent's active run. */
  lemma AddRunKeepsRows(agents: map<Id, AgentRow>, runs: map<Id, RunRow>, a: Id, r: Id,
                        agents': map<Id, AgentRow>, runs': map<Id, RunRow>)
    requires Rows(agents, runs) && r !in runs && |r| == ID_BYTES
    requires a in agents' && agents' == agents[a := agents'[a]] && r in runs' && runs' == runs[r := runs'[r]]
    requires agents'[a].generation == (if a in agents then agents[a].generation + 1 else 1)
    requires a in agents ==> agents[a].activeRun in runs && !runs[agents[a].activeRun].status.Active()
    requires runs'[r].agent == a && runs'[r].generation == agents'[a].generation
    requires AgentOk(a, agents'[a], runs') && RunShape(runs'[r])
    ensures forall b {:trigger AgentOk(b, agents'[b], runs')} | b in agents' :: AgentOk(b, agents'[b], runs')
    ensures forall s {:trigger RunOk(s, runs'[s], agents')} | s in runs' :: RunOk(s, runs'[s], agents')
  {
    assert a in agents ==> AgentOk(a, agents[a], runs);
    forall b | b in agents'
      ensures AgentOk(b, agents'[b], runs')
    {
      assert b != a ==> AgentOk(b, agents[b], runs);
    }
    forall s | s in runs'
      ensures RunOk(s, runs'[s], agents')
    {
      if s != r {
        assert RunOk(s, runs[s], agents);
        if runs[s].agent == a && runs[s].generation == agents[a].generation {
          assert SameGeneration(runs, s, agents[a].activeRun);
        }
      }
    }
  }

  lemma AddRunKeepsKeys(agents: map<Id, AgentRow>, runs: map<Id, RunRow>, a: Id, r: Id,
                        agents': map<Id, AgentRow>, runs': map<Id, RunRow>)
    requires Rows(agents, runs) && r !in runs
    requires a in agents' && agents' == agents[a := agents'[a]] && r in runs' && runs' == runs[r := runs'[r]]
    requires agents'[a].generation == (if a in agents then agents[a].generation + 1 else 1)
    requires runs'[r].agent == a && runs'[r].generation == agents'[a].generation
    ensures UniqueGenerations(runs')
    ensures forall b, g: nat {:trigger HasRun(runs', b, g)} | b in agents' && 1 <= g <= agents'[b].generation :: HasRun(runs', b, g)
  {
    forall s, t | s in runs' && t in runs' && SameGeneration(runs', s, t)
      ensures s == t
    {
      if s != r && t != r {
        assert SameGeneration(runs, s, t);
      } else if s != r {
        RunFact(agents, runs, s);
      } else if t != r {
        RunFact(agents, runs, t);
      }
    }
    forall b, g: nat | b in agents' && 1 <= g <= agents'[b].generation
      ensures HasRun(runs', b, g)
    {
      if b == a && g == agents'[a].generation {
        assert r in runs' && runs'[r].agent == a && runs'[r].generation == g;
      } else {
        HasRunFrom(runs, runs', b, g);
      }
    }
  }

  lemma NewRunKeepsRows(db: Db, c: Change)
    requires c.Spawn? || c.Reclaim?
    requires Legal(db, c) && Rows(db.agents, db.runs)
    ensures Rows(NewAgents(db, c), NewRuns(db, c))
  {
    var row := NewAgents(db, c)[c.a];
    assert c.Reclaim? ==> AgentOk(c.a, db.agents[c.a], db.runs);
    AddRunKeepsRows(db.agents, db.runs, c.a, c.r, NewAgents(db, c), NewRuns(db, c));
    AddRunKeepsKeys(db.agents, db.runs, c.a, c.r, NewAgents(db, c), NewRuns(db, c));
    forall b | b in db.agents && b != c.a
      ensures row.child.Some? ==> db.agents[b].child != row.child
      ensures db.agents[b].owner == row.owner ==> db.agents[b].name != row.name
    {
      if c.Reclaim? {
        assert SameChild(db.agents, c.a, b) <==> row.child.Some? && row.child == db.agents[b].child;
        assert SameName(db.agents, c.a, b) <==> row.owner == db.agents[b].owner && row.name == db.agents[b].name;
      }
    }
    UniqueKept(db.agents, NewAgents(db, c), c.a);
  }

  lemma RemoveKeepsRows(db: Db, c: Change)
    requires c.Remove? && Legal(db, c) && Rows(db.agents, db.runs)
    ensures Rows(NewAgents(db, c), NewRuns(db, c))
  {
    var agents', runs' := NewAgents(db, c), NewRuns(db, c);
    forall b | b in agents'
      ensures AgentOk(b, agents'[b], runs')
    {
      assert AgentOk(b, db.agents[b], db.runs);
    }
    forall s | s in runs'
      ensures RunOk(s, runs'[s], agents')
    {
      assert RunOk(s, db.runs[s], db.agents);
    }
    forall b, g: nat | b in agents' && 1 <= g <= agents'[b].generation
      ensures HasRun(runs', b, g)
    {
      HasRunFrom(db.runs, runs', b, g);
    }
    forall s, t | s in runs' && t in runs' && SameGeneration(runs', s, t)
      ensures s == t
    {
      assert SameGeneration(db.runs, s, t);
    }
    UniqueKept(db.agents, agents', c.a);
  }

  lemma ChangeKeepsRows(db: Db, c: Change)
    requires Legal(db, c) && Rows(db.agents, db.runs)
    ensures Rows(NewAgents(db, c), NewRuns(db, c))
  {
    if InPlace(c) {
      UpdateKeepsRows(db, c);
    } else if c.Spawn? || c.Reclaim? {
      NewRunKeepsRows(db, c);
    } else if c.Remove? {
      RemoveKeepsRows(db, c);
    }
  }

  // --- capacity --------------------------------------------------------------

  lemma FewerHeld(agents: map<Id, AgentRow>, agents': map<Id, AgentRow>)
    requires Capacity(agents)
    requires forall a | a in agents' && agents'[a].status.Held() ::
               a in agents && agents[a].status.Held() && agents[a].owner == agents'[a].owner
    ensures Capacity(agents')
  {
    Subset(HeldAgents(agents'), HeldAgents(agents));
    forall owner
      ensures |HeldBy(agents', owner)| <= MAX_ACTIVE_PER_OWNER
    {
      Subset(HeldBy(agents', owner), HeldBy(agents, owner));
    }
  }

  lemma Subset<T>(s: set<T>, t: set<T>)
    requires s <= t
    ensures |s| <= |t|
  {
    assert t == s + (t - s);
  }

  lemma OneMoreHeld(agents: map<Id, AgentRow>, a: Id, agents': map<Id, AgentRow>)
    requires a in agents' && agents' == agents[a := agents'[a]]
    requires Capacity(agents) && agents'[a].status.Held()
    requires a in agents ==> agents[a].owner == agents'[a].owner
    requires |HeldAgents(agents)| < MAX_ACTIVE_TOTAL && |HeldBy(agents, agents'[a].owner)| < MAX_ACTIVE_PER_OWNER
    ensures Capacity(agents')
  {
    Subset(HeldAgents(agents'), HeldAgents(agents) + {a});
    forall owner
      ensures |HeldBy(agents', owner)| <= MAX_ACTIVE_PER_OWNER
    {
      if owner == agents'[a].owner {
        Subset(HeldBy(agents', owner), HeldBy(agents, owner) + {a});
      } else {
        Subset(HeldBy(agents', owner), HeldBy(agents, owner));
      }
    }
  }

  lemma ChangeKeepsCapacity(db: Db, c: Change)
    requires Legal(db, c) && Rows(db.agents, db.runs) && Capacity(db.agents)
    ensures Capacity(NewAgents(db, c))
  {
    if c.Spawn? || c.Reclaim? {
      OneMoreHeld(db.agents, c.a, NewAgents(db, c));
    } else {
      if InPlace(c) {
        assert AgentOk(c.a, db.agents[c.a], db.runs);
        assert RunOk(db.agents[c.a].activeRun, db.runs[db.agents[c.a].activeRun], db.agents);
        NewRows(db, c);
      }
      FewerHeld(db.agents, NewAgents(db, c));
    }
  }

  // --- steering --------------------------------------------------------------

  ghost predicate Ascending(steering: seq<SteeringRow>) {
    forall i, j | 0 <= i < j < |steering| :: steering[i].id < steering[j].id
  }

  /** Deleting rows keeps the table's order and drops nothing but what it names. */
  ghost predicate Thinned(steering': seq<SteeringRow>, steering: seq<SteeringRow>) {
    && (forall i | 0 <= i < |steering'| :: steering'[i] in steering)
    && (Ascending(steering) ==> Ascending(steering'))
  }

  lemma ThinnedStep(steering: seq<SteeringRow>, kept: seq<SteeringRow>, tail: seq<SteeringRow>)
    requires steering != []
    requires Thinned(kept, steering[..|steering| - 1])
    requires tail == [] || tail == [steering[|steering| - 1]]
    ensures Thinned(kept + tail, steering)
  {
    var n := |steering| - 1;
    forall i | 0 <= i < |kept + tail|
      ensures (kept + tail)[i] in steering
    {
      if i < |kept| {
        assert kept[i] in steering[..n];
      }
    }
    if Ascending(steering) {
      assert Ascending(steering[..n]);
      forall i, j | 0 <= i < j < |kept + tail|
        ensures (kept + tail)[i].id < (kept + tail)[j].id
      {
        if j == |kept| {
          assert kept[i] in steering[..n];
        }
      }
    }
  }

  lemma {:induction false} DropRunThins(steering: seq<SteeringRow>, a: Id, r: Id, g: nat)
    ensures Thinned(DropRun(steering, a, r, g), steering)
  {
    if steering != [] {
      DropRunThins(steering[..|steering| - 1], a, r, g);
      var m := steering[|steering| - 1];
      ThinnedStep(steering, DropRun(steering[..|steering| - 1], a, r, g),
                  if m.agent == a && m.run == r && m.generation == g then [] else [m]);
    }
  }

  lemma {:induction false} DropAgentThins(steering: seq<SteeringRow>, a: Id)
    ensures Thinned(DropAgent(steering, a), steering)
    ensures forall i | 0 <= i < |DropAgent(steering, a)| :: DropAgent(steering, a)[i].agent != a
  {
    if steering != [] {
      DropAgentThins(steering[..|steering| - 1], a);
      var m := steering[|steering| - 1];
      ThinnedStep(steering, DropAgent(steering[..|steering| - 1], a), if m.agent == a then [] else [m]);
    }
  }

  lemma {:induction false} DropIdThins(steering: seq<SteeringRow>, id: nat)
    ensures Thinned(DropId(steering, id), steering)
  {
    if steering != [] {
      DropIdThins(steering[..|steering| - 1], id);
      var m := steering[|steering| - 1];
      ThinnedStep(steering, DropId(steering[..|steering| - 1], id), if m.id == id then [] else [m]);
    }
  }

  lemma ThinnedQueue(steering': seq<SteeringRow>, steering: seq<SteeringRow>, agents: map<Id, AgentRow>)
    requires Thinned(steering', steering) && Queue(steering, agents)
    ensures Queue(steering', agents)
  {
    assert Ascending(steering);
    forall i | 0 <= i < |steering'|
      ensures steering'[i].id >= 1 && steering'[i].agent in agents
              && steering'[i].run == agents[steering'[i].agent].activeRun
              && steering'[i].generation == agents[steering'[i].agent].generation
    {
      assert steering'[i] in steering;
    }
  }

  lemma QueueFrame(steering: seq<SteeringRow>, agents: map<Id, AgentRow>, agents': map<Id, AgentRow>)
    requires Queue(steering, agents)
    requires forall i | 0 <= i < |steering| ::
               var a := steering[i].agent;
               a in agents' && agents'[a].activeRun == agents[a].activeRun && agents'[a].generation == agents[a].generation
    ensures Queue(steering, agents')
  {
  }

  /** Apart from a follow-up, no change gives an agent another run. */
  lemma SameActiveRuns(db: Db, c: Change)
    requires Legal(db, c) && Rows(db.agents, db.runs) && !c.Reclaim?
    ensures forall a | a in db.agents && !(c.Remove? && a == c.a) ::
              && a in NewAgents(db, c)
              && NewAgents(db, c)[a].activeRun == db.agents[a].activeRun
              && NewAgents(db, c)[a].generation == db.agents[a].generation
  {
    if InPlace(c) {
      AgentFact(db.agents, db.runs, c.a);
      NewRows(db, c);
    }
  }

  lemma ChangeThins(db: Db, c: Change)
    requires Legal(db, c) && !c.Enqueue? && !c.Reclaim?
    ensures Thinned(NewSteering(db, c), db.steering)
    ensures c.Remove? ==> forall i | 0 <= i < |NewSteering(db, c)| :: NewSteering(db, c)[i].agent != c.a
  {
    if c.BeginCancel? || c.CancelInactive? {
      var r := db.agents[c.a].activeRun;
      DropRunThins(db.steering, c.a, r, db.runs[r].generation);
    } else if c.Remove? {
      DropAgentThins(db.steering, c.a);
    } else if c.Dequeue? {
      DropIdThins(db.steering, c.id);
    }
  }

  lemma ChangeKeepsQueue(db: Db, c: Change)
    requires Legal(db, c) && Rows(db.agents, db.runs) && Queue(db.steering, db.agents)
    ensures Queue(NewSteering(db, c), NewAgents(db, c))
  {
    if c.Enqueue? {
      AgentFact(db.agents, db.runs, c.a);
    } else if c.Reclaim? {
      RekeyQueue(db.steering, db.agents, c.a, c.r, db.agents[c.a].generation + 1, NewAgents(db, c));
    } else {
      var steering', agents' := NewSteering(db, c), NewAgents(db, c);
      ChangeThins(db, c);
      SameActiveRuns(db, c);
      ThinnedQueue(steering', db.steering, db.agents);
      QueueFrame(steering', db.agents, agents');
    }
  }

  lemma RekeyQueue(steering: seq<SteeringRow>, agents: map<Id, AgentRow>, a: Id, r: Id, g: nat, agents': map<Id, AgentRow>)
    requires Queue(steering, agents)
    requires a in agents' && agents' == agents[a := agents'[a]] && agents'[a].activeRun == r && agents'[a].generation == g
    ensures Queue(Rekey(steering, a, r, g), agents')
  {
  }

  // --- events ----------------------------------------------------------------

  /** A started run keeps its agent in the database: only an agent that never
      started a run can be removed. */
  lemma StartedKept(db: Db, c: Change, a: Id)
    requires Legal(db, c) && Rows(db.agents, db.runs) && a in db.agents && StartedRuns(db.runs, a) != {}
    ensures a in NewAgents(db, c) && NewAgents(db, c)[a].owner == db.agents[a].owner && StartedRuns(NewRuns(db, c), a) != {}
  {
    var r :| r in StartedRuns(db.runs, a);
    AgentFact(db.agents, db.runs, a);
    if c.Remove? && c.a == a {
      RunFact(db.agents, db.runs, r);
      assert SameGeneration(db.runs, r, db.agents[a].activeRun);
    }
    assert r in StartedRuns(NewRuns(db, c), a);
  }

  /** A run that no longer holds its claim never holds it again. */
  lemma ReleasedKept(db: Db, c: Change, r: Id)
    requires Legal(db, c) && Rows(db.agents, db.runs) && r in db.runs && !HeldRun(db.agents, db.runs, r)
    ensures r in NewRuns(db, c) && NewRuns(db, c)[r].agent == db.runs[r].agent && !HeldRun(NewAgents(db, c), NewRuns(db, c), r)
    ensures db.runs[r].agent in db.agents && db.runs[r].agent in NewAgents(db, c)
    ensures NewAgents(db, c)[db.runs[r].agent].owner == db.agents[db.runs[r].agent].owner
  {
    var a := db.runs[r].agent;
    assert RunOk(r, db.runs[r], db.agents);
    assert AgentOk(a, db.agents[a], db.runs);
    if c.Remove? && c.a == a {
      assert SameGeneration(db.runs, r, db.agents[a].activeRun);
    }
    if InPlace(c) {
      assert AgentOk(c.a, db.agents[c.a], db.runs);
      assert RunOk(db.agents[c.a].activeRun, db.runs[db.agents[c.a].activeRun], db.agents);
      NewRows(db, c);
    }
  }

  lemma ChangeFramesEvents(db: Db, c: Change)
    requires Legal(db, c) && Rows(db.agents, db.runs)
    ensures forall key {:trigger key in db.events} | key in db.events
              && EventOk(key, db.events[key], db.agents, db.runs, db.rooms) ::
              EventOk(key, db.events[key], NewAgents(db, c), NewRuns(db, c), db.rooms)
  {
    forall key | key in db.events && EventOk(key, db.events[key], db.agents, db.runs, db.rooms)
      ensures EventOk(key, db.events[key], NewAgents(db, c), NewRuns(db, c), db.rooms)
    {
      match key
      case Joined(a) => StartedKept(db, c, a);
      case Terminal(r) => ReleasedKept(db, c, r);
    }
  }

  // --- publication -----------------------------------------------------------

  lemma AppendAscending(mails: seq<MailRow>, mailSeq: nat, more: seq<MailRow>)
    requires AscendingMails(mails, mailSeq)
    requires forall i | 0 <= i < |more| :: more[i].id == mailSeq + 1 + i
    ensures AscendingMails(mails + more, mailSeq + |more|)
  {
    forall i, j | 0 <= i < j < |mails + more|
      ensures (mails + more)[i].id < (mails + more)[j].id
    {
      if i < |mails| <= j {
        assert mails[i].id <= mails[|mails| - 1].id;
      }
    }
  }

  lemma AppendSlots(mails: seq<MailRow>, more: seq<MailRow>)
    requires UniqueSlots(mails) && UniqueSlots(more)
    requires forall i, j | 0 <= i < |mails| && 0 <= j < |more| :: !SameSlot(mails[i], more[j])
    ensures UniqueSlots(mails + more)
  {
  }

  lemma AppendOk(db: Db, db': Db, more: seq<MailRow>)
    requires Mails(db) && db'.mails == db.mails + more && db'.mailSeq == db.mailSeq + |more|
    requires Grown(db, db')
    requires forall i | 0 <= i < |more| :: MailOk(more[i], db'.events, db'.rooms, db'.runs) && more[i].id == db.mailSeq + 1 + i
    requires UniqueSlots(more)
    requires forall i, j | 0 <= i < |db.mails| && 0 <= j < |more| :: !SameSlot(db.mails[i], more[j])
    ensures Mails(db')
  {
    AppendAscending(db.mails, db.mailSeq, more);
    AppendSlots(db.mails, more);
    forall i | 0 <= i < |db'.mails|
      ensures MailOk(db'.mails[i], db'.events, db'.rooms, db'.runs)
    {
      if i < |db.mails| {
        MailOkKept(db, db', i);
      } else {
        assert db'.mails[i] == more[i - |db.mails|];
      }
    }
  }

  /** The tables mails refer to only gain rows, and finished runs stay. */
  ghost predicate Grown(db: Db, db': Db) {
    && (forall key | key in db.events :: key in db'.events && db'.events[key] == db.events[key])
    && (forall owner | owner in db.rooms :: owner in db'.rooms)
    && (forall key, a, r | key in db.events && Reports(key, a, r, db.runs) :: Reports(key, a, r, db'.runs))
  }

  lemma MailOkKept(db: Db, db': Db, i: nat)
    requires Mails(db) && Grown(db, db') && i < |db.mails|
    ensures MailOk(db.mails[i], db'.events, db'.rooms, db'.runs)
  {
    assert MailOk(db.mails[i], db.events, db.rooms, db.runs);
  }

  lemma CopiesOk(db: Db, db': Db, key: EventKey, a: Id, r: Id, at: real, to: seq<Party>, copies: seq<MailRow>)
    requires a in db.agents && r in db.runs
    requires db.agents[a].owner in db'.rooms && Reports(key, a, r, db'.runs)
    requires key in db'.events && db'.events[key].owner == db.agents[a].owner
    requires to == Recipients(db.agents, db.agents[a].owner, a)
    requires copies == Copies(key, a, db.agents[a], r, db.runs[r], at, db.mailSeq + 1, to)
    ensures forall i | 0 <= i < |copies| :: MailOk(copies[i], db'.events, db'.rooms, db'.runs)
                                            && copies[i].id == db.mailSeq + 1 + i && copies[i].event == Some(key)
    ensures UniqueSlots(copies)
  {
    RecipientsDistinct(db.agents, db.agents[a].owner, a);
  }

  ghost predicate Publishes(db: Db, key: EventKey, a: Id, r: Id) {
    && a in db.agents && r in db.runs && Reports(key, a, r, db.runs)
    && db.agents[a].owner in db.rooms && key !in db.events
  }

  /** The event row and the copies, when an event is published. */
  lemma PublishedTables(db: Db, key: EventKey, a: Id, r: Id, at: real)
    requires a in db.agents && r in db.runs && db.agents[a].owner in db.rooms && key !in db.events
    ensures var to := Recipients(db.agents, db.agents[a].owner, a);
            var db' := PublishEvent(db, key, a, r, at);
            && db'.events == db.events[key := EventRow(db.agents[a].owner, at)]
            && db'.mails == db.mails + Copies(key, a, db.agents[a], r, db.runs[r], at, db.mailSeq + 1, to)
            && db'.mailSeq == db.mailSeq + |to|
  {
  }

  lemma PublishKeepsMails(db: Db, key: EventKey, a: Id, r: Id, at: real)
    requires Rows(db.agents, db.runs) && Mails(db) && Publishes(db, key, a, r)
    ensures Mails(PublishEvent(db, key, a, r, at))
  {
    var db' := PublishEvent(db, key, a, r, at);
    var to := Recipients(db.agents, db.agents[a].owner, a);
    var copies := Copies(key, a, db.agents[a], r, db.runs[r], at, db.mailSeq + 1, to);
    CopiesOk(db, db', key, a, r, at, to, copies);
    forall i, j | 0 <= i < |db.mails| && 0 <= j < |copies|
      ensures !SameSlot(db.mails[i], copies[j])
    {
      NewKey(db, key, i);
    }
    AppendOk(db, db', copies);
  }

  lemma NewKey(db: Db, key: EventKey, i: nat)
    requires Mails(db) && key !in db.events && i < |db.mails|
    ensures db.mails[i].event != Some(key)
  {
    assert MailOk(db.mails[i], db.events, db.rooms, db.runs);
  }

  lemma PublishKeepsEvents(db: Db, key: EventKey, a: Id, r: Id, at: real)
    requires Events(db) && Publishes(db, key, a, r)
    requires EventOk(key, EventRow(db.agents[a].owner, at), db.agents, db.runs, db.rooms)
    ensures Events(PublishEvent(db, key, a, r, at))
  {
    var db' := PublishEvent(db, key, a, r, at);
    forall k | k in db'.events
      ensures EventOk(k, db'.events[k], db'.agents, db'.runs, db'.rooms)
    {
      assert k != key ==> EventOk(k, db.events[k], db.agents, db.runs, db.rooms);
    }
  }

  lemma PublishKeeps(db: Db, key: EventKey, a: Id, r: Id, at: real)
    requires Inv(db) && a in db.agents && r in db.runs && Reports(key, a, r, db.runs)
    requires db.agents[a].owner in db.rooms ==>
               EventOk(key, EventRow(db.agents[a].owner, at), db.agents, db.runs, db.rooms)
    ensures Inv(PublishEvent(db, key, a, r, at))
  {
    if Publishes(db, key, a, r) {
      PublishKeepsMails(db, key, a, r, at);
      PublishKeepsEvents(db, key, a, r, at);
    }
  }

  lemma InPeers(agents: map<Id, AgentRow>, owner: Text, a: Id, i: nat)
    requires i < |Recipients(agents, owner, a)|
    ensures i == 0 ==> Recipients(agents, owner, a)[i] == Main
    ensures i > 0 ==> var p := Recipients(agents, owner, a)[i];
                      p.Worker? && p.id in Peers(agents, owner, a) && p.id == Sorted(Peers(agents, owner, a))[i - 1]
  {
    if i > 0 {
      assert Sorted(Peers(agents, owner, a))[i - 1] in Sorted(Peers(agents, owner, a));
    }
  }

  lemma RecipientsDistinct(agents: map<Id, AgentRow>, owner: Text, a: Id)
    ensures var to := Recipients(agents, owner, a); forall i, j | 0 <= i < j < |to| :: to[i] != to[j]
  {
    var to := Recipients(agents, owner, a);
    forall i, j | 0 <= i < j < |to|
      ensures to[i] != to[j]
    {
      InPeers(agents, owner, a, i);
      InPeers(agents, owner, a, j);
    }
  }

  // --- every change ----------------------------------------------------------

  /** The state after the rows are written and before a notice is added. */
  ghost function Written(db: Db, c: Change): Db
    requires Applies(db, c)
  {
    db.(agents := NewAgents(db, c), runs := NewRuns(db, c), steering := NewSteering(db, c))
  }

  lemma RowsGrow(db: Db, c: Change)
    requires Legal(db, c) && Inv(db)
    ensures Grown(db, Written(db, c))
  {
    forall key, a, r | key in db.events && Reports(key, a, r, db.runs)
      ensures Reports(key, a, r, NewRuns(db, c))
    {
      assert EventOk(key, db.events[key], db.agents, db.runs, db.rooms);
      if key.Terminal? {
        ReleasedKept(db, c, r);
      }
    }
  }

  lemma MailsKept(db: Db, db': Db)
    requires Mails(db) && Grown(db, db') && db'.mails == db.mails && db'.mailSeq == db.mailSeq
    ensures Mails(db')
  {
    forall i | 0 <= i < |db'.mails|
      ensures MailOk(db'.mails[i], db'.events, db'.rooms, db'.runs)
    {
      MailOkKept(db, db', i);
    }
  }

  lemma WrittenKeeps(db: Db, c: Change)
    requires Legal(db, c) && Inv(db)
    ensures Inv(Written(db, c))
  {
    ChangeKeepsRows(db, c);
    ChangeKeepsCapacity(db, c);
    ChangeKeepsQueue(db, c);
    ChangeFramesEvents(db, c);
    RowsGrow(db, c);
    MailsKept(db, Written(db, c));
    WrittenEvents(db, c);
  }

  lemma WrittenEvents(db: Db, c: Change)
    requires Legal(db, c) && Inv(db)
    ensures Events(Written(db, c))
  {
    ChangeFramesEvents(db, c);
    forall key | key in db.events
      ensures EventOk(key, db.events[key], NewAgents(db, c), NewRuns(db, c), db.rooms)
    {
      assert EventOk(key, db.events[key], db.agents, db.runs, db.rooms);
    }
  }

  lemma AnnounceKeeps(db: Db, c: Change)
    requires Legal(db, c) && Inv(db)
    ensures Inv(Announce(Written(db, c), db, c))
  {
    WrittenKeeps(db, c);
    if c.Start? {
      StartKeeps(db, c);
    } else if c.End? || c.FinishCancel? {
      ReleaseKeeps(db, c);
    }
  }

  lemma StartKeeps(db: Db, c: Change)
    requires Legal(db, c) && Inv(db) && c.Start? && Inv(Written(db, c))
    ensures Inv(Announce(Written(db, c), db, c))
  {
    var a, r := c.a, db.agents[c.a].activeRun;
    AgentFact(db.agents, db.runs, a);
    NewRows(db, c);
    assert r in StartedRuns(NewRuns(db, c), a);
    PublishKeeps(Written(db, c), Joined(a), a, r, c.at);
  }

  lemma ReleaseKeeps(db: Db, c: Change)
    requires Legal(db, c) && Inv(db) && (c.End? || c.FinishCancel?) && Inv(Written(db, c))
    ensures Inv(Announce(Written(db, c), db, c))
  {
    var a, r := c.a, db.agents[c.a].activeRun;
    AgentFact(db.agents, db.runs, a);
    NewRows(db, c);
    PublishKeeps(Written(db, c), Terminal(r), a, r, c.at);
  }

  lemma PostKeeps(db: Db, m: MailRow)
    requires Inv(db) && m.owner in db.rooms && m.event.None?
    ensures Inv(Apply(db, Post(m)))
  {
    var db' := Apply(db, Post(m));
    AppendOk(db, db', [m.(id := db.mailSeq + 1)]);
  }

  lemma MarkReadKeeps(db: Db, ids: set<nat>, at: real)
    requires Inv(db)
    ensures Inv(Apply(db, MarkRead(ids, at)))
  {
    var mails' := ReadAll(db.mails, ids, at);
    forall i | 0 <= i < |mails'|
      ensures MailOk(mails'[i], db.events, db.rooms, db.runs)
    {
      assert MailOk(db.mails[i], db.events, db.rooms, db.runs);
    }
    ReadKeepsTable(db.mails, db.mailSeq, mails');
  }

  lemma ReadKeepsTable(mails: seq<MailRow>, mailSeq: nat, mails': seq<MailRow>)
    requires AscendingMails(mails, mailSeq) && UniqueSlots(mails) && |mails'| == |mails|
    requires forall i | 0 <= i < |mails'| :: mails'[i].id == mails[i].id
               && mails'[i].event == mails[i].event && mails'[i].recipient == mails[i].recipient
    ensures AscendingMails(mails', mailSeq) && UniqueSlots(mails')
  {
    forall i, j | 0 <= i < j < |mails'|
      ensures !SameSlot(mails'[i], mails'[j])
    {
      assert !SameSlot(mails[i], mails[j]);
    }
  }

  lemma OpenRoomKeeps(db: Db, c: Change)
    requires Inv(db) && c.OpenRoom?
    ensures Inv(Apply(db, c))
  {
    var db' := Apply(db, c);
    forall key | key in db.events
      ensures EventOk(key, db.events[key], db'.agents, db'.runs, db'.rooms)
    {
      assert EventOk(key, db.events[key], db.agents, db.runs, db.rooms);
    }
    MailsKept(db, db');
  }

  /** Coherence, capacity, queue order, notices and mails survive every change. */
  lemma ChangeKeepsInv(db: Db, c: Change)
    requires Inv(db) && Legal(db, c)
    ensures Inv(Apply(db, c))
  {
    if c.OpenRoom? {
      OpenRoomKeeps(db, c);
    } else if c.Post? {
      PostKeeps(db, c.m);
    } else if c.MarkRead? {
      MarkReadKeeps(db, c.ids, c.at);
    } else {
      AnnounceKeeps(db, c);
    }
  }

  lemma EmptyIsCoherent()
    ensures Inv(EmptyDb)
  {
    assert HeldAgents(EmptyDb.agents) == {};
    forall owner
      ensures HeldBy(EmptyDb.agents, owner) == {}
    {
    }
  }

  lemma {:induction false} ChangesKeepInv(db: Db, cs: seq<Change>)
    requires Inv(db) && LegalAll(db, cs)
    ensures Inv(ApplyAll(db, cs))
  {
    if cs != [] {
      ChangesKeepInv(db, cs[..|cs| - 1]);
      ChangeKeepsInv(ApplyAll(db, cs[..|cs| - 1]), cs[|cs| - 1]);
    }
  }
}

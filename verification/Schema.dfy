/** What every stored database satisfies: the schema's CHECK, UNIQUE and FOREIGN KEY
    clauses, and the coherence of agents, runs, notices and queues. */
module Schema {
  import opened Texts
  import opened Types
  import opened Notices

  // --- agents and runs -------------------------------------------------------

  ghost predicate AgentOk(a: Id, row: AgentRow, runs: map<Id, RunRow>) {
    && |a| == ID_BYTES && |row.name| <= MAX_NAME_BYTES
    && row.generation >= 1
    && row.activeRun in runs
    && runs[row.activeRun].agent == a
    && runs[row.activeRun].generation == row.generation
    && (row.lease.Some? <==> row.status.Held())
    && (row.lease.Some? ==> row.lease.value.token == runs[row.activeRun].token)
    && (row.status.Running? ==> row.child.Some?)
    && Agree(row.status, runs[row.activeRun].status)
  }

  predicate RunShape(run: RunRow) {
    && (run.status.Active() <==> run.completedAt.None?)
    && (run.status.Active() ==> run.result.None? && run.error.None?)
    && (run.status.RunStarting? ==> run.startedAt.None?)
    && (run.status.RunRunning? || run.status.RunCompleted? ==> run.startedAt.Some?)
  }

  ghost predicate RunOk(r: Id, run: RunRow, agents: map<Id, AgentRow>) {
    && |r| == ID_BYTES
    && run.agent in agents
    && 1 <= run.generation <= agents[run.agent].generation
    && (run.generation < agents[run.agent].generation ==> !run.status.Active())
    && RunShape(run)
  }

  ghost predicate HasRun(runs: map<Id, RunRow>, a: Id, g: nat) {
    exists r :: r in runs && runs[r].agent == a && runs[r].generation == g
  }

  ghost predicate SameGeneration(runs: map<Id, RunRow>, r: Id, s: Id)
    requires r in runs && s in runs
  {
    runs[r].agent == runs[s].agent && runs[r].generation == runs[s].generation
  }

  ghost predicate UniqueGenerations(runs: map<Id, RunRow>) {
    forall r, s {:trigger SameGeneration(runs, r, s)} | r in runs && s in runs && SameGeneration(runs, r, s) :: r == s
  }

  ghost predicate SameChild(agents: map<Id, AgentRow>, a: Id, b: Id)
    requires a in agents && b in agents
  {
    agents[a].child.Some? && agents[a].child == agents[b].child
  }

  ghost predicate UniqueChildren(agents: map<Id, AgentRow>) {
    forall a, b {:trigger SameChild(agents, a, b)} | a in agents && b in agents && SameChild(agents, a, b) :: a == b
  }

  ghost predicate SameName(agents: map<Id, AgentRow>, a: Id, b: Id)
    requires a in agents && b in agents
  {
    agents[a].owner == agents[b].owner && agents[a].name == agents[b].name
  }

  ghost predicate UniqueNames(agents: map<Id, AgentRow>) {
    forall a, b {:trigger SameName(agents, a, b)} | a in agents && b in agents && SameName(agents, a, b) :: a == b
  }

  ghost predicate Rows(agents: map<Id, AgentRow>, runs: map<Id, RunRow>) {
    && (forall a {:trigger AgentOk(a, agents[a], runs)} | a in agents :: AgentOk(a, agents[a], runs))
    && (forall r {:trigger RunOk(r, runs[r], agents)} | r in runs :: RunOk(r, runs[r], agents))
    && (forall a, g: nat {:trigger HasRun(runs, a, g)} | a in agents && 1 <= g <= agents[a].generation :: HasRun(runs, a, g))
    && UniqueGenerations(runs)
    && UniqueChildren(agents)
    && UniqueNames(agents)
  }

  // --- capacity --------------------------------------------------------------

  function HeldAgents(agents: map<Id, AgentRow>): set<Id> {
    set a | a in agents && agents[a].status.Held()
  }

  function HeldBy(agents: map<Id, AgentRow>, owner: Text): set<Id> {
    set a | a in agents && agents[a].status.Held() && agents[a].owner == owner
  }

  ghost predicate Capacity(agents: map<Id, AgentRow>) {
    && |HeldAgents(agents)| <= MAX_ACTIVE_TOTAL
    && forall owner :: |HeldBy(agents, owner)| <= MAX_ACTIVE_PER_OWNER
  }

  // --- steering --------------------------------------------------------------

  /** Every queued message is keyed to the current run of its agent. */
  ghost predicate Queue(steering: seq<SteeringRow>, agents: map<Id, AgentRow>) {
    && (forall i | 0 <= i < |steering| ::
          && steering[i].id >= 1
          && steering[i].agent in agents
          && steering[i].run == agents[steering[i].agent].activeRun
          && steering[i].generation == agents[steering[i].agent].generation)
    && forall i, j | 0 <= i < j < |steering| :: steering[i].id < steering[j].id
  }

  // --- notices ---------------------------------------------------------------

  /** A run holds its claim while it is active for an agent that carries a lease. */
  ghost predicate HeldRun(agents: map<Id, AgentRow>, runs: map<Id, RunRow>, r: Id) {
    && r in runs && runs[r].agent in agents
    && agents[runs[r].agent].activeRun == r
    && agents[runs[r].agent].status.Held()
  }

  /** An event is only there once what it reports has happened. */
  ghost predicate EventOk(key: EventKey, event: EventRow, agents: map<Id, AgentRow>, runs: map<Id, RunRow>,
                          rooms: map<Text, real>) {
    && event.owner in rooms
    && match key
       case Joined(a) => a in agents && agents[a].owner == event.owner && StartedRuns(runs, a) != {}
       case Terminal(r) => r in runs && !HeldRun(agents, runs, r) && runs[r].agent in agents
                           && agents[runs[r].agent].owner == event.owner
  }

  ghost predicate Events(db: Db) {
    forall key {:trigger EventOk(key, db.events[key], db.agents, db.runs, db.rooms)} | key in db.events :: EventOk(key, db.events[key], db.agents, db.runs, db.rooms)
  }

  // --- mails -----------------------------------------------------------------

  predicate MailOk(m: MailRow, events: map<EventKey, EventRow>, rooms: map<Text, real>, runs: map<Id, RunRow>) {
    && 1 <= m.id
    && m.owner in rooms
    && (m.event.Some? ==>
          && m.event.value in events
          && events[m.event.value].owner == m.owner
          && m.sender.FromSystem?
          && Reports(m.event.value, m.agent, m.run, runs))
  }

  /** What a lifecycle mail says of its agent and run follows from its event. */
  predicate Reports(key: EventKey, a: Text, r: Text, runs: map<Id, RunRow>) {
    match key
    case Joined(b) => b == a
    case Terminal(s) => s == r && r in runs && runs[r].agent == a
  }

  ghost predicate AscendingMails(mails: seq<MailRow>, mailSeq: nat) {
    && (forall i, j | 0 <= i < j < |mails| :: mails[i].id < mails[j].id)
    && (mails != [] ==> mails[|mails| - 1].id <= mailSeq)
  }

  predicate SameSlot(m: MailRow, n: MailRow) {
    m.event.Some? && m.event == n.event && m.recipient == n.recipient
  }

  /** UNIQUE (event_id, recipient_id), in which null events do not clash. */
  ghost predicate UniqueSlots(mails: seq<MailRow>) {
    forall i, j | 0 <= i < j < |mails| :: !SameSlot(mails[i], mails[j])
  }

  ghost predicate Mails(db: Db) {
    && (forall i {:trigger MailOk(db.mails[i], db.events, db.rooms, db.runs)} | 0 <= i < |db.mails| ::
          MailOk(db.mails[i], db.events, db.rooms, db.runs))
    && AscendingMails(db.mails, db.mailSeq)
    && UniqueSlots(db.mails)
  }

  ghost predicate Inv(db: Db) {
    && Rows(db.agents, db.runs)
    && Capacity(db.agents)
    && Queue(db.steering, db.agents)
    && Events(db)
    && Mails(db)
  }
}

/** Lifecycle mail: the texts of the notices and the broadcast of one event. */
module Notices {
  import opened Texts
  import opened Types
  import opened Order
  import Budget = MailBudget

  function PartyText(p: Party): Text {
    match p
    case Main => Ascii("main")
    case System => Ascii("system")
    case Worker(id) => id
  }

  function SenderParty(s: Sender): Party {
    match s
    case FromMain => Main
    case FromSystem => System
    case FromAgent(id, _) => Worker(id)
  }

  function SenderName(s: Sender): Text {
    match s
    case FromMain => Ascii("main")
    case FromSystem => Ascii("Subagent runtime")
    case FromAgent(_, name) => name
  }

  function SenderKind(s: Sender): Text {
    match s
    case FromMain => Ascii("main")
    case FromSystem => Ascii("system")
    case FromAgent(_, _) => Ascii("agent")
  }

  function StatusText(s: RunStatus): Text {
    match s
    case RunStarting => Ascii("starting")
    case RunRunning => Ascii("running")
    case RunCompleted => Ascii("completed")
    case RunFailed => Ascii("failed")
    case RunInterrupted => Ascii("interrupted")
    case RunCanceled => Ascii("canceled")
  }

  const TASK_BYTES := 1_000

  function JoinedBody(a: Id, name: Text, task: Text): Text {
    Ascii("Contact: ") + a + Ascii("\nName: ") + name + Ascii("\nTask: ") + Budget.Bounded(task, TASK_BYTES)
    + Ascii("\nStatus: running\n\nUse send_agent_message to contact this agent.")
  }

  function TerminalBody(a: Id, name: Text, r: Id, status: RunStatus, task: Text, error: Option<Text>): Text {
    var summary := Ascii("Agent: ") + name + Ascii(" (") + a + Ascii(")\nRun: ") + r + Ascii("\nTask: ")
                   + Budget.Bounded(task, TASK_BYTES) + Ascii("\nOutcome: ") + StatusText(status);
    match error
    case None => summary
    case Some(e) => summary + Ascii("\nError: ") + Budget.Bounded(e, TASK_BYTES)
  }

  function Subject(c: Content): Text {
    match c
    case Message(subject, _) => subject
    case JoinedNotice(name, _) => name + Ascii(" joined the team")
    case TerminalNotice(name, status, _, _) => name + Ascii(" ") + StatusText(status)
  }

  function Kind(c: Content): Text {
    match c
    case Message(_, _) => Ascii("message")
    case JoinedNotice(_, _) => Ascii("agent_joined")
    case TerminalNotice(_, status, _, _) => Ascii("run_") + StatusText(status)
  }

  /** The body as it is formatted, before any cut of the whole. */
  function RawBody(m: MailRow): Text {
    match m.content
    case Message(_, text) => text
    case JoinedNotice(name, task) => JoinedBody(m.agent, name, task)
    case TerminalNotice(name, status, task, error) => TerminalBody(m.agent, name, m.run, status, task, error)
  }

  function RawParts(m: MailRow): Budget.Parts {
    Budget.Parts(PartyText(SenderParty(m.sender)), SenderName(m.sender), SenderKind(m.sender), PartyText(m.recipient),
                 Subject(m.content), RawBody(m), Kind(m.content), m.agent, m.run)
  }

  /** The body as it is stored: notices are cut to the read budget, messages are not. */
  function StoredBody(m: MailRow): Text {
    if m.content.Message? then RawBody(m) else Budget.BoundedBody(RawParts(m))
  }

  /** The strings of a mail that its read budget counts. */
  function PartsOf(m: MailRow): Budget.Parts { RawParts(m).(body := StoredBody(m)) }

  /** One copy of a lifecycle notice about agent a and its run r. */
  function Notice(key: EventKey, a: Id, agent: AgentRow, r: Id, run: RunRow, at: real, id: nat, recipient: Party): MailRow {
    var content := match key
      case Joined(_) => JoinedNotice(agent.name, run.task)
      case Terminal(_) => TerminalNotice(agent.name, run.status, run.task, run.error);
    MailRow(id, agent.owner, Some(key), FromSystem, recipient, content, a, r, at, None)
  }

  ghost function Peers(agents: map<Id, AgentRow>, owner: Text, a: Id): set<Id> {
    set b | b in agents && agents[b].owner == owner && b != a
  }

  function Workers(ids: seq<Id>): (ws: seq<Party>)
    ensures |ws| == |ids| && forall i | 0 <= i < |ids| :: ws[i] == Worker(ids[i])
  {
    if ids == [] then [] else Workers(ids[..|ids| - 1]) + [Worker(ids[|ids| - 1])]
  }

  /** Main first, then every other agent of the room in id order. */
  ghost function Recipients(agents: map<Id, AgentRow>, owner: Text, a: Id): seq<Party> {
    [Main] + Workers(Sorted(Peers(agents, owner, a)))
  }

  /** The copies of a notice, with consecutive ids from first on. */
  function Copies(key: EventKey, a: Id, agent: AgentRow, r: Id, run: RunRow, at: real, first: nat, to: seq<Party>): (ms: seq<MailRow>)
    ensures |ms| == |to| && forall i | 0 <= i < |to| :: ms[i] == Notice(key, a, agent, r, run, at, first + i, to[i])
  {
    if to == [] then []
    else
      var n := |to| - 1;
      Copies(key, a, agent, r, run, at, first, to[..n]) + [Notice(key, a, agent, r, run, at, first + n, to[n])]
  }

  /** The event and its recipient snapshot are stored together, once per key and
      only in a room that exists. */
  ghost function PublishEvent(db: Db, key: EventKey, a: Id, r: Id, at: real): (db': Db)
    ensures db'.agents == db.agents && db'.runs == db.runs && db'.steering == db.steering && db'.rooms == db.rooms
  {
    if a !in db.agents || r !in db.runs || db.agents[a].owner !in db.rooms || key in db.events then db
    else
      var agent := db.agents[a];
      var to := Recipients(db.agents, agent.owner, a);
      db.(events := db.events[key := EventRow(agent.owner, at)],
          mails := db.mails + Copies(key, a, agent, r, db.runs[r], at, db.mailSeq + 1, to),
          mailSeq := db.mailSeq + |to|)
  }

  ghost function StartedRuns(runs: map<Id, RunRow>, a: Id): set<Id> {
    set r | r in runs && runs[r].agent == a && runs[r].startedAt.Some?
  }

  /** Only the agent's first run ever to start is announced. */
  ghost function PublishJoined(db: Db, a: Id, r: Id, at: real): Db {
    if |StartedRuns(db.runs, a)| != 1 then db else PublishEvent(db, Joined(a), a, r, at)
  }
}

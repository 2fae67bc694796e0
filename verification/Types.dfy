/** The durable background-agent domain model: statuses, rows and the database. */
module Types {
  import opened Texts

  type Id = Text

  datatype ContextMode = Fork | Fresh

  datatype AgentStatus = Starting | Running | Canceling | Idle | Failed | Interrupted | Canceled
  {
    predicate Active() { Starting? || Running? }

    predicate Claimable() { Idle? || Failed? || Interrupted? || Canceled? }

    /** The statuses in which the agents table carries a lease. */
    predicate Held() { Active() || Canceling? }
  }

  datatype RunStatus = RunStarting | RunRunning | RunCompleted | RunFailed | RunInterrupted | RunCanceled
  {
    predicate Active() { RunStarting? || RunRunning? }
  }

  /** The agent status a worker may record, with the run status that goes with it. */
  datatype TerminalStatus = TerminalIdle | TerminalFailed | TerminalInterrupted
  {
    function Agent(): AgentStatus {
      match this
      case TerminalIdle => Idle
      case TerminalFailed => Failed
      case TerminalInterrupted => Interrupted
    }

    function Run(): RunStatus {
      match this
      case TerminalIdle => RunCompleted
      case TerminalFailed => RunFailed
      case TerminalInterrupted => RunInterrupted
    }
  }

  /** The three lease columns, which are written together and cleared together. */
  datatype LeaseCells = LeaseCells(runtime: Text, token: Text, expires: real)

  datatype AgentRow = AgentRow(
    name: Text, owner: Text, child: Option<Text>, mode: ContextMode, cwd: Text,
    status: AgentStatus, activeRun: Id, generation: nat, lease: Option<LeaseCells>,
    createdAt: real, updatedAt: real)

  datatype RunRow = RunRow(
    agent: Id, generation: nat, token: Text, task: Text, status: RunStatus,
    result: Option<Text>, error: Option<Text>,
    createdAt: real, startedAt: Option<real>, completedAt: Option<real>, updatedAt: real)

  datatype SteeringRow = SteeringRow(
    id: nat, agent: Id, run: Id, generation: nat, message: Text, createdAt: real)

  /** A mailbox address: "main", "system" or an agent id. */
  datatype Party = Main | System | Worker(id: Id)

  /** The event keys "joined:<agent>" and "terminal:<run>". */
  datatype EventKey = Joined(agent: Id) | Terminal(run: Id)

  datatype EventRow = EventRow(owner: Text, createdAt: real)

  /** Who wrote a mail; an agent's name is recorded with it. */
  datatype Sender = FromMain | FromSystem | FromAgent(id: Id, name: Text)

  /** A message carries its texts. A notice carries what its texts are formatted from;
      the Notices module spells them out. */
  datatype Content =
    | Message(subject: Text, text: Text)
    | JoinedNotice(name: Text, task: Text)
    | TerminalNotice(name: Text, status: RunStatus, task: Text, error: Option<Text>)

  datatype MailRow = MailRow(
    id: nat, owner: Text, event: Option<EventKey>, sender: Sender, recipient: Party,
    content: Content, agent: Text, run: Text, createdAt: real, readAt: Option<real>)

  /** The database. Rowid tables are sequences in id order; mailSeq is the
      AUTOINCREMENT counter of the mails table, which never falls back. */
  datatype Db = Db(
    agents: map<Id, AgentRow>, runs: map<Id, RunRow>, steering: seq<SteeringRow>,
    rooms: map<Text, real>, events: map<EventKey, EventRow>,
    mails: seq<MailRow>, mailSeq: nat)

  const EmptyDb := Db(map[], map[], [], map[], map[], [], 0)

  /** Why the store itself ended a run. */
  datatype StopReason = CanceledByParent | LeaseExpired | DatabaseImported

  function Explain(reason: StopReason): Text {
    match reason
    case CanceledByParent => Ascii("agent canceled by parent")
    case LeaseExpired => Ascii("agent lease expired")
    case DatabaseImported => Ascii("agent interrupted when its database was imported")
  }

  /** What a worker holds: the claim it was given. */
  datatype LeaseKey = LeaseKey(agent: Id, run: Id, generation: nat, token: Text, runtime: Text)

  /** An agent together with a selected run. */
  datatype View = View(id: Id, agent: AgentRow, runId: Id, run: RunRow)

  datatype Identity = Identity(owner: Text, contact: Party)

  /** The store's error kinds; Invalid is a plain error, Constraint an unwrapped SQLite one. */
  datatype Error = NotFound | Conflict | Limit | LeaseLost | Invalid | Constraint

  datatype Reply<+T> = Ok(value: T) | Err(error: Error)

  const LEASE_SECONDS := 60.0
  const MAX_ACTIVE_PER_OWNER := 3
  const MAX_ACTIVE_TOTAL := 8
  const ID_BYTES := 36
  const MAX_NAME_BYTES := 48

  /** The statuses a run may have under the status of the agent it is active for. */
  predicate Agree(agent: AgentStatus, run: RunStatus) {
    match agent
    case Starting => run.RunStarting?
    case Running => run.RunRunning?
    case Canceling => run.RunCanceled?
    case Idle => run.RunCompleted?
    case Failed => run.RunFailed?
    case Interrupted => run.RunInterrupted?
    case Canceled => !run.Active()
  }
}

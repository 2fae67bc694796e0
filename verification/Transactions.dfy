/** Every store operation as one transaction: the changes it commits and what it
    returns, or the error with which it rolls everything back. */
module Transactions {
  import opened Texts
  import opened Types
  import opened Notices
  import opened Schema
  import opened Changes
  import opened Guards
  import Budget = MailBudget

  /** What a transaction gets from outside: the store's runtime id, whether its mail
      is enabled, the clock, and the order in which SQLite visits the agents table. */
  datatype Env = Env(runtime: Text, mail: bool, now: real, scan: seq<Id>)

  ghost predicate IsScan(scan: seq<Id>, agents: map<Id, AgentRow>) {
    && (forall a :: a in scan <==> a in agents)
    && forall i, j | 0 <= i < j < |scan| :: scan[i] != scan[j]
  }

  datatype Tx<+T> = Commit(log: seq<Change>, value: T) | Rollback(error: Error)
  {
    function Log(): seq<Change> { if Commit? then log else [] }

    function Reply(): Reply<T> { if Commit? then Ok(value) else Err(error) }
  }

  function Then<T>(first: seq<Change>, tx: Tx<T>): Tx<T> {
    match tx
    case Commit(log, value) => Commit(first + log, value)
    case Rollback(error) => Rollback(error)
  }

  // --- reconciliation --------------------------------------------------------

  predicate Expired(agent: AgentRow, cutoff: real) {
    agent.status.Held() && (agent.lease.None? || agent.lease.value.expires <= cutoff)
  }

  function ExpiredRows(scan: seq<Id>, agents: map<Id, AgentRow>, cutoff: real): seq<Id> {
    if scan == [] then []
    else
      var a := scan[|scan| - 1];
      ExpiredRows(scan[..|scan| - 1], agents, cutoff) + if a in agents && Expired(agents[a], cutoff) then [a] else []
  }

  function Interrupt(db: Db, a: Id, message: Text, at: real, mail: bool): Change
    requires Has(db, a)
  {
    End(a, TerminalInterrupted, db.runs[db.agents[a].activeRun].result, Some(message), db.agents[a].child, at, mail)
  }

  /** A canceling agent becomes canceled once its run is; any other is interrupted. */
  function Release(db: Db, a: Id, message: Text, at: real, mail: bool): seq<Change> {
    if !Has(db, a) then []
    else if db.agents[a].status.Canceling? then
      (if db.runs[db.agents[a].activeRun].status.RunCanceled? then [FinishCancel(a, at, mail)] else [])
    else [Interrupt(db, a, message, at, mail)]
  }

  function ReleaseAll(db: Db, rows: seq<Id>, message: Text, at: real, mail: bool): seq<Change> {
    if rows == [] then []
    else ReleaseAll(db, rows[..|rows| - 1], message, at, mail) + Release(db, rows[|rows| - 1], message, at, mail)
  }

  function ReconcileLeases(db: Db, scan: seq<Id>, cutoff: real, at: real, message: Text, mail: bool): seq<Change> {
    ReleaseAll(db, ExpiredRows(scan, db.agents, cutoff), message, at, mail)
  }

  function Reconcile(db: Db, env: Env): seq<Change> {
    ReconcileLeases(db, env.scan, env.now, env.now, Explain(LeaseExpired), env.mail)
  }

  /** The state every transaction that reconciles first goes on from. */
  ghost function Mid(db: Db, env: Env): Db { ApplyAll(db, Reconcile(db, env)) }

  // --- agents ----------------------------------------------------------------

  ghost function FetchAfter(db: Db, log: seq<Change>, a: Id, run: Option<Id>): Tx<View> {
    match Fetch(ApplyAll(db, log), a, run, [])
    case Ok(view) => Commit(log, view)
    case Err(error) => Rollback(error)
  }

  ghost function CreateTx(db: Db, env: Env, a: Id, r: Id, token: Text, owner: Text, name: Text, task: Text, cwd: Text,
                          mode: ContextMode): Tx<View> {
    if |HeldBy(db.agents, owner)| >= MAX_ACTIVE_PER_OWNER then Rollback(Limit)
    else if |HeldAgents(db.agents)| >= MAX_ACTIVE_TOTAL then Rollback(Limit)
    else if exists b :: b in db.agents && db.agents[b].owner == owner && db.agents[b].name == name then Rollback(Conflict)
    else
      FetchAfter(db, [Spawn(a, r, name, owner, mode, cwd, task,
                            LeaseCells(env.runtime, token, env.now + LEASE_SECONDS), env.now)], a, None)
  }

  ghost function ClaimTx(db: Db, env: Env, owner: Text, a: Id, r: Id, token: Text, task: Text): Tx<View> {
    match Fetch(db, a, None, owner)
    case Err(error) => Rollback(error)
    case Ok(current) =>
      if !current.agent.status.Claimable() then Rollback(Conflict)
      else if current.agent.child.None? && current.agent.status.Idle? then Rollback(Conflict)
      else if |HeldBy(db.agents, owner)| >= MAX_ACTIVE_PER_OWNER then Rollback(Limit)
      else if |HeldAgents(db.agents)| >= MAX_ACTIVE_TOTAL then Rollback(Limit)
      else if current.agent.owner != owner then Rollback(Conflict)
      else
        FetchAfter(db, [Reclaim(a, r, task, LeaseCells(env.runtime, token, env.now + LEASE_SECONDS), env.now)], a, None)
  }

  ghost function AbortTx(db: Db, env: Env, key: LeaseKey): Tx<bool> {
    match ValidateActive(db, key, env.runtime, env.now)
    case Some(error) => if error.NotFound? then Commit([], false) else Rollback(error)
    case None =>
      if key.generation != 1 || !db.agents[key.agent].status.Starting? || !db.runs[key.run].status.RunStarting?
         || db.agents[key.agent].child.Some?
      then Rollback(Conflict)
      else Commit([Remove(key.agent)], true)
  }

  ghost function CancelTx(db: Db, env: Env, owner: Text, a: Id): Tx<View> {
    match Fetch(db, a, None, owner)
    case Err(error) => Rollback(error)
    case Ok(current) =>
      if current.agent.status.Canceling? || current.agent.status.Canceled? then FetchAfter(db, [], a, None)
      else if current.agent.status.Active() then
        FetchAfter(db, [BeginCancel(a, env.now + LEASE_SECONDS, env.now)], a, None)
      else FetchAfter(db, [CancelInactive(a, env.now)], a, None)
  }

  // --- workers ---------------------------------------------------------------

  ghost function AttachTx(db: Db, env: Env, key: LeaseKey, conversation: Text, canceling: bool): Tx<View> {
    var guard := if canceling then ValidateCanceling(db, key, env.runtime, env.now)
                 else ValidateActive(db, key, env.runtime, env.now);
    if conversation == [] then Rollback(Invalid)
    else if guard.Some? then Rollback(guard.value)
    else if db.agents[key.agent].child.Some? && db.agents[key.agent].child != Some(conversation) then Rollback(Conflict)
    else if !ChildFree(db, key.agent, conversation) then Rollback(Conflict)
    else FetchAfter(db, [Attach(key.agent, conversation, env.now)], key.agent, None)
  }

  ghost function MarkRunningTx(db: Db, env: Env, key: LeaseKey, conversation: Text): Tx<View> {
    var guard := ValidateActive(db, key, env.runtime, env.now);
    if conversation == [] then Rollback(Invalid)
    else if guard.Some? then Rollback(guard.value)
    else if db.agents[key.agent].child.Some? && db.agents[key.agent].child != Some(conversation) then Rollback(Conflict)
    else if !ChildFree(db, key.agent, conversation) then Rollback(Conflict)
    else FetchAfter(db, [Start(key.agent, conversation, env.now, env.mail)], key.agent, None)
  }

  datatype TerminalUpdate = TerminalUpdate(conversation: Option<Text>, result: Option<Text>, error: Option<Text>)

  ghost function TerminalTx(db: Db, env: Env, key: LeaseKey, status: TerminalStatus, update: TerminalUpdate): Tx<View> {
    if !RowsFound(db, key) then Rollback(NotFound)
    else
      var agent, run := db.agents[key.agent], db.runs[key.run];
      if ValidateRunToken(run, key).Some? then Rollback(LeaseLost)
      else if !run.status.Active() then
        (if run.status == status.Run() && run.result == update.result && run.error == update.error
         then FetchAfter(db, [], key.agent, Some(key.run)) else Rollback(LeaseLost))
      else if ValidateActiveRows(agent, run, key, env.runtime, env.now).Some? then Rollback(LeaseLost)
      else if status.TerminalIdle? && !agent.status.Running? then Rollback(Conflict)
      else if agent.child.Some? && update.conversation.Some? && agent.child != update.conversation then Rollback(Conflict)
      else
        var resolved := if agent.child.Some? then agent.child else update.conversation;
        if status.TerminalIdle? && (resolved.None? || resolved.value == []) then Rollback(Conflict)
        else if resolved.Some? && !ChildFree(db, key.agent, resolved.value) then Rollback(Constraint)
        else
          FetchAfter(db, [End(key.agent, status, update.result, update.error, resolved, env.now, env.mail)],
                     key.agent, Some(key.run))
  }

  ghost function RenewTx(db: Db, env: Env, key: LeaseKey, canceling: bool): Tx<real> {
    var guard := if canceling then ValidateCanceling(db, key, env.runtime, env.now)
                 else ValidateActive(db, key, env.runtime, env.now);
    if guard.Some? then Rollback(guard.value)
    else Commit([Renew(key.agent, env.now + LEASE_SECONDS, env.now)], env.now + LEASE_SECONDS)
  }

  ghost function CompleteCancelTx(db: Db, env: Env, key: LeaseKey): Tx<bool> {
    if !RowsFound(db, key) then Rollback(NotFound)
    else
      var agent, run := db.agents[key.agent], db.runs[key.run];
      if ValidateRunToken(run, key).Some? then Rollback(LeaseLost)
      else if agent.activeRun != key.run || agent.generation != key.generation then Commit([], false)
      else if agent.status.Canceled? then Commit([], true)
      else if !agent.status.Canceling? then Commit([], false)
      else if ValidateCancelingRows(agent, run, key, env.runtime, env.now).Some? then Rollback(LeaseLost)
      else Commit([FinishCancel(key.agent, env.now, env.mail)], true)
  }

  function RuntimeRows(scan: seq<Id>, agents: map<Id, AgentRow>, runtime: Text): seq<Id> {
    if scan == [] then []
    else
      var a := scan[|scan| - 1];
      RuntimeRows(scan[..|scan| - 1], agents, runtime)
      + if a in agents && agents[a].status.Active() && agents[a].lease.Some? && agents[a].lease.value.runtime == runtime
        then [a] else []
  }

  function InterruptTx(db: Db, env: Env, message: Text): Tx<nat> {
    var rows := RuntimeRows(env.scan, db.agents, env.runtime);
    Commit(ReleaseAll(db, rows, message, env.now, env.mail), |rows|)
  }

  // --- steering --------------------------------------------------------------

  predicate KeyedTo(m: SteeringRow, a: Id, r: Id, g: nat) { m.agent == a && m.run == r && m.generation == g }

  predicate Queued(db: Db, a: Id, r: Id, g: nat) {
    exists i :: 0 <= i < |db.steering| && KeyedTo(db.steering[i], a, r, g)
  }

  /** The oldest message keyed to a run. */
  function Oldest(steering: seq<SteeringRow>, a: Id, r: Id, g: nat): Option<SteeringRow> {
    if steering == [] then None
    else if KeyedTo(steering[0], a, r, g) then Some(steering[0])
    else Oldest(steering[1..], a, r, g)
  }

  /** The result is whether messages were already pending. */
  ghost function EnqueueTx(db: Db, env: Env, owner: Text, a: Id, message: Text): Tx<bool> {
    match Fetch(db, a, None, owner)
    case Err(error) => Rollback(error)
    case Ok(current) =>
      if !current.agent.status.Running? || !current.run.status.RunRunning? || current.agent.child.None?
         || current.agent.lease.None? || current.agent.lease.value.expires <= env.now
      then Rollback(Conflict)
      else Commit([Enqueue(a, message, env.now)], Queued(db, a, current.runId, current.run.generation))
  }

  function NextTx(db: Db, env: Env, key: LeaseKey): Tx<Option<SteeringRow>> {
    var guard := ValidateActive(db, key, env.runtime, env.now);
    if guard.Some? then Rollback(guard.value)
    else if !db.agents[key.agent].status.Running? || !db.runs[key.run].status.RunRunning? then Rollback(LeaseLost)
    else Commit([], Oldest(db.steering, key.agent, key.run, key.generation))
  }

  function AcknowledgeTx(db: Db, env: Env, key: LeaseKey, id: nat): Tx<bool> {
    var guard := ValidateActive(db, key, env.runtime, env.now);
    if guard.Some? then Rollback(guard.value)
    else if exists i :: 0 <= i < |db.steering| && db.steering[i].id == id
                        && KeyedTo(db.steering[i], key.agent, key.run, key.generation)
    then Commit([Dequeue(id)], true)
    else Commit([], false)
  }

  // --- mail ------------------------------------------------------------------

  predicate IsChild(db: Db, conversation: Text, a: Id) {
    a in db.agents && db.agents[a].child == Some(conversation)
  }

  ghost function Participant(db: Db, conversation: Text, allowRoot: bool): Option<Identity> {
    if exists a :: IsChild(db, conversation, a) then
      var a :| IsChild(db, conversation, a);
      Some(Identity(db.agents[a].owner, Worker(a)))
    else if allowRoot then Some(Identity(conversation, Main))
    else None
  }

  ghost function Lookup(db: Db, conversation: Text, allowRoot: bool): Reply<Identity> {
    var who := Participant(db, conversation, allowRoot);
    if who.Some? && who.value.owner in db.rooms then Ok(who.value) else Err(NotFound)
  }

  ghost function JoinTx(db: Db, env: Env, conversation: Text, allowRoot: bool): Tx<Identity> {
    match Participant(db, conversation, allowRoot)
    case None => Rollback(NotFound)
    case Some(who) => Commit([OpenRoom(who.owner, env.now)], who)
  }

  function Contact(db: Db, owner: Text, p: Party): Option<Sender> {
    match p
    case Main => Some(FromMain)
    case System => None
    case Worker(a) => if Has(db, a) && db.agents[a].owner == owner then Some(FromAgent(a, db.agents[a].name)) else None
  }

  function ValidateMailbox(db: Db, who: Identity): Option<Sender> {
    if who.owner !in db.rooms || who.owner == [] then None else Contact(db, who.owner, who.contact)
  }

  /** The size of a mail in a reply that reads it. */
  function MailBytes(m: MailRow): nat { Budget.ReadBytes(PartsOf(m)) }

  predicate WithinBudget(m: MailRow) { MailBytes(m) <= Budget.MAX_MAIL_READ_BYTES }

  function SendTx(db: Db, env: Env, who: Identity, to: Party, subject: Text, body: Text): Tx<MailRow> {
    var sender := ValidateMailbox(db, who);
    if sender.None? then Rollback(NotFound)
    else if to == who.contact then Rollback(Invalid)
    else if Contact(db, who.owner, to).None? then Rollback(NotFound)
    else
      var mail := MailRow(0, who.owner, None, sender.value, to, Message(subject, body), [], [], env.now, None);
      if !WithinBudget(mail) then Rollback(Invalid)
      else Commit([Post(mail)], mail.(id := db.mailSeq + 1))
  }

  predicate Mine(m: MailRow, who: Identity, id: nat) {
    m.id == id && m.owner == who.owner && m.recipient == who.contact
  }

  function FindMail(mails: seq<MailRow>, who: Identity, id: nat): Option<MailRow> {
    if mails == [] then None
    else if Mine(mails[0], who, id) then Some(mails[0])
    else FindMail(mails[1..], who, id)
  }

  /** The selected mails in the order asked for, while their sizes stay in the budget. */
  function Collect(mails: seq<MailRow>, who: Identity, ids: seq<nat>, total: nat, size: MailRow -> nat): Reply<seq<MailRow>> {
    if ids == [] then Ok([])
    else
      match FindMail(mails, who, ids[0])
      case None => Err(NotFound)
      case Some(m) =>
        if total + size(m) > Budget.MAX_MAIL_READ_BYTES then Err(Invalid)
        else
          match Collect(mails, who, ids[1..], total + size(m), size)
          case Ok(rest) => Ok([m] + rest)
          case Err(error) => Err(error)
  }

  const MAX_READ_MAILS := 10

  predicate Distinct(ids: seq<nat>) {
    (forall i | 0 <= i < |ids| :: ids[i] > 0) && forall i, j | 0 <= i < j < |ids| :: ids[i] != ids[j]
  }

  function ReadEach(mails: seq<MailRow>, at: real): (read: seq<MailRow>)
    ensures |read| == |mails| && forall i | 0 <= i < |mails| :: read[i] == Read(mails[i], at)
  {
    seq(|mails|, i requires 0 <= i < |mails| => Read(mails[i], at))
  }

  function IdSet(ids: seq<nat>): set<nat> { set id | id in ids }

  function ReadWith(db: Db, env: Env, who: Identity, ids: seq<nat>, size: MailRow -> nat): Tx<seq<MailRow>> {
    if ids == [] || |ids| > MAX_READ_MAILS || !Distinct(ids) then Rollback(Invalid)
    else if ValidateMailbox(db, who).None? then Rollback(NotFound)
    else
      match Collect(db.mails, who, ids, 0, size)
      case Err(error) => Rollback(error)
      case Ok(found) => Commit([MarkRead(IdSet(ids), env.now)], ReadEach(found, env.now))
  }

  function ReadTx(db: Db, env: Env, who: Identity, ids: seq<nat>): Tx<seq<MailRow>> {
    ReadWith(db, env, who, ids, MailBytes)
  }

  predicate TerminalNoticeFor(m: MailRow, owner: Text, a: Id, r: Id) {
    && m.owner == owner && m.recipient == Main && m.sender.FromSystem?
    && m.event == Some(Terminal(r)) && m.agent == a && m.run == r && m.readAt.None?
  }

  ghost function AckTerminalTx(db: Db, env: Env, owner: Text, a: Id, r: Id): Tx<()> {
    var ids := set i | 0 <= i < |db.mails| && TerminalNoticeFor(db.mails[i], owner, a, r) :: db.mails[i].id;
    Commit([MarkRead(ids, env.now)], ())
  }

  // --- requests --------------------------------------------------------------

  /** What callers ask of the store, each served by one transaction. */
  datatype Request =
    | Create(a: Id, r: Id, token: Text, owner: Text, name: Text, task: Text, cwd: Text, mode: ContextMode)
    | Get(owner: Text, a: Id, run: Option<Id>)
    | Claim(owner: Text, a: Id, r: Id, token: Text, task: Text)
    | Abort(key: LeaseKey)
    | Cancel(owner: Text, a: Id)
    | AttachConversation(key: LeaseKey, conversation: Text)
    | AttachCanceling(key: LeaseKey, conversation: Text)
    | MarkRunning(key: LeaseKey, conversation: Text)
    | Finish(key: LeaseKey, status: TerminalStatus, update: TerminalUpdate)
    | Heartbeat(key: LeaseKey)
    | HeartbeatCanceling(key: LeaseKey)
    | CompleteCancel(key: LeaseKey)
    | InterruptRuntime(message: Text)
    | ReconcileExpired
    | EnqueueSteering(owner: Text, a: Id, message: Text)
    | NextSteering(key: LeaseKey)
    | AcknowledgeSteering(key: LeaseKey, id: nat)
    | JoinMailbox(conversation: Text, allowRoot: bool)
    | SendMail(who: Identity, to: Party, subject: Text, body: Text)
    | ReadMails(who: Identity, ids: seq<nat>)
    | AckTerminalMail(owner: Text, a: Id, r: Id)

  /** Mail is sent, read and acknowledged without reconciling first. */
  predicate Reconciles(req: Request) {
    !(req.SendMail? || req.ReadMails? || req.AckTerminalMail?)
  }

  /** What an operation does once expired claims are reconciled. */
  ghost function Body(db: Db, env: Env, req: Request): Tx<()>
    requires Reconciles(req)
  {
    match req
    case Create(a, r, token, owner, name, task, cwd, mode) => Forget(CreateTx(db, env, a, r, token, owner, name, task, cwd, mode))
    case Get(owner, a, run) => (match Fetch(db, a, run, owner) case Ok(_) => Commit([], ()) case Err(error) => Rollback(error))
    case Claim(owner, a, r, token, task) => Forget(ClaimTx(db, env, owner, a, r, token, task))
    case Abort(key) => Forget(AbortTx(db, env, key))
    case Cancel(owner, a) => Forget(CancelTx(db, env, owner, a))
    case AttachConversation(key, conversation) => Forget(AttachTx(db, env, key, conversation, false))
    case AttachCanceling(key, conversation) => Forget(AttachTx(db, env, key, conversation, true))
    case MarkRunning(key, conversation) => Forget(MarkRunningTx(db, env, key, conversation))
    case Finish(key, status, update) => Forget(TerminalTx(db, env, key, status, update))
    case Heartbeat(key) => Forget(RenewTx(db, env, key, false))
    case HeartbeatCanceling(key) => Forget(RenewTx(db, env, key, true))
    case CompleteCancel(key) => Forget(CompleteCancelTx(db, env, key))
    case InterruptRuntime(message) => Forget(InterruptTx(db, env, message))
    case ReconcileExpired => Commit([], ())
    case EnqueueSteering(owner, a, message) => Forget(EnqueueTx(db, env, owner, a, message))
    case NextSteering(key) => Forget(NextTx(db, env, key))
    case AcknowledgeSteering(key, id) => Forget(AcknowledgeTx(db, env, key, id))
    case JoinMailbox(conversation, allowRoot) => Forget(JoinTx(db, env, conversation, allowRoot))
  }

  function Forget<T>(tx: Tx<T>): Tx<()> {
    match tx
    case Commit(log, _) => Commit(log, ())
    case Rollback(error) => Rollback(error)
  }

  ghost function Transaction(db: Db, env: Env, req: Request): Tx<()> {
    match req
    case SendMail(who, to, subject, body) => Forget(SendTx(db, env, who, to, subject, body))
    case ReadMails(who, ids) => Forget(ReadTx(db, env, who, ids))
    case AckTerminalMail(owner, a, r) => AckTerminalTx(db, env, owner, a, r)
    case _ => Then(Reconcile(db, env), Body(Mid(db, env), env, req))
  }

  /** The database after a request: all of the transaction, or nothing of it. */
  ghost function Serve(db: Db, env: Env, req: Request): Db {
    ApplyAll(db, Transaction(db, env, req).Log())
  }

  /** What is assumed of a request: the scan lists the agents, generated ids are fresh
      and of their fixed size, and a name has been validated. */
  ghost predicate Possible(db: Db, env: Env, req: Request) {
    && IsScan(env.scan, db.agents)
    && (req.Create? ==> req.a !in db.agents && req.r !in db.runs && |req.a| == |req.r| == ID_BYTES
                        && |req.name| <= MAX_NAME_BYTES)
    && (req.Claim? ==> req.r !in db.runs && |req.r| == ID_BYTES)
  }
}

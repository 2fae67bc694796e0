/** The effects transactions commit. A committed transaction is a sequence of these;
    Legal is what the transaction has checked before it makes the change. */
module Changes {
  import opened Texts
  import opened Types
  import opened Notices
  import opened Schema

  datatype Change =
    | Spawn(a: Id, r: Id, name: Text, owner: Text, mode: ContextMode, cwd: Text, task: Text, cells: LeaseCells, at: real)
    | Reclaim(a: Id, r: Id, task: Text, cells: LeaseCells, at: real)
    | Renew(a: Id, expires: real, at: real)
    | Attach(a: Id, child: Text, at: real)
    | Start(a: Id, child: Text, at: real, mail: bool)
    | End(a: Id, outcome: TerminalStatus, result: Option<Text>, error: Option<Text>, conversation: Option<Text>, at: real, mail: bool)
    | BeginCancel(a: Id, expires: real, at: real)
    | FinishCancel(a: Id, at: real, mail: bool)
    | CancelInactive(a: Id, at: real)
    | Remove(a: Id)
    | Enqueue(a: Id, message: Text, at: real)
    | Dequeue(id: nat)
    | OpenRoom(owner: Text, at: real)
    | Post(m: MailRow)
    | MarkRead(ids: set<nat>, at: real)

  function Rekey(steering: seq<SteeringRow>, a: Id, r: Id, g: nat): seq<SteeringRow> {
    seq(|steering|, i requires 0 <= i < |steering| =>
      if steering[i].agent == a then steering[i].(run := r, generation := g) else steering[i])
  }

  function DropRun(steering: seq<SteeringRow>, a: Id, r: Id, g: nat): seq<SteeringRow> {
    if steering == [] then []
    else
      var m := steering[|steering| - 1];
      DropRun(steering[..|steering| - 1], a, r, g)
      + if m.agent == a && m.run == r && m.generation == g then [] else [m]
  }

  function DropAgent(steering: seq<SteeringRow>, a: Id): seq<SteeringRow> {
    if steering == [] then []
    else
      var m := steering[|steering| - 1];
      DropAgent(steering[..|steering| - 1], a) + if m.agent == a then [] else [m]
  }

  function DropId(steering: seq<SteeringRow>, id: nat): seq<SteeringRow> {
    if steering == [] then []
    else
      var m := steering[|steering| - 1];
      DropId(steering[..|steering| - 1], id) + if m.id == id then [] else [m]
  }

  /** The rowid SQLite gives a new steering message: one past the largest present. */
  function NextRowid(steering: seq<SteeringRow>): nat {
    if steering == [] then 1 else steering[|steering| - 1].id + 1
  }

  function Read(m: MailRow, at: real): MailRow {
    if m.readAt.Some? then m else m.(readAt := Some(at))
  }

  function ReadAll(mails: seq<MailRow>, ids: set<nat>, at: real): seq<MailRow> {
    seq(|mails|, i requires 0 <= i < |mails| => if mails[i].id in ids then Read(mails[i], at) else mails[i])
  }

  /** An agent's row and its active run's row. */
  predicate Has(db: Db, a: Id) { a in db.agents && db.agents[a].activeRun in db.runs }

  /** The in-place effect of a change on an agent's row; other columns are kept. */
  function NewAgentRow(agent: AgentRow, c: Change): AgentRow {
    match c
    case Renew(_, expires, at) =>
      if agent.lease.Some? then agent.(lease := Some(agent.lease.value.(expires := expires)), updatedAt := at) else agent
    case Attach(_, child, at) => agent.(child := Some(child), updatedAt := at)
    case Start(_, child, at, _) => agent.(child := Some(child), status := Running, updatedAt := at)
    case End(_, outcome, _, _, child, at, _) =>
      agent.(child := child, status := outcome.Agent(), lease := None, updatedAt := at)
    case BeginCancel(_, expires, at) =>
      agent.(status := Canceling, updatedAt := at,
             lease := if agent.lease.Some? then Some(agent.lease.value.(expires := expires)) else None)
    case FinishCancel(_, at, _) => agent.(status := Canceled, lease := None, updatedAt := at)
    case CancelInactive(_, at) => agent.(status := Canceled, lease := None, updatedAt := at)
    case _ => agent
  }

  /** The in-place effect on the active run's row. */
  function NewRunRow(run: RunRow, c: Change): RunRow {
    match c
    case Start(_, _, at, _) =>
      run.(status := RunRunning, startedAt := if run.startedAt.Some? then run.startedAt else Some(at), updatedAt := at)
    case End(_, outcome, result, error, _, at, _) =>
      run.(status := outcome.Run(), result := result, error := error, completedAt := Some(at), updatedAt := at)
    case BeginCancel(_, _, at) =>
      run.(status := RunCanceled, error := Some(Explain(CanceledByParent)), completedAt := Some(at), updatedAt := at)
    case _ => run
  }

  predicate InPlace(c: Change) {
    c.Renew? || c.Attach? || c.Start? || c.End? || c.BeginCancel? || c.FinishCancel? || c.CancelInactive?
  }

  /** Whether the rows a change is about are there; if not, its statements match nothing. */
  predicate Applies(db: Db, c: Change) {
    && (InPlace(c) || c.Enqueue? ==> Has(db, c.a))
    && (c.Reclaim? ==> c.a in db.agents)
  }

  function NewAgents(db: Db, c: Change): map<Id, AgentRow>
    requires Applies(db, c)
  {
    if InPlace(c) then db.agents[c.a := NewAgentRow(db.agents[c.a], c)]
    else if c.Spawn? then
      db.agents[c.a := AgentRow(c.name, c.owner, None, c.mode, c.cwd, Starting, c.r, 1, Some(c.cells), c.at, c.at)]
    else if c.Reclaim? then
      db.agents[c.a := db.agents[c.a].(status := Starting, activeRun := c.r, lease := Some(c.cells), updatedAt := c.at,
                                       generation := db.agents[c.a].generation + 1)]
    else if c.Remove? then db.agents - {c.a}
    else db.agents
  }

  /** Runs of a removed agent go with it. */
  function NewRuns(db: Db, c: Change): map<Id, RunRow>
    requires Applies(db, c)
  {
    if InPlace(c) then
      var r := db.agents[c.a].activeRun;
      db.runs[r := NewRunRow(db.runs[r], c)]
    else if c.Spawn? || c.Reclaim? then
      db.runs[c.r := RunRow(c.a, NewAgents(db, c)[c.a].generation, c.cells.token, c.task, RunStarting,
                            None, None, c.at, None, None, c.at)]
    else if c.Remove? then map r | r in db.runs && db.runs[r].agent != c.a :: db.runs[r]
    else db.runs
  }

  function NewSteering(db: Db, c: Change): seq<SteeringRow>
    requires Applies(db, c)
  {
    if c.BeginCancel? || c.CancelInactive? then
      DropRun(db.steering, c.a, db.agents[c.a].activeRun, db.runs[db.agents[c.a].activeRun].generation)
    else if c.Remove? then DropAgent(db.steering, c.a)
    else if c.Dequeue? then DropId(db.steering, c.id)
    else if c.Enqueue? then
      db.steering + [SteeringRow(NextRowid(db.steering), c.a, db.agents[c.a].activeRun,
                                 db.runs[db.agents[c.a].activeRun].generation, c.message, c.at)]
    else if c.Reclaim? then Rekey(db.steering, c.a, c.r, db.agents[c.a].generation + 1)
    else db.steering
  }

  /** The notice that is stored with a change of rows. */
  ghost function Announce(db: Db, before: Db, c: Change): (db': Db)
    requires Applies(before, c)
    ensures db'.agents == db.agents && db'.runs == db.runs && db'.steering == db.steering && db'.rooms == db.rooms
  {
    if c.Start? && c.mail && before.runs[before.agents[c.a].activeRun].startedAt.None? then
      PublishJoined(db, c.a, before.agents[c.a].activeRun, c.at)
    else if (c.End? || c.FinishCancel?) && c.mail then
      PublishEvent(db, Terminal(before.agents[c.a].activeRun), c.a, before.agents[c.a].activeRun, c.at)
    else db
  }

  ghost function Apply(db: Db, c: Change): Db {
    if !Applies(db, c) then db
    else if c.OpenRoom? then (if c.owner in db.rooms then db else db.(rooms := db.rooms[c.owner := c.at]))
    else if c.Post? then db.(mails := db.mails + [c.m.(id := db.mailSeq + 1)], mailSeq := db.mailSeq + 1)
    else if c.MarkRead? then db.(mails := ReadAll(db.mails, c.ids, c.at))
    else Announce(db.(agents := NewAgents(db, c), runs := NewRuns(db, c), steering := NewSteering(db, c)), db, c)
  }

  predicate ChildFree(db: Db, a: Id, child: Text) {
    forall b | b in db.agents && b != a :: db.agents[b].child != Some(child)
  }

  ghost predicate RoomForOne(db: Db, owner: Text) {
    |HeldBy(db.agents, owner)| < MAX_ACTIVE_PER_OWNER && |HeldAgents(db.agents)| < MAX_ACTIVE_TOTAL
  }

  ghost predicate Legal(db: Db, c: Change)
    ensures Legal(db, c) ==> Applies(db, c)
  {
    match c
    case Spawn(a, r, name, owner, _, _, _, _, _) =>
      && a !in db.agents && r !in db.runs && |a| == |r| == ID_BYTES && |name| <= MAX_NAME_BYTES
      && (forall b | b in db.agents && db.agents[b].owner == owner :: db.agents[b].name != name)
      && RoomForOne(db, owner)
    case Reclaim(a, r, _, _, _) =>
      && a in db.agents && r !in db.runs && |r| == ID_BYTES
      && db.agents[a].status.Claimable() && RoomForOne(db, db.agents[a].owner)
    case Renew(a, _, _) => Has(db, a) && db.agents[a].status.Held()
    case Attach(a, child, _) =>
      && Has(db, a) && db.agents[a].status.Held()
      && (db.agents[a].child.Some? ==> db.agents[a].child == Some(child)) && ChildFree(db, a, child)
    case Start(a, child, _, _) =>
      && Has(db, a) && db.agents[a].status.Active() && db.runs[db.agents[a].activeRun].status.Active()
      && (db.agents[a].child.Some? ==> db.agents[a].child == Some(child)) && ChildFree(db, a, child)
    case End(a, outcome, _, _, child, _, _) =>
      && Has(db, a) && db.agents[a].status.Active() && db.runs[db.agents[a].activeRun].status.Active()
      && (outcome.TerminalIdle? ==> db.agents[a].status.Running?)
      && (db.agents[a].child.Some? ==> db.agents[a].child == child)
      && (child.Some? ==> ChildFree(db, a, child.value))
    case BeginCancel(a, _, _) => Has(db, a) && db.agents[a].status.Active()
    case FinishCancel(a, _, _) => Has(db, a) && db.agents[a].status.Canceling?
    case CancelInactive(a, _) => Has(db, a) && db.agents[a].status.Claimable()
    case Remove(a) =>
      && Has(db, a) && db.agents[a].status.Starting? && db.agents[a].generation == 1 && db.agents[a].child.None?
    case Enqueue(a, _, _) => Has(db, a) && db.agents[a].status.Running?
    case Dequeue(_) => true
    case OpenRoom(_, _) => true
    case Post(m) => m.owner in db.rooms && m.event.None? && m.content.Message? && m.readAt.None?
    case MarkRead(_, _) => true
  }

  ghost function ApplyAll(db: Db, cs: seq<Change>): Db {
    if cs == [] then db else Apply(ApplyAll(db, cs[..|cs| - 1]), cs[|cs| - 1])
  }

  ghost predicate LegalAll(db: Db, cs: seq<Change>) {
    cs != [] ==>
      LegalAll(db, cs[..|cs| - 1]) && Legal(ApplyAll(db, cs[..|cs| - 1]), cs[|cs| - 1])
  }

  lemma ApplySnoc(db: Db, cs: seq<Change>, c: Change)
    ensures ApplyAll(db, cs + [c]) == Apply(ApplyAll(db, cs), c)
    ensures LegalAll(db, cs + [c]) <==> LegalAll(db, cs) && Legal(ApplyAll(db, cs), c)
  {
    assert (cs + [c])[..|cs|] == cs;
  }

  lemma {:induction false} ApplyConcat(db: Db, cs: seq<Change>, ds: seq<Change>)
    ensures ApplyAll(db, cs + ds) == ApplyAll(ApplyAll(db, cs), ds)
    ensures LegalAll(db, cs + ds) <==> LegalAll(db, cs) && LegalAll(ApplyAll(db, cs), ds)
  {
    if ds == [] {
      assert cs + ds == cs;
    } else {
      ApplyConcat(db, cs, ds[..|ds| - 1]);
      assert (cs + ds)[..|cs + ds| - 1] == cs + ds[..|ds| - 1];
    }
  }
}

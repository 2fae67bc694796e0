/** What the store answers callers who hold no claim: an agent's owner, the session, and the
    contacts of a mailbox room. */
module CallerAnswers {
  import opened Texts
  import opened Types
  import opened Schema
  import opened Changes
  import opened Coherence
  import opened Guards
  import opened Transactions
  import opened Reconciliation
  import opened Legality
  import opened Fencing
  import opened Steering
  import opened WorkerAnswers

  // --- agents by owner -------------------------------------------------------

  /** The agent belongs to the owner; an empty owner is anyone. */
  predicate Belongs(db: Db, owner: Text, a: Id) { a in db.agents && (owner == [] || db.agents[a].owner == owner) }

  /** The run a caller selects of an agent: the active one unless it names another. */
  function Selected(db: Db, a: Id, run: Option<Id>): Id
    requires a in db.agents
  {
    if run.Some? then run.value else db.agents[a].activeRun
  }

  /** The agent is the owner's, and the run is one of its own. */
  predicate Shown(db: Db, owner: Text, a: Id, run: Option<Id>) {
    Belongs(db, owner, a) && Selected(db, a, run) in db.runs && db.runs[Selected(db, a, run)].agent == a
  }

  /** An owner sees its own agents with any of their runs, and nothing of anybody else's. */
  lemma FetchAnswers(db: Db, a: Id, run: Option<Id>, owner: Text)
    requires Inv(db)
    ensures Fetch(db, a, run, owner) ==
              if Shown(db, owner, a, run)
              then Ok(View(a, db.agents[a], Selected(db, a, run), db.runs[Selected(db, a, run)])) else Err(NotFound)
    ensures Shown(db, owner, a, None) <==> Belongs(db, owner, a)
  {
    if a in db.agents {
      AgentFact(db.agents, db.runs, a);
    }
  }

  /** Fewer than three claims of the owner and fewer than eight in all. */
  ghost predicate HasRoom(db: Db, owner: Text) { |HeldBy(db.agents, owner)| < 3 && |HeldAgents(db.agents)| < 8 }

  // --- reservations ----------------------------------------------------------

  ghost predicate NameFree(db: Db, owner: Text, name: Text) {
    forall b | b in db.agents && db.agents[b].owner == owner :: db.agents[b].name != name
  }

  ghost predicate OnlyAdds(db: Db, db': Db, a: Id, r: Id) {
    && a in db'.agents && r in db'.runs && a !in db.agents && r !in db.runs
    && db'.agents == db.agents[a := db'.agents[a]] && db'.runs == db.runs[r := db'.runs[r]]
    && db'.steering == db.steering && db'.mails == db.mails && db'.rooms == db.rooms && db'.events == db.events
  }

  function SpawnOf(env: Env, req: Request): Change
    requires req.Create?
  {
    Spawn(req.a, req.r, req.name, req.owner, req.mode, req.cwd, req.task,
          LeaseCells(env.runtime, req.token, env.now + LEASE_SECONDS), env.now)
  }

  lemma SpawnedRows(db: Db, c: Change)
    requires c.Spawn? && Legal(db, c)
    ensures var db' := ApplyAll(db, [c]);
            && OnlyAdds(db, db', c.a, c.r)
            && db'.agents[c.a] == AgentRow(c.name, c.owner, None, c.mode, c.cwd, Starting, c.r, 1, Some(c.cells), c.at, c.at)
            && db'.runs[c.r] == RunRow(c.a, 1, c.cells.token, c.task, RunStarting, None, None, c.at, None, None, c.at)
  {
    OneLegal(db, c);
    RowsAfter(db, c);
  }

  /** A new agent is accepted if and only if both limits leave room and its owner has none
      of that name. It starts its first run under a lease for a minute, with the name, owner,
      mode, directory and task it was given, and everything else stays as it was. */
  lemma CreateAnswers(db: Db, env: Env, req: Request)
    requires Inv(db) && req.Create? && Possible(db, env, req)
    ensures var tx := CreateTx(db, env, req.a, req.r, req.token, req.owner, req.name, req.task, req.cwd, req.mode);
            if !HasRoom(db, req.owner) then tx == Rollback(Limit)
            else if !NameFree(db, req.owner, req.name) then tx == Rollback(Conflict)
            else tx.Commit? && CreatedAs(db, ApplyAll(db, tx.log), env, req)
                 && tx.value == View(req.a, ApplyAll(db, tx.log).agents[req.a], req.r, ApplyAll(db, tx.log).runs[req.r])
  {
    if HasRoom(db, req.owner) && NameFree(db, req.owner, req.name) {
      SpawnedRows(db, SpawnOf(env, req));
    }
  }

  ghost predicate CreatedAs(db: Db, db': Db, env: Env, req: Request)
    requires req.Create?
  {
    && OnlyAdds(db, db', req.a, req.r)
    && (var row := db'.agents[req.a];
        && row.name == req.name && row.owner == req.owner && row.mode == req.mode && row.cwd == req.cwd
        && row.child.None? && row.status.Starting? && row.activeRun == req.r && row.generation == 1
        && row.lease == Some(LeaseCells(env.runtime, req.token, env.now + 60.0)))
    && (var run := db'.runs[req.r];
        && run.agent == req.a && run.generation == 1 && run.token == req.token && run.task == req.task
        && run.status.RunStarting? && run.result.None? && run.error.None? && run.startedAt.None? && run.completedAt.None?)
  }

  /** An agent that can take a follow-up: no claim holds it, and if it is idle there is a
      conversation to go on with. */
  predicate Resumable(row: AgentRow) { !row.status.Held() && (row.status.Idle? ==> row.child.Some?) }

  lemma ReclaimedRows(db: Db, c: Change)
    requires c.Reclaim? && Legal(db, c)
    ensures var db' := ApplyAll(db, [c]);
            var g := db.agents[c.a].generation + 1;
            && db'.agents == db.agents[c.a := db.agents[c.a].(status := Starting, activeRun := c.r, lease := Some(c.cells),
                                                              updatedAt := c.at, generation := g)]
            && db'.runs == db.runs[c.r := RunRow(c.a, g, c.cells.token, c.task, RunStarting, None, None, c.at, None, None, c.at)]
  {
    OneLegal(db, c);
    RowsAfter(db, c);
  }

  /** A follow-up is accepted from the agent's owner if and only if the agent can take one
      and both limits leave room; otherwise an agent the owner does not have is not found,
      one that cannot take it is a conflict, and a limit is a limit. */
  lemma ClaimAnswers(db: Db, env: Env, req: Request)
    requires Inv(db) && req.Claim? && Possible(db, env, req)
    ensures var tx := ClaimTx(db, env, req.owner, req.a, req.r, req.token, req.task);
            if !Belongs(db, req.owner, req.a) then tx == Rollback(NotFound)
            else if !Resumable(db.agents[req.a]) then tx == Rollback(Conflict)
            else if !HasRoom(db, req.owner) then tx == Rollback(Limit)
            else if db.agents[req.a].owner != req.owner then tx == Rollback(Conflict)
            else tx.Commit? && ClaimedAs(db, ApplyAll(db, tx.log), env, req)
                 && tx.value == View(req.a, ApplyAll(db, tx.log).agents[req.a], req.r, ApplyAll(db, tx.log).runs[req.r])
  {
    FetchAnswers(db, req.a, None, req.owner);
    if Belongs(db, req.owner, req.a) && Resumable(db.agents[req.a]) && HasRoom(db, req.owner)
       && db.agents[req.a].owner == req.owner {
      ReclaimFetches(db, env, req);
    }
  }

  function ReclaimOf(env: Env, req: Request): Change
    requires req.Claim?
  {
    Reclaim(req.a, req.r, req.task, LeaseCells(env.runtime, req.token, env.now + LEASE_SECONDS), env.now)
  }

  lemma ReclaimFetches(db: Db, env: Env, req: Request)
    requires Inv(db) && req.Claim? && Possible(db, env, req) && req.a in db.agents && db.agents[req.a].owner == req.owner
    requires Resumable(db.agents[req.a]) && HasRoom(db, req.owner)
    ensures var tx := FetchAfter(db, [ReclaimOf(env, req)], req.a, None);
            var db' := ApplyAll(db, [ReclaimOf(env, req)]);
            && tx.Commit? && tx.log == [ReclaimOf(env, req)] && ClaimedAs(db, db', env, req)
            && tx.value == View(req.a, db'.agents[req.a], req.r, db'.runs[req.r])
  {
    ReclaimedRows(db, ReclaimOf(env, req));
  }

  ghost predicate ClaimedAs(db: Db, db': Db, env: Env, req: Request)
    requires req.Claim?
  {
    && req.a in db.agents && req.a in db'.agents && req.r in db'.runs && req.r !in db.runs
    && db'.agents == db.agents[req.a := db'.agents[req.a]] && db'.runs == db.runs[req.r := db'.runs[req.r]]
    && (var row, row' := db.agents[req.a], db'.agents[req.a];
        && row'.status.Starting? && row'.activeRun == req.r && row'.generation == row.generation + 1
        && row'.lease == Some(LeaseCells(env.runtime, req.token, env.now + 60.0))
        && row'.child == row.child && row'.owner == row.owner && row'.name == row.name
        && row'.mode == row.mode && row'.cwd == row.cwd)
    && (var run := db'.runs[req.r];
        && run.agent == req.a && run.generation == db.agents[req.a].generation + 1 && run.token == req.token
        && run.task == req.task && run.status.RunStarting? && run.result.None? && run.error.None?
        && run.startedAt.None? && run.completedAt.None?)
  }

  lemma ReservationBody(db: Db, env: Env, req: Request)
    requires req.Claim? || req.Create?
    ensures Body(db, env, req).Commit? <==>
              (if req.Claim? then ClaimTx(db, env, req.owner, req.a, req.r, req.token, req.task).Commit?
               else CreateTx(db, env, req.a, req.r, req.token, req.owner, req.name, req.task, req.cwd, req.mode).Commit?)
  {
  }

  /** Served from any coherent state: the owner's follow-up is committed if and only if, once
      expired claims are released, the agent can take it and both limits leave room. */
  lemma ClaimServed(db: Db, env: Env, req: Request)
    requires Inv(db) && req.Claim? && Possible(db, env, req) && req.a in db.agents && db.agents[req.a].owner == req.owner
    ensures req.a in Mid(db, env).agents
    ensures Transaction(db, env, req).Commit? <==> Resumable(Mid(db, env).agents[req.a]) && HasRoom(Mid(db, env), req.owner)
  {
    MidFacts(db, env);
    ClaimAnswers(Mid(db, env), env, req);
    ReservationBody(Mid(db, env), env, req);
    LogOf(db, env, req);
    CommitsAsBody(db, env, req);
  }

  lemma CommitsAsBody(db: Db, env: Env, req: Request)
    requires Reconciles(req)
    ensures Transaction(db, env, req).Commit? <==> Body(Mid(db, env), env, req).Commit?
  {
  }

  // --- cancellation ----------------------------------------------------------

  /** What canceling makes of an agent: one that is active gets a minute to clean up, any
      other that was not canceled yet is canceled at once, and one that was stays as it is. */
  ghost predicate CanceledAs(db: Db, db': Db, env: Env, a: Id)
    requires a in db.agents && db.agents[a].activeRun in db.runs
  {
    var row, run := db.agents[a], db.runs[db.agents[a].activeRun];
    if row.status.Canceling? || row.status.Canceled? then db' == db
    else
      && OnlyRows(db, db', a) && Of(db'.steering, a) == []
      && (var row', run' := db'.agents[a], db'.runs[row.activeRun];
          && row'.child == row.child && row'.activeRun == row.activeRun && row'.generation == row.generation
          && if row.status.Active() then
               && row'.status.Canceling? && row.lease.Some?
               && row'.lease == Some(row.lease.value.(expires := env.now + 60.0))
               && run'.status.RunCanceled? && run'.error == Some(Explain(CanceledByParent)) && run'.completedAt == Some(env.now)
             else row'.status.Canceled? && row'.lease.None? && run' == run)
  }

  function CancelOf(row: AgentRow, env: Env, a: Id): Change {
    if row.status.Active() then BeginCancel(a, env.now + LEASE_SECONDS, env.now) else CancelInactive(a, env.now)
  }

  lemma CancelRows(db: Db, env: Env, a: Id)
    requires Inv(db) && a in db.agents && !db.agents[a].status.Canceling? && !db.agents[a].status.Canceled?
    ensures Has(db, a) && CanceledAs(db, ApplyAll(db, [CancelOf(db.agents[a], env, a)]), env, a)
  {
    var c := CancelOf(db.agents[a], env, a);
    AgentFact(db.agents, db.runs, a);
    InPlaceRows(db, c);
    DiscardBalances(db, a, c, Ledger([], []));
    OneLegal(db, c);
    SteeringAfter(db, c);
    assert db.agents[a].status.Active() || db.agents[a].status.Claimable();
  }

  /** An owner may cancel any agent it has, at any time. */
  lemma CancelAnswers(db: Db, env: Env, owner: Text, a: Id)
    requires Inv(db)
    ensures var tx := CancelTx(db, env, owner, a);
            if !Belongs(db, owner, a) then tx == Rollback(NotFound)
            else
              var db' := ApplyAll(db, tx.Log());
              && Has(db, a) && tx.Commit? && CanceledAs(db, db', env, a) && Has(db', a)
              && tx.value == View(a, db'.agents[a], db.agents[a].activeRun, db'.runs[db.agents[a].activeRun])
  {
    FetchAnswers(db, a, None, owner);
    if Belongs(db, owner, a) {
      AgentFact(db.agents, db.runs, a);
      assert ApplyAll(db, []) == db;
      if !db.agents[a].status.Canceling? && !db.agents[a].status.Canceled? {
        CancelRows(db, env, a);
      }
    }
  }

  // --- steering --------------------------------------------------------------

  lemma QueuedIsPending(db: Db, a: Id)
    requires Inv(db) && a in db.agents
    ensures Queued(db, a, db.agents[a].activeRun, db.agents[a].generation) <==> Pending(db, a) != []
  {
    QueueKeyed(db, a);
    OldestIsHead(db.steering, a, db.agents[a].activeRun, db.agents[a].generation);
    SomeIsOldest(db.steering, a, db.agents[a].activeRun, db.agents[a].generation);
  }

  lemma {:induction false} SomeIsOldest(steering: seq<SteeringRow>, a: Id, r: Id, g: nat)
    ensures Oldest(steering, a, r, g).Some? <==> exists i :: 0 <= i < |steering| && KeyedTo(steering[i], a, r, g)
  {
    if steering != [] && !KeyedTo(steering[0], a, r, g) {
      SomeIsOldest(steering[1..], a, r, g);
      assert forall i | 1 <= i < |steering| :: steering[i] == steering[1..][i - 1];
    }
  }

  /** An owner may steer an agent if and only if a claim that has not expired is running
      it. The message goes to the end of the agent's queue, and the answer tells whether
      others are waiting there. */
  lemma EnqueueAnswers(db: Db, env: Env, owner: Text, a: Id, message: Text)
    requires Inv(db)
    ensures var tx := EnqueueTx(db, env, owner, a, message);
            if !Belongs(db, owner, a) then tx == Rollback(NotFound)
            else if !db.agents[a].status.Running? || Expired(db.agents[a], env.now) then tx == Rollback(Conflict)
            else
              var db' := ApplyAll(db, tx.Log());
              && tx.Commit? && (tx.value <==> Pending(db, a) != [])
              && Pending(db', a) == Pending(db, a) + [message] && (forall b | b != a :: Pending(db', b) == Pending(db, b))
              && db'.agents == db.agents && db'.runs == db.runs
  {
    FetchAnswers(db, a, None, owner);
    if Belongs(db, owner, a) {
      AgentFact(db.agents, db.runs, a);
      QueuedIsPending(db, a);
      if db.agents[a].status.Running? && !Expired(db.agents[a], env.now) {
        EnqueueRows(db, env, a, message);
      }
    }
  }

  lemma EnqueueRows(db: Db, env: Env, a: Id, message: Text)
    requires Inv(db) && Has(db, a) && db.agents[a].status.Running?
    ensures var db' := ApplyAll(db, [Enqueue(a, message, env.now)]);
            && Pending(db', a) == Pending(db, a) + [message] && (forall b | b != a :: Pending(db', b) == Pending(db, b))
            && db'.agents == db.agents && db'.runs == db.runs
  {
    var c := Enqueue(a, message, env.now);
    OneLegal(db, c);
    RowsAfter(db, c);
    forall b
      ensures Bodies(Of(NewSteering(db, c), b)) == if b == a then Pending(db, b) + [message] else Pending(db, b)
    {
      EnqueueBalances(db, b, c, Ledger(Pending(db, b), []));
    }
  }

  // --- the session -----------------------------------------------------------

  /** An interruption answers with the number of agents it interrupts: those that are
      starting or running under the runtime. */
  lemma InterruptAnswers(db: Db, env: Env, message: Text)
    requires Inv(db) && IsScan(env.scan, db.agents)
    ensures var tx := InterruptTx(db, env, message);
            var ended := set a | a in db.agents && HeldUnder(db.agents[a], env.runtime);
            && tx.Commit? && tx.value == |ended|
            && Released(db, ApplyAll(db, tx.log), ended, message, env.now)
  {
    var rows := RuntimeRows(env.scan, db.agents, env.runtime);
    var ended := set a | a in db.agents && HeldUnder(db.agents[a], env.runtime);
    InterruptLegal(db, env, message);
    RuntimeRowsAre(env.scan, db.agents, env.runtime);
    DistinctCount(rows, ended);
    assert Ids(rows) == ended;
  }
}

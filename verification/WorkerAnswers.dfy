/** What the store answers the holder of a claim, and everybody else who presents one: when
    a request is accepted, with what error it is refused, and what rows it leaves. */
module WorkerAnswers {
  import opened Texts
  import opened Types
  import opened Schema
  import opened Changes
  import opened Coherence
  import opened Guards
  import opened Transactions
  import opened Reconciliation
  import opened Legality
  import opened Fencing
  import opened Steering

  /** The holder of an agent's recorded claim, before its lease runs out. */
  predicate Holder(db: Db, env: Env, key: LeaseKey) {
    && key.agent in db.agents && db.agents[key.agent].status.Held() && db.agents[key.agent].lease.Some?
    && key == LiveKey(db, key.agent) && key.runtime == env.runtime
    && env.now < db.agents[key.agent].lease.value.expires
  }

  lemma HolderIsOwner(db: Db, env: Env, key: LeaseKey)
    requires Inv(db)
    ensures Holder(db, env, key) <==> Owns(db, key, env.runtime, env.now)
  {
    OneLeaseMatches(db, key, env.runtime, env.now);
  }

  lemma HolderRows(db: Db, env: Env, key: LeaseKey)
    requires Inv(db) && Holder(db, env, key)
    ensures Has(db, key.agent) && RowsFound(db, key) && db.agents[key.agent].activeRun == key.run
    ensures AgentOk(key.agent, db.agents[key.agent], db.runs) && RunOk(key.run, db.runs[key.run], db.agents)
    ensures ValidateRunToken(db.runs[key.run], key).None?
  {
    AgentFact(db.agents, db.runs, key.agent);
  }

  /** Reconciling first neither makes nor ends a holder, nor touches its row. */
  lemma HolderStays(db: Db, env: Env, key: LeaseKey)
    requires Inv(db) && IsScan(env.scan, db.agents)
    ensures Holder(Mid(db, env), env, key) <==> Holder(db, env, key)
    ensures Holder(db, env, key) ==> Mid(db, env).agents[key.agent] == db.agents[key.agent]
  {
    MidFacts(db, env);
    if key.agent in db.agents {
      assert key.agent in ExpiredAgents(db.agents, env.now) <==> Expired(db.agents[key.agent], env.now);
    }
  }

  /** The guard of active claims lets the holder of an active claim pass and nobody else;
      a run the store does not know is not found, any other claim is lost. */
  lemma ActiveGuard(db: Db, env: Env, key: LeaseKey)
    requires Inv(db)
    ensures ValidateActive(db, key, env.runtime, env.now) ==
              if Holder(db, env, key) && db.agents[key.agent].status.Active() then None
              else Some(if RowsFound(db, key) then LeaseLost else NotFound)
  {
    HolderIsOwner(db, env, key);
    if Holder(db, env, key) {
      HolderRows(db, env, key);
    }
  }

  lemma CancelingGuard(db: Db, env: Env, key: LeaseKey)
    requires Inv(db)
    ensures ValidateCanceling(db, key, env.runtime, env.now) ==
              if Holder(db, env, key) && db.agents[key.agent].status.Canceling? then None
              else Some(if RowsFound(db, key) then LeaseLost else NotFound)
  {
    HolderIsOwner(db, env, key);
    if Holder(db, env, key) {
      HolderRows(db, env, key);
    }
  }

  /** Only the rows of one agent and of its active run change. */
  ghost predicate OnlyRows(db: Db, db': Db, a: Id) {
    && a in db.agents && a in db'.agents && db'.agents == db.agents[a := db'.agents[a]]
    && db.agents[a].activeRun in db'.runs
    && db'.runs == db.runs[db.agents[a].activeRun := db'.runs[db.agents[a].activeRun]]
  }

  lemma InPlaceRows(db: Db, c: Change)
    requires InPlace(c) && Legal(db, c)
    ensures OnlyRows(db, ApplyAll(db, [c]), c.a)
    ensures ApplyAll(db, [c]).agents[c.a] == NewAgentRow(db.agents[c.a], c)
    ensures ApplyAll(db, [c]).runs[db.agents[c.a].activeRun] == NewRunRow(db.runs[db.agents[c.a].activeRun], c)
  {
    OneLegal(db, c);
    RowsAfter(db, c);
  }

  // --- the end of a run ------------------------------------------------------

  /** The conversation of an update does not contradict the one that is attached, and no
      other agent has it. */
  ghost predicate MayResolve(db: Db, a: Id, conversation: Option<Text>)
    requires a in db.agents
  {
    conversation.Some? ==>
      || db.agents[a].child == conversation
      || (db.agents[a].child.None? && ChildFree(db, a, conversation.value))
  }

  /** What an outcome needs: an active claim, a conversation that fits, and for a completion
      a running agent with a conversation to resume. */
  ghost predicate Finishes(db: Db, a: Id, status: TerminalStatus, update: TerminalUpdate)
    requires a in db.agents
  {
    && db.agents[a].status.Active() && MayResolve(db, a, update.conversation)
    && (status.TerminalIdle? ==> db.agents[a].status.Running? && db.agents[a].child != Some([]))
  }

  lemma OwnChildIsFree(db: Db, a: Id)
    requires Inv(db) && a in db.agents && db.agents[a].child.Some?
    ensures ChildFree(db, a, db.agents[a].child.value)
  {
    forall b | b in db.agents && b != a
      ensures db.agents[b].child != db.agents[a].child
    {
      assert !SameChild(db.agents, a, b);
    }
  }

  /** The holder's outcome is accepted if and only if it may finish so. A claim that is being
      canceled is lost, a conversation of another agent violates a constraint, and anything
      else is a conflict. */
  lemma FinishAnswers(db: Db, env: Env, key: LeaseKey, status: TerminalStatus, update: TerminalUpdate)
    requires Inv(db) && Holder(db, env, key)
    ensures var row, tx := db.agents[key.agent], TerminalTx(db, env, key, status, update);
            && (tx.Commit? <==> Finishes(db, key.agent, status, update))
            && (tx.Rollback? ==>
                  tx.error == if row.status.Canceling? then LeaseLost
                              else if status.TerminalIdle? || row.child.Some? then Conflict else Constraint)
  {
    HolderIsOwner(db, env, key);
    HolderRows(db, env, key);
    if db.agents[key.agent].child.Some? {
      OwnChildIsFree(db, key.agent);
    }
    EndFetches(db, env, key, status, update);
  }

  /** The change that records an outcome. */
  function EndOf(row: AgentRow, key: LeaseKey, status: TerminalStatus, update: TerminalUpdate, env: Env): Change {
    End(key.agent, status, update.result, update.error, if row.child.Some? then row.child else update.conversation,
        env.now, env.mail)
  }

  lemma EndIsLegal(db: Db, env: Env, key: LeaseKey, status: TerminalStatus, update: TerminalUpdate)
    requires Inv(db) && Holder(db, env, key) && Finishes(db, key.agent, status, update)
    ensures Legal(db, EndOf(db.agents[key.agent], key, status, update, env))
  {
    HolderRows(db, env, key);
    if db.agents[key.agent].child.Some? {
      OwnChildIsFree(db, key.agent);
    }
  }

  lemma EndFetches(db: Db, env: Env, key: LeaseKey, status: TerminalStatus, update: TerminalUpdate)
    requires Inv(db) && Holder(db, env, key)
    ensures Finishes(db, key.agent, status, update) ==>
              FetchAfter(db, [EndOf(db.agents[key.agent], key, status, update, env)], key.agent, Some(key.run)).Commit?
  {
    if Finishes(db, key.agent, status, update) {
      HolderRows(db, env, key);
      EndIsLegal(db, env, key, status, update);
      InPlaceRows(db, EndOf(db.agents[key.agent], key, status, update, env));
    }
  }

  /** An accepted outcome is recorded with its result and error, the claim is given up, and
      the caller gets just these rows. */
  lemma FinishLeaves(db: Db, env: Env, key: LeaseKey, status: TerminalStatus, update: TerminalUpdate)
    requires Inv(db) && Holder(db, env, key) && Finishes(db, key.agent, status, update)
    ensures var tx := TerminalTx(db, env, key, status, update);
            var row, db' := db.agents[key.agent], ApplyAll(db, tx.Log());
            && OnlyRows(db, db', key.agent)
            && tx.Commit? && tx.value == View(key.agent, db'.agents[key.agent], key.run, db'.runs[key.run])
            && FinishedAs(row, db'.agents[key.agent], db.runs[key.run], db'.runs[key.run], status, update, env.now)
  {
    var c := EndOf(db.agents[key.agent], key, status, update, env);
    FinishAnswers(db, env, key, status, update);
    HolderRows(db, env, key);
    EndIsLegal(db, env, key, status, update);
    InPlaceRows(db, c);
    EndLog(db, env, key, status, update);
  }

  lemma EndLog(db: Db, env: Env, key: LeaseKey, status: TerminalStatus, update: TerminalUpdate)
    requires Inv(db) && Holder(db, env, key) && TerminalTx(db, env, key, status, update).Commit?
    ensures TerminalTx(db, env, key, status, update)
            == FetchAfter(db, [EndOf(db.agents[key.agent], key, status, update, env)], key.agent, Some(key.run))
  {
    HolderIsOwner(db, env, key);
    HolderRows(db, env, key);
  }

  predicate FinishedAs(row: AgentRow, row': AgentRow, run: RunRow, run': RunRow, status: TerminalStatus,
                       update: TerminalUpdate, at: real) {
    && row'.status == (match status
                       case TerminalIdle => Idle
                       case TerminalFailed => Failed
                       case TerminalInterrupted => Interrupted)
    && run'.status == (match status
                       case TerminalIdle => RunCompleted
                       case TerminalFailed => RunFailed
                       case TerminalInterrupted => RunInterrupted)
    && row'.lease.None? && (update.conversation.Some? ==> row'.child == update.conversation)
    && row'.child == (if row.child.Some? then row.child else update.conversation)
    && row'.activeRun == row.activeRun && row'.generation == row.generation && row'.owner == row.owner
    && row'.name == row.name && row'.mode == row.mode && row'.cwd == row.cwd
    && run'.result == update.result && run'.error == update.error && run'.completedAt == Some(at)
    && run'.startedAt == run.startedAt && run'.task == run.task && run'.agent == run.agent
    && run'.generation == run.generation && run'.token == run.token
  }

  lemma ChildrenStay(db: Db, env: Env, a: Id, child: Text)
    requires Inv(db) && IsScan(env.scan, db.agents)
    ensures ChildFree(Mid(db, env), a, child) <==> ChildFree(db, a, child)
  {
    MidFacts(db, env);
  }

  lemma FinishesStays(db: Db, env: Env, key: LeaseKey, status: TerminalStatus, update: TerminalUpdate)
    requires Inv(db) && IsScan(env.scan, db.agents) && Holder(db, env, key)
    ensures Holder(Mid(db, env), env, key) && Mid(db, env).agents[key.agent] == db.agents[key.agent]
    ensures Finishes(Mid(db, env), key.agent, status, update) <==> Finishes(db, key.agent, status, update)
  {
    HolderStays(db, env, key);
    if update.conversation.Some? {
      ChildrenStay(db, env, key.agent, update.conversation.value);
    }
  }

  lemma FinishBody(db: Db, env: Env, req: Request)
    requires req.Finish?
    ensures Body(db, env, req).Commit? <==> TerminalTx(db, env, req.key, req.status, req.update).Commit?
    ensures Body(db, env, req).Log() == TerminalTx(db, env, req.key, req.status, req.update).Log()
  {
  }

  /** Served from any coherent state, whatever is reconciled first: the holder's outcome is
      committed if and only if it may finish so, and then it is what is recorded. */
  lemma FinishServed(db: Db, env: Env, key: LeaseKey, status: TerminalStatus, update: TerminalUpdate)
    requires Inv(db) && IsScan(env.scan, db.agents) && Holder(db, env, key) && key.run in db.runs
    ensures var req := Finish(key, status, update);
            var db' := Serve(db, env, req);
            && (Transaction(db, env, req).Commit? <==> Finishes(db, key.agent, status, update))
            && (Transaction(db, env, req).Commit? ==>
                  && key.agent in db'.agents && key.run in db'.runs
                  && FinishedAs(db.agents[key.agent], db'.agents[key.agent], db.runs[key.run], db'.runs[key.run],
                                status, update, env.now))
  {
    var req := Finish(key, status, update);
    MidFacts(db, env);
    FinishesStays(db, env, key, status, update);
    RunStays(db, env, key);
    FinishAnswers(Mid(db, env), env, key, status, update);
    FinishBody(Mid(db, env), env, req);
    ServeIsBody(db, env, req);
    LogOf(db, env, req);
    if Finishes(db, key.agent, status, update) {
      FinishLeaves(Mid(db, env), env, key, status, update);
      HolderRows(Mid(db, env), env, key);
    }
  }

  lemma RunStays(db: Db, env: Env, key: LeaseKey)
    requires Inv(db) && IsScan(env.scan, db.agents) && Holder(db, env, key) && key.run in db.runs
    ensures key.run in Mid(db, env).runs && Mid(db, env).runs[key.run] == db.runs[key.run]
  {
    MidFacts(db, env);
    HolderRows(db, env, key);
    assert key.agent !in ExpiredAgents(db.agents, env.now);
  }

  // --- the end of a cancellation ---------------------------------------------

  /** The run is recorded under the key's generation and token. */
  predicate TokenMatches(db: Db, key: LeaseKey) {
    RowsFound(db, key) && db.runs[key.run].generation == key.generation && db.runs[key.run].token == key.token
  }

  /** The run is its agent's active one and has been canceled. */
  predicate Ending(db: Db, key: LeaseKey)
    requires key.agent in db.agents
  {
    db.agents[key.agent].activeRun == key.run && (db.agents[key.agent].status.Canceling? || db.agents[key.agent].status.Canceled?)
  }

  lemma FinishCancelFetches(db: Db, env: Env, key: LeaseKey)
    requires Inv(db) && Holder(db, env, key) && db.agents[key.agent].status.Canceling?
    ensures CompleteCancelTx(db, env, key) == Commit([FinishCancel(key.agent, env.now, env.mail)], true)
    ensures Legal(db, FinishCancel(key.agent, env.now, env.mail))
  {
    CancelingGuard(db, env, key);
    HolderRows(db, env, key);
  }

  /** The answer is true for the holder of a claim that is being canceled, and for a
      cancellation that is complete; false if and only if the run is not the one being
      canceled; and an error for a run the store does not know, a token that is not the
      run's, and a cancellation under somebody else's lease. */
  lemma CompleteCancelAnswers(db: Db, env: Env, key: LeaseKey)
    requires Inv(db)
    ensures var tx := CompleteCancelTx(db, env, key);
            if !TokenMatches(db, key) then tx == Rollback(if RowsFound(db, key) then LeaseLost else NotFound)
            else if !Ending(db, key) then tx == Commit([], false)
            else if db.agents[key.agent].status.Canceled? then tx == Commit([], true)
            else if Holder(db, env, key) then tx.Commit? && tx.value
            else tx == Rollback(LeaseLost)
  {
    if RowsFound(db, key) {
      AgentFact(db.agents, db.runs, key.agent);
      CancelingGuard(db, env, key);
      if Holder(db, env, key) && db.agents[key.agent].status.Canceling? {
        FinishCancelFetches(db, env, key);
      }
    }
  }

  /** Whenever the answer is true, the cancellation is complete: the agent is canceled and
      carries no lease, its run is over, and nothing else has changed. */
  lemma TrueMeansCanceled(db: Db, env: Env, key: LeaseKey)
    requires Inv(db) && CompleteCancelTx(db, env, key).Commit? && CompleteCancelTx(db, env, key).value
    ensures var db' := ApplyAll(db, CompleteCancelTx(db, env, key).log);
            && OnlyRows(db, db', key.agent)
            && db'.agents[key.agent].status.Canceled? && db'.agents[key.agent].lease.None?
            && db'.agents[key.agent].activeRun == key.run && db'.agents[key.agent].child == db.agents[key.agent].child
            && db'.runs == db.runs && key.run in db'.runs && !db'.runs[key.run].status.Active()
  {
    AgentFact(db.agents, db.runs, key.agent);
    CompleteCancelAnswers(db, env, key);
    if db.agents[key.agent].status.Canceling? {
      FinishCancelFetches(db, env, key);
      InPlaceRows(db, FinishCancel(key.agent, env.now, env.mail));
    } else {
      assert ApplyAll(db, []) == db;
      assert db.agents == db.agents[key.agent := db.agents[key.agent]];
      assert db.runs == db.runs[key.run := db.runs[key.run]];
    }
  }

  // --- renewals --------------------------------------------------------------

  /** A heartbeat is accepted from the holder of a claim in the status it is for. */
  lemma RenewAnswers(db: Db, env: Env, key: LeaseKey, canceling: bool)
    requires Inv(db)
    ensures var tx := RenewTx(db, env, key, canceling);
            if Holder(db, env, key) && db.agents[key.agent].status.Canceling? == canceling
            then tx.Commit? && tx.value == env.now + 60.0
            else tx == Rollback(if RowsFound(db, key) then LeaseLost else NotFound)
  {
    ActiveGuard(db, env, key);
    CancelingGuard(db, env, key);
  }

  // --- startup ---------------------------------------------------------------

  /** A first reservation that has not started. */
  predicate Unstarted(db: Db, key: LeaseKey)
    requires key.agent in db.agents
  {
    db.agents[key.agent].status.Starting? && key.generation == 1 && db.agents[key.agent].child.None?
  }

  /** The holder of an unstarted first reservation may abort it and nobody else; that the
      agent is already gone is no error. */
  lemma AbortAnswers(db: Db, env: Env, key: LeaseKey)
    requires Inv(db)
    ensures var tx := AbortTx(db, env, key);
            if !RowsFound(db, key) then tx == Commit([], false)
            else if !Holder(db, env, key) || !db.agents[key.agent].status.Active() then tx == Rollback(LeaseLost)
            else if Unstarted(db, key) then tx.Commit? && tx.value else tx == Rollback(Conflict)
  {
    ActiveGuard(db, env, key);
    if Holder(db, env, key) {
      HolderRows(db, env, key);
    }
  }

  /** An abort removes the agent with its runs and messages, and nothing else. */
  lemma AbortLeaves(db: Db, env: Env, key: LeaseKey)
    requires Inv(db) && AbortTx(db, env, key).Commit? && AbortTx(db, env, key).value
    ensures var db' := ApplyAll(db, AbortTx(db, env, key).log);
            && db'.agents == db.agents - {key.agent}
            && (forall r :: r in db'.runs <==> r in db.runs && db.runs[r].agent != key.agent)
            && (forall r | r in db'.runs :: db'.runs[r] == db.runs[r])
            && Of(db'.steering, key.agent) == []
            && (forall b | b != key.agent :: Of(db'.steering, b) == Of(db.steering, b))
  {
    var c := Remove(key.agent);
    ActiveGuard(db, env, key);
    HolderRows(db, env, key);
    OneLegal(db, c);
    RowsAfter(db, c);
    forall b
      ensures Of(DropAgent(db.steering, key.agent), b) == if b == key.agent then [] else Of(db.steering, b)
    {
      OfDropAgent(db.steering, key.agent, b);
    }
  }

  /** A conversation can be attached that is the agent's already, or that is nobody's to an
      agent without one. */
  ghost predicate MayAttach(db: Db, a: Id, conversation: Text)
    requires a in db.agents
  {
    MayResolve(db, a, Some(conversation))
  }

  lemma AttachCase(db: Db, a: Id, conversation: Text)
    requires Inv(db) && a in db.agents
    ensures MayAttach(db, a, conversation) <==>
              (db.agents[a].child.Some? ==> db.agents[a].child == Some(conversation)) && ChildFree(db, a, conversation)
  {
    if db.agents[a].child.Some? {
      OwnChildIsFree(db, a);
    }
  }

  /** A conversation is attached to a claim, active or being canceled, by its holder alone
      and write-once. */
  lemma AttachAnswers(db: Db, env: Env, key: LeaseKey, conversation: Text, canceling: bool)
    requires Inv(db)
    ensures var tx := AttachTx(db, env, key, conversation, canceling);
            if conversation == [] then tx == Rollback(Invalid)
            else if !Holder(db, env, key) || db.agents[key.agent].status.Canceling? != canceling
            then tx == Rollback(if RowsFound(db, key) then LeaseLost else NotFound)
            else if !MayAttach(db, key.agent, conversation) then tx == Rollback(Conflict)
            else
              var db' := ApplyAll(db, tx.Log());
              && tx.Commit? && OnlyRows(db, db', key.agent) && db'.runs == db.runs
              && db'.agents[key.agent] == db.agents[key.agent].(child := Some(conversation), updatedAt := env.now)
              && tx.value == View(key.agent, db'.agents[key.agent], key.run, db'.runs[key.run])
  {
    ActiveGuard(db, env, key);
    CancelingGuard(db, env, key);
    if Holder(db, env, key) {
      HolderRows(db, env, key);
      AttachCase(db, key.agent, conversation);
      if conversation != [] && MayAttach(db, key.agent, conversation) {
        InPlaceRows(db, Attach(key.agent, conversation, env.now));
      }
    }
  }

  /** The holder of an active claim marks it running, in a conversation it may attach; the
      run keeps its first start time. */
  lemma MarkRunningAnswers(db: Db, env: Env, key: LeaseKey, conversation: Text)
    requires Inv(db)
    ensures var tx := MarkRunningTx(db, env, key, conversation);
            if conversation == [] then tx == Rollback(Invalid)
            else if !Holder(db, env, key) || !db.agents[key.agent].status.Active()
            then tx == Rollback(if RowsFound(db, key) then LeaseLost else NotFound)
            else if !MayAttach(db, key.agent, conversation) then tx == Rollback(Conflict)
            else tx.Commit? && tx.Log() == [Start(key.agent, conversation, env.now, env.mail)]
  {
    ActiveGuard(db, env, key);
    if Holder(db, env, key) {
      HolderRows(db, env, key);
      AttachCase(db, key.agent, conversation);
      if conversation != [] && MayAttach(db, key.agent, conversation) && db.agents[key.agent].status.Active() {
        InPlaceRows(db, Start(key.agent, conversation, env.now, env.mail));
      }
    }
  }

  lemma MarkRunningLeaves(db: Db, env: Env, key: LeaseKey, conversation: Text)
    requires Inv(db) && MarkRunningTx(db, env, key, conversation).Commit?
    ensures var tx := MarkRunningTx(db, env, key, conversation);
            var db' := ApplyAll(db, tx.log);
            && OnlyRows(db, db', key.agent) && key.run in db.runs && key.run in db'.runs
            && db'.agents[key.agent] == db.agents[key.agent].(child := Some(conversation), status := Running, updatedAt := env.now)
            && db'.runs[key.run].status.RunRunning?
            && db'.runs[key.run].startedAt == (if db.runs[key.run].startedAt.Some? then db.runs[key.run].startedAt else Some(env.now))
            && db'.runs[key.run].task == db.runs[key.run].task && db'.runs[key.run].completedAt.None?
            && tx.value == View(key.agent, db'.agents[key.agent], key.run, db'.runs[key.run])
  {
    MarkRunningAnswers(db, env, key, conversation);
    HolderRows(db, env, key);
    AttachCase(db, key.agent, conversation);
    InPlaceRows(db, Start(key.agent, conversation, env.now, env.mail));
  }

  // --- steering --------------------------------------------------------------

  /** The holder of a running claim is given the oldest message of its agent, if any. */
  lemma NextAnswers(db: Db, env: Env, key: LeaseKey)
    requires Inv(db)
    ensures NextTx(db, env, key) ==
              if !RowsFound(db, key) then Rollback(NotFound)
              else if !Holder(db, env, key) || !db.agents[key.agent].status.Running? then Rollback(LeaseLost)
              else
                var rows := Of(db.steering, key.agent);
                Commit([], if rows == [] then None else Some(rows[0]))
  {
    ActiveGuard(db, env, key);
    if Holder(db, env, key) {
      HolderRows(db, env, key);
      QueueKeyed(db, key.agent);
      OldestIsHead(db.steering, key.agent, key.run, key.generation);
    }
  }

  /** A message of the agent's queue is stored under the id. */
  ghost predicate Waits(db: Db, a: Id, id: nat) {
    exists i :: 0 <= i < |db.steering| && db.steering[i].agent == a && db.steering[i].id == id
  }

  /** The holder of an active claim deletes any message waiting for its agent; the answer
      tells whether there was one. */
  lemma AcknowledgeAnswers(db: Db, env: Env, key: LeaseKey, id: nat)
    requires Inv(db)
    ensures var tx := AcknowledgeTx(db, env, key, id);
            if !Holder(db, env, key) || !db.agents[key.agent].status.Active()
            then tx == Rollback(if RowsFound(db, key) then LeaseLost else NotFound)
            else
              && tx.Commit? && (tx.value <==> Waits(db, key.agent, id))
              && (var db' := ApplyAll(db, tx.log);
                  && (forall m :: m in db'.steering <==> m in db.steering && !(m.agent == key.agent && m.id == id))
                  && db'.agents == db.agents && db'.runs == db.runs)
  {
    ActiveGuard(db, env, key);
    if Holder(db, env, key) && db.agents[key.agent].status.Active() {
      HolderRows(db, env, key);
      QueueKeyed(db, key.agent);
      AcknowledgedRows(db, env, key, id);
    }
  }

  lemma AcknowledgedRows(db: Db, env: Env, key: LeaseKey, id: nat)
    requires Inv(db) && ValidateActive(db, key, env.runtime, env.now).None?
    requires AllKeyed(db.steering, key.agent, key.run, key.generation) && Ascending(db.steering)
    ensures var tx := AcknowledgeTx(db, env, key, id);
            && tx.Commit? && (tx.value <==> Waits(db, key.agent, id))
            && (var db' := ApplyAll(db, tx.log);
                && (forall m :: m in db'.steering <==> m in db.steering && !(m.agent == key.agent && m.id == id))
                && db'.agents == db.agents && db'.runs == db.runs)
  {
    var tx := AcknowledgeTx(db, env, key, id);
    if Waits(db, key.agent, id) {
      OneLegal(db, Dequeue(id));
      RowsAfter(db, Dequeue(id));
      DropsThatOne(db, key.agent, id);
    } else {
      assert tx.log == [];
      assert ApplyAll(db, []) == db;
    }
  }

  lemma DropsThatOne(db: Db, a: Id, id: nat)
    requires Ascending(db.steering) && Waits(db, a, id)
    ensures forall m :: m in DropId(db.steering, id) <==> m in db.steering && !(m.agent == a && m.id == id)
  {
    forall m
      ensures m in DropId(db.steering, id) <==> m in db.steering && !(m.agent == a && m.id == id)
    {
      DropIdMembers(db.steering, id, m);
      if m in db.steering && m.id == id {
        SameSteeringId(db, a, id, m);
      }
    }
  }

  lemma SameSteeringId(db: Db, a: Id, id: nat, m: SteeringRow)
    requires Ascending(db.steering) && Waits(db, a, id) && m in db.steering && m.id == id
    ensures m.agent == a
  {
  }

  lemma {:induction false} DropIdMembers(steering: seq<SteeringRow>, id: nat, m: SteeringRow)
    ensures m in DropId(steering, id) <==> m in steering && m.id != id
  {
    if steering != [] {
      var n := |steering| - 1;
      DropIdMembers(steering[..n], id, m);
      assert steering == steering[..n] + [steering[n]];
    }
  }
}

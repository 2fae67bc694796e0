/** The steering pump: it acknowledges the message it was last given, and that is
    always the oldest one. So steering is first in, first out. */
module Pump {
  import opened Texts
  import opened Types
  import opened Schema
  import opened Changes
  import opened Coherence
  import opened Transactions
  import opened Reconciliation
  import opened Legality
  import opened Evolution
  import opened Fencing
  import opened Notifications
  import opened Steering

  /** The message the holder of a claim was last given and has not acknowledged. */
  ghost function Cursor(db: Db, key: LeaseKey, history: seq<Event>): Option<SteeringRow> {
    if history == [] then None
    else
      var first, last := history[..|history| - 1], history[|history| - 1];
      var before := After(db, first);
      match last.req
      case NextSteering(k) =>
        (match NextTx(Mid(before, last.env), last.env, key)
         case Commit(_, m) => if k == key then m else Cursor(db, key, first)
         case Rollback(_) => Cursor(db, key, first))
      case AcknowledgeSteering(k, _) =>
        if k == key && Transaction(before, last.env, last.req).Commit? then None else Cursor(db, key, first)
      case _ => Cursor(db, key, first)
  }

  /** Every acknowledgement is of the message its pump was last given. */
  ghost predicate Pumped(db: Db, history: seq<Event>) {
    history != [] ==>
      var first, last := history[..|history| - 1], history[|history| - 1];
      && Pumped(db, first)
      && (last.req.AcknowledgeSteering? ==>
            && Cursor(db, last.req.key, first).Some?
            && Cursor(db, last.req.key, first).value.id == last.req.id)
  }

  /** The claim is running. */
  ghost predicate Works(db: Db, key: LeaseKey) {
    && key.agent in db.agents && db.agents[key.agent].status.Running? && db.agents[key.agent].lease.Some?
    && LiveKey(db, key.agent) == key
  }

  /** The claim is running and the message is the oldest of its agent. */
  ghost predicate AtHead(db: Db, key: LeaseKey, m: SteeringRow) {
    Works(db, key) && Of(db.steering, key.agent) != [] && Of(db.steering, key.agent)[0] == m
  }

  /** While the run goes on, the message stays the oldest. */
  ghost predicate Holds(db: Db, key: LeaseKey, m: SteeringRow) {
    key.run in db.runs && (db.runs[key.run].status.Active() ==> AtHead(db, key, m))
  }

  // --- what moves the head ---------------------------------------------------

  lemma {:induction false} OfRekeyOther(steering: seq<SteeringRow>, a: Id, r: Id, g: nat, b: Id)
    requires b != a
    ensures Of(Rekey(steering, a, r, g), b) == Of(steering, b)
  {
    if steering != [] {
      var n := |steering| - 1;
      OfRekeyOther(steering[..n], a, r, g, b);
      assert Rekey(steering, a, r, g)[..n] == Rekey(steering[..n], a, r, g);
    }
  }

  /** What a change other than four kinds adds to an agent's queue. */
  function Added(db: Db, c: Change, a: Id): seq<SteeringRow>
    requires Applies(db, c)
  {
    if c.Enqueue? && c.a == a then [NewSteering(db, c)[|db.steering|]] else []
  }

  /** Only four kinds of change take messages from an agent's queue or rewrite them. */
  lemma QueueKept(db: Db, c: Change, a: Id)
    requires Inv(db) && Legal(db, c) && !Discards(c, a) && !(c.Reclaim? && c.a == a) && !c.Dequeue?
    ensures Of(Apply(db, c).steering, a) == Of(db.steering, a) + Added(db, c, a)
  {
    SteeringAfter(db, c);
    if c.BeginCancel? || c.CancelInactive? || c.Remove? {
      OtherDiscard(db, a, c);
    } else if c.Enqueue? {
      OfSnoc(db.steering, NewSteering(db, c)[|db.steering|], a);
    } else if c.Reclaim? {
      OfRekeyOther(db.steering, c.a, c.r, db.agents[c.a].generation + 1, a);
    }
  }

  /** The claim is still running, and its queue was left to it. */
  ghost predicate KeptRunning(db: Db, c: Change, key: LeaseKey)
    requires Legal(db, c)
  {
    var agents, runs := NewAgents(db, c), NewRuns(db, c);
    key.run in runs && (runs[key.run].status.Active() ==>
      && key.agent in agents && agents[key.agent].status.Running? && agents[key.agent].lease.Some?
      && agents[key.agent].activeRun == key.run && agents[key.agent].generation == key.generation
      && agents[key.agent].lease.value.token == key.token && agents[key.agent].lease.value.runtime == key.runtime
      && !Discards(c, key.agent) && !(c.Reclaim? && c.a == key.agent))
  }

  lemma RunningKeptInPlace(db: Db, c: Change, key: LeaseKey)
    requires Inv(db) && Legal(db, c) && Works(db, key) && InPlace(c)
    ensures KeptRunning(db, c, key)
  {
    AgentFact(db.agents, db.runs, key.agent);
    AgentFact(db.agents, db.runs, c.a);
    NewRows(db, c);
  }

  lemma RunningKept(db: Db, c: Change, key: LeaseKey)
    requires Inv(db) && Legal(db, c) && Works(db, key)
    ensures KeptRunning(db, c, key)
  {
    if InPlace(c) {
      RunningKeptInPlace(db, c, key);
    } else {
      AgentFact(db.agents, db.runs, key.agent);
    }
  }

  lemma ChangeHolds(db: Db, c: Change, key: LeaseKey, m: SteeringRow)
    requires Inv(db) && Legal(db, c) && Holds(db, key, m)
    requires c.Dequeue? && db.runs[key.run].status.Active() ==>
               Of(DropId(db.steering, c.id), key.agent) == Of(db.steering, key.agent)
    ensures Holds(Apply(db, c), key, m)
  {
    RowsAfter(db, c);
    ChangeFreezes(db, c);
    if db.runs[key.run].status.Active() {
      RunningKept(db, c, key);
      if Apply(db, c).runs[key.run].status.Active() && !c.Dequeue? {
        QueueKept(db, c, key.agent);
      }
    }
  }

  lemma {:induction false} ChangesHold(db: Db, cs: seq<Change>, key: LeaseKey, m: SteeringRow)
    requires Inv(db) && LegalAll(db, cs) && Holds(db, key, m)
    requires forall i | 0 <= i < |cs| :: !cs[i].Dequeue?
    ensures Holds(ApplyAll(db, cs), key, m)
  {
    if cs != [] {
      var first := cs[..|cs| - 1];
      ChangesHold(db, first, key, m);
      ChangesKeepInv(db, first);
      ChangeHolds(ApplyAll(db, first), cs[|cs| - 1], key, m);
    }
  }

  // --- every request ---------------------------------------------------------

  lemma NoDeletion(db: Db, env: Env, req: Request)
    requires Inv(db) && Possible(db, env, req) && Reconciles(req) && !req.AcknowledgeSteering?
    ensures DeletesNothing(Body(db, env, req).Log())
  {
    if req.InterruptRuntime? {
      InterruptReleases(db, env, req.message);
      ReleasesDeleteNothing(Body(db, env, req).Log(), RuntimeRows(env.scan, db.agents, env.runtime), env.mail);
    } else {
      NoDeletionByWorker(db, env, req);
    }
  }

  lemma ReleasesDeleteNothing(log: seq<Change>, rows: seq<Id>, mail: bool)
    requires Releases(log, rows, mail)
    ensures DeletesNothing(log)
  {
  }

  lemma NoDeletionByWorker(db: Db, env: Env, req: Request)
    requires Reconciles(req) && !req.AcknowledgeSteering? && !req.InterruptRuntime?
    ensures |Body(db, env, req).Log()| <= 1
    ensures Body(db, env, req).Log() != [] ==> !Body(db, env, req).Log()[0].Dequeue?
  {
    WorkerLogIsShort(db, env, req);
  }

  /** An acknowledgement deletes only a message of the claim it carries. */
  lemma DeletesOwn(db: Db, env: Env, key: LeaseKey, id: nat)
    requires Inv(db) && AcknowledgeTx(db, env, key, id).Log() != []
    ensures AcknowledgeTx(db, env, key, id).Log() == [Dequeue(id)]
    ensures Owns(db, key, env.runtime, env.now) && db.runs[key.run].status.Active()
    ensures forall i | 0 <= i < |db.steering| && db.steering[i].id == id :: db.steering[i].agent == key.agent
  {
    var i :| 0 <= i < |db.steering| && db.steering[i].id == id && KeyedTo(db.steering[i], key.agent, key.run, key.generation);
    forall j | 0 <= j < |db.steering| && db.steering[j].id == id
      ensures j == i
    {
    }
  }

  /** Another claim's acknowledgement never touches the head. */
  lemma OtherAcknowledgement(db: Db, env: Env, key: LeaseKey, id: nat, other: LeaseKey, m: SteeringRow)
    requires Inv(db) && Holds(db, other, m) && other != key
    ensures Holds(ApplyAll(db, AcknowledgeTx(db, env, key, id).Log()), other, m)
  {
    var log := AcknowledgeTx(db, env, key, id).Log();
    if log != [] {
      DeletesOwn(db, env, key, id);
      OneLegal(db, Dequeue(id));
      if db.runs[other.run].status.Active() {
        OneLeaseMatches(db, key, env.runtime, env.now);
        assert other.agent != key.agent;
        OfDropId(db.steering, id, other.agent);
      }
      ChangeHolds(db, Dequeue(id), other, m);
    }
  }

  lemma GivenIsHead(db: Db, env: Env, key: LeaseKey)
    requires Inv(db) && NextTx(db, env, key).Commit? && NextTx(db, env, key).value.Some?
    ensures Holds(db, key, NextTx(db, env, key).value.value)
  {
    OneLeaseMatches(db, key, env.runtime, env.now);
    QueueKeyed(db, key.agent);
    OldestIsHead(db.steering, key.agent, key.run, key.generation);
  }

  lemma MidHolds(db: Db, env: Env, key: LeaseKey, m: SteeringRow)
    requires Inv(db) && IsScan(env.scan, db.agents) && Holds(db, key, m)
    ensures Inv(Mid(db, env)) && Holds(Mid(db, env), key, m)
  {
    MidFacts(db, env);
    ChangesKeepInv(db, Reconcile(db, env));
    ChangesHold(db, Reconcile(db, env), key, m);
  }

  lemma ReconcilingHolds(db: Db, env: Env, req: Request, key: LeaseKey, m: SteeringRow)
    requires Inv(db) && Possible(db, env, req) && Reconciles(req) && Holds(db, key, m)
    requires Transaction(db, env, req).Commit? && !(req.AcknowledgeSteering? && req.key == key)
    ensures Holds(Serve(db, env, req), key, m)
  {
    var mid := Mid(db, env);
    MidHolds(db, env, key, m);
    MidPossible(db, env, req);
    ServeIsBody(db, env, req);
    if req.AcknowledgeSteering? {
      OtherAcknowledgement(mid, env, req.key, req.id, key, m);
      assert Body(mid, env, req).Log() == AcknowledgeTx(mid, env, req.key, req.id).Log();
    } else {
      BodyLegal(mid, env, req);
      NoDeletion(mid, env, req);
      ChangesHold(mid, Body(mid, env, req).Log(), key, m);
    }
  }

  lemma MailHolds(db: Db, env: Env, req: Request, key: LeaseKey, m: SteeringRow)
    requires Inv(db) && Possible(db, env, req) && !Reconciles(req) && Holds(db, key, m)
    ensures Holds(Serve(db, env, req), key, m)
  {
    MailLegal(db, env, req);
    ChangesHold(db, Transaction(db, env, req).Log(), key, m);
  }

  /** Until its holder acknowledges it, the message a claim was given stays the oldest
      of its agent for as long as the run goes on. */
  lemma ServeHolds(db: Db, env: Env, req: Request, key: LeaseKey, m: SteeringRow)
    requires Inv(db) && Possible(db, env, req) && Holds(db, key, m)
    requires Transaction(db, env, req).Rollback? || !(req.AcknowledgeSteering? && req.key == key)
    ensures Holds(Serve(db, env, req), key, m)
  {
    if Reconciles(req) {
      if Transaction(db, env, req).Commit? {
        ReconcilingHolds(db, env, req, key, m);
      }
    } else {
      MailHolds(db, env, req, key, m);
    }
  }

  lemma NextHolds(db: Db, env: Env, key: LeaseKey)
    requires Inv(db) && IsScan(env.scan, db.agents)
    requires NextTx(Mid(db, env), env, key).Commit? && NextTx(Mid(db, env), env, key).value.Some?
    ensures Holds(Serve(db, env, NextSteering(key)), key, NextTx(Mid(db, env), env, key).value.value)
  {
    MidFacts(db, env);
    GivenIsHead(Mid(db, env), env, key);
    NextServes(db, env, key);
  }

  lemma NextServes(db: Db, env: Env, key: LeaseKey)
    requires NextTx(Mid(db, env), env, key).Commit?
    ensures Serve(db, env, NextSteering(key)) == Mid(db, env)
  {
    ServeIsBody(db, env, NextSteering(key));
  }

  lemma {:induction false} CursorHolds(db: Db, key: LeaseKey, history: seq<Event>)
    requires Inv(db) && Allowed(db, history) && Cursor(db, key, history).Some?
    ensures Holds(After(db, history), key, Cursor(db, key, history).value)
  {
    var first, last := history[..|history| - 1], history[|history| - 1];
    var before := After(db, first);
    AfterKeepsInv(db, first);
    if last.req == NextSteering(key) && NextTx(Mid(before, last.env), last.env, key).Commit? {
      NextHolds(before, last.env, key);
    } else {
      CursorHolds(db, key, first);
      if last.req == NextSteering(key) {
        assert Transaction(before, last.env, last.req).Rollback?;
      }
      ServeHolds(before, last.env, last.req, key, Cursor(db, key, first).value);
    }
  }

  // --- first in, first out ---------------------------------------------------

  lemma AcknowledgesHead(db: Db, env: Env, key: LeaseKey, m: SteeringRow, a: Id)
    requires Inv(db) && Holds(db, key, m) && AcknowledgeTx(db, env, key, m.id).Log() != []
    ensures InOrder(db, a, Dequeue(m.id))
  {
    DeletesOwn(db, env, key, m.id);
  }

  lemma BodyOfAcknowledgement(db: Db, env: Env, key: LeaseKey, id: nat)
    ensures Body(db, env, AcknowledgeSteering(key, id)).Commit? <==> AcknowledgeTx(db, env, key, id).Commit?
    ensures Body(db, env, AcknowledgeSteering(key, id)).Log() == AcknowledgeTx(db, env, key, id).Log()
    ensures AcknowledgeTx(db, env, key, id).Log() == [] || AcknowledgeTx(db, env, key, id).Log() == [Dequeue(id)]
  {
  }

  lemma AcknowledgementBalances(db: Db, env: Env, key: LeaseKey, m: SteeringRow, a: Id, book: Ledger)
    requires Inv(db) && IsScan(env.scan, db.agents) && Holds(db, key, m) && Balanced(db, a, book)
    ensures var log := Transaction(db, env, AcknowledgeSteering(key, m.id)).Log();
            Balanced(ApplyAll(db, log), a, RecordAll(db, a, log, book))
  {
    LogOf(db, env, AcknowledgeSteering(key, m.id));
    BodyOfAcknowledgement(Mid(db, env), env, key, m.id);
    CommittedAcknowledgement(db, env, key, m, a, book);
    EmptyBalances(db, a, book);
  }

  lemma EmptyBalances(db: Db, a: Id, book: Ledger)
    ensures ApplyAll(db, []) == db && RecordAll(db, a, [], book) == book
  {
  }

  lemma CommittedAcknowledgement(db: Db, env: Env, key: LeaseKey, m: SteeringRow, a: Id, book: Ledger)
    requires Inv(db) && IsScan(env.scan, db.agents) && Holds(db, key, m) && Balanced(db, a, book)
    ensures var log := Reconcile(db, env) + AcknowledgeTx(Mid(db, env), env, key, m.id).Log();
            Balanced(ApplyAll(db, log), a, RecordAll(db, a, log, book))
  {
    var mid, log := Mid(db, env), Reconcile(db, env);
    MidFacts(db, env);
    MidHolds(db, env, key, m);
    ReconcileDeletesNothing(db, env);
    if AcknowledgeTx(mid, env, key, m.id).Log() != [] {
      DeletesOwn(mid, env, key, m.id);
      AcknowledgesHead(mid, env, key, m, a);
      LastDeletionBalances(db, a, log, Dequeue(m.id), book);
    } else {
      assert log + [] == log;
      ChangesBalance(db, a, log, book);
    }
  }

  lemma ReconcileDeletesNothing(db: Db, env: Env)
    requires Inv(db) && IsScan(env.scan, db.agents)
    ensures DeletesNothing(Reconcile(db, env))
  {
    MidFacts(db, env);
  }

  lemma OtherBalances(db: Db, env: Env, req: Request, a: Id, book: Ledger)
    requires Inv(db) && Possible(db, env, req) && !req.AcknowledgeSteering? && Balanced(db, a, book)
    ensures Balanced(Serve(db, env, req), a, RecordAll(db, a, Transaction(db, env, req).Log(), book))
  {
    TransactionLegal(db, env, req);
    OtherDeletesNothing(db, env, req);
    ChangesBalance(db, a, Transaction(db, env, req).Log(), book);
  }

  lemma OtherDeletesNothing(db: Db, env: Env, req: Request)
    requires Inv(db) && Possible(db, env, req) && !req.AcknowledgeSteering?
    ensures DeletesNothing(Transaction(db, env, req).Log())
  {
    if Reconciles(req) {
      ReconcilingDeletesNothing(db, env, req);
    } else {
      MailDeletesNothing(db, env, req);
    }
  }

  ghost predicate DeletesNothing(log: seq<Change>) { forall i | 0 <= i < |log| :: !log[i].Dequeue? }

  lemma MailDeletesNothing(db: Db, env: Env, req: Request)
    requires !Reconciles(req)
    ensures DeletesNothing(Transaction(db, env, req).Log())
  {
  }

  lemma ReconcilingDeletesNothing(db: Db, env: Env, req: Request)
    requires Inv(db) && Possible(db, env, req) && Reconciles(req) && !req.AcknowledgeSteering?
    ensures DeletesNothing(Transaction(db, env, req).Log())
  {
    ReconcileDeletesNothing(db, env);
    MidPossible(db, env, req);
    NoDeletion(Mid(db, env), env, req);
    LogDeletesNothing(db, env, req);
  }

  lemma LogDeletesNothing(db: Db, env: Env, req: Request)
    requires Reconciles(req)
    requires DeletesNothing(Reconcile(db, env)) && DeletesNothing(Body(Mid(db, env), env, req).Log())
    ensures DeletesNothing(Transaction(db, env, req).Log())
  {
    LogOf(db, env, req);
  }

  /** First in, first out: under the pump's discipline, what has been sent to an agent
      since its queue was last discarded is what was acknowledged followed by what is
      still pending, through every finish, interruption, expiry and follow-up. */
  lemma {:induction false} SteeringIsFifo(db: Db, a: Id, history: seq<Event>)
    requires Inv(db) && Allowed(db, history) && Pumped(db, history)
    ensures Balanced(After(db, history), a, Books(db, a, history))
  {
    if history != [] {
      var first, last := history[..|history| - 1], history[|history| - 1];
      var before, req := After(db, first), last.req;
      SteeringIsFifo(db, a, first);
      AfterKeepsInv(db, first);
      if req.AcknowledgeSteering? {
        CursorHolds(db, req.key, first);
        AcknowledgementBalances(before, last.env, req.key, Cursor(db, req.key, first).value, a, Books(db, a, first));
      } else {
        OtherBalances(before, last.env, req, a, Books(db, a, first));
      }
    }
  }
}

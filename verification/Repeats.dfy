/** Acknowledging a steering message once more: rowids are given out again, so a repeat
    is not always without effect. */
module Repeats {
  import opened Texts
  import opened Types
  import opened Schema
  import opened Changes
  import opened Coherence
  import opened Guards
  import opened Transactions
  import opened Reconciliation
  import opened Legality
  import opened Evolution
  import opened Fencing
  import opened Notifications
  import opened Steering
  import opened Pump

  /** A message of the agent is stored under the id. */
  ghost predicate Stored(steering: seq<SteeringRow>, a: Id, id: nat) {
    exists k :: 0 <= k < |Of(steering, a)| && Of(steering, a)[k].id == id
  }

  /** While the run goes on, a message is stored under the id if and only if it says so. */
  ghost predicate Tracks(db: Db, key: LeaseKey, id: nat, stored: bool) {
    && key.run in db.runs
    && (db.runs[key.run].status.Active() ==> Works(db, key) && (Stored(db.steering, key.agent, id) <==> stored))
  }

  lemma StoredSnoc(rows: seq<SteeringRow>, m: SteeringRow, id: nat)
    ensures (exists k :: 0 <= k < |rows + [m]| && (rows + [m])[k].id == id) <==>
              (exists k :: 0 <= k < |rows| && rows[k].id == id) || m.id == id
  {
    assert (rows + [m])[|rows|] == m;
    if k :| 0 <= k < |rows| && rows[k].id == id {
      assert (rows + [m])[k].id == id;
    }
  }

  /** The change queues a message for the agent under the id. */
  predicate TakesId(db: Db, c: Change, a: Id, id: nat) { c.Enqueue? && c.a == a && NextRowid(db.steering) == id }

  lemma QueueTracks(db: Db, c: Change, a: Id, id: nat)
    requires Inv(db) && Legal(db, c) && !Discards(c, a) && !(c.Reclaim? && c.a == a) && !c.Dequeue?
    ensures Stored(Apply(db, c).steering, a, id) <==> Stored(db.steering, a, id) || TakesId(db, c, a, id)
  {
    QueueKept(db, c, a);
    if c.Enqueue? && c.a == a {
      StoredSnoc(Of(db.steering, a), NewSteering(db, c)[|db.steering|], id);
    } else {
      assert Of(db.steering, a) + [] == Of(db.steering, a);
    }
  }

  lemma ChangeTracks(db: Db, c: Change, key: LeaseKey, id: nat, stored: bool)
    requires Inv(db) && Legal(db, c) && Tracks(db, key, id, stored)
    requires c.Dequeue? && db.runs[key.run].status.Active() ==>
               Of(DropId(db.steering, c.id), key.agent) == Of(db.steering, key.agent)
    ensures Tracks(Apply(db, c), key, id, stored || TakesId(db, c, key.agent, id))
  {
    RowsAfter(db, c);
    ChangeFreezes(db, c);
    if db.runs[key.run].status.Active() {
      RunningKept(db, c, key);
      if Apply(db, c).runs[key.run].status.Active() && !c.Dequeue? {
        QueueTracks(db, c, key.agent, id);
      }
    }
  }

  ghost predicate Untouching(log: seq<Change>) { forall i | 0 <= i < |log| :: !log[i].Dequeue? && !log[i].Enqueue? }

  lemma {:induction false} ChangesTrack(db: Db, cs: seq<Change>, key: LeaseKey, id: nat, stored: bool)
    requires Inv(db) && LegalAll(db, cs) && Tracks(db, key, id, stored) && Untouching(cs)
    ensures Tracks(ApplyAll(db, cs), key, id, stored)
  {
    if cs != [] {
      var first := cs[..|cs| - 1];
      ChangesTrack(db, first, key, id, stored);
      ChangesKeepInv(db, first);
      ChangeTracks(ApplyAll(db, first), cs[|cs| - 1], key, id, stored);
    }
  }

  // --- every request ---------------------------------------------------------

  /** The request queues a message for the agent under the id: the largest id in the
      table is the one before. */
  ghost predicate Issues(db: Db, e: Event, a: Id, id: nat) {
    && e.req.EnqueueSteering? && e.req.a == a && NextRowid(db.steering) == id
    && EnqueueTx(Mid(db, e.env), e.env, e.req.owner, a, e.req.message).Commit?
  }

  lemma MidTracks(db: Db, env: Env, key: LeaseKey, id: nat, stored: bool)
    requires Inv(db) && IsScan(env.scan, db.agents) && Tracks(db, key, id, stored)
    ensures Inv(Mid(db, env)) && Tracks(Mid(db, env), key, id, stored) && Mid(db, env).steering == db.steering
  {
    MidFacts(db, env);
    ChangesTrack(db, Reconcile(db, env), key, id, stored);
  }

  lemma OtherRepeats(db: Db, env: Env, key: LeaseKey, id: nat, other: LeaseKey, stored: bool, old_id: nat)
    requires Inv(db) && Tracks(db, other, old_id, stored) && other != key
    ensures Tracks(ApplyAll(db, AcknowledgeTx(db, env, key, id).Log()), other, old_id, stored)
  {
    var log := AcknowledgeTx(db, env, key, id).Log();
    if log != [] {
      DeletesOwn(db, env, key, id);
      OneLegal(db, Dequeue(id));
      if db.runs[other.run].status.Active() {
        OneLeaseMatches(db, key, env.runtime, env.now);
        assert other.agent != key.agent;
        OfDropId(db.steering, id, other.agent);
      }
      ChangeTracks(db, Dequeue(id), other, old_id, stored);
    }
  }

  lemma EnqueueLog(db: Db, env: Env, owner: Text, a: Id, message: Text)
    ensures var tx := EnqueueTx(db, env, owner, a, message);
            tx.Commit? ==> tx.log == [Enqueue(a, message, env.now)] && Legal(db, Enqueue(a, message, env.now))
  {
  }

  lemma EnqueueTracks(db: Db, env: Env, owner: Text, a: Id, message: Text, key: LeaseKey, id: nat, stored: bool)
    requires Inv(db) && Tracks(db, key, id, stored) && EnqueueTx(db, env, owner, a, message).Commit?
    ensures Tracks(ApplyAll(db, EnqueueTx(db, env, owner, a, message).Log()), key, id,
                   stored || (a == key.agent && NextRowid(db.steering) == id))
  {
    var c := Enqueue(a, message, env.now);
    EnqueueLog(db, env, owner, a, message);
    OneLegal(db, c);
    ChangeTracks(db, c, key, id, stored);
  }

  lemma WorkerUntouching(db: Db, env: Env, req: Request)
    requires Reconciles(req) && !req.AcknowledgeSteering? && !req.EnqueueSteering? && !req.InterruptRuntime?
    ensures Untouching(Body(db, env, req).Log())
  {
    WorkerLogIsShort(db, env, req);
  }

  lemma ReleasesUntouching(log: seq<Change>, rows: seq<Id>, mail: bool)
    requires Releases(log, rows, mail)
    ensures Untouching(log)
  {
  }

  lemma BodyUntouching(db: Db, env: Env, req: Request)
    requires Inv(db) && IsScan(env.scan, db.agents) && Reconciles(req) && !req.AcknowledgeSteering? && !req.EnqueueSteering?
    ensures Untouching(Body(db, env, req).Log())
  {
    if req.InterruptRuntime? {
      InterruptReleases(db, env, req.message);
      ReleasesUntouching(Body(db, env, req).Log(), RuntimeRows(env.scan, db.agents, env.runtime), env.mail);
    } else {
      WorkerUntouching(db, env, req);
    }
  }

  lemma EnqueueServed(db: Db, env: Env, req: Request, key: LeaseKey, id: nat, stored: bool)
    requires Inv(db) && Possible(db, env, req) && req.EnqueueSteering? && Tracks(db, key, id, stored)
    ensures Tracks(Serve(db, env, req), key, id, stored || Issues(db, Event(env, req), key.agent, id))
  {
    MidTracks(db, env, key, id, stored);
    ServeIsBody(db, env, req);
    EnqueueBody(Mid(db, env), env, req);
    BodyCommits(db, env, req);
    if EnqueueTx(Mid(db, env), env, req.owner, req.a, req.message).Commit? {
      EnqueueTracks(Mid(db, env), env, req.owner, req.a, req.message, key, id, stored);
    }
  }

  lemma EnqueueBody(db: Db, env: Env, req: Request)
    requires req.EnqueueSteering?
    ensures var tx := EnqueueTx(db, env, req.owner, req.a, req.message);
            Body(db, env, req).Log() == tx.Log() && (Body(db, env, req).Commit? <==> tx.Commit?)
  {
  }

  lemma BodyCommits(db: Db, env: Env, req: Request)
    requires Reconciles(req)
    ensures Transaction(db, env, req).Commit? <==> Body(Mid(db, env), env, req).Commit?
  {
  }

  lemma AcknowledgeServed(db: Db, env: Env, req: Request, key: LeaseKey, id: nat, stored: bool)
    requires Inv(db) && Possible(db, env, req) && req.AcknowledgeSteering? && req.key != key && Tracks(db, key, id, stored)
    ensures Tracks(Serve(db, env, req), key, id, stored)
  {
    MidTracks(db, env, key, id, stored);
    ServeIsBody(db, env, req);
    BodyOfAcknowledgement(Mid(db, env), env, req.key, req.id);
    OtherRepeats(Mid(db, env), env, req.key, req.id, key, stored, id);
  }

  lemma OtherServed(db: Db, env: Env, req: Request, key: LeaseKey, id: nat, stored: bool)
    requires Inv(db) && Possible(db, env, req) && Reconciles(req) && !req.AcknowledgeSteering? && !req.EnqueueSteering?
    requires Tracks(db, key, id, stored)
    ensures Tracks(Serve(db, env, req), key, id, stored)
  {
    var mid := Mid(db, env);
    MidTracks(db, env, key, id, stored);
    MidPossible(db, env, req);
    ServeIsBody(db, env, req);
    BodyLegal(mid, env, req);
    BodyUntouching(mid, env, req);
    ChangesTrack(mid, Body(mid, env, req).Log(), key, id, stored);
  }

  lemma MailUntouching(db: Db, env: Env, req: Request)
    requires !Reconciles(req)
    ensures Untouching(Transaction(db, env, req).Log())
  {
  }

  lemma MailServed(db: Db, env: Env, req: Request, key: LeaseKey, id: nat, stored: bool)
    requires Inv(db) && Possible(db, env, req) && !Reconciles(req) && Tracks(db, key, id, stored)
    ensures Tracks(Serve(db, env, req), key, id, stored)
  {
    MailLegal(db, env, req);
    MailUntouching(db, env, req);
    ChangesTrack(db, Transaction(db, env, req).Log(), key, id, stored);
  }

  lemma ServeTracks(db: Db, env: Env, req: Request, key: LeaseKey, id: nat, stored: bool)
    requires Inv(db) && Possible(db, env, req) && Tracks(db, key, id, stored)
    requires !(req.AcknowledgeSteering? && req.key == key)
    ensures Tracks(Serve(db, env, req), key, id, stored || Issues(db, Event(env, req), key.agent, id))
  {
    if req.EnqueueSteering? {
      EnqueueServed(db, env, req, key, id, stored);
    } else if req.AcknowledgeSteering? {
      AcknowledgeServed(db, env, req, key, id, stored);
    } else if Reconciles(req) {
      OtherServed(db, env, req, key, id, stored);
    } else {
      MailServed(db, env, req, key, id, stored);
    }
  }

  /** The id has been given out again to a message for the agent. */
  ghost predicate Reissued(db: Db, a: Id, id: nat, history: seq<Event>) {
    history != [] &&
      var first, last := history[..|history| - 1], history[|history| - 1];
      Reissued(db, a, id, first) || Issues(After(db, first), last, a, id)
  }

  predicate AwaitsReply(history: seq<Event>, key: LeaseKey) {
    forall i | 0 <= i < |history| :: !(history[i].req.AcknowledgeSteering? && history[i].req.key == key)
  }

  lemma {:induction false} HistoryTracks(db: Db, key: LeaseKey, id: nat, history: seq<Event>)
    requires Inv(db) && Allowed(db, history) && Tracks(db, key, id, false) && AwaitsReply(history, key)
    ensures Tracks(After(db, history), key, id, Reissued(db, key.agent, id, history))
  {
    if history != [] {
      var first, last := history[..|history| - 1], history[|history| - 1];
      HistoryTracks(db, key, id, first);
      AfterKeepsInv(db, first);
      ServeTracks(After(db, first), last.env, last.req, key, id, Reissued(db, key.agent, id, first));
    }
  }

  // --- the repeat ------------------------------------------------------------

  /** The acknowledgement is accepted and finds a message. */
  ghost predicate Deletes(db: Db, env: Env, key: LeaseKey, id: nat) {
    AcknowledgeTx(Mid(db, env), env, key, id).Log() != []
  }

  lemma StoredIsKeyed(db: Db, key: LeaseKey, id: nat)
    requires Inv(db) && Works(db, key)
    ensures Stored(db.steering, key.agent, id) <==>
              exists i :: 0 <= i < |db.steering| && db.steering[i].id == id
                          && KeyedTo(db.steering[i], key.agent, key.run, key.generation)
  {
    QueueKeyed(db, key.agent);
    if k :| 0 <= k < |Of(db.steering, key.agent)| && Of(db.steering, key.agent)[k].id == id {
      OfMembers(db.steering, key.agent, k);
    }
    if i :| 0 <= i < |db.steering| && db.steering[i].id == id && KeyedTo(db.steering[i], key.agent, key.run, key.generation) {
      OfHas(db.steering, key.agent, i);
    }
  }

  lemma {:induction false} OfHas(steering: seq<SteeringRow>, a: Id, i: nat)
    requires i < |steering| && steering[i].agent == a
    ensures exists k :: 0 <= k < |Of(steering, a)| && Of(steering, a)[k] == steering[i]
  {
    var n := |steering| - 1;
    if i < n {
      OfHas(steering[..n], a, i);
      var k :| 0 <= k < |Of(steering[..n], a)| && Of(steering[..n], a)[k] == steering[i];
      assert Of(steering, a)[k] == steering[i];
    } else {
      assert Of(steering, a)[|Of(steering, a)| - 1] == steering[i];
    }
  }

  lemma DeletesStored(db: Db, env: Env, key: LeaseKey, id: nat, stored: bool)
    requires Inv(db) && Tracks(db, key, id, stored)
    ensures AcknowledgeTx(db, env, key, id).Log() != [] <==> ValidateActive(db, key, env.runtime, env.now).None? && stored
  {
    if ValidateActive(db, key, env.runtime, env.now).None? {
      StoredIsKeyed(db, key, id);
    }
  }

  /** After a first acknowledgement nothing is stored under the id. */
  lemma FirstTracks(db: Db, env: Env, key: LeaseKey, id: nat)
    requires Inv(db) && Works(db, key) && AcknowledgeTx(db, env, key, id).Commit?
    ensures Tracks(ApplyAll(db, AcknowledgeTx(db, env, key, id).log), key, id, false)
  {
    AgentFact(db.agents, db.runs, key.agent);
    StoredIsKeyed(db, key, id);
    if AcknowledgeTx(db, env, key, id).log != [] {
      var db' := Apply(db, Dequeue(id));
      OneLegal(db, Dequeue(id));
      SteeringAfter(db, Dequeue(id));
      DropIsGone(db.steering, id);
      forall k | 0 <= k < |Of(db'.steering, key.agent)|
        ensures Of(db'.steering, key.agent)[k].id != id
      {
        OfMembers(db'.steering, key.agent, k);
      }
    }
  }

  lemma {:induction false} DropIsGone(steering: seq<SteeringRow>, id: nat)
    ensures forall i | 0 <= i < |DropId(steering, id)| :: DropId(steering, id)[i].id != id
  {
    if steering != [] {
      DropIsGone(steering[..|steering| - 1], id);
    }
  }

  lemma FirstServed(db: Db, env: Env, key: LeaseKey, id: nat)
    requires Inv(db) && IsScan(env.scan, db.agents) && Works(Mid(db, env), key)
    requires AcknowledgeTx(Mid(db, env), env, key, id).Commit?
    ensures Inv(Serve(db, env, AcknowledgeSteering(key, id))) && Tracks(Serve(db, env, AcknowledgeSteering(key, id)), key, id, false)
  {
    var req := AcknowledgeSteering(key, id);
    MidFacts(db, env);
    ServeKeepsInv(db, env, req);
    FirstTracks(Mid(db, env), env, key, id);
    BodyOfAcknowledgement(Mid(db, env), env, key, id);
    BodyCommits(db, env, req);
    ServeIsBody(db, env, req);
  }

  /** Repeating an acknowledgement deletes a message if and only if the repeat is still
      accepted and, since the first one, the id has been given out again: a message was
      queued for the agent while the largest id in the table was the one before. */
  lemma RepeatDeletesReissued(db: Db, env: Env, key: LeaseKey, id: nat, history: seq<Event>, again: Env)
    requires Inv(db) && IsScan(env.scan, db.agents) && Works(Mid(db, env), key)
    requires AcknowledgeTx(Mid(db, env), env, key, id).Commit?
    requires Allowed(Serve(db, env, AcknowledgeSteering(key, id)), history) && AwaitsReply(history, key)
    requires IsScan(again.scan, After(Serve(db, env, AcknowledgeSteering(key, id)), history).agents)
    ensures var db1 := Serve(db, env, AcknowledgeSteering(key, id));
            var db2 := After(db1, history);
            Deletes(db2, again, key, id) <==>
              ValidateActive(Mid(db2, again), key, again.runtime, again.now).None? && Reissued(db1, key.agent, id, history)
  {
    var db1 := Serve(db, env, AcknowledgeSteering(key, id));
    FirstServed(db, env, key, id);
    RepeatLater(db1, key, id, history, again);
  }

  lemma RepeatLater(db: Db, key: LeaseKey, id: nat, history: seq<Event>, again: Env)
    requires Inv(db) && Tracks(db, key, id, false) && Allowed(db, history) && AwaitsReply(history, key)
    requires IsScan(again.scan, After(db, history).agents)
    ensures var db2 := After(db, history);
            Deletes(db2, again, key, id) <==>
              ValidateActive(Mid(db2, again), key, again.runtime, again.now).None? && Reissued(db, key.agent, id, history)
  {
    var db2 := After(db, history);
    AfterKeepsInv(db, history);
    HistoryTracks(db, key, id, history);
    MidTracks(db2, again, key, id, Reissued(db, key.agent, id, history));
    DeletesStored(Mid(db2, again), again, key, id, Reissued(db, key.agent, id, history));
  }

  // --- a message that is lost ------------------------------------------------

  /** A running claim is untouched by a reconciliation before its lease ends. */
  lemma WorksOn(db: Db, env: Env, key: LeaseKey)
    requires Inv(db) && IsScan(env.scan, db.agents) && Works(db, key) && env.now < db.agents[key.agent].lease.value.expires
    ensures var mid := Mid(db, env);
            && Inv(mid) && Works(mid, key) && mid.agents[key.agent] == db.agents[key.agent] && mid.steering == db.steering
            && mid.agents.Keys == db.agents.Keys
            && key.run in mid.runs && mid.runs[key.run].agent == key.agent && mid.runs[key.run].status.RunRunning?
            && mid.runs[key.run].generation == key.generation
            && (env.runtime == key.runtime ==> ValidateActive(mid, key, env.runtime, env.now).None?)
  {
    MidFacts(db, env);
    ReconcileKeepsClaim(db, env, key.agent);
    AgentFact(Mid(db, env).agents, Mid(db, env).runs, key.agent);
    OneLeaseMatches(Mid(db, env), key, env.runtime, env.now);
  }

  lemma AcknowledgeOnly(db: Db, env: Env, key: LeaseKey, m: SteeringRow, id: nat)
    requires Inv(db) && IsScan(env.scan, db.agents) && Works(db, key) && env.now < db.agents[key.agent].lease.value.expires
    requires env.runtime == key.runtime && db.steering == [m] && m.agent == key.agent
    ensures var db' := Serve(db, env, AcknowledgeSteering(key, id));
            && Inv(db') && Works(db', key) && db'.agents[key.agent] == db.agents[key.agent] && db'.agents.Keys == db.agents.Keys
            && db'.steering == if m.id == id then [] else [m]
  {
    var req, mid := AcknowledgeSteering(key, id), Mid(db, env);
    WorksOn(db, env, key);
    ServeKeepsInv(db, env, req);
    BodyOfAcknowledgement(mid, env, key, id);
    BodyCommits(db, env, req);
    ServeIsBody(db, env, req);
    OnlyRow(mid, env, key, m, id);
  }

  lemma OnlyRow(db: Db, env: Env, key: LeaseKey, m: SteeringRow, id: nat)
    requires Inv(db) && Works(db, key) && db.steering == [m] && m.agent == key.agent
    requires ValidateActive(db, key, env.runtime, env.now).None?
    ensures var db' := ApplyAll(db, AcknowledgeTx(db, env, key, id).Log());
            db'.agents == db.agents && db'.steering == if m.id == id then [] else [m]
  {
    QueueKeyed(db, key.agent);
    assert db.steering[0] == m && KeyedTo(db.steering[0], key.agent, key.run, key.generation);
    if m.id == id {
      OneLegal(db, Dequeue(id));
      RowsAfter(db, Dequeue(id));
      assert [m][..0] == [];
      assert DropId([m], id) == [];
    } else {
      assert AcknowledgeTx(db, env, key, id).Log() == [];
    }
  }

  lemma EnqueueFirst(db: Db, env: Env, key: LeaseKey, owner: Text, text: Text)
    requires Inv(db) && IsScan(env.scan, db.agents) && Works(db, key) && env.now < db.agents[key.agent].lease.value.expires
    requires db.steering == [] && owner == db.agents[key.agent].owner
    ensures var db' := Serve(db, env, EnqueueSteering(owner, key.agent, text));
            && Inv(db') && Works(db', key) && db'.agents[key.agent] == db.agents[key.agent] && db'.agents.Keys == db.agents.Keys
            && |db'.steering| == 1 && db'.steering[0].id == 1 && db'.steering[0].agent == key.agent
            && db'.steering[0].message == text
  {
    var req, mid := EnqueueSteering(owner, key.agent, text), Mid(db, env);
    WorksOn(db, env, key);
    ServeKeepsInv(db, env, req);
    EnqueueBody(mid, env, req);
    BodyCommits(db, env, req);
    ServeIsBody(db, env, req);
    FirstRow(mid, env, key, owner, text);
  }

  lemma FirstRow(db: Db, env: Env, key: LeaseKey, owner: Text, text: Text)
    requires Inv(db) && Works(db, key) && env.now < db.agents[key.agent].lease.value.expires
    requires db.steering == [] && owner == db.agents[key.agent].owner
    ensures var db' := ApplyAll(db, EnqueueTx(db, env, owner, key.agent, text).Log());
            && EnqueueTx(db, env, owner, key.agent, text).Commit?
            && db'.agents == db.agents && |db'.steering| == 1 && db'.steering[0].id == 1
            && db'.steering[0].agent == key.agent && db'.steering[0].message == text
  {
    AgentFact(db.agents, db.runs, key.agent);
    EnqueueLog(db, env, owner, key.agent, text);
    OneLegal(db, Enqueue(key.agent, text, env.now));
    RowsAfter(db, Enqueue(key.agent, text, env.now));
  }

  /** From every state in which a running claim's oldest message is the only one in the
      table: it is acknowledged, another is queued, and the acknowledgement is repeated
      before the lease ends. The new message, which nobody was given, is gone if and only
      if the first one had the first id. */
  lemma RepeatLosesMessage(db: Db, key: LeaseKey, m: SteeringRow, text: Text, first: Env, second: Env, third: Env)
    requires Inv(db) && Works(db, key) && db.steering == [m] && m.agent == key.agent
    requires first.runtime == third.runtime == key.runtime
    requires IsScan(first.scan, db.agents) && IsScan(second.scan, db.agents) && IsScan(third.scan, db.agents)
    requires var expires := db.agents[key.agent].lease.value.expires;
             first.now < expires && second.now < expires && third.now < expires
    ensures var ack := AcknowledgeSteering(key, m.id);
            var db1 := Serve(db, first, ack);
            var db2 := Serve(db1, second, EnqueueSteering(db.agents[key.agent].owner, key.agent, text));
            var db3 := Serve(db2, third, ack);
            && Bodies(db1.steering) == [] && Bodies(db2.steering) == [text]
            && Bodies(db3.steering) == if m.id == 1 then [] else [text]
  {
    var db1 := Serve(db, first, AcknowledgeSteering(key, m.id));
    AcknowledgeOnly(db, first, key, m, m.id);
    SameScan(second.scan, db.agents, db1.agents);
    SameScan(third.scan, db.agents, db1.agents);
    RepeatAfterEnqueue(db1, key, m.id, text, second, third);
  }

  lemma RepeatAfterEnqueue(db: Db, key: LeaseKey, id: nat, text: Text, second: Env, third: Env)
    requires Inv(db) && Works(db, key) && db.steering == [] && third.runtime == key.runtime
    requires IsScan(second.scan, db.agents) && IsScan(third.scan, db.agents)
    requires second.now < db.agents[key.agent].lease.value.expires && third.now < db.agents[key.agent].lease.value.expires
    ensures var db2 := Serve(db, second, EnqueueSteering(db.agents[key.agent].owner, key.agent, text));
            && Bodies(db2.steering) == [text]
            && Bodies(Serve(db2, third, AcknowledgeSteering(key, id)).steering) == if id == 1 then [] else [text]
  {
    var db2 := Serve(db, second, EnqueueSteering(db.agents[key.agent].owner, key.agent, text));
    EnqueueFirst(db, second, key, db.agents[key.agent].owner, text);
    SameScan(third.scan, db.agents, db2.agents);
    RepeatOnly(db2, third, key, id, text);
  }

  lemma RepeatOnly(db: Db, env: Env, key: LeaseKey, id: nat, text: Text)
    requires Inv(db) && IsScan(env.scan, db.agents) && Works(db, key) && env.now < db.agents[key.agent].lease.value.expires
    requires env.runtime == key.runtime && |db.steering| == 1 && db.steering[0].id == 1 && db.steering[0].agent == key.agent
    requires db.steering[0].message == text
    ensures Bodies(Serve(db, env, AcknowledgeSteering(key, id)).steering) == if id == 1 then [] else [text]
  {
    assert db.steering == [db.steering[0]];
    AcknowledgeOnly(db, env, key, db.steering[0], id);
  }

  lemma SameScan(scan: seq<Id>, agents: map<Id, AgentRow>, agents': map<Id, AgentRow>)
    requires IsScan(scan, agents) && agents'.Keys == agents.Keys
    ensures IsScan(scan, agents')
  {
    assert forall a :: a in agents' <==> a in agents;
  }
}

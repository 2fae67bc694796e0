/** Recording an outcome: it is final, and recording it again changes nothing. */
module Idempotence {
  import opened Types
  import opened Schema
  import opened Changes
  import opened Coherence
  import opened Guards
  import opened Transactions
  import opened Legality
  import opened Evolution
  import opened Fencing

  /** The run of a claim is over with this very outcome. */
  predicate Recorded(db: Db, key: LeaseKey, status: TerminalStatus, update: TerminalUpdate) {
    && RowsFound(db, key) && ValidateRunToken(db.runs[key.run], key).None?
    && db.runs[key.run].status == status.Run()
    && db.runs[key.run].result == update.result && db.runs[key.run].error == update.error
  }

  /** On a run that is over, an outcome is accepted if and only if it is the recorded
      one, and then nothing is written. */
  lemma OverAcceptsOnlyRecorded(db: Db, env: Env, key: LeaseKey, status: TerminalStatus, update: TerminalUpdate)
    requires RowsFound(db, key) && !db.runs[key.run].status.Active()
    ensures var tx := TerminalTx(db, env, key, status, update);
            && tx.Log() == []
            && (tx.Commit? <==> Recorded(db, key, status, update))
            && (tx.Commit? ==> tx.value == View(key.agent, db.agents[key.agent], key.run, db.runs[key.run]))
  {
  }

  lemma RecordedStays(db: Db, db': Db, key: LeaseKey, status: TerminalStatus, update: TerminalUpdate)
    requires Inv(db') && Evolves(db, db') && Recorded(db, key, status, update)
    ensures Recorded(db', key, status, update) && db'.runs[key.run] == db.runs[key.run]
  {
    assert db'.runs[key.run] == db.runs[key.run];
    RunFact(db'.agents, db'.runs, key.run);
  }

  lemma EndRecords(db: Db, env: Env, key: LeaseKey, status: TerminalStatus, update: TerminalUpdate)
    requires Inv(db) && TerminalTx(db, env, key, status, update).Commit?
    ensures Recorded(ApplyAll(db, TerminalTx(db, env, key, status, update).log), key, status, update)
  {
    var tx := TerminalTx(db, env, key, status, update);
    if db.runs[key.run].status.Active() {
      var c := tx.log[0];
      assert tx.log == [c];
      TerminalLegal(db, env, key, status, update);
      assert [c][..0] == [];
      RowsAfter(db, c);
    } else {
      OverAcceptsOnlyRecorded(db, env, key, status, update);
    }
  }

  lemma FinishRecords(db: Db, env: Env, key: LeaseKey, status: TerminalStatus, update: TerminalUpdate)
    requires Inv(db) && IsScan(env.scan, db.agents)
    requires Transaction(db, env, Finish(key, status, update)).Commit?
    ensures Recorded(Serve(db, env, Finish(key, status, update)), key, status, update)
  {
    var req := Finish(key, status, update);
    MidFacts(db, env);
    ServeIsBody(db, env, req);
    EndRecords(Mid(db, env), env, key, status, update);
  }

  lemma RepeatedBody(db: Db, env: Env, key: LeaseKey, status: TerminalStatus, update: TerminalUpdate)
    requires Recorded(db, key, status, update)
    ensures Body(db, env, Finish(key, status, update)) == Commit([], ())
  {
    OverAcceptsOnlyRecorded(db, env, key, status, update);
  }

  lemma OnlyReconciles(db: Db, env: Env, req: Request)
    requires Reconciles(req) && Body(Mid(db, env), env, req) == Commit([], ())
    ensures Transaction(db, env, req) == Commit(Reconcile(db, env), ())
  {
    assert Reconcile(db, env) + [] == Reconcile(db, env);
  }

  lemma RecordedAfterReconciling(db: Db, env: Env, key: LeaseKey, status: TerminalStatus, update: TerminalUpdate)
    requires Inv(db) && IsScan(env.scan, db.agents) && Recorded(db, key, status, update)
    ensures Recorded(Mid(db, env), key, status, update) && Mid(db, env).runs[key.run] == db.runs[key.run]
  {
    MidFacts(db, env);
    ChangesEvolve(db, Reconcile(db, env));
    RecordedStays(db, Mid(db, env), key, status, update);
  }

  lemma RepeatOnlyReconciles(db: Db, env: Env, key: LeaseKey, status: TerminalStatus, update: TerminalUpdate)
    requires Inv(db) && IsScan(env.scan, db.agents) && Recorded(db, key, status, update)
    ensures Transaction(db, env, Finish(key, status, update)) == Commit(Reconcile(db, env), ())
  {
    RecordedAfterReconciling(db, env, key, status, update);
    RepeatedBody(Mid(db, env), env, key, status, update);
    OnlyReconciles(db, env, Finish(key, status, update));
  }

  /** A recorded outcome stays recorded, and its run row stays as it is. */
  lemma RecordedForGood(db: Db, history: seq<Event>, key: LeaseKey, status: TerminalStatus, update: TerminalUpdate)
    requires Inv(db) && Allowed(db, history) && Recorded(db, key, status, update)
    ensures Inv(After(db, history)) && Recorded(After(db, history), key, status, update)
    ensures After(db, history).runs[key.run] == db.runs[key.run]
  {
    AfterKeepsInv(db, history);
    HistoryEvolves(db, history);
    RecordedStays(db, After(db, history), key, status, update);
  }

  ghost predicate Repeats(db: Db, env: Env, key: LeaseKey, status: TerminalStatus, update: TerminalUpdate) {
    IsScan(env.scan, db.agents) ==>
      Transaction(db, env, Finish(key, status, update)) == Commit(Reconcile(db, env), ())
  }

  lemma RecordedRepeats(db: Db, key: LeaseKey, status: TerminalStatus, update: TerminalUpdate)
    requires Inv(db) && Recorded(db, key, status, update)
    ensures forall env :: Repeats(db, env, key, status, update)
  {
    forall env
      ensures Repeats(db, env, key, status, update)
    {
      if IsScan(env.scan, db.agents) {
        RepeatOnlyReconciles(db, env, key, status, update);
      }
    }
  }

  /** Once an outcome has been committed, the same request succeeds in every later state,
      whatever follow-ups were claimed meanwhile, and does nothing beyond reconciling. */
  lemma FinishIsIdempotent(db: Db, env: Env, key: LeaseKey, status: TerminalStatus, update: TerminalUpdate,
                           history: seq<Event>)
    requires Inv(db) && IsScan(env.scan, db.agents)
    requires Transaction(db, env, Finish(key, status, update)).Commit?
    requires Allowed(Serve(db, env, Finish(key, status, update)), history)
    ensures forall again :: Repeats(After(Serve(db, env, Finish(key, status, update)), history), again, key, status, update)
  {
    var db1 := Serve(db, env, Finish(key, status, update));
    FinishRecords(db, env, key, status, update);
    ServeKeepsInv(db, env, Finish(key, status, update));
    RecordedForGood(db1, history, key, status, update);
    RecordedRepeats(After(db1, history), key, status, update);
  }
}

/** What committed operations mean for their callers: how long a lease lasts, what one
    call undoes, and what a follow-up or a cancellation leaves alone. */
module Outcomes {
  import opened Texts
  import opened Types
  import opened Schema
  import opened Changes
  import opened Coherence
  import opened Transactions
  import opened Legality
  import opened Fencing
  import opened Notifications
  import opened Steering
  import opened Reading
  import opened Budgets

  /** A lease stands for exactly a minute from now. */
  ghost predicate Lasts(db: Db, key: LeaseKey, now: real) {
    forall t: real :: Owns(db, key, key.runtime, t) <==> t < now + LEASE_SECONDS
  }

  lemma HeldLasts(db: Db, a: Id, now: real)
    requires Inv(db) && a in db.agents && db.agents[a].status.Held() && db.agents[a].lease.Some?
    requires db.agents[a].lease.value.expires == now + LEASE_SECONDS
    ensures Lasts(db, LiveKey(db, a), now)
  {
    var key := LiveKey(db, a);
    forall t: real
      ensures Owns(db, key, key.runtime, t) <==> t < now + LEASE_SECONDS
    {
      OneLeaseMatches(db, key, key.runtime, t);
    }
  }

  lemma CommittedChange(db: Db, c: Change)
    requires Inv(db) && Legal(db, c)
    ensures Inv(ApplyAll(db, [c])) && ApplyAll(db, [c]) == Apply(db, c)
  {
    OneLegal(db, c);
    ChangeKeepsInv(db, c);
  }

  lemma RenewCommits(db: Db, env: Env, key: LeaseKey, canceling: bool)
    requires Inv(db) && RenewTx(db, env, key, canceling).Commit?
    ensures RenewTx(db, env, key, canceling).log == [Renew(key.agent, env.now + LEASE_SECONDS, env.now)]
    ensures Has(db, key.agent) && db.agents[key.agent].status.Held() && db.agents[key.agent].lease.Some?
    ensures LiveKey(db, key.agent) == key
  {
    OneLeaseMatches(db, key, env.runtime, env.now);
  }

  lemma RenewedRow(db: Db, a: Id, expires: real, at: real)
    requires Has(db, a) && db.agents[a].status.Held() && db.agents[a].lease.Some?
    ensures var db' := Apply(db, Renew(a, expires, at));
            && a in db'.agents && db'.agents[a].status.Held() && db'.agents[a].lease.Some?
            && LiveKey(db', a) == LiveKey(db, a) && db'.agents[a].lease.value.expires == expires
  {
    RowsAfter(db, Renew(a, expires, at));
  }

  /** A heartbeat lets the same lease last for another minute, whatever was left of it. */
  lemma RenewalLasts(db: Db, env: Env, key: LeaseKey, canceling: bool)
    requires Inv(db) && RenewTx(db, env, key, canceling).Commit?
    ensures Lasts(ApplyAll(db, RenewTx(db, env, key, canceling).log), key, env.now)
  {
    var c := Renew(key.agent, env.now + LEASE_SECONDS, env.now);
    RenewCommits(db, env, key, canceling);
    CommittedChange(db, c);
    RenewedRow(db, key.agent, env.now + LEASE_SECONDS, env.now);
    HeldLasts(Apply(db, c), key.agent, env.now);
  }

  lemma CancelCommits(db: Db, env: Env, owner: Text, a: Id)
    requires a in db.agents && db.agents[a].status.Active() && CancelTx(db, env, owner, a).Commit?
    ensures CancelTx(db, env, owner, a).log == [BeginCancel(a, env.now + LEASE_SECONDS, env.now)]
    ensures Legal(db, BeginCancel(a, env.now + LEASE_SECONDS, env.now))
  {
  }

  lemma CanceledRows(db: Db, a: Id, expires: real, at: real)
    requires Has(db, a) && db.agents[a].status.Active() && db.agents[a].lease.Some?
    ensures var db' := Apply(db, BeginCancel(a, expires, at));
            var r := db.agents[a].activeRun;
            && a in db'.agents && db'.agents[a].status.Canceling? && db'.agents[a].lease.Some?
            && LiveKey(db', a) == LiveKey(db, a) && db'.agents[a].lease.value.expires == expires
            && r in db'.runs && db'.runs[r].status.RunCanceled? && db'.runs[r].completedAt == Some(at)
            && db'.runs[r].agent == db.runs[r].agent
  {
    RowsAfter(db, BeginCancel(a, expires, at));
  }

  /** Canceling a live claim ends its run at once, discards its queue and keeps the
      holder's lease for another minute, so that nobody else can claim the agent. */
  lemma CancelKeepsFence(db: Db, env: Env, owner: Text, a: Id)
    requires Inv(db) && a in db.agents && db.agents[a].status.Active() && CancelTx(db, env, owner, a).Commit?
    ensures db.agents[a].lease.Some? && db.agents[a].activeRun in db.runs
    ensures var db' := ApplyAll(db, CancelTx(db, env, owner, a).log);
            var r := db.agents[a].activeRun;
            && a in db'.agents && db'.agents[a].status.Canceling?
            && Lasts(db', LiveKey(db, a), env.now)
            && r in db'.runs && db'.runs[r].status.RunCanceled? && db'.runs[r].completedAt == Some(env.now)
            && Pending(db', a) == [] && Terminal(r) !in db'.events
  {
    var c := BeginCancel(a, env.now + LEASE_SECONDS, env.now);
    AgentFact(db.agents, db.runs, a);
    CancelCommits(db, env, owner, a);
    CommittedChange(db, c);
    CanceledRows(db, a, env.now + LEASE_SECONDS, env.now);
    HeldLasts(Apply(db, c), a, env.now);
    CanceledQueue(db, c);
    HeldIsUnpublished(Apply(db, c), db.agents[a].activeRun);
  }

  lemma CanceledQueue(db: Db, c: Change)
    requires Inv(db) && Legal(db, c) && c.BeginCancel?
    ensures Pending(Apply(db, c), c.a) == []
  {
    DiscardBalances(db, c.a, c, Ledger([], []));
    SteeringAfter(db, c);
  }

  lemma ClaimCommits(db: Db, env: Env, owner: Text, a: Id, r: Id, token: Text, task: Text)
    requires Inv(db) && r !in db.runs && |r| == ID_BYTES && ClaimTx(db, env, owner, a, r, token, task).Commit?
    ensures var c := Reclaim(a, r, task, LeaseCells(env.runtime, token, env.now + LEASE_SECONDS), env.now);
            ClaimTx(db, env, owner, a, r, token, task).log == [c] && Legal(db, c)
  {
  }

  /** Everything but the agent's row and the new run's stays as it was. */
  lemma ReclaimFrame(db: Db, c: Change)
    requires c.Reclaim? && Legal(db, c)
    ensures var db' := Apply(db, c);
            && (forall s | s in db.runs :: s in db'.runs && db'.runs[s] == db.runs[s])
            && (forall b :: Pending(db', b) == Pending(db, b))
            && (forall b | b in db.agents && b != c.a :: b in db'.agents && db'.agents[b] == db.agents[b])
  {
    RowsAfter(db, c);
    forall b
      ensures Pending(Apply(db, c), b) == Pending(db, b)
    {
      OfRekey(db.steering, c.a, c.r, db.agents[c.a].generation + 1, b);
    }
  }

  lemma ReclaimedRow(db: Db, c: Change)
    requires c.Reclaim? && Legal(db, c)
    ensures var db' := Apply(db, c);
            && c.a in db'.agents && db'.agents[c.a].status.Held() && db'.agents[c.a].lease == Some(c.cells)
            && LiveKey(db', c.a) == LeaseKey(c.a, c.r, db.agents[c.a].generation + 1, c.cells.token, c.cells.runtime)
  {
    RowsAfter(db, c);
  }

  /** A follow-up starts the next generation, with a lease for a minute, and leaves every
      earlier run and every pending message as it was. */
  lemma ClaimStartsNext(db: Db, env: Env, owner: Text, a: Id, r: Id, token: Text, task: Text)
    requires Inv(db) && r !in db.runs && |r| == ID_BYTES && ClaimTx(db, env, owner, a, r, token, task).Commit?
    ensures a in db.agents
    ensures var db' := ApplyAll(db, ClaimTx(db, env, owner, a, r, token, task).log);
            && Lasts(db', LeaseKey(a, r, db.agents[a].generation + 1, token, env.runtime), env.now)
            && (forall s | s in db.runs :: s in db'.runs && db'.runs[s] == db.runs[s])
            && (forall b :: Pending(db', b) == Pending(db, b))
            && (forall b | b in db.agents && b != a :: b in db'.agents && db'.agents[b] == db.agents[b])
  {
    var c := Reclaim(a, r, task, LeaseCells(env.runtime, token, env.now + LEASE_SECONDS), env.now);
    ClaimCommits(db, env, owner, a, r, token, task);
    CommittedChange(db, c);
    ReclaimedRow(db, c);
    ReclaimFrame(db, c);
    HeldLasts(Apply(db, c), a, env.now);
  }

  /** Aborting a first reservation undoes it: no trace of it is left. */
  lemma AbortUndoesCreate(db: Db, c: Change)
    requires Inv(db) && c.Spawn? && Legal(db, c)
    ensures Apply(Apply(db, c), Remove(c.a)) == db
  {
    var db1 := Apply(db, c);
    RowsAfter(db, c);
    forall r | r in db.runs
      ensures db.runs[r].agent != c.a
    {
      RunFact(db.agents, db.runs, r);
    }
    assert NewAgents(db, c) - {c.a} == db.agents;
    assert (map r | r in NewRuns(db, c) && NewRuns(db, c)[r].agent != c.a :: NewRuns(db, c)[r]) == db.runs;
    NothingToDrop(db.steering, c.a);
  }

  lemma {:induction false} NothingToDrop(steering: seq<SteeringRow>, a: Id)
    requires forall i | 0 <= i < |steering| :: steering[i].agent != a
    ensures DropAgent(steering, a) == steering
  {
    if steering != [] {
      NothingToDrop(steering[..|steering| - 1], a);
    }
  }

  /** A new reservation can be aborted by its holder for as long as its lease lasts. */
  lemma AbortAccepted(db: Db, c: Change, env: Env)
    requires Inv(db) && c.Spawn? && Legal(db, c) && env.runtime == c.cells.runtime && env.now < c.cells.expires
    ensures AbortTx(Apply(db, c), env, LeaseKey(c.a, c.r, 1, c.cells.token, c.cells.runtime)) == Commit([Remove(c.a)], true)
  {
    RowsAfter(db, c);
  }

  /** A mail that was sent is in its recipient's inbox, last of all mails, and can be
      read there as it was sent. */
  lemma SentIsReadable(db: Db, env: Env, who: Identity, to: Party, subject: Text, body: Text, later: Env)
    requires Inv(db) && SendTx(db, env, who, to, subject, body).Commit?
    ensures var tx := SendTx(db, env, who, to, subject, body);
            var db' := ApplyAll(db, tx.log);
            && db'.mails == db.mails + [tx.value]
            && (forall i | 0 <= i < |db.mails| :: db.mails[i].id < tx.value.id)
            && ReadTx(db', later, Identity(who.owner, to), [tx.value.id])
               == Commit([MarkRead({tx.value.id}, later.now)], [Read(tx.value, later.now)])
  {
    var tx := SendTx(db, env, who, to, subject, body);
    SendCommits(db, env, who, to, subject, body);
    CommittedChange(db, tx.log[0]);
    assert tx.log == [tx.log[0]];
    PostedIsLast(db, tx.log[0], to);
    SameBudget(tx.log[0].m, tx.value);
    LastIsReadable(Apply(db, tx.log[0]), tx.value, later, Identity(who.owner, to));
  }

  lemma LastIsReadable(db: Db, m: MailRow, later: Env, who: Identity)
    requires Inv(db) && db.mails != [] && db.mails[|db.mails| - 1] == m && Mine(m, who, m.id) && ValidateMailbox(db, who).Some?
    requires WithinBudget(m)
    ensures ReadTx(db, later, who, [m.id]) == Commit([MarkRead({m.id}, later.now)], [Read(m, later.now)])
  {
    OneMailCanBeRead(db, later, who, |db.mails| - 1);
  }

  lemma PostedIsLast(db: Db, c: Change, to: Party)
    requires AscendingMails(db.mails, db.mailSeq) && c.Post? && c.m.owner in db.rooms && c.m.owner != []
    requires c.m.recipient == to && Contact(db, c.m.owner, to).Some?
    ensures var db' := Apply(db, c);
            var m := c.m.(id := db.mailSeq + 1);
            var who := Identity(c.m.owner, to);
            && db'.mails == db.mails + [m] && (forall i | 0 <= i < |db.mails| :: db.mails[i].id < m.id)
            && Mine(db'.mails[|db.mails|], who, m.id) && ValidateMailbox(db', who).Some?
  {
    forall i | 0 <= i < |db.mails|
      ensures db.mails[i].id <= db.mailSeq
    {
      assert db.mails[i].id <= db.mails[|db.mails| - 1].id;
    }
  }

  lemma SendCommits(db: Db, env: Env, who: Identity, to: Party, subject: Text, body: Text)
    requires SendTx(db, env, who, to, subject, body).Commit?
    ensures var tx := SendTx(db, env, who, to, subject, body);
            && |tx.log| == 1 && tx.log[0].Post? && Legal(db, tx.log[0])
            && tx.value == tx.log[0].m.(id := db.mailSeq + 1) && tx.value.owner == who.owner && tx.value.recipient == to
            && WithinBudget(tx.log[0].m) && who.owner in db.rooms && who.owner != [] && Contact(db, who.owner, to).Some?
  {
  }
}

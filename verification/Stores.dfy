/** The store: an object over the tables whose operations update rows in place. Each is
    proved to commit exactly what its transaction specifies, or nothing. */
module Stores {
  import opened Texts
  import opened Types
  import opened Order
  import opened Notices
  import opened Schema
  import opened Changes
  import opened Coherence
  import opened Guards
  import opened Transactions
  import opened Reconciliation
  import opened Legality
  import opened Fencing
  import opened Runtimes
  import opened Reading
  import opened Identities
  import opened Spaces
  import opened Inputs
  import Budget = MailBudget

  // --- lemmas about the loops ------------------------------------------------

  lemma WorkersCons(m: Id, ids: seq<Id>)
    ensures Workers([m] + ids) == [Worker(m)] + Workers(ids)
  {
  }

  lemma NextRecipient(to: seq<Party>, peers: set<Id>, m: Id)
    requires IsLeast(m, peers)
    ensures to + Workers(Sorted(peers)) == to + [Worker(m)] + Workers(Sorted(peers - {m}))
  {
    SortedNext(peers, m);
    WorkersCons(m, Sorted(peers - {m}));
  }

  lemma NoRecipient(to: seq<Party>)
    ensures to + Workers(Sorted({})) == to
  {
  }

  lemma CopiesSnoc(key: EventKey, a: Id, agent: AgentRow, r: Id, run: RunRow, at: real, first: nat, to: seq<Party>, i: nat)
    requires i < |to|
    ensures Copies(key, a, agent, r, run, at, first, to[..i + 1])
            == Copies(key, a, agent, r, run, at, first, to[..i]) + [Notice(key, a, agent, r, run, at, first + i, to[i])]
  {
    assert to[..i + 1][..i] == to[..i];
  }

  lemma ExpiredSnoc(scan: seq<Id>, agents: map<Id, AgentRow>, cutoff: real, i: nat)
    requires i < |scan|
    ensures ExpiredRows(scan[..i + 1], agents, cutoff)
            == ExpiredRows(scan[..i], agents, cutoff) + if scan[i] in agents && Expired(agents[scan[i]], cutoff) then [scan[i]] else []
  {
    assert scan[..i + 1][..i] == scan[..i];
  }

  lemma RuntimeSnoc(scan: seq<Id>, agents: map<Id, AgentRow>, runtime: Text, i: nat)
    requires i < |scan|
    ensures RuntimeRows(scan[..i + 1], agents, runtime)
            == RuntimeRows(scan[..i], agents, runtime)
               + if scan[i] in agents && HeldUnder(agents[scan[i]], runtime) then [scan[i]] else []
  {
    assert scan[..i + 1][..i] == scan[..i];
  }

  /** The next row of a list of claims to release is still as it was selected. */
  lemma NextStillHeld(db: Db, mid: Db, rows: seq<Id>, i: nat, message: Text, at: real, mail: bool)
    requires Inv(db) && Holders(rows, db.agents) && i < |rows|
    requires mid == ApplyAll(db, ReleaseAll(db, rows[..i], message, at, mail))
    ensures Has(db, rows[i]) && Has(mid, rows[i]) && mid.agents[rows[i]] == db.agents[rows[i]]
    ensures mid.runs[mid.agents[rows[i]].activeRun] == db.runs[db.agents[rows[i]].activeRun]
    ensures AgentOk(rows[i], db.agents[rows[i]], db.runs) && db.agents[rows[i]].status.Held()
  {
    var a := rows[i];
    HoldersPrefix(rows, db.agents, i);
    ReleaseAllEffect(db, rows[..i], message, at, mail);
    assert a !in Ids(rows[..i]);
    AgentFact(db.agents, db.runs, a);
    UntouchedRow(db, mid, Ids(rows[..i]), a, message, at);
  }

  lemma UntouchedRow(db: Db, mid: Db, ended: set<Id>, a: Id, message: Text, at: real)
    requires Released(db, mid, ended, message, at) && a in db.agents && a !in ended && AgentOk(a, db.agents[a], db.runs)
    ensures Has(db, a) && Has(mid, a) && mid.agents[a] == db.agents[a]
    ensures mid.runs[mid.agents[a].activeRun] == db.runs[db.agents[a].activeRun]
  {
  }

  lemma SameRowOk(a: Id, row: AgentRow, runs: map<Id, RunRow>, runs': map<Id, RunRow>)
    requires AgentOk(a, row, runs) && row.activeRun in runs' && runs'[row.activeRun] == runs[row.activeRun]
    ensures AgentOk(a, row, runs')
  {
  }

  /** Releasing it is the list's next change. */
  lemma NextRelease(db: Db, mid: Db, rows: seq<Id>, i: nat, message: Text, at: real, mail: bool)
    requires Inv(db) && Holders(rows, db.agents) && i < |rows|
    requires mid == ApplyAll(db, ReleaseAll(db, rows[..i], message, at, mail))
    ensures rows[i] in db.agents && rows[i] in mid.agents && mid.agents[rows[i]] == db.agents[rows[i]]
    ensures Has(mid, rows[i]) && AgentOk(rows[i], mid.agents[rows[i]], mid.runs) && mid.agents[rows[i]].status.Held()
    ensures var c := if mid.agents[rows[i]].status.Canceling? then FinishCancel(rows[i], at, mail)
                     else Interrupt(mid, rows[i], message, at, mail);
            ApplyAll(db, ReleaseAll(db, rows[..i + 1], message, at, mail)) == Apply(mid, c)
  {
    var a := rows[i];
    NextStillHeld(db, mid, rows, i, message, at, mail);
    SameRowOk(a, db.agents[a], db.runs, mid.runs);
    ReleaseIs(db, mid, a, message, at, mail);
    assert rows[..i + 1][..i] == rows[..i];
    ApplySnoc(db, ReleaseAll(db, rows[..i], message, at, mail), Release(db, a, message, at, mail)[0]);
  }

  lemma HoldersPrefix(rows: seq<Id>, agents: map<Id, AgentRow>, i: nat)
    requires i < |rows| && Holders(rows, agents)
    ensures Holders(rows[..i], agents) && rows[i] in agents && agents[rows[i]].status.Held() && rows[i] !in rows[..i]
  {
    assert forall b | b in rows[..i] :: b in rows;
    assert rows[i] in rows;
  }

  lemma ReleaseIs(db: Db, mid: Db, a: Id, message: Text, at: real, mail: bool)
    requires Has(db, a) && Has(mid, a) && mid.agents[a] == db.agents[a]
    requires mid.runs[mid.agents[a].activeRun] == db.runs[db.agents[a].activeRun]
    requires db.agents[a].status.Held() && Agree(db.agents[a].status, db.runs[db.agents[a].activeRun].status)
    ensures Release(db, a, message, at, mail)
            == [if mid.agents[a].status.Canceling? then FinishCancel(a, at, mail) else Interrupt(mid, a, message, at, mail)]
  {
  }

  // --- transactions ----------------------------------------------------------

  /** What a transaction leaves of the tables it started from. */
  ghost function Outcome<T>(db: Db, env: Env, tx: Tx<T>): Db {
    if tx.Commit? then ApplyAll(Mid(db, env), tx.log) else db
  }

  lemma OutcomeIsServe<T>(db: Db, env: Env, req: Request, tx: Tx<T>)
    requires Inv(db) && Possible(db, env, req) && Reconciles(req) && Body(Mid(db, env), env, req) == Forget(tx)
    ensures Outcome(db, env, tx) == Serve(db, env, req) && Inv(Outcome(db, env, tx))
  {
    ServeIsBody(db, env, req);
    CommitNeedsBody(db, env, req);
    ServeKeepsInv(db, env, req);
  }

  lemma OneChange(db: Db, c: Change)
    ensures ApplyAll(db, [c]) == Apply(db, c)
  {
    assert [c][..0] == [];
  }

  /** A transaction that makes one change and returns the agent as it is then. */
  lemma FetchedAfter(db: Db, c: Change, a: Id, run: Option<Id>)
    ensures ApplyAll(db, [c]) == Apply(db, c)
    ensures FetchAfter(db, [c], a, run)
            == match Fetch(Apply(db, c), a, run, []) case Ok(view) => Commit([c], view) case Err(error) => Rollback(error)
  {
    OneChange(db, c);
  }

  function RenewRequest(key: LeaseKey, canceling: bool): Request {
    if canceling then HeartbeatCanceling(key) else Heartbeat(key)
  }

  lemma RenewOutcome(db: Db, env: Env, key: LeaseKey, canceling: bool)
    requires Inv(db) && IsScan(env.scan, db.agents)
    ensures var tx := RenewTx(Mid(db, env), env, key, canceling);
            Outcome(db, env, tx) == Serve(db, env, RenewRequest(key, canceling)) && Inv(Outcome(db, env, tx))
  {
    var tx := RenewTx(Mid(db, env), env, key, canceling);
    if canceling {
      OutcomeIsServe(db, env, HeartbeatCanceling(key), tx);
    } else {
      OutcomeIsServe(db, env, Heartbeat(key), tx);
    }
  }

  lemma TerminalOutcome(db: Db, env: Env, key: LeaseKey, status: TerminalStatus, update: TerminalUpdate)
    requires Inv(db) && IsScan(env.scan, db.agents)
    ensures var tx := TerminalTx(Mid(db, env), env, key, status, update);
            Outcome(db, env, tx) == Serve(db, env, Finish(key, status, update)) && Inv(Outcome(db, env, tx))
  {
    OutcomeIsServe(db, env, Finish(key, status, update), TerminalTx(Mid(db, env), env, key, status, update));
  }

  lemma NextOutcome(db: Db, env: Env, key: LeaseKey)
    requires Inv(db) && IsScan(env.scan, db.agents)
    ensures var tx := NextTx(Mid(db, env), env, key);
            Outcome(db, env, tx) == Serve(db, env, Transactions.NextSteering(key)) && Inv(Outcome(db, env, tx))
  {
    OutcomeIsServe(db, env, Transactions.NextSteering(key), NextTx(Mid(db, env), env, key));
  }

  /** The state after a committed reservation holds the new claim. */
  ghost predicate Reserved(db: Db, a: Id, r: Id, token: Text, env: Env) {
    && a in db.agents && db.agents[a].lease.Some? && db.agents[a].lease.value.expires == env.now + LEASE_SECONDS
    && LiveKey(db, a) == LeaseKey(a, r, db.agents[a].generation, token, env.runtime)
    && Owns(db, LiveKey(db, a), env.runtime, env.now)
  }

  lemma CreateHandsOut(db: Db, env: Env, req: Request)
    requires Inv(db) && Possible(db, env, req) && req.Create?
    requires CreateTx(Mid(db, env), env, req.a, req.r, req.token, req.owner, req.name, req.task, req.cwd, req.mode).Commit?
    ensures Reserved(Serve(db, env, req), req.a, req.r, req.token, env)
  {
    CommitNeedsBody(db, env, req);
    ReservationOwns(db, env, req);
    ReservationGives(db, env, req);
  }

  lemma ClaimHandsOut(db: Db, env: Env, req: Request)
    requires Inv(db) && Possible(db, env, req) && req.Claim?
    requires ClaimTx(Mid(db, env), env, req.owner, req.a, req.r, req.token, req.task).Commit?
    ensures Reserved(Serve(db, env, req), req.a, req.r, req.token, env)
  {
    CommitNeedsBody(db, env, req);
    ReservationOwns(db, env, req);
    ReservationGives(db, env, req);
  }

  predicate AtLimit(agents: map<Id, AgentRow>, owner: Text) {
    |HeldBy(agents, owner)| >= MAX_ACTIVE_PER_OWNER || |HeldAgents(agents)| >= MAX_ACTIVE_TOTAL
  }

  lemma CreateCases(db: Db, env: Env, a: Id, r: Id, token: Text, owner: Text, name: Text, task: Text, cwd: Text,
                    mode: ContextMode)
    ensures var tx := CreateTx(db, env, a, r, token, owner, name, task, cwd, mode);
            var taken := exists b :: b in db.agents && db.agents[b].owner == owner && db.agents[b].name == name;
            var c := Spawn(a, r, name, owner, mode, cwd, task, LeaseCells(env.runtime, token, env.now + LEASE_SECONDS), env.now);
            tx == if AtLimit(db.agents, owner) then Rollback(Limit)
                  else if taken then Rollback(Conflict)
                  else FetchAfter(db, [c], a, None)
  {
  }

  // --- lemmas about mail -----------------------------------------------------

  lemma MailOutcome(db: Db, env: Env, req: Request)
    requires Inv(db) && IsScan(env.scan, db.agents) && !Reconciles(req)
    ensures Inv(Serve(db, env, req)) && Serve(db, env, req) == ApplyAll(db, Transaction(db, env, req).Log())
  {
    ServeKeepsInv(db, env, req);
  }

  lemma SendCases(db: Db, env: Env, who: Identity, to: Party, subject: Text, body: Text)
    ensures var sender := ValidateMailbox(db, who);
            var tx := SendTx(db, env, who, to, subject, body);
            tx == if sender.None? then Rollback(NotFound)
                  else if to == who.contact then Rollback(Invalid)
                  else if Contact(db, who.owner, to).None? then Rollback(NotFound)
                  else
                    var mail := MailRow(0, who.owner, None, sender.value, to, Message(subject, body), [], [], env.now, None);
                    if MailBytes(mail) > Budget.MAX_MAIL_READ_BYTES then Rollback(Invalid)
                    else Commit([Post(mail)], mail.(id := db.mailSeq + 1))
  {
  }

  lemma RepeatedId(ids: seq<nat>, i: nat)
    requires i < |ids| && (ids[i] == 0 || ids[i] in IdSet(ids[..i]))
    ensures !Distinct(ids)
  {
    if ids[i] in IdSet(ids[..i]) {
      var k :| 0 <= k < i && ids[..i][k] == ids[i];
      assert ids[k] == ids[i];
    }
  }

  lemma DistinctSnoc(ids: seq<nat>, i: nat)
    requires i < |ids| && Distinct(ids[..i]) && ids[i] > 0 && ids[i] !in IdSet(ids[..i])
    ensures Distinct(ids[..i + 1]) && IdSet(ids[..i + 1]) == IdSet(ids[..i]) + {ids[i]}
  {
    assert ids[..i + 1] == ids[..i] + [ids[i]];
    forall k | 0 <= k < i
      ensures ids[k] != ids[i]
    {
      assert ids[..i][k] in ids[..i];
    }
  }

  function Prepend(found: seq<MailRow>, rest: Reply<seq<MailRow>>): Reply<seq<MailRow>> {
    match rest
    case Ok(more) => Ok(found + more)
    case Err(error) => Err(error)
  }

  lemma CollectStart(mails: seq<MailRow>, who: Identity, ids: seq<nat>, size: MailRow -> nat)
    ensures Collect(mails, who, ids, 0, size) == Prepend([], Collect(mails, who, ids[0..], 0, size))
  {
    assert ids[0..] == ids;
    match Collect(mails, who, ids, 0, size)
    case Ok(more) => assert [] + more == more;
    case Err(_) =>
  }

  lemma CollectEnd(mails: seq<MailRow>, who: Identity, ids: seq<nat>, total: nat, size: MailRow -> nat, found: seq<MailRow>)
    ensures Prepend(found, Collect(mails, who, ids[|ids|..], total, size)) == Ok(found)
  {
    assert ids[|ids|..] == [] && found + [] == found;
  }

  lemma CollectNext(mails: seq<MailRow>, who: Identity, ids: seq<nat>, i: nat, total: nat, size: MailRow -> nat, found: seq<MailRow>)
    requires i < |ids|
    ensures var m := FindMail(mails, who, ids[i]);
            Prepend(found, Collect(mails, who, ids[i..], total, size))
            == if m.None? then Err(NotFound)
               else if total + size(m.value) > Budget.MAX_MAIL_READ_BYTES then Err(Invalid)
               else Prepend(found + [m.value], Collect(mails, who, ids[i + 1..], total + size(m.value), size))
  {
    assert ids[i..][1..] == ids[i + 1..];
    var m := FindMail(mails, who, ids[i]);
    if m.Some? {
      match Collect(mails, who, ids[i + 1..], total + size(m.value), size)
      case Ok(rest) => assert found + ([m.value] + rest) == found + [m.value] + rest;
      case Err(_) =>
    }
  }

  lemma CollectedAreMine(mails: seq<MailRow>, who: Identity, ids: seq<nat>, found: seq<MailRow>, size: MailRow -> nat)
    requires Collect(mails, who, ids, 0, size) == Ok(found)
    ensures forall k | 0 <= k < |ids| :: InInbox(mails, who, ids[k])
  {
    CollectIs(mails, who, ids, found, 0, size);
    forall k | 0 <= k < |ids|
      ensures InInbox(mails, who, ids[k])
    {
      FindMailIs(mails, who, ids[k]);
    }
  }

  function Marked(mails: seq<MailRow>, who: Identity, id: nat, at: real): seq<MailRow> {
    seq(|mails|, i requires 0 <= i < |mails| => if Mine(mails[i], who, id) then Read(mails[i], at) else mails[i])
  }

  ghost predicate InInbox(mails: seq<MailRow>, who: Identity, id: nat) {
    exists i :: 0 <= i < |mails| && Mine(mails[i], who, id)
  }

  lemma MarkOne(mails: seq<MailRow>, mailSeq: nat, who: Identity, ids: seq<nat>, k: nat, at: real)
    requires AscendingMails(mails, mailSeq) && k < |ids|
    requires InInbox(mails, who, ids[k])
    ensures Marked(ReadAll(mails, IdSet(ids[..k]), at), who, ids[k], at) == ReadAll(mails, IdSet(ids[..k + 1]), at)
  {
    var i :| 0 <= i < |mails| && Mine(mails[i], who, ids[k]);
    var before := ReadAll(mails, IdSet(ids[..k]), at);
    assert ids[..k + 1] == ids[..k] + [ids[k]];
    assert IdSet(ids[..k + 1]) == IdSet(ids[..k]) + {ids[k]};
    forall j | 0 <= j < |mails|
      ensures Marked(before, who, ids[k], at)[j] == ReadAll(mails, IdSet(ids[..k + 1]), at)[j]
    {
      assert mails[j].id == ids[k] ==> j == i;
    }
  }

  lemma ReadRejected(db: Db, env: Env, who: Identity, ids: seq<nat>)
    ensures !(0 < |ids| <= MAX_READ_MAILS && Distinct(ids)) ==> ReadTx(db, env, who, ids) == Rollback(Invalid)
    ensures 0 < |ids| <= MAX_READ_MAILS && Distinct(ids) && ValidateMailbox(db, who).None? ==>
              ReadTx(db, env, who, ids) == Rollback(NotFound)
  {
  }

  /** What becomes of a read once the mails have been collected. */
  function AfterCollecting(collected: Reply<seq<MailRow>>, ids: seq<nat>, now: real): Tx<seq<MailRow>> {
    match collected
    case Err(error) => Rollback(error)
    case Ok(found) => Commit([MarkRead(IdSet(ids), now)], ReadEach(found, now))
  }

  lemma ReadCollected(db: Db, env: Env, who: Identity, ids: seq<nat>, collected: Reply<seq<MailRow>>)
    requires 0 < |ids| <= MAX_READ_MAILS && Distinct(ids) && ValidateMailbox(db, who).Some?
    requires collected == Collect(db.mails, who, ids, 0, MailBytes)
    ensures ReadTx(db, env, who, ids) == AfterCollecting(collected, ids, env.now)
    ensures collected.Ok? ==> forall k | 0 <= k < |ids| :: InInbox(db.mails, who, ids[k])
  {
    if collected.Ok? {
      CollectedAreMine(db.mails, who, ids, collected.value, MailBytes);
    }
  }

  /** The update AckTerminalMail makes. */
  function Acknowledged(mails: seq<MailRow>, owner: Text, a: Id, r: Id, at: real): seq<MailRow> {
    seq(|mails|, i requires 0 <= i < |mails| =>
      if TerminalNoticeFor(mails[i], owner, a, r) then mails[i].(readAt := Some(at)) else mails[i])
  }

  lemma AcknowledgedMails(db: Db, env: Env, owner: Text, a: Id, r: Id)
    requires AscendingMails(db.mails, db.mailSeq)
    ensures ApplyAll(db, AckTerminalTx(db, env, owner, a, r).log)
            == db.(mails := Acknowledged(db.mails, owner, a, r, env.now))
  {
    var c := AckTerminalTx(db, env, owner, a, r).log[0];
    OneChange(db, c);
    forall i | 0 <= i < |db.mails|
      ensures ReadAll(db.mails, c.ids, env.now)[i] == Acknowledged(db.mails, owner, a, r, env.now)[i]
    {
      if db.mails[i].id in c.ids {
        var k :| 0 <= k < |db.mails| && TerminalNoticeFor(db.mails[k], owner, a, r) && db.mails[k].id == db.mails[i].id;
        assert k == i;
      }
    }
    assert ReadAll(db.mails, c.ids, env.now) == Acknowledged(db.mails, owner, a, r, env.now);
  }

  /** What other processes commit between two accesses of one operation. */
  ghost predicate Meanwhile(db: Db, others: Db, between: seq<Event>) {
    Allowed(db, between) && others == After(db, between)
  }

  // --- the store -------------------------------------------------------------

  class Store {
    const runtime: Text
    const mailbox: bool
    var agents: map<Id, AgentRow>
    var runs: map<Id, RunRow>
    var steering: seq<SteeringRow>
    var rooms: map<Text, real>
    var events: map<EventKey, EventRow>
    var mails: seq<MailRow>
    var mailSeq: nat

    constructor (runtime: Text, mailbox: bool)
      ensures this.runtime == runtime && this.mailbox == mailbox && Tables() == EmptyDb && Valid()
    {
      this.runtime := runtime;
      this.mailbox := mailbox;
      agents, runs, steering, rooms := map[], map[], [], map[];
      events, mails, mailSeq := map[], [], 0;
      new;
      EmptyIsCoherent();
    }

    function Tables(): Db
      reads this
    {
      Db(agents, runs, steering, rooms, events, mails, mailSeq)
    }

    ghost predicate Valid()
      reads this
    {
      Inv(Tables())
    }

    ghost function At(now: real, scan: seq<Id>): Env { Env(runtime, mailbox, now, scan) }

    /** The rollback of a transaction. */
    method Restore(saved: Db)
      modifies this
      ensures Tables() == saved
    {
      agents, runs, steering, rooms := saved.agents, saved.runs, saved.steering, saved.rooms;
      events, mails, mailSeq := saved.events, saved.mails, saved.mailSeq;
    }

    method FetchAgent(a: Id, run: Option<Id>, owner: Text) returns (reply: Reply<View>)
      ensures reply == Fetch(Tables(), a, run, owner)
    {
      if a !in agents || (owner != [] && agents[a].owner != owner) {
        return Err(NotFound);
      }
      var r := if run.Some? then run.value else agents[a].activeRun;
      if r !in runs || runs[r].agent != a {
        return Err(NotFound);
      }
      reply := Ok(View(a, agents[a], r, runs[r]));
    }

    // --- notices -------------------------------------------------------------

    /** Main first, then the other agents of the room, ORDER BY id. */
    method RecipientsOf(owner: Text, a: Id) returns (to: seq<Party>)
      ensures to == Recipients(agents, owner, a)
    {
      to := [Main];
      var peers := set b | b in agents && agents[b].owner == owner && b != a;
      ghost var all := [Main] + Workers(Sorted(peers));
      assert peers == Peers(agents, owner, a);
      while peers != {}
        invariant all == to + Workers(Sorted(peers))
        decreases |peers|
      {
        LeastExists(peers);
        var m :| m in peers && IsLeast(m, peers);
        NextRecipient(to, peers, m);
        to := to + [Worker(m)];
        peers := peers - {m};
      }
      NoRecipient(to);
    }

    method InsertMails(key: EventKey, a: Id, agent: AgentRow, r: Id, run: RunRow, now: real, to: seq<Party>)
      modifies this`mails, this`mailSeq
      ensures mails == old(mails) + Copies(key, a, agent, r, run, now, old(mailSeq) + 1, to)
      ensures mailSeq == old(mailSeq) + |to|
    {
      var i := 0;
      while i < |to|
        invariant 0 <= i <= |to|
        invariant mails == old(mails) + Copies(key, a, agent, r, run, now, old(mailSeq) + 1, to[..i])
        invariant mailSeq == old(mailSeq) + i
      {
        CopiesSnoc(key, a, agent, r, run, now, old(mailSeq) + 1, to, i);
        mailSeq := mailSeq + 1;
        mails := mails + [Notice(key, a, agent, r, run, now, mailSeq, to[i])];
        i := i + 1;
      }
      assert to[..i] == to;
    }

    /** One event and its recipient snapshot. */
    method PublishEventMail(key: EventKey, a: Id, r: Id, now: real)
      requires a in agents && r in runs
      modifies this`events, this`mails, this`mailSeq
      ensures Tables() == PublishEvent(old(Tables()), key, a, r, now)
    {
      var agent, run := agents[a], runs[r];
      if agent.owner !in rooms || key in events {
        return;
      }
      events := events[key := EventRow(agent.owner, now)];
      var to := RecipientsOf(agent.owner, a);
      InsertMails(key, a, agent, r, run, now, to);
      PublishedTables(old(Tables()), key, a, r, now);
    }

    method PublishJoinedMail(a: Id, r: Id, now: real)
      requires a in agents && r in runs
      modifies this`events, this`mails, this`mailSeq
      ensures Tables() == PublishJoined(old(Tables()), a, r, now)
    {
      var starts := |set s | s in runs && runs[s].agent == a && runs[s].startedAt.Some?|;
      if starts != 1 {
        return;
      }
      PublishEventMail(Joined(a), a, r, now);
    }

    method PublishTerminalMail(a: Id, r: Id, now: real, enabled: bool)
      requires a in agents && r in runs
      modifies this`events, this`mails, this`mailSeq
      ensures Tables() == if enabled then PublishEvent(old(Tables()), EventKey.Terminal(r), a, r, now) else old(Tables())
    {
      if !enabled {
        return;
      }
      PublishEventMail(EventKey.Terminal(r), a, r, now);
    }

    // --- the ends of claims --------------------------------------------------

    method InterruptRow(a: Id, r: Id, g: nat, message: Text, now: real, enabled: bool)
      requires Has(Tables(), a) && AgentOk(a, agents[a], runs) && agents[a].status.Active()
      requires r == agents[a].activeRun && g == agents[a].generation
      modifies this
      ensures Tables() == Apply(old(Tables()), Interrupt(old(Tables()), a, message, now, enabled))
    {
      if r in runs && runs[r].status.Active() {
        runs := runs[r := runs[r].(status := RunInterrupted, error := Some(message), completedAt := Some(now), updatedAt := now)];
      }
      if a in agents && agents[a].activeRun == r && agents[a].generation == g && agents[a].status.Active() {
        agents := agents[a := agents[a].(status := Interrupted, lease := None, updatedAt := now)];
        PublishTerminalMail(a, r, now, enabled);
      }
    }

    method CompleteCancelRow(a: Id, r: Id, g: nat, now: real, enabled: bool) returns (completed: bool)
      requires Has(Tables(), a) && AgentOk(a, agents[a], runs) && agents[a].status.Canceling?
      requires r == agents[a].activeRun && g == agents[a].generation
      modifies this
      ensures completed && Tables() == Apply(old(Tables()), FinishCancel(a, now, enabled))
    {
      assert Applies(Tables(), FinishCancel(a, now, enabled)) && runs[r].status.RunCanceled?;
      if a in agents && agents[a].activeRun == r && agents[a].generation == g && agents[a].status.Canceling?
         && r in runs && runs[r].agent == a && runs[r].generation == g && runs[r].status.RunCanceled?
      {
        agents := agents[a := agents[a].(status := Canceled, lease := None, updatedAt := now)];
        PublishTerminalMail(a, r, now, enabled);
        return true;
      }
      return false;
    }

    /** Releases the claims that expire by the cutoff and counts them. */
    method ReconcileLeases(scan: seq<Id>, cutoff: real, now: real, message: Text, enabled: bool) returns (reconciled: nat)
      requires Valid() && IsScan(scan, agents)
      modifies this
      ensures Tables() == ApplyAll(old(Tables()), Transactions.ReconcileLeases(old(Tables()), scan, cutoff, now, message, enabled))
      ensures reconciled == |ExpiredAgents(old(agents), cutoff)|
      ensures Valid() && IsScan(scan, agents)
    {
      ghost var db := Tables();
      var rows := [];
      var n := 0;
      while n < |scan|
        invariant 0 <= n <= |scan| && rows == ExpiredRows(scan[..n], agents, cutoff) && Tables() == db
      {
        ExpiredSnoc(scan, agents, cutoff, n);
        if scan[n] in agents && Expired(agents[scan[n]], cutoff) {
          rows := rows + [scan[n]];
        }
        n := n + 1;
      }
      assert scan[..n] == scan;
      ExpiredRowsAre(scan, agents, cutoff);
      reconciled := 0;
      var k := 0;
      assert rows[..k] == [] && ReleaseAll(db, rows[..k], message, now, enabled) == [];
      while k < |rows|
        invariant 0 <= k <= |rows| && reconciled == k
        invariant Tables() == ApplyAll(db, ReleaseAll(db, rows[..k], message, now, enabled))
      {
        NextRelease(db, Tables(), rows, k, message, now, enabled);
        var a := rows[k];
        var row := agents[a];
        k := k + 1;
        if row.status.Canceling? {
          var completed := CompleteCancelRow(a, row.activeRun, row.generation, now, enabled);
          if completed {
            reconciled := reconciled + 1;
          }
          continue;
        }
        InterruptRow(a, row.activeRun, row.generation, message, now, enabled);
        reconciled := reconciled + 1;
      }
      assert rows[..k] == rows;
      ReconcileIsExact(db, scan, cutoff, now, message, enabled);
      DistinctCount(rows, ExpiredAgents(db.agents, cutoff));
      ChangesKeepInv(db, Transactions.ReconcileLeases(db, scan, cutoff, now, message, enabled));
    }

    // --- the statements of one change ----------------------------------------

    method InsertAgent(a: Id, r: Id, name: Text, owner: Text, mode: ContextMode, cwd: Text, task: Text, cells: LeaseCells, now: real)
      modifies this
      ensures Tables() == Apply(old(Tables()), Spawn(a, r, name, owner, mode, cwd, task, cells, now))
    {
      agents := agents[a := AgentRow(name, owner, None, mode, cwd, AgentStatus.Starting, r, 1, Some(cells), now, now)];
      runs := runs[r := RunRow(a, 1, cells.token, task, RunStarting, None, None, now, None, None, now)];
    }

    method InsertRun(a: Id, r: Id, g: nat, task: Text, cells: LeaseCells, now: real)
      requires a in agents && g == agents[a].generation + 1
      modifies this
      ensures Tables() == Apply(old(Tables()), Reclaim(a, r, task, cells, now))
    {
      runs := runs[r := RunRow(a, g, cells.token, task, RunStarting, None, None, now, None, None, now)];
      agents := agents[a := agents[a].(status := AgentStatus.Starting, activeRun := r, generation := g,
                                       lease := Some(cells), updatedAt := now)];
      steering := Rekey(steering, a, r, g);
    }

    /** Runs and messages go with their agent. */
    method DeleteAgent(a: Id)
      modifies this
      ensures Tables() == Apply(old(Tables()), Remove(a))
    {
      agents := agents - {a};
      runs := map r | r in runs && runs[r].agent != a :: runs[r];
      steering := DropAgent(steering, a);
    }

    method UpdateCanceling(a: Id, r: Id, g: nat, now: real)
      requires Has(Tables(), a) && AgentOk(a, agents[a], runs) && agents[a].status.Active()
      requires r == agents[a].activeRun && g == runs[r].generation
      modifies this
      ensures Tables() == Apply(old(Tables()), BeginCancel(a, now + LEASE_SECONDS, now))
    {
      steering := DropRun(steering, a, r, g);
      if runs[r].status.Active() {
        runs := runs[r := runs[r].(status := RunCanceled, error := Some(Explain(CanceledByParent)),
                                   completedAt := Some(now), updatedAt := now)];
      }
      agents := agents[a := agents[a].(status := Canceling, updatedAt := now,
                                       lease := Some(agents[a].lease.value.(expires := now + LEASE_SECONDS)))];
    }

    method UpdateCanceled(a: Id, r: Id, g: nat, now: real)
      requires Has(Tables(), a) && r == agents[a].activeRun && g == runs[r].generation
      modifies this
      ensures Tables() == Apply(old(Tables()), CancelInactive(a, now))
    {
      steering := DropRun(steering, a, r, g);
      agents := agents[a := agents[a].(status := Canceled, lease := None, updatedAt := now)];
    }

    method UpdateChild(a: Id, conversation: Text, now: real)
      requires Has(Tables(), a)
      modifies this`agents
      ensures Tables() == Apply(old(Tables()), Attach(a, conversation, now))
    {
      agents := agents[a := agents[a].(child := Some(conversation), updatedAt := now)];
    }

    method UpdateExpiry(a: Id, expires: real, now: real)
      requires Has(Tables(), a) && agents[a].lease.Some?
      modifies this`agents
      ensures Tables() == Apply(old(Tables()), Renew(a, expires, now))
    {
      agents := agents[a := agents[a].(lease := Some(agents[a].lease.value.(expires := expires)), updatedAt := now)];
    }

    // --- agents --------------------------------------------------------------

    method CheckLimits(owner: Text) returns (error: Option<Error>)
      ensures error == if AtLimit(agents, owner) then Some(Limit) else None
    {
      var ownerCount := |HeldBy(agents, owner)|;
      if ownerCount >= MAX_ACTIVE_PER_OWNER {
        return Some(Limit);
      }
      var totalCount := |HeldAgents(agents)|;
      if totalCount >= MAX_ACTIVE_TOTAL {
        return Some(Limit);
      }
      return None;
    }

    method NameTaken(owner: Text, name: Text) returns (taken: bool)
      ensures taken <==> exists b :: b in agents && agents[b].owner == owner && agents[b].name == name
    {
      taken := exists b :: b in agents && agents[b].owner == owner && agents[b].name == name;
    }

    method DoCreate(a: Id, r: Id, token: Text, owner: Text, name: Text, task: Text, cwd: Text, mode: ContextMode, now: real,
                    ghost scan: seq<Id>) returns (reply: Reply<View>)
      modifies this
      ensures var tx := CreateTx(old(Tables()), At(now, scan), a, r, token, owner, name, task, cwd, mode);
              reply == tx.Reply() && (tx.Commit? ==> Tables() == ApplyAll(old(Tables()), tx.log))
    {
      CreateCases(Tables(), At(now, scan), a, r, token, owner, name, task, cwd, mode);
      var error := CheckLimits(owner);
      if error.Some? {
        return Err(error.value);
      }
      var taken := NameTaken(owner, name);
      if taken {
        return Err(Conflict);
      }
      var cells := LeaseCells(runtime, token, now + LEASE_SECONDS);
      FetchedAfter(Tables(), Spawn(a, r, name, owner, mode, cwd, task, cells, now), a, None);
      InsertAgent(a, r, name, owner, mode, cwd, task, cells, now);
      reply := FetchAgent(a, None, []);
    }

    method DoClaim(owner: Text, a: Id, r: Id, token: Text, task: Text, now: real, ghost scan: seq<Id>)
      returns (reply: Reply<View>)
      modifies this
      ensures var tx := ClaimTx(old(Tables()), At(now, scan), owner, a, r, token, task);
              reply == tx.Reply() && (tx.Commit? ==> Tables() == ApplyAll(old(Tables()), tx.log))
    {
      reply := FetchAgent(a, None, owner);
      if reply.Err? {
        return;
      }
      var current := reply.value.agent;
      if !current.status.Claimable() {
        return Err(Conflict);
      }
      if current.child.None? && current.status.Idle? {
        return Err(Conflict);
      }
      var error := CheckLimits(owner);
      if error.Some? {
        return Err(error.value);
      }
      if current.owner != owner {
        return Err(Conflict);
      }
      var cells := LeaseCells(runtime, token, now + LEASE_SECONDS);
      FetchedAfter(Tables(), Reclaim(a, r, task, cells, now), a, None);
      InsertRun(a, r, current.generation + 1, task, cells, now);
      reply := FetchAgent(a, None, []);
    }

    method DoAbort(key: LeaseKey, now: real, ghost scan: seq<Id>) returns (reply: Reply<bool>)
      modifies this
      ensures var tx := AbortTx(old(Tables()), At(now, scan), key);
              reply == tx.Reply() && (tx.Commit? ==> Tables() == ApplyAll(old(Tables()), tx.log))
    {
      var error := ValidateActive(Tables(), key, runtime, now);
      if error.Some? {
        return if error.value.NotFound? then Ok(false) else Err(error.value);
      }
      if key.generation != 1 || !agents[key.agent].status.Starting? || !runs[key.run].status.RunStarting?
         || agents[key.agent].child.Some?
      {
        return Err(Conflict);
      }
      OneChange(Tables(), Remove(key.agent));
      DeleteAgent(key.agent);
      return Ok(true);
    }

    method DoCancel(owner: Text, a: Id, now: real, ghost scan: seq<Id>) returns (reply: Reply<View>)
      requires a in agents ==> AgentOk(a, agents[a], runs)
      modifies this
      ensures var tx := CancelTx(old(Tables()), At(now, scan), owner, a);
              reply == tx.Reply() && (tx.Commit? ==> Tables() == ApplyAll(old(Tables()), tx.log))
    {
      reply := FetchAgent(a, None, owner);
      if reply.Err? {
        return;
      }
      var current := reply.value;
      var status := current.agent.status;
      if !status.Canceling? && !status.Canceled? {
        if status.Active() {
          FetchedAfter(Tables(), BeginCancel(a, now + LEASE_SECONDS, now), a, None);
          UpdateCanceling(a, current.runId, current.run.generation, now);
        } else {
          FetchedAfter(Tables(), CancelInactive(a, now), a, None);
          UpdateCanceled(a, current.runId, current.run.generation, now);
        }
      }
      reply := FetchAgent(a, None, []);
    }

    // --- workers -------------------------------------------------------------

    method UpdateRunning(a: Id, r: Id, conversation: Text, now: real, enabled: bool)
      requires Has(Tables(), a) && r == agents[a].activeRun
      modifies this
      ensures Tables() == Apply(old(Tables()), Start(a, conversation, now, enabled))
    {
      var before := runs[r].startedAt;
      agents := agents[a := agents[a].(child := Some(conversation), status := Running, updatedAt := now)];
      runs := runs[r := runs[r].(status := RunRunning, startedAt := if before.Some? then before else Some(now), updatedAt := now)];
      if enabled && before.None? {
        PublishJoinedMail(a, r, now);
      }
    }

    method UpdateTerminal(a: Id, r: Id, status: TerminalStatus, update: TerminalUpdate, conversation: Option<Text>, now: real,
                          enabled: bool)
      requires Has(Tables(), a) && r == agents[a].activeRun
      modifies this
      ensures Tables() == Apply(old(Tables()), End(a, status, update.result, update.error, conversation, now, enabled))
    {
      runs := runs[r := runs[r].(status := status.Run(), result := update.result, error := update.error,
                                 completedAt := Some(now), updatedAt := now)];
      agents := agents[a := agents[a].(child := conversation, status := status.Agent(), lease := None, updatedAt := now)];
      PublishTerminalMail(a, r, now, enabled);
    }

    /** The unique index on child conversations. */
    predicate IsChildFree(a: Id, conversation: Text)
      reads this
    {
      forall b | b in agents && b != a :: agents[b].child != Some(conversation)
    }

    method DoAttach(key: LeaseKey, conversation: Text, canceling: bool, now: real, ghost scan: seq<Id>)
      returns (reply: Reply<View>)
      modifies this
      ensures var tx := AttachTx(old(Tables()), At(now, scan), key, conversation, canceling);
              reply == tx.Reply() && (tx.Commit? ==> Tables() == ApplyAll(old(Tables()), tx.log))
    {
      if conversation == [] {
        return Err(Invalid);
      }
      var error := if canceling then ValidateCanceling(Tables(), key, runtime, now)
                   else ValidateActive(Tables(), key, runtime, now);
      if error.Some? {
        return Err(error.value);
      }
      if agents[key.agent].child.Some? && agents[key.agent].child != Some(conversation) {
        return Err(Conflict);
      }
      if !IsChildFree(key.agent, conversation) {
        return Err(Conflict);
      }
      FetchedAfter(Tables(), Attach(key.agent, conversation, now), key.agent, None);
      UpdateChild(key.agent, conversation, now);
      reply := FetchAgent(key.agent, None, []);
    }

    method DoMarkRunning(key: LeaseKey, conversation: Text, now: real, ghost scan: seq<Id>) returns (reply: Reply<View>)
      modifies this
      ensures var tx := MarkRunningTx(old(Tables()), At(now, scan), key, conversation);
              reply == tx.Reply() && (tx.Commit? ==> Tables() == ApplyAll(old(Tables()), tx.log))
    {
      if conversation == [] {
        return Err(Invalid);
      }
      var error := ValidateActive(Tables(), key, runtime, now);
      if error.Some? {
        return Err(error.value);
      }
      if agents[key.agent].child.Some? && agents[key.agent].child != Some(conversation) {
        return Err(Conflict);
      }
      if !IsChildFree(key.agent, conversation) {
        return Err(Conflict);
      }
      FetchedAfter(Tables(), Start(key.agent, conversation, now, mailbox), key.agent, None);
      UpdateRunning(key.agent, key.run, conversation, now, mailbox);
      reply := FetchAgent(key.agent, None, []);
    }

    method DoTerminal(key: LeaseKey, status: TerminalStatus, update: TerminalUpdate, now: real, ghost scan: seq<Id>)
      returns (reply: Reply<View>)
      modifies this
      ensures var tx := TerminalTx(old(Tables()), At(now, scan), key, status, update);
              reply == tx.Reply() && (tx.Commit? ==> Tables() == ApplyAll(old(Tables()), tx.log))
    {
      if !RowsFound(Tables(), key) {
        return Err(NotFound);
      }
      var agent, run := agents[key.agent], runs[key.run];
      if ValidateRunToken(run, key).Some? {
        return Err(LeaseLost);
      }
      if !run.status.Active() {
        if run.status == status.Run() && run.result == update.result && run.error == update.error {
          reply := FetchAgent(key.agent, Some(key.run), []);
          return;
        }
        return Err(LeaseLost);
      }
      if ValidateActiveRows(agent, run, key, runtime, now).Some? {
        return Err(LeaseLost);
      }
      if status.TerminalIdle? && !agent.status.Running? {
        return Err(Conflict);
      }
      if agent.child.Some? && update.conversation.Some? && agent.child != update.conversation {
        return Err(Conflict);
      }
      var resolved := if agent.child.Some? then agent.child else update.conversation;
      if status.TerminalIdle? && (resolved.None? || resolved.value == []) {
        return Err(Conflict);
      }
      if resolved.Some? && !IsChildFree(key.agent, resolved.value) {
        return Err(Constraint);
      }
      FetchedAfter(Tables(), End(key.agent, status, update.result, update.error, resolved, now, mailbox), key.agent, Some(key.run));
      UpdateTerminal(key.agent, key.run, status, update, resolved, now, mailbox);
      reply := FetchAgent(key.agent, Some(key.run), []);
    }

    method DoRenew(key: LeaseKey, canceling: bool, now: real, ghost scan: seq<Id>) returns (reply: Reply<real>)
      modifies this
      ensures var tx := RenewTx(old(Tables()), At(now, scan), key, canceling);
              reply == tx.Reply() && (tx.Commit? ==> Tables() == ApplyAll(old(Tables()), tx.log))
    {
      var error := if canceling then ValidateCanceling(Tables(), key, runtime, now)
                   else ValidateActive(Tables(), key, runtime, now);
      if error.Some? {
        return Err(error.value);
      }
      var expires := now + LEASE_SECONDS;
      OneChange(Tables(), Renew(key.agent, expires, now));
      UpdateExpiry(key.agent, expires, now);
      return Ok(expires);
    }

    method DoCompleteCancel(key: LeaseKey, now: real, ghost scan: seq<Id>) returns (reply: Reply<bool>)
      requires key.agent in agents ==> AgentOk(key.agent, agents[key.agent], runs)
      modifies this
      ensures var tx := CompleteCancelTx(old(Tables()), At(now, scan), key);
              reply == tx.Reply() && (tx.Commit? ==> Tables() == ApplyAll(old(Tables()), tx.log))
    {
      if !RowsFound(Tables(), key) {
        return Err(NotFound);
      }
      var agent, run := agents[key.agent], runs[key.run];
      if ValidateRunToken(run, key).Some? {
        return Err(LeaseLost);
      }
      if agent.activeRun != key.run || agent.generation != key.generation {
        return Ok(false);
      }
      if agent.status.Canceled? {
        return Ok(true);
      }
      if !agent.status.Canceling? {
        return Ok(false);
      }
      if ValidateCancelingRows(agent, run, key, runtime, now).Some? {
        return Err(LeaseLost);
      }
      OneChange(Tables(), FinishCancel(key.agent, now, mailbox));
      var completed := CompleteCancelRow(key.agent, key.run, key.generation, now, mailbox);
      return Ok(completed);
    }

    method DoInterruptRuntime(scan: seq<Id>, message: Text, now: real) returns (interrupted: nat)
      requires Valid() && IsScan(scan, agents)
      modifies this
      ensures var tx := InterruptTx(old(Tables()), At(now, scan), message);
              interrupted == tx.value && Tables() == ApplyAll(old(Tables()), tx.log)
    {
      ghost var db := Tables();
      var rows := [];
      var n := 0;
      while n < |scan|
        invariant 0 <= n <= |scan| && rows == RuntimeRows(scan[..n], agents, runtime) && Tables() == db
      {
        RuntimeSnoc(scan, agents, runtime, n);
        if scan[n] in agents && HeldUnder(agents[scan[n]], runtime) {
          rows := rows + [scan[n]];
        }
        n := n + 1;
      }
      assert scan[..n] == scan;
      RuntimeRowsAre(scan, agents, runtime);
      InterruptRows(rows, message, now);
      return |rows|;
    }

    method InterruptRows(rows: seq<Id>, message: Text, now: real)
      requires Valid() && Holders(rows, agents) && forall a | a in rows :: a in agents && agents[a].status.Active()
      modifies this
      ensures Tables() == ApplyAll(old(Tables()), ReleaseAll(old(Tables()), rows, message, now, mailbox))
    {
      ghost var db := Tables();
      var k := 0;
      assert rows[..k] == [] && ReleaseAll(db, rows[..k], message, now, mailbox) == [];
      while k < |rows|
        invariant 0 <= k <= |rows|
        invariant Tables() == ApplyAll(db, ReleaseAll(db, rows[..k], message, now, mailbox))
      {
        NextRelease(db, Tables(), rows, k, message, now, mailbox);
        var a := rows[k];
        assert a in rows && agents[a] == db.agents[a];
        InterruptRow(a, agents[a].activeRun, agents[a].generation, message, now, mailbox);
        k := k + 1;
      }
      assert rows[..k] == rows;
    }

    // --- steering ------------------------------------------------------------

    method DoEnqueue(owner: Text, a: Id, message: Text, now: real, ghost scan: seq<Id>) returns (reply: Reply<bool>)
      modifies this
      ensures var tx := EnqueueTx(old(Tables()), At(now, scan), owner, a, message);
              reply == tx.Reply() && (tx.Commit? ==> Tables() == ApplyAll(old(Tables()), tx.log))
    {
      var found := FetchAgent(a, None, owner);
      if found.Err? {
        return Err(found.error);
      }
      var current := found.value;
      if !current.agent.status.Running? || !current.run.status.RunRunning? || current.agent.child.None?
         || current.agent.lease.None? || current.agent.lease.value.expires <= now
      {
        return Err(Conflict);
      }
      var pending := Queued(Tables(), a, current.runId, current.run.generation);
      OneChange(Tables(), Enqueue(a, message, now));
      steering := steering + [SteeringRow(NextRowid(steering), a, current.runId, current.run.generation, message, now)];
      return Ok(pending);
    }

    method DoNext(key: LeaseKey, now: real, ghost scan: seq<Id>) returns (reply: Reply<Option<SteeringRow>>)
      ensures reply == NextTx(Tables(), At(now, scan), key).Reply()
    {
      var error := ValidateActive(Tables(), key, runtime, now);
      if error.Some? {
        return Err(error.value);
      }
      if !agents[key.agent].status.Running? || !runs[key.run].status.RunRunning? {
        return Err(LeaseLost);
      }
      var i := 0;
      while i < |steering|
        invariant 0 <= i <= |steering|
        invariant Oldest(steering, key.agent, key.run, key.generation) == Oldest(steering[i..], key.agent, key.run, key.generation)
      {
        if KeyedTo(steering[i], key.agent, key.run, key.generation) {
          return Ok(Some(steering[i]));
        }
        i := i + 1;
      }
      return Ok(None);
    }

    method DoAcknowledge(key: LeaseKey, id: nat, now: real, ghost scan: seq<Id>) returns (reply: Reply<bool>)
      modifies this`steering
      ensures var tx := AcknowledgeTx(old(Tables()), At(now, scan), key, id);
              reply == tx.Reply() && (tx.Commit? ==> Tables() == ApplyAll(old(Tables()), tx.log))
    {
      var error := ValidateActive(Tables(), key, runtime, now);
      if error.Some? {
        return Err(error.value);
      }
      var deleted := exists i :: 0 <= i < |steering| && steering[i].id == id
                                 && KeyedTo(steering[i], key.agent, key.run, key.generation);
      if deleted {
        OneChange(Tables(), Dequeue(id));
        steering := DropId(steering, id);
      }
      return Ok(deleted);
    }

    // --- the operations ------------------------------------------------------

    method ReserveAgent(a: Id, r: Id, token: Text, owner: Text, name: Text, task: Text, cwd: Text, mode: ContextMode, now: real,
                        scan: seq<Id>) returns (reply: Reply<View>)
      requires Valid() && Possible(Tables(), At(now, scan), Transactions.Create(a, r, token, owner, name, task, cwd, mode))
      modifies this
      ensures Tables() == Serve(old(Tables()), At(now, scan), Transactions.Create(a, r, token, owner, name, task, cwd, mode))
      ensures Valid()
      ensures var db, env := Mid(old(Tables()), At(now, scan)), At(now, scan);
              reply == CreateTx(db, env, a, r, token, owner, name, task, cwd, mode).Reply()
    {
      var saved := Tables();
      ghost var env := At(now, scan);
      ghost var req := Transactions.Create(a, r, token, owner, name, task, cwd, mode);
      var _ := ReconcileLeases(scan, now, now, Explain(LeaseExpired), mailbox);
      reply := DoCreate(a, r, token, owner, name, task, cwd, mode, now, scan);
      if reply.Err? {
        Restore(saved);
      }
      OutcomeIsServe(saved, env, req, CreateTx(Mid(saved, env), env, a, r, token, owner, name, task, cwd, mode));
    }

    method CreateAgent(a: Id, r: Id, token: Text, owner: Text, name: Text, task: Text, cwd: Text, mode: ContextMode, now: real,
                       scan: seq<Id>) returns (reply: Reply<View>, lease: Lease?)
      requires Valid() && Possible(Tables(), At(now, scan), Transactions.Create(a, r, token, owner, name, task, cwd, mode))
      modifies this
      ensures Tables() == Serve(old(Tables()), At(now, scan), Transactions.Create(a, r, token, owner, name, task, cwd, mode))
      ensures Valid()
      ensures var db, env := Mid(old(Tables()), At(now, scan)), At(now, scan);
              reply == CreateTx(db, env, a, r, token, owner, name, task, cwd, mode).Reply()
      ensures reply.Ok? ==> lease != null && fresh(lease) && HandsOut(lease, a, now)
    {
      ghost var saved, env := Tables(), At(now, scan);
      reply := ReserveAgent(a, r, token, owner, name, task, cwd, mode, now, scan);
      lease := null;
      if reply.Ok? {
        CreateHandsOut(saved, env, Transactions.Create(a, r, token, owner, name, task, cwd, mode));
        lease := new Lease(LeaseKey(a, r, agents[a].generation, token, runtime), now + LEASE_SECONDS);
      }
    }

    /** Reserves a new agent and its first run, under fresh ids. */
    method Create(a: Id, r: Id, token: Text, ownerInput: Text, name: Text, taskInput: Text, cwdInput: Text, mode: ContextMode,
                  now: real, scan: seq<Id>) returns (reply: Reply<View>, lease: Lease?)
      requires Valid() && IsScan(scan, agents) && a !in agents && r !in runs && |a| == |r| == ID_BYTES
      modifies this
      ensures Valid()
      ensures var owner, task, cwd := TrimSpace(ownerInput), TrimSpace(taskInput), TrimSpace(cwdInput);
              var db, env := old(Tables()), At(now, scan);
              if !ValidName(name) || owner == [] || task == [] || cwd == [] then reply == Err(Invalid) && Tables() == db
              else reply == CreateTx(Mid(db, env), env, a, r, token, owner, name, task, cwd, mode).Reply()
                   && Tables() == Serve(db, env, Transactions.Create(a, r, token, owner, name, task, cwd, mode))
      ensures reply.Ok? ==> lease != null && fresh(lease) && HandsOut(lease, a, now)
    {
      var owner, task, cwd := TrimSpace(ownerInput), TrimSpace(taskInput), TrimSpace(cwdInput);
      if !ValidName(name) || owner == [] || task == [] || cwd == [] {
        return Err(Invalid), null;
      }
      ValidNameIsShort(name);
      reply, lease := CreateAgent(a, r, token, owner, name, task, cwd, mode, now, scan);
    }

    method ReserveRun(owner: Text, a: Id, r: Id, token: Text, task: Text, now: real, scan: seq<Id>)
      returns (reply: Reply<View>)
      requires Valid() && Possible(Tables(), At(now, scan), Transactions.Claim(owner, a, r, token, task))
      modifies this
      ensures Tables() == Serve(old(Tables()), At(now, scan), Transactions.Claim(owner, a, r, token, task)) && Valid()
      ensures reply == ClaimTx(Mid(old(Tables()), At(now, scan)), At(now, scan), owner, a, r, token, task).Reply()
    {
      var saved := Tables();
      ghost var env := At(now, scan);
      var _ := ReconcileLeases(scan, now, now, Explain(LeaseExpired), mailbox);
      reply := DoClaim(owner, a, r, token, task, now, scan);
      if reply.Err? {
        Restore(saved);
      }
      OutcomeIsServe(saved, env, Transactions.Claim(owner, a, r, token, task),
                     ClaimTx(Mid(saved, env), env, owner, a, r, token, task));
    }

    method ClaimAgent(owner: Text, a: Id, r: Id, token: Text, task: Text, now: real, scan: seq<Id>)
      returns (reply: Reply<View>, lease: Lease?)
      requires Valid() && Possible(Tables(), At(now, scan), Transactions.Claim(owner, a, r, token, task))
      modifies this
      ensures Tables() == Serve(old(Tables()), At(now, scan), Transactions.Claim(owner, a, r, token, task)) && Valid()
      ensures reply == ClaimTx(Mid(old(Tables()), At(now, scan)), At(now, scan), owner, a, r, token, task).Reply()
      ensures reply.Ok? ==> lease != null && fresh(lease) && HandsOut(lease, a, now)
    {
      ghost var saved, env := Tables(), At(now, scan);
      reply := ReserveRun(owner, a, r, token, task, now, scan);
      lease := null;
      if reply.Ok? {
        ClaimHandsOut(saved, env, Transactions.Claim(owner, a, r, token, task));
        lease := new Lease(LeaseKey(a, r, agents[a].generation, token, runtime), now + LEASE_SECONDS);
      }
    }

    /** Reserves a follow-up run, under a fresh id. */
    method Claim(ownerInput: Text, agentInput: Text, r: Id, token: Text, taskInput: Text, now: real, scan: seq<Id>)
      returns (reply: Reply<View>, lease: Lease?)
      requires Valid() && IsScan(scan, agents) && r !in runs && |r| == ID_BYTES
      modifies this
      ensures Valid()
      ensures var owner, a, task := TrimSpace(ownerInput), TrimSpace(agentInput), TrimSpace(taskInput);
              var db, env := old(Tables()), At(now, scan);
              if task == [] then reply == Err(Invalid) && Tables() == db
              else reply == ClaimTx(Mid(db, env), env, owner, a, r, token, task).Reply()
                   && Tables() == Serve(db, env, Transactions.Claim(owner, a, r, token, task))
      ensures reply.Ok? ==> lease != null && fresh(lease) && HandsOut(lease, TrimSpace(agentInput), now)
    {
      var owner, a, task := TrimSpace(ownerInput), TrimSpace(agentInput), TrimSpace(taskInput);
      if task == [] {
        return Err(Invalid), null;
      }
      reply, lease := ClaimAgent(owner, a, r, token, task, now, scan);
    }

    /** The lease of a new claim is the one that matches. */
    ghost predicate HandsOut(lease: Lease, a: Id, now: real)
      reads this, lease
    {
      && a in agents && agents[a].lease.Some? && lease.key == LiveKey(Tables(), a)
      && lease.expiresAt == agents[a].lease.value.expires && Owns(Tables(), lease.key, runtime, now)
    }

    method Get(owner: Text, a: Id, run: Option<Id>, now: real, scan: seq<Id>) returns (reply: Reply<View>)
      requires Valid() && IsScan(scan, agents)
      modifies this
      ensures Tables() == Serve(old(Tables()), At(now, scan), Transactions.Get(owner, a, run)) && Valid()
      ensures reply == Fetch(Mid(old(Tables()), At(now, scan)), a, run, owner)
    {
      var saved := Tables();
      ghost var env := At(now, scan);
      var _ := ReconcileLeases(scan, now, now, Explain(LeaseExpired), mailbox);
      reply := FetchAgent(a, run, owner);
      if reply.Err? {
        Restore(saved);
      }
      ghost var tx := if reply.Ok? then Commit([], ()) else Rollback(reply.error);
      OutcomeIsServe(saved, env, Transactions.Get(owner, a, run), tx);
    }

    /** Renews a claim, and the expiry its holder knows. */
    method RenewLease(lease: Lease, canceling: bool, now: real, scan: seq<Id>) returns (reply: Reply<real>)
      requires Valid() && IsScan(scan, agents)
      modifies this, lease
      ensures Tables() == Serve(old(Tables()), At(now, scan), RenewRequest(lease.key, canceling)) && Valid()
      ensures reply == RenewTx(Mid(old(Tables()), At(now, scan)), At(now, scan), lease.key, canceling).Reply()
      ensures lease.expiresAt == if reply.Ok? then now + LEASE_SECONDS else old(lease.expiresAt)
    {
      reply := RenewClaim(lease.key, canceling, now, scan);
      if reply.Ok? {
        lease.expiresAt := reply.value;
      }
    }

    method RenewClaim(key: LeaseKey, canceling: bool, now: real, scan: seq<Id>) returns (reply: Reply<real>)
      requires Valid() && IsScan(scan, agents)
      modifies this
      ensures Tables() == Serve(old(Tables()), At(now, scan), RenewRequest(key, canceling)) && Valid()
      ensures reply == RenewTx(Mid(old(Tables()), At(now, scan)), At(now, scan), key, canceling).Reply()
      ensures reply.Ok? ==> reply.value == now + LEASE_SECONDS
    {
      var saved := Tables();
      ghost var env := At(now, scan);
      var _ := ReconcileLeases(scan, now, now, Explain(LeaseExpired), mailbox);
      reply := DoRenew(key, canceling, now, scan);
      RenewOutcome(saved, env, key, canceling);
      if reply.Err? {
        Restore(saved);
      }
    }

    method InterruptRuntime(message: Text, now: real, scan: seq<Id>) returns (interrupted: nat)
      requires Valid() && IsScan(scan, agents)
      modifies this
      ensures Tables() == Serve(old(Tables()), At(now, scan), Transactions.InterruptRuntime(message)) && Valid()
      ensures interrupted == InterruptTx(Mid(old(Tables()), At(now, scan)), At(now, scan), message).value
    {
      ghost var saved, env := Tables(), At(now, scan);
      var _ := ReconcileLeases(scan, now, now, Explain(LeaseExpired), mailbox);
      interrupted := DoInterruptRuntime(scan, message, now);
      OutcomeIsServe(saved, env, Transactions.InterruptRuntime(message), InterruptTx(Mid(saved, env), env, message));
    }

    method ReconcileExpired(now: real, scan: seq<Id>) returns (reconciled: nat)
      requires Valid() && IsScan(scan, agents)
      modifies this
      ensures Tables() == Serve(old(Tables()), At(now, scan), Transactions.ReconcileExpired) && Valid()
      ensures reconciled == |ExpiredAgents(old(agents), now)| && ExpiredAgents(agents, now) == {}
    {
      ghost var saved, env := Tables(), At(now, scan);
      reconciled := ReconcileLeases(scan, now, now, Explain(LeaseExpired), mailbox);
      ghost var none: Tx<()> := Commit([], ());
      OutcomeIsServe(saved, env, Transactions.ReconcileExpired, none);
      MidFacts(saved, env);
    }

    method Abort(key: LeaseKey, now: real, scan: seq<Id>) returns (reply: Reply<bool>)
      requires Valid() && IsScan(scan, agents)
      modifies this
      ensures Tables() == Serve(old(Tables()), At(now, scan), Transactions.Abort(key)) && Valid()
      ensures reply == AbortTx(Mid(old(Tables()), At(now, scan)), At(now, scan), key).Reply()
    {
      var saved := Tables();
      ghost var env := At(now, scan);
      var _ := ReconcileLeases(scan, now, now, Explain(LeaseExpired), mailbox);
      reply := DoAbort(key, now, scan);
      if reply.Err? {
        Restore(saved);
      }
      OutcomeIsServe(saved, env, Transactions.Abort(key), AbortTx(Mid(saved, env), env, key));
    }

    method Cancel(owner: Text, a: Id, now: real, scan: seq<Id>) returns (reply: Reply<View>)
      requires Valid() && IsScan(scan, agents)
      modifies this
      ensures Tables() == Serve(old(Tables()), At(now, scan), Transactions.Cancel(owner, a)) && Valid()
      ensures reply == CancelTx(Mid(old(Tables()), At(now, scan)), At(now, scan), owner, a).Reply()
    {
      var saved := Tables();
      ghost var env := At(now, scan);
      var _ := ReconcileLeases(scan, now, now, Explain(LeaseExpired), mailbox);
      if a in agents {
        AgentFact(agents, runs, a);
      }
      reply := DoCancel(owner, a, now, scan);
      if reply.Err? {
        Restore(saved);
      }
      OutcomeIsServe(saved, env, Transactions.Cancel(owner, a), CancelTx(Mid(saved, env), env, owner, a));
    }

    method AttachConversation(key: LeaseKey, conversation: Text, now: real, scan: seq<Id>) returns (reply: Reply<View>)
      requires Valid() && IsScan(scan, agents)
      modifies this
      ensures Tables() == Serve(old(Tables()), At(now, scan), Transactions.AttachConversation(key, conversation)) && Valid()
      ensures reply == AttachTx(Mid(old(Tables()), At(now, scan)), At(now, scan), key, conversation, false).Reply()
    {
      var saved := Tables();
      ghost var env := At(now, scan);
      var _ := ReconcileLeases(scan, now, now, Explain(LeaseExpired), mailbox);
      reply := DoAttach(key, conversation, false, now, scan);
      if reply.Err? {
        Restore(saved);
      }
      OutcomeIsServe(saved, env, Transactions.AttachConversation(key, conversation), AttachTx(Mid(saved, env), env, key, conversation, false));
    }

    method AttachCancelingConversation(key: LeaseKey, conversation: Text, now: real, scan: seq<Id>) returns (reply: Reply<View>)
      requires Valid() && IsScan(scan, agents)
      modifies this
      ensures Tables() == Serve(old(Tables()), At(now, scan), AttachCanceling(key, conversation)) && Valid()
      ensures reply == AttachTx(Mid(old(Tables()), At(now, scan)), At(now, scan), key, conversation, true).Reply()
    {
      var saved := Tables();
      ghost var env := At(now, scan);
      var _ := ReconcileLeases(scan, now, now, Explain(LeaseExpired), mailbox);
      reply := DoAttach(key, conversation, true, now, scan);
      if reply.Err? {
        Restore(saved);
      }
      OutcomeIsServe(saved, env, AttachCanceling(key, conversation), AttachTx(Mid(saved, env), env, key, conversation, true));
    }

    method MarkRunning(key: LeaseKey, conversation: Text, now: real, scan: seq<Id>) returns (reply: Reply<View>)
      requires Valid() && IsScan(scan, agents)
      modifies this
      ensures Tables() == Serve(old(Tables()), At(now, scan), Transactions.MarkRunning(key, conversation)) && Valid()
      ensures reply == MarkRunningTx(Mid(old(Tables()), At(now, scan)), At(now, scan), key, conversation).Reply()
    {
      var saved := Tables();
      ghost var env := At(now, scan);
      var _ := ReconcileLeases(scan, now, now, Explain(LeaseExpired), mailbox);
      reply := DoMarkRunning(key, conversation, now, scan);
      if reply.Err? {
        Restore(saved);
      }
      OutcomeIsServe(saved, env, Transactions.MarkRunning(key, conversation), MarkRunningTx(Mid(saved, env), env, key, conversation));
    }

    method Terminal(key: LeaseKey, status: TerminalStatus, update: TerminalUpdate, now: real, scan: seq<Id>) returns (reply: Reply<View>)
      requires Valid() && IsScan(scan, agents)
      modifies this
      ensures Tables() == Serve(old(Tables()), At(now, scan), Finish(key, status, update)) && Valid()
      ensures reply == TerminalTx(Mid(old(Tables()), At(now, scan)), At(now, scan), key, status, update).Reply()
    {
      var saved := Tables();
      ghost var env := At(now, scan);
      var _ := ReconcileLeases(scan, now, now, Explain(LeaseExpired), mailbox);
      reply := DoTerminal(key, status, update, now, scan);
      if reply.Err? {
        Restore(saved);
      }
      TerminalOutcome(saved, env, key, status, update);
    }

    method CompleteCancel(key: LeaseKey, now: real, scan: seq<Id>) returns (reply: Reply<bool>)
      requires Valid() && IsScan(scan, agents)
      modifies this
      ensures Tables() == Serve(old(Tables()), At(now, scan), Transactions.CompleteCancel(key)) && Valid()
      ensures reply == CompleteCancelTx(Mid(old(Tables()), At(now, scan)), At(now, scan), key).Reply()
    {
      var saved := Tables();
      ghost var env := At(now, scan);
      var _ := ReconcileLeases(scan, now, now, Explain(LeaseExpired), mailbox);
      if key.agent in agents {
        AgentFact(agents, runs, key.agent);
      }
      reply := DoCompleteCancel(key, now, scan);
      if reply.Err? {
        Restore(saved);
      }
      OutcomeIsServe(saved, env, Transactions.CompleteCancel(key), CompleteCancelTx(Mid(saved, env), env, key));
    }

    /** Queues guidance that is not empty and not too long. */
    method EnqueueSteering(ownerInput: Text, agentInput: Text, input: Text, now: real, scan: seq<Id>)
      returns (reply: Reply<bool>)
      requires Valid() && IsScan(scan, agents)
      modifies this
      ensures Valid()
      ensures var owner, a, message := TrimSpace(ownerInput), TrimSpace(agentInput), TrimSpace(input);
              var db, env := old(Tables()), At(now, scan);
              if !ValidSteering(message) then reply == Err(Invalid) && Tables() == db
              else reply == EnqueueTx(Mid(db, env), env, owner, a, message).Reply()
                   && Tables() == Serve(db, env, Transactions.EnqueueSteering(owner, a, message))
    {
      var message := TrimSpace(input);
      if !ValidSteering(message) {
        return Err(Invalid);
      }
      reply := QueueSteering(TrimSpace(ownerInput), TrimSpace(agentInput), message, now, scan);
    }

    method QueueSteering(owner: Text, a: Id, message: Text, now: real, scan: seq<Id>) returns (reply: Reply<bool>)
      requires Valid() && IsScan(scan, agents)
      modifies this
      ensures Tables() == Serve(old(Tables()), At(now, scan), Transactions.EnqueueSteering(owner, a, message)) && Valid()
      ensures reply == EnqueueTx(Mid(old(Tables()), At(now, scan)), At(now, scan), owner, a, message).Reply()
    {
      var saved := Tables();
      ghost var env := At(now, scan);
      var _ := ReconcileLeases(scan, now, now, Explain(LeaseExpired), mailbox);
      reply := DoEnqueue(owner, a, message, now, scan);
      if reply.Err? {
        Restore(saved);
      }
      OutcomeIsServe(saved, env, Transactions.EnqueueSteering(owner, a, message), EnqueueTx(Mid(saved, env), env, owner, a, message));
    }

    method NextSteering(key: LeaseKey, now: real, scan: seq<Id>) returns (reply: Reply<Option<SteeringRow>>)
      requires Valid() && IsScan(scan, agents)
      modifies this
      ensures Tables() == Serve(old(Tables()), At(now, scan), Transactions.NextSteering(key)) && Valid()
      ensures reply == NextTx(Mid(old(Tables()), At(now, scan)), At(now, scan), key).Reply()
    {
      var saved := Tables();
      ghost var env := At(now, scan);
      var _ := ReconcileLeases(scan, now, now, Explain(LeaseExpired), mailbox);
      reply := DoNext(key, now, scan);
      if reply.Err? {
        Restore(saved);
      }
      NextOutcome(saved, env, key);
    }

    method AcknowledgeSteering(key: LeaseKey, id: nat, now: real, scan: seq<Id>) returns (reply: Reply<bool>)
      requires Valid() && IsScan(scan, agents)
      modifies this
      ensures Tables() == Serve(old(Tables()), At(now, scan), Transactions.AcknowledgeSteering(key, id)) && Valid()
      ensures reply == AcknowledgeTx(Mid(old(Tables()), At(now, scan)), At(now, scan), key, id).Reply()
    {
      var saved := Tables();
      ghost var env := At(now, scan);
      var _ := ReconcileLeases(scan, now, now, Explain(LeaseExpired), mailbox);
      reply := DoAcknowledge(key, id, now, scan);
      if reply.Err? {
        Restore(saved);
      }
      OutcomeIsServe(saved, env, Transactions.AcknowledgeSteering(key, id), AcknowledgeTx(Mid(saved, env), env, key, id));
    }

    // --- mail ----------------------------------------------------------------

    method FindChild(conversation: Text) returns (found: Option<Id>)
      ensures found.Some? ==> IsChild(Tables(), conversation, found.value)
      ensures found.None? ==> !exists a :: IsChild(Tables(), conversation, a)
    {
      if a :| a in agents && agents[a].child == Some(conversation) {
        return Some(a);
      }
      return None;
    }

    /** The identity of a conversation; a child's comes first. */
    method FindParticipant(conversation: Text, allowRoot: bool) returns (who: Option<Identity>)
      requires Valid()
      ensures who == Participant(Tables(), conversation, allowRoot)
    {
      var found := FindChild(conversation);
      if found.Some? {
        ChildResolves(Tables(), conversation, found.value, allowRoot);
        return Some(Identity(agents[found.value].owner, Worker(found.value)));
      }
      return if allowRoot then Some(Identity(conversation, Main)) else None;
    }

    /** Reads existing membership; never creates a room nor reconciles. */
    method LookupMailbox(input: Text, allowRoot: bool) returns (reply: Reply<Identity>)
      requires Valid()
      ensures reply == if TrimSpace(input) == [] then Err(Invalid) else Lookup(Tables(), TrimSpace(input), allowRoot)
    {
      var conversation := TrimSpace(input);
      if conversation == [] {
        return Err(Invalid);
      }
      reply := LookupTrimmed(conversation, allowRoot);
    }

    method LookupTrimmed(conversation: Text, allowRoot: bool) returns (reply: Reply<Identity>)
      requires Valid()
      ensures reply == Lookup(Tables(), conversation, allowRoot)
    {
      var who := FindParticipant(conversation, allowRoot);
      if who.None? || who.value.owner !in rooms {
        return Err(NotFound);
      }
      return Ok(who.value);
    }

    method OpenTheRoom(owner: Text, now: real)
      modifies this`rooms
      ensures Tables() == Apply(old(Tables()), OpenRoom(owner, now))
    {
      if owner !in rooms {
        rooms := rooms[owner := now];
      }
    }

    method DoJoin(conversation: Text, allowRoot: bool, now: real, ghost scan: seq<Id>) returns (reply: Reply<Identity>)
      requires Valid()
      modifies this`rooms
      ensures var tx := JoinTx(old(Tables()), At(now, scan), conversation, allowRoot);
              reply == tx.Reply() && (tx.Commit? ==> Tables() == ApplyAll(old(Tables()), tx.log))
    {
      var who := FindParticipant(conversation, allowRoot);
      if who.None? {
        return Err(NotFound);
      }
      OneChange(Tables(), OpenRoom(who.value.owner, now));
      OpenTheRoom(who.value.owner, now);
      return Ok(who.value);
    }

    /** The transaction of ResolveMailbox: it reconciles before it opens the room. */
    method JoinMailbox(conversation: Text, allowRoot: bool, now: real, scan: seq<Id>) returns (reply: Reply<Identity>)
      requires Valid() && IsScan(scan, agents)
      modifies this
      ensures Tables() == Serve(old(Tables()), At(now, scan), Transactions.JoinMailbox(conversation, allowRoot)) && Valid()
      ensures reply == JoinTx(Mid(old(Tables()), At(now, scan)), At(now, scan), conversation, allowRoot).Reply()
    {
      var saved := Tables();
      ghost var env := At(now, scan);
      var _ := ReconcileLeases(scan, now, now, Explain(LeaseExpired), mailbox);
      reply := DoJoin(conversation, allowRoot, now, scan);
      if reply.Err? {
        Restore(saved);
      }
      OutcomeIsServe(saved, env, Transactions.JoinMailbox(conversation, allowRoot),
                     JoinTx(Mid(saved, env), env, conversation, allowRoot));
    }

    /** A known participant is answered by the lookup; for any other conversation the
        transaction runs on the tables as other processes have left them by then. */
    method ResolveMailbox(input: Text, allowRoot: bool, others: Db, ghost between: seq<Event>, now: real, scan: seq<Id>)
      returns (reply: Reply<Identity>)
      requires Valid() && Meanwhile(Tables(), others, between) && IsScan(scan, others.agents)
      modifies this
      ensures Valid()
      ensures var conversation := TrimSpace(input);
              if conversation == [] then reply == Err(Invalid) && Tables() == old(Tables())
              else if Lookup(old(Tables()), conversation, allowRoot).Ok?
              then reply == Lookup(old(Tables()), conversation, allowRoot) && Tables() == old(Tables())
              else reply == JoinTx(Mid(others, At(now, scan)), At(now, scan), conversation, allowRoot).Reply()
                   && Tables() == Serve(others, At(now, scan), Transactions.JoinMailbox(conversation, allowRoot))
    {
      var conversation := TrimSpace(input);
      if conversation == [] {
        return Err(Invalid);
      }
      reply := LookupTrimmed(conversation, allowRoot);
      if reply.Ok? {
        return;
      }
      AfterKeepsInv(Tables(), between);
      Restore(others);
      reply := JoinMailbox(conversation, allowRoot, now, scan);
    }

    method MailboxContact(owner: Text, p: Party) returns (contact: Option<Sender>)
      ensures contact == Contact(Tables(), owner, p)
    {
      match p
      case Main => return Some(FromMain);
      case System => return None;
      case Worker(a) =>
        if a in agents && agents[a].activeRun in runs && agents[a].owner == owner {
          return Some(FromAgent(a, agents[a].name));
        }
        return None;
    }

    method CheckMailbox(who: Identity) returns (contact: Option<Sender>)
      ensures contact == ValidateMailbox(Tables(), who)
    {
      if who.owner !in rooms || who.owner == [] {
        return None;
      }
      contact := MailboxContact(who.owner, who.contact);
    }

    method SizeOf(m: MailRow) returns (size: nat)
      ensures size == MailBytes(m)
    {
      size := Budget.MailReadBytes(PartsOf(m));
    }

    method InsertMail(m: MailRow)
      modifies this`mails, this`mailSeq
      ensures Tables() == Apply(old(Tables()), Post(m))
    {
      mailSeq := mailSeq + 1;
      mails := mails + [m.(id := mailSeq)];
    }

    method DoSend(who: Identity, to: Party, subject: Text, body: Text, now: real, ghost scan: seq<Id>)
      returns (reply: Reply<MailRow>)
      modifies this`mails, this`mailSeq
      ensures var tx := SendTx(old(Tables()), At(now, scan), who, to, subject, body);
              reply == tx.Reply() && Tables() == ApplyAll(old(Tables()), tx.Log())
    {
      SendCases(Tables(), At(now, scan), who, to, subject, body);
      var sender := CheckMailbox(who);
      if sender.None? {
        return Err(NotFound);
      }
      if to == who.contact {
        return Err(Invalid);
      }
      var contact := MailboxContact(who.owner, to);
      if contact.None? {
        return Err(NotFound);
      }
      var mail := MailRow(0, who.owner, None, sender.value, to, Message(subject, body), [], [], now, None);
      reply := SendWithinBudget(mail);
    }

    method SendWithinBudget(mail: MailRow) returns (reply: Reply<MailRow>)
      modifies this`mails, this`mailSeq
      ensures reply == if WithinBudget(mail) then Ok(mail.(id := old(mailSeq) + 1)) else Err(Invalid)
      ensures Tables() == ApplyAll(old(Tables()), if WithinBudget(mail) then [Post(mail)] else [])
    {
      var size := SizeOf(mail);
      if size > Budget.MAX_MAIL_READ_BYTES {
        return Err(Invalid);
      }
      OneChange(Tables(), Post(mail));
      InsertMail(mail);
      return Ok(mail.(id := mailSeq));
    }

    /** Sends a letter whose texts are valid and within their limits. */
    method SendMail(who: Identity, to: Party, subjectInput: Text, bodyInput: Text, now: real, ghost scan: seq<Id>)
      returns (reply: Reply<MailRow>)
      requires Valid() && IsScan(scan, agents)
      modifies this
      ensures Valid()
      ensures var subject, body := TrimSpace(subjectInput), TrimSpace(bodyInput);
              var db, env := old(Tables()), At(now, scan);
              if !ValidLetter(subject, body) then reply == Err(Invalid) && Tables() == db
              else reply == SendTx(db, env, who, to, subject, body).Reply()
                   && Tables() == Serve(db, env, Transactions.SendMail(who, to, subject, body))
    {
      var subject, body := TrimSpace(subjectInput), TrimSpace(bodyInput);
      if !ValidLetter(subject, body) {
        return Err(Invalid);
      }
      reply := PostLetter(who, to, subject, body, now, scan);
    }

    method PostLetter(who: Identity, to: Party, subject: Text, body: Text, now: real, ghost scan: seq<Id>)
      returns (reply: Reply<MailRow>)
      requires Valid() && IsScan(scan, agents)
      modifies this
      ensures Tables() == Serve(old(Tables()), At(now, scan), Transactions.SendMail(who, to, subject, body)) && Valid()
      ensures reply == SendTx(old(Tables()), At(now, scan), who, to, subject, body).Reply()
    {
      MailOutcome(Tables(), At(now, scan), Transactions.SendMail(who, to, subject, body));
      reply := DoSend(who, to, subject, body, now, scan);
    }

    method SelectMail(who: Identity, id: nat) returns (found: Option<MailRow>)
      ensures found == FindMail(mails, who, id)
    {
      var i := 0;
      while i < |mails|
        invariant 0 <= i <= |mails| && FindMail(mails, who, id) == FindMail(mails[i..], who, id)
      {
        if Mine(mails[i], who, id) {
          return Some(mails[i]);
        }
        i := i + 1;
      }
      return None;
    }

    /** Positive and unique ids, at most ten. */
    method CheckIds(ids: seq<nat>) returns (ok: bool)
      ensures ok <==> 0 < |ids| <= MAX_READ_MAILS && Distinct(ids)
    {
      if ids == [] || |ids| > MAX_READ_MAILS {
        return false;
      }
      var seen := {};
      var i := 0;
      while i < |ids|
        invariant 0 <= i <= |ids| && Distinct(ids[..i]) && seen == IdSet(ids[..i])
      {
        if ids[i] == 0 || ids[i] in seen {
          RepeatedId(ids, i);
          return false;
        }
        DistinctSnoc(ids, i);
        seen := seen + {ids[i]};
        i := i + 1;
      }
      assert ids[..i] == ids;
      return true;
    }

    /** The selected mails, while their sizes stay in the budget. */
    method CollectMails(who: Identity, ids: seq<nat>, size: MailRow -> nat) returns (reply: Reply<seq<MailRow>>)
      ensures reply == Collect(mails, who, ids, 0, size)
    {
      var found: seq<MailRow>, total: nat, i := [], 0, 0;
      CollectStart(mails, who, ids, size);
      while i < |ids|
        invariant 0 <= i <= |ids|
        invariant Collect(mails, who, ids, 0, size) == Prepend(found, Collect(mails, who, ids[i..], total, size))
      {
        var m := SelectMail(who, ids[i]);
        CollectNext(mails, who, ids, i, total, size, found);
        if m.None? {
          return Err(NotFound);
        }
        total := total + size(m.value);
        if total > Budget.MAX_MAIL_READ_BYTES {
          return Err(Invalid);
        }
        found := found + [m.value];
        i := i + 1;
      }
      CollectEnd(mails, who, ids, total, size, found);
      return Ok(found);
    }

    /** UPDATE mails SET read_at = COALESCE(read_at, now) for each selected mail. */
    method MarkMails(who: Identity, ids: seq<nat>, now: real)
      requires AscendingMails(mails, mailSeq)
      requires forall k | 0 <= k < |ids| :: InInbox(mails, who, ids[k])
      modifies this`mails
      ensures mails == ReadAll(old(mails), IdSet(ids), now)
    {
      ghost var before := mails;
      var k := 0;
      assert ids[..0] == [] && ReadAll(before, IdSet(ids[..0]), now) == before;
      while k < |ids|
        invariant 0 <= k <= |ids| && mails == ReadAll(before, IdSet(ids[..k]), now)
      {
        MarkOne(before, mailSeq, who, ids, k, now);
        mails := Marked(mails, who, ids[k], now);
        k := k + 1;
      }
      assert ids[..k] == ids;
    }

    method DoRead(who: Identity, ids: seq<nat>, now: real, ghost scan: seq<Id>) returns (reply: Reply<seq<MailRow>>)
      requires AscendingMails(mails, mailSeq)
      modifies this`mails
      ensures var tx := ReadTx(old(Tables()), At(now, scan), who, ids);
              reply == tx.Reply() && Tables() == ApplyAll(old(Tables()), tx.Log())
    {
      ReadRejected(Tables(), At(now, scan), who, ids);
      var ok := CheckIds(ids);
      if !ok {
        return Err(Invalid);
      }
      var contact := CheckMailbox(who);
      if contact.None? {
        return Err(NotFound);
      }
      var collected := CollectMails(who, ids, MailBytes);
      ReadCollected(Tables(), At(now, scan), who, ids, collected);
      reply := MarkCollected(who, ids, collected, now);
    }

    method MarkCollected(who: Identity, ids: seq<nat>, collected: Reply<seq<MailRow>>, now: real)
      returns (reply: Reply<seq<MailRow>>)
      requires AscendingMails(mails, mailSeq)
      requires collected.Ok? ==> forall k | 0 <= k < |ids| :: InInbox(mails, who, ids[k])
      modifies this`mails
      ensures var tx := AfterCollecting(collected, ids, now);
              reply == tx.Reply() && Tables() == ApplyAll(old(Tables()), tx.Log())
    {
      match collected
      case Err(error) => return Err(error);
      case Ok(found) =>
        OneChange(Tables(), MarkRead(IdSet(ids), now));
        MarkMails(who, ids, now);
        return Ok(ReadEach(found, now));
    }

    method ReadMails(who: Identity, ids: seq<nat>, now: real, ghost scan: seq<Id>) returns (reply: Reply<seq<MailRow>>)
      requires Valid() && IsScan(scan, agents)
      modifies this
      ensures Tables() == Serve(old(Tables()), At(now, scan), Transactions.ReadMails(who, ids)) && Valid()
      ensures reply == ReadTx(old(Tables()), At(now, scan), who, ids).Reply()
    {
      MailOutcome(Tables(), At(now, scan), Transactions.ReadMails(who, ids));
      reply := DoRead(who, ids, now, scan);
    }

    method AckTerminalMail(owner: Text, a: Id, r: Id, now: real, ghost scan: seq<Id>)
      requires Valid() && IsScan(scan, agents)
      modifies this
      ensures Tables() == Serve(old(Tables()), At(now, scan), Transactions.AckTerminalMail(owner, a, r)) && Valid()
    {
      MailOutcome(Tables(), At(now, scan), Transactions.AckTerminalMail(owner, a, r));
      AcknowledgedMails(Tables(), At(now, scan), owner, a, r);
      mails := Acknowledged(mails, owner, a, r, now);
    }
  }

  /** What the holder of a claim keeps: its key, and the expiry it was last told. */
  class Lease {
    const key: LeaseKey
    var expiresAt: real

    constructor (key: LeaseKey, expiresAt: real)
      ensures this.key == key && this.expiresAt == expiresAt
    {
      this.key := key;
      this.expiresAt := expiresAt;
    }
  }
}

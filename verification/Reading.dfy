/** Reading mail: what a read returns, and that one mail can always be read. */
module Reading {
  import opened Texts
  import opened Types
  import opened Schema
  import opened Changes
  import opened Transactions
  import Budget = MailBudget

  function Total(found: seq<MailRow>, size: MailRow -> nat): nat {
    if found == [] then 0 else size(found[0]) + Total(found[1..], size)
  }

  /** These are the caller's mails with these ids, in the order asked for. */
  ghost predicate AreMine(mails: seq<MailRow>, who: Identity, ids: seq<nat>, found: seq<MailRow>) {
    |found| == |ids| && forall k | 0 <= k < |ids| :: FindMail(mails, who, ids[k]) == Some(found[k])
  }

  lemma {:induction false} FindMailIs(mails: seq<MailRow>, who: Identity, id: nat)
    ensures FindMail(mails, who, id).Some? ==> FindMail(mails, who, id).value in mails && Mine(FindMail(mails, who, id).value, who, id)
    ensures FindMail(mails, who, id).None? <==> forall i | 0 <= i < |mails| :: !Mine(mails[i], who, id)
  {
    if mails != [] && !Mine(mails[0], who, id) {
      FindMailIs(mails[1..], who, id);
      assert forall i | 1 <= i < |mails| :: mails[i] == mails[1..][i - 1];
    }
  }

  lemma AreMineStep(mails: seq<MailRow>, who: Identity, ids: seq<nat>, found: seq<MailRow>)
    requires ids != [] && found != []
    ensures AreMine(mails, who, ids, found) <==>
              FindMail(mails, who, ids[0]) == Some(found[0]) && AreMine(mails, who, ids[1..], found[1..])
  {
    if AreMine(mails, who, ids, found) {
      forall k | 0 <= k < |ids[1..]|
        ensures FindMail(mails, who, ids[1..][k]) == Some(found[1..][k])
      {
        assert ids[1..][k] == ids[k + 1] && found[1..][k] == found[k + 1];
      }
    }
    if FindMail(mails, who, ids[0]) == Some(found[0]) && AreMine(mails, who, ids[1..], found[1..]) {
      forall k | 0 <= k < |ids|
        ensures FindMail(mails, who, ids[k]) == Some(found[k])
      {
        assert k > 0 ==> ids[k] == ids[1..][k - 1] && found[k] == found[1..][k - 1];
      }
    }
  }

  /** A read succeeds with exactly these mails if and only if they are all in the
      caller's inbox and together fit the read budget. */
  lemma {:induction false} CollectIs(mails: seq<MailRow>, who: Identity, ids: seq<nat>, found: seq<MailRow>, total: nat,
                                     size: MailRow -> nat)
    ensures Collect(mails, who, ids, total, size) == Ok(found) <==>
              && AreMine(mails, who, ids, found)
              && (ids != [] ==> total + Total(found, size) <= Budget.MAX_MAIL_READ_BYTES)
  {
    if ids != [] && found != [] {
      AreMineStep(mails, who, ids, found);
      if FindMail(mails, who, ids[0]) == Some(found[0]) {
        CollectIs(mails, who, ids[1..], found[1..], total + size(found[0]), size);
        assert found == [found[0]] + found[1..];
      }
    }
  }

  /** A mail that fits the budget can always be read alone by its recipient. */
  lemma OneMailCanBeRead(db: Db, env: Env, who: Identity, i: nat)
    requires Inv(db) && i < |db.mails| && Mine(db.mails[i], who, db.mails[i].id) && ValidateMailbox(db, who).Some?
    requires WithinBudget(db.mails[i])
    ensures var m := db.mails[i];
            ReadTx(db, env, who, [m.id]) == Commit([MarkRead({m.id}, env.now)], [Read(m, env.now)])
  {
    var m := db.mails[i];
    MineIsFound(db, who, i);
    OneFits(db.mails, who, m, MailBytes);
    assert MailOk(m, db.events, db.rooms, db.runs);
    ReadsOne(db, env, who, m, MailBytes);
  }

  lemma MineIsFound(db: Db, who: Identity, i: nat)
    requires AscendingMails(db.mails, db.mailSeq) && i < |db.mails| && Mine(db.mails[i], who, db.mails[i].id)
    ensures FindMail(db.mails, who, db.mails[i].id) == Some(db.mails[i])
  {
    FindMailIs(db.mails, who, db.mails[i].id);
    SameId(db, db.mails[i], FindMail(db.mails, who, db.mails[i].id).value);
  }

  lemma OneFits(mails: seq<MailRow>, who: Identity, m: MailRow, size: MailRow -> nat)
    requires FindMail(mails, who, m.id) == Some(m) && size(m) <= Budget.MAX_MAIL_READ_BYTES
    ensures Collect(mails, who, [m.id], 0, size) == Ok([m])
  {
    assert AreMine(mails, who, [m.id], [m]);
    assert [m][1..] == [];
    CollectIs(mails, who, [m.id], [m], 0, size);
  }

  lemma ReadsOne(db: Db, env: Env, who: Identity, m: MailRow, size: MailRow -> nat)
    requires Collect(db.mails, who, [m.id], 0, size) == Ok([m]) && m.id > 0 && ValidateMailbox(db, who).Some?
    ensures ReadWith(db, env, who, [m.id], size) == Commit([MarkRead({m.id}, env.now)], [Read(m, env.now)])
  {
    assert IdSet([m.id]) == {m.id};
    assert ReadEach([m], env.now) == [Read(m, env.now)];
  }

  lemma SameId(db: Db, m: MailRow, n: MailRow)
    requires AscendingMails(db.mails, db.mailSeq) && m in db.mails && n in db.mails && m.id == n.id
    ensures m == n
  {
  }
}

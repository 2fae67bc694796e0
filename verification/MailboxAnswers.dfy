/** What a mailbox answers: who a conversation is, who may write to whom, and which mails a
    read or an acknowledgement marks. */
module MailboxAnswers {
  import opened Texts
  import opened Types
  import opened Schema
  import opened Changes
  import opened Coherence
  import opened Transactions
  import opened Legality
  import opened Reading
  import opened Identities

  // --- identities ------------------------------------------------------------

  /** Who a conversation is: the agent whose child it is, or a root if it may be one. */
  ghost predicate Is(db: Db, conversation: Text, allowRoot: bool, who: Identity) {
    || (who.contact.Worker? && IsChild(db, conversation, who.contact.id) && who.owner == db.agents[who.contact.id].owner)
    || (allowRoot && who == Identity(conversation, Main) && !exists a :: IsChild(db, conversation, a))
  }

  lemma ParticipantIs(db: Db, conversation: Text, allowRoot: bool, who: Identity)
    requires Inv(db)
    ensures Participant(db, conversation, allowRoot) == Some(who) <==> Is(db, conversation, allowRoot, who)
  {
    if a :| IsChild(db, conversation, a) {
      ChildResolves(db, conversation, a, allowRoot);
      if who.contact.Worker? && IsChild(db, conversation, who.contact.id) {
        ChildResolves(db, conversation, who.contact.id, allowRoot);
      }
    }
  }

  /** A lookup answers exactly with who the conversation is, if that is in a room. */
  lemma LookupAnswers(db: Db, conversation: Text, allowRoot: bool, who: Identity)
    requires Inv(db)
    ensures Lookup(db, conversation, allowRoot) == Ok(who) <==> Is(db, conversation, allowRoot, who) && who.owner in db.rooms
    ensures Lookup(db, conversation, allowRoot).Err? ==> Lookup(db, conversation, allowRoot).error.NotFound?
  {
    ParticipantIs(db, conversation, allowRoot, who);
  }

  /** Joining opens the participant's room, if it is not open, and changes nothing else; from
      then on the lookup gives the same answer. */
  lemma JoinAnswers(db: Db, env: Env, conversation: Text, allowRoot: bool)
    requires Inv(db)
    ensures var tx := JoinTx(db, env, conversation, allowRoot);
            if !exists who :: Is(db, conversation, allowRoot, who) then tx == Rollback(NotFound)
            else
              var db' := ApplyAll(db, tx.Log());
              && tx.Commit? && Is(db, conversation, allowRoot, tx.value)
              && db' == db.(rooms := if tx.value.owner in db.rooms then db.rooms else db.rooms[tx.value.owner := env.now])
              && Lookup(db', conversation, allowRoot) == Ok(tx.value)
  {
    var found := Participant(db, conversation, allowRoot);
    if found.Some? {
      ParticipantIs(db, conversation, allowRoot, found.value);
      OneLegal(db, OpenRoom(found.value.owner, env.now));
      SameParticipant(db, env, found.value.owner, conversation, allowRoot);
    } else {
      forall who
        ensures !Is(db, conversation, allowRoot, who)
      {
        ParticipantIs(db, conversation, allowRoot, who);
      }
    }
  }

  lemma SameParticipant(db: Db, env: Env, owner: Text, conversation: Text, allowRoot: bool)
    requires Inv(db)
    ensures Participant(Apply(db, OpenRoom(owner, env.now)), conversation, allowRoot) == Participant(db, conversation, allowRoot)
  {
    var db' := Apply(db, OpenRoom(owner, env.now));
    if a :| IsChild(db, conversation, a) {
      assert IsChild(db', conversation, a);
      ChildResolves(db, conversation, a, allowRoot);
      ChildResolves(db', conversation, a, allowRoot);
    } else {
      assert forall a :: IsChild(db', conversation, a) <==> IsChild(db, conversation, a);
    }
  }

  // --- sending ---------------------------------------------------------------

  /** The contacts of a room: main and the owner's agents. */
  predicate IsContact(db: Db, owner: Text, p: Party) {
    p.Main? || (p.Worker? && p.id in db.agents && db.agents[p.id].owner == owner)
  }

  predicate IsMailbox(db: Db, who: Identity) {
    who.owner != [] && who.owner in db.rooms && IsContact(db, who.owner, who.contact)
  }

  lemma ContactsAre(db: Db, owner: Text, p: Party)
    requires Inv(db)
    ensures Contact(db, owner, p).Some? <==> IsContact(db, owner, p)
    ensures Contact(db, owner, p).Some? ==>
              if p.Main? then Contact(db, owner, p).value == FromMain
              else p.Worker? && Contact(db, owner, p).value == FromAgent(p.id, db.agents[p.id].name)
  {
    if p.Worker? && p.id in db.agents {
      AgentFact(db.agents, db.runs, p.id);
    }
  }

  /** What a contact sends another. */
  ghost predicate Sent(db: Db, who: Identity, to: Party, subject: Text, body: Text, now: real, m: MailRow) {
    && m.id == db.mailSeq + 1 && m.owner == who.owner && m.recipient == to && m.content == Message(subject, body)
    && (if who.contact.Main? then m.sender == FromMain
        else who.contact.Worker? && who.contact.id in db.agents
             && m.sender == FromAgent(who.contact.id, db.agents[who.contact.id].name))
    && m.event.None? && m.agent == [] && m.run == [] && m.createdAt == now && m.readAt.None?
  }

  /** A mail is sent if and only if sender and recipient are two contacts of a room that is
      open, and the mail fits the budget of a read. */
  lemma SendAnswers(db: Db, env: Env, who: Identity, to: Party, subject: Text, body: Text)
    requires Inv(db)
    ensures var tx := SendTx(db, env, who, to, subject, body);
            if !IsMailbox(db, who) || (to != who.contact && !IsContact(db, who.owner, to)) then tx == Rollback(NotFound)
            else if to == who.contact then tx == Rollback(Invalid)
            else exists m :: Sent(db, who, to, subject, body, env.now, m)
                   && tx == if WithinBudget(m.(id := 0)) then Commit([Post(m.(id := 0))], m) else Rollback(Invalid)
  {
    ContactsAre(db, who.owner, who.contact);
    ContactsAre(db, who.owner, to);
    if IsMailbox(db, who) && to != who.contact && IsContact(db, who.owner, to) {
      SendsThat(db, env, who, to, subject, body, Contact(db, who.owner, who.contact).value);
    }
  }

  lemma SendsThat(db: Db, env: Env, who: Identity, to: Party, subject: Text, body: Text, sender: Sender)
    requires ValidateMailbox(db, who) == Some(sender) && to != who.contact && Contact(db, who.owner, to).Some?
    ensures var m := MailRow(0, who.owner, None, sender, to, Message(subject, body), [], [], env.now, None);
            SendTx(db, env, who, to, subject, body)
            == if WithinBudget(m) then Commit([Post(m)], m.(id := db.mailSeq + 1)) else Rollback(Invalid)
    ensures var m := MailRow(0, who.owner, None, sender, to, Message(subject, body), [], [], env.now, None);
            m.(id := db.mailSeq + 1).(id := 0) == m
  {
  }

  // --- reading ---------------------------------------------------------------

  predicate Selection(ids: seq<nat>) {
    && 1 <= |ids| <= 10 && (forall i | 0 <= i < |ids| :: ids[i] >= 1)
    && forall i, j | 0 <= i < j < |ids| :: ids[i] != ids[j]
  }

  /** Up to ten mails are read if and only if they are all in the caller's inbox and fit the
      budget together; they come in the order asked for, with their first read times. */
  lemma ReadAnswers(db: Db, env: Env, who: Identity, ids: seq<nat>, size: MailRow -> nat)
    requires Inv(db)
    ensures var tx := ReadWith(db, env, who, ids, size);
            && (tx.Commit? <==>
                  && Selection(ids) && IsMailbox(db, who)
                  && exists found :: AreMine(db.mails, who, ids, found) && Total(found, size) <= 36_000)
            && (tx.Commit? ==>
                  exists found :: AreMine(db.mails, who, ids, found) && |found| == |ids| && |tx.value| == |ids|
                    && forall k | 0 <= k < |ids| :: tx.value[k] == Read(found[k], env.now))
            && (!Selection(ids) ==> tx == Rollback(Invalid))
            && (Selection(ids) && !IsMailbox(db, who) ==> tx == Rollback(NotFound))
  {
    ContactsAre(db, who.owner, who.contact);
    if Selection(ids) && IsMailbox(db, who) {
      var collected := Collect(db.mails, who, ids, 0, size);
      if collected.Ok? {
        CollectIs(db.mails, who, ids, collected.value, 0, size);
      }
      forall found | AreMine(db.mails, who, ids, found) && Total(found, size) <= 36_000
        ensures collected == Ok(found)
      {
        CollectIs(db.mails, who, ids, found, 0, size);
      }
    }
  }

  /** Marking mails read changes exactly those that are selected and unread. */
  ghost predicate MarkedRead(db: Db, db': Db, chosen: MailRow -> bool, now: real) {
    && db' == db.(mails := db'.mails) && |db'.mails| == |db.mails|
    && forall i | 0 <= i < |db.mails| ::
         db'.mails[i] == if chosen(db.mails[i]) && db.mails[i].readAt.None? then db.mails[i].(readAt := Some(now)) else db.mails[i]
  }

  lemma ReadMarks(db: Db, env: Env, who: Identity, ids: seq<nat>, size: MailRow -> nat)
    requires Inv(db) && ReadWith(db, env, who, ids, size).Commit?
    ensures MarkedRead(db, ApplyAll(db, ReadWith(db, env, who, ids, size).log),
                       (m: MailRow) => m.owner == who.owner && m.recipient == who.contact && m.id in ids, env.now)
  {
    var c := MarkRead(IdSet(ids), env.now);
    OneLegal(db, c);
    var found := Collect(db.mails, who, ids, 0, size).value;
    CollectIs(db.mails, who, ids, found, 0, size);
    forall i | 0 <= i < |db.mails| && db.mails[i].id in ids
      ensures Mine(db.mails[i], who, db.mails[i].id)
    {
      var k :| 0 <= k < |ids| && ids[k] == db.mails[i].id;
      FindMailIs(db.mails, who, ids[k]);
      SameId(db, db.mails[i], found[k]);
    }
  }

  /** An acknowledgement marks main's notice of that run, for that owner and agent, and no
      other mail. */
  lemma AcknowledgementMarks(db: Db, env: Env, owner: Text, a: Id, r: Id)
    requires Inv(db)
    ensures AckTerminalTx(db, env, owner, a, r).Commit?
    ensures MarkedRead(db, ApplyAll(db, AckTerminalTx(db, env, owner, a, r).log),
                       (m: MailRow) => m.owner == owner && m.recipient == Main && m.sender.FromSystem?
                                       && m.event == Some(Terminal(r)) && m.agent == a && m.run == r, env.now)
  {
    var c := AckTerminalTx(db, env, owner, a, r).log[0];
    OneLegal(db, c);
    forall i | 0 <= i < |db.mails|
      ensures db.mails[i].id in c.ids <==> TerminalNoticeFor(db.mails[i], owner, a, r)
    {
      if db.mails[i].id in c.ids {
        var k :| 0 <= k < |db.mails| && TerminalNoticeFor(db.mails[k], owner, a, r) && db.mails[k].id == db.mails[i].id;
        SameId(db, db.mails[i], db.mails[k]);
      }
    }
  }
}

/** The runtime's identity cache: filled by lookups and resolutions, never invalidated. */
module IdentityCache {
  import opened Texts
  import opened Types
  import opened Schema
  import opened Changes
  import opened Coherence
  import opened Transactions
  import opened Legality
  import opened Evolution
  import opened Identities
  import opened Spaces
  import opened Stores

  /** A child that has joined can be looked up from then on. */
  lemma JoinedIsSound(db: Db, env: Env, conversation: Text, allowRoot: bool, who: Identity)
    requires Inv(db) && IsScan(env.scan, db.agents)
    requires JoinTx(Mid(db, env), env, conversation, allowRoot).Reply() == Ok(who) && who.contact.Worker?
    ensures ChildrenSound(map[conversation := who], Serve(db, env, JoinMailbox(conversation, allowRoot)))
  {
    MidFacts(db, env);
    OutcomeIsServe(db, env, JoinMailbox(conversation, allowRoot), JoinTx(Mid(db, env), env, conversation, allowRoot));
    RoomIsSound(Mid(db, env), env, conversation, allowRoot, who);
  }

  lemma RoomIsSound(db: Db, env: Env, conversation: Text, allowRoot: bool, who: Identity)
    requires Inv(db) && JoinTx(db, env, conversation, allowRoot).Reply() == Ok(who) && who.contact.Worker?
    ensures ChildrenSound(map[conversation := who], ApplyAll(db, JoinTx(db, env, conversation, allowRoot).Log()))
  {
    var db' := Apply(db, OpenRoom(who.owner, env.now));
    OneChange(db, OpenRoom(who.owner, env.now));
    RoomOpened(db, who.owner, env.now);
    ChangeKeepsInv(db, OpenRoom(who.owner, env.now));
    assert IsChild(db, conversation, who.contact.id);
    ChildResolves(db, conversation, who.contact.id, allowRoot);
    ChildIsSound(db', conversation, who.contact.id);
  }

  lemma RoomOpened(db: Db, owner: Text, at: real)
    ensures var db' := Apply(db, OpenRoom(owner, at));
            db'.agents == db.agents && db'.runs == db.runs && owner in db'.rooms
  {
  }

  lemma ChildIsSound(db: Db, conversation: Text, a: Id)
    requires Inv(db) && IsChild(db, conversation, a) && db.agents[a].owner in db.rooms
    ensures ChildrenSound(map[conversation := Identity(db.agents[a].owner, Worker(a))], db)
  {
    ChildResolves(db, conversation, a, true);
    ChildResolves(db, conversation, a, false);
  }

  lemma ServeEvolves(db: Db, env: Env, req: Request)
    requires Inv(db) && Possible(db, env, req)
    ensures Inv(Serve(db, env, req)) && Evolves(db, Serve(db, env, req))
  {
    TransactionLegal(db, env, req);
    ServeKeepsInv(db, env, req);
    ChangesEvolve(db, Transaction(db, env, req).Log());
  }

  lemma HistoryKeepsSound(identities: map<Text, Identity>, db: Db, others: Db, between: seq<Event>)
    requires Inv(db) && Meanwhile(db, others, between) && ChildrenSound(identities, db)
    ensures Inv(others) && ChildrenSound(identities, others)
  {
    AfterKeepsInv(db, between);
    CachedChildrenStay(identities, db, between);
  }

  class Cache {
    var identities: map<Text, Identity>

    constructor ()
      ensures identities == map[]
    {
      identities := map[];
    }

    /** The critical section that asks the cache. */
    method Cached(conversation: Text) returns (who: Option<Identity>)
      ensures who == if conversation in identities then Some(identities[conversation]) else None
    {
      return if conversation in identities then Some(identities[conversation]) else None;
    }

    /** The critical section that fills it, by when other processes may have committed. */
    method Fill(conversation: Text, who: Identity, ghost db: Db, ghost others: Db, ghost between: seq<Event>)
      requires Inv(db) && Meanwhile(db, others, between) && ChildrenSound(identities, db)
      requires who.contact.Worker? ==> ChildrenSound(map[conversation := who], db)
      modifies this
      ensures identities == old(identities)[conversation := who] && ChildrenSound(identities, others)
    {
      AddSound(identities, conversation, who, db);
      identities := identities[conversation := who];
      HistoryKeepsSound(identities, db, others, between);
    }

    /** Asks the store on a miss. What other processes commit before the store's own
        transaction is others; what they commit before the cache is filled, Fill covers. */
    method Identify(store: Store, conversation: Text, allowRoot: bool, create: bool, others: Db, ghost between: seq<Event>,
                    now: real, scan: seq<Id>) returns (reply: Reply<Identity>)
      requires store.Valid() && ChildrenSound(identities, store.Tables()) && conversation != [] && TrimSpace(conversation) == conversation
      requires Meanwhile(store.Tables(), others, between) && IsScan(scan, others.agents)
      modifies this, store
      ensures store.Valid() && ChildrenSound(identities, store.Tables())
      ensures identities == if reply.Ok? then old(identities)[conversation := reply.value] else old(identities)
      ensures conversation in old(identities) ==>
                reply == Ok(old(identities)[conversation]) && store.Tables() == old(store.Tables())
      ensures conversation !in old(identities) && !create ==>
                reply == Lookup(store.Tables(), conversation, allowRoot) && store.Tables() == old(store.Tables())
      ensures conversation !in old(identities) && create ==>
                if Lookup(old(store.Tables()), conversation, allowRoot).Ok?
                then reply == Lookup(old(store.Tables()), conversation, allowRoot) && store.Tables() == old(store.Tables())
                else reply == JoinTx(Mid(others, store.At(now, scan)), store.At(now, scan), conversation, allowRoot).Reply()
                     && store.Tables() == Serve(others, store.At(now, scan), JoinMailbox(conversation, allowRoot))
    {
      var cached := Cached(conversation);
      if cached.Some? {
        AddCached(identities, conversation);
        return Ok(cached.value);
      }
      ghost var db, env := store.Tables(), store.At(now, scan);
      if create {
        reply := store.ResolveMailbox(conversation, allowRoot, others, between, now, scan);
        if Lookup(db, conversation, allowRoot).Err? {
          HistoryKeepsSound(identities, db, others, between);
          ServeEvolves(others, env, JoinMailbox(conversation, allowRoot));
          SoundStays(identities, others, store.Tables());
        }
      } else {
        reply := store.LookupMailbox(conversation, allowRoot);
      }
      if reply.Ok? {
        AnswerIsSound(db, others, between, env, conversation, allowRoot, reply.value, store.Tables());
        Fill(conversation, reply.value, store.Tables(), store.Tables(), []);
      }
    }
  }

  /** A child's identity, looked up or joined, is sound where it was found. */
  lemma AnswerIsSound(db: Db, others: Db, between: seq<Event>, env: Env, conversation: Text, allowRoot: bool, who: Identity,
                      db': Db)
    requires Inv(db) && Meanwhile(db, others, between) && IsScan(env.scan, others.agents)
    requires if Lookup(db, conversation, allowRoot).Ok? then Lookup(db, conversation, allowRoot) == Ok(who) && db' == db
             else JoinTx(Mid(others, env), env, conversation, allowRoot).Reply() == Ok(who)
                  && db' == Serve(others, env, JoinMailbox(conversation, allowRoot))
    ensures who.contact.Worker? ==> ChildrenSound(map[conversation := who], db')
  {
    if who.contact.Worker? {
      if Lookup(db, conversation, allowRoot).Ok? {
        ChildIsSound(db, conversation, who.contact.id);
      } else {
        AfterKeepsInv(db, between);
        JoinedIsSound(others, env, conversation, allowRoot, who);
      }
    }
  }

  lemma AddCached(identities: map<Text, Identity>, conversation: Text)
    requires conversation in identities
    ensures identities == identities[conversation := identities[conversation]]
  {
  }

  lemma AddSound(identities: map<Text, Identity>, conversation: Text, who: Identity, db: Db)
    requires ChildrenSound(identities, db) && (who.contact.Worker? ==> ChildrenSound(map[conversation := who], db))
    ensures ChildrenSound(identities[conversation := who], db)
  {
    if who.contact.Worker? {
      assert map[conversation := who][conversation] == who;
      assert forall allowRoot :: Lookup(db, conversation, allowRoot) == Ok(map[conversation := who][conversation]);
    }
  }
}

/** Mailbox identities over time: which cached answers stay right. */
module Identities {
  import opened Texts
  import opened Types
  import opened Schema
  import opened Changes
  import opened Coherence
  import opened Transactions
  import opened Legality
  import opened Evolution
  import opened Fencing

  /** A conversation resolves to the one agent whose child it is. */
  lemma ChildResolves(db: Db, conversation: Text, a: Id, allowRoot: bool)
    requires Rows(db.agents, db.runs) && IsChild(db, conversation, a)
    ensures Participant(db, conversation, allowRoot) == Some(Identity(db.agents[a].owner, Worker(a)))
  {
    forall b | IsChild(db, conversation, b)
      ensures b == a
    {
      assert SameChild(db.agents, a, b);
    }
  }

  /** Once a conversation resolves to an agent, it resolves to that agent for good,
      whether or not the caller may be a root. */
  lemma ChildIdentityIsStable(db: Db, history: seq<Event>, conversation: Text, a: Id, allowRoot: bool, later: bool)
    requires Inv(db) && Allowed(db, history)
    requires Lookup(db, conversation, allowRoot).Ok? && Lookup(db, conversation, allowRoot).value.contact == Worker(a)
    ensures Lookup(After(db, history), conversation, later) == Lookup(db, conversation, allowRoot)
  {
    HistoryEvolves(db, history);
    AfterKeepsInv(db, history);
    assert IsChild(db, conversation, a);
    ChildStays(db, After(db, history), conversation, a);
    ChildResolves(db, conversation, a, allowRoot);
    ChildResolves(After(db, history), conversation, a, later);
  }

  lemma ChildStays(db: Db, db': Db, conversation: Text, a: Id)
    requires Evolves(db, db') && IsChild(db, conversation, a)
    ensures IsChild(db', conversation, a) && db'.agents[a].owner == db.agents[a].owner
    ensures db.agents[a].owner in db.rooms ==> db'.agents[a].owner in db'.rooms
  {
    assert Permanent(db.agents[a]);
    assert db'.agents[a].child == db.agents[a].child;
  }

  /** The children among some cached identities are what the store would answer. */
  ghost predicate ChildrenSound(identities: map<Text, Identity>, db: Db) {
    forall conversation, allowRoot | conversation in identities && identities[conversation].contact.Worker? ::
      Lookup(db, conversation, allowRoot) == Ok(identities[conversation])
  }

  lemma SoundStays(identities: map<Text, Identity>, db: Db, db': Db)
    requires Inv(db) && Inv(db') && Evolves(db, db') && ChildrenSound(identities, db)
    ensures ChildrenSound(identities, db')
  {
    forall conversation, allowRoot | conversation in identities && identities[conversation].contact.Worker?
      ensures Lookup(db', conversation, allowRoot) == Ok(identities[conversation])
    {
      var a := identities[conversation].contact.id;
      assert Lookup(db, conversation, allowRoot) == Ok(identities[conversation]);
      assert IsChild(db, conversation, a);
      ChildStays(db, db', conversation, a);
      ChildResolves(db, conversation, a, allowRoot);
      ChildResolves(db', conversation, a, allowRoot);
    }
  }

  /** The cache is never invalidated, and its children stay right whatever happens. */
  lemma CachedChildrenStay(identities: map<Text, Identity>, db: Db, history: seq<Event>)
    requires Inv(db) && Allowed(db, history) && ChildrenSound(identities, db)
    ensures ChildrenSound(identities, After(db, history))
  {
    HistoryEvolves(db, history);
    AfterKeepsInv(db, history);
    SoundStays(identities, db, After(db, history));
  }

  /** A root's identity stays right exactly as long as its conversation has not been
      attached to an agent. */
  lemma RootIdentityIsStable(db: Db, history: seq<Event>, conversation: Text)
    requires Inv(db) && Allowed(db, history) && Lookup(db, conversation, true) == Ok(Identity(conversation, Main))
    ensures Lookup(After(db, history), conversation, true) == Lookup(db, conversation, true)
            <==> !exists a :: IsChild(After(db, history), conversation, a)
  {
    HistoryEvolves(db, history);
  }

  /** Nothing keeps a root conversation from being attached: from every state with a
      startup under way, its holder may attach one, and the cached answer is wrong. */
  lemma RootMayBecomeChild(db: Db, env: Env, a: Id, conversation: Text)
    requires Inv(db) && IsScan(env.scan, db.agents)
    requires a in db.agents && db.agents[a].status.Starting? && db.agents[a].child.None? && db.agents[a].lease.Some?
    requires env.runtime == db.agents[a].lease.value.runtime && env.now < db.agents[a].lease.value.expires
    requires conversation != [] && Lookup(db, conversation, true) == Ok(Identity(conversation, Main))
    ensures var req := AttachConversation(LiveKey(db, a), conversation);
            && Possible(db, env, req)
            && Lookup(Serve(db, env, req), conversation, true) != Lookup(db, conversation, true)
  {
    var key := LiveKey(db, a);
    var mid := Mid(db, env);
    ReconcileKeepsClaim(db, env, a);
    NoChildAfterReconciling(db, env, conversation);
    AttachSucceeds(mid, env, a, conversation);
    ServeIsBody(db, env, AttachConversation(key, conversation));
    Attached(mid, env, a, conversation);
  }

  lemma NoChildAfterReconciling(db: Db, env: Env, conversation: Text)
    requires Inv(db) && IsScan(env.scan, db.agents) && !exists b :: IsChild(db, conversation, b)
    ensures !exists b :: IsChild(Mid(db, env), conversation, b)
  {
    MidFacts(db, env);
    forall b
      ensures !IsChild(Mid(db, env), conversation, b)
    {
      assert !IsChild(db, conversation, b);
    }
  }

  lemma AttachSucceeds(db: Db, env: Env, a: Id, conversation: Text)
    requires Inv(db) && a in db.agents && db.agents[a].status.Starting? && db.agents[a].child.None? && db.agents[a].lease.Some?
    requires env.runtime == db.agents[a].lease.value.runtime && env.now < db.agents[a].lease.value.expires
    requires conversation != [] && !exists b :: IsChild(db, conversation, b)
    ensures Legal(db, Attach(a, conversation, env.now))
    ensures AttachTx(db, env, LiveKey(db, a), conversation, false).Log() == [Attach(a, conversation, env.now)]
  {
    var key := LiveKey(db, a);
    var c := Attach(a, conversation, env.now);
    AgentFact(db.agents, db.runs, a);
    OneLeaseMatches(db, key, env.runtime, env.now);
    forall b | b in db.agents && b != a
      ensures db.agents[b].child != Some(conversation)
    {
      assert !IsChild(db, conversation, b);
    }
    OneLegal(db, c);
    RowsAfter(db, c);
  }

  lemma Attached(db: Db, env: Env, a: Id, conversation: Text)
    requires Inv(db) && Legal(db, Attach(a, conversation, env.now))
    ensures IsChild(ApplyAll(db, [Attach(a, conversation, env.now)]), conversation, a)
    ensures Participant(ApplyAll(db, [Attach(a, conversation, env.now)]), conversation, true) != Some(Identity(conversation, Main))
  {
    OneLegal(db, Attach(a, conversation, env.now));
    RowsAfter(db, Attach(a, conversation, env.now));
    assert IsChild(ApplyAll(db, [Attach(a, conversation, env.now)]), conversation, a);
  }
}

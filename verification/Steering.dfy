/** Steering as a queue: what has been sent to an agent and not yet delivered, in order,
    across all its runs. */
module Steering {
  import opened Texts
  import opened Types
  import opened Schema
  import opened Changes
  import opened Coherence
  import opened Transactions
  import opened Legality

  // --- one agent's rows ------------------------------------------------------

  function Of(steering: seq<SteeringRow>, a: Id): seq<SteeringRow> {
    if steering == [] then []
    else
      var m := steering[|steering| - 1];
      Of(steering[..|steering| - 1], a) + if m.agent == a then [m] else []
  }

  function Bodies(rows: seq<SteeringRow>): (texts: seq<Text>)
    ensures |texts| == |rows|
  {
    seq(|rows|, i requires 0 <= i < |rows| => rows[i].message)
  }

  /** The messages waiting for an agent. */
  function Pending(db: Db, a: Id): seq<Text> { Bodies(Of(db.steering, a)) }

  ghost predicate AllKeyed(steering: seq<SteeringRow>, a: Id, r: Id, g: nat) {
    forall i | 0 <= i < |steering| && steering[i].agent == a :: KeyedTo(steering[i], a, r, g)
  }

  lemma {:induction false} OfMembers(steering: seq<SteeringRow>, a: Id, k: nat)
    requires k < |Of(steering, a)|
    ensures exists i :: 0 <= i < |steering| && steering[i] == Of(steering, a)[k] && steering[i].agent == a
  {
    var n := |steering| - 1;
    if k < |Of(steering[..n], a)| {
      OfMembers(steering[..n], a, k);
      var i :| 0 <= i < n && steering[..n][i] == Of(steering, a)[k] && steering[..n][i].agent == a;
      assert steering[i] == Of(steering, a)[k];
    } else {
      assert steering[n] == Of(steering, a)[k];
    }
  }

  lemma {:induction false} OfRekey(steering: seq<SteeringRow>, a: Id, r: Id, g: nat, b: Id)
    ensures Bodies(Of(Rekey(steering, a, r, g), b)) == Bodies(Of(steering, b))
  {
    if steering != [] {
      var n := |steering| - 1;
      OfRekey(steering[..n], a, r, g, b);
      assert Rekey(steering, a, r, g)[..n] == Rekey(steering[..n], a, r, g);
      var s, t := Of(Rekey(steering, a, r, g), b), Of(steering, b);
      assert |s| == |t|;
      forall i | 0 <= i < |s|
        ensures s[i].message == t[i].message
      {
        var s0, t0 := Of(Rekey(steering, a, r, g)[..n], b), Of(steering[..n], b);
        assert |s0| == |t0|;
        if i < |s0| {
          assert Bodies(s0)[i] == Bodies(t0)[i];
        }
      }
    }
  }

  lemma {:induction false} OfDropRun(steering: seq<SteeringRow>, a: Id, r: Id, g: nat, b: Id)
    requires AllKeyed(steering, a, r, g)
    ensures Of(DropRun(steering, a, r, g), b) == if b == a then [] else Of(steering, b)
  {
    if steering != [] {
      var n := |steering| - 1;
      OfDropRun(steering[..n], a, r, g, b);
      OfSnoc(DropRun(steering[..n], a, r, g), steering[n], b);
      assert DropRun(steering[..n], a, r, g) + [] == DropRun(steering[..n], a, r, g);
    }
  }

  lemma OfSnoc(steering: seq<SteeringRow>, m: SteeringRow, b: Id)
    ensures Of(steering + [m], b) == Of(steering, b) + if m.agent == b then [m] else []
  {
    assert (steering + [m])[..|steering|] == steering;
  }

  lemma {:induction false} OfDropAgent(steering: seq<SteeringRow>, a: Id, b: Id)
    ensures Of(DropAgent(steering, a), b) == if b == a then [] else Of(steering, b)
  {
    if steering != [] {
      var n := |steering| - 1;
      OfDropAgent(steering[..n], a, b);
      OfSnoc(DropAgent(steering[..n], a), steering[n], b);
      assert DropAgent(steering[..n], a) + [] == DropAgent(steering[..n], a);
    }
  }

  /** Deleting an id that is no message of an agent's leaves its messages alone. */
  lemma {:induction false} OfDropOther(steering: seq<SteeringRow>, id: nat, b: Id)
    requires forall i | 0 <= i < |steering| && steering[i].id == id :: steering[i].agent != b
    ensures Of(DropId(steering, id), b) == Of(steering, b)
  {
    if steering != [] {
      var n := |steering| - 1;
      OfDropOther(steering[..n], id, b);
      OfSnoc(DropId(steering[..n], id), steering[n], b);
      assert DropId(steering[..n], id) + [] == DropId(steering[..n], id);
    }
  }

  /** Deleting the head's id takes the head off. */
  lemma {:induction false} OfDropHead(steering: seq<SteeringRow>, id: nat, b: Id)
    requires Ascending(steering) && Of(steering, b) != [] && Of(steering, b)[0].id == id
    ensures Of(DropId(steering, id), b) == Of(steering, b)[1..]
  {
    var n := |steering| - 1;
    var front, last := steering[..n], steering[n];
    if Of(front, b) != [] {
      var rows, tail := Of(front, b), if last.agent == b then [last] else [];
      assert Of(steering, b) == rows + tail && rows[0].id == id;
      OfDropHead(front, id, b);
      LaterId(steering, id, b);
      OfSnoc(DropId(front, id), last, b);
      assert (rows + tail)[1..] == rows[1..] + tail;
    } else {
      assert last.agent == b && last.id == id;
      NoneDropped(front, id, b);
      assert DropId(front, id) + [] == DropId(front, id);
    }
  }

  /** The last row's id is not the head's, if the head is an earlier row. */
  lemma LaterId(steering: seq<SteeringRow>, id: nat, b: Id)
    requires Ascending(steering) && steering != []
    requires var rows := Of(steering[..|steering| - 1], b); rows != [] && rows[0].id == id
    ensures steering[|steering| - 1].id != id
  {
    OfMembers(steering[..|steering| - 1], b, 0);
  }

  lemma OfDropId(steering: seq<SteeringRow>, id: nat, b: Id)
    requires Ascending(steering)
    ensures (forall i | 0 <= i < |steering| && steering[i].id == id :: steering[i].agent != b) ==>
              Of(DropId(steering, id), b) == Of(steering, b)
    ensures Of(steering, b) != [] && Of(steering, b)[0].id == id ==> Of(DropId(steering, id), b) == Of(steering, b)[1..]
  {
    if forall i | 0 <= i < |steering| && steering[i].id == id :: steering[i].agent != b {
      OfDropOther(steering, id, b);
    }
    if Of(steering, b) != [] && Of(steering, b)[0].id == id {
      OfDropHead(steering, id, b);
    }
  }

  lemma {:induction false} NoneDropped(steering: seq<SteeringRow>, id: nat, b: Id)
    requires Of(steering, b) == []
    ensures Of(DropId(steering, id), b) == []
  {
    if steering != [] {
      var n := |steering| - 1;
      NoneDropped(steering[..n], id, b);
      OfSnoc(DropId(steering[..n], id), steering[n], b);
      assert DropId(steering[..n], id) + [] == DropId(steering[..n], id);
    }
  }

  lemma {:induction false} OldestIsHead(steering: seq<SteeringRow>, a: Id, r: Id, g: nat)
    requires AllKeyed(steering, a, r, g)
    ensures Oldest(steering, a, r, g) == if Of(steering, a) == [] then None else Some(Of(steering, a)[0])
  {
    if steering != [] {
      OfCons(steering, a);
      if !KeyedTo(steering[0], a, r, g) {
        OldestIsHead(steering[1..], a, r, g);
      }
    }
  }

  lemma {:induction false} OfCons(steering: seq<SteeringRow>, a: Id)
    requires steering != []
    ensures Of(steering, a) == (if steering[0].agent == a then [steering[0]] else []) + Of(steering[1..], a)
  {
    var n := |steering| - 1;
    if n == 0 {
      assert steering[..n] == [] && steering[1..] == [];
    } else {
      OfCons(steering[..n], a);
      assert steering[..n][1..] == steering[1..][..n - 1];
    }
  }

  lemma QueueKeyed(db: Db, a: Id)
    requires Queue(db.steering, db.agents) && a in db.agents
    ensures AllKeyed(db.steering, a, db.agents[a].activeRun, db.agents[a].generation) && Ascending(db.steering)
  {
  }

  // --- the ledger ------------------------------------------------------------

  /** What has been enqueued for an agent and acknowledged to it since its queue was
      last discarded. */
  datatype Ledger = Ledger(enqueued: seq<Text>, acknowledged: seq<Text>)

  predicate Discards(c: Change, a: Id) { (c.BeginCancel? || c.CancelInactive? || c.Remove?) && c.a == a }

  /** The messages for an agent that are stored under an id. */
  function Under(steering: seq<SteeringRow>, a: Id, id: nat): seq<Text> {
    if steering == [] then []
    else
      var m := steering[|steering| - 1];
      Under(steering[..|steering| - 1], a, id) + if m.agent == a && m.id == id then [m.message] else []
  }

  function Record(db: Db, a: Id, c: Change, book: Ledger): Ledger {
    if Discards(c, a) then Ledger([], [])
    else if c.Enqueue? && c.a == a then book.(enqueued := book.enqueued + [c.message])
    else if c.Dequeue? then book.(acknowledged := book.acknowledged + Under(db.steering, a, c.id))
    else book
  }

  ghost function RecordAll(db: Db, a: Id, cs: seq<Change>, book: Ledger): Ledger {
    if cs == [] then book
    else
      var first := cs[..|cs| - 1];
      Record(ApplyAll(db, first), a, cs[|cs| - 1], RecordAll(db, a, first, book))
  }

  ghost function Books(db: Db, a: Id, history: seq<Event>): Ledger {
    if history == [] then Ledger(Pending(db, a), [])
    else
      var first, last := history[..|history| - 1], history[|history| - 1];
      var mid := After(db, first);
      RecordAll(mid, a, Transaction(mid, last.env, last.req).Log(), Books(db, a, first))
  }

  ghost predicate Balanced(db: Db, a: Id, book: Ledger) {
    book.enqueued == book.acknowledged + Pending(db, a)
  }

  /** A deletion takes the oldest message of the agent, or none of its messages. */
  ghost predicate InOrder(db: Db, a: Id, c: Change) {
    c.Dequeue? ==>
      || (forall i | 0 <= i < |db.steering| && db.steering[i].id == c.id :: db.steering[i].agent != a)
      || (Of(db.steering, a) != [] && Of(db.steering, a)[0].id == c.id)
  }

  lemma {:induction false} UnderNone(steering: seq<SteeringRow>, a: Id, id: nat)
    requires forall i | 0 <= i < |steering| && steering[i].id == id :: steering[i].agent != a
    ensures Under(steering, a, id) == []
  {
    if steering != [] {
      UnderNone(steering[..|steering| - 1], a, id);
    }
  }

  lemma {:induction false} UnderHead(steering: seq<SteeringRow>, a: Id, id: nat)
    requires Ascending(steering) && Of(steering, a) != [] && Of(steering, a)[0].id == id
    ensures Under(steering, a, id) == [Of(steering, a)[0].message]
  {
    var n := |steering| - 1;
    var front := steering[..n];
    if Of(front, a) != [] {
      assert Of(steering, a)[0] == Of(front, a)[0];
      UnderHead(front, a, id);
      OfMembers(front, a, 0);
    } else {
      assert Of(steering, a)[0] == steering[n];
      assert forall i | 0 <= i < n :: front[i].id < steering[n].id;
      UnderNone(front, a, id);
    }
  }

  /** A deletion in order moves the oldest message from the queue to the ledger. */
  lemma DropMoves(steering: seq<SteeringRow>, a: Id, id: nat)
    requires Ascending(steering)
    requires || (forall i | 0 <= i < |steering| && steering[i].id == id :: steering[i].agent != a)
             || (Of(steering, a) != [] && Of(steering, a)[0].id == id)
    ensures Bodies(Of(steering, a)) == Under(steering, a, id) + Bodies(Of(DropId(steering, id), a))
  {
    OfDropId(steering, id, a);
    var rows := Of(steering, a);
    if rows != [] && rows[0].id == id {
      UnderHead(steering, a, id);
      assert Bodies(rows) == [rows[0].message] + Bodies(rows[1..]);
    } else {
      UnderNone(steering, a, id);
      assert Under(steering, a, id) + Bodies(rows) == Bodies(rows);
    }
  }

  lemma DequeueBalances(db: Db, a: Id, c: Change, book: Ledger)
    requires Ascending(db.steering) && c.Dequeue? && InOrder(db, a, c) && Balanced(db, a, book)
    ensures var book' := Record(db, a, c, book);
            book'.enqueued == book'.acknowledged + Bodies(Of(DropId(db.steering, c.id), a))
  {
    DropMoves(db.steering, a, c.id);
  }

  lemma DiscardBalances(db: Db, a: Id, c: Change, book: Ledger)
    requires Inv(db) && Legal(db, c) && Discards(c, a)
    ensures Of(NewSteering(db, c), a) == []
  {
    AgentFact(db.agents, db.runs, a);
    QueueKeyed(db, a);
    if c.Remove? {
      OfDropAgent(db.steering, a, a);
    } else {
      OfDropRun(db.steering, a, db.agents[a].activeRun, db.agents[a].generation, a);
    }
  }

  lemma OtherDiscard(db: Db, a: Id, c: Change)
    requires Inv(db) && Legal(db, c) && (c.BeginCancel? || c.CancelInactive? || c.Remove?) && c.a != a
    ensures Of(NewSteering(db, c), a) == Of(db.steering, a)
  {
    AgentFact(db.agents, db.runs, c.a);
    QueueKeyed(db, c.a);
    if c.Remove? {
      OfDropAgent(db.steering, c.a, a);
    } else {
      OfDropRun(db.steering, c.a, db.agents[c.a].activeRun, db.agents[c.a].generation, a);
    }
  }

  lemma EnqueueBalances(db: Db, a: Id, c: Change, book: Ledger)
    requires Legal(db, c) && c.Enqueue? && Balanced(db, a, book)
    ensures Bodies(Of(NewSteering(db, c), a)) == if c.a == a then Pending(db, a) + [c.message] else Pending(db, a)
  {
    var m := NewSteering(db, c)[|db.steering|];
    OfSnoc(db.steering, m, a);
  }

  /** Every change keeps the ledger balanced, as long as deletions are in order. */
  lemma ChangeBalances(db: Db, a: Id, c: Change, book: Ledger)
    requires Inv(db) && Legal(db, c) && InOrder(db, a, c) && Balanced(db, a, book)
    ensures Balanced(Apply(db, c), a, Record(db, a, c, book))
  {
    SteeringAfter(db, c);
    if c.Dequeue? {
      DequeueBalances(db, a, c, book);
    } else {
      OtherChangeBalances(db, a, c, book);
    }
  }

  lemma OtherChangeBalances(db: Db, a: Id, c: Change, book: Ledger)
    requires Inv(db) && Legal(db, c) && !c.Dequeue? && Balanced(db, a, book)
    ensures var book' := Record(db, a, c, book);
            book'.enqueued == book'.acknowledged + Bodies(Of(NewSteering(db, c), a))
  {
    if Discards(c, a) {
      DiscardBalances(db, a, c, book);
    } else if c.BeginCancel? || c.CancelInactive? || c.Remove? {
      OtherDiscard(db, a, c);
    } else if c.Enqueue? {
      EnqueueBalances(db, a, c, book);
    } else if c.Reclaim? {
      OfRekey(db.steering, c.a, c.r, db.agents[c.a].generation + 1, a);
    }
  }

  lemma SteeringAfter(db: Db, c: Change)
    requires Applies(db, c)
    ensures Apply(db, c).steering == NewSteering(db, c)
  {
  }

  lemma {:induction false} ChangesBalance(db: Db, a: Id, cs: seq<Change>, book: Ledger)
    requires Inv(db) && LegalAll(db, cs) && Balanced(db, a, book)
    requires forall i | 0 <= i < |cs| :: !cs[i].Dequeue?
    ensures Balanced(ApplyAll(db, cs), a, RecordAll(db, a, cs, book))
  {
    if cs != [] {
      var first := cs[..|cs| - 1];
      ChangesBalance(db, a, first, book);
      ChangesKeepInv(db, first);
      ChangeBalances(ApplyAll(db, first), a, cs[|cs| - 1], RecordAll(db, a, first, book));
    }
  }

  /** A log that ends in the one deletion it makes. */
  lemma LastDeletionBalances(db: Db, a: Id, cs: seq<Change>, c: Change, book: Ledger)
    requires Inv(db) && LegalAll(db, cs) && Balanced(db, a, book)
    requires forall i | 0 <= i < |cs| :: !cs[i].Dequeue?
    requires c.Dequeue? && InOrder(ApplyAll(db, cs), a, c)
    ensures Balanced(ApplyAll(db, cs + [c]), a, RecordAll(db, a, cs + [c], book))
  {
    ChangesBalance(db, a, cs, book);
    ChangesKeepInv(db, cs);
    ChangeBalances(ApplyAll(db, cs), a, c, RecordAll(db, a, cs, book));
    assert (cs + [c])[..|cs|] == cs;
  }
}

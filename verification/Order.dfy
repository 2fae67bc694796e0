/** ORDER BY id: byte-wise order of texts, and the ascending listing of a set. */
module Order {
  import opened Texts

  predicate Leq(s: Text, t: Text) {
    s == [] || (t != [] && (s[0] < t[0] || (s[0] == t[0] && Leq(s[1..], t[1..]))))
  }

  lemma {:induction false} LeqTotal(s: Text, t: Text)
    ensures Leq(s, t) || Leq(t, s)
    ensures Leq(s, t) && Leq(t, s) ==> s == t
  {
    if s != [] && t != [] {
      LeqTotal(s[1..], t[1..]);
      assert s == [s[0]] + s[1..] && t == [t[0]] + t[1..];
    }
  }

  lemma {:induction false} LeqTransitive(s: Text, t: Text, u: Text)
    requires Leq(s, t) && Leq(t, u)
    ensures Leq(s, u)
  {
    if s != [] && s[0] == t[0] == u[0] {
      LeqTransitive(s[1..], t[1..], u[1..]);
    }
  }

  predicate IsLeast(m: Text, ts: set<Text>) {
    m in ts && forall t | t in ts :: Leq(m, t)
  }

  lemma LeastExists(ts: set<Text>)
    requires ts != {}
    ensures exists m :: IsLeast(m, ts)
    decreases |ts|
  {
    var x :| x in ts;
    var rest := ts - {x};
    LeqTotal(x, x);
    if rest == {} {
      assert ts == {x};
      assert IsLeast(x, ts);
    } else {
      LeastExists(rest);
      var m :| IsLeast(m, rest);
      LeqTotal(x, m);
      if Leq(m, x) {
        assert IsLeast(m, ts);
      } else {
        forall t | t in ts
          ensures Leq(x, t)
        {
          if t != x {
            LeqTransitive(x, m, t);
          }
        }
        assert IsLeast(x, ts);
      }
    }
  }

  ghost function Sorted(ts: set<Text>): (s: seq<Text>)
    ensures |s| == |ts|
    ensures forall t :: t in s <==> t in ts
    ensures forall i, j | 0 <= i < j < |s| :: s[i] != s[j] && Leq(s[i], s[j])
  {
    if ts == {} then []
    else
      LeastExists(ts);
      var m :| IsLeast(m, ts);
      [m] + Sorted(ts - {m})
  }

  /** The listing is determined by the set, whichever way its members are found. */
  lemma SortedNext(ts: set<Text>, m: Text)
    requires IsLeast(m, ts)
    ensures Sorted(ts) == [m] + Sorted(ts - {m})
  {
    var s := Sorted(ts);
    assert m in s;
    var i :| 0 <= i < |s| && s[i] == m;
    assert s[0] in s;
    if i > 0 {
      LeqTotal(s[0], m);
    }
  }
}

/** The orders in which a hash map may yield its keys. */
module Enumerations {

  function SetOf<K>(s: seq<K>): set<K> {
    set k | k in s
  }

  lemma PrefixGrows<K>(s: seq<K>, i: nat)
    requires i < |s|
    ensures s[..i + 1] == s[..i] + [s[i]]
  {
  }

  /** Dropping the first and the last commute. */
  lemma InitOfRest<K>(s: seq<K>)
    requires |s| > 1
    ensures var n := |s| - 1;
      s[..n][1..] == s[1..][..n - 1] && s[1..][n - 1] == s[n] && s[..n][0] == s[0] && |s[1..]| == n
  {
  }

  lemma InitThenLast<K>(s: seq<K>)
    requires s != []
    ensures s[..|s| - 1] + [s[|s| - 1]] == s
  {
  }

  lemma CountConcat<K>(a: seq<K>, b: seq<K>, v: K)
    ensures multiset(a + b)[v] == multiset(a)[v] + multiset(b)[v]
  {
  }

  lemma FirstThenRest<K>(s: seq<K>)
    requires s != []
    ensures [s[0]] + s[1..] == s
  {
  }

  lemma WholePrefix<K>(s: seq<K>)
    ensures s[..|s|] == s
  {
  }

  lemma SetOfPrefix<K>(s: seq<K>, i: nat)
    requires i < |s|
    ensures SetOf(s[..i + 1]) == SetOf(s[..i]) + {s[i]}
  {
    assert s[..i + 1] == s[..i] + [s[i]];
  }

  lemma {:induction false} SetOfSize<K>(s: seq<K>)
    ensures |SetOf(s)| <= |s|
    ensures |SetOf(s)| == |s| <==> forall i, j :: 0 <= i < j < |s| ==> s[i] != s[j]
  {
    if s != [] {
      var n := |s| - 1;
      SetOfSize(s[..n]);
      assert s == s[..n] + [s[n]];
      SetOfPrefix(s, n);
      assert s[..n + 1] == s;
      if s[n] in s[..n] {
        var i :| 0 <= i < n && s[i] == s[n];
        assert SetOf(s) == SetOf(s[..n]);
      }
    }
  }

  /** `order` visits each of `keys` once. */
  ghost predicate Visits<K(!new)>(order: seq<K>, keys: set<K>) {
    && (forall k :: k in order <==> k in keys)
    && forall i, j :: 0 <= i < j < |order| ==> order[i] != order[j]
  }

  lemma {:induction false} VisitLength<K(!new)>(order: seq<K>, keys: set<K>)
    requires Visits(order, keys)
    ensures |order| == |keys|
  {
    if order == [] {
      assert forall k :: k !in keys;
    } else {
      var n := |order| - 1;
      assert order == order[..n] + [order[n]];
      VisitLength(order[..n], keys - {order[n]});
    }
  }

  lemma VisitsOneMore<K(!new)>(order: seq<K>, keys: set<K>, key: K)
    requires Visits(order, keys) && key !in keys
    ensures Visits(order + [key], keys + {key})
  {
  }

  lemma VisitWithFirst<K(!new)>(keys: set<K>, first: K) returns (order: seq<K>)
    requires first in keys
    ensures Visits(order, keys) && order != [] && order[0] == first
    decreases |keys|
  {
    if keys == {first} {
      order := [first];
    } else {
      assert keys == {first} + (keys - {first});
      var other :| other in keys - {first};
      order := VisitWithFirst(keys - {other}, first);
      order := order + [other];
    }
  }

  function Reversed<K>(s: seq<K>): (r: seq<K>)
    ensures |r| == |s| && forall i :: 0 <= i < |s| ==> r[i] == s[|s| - 1 - i]
  {
    seq(|s|, i requires 0 <= i < |s| => s[|s| - 1 - i])
  }

  lemma VisitWithLast<K(!new)>(keys: set<K>, last: K) returns (order: seq<K>)
    requires last in keys
    ensures Visits(order, keys) && order != [] && order[|order| - 1] == last
  {
    var forward := VisitWithFirst(keys, last);
    order := Reversed(forward);
    forall k
      ensures k in order <==> k in keys
    {
      if k in keys {
        var i :| 0 <= i < |forward| && forward[i] == k;
        assert order[|order| - 1 - i] == k;
      }
    }
  }
}

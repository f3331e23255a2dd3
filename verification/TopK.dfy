/** Newest-first pages: what a limited query returns, and why merging per-tier pages and
    cutting the result is a page of the union. */
module TopK {
  import opened Events
  import opened MachineInts
  import opened Enumerations

  predicate NewestFirst(rows: seq<LlmEvent>) {
    forall i, j :: 0 <= i < j < |rows| ==> rows[i].tsNs >= rows[j].tsNs
  }

  /** `rows` is a page of the `limit` newest rows of `pool`: as many as there are, newest first,
      and no row left out is strictly newer than one returned. Ties may fall either way. */
  ghost predicate IsPage(rows: seq<LlmEvent>, pool: multiset<LlmEvent>, limit: nat) {
    && |rows| == Min(limit, |pool|)
    && NewestFirst(rows)
    && multiset(rows) <= pool
    && forall x, y :: x in pool - multiset(rows) && y in rows ==> x.tsNs <= y.tsNs
  }

  lemma NewestFirstConcat(a: seq<LlmEvent>, b: seq<LlmEvent>)
    requires NewestFirst(a) && NewestFirst(b)
    requires forall x, y :: x in a && y in b ==> x.tsNs >= y.tsNs
    ensures NewestFirst(a + b)
  {
  }

  // ── Sorting ────────────────────────────────────────────

  function Insert(e: LlmEvent, rows: seq<LlmEvent>): seq<LlmEvent> {
    if rows == [] || e.tsNs >= rows[0].tsNs then [e] + rows else [rows[0]] + Insert(e, rows[1..])
  }

  /** `sort_by(|a, b| b.0.cmp(&a.0))`: a stable sort, newest first. */
  function SortNewestFirst(rows: seq<LlmEvent>): seq<LlmEvent> {
    if rows == [] then [] else Insert(rows[0], SortNewestFirst(rows[1..]))
  }

  lemma {:induction false} InsertCount(e: LlmEvent, rows: seq<LlmEvent>)
    ensures multiset(Insert(e, rows)) == multiset(rows) + multiset{e}
  {
    if rows != [] {
      InsertCount(e, rows[1..]);
      FirstThenRest(rows);
    }
  }

  lemma InsertMembers(e: LlmEvent, rows: seq<LlmEvent>, y: LlmEvent)
    requires y in Insert(e, rows)
    ensures y == e || y in rows
  {
  }

  lemma PrependSorts(e: LlmEvent, rows: seq<LlmEvent>)
    requires NewestFirst(rows) && forall y :: y in rows ==> e.tsNs >= y.tsNs
    ensures NewestFirst([e] + rows)
  {
  }

  lemma {:induction false} InsertStaysSorted(e: LlmEvent, rows: seq<LlmEvent>)
    requires NewestFirst(rows)
    ensures NewestFirst(Insert(e, rows))
  {
    if rows != [] && e.tsNs < rows[0].tsNs {
      InsertStaysSorted(e, rows[1..]);
      forall y | y in Insert(e, rows[1..])
        ensures rows[0].tsNs >= y.tsNs
      {
        InsertMembers(e, rows[1..], y);
      }
      PrependSorts(rows[0], Insert(e, rows[1..]));
    } else {
      PrependSorts(e, rows);
    }
  }

  lemma InsertSorts(e: LlmEvent, rows: seq<LlmEvent>)
    requires NewestFirst(rows)
    ensures NewestFirst(Insert(e, rows)) && multiset(Insert(e, rows)) == multiset(rows) + multiset{e}
  {
    InsertCount(e, rows);
    InsertStaysSorted(e, rows);
  }

  lemma {:induction false} SortSorts(rows: seq<LlmEvent>)
    ensures NewestFirst(SortNewestFirst(rows)) && multiset(SortNewestFirst(rows)) == multiset(rows)
  {
    if rows != [] {
      SortSorts(rows[1..]);
      InsertSorts(rows[0], SortNewestFirst(rows[1..]));
      assert rows == [rows[0]] + rows[1..];
    }
  }

  // ── Multiset bookkeeping ─────────────────────────────────────────────

  lemma SubMultisetSize(a: multiset<LlmEvent>, b: multiset<LlmEvent>)
    requires a <= b
    ensures |a| <= |b| && (|a| == |b| ==> a == b) && |b - a| == |b| - |a|
  {
    assert b == a + (b - a);
  }

  /** A page of `limit + 1` rows, cut to `limit`, is a page of `limit` rows. */
  lemma CutLeavesOlder(rows: seq<LlmEvent>, n: nat, pool: multiset<LlmEvent>, x: LlmEvent, y: LlmEvent)
    requires NewestFirst(rows) && n <= |rows| && multiset(rows) <= pool
    requires x in pool - multiset(rows[..n]) && y in rows[..n]
    requires x in pool - multiset(rows) ==> x.tsNs <= y.tsNs
    ensures x.tsNs <= y.tsNs
  {
    assert rows == rows[..n] + rows[n..];
    assert x in pool - multiset(rows) || x in multiset(rows[n..]);
  }

  lemma ShorterPage(rows: seq<LlmEvent>, pool: multiset<LlmEvent>, limit: nat)
    requires IsPage(rows, pool, limit + 1)
    ensures IsPage(rows[..Min(limit, |rows|)], pool, limit)
  {
    var n := Min(limit, |rows|);
    var page := rows[..n];
    CutIsPart(rows, n, pool);
    forall x, y | x in pool - multiset(page) && y in page
      ensures x.tsNs <= y.tsNs
    {
      assert y in rows;
      CutLeavesOlder(rows, n, pool, x, y);
    }
  }

  // ── Merging pages ────────────────────────────────────────────────────

  /** `rows` hold `limit` rows at least as new as `x`. */
  ghost predicate Outranked(x: LlmEvent, rows: multiset<LlmEvent>, limit: nat) {
    exists w :: w <= rows && |w| == limit && forall y :: y in w ==> y.tsNs >= x.tsNs
  }

  /** `rows` are enough of `pool` to find its `limit` newest: whatever is missing is outranked. */
  ghost predicate Suffices(rows: multiset<LlmEvent>, pool: multiset<LlmEvent>, limit: nat) {
    rows <= pool && forall x :: x in pool - rows ==> Outranked(x, rows, limit)
  }

  lemma PageSuffices(rows: seq<LlmEvent>, pool: multiset<LlmEvent>, limit: nat)
    requires IsPage(rows, pool, limit)
    ensures Suffices(multiset(rows), pool, limit)
  {
    forall x | x in pool - multiset(rows)
      ensures Outranked(x, multiset(rows), limit)
    {
      SubMultisetSize(multiset(rows), pool);
      assert |rows| == limit;
    }
  }

  /** Whatever suffices for two pools separately suffices, together, for both. */
  lemma SufficesUnion(a: multiset<LlmEvent>, b: multiset<LlmEvent>, poolA: multiset<LlmEvent>,
                      poolB: multiset<LlmEvent>, limit: nat)
    requires Suffices(a, poolA, limit) && Suffices(b, poolB, limit)
    ensures Suffices(a + b, poolA + poolB, limit)
  {
    forall x | x in (poolA + poolB) - (a + b)
      ensures Outranked(x, a + b, limit)
    {
      if x in poolA - a {
        var w :| w <= a && |w| == limit && forall y :: y in w ==> y.tsNs >= x.tsNs;
        assert w <= a + b;
      } else {
        assert x in poolB - b;
        var w :| w <= b && |w| == limit && forall y :: y in w ==> y.tsNs >= x.tsNs;
        assert w <= a + b;
      }
    }
  }

  /** Sorting sufficient rows and cutting at `limit` gives a page of the whole pool. */
  lemma CutSize(rows: seq<LlmEvent>, pool: multiset<LlmEvent>, limit: nat)
    requires Suffices(multiset(rows), pool, limit)
    ensures Min(limit, |rows|) == Min(limit, |pool|)
  {
    SubMultisetSize(multiset(rows), pool);
    if multiset(rows) != pool {
      var x :| x in pool - multiset(rows);
      var w :| w <= multiset(rows) && |w| == limit && forall y :: y in w ==> y.tsNs >= x.tsNs;
      SubMultisetSize(w, multiset(rows));
    }
  }

  lemma CutIsPart(rows: seq<LlmEvent>, n: nat, pool: multiset<LlmEvent>)
    requires NewestFirst(rows) && multiset(rows) <= pool && n <= |rows|
    ensures NewestFirst(rows[..n]) && multiset(rows[..n]) <= pool
  {
    assert rows == rows[..n] + rows[n..];
  }

  lemma CutOutranks(rows: seq<LlmEvent>, pool: multiset<LlmEvent>, limit: nat, x: LlmEvent, y: LlmEvent)
    requires NewestFirst(rows) && Suffices(multiset(rows), pool, limit)
    requires x in pool - multiset(rows[..Min(limit, |rows|)]) && y in rows[..Min(limit, |rows|)]
    ensures x.tsNs <= y.tsNs
  {
    var n := Min(limit, |rows|);
    if x in pool - multiset(rows) {
      var w :| w <= multiset(rows) && |w| == limit && forall v :: v in w ==> v.tsNs >= x.tsNs;
      SubMultisetSize(w, multiset(rows));
      OutrankedIsOlder(rows, n, x, y);
    }
    CutLeavesOlder(rows, n, pool, x, y);
  }

  lemma CutIsPage(rows: seq<LlmEvent>, pool: multiset<LlmEvent>, limit: nat)
    requires NewestFirst(rows) && Suffices(multiset(rows), pool, limit)
    ensures IsPage(rows[..Min(limit, |rows|)], pool, limit)
  {
    var page := rows[..Min(limit, |rows|)];
    CutIsPart(rows, Min(limit, |rows|), pool);
    CutSize(rows, pool, limit);
    forall x, y | x in pool - multiset(page) && y in page
      ensures x.tsNs <= y.tsNs
    {
      CutOutranks(rows, pool, limit, x, y);
    }
  }

  lemma TailIsOlder(rows: seq<LlmEvent>, j: nat, v: LlmEvent)
    requires NewestFirst(rows) && j < |rows| && v in rows[j..]
    ensures v.tsNs <= rows[j].tsNs
  {
    var i :| 0 <= i < |rows[j..]| && rows[j..][i] == v;
    assert v == rows[j + i];
  }

  lemma HeadIsNewer(rows: seq<LlmEvent>, j: nat, v: LlmEvent)
    requires NewestFirst(rows) && j < |rows| && v in rows[..j + 1]
    ensures v.tsNs >= rows[j].tsNs
  {
  }

  lemma OutrankedIsOlder(rows: seq<LlmEvent>, n: nat, x: LlmEvent, y: LlmEvent)
    requires NewestFirst(rows) && n <= |rows| && Outranked(x, multiset(rows), n) && y in rows[..n]
    ensures x.tsNs <= y.tsNs
  {
    var j :| 0 <= j < n && rows[j] == y;
    var w :| w <= multiset(rows) && |w| == n && forall v :: v in w ==> v.tsNs >= x.tsNs;
    if x.tsNs > y.tsNs {
      var head, tail := rows[..j], rows[j..];
      forall v | v in w
        ensures v !in tail
      {
        if v in tail { TailIsOlder(rows, j, v); }
      }
      CutInTwo(rows, j);
      AvoidsTail(w, head, tail);
    }
  }

  lemma CutInTwo(rows: seq<LlmEvent>, j: nat)
    requires j <= |rows|
    ensures rows[..j] + rows[j..] == rows
  {
  }

  lemma AvoidsTail(w: multiset<LlmEvent>, head: seq<LlmEvent>, tail: seq<LlmEvent>)
    requires w <= multiset(head + tail) && forall v :: v in w ==> v !in tail
    ensures |w| <= |head|
  {
    forall v | v in w
      ensures w[v] <= multiset(head)[v]
    {
      assert multiset(head + tail)[v] == multiset(head)[v] + multiset(tail)[v];
    }
    SubMultisetSize(w, multiset(head));
  }
}

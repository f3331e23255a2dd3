/** When the number an erasure reports is right, for rows with distinct timestamps: something a
    caller can read off the user's rows before the call (crates/keplor-server/src/routes.rs). */
module ErasureCount {
  import opened MachineInts
  import opened Enumerations
  import opened Events
  import opened Engines
  import opened TopK
  import opened Paging
  import opened Routes

  /** Newest first, some row after a page boundary has the id of a row of the page before it. */
  predicate TwinsAcrossPages(rows: seq<LlmEvent>, batch: nat)
    requires batch > 0
  {
    && |rows| > batch
    && ((exists i :: batch <= i < |rows| && rows[i].id in IdSet(rows[..batch]))
        || TwinsAcrossPages(rows[batch..], batch))
  }

  // ── With distinct timestamps order and pages are determined ──────────

  /** No two rows share a timestamp. */
  predicate DistinctStamps(rows: seq<LlmEvent>) {
    forall i, j :: 0 <= i < j < |rows| ==> rows[i].tsNs != rows[j].tsNs
  }

  lemma SortedIsUnique(a: seq<LlmEvent>, b: seq<LlmEvent>)
    requires NewestFirst(a) && NewestFirst(b) && multiset(a) == multiset(b) && DistinctStamps(a)
    ensures a == b
  {
    assert |multiset(a)| == |a| && |multiset(b)| == |b|;
    StampsUnique(a, b);
    forall i | 0 <= i < |a|
      ensures a[i] == b[i]
    {
      assert Stamps(a)[i] == a[i].tsNs && Stamps(b)[i] == b[i].tsNs;
      assert b[i] in multiset(a);
      var k :| 0 <= k < |a| && a[k] == b[i];
    }
  }

  lemma CountOnce(rows: seq<LlmEvent>, k: nat)
    requires DistinctStamps(rows) && k < |rows|
    ensures multiset(rows)[rows[k]] == 1
  {
    assert rows == rows[..k] + [rows[k]] + rows[k + 1..];
    assert rows[k] !in rows[..k] && rows[k] !in rows[k + 1..];
  }

  lemma CountTwice(rows: seq<LlmEvent>, i: nat, j: nat)
    requires i < j < |rows| && rows[i] == rows[j]
    ensures multiset(rows)[rows[i]] >= 2
  {
    assert rows == rows[..j] + rows[j..];
    assert rows[i] in rows[..j] && rows[j] == rows[j..][0] && rows[i] in rows[j..];
    assert rows[i] in multiset(rows[..j]) && rows[i] in multiset(rows[j..]);
  }

  lemma StampsStayDistinct(a: seq<LlmEvent>, b: seq<LlmEvent>)
    requires DistinctStamps(a) && multiset(a) == multiset(b)
    ensures DistinctStamps(b)
  {
    forall i, j | 0 <= i < j < |b|
      ensures b[i].tsNs != b[j].tsNs
    {
      assert b[i] in multiset(a) && b[j] in multiset(a);
      var k :| 0 <= k < |a| && a[k] == b[i];
      var l :| 0 <= l < |a| && a[l] == b[j];
      CountOnce(a, k);
      if k == l { CountTwice(b, i, j); }
    }
  }

  lemma SuffixStamps(rows: seq<LlmEvent>, n: nat)
    requires n <= |rows| && NewestFirst(rows) && DistinctStamps(rows)
    ensures NewestFirst(rows[n..]) && DistinctStamps(rows[n..])
  {
  }

  /** A page and the rest behind it, newest first, are all the rows newest first. */
  lemma PageThenRest(mine: seq<LlmEvent>, page: seq<LlmEvent>) returns (tail: seq<LlmEvent>)
    requires NewestFirst(page) && multiset(page) <= multiset(mine)
    requires forall x, y :: x in multiset(mine) - multiset(page) && y in page ==> x.tsNs <= y.tsNs
    ensures NewestFirst(page + tail) && multiset(page + tail) == multiset(mine)
  {
    var rest := multiset(mine) - multiset(page);
    var others := SeqOf(rest);
    tail := SortNewestFirst(others);
    SortSorts(others);
    forall x, y | x in page && y in tail
      ensures x.tsNs >= y.tsNs
    {
      assert y in multiset(tail);
    }
    NewestFirstConcat(page, tail);
    assert multiset(page) + rest == multiset(mine);
  }

  /** The only page of such rows is the front of their newest-first order. */
  lemma PageIsNewest(mine: seq<LlmEvent>, page: seq<LlmEvent>, batch: nat)
    requires DistinctStamps(mine) && IsPage(page, multiset(mine), batch)
    ensures var sorted := SortNewestFirst(mine);
      |page| == Min(batch, |mine|) <= |sorted| == |mine| && page == sorted[..|page|]
  {
    assert |multiset(mine)| == |mine|;
    var tail := PageThenRest(mine, page);
    FrontOfSorted(mine, page, tail);
  }

  lemma FrontOfSorted(mine: seq<LlmEvent>, page: seq<LlmEvent>, tail: seq<LlmEvent>)
    requires DistinctStamps(mine) && NewestFirst(page + tail) && multiset(page + tail) == multiset(mine)
    ensures var sorted := SortNewestFirst(mine); |page| <= |sorted| == |mine| && page == sorted[..|page|]
  {
    var sorted := SortNewestFirst(mine);
    SortSorts(mine);
    StampsStayDistinct(mine, sorted);
    SortedIsUnique(sorted, page + tail);
    assert |multiset(mine)| == |mine| && |multiset(sorted)| == |sorted|;
  }

  lemma LeftoverIsTail(mine: seq<LlmEvent>, page: seq<LlmEvent>)
    requires var sorted := SortNewestFirst(mine); |page| <= |sorted| && page == sorted[..|page|]
    ensures multiset(mine) - multiset(page) == multiset(SortNewestFirst(mine)[|page|..])
  {
    var sorted := SortNewestFirst(mine);
    SortSorts(mine);
    assert sorted == sorted[..|page|] + sorted[|page|..];
  }

  lemma SplitsIffTwin(mine: seq<LlmEvent>, page: seq<LlmEvent>)
    requires var sorted := SortNewestFirst(mine); |page| <= |sorted| && page == sorted[..|page|]
    ensures var sorted := SortNewestFirst(mine);
      SplitsTwins(mine, page) <==> exists i :: |page| <= i < |sorted| && sorted[i].id in IdSet(page)
  {
    LeftoverIsTail(mine, page);
    TwinInTail(SortNewestFirst(mine), |page|, IdSet(page));
  }

  lemma TwinInTail(rows: seq<LlmEvent>, n: nat, ids: set<EventId>)
    requires n <= |rows|
    ensures (exists x :: x in multiset(rows[n..]) && x.id in ids) <==>
      (exists i :: n <= i < |rows| && rows[i].id in ids)
  {
    var tail := rows[n..];
    if x: LlmEvent :| x in multiset(tail) && x.id in ids {
      var k :| 0 <= k < |tail| && tail[k] == x;
      assert rows[n + k] == x;
    }
    if i :| n <= i < |rows| && rows[i].id in ids {
      assert tail[i - n] == rows[i] && rows[i] in multiset(tail);
    }
  }

  /** Without twins the rows left sort to the tail. */
  lemma TailIsLeft(mine: seq<LlmEvent>, page: seq<LlmEvent>, left: seq<LlmEvent>)
    requires DistinctStamps(mine) && multiset(left) == multiset(mine) - multiset(page)
    requires var sorted := SortNewestFirst(mine); |page| <= |sorted| && page == sorted[..|page|]
    ensures SortNewestFirst(left) == SortNewestFirst(mine)[|page|..] && DistinctStamps(left)
  {
    var sorted := SortNewestFirst(mine);
    SortSorts(mine);
    SortSorts(left);
    StampsStayDistinct(mine, sorted);
    SuffixStamps(sorted, |page|);
    LeftoverIsTail(mine, page);
    SortedIsUnique(sorted[|page|..], SortNewestFirst(left));
    StampsStayDistinct(sorted[|page|..], left);
  }

  // ── Pages from the first one on ──────────────────────────────────────

  function AfterPage(mine: seq<LlmEvent>, page: seq<LlmEvent>): seq<LlmEvent> {
    Select(mine, NotIn(IdSet(page)))
  }

  lemma LeftOfOne(mine: seq<LlmEvent>, pages: seq<seq<LlmEvent>>)
    requires |pages| == 1
    ensures Left(mine, pages) == AfterPage(mine, pages[0])
  {
    assert pages[..0] == [];
  }

  lemma {:induction false} LeftFromFirst(mine: seq<LlmEvent>, pages: seq<seq<LlmEvent>>)
    requires pages != []
    ensures Left(mine, pages) == Left(AfterPage(mine, pages[0]), pages[1..])
  {
    if |pages| == 1 {
      LeftOfOne(mine, pages);
    } else {
      LeftFromFirst(mine, pages[..|pages| - 1]);
      InitOfRest(pages);
    }
  }

  lemma AllAlongOne(holds: (seq<LlmEvent>, seq<LlmEvent>) -> bool, mine: seq<LlmEvent>, pages: seq<seq<LlmEvent>>)
    requires |pages| == 1
    ensures AllAlong(holds, mine, pages) <==> holds(mine, pages[0])
  {
    assert pages[..0] == [];
  }

  /** One more page at the end. */
  lemma AllAlongMore(holds: (seq<LlmEvent>, seq<LlmEvent>) -> bool, mine: seq<LlmEvent>, init: seq<seq<LlmEvent>>,
                     pages: seq<seq<LlmEvent>>)
    requires pages != [] && init == pages[..|pages| - 1]
    ensures AllAlong(holds, mine, pages) <==> AllAlong(holds, mine, init) && holds(Left(mine, init), pages[|pages| - 1])
  {
  }

  lemma {:induction false} FromFirst(holds: (seq<LlmEvent>, seq<LlmEvent>) -> bool, mine: seq<LlmEvent>,
                                     pages: seq<seq<LlmEvent>>)
    requires pages != []
    ensures AllAlong(holds, mine, pages) <==>
      holds(mine, pages[0]) && AllAlong(holds, AfterPage(mine, pages[0]), pages[1..])
  {
    if |pages| == 1 {
      AllAlongOne(holds, mine, pages);
    } else {
      var init := pages[..|pages| - 1];
      InitOfRest(pages);
      FromFirst(holds, mine, init);
      LeftFromFirst(mine, init);
      AllAlongMore(holds, mine, init, pages);
      AllAlongMore(holds, AfterPage(mine, pages[0]), init[1..], pages[1..]);
    }
  }

  lemma TwinsOneMorePage(rows: seq<LlmEvent>, batch: nat, n: nat)
    requires batch > 0 && n == Min(batch, |rows|)
    requires !exists i :: n <= i < |rows| && rows[i].id in IdSet(rows[..n])
    ensures TwinsAcrossPages(rows, batch) <==> TwinsAcrossPages(rows[n..], batch)
  {
  }

  lemma {:induction false} SomeSplitIffTwins(mine: seq<LlmEvent>, pages: seq<seq<LlmEvent>>, batch: nat)
    requires batch > 0 && DistinctStamps(mine) && ArePages(mine, pages, batch) && Left(mine, pages) == []
    ensures SomeSplit(mine, pages) <==> TwinsAcrossPages(SortNewestFirst(mine), batch)
    decreases |pages|
  {
    if pages != [] {
      var page, sorted := pages[0], SortNewestFirst(mine);
      var left := AfterPage(mine, page);
      FromFirst(PageOf(batch), mine, pages);
      FromFirst(Whole(), mine, pages);
      LeftFromFirst(mine, pages);
      PageIsNewest(mine, page, batch);
      SplitsIffTwin(mine, page);
      if !SplitsTwins(mine, page) {
        PageTakesItself(mine, page);
        TailIsLeft(mine, page, left);
        SomeSplitIffTwins(left, pages[1..], batch);
        TwinsOneMorePage(sorted, batch, |page|);
      }
    }
  }

  /** With distinct timestamps the number an erasure reports is the number of the user's rows
      visible at the start, if and only if, newest first, no row has the id of a row on an earlier
      page. */
  lemma ErasureCountIsExactIffNoTwins(start: seq<LlmEvent>, now: seq<LlmEvent>, user: string, batch: nat,
                                      pages: seq<seq<LlmEvent>>)
    requires batch > 0 && Erased(start, now, user, batch, pages) && DistinctStamps(Select(start, OfUser(user)))
    ensures var mine := Select(start, OfUser(user));
      Reported(pages) == |mine| <==> !TwinsAcrossPages(SortNewestFirst(mine), batch)
  {
    ErasureCountIsExactIff(start, now, user, batch, pages);
    SomeSplitIffTwins(Select(start, OfUser(user)), pages, batch);
  }
}

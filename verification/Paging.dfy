/** Cursor paging: what a sequence of strictly-older pages covers. */
module Paging {
  import opened Wrappers
  import opened Events
  import opened MachineInts
  import opened Engines
  import opened Enumerations
  import opened TopK

  predicate IsOlder(e: LlmEvent, cursor: Option<i64>) {
    cursor.None? || e.tsNs < cursor.value
  }

  function Older(rows: seq<LlmEvent>, cursor: Option<i64>): seq<LlmEvent> {
    Select(rows, (e: LlmEvent) => IsOlder(e, cursor))
  }

  function Stamps(rows: seq<LlmEvent>): seq<i64> {
    seq(|rows|, i requires 0 <= i < |rows| => rows[i].tsNs)
  }

  /** Some page boundary falls inside a run of equal timestamps. Something a caller can check
      on the newest-first timestamps of the matching rows. */
  predicate TiesAcrossPages(stamps: seq<i64>, page: nat)
    requires page > 0
  {
    |stamps| > page && (stamps[page - 1] == stamps[page] || TiesAcrossPages(stamps[page..], page))
  }

  lemma OlderThanNone(rows: seq<LlmEvent>)
    ensures Older(rows, None) == rows && |multiset(rows)| == |rows|
  {
    SelectAll(rows, (e: LlmEvent) => IsOlder(e, None));
  }

  /** More rows of one timestamp than fit a page always tie. */
  lemma OneStampTies(rows: seq<LlmEvent>, page: nat)
    requires page > 0 && |rows| > page && forall i, j :: 0 <= i < j < |rows| ==> rows[i].tsNs == rows[j].tsNs
    ensures TiesAcrossPages(Stamps(SortNewestFirst(rows)), page)
  {
    var sorted := SortNewestFirst(rows);
    SortSorts(rows);
    assert |multiset(sorted)| == |sorted| && |multiset(rows)| == |rows|;
    assert sorted[page - 1] in multiset(rows) && sorted[page] in multiset(rows);
    assert sorted[page - 1] in rows && sorted[page] in rows;
  }

  /** What an export of such rows emits, given what it promises of any export: one page of them,
      and the rest is lost. */
  lemma OneStampExportsOnePage(rows: seq<LlmEvent>, page: nat, out: seq<LlmEvent>)
    requires page > 0 && |rows| == page + 1 && forall i, j :: 0 <= i < j < |rows| ==> rows[i].tsNs == rows[j].tsNs
    requires multiset(out) <= multiset(rows) && |out| >= Min(page, |rows|)
    requires multiset(out) == multiset(rows) <==> !TiesAcrossPages(Stamps(SortNewestFirst(rows)), page)
    ensures |out| == page && |multiset(rows) - multiset(out)| == 1
  {
    OneStampTies(rows, page);
    assert |multiset(rows)| == |rows| && |multiset(out)| == |out|;
    assert multiset(rows) == multiset(out) + (multiset(rows) - multiset(out));
  }

  /** Distinct timestamps never tie, so nothing is lost on them. */
  lemma {:induction false} DistinctStampsNeverTie(stamps: seq<i64>, page: nat)
    requires page > 0 && forall i, j :: 0 <= i < j < |stamps| ==> stamps[i] != stamps[j]
    ensures !TiesAcrossPages(stamps, page)
  {
    if |stamps| > page { DistinctStampsNeverTie(stamps[page..], page); }
  }

  /** What the export loop knows: `out` is sorted and ends where the cursor says; what is neither
      emitted nor still ahead shares its timestamp with a cut; and ties tell whether anything
      was lost. */
  ghost predicate ExportState(all: seq<LlmEvent>, out: seq<LlmEvent>, cursor: Option<i64>, cuts: set<i64>, page: nat)
    requires page > 0
  {
    var ahead := Older(all, cursor);
    && NewestFirst(out)
    && (forall y :: y in out ==> !IsOlder(y, cursor))
    && multiset(out) + multiset(ahead) <= multiset(all)
    && (forall x :: x in multiset(all) - multiset(out) - multiset(ahead) ==> x.tsNs in cuts)
    && (forall t :: t in cuts ==> exists y :: y in out && y.tsNs == t)
    && (TiesAcrossPages(Stamps(SortNewestFirst(all)), page) <==>
          multiset(out) + multiset(ahead) != multiset(all) || TiesAcrossPages(Stamps(SortNewestFirst(ahead)), page))
  }

  // ── Sorting is stable ────────────────────────────────────────────────

  function AtTime(ts: int): LlmEvent -> bool {
    (e: LlmEvent) => e.tsNs == ts
  }

  lemma SelectPrepend(e: LlmEvent, rows: seq<LlmEvent>, keep: LlmEvent -> bool)
    ensures Select([e] + rows, keep) == (if keep(e) then [e] else []) + Select(rows, keep)
  {
    SelectConcat([e], rows, keep);
    SelectOne(e, keep);
  }

  lemma SelectOne(e: LlmEvent, keep: LlmEvent -> bool)
    ensures Select([e], keep) == if keep(e) then [e] else []
  {
    assert [e][..0] == [];
  }

  lemma {:induction false} InsertIsStable(e: LlmEvent, rows: seq<LlmEvent>, ts: int)
    requires NewestFirst(rows)
    ensures Select(Insert(e, rows), AtTime(ts)) == Select([e] + rows, AtTime(ts))
  {
    if rows != [] && e.tsNs < rows[0].tsNs {
      InsertIsStable(e, rows[1..], ts);
      SelectPrepend(rows[0], Insert(e, rows[1..]), AtTime(ts));
      SelectPrepend(rows[0], [e] + rows[1..], AtTime(ts));
      SwapApart(rows[0], e, rows[1..], ts);
      FirstThenRest(rows);
    }
  }

  /** Rows of different timestamps may change places. */
  lemma SwapApart(e: LlmEvent, f: LlmEvent, rows: seq<LlmEvent>, ts: int)
    requires e.tsNs != f.tsNs
    ensures Select([e] + ([f] + rows), AtTime(ts)) == Select([f] + ([e] + rows), AtTime(ts))
  {
    SelectPrepend(e, [f] + rows, AtTime(ts));
    SelectPrepend(f, rows, AtTime(ts));
    SelectPrepend(f, [e] + rows, AtTime(ts));
    SelectPrepend(e, rows, AtTime(ts));
  }

  /** Rows of one timestamp keep their order. */
  lemma {:induction false} SortIsStable(rows: seq<LlmEvent>, ts: int)
    ensures Select(SortNewestFirst(rows), AtTime(ts)) == Select(rows, AtTime(ts))
  {
    if rows != [] {
      SortIsStable(rows[1..], ts);
      SortSorts(rows[1..]);
      InsertIsStable(rows[0], SortNewestFirst(rows[1..]), ts);
      SelectPrepend(rows[0], SortNewestFirst(rows[1..]), AtTime(ts));
      SelectPrepend(rows[0], rows[1..], AtTime(ts));
      FirstThenRest(rows);
    }
  }

  // ── Sorted timestamps are unique ─────────────────────────────────────

  lemma StampNotNewer(a: seq<LlmEvent>, b: seq<LlmEvent>, i: nat)
    requires NewestFirst(a) && NewestFirst(b) && multiset(a) == multiset(b) && i < |a| && i < |b|
    ensures a[i].tsNs <= b[i].tsNs
  {
    if a[i].tsNs > b[i].tsNs {
      var front := a[..i + 1];
      forall v | v in multiset(front)
        ensures v !in b[i..]
      {
        HeadIsNewer(a, i, v);
        if v in b[i..] { TailIsOlder(b, i, v); }
      }
      CutInTwo(a, i + 1);
      CutInTwo(b, i);
      assert multiset(front) <= multiset(front + a[i + 1..]);
      AvoidsTail(multiset(front), b[..i], b[i..]);
    }
  }

  lemma StampsUnique(a: seq<LlmEvent>, b: seq<LlmEvent>)
    requires NewestFirst(a) && NewestFirst(b) && multiset(a) == multiset(b)
    ensures Stamps(a) == Stamps(b)
  {
    assert |a| == |multiset(a)| == |multiset(b)| == |b|;
    forall i | 0 <= i < |a|
      ensures a[i].tsNs == b[i].tsNs
    {
      StampNotNewer(a, b, i);
      StampNotNewer(b, a, i);
    }
  }

  ghost function SeqOf(m: multiset<LlmEvent>): (s: seq<LlmEvent>)
    ensures multiset(s) == m
    decreases |m|
  {
    if |m| == 0 then [] else
      var x :| x in m;
      [x] + SeqOf(m - multiset{x})
  }

  // ── One page ─────────────────────────────────────────────────────────

  lemma OlderCount(rows: seq<LlmEvent>, cursor: Option<i64>)
    ensures forall v :: multiset(Older(rows, cursor))[v] == if IsOlder(v, cursor) then multiset(rows)[v] else 0
  {
    forall v ensures multiset(Older(rows, cursor))[v] == if IsOlder(v, cursor) then multiset(rows)[v] else 0 {
      SelectCount(rows, (e: LlmEvent) => IsOlder(e, cursor), v);
    }
  }

  lemma PageAndOlderFit(ahead: seq<LlmEvent>, rows: seq<LlmEvent>, last: i64)
    requires NewestFirst(rows) && multiset(rows) <= multiset(ahead) && rows != [] && last == rows[|rows| - 1].tsNs
    ensures multiset(rows) + multiset(Older(ahead, Some(last))) <= multiset(ahead)
  {
    OlderCount(ahead, Some(last));
    forall v
      ensures multiset(rows)[v] + multiset(Older(ahead, Some(last)))[v] <= multiset(ahead)[v]
    {
      if v in rows { assert v.tsNs >= last; }
    }
  }

  /** After a page, what is strictly older is still ahead; what is lost shares the last row's
      timestamp. */
  lemma PageCovers(ahead: seq<LlmEvent>, rows: seq<LlmEvent>, page: nat, last: i64)
    requires IsPage(rows, multiset(ahead), page) && rows != [] && last == rows[|rows| - 1].tsNs
    ensures var left := Older(ahead, Some(last));
      && multiset(rows) + multiset(left) <= multiset(ahead)
      && (forall x :: x in multiset(ahead) - multiset(rows) - multiset(left) ==> x.tsNs == last)
      && |left| < |ahead|
  {
    var left := Older(ahead, Some(last));
    OlderCount(ahead, Some(last));
    PageAndOlderFit(ahead, rows, last);
    forall x | x in multiset(ahead) - multiset(rows) - multiset(left)
      ensures x.tsNs == last
    {
      assert x in multiset(ahead) - multiset(rows) && rows[|rows| - 1] in rows;
    }
    SubMultisetSize(multiset(rows) + multiset(left), multiset(ahead));
    assert |multiset(rows) + multiset(left)| == |rows| + |left|;
  }

  /** A page loses something exactly when the timestamps tie across its end. */
  lemma PageTies(ahead: seq<LlmEvent>, rows: seq<LlmEvent>, page: nat, last: i64)
    requires page > 0 && IsPage(rows, multiset(ahead), page) && rows != [] && last == rows[|rows| - 1].tsNs
    ensures var left := Older(ahead, Some(last));
      TiesAcrossPages(Stamps(SortNewestFirst(ahead)), page) <==>
        multiset(rows) + multiset(left) != multiset(ahead) || TiesAcrossPages(Stamps(SortNewestFirst(left)), page)
  {
    var rest := SplitOff(ahead, rows, page);
    PageTiesWithRest(ahead, rows, rest, page, last);
  }

  lemma SplitOff(ahead: seq<LlmEvent>, rows: seq<LlmEvent>, page: nat) returns (rest: seq<LlmEvent>)
    requires IsPage(rows, multiset(ahead), page) && rows != []
    ensures Split(ahead, rows, rest, page)
  {
    var remainder := multiset(ahead) - multiset(rows);
    var others := SeqOf(remainder);
    rest := SortNewestFirst(others);
    SortSorts(others);
    RestIsOlder(rows, rest, remainder);
    SubMultisetSize(multiset(rows), multiset(ahead));
    assert |multiset(ahead)| == |ahead| && |multiset(rows)| == |rows| && |multiset(rest)| == |rest|;
  }

  lemma RestIsOlder(rows: seq<LlmEvent>, rest: seq<LlmEvent>, remainder: multiset<LlmEvent>)
    requires multiset(rest) == remainder && forall x, y :: x in remainder && y in rows ==> x.tsNs <= y.tsNs
    ensures forall x, y :: x in rest && y in rows ==> x.tsNs <= y.tsNs
  {
    forall x, y | x in rest && y in rows
      ensures x.tsNs <= y.tsNs
    {
      assert x in multiset(rest);
    }
  }

  /** The page and, behind it, the sorted rest: together the sorted rows. */
  ghost predicate Split(ahead: seq<LlmEvent>, rows: seq<LlmEvent>, rest: seq<LlmEvent>, page: nat) {
    && rows != [] && |rows| == Min(page, |ahead|) && |ahead| == |rows| + |rest|
    && NewestFirst(rows) && NewestFirst(rest) && multiset(ahead) == multiset(rows) + multiset(rest)
    && (forall x, y :: x in rest && y in rows ==> x.tsNs <= y.tsNs)
  }

  lemma SplitStamps(ahead: seq<LlmEvent>, rows: seq<LlmEvent>, rest: seq<LlmEvent>, page: nat)
    requires Split(ahead, rows, rest, page)
    ensures Stamps(SortNewestFirst(ahead)) == Stamps(rows + rest)
  {
    SortSorts(ahead);
    NewestFirstConcat(rows, rest);
    assert multiset(rows + rest) == multiset(rows) + multiset(rest);
    StampsUnique(SortNewestFirst(ahead), rows + rest);
  }

  lemma StampsConcat(a: seq<LlmEvent>, b: seq<LlmEvent>)
    ensures Stamps(a + b) == Stamps(a) + Stamps(b)
  {
  }

  lemma TiesOfRows(all: seq<i64>, rows: seq<LlmEvent>, rest: seq<LlmEvent>, page: nat)
    requires page > 0 && all == Stamps(rows) + Stamps(rest)
    requires rows != [] && |rows| <= page && (rest != [] ==> |rows| == page)
    ensures TiesAcrossPages(all, page) <==>
      rest != [] && (rest[0].tsNs == rows[|rows| - 1].tsNs || TiesAcrossPages(Stamps(rest), page))
  {
    TiesOfConcat(all, Stamps(rows), Stamps(rest), page);
  }

  lemma TiesOfSplit(ahead: seq<LlmEvent>, rows: seq<LlmEvent>, rest: seq<LlmEvent>, page: nat)
    requires page > 0 && Split(ahead, rows, rest, page)
    ensures TiesAcrossPages(Stamps(SortNewestFirst(ahead)), page) <==>
      rest != [] && (rest[0].tsNs == rows[|rows| - 1].tsNs || TiesAcrossPages(Stamps(rest), page))
  {
    SplitStamps(ahead, rows, rest, page);
    StampsConcat(rows, rest);
    TiesOfRows(Stamps(SortNewestFirst(ahead)), rows, rest, page);
  }

  lemma PageTiesWithRest(ahead: seq<LlmEvent>, rows: seq<LlmEvent>, rest: seq<LlmEvent>, page: nat, last: i64)
    requires page > 0 && Split(ahead, rows, rest, page) && last == rows[|rows| - 1].tsNs
    ensures var left := Older(ahead, Some(last));
      TiesAcrossPages(Stamps(SortNewestFirst(ahead)), page) <==>
        multiset(rows) + multiset(left) != multiset(ahead) || TiesAcrossPages(Stamps(SortNewestFirst(left)), page)
  {
    TiesOfSplit(ahead, rows, rest, page);
    if rest != [] && rest[0].tsNs == last {
      TiedCutLoses(ahead, rows, rest, last);
    } else {
      CleanCutLosesNothing(ahead, rows, rest, page, last);
    }
  }

  lemma TiesOfConcat(all: seq<i64>, first: seq<i64>, more: seq<i64>, page: nat)
    requires page > 0 && all == first + more && first != [] && |first| <= page && (more != [] ==> |first| == page)
    ensures TiesAcrossPages(all, page) <==>
      more != [] && (first[page - 1] == more[0] || TiesAcrossPages(more, page))
  {
  }

  lemma CleanCutLosesNothing(ahead: seq<LlmEvent>, rows: seq<LlmEvent>, rest: seq<LlmEvent>, page: nat, last: i64)
    requires Split(ahead, rows, rest, page) && last == rows[|rows| - 1].tsNs
    requires rest == [] || rest[0].tsNs != last
    ensures var left := Older(ahead, Some(last));
      multiset(rows) + multiset(left) == multiset(ahead) && Stamps(SortNewestFirst(left)) == Stamps(rest)
  {
    if rest != [] { assert rest[0] in rest && rows[|rows| - 1] in rows; }
    assert forall x :: x in rest ==> x.tsNs < last;
    assert forall y :: y in rows ==> y.tsNs >= last;
    NothingLost(ahead, rows, last, rest);
    var left := Older(ahead, Some(last));
    SortSorts(left);
    StampsUnique(SortNewestFirst(left), rest);
  }

  lemma TiedCutLoses(ahead: seq<LlmEvent>, rows: seq<LlmEvent>, rest: seq<LlmEvent>, last: i64)
    requires multiset(ahead) == multiset(rows) + multiset(rest) && rest != [] && rest[0].tsNs == last
    ensures multiset(rows) + multiset(Older(ahead, Some(last))) != multiset(ahead)
  {
    var left := Older(ahead, Some(last));
    OlderCount(ahead, Some(last));
    assert multiset(left)[rest[0]] == 0 && multiset(rest)[rest[0]] > 0;
    assert (multiset(rows) + multiset(left))[rest[0]] < multiset(ahead)[rest[0]];
  }

  lemma NothingLost(ahead: seq<LlmEvent>, rows: seq<LlmEvent>, last: i64, rest: seq<LlmEvent>)
    requires multiset(ahead) == multiset(rows) + multiset(rest)
    requires forall y :: y in rows ==> y.tsNs >= last
    requires forall x :: x in rest ==> x.tsNs < last
    ensures multiset(Older(ahead, Some(last))) == multiset(rest)
  {
    OlderCount(ahead, Some(last));
    forall v
      ensures multiset(Older(ahead, Some(last)))[v] == multiset(rest)[v]
    {
      assert v !in rows ==> multiset(rows)[v] == 0;
      assert v !in rest ==> multiset(rest)[v] == 0;
    }
  }

  // ── The loop ─────────────────────────────────────────────────────────

  lemma ExportStarts(all: seq<LlmEvent>, page: nat)
    requires page > 0
    ensures ExportState(all, [], None, {}, page)
  {
    SelectAll(all, (e: LlmEvent) => IsOlder(e, None));
  }

  lemma ExportEnds(all: seq<LlmEvent>, out: seq<LlmEvent>, cursor: Option<i64>, cuts: set<i64>, page: nat)
    requires page > 0 && ExportState(all, out, cursor, cuts, page)
    requires IsPage([], multiset(Older(all, cursor)), page)
    ensures multiset(out) <= multiset(all)
    ensures forall x :: x in multiset(all) - multiset(out) ==> x.tsNs in cuts
    ensures multiset(out) == multiset(all) <==> !TiesAcrossPages(Stamps(SortNewestFirst(all)), page)
  {
    NothingAhead(Older(all, cursor), page);
    assert multiset(out) + multiset(Older(all, cursor)) == multiset(out);
  }

  /** An empty page of at least one row means that nothing is ahead. */
  lemma NothingAhead(ahead: seq<LlmEvent>, page: nat)
    requires page > 0 && IsPage([], multiset(ahead), page)
    ensures ahead == [] && multiset(ahead) == multiset{} && !TiesAcrossPages(Stamps(SortNewestFirst(ahead)), page)
  {
    assert |multiset(ahead)| == |ahead|;
    assert ahead == [];
  }

  lemma ExportAdvances(all: seq<LlmEvent>, out: seq<LlmEvent>, cursor: Option<i64>, cuts: set<i64>, page: nat,
                       rows: seq<LlmEvent>)
    requires page > 0 && ExportState(all, out, cursor, cuts, page)
    requires IsPage(rows, multiset(Older(all, cursor)), page) && rows != []
    ensures var last := rows[|rows| - 1].tsNs;
      ExportState(all, out + rows, Some(last), cuts + {last}, page) && |Older(all, Some(last))| < |Older(all, cursor)|
  {
    var last := rows[|rows| - 1].tsNs;
    var ahead := Older(all, cursor);
    RowsAreAhead(all, cursor, rows, last);
    var left := Older(all, Some(last));
    PageCovers(ahead, rows, page, last);
    PageTies(ahead, rows, page, last);
    OutGrows(out, cursor, cuts, rows, last);
    assert multiset(out + rows) == multiset(out) + multiset(rows);
    ExportBalance(multiset(all), multiset(out), multiset(ahead), multiset(rows), multiset(left), cuts, last);
  }

  lemma RowsAreAhead(all: seq<LlmEvent>, cursor: Option<i64>, rows: seq<LlmEvent>, last: i64)
    requires multiset(rows) <= multiset(Older(all, cursor)) && rows != [] && last == rows[|rows| - 1].tsNs
    ensures forall y :: y in rows ==> IsOlder(y, cursor)
    ensures Older(Older(all, cursor), Some(last)) == Older(all, Some(last))
  {
    OlderCount(all, cursor);
    forall y | y in rows
      ensures IsOlder(y, cursor)
    {
      assert y in multiset(rows);
    }
    assert rows[|rows| - 1] in rows;
    var older := (e: LlmEvent) => IsOlder(e, Some(last));
    SelectTwice(all, (e: LlmEvent) => IsOlder(e, cursor), older, older);
  }

  lemma OutGrows(out: seq<LlmEvent>, cursor: Option<i64>, cuts: set<i64>, rows: seq<LlmEvent>, last: i64)
    requires NewestFirst(out) && NewestFirst(rows) && rows != [] && last == rows[|rows| - 1].tsNs
    requires forall y :: y in out ==> !IsOlder(y, cursor)
    requires forall y :: y in rows ==> IsOlder(y, cursor)
    requires forall t :: t in cuts ==> exists y :: y in out && y.tsNs == t
    ensures NewestFirst(out + rows)
    ensures forall y :: y in out + rows ==> !IsOlder(y, Some(last))
    ensures forall t :: t in cuts + {last} ==> exists y :: y in out + rows && y.tsNs == t
  {
    assert forall y :: y in rows ==> y.tsNs >= last;
    NewestFirstConcat(out, rows);
    forall t | t in cuts + {last}
      ensures exists y :: y in out + rows && y.tsNs == t
    {
      if t == last {
        assert rows[|rows| - 1] in out + rows;
      } else {
        var y :| y in out && y.tsNs == t;
        assert y in out + rows;
      }
    }
  }

  /** Nothing moves from lost back to covered, and what one page loses is lost overall. */
  lemma ExportBalance(all: multiset<LlmEvent>, out: multiset<LlmEvent>, ahead: multiset<LlmEvent>,
                      rows: multiset<LlmEvent>,
                      left: multiset<LlmEvent>, cuts: set<i64>, last: i64)
    requires out + ahead <= all && rows + left <= ahead
    requires forall x :: x in all - out - ahead ==> x.tsNs in cuts
    requires forall x :: x in ahead - rows - left ==> x.tsNs == last
    ensures out + rows + left <= all
    ensures forall x :: x in all - (out + rows) - left ==> x.tsNs in cuts + {last}
    ensures out + rows + left == all <==> out + ahead == all && rows + left == ahead
  {
    forall x | x in all - (out + rows) - left
      ensures x.tsNs in cuts + {last}
    {
      assert x in all - out - ahead || x in ahead - rows - left;
    }
    if out + rows + left == all {
      forall v
        ensures (out + ahead)[v] == all[v] && (rows + left)[v] == ahead[v]
      {
        assert (out + rows + left)[v] == all[v];
      }
      assert out + ahead == all && rows + left == ahead;
    }
  }
}

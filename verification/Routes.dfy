/** The read and erase handlers of the HTTP API that loop or page over the store
    (crates/keplor-server/src/routes.rs). */
module Routes {
  import opened Wrappers
  import opened MachineInts
  import opened Events
  import opened Engines
  import opened TopK
  import opened Paging
  import opened Store
  import opened Enumerations

  /** `GET /v1/events`: ask for one row more than the page, to learn whether there is more. */
  method QueryEvents(store: KdbStore, keep: LlmEvent -> bool, requested: Option<u32>, cursor: Option<i64>,
                     order: seq<Tier>)
      returns (page: seq<LlmEvent>, next: Option<i64>, hasMore: bool)
    requires Visits(order, store.engines.Keys)
    ensures var limit := Min(requested.UnwrapOr(50), 1000);
      var pool := Older(Select(VisibleRows(store.engines, order), keep), cursor);
      && IsPage(page, multiset(pool), limit)
      && (hasMore <==> |pool| > limit)
      && next == if hasMore && limit > 0 then Some(page[limit - 1].tsNs) else None
  {
    var limit := Min(requested.UnwrapOr(50), 1000);
    var rows := store.Query(keep, limit + 1, cursor, order);
    page, next, hasMore := CutPage(rows, limit, Older(Select(VisibleRows(store.engines, order), keep), cursor));
  }

  /** Drop the extra row, and point the next page at the last one kept. */
  method CutPage(rows: seq<LlmEvent>, limit: nat, ghost pool: seq<LlmEvent>)
    returns (page: seq<LlmEvent>, next: Option<i64>, hasMore: bool)
    requires IsPage(rows, multiset(pool), limit + 1)
    ensures IsPage(page, multiset(pool), limit)
    ensures hasMore <==> |pool| > limit
    ensures next == if hasMore && limit > 0 then Some(page[limit - 1].tsNs) else None
  {
    PageAndOneMore(rows, pool, limit);
    hasMore := |rows| > limit;
    page := rows[..Min(limit, |rows|)];
    var last := if page == [] then None else Some(page[|page| - 1].tsNs);
    next := if hasMore then last else None;
  }

  lemma PageAndOneMore(rows: seq<LlmEvent>, pool: seq<LlmEvent>, limit: nat)
    requires IsPage(rows, multiset(pool), limit + 1)
    ensures IsPage(rows[..Min(limit, |rows|)], multiset(pool), limit)
    ensures |rows| > limit <==> |pool| > limit
    ensures |rows| <= limit + 1
  {
    ShorterPage(rows, multiset(pool), limit);
    assert |multiset(pool)| == |pool|;
  }

  // ── Right to erasure ─────────────────────────────────────────────────

  predicate DistinctIds(rows: seq<LlmEvent>) {
    forall i, j :: 0 <= i < j < |rows| ==> rows[i].id != rows[j].id
  }

  function OfUser(user: string): LlmEvent -> bool {
    (e: LlmEvent) => e.userId == Some(user)
  }

  function IdSet(rows: seq<LlmEvent>): set<EventId> {
    set e | e in rows :: e.id
  }

  function IdList(rows: seq<LlmEvent>): seq<EventId> {
    seq(|rows|, i requires 0 <= i < |rows| => rows[i].id)
  }

  lemma IdListSet(rows: seq<LlmEvent>)
    ensures (set id | id in IdList(rows)) == IdSet(rows)
  {
    forall e | e in rows
      ensures e.id in IdList(rows)
    {
      var i :| 0 <= i < |rows| && rows[i] == e;
      assert IdList(rows)[i] == e.id;
    }
  }

  // ── How many rows a delete hides ─────────────────────────────────────

  lemma {:induction false} HiddenCount(rows: seq<LlmEvent>, ids: set<EventId>)
    requires DistinctIds(rows)
    ensures |Select(rows, NotIn(ids))| + |ids * IdSet(rows)| == |rows|
  {
    if rows == [] {
      assert ids * IdSet(rows) == {};
    } else {
      var n := |rows| - 1;
      HiddenCount(rows[..n], ids);
      IdSetLast(rows);
      OneMoreShared(ids, IdSet(rows[..n]), rows[n].id);
    }
  }

  lemma OneMoreShared(a: set<EventId>, b: set<EventId>, id: EventId)
    requires id !in b
    ensures |a * (b + {id})| == |a * b| + (if id in a then 1 else 0)
  {
    if id in a {
      assert a * (b + {id}) == a * b + {id};
    } else {
      assert a * (b + {id}) == a * b;
    }
  }

  lemma IdSetLast(rows: seq<LlmEvent>)
    requires DistinctIds(rows) && rows != []
    ensures var n := |rows| - 1; IdSet(rows) == IdSet(rows[..n]) + {rows[n].id} && rows[n].id !in IdSet(rows[..n])
  {
    var n := |rows| - 1;
    assert rows == rows[..n] + [rows[n]];
  }

  /** `delete_events_by_ids` reports the number of ids it was given. With distinct ids among the
      visible rows, that is the number of rows it hides if and only if the ids given are pairwise
      distinct and each is visible. */
  lemma DeletedCountIsExactIff(rows: seq<LlmEvent>, ids: seq<EventId>)
    requires DistinctIds(rows)
    ensures |ids| == |rows| - |Select(rows, NotIn(SetOf(ids)))| <==>
      (forall i, j :: 0 <= i < j < |ids| ==> ids[i] != ids[j]) && forall i :: 0 <= i < |ids| ==> ids[i] in IdSet(rows)
  {
    var given, shown := SetOf(ids), IdSet(rows);
    HiddenCount(rows, given);
    SetOfSize(ids);
    if given <= shown {
      assert given * shown == given;
      assert forall i :: 0 <= i < |ids| ==> ids[i] in given;
    } else {
      assert given == given * shown + (given - shown);
      var id :| id in given - shown;
      assert |given - shown| > 0;
      var i :| 0 <= i < |ids| && ids[i] == id;
    }
  }

  /** It fails on an unknown id, which is counted and hides nothing, and on an id given twice. */
  lemma DeletedCountMayBeTooHigh(e: LlmEvent, unknown: EventId)
    requires unknown != e.id
    ensures |[e]| - |Select([e], NotIn(SetOf([unknown])))| == 0 && |[unknown]| == 1
    ensures |[e]| - |Select([e], NotIn(SetOf([e.id, e.id])))| == 1 && |[e.id, e.id]| == 2
  {
    assert [e][..0] == [];
  }

  // ── The erasure loop ─────────────────────────────────────────────────

  lemma SwapFilters(rows: seq<LlmEvent>, p: LlmEvent -> bool, q: LlmEvent -> bool)
    ensures Select(Select(rows, p), q) == Select(Select(rows, q), p)
  {
    var both := (e: LlmEvent) => p(e) && q(e);
    SelectTwice(rows, p, q, both);
    SelectTwice(rows, q, p, both);
  }

  lemma SplitByIds(pool: seq<LlmEvent>, rows: seq<LlmEvent>)
    requires multiset(rows) <= multiset(pool)
    ensures multiset(Select(pool, NotIn(IdSet(rows)))) <= multiset(pool) - multiset(rows)
    ensures |Select(pool, NotIn(IdSet(rows)))| <= |pool| - |rows|
  {
    var left := Select(pool, NotIn(IdSet(rows)));
    forall v
      ensures multiset(left)[v] <= (multiset(pool) - multiset(rows))[v]
    {
      SelectCount(pool, NotIn(IdSet(rows)), v);
      assert v !in rows ==> multiset(rows)[v] == 0;
    }
    SubMultisetSize(multiset(rows), multiset(pool));
    SubMultisetSize(multiset(left), multiset(pool) - multiset(rows));
    assert |multiset(left)| == |left| && |multiset(rows)| == |rows| && |multiset(pool)| == |pool|;
  }

  /** What is left of the user's rows after the pages were erased one after the other. */
  function Left(mine: seq<LlmEvent>, pages: seq<seq<LlmEvent>>): seq<LlmEvent> {
    if pages == [] then mine else Select(Left(mine, pages[..|pages| - 1]), NotIn(IdSet(pages[|pages| - 1])))
  }

  function Reported(pages: seq<seq<LlmEvent>>): nat {
    if pages == [] then 0 else Reported(pages[..|pages| - 1]) + |pages[|pages| - 1]|
  }

  /** Each page stands in this relation to what was left before it. */
  ghost predicate AllAlong(holds: (seq<LlmEvent>, seq<LlmEvent>) -> bool, mine: seq<LlmEvent>,
                           pages: seq<seq<LlmEvent>>) {
    pages != [] ==>
      var n := |pages| - 1;
      AllAlong(holds, mine, pages[..n]) && holds(Left(mine, pages[..n]), pages[n])
  }

  ghost function PageOf(batch: nat): (seq<LlmEvent>, seq<LlmEvent>) -> bool {
    (left: seq<LlmEvent>, page: seq<LlmEvent>) => IsPage(page, multiset(left), batch)
  }

  /** Each page is one of what was left before it. */
  ghost predicate ArePages(mine: seq<LlmEvent>, pages: seq<seq<LlmEvent>>, batch: nat) {
    AllAlong(PageOf(batch), mine, pages)
  }

  /** A row outside the page shares an id with a row in it, so the page's tombstones hide it too. */
  ghost predicate SplitsTwins(left: seq<LlmEvent>, page: seq<LlmEvent>) {
    exists x :: x in multiset(left) - multiset(page) && x.id in IdSet(page)
  }

  /** A page takes exactly its own rows from the user's if and only if it splits no twins; it never
      takes fewer. */
  lemma PageTakesItself(left: seq<LlmEvent>, page: seq<LlmEvent>)
    requires multiset(page) <= multiset(left)
    ensures |Select(left, NotIn(IdSet(page)))| <= |left| - |page|
    ensures |Select(left, NotIn(IdSet(page)))| == |left| - |page| <==> !SplitsTwins(left, page)
    ensures !SplitsTwins(left, page) ==> multiset(Select(left, NotIn(IdSet(page)))) == multiset(left) - multiset(page)
  {
    var after := Select(left, NotIn(IdSet(page)));
    var rest := multiset(left) - multiset(page);
    SplitByIds(left, page);
    SubMultisetSize(multiset(page), multiset(left));
    assert |rest| == |left| - |page| && |multiset(after)| == |after|;
    if SplitsTwins(left, page) {
      var x :| x in rest && x.id in IdSet(page);
      SelectCount(left, NotIn(IdSet(page)), x);
      StrictlySmaller(multiset(after), rest, x);
    } else {
      TakesItself(left, page);
    }
  }

  lemma TakesItself(left: seq<LlmEvent>, page: seq<LlmEvent>)
    requires !SplitsTwins(left, page)
    ensures multiset(Select(left, NotIn(IdSet(page)))) == multiset(left) - multiset(page)
  {
    var after := Select(left, NotIn(IdSet(page)));
    var rest := multiset(left) - multiset(page);
    forall v
      ensures multiset(after)[v] == rest[v]
    {
      SelectCount(left, NotIn(IdSet(page)), v);
      assert v !in page ==> multiset(page)[v] == 0;
    }
  }

  lemma StrictlySmaller(a: multiset<LlmEvent>, b: multiset<LlmEvent>, x: LlmEvent)
    requires a <= b && a[x] < b[x]
    ensures |a| < |b|
  {
    assert b == a + (b - a);
    assert x in b - a;
  }

  lemma LeftSnoc(mine: seq<LlmEvent>, pages: seq<seq<LlmEvent>>, page: seq<LlmEvent>, batch: nat)
    requires ArePages(mine, pages, batch) && IsPage(page, multiset(Left(mine, pages)), batch)
    ensures Left(mine, pages + [page]) == Select(Left(mine, pages), NotIn(IdSet(page)))
    ensures Reported(pages + [page]) == Reported(pages) + |page|
    ensures ArePages(mine, pages + [page], batch)
  {
    assert (pages + [page])[..|pages|] == pages;
  }

  ghost function Whole(): (seq<LlmEvent>, seq<LlmEvent>) -> bool {
    (left: seq<LlmEvent>, page: seq<LlmEvent>) => !SplitsTwins(left, page)
  }

  /** Some page split twins. */
  ghost predicate SomeSplit(mine: seq<LlmEvent>, pages: seq<seq<LlmEvent>>) {
    !AllAlong(Whole(), mine, pages)
  }

  /** The pages' sizes add up to the rows they took if and only if no page split twins. */
  lemma {:induction false} ReportedIsExactIff(mine: seq<LlmEvent>, pages: seq<seq<LlmEvent>>, batch: nat)
    requires ArePages(mine, pages, batch)
    ensures Reported(pages) + |Left(mine, pages)| <= |mine|
    ensures Reported(pages) + |Left(mine, pages)| == |mine| <==> !SomeSplit(mine, pages)
  {
    if pages != [] {
      var n := |pages| - 1;
      ReportedIsExactIff(mine, pages[..n], batch);
      PageTakesItself(Left(mine, pages[..n]), pages[n]);
    }
  }

  /** Between rounds: everything with an erased id is gone and nothing else, and what the user has
      left is what the pages left. */
  ghost predicate ErasureState(start: seq<LlmEvent>, now: seq<LlmEvent>, user: string, batch: nat, gone: set<EventId>,
                               pages: seq<seq<LlmEvent>>) {
    var mine := Select(start, OfUser(user));
    && now == Select(start, NotIn(gone)) && gone <= IdSet(mine)
    && ArePages(mine, pages, batch) && Select(now, OfUser(user)) == Left(mine, pages)
  }

  lemma ErasureStarts(start: seq<LlmEvent>, user: string, batch: nat)
    ensures ErasureState(start, start, user, batch, {}, [])
  {
    SelectAll(start, NotIn({}));
  }

  lemma DeleteMore(start: seq<LlmEvent>, gone: set<EventId>, more: set<EventId>)
    ensures Select(Select(start, NotIn(gone)), NotIn(more)) == Select(start, NotIn(gone + more))
  {
    SelectTwice(start, NotIn(gone), NotIn(more), NotIn(gone + more));
  }

  lemma PageIsMine(start: seq<LlmEvent>, gone: set<EventId>, user: string, rows: seq<LlmEvent>)
    requires multiset(rows) <= multiset(Select(Select(start, NotIn(gone)), OfUser(user)))
    ensures IdSet(rows) <= IdSet(Select(start, OfUser(user)))
  {
    SwapFilters(start, NotIn(gone), OfUser(user));
    SelectMembers(Select(start, OfUser(user)), NotIn(gone));
    forall e | e in rows
      ensures e in Select(start, OfUser(user))
    {
      assert e in multiset(rows);
    }
  }

  lemma ErasureAdvances(start: seq<LlmEvent>, now: seq<LlmEvent>, user: string, batch: nat, gone: set<EventId>,
                        pages: seq<seq<LlmEvent>>, rows: seq<LlmEvent>)
    requires ErasureState(start, now, user, batch, gone, pages) && batch > 0
    requires IsPage(rows, multiset(Older(Select(now, OfUser(user)), None)), batch)
    ensures rows == [] ==> Select(now, OfUser(user)) == []
    ensures Reported(pages + [rows]) == Reported(pages) + |rows|
    ensures var after := Select(now, NotIn(IdSet(rows)));
      && ErasureState(start, after, user, batch, gone + IdSet(rows), pages + [rows])
      && |Select(after, OfUser(user))| <= |Select(now, OfUser(user))| - |rows|
      && (|rows| < batch ==> Select(after, OfUser(user)) == [])
  {
    var left := Select(now, OfUser(user));
    OlderThanNone(left);
    PageTakesItself(left, rows);
    SwapFilters(now, NotIn(IdSet(rows)), OfUser(user));
    DeleteMore(start, gone, IdSet(rows));
    PageIsMine(start, gone, user, rows);
    LeftSnoc(Select(start, OfUser(user)), pages, rows, batch);
  }

  /** How a finished erasure stands: of all rows exactly those that share an id with a row of the
      user are gone, and `pages` are what the queries returned until nothing was left. */
  ghost predicate Erased(start: seq<LlmEvent>, now: seq<LlmEvent>, user: string, batch: nat,
                         pages: seq<seq<LlmEvent>>) {
    var mine := Select(start, OfUser(user));
    now == Select(start, NotIn(IdSet(mine))) && ArePages(mine, pages, batch) && Left(mine, pages) == []
  }

  lemma ErasureEnds(start: seq<LlmEvent>, now: seq<LlmEvent>, user: string, batch: nat, gone: set<EventId>,
                    pages: seq<seq<LlmEvent>>)
    requires ErasureState(start, now, user, batch, gone, pages) && Select(now, OfUser(user)) == []
    ensures Erased(start, now, user, batch, pages)
  {
    AllGone(start, gone, user);
  }

  lemma AllGone(start: seq<LlmEvent>, gone: set<EventId>, user: string)
    requires Select(Select(start, NotIn(gone)), OfUser(user)) == [] && gone <= IdSet(Select(start, OfUser(user)))
    ensures gone == IdSet(Select(start, OfUser(user)))
  {
    SwapFilters(start, NotIn(gone), OfUser(user));
    AllIdsGone(Select(start, OfUser(user)), gone);
  }

  lemma AllIdsGone(mine: seq<LlmEvent>, gone: set<EventId>)
    requires Select(mine, NotIn(gone)) == [] && gone <= IdSet(mine)
    ensures gone == IdSet(mine)
  {
    SelectMembers(mine, NotIn(gone));
    forall id | id in IdSet(mine)
      ensures id in gone
    {
      var e :| e in mine && e.id == id;
      assert e !in Select(mine, NotIn(gone));
    }
  }

  /** What a round leaves alone, even one that fails half-way: the rows with none of the user's ids. */
  lemma OthersStay(start: seq<LlmEvent>, before: EngineMap, after: EngineMap, order: seq<Tier>, user: string,
                   batch: nat, gone: set<EventId>, pages: seq<seq<LlmEvent>>, rows: seq<LlmEvent>)
    requires forall t :: t in order ==> t in before && t in after
    requires ErasureState(start, VisibleRows(before, order), user, batch, gone, pages)
    requires IsPage(rows, multiset(Older(Select(VisibleRows(before, order), OfUser(user)), None)), batch)
    requires forall t :: t in order ==> after[t] == before[t] || after[t] == before[t].Delete(IdSet(rows))
    ensures var others := NotIn(IdSet(Select(start, OfUser(user))));
      Select(VisibleRows(after, order), others) == Select(start, others)
  {
    var ids := IdSet(Select(start, OfUser(user)));
    OlderThanNone(Select(VisibleRows(before, order), OfUser(user)));
    PageIsMine(start, gone, user, rows);
    VisibleAfterPartialDelete(before, after, order, IdSet(rows), ids);
    SelectTwice(start, NotIn(gone), NotIn(ids), NotIn(ids));
  }

  /** One round: the user's newest rows, up to a batch, and their tombstones. */
  method EraseBatch(store: KdbStore, user: string, batch: nat, order: seq<Tier>, broken: Tier -> bool)
      returns (r: Result<nat, StoreError>, rows: seq<LlmEvent>)
    requires Visits(order, store.engines.Keys)
    modifies store
    ensures store.engines.Keys == old(store.engines.Keys)
    ensures IsPage(rows, multiset(Older(Select(old(VisibleRows(store.engines, order)), OfUser(user)), None)), batch)
    ensures r.Ok? ==> r.value == |rows|
    ensures r.Ok? ==>
      VisibleRows(store.engines, order) == Select(old(VisibleRows(store.engines, order)), NotIn(IdSet(rows)))
    ensures forall t :: t in store.engines ==>
      store.engines[t] == old(store.engines)[t] || store.engines[t] == old(store.engines)[t].Delete(IdSet(rows))
    ensures (forall t :: t in order ==> !broken(t)) ==> r.Ok?
  {
    rows := store.Query(OfUser(user), batch, None, order);
    IdListSet(rows);
    if rows == [] {
      assert IdSet(rows) == {};
      SelectAll(VisibleRows(store.engines, order), NotIn(IdSet(rows)));
      return Ok(0), rows;
    }
    r := store.DeleteEventsByIds(IdList(rows), order, broken);
  }

  /** `DELETE /v1/events?user_id=`: query a batch, tombstone it, repeat until a round finds nothing
      or less than a batch. With no concurrent ingest it ends with nothing of that user visible,
      and reports the sizes of the pages; even when it fails half-way, rows with none of the user's
      ids stay as they were. */
  method EraseUser(store: KdbStore, user: string, batch: nat, order: seq<Tier>, broken: Tier -> bool)
      returns (r: Result<nat, StoreError>, ghost pages: seq<seq<LlmEvent>>)
    requires Visits(order, store.engines.Keys) && batch > 0
    modifies store
    ensures store.engines.Keys == old(store.engines.Keys)
    ensures r.Ok? ==> Select(VisibleRows(store.engines, order), OfUser(user)) == []
    ensures r.Ok? ==>
      Erased(old(VisibleRows(store.engines, order)), VisibleRows(store.engines, order), user, batch, pages)
    ensures r.Ok? ==> r.value == Reported(pages)
    ensures var others := NotIn(IdSet(Select(old(VisibleRows(store.engines, order)), OfUser(user))));
      Select(VisibleRows(store.engines, order), others) == Select(old(VisibleRows(store.engines, order)), others)
    ensures (forall t :: t in order ==> !broken(t)) ==> r.Ok?
  {
    var total := 0;
    ghost var start := VisibleRows(store.engines, order);
    ghost var gone: set<EventId> := {};
    pages := [];
    ErasureStarts(start, user, batch);
    while true
      invariant Visits(order, store.engines.Keys) && store.engines.Keys == old(store.engines.Keys)
      invariant ErasureState(start, VisibleRows(store.engines, order), user, batch, gone, pages)
      invariant total == Reported(pages)
      decreases |Select(VisibleRows(store.engines, order), OfUser(user))|
    {
      ghost var before, now := store.engines, VisibleRows(store.engines, order);
      var deleted, rows := EraseBatch(store, user, batch, order, broken);
      OthersStay(start, before, store.engines, order, user, batch, gone, pages, rows);
      if deleted.Err? {
        return Err(deleted.error), pages;
      }
      ErasureAdvances(start, now, user, batch, gone, pages, rows);
      total, gone, pages := total + deleted.value, gone + IdSet(rows), pages + [rows];
      if deleted.value == 0 || |rows| < batch {
        ErasureEnds(start, VisibleRows(store.engines, order), user, batch, gone, pages);
        return Ok(total), pages;
      }
    }
  }

  // ── What the reported number means ───────────────────────────────────

  /** The number reported is the number of the user's rows visible at the start if and only if no
      page held a row whose id another of the user's rows, left for later, also has; it is never
      more. */
  lemma ErasureCountIsExactIff(start: seq<LlmEvent>, now: seq<LlmEvent>, user: string, batch: nat,
                               pages: seq<seq<LlmEvent>>)
    requires Erased(start, now, user, batch, pages)
    ensures var mine := Select(start, OfUser(user));
      Reported(pages) <= |mine| && (Reported(pages) == |mine| <==> !SomeSplit(mine, pages))
  {
    ReportedIsExactIff(Select(start, OfUser(user)), pages, batch);
  }

  /** So it is exact whenever the user's rows have distinct ids, or all fit one page. */
  lemma ErasureCountIsExactWhen(start: seq<LlmEvent>, now: seq<LlmEvent>, user: string, batch: nat,
                                pages: seq<seq<LlmEvent>>)
    requires Erased(start, now, user, batch, pages) && batch > 0
    requires DistinctIds(Select(start, OfUser(user))) || |Select(start, OfUser(user))| <= batch
    ensures Reported(pages) == |Select(start, OfUser(user))|
  {
    NothingSplit(Select(start, OfUser(user)), pages, batch);
    ErasureCountIsExactIff(start, now, user, batch, pages);
  }

  lemma {:induction false} NothingSplit(mine: seq<LlmEvent>, pages: seq<seq<LlmEvent>>, batch: nat)
    requires ArePages(mine, pages, batch) && (DistinctIds(mine) || |mine| <= batch)
    ensures !SomeSplit(mine, pages)
  {
    if pages != [] {
      var n := |pages| - 1;
      NothingSplit(mine, pages[..n], batch);
      var left := Left(mine, pages[..n]);
      LeftIsPart(mine, pages[..n]);
      assert |multiset(left)| == |left|;
      if DistinctIds(mine) {
        NoTwins(left, pages[n]);
      } else {
        WholePage(left, pages[n]);
      }
    }
  }

  lemma {:induction false} LeftIsPart(mine: seq<LlmEvent>, pages: seq<seq<LlmEvent>>)
    ensures |Left(mine, pages)| <= |mine| && (DistinctIds(mine) ==> DistinctIds(Left(mine, pages)))
  {
    if pages != [] {
      var n := |pages| - 1;
      LeftIsPart(mine, pages[..n]);
      SelectShrinks(Left(mine, pages[..n]), NotIn(IdSet(pages[n])));
    }
  }

  lemma {:induction false} SelectShrinks(rows: seq<LlmEvent>, keep: LlmEvent -> bool)
    ensures |Select(rows, keep)| <= |rows| && (DistinctIds(rows) ==> DistinctIds(Select(rows, keep)))
  {
    if rows != [] {
      var n := |rows| - 1;
      SelectShrinks(rows[..n], keep);
      SelectMembers(rows[..n], keep);
      if DistinctIds(rows) {
        forall e | e in Select(rows[..n], keep)
          ensures e.id != rows[n].id
        {
          var i :| 0 <= i < n && rows[i] == e;
        }
      }
    }
  }

  lemma OnceIfDistinct(rows: seq<LlmEvent>, x: LlmEvent)
    requires DistinctIds(rows) && x in rows
    ensures multiset(rows)[x] == 1
    ensures forall y :: y in rows && y != x ==> y.id != x.id
  {
    var i :| 0 <= i < |rows| && rows[i] == x;
    assert rows == rows[..i] + [x] + rows[i + 1..];
  }

  lemma NoTwins(left: seq<LlmEvent>, page: seq<LlmEvent>)
    requires DistinctIds(left) && multiset(page) <= multiset(left)
    ensures !SplitsTwins(left, page)
  {
    forall x | x in multiset(left) - multiset(page)
      ensures x.id !in IdSet(page)
    {
      OnceIfDistinct(left, x);
      assert x !in multiset(page) && x !in page;
      forall y | y in page
        ensures y.id != x.id
      {
        assert y in multiset(page) && y in left;
      }
    }
  }

  lemma WholePage(left: seq<LlmEvent>, page: seq<LlmEvent>)
    requires multiset(page) <= multiset(left) && |page| == |left|
    ensures !SplitsTwins(left, page)
  {
    assert |multiset(page)| == |page| && |multiset(left)| == |left|;
    assert multiset(left) == multiset(page) + (multiset(left) - multiset(page));
    assert |multiset(left) - multiset(page)| == 0;
  }

  /** For every batch size there are rows it miscounts: a full page of newer rows, and one older
      row under an id of the page, as when one id is present in two tiers. */
  lemma SplitTwinsAreReportedOnce(page: seq<LlmEvent>, twin: LlmEvent, user: string, now: seq<LlmEvent>, batch: nat,
                                  pages: seq<seq<LlmEvent>>)
    requires batch > 0 && |page| == batch
    requires twin.userId == Some(user) && forall i :: 0 <= i < batch ==>
      page[i].userId == Some(user) && page[i].tsNs > twin.tsNs
    requires twin.id in IdSet(page)
    ensures Erased(page + [twin], now, user, batch, pages) ==>
      Reported(pages) == batch < |Select(page + [twin], OfUser(user))|
  {
    SelectAll(page + [twin], OfUser(user));
    if Erased(page + [twin], now, user, batch, pages) {
      SplitTwinsCount(page, twin, batch, pages);
    }
  }

  lemma SplitTwinsCount(page: seq<LlmEvent>, twin: LlmEvent, batch: nat, pages: seq<seq<LlmEvent>>)
    requires |page| == batch > 0 && twin.id in IdSet(page) && forall i :: 0 <= i < batch ==> page[i].tsNs > twin.tsNs
    requires ArePages(page + [twin], pages, batch) && Left(page + [twin], pages) == []
    ensures Reported(pages) == batch
  {
    var mine := page + [twin];
    assert pages != [];
    FirstPage(mine, pages, batch);
    NewestPage(page, twin, pages[0], batch);
    FirstSplit(mine, pages);
    ReportedIsExactIff(mine, pages, batch);
    ReportedAtLeast(pages);
  }

  lemma {:induction false} FirstPage(mine: seq<LlmEvent>, pages: seq<seq<LlmEvent>>, batch: nat)
    requires ArePages(mine, pages, batch) && pages != []
    ensures IsPage(pages[0], multiset(mine), batch)
  {
    if |pages| > 1 { FirstPage(mine, pages[..|pages| - 1], batch); } else { assert pages[..0] == []; }
  }

  lemma {:induction false} FirstSplit(mine: seq<LlmEvent>, pages: seq<seq<LlmEvent>>)
    requires pages != [] && SplitsTwins(mine, pages[0])
    ensures SomeSplit(mine, pages)
  {
    if |pages| > 1 { FirstSplit(mine, pages[..|pages| - 1]); } else { assert pages[..0] == []; }
  }

  lemma {:induction false} ReportedAtLeast(pages: seq<seq<LlmEvent>>)
    requires pages != []
    ensures Reported(pages) >= |pages[0]|
  {
    if |pages| > 1 { ReportedAtLeast(pages[..|pages| - 1]); }
  }

  /** The first page of such rows is the newer ones: the row left over is the older twin. */
  lemma NewestPage(page: seq<LlmEvent>, twin: LlmEvent, first: seq<LlmEvent>, batch: nat)
    requires |page| == batch > 0 && IsPage(first, multiset(page + [twin]), batch) && twin.id in IdSet(page)
    requires forall i :: 0 <= i < batch ==> page[i].tsNs > twin.tsNs
    ensures |first| == batch && SplitsTwins(page + [twin], first)
  {
    var mine := page + [twin];
    assert multiset(mine) == multiset(page) + multiset{twin} && |multiset(mine)| == |mine|;
    OneLeft(mine, first);
    LeftIsTwin(page, twin, first);
    assert multiset(first) == multiset(page);
    var e :| e in page && e.id == twin.id;
    assert e in multiset(first) && e in first;
  }

  lemma LeftIsTwin(page: seq<LlmEvent>, twin: LlmEvent, first: seq<LlmEvent>)
    requires forall i :: 0 <= i < |page| ==> page[i].tsNs > twin.tsNs
    requires multiset(first) <= multiset(page + [twin]) && |multiset(page + [twin]) - multiset(first)| == 1
    requires forall x, y :: x in multiset(page + [twin]) - multiset(first) && y in first ==> x.tsNs <= y.tsNs
    ensures multiset(page + [twin]) - multiset(first) == multiset{twin}
  {
    var mine := page + [twin];
    var rest := multiset(mine) - multiset(first);
    var x :| x in rest;
    OnlyOne(rest, x);
    assert twin == mine[|page|] && twin in multiset(mine);
    assert x in mine && (twin in first || twin in rest);
    assert forall e :: e in page ==> e.tsNs > twin.tsNs;
  }

  lemma OneLeft(mine: seq<LlmEvent>, first: seq<LlmEvent>)
    requires multiset(first) <= multiset(mine) && |mine| == |first| + 1
    ensures multiset(mine) == multiset(first) + (multiset(mine) - multiset(first))
    ensures |multiset(mine) - multiset(first)| == 1
  {
    assert multiset(mine) == multiset(first) + (multiset(mine) - multiset(first));
    assert |multiset(mine)| == |mine| && |multiset(first)| == |first|;
  }

  lemma OnlyOne(m: multiset<LlmEvent>, x: LlmEvent)
    requires |m| == 1 && x in m
    ensures m == multiset{x}
  {
    assert m == multiset{x} + (m - multiset{x});
    assert |m - multiset{x}| == 0;
  }

  /** Other users' rows are all still there if and only if none shares an id with a row of the
      erased user. */
  lemma OthersAreUntouchedIff(start: seq<LlmEvent>, now: seq<LlmEvent>, user: string, batch: nat,
                              pages: seq<seq<LlmEvent>>)
    requires Erased(start, now, user, batch, pages)
    ensures (forall e :: e in start && e.userId != Some(user) ==> e in now) <==>
      forall e, f :: e in start && f in start && e.userId != Some(user) && f.userId == Some(user) ==> e.id != f.id
  {
    var mine := Select(start, OfUser(user));
    SelectMembers(start, OfUser(user));
    SelectMembers(start, NotIn(IdSet(mine)));
  }
}

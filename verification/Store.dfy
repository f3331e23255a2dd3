/** The tiered event store (crates/keplor-store/src/kdb_store.rs). */
module Store {
  import opened Wrappers
  import opened Events
  import opened MachineInts
  import opened Engines
  import opened Faults
  import opened Enumerations
  import opened TopK
  import opened Paging

  datatype StoreError = Internal(detail: string) | OtherError(detail: string) | ChannelFull | ChannelClosed

  /** Rows collected from some tiers suffice for a page of these tiers together. */
  ghost predicate Merged(engines: EngineMap, tiers: seq<Tier>, matches: LlmEvent -> bool, limit: nat,
                         out: seq<LlmEvent>)
    requires forall t :: t in tiers ==> t in engines
  {
    Suffices(multiset(out), multiset(Select(VisibleRows(engines, tiers), matches)), limit)
  }

  lemma MergeOneMore(engines: EngineMap, tiers: seq<Tier>, tier: Tier, matches: LlmEvent -> bool, limit: nat,
                     out: seq<LlmEvent>, page: seq<LlmEvent>)
    requires (forall t :: t in tiers ==> t in engines) && tier in engines
    requires Merged(engines, tiers, matches, limit, out)
    requires IsPage(page, multiset(Select(engines[tier].Visible(), matches)), limit)
    ensures Merged(engines, tiers + [tier], matches, limit, out + page)
  {
    var before, here := VisibleRows(engines, tiers), engines[tier].Visible();
    PageSuffices(page, multiset(Select(here, matches)), limit);
    SufficesUnion(multiset(out), multiset(page),
                  multiset(Select(before, matches)), multiset(Select(here, matches)), limit);
    SelectConcat(before, here, matches);
    VisibleRowsSnoc(engines, tiers, tier);
  }

  lemma VisibleRowsSnoc(engines: EngineMap, tiers: seq<Tier>, tier: Tier)
    requires (forall t :: t in tiers ==> t in engines) && tier in engines
    ensures VisibleRows(engines, tiers + [tier]) == VisibleRows(engines, tiers) + engines[tier].Visible()
  {
    assert (tiers + [tier])[..|tiers|] == tiers;
  }

  /** Sorted and cut, they are that page. */
  lemma MergeIsPage(engines: EngineMap, tiers: seq<Tier>, keep: LlmEvent -> bool, cursor: Option<i64>,
                    matches: LlmEvent -> bool, limit: nat, out: seq<LlmEvent>)
    requires forall t :: t in tiers ==> t in engines
    requires forall e :: matches(e) <==> keep(e) && IsOlder(e, cursor)
    requires Merged(engines, tiers, matches, limit, out)
    ensures var sorted := SortNewestFirst(out);
      IsPage(sorted[..Min(limit, |sorted|)], multiset(Older(Select(VisibleRows(engines, tiers), keep), cursor)), limit)
  {
    SelectTwice(VisibleRows(engines, tiers), keep, (e: LlmEvent) => IsOlder(e, cursor), matches);
    SortSorts(out);
    CutIsPage(SortNewestFirst(out), multiset(Select(VisibleRows(engines, tiers), matches)), limit);
  }

  class KdbStore {
    var engines: EngineMap

    constructor (engines: EngineMap)
      ensures this.engines == engines
    {
      this.engines := engines;
    }

    /** Append a batch with one fsync per affected tier, in the order the hash map yields the tiers;
        `fault` says what each engine does. Success exactly when no tier fails. Whatever happens,
        exactly the tiers before the first failure (and that one, if it failed after storing) got
        their events, all of them and in order. */
    method AppendBatchDurable(events: seq<LlmEvent>, order: seq<Tier>, fault: Tier -> Fault)
      returns (r: Result<seq<EventId>, StoreError>)
      requires Visits(order, TiersOf(events))
      modifies this
      ensures r.Ok? <==> forall t :: t in TiersOf(events) ==> fault(t).Fine?
      ensures r.Ok? <==> !Fails(order, fault)
      ensures r.Ok? ==> |r.value| == |events| && forall i :: 0 <= i < |events| ==> r.value[i] == events[i].id
      ensures WroteTiers(old(engines), engines, events, WrittenTiers(order, fault))
    {
      if events == [] {
        VisitLength(order, TiersOf(events));
        return Ok([]);
      }
      var ids, byTier := GroupByTier(events);
      for i := 0 to |order|
        invariant forall j :: 0 <= j < i ==> fault(order[j]).Fine?
        invariant WroteTiers(old(engines), engines, events, SetOf(order[..i]))
      {
        var tier := order[i];
        WroteOneMore(old(engines), engines, events, SetOf(order[..i]), tier);
        SetOfPrefix(order, i);
        var engine := EngineOr(engines, tier);
        engines := engines[tier := if fault(tier).Clean? then engine else engine.Append(byTier[tier])];
        if !fault(tier).Fine? {
          assert FirstFault(order, fault) == i;
          return Err(OtherError("engine append failed"));
        }
      }
      assert order[..|order|] == order;
      AllWritten(order, fault);
      return Ok(ids);
    }

    method GroupByTier(events: seq<LlmEvent>) returns (ids: seq<EventId>, byTier: map<Tier, seq<LlmEvent>>)
      ensures AreIds(ids, events)
      ensures byTier.Keys == TiersOf(events)
      ensures forall t :: t in byTier ==> byTier[t] == SubBatch(events, t)
    {
      ids, byTier := [], map[];
      for n := 0 to |events|
        invariant AreIds(ids, events[..n]) && IsTierGrouping(byTier, events[..n])
      {
        var e := events[n];
        IdsOneMore(ids, events[..n], e);
        TierGroupOneMore(byTier, events[..n], e);
        ids := ids + [e.id];
        PrefixGrows(events, n);
        byTier := byTier[e.tier := (if e.tier in byTier then byTier[e.tier] else []) + [e]];
      }
      WholePrefix(events);
    }

    // ── Queries ────────────────────────────────────────────────────────

    /** The engine's own limited query. Ties may be broken either way; callers may rely on the
        contract only. */
    method QueryRecent(tier: Tier, keep: LlmEvent -> bool, limit: nat) returns (rows: seq<LlmEvent>)
      requires tier in engines
      ensures IsPage(rows, multiset(Select(engines[tier].Visible(), keep)), limit)
    {
      var matching := Select(engines[tier].Visible(), keep);
      SortSorts(matching);
      rows := SortNewestFirst(matching);
      assert Suffices(multiset(rows), multiset(matching), limit);
      CutIsPage(rows, multiset(matching), limit);
      rows := rows[..Min(limit, |rows|)];
    }

    /** One limited query per tier, the pages one behind the other. */
    method FanOut(matches: LlmEvent -> bool, limit: nat, order: seq<Tier>) returns (out: seq<LlmEvent>)
      requires forall t :: t in order ==> t in engines
      ensures Merged(engines, order, matches, limit, out)
    {
      out := [];
      for i := 0 to |order|
        invariant Merged(engines, order[..i], matches, limit, out)
      {
        var page := QueryRecent(order[i], matches, limit);
        MergeOneMore(engines, order[..i], order[i], matches, limit, out, page);
        PrefixGrows(order, i);
        out := out + page;
      }
      WholePrefix(order);
    }

    /** Fan out, collect each tier's own page, sort and truncate. Although every tier supplied
        only its `limit` newest rows, the result is a page of all tiers together. */
    method Query(keep: LlmEvent -> bool, limit: nat, cursor: Option<i64>, order: seq<Tier>)
      returns (rows: seq<LlmEvent>)
      requires Visits(order, engines.Keys)
      ensures IsPage(rows, multiset(Older(Select(VisibleRows(engines, order), keep), cursor)), limit)
    {
      var matches := (e: LlmEvent) => keep(e) && IsOlder(e, cursor);
      var out := FanOut(matches, limit, order);
      MergeIsPage(engines, order, keep, cursor, matches, limit, out);
      var sorted := SortNewestFirst(out);
      rows := sorted[..Min(limit, |sorted|)];
    }

    /** Stream every match page by page, each page strictly older than the last row of the one
        before. `cuts` are the timestamps pages ended on. */
    method ExportEvents(keep: LlmEvent -> bool, page: nat, order: seq<Tier>)
      returns (out: seq<LlmEvent>, ghost cuts: set<i64>)
      requires Visits(order, engines.Keys) && page > 0
      ensures NewestFirst(out)
      ensures multiset(out) <= multiset(Select(VisibleRows(engines, order), keep))
      ensures forall x :: x in multiset(Select(VisibleRows(engines, order), keep)) - multiset(out) ==> x.tsNs in cuts
      ensures forall t :: t in cuts ==> exists y :: y in out && y.tsNs == t
      ensures |out| >= Min(page, |Select(VisibleRows(engines, order), keep)|)
      ensures multiset(out) == multiset(Select(VisibleRows(engines, order), keep))
              <==> !TiesAcrossPages(Stamps(SortNewestFirst(Select(VisibleRows(engines, order), keep))), page)
    {
      ghost var all := Select(VisibleRows(engines, order), keep);
      var cursor: Option<i64> := None;
      out, cuts := [], {};
      ExportStarts(all, page);
      OlderThanNone(all);
      while true
        invariant ExportState(all, out, cursor, cuts, page)
        invariant cursor.Some? ==> |out| >= Min(page, |all|)
        decreases |Older(all, cursor)|
      {
        var rows := Query(keep, page, cursor, order);
        if rows == [] {
          ExportEnds(all, out, cursor, cuts, page);
          break;
        }
        ExportAdvances(all, out, cursor, cuts, page, rows);
        var last := rows[|rows| - 1].tsNs;
        out := out + rows;
        cursor, cuts := Some(last), cuts + {last};
      }
    }

    // ── Deletion and visibility ────────────────────────────────────────

    /** Tombstone ids in every engine; unknown ids are no-ops. Reports how many ids were asked
        for, whatever was there. An engine error leaves the remaining engines untouched. */
    method DeleteEventsByIds(ids: seq<EventId>, order: seq<Tier>, broken: Tier -> bool)
      returns (r: Result<nat, StoreError>)
      requires Visits(order, engines.Keys)
      modifies this
      ensures engines.Keys == old(engines.Keys)
      ensures forall t :: t in engines ==>
        engines[t] == old(engines)[t] || (!broken(t) && engines[t] == old(engines)[t].Delete(set id | id in ids))
      ensures r.Ok? ==> r.value == |ids|
      ensures r.Ok? ==>
        VisibleRows(engines, order) == Select(old(VisibleRows(engines, order)), NotIn(set id | id in ids))
      ensures r.Ok? <==> ids == [] || forall t :: t in order ==> !broken(t)
    {
      var idSet := set id | id in ids;
      if ids == [] {
        SelectAll(VisibleRows(engines, order), NotIn(idSet));
        return Ok(0);
      }
      for i := 0 to |order|
        invariant engines.Keys == old(engines.Keys)
        invariant forall t :: t in engines ==>
          engines[t] == if t in order[..i] then old(engines)[t].Delete(idSet) else old(engines)[t]
        invariant forall t :: t in order[..i] ==> !broken(t)
      {
        if broken(order[i]) {
          return Err(OtherError("engine delete failed"));
        }
        engines := engines[order[i] := engines[order[i]].Delete(idSet)];
      }
      VisibleAfterDelete(old(engines), engines, order, idSet);
      return Ok(|ids|);
    }

    /** Rotate every tier's log into segments: everything durable becomes visible. */
    method WalCheckpoint(order: seq<Tier>, broken: Tier -> bool) returns (r: Result<(), StoreError>)
      requires Visits(order, engines.Keys)
      modifies this
      ensures engines.Keys == old(engines.Keys)
      ensures forall t :: t in engines ==>
        engines[t].Rows() == old(engines)[t].Rows() && engines[t].tombstones == old(engines)[t].tombstones
      ensures forall t :: t in engines ==>
        engines[t] == old(engines)[t] || (!broken(t) && engines[t] == old(engines)[t].Flush())
      ensures r.Ok? ==> forall e :: Durable(old(engines), e) ==> Published(engines, e)
      ensures r.Ok? <==> forall t :: t in order ==> !broken(t)
    {
      for i := 0 to |order|
        invariant engines.Keys == old(engines.Keys)
        invariant forall t :: t in engines ==>
          engines[t] == if t in order[..i] then old(engines)[t].Flush() else old(engines)[t]
        invariant forall t :: t in order[..i] ==> !broken(t)
      {
        if broken(order[i]) {
          return Err(OtherError("flush failed"));
        }
        engines := engines[order[i] := engines[order[i]].Flush()];
      }
      return Ok(());
    }
  }

  /** A store that loses rows on export: any rows of one timestamp, one more than a page holds. */
  method ExportOfOneStamp(rows: seq<LlmEvent>, page: nat) returns (out: seq<LlmEvent>)
    requires page > 0 && |rows| == page + 1 && forall i, j :: 0 <= i < j < |rows| ==> rows[i].tsNs == rows[j].tsNs
    ensures |out| == page && multiset(out) <= multiset(rows) && |multiset(rows) - multiset(out)| == 1
  {
    var store := new KdbStore(map["free" := Engine([], rows, {})]);
    var all := (e: LlmEvent) => true;
    ghost var cuts;
    SelectAll(rows, NotIn({}));
    SelectAll(rows, all);
    assert ["free"][..0] == [];
    assert VisibleRows(store.engines, []) == [];
    assert VisibleRows(store.engines, ["free"]) == rows;
    out, cuts := store.ExportEvents(all, page, ["free"]);
    OneStampExportsOnePage(rows, page, out);
  }
}

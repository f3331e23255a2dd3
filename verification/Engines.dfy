/** One storage engine per retention tier.

    The engine itself (keplordb) is a separate crate; this is the behaviour the store relies
    on: an append is durable in the write-ahead log, a flush moves the log into segments,
    queries see segments only, and a tombstone hides a row from every query. */
module Engines {
  import opened Events
  import opened Enumerations

  datatype Engine = Engine(wal: seq<LlmEvent>, segments: seq<LlmEvent>, tombstones: set<EventId>) {

    /** Every durable row, in append order. */
    function Rows(): seq<LlmEvent> {
      segments + wal
    }

    function Append(batch: seq<LlmEvent>): Engine {
      this.(wal := wal + batch)
    }

    function Flush(): Engine {
      this.(wal := [], segments := segments + wal)
    }

    function Delete(ids: set<EventId>): Engine {
      this.(tombstones := tombstones + ids)
    }

    /** Rows a query may return. */
    function Visible(): seq<LlmEvent> {
      Select(segments, NotIn(tombstones))
    }
  }

  function NotIn(ids: set<EventId>): LlmEvent -> bool {
    (e: LlmEvent) => e.id !in ids
  }

  const EMPTY_ENGINE := Engine([], [], {})

  type EngineMap = map<Tier, Engine>

  function EngineOr(engines: EngineMap, tier: Tier): Engine {
    if tier in engines then engines[tier] else EMPTY_ENGINE
  }

  // ── Selecting rows ───────────────────────────────────────────────────

  /** The rows that satisfy `keep`, in their original order. */
  function Select(rows: seq<LlmEvent>, keep: LlmEvent -> bool): seq<LlmEvent> {
    if rows == [] then []
    else Select(rows[..|rows| - 1], keep) + (if keep(rows[|rows| - 1]) then [rows[|rows| - 1]] else [])
  }

  lemma {:induction false} SelectCount(rows: seq<LlmEvent>, keep: LlmEvent -> bool, v: LlmEvent)
    ensures multiset(Select(rows, keep))[v] == if keep(v) then multiset(rows)[v] else 0
  {
    if rows != [] {
      var init, last := rows[..|rows| - 1], [rows[|rows| - 1]];
      SelectCount(init, keep, v);
      InitThenLast(rows);
      CountConcat(init, last, v);
      CountConcat(Select(init, keep), if keep(last[0]) then last else [], v);
    }
  }

  lemma {:induction false} SelectConcat(a: seq<LlmEvent>, b: seq<LlmEvent>, keep: LlmEvent -> bool)
    ensures Select(a + b, keep) == Select(a, keep) + Select(b, keep)
  {
    if b == [] {
      assert a + b == a;
    } else {
      var n := |b| - 1;
      assert (a + b)[..|a + b| - 1] == a + b[..n];
      SelectConcat(a, b[..n], keep);
    }
  }

  lemma SelectMembers(rows: seq<LlmEvent>, keep: LlmEvent -> bool)
    ensures forall e :: e in Select(rows, keep) <==> e in rows && keep(e)
  {
  }

  lemma {:induction false} SelectTwice(rows: seq<LlmEvent>, first: LlmEvent -> bool, second: LlmEvent -> bool,
                                       both: LlmEvent -> bool)
    requires forall e :: both(e) <==> first(e) && second(e)
    ensures Select(Select(rows, first), second) == Select(rows, both)
  {
    if rows != [] {
      var n := |rows| - 1;
      SelectTwice(rows[..n], first, second, both);
      SelectConcat(Select(rows[..n], first), if first(rows[n]) then [rows[n]] else [], second);
    }
  }

  lemma {:induction false} SelectAll(rows: seq<LlmEvent>, keep: LlmEvent -> bool)
    requires forall e :: e in rows ==> keep(e)
    ensures Select(rows, keep) == rows
  {
    if rows != [] {
      assert rows == rows[..|rows| - 1] + [rows[|rows| - 1]];
      SelectAll(rows[..|rows| - 1], keep);
    }
  }

  lemma {:induction false} SelectNone(rows: seq<LlmEvent>, keep: LlmEvent -> bool)
    requires forall e :: e in rows ==> !keep(e)
    ensures Select(rows, keep) == []
  {
    if rows != [] {
      SelectNone(rows[..|rows| - 1], keep);
    }
  }

  // ── Batches and tiers ────────────────────────────────────────────────

  /** The rows of `events` that belong to `tier`, in their original order. */
  function SubBatch(events: seq<LlmEvent>, tier: Tier): seq<LlmEvent> {
    Select(events, (e: LlmEvent) => e.tier == tier)
  }

  function TiersOf(events: seq<LlmEvent>): set<Tier> {
    set e | e in events :: e.tier
  }

  /** The event is in its tier's log or segments. */
  predicate Durable(engines: EngineMap, e: LlmEvent) {
    e.tier in engines && e in engines[e.tier].Rows()
  }

  /** The event is in its tier's segments, so every query that matches it may return it. */
  predicate Published(engines: EngineMap, e: LlmEvent) {
    e.tier in engines && e in engines[e.tier].segments
  }

  lemma SubBatchMembers(events: seq<LlmEvent>, tier: Tier)
    ensures forall e :: e in SubBatch(events, tier) <==> e in events && e.tier == tier
  {
    SelectMembers(events, (e: LlmEvent) => e.tier == tier);
  }

  lemma SubBatchAbsent(events: seq<LlmEvent>, tier: Tier)
    requires tier !in TiersOf(events)
    ensures SubBatch(events, tier) == []
  {
    SelectNone(events, (e: LlmEvent) => e.tier == tier);
  }

  lemma SubBatchSnoc(events: seq<LlmEvent>, e: LlmEvent, tier: Tier)
    ensures SubBatch(events + [e], tier) == SubBatch(events, tier) + (if e.tier == tier then [e] else [])
  {
  }

  /** One entry per tier that occurs, each the tier's events in their order. */
  predicate AreIds(ids: seq<EventId>, events: seq<LlmEvent>) {
    |ids| == |events| && forall i :: 0 <= i < |events| ==> ids[i] == events[i].id
  }

  lemma IdsOneMore(ids: seq<EventId>, events: seq<LlmEvent>, e: LlmEvent)
    requires AreIds(ids, events)
    ensures AreIds(ids + [e.id], events + [e])
  {
  }

  ghost predicate IsTierGrouping(byTier: map<Tier, seq<LlmEvent>>, events: seq<LlmEvent>) {
    byTier.Keys == TiersOf(events) && forall t :: t in byTier ==> byTier[t] == SubBatch(events, t)
  }

  lemma TierGroupOneMore(byTier: map<Tier, seq<LlmEvent>>, events: seq<LlmEvent>, e: LlmEvent)
    requires IsTierGrouping(byTier, events)
    ensures IsTierGrouping(byTier[e.tier := (if e.tier in byTier then byTier[e.tier] else []) + [e]], events + [e])
  {
    var after := byTier[e.tier := (if e.tier in byTier then byTier[e.tier] else []) + [e]];
    TiersSnoc(events, e);
    forall t | t in after
      ensures after[t] == SubBatch(events + [e], t)
    {
      SubBatchSnoc(events, e, t);
      if t !in byTier { SubBatchAbsent(events, t); }
    }
  }

  lemma TiersSnoc(events: seq<LlmEvent>, e: LlmEvent)
    ensures TiersOf(events + [e]) == TiersOf(events) + {e.tier}
  {
  }

  /** `after` is `before` with the events of exactly the tiers in `written` appended. */
  ghost predicate WroteTiers(before: EngineMap, after: EngineMap, events: seq<LlmEvent>, written: set<Tier>) {
    && before.Keys <= after.Keys
    && forall t :: EngineOr(after, t) ==
         if t in written then EngineOr(before, t).Append(SubBatch(events, t)) else EngineOr(before, t)
  }

  lemma WroteOneMore(before: EngineMap, after: EngineMap, events: seq<LlmEvent>, written: set<Tier>, tier: Tier)
    requires WroteTiers(before, after, events, written) && tier !in written
    ensures WroteTiers(before, after[tier := EngineOr(after, tier)], events, written)
    ensures var after' := after[tier := EngineOr(after, tier).Append(SubBatch(events, tier))];
      WroteTiers(before, after', events, written + {tier})
  {
  }

  lemma AppendedIsDurable(before: EngineMap, after: EngineMap, events: seq<LlmEvent>, written: set<Tier>, e: LlmEvent)
    requires WroteTiers(before, after, events, written) && e in events && e.tier in written
    ensures Durable(after, e)
  {
    SubBatchMembers(events, e.tier);
    assert EngineOr(after, e.tier) == EngineOr(before, e.tier).Append(SubBatch(events, e.tier));
    assert e in EngineOr(after, e.tier).Rows();
  }

  // ── Visible rows of a whole store ────────────────────────────────────

  /** Every row a query may return, tier by tier. */
  function VisibleRows(engines: EngineMap, order: seq<Tier>): seq<LlmEvent>
    requires forall t :: t in order ==> t in engines
  {
    if order == [] then []
    else VisibleRows(engines, order[..|order| - 1]) + engines[order[|order| - 1]].Visible()
  }

  /** Tombstoning ids in every engine hides exactly the rows with those ids. */
  lemma {:induction false} VisibleAfterDelete(before: EngineMap, after: EngineMap, order: seq<Tier>, ids: set<EventId>)
    requires forall t :: t in order ==> t in before && t in after && after[t] == before[t].Delete(ids)
    ensures VisibleRows(after, order) == Select(VisibleRows(before, order), NotIn(ids))
  {
    if order != [] {
      var n := |order| - 1;
      VisibleAfterDelete(before, after, order[..n], ids);
      var engine := before[order[n]];
      SelectTwice(engine.segments, NotIn(engine.tombstones), NotIn(ids), NotIn(engine.tombstones + ids));
      SelectConcat(VisibleRows(before, order[..n]), engine.Visible(), NotIn(ids));
    }
  }

  lemma DeleteWithin(engine: Engine, ids: set<EventId>, outer: set<EventId>)
    requires ids <= outer
    ensures Select(engine.Delete(ids).Visible(), NotIn(outer)) == Select(engine.Visible(), NotIn(outer))
  {
    SelectTwice(engine.segments, NotIn(engine.tombstones), NotIn(outer), NotIn(engine.tombstones + outer));
    SelectTwice(engine.segments, NotIn(engine.tombstones + ids), NotIn(outer), NotIn(engine.tombstones + outer));
  }

  /** Tombstoning ids in some engines only leaves every row without those ids where it was. */
  lemma {:induction false} VisibleAfterPartialDelete(before: EngineMap, after: EngineMap, order: seq<Tier>,
                                                     ids: set<EventId>, outer: set<EventId>)
    requires ids <= outer && forall t :: t in order ==> t in before && t in after
    requires forall t :: t in order ==> after[t] == before[t] || after[t] == before[t].Delete(ids)
    ensures Select(VisibleRows(after, order), NotIn(outer)) == Select(VisibleRows(before, order), NotIn(outer))
  {
    if order != [] {
      var n := |order| - 1;
      VisibleAfterPartialDelete(before, after, order[..n], ids, outer);
      DeleteWithin(before[order[n]], ids, outer);
      SelectConcat(VisibleRows(before, order[..n]), before[order[n]].Visible(), NotIn(outer));
      SelectConcat(VisibleRows(after, order[..n]), after[order[n]].Visible(), NotIn(outer));
    }
  }
}

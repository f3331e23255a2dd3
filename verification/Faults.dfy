/** Batch appends that fail half-way (crates/keplor-store/src/kdb_store.rs, `append_batch_durable`):
    which tiers an attempt stores, and when an error means that nothing was stored. */
module Faults {
  import opened Events
  import opened Engines
  import opened Enumerations

  /** What an engine does with one append: succeed, fail with nothing stored, or fail after
      storing. */
  datatype Fault = Fine | Clean | Torn

  /** Position of the first tier that fails. */
  function FirstFault(order: seq<Tier>, fault: Tier -> Fault): (n: nat)
    ensures n <= |order| && (n < |order| ==> !fault(order[n]).Fine?) && forall i :: 0 <= i < n ==> fault(order[i]).Fine?
  {
    if order == [] then 0 else if fault(order[0]).Fine? then 1 + FirstFault(order[1..], fault) else 0
  }

  /** The tiers an attempt stores: those before the first failure, and that one if it is torn. */
  function WrittenTiers(order: seq<Tier>, fault: Tier -> Fault): set<Tier> {
    var n := FirstFault(order, fault);
    SetOf(order[..n]) + (if n < |order| && fault(order[n]).Torn? then {order[n]} else {})
  }

  predicate Fails(order: seq<Tier>, fault: Tier -> Fault) {
    FirstFault(order, fault) < |order|
  }

  lemma AllWritten(order: seq<Tier>, fault: Tier -> Fault)
    requires !Fails(order, fault)
    ensures WrittenTiers(order, fault) == SetOf(order)
  {
    assert order[..|order|] == order;
  }

  /** An event of the batch is stored by the attempt exactly when its tier comes before the first
      failing one, or is that one and the failure is torn. */
  lemma StoredIff(order: seq<Tier>, fault: Tier -> Fault, i: nat)
    requires i < |order| && forall j, k :: 0 <= j < k < |order| ==> order[j] != order[k]
    ensures order[i] in WrittenTiers(order, fault) <==>
      i < FirstFault(order, fault) || (i == FirstFault(order, fault) && fault(order[i]).Torn?)
  {
    var n := FirstFault(order, fault);
    if i < n { assert order[..n][i] == order[i]; }
  }

  ghost predicate SameRows(before: EngineMap, after: EngineMap) {
    forall t :: EngineOr(after, t).Rows() == EngineOr(before, t).Rows()
  }

  lemma SameRowsIffNothingWritten(before: EngineMap, after: EngineMap, events: seq<LlmEvent>, written: set<Tier>)
    requires WroteTiers(before, after, events, written) && written <= TiersOf(events)
    ensures SameRows(before, after) <==> written == {}
  {
    if t :| t in written {
      SubBatchMembers(events, t);
      var e :| e in events && e.tier == t;
      assert e in SubBatch(events, t);
      var held := EngineOr(before, t);
      assert EngineOr(after, t).Rows() == held.Rows() + SubBatch(events, t);
      assert |EngineOr(after, t).Rows()| > |held.Rows()|;
    }
  }

  /** Whatever the stores held, the tier order and the failures (torn ones too, if `tearing`), an
      attempt that fails leaves every row as it was. */
  ghost predicate ErrorMeansNotStored(events: seq<LlmEvent>, tearing: bool) {
    forall before: EngineMap, after: EngineMap, order: seq<Tier>, fault: Tier -> Fault ::
      Visits(order, TiersOf(events)) && Fails(order, fault) && (tearing || forall t :: !fault(t).Torn?)
      && WroteTiers(before, after, events, WrittenTiers(order, fault))
      ==> SameRows(before, after)
  }

  /** The engines after storing `written` into empty ones. */
  function Stored(events: seq<LlmEvent>, written: set<Tier>): EngineMap {
    map t | t in written :: EMPTY_ENGINE.Append(SubBatch(events, t))
  }

  lemma StoredWrites(events: seq<LlmEvent>, written: set<Tier>)
    ensures WroteTiers(map[], Stored(events, written), events, written)
  {
  }

  function FaultAt(bad: Tier, f: Fault): Tier -> Fault {
    (t: Tier) => if t == bad then f else Fine
  }

  lemma ErrorStores(events: seq<LlmEvent>, tearing: bool, order: seq<Tier>, fault: Tier -> Fault)
    requires Visits(order, TiersOf(events)) && Fails(order, fault) && (tearing || forall t :: !fault(t).Torn?)
    requires WrittenTiers(order, fault) != {}
    ensures !ErrorMeansNotStored(events, tearing)
  {
    var written := WrittenTiers(order, fault);
    assert written <= TiersOf(events);
    StoredWrites(events, written);
    SameRowsIffNothingWritten(map[], Stored(events, written), events, written);
  }

  lemma TwoTiers(tiers: set<Tier>) returns (a: Tier, b: Tier)
    requires |tiers| > 1
    ensures a in tiers && b in tiers && a != b
  {
    a :| a in tiers;
    assert |tiers - {a}| > 0;
    b :| b in tiers - {a};
  }

  /** When engines fail cleanly, an error means that nothing of the batch was stored if and only
      if the batch touches at most one tier. */
  lemma ErrorMeansNotStoredIff(events: seq<LlmEvent>)
    ensures ErrorMeansNotStored(events, false) <==> |TiersOf(events)| <= 1
  {
    if |TiersOf(events)| > 1 {
      var a, b := TwoTiers(TiersOf(events));
      var order := VisitWithFirst(TiersOf(events), a);
      var fault := FaultAt(b, Clean);
      var i :| 0 <= i < |order| && order[i] == b;
      assert Fails(order, fault);
      StoredIff(order, fault, 0);
      ErrorStores(events, false, order, fault);
    } else {
      forall before: EngineMap, after: EngineMap, order: seq<Tier>, fault: Tier -> Fault |
        Visits(order, TiersOf(events)) && Fails(order, fault) && (forall t :: !fault(t).Torn?)
        && WroteTiers(before, after, events, WrittenTiers(order, fault))
        ensures SameRows(before, after)
      {
        OneTierFails(order, TiersOf(events), fault);
        SameRowsIffNothingWritten(before, after, events, {});
      }
    }
  }

  lemma OneTierFails(order: seq<Tier>, tiers: set<Tier>, fault: Tier -> Fault)
    requires Visits(order, tiers) && |tiers| <= 1 && Fails(order, fault) && forall t :: !fault(t).Torn?
    ensures WrittenTiers(order, fault) == {}
  {
    VisitLength(order, tiers);
  }

  /** When an engine may fail after storing, an error never means that for a non-empty batch. */
  lemma TornErrorMayStore(events: seq<LlmEvent>)
    ensures ErrorMeansNotStored(events, true) <==> events == []
  {
    if events != [] {
      var t := events[0].tier;
      assert t in TiersOf(events);
      var order := VisitWithFirst(TiersOf(events), t);
      StoredIff(order, FaultAt(t, Torn), 0);
      ErrorStores(events, true, order, FaultAt(t, Torn));
    }
  }
}

/** Event filters as row filters of the storage engine (crates/keplor-store/src/filter.rs and
    `to_query_filter` in crates/keplor-store/src/mapping.rs). */
module Filters {
  import opened Wrappers
  import opened MachineInts
  import opened Events
  import opened Mapping

  datatype EventFilter = EventFilter(
    userId: Option<string>, apiKeyId: Option<string>, model: Option<string>, provider: Option<string>,
    source: Option<string>, fromTsNs: Option<i64>, toTsNs: Option<i64>,
    httpStatusMin: Option<u16>, httpStatusMax: Option<u16>,
    metaUserTag: Option<string>, metaSessionTag: Option<string>)

  type DimFilters = s: seq<Option<string>> | |s| == D witness seq(D, i => None)

  datatype QueryFilter = QueryFilter(
    dims: DimFilters, fromTsNs: Option<i64>, toTsNs: Option<i64>, statusMin: Option<u16>, statusMax: Option<u16>)

  /** Inclusive below and above. */
  predicate InTime(ts: i64, from: Option<i64>, to: Option<i64>) {
    (from.Some? ==> from.value <= ts) && (to.Some? ==> ts <= to.value)
  }

  /** Inclusive below, exclusive above. */
  predicate InStatus(status: u16, min: Option<u16>, max: Option<u16>) {
    (min.Some? ==> min.value <= status) && (max.Some? ==> status < max.value)
  }

  /** How the engine applies a row filter. */
  predicate Selects(q: QueryFilter, r: Row) {
    && (forall i :: 0 <= i < D && q.dims[i].Some? ==> r.dims[i] == q.dims[i].value)
    && InTime(r.tsNs, q.fromTsNs, q.toTsNs) && InStatus(r.status, q.statusMin, q.statusMax)
  }

  // ── What a filter asks for ───────────────────────────────────────────

  /** An optional text is the one asked for; asking for the empty text also asks for its absence. */
  predicate IsText(asked: Option<string>, text: Option<string>) {
    asked.Some? ==> text == asked || (asked.value == "" && text.None?)
  }

  ghost predicate IsTag(asked: Option<string>, metadata: Option<Json>, name: string) {
    asked.Some? ==>
      HasText(metadata, name, asked.value) || (asked.value == "" && forall t :: !HasText(metadata, name, t))
  }

  /** The event as a query sees it: an absent status counts as zero. */
  ghost predicate Wanted(f: EventFilter, e: LlmEvent) {
    && IsText(f.userId, e.userId) && IsText(f.apiKeyId, e.apiKeyId) && IsText(f.source, e.source)
    && (f.model.Some? ==> e.model == f.model.value)
    && (f.provider.Some? ==> NamesProvider(e.provider, f.provider.value))
    && IsTag(f.metaUserTag, e.metadata, "user_tag") && IsTag(f.metaSessionTag, e.metadata, "session_tag")
    && InTime(e.tsNs, f.fromTsNs, f.toTsNs) && InStatus(e.httpStatus.UnwrapOr(0), f.httpStatusMin, f.httpStatusMax)
  }

  /** A text dimension of the row is the one asked for. */
  predicate HasDim(asked: Option<string>, dim: string) {
    asked.Some? ==> dim == asked.value
  }

  lemma TextDim(asked: Option<string>, text: Option<string>)
    ensures HasDim(asked, text.UnwrapOr("")) <==> IsText(asked, text)
  {
  }

  lemma TextIsUnique(metadata: Option<Json>, name: string, s: string, t: string)
    requires HasText(metadata, name, s) && HasText(metadata, name, t)
    ensures s == t
  {
    var members := metadata.value.members;
    var i :| 0 <= i < |members| && members[i] == (name, JsonString(s));
    var k :| 0 <= k < |members| && members[k] == (name, JsonString(t));
    assert i == k;
  }

  lemma TagDim(asked: Option<string>, metadata: Option<Json>, name: string, dim: string)
    requires IsTextOf(metadata, name, dim)
    ensures HasDim(asked, dim) <==> IsTag(asked, metadata, name)
  {
    if asked.Some? && HasText(metadata, name, asked.value) && HasText(metadata, name, dim) {
      TextIsUnique(metadata, name, asked.value, dim);
    }
  }

  lemma KeyIsUnique(p: Provider, key: string, other: string)
    requires NamesProvider(p, key) && NamesProvider(p, other)
    ensures key == other
  {
  }

  lemma ProviderDim(asked: Option<string>, p: Provider, dim: string)
    requires NamesProvider(p, dim)
    ensures HasDim(asked, dim) <==> (asked.Some? ==> NamesProvider(p, asked.value))
  {
    if asked.Some? && NamesProvider(p, asked.value) { KeyIsUnique(p, dim, asked.value); }
  }

  // ── The row filter ───────────────────────────────────────────────────

  /** The seven dimensions a filter may constrain. */
  predicate AreDims(f: EventFilter, dims: DimFilters) {
    && dims[DIM_USER_ID] == f.userId && dims[DIM_API_KEY_ID] == f.apiKeyId && dims[DIM_MODEL] == f.model
    && dims[DIM_PROVIDER] == f.provider && dims[DIM_SOURCE] == f.source
    && dims[DIM_USER_TAG] == f.metaUserTag && dims[DIM_SESSION_TAG] == f.metaSessionTag
    && dims[DIM_ORG_ID] == dims[DIM_PROJECT_ID] == dims[DIM_ROUTE_ID] == dims[DIM_MODEL_FAMILY] == None
    && dims[DIM_ENDPOINT] == dims[DIM_TIER] == dims[DIM_ERROR_TYPE] == None
  }

  method FillDimFilters(f: EventFilter) returns (dims: DimFilters)
    ensures AreDims(f, dims)
  {
    dims := seq(D, i => None);
    dims := dims[DIM_USER_ID := f.userId];
    dims := dims[DIM_API_KEY_ID := f.apiKeyId];
    dims := dims[DIM_MODEL := f.model];
    dims := dims[DIM_PROVIDER := f.provider];
    dims := dims[DIM_SOURCE := f.source];
    dims := dims[DIM_USER_TAG := f.metaUserTag];
    dims := dims[DIM_SESSION_TAG := f.metaSessionTag];
  }

  /** Whatever the event, the engine selects its row if and only if `f` asks for the event. */
  ghost predicate IsFilterFor(q: QueryFilter, f: EventFilter) {
    forall codecs, e, row :: IsRowOf(codecs, e, row) ==> (Selects(q, row) <==> Wanted(f, e))
  }

  /** `to_query_filter` */
  method ToQueryFilter(f: EventFilter) returns (q: QueryFilter)
    ensures IsFilterFor(q, f)
  {
    var dims := FillDimFilters(f);
    q := QueryFilter(dims, f.fromTsNs, f.toTsNs, f.httpStatusMin, f.httpStatusMax);
    FilterIsFaithful(f, q);
  }

  lemma SelectsByDim(q: QueryFilter, f: EventFilter, r: Row)
    requires AreDims(f, q.dims)
    ensures (forall i :: 0 <= i < D && q.dims[i].Some? ==> r.dims[i] == q.dims[i].value) <==>
      HasDim(f.userId, r.dims[DIM_USER_ID]) && HasDim(f.apiKeyId, r.dims[DIM_API_KEY_ID])
      && HasDim(f.model, r.dims[DIM_MODEL]) && HasDim(f.provider, r.dims[DIM_PROVIDER])
      && HasDim(f.source, r.dims[DIM_SOURCE])
      && HasDim(f.metaUserTag, r.dims[DIM_USER_TAG]) && HasDim(f.metaSessionTag, r.dims[DIM_SESSION_TAG])
  {
  }

  lemma SelectsIffWanted(f: EventFilter, q: QueryFilter, codecs: Codecs, e: LlmEvent, row: Row)
    requires AreDims(f, q.dims) && IsRowOf(codecs, e, row)
    requires q == QueryFilter(q.dims, f.fromTsNs, f.toTsNs, f.httpStatusMin, f.httpStatusMax)
    ensures Selects(q, row) <==> Wanted(f, e)
  {
    SelectsByDim(q, f, row);
    TextDim(f.userId, e.userId);
    TextDim(f.apiKeyId, e.apiKeyId);
    TextDim(f.source, e.source);
    ProviderDim(f.provider, e.provider, row.dims[DIM_PROVIDER]);
    TagDim(f.metaUserTag, e.metadata, "user_tag", row.dims[DIM_USER_TAG]);
    TagDim(f.metaSessionTag, e.metadata, "session_tag", row.dims[DIM_SESSION_TAG]);
  }

  lemma FilterIsFaithful(f: EventFilter, q: QueryFilter)
    requires AreDims(f, q.dims)
    requires q == QueryFilter(q.dims, f.fromTsNs, f.toTsNs, f.httpStatusMin, f.httpStatusMax)
    ensures IsFilterFor(q, f)
  {
    forall codecs, e, row | IsRowOf(codecs, e, row)
      ensures Selects(q, row) <==> Wanted(f, e)
    {
      SelectsIffWanted(f, q, codecs, e, row);
    }
  }

  // ── What the documentation of the fields says ────────────────────────

  /** Only events that have the text, the tag, or a status in the range. */
  predicate Documented(f: EventFilter, e: LlmEvent) {
    && (f.userId.Some? ==> e.userId == f.userId) && (f.apiKeyId.Some? ==> e.apiKeyId == f.apiKeyId)
    && (f.source.Some? ==> e.source == f.source) && (f.model.Some? ==> e.model == f.model.value)
    && (f.provider.Some? ==> NamesProvider(e.provider, f.provider.value))
    && (f.metaUserTag.Some? ==> HasText(e.metadata, "user_tag", f.metaUserTag.value))
    && (f.metaSessionTag.Some? ==> HasText(e.metadata, "session_tag", f.metaSessionTag.value))
    && InTime(e.tsNs, f.fromTsNs, f.toTsNs)
    && (f.httpStatusMin.Some? || f.httpStatusMax.Some? ==>
          e.httpStatus.Some? && InStatus(e.httpStatus.value, f.httpStatusMin, f.httpStatusMax))
  }

  ghost predicate LacksTag(asked: Option<string>, metadata: Option<Json>, name: string) {
    asked.Some? && forall t :: !HasText(metadata, name, t)
  }

  /** The filter constrains something that the event does not have. */
  ghost predicate LacksSomething(f: EventFilter, e: LlmEvent) {
    || (f.userId.Some? && e.userId.None?) || (f.apiKeyId.Some? && e.apiKeyId.None?)
    || (f.source.Some? && e.source.None?)
    || LacksTag(f.metaUserTag, e.metadata, "user_tag") || LacksTag(f.metaSessionTag, e.metadata, "session_tag")
    || ((f.httpStatusMin.Some? || f.httpStatusMax.Some?) && e.httpStatus.None?)
  }

  /** Queries find every event the documentation promises, and beyond those exactly the wanted ones
      that lack something the filter constrains: the empty text finds absent ones, and an event
      without status counts as status zero. */
  lemma WantedBeyondDocumented(f: EventFilter, e: LlmEvent)
    ensures Documented(f, e) <==> Wanted(f, e) && !LacksSomething(f, e)
  {
  }

  /** Such an event: without a status it is found below any positive bound. */
  lemma StatusLessIsFound(e: LlmEvent, bound: u16)
    requires e.httpStatus.None? && bound > 0
    ensures var f := EventFilter(None, None, None, None, None, None, None, None, Some(bound), None, None);
      Wanted(f, e) && !Documented(f, e)
  {
  }
}

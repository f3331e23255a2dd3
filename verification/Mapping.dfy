/** Events as positional rows of the storage engine, and back
    (crates/keplor-store/src/mapping.rs). */
module Mapping {
  import opened Wrappers
  import opened MachineInts
  import opened Events
  import opened ErrorJson

  // ── The row layout ───────────────────────────────────────────────────

  const D := 14
  const C := 13
  const L := 8

  const DIM_USER_ID := 0
  const DIM_API_KEY_ID := 1
  const DIM_MODEL := 2
  const DIM_PROVIDER := 3
  const DIM_SOURCE := 4
  const DIM_ORG_ID := 5
  const DIM_PROJECT_ID := 6
  const DIM_ROUTE_ID := 7
  const DIM_MODEL_FAMILY := 8
  const DIM_ENDPOINT := 9
  const DIM_TIER := 10
  const DIM_ERROR_TYPE := 11
  const DIM_USER_TAG := 12
  const DIM_SESSION_TAG := 13

  const COUNTER_INPUT_TOKENS := 0
  const COUNTER_OUTPUT_TOKENS := 1
  const COUNTER_CACHE_READ := 2
  const COUNTER_CACHE_CREATION := 3
  const COUNTER_REASONING := 4
  const COUNTER_AUDIO_IN := 5
  const COUNTER_AUDIO_OUT := 6
  const COUNTER_IMAGE := 7
  const COUNTER_VIDEO_SECONDS := 8
  const COUNTER_TOOL_USE := 9
  const COUNTER_SEARCH_QUERIES := 10
  const COUNTER_CLOSE_MS := 11
  const COUNTER_IS_ERROR := 12

  const LABEL_ERROR_JSON := 0
  const LABEL_REQUEST_ID := 1
  const LABEL_TRACE_ID := 2
  const LABEL_CLIENT_IP := 3
  const LABEL_USER_AGENT := 4
  const LABEL_METADATA_JSON := 5
  const LABEL_METHOD := 6
  const LABEL_PROVIDER_VARIANT := 7

  const FLAG_HAS_TTFT: bv16 := 0x100
  const FLAG_HAS_HTTP_STATUS: bv16 := 0x200
  const FLAG_HAS_ERROR: bv16 := 0x400
  const FLAG_HAS_CLOSE_MS: bv16 := 0x800

  type Dims = s: seq<string> | |s| == D witness seq(D, i => "")
  type Counters = s: seq<u32> | |s| == C witness seq(C, i => 0)
  type Labels = s: seq<string> | |s| == L witness seq(L, i => "")

  datatype Row = Row(
    id: string, tsNs: i64, metric: i64, counters: Counters, latencyMs: u32, latencyDetailMs: u32,
    status: u16, flags: bv16, dims: Dims, labels: Labels)

  datatype MappingError =
    InvalidEventId | InvalidTraceId | InvalidIp | InvalidError(reason: ErrorTextError) | InvalidMetadata | InvalidMethod

  /** The text forms that belong to libraries: identifiers, addresses, JSON documents. */
  datatype Codec<!T(!new)> = Codec(text: T -> string, parse: string -> Option<T>) {
    ghost predicate Lawful() {
      forall x: T :: parse(text(x)) == Some(x) && text(x) != ""
    }
  }

  datatype Codecs = Codecs(id: Codec<EventId>, ip: Codec<IpAddr>, json: Codec<Json>) {
    ghost predicate Lawful() {
      id.Lawful() && ip.Lawful() && json.Lawful()
    }
  }

  // ── Providers ────────────────────────────────────────────────────────

  function IdKey(p: Provider): string {
    match p
    case OpenAI => "openai"
    case Anthropic => "anthropic"
    case Gemini => "gemini"
    case GeminiVertex => "gemini_vertex"
    case Bedrock => "bedrock"
    case AzureOpenAI => "azure_openai"
    case Mistral => "mistral"
    case Groq => "groq"
    case XAi => "xai"
    case DeepSeek => "deepseek"
    case Cohere => "cohere"
    case OpenRouter => "openrouter"
    case Ollama => "ollama"
    case OpenCode => "opencode"
    case OpenCodeZen => "opencode_zen"
    case OpenAICompatible(_) => "openai_compatible"
  }

  function FromIdKey(s: string): Provider {
    if s == "openai" then OpenAI
    else if s == "anthropic" then Anthropic
    else if s == "gemini" then Gemini
    else if s == "gemini_vertex" then GeminiVertex
    else if s == "bedrock" then Bedrock
    else if s == "azure_openai" then AzureOpenAI
    else if s == "mistral" then Mistral
    else if s == "groq" then Groq
    else if s == "xai" then XAi
    else if s == "deepseek" then DeepSeek
    else if s == "cohere" then Cohere
    else if s == "openrouter" then OpenRouter
    else if s == "ollama" then Ollama
    else if s == "opencode" then OpenCode
    else if s == "opencode_zen" then OpenCodeZen
    else OpenAICompatible(s)
  }

  function ReadProvider(idKey: string, variant: string): Provider {
    if idKey == "openai_compatible" then OpenAICompatible(variant) else FromIdKey(idKey)
  }

  function VariantLabel(p: Provider): string {
    if p.OpenAICompatible? then p.baseUrl else ""
  }

  lemma ProviderRoundTrip(p: Provider)
    ensures ReadProvider(IdKey(p), VariantLabel(p)) == p
  {
    match p
    case OpenAI | Anthropic | Gemini | GeminiVertex | Bedrock | AzureOpenAI | Mistral | Groq =>
    case XAi | DeepSeek | Cohere | OpenRouter | Ollama | OpenCode | OpenCodeZen =>
    case OpenAICompatible(_) =>
  }

  // ── Flags ────────────────────────────────────────────────────────────

  /** The six event flags a row keeps. */
  const KEPT_FLAGS: bv32 := 0x3F

  /** Bit `to` if bit `from` is set. */
  function Bit(flags: bv32, from: bv32, to: bv16): bv16 {
    if flags & from != 0 then to else 0
  }

  function When(b: bool, bit: bv16): bv16 {
    if b then bit else 0
  }

  function PackedFlags(flags: bv32): bv16 {
    Bit(flags, 1, 1) | Bit(flags, 2, 2) | Bit(flags, 4, 4) | Bit(flags, 8, 8) | Bit(flags, 16, 16) | Bit(flags, 32, 32)
  }

  function Packed(flags: bv32, ttft: bool, status: bool, error: bool, closeMs: bool): bv16 {
    PackedFlags(flags) | When(ttft, FLAG_HAS_TTFT) | When(status, FLAG_HAS_HTTP_STATUS) | When(error, FLAG_HAS_ERROR)
    | When(closeMs, FLAG_HAS_CLOSE_MS)
  }

  function UnpackedBit(bits: bv16, from: bv16, to: bv32): bv32 {
    if bits & from != 0 then to else 0
  }

  function UnpackFlags(bits: bv16): bv32 {
    UnpackedBit(bits, 1, 1) | UnpackedBit(bits, 2, 2) | UnpackedBit(bits, 4, 4)
    | UnpackedBit(bits, 8, 8) | UnpackedBit(bits, 16, 16) | UnpackedBit(bits, 32, 32)
  }

  /** `if set { bits |= bit; }` */
  method OrIf(bits: bv16, on: bool, bit: bv16) returns (bits': bv16)
    ensures bits' == bits | When(on, bit)
  {
    bits' := bits;
    if on { bits' := bits' | bit; }
  }

  method PackEventFlags(flags: bv32) returns (bits: bv16)
    ensures bits == PackedFlags(flags)
  {
    bits := 0;
    if flags & 1 != 0 { bits := bits | 1; }
    if flags & 2 != 0 { bits := bits | 2; }
    if flags & 4 != 0 { bits := bits | 4; }
    if flags & 8 != 0 { bits := bits | 8; }
    if flags & 16 != 0 { bits := bits | 16; }
    if flags & 32 != 0 { bits := bits | 32; }
  }

  /** `pack_flags`, bit by bit: what unpacks to the six kept flags, with one bit per optional field
      that says whether it is there. */
  method PackFlags(e: LlmEvent) returns (bits: bv16)
    ensures UnpackFlags(bits) == e.flags & KEPT_FLAGS
    ensures bits & FLAG_HAS_TTFT != 0 <==> e.latency.ttftMs.Some?
    ensures bits & FLAG_HAS_HTTP_STATUS != 0 <==> e.httpStatus.Some?
    ensures bits & FLAG_HAS_ERROR != 0 <==> e.error.Some?
    ensures bits & FLAG_HAS_CLOSE_MS != 0 <==> e.latency.timeToCloseMs.Some?
    ensures bits == RowFlags(e)
  {
    FlagsRoundTrip(e.flags, e.latency.ttftMs.Some?, e.httpStatus.Some?, e.error.Some?, e.latency.timeToCloseMs.Some?);
    bits := PackEventFlags(e.flags);
    bits := OrIf(bits, e.latency.ttftMs.Some?, FLAG_HAS_TTFT);
    bits := OrIf(bits, e.httpStatus.Some?, FLAG_HAS_HTTP_STATUS);
    bits := OrIf(bits, e.error.Some?, FLAG_HAS_ERROR);
    bits := OrIf(bits, e.latency.timeToCloseMs.Some?, FLAG_HAS_CLOSE_MS);
  }

  /** Packing keeps the six flags and the four presence bits apart. */
  lemma FlagsRoundTrip(flags: bv32, ttft: bool, status: bool, error: bool, closeMs: bool)
    ensures var bits := Packed(flags, ttft, status, error, closeMs);
      && UnpackFlags(bits) == flags & KEPT_FLAGS
      && (bits & FLAG_HAS_TTFT != 0 <==> ttft) && (bits & FLAG_HAS_HTTP_STATUS != 0 <==> status)
      && (bits & FLAG_HAS_ERROR != 0 <==> error) && (bits & FLAG_HAS_CLOSE_MS != 0 <==> closeMs)
  {
  }

  // ── Trace ids ────────────────────────────────────────────────────────

  /** Two lower-case digits per byte. */
  function HexOf(bytes: seq<u8>): (s: string)
    ensures |s| == 2 * |bytes|
  {
    seq(2 * |bytes|, k requires 0 <= k < 2 * |bytes| =>
      HexDigit(if k % 2 == 0 then bytes[k / 2] / 16 else bytes[k / 2] % 16))
  }

  /** `trace_id_to_hex` */
  method TraceIdToHex(id: TraceId) returns (out: string)
    ensures |out| == 32 && forall i :: 0 <= i < 16 ==> PairAt(out, i) == Some(id[i])
    ensures out == HexOf(id)
  {
    out := [];
    for i := 0 to |id|
      invariant |out| == 2 * i && forall k :: 0 <= k < 2 * i ==> out[k] == HexOf(id)[k]
    {
      out := out + [HexDigit(id[i] / 16), HexDigit(id[i] % 16)];
    }
    HexPairs(id);
  }

  /** `u8::from_str_radix(pair, 16)`: a leading plus sign is accepted, and either case. */
  function ByteOf(hi: char, lo: char): Option<u8> {
    var l := HexValue(lo);
    if l.None? then None
    else if hi == '+' then Some(l.value)
    else
      var h := HexValue(hi);
      if h.None? then None else Some(h.value * 16 + l.value)
  }

  /** The `i`th pair of digits. */
  function PairAt(s: string, i: nat): Option<u8>
    requires |s| == 32 && i < 16
  {
    ByteOf(s[2 * i], s[2 * i + 1])
  }

  lemma HexPairs(id: TraceId)
    ensures forall i :: 0 <= i < 16 ==> PairAt(HexOf(id), i) == Some(id[i])
  {
    forall i | 0 <= i < 16
      ensures PairAt(HexOf(id), i) == Some(id[i])
    {
      assert (2 * i) % 2 == 0 && (2 * i + 1) % 2 == 1 && (2 * i + 1) / 2 == i;
    }
  }

  /** Every one of the 16 pairs is a byte. */
  predicate AllPairsParse(s: string) {
    |s| == 32 && forall i :: 0 <= i < 16 ==> PairAt(s, i).Some?
  }

  function ParseTraceId(s: string): Result<TraceId, MappingError> {
    if AllPairsParse(s) then Ok(seq(16, i requires 0 <= i < 16 => PairAt(s, i).value)) else Err(InvalidTraceId)
  }

  /** `hex_to_trace_id`: accepted exactly when there are 32 characters and every pair parses, and
      then byte for byte what the pairs say. */
  method HexToTraceId(s: string) returns (r: Result<TraceId, MappingError>)
    ensures r.Ok? <==> |s| == 32 && forall i :: 0 <= i < 16 ==> PairAt(s, i).Some?
    ensures r.Ok? ==> forall i :: 0 <= i < 16 ==> PairAt(s, i) == Some(r.value[i])
    ensures r.Err? ==> r.error == InvalidTraceId
  {
    if |s| != 32 {
      return Err(InvalidTraceId);
    }
    var bytes: seq<u8> := [];
    for i := 0 to 16
      invariant |bytes| == i && forall j :: 0 <= j < i ==> PairAt(s, j) == Some(bytes[j])
    {
      var byte := PairAt(s, i);
      if byte.None? {
        return Err(InvalidTraceId);
      }
      bytes := bytes + [byte.value];
    }
    return Ok(bytes);
  }

  lemma TraceIdRoundTrip(id: TraceId)
    ensures ParseTraceId(HexOf(id)) == Ok(id) && HexOf(id) != []
  {
    HexPairs(id);
    assert AllPairsParse(HexOf(id));
    assert ParseTraceId(HexOf(id)).value == id;
  }

  // ── Encoding ─────────────────────────────────────────────────────────

  function ErrorTypeKey(e: ProviderError): string {
    match e
    case RateLimited(_) => "rate_limited"
    case InvalidRequest(_) => "invalid_request"
    case AuthFailed => "auth_failed"
    case ContextLengthExceeded(_) => "context_length_exceeded"
    case ContentFiltered(_) => "content_filtered"
    case UpstreamTimeout => "upstream_timeout"
    case UpstreamUnavailable => "upstream_unavailable"
    case Other(_, _) => "other"
  }

  /** The error's text is an object whose `t` is the variant's key. */
  lemma ErrorTextNamesKind(e: ProviderError)
    ensures ParseObject(EncodeError(e)).Some?
    ensures GetText(ParseObject(EncodeError(e)).value, "t") == Some(ErrorTypeKey(e))
  {
    ParsePrinted(FieldsOf(e));
    KindIsFirst(e, FieldsOf(e));
    FirstMember(FieldsOf(e), ErrorTypeKey(e));
  }

  lemma KindIsFirst(e: ProviderError, f: seq<Field>)
    requires f == FieldsOf(e)
    ensures f[0] == Field("t", Str(ErrorTypeKey(e))) && forall i :: 1 <= i < |f| ==> f[i].name != "t"
  {
  }

  function StringMember(members: seq<(string, JsonValue)>, name: string): string {
    if members == [] then ""
    else
      var (key, value) := members[|members| - 1];
      if key == name then (if value.JsonString? then value.s else "") else StringMember(members[..|members| - 1], name)
  }

  function Tag(metadata: Option<Json>, name: string): string {
    if metadata.Some? && metadata.value.JsonObject? then StringMember(metadata.value.members, name) else ""
  }

  function ErrorLabel(e: Option<ProviderError>): string {
    if e.Some? then EncodeError(e.value) else ""
  }

  function TraceLabel(id: Option<TraceId>): string {
    if id.Some? then HexOf(id.value) else ""
  }

  function TextOf<T(!new)>(codec: Codec<T>, x: Option<T>): string {
    if x.Some? then codec.text(x.value) else ""
  }

  function DimsOf(e: LlmEvent): Dims {
    [e.userId.UnwrapOr(""), e.apiKeyId.UnwrapOr(""), e.model, IdKey(e.provider), e.source.UnwrapOr(""),
     e.orgId.UnwrapOr(""), e.projectId.UnwrapOr(""), e.routeId, e.modelFamily.UnwrapOr(""), e.endpoint, e.tier,
     if e.error.Some? then ErrorTypeKey(e.error.value) else "",
     Tag(e.metadata, "user_tag"), Tag(e.metadata, "session_tag")]
  }

  function CountersOf(u: Usage, closeMs: Option<u32>, isError: bool): Counters {
    [u.inputTokens, u.outputTokens, u.cacheReadInputTokens, u.cacheCreationInputTokens, u.reasoningTokens,
     u.audioInputTokens, u.audioOutputTokens, u.imageTokens, u.videoSeconds, u.toolUseTokens, u.searchQueries,
     closeMs.UnwrapOr(0), if isError then 1 else 0]
  }

  function LabelsOf(codecs: Codecs, e: LlmEvent): Labels {
    [ErrorLabel(e.error), e.requestId.UnwrapOr(""), TraceLabel(e.traceId), TextOf(codecs.ip, e.clientIp),
     e.userAgent.UnwrapOr(""), TextOf(codecs.json, e.metadata), e.httpMethod, VariantLabel(e.provider)]
  }

  function Encode(codecs: Codecs, e: LlmEvent): Row {
    Row(codecs.id.text(e.id), e.tsNs, e.costNanodollars,
        CountersOf(e.usage, e.latency.timeToCloseMs, e.error.Some?),
        e.latency.totalMs, e.latency.ttftMs.UnwrapOr(0), e.httpStatus.UnwrapOr(0), RowFlags(e),
        DimsOf(e), LabelsOf(codecs, e))
  }

  function RowFlags(e: LlmEvent): bv16 {
    Packed(e.flags, e.latency.ttftMs.Some?, e.httpStatus.Some?, e.error.Some?, e.latency.timeToCloseMs.Some?)
  }

  // ── What each position holds ─────────────────────────────────────────

  /** The metadata is an object whose member `name` is the text `s`. */
  predicate HasText(metadata: Option<Json>, name: string, s: string) {
    metadata.Some? && metadata.value.JsonObject? && (name, JsonString(s)) in metadata.value.members
  }

  /** The text of that member, or empty if there is none. */
  ghost predicate IsTextOf(metadata: Option<Json>, name: string, s: string) {
    HasText(metadata, name, s) || (s == "" && forall t :: !HasText(metadata, name, t))
  }

  predicate IsError(e: LlmEvent, kind: ProviderError -> bool) {
    e.error.Some? && kind(e.error.value)
  }

  /** The error dimension names the variant, and is empty exactly without an error. */
  predicate NamesError(e: LlmEvent, key: string) {
    && (key == "" <==> e.error.None?)
    && (key == "rate_limited" <==> IsError(e, (x: ProviderError) => x.RateLimited?))
    && (key == "invalid_request" <==> IsError(e, (x: ProviderError) => x.InvalidRequest?))
    && (key == "auth_failed" <==> IsError(e, (x: ProviderError) => x.AuthFailed?))
    && (key == "context_length_exceeded" <==> IsError(e, (x: ProviderError) => x.ContextLengthExceeded?))
    && (key == "content_filtered" <==> IsError(e, (x: ProviderError) => x.ContentFiltered?))
    && (key == "upstream_timeout" <==> IsError(e, (x: ProviderError) => x.UpstreamTimeout?))
    && (key == "upstream_unavailable" <==> IsError(e, (x: ProviderError) => x.UpstreamUnavailable?))
    && (key == "other" <==> IsError(e, (x: ProviderError) => x.Other?))
  }

  /** The provider dimension names the provider. */
  predicate NamesProvider(p: Provider, key: string) {
    && (key == "openai" <==> p == OpenAI) && (key == "anthropic" <==> p == Anthropic)
    && (key == "gemini" <==> p == Gemini) && (key == "gemini_vertex" <==> p == GeminiVertex)
    && (key == "bedrock" <==> p == Bedrock) && (key == "azure_openai" <==> p == AzureOpenAI)
    && (key == "mistral" <==> p == Mistral) && (key == "groq" <==> p == Groq) && (key == "xai" <==> p == XAi)
    && (key == "deepseek" <==> p == DeepSeek) && (key == "cohere" <==> p == Cohere)
    && (key == "openrouter" <==> p == OpenRouter) && (key == "ollama" <==> p == Ollama)
    && (key == "opencode" <==> p == OpenCode) && (key == "opencode_zen" <==> p == OpenCodeZen)
    && (key == "openai_compatible" <==> p.OpenAICompatible?)
  }

  /** The dimensions that are texts of the event; an absent one is empty. */
  predicate TextDimsHold(e: LlmEvent, dims: Dims) {
    && dims[0] == e.userId.UnwrapOr("") && dims[1] == e.apiKeyId.UnwrapOr("") && dims[2] == e.model
    && dims[4] == e.source.UnwrapOr("") && dims[5] == e.orgId.UnwrapOr("") && dims[6] == e.projectId.UnwrapOr("")
    && dims[7] == e.routeId && dims[8] == e.modelFamily.UnwrapOr("") && dims[9] == e.endpoint && dims[10] == e.tier
  }

  /** The fourteen indexed dimensions, by position. */
  ghost predicate DimsHold(e: LlmEvent, dims: Dims) {
    && TextDimsHold(e, dims) && NamesProvider(e.provider, dims[3]) && NamesError(e, dims[11])
    && IsTextOf(e.metadata, "user_tag", dims[12]) && IsTextOf(e.metadata, "session_tag", dims[13])
  }

  /** The thirteen counters, by position. */
  predicate CountersHold(e: LlmEvent, counters: Counters) {
    && counters[0] == e.usage.inputTokens && counters[1] == e.usage.outputTokens
    && counters[2] == e.usage.cacheReadInputTokens && counters[3] == e.usage.cacheCreationInputTokens
    && counters[4] == e.usage.reasoningTokens && counters[5] == e.usage.audioInputTokens
    && counters[6] == e.usage.audioOutputTokens && counters[7] == e.usage.imageTokens
    && counters[8] == e.usage.videoSeconds && counters[9] == e.usage.toolUseTokens
    && counters[10] == e.usage.searchQueries
    && (if e.latency.timeToCloseMs.Some? then counters[11] == e.latency.timeToCloseMs.value else counters[11] == 0)
    && counters[12] <= 1 && (counters[12] == 1 <==> e.error.Some?)
  }

  predicate IsErrorText(e: Option<ProviderError>, text: string) {
    if e.Some? then DecodeError(text) == Ok(NormaliseError(e.value)) else text == ""
  }

  predicate IsTraceText(id: Option<TraceId>, text: string) {
    if id.Some? then ParseTraceId(text) == Ok(id.value) else text == ""
  }

  /** The labels that are texts of the event or of a library; that of an absent value is empty. */
  ghost predicate TextLabelsHold(codecs: Codecs, e: LlmEvent, labels: Labels) {
    && labels[1] == e.requestId.UnwrapOr("")
    && (if e.clientIp.Some? then labels[3] == codecs.ip.text(e.clientIp.value) else labels[3] == "")
    && labels[4] == e.userAgent.UnwrapOr("")
    && (if e.metadata.Some? then labels[5] == codecs.json.text(e.metadata.value) else labels[5] == "")
    && labels[6] == e.httpMethod
    && (if e.provider.OpenAICompatible? then labels[7] == e.provider.baseUrl else labels[7] == "")
  }

  /** The eight labels, by position. */
  ghost predicate LabelsHold(codecs: Codecs, e: LlmEvent, labels: Labels) {
    IsErrorText(e.error, labels[0]) && IsTraceText(e.traceId, labels[2]) && TextLabelsHold(codecs, e, labels)
  }

  /** The six kept event flags are the low bits, in their places; bits 8 to 11 say which optional
      fields are there. */
  predicate FlagsHold(e: LlmEvent, bits: bv16) {
    && (bits & 0x3F) as bv32 == e.flags & 0x3F
    && (bits & 0x100 != 0 <==> e.latency.ttftMs.Some?) && (bits & 0x200 != 0 <==> e.httpStatus.Some?)
    && (bits & 0x400 != 0 <==> e.error.Some?) && (bits & 0x800 != 0 <==> e.latency.timeToCloseMs.Some?)
  }

  /** The row, field by field. */
  ghost predicate IsRowOf(codecs: Codecs, e: LlmEvent, row: Row) {
    && row.id == codecs.id.text(e.id) && row.tsNs == e.tsNs && row.metric == e.costNanodollars
    && row.latencyMs == e.latency.totalMs
    && row.latencyDetailMs == e.latency.ttftMs.UnwrapOr(0) && row.status == e.httpStatus.UnwrapOr(0)
    && FlagsHold(e, row.flags) && DimsHold(e, row.dims) && CountersHold(e, row.counters)
    && LabelsHold(codecs, e, row.labels)
  }

  lemma {:induction false} StringMemberIsText(members: seq<(string, JsonValue)>, name: string)
    requires forall i, k :: 0 <= i < k < |members| ==> members[i].0 != members[k].0
    ensures var s := StringMember(members, name);
      (name, JsonString(s)) in members || (s == "" && forall t :: (name, JsonString(t)) !in members)
  {
    if members != [] {
      StringMemberIsText(members[..|members| - 1], name);
      assert members == members[..|members| - 1] + [members[|members| - 1]];
    }
  }

  lemma TagIsText(metadata: Option<Json>, name: string, s: string)
    requires s == Tag(metadata, name)
    ensures IsTextOf(metadata, name, s)
  {
    if metadata.Some? && metadata.value.JsonObject? {
      StringMemberIsText(metadata.value.members, name);
    }
  }

  lemma IdKeyNames(p: Provider, key: string)
    requires key == IdKey(p)
    ensures NamesProvider(p, key)
  {
  }

  lemma ErrorKeyNames(e: LlmEvent, key: string)
    requires key == if e.error.Some? then ErrorTypeKey(e.error.value) else ""
    ensures NamesError(e, key)
  {
  }

  lemma TextDimsLaidOut(e: LlmEvent)
    ensures TextDimsHold(e, DimsOf(e))
  {
  }

  lemma DimsLaidOut(e: LlmEvent)
    ensures DimsHold(e, DimsOf(e))
  {
    TextDimsLaidOut(e);
    TagIsText(e.metadata, "user_tag", DimsOf(e)[12]);
    TagIsText(e.metadata, "session_tag", DimsOf(e)[13]);
    IdKeyNames(e.provider, DimsOf(e)[3]);
    ErrorKeyNames(e, DimsOf(e)[11]);
  }

  lemma CountersLaidOut(e: LlmEvent)
    ensures CountersHold(e, CountersOf(e.usage, e.latency.timeToCloseMs, e.error.Some?))
  {
  }

  lemma TextLabelsLaidOut(codecs: Codecs, e: LlmEvent)
    ensures TextLabelsHold(codecs, e, LabelsOf(codecs, e))
  {
  }

  lemma CodedLabels(codecs: Codecs, e: LlmEvent)
    ensures LabelsOf(codecs, e)[0] == ErrorLabel(e.error) && LabelsOf(codecs, e)[2] == TraceLabel(e.traceId)
  {
  }

  lemma LabelsLaidOut(codecs: Codecs, e: LlmEvent)
    ensures LabelsHold(codecs, e, LabelsOf(codecs, e))
  {
    TextLabelsLaidOut(codecs, e);
    CodedLabels(codecs, e);
    ErrorTextLaidOut(e.error, LabelsOf(codecs, e)[0]);
    TraceTextLaidOut(e.traceId, LabelsOf(codecs, e)[2]);
  }

  lemma ErrorTextLaidOut(e: Option<ProviderError>, text: string)
    requires text == ErrorLabel(e)
    ensures IsErrorText(e, text)
  {
    if e.Some? { ErrorRoundTrip(e.value); }
  }

  lemma TraceTextLaidOut(id: Option<TraceId>, text: string)
    requires text == TraceLabel(id)
    ensures IsTraceText(id, text)
  {
    if id.Some? { TraceIdRoundTrip(id.value); }
  }

  lemma PackedBits(flags: bv32, ttft: bool, status: bool, error: bool, closeMs: bool)
    ensures var bits := Packed(flags, ttft, status, error, closeMs);
      && (bits & 0x3F) as bv32 == flags & 0x3F
      && (bits & 0x100 != 0 <==> ttft) && (bits & 0x200 != 0 <==> status)
      && (bits & 0x400 != 0 <==> error) && (bits & 0x800 != 0 <==> closeMs)
  {
  }

  lemma FlagsLaidOut(e: LlmEvent)
    ensures FlagsHold(e, RowFlags(e))
  {
    PackedBits(e.flags, e.latency.ttftMs.Some?, e.httpStatus.Some?, e.error.Some?, e.latency.timeToCloseMs.Some?);
  }

  lemma EncodeLaysOut(codecs: Codecs, e: LlmEvent)
    ensures IsRowOf(codecs, e, Encode(codecs, e))
  {
    FlagsLaidOut(e);
    DimsLaidOut(e);
    CountersLaidOut(e);
    LabelsLaidOut(codecs, e);
  }

  /** The dimensions, filled position by position. */
  method FillDims(e: LlmEvent) returns (dims: Dims)
    ensures dims == DimsOf(e)
  {
    dims := seq(D, i => "");
    dims := dims[DIM_USER_ID := e.userId.UnwrapOr("")];
    dims := dims[DIM_API_KEY_ID := e.apiKeyId.UnwrapOr("")];
    dims := dims[DIM_MODEL := e.model];
    dims := dims[DIM_PROVIDER := IdKey(e.provider)];
    dims := dims[DIM_SOURCE := e.source.UnwrapOr("")];
    dims := dims[DIM_ORG_ID := e.orgId.UnwrapOr("")];
    dims := dims[DIM_PROJECT_ID := e.projectId.UnwrapOr("")];
    dims := dims[DIM_ROUTE_ID := e.routeId];
    dims := dims[DIM_MODEL_FAMILY := e.modelFamily.UnwrapOr("")];
    dims := dims[DIM_ENDPOINT := e.endpoint];
    dims := dims[DIM_TIER := e.tier];
    dims := dims[DIM_ERROR_TYPE := if e.error.Some? then ErrorTypeKey(e.error.value) else ""];
    dims := dims[DIM_USER_TAG := Tag(e.metadata, "user_tag")];
    dims := dims[DIM_SESSION_TAG := Tag(e.metadata, "session_tag")];
  }

  method FillCounters(u: Usage, closeMs: Option<u32>, isError: bool) returns (counters: Counters)
    ensures counters == CountersOf(u, closeMs, isError)
  {
    counters := seq(C, i => 0);
    counters := counters[COUNTER_INPUT_TOKENS := u.inputTokens];
    counters := counters[COUNTER_OUTPUT_TOKENS := u.outputTokens];
    counters := counters[COUNTER_CACHE_READ := u.cacheReadInputTokens];
    counters := counters[COUNTER_CACHE_CREATION := u.cacheCreationInputTokens];
    counters := counters[COUNTER_REASONING := u.reasoningTokens];
    counters := counters[COUNTER_AUDIO_IN := u.audioInputTokens];
    counters := counters[COUNTER_AUDIO_OUT := u.audioOutputTokens];
    counters := counters[COUNTER_IMAGE := u.imageTokens];
    counters := counters[COUNTER_VIDEO_SECONDS := u.videoSeconds];
    counters := counters[COUNTER_TOOL_USE := u.toolUseTokens];
    counters := counters[COUNTER_SEARCH_QUERIES := u.searchQueries];
    counters := counters[COUNTER_CLOSE_MS := closeMs.UnwrapOr(0)];
    counters := counters[COUNTER_IS_ERROR := if isError then 1 else 0];
  }

  method TraceText(id: Option<TraceId>) returns (text: string)
    ensures text == TraceLabel(id)
  {
    text := "";
    if id.Some? {
      text := TraceIdToHex(id.value);
    }
  }

  method FillLabels(codecs: Codecs, e: LlmEvent) returns (labels: Labels)
    ensures labels == LabelsOf(codecs, e)
  {
    var trace := TraceText(e.traceId);
    labels := seq(L, i => "");
    labels := labels[LABEL_ERROR_JSON := ErrorLabel(e.error)];
    labels := labels[LABEL_REQUEST_ID := e.requestId.UnwrapOr("")];
    labels := labels[LABEL_TRACE_ID := trace];
    labels := labels[LABEL_CLIENT_IP := TextOf(codecs.ip, e.clientIp)];
    labels := labels[LABEL_USER_AGENT := e.userAgent.UnwrapOr("")];
    labels := labels[LABEL_METADATA_JSON := TextOf(codecs.json, e.metadata)];
    labels := labels[LABEL_METHOD := e.httpMethod];
    labels := labels[LABEL_PROVIDER_VARIANT := VariantLabel(e.provider)];
  }

  /** `to_log_event`. What it writes has every field in its place, and reads back as the event,
      normalised. */
  method ToLogEvent(codecs: Codecs, e: LlmEvent) returns (row: Row)
    requires codecs.Lawful()
    ensures row == Encode(codecs, e)
    ensures IsRowOf(codecs, e, row)
    ensures Decode(codecs, row) == Ok(Normalise(e))
  {
    var dims := FillDims(e);
    var counters := FillCounters(e.usage, e.latency.timeToCloseMs, e.error.Some?);
    var labels := FillLabels(codecs, e);
    var bits := PackFlags(e);
    row := Row(codecs.id.text(e.id), e.tsNs, e.costNanodollars, counters, e.latency.totalMs,
               e.latency.ttftMs.UnwrapOr(0), e.httpStatus.UnwrapOr(0), bits, dims, labels);
    RowRoundTrip(codecs, e);
    EncodeLaysOut(codecs, e);
  }

  // ── Decoding ─────────────────────────────────────────────────────────

  function NonEmpty(s: string): Option<string> {
    if s == "" then None else Some(s)
  }

  function DecodeErrorLabel(stored: string, hasError: bool): Result<Option<ProviderError>, MappingError> {
    if !hasError || stored == "" then Ok(None)
    else
      match DecodeError(stored)
      case Ok(e) => Ok(Some(e))
      case Err(reason) => Err(InvalidError(reason))
  }

  function DecodeTrace(stored: string): Result<Option<TraceId>, MappingError> {
    if stored == "" then Ok(None)
    else
      match ParseTraceId(stored)
      case Ok(id) => Ok(Some(id))
      case Err(error) => Err(error)
  }

  /** A label read back through a library parser; the empty label stands for no value. */
  function DecodeText<T(!new)>(codec: Codec<T>, stored: string, error: MappingError): Result<Option<T>, MappingError> {
    if stored == "" then Ok(None)
    else if codec.parse(stored).None? then Err(error)
    else Ok(Some(codec.parse(stored).value))
  }

  /** `Method::from_bytes`; the empty label stands for `POST`. */
  function DecodeMethod(stored: string): Result<HttpMethod, MappingError> {
    if stored == "" then Ok("POST") else if IsToken(stored) then Ok(stored) else Err(InvalidMethod)
  }

  function UsageOf(c: Counters): Usage {
    Usage(c[COUNTER_INPUT_TOKENS], c[COUNTER_OUTPUT_TOKENS], c[COUNTER_CACHE_READ], c[COUNTER_CACHE_CREATION],
          c[COUNTER_REASONING], c[COUNTER_AUDIO_IN], c[COUNTER_AUDIO_OUT], c[COUNTER_IMAGE],
          c[COUNTER_VIDEO_SECONDS], c[COUNTER_TOOL_USE], c[COUNTER_SEARCH_QUERIES])
  }

  function LatencyOf(r: Row): Latencies {
    Latencies(
      if r.flags & FLAG_HAS_TTFT != 0 then Some(r.latencyDetailMs) else None, r.latencyMs,
      if r.flags & FLAG_HAS_CLOSE_MS != 0 then Some(r.counters[COUNTER_CLOSE_MS]) else None)
  }

  /** `from_event_ref`: the first label that does not read back is the error. */
  function Decode(codecs: Codecs, r: Row): Result<LlmEvent, MappingError> {
    var id := codecs.id.parse(r.id);
    var error := DecodeErrorLabel(r.labels[LABEL_ERROR_JSON], r.flags & FLAG_HAS_ERROR != 0);
    var metadata := DecodeText(codecs.json, r.labels[LABEL_METADATA_JSON], InvalidMetadata);
    var trace := DecodeTrace(r.labels[LABEL_TRACE_ID]);
    var ip := DecodeText(codecs.ip, r.labels[LABEL_CLIENT_IP], InvalidIp);
    var verb := DecodeMethod(r.labels[LABEL_METHOD]);
    if id.None? then Err(InvalidEventId)
    else if error.Err? then Err(error.error)
    else if metadata.Err? then Err(metadata.error)
    else if trace.Err? then Err(trace.error)
    else if ip.Err? then Err(ip.error)
    else if verb.Err? then Err(verb.error)
    else Ok(Assemble(r, id.value, error.value, metadata.value, trace.value, ip.value, verb.value))
  }

  predicate Readable<T(!new)>(codec: Codec<T>, stored: string) {
    stored == "" || codec.parse(stored).Some?
  }

  /** A row reads back if and only if every text in it does; an empty one, and an error's without
      its flag, is not looked at. */
  lemma DecodeSucceedsIff(codecs: Codecs, r: Row)
    ensures Decode(codecs, r).Ok? <==>
      && codecs.id.parse(r.id).Some?
      && (r.flags & 0x400 != 0 && r.labels[0] != "" ==> DecodeError(r.labels[0]).Ok?)
      && (r.labels[2] == "" || (|r.labels[2]| == 32 && forall i :: 0 <= i < 16 ==> PairAt(r.labels[2], i).Some?))
      && Readable(codecs.ip, r.labels[3]) && Readable(codecs.json, r.labels[5])
      && (r.labels[6] == "" || IsToken(r.labels[6]))
    ensures Decode(codecs, r).Ok? && r.labels[6] == "" ==> Decode(codecs, r).value.httpMethod == "POST"
  {
  }

  /** Whatever key a row holds: it reads as the provider of that key or, when nobody has it, as a
      compatible provider of that name. */
  lemma EveryProviderKeyReads(key: string, base: string)
    ensures var p := ReadProvider(key, base);
      if p.OpenAICompatible? then p.baseUrl == (if key == "openai_compatible" then base else key) else IdKey(p) == key
  {
  }

  function Assemble(r: Row, id: EventId, error: Option<ProviderError>, metadata: Option<Json>, trace: Option<TraceId>,
                    ip: Option<IpAddr>, verb: HttpMethod): LlmEvent
  {
    LlmEvent(
      id, r.tsNs,
      NonEmpty(r.dims[DIM_USER_ID]), NonEmpty(r.dims[DIM_API_KEY_ID]),
      NonEmpty(r.dims[DIM_ORG_ID]), NonEmpty(r.dims[DIM_PROJECT_ID]),
      r.dims[DIM_ROUTE_ID], ReadProvider(r.dims[DIM_PROVIDER], r.labels[LABEL_PROVIDER_VARIANT]),
      r.dims[DIM_MODEL], NonEmpty(r.dims[DIM_MODEL_FAMILY]), r.dims[DIM_ENDPOINT], verb,
      if r.flags & FLAG_HAS_HTTP_STATUS != 0 then Some(r.status) else None,
      UsageOf(r.counters), r.metric, LatencyOf(r), UnpackFlags(r.flags),
      error, Zeros(32), Zeros(32),
      ip, NonEmpty(r.labels[LABEL_USER_AGENT]), NonEmpty(r.labels[LABEL_REQUEST_ID]),
      trace, NonEmpty(r.dims[DIM_SOURCE]), r.tsNs, metadata, r.dims[DIM_TIER])
  }

  // ── Round trip ───────────────────────────────────────────────────────

  function DropEmpty(s: Option<string>): Option<string> {
    if s == Some("") then None else s
  }

  /** What storage keeps of an event: everything but the body hashes, the receive time, unknown
      flags, the difference between an empty and an absent text, and fractions of a retry second. */
  function Normalise(e: LlmEvent): LlmEvent {
    e.(userId := DropEmpty(e.userId), apiKeyId := DropEmpty(e.apiKeyId), orgId := DropEmpty(e.orgId),
       projectId := DropEmpty(e.projectId), modelFamily := DropEmpty(e.modelFamily), userAgent := DropEmpty(e.userAgent),
       requestId := DropEmpty(e.requestId), source := DropEmpty(e.source), flags := e.flags & KEPT_FLAGS,
       error := if e.error.Some? then Some(NormaliseError(e.error.value)) else None,
       requestSha256 := Zeros(32), responseSha256 := Zeros(32), ingestedAt := e.tsNs)
  }

  /** What normalisation keeps as it is. */
  lemma NormalisationKeeps(e: LlmEvent)
    ensures var n := Normalise(e);
      && n.id == e.id && n.tsNs == e.tsNs && n.routeId == e.routeId && n.provider == e.provider && n.model == e.model
      && n.endpoint == e.endpoint && n.httpMethod == e.httpMethod && n.httpStatus == e.httpStatus && n.usage == e.usage
      && n.costNanodollars == e.costNanodollars && n.latency == e.latency && n.clientIp == e.clientIp
      && n.traceId == e.traceId && n.metadata == e.metadata && n.tier == e.tier && n.flags == e.flags & 0x3F
      && (e.error.None? <==> n.error.None?) && (e.error.Some? && !e.error.value.RateLimited? ==> n.error == e.error)
      && (e.userId != Some("") ==> n.userId == e.userId) && (e.apiKeyId != Some("") ==> n.apiKeyId == e.apiKeyId)
      && (e.orgId != Some("") ==> n.orgId == e.orgId) && (e.projectId != Some("") ==> n.projectId == e.projectId)
      && (e.modelFamily != Some("") ==> n.modelFamily == e.modelFamily)
      && (e.userAgent != Some("") ==> n.userAgent == e.userAgent)
      && (e.requestId != Some("") ==> n.requestId == e.requestId) && (e.source != Some("") ==> n.source == e.source)
  {
  }

  lemma ErrorLabelRoundTrip(e: Option<ProviderError>)
    ensures DecodeErrorLabel(ErrorLabel(e), e.Some?) == Ok(if e.Some? then Some(NormaliseError(e.value)) else None)
  {
    if e.Some? { ErrorRoundTrip(e.value); }
  }

  lemma TraceLabelRoundTrip(id: Option<TraceId>)
    ensures DecodeTrace(TraceLabel(id)) == Ok(id)
  {
    if id.Some? { TraceIdRoundTrip(id.value); }
  }

  lemma TextRoundTrip<T(!new)>(codec: Codec<T>, x: Option<T>, error: MappingError)
    requires codec.Lawful()
    ensures DecodeText(codec, TextOf(codec, x), error) == Ok(x)
  {
  }

  lemma LatencyRoundTrip(codecs: Codecs, e: LlmEvent)
    ensures var r := Encode(codecs, e);
      && LatencyOf(r) == e.latency && UnpackFlags(r.flags) == e.flags & KEPT_FLAGS
      && (r.flags & FLAG_HAS_ERROR != 0 <==> e.error.Some?)
      && (if r.flags & FLAG_HAS_HTTP_STATUS != 0 then Some(r.status) else None) == e.httpStatus
  {
  }

  lemma UsageRoundTrip(u: Usage, closeMs: Option<u32>, isError: bool)
    ensures UsageOf(CountersOf(u, closeMs, isError)) == u
  {
  }

  lemma AssembleRoundTrip(codecs: Codecs, e: LlmEvent)
    ensures var n := Normalise(e);
      Assemble(Encode(codecs, e), n.id, n.error, n.metadata, n.traceId, n.clientIp, n.httpMethod) == n
  {
    LatencyRoundTrip(codecs, e);
    ProviderRoundTrip(e.provider);
    UsageRoundTrip(e.usage, e.latency.timeToCloseMs, e.error.Some?);
  }

  /** Decoding an encoded event gives the event back, normalised, for every event. */
  lemma RowRoundTrip(codecs: Codecs, e: LlmEvent)
    requires codecs.Lawful()
    ensures Decode(codecs, Encode(codecs, e)) == Ok(Normalise(e))
  {
    ErrorLabelRoundTrip(e.error);
    TraceLabelRoundTrip(e.traceId);
    TextRoundTrip(codecs.json, e.metadata, InvalidMetadata);
    TextRoundTrip(codecs.ip, e.clientIp, InvalidIp);
    LatencyRoundTrip(codecs, e);
    AssembleRoundTrip(codecs, e);
  }

  // ── What is lost, exactly ────────────────────────────────────────────

  lemma FlagsNormalised(e: LlmEvent)
    ensures RowFlags(Normalise(e)) == RowFlags(e)
  {
  }

  lemma DimsNormalised(e: LlmEvent)
    ensures DimsOf(Normalise(e)) == DimsOf(e)
  {
  }

  lemma LabelsNormalised(codecs: Codecs, e: LlmEvent)
    ensures LabelsOf(codecs, Normalise(e)) == LabelsOf(codecs, e)
  {
  }

  /** Storing what was read back writes the same row again. */
  lemma EncodeNormalised(codecs: Codecs, e: LlmEvent)
    ensures Encode(codecs, Normalise(e)) == Encode(codecs, e)
  {
    FlagsNormalised(e);
    DimsNormalised(e);
    LabelsNormalised(codecs, e);
  }

  /** Two events share a row exactly when they differ only in what normalisation drops. */
  lemma SameRowIffSameNormalForm(codecs: Codecs, a: LlmEvent, b: LlmEvent)
    requires codecs.Lawful()
    ensures Encode(codecs, a) == Encode(codecs, b) <==> Normalise(a) == Normalise(b)
  {
    RowRoundTrip(codecs, a);
    RowRoundTrip(codecs, b);
    EncodeNormalised(codecs, a);
    EncodeNormalised(codecs, b);
  }
}

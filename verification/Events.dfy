/** The canonical ingested event record (crates/keplor-core/src/event.rs) and the
    value types it embeds. */
module Events {
  import opened Wrappers
  import opened MachineInts

  /** A ULID; the source never looks inside it. */
  datatype EventId = EventId(ulid: u128)

  type Tier = string

  datatype Provider =
    | OpenAI | Anthropic | Gemini | GeminiVertex | Bedrock | AzureOpenAI | Mistral | Groq | XAi
    | DeepSeek | Cohere | OpenRouter | Ollama | OpenCode | OpenCodeZen
    | OpenAICompatible(baseUrl: string)

  datatype Usage = Usage(
    inputTokens: u32, outputTokens: u32, cacheReadInputTokens: u32, cacheCreationInputTokens: u32,
    reasoningTokens: u32, audioInputTokens: u32, audioOutputTokens: u32, imageTokens: u32,
    videoSeconds: u32, toolUseTokens: u32, searchQueries: u32)

  datatype Latencies = Latencies(ttftMs: Option<u32>, totalMs: u32, timeToCloseMs: Option<u32>)

  /** `std::time::Duration`: whole seconds and the sub-second nanoseconds. */
  datatype Duration = Duration(secs: u64, nanos: u32)

  datatype ProviderError =
    | RateLimited(retryAfter: Option<Duration>)
    | InvalidRequest(message: string)
    | AuthFailed
    | ContextLengthExceeded(limit: u32)
    | ContentFiltered(reason: string)
    | UpstreamTimeout
    | UpstreamUnavailable
    | Other(status: u16, detail: string)

  function Zeros(n: nat): seq<u8> {
    seq(n, i => 0)
  }

  type TraceId = s: seq<u8> | |s| == 16 witness Zeros(16)
  type Sha256 = s: seq<u8> | |s| == 32 witness Zeros(32)

  /** A method name: a token of section 5.6.2 of RFC 9110. */
  type HttpMethod = s: string | IsToken(s) witness "POST"

  predicate IsToken(s: string) {
    s != "" && forall i :: 0 <= i < |s| ==> IsTokenChar(s[i])
  }

  predicate IsTokenChar(c: char) {
    'a' <= c <= 'z' || 'A' <= c <= 'Z' || '0' <= c <= '9' || c in "!#$%&'*+-.^_`|~"
  }

  type Octets4 = s: seq<u8> | |s| == 4 witness Zeros(4)
  type Octets16 = s: seq<u8> | |s| == 16 witness Zeros(16)

  datatype IpAddr = V4(four: Octets4) | V6(sixteen: Octets16)

  /** A JSON document: integers of 64 bits, finite doubles by their bits, objects without repeated
      names. */
  datatype JsonValue = JsonNull | JsonBool(b: bool) | JsonInt(n: int) | JsonFloat(bits: u64) | JsonString(s: string)
                     | JsonArray(items: seq<JsonValue>) | JsonObject(members: seq<(string, JsonValue)>)

  type Json = j: JsonValue | IsJson(j) witness JsonNull

  predicate IsJson(j: JsonValue) {
    match j
    case JsonInt(n) => I64_MIN <= n <= U64_MAX
    case JsonFloat(bits) => bits / 0x10_0000_0000_0000 % 2048 != 2047
    case JsonArray(items) => forall i :: 0 <= i < |items| ==> IsJson(items[i])
    case JsonObject(members) =>
      && (forall i, k :: 0 <= i < k < |members| ==> members[i].0 != members[k].0)
      && forall i :: 0 <= i < |members| ==> IsJson(members[i].1)
    case _ => true
  }

  datatype LlmEvent = LlmEvent(
    id: EventId, tsNs: i64,
    userId: Option<string>, apiKeyId: Option<string>, orgId: Option<string>, projectId: Option<string>,
    routeId: string, provider: Provider, model: string, modelFamily: Option<string>,
    endpoint: string, httpMethod: HttpMethod, httpStatus: Option<u16>,
    usage: Usage, costNanodollars: i64, latency: Latencies, flags: bv32,
    error: Option<ProviderError>, requestSha256: Sha256, responseSha256: Sha256,
    clientIp: Option<IpAddr>, userAgent: Option<string>, requestId: Option<string>,
    traceId: Option<TraceId>, source: Option<string>, ingestedAt: i64, metadata: Option<Json>,
    tier: Tier)
}

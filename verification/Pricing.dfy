/** Cost of a request (crates/keplor-pricing/src/compute.rs) and the merging of usage counters
    (crates/keplor-core/src/usage.rs). */
module Pricing {
  import opened Wrappers
  import opened MachineInts
  import opened Events
  import opened Money

  datatype ModelPricing = ModelPricing(
    inputCostPerToken: i64, outputCostPerToken: i64,
    cacheRead: Option<i64>, cacheCreation: Option<i64>,
    cacheCreationAbove1hr: Option<i64>, cacheCreationAbove200k: Option<i64>,
    outputPerReasoningToken: Option<i64>, inputPerAudioToken: Option<i64>, inputPerVideoSecond: Option<i64>,
    inputBatches: Option<i64>, outputBatches: Option<i64>, searchPerQuery: Option<i64>,
    inputAbove200k: Option<i64>, outputAbove200k: Option<i64>, cacheReadAbove200k: Option<i64>)

  datatype CacheTtl = Minutes5 | Hours1
  datatype ContextBucket = Standard | Above200k
  datatype CostOpts = CostOpts(isBatch: bool, cacheTtl: CacheTtl, contextBucket: ContextBucket)

  function PickInputRate(p: ModelPricing, opts: CostOpts): i64 {
    if opts.isBatch && p.inputBatches.Some? then p.inputBatches.value
    else if opts.contextBucket.Above200k? && p.inputAbove200k.Some? then p.inputAbove200k.value
    else p.inputCostPerToken
  }

  function PickOutputRate(p: ModelPricing, opts: CostOpts): i64 {
    if opts.isBatch && p.outputBatches.Some? then p.outputBatches.value
    else if opts.contextBucket.Above200k? && p.outputAbove200k.Some? then p.outputAbove200k.value
    else p.outputCostPerToken
  }

  function PickCacheReadRate(p: ModelPricing, opts: CostOpts): i64 {
    if opts.contextBucket.Above200k? && p.cacheReadAbove200k.Some? then p.cacheReadAbove200k.value
    else p.cacheRead.UnwrapOr(p.inputCostPerToken)
  }

  function PickCacheCreateRate(p: ModelPricing, opts: CostOpts): i64 {
    if opts.contextBucket.Above200k? && p.cacheCreationAbove200k.Some? then p.cacheCreationAbove200k.value
    else if opts.cacheTtl.Hours1? && p.cacheCreationAbove1hr.Some? then p.cacheCreationAbove1hr.value
    else p.cacheCreation.UnwrapOr(p.inputCostPerToken)
  }

  function MulTokens(tokens: u32, nanosPerToken: i64): i64 {
    Clamp64(tokens * nanosPerToken)
  }

  // ── The exact bill ───────────────────────────────────────────────────

  /** What a request is billed for. */
  datatype Dim = Prompt | CacheRead | CacheWrite | Output | Reasoning | Audio | Video | Search

  const DIMS: seq<Dim> := [Prompt, CacheRead, CacheWrite, Output, Reasoning, Audio, Video, Search]

  type Rates = Dim -> int
  type Quantities = Dim -> nat

  /** Providers whose `input_tokens` exclude the cached ones. */
  predicate CacheIsExtra(provider: Provider) {
    provider.Anthropic? || provider.Bedrock?
  }

  /** The rate of each dimension; one the model does not bill costs nothing. */
  function RatesFor(provider: Provider, p: ModelPricing, opts: CostOpts): Rates {
    (d: Dim) => match d
      case Prompt => PickInputRate(p, opts)
      case CacheRead =>
        if CacheIsExtra(provider) then PickCacheReadRate(p, opts) else p.cacheRead.UnwrapOr(PickInputRate(p, opts))
      case CacheWrite =>
        if CacheIsExtra(provider) then PickCacheCreateRate(p, opts) else p.cacheCreation.UnwrapOr(0)
      case Output => PickOutputRate(p, opts)
      case Reasoning => p.outputPerReasoningToken.UnwrapOr(PickOutputRate(p, opts))
      case Audio => p.inputPerAudioToken.UnwrapOr(0)
      case Video => p.inputPerVideoSecond.UnwrapOr(0)
      case Search => p.searchPerQuery.UnwrapOr(0)
  }

  /** Prompt tokens billed at the input rate. */
  function Uncached(provider: Provider, u: Usage): u32 {
    if CacheIsExtra(provider) then u.inputTokens else Max(0, u.inputTokens - u.cacheReadInputTokens)
  }

  function QuantitiesOf(provider: Provider, u: Usage): Quantities {
    (d: Dim) => match d
      case Prompt => Uncached(provider, u)
      case CacheRead => u.cacheReadInputTokens
      case CacheWrite => u.cacheCreationInputTokens
      case Output => u.outputTokens
      case Reasoning => u.reasoningTokens
      case Audio => u.audioInputTokens
      case Video => u.videoSeconds
      case Search => u.searchQueries
  }

  predicate NonNegative(rates: Rates) {
    forall d :: rates(d) >= 0
  }

  /** The linear bill over the first `n` dimensions, without any machine-integer limit. */
  function Linear(q: Quantities, rates: Rates, n: nat): int
    requires n <= 8
  {
    if n == 0 then 0 else Linear(q, rates, n - 1) + q(DIMS[n - 1]) * rates(DIMS[n - 1])
  }

  /** The same bill added up by a saturating accumulator. */
  function Saturating(q: Quantities, rates: Rates, n: nat): i64
    requires n <= 8
  {
    if n == 0 then 0 else Plus(Saturating(q, rates, n - 1), q(DIMS[n - 1]) * rates(DIMS[n - 1]))
  }

  /** At non-negative rates saturation is a cap on the exact bill. */
  lemma {:induction false} SaturatingIsCapped(q: Quantities, rates: Rates, n: nat)
    requires n <= 8 && NonNegative(rates)
    ensures Linear(q, rates, n) >= 0
    ensures Saturating(q, rates, n) == Min(I64_MAX, Linear(q, rates, n))
  {
    if n > 0 {
      SaturatingIsCapped(q, rates, n - 1);
      ProductIsNonNegative(q(DIMS[n - 1]), rates(DIMS[n - 1]));
    }
  }

  lemma ProductIsNonNegative(a: int, b: int)
    requires a >= 0 && b >= 0
    ensures a * b >= 0
  {
  }

  function ExactBill(provider: Provider, rates: Rates, u: Usage): int {
    Linear(QuantitiesOf(provider, u), rates, 8)
  }

  /** `total = total.saturating_add(mul_tokens(tokens, rate))`. */
  method AddCharge(total: i64, tokens: u32, rate: i64, ghost q: Quantities, ghost rates: Rates, ghost n: nat)
    returns (total': i64)
    requires n < 8 && total == Saturating(q, rates, n) && q(DIMS[n]) == tokens && rates(DIMS[n]) == rate
    ensures total' == Saturating(q, rates, n + 1)
  {
    total' := Add(total, MulTokens(tokens, rate));
  }

  /** The same for a dimension the model may not bill. */
  method AddOptional(total: i64, tokens: u32, rate: Option<i64>, ghost q: Quantities, ghost rates: Rates, ghost n: nat)
    returns (total': i64)
    requires n < 8 && total == Saturating(q, rates, n) && q(DIMS[n]) == tokens && rates(DIMS[n]) == rate.UnwrapOr(0)
    ensures total' == Saturating(q, rates, n + 1)
  {
    total' := total;
    if rate.Some? {
      total' := AddCharge(total, tokens, rate.value, q, rates, n);
    }
  }

  /** The input-billing match of `compute_cost`. */
  method BillInput(provider: Provider, p: ModelPricing, u: Usage, opts: CostOpts) returns (total: i64)
    ensures total == Saturating(QuantitiesOf(provider, u), RatesFor(provider, p, opts), 3)
  {
    ghost var q, rates := QuantitiesOf(provider, u), RatesFor(provider, p, opts);
    var inputRate := PickInputRate(p, opts);
    total := 0;
    if provider.Anthropic? || provider.Bedrock? {
      total := AddCharge(total, u.inputTokens, inputRate, q, rates, 0);
      total := AddCharge(total, u.cacheReadInputTokens, PickCacheReadRate(p, opts), q, rates, 1);
      total := AddCharge(total, u.cacheCreationInputTokens, PickCacheCreateRate(p, opts), q, rates, 2);
    } else {
      var uncached := if u.inputTokens >= u.cacheReadInputTokens then u.inputTokens - u.cacheReadInputTokens else 0;
      total := AddCharge(total, uncached, inputRate, q, rates, 0);
      total := AddCharge(total, u.cacheReadInputTokens, p.cacheRead.UnwrapOr(inputRate), q, rates, 1);
      total := AddOptional(total, u.cacheCreationInputTokens, p.cacheCreation, q, rates, 2);
    }
  }

  /** `compute_cost` for a model without a geo multiplier: the charges added up in order, which at
      non-negative rates is the exact linear bill, capped. */
  method ComputeCost(provider: Provider, p: ModelPricing, u: Usage, opts: CostOpts) returns (cost: i64)
    ensures cost == Saturating(QuantitiesOf(provider, u), RatesFor(provider, p, opts), 8)
    ensures NonNegative(RatesFor(provider, p, opts)) ==> cost == Min(I64_MAX, Bill(provider, p, opts, u))
    ensures PricesAreNonNegative(p) ==> cost == Min(I64_MAX, Bill(provider, p, opts, u))
  {
    ghost var q, rates := QuantitiesOf(provider, u), RatesFor(provider, p, opts);
    var outputRate := PickOutputRate(p, opts);
    var total := BillInput(provider, p, u, opts);
    total := AddCharge(total, u.outputTokens, outputRate, q, rates, 3);
    var reasoningRate := p.outputPerReasoningToken.UnwrapOr(outputRate);
    total := AddCharge(total, u.reasoningTokens, reasoningRate, q, rates, 4);
    total := AddOptional(total, u.audioInputTokens, p.inputPerAudioToken, q, rates, 5);
    total := AddOptional(total, u.videoSeconds, p.inputPerVideoSecond, q, rates, 6);
    total := AddOptional(total, u.searchQueries, p.searchPerQuery, q, rates, 7);
    cost := total;
    CostIsCappedBill(provider, p, opts, u);
  }

  lemma CostIsCappedBill(provider: Provider, p: ModelPricing, opts: CostOpts, u: Usage)
    ensures PricesAreNonNegative(p) ==> NonNegative(RatesFor(provider, p, opts))
    ensures NonNegative(RatesFor(provider, p, opts)) ==>
      Saturating(QuantitiesOf(provider, u), RatesFor(provider, p, opts), 8) == Min(I64_MAX, Bill(provider, p, opts, u))
  {
    if PricesAreNonNegative(p) { NonNegativeRates(provider, p, opts); }
    if NonNegative(RatesFor(provider, p, opts)) {
      SaturatingIsCapped(QuantitiesOf(provider, u), RatesFor(provider, p, opts), 8);
    }
  }

  /** The exact bill of a model. */
  function Bill(provider: Provider, p: ModelPricing, opts: CostOpts, u: Usage): int {
    ExactBill(provider, RatesFor(provider, p, opts), u)
  }

  predicate NoneOrNonNegative(price: Option<i64>) {
    price.Some? ==> price.value >= 0
  }

  predicate PricesAreNonNegative(p: ModelPricing) {
    && p.inputCostPerToken >= 0 && p.outputCostPerToken >= 0
    && NoneOrNonNegative(p.cacheRead) && NoneOrNonNegative(p.cacheCreation)
    && NoneOrNonNegative(p.cacheCreationAbove1hr) && NoneOrNonNegative(p.cacheCreationAbove200k)
    && NoneOrNonNegative(p.outputPerReasoningToken) && NoneOrNonNegative(p.inputPerAudioToken)
    && NoneOrNonNegative(p.inputPerVideoSecond) && NoneOrNonNegative(p.inputBatches)
    && NoneOrNonNegative(p.outputBatches) && NoneOrNonNegative(p.searchPerQuery)
    && NoneOrNonNegative(p.inputAbove200k) && NoneOrNonNegative(p.outputAbove200k)
    && NoneOrNonNegative(p.cacheReadAbove200k)
  }

  lemma NonNegativeRates(provider: Provider, p: ModelPricing, opts: CostOpts)
    requires PricesAreNonNegative(p)
    ensures NonNegative(RatesFor(provider, p, opts))
  {
  }

  /** What `compute_cost` returns at non-negative rates. */
  function CostOf(provider: Provider, rates: Rates, u: Usage): i64
    requires NonNegative(rates)
  {
    SaturatingIsCapped(QuantitiesOf(provider, u), rates, 8);
    Min(I64_MAX, ExactBill(provider, rates, u))
  }

  // ── What the choices of rates amount to ──────────────────────────────

  function Position(d: Dim): (i: nat)
    ensures i < 8 && DIMS[i] == d && forall j :: 0 <= j < 8 && j != i ==> DIMS[j] != d
  {
    match d
    case Prompt => 0
    case CacheRead => 1
    case CacheWrite => 2
    case Output => 3
    case Reasoning => 4
    case Audio => 5
    case Video => 6
    case Search => 7
  }

  /** Two bills that differ in one dimension only differ by that dimension's charge. */
  lemma {:induction false} DiffersInOne(q: Quantities, q': Quantities, rates: Rates, rates': Rates, d: Dim, n: nat)
    requires n <= 8 && forall x :: x != d ==> q(x) == q'(x) && rates(x) == rates'(x)
    ensures Linear(q', rates', n) - Linear(q, rates, n) ==
      if n > Position(d) then q'(d) * rates'(d) - q(d) * rates(d) else 0
  {
    if n > 0 {
      DiffersInOne(q, q', rates, rates', d, n - 1);
    }
  }

  function Replaced(q: Quantities, d: Dim, n: nat): Quantities {
    (x: Dim) => if x == d then n else q(x)
  }

  /** Changing two dimensions changes the bill by both charges. */
  lemma DiffersInTwo(q: Quantities, q': Quantities, rates: Rates, d: Dim, e: Dim)
    requires d != e && forall x :: x != d && x != e ==> q(x) == q'(x)
    ensures Linear(q', rates, 8) - Linear(q, rates, 8) ==
      q'(d) * rates(d) - q(d) * rates(d) + (q'(e) * rates(e) - q(e) * rates(e))
  {
    var between := Replaced(q, d, q'(d));
    DiffersInOne(q, between, rates, rates, d, 8);
    DiffersInOne(between, q', rates, rates, e, 8);
  }

  // ── The price of one more unit ───────────────────────────────────────

  /** The counters a provider reports. */
  datatype UsageCounter =
    | InputTokens | OutputTokens | CacheReadTokens | CacheCreationTokens | ReasoningTokens | AudioInputTokens
    | AudioOutputTokens | ImageTokens | VideoSeconds | ToolUseTokens | SearchQueries

  function At(u: Usage, k: UsageCounter): u32 {
    match k
    case InputTokens => u.inputTokens
    case OutputTokens => u.outputTokens
    case CacheReadTokens => u.cacheReadInputTokens
    case CacheCreationTokens => u.cacheCreationInputTokens
    case ReasoningTokens => u.reasoningTokens
    case AudioInputTokens => u.audioInputTokens
    case AudioOutputTokens => u.audioOutputTokens
    case ImageTokens => u.imageTokens
    case VideoSeconds => u.videoSeconds
    case ToolUseTokens => u.toolUseTokens
    case SearchQueries => u.searchQueries
  }

  /** A price that applies under a condition only. */
  function When(applies: bool, price: Option<i64>): Option<i64> {
    if applies then price else None
  }

  function InputPrice(p: ModelPricing, opts: CostOpts): i64 {
    When(opts.isBatch, p.inputBatches).UnwrapOr(
      When(opts.contextBucket == Above200k, p.inputAbove200k).UnwrapOr(p.inputCostPerToken))
  }

  function OutputPrice(p: ModelPricing, opts: CostOpts): i64 {
    When(opts.isBatch, p.outputBatches).UnwrapOr(
      When(opts.contextBucket == Above200k, p.outputAbove200k).UnwrapOr(p.outputCostPerToken))
  }

  /** The price list: what one more unit of a counter adds to the bill. Each list of prices is in order
      of precedence. Anthropic and Bedrock report cached tokens apart; for the others a cached read
      is one of the input tokens, and takes the input price of it away. */
  function UnitPrice(provider: Provider, p: ModelPricing, opts: CostOpts, u: Usage, k: UsageCounter): int {
    var apart := provider == Anthropic || provider == Bedrock;
    var above200k, anHour := opts.contextBucket == Above200k, opts.cacheTtl == Hours1;
    match k
    case InputTokens => if apart || u.cacheReadInputTokens <= u.inputTokens then InputPrice(p, opts) else 0
    case CacheReadTokens =>
      if apart then When(above200k, p.cacheReadAbove200k).UnwrapOr(p.cacheRead.UnwrapOr(p.inputCostPerToken))
      else p.cacheRead.UnwrapOr(InputPrice(p, opts))
           - (if u.cacheReadInputTokens < u.inputTokens then InputPrice(p, opts) else 0)
    case CacheCreationTokens =>
      if apart then
        When(above200k, p.cacheCreationAbove200k).UnwrapOr(
          When(anHour, p.cacheCreationAbove1hr).UnwrapOr(p.cacheCreation.UnwrapOr(p.inputCostPerToken)))
      else p.cacheCreation.UnwrapOr(0)
    case OutputTokens => OutputPrice(p, opts)
    case ReasoningTokens => p.outputPerReasoningToken.UnwrapOr(OutputPrice(p, opts))
    case AudioInputTokens => p.inputPerAudioToken.UnwrapOr(0)
    case VideoSeconds => p.inputPerVideoSecond.UnwrapOr(0)
    case SearchQueries => p.searchPerQuery.UnwrapOr(0)
    case AudioOutputTokens => 0
    case ImageTokens => 0
    case ToolUseTokens => 0
  }

  predicate IsOneMore(u: Usage, more: Usage, k: UsageCounter) {
    forall x :: At(more, x) == At(u, x) + (if x == k then 1 else 0)
  }

  /** The dimension a counter is billed in, if it is. */
  function DimOf(k: UsageCounter): Option<Dim> {
    match k
    case InputTokens => Some(Prompt)
    case OutputTokens => Some(Output)
    case CacheReadTokens => Some(CacheRead)
    case CacheCreationTokens => Some(CacheWrite)
    case ReasoningTokens => Some(Reasoning)
    case AudioInputTokens => Some(Audio)
    case VideoSeconds => Some(Video)
    case SearchQueries => Some(Search)
    case AudioOutputTokens => None
    case ImageTokens => None
    case ToolUseTokens => None
  }

  lemma SameCountersSameUsage(u: Usage, v: Usage)
    requires forall k :: At(u, k) == At(v, k)
    ensures u == v
  {
    assert At(u, InputTokens) == At(v, InputTokens) && At(u, OutputTokens) == At(v, OutputTokens);
    assert At(u, CacheReadTokens) == At(v, CacheReadTokens) && At(u, CacheCreationTokens) == At(v, CacheCreationTokens);
    assert At(u, ReasoningTokens) == At(v, ReasoningTokens) && At(u, AudioInputTokens) == At(v, AudioInputTokens);
    assert At(u, AudioOutputTokens) == At(v, AudioOutputTokens) && At(u, ImageTokens) == At(v, ImageTokens);
    assert At(u, VideoSeconds) == At(v, VideoSeconds) && At(u, ToolUseTokens) == At(v, ToolUseTokens);
    assert At(u, SearchQueries) == At(v, SearchQueries);
  }

  /** A billed counter that is no input counter is its dimension's quantity. */
  lemma QuantityAt(provider: Provider, u: Usage, k: UsageCounter)
    requires k != InputTokens && DimOf(k).Some?
    ensures QuantitiesOf(provider, u)(DimOf(k).value) == At(u, k)
  {
  }

  lemma DimHasCounter(d: Dim) returns (k: UsageCounter)
    ensures DimOf(k) == Some(d)
    ensures forall x :: DimOf(x) == Some(d) ==> x == k
  {
    k := match d
      case Prompt => InputTokens
      case CacheRead => CacheReadTokens
      case CacheWrite => CacheCreationTokens
      case Output => OutputTokens
      case Reasoning => ReasoningTokens
      case Audio => AudioInputTokens
      case Video => VideoSeconds
      case Search => SearchQueries;
  }

  /** One more unit of a counter that is no input counter moves at most its own dimension. */
  lemma OneMoreQuantity(provider: Provider, u: Usage, more: Usage, k: UsageCounter, d: Dim)
    requires IsOneMore(u, more, k) && k != CacheReadTokens && k != InputTokens
    ensures QuantitiesOf(provider, more)(d) == QuantitiesOf(provider, u)(d) + (if DimOf(k) == Some(d) then 1 else 0)
  {
    if d == Prompt {
      assert At(more, InputTokens) == At(u, InputTokens) && At(more, CacheReadTokens) == At(u, CacheReadTokens);
    } else {
      var x := DimHasCounter(d);
      QuantityAt(provider, u, x);
      QuantityAt(provider, more, x);
      assert At(more, x) == At(u, x) + (if x == k then 1 else 0);
    }
  }

  lemma OneMoreQuantities(provider: Provider, u: Usage, more: Usage, k: UsageCounter)
    requires IsOneMore(u, more, k) && k != CacheReadTokens && k != InputTokens
    ensures var q, q' := QuantitiesOf(provider, u), QuantitiesOf(provider, more);
      forall d :: q'(d) == q(d) + (if DimOf(k) == Some(d) then 1 else 0)
  {
    forall d
      ensures QuantitiesOf(provider, more)(d) == QuantitiesOf(provider, u)(d) + (if DimOf(k) == Some(d) then 1 else 0)
    {
      OneMoreQuantity(provider, u, more, k, d);
    }
  }

  lemma OneMoreInput(provider: Provider, u: Usage, more: Usage)
    requires u.inputTokens < U32_MAX && more == u.(inputTokens := u.inputTokens + 1)
    ensures var q, q' := QuantitiesOf(provider, u), QuantitiesOf(provider, more);
      && q'(Prompt) == q(Prompt) + (if CacheIsExtra(provider) || u.cacheReadInputTokens <= u.inputTokens then 1 else 0)
      && forall d :: d != Prompt ==> q'(d) == q(d)
  {
  }

  lemma RatesAreUnitPrices(provider: Provider, p: ModelPricing, opts: CostOpts, u: Usage, k: UsageCounter)
    requires k != CacheReadTokens && k != InputTokens
    ensures UnitPrice(provider, p, opts, u, k) ==
      if DimOf(k).Some? then RatesFor(provider, p, opts)(DimOf(k).value) else 0
  {
  }

  lemma InputRatesAreUnitPrices(provider: Provider, p: ModelPricing, opts: CostOpts, u: Usage)
    ensures var rates := RatesFor(provider, p, opts);
      && UnitPrice(provider, p, opts, u, InputTokens) ==
           (if CacheIsExtra(provider) || u.cacheReadInputTokens <= u.inputTokens then rates(Prompt) else 0)
      && UnitPrice(provider, p, opts, u, CacheReadTokens) ==
           rates(CacheRead)
           - (if !CacheIsExtra(provider) && u.cacheReadInputTokens < u.inputTokens then rates(Prompt) else 0)
  {
  }

  lemma UnitsMoved(q: Quantities, q': Quantities, rates: Rates, d: Dim, units: nat)
    requires units <= 1 && q'(d) == q(d) + units && forall x :: x != d ==> q'(x) == q(x)
    ensures Linear(q', rates, 8) - Linear(q, rates, 8) == if units == 1 then rates(d) else 0
  {
    DiffersInOne(q, q', rates, rates, d, 8);
    UnitCharge(q(d), q'(d), rates(d), units);
  }

  lemma UnitCharge(n: int, n': int, rate: int, units: nat)
    requires units <= 1 && n' == n + units
    ensures n' * rate - n * rate == if units == 1 then rate else 0
  {
  }

  lemma {:induction false} SameQuantities(q: Quantities, q': Quantities, rates: Rates, n: nat)
    requires n <= 8 && forall d :: q(d) == q'(d)
    ensures Linear(q, rates, n) == Linear(q', rates, n)
  {
    if n > 0 { SameQuantities(q, q', rates, n - 1); }
  }

  /** One more unit of any counter costs its list price, whatever was used before. */
  lemma OneMoreUnitCosts(provider: Provider, p: ModelPricing, opts: CostOpts, u: Usage, more: Usage, k: UsageCounter)
    requires IsOneMore(u, more, k)
    ensures Bill(provider, p, opts, more) - Bill(provider, p, opts, u) == UnitPrice(provider, p, opts, u, k)
  {
    if k == InputTokens {
      OneMoreInputCosts(provider, p, opts, u, more);
    } else if k == CacheReadTokens {
      OneMoreCachedReadCosts(provider, p, opts, u, more);
    } else {
      OneMoreOtherCosts(provider, p, opts, u, more, k);
    }
  }

  lemma OneMoreInputCosts(provider: Provider, p: ModelPricing, opts: CostOpts, u: Usage, more: Usage)
    requires IsOneMore(u, more, InputTokens)
    ensures Bill(provider, p, opts, more) - Bill(provider, p, opts, u) == UnitPrice(provider, p, opts, u, InputTokens)
  {
    var q, q' := QuantitiesOf(provider, u), QuantitiesOf(provider, more);
    InputRatesAreUnitPrices(provider, p, opts, u);
    assert At(more, InputTokens) == At(u, InputTokens) + 1;
    SameCountersSameUsage(more, u.(inputTokens := u.inputTokens + 1));
    OneMoreInput(provider, u, more);
    UnitsMoved(q, q', RatesFor(provider, p, opts), Prompt, q'(Prompt) - q(Prompt));
  }

  lemma OneMoreCachedReadCosts(provider: Provider, p: ModelPricing, opts: CostOpts, u: Usage, more: Usage)
    requires IsOneMore(u, more, CacheReadTokens)
    ensures Bill(provider, p, opts, more) - Bill(provider, p, opts, u) ==
      UnitPrice(provider, p, opts, u, CacheReadTokens)
  {
    InputRatesAreUnitPrices(provider, p, opts, u);
    assert At(more, CacheReadTokens) == At(u, CacheReadTokens) + 1;
    SameCountersSameUsage(more, u.(cacheReadInputTokens := u.cacheReadInputTokens + 1));
    CachedReadCosts(provider, RatesFor(provider, p, opts), u);
  }

  lemma OneMoreOtherCosts(provider: Provider, p: ModelPricing, opts: CostOpts, u: Usage, more: Usage, k: UsageCounter)
    requires IsOneMore(u, more, k) && k != InputTokens && k != CacheReadTokens
    ensures Bill(provider, p, opts, more) - Bill(provider, p, opts, u) == UnitPrice(provider, p, opts, u, k)
  {
    OneMoreQuantities(provider, u, more, k);
    OneDimMoves(QuantitiesOf(provider, u), QuantitiesOf(provider, more), RatesFor(provider, p, opts), DimOf(k));
    RatesAreUnitPrices(provider, p, opts, u, k);
  }

  lemma OneDimMoves(q: Quantities, q': Quantities, rates: Rates, moved: Option<Dim>)
    requires forall d :: q'(d) == q(d) + (if moved == Some(d) then 1 else 0)
    ensures Linear(q', rates, 8) - Linear(q, rates, 8) == if moved.Some? then rates(moved.value) else 0
  {
    if moved.Some? {
      UnitsMoved(q, q', rates, moved.value, 1);
    } else {
      SameQuantities(q, q', rates, 8);
    }
  }

  /** And nothing used costs nothing, so that the list prices determine every bill. */
  lemma NothingUsedCostsNothing(provider: Provider, p: ModelPricing, opts: CostOpts, u: Usage)
    requires forall k :: At(u, k) == 0
    ensures Bill(provider, p, opts, u) == 0
  {
    assert forall d :: QuantitiesOf(provider, u)(d) == 0 by {
      SameCountersSameUsage(u, ZERO_USAGE);
    }
    NoQuantities(QuantitiesOf(provider, u), RatesFor(provider, p, opts), 8);
  }

  /** One more cached read: for Anthropic and Bedrock it is extra; for the others it moves a prompt
      token to the cache rate while there is one to move. */
  lemma CachedReadCosts(provider: Provider, rates: Rates, u: Usage)
    requires u.cacheReadInputTokens < U32_MAX
    ensures var more := u.(cacheReadInputTokens := u.cacheReadInputTokens + 1);
      ExactBill(provider, rates, more) - ExactBill(provider, rates, u) ==
        rates(CacheRead) - (if !CacheIsExtra(provider) && u.cacheReadInputTokens < u.inputTokens then rates(Prompt) else 0)
  {
    var more := u.(cacheReadInputTokens := u.cacheReadInputTokens + 1);
    var q, q' := QuantitiesOf(provider, u), QuantitiesOf(provider, more);
    CachedReadMoves(provider, u);
    DiffersInTwo(q, q', rates, Prompt, CacheRead);
    OneMoreUnit(q(CacheRead), rates(CacheRead));
    OneMoreUnit(q'(Prompt), rates(Prompt));
  }

  lemma CachedReadMoves(provider: Provider, u: Usage)
    requires u.cacheReadInputTokens < U32_MAX
    ensures var more := u.(cacheReadInputTokens := u.cacheReadInputTokens + 1);
      var q, q' := QuantitiesOf(provider, u), QuantitiesOf(provider, more);
      && q'(CacheRead) == q(CacheRead) + 1
      && q(Prompt) == q'(Prompt) + (if !CacheIsExtra(provider) && u.cacheReadInputTokens < u.inputTokens then 1 else 0)
      && forall x :: x != Prompt && x != CacheRead ==> q(x) == q'(x)
  {
  }

  lemma OneMoreUnit(n: int, rate: int)
    ensures (n + 1) * rate == n * rate + rate
  {
  }

  /** Keeping cache writes for an hour changes the bill of Anthropic and Bedrock by the difference
      of the two write rates per token, and nobody else's. */
  lemma LongCacheCosts(provider: Provider, p: ModelPricing, u: Usage, isBatch: bool)
    ensures var short, long := CostOpts(isBatch, Minutes5, Standard), CostOpts(isBatch, Hours1, Standard);
      ExactBill(provider, RatesFor(provider, p, long), u) - ExactBill(provider, RatesFor(provider, p, short), u) ==
        if CacheIsExtra(provider) && p.cacheCreationAbove1hr.Some?
        then u.cacheCreationInputTokens * p.cacheCreationAbove1hr.value
             - u.cacheCreationInputTokens * PickCacheCreateRate(p, short)
        else 0
  {
    var short, long := CostOpts(isBatch, Minutes5, Standard), CostOpts(isBatch, Hours1, Standard);
    DiffersInOne(QuantitiesOf(provider, u), QuantitiesOf(provider, u),
                 RatesFor(provider, p, short), RatesFor(provider, p, long), CacheWrite, 8);
  }

  /** A model without a reasoning rate bills reasoning tokens as output tokens. */
  lemma ReasoningIsOutput(provider: Provider, p: ModelPricing, opts: CostOpts, u: Usage)
    requires p.outputPerReasoningToken.None? && u.outputTokens + u.reasoningTokens <= U32_MAX
    ensures var folded := u.(outputTokens := u.outputTokens + u.reasoningTokens, reasoningTokens := 0);
      ExactBill(provider, RatesFor(provider, p, opts), folded) == ExactBill(provider, RatesFor(provider, p, opts), u)
  {
    var folded := u.(outputTokens := u.outputTokens + u.reasoningTokens, reasoningTokens := 0);
    FoldedBill(QuantitiesOf(provider, u), QuantitiesOf(provider, folded), RatesFor(provider, p, opts));
  }

  lemma FoldedBill(q: Quantities, q': Quantities, rates: Rates)
    requires rates(Reasoning) == rates(Output) && q'(Output) == q(Output) + q(Reasoning) && q'(Reasoning) == 0
    requires forall x :: x != Output && x != Reasoning ==> q(x) == q'(x)
    ensures Linear(q', rates, 8) == Linear(q, rates, 8)
  {
    DiffersInTwo(q, q', rates, Output, Reasoning);
    FoldedUnits(q(Output), q(Reasoning), q'(Output), q'(Reasoning), rates(Output));
  }

  lemma FoldedUnits(a: int, b: int, a': int, b': int, rate: int)
    requires a' == a + b && b' == 0
    ensures a' * rate - a * rate + (b' * rate - b * rate) == 0
  {
  }

  /** Bedrock is billed as Anthropic, whatever the model, the usage and the options. */
  lemma BedrockIsBilledAsAnthropic(p: ModelPricing, opts: CostOpts, u: Usage)
    ensures ExactBill(Bedrock, RatesFor(Bedrock, p, opts), u) == ExactBill(Anthropic, RatesFor(Anthropic, p, opts), u)
  {
    DiffersInOne(QuantitiesOf(Bedrock, u), QuantitiesOf(Anthropic, u),
                 RatesFor(Bedrock, p, opts), RatesFor(Anthropic, p, opts), Prompt, 8);
  }

  // ── Merging usage ────────────────────────────────────────────────────

  function AddU32(a: u32, b: u32): u32 {
    Min(U32_MAX, a + b)
  }

  function Merged(a: Usage, b: Usage): Usage {
    Usage(
      AddU32(a.inputTokens, b.inputTokens), AddU32(a.outputTokens, b.outputTokens),
      AddU32(a.cacheReadInputTokens, b.cacheReadInputTokens),
      AddU32(a.cacheCreationInputTokens, b.cacheCreationInputTokens),
      AddU32(a.reasoningTokens, b.reasoningTokens), AddU32(a.audioInputTokens, b.audioInputTokens),
      AddU32(a.audioOutputTokens, b.audioOutputTokens), AddU32(a.imageTokens, b.imageTokens),
      AddU32(a.videoSeconds, b.videoSeconds), AddU32(a.toolUseTokens, b.toolUseTokens),
      AddU32(a.searchQueries, b.searchQueries))
  }

  lemma MergedCounter(a: Usage, b: Usage, k: UsageCounter)
    ensures At(Merged(a, b), k) == Min(U32_MAX, At(a, k) + At(b, k))
  {
  }

  lemma MergedCounters(a: Usage, b: Usage)
    ensures forall k :: At(Merged(a, b), k) == Min(U32_MAX, At(a, k) + At(b, k))
  {
    forall k
      ensures At(Merged(a, b), k) == Min(U32_MAX, At(a, k) + At(b, k))
    {
      MergedCounter(a, b, k);
    }
  }

  const ZERO_USAGE := Usage(0, 0, 0, 0, 0, 0, 0, 0, 0, 0, 0)

  /** The counters a stream is reassembled into. */
  class UsageCounters {
    var usage: Usage

    constructor ()
      ensures usage == ZERO_USAGE
    {
      usage := ZERO_USAGE;
    }

    /** `Usage::merge`, field by field. */
    method Merge(delta: Usage)
      modifies this
      ensures usage == Merged(old(usage), delta)
      ensures forall k :: At(usage, k) == Min(U32_MAX, At(old(usage), k) + At(delta, k))
    {
      usage := usage.(inputTokens := AddU32(usage.inputTokens, delta.inputTokens));
      usage := usage.(outputTokens := AddU32(usage.outputTokens, delta.outputTokens));
      usage := usage.(cacheReadInputTokens := AddU32(usage.cacheReadInputTokens, delta.cacheReadInputTokens));
      usage := usage.(cacheCreationInputTokens := AddU32(usage.cacheCreationInputTokens, delta.cacheCreationInputTokens));
      usage := usage.(reasoningTokens := AddU32(usage.reasoningTokens, delta.reasoningTokens));
      usage := usage.(audioInputTokens := AddU32(usage.audioInputTokens, delta.audioInputTokens));
      usage := usage.(audioOutputTokens := AddU32(usage.audioOutputTokens, delta.audioOutputTokens));
      usage := usage.(imageTokens := AddU32(usage.imageTokens, delta.imageTokens));
      usage := usage.(videoSeconds := AddU32(usage.videoSeconds, delta.videoSeconds));
      usage := usage.(toolUseTokens := AddU32(usage.toolUseTokens, delta.toolUseTokens));
      usage := usage.(searchQueries := AddU32(usage.searchQueries, delta.searchQueries));
      MergedCounters(old(usage), delta);
    }
  }

  /** No billed counter of the two overflows 32 bits when added. */
  predicate Addable(a: Usage, b: Usage) {
    && a.inputTokens + b.inputTokens <= U32_MAX && a.outputTokens + b.outputTokens <= U32_MAX
    && a.cacheReadInputTokens + b.cacheReadInputTokens <= U32_MAX
    && a.cacheCreationInputTokens + b.cacheCreationInputTokens <= U32_MAX
    && a.reasoningTokens + b.reasoningTokens <= U32_MAX && a.audioInputTokens + b.audioInputTokens <= U32_MAX
    && a.videoSeconds + b.videoSeconds <= U32_MAX && a.searchQueries + b.searchQueries <= U32_MAX
  }

  /** Tokens billed at the input rate when the parts are priced apart but not when merged: one
      part's spare cache reads hide the other's uncached prompt. */
  function Hidden(provider: Provider, a: Usage, b: Usage): nat {
    var x, y := a.inputTokens - a.cacheReadInputTokens, b.inputTokens - b.cacheReadInputTokens;
    if CacheIsExtra(provider) || (x >= 0 && y >= 0) || (x <= 0 && y <= 0) then 0
    else if x > 0 then Min(x, -y) else Min(-x, y)
  }

  lemma MergedQuantities(provider: Provider, a: Usage, b: Usage)
    ensures var (m, qa, qb) := (QuantitiesOf(provider, Merged(a, b)), QuantitiesOf(provider, a), QuantitiesOf(provider, b));
      && (forall d :: m(d) <= qa(d) + qb(d))
      && (Addable(a, b) ==> forall d :: m(d) + (if d == Prompt then Hidden(provider, a, b) else 0) == qa(d) + qb(d))
  {
    MergedUncached(provider, a, b);
  }

  lemma MergedUncached(provider: Provider, a: Usage, b: Usage)
    ensures Uncached(provider, Merged(a, b)) <= Uncached(provider, a) + Uncached(provider, b)
    ensures Addable(a, b) ==>
      Uncached(provider, Merged(a, b)) + Hidden(provider, a, b) == Uncached(provider, a) + Uncached(provider, b)
  {
  }

  lemma ProductGrows(m: int, a: int, b: int, rate: int)
    requires m <= a + b && rate >= 0
    ensures m * rate <= a * rate + b * rate
  {
  }

  lemma {:induction false} LinearGrows(m: Quantities, a: Quantities, b: Quantities, rates: Rates, n: nat)
    requires n <= 8 && NonNegative(rates) && forall d :: m(d) <= a(d) + b(d)
    ensures Linear(m, rates, n) <= Linear(a, rates, n) + Linear(b, rates, n)
  {
    if n > 0 {
      LinearGrows(m, a, b, rates, n - 1);
      ProductGrows(m(DIMS[n - 1]), a(DIMS[n - 1]), b(DIMS[n - 1]), rates(DIMS[n - 1]));
    }
  }

  lemma {:induction false} LinearAdds(m: Quantities, a: Quantities, b: Quantities, hidden: nat, rates: Rates, n: nat)
    requires n <= 8 && forall d :: m(d) + (if d == Prompt then hidden else 0) == a(d) + b(d)
    ensures Linear(m, rates, n) + (if n > 0 then hidden * rates(Prompt) else 0) ==
      Linear(a, rates, n) + Linear(b, rates, n)
  {
    if n > 0 {
      LinearAdds(m, a, b, hidden, rates, n - 1);
      var d := DIMS[n - 1];
      var extra := if d == Prompt then hidden else 0;
      assert (m(d) + extra) * rates(d) == m(d) * rates(d) + extra * rates(d);
      assert (a(d) + b(d)) * rates(d) == a(d) * rates(d) + b(d) * rates(d);
    }
  }

  /** The merged bill, exactly: never above the sum of the parts, and without 32-bit saturation
      below it by the hidden prompt tokens. */
  lemma MergedBill(provider: Provider, rates: Rates, a: Usage, b: Usage)
    requires NonNegative(rates)
    ensures ExactBill(provider, rates, Merged(a, b)) <= ExactBill(provider, rates, a) + ExactBill(provider, rates, b)
    ensures Addable(a, b) ==> ExactBill(provider, rates, Merged(a, b)) + Hidden(provider, a, b) * rates(Prompt)
                              == ExactBill(provider, rates, a) + ExactBill(provider, rates, b)
  {
    MergedQuantities(provider, a, b);
    LinearGrows(QuantitiesOf(provider, Merged(a, b)), QuantitiesOf(provider, a), QuantitiesOf(provider, b), rates, 8);
    if Addable(a, b) {
      MergedBillAdds(provider, rates, a, b);
    }
  }

  lemma MergedBillAdds(provider: Provider, rates: Rates, a: Usage, b: Usage)
    requires Addable(a, b)
    ensures ExactBill(provider, rates, Merged(a, b)) + Hidden(provider, a, b) * rates(Prompt)
            == ExactBill(provider, rates, a) + ExactBill(provider, rates, b)
  {
    MergedQuantities(provider, a, b);
    LinearAdds(QuantitiesOf(provider, Merged(a, b)), QuantitiesOf(provider, a), QuantitiesOf(provider, b),
               Hidden(provider, a, b), rates, 8);
  }

  lemma BillIsNonNegative(provider: Provider, rates: Rates, u: Usage)
    requires NonNegative(rates)
    ensures ExactBill(provider, rates, u) >= 0
  {
    SaturatingIsCapped(QuantitiesOf(provider, u), rates, 8);
  }

  /** Pricing merged usage never exceeds the saturating sum of pricing the parts. */
  lemma MergingNeverCostsMore(provider: Provider, rates: Rates, a: Usage, b: Usage)
    requires NonNegative(rates)
    ensures CostOf(provider, rates, Merged(a, b)) <= Add(CostOf(provider, rates, a), CostOf(provider, rates, b))
  {
    MergedBill(provider, rates, a, b);
    BillIsNonNegative(provider, rates, a);
    BillIsNonNegative(provider, rates, b);
  }

  /** And it equals that sum, without 32-bit saturation, exactly when nothing is hidden, what is
      hidden is free, or the merged bill reaches the cap anyway. */
  lemma MergingCostsTheSame(provider: Provider, rates: Rates, a: Usage, b: Usage)
    requires NonNegative(rates) && Addable(a, b)
    ensures CostOf(provider, rates, Merged(a, b)) == Add(CostOf(provider, rates, a), CostOf(provider, rates, b)) <==>
      (Hidden(provider, a, b) == 0 || rates(Prompt) == 0 || ExactBill(provider, rates, Merged(a, b)) >= I64_MAX)
  {
    MergedBill(provider, rates, a, b);
    BillIsNonNegative(provider, rates, a);
    BillIsNonNegative(provider, rates, b);
    ProductIsPositive(Hidden(provider, a, b), rates(Prompt));
  }

  lemma ProductIsPositive(a: int, b: int)
    requires a >= 0 && b >= 0
    ensures a * b >= 0 && (a * b == 0 <==> a == 0 || b == 0)
  {
  }

  /** Nothing is hidden for Anthropic and Bedrock, nor when both parts read at most their prompt
      from the cache. */
  lemma NothingHidden(provider: Provider, a: Usage, b: Usage)
    ensures Hidden(provider, a, b) == 0 <==>
      CacheIsExtra(provider)
      || (a.cacheReadInputTokens <= a.inputTokens && b.cacheReadInputTokens <= b.inputTokens)
      || (a.cacheReadInputTokens >= a.inputTokens && b.cacheReadInputTokens >= b.inputTokens)
  {
  }

  // ── A whole stream ───────────────────────────────────────────────────

  function MergedAll(chunks: seq<Usage>): Usage {
    if chunks == [] then ZERO_USAGE else Merged(MergedAll(chunks[..|chunks| - 1]), chunks[|chunks| - 1])
  }

  predicate AllAddable(chunks: seq<Usage>) {
    forall i :: 0 <= i < |chunks| ==> Addable(MergedAll(chunks[..i]), chunks[i])
  }

  /** The exact bills of the chunks one by one, and of what was merged before each. */
  function Bills(provider: Provider, rates: Rates, chunks: seq<Usage>): seq<int> {
    seq(|chunks|, i requires 0 <= i < |chunks| => ExactBill(provider, rates, chunks[i]))
  }

  function RunningBills(provider: Provider, rates: Rates, chunks: seq<Usage>): seq<int> {
    seq(|chunks| + 1, i requires 0 <= i <= |chunks| => ExactBill(provider, rates, MergedAll(chunks[..i])))
  }

  lemma {:induction false} NoQuantities(q: Quantities, rates: Rates, n: nat)
    requires n <= 8 && forall d :: q(d) == 0
    ensures Linear(q, rates, n) == 0
  {
    if n > 0 {
      NoQuantities(q, rates, n - 1);
    }
  }

  lemma MergedAllStep(chunks: seq<Usage>, i: nat)
    requires i < |chunks|
    ensures MergedAll(chunks[..i + 1]) == Merged(MergedAll(chunks[..i]), chunks[i])
  {
    assert chunks[..i + 1][..i] == chunks[..i];
  }

  lemma {:induction false} Telescope(running: seq<int>, parts: seq<int>)
    requires |running| == |parts| + 1 && running[0] == 0
    requires forall i :: 0 <= i < |parts| ==> running[i + 1] <= running[i] + parts[i]
    ensures running[|parts|] <= Exact(parts)
    ensures (forall i :: 0 <= i < |parts| ==> running[i + 1] == running[i] + parts[i]) ==>
      running[|parts|] == Exact(parts)
  {
    if parts != [] {
      Telescope(running[..|parts|], parts[..|parts| - 1]);
    }
  }

  /** Where cached tokens are counted apart, nothing is hidden. */
  lemma MergedBillApart(provider: Provider, rates: Rates, a: Usage, b: Usage)
    requires NonNegative(rates) && CacheIsExtra(provider) && Addable(a, b)
    ensures ExactBill(provider, rates, Merged(a, b)) == ExactBill(provider, rates, a) + ExactBill(provider, rates, b)
  {
  }

  /** The exact bill of the reassembled stream never exceeds the bills of its chunks, and equals
      their sum where cached tokens are counted apart, up to 32-bit saturation. */
  lemma StreamBill(provider: Provider, rates: Rates, chunks: seq<Usage>)
    requires NonNegative(rates)
    ensures ExactBill(provider, rates, MergedAll(chunks)) <= Exact(Bills(provider, rates, chunks))
    ensures CacheIsExtra(provider) && AllAddable(chunks) ==>
      ExactBill(provider, rates, MergedAll(chunks)) == Exact(Bills(provider, rates, chunks))
  {
    var running, bills := RunningBills(provider, rates, chunks), Bills(provider, rates, chunks);
    NoQuantities(QuantitiesOf(provider, ZERO_USAGE), rates, 8);
    forall i | 0 <= i < |chunks|
      ensures running[i + 1] <= running[i] + bills[i]
      ensures CacheIsExtra(provider) && AllAddable(chunks) ==> running[i + 1] == running[i] + bills[i]
    {
      MergedAllStep(chunks, i);
      MergedBill(provider, rates, MergedAll(chunks[..i]), chunks[i]);
      if CacheIsExtra(provider) && AllAddable(chunks) {
        MergedBillApart(provider, rates, MergedAll(chunks[..i]), chunks[i]);
      }
    }
    Telescope(running, bills);
    assert chunks[..|chunks|] == chunks;
  }

  // ── Ingested usage ───────────────────────────────────────────────────

  const MAX_TOKENS := 10_000_000
  const RATE_LIMIT := 150_000_000_000

  /** What validation and `usage_from_ingest` leave of a request's counters. */
  predicate IsIngested(u: Usage) {
    && u.inputTokens <= MAX_TOKENS && u.outputTokens <= MAX_TOKENS && u.cacheReadInputTokens <= MAX_TOKENS
    && u.cacheCreationInputTokens <= MAX_TOKENS && u.reasoningTokens <= MAX_TOKENS && u.audioInputTokens <= MAX_TOKENS
    && u.audioOutputTokens <= MAX_TOKENS && u.imageTokens <= MAX_TOKENS && u.toolUseTokens <= MAX_TOKENS
    && u.videoSeconds == 0 && u.searchQueries == 0
  }

  lemma {:induction false} LinearLimit(q: Quantities, rates: Rates, n: nat)
    requires n <= 8 && forall d :: 0 <= rates(d) <= RATE_LIMIT && q(d) <= MAX_TOKENS
    requires q(Video) == q(Search) == 0
    ensures Linear(q, rates, n) <= Min(n, 6) * 1_500_000_000_000_000_000
  {
    if n > 0 {
      LinearLimit(q, rates, n - 1);
      ProductLimit(q(DIMS[n - 1]), rates(DIMS[n - 1]));
    }
  }

  lemma ProductLimit(q: int, rate: int)
    requires 0 <= q <= MAX_TOKENS && 0 <= rate <= RATE_LIMIT
    ensures q * rate <= 1_500_000_000_000_000_000
  {
    ProductGrows(q, MAX_TOKENS, 0, rate);
  }

  /** A validated request at rates up to 150 dollars a token is billed exactly. */
  lemma IngestedNeverSaturates(provider: Provider, rates: Rates, u: Usage)
    requires IsIngested(u) && NonNegative(rates) && forall d :: rates(d) <= RATE_LIMIT
    ensures CostOf(provider, rates, u) == ExactBill(provider, rates, u) < I64_MAX
  {
    LinearLimit(QuantitiesOf(provider, u), rates, 8);
  }
}

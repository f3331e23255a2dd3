/** Per-key token buckets, sharded by key hash (crates/keplor-server/src/rate_limit.rs).
    Time and tokens are reals. */
module RateLimit {
  import opened Wrappers
  import opened MachineInts

  const NUM_SHARDS := 16

  datatype Config = Config(requestsPerSecond: real, burst: nat)

  datatype Bucket = Bucket(tokens: real, lastRefill: real)

  /** `(1 - tokens) / rps`, which is infinite for a zero rate. */
  datatype Wait = Seconds(s: real) | Forever

  datatype Outcome = Granted | Refused(wait: Wait)

  // ── One bucket ───────────────────────────────────────────────────────

  /** Tokens refilled in `seconds`. */
  function Earned(cfg: Config, seconds: real): real {
    seconds * cfg.requestsPerSecond
  }

  /** The rate is per second: linear in the time, with `rps` tokens in one second. */
  lemma EarnedIsLinear(cfg: Config, a: real, b: real)
    ensures Earned(cfg, 1.0) == cfg.requestsPerSecond
    ensures Earned(cfg, a + b) == Earned(cfg, a) + Earned(cfg, b)
    ensures Earned(cfg, a) == a * cfg.requestsPerSecond
  {
  }

  /** Add the tokens of the elapsed time (never negative), up to the burst. */
  function Refill(cfg: Config, b: Bucket, now: real): Bucket {
    var elapsed := if now > b.lastRefill then now - b.lastRefill else 0.0;
    var tokens := b.tokens + Earned(cfg, elapsed);
    Bucket(if tokens <= cfg.burst as real then tokens else cfg.burst as real, now)
  }

  /** One call on a key's bucket, which is created full. */
  function Acquire(cfg: Config, bucket: Option<Bucket>, now: real): (Bucket, Outcome) {
    var b := Refill(cfg, bucket.UnwrapOr(Bucket(cfg.burst as real, now)), now);
    if b.tokens >= 1.0 then (b.(tokens := b.tokens - 1.0), Granted)
    else
      (b, Refused(if cfg.requestsPerSecond == 0.0 then Forever else Seconds((1.0 - b.tokens) / cfg.requestsPerSecond)))
  }

  function Outcomes(cfg: Config, bucket: Option<Bucket>, times: seq<real>): seq<Outcome>
    decreases |times|
  {
    if times == [] then []
    else var (b, o) := Acquire(cfg, bucket, times[0]); [o] + Outcomes(cfg, Some(b), times[1..])
  }

  function After(cfg: Config, bucket: Option<Bucket>, times: seq<real>): Option<Bucket>
    decreases |times|
  {
    if times == [] then bucket else After(cfg, Some(Acquire(cfg, bucket, times[0]).0), times[1..])
  }

  predicate Ordered(times: seq<real>) {
    forall i, j :: 0 <= i < j < |times| ==> times[i] <= times[j]
  }

  /** The calls do not start before the bucket's last refill. */
  predicate NotBefore(bucket: Option<Bucket>, times: seq<real>) {
    bucket.Some? && times != [] ==> bucket.value.lastRefill <= times[0]
  }

  predicate ValidBucket(cfg: Config, bucket: Option<Bucket>) {
    bucket.Some? ==> 0.0 <= bucket.value.tokens <= cfg.burst as real
  }

  /** Grants among the calls made in the closed window `[from, to]`. */
  function GrantsIn(cfg: Config, bucket: Option<Bucket>, times: seq<real>, from: real, to: real): nat
    decreases |times|
  {
    if times == [] then 0
    else
      var (b, o) := Acquire(cfg, bucket, times[0]);
      (if o.Granted? && from <= times[0] <= to then 1 else 0) + GrantsIn(cfg, Some(b), times[1..], from, to)
  }

  // ── Bounds over whole runs ───────────────────────────────────────────

  lemma EarnedFacts(cfg: Config, a: real, b: real)
    requires cfg.requestsPerSecond >= 0.0 && a >= 0.0 && b >= 0.0
    ensures Earned(cfg, a) >= 0.0 && Earned(cfg, b) >= 0.0
    ensures Earned(cfg, a + b) == Earned(cfg, a) + Earned(cfg, b)
  {
  }

  lemma AcquireKeepsBounds(cfg: Config, bucket: Option<Bucket>, now: real)
    requires cfg.requestsPerSecond >= 0.0 && ValidBucket(cfg, bucket)
    ensures ValidBucket(cfg, Some(Acquire(cfg, bucket, now).0))
  {
  }

  /** Tokens stay within `[0, burst]` through every sequence of calls. */
  lemma {:induction false} TokensStayInRange(cfg: Config, bucket: Option<Bucket>, times: seq<real>)
    requires cfg.requestsPerSecond >= 0.0 && ValidBucket(cfg, bucket)
    ensures ValidBucket(cfg, After(cfg, bucket, times))
    decreases |times|
  {
    if times != [] {
      AcquireKeepsBounds(cfg, bucket, times[0]);
      TokensStayInRange(cfg, Some(Acquire(cfg, bucket, times[0]).0), times[1..]);
    }
  }

  /** From a bucket last refilled inside the window, grants are paid for by its tokens and by
      what the rest of the window refills. */
  lemma {:induction false} GrantsArePaidFor(cfg: Config, b: Bucket, times: seq<real>, from: real, to: real)
    requires cfg.requestsPerSecond >= 0.0 && ValidBucket(cfg, Some(b))
    requires Ordered(times) && NotBefore(Some(b), times) && b.lastRefill <= to
    ensures GrantsIn(cfg, Some(b), times, from, to) as real <= b.tokens + Earned(cfg, to - b.lastRefill)
    decreases |times|
  {
    EarnedFacts(cfg, 0.0, to - b.lastRefill);
    if times == [] || times[0] > to {
      NoGrantsAfter(cfg, Some(b), times, from, to);
    } else {
      var now := times[0];
      var (b', o) := Acquire(cfg, Some(b), now);
      AcquireKeepsBounds(cfg, Some(b), now);
      GrantsArePaidFor(cfg, b', times[1..], from, to);
      EarnedFacts(cfg, now - b.lastRefill, to - now);
    }
  }

  lemma {:induction false} NoGrantsAfter(cfg: Config, bucket: Option<Bucket>, times: seq<real>, from: real, to: real)
    requires Ordered(times) && (times != [] ==> times[0] > to)
    ensures GrantsIn(cfg, bucket, times, from, to) == 0
    decreases |times|
  {
    if times != [] {
      NoGrantsAfter(cfg, Some(Acquire(cfg, bucket, times[0]).0), times[1..], from, to);
    }
  }

  /** The rate limit: in any window, whatever happened before it, a key is granted at most its
      burst plus what the window's length refills. */
  lemma {:induction false} WindowBound(cfg: Config, bucket: Option<Bucket>, times: seq<real>, from: real, to: real)
    requires cfg.requestsPerSecond >= 0.0 && ValidBucket(cfg, bucket) && from <= to
    requires Ordered(times) && NotBefore(bucket, times)
    ensures GrantsIn(cfg, bucket, times, from, to) as real <= cfg.burst as real + Earned(cfg, to - from)
    decreases |times|
  {
    EarnedFacts(cfg, 0.0, to - from);
    if times == [] || times[0] > to {
      NoGrantsAfter(cfg, bucket, times, from, to);
    } else {
      var now := times[0];
      var (b, o) := Acquire(cfg, bucket, now);
      AcquireKeepsBounds(cfg, bucket, now);
      if now < from {
        WindowBound(cfg, Some(b), times[1..], from, to);
      } else {
        GrantsArePaidFor(cfg, b, times[1..], from, to);
        EarnedFacts(cfg, now - from, to - now);
      }
    }
  }

  // ── Refused calls and the promised wait ──────────────────────────────

  /** Refilling in two steps is refilling once. */
  lemma RefillTwice(cfg: Config, b: Bucket, mid: real, now: real)
    requires cfg.requestsPerSecond >= 0.0 && b.lastRefill <= mid <= now && b.tokens <= cfg.burst as real
    ensures Refill(cfg, Refill(cfg, b, mid), now) == Refill(cfg, b, now)
  {
  }

  predicate AllRefused(outcomes: seq<Outcome>) {
    forall i :: 0 <= i < |outcomes| ==> outcomes[i].Refused?
  }

  /** Calls that are refused leave no trace: the bucket is what one refill would have made it. */
  lemma {:induction false} RefusedCallsAreTransparent(cfg: Config, b: Bucket, times: seq<real>, now: real)
    requires cfg.requestsPerSecond >= 0.0 && ValidBucket(cfg, Some(b))
    requires Ordered(times + [now]) && NotBefore(Some(b), times + [now])
    requires AllRefused(Outcomes(cfg, Some(b), times))
    ensures Acquire(cfg, After(cfg, Some(b), times), now) == Acquire(cfg, Some(b), now)
    decreases |times|
  {
    if times != [] {
      var (b', o) := Acquire(cfg, Some(b), times[0]);
      assert Outcomes(cfg, Some(b), times)[0] == o;
      assert Outcomes(cfg, Some(b), times)[1..] == Outcomes(cfg, Some(b'), times[1..]);
      assert b' == Refill(cfg, b, times[0]);
      AcquireKeepsBounds(cfg, Some(b), times[0]);
      assert (times + [now])[1..] == times[1..] + [now];
      assert times[0] <= (times + [now])[|times|] by { assert (times + [now])[0] == times[0]; }
      RefusedCallsAreTransparent(cfg, b', times[1..], now);
      RefillTwice(cfg, b, times[0], now);
    }
  }

  lemma WaitArithmetic(cfg: Config, elapsed: real, missing: real)
    requires cfg.requestsPerSecond > 0.0
    ensures Earned(cfg, elapsed) >= missing <==> elapsed >= missing / cfg.requestsPerSecond
  {
  }

  /** The wait a refusal reports is exact: whatever refused calls come in between, the key is
      granted at every moment from then on and at none before, if and only if the burst allows
      a whole token at all. */
  lemma WaitIsExact(cfg: Config, bucket: Option<Bucket>, refusedAt: real, between: seq<real>, now: real)
    requires cfg.requestsPerSecond > 0.0 && ValidBucket(cfg, bucket)
    requires NotBefore(bucket, [refusedAt]) && Ordered([refusedAt] + between + [now])
    requires Acquire(cfg, bucket, refusedAt).1.Refused?
    requires AllRefused(Outcomes(cfg, Some(Acquire(cfg, bucket, refusedAt).0), between))
    ensures var (b, o) := Acquire(cfg, bucket, refusedAt);
      o.wait.Seconds? && o.wait.s > 0.0
      && (Acquire(cfg, After(cfg, Some(b), between), now).1.Granted? <==> now >= refusedAt + o.wait.s && cfg.burst >= 1)
  {
    var (b, o) := Acquire(cfg, bucket, refusedAt);
    AcquireKeepsBounds(cfg, bucket, refusedAt);
    var all := [refusedAt] + between + [now];
    assert all[0] == refusedAt && all[|all| - 1] == now;
    assert forall i :: 0 <= i < |between + [now]| ==> (between + [now])[i] == all[i + 1];
    RefusedCallsAreTransparent(cfg, b, between, now);
    assert b.lastRefill == refusedAt && b.tokens < 1.0;
    GrantedFrom(cfg, b, now);
  }

  /** A bucket short of a token has one again exactly after the missing part was refilled. */
  lemma GrantedFrom(cfg: Config, b: Bucket, now: real)
    requires cfg.requestsPerSecond > 0.0 && ValidBucket(cfg, Some(b)) && b.tokens < 1.0 && b.lastRefill <= now
    ensures var wait := (1.0 - b.tokens) / cfg.requestsPerSecond;
      wait > 0.0 && (Acquire(cfg, Some(b), now).1.Granted? <==> now >= b.lastRefill + wait && cfg.burst >= 1)
  {
    var elapsed := now - b.lastRefill;
    WaitArithmetic(cfg, elapsed, 1.0 - b.tokens);
    WaitArithmetic(cfg, 0.0, 1.0 - b.tokens);
    EarnedFacts(cfg, 0.0, elapsed);
    assert Refill(cfg, b, now).tokens >= 1.0 <==> b.tokens + Earned(cfg, elapsed) >= 1.0 && cfg.burst >= 1;
  }

  /** `retry_after.ceil() as u64`, the value of the `Retry-After` header. */
  function RetryAfterSecs(wait: Wait): u64 {
    match wait
    case Forever => U64_MAX
    case Seconds(s) =>
      var up := -((-s).Floor);
      if up < 0 then 0 else if up > U64_MAX then U64_MAX else up
  }

  /** Waiting the advertised whole seconds (section 10.2.3 of RFC 9110) is enough, as long as the
      wait fits the header's integer. */
  lemma RetryAfterSuffices(cfg: Config, bucket: Option<Bucket>, refusedAt: real, between: seq<real>, now: real)
    requires cfg.requestsPerSecond > 0.0 && cfg.burst >= 1 && ValidBucket(cfg, bucket)
    requires NotBefore(bucket, [refusedAt]) && Ordered([refusedAt] + between + [now])
    requires Acquire(cfg, bucket, refusedAt).1.Refused?
    requires AllRefused(Outcomes(cfg, Some(Acquire(cfg, bucket, refusedAt).0), between))
    ensures var o := Acquire(cfg, bucket, refusedAt).1;
      o.wait.Seconds? && o.wait.s <= U64_MAX as real && now >= refusedAt + RetryAfterSecs(o.wait) as real ==>
        Acquire(cfg, After(cfg, Some(Acquire(cfg, bucket, refusedAt).0), between), now).1.Granted?
  {
    WaitIsExact(cfg, bucket, refusedAt, between, now);
  }

  /** The advertised seconds are the least whole number that covers the wait. */
  lemma RetryAfterIsLeast(wait: Wait, secs: u64)
    requires wait.Seconds? && 0.0 < wait.s <= U64_MAX as real
    ensures wait.s <= secs as real <==> RetryAfterSecs(wait) <= secs
  {
  }

  /** A zero burst refuses every call, whatever wait it reports. */
  lemma {:induction false} ZeroBurstRefusesAll(cfg: Config, bucket: Option<Bucket>, times: seq<real>)
    requires cfg.requestsPerSecond >= 0.0 && cfg.burst == 0 && ValidBucket(cfg, bucket)
    ensures AllRefused(Outcomes(cfg, bucket, times))
    decreases |times|
  {
    if times != [] {
      AcquireKeepsBounds(cfg, bucket, times[0]);
      ZeroBurstRefusesAll(cfg, Some(Acquire(cfg, bucket, times[0]).0), times[1..]);
    }
  }

  // ── Many keys, sharded ───────────────────────────────────────────────

  type Shards = seq<map<string, Bucket>>

  function ShardIndex(hash: string -> nat, key: string): nat {
    hash(key) % NUM_SHARDS
  }

  function Lookup(hash: string -> nat, shards: Shards, key: string): Option<Bucket>
    requires |shards| == NUM_SHARDS
  {
    var shard := shards[ShardIndex(hash, key)];
    if key in shard then Some(shard[key]) else None
  }

  /** A call on `key` is a call on that key's own bucket and touches no other key. */
  ghost predicate IsCall(cfg: Config, hash: string -> nat, before: Shards, after: Shards, key: string, now: real,
                         o: Outcome) {
    && |before| == NUM_SHARDS && |after| == NUM_SHARDS
    && Lookup(hash, after, key) == Some(Acquire(cfg, Lookup(hash, before, key), now).0)
    && o == Acquire(cfg, Lookup(hash, before, key), now).1
    && forall k :: k != key ==> Lookup(hash, after, k) == Lookup(hash, before, k)
  }

  class RateLimiter {
    var shards: Shards
    const cfg: Config
    const hash: string -> nat

    ghost predicate Valid()
      reads this
    {
      |shards| == NUM_SHARDS
    }

    constructor (cfg: Config, hash: string -> nat)
      ensures Valid() && this.cfg == cfg && this.hash == hash
      ensures forall k :: Lookup(hash, shards, k) == None
    {
      this.cfg, this.hash := cfg, hash;
      shards := seq(NUM_SHARDS, i => map[]);
    }

    method TryAcquire(key: string, now: real) returns (o: Outcome)
      requires Valid()
      modifies this
      ensures Valid() && IsCall(cfg, hash, old(shards), shards, key, now, o)
    {
      var i := ShardIndex(hash, key);
      var buckets := shards[i];
      var burst := cfg.burst as real;
      var rps := cfg.requestsPerSecond;
      if key !in buckets {
        buckets := buckets[key := Bucket(burst, now)];
      }
      var bucket := buckets[key];
      var elapsed := if now > bucket.lastRefill then now - bucket.lastRefill else 0.0;
      var tokens := bucket.tokens + elapsed * rps;
      if tokens > burst {
        tokens := burst;
      }
      if tokens >= 1.0 {
        tokens := tokens - 1.0;
        o := Granted;
      } else if rps == 0.0 {
        o := Refused(Forever);
      } else {
        o := Refused(Seconds((1.0 - tokens) / rps));
      }
      assert (Bucket(tokens, now), o) == Acquire(cfg, Lookup(hash, old(shards), key), now);
      shards := shards[i := buckets[key := Bucket(tokens, now)]];
    }
  }

  datatype Call = Call(key: string, now: real)

  function TimesFor(calls: seq<Call>, key: string): seq<real> {
    if calls == [] then []
    else (if calls[0].key == key then [calls[0].now] else []) + TimesFor(calls[1..], key)
  }

  function OutcomesFor(calls: seq<Call>, outcomes: seq<Outcome>, key: string): seq<Outcome>
    requires |outcomes| == |calls|
  {
    if calls == [] then []
    else (if calls[0].key == key then [outcomes[0]] else []) + OutcomesFor(calls[1..], outcomes[1..], key)
  }

  /** Sharding and other keys' traffic never change what a key gets: its outcomes are those of
      its own bucket under its own calls, for every hash function. */
  lemma {:induction false} KeysAreIndependent(cfg: Config, hash: string -> nat, states: seq<Shards>, calls: seq<Call>,
                                              outcomes: seq<Outcome>, key: string)
    requires |states| == |calls| + 1 && |outcomes| == |calls| && |states[0]| == NUM_SHARDS
    requires forall i :: 0 <= i < |calls| ==>
      IsCall(cfg, hash, states[i], states[i + 1], calls[i].key, calls[i].now, outcomes[i])
    ensures OutcomesFor(calls, outcomes, key) == Outcomes(cfg, Lookup(hash, states[0], key), TimesFor(calls, key))
    decreases |calls|
  {
    if calls != [] {
      assert IsCall(cfg, hash, states[0], states[1], calls[0].key, calls[0].now, outcomes[0]);
      forall i | 0 <= i < |calls[1..]|
        ensures IsCall(cfg, hash, states[1..][i], states[1..][i + 1], calls[1..][i].key, calls[1..][i].now, outcomes[1..][i])
      {
        assert IsCall(cfg, hash, states[i + 1], states[i + 2], calls[i + 1].key, calls[i + 1].now, outcomes[i + 1]);
      }
      KeysAreIndependent(cfg, hash, states[1..], calls[1..], outcomes[1..], key);
      if calls[0].key == key {
        assert TimesFor(calls, key) == [calls[0].now] + TimesFor(calls[1..], key);
        assert TimesFor(calls, key)[1..] == TimesFor(calls[1..], key);
      } else {
        assert TimesFor(calls, key) == TimesFor(calls[1..], key);
      }
    }
  }

  /** Grants `key` got among the calls made in `[from, to]`. */
  function GrantsFor(calls: seq<Call>, outcomes: seq<Outcome>, key: string, from: real, to: real): nat
    requires |outcomes| == |calls|
  {
    if calls == [] then 0
    else
      (if calls[0].key == key && outcomes[0].Granted? && from <= calls[0].now <= to then 1 else 0)
      + GrantsFor(calls[1..], outcomes[1..], key, from, to)
  }

  /** Counting a key's grants in the interleaved run is counting them on its own bucket. */
  lemma {:induction false} GrantsOfOwnBucket(cfg: Config, bucket: Option<Bucket>, calls: seq<Call>,
                                             outcomes: seq<Outcome>, key: string, from: real, to: real)
    requires |outcomes| == |calls|
    requires OutcomesFor(calls, outcomes, key) == Outcomes(cfg, bucket, TimesFor(calls, key))
    ensures GrantsFor(calls, outcomes, key, from, to) == GrantsIn(cfg, bucket, TimesFor(calls, key), from, to)
    decreases |calls|
  {
    if calls != [] {
      var rest, outs := TimesFor(calls[1..], key), OutcomesFor(calls[1..], outcomes[1..], key);
      if calls[0].key == key {
        var (b, o) := Acquire(cfg, bucket, calls[0].now);
        assert TimesFor(calls, key)[1..] == rest;
        assert [outcomes[0]] + outs == [o] + Outcomes(cfg, Some(b), rest);
        assert ([outcomes[0]] + outs)[1..] == outs;
        assert ([o] + Outcomes(cfg, Some(b), rest))[1..] == Outcomes(cfg, Some(b), rest);
        assert ([outcomes[0]] + outs)[0] == outcomes[0];
        GrantsOfOwnBucket(cfg, Some(b), calls[1..], outcomes[1..], key, from, to);
      } else {
        assert TimesFor(calls, key) == rest;
        assert OutcomesFor(calls, outcomes, key) == outs;
        GrantsOfOwnBucket(cfg, bucket, calls[1..], outcomes[1..], key, from, to);
      }
    }
  }

  /** The limit as a client sees it: from a fresh limiter, under any traffic on any keys, stamped
      in any order across keys, and any hash function, no window grants a key more than the burst
      plus what its length refills. */
  lemma LimiterBound(cfg: Config, hash: string -> nat, states: seq<Shards>, calls: seq<Call>, outcomes: seq<Outcome>,
                     key: string, from: real, to: real)
    requires cfg.requestsPerSecond >= 0.0 && from <= to
    requires |states| == |calls| + 1 && |outcomes| == |calls| && |states[0]| == NUM_SHARDS
    requires forall k :: Lookup(hash, states[0], k) == None
    requires forall i :: 0 <= i < |calls| ==>
      IsCall(cfg, hash, states[i], states[i + 1], calls[i].key, calls[i].now, outcomes[i])
    requires Ordered(TimesFor(calls, key))
    ensures GrantsFor(calls, outcomes, key, from, to) as real <= cfg.burst as real + Earned(cfg, to - from)
  {
    KeysAreIndependent(cfg, hash, states, calls, outcomes, key);
    GrantsOfOwnBucket(cfg, None, calls, outcomes, key, from, to);
    WindowBound(cfg, None, TimesFor(calls, key), from, to);
  }

  // ── What a key is owed ───────────────────────────────────────────────

  /** Grants of one key among its own calls. */
  function GrantCount(outcomes: seq<Outcome>): nat {
    if outcomes == [] then 0
    else GrantCount(outcomes[..|outcomes| - 1]) + (if outcomes[|outcomes| - 1].Granted? then 1 else 0)
  }

  /** From its call `j` on, the key was granted so much that at its call `i` less than a token is
      left of a full burst and of what was refilled since. */
  predicate SpentSince(cfg: Config, times: seq<real>, outcomes: seq<Outcome>, j: nat, i: nat)
    requires j <= i < |times| == |outcomes|
  {
    GrantCount(outcomes[j..i]) as real > cfg.burst as real - 1.0 + Earned(cfg, times[i] - times[j])
  }

  /** What a bucket holds at the time of the key's call `i`, refilled and before it is charged. */
  function TokensAt(cfg: Config, times: seq<real>, i: nat): real
    requires i < |times|
  {
    Refill(cfg, After(cfg, None, times[..i]).UnwrapOr(Bucket(cfg.burst as real, times[i])), times[i]).tokens
  }

  lemma {:induction false} AfterSnoc(cfg: Config, bucket: Option<Bucket>, times: seq<real>, now: real)
    ensures After(cfg, bucket, times + [now]) == Some(Acquire(cfg, After(cfg, bucket, times), now).0)
    ensures Outcomes(cfg, bucket, times + [now]) ==
      Outcomes(cfg, bucket, times) + [Acquire(cfg, After(cfg, bucket, times), now).1]
    decreases |times|
  {
    if times == [] {
      assert [] + [now] == [now] && [now][1..] == [];
    } else {
      var (b, o) := Acquire(cfg, bucket, times[0]);
      assert (times + [now])[1..] == times[1..] + [now];
      AfterSnoc(cfg, Some(b), times[1..], now);
    }
  }

  lemma {:induction false} OutcomesLength(cfg: Config, bucket: Option<Bucket>, times: seq<real>)
    ensures |Outcomes(cfg, bucket, times)| == |times|
    decreases |times|
  {
    if times != [] { OutcomesLength(cfg, Some(Acquire(cfg, bucket, times[0]).0), times[1..]); }
  }

  /** The first `i` outcomes are those of the first `i` calls. */
  lemma {:induction false} OutcomesPrefix(cfg: Config, times: seq<real>, i: nat)
    requires i <= |times|
    ensures |Outcomes(cfg, None, times)| == |times|
    ensures Outcomes(cfg, None, times)[..i] == Outcomes(cfg, None, times[..i])
    decreases |times| - i
  {
    OutcomesLength(cfg, None, times);
    if i == |times| {
      assert times[..i] == times;
    } else {
      OutcomesPrefix(cfg, times, i + 1);
      assert times[..i + 1] == times[..i] + [times[i]];
      AfterSnoc(cfg, None, times[..i], times[i]);
      OutcomesLength(cfg, None, times[..i]);
      var all := Outcomes(cfg, None, times);
      assert all[..i] == all[..i + 1][..i];
    }
  }

  lemma OutcomeAt(cfg: Config, times: seq<real>, i: nat)
    requires i < |times|
    ensures |Outcomes(cfg, None, times)| == |times|
    ensures Outcomes(cfg, None, times)[i].Granted? <==> TokensAt(cfg, times, i) >= 1.0
  {
    OutcomesPrefix(cfg, times, i + 1);
    assert times[..i + 1] == times[..i] + [times[i]];
    AfterSnoc(cfg, None, times[..i], times[i]);
    OutcomesLength(cfg, None, times[..i]);
    assert Outcomes(cfg, None, times)[i] == Outcomes(cfg, None, times)[..i + 1][i];
  }

  lemma TokensAtFirst(cfg: Config, times: seq<real>)
    requires times != []
    ensures TokensAt(cfg, times, 0) == cfg.burst as real
  {
    EarnsNothing(cfg);
  }

  lemma EarnsNothing(cfg: Config)
    ensures Earned(cfg, 0.0) == 0.0
  {
  }

  lemma TokensAtNext(cfg: Config, times: seq<real>, i: nat)
    requires i + 1 < |times| && times[i] <= times[i + 1]
    ensures var left := TokensAt(cfg, times, i) - (if TokensAt(cfg, times, i) >= 1.0 then 1.0 else 0.0);
      var refilled := left + Earned(cfg, times[i + 1] - times[i]);
      TokensAt(cfg, times, i + 1) == if refilled <= cfg.burst as real then refilled else cfg.burst as real
  {
    assert times[..i + 1] == times[..i] + [times[i]];
    AfterSnoc(cfg, None, times[..i], times[i]);
    EarnsNothing(cfg);
  }

  /** A full burst at call `j`, less what was granted since, and what was refilled since. */
  function Left(cfg: Config, times: seq<real>, outcomes: seq<Outcome>, j: nat, i: nat): real
    requires j <= i < |times| == |outcomes|
  {
    cfg.burst as real - GrantCount(outcomes[j..i]) as real + Earned(cfg, times[i] - times[j])
  }

  lemma LeftNext(cfg: Config, times: seq<real>, outcomes: seq<Outcome>, j: nat, i: nat)
    requires j <= i && i + 1 < |times| == |outcomes|
    ensures Left(cfg, times, outcomes, j, i + 1) ==
      Left(cfg, times, outcomes, j, i) - (if outcomes[i].Granted? then 1.0 else 0.0)
      + Earned(cfg, times[i + 1] - times[i])
    ensures Left(cfg, times, outcomes, i, i) == cfg.burst as real
  {
    assert outcomes[j..i + 1][..i - j] == outcomes[j..i];
    EarnsNothing(cfg);
    EarnedIsLinear(cfg, times[i] - times[j], times[i + 1] - times[i]);
  }

  /** A bucket holds the least that is left of a full burst at any of the key's calls so far. */
  ghost predicate IsLeast(cfg: Config, times: seq<real>, outcomes: seq<Outcome>, least: nat, i: nat)
    requires i < |times| == |outcomes|
  {
    && least <= i && TokensAt(cfg, times, i) == Left(cfg, times, outcomes, least, i)
    && forall j :: 0 <= j <= i ==> TokensAt(cfg, times, i) <= Left(cfg, times, outcomes, j, i)
  }

  lemma LeftOfAllNext(cfg: Config, times: seq<real>, outcomes: seq<Outcome>, i: nat, spent: real, earned: real)
    requires i + 1 < |times| == |outcomes| && spent == (if outcomes[i].Granted? then 1.0 else 0.0)
    requires earned == Earned(cfg, times[i + 1] - times[i])
    ensures forall j :: 0 <= j <= i ==>
      Left(cfg, times, outcomes, j, i + 1) == Left(cfg, times, outcomes, j, i) - spent + earned
    ensures Left(cfg, times, outcomes, i + 1, i + 1) == cfg.burst as real
  {
    forall j | 0 <= j <= i
      ensures Left(cfg, times, outcomes, j, i + 1) == Left(cfg, times, outcomes, j, i) - spent + earned
    {
      LeftNext(cfg, times, outcomes, j, i);
    }
    EarnsNothing(cfg);
  }

  lemma LeastNext(cfg: Config, times: seq<real>, outcomes: seq<Outcome>, before: nat, i: nat) returns (least: nat)
    requires Ordered(times) && outcomes == Outcomes(cfg, None, times) && i + 1 < |times| == |outcomes|
    requires IsLeast(cfg, times, outcomes, before, i)
    ensures IsLeast(cfg, times, outcomes, least, i + 1)
  {
    var earned := Earned(cfg, times[i + 1] - times[i]);
    TokensAtNext(cfg, times, i);
    OutcomeAt(cfg, times, i);
    LeftOfAllNext(cfg, times, outcomes, i, if outcomes[i].Granted? then 1.0 else 0.0, earned);
    var next := i + 1;
    forall j | 0 <= j <= i
      ensures TokensAt(cfg, times, next) <= Left(cfg, times, outcomes, j, next)
    {
      assert TokensAt(cfg, times, i) <= Left(cfg, times, outcomes, j, i);
    }
    least := if TokensAt(cfg, times, i + 1) < cfg.burst as real then before else i + 1;
  }

  lemma {:induction false} TokensAreLeast(cfg: Config, times: seq<real>, outcomes: seq<Outcome>, i: nat)
    returns (least: nat)
    requires Ordered(times) && outcomes == Outcomes(cfg, None, times) && i < |times| == |outcomes|
    ensures IsLeast(cfg, times, outcomes, least, i)
  {
    if i == 0 {
      EarnsNothing(cfg);
      TokensAtFirst(cfg, times);
      least := 0;
    } else {
      var before := TokensAreLeast(cfg, times, outcomes, i - 1);
      least := LeastNext(cfg, times, outcomes, before, i - 1);
    }
  }

  lemma SpentIsLeft(cfg: Config, times: seq<real>, outcomes: seq<Outcome>, j: nat, i: nat)
    requires j <= i < |times| == |outcomes|
    ensures SpentSince(cfg, times, outcomes, j, i) <==> Left(cfg, times, outcomes, j, i) < 1.0
  {
  }

  /** Exactly when a key's call is refused, in terms of its own calls and grants only: since some
      call of its own, the burst and what was refilled since are spent. */
  lemma RefusedIffSpent(cfg: Config, times: seq<real>, i: nat)
    requires Ordered(times) && i < |times|
    ensures |Outcomes(cfg, None, times)| == |times|
    ensures Outcomes(cfg, None, times)[i].Refused? <==>
      exists j :: 0 <= j <= i && SpentSince(cfg, times, Outcomes(cfg, None, times), j, i)
  {
    var outcomes := Outcomes(cfg, None, times);
    OutcomeAt(cfg, times, i);
    var least := TokensAreLeast(cfg, times, outcomes, i);
    forall j | 0 <= j <= i
      ensures SpentSince(cfg, times, outcomes, j, i) <==> Left(cfg, times, outcomes, j, i) < 1.0
    {
      SpentIsLeft(cfg, times, outcomes, j, i);
    }
    if outcomes[i].Refused? {
      assert SpentSince(cfg, times, outcomes, least, i);
    }
  }

  /** The limiter as a client sees it, in both directions: from a fresh limiter, under any traffic
      on any keys and any hash function, a key's call is refused if and only if, since some call
      of that key, it was granted more than its burst and what was refilled allow. */
  lemma RefusedExactlyWhenSpent(cfg: Config, hash: string -> nat, states: seq<Shards>, calls: seq<Call>,
                                outcomes: seq<Outcome>, key: string, i: nat)
    requires |states| == |calls| + 1 && |outcomes| == |calls| && |states[0]| == NUM_SHARDS
    requires forall k :: Lookup(hash, states[0], k) == None
    requires forall n :: 0 <= n < |calls| ==>
      IsCall(cfg, hash, states[n], states[n + 1], calls[n].key, calls[n].now, outcomes[n])
    requires Ordered(TimesFor(calls, key)) && i < |TimesFor(calls, key)|
    ensures var times, own := TimesFor(calls, key), OutcomesFor(calls, outcomes, key);
      |own| == |times| && (own[i].Refused? <==> exists j :: 0 <= j <= i && SpentSince(cfg, times, own, j, i))
  {
    KeysAreIndependent(cfg, hash, states, calls, outcomes, key);
    RefusedIffSpent(cfg, TimesFor(calls, key), i);
  }

  lemma {:induction false} GrantCountIsBounded(outcomes: seq<Outcome>)
    ensures GrantCount(outcomes) <= |outcomes|
  {
    if outcomes != [] { GrantCountIsBounded(outcomes[..|outcomes| - 1]); }
  }

  /** So a key's first `burst` calls are all granted, however fast they come. */
  lemma BurstIsGranted(cfg: Config, hash: string -> nat, states: seq<Shards>, calls: seq<Call>, outcomes: seq<Outcome>,
                       key: string, i: nat)
    requires cfg.requestsPerSecond >= 0.0
    requires |states| == |calls| + 1 && |outcomes| == |calls| && |states[0]| == NUM_SHARDS
    requires forall k :: Lookup(hash, states[0], k) == None
    requires forall n :: 0 <= n < |calls| ==>
      IsCall(cfg, hash, states[n], states[n + 1], calls[n].key, calls[n].now, outcomes[n])
    requires Ordered(TimesFor(calls, key)) && i < |TimesFor(calls, key)|
    ensures i < cfg.burst ==>
      |OutcomesFor(calls, outcomes, key)| > i && OutcomesFor(calls, outcomes, key)[i].Granted?
  {
    RefusedExactlyWhenSpent(cfg, hash, states, calls, outcomes, key, i);
    var times, own := TimesFor(calls, key), OutcomesFor(calls, outcomes, key);
    if own[i].Refused? && i < cfg.burst {
      var j :| 0 <= j <= i && SpentSince(cfg, times, own, j, i);
      NotSpentEarly(cfg, times, own, j, i);
    }
  }

  lemma NotSpentEarly(cfg: Config, times: seq<real>, outcomes: seq<Outcome>, j: nat, i: nat)
    requires cfg.requestsPerSecond >= 0.0 && Ordered(times) && j <= i < |times| == |outcomes| && i < cfg.burst
    ensures !SpentSince(cfg, times, outcomes, j, i)
  {
    GrantCountIsBounded(outcomes[j..i]);
    EarnedFacts(cfg, times[i] - times[j], 0.0);
  }
}

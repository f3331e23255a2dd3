/** The sharded LRU + TTL response cache (crates/keplor-server/src/idempotency.rs), against the
    history of operations on it. */
module Idempotency {
  import opened Wrappers
  import opened Schema

  const NUM_SHARDS := 16

  datatype Entry = Entry(key: string, response: IngestResponse, expiresAt: nat)

  /** An LRU list, most recently used first. */
  type Lru = seq<Entry>

  // ── One shard ────────────────────────────────────────────────────────

  function Find(lru: Lru, key: string): (i: Option<nat>)
    ensures i.Some? ==> i.value < |lru| && lru[i.value].key == key
    ensures i.None? ==> forall j :: 0 <= j < |lru| ==> lru[j].key != key
  {
    if lru == [] then None
    else if lru[|lru| - 1].key == key then Some(|lru| - 1)
    else Find(lru[..|lru| - 1], key)
  }

  function Without(lru: Lru, i: nat): Lru
    requires i < |lru|
  {
    lru[..i] + lru[i + 1..]
  }

  /** `cache.get` promotes the entry; an expired one is then popped. */
  function GetFrom(lru: Lru, key: string, now: nat): (Lru, Option<IngestResponse>) {
    var i := Find(lru, key);
    if i.None? then (lru, None)
    else if now < lru[i.value].expiresAt then ([lru[i.value]] + Without(lru, i.value), Some(lru[i.value].response))
    else (Without(lru, i.value), None)
  }

  /** `cache.put` replaces and promotes, or evicts the least recently used entry when full. */
  function PutInto(lru: Lru, cap: nat, entry: Entry): Lru
    requires |lru| <= cap && cap > 0
  {
    var i := Find(lru, entry.key);
    if i.Some? then [entry] + Without(lru, i.value)
    else if |lru| == cap then [entry] + lru[..|lru| - 1]
    else [entry] + lru
  }

  // ── History: the simple timed map the cache stands for ───────────────

  datatype Op =
    | Inserted(key: string, response: IngestResponse, at: nat)
    | Hit(key: string, at: nat)
    | Missed(key: string, at: nat)

  /** The latest response inserted under `key`, and when. */
  function Latest(log: seq<Op>, key: string): Option<(IngestResponse, nat)> {
    if log == [] then None
    else
      var op := log[|log| - 1];
      if op.Inserted? && op.key == key then Some((op.response, op.at)) else Latest(log[..|log| - 1], key)
  }

  predicate Uses(op: Op, key: string) {
    !op.Missed? && op.key == key
  }

  function ShardIndex(hash: string -> nat, key: string): nat {
    hash(key) % NUM_SHARDS
  }

  /** Other keys of the same shard used (inserted or hit) since `key` was last used. */
  function UsedSince(hash: string -> nat, log: seq<Op>, key: string): set<string> {
    if log == [] then {}
    else
      var op := log[|log| - 1];
      if Uses(op, key) then {}
      else
        UsedSince(hash, log[..|log| - 1], key)
        + (if !op.Missed? && ShardIndex(hash, op.key) == ShardIndex(hash, key) then {op.key} else {})
  }

  /** What an entry's absence means: never inserted, expired, or pushed out by `cap` other keys. */
  predicate MayBeAbsent(hash: string -> nat, cap: nat, ttl: nat, log: seq<Op>, key: string, now: nat) {
    var latest := Latest(log, key);
    latest.None? || now >= latest.value.1 + ttl || |UsedSince(hash, log, key)| >= cap
  }

  // ── Invariant ────────────────────────────────────────────────────────

  predicate DistinctKeys(lru: Lru) {
    forall i, j :: 0 <= i < j < |lru| ==> lru[i].key != lru[j].key
  }

  /** An entry is the key's latest insert, and whoever is ahead of it was used since its use. */
  predicate EntryInv(hash: string -> nat, ttl: nat, log: seq<Op>, lru: Lru, p: nat)
    requires p < |lru|
  {
    var e := lru[p];
    var latest := Latest(log, e.key);
    && latest.Some? && latest.value.0 == e.response && e.expiresAt == latest.value.1 + ttl
    && forall q :: 0 <= q < p ==> lru[q].key in UsedSince(hash, log, e.key)
  }

  ghost predicate ShardInv(hash: string -> nat, cap: nat, ttl: nat, log: seq<Op>, clock: nat, lru: Lru, s: nat) {
    && |lru| <= cap && DistinctKeys(lru)
    && (forall p :: 0 <= p < |lru| ==> ShardIndex(hash, lru[p].key) == s && EntryInv(hash, ttl, log, lru, p))
    && forall k :: ShardIndex(hash, k) == s && Find(lru, k).None? ==> MayBeAbsent(hash, cap, ttl, log, k, clock)
  }

  // ── Steps on one shard ───────────────────────────────────────────────

  lemma LogExtends(hash: string -> nat, log: seq<Op>, op: Op, key: string)
    ensures Latest(log + [op], key) ==
      if op.Inserted? && op.key == key then Some((op.response, op.at)) else Latest(log, key)
    ensures UsedSince(hash, log + [op], key) ==
      if Uses(op, key) then {}
      else
        var used := !op.Missed? && ShardIndex(hash, op.key) == ShardIndex(hash, key);
        UsedSince(hash, log, key) + (if used then {op.key} else {})
  {
  }

  lemma AbsenceKept(hash: string -> nat, cap: nat, ttl: nat, log: seq<Op>, clock: nat, op: Op, now: nat, key: string)
    requires MayBeAbsent(hash, cap, ttl, log, key, clock) && clock <= now && !Uses(op, key)
    ensures MayBeAbsent(hash, cap, ttl, log + [op], key, now)
  {
    LogExtends(hash, log, op, key);
    SubsetSize(UsedSince(hash, log, key), UsedSince(hash, log + [op], key));
  }

  lemma SubsetSize<T>(a: set<T>, b: set<T>)
    requires a <= b
    ensures |a| <= |b|
  {
    assert b == a + (b - a);
  }

  /** An operation on another shard changes nothing here. */
  lemma ElsewhereKeeps(hash: string -> nat, cap: nat, ttl: nat, log: seq<Op>, clock: nat, lru: Lru, s: nat, op: Op,
                       now: nat)
    requires ShardInv(hash, cap, ttl, log, clock, lru, s) && clock <= now && ShardIndex(hash, op.key) != s
    ensures ShardInv(hash, cap, ttl, log + [op], now, lru, s)
  {
    forall k | ShardIndex(hash, k) == s
      ensures Latest(log + [op], k) == Latest(log, k) && UsedSince(hash, log + [op], k) == UsedSince(hash, log, k)
    {
      LogExtends(hash, log, op, k);
    }
    forall k | ShardIndex(hash, k) == s && Find(lru, k).None?
      ensures MayBeAbsent(hash, cap, ttl, log + [op], k, now)
    {
      AbsenceKept(hash, cap, ttl, log, clock, op, now, k);
    }
  }

  /** Entry `p` of `part` has in front of it only entries it had in front of it in `whole`. */
  predicate Placed(part: Lru, whole: Lru, p: nat)
    requires p < |part|
  {
    exists i :: 0 <= i < |whole| && whole[i] == part[p] && forall q :: 0 <= q < p ==> part[q] in whole[..i]
  }

  predicate InOrder(part: Lru, whole: Lru) {
    forall p :: 0 <= p < |part| ==> Placed(part, whole, p)
  }

  lemma WithoutInOrder(lru: Lru, i: nat)
    requires i < |lru|
    ensures InOrder(Without(lru, i), lru)
  {
  }

  lemma WithoutDistinct(lru: Lru, i: nat)
    requires i < |lru| && DistinctKeys(lru)
    ensures DistinctKeys(Without(lru, i)) && Find(Without(lru, i), lru[i].key).None?
  {
  }

  lemma WithoutFinds(lru: Lru, i: nat, k: string)
    requires i < |lru| && k != lru[i].key && Find(Without(lru, i), k).None?
    ensures Find(lru, k).None?
  {
    forall j | 0 <= j < |lru|
      ensures lru[j].key != k
    {
      if j != i { assert Without(lru, i)[if j < i then j else j - 1] == lru[j]; }
    }
  }

  lemma PrefixInOrder(lru: Lru, n: nat)
    requires n <= |lru|
    ensures InOrder(lru[..n], lru)
  {
    forall p | 0 <= p < n
      ensures Placed(lru[..n], lru, p)
    {
      assert lru[p] == lru[..n][p];
      forall q | 0 <= q < p ensures lru[..n][q] in lru[..p] { assert lru[..p][q] == lru[..n][q]; }
    }
  }

  /** Moving or putting an entry in front: the rest keep their order, minus position `i` if the
      entry came from there. */
  lemma FrontKeeps(hash: string -> nat, ttl: nat, log: seq<Op>, op: Op, lru: Lru, front: Entry, rest: Lru)
    requires Uses(op, front.key) && DistinctKeys(lru)
    requires forall p :: 0 <= p < |lru| ==>
      EntryInv(hash, ttl, log, lru, p) && ShardIndex(hash, lru[p].key) == ShardIndex(hash, front.key)
    requires forall p :: 0 <= p < |rest| ==> rest[p].key != front.key
    requires InOrder(rest, lru)
    ensures forall p :: 1 <= p < |rest| + 1 ==> EntryInv(hash, ttl, log + [op], [front] + rest, p)
  {
    var lru' := [front] + rest;
    forall p | 1 <= p < |lru'|
      ensures EntryInv(hash, ttl, log + [op], lru', p)
    {
      var e := rest[p - 1];
      LogExtends(hash, log, op, e.key);
      assert Placed(rest, lru, p - 1);
      var i :| 0 <= i < |lru| && lru[i] == e && forall q :: 0 <= q < p - 1 ==> rest[q] in lru[..i];
      assert EntryInv(hash, ttl, log, lru, i);
      forall q | 0 <= q < p
        ensures lru'[q].key in UsedSince(hash, log + [op], e.key)
      {
        if q > 0 {
          assert rest[q - 1] in lru[..i];
          var j :| 0 <= j < i && lru[j] == rest[q - 1];
        }
      }
    }
  }

  lemma HitKeeps(hash: string -> nat, cap: nat, ttl: nat, log: seq<Op>, clock: nat, lru: Lru, s: nat, i: nat, now: nat)
    requires ShardInv(hash, cap, ttl, log, clock, lru, s) && clock <= now && i < |lru|
    ensures ShardInv(hash, cap, ttl, log + [Hit(lru[i].key, now)], now, [lru[i]] + Without(lru, i), s)
  {
    var op := Hit(lru[i].key, now);
    WithoutInOrder(lru, i);
    WithoutDistinct(lru, i);
    forall k | k != lru[i].key && Find(Without(lru, i), k).None?
      ensures Find(lru, k).None?
    {
      WithoutFinds(lru, i, k);
    }
    LogExtends(hash, log, op, lru[i].key);
    assert EntryInv(hash, ttl, log, lru, i);
    FrontInv(hash, cap, ttl, log, clock, lru, s, op, lru[i], Without(lru, i), now);
  }

  /** Putting `front` ahead of `rest` keeps the invariant, if `rest` is what remains of the old
      list in its order and every key it dropped may be absent. */
  lemma FrontInv(hash: string -> nat, cap: nat, ttl: nat, log: seq<Op>, clock: nat, lru: Lru, s: nat, op: Op,
                 front: Entry, rest: Lru, now: nat)
    requires ShardInv(hash, cap, ttl, log, clock, lru, s) && clock <= now && Uses(op, front.key)
    requires ShardIndex(hash, front.key) == s
    requires |rest| < cap && DistinctKeys(rest) && Find(rest, front.key).None? && InOrder(rest, lru)
    requires var latest := Latest(log + [op], front.key);
      latest.Some? && latest.value.0 == front.response && front.expiresAt == latest.value.1 + ttl
    requires forall k :: k != front.key && Find(rest, k).None? ==>
      Find(lru, k).None? || MayBeAbsent(hash, cap, ttl, log + [op], k, now)
    ensures ShardInv(hash, cap, ttl, log + [op], now, [front] + rest, s)
  {
    var lru' := [front] + rest;
    FrontKeeps(hash, ttl, log, op, lru, front, rest);
    forall k
      ensures ShardIndex(hash, k) == s && Find(lru', k).None? ==> MayBeAbsent(hash, cap, ttl, log + [op], k, now)
    {
      AbsentAfterFront(hash, cap, ttl, log, clock, lru, s, op, front, rest, now, k);
    }
    forall p | 0 <= p < |rest|
      ensures ShardIndex(hash, rest[p].key) == s
    {
      assert Placed(rest, lru, p);
    }
    assert EntryInv(hash, ttl, log + [op], lru', 0);
  }

  lemma AbsentFromBoth(front: Entry, rest: Lru, k: string)
    requires Find([front] + rest, k).None?
    ensures front.key != k && Find(rest, k).None?
  {
    var lru := [front] + rest;
    assert lru[0].key != k;
    forall j | 0 <= j < |rest|
      ensures rest[j].key != k
    {
      assert lru[j + 1] == rest[j];
    }
  }

  /** With `front` put ahead of `rest`, a key is absent only if it was absent before or is one
      that `rest` dropped. */
  lemma AbsentAfterFront(hash: string -> nat, cap: nat, ttl: nat, log: seq<Op>, clock: nat, lru: Lru, s: nat, op: Op,
                         front: Entry, rest: Lru, now: nat, k: string)
    requires ShardIndex(hash, k) == s && Find(lru, k).None? ==> MayBeAbsent(hash, cap, ttl, log, k, clock)
    requires clock <= now && !op.Missed? && op.key == front.key
    requires k != front.key && Find(rest, k).None? ==>
      Find(lru, k).None? || MayBeAbsent(hash, cap, ttl, log + [op], k, now)
    ensures ShardIndex(hash, k) == s && Find([front] + rest, k).None? ==>
      MayBeAbsent(hash, cap, ttl, log + [op], k, now)
  {
    if ShardIndex(hash, k) == s && Find([front] + rest, k).None? {
      AbsentFromBoth(front, rest, k);
      if Find(lru, k).None? {
        AbsenceKept(hash, cap, ttl, log, clock, op, now, k);
      }
    }
  }

  lemma ExpiredKeeps(hash: string -> nat, cap: nat, ttl: nat, log: seq<Op>, clock: nat, lru: Lru, s: nat, i: nat,
                     now: nat)
    requires ShardInv(hash, cap, ttl, log, clock, lru, s) && clock <= now && i < |lru| && lru[i].expiresAt <= now
    ensures ShardInv(hash, cap, ttl, log + [Missed(lru[i].key, now)], now, Without(lru, i), s)
  {
    var op := Missed(lru[i].key, now);
    var rest := Without(lru, i);
    WithoutInOrder(lru, i);
    WithoutDistinct(lru, i);
    forall p | 0 <= p < |rest|
      ensures EntryInv(hash, ttl, log + [op], rest, p)
    {
      LogExtends(hash, log, op, rest[p].key);
      assert Placed(rest, lru, p);
      var j :| 0 <= j < |lru| && lru[j] == rest[p] && forall q :: 0 <= q < p ==> rest[q] in lru[..j];
      assert EntryInv(hash, ttl, log, lru, j);
      forall q | 0 <= q < p
        ensures rest[q].key in UsedSince(hash, log + [op], rest[p].key)
      {
        assert rest[q] in lru[..j];
      }
    }
    forall k | ShardIndex(hash, k) == s && Find(rest, k).None?
      ensures MayBeAbsent(hash, cap, ttl, log + [op], k, now)
    {
      LogExtends(hash, log, op, k);
      if k == lru[i].key {
        assert EntryInv(hash, ttl, log, lru, i);
      } else {
        WithoutFinds(lru, i, k);
        AbsenceKept(hash, cap, ttl, log, clock, op, now, k);
      }
    }
  }

  lemma MissKeeps(hash: string -> nat, cap: nat, ttl: nat, log: seq<Op>, clock: nat, lru: Lru, s: nat, key: string,
                  now: nat)
    requires ShardInv(hash, cap, ttl, log, clock, lru, s) && clock <= now
    ensures ShardInv(hash, cap, ttl, log + [Missed(key, now)], now, lru, s)
  {
  }

  /** Looking a key up keeps the invariant; a hit returns the latest insert, made less than one
      TTL ago; a miss means there is no such insert or `cap` other keys were used since. */
  lemma GetKeeps(hash: string -> nat, cap: nat, ttl: nat, log: seq<Op>, clock: nat, lru: Lru, key: string, now: nat)
    requires ShardInv(hash, cap, ttl, log, clock, lru, ShardIndex(hash, key)) && clock <= now
    ensures var (lru', r) := GetFrom(lru, key, now);
      var op := if r.Some? then Hit(key, now) else Missed(key, now);
      && ShardInv(hash, cap, ttl, log + [op], now, lru', ShardIndex(hash, key))
      && (r.Some? ==>
           Latest(log, key).Some? && Latest(log, key).value.0 == r.value && now < Latest(log, key).value.1 + ttl)
      && (r.None? ==> MayBeAbsent(hash, cap, ttl, log, key, now))
  {
    var s := ShardIndex(hash, key);
    var i := Find(lru, key);
    if i.None? {
      MissKeeps(hash, cap, ttl, log, clock, lru, s, key, now);
    } else {
      assert EntryInv(hash, ttl, log, lru, i.value);
      if now < lru[i.value].expiresAt {
        HitKeeps(hash, cap, ttl, log, clock, lru, s, i.value, now);
      } else {
        ExpiredKeeps(hash, cap, ttl, log, clock, lru, s, i.value, now);
      }
    }
  }

  lemma {:induction false} KeySetSize(lru: Lru)
    requires DistinctKeys(lru)
    ensures |set e | e in lru :: e.key| == |lru|
  {
    if lru != [] {
      var n := |lru| - 1;
      KeySetSize(lru[..n]);
      var keys := set e | e in lru[..n] :: e.key;
      assert lru[n].key !in keys;
      assert (set e | e in lru :: e.key) == keys + {lru[n].key};
    }
  }

  /** The evicted key was outlived by `cap` others: everyone ahead of it and the newcomer. */
  lemma EvictedWasOutlived(hash: string -> nat, cap: nat, ttl: nat, log: seq<Op>, lru: Lru, s: nat, op: Op)
    requires |lru| == cap > 0 && DistinctKeys(lru) && EntryInv(hash, ttl, log, lru, cap - 1)
    requires ShardIndex(hash, lru[cap - 1].key) == s == ShardIndex(hash, op.key) && !op.Missed?
    requires Find(lru, op.key).None?
    ensures |UsedSince(hash, log + [op], lru[cap - 1].key)| >= cap
  {
    var k := lru[cap - 1].key;
    LogExtends(hash, log, op, k);
    var ahead := lru[..cap - 1];
    KeySetSize(ahead);
    var keys := set e | e in ahead :: e.key;
    assert op.key !in keys;
    forall key | key in keys
      ensures key in UsedSince(hash, log, k)
    {
      var e :| e in ahead && e.key == key;
    }
    SubsetSize(keys + {op.key}, UsedSince(hash, log + [op], k));
  }

  /** What an insert keeps of the old list. */
  function Kept(lru: Lru, cap: nat, key: string): Lru
    requires |lru| <= cap && cap > 0
  {
    var i := Find(lru, key);
    if i.Some? then Without(lru, i.value) else if |lru| == cap then lru[..cap - 1] else lru
  }

  lemma KeptInOrder(lru: Lru, cap: nat, key: string)
    requires |lru| <= cap && cap > 0 && DistinctKeys(lru)
    ensures var rest := Kept(lru, cap, key);
      |rest| < cap && DistinctKeys(rest) && Find(rest, key).None? && InOrder(rest, lru)
  {
    var i := Find(lru, key);
    if i.Some? {
      WithoutInOrder(lru, i.value);
      WithoutDistinct(lru, i.value);
    } else {
      PrefixInOrder(lru, |Kept(lru, cap, key)|);
      assert lru[..|lru|] == lru;
    }
  }

  lemma DroppedMayBeAbsent(hash: string -> nat, cap: nat, ttl: nat, log: seq<Op>, clock: nat, lru: Lru, op: Op,
                           now: nat, k: string)
    requires ShardInv(hash, cap, ttl, log, clock, lru, ShardIndex(hash, op.key)) && cap > 0 && !op.Missed?
    requires k != op.key && Find(Kept(lru, cap, op.key), k).None?
    ensures Find(lru, k).None? || MayBeAbsent(hash, cap, ttl, log + [op], k, now)
  {
    var i := Find(lru, op.key);
    if i.Some? {
      WithoutFinds(lru, i.value, k);
    } else if |lru| == cap {
      if k == lru[cap - 1].key {
        EvictedWasOutlived(hash, cap, ttl, log, lru, ShardIndex(hash, op.key), op);
      } else {
        forall j | 0 <= j < |lru|
          ensures lru[j].key != k
        {
          if j < cap - 1 { assert lru[..cap - 1][j] == lru[j]; }
        }
      }
    }
  }

  /** Inserting keeps the invariant. */
  lemma PutKeeps(hash: string -> nat, cap: nat, ttl: nat, log: seq<Op>, clock: nat, lru: Lru, key: string,
                 response: IngestResponse, now: nat)
    requires ShardInv(hash, cap, ttl, log, clock, lru, ShardIndex(hash, key)) && clock <= now && cap > 0
    ensures ShardInv(hash, cap, ttl, log + [Inserted(key, response, now)], now,
                     PutInto(lru, cap, Entry(key, response, now + ttl)), ShardIndex(hash, key))
  {
    var op := Inserted(key, response, now);
    var entry := Entry(key, response, now + ttl);
    var rest := Kept(lru, cap, key);
    KeptInOrder(lru, cap, key);
    LogExtends(hash, log, op, key);
    forall k | k != key && Find(rest, k).None?
      ensures Find(lru, k).None? || MayBeAbsent(hash, cap, ttl, log + [op], k, now)
    {
      DroppedMayBeAbsent(hash, cap, ttl, log, clock, lru, op, now, k);
    }
    FrontInv(hash, cap, ttl, log, clock, lru, ShardIndex(hash, key), op, entry, rest, now);
    assert PutInto(lru, cap, entry) == [entry] + rest;
  }

  /** After a miss the key is not in its shard, expired or never there. */
  lemma MissLeavesNothing(lru: Lru, key: string, now: nat)
    requires DistinctKeys(lru)
    ensures var (lru', r) := GetFrom(lru, key, now); r.None? ==> Find(lru', key).None?
  {
  }

  // ── The cache ────────────────────────────────────────────────────────

  function TotalEntries(shards: seq<Lru>): nat {
    if shards == [] then 0 else TotalEntries(shards[..|shards| - 1]) + |shards[|shards| - 1]|
  }

  lemma {:induction false} TotalBound(shards: seq<Lru>, cap: nat)
    requires forall s :: 0 <= s < |shards| ==> |shards[s]| <= cap
    ensures TotalEntries(shards) <= |shards| * cap
  {
    if shards != [] {
      TotalBound(shards[..|shards| - 1], cap);
      assert |shards| * cap == (|shards| - 1) * cap + cap;
    }
  }

  class IdempotencyCache {
    var shards: seq<Lru>
    const capacity: nat
    const ttl: nat
    const hash: string -> nat
    ghost var log: seq<Op>
    ghost var clock: nat

    ghost predicate Valid()
      reads this
    {
      && |shards| == NUM_SHARDS && capacity > 0
      && forall s :: 0 <= s < NUM_SHARDS ==> ShardInv(hash, capacity, ttl, log, clock, shards[s], s)
    }

    constructor (maxEntries: nat, ttl: nat, hash: string -> nat)
      ensures Valid() && log == [] && this.ttl == ttl && this.hash == hash
      ensures capacity == if maxEntries < NUM_SHARDS then 1 else maxEntries / NUM_SHARDS
    {
      var perShard := maxEntries / NUM_SHARDS;
      capacity := if perShard < 1 then 1 else perShard;
      this.ttl, this.hash := ttl, hash;
      shards := seq(NUM_SHARDS, i => []);
      log, clock := [], 0;
    }

    method Get(key: string, now: nat) returns (r: Option<IngestResponse>)
      requires Valid() && clock <= now
      modifies this
      ensures Valid() && clock == now && log == old(log) + [if r.Some? then Hit(key, now) else Missed(key, now)]
      ensures r.Some? ==> Latest(old(log), key).Some? && Latest(old(log), key).value.0 == r.value
                          && now < Latest(old(log), key).value.1 + ttl
      ensures r.None? ==> MayBeAbsent(hash, capacity, ttl, old(log), key, now)
      ensures r.None? ==> Find(shards[ShardIndex(hash, key)], key).None?
    {
      var s := ShardIndex(hash, key);
      var (lru, found) := GetFrom(shards[s], key, now);
      r := found;
      ghost var op := if r.Some? then Hit(key, now) else Missed(key, now);
      GetKeeps(hash, capacity, ttl, log, clock, shards[s], key, now);
      OthersKeep(op, now);
      MissLeavesNothing(shards[s], key, now);
      shards := shards[s := lru];
      log, clock := log + [op], now;
    }

    method Insert(key: string, response: IngestResponse, now: nat)
      requires Valid() && clock <= now
      modifies this
      ensures Valid() && clock == now && log == old(log) + [Inserted(key, response, now)]
    {
      var s := ShardIndex(hash, key);
      ghost var op := Inserted(key, response, now);
      PutKeeps(hash, capacity, ttl, log, clock, shards[s], key, response, now);
      OthersKeep(op, now);
      shards := shards[s := PutInto(shards[s], capacity, Entry(key, response, now + ttl))];
      log, clock := log + [op], now;
    }

    lemma OthersKeep(op: Op, now: nat)
      requires Valid() && clock <= now
      ensures forall s :: 0 <= s < NUM_SHARDS && s != ShardIndex(hash, op.key) ==>
        ShardInv(hash, capacity, ttl, log + [op], now, shards[s], s)
    {
      forall s | 0 <= s < NUM_SHARDS && s != ShardIndex(hash, op.key)
        ensures ShardInv(hash, capacity, ttl, log + [op], now, shards[s], s)
      {
        ElsewhereKeeps(hash, capacity, ttl, log, clock, shards[s], s, op, now);
      }
    }

    lemma SizeIsBounded()
      requires Valid()
      ensures TotalEntries(shards) <= NUM_SHARDS * capacity
    {
      TotalBound(shards, capacity);
    }
  }
}

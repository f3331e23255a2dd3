/** Merging daily rollups across tiers and aggregating them
    (crates/keplor-store/src/kdb_store.rs, `query_rollups` and `aggregate_stats`). */
module Rollups {
  import opened Wrappers
  import opened MachineInts
  import opened Money

  /** A day's counters of one user, key, model and provider; also the accumulators. */
  datatype Acc = Acc(
    eventCount: i64, errorCount: i64, inputTokens: i64, outputTokens: i64,
    cacheRead: i64, cacheCreation: i64, cost: i64)

  const ZERO := Acc(0, 0, 0, 0, 0, 0, 0)

  datatype Counter = EventCount | ErrorCount | InputTokens | OutputTokens | CacheRead | CacheCreation

  function Pick(c: Counter, a: Acc): int {
    match c
    case EventCount => a.eventCount
    case ErrorCount => a.errorCount
    case InputTokens => a.inputTokens
    case OutputTokens => a.outputTokens
    case CacheRead => a.cacheRead
    case CacheCreation => a.cacheCreation
  }

  function CounterOf(c: Counter): Acc -> int {
    (a: Acc) => Pick(c, a)
  }

  function CostOf(): Acc -> int {
    (a: Acc) => a.cost
  }

  // ── Two's-complement addition ────────────────────────────────────────

  const TWO64 := 0x1_0000_0000_0000_0000

  /** `+=` on an i64 without overflow checks. */
  function Wrap(x: int): i64 {
    (x - I64_MIN) % TWO64 + I64_MIN
  }

  lemma WrapAdd(x: int, y: int)
    ensures Wrap(Wrap(x) + y) == Wrap(x + y)
  {
    var k := (x - I64_MIN) / TWO64;
    assert Wrap(x) == x - k * TWO64;
    ModShift(x + y - I64_MIN, k);
  }

  lemma ModShift(a: int, k: int)
    ensures (a - k * TWO64) % TWO64 == a % TWO64
  {
  }

  lemma WrapAddBoth(x: int, y: int)
    ensures Wrap(Wrap(x) + Wrap(y)) == Wrap(x + y)
  {
  }

  function AddInto(a: Acc, b: Acc): Acc {
    Acc(Wrap(a.eventCount + b.eventCount), Wrap(a.errorCount + b.errorCount), Wrap(a.inputTokens + b.inputTokens),
        Wrap(a.outputTokens + b.outputTokens), Wrap(a.cacheRead + b.cacheRead), Wrap(a.cacheCreation + b.cacheCreation),
        Add(a.cost, b.cost))
  }

  lemma AddIntoPick(a: Acc, b: Acc, c: Counter)
    ensures Pick(c, AddInto(a, b)) == Wrap(Pick(c, a) + Pick(c, b))
    ensures Pick(c, ZERO) == 0
  {
  }

  // ── Exact sums over rows ─────────────────────────────────────────────

  type Rows<K> = seq<(K, Acc)>

  /** The unbounded sum of `f` over the rows whose key satisfies `p`. */
  function SumWhere<K>(rows: Rows<K>, p: K -> bool, f: Acc -> int): int {
    if rows == [] then 0
    else SumWhere(rows[..|rows| - 1], p, f) + (if p(rows[|rows| - 1].0) then f(rows[|rows| - 1].1) else 0)
  }

  predicate Occurs<K>(rows: Rows<K>, p: K -> bool) {
    exists i :: 0 <= i < |rows| && p(rows[i].0)
  }

  predicate NoneNegative<K>(rows: Rows<K>) {
    forall i :: 0 <= i < |rows| ==> rows[i].1.cost >= 0
  }

  lemma SumSnoc<K>(rows: Rows<K>, row: (K, Acc), p: K -> bool, f: Acc -> int)
    ensures SumWhere(rows + [row], p, f) == SumWhere(rows, p, f) + (if p(row.0) then f(row.1) else 0)
    ensures Occurs(rows + [row], p) <==> Occurs(rows, p) || p(row.0)
  {
  }

  lemma {:induction false} SumOfNone<K>(rows: Rows<K>, p: K -> bool, f: Acc -> int)
    requires !Occurs(rows, p)
    ensures SumWhere(rows, p, f) == 0
  {
    if rows != [] {
      var n := |rows| - 1;
      assert !p(rows[n].0);
      assert forall i :: 0 <= i < n ==> rows[..n][i] == rows[i];
      SumOfNone(rows[..n], p, f);
    }
  }

  lemma {:induction false} SumConcat<K>(a: Rows<K>, b: Rows<K>, p: K -> bool, f: Acc -> int)
    ensures SumWhere(a + b, p, f) == SumWhere(a, p, f) + SumWhere(b, p, f)
  {
    if b == [] {
      assert a + b == a;
    } else {
      assert (a + b)[..|a + b| - 1] == a + b[..|b| - 1];
      SumConcat(a, b[..|b| - 1], p, f);
    }
  }

  function Without<T>(s: seq<T>, j: nat): seq<T>
    requires j < |s|
  {
    s[..j] + s[j + 1..]
  }

  lemma WithoutCount<T>(s: seq<T>, j: nat)
    requires j < |s|
    ensures multiset(Without(s, j)) == multiset(s) - multiset{s[j]}
  {
    assert s == s[..j] + [s[j]] + s[j + 1..];
  }

  lemma SumWithout<K>(rows: Rows<K>, j: nat, p: K -> bool, f: Acc -> int)
    requires j < |rows|
    ensures SumWhere(rows, p, f) == SumWhere(Without(rows, j), p, f) + (if p(rows[j].0) then f(rows[j].1) else 0)
  {
    var a, b := rows[..j], rows[j + 1..];
    SplitAt(rows, j);
    SumInsert(a, rows[j], b, p, f);
  }

  lemma SplitAt<T>(s: seq<T>, j: nat)
    requires j < |s|
    ensures s == s[..j] + [s[j]] + s[j + 1..]
  {
  }

  lemma SumInsert<K>(a: Rows<K>, row: (K, Acc), b: Rows<K>, p: K -> bool, f: Acc -> int)
    ensures SumWhere(a + [row] + b, p, f) == SumWhere(a + b, p, f) + (if p(row.0) then f(row.1) else 0)
  {
    SumConcat(a, b, p, f);
    SumConcat(a + [row], b, p, f);
    SumSnoc(a, row, p, f);
  }

  /** The sum does not depend on the order of the rows, nor on how tiers share them out. */
  lemma {:induction false} SumOfPermutation<K>(a: Rows<K>, b: Rows<K>, p: K -> bool, f: Acc -> int)
    requires multiset(a) == multiset(b)
    ensures SumWhere(a, p, f) == SumWhere(b, p, f)
    decreases |a|
  {
    if a == [] {
      assert |multiset(a)| == 0 && |multiset(b)| == |b|;
    } else {
      var n := |a| - 1;
      assert a[n] in multiset(b);
      var j :| 0 <= j < |b| && b[j] == a[n];
      WithoutCount(a, n);
      WithoutCount(b, j);
      SumOfPermutation(Without(a, n), Without(b, j), p, f);
      SumWithout(a, n, p, f);
      SumWithout(b, j, p, f);
    }
  }

  // ── Grouping ─────────────────────────────────────────────────────────

  /** Rows that pass the filter and fall into group `g`. */
  function InGroup<K, G(==)>(pass: K -> bool, groupOf: K -> G, g: G): K -> bool {
    (k: K) => pass(k) && groupOf(k) == g
  }

  /** What one accumulator should hold: each counter the wrapped true sum, and the cost, if none
      is negative, the capped true sum. */
  ghost predicate IsTotal<K>(acc: Acc, rows: Rows<K>, p: K -> bool) {
    && (forall c :: Pick(c, acc) == Wrap(SumWhere(rows, p, CounterOf(c))))
    && (NoneNegative(rows) ==> acc.cost == Min(I64_MAX, SumWhere(rows, p, CostOf())))
  }

  /** `stats` has one accumulator per group that occurs, holding the group's totals. */
  ghost predicate IsStats<K, G(!new)>(stats: map<G, Acc>, rows: Rows<K>, pass: K -> bool, groupOf: K -> G) {
    forall g :: (g in stats <==> Occurs(rows, InGroup(pass, groupOf, g)))
                && (g in stats ==> IsTotal(stats[g], rows, InGroup(pass, groupOf, g)))
  }

  lemma {:induction false} CostIsNonNegative<K>(rows: Rows<K>, p: K -> bool)
    requires NoneNegative(rows)
    ensures SumWhere(rows, p, CostOf()) >= 0
  {
    if rows != [] { CostIsNonNegative(rows[..|rows| - 1], p); }
  }

  lemma WrapZero()
    ensures Wrap(0) == 0
  {
  }

  lemma NothingYet<K>(rows: Rows<K>, p: K -> bool)
    requires !Occurs(rows, p)
    ensures IsTotal(ZERO, rows, p)
  {
    forall c
      ensures Pick(c, ZERO) == Wrap(SumWhere(rows, p, CounterOf(c)))
    {
      SumOfNone(rows, p, CounterOf(c));
      WrapZero();
    }
    SumOfNone(rows, p, CostOf());
  }

  lemma TotalOneMore<K>(acc: Acc, rows: Rows<K>, p: K -> bool, row: (K, Acc))
    requires IsTotal(acc, rows, p)
    ensures IsTotal(if p(row.0) then AddInto(acc, row.1) else acc, rows + [row], p)
  {
    var acc' := if p(row.0) then AddInto(acc, row.1) else acc;
    forall c
      ensures Pick(c, acc') == Wrap(SumWhere(rows + [row], p, CounterOf(c)))
    {
      SumSnoc(rows, row, p, CounterOf(c));
      AddIntoPick(acc, row.1, c);
      WrapAdd(SumWhere(rows, p, CounterOf(c)), Pick(c, row.1));
    }
    if NoneNegative(rows + [row]) {
      assert row == (rows + [row])[|rows|];
      assert forall i :: 0 <= i < |rows| ==> rows[i] == (rows + [row])[i];
      CostIsNonNegative(rows, p);
      SumSnoc(rows, row, p, CostOf());
    }
  }

  /** `merged.entry(key).or_default()`, then the additions. */
  function Entry<G>(stats: map<G, Acc>, g: G): Acc {
    if g in stats then stats[g] else ZERO
  }

  lemma StatsOneMore<K, G(!new)>(stats: map<G, Acc>, rows: Rows<K>, pass: K -> bool, groupOf: K -> G, row: (K, Acc))
    requires IsStats(stats, rows, pass, groupOf)
    ensures var g := groupOf(row.0);
      IsStats(if pass(row.0) then stats[g := AddInto(Entry(stats, g), row.1)] else stats, rows + [row], pass, groupOf)
  {
    forall g
      ensures IsTotal(Entry(stats, g), rows, InGroup(pass, groupOf, g))
    {
      if g !in stats { NothingYet(rows, InGroup(pass, groupOf, g)); }
    }
    forall g
      ensures var p := InGroup(pass, groupOf, g);
        && IsTotal(if p(row.0) then AddInto(Entry(stats, g), row.1) else Entry(stats, g), rows + [row], p)
        && (Occurs(rows + [row], p) <==> Occurs(rows, p) || p(row.0))
    {
      TotalOneMore(Entry(stats, g), rows, InGroup(pass, groupOf, g), row);
      SumSnoc(rows, row, InGroup(pass, groupOf, g), CostOf());
    }
  }

  /** The accumulating loop both queries share. */
  method Merge<K, G(!new)>(rows: Rows<K>, pass: K -> bool, groupOf: K -> G) returns (stats: map<G, Acc>)
    ensures IsStats(stats, rows, pass, groupOf)
  {
    stats := map[];
    for i := 0 to |rows|
      invariant IsStats(stats, rows[..i], pass, groupOf)
    {
      StatsOneMore(stats, rows[..i], pass, groupOf, rows[i]);
      assert rows[..i + 1] == rows[..i] + [rows[i]];
      if pass(rows[i].0) {
        var g := groupOf(rows[i].0);
        stats := stats[g := AddInto(Entry(stats, g), rows[i].1)];
      }
    }
    assert rows[..|rows|] == rows;
  }

  // ── Aggregating what was already aggregated ──────────────────────────

  /** `entries` is the accumulators of `stats`, each once, in some order. */
  ghost predicate Lists<G>(entries: Rows<G>, stats: map<G, Acc>) {
    && (forall i, j :: 0 <= i < j < |entries| ==> entries[i].0 != entries[j].0)
    && (forall i :: 0 <= i < |entries| ==> entries[i].0 in stats && entries[i].1 == stats[entries[i].0])
    && forall g :: g in stats ==> Listed(entries, g)
  }

  ghost predicate Listed<G>(entries: Rows<G>, g: G) {
    exists i :: 0 <= i < |entries| && entries[i].0 == g
  }

  ghost predicate AreTotals<K, G(!new)>(entries: Rows<G>, rows: Rows<K>, pass: K -> bool, groupOf: K -> G) {
    forall i :: 0 <= i < |entries| ==> IsTotal(entries[i].1, rows, InGroup(pass, groupOf, entries[i].0))
  }

  predicate DistinctKeys<G(==)>(entries: Rows<G>) {
    forall i, j :: 0 <= i < j < |entries| ==> entries[i].0 != entries[j].0
  }

  /** Rows whose group is listed and satisfies `q`. */
  ghost function Among<K, G>(pass: K -> bool, groupOf: K -> G, entries: Rows<G>, q: G -> bool): K -> bool {
    (k: K) => pass(k) && q(groupOf(k)) && Listed(entries, groupOf(k))
  }

  lemma {:induction false} SumSame<K>(rows: Rows<K>, p: K -> bool, p': K -> bool, f: Acc -> int)
    requires forall i :: 0 <= i < |rows| ==> p(rows[i].0) == p'(rows[i].0)
    ensures SumWhere(rows, p, f) == SumWhere(rows, p', f)
    ensures Occurs(rows, p) <==> Occurs(rows, p')
  {
    if rows != [] {
      SumSame(rows[..|rows| - 1], p, p', f);
    }
  }

  lemma {:induction false} SumSplit<K>(rows: Rows<K>, p: K -> bool, q: K -> bool, both: K -> bool, f: Acc -> int)
    requires forall i :: 0 <= i < |rows| ==>
      (both(rows[i].0) <==> p(rows[i].0) || q(rows[i].0)) && !(p(rows[i].0) && q(rows[i].0))
    ensures SumWhere(rows, both, f) == SumWhere(rows, p, f) + SumWhere(rows, q, f)
  {
    if rows != [] {
      SumSplit(rows[..|rows| - 1], p, q, both, f);
    }
  }

  lemma ListedSnoc<G>(entries: Rows<G>, e: (G, Acc), g: G)
    ensures Listed(entries + [e], g) <==> Listed(entries, g) || g == e.0
  {
    var all := entries + [e];
    if Listed(entries, g) {
      var i :| 0 <= i < |entries| && entries[i].0 == g;
      assert all[i].0 == g;
    }
    if g == e.0 { assert all[|entries|].0 == g; }
  }

  /** Listing one more group adds exactly the rows of that group, if it satisfies `q`. */
  lemma AmongOneMore<K, G>(rows: Rows<K>, pass: K -> bool, groupOf: K -> G, entries: Rows<G>, e: (G, Acc), q: G -> bool,
                           f: Acc -> int)
    requires !Listed(entries, e.0)
    ensures SumWhere(rows, Among(pass, groupOf, entries + [e], q), f) ==
            SumWhere(rows, Among(pass, groupOf, entries, q), f)
            + (if q(e.0) then SumWhere(rows, InGroup(pass, groupOf, e.0), f) else 0)
  {
    var now, before := Among(pass, groupOf, entries + [e], q), Among(pass, groupOf, entries, q);
    var group := InGroup(pass, groupOf, e.0);
    forall i | 0 <= i < |rows|
      ensures now(rows[i].0) <==> before(rows[i].0) || (q(e.0) && group(rows[i].0))
      ensures !(before(rows[i].0) && group(rows[i].0))
    {
      ListedSnoc(entries, e, groupOf(rows[i].0));
    }
    if q(e.0) {
      SumSplit(rows, before, group, now, f);
    } else {
      SumSame(rows, now, before, f);
    }
  }

  lemma {:induction false} RegroupCounter<K, G(!new)>(rows: Rows<K>, pass: K -> bool, groupOf: K -> G, entries: Rows<G>,
                                                      q: G -> bool, c: Counter)
    requires AreTotals(entries, rows, pass, groupOf) && DistinctKeys(entries)
    ensures Wrap(SumWhere(entries, q, CounterOf(c))) ==
      Wrap(SumWhere(rows, Among(pass, groupOf, entries, q), CounterOf(c)))
  {
    var f := CounterOf(c);
    if entries == [] {
      SumOfNone(rows, Among(pass, groupOf, entries, q), f);
    } else {
      var n := |entries| - 1;
      var front, e := entries[..n], entries[n];
      assert entries == front + [e];
      RegroupCounter(rows, pass, groupOf, front, q, c);
      AmongOneMore(rows, pass, groupOf, front, e, q, f);
      var part := SumWhere(rows, Among(pass, groupOf, front, q), f);
      var group := SumWhere(rows, InGroup(pass, groupOf, e.0), f);
      assert Pick(c, e.1) == Wrap(group);
      if q(e.0) {
        WrapAddBoth(SumWhere(front, q, f), group);
        WrapAddBoth(part, group);
        WrapAdd(SumWhere(front, q, f), Wrap(group));
      }
    }
  }

  lemma {:induction false} RegroupCost<K, G(!new)>(rows: Rows<K>, pass: K -> bool, groupOf: K -> G, entries: Rows<G>,
                                                   q: G -> bool)
    requires AreTotals(entries, rows, pass, groupOf) && DistinctKeys(entries) && NoneNegative(rows)
    ensures NoneNegative(entries)
    ensures 0 <= SumWhere(entries, q, CostOf()) <= SumWhere(rows, Among(pass, groupOf, entries, q), CostOf())
    ensures Min(I64_MAX, SumWhere(entries, q, CostOf())) ==
      Min(I64_MAX, SumWhere(rows, Among(pass, groupOf, entries, q), CostOf()))
  {
    var f := CostOf();
    if entries == [] {
      SumOfNone(rows, Among(pass, groupOf, entries, q), f);
    } else {
      var n := |entries| - 1;
      var front, e := entries[..n], entries[n];
      assert entries == front + [e];
      RegroupCost(rows, pass, groupOf, front, q);
      AmongOneMore(rows, pass, groupOf, front, e, q, f);
      CostIsNonNegative(rows, InGroup(pass, groupOf, e.0));
      assert e.1.cost == Min(I64_MAX, SumWhere(rows, InGroup(pass, groupOf, e.0), f));
    }
  }

  /** Pass `first`, and the group passes `second`. */
  function Both<K, G>(first: K -> bool, groupOf: K -> G, second: G -> bool): K -> bool {
    (k: K) => first(k) && second(groupOf(k))
  }

  function Then<K, G, H>(groupOf: K -> G, next: G -> H): K -> H {
    (k: K) => next(groupOf(k))
  }

  /** Every row that passes falls into a listed group. */
  lemma AllListed<K, G(!new)>(stats: map<G, Acc>, rows: Rows<K>, pass: K -> bool, groupOf: K -> G, entries: Rows<G>,
                              i: nat)
    requires IsStats(stats, rows, pass, groupOf) && Lists(entries, stats) && i < |rows| && pass(rows[i].0)
    ensures Listed(entries, groupOf(rows[i].0))
  {
  }

  /** Summing the groups' accumulators gives what summing the rows themselves gives. */
  lemma RegroupTotal<K, G(!new)>(stats: map<G, Acc>, rows: Rows<K>, pass: K -> bool, groupOf: K -> G, entries: Rows<G>,
                                 q: G -> bool, acc: Acc)
    requires IsStats(stats, rows, pass, groupOf) && Lists(entries, stats) && IsTotal(acc, entries, q)
    ensures IsTotal(acc, rows, Both(pass, groupOf, q))
  {
    var among, target := Among(pass, groupOf, entries, q), Both(pass, groupOf, q);
    forall i | 0 <= i < |rows|
      ensures among(rows[i].0) == target(rows[i].0)
    {
      if pass(rows[i].0) { AllListed(stats, rows, pass, groupOf, entries, i); }
    }
    assert AreTotals(entries, rows, pass, groupOf) && DistinctKeys(entries);
    forall c
      ensures Pick(c, acc) == Wrap(SumWhere(rows, target, CounterOf(c)))
    {
      RegroupCounter(rows, pass, groupOf, entries, q, c);
      SumSame(rows, among, target, CounterOf(c));
    }
    if NoneNegative(rows) {
      RegroupCost(rows, pass, groupOf, entries, q);
      SumSame(rows, among, target, CostOf());
    }
  }

  lemma RegroupOccurs<K, G(!new)>(stats: map<G, Acc>, rows: Rows<K>, pass: K -> bool, groupOf: K -> G, entries: Rows<G>,
                                  q: G -> bool)
    requires IsStats(stats, rows, pass, groupOf) && Lists(entries, stats)
    ensures Occurs(entries, q) <==> Occurs(rows, Both(pass, groupOf, q))
  {
    if Occurs(entries, q) {
      var i :| 0 <= i < |entries| && q(entries[i].0);
      var g := entries[i].0;
      assert Occurs(rows, InGroup(pass, groupOf, g));
      var j :| 0 <= j < |rows| && InGroup(pass, groupOf, g)(rows[j].0);
      assert Both(pass, groupOf, q)(rows[j].0);
    }
    if Occurs(rows, Both(pass, groupOf, q)) {
      var j :| 0 <= j < |rows| && Both(pass, groupOf, q)(rows[j].0);
      AllListed(stats, rows, pass, groupOf, entries, j);
      var i :| 0 <= i < |entries| && entries[i].0 == groupOf(rows[j].0);
      assert q(entries[i].0);
    }
  }

  /** Aggregation conserves totals: grouping the groups is grouping the rows. */
  lemma Regroup<K, G(!new), H(!new)>(stats: map<G, Acc>, rows: Rows<K>, pass: K -> bool, groupOf: K -> G,
                                     entries: Rows<G>,
                                     stats': map<H, Acc>, pass': G -> bool, groupOf': G -> H)
    requires IsStats(stats, rows, pass, groupOf) && Lists(entries, stats) && IsStats(stats', entries, pass', groupOf')
    ensures IsStats(stats', rows, Both(pass, groupOf, pass'), Then(groupOf, groupOf'))
  {
    forall h
      ensures var p := InGroup(Both(pass, groupOf, pass'), Then(groupOf, groupOf'), h);
        (h in stats' <==> Occurs(rows, p)) && (h in stats' ==> IsTotal(stats'[h], rows, p))
    {
      var p := InGroup(Both(pass, groupOf, pass'), Then(groupOf, groupOf'), h);
      var q := InGroup(pass', groupOf', h);
      RegroupOccurs(stats, rows, pass, groupOf, entries, q);
      SumSame(rows, p, Both(pass, groupOf, q), CostOf());
      if h in stats' {
        RegroupTotal(stats, rows, pass, groupOf, entries, q, stats'[h]);
        SameTotal(stats'[h], rows, Both(pass, groupOf, q), p);
      }
    }
  }

  lemma SameTotal<K>(acc: Acc, rows: Rows<K>, p: K -> bool, p': K -> bool)
    requires IsTotal(acc, rows, p) && forall i :: 0 <= i < |rows| ==> p(rows[i].0) == p'(rows[i].0)
    ensures IsTotal(acc, rows, p')
  {
    forall c
      ensures Pick(c, acc) == Wrap(SumWhere(rows, p', CounterOf(c)))
    {
      SumSame(rows, p, p', CounterOf(c));
    }
    SumSame(rows, p, p', CostOf());
  }

  lemma SameStats<K, G(!new)>(stats: map<G, Acc>, rows: Rows<K>, pass: K -> bool, groupOf: K -> G, pass': K -> bool,
                              groupOf': K -> G)
    requires IsStats(stats, rows, pass, groupOf)
    requires forall i :: 0 <= i < |rows| ==>
      pass(rows[i].0) == pass'(rows[i].0) && groupOf(rows[i].0) == groupOf'(rows[i].0)
    ensures IsStats(stats, rows, pass', groupOf')
  {
    forall g
      ensures var p := InGroup(pass', groupOf', g);
        (g in stats <==> Occurs(rows, p)) && (g in stats ==> IsTotal(stats[g], rows, p))
    {
      var p, p' := InGroup(pass, groupOf, g), InGroup(pass', groupOf', g);
      SumSame(rows, p, p', CostOf());
      if g in stats { SameTotal(stats[g], rows, p, p'); }
    }
  }

  // ── The two queries ──────────────────────────────────────────────────

  datatype RollupKey = RollupKey(day: i64, user: string, apiKey: string, model: string, provider: string)

  function All<K>(): K -> bool {
    (k: K) => true
  }

  function Itself<K>(): K -> K {
    (k: K) => k
  }

  function Flatten<T>(tiers: seq<seq<T>>): seq<T> {
    if tiers == [] then [] else Flatten(tiers[..|tiers| - 1]) + tiers[|tiers| - 1]
  }

  /** What an engine keeps per key: unsigned counters and a signed metric. */
  datatype EngineRollup = EngineRollup(
    eventCount: u64, errorCount: u64, inputTokens: u64, outputTokens: u64,
    cacheRead: u64, cacheCreation: u64, metric: i64)

  type EngineRows<K> = seq<(K, EngineRollup)>

  function RawPick(c: Counter, v: EngineRollup): u64 {
    match c
    case EventCount => v.eventCount
    case ErrorCount => v.errorCount
    case InputTokens => v.inputTokens
    case OutputTokens => v.outputTokens
    case CacheRead => v.cacheRead
    case CacheCreation => v.cacheCreation
  }

  /** `as i64` on each counter. */
  function Cast(v: EngineRollup): Acc {
    Acc(Wrap(v.eventCount), Wrap(v.errorCount), Wrap(v.inputTokens), Wrap(v.outputTokens), Wrap(v.cacheRead),
        Wrap(v.cacheCreation), v.metric)
  }

  function CastAll<K>(rows: EngineRows<K>): Rows<K> {
    seq(|rows|, i requires 0 <= i < |rows| => (rows[i].0, Cast(rows[i].1)))
  }

  /** The true, unsigned sum of a counter over the engines' rows. */
  function RawSum<K>(rows: EngineRows<K>, p: K -> bool, c: Counter): nat {
    if rows == [] then 0
    else RawSum(rows[..|rows| - 1], p, c) + (if p(rows[|rows| - 1].0) then RawPick(c, rows[|rows| - 1].1) else 0)
  }

  /** Casting each counter and wrapping each addition comes to wrapping the true sum once. */
  lemma {:induction false} CastSum<K>(rows: EngineRows<K>, p: K -> bool, c: Counter)
    ensures Wrap(SumWhere(CastAll(rows), p, CounterOf(c))) == Wrap(RawSum(rows, p, c))
  {
    if rows != [] {
      var n := |rows| - 1;
      CastSum(rows[..n], p, c);
      CastSumLast(rows, p, c);
      WrapStep(SumWhere(CastAll(rows[..n]), p, CounterOf(c)), RawSum(rows[..n], p, c), RawPick(c, rows[n].1));
    }
  }

  lemma CastSumLast<K>(rows: EngineRows<K>, p: K -> bool, c: Counter)
    requires rows != []
    ensures var n := |rows| - 1;
      SumWhere(CastAll(rows), p, CounterOf(c)) ==
        SumWhere(CastAll(rows[..n]), p, CounterOf(c)) + (if p(rows[n].0) then Wrap(RawPick(c, rows[n].1)) else 0)
  {
    var n := |rows| - 1;
    var front, last := CastAll(rows[..n]), (rows[n].0, Cast(rows[n].1));
    assert CastAll(rows) == front + [last];
    SumSnoc(front, last, p, CounterOf(c));
    assert Pick(c, Cast(rows[n].1)) == Wrap(RawPick(c, rows[n].1));
  }

  lemma WrapStep(sum: int, raw: int, more: int)
    requires Wrap(sum) == Wrap(raw)
    ensures Wrap(sum + Wrap(more)) == Wrap(raw + more)
  {
    WrapAdd(sum, Wrap(more));
    WrapAddBoth(raw, more);
  }

  /** So an aggregated counter is the true sum as long as that fits an i64, and otherwise the true
      sum wrapped once, whatever was cast and added on the way. */
  lemma CountersAreTrueSums<K, G(!new)>(stats: map<G, Acc>, rows: EngineRows<K>, pass: K -> bool, groupOf: K -> G, g: G,
                                        c: Counter)
    requires IsStats(stats, CastAll(rows), pass, groupOf) && g in stats
    ensures Pick(c, stats[g]) == Wrap(RawSum(rows, InGroup(pass, groupOf, g), c))
    ensures RawSum(rows, InGroup(pass, groupOf, g), c) <= I64_MAX ==>
      Pick(c, stats[g]) == RawSum(rows, InGroup(pass, groupOf, g), c)
  {
    CastSum(rows, InGroup(pass, groupOf, g), c);
  }

  /** `query_rollups` before paging: every tier's rows, cast and merged by their whole key. */
  method QueryRollups(tiers: seq<EngineRows<RollupKey>>) returns (merged: map<RollupKey, Acc>)
    ensures IsStats(merged, CastAll(Flatten(tiers)), All(), Itself())
  {
    merged := map[];
    for i := 0 to |tiers|
      invariant IsStats(merged, CastAll(Flatten(tiers[..i])), All(), Itself())
    {
      ghost var done := Flatten(tiers[..i]);
      var rows := tiers[i];
      assert done + rows[..0] == done;
      for j := 0 to |rows|
        invariant IsStats(merged, CastAll(done + rows[..j]), All(), Itself())
      {
        var key, val := rows[j].0, Cast(rows[j].1);
        StatsOneMore(merged, CastAll(done + rows[..j]), All(), Itself(), (key, val));
        assert CastAll(done + rows[..j + 1]) == CastAll(done + rows[..j]) + [(key, val)];
        merged := merged[key := AddInto(Entry(merged, key), val)];
      }
      assert done + rows[..|rows|] == done + rows;
      assert tiers[..i + 1][..i] == tiers[..i];
    }
    assert tiers[..|tiers|] == tiers;
  }

  /** The entries of a hash map in some order. */
  method EntriesOf<G(!new)>(stats: map<G, Acc>) returns (entries: Rows<G>)
    ensures Lists(entries, stats)
  {
    entries := [];
    var todo := stats.Keys;
    while todo != {}
      invariant todo <= stats.Keys
      invariant forall i, j :: 0 <= i < j < |entries| ==> entries[i].0 != entries[j].0
      invariant forall i :: 0 <= i < |entries| ==>
        entries[i].0 in stats.Keys - todo && entries[i].1 == stats[entries[i].0]
      invariant forall g :: g in stats.Keys - todo ==> Listed(entries, g)
      decreases |todo|
    {
      var g :| g in todo;
      forall x ensures Listed(entries + [(g, stats[g])], x) <==>
        Listed(entries, x) || x == g { ListedSnoc(entries, (g, stats[g]), x); }
      entries, todo := entries + [(g, stats[g])], todo - {g};
    }
  }

  function OfProvider(provider: Option<string>): RollupKey -> bool {
    (k: RollupKey) => provider.None? || k.provider == provider.value
  }

  type ModelKey = (string, string)

  function ModelGroup(byModel: bool): RollupKey -> ModelKey {
    (k: RollupKey) => if byModel then (k.provider, k.model) else ("", "")
  }

  // ── The report in the fields of the rollups ──────────────────────────

  /** The true sum of the engines' metrics. */
  function RawCost<K>(rows: EngineRows<K>, p: K -> bool): int {
    if rows == [] then 0
    else RawCost(rows[..|rows| - 1], p) + (if p(rows[|rows| - 1].0) then rows[|rows| - 1].1.metric else 0)
  }

  /** One row of the report: the sums over exactly the rollups that `p` selects. */
  ghost predicate IsReportRow(acc: Acc, rows: EngineRows<RollupKey>, p: RollupKey -> bool) {
    && (forall c :: Pick(c, acc) == Wrap(RawSum(rows, p, c)))
    && ((forall i :: 0 <= i < |rows| ==> rows[i].1.metric >= 0) ==> acc.cost == Min(I64_MAX, RawCost(rows, p)))
  }

  /** The rollups asked for: all, or those whose own provider is the one asked for. */
  function Asked(asked: Option<string>): RollupKey -> bool {
    (k: RollupKey) => asked == None || asked == Some(k.provider)
  }

  function AskedOfModel(asked: Option<string>, provider: string, model: string): RollupKey -> bool {
    (k: RollupKey) => k.provider == provider && k.model == model && (asked == None || asked == Some(provider))
  }

  /** Some rollup is selected. */
  predicate Selects(rows: EngineRows<RollupKey>, p: RollupKey -> bool) {
    exists i :: 0 <= i < |rows| && p(rows[i].0)
  }

  /** Per model: a provider and model have a row if and only if some rollup asked for has both, and
      the row sums exactly those rollups. */
  ghost predicate IsModelReport(stats: map<ModelKey, Acc>, rows: EngineRows<RollupKey>, asked: Option<string>) {
    forall provider, model ::
      ((provider, model) in stats <==> Selects(rows, AskedOfModel(asked, provider, model)))
      && ((provider, model) in stats ==>
            IsReportRow(stats[(provider, model)], rows, AskedOfModel(asked, provider, model)))
  }

  /** Ungrouped: one nameless row, if any rollup is asked for, that sums all of them. */
  ghost predicate IsWholeReport(stats: map<ModelKey, Acc>, rows: EngineRows<RollupKey>, asked: Option<string>) {
    && (forall key :: key in stats ==> key == ("", ""))
    && (("", "") in stats <==> Selects(rows, Asked(asked)))
    && (("", "") in stats ==> IsReportRow(stats[("", "")], rows, Asked(asked)))
  }

  lemma {:induction false} CastCost<K>(rows: EngineRows<K>, p: K -> bool)
    ensures SumWhere(CastAll(rows), p, CostOf()) == RawCost(rows, p)
  {
    if rows != [] {
      var n := |rows| - 1;
      CastCost(rows[..n], p);
      assert CastAll(rows) == CastAll(rows[..n]) + [(rows[n].0, Cast(rows[n].1))];
      SumSnoc(CastAll(rows[..n]), (rows[n].0, Cast(rows[n].1)), p, CostOf());
    }
  }

  lemma TotalIsReportRow(acc: Acc, rows: EngineRows<RollupKey>, p: RollupKey -> bool)
    requires IsTotal(acc, CastAll(rows), p)
    ensures IsReportRow(acc, rows, p)
  {
    forall c
      ensures Pick(c, acc) == Wrap(RawSum(rows, p, c))
    {
      CastSum(rows, p, c);
    }
    CastCost(rows, p);
    if forall i :: 0 <= i < |rows| ==> rows[i].1.metric >= 0 {
      assert NoneNegative(CastAll(rows));
    }
  }

  /** A group of the aggregation is a report row, if `p` selects what falls into the group. */
  lemma GroupIsReportRow(stats: map<ModelKey, Acc>, rows: EngineRows<RollupKey>, asked: Option<string>, byModel: bool,
                         key: ModelKey, p: RollupKey -> bool)
    requires IsStats(stats, CastAll(rows), OfProvider(asked), ModelGroup(byModel))
    requires forall k :: p(k) <==> InGroup(OfProvider(asked), ModelGroup(byModel), key)(k)
    ensures key in stats <==> Selects(rows, p)
    ensures key in stats ==> IsReportRow(stats[key], rows, p)
  {
    var group := InGroup(OfProvider(asked), ModelGroup(byModel), key);
    SumSame(CastAll(rows), group, p, CostOf());
    OccursIsSelects(rows, p);
    if key in stats {
      SameTotal(stats[key], CastAll(rows), group, p);
      TotalIsReportRow(stats[key], rows, p);
    }
  }

  lemma OccursIsSelects(rows: EngineRows<RollupKey>, p: RollupKey -> bool)
    ensures Occurs(CastAll(rows), p) <==> Selects(rows, p)
  {
    if Selects(rows, p) {
      var i :| 0 <= i < |rows| && p(rows[i].0);
      assert CastAll(rows)[i].0 == rows[i].0;
    }
  }

  lemma StatsAreModelReport(stats: map<ModelKey, Acc>, rows: EngineRows<RollupKey>, asked: Option<string>)
    requires IsStats(stats, CastAll(rows), OfProvider(asked), ModelGroup(true))
    ensures IsModelReport(stats, rows, asked)
  {
    forall provider, model
      ensures (provider, model) in stats <==> Selects(rows, AskedOfModel(asked, provider, model))
      ensures (provider, model) in stats ==>
        IsReportRow(stats[(provider, model)], rows, AskedOfModel(asked, provider, model))
    {
      GroupIsReportRow(stats, rows, asked, true, (provider, model), AskedOfModel(asked, provider, model));
    }
  }

  lemma StatsAreWholeReport(stats: map<ModelKey, Acc>, rows: EngineRows<RollupKey>, asked: Option<string>)
    requires IsStats(stats, CastAll(rows), OfProvider(asked), ModelGroup(false))
    ensures IsWholeReport(stats, rows, asked)
  {
    GroupIsReportRow(stats, rows, asked, false, ("", ""), Asked(asked));
    forall key | key in stats
      ensures key == ("", "")
    {
      assert Occurs(CastAll(rows), InGroup(OfProvider(asked), ModelGroup(false), key));
    }
  }

  /** `aggregate_stats` before paging, over whatever order the merged map yields: the totals of
      the tiers' own rows, group by group. */
  method AggregateStats(tiers: seq<EngineRows<RollupKey>>, provider: Option<string>, byModel: bool)
    returns (stats: map<ModelKey, Acc>)
    ensures IsStats(stats, CastAll(Flatten(tiers)), OfProvider(provider), ModelGroup(byModel))
    ensures byModel ==> IsModelReport(stats, Flatten(tiers), provider)
    ensures !byModel ==> IsWholeReport(stats, Flatten(tiers), provider)
  {
    var merged := QueryRollups(tiers);
    var rollups := EntriesOf(merged);
    stats := Merge(rollups, OfProvider(provider), ModelGroup(byModel));
    ghost var rows := CastAll(Flatten(tiers));
    Regroup(merged, rows, All(), Itself(), rollups, stats, OfProvider(provider), ModelGroup(byModel));
    SameStats(stats, rows, Both(All(), Itself(), OfProvider(provider)), Then(Itself(), ModelGroup(byModel)),
              OfProvider(provider), ModelGroup(byModel));
    if byModel {
      StatsAreModelReport(stats, Flatten(tiers), provider);
    } else {
      StatsAreWholeReport(stats, Flatten(tiers), provider);
    }
  }

  // ── Conservation ─────────────────────────────────────────────────────

  const WHOLE: ModelKey := ("", "")

  /** The per-model groups sum to the ungrouped row in every counter, and in cost up to the cap. */
  lemma GroupsSumToWhole(rows: Rows<RollupKey>, provider: Option<string>, grouped: map<ModelKey, Acc>,
                         whole: map<ModelKey, Acc>, groups: Rows<ModelKey>)
    requires IsStats(grouped, rows, OfProvider(provider), ModelGroup(true)) && Lists(groups, grouped)
    requires IsStats(whole, rows, OfProvider(provider), ModelGroup(false))
    ensures WHOLE in whole <==> groups != []
    ensures WHOLE in whole ==> IsTotal(whole[WHOLE], rows, OfProvider(provider))
    ensures WHOLE in whole ==> forall c :: Pick(c, whole[WHOLE]) == Wrap(SumWhere(groups, All(), CounterOf(c)))
    ensures WHOLE in whole && NoneNegative(rows) ==>
      whole[WHOLE].cost == Min(I64_MAX, SumWhere(groups, All(), CostOf()))
  {
    var pass := OfProvider(provider);
    var p := InGroup(pass, ModelGroup(false), WHOLE);
    SumSame(rows, p, pass, CostOf());
    SumSame(rows, Both(pass, ModelGroup(true), All()), pass, CostOf());
    RegroupOccurs(grouped, rows, pass, ModelGroup(true), groups, All());
    if groups != [] { assert All<ModelKey>()(groups[0].0); }
    if WHOLE in whole {
      SameTotal(whole[WHOLE], rows, p, pass);
      var among := Among(pass, ModelGroup(true), groups, All());
      forall i | 0 <= i < |rows|
        ensures among(rows[i].0) == pass(rows[i].0)
      {
        if pass(rows[i].0) { AllListed(grouped, rows, pass, ModelGroup(true), groups, i); }
      }
      assert AreTotals(groups, rows, pass, ModelGroup(true)) && DistinctKeys(groups);
      forall c
        ensures Pick(c, whole[WHOLE]) == Wrap(SumWhere(groups, All(), CounterOf(c)))
      {
        RegroupCounter(rows, pass, ModelGroup(true), groups, All(), c);
        SumSame(rows, among, pass, CounterOf(c));
      }
      if NoneNegative(rows) {
        RegroupCost(rows, pass, ModelGroup(true), groups, All());
        SumSame(rows, among, pass, CostOf());
      }
    }
  }

  /** How the same rollups are shared out among tiers, and in which order they come, changes no
      group, no counter and, without negative costs, no cost. */
  lemma SplitDoesNotMatter<K, G(!new)>(a: Rows<K>, b: Rows<K>, pass: K -> bool, groupOf: K -> G, statsA: map<G, Acc>,
                                       statsB: map<G, Acc>)
    requires multiset(a) == multiset(b)
    requires IsStats(statsA, a, pass, groupOf) && IsStats(statsB, b, pass, groupOf)
    ensures statsA.Keys == statsB.Keys
    ensures forall g, c :: g in statsA ==> Pick(c, statsA[g]) == Pick(c, statsB[g])
    ensures NoneNegative(a) ==> statsA == statsB
  {
    forall g
      ensures Occurs(a, InGroup(pass, groupOf, g)) <==> Occurs(b, InGroup(pass, groupOf, g))
    {
      OccursInBoth(a, b, InGroup(pass, groupOf, g));
      OccursInBoth(b, a, InGroup(pass, groupOf, g));
    }
    forall g, c | g in statsA
      ensures Pick(c, statsA[g]) == Pick(c, statsB[g])
    {
      SumOfPermutation(a, b, InGroup(pass, groupOf, g), CounterOf(c));
    }
    if NoneNegative(a) {
      NonNegativeInBoth(a, b);
      forall g | g in statsA
        ensures statsA[g] == statsB[g]
      {
        SumOfPermutation(a, b, InGroup(pass, groupOf, g), CostOf());
        SameAcc(statsA[g], statsB[g]);
      }
    }
  }

  lemma SameAcc(a: Acc, b: Acc)
    requires (forall c :: Pick(c, a) == Pick(c, b)) && a.cost == b.cost
    ensures a == b
  {
    assert Pick(EventCount, a) == Pick(EventCount, b) && Pick(ErrorCount, a) == Pick(ErrorCount, b);
    assert Pick(InputTokens, a) == Pick(InputTokens, b) && Pick(OutputTokens, a) == Pick(OutputTokens, b);
    assert Pick(CacheRead, a) == Pick(CacheRead, b) && Pick(CacheCreation, a) == Pick(CacheCreation, b);
  }

  lemma OccursInBoth<K>(a: Rows<K>, b: Rows<K>, p: K -> bool)
    requires multiset(a) == multiset(b)
    ensures Occurs(a, p) ==> Occurs(b, p)
  {
    if Occurs(a, p) {
      var i :| 0 <= i < |a| && p(a[i].0);
      assert a[i] in multiset(b);
      var j :| 0 <= j < |b| && b[j] == a[i];
    }
  }

  lemma NonNegativeInBoth<K>(a: Rows<K>, b: Rows<K>)
    requires multiset(a) == multiset(b) && NoneNegative(a)
    ensures NoneNegative(b)
  {
    forall j | 0 <= j < |b|
      ensures b[j].1.cost >= 0
    {
      assert b[j] in multiset(a);
    }
  }
}

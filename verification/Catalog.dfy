/** The pricing catalogue's alias index and its two-probe lookup
    (crates/keplor-pricing/src/catalog.rs). Model names are ASCII. */
module Catalog {
  import opened Wrappers
  import opened Pricing
  import opened AliasIndex
  import opened Enumerations

  /** One value of the catalogue document, as far as index building looks at it. */
  datatype RawEntry = Unparseable | Parsed(hasInputRate: bool, hasOutputRate: bool, pricing: ModelPricing)

  type Raw = map<string, RawEntry>
  type PriceIndex = Index<string, ModelPricing>
  type NamedPrice = Named<string, ModelPricing>

  /** Entries that are indexed at all. */
  predicate IsPriced(raw: Raw, key: string) {
    && key in raw && key != "sample_spec"
    && raw[key].Parsed? && (raw[key].hasInputRate || raw[key].hasOutputRate)
  }

  // ── Names ────────────────────────────────────────────────────────────

  function LowerChar(c: char): char {
    if 'A' <= c <= 'Z' then (c as int + 32) as char else c
  }

  function Lower(s: string): string {
    seq(|s|, i requires 0 <= i < |s| => LowerChar(s[i]))
  }

  predicate IsLower(s: string) {
    forall i :: 0 <= i < |s| ==> !('A' <= s[i] <= 'Z')
  }

  lemma LowerIsLower(s: string)
    ensures IsLower(Lower(s)) && (IsLower(s) ==> Lower(s) == s)
  {
  }

  /** The same letter in either case, or the same character. */
  predicate SameLetter(a: char, b: char) {
    || a == b
    || ('A' <= a <= 'Z' && b as int - a as int == 'a' as int - 'A' as int)
    || ('A' <= b <= 'Z' && a as int - b as int == 'a' as int - 'A' as int)
  }

  /** Two names lower alike if and only if they differ in ASCII case only. */
  lemma LowerAlike(s: string, t: string)
    ensures Lower(s) == Lower(t) <==> |s| == |t| && forall i :: 0 <= i < |s| ==> SameLetter(s[i], t[i])
  {
    if Lower(s) == Lower(t) {
      assert |Lower(s)| == |s| && |Lower(t)| == |t|;
      forall i | 0 <= i < |s|
        ensures SameLetter(s[i], t[i])
      {
        assert Lower(s)[i] == LowerChar(s[i]) && Lower(t)[i] == LowerChar(t[i]);
      }
    }
  }

  predicate AreDigits(s: string) {
    forall i :: 0 <= i < |s| ==> '0' <= s[i] <= '9'
  }

  predicate IsIsoDate(d: string) {
    && |d| == 11 && d[0] == '-' && d[5] == '-' && d[8] == '-'
    && AreDigits(d[1..5]) && AreDigits(d[6..8]) && AreDigits(d[9..11])
  }

  predicate IsCompactDate(d: string) {
    |d| == 9 && d[0] == '-' && AreDigits(d[1..])
  }

  /** The two forms of a date suffix, piece by piece: a dash, the year, month and day in digits, with
      dashes between or without. */
  lemma DateForms(year: string, month: string, day: string)
    requires |year| == 4 && |month| == 2 && |day| == 2
    ensures IsIsoDate("-" + year + "-" + month + "-" + day) <==> AreDigits(year) && AreDigits(month) && AreDigits(day)
    ensures IsCompactDate("-" + year + month + day) <==> AreDigits(year) && AreDigits(month) && AreDigits(day)
  {
    var iso, compact := "-" + year + "-" + month + "-" + day, "-" + year + month + day;
    assert iso[1..5] == year && iso[6..8] == month && iso[9..11] == day;
    assert compact[1..] == year + month + day;
    assert compact[1..5] == year && compact[5..7] == month && compact[7..] == day;
    if IsCompactDate(compact) {
      assert forall i :: 0 <= i < 4 ==> year[i] == compact[1..][i];
      assert forall i :: 0 <= i < 2 ==> month[i] == compact[1..][4 + i] && day[i] == compact[1..][6 + i];
    }
  }

  function StripDate(s: string): Option<string> {
    if |s| > 11 && IsIsoDate(s[|s| - 11..]) then Some(s[..|s| - 11])
    else if |s| > 9 && IsCompactDate(s[|s| - 9..]) then Some(s[..|s| - 9])
    else None
  }

  /** `s` is `base` with one date suffix. */
  predicate IsDated(s: string, base: string) {
    && 0 < |base| <= |s| && s[..|base|] == base
    && (IsIsoDate(s[|base|..]) || IsCompactDate(s[|base|..]))
  }

  lemma NotBothDates(s: string)
    requires |s| > 11 && IsIsoDate(s[|s| - 11..])
    ensures !IsCompactDate(s[|s| - 9..])
  {
  }

  /** Stripping finds the one base a dated name has, and fails on every other name. */
  lemma StripDateIsExact(s: string, base: string)
    ensures StripDate(s) == Some(base) <==> IsDated(s, base)
  {
    if |s| > 11 && IsIsoDate(s[|s| - 11..]) {
      NotBothDates(s);
    }
    if IsDated(s, base) {
      assert |base| == |s| - 11 || |base| == |s| - 9;
    }
  }

  /** `str::split_once('/')`, keeping what follows the first slash. */
  function AfterSlash(s: string): Option<string> {
    if s == [] then None else if s[0] == '/' then Some(s[1..]) else AfterSlash(s[1..])
  }

  /** Position `i` is the first slash, and `short` is what follows. */
  predicate SplitsAt(s: string, i: nat, short: string) {
    i < |s| && s[i] == '/' && s[i + 1..] == short && forall j :: 0 <= j < i ==> s[j] != '/'
  }

  ghost predicate IsPrefixed(s: string, short: string) {
    exists i: nat :: SplitsAt(s, i, short)
  }

  lemma SplitsEarlier(s: string, i: nat, short: string)
    requires SplitsAt(s, i, short) && i > 0
    ensures SplitsAt(s[1..], i - 1, short)
  {
    var t := s[1..];
    assert t[i - 1] == s[i] && t[i..] == s[i + 1..];
    assert forall j :: 0 <= j < i - 1 ==> t[j] == s[j + 1];
  }

  lemma SplitsLater(s: string, i: nat, short: string)
    requires s != [] && s[0] != '/' && SplitsAt(s[1..], i, short)
    ensures SplitsAt(s, i + 1, short)
  {
    var t := s[1..];
    assert t[i] == s[i + 1] && t[i + 1..] == s[i + 2..];
    assert forall j :: 1 <= j < i + 1 ==> s[j] == t[j - 1];
  }

  lemma {:induction false} AfterSlashFinds(s: string, short: string)
    requires AfterSlash(s) == Some(short)
    ensures IsPrefixed(s, short)
  {
    if s[0] == '/' {
      assert SplitsAt(s, 0, short);
    } else {
      AfterSlashFinds(s[1..], short);
      var i: nat :| SplitsAt(s[1..], i, short);
      SplitsLater(s, i, short);
    }
  }

  lemma {:induction false} PrefixIsUnique(s: string, i: nat, short: string)
    requires SplitsAt(s, i, short)
    ensures AfterSlash(s) == Some(short)
  {
    if i > 0 {
      SplitsEarlier(s, i, short);
      PrefixIsUnique(s[1..], i - 1, short);
    }
  }

  lemma AfterSlashIsExact(s: string, short: string)
    ensures AfterSlash(s) == Some(short) <==> IsPrefixed(s, short)
  {
    if AfterSlash(s) == Some(short) { AfterSlashFinds(s, short); }
    if i: nat :| SplitsAt(s, i, short) { PrefixIsUnique(s, i, short); }
  }

  // ── What a scan of the entries would say ─────────────────────────────

  /** `k` names the entry whose canonical key is `canonical`: the key itself, without its date,
      without its provider prefix, or without both. */
  ghost predicate Names(canonical: string, k: string) {
    k == canonical || IsDated(canonical, k) || IsShortName(canonical, k)
  }

  ghost predicate IsShortName(canonical: string, k: string) {
    exists short :: IsPrefixed(canonical, short) && (k == short || IsDated(short, k))
  }

  function StripOptional(s: Option<string>): Option<string> {
    if s.Some? then StripDate(s.value) else None
  }

  function Just(s: Option<string>): set<string> {
    if s.Some? then {s.value} else {}
  }

  /** The same names, computed. */
  function NamesOf(canonical: string): set<string> {
    {canonical} + Just(StripDate(canonical)) + ShortNamesOf(canonical)
  }

  function ShortNamesOf(canonical: string): set<string> {
    Just(AfterSlash(canonical)) + Just(StripOptional(AfterSlash(canonical)))
  }

  lemma ShortNames(canonical: string, k: string)
    ensures IsShortName(canonical, k) <==> k in ShortNamesOf(canonical)
  {
    if IsShortName(canonical, k) {
      var short :| IsPrefixed(canonical, short) && (k == short || IsDated(short, k));
      AfterSlashIsExact(canonical, short);
      StripDateIsExact(short, k);
    }
    if k in ShortNamesOf(canonical) {
      var short := AfterSlash(canonical).value;
      AfterSlashIsExact(canonical, short);
      StripDateIsExact(short, k);
    }
  }

  lemma NamesOfIsExact(canonical: string, k: string)
    ensures k in NamesOf(canonical) <==> Names(canonical, k)
  {
    StripDateIsExact(canonical, k);
    ShortNames(canonical, k);
  }

  function NamedFor(raw: Raw, key: string): NamedPrice
    requires IsPriced(raw, key)
  {
    Named(Lower(key), NamesOf(Lower(key)), raw[key].pricing)
  }

  /** What indexing sees of the priced entries. */
  function EntriesOf(raw: Raw): Entries<string, ModelPricing> {
    map key | key in raw && IsPriced(raw, key) :: NamedFor(raw, key)
  }

  lemma EntriesAreWellNamed(raw: Raw)
    ensures WellNamed(EntriesOf(raw)) && EntriesOf(raw).Keys <= raw.Keys
  {
  }

  // ── Building the index ───────────────────────────────────────────────

  function InsertIfAbsent(index: PriceIndex, k: Option<string>, pricing: ModelPricing): PriceIndex {
    if k.None? || k.value in index then index else index[k.value := pricing]
  }

  /** `after` is `before` with the names it lacked added at `pricing`. */
  predicate Extends(before: PriceIndex, after: PriceIndex, names: set<string>, pricing: ModelPricing) {
    && after.Keys == before.Keys + names
    && forall k :: k in after ==> after[k] == if k in before then before[k] else pricing
  }

  /** `entries.entry(name).or_insert(pricing)` for each fallback name there is. */
  method AddAliases(base: Option<string>, short: Option<string>, shortBase: Option<string>, pricing: ModelPricing,
                    index: PriceIndex)
    returns (index': PriceIndex)
    ensures Extends(index, index', Just(base) + Just(short) + Just(shortBase), pricing)
  {
    index' := InsertIfAbsent(index, base, pricing);
    index' := InsertIfAbsent(index', short, pricing);
    index' := InsertIfAbsent(index', shortBase, pricing);
  }

  lemma ExtensionAddsNames(index: PriceIndex, after: PriceIndex, e: NamedPrice, fallbacks: set<string>)
    requires e.names == {e.canonical} + fallbacks
    requires Extends(index[e.canonical := e.pricing], after, fallbacks, e.pricing)
    ensures after == AddNames(index, e)
  {
    var expected := AddNames(index, e);
    assert after.Keys == expected.Keys;
    assert forall k :: k in after ==> after[k] == expected[k];
  }

  /** The loop body for one priced entry: its canonical key is overwritten, its other names are
      filled in where free. */
  method IndexEntry(key: string, pricing: ModelPricing, index: PriceIndex) returns (index': PriceIndex)
    ensures index' == AddNames(index, Named(Lower(key), NamesOf(Lower(key)), pricing))
  {
    var canonical := Lower(key);
    index' := index[canonical := pricing];
    FallbacksAreLower(key);
    var short := AfterSlash(canonical);
    index' := AddAliases(LowerOptional(StripDate(canonical)), LowerOptional(short), LowerOptional(StripOptional(short)),
                         pricing, index');
    ghost var fallbacks := Just(StripDate(canonical)) + Just(short) + Just(StripOptional(short));
    ExtensionAddsNames(index, index', Named(canonical, NamesOf(canonical), pricing), fallbacks);
  }

  function LowerOptional(s: Option<string>): Option<string> {
    if s.Some? then Some(Lower(s.value)) else None
  }

  lemma StripKeepsLower(s: string)
    requires IsLower(s)
    ensures LowerOptional(StripDate(s)) == StripDate(s)
  {
    if StripDate(s).Some? {
      LowerIsLower(StripDate(s).value);
    }
  }

  lemma {:induction false} AfterSlashKeepsLower(s: string)
    requires IsLower(s)
    ensures AfterSlash(s).Some? ==> IsLower(AfterSlash(s).value)
  {
    if s != [] && s[0] != '/' {
      AfterSlashKeepsLower(s[1..]);
    }
  }

  /** Lowering a fallback name again changes nothing. */
  lemma FallbacksAreLower(key: string)
    ensures var c := Lower(key);
      && LowerOptional(StripDate(c)) == StripDate(c)
      && LowerOptional(AfterSlash(c)) == AfterSlash(c)
      && LowerOptional(StripOptional(AfterSlash(c))) == StripOptional(AfterSlash(c))
  {
    var c := Lower(key);
    LowerIsLower(key);
    StripKeepsLower(c);
    AfterSlashKeepsLower(c);
    if AfterSlash(c).Some? {
      LowerIsLower(AfterSlash(c).value);
      StripKeepsLower(AfterSlash(c).value);
    }
  }

  /** One turn of the loop: skip the entry or index it. */
  method IndexOne(raw: Raw, key: string, index: PriceIndex, ghost visited: seq<string>) returns (index': PriceIndex)
    requires key in raw && index == Folded(EntriesOf(raw), visited)
    ensures index' == Folded(EntriesOf(raw), visited + [key])
  {
    assert (visited + [key])[..|visited|] == visited;
    index' := index;
    if key == "sample_spec" {
      return;
    }
    match raw[key]
    case Unparseable =>
    case Parsed(hasInputRate, hasOutputRate, pricing) =>
      if hasInputRate || hasOutputRate {
        index' := IndexEntry(key, pricing, index);
        assert EntriesOf(raw)[key] == NamedFor(raw, key);
      }
  }

  /** `Catalog::from_json` after parsing. Whatever order the hash map yields the document in, the
      index is the fold of the loop body over that order. */
  method BuildIndex(raw: Raw) returns (index: PriceIndex, ghost order: seq<string>)
    ensures Visits(order, raw.Keys) && index == Folded(EntriesOf(raw), order)
    ensures IsIndex(EntriesOf(raw), index)
  {
    index, order := map[], [];
    var todo := raw.Keys;
    while todo != {}
      invariant todo <= raw.Keys && Visits(order, raw.Keys - todo)
      invariant index == Folded(EntriesOf(raw), order)
      decreases |todo|
    {
      var key :| key in todo;
      index := IndexOne(raw, key, index, order);
      VisitsOneMore(order, raw.Keys - todo, key);
      assert raw.Keys - (todo - {key}) == raw.Keys - todo + {key};
      todo, order := todo - {key}, order + [key];
    }
    assert raw.Keys - todo == raw.Keys;
    EntriesAreWellNamed(raw);
    FoldedIsIndex(EntriesOf(raw), order, raw.Keys);
  }

  // ── Lookup ───────────────────────────────────────────────────────────

  function Lookup(index: PriceIndex, key: string): Option<ModelPricing> {
    if key in index then Some(index[key])
    else
      var base := StripDate(key);
      if base.Some? && Lower(base.value) in index then Some(index[Lower(base.value)]) else None
  }

  /** Some priced entry is named `k`. */
  ghost predicate Resolves(raw: Raw, k: string) {
    exists key :: IsPriced(raw, key) && Names(Lower(key), k)
  }

  lemma IndexedIffNamed(raw: Raw, index: PriceIndex, k: string)
    requires IsIndex(EntriesOf(raw), index)
    ensures k in index <==> Resolves(raw, k)
  {
    var entries := EntriesOf(raw);
    if IsNamed(entries, k) {
      var key :| key in entries && k in entries[key].names;
      NamesOfIsExact(Lower(key), k);
    }
    if Resolves(raw, k) {
      var key :| IsPriced(raw, key) && Names(Lower(key), k);
      NamesOfIsExact(Lower(key), k);
      assert k in entries[key].names;
    }
  }

  /** A name is indexed if and only if it is a name of an entry that is not the sample, parses, and has
      an input or an output rate. */
  lemma IndexedIffRated(raw: Raw, index: PriceIndex, k: string)
    requires IsIndex(EntriesOf(raw), index)
    ensures k in index <==> exists key ::
      && key in raw && key != "sample_spec" && raw[key].Parsed?
      && (raw[key].hasInputRate || raw[key].hasOutputRate) && Names(Lower(key), k)
  {
    IndexedIffNamed(raw, index, k);
    if Resolves(raw, k) {
      var key :| IsPriced(raw, key) && Names(Lower(key), k);
      assert key in raw && Names(Lower(key), k);
    }
  }

  lemma LowerBase(key: string)
    requires IsLower(key)
    ensures StripDate(key).Some? ==> Lower(StripDate(key).value) == StripDate(key).value
  {
  }

  /** The two probes agree with a scan of all priced entries: a name resolves exactly when it, or
      it without one date suffix, names an entry. */
  lemma LookupAgreesWithScan(raw: Raw, index: PriceIndex, key: string)
    requires IsIndex(EntriesOf(raw), index) && IsLower(key)
    ensures Lookup(index, key).Some? <==> Resolves(raw, key) || exists base :: IsDated(key, base) && Resolves(raw, base)
  {
    IndexedIffNamed(raw, index, key);
    LowerBase(key);
    var base := StripDate(key);
    if base.Some? {
      StripDateIsExact(key, base.value);
      IndexedIffNamed(raw, index, base.value);
    }
    forall b | IsDated(key, b)
      ensures base == Some(b)
    {
      StripDateIsExact(key, b);
    }
  }

  /** The price found belongs to an entry that the probed name names; to one whose canonical key
      is that name, if there is one. */
  lemma PriceBelongsToANamedEntry(raw: Raw, index: PriceIndex, key: string)
    requires IsIndex(EntriesOf(raw), index) && IsLower(key)
    ensures var probed := if key in index then key else StripDate(key).UnwrapOr([]);
      Lookup(index, key).Some? ==>
        && IsPriceOf(EntriesOf(raw), probed, Lookup(index, key).value)
        && exists entry ::
             IsPriced(raw, entry) && Names(Lower(entry), probed) && raw[entry].pricing == Lookup(index, key).value
  {
    LowerBase(key);
    if Lookup(index, key).Some? {
      var probed := if key in index then key else StripDate(key).UnwrapOr([]);
      assert IsPriceOf(EntriesOf(raw), probed, index[probed]);
      var entry :| MayPrice(EntriesOf(raw), entry, probed) && EntriesOf(raw)[entry].pricing == index[probed];
      NamesOfIsExact(Lower(entry), probed);
    }
  }

  /** A canonical key that no other entry shares up to case always gets its own price, in every
      iteration order. */
  lemma CanonicalKeyGetsItsOwnPrice(raw: Raw, index: PriceIndex, entry: string)
    requires IsIndex(EntriesOf(raw), index) && IsPriced(raw, entry)
    requires forall other :: IsPriced(raw, other) && Lower(other) == Lower(entry) ==> other == entry
    ensures Lookup(index, Lower(entry)) == Some(raw[entry].pricing)
  {
    var entries := EntriesOf(raw);
    var k := Lower(entry);
    assert entries[entry].canonical == k;
    assert k in Canonicals(entries);
    assert IsPriceOf(entries, k, index[k]);
    var owner :| MayPrice(entries, owner, k) && entries[owner].pricing == index[k];
    assert IsPriced(raw, owner);
  }

  /** Two priced entries that `k` names, both with it as canonical key if any entry has, differ in
      price. */
  ghost predicate RivalPrices(raw: Raw, k: string) {
    exists a, b :: MayPrice(EntriesOf(raw), a, k) && MayPrice(EntriesOf(raw), b, k) && raw[a].pricing != raw[b].pricing
  }

  /** Two iteration orders of the document give `k` different prices if and only if two entries
      that may price it have different prices; the same names resolve in every order. */
  lemma OrderDecidesExactlyBetweenRivals(raw: Raw, k: string)
    ensures OrderMatters(EntriesOf(raw), raw.Keys, k) <==> RivalPrices(raw, k)
    ensures forall one, two :: Visits(one, raw.Keys) && Visits(two, raw.Keys) ==>
      (k in Folded(EntriesOf(raw), one) <==> k in Folded(EntriesOf(raw), two))
  {
    var entries := EntriesOf(raw);
    EntriesAreWellNamed(raw);
    OrderMattersIffRivalsDisagree(entries, raw.Keys, k);
    forall one, two | Visits(one, raw.Keys) && Visits(two, raw.Keys)
      ensures k in Folded(entries, one) <==> k in Folded(entries, two)
    {
      OrderNeverChangesNames(entries, raw.Keys, one, two);
    }
    if RivalPrices(raw, k) {
      var a, b :| MayPrice(entries, a, k) && MayPrice(entries, b, k) && raw[a].pricing != raw[b].pricing;
      assert entries[a].pricing != entries[b].pricing;
    }
  }

  /** An alias that is nobody's canonical key goes to the first entry visited that has it. */
  lemma FirstRivalWins(raw: Raw, order: seq<string>, k: string, i: nat)
    requires Visits(order, raw.Keys) && i < |order| && IsPriced(raw, order[i]) && k in NamesOf(Lower(order[i]))
    requires forall j :: 0 <= j < |order| && IsPriced(raw, order[j]) ==> Lower(order[j]) != k
    requires forall j :: 0 <= j < i && IsPriced(raw, order[j]) ==> k !in NamesOf(Lower(order[j]))
    ensures k in Folded(EntriesOf(raw), order) && Folded(EntriesOf(raw), order)[k] == raw[order[i]].pricing
  {
    EntriesAreWellNamed(raw);
    FoldedAt(EntriesOf(raw), order, k, i);
  }

  /** A canonical key that several entries share up to case goes to the last of them visited. */
  lemma LastNamesakeWins(raw: Raw, order: seq<string>, k: string, i: nat)
    requires Visits(order, raw.Keys) && i < |order| && IsPriced(raw, order[i]) && Lower(order[i]) == k
    requires forall j :: i < j < |order| && IsPriced(raw, order[j]) ==> Lower(order[j]) != k
    ensures k in Folded(EntriesOf(raw), order) && Folded(EntriesOf(raw), order)[k] == raw[order[i]].pricing
  {
    EntriesAreWellNamed(raw);
    assert Claims(EntriesOf(raw), order[i], k);
    FoldedAt(EntriesOf(raw), order, k, i);
  }

  /** The loop itself, in both orders, on two providers' entries that share an unprefixed name. */
  lemma BothOrdersOfTwoRivals(p: ModelPricing, q: ModelPricing)
    ensures var raw := map["a/m" := Parsed(true, true, p), "b/m" := Parsed(true, true, q)];
      && Visits(["a/m", "b/m"], raw.Keys) && Visits(["b/m", "a/m"], raw.Keys)
      && var one, two := Folded(EntriesOf(raw), ["a/m", "b/m"]), Folded(EntriesOf(raw), ["b/m", "a/m"]);
         "m" in one && one["m"] == p && "m" in two && two["m"] == q
  {
    var raw := map["a/m" := Parsed(true, true, p), "b/m" := Parsed(true, true, q)];
    assert Lower("a/m") == "a/m" && Lower("b/m") == "b/m";
    assert "a/m"[1..] == "/m" && "b/m"[1..] == "/m" && "/m"[1..] == "m";
    assert AfterSlash("/m") == Some("m");
    assert AfterSlash("a/m") == Some("m") && AfterSlash("b/m") == Some("m");
    FirstRivalWins(raw, ["a/m", "b/m"], "m", 0);
    FirstRivalWins(raw, ["b/m", "a/m"], "m", 0);
  }
}

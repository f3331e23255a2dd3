/** The order-dependence of the catalogue's index, on abstract names: entries are visited in some
    order, each overwrites its canonical key and fills in those of its other names that are still
    free (the loop of crates/keplor-pricing/src/catalog.rs). */
module AliasIndex {
  import opened Enumerations

  datatype Named<K, P> = Named(canonical: K, names: set<K>, pricing: P)

  type Entries<K, P> = map<K, Named<K, P>>
  type Index<K, P> = map<K, P>

  /** One turn of the loop. */
  function AddNames<K, P>(index: Index<K, P>, e: Named<K, P>): Index<K, P> {
    map k | k in index.Keys + e.names :: if k in index && k != e.canonical then index[k] else e.pricing
  }

  /** The whole loop, in the given order; keys without a priced entry are skipped. */
  function Folded<K, P>(entries: Entries<K, P>, order: seq<K>): Index<K, P> {
    if order == [] then map[]
    else
      var n := |order| - 1;
      var index := Folded(entries, order[..n]);
      if order[n] in entries then AddNames(index, entries[order[n]]) else index
  }

  predicate WellNamed<K, P>(entries: Entries<K, P>) {
    forall key :: key in entries ==> entries[key].canonical in entries[key].names
  }

  ghost function Canonicals<K, P>(entries: Entries<K, P>): set<K> {
    set key | key in entries :: entries[key].canonical
  }

  /** The entries that may price `k`: those whose canonical key it is, if there are any. */
  ghost predicate MayPrice<K, P>(entries: Entries<K, P>, key: K, k: K) {
    key in entries && k in entries[key].names && (k in Canonicals(entries) ==> entries[key].canonical == k)
  }

  ghost predicate IsPriceOf<K(!new), P>(entries: Entries<K, P>, k: K, pricing: P) {
    exists key :: MayPrice(entries, key, k) && entries[key].pricing == pricing
  }

  /** `index` holds exactly the names of the entries, each at a price of an entry that may price it. */
  ghost predicate IsIndex<K(!new), P>(entries: Entries<K, P>, index: Index<K, P>) {
    forall k :: (k in index <==> IsNamed(entries, k)) && (k in index ==> IsPriceOf(entries, k, index[k]))
  }

  ghost predicate IsNamed<K(!new), P>(entries: Entries<K, P>, k: K) {
    exists key :: key in entries && k in entries[key].names
  }

  // ── Who wins ─────────────────────────────────────────────────────────

  predicate Claims<K(==), P>(entries: Entries<K, P>, key: K, k: K) {
    key in entries && entries[key].canonical == k
  }

  predicate Offers<K(==), P>(entries: Entries<K, P>, key: K, k: K) {
    key in entries && k in entries[key].names
  }

  /** Position `i` decides `k`: the last entry visited whose canonical key it is or, if there is
      none, the first entry visited that has it among its names. */
  predicate Decides<K(==), P>(entries: Entries<K, P>, order: seq<K>, k: K, i: nat) {
    && i < |order| && Offers(entries, order[i], k)
    && if exists j :: 0 <= j < |order| && Claims(entries, order[j], k)
       then Claims(entries, order[i], k) && forall j :: i < j < |order| ==> !Claims(entries, order[j], k)
       else forall j :: 0 <= j < i ==> !Offers(entries, order[j], k)
  }

  /** The name is indexed exactly when some visited entry has it, and the entry that decides it
      gives its price. */
  lemma {:induction false} FoldedPrice<K(!new), P>(entries: Entries<K, P>, order: seq<K>, k: K) returns (i: nat)
    requires WellNamed(entries)
    ensures k in Folded(entries, order) <==> exists j :: 0 <= j < |order| && Offers(entries, order[j], k)
    ensures k in Folded(entries, order) ==>
      Decides(entries, order, k, i) && Folded(entries, order)[k] == entries[order[i]].pricing
  {
    i := 0;
    if order != [] {
      var n := |order| - 1;
      var front := order[..n];
      var before := FoldedPrice(entries, front, k);
      assert forall j :: 0 <= j < n ==> front[j] == order[j];
      if Claims(entries, order[n], k) || (Offers(entries, order[n], k) && k !in Folded(entries, front)) {
        i := n;
        assert Offers(entries, order[n], k);
      } else {
        i := before;
        if k in Folded(entries, front) {
          assert Offers(entries, order[i], k);
        }
      }
    }
  }

  lemma DecidesIsUnique<K, P>(entries: Entries<K, P>, order: seq<K>, k: K, i: nat, j: nat)
    requires Decides(entries, order, k, i) && Decides(entries, order, k, j)
    ensures i == j
  {
  }

  lemma FoldedAt<K(!new), P>(entries: Entries<K, P>, order: seq<K>, k: K, i: nat)
    requires WellNamed(entries) && Decides(entries, order, k, i)
    ensures k in Folded(entries, order) && Folded(entries, order)[k] == entries[order[i]].pricing
  {
    var w := FoldedPrice(entries, order, k);
    assert Offers(entries, order[i], k);
    DecidesIsUnique(entries, order, k, i, w);
  }

  /** Whoever decides may price the name. */
  lemma DeciderMayPrice<K(!new), P>(entries: Entries<K, P>, order: seq<K>, keys: set<K>, k: K, i: nat)
    requires Visits(order, keys) && entries.Keys <= keys && Decides(entries, order, k, i)
    ensures MayPrice(entries, order[i], k)
  {
    if k in Canonicals(entries) {
      var key :| key in entries && entries[key].canonical == k;
      assert key in order;
      var j :| 0 <= j < |order| && order[j] == key;
      assert Claims(entries, order[j], k);
    }
  }

  lemma FoldedIsIndex<K(!new), P>(entries: Entries<K, P>, order: seq<K>, keys: set<K>)
    requires WellNamed(entries) && Visits(order, keys) && entries.Keys <= keys
    ensures IsIndex(entries, Folded(entries, order))
  {
    var index := Folded(entries, order);
    forall k
      ensures (k in index <==> IsNamed(entries, k)) && (k in index ==> IsPriceOf(entries, k, index[k]))
    {
      var i := FoldedPrice(entries, order, k);
      if IsNamed(entries, k) {
        var key :| key in entries && k in entries[key].names;
        var j :| 0 <= j < |order| && order[j] == key;
        assert Offers(entries, order[j], k);
      }
      if k in index {
        DeciderMayPrice(entries, order, keys, k, i);
      }
    }
  }

  // ── Every rival can be made to win ───────────────────────────────────

  /** For each entry that may price `k` some order gives `k` its price. */
  lemma RivalCanWin<K(!new), P>(entries: Entries<K, P>, keys: set<K>, rival: K, k: K) returns (order: seq<K>)
    requires WellNamed(entries) && entries.Keys <= keys && MayPrice(entries, rival, k)
    ensures Visits(order, keys) && k in Folded(entries, order) && Folded(entries, order)[k] == entries[rival].pricing
  {
    if k in Canonicals(entries) {
      order := VisitWithLast(keys, rival);
      assert Claims(entries, order[|order| - 1], k);
      FoldedAt(entries, order, k, |order| - 1);
    } else {
      order := VisitWithFirst(keys, rival);
      assert forall j :: 0 <= j < |order| ==> !Claims(entries, order[j], k);
      FoldedAt(entries, order, k, 0);
    }
  }

  ghost predicate OrderMatters<K(!new), P(!new)>(entries: Entries<K, P>, keys: set<K>, k: K) {
    exists one, two :: Visits(one, keys) && Visits(two, keys) && k in Folded(entries, one) && k in Folded(entries, two)
                       && Folded(entries, one)[k] != Folded(entries, two)[k]
  }

  ghost predicate RivalsDisagree<K(!new), P(!new)>(entries: Entries<K, P>, k: K) {
    exists a, b :: MayPrice(entries, a, k) && MayPrice(entries, b, k) && entries[a].pricing != entries[b].pricing
  }

  /** The order of visiting decides the price of a name if and only if two entries that may price
      it have different prices. */
  lemma OrderMattersIffRivalsDisagree<K(!new), P(!new)>(entries: Entries<K, P>, keys: set<K>, k: K)
    requires WellNamed(entries) && entries.Keys <= keys
    ensures OrderMatters(entries, keys, k) <==> RivalsDisagree(entries, k)
  {
    if OrderMatters(entries, keys, k) {
      var one, two :| Visits(one, keys) && Visits(two, keys) && k in Folded(entries, one) && k in Folded(entries, two)
                      && Folded(entries, one)[k] != Folded(entries, two)[k];
      var i := FoldedPrice(entries, one, k);
      var j := FoldedPrice(entries, two, k);
      DeciderMayPrice(entries, one, keys, k, i);
      DeciderMayPrice(entries, two, keys, k, j);
    }
    if RivalsDisagree(entries, k) {
      var a, b :| MayPrice(entries, a, k) && MayPrice(entries, b, k) && entries[a].pricing != entries[b].pricing;
      var one := RivalCanWin(entries, keys, a, k);
      var two := RivalCanWin(entries, keys, b, k);
    }
  }

  /** The same names are indexed in every order. */
  lemma OrderNeverChangesNames<K(!new), P>(entries: Entries<K, P>, keys: set<K>, one: seq<K>, two: seq<K>)
    requires WellNamed(entries) && entries.Keys <= keys && Visits(one, keys) && Visits(two, keys)
    ensures Folded(entries, one).Keys == Folded(entries, two).Keys
  {
    FoldedIsIndex(entries, one, keys);
    FoldedIsIndex(entries, two, keys);
  }
}

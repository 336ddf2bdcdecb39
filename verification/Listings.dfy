/** Listing the values of a map and sorting a list, as the services do before they pick the
    best. */
module Listings {
  import opened Common

  ghost predicate IsInjective<K(!new), V>(m: map<K, V>) {
    forall a, b | a in m && b in m && a != b :: m[a] != m[b]
  }

  ghost predicate Descending<T>(list: seq<T>, key: T -> real) {
    forall i, j | 0 <= i < j < |list| :: key(list[i]) >= key(list[j])
  }

  lemma ListingOneMore<K(!new), V>(m: map<K, V>, todo: set<K>, k: K)
    requires IsInjective(m) && k in todo && todo <= m.Keys
    ensures var before := set n | n in m && n !in todo :: m[n];
            m[k] !in before && (set n | n in m && n !in todo - {k} :: m[n]) == before + {m[k]}
  {
  }

  /** Every value once, in whatever order the map is read. */
  method ListValues<K(==, !new), V(==)>(m: map<K, V>) returns (list: seq<V>)
    requires IsInjective(m)
    ensures multiset(list) == multiset(m.Values)
  {
    list := [];
    var todo := m.Keys;
    while todo != {}
      invariant todo <= m.Keys
      invariant multiset(list) == multiset(set n | n in m && n !in todo :: m[n])
    {
      var k :| k in todo;
      ListingOneMore(m, todo, k);
      todo := todo - {k};
      list := list + [m[k]];
    }
    assert (set n | n in m && n !in todo :: m[n]) == m.Values;
  }

  /** The exchange sort: each position in turn is compared with all later ones.  It leaves a
      list that is descending already as it is, so ties may come in any order. */
  method SortDescending<T>(list: seq<T>, key: T -> real) returns (sorted: seq<T>)
    ensures multiset(sorted) == multiset(list)
    ensures Descending(sorted, key)
    ensures Descending(list, key) ==> sorted == list
  {
    sorted := list;
    var i := 0;
    while i < |sorted| - 1
      invariant 0 <= i <= Max(0, |list| - 1) && |sorted| == |list|
      invariant multiset(sorted) == multiset(list) && (Descending(list, key) ==> sorted == list)
      invariant forall a, b | 0 <= a < i && a < b < |sorted| :: key(sorted[a]) >= key(sorted[b])
    {
      var j := i + 1;
      while j < |sorted|
        invariant i < j <= |sorted| == |list|
        invariant multiset(sorted) == multiset(list) && (Descending(list, key) ==> sorted == list)
        invariant forall a, b | 0 <= a < i && a < b < |sorted| :: key(sorted[a]) >= key(sorted[b])
        invariant forall b | i < b < j :: key(sorted[i]) >= key(sorted[b])
      {
        if key(sorted[j]) > key(sorted[i]) {
          sorted := Swap(sorted, i, j);
        }
        j := j + 1;
      }
      i := i + 1;
    }
  }
}

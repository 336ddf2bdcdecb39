/** Folding a commutative operation over the values of a map.

    The Go services iterate over maps, whose order is unspecified.  A fold with a
    commutative, associative operation gives such a loop one meaning for every order. */
module Folds {

  ghost predicate HasUnit<A>(op: (A, A) -> A, unit: A, a: A) {
    op(a, unit) == a
  }

  ghost predicate Commutes<A>(op: (A, A) -> A, a: A, b: A) {
    op(a, b) == op(b, a)
  }

  ghost predicate Associates<A>(op: (A, A) -> A, a: A, b: A, c: A) {
    op(op(a, b), c) == op(a, op(b, c))
  }

  ghost predicate CommutativeMonoid<A(!new)>(op: (A, A) -> A, unit: A) {
    && (forall a :: HasUnit(op, unit, a))
    && (forall a, b :: Commutes(op, a, b))
    && (forall a, b, c :: Associates(op, a, b, c))
  }

  ghost function Fold<K, V, A>(m: map<K, V>, g: V -> A, op: (A, A) -> A, unit: A): A {
    if m.Keys == {} then unit
    else var k :| k in m.Keys; op(g(m[k]), Fold(m - {k}, g, op, unit))
  }

  /** Whichever key a loop visits first, the fold splits into its value and the rest. */
  lemma {:induction false} FoldRemove<K, V, A(!new)>(m: map<K, V>, k: K, g: V -> A, op: (A, A) -> A, unit: A)
    requires CommutativeMonoid(op, unit)
    requires k in m
    ensures Fold(m, g, op, unit) == op(g(m[k]), Fold(m - {k}, g, op, unit))
    decreases |m|
  {
    var c :| c in m.Keys && Fold(m, g, op, unit) == op(g(m[c]), Fold(m - {c}, g, op, unit));
    if c != k {
      FoldRemove(m - {c}, k, g, op, unit);
      FoldRemove(m - {k}, c, g, op, unit);
      assert (m - {c}) - {k} == (m - {k}) - {c};
      var rest := Fold((m - {c}) - {k}, g, op, unit);
      assert Associates(op, g(m[c]), g(m[k]), rest);
      assert Associates(op, g(m[k]), g(m[c]), rest);
      assert Commutes(op, g(m[c]), g(m[k]));
    }
  }

  /** Writing one key replaces exactly that key's contribution. */
  lemma FoldWrite<K, V, A(!new)>(m: map<K, V>, k: K, v: V, g: V -> A, op: (A, A) -> A, unit: A)
    requires CommutativeMonoid(op, unit)
    ensures Fold(m[k := v], g, op, unit) == op(g(v), Fold(m - {k}, g, op, unit))
  {
    FoldRemove(m[k := v], k, g, op, unit);
    assert m[k := v] - {k} == m - {k};
  }

  lemma UnionWithout<K, V>(m: map<K, V>, n: map<K, V>, k: K)
    requires m.Keys !! n.Keys && k in m
    ensures (m + n) - {k} == (m - {k}) + n
  {
    assert k !in n;
  }

  /** Folds of two maps with no key in common combine. */
  lemma {:induction false} FoldUnion<K, V, A(!new)>(m: map<K, V>, n: map<K, V>, g: V -> A, op: (A, A) -> A, unit: A)
    requires CommutativeMonoid(op, unit)
    requires m.Keys !! n.Keys
    ensures Fold(m + n, g, op, unit) == op(Fold(m, g, op, unit), Fold(n, g, op, unit))
    decreases |m|
  {
    if m.Keys == {} {
      assert m + n == n;
      assert Commutes(op, unit, Fold(n, g, op, unit)) && HasUnit(op, unit, Fold(n, g, op, unit));
    } else {
      var k :| k in m.Keys;
      assert k in m + n && (m + n)[k] == m[k];
      FoldRemove(m, k, g, op, unit);
      FoldRemove(m + n, k, g, op, unit);
      UnionWithout(m, n, k);
      FoldUnion(m - {k}, n, g, op, unit);
      assert Associates(op, g(m[k]), Fold(m - {k}, g, op, unit), Fold(n, g, op, unit));
    }
  }

  // ---------- Folding a listing of the map ----------

  function FoldList<V, A>(list: seq<V>, g: V -> A, op: (A, A) -> A, unit: A): A {
    if list == [] then unit else op(FoldList(list[..|list| - 1], g, op, unit), g(list[|list| - 1]))
  }

  lemma FoldListSnoc<V, A>(list: seq<V>, i: nat, g: V -> A, op: (A, A) -> A, unit: A)
    requires i < |list|
    ensures FoldList(list[..i + 1], g, op, unit) == op(FoldList(list[..i], g, op, unit), g(list[i]))
  {
    assert list[..i + 1][..i] == list[..i];
  }

  /** `list` holds the values of the map, each once and in some order: `keys` says which. */
  ghost predicate Lists<K(!new), V>(m: map<K, V>, keys: seq<K>, list: seq<V>) {
    && |keys| == |list|
    && (forall i, j | 0 <= i < j < |keys| :: keys[i] != keys[j])
    && (forall k :: k in keys <==> k in m)
    && (forall i | 0 <= i < |keys| :: keys[i] in m && list[i] == m[keys[i]])
  }

  lemma DropLast<K(!new), V>(m: map<K, V>, keys: seq<K>, list: seq<V>)
    requires Lists(m, keys, list) && list != []
    ensures var n := |list| - 1; Lists(m - {keys[n]}, keys[..n], list[..n])
  {
    var n := |list| - 1;
    assert keys == keys[..n] + [keys[n]];
  }

  lemma NothingListed<K(!new), V>(m: map<K, V>, keys: seq<K>, list: seq<V>)
    requires Lists(m, keys, list) && list == []
    ensures m == map[]
  {
    assert forall k :: k !in m;
  }

  /** A listing is as long as its map. */
  lemma {:induction false} ListedOnce<K(!new), V>(m: map<K, V>, keys: seq<K>, list: seq<V>)
    requires Lists(m, keys, list)
    ensures |m| == |list|
    decreases |list|
  {
    if list == [] {
      NothingListed(m, keys, list);
    } else {
      var n := |list| - 1;
      DropLast(m, keys, list);
      ListedOnce(m - {keys[n]}, keys[..n], list[..n]);
      assert (m - {keys[n]}).Keys == m.Keys - {keys[n]};
    }
  }

  /** Every listing of a map folds to the same value. */
  lemma {:induction false} ListingsAgree<K(!new), V, A(!new)>(m: map<K, V>, keys: seq<K>, list: seq<V>,
                                                       g: V -> A, op: (A, A) -> A, unit: A)
    requires CommutativeMonoid(op, unit)
    requires Lists(m, keys, list)
    ensures FoldList(list, g, op, unit) == Fold(m, g, op, unit)
    decreases |list|
  {
    if list == [] {
      NothingListed(m, keys, list);
    } else {
      var n := |list| - 1;
      DropLast(m, keys, list);
      ListingsAgree(m - {keys[n]}, keys[..n], list[..n], g, op, unit);
      FoldRemove(m, keys[n], g, op, unit);
      assert Commutes(op, Fold(m - {keys[n]}, g, op, unit), g(list[n]));
    }
  }
}

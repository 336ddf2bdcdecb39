/** Splitting replicas over clusters. */
module ReplicaShares {
  import opened Common
  import opened Folds

  /** Go's integer division and remainder round toward zero. */
  function TruncDiv(a: int, b: int): int
    requires b > 0
  {
    if a >= 0 then a / b else -((-a) / b)
  }

  function TruncMod(a: int, b: int): int
    requires b > 0
  {
    a - TruncDiv(a, b) * b
  }

  function Share(replicas: int, n: int, i: int): int
    requires n > 0
  {
    TruncDiv(replicas, n) + if i < TruncMod(replicas, n) then 1 else 0
  }

  function Shares(replicas: int, n: int): seq<int>
    requires n > 0
  {
    seq(n, i => Share(replicas, n, i))
  }

  // ---------- Totals ----------

  function Plus(a: int, b: int): int {
    a + b
  }

  function Same(x: int): int {
    x
  }

  lemma PlusIsMonoid()
    ensures CommutativeMonoid(Plus, 0)
  {
    forall a: int ensures HasUnit(Plus, 0, a) { assert Plus(a, 0) == a; }
    forall a: int, b: int ensures Commutes(Plus, a, b) { assert Plus(a, b) == Plus(b, a); }
    forall a: int, b: int, c: int ensures Associates(Plus, a, b, c) {
      assert Plus(Plus(a, b), c) == Plus(a, Plus(b, c));
    }
  }

  /** The sum of a map's values. */
  ghost function Total(m: map<string, int>): int {
    Fold(m, Same, Plus, 0)
  }

  lemma {:induction false} SumOfFirstShares(replicas: int, n: int, k: nat)
    requires n > 0 && k <= n
    ensures var r := TruncMod(replicas, n);
            FoldList(Shares(replicas, n)[..k], Same, Plus, 0)
            == k * TruncDiv(replicas, n) + if r < 0 then 0 else if k < r then k else r
  {
    if k != 0 {
      SumOfFirstShares(replicas, n, k - 1);
      FoldListSnoc(Shares(replicas, n), k - 1, Same, Plus, 0);
      OneMoreTime(k, TruncDiv(replicas, n));
      TruncModRange(replicas, n);
    }
  }

  lemma OneMoreTime(k: int, q: int)
    ensures k * q == (k - 1) * q + q
  {
  }

  lemma TruncModRange(a: int, n: int)
    requires n > 0
    ensures -n < TruncMod(a, n) < n
    ensures a >= 0 ==> TruncMod(a, n) == a % n
    ensures TruncMod(a, n) < 0 <==> a < 0 && a % n != 0
  {
    if a < 0 {
      var q := (-a) / n;
      assert -a == q * n + (-a) % n;
      assert TruncMod(a, n) == -((-a) % n);
      if (-a) % n == 0 {
        MultipleHasNoRemainder(-q, n);
      } else {
        assert a == (-q - 1) * n + (n - (-a) % n);
        RemainderIsUnique(-q - 1, n, n - (-a) % n);
      }
    } else {
      assert a == (a / n) * n + a % n;
    }
  }

  lemma RemainderIsUnique(q: int, n: int, r: int)
    requires n > 0 && 0 <= r < n
    ensures (q * n + r) % n == r && (q * n + r) / n == q
  {
    var a := q * n + r;
    var d := a / n - q;
    assert a == (a / n) * n + a % n;
    assert d * n == r - a % n;
    NonzeroMultiple(d, n);
  }

  lemma NonzeroMultiple(d: int, n: int)
    requires n > 0
    ensures d >= 1 ==> d * n >= n
    ensures d <= -1 ==> d * n <= -n
  {
  }

  lemma MultipleHasNoRemainder(q: int, n: int)
    requires n > 0
    ensures (q * n) % n == 0
  {
    RemainderIsUnique(q, n, 0);
  }

  /** What the first `k` clusters are given, one after the other; of clusters with one name the
      last listed decides. */
  function AllocationsOf(names: seq<string>, replicas: int, k: nat): map<string, int>
    requires k <= |names|
  {
    if k == 0 then map[]
    else AllocationsOf(names, replicas, k - 1)[names[k - 1] := Share(replicas, |names|, k - 1)]
  }

  /** `allocations` gives every cluster its share, in the order listed. */
  ghost predicate Allots(allocations: map<string, int>, names: seq<string>, replicas: int) {
    names != [] && Lists(allocations, names, Shares(replicas, |names|))
  }

  lemma {:induction false} DistinctNamesEachKeepShare(names: seq<string>, replicas: int, k: nat)
    requires k <= |names|
    requires forall i, j | 0 <= i < j < |names| :: names[i] != names[j]
    ensures var m := AllocationsOf(names, replicas, k);
            && (forall i | 0 <= i < k :: names[i] in m && m[names[i]] == Share(replicas, |names|, i))
            && (forall name | name in m :: exists i :: 0 <= i < k && names[i] == name)
  {
    if k != 0 { DistinctNamesEachKeepShare(names, replicas, k - 1); }
  }

  /** Of the clusters of one name the last listed decides. */
  lemma {:induction false} LastOfNameDecides(names: seq<string>, replicas: int, k: nat, i: nat)
    requires i < k <= |names| && forall j | i < j < k :: names[j] != names[i]
    ensures names[i] in AllocationsOf(names, replicas, k)
    ensures AllocationsOf(names, replicas, k)[names[i]] == Share(replicas, |names|, i)
  {
    if i < k - 1 { LastOfNameDecides(names, replicas, k - 1, i); }
  }

  /** With distinct names every cluster has its share. */
  lemma DistinctNamesAllot(names: seq<string>, replicas: int)
    requires names != []
    requires forall i, j | 0 <= i < j < |names| :: names[i] != names[j]
    ensures Allots(AllocationsOf(names, replicas, |names|), names, replicas)
  {
    DistinctNamesEachKeepShare(names, replicas, |names|);
    forall name ensures name in names <==> name in AllocationsOf(names, replicas, |names|) {
      if name in names {
        var i :| 0 <= i < |names| && names[i] == name;
      }
    }
  }

  /** The shares add up to the replicas exactly when these are not negative or divide evenly:
      a negative remainder is dropped. */
  lemma DistributionIsExactIff(allocations: map<string, int>, names: seq<string>, replicas: int)
    requires Allots(allocations, names, replicas)
    ensures Total(allocations) == replicas <==> replicas >= 0 || replicas % |names| == 0
  {
    var n := |names|;
    var shares := Shares(replicas, n);
    PlusIsMonoid();
    ListingsAgree(allocations, names, shares, Same, Plus, 0);
    SumOfFirstShares(replicas, n, n);
    assert shares[..n] == shares;
    TruncModRange(replicas, n);
  }

  lemma KeysAreNames(allocations: map<string, int>, names: seq<string>, replicas: int)
    requires Allots(allocations, names, replicas)
    ensures |allocations| == |names|
    ensures forall k | k in allocations ::
              exists i :: 0 <= i < |names| && names[i] == k && allocations[k] == Share(replicas, |names|, i)
  {
    ListedOnce(allocations, names, Shares(replicas, |names|));
    forall k | k in allocations
      ensures exists i :: 0 <= i < |names| && names[i] == k && allocations[k] == Share(replicas, |names|, i)
    {
      assert k in names;
      var i :| 0 <= i < |names| && names[i] == k;
      assert Shares(replicas, |names|)[i] == Share(replicas, |names|, i);
    }
  }

  lemma SharesAreNear(allocations: map<string, int>, names: seq<string>, replicas: int, k: string)
    requires Allots(allocations, names, replicas) && k in allocations && replicas >= 0
    ensures replicas / |names| <= allocations[k] <= replicas / |names| + 1
    ensures replicas % |names| == 0 ==> allocations[k] == replicas / |names|
  {
    KeysAreNames(allocations, names, replicas);
    TruncModRange(replicas, |names|);
    var i :| 0 <= i < |names| && names[i] == k && allocations[k] == Share(replicas, |names|, i);
  }

  lemma SharesDiffer(replicas: int, n: int, a: nat, b: nat)
    requires n > 0
    ensures Share(replicas, n, a) - Share(replicas, n, b) <= if replicas < 0 then 0 else 1
  {
    TruncModRange(replicas, n);
  }

  /** No two clusters are more than one replica apart; if the replicas are negative, all get
      the same. */
  lemma SharesAreBalanced(allocations: map<string, int>, names: seq<string>, replicas: int)
    requires Allots(allocations, names, replicas)
    ensures forall j, k | j in allocations && k in allocations ::
              allocations[j] - allocations[k] <= if replicas < 0 then 0 else 1
  {
    var n := |names|;
    KeysAreNames(allocations, names, replicas);
    forall j, k | j in allocations && k in allocations
      ensures allocations[j] - allocations[k] <= if replicas < 0 then 0 else 1
    {
      var a :| 0 <= a < n && names[a] == j && allocations[j] == Share(replicas, n, a);
      var b :| 0 <= b < n && names[b] == k && allocations[k] == Share(replicas, n, b);
      SharesDiffer(replicas, n, a, b);
    }
  }

  /** Two clusters given minus one replica get none each. */
  lemma NegativeRemainderIsDropped(a: string, b: string)
    requires a != b
    ensures var allocations := AllocationsOf([a, b], -1, 2);
            Allots(allocations, [a, b], -1) && allocations == map[a := 0, b := 0] && Total(allocations) != -1
  {
    DistinctNamesAllot([a, b], -1);
    DistributionIsExactIff(AllocationsOf([a, b], -1, 2), [a, b], -1);
    assert AllocationsOf([a, b], -1, 2) == map[a := 0][b := 0];
  }

  /** No other split of the same replicas over the same clusters has a smaller maximum or a
      larger minimum. */
  lemma DistributionIsOptimal(allocations: map<string, int>, names: seq<string>, replicas: int, other: map<string, int>)
    requires Allots(allocations, names, replicas) && replicas >= 0
    requires other.Keys == allocations.Keys && Total(other) == replicas
    ensures exists k :: k in other && forall j | j in allocations :: allocations[j] <= other[k]
    ensures exists k :: k in other && forall j | j in allocations :: other[k] <= allocations[j]
  {
    var n := |names|;
    KeysAreNames(allocations, names, replicas);
    assert |other| == |other.Keys| == |allocations.Keys| == n;
    forall j | j in allocations
      ensures allocations[j] <= Ceiling(replicas, n) && replicas / n <= allocations[j]
    {
      SharesAreNear(allocations, names, replicas, j);
    }
    SharesAreTight(replicas, n);
    var top := SomeoneIsAbove(other, Ceiling(replicas, n) - 1);
    var bottom := SomeoneIsBelow(other, replicas / n + 1);
    assert forall j | j in allocations :: allocations[j] <= other[top];
    assert forall j | j in allocations :: other[bottom] <= allocations[j];
  }

  function Ceiling(a: int, n: int): int
    requires n > 0
  {
    if a % n == 0 then a / n else a / n + 1
  }

  /** A total above `bound` apiece needs a value above it... */
  lemma {:induction false} SomeoneIsAbove(m: map<string, int>, bound: int) returns (k: string)
    requires Total(m) > |m| * bound
    ensures k in m && m[k] > bound
    decreases |m|
  {
    PlusIsMonoid();
    assert m.Keys != {};
    k :| k in m;
    if m[k] <= bound {
      FoldRemove(m, k, Same, Plus, 0);
      assert |m| * bound == (|m| - 1) * bound + bound;
      k := SomeoneIsAbove(m - {k}, bound);
    }
  }

  /** ... and likewise below. */
  lemma {:induction false} SomeoneIsBelow(m: map<string, int>, bound: int) returns (k: string)
    requires Total(m) < |m| * bound
    ensures k in m && m[k] < bound
    decreases |m|
  {
    PlusIsMonoid();
    assert m.Keys != {};
    k :| k in m;
    if m[k] >= bound {
      FoldRemove(m, k, Same, Plus, 0);
      assert |m| * bound == (|m| - 1) * bound + bound;
      k := SomeoneIsBelow(m - {k}, bound);
    }
  }

  lemma SharesAreTight(replicas: int, n: int)
    requires n > 0
    ensures n * (Ceiling(replicas, n) - 1) < replicas < n * (replicas / n + 1)
  {
    var f := replicas / n;
    assert replicas == f * n + replicas % n;
    assert n * (f + 1) == f * n + n && n * f == f * n && n * (f - 1) == f * n - n;
  }

  /** One more replica goes to the cluster at index replicas mod n and to no other. */
  lemma OneMoreReplica(replicas: nat, n: nat, i: nat)
    requires n > 0 && i < n
    ensures Share(replicas + 1, n, i) == Share(replicas, n, i) + if i == replicas % n then 1 else 0
  {
    var q, r := replicas / n, replicas % n;
    assert replicas == q * n + r;
    TruncModRange(replicas, n);
    TruncModRange(replicas + 1, n);
    if r + 1 < n {
      RemainderIsUnique(q, n, r + 1);
    } else {
      assert replicas + 1 == (q + 1) * n + 0;
      RemainderIsUnique(q + 1, n, 0);
    }
  }
}

/** The distribution of a workload's replicas over the clusters of a federation. */
module WorkloadDistributions {
  import opened Common
  import opened Folds
  import opened ReplicaShares

  newtype int32 = x: int | -0x8000_0000 <= x < 0x8000_0000

  datatype Cluster = Cluster(name: string)

  class WorkloadDistribution {
    const policyName: string
    const totalReplicas: int32
    var allocations: map<string, int32>

    ghost function Counts(): map<string, int>
      reads this
    {
      map name | name in allocations :: allocations[name] as int
    }

    /** The number of clusters fits the 32 bits that the code converts it to. */
    constructor (policyName: string, replicas: int32, clusters: seq<Cluster>)
      requires |clusters| < 0x8000_0000
      ensures this.policyName == policyName && totalReplicas == replicas
      ensures Counts() == AllocationsOf(NamesOf(clusters), replicas as int, |clusters|)
    {
      this.policyName, totalReplicas, allocations := policyName, replicas, map[];
      new;
      if |clusters| == 0 {
        return;
      }
      var n := |clusters|;
      ghost var names := NamesOf(clusters);
      ShareFits(replicas as int, n);
      var perCluster := TruncDiv(replicas as int, n) as int32;
      var remainder := TruncMod(replicas as int, n) as int32;
      for i := 0 to n
        invariant Counts() == AllocationsOf(names, replicas as int, i)
      {
        var alloc := perCluster;
        if i as int32 < remainder {
          alloc := alloc + 1;
        }
        allocations := allocations[clusters[i].name := alloc];
      }
    }

    lemma ShareFits(replicas: int, n: int)
      requires -0x8000_0000 <= replicas < 0x8000_0000 && n > 0
      ensures -0x8000_0000 <= TruncDiv(replicas, n) < 0x8000_0000
      ensures -0x8000_0000 <= TruncMod(replicas, n) < 0x8000_0000
      ensures TruncMod(replicas, n) > 0 ==> TruncDiv(replicas, n) + 1 < 0x8000_0000
    {
      TruncModRange(replicas, n);
      if replicas >= 0 {
        assert replicas == (replicas / n) * n + replicas % n;
        QuotientIsSmaller(replicas, n);
      } else {
        QuotientIsSmaller(-replicas, n);
      }
    }

    lemma ProductGrows(q: int, n: int)
      requires n > 0
      ensures q >= 0 ==> q * n >= q
      ensures q < 0 ==> q * n <= q
    {
    }

    lemma QuotientIsSmaller(a: int, n: int)
      requires a >= 0 && n > 0
      ensures 0 <= a / n <= a && a % n <= a
      ensures a % n > 0 ==> a / n < a
    {
      assert a == (a / n) * n + a % n;
      ProductGrows(a / n, n);
    }

    function NamesOf(clusters: seq<Cluster>): seq<string> {
      seq(|clusters|, i requires 0 <= i < |clusters| => clusters[i].name)
    }

    method GetAllocation(clusterName: string) returns (alloc: int32)
      ensures alloc as int == if clusterName in Counts() then Counts()[clusterName] else 0
    {
      if clusterName in allocations {
        return allocations[clusterName];
      }
      return 0;
    }
  }
}

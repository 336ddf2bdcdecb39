/** Composite scores as weighted means. */
module CompositeScores {
  import opened Common
  import opened Folds

  datatype Status = Pending | Running | Completed | Failed
  datatype Kind = Cpu | Memory | Network | Gpu | Storage | Composite

  datatype BenchmarkResult = BenchmarkResult(node: Uuid, kind: Kind, status: Status, score: real)

  type Results = map<Uuid, BenchmarkResult>

  /** A kind that the table of weights does not list weighs nothing. */
  function WeightOf(kind: Kind): real {
    match kind
    case Cpu => 0.25
    case Memory => 0.15
    case Network => 0.15
    case Gpu => 0.30
    case Storage => 0.15
    case Composite => 0.0
  }

  datatype Weighted = Weighted(total: real, weight: real)

  const ZERO := Weighted(0.0, 0.0)

  function Add(a: Weighted, b: Weighted): Weighted {
    Weighted(a.total + b.total, a.weight + b.weight)
  }

  function WeightedOf(r: BenchmarkResult): Weighted {
    if r.status != Completed then ZERO
    else Weighted(Times(r.score, WeightOf(r.kind)), WeightOf(r.kind))
  }

  lemma AddIsMonoid()
    ensures CommutativeMonoid(Add, ZERO)
  {
    forall a: Weighted ensures HasUnit(Add, ZERO, a) { assert Add(a, ZERO) == a; }
    forall a: Weighted, b: Weighted ensures Commutes(Add, a, b) { assert Add(a, b) == Add(b, a); }
    forall a: Weighted, b: Weighted, c: Weighted ensures Associates(Add, a, b, c) {
      assert Add(Add(a, b), c) == Add(a, Add(b, c));
    }
  }

  ghost function Sum(results: Results): Weighted {
    Fold(results, WeightedOf, Add, ZERO)
  }

  /** The results of one node, or all for the nil node; of one kind, or of all. */
  predicate Selects(node: Uuid, kind: Option<Kind>, r: BenchmarkResult) {
    && (node != NIL ==> r.node == node)
    && (kind.Some? ==> r.kind == kind.value)
  }

  function Selected(results: Results, node: Uuid, kind: Option<Kind>): Results {
    map id | id in results && Selects(node, kind, results[id]) :: results[id]
  }

  predicate Counts(r: BenchmarkResult) {
    r.status == Completed && WeightOf(r.kind) > 0.0
  }

  lemma ScaledBounds(w: real, x: real, low: real, high: real)
    requires w >= 0.0 && low <= x <= high
    ensures w * low <= Times(x, w) <= w * high
  {
  }

  ghost predicate IsBetween(w: Weighted, low: real, high: real) {
    w.weight >= 0.0 && w.weight * low <= w.total <= w.weight * high
  }

  lemma AddKeepsBetween(a: Weighted, b: Weighted, low: real, high: real)
    requires IsBetween(a, low, high) && IsBetween(b, low, high)
    ensures IsBetween(Add(a, b), low, high)
  {
    var v, w := a.weight, b.weight;
    assert (v + w) * low == v * low + w * low && (v + w) * high == v * high + w * high;
  }

  lemma EachIsBetween(r: BenchmarkResult, low: real, high: real)
    requires Counts(r) ==> low <= r.score <= high
    ensures IsBetween(WeightedOf(r), low, high)
  {
    if Counts(r) { ScaledBounds(WeightOf(r.kind), r.score, low, high); }
  }

  /** The weighted total lies between the extremes times the weight. */
  lemma {:induction false} TotalIsBetween(results: Results, low: real, high: real)
    requires forall id | id in results && Counts(results[id]) :: low <= results[id].score <= high
    ensures IsBetween(Sum(results), low, high)
    decreases |results|
  {
    if results.Keys != {} {
      var id :| id in results;
      SumWithout(results, id);
      TotalIsBetween(results - {id}, low, high);
      EachIsBetween(results[id], low, high);
      AddKeepsBetween(WeightedOf(results[id]), Sum(results - {id}), low, high);
    }
  }

  lemma SumWithout(results: Results, id: Uuid)
    requires id in results
    ensures Sum(results) == Add(WeightedOf(results[id]), Sum(results - {id}))
  {
    AddIsMonoid();
    FoldRemove(results, id, WeightedOf, Add, ZERO);
  }

  /** There is weight exactly when some completed result carries one. */
  lemma {:induction false} WeightIff(results: Results)
    ensures Sum(results).weight >= 0.0
    ensures Sum(results).weight == 0.0 <==> forall id | id in results :: !Counts(results[id])
    decreases |results|
  {
    if results.Keys != {} {
      var id :| id in results;
      var rest := results - {id};
      SumWithout(results, id);
      WeightIff(rest);
      assert forall k | k in results && k != id :: k in rest && rest[k] == results[k];
    }
  }

  /** Whatever order the results are listed in, they add up to the same. */
  lemma ListingsSumAlike(results: Results, ids: seq<Uuid>, list: seq<BenchmarkResult>)
    requires Lists(results, ids, list)
    ensures FoldList(list, WeightedOf, Add, ZERO) == Sum(results)
  {
    AddIsMonoid();
    ListingsAgree(results, ids, list, WeightedOf, Add, ZERO);
  }

  function CompositeOf(sum: Weighted): real {
    if sum.weight == 0.0 then 0.0 else TwoDecimals(Ratio(sum.total, sum.weight))
  }

  // ---------- What counts, and for how much ----------

  /** What each kind weighs, in hundredths. */
  function Percent(kind: Kind): int {
    match kind
    case Gpu => 30
    case Cpu => 25
    case Memory | Network | Storage => 15
    case Composite => 0
  }

  function Part(kind: Kind): real {
    Percent(kind) as real / 100.0
  }

  lemma PartIsWeight(kind: Kind)
    ensures WeightOf(kind) == Part(kind)
  {
  }

  /** A result is listed with those of its own node and kind, or with those of every node or
      every kind, and with no others. */
  lemma OneMoreListed(results: Results, id: Uuid, r: BenchmarkResult, node: Uuid, kind: Option<Kind>)
    requires id !in results
    ensures Selected(results[id := r], node, kind)
            == if (node == 0 || r.node == node) && (kind == None || kind == Some(r.kind))
               then Selected(results, node, kind)[id := r] else Selected(results, node, kind)
  {
  }

  lemma SumOfMore(more: Results, id: Uuid, r: BenchmarkResult, results: Results)
    requires id in more && more[id] == r && more - {id} == results
    ensures Sum(more) == Add(WeightedOf(r), Sum(results))
  {
    SumWithout(more, id);
  }

  lemma WeightedIs(r: BenchmarkResult, w: real, sum: Weighted)
    requires w == Part(r.kind)
    ensures Add(WeightedOf(r), sum)
            == if r.status == Completed then Weighted(Times(r.score, w) + sum.total, w + sum.weight) else sum
  {
    PartIsWeight(r.kind);
  }

  /** One more completed result moves the total and the weight by what its kind weighs; a result
      that is not completed moves nothing. */
  lemma OneMoreResult(results: Results, id: Uuid, r: BenchmarkResult, w: real)
    requires id !in results && w == Part(r.kind)
    ensures var sum := Sum(results);
            Sum(results[id := r])
            == if r.status == Completed then Weighted(Times(r.score, w) + sum.total, w + sum.weight) else sum
  {
    assert results[id := r] - {id} == results;
    SumOfMore(results[id := r], id, r, results);
    WeightedIs(r, w, Sum(results));
  }

  /** Two completed results come to the mean of their scores, weighed by their kinds. */
  lemma CompositeOfTwo(i: Uuid, a: BenchmarkResult, v: real, j: Uuid, b: BenchmarkResult, w: real)
    requires i != j && a.status == Completed && b.status == Completed
    requires v == Part(a.kind) && w == Part(b.kind) && v + w != 0.0
    ensures CompositeOf(Sum(map[i := a, j := b]))
            == TwoDecimals(Ratio(Times(a.score, v) + Times(b.score, w), v + w))
  {
    OneMoreResult(map[], i, a, v);
    OneMoreResult(map[][i := a], j, b, w);
    assert map[i := a, j := b] == map[][i := a][j := b];
    NothingYet();
    WeightedMean(Sum(map[i := a, j := b]), Times(a.score, v), v, Times(b.score, w), w);
  }

  lemma NothingYet()
    ensures Sum(map[]) == ZERO
  {
  }

  lemma WeightedMean(sum: Weighted, x: real, v: real, y: real, w: real)
    requires v + w != 0.0 && sum == Weighted(y + (x + 0.0), w + (v + 0.0))
    ensures CompositeOf(sum) == TwoDecimals(Ratio(x + y, v + w))
  {
  }

  /** The composite score is within half a hundredth of a value between the smallest and the
      largest completed score that carries a weight; with no such score it is 0. */
  lemma CompositeIsAMean(results: Results, low: real, high: real) returns (mean: real)
    requires forall id | id in results && Counts(results[id]) :: low <= results[id].score <= high
    ensures var c := CompositeOf(Sum(results));
            if exists id :: id in results && Counts(results[id])
            then low <= mean <= high && -0.005 <= c - mean <= 0.005
            else c == 0.0
  {
    var sum := Sum(results);
    mean := 0.0;
    WeightIff(results);
    if sum.weight > 0.0 {
      mean := Ratio(sum.total, sum.weight);
      TotalIsBetween(results, low, high);
      MeanIsBetween(sum.total, sum.weight, low, high);
      TwoDecimalsAreNearest(mean);
    }
  }
}

/** The benchmark service: node ranking and composite scores. */
module BenchmarkServices {
  import opened Common
  import opened Folds
  import opened Listings
  import opened CompositeScores
  import NodeRanks

  class NodeScore {
    const nodeId: Uuid
    const overallScore: real
    var rank: int

    constructor (nodeId: Uuid, overallScore: real)
      ensures this.nodeId == nodeId && this.overallScore == overallScore && rank == 0
    {
      this.nodeId, this.overallScore, rank := nodeId, overallScore, 0;
    }
  }

  function ScoreOf(s: NodeScore): real {
    s.overallScore
  }

  class BenchmarkService {
    var results: Results
    var nodeScores: map<Uuid, NodeScore>

    /** Each score is filed under its own node. */
    ghost predicate Valid()
      reads this, nodeScores.Values
    {
      forall n | n in nodeScores :: nodeScores[n].nodeId == n
    }

    constructor ()
      ensures Valid() && results == map[] && nodeScores == map[]
    {
      results, nodeScores := map[], map[];
    }

    /** Every node's score, by descending value. */
    method SortScores() returns (scores: seq<NodeScore>)
      requires Valid()
      ensures multiset(scores) == multiset(nodeScores.Values)
      ensures Descending(scores, ScoreOf)
    {
      scores := ListValues(nodeScores);
      scores := SortDescending(scores, ScoreOf);
    }

    lemma AppearsTwice(scores: seq<NodeScore>, i: nat, j: nat)
      requires i < j < |scores|
      ensures scores[i] == scores[j] ==> multiset(scores)[scores[i]] >= 2
    {
      assert scores == scores[..i] + [scores[i]] + scores[i + 1..j] + [scores[j]] + scores[j + 1..];
    }

    lemma EachOnce(scores: seq<NodeScore>, all: set<NodeScore>)
      requires multiset(scores) == multiset(all)
      ensures forall s :: s in scores <==> s in all
      ensures forall i, j | 0 <= i < j < |scores| :: scores[i] != scores[j]
      ensures |scores| == |all|
    {
      forall s ensures s in scores <==> s in all {
        assert s in multiset(scores) <==> s in multiset(all);
      }
      forall i, j | 0 <= i < j < |scores| ensures scores[i] != scores[j] {
        AppearsTwice(scores, i, j);
        assert multiset(all)[scores[i]] <= 1;
      }
      assert |multiset(scores)| == |scores| && |multiset(all)| == |all|;
    }

    ghost function Scores(): NodeRanks.Scores
      reads this
    {
      map n | n in nodeScores :: nodeScores[n].overallScore
    }

    ghost function Ranks(): NodeRanks.Ranks
      reads this, nodeScores.Values
    {
      map n | n in nodeScores :: nodeScores[n].rank
    }

    /** Every node has one of the ranks 1 to n, no two the same, and better scores have better
        ranks. */
    ghost predicate IsRanked()
      reads this, nodeScores.Values
    {
      NodeRanks.IsRanked(Scores(), Ranks())
    }

    function NodesOf(scores: seq<NodeScore>): (nodes: seq<Uuid>)
      ensures |nodes| == |scores| && forall k | 0 <= k < |scores| :: nodes[k] == scores[k].nodeId
    {
      seq(|scores|, k requires 0 <= k < |scores| => scores[k].nodeId)
    }

    lemma ListNames(scores: seq<NodeScore>)
      requires Valid() && forall s :: s in scores <==> s in nodeScores.Values
      ensures forall s | s in scores :: s.nodeId in nodeScores && nodeScores[s.nodeId] == s
      ensures forall n :: n in NodesOf(scores) <==> n in nodeScores
    {
      forall n | n in nodeScores ensures n in NodesOf(scores) {
        assert nodeScores[n] in scores;
        var k :| 0 <= k < |scores| && scores[k] == nodeScores[n];
        assert NodesOf(scores)[k] == n;
      }
    }

    lemma ListIsOrder(scores: seq<NodeScore>)
      requires Valid() && Descending(scores, ScoreOf)
      requires forall s :: s in scores <==> s in nodeScores.Values
      requires forall i, j | 0 <= i < j < |scores| :: scores[i] != scores[j]
      ensures NodeRanks.IsOrder(Scores(), NodesOf(scores))
    {
      var nodes := NodesOf(scores);
      ListNames(scores);
      forall i, j | 0 <= i < j < |nodes| ensures nodes[i] != nodes[j] && Scores()[nodes[i]] >= Scores()[nodes[j]] {
        assert ScoreOf(scores[i]) >= ScoreOf(scores[j]);
      }
    }

    /** Ranking by position in a descending list. */
    lemma ListRanks(scores: seq<NodeScore>)
      requires Valid() && Descending(scores, ScoreOf)
      requires forall s :: s in scores <==> s in nodeScores.Values
      requires forall i, j | 0 <= i < j < |scores| :: scores[i] != scores[j]
      requires forall k | 0 <= k < |scores| :: scores[k].rank == k + 1
      ensures IsRanked() && |scores| == |nodeScores|
    {
      ListNames(scores);
      ListIsOrder(scores);
      NodeRanks.PositionsRank(Scores(), NodesOf(scores), Ranks());
      assert Scores().Keys == nodeScores.Keys;
    }

    method AssignRanks(scores: seq<NodeScore>)
      requires forall i, j | 0 <= i < j < |scores| :: scores[i] != scores[j]
      modifies scores
      ensures forall k | 0 <= k < |scores| :: scores[k].rank == k + 1
    {
      for i := 0 to |scores|
        invariant forall k | 0 <= k < i :: scores[k].rank == k + 1
      {
        scores[i].rank := i + 1;
      }
    }

    /** Ranks all nodes and returns the best `limit` of them (all, for a limit that is not
        positive or too large); no node left out scores above one returned. */
    method GetNodeRanking(limit: int) returns (ranking: seq<NodeScore>)
      requires Valid()
      modifies nodeScores.Values
      ensures Valid() && nodeScores == old(nodeScores) && IsRanked()
      ensures |ranking| == if 0 < limit < |nodeScores| then limit else |nodeScores|
      ensures forall i | 0 <= i < |ranking| :: ranking[i] in nodeScores.Values && ranking[i].rank == i + 1
      ensures forall s | s in nodeScores.Values && s !in ranking :: s.rank > |ranking|
      ensures forall s, t | s in nodeScores.Values && s !in ranking && t in ranking :: s.overallScore <= t.overallScore
    {
      var scores := SortScores();
      EachOnce(scores, nodeScores.Values);
      AssignRanks(scores);
      ListRanks(scores);
      ranking := scores;
      if limit > 0 && limit < |scores| {
        ranking := scores[..limit];
      }
      TopOfDescending(scores, |ranking|);
    }

    lemma TopOfDescending(scores: seq<NodeScore>, n: nat)
      requires Descending(scores, ScoreOf) && n <= |scores|
      requires forall k | 0 <= k < |scores| :: scores[k].rank == k + 1
      ensures forall s | s in scores && s !in scores[..n] :: s.rank > n
      ensures forall s, t | s in scores && s !in scores[..n] && t in scores[..n] :: s.overallScore <= t.overallScore
    {
      forall j | 0 <= j < n ensures scores[j] in scores[..n] { assert scores[..n][j] == scores[j]; }
      forall s | s in scores && s !in scores[..n] ensures s.rank > n && scores[s.rank - 1] == s {
        var j :| 0 <= j < |scores| && scores[j] == s;
      }
    }

    /** Lists the selected results, each once, in whatever order the map is read.  `ids` names
        the results listed. */
    method ListResults(node: Uuid, kind: Option<Kind>) returns (list: seq<BenchmarkResult>, ghost ids: seq<Uuid>)
      ensures Lists(Selected(results, node, kind), ids, list)
      ensures |list| == |Selected(results, node, kind)|
      ensures forall id | id in Selected(results, node, kind) :: results[id] in list
    {
      list, ids := [], [];
      var todo := results.Keys;
      while todo != {}
        invariant todo <= results.Keys
        invariant |ids| == |list| && forall i, j | 0 <= i < j < |ids| :: ids[i] != ids[j]
        invariant forall i | 0 <= i < |ids| :: ids[i] in results && list[i] == results[ids[i]]
        invariant forall id :: id in ids <==> id in results && id !in todo && Selects(node, kind, results[id])
      {
        var id :| id in todo;
        todo := todo - {id};
        var r := results[id];
        if node != NIL && r.node != node {
          continue;
        }
        if kind.Some? && r.kind != kind.value {
          continue;
        }
        list := list + [r];
        ids := ids + [id];
      }
      assert forall i | 0 <= i < |ids| :: ids[i] in ids;
      ListedOnce(Selected(results, node, kind), ids, list);
    }

    /** The body of the summing loop. */
    method AddScore(total: real, weightSum: real, result: BenchmarkResult) returns (total': real, weightSum': real)
      ensures Weighted(total', weightSum') == Add(Weighted(total, weightSum), WeightedOf(result))
    {
      total', weightSum' := total, weightSum;
      if result.status != Completed {
        return;
      }
      var weight := WeightOf(result.kind);
      total' := total + Times(result.score, weight);
      weightSum' := weightSum + weight;
    }

    /** Whatever order the results are listed in, the score is the rounded weighted mean of the
        completed ones; a node without results is an error. */
    method GetCompositeScore(node: Uuid) returns (r: Option<real>)
      ensures r == if Selected(results, node, None) == map[] then None
                   else Some(CompositeOf(Sum(Selected(results, node, None))))
    {
      var list;
      ghost var ids;
      list, ids := ListResults(node, None);
      ghost var selected := Selected(results, node, None);
      if |list| == 0 {
        NothingListed(selected, ids, list);
        return None;
      }
      assert ids[0] in ids;
      var totalScore, weightSum := 0.0, 0.0;
      for i := 0 to |list|
        invariant Weighted(totalScore, weightSum) == FoldList(list[..i], WeightedOf, Add, ZERO)
      {
        FoldListSnoc(list, i, WeightedOf, Add, ZERO);
        totalScore, weightSum := AddScore(totalScore, weightSum, list[i]);
      }
      assert list[..|list|] == list;
      ListingsSumAlike(selected, ids, list);
      if weightSum == 0.0 {
        return Some(0.0);
      }
      r := Some(TwoDecimals(Ratio(totalScore, weightSum)));
    }
  }
}

/** Ranks written by rankings that may run at the same time: the service takes only its read
    lock, so each ranking sorts the same scores for itself and then writes the ranks one by
    one into the shared nodes. */
module NodeRanks {
  import opened Common

  type Scores = map<Uuid, real>

  type Ranks = map<Uuid, int>

  /** The nodes have ranks from 1 on, no two the same, and better scores have better ranks. */
  ghost predicate IsRanked(scores: Scores, ranks: Ranks) {
    && (forall n | n in scores :: n in ranks && 1 <= ranks[n] <= |scores|)
    && (forall m, n | m in scores && n in scores && m != n :: ranks[m] != ranks[n])
    && (forall m, n | m in scores && n in scores && scores[m] > scores[n] :: ranks[m] < ranks[n])
  }

  ghost predicate NoTies(scores: Scores) {
    forall m, n | m in scores && n in scores && m != n :: scores[m] != scores[n]
  }

  /** Some of the nodes, each once, by descending score. */
  ghost predicate IsListing(scores: Scores, list: seq<Uuid>) {
    && (forall i | 0 <= i < |list| :: list[i] in scores)
    && (forall i, j | 0 <= i < j < |list| :: list[i] != list[j] && scores[list[i]] >= scores[list[j]])
  }

  /** A sort may leave the nodes in this order. */
  ghost predicate IsOrder(scores: Scores, order: seq<Uuid>) {
    IsListing(scores, order) && forall n :: n in order <==> n in scores
  }

  /** Several rankings on their way: how many ranks each has written, and the ranks so far. */
  datatype Race = Race(written: seq<nat>, ranks: Ranks)

  ghost predicate Fits(orders: seq<seq<Uuid>>, r: Race) {
    |r.written| == |orders| && forall c | 0 <= c < |orders| :: r.written[c] <= |orders[c]|
  }

  ghost predicate IsDone(orders: seq<seq<Uuid>>, r: Race) {
    Fits(orders, r) && forall c | 0 <= c < |orders| :: r.written[c] == |orders[c]|
  }

  /** Ranking `c` writes its next rank, if it has one left to write. */
  ghost function Step(orders: seq<seq<Uuid>>, r: Race, c: nat): (r': Race)
    requires Fits(orders, r)
    ensures Fits(orders, r')
  {
    if c < |orders| && r.written[c] < |orders[c]| then
      var k := r.written[c];
      Race(r.written[c := k + 1], r.ranks[orders[c][k] := k + 1])
    else r
  }

  /** `schedule` says whose turn it is. */
  ghost function RunFrom(orders: seq<seq<Uuid>>, r: Race, schedule: seq<nat>): (r': Race)
    requires Fits(orders, r)
    ensures Fits(orders, r')
  {
    if schedule == [] then r
    else Step(orders, RunFrom(orders, r, schedule[..|schedule| - 1]), schedule[|schedule| - 1])
  }

  ghost function Start(orders: seq<seq<Uuid>>, ranks: Ranks): (r: Race)
    ensures Fits(orders, r)
  {
    Race(seq(|orders|, _ => 0), ranks)
  }

  /** If the schedule lets all the rankings finish, the nodes are ranked. */
  ghost predicate EndsRanked(scores: Scores, orders: seq<seq<Uuid>>, ranks: Ranks, schedule: seq<nat>) {
    var end := RunFrom(orders, Start(orders, ranks), schedule);
    IsDone(orders, end) ==> IsRanked(scores, end.ranks)
  }

  ghost predicate AreRankings(scores: Scores, orders: seq<seq<Uuid>>) {
    orders != [] && forall c | 0 <= c < |orders| :: IsOrder(scores, orders[c])
  }

  // ---------- One ranking ----------

  lemma {:induction false} DistinctCount(list: seq<Uuid>, s: set<Uuid>)
    requires forall i, j | 0 <= i < j < |list| :: list[i] != list[j]
    requires forall n :: n in list <==> n in s
    ensures |s| == |list|
    decreases |list|
  {
    if list == [] {
      assert s == {};
    } else {
      var last := |list| - 1;
      assert list == list[..last] + [list[last]];
      DistinctCount(list[..last], s - {list[last]});
    }
  }

  /** Positions in an order rank the nodes. */
  lemma PositionsRank(scores: Scores, order: seq<Uuid>, ranks: Ranks)
    requires IsOrder(scores, order)
    requires forall k | 0 <= k < |order| :: order[k] in ranks && ranks[order[k]] == k + 1
    ensures IsRanked(scores, ranks) && |order| == |scores|
  {
    DistinctCount(order, scores.Keys);
    forall n | n in scores ensures n in ranks && 1 <= ranks[n] <= |order| && order[ranks[n] - 1] == n {
      assert n in order;
    }
  }

  // ---------- Without ties ----------

  ghost function Better(scores: Scores, n: Uuid): set<Uuid>
    requires n in scores
  {
    set m | m in scores && scores[m] > scores[n]
  }

  /** Without ties a node's place is the number of nodes that score above it. */
  lemma PlaceIsForced(scores: Scores, order: seq<Uuid>, k: nat)
    requires NoTies(scores) && IsOrder(scores, order) && k < |order|
    ensures |Better(scores, order[k])| == k
  {
    forall n ensures n in order[..k] <==> n in Better(scores, order[k]) {
      if n in order {
        var i :| 0 <= i < |order| && order[i] == n;
      }
    }
    DistinctCount(order[..k], Better(scores, order[k]));
  }

  ghost predicate IsRight(scores: Scores, ranks: Ranks, n: Uuid) {
    n in scores && n in ranks && ranks[n] == |Better(scores, n)| + 1
  }

  /** All ranks written so far are right. */
  ghost predicate WrittenRight(scores: Scores, orders: seq<seq<Uuid>>, r: Race)
    requires Fits(orders, r)
  {
    forall c, k | 0 <= c < |orders| && 0 <= k < r.written[c] :: IsRight(scores, r.ranks, orders[c][k])
  }

  lemma WriteKeepsRight(scores: Scores, ranks: Ranks, m: Uuid, rank: int, n: Uuid)
    requires IsRight(scores, ranks, n) && m in scores && rank == |Better(scores, m)| + 1
    ensures IsRight(scores, ranks[m := rank], n)
  {
  }

  lemma StepWritesRight(scores: Scores, orders: seq<seq<Uuid>>, r: Race, c: nat)
    requires NoTies(scores) && AreRankings(scores, orders) && Fits(orders, r) && WrittenRight(scores, orders, r)
    ensures WrittenRight(scores, orders, Step(orders, r, c))
  {
    if c < |orders| && r.written[c] < |orders[c]| {
      var at := r.written[c];
      var n, r' := orders[c][at], Step(orders, r, c);
      PlaceIsForced(scores, orders[c], at);
      forall b, k | 0 <= b < |orders| && 0 <= k < r'.written[b] ensures IsRight(scores, r'.ranks, orders[b][k]) {
        if b != c || k < at { WriteKeepsRight(scores, r.ranks, n, at + 1, orders[b][k]); }
      }
    }
  }

  lemma {:induction false} RunWritesRight(scores: Scores, orders: seq<seq<Uuid>>, ranks: Ranks, schedule: seq<nat>)
    requires NoTies(scores) && AreRankings(scores, orders)
    ensures WrittenRight(scores, orders, RunFrom(orders, Start(orders, ranks), schedule))
  {
    if schedule != [] {
      var front := schedule[..|schedule| - 1];
      RunWritesRight(scores, orders, ranks, front);
      StepWritesRight(scores, orders, RunFrom(orders, Start(orders, ranks), front), schedule[|schedule| - 1]);
    }
  }

  lemma BetterShrinks(scores: Scores, m: Uuid, n: Uuid)
    requires m in scores && n in scores && scores[m] > scores[n]
    ensures |Better(scores, m)| < |Better(scores, n)|
  {
    CountBelow(Better(scores, m), Better(scores, n), m);
  }

  lemma CountBelow(small: set<Uuid>, large: set<Uuid>, extra: Uuid)
    requires small <= large && extra in large && extra !in small
    ensures |small| < |large|
  {
    CountWithin(small, large - {extra});
  }

  lemma {:induction false} CountWithin(small: set<Uuid>, large: set<Uuid>)
    requires small <= large
    ensures |small| <= |large|
    decreases |small|
  {
    if small != {} {
      var n :| n in small;
      CountWithin(small - {n}, large - {n});
    }
  }

  /** Places counted from above rank the nodes. */
  lemma PlacesRank(scores: Scores, ranks: Ranks)
    requires NoTies(scores)
    requires forall n | n in scores :: IsRight(scores, ranks, n)
    ensures IsRanked(scores, ranks)
  {
    forall n | n in scores ensures 1 <= ranks[n] <= |scores| {
      assert IsRight(scores, ranks, n);
      CountBelow(Better(scores, n), scores.Keys, n);
    }
    forall m, n | m in scores && n in scores && scores[m] > scores[n] ensures ranks[m] < ranks[n] {
      BetterShrinks(scores, m, n);
    }
    forall m, n | m in scores && n in scores && m != n ensures ranks[m] != ranks[n] {
      if scores[m] > scores[n] { BetterShrinks(scores, m, n); } else { BetterShrinks(scores, n, m); }
    }
  }

  /** Without ties, however many rankings run at once, and however they interleave. */
  lemma NoTiesNoRace(scores: Scores, orders: seq<seq<Uuid>>, ranks: Ranks, schedule: seq<nat>)
    requires NoTies(scores) && AreRankings(scores, orders)
    ensures EndsRanked(scores, orders, ranks, schedule)
  {
    var end := RunFrom(orders, Start(orders, ranks), schedule);
    RunWritesRight(scores, orders, ranks, schedule);
    if IsDone(orders, end) {
      forall n | n in scores ensures IsRight(scores, end.ranks, n) {
        assert IsOrder(scores, orders[0]) && n in orders[0];
      }
      PlacesRank(scores, end.ranks);
    }
  }

  // ---------- With a tie ----------

  lemma {:induction false} RunConcat(orders: seq<seq<Uuid>>, r: Race, a: seq<nat>, b: seq<nat>)
    requires Fits(orders, r)
    ensures RunFrom(orders, r, a + b) == RunFrom(orders, RunFrom(orders, r, a), b)
    decreases |b|
  {
    if b == [] {
      assert a + b == a;
    } else {
      assert (a + b)[..|a + b| - 1] == a + b[..|b| - 1];
      RunConcat(orders, r, a, b[..|b| - 1]);
    }
  }

  function Turns(c: nat, n: nat): (t: seq<nat>)
    ensures |t| == n && forall i | 0 <= i < n :: t[i] == c
  {
    seq(n, _ => c)
  }

  /** `r'` is `r` after ranking `c` wrote `n` more ranks. */
  ghost predicate HasWritten(orders: seq<seq<Uuid>>, r: Race, r': Race, c: nat, n: nat)
    requires c < |orders| && Fits(orders, r) && r.written[c] + n <= |orders[c]|
  {
    var from, to := r.written[c], r.written[c] + n;
    && r'.written == r.written[c := to]
    && (forall k | from <= k < to :: orders[c][k] in r'.ranks && r'.ranks[orders[c][k]] == k + 1)
    && (forall m | m in r.ranks && m !in orders[c][from..to] :: m in r'.ranks && r'.ranks[m] == r.ranks[m])
  }

  lemma NothingWritten(orders: seq<seq<Uuid>>, r: Race, c: nat)
    requires c < |orders| && Fits(orders, r)
    ensures HasWritten(orders, r, RunFrom(orders, r, Turns(c, 0)), c, 0)
  {
  }

  lemma OneMoreWrite(scores: Scores, orders: seq<seq<Uuid>>, r: Race, r': Race, c: nat, n: nat)
    requires c < |orders| && IsOrder(scores, orders[c]) && Fits(orders, r) && Fits(orders, r')
    requires n > 0 && r.written[c] + n <= |orders[c]| && HasWritten(orders, r, r', c, n - 1)
    ensures HasWritten(orders, r, Step(orders, r', c), c, n)
  {
    var order, from, to := orders[c], r.written[c], r.written[c] + n;
    assert order[from..to] == order[from..to - 1] + [order[to - 1]];
  }

  lemma OneMoreTurn(orders: seq<seq<Uuid>>, r: Race, c: nat, n: nat)
    requires Fits(orders, r) && n > 0
    ensures RunFrom(orders, r, Turns(c, n)) == Step(orders, RunFrom(orders, r, Turns(c, n - 1)), c)
  {
    assert Turns(c, n)[..n - 1] == Turns(c, n - 1);
  }

  lemma {:induction false} TurnsWrite(scores: Scores, orders: seq<seq<Uuid>>, r: Race, c: nat, n: nat)
    requires Fits(orders, r) && c < |orders| && IsOrder(scores, orders[c])
    requires r.written[c] + n <= |orders[c]|
    ensures HasWritten(orders, r, RunFrom(orders, r, Turns(c, n)), c, n)
  {
    if n == 0 {
      NothingWritten(orders, r, c);
    } else {
      TurnsWrite(scores, orders, r, c, n - 1);
      OneMoreWrite(scores, orders, r, RunFrom(orders, r, Turns(c, n - 1)), c, n);
      OneMoreTurn(orders, r, c, n);
    }
  }

  lemma {:induction false} Highest(scores: Scores, nodes: set<Uuid>) returns (n: Uuid)
    requires nodes != {} && nodes <= scores.Keys
    ensures n in nodes && forall m | m in nodes :: scores[m] <= scores[n]
    decreases |nodes|
  {
    n :| n in nodes;
    if nodes != {n} {
      var m := Highest(scores, nodes - {n});
      if scores[m] > scores[n] { n := m; }
    }
  }

  lemma AppendListing(scores: Scores, a: seq<Uuid>, b: seq<Uuid>)
    requires IsListing(scores, a) && IsListing(scores, b)
    requires forall m, n | m in a && n in b :: m != n && m in scores && n in scores && scores[m] >= scores[n]
    ensures IsListing(scores, a + b)
  {
    var list := a + b;
    forall i, j | 0 <= i < j < |list| ensures list[i] != list[j] && scores[list[i]] >= scores[list[j]] {
      if i < |a| && |a| <= j { assert list[i] in a && list[j] in b; }
    }
  }

  /** Any set of nodes can be listed by descending score. */
  lemma {:induction false} SomeOrder(scores: Scores, nodes: set<Uuid>) returns (order: seq<Uuid>)
    requires nodes <= scores.Keys
    ensures IsListing(scores, order) && forall n :: n in order <==> n in nodes
    decreases |nodes|
  {
    if nodes == {} {
      order := [];
    } else {
      var n := Highest(scores, nodes);
      var rest := SomeOrder(scores, nodes - {n});
      order := [n] + rest;
      AppendListing(scores, [n], rest);
    }
  }

  /** Two tied nodes can be listed next to each other. */
  lemma OrderAround(scores: Scores, x: Uuid, y: Uuid, above: seq<Uuid>, below: seq<Uuid>)
    requires x in scores && y in scores && x != y && scores[x] == scores[y]
    requires IsListing(scores, above) && forall n :: n in above <==> n in scores && scores[n] > scores[x]
    requires IsListing(scores, below)
    requires forall n :: n in below <==> n in scores && scores[n] <= scores[x] && n != x && n != y
    ensures IsOrder(scores, above + [x, y] + below)
  {
    AppendListing(scores, above, [x, y]);
    AppendListing(scores, above + [x, y], below);
  }

  lemma TurnsGive(scores: Scores, orders: seq<seq<Uuid>>, r: Race, c: nat, n: nat, k: nat)
    requires Fits(orders, r) && c < |orders| && IsOrder(scores, orders[c])
    requires r.written[c] <= k < r.written[c] + n <= |orders[c]|
    ensures var r' := RunFrom(orders, r, Turns(c, n));
            && r'.written == r.written[c := r.written[c] + n]
            && orders[c][k] in r'.ranks && r'.ranks[orders[c][k]] == k + 1
  {
    TurnsWrite(scores, orders, r, c, n);
  }

  lemma TurnsKeep(scores: Scores, orders: seq<seq<Uuid>>, r: Race, c: nat, n: nat, node: Uuid)
    requires Fits(orders, r) && c < |orders| && IsOrder(scores, orders[c])
    requires r.written[c] + n == |orders[c]| && node in r.ranks && node !in orders[c][r.written[c]..]
    ensures var r' := RunFrom(orders, r, Turns(c, n));
            && r'.written == r.written[c := |orders[c]|]
            && node in r'.ranks && r'.ranks[node] == r.ranks[node]
  {
    TurnsWrite(scores, orders, r, c, n);
  }

  /** Two rankings of the same nodes that list a pair of neighbours the other way round. */
  ghost predicate SwapAt(scores: Scores, orders: seq<seq<Uuid>>, p: nat) {
    && |orders| == 2 && IsOrder(scores, orders[0]) && IsOrder(scores, orders[1])
    && |orders[0]| == |orders[1]| >= p + 2
    && orders[0][p] == orders[1][p + 1] && orders[0][p + 1] == orders[1][p]
  }

  lemma SwappedAreNotWrittenAgain(scores: Scores, orders: seq<seq<Uuid>>, p: nat)
    requires SwapAt(scores, orders, p)
    ensures orders[0][p] !in orders[0][p + 1..] && orders[0][p] !in orders[1][p + 2..]
    ensures orders[0][p + 1] !in orders[1][p + 2..]
  {
  }

  /** One ranking writes the first of the pair, then the other writes both... */
  lemma SwapBegins(scores: Scores, orders: seq<seq<Uuid>>, p: nat, ranks: Ranks)
    requires SwapAt(scores, orders, p)
    ensures var r := RunFrom(orders, RunFrom(orders, Start(orders, ranks), Turns(0, p + 1)), Turns(1, p + 2));
            && r.written == [p + 1, p + 2]
            && orders[0][p] in r.ranks && r.ranks[orders[0][p]] == p + 2
  {
    var r0 := Start(orders, ranks);
    TurnsGive(scores, orders, r0, 0, p + 1, p);
    TurnsGive(scores, orders, RunFrom(orders, r0, Turns(0, p + 1)), 1, p + 2, p + 1);
  }

  /** ... then the first writes its second, so that both have the same rank... */
  lemma SwapGoesOn(scores: Scores, orders: seq<seq<Uuid>>, p: nat, r: Race)
    requires SwapAt(scores, orders, p) && r.written == [p + 1, p + 2]
    requires orders[0][p] in r.ranks && r.ranks[orders[0][p]] == p + 2
    ensures var n, a, b := |orders[0]|, orders[0][p], orders[0][p + 1];
            var r' := RunFrom(orders, r, Turns(0, n - p - 1));
            && r'.written == [n, p + 2] && a in r'.ranks && b in r'.ranks && r'.ranks[a] == r'.ranks[b]
  {
    var n := |orders[0]|;
    SwappedAreNotWrittenAgain(scores, orders, p);
    TurnsKeep(scores, orders, r, 0, n - p - 1, orders[0][p]);
    TurnsGive(scores, orders, r, 0, n - p - 1, p + 1);
  }

  /** ... for good. */
  lemma SwapEnds(scores: Scores, orders: seq<seq<Uuid>>, p: nat, r: Race)
    requires SwapAt(scores, orders, p) && r.written == [|orders[0]|, p + 2]
    requires orders[0][p] in r.ranks && orders[0][p + 1] in r.ranks
    requires r.ranks[orders[0][p]] == r.ranks[orders[0][p + 1]]
    ensures var n, a, b := |orders[0]|, orders[0][p], orders[0][p + 1];
            var end := RunFrom(orders, r, Turns(1, n - p - 2));
            && end.written == [n, n] && a in end.ranks && b in end.ranks && end.ranks[a] == end.ranks[b]
  {
    var n := |orders[0]|;
    SwappedAreNotWrittenAgain(scores, orders, p);
    TurnsKeep(scores, orders, r, 1, n - p - 2, orders[0][p]);
    TurnsKeep(scores, orders, r, 1, n - p - 2, orders[0][p + 1]);
  }

  function SwapSchedule(p: nat, n: nat): seq<nat>
    requires p + 2 <= n
  {
    Turns(0, p + 1) + Turns(1, p + 2) + (Turns(0, n - p - 1) + Turns(1, n - p - 2))
  }

  lemma SwapRaces(scores: Scores, orders: seq<seq<Uuid>>, p: nat, ranks: Ranks)
    requires SwapAt(scores, orders, p)
    ensures var end := RunFrom(orders, Start(orders, ranks), SwapSchedule(p, |orders[0]|));
            && end.written == [|orders[0]|, |orders[0]|]
            && orders[0][p] in end.ranks && orders[0][p + 1] in end.ranks
            && end.ranks[orders[0][p]] == end.ranks[orders[0][p + 1]]
  {
    var n, r0 := |orders[0]|, Start(orders, ranks);
    var first, second := Turns(0, p + 1) + Turns(1, p + 2), Turns(0, n - p - 1) + Turns(1, n - p - 2);
    RunConcat(orders, r0, Turns(0, p + 1), Turns(1, p + 2));
    RunConcat(orders, RunFrom(orders, r0, first), Turns(0, n - p - 1), Turns(1, n - p - 2));
    RunConcat(orders, r0, first, second);
    SwapBegins(scores, orders, p, ranks);
    SwapGoesOn(scores, orders, p, RunFrom(orders, r0, first));
    SwapEnds(scores, orders, p, RunFrom(orders, RunFrom(orders, r0, first), Turns(0, n - p - 1)));
  }

  /** Some order lists two tied nodes next to each other, and so does the one that swaps them. */
  lemma TieSwaps(scores: Scores, x: Uuid, y: Uuid) returns (orders: seq<seq<Uuid>>, p: nat)
    requires x in scores && y in scores && x != y && scores[x] == scores[y]
    ensures SwapAt(scores, orders, p) && orders[0][p] == x && orders[1][p] == y
  {
    var above := SomeOrder(scores, set n | n in scores && scores[n] > scores[x]);
    var below := SomeOrder(scores, set n | n in scores && scores[n] <= scores[x] && n != x && n != y);
    OrderAround(scores, x, y, above, below);
    OrderAround(scores, y, x, above, below);
    orders, p := [above + [x, y] + below, above + [y, x] + below], |above|;
  }

  /** However rankings of the same scores interleave, the last to finish leaves the nodes ranked:
      that is so exactly when no two scores tie. */
  lemma RankingsRaceIff(scores: Scores, ranks: Ranks)
    ensures (forall orders, schedule | AreRankings(scores, orders) :: EndsRanked(scores, orders, ranks, schedule))
            <==> NoTies(scores)
  {
    if NoTies(scores) {
      forall orders, schedule | AreRankings(scores, orders) ensures EndsRanked(scores, orders, ranks, schedule) {
        NoTiesNoRace(scores, orders, ranks, schedule);
      }
    } else {
      var orders, schedule := TieRaces(scores, ranks);
      assert AreRankings(scores, orders) && !EndsRanked(scores, orders, ranks, schedule);
    }
  }

  /** With a tie, two rankings are enough to leave two nodes with one rank. */
  lemma TieRaces(scores: Scores, ranks: Ranks) returns (orders: seq<seq<Uuid>>, schedule: seq<nat>)
    requires !NoTies(scores)
    ensures |orders| == 2 && AreRankings(scores, orders)
    ensures IsDone(orders, RunFrom(orders, Start(orders, ranks), schedule))
    ensures !EndsRanked(scores, orders, ranks, schedule)
  {
    var x, y :| x in scores && y in scores && x != y && scores[x] == scores[y];
    var p;
    orders, p := TieSwaps(scores, x, y);
    SwapRaces(scores, orders, p, ranks);
    schedule := SwapSchedule(p, |orders[0]|);
  }
}

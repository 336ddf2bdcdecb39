/** The order in which one queue hands out its entries. */
module QueueOrder {
  import opened Common

  datatype Job = Job(id: Uuid, name: string, namespace: string, queue: string, priority: int)

  /** A queued entry keeps the priority its job had when it was queued. */
  datatype QueuedJob = QueuedJob(job: Job, queuedAt: int, priority: int, attempts: nat)

  /** `i` is the earliest entry of highest priority. */
  ghost predicate IsFirstMax(jobs: seq<QueuedJob>, i: int) {
    && 0 <= i < |jobs|
    && (forall j | 0 <= j < |jobs| :: jobs[j].priority <= jobs[i].priority)
    && (forall j | 0 <= j < i :: jobs[j].priority < jobs[i].priority)
  }

  ghost function FirstMax(jobs: seq<QueuedJob>): (i: nat)
    requires jobs != []
    ensures IsFirstMax(jobs, i)
  {
    var last := |jobs| - 1;
    if last == 0 then 0
    else
      var m := FirstMax(jobs[..last]);
      if jobs[last].priority > jobs[m].priority then last else m
  }

  /** The entry a queue gives up next: the head, or the first of highest priority. */
  ghost function Next(jobs: seq<QueuedJob>, isFair: bool): (i: nat)
    requires jobs != []
    ensures i < |jobs|
  {
    if isFair then FirstMax(jobs) else 0
  }

  // ---------- The reference: a stable sort by descending priority ----------

  ghost predicate Descending(jobs: seq<QueuedJob>) {
    forall i, j | 0 <= i < j < |jobs| :: jobs[i].priority >= jobs[j].priority
  }

  /** The entries of one priority, in their order in `jobs`. */
  ghost function OfPriority(jobs: seq<QueuedJob>, p: int): seq<QueuedJob> {
    if jobs == [] then []
    else (if jobs[0].priority == p then [jobs[0]] else []) + OfPriority(jobs[1..], p)
  }

  /** `sorted` is `jobs` sorted by descending priority, equal priorities in their old order. */
  ghost predicate IsStableSort(jobs: seq<QueuedJob>, sorted: seq<QueuedJob>) {
    && Descending(sorted)
    && forall p :: OfPriority(sorted, p) == OfPriority(jobs, p)
  }

  ghost function Insert(x: QueuedJob, sorted: seq<QueuedJob>): seq<QueuedJob> {
    if sorted == [] || sorted[0].priority <= x.priority then [x] + sorted
    else [sorted[0]] + Insert(x, sorted[1..])
  }

  ghost function StableSort(jobs: seq<QueuedJob>): seq<QueuedJob> {
    if jobs == [] then [] else Insert(jobs[0], StableSort(jobs[1..]))
  }

  lemma {:induction false} OfPriorityConcat(a: seq<QueuedJob>, b: seq<QueuedJob>, p: int)
    ensures OfPriority(a + b, p) == OfPriority(a, p) + OfPriority(b, p)
  {
    if a == [] {
      assert a + b == b;
    } else {
      assert (a + b)[0] == a[0] && (a + b)[1..] == a[1..] + b;
      OfPriorityConcat(a[1..], b, p);
    }
  }

  /** A priority has entries exactly when some element carries it. */
  lemma {:induction false} OfPriorityEmpty(jobs: seq<QueuedJob>, p: int)
    ensures OfPriority(jobs, p) == [] <==> forall i | 0 <= i < |jobs| :: jobs[i].priority != p
  {
    if jobs != [] {
      OfPriorityEmpty(jobs[1..], p);
      assert forall i | 1 <= i < |jobs| :: jobs[i] == jobs[1..][i - 1];
    }
  }

  lemma OfPriorityCons(x: QueuedJob, jobs: seq<QueuedJob>, p: int)
    ensures OfPriority([x] + jobs, p) == (if x.priority == p then [x] else []) + OfPriority(jobs, p)
  {
    assert ([x] + jobs)[1..] == jobs;
  }

  lemma {:induction false} InsertAdds(x: QueuedJob, sorted: seq<QueuedJob>)
    ensures multiset(Insert(x, sorted)) == multiset{x} + multiset(sorted)
  {
    if sorted != [] && sorted[0].priority > x.priority {
      assert sorted == [sorted[0]] + sorted[1..];
      InsertAdds(x, sorted[1..]);
    }
  }

  lemma {:induction false} InsertKeepsDescending(x: QueuedJob, sorted: seq<QueuedJob>)
    requires Descending(sorted)
    ensures Descending(Insert(x, sorted))
  {
    if sorted != [] && sorted[0].priority > x.priority {
      InsertKeepsDescending(x, sorted[1..]);
      InsertAdds(x, sorted[1..]);
      forall e | e in Insert(x, sorted[1..]) ensures e.priority <= sorted[0].priority {
        assert e in multiset(Insert(x, sorted[1..]));
      }
    }
  }

  /** Insertion puts `x` before every entry of its own priority. */
  lemma {:induction false} InsertGoesFirst(x: QueuedJob, sorted: seq<QueuedJob>, p: int)
    ensures OfPriority(Insert(x, sorted), p) == OfPriority([x] + sorted, p)
  {
    if sorted != [] && sorted[0].priority > x.priority {
      var y, rest := sorted[0], sorted[1..];
      InsertGoesFirst(x, rest, p);
      OfPriorityCons(y, Insert(x, rest), p);
      OfPriorityCons(x, rest, p);
      OfPriorityCons(x, sorted, p);
    }
  }

  lemma {:induction false} StableSortIsStable(jobs: seq<QueuedJob>)
    ensures IsStableSort(jobs, StableSort(jobs))
    ensures multiset(StableSort(jobs)) == multiset(jobs)
  {
    if jobs != [] {
      var tail := StableSort(jobs[1..]);
      StableSortIsStable(jobs[1..]);
      InsertKeepsDescending(jobs[0], tail);
      InsertAdds(jobs[0], tail);
      assert jobs == [jobs[0]] + jobs[1..];
      forall p ensures OfPriority(StableSort(jobs), p) == OfPriority(jobs, p) {
        InsertGoesFirst(jobs[0], tail, p);
        OfPriorityCons(jobs[0], tail, p);
      }
    }
  }

  lemma SameFirstPriority(a: seq<QueuedJob>, b: seq<QueuedJob>)
    requires a != [] && Descending(b)
    requires forall p :: OfPriority(a, p) == OfPriority(b, p)
    ensures b != [] && a[0].priority <= b[0].priority
  {
    OfPriorityEmpty(a, a[0].priority);
    OfPriorityEmpty(b, a[0].priority);
    assert OfPriority(a, a[0].priority) == OfPriority(b, a[0].priority);
  }

  /** There is only one stable sort. */
  lemma {:induction false} StableSortIsUnique(a: seq<QueuedJob>, b: seq<QueuedJob>)
    requires Descending(a) && Descending(b)
    requires forall p :: OfPriority(a, p) == OfPriority(b, p)
    ensures a == b
  {
    if a != [] { SameFirstPriority(a, b); }
    if b != [] { SameFirstPriority(b, a); }
    if a != [] {
      assert a[0] == OfPriority(a, a[0].priority)[0] == b[0];
      forall p ensures OfPriority(a[1..], p) == OfPriority(b[1..], p) {
        var head := if a[0].priority == p then [a[0]] else [];
        assert OfPriority(a, p) == head + OfPriority(a[1..], p);
        assert OfPriority(b, p) == head + OfPriority(b[1..], p);
        assert OfPriority(a, p)[|head|..] == OfPriority(b, p)[|head|..];
      }
      StableSortIsUnique(a[1..], b[1..]);
      assert a == [a[0]] + a[1..] && b == [b[0]] + b[1..];
    }
  }

  /** Moving the first maximum to the front changes no priority's order. */
  lemma FirstMaxMovesFirst(jobs: seq<QueuedJob>, p: int)
    requires jobs != []
    ensures var i := FirstMax(jobs);
            OfPriority([jobs[i]] + RemoveAt(jobs, i), p) == OfPriority(jobs, p)
  {
    var i := FirstMax(jobs);
    assert jobs == jobs[..i] + ([jobs[i]] + jobs[i + 1..]);
    OfPriorityConcat(jobs[..i], [jobs[i]] + jobs[i + 1..], p);
    OfPriorityConcat(jobs[..i], jobs[i + 1..], p);
    OfPriorityCons(jobs[i], jobs[i + 1..], p);
    OfPriorityCons(jobs[i], RemoveAt(jobs, i), p);
    OfPriorityEmpty(jobs[..i], p);
  }

  /** No entry left after the first maximum is taken outranks it. */
  lemma FirstMaxOutranksRest(jobs: seq<QueuedJob>, sorted: seq<QueuedJob>)
    requires jobs != [] && multiset(sorted) == multiset(RemoveAt(jobs, FirstMax(jobs)))
    ensures forall e | e in sorted :: e.priority <= jobs[FirstMax(jobs)].priority
  {
    RemoveAtTakesOne(jobs, FirstMax(jobs));
    forall e | e in sorted ensures e.priority <= jobs[FirstMax(jobs)].priority {
      assert e in multiset(sorted);
      assert e in multiset(jobs);
    }
  }

  /** Selecting the first maximum and sorting what is left is the stable sort. */
  lemma FirstMaxHeadsTheSort(jobs: seq<QueuedJob>)
    requires jobs != []
    ensures StableSort(jobs) == [jobs[FirstMax(jobs)]] + StableSort(RemoveAt(jobs, FirstMax(jobs)))
  {
    var i := FirstMax(jobs);
    var rest := RemoveAt(jobs, i);
    var tail := StableSort(rest);
    StableSortIsStable(jobs);
    StableSortIsStable(rest);
    FirstMaxOutranksRest(jobs, tail);
    forall p ensures OfPriority([jobs[i]] + tail, p) == OfPriority(StableSort(jobs), p) {
      OfPriorityCons(jobs[i], tail, p);
      OfPriorityCons(jobs[i], rest, p);
      FirstMaxMovesFirst(jobs, p);
    }
    StableSortIsUnique([jobs[i]] + tail, StableSort(jobs));
  }

  // ---------- Draining one queue ----------

  ghost function Remaining(jobs: seq<QueuedJob>, isFair: bool, k: nat): seq<QueuedJob>
    requires k <= |jobs|
  {
    if k == 0 then jobs else Remaining(RemoveAt(jobs, Next(jobs, isFair)), isFair, k - 1)
  }

  ghost function Drained(jobs: seq<QueuedJob>, isFair: bool, k: nat): seq<QueuedJob>
    requires k <= |jobs|
  {
    if k == 0 then []
    else
      var i := Next(jobs, isFair);
      [jobs[i]] + Drained(RemoveAt(jobs, i), isFair, k - 1)
  }

  /** The order in which a queue is meant to be served. */
  ghost function ServiceOrder(jobs: seq<QueuedJob>, isFair: bool): seq<QueuedJob> {
    if isFair then StableSort(jobs) else jobs
  }

  lemma NextHeadsServiceOrder(jobs: seq<QueuedJob>, isFair: bool)
    requires jobs != []
    ensures var i := Next(jobs, isFair);
            ServiceOrder(jobs, isFair) == [jobs[i]] + ServiceOrder(RemoveAt(jobs, i), isFair)
  {
    if isFair {
      FirstMaxHeadsTheSort(jobs);
    } else {
      assert jobs == [jobs[0]] + RemoveAt(jobs, 0);
    }
  }

  lemma ServiceOrderIsWhole(jobs: seq<QueuedJob>, isFair: bool)
    ensures |ServiceOrder(jobs, isFair)| == |jobs|
    ensures multiset(ServiceOrder(jobs, isFair)) == multiset(jobs)
  {
    StableSortIsStable(jobs);
    assert |multiset(StableSort(jobs))| == |StableSort(jobs)|;
    assert |multiset(jobs)| == |jobs|;
  }

  lemma SliceAfterHead(x: QueuedJob, order: seq<QueuedJob>, k: nat)
    requires 0 < k <= |order| + 1
    ensures ([x] + order)[..k] == [x] + order[..k - 1]
    ensures ([x] + order)[k..] == order[k - 1..]
  {
  }

  /** k selections return the first k of the service order and leave the rest of it. */
  lemma {:induction false} DrainFollowsServiceOrder(jobs: seq<QueuedJob>, isFair: bool, k: nat)
    requires k <= |jobs|
    ensures |ServiceOrder(jobs, isFair)| == |jobs|
    ensures Drained(jobs, isFair, k) == ServiceOrder(jobs, isFair)[..k]
    ensures ServiceOrder(Remaining(jobs, isFair, k), isFair) == ServiceOrder(jobs, isFair)[k..]
  {
    ServiceOrderIsWhole(jobs, isFair);
    if k != 0 {
      var i := Next(jobs, isFair);
      var rest := RemoveAt(jobs, i);
      var order := ServiceOrder(rest, isFair);
      NextHeadsServiceOrder(jobs, isFair);
      DrainFollowsServiceOrder(rest, isFair, k - 1);
      SliceAfterHead(jobs[i], order, k);
    }
  }

  /** Positions in a list as they were before the entry at `r` was removed. */
  function ShiftPast(at: seq<nat>, r: nat): (shifted: seq<nat>)
    ensures |shifted| == |at|
    ensures forall i | 0 <= i < |at| :: shifted[i] == if at[i] < r then at[i] else at[i] + 1
  {
    seq(|at|, i requires 0 <= i < |at| => if at[i] < r then at[i] else at[i] + 1)
  }

  /** The entries left behind are still in arrival order: they sit at increasing old positions. */
  lemma {:induction false} RemainingKeepsArrivalOrder(jobs: seq<QueuedJob>, isFair: bool, k: nat)
      returns (at: seq<nat>)
    requires k <= |jobs|
    ensures |at| == |Remaining(jobs, isFair, k)| == |jobs| - k
    ensures forall i | 0 <= i < |at| :: at[i] < |jobs| && Remaining(jobs, isFair, k)[i] == jobs[at[i]]
    ensures forall i, j | 0 <= i < j < |at| :: at[i] < at[j]
  {
    if k == 0 {
      at := seq(|jobs|, i => i);
    } else {
      var r := Next(jobs, isFair);
      var rest := RemoveAt(jobs, r);
      var inner := RemainingKeepsArrivalOrder(rest, isFair, k - 1);
      at := ShiftPast(inner, r);
      assert forall i | 0 <= i < |at| :: rest[inner[i]] == jobs[at[i]];
      assert Remaining(jobs, isFair, k) == Remaining(rest, isFair, k - 1);
    }
  }
}

/** Named priority queues: the abstract state, its steps, what every run of steps keeps,
    and the manager that implements the steps. */
module QueueLedger {
  import opened Common
  import opened Folds
  import opened QueueOrder

  datatype QueueState = QueueState(priority: int, maxLen: int, isFair: bool, jobs: seq<QueuedJob>)

  type Queues = map<string, QueueState>

  /** The calls that change the queues.  A dequeue is labelled with the queue that served it;
      which one it is among equal priorities is left open. */
  datatype Event =
    | CreateQueue(name: string, priority: int, maxLen: int, isFair: bool)
    | DeleteQueue(name: string)
    | Enqueue(job: Job, now: int)
    | Requeue(job: Job, now: int)
    | Dequeue(source: string)

  function Entry(job: Job, now: int): QueuedJob {
    QueuedJob(job, now, job.priority, 0)
  }

  ghost predicate IsFull(q: QueueState) {
    q.maxLen > 0 && |q.jobs| >= q.maxLen
  }

  ghost predicate Accepts(s: Queues, ev: Event) {
    || (ev.Enqueue? && ev.job.queue in s && !IsFull(s[ev.job.queue]))
    || (ev.Requeue? && ev.job.queue in s)
  }

  /** `n` may serve the next dequeue: it has entries and no queue with entries outranks it. */
  ghost predicate Serves(s: Queues, n: string) {
    && n in s && s[n].jobs != []
    && forall m | m in s && s[m].jobs != [] :: s[m].priority <= s[n].priority
  }

  ghost function Push(q: QueueState, e: QueuedJob): QueueState {
    q.(jobs := q.jobs + [e])
  }

  ghost function Served(q: QueueState): QueuedJob
    requires q.jobs != []
  {
    q.jobs[Next(q.jobs, q.isFair)]
  }

  ghost function Pop(q: QueueState): QueueState
    requires q.jobs != []
  {
    q.(jobs := RemoveAt(q.jobs, Next(q.jobs, q.isFair)))
  }

  /** A call that fails leaves the queues as they were. */
  ghost function Apply(s: Queues, ev: Event): Queues {
    match ev
    case CreateQueue(n, priority, maxLen, isFair) =>
      if n in s then s else s[n := QueueState(priority, maxLen, isFair, [])]
    case DeleteQueue(n) => s - {n}
    case Enqueue(job, now) => if Accepts(s, ev) then s[job.queue := Push(s[job.queue], Entry(job, now))] else s
    case Requeue(job, now) => if Accepts(s, ev) then s[job.queue := Push(s[job.queue], Entry(job, now))] else s
    case Dequeue(n) => if Serves(s, n) then s[n := Pop(s[n])] else s
  }

  // ---------- Every entry in every queue ----------

  ghost function EntriesOf(q: QueueState): multiset<QueuedJob> {
    multiset(q.jobs)
  }

  ghost function Join(a: multiset<QueuedJob>, b: multiset<QueuedJob>): multiset<QueuedJob> {
    a + b
  }

  ghost function Pending(s: Queues): multiset<QueuedJob> {
    Fold(s, EntriesOf, Join, multiset{})
  }

  lemma JoinIsMonoid()
    ensures CommutativeMonoid(Join, multiset{})
  {
    forall a: multiset<QueuedJob> ensures HasUnit(Join, multiset{}, a) { assert Join(a, multiset{}) == a; }
    forall a: multiset<QueuedJob>, b ensures Commutes(Join, a, b) { assert Join(a, b) == Join(b, a); }
    forall a: multiset<QueuedJob>, b, c ensures Associates(Join, a, b, c) {
      assert Join(Join(a, b), c) == Join(a, Join(b, c));
    }
  }

  lemma PendingSplits(s: Queues, n: string)
    requires n in s
    ensures Pending(s) == EntriesOf(s[n]) + Pending(s - {n})
  {
    JoinIsMonoid();
    FoldRemove(s, n, EntriesOf, Join, multiset{});
  }

  lemma PendingAfterWrite(s: Queues, n: string, q: QueueState)
    ensures Pending(s[n := q]) == EntriesOf(q) + Pending(s - {n})
  {
    JoinIsMonoid();
    FoldWrite(s, n, q, EntriesOf, Join, multiset{});
  }

  lemma PopTakesServed(q: QueueState)
    requires q.jobs != []
    ensures EntriesOf(q) == multiset{Served(q)} + EntriesOf(Pop(q))
  {
    RemoveAtTakesOne(q.jobs, Next(q.jobs, q.isFair));
  }

  lemma PushAddsEntry(s: Queues, n: string, e: QueuedJob)
    requires n in s
    ensures Pending(s[n := Push(s[n], e)]) == Pending(s) + multiset{e}
  {
    PendingSplits(s, n);
    PendingAfterWrite(s, n, Push(s[n], e));
  }

  lemma PopRemovesServed(s: Queues, n: string)
    requires n in s && s[n].jobs != []
    ensures Pending(s) == multiset{Served(s[n])} + Pending(s[n := Pop(s[n])])
  {
    PendingSplits(s, n);
    PendingAfterWrite(s, n, Pop(s[n]));
    PopTakesServed(s[n]);
  }

  // ---------- The ledger of a run ----------

  /** What happened to one queue since it was created. */
  datatype History = History(accepted: seq<QueuedJob>, returned: seq<QueuedJob>, requeues: nat)

  datatype World = World(
    queues: Queues,
    history: map<string, History>,
    accepted: multiset<QueuedJob>,
    returned: multiset<QueuedJob>,
    discarded: multiset<QueuedJob>)

  const EMPTY: World := World(map[], map[], multiset{}, multiset{}, multiset{})

  /** Applies the event and writes down what it accepted, returned or discarded. */
  ghost function Advance(w: World, ev: Event): World
    requires w.history.Keys == w.queues.Keys
    ensures Advance(w, ev).history.Keys == Advance(w, ev).queues.Keys
    ensures Advance(w, ev).queues == Apply(w.queues, ev)
  {
    var s := w.queues;
    var w' := w.(queues := Apply(s, ev));
    match ev
    case CreateQueue(n, _, _, _) =>
      if n in s then w' else w'.(history := w.history[n := History([], [], 0)])
    case DeleteQueue(n) =>
      if n !in s then w'
      else w'.(history := w.history - {n}, discarded := w.discarded + multiset(s[n].jobs))
    case Enqueue(job, now) => if Accepts(s, ev) then Accepted(w', job, now, 0) else w'
    case Requeue(job, now) => if Accepts(s, ev) then Accepted(w', job, now, 1) else w'
    case Dequeue(n) =>
      if !Serves(s, n) then w'
      else
        var e, h := Served(s[n]), w.history[n];
        w'.(history := w.history[n := h.(returned := h.returned + [e])], returned := w.returned + multiset{e})
  }

  ghost function Accepted(w: World, job: Job, now: int, requeues: nat): World
    requires job.queue in w.history
  {
    var e, h := Entry(job, now), w.history[job.queue];
    w.(history := w.history[job.queue := History(h.accepted + [e], h.returned, h.requeues + requeues)],
       accepted := w.accepted + multiset{e})
  }

  ghost function Run(evs: seq<Event>): (w: World)
    ensures w.history.Keys == w.queues.Keys
  {
    if evs == [] then EMPTY else Advance(Run(evs[..|evs| - 1]), evs[|evs| - 1])
  }

  lemma RunSnoc(evs: seq<Event>, ev: Event)
    ensures Run(evs + [ev]).queues == Apply(Run(evs).queues, ev)
  {
    assert (evs + [ev])[..|evs|] == evs;
    assert Run(evs + [ev]) == Advance(Run(evs), ev);
  }

  ghost predicate QueueBalances(q: QueueState, h: History) {
    && multiset(h.accepted) == multiset(h.returned) + multiset(q.jobs)
    && (!q.isFair ==> h.accepted == h.returned + q.jobs)
    && (q.maxLen > 0 ==> |q.jobs| <= q.maxLen + h.requeues)
  }

  ghost predicate Balances(w: World) {
    && w.history.Keys == w.queues.Keys
    && TotalsBalance(w)
    && forall n | n in w.queues :: QueueBalances(w.queues[n], w.history[n])
  }

  ghost predicate TotalsBalance(w: World) {
    w.accepted == w.returned + Pending(w.queues) + w.discarded
  }

  lemma AcceptKeepsTotals(w: World, ev: Event)
    requires Balances(w) && Accepts(w.queues, ev)
    ensures TotalsBalance(Advance(w, ev))
  {
    PushAddsEntry(w.queues, ev.job.queue, Entry(ev.job, ev.now));
  }

  lemma ServeKeepsTotals(w: World, n: string)
    requires Balances(w) && Serves(w.queues, n)
    ensures TotalsBalance(Advance(w, Dequeue(n)))
  {
    PopRemovesServed(w.queues, n);
  }

  lemma CreateOrDeleteKeepsTotals(w: World, ev: Event)
    requires Balances(w) && (ev.CreateQueue? || ev.DeleteQueue?)
    ensures TotalsBalance(Advance(w, ev))
  {
    var s := w.queues;
    if ev.name in s {
      PendingSplits(s, ev.name);
    } else {
      assert s - {ev.name} == s;
      if ev.CreateQueue? { PendingAfterWrite(s, ev.name, QueueState(ev.priority, ev.maxLen, ev.isFair, [])); }
    }
  }

  lemma PushKeepsBalance(q: QueueState, h: History, e: QueuedJob, requeues: nat)
    requires QueueBalances(q, h)
    requires IsFull(q) ==> requeues > 0
    ensures QueueBalances(Push(q, e), History(h.accepted + [e], h.returned, h.requeues + requeues))
  {
    assert h.returned + Push(q, e).jobs == h.returned + q.jobs + [e];
  }

  lemma PopKeepsBalance(q: QueueState, h: History, e: QueuedJob, rest: seq<QueuedJob>)
    requires QueueBalances(q, h)
    requires EntriesOf(q) == multiset{e} + multiset(rest)
    requires !q.isFair ==> q.jobs == [e] + rest
    ensures QueueBalances(q.(jobs := rest), h.(returned := h.returned + [e]))
  {
    assert |multiset(q.jobs)| == 1 + |multiset(rest)|;
    if !q.isFair { assert h.returned + [e] + rest == h.returned + ([e] + rest); }
  }

  /** An event concerns a queue when that queue takes or gives up an entry. */
  ghost predicate Concerns(s: Queues, ev: Event, n: string) {
    || (Accepts(s, ev) && ev.job.queue == n)
    || (ev == Dequeue(n) && Serves(s, n))
  }

  lemma UnconcernedStays(w: World, ev: Event, n: string)
    requires w.history.Keys == w.queues.Keys && !Concerns(w.queues, ev, n)
    requires n in Advance(w, ev).queues
    ensures var w' := Advance(w, ev);
            if n in w.queues then w'.queues[n] == w.queues[n] && w'.history[n] == w.history[n]
            else w'.queues[n].jobs == [] && w'.history[n] == History([], [], 0)
  {
  }

  lemma AccepterKeepsBalance(w: World, ev: Event, n: string)
    requires w.history.Keys == w.queues.Keys && Accepts(w.queues, ev) && n == ev.job.queue
    requires QueueBalances(w.queues[n], w.history[n])
    ensures QueueBalances(Advance(w, ev).queues[n], Advance(w, ev).history[n])
  {
    PushKeepsBalance(w.queues[n], w.history[n], Entry(ev.job, ev.now), if ev.Requeue? then 1 else 0);
  }

  lemma ServerKeepsBalance(w: World, n: string)
    requires w.history.Keys == w.queues.Keys && Serves(w.queues, n)
    requires QueueBalances(w.queues[n], w.history[n])
    ensures QueueBalances(Advance(w, Dequeue(n)).queues[n], Advance(w, Dequeue(n)).history[n])
  {
    var q := w.queues[n];
    PopTakesServed(q);
    if !q.isFair { assert q.jobs == [Served(q)] + Pop(q).jobs; }
    PopKeepsBalance(q, w.history[n], Served(q), Pop(q).jobs);
  }

  lemma ConcernedKeepsBalance(w: World, ev: Event, n: string)
    requires w.history.Keys == w.queues.Keys && Concerns(w.queues, ev, n)
    requires QueueBalances(w.queues[n], w.history[n])
    ensures QueueBalances(Advance(w, ev).queues[n], Advance(w, ev).history[n])
  {
    if Accepts(w.queues, ev) {
      AccepterKeepsBalance(w, ev, n);
    } else {
      ServerKeepsBalance(w, n);
    }
  }

  lemma AdvanceKeepsTotals(w: World, ev: Event)
    requires Balances(w)
    ensures TotalsBalance(Advance(w, ev))
  {
    if Accepts(w.queues, ev) {
      AcceptKeepsTotals(w, ev);
    } else if ev.Dequeue? && Serves(w.queues, ev.source) {
      ServeKeepsTotals(w, ev.source);
    } else if ev.CreateQueue? || ev.DeleteQueue? {
      CreateOrDeleteKeepsTotals(w, ev);
    }
  }

  lemma QueueKeepsBalance(w: World, ev: Event, n: string)
    requires w.history.Keys == w.queues.Keys && n in Advance(w, ev).queues
    requires n in w.queues ==> QueueBalances(w.queues[n], w.history[n])
    ensures QueueBalances(Advance(w, ev).queues[n], Advance(w, ev).history[n])
  {
    if Concerns(w.queues, ev, n) {
      ConcernedKeepsBalance(w, ev, n);
    } else {
      UnconcernedStays(w, ev, n);
    }
  }

  lemma AdvanceKeepsBalance(w: World, ev: Event)
    requires Balances(w)
    ensures Balances(Advance(w, ev))
  {
    AdvanceKeepsTotals(w, ev);
    var w' := Advance(w, ev);
    forall n | n in w'.queues ensures QueueBalances(w'.queues[n], w'.history[n]) {
      QueueKeepsBalance(w, ev, n);
    }
  }

  /** Over any run of calls every accepted entry is returned, still pending or was discarded
      with its queue; a FIFO queue has returned exactly a prefix of what it accepted; and a
      bounded queue outgrows its bound by no more than its requeues. */
  lemma {:induction false} LedgerBalances(evs: seq<Event>)
    ensures Balances(Run(evs))
  {
    if evs != [] {
      LedgerBalances(evs[..|evs| - 1]);
      AdvanceKeepsBalance(Run(evs[..|evs| - 1]), evs[|evs| - 1]);
    }
  }

  // ---------- The bound of a queue ----------

  ghost predicate IsWithinBound(q: QueueState) {
    q.maxLen > 0 ==> |q.jobs| <= q.maxLen
  }

  ghost predicate WithinBounds(s: Queues) {
    forall n | n in s :: IsWithinBound(s[n])
  }

  /** The event requeues into a queue that is full. */
  ghost predicate Overfills(s: Queues, ev: Event) {
    ev.Requeue? && ev.job.queue in s && IsFull(s[ev.job.queue])
  }

  /** A step breaks a bound exactly when it requeues into a full queue. */
  lemma StepKeepsBoundsIff(s: Queues, ev: Event)
    requires WithinBounds(s)
    ensures WithinBounds(Apply(s, ev)) <==> !Overfills(s, ev)
  {
    if Accepts(s, ev) {
      assert Apply(s, ev)[ev.job.queue] == Push(s[ev.job.queue], Entry(ev.job, ev.now));
    }
  }

  /** After every step of the run all queues are within their bounds. */
  ghost predicate AlwaysWithinBounds(evs: seq<Event>) {
    WithinBounds(Run(evs).queues) && (evs == [] || AlwaysWithinBounds(evs[..|evs| - 1]))
  }

  /** No step of the run requeues into a full queue. */
  ghost predicate NeverOverfills(evs: seq<Event>) {
    evs == [] || (NeverOverfills(evs[..|evs| - 1]) && !Overfills(Run(evs[..|evs| - 1]).queues, evs[|evs| - 1]))
  }

  /** Through a whole run all bounds are kept exactly when nothing is requeued into a full
      queue. */
  lemma {:induction false} BoundsAreKeptIff(evs: seq<Event>)
    ensures AlwaysWithinBounds(evs) <==> NeverOverfills(evs)
  {
    if evs != [] {
      var front := evs[..|evs| - 1];
      BoundsAreKeptIff(front);
      if AlwaysWithinBounds(front) { StepKeepsBoundsIff(Run(front).queues, evs[|evs| - 1]); }
    }
  }

  /** Such a run takes three calls. */
  lemma RequeueIgnoresTheBound(job: Job, now: int)
    ensures var evs := [CreateQueue(job.queue, 10, 1, false), Enqueue(job, now), Requeue(job, now)];
            var w := Run(evs);
            job.queue in w.queues && w.queues[job.queue].maxLen == 1 && |w.queues[job.queue].jobs| == 2
  {
    var evs := [CreateQueue(job.queue, 10, 1, false), Enqueue(job, now), Requeue(job, now)];
    assert evs[..2][..1] == [evs[0]] && evs[..2][1] == evs[1] && [evs[0]][..0] == [];
    assert Run([evs[0]]).queues[job.queue].jobs == [];
    assert Run(evs[..2]).queues[job.queue].jobs == [Entry(job, now)];
  }

  // ---------- Draining the whole manager ----------

  /** `from` names the queues that serve a series of dequeues with no other call between. */
  ghost predicate IsDrain(s: Queues, from: seq<string>) {
    from == [] || (Serves(s, from[0]) && IsDrain(Apply(s, Dequeue(from[0])), from[1..]))
  }

  ghost function DrainEnd(s: Queues, from: seq<string>): Queues
    requires IsDrain(s, from)
  {
    if from == [] then s else DrainEnd(Apply(s, Dequeue(from[0])), from[1..])
  }

  ghost function DrainOutput(s: Queues, from: seq<string>): (r: seq<QueuedJob>)
    requires IsDrain(s, from)
    ensures |r| == |from|
  {
    if from == [] then []
    else [Served(s[from[0]])] + DrainOutput(Apply(s, Dequeue(from[0])), from[1..])
  }

  /** The part of the output that came out of queue `n`. */
  ghost function OutputOf(s: Queues, from: seq<string>, n: string): seq<QueuedJob>
    requires IsDrain(s, from)
  {
    if from == [] then []
    else
      (if from[0] == n then [Served(s[n])] else []) + OutputOf(Apply(s, Dequeue(from[0])), from[1..], n)
  }

  ghost predicate IsEmpty(s: Queues) {
    forall n | n in s :: s[n].jobs == []
  }

  /** A dequeue fails exactly when nothing is pending. */
  lemma {:induction false} SomeQueueServes(s: Queues)
    ensures IsEmpty(s) <==> !exists n :: Serves(s, n)
    decreases |s|
  {
    if n :| n in s && s[n].jobs != [] {
      SomeQueueServes(s - {n});
      if IsEmpty(s - {n}) {
        assert forall m | m in s && m != n :: m in s - {n} && s[m] == (s - {n})[m];
        assert Serves(s, n);
      } else {
        var m :| Serves(s - {n}, m);
        assert forall k | k in s && k != n :: k in s - {n} && s[k] == (s - {n})[k];
        assert Serves(s, if s[m].priority < s[n].priority then n else m);
      }
    }
  }

  lemma {:induction false} NothingPendingWhenEmpty(s: Queues)
    ensures IsEmpty(s) <==> Pending(s) == multiset{}
    decreases |s|
  {
    if n :| n in s {
      PendingSplits(s, n);
      NothingPendingWhenEmpty(s - {n});
      assert forall m | m in s && m != n :: m in s - {n} && s[m] == (s - {n})[m];
      assert EntriesOf(s[n]) == multiset{} <==> |EntriesOf(s[n])| == 0;
      assert |Pending(s)| == |s[n].jobs| + |Pending(s - {n})|;
    }
  }

  /** Draining moves entries from pending to the output, one a call. */
  lemma {:induction false} DrainConserves(s: Queues, from: seq<string>)
    requires IsDrain(s, from)
    ensures Pending(s) == multiset(DrainOutput(s, from)) + Pending(DrainEnd(s, from))
  {
    if from != [] {
      var n := from[0];
      var s' := Apply(s, Dequeue(n));
      PopRemovesServed(s, n);
      DrainConserves(s', from[1..]);
      assert DrainOutput(s, from) == [Served(s[n])] + DrainOutput(s', from[1..]);
    }
  }

  /** Only queues that had entries at the start ever serve. */
  lemma {:induction false} SourcesHadEntries(s: Queues, from: seq<string>)
    requires IsDrain(s, from)
    ensures forall i | 0 <= i < |from| :: from[i] in s && s[from[i]].jobs != []
  {
    if from != [] {
      SourcesHadEntries(Apply(s, Dequeue(from[0])), from[1..]);
      assert forall i | 1 <= i < |from| :: from[i] == from[1..][i - 1];
    }
  }

  /** The priorities of the serving queues never increase. */
  lemma {:induction false} SourcesDescend(s: Queues, from: seq<string>)
    requires IsDrain(s, from)
    ensures forall i | 0 <= i < |from| :: from[i] in s
    ensures forall i, j | 0 <= i < j < |from| :: s[from[i]].priority >= s[from[j]].priority
  {
    SourcesHadEntries(s, from);
    if from != [] {
      var s' := Apply(s, Dequeue(from[0]));
      SourcesDescend(s', from[1..]);
      assert forall i | 1 <= i < |from| :: from[i] == from[1..][i - 1];
      assert forall n | n in s :: s'[n].priority == s[n].priority;
    }
  }

  /** Each queue is served in its own service order. */
  lemma {:induction false} EachQueueInOrder(s: Queues, from: seq<string>, n: string)
    requires IsDrain(s, from) && n in s
    ensures n in DrainEnd(s, from)
    ensures ServiceOrder(s[n].jobs, s[n].isFair)
            == OutputOf(s, from, n) + ServiceOrder(DrainEnd(s, from)[n].jobs, s[n].isFair)
  {
    if from != [] {
      var s' := Apply(s, Dequeue(from[0]));
      EachQueueInOrder(s', from[1..], n);
      if from[0] == n {
        NextHeadsServiceOrder(s[n].jobs, s[n].isFair);
      }
    }
  }

  /** Dequeuing can go on for no longer than entries are pending, and once it fails every
      pending entry was returned exactly once, each queue in its own order, queues in
      descending priority. */
  lemma DrainIsComplete(s: Queues, from: seq<string>)
    requires IsDrain(s, from)
    ensures |from| <= |Pending(s)|
    ensures |from| == |Pending(s)| <==> !exists n :: Serves(DrainEnd(s, from), n)
    ensures |from| == |Pending(s)| ==>
              && multiset(DrainOutput(s, from)) == Pending(s)
              && forall n | n in s :: OutputOf(s, from, n) == ServiceOrder(s[n].jobs, s[n].isFair)
    ensures forall i, j | 0 <= i < j < |from| ::
              from[i] in s && from[j] in s && s[from[i]].priority >= s[from[j]].priority
  {
    var end := DrainEnd(s, from);
    DrainConserves(s, from);
    SomeQueueServes(end);
    NothingPendingWhenEmpty(end);
    SourcesDescend(s, from);
    assert |Pending(s)| == |from| + |Pending(end)|;
    assert |Pending(end)| == 0 <==> Pending(end) == multiset{};
    if IsEmpty(end) {
      forall n | n in s ensures OutputOf(s, from, n) == ServiceOrder(s[n].jobs, s[n].isFair) {
        EachQueueInOrder(s, from, n);
      }
    }
  }
}

/** The manager itself. */
module QueueManagers {
  import opened Common
  import opened Listings
  import opened QueueOrder
  import opened QueueLedger

  class Queue {
    const name: string
    const priority: int
    const maxLen: int
    const isFair: bool
    var jobs: seq<QueuedJob>

    constructor (name: string, priority: int, maxLen: int, isFair: bool)
      ensures this.name == name && State() == QueueState(priority, maxLen, isFair, [])
    {
      this.name, this.priority, this.maxLen, this.isFair := name, priority, maxLen, isFair;
      jobs := [];
    }

    ghost function State(): QueueState
      reads this
    {
      QueueState(priority, maxLen, isFair, jobs)
    }
  }

  datatype QueueError = AlreadyExists | NotFound | Full | NoQueues | NoJobs

  class QueueManager {
    var queues: map<string, Queue>
    ghost var history: seq<Event>  // every call so far that changed the queues

    /** Each queue is filed under its own name, so no queue is filed twice. */
    ghost predicate Filed()
      reads `queues, queues.Values
    {
      forall n | n in queues :: queues[n].name == n
    }

    /** The queues are what the calls so far have made of them, so all that holds of every run
        holds of them. */
    ghost predicate Valid()
      reads this, queues.Values
    {
      Filed() && Contents() == Run(history).queues
    }

    ghost function Contents(): Queues
      reads `queues, queues.Values
    {
      map n | n in queues :: queues[n].State()
    }

    constructor ()
      ensures Valid() && Contents() == map[]
    {
      queues, history := map[], [];
    }

    /** Adds a call to the history once its effect is in place. */
    ghost method Record(ev: Event)
      requires Filed() && Contents() == Apply(Run(history).queues, ev)
      modifies this`history
      ensures Valid() && Contents() == old(Contents()) && history == old(history) + [ev]
    {
      assert Contents() == Run(history + [ev]).queues by { RunSnoc(history, ev); }
      history := history + [ev];
    }

    method CreateQueue(name: string, priority: int, maxLen: int, isFair: bool) returns (r: Result<(), QueueError>)
      requires Valid()
      modifies this
      ensures Valid()
      ensures r == if name in old(Contents()) then Failure(AlreadyExists) else Success(())
      ensures Contents() == Apply(old(Contents()), Event.CreateQueue(name, priority, maxLen, isFair))
      ensures history == old(history) + if r.Success? then [Event.CreateQueue(name, priority, maxLen, isFair)] else []
    {
      if name in queues {
        return Failure(AlreadyExists);
      }
      var q := new Queue(name, priority, maxLen, isFair);
      queues := queues[name := q];
      assert Contents() == old(Contents())[name := QueueState(priority, maxLen, isFair, [])];
      Record(Event.CreateQueue(name, priority, maxLen, isFair));
      r := Success(());
    }

    method DeleteQueue(name: string) returns (r: Result<(), QueueError>)
      requires Valid()
      modifies this
      ensures Valid()
      ensures r == if name in old(Contents()) then Success(()) else Failure(NotFound)
      ensures Contents() == Apply(old(Contents()), Event.DeleteQueue(name))
      ensures history == old(history) + if r.Success? then [Event.DeleteQueue(name)] else []
    {
      if name !in queues {
        return Failure(NotFound);
      }
      queues := queues - {name};
      assert Contents() == old(Contents()) - {name};
      Record(Event.DeleteQueue(name));
      r := Success(());
    }

    method Enqueue(job: Job, now: int) returns (r: Result<(), QueueError>)
      requires Valid()
      modifies this`history, queues.Values
      ensures Valid() && queues == old(queues)
      ensures r.Success? <==> Accepts(old(Contents()), Event.Enqueue(job, now))
      ensures r.Failure? ==> r.error == if job.queue in old(Contents()) then Full else NotFound
      ensures Contents() == Apply(old(Contents()), Event.Enqueue(job, now))
      ensures history == old(history) + if r.Success? then [Event.Enqueue(job, now)] else []
    {
      if job.queue !in queues {
        return Failure(NotFound);
      }
      var queue := queues[job.queue];
      if queue.maxLen > 0 && |queue.jobs| >= queue.maxLen {
        return Failure(Full);
      }
      queue.jobs := queue.jobs + [QueuedJob(job, now, job.priority, 0)];
      assert Contents() == old(Contents())[job.queue := old(Push(queue.State(), Entry(job, now)))];
      Record(Event.Enqueue(job, now));
      r := Success(());
    }

    method Requeue(job: Job, now: int) returns (r: Result<(), QueueError>)
      requires Valid()
      modifies this`history, queues.Values
      ensures Valid() && queues == old(queues)
      ensures r == if job.queue in old(Contents()) then Success(()) else Failure(NotFound)
      ensures Contents() == Apply(old(Contents()), Event.Requeue(job, now))
      ensures history == old(history) + if r.Success? then [Event.Requeue(job, now)] else []
    {
      if job.queue !in queues {
        return Failure(NotFound);
      }
      var queue := queues[job.queue];
      queue.jobs := queue.jobs + [QueuedJob(job, now, job.priority, 0)];
      assert Contents() == old(Contents())[job.queue := old(Push(queue.State(), Entry(job, now)))];
      Record(Event.Requeue(job, now));
      r := Success(());
    }

    /** Takes the next entry out of a queue, in place. */
    method SelectNextJob(queue: Queue) returns (r: Option<QueuedJob>)
      modifies queue`jobs
      ensures old(queue.jobs) == [] ==> r == None && queue.jobs == []
      ensures old(queue.jobs) != [] ==>
                && r == Some(old(Served(queue.State())))
                && queue.State() == old(Pop(queue.State()))
    {
      if !queue.isFair || |queue.jobs| == 0 {
        if |queue.jobs| == 0 {
          return None;
        }
        r := Some(queue.jobs[0]);
        queue.jobs := queue.jobs[1..];
        return;
      }
      var selected: Option<QueuedJob> := None;
      var selectedIndex := 0;
      for i := 0 to |queue.jobs|
        invariant i == 0 <==> selected == None
        invariant i > 0 ==> selectedIndex < i && selected == Some(queue.jobs[selectedIndex])
        invariant i > 0 ==> IsFirstMax(queue.jobs[..i], selectedIndex)
      {
        var qj := queue.jobs[i];
        if selected == None || qj.priority > selected.value.priority {
          selected := Some(qj);
          selectedIndex := i;
        }
      }
      assert queue.jobs[..|queue.jobs|] == queue.jobs;
      queue.jobs := queue.jobs[..selectedIndex] + queue.jobs[selectedIndex + 1..];
      r := selected;
    }

    /** Every queue once, in whatever order the map is read. */
    method ListQueues() returns (list: seq<Queue>)
      requires Filed()
      ensures multiset(list) == multiset(queues.Values)
    {
      list := ListValues(queues);
    }

    /** Every queue once, by descending priority. */
    method GetSortedQueues() returns (sorted: seq<Queue>)
      requires Filed()
      ensures multiset(sorted) == multiset(queues.Values)
      ensures forall i, j | 0 <= i < j < |sorted| :: sorted[i].priority >= sorted[j].priority
    {
      sorted := ListQueues();
      sorted := SortDescending(sorted, (q: Queue) => q.priority as real);
    }

    /** The search for the first queue that has entries. */
    method FirstWithEntries(sorted: seq<Queue>) returns (i: nat)
      ensures i <= |sorted| && forall k | 0 <= k < i :: sorted[k].jobs == []
      ensures i < |sorted| ==> sorted[i].jobs != []
    {
      i := 0;
      while i < |sorted| && |sorted[i].jobs| == 0
        invariant i <= |sorted| && forall k | 0 <= k < i :: sorted[k].jobs == []
      {
        i := i + 1;
      }
    }

    /** The first of a descending list of all queues to have entries may serve. */
    lemma FirstServes(sorted: seq<Queue>, i: nat)
      requires Filed() && multiset(sorted) == multiset(queues.Values)
      requires forall a, b | 0 <= a < b < |sorted| :: sorted[a].priority >= sorted[b].priority
      requires i < |sorted| && sorted[i].jobs != [] && forall k | 0 <= k < i :: sorted[k].jobs == []
      ensures sorted[i] in queues.Values && Serves(Contents(), sorted[i].name)
    {
      assert sorted[i] in multiset(sorted);
      forall m | m in Contents() && Contents()[m].jobs != [] ensures Contents()[m].priority <= sorted[i].priority {
        assert queues[m] in multiset(sorted);
      }
    }

    lemma NoneServes(sorted: seq<Queue>)
      requires multiset(sorted) == multiset(queues.Values)
      requires forall k | 0 <= k < |sorted| :: sorted[k].jobs == []
      ensures IsEmpty(Contents()) && (sorted == [] <==> queues == map[])
    {
      forall n | n in queues ensures queues[n].jobs == [] {
        assert queues[n] in multiset(sorted);
      }
      if sorted != [] {
        assert sorted[0] in multiset(sorted);
      }
    }

    /** The search of Dequeue: whether there is any queue, and the one to serve from. */
    method FindServer() returns (any: bool, server: Option<Queue>)
      requires Filed()
      ensures any <==> queues != map[]
      ensures server.Some? ==> server.value in queues.Values && Serves(Contents(), server.value.name)
      ensures server.None? ==> IsEmpty(Contents())
    {
      var sorted := GetSortedQueues();
      if |sorted| == 0 {
        NoneServes(sorted);
        return false, None;
      }
      var i := FirstWithEntries(sorted);
      if i == |sorted| {
        NoneServes(sorted);
        return true, None;
      }
      FirstServes(sorted, i);
      return true, Some(sorted[i]);
    }

    method Dequeue() returns (r: Result<(QueuedJob, string), QueueError>)
      requires Valid()
      modifies this`history, queues.Values
      ensures Valid() && queues == old(queues)
      ensures r.Success? ==>
                && Serves(old(Contents()), r.value.1)
                && r.value.0 == Served(old(Contents())[r.value.1])
                && Contents() == Apply(old(Contents()), Event.Dequeue(r.value.1))
      ensures r.Failure? ==> Contents() == old(Contents()) && IsEmpty(old(Contents()))
      ensures r.Failure? ==> r.error == if queues == map[] then NoQueues else NoJobs
      ensures history == old(history) + if r.Success? then [Event.Dequeue(r.value.1)] else []
    {
      var any, server := FindServer();
      if !any {
        return Failure(NoQueues);
      }
      if server == None {
        return Failure(NoJobs);
      }
      var job := ServeFrom(server.value);
      Record(Event.Dequeue(server.value.name));
      r := Success((job, server.value.name));
    }

    /** The part of Dequeue after the queue is found. */
    method ServeFrom(queue: Queue) returns (job: QueuedJob)
      requires Filed() && queue in queues.Values && Serves(Contents(), queue.name)
      modifies queue`jobs
      ensures Filed() && job == Served(old(Contents())[queue.name])
      ensures Contents() == Apply(old(Contents()), Event.Dequeue(queue.name))
    {
      var selected := SelectNextJob(queue);
      job := selected.value;
      assert Contents() == old(Contents())[queue.name := old(Pop(queue.State()))];
    }
  }
}

/** What the queues hold after a run, read off the calls of the run alone. */
module QueueRuns {
  import opened Common
  import opened QueueOrder
  import opened QueueLedger

  // ---------- Priorities ----------

  lemma NewlyAccepted(w: World, ev: Event)
    requires w.history.Keys == w.queues.Keys
    ensures forall e | e in Advance(w, ev).accepted :: e in w.accepted || e.priority == e.job.priority
  {
  }

  lemma {:induction false} AcceptedCarryPriority(evs: seq<Event>)
    ensures forall e | e in Run(evs).accepted :: e.priority == e.job.priority
  {
    if evs != [] {
      AcceptedCarryPriority(evs[..|evs| - 1]);
      NewlyAccepted(Run(evs[..|evs| - 1]), evs[|evs| - 1]);
    }
  }

  /** Every entry that is pending, or was ever returned, carries the priority of its own job. */
  lemma EntriesCarryPriority(evs: seq<Event>)
    ensures forall e | e in Run(evs).returned || e in Pending(Run(evs).queues) :: e.priority == e.job.priority
  {
    var w := Run(evs);
    LedgerBalances(evs);
    AcceptedCarryPriority(evs);
    assert w.accepted == w.returned + Pending(w.queues) + w.discarded;
  }

  lemma QueuedCarryPriority(evs: seq<Event>, n: string)
    requires n in Run(evs).queues
    ensures forall e | e in Run(evs).queues[n].jobs :: e.priority == e.job.priority
  {
    EntriesCarryPriority(evs);
    PendingSplits(Run(evs).queues, n);
    forall e | e in Run(evs).queues[n].jobs ensures e in Pending(Run(evs).queues) {
      assert e in multiset(Run(evs).queues[n].jobs);
    }
  }

  // ---------- Settings ----------

  datatype Settings = Settings(priority: int, maxLen: int, isFair: bool)

  /** The settings given by the call that made the queue now called `n`. */
  function MadeWith(evs: seq<Event>, n: string): Option<Settings> {
    if evs == [] then None
    else
      var before, ev := MadeWith(evs[..|evs| - 1], n), evs[|evs| - 1];
      if ev.CreateQueue? && ev.name == n && before.None? then Some(Settings(ev.priority, ev.maxLen, ev.isFair))
      else if ev.DeleteQueue? && ev.name == n then None
      else before
  }

  function SettingsIn(q: QueueState): Settings {
    Settings(q.priority, q.maxLen, q.isFair)
  }

  lemma SettingsAfter(s: Queues, ev: Event, n: string)
    ensures n in Apply(s, ev) <==> (ev.CreateQueue? && ev.name == n) || (n in s && ev != DeleteQueue(n))
    ensures n in Apply(s, ev) ==>
              SettingsIn(Apply(s, ev)[n])
              == if n in s then SettingsIn(s[n]) else Settings(ev.priority, ev.maxLen, ev.isFair)
  {
  }

  /** A queue exists from its creation to its deletion, with the settings it was made with. */
  lemma {:induction false} SettingsStay(evs: seq<Event>, n: string)
    ensures n in Run(evs).queues <==> MadeWith(evs, n).Some?
    ensures n in Run(evs).queues ==> MadeWith(evs, n) == Some(SettingsIn(Run(evs).queues[n]))
  {
    if evs != [] {
      SettingsStay(evs[..|evs| - 1], n);
      SettingsAfter(Run(evs[..|evs| - 1]).queues, evs[|evs| - 1], n);
    }
  }

  // ---------- Which jobs a queue has taken ----------

  function JobsIn(entries: seq<QueuedJob>): (jobs: seq<Job>)
    ensures |jobs| == |entries| && forall i | 0 <= i < |jobs| :: jobs[i] == entries[i].job
  {
    seq(|entries|, i requires 0 <= i < |entries| => entries[i].job)
  }

  /** The call puts its job into the queue `n`: an enqueue needs room, a requeue does not. */
  ghost predicate Puts(s: Queues, ev: Event, n: string) {
    && n in s
    && ((ev.Enqueue? && ev.job.queue == n && (s[n].maxLen <= 0 || |s[n].jobs| < s[n].maxLen))
        || (ev.Requeue? && ev.job.queue == n))
  }

  /** The jobs put into the queue `n` since it was made, in the order of the calls. */
  ghost function Sent(evs: seq<Event>, n: string): seq<Job> {
    if evs == [] then []
    else
      var front, ev := evs[..|evs| - 1], evs[|evs| - 1];
      if ev.DeleteQueue? && ev.name == n then []
      else Sent(front, n) + if Puts(Run(front).queues, ev, n) then [ev.job] else []
  }

  /** A queue, fair or not, has accepted exactly the jobs of the calls that put one into it. */
  lemma {:induction false} AcceptedAreSent(evs: seq<Event>, n: string)
    ensures n in Run(evs).queues ==> JobsIn(Run(evs).history[n].accepted) == Sent(evs, n)
    ensures n !in Run(evs).queues ==> Sent(evs, n) == []
  {
    if evs != [] {
      var front, ev := evs[..|evs| - 1], evs[|evs| - 1];
      AcceptedAreSent(front, n);
      var w := Run(front);
      PutsIsAccepts(w.queues, ev, n);
      ExistsAfter(w.queues, ev, n);
      if Puts(w.queues, ev, n) {
        PutIsAppended(w, ev);
      } else if n in Run(evs).queues {
        OthersAcceptNothing(w, ev, n);
      }
    }
  }

  lemma PutsIsAccepts(s: Queues, ev: Event, n: string)
    ensures Puts(s, ev, n) <==> Accepts(s, ev) && ev.job.queue == n
  {
  }

  lemma PutIsAppended(w: World, ev: Event)
    requires w.history.Keys == w.queues.Keys && Accepts(w.queues, ev)
    ensures var n := ev.job.queue;
            && n in Advance(w, ev).history
            && JobsIn(Advance(w, ev).history[n].accepted) == JobsIn(w.history[n].accepted) + [ev.job]
  {
  }

  lemma OthersAcceptNothing(w: World, ev: Event, n: string)
    requires w.history.Keys == w.queues.Keys && !(Accepts(w.queues, ev) && ev.job.queue == n)
    requires n in Advance(w, ev).queues
    ensures Advance(w, ev).history[n].accepted == if n in w.queues then w.history[n].accepted else []
  {
  }

  lemma ExistsAfter(s: Queues, ev: Event, n: string)
    ensures n in Apply(s, ev) && n !in s ==> ev.CreateQueue?
    ensures n in s && n !in Apply(s, ev) ==> ev == DeleteQueue(n)
    ensures ev == DeleteQueue(n) ==> n !in Apply(s, ev)
  {
  }

  /** The entries `jobs` sit in `all` at the increasing positions `at`. */
  ghost predicate SitsAt(jobs: seq<QueuedJob>, all: seq<QueuedJob>, at: seq<nat>) {
    && |at| == |jobs|
    && (forall i | 0 <= i < |at| :: at[i] < |all| && jobs[i] == all[at[i]])
    && (forall i, j | 0 <= i < j < |at| :: at[i] < at[j])
  }

  lemma PushSits(jobs: seq<QueuedJob>, all: seq<QueuedJob>, at: seq<nat>, e: QueuedJob)
    requires SitsAt(jobs, all, at)
    ensures SitsAt(jobs + [e], all + [e], at + [|all|])
  {
  }

  lemma PopSits(jobs: seq<QueuedJob>, all: seq<QueuedJob>, at: seq<nat>, i: nat)
    requires SitsAt(jobs, all, at) && i < |jobs|
    ensures SitsAt(RemoveAt(jobs, i), all, RemoveAt(at, i))
  {
  }

  lemma PendingInOrderAfter(w: World, ev: Event, n: string, at: seq<nat>) returns (at': seq<nat>)
    requires w.history.Keys == w.queues.Keys && n in Advance(w, ev).queues
    requires n in w.queues ==> SitsAt(w.queues[n].jobs, w.history[n].accepted, at)
    ensures SitsAt(Advance(w, ev).queues[n].jobs, Advance(w, ev).history[n].accepted, at')
  {
    if Accepts(w.queues, ev) && ev.job.queue == n {
      at' := at + [|w.history[n].accepted|];
      PushSits(w.queues[n].jobs, w.history[n].accepted, at, Entry(ev.job, ev.now));
    } else if ev == Dequeue(n) && Serves(w.queues, n) {
      at' := RemoveAt(at, Next(w.queues[n].jobs, w.queues[n].isFair));
      PopSits(w.queues[n].jobs, w.history[n].accepted, at, Next(w.queues[n].jobs, w.queues[n].isFair));
    } else {
      UnconcernedStays(w, ev, n);
      at' := if n in w.queues then at else [];
    }
  }

  lemma {:induction false} PendingSits(evs: seq<Event>, n: string) returns (at: seq<nat>)
    requires n in Run(evs).queues
    ensures SitsAt(Run(evs).queues[n].jobs, Run(evs).history[n].accepted, at)
  {
    var front := evs[..|evs| - 1];
    at := [];
    if n in Run(front).queues { at := PendingSits(front, n); }
    at := PendingInOrderAfter(Run(front), evs[|evs| - 1], n, at);
  }

  /** What is pending in a queue, fair or not, are jobs put into it, in the order of the calls. */
  lemma PendingKeepsCallOrder(evs: seq<Event>, n: string) returns (at: seq<nat>)
    requires n in Run(evs).queues
    ensures |at| == |Run(evs).queues[n].jobs|
    ensures forall i | 0 <= i < |at| :: at[i] < |Sent(evs, n)| && Run(evs).queues[n].jobs[i].job == Sent(evs, n)[at[i]]
    ensures forall i, j | 0 <= i < j < |at| :: at[i] < at[j]
  {
    at := PendingSits(evs, n);
    AcceptedAreSent(evs, n);
  }

  // ---------- Enqueue everything, then dequeue everything ----------

  /** The jobs of these calls. */
  function JobsOfCalls(calls: seq<Event>): seq<Job>
    requires forall ev | ev in calls :: ev.Enqueue?
  {
    seq(|calls|, i requires 0 <= i < |calls| => calls[i].job)
  }

  /** The jobs of one priority, in order. */
  function WithPriority(jobs: seq<Job>, p: int): seq<Job> {
    if jobs == [] then []
    else (if jobs[0].priority == p then [jobs[0]] else []) + WithPriority(jobs[1..], p)
  }

  /** Calls of Enqueue for one queue that has room for them all. */
  ghost predicate Fill(n: string, maxLen: int, calls: seq<Event>) {
    && (forall ev | ev in calls :: ev.Enqueue? && ev.job.queue == n)
    && (maxLen <= 0 || |calls| <= maxLen)
  }

  lemma EnqueueInto(s: Queues, n: string, ev: Event)
    requires s.Keys == {n} && ev.Enqueue? && ev.job.queue == n
    requires s[n].maxLen <= 0 || |s[n].jobs| < s[n].maxLen
    ensures Apply(s, ev).Keys == {n} && SettingsIn(Apply(s, ev)[n]) == SettingsIn(s[n])
    ensures JobsIn(Apply(s, ev)[n].jobs) == JobsIn(s[n].jobs) + [ev.job]
    ensures forall e | e in Apply(s, ev)[n].jobs :: e in s[n].jobs || e.priority == e.job.priority
  {
  }

  ghost function ApplyAll(s: Queues, evs: seq<Event>): Queues {
    if evs == [] then s else Apply(ApplyAll(s, evs[..|evs| - 1]), evs[|evs| - 1])
  }

  lemma {:induction false} RunIsApplyAll(evs: seq<Event>)
    ensures Run(evs).queues == ApplyAll(map[], evs)
  {
    if evs != [] { RunIsApplyAll(evs[..|evs| - 1]); }
  }

  lemma {:induction false} FillQueue(s: Queues, n: string, calls: seq<Event>)
    requires s.Keys == {n} && s[n].jobs == [] && Fill(n, s[n].maxLen, calls)
    ensures var s' := ApplyAll(s, calls);
            && s'.Keys == {n} && SettingsIn(s'[n]) == SettingsIn(s[n])
            && JobsIn(s'[n].jobs) == JobsOfCalls(calls)
            && forall e | e in s'[n].jobs :: e.priority == e.job.priority
  {
    if calls != [] {
      var front, ev := calls[..|calls| - 1], calls[|calls| - 1];
      assert ev in calls && forall e | e in front :: e in calls;
      FillQueue(s, n, front);
      EnqueueInto(ApplyAll(s, front), n, ev);
      assert JobsOfCalls(calls) == JobsOfCalls(front) + [ev.job];
    }
  }

  function Times(n: string, k: nat): (names: seq<string>)
    ensures |names| == k && forall i | 0 <= i < k :: names[i] == n
  {
    seq(k, _ => n)
  }

  /** Dequeues served by the only queue there is. */
  lemma {:induction false} DrainOfOne(s: Queues, n: string, k: nat)
    requires s.Keys == {n} && k <= |s[n].jobs|
    ensures IsDrain(s, Times(n, k)) && DrainOutput(s, Times(n, k)) == Drained(s[n].jobs, s[n].isFair, k)
    decreases k
  {
    if k != 0 {
      assert Serves(s, n) && Times(n, k)[1..] == Times(n, k - 1);
      DrainOfOne(Apply(s, Dequeue(n)), n, k - 1);
    }
  }

  lemma JobsInConcat(a: seq<QueuedJob>, b: seq<QueuedJob>)
    ensures JobsIn(a + b) == JobsIn(a) + JobsIn(b)
  {
  }

  lemma {:induction false} PriorityOfJobs(entries: seq<QueuedJob>, p: int)
    requires forall e | e in entries :: e.priority == e.job.priority
    ensures JobsIn(OfPriority(entries, p)) == WithPriority(JobsIn(entries), p)
  {
    if entries != [] {
      var head := if entries[0].priority == p then [entries[0]] else [];
      assert entries[0] in entries && forall e | e in entries[1..] :: e in entries;
      PriorityOfJobs(entries[1..], p);
      JobsInConcat(head, OfPriority(entries[1..], p));
      assert JobsIn(entries)[1..] == JobsIn(entries[1..]);
    }
  }

  /** A fair queue returns the jobs by descending priority, equal priorities in the order of the
      calls; any other queue returns them in the order of the calls. */
  ghost predicate IsServed(sent: seq<Job>, returned: seq<Job>, isFair: bool) {
    if isFair then
      && (forall i, j | 0 <= i < j < |returned| :: returned[i].priority >= returned[j].priority)
      && (forall p :: WithPriority(returned, p) == WithPriority(sent, p))
    else returned == sent
  }

  lemma ServiceOrderOfJobs(entries: seq<QueuedJob>, isFair: bool)
    requires forall e | e in entries :: e.priority == e.job.priority
    ensures IsServed(JobsIn(entries), JobsIn(ServiceOrder(entries, isFair)), isFair)
  {
    if isFair {
      var sorted := StableSort(entries);
      StableSortIsStable(entries);
      forall e | e in sorted ensures e.priority == e.job.priority {
        assert e in multiset(sorted);
        assert e in multiset(entries);
      }
      forall i | 0 <= i < |sorted| ensures sorted[i].priority == JobsIn(sorted)[i].priority {
        assert sorted[i] in sorted;
      }
      forall p ensures WithPriority(JobsIn(sorted), p) == WithPriority(JobsIn(entries), p) {
        PriorityOfJobs(sorted, p);
        PriorityOfJobs(entries, p);
      }
    }
  }

  lemma DrainServes(s: Queues, n: string, k: nat)
    requires s.Keys == {n} && k == |s[n].jobs|
    requires forall e | e in s[n].jobs :: e.priority == e.job.priority
    ensures IsDrain(s, Times(n, k))
    ensures IsServed(JobsIn(s[n].jobs), JobsIn(DrainOutput(s, Times(n, k))), s[n].isFair)
  {
    var order := ServiceOrder(s[n].jobs, s[n].isFair);
    DrainOfOne(s, n, k);
    DrainFollowsServiceOrder(s[n].jobs, s[n].isFair, k);
    ServiceOrderOfJobs(s[n].jobs, s[n].isFair);
    assert order[..k] == order;
  }

  /** Enqueue jobs into a new queue with room for them, and dequeue as often: all the jobs come
      back, in the order in which the queue is meant to serve them. */
  lemma EnqueuedThenDequeued(n: string, priority: int, maxLen: int, isFair: bool, calls: seq<Event>)
    requires Fill(n, maxLen, calls)
    ensures var s := ApplyAll(Apply(map[], CreateQueue(n, priority, maxLen, isFair)), calls);
            && IsDrain(s, Times(n, |calls|))
            && IsServed(JobsOfCalls(calls), JobsIn(DrainOutput(s, Times(n, |calls|))), isFair)
  {
    var s := Apply(map[], CreateQueue(n, priority, maxLen, isFair));
    FillQueue(s, n, calls);
    DrainServes(ApplyAll(s, calls), n, |calls|);
  }
}

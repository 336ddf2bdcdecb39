/** One pass over a job queue: the loop that deletes from the list it walks. */
module QueuePass {
  import opened Common

  type JobId = nat

  /** How scheduling turns out, by the number of the attempt within the pass. */
  type Outcome = nat -> bool

  function Failures(ok: Outcome, n: nat): (f: nat)
    ensures f <= n
  {
    if n == 0 then 0 else Failures(ok, n - 1) + if ok(n - 1) then 0 else 1
  }

  /** How many jobs of a queue a pass tries, counting from attempt `n`: it stops after the
      last job or when as many have failed as there are workers. */
  function TriesFrom(n: nat, total: nat, workers: int, ok: Outcome): (t: nat)
    requires n <= total
    ensures n <= t <= total
    decreases total - n
  {
    if n == total || Failures(ok, n) >= workers then n else TriesFrom(n + 1, total, workers, ok)
  }

  function Tries(total: nat, workers: int, ok: Outcome): (t: nat)
    ensures t <= total
  {
    TriesFrom(0, total, workers, ok)
  }

  /** Of the first `n` jobs tried, those whose outcome was `wanted`, in order. */
  function Outcomes(jobs: seq<JobId>, n: nat, ok: Outcome, wanted: bool): seq<JobId>
    requires n <= |jobs|
  {
    if n == 0 then []
    else Outcomes(jobs, n - 1, ok, wanted) + if ok(n - 1) == wanted then [jobs[n - 1]] else []
  }

  /** The queue in the middle of a pass, after `n` attempts. */
  function Current(jobs: seq<JobId>, n: nat, ok: Outcome): seq<JobId>
    requires n <= |jobs|
  {
    Outcomes(jobs, n, ok, false) + jobs[n..]
  }

  function AfterPass(jobs: seq<JobId>, workers: int, ok: Outcome): seq<JobId> {
    Current(jobs, Tries(|jobs|, workers, ok), ok)
  }

  function Scheduled(jobs: seq<JobId>, workers: int, ok: Outcome): seq<JobId> {
    Outcomes(jobs, Tries(|jobs|, workers, ok), ok, true)
  }

  lemma {:induction false} FailuresGrow(ok: Outcome, m: nat, n: nat)
    requires m <= n
    ensures Failures(ok, m) <= Failures(ok, n)
  {
    if m < n { FailuresGrow(ok, m, n - 1); }
  }

  /** A pass tries exactly the jobs with fewer than `workers` failures ahead of them. */
  lemma {:induction false} TriedIff(n: nat, total: nat, workers: int, ok: Outcome, j: nat)
    requires n <= j < total && Failures(ok, n) <= Max(0, workers)
    ensures j < TriesFrom(n, total, workers, ok) <==> Failures(ok, j) < workers
    decreases total - n
  {
    FailuresGrow(ok, n, j);
    if Failures(ok, n) < workers && n < j {
      TriedIff(n + 1, total, workers, ok, j);
    }
  }

  lemma {:induction false} FailedAreCounted(jobs: seq<JobId>, n: nat, ok: Outcome)
    requires n <= |jobs|
    ensures |Outcomes(jobs, n, ok, false)| == Failures(ok, n)
  {
    if n != 0 { FailedAreCounted(jobs, n - 1, ok); }
  }

  /** Each tried job either failed or was scheduled. */
  lemma {:induction false} TriedFailOrSucceed(jobs: seq<JobId>, n: nat, ok: Outcome)
    requires n <= |jobs|
    ensures multiset(jobs[..n]) == multiset(Outcomes(jobs, n, ok, false)) + multiset(Outcomes(jobs, n, ok, true))
  {
    if n != 0 {
      assert jobs[..n] == jobs[..n - 1] + [jobs[n - 1]];
      TriedFailOrSucceed(jobs, n - 1, ok);
    }
  }

  lemma {:induction false} StopsAtWorkers(n: nat, total: nat, workers: int, ok: Outcome)
    requires n <= total && Failures(ok, n) <= Max(0, workers)
    ensures var t := TriesFrom(n, total, workers, ok);
            && Failures(ok, t) <= Max(0, workers)
            && (t < total ==> Failures(ok, t) == Max(0, workers))
    decreases total - n
  {
    if n < total && Failures(ok, n) < workers { StopsAtWorkers(n + 1, total, workers, ok); }
  }

  lemma SplitConserves(tried: seq<JobId>, failed: seq<JobId>, done: seq<JobId>, untried: seq<JobId>)
    requires multiset(tried) == multiset(failed) + multiset(done)
    ensures multiset(tried + untried) == multiset(failed + untried) + multiset(done)
  {
    assert multiset(tried + untried) == multiset(tried) + multiset(untried);
    assert multiset(failed + untried) == multiset(failed) + multiset(untried);
  }

  /** A pass loses no job and invents none. */
  lemma PassConservesJobs(jobs: seq<JobId>, workers: int, ok: Outcome)
    ensures multiset(jobs) == multiset(AfterPass(jobs, workers, ok)) + multiset(Scheduled(jobs, workers, ok))
  {
    var n := Tries(|jobs|, workers, ok);
    assert jobs == jobs[..n] + jobs[n..];
    TriedFailOrSucceed(jobs, n, ok);
    SplitConserves(jobs[..n], Outcomes(jobs, n, ok, false), Outcomes(jobs, n, ok, true), jobs[n..]);
  }

  /** A pass fails on no more jobs than there are workers, keeps those in order ahead of the
      untried ones, and if it leaves a job untried, exactly that many failed. */
  lemma PassSplitsQueue(jobs: seq<JobId>, workers: int, ok: Outcome)
    ensures var n := Tries(|jobs|, workers, ok);
            var failed := Outcomes(jobs, n, ok, false);
            && |failed| <= Max(0, workers)
            && (n < |jobs| ==> |failed| == Max(0, workers))
            && AfterPass(jobs, workers, ok) == failed + jobs[n..]
    ensures forall j | 0 <= j < |jobs| :: j < Tries(|jobs|, workers, ok) <==> Failures(ok, j) < workers
  {
    StopsAtWorkers(0, |jobs|, workers, ok);
    FailedAreCounted(jobs, Tries(|jobs|, workers, ok), ok);
    forall j | 0 <= j < |jobs| ensures j < Tries(|jobs|, workers, ok) <==> Failures(ok, j) < workers {
      TriedIff(0, |jobs|, workers, ok, j);
    }
  }

  /** Attempt n is made on the n-th job of the original queue, which by then sits right after
      the failed ones; success deletes it there, failure leaves it. */
  lemma AttemptStep(jobs: seq<JobId>, n: nat, ok: Outcome)
    requires n < |jobs|
    ensures var i, before, after := Failures(ok, n), Current(jobs, n, ok), Current(jobs, n + 1, ok);
            && |after| - Failures(ok, n + 1) == |before| - i - 1
            && i < |before| && before[i] == jobs[n]
            && after == if ok(n) then before[..i] + before[i + 1..] else before
  {
    FailedAreCounted(jobs, n, ok);
    DeleteAt(Outcomes(jobs, n, ok, false), jobs[n..]);
    assert jobs[n..][1..] == jobs[n + 1..];
  }

  /** Deleting the entry right after the kept ones drops the head of the rest. */
  lemma DeleteAt(kept: seq<JobId>, rest: seq<JobId>)
    requires rest != []
    ensures (kept + rest)[..|kept|] + (kept + rest)[|kept| + 1..] == kept + rest[1..]
    ensures kept + rest == kept + [rest[0]] + rest[1..]
  {
  }

  /** The loop from index `i` and attempt `n` on: what it leaves of the queue. */
  function LoopFrom(jobs: seq<JobId>, i: nat, n: nat, workers: int, ok: Outcome): seq<JobId>
    requires i <= |jobs|
    decreases |jobs| - i
  {
    if i == |jobs| || i >= workers then jobs
    else if ok(n) then LoopFrom(RemoveAt(jobs, i), i, n + 1, workers, ok)
    else LoopFrom(jobs, i + 1, n + 1, workers, ok)
  }

  /** The loop that deletes from the list it walks does what one pass is meant to do. */
  lemma {:induction false} LoopIsPass(jobs: seq<JobId>, n: nat, workers: int, ok: Outcome)
    requires n <= |jobs|
    ensures Failures(ok, n) <= |Current(jobs, n, ok)|
    ensures LoopFrom(Current(jobs, n, ok), Failures(ok, n), n, workers, ok)
            == Current(jobs, TriesFrom(n, |jobs|, workers, ok), ok)
    decreases |jobs| - n
  {
    FailedAreCounted(jobs, n, ok);
    if n < |jobs| {
      AttemptStep(jobs, n, ok);
      LoopIsPass(jobs, n + 1, workers, ok);
    }
  }

  // ---------- Any series of enqueues and passes ----------

  datatype Event = Enqueue(job: JobId) | Pass(ok: Outcome)

  function RunFrom(jobs: seq<JobId>, workers: int, evs: seq<Event>): seq<JobId> {
    if evs == [] then jobs
    else
      var before := RunFrom(jobs, workers, evs[..|evs| - 1]);
      match evs[|evs| - 1]
      case Enqueue(job) => before + [job]
      case Pass(ok) => AfterPass(before, workers, ok)
  }

  function Enqueued(evs: seq<Event>): seq<JobId> {
    if evs == [] then []
    else Enqueued(evs[..|evs| - 1]) + match evs[|evs| - 1] case Enqueue(job) => [job] case Pass(_) => []
  }

  function ScheduledIn(jobs: seq<JobId>, workers: int, evs: seq<Event>): seq<JobId> {
    if evs == [] then []
    else
      var front := evs[..|evs| - 1];
      ScheduledIn(jobs, workers, front)
      + match evs[|evs| - 1]
        case Enqueue(_) => []
        case Pass(ok) => Scheduled(RunFrom(jobs, workers, front), workers, ok)
  }

  lemma EnqueueConserves(jobs: multiset<JobId>, enqueued: multiset<JobId>, scheduled: multiset<JobId>,
                         before: multiset<JobId>, job: multiset<JobId>)
    requires jobs + enqueued == scheduled + before
    ensures jobs + (enqueued + job) == scheduled + (before + job)
  {
    assert jobs + (enqueued + job) == (jobs + enqueued) + job;
    assert scheduled + (before + job) == (scheduled + before) + job;
  }

  lemma PassConserves(queued: multiset<JobId>, scheduled: multiset<JobId>, before: multiset<JobId>,
                      after: multiset<JobId>, moved: multiset<JobId>)
    requires queued == scheduled + before && before == after + moved
    ensures queued == (scheduled + moved) + after
  {
    assert scheduled + (after + moved) == (scheduled + moved) + after;
  }

  /** Over any run each job enqueued is scheduled once or still queued. */
  lemma {:induction false} RunConservesJobs(jobs: seq<JobId>, workers: int, evs: seq<Event>)
    ensures multiset(jobs) + multiset(Enqueued(evs))
            == multiset(ScheduledIn(jobs, workers, evs)) + multiset(RunFrom(jobs, workers, evs))
  {
    if evs != [] {
      var front, ev := evs[..|evs| - 1], evs[|evs| - 1];
      var before, scheduled := RunFrom(jobs, workers, front), ScheduledIn(jobs, workers, front);
      RunConservesJobs(jobs, workers, front);
      if ev.Enqueue? {
        EnqueueConserves(multiset(jobs), multiset(Enqueued(front)), multiset(scheduled), multiset(before),
                         multiset([ev.job]));
        assert Enqueued(evs) == Enqueued(front) + [ev.job];
        assert RunFrom(jobs, workers, evs) == before + [ev.job];
        assert ScheduledIn(jobs, workers, evs) == scheduled;
      } else {
        var after, moved := AfterPass(before, workers, ev.ok), Scheduled(before, workers, ev.ok);
        PassConservesJobs(before, workers, ev.ok);
        PassConserves(multiset(jobs) + multiset(Enqueued(front)), multiset(scheduled), multiset(before),
                      multiset(after), multiset(moved));
        assert Enqueued(evs) == Enqueued(front);
        assert ScheduledIn(jobs, workers, evs) == scheduled + moved;
      }
    }
  }

  lemma {:induction false} AllFail(ok: Outcome, n: nat, jobs: seq<JobId>)
    requires n <= |jobs| && forall a | 0 <= a < n :: !ok(a)
    ensures Failures(ok, n) == n
    ensures Outcomes(jobs, n, ok, false) == jobs[..n] && Outcomes(jobs, n, ok, true) == []
  {
    if n != 0 { AllFail(ok, n - 1, jobs); }
  }

  lemma FailingHeadBlocksPass(jobs: seq<JobId>, workers: nat, ok: Outcome)
    requires workers <= |jobs| && forall a | 0 <= a < workers :: !ok(a)
    ensures AfterPass(jobs, workers, ok) == jobs && Scheduled(jobs, workers, ok) == []
  {
    var n := Tries(|jobs|, workers, ok);
    AllFail(ok, workers, jobs);
    if workers < |jobs| { TriedIff(0, |jobs|, workers, ok, workers); }
    AllFail(ok, n, jobs);
    assert jobs == jobs[..n] + jobs[n..];
  }

  /** Head-of-line blocking: while the first `workers` jobs keep failing, no pass schedules
      or reorders anything, however many jobs wait behind them. */
  lemma {:induction false} FailingHeadBlocksAll(jobs: seq<JobId>, workers: nat, evs: seq<Event>)
    requires workers <= |jobs|
    requires forall i | 0 <= i < |evs| :: evs[i].Pass? ==> forall a | 0 <= a < workers :: !evs[i].ok(a)
    ensures RunFrom(jobs, workers, evs) == jobs + Enqueued(evs)
    ensures ScheduledIn(jobs, workers, evs) == []
  {
    if evs != [] {
      var front, ev := evs[..|evs| - 1], evs[|evs| - 1];
      FailingHeadBlocksAll(jobs, workers, front);
      if ev.Pass? { FailingHeadBlocksPass(RunFrom(jobs, workers, front), workers, ev.ok); }
    }
  }
}

/** Jobs that are enqueued while a pass over all queues is under way: the queues are copied
    first and locked one after the other, and in between jobs may arrive in any of them. */
module PassArrivals {
  import opened QueuePass

  datatype Job = Job(id: JobId, queue: string)

  const DEFAULT_QUEUE := "default"

  function QueueOf(job: Job): string {
    if job.queue == "" then DEFAULT_QUEUE else job.queue
  }

  /** What happened to each queue so far. */
  type Histories = map<string, seq<Event>>

  function At(h: Histories, n: string): seq<Event> {
    if n in h then h[n] else []
  }

  function With(h: Histories, n: string, ev: Event): Histories {
    h[n := At(h, n) + [ev]]
  }

  function WithAll(h: Histories, jobs: seq<Job>): Histories {
    if jobs == [] then h
    else
      var job := jobs[|jobs| - 1];
      With(WithAll(h, jobs[..|jobs| - 1]), QueueOf(job), Enqueue(job.id))
  }

  /** A job that names a queue goes to that queue and to no other; one that names none goes to
      the queue "default". */
  lemma JobGoesWhereItSays(h: Histories, job: Job)
    ensures var h' := With(h, QueueOf(job), Enqueue(job.id));
            var n := if job.queue == [] then "default" else job.queue;
            && n in h' && h'[n] == (if n in h then h[n] else []) + [Enqueue(job.id)]
            && h' - {n} == h - {n}
  {
  }

  /** The queues these histories make of empty ones. */
  function JobsOf(h: Histories, workers: int): map<string, seq<JobId>> {
    map n | n in h :: RunFrom([], workers, h[n])
  }

  lemma JobsAfterEnqueue(h: Histories, n: string, id: JobId, workers: int)
    ensures var jobs := JobsOf(h, workers);
            JobsOf(With(h, n, Enqueue(id)), workers) == jobs[n := (if n in jobs then jobs[n] else []) + [id]]
  {
    var before := At(h, n);
    assert (before + [Enqueue(id)])[..|before|] == before;
    assert RunFrom([], workers, before + [Enqueue(id)]) == RunFrom([], workers, before) + [id];
  }

  lemma JobsAfterPass(h: Histories, n: string, ok: Outcome, workers: int)
    requires n in h
    ensures var jobs := JobsOf(h, workers);
            JobsOf(With(h, n, Pass(ok)), workers) == jobs[n := AfterPass(jobs[n], workers, ok)]
  {
    assert (h[n] + [Pass(ok)])[..|h[n]|] == h[n];
    assert RunFrom([], workers, h[n] + [Pass(ok)]) == AfterPass(RunFrom([], workers, h[n]), workers, ok);
  }

  /** The jobs that arrive before the first `k` locks, in order. */
  function Arrived(arrivals: nat -> seq<Job>, k: nat): seq<Job> {
    if k == 0 then [] else Arrived(arrivals, k - 1) + arrivals(k - 1)
  }

  /** The jobs among these that go to queue `n`, as its events. */
  function EventsFor(jobs: seq<Job>, n: string): (evs: seq<Event>)
    ensures forall ev | ev in evs :: ev.Enqueue?
  {
    if jobs == [] then []
    else
      var job := jobs[|jobs| - 1];
      EventsFor(jobs[..|jobs| - 1], n) + if QueueOf(job) == n then [Enqueue(job.id)] else []
  }

  lemma {:induction false} EventsForConcat(a: seq<Job>, b: seq<Job>, n: string)
    ensures EventsFor(a + b, n) == EventsFor(a, n) + EventsFor(b, n)
  {
    if b == [] {
      assert a + b == a;
    } else {
      assert (a + b)[..|a + b| - 1] == a + b[..|b| - 1];
      EventsForConcat(a, b[..|b| - 1], n);
    }
  }

  /** Enqueuing jobs appends to each queue what is for it, and makes the queues it needs. */
  lemma {:induction false} WithAllAppends(h: Histories, jobs: seq<Job>, n: string)
    ensures n in WithAll(h, jobs) <==> n in h || EventsFor(jobs, n) != []
    ensures At(WithAll(h, jobs), n) == At(h, n) + EventsFor(jobs, n)
  {
    if jobs != [] { WithAllAppends(h, jobs[..|jobs| - 1], n); }
  }

  /** `after` is `before` with the arrivals appended and one pass somewhere among them. */
  ghost predicate HasPassed(before: seq<Event>, after: seq<Event>, arrived: seq<Event>, ok: Outcome) {
    exists i | 0 <= i <= |arrived| :: after == before + arrived[..i] + [Pass(ok)] + arrived[i..]
  }

  /** A queue's history in the course of the pass: the pass is still to come (or never comes,
      for a new queue), or has been made. */
  ghost predicate IsCourse(before: seq<Event>, after: seq<Event>, passed: bool, arrived: seq<Event>, ok: Outcome) {
    if passed then HasPassed(before, after, arrived, ok) else after == before + arrived
  }

  /** What is known of queue `n` while the queues in `todo` are still to be passed over. */
  ghost predicate IsOnCourse(start: Histories, h: Histories, todo: set<string>, arrived: seq<Job>,
                             ok: string -> Outcome, n: string) {
    && (n in h <==> n in start || EventsFor(arrived, n) != [])
    && IsCourse(At(start, n), At(h, n), n in start && n !in todo, EventsFor(arrived, n), ok(n))
  }

  ghost predicate InProgress(start: Histories, h: Histories, todo: set<string>, arrived: seq<Job>,
                             ok: string -> Outcome) {
    forall n :: IsOnCourse(start, h, todo, arrived, ok, n)
  }

  lemma PassedThenArrived(before: seq<Event>, after: seq<Event>, arrived: seq<Event>, more: seq<Event>, ok: Outcome)
    requires HasPassed(before, after, arrived, ok)
    ensures HasPassed(before, after + more, arrived + more, ok)
  {
    var i :| 0 <= i <= |arrived| && after == before + arrived[..i] + [Pass(ok)] + arrived[i..];
    assert (arrived + more)[..i] == arrived[..i] && (arrived + more)[i..] == arrived[i..] + more;
    assert after + more == before + (arrived + more)[..i] + [Pass(ok)] + (arrived + more)[i..];
  }

  lemma ArrivedThenPassed(before: seq<Event>, arrived: seq<Event>, ok: Outcome)
    ensures HasPassed(before, before + arrived + [Pass(ok)], arrived, ok)
  {
    var i := |arrived|;
    assert arrived[..i] == arrived && arrived[i..] == [];
    assert before + arrived + [Pass(ok)] == before + arrived[..i] + [Pass(ok)] + arrived[i..];
  }

  lemma StartOfPass(start: Histories, ok: string -> Outcome)
    ensures InProgress(start, start, start.Keys, [], ok)
  {
  }

  lemma CourseGoesOn(before: seq<Event>, after: seq<Event>, passed: bool, arrived: seq<Event>, more: seq<Event>,
                     ok: Outcome)
    requires IsCourse(before, after, passed, arrived, ok)
    ensures IsCourse(before, after + more, passed, arrived + more, ok)
  {
    if passed {
      PassedThenArrived(before, after, arrived, more, ok);
    } else {
      assert (before + arrived) + more == before + (arrived + more);
    }
  }

  lemma ArrivalsKeepCourse(start: Histories, h: Histories, todo: set<string>, arrived: seq<Job>, more: seq<Job>,
                           ok: string -> Outcome, n: string)
    requires IsOnCourse(start, h, todo, arrived, ok, n)
    ensures IsOnCourse(start, WithAll(h, more), todo, arrived + more, ok, n)
  {
    EventsForConcat(arrived, more, n);
    WithAllAppends(h, more, n);
    CourseGoesOn(At(start, n), At(h, n), n in start && n !in todo, EventsFor(arrived, n), EventsFor(more, n), ok(n));
  }

  lemma ArrivalsKeepProgress(start: Histories, h: Histories, todo: set<string>, arrived: seq<Job>, more: seq<Job>,
                             ok: string -> Outcome)
    requires InProgress(start, h, todo, arrived, ok)
    ensures InProgress(start, WithAll(h, more), todo, arrived + more, ok)
  {
    forall n ensures IsOnCourse(start, WithAll(h, more), todo, arrived + more, ok, n) {
      ArrivalsKeepCourse(start, h, todo, arrived, more, ok, n);
    }
  }

  lemma PassKeepsProgress(start: Histories, h: Histories, todo: set<string>, arrived: seq<Job>, n: string,
                          ok: string -> Outcome)
    requires InProgress(start, h, todo, arrived, ok) && n in start && n in todo
    ensures InProgress(start, With(h, n, Pass(ok(n))), todo - {n}, arrived, ok)
  {
    forall m ensures IsOnCourse(start, With(h, n, Pass(ok(n))), todo - {n}, arrived, ok, m) {
      assert IsOnCourse(start, h, todo, arrived, ok, m);
      if m == n { ArrivedThenPassed(start[n], EventsFor(arrived, n), ok(n)); }
    }
  }

  lemma TurnKeepsProgress(start: Histories, h: Histories, todo: set<string>, arrived: seq<Job>, more: seq<Job>,
                          n: string, ok: string -> Outcome)
    requires InProgress(start, h, todo, arrived, ok) && n in start && n in todo
    ensures InProgress(start, With(WithAll(h, more), n, Pass(ok(n))), todo - {n}, arrived + more, ok)
  {
    ArrivalsKeepProgress(start, h, todo, arrived, more, ok);
    PassKeepsProgress(start, WithAll(h, more), todo, arrived + more, n, ok);
  }

  /** The queues at the start were passed over once, somewhere among their arrivals; those made
      meanwhile hold only arrivals. */
  ghost predicate PassedOver(start: Histories, h: Histories, arrived: seq<Job>, ok: string -> Outcome) {
    InProgress(start, h, {}, arrived, ok)
  }

  // ---------- What it comes to ----------

  lemma {:induction false} EnqueuesAppend(jobs: seq<JobId>, workers: int, evs: seq<Event>)
    requires forall ev | ev in evs :: ev.Enqueue?
    ensures RunFrom(jobs, workers, evs) == jobs + Enqueued(evs)
  {
    if evs != [] {
      EnqueuesAppend(jobs, workers, evs[..|evs| - 1]);
      assert evs[|evs| - 1] in evs;
    }
  }

  lemma {:induction false} RunFromConcat(jobs: seq<JobId>, workers: int, a: seq<Event>, b: seq<Event>)
    ensures RunFrom(jobs, workers, a + b) == RunFrom(RunFrom(jobs, workers, a), workers, b)
  {
    if b == [] {
      assert a + b == a;
    } else {
      assert (a + b)[..|a + b| - 1] == a + b[..|b| - 1];
      RunFromConcat(jobs, workers, a, b[..|b| - 1]);
    }
  }

  /** A queue that a pass went over holds what the pass made of it and of the first of the
      arrivals, followed by the others. */
  lemma PassAmongArrivals(before: seq<Event>, after: seq<Event>, arrived: seq<Event>, workers: int, ok: Outcome)
      returns (i: nat)
    requires HasPassed(before, after, arrived, ok) && forall ev | ev in arrived :: ev.Enqueue?
    ensures i <= |arrived|
    ensures RunFrom([], workers, after)
            == AfterPass(RunFrom([], workers, before) + Enqueued(arrived[..i]), workers, ok) + Enqueued(arrived[i..])
  {
    i :| 0 <= i <= |arrived| && after == before + arrived[..i] + [Pass(ok)] + arrived[i..];
    var early, late := arrived[..i], arrived[i..];
    var queued := RunFrom([], workers, before) + Enqueued(early);
    RunFromConcat([], workers, before, early);
    EnqueuesAppend(RunFrom([], workers, before), workers, early);
    RunFromConcat([], workers, before + early, [Pass(ok)]);
    assert RunFrom(queued, workers, [Pass(ok)]) == AfterPass(queued, workers, ok);
    RunFromConcat([], workers, before + early + [Pass(ok)], late);
    EnqueuesAppend(AfterPass(queued, workers, ok), workers, late);
  }

  /** If nothing arrives, every queue is what the pass made of it, and no queue affects another. */
  lemma PassWithoutArrivals(start: Histories, h: Histories, workers: int, ok: string -> Outcome)
    requires PassedOver(start, h, [], ok)
    ensures JobsOf(h, workers) == map n | n in start :: AfterPass(RunFrom([], workers, start[n]), workers, ok(n))
  {
    forall n ensures n in h <==> n in start {
      assert IsOnCourse(start, h, {}, [], ok, n);
    }
    forall n | n in start
      ensures RunFrom([], workers, h[n]) == AfterPass(RunFrom([], workers, start[n]), workers, ok(n))
    {
      assert IsOnCourse(start, h, {}, [], ok, n);
      var i := PassAmongArrivals(start[n], h[n], [], workers, ok(n));
      assert RunFrom([], workers, start[n]) + [] == RunFrom([], workers, start[n]);
    }
  }
}

/** The scheduler's queues and its processing loop. */
module Schedulers {
  import opened Common
  import opened QueuePass
  import opened PassArrivals

  class JobQueue {
    var jobs: seq<JobId>

    constructor ()
      ensures jobs == []
    {
      jobs := [];
    }

    /** The inner loop of processQueues.  Attempt n hands the n-th job of the original queue to
        scheduleJob, whose outcome is `ok(n)`. */
    method Process(workers: int, ok: Outcome)
      modifies this
      ensures jobs == AfterPass(old(jobs), workers, ok)
    {
      LoopIsPass(jobs, 0, workers, ok);
      assert Current(jobs, 0, ok) == jobs;
      var i, attempt := 0, 0;
      while i < |jobs| && i < workers
        invariant 0 <= i <= |jobs|
        invariant LoopFrom(jobs, i, attempt, workers, ok) == AfterPass(old(jobs), workers, ok)
        decreases |jobs| - i
      {
        var scheduled := ok(attempt);
        attempt := attempt + 1;
        if !scheduled {
          i := i + 1;
          continue;
        }
        jobs := jobs[..i] + jobs[i + 1..];
        i := i - 1;
        i := i + 1;
      }
    }
  }

  class Scheduler {
    var queues: map<string, JobQueue>
    const workers: int
    ghost var history: Histories  // the enqueues and passes of each queue so far

    /** Different names have different queues. */
    ghost predicate Filed()
      reads this
    {
      forall a, b | a in queues && b in queues && a != b :: queues[a] != queues[b]
    }

    /** Each queue is what its enqueues and passes make of an empty one, so all that holds of
        every run holds of it. */
    ghost predicate Valid()
      reads this, queues.Values
    {
      Filed() && Contents() == JobsOf(history, workers)
    }

    ghost function Contents(): map<string, seq<JobId>>
      reads this, queues.Values
    {
      map n | n in queues :: queues[n].jobs
    }

    /** The queues there were are still there, and all others are new. */
    twostate predicate Extends(before: map<string, JobQueue>)
      reads this
    {
      && (forall n | n in before :: n in queues && queues[n] == before[n])
      && (forall n | n in queues && n !in before :: fresh(queues[n]))
    }

    constructor (workers: int)
      ensures Valid() && Contents() == map[] && this.workers == workers
    {
      this.workers := workers;
      queues, history := map[], map[];
    }

    /** Adds an event to a queue's history once its effect is in place. */
    ghost method Record(name: string, ev: Event)
      requires Filed() && Contents() == JobsOf(With(history, name, ev), workers)
      modifies this`history
      ensures Valid() && Contents() == old(Contents()) && history == With(old(history), name, ev)
    {
      history := With(history, name, ev);
    }

    method EnqueueJob(job: Job)
      requires Valid()
      modifies this, queues.Values
      ensures Valid() && Extends(old(queues))
      ensures history == With(old(history), QueueOf(job), Enqueue(job.id))
      ensures var n := QueueOf(job);
              Contents() == old(Contents())[n := (if n in old(Contents()) then old(Contents())[n] else []) + [job.id]]
    {
      var queueName := job.queue;
      if queueName == "" {
        queueName := DEFAULT_QUEUE;
      }
      FileJob(queueName, job.id);
      JobsAfterEnqueue(history, queueName, job.id, workers);
      Record(queueName, Enqueue(job.id));
    }

    /** Appends to the queue of that name, which is made if missing. */
    method FileJob(name: string, job: JobId)
      requires Filed()
      modifies this`queues, queues.Values
      ensures Filed() && Extends(old(queues))
      ensures Contents() == old(Contents())[name :=
                (if name in old(Contents()) then old(Contents())[name] else []) + [job]]
    {
      if name !in queues {
        var created := new JobQueue();
        queues := queues[name := created];
      }
      var q := queues[name];
      q.jobs := q.jobs + [job];
    }

    method EnqueueAll(jobs: seq<Job>)
      requires Valid()
      modifies this, queues.Values
      ensures Valid() && Extends(old(queues))
      ensures history == WithAll(old(history), jobs)
    {
      for k := 0 to |jobs|
        invariant Valid() && Extends(old(queues))
        invariant history == WithAll(old(history), jobs[..k])
      {
        assert jobs[..k + 1][..k] == jobs[..k];
        EnqueueJob(jobs[k]);
      }
      assert jobs[..|jobs|] == jobs;
    }

    /** The pass over one queue. */
    method ProcessQueue(name: string, queue: JobQueue, ok: Outcome)
      requires Valid() && name in queues && queues[name] == queue
      modifies this`history, queue
      ensures Valid() && history == With(old(history), name, Pass(ok))
    {
      ProcessFiled(name, queue, ok);
      JobsAfterPass(history, name, ok, workers);
      Record(name, Pass(ok));
    }

    method ProcessFiled(name: string, queue: JobQueue, ok: Outcome)
      requires Filed() && name in queues && queues[name] == queue
      modifies queue
      ensures Contents() == old(Contents())[name := AfterPass(old(Contents())[name], workers, ok)]
    {
      queue.Process(workers, ok);
    }

    /** Jobs arrive, and then the pass locks one of the queues still to do and goes over it. */
    method TakeTurn(ghost start: Histories, copied: map<string, JobQueue>, todo: set<string>, ghost arrived: seq<Job>,
                    arriving: seq<Job>, ok: string -> Outcome) returns (left: set<string>)
      requires Valid() && todo != {} && forall n | n in todo :: n in copied && n in queues && queues[n] == copied[n]
      requires InProgress(start, history, todo, arrived, ok) && todo <= start.Keys
      modifies this, queues.Values
      ensures Valid() && Extends(old(queues))
      ensures left < todo && |left| + 1 == |todo|
      ensures InProgress(start, history, left, arrived + arriving, ok)
    {
      var n :| n in todo;
      left := todo - {n};
      TurnKeepsProgress(start, history, todo, arrived, arriving, n, ok);
      EnqueueAll(arriving);
      ProcessQueue(n, copied[n], ok(n));
    }

    /** One pass over all queues, in any order.  The outcome of every attempt is arbitrary, and
        `arrivals(k)` are enqueued right before the k-th queue is locked.  Every queue there was
        at the start is passed over once, somewhere among its arrivals; a queue that is made
        meanwhile is not passed over. */
    method ProcessQueues(ok: string -> Outcome, arrivals: nat -> seq<Job>)
      requires Valid()
      modifies this, queues.Values
      ensures Valid() && Extends(old(queues))
      ensures PassedOver(old(history), history, Arrived(arrivals, |old(queues)|), ok)
    {
      StartOfPass(history, ok);
      assert history.Keys == Contents().Keys == queues.Keys;
      LockEach(history, queues, ok, arrivals);
    }

    /** The loop over the copied queues. */
    method LockEach(ghost start: Histories, copied: map<string, JobQueue>, ok: string -> Outcome,
                    arrivals: nat -> seq<Job>)
      requires Valid() && copied == queues && copied.Keys == start.Keys
      requires InProgress(start, history, copied.Keys, [], ok)
      modifies this, queues.Values
      ensures Valid() && Extends(copied)
      ensures InProgress(start, history, {}, Arrived(arrivals, |copied|), ok)
    {
      var todo, k := copied.Keys, 0;
      ghost var arrived := [];
      while todo != {}
        invariant Valid() && Extends(copied)
        invariant todo <= start.Keys && k + |todo| == |copied|
        invariant arrived == Arrived(arrivals, k) && InProgress(start, history, todo, arrived, ok)
      {
        var arriving := arrivals(k);
        assert Arrived(arrivals, k + 1) == arrived + arriving;
        todo := TakeTurn(start, copied, todo, arrived, arriving, ok);
        arrived, k := arrived + arriving, k + 1;
      }
    }
  }
}

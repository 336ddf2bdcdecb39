/** Gang scheduling as a protocol of atomic steps.

    Scheduling a gang takes three of them: the readiness gate, which runs under the lock;
    reading the list of jobs, after the lock is dropped; and writing the status `Bound`,
    also without the lock.  Other calls may run between any two of them. */
module GangProtocol {
  import opened Common
  import opened QueueOrder

  datatype Status = Pending | Scheduling | Ready | Bound | Failed

  datatype Gang = Gang(minMember: int, maxMember: int, jobs: seq<Job>, status: Status)

  datatype Pod = Pod(job: Job, gang: string)

  function NewGang(minMember: int, maxMember: int): Gang {
    Gang(minMember, maxMember, [], Pending)
  }

  predicate HasRoom(g: Gang) {
    |g.jobs| < g.maxMember
  }

  function WithJob(g: Gang, job: Job): Gang {
    var jobs := g.jobs + [job];
    g.(jobs := jobs, status := if |jobs| >= g.minMember then Ready else g.status)
  }

  function PodsOf(jobs: seq<Job>, gang: string): seq<Pod> {
    seq(|jobs|, i requires 0 <= i < |jobs| => Pod(jobs[i], gang))
  }

  // ---------- The system ----------

  /** A call of ScheduleGang that has passed the gate.  It holds on to its gang by reference
      (here, by registration number), even if the name is deleted or registered anew. */
  datatype Call =
    | Passed(reg: nat, name: string)
    | Built(reg: nat, name: string, pods: seq<Pod>)
    | Done(reg: nat, name: string, pods: seq<Pod>)

  /** `gangs` lists every registration ever made, `names` the current one of each name. */
  datatype System = System(names: map<string, nat>, gangs: seq<Gang>, calls: seq<Call>)

  const EMPTY: System := System(map[], [], [])

  datatype Event =
    | Register(name: string, minMember: int, maxMember: int)
    | Delete(name: string)
    | Add(name: string, job: Job)
    | Gate(name: string)
    | Snapshot(call: nat)
    | Bind(call: nat)

  predicate WellFormed(s: System) {
    && (forall n | n in s.names :: s.names[n] < |s.gangs|)
    && (forall c | 0 <= c < |s.calls| :: s.calls[c].reg < |s.gangs|)
  }

  predicate Adds(s: System, ev: Event, reg: nat)
    requires WellFormed(s)
  {
    ev.Add? && ev.name in s.names && s.names[ev.name] == reg && HasRoom(s.gangs[reg])
  }

  predicate Passes(s: System, ev: Event, reg: nat)
    requires WellFormed(s)
  {
    ev.Gate? && ev.name in s.names && s.names[ev.name] == reg && s.gangs[reg].status == Ready
  }

  function SetStatus(s: System, reg: nat, status: Status): System
    requires reg < |s.gangs|
  {
    s.(gangs := s.gangs[reg := s.gangs[reg].(status := status)])
  }

  /** One atomic step; a call that is refused, or a step that is not due, changes nothing. */
  function Step(s: System, ev: Event): (s': System)
    requires WellFormed(s)
    ensures WellFormed(s')
  {
    match ev
    case Register(n, lo, hi) =>
      if n in s.names then s
      else s.(names := s.names[n := |s.gangs|], gangs := s.gangs + [NewGang(lo, hi)])
    case Delete(n) => s.(names := s.names - {n})
    case Add(n, job) =>
      if n in s.names && HasRoom(s.gangs[s.names[n]])
      then s.(gangs := s.gangs[s.names[n] := WithJob(s.gangs[s.names[n]], job)])
      else s
    case Gate(n) =>
      if n in s.names && s.gangs[s.names[n]].status == Ready
      then SetStatus(s, s.names[n], Scheduling).(calls := s.calls + [Passed(s.names[n], n)])
      else s
    case Snapshot(c) =>
      if c < |s.calls| && s.calls[c].Passed?
      then
        var Passed(reg, n) := s.calls[c];
        s.(calls := s.calls[c := Built(reg, n, PodsOf(s.gangs[reg].jobs, n))])
      else s
    case Bind(c) =>
      if c < |s.calls| && s.calls[c].Built?
      then
        var Built(reg, n, pods) := s.calls[c];
        SetStatus(s, reg, Bound).(calls := s.calls[c := Done(reg, n, pods)])
      else s
  }

  /** Any list of steps, in any interleaving, from any state. */
  function RunFrom(s: System, evs: seq<Event>): (s': System)
    requires WellFormed(s)
    ensures WellFormed(s')
    decreases |evs|
  {
    if evs == [] then s else Step(RunFrom(s, evs[..|evs| - 1]), evs[|evs| - 1])
  }

  // ---------- What every interleaving keeps ----------

  /** The number of calls that ever passed the gate for a registration. */
  function Rounds(calls: seq<Call>, reg: nat): nat {
    if calls == [] then 0
    else Rounds(calls[..|calls| - 1], reg) + if calls[|calls| - 1].reg == reg then 1 else 0
  }

  /** The smallest size at which an add can make a gang ready. */
  function Quorum(g: Gang): int {
    Max(1, g.minMember)
  }

  predicate GangInvariant(g: Gang, rounds: nat) {
    && |g.jobs| <= Max(0, g.maxMember)
    && (g.status != Pending ==> |g.jobs| >= Quorum(g))
    && rounds + (if g.status == Ready then 1 else 0) <= Max(0, |g.jobs| - Quorum(g) + 1)
  }

  predicate CallInvariant(s: System, c: Call)
    requires c.reg < |s.gangs|
  {
    var g := s.gangs[c.reg];
    && Quorum(g) <= |g.jobs|
    && (!c.Passed? ==> Quorum(g) <= |c.pods| <= |g.jobs| && c.pods == PodsOf(g.jobs[..|c.pods|], c.name))
  }

  predicate Invariant(s: System) {
    && WellFormed(s)
    && (forall r | 0 <= r < |s.gangs| :: GangInvariant(s.gangs[r], Rounds(s.calls, r)))
    && (forall c | 0 <= c < |s.calls| :: CallInvariant(s, s.calls[c]))
  }

  lemma {:induction false} RoundsAfterUpdate(calls: seq<Call>, c: nat, x: Call, reg: nat)
    requires c < |calls| && x.reg == calls[c].reg
    ensures Rounds(calls[c := x], reg) == Rounds(calls, reg)
  {
    var last := |calls| - 1;
    if c == last {
      assert calls[c := x][..last] == calls[..last];
    } else {
      assert calls[c := x][..last] == calls[..last][c := x];
      RoundsAfterUpdate(calls[..last], c, x, reg);
    }
  }

  lemma {:induction false} NoRoundsYet(calls: seq<Call>, reg: nat)
    requires forall c | 0 <= c < |calls| :: calls[c].reg < reg
    ensures Rounds(calls, reg) == 0
  {
    if calls != [] { NoRoundsYet(calls[..|calls| - 1], reg); }
  }

  /** How one step moves the count of rounds: only a passed gate moves it, by one. */
  lemma RoundsAfterStep(s: System, ev: Event, reg: nat)
    requires WellFormed(s) && reg < |s.gangs|
    ensures Rounds(Step(s, ev).calls, reg) == Rounds(s.calls, reg) + if Passes(s, ev, reg) then 1 else 0
  {
    var s' := Step(s, ev);
    if s'.calls != s.calls {
      if ev.Gate? {
        assert s'.calls[..|s'.calls| - 1] == s.calls;
      } else {
        RoundsAfterUpdate(s.calls, ev.call, s'.calls[ev.call], reg);
      }
    }
  }

  /** How one step moves one gang. */
  lemma GangAfterStep(s: System, ev: Event, reg: nat)
    requires WellFormed(s) && reg < |s.gangs|
    ensures var g, s' := s.gangs[reg], Step(s, ev);
            && reg < |s'.gangs|
            && s'.gangs[reg] == (
                 if Adds(s, ev, reg) then WithJob(g, ev.job)
                 else if Passes(s, ev, reg) then g.(status := Scheduling)
                 else if ev.Bind? && ev.call < |s.calls| && s.calls[ev.call].Built? && s.calls[ev.call].reg == reg
                 then g.(status := Bound)
                 else g)
  {
  }

  lemma StepKeepsGangs(s: System, ev: Event, reg: nat)
    requires Invariant(s) && reg < |Step(s, ev).gangs|
    ensures GangInvariant(Step(s, ev).gangs[reg], Rounds(Step(s, ev).calls, reg))
  {
    if reg < |s.gangs| {
      assert GangInvariant(s.gangs[reg], Rounds(s.calls, reg));
      RoundsAfterStep(s, ev, reg);
      GangAfterStep(s, ev, reg);
      if ev.Bind? && ev.call < |s.calls| { assert CallInvariant(s, s.calls[ev.call]); }
    } else {
      NoRoundsYet(s.calls, reg);
    }
  }

  lemma StepKeepsCalls(s: System, ev: Event, c: nat)
    requires Invariant(s) && c < |Step(s, ev).calls|
    ensures CallInvariant(Step(s, ev), Step(s, ev).calls[c])
  {
    var s' := Step(s, ev);
    var reg := s'.calls[c].reg;
    if c < |s.calls| {
      assert CallInvariant(s, s.calls[c]);
      GangAfterStep(s, ev, reg);
      var jobs, jobs' := s.gangs[reg].jobs, s'.gangs[reg].jobs;
      assert jobs'[..|jobs|] == jobs;
      assert jobs[..|jobs|] == jobs;
      if !s.calls[c].Passed? {
        var k := |s.calls[c].pods|;
        assert jobs'[..k] == jobs[..k];
      }
    } else {
      assert GangInvariant(s.gangs[reg], Rounds(s.calls, reg));
    }
  }

  lemma StepKeepsInvariant(s: System, ev: Event)
    requires Invariant(s)
    ensures Invariant(Step(s, ev))
  {
    forall r | 0 <= r < |Step(s, ev).gangs|
      ensures GangInvariant(Step(s, ev).gangs[r], Rounds(Step(s, ev).calls, r))
    {
      StepKeepsGangs(s, ev, r);
    }
    forall c | 0 <= c < |Step(s, ev).calls| ensures CallInvariant(Step(s, ev), Step(s, ev).calls[c]) {
      StepKeepsCalls(s, ev, c);
    }
  }

  lemma {:induction false} RunKeepsInvariant(s: System, evs: seq<Event>)
    requires Invariant(s)
    ensures Invariant(RunFrom(s, evs))
    decreases |evs|
  {
    if evs != [] {
      RunKeepsInvariant(s, evs[..|evs| - 1]);
      StepKeepsInvariant(RunFrom(s, evs[..|evs| - 1]), evs[|evs| - 1]);
    }
  }

  /** However the calls interleave, no registration is scheduled in more than
      MaxMember - max(1, MinMember) + 1 rounds (and in none if that is negative). */
  lemma RoundsAreBounded(evs: seq<Event>, reg: nat)
    requires reg < |RunFrom(EMPTY, evs).gangs|
    ensures var s := RunFrom(EMPTY, evs);
            Rounds(s.calls, reg) <= Max(0, s.gangs[reg].maxMember - Quorum(s.gangs[reg]) + 1)
  {
    RunKeepsInvariant(EMPTY, evs);
    assert GangInvariant(RunFrom(EMPTY, evs).gangs[reg], Rounds(RunFrom(EMPTY, evs).calls, reg));
  }

  /** All or nothing, under every interleaving: a gang past pending has its quorum and never
      more than MaxMember jobs, and a finished call returned one pod a job for a list of jobs
      that was a prefix of the gang's and held the quorum. */
  lemma AllOrNothing(evs: seq<Event>)
    ensures var s := RunFrom(EMPTY, evs);
            && (forall r | 0 <= r < |s.gangs| ::
                  && |s.gangs[r].jobs| <= Max(0, s.gangs[r].maxMember)
                  && (s.gangs[r].status != Pending ==> |s.gangs[r].jobs| >= Max(1, s.gangs[r].minMember)))
            && (forall c | 0 <= c < |s.calls| && s.calls[c].Done? ::
                  var Done(reg, name, pods) := s.calls[c];
                  var g := s.gangs[reg];
                  && Max(1, g.minMember) <= |pods| <= Max(0, g.maxMember)
                  && |pods| <= |g.jobs|
                  && forall i | 0 <= i < |pods| :: pods[i] == Pod(g.jobs[i], name))
  {
    RunKeepsInvariant(EMPTY, evs);
    var s := RunFrom(EMPTY, evs);
    assert forall r | 0 <= r < |s.gangs| :: GangInvariant(s.gangs[r], Rounds(s.calls, r));
    assert forall c | 0 <= c < |s.calls| :: CallInvariant(s, s.calls[c]);
  }

  // ---------- Growth ----------

  /** The number of jobs a run adds to a registration. */
  function AddsIn(s: System, evs: seq<Event>, reg: nat): nat
    requires WellFormed(s)
    decreases |evs|
  {
    if evs == [] then 0
    else
      var front := evs[..|evs| - 1];
      AddsIn(s, front, reg) + if Adds(RunFrom(s, front), evs[|evs| - 1], reg) then 1 else 0
  }

  /** The list of jobs only grows, at its end, by the accepted adds; the limits never change. */
  lemma {:induction false} JobsOnlyGrow(s: System, evs: seq<Event>, reg: nat)
    requires WellFormed(s) && reg < |s.gangs|
    ensures reg < |RunFrom(s, evs).gangs|
    ensures var g, g' := s.gangs[reg], RunFrom(s, evs).gangs[reg];
            && g.jobs <= g'.jobs
            && |g'.jobs| == |g.jobs| + AddsIn(s, evs, reg)
            && g'.minMember == g.minMember && g'.maxMember == g.maxMember
    decreases |evs|
  {
    if evs != [] {
      JobsOnlyGrow(s, evs[..|evs| - 1], reg);
      GangAfterStep(RunFrom(s, evs[..|evs| - 1]), evs[|evs| - 1], reg);
    }
  }

  lemma OnlyItsBindMovesBuilt(s: System, ev: Event, c: nat)
    requires WellFormed(s) && c < |s.calls| && s.calls[c].Built? && ev != Bind(c)
    ensures c < |Step(s, ev).calls| && Step(s, ev).calls[c] == s.calls[c]
  {
  }

  /** What a call has built stays put until its own Bind. */
  lemma {:induction false} BuiltStays(s: System, evs: seq<Event>, c: nat)
    requires WellFormed(s) && c < |s.calls| && s.calls[c].Built?
    requires Bind(c) !in evs
    ensures c < |RunFrom(s, evs).calls| && RunFrom(s, evs).calls[c] == s.calls[c]
    decreases |evs|
  {
    if evs != [] {
      BuiltStays(s, evs[..|evs| - 1], c);
      assert evs[|evs| - 1] in evs;
      OnlyItsBindMovesBuilt(RunFrom(s, evs[..|evs| - 1]), evs[|evs| - 1], c);
    }
  }

  /** A bound gang's pods cover all its jobs exactly when no job was added between the call's
      reading of the list and its writing of the status. */
  lemma BoundCoversAllJobsIff(s: System, c: nat, between: seq<Event>)
    requires WellFormed(s) && c < |s.calls| && s.calls[c].Passed?
    requires Bind(c) !in between
    ensures var s1 := Step(s, Snapshot(c));
            var s2 := Step(RunFrom(s1, between), Bind(c));
            var reg := s.calls[c].reg;
            && c < |s2.calls| && s2.calls[c].Done? && reg < |s2.gangs|
            && s2.gangs[reg].status == Bound
            && (s2.calls[c].pods == PodsOf(s2.gangs[reg].jobs, s.calls[c].name)
                <==> AddsIn(s1, between, reg) == 0)
  {
    var s1 := Step(s, Snapshot(c));
    var reg := s.calls[c].reg;
    BuiltStays(s1, between, c);
    JobsOnlyGrow(s1, between, reg);
    GangAfterStep(RunFrom(s1, between), Bind(c), reg);
  }

  lemma RunFromSnoc(s: System, evs: seq<Event>, ev: Event)
    requires WellFormed(s)
    ensures RunFrom(s, evs + [ev]) == Step(RunFrom(s, evs), ev)
  {
    assert (evs + [ev])[..|evs|] == evs;
  }

  lemma {:induction false} RunFromConcat(s: System, a: seq<Event>, b: seq<Event>)
    requires WellFormed(s)
    ensures RunFrom(s, a + b) == RunFrom(RunFrom(s, a), b)
    decreases |b|
  {
    if b == [] {
      assert a + b == a;
    } else {
      assert (a + b)[..|a + b| - 1] == a + b[..|b| - 1];
      RunFromConcat(s, a, b[..|b| - 1]);
    }
  }

  /** A call that nothing interrupts binds the gang and returns one pod for each of its jobs. */
  lemma UninterruptedCall(s: System, name: string)
    requires WellFormed(s) && name in s.names && s.gangs[s.names[name]].status == Ready
    ensures var reg, c := s.names[name], |s.calls|;
            var g := s.gangs[reg];
            Step(Step(Step(s, Gate(name)), Snapshot(c)), Bind(c))
            == System(s.names, s.gangs[reg := g.(status := Bound)], s.calls + [Done(reg, name, PodsOf(g.jobs, name))])
  {
    var reg, c := s.names[name], |s.calls|;
    var g := s.gangs[reg];
    var s1 := Step(s, Gate(name));
    assert s1.calls == s.calls + [Passed(reg, name)];
    var s2 := Step(s1, Snapshot(c));
    assert s2.calls == s.calls + [Built(reg, name, PodsOf(g.jobs, name))];
    var s3 := Step(s2, Bind(c));
    assert s3.calls == s.calls + [Done(reg, name, PodsOf(g.jobs, name))];
    assert s3.gangs == s.gangs[reg := g.(status := Bound)];
  }

  // ---------- Jobs left behind ----------

  /** While a gang is not ready, only an accepted add can open its gate again. */
  lemma {:induction false} NoRoundWithoutAdd(s: System, evs: seq<Event>, reg: nat)
    requires WellFormed(s) && reg < |s.gangs| && s.gangs[reg].status != Ready
    requires AddsIn(s, evs, reg) == 0
    ensures reg < |RunFrom(s, evs).gangs| && RunFrom(s, evs).gangs[reg].status != Ready
    ensures Rounds(RunFrom(s, evs).calls, reg) == Rounds(s.calls, reg)
    decreases |evs|
  {
    if evs != [] {
      var s' := RunFrom(s, evs[..|evs| - 1]);
      NoRoundWithoutAdd(s, evs[..|evs| - 1], reg);
      GangAfterStep(s', evs[|evs| - 1], reg);
      RoundsAfterStep(s', evs[|evs| - 1], reg);
    }
  }

  lemma {:induction false} FullGangTakesNoAdds(s: System, evs: seq<Event>, reg: nat)
    requires WellFormed(s) && reg < |s.gangs| && !HasRoom(s.gangs[reg])
    ensures AddsIn(s, evs, reg) == 0
    decreases |evs|
  {
    if evs != [] {
      FullGangTakesNoAdds(s, evs[..|evs| - 1], reg);
      JobsOnlyGrow(s, evs[..|evs| - 1], reg);
    }
  }

  /** A full gang that is not ready is never scheduled again, whatever is called. */
  lemma FullGangIsFinal(s: System, evs: seq<Event>, reg: nat)
    requires WellFormed(s) && reg < |s.gangs|
    requires !HasRoom(s.gangs[reg]) && s.gangs[reg].status != Ready
    ensures Rounds(RunFrom(s, evs).calls, reg) == Rounds(s.calls, reg)
  {
    FullGangTakesNoAdds(s, evs, reg);
    NoRoundWithoutAdd(s, evs, reg);
  }

  lemma RunOfTwo(s: System, e: Event, f: Event)
    requires WellFormed(s)
    ensures RunFrom(s, [e, f]) == Step(Step(s, e), f)
  {
    RunFromSnoc(s, [], e);
    RunFromSnoc(s, [e], f);
    assert [] + [e] == [e] && [e] + [f] == [e, f];
  }

  function Filled(name: string, a: Job): System {
    System(map[name := 0], [Gang(1, 2, [a], Ready)], [])
  }

  function Snapped(name: string, a: Job): System {
    System(map[name := 0], [Gang(1, 2, [a], Scheduling)], [Built(0, name, [Pod(a, name)])])
  }

  lemma RegisterThenAdd(name: string, a: Job)
    ensures RunFrom(EMPTY, [Register(name, 1, 2), Add(name, a)]) == Filled(name, a)
  {
    RunOfTwo(EMPTY, Register(name, 1, 2), Add(name, a));
    assert WithJob(NewGang(1, 2), a) == Gang(1, 2, [a], Ready);
  }

  lemma GateThenSnapshot(name: string, a: Job)
    ensures RunFrom(Filled(name, a), [Gate(name), Snapshot(0)]) == Snapped(name, a)
  {
    RunOfTwo(Filled(name, a), Gate(name), Snapshot(0));
    assert PodsOf([a], name) == [Pod(a, name)];
  }

  lemma AddThenBind(name: string, a: Job, b: Job)
    ensures RunFrom(Snapped(name, a), [Add(name, b), Bind(0)])
            == System(map[name := 0], [Gang(1, 2, [a, b], Bound)], [Done(0, name, [Pod(a, name)])])
  {
    RunOfTwo(Snapped(name, a), Add(name, b), Bind(0));
    assert WithJob(Gang(1, 2, [a], Scheduling), b) == Gang(1, 2, [a, b], Ready);
  }

  function LateBindTrace(name: string, a: Job, b: Job): seq<Event> {
    [Register(name, 1, 2), Add(name, a)] + [Gate(name), Snapshot(0)] + [Add(name, b), Bind(0)]
  }

  lemma LateBindReaches(name: string, a: Job, b: Job)
    ensures RunFrom(EMPTY, LateBindTrace(name, a, b))
            == System(map[name := 0], [Gang(1, 2, [a, b], Bound)], [Done(0, name, [Pod(a, name)])])
  {
    RunFromConcat(EMPTY, [Register(name, 1, 2), Add(name, a)], [Gate(name), Snapshot(0)]);
    RunFromConcat(EMPTY, [Register(name, 1, 2), Add(name, a)] + [Gate(name), Snapshot(0)], [Add(name, b), Bind(0)]);
    RegisterThenAdd(name, a);
    GateThenSnapshot(name, a);
    AddThenBind(name, a, b);
  }

  /** The gang is full and not ready, and none of its calls is under way. */
  ghost predicate IsSettled(s: System, reg: nat) {
    && WellFormed(s) && reg < |s.gangs|
    && !HasRoom(s.gangs[reg]) && s.gangs[reg].status != Ready
    && forall c | 0 <= c < |s.calls| :: s.calls[c].reg == reg ==> s.calls[c].Done?
  }

  /** The calls for `reg` are the same in both. */
  ghost predicate SameCallsFor(s: System, s': System, reg: nat) {
    && |s.calls| <= |s'.calls|
    && (forall c | 0 <= c < |s'.calls| && s'.calls[c].reg == reg :: c < |s.calls| && s'.calls[c] == s.calls[c])
    && (forall c | 0 <= c < |s.calls| && s.calls[c].reg == reg :: s'.calls[c] == s.calls[c])
  }

  lemma StepKeepsSettled(s: System, ev: Event, reg: nat)
    requires IsSettled(s, reg)
    ensures IsSettled(Step(s, ev), reg) && SameCallsFor(s, Step(s, ev), reg)
  {
    GangAfterStep(s, ev, reg);
  }

  /** Nothing that is called later makes, changes or adds to a pod list of a settled gang. */
  lemma {:induction false} SettledIsFinal(s: System, evs: seq<Event>, reg: nat)
    requires IsSettled(s, reg)
    ensures IsSettled(RunFrom(s, evs), reg) && SameCallsFor(s, RunFrom(s, evs), reg)
    decreases |evs|
  {
    if evs != [] {
      SettledIsFinal(s, evs[..|evs| - 1], reg);
      StepKeepsSettled(RunFrom(s, evs[..|evs| - 1]), evs[|evs| - 1], reg);
    }
  }

  /** Such a gang is reachable with a job in no pod list, and then the job is in none after any
      further calls: a late Bind overwrites the Ready that the job's add had set, and the gang
      is full. */
  lemma LateBindStrandsJob(name: string, a: Job, b: Job, evs: seq<Event>)
    requires a != b
    ensures var s := RunFrom(EMPTY, LateBindTrace(name, a, b));
            var s' := RunFrom(s, evs);
            && s.gangs == [Gang(1, 2, [a, b], Bound)]
            && s'.gangs != [] && b in s'.gangs[0].jobs
            && Rounds(s'.calls, 0) == 1
            && forall c | 0 <= c < |s'.calls| && s'.calls[c].reg == 0 ::
                 s'.calls[c].Done? && Pod(b, name) !in s'.calls[c].pods
  {
    LateBindReaches(name, a, b);
    var s := RunFrom(EMPTY, LateBindTrace(name, a, b));
    assert s.calls[..0] == [];
    FullGangIsFinal(s, evs, 0);
    SettledIsFinal(s, evs, 0);
    JobsOnlyGrow(s, evs, 0);
    assert s.gangs[0].jobs[1] == b;
  }

  // ---------- The bound is exact ----------

  /** Adds `job` to a gang `n` times. */
  function AddMany(name: string, job: Job, n: nat): seq<Event> {
    if n == 0 then [] else AddMany(name, job, n - 1) + [Add(name, job)]
  }

  /** Alternates a passed gate and an add, `n` times. */
  function GateAndAdd(name: string, job: Job, n: nat): seq<Event> {
    if n == 0 then [] else GateAndAdd(name, job, n - 1) + [Gate(name)] + [Add(name, job)]
  }

  /** `s'` is `s` with `n` more jobs in the named gang. */
  ghost predicate HasGrown(s: System, s': System, name: string, n: nat)
    requires WellFormed(s) && name in s.names
  {
    var r := s.names[name];
    && s'.names == s.names && s'.calls == s.calls && |s'.gangs| == |s.gangs|
    && |s'.gangs[r].jobs| == |s.gangs[r].jobs| + n
    && s'.gangs[r].minMember == s.gangs[r].minMember && s'.gangs[r].maxMember == s.gangs[r].maxMember
    && (n > 0 && |s'.gangs[r].jobs| >= s.gangs[r].minMember ==> s'.gangs[r].status == Ready)
  }

  lemma NothingGrown(s: System, name: string)
    requires WellFormed(s) && name in s.names
    ensures HasGrown(s, RunFrom(s, []), name, 0)
  {
  }

  lemma AddGrows(s: System, s': System, name: string, job: Job, n: nat)
    requires WellFormed(s) && name in s.names && WellFormed(s') && n > 0 && HasGrown(s, s', name, n - 1)
    requires |s.gangs[s.names[name]].jobs| + n <= s.gangs[s.names[name]].maxMember
    ensures HasGrown(s, Step(s', Add(name, job)), name, n)
  {
  }

  lemma {:induction false} AddManyFills(s: System, name: string, job: Job, n: nat)
    requires WellFormed(s) && name in s.names
    requires |s.gangs[s.names[name]].jobs| + n <= s.gangs[s.names[name]].maxMember
    ensures HasGrown(s, RunFrom(s, AddMany(name, job, n)), name, n)
  {
    if n == 0 {
      NothingGrown(s, name);
    } else {
      AddManyFills(s, name, job, n - 1);
      AddGrows(s, RunFrom(s, AddMany(name, job, n - 1)), name, job, n);
      RunFromSnoc(s, AddMany(name, job, n - 1), Add(name, job));
    }
  }

  ghost predicate IsReady(s: System, name: string, room: nat)
    requires WellFormed(s) && name in s.names
  {
    var g := s.gangs[s.names[name]];
    g.status == Ready && g.minMember <= |g.jobs| && |g.jobs| + room <= g.maxMember
  }

  lemma GateAndAddOnce(s: System, name: string, job: Job, room: nat)
    requires WellFormed(s) && name in s.names && room > 0 && IsReady(s, name, room)
    ensures var s' := Step(Step(s, Gate(name)), Add(name, job));
            var r := s.names[name];
            && s'.names == s.names && |s'.gangs| == |s.gangs| && IsReady(s', name, room - 1)
            && s'.gangs[r].minMember == s.gangs[r].minMember && s'.gangs[r].maxMember == s.gangs[r].maxMember
            && |s'.gangs[r].jobs| == |s.gangs[r].jobs| + 1
            && Rounds(s'.calls, r) == Rounds(s.calls, r) + 1
  {
    RoundsAfterStep(s, Gate(name), s.names[name]);
    RoundsAfterStep(Step(s, Gate(name)), Add(name, job), s.names[name]);
  }

  lemma {:induction false} GateAndAddCounts(s: System, name: string, job: Job, n: nat, room: nat)
    requires WellFormed(s) && name in s.names && n <= room && IsReady(s, name, room)
    ensures var s' := RunFrom(s, GateAndAdd(name, job, n));
            var r := s.names[name];
            && s'.names == s.names && |s'.gangs| == |s.gangs| && IsReady(s', name, room - n)
            && s'.gangs[r].minMember == s.gangs[r].minMember && s'.gangs[r].maxMember == s.gangs[r].maxMember
            && |s'.gangs[r].jobs| == |s.gangs[r].jobs| + n
            && Rounds(s'.calls, r) == Rounds(s.calls, r) + n
  {
    if n != 0 {
      var front := GateAndAdd(name, job, n - 1);
      GateAndAddCounts(s, name, job, n - 1, room);
      GateAndAddOnce(RunFrom(s, front), name, job, room - n + 1);
      RunFromSnoc(s, front, Gate(name));
      RunFromSnoc(s, front + [Gate(name)], Add(name, job));
    }
  }

  lemma RegisterAndFill(name: string, job: Job, minMember: int, maxMember: int)
    requires 1 <= minMember <= maxMember
    ensures var s := RunFrom(EMPTY, [Register(name, minMember, maxMember)] + AddMany(name, job, minMember));
            && s.names == map[name := 0] && |s.gangs| == 1 && s.calls == []
            && s.gangs[0].minMember == minMember && s.gangs[0].maxMember == maxMember
            && |s.gangs[0].jobs| == minMember && IsReady(s, name, maxMember - minMember)
  {
    var start := [Register(name, minMember, maxMember)];
    RunFromSnoc(EMPTY, [], start[0]);
    assert [] + [start[0]] == start;
    AddManyFills(RunFrom(EMPTY, start), name, job, minMember);
    RunFromConcat(EMPTY, start, AddMany(name, job, minMember));
  }

  /** Some run does use all the rounds the bound allows. */
  lemma RoundsBoundIsReached(name: string, job: Job, minMember: int, maxMember: int) returns (evs: seq<Event>)
    requires 1 <= minMember <= maxMember
    ensures var s := RunFrom(EMPTY, evs);
            && |s.gangs| == 1 && s.gangs[0].minMember == minMember && s.gangs[0].maxMember == maxMember
            && Rounds(s.calls, 0) == maxMember - minMember + 1
  {
    var room := maxMember - minMember;
    var fill := [Register(name, minMember, maxMember)] + AddMany(name, job, minMember);
    var rounds := GateAndAdd(name, job, room);
    RegisterAndFill(name, job, minMember, maxMember);
    GateAndAddCounts(RunFrom(EMPTY, fill), name, job, room, room);
    RunFromConcat(EMPTY, fill, rounds);
    evs := fill + rounds + [Gate(name)];
    RunFromSnoc(EMPTY, fill + rounds, Gate(name));
    OneMoreGate(RunFrom(EMPTY, fill + rounds), name);
  }

  lemma OneMoreGate(s: System, name: string)
    requires WellFormed(s) && name in s.names && IsReady(s, name, 0)
    ensures var r, s' := s.names[name], Step(s, Gate(name));
            && |s'.gangs| == |s.gangs| && Rounds(s'.calls, r) == Rounds(s.calls, r) + 1
            && s'.gangs[r].minMember == s.gangs[r].minMember && s'.gangs[r].maxMember == s.gangs[r].maxMember
  {
    RoundsAfterStep(s, Gate(name), s.names[name]);
  }

  // ---------- Whether a gang can be scheduled again ----------

  /** The registration still has a name, and it is ready or can be filled up to its quorum. */
  ghost predicate CanStillPass(s: System, reg: nat)
    requires WellFormed(s) && reg < |s.gangs|
  {
    var g := s.gangs[reg];
    && (exists n :: n in s.names && s.names[n] == reg)
    && (g.status == Ready || (HasRoom(g) && g.minMember <= g.maxMember))
  }

  lemma CannotPassStays(s: System, ev: Event, reg: nat)
    requires WellFormed(s) && reg < |s.gangs| && !CanStillPass(s, reg)
    ensures reg < |Step(s, ev).gangs| && !CanStillPass(Step(s, ev), reg)
    ensures Rounds(Step(s, ev).calls, reg) == Rounds(s.calls, reg)
  {
    GangAfterStep(s, ev, reg);
    RoundsAfterStep(s, ev, reg);
    assert forall n | n in Step(s, ev).names && Step(s, ev).names[n] == reg :: n in s.names && s.names[n] == reg;
  }

  lemma {:induction false} NeverPassesAgain(s: System, evs: seq<Event>, reg: nat)
    requires WellFormed(s) && reg < |s.gangs| && !CanStillPass(s, reg)
    ensures reg < |RunFrom(s, evs).gangs| && !CanStillPass(RunFrom(s, evs), reg)
    ensures Rounds(RunFrom(s, evs).calls, reg) == Rounds(s.calls, reg)
    decreases |evs|
  {
    if evs != [] {
      NeverPassesAgain(s, evs[..|evs| - 1], reg);
      CannotPassStays(RunFrom(s, evs[..|evs| - 1]), evs[|evs| - 1], reg);
    }
  }

  /** Filling up the gang, if it is not ready, and scheduling it. */
  lemma PassesAfterFilling(s: System, name: string, job: Job) returns (evs: seq<Event>)
    requires WellFormed(s) && name in s.names && CanStillPass(s, s.names[name])
    ensures Rounds(RunFrom(s, evs).calls, s.names[name]) == Rounds(s.calls, s.names[name]) + 1
  {
    var reg := s.names[name];
    var missing: nat := if s.gangs[reg].status == Ready then 0 else s.gangs[reg].maxMember - |s.gangs[reg].jobs|;
    var fill := AddMany(name, job, missing);
    if s.gangs[reg].status != Ready { AddManyFills(s, name, job, missing); }
    evs := fill + [Gate(name)];
    RunFromSnoc(s, fill, Gate(name));
    RoundsAfterStep(RunFrom(s, fill), Gate(name), reg);
  }

  /** A registration can pass the gate once more, in some continuation, exactly when it still
      has a name and is ready or can be filled up to its quorum. */
  lemma PassesAgainIff(s: System, reg: nat)
    requires WellFormed(s) && reg < |s.gangs|
    ensures (exists evs :: Rounds(RunFrom(s, evs).calls, reg) > Rounds(s.calls, reg)) <==> CanStillPass(s, reg)
  {
    if CanStillPass(s, reg) {
      var name :| name in s.names && s.names[name] == reg;
      var evs := PassesAfterFilling(s, name, Job(NIL, "", "", "", 0));
      assert Rounds(RunFrom(s, evs).calls, reg) > Rounds(s.calls, reg);
    } else {
      forall evs ensures Rounds(RunFrom(s, evs).calls, reg) == Rounds(s.calls, reg) {
        NeverPassesAgain(s, evs, reg);
      }
    }
  }

  // ---------- The gangs by name ----------

  function ByName(s: System): map<string, Gang>
    requires WellFormed(s)
  {
    map n | n in s.names :: s.gangs[s.names[n]]
  }

  /** Different names stand for different registrations. */
  predicate NamesDiffer(s: System) {
    forall m, n | m in s.names && n in s.names && m != n :: s.names[m] != s.names[n]
  }

  lemma {:induction false} NamesStayDifferent(evs: seq<Event>)
    ensures NamesDiffer(RunFrom(EMPTY, evs))
    decreases |evs|
  {
    if evs != [] { NamesStayDifferent(evs[..|evs| - 1]); }
  }

  /** What registering, deleting and adding do to the gangs that have a name. */
  function NamedAfter(m: map<string, Gang>, ev: Event): map<string, Gang> {
    match ev
    case Register(n, lo, hi) => if n in m then m else m[n := NewGang(lo, hi)]
    case Delete(n) => m - {n}
    case Add(n, job) => if n in m && HasRoom(m[n]) then m[n := WithJob(m[n], job)] else m
    case _ => m
  }

  lemma ByNameAfterWrite(s: System, name: string, g: Gang)
    requires WellFormed(s) && NamesDiffer(s) && name in s.names
    ensures ByName(s.(gangs := s.gangs[s.names[name] := g])) == ByName(s)[name := g]
  {
  }

  lemma ByNameAfterStep(s: System, ev: Event)
    requires WellFormed(s) && NamesDiffer(s) && (ev.Register? || ev.Delete? || ev.Add?)
    ensures ByName(Step(s, ev)) == NamedAfter(ByName(s), ev)
  {
    if ev.Add? && ev.name in s.names { ByNameAfterWrite(s, ev.name, WithJob(s.gangs[s.names[ev.name]], ev.job)); }
  }

  lemma ByNameSnoc(evs: seq<Event>, ev: Event)
    requires ev.Register? || ev.Delete? || ev.Add?
    ensures ByName(RunFrom(EMPTY, evs + [ev])) == NamedAfter(ByName(RunFrom(EMPTY, evs)), ev)
  {
    RunFromSnoc(EMPTY, evs, ev);
    NamesStayDifferent(evs);
    ByNameAfterStep(RunFrom(EMPTY, evs), ev);
  }

  /** The steps of a call that nothing interrupts; `c` is the number of calls before it. */
  function WholeCall(name: string, c: nat): seq<Event> {
    [Gate(name), Snapshot(c), Bind(c)]
  }

  lemma RunOfWholeCall(evs: seq<Event>, name: string)
    ensures var s, c := RunFrom(EMPTY, evs), |RunFrom(EMPTY, evs).calls|;
            RunFrom(EMPTY, evs + WholeCall(name, c)) == Step(Step(Step(s, Gate(name)), Snapshot(c)), Bind(c))
  {
    var c := |RunFrom(EMPTY, evs).calls|;
    RunFromSnoc(EMPTY, evs, Gate(name));
    RunFromSnoc(EMPTY, evs + [Gate(name)], Snapshot(c));
    RunFromSnoc(EMPTY, evs + [Gate(name)] + [Snapshot(c)], Bind(c));
    assert evs + [Gate(name)] + [Snapshot(c)] + [Bind(c)] == evs + WholeCall(name, c);
  }

  lemma ByNameAfterCall(evs: seq<Event>, name: string)
    requires var s := RunFrom(EMPTY, evs); name in s.names && s.gangs[s.names[name]].status == Ready
    ensures var s, s' := RunFrom(EMPTY, evs), RunFrom(EMPTY, evs + WholeCall(name, |RunFrom(EMPTY, evs).calls|));
            && ByName(s') == ByName(s)[name := ByName(s)[name].(status := Bound)]
            && s'.calls == s.calls + [Done(s.names[name], name, PodsOf(ByName(s)[name].jobs, name))]
  {
    RunOfWholeCall(evs, name);
    UninterruptedCall(RunFrom(EMPTY, evs), name);
    NamesStayDifferent(evs);
  }
}

/** The scheduler itself, one call at a time. */
module GangSchedulers {
  import opened Common
  import opened QueueOrder
  import P = GangProtocol

  class Gang {
    const name: string
    const minMember: int
    const maxMember: int
    var jobs: seq<Job>
    var status: P.Status
    ghost var lastPods: seq<P.Pod>  // what the last ScheduleGang for this gang returned

    constructor (name: string, minMember: int, maxMember: int)
      ensures this.name == name && Valid() && State() == P.NewGang(minMember, maxMember)
    {
      this.name, this.minMember, this.maxMember := name, minMember, maxMember;
      jobs, status := [], P.Pending;
      lastPods := [];
    }

    ghost function State(): P.Gang
      reads this
    {
      P.Gang(minMember, maxMember, jobs, status)
    }

    /** Bound means that every job of the gang, each once, is in the last pod list. */
    ghost predicate Valid()
      reads this
    {
      && |jobs| <= Max(0, maxMember)
      && status in {P.Pending, P.Ready, P.Bound}
      && (status != P.Pending ==> |jobs| >= Max(1, minMember))
      && (status == P.Bound ==> lastPods == P.PodsOf(jobs, name))
    }

    /** The part of AddJobToGang after the checks. */
    method Add(job: Job)
      requires Valid() && P.HasRoom(State())
      modifies this
      ensures Valid() && State() == P.WithJob(old(State()), job)
    {
      jobs := jobs + [job];
      if |jobs| >= minMember {
        status := P.Ready;
      }
    }
  }

  datatype GangError = AlreadyExists | NotFound | Full | NotReady

  class GangScheduler {
    var gangs: map<string, Gang>
    ghost var history: seq<P.Event>  // the steps of every call so far that changed something

    /** Each gang is filed under its own name, so no gang is filed twice. */
    ghost predicate Filed()
      reads `gangs, gangs.Values
    {
      forall n | n in gangs :: gangs[n].name == n && gangs[n].Valid()
    }

    /** The gangs are what the calls so far have made of them, so all that holds of every run
        holds of them. */
    ghost predicate Valid()
      reads this, gangs.Values
    {
      Filed() && Contents() == P.ByName(P.RunFrom(P.EMPTY, history))
    }

    ghost function Contents(): map<string, P.Gang>
      reads `gangs, gangs.Values
    {
      map n | n in gangs :: gangs[n].State()
    }

    constructor ()
      ensures Valid() && Contents() == map[]
    {
      gangs, history := map[], [];
    }

    /** Adds a step to the history once its effect is in place. */
    ghost method Record(ev: P.Event)
      requires ev.Register? || ev.Delete? || ev.Add?
      requires Filed() && Contents() == P.NamedAfter(P.ByName(P.RunFrom(P.EMPTY, history)), ev)
      modifies this`history
      ensures Valid() && Contents() == old(Contents()) && history == old(history) + [ev]
    {
      P.ByNameSnoc(history, ev);
      history := history + [ev];
    }

    /** Adds the steps of a whole call of ScheduleGang. */
    ghost method RecordCall(name: string)
      requires var m := P.ByName(P.RunFrom(P.EMPTY, history));
               name in m && m[name].status == P.Ready && Contents() == m[name := m[name].(status := P.Bound)]
      requires Filed()
      modifies this`history
      ensures Valid() && Contents() == old(Contents())
      ensures history == old(history) + P.WholeCall(name, |P.RunFrom(P.EMPTY, old(history)).calls|)
    {
      P.ByNameAfterCall(history, name);
      history := history + P.WholeCall(name, |P.RunFrom(P.EMPTY, history).calls|);
    }

    method RegisterGang(name: string, minMember: int, maxMember: int) returns (r: Result<(), GangError>)
      requires Valid()
      modifies this
      ensures Valid()
      ensures if name in old(Contents())
              then r == Failure(AlreadyExists) && Contents() == old(Contents())
              else r == Success(()) && Contents() == old(Contents())[name := P.NewGang(minMember, maxMember)]
      ensures history == old(history) + if r.Success? then [P.Register(name, minMember, maxMember)] else []
    {
      if name in gangs {
        return Failure(AlreadyExists);
      }
      var gang := new Gang(name, minMember, maxMember);
      gangs := gangs[name := gang];
      assert Contents() == old(Contents())[name := P.NewGang(minMember, maxMember)];
      Record(P.Register(name, minMember, maxMember));
      r := Success(());
    }

    method DeleteGang(name: string) returns (r: Result<(), GangError>)
      requires Valid()
      modifies this
      ensures Valid()
      ensures r == if name in old(Contents()) then Success(()) else Failure(NotFound)
      ensures Contents() == old(Contents()) - {name}
      ensures history == old(history) + if r.Success? then [P.Delete(name)] else []
    {
      if name !in gangs {
        return Failure(NotFound);
      }
      gangs := gangs - {name};
      assert Contents() == old(Contents()) - {name};
      Record(P.Delete(name));
      r := Success(());
    }

    method AddJobToGang(name: string, job: Job) returns (r: Result<(), GangError>)
      requires Valid()
      modifies this`history, gangs.Values
      ensures Valid() && gangs == old(gangs)
      ensures r == if name !in old(Contents()) then Failure(NotFound)
                   else if !P.HasRoom(old(Contents())[name]) then Failure(Full)
                   else Success(())
      ensures Contents() == if r.Success?
                            then old(Contents())[name := P.WithJob(old(Contents())[name], job)]
                            else old(Contents())
      ensures history == old(history) + if r.Success? then [P.Add(name, job)] else []
    {
      if name !in gangs {
        return Failure(NotFound);
      }
      var gang := gangs[name];
      if |gang.jobs| >= gang.maxMember {
        return Failure(Full);
      }
      gang.Add(job);
      assert Contents() == old(Contents())[name := P.WithJob(old(Contents())[name], job)];
      Record(P.Add(name, job));
      r := Success(());
    }

    method IsGangReady(name: string) returns (ready: bool)
      requires Valid()
      ensures ready <==> name in Contents() && Contents()[name].status == P.Ready
    {
      ready := name in gangs && gangs[name].status == P.Ready;
    }

    /** The gate and the two unlocked steps, with nothing in between. */
    method ScheduleGang(name: string) returns (r: Result<seq<P.Pod>, GangError>)
      requires Valid()
      modifies this`history, gangs.Values
      ensures Valid() && gangs == old(gangs)
      ensures r == if name !in old(Contents()) then Failure(NotFound)
                   else if old(Contents())[name].status != P.Ready then Failure(NotReady)
                   else Success(P.PodsOf(old(Contents())[name].jobs, name))
      ensures Contents() == if r.Success?
                            then old(Contents())[name := old(Contents())[name].(status := P.Bound)]
                            else old(Contents())
      ensures history == old(history)
                         + if r.Success? then P.WholeCall(name, |P.RunFrom(P.EMPTY, old(history)).calls|) else []
    {
      if name !in gangs {
        return Failure(NotFound);
      }
      var gang := gangs[name];
      if gang.status != P.Ready {
        return Failure(NotReady);
      }
      var pods := Launch(gang);
      RecordCall(name);
      r := Success(pods);
    }

    /** The part of ScheduleGang after the gate. */
    method Launch(gang: Gang) returns (pods: seq<P.Pod>)
      requires Filed() && gang in gangs.Values && gang.status == P.Ready
      modifies gang`status, gang`lastPods
      ensures Filed() && pods == P.PodsOf(gang.jobs, gang.name)
      ensures Contents() == old(Contents())[gang.name := old(gang.State()).(status := P.Bound)]
    {
      gang.status := P.Scheduling;
      pods := [];
      for i := 0 to |gang.jobs|
        invariant pods == P.PodsOf(gang.jobs[..i], gang.name)
      {
        pods := pods + [P.Pod(gang.jobs[i], gang.name)];
      }
      assert gang.jobs[..|gang.jobs|] == gang.jobs;
      gang.status := P.Bound;
      gang.lastPods := pods;
      assert Contents() == old(Contents())[gang.name := old(gang.State()).(status := P.Bound)];
    }
  }
}

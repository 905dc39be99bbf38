/** The invariants hold in every state that any legal sequence of requests can reach. */
module Runs {
  import opened Lists
  import opened Timespecs
  import opened Model
  import opened Ops
  import opened Invariant
  import opened Timeline

  ghost predicate Safe(c: Config, s: State) {
    QueueInv(c, s.q) && TimeInv(c, s)
  }

  lemma {:induction false} WrappersOnce(n: nat)
    ensures var bs := Wrappers(n);
            JoinIds(bs) == [] && Ordered(bs) && (forall b :: b in bs ==> b.SemBlock?)
            && |SemIds(bs)| == n && (forall i :: 0 <= i < n ==> SemIds(bs)[i] == i)
  {
    if n > 0 {
      WrappersOnce(n - 1);
      var bs, front := Wrappers(n), Wrappers(n - 1);
      assert bs == front + [SemBlock(n - 1)];
      assert bs[..|bs| - 1] == front && bs[|bs| - 1] == SemBlock(n - 1);
      assert SemIds(bs) == SemIds(front) + [n - 1] && JoinIds(bs) == JoinIds(front) + [];
    }
  }

  lemma InitStructure(sems: seq<Semaphore>)
    requires GoodSems(sems)
    ensures Structure(Init(sems).q)
  {
    WrappersOnce(|sems|);
    var ids := SemIds(Wrappers(|sems|));
    forall i: nat | i < |sems| ensures i in ids {
      assert ids[i] == i;
    }
  }

  lemma InitSafe(c: Config, sems: seq<Semaphore>)
    requires GoodConfig(c) && GoodSems(sems)
    ensures Safe(c, Init(sems))
  {
    hide QueueInv, TimeInv;
    InitQueues(c, sems);
    InitTimes(c, sems);
  }

  lemma InitQueues(c: Config, sems: seq<Semaphore>)
    requires GoodConfig(c) && GoodSems(sems)
    ensures QueueInv(c, Init(sems).q)
  {
    hide Structure, Ordered, JoinIds, SemIds, Wrappers;
    InitStructure(sems);
    WrappersOnce(|sems|);
    assert Active(Init(sems).q.place) == {};
  }

  lemma InitTimes(c: Config, sems: seq<Semaphore>)
    ensures TimeInv(c, Init(sems))
  {
    hide ThreadOk;
  }

  lemma StepSafe(c: Config, s: State, ev: Event)
    requires GoodConfig(c) && Safe(c, s) && Enabled(s.q, ev)
    ensures Safe(c, Step(c, s, ev))
  {
    hide QueueInv, TimeInv;
    StepKeepsQueues(c, s, ev);
    StepKeepsTimes(c, s, ev);
  }

  lemma {:induction false} RunSafe(c: Config, s: State, evs: seq<Event>)
    requires GoodConfig(c) && Safe(c, s) && Legal(c, s, evs)
    ensures Safe(c, Run(c, s, evs))
    decreases |evs|
  {
    hide Safe;
    if evs != [] {
      StepSafe(c, s, evs[0]);
      RunSafe(c, Step(c, s, evs[0]), evs[1..]);
    }
  }

  /** A run can be cut in two. */
  lemma {:induction false} RunSplit(c: Config, s: State, evs: seq<Event>, more: seq<Event>)
    requires Legal(c, s, evs) && Legal(c, Run(c, s, evs), more)
    ensures Legal(c, s, evs + more) && Run(c, s, evs + more) == Run(c, Run(c, s, evs), more)
    decreases |evs|
  {
    hide Step, Enabled;
    if evs == [] {
      assert evs + more == more;
    } else {
      assert (evs + more)[1..] == evs[1..] + more;
      RunSplit(c, Step(c, s, evs[0]), evs[1..], more);
    }
  }

  lemma RunOne(c: Config, s: State, ev: Event)
    requires Enabled(s.q, ev)
    ensures Legal(c, s, [ev]) && Run(c, s, [ev]) == Step(c, s, ev)
  {
    hide Step, Enabled;
    var r := Step(c, s, ev);
    assert [ev][1..] == [] && Legal(c, r, []) && Run(c, r, []) == r;
  }

  lemma RunTwo(c: Config, s: State, a: Event, b: Event)
    requires Enabled(s.q, a) && Enabled(Step(c, s, a).q, b)
    ensures Legal(c, s, [a, b]) && Run(c, s, [a, b]) == Step(c, Step(c, s, a), b)
  {
    hide Step, Enabled;
    var r := Step(c, s, a);
    assert [a, b][1..] == [b] && [b][1..] == [];
    assert Legal(c, Step(c, r, b), []) && Legal(c, r, [b]);
    assert Run(c, r, [b]) == Step(c, r, b);
  }

  /** Every reachable state is safe. */
  lemma ReachableSafe(c: Config, sems: seq<Semaphore>, evs: seq<Event>)
    requires GoodConfig(c) && GoodSems(sems) && Legal(c, Init(sems), evs)
    ensures Safe(c, Run(c, Init(sems), evs))
  {
    InitSafe(c, sems);
    RunSafe(c, Init(sems), evs);
  }

  /** Over every run: the grade never exceeds the limit, a thread is in NEW only at
      the limit, and every thread ever listed belongs to a live program. */
  lemma AdmissionBound(c: Config, sems: seq<Semaphore>, evs: seq<Event>)
    requires GoodConfig(c) && GoodSems(sems) && Legal(c, Init(sems), evs)
    ensures var q := Run(c, Init(sems), evs).q;
            && Grade(q) <= c.maxMultiprog
            && (q.newList != [] ==> Grade(q) == c.maxMultiprog)
            && (forall k :: k in q.place ==> k.pid in q.programs)
            && (forall p :: p in q.asking ==> p in q.prog && q.prog[p].exec == None)
            && (forall k :: k in q.place && k.pid in q.asking ==> k.pid in q.prog && q.prog[k.pid].executing)
            && NoDup(q.asking)
            && (forall p :: p in q.prog && q.prog[p].executing ==> Alive(q, p))
  {
    hide TimeInv, Run, Legal, Ordered, TargetsLive, Dormant, Holds, SemsHold, ProgramsHold, Alive, Grade;
    ReachableSafe(c, sems, evs);
  }

  lemma SettledMeans(start: Timespec, execs: seq<Interval>, readys: seq<Interval>, now: Timespec)
    requires Settled(start, execs, readys, Ns(now))
    ensures forall v :: v in execs + readys ==>
              && v.end.Some? && Normal(v.start) && Normal(v.end.value)
              && Ns(start) <= Ns(v.start) <= Ns(v.end.value) <= Ns(now)
    ensures InOrder(execs) && InOrder(readys) && Disjoint(execs, readys)
    ensures SumLengths(execs) + SumLengths(readys) <= Ns(now) - Ns(start)
  {
    hide InOrder, Disjoint, SumLengths;
  }

  /** At any reading `now` not earlier than the last event, the intervals of a thread,
      with the open one closed at `now`, add up to no more than its age. */
  lemma RunPlusWaitWithinAge(th: Thread, w: Place, t: int, now: Timespec)
    requires ThreadOk(th, w, t) && t <= Ns(now) && Normal(now)
    ensures var execs := if w == Exec then Ended(th.execs, now) else th.execs;
            var readys := if w == Ready then Ended(th.readys, now) else th.readys;
            && (forall v :: v in execs + readys ==> v.end.Some? && Normal(v.start) && Normal(v.end.value))
            && InOrder(execs) && InOrder(readys) && Disjoint(execs, readys)
            && SumLengths(execs) + SumLengths(readys) <= Ns(now) - Ns(th.start)
  {
    hide Settled, InOrder, Disjoint, SumLengths, EstimateOk, OpenLast, Ns;
    if w == Exec {
      StopsRunning(th, t, now);
      SettledMeans(th.start, Ended(th.execs, now), th.readys, now);
    } else if w == Ready {
      StopsWaiting(th, t, now);
      SettledMeans(th.start, th.execs, Ended(th.readys, now), now);
    } else {
      SettledLater(th.start, th.execs, th.readys, t, Ns(now));
      SettledMeans(th.start, th.execs, th.readys, now);
    }
  }
}

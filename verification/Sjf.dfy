/** Shortest-job-first selection: which thread a selection takes, how estimates
    move over whole runs, and how long a thread that has never run can wait. */
module Sjf {
  import opened Lists
  import opened Timespecs
  import opened Model
  import opened Ops
  import opened Invariant
  import opened Timeline
  import opened Runs

  /** The request makes the program select from a non-empty ready list. */
  ghost predicate Selects(q: Queues, ev: Event, pid: Pid) {
    ev == ESchedule(pid) && pid in q.prog && q.prog[pid].ready != []
  }

  ghost function Selections(c: Config, s: State, evs: seq<Event>, pid: Pid): nat
    requires Legal(c, s, evs)
    decreases |evs|
  {
    if evs == [] then 0
    else (if Selects(s.q, evs[0], pid) then 1 else 0) + Selections(c, Step(c, s, evs[0]), evs[1..], pid)
  }

  ghost predicate IsRunning(q: Queues, k: ThreadId) {
    k.pid in q.prog && q.prog[k.pid].exec == Some(k)
  }

  /** `k` runs in some state of the run. */
  ghost predicate EverRuns(c: Config, s: State, evs: seq<Event>, k: ThreadId)
    requires Legal(c, s, evs)
    decreases |evs|
  {
    IsRunning(s.q, k) || (evs != [] && EverRuns(c, Step(c, s, evs[0]), evs[1..], k))
  }

  /** The position of the thread that a selection takes. */
  function Chosen(c: Config, s: State, pid: Pid): (i: nat)
    requires pid in s.q.prog && s.q.prog[pid].ready != []
    ensures i < |s.q.prog[pid].ready|
  {
    Choose(Reestimated(c.alpha, s.threads, s.q.prog[pid].ready), s.q.prog[pid].ready)
  }

  /** The whole microseconds from one reading to another. */
  function Microseconds(from: Timespec, to: Timespec): int {
    (Ns(to) - Ns(from)) / 1000
  }

  /** The exponential average of the last exec interval, from its start to its end, and the old
      estimate; a thread without exec intervals counts as one that ran for no time. */
  ghost predicate Averages(alpha: real, before: Thread, estimate: real) {
    if before.execs == [] then estimate == (1.0 - alpha) * before.estimate
    else
      var v := before.execs[|before.execs| - 1];
      v.end.Some? ==>
        estimate == alpha * Microseconds(v.start, v.end.value) as real + (1.0 - alpha) * before.estimate
  }

  /** Every thread of `ready` has exactly one new estimate, no other thread has one. */
  ghost predicate OnePass(alpha: real, before: map<ThreadId, Thread>, after: map<ThreadId, Thread>,
      ready: seq<ThreadId>) {
    before.Keys == after.Keys &&
    forall k :: k in before ==>
      if k in ready then Averages(alpha, before[k], after[k].estimate)
      else after[k].estimate == before[k].estimate
  }

  lemma ReestimateAverages(alpha: real, th: Thread)
    ensures Averages(alpha, th, Reestimate(alpha, th).estimate)
  {
    var burst := LastBurst(th);
    if th.execs == [] {
      assert burst as real == 0.0;
    } else {
      var v := th.execs[|th.execs| - 1];
      if v.end.Some? {
        assert burst == Microseconds(v.start, v.end.value);
      }
    }
  }

  /** `ready[i]` is the earliest of those with the least estimate. */
  ghost predicate EarliestLeast(threads: map<ThreadId, Thread>, ready: seq<ThreadId>, i: nat)
    requires i < |ready|
  {
    && (forall k :: k in ready ==> k in threads)
    && (forall j :: 0 <= j < |ready| ==> threads[ready[i]].estimate <= threads[ready[j]].estimate)
    && (forall j :: 0 <= j < i ==> threads[ready[i]].estimate < threads[ready[j]].estimate)
  }

  /** A selection runs the earliest of the ready threads with the least estimate; the
      others keep their order, and the thread that was running goes behind them. */
  lemma SelectionMoves(c: Config, s: State, pid: Pid)
    requires Structure(s.q) && Selects(s.q, ESchedule(pid), pid)
    ensures var p, i, r := s.q.prog[pid], Chosen(c, s, pid), Schedule(c, s, pid);
            && r.q.prog == s.q.prog[pid := Program(p.ready[..i] + p.ready[i + 1..]
                + (if p.exec.Some? then [p.exec.value] else []),
                                                   Some(p.ready[i]), p.executing)]
            && r.sent == s.sent + [Response(pid, p.ready[i].tid, SCHEDULE_NEXT)]
  {
    hide Structure;
    var p, i := s.q.prog[pid], Chosen(c, s, pid);
    if p.exec.Some? {
      ExecOf(s.q, pid);
      assert RemoveAt(p.ready + [p.exec.value], i) == p.ready[..i] + p.ready[i + 1..] + [p.exec.value];
    } else {
      assert p.ready[..i] + p.ready[i + 1..] + [] == RemoveAt(p.ready, i);
    }
  }

  lemma SelectionIsArgmin(c: Config, s: State, pid: Pid)
    requires Structure(s.q) && s.threads.Keys == s.q.place.Keys && Selects(s.q, ESchedule(pid), pid)
    ensures OnePass(c.alpha, s.threads, Schedule(c, s, pid).threads, s.q.prog[pid].ready)
    ensures EarliestLeast(Schedule(c, s, pid).threads, s.q.prog[pid].ready, Chosen(c, s, pid))
  {
    hide Structure;
    var ready := s.q.prog[pid].ready;
    var est := Reestimated(c.alpha, s.threads, ready);
    var i := Choose(est, ready);
    ReadyPlaces(s.q, pid);
    assert OnePass(c.alpha, s.threads, est, ready) by {
      forall k | k in s.threads && k in ready ensures Averages(c.alpha, s.threads[k], est[k].estimate) {
        ReestimateAverages(c.alpha, s.threads[k]);
      }
    }
    assert EarliestLeast(est, ready, i);
    SameEstimates(c, s, pid);
  }

  /** The stamps of a dispatch do not touch the estimates. */
  lemma SameEstimates(c: Config, s: State, pid: Pid)
    requires Selects(s.q, ESchedule(pid), pid)
    ensures var est, after := Reestimated(c.alpha, s.threads, s.q.prog[pid].ready), Schedule(c, s, pid).threads;
            est.Keys == after.Keys && forall k :: k in est ==> est[k].estimate == after[k].estimate
  {
    hide Reestimated, Reestimate;
  }

  /** Every estimate lies between 0 and the longest finished burst of its thread, and
      the end read by the estimate of a ready thread has always been set. */
  lemma EstimatesWithinBursts(c: Config, sems: seq<Semaphore>, evs: seq<Event>, k: ThreadId)
    requires GoodConfig(c) && GoodSems(sems) && Legal(c, Init(sems), evs)
    requires k in Run(c, Init(sems), evs).threads
    ensures var r := Run(c, Init(sems), evs);
            && k in r.q.place
            && var th, w := r.threads[k], r.q.place[k];
            && 0.0 <= th.estimate <= Longest(Bursts(th, w)) as real
            && (w == Ready && th.execs != [] ==> th.execs[|th.execs| - 1].end.Some?)
  {
    ReachableSafe(c, sems, evs);
  }

  // ----- A thread that waits in a ready list

  /** `k` is at position `p` of its program's ready list. */
  ghost predicate At(s: State, k: ThreadId, p: nat) {
    k.pid in s.q.prog && p < |s.q.prog[k.pid].ready| && s.q.prog[k.pid].ready[p] == k && k in s.threads
  }

  /** What one request does to a waiting thread that it does not dispatch. */
  ghost predicate StillWaits(c: Config, s: State, r: State, k: ThreadId, p: nat, p': nat, selected: bool) {
    && At(s, k, p) && At(r, k, p')
    && r.threads[k].execs == s.threads[k].execs
    && r.threads[k].estimate == (if selected then Reestimate(c.alpha, s.threads[k]) else s.threads[k]).estimate
    && (if selected then p' == p || p' == p - 1 else p' == p)
  }

  /** After a selection pass no estimate is negative, and one without a burst is 0. */
  lemma NewEstimate(c: Config, s: State, k: ThreadId)
    requires GoodConfig(c) && Safe(c, s) && k in s.q.place && s.q.place[k] == Ready
    ensures k in s.threads && 0.0 <= Reestimate(c.alpha, s.threads[k]).estimate
    ensures s.threads[k].execs == [] ==> Reestimate(c.alpha, s.threads[k]).estimate == 0.0
  {
    ReestimateOk(c.alpha, s.threads[k], Ns(c.clock(s.ticks)));
  }

  /** A selection never passes over a thread that has not run yet. */
  lemma NeverRanGoesFirst(c: Config, s: State, k: ThreadId, p: nat)
    requires GoodConfig(c) && Safe(c, s) && At(s, k, p) && s.threads[k].execs == []
    ensures Chosen(c, s, k.pid) <= p
  {
    hide Safe, Structure, Choose, EstimateOf;
    SafeStructure(c, s);
    var ready, i := s.q.prog[k.pid].ready, Chosen(c, s, k.pid);
    ReadyOf(s.q, k.pid, i);
    ReadyOf(s.q, k.pid, p);
    NewEstimate(c, s, k);
    NewEstimate(c, s, ready[i]);
    var est := Reestimated(c.alpha, s.threads, ready);
    assert EstimateOf(est, ready[i]) >= 0.0 && EstimateOf(est, k) == 0.0 by {
      EstimateIs(c, s, ready[i], ready);
      EstimateIs(c, s, k, ready);
    }
  }

  lemma EstimateIs(c: Config, s: State, k: ThreadId, ready: seq<ThreadId>)
    requires k in s.threads && k in ready
    ensures EstimateOf(Reestimated(c.alpha, s.threads, ready), k) == Reestimate(c.alpha, s.threads[k]).estimate
  {}

  lemma SelectionStep(c: Config, s: State, k: ThreadId, p: nat) returns (p': nat)
    requires GoodConfig(c) && Safe(c, s) && At(s, k, p)
    ensures var r := Schedule(c, s, k.pid);
            IsRunning(r.q, k) || (StillWaits(c, s, r, k, p, p', true) && (s.threads[k].execs == [] ==> p' == p - 1))
  {
    hide Safe, Structure, Schedule, EarliestLeast, Chosen, LastBurst;
    var ready, r := s.q.prog[k.pid].ready, Schedule(c, s, k.pid);
    SafeStructure(c, s);
    SelectionMoves(c, s, k.pid);
    SelectionIsArgmin(c, s, k.pid);
    var i := Chosen(c, s, k.pid);
    p' := if i < p then p - 1 else p;
    if s.threads[k].execs == [] {
      NeverRanGoesFirst(c, s, k, p);
    }
    SameEstimates(c, s, k.pid);
    EstimateIs(c, s, k, ready);
    if ready[i] != k {
      Closer(ready, i, p, if s.q.prog[k.pid].exec.Some? then [s.q.prog[k.pid].exec.value] else []);
      SelectedExecs(c, s, k, ready[i]);
    }
  }

  lemma Closer(l: seq<ThreadId>, i: nat, p: nat, tail: seq<ThreadId>)
    requires i < |l| && p < |l| && i != p
    ensures var p', r := if i < p then p - 1 else p, l[..i] + l[i + 1..] + tail; p' < |r| && r[p'] == l[p]
  {}

  lemma SafeStructure(c: Config, s: State)
    requires Safe(c, s)
    ensures Structure(s.q) && s.threads.Keys == s.q.place.Keys
  {}

  /** The intervals of a ready thread that is not the chosen one are not touched. */
  lemma SelectedExecs(c: Config, s: State, k: ThreadId, chosen: ThreadId)
    requires Safe(c, s) && k in s.threads && k.pid in s.q.prog && k in s.q.prog[k.pid].ready
        && s.q.prog[k.pid].ready != []
    requires Schedule(c, s, k.pid).q.prog[k.pid].exec == Some(chosen) && chosen != k
    ensures k in Schedule(c, s, k.pid).threads && Schedule(c, s, k.pid).threads[k].execs == s.threads[k].execs
  {
    hide Structure, ThreadOk, Ordered, TargetsLive, Dormant, AllAlive;
    ReadyPlaces(s.q, k.pid);
    if s.q.prog[k.pid].exec.Some? {
      ExecOf(s.q, k.pid);
    }
  }

  // ----- Requests that do not select from the waiting thread's list

  /** The ready list of `k`'s program only grew at its tail, and `k` itself is as it was. */
  ghost predicate Undisturbed(s: State, r: State, k: ThreadId) {
    && k.pid in s.q.prog && k.pid in r.q.prog && s.q.prog[k.pid].ready <= r.q.prog[k.pid].ready
    && k in s.threads && k in r.threads
    && r.threads[k].execs == s.threads[k].execs && r.threads[k].estimate == s.threads[k].estimate
  }

  ghost predicate IsReady(s: State, k: ThreadId) {
    k in s.q.place && s.q.place[k] == Ready && k in s.threads && k.pid in s.q.prog
  }

  lemma ScheduleLeaves(c: Config, s: State, pid: Pid, k: ThreadId)
    requires Structure(s.q) && s.threads.Keys == s.q.place.Keys && IsReady(s, k) && pid != k.pid
    ensures Undisturbed(s, Schedule(c, s, pid), k)
  {
    hide Structure;
    if pid in s.q.prog {
      ReadyPlaces(s.q, pid);
      if s.q.prog[pid].exec.Some? {
        ExecOf(s.q, pid);
      }
    }
  }

  lemma ExitLeaves(c: Config, s: State, e: ThreadId, k: ThreadId)
    requires Structure(s.q) && s.threads.Keys == s.q.place.Keys && IsReady(s, k)
    requires e in s.q.place && s.q.place[e] == Exec
    ensures Undisturbed(s, Exit(c, s, e), k) && IsReady(Exit(c, s, e), k)
  {
    hide Structure;
    JoinedPlaces(s.q, e);
  }

  lemma ReapLeaves(s: State, pid: Pid, k: ThreadId)
    requires IsReady(s, k)
    ensures Undisturbed(s, Reap(s, pid), k) && IsReady(Reap(s, pid), k)
  {}

  lemma DistributeLeaves(c: Config, s: State, k: ThreadId)
    requires Structure(s.q) && s.threads.Keys == s.q.place.Keys && IsReady(s, k)
    ensures Undisturbed(s, Distribute(c, s), k)
  {
    hide Structure;
    if s.q.newList != [] {
      var i := FirstRunnable(s.q.newList, s.q.prog);
      NewOf(s.q, if i < |s.q.newList| then i else 0);
    }
  }

  lemma CloseLeaves(c: Config, s: State, pid: Pid, tid: int, k: ThreadId)
    requires GoodConfig(c) && Safe(c, s) && Enabled(s.q, EClose(pid, tid)) && IsReady(s, k)
    ensures Undisturbed(s, Step(c, s, EClose(pid, tid)), k)
  {
    hide Structure, Ordered, TargetsLive, Dormant, AskingIdle, AllAlive, ThreadOk, Exit, Reap, Distribute;
    var e := s.q.prog[pid].exec.value;
    if e.tid == tid {
      ExecOf(s.q, pid);
      var s1, s2 := Exit(c, s, e), Reap(Exit(c, s, e), pid);
      ExitLeaves(c, s, e, k);
      ExitKeeps(c, s, e);
      ReapLeaves(s1, pid, k);
      ReapKeeps(s1, pid);
      ExitTimes(c, s, e);
      ReapTimes(c, s1, pid);
      DistributeLeaves(c, s2, k);
    }
  }

  lemma JoinLeaves(c: Config, s: State, pid: Pid, tid: int, k: ThreadId)
    requires Structure(s.q) && s.threads.Keys == s.q.place.Keys && IsReady(s, k) && Enabled(s.q, EJoin(pid, tid))
    ensures Undisturbed(s, Step(c, s, EJoin(pid, tid)), k)
  {
    hide Structure;
    ExecOf(s.q, pid);
  }

  lemma WaitLeaves(c: Config, s: State, pid: Pid, tid: int, id: string, k: ThreadId)
    requires Structure(s.q) && s.threads.Keys == s.q.place.Keys && IsReady(s, k) && Enabled(s.q, EWait(pid, tid, id))
    ensures Undisturbed(s, Step(c, s, EWait(pid, tid, id)), k)
  {
    hide Structure;
    ExecOf(s.q, pid);
  }

  lemma SignalLeaves(c: Config, s: State, pid: Pid, tid: int, id: string, k: ThreadId)
    requires Structure(s.q) && s.threads.Keys == s.q.place.Keys && IsReady(s, k) && Enabled(s.q, ESignal(pid, tid, id))
    ensures Undisturbed(s, Step(c, s, ESignal(pid, tid, id)), k)
  {
    hide Structure;
    if s.q.sems[FindSem(s.q.sems, id)].queue != [] {
      QueueHead(s.q, FindSem(s.q.sems, id));
    }
  }

  lemma MetricsLeaves(c: Config, s: State, k: ThreadId)
    requires Structure(s.q) && s.threads.Keys == s.q.place.Keys && IsReady(s, k)
    ensures Undisturbed(s, Metrics(c, s), k)
  {
    hide Structure;
    MetricsPlaces(s.q, k);
  }

  lemma OtherLeaves(c: Config, s: State, ev: Event, k: ThreadId)
    requires GoodConfig(c) && Safe(c, s) && Enabled(s.q, ev) && IsReady(s, k) && !ev.EClose? && ev != ESchedule(k.pid)
    ensures Undisturbed(s, Step(c, s, ev), k)
  {
    hide Safe, Schedule, Join, Wait, Signal, Metrics, Structure;
    SafeStructure(c, s);
    match ev
    case ESchedule(pid) => ScheduleLeaves(c, s, pid, k);
    case EJoin(pid, tid) => JoinLeaves(c, s, pid, tid, k);
    case EWait(pid, tid, id) => WaitLeaves(c, s, pid, tid, id, k);
    case ESignal(pid, tid, id) => SignalLeaves(c, s, pid, tid, id, k);
    case EMetrics => MetricsLeaves(c, s, k);
    case EConnect(pid) =>
    case ECreate(pid, tid) =>
  }

  /** One request, seen from a thread waiting in a ready list. */
  lemma WaitingStep(c: Config, s: State, ev: Event, k: ThreadId, p: nat) returns (p': nat)
    requires GoodConfig(c) && Safe(c, s) && Enabled(s.q, ev) && At(s, k, p)
    ensures var r := Step(c, s, ev);
            IsRunning(r.q, k) ||
            (StillWaits(c, s, r, k, p, p', Selects(s.q, ev, k.pid)) &&
             (s.threads[k].execs == [] && Selects(s.q, ev, k.pid) ==> p' == p - 1))
  {
    hide Safe, Schedule, Create, Join, Close, Wait, Signal, Metrics, Connect;
    p' := p;
    if ev == ESchedule(k.pid) {
      p' := SelectionStep(c, s, k, p);
    } else {
      SafeStructure(c, s);
      ReadyOf(s.q, k.pid, p);
      hide Structure;
      if ev.EClose? {
        CloseLeaves(c, s, ev.pid, ev.tid, k);
      } else {
        OtherLeaves(c, s, ev, k);
      }
    }
  }

  /** Bounded waiting: a thread that has never run, at position `p` of its program's
      ready list, runs before or at the (p+1)-th selection from that list, whatever
      else happens in between. */
  lemma {:induction false} BoundedWaiting(c: Config, s: State, evs: seq<Event>, k: ThreadId, p: nat)
    requires GoodConfig(c) && Safe(c, s) && Legal(c, s, evs) && At(s, k, p) && s.threads[k].execs == []
    requires Selections(c, s, evs, k.pid) >= p + 1
    ensures EverRuns(c, s, evs, k)
    decreases |evs|
  {
    hide Safe, Step, Enabled, StillWaits, Selects;
    var next := Step(c, s, evs[0]);
    var p' := WaitingStep(c, s, evs[0], k, p);
    StepSafe(c, s, evs[0]);
    if !IsRunning(next.q, k) {
      Unfold(c, s, next, k, p, p', Selects(s.q, evs[0], k.pid));
      BoundedWaiting(c, next, evs[1..], k, p');
    }
  }

  lemma Unfold(c: Config, s: State, r: State, k: ThreadId, p: nat, p': nat, selected: bool)
    requires StillWaits(c, s, r, k, p, p', selected)
    ensures At(r, k, p') && k in s.threads && r.threads[k].execs == s.threads[k].execs
    ensures !selected ==> p' == p
    ensures r.threads[k].estimate == if selected then Reestimate(c.alpha, s.threads[k]).estimate
        else s.threads[k].estimate
  {}

  ghost function Pow(x: real, n: nat): real {
    if n == 0 then 1.0 else x * Pow(x, n - 1)
  }

  /** The last burst of a thread that does not run: from the start to the end of its last exec
      interval, 0 for a thread that has none. */
  ghost predicate LastRan(th: Thread, us: int) {
    if th.execs == [] then us == 0
    else
      var v := th.execs[|th.execs| - 1];
      v.end.Some? && us == Microseconds(v.start, v.end.value)
  }

  /** After `n` selections the distance between the estimate and the last burst is
      (1-alpha)^n of what it was. */
  ghost predicate Decayed(alpha: real, last: int, before: Thread, after: Thread, n: nat) {
    after.execs == before.execs &&
    after.estimate - last as real == Pow(1.0 - alpha, n) * (before.estimate - last as real)
  }

  /** The burst that the estimates of a ready thread go by has both ends. */
  lemma RanBefore(c: Config, s: State, k: ThreadId, p: nat) returns (last: int)
    requires Safe(c, s) && At(s, k, p)
    ensures LastRan(s.threads[k], last)
  {
    hide Structure, Ordered, TargetsLive, Dormant, AllAlive, Longest, InOrder, Disjoint, SumLengths;
    ReadyOf(s.q, k.pid, p);
    var th := s.threads[k];
    assert ThreadOk(th, Ready, Ns(c.clock(s.ticks)));
    last := 0;
    if th.execs != [] {
      var v := th.execs[|th.execs| - 1];
      assert Closed(v, Ns(th.start), Ns(th.readys[|th.readys| - 1].start));
      last := Microseconds(v.start, v.end.value);
    }
  }

  /** The estimate of a thread that keeps waiting moves towards its last burst by the
      same factor at every selection, and at no other request. */
  lemma {:induction false} EstimateDecays(c: Config, s: State, evs: seq<Event>, k: ThreadId, p: nat)
    returns (last: int)
    requires GoodConfig(c) && Safe(c, s) && Legal(c, s, evs) && At(s, k, p) && !EverRuns(c, s, evs, k)
    ensures LastRan(s.threads[k], last)
    ensures var r := Run(c, s, evs);
            k in r.threads && Decayed(c.alpha, last, s.threads[k], r.threads[k], Selections(c, s, evs, k.pid))
    decreases |evs|
  {
    hide Safe, Step, Enabled, StillWaits, Selects, Decayed, Reestimate, IsRunning, LastRan;
    if evs == [] {
      last := RanBefore(c, s, k, p);
      DecayNone(c.alpha, last, s.threads[k]);
    } else {
      var next := Step(c, s, evs[0]);
      var p' := WaitingStep(c, s, evs[0], k, p);
      StepSafe(c, s, evs[0]);
      Unfold(c, s, next, k, p, p', Selects(s.q, evs[0], k.pid));
      last := EstimateDecays(c, next, evs[1..], k, p');
      DecayStep(c.alpha, last, s.threads[k], next.threads[k], Run(c, s, evs).threads[k],
                Selects(s.q, evs[0], k.pid), Selections(c, next, evs[1..], k.pid));
    }
  }

  lemma DecayNone(alpha: real, last: int, th: Thread)
    ensures Decayed(alpha, last, th, th, 0)
  {
    assert Pow(1.0 - alpha, 0) == 1.0;
  }

  lemma DecayStep(alpha: real, last: int, before: Thread, mid: Thread, after: Thread, selected: bool, n: nat)
    requires mid.execs == before.execs && LastRan(mid, last) && Decayed(alpha, last, mid, after, n)
    requires mid.estimate == if selected then Reestimate(alpha, before).estimate else before.estimate
    ensures LastRan(before, last) && Decayed(alpha, last, before, after, (if selected then 1 else 0) + n)
  {
    assert LastBurst(before) == last;
    Decay(alpha, last as real, before.estimate, mid.estimate, selected, n);
  }

  lemma Decay(alpha: real, last: real, before: real, after: real, selected: bool, n: nat)
    requires after == if selected then alpha * last + (1.0 - alpha) * before else before
    ensures Pow(1.0 - alpha, n) * (after - last) == Pow(1.0 - alpha, (if selected then 1 else 0) + n) * (before - last)
  {
    if selected {
      var b, f := 1.0 - alpha, Pow(1.0 - alpha, n);
      assert after - last == b * (before - last);
      assert f * (b * (before - last)) == (b * f) * (before - last);
    }
  }

  lemma {:induction false} PowWithin(x: real, n: nat)
    requires 0.0 <= x <= 1.0
    ensures 0.0 <= Pow(x, n) <= 1.0
  {
    if n > 0 {
      PowWithin(x, n - 1);
      Product(x, Pow(x, n - 1), 1.0);
    }
  }

  lemma Product(f: real, x: real, bound: real)
    requires 0.0 <= f <= 1.0 && 0.0 <= x <= bound
    ensures 0.0 <= f * x <= bound
  {
    if f != 0.0 && x != 0.0 {
      assert f * x > 0.0;
    }
    if f != 1.0 && x != 0.0 {
      assert (1.0 - f) * x > 0.0;
    }
  }

  function Distance(x: real, y: real): real {
    if x < y then y - x else x - y
  }

  /** While a thread waits, its estimate never moves away from its last burst and never
      crosses to the other side of it. */
  lemma EstimateApproaches(c: Config, s: State, evs: seq<Event>, k: ThreadId, p: nat) returns (last: int)
    requires GoodConfig(c) && Safe(c, s) && Legal(c, s, evs) && At(s, k, p) && !EverRuns(c, s, evs, k)
    ensures LastRan(s.threads[k], last) && k in Run(c, s, evs).threads
    ensures Approaches(last as real, s.threads[k].estimate, Run(c, s, evs).threads[k].estimate)
  {
    hide Safe, Run, EverRuns, Selections, Legal, LastRan, Approaches;
    last := EstimateDecays(c, s, evs, k, p);
    PowWithin(1.0 - c.alpha, Selections(c, s, evs, k.pid));
    Shrinks(Pow(1.0 - c.alpha, Selections(c, s, evs, k.pid)), s.threads[k].estimate,
            Run(c, s, evs).threads[k].estimate, last as real);
  }

  ghost predicate Approaches(last: real, before: real, after: real) {
    && Distance(after, last) <= Distance(before, last)
    && (before <= last ==> after <= last) && (last <= before ==> last <= after)
  }

  lemma Shrinks(f: real, before: real, after: real, last: real)
    requires 0.0 <= f <= 1.0 && after - last == f * (before - last)
    ensures Approaches(last, before, after)
  {
    if before < last {
      Product(f, last - before, last - before);
      assert f * (last - before) == -(f * (before - last));
    } else {
      Product(f, before - last, before - last);
    }
  }

  // ----- From every reachable state

  /** Once a thread that has never run is at position `p` of its ready list, p+1 selections
      from that list are enough for it to run. */
  lemma BoundedWaitingAlways(c: Config, sems: seq<Semaphore>, before: seq<Event>, evs: seq<Event>, k: ThreadId, p: nat)
    requires GoodConfig(c) && GoodSems(sems) && Legal(c, Init(sems), before)
    requires var s := Run(c, Init(sems), before);
             Legal(c, s, evs) && At(s, k, p) && s.threads[k].execs == [] && Selections(c, s, evs, k.pid) >= p + 1
    ensures EverRuns(c, Run(c, Init(sems), before), evs, k)
  {
    hide Safe, Run, Legal, EverRuns, Selections;
    ReachableSafe(c, sems, before);
    BoundedWaiting(c, Run(c, Init(sems), before), evs, k, p);
  }

  /** The estimate of a thread that goes on waiting keeps its side of the last burst, and its
      distance to it is (1-alpha)^n of what it was, n being the selections in between. */
  lemma EstimateDecaysAlways(c: Config, sems: seq<Semaphore>, before: seq<Event>, evs: seq<Event>, k: ThreadId, p: nat)
    returns (last: int)
    requires GoodConfig(c) && GoodSems(sems) && Legal(c, Init(sems), before)
    requires var s := Run(c, Init(sems), before);
             Legal(c, s, evs) && At(s, k, p) && !EverRuns(c, s, evs, k)
    ensures var s := Run(c, Init(sems), before);
            var r, n := Run(c, s, evs), Selections(c, s, evs, k.pid);
            && LastRan(s.threads[k], last) && k in r.threads
            && var old', new' := s.threads[k].estimate, r.threads[k].estimate;
            && new' - last as real == Pow(1.0 - c.alpha, n) * (old' - last as real)
            && Approaches(last as real, old', new')
  {
    hide Safe, Run, Legal, EverRuns, Selections, LastRan, Approaches;
    ReachableSafe(c, sems, before);
    var s := Run(c, Init(sems), before);
    last := EstimateDecays(c, s, evs, k, p);
    var same := EstimateApproaches(c, s, evs, k, p);
    RanOnce(s.threads[k], last, same);
  }

  lemma RanOnce(th: Thread, a: int, b: int)
    requires LastRan(th, a) && LastRan(th, b)
    ensures a == b
  {}

  /** In every reachable state a selection gives each ready thread the exponential average of its
      last burst, from the start to the end of its last exec interval, and of its old estimate,
      leaves all other estimates alone, and takes the earliest thread with the least of them. */
  lemma SelectionAlways(c: Config, sems: seq<Semaphore>, evs: seq<Event>, pid: Pid)
    requires GoodConfig(c) && GoodSems(sems) && Legal(c, Init(sems), evs)
    requires Selects(Run(c, Init(sems), evs).q, ESchedule(pid), pid)
    ensures var s := Run(c, Init(sems), evs);
            var ready, r := s.q.prog[pid].ready, Schedule(c, s, pid);
            && r.threads.Keys == s.threads.Keys && EarliestLeast(r.threads, ready, Chosen(c, s, pid))
            && (forall k :: k in s.threads && k !in ready ==> r.threads[k].estimate == s.threads[k].estimate)
            && (forall k :: k in ready ==>
                  && k in s.threads && Averages(c.alpha, s.threads[k], r.threads[k].estimate)
                  && (s.threads[k].execs != [] ==> s.threads[k].execs[|s.threads[k].execs| - 1].end.Some?))
  {
    hide Safe, Run, Legal, Schedule, Structure, EarliestLeast, Chosen, OnePass, Averages, At;
    ReachableSafe(c, sems, evs);
    var s := Run(c, Init(sems), evs);
    var ready := s.q.prog[pid].ready;
    SafeStructure(c, s);
    SelectionIsArgmin(c, s, pid);
    PassKeys(c.alpha, s.threads, Schedule(c, s, pid).threads, ready);
    forall k | k in ready
      ensures k in s.threads && (s.threads[k].execs != [] ==> s.threads[k].execs[|s.threads[k].execs| - 1].end.Some?)
    {
      ReadyFinished(c, s, pid, k);
    }
  }

  lemma ReadyFinished(c: Config, s: State, pid: Pid, k: ThreadId)
    requires Safe(c, s) && pid in s.q.prog && k in s.q.prog[pid].ready
    ensures k in s.threads && (s.threads[k].execs != [] ==> s.threads[k].execs[|s.threads[k].execs| - 1].end.Some?)
  {
    hide Safe, Structure;
    SafeStructure(c, s);
    var p := IndexOf(s.q.prog[pid].ready, k);
    ReadyOf(s.q, pid, p);
    var last := RanBefore(c, s, k, p);
  }

  lemma PassKeys(alpha: real, before: map<ThreadId, Thread>, after: map<ThreadId, Thread>, ready: seq<ThreadId>)
    requires OnePass(alpha, before, after, ready)
    ensures before.Keys == after.Keys
    ensures forall k :: k in before && k in ready ==> Averages(alpha, before[k], after[k].estimate)
    ensures forall k :: k in before && k !in ready ==> after[k].estimate == before[k].estimate
  {
    hide Averages;
  }

  /** Shortest job first: among ready threads with the same old estimate a selection takes one
      with the shortest last burst. */
  lemma ShortestBurstFirst(c: Config, sems: seq<Semaphore>, evs: seq<Event>, pid: Pid, j: ThreadId)
    returns (chosen: ThreadId, mine: int, other: int)
    requires GoodConfig(c) && GoodSems(sems) && Legal(c, Init(sems), evs) && c.alpha > 0.0
    requires var s := Run(c, Init(sems), evs); Selects(s.q, ESchedule(pid), pid) && j in s.q.prog[pid].ready
    ensures var s := Run(c, Init(sems), evs);
            && Schedule(c, s, pid).q.prog.Keys == s.q.prog.Keys && Schedule(c, s, pid).q.prog[pid].exec == Some(chosen)
            && chosen in s.threads && j in s.threads
            && LastRan(s.threads[chosen], mine) && LastRan(s.threads[j], other)
            && (s.threads[chosen].estimate == s.threads[j].estimate ==> mine <= other)
  {
    hide Safe, Run, Legal, Schedule, Structure, Chosen, Ns;
    ReachableSafe(c, sems, evs);
    var s := Run(c, Init(sems), evs);
    var ready, r := s.q.prog[pid].ready, Schedule(c, s, pid);
    SafeStructure(c, s);
    SelectionMoves(c, s, pid);
    SelectionIsArgmin(c, s, pid);
    var i, p := Chosen(c, s, pid), IndexOf(ready, j);
    chosen := ready[i];
    ReadyOf(s.q, pid, i);
    ReadyOf(s.q, pid, p);
    mine := RanBefore(c, s, chosen, i);
    other := RanBefore(c, s, j, p);
    PassKeys(c.alpha, s.threads, r.threads, ready);
    Shorter(c.alpha, s.threads[chosen], r.threads[chosen].estimate, mine, s.threads[j], r.threads[j].estimate, other);
  }

  /** The average grows with the burst. */
  lemma Shorter(alpha: real, a: Thread, x: real, m: int, b: Thread, y: real, n: int)
    requires alpha > 0.0 && Averages(alpha, a, x) && Averages(alpha, b, y) && LastRan(a, m) && LastRan(b, n) && x <= y
    ensures a.estimate == b.estimate ==> m <= n
  {
    assert x == alpha * m as real + (1.0 - alpha) * a.estimate;
    assert y == alpha * n as real + (1.0 - alpha) * b.estimate;
    if a.estimate == b.estimate && m > n {
      Greater(alpha, m as real, n as real);
    }
  }

  lemma Greater(alpha: real, m: real, n: real)
    requires alpha > 0.0 && m > n
    ensures alpha * m > alpha * n
  {}
}

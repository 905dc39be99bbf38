/** The interval that a thread is in has no end until something ends it. */
module OpenEnds {
  import opened Lists
  import opened Timespecs
  import opened Model
  import opened Ops
  import opened Invariant
  import opened Timeline
  import opened Runs

  ghost predicate OpenAtEnd(vs: seq<Interval>) {
    vs != [] && vs[|vs| - 1].end == None
  }

  /** A ready thread is in its last ready interval, a running one in its last exec interval,
      and that interval has no end yet. */
  ghost predicate OpenEnd(s: State, k: ThreadId) {
    k in s.threads && k in s.q.place ==>
      && (s.q.place[k] == Ready ==> OpenAtEnd(s.threads[k].readys))
      && (s.q.place[k] == Exec ==> OpenAtEnd(s.threads[k].execs))
  }

  lemma ScheduleOpens(c: Config, s: State, pid: Pid, k: ThreadId)
    requires Structure(s.q) && s.threads.Keys == s.q.place.Keys && OpenEnd(s, k)
    ensures OpenEnd(Schedule(c, s, pid), k)
  {
    hide Structure, Choose;
    if pid in s.q.prog {
      ReadyPlaces(s.q, pid);
      if s.q.prog[pid].exec.Some? {
        ExecOf(s.q, pid);
      }
    }
  }

  lemma ExitOpens(c: Config, s: State, e: ThreadId, k: ThreadId)
    requires Structure(s.q) && s.threads.Keys == s.q.place.Keys && OpenEnd(s, k) && e in s.q.place
        && s.q.place[e] == Exec
    ensures OpenEnd(Exit(c, s, e), k)
  {
    hide Structure;
    JoinedPlaces(s.q, e);
  }

  lemma ReapOpens(s: State, pid: Pid, k: ThreadId)
    requires OpenEnd(s, k)
    ensures OpenEnd(Reap(s, pid), k)
  {}

  lemma DistributeOpens(c: Config, s: State, k: ThreadId)
    requires Structure(s.q) && s.threads.Keys == s.q.place.Keys && OpenEnd(s, k)
    ensures OpenEnd(Distribute(c, s), k)
  {
    hide Structure;
    if s.q.newList != [] {
      var i := FirstRunnable(s.q.newList, s.q.prog);
      NewOf(s.q, if i < |s.q.newList| then i else 0);
    }
  }

  lemma CloseOpens(c: Config, s: State, pid: Pid, tid: int, k: ThreadId)
    requires GoodConfig(c) && Safe(c, s) && Enabled(s.q, EClose(pid, tid)) && OpenEnd(s, k)
    ensures OpenEnd(Step(c, s, EClose(pid, tid)), k)
  {
    hide Structure, Ordered, TargetsLive, Dormant, AskingIdle, AllAlive, ThreadOk, Exit, Reap, Distribute, OpenEnd;
    var e := s.q.prog[pid].exec.value;
    if e.tid == tid {
      ExecOf(s.q, pid);
      var s1, s2 := Exit(c, s, e), Reap(Exit(c, s, e), pid);
      ExitOpens(c, s, e, k);
      ExitKeeps(c, s, e);
      ReapOpens(s1, pid, k);
      ReapKeeps(s1, pid);
      ExitTimes(c, s, e);
      ReapTimes(c, s1, pid);
      DistributeOpens(c, s2, k);
      SentOpens(Distribute(c, s2), Step(c, s, EClose(pid, tid)), k);
    } else {
      SentOpens(s, Step(c, s, EClose(pid, tid)), k);
    }
  }

  lemma SentOpens(s: State, r: State, k: ThreadId)
    requires OpenEnd(s, k) && r.q == s.q && r.threads == s.threads
    ensures OpenEnd(r, k)
  {}

  lemma SignalOpens(c: Config, s: State, pid: Pid, id: string, k: ThreadId)
    requires Structure(s.q) && s.threads.Keys == s.q.place.Keys && FindSem(s.q.sems, id) < |s.q.sems| && OpenEnd(s, k)
    ensures OpenEnd(Signal(c, s, pid, id), k)
  {
    hide Structure, FindSem, WithReady;
    if s.q.sems[FindSem(s.q.sems, id)].queue != [] {
      QueueHead(s.q, FindSem(s.q.sems, id));
    }
  }

  lemma OtherOpens(c: Config, s: State, ev: Event, k: ThreadId)
    requires Structure(s.q) && s.threads.Keys == s.q.place.Keys && Enabled(s.q, ev) && OpenEnd(s, k)
    requires !ev.EClose? && !ev.ESchedule? && !ev.EMetrics?
    ensures OpenEnd(Step(c, s, ev), k)
  {
    hide Structure, Waiting, Grade, WithReady, WithExec, WithoutExec, Signal, FindSem;
    match ev
    case EJoin(pid, tid) => ExecOf(s.q, pid);
    case EWait(pid, tid, id) => ExecOf(s.q, pid);
    case ESignal(pid, tid, id) => SignalOpens(c, s, pid, id, k);
    case _ =>
  }

  lemma StepOpens(c: Config, s: State, ev: Event, k: ThreadId)
    requires GoodConfig(c) && Safe(c, s) && Enabled(s.q, ev) && !ev.EMetrics? && OpenEnd(s, k)
    ensures OpenEnd(Step(c, s, ev), k)
  {
    hide Safe, OpenEnd, Structure, Schedule;
    KeysAgree(c, s);
    if ev.EClose? {
      CloseOpens(c, s, ev.pid, ev.tid, k);
    } else if ev.ESchedule? {
      ScheduleOpens(c, s, ev.pid, k);
    } else {
      OtherOpens(c, s, ev, k);
    }
  }

  lemma KeysAgree(c: Config, s: State)
    requires Safe(c, s)
    ensures Structure(s.q) && s.threads.Keys == s.q.place.Keys
  {}

  /** Once a thread's interval is open, or while it is in none, only a metrics report closes
      the one it is in: without a report it is open for as long as the thread is ready or runs. */
  lemma {:induction false} RunOpens(c: Config, s: State, evs: seq<Event>, k: ThreadId)
    requires GoodConfig(c) && Safe(c, s) && Legal(c, s, evs) && OpenEnd(s, k)
    requires forall ev :: ev in evs ==> !ev.EMetrics?
    ensures OpenEnd(Run(c, s, evs), k)
    decreases |evs|
  {
    hide Safe, Step, Enabled, OpenEnd;
    if evs != [] {
      assert evs[0] in evs && forall ev :: ev in evs[1..] ==> ev in evs;
      StepOpens(c, s, evs[0], k);
      StepSafe(c, s, evs[0]);
      RunOpens(c, Step(c, s, evs[0]), evs[1..], k);
    }
  }

  /** Take any reachable state in which a thread is not ready and does not run, perhaps because
      it does not exist yet, or is in an open interval. As long as no metrics report comes
      after it, the thread has an open interval exactly when it is ready or runs: the last one
      of the right list, and no other. */
  lemma OpenExactly(c: Config, sems: seq<Semaphore>, before: seq<Event>, evs: seq<Event>, k: ThreadId)
    requires GoodConfig(c) && GoodSems(sems) && Legal(c, Init(sems), before)
        && Legal(c, Run(c, Init(sems), before), evs)
    requires forall ev :: ev in evs ==> !ev.EMetrics?
    requires OpenEnd(Run(c, Init(sems), before), k) && k in Run(c, Run(c, Init(sems), before), evs).threads
    ensures var r := Run(c, Run(c, Init(sems), before), evs);
            && k in r.q.place
            && var th, w := r.threads[k], r.q.place[k];
            && (forall i :: 0 <= i < |th.execs| ==> (th.execs[i].end == None <==> w == Exec && i == |th.execs| - 1))
            && (forall i :: 0 <= i < |th.readys| ==> (th.readys[i].end == None <==> w == Ready && i == |th.readys| - 1))
            && (w == Exec ==> th.execs != []) && (w == Ready ==> th.readys != [])
  {
    hide Run, Legal, Safe, OpenEnd;
    ReachableSafe(c, sems, before);
    var s := Run(c, Init(sems), before);
    RunOpens(c, s, evs, k);
    RunSafe(c, s, evs);
    OpenOnly(c, Run(c, s, evs), k);
  }

  lemma OpenOnly(c: Config, s: State, k: ThreadId)
    requires Safe(c, s) && OpenEnd(s, k) && k in s.threads
    ensures k in s.q.place
    ensures var th, w := s.threads[k], s.q.place[k];
            && (forall i :: 0 <= i < |th.execs| ==> (th.execs[i].end == None <==> w == Exec && i == |th.execs| - 1))
            && (forall i :: 0 <= i < |th.readys| ==> (th.readys[i].end == None <==> w == Ready && i == |th.readys| - 1))
            && (w == Exec ==> th.execs != []) && (w == Ready ==> th.readys != [])
  {
    hide Structure, EstimateOk, InOrder, Disjoint, SumLengths;
    var th, w := s.threads[k], s.q.place[k];
    assert ThreadOk(th, w, Ns(c.clock(s.ticks)));
    if w == Exec {
      forall i | 0 <= i < |th.execs| - 1 ensures th.execs[i].end.Some? {
        assert Closed(Front(th.execs)[i], Ns(th.start), Ns(th.execs[|th.execs| - 1].start));
      }
    } else if w == Ready {
      forall i | 0 <= i < |th.readys| - 1 ensures th.readys[i].end.Some? {
        assert Closed(Front(th.readys)[i], Ns(th.start), Ns(th.readys[|th.readys| - 1].start));
      }
    }
  }
}

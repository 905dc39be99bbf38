/** The times a metrics report shows for one thread. */
module Reports {
  import opened Timespecs
  import opened Model
  import opened Ops
  import opened Invariant
  import opened Timeline
  import opened Runs

  /** The intervals of a thread once the report has ended the one that it is in. */
  function Shown(th: Thread, w: Place, end: Timespec): Thread {
    match w
    case Ready => th.(readys := Ended(th.readys, end))
    case Exec => th.(execs := Ended(th.execs, end))
    case _ => th
  }

  /** In milliseconds: time since creation, time spent ready, time spent running. */
  datatype Times = Times(total: int, waiting: int, cpu: int)

  /** The exact values at the instant `end`, rounded down. */
  function TrueTimes(th: Thread, w: Place, end: Timespec): Times {
    Times((Ns(end) - Ns(th.start)) / 1_000_000,
          SumUntil(th.readys, w == Ready, Ns(end)) / 1_000_000,
          SumUntil(th.execs, w == Exec, Ns(end)) / 1_000_000)
  }

  lemma SumEnded(vs: seq<Interval>, end: Timespec)
    ensures SumLengths(Ended(vs, end)) == SumUntil(vs, true, Ns(end))
  {
    if vs != [] {
      assert Ended(vs, end)[..|vs| - 1] == vs[..|vs| - 1];
    }
  }

  lemma {:induction false} SumOfClosed(vs: seq<Interval>, from: int, to: int)
    requires AllClosed(vs, from, to)
    ensures SumLengths(vs) >= 0
  {
    if vs != [] {
      assert Closed(vs[|vs| - 1], from, to);
      SumOfClosed(vs[..|vs| - 1], from, to);
    }
  }

  lemma ShownSettled(th: Thread, w: Place, t: int, end: Timespec)
    requires ThreadOk(th, w, t) && t <= Ns(end) && Normal(end)
    ensures Settled(th.start, Shown(th, w, end).execs, Shown(th, w, end).readys, Ns(end))
  {
    if w == Exec {
      StopsRunning(th, t, end);
    } else if w == Ready {
      StopsWaiting(th, t, end);
    } else {
      SettledLater(th.start, th.execs, th.readys, t, Ns(end));
    }
  }

  lemma RoundedTwice(total: int, waiting: int, cpu: int)
    requires 0 <= waiting && 0 <= cpu && waiting + cpu <= total
    ensures total / 1000 / 1000 == total / 1_000_000
    ensures waiting / 1000 / 1000 == waiting / 1_000_000 && cpu / 1000 / 1000 == cpu / 1_000_000
    ensures 0 <= waiting / 1_000_000 && 0 <= cpu / 1_000_000
        && waiting / 1_000_000 + cpu / 1_000_000 <= total / 1_000_000
  {}

  /** Three sums, each in its own accumulator. The divisions round down twice, first to
      microseconds, then to milliseconds; what comes out is the exact value rounded down
      once, and waiting plus running never exceeds the total. */
  method ThreadTimes(th: Thread, w: Place, ghost t: int, end: Timespec) returns (shown: Thread, times: Times)
    requires ThreadOk(th, w, t) && t <= Ns(end) && Normal(end)
    ensures shown == Shown(th, w, end) && times == TrueTimes(th, w, end)
    ensures 0 <= times.waiting && 0 <= times.cpu && times.waiting + times.cpu <= times.total
  {
    hide Closed, AllClosed, Normal, ThreadOk, InOrder, Disjoint, SumLengths, Ns;
    SumEnded(th.execs, end);
    SumEnded(th.readys, end);
    ShownSettled(th, w, t, end);
    shown := th;
    if w == Ready {
      shown := shown.(readys := EndLast(shown.readys, end));
    } else if w == Exec {
      shown := shown.(execs := EndLast(shown.execs, end));
    }
    AllEnds(shown.execs, Ns(th.start), Ns(end));
    AllEnds(shown.readys, Ns(th.start), Ns(end));
    SumOfClosed(shown.execs, Ns(th.start), Ns(end));
    SumOfClosed(shown.readys, Ns(th.start), Ns(end));
    var onPlanner := new Accumulator();
    var onReady := new Accumulator();
    var onCpu := new Accumulator();
    onPlanner.TimeDiff(th.start, end);
    onReady.AddIntervals(shown.readys);
    onCpu.AddIntervals(shown.execs);
    var total := onPlanner.ToUs();
    var waiting := onReady.ToUs();
    var cpu := onCpu.ToUs();
    RoundedTwice(Ns(end) - Ns(th.start), SumLengths(shown.readys), SumLengths(shown.execs));
    times := Times(total / 1000, waiting / 1000, cpu / 1000);
  }

  lemma AllEnds(vs: seq<Interval>, from: int, to: int)
    requires AllClosed(vs, from, to)
    ensures forall v :: v in vs ==> v.end.Some? && Normal(v.start) && Normal(v.end.value)
  {}

  /** Over every run: at the next clock reading the intervals of every thread that exists,
      with the one it is in ended there, are disjoint, in order, after its creation, and
      together not longer than the time since then. A ready or running thread is in the last
      interval of the right list; all other intervals have ended before. */
  lemma TimelineAlways(c: Config, sems: seq<Semaphore>, evs: seq<Event>, k: ThreadId)
    requires GoodConfig(c) && GoodSems(sems) && Legal(c, Init(sems), evs) && k in Run(c, Init(sems), evs).threads
    ensures var r := Run(c, Init(sems), evs);
            && k in r.q.place
            && var now, th := c.clock(r.ticks), r.threads[k];
            && var shown := Shown(th, r.q.place[k], now);
            && (forall v :: v in shown.execs + shown.readys ==>
                  v.end.Some? && Ns(th.start) <= Ns(v.start) <= Ns(v.end.value) <= Ns(now))
            && InOrder(shown.execs) && InOrder(shown.readys) && Disjoint(shown.execs, shown.readys)
            && SumLengths(shown.execs) + SumLengths(shown.readys) <= Ns(now) - Ns(th.start)
            && (r.q.place[k] == Ready ==> th.readys != []) && (r.q.place[k] == Exec ==> th.execs != [])
            && (r.q.place[k] != Ready ==> th.readys == shown.readys)
                 && (r.q.place[k] != Exec ==> th.execs == shown.execs)
  {
    hide Run, Legal, QueueInv, ThreadOk;
    ReachableSafe(c, sems, evs);
    var r := Run(c, Init(sems), evs);
    SettledFacts(r.threads[k], r.q.place[k], Ns(c.clock(r.ticks)), c.clock(r.ticks));
  }

  lemma SettledFacts(th: Thread, w: Place, t: int, now: Timespec)
    requires ThreadOk(th, w, t) && t <= Ns(now) && Normal(now)
    ensures var shown := Shown(th, w, now);
            && (forall v :: v in shown.execs + shown.readys ==>
                  v.end.Some? && Ns(th.start) <= Ns(v.start) <= Ns(v.end.value) <= Ns(now))
            && InOrder(shown.execs) && InOrder(shown.readys) && Disjoint(shown.execs, shown.readys)
            && SumLengths(shown.execs) + SumLengths(shown.readys) <= Ns(now) - Ns(th.start)
            && (w == Ready ==> th.readys != []) && (w == Exec ==> th.execs != [])
  {
    hide Closed, Settled, InOrder, Disjoint, SumLengths, Shown, EstimateOk, Ns;
    ShownSettled(th, w, t, now);
    SettledMeans(th.start, Shown(th, w, now).execs, Shown(th, w, now).readys, now);
  }
}

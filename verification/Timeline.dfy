/** The exec and ready intervals of every thread: disjoint, ordered, after its
    creation, with exactly one open interval, in the place where it belongs. */
module Timeline {
  import opened Lists
  import opened Timespecs
  import opened Model
  import opened Ops
  import opened Invariant

  /** The interval has both ends, lies within [from, to] and does not run backwards. */
  ghost predicate Closed(v: Interval, from: int, to: int) {
    v.end.Some? && Normal(v.start) && Normal(v.end.value) && from <= Ns(v.start) <= Ns(v.end.value) <= to
  }

  ghost predicate AllClosed(vs: seq<Interval>, from: int, to: int) {
    forall i :: 0 <= i < |vs| ==> Closed(vs[i], from, to)
  }

  ghost predicate Before(v: Interval, w: Interval) {
    v.end.Some? && Ns(v.end.value) <= Ns(w.start)
  }

  ghost predicate InOrder(vs: seq<Interval>) {
    forall i, j :: 0 <= i < j < |vs| ==> Before(vs[i], vs[j])
  }

  ghost predicate Disjoint(vs: seq<Interval>, ws: seq<Interval>) {
    forall i, j :: 0 <= i < |vs| && 0 <= j < |ws| ==> Before(vs[i], ws[j]) || Before(ws[j], vs[i])
  }

  /** No open interval; everything happened between `start` and `t`, and the time
      run plus the time waited does not exceed the time in between. */
  ghost predicate Settled(start: Timespec, execs: seq<Interval>, readys: seq<Interval>, t: int) {
    && Normal(start) && Ns(start) <= t
    && AllClosed(execs, Ns(start), t) && AllClosed(readys, Ns(start), t)
    && InOrder(execs) && InOrder(readys) && Disjoint(execs, readys)
    && Ns(start) + SumLengths(execs) + SumLengths(readys) <= t
  }

  /** The last interval is the open one. */
  ghost predicate OpenLast(vs: seq<Interval>, t: int) {
    vs != [] && Normal(vs[|vs| - 1].start) && Ns(vs[|vs| - 1].start) <= t
  }

  function Front(vs: seq<Interval>): seq<Interval>
    requires vs != []
  {
    vs[..|vs| - 1]
  }

  ghost predicate Running(th: Thread, t: int) {
    OpenLast(th.execs, t) && Settled(th.start, Front(th.execs), th.readys, Ns(th.execs[|th.execs| - 1].start))
  }

  ghost predicate Waits(th: Thread, t: int) {
    OpenLast(th.readys, t) && Settled(th.start, th.execs, Front(th.readys), Ns(th.readys[|th.readys| - 1].start))
  }

  ghost predicate TimesOk(th: Thread, w: Place, t: int) {
    match w
    case New => Settled(th.start, th.execs, th.readys, t) && th.execs == [] && th.readys == []
    case Ready => Waits(th, t)
    case Exec => Running(th, t)
    case _ => Settled(th.start, th.execs, th.readys, t)
  }

  /** The longest burst of the list, in microseconds. */
  function Longest(vs: seq<Interval>): int {
    if vs == [] then 0
    else
      var l, m := Longest(Front(vs)), Length(vs[|vs| - 1]) / 1000;
      if l < m then m else l
  }

  /** The finished bursts of a thread: while it runs, the last one is not finished. */
  function Bursts(th: Thread, w: Place): seq<Interval> {
    if w == Exec && th.execs != [] then Front(th.execs) else th.execs
  }

  /** The estimate lies between 0 and the longest burst so far. */
  ghost predicate EstimateOk(th: Thread, w: Place) {
    0.0 <= th.estimate <= Longest(Bursts(th, w)) as real
  }

  ghost predicate ThreadOk(th: Thread, w: Place, t: int) {
    TimesOk(th, w, t) && EstimateOk(th, w)
  }

  ghost predicate AllOk(threads: map<ThreadId, Thread>, place: map<ThreadId, Place>, t: int) {
    && (forall k :: k in threads <==> k in place)
    && (forall k :: k in threads ==> ThreadOk(threads[k], place[k], t))
  }

  ghost predicate TimeInv(c: Config, s: State) {
    AllOk(s.threads, s.q.place, Ns(c.clock(s.ticks)))
  }

  // ----- One stamp

  lemma SettledLater(start: Timespec, execs: seq<Interval>, readys: seq<Interval>, t: int, u: int)
    requires Settled(start, execs, readys, t) && t <= u
    ensures Settled(start, execs, readys, u)
  {}

  lemma ThreadOkLater(th: Thread, w: Place, t: int, u: int)
    requires ThreadOk(th, w, t) && t <= u
    ensures ThreadOk(th, w, u)
  {}

  lemma Starts(th: Thread, t: int, u: Timespec)
    requires Settled(th.start, th.execs, th.readys, t) && t <= Ns(u) && Normal(u)
    ensures EstimateOk(th, Exited)
        ==> EstimateOk(Stamped(th, StartExec, u), Exec) && EstimateOk(Stamped(th, StartReady, u), Ready)
    ensures Running(Stamped(th, StartExec, u), Ns(u))
    ensures Waits(Stamped(th, StartReady, u), Ns(u))
  {
    SettledLater(th.start, th.execs, th.readys, t, Ns(u));
    assert Front(th.execs + [Interval(u, None)]) == th.execs;
    assert Front(th.readys + [Interval(u, None)]) == th.readys;
  }

  lemma StopsRunning(th: Thread, t: int, u: Timespec)
    requires Running(th, t) && t <= Ns(u) && Normal(u)
    ensures Settled(th.start, EndLast(th.execs, u), th.readys, Ns(u))
    ensures EstimateOk(th, Exec) ==> EstimateOk(Stamped(th, EndExec, u), Exited)
  {
    var n := |th.execs| - 1;
    var ended := EndLast(th.execs, u);
    assert Front(ended) == Front(th.execs) && ended[n] == Interval(th.execs[n].start, Some(u));
    assert forall i :: 0 <= i < n ==> ended[i] == Front(th.execs)[i];
  }

  lemma StopsWaiting(th: Thread, t: int, u: Timespec)
    requires Waits(th, t) && t <= Ns(u) && Normal(u)
    ensures Settled(th.start, th.execs, EndLast(th.readys, u), Ns(u))
  {
    var n := |th.readys| - 1;
    var ended := EndLast(th.readys, u);
    assert Front(ended) == Front(th.readys) && ended[n] == Interval(th.readys[n].start, Some(u));
    assert forall i :: 0 <= i < n ==> ended[i] == Front(th.readys)[i];
  }

  /** A metrics report writes the open end and changes nothing else. */
  lemma MetricsKeeps(th: Thread, t: int, u: Timespec)
    ensures Running(th, t) ==> Running(Stamped(th, EndExec, u), t)
    ensures Waits(th, t) ==> Waits(Stamped(th, EndReady, u), t)
    ensures Running(th, t) && EstimateOk(th, Exec) ==> EstimateOk(Stamped(th, EndExec, u), Exec)
    ensures EstimateOk(th, Ready) ==> EstimateOk(Stamped(th, EndReady, u), Ready)
  {
    if th.execs != [] {
      assert Front(EndLast(th.execs, u)) == Front(th.execs);
    }
    if th.readys != [] {
      assert Front(EndLast(th.readys, u)) == Front(th.readys);
    }
  }

  /** From waiting to running, and the reverse, at one clock reading. */
  lemma Dispatched(th: Thread, t: int, u: Timespec)
    requires Waits(th, t) && t <= Ns(u) && Normal(u) && EstimateOk(th, Ready)
    ensures EstimateOk(Stamped(Stamped(th, StartExec, u), EndReady, u), Exec)
    ensures Running(Stamped(Stamped(th, StartExec, u), EndReady, u), Ns(u))
  {
    hide Settled, Longest;
    StopsWaiting(th, t, u);
    Starts(Stamped(th, EndReady, u), Ns(u), u);
  }

  lemma Preempted(th: Thread, t: int, u: Timespec)
    requires Running(th, t) && t <= Ns(u) && Normal(u) && EstimateOk(th, Exec)
    ensures EstimateOk(Stamped(Stamped(th, EndExec, u), StartReady, u), Ready)
    ensures EstimateOk(Stamped(Stamped(th, EndExec, u), StartExec, u), Exec)
    ensures Waits(Stamped(Stamped(th, EndExec, u), StartReady, u), Ns(u))
    ensures Running(Stamped(Stamped(th, EndExec, u), StartExec, u), Ns(u))
  {
    hide Settled, Longest, EstimateOk;
    StopsRunning(th, t, u);
    Starts(Stamped(th, EndExec, u), Ns(u), u);
  }

  // ----- One thread changing place

  lemma OkLater(threads: map<ThreadId, Thread>, place: map<ThreadId, Place>, t: int, u: int)
    requires AllOk(threads, place, t) && t <= u
    ensures AllOk(threads, place, u)
  {
    forall k | k in threads ensures ThreadOk(threads[k], place[k], u) {
      ThreadOkLater(threads[k], place[k], t, u);
    }
  }

  lemma OkUpdate(threads: map<ThreadId, Thread>, place: map<ThreadId, Place>, k: ThreadId, th: Thread, w: Place, t: int)
    requires AllOk(threads, place, t) && ThreadOk(th, w, t)
    ensures AllOk(threads[k := th], place[k := w], t)
  {}

  lemma OkStartExec(threads: map<ThreadId, Thread>, place: map<ThreadId, Place>, k: ThreadId, t: Timespec)
    requires AllOk(threads, place, Ns(t)) && Normal(t) && k in place && place[k] !in {Exec, Ready}
    ensures AllOk(Mark(threads, k, StartExec, t), place[k := Exec], Ns(t))
  {
    hide Settled, Longest, Running;
    Starts(threads[k], Ns(t), t);
    OkUpdate(threads, place, k, Stamped(threads[k], StartExec, t), Exec, Ns(t));
  }

  lemma OkStartReady(threads: map<ThreadId, Thread>, place: map<ThreadId, Place>, k: ThreadId, t: Timespec)
    requires AllOk(threads, place, Ns(t)) && Normal(t) && k in place && place[k] !in {Exec, Ready}
    ensures AllOk(Mark(threads, k, StartReady, t), place[k := Ready], Ns(t))
  {
    hide Settled, Longest, Waits;
    Starts(threads[k], Ns(t), t);
    OkUpdate(threads, place, k, Stamped(threads[k], StartReady, t), Ready, Ns(t));
  }

  lemma OkEndExec(threads: map<ThreadId, Thread>, place: map<ThreadId, Place>, k: ThreadId, w: Place, t: Timespec)
    requires AllOk(threads, place, Ns(t)) && Normal(t) && k in place && place[k] == Exec && w !in {New, Exec, Ready}
    ensures AllOk(Mark(threads, k, EndExec, t), place[k := w], Ns(t))
  {
    hide Settled, Longest, Running, OpenLast;
    StopsRunning(threads[k], Ns(t), t);
    OkUpdate(threads, place, k, Stamped(threads[k], EndExec, t), w, Ns(t));
  }

  lemma OkPreempt(threads: map<ThreadId, Thread>, place: map<ThreadId, Place>, k: ThreadId, t: Timespec)
    requires AllOk(threads, place, Ns(t)) && Normal(t) && k in place && place[k] == Exec
    ensures AllOk(Mark(Mark(threads, k, EndExec, t), k, StartReady, t), place[k := Ready], Ns(t))
    ensures AllOk(Mark(Mark(threads, k, EndExec, t), k, StartExec, t), place, Ns(t))
  {
    hide Settled, Longest, Running, Waits, EstimateOk;
    Preempted(threads[k], Ns(t), t);
    var th := Stamped(threads[k], EndExec, t);
    OkUpdate(threads, place, k, Stamped(th, StartReady, t), Ready, Ns(t));
    OkUpdate(threads, place, k, Stamped(th, StartExec, t), Exec, Ns(t));
    assert place[k := Exec] == place;
    assert Mark(Mark(threads, k, EndExec, t), k, StartReady, t) == threads[k := Stamped(th, StartReady, t)];
    assert Mark(Mark(threads, k, EndExec, t), k, StartExec, t) == threads[k := Stamped(th, StartExec, t)];
  }

  lemma OkDispatch(threads: map<ThreadId, Thread>, place: map<ThreadId, Place>, k: ThreadId, t: Timespec)
    requires AllOk(threads, place, Ns(t)) && Normal(t) && k in place && place[k] == Ready
    ensures AllOk(Mark(Mark(threads, k, StartExec, t), k, EndReady, t), place[k := Exec], Ns(t))
  {
    hide Settled, Longest, Running, Waits, EstimateOk;
    Dispatched(threads[k], Ns(t), t);
    var th := Stamped(Stamped(threads[k], StartExec, t), EndReady, t);
    OkUpdate(threads, place, k, th, Exec, Ns(t));
    assert Mark(Mark(threads, k, StartExec, t), k, EndReady, t) == threads[k := th];
  }

  lemma Scale(a: real, x: real, top: real)
    requires 0.0 <= a && 0.0 <= x <= top
    ensures 0.0 <= a * x <= a * top
  {}

  lemma Sums(p: real, q: real, u: real, v: real)
    requires 0.0 <= p <= u && 0.0 <= q <= v
    ensures 0.0 <= p + q <= u + v
  {}

  lemma Mix(a: real, b: real, x: real, y: real, top: real)
    requires 0.0 <= a && 0.0 <= b && a + b == 1.0 && 0.0 <= x <= top && 0.0 <= y <= top
    ensures 0.0 <= a * x + b * y <= top
  {
    Scale(a, x, top);
    Scale(b, y, top);
    Sums(a * x, b * y, a * top, b * top);
    assert b == 1.0 - a && b * top == top - a * top;
  }

  /** A new estimate does not touch the intervals, and stays within the bursts. */
  lemma ReestimateOk(alpha: real, th: Thread, t: int)
    requires ThreadOk(th, Ready, t) && 0.0 <= alpha <= 1.0
    ensures ThreadOk(Reestimate(alpha, th), Ready, t)
  {
    hide Settled, LastBurst, Longest, OpenLast;
    BurstWithin(th, t);
    Mix(alpha, 1.0 - alpha, LastBurst(th) as real, th.estimate, Longest(th.execs) as real);
  }

  lemma BurstWithin(th: Thread, t: int)
    requires Waits(th, t)
    ensures 0 <= LastBurst(th) <= Longest(th.execs)
  {
    if th.execs != [] {
      assert Closed(th.execs[|th.execs| - 1], Ns(th.start), Ns(th.readys[|th.readys| - 1].start));
    }
  }

  lemma OkReestimated(alpha: real, threads: map<ThreadId, Thread>, place: map<ThreadId, Place>,
      ready: seq<ThreadId>, t: int)
    requires AllOk(threads, place, t) && 0.0 <= alpha <= 1.0
    requires forall k :: k in ready ==> k in place && place[k] == Ready
    ensures AllOk(Reestimated(alpha, threads, ready), place, t)
  {
    hide TimesOk, EstimateOk;
    forall k | k in threads && k in ready ensures ThreadOk(Reestimate(alpha, threads[k]), place[k], t) {
      ReestimateOk(alpha, threads[k], t);
    }
  }

  lemma ReleasedOk(th: Thread, t: int, now: Timespec, u: int)
    requires ThreadOk(th, Joined, t) && t <= Ns(now) <= u && Normal(now)
    ensures ThreadOk(Stamped(th, StartReady, now), Ready, u)
  {
    hide Settled, Longest;
    Starts(th, t, now);
    ThreadOkLater(Stamped(th, StartReady, now), Ready, Ns(now), u);
  }

  /** The threads a close releases, one clock reading after the other. */
  lemma OkReleased(c: Config, threads: map<ThreadId, Thread>, place: map<ThreadId, Place>, released: seq<ThreadId>,
      ticks: nat)
    requires GoodConfig(c) && AllOk(threads, place, Ns(c.clock(ticks)))
    requires forall j :: j in released ==> j in place && place[j] == Joined
    ensures AllOk(MarkReleased(c, threads, released, ticks), AllReady(place, released), Ns(c.clock(ticks + |released|)))
  {
    hide ThreadOk, Stamped, IndexOf;
    var u := Ns(c.clock(ticks + |released|));
    forall k | k in threads
      ensures ThreadOk(MarkReleased(c, threads, released, ticks)[k], AllReady(place, released)[k], u)
    {
      var t := c.clock(ticks + IndexOf(released, k));
      assert Ns(c.clock(ticks)) <= Ns(t) <= u && Normal(t);
      if k in released {
        ReleasedOk(threads[k], Ns(c.clock(ticks)), t, u);
      } else {
        ThreadOkLater(threads[k], place[k], Ns(c.clock(ticks)), u);
      }
    }
  }

  lemma MarksCommute(threads: map<ThreadId, Thread>, k: ThreadId, m: Stamp, e: ThreadId, n: Stamp, t: Timespec)
    requires k != e
    ensures Mark(Mark(threads, k, m, t), e, n, t) == Mark(Mark(threads, e, n, t), k, m, t)
  {}

  // ----- Each operation

  lemma Tick(c: Config, s: State, threads: map<ThreadId, Thread>, place: map<ThreadId, Place>, n: nat, m: nat)
    requires GoodConfig(c) && n <= m && AllOk(threads, place, Ns(c.clock(n)))
    ensures AllOk(threads, place, Ns(c.clock(m)))
  {
    OkLater(threads, place, Ns(c.clock(n)), Ns(c.clock(m)));
  }

  /** A thread just created, in NEW or with its first interval. */
  lemma BornOk(born: Thread, now: Timespec, t: Timespec)
    requires born == Thread(now, 0.0, [], []) && Normal(now) && Normal(t) && Ns(now) <= Ns(t)
    ensures ThreadOk(born, New, Ns(now))
    ensures ThreadOk(Stamped(born, StartReady, t), Ready, Ns(t)) && ThreadOk(Stamped(born, StartExec, t), Exec, Ns(t))
  {
    hide Waits, Running;
    assert Settled(born.start, [], [], Ns(now));
    Starts(born, Ns(now), t);
  }

  lemma CreateTimes(c: Config, s: State, pid: Pid, tid: int)
    requires GoodConfig(c) && TimeInv(c, s) && pid in s.q.prog
    ensures TimeInv(c, Create(c, s, pid, tid))
  {
    hide AllOk, ThreadOk, Stamped;
    var k, n := ThreadId(pid, tid), s.ticks;
    var born := Thread(c.clock(n), 0.0, [], []);
    BornOk(born, c.clock(n), c.clock(n + 1));
    OkUpdate(s.threads, s.q.place, k, born, New, Ns(c.clock(n)));
    Tick(c, s, s.threads[k := born], s.q.place[k := New], n, n + 1);
    var t := c.clock(n + 1);
    Tick(c, s, s.threads, s.q.place, n, n + 1);
    OkUpdate(s.threads, s.q.place, k, Stamped(born, StartReady, t), Ready, Ns(t));
    OkUpdate(s.threads, s.q.place, k, Stamped(born, StartExec, t), Exec, Ns(t));
    Tick(c, s, s.threads[k := Stamped(born, StartReady, t)], s.q.place[k := Ready], n + 1, n + 2);
    Tick(c, s, s.threads[k := Stamped(born, StartExec, t)], s.q.place[k := Exec], n + 1, n + 2);
  }

  lemma ReadyPlaces(q: Queues, pid: Pid)
    requires Structure(q) && pid in q.prog
    ensures forall k :: k in q.prog[pid].ready ==> k in q.place && k.pid == pid && q.place[k] == Ready
  {
    assert ProgramHolds(q.prog[pid], q.place, pid);
  }

  lemma ScheduleTimes(c: Config, s: State, pid: Pid)
    requires GoodConfig(c) && TimeInv(c, s) && Structure(s.q)
    ensures TimeInv(c, Schedule(c, s, pid))
  {
    hide AllOk, Structure;
    if pid in s.q.prog {
      var p, t, n, r := s.q.prog[pid], c.clock(s.ticks), s.ticks, Schedule(c, s, pid);
      assert Normal(t);
      if p.ready != [] {
        var est := Reestimated(c.alpha, s.threads, p.ready);
        var i := Choose(est, p.ready);
        var k := p.ready[i];
        ReadyOf(s.q, pid, i);
        ReadyPlaces(s.q, pid);
        OkReestimated(c.alpha, s.threads, s.q.place, p.ready, Ns(t));
        if p.exec.Some? {
          var e := p.exec.value;
          ExecOf(s.q, pid);
          OkPreempt(est, s.q.place, e, t);
          var est' := Mark(Mark(est, e, EndExec, t), e, StartReady, t);
          OkDispatch(est', s.q.place[e := Ready], k, t);
          MarksCommute(Mark(est, k, StartExec, t), k, EndReady, e, EndExec, t);
          MarksCommute(est, k, StartExec, e, EndExec, t);
          var mid := Mark(est, e, EndExec, t);
          MarksCommute(Mark(mid, k, StartExec, t), k, EndReady, e, StartReady, t);
          MarksCommute(mid, k, StartExec, e, StartReady, t);
        } else {
          OkDispatch(est, s.q.place, k, t);
        }
        Tick(c, s, r.threads, r.q.place, n, n + 1);
      } else if p.exec.Some? {
        ExecOf(s.q, pid);
        OkPreempt(s.threads, s.q.place, p.exec.value, t);
        Tick(c, s, r.threads, r.q.place, n, n + 1);
      }
    }
  }

  lemma JoinTimes(c: Config, s: State, pid: Pid, tid: int)
    requires GoodConfig(c) && TimeInv(c, s) && Structure(s.q) && pid in s.q.prog && s.q.prog[pid].exec.Some?
    ensures TimeInv(c, Join(c, s, pid, tid))
  {
    hide AllOk, Structure;
    var t, r := c.clock(s.ticks), Join(c, s, pid, tid);
    assert Normal(t);
    ExecOf(s.q, pid);
    OkPreempt(s.threads, s.q.place, s.q.prog[pid].exec.value, t);
    OkEndExec(s.threads, s.q.place, s.q.prog[pid].exec.value, Joined, t);
    Tick(c, s, r.threads, r.q.place, s.ticks, s.ticks + 1);
  }

  lemma WaitTimes(c: Config, s: State, pid: Pid, id: string)
    requires GoodConfig(c) && TimeInv(c, s) && Structure(s.q) && pid in s.q.prog && s.q.prog[pid].exec.Some?
    requires FindSem(s.q.sems, id) < |s.q.sems|
    ensures TimeInv(c, Wait(c, s, pid, id))
  {
    hide AllOk, Structure;
    var t, r := c.clock(s.ticks), Wait(c, s, pid, id);
    assert Normal(t);
    ExecOf(s.q, pid);
    OkEndExec(s.threads, s.q.place, s.q.prog[pid].exec.value, Queued(FindSem(s.q.sems, id)), t);
    if r.ticks == s.ticks + 1 {
      Tick(c, s, r.threads, r.q.place, s.ticks, s.ticks + 1);
    }
  }

  lemma SignalTimes(c: Config, s: State, pid: Pid, id: string)
    requires GoodConfig(c) && TimeInv(c, s) && Structure(s.q) && FindSem(s.q.sems, id) < |s.q.sems|
    ensures TimeInv(c, Signal(c, s, pid, id))
  {
    hide AllOk, Structure;
    var i, t, r := FindSem(s.q.sems, id), c.clock(s.ticks), Signal(c, s, pid, id);
    assert Normal(t);
    if r.ticks == s.ticks + 1 {
      QueueHead(s.q, i);
      OkStartReady(s.threads, s.q.place, s.q.sems[i].queue[0], t);
      Tick(c, s, r.threads, r.q.place, s.ticks, s.ticks + 1);
    }
  }

  lemma DistributeTimes(c: Config, s: State)
    requires GoodConfig(c) && TimeInv(c, s) && Structure(s.q)
    ensures TimeInv(c, Distribute(c, s))
  {
    hide AllOk, Structure;
    var i, t, r := FirstRunnable(s.q.newList, s.q.prog), c.clock(s.ticks), Distribute(c, s);
    assert Normal(t);
    if s.q.newList != [] {
      var j := if i < |s.q.newList| then i else 0;
      NewOf(s.q, j);
      OkStartExec(s.threads, s.q.place, s.q.newList[j], t);
      OkStartReady(s.threads, s.q.place, s.q.newList[j], t);
      Tick(c, s, r.threads, r.q.place, s.ticks, s.ticks + 1);
    }
  }

  lemma ExitTimes(c: Config, s: State, e: ThreadId)
    requires GoodConfig(c) && TimeInv(c, s) && Structure(s.q) && e in s.q.place && s.q.place[e] == Exec
    ensures TimeInv(c, Exit(c, s, e))
  {
    hide AllOk, Structure;
    var t, n, released := c.clock(s.ticks), s.ticks, JoinedOn(s.q.blocked, e);
    JoinedPlaces(s.q, e);
    assert Normal(t);
    OkEndExec(s.threads, s.q.place, e, Exited, t);
    var threads := Mark(s.threads, e, EndExec, t);
    Tick(c, s, threads, s.q.place[e := Exited], n, n + 1);
    OkReleased(c, threads, s.q.place[e := Exited], released, n + 1);
    assert AllReady(s.q.place[e := Exited], released) == AllReady(s.q.place, released)[e := Exited];
  }

  lemma ReapTimes(c: Config, s: State, pid: Pid)
    requires TimeInv(c, s)
    ensures TimeInv(c, Reap(s, pid))
  {
    hide ThreadOk;
  }

  lemma MetricsTimes(c: Config, s: State)
    requires GoodConfig(c) && TimeInv(c, s) && Structure(s.q)
    ensures TimeInv(c, Metrics(c, s))
  {
    hide Structure;
    var t, u, r := c.clock(s.ticks), Ns(c.clock(s.ticks + 1)), Metrics(c, s);
    Tick(c, s, s.threads, s.q.place, s.ticks, s.ticks + 1);
    forall k | k in s.threads ensures ThreadOk(r.threads[k], s.q.place[k], u) {
      MetricsKeeps(s.threads[k], u, t);
      MetricsPlaces(s.q, k);
      assert ThreadOk(s.threads[k], s.q.place[k], u);
    }
  }

  lemma MetricsPlaces(q: Queues, k: ThreadId)
    requires Structure(q) && k in q.place
    ensures k.pid in q.prog
    ensures k in q.prog[k.pid].ready <==> q.place[k] == Ready
    ensures q.prog[k.pid].exec == Some(k) <==> q.place[k] == Exec
  {
    assert ProgramHolds(q.prog[k.pid], q.place, k.pid);
  }

  /** Every request keeps every thread's intervals in order. */
  lemma StepKeepsTimes(c: Config, s: State, ev: Event)
    requires GoodConfig(c) && TimeInv(c, s) && QueueInv(c, s.q) && Enabled(s.q, ev)
    ensures TimeInv(c, Step(c, s, ev))
  {
    hide AllOk, Structure, Ordered, TargetsLive, Dormant, AllAlive;
    match ev
    case EConnect(pid) =>
    case ECreate(pid, tid) => CreateTimes(c, s, pid, tid);
    case ESchedule(pid) => ScheduleTimes(c, s, pid);
    case EJoin(pid, tid) => JoinTimes(c, s, pid, tid);
    case EClose(pid, tid) =>
      var e := s.q.prog[pid].exec.value;
      if e.tid == tid {
        ExecOf(s.q, pid);
        ExitTimes(c, s, e);
        ExitKeeps(c, s, e);
        ReapTimes(c, Exit(c, s, e), pid);
        ReapKeeps(Exit(c, s, e), pid);
        DistributeTimes(c, Reap(Exit(c, s, e), pid));
      }
    case EWait(pid, tid, id) => WaitTimes(c, s, pid, id);
    case ESignal(pid, tid, id) => SignalTimes(c, s, pid, id);
    case EMetrics => MetricsTimes(c, s);
  }
}

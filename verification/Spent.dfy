/** What a thread's record says, told from the places alone: when it was created, when it was
    put into its exec slot or a ready list and when it left them, at which reading of the
    clock, and what the times add up to. */
module Spent {
  import opened Lists
  import opened Timespecs
  import opened Model
  import opened Ops
  import opened Invariant
  import opened Timeline
  import opened Runs
  import opened Partition
  import opened Reports

  /** The reading at which a request moves a thread, if it moves it. A create first reads the
      birth; a close reads once for the thread it ends, then for each thread joined on that
      one, in the order in which they blocked, then for the thread it admits. */
  ghost function MovedAt(s: State, ev: Event, k: ThreadId): nat {
    match ev
    case ECreate(_, _) => s.ticks + 1
    case EClose(pid, tid) =>
      var e := ThreadId(pid, tid);
      if k == e then s.ticks else s.ticks + 1 + IndexOf(JoinedOn(s.q.blocked, e), k)
    case _ => s.ticks
  }

  ghost predicate In(q: Queues, k: ThreadId, w: Place) {
    k in q.place && q.place[k] == w
  }

  /** The intervals of one list after a request: an interval begins when the thread comes in
      and ends when it leaves. One that stays is ended by a report, and a thread that is
      scheduled again while it runs begins another interval where the last one ends. */
  ghost function ListAfter(ev: Event, k: ThreadId, w: Place, vs: seq<Interval>, was: bool, stays: bool,
      t: Timespec): seq<Interval> {
    if was then
      if !stays || ev.EMetrics? then Ended(vs, t)
      else if w == Exec && ev == ESchedule(k.pid) then Ended(vs, t) + [Interval(t, None)]
      else vs
    else if stays then vs + [Interval(t, None)]
    else vs
  }

  /** From `s` to `r` the record of `k` changed as its places say, at the reading `t`. */
  ghost predicate Follows(s: State, r: State, ev: Event, k: ThreadId, t: Timespec) {
    k in s.threads && k in r.threads ==>
      && r.threads[k].start == s.threads[k].start
      && r.threads[k].execs
         == ListAfter(ev, k, Exec, s.threads[k].execs, In(s.q, k, Exec), In(r.q, k, Exec), t)
      && r.threads[k].readys
         == ListAfter(ev, k, Ready, s.threads[k].readys, In(s.q, k, Ready), In(r.q, k, Ready), t)
  }

  /** A running thread has an exec interval, a ready one a ready interval. */
  ghost predicate HasIntervals(s: State) {
    && s.threads.Keys == s.q.place.Keys
    && (forall k :: k in s.threads && s.q.place[k] == Exec ==> s.threads[k].execs != [])
    && (forall k :: k in s.threads && s.q.place[k] == Ready ==> s.threads[k].readys != [])
  }

  lemma SafeIntervals(c: Config, s: State)
    requires Safe(c, s)
    ensures Structure(s.q) && HasIntervals(s)
  {
    hide Structure, Settled, EstimateOk;
    forall k | k in s.threads && s.q.place[k] in {Exec, Ready}
      ensures if s.q.place[k] == Exec then s.threads[k].execs != [] else s.threads[k].readys != []
    {
      assert ThreadOk(s.threads[k], s.q.place[k], Ns(c.clock(s.ticks)));
    }
  }

  // ----- Each operation

  /** A record with the same intervals. */
  ghost predicate SameTimes(a: Thread, b: Thread) {
    a.start == b.start && a.execs == b.execs && a.readys == b.readys
  }

  /** What a selection writes into one record; estimates aside. */
  lemma SelectedTimes(c: Config, s: State, pid: Pid, k: ThreadId)
    requires Structure(s.q) && pid in s.q.prog && s.q.prog[pid].ready != [] && k in s.threads
    ensures var p, t, r := s.q.prog[pid], c.clock(s.ticks), Schedule(c, s, pid);
            var chosen, th := p.ready[Choose(Reestimated(c.alpha, s.threads, p.ready), p.ready)], s.threads[k];
            var place := if p.exec.Some? then s.q.place[p.exec.value := Ready] else s.q.place;
            && k in r.threads && r.q.place == place[chosen := Exec]
            && chosen in s.q.place && s.q.place[chosen] == Ready
            && SameTimes(r.threads[k], if k == chosen then Stamped(Stamped(th, StartExec, t), EndReady, t)
                                       else if p.exec == Some(k) then Stamped(Stamped(th, EndExec, t), StartReady, t)
                                       else th)
  {
    hide Structure, Choose, EndLast;
    ReadyPlaces(s.q, pid);
    if s.q.prog[pid].exec.Some? {
      ExecOf(s.q, pid);
    }
  }

  lemma ScheduleFollows(c: Config, s: State, pid: Pid, k: ThreadId)
    requires Structure(s.q) && HasIntervals(s)
    ensures Follows(s, Schedule(c, s, pid), ESchedule(pid), k, c.clock(s.ticks))
  {
    hide Structure, Choose, Reestimated;
    if k in s.threads {
      MetricsPlaces(s.q, k);
      if pid in s.q.prog && s.q.prog[pid].ready != [] {
        hide Schedule;
        SelectedTimes(c, s, pid, k);
        if s.q.prog[pid].exec.Some? {
          ExecOf(s.q, pid);
        }
      } else {
        ScheduleSame(c, s, pid, k);
      }
    }
  }

  lemma ScheduleSame(c: Config, s: State, pid: Pid, k: ThreadId)
    requires Structure(s.q) && HasIntervals(s) && k in s.threads && (pid in s.q.prog ==> s.q.prog[pid].ready == [])
    ensures Follows(s, Schedule(c, s, pid), ESchedule(pid), k, c.clock(s.ticks))
  {
    hide Structure;
    MetricsPlaces(s.q, k);
    if pid in s.q.prog && s.q.prog[pid].exec.Some? {
      ExecOf(s.q, pid);
    }
  }

  lemma JoinFollows(c: Config, s: State, pid: Pid, tid: int, k: ThreadId)
    requires Structure(s.q) && HasIntervals(s) && pid in s.q.prog && s.q.prog[pid].exec.Some?
    ensures Follows(s, Join(c, s, pid, tid), EJoin(pid, tid), k, c.clock(s.ticks))
  {
    hide Structure, WithReady, WithoutExec;
    ExecOf(s.q, pid);
  }

  lemma WaitFollows(c: Config, s: State, pid: Pid, tid: int, id: string, k: ThreadId)
    requires Structure(s.q) && HasIntervals(s) && pid in s.q.prog && s.q.prog[pid].exec.Some?
    requires FindSem(s.q.sems, id) < |s.q.sems|
    ensures Follows(s, Wait(c, s, pid, id), EWait(pid, tid, id), k, c.clock(s.ticks))
  {
    hide Structure, FindSem, WithoutExec;
    ExecOf(s.q, pid);
  }

  lemma SignalFollows(c: Config, s: State, pid: Pid, tid: int, id: string, k: ThreadId)
    requires Structure(s.q) && HasIntervals(s) && FindSem(s.q.sems, id) < |s.q.sems|
    ensures Follows(s, Signal(c, s, pid, id), ESignal(pid, tid, id), k, c.clock(s.ticks))
  {
    hide Structure, FindSem, WithReady;
    if s.q.sems[FindSem(s.q.sems, id)].queue != [] {
      QueueHead(s.q, FindSem(s.q.sems, id));
    }
  }

  lemma MetricsFollows(c: Config, s: State, k: ThreadId)
    requires Structure(s.q) && HasIntervals(s)
    ensures Follows(s, Metrics(c, s), EMetrics, k, c.clock(s.ticks))
  {
    hide Structure;
    if k in s.threads {
      MetricsPlaces(s.q, k);
    }
  }

  lemma CreateFollows(c: Config, s: State, pid: Pid, tid: int, k: ThreadId)
    requires HasIntervals(s) && pid in s.q.prog && ThreadId(pid, tid) !in s.q.place
    ensures Follows(s, Create(c, s, pid, tid), ECreate(pid, tid), k, c.clock(s.ticks + 1))
  {
    hide Grade, WithReady, WithExec;
  }

  /** The reading at which an exit moves a thread. */
  ghost function ExitedAt(s: State, e: ThreadId, k: ThreadId): nat {
    if k == e then s.ticks else s.ticks + 1 + IndexOf(JoinedOn(s.q.blocked, e), k)
  }

  /** What an exit writes into one record, and where it leaves the thread. */
  lemma ExitedTimes(c: Config, s: State, e: ThreadId, k: ThreadId)
    requires Structure(s.q) && s.threads.Keys == s.q.place.Keys && e in s.q.place && s.q.place[e] == Exec
        && k in s.threads
    ensures var r, released := Exit(c, s, e), JoinedOn(s.q.blocked, e);
            var t, th := c.clock(ExitedAt(s, e, k)), s.threads[k];
            && k in r.threads && k in r.q.place && (k in released ==> s.q.place[k] == Joined)
            && r.q.place[k] == (if k == e then Exited else if k in released then Ready else s.q.place[k])
            && r.threads[k] == (if k == e then Stamped(th, EndExec, t)
                                else if k in released then Stamped(th, StartReady, t) else th)
  {
    hide Structure, JoinedOn, Exit;
    JoinedPlaces(s.q, e);
    ExitedRecord(c, s, e, k);
    ExitedPlace(c, s, e, k);
  }

  lemma ExitedPlace(c: Config, s: State, e: ThreadId, k: ThreadId)
    requires k in s.q.place
    ensures var r, released := Exit(c, s, e), JoinedOn(s.q.blocked, e);
            && k in r.q.place
            && r.q.place[k] == (if k == e then Exited else if k in released then Ready else s.q.place[k])
  {
    hide JoinedOn, OtherBlocks, WithoutExec, MarkReleased, Mark;
  }

  lemma ExitedRecord(c: Config, s: State, e: ThreadId, k: ThreadId)
    requires k in s.threads && e !in JoinedOn(s.q.blocked, e)
    ensures var r, released := Exit(c, s, e), JoinedOn(s.q.blocked, e);
            var t, th := c.clock(ExitedAt(s, e, k)), s.threads[k];
            && k in r.threads
            && r.threads[k] == (if k == e then Stamped(th, EndExec, t)
                                else if k in released then Stamped(th, StartReady, t) else th)
  {
    hide JoinedOn, IndexOf, Stamped, ExecToExit, ReleaseJoins;
  }

  lemma ExitFollows(c: Config, s: State, e: ThreadId, ev: Event, k: ThreadId)
    requires Structure(s.q) && HasIntervals(s) && e in s.q.place && s.q.place[e] == Exec && ev.EClose?
    ensures Follows(s, Exit(c, s, e), ev, k, c.clock(ExitedAt(s, e, k)))
  {
    hide Structure, Exit, ExitedAt, JoinedOn;
    if k in s.threads {
      ExitedTimes(c, s, e, k);
    }
  }

  lemma ExitHasIntervals(c: Config, s: State, e: ThreadId)
    requires Structure(s.q) && HasIntervals(s) && e in s.q.place && s.q.place[e] == Exec
    ensures HasIntervals(Exit(c, s, e))
  {
    hide Structure, ExitedAt, JoinedOn, OtherBlocks, IndexOf, WithoutExec;
    JoinedPlaces(s.q, e);
    assert Exit(c, s, e).threads.Keys == Exit(c, s, e).q.place.Keys;
    hide Exit;
    forall k | k in Exit(c, s, e).threads
      ensures Exit(c, s, e).q.place[k] == Exec ==> Exit(c, s, e).threads[k].execs != []
      ensures Exit(c, s, e).q.place[k] == Ready ==> Exit(c, s, e).threads[k].readys != []
    {
      ExitKeys(c, s, e, k);
      ExitedTimes(c, s, e, k);
    }
  }

  lemma ExitKeys(c: Config, s: State, e: ThreadId, k: ThreadId)
    requires k in Exit(c, s, e).threads
    ensures k in s.threads
  {
    hide JoinedOn, OtherBlocks, IndexOf, WithoutExec, Stamped;
  }

  lemma ReapFollows(s: State, pid: Pid, ev: Event, k: ThreadId, t: Timespec)
    requires HasIntervals(s) && ev.EClose?
    ensures Follows(s, Reap(s, pid), ev, k, t)
    ensures HasIntervals(Reap(s, pid))
  {
    hide Gone;
  }

  lemma DistributeFollows(c: Config, s: State, ev: Event, k: ThreadId)
    requires Structure(s.q) && HasIntervals(s) && ev.EClose?
    ensures Follows(s, Distribute(c, s), ev, k, c.clock(s.ticks))
  {
    hide Structure, FirstRunnable, WithReady, WithExec;
    if s.q.newList != [] {
      var i := FirstRunnable(s.q.newList, s.q.prog);
      NewOf(s.q, if i < |s.q.newList| then i else 0);
    }
  }

  // ----- Every request

  /** Two changes, one of which leaves the thread where it is. */
  lemma Compose(s: State, mid: State, r: State, ev: Event, k: ThreadId, t: Timespec, u: Timespec)
    requires Follows(s, mid, ev, k, t) && Follows(mid, r, ev, k, u) && ev.EClose?
    requires k in s.threads && k in r.threads ==> k in mid.threads
    requires (SamePlace(s, mid, k) && t == u) || SamePlace(mid, r, k)
    ensures Follows(s, r, ev, k, t)
  {
    hide Ended;
  }

  ghost predicate SamePlace(s: State, r: State, k: ThreadId) {
    forall w :: In(r.q, k, w) <==> In(s.q, k, w)
  }

  lemma ExitMoves(c: Config, s: State, e: ThreadId, k: ThreadId)
    requires Structure(s.q) && e in s.q.place && s.q.place[e] == Exec && k in s.q.place
    ensures var r := Exit(c, s, e);
            && k in r.q.place && r.threads.Keys == s.threads.Keys
            && (if r.q.place[k] == s.q.place[k] then ExitedAt(s, e, k) == r.ticks else r.q.place[k] in {Ready, Exited})
  {
    hide Structure, JoinedOn, OtherBlocks, WithoutExec;
    JoinedPlaces(s.q, e);
  }

  lemma DistributeMoves(c: Config, s: State, k: ThreadId)
    requires Structure(s.q) && k in s.q.place
    ensures var r := Distribute(c, s);
            k in r.q.place && r.threads.Keys == s.threads.Keys && (r.q.place[k] == s.q.place[k] || s.q.place[k] == New)
  {
    hide Structure, FirstRunnable, WithReady, WithExec;
    if s.q.newList != [] {
      var i := FirstRunnable(s.q.newList, s.q.prog);
      NewOf(s.q, if i < |s.q.newList| then i else 0);
    }
  }

  lemma ReapMoves(s: State, pid: Pid, k: ThreadId)
    requires k in Reap(s, pid).threads && k in s.q.place
    ensures var r := Reap(s, pid);
            k in s.threads && k in r.q.place && r.q.place[k] == s.q.place[k] && r.ticks == s.ticks
  {
    hide Gone;
  }

  lemma CloseFollows(c: Config, s: State, pid: Pid, tid: int, k: ThreadId)
    requires GoodConfig(c) && Safe(c, s) && Enabled(s.q, EClose(pid, tid))
    ensures var ev := EClose(pid, tid); Follows(s, Step(c, s, ev), ev, k, c.clock(MovedAt(s, ev, k)))
  {
    hide Safe, Follows, Exit, Reap, Distribute, Structure, JoinedOn, QueueInv;
    var ev, e := EClose(pid, tid), s.q.prog[pid].exec.value;
    SafeIntervals(c, s);
    ExecOf(s.q, pid);
    if e.tid != tid {
      Unmoved(s, Step(c, s, ev), ev, k, c.clock(MovedAt(s, ev, k)));
    } else if k in s.threads && k in Step(c, s, ev).threads {
      EndFollows(c, s, e, ev, k);
      Unmoved(Distribute(c, Reap(Exit(c, s, e), pid)), Step(c, s, ev), ev, k, c.clock(MovedAt(s, ev, k)));
      Compose(s, Distribute(c, Reap(Exit(c, s, e), pid)), Step(c, s, ev), ev, k,
              c.clock(ExitedAt(s, e, k)), c.clock(MovedAt(s, ev, k)));
    } else {
      Absent(s, Step(c, s, ev), ev, k, c.clock(MovedAt(s, ev, k)));
    }
  }

  lemma Absent(s: State, r: State, ev: Event, k: ThreadId, t: Timespec)
    requires !(k in s.threads && k in r.threads)
    ensures Follows(s, r, ev, k, t)
  {}

  lemma Unmoved(s: State, r: State, ev: Event, k: ThreadId, t: Timespec)
    requires r.q == s.q && r.threads == s.threads && ev.EClose?
    ensures Follows(s, r, ev, k, t)
  {}

  lemma EndFollows(c: Config, s: State, e: ThreadId, ev: Event, k: ThreadId)
    requires GoodConfig(c) && Safe(c, s) && Structure(s.q) && HasIntervals(s)
    requires e in s.q.place && s.q.place[e] == Exec && ev.EClose?
    requires k in s.threads && k in Distribute(c, Reap(Exit(c, s, e), e.pid)).threads
    ensures Follows(s, Distribute(c, Reap(Exit(c, s, e), e.pid)), ev, k, c.clock(ExitedAt(s, e, k)))
  {
    hide Safe, Follows, Exit, Reap, Distribute, Structure, ExitedAt;
    var s1, s2 := Exit(c, s, e), Reap(Exit(c, s, e), e.pid);
    var r, t := Distribute(c, s2), c.clock(ExitedAt(s, e, k));
    ExitFollows(c, s, e, ev, k);
    ExitHasIntervals(c, s, e);
    ExitMoves(c, s, e, k);
    ReapFollows(s1, e.pid, ev, k, t);
    AfterExit(c, s, e);
    DistributeFollows(c, s2, ev, k);
    DistributeBack(c, s2, k);
    ReapMoves(s1, e.pid, k);
    DistributeMoves(c, s2, k);
    Compose(s, s1, s2, ev, k, t, t);
    Compose(s, s2, r, ev, k, t, c.clock(s2.ticks));
  }

  lemma DistributeBack(c: Config, s: State, k: ThreadId)
    requires k in Distribute(c, s).threads
    ensures k in s.threads
  {
    hide FirstRunnable;
  }

  lemma AfterExit(c: Config, s: State, e: ThreadId)
    requires Safe(c, s) && e in s.q.place && s.q.place[e] == Exec
    ensures Structure(Reap(Exit(c, s, e), e.pid).q)
  {
    hide Structure, Ordered, TargetsLive, Dormant, AllAlive, Exit, Reap, Grade, TimeInv;
    ExitKeeps(c, s, e);
    ReapKeeps(Exit(c, s, e), e.pid);
  }

  /** Every request changes the interval lists of a thread exactly as it moves the thread, at
      a reading that it takes itself, and leaves the thread's creation time alone. */
  lemma StepFollows(c: Config, s: State, ev: Event, k: ThreadId)
    requires GoodConfig(c) && Safe(c, s) && Enabled(s.q, ev)
    ensures Follows(s, Step(c, s, ev), ev, k, c.clock(MovedAt(s, ev, k)))
  {
    hide Safe, Follows, Create, Schedule, Join, Close, Wait, Signal, Metrics, Structure;
    SafeIntervals(c, s);
    match ev
    case EConnect(pid) => ConnectFollows(s, pid, k, c.clock(s.ticks));
    case ECreate(pid, tid) => CreateFollows(c, s, pid, tid, k);
    case ESchedule(pid) => ScheduleFollows(c, s, pid, k);
    case EJoin(pid, tid) => JoinFollows(c, s, pid, tid, k);
    case EClose(pid, tid) => CloseFollows(c, s, pid, tid, k);
    case EWait(pid, tid, id) => WaitFollows(c, s, pid, tid, id, k);
    case ESignal(pid, tid, id) => SignalFollows(c, s, pid, tid, id, k);
    case EMetrics => MetricsFollows(c, s, k);
  }

  lemma ConnectFollows(s: State, pid: Pid, k: ThreadId, t: Timespec)
    ensures Follows(s, Connect(s, pid), EConnect(pid), k, t)
  {}

  // ----- Which reading, and who is new

  lemma ExitedWithin(c: Config, s: State, pid: Pid, tid: int, k: ThreadId)
    requires GoodConfig(c) && Safe(c, s) && Enabled(s.q, EClose(pid, tid)) && s.q.prog[pid].exec.value.tid == tid
    ensures var ev, r := EClose(pid, tid), Step(c, s, EClose(pid, tid));
            !SamePlace(s, r, k) && k in s.q.place && k in r.q.place ==> s.ticks <= MovedAt(s, ev, k) < r.ticks
  {
    hide Safe, Exit, Reap, Distribute, Structure, JoinedOn, QueueInv, Grade;
    var e := s.q.prog[pid].exec.value;
    var s1, s2 := Exit(c, s, e), Reap(Exit(c, s, e), pid);
    SafeIntervals(c, s);
    ExecOf(s.q, pid);
    AfterExit(c, s, e);
    if k in s.q.place {
      ExitMoves(c, s, e, k);
      ExitReadings(c, s, e, k);
      ReapPlace(s1, pid, k);
      DistributePlaces(c, s2);
      DistributeReading(c, s2, k);
      if k in s2.q.place {
        Either(s, s1, s2, Distribute(c, s2), k);
      }
    }
  }

  lemma Either(s: State, s1: State, s2: State, r: State, k: ThreadId)
    requires SamePlace(s1, s2, k)
    ensures !SamePlace(s, r, k) ==> !SamePlace(s, s1, k) || !SamePlace(s2, r, k)
  {}

  lemma ExitReadings(c: Config, s: State, e: ThreadId, k: ThreadId)
    ensures Exit(c, s, e).ticks >= s.ticks + 1
    ensures s.ticks <= ExitedAt(s, e, k) <= Exit(c, s, e).ticks
    ensures k == e || k in JoinedOn(s.q.blocked, e) ==> ExitedAt(s, e, k) < Exit(c, s, e).ticks
    ensures k in s.q.place && k != e && k !in JoinedOn(s.q.blocked, e) ==> SamePlace(s, Exit(c, s, e), k)
  {
    hide JoinedOn, OtherBlocks, WithoutExec;
  }

  lemma ReapPlace(s: State, pid: Pid, k: ThreadId)
    ensures var r := Reap(s, pid); r.ticks == s.ticks && (k in r.q.place ==> SamePlace(s, r, k))
  {
    hide Gone;
  }

  lemma DistributeReading(c: Config, s: State, k: ThreadId)
    ensures var r := Distribute(c, s); s.ticks <= r.ticks && (!SamePlace(s, r, k) ==> s.ticks < r.ticks)
  {
    hide FirstRunnable, WithReady, WithExec;
  }

  /** A request moves a thread at a reading that it takes itself. */
  lemma MovedWithin(c: Config, s: State, ev: Event, k: ThreadId)
    requires GoodConfig(c) && Safe(c, s) && Enabled(s.q, ev)
    ensures var r := Step(c, s, ev);
            !SamePlace(s, r, k) && k in s.q.place && k in r.q.place ==> s.ticks <= MovedAt(s, ev, k) < r.ticks
  {
    hide Safe, Exit, Reap, Distribute, Structure, FindSem, Waiting, WithReady, WithExec, WithoutExec, Choose, Grade;
    if ev.EClose? {
      if s.q.prog[ev.pid].exec.value.tid == ev.tid {
        ExitedWithin(c, s, ev.pid, ev.tid, k);
      }
    }
  }

  lemma CreateBorn(c: Config, s: State, pid: Pid, tid: int)
    requires pid in s.q.prog
    ensures var k, ev, r := ThreadId(pid, tid), ECreate(pid, tid), Create(c, s, pid, tid);
            && k in r.threads && r.threads[k].start == c.clock(s.ticks)
            && r.threads[k].execs == ListAfter(ev, k, Exec, [], false, In(r.q, k, Exec), c.clock(MovedAt(s, ev, k)))
            && r.threads[k].readys == ListAfter(ev, k, Ready, [], false, In(r.q, k, Ready), c.clock(MovedAt(s, ev, k)))
  {
    hide Grade, WithReady, WithExec;
  }

  lemma NewcomerCreated(c: Config, s: State, ev: Event, k: ThreadId)
    requires GoodConfig(c) && Safe(c, s) && Enabled(s.q, ev)
    ensures k in s.threads <==> k in s.q.place
    ensures k in Step(c, s, ev).threads <==> k in Step(c, s, ev).q.place
    ensures k !in s.threads && k in Step(c, s, ev).threads ==> ev == ECreate(k.pid, k.tid)
    ensures ev == ECreate(k.pid, k.tid) ==> k !in s.threads
  {
    hide Safe, Step, Structure, QueueInv;
    SafeIntervals(c, s);
    StepSafe(c, s, ev);
    SafeIntervals(c, Step(c, s, ev));
    SafeQueue(c, s);
    ThreadsConserved(c, s, ev);
  }

  lemma SafeQueue(c: Config, s: State)
    requires Safe(c, s)
    ensures QueueInv(c, s.q)
  {}

  // ----- Over runs

  /** The intervals of one list after a request; a thread that is destroyed loses them. */
  ghost function NextVisits(c: Config, s: State, ev: Event, k: ThreadId, w: Place, vs: seq<Interval>): seq<Interval>
    requires Enabled(s.q, ev)
  {
    var r := Step(c, s, ev);
    if k in r.q.place then ListAfter(ev, k, w, vs, In(s.q, k, w), In(r.q, k, w), c.clock(MovedAt(s, ev, k)))
    else []
  }

  /** The intervals of one list at the end of a run, beginning with `vs`: those since the
      last create of the thread, as it comes and goes. */
  ghost function Visits(c: Config, s: State, evs: seq<Event>, k: ThreadId, w: Place, vs: seq<Interval>): seq<Interval>
    requires Legal(c, s, evs)
    decreases |evs|
  {
    if evs == [] then vs else Visits(c, Step(c, s, evs[0]), evs[1..], k, w, NextVisits(c, s, evs[0], k, w, vs))
  }

  /** The time spent in a place up to `now`: the readings at which the thread left it, `now`
      among them if it is there, minus those at which it came in. A thread that is destroyed
      takes its time with it. */
  ghost function TimeIn(c: Config, s: State, evs: seq<Event>, k: ThreadId, w: Place, now: int, spent: int): int
    requires Legal(c, s, evs)
    decreases |evs|
  {
    if evs == [] then spent + (if In(s.q, k, w) then now else 0)
    else
      var r, t := Step(c, s, evs[0]), Ns(c.clock(MovedAt(s, evs[0], k)));
      var next := if k in r.q.place then
                    spent + (if In(s.q, k, w) then t else 0) - (if In(r.q, k, w) then t else 0)
                  else 0;
      TimeIn(c, r, evs[1..], k, w, now, next)
  }

  /** The reading at which the thread was last created, `n` if the run does not create it. */
  ghost function BornAt(c: Config, s: State, evs: seq<Event>, k: ThreadId, n: nat): nat
    requires Legal(c, s, evs)
    decreases |evs|
  {
    if evs == [] then n
    else BornAt(c, Step(c, s, evs[0]), evs[1..], k, if evs[0] == ECreate(k.pid, k.tid) then s.ticks else n)
  }

  /** The record of `k`, if it has one, is this one; nothing is on record for one that does not exist. */
  ghost predicate OnRecord(c: Config, s: State, k: ThreadId, n: nat, execs: seq<Interval>, readys: seq<Interval>) {
    if k in s.threads then
      s.threads[k].start == c.clock(n) && s.threads[k].execs == execs && s.threads[k].readys == readys
    else execs == [] && readys == []
  }

  lemma StepOnRecord(c: Config, s: State, ev: Event, k: ThreadId, n: nat, execs: seq<Interval>, readys: seq<Interval>)
    requires GoodConfig(c) && Safe(c, s) && Enabled(s.q, ev) && OnRecord(c, s, k, n, execs, readys)
    ensures OnRecord(c, Step(c, s, ev), k, if ev == ECreate(k.pid, k.tid) then s.ticks else n,
                     NextVisits(c, s, ev, k, Exec, execs), NextVisits(c, s, ev, k, Ready, readys))
  {
    hide Safe, Step, ListAfter, MovedAt;
    NewcomerCreated(c, s, ev, k);
    if ev == ECreate(k.pid, k.tid) {
      StepCreated(c, s, k);
    } else {
      StepFollows(c, s, ev, k);
    }
  }

  lemma StepCreated(c: Config, s: State, k: ThreadId)
    requires Enabled(s.q, ECreate(k.pid, k.tid))
    ensures var ev, r := ECreate(k.pid, k.tid), Step(c, s, ECreate(k.pid, k.tid));
            && k in r.threads && r.threads[k].start == c.clock(s.ticks)
            && r.threads[k].execs == ListAfter(ev, k, Exec, [], false, In(r.q, k, Exec), c.clock(MovedAt(s, ev, k)))
            && r.threads[k].readys == ListAfter(ev, k, Ready, [], false, In(r.q, k, Ready), c.clock(MovedAt(s, ev, k)))
  {
    hide Create, ListAfter, MovedAt;
    CreateBorn(c, s, k.pid, k.tid);
  }

  lemma {:induction false} RunOnRecord(c: Config, s: State, evs: seq<Event>, k: ThreadId, n: nat,
      execs: seq<Interval>, readys: seq<Interval>)
    requires GoodConfig(c) && Safe(c, s) && Legal(c, s, evs) && OnRecord(c, s, k, n, execs, readys)
    ensures OnRecord(c, Run(c, s, evs), k, BornAt(c, s, evs, k, n), Visits(c, s, evs, k, Exec, execs),
                     Visits(c, s, evs, k, Ready, readys))
    decreases |evs|
  {
    hide Safe, Step, Enabled, OnRecord, NextVisits;
    if evs != [] {
      var ev := evs[0];
      StepSafe(c, s, ev);
      StepOnRecord(c, s, ev, k, n, execs, readys);
      RunOnRecord(c, Step(c, s, ev), evs[1..], k, if ev == ECreate(k.pid, k.tid) then s.ticks else n,
                  NextVisits(c, s, ev, k, Exec, execs), NextVisits(c, s, ev, k, Ready, readys));
    }
  }

  /** What one request adds to the time in a place. */
  lemma SumAfter(ev: Event, k: ThreadId, w: Place, vs: seq<Interval>, was: bool, stays: bool, t: Timespec)
    requires was ==> vs != []
    ensures var next := ListAfter(ev, k, w, vs, was, stays, t);
            && (stays ==> next != [])
            && SumUntil(next, stays, 0)
               == SumUntil(vs, was, 0) + (if was then Ns(t) else 0) - (if stays then Ns(t) else 0)
  {
    SumEnded(vs, t);
    var begun := [Interval(t, None)];
    assert (vs + begun)[..|vs|] == vs && (Ended(vs, t) + begun)[..|vs|] == Ended(vs, t);
    if vs != [] {
      assert Ended(vs, t)[..|vs| - 1] == vs[..|vs| - 1];
    }
  }

  /** The lengths of the intervals add up to the time in the place. */
  lemma {:induction false} VisitsAddUp(c: Config, s: State, evs: seq<Event>, k: ThreadId, w: Place,
      vs: seq<Interval>, now: int)
    requires Legal(c, s, evs) && (In(s.q, k, w) ==> vs != [])
    ensures SumUntil(Visits(c, s, evs, k, w, vs), In(Run(c, s, evs).q, k, w), now)
         == TimeIn(c, s, evs, k, w, now, SumUntil(vs, In(s.q, k, w), 0))
    decreases |evs|
  {
    hide Step, Enabled, ListAfter, MovedAt, SumLengths;
    if evs != [] {
      var ev, r, t := evs[0], Step(c, s, evs[0]), c.clock(MovedAt(s, evs[0], k));
      SumAfter(ev, k, w, vs, In(s.q, k, w), In(r.q, k, w), t);
      Nothing();
      VisitsAddUp(c, r, evs[1..], k, w, NextVisits(c, s, ev, k, w, vs), now);
    }
  }

  lemma Nothing()
    ensures SumUntil([], false, 0) == 0
  {}

  /** Over every run the record of a thread is exact. It was created at the first reading of its
      create. The intervals are its visits to its exec slot and to a ready list, and their
      lengths, with the one it is in ended at any instant `now`, add up to the time between the
      readings at which it came and those at which it left. */
  lemma RecordAlways(c: Config, sems: seq<Semaphore>, evs: seq<Event>, k: ThreadId, now: int)
    requires GoodConfig(c) && GoodSems(sems) && Legal(c, Init(sems), evs) && k in Run(c, Init(sems), evs).threads
    ensures var s, r := Init(sems), Run(c, Init(sems), evs);
            && k in r.q.place
            && var th, w := r.threads[k], r.q.place[k];
            && th.start == c.clock(BornAt(c, s, evs, k, 0))
            && th.execs == Visits(c, s, evs, k, Exec, []) && th.readys == Visits(c, s, evs, k, Ready, [])
            && SumUntil(th.execs, w == Exec, now) == TimeIn(c, s, evs, k, Exec, now, 0)
            && SumUntil(th.readys, w == Ready, now) == TimeIn(c, s, evs, k, Ready, now, 0)
  {
    hide Safe, Run, Legal, Visits, TimeIn, BornAt, SumUntil;
    var s := Init(sems);
    InitSafe(c, sems);
    RunSafe(c, s, evs);
    SafeIntervals(c, Run(c, s, evs));
    RunOnRecord(c, s, evs, k, 0, [], []);
    Nothing();
    VisitsAddUp(c, s, evs, k, Exec, [], now);
    VisitsAddUp(c, s, evs, k, Ready, [], now);
  }

  /** What a report at the reading `end` shows for a thread after any run: its age since its
      create, and the time it was ready and the time it ran according to its places. */
  lemma ShownAlways(c: Config, sems: seq<Semaphore>, evs: seq<Event>, k: ThreadId, end: Timespec)
    requires GoodConfig(c) && GoodSems(sems) && Legal(c, Init(sems), evs) && k in Run(c, Init(sems), evs).threads
    ensures var s, r := Init(sems), Run(c, Init(sems), evs);
            && k in r.q.place
            && TrueTimes(r.threads[k], r.q.place[k], end)
               == Times((Ns(end) - Ns(c.clock(BornAt(c, s, evs, k, 0)))) / 1_000_000,
                        TimeIn(c, s, evs, k, Ready, Ns(end), 0) / 1_000_000,
                        TimeIn(c, s, evs, k, Exec, Ns(end), 0) / 1_000_000)
  {
    hide Run, Legal, Visits, TimeIn, BornAt, SumUntil;
    RecordAlways(c, sems, evs, k, Ns(end));
  }
}

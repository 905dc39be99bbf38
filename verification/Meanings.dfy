/** What the value of each answer says about the server when it is sent. */
module Meanings {
  import opened Lists
  import opened Model
  import opened Ops
  import opened Invariant
  import opened Runs
  import opened Spent
  import opened Lockstep

  /** Answer `d`, sent while `ev` took the server from `s` to `r`. To a create: 1 if the program
      executes, -1 if it waits for its first thread to be admitted. To a schedule request: the
      thread that now runs, -1 if none does. To a close: 1 if it named the running thread, -1
      if not. Everything else succeeds. */
  ghost predicate Means(s: State, r: State, ev: Event, d: Response) {
    match d.header
    case CREATE => d.value == if d.fd in r.q.prog && r.q.prog[d.fd].executing then 1 else -1
    case SCHEDULE_NEXT =>
      d.value == if d.fd in r.q.prog && r.q.prog[d.fd].exec.Some? then r.q.prog[d.fd].exec.value.tid else -1
    case CLOSE =>
      && ev.EClose? && d.fd == ev.pid && ev.pid in s.q.prog
      && d.value == if s.q.prog[ev.pid].exec == Some(ThreadId(ev.pid, ev.tid)) then 1 else -1
    case _ => d.value == 1
  }

  /** The answers that were added mean what they say. */
  ghost predicate AllMean(s: State, r: State, ev: Event) {
    s.sent <= r.sent && forall i :: |s.sent| <= i < |r.sent| ==> Means(s, r, ev, r.sent[i])
  }

  lemma ScheduleMeans(c: Config, s: State, pid: Pid)
    requires Structure(s.q)
    ensures AllMean(s, Schedule(c, s, pid), ESchedule(pid))
  {
    hide Structure, Choose, Reestimated, Mark;
    if pid in s.q.prog && s.q.prog[pid].exec.Some? {
      ExecOf(s.q, pid);
    }
  }

  lemma DistributeMeans(c: Config, s: State, ev: Event)
    requires Structure(s.q)
    ensures var r := Distribute(c, s);
            s.sent <= r.sent && (forall i :: |s.sent| <= i < |r.sent| ==> !r.sent[i].header.CLOSE?) && AllMean(s, r, ev)
  {
    hide Structure, Mark, FirstRunnable;
    if s.q.newList != [] {
      var i := FirstRunnable(s.q.newList, s.q.prog);
      NewOf(s.q, if i < |s.q.newList| then i else 0);
      RunnableExecutes(s.q);
    }
  }

  lemma RunnableExecutes(q: Queues)
    ensures var i := FirstRunnable(q.newList, q.prog);
            i < |q.newList| ==> q.newList[i].pid in q.prog && q.prog[q.newList[i].pid].executing
  {}

  lemma CloseMeans(c: Config, s: State, pid: Pid, tid: int)
    requires Safe(c, s) && Enabled(s.q, EClose(pid, tid))
    ensures var ev, r := EClose(pid, tid), Step(c, s, EClose(pid, tid));
            && AllMean(s, r, ev)
            && r.sent != [] && r.sent[|r.sent| - 1]
               == Response(pid, if s.q.prog[pid].exec == Some(ThreadId(pid, tid)) then 1 else -1, CLOSE)
  {
    hide Safe, Structure, Exit, Reap, Distribute;
    SafeIntervals(c, s);
    ExecOf(s.q, pid);
    var e := s.q.prog[pid].exec.value;
    if e.tid == tid {
      var s1 := Exit(c, s, e);
      var s2 := Reap(s1, pid);
      AfterExit(c, s, e);
      DistributeMeans(c, s2, EClose(pid, tid));
      SilentSteps(c, s, e, pid);
    }
  }

  lemma SilentSteps(c: Config, s: State, e: ThreadId, pid: Pid)
    ensures Reap(Exit(c, s, e), pid).sent == s.sent
  {
    hide Gone;
  }

  /** Every answer that a request has sent, to its client or to one that was waiting, means what it says. */
  lemma AnswersMean(c: Config, s: State, ev: Event)
    requires Safe(c, s) && Enabled(s.q, ev)
    ensures AllMean(s, Step(c, s, ev), ev)
  {
    hide Safe, Structure, Schedule, Close, FindSem, Grade, Mark, Waiting;
    SafeIntervals(c, s);
    if ev.ESchedule? {
      ScheduleMeans(c, s, ev.pid);
    } else if ev.EClose? {
      CloseMeans(c, s, ev.pid, ev.tid);
    }
  }

  /** Connections and reports answer nothing; the last answer of a request goes to its client. */
  ghost predicate RepliesLast(s: State, r: State, ev: Event) {
    if ev.EConnect? || ev.EMetrics? then r.sent == s.sent
    else
      |r.sent| > |s.sent| && r.sent[|r.sent| - 1].fd == ev.pid && r.sent[|r.sent| - 1].header == HeaderOf(ev)
  }

  lemma Replies(c: Config, s: State, ev: Event)
    requires Safe(c, s) && Enabled(s.q, ev)
    ensures RepliesLast(s, Step(c, s, ev), ev)
  {
    hide Safe, Structure, Close, FindSem, Grade, Mark, Waiting, Choose, Reestimated;
    if ev.EClose? {
      CloseMeans(c, s, ev.pid, ev.tid);
      CloseSends(c, s, ev.pid, ev.tid);
    }
  }

  /** In every reachable state, also for the requests of programs that are gone. */
  lemma AnswersMeanAlways(c: Config, sems: seq<Semaphore>, evs: seq<Event>, ev: Event)
    requires GoodConfig(c) && GoodSems(sems) && Legal(c, Init(sems), evs) && Enabled(Run(c, Init(sems), evs).q, ev)
    ensures var s := Run(c, Init(sems), evs); AllMean(s, Step(c, s, ev), ev) && RepliesLast(s, Step(c, s, ev), ev)
  {
    hide Safe, Run, Legal, Step, AllMean, RepliesLast, Enabled;
    ReachableSafe(c, sems, evs);
    AnswersMean(c, Run(c, Init(sems), evs), ev);
    Replies(c, Run(c, Init(sems), evs), ev);
  }

  lemma EndedThread(c: Config, s: State, e: ThreadId)
    requires Safe(c, s) && e in s.q.place && s.q.place[e] == Exec
    ensures var q := Distribute(c, Reap(Exit(c, s, e), e.pid)).q;
            e in q.place ==> q.place[e] == Exited && e in q.exitList
  {
    hide Safe, Structure, Exit, Reap, Distribute;
    var s2 := Reap(Exit(c, s, e), e.pid);
    AfterExit(c, s, e);
    ReapPlace(Exit(c, s, e), e.pid, e);
    ExitEnds(c, s, e);
    DistributeEnds(c, s2, e);
  }

  lemma ExitEnds(c: Config, s: State, e: ThreadId)
    requires e in s.q.place
    ensures In(Exit(c, s, e).q, e, Exited)
  {}

  lemma DistributeEnds(c: Config, s: State, e: ThreadId)
    requires Structure(s.q) && (e in s.q.place ==> s.q.place[e] == Exited)
    ensures var q := Distribute(c, s).q; e in q.place ==> q.place[e] == Exited && e in q.exitList
  {
    hide ProgramsHold, SemsHold, FirstRunnable;
    if s.q.newList != [] {
      var i := FirstRunnable(s.q.newList, s.q.prog);
      assert s.q.newList[if i < |s.q.newList| then i else 0] in s.q.newList;
    }
  }

  /** In every reachable state: the last answer to a close goes to its client and is 1 if and only
      if it named the running thread, which then is in EXIT or gone with its program; otherwise
      it is -1 and no thread has moved. */
  lemma CloseAnswerIff(c: Config, sems: seq<Semaphore>, evs: seq<Event>, pid: Pid, tid: int)
    requires GoodConfig(c) && GoodSems(sems) && Legal(c, Init(sems), evs)
    requires Enabled(Run(c, Init(sems), evs).q, EClose(pid, tid))
    ensures var s, k := Run(c, Init(sems), evs), ThreadId(pid, tid);
            var r := Step(c, s, EClose(pid, tid));
            && |r.sent| > |s.sent|
            && var d := r.sent[|r.sent| - 1];
            && d.fd == pid && d.header == CLOSE && d.value in {1, -1}
            && (d.value == 1 <==> s.q.prog[pid].exec == Some(k))
            && (d.value == 1 ==> (k in r.q.place ==> r.q.place[k] == Exited && k in r.q.exitList))
            && (d.value == -1 ==> r.q == s.q && r.threads == s.threads)
  {
    hide Safe, Run, Legal, Distribute, Exit, Reap, Structure;
    ReachableSafe(c, sems, evs);
    var s := Run(c, Init(sems), evs);
    SafeIntervals(c, s);
    ExecOf(s.q, pid);
    CloseMeans(c, s, pid, tid);
    CloseSends(c, s, pid, tid);
    if s.q.prog[pid].exec.value.tid == tid {
      EndedThread(c, s, ThreadId(pid, tid));
    }
  }

  lemma CloseSends(c: Config, s: State, pid: Pid, tid: int)
    requires Safe(c, s) && Enabled(s.q, EClose(pid, tid))
    ensures |Step(c, s, EClose(pid, tid)).sent| > |s.sent|
  {
    hide Safe, Exit, Reap, Distribute, Structure;
    SafeIntervals(c, s);
    ExecOf(s.q, pid);
    var e := s.q.prog[pid].exec.value;
    if e.tid == tid {
      AfterExit(c, s, e);
      DistributeMeans(c, Reap(Exit(c, s, e), pid), EClose(pid, tid));
      SilentSteps(c, s, e, pid);
    }
  }
}

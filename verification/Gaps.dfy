/** Where the code falls short of what it is for: the exact conditions, and inputs that meet them. */
module Gaps {
  import opened Lists
  import opened Model
  import opened Ops
  import opened Invariant
  import opened Runs
  import opened Lockstep
  import opened Answering
  import opened Answerable

  // ----- The wait that looks for its caller where it cannot be

  /** A null pointer is followed, or the request is done. */
  datatype Outcome = Fault | Done(s: State)

  /** `suse_wait` as written: the thread to block is looked up with `find_thread`, which
      does not look at the thread in execution. Blocking a thread that was not found, or
      that never ran, follows a null pointer. */
  function WaitAsWritten(c: Config, s: State, pid: Pid, tid: int, id: string): Outcome
    requires pid in s.q.prog && FindSem(s.q.sems, id) < |s.q.sems|
  {
    var i := FindSem(s.q.sems, id);
    var q := SetValue(s.q, i, s.q.sems[i].value - 1);
    if q.sems[i].value >= 0 then Done(Answer(s.(q := q), pid, 1, WAIT))
    else match FindThread(s.q, pid, tid)
      case None => Fault
      case Some(k) =>
        if k !in s.threads || s.threads[k].execs == [] then Fault
        else
          var blocked := q.(sems := q.sems[i := q.sems[i].(queue := q.sems[i].queue + [k])],
              prog := WithoutExec(q.prog, pid));
          Done(Answer(s.(q := blocked, threads := Mark(s.threads, k, EndExec, c.clock(s.ticks)), ticks := s.ticks + 1),
                      pid, 1, WAIT))
  }

  /** When the running thread waits, the code does what is meant exactly when the
      semaphore is positive, so that nothing has to be blocked; otherwise it faults. */
  lemma WaitAsMeantIff(c: Config, s: State, pid: Pid, tid: int, id: string)
    requires Safe(c, s) && Enabled(s.q, EWait(pid, tid, id))
    ensures var w, positive := WaitAsWritten(c, s, pid, tid, id), s.q.sems[FindSem(s.q.sems, id)].value > 0;
            (w == Done(Wait(c, s, pid, id)) <==> positive) && (w == Fault <==> !positive)
  {
    hide Safe, Structure;
    SafeQueues(c, s);
    ExecOf(s.q, pid);
    if FindThread(s.q, pid, tid).Some? {
      FoundThread(s.q, pid, tid);
    }
  }

  function OneSemaphore(id: string): seq<Semaphore> {
    [Semaphore(id, 1, 0, [])]
  }

  function OneRunning(id: string): Queues {
    Queues([4], map[4 := Program([], Some(ThreadId(4, 0)), true)], [], [], [SemBlock(0)], [], OneSemaphore(id),
           map[ThreadId(4, 0) := Exec])
  }

  lemma OneThreadRuns(c: Config, id: string)
    requires GoodConfig(c) && c.maxMultiprog >= 1
    ensures var evs := [EConnect(4), ECreate(4, 0)];
            Legal(c, Init(OneSemaphore(id)), evs) && Run(c, Init(OneSemaphore(id)), evs).q == OneRunning(id)
  {
    hide Run, Legal;
    var s0 := Init(OneSemaphore(id));
    var s1 := Step(c, s0, EConnect(4));
    assert Active(s1.q.place) == {} && Wrappers(1) == [SemBlock(0)];
    RunTwo(c, s0, EConnect(4), ECreate(4, 0));
  }

  /** A program creates one thread, whose first act is to wait on a semaphore at 0. */
  lemma WaitFaults(c: Config, id: string)
    requires GoodConfig(c) && c.maxMultiprog >= 1
    ensures var evs := [EConnect(4), ECreate(4, 0)];
            && Legal(c, Init(OneSemaphore(id)), evs)
            && var s := Run(c, Init(OneSemaphore(id)), evs);
               Enabled(s.q, EWait(4, 0, id)) && WaitAsWritten(c, s, 4, 0, id) == Fault
  {
    hide Run, Legal;
    OneThreadRuns(c, id);
  }

  // ----- A program that asks for a thread while it has one

  ghost predicate AskingWithoutReady(q: Queues) {
    forall p :: p in q.asking ==> p in q.prog && q.prog[p].ready == []
  }

  /** The signal wakes a thread of a program that is asking for one. */
  ghost predicate WakesAsking(q: Queues, ev: Event) {
    ev.ESignal? &&
    var i := FindSem(q.sems, ev.id);
    i < |q.sems| && Raised(q.sems[i]) <= 0 && q.sems[i].queue != [] && q.sems[i].queue[0].pid in q.asking
  }

  lemma DistributeAsking(c: Config, s: State)
    requires Core(s.q) && AskingWithoutReady(s.q)
    ensures AskingWithoutReady(Distribute(c, s).q)
  {
    hide Structure, Ordered, TargetsLive, Dormant;
    var i := FirstRunnable(s.q.newList, s.q.prog);
    if s.q.newList != [] {
      NewOf(s.q, if i < |s.q.newList| then i else 0);
      if i < |s.q.newList| && s.q.newList[i].pid in s.q.asking {
        RemoveAtKeeps(s.q.asking, IndexOf(s.q.asking, s.q.newList[i].pid));
      }
    }
  }

  lemma ExitAsking(c: Config, s: State, e: ThreadId)
    requires AskingWithoutReady(s.q) && e.pid !in s.q.asking
    ensures AskingWithoutReady(Exit(c, s, e).q)
  {}

  lemma ReapAsking(s: State, pid: Pid)
    requires AskingWithoutReady(s.q) && pid !in s.q.asking
    ensures AskingWithoutReady(Reap(s, pid).q)
  {}

  lemma SignalAsking(c: Config, s: State, ev: Event)
    requires Structure(s.q) && Enabled(s.q, ev) && ev.ESignal? && AskingWithoutReady(s.q)
    ensures AskingWithoutReady(Signal(c, s, ev.pid, ev.id).q) <==> !WakesAsking(s.q, ev)
  {
    hide Structure, Mark, FindSem, Waiting;
    if s.q.sems[FindSem(s.q.sems, ev.id)].queue != [] {
      QueueHead(s.q, FindSem(s.q.sems, ev.id));
    }
  }

  lemma CloseAsking(c: Config, s: State, pid: Pid, tid: int)
    requires QueueInv(c, s.q) && Enabled(s.q, EClose(pid, tid)) && AskingWithoutReady(s.q)
    ensures AskingWithoutReady(Close(c, s, pid, tid).q)
  {
    hide Structure, Ordered, TargetsLive, Dormant, AllAlive, AskingWithoutReady, Exit, Reap, Distribute;
    var e := s.q.prog[pid].exec.value;
    if e.tid == tid {
      ExecOf(s.q, pid);
      ExitKeeps(c, s, e);
      ExitAsking(c, s, e);
      ReapKeeps(Exit(c, s, e), pid);
      ReapAsking(Exit(c, s, e), pid);
      DistributeAsking(c, Reap(Exit(c, s, e), pid));
    }
  }

  /** The one way a program comes to ask for a thread while it has a ready one: another
      program signals a semaphore whose queue is headed by one of its threads. */
  lemma AskingWithoutReadyIff(c: Config, s: State, ev: Event)
    requires QueueInv(c, s.q) && Enabled(s.q, ev) && AskingWithoutReady(s.q)
    ensures AskingWithoutReady(Step(c, s, ev).q) <==> !WakesAsking(s.q, ev)
  {
    hide Structure, Ordered, TargetsLive, Dormant, AllAlive, Close, Signal, Mark, Reestimated, Choose, FindSem;
    match ev
    case EClose(pid, tid) => CloseAsking(c, s, pid, tid);
    case ESchedule(pid) =>
      if pid in s.q.prog && s.q.prog[pid].exec.Some? {
        ExecOf(s.q, pid);
      }
    case EJoin(pid, tid) => ExecOf(s.q, pid);
    case EWait(pid, tid, id) => ExecOf(s.q, pid);
    case ESignal(pid, tid, id) => SignalAsking(c, s, ev);
    case _ =>
  }

  // ----- A program that asks for a thread and is never answered

  /** A program's only running thread is blocked on the semaphore. */
  function OneBlocked(q: Queues, id: string, asking: seq<Pid>): Queues {
    q.(prog := map[4 := Program([], None, true)], asking := asking,
       sems := [Semaphore(id, 1, -1, [ThreadId(4, 0)])], place := q.place[ThreadId(4, 0) := Queued(0)])
  }

  /** Program 4 runs a thread; the semaphore is at 0. */
  ghost predicate RunsOne(q: Queues, id: string) {
    q.prog == map[4 := Program([], Some(ThreadId(4, 0)), true)] && q.sems == OneSemaphore(id) && q.asking == []
  }

  lemma Blocks(c: Config, s: State, id: string)
    requires RunsOne(s.q, id)
    ensures Enabled(s.q, EWait(4, 0, id)) && Step(c, s, EWait(4, 0, id)).q == OneBlocked(s.q, id, [])
  {
    assert FindSem(OneSemaphore(id), id) == 0;
    var r := Wait(c, s, 4, id).q;
    var none: seq<ThreadId> := [];
    assert none + [ThreadId(4, 0)] == [ThreadId(4, 0)];
    assert r.sems[0] == OneBlocked(s.q, id, []).sems[0];
    assert r.prog == OneBlocked(s.q, id, []).prog;
  }

  lemma Asks(c: Config, s: State, q: Queues, id: string)
    requires s.q == OneBlocked(q, id, [])
    ensures Enabled(s.q, ESchedule(4)) && Step(c, s, ESchedule(4)).q == OneBlocked(q, id, [4])
  {}

  lemma BlocksAsks(c: Config, s: State, id: string)
    requires RunsOne(s.q, id)
    ensures var evs := [EWait(4, 0, id), ESchedule(4)]; Legal(c, s, evs) && Run(c, s, evs).q == OneBlocked(s.q, id, [4])
  {
    hide Run, Legal, Step, Enabled, OneBlocked, RunsOne;
    Blocks(c, s, id);
    Asks(c, Step(c, s, EWait(4, 0, id)), s.q, id);
    RunTwo(c, s, EWait(4, 0, id), ESchedule(4));
  }

  /** Another program connects and signals. */
  lemma Wakes(c: Config, s: State, q: Queues, id: string)
    requires s.q == OneBlocked(q, id, [4]) && q.newList == [] && forall k :: k in q.place ==> k.pid == 4
    ensures var evs := [EConnect(5), ESignal(5, 0, id)];
            && Legal(c, s, evs) && Due(Step(c, s, evs[0]).q, evs[1])
            && var r := Run(c, s, evs).q; 4 in r.prog && AskingBare(r, 4) && r.prog[4].ready == [ThreadId(4, 0)]
  {
    assert FindSem(s.q.sems, id) == 0;
    var r := Step(c, s, EConnect(5));
    assert forall k :: k in r.q.place ==> k.pid == 4;
    RunTwo(c, s, EConnect(5), ESignal(5, 0, id));
  }

  /** It happens: a program's only thread blocks on a semaphore, the program asks for
      another thread, and then another program, which may, signals the semaphore. The first
      one asks with a ready thread, and with nothing in NEW. */
  lemma AskingForeverHappens(c: Config, id: string)
    requires GoodConfig(c) && c.maxMultiprog >= 1
    ensures var asks := [EConnect(4), ECreate(4, 0)] + [EWait(4, 0, id), ESchedule(4)];
            var evs := asks + [EConnect(5), ESignal(5, 0, id)];
            && Legal(c, Init(OneSemaphore(id)), asks) && Legal(c, Init(OneSemaphore(id)), evs)
            && Enabled(Run(c, Init(OneSemaphore(id)), asks).q, EConnect(5))
            && Due(Step(c, Run(c, Init(OneSemaphore(id)), asks), EConnect(5)).q, ESignal(5, 0, id))
            && var q := Run(c, Init(OneSemaphore(id)), evs).q;
               4 in q.prog && AskingBare(q, 4) && q.prog[4].ready == [ThreadId(4, 0)]
  {
    hide Run, Legal, Due, Step;
    OneThreadRuns(c, id);
    var s0, a, b := Init(OneSemaphore(id)), [EConnect(4), ECreate(4, 0)], [EWait(4, 0, id), ESchedule(4)];
    var s := Run(c, s0, a);
    BlocksAsks(c, s, id);
    RunSplit(c, s0, a, b);
    Wakes(c, Run(c, s, b), s.q, id);
    RunSplit(c, s0, a + b, [EConnect(5), ESignal(5, 0, id)]);
  }

  // ----- A schedule request after the last close

  lemma LastClose(c: Config, s: State, id: string)
    requires s.q == OneRunning(id)
    ensures Legal(c, s, [EClose(4, 0)])
    ensures var r := Run(c, s, [EClose(4, 0)]).q; 4 !in r.prog && 4 !in r.asking && r.place == map[]
  {
    hide Mark, MarkReleased;
    var e, s1 := ThreadId(4, 0), Exit(c, s, ThreadId(4, 0));
    assert [SemBlock(0)][..0] == [] && JoinedOn(s.q.blocked, e) == [];
    assert Gone(s1.q, 4);
    var r := Step(c, s, EClose(4, 0));
    assert [EClose(4, 0)][1..] == [] && Run(c, r, []) == r;
  }

  /** It happens: a client creates one thread, closes it, and asks for the next one. It was in
      step, it is answered -1, waits for a second answer, and is in step no longer. */
  lemma ScheduleAfterLastCloseHappens(c: Config, id: string)
    requires GoodConfig(c) && c.maxMultiprog >= 1
    ensures var evs := [EConnect(4), ECreate(4, 0)] + [EClose(4, 0)];
            && Legal(c, Init(OneSemaphore(id)), evs)
            && var s := Run(c, Init(OneSemaphore(id)), evs);
            && 4 !in s.q.prog && Enabled(s.q, ESchedule(4)) && InStep(s.q, 4, Client(Sent(ESchedule(4)), []))
            && var r := Step(c, s, ESchedule(4));
            && r.sent == s.sent + [Response(4, -1, SCHEDULE_NEXT)]
            && AfterAnswer(First(SCHEDULE_NEXT), -1) == Second(SCHEDULE_NEXT)
            && !InStep(r.q, 4, Client(Second(SCHEDULE_NEXT), []))
  {
    hide Run, Legal;
    OneThreadRuns(c, id);
    var s0, a := Init(OneSemaphore(id)), [EConnect(4), ECreate(4, 0)];
    LastClose(c, Run(c, s0, a), id);
    RunSplit(c, s0, a, [EClose(4, 0)]);
  }

  // ----- In every reachable state

  lemma WaitAsMeantAlways(c: Config, sems: seq<Semaphore>, evs: seq<Event>, pid: Pid, tid: int, id: string)
    requires GoodConfig(c) && GoodSems(sems) && Legal(c, Init(sems), evs)
    requires Enabled(Run(c, Init(sems), evs).q, EWait(pid, tid, id))
    ensures var s := Run(c, Init(sems), evs);
            var w, positive := WaitAsWritten(c, s, pid, tid, id), s.q.sems[FindSem(s.q.sems, id)].value > 0;
            (w == Done(Step(c, s, EWait(pid, tid, id))) <==> positive) && (w == Fault <==> !positive)
  {
    hide Safe, Run, Legal, WaitAsWritten, Wait;
    ReachableSafe(c, sems, evs);
    WaitAsMeantIff(c, Run(c, Init(sems), evs), pid, tid, id);
  }
}

/** Runs at every positive limit: a parked client is overtaken without bound, and a program
    waits for ever behind its own threads. */
module Overtaking {
  import opened Lists
  import opened Model
  import opened Ops
  import opened Invariant
  import opened Runs
  import opened Removal
  import opened Lockstep
  import opened Admissions
  import opened Answering
  import opened Answerable
  import opened Gaps

  // ----- A program takes all the places there are

  ghost predicate NoJoins(bs: seq<Block>) {
    forall b :: b in bs ==> b.SemBlock?
  }

  /** Program 4 is the only one; `m` threads of it are outside NEW, and one of them runs. */
  ghost predicate Filled(c: Config, s: State, sems: seq<Semaphore>, m: nat) {
    && Safe(c, s) && Grade(s.q) == m
    && s.q.newList == [] && s.q.asking == [] && NoJoins(s.q.blocked) && s.q.sems == sems
    && 4 in s.q.prog && s.q.prog[4].executing && s.q.prog[4].exec.Some? && 5 !in s.q.prog
    && forall k :: k in s.q.place ==> k.pid == 4 && k.tid < m
  }

  lemma {:induction false} WrappersNoJoins(n: nat)
    ensures NoJoins(Wrappers(n))
  {
    if n > 0 {
      WrappersNoJoins(n - 1);
    }
  }

  lemma FirstFills(c: Config, sems: seq<Semaphore>)
    requires GoodConfig(c) && GoodSems(sems) && c.maxMultiprog >= 1
    ensures var evs := [EConnect(4), ECreate(4, 0)];
            Legal(c, Init(sems), evs) && Filled(c, Run(c, Init(sems), evs), sems, 1)
  {
    hide Safe, Run, Legal;
    var s0 := Init(sems);
    WrappersNoJoins(|sems|);
    var s1 := Step(c, s0, EConnect(4));
    assert Active(s1.q.place) == {};
    RunTwo(c, s0, EConnect(4), ECreate(4, 0));
    ReachableSafe(c, sems, [EConnect(4), ECreate(4, 0)]);
    assert Active(Step(c, s1, ECreate(4, 0)).q.place) == {ThreadId(4, 0)};
  }

  lemma OneMoreFills(c: Config, s: State, sems: seq<Semaphore>, m: nat)
    requires GoodConfig(c) && Filled(c, s, sems, m) && m < c.maxMultiprog
    ensures Enabled(s.q, ECreate(4, m)) && Filled(c, Step(c, s, ECreate(4, m)), sems, m + 1)
  {
    hide Safe, Grade;
    StepSafe(c, s, ECreate(4, m));
    SafeQueues(c, s);
    CreateAdmits(c, s, 4, m);
  }

  lemma {:induction false} Fills(c: Config, s: State, sems: seq<Semaphore>, m: nat) returns (evs: seq<Event>)
    requires GoodConfig(c) && Filled(c, s, sems, m) && m <= c.maxMultiprog
    ensures Legal(c, s, evs) && Filled(c, Run(c, s, evs), sems, c.maxMultiprog)
    decreases c.maxMultiprog - m
  {
    hide Filled, Step, Enabled;
    evs := [];
    if m < c.maxMultiprog {
      OneMoreFills(c, s, sems, m);
      RunOne(c, s, ECreate(4, m));
      var rest := Fills(c, Step(c, s, ECreate(4, m)), sems, m + 1);
      RunSplit(c, s, [ECreate(4, m)], rest);
      evs := [ECreate(4, m)] + rest;
    }
  }

  /** From the start of the server to the limit. */
  lemma FillsUp(c: Config, sems: seq<Semaphore>) returns (evs: seq<Event>)
    requires GoodConfig(c) && GoodSems(sems) && c.maxMultiprog >= 1
    ensures Legal(c, Init(sems), evs) && Filled(c, Run(c, Init(sems), evs), sems, c.maxMultiprog)
  {
    hide Filled, Run, Legal;
    FirstFills(c, sems);
    var first := [EConnect(4), ECreate(4, 0)];
    var rest := Fills(c, Run(c, Init(sems), first), sems, 1);
    RunSplit(c, Init(sems), first, rest);
    evs := first + rest;
  }

  // ----- Overtaking

  /** Program 4 runs a thread, and all its threads are older than `t`; program 5 waits in its first create. */
  ghost predicate Overtaken(c: Config, s: State, t: nat) {
    && Safe(c, s)
    && s.q.newList == [ThreadId(5, 0)] && s.q.asking == [] && NoJoins(s.q.blocked)
    && 4 in s.q.prog && s.q.prog[4].executing && s.q.prog[4].exec.Some?
    && 5 in s.q.prog && !s.q.prog[5].executing
    && forall k :: k in s.q.place && k.pid == 4 ==> k.tid < t
  }

  /** With another thread of program 4 in NEW. */
  ghost predicate Created(c: Config, s: State, t: nat) {
    && Safe(c, s)
    && s.q.newList == [ThreadId(5, 0), ThreadId(4, t)] && s.q.asking == [] && NoJoins(s.q.blocked)
    && 4 in s.q.prog && s.q.prog[4].executing && s.q.prog[4].exec.Some?
    && 5 in s.q.prog && !s.q.prog[5].executing
    && forall k :: k in s.q.place && k.pid == 4 ==> k.tid <= t
  }

  /** Its running thread has exited and the new one is ready. */
  ghost predicate Freed(c: Config, s: State, t: nat) {
    && Safe(c, s)
    && s.q.newList == [ThreadId(5, 0)] && s.q.asking == [] && NoJoins(s.q.blocked)
    && 4 in s.q.prog && s.q.prog[4].executing && s.q.prog[4].exec == None && s.q.prog[4].ready != []
    && 5 in s.q.prog && !s.q.prog[5].executing
    && forall k :: k in s.q.place && k.pid == 4 ==> k.tid <= t
  }

  lemma StrangerParks(c: Config, s: State, sems: seq<Semaphore>)
    requires GoodConfig(c) && Filled(c, s, sems, c.maxMultiprog)
    ensures Enabled(s.q, EConnect(5))
    ensures var r := Step(c, s, EConnect(5));
            Enabled(r.q, ECreate(5, 0)) && Overtaken(c, Step(c, r, ECreate(5, 0)), c.maxMultiprog)
  {
    hide Safe;
    var r := Step(c, s, EConnect(5));
    StepSafe(c, s, EConnect(5));
    assert forall k :: k in r.q.place ==> k.pid == 4;
    assert Grade(r.q) == c.maxMultiprog;
    StepSafe(c, r, ECreate(5, 0));
  }

  lemma CreateStep(c: Config, s: State, t: nat)
    requires GoodConfig(c) && Overtaken(c, s, t)
    ensures Enabled(s.q, ECreate(4, t)) && Created(c, Step(c, s, ECreate(4, t)), t)
    ensures Step(c, s, ECreate(4, t)).q.prog[4] == s.q.prog[4]
  {
    hide Core, AllAlive, SemValues;
    StepSafe(c, s, ECreate(4, t)) by {
      assert Enabled(s.q, ECreate(4, t));
    }
  }

  lemma CloseStep(c: Config, s: State, t: nat)
    requires GoodConfig(c) && Created(c, s, t)
    ensures var ev := EClose(4, s.q.prog[4].exec.value.tid);
            Enabled(s.q, ev) && EndsThread(s.q, ev) && Freed(c, Step(c, s, ev), t)
  {
    hide Safe, Exit, Reap, Distribute, NoJoins, Gone;
    var e, l := s.q.prog[4].exec.value, s.q.newList;
    var ev := EClose(4, e.tid);
    StepSafe(c, s, ev);
    SafeQueues(c, s);
    QueueExec(c, s.q, 4);
    ExitIs(c, s, e);
    var s1 := Exit(c, s, e);
    assert l[1] in l;
    NewThere(s.q, ThreadId(4, t));
    NotGone(s1, 4, ThreadId(4, t));
    NewToTail(c, s1, t);
  }

  lemma NewThere(q: Queues, k: ThreadId)
    requires Core(q) && k in q.newList
    ensures k in q.place && q.place[k] == New
  {}

  /** The exit step when nobody is joined. */
  lemma ExitIs(c: Config, s: State, e: ThreadId)
    requires NoJoins(s.q.blocked) && e.pid in s.q.prog && e in s.q.place
    ensures var r := Exit(c, s, e).q;
            && r.newList == s.q.newList && r.asking == s.q.asking && r.blocked == s.q.blocked
            && r.place == s.q.place[e := Exited] && r.prog == WithoutExec(s.q.prog, e.pid)
  {
    hide Mark, MarkReleased, JoinedOn, OtherBlocks;
    NoneHeld(s.q.blocked, e);
    var r := Exit(c, s, e).q;
    assert s.q.prog[e.pid].ready + [] == s.q.prog[e.pid].ready;
    assert AllReady(s.q.place, []) == s.q.place;
    assert r.prog == WithoutExec(s.q.prog, e.pid);
  }

  lemma NotGone(s: State, pid: Pid, k: ThreadId)
    requires k in s.q.place && k.pid == pid && s.q.place[k] == New
    ensures Reap(s, pid) == s
  {}

  lemma NewToTail(c: Config, s: State, t: nat)
    requires s.q.newList == [ThreadId(5, 0), ThreadId(4, t)] && s.q.asking == []
    requires 4 in s.q.prog && s.q.prog[4].executing && 5 in s.q.prog && !s.q.prog[5].executing
    ensures var q, r := s.q, Distribute(c, s).q;
            && r.newList == [ThreadId(5, 0)] && r.asking == [] && r.blocked == q.blocked
            && r.prog == q.prog[4 := q.prog[4].(ready := q.prog[4].ready + [ThreadId(4, t)])]
            && r.place == q.place[ThreadId(4, t) := Ready]
  {
    hide Mark;
    var l := s.q.newList;
    assert l[1..] == [ThreadId(4, t)];
    assert FirstRunnable(l[1..], s.q.prog) == 0 && FirstRunnable(l, s.q.prog) == 1;
    assert RemoveAt(l, 1) == [ThreadId(5, 0)];
  }

  lemma SelectStep(c: Config, s: State, t: nat)
    requires GoodConfig(c) && Freed(c, s, t)
    ensures Enabled(s.q, ESchedule(4)) && Overtaken(c, Step(c, s, ESchedule(4)), t + 1)
  {
    hide Safe, Mark, Reestimated, Choose;
    StepSafe(c, s, ESchedule(4));
    SafeQueues(c, s);
    var i := Choose(Reestimated(c.alpha, s.threads, s.q.prog[4].ready), s.q.prog[4].ready);
    CoreReady(s.q, 4, i);
  }

  lemma CoreReady(q: Queues, pid: Pid, i: nat)
    requires Core(q) && pid in q.prog && i < |q.prog[pid].ready|
    ensures var k := q.prog[pid].ready[i]; k in q.place && k.pid == pid && q.place[k] == Ready
  {
    ReadyOf(q, pid, i);
  }

  /** Create a thread, close the running one, schedule. */
  lemma Cycle(c: Config, s: State, t: nat) returns (evs: seq<Event>)
    requires GoodConfig(c) && Overtaken(c, s, t)
    ensures Legal(c, s, evs) && OthersOnly(evs, 5) && EndingCloses(c, s, evs) == 1
        && Overtaken(c, Run(c, s, evs), t + 1)
  {
    hide Step, Enabled, EndsThread, Created, Freed, Run, Legal, EndingCloses, Safe;
    CreateStep(c, s, t);
    var s1 := Step(c, s, ECreate(4, t));
    var a, b := [ECreate(4, t), EClose(4, s.q.prog[4].exec.value.tid)], [ESchedule(4)];
    CloseStep(c, s1, t);
    RunTwo(c, s, a[0], a[1]);
    var s2 := Run(c, s, a);
    SelectStep(c, s2, t);
    NotClose(s.q, a[0]);
    CountTwo(c, s, a[0], a[1]);
    CountOne(c, s2, b[0]);
    NotClose(s2.q, b[0]);
    RunSplit(c, s, a, b);
    EndingSplit(c, s, a, b);
    evs := a + b;
  }

  lemma CountOne(c: Config, s: State, ev: Event)
    requires Enabled(s.q, ev)
    ensures Legal(c, s, [ev]) && Run(c, s, [ev]) == Step(c, s, ev)
    ensures EndingCloses(c, s, [ev]) == if EndsThread(s.q, ev) then 1 else 0
  {
    hide Step, Enabled, EndsThread;
    RunOne(c, s, ev);
    var r := Step(c, s, ev);
    assert [ev][1..] == [] && EndingCloses(c, r, []) == 0;
  }

  lemma CountTwo(c: Config, s: State, a: Event, b: Event)
    requires Enabled(s.q, a) && Enabled(Step(c, s, a).q, b)
    ensures Legal(c, s, [a, b])
    ensures EndingCloses(c, s, [a, b])
        == (if EndsThread(s.q, a) then 1 else 0) + (if EndsThread(Step(c, s, a).q, b) then 1 else 0)
  {
    hide Step, Enabled, EndsThread;
    CountOne(c, s, a);
    CountOne(c, Step(c, s, a), b);
    EndingSplit(c, s, [a], [b]);
    assert [a] + [b] == [a, b];
  }

  lemma NotClose(q: Queues, ev: Event)
    requires !ev.EClose?
    ensures !EndsThread(q, ev)
  {}

  lemma {:induction false} Cycles(c: Config, s: State, t: nat, n: nat) returns (evs: seq<Event>)
    requires GoodConfig(c) && Overtaken(c, s, t)
    ensures Legal(c, s, evs) && OthersOnly(evs, 5) && EndingCloses(c, s, evs) == n
        && Overtaken(c, Run(c, s, evs), t + n)
    decreases n
  {
    hide Step, Enabled, EndsThread, Overtaken;
    if n == 0 {
      evs := [];
    } else {
      var one := Cycle(c, s, t);
      hide Run, Legal, EndingCloses;
      var rest := Cycles(c, Run(c, s, one), t + 1, n - 1);
      RunSplit(c, s, one, rest);
      EndingSplit(c, s, one, rest);
      evs := one + rest;
    }
  }

  /** At every positive limit and for every `n` there is a reachable state with a parked client
      and a run from it in which `n` threads of another program end, each admitting a thread
      from NEW, while the client stays where it is and gets no answer. */
  lemma OvertakenForever(c: Config, sems: seq<Semaphore>, n: nat) returns (before: seq<Event>, evs: seq<Event>)
    requires GoodConfig(c) && GoodSems(sems) && c.maxMultiprog >= 1
    ensures Legal(c, Init(sems), before)
    ensures var s := Run(c, Init(sems), before);
            && Parked(s.q, 5) && Legal(c, s, evs) && OthersOnly(evs, 5) && EndingCloses(c, s, evs) == n
            && AnswersTo(c, s, evs, 5) == [] && Parked(Run(c, s, evs).q, 5)
  {
    hide Run, Legal, EndingCloses, AnswersTo, ParkedWith, AheadOf, Parked, Overtaken, Filled, OthersOnly, Step, Enabled;
    var fill := FillsUp(c, sems);
    var s0 := Run(c, Init(sems), fill);
    StrangerParks(c, s0, sems);
    RunTwo(c, s0, EConnect(5), ECreate(5, 0));
    RunSplit(c, Init(sems), fill, [EConnect(5), ECreate(5, 0)]);
    before := fill + [EConnect(5), ECreate(5, 0)];
    var s := Run(c, Init(sems), before);
    evs := Cycles(c, s, c.maxMultiprog, n);
    StillParked(c, s, c.maxMultiprog);
    StillParked(c, Run(c, s, evs), c.maxMultiprog + n);
    ParkedStarts(s.q, 5);
    ParkedRun(c, s, 5, evs, AheadOf(s.q, 5, false));
    ParkedWaits(Run(c, s, evs).q, 5);
  }

  lemma StillParked(c: Config, s: State, t: nat)
    requires Overtaken(c, s, t)
    ensures Safe(c, s) && Core(s.q) && Parked(s.q, 5)
  {
    hide Structure;
    SafeQueues(c, s);
    NewOf(s.q, 0);
  }

  // ----- Behind its own threads

  /** Program 4 is the only one. It runs a thread, has one in NEW, and the semaphore is not positive. */
  ghost predicate Draining(c: Config, s: State, id: string) {
    && Safe(c, s)
    && s.q.newList != [] && s.q.asking == []
    && FindSem(s.q.sems, id) < |s.q.sems| && s.q.sems[FindSem(s.q.sems, id)].value <= 0
    && 4 in s.q.prog && s.q.prog[4].executing && s.q.prog[4].exec.Some?
    && forall k :: k in s.q.place ==> k.pid == 4
  }

  /** The running thread waits on the semaphore. */
  ghost predicate Drained(c: Config, s: State, id: string, ready: seq<ThreadId>) {
    && Safe(c, s)
    && s.q.newList != [] && s.q.asking == []
    && FindSem(s.q.sems, id) < |s.q.sems| && s.q.sems[FindSem(s.q.sems, id)].value <= 0
    && 4 in s.q.prog && s.q.prog[4] == Program(ready, None, true)
    && forall k :: k in s.q.place ==> k.pid == 4
  }

  lemma OneMoreToNew(c: Config, s: State, id: string)
    requires GoodConfig(c) && Filled(c, s, OneSemaphore(id), c.maxMultiprog)
    ensures var ev := ECreate(4, c.maxMultiprog); Enabled(s.q, ev) && Draining(c, Step(c, s, ev), id)
  {
    hide Safe;
    StepSafe(c, s, ECreate(4, c.maxMultiprog));
    assert FindSem(OneSemaphore(id), id) == 0;
  }

  lemma WaitDrains(c: Config, s: State, id: string)
    requires GoodConfig(c) && Draining(c, s, id)
    ensures var ev := EWait(4, s.q.prog[4].exec.value.tid, id);
            Enabled(s.q, ev) && Drained(c, Step(c, s, ev), id, s.q.prog[4].ready)
  {
    hide Safe, FindSem, Mark;
    SafeQueues(c, s);
    QueueExec(c, s.q, 4);
    var ev, i := EWait(4, s.q.prog[4].exec.value.tid, id), FindSem(s.q.sems, id);
    StepSafe(c, s, ev);
    var r := Step(c, s, ev).q;
    FindSame(s.q.sems, r.sems, id);
  }

  lemma SelectDrains(c: Config, s: State, id: string, ready: seq<ThreadId>)
    requires GoodConfig(c) && Drained(c, s, id, ready) && ready != []
    ensures Enabled(s.q, ESchedule(4))
    ensures var r := Step(c, s, ESchedule(4)); Draining(c, r, id) && |r.q.prog[4].ready| == |ready| - 1
  {
    hide Safe, FindSem, Mark, Reestimated, Choose;
    StepSafe(c, s, ESchedule(4));
    SafeQueues(c, s);
    CoreReady(s.q, 4, Choose(Reestimated(c.alpha, s.threads, ready), ready));
  }

  lemma AskBehind(c: Config, s: State, id: string)
    requires GoodConfig(c) && Drained(c, s, id, [])
    ensures Enabled(s.q, ESchedule(4))
    ensures var q := Step(c, s, ESchedule(4)).q; 4 in q.asking && OwnInNew(q, 4) && !CanEnd(q, 4)
  {
    hide FindSem, Structure;
    SafeQueues(c, s);
    var q := Step(c, s, ESchedule(4)).q;
    NewOf(s.q, 0);
    NotOwn(q.newList, 4);
    assert q.newList[0] in q.newList;
  }

  lemma {:induction false} Drains(c: Config, s: State, id: string) returns (evs: seq<Event>)
    requires GoodConfig(c) && Draining(c, s, id)
    ensures Legal(c, s, evs)
    ensures var q := Run(c, s, evs).q; 4 in q.asking && OwnInNew(q, 4) && !CanEnd(q, 4)
    decreases |s.q.prog[4].ready|
  {
    hide Step, Enabled, Run, Legal, Safe, FindSem, OwnInNew, CanEnd, Drained;
    var ready, ev := s.q.prog[4].ready, EWait(4, s.q.prog[4].exec.value.tid, id);
    WaitDrains(c, s, id);
    var s1 := Step(c, s, ev);
    if ready == [] {
      AskBehind(c, s1, id);
      RunTwo(c, s, ev, ESchedule(4));
      evs := [ev, ESchedule(4)];
    } else {
      SelectDrains(c, s1, id, ready);
      RunTwo(c, s, ev, ESchedule(4));
      var rest := Drains(c, Step(c, s1, ESchedule(4)), id);
      RunSplit(c, s, [ev, ESchedule(4)], rest);
      evs := [ev, ESchedule(4)] + rest;
    }
  }

  /** A second way to wait for ever, at every positive limit and with a thread in NEW: the
      program's own threads, all blocked on the semaphore, hold all the places, and no other
      program has a thread that could end. */
  lemma OwnThreadsInTheWay(c: Config, id: string) returns (evs: seq<Event>)
    requires GoodConfig(c) && c.maxMultiprog >= 1
    ensures Legal(c, Init(OneSemaphore(id)), evs)
    ensures var q := Run(c, Init(OneSemaphore(id)), evs).q; 4 in q.asking && OwnInNew(q, 4) && !CanEnd(q, 4)
  {
    hide Step, Enabled, Run, Legal, Filled, Draining, OwnInNew, CanEnd;
    var s0 := Init(OneSemaphore(id));
    var fill := FillsUp(c, OneSemaphore(id));
    var s := Run(c, s0, fill);
    OneMoreToNew(c, s, id);
    RunOne(c, s, ECreate(4, c.maxMultiprog));
    var rest := Drains(c, Step(c, s, ECreate(4, c.maxMultiprog)), id);
    RunSplit(c, s, [ECreate(4, c.maxMultiprog)], rest);
    RunSplit(c, s0, fill, [ECreate(4, c.maxMultiprog)] + rest);
    evs := fill + ([ECreate(4, c.maxMultiprog)] + rest);
  }
}

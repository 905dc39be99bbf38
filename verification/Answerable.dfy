/** Which waiting clients can still be answered at all. */
module Answerable {
  import opened Lists
  import opened Model
  import opened Ops
  import opened Invariant
  import opened Runs
  import opened Lockstep
  import opened Admissions
  import opened Answering

  /** The semaphore that its own name finds. */
  predicate Signallable(sems: seq<Semaphore>, i: nat) {
    i < |sems| && FindSem(sems, sems[i].id) == i
  }

  /** Another program can bring `k` to run without help from `pid`: the program is not asking,
      and `k` runs, is ready, or waits on a semaphore that can be signalled. */
  ghost predicate CanRun(q: Queues, pid: Pid, k: ThreadId) {
    && k in q.place && k.pid != pid && k.pid !in q.asking
    && (q.place[k] in {Ready, Exec} || (q.place[k].Queued? && Signallable(q.sems, q.place[k].sem)))
  }

  ghost predicate CanEnd(q: Queues, pid: Pid) {
    exists k :: CanRun(q, pid, k)
  }

  // ----- Nobody left to end a thread

  lemma {:induction false} FindSame(a: seq<Semaphore>, b: seq<Semaphore>, id: string)
    requires |a| == |b| && forall i :: 0 <= i < |a| ==> a[i].id == b[i].id
    ensures FindSem(a, id) == FindSem(b, id)
  {
    if a != [] {
      FindSame(a[1..], b[1..], id);
    }
  }

  lemma NotRun(q: Queues, pid: Pid, k: ThreadId)
    requires !CanEnd(q, pid)
    ensures !CanRun(q, pid, k)
  {}

  /** A program that can end nothing has no running and no ready thread, unless it asks. */
  lemma DeadPrograms(q: Queues, pid: Pid, p: Pid)
    requires Structure(q) && !CanEnd(q, pid) && p in q.prog && p != pid && p !in q.asking
    ensures q.prog[p].exec == None && q.prog[p].ready == []
  {
    hide Structure, CanEnd;
    if q.prog[p].exec.Some? {
      ExecOf(q, p);
      NotRun(q, pid, q.prog[p].exec.value);
    }
    if q.prog[p].ready != [] {
      ReadyOf(q, p, 0);
      NotRun(q, pid, q.prog[p].ready[0]);
    }
  }

  lemma DeadEnds(c: Config, q: Queues, ev: Event, pid: Pid)
    requires QueueInv(c, q) && !CanEnd(q, pid) && (ev.EMetrics? || ev.pid != pid)
    ensures !EndsThread(q, ev) && (ev.EJoin? || ev.EClose? || ev.EWait? ==> !Enabled(q, ev))
  {
    hide Structure, Ordered, TargetsLive, Dormant, AllAlive, CanEnd;
    if (ev.EJoin? || ev.EClose? || ev.EWait?) && ev.pid in q.prog && q.prog[ev.pid].exec.Some? {
      DeadPrograms(q, pid, ev.pid);
    }
  }

  /** The place of every thread, and who asks, after a request in such a state. */
  lemma DeadPlaces(c: Config, s: State, ev: Event, pid: Pid)
    requires QueueInv(c, s.q) && Enabled(s.q, ev) && !CanEnd(s.q, pid) && s.q.newList != []
    requires ev.EMetrics? || ev.pid != pid
    ensures var q, r := s.q, Step(c, s, ev).q;
            && q.asking <= r.asking
            && |r.sems| == |q.sems| && (forall i :: 0 <= i < |q.sems| ==> r.sems[i].id == q.sems[i].id)
            && forall k :: k in r.place ==>
                 (k in q.place && r.place[k] == q.place[k]) || r.place[k] == New || (ev.ESignal? && Woken(q, ev, k))
  {
    hide Structure, Ordered, TargetsLive, Dormant, AllAlive, CanEnd, Mark, Reestimated, Choose, FindSem;
    DeadEnds(c, s.q, ev, pid);
    if ev.ESchedule? && ev.pid in s.q.prog {
      DeadPrograms(s.q, pid, ev.pid);
    }
  }

  /** The head of the signalled queue. */
  ghost predicate Woken(q: Queues, ev: Event, k: ThreadId)
    requires ev.ESignal?
  {
    var i := FindSem(q.sems, ev.id);
    i < |q.sems| && q.sems[i].queue != [] && q.sems[i].queue[0] == k
  }

  lemma WokenWas(q: Queues, ev: Event, k: ThreadId)
    requires Structure(q) && ev.ESignal? && Woken(q, ev, k)
    ensures k in q.place && q.place[k].Queued? && Signallable(q.sems, q.place[k].sem)
  {
    QueueHead(q, FindSem(q.sems, ev.id));
  }

  lemma DeadStays(c: Config, s: State, ev: Event, pid: Pid)
    requires QueueInv(c, s.q) && Enabled(s.q, ev) && !CanEnd(s.q, pid) && s.q.newList != []
    requires ev.EMetrics? || ev.pid != pid
    ensures !EndsThread(s.q, ev) && !CanEnd(Step(c, s, ev).q, pid) && Step(c, s, ev).q.newList != []
  {
    hide Step, Enabled, Structure, Ordered, TargetsLive, Dormant, AllAlive, Signallable, Woken;
    DeadEnds(c, s.q, ev, pid);
    DeadPlaces(c, s, ev, pid);
    QuietNew(c, s, ev, pid);
    var q, r := s.q, Step(c, s, ev).q;
    forall k ensures !CanRun(r, pid, k) {
      if CanRun(r, pid, k) {
        if ev.ESignal? && Woken(q, ev, k) {
          WokenWas(q, ev, k);
        } else if r.place[k].Queued? {
          SignallableSame(q.sems, r.sems, r.place[k].sem);
        }
        NotRun(q, pid, k);
      }
    }
  }

  lemma SignallableSame(a: seq<Semaphore>, b: seq<Semaphore>, i: nat)
    requires |a| == |b| && (forall j :: 0 <= j < |a| ==> a[j].id == b[j].id)
    ensures Signallable(a, i) == Signallable(b, i)
  {
    if i < |a| {
      FindSame(a, b, a[i].id);
    }
  }

  lemma {:induction false} DeadRun(c: Config, s: State, pid: Pid, evs: seq<Event>)
    requires GoodConfig(c) && Safe(c, s) && Legal(c, s, evs) && OthersOnly(evs, pid) && !CanEnd(s.q, pid)
        && s.q.newList != []
    ensures EndingCloses(c, s, evs) == 0 && IdleCloses(c, s, evs) == 0
    decreases |evs|
  {
    hide Safe, OthersOnly, Step, Enabled, CanEnd, EndsThread;
    if evs != [] {
      OthersNext(evs, pid);
      SafeQueues(c, s);
      StepSafe(c, s, evs[0]);
      DeadStays(c, s, evs[0], pid);
      DeadRun(c, Step(c, s, evs[0]), pid, evs[1..]);
    }
  }

  /** A waiting program without a thread in NEW, or with nobody who could end one, is never answered. */
  lemma NeverAnswered(c: Config, s: State, pid: Pid, evs: seq<Event>)
    requires GoodConfig(c) && Safe(c, s) && Legal(c, s, evs) && OthersOnly(evs, pid) && Waiting(s.q, pid)
    requires !OwnInNew(s.q, pid) || !CanEnd(s.q, pid)
    ensures AnswersTo(c, s, evs, pid) == []
  {
    hide Safe, Run, Legal, AskingWith, ParkedWith, Parked, AheadOf, FirstOwn, AnswersTo, EndingCloses, IdleCloses,
        CanEnd;
    SafeQueues(c, s);
    ParkedWaits(s.q, pid);
    if pid !in s.q.asking {
      ParkedStarts(s.q, pid);
      DeadRun(c, s, pid, evs);
      ParkedRun(c, s, pid, evs, AheadOf(s.q, pid, false));
    } else if OwnInNew(s.q, pid) {
      AskingStarts(s.q, pid);
      DeadRun(c, s, pid, evs);
      AskingRun(c, s, pid, evs, AheadOf(s.q, pid, true), s.q.newList[FirstOwn(s.q.newList, pid)]);
    } else {
      BareRun(c, s, pid, evs);
    }
  }

  // ----- Somebody who can

  /** A request that a client of the library can make: its program is known to the server and
      it is not waiting for an answer. */
  ghost predicate Due(q: Queues, ev: Event) {
    Obliged(q, ev) && ev.pid in q.prog && !Waiting(q, ev.pid)
  }

  ghost predicate AllDue(c: Config, s: State, evs: seq<Event>)
    requires Legal(c, s, evs)
    decreases |evs|
  {
    evs == [] ||
    (Due(s.q, evs[0]) && AllDue(c, Step(c, s, evs[0]), evs[1..]))
  }

  lemma {:induction false} DueSplit(c: Config, s: State, a: seq<Event>, b: seq<Event>)
    requires Legal(c, s, a) && Legal(c, Run(c, s, a), b)
    ensures Legal(c, s, a + b)
    ensures AllDue(c, s, a) && AllDue(c, Run(c, s, a), b) ==> AllDue(c, s, a + b)
    decreases |a|
  {
    hide Step, Enabled, Due;
    RunSplit(c, s, a, b);
    if a == [] {
      assert a + b == b;
    } else {
      assert (a + b)[1..] == a[1..] + b;
      DueSplit(c, Step(c, s, a[0]), a[1..], b);
    }
  }

  lemma DueOne(c: Config, s: State, ev: Event)
    requires Enabled(s.q, ev) && Due(s.q, ev)
    ensures Legal(c, s, [ev]) && AllDue(c, s, [ev])
  {
    hide Step, Enabled, Due;
    assert [ev][1..] == [];
  }

  /** `r` is reached from `s` by requests of others that end no thread and leave NEW alone. */
  ghost predicate Led(c: Config, s: State, evs: seq<Event>, pid: Pid) {
    && Legal(c, s, evs) && AllDue(c, s, evs) && OthersOnly(evs, pid)
    && Run(c, s, evs).q.newList == s.q.newList
    && SameStatus(s.q, Run(c, s, evs).q, pid)
  }

  lemma LedOne(c: Config, s: State, ev: Event, pid: Pid)
    requires Enabled(s.q, ev) && (ev.EMetrics? || ev.pid != pid) && Due(s.q, ev)
    requires Step(c, s, ev).q.newList == s.q.newList && SameStatus(s.q, Step(c, s, ev).q, pid)
    ensures Led(c, s, [ev], pid) && Run(c, s, [ev]) == Step(c, s, ev)
  {
    hide Step, Enabled, SameStatus, Due;
    DueOne(c, s, ev);
    assert [ev][1..] == [];
    assert Run(c, Step(c, s, ev), []) == Step(c, s, ev);
  }

  lemma LedTwo(c: Config, s: State, a: seq<Event>, b: seq<Event>, pid: Pid)
    requires Led(c, s, a, pid) && Led(c, Run(c, s, a), b, pid)
    ensures Led(c, s, a + b, pid) && Run(c, s, a + b) == Run(c, Run(c, s, a), b)
  {
    hide Run, Legal, AllDue, Parked;
    RunSplit(c, s, a, b);
    DueSplit(c, s, a, b);
  }

  /** A ready thread's program selects. */
  lemma SelectLeads(c: Config, s: State, pid: Pid, k: ThreadId)
    requires QueueInv(c, s.q) && k in s.q.place && s.q.place[k] == Ready && k.pid != pid && k.pid !in s.q.asking
    requires k.pid in s.q.prog && s.q.prog[k.pid].exec == None
    ensures Led(c, s, [ESchedule(k.pid)], pid)
    ensures var r := Run(c, s, [ESchedule(k.pid)]).q; k.pid in r.prog && r.prog[k.pid].exec.Some?
  {
    hide QueueInv, Step, Enabled, SameStatus, EndsThread, Run, Legal, Due;
    var ev := ESchedule(k.pid);
    SelectEnabled(c, s, k);
    OtherStatus(c, s, ev, pid);
    LedOne(c, s, ev, pid);
  }

  lemma SelectEnabled(c: Config, s: State, k: ThreadId)
    requires QueueInv(c, s.q) && k in s.q.place && s.q.place[k] == Ready && k.pid !in s.q.asking
    requires k.pid in s.q.prog && s.q.prog[k.pid].exec == None
    ensures var ev := ESchedule(k.pid);
            && Enabled(s.q, ev) && Due(s.q, ev) && !EndsThread(s.q, ev)
            && Step(c, s, ev).q.newList == s.q.newList
            && k.pid in Step(c, s, ev).q.prog && Step(c, s, ev).q.prog[k.pid].exec.Some?
  {
    hide Ordered, TargetsLive, AllAlive, Mark, Reestimated, Choose;
    assert ProgramHolds(s.q.prog[k.pid], s.q.place, k.pid);
  }

  /** A signal of its own program brings a queued thread one place forward, or to its ready list. */
  lemma SignalLeads(c: Config, s: State, pid: Pid, k: ThreadId)
    requires QueueInv(c, s.q) && CanRun(s.q, pid, k) && s.q.place[k].Queued?
    ensures var ev := ESignal(k.pid, 0, s.q.sems[s.q.place[k].sem].id);
            && Enabled(s.q, ev) && Due(s.q, ev) && !EndsThread(s.q, ev)
            && var i, r := s.q.place[k].sem, Step(c, s, ev).q;
            && r.newList == s.q.newList && r.asking == s.q.asking
            && |r.sems| == |s.q.sems| && (forall j :: 0 <= j < |r.sems| ==> r.sems[j].id == s.q.sems[j].id)
            && |r.sems[i].queue| == |s.q.sems[i].queue| - 1
            && k in r.place && (r.place[k] == Ready || r.place[k] == Queued(i))
            && k.pid in s.q.prog && k.pid in r.prog && r.prog[k.pid].exec == s.q.prog[k.pid].exec
  {
    hide Structure, Ordered, TargetsLive, AllAlive, Mark, FindSem;
    var i := s.q.place[k].sem;
    QueuedIn(s.q, k);
    QueueHead(s.q, i);
    assert SemValue(s.q.sems[i]);
  }

  lemma QueuedIn(q: Queues, k: ThreadId)
    requires Structure(q) && k in q.place && q.place[k].Queued?
    ensures q.place[k].sem < |q.sems| && k in q.sems[q.place[k].sem].queue && k.pid in q.prog
  {
    assert Holds(q.sems[q.place[k].sem].queue, q.place, q.place[k]);
  }

  /** Signals, then a selection: `k`'s program comes to run a thread. */
  lemma {:induction false} Leads(c: Config, s: State, pid: Pid, k: ThreadId) returns (evs: seq<Event>)
    requires GoodConfig(c) && Safe(c, s) && CanRun(s.q, pid, k)
    ensures Led(c, s, evs, pid)
    ensures var r := Run(c, s, evs).q; k.pid in r.prog && r.prog[k.pid].exec.Some?
    decreases if s.q.place[k].Queued? && s.q.place[k].sem < |s.q.sems| then |s.q.sems[s.q.place[k].sem].queue| else 0
  {
    hide Safe, Step, Enabled, SameStatus, EndsThread, Led, Run, QueueInv, Signallable, Due;
    SafeQueues(c, s);
    HasProgram(c, s.q, k);
    if s.q.prog[k.pid].exec.Some? {
      evs := [];
      LedNone(c, s, pid);
    } else if !s.q.place[k].Queued? {
      NotExec(c, s.q, k);
      evs := [ESchedule(k.pid)];
      SelectLeads(c, s, pid, k);
    } else {
      var i := s.q.place[k].sem;
      HasSem(s.q, pid, k);
      OtherPid(s.q, pid, k);
      var ev := ESignal(k.pid, 0, s.q.sems[i].id);
      SignalLeads(c, s, pid, k);
      var r := Step(c, s, ev);
      OtherStatus(c, s, ev, pid);
      LedOne(c, s, ev, pid);
      StepSafe(c, s, ev);
      SignallableSame(s.q.sems, r.q.sems, i);
      var rest := Leads(c, r, pid, k);
      LedTwo(c, s, [ev], rest, pid);
      evs := [ev] + rest;
    }
  }

  lemma HasProgram(c: Config, q: Queues, k: ThreadId)
    requires QueueInv(c, q) && k in q.place
    ensures k.pid in q.prog
  {}

  lemma NotExec(c: Config, q: Queues, k: ThreadId)
    requires QueueInv(c, q) && k in q.place && k.pid in q.prog && q.prog[k.pid].exec == None
    ensures q.place[k] != Exec
  {
    assert ProgramHolds(q.prog[k.pid], q.place, k.pid);
  }

  lemma HasSem(q: Queues, pid: Pid, k: ThreadId)
    requires CanRun(q, pid, k) && q.place[k].Queued?
    ensures q.place[k].sem < |q.sems| && Signallable(q.sems, q.place[k].sem)
  {}

  lemma LedNone(c: Config, s: State, pid: Pid)
    ensures Led(c, s, [], pid) && Run(c, s, []) == s
  {}

  lemma AnswersSplit(c: Config, s: State, a: seq<Event>, b: seq<Event>, pid: Pid)
    requires Legal(c, s, a) && Legal(c, Run(c, s, a), b)
    ensures Legal(c, s, a + b)
    ensures AnswersTo(c, s, a + b, pid) == AnswersTo(c, s, a, pid) + AnswersTo(c, Run(c, s, a), b, pid)
  {
    hide Run, Legal, For;
    RunSplit(c, s, a, b);
    RunGrows(c, s, a);
    RunGrows(c, Run(c, s, a), b);
    var r, end := Run(c, s, a).sent, Run(c, s, a + b).sent;
    assert end[|s.sent|..] == r[|s.sent|..] + end[|r|..];
    ForConcat(pid, r[|s.sent|..], end[|r|..]);
  }

  lemma AnswersOne(c: Config, s: State, ev: Event, pid: Pid, added: seq<Response>)
    requires Enabled(s.q, ev) && Step(c, s, ev).sent == s.sent + added
    ensures Legal(c, s, [ev]) && Run(c, s, [ev]) == Step(c, s, ev) && AnswersTo(c, s, [ev], pid) == For(pid, added)
  {
    hide Step, Enabled, For;
    var r := Step(c, s, ev);
    assert [ev][1..] == [];
    assert Run(c, r, []) == r;
    assert r.sent[|s.sent|..] == added;
  }

  /** The close of the thread that runs. */
  lemma CloseIs(c: Config, q: Queues, p: Pid)
    requires QueueInv(c, q) && p in q.prog && q.prog[p].exec.Some?
    ensures var ev := EClose(p, q.prog[p].exec.value.tid); Enabled(q, ev) && Due(q, ev) && EndsThread(q, ev)
  {
    ExecOf(q, p);
    ExecPid(q, q.prog[p].exec.value);
  }

  /** After a close that admitted another program's thread, that thread can run, and so the story repeats. */
  lemma AdmittedCanRun(s: State, r: State, pid: Pid, added: seq<Response>)
    requires Admits(s, r, pid, added) && OwnInNew(s.q, pid) && Waiting(s.q, pid)
    requires s.q.newList[Admitted(s.q)].pid != pid
    ensures OwnInNew(r.q, pid) && Waiting(r.q, pid) && CanRun(r.q, pid, s.q.newList[Admitted(s.q)])
    ensures |r.q.newList| < |s.q.newList|
  {
    hide For, CountIn, FirstRunnable, FirstOwn, RemoveAt, Parked;
    ParkedWaits(s.q, pid);
    ParkedWaits(r.q, pid);
    FrontMoves(s, r, pid, true);
  }

  lemma OwnAdmitted(s: State, r: State, pid: Pid, added: seq<Response>)
    requires Admits(s, r, pid, added) && OwnInNew(s.q, pid) && Waiting(s.q, pid)
        && s.q.newList[Admitted(s.q)].pid == pid
    ensures For(pid, added) != []
  {
    hide For, Waiting;
  }

  /** Requests of the others that end in an answer: one thread is brought to run and closed;
      if the admitted thread is not `pid`'s, it comes next. NEW gets shorter each time. */
  lemma {:induction false} Rescue(c: Config, s: State, pid: Pid) returns (evs: seq<Event>)
    requires GoodConfig(c) && Safe(c, s) && Waiting(s.q, pid) && OwnInNew(s.q, pid) && CanEnd(s.q, pid)
    ensures Legal(c, s, evs) && AllDue(c, s, evs) && OthersOnly(evs, pid) && AnswersTo(c, s, evs, pid) != []
    decreases |s.q.newList|
  {
    hide Safe, Step, Enabled, Waiting, SameStatus, EndsThread, Run, Legal, QueueInv, Admits, OwnInNew, AnswersTo,
        CanRun, Admitted, AllDue, Due;
    var k :| CanRun(s.q, pid, k);
    var lead := Leads(c, s, pid, k);
    var s1 := Run(c, s, lead);
    LedKeeps(c, s, lead, pid);
    OtherPid(s.q, pid, k);
    var ev := EClose(k.pid, s1.q.prog[k.pid].exec.value.tid);
    RunSafe(c, s, lead);
    SafeQueues(c, s1);
    CloseIs(c, s1.q, k.pid);
    var added := CloseAdmitsFor(c, s1, ev, pid);
    var s2 := Step(c, s1, ev);
    AdmitsSent(s1, s2, pid, added);
    AnswersOne(c, s1, ev, pid, added);
    AnswersSplit(c, s, lead, [ev], pid);
    RunSplit(c, s, lead, [ev]);
    DueOne(c, s1, ev);
    DueSplit(c, s, lead, [ev]);
    OwnNew(s1.q, pid);
    if s1.q.newList[Admitted(s1.q)].pid == pid {
      OwnAdmitted(s1, s2, pid, added);
      evs := lead + [ev];
    } else {
      AdmittedCanRun(s1, s2, pid, added);
      StepSafe(c, s1, ev);
      var rest := Rescue(c, s2, pid);
      AnswersSplit(c, s, lead + [ev], rest, pid);
      DueSplit(c, s, lead + [ev], rest);
      evs := lead + [ev] + rest;
    }
  }

  lemma LedKeeps(c: Config, s: State, evs: seq<Event>, pid: Pid)
    requires Led(c, s, evs, pid) && Waiting(s.q, pid) && OwnInNew(s.q, pid)
    ensures Legal(c, s, evs) && AllDue(c, s, evs) && OthersOnly(evs, pid)
    ensures Waiting(Run(c, s, evs).q, pid) && OwnInNew(Run(c, s, evs).q, pid)
    ensures |Run(c, s, evs).q.newList| == |s.q.newList|
  {
    hide Run, Legal, AllDue, Parked, FirstOwn;
    ParkedWaits(s.q, pid);
    ParkedWaits(Run(c, s, evs).q, pid);
  }

  lemma OtherPid(q: Queues, pid: Pid, k: ThreadId)
    requires CanRun(q, pid, k)
    ensures k.pid != pid
  {}

  lemma AdmitsSent(s: State, r: State, pid: Pid, added: seq<Response>)
    requires Admits(s, r, pid, added)
    ensures r.sent == s.sent + added
  {}

  lemma OwnNew(q: Queues, pid: Pid)
    requires OwnInNew(q, pid)
    ensures q.newList != []
  {}

  /** In every reachable state: a client that waits for a second answer can still get it, by
      some requests of the others, if and only if it has a thread in NEW and another
      program that is not asking has a thread that runs, is ready, or waits on a semaphore
      that its name finds. Then clients of the library can make the requests: each comes from a
      program that the server knows and that is not waiting. */
  lemma AnswerableIff(c: Config, sems: seq<Semaphore>, before: seq<Event>, pid: Pid)
    requires GoodConfig(c) && GoodSems(sems) && Legal(c, Init(sems), before)
    requires Waiting(Run(c, Init(sems), before).q, pid)
    ensures var s := Run(c, Init(sems), before);
            (exists evs :: Legal(c, s, evs) && OthersOnly(evs, pid) && AnswersTo(c, s, evs, pid) != []) <==>
            OwnInNew(s.q, pid) && CanEnd(s.q, pid)
    ensures var s := Run(c, Init(sems), before);
            OwnInNew(s.q, pid) && CanEnd(s.q, pid) ==>
              exists evs :: Legal(c, s, evs) && AllDue(c, s, evs) && OthersOnly(evs, pid)
                            && AnswersTo(c, s, evs, pid) != []
  {
    hide Safe, Run, Legal, Waiting, OwnInNew, CanEnd, AnswersTo, OthersOnly, AllDue;
    ReachableSafe(c, sems, before);
    var s := Run(c, Init(sems), before);
    if OwnInNew(s.q, pid) && CanEnd(s.q, pid) {
      var evs := Rescue(c, s, pid);
    } else {
      forall evs | Legal(c, s, evs) && OthersOnly(evs, pid) ensures AnswersTo(c, s, evs, pid) == [] {
        NeverAnswered(c, s, pid, evs);
      }
    }
  }
}

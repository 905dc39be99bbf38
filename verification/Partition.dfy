/** Every thread is in exactly one list, and requests neither lose nor duplicate threads. */
module Partition {
  import opened Lists
  import opened Model
  import opened Ops
  import opened Invariant
  import opened Timeline
  import opened Runs

  ghost function OfProgram(p: Program): multiset<ThreadId> {
    multiset(p.ready) + (if p.exec.Some? then multiset{p.exec.value} else multiset{})
  }

  ghost function OfPrograms(programs: seq<Pid>, prog: map<Pid, Program>): multiset<ThreadId> {
    if programs == [] then multiset{}
    else
      var pid := programs[|programs| - 1];
      OfPrograms(programs[..|programs| - 1], prog) + (if pid in prog then OfProgram(prog[pid]) else multiset{})
  }

  ghost function OfQueues(sems: seq<Semaphore>): multiset<ThreadId> {
    if sems == [] then multiset{} else OfQueues(sems[..|sems| - 1]) + multiset(sems[|sems| - 1].queue)
  }

  /** Every occurrence of a thread in any of the server's lists. */
  ghost function Everywhere(q: Queues): multiset<ThreadId> {
    multiset(q.newList) + multiset(q.exitList) + multiset(JoinIds(q.blocked)) + OfPrograms(q.programs, q.prog)
        + OfQueues(q.sems)
  }

  lemma OfProgramCount(q: Queues, pid: Pid, k: ThreadId)
    requires Structure(q) && pid in q.prog
    ensures OfProgram(q.prog[pid])[k] == if k in q.place && k.pid == pid && q.place[k] in {Ready, Exec} then 1 else 0
  {
    assert ProgramHolds(q.prog[pid], q.place, pid);
    OccursOnce(q.prog[pid].ready, k);
  }

  lemma {:induction false} OfProgramsCount(q: Queues, n: nat, k: ThreadId)
    requires Structure(q) && n <= |q.programs|
    ensures OfPrograms(q.programs[..n], q.prog)[k] ==
            if k in q.place && k.pid in q.programs[..n] && q.place[k] in {Ready, Exec} then 1 else 0
  {
    if n > 0 {
      var front, pid := q.programs[..n - 1], q.programs[n - 1];
      assert q.programs[..n][..n - 1] == front && q.programs[..n] == front + [pid];
      assert pid !in front;
      assert pid in q.programs;
      OfProgramsCount(q, n - 1, k);
      OfProgramCount(q, pid, k);
    }
  }

  lemma {:induction false} OfQueuesCount(q: Queues, n: nat, k: ThreadId)
    requires Structure(q) && n <= |q.sems|
    ensures OfQueues(q.sems[..n])[k] == if k in q.place && q.place[k].Queued? && q.place[k].sem < n then 1 else 0
  {
    if n > 0 {
      assert q.sems[..n][..n - 1] == q.sems[..n - 1];
      assert Holds(q.sems[n - 1].queue, q.place, Queued(n - 1));
      OfQueuesCount(q, n - 1, k);
      OccursOnce(q.sems[n - 1].queue, k);
    }
  }

  /** Each thread that was created and not destroyed occurs exactly once in all the
      lists together, no other thread occurs, and a ready or running thread is under
      its own program. */
  lemma ExactlyOnce(q: Queues, k: ThreadId)
    requires Structure(q)
    ensures Everywhere(q)[k] == if k in q.place then 1 else 0
    ensures forall p :: p in q.prog ==> (k in q.prog[p].ready || q.prog[p].exec == Some(k) ==> p == k.pid)
    ensures k in q.place ==> k.pid in q.programs
  {
    ListsCount(q, k);
    OfProgramsCount(q, |q.programs|, k);
    OfQueuesCount(q, |q.sems|, k);
    assert q.programs[..|q.programs|] == q.programs && q.sems[..|q.sems|] == q.sems;
    OwnProgram(q, k);
    hide Structure, OfPrograms, OfQueues, JoinIds;
  }

  /** The three lists of the whole server. */
  lemma ListsCount(q: Queues, k: ThreadId)
    requires Structure(q)
    ensures multiset(q.newList)[k] == if k in q.place && q.place[k] == New then 1 else 0
    ensures multiset(q.exitList)[k] == if k in q.place && q.place[k] == Exited then 1 else 0
    ensures multiset(JoinIds(q.blocked))[k] == if k in q.place && q.place[k] == Joined then 1 else 0
  {
    hide ProgramsHold, SemsHold, JoinIds;
    OccursOnce(q.newList, k);
    OccursOnce(q.exitList, k);
    OccursOnce(JoinIds(q.blocked), k);
  }

  lemma OwnProgram(q: Queues, k: ThreadId)
    requires Structure(q)
    ensures forall p :: p in q.prog ==> (k in q.prog[p].ready || q.prog[p].exec == Some(k) ==> p == k.pid)
    ensures k in q.place ==> k.pid in q.programs && (q.place[k].Queued? ==> q.place[k].sem < |q.sems|)
  {
    forall p | p in q.prog ensures k in q.prog[p].ready || q.prog[p].exec == Some(k) ==> p == k.pid {
      assert ProgramHolds(q.prog[p], q.place, p);
    }
  }

  lemma LiveListed(q: Queues)
    requires Structure(q)
    ensures forall p :: p in q.programs <==> p in q.prog
  {}

  /** Over every run, the lists partition the threads that have a record, and a thread in
      any list names a program that still exists. */
  lemma PartitionAlways(c: Config, sems: seq<Semaphore>, evs: seq<Event>, k: ThreadId)
    requires GoodConfig(c) && GoodSems(sems) && Legal(c, Init(sems), evs)
    ensures var r := Run(c, Init(sems), evs);
            && Everywhere(r.q)[k] == (if k in r.threads then 1 else 0)
            && (k in r.threads ==> k.pid in r.q.programs && k.pid in r.q.prog)
            && (forall p :: p in r.q.prog ==> (k in r.q.prog[p].ready || r.q.prog[p].exec == Some(k) ==> p == k.pid))
  {
    hide Everywhere, Run, Structure, ThreadOk;
    ReachableSafe(c, sems, evs);
    var q := Run(c, Init(sems), evs).q;
    ExactlyOnce(q, k);
    LiveListed(q);
  }

  // ----- Conservation

  /** The threads with a record after a request: what a create adds, and all threads of
      a program that a close ends, are the only difference. */
  ghost predicate Conserves(s: State, r: State, ev: Event) {
    forall k :: k in r.q.place <==>
      (k in s.q.place || (ev.ECreate? && k == ThreadId(ev.pid, ev.tid)))
          && (ev.EClose? ==> k.pid != ev.pid || ev.pid in r.q.prog)
  }

  lemma ExitPlaces(c: Config, s: State, e: ThreadId)
    ensures forall k :: k in Exit(c, s, e).q.place <==> k in s.q.place || k == e
  {}

  lemma DistributePlaces(c: Config, s: State)
    requires Structure(s.q)
    ensures Distribute(c, s).q.place.Keys == s.q.place.Keys && Distribute(c, s).q.prog.Keys == s.q.prog.Keys
  {
    hide Structure;
    if s.q.newList != [] {
      var i := FirstRunnable(s.q.newList, s.q.prog);
      NewOf(s.q, if i < |s.q.newList| then i else 0);
    }
  }

  lemma CloseConserves(c: Config, s: State, pid: Pid, tid: int)
    requires QueueInv(c, s.q) && Enabled(s.q, EClose(pid, tid))
    ensures Conserves(s, Close(c, s, pid, tid), EClose(pid, tid))
  {
    hide Structure, Ordered, TargetsLive, Dormant, AllAlive, Exit, Distribute;
    var e := s.q.prog[pid].exec.value;
    ExecOf(s.q, pid);
    if e.tid == tid {
      ExitPlaces(c, s, e);
      ExitKeeps(c, s, e);
      ReapKeeps(Exit(c, s, e), pid);
      DistributePlaces(c, Reap(Exit(c, s, e), pid));
    }
  }

  lemma ThreadsConserved(c: Config, s: State, ev: Event)
    requires QueueInv(c, s.q) && Enabled(s.q, ev)
    ensures Conserves(s, Step(c, s, ev), ev)
  {
    hide Structure, Ordered, TargetsLive, Dormant, AllAlive, Close, Mark, Choose, FindSem;
    match ev
    case EClose(pid, tid) => CloseConserves(c, s, pid, tid);
    case ESchedule(pid) =>
      if pid in s.q.prog && s.q.prog[pid].exec.Some? {
        ExecOf(s.q, pid);
      }
      if pid in s.q.prog {
        ReadyPlaces(s.q, pid);
      }
    case EJoin(pid, tid) => ExecOf(s.q, pid);
    case EWait(pid, tid, id) => ExecOf(s.q, pid);
    case ESignal(pid, tid, id) =>
      if s.q.sems[FindSem(s.q.sems, id)].queue != [] {
        QueueHead(s.q, FindSem(s.q.sems, id));
      }
    case _ =>
  }

  /** A close destroys a program only when all of its threads have exited. */
  lemma OnlyExitedDestroyed(c: Config, s: State, pid: Pid, tid: int, k: ThreadId)
    requires QueueInv(c, s.q) && Enabled(s.q, EClose(pid, tid)) && k in s.q.place && k !in Close(c, s, pid, tid).q.place
    ensures k.pid == pid && (s.q.place[k] == Exited || s.q.prog[pid].exec == Some(k))
  {
    hide Structure, Ordered, TargetsLive, Dormant, AllAlive;
    var e := s.q.prog[pid].exec.value;
    ThreadsConserved(c, s, EClose(pid, tid));
    ExecOf(s.q, pid);
    ExitPlaces(c, s, e);
    ExitKeeps(c, s, e);
    ReapKeeps(Exit(c, s, e), pid);
    DistributePlaces(c, Reap(Exit(c, s, e), pid));
    JoinedPlaces(s.q, e);
  }

  /** A program leaves the server exactly when all of its threads have exited; then all of
      them leave with it. The other programs stay, with their records and in the order they
      had, and so do their exited threads. */
  lemma ReapLeavesOthers(s: State, pid: Pid)
    requires Structure(s.q) && pid in s.q.prog
    ensures var q, r := s.q, Reap(s, pid).q;
            && NoDup(r.programs) && (pid in r.programs <==> !Gone(q, pid))
            && (forall p :: p != pid ==> (p in r.programs <==> p in q.programs))
            && (forall a, b :: Precedes(r.programs, a, b) ==> Precedes(q.programs, a, b))
            && (forall p :: p in q.prog && p != pid ==> p in r.prog && r.prog[p] == q.prog[p])
            && (forall k :: k in r.place <==> k in q.place && (k.pid == pid ==> !Gone(q, pid)))
            && (forall k :: k in q.exitList && k.pid != pid ==> k in r.exitList)
  {
    hide Precedes, Holds, ProgramsHold, SemsHold, OthersOf, JoinIds;
    var q, r := s.q, Reap(s, pid).q;
    if Gone(q, pid) {
      var i := IndexOf(q.programs, pid);
      RemoveAtKeeps(q.programs, i);
      forall a, b | Precedes(r.programs, a, b) ensures Precedes(q.programs, a, b) {
        RemoveAtOrder(q.programs, i, a, b);
      }
      ExitOnce(q);
      OthersOfKeeps(q.exitList, pid);
    }
  }

  lemma ExitOnce(q: Queues)
    requires Structure(q)
    ensures NoDup(q.exitList)
  {}
}

/** What every reachable state of the scheduler satisfies. */
module Invariant {
  import opened Lists
  import opened Model
  import opened Ops

  /** A thread is never joined on one that was already blocked before it. */
  ghost predicate Ordered(bs: seq<Block>) {
    bs == [] ||
    var front, b := bs[..|bs| - 1], bs[|bs| - 1];
    Ordered(front) && (b.JoinBlock? ==> b.blocking != b.blocked && b.blocking !in JoinIds(front))
  }

  /** Join waits are for a live thread of the same program. */
  ghost predicate TargetsLive(bs: seq<Block>, place: map<ThreadId, Place>) {
    forall b :: b in bs && b.JoinBlock? ==>
      b.blocking in place && place[b.blocking] != Exited && b.blocking.pid == b.blocked.pid
  }

  /** A program that is not executing has at most one thread, waiting in NEW. */
  ghost predicate Dormant(q: Queues) {
    && (forall k :: k in q.place && k.pid in q.prog && !q.prog[k.pid].executing ==> q.place[k] == New)
    && (forall k, j ::
          k in q.place && j in q.place && k.pid == j.pid && k.pid in q.prog && !q.prog[k.pid].executing ==> k == j)
  }

  /** Programs waiting for a thread run nothing and wait once; one that is not executing
      asked before its first create and has no threads. */
  ghost predicate AskingIdle(q: Queues) {
    && NoDup(q.asking)
    && (forall p :: p in q.asking ==> p in q.prog && q.prog[p].exec == None)
    && (forall k :: k in q.place && k.pid in q.asking && k.pid in q.prog ==> q.prog[k.pid].executing)
  }

  ghost predicate Alive(q: Queues, pid: Pid) {
    exists k :: k in q.place && k.pid == pid && q.place[k] != Exited
  }

  ghost predicate AllAlive(q: Queues) {
    forall p :: p in q.prog && q.prog[p].executing ==> Alive(q, p)
  }

  ghost predicate SemValue(m: Semaphore) {
    1 <= m.max && m.value <= m.max && |m.queue| == if m.value < 0 then -m.value else 0
  }

  ghost predicate SemValues(sems: seq<Semaphore>) {
    forall i :: 0 <= i < |sems| ==> SemValue(sems[i])
  }

  /** The limit is respected, and a thread waits in NEW only at the limit. */
  ghost predicate Admission(c: Config, q: Queues) {
    Grade(q) <= c.maxMultiprog && (q.newList != [] ==> Grade(q) == c.maxMultiprog)
  }

  /** What holds even between the steps of a close. */
  ghost predicate Core(q: Queues) {
    Structure(q) && Ordered(q.blocked) && TargetsLive(q.blocked, q.place) && Dormant(q) && AskingIdle(q)
  }

  ghost predicate QueueInv(c: Config, q: Queues) {
    Core(q) && SemValues(q.sems) && AllAlive(q) && Admission(c, q)
  }

  // ----- Small facts

  lemma {:induction false} OtherBlocksOrdered(bs: seq<Block>, k: ThreadId)
    requires Ordered(bs) && NoDup(JoinIds(bs))
    ensures Ordered(OtherBlocks(bs, k))
  {
    if bs != [] {
      var front, b := bs[..|bs| - 1], bs[|bs| - 1];
      JoinIdsFront(bs);
      OtherBlocksOrdered(front, k);
      ReleaseSplits(front, k);
      if !(b.JoinBlock? && b.blocking == k) {
        assert OtherBlocks(bs, k)[..|OtherBlocks(bs, k)| - 1] == OtherBlocks(front, k);
      } else {
        assert OtherBlocks(bs, k) == OtherBlocks(front, k);
      }
    }
  }

  lemma GradeGrows(place: map<ThreadId, Place>, k: ThreadId, v: Place)
    requires v != New && v != Exited && (k in place ==> place[k] == New)
    ensures |Active(place[k := v])| == |Active(place)| + 1
  {
    assert Active(place[k := v]) == Active(place) + {k};
  }

  lemma GradeShrinks(place: map<ThreadId, Place>, k: ThreadId)
    requires k in place && place[k] != New && place[k] != Exited
    ensures |Active(place[k := Exited])| == |Active(place)| - 1
  {
    assert Active(place) == Active(place[k := Exited]) + {k};
  }

  lemma GradeSame(place: map<ThreadId, Place>, k: ThreadId, v: Place)
    requires k in place && place[k] != New && place[k] != Exited && v != New && v != Exited
    ensures |Active(place[k := v])| == |Active(place)|
  {
    assert Active(place[k := v]) == Active(place);
  }

  lemma ExecOf(q: Queues, pid: Pid)
    requires Structure(q) && pid in q.prog && q.prog[pid].exec.Some?
    ensures var e := q.prog[pid].exec.value; e in q.place && e.pid == pid && q.place[e] == Exec
  {
    assert ProgramHolds(q.prog[pid], q.place, pid);
  }

  lemma ReadyOf(q: Queues, pid: Pid, i: nat)
    requires Structure(q) && pid in q.prog && i < |q.prog[pid].ready|
    ensures var k := q.prog[pid].ready[i]; k in q.place && k.pid == pid && q.place[k] == Ready
  {
    assert ProgramHolds(q.prog[pid], q.place, pid) && q.prog[pid].ready[i] in q.prog[pid].ready;
  }

  // ----- Each operation

  lemma ConnectStructure(s: State, pid: Pid)
    requires Structure(s.q) && pid !in s.q.prog
    ensures Structure(Connect(s, pid).q) && forall k :: k in s.q.place ==> k.pid != pid
  {
    var q, r := s.q, Connect(s, pid).q;
    AppendKeeps(q.programs, pid);
    forall p | p in r.prog ensures ProgramHolds(r.prog[p], r.place, p) {
      assert p in q.prog ==> ProgramHolds(q.prog[p], q.place, p);
    }
  }

  lemma ConnectKeeps(c: Config, s: State, pid: Pid)
    requires QueueInv(c, s.q) && pid !in s.q.prog
    ensures QueueInv(c, Connect(s, pid).q)
  {
    hide Structure;
    var q, r := s.q, Connect(s, pid).q;
    ConnectStructure(s, pid);
    assert AllAlive(r) by {
      forall p | p in r.prog && r.prog[p].executing ensures Alive(r, p) {
        assert Alive(q, p);
      }
    }
  }

  /** Alive is kept by a move of one thread to a place other than EXIT. */
  lemma AliveFrame(q: Queues, r: Queues, k: ThreadId, v: Place)
    requires AllAlive(q) && r.place == q.place[k := v] && v != Exited
    requires forall p :: p in r.prog && r.prog[p].executing && p != k.pid ==> p in q.prog && q.prog[p].executing
    ensures AllAlive(r)
  {
    forall p | p in r.prog && r.prog[p].executing ensures Alive(r, p) {
      if p == k.pid {
        assert k in r.place;
      } else {
        assert Alive(q, p);
        var j :| j in q.place && j.pid == p && q.place[j] != Exited;
        assert j in r.place;
      }
    }
  }

  lemma NewOf(q: Queues, i: nat)
    requires Structure(q) && i < |q.newList|
    ensures var k := q.newList[i]; k in q.place && q.place[k] == New && k.pid in q.prog
  {
    assert q.newList[i] in q.newList;
  }

  lemma NotJoined(q: Queues, k: ThreadId)
    requires Structure(q) && k in q.place && q.place[k] != Joined
    ensures k !in JoinIds(q.blocked)
  {}

  // ----- Moves keep the core

  lemma FreshToNewCore(q: Queues, k: ThreadId)
    requires Core(q) && k !in q.place && k.pid in q.prog && !Waiting(q, k.pid)
    ensures Core(FreshToNew(q, k))
  {
    hide Structure;
    FreshToNewKeeps(q, k);
  }

  lemma FreshToReadyCore(q: Queues, k: ThreadId)
    requires Core(q) && k !in q.place && k.pid in q.prog && q.prog[k.pid].executing
    ensures Core(FreshToReady(q, k))
  {
    hide Structure;
    FreshToReadyKeeps(q, k);
  }

  lemma FreshToExecCore(q: Queues, k: ThreadId)
    requires Core(q) && k !in q.place && k.pid in q.prog && q.prog[k.pid].exec == None && !Waiting(q, k.pid)
    ensures Core(FreshToExec(q, k))
  {
    hide Structure;
    FreshToExecKeeps(q, k);
  }

  lemma ExecToReadyCore(q: Queues, k: ThreadId)
    requires Core(q) && k in q.place && q.place[k] == Exec
    ensures Core(ExecToReady(q, k))
  {
    hide Structure;
    ExecToReadyKeeps(q, k);
  }

  lemma ReadyToExecCore(q: Queues, pid: Pid, i: nat)
    requires Core(q) && pid in q.prog && i < |q.prog[pid].ready| && q.prog[pid].exec == None && pid !in q.asking
    ensures Core(ReadyToExec(q, pid, i))
  {
    hide Structure;
    ReadyOf(q, pid, i);
    ReadyToExecKeeps(q, pid, i);
  }

  lemma OrderedAppend(bs: seq<Block>, b: Block)
    requires Ordered(bs) && b.JoinBlock? && b.blocking != b.blocked && b.blocking !in JoinIds(bs)
    ensures Ordered(bs + [b])
  {
    assert (bs + [b])[..|bs|] == bs;
  }

  lemma ExecToJoinedCore(q: Queues, k: ThreadId, target: ThreadId)
    requires Core(q) && k in q.place && q.place[k] == Exec && k.pid == target.pid
    requires target in q.place && q.place[target] in {New, Ready}
    ensures Core(ExecToJoined(q, k, target))
  {
    hide Structure, Ordered, JoinIds;
    NotJoined(q, k);
    NotJoined(q, target);
    ExecToJoinedKeeps(q, k, target);
    OrderedAppend(q.blocked, JoinBlock(k, target));
  }

  lemma ExecToQueueCore(q: Queues, k: ThreadId, i: nat)
    requires Core(q) && k in q.place && q.place[k] == Exec && i < |q.sems|
    ensures Core(ExecToQueue(q, k, i))
  {
    hide Structure;
    ExecToQueueKeeps(q, k, i);
  }

  lemma QueueToReadyCore(q: Queues, i: nat)
    requires Core(q) && i < |q.sems| && q.sems[i].queue != []
    ensures Core(QueueToReady(q, i))
  {
    hide Structure;
    QueueHead(q, i);
    QueueToReadyKeeps(q, i);
  }

  lemma NewToReadyCore(q: Queues, i: nat)
    requires Core(q) && i < |q.newList| && q.newList[i].pid in q.prog && q.prog[q.newList[i].pid].executing
    ensures Core(NewToReady(q, i))
  {
    hide Structure;
    NewOf(q, i);
    NewToReadyKeeps(q, i);
  }

  lemma NewToExecCore(q: Queues, i: nat)
    requires Core(q) && i < |q.newList| && q.newList[i].pid !in q.asking
    requires q.newList[i].pid in q.prog ==> q.prog[q.newList[i].pid].exec == None
    ensures q.newList[i].pid in q.prog && Core(NewToExec(q, i))
  {
    hide Structure;
    NewOf(q, i);
    NewToExecKeeps(q, i);
  }

  lemma ReleaseJoinsCore(q: Queues, k: ThreadId)
    requires Core(q) && k in q.place && q.place[k] == Exec
    ensures var r := ReleaseJoins(q, k);
            Core(r) && r.place[k] == Exec && (forall b :: b in r.blocked && b.JoinBlock? ==> b.blocking != k)
    ensures forall j :: j in JoinedOn(q.blocked, k) ==> j in q.place && q.place[j] == Joined && j.pid == k.pid
  {
    hide Structure, Ordered, Dormant, AskingIdle, AllReady;
    JoinedOnMembers(q.blocked, k);
    JoinedPlaces(q, k);
    ReleaseJoinsKeeps(q, k);
    OtherBlocksOrdered(q.blocked, k);
    ReleasePlaces(q.place, JoinedOn(q.blocked, k));
    ReleaseDormant(q, k);
  }

  lemma ReleasePlaces(place: map<ThreadId, Place>, released: seq<ThreadId>)
    requires forall j :: j in released ==> j in place && place[j] == Joined
    ensures AllReady(place, released).Keys == place.Keys
    ensures forall j :: j in place ==>
              AllReady(place, released)[j] == if place[j] == Joined && j in released then Ready else place[j]
  {}

  lemma ReleaseDormant(q: Queues, k: ThreadId)
    requires Dormant(q) && AskingIdle(q) && k in q.place
    requires forall j :: j in JoinedOn(q.blocked, k) ==> j in q.place && q.place[j] == Joined
    ensures Dormant(ReleaseJoins(q, k)) && AskingIdle(ReleaseJoins(q, k))
  {
    hide JoinedOn, OtherBlocks, AllReady, AskingIdle;
    var r, released := ReleaseJoins(q, k), JoinedOn(q.blocked, k);
    ReleasePlaces(q.place, released);
    assert forall p :: p in r.prog ==> p in q.prog && r.prog[p].executing == q.prog[p].executing;
    AskingFrame(q, r);
  }

  lemma AskingFrame(q: Queues, r: Queues)
    requires AskingIdle(q) && r.asking == q.asking && r.prog.Keys == q.prog.Keys && r.place.Keys == q.place.Keys
    requires forall p :: p in q.prog ==> r.prog[p].exec == q.prog[p].exec && r.prog[p].executing == q.prog[p].executing
    ensures AskingIdle(r)
  {}

  lemma JoinedPlaces(q: Queues, k: ThreadId)
    requires Structure(q)
    ensures NoDup(JoinIds(q.blocked))
    ensures forall j :: j in JoinedOn(q.blocked, k) ==> j in q.place && q.place[j] == Joined
    ensures k in q.place ==> k.pid in q.prog
  {
    ReleaseSplits(q.blocked, k);
  }

  lemma ExecToExitCore(q: Queues, k: ThreadId)
    requires Core(q) && k in q.place && q.place[k] == Exec
    requires forall b :: b in q.blocked && b.JoinBlock? ==> b.blocking != k
    ensures Core(ExecToExit(q, k))
  {
    hide Structure, Ordered;
    ExecToExitKeeps(q, k);
  }

  lemma DropCore(q: Queues, pid: Pid)
    requires Core(q) && pid in q.prog && Gone(q, pid) && pid !in q.asking
    ensures Core(DropProgram(q, pid))
  {
    hide Structure;
    DropProgramKeeps(q, pid);
    assert forall b :: b in q.blocked && b.JoinBlock? ==> b.blocking.pid != pid;
  }

  lemma DormantExec(q: Queues, pid: Pid)
    requires Structure(q) && Dormant(q) && pid in q.prog && !q.prog[pid].executing
    ensures q.prog[pid].exec == None && q.prog[pid].ready == []
  {
    var p := q.prog[pid];
    assert ProgramHolds(p, q.place, pid);
    NoDupSize(p.ready, {});
  }

  // ----- Operations keep the invariant

  lemma CreateKeeps(c: Config, s: State, pid: Pid, tid: int)
    requires QueueInv(c, s.q) && Enabled(s.q, ECreate(pid, tid))
    ensures QueueInv(c, Create(c, s, pid, tid).q)
  {
    hide Structure, Ordered, TargetsLive, Dormant, AllAlive;
    var q, k, r := s.q, ThreadId(pid, tid), Create(c, s, pid, tid).q;
    if Grade(q) >= c.maxMultiprog {
      FreshToNewCore(q, k);
      assert Active(r.place) == Active(q.place);
      AliveFrame(q, r, k, New);
    } else if q.prog[pid].executing && q.prog[pid].exec.Some? {
      FreshToReadyCore(q, k);
      GradeGrows(q.place, k, Ready);
      AliveFrame(q, r, k, Ready);
    } else {
      if !q.prog[pid].executing {
        DormantExec(q, pid);
      }
      FreshToExecCore(q, k);
      GradeGrows(q.place, k, Exec);
      AliveFrame(q, r, k, Exec);
    }
  }

  lemma ScheduleKeeps(c: Config, s: State, pid: Pid)
    requires QueueInv(c, s.q) && Enabled(s.q, ESchedule(pid))
    ensures QueueInv(c, Schedule(c, s, pid).q)
  {
    hide Structure, Ordered, TargetsLive, Dormant, AllAlive;
    var q, r := s.q, Schedule(c, s, pid).q;
    if pid in q.prog {
      var p := q.prog[pid];
      if p.ready != [] {
        var i := Choose(Reestimated(c.alpha, s.threads, p.ready), p.ready);
        var k := p.ready[i];
        ReadyOf(q, pid, i);
        if p.exec.Some? {
          var e := p.exec.value;
          ExecOf(q, pid);
          ExecToReadyCore(q, e);
          GradeSame(q.place, e, Ready);
          AliveFrame(q, ExecToReady(q, e), e, Ready);
          assert ExecToReady(q, e).prog[pid].ready[i] == k;
          ReadyToExecCore(ExecToReady(q, e), pid, i);
          GradeSame(q.place[e := Ready], k, Exec);
          AliveFrame(ExecToReady(q, e), r, k, Exec);
        } else {
          ReadyToExecCore(q, pid, i);
          GradeSame(q.place, k, Exec);
          AliveFrame(q, r, k, Exec);
        }
      } else if p.exec.None? {
        AppendKeeps(q.asking, pid);
        assert Waiting(q, pid) || forall k :: k in q.place && k.pid == pid ==> p.executing;
        ReaskKeeps(q, q.asking + [pid]);
      }
    }
  }

  lemma ReaskKeeps(q: Queues, asking: seq<Pid>)
    requires Core(q) && AllAlive(q) && AskingIdle(q.(asking := asking))
    ensures Core(q.(asking := asking)) && AllAlive(q.(asking := asking))
  {
    hide Holds, ProgramsHold, SemsHold, Ordered;
    forall p | p in q.prog && q.prog[p].executing ensures Alive(q.(asking := asking), p) {
      assert Alive(q, p);
    }
  }

  /** A thread of a live program is found exactly where the lookup looks. */
  lemma FoundIff(q: Queues, pid: Pid, tid: int)
    requires Structure(q) && pid in q.prog
    ensures var k := ThreadId(pid, tid);
            && FindThread(q, pid, tid) in {None, Some(k)}
            && (FindThread(q, pid, tid) == Some(k) <==> k in q.place && q.place[k] in {New, Ready, Exited})
  {
    assert ProgramHolds(q.prog[pid], q.place, pid);
  }

  lemma FoundThread(q: Queues, pid: Pid, tid: int)
    requires Structure(q) && pid in q.prog && FindThread(q, pid, tid).Some?
    ensures var k := ThreadId(pid, tid); k in q.place && q.place[k] in {New, Ready, Exited}
    ensures ThreadId(pid, tid) in q.exitList <==> q.place[ThreadId(pid, tid)] == Exited
  {
    assert ProgramHolds(q.prog[pid], q.place, pid);
  }

  lemma JoinKeeps(c: Config, s: State, pid: Pid, tid: int)
    requires QueueInv(c, s.q) && Enabled(s.q, EJoin(pid, tid))
    ensures QueueInv(c, Join(c, s, pid, tid).q)
  {
    hide Structure, Ordered, TargetsLive, Dormant, AllAlive;
    var q, e, target, r := s.q, s.q.prog[pid].exec.value, ThreadId(pid, tid), Join(c, s, pid, tid).q;
    ExecOf(q, pid);
    FoundThread(q, pid, tid);
    if target in q.exitList {
      ExecToReadyCore(q, e);
      GradeSame(q.place, e, Ready);
      AliveFrame(q, r, e, Ready);
    } else {
      ExecToJoinedCore(q, e, target);
      GradeSame(q.place, e, Joined);
      AliveFrame(q, r, e, Joined);
    }
  }

  lemma WaitKeeps(c: Config, s: State, pid: Pid, tid: int, id: string)
    requires QueueInv(c, s.q) && Enabled(s.q, EWait(pid, tid, id))
    ensures QueueInv(c, Wait(c, s, pid, id).q)
  {
    hide Structure, Ordered, TargetsLive, Dormant, AllAlive;
    var q, e, i, r := s.q, s.q.prog[pid].exec.value, FindSem(s.q.sems, id), Wait(c, s, pid, id).q;
    var v := SetValue(q, i, q.sems[i].value - 1);
    ExecOf(q, pid);
    assert SemValue(q.sems[i]);
    SetValueCore(q, i, q.sems[i].value - 1);
    if q.sems[i].value - 1 < 0 {
      ExecToQueueCore(v, e, i);
      GradeSame(q.place, e, Queued(i));
      AliveFrame(v, r, e, Queued(i));
    }
  }

  lemma SetValueStructure(q: Queues, i: nat, value: int)
    requires Structure(q) && i < |q.sems|
    ensures Structure(SetValue(q, i, value))
  {
    var r := SetValue(q, i, value);
    forall j: nat | j < |r.sems| ensures Holds(r.sems[j].queue, r.place, Queued(j)) {
      assert Holds(q.sems[j].queue, q.place, Queued(j));
    }
  }

  lemma SetValueCore(q: Queues, i: nat, value: int)
    requires Core(q) && AllAlive(q) && i < |q.sems|
    ensures Core(SetValue(q, i, value)) && AllAlive(SetValue(q, i, value))
  {
    hide Structure;
    var r := SetValue(q, i, value);
    SetValueStructure(q, i, value);
    forall p | p in r.prog && r.prog[p].executing ensures Alive(r, p) {
      assert Alive(q, p);
    }
  }

  lemma SignalKeeps(c: Config, s: State, pid: Pid, id: string)
    requires QueueInv(c, s.q) && FindSem(s.q.sems, id) < |s.q.sems|
    ensures QueueInv(c, Signal(c, s, pid, id).q)
  {
    hide Structure, Ordered, TargetsLive, Dormant, AllAlive;
    var q, i, r := s.q, FindSem(s.q.sems, id), Signal(c, s, pid, id).q;
    var v := SetValue(q, i, Raised(q.sems[i]));
    assert SemValue(q.sems[i]);
    SetValueCore(q, i, Raised(q.sems[i]));
    if Raised(q.sems[i]) <= 0 && q.sems[i].queue != [] {
      var k := q.sems[i].queue[0];
      QueueHead(v, i);
      QueueToReadyCore(v, i);
      GradeSame(q.place, k, Ready);
      AliveFrame(v, r, k, Ready);
    }
  }

  /** The running thread has exited; before the program is reaped it may have no live thread. */
  lemma ExitKeeps(c: Config, s: State, e: ThreadId)
    requires QueueInv(c, s.q) && e in s.q.place && s.q.place[e] == Exec
    ensures var r := Exit(c, s, e).q;
            && Core(r) && SemValues(r.sems) && Grade(r) == Grade(s.q) - 1 && r.newList == s.q.newList
            && e.pid in r.prog && e.pid !in r.asking && r.prog[e.pid].exec == None && r.prog.Keys == s.q.prog.Keys
            && (forall p :: p in r.prog && r.prog[p].executing && p != e.pid ==> Alive(r, p))
            && (forall p :: p in r.prog ==> r.prog[p].executing == s.q.prog[p].executing)
            && s.q.prog[e.pid].executing
  {
    hide Structure, Ordered, TargetsLive, Dormant;
    var q, r := s.q, Exit(c, s, e).q;
    var mid := ReleaseJoins(q, e);
    ReleaseJoinsCore(q, e);
    ExecToExitCore(mid, e);
    assert Active(mid.place) == Active(q.place);
    GradeShrinks(mid.place, e);
    ExecPid(q, e);
    forall p | p in r.prog && r.prog[p].executing && p != e.pid ensures Alive(r, p) {
      assert Alive(q, p);
      var j :| j in q.place && j.pid == p && q.place[j] != Exited;
      assert j in r.place && r.place[j] != Exited;
    }
  }

  lemma ExecPid(q: Queues, e: ThreadId)
    requires Core(q) && e in q.place && q.place[e] == Exec
    ensures e.pid in q.prog && q.prog[e.pid].exec == Some(e) && q.prog[e.pid].executing
  {
    assert ProgramHolds(q.prog[e.pid], q.place, e.pid);
  }

  lemma ReapKeeps(s: State, pid: Pid)
    requires Core(s.q) && pid in s.q.prog && pid !in s.q.asking && SemValues(s.q.sems)
    requires forall p :: p in s.q.prog && s.q.prog[p].executing && p != pid ==> Alive(s.q, p)
    ensures var r := Reap(s, pid).q;
            Core(r) && AllAlive(r) && Grade(r) == Grade(s.q) && r.newList == s.q.newList && SemValues(r.sems)
  {
    hide Structure, Ordered, TargetsLive, Dormant;
    var q, r := s.q, Reap(s, pid).q;
    if Gone(q, pid) {
      DropCore(q, pid);
      assert Active(r.place) == Active(q.place);
      forall p | p in r.prog && r.prog[p].executing ensures Alive(r, p) {
        assert Alive(q, p);
        var j :| j in q.place && j.pid == p && q.place[j] != Exited;
        assert j in r.place && r.place[j] != Exited;
      }
    } else {
      assert Alive(q, pid);
    }
  }

  lemma DistributeKeeps(c: Config, s: State)
    requires Core(s.q) && AllAlive(s.q) && SemValues(s.q.sems)
    requires Grade(s.q) <= c.maxMultiprog && (s.q.newList != [] ==> Grade(s.q) == c.maxMultiprog - 1)
    ensures QueueInv(c, Distribute(c, s).q)
  {
    hide Structure, Ordered, TargetsLive, Dormant, AllAlive;
    var q, r, i := s.q, Distribute(c, s).q, FirstRunnable(s.q.newList, s.q.prog);
    if i < |q.newList| {
      var k := q.newList[i];
      NewOf(q, i);
      if k.pid in q.asking {
        var v := q.(asking := RemoveFirst(q.asking, k.pid));
        AnswerAsking(q, k.pid);
        NewToExecCore(v, i);
        GradeGrows(q.place, k, Exec);
        AliveFrame(v, r, k, Exec);
      } else {
        NewToReadyCore(q, i);
        GradeGrows(q.place, k, Ready);
        AliveFrame(q, r, k, Ready);
      }
    } else if q.newList != [] {
      var k := q.newList[0];
      NewOf(q, 0);
      assert !q.prog[k.pid].executing;
      DormantExec(q, k.pid);
      NewToExecCore(q, 0);
      GradeGrows(q.place, k, Exec);
      AliveFrame(q, r, k, Exec);
    }
  }

  lemma AnswerAsking(q: Queues, pid: Pid)
    requires Core(q) && AllAlive(q) && pid in q.asking
    ensures var r := q.(asking := RemoveFirst(q.asking, pid)); Core(r) && AllAlive(r) && pid !in r.asking
  {
    hide Structure, Ordered, TargetsLive, Dormant, AllAlive;
    RemoveAtKeeps(q.asking, IndexOf(q.asking, pid));
    ReaskKeeps(q, RemoveFirst(q.asking, pid));
  }

  lemma CloseKeeps(c: Config, s: State, pid: Pid, tid: int)
    requires QueueInv(c, s.q) && Enabled(s.q, EClose(pid, tid))
    ensures QueueInv(c, Close(c, s, pid, tid).q)
  {
    hide Core, AllAlive;
    var e := s.q.prog[pid].exec.value;
    if e.tid == tid {
      CoreExec(s.q, pid);
      ExitKeeps(c, s, e);
      ReapKeeps(Exit(c, s, e), pid);
      DistributeKeeps(c, Reap(Exit(c, s, e), pid));
    }
  }

  lemma CoreExec(q: Queues, pid: Pid)
    requires Core(q) && pid in q.prog && q.prog[pid].exec.Some?
    ensures var e := q.prog[pid].exec.value; e in q.place && q.place[e] == Exec && e.pid == pid
  {
    ExecOf(q, pid);
  }

  /** Every request a client may make keeps the queues in order. */
  lemma StepKeepsQueues(c: Config, s: State, ev: Event)
    requires QueueInv(c, s.q) && Enabled(s.q, ev)
    ensures QueueInv(c, Step(c, s, ev).q)
  {
    hide Core, AllAlive, Admission, SemValues;
    match ev
    case EConnect(pid) => ConnectKeeps(c, s, pid);
    case ECreate(pid, tid) => CreateKeeps(c, s, pid, tid);
    case ESchedule(pid) => ScheduleKeeps(c, s, pid);
    case EJoin(pid, tid) => JoinKeeps(c, s, pid, tid);
    case EClose(pid, tid) => CloseKeeps(c, s, pid, tid);
    case EWait(pid, tid, id) => WaitKeeps(c, s, pid, tid, id);
    case ESignal(pid, tid, id) => SignalKeeps(c, s, pid, id);
    case EMetrics =>
  }
}

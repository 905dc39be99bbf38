/** The server as it is written, null pointers included: what stops it, and when. */
module OwnerlessJoin {
  import opened Lists
  import opened Timespecs
  import opened Model
  import opened Ops
  import opened Invariant
  import opened Timeline
  import opened Runs
  import opened Answering
  import opened Gaps
  import opened Removal

  /** The server with null pointers in it: where the blocked thread of a join block is in
      `ownerless`, the block has no holder, and the one recorded means nothing. */
  datatype Server = Server(s: State, ownerless: set<ThreadId>)

  /** A null pointer is followed, or the request is done. */
  datatype Outcome = Faulted | Served(w: Server)

  ghost predicate HasOwnerless(bs: seq<Block>, ownerless: set<ThreadId>) {
    exists b :: b in bs && b.JoinBlock? && b.blocked in ownerless
  }

  // ----- Freeing join blocks

  datatype Search = NullHolder | Found(i: nat) | NotFound

  /** One search of `free_join_blocks`: it looks into the holder of every join block it passes. */
  function FirstBlock(bs: seq<Block>, ownerless: set<ThreadId>, e: ThreadId): (r: Search)
    ensures r.Found? ==> r.i < |bs|
  {
    if bs == [] then NotFound
    else if bs[0].JoinBlock? && bs[0].blocked in ownerless then NullHolder
    else if bs[0].JoinBlock? && bs[0].blocking == e then Found(0)
    else match FirstBlock(bs[1..], ownerless, e)
      case Found(i) => Found(i + 1)
      case other => other
  }

  /** The loop of `free_join_blocks`: the blocks that are left, or none when it faults. */
  function FreeBlocks(bs: seq<Block>, ownerless: set<ThreadId>, e: ThreadId): Option<seq<Block>>
    decreases |bs|
  {
    match FirstBlock(bs, ownerless, e)
    case NullHolder => None
    case NotFound => Some(bs)
    case Found(i) => FreeBlocks(RemoveAt(bs, i), ownerless, e)
  }

  lemma {:induction false} SearchResult(bs: seq<Block>, ownerless: set<ThreadId>, e: ThreadId)
    ensures var r := FirstBlock(bs, ownerless, e);
            && (r.NullHolder? ==> HasOwnerless(bs, ownerless))
            && (r.NotFound? ==>
                  !HasOwnerless(bs, ownerless) && forall b :: b in bs ==> !(b.JoinBlock? && b.blocking == e))
            && (r.Found? ==> bs[r.i].JoinBlock? && bs[r.i].blocking == e && bs[r.i].blocked !in ownerless)
  {
    if bs != [] {
      SearchResult(bs[1..], ownerless, e);
      assert bs[0] in bs && forall b :: b in bs[1..] ==> b in bs;
      assert forall b :: b in bs ==> b == bs[0] || b in bs[1..];
    }
  }

  lemma RemovedBlock(bs: seq<Block>, i: nat, ownerless: set<ThreadId>)
    requires i < |bs| && (bs[i].JoinBlock? ==> bs[i].blocked !in ownerless)
    ensures HasOwnerless(RemoveAt(bs, i), ownerless) == HasOwnerless(bs, ownerless)
  {
    var r := RemoveAt(bs, i);
    assert forall b :: b in r ==> b in bs;
    forall b | b in bs && b != bs[i] ensures b in r {
      var j :| 0 <= j < |bs| && bs[j] == b;
      assert if j < i then r[j] == b else r[j - 1] == b;
    }
  }

  /** Freeing faults exactly when some block has no holder, wherever it stands and whoever
      closes: the last search of the loop looks into every block. */
  lemma {:induction false} FreeFaultsIff(bs: seq<Block>, ownerless: set<ThreadId>, e: ThreadId)
    ensures FreeBlocks(bs, ownerless, e) == None <==> HasOwnerless(bs, ownerless)
    decreases |bs|
  {
    SearchResult(bs, ownerless, e);
    var r := FirstBlock(bs, ownerless, e);
    if r.Found? {
      RemovedBlock(bs, r.i, ownerless);
      FreeFaultsIff(RemoveAt(bs, r.i), ownerless, e);
    }
  }

  // ----- Requests as written

  /** `suse_join` as written. Whether the target is dead is asked of each thread in EXIT, and
      the question looks into the target; with nobody in EXIT it is never asked. */
  function JoinAsWritten(c: Config, w: Server, pid: Pid, tid: int): Outcome
    requires pid in w.s.q.prog && w.s.q.prog[pid].exec.Some?
  {
    match FindThread(w.s.q, pid, tid)
    case Some(_) => Served(Server(Join(c, w.s, pid, tid), w.ownerless))
    case None =>
      if w.s.q.exitList != [] then Faulted
      else Served(Server(Join(c, w.s, pid, tid), w.ownerless + {w.s.q.prog[pid].exec.value}))
  }

  /** Joins may name any thread; the rest is as before. */
  ghost predicate Acceptable(q: Queues, ev: Event) {
    if ev.EJoin? then ev.pid in q.prog && q.prog[ev.pid].exec.Some? else Enabled(q, ev)
  }

  predicate HasRun(s: State, k: ThreadId) {
    k in s.threads && s.threads[k].execs != []
  }

  predicate HasWaited(s: State, k: ThreadId) {
    k in s.threads && s.threads[k].readys != []
  }

  /** The other pointers a request follows without a look: the last interval of a list, the
      head of a semaphore's queue and its program. */
  ghost predicate FollowsNull(s: State, ev: Event)
    requires Acceptable(s.q, ev)
  {
    var q := s.q;
    match ev
    case ESchedule(pid) =>
      pid in q.prog &&
      ((exists k :: k in q.prog[pid].ready && !HasWaited(s, k))
          || (q.prog[pid].exec.Some? && !HasRun(s, q.prog[pid].exec.value)))
    case EJoin(pid, _) => !HasRun(s, q.prog[pid].exec.value)
    case EClose(pid, tid) => EndsThread(q, ev) && !HasRun(s, q.prog[pid].exec.value)
    case ESignal(_, _, id) =>
      var m := q.sems[FindSem(q.sems, id)];
      Raised(m) <= 0 && (m.queue == [] || m.queue[0] !in s.threads || m.queue[0].pid !in q.prog)
    case EMetrics =>
      exists p :: p in q.prog &&
        ((exists k :: k in q.prog[p].ready && !HasWaited(s, k))
            || (q.prog[p].exec.Some? && !HasRun(s, q.prog[p].exec.value)))
    case _ => false
  }

  ghost function StepAsWritten(c: Config, w: Server, ev: Event): Outcome
    requires Acceptable(w.s.q, ev)
  {
    if FollowsNull(w.s, ev) then Faulted
    else if ev.EJoin? then JoinAsWritten(c, w, ev.pid, ev.tid)
    else if ev.EWait? then
      match WaitAsWritten(c, w.s, ev.pid, ev.tid, ev.id)
      case Fault => Faulted
      case Done(s) => Served(Server(s, w.ownerless))
    else if EndsThread(w.s.q, ev) && FreeBlocks(w.s.q.blocked, w.ownerless, w.s.q.prog[ev.pid].exec.value).None?
        then Faulted
    else Served(Server(Step(c, w.s, ev), w.ownerless))
  }

  /** Events the server accepts, up to the one that stops it. */
  ghost predicate LegalAsWritten(c: Config, w: Server, evs: seq<Event>)
    decreases |evs|
  {
    evs == [] ||
    (Acceptable(w.s.q, evs[0]) &&
     match StepAsWritten(c, w, evs[0])
     case Faulted => true
     case Served(v) => LegalAsWritten(c, v, evs[1..]))
  }

  ghost function RunAsWritten(c: Config, w: Server, evs: seq<Event>): Outcome
    requires LegalAsWritten(c, w, evs)
    decreases |evs|
  {
    if evs == [] then Served(w)
    else match StepAsWritten(c, w, evs[0])
      case Faulted => Faulted
      case Served(v) => RunAsWritten(c, v, evs[1..])
  }

  // ----- What stops the server

  /** A wait of the running thread that would have to block it. */
  ghost predicate WouldBlock(q: Queues, ev: Event) {
    ev.EWait? && FindSem(q.sems, ev.id) < |q.sems| && q.sems[FindSem(q.sems, ev.id)].value <= 0
  }

  /** What can be seen before the request: a join whose target is not found, with somebody in
      EXIT; a wait that would have to block; the close of a running thread, with a block
      without holder. */
  ghost predicate Deadly(w: Server, ev: Event) {
    || (ev.EJoin? && FindThread(w.s.q, ev.pid, ev.tid).None? && w.s.q.exitList != [])
    || WouldBlock(w.s.q, ev)
    || (EndsThread(w.s.q, ev) && HasOwnerless(w.s.q.blocked, w.ownerless))
  }

  /** The run comes to such a request. */
  ghost predicate ComesToDeadly(c: Config, w: Server, evs: seq<Event>)
    requires LegalAsWritten(c, w, evs)
    decreases |evs|
  {
    evs != [] &&
    (Deadly(w, evs[0]) ||
     match StepAsWritten(c, w, evs[0])
     case Faulted => false
     case Served(v) => ComesToDeadly(c, v, evs[1..]))
  }

  /** The run comes to the close of a running thread or to a wait that would have to block. */
  ghost predicate ComesToCloseOrWait(c: Config, w: Server, evs: seq<Event>)
    requires LegalAsWritten(c, w, evs)
    decreases |evs|
  {
    evs != [] &&
    (EndsThread(w.s.q, evs[0]) || WouldBlock(w.s.q, evs[0]) ||
     match StepAsWritten(c, w, evs[0])
     case Faulted => false
     case Served(v) => ComesToCloseOrWait(c, v, evs[1..]))
  }

  // ----- What holds as long as it has not stopped

  /** The lists agree, threads of a program that is not executing are in NEW, semaphores owe
      what they should, and the interval lists are as they should be. Nothing is said of who
      holds a join block. */
  ghost predicate Sound(c: Config, s: State) {
    Structure(s.q) && OnlyNew(s.q) && SemValues(s.q.sems) && TimeInv(c, s)
  }

  ghost predicate OnlyNew(q: Queues) {
    forall k :: k in q.place && k.pid in q.prog && !q.prog[k.pid].executing ==> q.place[k] == New
  }

  /** A block without holder, and nobody in EXIT. */
  ghost predicate Broken(c: Config, w: Server) {
    Sound(c, w.s) && w.s.q.exitList == [] && HasOwnerless(w.s.q.blocked, w.ownerless)
  }

  lemma IdlePrograms(q: Queues, pid: Pid)
    requires Structure(q) && OnlyNew(q) && pid in q.prog && !q.prog[pid].executing
    ensures q.prog[pid].exec == None && q.prog[pid].ready == []
  {
    var p := q.prog[pid];
    assert ProgramHolds(p, q.place, pid);
    NoDupSize(p.ready, {});
  }

  lemma CreateSound(c: Config, s: State, pid: Pid, tid: int)
    requires GoodConfig(c) && Sound(c, s) && Enabled(s.q, ECreate(pid, tid))
    ensures Sound(c, Create(c, s, pid, tid))
  {
    hide Structure, TimeInv, Grade;
    var q, k := s.q, ThreadId(pid, tid);
    CreateTimes(c, s, pid, tid);
    if !q.prog[pid].executing {
      IdlePrograms(q, pid);
    }
    FreshToNewKeeps(q, k);
    FreshToReadyKeeps(q, k);
    if q.prog[pid].exec == None {
      FreshToExecKeeps(q, k);
    }
  }

  lemma ScheduleSound(c: Config, s: State, pid: Pid)
    requires GoodConfig(c) && Sound(c, s)
    ensures Sound(c, Schedule(c, s, pid))
  {
    hide Structure, TimeInv, Mark, Reestimated, Choose;
    var q := s.q;
    ScheduleTimes(c, s, pid);
    if pid in q.prog && q.prog[pid].ready != [] {
      var p := q.prog[pid];
      var i := Choose(Reestimated(c.alpha, s.threads, p.ready), p.ready);
      ReadyOf(q, pid, i);
      if p.exec.Some? {
        var e := p.exec.value;
        ExecOf(q, pid);
        ExecToReadyKeeps(q, e);
        ReadyToExecKeeps(ExecToReady(q, e), pid, i);
        assert ExecToReady(q, e).prog[pid].ready[i] == p.ready[i];
      } else {
        ReadyToExecKeeps(q, pid, i);
      }
    } else if pid in q.prog && q.prog[pid].exec.None? {
      AskingStructure(q, q.asking + [pid]);
    }
  }

  lemma AskingStructure(q: Queues, asking: seq<Pid>)
    requires Structure(q)
    ensures Structure(q.(asking := asking))
  {}

  lemma JoinSound(c: Config, s: State, pid: Pid, tid: int)
    requires GoodConfig(c) && Sound(c, s) && s.q.exitList == [] && pid in s.q.prog && s.q.prog[pid].exec.Some?
    ensures Sound(c, Join(c, s, pid, tid))
  {
    hide Structure, TimeInv, Mark;
    JoinTimes(c, s, pid, tid);
    ExecOf(s.q, pid);
    ExecToJoinedKeeps(s.q, s.q.prog[pid].exec.value, ThreadId(pid, tid));
  }

  lemma WaitSound(c: Config, s: State, pid: Pid, id: string)
    requires GoodConfig(c) && Sound(c, s) && pid in s.q.prog && s.q.prog[pid].exec.Some?
    requires FindSem(s.q.sems, id) < |s.q.sems| && s.q.sems[FindSem(s.q.sems, id)].value > 0
    ensures Sound(c, Wait(c, s, pid, id))
  {
    hide Structure, TimeInv;
    var i := FindSem(s.q.sems, id);
    WaitTimes(c, s, pid, id);
    assert SemValue(s.q.sems[i]);
    SetValueStructure(s.q, i, s.q.sems[i].value - 1);
  }

  lemma SignalSound(c: Config, s: State, pid: Pid, id: string)
    requires GoodConfig(c) && Sound(c, s) && FindSem(s.q.sems, id) < |s.q.sems|
    ensures Sound(c, Signal(c, s, pid, id))
  {
    hide Structure, TimeInv, Mark;
    var i := FindSem(s.q.sems, id);
    var value := Raised(s.q.sems[i]);
    SignalTimes(c, s, pid, id);
    assert SemValue(s.q.sems[i]);
    SetValueStructure(s.q, i, value);
    if s.q.sems[i].queue != [] {
      QueueHead(s.q, i);
      QueueToReadyKeeps(SetValue(s.q, i, value), i);
    }
  }

  lemma ConnectSound(c: Config, s: State, pid: Pid)
    requires Sound(c, s) && pid !in s.q.prog
    ensures Sound(c, Connect(s, pid))
  {
    hide Structure;
    ConnectStructure(s, pid);
  }

  lemma MetricsSound(c: Config, s: State)
    requires GoodConfig(c) && Sound(c, s)
    ensures Sound(c, Metrics(c, s))
  {
    hide Structure, TimeInv;
    MetricsTimes(c, s);
  }

  lemma AnswerSound(c: Config, s: State, fd: Pid, value: int, header: Header)
    requires Sound(c, s)
    ensures Sound(c, Answer(s, fd, value, header))
  {}

  /** Every other request that does not end a thread. */
  lemma StepSound(c: Config, s: State, ev: Event)
    requires GoodConfig(c) && Sound(c, s) && Enabled(s.q, ev) && !EndsThread(s.q, ev) && !WouldBlock(s.q, ev)
        && !ev.EJoin?
    ensures Sound(c, Step(c, s, ev))
  {
    hide Sound, Create, Schedule, Wait, Signal, Metrics, Connect, Answer, Waiting;
    match ev
    case EConnect(pid) => ConnectSound(c, s, pid);
    case ECreate(pid, tid) => CreateSound(c, s, pid, tid);
    case ESchedule(pid) => ScheduleSound(c, s, pid);
    case EWait(pid, tid, id) => WaitSound(c, s, pid, id);
    case ESignal(pid, tid, id) => SignalSound(c, s, pid, id);
    case EClose(pid, tid) => AnswerSound(c, s, pid, -1, CLOSE);
    case EMetrics => MetricsSound(c, s);
    case EJoin(_, _) =>
  }

  /** As long as it is sound, no request follows a null pointer but for the three reasons. */
  lemma SoundPointers(c: Config, s: State, ev: Event)
    requires Sound(c, s) && Acceptable(s.q, ev)
    ensures !FollowsNull(s, ev)
  {
    hide Waiting;
    match ev
    case ESchedule(pid) =>
      if pid in s.q.prog {
        ProgramPointers(c, s, pid);
      }
    case EJoin(pid, _) => ProgramPointers(c, s, pid);
    case EClose(pid, _) => ProgramPointers(c, s, pid);
    case ESignal(_, _, id) => SignalPointers(c, s, FindSem(s.q.sems, id));
    case EMetrics =>
      forall p | p in s.q.prog
        ensures (forall k :: k in s.q.prog[p].ready ==> HasWaited(s, k))
        ensures s.q.prog[p].exec.Some? ==> HasRun(s, s.q.prog[p].exec.value)
      {
        ProgramPointers(c, s, p);
      }
    case _ =>
  }

  lemma ProgramPointers(c: Config, s: State, pid: Pid)
    requires Sound(c, s) && pid in s.q.prog
    ensures forall k :: k in s.q.prog[pid].ready ==> HasWaited(s, k)
    ensures s.q.prog[pid].exec.Some? ==> HasRun(s, s.q.prog[pid].exec.value)
  {
    hide Structure, Settled, EstimateOk;
    ReadyPlaces(s.q, pid);
    if s.q.prog[pid].exec.Some? {
      ExecOf(s.q, pid);
      var e := s.q.prog[pid].exec.value;
      assert ThreadOk(s.threads[e], Exec, Ns(c.clock(s.ticks)));
    }
    forall k | k in s.q.prog[pid].ready ensures HasWaited(s, k) {
      assert ThreadOk(s.threads[k], Ready, Ns(c.clock(s.ticks)));
    }
  }

  lemma SignalPointers(c: Config, s: State, i: nat)
    requires Sound(c, s) && i < |s.q.sems|
    ensures var m := s.q.sems[i];
            Raised(m) <= 0 ==> m.queue != [] && m.queue[0] in s.threads && m.queue[0].pid in s.q.prog
  {
    hide Structure, ThreadOk;
    assert SemValue(s.q.sems[i]);
    if s.q.sems[i].queue != [] {
      QueueHead(s.q, i);
    }
  }

  /** The thread in execution is in none of the lists that are searched. */
  lemma RunningNotFound(q: Queues, pid: Pid, tid: int)
    requires Structure(q) && pid in q.prog && q.prog[pid].exec == Some(ThreadId(pid, tid))
    ensures FindThread(q, pid, tid) == None
  {
    hide Structure;
    ExecOf(q, pid);
    if FindThread(q, pid, tid).Some? {
      FoundThread(q, pid, tid);
    }
  }

  lemma WaitStep(c: Config, w: Server, ev: Event)
    requires Sound(c, w.s) && ev.EWait? && Enabled(w.s.q, ev)
    ensures if WouldBlock(w.s.q, ev) then StepAsWritten(c, w, ev) == Faulted
            else StepAsWritten(c, w, ev) == Served(Server(Step(c, w.s, ev), w.ownerless))
  {
    hide Structure, SemValues, TimeInv;
    RunningNotFound(w.s.q, ev.pid, ev.tid);
  }

  // ----- One request

  /** No null pointer anywhere: the server is as the other results describe it. */
  ghost predicate Whole(c: Config, w: Server) {
    w.ownerless == {} && Safe(c, w.s)
  }

  lemma SafeSound(c: Config, s: State)
    requires Safe(c, s)
    ensures Sound(c, s)
  {}

  lemma MoreBlocks(bs: seq<Block>, more: seq<Block>, a: set<ThreadId>, b: set<ThreadId>)
    requires HasOwnerless(bs, a) && bs <= more && a <= b
    ensures HasOwnerless(more, b)
  {
    var x :| x in bs && x.JoinBlock? && x.blocked in a;
    assert x in more;
  }

  /** Only a thread-ending close takes blocks out of BLOCKED or puts threads into EXIT. */
  lemma BlocksGrow(c: Config, s: State, ev: Event)
    requires Enabled(s.q, ev) && !EndsThread(s.q, ev)
    ensures s.q.blocked <= Step(c, s, ev).q.blocked
    ensures s.q.exitList == [] ==> Step(c, s, ev).q.exitList == []
  {
    hide Mark, Reestimated, Choose, FindSem, Waiting, Grade, WithReady, WithExec, WithoutExec;
  }

  /** A join while nobody is in EXIT blocks the running thread, with or without a holder. */
  lemma JoinStep(c: Config, w: Server, pid: Pid, tid: int)
    requires GoodConfig(c) && Sound(c, w.s) && w.s.q.exitList == [] && pid in w.s.q.prog && w.s.q.prog[pid].exec.Some?
    ensures var out := JoinAsWritten(c, w, pid, tid);
            && out.Served? && Sound(c, out.w.s) && out.w.s.q.exitList == []
            && w.s.q.blocked <= out.w.s.q.blocked && w.ownerless <= out.w.ownerless
            && (FindThread(w.s.q, pid, tid).None? ==> HasOwnerless(out.w.s.q.blocked, out.w.ownerless))
  {
    hide Sound, FindThread;
    JoinSound(c, w.s, pid, tid);
    SoundExec(c, w.s, pid);
    var out := JoinAsWritten(c, w, pid, tid);
    assert JoinBlock(w.s.q.prog[pid].exec.value, ThreadId(pid, tid)) in out.w.s.q.blocked;
  }

  lemma SoundExec(c: Config, s: State, pid: Pid)
    requires Sound(c, s) && pid in s.q.prog && s.q.prog[pid].exec.Some?
    ensures s.q.prog[pid].exec.value.pid == pid
  {
    ExecOf(s.q, pid);
  }

  /** With a block without holder: a close of a running thread and a wait that would have to
      block stop the server, and nothing else does. */
  lemma BrokenStep(c: Config, w: Server, ev: Event)
    requires GoodConfig(c) && Broken(c, w) && Acceptable(w.s.q, ev)
    ensures if EndsThread(w.s.q, ev) || WouldBlock(w.s.q, ev) then StepAsWritten(c, w, ev) == Faulted
            else StepAsWritten(c, w, ev).Served? && Broken(c, StepAsWritten(c, w, ev).w)
  {
    hide Step, Enabled, HasOwnerless, FreeBlocks, Sound, FollowsNull, WouldBlock, JoinAsWritten, WaitAsWritten;
    var q := w.s.q;
    SoundPointers(c, w.s, ev);
    if EndsThread(q, ev) {
      NotWait(q, ev);
      FreeFaultsIff(q.blocked, w.ownerless, q.prog[ev.pid].exec.value);
    } else if ev.EJoin? {
      NotWait(q, ev);
      JoinStep(c, w, ev.pid, ev.tid);
      var v := StepAsWritten(c, w, ev).w;
      MoreBlocks(q.blocked, v.s.q.blocked, w.ownerless, v.ownerless);
    } else {
      if ev.EWait? {
        WaitStep(c, w, ev);
      } else {
        NotWait(q, ev);
      }
      if !WouldBlock(q, ev) {
        StepSound(c, w.s, ev);
        BlocksGrow(c, w.s, ev);
        MoreBlocks(q.blocked, Step(c, w.s, ev).q.blocked, w.ownerless, w.ownerless);
      }
    }
  }

  lemma NotWait(q: Queues, ev: Event)
    requires !ev.EWait?
    ensures !WouldBlock(q, ev)
  {}

  lemma WholeJoin(c: Config, w: Server, pid: Pid, tid: int)
    requires GoodConfig(c) && Whole(c, w) && Acceptable(w.s.q, EJoin(pid, tid)) && !FollowsNull(w.s, EJoin(pid, tid))
    ensures var ev := EJoin(pid, tid);
            if Deadly(w, ev) then StepAsWritten(c, w, ev) == Faulted
            else
              && StepAsWritten(c, w, ev).Served?
              && (Whole(c, StepAsWritten(c, w, ev).w) || Broken(c, StepAsWritten(c, w, ev).w))
  {
    hide Safe, Sound, FollowsNull, FindThread, Join;
    var ev := EJoin(pid, tid);
    if FindThread(w.s.q, pid, tid).Some? {
      StepSafe(c, w.s, ev);
    } else if w.s.q.exitList == [] {
      SafeSound(c, w.s);
      JoinStep(c, w, pid, tid);
    }
  }

  /** Without one: what is deadly stops the server, and nothing else does. */
  lemma WholeStep(c: Config, w: Server, ev: Event)
    requires GoodConfig(c) && Whole(c, w) && Acceptable(w.s.q, ev)
    ensures if Deadly(w, ev) then StepAsWritten(c, w, ev) == Faulted
            else
              && StepAsWritten(c, w, ev).Served?
              && (Whole(c, StepAsWritten(c, w, ev).w) || Broken(c, StepAsWritten(c, w, ev).w))
  {
    hide Step, Enabled, FreeBlocks, Safe, Sound, FollowsNull, WouldBlock, JoinAsWritten, WaitAsWritten, FindThread;
    SafeSound(c, w.s);
    SoundPointers(c, w.s, ev);
    if ev.EJoin? {
      WholeJoin(c, w, ev.pid, ev.tid);
    } else {
      if ev.EWait? {
        WaitStep(c, w, ev);
      } else {
        NotWait(w.s.q, ev);
        if EndsThread(w.s.q, ev) {
          FreeFaultsIff(w.s.q.blocked, {}, w.s.q.prog[ev.pid].exec.value);
        }
      }
      StepSafe(c, w.s, ev);
    }
  }

  // ----- Whole runs

  lemma {:induction false} FaultsAtCloseOrWait(c: Config, w: Server, evs: seq<Event>)
    requires GoodConfig(c) && Broken(c, w) && LegalAsWritten(c, w, evs)
    ensures RunAsWritten(c, w, evs) == Faulted <==> ComesToCloseOrWait(c, w, evs)
    decreases |evs|
  {
    hide Acceptable, StepAsWritten, EndsThread, WouldBlock, Broken;
    if evs != [] {
      BrokenStep(c, w, evs[0]);
      if !EndsThread(w.s.q, evs[0]) && !WouldBlock(w.s.q, evs[0]) {
        FaultsAtCloseOrWait(c, StepAsWritten(c, w, evs[0]).w, evs[1..]);
      }
    }
  }

  lemma BrokenDeadly(c: Config, w: Server, ev: Event)
    requires Broken(c, w)
    ensures Deadly(w, ev) <==> EndsThread(w.s.q, ev) || WouldBlock(w.s.q, ev)
  {}

  lemma {:induction false} FaultsAtDeadly(c: Config, w: Server, evs: seq<Event>)
    requires GoodConfig(c) && (Whole(c, w) || Broken(c, w)) && LegalAsWritten(c, w, evs)
    ensures RunAsWritten(c, w, evs) == Faulted <==> ComesToDeadly(c, w, evs)
    decreases |evs|
  {
    hide Acceptable, StepAsWritten, EndsThread, WouldBlock, Broken, Whole, Deadly;
    if evs != [] {
      if Broken(c, w) {
        BrokenStep(c, w, evs[0]);
        BrokenDeadly(c, w, evs[0]);
      } else {
        WholeStep(c, w, evs[0]);
      }
      if !Deadly(w, evs[0]) {
        FaultsAtDeadly(c, StepAsWritten(c, w, evs[0]).w, evs[1..]);
      }
    }
  }

  /** The server as it is written, from its start, over every sequence of requests it accepts:
      it follows a null pointer if and only if it comes to a join whose target is not found
      while somebody is in EXIT, to a wait of the running thread on a semaphore that is not
      positive, or to the close of a running thread after a join whose target was not found. */
  lemma StopsIff(c: Config, sems: seq<Semaphore>, evs: seq<Event>)
    requires GoodConfig(c) && GoodSems(sems) && LegalAsWritten(c, Server(Init(sems), {}), evs)
    ensures RunAsWritten(c, Server(Init(sems), {}), evs) == Faulted
        <==> ComesToDeadly(c, Server(Init(sems), {}), evs)
  {
    hide Safe, LegalAsWritten, RunAsWritten, ComesToDeadly;
    InitSafe(c, sems);
    FaultsAtDeadly(c, Server(Init(sems), {}), evs);
  }

  /** In every reachable state a join whose target the lookup does not find stops the server
      at once if and only if EXIT is not empty. If not, the joining thread is blocked, its
      client is told that the join worked, and the server stops at the next close of a running
      thread, of any program, or wait that would have to block, and at nothing before. */
  lemma JoinNotFound(c: Config, sems: seq<Semaphore>, before: seq<Event>, pid: Pid, tid: int)
    requires GoodConfig(c) && GoodSems(sems) && Legal(c, Init(sems), before)
    requires var q := Run(c, Init(sems), before).q;
             pid in q.prog && q.prog[pid].exec.Some? && FindThread(q, pid, tid).None?
    ensures var s := Run(c, Init(sems), before);
            var out := StepAsWritten(c, Server(s, {}), EJoin(pid, tid));
            && (out == Faulted <==> s.q.exitList != [])
            && (out.Served? ==>
                  && out.w.s.sent == s.sent + [Response(pid, 1, JOIN)]
                  && pid in out.w.s.q.prog && out.w.s.q.prog[pid].exec == None
                  && forall evs :: LegalAsWritten(c, out.w, evs) ==>
                       (RunAsWritten(c, out.w, evs) == Faulted <==> ComesToCloseOrWait(c, out.w, evs)))
  {
    hide Run, Legal, Safe, Sound, FollowsNull, LegalAsWritten, RunAsWritten, ComesToCloseOrWait;
    ReachableSafe(c, sems, before);
    var s := Run(c, Init(sems), before);
    SafeSound(c, s);
    SoundPointers(c, s, EJoin(pid, tid));
    SoundExec(c, s, pid);
    var out := StepAsWritten(c, Server(s, {}), EJoin(pid, tid));
    if out.Served? {
      JoinStep(c, Server(s, {}), pid, tid);
      forall evs | LegalAsWritten(c, out.w, evs)
        ensures RunAsWritten(c, out.w, evs) == Faulted <==> ComesToCloseOrWait(c, out.w, evs)
      {
        FaultsAtCloseOrWait(c, out.w, evs);
      }
    }
  }

  // ----- It happens

  /** Two requests, then the program's only thread joins itself; nothing has exited. */
  lemma SelfJoin(c: Config, id: string)
    requires GoodConfig(c) && c.maxMultiprog >= 1
    ensures var evs := [EConnect(4), ECreate(4, 0)];
            && Legal(c, Init(OneSemaphore(id)), evs)
            && var s := Run(c, Init(OneSemaphore(id)), evs);
            && Acceptable(s.q, EJoin(4, 0)) && FindThread(s.q, 4, 0).None?
            && var out := StepAsWritten(c, Server(s, {}), EJoin(4, 0));
            && out.Served? && Broken(c, out.w)
            && out.w.s.q == JoinedAlone(id)
  {
    hide Run, Legal, Safe, Sound, FollowsNull;
    OneThreadRuns(c, id);
    ReachableSafe(c, OneSemaphore(id), [EConnect(4), ECreate(4, 0)]);
    var s := Run(c, Init(OneSemaphore(id)), [EConnect(4), ECreate(4, 0)]);
    SafeSound(c, s);
    SoundPointers(c, s, EJoin(4, 0));
    JoinStep(c, Server(s, {}), 4, 0);
    var out := StepAsWritten(c, Server(s, {}), EJoin(4, 0));
    assert out.w.s.q.prog == JoinedAlone(id).prog;
  }

  function JoinedAlone(id: string): Queues {
    OneRunning(id).(prog := map[4 := Program([], None, true)],
        blocked := [SemBlock(0), JoinBlock(ThreadId(4, 0), ThreadId(4, 0))],
                    place := map[ThreadId(4, 0) := Joined])
  }

  lemma LastStops(c: Config, w: Server, ev: Event)
    requires GoodConfig(c) && Broken(c, w) && Acceptable(w.s.q, ev) && (EndsThread(w.s.q, ev) || WouldBlock(w.s.q, ev))
    ensures LegalAsWritten(c, w, [ev]) && RunAsWritten(c, w, [ev]) == Faulted
  {
    hide Acceptable, StepAsWritten, EndsThread, WouldBlock, Broken;
    BrokenStep(c, w, ev);
  }

  lemma OneMore(c: Config, w: Server, ev: Event, rest: seq<Event>)
    requires Acceptable(w.s.q, ev) && StepAsWritten(c, w, ev).Served?
    requires LegalAsWritten(c, StepAsWritten(c, w, ev).w, rest)
    ensures LegalAsWritten(c, w, [ev] + rest)
    ensures RunAsWritten(c, w, [ev] + rest) == RunAsWritten(c, StepAsWritten(c, w, ev).w, rest)
  {
    hide Acceptable, StepAsWritten;
    assert ([ev] + rest)[1..] == rest;
  }

  /** Another program connects and creates its first thread. */
  lemma StrangerRuns(c: Config, w: Server, id: string)
    requires GoodConfig(c) && c.maxMultiprog >= 2 && Broken(c, w) && w.s.q == JoinedAlone(id)
    ensures Acceptable(w.s.q, EConnect(5)) && StepAsWritten(c, w, EConnect(5)).Served?
    ensures var w1 := StepAsWritten(c, w, EConnect(5)).w;
            && Acceptable(w1.s.q, ECreate(5, 0)) && StepAsWritten(c, w1, ECreate(5, 0)).Served?
            && var w2 := StepAsWritten(c, w1, ECreate(5, 0)).w;
            && Broken(c, w2) && w2.s.q.sems == OneSemaphore(id)
            && 5 in w2.s.q.prog && w2.s.q.prog[5].exec == Some(ThreadId(5, 0))
  {
    hide Broken, FollowsNull, FreeBlocks;
    BrokenStep(c, w, EConnect(5));
    var w1 := StepAsWritten(c, w, EConnect(5)).w;
    assert w1.s == Step(c, w.s, EConnect(5));
    assert Active(w1.s.q.place) == {ThreadId(4, 0)};
    BrokenStep(c, w1, ECreate(5, 0));
    var w2 := StepAsWritten(c, w1, ECreate(5, 0)).w;
    assert w2.s == Step(c, w1.s, ECreate(5, 0));
  }

  /** A program's only thread joins itself. Then another program's first thread ends, or waits
      on the semaphore at 0: either way the server stops. */
  lemma SelfJoinStops(c: Config, id: string, last: Event)
    requires GoodConfig(c) && c.maxMultiprog >= 2 && (last == EClose(5, 0) || last == EWait(5, 0, id))
    ensures Legal(c, Init(OneSemaphore(id)), [EConnect(4), ECreate(4, 0)])
    ensures var w := Server(Run(c, Init(OneSemaphore(id)), [EConnect(4), ECreate(4, 0)]), {});
            var evs := [EJoin(4, 0)] + ([EConnect(5)] + ([ECreate(5, 0)] + [last]));
            LegalAsWritten(c, w, evs) && RunAsWritten(c, w, evs) == Faulted
  {
    hide Run, Legal, LegalAsWritten, RunAsWritten, StepAsWritten, Broken;
    SelfJoin(c, id);
    var w := Server(Run(c, Init(OneSemaphore(id)), [EConnect(4), ECreate(4, 0)]), {});
    var w0 := StepAsWritten(c, w, EJoin(4, 0)).w;
    StrangerRuns(c, w0, id);
    var w1 := StepAsWritten(c, w0, EConnect(5)).w;
    var w2 := StepAsWritten(c, w1, ECreate(5, 0)).w;
    assert FindSem(OneSemaphore(id), id) == 0;
    LastStops(c, w2, last);
    OneMore(c, w1, ECreate(5, 0), [last]);
    OneMore(c, w0, EConnect(5), [ECreate(5, 0)] + [last]);
    OneMore(c, w, EJoin(4, 0), [EConnect(5)] + ([ECreate(5, 0)] + [last]));
  }

  // ----- The other way: somebody is in EXIT

  function TwoThreads(id: string): Queues {
    OneRunning(id).(prog := map[4 := Program([ThreadId(4, 1)], Some(ThreadId(4, 0)), true)],
                    place := map[ThreadId(4, 0) := Exec, ThreadId(4, 1) := Ready])
  }

  function OneExited(id: string): Queues {
    OneRunning(id).(prog := map[4 := Program([], Some(ThreadId(4, 1)), true)], exitList := [ThreadId(4, 0)],
                    place := map[ThreadId(4, 0) := Exited, ThreadId(4, 1) := Exec])
  }

  lemma SecondCreated(c: Config, s: State, id: string)
    requires c.maxMultiprog >= 2 && s.q == OneRunning(id)
    ensures Enabled(s.q, ECreate(4, 1)) && Step(c, s, ECreate(4, 1)).q == TwoThreads(id)
  {
    assert Active(s.q.place) == {ThreadId(4, 0)};
    var none: seq<ThreadId> := [];
    assert none + [ThreadId(4, 1)] == [ThreadId(4, 1)];
  }

  function FirstGone(id: string): Queues {
    OneRunning(id).(prog := map[4 := Program([ThreadId(4, 1)], None, true)], exitList := [ThreadId(4, 0)],
                    place := map[ThreadId(4, 0) := Exited, ThreadId(4, 1) := Ready])
  }

  lemma FirstExits(c: Config, s: State, id: string)
    requires s.q == TwoThreads(id)
    ensures Exit(c, s, ThreadId(4, 0)).q == FirstGone(id)
  {
    hide Mark, MarkReleased, JoinedOn, OtherBlocks;
    var e := ThreadId(4, 0);
    NoneHeld([SemBlock(0)], e);
    var r := Exit(c, s, e).q;
    assert [ThreadId(4, 1)] + [] == [ThreadId(4, 1)];
    assert r.prog == FirstGone(id).prog && r.place == FirstGone(id).place;
  }

  lemma FirstClosed(c: Config, s: State, id: string)
    requires s.q == TwoThreads(id)
    ensures Enabled(s.q, EClose(4, 0)) && Step(c, s, EClose(4, 0)).q == FirstGone(id)
  {
    hide Exit;
    FirstExits(c, s, id);
    var s1 := Exit(c, s, ThreadId(4, 0));
    assert s1.q.place[ThreadId(4, 1)] == Ready && !Gone(s1.q, 4);
    assert Reap(s1, 4) == s1 && Distribute(c, s1) == s1;
  }

  lemma SecondRuns(c: Config, s: State, id: string)
    requires s.q == FirstGone(id)
    ensures Enabled(s.q, ESchedule(4)) && Step(c, s, ESchedule(4)).q == OneExited(id)
    ensures FindThread(OneExited(id), 4, 1).None? && OneExited(id).exitList != []
    ensures OneExited(id).prog == map[4 := Program([], Some(ThreadId(4, 1)), true)]
  {
    hide Mark, Reestimated;
    assert RemoveAt([ThreadId(4, 1)], 0) == [];
  }

  /** A program's first thread ends, and the second one joins itself: the server stops at once. */
  lemma JoinStopsAtOnce(c: Config, id: string)
    requires GoodConfig(c) && c.maxMultiprog >= 2
    ensures var evs := [EConnect(4), ECreate(4, 0)] + [ECreate(4, 1), EClose(4, 0)] + [ESchedule(4)];
            && Legal(c, Init(OneSemaphore(id)), evs)
            && var s := Run(c, Init(OneSemaphore(id)), evs);
            && Acceptable(s.q, EJoin(4, 1)) && FindThread(s.q, 4, 1).None?
            && StepAsWritten(c, Server(s, {}), EJoin(4, 1)) == Faulted
            && JoinAsWritten(c, Server(s, {}), 4, 1) == Faulted
  {
    hide Run, Legal, Step, Enabled, TwoThreads, OneRunning, FirstGone, OneExited, FindThread;
    var s0 := Init(OneSemaphore(id));
    OneThreadRuns(c, id);
    var s := Run(c, s0, [EConnect(4), ECreate(4, 0)]);
    SecondCreated(c, s, id);
    FirstClosed(c, Step(c, s, ECreate(4, 1)), id);
    RunTwo(c, s, ECreate(4, 1), EClose(4, 0));
    var s2 := Run(c, s, [ECreate(4, 1), EClose(4, 0)]);
    SecondRuns(c, s2, id);
    RunOne(c, s2, ESchedule(4));
    RunSplit(c, s0, [EConnect(4), ECreate(4, 0)], [ECreate(4, 1), EClose(4, 0)]);
    RunSplit(c, s0, [EConnect(4), ECreate(4, 0)] + [ECreate(4, 1), EClose(4, 0)], [ESchedule(4)]);
  }
}

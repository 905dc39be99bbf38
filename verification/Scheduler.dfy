/** The server itself: the global lists and the functions that update them in place,
    each proved to do to the whole state what Ops says. */
module Scheduler {
  import opened Lists
  import opened Timespecs
  import opened Model
  import opened Ops
  import opened Invariant
  import opened Timeline
  import opened Runs
  import Sjf
  import opened Spent
  import opened Meanings
  import opened Removal
  import opened Counting

  /** `find_thread`: the ready list by tid, then EXIT and NEW by tid and pid. */
  function LookupThread(ready: seq<ThreadId>, exitList: seq<ThreadId>, newList: seq<ThreadId>, pid: Pid,
      tid: int): Option<ThreadId> {
    var inReady := FindFirst(ready, (k: ThreadId) => k.tid == tid);
    var inExit := FindFirst(exitList, (k: ThreadId) => k.tid == tid && k.pid == pid);
    var inNew := FindFirst(newList, (k: ThreadId) => k.tid == tid && k.pid == pid);
    if inReady < |ready| then Some(ready[inReady])
    else if inExit < |exitList| then Some(exitList[inExit])
    else if inNew < |newList| then Some(newList[inNew])
    else None
  }

  /** `blocking_thread_is_dead`. */
  predicate BlockingThreadIsDead(exitList: seq<ThreadId>, k: ThreadId)
    ensures BlockingThreadIsDead(exitList, k) <==> k in exitList
  {
    FindFirst(exitList, (j: ThreadId) => j.tid == k.tid && j.pid == k.pid) < |exitList|
  }

  lemma LookupIs(q: Queues, pid: Pid, tid: int)
    requires Structure(q) && pid in q.prog
    ensures LookupThread(q.prog[pid].ready, q.exitList, q.newList, pid, tid) == FindThread(q, pid, tid)
  {
    hide Structure;
    ReadyPlaces(q, pid);
    var ready := q.prog[pid].ready;
    var i := FindFirst(ready, (k: ThreadId) => k.tid == tid);
    assert i < |ready| ==> ready[i] in ready;
  }

  class Suse {
    const config: Config
    var programs: seq<Pid>
    var prog: map<Pid, Program>
    var newList: seq<ThreadId>
    var exitList: seq<ThreadId>
    var blocked: seq<Block>
    var asking: seq<Pid>
    var semaphores: seq<Semaphore>
    var threads: map<ThreadId, Thread>
    var ticks: nat
    var sent: seq<Response>
    ghost var place: map<ThreadId, Place>

    ghost function Q(): Queues
      reads this
    {
      Queues(programs, prog, newList, exitList, blocked, asking, semaphores, place)
    }

    ghost function View(): State
      reads this
    {
      State(Q(), threads, ticks, sent)
    }

    ghost predicate Valid()
      reads this
    {
      GoodConfig(config) && Safe(config, View())
    }

    lemma Facts()
      requires Valid()
      ensures GoodConfig(config) && Safe(config, View()) && Structure(Q()) && (forall k :: k in threads <==> k in place)
    {}

    /** A request that did what Ops says leaves the server valid. */
    lemma Stays(s: State, ev: Event)
      requires GoodConfig(config) && Safe(config, s) && Enabled(s.q, ev) && View() == Step(config, s, ev)
      ensures Valid()
    {
      StepSafe(config, s, ev);
    }

    /** `initialize_structures` and `initialize_semaphores`; each semaphore comes with its
        configured name, maximum and initial value. */
    constructor (config: Config, sems: seq<(string, int, int)>)
      requires GoodConfig(config)
      requires forall m :: m in sems ==> 1 <= m.1 && 0 <= m.2 <= m.1
      ensures this.config == config && Valid()
      ensures View() == Init(seq(|sems|, i requires 0 <= i < |sems| => Semaphore(sems[i].0, sems[i].1, sems[i].2, [])))
    {
      this.config := config;
      programs, newList, exitList, asking, sent := [], [], [], [], [];
      blocked, semaphores := [], [];
      prog, threads, place, ticks := map[], map[], map[], 0;
      new;
      ghost var all := seq(|sems|, i requires 0 <= i < |sems| => Semaphore(sems[i].0, sems[i].1, sems[i].2, []));
      for pos := 0 to |sems|
        invariant semaphores == all[..pos] && blocked == Wrappers(pos)
        invariant View() == State(Queues([], map[], [], [], blocked, [], semaphores, map[]), map[], 0, [])
      {
        semaphores := semaphores + [Semaphore(sems[pos].0, sems[pos].1, sems[pos].2, [])];
        blocked := blocked + [SemBlock(pos)];
      }
      hide Safe;
      assert GoodSems(all) by {
        forall i | 0 <= i < |all| ensures all[i].queue == [] && 1 <= all[i].max && 0 <= all[i].value <= all[i].max {
          assert sems[i] in sems;
        }
      }
      InitSafe(config, all);
    }

    method GetTime() returns (t: Timespec)
      modifies this`ticks
      ensures t == config.clock(old(ticks)) && ticks == old(ticks) + 1
    {
      t := config.clock(ticks);
      ticks := ticks + 1;
    }

    method CreateResponse(fd: Pid, response: int, header: Header)
      modifies this`sent
      ensures sent == old(sent) + [Response(fd, response, header)]
    {
      sent := sent + [Response(fd, response, header)];
    }

    method CreateNewProgram(fd: Pid)
      requires Valid() && Enabled(Q(), EConnect(fd))
      modifies this
      ensures Valid() && View() == Step(config, old(View()), EConnect(fd))
      ensures programs == old(programs) + [fd] && fd in prog && prog[fd] == Program([], None, false)
    {
      hide Valid, Safe, Structure, GoodConfig;
      ghost var s0 := View();
      Facts();
      prog := prog[fd := Program([], None, false)];
      programs := programs + [fd];
      Stays(s0, EConnect(fd));
    }

    // ----- Counting

    /** `threads_in_join_block_list`. */
    method ThreadsInJoinBlockList(pid: Pid) returns (list: seq<ThreadId>)
      ensures list == OwnOf(JoinIds(blocked), pid)
    {
      list := [];
      for i := 0 to |blocked|
        invariant list == OwnOf(JoinIds(blocked[..i]), pid)
      {
        hide JoinIds, OwnOf;
        JoinIdsNext(blocked, i);
        if blocked[i].JoinBlock? {
          OwnOfNext(JoinIds(blocked[..i]), blocked[i].blocked, pid);
          if blocked[i].blocked.pid == pid {
            list := list + [blocked[i].blocked];
          }
        }
      }
      assert blocked[..|blocked|] == blocked;
    }

    /** `threads_in_semaphore_block_list`: the queues are reached through the wrappers in BLOCKED. */
    method ThreadsInSemaphoreBlockList(pid: Pid) returns (list: seq<ThreadId>)
      requires Structure(Q())
      ensures list == OwnQueued(semaphores, SemIds(blocked), pid)
    {
      hide Structure;
      list := [];
      for i := 0 to |blocked|
        invariant list == OwnQueued(semaphores, SemIds(blocked[..i]), pid)
      {
        hide SemIds, OwnQueued;
        SemIdsNext(blocked, i);
        if blocked[i].SemBlock? {
          WrapperInRange(Q(), i);
          OwnQueuedNext(semaphores, SemIds(blocked[..i]), blocked[i].sem, pid);
          list := AppendOwn(list, semaphores[blocked[i].sem].queue, pid);
        }
      }
      assert blocked[..|blocked|] == blocked;
    }

    /** The inner iteration of `threads_in_semaphore_block_list`, over one queue. */
    static method AppendOwn(base: seq<ThreadId>, queue: seq<ThreadId>, pid: Pid) returns (list: seq<ThreadId>)
      ensures list == base + OwnOf(queue, pid)
    {
      list := base;
      for j := 0 to |queue|
        invariant list == base + OwnOf(queue[..j], pid)
      {
        assert queue[..j + 1] == queue[..j] + [queue[j]];
        OwnOfNext(queue[..j], queue[j], pid);
        if queue[j].pid == pid {
          list := list + [queue[j]];
        }
      }
      assert queue[..|queue|] == queue;
    }

    method ThreadsInBlocked(pid: Pid) returns (n: nat)
      requires Structure(Q())
      ensures n == |Within(place, IsBlocked, [pid])|
    {
      var joins := ThreadsInJoinBlockList(pid);
      var queued := ThreadsInSemaphoreBlockList(pid);
      n := |joins| + |queued|;
      BlockedCount(Q(), pid);
    }

    /** The first fold of `multiprogramming_grade`. */
    method BlockedGrade() returns (grade: nat)
      requires Structure(Q())
      ensures grade == |Within(place, IsBlocked, programs)|
    {
      hide Structure;
      grade := 0;
      NobodyWithin(place, IsBlocked);
      for i := 0 to |programs|
        invariant grade == |Within(place, IsBlocked, programs[..i])|
      {
        ProgramAt(Q(), i);
        WithinGrows(place, IsBlocked, programs[..i], programs[i]);
        var n := ThreadsInBlocked(programs[i]);
        grade := grade + n;
      }
      assert programs[..|programs|] == programs;
    }

    /** The second one. */
    method ReadyGrade() returns (grade: nat)
      requires Structure(Q())
      ensures grade == |Within(place, IsReady, programs)|
    {
      hide Structure;
      grade := 0;
      NobodyWithin(place, IsReady);
      for i := 0 to |programs|
        invariant grade == |Within(place, IsReady, programs[..i])|
      {
        ProgramAt(Q(), i);
        WithinGrows(place, IsReady, programs[..i], programs[i]);
        ReadyCount(Q(), programs[i]);
        grade := grade + |prog[programs[i]].ready|;
      }
      assert programs[..|programs|] == programs;
    }

    /** The count of programs that run a thread. */
    method ExecGrade() returns (grade: nat)
      requires Structure(Q())
      ensures grade == |Within(place, IsExec, programs)|
    {
      hide Structure;
      grade := 0;
      NobodyWithin(place, IsExec);
      for i := 0 to |programs|
        invariant grade == |Within(place, IsExec, programs[..i])|
      {
        ProgramAt(Q(), i);
        WithinGrows(place, IsExec, programs[..i], programs[i]);
        ReadyCount(Q(), programs[i]);
        if prog[programs[i]].exec.Some? {
          grade := grade + 1;
        }
      }
      assert programs[..|programs|] == programs;
    }

    /** `multiprogramming_grade`: three folds over the programs. What they add up to is
        the number of threads that are neither in NEW nor in EXIT. */
    method MultiprogrammingGrade() returns (grade: nat)
      requires Structure(Q())
      ensures grade == Grade(Q())
    {
      hide Structure, Within;
      var blockedGrade := BlockedGrade();
      var readyGrade := ReadyGrade();
      var execGrade := ExecGrade();
      grade := blockedGrade + readyGrade + execGrade;
      AllListed(Q());
      GradeAddsUp(place, programs);
    }

    /** `no_more_threads`: counts NEW, READY, BLOCKED and EXEC of one program. */
    method NoMoreThreads(pid: Pid) returns (none: bool)
      requires Structure(Q()) && pid in prog
      ensures none <==> Gone(Q(), pid)
    {
      var blockedThreads := ThreadsInBlocked(pid);
      var news := 0;
      for i := 0 to |newList|
        invariant news == |OwnOf(newList[..i], pid)|
      {
        assert newList[..i + 1][..i] == newList[..i];
        if newList[i].pid == pid {
          news := news + 1;
        }
      }
      assert newList[..|newList|] == newList;
      none := news + |prog[pid].ready| + blockedThreads + (if prog[pid].exec.Some? then 1 else 0) == 0;
      NoneLeft(Q(), pid);
    }

    // ----- The single updates the operations are made of

    /** `list_add(program->ready, thread)`. */
    method PushReady(k: ThreadId)
      requires k.pid in prog
      modifies this`prog, this`place
      ensures prog == WithReady(old(prog), k) && place == old(place)[k := Ready]
    {
      var p := prog[k.pid];
      prog := prog[k.pid := p.(ready := p.ready + [k])];
      place := place[k := Ready];
    }

    /** `program->exec = thread`, for a program that is or becomes executing. */
    method SetExec(k: ThreadId)
      requires k.pid in prog
      modifies this`prog, this`place
      ensures prog == WithExec(old(prog), k) && place == old(place)[k := Exec]
    {
      prog := prog[k.pid := prog[k.pid].(exec := Some(k), executing := true)];
      place := place[k := Exec];
    }

    /** `program->exec = NULL`. */
    method ClearExec(pid: Pid)
      requires pid in prog
      modifies this`prog
      ensures prog == WithoutExec(old(prog), pid)
    {
      prog := prog[pid := prog[pid].(exec := None)];
    }

    /** A new interval on one of the thread's lists, or the end of the last one. */
    method Stamp(k: ThreadId, m: Stamp, t: Timespec)
      requires k in threads
      modifies this`threads
      ensures threads == Mark(old(threads), k, m, t)
    {
      var th := threads[k];
      match m {
        case StartExec => th := th.(execs := th.execs + [Interval(t, None)]);
        case StartReady => th := th.(readys := th.readys + [Interval(t, None)]);
        case EndExec => th := th.(execs := EndLast(th.execs, t));
        case EndReady => th := th.(readys := EndLast(th.readys, t));
      }
      threads := threads[k := th];
    }

    /** The last exec interval of the running thread ends now. */
    method EndBurst(k: ThreadId)
      requires k in threads
      modifies this`threads, this`ticks
      ensures threads == Mark(old(threads), k, EndExec, config.clock(old(ticks))) && ticks == old(ticks) + 1
    {
      var t := GetTime();
      Stamp(k, EndExec, t);
    }

    // ----- Create

    /** Below the limit a new thread gets its first interval: ready when its program is
        running something, and in execution otherwise. */
    method AdmitNew(k: ThreadId, born: Thread)
      requires k.pid in prog
      modifies this`prog, this`place, this`threads, this`ticks
      ensures var p, t := old(prog)[k.pid], config.clock(old(ticks));
              && ticks == old(ticks) + 1
              && if p.executing && p.exec.Some? then
                   && prog == WithReady(old(prog), k) && place == old(place)[k := Ready]
                   && threads == old(threads)[k := Stamped(born, StartReady, t)]
                 else
                   && prog == WithExec(old(prog), k) && place == old(place)[k := Exec]
                   && threads == old(threads)[k := Stamped(born, StartExec, t)]
    {
      hide WithReady, WithExec;
      var first := GetTime();
      var thread := born;
      if prog[k.pid].executing && prog[k.pid].exec.Some? {
        PushReady(k);
        thread := thread.(readys := thread.readys + [Interval(first, None)]);
      } else {
        thread := thread.(execs := thread.execs + [Interval(first, None)]);
        SetExec(k);
      }
      threads := threads[k := thread];
    }

    method SuseCreate(fd: Pid, tid: int)
      requires Valid() && Enabled(Q(), ECreate(fd, tid))
      modifies this
      ensures Valid() && View() == Step(config, old(View()), ECreate(fd, tid))
      ensures ThreadId(fd, tid) in threads && threads[ThreadId(fd, tid)].start == config.clock(old(ticks))
    {
      hide Valid, Safe, Structure, GoodConfig, Grade, WithReady, WithExec, Stamped, Step, Enabled;
      ghost var s0 := View();
      Facts();
      StepCreate(config, s0, fd, tid);
      var k := ThreadId(fd, tid);
      var start := GetTime();
      var newThread := Thread(start, 0.0, [], []);
      var grade := MultiprogrammingGrade();
      if grade >= config.maxMultiprog {
        threads := threads[k := newThread];
        newList := newList + [k];
        place := place[k := New];
        CreateResponse(fd, if prog[fd].executing then 1 else -1, CREATE);
      } else {
        AdmitNew(k, newThread);
        CreateResponse(fd, 1, CREATE);
      }
      assert View() == Create(config, s0, fd, tid);
      BornNow(config, s0, fd, tid);
      Stays(s0, ECreate(fd, tid));
    }

    // ----- Schedule

    /** The new estimate of one thread, from the length of its last burst. */
    method NewEstimate(th: Thread) returns (estimate: real)
      requires th.execs != []
          ==> var v := th.execs[|th.execs| - 1]; v.end.Some? && Normal(v.start) && Normal(v.end.value)
      ensures estimate == Reestimate(config.alpha, th).estimate
      ensures th.execs == [] ==> estimate == (1.0 - config.alpha) * th.estimate
      ensures th.execs != [] ==>
                var v := th.execs[|th.execs| - 1];
                estimate == config.alpha * ((Ns(v.end.value) - Ns(v.start)) / 1000) as real
                            + (1.0 - config.alpha) * th.estimate
    {
      var lastReal := 0;
      if th.execs != [] {
        var exec := th.execs[|th.execs| - 1];
        var elapsed := new Accumulator();
        elapsed.TimeDiff(exec.start, exec.end.value);
        lastReal := elapsed.ToUs();
      }
      assert lastReal == LastBurst(th);
      Sjf.ReestimateAverages(config.alpha, th);
      estimate := config.alpha * lastReal as real + (1.0 - config.alpha) * th.estimate;
    }

    /** `schedule_new_thread`: one pass over the ready list re-estimates every thread and
        remembers the first with the least estimate, which then leaves the list. */
    method ScheduleNewThread(pid: Pid) returns (next: ThreadId)
      requires Valid() && pid in prog && prog[pid].ready != []
      modifies this`threads, this`prog
      ensures var ready := old(prog[pid].ready);
              && threads == Reestimated(config.alpha, old(threads), ready)
              && next == ready[Choose(threads, ready)]
              && prog == old(prog)[pid := old(prog[pid]).(ready := RemoveAt(ready, Choose(threads, ready)))]
    {
      hide Valid, Safe, Structure, GoodConfig, Reestimate, Reestimated, Choose;
      var ready := prog[pid].ready;
      ghost var s0 := View();
      Facts();
      ReadyNoDup(Q(), pid);
      assert ready[..0] == [];
      NoEstimates(config.alpha, threads);
      var position := 0;
      for i := 0 to |ready|
        modifies this`threads
        invariant threads == Reestimated(config.alpha, s0.threads, ready[..i])
        invariant i > 0 ==> position == Choose(threads, ready[..i])
      {
        var k := ready[i];
        ReadyRecord(config, s0, pid, i);
        NotYetEstimated(config.alpha, s0.threads, ready, i);
        var estimate := NewEstimate(threads[k]);
        ghost var before := threads;
        threads := threads[k := threads[k].(estimate := estimate)];
        OneMoreEstimate(config.alpha, s0.threads, ready, i);
        ChooseStep(before, threads, ready, i);
        if i == 0 {
          position := 0;
        } else if threads[ready[position]].estimate > threads[k].estimate {
          position := i;
        }
      }
      assert ready[..|ready|] == ready;
      next := ready[position];
      prog := prog[pid := prog[pid].(ready := RemoveAt(ready, position))];
    }

    /** Puts the selected thread in the exec slot; one that was running becomes ready. */
    method Exchange(pid: Pid, k: ThreadId, t: Timespec)
      requires pid in prog && k in threads
          && (prog[pid].exec.Some? ==> prog[pid].exec.value in threads && prog[pid].exec.value != k)
      modifies this`prog, this`place, this`threads
      ensures var p := old(prog[pid]);
              var run := Mark(Mark(old(threads), k, StartExec, t), k, EndReady, t);
              if p.exec.Some? then
                var e := p.exec.value;
                && prog == old(prog)[pid := p.(ready := p.ready + [e], exec := Some(k))]
                && place == old(place)[e := Ready][k := Exec]
                && threads == Mark(Mark(run, e, EndExec, t), e, StartReady, t)
              else
                prog == old(prog)[pid := p.(exec := Some(k))] && place == old(place)[k := Exec] && threads == run
    {
      hide Stamped;
      ghost var was := threads;
      var p := prog[pid];
      Stamp(k, StartExec, t);
      if p.exec.Some? {
        var e := p.exec.value;
        Stamp(e, EndExec, t);
        Stamp(e, StartReady, t);
        Stamp(k, EndReady, t);
        StampOrder(was, k, e, t);
        prog := prog[pid := p.(ready := p.ready + [e], exec := Some(k))];
        place := place[e := Ready][k := Exec];
      } else {
        Stamp(k, EndReady, t);
        prog := prog[pid := p.(exec := Some(k))];
        place := place[k := Exec];
      }
    }

    /** `schedule_next`. */
    method ScheduleNext(pid: Pid) returns (tid: int)
      requires Valid() && pid in prog
      modifies this`prog, this`place, this`threads, this`asking, this`ticks
      ensures State(Q(), threads, ticks, sent + [Response(pid, tid, SCHEDULE_NEXT)])
          == Schedule(config, old(View()), pid)
    {
      hide Valid, Safe, GoodConfig, Structure, Choose, Mark, Reestimated, Schedule;
      ghost var s0 := View();
      Facts();
      ScheduleCases(config, s0, pid);
      if |prog[pid].ready| > 0 {
        tid := ScheduleReady(pid);
      } else if prog[pid].exec.Some? {
        var k := prog[pid].exec.value;
        ExecOf(Q(), pid);
        var t := GetTime();
        Stamp(k, EndExec, t);
        MarkKeys(s0.threads, k, EndExec, t);
        Stamp(k, StartExec, t);
        tid := k.tid;
      } else {
        asking := asking + [pid];
        tid := -1;
      }
    }

    /** The branch of `schedule_next` for a program with ready threads. */
    method ScheduleReady(pid: Pid) returns (tid: int)
      requires Valid() && pid in prog && prog[pid].ready != []
      modifies this`prog, this`place, this`threads, this`ticks
      ensures State(Q(), threads, ticks, sent + [Response(pid, tid, SCHEDULE_NEXT)])
          == Schedule(config, old(View()), pid)
    {
      hide Valid, Safe, GoodConfig, Structure, Choose, Mark, Reestimated, Schedule;
      ghost var s0, p0 := View(), prog[pid];
      Facts();
      ScheduleCases(config, s0, pid);
      ReadyPlaces(Q(), pid);
      if p0.exec.Some? {
        ExecOf(Q(), pid);
      }
      var k := ScheduleNewThread(pid);
      assert k in p0.ready;
      EstimatedKeys(config.alpha, s0.threads, p0.ready);
      tid := k.tid;
      var t := GetTime();
      ghost var removed := prog[pid];
      Exchange(pid, k, t);
      Overwrite(s0.q.prog, pid, removed, prog[pid]);
    }

    method SuseScheduleNext(fd: Pid)
      requires Valid() && Enabled(Q(), ESchedule(fd))
      modifies this
      ensures Valid() && View() == Step(config, old(View()), ESchedule(fd))
    {
      hide Valid, Safe, GoodConfig, Structure;
      ghost var s0 := View();
      Facts();
      var tid := -1;
      if fd in prog {
        tid := ScheduleNext(fd);
      }
      CreateResponse(fd, tid, SCHEDULE_NEXT);
      assert View() == Schedule(config, s0, fd);
      Stays(s0, ESchedule(fd));
    }

    // ----- Join

    /** The running thread, already out of the exec slot, joins: on a dead thread it goes
        back to ready, on a live one it blocks. */
    method ReadyOrBlocked(e: ThreadId, blocking: ThreadId, t: Timespec)
      requires e.pid in prog && e in threads
      modifies this`prog, this`threads, this`blocked, this`place
      ensures if blocking in exitList then
                && prog == WithReady(old(prog), e) && threads == Mark(old(threads), e, StartReady, t)
                && place == old(place)[e := Ready] && blocked == old(blocked)
              else
                && prog == old(prog) && threads == old(threads)
                && place == old(place)[e := Joined] && blocked == old(blocked) + [JoinBlock(e, blocking)]
    {
      if BlockingThreadIsDead(exitList, blocking) {
        Stamp(e, StartReady, t);
        PushReady(e);
      } else {
        blocked := blocked + [JoinBlock(e, blocking)];
        place := place[e := Joined];
      }
    }

    /** The running thread leaves the exec slot to wait for `blocking`. */
    method LeaveExec(e: ThreadId, blocking: ThreadId, t: Timespec)
      requires e.pid in prog && e in threads
      modifies this`prog, this`threads, this`blocked, this`place
      ensures if blocking in exitList then
                && prog == WithReady(WithoutExec(old(prog), e.pid), e)
                    && threads == Mark(old(threads), e, StartReady, t)
                && place == old(place)[e := Ready] && blocked == old(blocked)
              else
                && prog == WithoutExec(old(prog), e.pid) && threads == old(threads)
                && place == old(place)[e := Joined] && blocked == old(blocked) + [JoinBlock(e, blocking)]
    {
      hide WithReady, Mark;
      ClearExec(e.pid);
      ReadyOrBlocked(e, blocking, t);
    }

    method SuseJoin(fd: Pid, tid: int)
      requires Valid() && Enabled(Q(), EJoin(fd, tid))
      modifies this
      ensures Valid() && View() == Step(config, old(View()), EJoin(fd, tid))
    {
      hide Valid, Safe, Structure, GoodConfig, WithReady, WithoutExec, Mark, Step, Enabled, FindThread,
          LookupThread, Join;
      ghost var s0 := View();
      Facts();
      StepJoin(config, s0, fd, tid);
      ExecOf(Q(), fd);
      var e := prog[fd].exec.value;
      LookupIs(s0.q, fd, tid);
      var t := GetTime();
      Stamp(e, EndExec, t);
      MarkKeys(s0.threads, e, EndExec, t);
      var blocking := LookupThread(prog[fd].ready, exitList, newList, fd, tid).value;
      LeaveExec(e, blocking, t);
      CreateResponse(fd, 1, JOIN);
      Stays(s0, EJoin(fd, tid));
    }

    // ----- Close

    /** Takes the i-th block out of BLOCKED and puts its blocked thread at the tail of the
        program's ready list. */
    method ReleaseBlock(i: nat, pid: Pid)
      requires i < |blocked| && blocked[i].JoinBlock? && blocked[i].blocked in threads && pid in prog
      modifies this`blocked, this`prog, this`threads, this`ticks, this`place
      ensures var k := old(blocked)[i].blocked;
              && blocked == RemoveAt(old(blocked), i)
              && threads == Mark(old(threads), k, StartReady, config.clock(old(ticks)))
              && prog == ReadyTail(old(prog), pid, [k])
              && place == old(place)[k := Ready]
              && ticks == old(ticks) + 1
    {
      var k := blocked[i].blocked;
      blocked := RemoveAt(blocked, i);
      var t := GetTime();
      Stamp(k, StartReady, t);
      prog := prog[pid := prog[pid].(ready := prog[pid].ready + [k])];
      place := place[k := Ready];
    }

    /** `free_join_blocks`: while BLOCKED has a block held by `e`, take the first and make
        its blocked thread ready. */
    method FreeJoinBlocks(e: ThreadId)
      requires e.pid in prog && NoDup(JoinIds(blocked))
      requires forall k :: k in JoinedOn(blocked, e) ==> k in threads && k in place
      modifies this`blocked, this`prog, this`threads, this`ticks, this`place
      ensures blocked == OtherBlocks(old(blocked), e)
      ensures prog == ReadyTail(old(prog), e.pid, JoinedOn(old(blocked), e))
      ensures threads == MarkReleased(config, old(threads), JoinedOn(old(blocked), e), old(ticks))
      ensures ticks == old(ticks) + |JoinedOn(old(blocked), e)|
      ensures place == AllReady(old(place), JoinedOn(old(blocked), e))
    {
      hide MarkReleased, AllReady, JoinedOn, OtherBlocks, JoinIds, ReadyTail, Mark;
      ghost var bs0, released := blocked, JoinedOn(blocked, e);
      ghost var prog0, threads0, place0, ticks0 := prog, threads, place, ticks;
      ReleaseSplits(blocked, e);
      NothingReleased(config, threads, place, ticks, prog, e.pid);
      ghost var n := 0;
      var execute := true;
      while execute
        modifies this`blocked, this`prog, this`threads, this`ticks, this`place
        invariant n <= |released| && JoinedOn(blocked, e) == released[n..]
            && OtherBlocks(blocked, e) == OtherBlocks(bs0, e)
        invariant e.pid in prog && prog == ReadyTail(prog0, e.pid, released[..n])
        invariant threads == MarkReleased(config, threads0, released[..n], ticks0) && ticks == ticks0 + n
        invariant place == AllReady(place0, released[..n])
        invariant !execute ==> forall b :: b in blocked ==> !(b.JoinBlock? && b.blocking == e)
        decreases |blocked|, execute
      {
        var i := FindFirst(blocked, (b: Block) => b.JoinBlock? && b.blocking.tid == e.tid && b.blocking.pid == e.pid);
        if i == |blocked| {
          execute := false;
        } else {
          FirstHeld(blocked, e, i);
          assert released[n..] == [blocked[i].blocked] + JoinedOn(RemoveAt(blocked, i), e);
          assert released[n] == blocked[i].blocked && released[n] in released
              && released[n + 1..] == released[n..][1..];
          ReleaseOneMore(config, threads0, released, n, ticks0);
          ReleaseOnePlace(place0, released, n);
          ReadyTailNext(prog0, e.pid, released, n);
          ReleaseBlock(i, e.pid);
          n := n + 1;
        }
      }
      NoneHeld(blocked, e);
      assert released[..n] == released;
    }

    /** The running thread leaves the exec slot for EXIT and releases the threads joined on it. */
    method ExitThread(e: ThreadId)
      requires Structure(Q()) && (forall k :: k in threads <==> k in place) && e in place && place[e] == Exec
      modifies this
      ensures View() == Exit(config, old(View()), e)
      ensures exitList == old(exitList) + [e]
    {
      hide Structure, WithoutExec, Mark, MarkReleased, AllReady, ReadyTail, JoinedOn, OtherBlocks, JoinIds;
      ghost var s0 := View();
      RunningHas(Q(), e);
      JoinedPlaces(Q(), e);
      ClearExec(e.pid);
      WithoutExecKeys(s0.q.prog, e.pid);
      EndBurst(e);
      MarkKeys(s0.threads, e, EndExec, config.clock(s0.ticks));
      exitList := exitList + [e];
      place := place[e := Exited];
      FreeJoinBlocks(e);
      ExitOrder(s0.q, e);
    }

    /** `destroy_exit_threads`: while EXIT has a thread of the program, take it out and destroy it. */
    method DestroyExitThreads(pid: Pid)
      modifies this`exitList, this`threads, this`place
      ensures exitList == OthersOf(old(exitList), pid)
      ensures threads == old(threads) - (set k | k in old(exitList) && k.pid == pid)
      ensures place == old(place) - (set k | k in old(exitList) && k.pid == pid)
    {
      ghost var exit0, removed: set<ThreadId> := exitList, {};
      var execute := true;
      while execute
        modifies this`exitList, this`threads, this`place
        invariant OthersOf(exitList, pid) == OthersOf(exit0, pid)
        invariant forall k :: k in removed ==> k in exit0 && k.pid == pid
        invariant forall k :: k in exit0 ==> k in exitList || k in removed
        invariant forall k :: k in exitList ==> k in exit0
        invariant threads == old(threads) - removed && place == old(place) - removed
        invariant !execute ==> forall k :: k in exitList ==> k.pid != pid
        decreases |exitList|, execute
      {
        hide OthersOf;
        var i := FindFirst(exitList, (k: ThreadId) => k.pid == pid);
        if i == |exitList| {
          execute := false;
        } else {
          OthersOfRemove(exitList, i, pid);
          var thread := exitList[i];
          RemovedMembers(exitList, i);
          exitList := RemoveAt(exitList, i);
          threads := threads - {thread};
          place := place - {thread};
          removed := removed + {thread};
        }
      }
      OthersOfAll(exitList, pid);
      assert removed == set k | k in exit0 && k.pid == pid;
    }

    /** `destroy_program`. */
    method DestroyProgram(pid: Pid)
      modifies this`programs, this`prog
      ensures programs == RemoveFirst(old(programs), pid) && prog == old(prog) - {pid}
    {
      programs := RemoveFirst(programs, pid);
      prog := prog - {pid};
    }

    /** The end of a program: when nothing is left outside EXIT, all of it is destroyed. */
    method ReapProgram(pid: Pid)
      requires Structure(Q()) && pid in prog && (forall k :: k in threads <==> k in place)
      modifies this
      ensures View() == Reap(old(View()), pid)
    {
      hide Structure, Gone;
      ghost var s0 := View();
      var none := NoMoreThreads(pid);
      if none {
        DestroyExitThreads(pid);
        DestroyProgram(pid);
        ReapIs(s0, pid);
      }
    }

    /** `assign_thread`. */
    method AssignThread(k: ThreadId, header: Header)
      requires k.pid in prog && k in threads && (header == SCHEDULE_NEXT ==> prog[k.pid].executing)
      modifies this`prog, this`place, this`threads, this`ticks, this`sent
      ensures threads == Mark(old(threads), k, StartExec, config.clock(old(ticks))) && ticks == old(ticks) + 1
      ensures prog == WithExec(old(prog), k) && place == old(place)[k := Exec]
      ensures sent == old(sent) + [Response(k.pid, if header == SCHEDULE_NEXT then k.tid else 1, header)]
    {
      var t := GetTime();
      Stamp(k, StartExec, t);
      var response;
      if header == SCHEDULE_NEXT {
        prog := prog[k.pid := prog[k.pid].(exec := Some(k))];
        response := k.tid;
      } else {
        prog := prog[k.pid := prog[k.pid].(exec := Some(k), executing := true)];
        response := 1;
      }
      place := place[k := Exec];
      CreateResponse(k.pid, response, header);
    }

    /** `distribute_new_thread`. */
    method DistributeNewThread()
      requires Structure(Q()) && (forall k :: k in threads <==> k in place)
      modifies this
      ensures View() == Distribute(config, old(View()))
    {
      hide Structure, WithReady, WithExec, Mark, FirstRunnable;
      ghost var s0 := View();
      var i := FirstRunnable(newList, prog);
      if i < |newList| {
        NewOf(Q(), i);
        var next := newList[i];
        newList := RemoveAt(newList, i);
        if next.pid in asking {
          asking := RemoveFirst(asking, next.pid);
          AssignThread(next, SCHEDULE_NEXT);
        } else {
          var t := GetTime();
          Stamp(next, StartReady, t);
          PushReady(next);
        }
      } else if newList != [] {
        NewOf(Q(), 0);
        var next := newList[0];
        newList := RemoveAt(newList, 0);
        AssignThread(next, CREATE);
      }
    }

    method SuseClose(fd: Pid, tid: int)
      requires Valid() && Enabled(Q(), EClose(fd, tid))
      modifies this
      ensures Valid() && View() == Step(config, old(View()), EClose(fd, tid))
      ensures |sent| > |old(sent)|
      ensures sent[|sent| - 1]
           == Response(fd, if old(prog[fd].exec) == Some(ThreadId(fd, tid)) then 1 else -1, CLOSE)
    {
      hide Valid, Safe, Structure, GoodConfig, Step, Enabled, Exit, Reap, Distribute;
      ghost var s0 := View();
      Facts();
      StepClose(config, s0, fd, tid);
      CloseMeans(config, s0, fd, tid);
      CloseSends(config, s0, fd, tid);
      var e := prog[fd].exec.value;
      var response;
      if e.tid == tid {
        ExecOf(Q(), fd);
        CloseStates(config, s0, fd, e);
        ExitThread(e);
        ReapProgram(fd);
        DistributeNewThread();
        response := 1;
      } else {
        response := -1;
      }
      CreateResponse(fd, response, CLOSE);
      assert View() == Close(config, s0, fd, tid);
      Stays(s0, EClose(fd, tid));
    }

    // ----- Semaphores

    /** The running thread goes to the tail of the semaphore's queue. */
    method BlockOnSemaphore(thread: ThreadId, i: nat)
      requires i < |semaphores| && thread in threads && thread.pid in prog
      modifies this`semaphores, this`threads, this`prog, this`place, this`ticks
      ensures semaphores == old(semaphores)[i := old(semaphores[i]).(queue := old(semaphores[i]).queue + [thread])]
      ensures threads == Mark(old(threads), thread, EndExec, config.clock(old(ticks))) && ticks == old(ticks) + 1
      ensures prog == WithoutExec(old(prog), thread.pid) && place == old(place)[thread := Queued(i)]
    {
      semaphores := semaphores[i := semaphores[i].(queue := semaphores[i].queue + [thread])];
      EndBurst(thread);
      ClearExec(thread.pid);
      place := place[thread := Queued(i)];
    }

    /** `suse_wait`, acting on the thread that is running. */
    method SuseWait(fd: Pid, tid: int, id: string)
      requires Valid() && Enabled(Q(), EWait(fd, tid, id))
      modifies this
      ensures Valid() && View() == Step(config, old(View()), EWait(fd, tid, id))
    {
      hide Valid, Safe, Structure, GoodConfig, Step, Enabled, WithoutExec, Mark, FindSem;
      ghost var s0 := View();
      Facts();
      StepWait(config, s0, fd, tid, id);
      var i := FindSem(semaphores, id);
      var thread := ThreadId(fd, tid);
      ExecOf(Q(), fd);
      semaphores := semaphores[i := semaphores[i].(value := semaphores[i].value - 1)];
      if semaphores[i].value < 0 {
        BlockOnSemaphore(thread, i);
      }
      CreateResponse(fd, 1, WAIT);
      assert View() == Wait(config, s0, fd, id);
      Stays(s0, EWait(fd, tid, id));
    }

    /** The head of the semaphore's queue goes to the tail of its program's ready list. */
    method WakeHead(i: nat)
      requires i < |semaphores| && semaphores[i].queue != []
      requires semaphores[i].queue[0] in threads && semaphores[i].queue[0].pid in prog
      modifies this`semaphores, this`threads, this`prog, this`place, this`ticks
      ensures var m := old(semaphores)[i];
              && semaphores == old(semaphores)[i := m.(queue := RemoveAt(m.queue, 0))]
              && threads == Mark(old(threads), m.queue[0], StartReady, config.clock(old(ticks)))
                  && ticks == old(ticks) + 1
              && prog == WithReady(old(prog), m.queue[0]) && place == old(place)[m.queue[0] := Ready]
    {
      hide WithReady, Mark;
      var thread := semaphores[i].queue[0];
      semaphores := semaphores[i := semaphores[i].(queue := RemoveAt(semaphores[i].queue, 0))];
      var t := GetTime();
      Stamp(thread, StartReady, t);
      PushReady(thread);
    }

    method SuseSignal(fd: Pid, tid: int, id: string)
      requires Valid() && Enabled(Q(), ESignal(fd, tid, id))
      modifies this
      ensures Valid() && View() == Step(config, old(View()), ESignal(fd, tid, id))
    {
      hide Valid, Safe, Structure, GoodConfig, Step, Enabled, WithReady, Mark, FindSem;
      ghost var s0 := View();
      Facts();
      StepSignal(config, s0, fd, tid, id);
      var i := FindSem(semaphores, id);
      QueueOwed(config, s0, i);
      var value := semaphores[i].value + 1;
      if value > semaphores[i].max {
        value := semaphores[i].max;
      }
      semaphores := semaphores[i := semaphores[i].(value := value)];
      if value <= 0 {
        WakeHead(i);
      }
      CreateResponse(fd, 1, SIGNAL);
      assert View() == Signal(config, s0, fd, id);
      Stays(s0, ESignal(fd, tid, id));
    }

    // ----- Metrics

    /** The program's share of a report: its threads, gathered from all the lists, and the sum
        of their ages. It is the floor in microseconds of the summed ages of exactly the
        threads that the program has, each counted once. */
    method ProgramElapsed(pid: Pid, end: Timespec) returns (us: int)
      requires Structure(Q()) && pid in prog && Normal(end)
      requires forall k :: k in threads ==> Normal(threads[k].start)
      ensures forall listing :: NoDup(listing) && (forall k :: k in listing <==> k in place && k.pid == pid) ==>
                us == SumElapsed(StartTimes(threads, listing), end) / 1000
    {
      hide Structure, StartTimes, OwnOf, OwnQueued, JoinIds, SemIds, Groups, SumElapsed, AllStarts;
      var news := AppendOwn([], newList, pid);
      var exits := AppendOwn([], exitList, pid);
      var queued := ThreadsInSemaphoreBlockList(pid);
      var joins := ThreadsInJoinBlockList(pid);
      var exec := prog[pid].exec;
      assert news == OwnOf(newList, pid) && exits == OwnOf(exitList, pid);
      ghost var all := Groups(Q(), pid);
      GroupsHold(Q(), pid);
      GroupStarts(Q(), threads, pid);
      StartsOf(threads, all);
      us := TotalExecTime(StartTimes(threads, news), StartTimes(threads, exits), StartTimes(threads, prog[pid].ready),
                          StartTimes(threads, queued), StartTimes(threads, joins), StartOf(threads, exec), end);
      forall listing | NoDup(listing) && (forall k :: k in listing <==> k in place && k.pid == pid)
        ensures us == SumElapsed(StartTimes(threads, listing), end) / 1000
      {
        SameMembers(listing, all);
        StartsAnyOrder(threads, listing, all);
      }
    }

    /** What a metrics report writes while it walks the programs: the end of the open
        interval of every ready and running thread. */
    method MetricsWrites()
      requires Valid()
      modifies this`threads, this`ticks
      ensures Valid() && View() == Step(config, old(View()), EMetrics)
    {
      hide Valid, Safe, Structure, GoodConfig, Reported, Stamped;
      ghost var s0 := View();
      Facts();
      var end := GetTime();
      NoneReported(s0, end);
      for i := 0 to |programs|
        modifies this`threads
        invariant threads == Reported(s0, end, programs[..i], [])
      {
        var p := programs[i];
        ProgramAt(s0.q, i);
        ReadyNoDup(s0.q, p);
        var ready := prog[p].ready;
        assert ready[..0] == [];
        for j := 0 to |ready|
          modifies this`threads
          invariant threads == Reported(s0, end, programs[..i], ready[..j])
        {
          ReportReady(s0, end, i, j);
          Stamp(ready[j], EndReady, end);
        }
        assert ready[..|ready|] == ready;
        if prog[p].exec.Some? {
          ExecOf(s0.q, p);
          ReportedKeys(s0, end, programs[..i], ready);
          Stamp(prog[p].exec.value, EndExec, end);
        }
        ReportProgram(s0, end, i);
      }
      assert programs[..|programs|] == programs;
      AllReported(config, s0);
      Stays(s0, EMetrics);
    }
  }

  // ----- Facts the methods use

  function StartOf(threads: map<ThreadId, Thread>, exec: Option<ThreadId>): Option<Timespec> {
    if exec.Some? && exec.value in threads then Some(threads[exec.value].start) else None
  }

  lemma GroupStarts(q: Queues, threads: map<ThreadId, Thread>, pid: Pid)
    requires pid in q.prog
    ensures StartTimes(threads, Groups(q, pid)) ==
            AllStarts(StartTimes(threads, OwnOf(q.newList, pid)), StartTimes(threads, OwnOf(q.exitList, pid)),
                      StartTimes(threads, q.prog[pid].ready),
                          StartTimes(threads, OwnQueued(q.sems, SemIds(q.blocked), pid)),
                      StartTimes(threads, OwnOf(JoinIds(q.blocked), pid)), StartOf(threads, q.prog[pid].exec))
  {
    var n, x, r := OwnOf(q.newList, pid), OwnOf(q.exitList, pid), q.prog[pid].ready;
    var w, j := OwnQueued(q.sems, SemIds(q.blocked), pid), OwnOf(JoinIds(q.blocked), pid);
    var e := if q.prog[pid].exec.Some? then [q.prog[pid].exec.value] else [];
    LastStart(threads, q.prog[pid].exec);
    hide OwnOf, OwnQueued, JoinIds, SemIds, StartTimes;
    StartsConcat(threads, n, x);
    StartsConcat(threads, n + x, r);
    StartsConcat(threads, n + x + r, w);
    StartsConcat(threads, n + x + r + w, j);
    StartsConcat(threads, n + x + r + w + j, e);
  }

  lemma LastStart(threads: map<ThreadId, Thread>, exec: Option<ThreadId>)
    ensures StartTimes(threads, if exec.Some? then [exec.value] else []) ==
            if StartOf(threads, exec).Some? then [StartOf(threads, exec).value] else []
  {
    if exec.Some? {
      assert [exec.value][..0] == [];
    }
  }

  lemma StepCreate(c: Config, s: State, pid: Pid, tid: int)
    requires Enabled(s.q, ECreate(pid, tid))
    ensures pid in s.q.prog && Step(c, s, ECreate(pid, tid)) == Create(c, s, pid, tid)
  {}

  lemma BornNow(c: Config, s: State, pid: Pid, tid: int)
    requires pid in s.q.prog
    ensures var k, r := ThreadId(pid, tid), Create(c, s, pid, tid);
            k in r.threads && r.threads[k].start == c.clock(s.ticks)
  {
    hide Create;
    CreateBorn(c, s, pid, tid);
  }

  lemma {:induction false} SemIdsMembers(bs: seq<Block>, i: nat)
    requires i < |bs| && bs[i].SemBlock?
    ensures bs[i].sem in SemIds(bs)
  {
    if i < |bs| - 1 {
      SemIdsMembers(bs[..|bs| - 1], i);
    }
  }

  lemma WrapperInRange(q: Queues, i: nat)
    requires Structure(q) && i < |q.blocked| && q.blocked[i].SemBlock?
    ensures q.blocked[i].sem < |q.sems|
  {
    SemIdsMembers(q.blocked, i);
  }

  lemma ProgramAt(q: Queues, i: nat)
    requires Structure(q) && i < |q.programs|
    ensures q.programs[i] in q.prog && q.programs[i] !in q.programs[..i]
        && q.programs[..i + 1] == q.programs[..i] + [q.programs[i]]
  {
    assert q.programs[i] in q.programs;
    assert forall j :: 0 <= j < i ==> q.programs[..i][j] == q.programs[j] != q.programs[i];
  }

  lemma AllListed(q: Queues)
    requires Structure(q)
    ensures forall k :: k in q.place ==> k.pid in q.programs
  {}

  lemma NoneLeft(q: Queues, pid: Pid)
    requires Structure(q) && pid in q.prog
    ensures (|OwnOf(q.newList, pid)| + |q.prog[pid].ready| + |Within(q.place, IsBlocked, [pid])|
             + (if q.prog[pid].exec.Some? then 1 else 0) == 0) <==> Gone(q, pid)
  {
    OwnOfKeeps(q.newList, pid);
    assert ProgramHolds(q.prog[pid], q.place, pid);
    var b := Within(q.place, IsBlocked, [pid]);
    if Gone(q, pid) {
      assert b == {};
      NoDupSize(OwnOf(q.newList, pid), {});
      NoDupSize(q.prog[pid].ready, {});
    } else {
      var k :| k in q.place && k.pid == pid && q.place[k] != Exited;
      assert IsBlocked(q.place[k]) ==> k in b;
      assert k in OwnOf(q.newList, pid) || k in q.prog[pid].ready || k in b || q.prog[pid].exec == Some(k);
    }
  }

  lemma {:induction false} ChooseFrame(a: map<ThreadId, Thread>, b: map<ThreadId, Thread>, ready: seq<ThreadId>)
    requires ready != [] ==> forall k :: k in ready ==> EstimateOf(a, k) == EstimateOf(b, k)
    ensures ready != [] ==> Choose(a, ready) == Choose(b, ready)
  {
    if |ready| > 1 {
      ChooseFrame(a, b, ready[..|ready| - 1]);
    }
  }

  lemma OneMoreEstimate(alpha: real, threads: map<ThreadId, Thread>, ready: seq<ThreadId>, i: nat)
    requires i < |ready| && ready[i] in threads && ready[i] !in ready[..i]
    ensures var k := ready[i];
            Reestimated(alpha, threads, ready[..i + 1]) ==
            Reestimated(alpha, threads,
                ready[..i])[k := threads[k].(estimate := Reestimate(alpha, threads[k]).estimate)]
  {
    assert ready[..i + 1] == ready[..i] + [ready[i]];
  }

  lemma ReadyNoDup(q: Queues, pid: Pid)
    requires Structure(q) && pid in q.prog
    ensures NoDup(q.prog[pid].ready) && forall k :: k in q.prog[pid].ready ==> k in q.place
  {
    ReadyPlaces(q, pid);
    assert ProgramHolds(q.prog[pid], q.place, pid);
  }

  /** The end time a selection reads has always been written. */
  lemma ReadyRecord(c: Config, s: State, pid: Pid, i: nat)
    requires Safe(c, s) && pid in s.q.prog && i < |s.q.prog[pid].ready|
    ensures var k := s.q.prog[pid].ready[i];
            k in s.threads && (s.threads[k].execs != [] ==>
              var v := s.threads[k].execs[|s.threads[k].execs| - 1];
              v.end.Some? && Normal(v.start) && Normal(v.end.value))
  {
    hide Structure;
    ReadyOf(s.q, pid, i);
    assert ThreadOk(s.threads[s.q.prog[pid].ready[i]], Ready, Ns(c.clock(s.ticks)));
  }

  lemma StampOrder(est: map<ThreadId, Thread>, k: ThreadId, e: ThreadId, t: Timespec)
    requires k != e
    ensures Mark(Mark(Mark(Mark(est, k, StartExec, t), e, EndExec, t), e, StartReady, t), k, EndReady, t) ==
            Mark(Mark(Mark(Mark(est, k, StartExec, t), k, EndReady, t), e, EndExec, t), e, StartReady, t)
  {
    var m := Mark(est, k, StartExec, t);
    MarksCommute(Mark(m, e, EndExec, t), k, EndReady, e, StartReady, t);
    MarksCommute(m, k, EndReady, e, EndExec, t);
  }

  lemma Overwrite<K, V>(m: map<K, V>, k: K, a: V, b: V)
    ensures m[k := a][k := b] == m[k := b]
  {}

  lemma NoEstimates(alpha: real, threads: map<ThreadId, Thread>)
    ensures Reestimated(alpha, threads, []) == threads
  {}

  lemma NotYetEstimated(alpha: real, threads: map<ThreadId, Thread>, ready: seq<ThreadId>, i: nat)
    requires NoDup(ready) && i < |ready| && (forall k :: k in ready ==> k in threads)
    ensures var est := Reestimated(alpha, threads, ready[..i]);
            est.Keys == threads.Keys && ready[i] !in ready[..i] && est[ready[i]] == threads[ready[i]]
  {}

  lemma EstimatedKeys(alpha: real, threads: map<ThreadId, Thread>, ready: seq<ThreadId>)
    ensures Reestimated(alpha, threads, ready).Keys == threads.Keys
  {}

  lemma MarkKeys(threads: map<ThreadId, Thread>, k: ThreadId, m: Stamp, t: Timespec)
    ensures Mark(threads, k, m, t).Keys == threads.Keys
  {}

  /** How the choice moves when one more thread has its new estimate. */
  lemma ChooseStep(before: map<ThreadId, Thread>, after: map<ThreadId, Thread>, ready: seq<ThreadId>, i: nat)
    requires i < |ready| && NoDup(ready) && (forall k :: k in ready ==> k in before)
    requires ready[i] in after && after == before[ready[i] := after[ready[i]]]
    ensures i == 0 ==> Choose(after, ready[..1]) == 0
    ensures i > 0 ==>
              var best := Choose(before, ready[..i]);
              Choose(after, ready[..i + 1]) == if after[ready[best]].estimate > after[ready[i]].estimate then i
                  else best
  {
    var front := ready[..i];
    assert ready[..i + 1][..i] == front && ready[..i + 1][i] == ready[i];
    forall k | k in front ensures EstimateOf(before, k) == EstimateOf(after, k) {
      assert k != ready[i];
    }
    ChooseFrame(before, after, front);
  }

  /** The outcomes of a schedule request, field by field. */
  lemma ScheduleCases(c: Config, s: State, pid: Pid)
    requires Structure(s.q) && s.threads.Keys == s.q.place.Keys && pid in s.q.prog
    ensures var p, t, r := s.q.prog[pid], c.clock(s.ticks), Schedule(c, s, pid);
            if p.ready != [] then
              var est := Reestimated(c.alpha, s.threads, p.ready);
              var i := Choose(est, p.ready);
              var k := p.ready[i];
              var run := Mark(Mark(est, k, StartExec, t), k, EndReady, t);
              if p.exec.Some? then
                var e := p.exec.value;
                r == State(s.q.(prog := s.q.prog[pid := p.(ready := RemoveAt(p.ready, i) + [e], exec := Some(k))],
                                place := s.q.place[e := Ready][k := Exec]),
                           Mark(Mark(run, e, EndExec, t), e, StartReady, t), s.ticks + 1,
                               s.sent + [Response(pid, k.tid, SCHEDULE_NEXT)])
              else
                r == State(s.q.(prog := s.q.prog[pid := p.(ready := RemoveAt(p.ready, i), exec := Some(k))],
                    place := s.q.place[k := Exec]),
                           run, s.ticks + 1, s.sent + [Response(pid, k.tid, SCHEDULE_NEXT)])
            else if p.exec.Some? then
              r == s.(threads := Mark(Mark(s.threads, p.exec.value, EndExec, t), p.exec.value, StartExec, t),
                  ticks := s.ticks + 1,
                      sent := s.sent + [Response(pid, p.exec.value.tid, SCHEDULE_NEXT)])
            else
              r == s.(q := s.q.(asking := s.q.asking + [pid]), sent := s.sent + [Response(pid, -1, SCHEDULE_NEXT)])
  {
    hide Structure, Mark, Reestimated, Choose, RemoveAt;
    var p := s.q.prog[pid];
    if p.ready != [] && p.exec.Some? {
      ExecOf(s.q, pid);
      RemoveThenAppend(p.ready, Choose(Reestimated(c.alpha, s.threads, p.ready), p.ready), p.exec.value);
    }
  }

  lemma RemoveThenAppend(l: seq<ThreadId>, i: nat, e: ThreadId)
    requires i < |l|
    ensures RemoveAt(l, i) + [e] == RemoveAt(l + [e], i) && (l + [e])[i] == l[i]
  {}

  lemma StepJoin(c: Config, s: State, pid: Pid, tid: int)
    requires Structure(s.q) && Enabled(s.q, EJoin(pid, tid))
    ensures pid in s.q.prog && s.q.prog[pid].exec.Some? && FindThread(s.q, pid, tid) == Some(ThreadId(pid, tid))
    ensures Step(c, s, EJoin(pid, tid)) == Join(c, s, pid, tid)
    ensures var e, target, t := s.q.prog[pid].exec.value, ThreadId(pid, tid), c.clock(s.ticks);
            var ended, prog := Mark(s.threads, e, EndExec, t), WithoutExec(s.q.prog, pid);
            Join(c, s, pid, tid) ==
            if target in s.q.exitList then
              State(s.q.(prog := WithReady(prog, e), place := s.q.place[e := Ready]), Mark(ended, e, StartReady, t),
                    s.ticks + 1, s.sent + [Response(pid, 1, JOIN)])
            else
              State(s.q.(prog := prog, blocked := s.q.blocked + [JoinBlock(e, target)],
                  place := s.q.place[e := Joined]), ended,
                    s.ticks + 1, s.sent + [Response(pid, 1, JOIN)])
  {
    ExecOf(s.q, pid);
  }

  lemma WithoutExecKeys(prog: map<Pid, Program>, pid: Pid)
    ensures WithoutExec(prog, pid).Keys == prog.Keys
  {}

  /** The program's ready list with more threads at its tail. */
  function ReadyTail(prog: map<Pid, Program>, pid: Pid, more: seq<ThreadId>): map<Pid, Program> {
    if pid in prog then prog[pid := prog[pid].(ready := prog[pid].ready + more)] else prog
  }

  lemma ReadyTailNext(prog: map<Pid, Program>, pid: Pid, released: seq<ThreadId>, n: nat)
    requires n < |released| && pid in prog
    ensures var now := ReadyTail(prog, pid, released[..n]);
            pid in now && ReadyTail(now, pid, [released[n]]) == ReadyTail(prog, pid, released[..n + 1])
    ensures pid in ReadyTail(prog, pid, released[..n + 1])
  {
    var ready := prog[pid].ready;
    assert released[..n + 1] == released[..n] + [released[n]];
    assert ready + released[..n] + [released[n]] == ready + released[..n + 1];
  }

  lemma NothingReleased(c: Config, threads: map<ThreadId, Thread>, place: map<ThreadId, Place>, ticks: nat,
                        prog: map<Pid, Program>, pid: Pid)
    ensures MarkReleased(c, threads, [], ticks) == threads && AllReady(place, []) == place
        && ReadyTail(prog, pid, []) == prog
  {
    if pid in prog {
      assert prog[pid].ready + [] == prog[pid].ready;
    }
  }

  lemma ReleaseOneMore(c: Config, threads: map<ThreadId, Thread>, released: seq<ThreadId>, n: nat, ticks: nat)
    requires NoDup(released) && n < |released| && released[n] in threads
    ensures var done := MarkReleased(c, threads, released[..n], ticks);
            && released[n] in done
            && MarkReleased(c, threads, released[..n + 1], ticks)
                == Mark(done, released[n], StartReady, c.clock(ticks + n))
  {
    hide Stamped, IndexOf;
    var done, next, k := released[..n], released[..n + 1], released[n];
    assert next == done + [k] && k !in done;
    IndexUnique(next, IndexOf(next, k), n);
    forall j | j in done ensures IndexOf(next, j) == IndexOf(done, j) {
      IndexUnique(next, IndexOf(done, j), IndexOf(next, j));
    }
    var a, b := MarkReleased(c, threads, next, ticks), MarkReleased(c, threads, done, ticks);
    assert forall j :: j in threads && j != k ==> (j in next <==> j in done);
    assert b[k] == threads[k];
  }

  lemma ReleaseOnePlace(place: map<ThreadId, Place>, released: seq<ThreadId>, n: nat)
    requires n < |released| && released[n] in place
    ensures AllReady(place, released[..n + 1]) == AllReady(place, released[..n])[released[n] := Ready]
  {
    assert released[..n + 1] == released[..n] + [released[n]];
  }

  lemma IndexUnique<T(!new)>(s: seq<T>, i: nat, j: nat)
    requires NoDup(s) && i < |s| && j < |s| && s[i] == s[j]
    ensures i == j
  {}

  lemma RunningHas(q: Queues, e: ThreadId)
    requires Structure(q) && e in q.place && q.place[e] == Exec
    ensures e.pid in q.prog && q.prog[e.pid].exec == Some(e)
  {
    assert ProgramHolds(q.prog[e.pid], q.place, e.pid);
  }

  /** Leaving the exec slot first and releasing afterwards comes to the same. */
  lemma ExitOrder(q: Queues, e: ThreadId)
    requires e.pid in q.prog && (forall j :: j in JoinedOn(q.blocked, e) ==> j in q.place && q.place[j] == Joined)
    requires e in q.place && q.place[e] == Exec
    ensures var released := JoinedOn(q.blocked, e);
            ExecToExit(ReleaseJoins(q, e), e) ==
            q.(prog := ReadyTail(WithoutExec(q.prog, e.pid), e.pid, released), blocked := OtherBlocks(q.blocked, e),
               exitList := q.exitList + [e], place := AllReady(q.place[e := Exited], released))
  {
    var released := JoinedOn(q.blocked, e);
    assert AllReady(q.place[e := Exited], released) == AllReady(q.place, released)[e := Exited];
    assert ReadyTail(WithoutExec(q.prog, e.pid), e.pid, released)
        == WithoutExec(ReadyTail(q.prog, e.pid, released), e.pid);
  }

  lemma RemovedMembers(l: seq<ThreadId>, i: nat)
    requires i < |l|
    ensures forall k :: k in RemoveAt(l, i) ==> k in l
    ensures forall k :: k in l ==> k in RemoveAt(l, i) || k == l[i]
  {
    var r := RemoveAt(l, i);
    forall k | k in l && k != l[i] ensures k in r {
      var j :| 0 <= j < |l| && l[j] == k;
      assert if j < i then r[j] == k else r[j - 1] == k;
    }
  }

  lemma ReapIs(s: State, pid: Pid)
    requires Structure(s.q) && Gone(s.q, pid) && pid in s.q.prog && (forall k :: k in s.threads <==> k in s.q.place)
    ensures var ended := set k | k in s.q.exitList && k.pid == pid;
            Reap(s, pid) == s.(q := s.q.(programs := RemoveFirst(s.q.programs, pid), prog := s.q.prog - {pid},
                                         exitList := OthersOf(s.q.exitList, pid), place := s.q.place - ended),
                               threads := s.threads - ended)
  {
    hide OthersOf, RemoveFirst, Structure;
    var ended := set k | k in s.q.exitList && k.pid == pid;
    ExitedIn(s.q);
    assert s.q.place - ended == map j | j in s.q.place && j.pid != pid :: s.q.place[j];
    assert s.threads - ended == map k | k in s.threads && k.pid != pid :: s.threads[k];
  }

  lemma ExitedIn(q: Queues)
    requires Structure(q)
    ensures forall k :: k in q.exitList <==> k in q.place && q.place[k] == Exited
  {}

  lemma StepClose(c: Config, s: State, pid: Pid, tid: int)
    requires Enabled(s.q, EClose(pid, tid))
    ensures pid in s.q.prog && s.q.prog[pid].exec.Some? && Step(c, s, EClose(pid, tid)) == Close(c, s, pid, tid)
  {}

  /** The states in the middle of a close: every queued thread's program can be found. */
  lemma CloseStates(c: Config, s: State, pid: Pid, e: ThreadId)
    requires GoodConfig(c) && Safe(c, s) && e in s.q.place && s.q.place[e] == Exec && e.pid == pid
    ensures var s1, s2 := Exit(c, s, e), Reap(Exit(c, s, e), pid);
            && Structure(s1.q) && pid in s1.q.prog && (forall k :: k in s1.threads <==> k in s1.q.place)
            && Structure(s2.q) && (forall k :: k in s2.threads <==> k in s2.q.place)
  {
    hide Structure, Ordered, TargetsLive, Dormant, AllAlive, ThreadOk;
    ExitKeeps(c, s, e);
    ExitTimes(c, s, e);
    ReapKeeps(Exit(c, s, e), pid);
    ReapTimes(c, Exit(c, s, e), pid);
  }

  lemma StepWait(c: Config, s: State, pid: Pid, tid: int, id: string)
    requires Enabled(s.q, EWait(pid, tid, id))
    ensures pid in s.q.prog && s.q.prog[pid].exec == Some(ThreadId(pid, tid)) && FindSem(s.q.sems, id) < |s.q.sems|
    ensures Step(c, s, EWait(pid, tid, id)) == Wait(c, s, pid, id)
  {}

  lemma StepSignal(c: Config, s: State, pid: Pid, tid: int, id: string)
    requires Enabled(s.q, ESignal(pid, tid, id))
    ensures FindSem(s.q.sems, id) < |s.q.sems| && Step(c, s, ESignal(pid, tid, id)) == Signal(c, s, pid, id)
  {}

  /** A signal that owes a thread finds one in the queue, of a live program. */
  lemma QueueOwed(c: Config, s: State, i: nat)
    requires Safe(c, s) && i < |s.q.sems|
    ensures var m := s.q.sems[i];
            Raised(m) <= 0 ==> m.queue != [] && m.queue[0] in s.threads && m.queue[0].pid in s.q.prog
  {
    hide Structure;
    assert SemValue(s.q.sems[i]);
    if s.q.sems[i].queue != [] {
      QueueHead(s.q, i);
    }
  }

  // ----- Metrics, program by program

  /** The records after the programs `done` and the ready threads `more` were reported. */
  ghost function Reported(s: State, end: Timespec, done: seq<Pid>, more: seq<ThreadId>): map<ThreadId, Thread> {
    map k | k in s.threads ::
      if k.pid in done then MetricsStamp(s.q, k, s.threads[k], end)
      else if k in more then Stamped(s.threads[k], EndReady, end)
      else s.threads[k]
  }

  lemma NoneReported(s: State, end: Timespec)
    ensures Reported(s, end, s.q.programs[..0], []) == s.threads
  {}

  lemma ReportedKeys(s: State, end: Timespec, done: seq<Pid>, more: seq<ThreadId>)
    ensures Reported(s, end, done, more).Keys == s.threads.Keys
  {}

  lemma ReportReady(s: State, end: Timespec, i: nat, j: nat)
    requires Structure(s.q) && i < |s.q.programs| && (forall k :: k in s.threads <==> k in s.q.place)
    requires s.q.programs[i] in s.q.prog && j < |s.q.prog[s.q.programs[i]].ready|
    ensures var done, ready := s.q.programs[..i], s.q.prog[s.q.programs[i]].ready;
            && ready[j] in Reported(s, end, done, ready[..j])
            && Reported(s, end, done, ready[..j + 1])
                == Mark(Reported(s, end, done, ready[..j]), ready[j], EndReady, end)
  {
    hide Structure, Stamped;
    var done, pid := s.q.programs[..i], s.q.programs[i];
    var ready := s.q.prog[pid].ready;
    ProgramAt(s.q, i);
    ReadyNoDup(s.q, pid);
    ReadyOf(s.q, pid, j);
    assert ready[..j + 1] == ready[..j] + [ready[j]] && ready[j] !in ready[..j];
  }

  lemma ReportProgram(s: State, end: Timespec, i: nat)
    requires Structure(s.q) && i < |s.q.programs| && (forall k :: k in s.threads <==> k in s.q.place)
    requires s.q.programs[i] in s.q.prog
    ensures var pid := s.q.programs[i];
            var p := s.q.prog[pid];
            var before := Reported(s, end, s.q.programs[..i], p.ready);
            Reported(s, end, s.q.programs[..i + 1], []) ==
            if p.exec.Some? then Mark(before, p.exec.value, EndExec, end) else before
  {
    hide Structure, Stamped;
    var pid := s.q.programs[i];
    ProgramAt(s.q, i);
    ReadyPlaces(s.q, pid);
    if s.q.prog[pid].exec.Some? {
      ExecOf(s.q, pid);
    }
    assert s.q.programs[..i + 1] == s.q.programs[..i] + [pid];
  }

  lemma AllReported(c: Config, s: State)
    requires Structure(s.q) && (forall k :: k in s.threads <==> k in s.q.place)
    ensures s.(threads := Reported(s, c.clock(s.ticks), s.q.programs, []), ticks := s.ticks + 1) == Step(c, s, EMetrics)
  {
    AllListed(s.q);
    hide Structure;
    assert Reported(s, c.clock(s.ticks), s.q.programs, []) == Metrics(c, s).threads;
  }
}

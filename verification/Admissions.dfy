/** Who is admitted from NEW, and when. */
module Admissions {
  import opened Lists
  import opened Model
  import opened Ops
  import opened Invariant
  import opened Timeline
  import opened Runs

  /** The position in NEW that a close admits: the first thread whose program is already
      executing, or else the head. */
  function Admitted(q: Queues): (i: nat)
    requires q.newList != []
    ensures i < |q.newList|
  {
    var i := FirstRunnable(q.newList, q.prog);
    if i < |q.newList| then i else 0
  }

  lemma {:induction false} FirstRunnableSame(l: seq<ThreadId>, a: map<Pid, Program>, b: map<Pid, Program>)
    requires forall k :: k in l ==> k.pid in a && k.pid in b && a[k.pid].executing == b[k.pid].executing
    ensures FirstRunnable(l, a) == FirstRunnable(l, b)
  {
    if l != [] && !(l[0].pid in a && a[l[0].pid].executing) {
      FirstRunnableSame(l[1..], a, b);
    }
  }

  lemma DistributeAdmits(c: Config, s: State)
    requires Structure(s.q)
    ensures var q, r := s.q, Distribute(c, s).q;
            if q.newList == [] then r == q
            else
              && r.newList == RemoveAt(q.newList, Admitted(q))
              && q.newList[Admitted(q)] in r.place && r.place[q.newList[Admitted(q)]] in {Ready, Exec}
  {}

  /** What the steps before the admission leave of NEW and of its threads' programs. */
  lemma BeforeAdmission(c: Config, s: State, e: ThreadId)
    requires QueueInv(c, s.q) && e in s.q.place && s.q.place[e] == Exec
    ensures var q, r := s.q, Reap(Exit(c, s, e), e.pid).q;
            && Core(r) && r.newList == q.newList && Grade(r) == Grade(q) - 1
            && (q.newList != [] ==> Admitted(r) == Admitted(q))
  {
    hide Structure, Ordered, TargetsLive, Dormant, AllAlive;
    var s1 := Exit(c, s, e);
    ExitKeeps(c, s, e);
    ReapKeeps(s1, e.pid);
    var q, r := s.q, Reap(s1, e.pid).q;
    forall k | k in q.newList
      ensures k.pid in q.prog && k.pid in r.prog && q.prog[k.pid].executing == r.prog[k.pid].executing
    {
      var i := IndexOf(q.newList, k);
      NewOf(q, i);
      NewOf(r, i);
    }
    FirstRunnableSame(q.newList, q.prog, r.prog);
  }

  /** Work conservation: a close that ends a thread admits exactly one thread of NEW, if
      there is one; then the grade stays at the limit. With nobody in NEW it drops by one.
      A close that names another thread than the running one admits nobody. */
  lemma CloseAdmitsOne(c: Config, s: State, pid: Pid, tid: int)
    requires QueueInv(c, s.q) && Enabled(s.q, EClose(pid, tid))
    ensures var q, r, ends := s.q, Close(c, s, pid, tid).q, s.q.prog[pid].exec.value.tid == tid;
            && (!ends ==> r == q)
            && (ends && q.newList == [] ==> r.newList == [] && Grade(r) == Grade(q) - 1)
            && (ends && q.newList != [] ==>
                  && r.newList == RemoveAt(q.newList, Admitted(q))
                  && q.newList[Admitted(q)] in r.place && r.place[q.newList[Admitted(q)]] in {Ready, Exec}
                  && Grade(r) == Grade(q) == c.maxMultiprog)
  {
    hide Structure, Ordered, TargetsLive, Dormant, AllAlive, Exit, Reap, Distribute, Grade, Core, SemValues;
    var e := s.q.prog[pid].exec.value;
    if e.tid == tid {
      CoreExec(s.q, pid);
      BeforeAdmission(c, s, e);
      var s2 := Reap(Exit(c, s, e), pid);
      CoreStructure(s2.q);
      DistributeAdmits(c, s2);
      if s.q.newList != [] {
        var k := s.q.newList[Admitted(s.q)];
        NewOf(s2.q, Admitted(s2.q));
        AdmittedGrade(c, s2);
      }
    }
  }

  lemma CoreStructure(q: Queues)
    requires Core(q)
    ensures Structure(q)
  {}

  lemma AdmittedGrade(c: Config, s: State)
    requires Structure(s.q) && s.q.newList != []
    ensures Grade(Distribute(c, s).q) == Grade(s.q) + 1
  {
    hide Structure;
    var i := Admitted(s.q);
    NewOf(s.q, i);
    GradeGrows(s.q.place, s.q.newList[i], Ready);
    GradeGrows(s.q.place, s.q.newList[i], Exec);
  }

  /** A create sends its thread to NEW exactly at the limit; below it the grade grows by one. */
  lemma CreateAdmits(c: Config, s: State, pid: Pid, tid: int)
    requires QueueInv(c, s.q) && Enabled(s.q, ECreate(pid, tid))
    ensures var k, q, r := ThreadId(pid, tid), s.q, Create(c, s, pid, tid).q;
            && k in r.place && (r.place[k] == New <==> Grade(q) == c.maxMultiprog)
            && Grade(r) == (if Grade(q) == c.maxMultiprog then Grade(q) else Grade(q) + 1)
            && (r.place[k] == Exec <==> Grade(q) < c.maxMultiprog && q.prog[pid].exec == None)
  {
    hide Structure, Ordered, TargetsLive, AllAlive;
    var k, q := ThreadId(pid, tid), s.q;
    if Grade(q) >= c.maxMultiprog {
      assert Active(q.place[k := New]) == Active(q.place);
    } else {
      GradeGrows(q.place, k, Ready);
      GradeGrows(q.place, k, Exec);
    }
    if q.prog[pid].exec.Some? {
      CoreExec(q, pid);
      ExecPid(q, q.prog[pid].exec.value);
    }
  }

  /** In every reachable state. */
  lemma CloseAdmitsOneAlways(c: Config, sems: seq<Semaphore>, evs: seq<Event>, pid: Pid, tid: int)
    requires GoodConfig(c) && GoodSems(sems) && Legal(c, Init(sems), evs)
    requires Enabled(Run(c, Init(sems), evs).q, EClose(pid, tid))
    ensures var q := Run(c, Init(sems), evs).q;
            var r, ends := Step(c, Run(c, Init(sems), evs), EClose(pid, tid)).q, q.prog[pid].exec.value.tid == tid;
            && (!ends ==> r == q)
            && (ends && q.newList == [] ==> r.newList == [] && Grade(r) == Grade(q) - 1)
            && (ends && q.newList != [] ==>
                  r.newList == RemoveAt(q.newList, Admitted(q)) && Grade(r) == Grade(q) == c.maxMultiprog)
  {
    hide Run, Legal, Close, Grade, Core, AllAlive, SemValues, TimeInv;
    ReachableSafe(c, sems, evs);
    CloseAdmitsOne(c, Run(c, Init(sems), evs), pid, tid);
  }
}

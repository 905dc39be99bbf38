/** When a client that waits for a second answer gets it. */
module Answering {
  import opened Lists
  import opened Model
  import opened Ops
  import opened Invariant
  import opened Runs
  import opened Partition
  import opened Lockstep
  import opened Admissions

  /** No request of `pid` itself. */
  ghost predicate OthersOnly(evs: seq<Event>, pid: Pid) {
    forall ev :: ev in evs ==> ev.EMetrics? || ev.pid != pid
  }

  lemma OthersNext(evs: seq<Event>, pid: Pid)
    requires OthersOnly(evs, pid) && evs != []
    ensures (evs[0].EMetrics? || evs[0].pid != pid) && OthersOnly(evs[1..], pid)
  {
    assert evs[0] in evs;
  }

  /** The request is a close of the thread that runs. */
  ghost predicate EndsThread(q: Queues, ev: Event) {
    ev.EClose? && ev.pid in q.prog && q.prog[ev.pid].exec.Some? && q.prog[ev.pid].exec.value.tid == ev.tid
  }

  predicate Runnable(k: ThreadId, prog: map<Pid, Program>) {
    k.pid in prog && prog[k.pid].executing
  }

  /** How many threads of the list belong to an executing program, or to one that is not. */
  function CountIn(l: seq<ThreadId>, prog: map<Pid, Program>, runnable: bool): nat {
    if l == [] then 0
    else CountIn(l[..|l| - 1], prog, runnable) + (if Runnable(l[|l| - 1], prog) == runnable then 1 else 0)
  }

  /** Position of the program's first thread, or |l|. */
  function FirstOwn(l: seq<ThreadId>, pid: Pid): (i: nat)
    ensures i <= |l|
    ensures i < |l| ==> l[i].pid == pid
    ensures forall j :: 0 <= j < i ==> l[j].pid != pid
  {
    if l == [] || l[0].pid == pid then 0 else 1 + FirstOwn(l[1..], pid)
  }

  ghost predicate OwnInNew(q: Queues, pid: Pid) {
    FirstOwn(q.newList, pid) < |q.newList|
  }

  /** Threads that stand in NEW before the program's first one, of executing programs or of parked ones. */
  function AheadOf(q: Queues, pid: Pid, runnable: bool): nat {
    CountIn(q.newList[..FirstOwn(q.newList, pid)], q.prog, runnable)
  }

  // ----- Lists

  ghost predicate SameFlags(l: seq<ThreadId>, a: map<Pid, Program>, b: map<Pid, Program>) {
    forall k :: k in l ==> Runnable(k, a) == Runnable(k, b)
  }

  lemma {:induction false} CountSame(l: seq<ThreadId>, a: map<Pid, Program>, b: map<Pid, Program>, runnable: bool)
    requires SameFlags(l, a, b)
    ensures CountIn(l, a, runnable) == CountIn(l, b, runnable)
  {
    if l != [] {
      CountSame(l[..|l| - 1], a, b, runnable);
    }
  }

  lemma {:induction false} CountConcat(l: seq<ThreadId>, m: seq<ThreadId>, prog: map<Pid, Program>, runnable: bool)
    ensures CountIn(l + m, prog, runnable) == CountIn(l, prog, runnable) + CountIn(m, prog, runnable)
  {
    if m == [] {
      assert l + m == l;
    } else {
      assert (l + m)[..|l + m| - 1] == l + m[..|m| - 1];
      CountConcat(l, m[..|m| - 1], prog, runnable);
    }
  }

  lemma {:induction false} CountNone(l: seq<ThreadId>, prog: map<Pid, Program>, runnable: bool)
    requires forall k :: k in l ==> Runnable(k, prog) != runnable
    ensures CountIn(l, prog, runnable) == 0 && CountIn(l, prog, !runnable) == |l|
  {
    if l != [] {
      CountNone(l[..|l| - 1], prog, runnable);
    }
  }

  lemma CountWithout(l: seq<ThreadId>, i: nat, prog: map<Pid, Program>, runnable: bool)
    requires i < |l|
    ensures CountIn(RemoveAt(l, i), prog, runnable)
        == CountIn(l, prog, runnable) - (if Runnable(l[i], prog) == runnable then 1 else 0)
  {
    assert l == l[..i] + ([l[i]] + l[i + 1..]);
    CountConcat(l[..i], [l[i]] + l[i + 1..], prog, runnable);
    CountConcat([l[i]], l[i + 1..], prog, runnable);
    CountConcat(l[..i], l[i + 1..], prog, runnable);
    assert [l[i]][..0] == [];
  }

  lemma OwnIs(l: seq<ThreadId>, pid: Pid, i: nat)
    requires i < |l| && l[i].pid == pid && forall j :: 0 <= j < i ==> l[j].pid != pid
    ensures FirstOwn(l, pid) == i
  {}

  /** A thread before the program's first one leaves the list. */
  lemma OneAheadLeaves(l: seq<ThreadId>, i: nat, pid: Pid, prog: map<Pid, Program>, runnable: bool)
    requires i < FirstOwn(l, pid) < |l|
    ensures var f, r := FirstOwn(l, pid), RemoveAt(l, i);
            && FirstOwn(r, pid) == f - 1 && r[f - 1] == l[f]
            && CountIn(r[..f - 1], prog, runnable)
                == CountIn(l[..f], prog, runnable) - (if Runnable(l[i], prog) == runnable then 1 else 0)
  {
    var f, r := FirstOwn(l, pid), RemoveAt(l, i);
    OwnIs(r, pid, f - 1);
    assert r[..f - 1] == RemoveAt(l[..f], i);
    CountWithout(l[..f], i, prog, runnable);
  }

  /** A thread behind it leaves, or more threads arrive. */
  lemma SameFront(l: seq<ThreadId>, r: seq<ThreadId>, pid: Pid)
    requires FirstOwn(l, pid) < |l| && FirstOwn(l, pid) < |r| && r[..FirstOwn(l, pid) + 1] == l[..FirstOwn(l, pid) + 1]
    ensures FirstOwn(r, pid) == FirstOwn(l, pid) && r[..FirstOwn(r, pid)] == l[..FirstOwn(l, pid)]
    ensures r[FirstOwn(r, pid)] == l[FirstOwn(l, pid)]
  {
    var f := FirstOwn(l, pid);
    assert forall j :: 0 <= j <= f ==> r[j] == r[..f + 1][j] == l[j];
    OwnIs(r, pid, f);
    assert r[..f] == r[..f + 1][..f] == l[..f];
  }

  // ----- One request of another program

  /** Whatever is not a thread-ending close leaves NEW as it is but for what it adds at the
      tail, and sends nothing to `pid`. */
  ghost predicate Quiet(s: State, r: State, pid: Pid) {
    && s.q.newList <= r.q.newList && (forall k :: k in r.q.newList[|s.q.newList|..] ==> k.pid != pid)
    && SameFlags(s.q.newList, s.q.prog, r.q.prog)
    && SameStatus(s.q, r.q, pid)
    && (r.sent == s.sent || exists d: Response :: r.sent == s.sent + [d] && d.fd != pid)
  }

  ghost predicate NewGrows(q: Queues, r: Queues, pid: Pid) {
    && q.newList <= r.newList && (forall k :: k in r.newList[|q.newList|..] ==> k.pid != pid)
    && SameFlags(q.newList, q.prog, r.prog)
  }

  lemma QuietNew(c: Config, s: State, ev: Event, pid: Pid)
    requires QueueInv(c, s.q) && Enabled(s.q, ev) && !EndsThread(s.q, ev) && (ev.EMetrics? || ev.pid != pid)
    ensures NewGrows(s.q, Step(c, s, ev).q, pid)
  {
    hide NewGrows, QueueInv, Create, Schedule, Close, Join, Wait, Signal, Connect, Metrics;
    match ev
    case ECreate(p, tid) =>
      AtTheLimit(c, s.q);
      CreateNew(c, s, p, tid, pid);
    case ESchedule(p) => ScheduleNew(c, s, p, pid);
    case EConnect(p) => ConnectNew(c, s, p, pid);
    case _ => OtherNew(c, s, ev, pid);
  }

  lemma CreateNew(c: Config, s: State, p: Pid, tid: int, pid: Pid)
    requires p in s.q.prog && p != pid && (s.q.newList != [] ==> Grade(s.q) == c.maxMultiprog)
    ensures NewGrows(s.q, Create(c, s, p, tid).q, pid)
  {
    hide Grade, WithReady, WithExec;
    assert s.q.newList <= s.q.newList;
  }

  lemma ScheduleNew(c: Config, s: State, p: Pid, pid: Pid)
    ensures NewGrows(s.q, Schedule(c, s, p).q, pid)
  {
    hide Mark, Reestimated, Choose, WithReady, WithoutExec;
    MovesFlags();
    assert s.q.newList <= s.q.newList;
  }

  lemma ConnectNew(c: Config, s: State, p: Pid, pid: Pid)
    requires QueueInv(c, s.q) && p !in s.q.prog
    ensures NewGrows(s.q, Connect(s, p).q, pid)
  {
    hide Ordered, TargetsLive, Dormant, AllAlive, AskingIdle, ProgramsHold, SemsHold;
  }

  lemma OtherNew(c: Config, s: State, ev: Event, pid: Pid)
    requires Enabled(s.q, ev) && !EndsThread(s.q, ev) && (ev.EMetrics? || ev.pid != pid)
    requires !ev.ECreate? && !ev.ESchedule? && !ev.EConnect?
    ensures NewGrows(s.q, Step(c, s, ev).q, pid)
  {
    hide Mark, FindSem, Waiting, WithReady, WithoutExec;
    MovesFlags();
    assert s.q.newList <= s.q.newList;
  }

  lemma AtTheLimit(c: Config, q: Queues)
    requires QueueInv(c, q)
    ensures q.newList != [] ==> Grade(q) == c.maxMultiprog
  {}

  lemma OtherStatus(c: Config, s: State, ev: Event, pid: Pid)
    requires QueueInv(c, s.q) && Enabled(s.q, ev) && !EndsThread(s.q, ev) && (ev.EMetrics? || ev.pid != pid)
    ensures SameStatus(s.q, Step(c, s, ev).q, pid)
  {
    hide Step, Enabled, QueueInv;
    ThreadsConserved(c, s, ev);
    hide FindSem;
    QuietFlags(c, s, ev, pid);
    var q, r := s.q, Step(c, s, ev).q;
    assert forall k: ThreadId :: k.pid == pid ==> (k in r.place <==> k in q.place);
  }

  ghost predicate FlagsKept(q: Queues, r: Queues, pid: Pid) {
    && (pid in r.asking <==> pid in q.asking) && (pid in r.prog <==> pid in q.prog)
    && (pid in q.prog ==> r.prog[pid].executing == q.prog[pid].executing)
  }

  lemma QuietFlags(c: Config, s: State, ev: Event, pid: Pid)
    requires Enabled(s.q, ev) && !EndsThread(s.q, ev) && (ev.EMetrics? || ev.pid != pid)
    ensures FlagsKept(s.q, Step(c, s, ev).q, pid) && (ev.EClose? ==> Step(c, s, ev).q == s.q)
  {
    hide FlagsKept, Create, Schedule, Close, Join, Wait, Signal;
    match ev
    case ECreate(p, tid) => CreateFlags(c, s, p, tid, pid);
    case ESchedule(p) => ScheduleFlags(c, s, p, pid);
    case EClose(p, tid) => OtherFlags(c, s, ev, pid);
    case EJoin(p, tid) => OtherFlags(c, s, ev, pid);
    case EWait(p, tid, id) => OtherFlags(c, s, ev, pid);
    case ESignal(p, tid, id) => OtherFlags(c, s, ev, pid);
    case _ => OtherFlags(c, s, ev, pid);
  }

  lemma CreateFlags(c: Config, s: State, p: Pid, tid: int, pid: Pid)
    requires p in s.q.prog && p != pid
    ensures FlagsKept(s.q, Create(c, s, p, tid).q, pid)
  {
    hide Grade, WithReady, WithExec;
    MovesFlags();
  }

  lemma ScheduleFlags(c: Config, s: State, p: Pid, pid: Pid)
    requires p != pid
    ensures FlagsKept(s.q, Schedule(c, s, p).q, pid)
  {
    hide Mark, Reestimated, Choose, WithReady, WithoutExec;
    MovesFlags();
  }

  lemma OtherFlags(c: Config, s: State, ev: Event, pid: Pid)
    requires Enabled(s.q, ev) && !EndsThread(s.q, ev) && (ev.EMetrics? || ev.pid != pid)
    requires !ev.ECreate? && !ev.ESchedule?
    ensures FlagsKept(s.q, Step(c, s, ev).q, pid) && (ev.EClose? ==> Step(c, s, ev).q == s.q)
  {
    hide Mark, FindSem, Waiting, WithReady, WithoutExec, Create, Schedule;
    MovesFlags();
  }

  /** No move of a thread touches another program's executing flag, and only the exec slot sets it. */
  lemma MovesFlags()
    ensures forall prog: map<Pid, Program>, k: ThreadId, p: Pid ::
              && (p in WithReady(prog, k) <==> p in prog)
              && (p in prog ==> WithReady(prog, k)[p].executing == prog[p].executing)
    ensures forall prog: map<Pid, Program>, k: ThreadId, p: Pid ::
              && (p in WithExec(prog, k) <==> p in prog)
              && (p in prog && p != k.pid ==> WithExec(prog, k)[p].executing == prog[p].executing)
    ensures forall prog: map<Pid, Program>, q: Pid, p: Pid ::
              && (p in WithoutExec(prog, q) <==> p in prog)
              && (p in prog ==> WithoutExec(prog, q)[p].executing == prog[p].executing)
  {}

  lemma QuietSent(c: Config, s: State, ev: Event, pid: Pid)
    requires Enabled(s.q, ev) && !EndsThread(s.q, ev) && (ev.EMetrics? || ev.pid != pid)
    ensures var r := Step(c, s, ev);
            r.sent == s.sent || exists d: Response :: r.sent == s.sent + [d] && d.fd != pid
  {
    hide Mark, Choose, Reestimated, FindSem, Waiting, Grade, WithReady, WithExec, WithoutExec;
    var r := Step(c, s, ev);
    if r.sent != s.sent {
      assert r.sent == s.sent + [r.sent[|s.sent|]];
    }
  }

  lemma QuietStep(c: Config, s: State, ev: Event, pid: Pid)
    requires QueueInv(c, s.q) && Enabled(s.q, ev) && !EndsThread(s.q, ev) && (ev.EMetrics? || ev.pid != pid)
    ensures Quiet(s, Step(c, s, ev), pid)
  {
    hide Step, Enabled, QueueInv, SameStatus, SameFlags, EndsThread;
    QuietNew(c, s, ev, pid);
    OtherStatus(c, s, ev, pid);
    QuietSent(c, s, ev, pid);
  }

  // ----- A close of another program's running thread

  /** The answer that the admitted thread's program gets if it waits. */
  function Owed(q: Queues, k: ThreadId): Response {
    if k.pid in q.asking then Response(k.pid, k.tid, SCHEDULE_NEXT) else Response(k.pid, 1, CREATE)
  }

  /** What a thread-ending close of another program means to `pid`: it is answered exactly
      when it waits and the admitted thread is its own. */
  ghost predicate Admits(s: State, r: State, pid: Pid, added: seq<Response>) {
    var l := s.q.newList;
    && r.sent == s.sent + added
    && if l == [] then
         r.q.newList == [] && SameStatus(s.q, r.q, pid) && For(pid, added) == []
       else
         var k := l[Admitted(s.q)];
         && r.q.newList == RemoveAt(l, Admitted(s.q))
         && k in r.q.place && r.q.place[k] in {Ready, Exec} && k.pid !in r.q.asking
         && SameFlags(r.q.newList, s.q.prog, r.q.prog)
         && if k.pid == pid && Waiting(s.q, pid) then
              For(pid, added) == [Owed(s.q, k)] && !Waiting(r.q, pid)
            else
              For(pid, added) == [] && SameStatus(s.q, r.q, pid)
  }

  lemma ForOne(pid: Pid, d: Response)
    ensures For(pid, [d]) == if d.fd == pid then [d] else []
  {
    assert [d][1..] == [];
  }

  lemma DistributeAdmitsFor(c: Config, s: State, pid: Pid) returns (added: seq<Response>)
    requires Core(s.q)
    ensures Admits(s, Distribute(c, s), pid, added)
  {
    hide Structure, Ordered, TargetsLive, Distribute, Dormant;
    var q := s.q;
    if q.newList == [] {
      added := [];
      DistributeNobody(c, s, pid);
    } else {
      var k := q.newList[Admitted(q)];
      added := if Runnable(k, q.prog) && k.pid !in q.asking then [] else [Owed(q, k)];
      ForOne(pid, Owed(q, k));
      ForNone(pid);
      AdmitsLists(c, s);
      AdmitsStatus(c, s, pid);
    }
  }

  lemma DistributeNobody(c: Config, s: State, pid: Pid)
    requires s.q.newList == []
    ensures Admits(s, Distribute(c, s), pid, [])
  {
    assert s.sent + [] == s.sent;
  }

  /** The lists, and the answer, if any. */
  lemma AdmitsLists(c: Config, s: State)
    requires Core(s.q) && s.q.newList != []
    ensures var q, r, k := s.q, Distribute(c, s), s.q.newList[Admitted(s.q)];
            && r.q.newList == RemoveAt(q.newList, Admitted(q))
            && k in r.q.place && r.q.place[k] in {Ready, Exec} && k.pid !in r.q.asking
            && SameFlags(r.q.newList, q.prog, r.q.prog)
            && r.sent == s.sent + (if Runnable(k, q.prog) && k.pid !in q.asking then [] else [Owed(q, k)])
  {
    hide Structure, Ordered, TargetsLive;
    var q, k := s.q, s.q.newList[Admitted(s.q)];
    NewOf(q, Admitted(q));
    RemovedOthers(q, Admitted(q));
    if k.pid in q.asking {
      RemoveAtKeeps(q.asking, IndexOf(q.asking, k.pid));
    } else if Runnable(k, q.prog) {
      assert s.sent + [] == s.sent;
    }
  }

  /** Who waits afterwards. */
  lemma AdmitsStatus(c: Config, s: State, pid: Pid)
    requires Core(s.q) && s.q.newList != []
    ensures var q, r, k := s.q, Distribute(c, s).q, s.q.newList[Admitted(s.q)];
            && (k.pid == pid && Waiting(q, pid) ==> !Waiting(r, pid))
            && (k.pid == pid && Runnable(k, q.prog) ==> (Waiting(q, pid) <==> pid in q.asking))
            && (k.pid == pid && !Runnable(k, q.prog) ==> Waiting(q, pid))
            && (k.pid != pid || !Waiting(q, pid) ==> SameStatus(q, r, pid))
  {
    hide Structure, Ordered, TargetsLive, Dormant;
    var q, k := s.q, s.q.newList[Admitted(s.q)];
    NewOf(q, Admitted(q));
    if k.pid in q.asking {
      RemoveAtKeeps(q.asking, IndexOf(q.asking, k.pid));
    }
  }

  lemma RemovedOthers(q: Queues, i: nat)
    requires Core(q) && i < |q.newList|
    ensures forall j :: j in RemoveAt(q.newList, i) ==> j in q.newList && j != q.newList[i]
    ensures forall j :: j in q.newList ==> j in q.place
  {
    RemoveAtKeeps(q.newList, i);
  }

  /** The steps before the admission change nothing that it looks at. */
  lemma BeforeAdmits(c: Config, s: State, e: ThreadId, pid: Pid)
    requires QueueInv(c, s.q) && e in s.q.place && s.q.place[e] == Exec
    ensures var r := Reap(Exit(c, s, e), e.pid);
            && Core(r.q) && r.sent == s.sent && r.q.newList == s.q.newList && r.q.asking == s.q.asking
            && (s.q.newList != [] ==> Admitted(r.q) == Admitted(s.q))
            && SameFlags(s.q.newList, s.q.prog, r.q.prog) && SameStatus(s.q, r.q, pid)
  {
    hide Structure, Ordered, TargetsLive, Dormant, AllAlive, SemValues;
    BeforeAdmission(c, s, e);
    ExecPid(s.q, e);
    ExitStatus(c, s, e);
    ExitKeeps(c, s, e);
    ReapStatus(Exit(c, s, e), e.pid);
    var r := Reap(Exit(c, s, e), e.pid);
    CoreNewLive(s.q);
    CoreNewLive(r.q);
  }

  lemma CoreNewLive(q: Queues)
    requires Core(q)
    ensures forall k :: k in q.newList ==> k in q.place && k.pid in q.prog
  {}

  lemma CloseAdmitsFor(c: Config, s: State, ev: Event, pid: Pid) returns (added: seq<Response>)
    requires QueueInv(c, s.q) && Enabled(s.q, ev) && EndsThread(s.q, ev) && ev.pid != pid
    ensures Admits(s, Step(c, s, ev), pid, added)
  {
    hide QueueInv, Exit, Reap, Distribute, Admits, SameStatus, SameFlags, Core;
    var e := s.q.prog[ev.pid].exec.value;
    QueueExec(c, s.q, ev.pid);
    BeforeAdmits(c, s, e, pid);
    var s2 := Reap(Exit(c, s, e), ev.pid);
    var mid := DistributeAdmitsFor(c, s2, pid);
    var own := Response(ev.pid, 1, CLOSE);
    added := mid + [own];
    ForOwn(pid, mid, own);
    AdmitsAround(s, s2, Distribute(c, s2), pid, mid, own);
  }

  lemma QueueExec(c: Config, q: Queues, pid: Pid)
    requires QueueInv(c, q) && pid in q.prog && q.prog[pid].exec.Some?
    ensures var e := q.prog[pid].exec.value; e in q.place && q.place[e] == Exec && e.pid == pid
  {
    ExecOf(q, pid);
  }

  lemma {:induction false} ForConcat(pid: Pid, a: seq<Response>, b: seq<Response>)
    ensures For(pid, a + b) == For(pid, a) + For(pid, b)
  {
    hide For;
    if a == [] {
      assert a + b == b;
      ForNone(pid);
    } else {
      var d, tail := a[0], a[1..];
      ForConcat(pid, tail, b);
      ForStep(pid, d, tail);
      ForStep(pid, d, tail + b);
      assert a == [d] + tail && a + b == [d] + (tail + b);
    }
  }

  lemma ForNone(pid: Pid)
    ensures For(pid, []) == []
  {}

  lemma ForStep(pid: Pid, d: Response, rest: seq<Response>)
    ensures For(pid, [d] + rest) == (if d.fd == pid then [d] else []) + For(pid, rest)
  {
    assert ([d] + rest)[1..] == rest;
  }

  lemma ForOwn(pid: Pid, mid: seq<Response>, own: Response)
    requires own.fd != pid
    ensures For(pid, mid + [own]) == For(pid, mid)
  {
    ForConcat(pid, mid, [own]);
    ForOne(pid, own);
  }

  lemma AdmitsAround(s: State, s2: State, r: State, pid: Pid, mid: seq<Response>, own: Response)
    requires Admits(s2, r, pid, mid) && For(pid, mid + [own]) == For(pid, mid)
    requires s2.sent == s.sent && s2.q.newList == s.q.newList && s2.q.asking == s.q.asking
    requires s.q.newList != [] ==> Admitted(s2.q) == Admitted(s.q)
    requires SameFlags(s.q.newList, s.q.prog, s2.q.prog) && SameStatus(s.q, s2.q, pid)
    ensures Admits(s, r.(sent := r.sent + [own]), pid, mid + [own])
  {
    hide For;
    if s.q.newList != [] {
      var l, i := s.q.newList, Admitted(s.q);
      forall k | k in RemoveAt(l, i) ensures k in l {}
    }
  }

  // ----- Runs

  ghost function EndingCloses(c: Config, s: State, evs: seq<Event>): nat
    requires Legal(c, s, evs)
    decreases |evs|
  {
    if evs == [] then 0
    else (if EndsThread(s.q, evs[0]) then 1 else 0) + EndingCloses(c, Step(c, s, evs[0]), evs[1..])
  }

  /** The close finds no thread of an executing program in NEW. */
  ghost predicate IdleClose(q: Queues, ev: Event) {
    EndsThread(q, ev) && FirstRunnable(q.newList, q.prog) == |q.newList|
  }

  ghost function IdleCloses(c: Config, s: State, evs: seq<Event>): nat
    requires Legal(c, s, evs)
    decreases |evs|
  {
    if evs == [] then 0
    else (if IdleClose(s.q, evs[0]) then 1 else 0) + IdleCloses(c, Step(c, s, evs[0]), evs[1..])
  }

  /** The answers that a run adds for one client. */
  ghost function AnswersTo(c: Config, s: State, evs: seq<Event>, pid: Pid): seq<Response>
    requires Legal(c, s, evs)
  {
    var r := Run(c, s, evs);
    if |s.sent| <= |r.sent| then For(pid, r.sent[|s.sent|..]) else []
  }

  lemma {:induction false} RunGrows(c: Config, s: State, evs: seq<Event>)
    requires Legal(c, s, evs)
    ensures s.sent <= Run(c, s, evs).sent
    decreases |evs|
  {
    hide Step, Enabled;
    if evs != [] {
      StepGrows(c, s, evs[0]);
      RunGrows(c, Step(c, s, evs[0]), evs[1..]);
    }
  }

  lemma StepGrows(c: Config, s: State, ev: Event)
    requires Enabled(s.q, ev)
    ensures s.sent <= Step(c, s, ev).sent
  {
    hide Mark, Choose, Reestimated, FindSem, Waiting, Grade, WithReady, WithExec, WithoutExec, FirstRunnable;
  }

  lemma NoAnswers(c: Config, s: State, pid: Pid)
    ensures AnswersTo(c, s, [], pid) == []
  {}

  lemma {:induction false} EndingSplit(c: Config, s: State, a: seq<Event>, b: seq<Event>)
    requires Legal(c, s, a) && Legal(c, Run(c, s, a), b)
    ensures Legal(c, s, a + b) && EndingCloses(c, s, a + b) == EndingCloses(c, s, a) + EndingCloses(c, Run(c, s, a), b)
    decreases |a|
  {
    hide Step, Enabled, EndsThread;
    RunSplit(c, s, a, b);
    if a == [] {
      assert a + b == b;
    } else {
      assert (a + b)[1..] == a[1..] + b;
      EndingSplit(c, Step(c, s, a[0]), a[1..], b);
    }
  }

  /** The first request's answers, then the rest of the run's. */
  lemma AnswersNext(c: Config, s: State, evs: seq<Event>, pid: Pid, added: seq<Response>)
    requires Legal(c, s, evs) && evs != [] && Step(c, s, evs[0]).sent == s.sent + added
    ensures AnswersTo(c, s, evs, pid) == For(pid, added) + AnswersTo(c, Step(c, s, evs[0]), evs[1..], pid)
  {
    hide Step, Enabled, For;
    var r := Step(c, s, evs[0]);
    RunGrows(c, r, evs[1..]);
    var end := Run(c, s, evs).sent;
    assert end[|s.sent|..] == added + end[|r.sent|..];
    ForConcat(pid, added, end[|r.sent|..]);
  }

  // ----- A program that asks, and one that is parked

  /** `k` is the first thread of `pid` in NEW; `a` threads of executing programs stand before it. */
  ghost predicate AskingWith(q: Queues, pid: Pid, a: nat, k: ThreadId) {
    pid in q.asking && OwnInNew(q, pid) && q.newList[FirstOwn(q.newList, pid)] == k && Runnable(k, q.prog)
        && AheadOf(q, pid, true) == a
  }

  /** The program's only thread is in NEW; `a` threads of other parked programs stand before it. */
  ghost predicate ParkedWith(q: Queues, pid: Pid, a: nat) {
    && Parked(q, pid) && pid !in q.asking && OwnInNew(q, pid) && AheadOf(q, pid, false) == a
    && forall k :: k in q.newList && k.pid == pid ==> !Runnable(k, q.prog)
  }

  lemma AskingStarts(q: Queues, pid: Pid)
    requires Core(q) && pid in q.asking && OwnInNew(q, pid)
    ensures AskingWith(q, pid, AheadOf(q, pid, true), q.newList[FirstOwn(q.newList, pid)])
  {
    hide Structure, Ordered, TargetsLive, Dormant;
    CoreNewLive(q);
  }

  lemma ParkedStarts(q: Queues, pid: Pid)
    requires Core(q) && Parked(q, pid)
    ensures ParkedWith(q, pid, AheadOf(q, pid, false))
  {
    hide Ordered, TargetsLive, CountIn;
    var k :| k in q.place && k.pid == pid;
    assert k in q.newList;
  }

  lemma FlagsInPart(l: seq<ThreadId>, m: seq<ThreadId>, a: map<Pid, Program>, b: map<Pid, Program>)
    requires SameFlags(l, a, b) && forall k :: k in m ==> k in l
    ensures SameFlags(m, a, b)
  {}

  /** NEW only grew at the tail. */
  lemma FrontKept(s: State, r: State, pid: Pid, runnable: bool)
    requires Quiet(s, r, pid) && OwnInNew(s.q, pid)
    ensures OwnInNew(r.q, pid) && AheadOf(r.q, pid, runnable) == AheadOf(s.q, pid, runnable)
    ensures r.q.newList[FirstOwn(r.q.newList, pid)] == s.q.newList[FirstOwn(s.q.newList, pid)]
  {
    var l, m, f := s.q.newList, r.q.newList, FirstOwn(s.q.newList, pid);
    assert m == l + m[|l|..];
    assert m[..f + 1] == l[..f + 1];
    SameFront(l, m, pid);
    FlagsInPart(l, l[..f], s.q.prog, r.q.prog);
    CountSame(l[..f], s.q.prog, r.q.prog, runnable);
  }

  lemma AskingQuiet(s: State, r: State, pid: Pid, a: nat, k: ThreadId)
    requires Quiet(s, r, pid) && AskingWith(s.q, pid, a, k)
    ensures AskingWith(r.q, pid, a, k)
  {
    hide AheadOf, FirstOwn;
    FrontKept(s, r, pid, true);
  }

  lemma ParkedQuiet(s: State, r: State, pid: Pid, a: nat)
    requires Quiet(s, r, pid) && ParkedWith(s.q, pid, a)
    ensures ParkedWith(r.q, pid, a)
  {
    hide AheadOf, FirstOwn, Parked;
    FrontKept(s, r, pid, false);
    var l, m := s.q.newList, r.q.newList;
    assert m == l + m[|l|..];
  }

  /** The first thread of an executing program is the program's own exactly when none stands before it. */
  lemma FirstRunnableOwn(l: seq<ThreadId>, prog: map<Pid, Program>, pid: Pid)
    requires var f := FirstOwn(l, pid); f < |l| && Runnable(l[f], prog)
    ensures var i, f := FirstRunnable(l, prog), FirstOwn(l, pid);
            i <= f && (i == f <==> CountIn(l[..f], prog, true) == 0) && (i < f ==> l[i].pid != pid)
  {
    var i, f := FirstRunnable(l, prog), FirstOwn(l, pid);
    if i < f {
      CountWithout(l[..f], i, prog, true);
    } else {
      CountNone(l[..f], prog, true);
    }
  }

  /** Another program's thread is admitted. */
  lemma FrontMoves(s: State, r: State, pid: Pid, runnable: bool)
    requires OwnInNew(s.q, pid) && Admitted(s.q) != FirstOwn(s.q.newList, pid)
    requires r.q.newList == RemoveAt(s.q.newList, Admitted(s.q)) && SameFlags(r.q.newList, s.q.prog, r.q.prog)
    ensures var l, i, f := s.q.newList, Admitted(s.q), FirstOwn(s.q.newList, pid);
            && OwnInNew(r.q, pid) && r.q.newList[FirstOwn(r.q.newList, pid)] == l[f]
            && AheadOf(r.q, pid, runnable)
                == AheadOf(s.q, pid, runnable) - (if i < f && Runnable(l[i], s.q.prog) == runnable then 1 else 0)
  {
    hide FirstRunnable, CountIn;
    var l, i, f := s.q.newList, Admitted(s.q), FirstOwn(s.q.newList, pid);
    var m := RemoveAt(l, i);
    if i < f {
      OneAheadLeaves(l, i, pid, s.q.prog, runnable);
    } else {
      assert m[..f + 1] == l[..f + 1];
      SameFront(l, m, pid);
    }
    FlagsInPart(m, m[..FirstOwn(m, pid)], s.q.prog, r.q.prog);
    CountSame(m[..FirstOwn(m, pid)], s.q.prog, r.q.prog, runnable);
  }

  lemma AskingAdmits(s: State, r: State, pid: Pid, added: seq<Response>, a: nat, k: ThreadId)
    requires Admits(s, r, pid, added) && AskingWith(s.q, pid, a, k)
    ensures if a == 0 then For(pid, added) == [Response(pid, k.tid, SCHEDULE_NEXT)] && !Waiting(r.q, pid)
            else For(pid, added) == [] && AskingWith(r.q, pid, a - 1, k)
  {
    hide For, CountIn, FirstRunnable, FirstOwn, RemoveAt;
    FirstRunnableOwn(s.q.newList, s.q.prog, pid);
    if a > 0 {
      FrontMoves(s, r, pid, true);
    }
  }

  lemma ParkedAdmits(s: State, r: State, pid: Pid, added: seq<Response>, a: nat)
    requires Admits(s, r, pid, added) && ParkedWith(s.q, pid, a)
    ensures var idle := FirstRunnable(s.q.newList, s.q.prog) == |s.q.newList|;
            if idle && a == 0 then For(pid, added) == [Response(pid, 1, CREATE)] && !Waiting(r.q, pid)
            else For(pid, added) == [] && ParkedWith(r.q, pid, if idle then a - 1 else a)
  {
    hide For, CountIn, FirstOwn, RemoveAt, Parked;
    var l, i, f := s.q.newList, Admitted(s.q), FirstOwn(s.q.newList, pid);
    ParkedWaits(s.q, pid);
    if FirstRunnable(l, s.q.prog) == |l| {
      CountNone(l[..f], s.q.prog, true);
    }
    if i != f {
      FrontMoves(s, r, pid, false);
      RemovedIn(l, i);
    }
  }

  lemma ParkedWaits(q: Queues, pid: Pid)
    ensures Waiting(q, pid) <==> pid in q.asking || Parked(q, pid)
  {}

  lemma RemovedIn(l: seq<ThreadId>, i: nat)
    requires i < |l|
    ensures forall k :: k in RemoveAt(l, i) ==> k in l
  {}

  // ----- Whole runs of the other programs

  /** One request, seen from a program that did not make it. */
  lemma OtherStep(c: Config, s: State, ev: Event, pid: Pid) returns (added: seq<Response>)
    requires QueueInv(c, s.q) && Enabled(s.q, ev) && (ev.EMetrics? || ev.pid != pid)
    ensures var r := Step(c, s, ev);
            && r.sent == s.sent + added
            && if EndsThread(s.q, ev) then Admits(s, r, pid, added) else Quiet(s, r, pid) && For(pid, added) == []
  {
    hide QueueInv, Step, Enabled, EndsThread;
    if EndsThread(s.q, ev) {
      EndsIsClose(s.q, ev);
      added := CloseAdmitsFor(c, s, ev, pid);
    } else {
      QuietStep(c, s, ev, pid);
      added := Step(c, s, ev).sent[|s.sent|..];
      if added != [] {
        ForOne(pid, added[0]);
        assert added == [added[0]];
      }
    }
  }

  lemma EndsIsClose(q: Queues, ev: Event)
    requires EndsThread(q, ev)
    ensures ev.EClose?
  {}

  lemma {:induction false} FreeRun(c: Config, s: State, pid: Pid, evs: seq<Event>)
    requires GoodConfig(c) && Safe(c, s) && Legal(c, s, evs) && OthersOnly(evs, pid) && !Waiting(s.q, pid)
    ensures AnswersTo(c, s, evs, pid) == [] && !Waiting(Run(c, s, evs).q, pid)
    decreases |evs|
  {
    hide Safe, OthersOnly, Step, Enabled, Waiting, Admits, Quiet, EndsThread, SameStatus, For, AnswersTo;
    if evs != [] {
      OthersNext(evs, pid);
      SafeQueues(c, s);
      StepSafe(c, s, evs[0]);
      var added := OtherStep(c, s, evs[0], pid);
      FreeStays(s, Step(c, s, evs[0]), pid, added);
      FreeRun(c, Step(c, s, evs[0]), pid, evs[1..]);
      AnswersNext(c, s, evs, pid, added);
    } else {
      NoAnswers(c, s, pid);
    }
  }

  lemma FreeStays(s: State, r: State, pid: Pid, added: seq<Response>)
    requires !Waiting(s.q, pid) && (Admits(s, r, pid, added) || (Quiet(s, r, pid) && For(pid, added) == []))
    ensures !Waiting(r.q, pid) && For(pid, added) == []
  {
    hide For, Parked;
    ParkedWaits(s.q, pid);
    ParkedWaits(r.q, pid);
  }

  lemma AskingStep(c: Config, s: State, ev: Event, pid: Pid, a: nat, k: ThreadId) returns (added: seq<Response>)
    requires QueueInv(c, s.q) && Enabled(s.q, ev) && (ev.EMetrics? || ev.pid != pid) && AskingWith(s.q, pid, a, k)
    ensures var r, n := Step(c, s, ev), if EndsThread(s.q, ev) then 1 else 0;
            && r.sent == s.sent + added
            && if n <= a then For(pid, added) == [] && AskingWith(r.q, pid, a - n, k)
               else For(pid, added) == [Response(pid, k.tid, SCHEDULE_NEXT)] && !Waiting(r.q, pid)
  {
    hide QueueInv, Step, Enabled, EndsThread, AskingWith, Waiting, Admits, Quiet, For;
    added := OtherStep(c, s, ev, pid);
    if EndsThread(s.q, ev) {
      AskingAdmits(s, Step(c, s, ev), pid, added, a, k);
    } else {
      AskingQuiet(s, Step(c, s, ev), pid, a, k);
    }
  }

  lemma {:induction false} AskingRun(c: Config, s: State, pid: Pid, evs: seq<Event>, a: nat, k: ThreadId)
    requires GoodConfig(c) && Safe(c, s) && Legal(c, s, evs) && OthersOnly(evs, pid) && AskingWith(s.q, pid, a, k)
    ensures var r, n := Run(c, s, evs), EndingCloses(c, s, evs);
            if n <= a then AnswersTo(c, s, evs, pid) == [] && AskingWith(r.q, pid, a - n, k)
            else AnswersTo(c, s, evs, pid) == [Response(pid, k.tid, SCHEDULE_NEXT)] && !Waiting(r.q, pid)
    decreases |evs|
  {
    hide Safe, OthersOnly, Step, Enabled, Waiting, EndsThread, AskingWith, For, AnswersTo;
    if evs == [] {
      NoAnswers(c, s, pid);
    } else {
      OthersNext(evs, pid);
      SafeQueues(c, s);
      StepSafe(c, s, evs[0]);
      var added := AskingStep(c, s, evs[0], pid, a, k);
      AnswersNext(c, s, evs, pid, added);
      var n := if EndsThread(s.q, evs[0]) then 1 else 0;
      if n <= a {
        AskingRun(c, Step(c, s, evs[0]), pid, evs[1..], a - n, k);
      } else {
        FreeRun(c, Step(c, s, evs[0]), pid, evs[1..]);
      }
    }
  }

  lemma ParkedStep(c: Config, s: State, ev: Event, pid: Pid, a: nat) returns (added: seq<Response>)
    requires QueueInv(c, s.q) && Enabled(s.q, ev) && (ev.EMetrics? || ev.pid != pid) && ParkedWith(s.q, pid, a)
    ensures var r, n := Step(c, s, ev), if IdleClose(s.q, ev) then 1 else 0;
            && r.sent == s.sent + added
            && if n <= a then For(pid, added) == [] && ParkedWith(r.q, pid, a - n)
               else For(pid, added) == [Response(pid, 1, CREATE)] && !Waiting(r.q, pid)
  {
    hide QueueInv, Step, Enabled, EndsThread, ParkedWith, Waiting, Admits, Quiet, For, FirstRunnable;
    added := OtherStep(c, s, ev, pid);
    if EndsThread(s.q, ev) {
      ParkedAdmits(s, Step(c, s, ev), pid, added, a);
    } else {
      ParkedQuiet(s, Step(c, s, ev), pid, a);
    }
  }

  lemma {:induction false} ParkedRun(c: Config, s: State, pid: Pid, evs: seq<Event>, a: nat)
    requires GoodConfig(c) && Safe(c, s) && Legal(c, s, evs) && OthersOnly(evs, pid) && ParkedWith(s.q, pid, a)
    ensures var r, n := Run(c, s, evs), IdleCloses(c, s, evs);
            if n <= a then AnswersTo(c, s, evs, pid) == [] && ParkedWith(r.q, pid, a - n)
            else AnswersTo(c, s, evs, pid) == [Response(pid, 1, CREATE)] && !Waiting(r.q, pid)
    decreases |evs|
  {
    hide Safe, OthersOnly, Step, Enabled, Waiting, IdleClose, ParkedWith, For, AnswersTo;
    if evs == [] {
      NoAnswers(c, s, pid);
    } else {
      OthersNext(evs, pid);
      SafeQueues(c, s);
      StepSafe(c, s, evs[0]);
      var added := ParkedStep(c, s, evs[0], pid, a);
      AnswersNext(c, s, evs, pid, added);
      var n := if IdleClose(s.q, evs[0]) then 1 else 0;
      if n <= a {
        ParkedRun(c, Step(c, s, evs[0]), pid, evs[1..], a - n);
      } else {
        FreeRun(c, Step(c, s, evs[0]), pid, evs[1..]);
      }
    }
  }

  /** A program that asks and has nothing in NEW. */
  ghost predicate AskingBare(q: Queues, pid: Pid) {
    pid in q.asking && !OwnInNew(q, pid)
  }

  lemma NotOwn(l: seq<ThreadId>, pid: Pid)
    ensures FirstOwn(l, pid) == |l| <==> forall k :: k in l ==> k.pid != pid
  {
    if FirstOwn(l, pid) < |l| {
      assert l[FirstOwn(l, pid)] in l;
    }
  }

  lemma BareStays(s: State, r: State, pid: Pid, added: seq<Response>)
    requires AskingBare(s.q, pid) && (Admits(s, r, pid, added) || (Quiet(s, r, pid) && For(pid, added) == []))
    ensures AskingBare(r.q, pid) && For(pid, added) == []
  {
    hide For, FirstOwn, FirstRunnable, RemoveAt, Parked;
    var l, m := s.q.newList, r.q.newList;
    NotOwn(l, pid);
    NotOwn(m, pid);
    if l != [] {
      RemovedIn(l, Admitted(s.q));
    }
    if Quiet(s, r, pid) {
      assert m == l + m[|l|..];
    }
  }

  lemma {:induction false} BareRun(c: Config, s: State, pid: Pid, evs: seq<Event>)
    requires GoodConfig(c) && Safe(c, s) && Legal(c, s, evs) && OthersOnly(evs, pid) && AskingBare(s.q, pid)
    ensures AnswersTo(c, s, evs, pid) == [] && AskingBare(Run(c, s, evs).q, pid)
    decreases |evs|
  {
    hide Safe, OthersOnly, Step, Enabled, Admits, Quiet, EndsThread, AskingBare, For, AnswersTo;
    if evs != [] {
      OthersNext(evs, pid);
      SafeQueues(c, s);
      StepSafe(c, s, evs[0]);
      var added := OtherStep(c, s, evs[0], pid);
      AnswersNext(c, s, evs, pid, added);
      BareStays(s, Step(c, s, evs[0]), pid, added);
      BareRun(c, Step(c, s, evs[0]), pid, evs[1..]);
    } else {
      NoAnswers(c, s, pid);
    }
  }

  /** From every reachable state, over every run of the other programs: a program that asks
      for a thread is answered if and only if it has a thread in NEW and more threads of
      the others end than stand before it, counting those of executing programs. Then it is
      answered once, with its first thread in NEW. */
  lemma AskingAnsweredIff(c: Config, sems: seq<Semaphore>, before: seq<Event>, pid: Pid, evs: seq<Event>)
    requires GoodConfig(c) && GoodSems(sems) && Legal(c, Init(sems), before)
    requires Legal(c, Run(c, Init(sems), before), evs) && OthersOnly(evs, pid)
    requires pid in Run(c, Init(sems), before).q.asking
    ensures var s := Run(c, Init(sems), before);
            AnswersTo(c, s, evs, pid) ==
            if OwnInNew(s.q, pid) && EndingCloses(c, s, evs) > AheadOf(s.q, pid, true) then
              [Response(pid, s.q.newList[FirstOwn(s.q.newList, pid)].tid, SCHEDULE_NEXT)]
            else
              []
  {
    hide Safe, Run, Legal, AskingWith, AheadOf, FirstOwn, AnswersTo, EndingCloses;
    ReachableSafe(c, sems, before);
    var s := Run(c, Init(sems), before);
    SafeQueues(c, s);
    if OwnInNew(s.q, pid) {
      AskingStarts(s.q, pid);
      AskingRun(c, s, pid, evs, AheadOf(s.q, pid, true), s.q.newList[FirstOwn(s.q.newList, pid)]);
    } else {
      BareRun(c, s, pid, evs);
    }
  }

  /** Likewise a client that waits in its first create is answered, once, if and only if more
      closes find no thread of an executing program in NEW than parked threads stand before
      its own. Threads of executing programs overtake it. */
  lemma ParkedAnsweredIff(c: Config, sems: seq<Semaphore>, before: seq<Event>, pid: Pid, evs: seq<Event>)
    requires GoodConfig(c) && GoodSems(sems) && Legal(c, Init(sems), before)
    requires Legal(c, Run(c, Init(sems), before), evs) && OthersOnly(evs, pid)
    requires Parked(Run(c, Init(sems), before).q, pid)
    ensures var s := Run(c, Init(sems), before);
            AnswersTo(c, s, evs, pid) ==
            if IdleCloses(c, s, evs) > AheadOf(s.q, pid, false) then [Response(pid, 1, CREATE)] else []
  {
    hide Safe, Run, Legal, ParkedWith, Parked, AheadOf, FirstOwn, AnswersTo, IdleCloses;
    ReachableSafe(c, sems, before);
    var s := Run(c, Init(sems), before);
    SafeQueues(c, s);
    ParkedStarts(s.q, pid);
    ParkedRun(c, s, pid, evs, AheadOf(s.q, pid, false));
  }
}

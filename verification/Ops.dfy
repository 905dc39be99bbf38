/** What each request does to the scheduler, as a function of the state before it. */
module Ops {
  import opened Lists
  import opened Timespecs
  import opened Model

  /** `clock(n)` is the n-th reading of the monotonic clock since the server started. */
  datatype Config = Config(maxMultiprog: int, alpha: real, clock: nat -> Timespec)

  ghost predicate GoodConfig(c: Config) {
    && 0 <= c.maxMultiprog
    && 0.0 <= c.alpha <= 1.0
    && (forall i: nat :: Normal(c.clock(i)))
    && (forall i: nat, j: nat :: i <= j ==> Ns(c.clock(i)) <= Ns(c.clock(j)))
  }

  datatype Header = CREATE | SCHEDULE_NEXT | WAIT | SIGNAL | JOIN | CLOSE

  datatype Response = Response(fd: Pid, value: int, header: Header)

  /** `ticks` counts the clock readings so far; `sent` lists the answers in the order they were issued. */
  datatype State = State(q: Queues, threads: map<ThreadId, Thread>, ticks: nat, sent: seq<Response>)

  // ----- Stamps on a thread's interval lists

  datatype Stamp = StartExec | StartReady | EndExec | EndReady

  function EndLast(vs: seq<Interval>, t: Timespec): seq<Interval> {
    if vs == [] then [] else vs[..|vs| - 1] + [vs[|vs| - 1].(end := Some(t))]
  }

  function Stamped(th: Thread, m: Stamp, t: Timespec): Thread {
    match m
    case StartExec => th.(execs := th.execs + [Interval(t, None)])
    case StartReady => th.(readys := th.readys + [Interval(t, None)])
    case EndExec => th.(execs := EndLast(th.execs, t))
    case EndReady => th.(readys := EndLast(th.readys, t))
  }

  function Mark(threads: map<ThreadId, Thread>, k: ThreadId, m: Stamp, t: Timespec): map<ThreadId, Thread> {
    if k in threads then threads[k := Stamped(threads[k], m, t)] else threads
  }

  // ----- The multiprogramming grade and the SJF choice

  ghost function Active(place: map<ThreadId, Place>): set<ThreadId> {
    set k | k in place && place[k] != New && place[k] != Exited
  }

  /** The number of threads that are neither in NEW nor in EXIT. */
  ghost function Grade(q: Queues): nat {
    |Active(q.place)|
  }

  /** The last burst in microseconds; 0 for a thread that never ran. */
  function LastBurst(th: Thread): int {
    if th.execs == [] then 0 else Length(th.execs[|th.execs| - 1]) / 1000
  }

  function Reestimate(alpha: real, th: Thread): Thread {
    th.(estimate := alpha * LastBurst(th) as real + (1.0 - alpha) * th.estimate)
  }

  /** One selection pass: every thread of the ready list gets a new estimate. */
  function Reestimated(alpha: real, threads: map<ThreadId, Thread>, ready: seq<ThreadId>): map<ThreadId, Thread> {
    map k | k in threads :: if k in ready then Reestimate(alpha, threads[k]) else threads[k]
  }

  function EstimateOf(threads: map<ThreadId, Thread>, k: ThreadId): real {
    if k in threads then threads[k].estimate else 0.0
  }

  /** The earliest position among those with the least estimate. */
  function Choose(threads: map<ThreadId, Thread>, ready: seq<ThreadId>): (i: nat)
    requires ready != []
    ensures i < |ready|
    ensures forall j :: 0 <= j < |ready| ==> EstimateOf(threads, ready[i]) <= EstimateOf(threads, ready[j])
    ensures forall j :: 0 <= j < i ==> EstimateOf(threads, ready[i]) < EstimateOf(threads, ready[j])
  {
    var last := |ready| - 1;
    if last == 0 then 0
    else
      var best := Choose(threads, ready[..last]);
      if EstimateOf(threads, ready[best]) > EstimateOf(threads, ready[last]) then last else best
  }

  // ----- Lookups

  /** `find_thread`: READY, then EXIT, then NEW; neither EXEC nor BLOCKED. */
  function FindThread(q: Queues, pid: Pid, tid: int): Option<ThreadId> {
    var k := ThreadId(pid, tid);
    if (pid in q.prog && k in q.prog[pid].ready) || k in q.exitList || k in q.newList then Some(k) else None
  }

  /** `find_semaphore`: the first with that name, or |sems|. */
  function FindSem(sems: seq<Semaphore>, id: string): (i: nat)
    ensures i <= |sems|
    ensures i < |sems| ==> sems[i].id == id
    ensures forall j :: 0 <= j < i ==> sems[j].id != id
  {
    if sems == [] then 0 else if sems[0].id == id then 0 else 1 + FindSem(sems[1..], id)
  }

  /** The first thread of NEW whose program is executing, or |l|. */
  function FirstRunnable(l: seq<ThreadId>, prog: map<Pid, Program>): (i: nat)
    ensures i <= |l|
    ensures i < |l| ==> l[i].pid in prog && prog[l[i].pid].executing
    ensures forall j :: 0 <= j < i ==> !(l[j].pid in prog && prog[l[j].pid].executing)
  {
    if l == [] then 0
    else if l[0].pid in prog && prog[l[0].pid].executing then 0
    else 1 + FirstRunnable(l[1..], prog)
  }

  // ----- The operations

  function Answer(s: State, fd: Pid, value: int, header: Header): State {
    s.(sent := s.sent + [Response(fd, value, header)])
  }

  function Connect(s: State, pid: Pid): State {
    s.(q := s.q.(programs := s.q.programs + [pid], prog := s.q.prog[pid := Program([], None, false)]))
  }

  ghost function Create(c: Config, s: State, pid: Pid, tid: int): State
    requires pid in s.q.prog
  {
    var p, k := s.q.prog[pid], ThreadId(pid, tid);
    var born := Thread(c.clock(s.ticks), 0.0, [], []);
    if Grade(s.q) >= c.maxMultiprog then
      Answer(s.(q := FreshToNew(s.q, k), threads := s.threads[k := born], ticks := s.ticks + 1),
             pid, if p.executing then 1 else -1, CREATE)
    else
      var t := c.clock(s.ticks + 1);
      if p.executing && p.exec.Some? then
        Answer(s.(q := FreshToReady(s.q, k), threads := s.threads[k := Stamped(born, StartReady, t)],
            ticks := s.ticks + 2),
               pid, 1, CREATE)
      else
        Answer(s.(q := FreshToExec(s.q, k), threads := s.threads[k := Stamped(born, StartExec, t)],
            ticks := s.ticks + 2),
               pid, 1, CREATE)
  }

  function Schedule(c: Config, s: State, pid: Pid): State {
    if pid !in s.q.prog then Answer(s, pid, -1, SCHEDULE_NEXT)
    else
      var p, t := s.q.prog[pid], c.clock(s.ticks);
      if p.ready != [] then
        var est := Reestimated(c.alpha, s.threads, p.ready);
        var i := Choose(est, p.ready);
        var k := p.ready[i];
        var run := Mark(Mark(est, k, StartExec, t), k, EndReady, t);
        if p.exec.Some? then
          var e := p.exec.value;
          Answer(s.(q := ReadyToExec(ExecToReady(s.q, e), pid, i),
                    threads := Mark(Mark(run, e, EndExec, t), e, StartReady, t), ticks := s.ticks + 1),
                 pid, k.tid, SCHEDULE_NEXT)
        else
          Answer(s.(q := ReadyToExec(s.q, pid, i), threads := run, ticks := s.ticks + 1), pid, k.tid, SCHEDULE_NEXT)
      else if p.exec.Some? then
        var e := p.exec.value;
        Answer(s.(threads := Mark(Mark(s.threads, e, EndExec, t), e, StartExec, t), ticks := s.ticks + 1),
               pid, e.tid, SCHEDULE_NEXT)
      else
        Answer(s.(q := s.q.(asking := s.q.asking + [pid])), pid, -1, SCHEDULE_NEXT)
  }

  function Join(c: Config, s: State, pid: Pid, tid: int): State
    requires pid in s.q.prog && s.q.prog[pid].exec.Some?
  {
    var e, target, t := s.q.prog[pid].exec.value, ThreadId(pid, tid), c.clock(s.ticks);
    var ended := Mark(s.threads, e, EndExec, t);
    if target in s.q.exitList then
      Answer(s.(q := ExecToReady(s.q, e), threads := Mark(ended, e, StartReady, t), ticks := s.ticks + 1), pid, 1, JOIN)
    else
      Answer(s.(q := ExecToJoined(s.q, e, target), threads := ended, ticks := s.ticks + 1), pid, 1, JOIN)
  }

  /** Released threads become ready one after the other, each at its own clock reading. */
  function MarkReleased(c: Config, threads: map<ThreadId, Thread>, released: seq<ThreadId>,
      ticks: nat): map<ThreadId, Thread> {
    map k | k in threads ::
      if k in released then Stamped(threads[k], StartReady, c.clock(ticks + IndexOf(released, k))) else threads[k]
  }

  ghost predicate Gone(q: Queues, pid: Pid) {
    forall k :: k in q.place && k.pid == pid ==> q.place[k] == Exited
  }

  /** The running thread exits and the threads joined on it become ready. */
  function Exit(c: Config, s: State, e: ThreadId): State {
    var released := JoinedOn(s.q.blocked, e);
    s.(q := ExecToExit(ReleaseJoins(s.q, e), e),
       threads := MarkReleased(c, Mark(s.threads, e, EndExec, c.clock(s.ticks)), released, s.ticks + 1),
       ticks := s.ticks + 1 + |released|)
  }

  /** A program with no thread left outside EXIT is destroyed with its threads. */
  ghost function Reap(s: State, pid: Pid): State {
    if Gone(s.q, pid) then
      s.(q := DropProgram(s.q, pid), threads := map k | k in s.threads && k.pid != pid :: s.threads[k])
    else s
  }

  function Distribute(c: Config, s: State): State {
    var i, t := FirstRunnable(s.q.newList, s.q.prog), c.clock(s.ticks);
    if i < |s.q.newList| then
      var k := s.q.newList[i];
      if k.pid in s.q.asking then
        Answer(s.(q := NewToExec(s.q.(asking := RemoveFirst(s.q.asking, k.pid)), i),
                  threads := Mark(s.threads, k, StartExec, t), ticks := s.ticks + 1),
               k.pid, k.tid, SCHEDULE_NEXT)
      else
        s.(q := NewToReady(s.q, i), threads := Mark(s.threads, k, StartReady, t), ticks := s.ticks + 1)
    else if s.q.newList != [] then
      var k := s.q.newList[0];
      Answer(s.(q := NewToExec(s.q, 0), threads := Mark(s.threads, k, StartExec, t), ticks := s.ticks + 1), k.pid,
          1, CREATE)
    else s
  }

  ghost function Close(c: Config, s: State, pid: Pid, tid: int): State
    requires pid in s.q.prog && s.q.prog[pid].exec.Some?
  {
    var e := s.q.prog[pid].exec.value;
    if e.tid == tid then Answer(Distribute(c, Reap(Exit(c, s, e), pid)), pid, 1, CLOSE)
    else Answer(s, pid, -1, CLOSE)
  }

  function SetValue(q: Queues, i: nat, value: int): Queues
    requires i < |q.sems|
  {
    q.(sems := q.sems[i := q.sems[i].(value := value)])
  }

  /** `suse_wait` on behalf of the running thread. */
  function Wait(c: Config, s: State, pid: Pid, id: string): State
    requires pid in s.q.prog && s.q.prog[pid].exec.Some? && FindSem(s.q.sems, id) < |s.q.sems|
  {
    var e, i := s.q.prog[pid].exec.value, FindSem(s.q.sems, id);
    var value := s.q.sems[i].value - 1;
    var q := SetValue(s.q, i, value);
    if value < 0 then
      Answer(s.(q := ExecToQueue(q, e, i), threads := Mark(s.threads, e, EndExec, c.clock(s.ticks)),
          ticks := s.ticks + 1),
             pid, 1, WAIT)
    else
      Answer(s.(q := q), pid, 1, WAIT)
  }

  function Raised(m: Semaphore): int {
    if m.value + 1 > m.max then m.max else m.value + 1
  }

  function Signal(c: Config, s: State, pid: Pid, id: string): State
    requires FindSem(s.q.sems, id) < |s.q.sems|
  {
    var i := FindSem(s.q.sems, id);
    var value := Raised(s.q.sems[i]);
    var q := SetValue(s.q, i, value);
    if value <= 0 && q.sems[i].queue != [] then
      var k := q.sems[i].queue[0];
      Answer(s.(q := QueueToReady(q, i), threads := Mark(s.threads, k, StartReady, c.clock(s.ticks)),
          ticks := s.ticks + 1),
             pid, 1, SIGNAL)
    else
      Answer(s.(q := q), pid, 1, SIGNAL)
  }

  /** What a metrics report writes: the end of every open interval is set to the
      report's own clock reading. */
  function Metrics(c: Config, s: State): State {
    var t := c.clock(s.ticks);
    s.(threads := map k | k in s.threads :: MetricsStamp(s.q, k, s.threads[k], t), ticks := s.ticks + 1)
  }

  function MetricsStamp(q: Queues, k: ThreadId, th: Thread, t: Timespec): Thread {
    if k.pid in q.prog && k in q.prog[k.pid].ready then Stamped(th, EndReady, t)
    else if k.pid in q.prog && q.prog[k.pid].exec == Some(k) then Stamped(th, EndExec, t)
    else th
  }

  // ----- Runs

  datatype Event =
    | EConnect(pid: Pid)
    | ECreate(pid: Pid, tid: int)
    | ESchedule(pid: Pid)
    | EJoin(pid: Pid, tid: int)
    | EClose(pid: Pid, tid: int)
    | EWait(pid: Pid, tid: int, id: string)
    | ESignal(pid: Pid, tid: int, id: string)
    | EMetrics

  /** The client of `pid` is owed a second answer. */
  ghost predicate Waiting(q: Queues, pid: Pid) {
    || pid in q.asking
    || (pid in q.prog && !q.prog[pid].executing && exists k :: k in q.place && k.pid == pid)
  }

  /** What a client must respect when it sends a request: it is not waiting for an
      answer, thread ids are fresh and non-negative, only a running thread joins, closes
      and waits, and it names things that exist.
      Schedule and signal requests of a program that was already destroyed are served, too. */
  ghost predicate Enabled(q: Queues, ev: Event) {
    match ev
    case EConnect(pid) => pid !in q.prog
    case ECreate(pid, tid) => pid in q.prog && !Waiting(q, pid) && ThreadId(pid, tid) !in q.place && 0 <= tid
    case ESchedule(pid) => pid in q.prog ==> !Waiting(q, pid)
    case EJoin(pid, tid) => pid in q.prog && q.prog[pid].exec.Some? && FindThread(q, pid, tid).Some?
    case EClose(pid, tid) => pid in q.prog && q.prog[pid].exec.Some?
    case EWait(pid, tid, id) => pid in q.prog && q.prog[pid].exec == Some(ThreadId(pid, tid))
        && FindSem(q.sems, id) < |q.sems|
    case ESignal(pid, tid, id) => FindSem(q.sems, id) < |q.sems| && (pid in q.prog ==> !Waiting(q, pid))
    case EMetrics => true
  }

  ghost function Step(c: Config, s: State, ev: Event): State
    requires Enabled(s.q, ev)
  {
    match ev
    case EConnect(pid) => Connect(s, pid)
    case ECreate(pid, tid) => Create(c, s, pid, tid)
    case ESchedule(pid) => Schedule(c, s, pid)
    case EJoin(pid, tid) => Join(c, s, pid, tid)
    case EClose(pid, tid) => Close(c, s, pid, tid)
    case EWait(pid, tid, id) => Wait(c, s, pid, id)
    case ESignal(pid, tid, id) => Signal(c, s, pid, id)
    case EMetrics => Metrics(c, s)
  }

  ghost predicate Legal(c: Config, s: State, evs: seq<Event>)
    decreases |evs|
  {
    evs == [] || (Enabled(s.q, evs[0]) && Legal(c, Step(c, s, evs[0]), evs[1..]))
  }

  ghost function Run(c: Config, s: State, evs: seq<Event>): State
    requires Legal(c, s, evs)
    decreases |evs|
  {
    if evs == [] then s else Run(c, Step(c, s, evs[0]), evs[1..])
  }

  /** One wrapper in BLOCKED for each semaphore, in order. */
  function Wrappers(n: nat): seq<Block> {
    if n == 0 then [] else Wrappers(n - 1) + [SemBlock(n - 1)]
  }

  /** What `initialize_structures` and `initialize_semaphores` leave. */
  function Init(sems: seq<Semaphore>): State {
    State(Queues([], map[], [], [], Wrappers(|sems|), [], sems, map[]), map[], 0, [])
  }

  ghost predicate GoodSems(sems: seq<Semaphore>) {
    forall i :: 0 <= i < |sems| ==> sems[i].queue == [] && 1 <= sems[i].max && 0 <= sems[i].value <= sems[i].max
  }
}

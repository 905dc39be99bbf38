/** Clients and server together: when a client is owed a second answer, and who gets it. */
module Lockstep {
  import opened Lists
  import opened Model
  import opened Ops
  import opened Invariant
  import opened Timeline
  import opened Runs
  import opened Partition

  // ----- What one request answers

  /** Blocked in its first create: a thread of a program that has not started waits in NEW. */
  ghost predicate Parked(q: Queues, pid: Pid) {
    pid in q.prog && !q.prog[pid].executing && exists k :: k in q.place && k.pid == pid
  }

  /** A parked program has exactly one thread, and it is in NEW. */
  lemma ParkedHasOne(q: Queues, pid: Pid)
    requires Core(q) && Parked(q, pid)
    ensures exists k :: k in q.newList && k.pid == pid && forall j :: j in q.place && j.pid == pid ==> j == k
  {
    var k :| k in q.place && k.pid == pid;
    assert k in q.newList;
  }

  /** The client's own rule: this answer means that a second one will follow. */
  predicate Defers(header: Header, value: int) {
    match header
    case CREATE => value != 1
    case SCHEDULE_NEXT => value < 0
    case _ => false
  }

  function HeaderOf(ev: Event): Header
    requires !ev.EConnect? && !ev.EMetrics?
  {
    match ev
    case ECreate(_, _) => CREATE
    case ESchedule(_) => SCHEDULE_NEXT
    case EJoin(_, _) => JOIN
    case EClose(_, _) => CLOSE
    case EWait(_, _, _) => WAIT
    case ESignal(_, _, _) => SIGNAL
  }

  ghost predicate TidsOk(q: Queues) {
    forall k :: k in q.place ==> 0 <= k.tid
  }

  /** Neither waiting flag of `p` changes. */
  ghost predicate SameStatus(q: Queues, r: Queues, p: Pid) {
    (p in r.asking <==> p in q.asking) && (Parked(r, p) <==> Parked(q, p))
  }

  /** The deferred answer a close may send: to a waiting program, with the header it
      waits for and a value that ends its wait. */
  ghost predicate EndsWait(q: Queues, r: Queues, d: Response) {
    && d.fd !in r.asking && !Parked(r, d.fd)
    && !Defers(d.header, d.value)
    && ((d.header == SCHEDULE_NEXT && d.fd in q.asking) || (d.header == CREATE && Parked(q, d.fd)))
  }

  /** The answers of one request: at most one deferred answer, then the requester's own. */
  ghost predicate Answers(s: State, r: State, pid: Pid, header: Header, deferred: seq<Response>, value: int) {
    && r.sent == s.sent + deferred + [Response(pid, value, header)]
    && |deferred| <= 1
    && (forall d :: d in deferred ==> d.fd != pid && EndsWait(s.q, r.q, d))
    && (forall p :: p != pid && (forall d :: d in deferred ==> d.fd != p) ==> SameStatus(s.q, r.q, p))
    && (pid in r.q.asking <==> header == SCHEDULE_NEXT && Defers(header, value))
    && (Parked(r.q, pid) <==> header == CREATE && Defers(header, value))
  }

  /** Requests that keep the asking list, the programs' executing flags and the threads. */
  lemma QuietStatus(q: Queues, r: Queues)
    requires r.asking == q.asking && r.place.Keys == q.place.Keys && r.prog.Keys == q.prog.Keys
    requires forall p :: p in q.prog ==> r.prog[p].executing == q.prog[p].executing
    ensures forall p :: SameStatus(q, r, p)
  {}

  lemma CreateAnswers(c: Config, s: State, pid: Pid, tid: int) returns (value: int)
    requires QueueInv(c, s.q) && Enabled(s.q, ECreate(pid, tid))
    ensures Answers(s, Create(c, s, pid, tid), pid, CREATE, [], value)
  {
    hide Structure, Ordered, TargetsLive, AllAlive, Grade;
    var q, k, r := s.q, ThreadId(pid, tid), Create(c, s, pid, tid);
    value := if Grade(q) >= c.maxMultiprog && !q.prog[pid].executing then -1 else 1;
    assert k in r.q.place;
    forall p | p != pid ensures SameStatus(q, r.q, p) {
      assert forall j: ThreadId :: j.pid == p ==> (j in r.q.place <==> j in q.place);
    }
    assert r.sent == s.sent + [] + [Response(pid, value, CREATE)];
  }

  lemma ScheduleAnswers(c: Config, s: State, pid: Pid) returns (value: int)
    requires QueueInv(c, s.q) && TidsOk(s.q) && Enabled(s.q, ESchedule(pid)) && pid in s.q.prog
    ensures Answers(s, Schedule(c, s, pid), pid, SCHEDULE_NEXT, [], value)
  {
    hide Structure, Ordered, TargetsLive, Dormant, AllAlive, Choose;
    var q, r := s.q, Schedule(c, s, pid);
    value := r.sent[|r.sent| - 1].value;
    ReadyPlaces(q, pid);
    if q.prog[pid].exec.Some? {
      ExecOf(q, pid);
    }
    if q.prog[pid].ready == [] && q.prog[pid].exec.None? {
      forall p ensures Parked(r.q, p) <==> Parked(q, p) {}
    } else {
      assert r.q.place.Keys == q.place.Keys;
      QuietStatus(q, r.q);
    }
  }

  lemma JoinAnswers(c: Config, s: State, pid: Pid, tid: int)
    requires QueueInv(c, s.q) && Enabled(s.q, EJoin(pid, tid))
    ensures Answers(s, Join(c, s, pid, tid), pid, JOIN, [], 1)
  {
    hide Structure, Ordered, TargetsLive, Dormant, AllAlive;
    ExecOf(s.q, pid);
    ExecPid(s.q, s.q.prog[pid].exec.value);
    QuietStatus(s.q, Join(c, s, pid, tid).q);
  }

  lemma WaitAnswers(c: Config, s: State, pid: Pid, tid: int, id: string)
    requires QueueInv(c, s.q) && Enabled(s.q, EWait(pid, tid, id))
    ensures Answers(s, Wait(c, s, pid, id), pid, WAIT, [], 1)
  {
    hide Structure, Ordered, TargetsLive, Dormant, AllAlive;
    ExecOf(s.q, pid);
    ExecPid(s.q, s.q.prog[pid].exec.value);
    QuietStatus(s.q, Wait(c, s, pid, id).q);
  }

  lemma SignalAnswers(c: Config, s: State, pid: Pid, tid: int, id: string)
    requires QueueInv(c, s.q) && Enabled(s.q, ESignal(pid, tid, id)) && !Waiting(s.q, pid)
    ensures Answers(s, Signal(c, s, pid, id), pid, SIGNAL, [], 1)
  {
    hide Structure, Ordered, TargetsLive, Dormant, AllAlive;
    if s.q.sems[FindSem(s.q.sems, id)].queue != [] {
      QueueHead(s.q, FindSem(s.q.sems, id));
    }
    QuietStatus(s.q, Signal(c, s, pid, id).q);
  }

  /** The admission step of a close: who gets the thread, and the answer that goes with it. */
  lemma DistributeAnswers(c: Config, s: State) returns (deferred: seq<Response>)
    requires Core(s.q) && TidsOk(s.q)
    ensures var r := Distribute(c, s);
            && r.sent == s.sent + deferred && |deferred| <= 1
            && (forall d :: d in deferred ==> EndsWait(s.q, r.q, d))
            && (forall p :: (forall d :: d in deferred ==> d.fd != p) ==> SameStatus(s.q, r.q, p))
  {
    hide Structure, Ordered, TargetsLive;
    var q, r, i := s.q, Distribute(c, s), FirstRunnable(s.q.newList, s.q.prog);
    deferred := [];
    if i < |q.newList| {
      var k := q.newList[i];
      NewOf(q, i);
      if k.pid in q.asking {
        deferred := [Response(k.pid, k.tid, SCHEDULE_NEXT)];
        RemoveAtKeeps(q.asking, IndexOf(q.asking, k.pid));
        forall p ensures Parked(r.q, p) <==> Parked(q, p) {}
      } else {
        QuietStatus(q, r.q);
      }
    } else if q.newList != [] {
      var k := q.newList[0];
      NewOf(q, 0);
      deferred := [Response(k.pid, 1, CREATE)];
      assert !q.prog[k.pid].executing && Parked(q, k.pid);
      forall p | p != k.pid ensures SameStatus(q, r.q, p) {}
    } else {
      assert s.sent + [] == s.sent;
    }
  }

  lemma CloseAnswers(c: Config, s: State, pid: Pid, tid: int) returns (deferred: seq<Response>, value: int)
    requires QueueInv(c, s.q) && TidsOk(s.q) && Enabled(s.q, EClose(pid, tid))
    ensures Answers(s, Close(c, s, pid, tid), pid, CLOSE, deferred, value)
  {
    hide Structure, Ordered, TargetsLive, Dormant, AllAlive, Distribute, Exit, Reap;
    var q, e := s.q, s.q.prog[pid].exec.value;
    ExecOf(q, pid);
    ExecPid(q, e);
    if e.tid == tid {
      var s1, s2 := Exit(c, s, e), Reap(Exit(c, s, e), pid);
      var r := Distribute(c, s2);
      ExitKeeps(c, s, e);
      ExitStatus(c, s, e);
      ReapKeeps(s1, pid);
      ReapStatus(s1, pid);
      deferred := DistributeAnswers(c, s2);
      value := 1;
      forall p | p != pid && (forall d :: d in deferred ==> d.fd != p) ensures SameStatus(q, r.q, p) {
        assert SameStatus(q, s1.q, p) && SameStatus(s1.q, s2.q, p) && SameStatus(s2.q, r.q, p);
      }
      assert SameStatus(s1.q, s2.q, pid);
      assert !Parked(s2.q, pid) && pid !in s2.q.asking;
      forall d | d in deferred ensures d.fd != pid && EndsWait(q, r.q, d) {
        assert SameStatus(q, s1.q, d.fd) && SameStatus(s1.q, s2.q, d.fd);
      }
      assert SameStatus(s2.q, r.q, pid);
    } else {
      deferred, value := [], -1;
      assert s.sent + [] == s.sent;
    }
  }

  lemma ExitStatus(c: Config, s: State, e: ThreadId)
    requires e in s.q.place && e.pid in s.q.prog && s.q.prog[e.pid].executing
    ensures var r := Exit(c, s, e);
            r.sent == s.sent && r.q.place.Keys == s.q.place.Keys && r.q.prog.Keys == s.q.prog.Keys
                && !Parked(r.q, e.pid) && forall p :: SameStatus(s.q, r.q, p)
  {
    QuietStatus(s.q, Exit(c, s, e).q);
  }

  lemma ReapStatus(s: State, pid: Pid)
    requires pid in s.q.prog && s.q.prog[pid].executing && pid !in s.q.asking
    ensures var r := Reap(s, pid);
            && r.sent == s.sent && !Parked(r.q, pid) && (forall p :: SameStatus(s.q, r.q, p))
            && (TidsOk(s.q) ==> TidsOk(r.q)) && r.q.prog.Keys <= s.q.prog.Keys
  {}

  /** Any request of a live program's client. */
  lemma RequestAnswers(c: Config, s: State, ev: Event) returns (deferred: seq<Response>, value: int)
    requires QueueInv(c, s.q) && TidsOk(s.q) && Enabled(s.q, ev)
    requires !ev.EConnect? && !ev.EMetrics? && ev.pid in s.q.prog && !Waiting(s.q, ev.pid)
    ensures Answers(s, Step(c, s, ev), ev.pid, HeaderOf(ev), deferred, value)
  {
    hide QueueInv, Answers, Waiting;
    deferred := [];
    match ev
    case ECreate(pid, tid) => value := CreateAnswers(c, s, pid, tid);
    case ESchedule(pid) => value := ScheduleAnswers(c, s, pid);
    case EJoin(pid, tid) => value := 1; JoinAnswers(c, s, pid, tid);
    case EClose(pid, tid) => deferred, value := CloseAnswers(c, s, pid, tid);
    case EWait(pid, tid, id) => value := 1; WaitAnswers(c, s, pid, tid, id);
    case ESignal(pid, tid, id) => value := 1; SignalAnswers(c, s, pid, tid, id);
  }

  // ----- The clients

  /** What a client is doing: nothing, a request under way, reading the first answer to
      it, or reading the second one. */
  datatype Phase = Idle | Sent(ev: Event) | First(header: Header) | Second(header: Header)

  /** `inbox` holds the answers sent to the client and not read yet; channels keep their order. */
  datatype Client = Client(phase: Phase, inbox: seq<Response>)

  datatype System = System(s: State, clients: map<Pid, Client>)

  datatype Action =
    | AConnect(pid: Pid)
    | ASend(pid: Pid, ev: Event)
    | AServe(pid: Pid)
    | AReceive(pid: Pid)
    | AMetrics

  /** What a client's program is responsible for when its request is served. That it is
      not waiting for an answer is not in here: that is what the client library sees to. */
  ghost predicate Obliged(q: Queues, ev: Event) {
    match ev
    case EConnect(_) => false
    case EMetrics => false
    case ECreate(pid, tid) => pid in q.prog && ThreadId(pid, tid) !in q.place && 0 <= tid
    case ESchedule(pid) => pid in q.prog
    case EJoin(pid, tid) => pid in q.prog && q.prog[pid].exec.Some? && FindThread(q, pid, tid).Some?
    case EClose(pid, tid) => pid in q.prog && q.prog[pid].exec.Some?
    case EWait(pid, tid, id) => pid in q.prog && q.prog[pid].exec == Some(ThreadId(pid, tid))
        && FindSem(q.sems, id) < |q.sems|
    case ESignal(pid, tid, id) => pid in q.prog && FindSem(q.sems, id) < |q.sems|
  }

  ghost predicate Possible(y: System, a: Action) {
    match a
    case AConnect(pid) => pid !in y.clients && pid !in y.s.q.prog
    case ASend(pid, ev) => pid in y.clients && y.clients[pid].phase == Idle && !ev.EConnect? && !ev.EMetrics?
        && ev.pid == pid
    case AServe(pid) => pid in y.clients && y.clients[pid].phase.Sent? && Obliged(y.s.q, y.clients[pid].phase.ev)
    case AReceive(pid) => pid in y.clients && (y.clients[pid].phase.First? || y.clients[pid].phase.Second?)
        && y.clients[pid].inbox != []
    case AMetrics => true
  }

  /** The client library after reading one answer. */
  function AfterAnswer(phase: Phase, value: int): Phase
    requires phase.First? || phase.Second?
  {
    match phase
    case First(h) => if Defers(h, value) then Second(h) else Idle
    case Second(_) => Idle
  }

  function For(pid: Pid, answers: seq<Response>): seq<Response> {
    if answers == [] then []
    else (if answers[0].fd == pid then [answers[0]] else []) + For(pid, answers[1..])
  }

  /** New answers reach the inboxes they are addressed to. */
  function Delivered(clients: map<Pid, Client>, answers: seq<Response>): map<Pid, Client> {
    map p | p in clients :: clients[p].(inbox := clients[p].inbox + For(p, answers))
  }

  ghost predicate Served(c: Config, y: System, z: System, pid: Pid)
    requires pid in y.clients && y.clients[pid].phase.Sent?
  {
    var ev := y.clients[pid].phase.ev;
    Enabled(y.s.q, ev) && !ev.EConnect? && !ev.EMetrics? &&
    z.s == Step(c, y.s, ev) && |y.s.sent| <= |z.s.sent| &&
    z.clients == Delivered(y.clients[pid := y.clients[pid].(phase := First(HeaderOf(ev)))], z.s.sent[|y.s.sent|..])
  }

  ghost predicate SystemStep(c: Config, y: System, a: Action, z: System) {
    Possible(y, a) &&
    match a
    case AConnect(pid) => z == System(Connect(y.s, pid), y.clients[pid := Client(Idle, [])])
    case ASend(pid, ev) => z == y.(clients := y.clients[pid := y.clients[pid].(phase := Sent(ev))])
    case AServe(pid) => Served(c, y, z, pid)
    case AReceive(pid) =>
      var cl := y.clients[pid];
      z == y.(clients := y.clients[pid := Client(AfterAnswer(cl.phase, cl.inbox[0].value), cl.inbox[1..])])
    case AMetrics => z == y.(s := Metrics(c, y.s))
  }

  // ----- Lockstep

  function PhaseHeader(phase: Phase): Header
    requires phase.First? || phase.Second?
  {
    phase.header
  }

  /** The client waits, or is about to be told to wait, for a second answer that has not been sent. */
  predicate OwedSecond(cl: Client) {
    match cl.phase
    case First(h) => |cl.inbox| == 1 && Defers(h, cl.inbox[0].value)
    case Second(h) => cl.inbox == []
    case _ => false
  }

  /** The answers in the inbox are the ones the client is reading: the first, the second
      only behind a deferral, and a second one always ends the wait. */
  predicate InboxOk(pid: Pid, cl: Client) {
    match cl.phase
    case Idle => cl.inbox == []
    case Sent(_) => cl.inbox == []
    case First(h) =>
      && 1 <= |cl.inbox| <= 2
      && (forall r :: r in cl.inbox ==> r.fd == pid && r.header == h)
      && (|cl.inbox| == 2 ==> Defers(h, cl.inbox[0].value) && !Defers(h, cl.inbox[1].value))
    case Second(h) =>
      && h in {CREATE, SCHEDULE_NEXT}
      && |cl.inbox| <= 1
      && (forall r :: r in cl.inbox ==> r.fd == pid && r.header == h && !Defers(h, r.value))
  }

  ghost predicate InStep(q: Queues, pid: Pid, cl: Client) {
    && InboxOk(pid, cl)
    && (cl.phase.Sent? ==> !cl.phase.ev.EConnect? && !cl.phase.ev.EMetrics? && cl.phase.ev.pid == pid)
    && (Parked(q, pid) <==> OwedSecond(cl) && PhaseHeader(cl.phase) == CREATE)
    && (pid in q.asking <==> OwedSecond(cl) && PhaseHeader(cl.phase) == SCHEDULE_NEXT)
  }

  ghost predicate AllInStep(y: System) {
    && (forall p :: p in y.s.q.prog ==> p in y.clients)
    && (forall p :: p in y.clients ==> InStep(y.s.q, p, y.clients[p]))
  }

  ghost predicate SystemInv(c: Config, y: System) {
    Safe(c, y.s) && TidsOk(y.s.q) && AllInStep(y)
  }

  /** A client in step with the server is never waiting when its request is served. */
  lemma ObligedEnabled(q: Queues, ev: Event, cl: Client)
    requires Obliged(q, ev) && InStep(q, ev.pid, cl) && cl.phase.Sent?
    ensures Enabled(q, ev) && !Waiting(q, ev.pid) && ev.pid in q.prog
  {}

  /** A deferred answer arrives where it is awaited, and ends the wait. */
  lemma DeferredInStep(q: Queues, r: Queues, pid: Pid, cl: Client, d: Response)
    requires InStep(q, pid, cl) && d.fd == pid && EndsWait(q, r, d)
    ensures InStep(r, pid, cl.(inbox := cl.inbox + [d]))
    ensures OwedSecond(cl) && PhaseHeader(cl.phase) == d.header
  {}

  lemma OwnInStep(s: State, r: State, pid: Pid, cl: Client, header: Header, deferred: seq<Response>, value: int)
    requires InStep(s.q, pid, cl) && cl.phase.Sent? && Answers(s, r, pid, header, deferred, value)
    ensures InStep(r.q, pid, Client(First(header), cl.inbox + [Response(pid, value, header)]))
  {}

  lemma ForOthers(pid: Pid, deferred: seq<Response>, own: Response)
    requires |deferred| <= 1
    ensures For(pid, deferred + [own]) ==
            (if deferred != [] && deferred[0].fd == pid then deferred else []) + (if own.fd == pid then [own] else [])
  {
    assert For(pid, [own]) == (if own.fd == pid then [own] else []) + For(pid, [own][1..]);
    if deferred != [] {
      assert (deferred + [own])[1..] == [own] && deferred == [deferred[0]];
    } else {
      assert deferred + [own] == [own];
    }
  }

  lemma ServeEnabled(c: Config, y: System, pid: Pid)
    requires SystemInv(c, y) && Possible(y, AServe(pid))
    ensures var ev := y.clients[pid].phase.ev;
            Enabled(y.s.q, ev) && ev.pid == pid && !ev.EConnect? && !ev.EMetrics? && !Waiting(y.s.q, pid)
                && pid in y.s.q.prog
  {
    hide Safe, Obliged, Enabled, Waiting, Parked, InboxOk, OwedSecond;
    ObligedEnabled(y.s.q, y.clients[pid].phase.ev, y.clients[pid]);
  }

  lemma SafeQueues(c: Config, s: State)
    requires Safe(c, s)
    ensures QueueInv(c, s.q) && Core(s.q)
  {}

  lemma OthersInStep(q: Queues, r: Queues, pid: Pid, cl: Client)
    requires InStep(q, pid, cl) && SameStatus(q, r, pid)
    ensures InStep(r, pid, cl)
  {}

  /** Only a connection adds a program. */
  lemma NoNewProgram(c: Config, s: State, ev: Event)
    requires QueueInv(c, s.q) && Enabled(s.q, ev) && !ev.EConnect?
    ensures forall p :: p in Step(c, s, ev).q.prog ==> p in s.q.prog
  {
    hide Structure, Ordered, TargetsLive, Dormant, AllAlive;
    match ev
    case EClose(pid, tid) =>
      var e := s.q.prog[pid].exec.value;
      if e.tid == tid {
        ExecOf(s.q, pid);
        ExitKeeps(c, s, e);
        ReapKeeps(Exit(c, s, e), pid);
        DistributePlaces(c, Reap(Exit(c, s, e), pid));
      }
    case ESchedule(pid) =>
      if pid in s.q.prog && s.q.prog[pid].exec.Some? {
        ExecOf(s.q, pid);
      }
    case EJoin(pid, tid) => ExecOf(s.q, pid);
    case EWait(pid, tid, id) => ExecOf(s.q, pid);
    case ESignal(pid, tid, id) =>
      if s.q.sems[FindSem(s.q.sems, id)].queue != [] {
        QueueHead(s.q, FindSem(s.q.sems, id));
      }
    case _ =>
  }

  /** What `Answers` says, with the statuses behind their names. */
  lemma AnswersFacts(s: State, r: State, pid: Pid, header: Header, deferred: seq<Response>, value: int)
    requires Answers(s, r, pid, header, deferred, value)
    ensures r.sent == s.sent + deferred + [Response(pid, value, header)] && |deferred| <= 1
    ensures deferred != [] ==> deferred[0].fd != pid && EndsWait(s.q, r.q, deferred[0])
    ensures forall p :: p != pid && (deferred != [] ==> deferred[0].fd != p) ==> SameStatus(s.q, r.q, p)
  {
    hide EndsWait, SameStatus;
  }

  lemma TidsKept(c: Config, s: State, ev: Event)
    requires QueueInv(c, s.q) && Enabled(s.q, ev) && TidsOk(s.q)
    ensures TidsOk(Step(c, s, ev).q)
  {
    hide QueueInv, Step;
    ThreadsConserved(c, s, ev);
  }

  /** Serving a request keeps every client in step. */
  lemma ServeInStep(c: Config, y: System, z: System, pid: Pid)
    requires SystemInv(c, y) && SystemStep(c, y, AServe(pid), z)
    ensures AllInStep(z)
  {
    hide Safe, Step, Enabled, Obliged, InStep, Answers, EndsWait;
    var ev := y.clients[pid].phase.ev;
    ServeEnabled(c, y, pid);
    SafeQueues(c, y.s);
    var deferred, value := RequestAnswers(c, y.s, ev);
    var own := Response(pid, value, HeaderOf(ev));
    AnswersFacts(y.s, z.s, pid, HeaderOf(ev), deferred, value);
    assert z.s.sent[|y.s.sent|..] == deferred + [own];
    forall p | p in z.clients ensures InStep(z.s.q, p, z.clients[p]) {
      ForOthers(p, deferred, own);
      if p == pid {
        OwnInStep(y.s, z.s, pid, y.clients[pid], HeaderOf(ev), deferred, value);
        assert z.clients[pid] == Client(First(HeaderOf(ev)), y.clients[pid].inbox + [own]);
      } else if deferred != [] && deferred[0].fd == p {
        DeferredInStep(y.s.q, z.s.q, p, y.clients[p], deferred[0]);
        assert deferred == [deferred[0]];
        assert z.clients[p] == y.clients[p].(inbox := y.clients[p].inbox + [deferred[0]]);
      } else {
        OthersInStep(y.s.q, z.s.q, p, y.clients[p]);
        assert z.clients[p] == y.clients[p].(inbox := y.clients[p].inbox + []);
        assert y.clients[p].inbox + [] == y.clients[p].inbox;
      }
    }
    NoNewProgram(c, y.s, ev);
  }

  lemma ConnectInStep(c: Config, y: System, pid: Pid, z: System)
    requires SystemInv(c, y) && SystemStep(c, y, AConnect(pid), z)
    ensures AllInStep(z) && TidsOk(z.s.q)
  {
    hide Safe, Ordered, TargetsLive, AllAlive, Dormant, InboxOk, OwedSecond;
    SafeQueues(c, y.s);
    forall p | p in y.clients ensures InStep(z.s.q, p, z.clients[p]) {
      assert SameStatus(y.s.q, z.s.q, p);
      OthersInStep(y.s.q, z.s.q, p, y.clients[p]);
    }
    NewClientInStep(y.s, pid);
  }

  lemma NewClientInStep(s: State, pid: Pid)
    requires Core(s.q) && pid !in s.q.prog
    ensures InStep(Connect(s, pid).q, pid, Client(Idle, []))
  {}

  lemma ReceiveInStep(q: Queues, pid: Pid, cl: Client)
    requires InStep(q, pid, cl) && (cl.phase.First? || cl.phase.Second?) && cl.inbox != []
    ensures InStep(q, pid, Client(AfterAnswer(cl.phase, cl.inbox[0].value), cl.inbox[1..]))
  {}

  lemma SendInStep(q: Queues, pid: Pid, cl: Client, ev: Event)
    requires InStep(q, pid, cl) && cl.phase == Idle && !ev.EConnect? && !ev.EMetrics? && ev.pid == pid
    ensures InStep(q, pid, cl.(phase := Sent(ev)))
  {}

  /** Every action of a client or of the server keeps the whole system in step. */
  lemma ActKeeps(c: Config, y: System, a: Action, z: System)
    requires GoodConfig(c) && SystemInv(c, y) && SystemStep(c, y, a, z)
    ensures SystemInv(c, z)
  {
    hide Safe, Step, Obliged, InStep, Waiting;
    SafeQueues(c, y.s);
    match a
    case AConnect(pid) =>
      ConnectInStep(c, y, pid, z);
      ConnectSafe(c, y.s, pid);
    case ASend(pid, ev) => SendInStep(y.s.q, pid, y.clients[pid], ev);
    case AServe(pid) =>
      var ev := y.clients[pid].phase.ev;
      ServeEnabled(c, y, pid);
      StepSafe(c, y.s, ev);
      TidsKept(c, y.s, ev);
      ServeInStep(c, y, z, pid);
    case AReceive(pid) => ReceiveInStep(y.s.q, pid, y.clients[pid]);
    case AMetrics => MetricsSafe(c, y.s);
  }

  lemma ConnectSafe(c: Config, s: State, pid: Pid)
    requires GoodConfig(c) && Safe(c, s) && pid !in s.q.prog
    ensures Safe(c, Connect(s, pid))
  {
    hide Safe;
    StepSafe(c, s, EConnect(pid));
  }

  lemma MetricsSafe(c: Config, s: State)
    requires GoodConfig(c) && Safe(c, s)
    ensures Safe(c, Metrics(c, s))
  {
    hide Safe;
    StepSafe(c, s, EMetrics);
  }

  // ----- Whole runs of the system

  ghost predicate SystemRun(c: Config, ys: seq<System>, acts: seq<Action>) {
    && |ys| == |acts| + 1
    && forall i :: 0 <= i < |acts| ==> SystemStep(c, ys[i], acts[i], ys[i + 1])
  }

  function Start(sems: seq<Semaphore>): System {
    System(Init(sems), map[])
  }

  lemma {:induction false} SystemSafe(c: Config, sems: seq<Semaphore>, ys: seq<System>, acts: seq<Action>)
    requires GoodConfig(c) && GoodSems(sems) && SystemRun(c, ys, acts) && ys[0] == Start(sems)
    ensures |ys| == |acts| + 1 && SystemInv(c, ys[|acts|])
    decreases |acts|
  {
    hide SystemInv, SystemStep;
    if acts == [] {
      StartSafe(c, sems);
    } else {
      var n := |acts| - 1;
      SystemSafe(c, sems, ys[..n + 1], acts[..n]);
      ActKeeps(c, ys[n], acts[n], ys[n + 1]);
    }
  }

  lemma StartSafe(c: Config, sems: seq<Semaphore>)
    requires GoodConfig(c) && GoodSems(sems)
    ensures SystemInv(c, Start(sems))
  {
    hide Safe;
    InitSafe(c, sems);
  }

  /** `pid` is not executing and its only thread waits in NEW. */
  ghost predicate OneThreadInNew(q: Queues, pid: Pid) {
    && pid in q.prog && !q.prog[pid].executing
    && exists k :: k in q.newList && k.pid == pid && forall j :: j in q.place && j.pid == pid ==> j == k
  }

  /** Client and server agree, in every reachable state, on who waits for a second answer:
      a client that has read what was sent to it waits for a second create answer exactly
      when its program is not executing and has one thread, in NEW, and for a second
      schedule answer exactly when its program is asking for a thread. A client between
      requests, or with a request not yet served, is not waiting and has nothing to read;
      one that waits for a first answer will find it in its inbox. */
  lemma Lockstep(c: Config, sems: seq<Semaphore>, ys: seq<System>, acts: seq<Action>, pid: Pid)
    requires GoodConfig(c) && GoodSems(sems) && SystemRun(c, ys, acts) && ys[0] == Start(sems)
    requires pid in ys[|acts|].clients
    ensures var q, cl := ys[|acts|].s.q, ys[|acts|].clients[pid];
            && (cl.inbox == [] ==> (cl.phase == Second(CREATE) <==> OneThreadInNew(q, pid)))
            && (cl.inbox == [] ==> (cl.phase == Second(SCHEDULE_NEXT) <==> pid in q.asking))
            && (cl.phase.Idle? || cl.phase.Sent? ==> cl.inbox == [])
            && (cl.phase.First? ==> cl.inbox != [])
            && (cl.phase.Second? ==> cl.phase.header in {CREATE, SCHEDULE_NEXT})
            && (forall r :: r in cl.inbox ==>
                  r.fd == pid && (cl.phase.First? || cl.phase.Second?) && r.header == cl.phase.header)
  {
    hide Safe, SystemRun, OneThreadInNew, InStep, QueueInv, Core;
    SystemSafe(c, sems, ys, acts);
    var y := ys[|acts|];
    SafeQueues(c, y.s);
    InStepMeans(y.s.q, pid, y.clients[pid]);
  }

  lemma InStepMeans(q: Queues, pid: Pid, cl: Client)
    requires Core(q) && InStep(q, pid, cl)
    ensures (cl.inbox == [] ==> (cl.phase == Second(CREATE) <==> OneThreadInNew(q, pid)))
    ensures (cl.inbox == [] ==> (cl.phase == Second(SCHEDULE_NEXT) <==> pid in q.asking))
    ensures cl.phase.Idle? || cl.phase.Sent? ==> cl.inbox == []
    ensures cl.phase.First? ==> cl.inbox != []
    ensures cl.phase.Second? ==> cl.phase.header in {CREATE, SCHEDULE_NEXT}
    ensures forall r :: r in cl.inbox ==>
              r.fd == pid && (cl.phase.First? || cl.phase.Second?) && r.header == cl.phase.header
  {
    hide Structure, Ordered, TargetsLive, Dormant, AskingIdle;
    ParkedIsOne(q, pid);
  }

  lemma ParkedIsOne(q: Queues, pid: Pid)
    requires Core(q)
    ensures Parked(q, pid) <==> OneThreadInNew(q, pid)
  {
    hide Ordered, TargetsLive, AskingIdle;
    if Parked(q, pid) {
      ParkedHasOne(q, pid);
    }
    if OneThreadInNew(q, pid) {
      var k :| k in q.newList && k.pid == pid;
      assert k in q.place;
    }
  }

  /** In every reachable state, serving a request sends the requester one answer and at
      most one answer to another client. That one was waiting for exactly this header;
      reading it ends its call, and the server no longer holds it as waiting. */
  lemma DeferredToWaiting(c: Config, sems: seq<Semaphore>, ys: seq<System>, acts: seq<Action>, pid: Pid, z: System)
    returns (deferred: seq<Response>, value: int)
    requires GoodConfig(c) && GoodSems(sems) && SystemRun(c, ys, acts) && ys[0] == Start(sems)
    requires SystemStep(c, ys[|acts|], AServe(pid), z)
    ensures var y := ys[|acts|];
            && z.s.sent == y.s.sent + deferred + [Response(pid, value, HeaderOf(y.clients[pid].phase.ev))]
            && |deferred| <= 1
            && forall d :: d in deferred ==>
                 && d.fd != pid && d.fd in y.clients && OwedSecond(y.clients[d.fd])
                 && PhaseHeader(y.clients[d.fd].phase) == d.header && !Defers(d.header, d.value)
                 && d.fd !in z.s.q.asking && !Parked(z.s.q, d.fd)
  {
    hide Safe, Step, Enabled, Obliged, Answers, EndsWait, SystemRun, InStep;
    SystemSafe(c, sems, ys, acts);
    var y := ys[|acts|];
    var ev := y.clients[pid].phase.ev;
    ServeEnabled(c, y, pid);
    SafeQueues(c, y.s);
    deferred, value := RequestAnswers(c, y.s, ev);
    AnswersFacts(y.s, z.s, pid, HeaderOf(ev), deferred, value);
    if deferred != [] {
      var d := deferred[0];
      assert deferred == [d];
      DeferredKnown(c, y, z.s.q, d);
    }
  }

  lemma DeferredKnown(c: Config, y: System, r: Queues, d: Response)
    requires Core(y.s.q) && AllInStep(y) && EndsWait(y.s.q, r, d)
    ensures d.fd in y.clients && OwedSecond(y.clients[d.fd]) && PhaseHeader(y.clients[d.fd].phase) == d.header
    ensures !Defers(d.header, d.value) && d.fd !in r.asking && !Parked(r, d.fd)
  {
    hide InStep, Structure, Ordered, TargetsLive, Dormant;
    assert d.fd in y.s.q.prog;
    DeferredInStep(y.s.q, r, d.fd, y.clients[d.fd], d);
  }

  // ----- A schedule request after the program's last close

  /** The answer to a schedule request leaves the client in step exactly when the program
      still exists. After its last close it does not: the server answers -1, for the
      client a promise of a second answer, and holds nobody as waiting. */
  lemma ScheduleAfterLastClose(c: Config, s: State, pid: Pid, cl: Client)
    requires Safe(c, s) && TidsOk(s.q) && cl.phase == Sent(ESchedule(pid)) && InStep(s.q, pid, cl)
    requires Enabled(s.q, ESchedule(pid))
    ensures var r := Schedule(c, s, pid);
            && |r.sent| == |s.sent| + 1
            && (InStep(r.q, pid, Client(First(SCHEDULE_NEXT), [r.sent[|s.sent|]])) <==> pid in s.q.prog)
            && (pid !in s.q.prog ==>
                  r.q == s.q && AfterAnswer(First(SCHEDULE_NEXT), r.sent[|s.sent|].value) == Second(SCHEDULE_NEXT)
                      && pid !in r.q.asking)
  {
    hide Safe, Structure, Ordered, TargetsLive, Dormant;
    SafeQueues(c, s);
    var r := Schedule(c, s, pid);
    if pid in s.q.prog {
      var value := ScheduleAnswers(c, s, pid);
      OwnInStep(s, r, pid, cl, SCHEDULE_NEXT, [], value);
      assert s.sent + [] == s.sent;
    }
  }

  lemma {:induction false} ForNobody(pid: Pid, added: seq<Response>, rest: seq<Response>)
    requires (forall d :: d in added ==> d.fd != pid) && For(pid, rest) == []
    ensures For(pid, added + rest) == []
  {
    if added == [] {
      assert added + rest == rest;
    } else {
      assert added[0] in added;
      assert (added + rest)[1..] == added[1..] + rest;
      ForNobody(pid, added[1..], rest);
    }
  }

  lemma StillUnanswered(pid: Pid, before: seq<Response>, added: seq<Response>, end: seq<Response>)
    requires before + added <= end && (forall d :: d in added ==> d.fd != pid)
        && For(pid, end[|before + added|..]) == []
    ensures before <= end && For(pid, end[|before|..]) == []
  {
    assert end[|before|..] == added + end[|before + added|..];
    ForNobody(pid, added, end[|before + added|..]);
  }

  lemma NothingSent(pid: Pid, sent: seq<Response>)
    ensures For(pid, sent[|sent|..]) == []
  {}

  lemma DistributeOthers(c: Config, s: State, stranger: Pid) returns (added: seq<Response>)
    requires Structure(s.q) && stranger !in s.q.prog
    ensures Distribute(c, s).sent == s.sent + added && forall d :: d in added ==> d.fd != stranger
  {
    hide Structure;
    var i := FirstRunnable(s.q.newList, s.q.prog);
    if s.q.newList != [] {
      NewOf(s.q, if i < |s.q.newList| then i else 0);
    }
    added := Distribute(c, s).sent[|s.sent|..];
  }

  lemma CloseOthers(c: Config, s: State, pid: Pid, tid: int, stranger: Pid) returns (added: seq<Response>)
    requires QueueInv(c, s.q) && Enabled(s.q, EClose(pid, tid)) && stranger !in s.q.prog && pid != stranger
    ensures var r := Close(c, s, pid, tid); r.sent == s.sent + added && forall d :: d in added ==> d.fd != stranger
  {
    hide Structure, Ordered, TargetsLive, Dormant, AllAlive, Exit, Reap, Distribute;
    var e := s.q.prog[pid].exec.value;
    added := [Response(pid, if e.tid == tid then 1 else -1, CLOSE)];
    if e.tid == tid {
      ExecOf(s.q, pid);
      ExecPid(s.q, e);
      var s1 := Exit(c, s, e);
      ExitKeeps(c, s, e);
      ExitStatus(c, s, e);
      ReapKeeps(s1, pid);
      ReapStatus(s1, pid);
      var more := DistributeOthers(c, Reap(s1, pid), stranger);
      added := more + added;
    }
  }

  lemma StepOthers(c: Config, s: State, ev: Event, pid: Pid) returns (added: seq<Response>)
    requires QueueInv(c, s.q) && Enabled(s.q, ev) && pid !in s.q.prog && (ev.EMetrics? || ev.pid != pid)
    ensures var r := Step(c, s, ev);
            r.sent == s.sent + added && (forall d :: d in added ==> d.fd != pid) && pid !in r.q.prog
  {
    hide QueueInv, Close, Distribute;
    if ev.EClose? {
      added := CloseOthers(c, s, ev.pid, ev.tid, pid);
    } else {
      added := Step(c, s, ev).sent[|s.sent|..];
    }
    if ev.EConnect? {
      assert pid !in Connect(s, ev.pid).q.prog;
    } else {
      NoNewProgram(c, s, ev);
    }
  }

  /** No request of the other programs is ever answered to a program that is gone. */
  lemma {:induction false} GoneNeverAnswered(c: Config, s: State, pid: Pid, evs: seq<Event>)
    requires GoodConfig(c) && Safe(c, s) && Legal(c, s, evs) && pid !in s.q.prog
    requires forall ev :: ev in evs ==> ev.EMetrics? || ev.pid != pid
    ensures var r := Run(c, s, evs);
            pid !in r.q.prog && s.sent <= r.sent && For(pid, r.sent[|s.sent|..]) == []
    decreases |evs|
  {
    hide Safe, Step, Enabled, For;
    if evs != [] {
      assert evs[0] in evs;
      var r := Step(c, s, evs[0]);
      SafeQueues(c, s);
      StepSafe(c, s, evs[0]);
      var added := StepOthers(c, s, evs[0], pid);
      GoneNeverAnswered(c, r, pid, evs[1..]);
      StillUnanswered(pid, s.sent, added, Run(c, r, evs[1..]).sent);
    } else {
      NothingSent(pid, s.sent);
    }
  }
}

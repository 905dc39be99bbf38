/** Semaphore accounting and fairness over whole runs. */
module Semaphores {
  import opened Lists
  import opened Model
  import opened Ops
  import opened Invariant
  import opened Runs

  /** What happened to one semaphore during a run: signals, signals lost to the
      maximum, waits that got through, and the threads that entered and left its
      queue, in order. */
  datatype Tally = Tally(signals: int, clamped: int, completed: int, arrivals: seq<ThreadId>, departures: seq<ThreadId>)

  function Plus(a: Tally, b: Tally): Tally {
    Tally(a.signals + b.signals, a.clamped + b.clamped, a.completed + b.completed,
          a.arrivals + b.arrivals, a.departures + b.departures)
  }

  ghost function Happened(q: Queues, ev: Event, i: nat): Tally
    requires Enabled(q, ev) && i < |q.sems|
  {
    var m := q.sems[i];
    if ev.EWait? && FindSem(q.sems, ev.id) == i then
      if m.value > 0 then Tally(0, 0, 1, [], []) else Tally(0, 0, 0, [ThreadId(ev.pid, ev.tid)], [])
    else if ev.ESignal? && FindSem(q.sems, ev.id) == i then
      if m.value == m.max then Tally(1, 1, 0, [], [])
      else if m.value < 0 && m.queue != [] then Tally(1, 0, 1, [], [m.queue[0]])
      else Tally(1, 0, 0, [], [])
    else
      Tally(0, 0, 0, [], [])
  }

  ghost function Tallied(c: Config, s: State, evs: seq<Event>, i: nat): Tally
    requires Legal(c, s, evs)
    decreases |evs|
  {
    if evs == [] || i >= |s.q.sems| then Tally(0, 0, 0, [], [])
    else Plus(Happened(s.q, evs[0], i), Tallied(c, Step(c, s, evs[0]), evs[1..], i))
  }

  /** The other requests leave the semaphores alone. */
  lemma OnlyWaitAndSignal(c: Config, s: State, ev: Event)
    requires Enabled(s.q, ev) && !ev.EWait? && !ev.ESignal?
    ensures Step(c, s, ev).q.sems == s.q.sems
  {}

  lemma SemOf(sems: seq<Semaphore>, i: nat)
    requires SemValues(sems) && i < |sems|
    ensures SemValue(sems[i])
  {}

  /** What a wait does to the semaphores. */
  lemma WaitSems(c: Config, s: State, ev: Event)
    requires Enabled(s.q, ev) && ev.EWait?
    ensures var j := FindSem(s.q.sems, ev.id);
            var m := s.q.sems[j];
            Step(c, s, ev).q.sems == s.q.sems[j := m.(value := m.value - 1,
                                                      queue := if m.value > 0 then m.queue
                                                          else m.queue + [ThreadId(ev.pid, ev.tid)])]
  {
    hide Mark, WithoutExec;
  }

  /** What a signal does to them. */
  lemma SignalSems(c: Config, s: State, ev: Event)
    requires Enabled(s.q, ev) && ev.ESignal?
    ensures var j := FindSem(s.q.sems, ev.id);
            var m := s.q.sems[j];
            Step(c, s, ev).q.sems == s.q.sems[j := m.(value := Raised(m),
                                                      queue := if Raised(m) <= 0 && m.queue != [] then m.queue[1..]
                                                          else m.queue)]
  {
    hide Mark, WithReady;
    var m := s.q.sems[FindSem(s.q.sems, ev.id)];
    if m.queue != [] {
      assert RemoveAt(m.queue, 0) == m.queue[1..];
    }
  }

  function Positive(v: int): int {
    if v < 0 then 0 else v
  }

  /** One step: the count moves by what happened, and the queue is first in, first out. */
  lemma StepAccounts(c: Config, s: State, ev: Event, i: nat)
    requires SemValues(s.q.sems) && Enabled(s.q, ev) && i < |s.q.sems|
    ensures var r, h := Step(c, s, ev).q, Happened(s.q, ev, i);
            && |r.sems| == |s.q.sems| && r.sems[i].id == s.q.sems[i].id && r.sems[i].max == s.q.sems[i].max
            && Positive(r.sems[i].value) == Positive(s.q.sems[i].value) + h.signals - h.clamped - h.completed
            && s.q.sems[i].queue + h.arrivals == h.departures + r.sems[i].queue
  {
    hide Step, SemValues, FindSem;
    if ev.EWait? {
      WaitSems(c, s, ev);
    } else if ev.ESignal? {
      SignalSems(c, s, ev);
      SemOf(s.q.sems, i);
      if s.q.sems[i].queue != [] {
        assert s.q.sems[i].queue == [s.q.sems[i].queue[0]] + s.q.sems[i].queue[1..];
      }
    } else {
      OnlyWaitAndSignal(c, s, ev);
    }
  }

  lemma {:induction false} RunAccounts(c: Config, s: State, evs: seq<Event>, i: nat)
    requires GoodConfig(c) && Safe(c, s) && Legal(c, s, evs) && i < |s.q.sems|
    ensures var r, h := Run(c, s, evs).q, Tallied(c, s, evs, i);
            && |r.sems| == |s.q.sems| && r.sems[i].id == s.q.sems[i].id && r.sems[i].max == s.q.sems[i].max
            && Positive(r.sems[i].value) == Positive(s.q.sems[i].value) + h.signals - h.clamped - h.completed
            && s.q.sems[i].queue + h.arrivals == h.departures + r.sems[i].queue
    decreases |evs|
  {
    hide Safe, Step, Enabled, Happened, SemValue;
    if evs != [] {
      var next := Step(c, s, evs[0]);
      SafeSems(c, s);
      var h, rest := Happened(s.q, evs[0], i), Tallied(c, next, evs[1..], i);
      StepAccounts(c, s, evs[0], i);
      StepSafe(c, s, evs[0]);
      RunAccounts(c, next, evs[1..], i);
      var q0, q1, q2 := s.q.sems[i].queue, next.q.sems[i].queue, Run(c, s, evs).q.sems[i].queue;
      calc {
        q0 + (h.arrivals + rest.arrivals);
        (q0 + h.arrivals) + rest.arrivals;
        (h.departures + q1) + rest.arrivals;
        h.departures + (q1 + rest.arrivals);
        h.departures + (rest.departures + q2);
        (h.departures + rest.departures) + q2;
      }
    }
  }

  /** From the start of the server: the value never exceeds the maximum, exactly the
      threads that the value owes are blocked, initial value plus signals that counted
      minus waits that got through is what is left, and threads leave the queue in
      exactly the order in which they entered it. */
  lemma SemaphoreAccounting(c: Config, sems: seq<Semaphore>, evs: seq<Event>, i: nat)
    requires GoodConfig(c) && GoodSems(sems) && Legal(c, Init(sems), evs) && i < |sems|
    ensures var r, h := Run(c, Init(sems), evs).q, Tallied(c, Init(sems), evs, i);
            && |r.sems| == |sems|
            && r.sems[i].value <= sems[i].max
            && |r.sems[i].queue| == Positive(-r.sems[i].value)
            && sems[i].value + h.signals - h.clamped - h.completed == Positive(r.sems[i].value)
            && h.completed <= sems[i].value + h.signals
            && h.arrivals == h.departures + r.sems[i].queue
  {
    hide Safe, Run, Legal, Tallied, SemValue;
    InitSafe(c, sems);
    RunAccounts(c, Init(sems), evs, i);
    ReachableSafe(c, sems, evs);
    SafeSems(c, Run(c, Init(sems), evs));
    SemValueOf(Run(c, Init(sems), evs).q.sems[i]);
    TallyCounts(c, Init(sems), evs, i);
  }

  lemma SafeSems(c: Config, s: State)
    requires Safe(c, s)
    ensures SemValues(s.q.sems)
  {}

  lemma SemValueOf(m: Semaphore)
    requires SemValue(m)
    ensures m.value <= m.max && |m.queue| == Positive(-m.value)
  {}

  lemma {:induction false} TallyCounts(c: Config, s: State, evs: seq<Event>, i: nat)
    requires Legal(c, s, evs)
    ensures var h := Tallied(c, s, evs, i); 0 <= h.clamped && 0 <= h.signals && 0 <= h.completed
    decreases |evs|
  {
    if evs != [] && i < |s.q.sems| {
      TallyCounts(c, Step(c, s, evs[0]), evs[1..], i);
    }
  }

  /** A signal that owes a thread wakes the one that has waited longest, and puts it
      at the tail of the ready list of its own program, whichever client signalled. */
  lemma SignalWakesHead(c: Config, s: State, pid: Pid, tid: int, id: string)
    requires QueueInv(c, s.q) && Enabled(s.q, ESignal(pid, tid, id))
    ensures var i, r := FindSem(s.q.sems, id), Step(c, s, ESignal(pid, tid, id)).q;
            s.q.sems[i].value < 0 ==>
              && s.q.sems[i].queue != []
              && var k := s.q.sems[i].queue[0];
              && k.pid in s.q.prog
                  && r.prog == s.q.prog[k.pid := s.q.prog[k.pid].(ready := s.q.prog[k.pid].ready + [k])]
              && r.sems[i].queue == s.q.sems[i].queue[1..]
  {
    hide Structure, Ordered, TargetsLive, Dormant, AskingIdle, AllAlive, Admission, FindSem, Mark, Waiting;
    var i := FindSem(s.q.sems, id);
    SemOf(s.q.sems, i);
    if s.q.sems[i].value < 0 {
      QueueHead(s.q, i);
      SignalSems(c, s, ESignal(pid, tid, id));
    }
  }
}

/** Join waits: never a cycle, and joins alone never stop a program. */
module Joins {
  import opened Lists
  import opened Model
  import opened Ops
  import opened Invariant
  import opened Timeline
  import opened Runs
  import opened Admissions

  /** `a` waits for `b`. */
  ghost predicate WaitsFor(q: Queues, a: ThreadId, b: ThreadId) {
    JoinBlock(a, b) in q.blocked
  }

  /** Each thread of the chain waits for the next one. */
  ghost predicate Chain(q: Queues, ks: seq<ThreadId>) {
    ks != [] && forall i :: 0 <= i < |ks| - 1 ==> WaitsFor(q, ks[i], ks[i + 1])
  }

  /** A blocked thread's target blocked later than it did, if it blocked at all. */
  lemma {:induction false} LaterTarget(bs: seq<Block>, i: nat, j: nat)
    requires Ordered(bs) && i < |bs| && j < |bs| && bs[i].JoinBlock? && bs[j].JoinBlock?
    requires bs[i].blocking == bs[j].blocked
    ensures i < j
  {
    var front, last := bs[..|bs| - 1], |bs| - 1;
    if j < last {
      JoinIdsAt(front, j);
      if i < last {
        LaterTarget(front, i, j);
      }
    }
  }

  lemma JoinIdsAt(bs: seq<Block>, i: nat)
    requires i < |bs| && bs[i].JoinBlock?
    ensures bs[i].blocked in JoinIds(bs)
  {
    JoinIdsMembers(bs);
    assert bs[i] in bs;
  }

  lemma {:induction false} SameBlock(bs: seq<Block>, i: nat, j: nat)
    requires NoDup(JoinIds(bs)) && i <= j < |bs| && bs[i].JoinBlock? && bs[j].JoinBlock?
        && bs[i].blocked == bs[j].blocked
    ensures i == j
  {
    var front, last := bs[..|bs| - 1], |bs| - 1;
    JoinIdsFront(bs);
    if i < last {
      JoinIdsAt(front, i);
      if j < last {
        SameBlock(front, i, j);
      }
    }
  }

  /** Along a chain the blocks move strictly forward in BLOCKED. */
  lemma {:induction false} ChainForward(q: Queues, ks: seq<ThreadId>, i: nat, j: nat)
    requires Structure(q) && Ordered(q.blocked) && Chain(q, ks) && |ks| >= 2
    requires i < |q.blocked| && q.blocked[i] == JoinBlock(ks[0], ks[1])
    requires j < |q.blocked| && q.blocked[j] == JoinBlock(ks[|ks| - 2], ks[|ks| - 1])
    ensures i <= j
  {
    if |ks| == 2 {
      SameBlock(q.blocked, if i <= j then i else j, if i <= j then j else i);
    } else {
      assert WaitsFor(q, ks[1], ks[2]);
      var m :| 0 <= m < |q.blocked| && q.blocked[m] == JoinBlock(ks[1], ks[2]);
      LaterTarget(q.blocked, i, m);
      var rest := ks[1..];
      forall n | 0 <= n < |rest| - 1 ensures WaitsFor(q, rest[n], rest[n + 1]) {
        assert WaitsFor(q, ks[n + 1], ks[n + 2]);
      }
      ChainForward(q, rest, m, j);
    }
  }

  /** No thread waits, directly or through others, for itself. */
  lemma NoCycle(c: Config, q: Queues, ks: seq<ThreadId>)
    requires QueueInv(c, q) && Chain(q, ks) && |ks| >= 2
    ensures ks[0] != ks[|ks| - 1]
  {
    if ks[0] == ks[|ks| - 1] {
      assert WaitsFor(q, ks[0], ks[1]) && WaitsFor(q, ks[|ks| - 2], ks[|ks| - 1]);
      var i :| 0 <= i < |q.blocked| && q.blocked[i] == JoinBlock(ks[0], ks[1]);
      var j :| 0 <= j < |q.blocked| && q.blocked[j] == JoinBlock(ks[|ks| - 2], ks[|ks| - 1]);
      ChainForward(q, ks, i, j);
      LaterTarget(q.blocked, j, i);
      assert false;
    }
  }

  lemma BlockOf(q: Queues, k: ThreadId) returns (i: nat)
    requires Structure(q) && k in q.place && q.place[k] == Joined
    ensures i < |q.blocked| && q.blocked[i].JoinBlock? && q.blocked[i].blocked == k
  {
    JoinIdsMembers(q.blocked);
    var b :| b in q.blocked && b.JoinBlock? && b.blocked == k;
    i :| 0 <= i < |q.blocked| && q.blocked[i] == b;
  }

  /** Every chain of join waits ends, inside the program, at a live thread that is
      not itself waiting on a join. */
  lemma {:induction false} ChainEnds(c: Config, q: Queues, k: ThreadId, from: nat) returns (ks: seq<ThreadId>)
    requires QueueInv(c, q) && k in q.place && q.place[k] != Exited
    requires forall i :: 0 <= i < from && i < |q.blocked| && q.blocked[i].JoinBlock? ==> q.blocked[i].blocked != k
    ensures Chain(q, ks) && ks[0] == k
    ensures var end := ks[|ks| - 1];
            end in q.place && end.pid == k.pid && q.place[end] != Joined && q.place[end] != Exited
    decreases |q.blocked| - from
  {
    hide Structure, AllAlive, Admission, Dormant, AskingIdle, SemValues;
    if q.place[k] != Joined {
      ks := [k];
    } else {
      var i := BlockOf(q, k);
      var b := q.blocked[i];
      assert b in q.blocked;
      forall j | 0 <= j < i + 1 && j < |q.blocked| && q.blocked[j].JoinBlock?
        ensures q.blocked[j].blocked != b.blocking
      {
        if q.blocked[j].blocked == b.blocking {
          LaterTarget(q.blocked, i, j);
        }
      }
      var rest := ChainEnds(c, q, b.blocking, i + 1);
      ks := [k] + rest;
      assert WaitsFor(q, k, b.blocking) && b == JoinBlock(k, b.blocking);
      forall n | 0 <= n < |ks| - 1 ensures WaitsFor(q, ks[n], ks[n + 1]) {
        assert n > 0 ==> WaitsFor(q, rest[n - 1], rest[n]);
      }
    }
  }

  /** Joins alone never deadlock a program: if it is executing and none of its
      threads is blocked on a semaphore, one of them is in NEW, READY or EXEC. */
  lemma JoinsNeverDeadlock(c: Config, q: Queues, pid: Pid)
    requires QueueInv(c, q) && pid in q.prog && q.prog[pid].executing
    requires forall k :: k in q.place && k.pid == pid ==> !q.place[k].Queued?
    ensures exists k :: k in q.place && k.pid == pid && q.place[k] in {New, Ready, Exec}
  {
    assert Alive(q, pid);
    var k :| k in q.place && k.pid == pid && q.place[k] != Exited;
    var ks := ChainEnds(c, q, k, 0);
    assert q.place[ks[|ks| - 1]] in {New, Ready, Exec};
  }

  // ----- The order in which a close releases

  /** Blocks held by others keep their order. */
  lemma {:induction false} OthersInOrder(bs: seq<Block>, k: ThreadId, a: Block, b: Block)
    requires Precedes(OtherBlocks(bs, k), a, b)
    ensures Precedes(bs, a, b)
  {
    hide Precedes;
    JoinedOnMembers(bs, k);
    if bs != [] {
      var front, last := bs[..|bs| - 1], bs[|bs| - 1];
      assert bs == front + [last];
      PrecedesInFront(front, last, a, b);
      PrecedesInFront(OtherBlocks(front, k), last, a, b);
      JoinedOnMembers(front, k);
      if last.JoinBlock? && last.blocking == k {
        assert OtherBlocks(bs, k) == OtherBlocks(front, k);
      } else {
        assert OtherBlocks(bs, k) == OtherBlocks(front, k) + [last];
      }
      if Precedes(OtherBlocks(front, k), a, b) {
        OthersInOrder(front, k, a, b);
      }
    } else {
      NonePrecedes<Block>(a, b);
    }
  }

  /** Threads joined on `k` are released in the order in which they blocked. */
  lemma {:induction false} ReleasedInOrder(bs: seq<Block>, k: ThreadId, a: ThreadId, b: ThreadId)
    requires Precedes(JoinedOn(bs, k), a, b)
    ensures Precedes(bs, JoinBlock(a, k), JoinBlock(b, k))
  {
    hide Precedes;
    if bs != [] {
      var front, last := bs[..|bs| - 1], bs[|bs| - 1];
      assert bs == front + [last];
      PrecedesInFront(front, last, JoinBlock(a, k), JoinBlock(b, k));
      JoinedOnMembers(front, k);
      if last.JoinBlock? && last.blocking == k {
        PrecedesInFront(JoinedOn(front, k), last.blocked, a, b);
        assert last == JoinBlock(last.blocked, k);
      } else {
        assert JoinedOn(bs, k) == JoinedOn(front, k);
      }
      if Precedes(JoinedOn(front, k), a, b) {
        ReleasedInOrder(front, k, a, b);
      }
    } else {
      NonePrecedes<ThreadId>(a, b);
    }
  }

  /** What the exit step of a close does to BLOCKED and to the program's ready list. */
  lemma ExitReleases(c: Config, s: State, e: ThreadId) returns (released: seq<ThreadId>)
    requires QueueInv(c, s.q) && e in s.q.place && s.q.place[e] == Exec
    ensures var r := Exit(c, s, e).q;
            && e.pid in s.q.prog && e.pid in r.prog && r.prog[e.pid].ready == s.q.prog[e.pid].ready + released
            && Released(s.q, r, e, released)
            && (forall j :: j in released ==> j in r.place && j.pid == e.pid && r.place[j] == Ready)
  {
    hide Structure, Precedes, Ordered, Dormant;
    released := JoinedOn(s.q.blocked, e);
    JoinedPlaces(s.q, e);
    ReleaseSplits(s.q.blocked, e);
    JoinedOnMembers(s.q.blocked, e);
    ReleaseJoinsCore(s.q, e);
    forall a, b | Precedes(released, a, b) ensures Precedes(s.q.blocked, JoinBlock(a, e), JoinBlock(b, e)) {
      ReleasedInOrder(s.q.blocked, e, a, b);
    }
    forall a, b | Precedes(OtherBlocks(s.q.blocked, e), a, b) ensures Precedes(s.q.blocked, a, b) {
      OthersInOrder(s.q.blocked, e, a, b);
    }
  }

  /** Exactly the threads joined on `e` are released, each once, in the order in which they
      blocked; the blocks left are exactly those held by others, in the order they had. */
  ghost predicate Released(q: Queues, r: Queues, e: ThreadId, released: seq<ThreadId>) {
    && NoDup(released) && (forall j :: j in released <==> WaitsFor(q, j, e))
    && (forall a, b :: Precedes(released, a, b) ==> Precedes(q.blocked, JoinBlock(a, e), JoinBlock(b, e)))
    && (forall b :: b in r.blocked <==> b in q.blocked && !(b.JoinBlock? && b.blocking == e))
    && (forall a, b :: Precedes(r.blocked, a, b) ==> Precedes(q.blocked, a, b))
  }

  /** The admission step leaves BLOCKED alone, and adds to the ready list of an executing
      program that is not asking at most the thread it admits. */
  lemma DistributeReady(c: Config, s: State, pid: Pid)
    requires Structure(s.q) && (pid in s.q.prog ==> s.q.prog[pid].executing && pid !in s.q.asking)
    ensures var q, r := s.q, Distribute(c, s).q;
            && r.blocked == q.blocked && (pid in r.prog <==> pid in q.prog)
            && (pid in q.prog ==> r.prog[pid].ready == q.prog[pid].ready + AdmittedTo(q, pid))
  {
    hide Structure;
    if s.q.newList != [] {
      NewOf(s.q, Admitted(s.q));
    }
    if pid in s.q.prog {
      assert s.q.prog[pid].ready + [] == s.q.prog[pid].ready;
    }
  }

  /** The thread that a close admits, if it is the program's. */
  function AdmittedTo(q: Queues, pid: Pid): seq<ThreadId> {
    if q.newList != [] && q.newList[Admitted(q)].pid == pid then [q.newList[Admitted(q)]] else []
  }

  /** A close that ends a thread: the threads joined on it go to the tail of ready, in the
      order in which they blocked, and behind them at most the one thread that the close
      admits. When the program ends with the thread, nobody was joined on it. */
  lemma CloseReleases(c: Config, s: State, pid: Pid, tid: int) returns (released: seq<ThreadId>)
    requires QueueInv(c, s.q) && Enabled(s.q, EClose(pid, tid)) && s.q.prog[pid].exec.value.tid == tid
    ensures var q, r, e := s.q, Step(c, s, EClose(pid, tid)).q, s.q.prog[pid].exec.value;
            && Released(q, r, e, released)
            && (pid in r.prog ==> r.prog[pid].ready == q.prog[pid].ready + released + AdmittedTo(q, pid))
            && (pid !in r.prog ==> released == [])
  {
    hide Structure, Ordered, TargetsLive, Dormant, AllAlive, Exit, Distribute, Admitted;
    var e := s.q.prog[pid].exec.value;
    ExecOf(s.q, pid);
    released := ExitReleases(c, s, e);
    var s1 := Exit(c, s, e);
    var s2 := Reap(s1, pid);
    ExitKeeps(c, s, e);
    ReapKeeps(s1, pid);
    BeforeAdmission(c, s, e);
    DistributeReady(c, s2, pid);
    if released != [] {
      HasFirst(released);
    }
  }

  lemma HasFirst(l: seq<ThreadId>)
    requires l != []
    ensures l[0] in l
  {}

  // ----- Over every run

  /** In every reachable state join waits form no cycle, nobody is joined on a thread
      that has exited or on one of another program, and a program that joins alone have
      blocked has a thread in NEW, READY or EXEC. */
  lemma JoinsAlwaysSafe(c: Config, sems: seq<Semaphore>, evs: seq<Event>)
    requires GoodConfig(c) && GoodSems(sems) && Legal(c, Init(sems), evs)
    ensures var q := Run(c, Init(sems), evs).q;
            && (forall ks :: Chain(q, ks) && |ks| >= 2 ==> ks[0] != ks[|ks| - 1])
            && (forall a, b :: WaitsFor(q, a, b) ==> b in q.place && q.place[b] != Exited && a.pid == b.pid)
            && (forall p ::
                  && p in q.prog && q.prog[p].executing
                  && (forall k :: k in q.place && k.pid == p ==> !q.place[k].Queued?) ==>
                  exists k :: k in q.place && k.pid == p && q.place[k] in {New, Ready, Exec})
  {
    hide Structure, Ordered, Dormant, AllAlive, Run, Legal, TimeInv;
    ReachableSafe(c, sems, evs);
    var q := Run(c, Init(sems), evs).q;
    forall ks | Chain(q, ks) && |ks| >= 2 ensures ks[0] != ks[|ks| - 1] {
      NoCycle(c, q, ks);
    }
    forall p | p in q.prog && q.prog[p].executing && (forall k :: k in q.place && k.pid == p ==> !q.place[k].Queued?)
      ensures exists k :: k in q.place && k.pid == p && q.place[k] in {New, Ready, Exec}
    {
      JoinsNeverDeadlock(c, q, p);
    }
  }

  /** The same in every reachable state. */
  lemma CloseReleasesAlways(c: Config, sems: seq<Semaphore>, evs: seq<Event>, pid: Pid,
      tid: int) returns (released: seq<ThreadId>)
    requires GoodConfig(c) && GoodSems(sems) && Legal(c, Init(sems), evs)
    requires var q := Run(c, Init(sems), evs).q;
             Enabled(q, EClose(pid, tid)) && q.prog[pid].exec.value.tid == tid
    ensures var s := Run(c, Init(sems), evs);
            var q, r, e := s.q, Step(c, s, EClose(pid, tid)).q, s.q.prog[pid].exec.value;
            && Released(q, r, e, released)
            && (pid in r.prog ==> r.prog[pid].ready == q.prog[pid].ready + released + AdmittedTo(q, pid))
            && (pid !in r.prog ==> released == [])
  {
    hide Run, Legal, QueueInv, TimeInv, Released, Step, AdmittedTo;
    ReachableSafe(c, sems, evs);
    released := CloseReleases(c, Run(c, Init(sems), evs), pid, tid);
  }

  /** In every reachable state: a join on a thread that the lookup finds blocks the running thread
      on it, at the tail of BLOCKED, if and only if that thread is not in EXIT, and otherwise
      puts the running thread at the tail of its ready list. */
  lemma JoinBlocksIff(c: Config, sems: seq<Semaphore>, evs: seq<Event>, pid: Pid, tid: int)
    requires GoodConfig(c) && GoodSems(sems) && Legal(c, Init(sems), evs)
    requires Enabled(Run(c, Init(sems), evs).q, EJoin(pid, tid))
    ensures var q, target := Run(c, Init(sems), evs).q, ThreadId(pid, tid);
            var r, e, block := Step(c, Run(c, Init(sems), evs), EJoin(pid, tid)).q, q.prog[pid].exec.value,
                               JoinBlock(q.prog[pid].exec.value, target);
            && target in q.place && e in r.place && pid in r.prog && r.prog[pid].exec == None
            && (block in r.blocked <==> q.place[target] != Exited)
            && (r.place[e] == Ready <==> q.place[target] == Exited)
            && r.blocked == (if q.place[target] == Exited then q.blocked else q.blocked + [block])
            && r.prog[pid].ready == (if q.place[target] == Exited then q.prog[pid].ready + [e] else q.prog[pid].ready)
  {
    hide Run, Legal, TimeInv, Ordered, TargetsLive, Dormant, AllAlive;
    ReachableSafe(c, sems, evs);
    JoinBlocks(c, Run(c, Init(sems), evs), pid, tid);
  }

  lemma JoinBlocks(c: Config, s: State, pid: Pid, tid: int)
    requires Structure(s.q) && Enabled(s.q, EJoin(pid, tid))
    ensures var q, target, r, e := s.q, ThreadId(pid, tid), Join(c, s, pid, tid).q, s.q.prog[pid].exec.value;
            var block := JoinBlock(e, target);
            && target in q.place && e in r.place && pid in r.prog && r.prog[pid].exec == None
            && (block in r.blocked <==> q.place[target] != Exited)
            && (r.place[e] == Ready <==> q.place[target] == Exited)
            && r.blocked == (if q.place[target] == Exited then q.blocked else q.blocked + [block])
            && r.prog[pid].ready == (if q.place[target] == Exited then q.prog[pid].ready + [e] else q.prog[pid].ready)
  {
    hide Structure;
    var e := s.q.prog[pid].exec.value;
    ExecOf(s.q, pid);
    FoundThread(s.q, pid, tid);
    NotJoined(s.q, e);
    JoinIdsMembers(s.q.blocked);
  }
}

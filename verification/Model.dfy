/** The scheduler's queues, and the moves its operations are made of. A pointer
    to a thread is its (pid, tid), a pointer to a program its pid; what they point
    to is looked up in a map, so every list that holds a thread sees its updates. */
module Model {
  import opened Lists
  import opened Timespecs

  type Pid = int

  datatype ThreadId = ThreadId(pid: Pid, tid: int)

  datatype Thread = Thread(start: Timespec, estimate: real, execs: seq<Interval>, readys: seq<Interval>)

  datatype Program = Program(ready: seq<ThreadId>, exec: Option<ThreadId>, executing: bool)

  datatype Semaphore = Semaphore(id: string, max: int, value: int, queue: seq<ThreadId>)

  datatype Block = JoinBlock(blocked: ThreadId, blocking: ThreadId) | SemBlock(sem: nat)

  /** Which list a thread is in. The server keeps no such field: it is the
      bookkeeping against which the lists are proved to agree. */
  datatype Place = New | Ready | Exec | Queued(sem: nat) | Joined | Exited

  datatype Queues = Queues(
    programs: seq<Pid>,
    prog: map<Pid, Program>,
    newList: seq<ThreadId>,
    exitList: seq<ThreadId>,
    blocked: seq<Block>,
    asking: seq<Pid>,
    sems: seq<Semaphore>,
    place: map<ThreadId, Place>)

  // ----- What agreement between the lists and the places means

  /** The blocked threads of the join blocks in BLOCKED, in order. */
  function JoinIds(bs: seq<Block>): seq<ThreadId> {
    if bs == [] then []
    else
      var b := bs[|bs| - 1];
      JoinIds(bs[..|bs| - 1]) + (if b.JoinBlock? then [b.blocked] else [])
  }

  /** The semaphores wrapped in BLOCKED, in order. */
  function SemIds(bs: seq<Block>): seq<nat> {
    if bs == [] then []
    else
      var b := bs[|bs| - 1];
      SemIds(bs[..|bs| - 1]) + (if b.SemBlock? then [b.sem] else [])
  }

  ghost predicate Holds(l: seq<ThreadId>, place: map<ThreadId, Place>, w: Place) {
    NoDup(l) && forall k :: k in l <==> k in place && place[k] == w
  }

  ghost predicate HoldsOf(l: seq<ThreadId>, place: map<ThreadId, Place>, w: Place, pid: Pid) {
    NoDup(l) && forall k :: k in l <==> k in place && place[k] == w && k.pid == pid
  }

  ghost predicate ProgramHolds(p: Program, place: map<ThreadId, Place>, pid: Pid) {
    && HoldsOf(p.ready, place, Ready, pid)
    && (forall k :: p.exec == Some(k) <==> k in place && place[k] == Exec && k.pid == pid)
  }

  ghost predicate ProgramsHold(prog: map<Pid, Program>, place: map<ThreadId, Place>) {
    forall p :: p in prog ==> ProgramHolds(prog[p], place, p)
  }

  ghost predicate SemsHold(sems: seq<Semaphore>, place: map<ThreadId, Place>) {
    && (forall i: nat :: i < |sems| ==> Holds(sems[i].queue, place, Queued(i)))
    && (forall k :: k in place && place[k].Queued? ==> place[k].sem < |sems|)
  }

  /** Every thread is in the one list its place names, once, and under a live
      program; every live program is listed once; BLOCKED wraps each semaphore once. */
  ghost predicate Structure(q: Queues) {
    && NoDup(q.programs) && (forall p :: p in q.programs <==> p in q.prog)
    && Holds(q.newList, q.place, New)
    && Holds(q.exitList, q.place, Exited)
    && Holds(JoinIds(q.blocked), q.place, Joined)
    && ProgramsHold(q.prog, q.place)
    && SemsHold(q.sems, q.place)
    && (forall k :: k in q.place ==> k.pid in q.prog)
    && NoDup(SemIds(q.blocked)) && (forall i: nat :: i in SemIds(q.blocked) <==> i < |q.sems|)
  }

  // ----- Moves: each takes one thread (or the threads joined on one) from its list to another

  function FreshToNew(q: Queues, k: ThreadId): Queues {
    q.(newList := q.newList + [k], place := q.place[k := New])
  }

  function FreshToReady(q: Queues, k: ThreadId): Queues {
    q.(prog := WithReady(q.prog, k), place := q.place[k := Ready])
  }

  function FreshToExec(q: Queues, k: ThreadId): Queues {
    q.(prog := WithExec(q.prog, k), place := q.place[k := Exec])
  }

  /** `k` at the tail of its program's ready list. (`find_program` never fails
      here: Structure says that every thread's program is live.) */
  function WithReady(prog: map<Pid, Program>, k: ThreadId): map<Pid, Program> {
    if k.pid in prog then prog[k.pid := prog[k.pid].(ready := prog[k.pid].ready + [k])] else prog
  }

  /** `k` in its program's exec slot, and the program executing. */
  function WithExec(prog: map<Pid, Program>, k: ThreadId): map<Pid, Program> {
    if k.pid in prog then prog[k.pid := prog[k.pid].(exec := Some(k), executing := true)] else prog
  }

  function WithoutExec(prog: map<Pid, Program>, pid: Pid): map<Pid, Program> {
    if pid in prog then prog[pid := prog[pid].(exec := None)] else prog
  }

  function ExecToReady(q: Queues, k: ThreadId): Queues {
    q.(prog := WithReady(WithoutExec(q.prog, k.pid), k), place := q.place[k := Ready])
  }

  function ReadyToExec(q: Queues, pid: Pid, i: nat): Queues
    requires pid in q.prog && i < |q.prog[pid].ready|
  {
    var p := q.prog[pid];
    var k := p.ready[i];
    q.(prog := q.prog[pid := p.(ready := RemoveAt(p.ready, i), exec := Some(k))], place := q.place[k := Exec])
  }

  function ExecToJoined(q: Queues, k: ThreadId, target: ThreadId): Queues {
    q.(prog := WithoutExec(q.prog, k.pid), blocked := q.blocked + [JoinBlock(k, target)], place := q.place[k := Joined])
  }

  function ExecToExit(q: Queues, k: ThreadId): Queues {
    q.(prog := WithoutExec(q.prog, k.pid), exitList := q.exitList + [k], place := q.place[k := Exited])
  }

  function ExecToQueue(q: Queues, k: ThreadId, i: nat): Queues
    requires i < |q.sems|
  {
    var m := q.sems[i];
    q.(prog := WithoutExec(q.prog, k.pid), sems := q.sems[i := m.(queue := m.queue + [k])],
        place := q.place[k := Queued(i)])
  }

  function QueueToReady(q: Queues, i: nat): Queues
    requires i < |q.sems| && q.sems[i].queue != []
  {
    var m := q.sems[i];
    var k := m.queue[0];
    q.(prog := WithReady(q.prog, k), sems := q.sems[i := m.(queue := RemoveAt(m.queue, 0))],
        place := q.place[k := Ready])
  }

  function NewToReady(q: Queues, i: nat): Queues
    requires i < |q.newList|
  {
    var k := q.newList[i];
    q.(newList := RemoveAt(q.newList, i), prog := WithReady(q.prog, k), place := q.place[k := Ready])
  }

  function NewToExec(q: Queues, i: nat): Queues
    requires i < |q.newList|
  {
    var k := q.newList[i];
    q.(newList := RemoveAt(q.newList, i), prog := WithExec(q.prog, k), place := q.place[k := Exec])
  }

  /** The threads joined on `k`, in the order in which they blocked. */
  function JoinedOn(bs: seq<Block>, k: ThreadId): seq<ThreadId> {
    if bs == [] then []
    else
      var b := bs[|bs| - 1];
      JoinedOn(bs[..|bs| - 1], k) + (if b.JoinBlock? && b.blocking == k then [b.blocked] else [])
  }

  /** The blocks not held by `k`, in order. */
  function OtherBlocks(bs: seq<Block>, k: ThreadId): seq<Block> {
    if bs == [] then []
    else
      var b := bs[|bs| - 1];
      OtherBlocks(bs[..|bs| - 1], k) + (if b.JoinBlock? && b.blocking == k then [] else [b])
  }

  function AllReady(place: map<ThreadId, Place>, released: seq<ThreadId>): map<ThreadId, Place> {
    map j | j in place :: if j in released then Ready else place[j]
  }

  function ReleaseJoins(q: Queues, k: ThreadId): Queues {
    var released := JoinedOn(q.blocked, k);
    q.(prog := if k.pid in q.prog then q.prog[k.pid := q.prog[k.pid].(ready := q.prog[k.pid].ready + released)]
        else q.prog,
       blocked := OtherBlocks(q.blocked, k),
       place := AllReady(q.place, released))
  }

  /** The threads of other programs, in order. */
  function OthersOf(l: seq<ThreadId>, pid: Pid): seq<ThreadId> {
    if l == [] then []
    else OthersOf(l[..|l| - 1], pid) + (if l[|l| - 1].pid == pid then [] else [l[|l| - 1]])
  }

  function DropProgram(q: Queues, pid: Pid): Queues {
    q.(programs := RemoveFirst(q.programs, pid), prog := q.prog - {pid},
       exitList := OthersOf(q.exitList, pid),
       place := map j | j in q.place && j.pid != pid :: q.place[j])
  }

  // ----- The list lemmas behind the moves

  lemma {:induction false} OthersOfKeeps(l: seq<ThreadId>, pid: Pid)
    requires NoDup(l)
    ensures NoDup(OthersOf(l, pid))
    ensures forall k :: k in OthersOf(l, pid) <==> k in l && k.pid != pid
  {
    if l != [] {
      assert l == l[..|l| - 1] + [l[|l| - 1]];
      OthersOfKeeps(l[..|l| - 1], pid);
    }
  }

  /** Releasing splits the joined threads in two, keeping the order of both parts. */
  lemma {:induction false} ReleaseSplits(bs: seq<Block>, k: ThreadId)
    requires NoDup(JoinIds(bs))
    ensures NoDup(JoinedOn(bs, k)) && NoDup(JoinIds(OtherBlocks(bs, k)))
    ensures forall j :: j in JoinedOn(bs, k) ==> j in JoinIds(bs) && j !in JoinIds(OtherBlocks(bs, k))
    ensures forall j :: j in JoinIds(OtherBlocks(bs, k)) ==> j in JoinIds(bs)
    ensures forall j :: j in JoinIds(bs) ==> j in JoinedOn(bs, k) || j in JoinIds(OtherBlocks(bs, k))
    ensures SemIds(OtherBlocks(bs, k)) == SemIds(bs)
  {
    if bs != [] {
      var front, b := bs[..|bs| - 1], bs[|bs| - 1];
      var held, rest := JoinedOn(front, k), OtherBlocks(front, k);
      JoinIdsFront(bs);
      ReleaseSplits(front, k);
      if b.JoinBlock? && b.blocking == k {
        assert JoinedOn(bs, k) == held + [b.blocked] && OtherBlocks(bs, k) == rest;
        AppendKeeps(held, b.blocked);
      } else {
        assert JoinedOn(bs, k) == held && OtherBlocks(bs, k) == rest + [b] && (rest + [b])[..|rest|] == rest;
        if b.JoinBlock? {
          AppendKeeps(JoinIds(rest), b.blocked);
        }
      }
    }
  }

  lemma JoinIdsFront(bs: seq<Block>)
    requires bs != [] && NoDup(JoinIds(bs))
    ensures var front, b := bs[..|bs| - 1], bs[|bs| - 1];
            NoDup(JoinIds(front)) && (b.JoinBlock? ==> b.blocked !in JoinIds(front))
  {
    var front, b := bs[..|bs| - 1], bs[|bs| - 1];
    assert JoinIds(bs)[..|JoinIds(front)|] == JoinIds(front);
    if b.JoinBlock? {
      assert JoinIds(bs)[|JoinIds(front)|] == b.blocked;
      assert forall i :: 0 <= i < |JoinIds(front)| ==> JoinIds(bs)[i] == JoinIds(front)[i];
    }
  }

  lemma {:induction false} JoinedOnMembers(bs: seq<Block>, k: ThreadId)
    ensures forall j :: j in JoinedOn(bs, k) <==> JoinBlock(j, k) in bs
    ensures forall b :: b in OtherBlocks(bs, k) <==> b in bs && !(b.JoinBlock? && b.blocking == k)
  {
    if bs != [] {
      assert bs == bs[..|bs| - 1] + [bs[|bs| - 1]];
      JoinedOnMembers(bs[..|bs| - 1], k);
    }
  }

  lemma {:induction false} JoinIdsMembers(bs: seq<Block>)
    ensures forall j :: j in JoinIds(bs) <==> exists b :: b in bs && b.JoinBlock? && b.blocked == j
  {
    if bs != [] {
      var front, b := bs[..|bs| - 1], bs[|bs| - 1];
      assert bs == front + [b];
      JoinIdsMembers(front);
      forall j | j in JoinIds(bs) ensures exists b :: b in bs && b.JoinBlock? && b.blocked == j {
        if j in JoinIds(front) {
          var c :| c in front && c.JoinBlock? && c.blocked == j;
          assert c in bs;
        } else {
          assert b in bs && b.blocked == j;
        }
      }
    }
  }

  // ----- One thread entering or leaving one kind of list

  lemma HoldsFrame(l: seq<ThreadId>, place: map<ThreadId, Place>, w: Place, k: ThreadId, v: Place)
    requires Holds(l, place, w) && w != v && (k in place ==> place[k] != w)
    ensures Holds(l, place[k := v], w)
  {}

  lemma HoldsGain(l: seq<ThreadId>, place: map<ThreadId, Place>, w: Place, k: ThreadId)
    requires Holds(l, place, w) && (k in place ==> place[k] != w)
    ensures Holds(l + [k], place[k := w], w)
  {
    AppendKeeps(l, k);
  }

  lemma HoldsLoss(l: seq<ThreadId>, place: map<ThreadId, Place>, w: Place, i: nat, v: Place)
    requires Holds(l, place, w) && i < |l| && v != w
    ensures Holds(RemoveAt(l, i), place[l[i] := v], w)
  {
    RemoveAtKeeps(l, i);
  }

  lemma ProgramsFrame(prog: map<Pid, Program>, place: map<ThreadId, Place>, k: ThreadId, v: Place)
    requires ProgramsHold(prog, place) && v !in {Ready, Exec} && (k in place ==> place[k] !in {Ready, Exec})
    ensures ProgramsHold(prog, place[k := v])
  {}

  lemma ProgramsReadyGain(prog: map<Pid, Program>, place: map<ThreadId, Place>, k: ThreadId)
    requires ProgramsHold(prog, place) && k.pid in prog && (k in place ==> place[k] !in {Ready, Exec})
    ensures ProgramsHold(WithReady(prog, k), place[k := Ready])
  {
    AppendKeeps(prog[k.pid].ready, k);
  }

  lemma ProgramsReadyLoss(prog: map<Pid, Program>, place: map<ThreadId, Place>, pid: Pid, i: nat, v: Place)
    requires ProgramsHold(prog, place) && pid in prog && i < |prog[pid].ready| && v !in {Ready, Exec}
    ensures ProgramsHold(prog[pid := prog[pid].(ready := RemoveAt(prog[pid].ready, i))], place[prog[pid].ready[i] := v])
  {
    RemoveAtKeeps(prog[pid].ready, i);
    assert prog[pid].ready[i] in prog[pid].ready;
  }

  lemma ProgramsExecGain(prog: map<Pid, Program>, place: map<ThreadId, Place>, k: ThreadId, executing: bool)
    requires ProgramsHold(prog, place) && k.pid in prog && (k in place ==> place[k] !in {Ready, Exec})
    requires prog[k.pid].exec == None
    ensures ProgramsHold(prog[k.pid := prog[k.pid].(exec := Some(k), executing := executing)], place[k := Exec])
  {}

  lemma ProgramsExecLoss(prog: map<Pid, Program>, place: map<ThreadId, Place>, k: ThreadId, v: Place)
    requires ProgramsHold(prog, place) && k in place && k.pid in prog && place[k] == Exec && v !in {Ready, Exec}
    ensures ProgramsHold(WithoutExec(prog, k.pid), place[k := v])
  {}

  lemma SemsFrame(sems: seq<Semaphore>, place: map<ThreadId, Place>, k: ThreadId, v: Place)
    requires SemsHold(sems, place) && !v.Queued? && (k in place ==> !place[k].Queued?)
    ensures SemsHold(sems, place[k := v])
  {
    forall i: nat | i < |sems| ensures Holds(sems[i].queue, place[k := v], Queued(i)) {
      HoldsFrame(sems[i].queue, place, Queued(i), k, v);
    }
  }

  lemma SemsGain(sems: seq<Semaphore>, place: map<ThreadId, Place>, k: ThreadId, i: nat)
    requires SemsHold(sems, place) && i < |sems| && (k in place ==> !place[k].Queued?)
    ensures SemsHold(sems[i := sems[i].(queue := sems[i].queue + [k])], place[k := Queued(i)])
  {
    var sems' := sems[i := sems[i].(queue := sems[i].queue + [k])];
    forall j: nat | j < |sems| ensures Holds(sems'[j].queue, place[k := Queued(i)], Queued(j)) {
      assert Holds(sems[j].queue, place, Queued(j));
      if j == i {
        HoldsGain(sems[i].queue, place, Queued(i), k);
      } else {
        HoldsFrame(sems[j].queue, place, Queued(j), k, Queued(i));
      }
    }
  }

  lemma SemsLoss(sems: seq<Semaphore>, place: map<ThreadId, Place>, i: nat, v: Place)
    requires SemsHold(sems, place) && i < |sems| && sems[i].queue != [] && !v.Queued?
    ensures SemsHold(sems[i := sems[i].(queue := RemoveAt(sems[i].queue, 0))], place[sems[i].queue[0] := v])
  {
    var k := sems[i].queue[0];
    var sems' := sems[i := sems[i].(queue := RemoveAt(sems[i].queue, 0))];
    assert k in place && place[k] == Queued(i) by {
      assert Holds(sems[i].queue, place, Queued(i)) && k in sems[i].queue;
    }
    forall j: nat | j < |sems| ensures Holds(sems'[j].queue, place[k := v], Queued(j)) {
      assert Holds(sems[j].queue, place, Queued(j));
      if j == i {
        HoldsLoss(sems[i].queue, place, Queued(i), 0, v);
      } else {
        HoldsFrame(sems[j].queue, place, Queued(j), k, v);
      }
    }
  }

  lemma BulkFrame(l: seq<ThreadId>, place: map<ThreadId, Place>, w: Place, released: seq<ThreadId>)
    requires Holds(l, place, w) && w != Ready && w != Joined
    requires forall j :: j in released ==> j in place && place[j] == Joined
    ensures Holds(l, AllReady(place, released), w)
  {}

  lemma BulkPrograms(prog: map<Pid, Program>, place: map<ThreadId, Place>, released: seq<ThreadId>, pid: Pid)
    requires ProgramsHold(prog, place) && pid in prog && NoDup(released)
    requires forall j :: j in released ==> j in place && place[j] == Joined && j.pid == pid
    ensures ProgramsHold(prog[pid := prog[pid].(ready := prog[pid].ready + released)], AllReady(place, released))
  {
    var prog' := prog[pid := prog[pid].(ready := prog[pid].ready + released)];
    forall p | p in prog' ensures ProgramHolds(prog'[p], AllReady(place, released), p) {
      assert ProgramHolds(prog[p], place, p);
      if p == pid {
        ConcatKeeps(prog[pid].ready, released);
      }
    }
  }

  // ----- Every move keeps the agreement

  lemma FreshToNewKeeps(q: Queues, k: ThreadId)
    requires Structure(q) && k !in q.place && k.pid in q.prog
    ensures Structure(FreshToNew(q, k))
  {
    HoldsGain(q.newList, q.place, New, k);
    HoldsFrame(q.exitList, q.place, Exited, k, New);
    HoldsFrame(JoinIds(q.blocked), q.place, Joined, k, New);
    ProgramsFrame(q.prog, q.place, k, New);
    SemsFrame(q.sems, q.place, k, New);
  }

  lemma FreshToReadyKeeps(q: Queues, k: ThreadId)
    requires Structure(q) && k !in q.place && k.pid in q.prog
    ensures Structure(FreshToReady(q, k))
  {
    HoldsFrame(q.newList, q.place, New, k, Ready);
    HoldsFrame(q.exitList, q.place, Exited, k, Ready);
    HoldsFrame(JoinIds(q.blocked), q.place, Joined, k, Ready);
    ProgramsReadyGain(q.prog, q.place, k);
    SemsFrame(q.sems, q.place, k, Ready);
  }

  lemma FreshToExecKeeps(q: Queues, k: ThreadId)
    requires Structure(q) && k !in q.place && k.pid in q.prog && q.prog[k.pid].exec == None
    ensures Structure(FreshToExec(q, k))
  {
    HoldsFrame(q.newList, q.place, New, k, Exec);
    HoldsFrame(q.exitList, q.place, Exited, k, Exec);
    HoldsFrame(JoinIds(q.blocked), q.place, Joined, k, Exec);
    ProgramsExecGain(q.prog, q.place, k, true);
    SemsFrame(q.sems, q.place, k, Exec);
  }

  lemma ExecToReadyKeeps(q: Queues, k: ThreadId)
    requires Structure(q) && k in q.place && q.place[k] == Exec
    ensures Structure(ExecToReady(q, k))
  {
    HoldsFrame(q.newList, q.place, New, k, Ready);
    HoldsFrame(q.exitList, q.place, Exited, k, Ready);
    HoldsFrame(JoinIds(q.blocked), q.place, Joined, k, Ready);
    ProgramsExecLoss(q.prog, q.place, k, Exited);
    ProgramsReadyGain(WithoutExec(q.prog, k.pid), q.place[k := Exited], k);
    assert q.place[k := Exited][k := Ready] == q.place[k := Ready];
    SemsFrame(q.sems, q.place, k, Ready);
  }

  lemma ExecToExitKeeps(q: Queues, k: ThreadId)
    requires Structure(q) && k in q.place && q.place[k] == Exec
    ensures Structure(ExecToExit(q, k))
  {
    HoldsFrame(q.newList, q.place, New, k, Exited);
    HoldsGain(q.exitList, q.place, Exited, k);
    HoldsFrame(JoinIds(q.blocked), q.place, Joined, k, Exited);
    ProgramsExecLoss(q.prog, q.place, k, Exited);
    SemsFrame(q.sems, q.place, k, Exited);
  }

  lemma ExecToJoinedKeeps(q: Queues, k: ThreadId, target: ThreadId)
    requires Structure(q) && k in q.place && q.place[k] == Exec
    ensures Structure(ExecToJoined(q, k, target))
  {
    var bs := q.blocked + [JoinBlock(k, target)];
    assert bs[..|bs| - 1] == q.blocked;
    HoldsFrame(q.newList, q.place, New, k, Joined);
    HoldsFrame(q.exitList, q.place, Exited, k, Joined);
    HoldsGain(JoinIds(q.blocked), q.place, Joined, k);
    ProgramsExecLoss(q.prog, q.place, k, Joined);
    SemsFrame(q.sems, q.place, k, Joined);
  }

  lemma ExecToQueueKeeps(q: Queues, k: ThreadId, i: nat)
    requires Structure(q) && k in q.place && q.place[k] == Exec && i < |q.sems|
    ensures Structure(ExecToQueue(q, k, i))
  {
    HoldsFrame(q.newList, q.place, New, k, Queued(i));
    HoldsFrame(q.exitList, q.place, Exited, k, Queued(i));
    HoldsFrame(JoinIds(q.blocked), q.place, Joined, k, Queued(i));
    ProgramsExecLoss(q.prog, q.place, k, Queued(i));
    SemsGain(q.sems, q.place, k, i);
  }

  lemma QueueHead(q: Queues, i: nat)
    requires Structure(q) && i < |q.sems| && q.sems[i].queue != []
    ensures var k := q.sems[i].queue[0]; k in q.place && q.place[k] == Queued(i) && k.pid in q.prog
  {
    assert Holds(q.sems[i].queue, q.place, Queued(i)) && q.sems[i].queue[0] in q.sems[i].queue;
  }

  lemma QueueToReadyKeeps(q: Queues, i: nat)
    requires Structure(q) && i < |q.sems| && q.sems[i].queue != [] && q.sems[i].queue[0].pid in q.prog
    ensures Structure(QueueToReady(q, i))
  {
    QueueHead(q, i);
    var k := q.sems[i].queue[0];
    HoldsFrame(q.newList, q.place, New, k, Ready);
    HoldsFrame(q.exitList, q.place, Exited, k, Ready);
    HoldsFrame(JoinIds(q.blocked), q.place, Joined, k, Ready);
    ProgramsReadyGain(q.prog, q.place, k);
    SemsLoss(q.sems, q.place, i, Ready);
  }

  lemma ReadyToExecKeeps(q: Queues, pid: Pid, i: nat)
    requires Structure(q) && pid in q.prog && i < |q.prog[pid].ready| && q.prog[pid].exec == None
    ensures Structure(ReadyToExec(q, pid, i))
  {
    hide ProgramsHold, SemsHold, RemoveAt;
    var k := q.prog[pid].ready[i];
    ProgramsExchange(q.prog, q.place, pid, i);
    HoldsFrame(q.newList, q.place, New, k, Exec);
    HoldsFrame(q.exitList, q.place, Exited, k, Exec);
    HoldsFrame(JoinIds(q.blocked), q.place, Joined, k, Exec);
    SemsFrame(q.sems, q.place, k, Exec);
  }

  /** A ready thread moves to the empty exec slot. */
  lemma ProgramsExchange(prog: map<Pid, Program>, place: map<ThreadId, Place>, pid: Pid, i: nat)
    requires ProgramsHold(prog, place) && pid in prog && i < |prog[pid].ready| && prog[pid].exec == None
    ensures var p, k := prog[pid], prog[pid].ready[i];
            && k in place && place[k] == Ready && k.pid == pid
            && ProgramsHold(prog[pid := p.(ready := RemoveAt(p.ready, i), exec := Some(k))], place[k := Exec])
  {
    var p, k := prog[pid], prog[pid].ready[i];
    assert k in p.ready && ProgramHolds(p, place, pid);
    hide ProgramHolds, RemoveAt;
    ProgramsReadyLoss(prog, place, pid, i, Exited);
    var without := prog[pid := p.(ready := RemoveAt(p.ready, i))];
    ProgramsExecGain(without, place[k := Exited], k, p.executing);
    assert place[k := Exited][k := Exec] == place[k := Exec];
    assert without[pid := without[pid].(exec := Some(k), executing := p.executing)]
        == prog[pid := p.(ready := RemoveAt(p.ready, i), exec := Some(k))];
  }

  lemma NewToReadyKeeps(q: Queues, i: nat)
    requires Structure(q) && i < |q.newList| && q.newList[i].pid in q.prog
    ensures Structure(NewToReady(q, i))
  {
    var k := q.newList[i];
    assert k in q.newList;
    HoldsLoss(q.newList, q.place, New, i, Ready);
    HoldsFrame(q.exitList, q.place, Exited, k, Ready);
    HoldsFrame(JoinIds(q.blocked), q.place, Joined, k, Ready);
    ProgramsReadyGain(q.prog, q.place, k);
    SemsFrame(q.sems, q.place, k, Ready);
  }

  lemma NewToExecKeeps(q: Queues, i: nat)
    requires Structure(q) && i < |q.newList| && q.newList[i].pid in q.prog && q.prog[q.newList[i].pid].exec == None
    ensures Structure(NewToExec(q, i))
  {
    var k := q.newList[i];
    assert k in q.newList;
    HoldsLoss(q.newList, q.place, New, i, Exec);
    HoldsFrame(q.exitList, q.place, Exited, k, Exec);
    HoldsFrame(JoinIds(q.blocked), q.place, Joined, k, Exec);
    ProgramsExecGain(q.prog, q.place, k, true);
    SemsFrame(q.sems, q.place, k, Exec);
  }

  lemma ReleaseJoinsKeeps(q: Queues, k: ThreadId)
    requires Structure(q) && k.pid in q.prog
    requires forall j :: j in JoinedOn(q.blocked, k) ==> j.pid == k.pid
    ensures Structure(ReleaseJoins(q, k))
  {
    var r := ReleaseJoins(q, k);
    var released := JoinedOn(q.blocked, k);
    ReleaseSplits(q.blocked, k);
    BulkFrame(q.newList, q.place, New, released);
    BulkFrame(q.exitList, q.place, Exited, released);
    BulkPrograms(q.prog, q.place, released, k.pid);
    forall i: nat | i < |q.sems| ensures Holds(q.sems[i].queue, r.place, Queued(i)) {
      assert Holds(q.sems[i].queue, q.place, Queued(i));
      BulkFrame(q.sems[i].queue, q.place, Queued(i), released);
    }
  }

  lemma DropProgramKeeps(q: Queues, pid: Pid)
    requires Structure(q) && pid in q.prog
    requires forall k :: k in q.place && k.pid == pid ==> q.place[k] == Exited
    ensures Structure(DropProgram(q, pid))
  {
    var r := DropProgram(q, pid);
    OthersOfKeeps(q.exitList, pid);
    RemoveAtKeeps(q.programs, IndexOf(q.programs, pid));
    assert ProgramsHold(r.prog, r.place) by {
      forall p | p in r.prog ensures ProgramHolds(r.prog[p], r.place, p) {
        assert ProgramHolds(q.prog[p], q.place, p);
      }
    }
    assert SemsHold(r.sems, r.place) by {
      forall i: nat | i < |q.sems| ensures Holds(q.sems[i].queue, r.place, Queued(i)) {
        assert Holds(q.sems[i].queue, q.place, Queued(i));
      }
    }
  }
}

/** The lists of one program's threads that the server filters out of its global
    lists, and the sizes they add up to. */
module Counting {
  import opened Lists
  import opened Timespecs
  import opened Model
  import opened Ops

  /** The threads of one program, in order. */
  function OwnOf(l: seq<ThreadId>, pid: Pid): seq<ThreadId> {
    if l == [] then []
    else OwnOf(l[..|l| - 1], pid) + (if l[|l| - 1].pid == pid then [l[|l| - 1]] else [])
  }

  lemma {:induction false} OwnOfKeeps(l: seq<ThreadId>, pid: Pid)
    requires NoDup(l)
    ensures NoDup(OwnOf(l, pid)) && (forall k :: k in OwnOf(l, pid) <==> k in l && k.pid == pid)
  {
    if l != [] {
      assert l == l[..|l| - 1] + [l[|l| - 1]];
      OwnOfKeeps(l[..|l| - 1], pid);
    }
  }

  /** The program's threads in the queues of the given semaphores, one queue after the other. */
  function OwnQueued(sems: seq<Semaphore>, ids: seq<nat>, pid: Pid): seq<ThreadId> {
    if ids == [] then []
    else
      var i := ids[|ids| - 1];
      OwnQueued(sems, ids[..|ids| - 1], pid) + (if i < |sems| then OwnOf(sems[i].queue, pid) else [])
  }

  lemma {:induction false} OwnQueuedKeeps(sems: seq<Semaphore>, ids: seq<nat>, pid: Pid, place: map<ThreadId, Place>)
    requires SemsHold(sems, place) && NoDup(ids) && (forall i: nat :: i in ids ==> i < |sems|)
    ensures NoDup(OwnQueued(sems, ids, pid))
    ensures forall k :: k in OwnQueued(sems, ids, pid) <==>
              k in place && k.pid == pid && place[k].Queued? && place[k].sem in ids
  {
    if ids != [] {
      var front, i := ids[..|ids| - 1], ids[|ids| - 1];
      assert ids == front + [i] && i in ids && i !in front && forall j: nat :: j in front ==> j in ids;
      OwnQueuedKeeps(sems, front, pid, place);
      assert Holds(sems[i].queue, place, Queued(i));
      OwnOfKeeps(sems[i].queue, pid);
      ConcatKeeps(OwnQueued(sems, front, pid), OwnOf(sems[i].queue, pid));
    }
  }

  // One step of the loops that build these lists

  lemma OwnOfNext(l: seq<ThreadId>, k: ThreadId, pid: Pid)
    ensures OwnOf(l + [k], pid) == OwnOf(l, pid) + (if k.pid == pid then [k] else [])
  {
    assert (l + [k])[..|l|] == l;
  }

  lemma JoinIdsNext(bs: seq<Block>, i: nat)
    requires i < |bs|
    ensures JoinIds(bs[..i + 1]) == if bs[i].JoinBlock? then JoinIds(bs[..i]) + [bs[i].blocked] else JoinIds(bs[..i])
  {
    assert bs[..i + 1][..i] == bs[..i];
  }

  lemma SemIdsNext(bs: seq<Block>, i: nat)
    requires i < |bs|
    ensures SemIds(bs[..i + 1]) == if bs[i].SemBlock? then SemIds(bs[..i]) + [bs[i].sem] else SemIds(bs[..i])
  {
    assert bs[..i + 1][..i] == bs[..i];
  }

  lemma OwnQueuedNext(sems: seq<Semaphore>, ids: seq<nat>, i: nat, pid: Pid)
    requires i < |sems|
    ensures OwnQueued(sems, ids + [i], pid) == OwnQueued(sems, ids, pid) + OwnOf(sems[i].queue, pid)
  {
    assert (ids + [i])[..|ids|] == ids;
  }

  // ----- Sizes

  predicate IsBlocked(w: Place) { w.Joined? || w.Queued? }

  predicate IsReady(w: Place) { w == Ready }

  predicate IsExec(w: Place) { w == Exec }

  /** The threads of the given programs whose place satisfies `g`. */
  ghost function Within(place: map<ThreadId, Place>, g: Place -> bool, pids: seq<Pid>): set<ThreadId> {
    set k | k in place && g(place[k]) && k.pid in pids
  }

  lemma NobodyWithin(place: map<ThreadId, Place>, g: Place -> bool)
    ensures |Within(place, g, [])| == 0
  {
    assert Within(place, g, []) == {};
  }

  lemma WithinGrows(place: map<ThreadId, Place>, g: Place -> bool, pids: seq<Pid>, pid: Pid)
    requires pid !in pids
    ensures |Within(place, g, pids + [pid])| == |Within(place, g, pids)| + |Within(place, g, [pid])|
  {
    assert Within(place, g, pids + [pid]) == Within(place, g, pids) + Within(place, g, [pid]);
    assert Within(place, g, pids) !! Within(place, g, [pid]);
  }

  /** Blocked, ready and running threads together are the ones the grade counts. */
  lemma GradeAddsUp(place: map<ThreadId, Place>, pids: seq<Pid>)
    requires forall k :: k in place ==> k.pid in pids
    ensures |Within(place, IsBlocked, pids)| + |Within(place, IsReady, pids)| + |Within(place, IsExec, pids)|
        == |Active(place)|
  {
    var b, r, x := Within(place, IsBlocked, pids), Within(place, IsReady, pids), Within(place, IsExec, pids);
    forall k ensures k in Active(place) <==> k in b || k in r || k in x {
      if k in place {
        assert k.pid in pids;
      }
    }
    assert Active(place) == b + r + x;
    assert b !! r && (b + r) !! x;
  }

  lemma ReadyCount(q: Queues, pid: Pid)
    requires Structure(q) && pid in q.prog
    ensures |q.prog[pid].ready| == |Within(q.place, IsReady, [pid])|
    ensures |Within(q.place, IsExec, [pid])| == if q.prog[pid].exec.Some? then 1 else 0
  {
    assert ProgramHolds(q.prog[pid], q.place, pid);
    NoDupSize(q.prog[pid].ready, Within(q.place, IsReady, [pid]));
    var x := Within(q.place, IsExec, [pid]);
    if q.prog[pid].exec.Some? {
      assert x == {q.prog[pid].exec.value};
    } else {
      assert x == {};
    }
  }

  lemma BlockedCount(q: Queues, pid: Pid)
    requires Structure(q)
    ensures |OwnOf(JoinIds(q.blocked), pid)| + |OwnQueued(q.sems, SemIds(q.blocked), pid)|
        == |Within(q.place, IsBlocked, [pid])|
  {
    hide JoinIds, SemIds, OwnOf, OwnQueued, ProgramsHold;
    OwnOfKeeps(JoinIds(q.blocked), pid);
    OwnQueuedKeeps(q.sems, SemIds(q.blocked), pid, q.place);
    ConcatKeeps(OwnOf(JoinIds(q.blocked), pid), OwnQueued(q.sems, SemIds(q.blocked), pid));
    NoDupSize(OwnOf(JoinIds(q.blocked), pid) + OwnQueued(q.sems, SemIds(q.blocked), pid),
        Within(q.place, IsBlocked, [pid]));
  }

  // ----- All threads of a program

  /** The creation times of the listed threads. */
  function StartTimes(threads: map<ThreadId, Thread>, l: seq<ThreadId>): seq<Timespec> {
    if l == [] then []
    else
      var k := l[|l| - 1];
      StartTimes(threads, l[..|l| - 1]) + (if k in threads then [threads[k].start] else [])
  }

  lemma {:induction false} StartsConcat(threads: map<ThreadId, Thread>, a: seq<ThreadId>, b: seq<ThreadId>)
    ensures StartTimes(threads, a + b) == StartTimes(threads, a) + StartTimes(threads, b)
  {
    if b == [] {
      assert a + b == a;
    } else {
      assert (a + b)[..|a + b| - 1] == a + b[..|b| - 1];
      StartsConcat(threads, a, b[..|b| - 1]);
    }
  }

  lemma {:induction false} StartsOf(threads: map<ThreadId, Thread>, l: seq<ThreadId>)
    requires forall k :: k in threads ==> Normal(threads[k].start)
    ensures forall t :: t in StartTimes(threads, l) ==> Normal(t)
  {
    if l != [] {
      StartsOf(threads, l[..|l| - 1]);
    }
  }

  lemma StartsWithout(threads: map<ThreadId, Thread>, l: seq<ThreadId>, i: nat)
    requires i < |l|
    ensures multiset(StartTimes(threads, l)) ==
            multiset(StartTimes(threads, RemoveAt(l, i)))
                + multiset(if l[i] in threads then [threads[l[i]].start] else [])
  {
    assert l == l[..i] + ([l[i]] + l[i + 1..]);
    StartsConcat(threads, l[..i], [l[i]] + l[i + 1..]);
    StartsConcat(threads, [l[i]], l[i + 1..]);
    StartsConcat(threads, l[..i], l[i + 1..]);
    assert StartTimes(threads, []) == [];
    assert [l[i]][..0] == [];
  }

  lemma {:induction false} StartsAnyOrder(threads: map<ThreadId, Thread>, a: seq<ThreadId>, b: seq<ThreadId>)
    requires multiset(a) == multiset(b)
    ensures multiset(StartTimes(threads, a)) == multiset(StartTimes(threads, b))
  {
    assert |multiset(a)| == |a| && |multiset(b)| == |b|;
    if a != [] {
      var n := |a| - 1;
      assert a[n] in multiset(b);
      var i := IndexOf(b, a[n]);
      RemoveAtMultiset(a, n);
      RemoveAtMultiset(b, i);
      StartsWithout(threads, a, n);
      StartsWithout(threads, b, i);
      StartsAnyOrder(threads, RemoveAt(a, n), RemoveAt(b, i));
    }
  }

  /** The six groups of a program's threads, one after the other. */
  function Groups(q: Queues, pid: Pid): seq<ThreadId>
    requires pid in q.prog
  {
    OwnOf(q.newList, pid) + OwnOf(q.exitList, pid) + q.prog[pid].ready + OwnQueued(q.sems, SemIds(q.blocked), pid)
    + OwnOf(JoinIds(q.blocked), pid) + (if q.prog[pid].exec.Some? then [q.prog[pid].exec.value] else [])
  }

  /** Each thread of the program is in exactly one of the groups, once. */
  lemma GroupsHold(q: Queues, pid: Pid)
    requires Structure(q) && pid in q.prog
    ensures NoDup(Groups(q, pid)) && forall k :: k in Groups(q, pid) <==> k in q.place && k.pid == pid
  {
    var n, x, r := OwnOf(q.newList, pid), OwnOf(q.exitList, pid), q.prog[pid].ready;
    var w, j := OwnQueued(q.sems, SemIds(q.blocked), pid), OwnOf(JoinIds(q.blocked), pid);
    var e := if q.prog[pid].exec.Some? then [q.prog[pid].exec.value] else [];
    GroupPlaces(q, pid);
    hide Structure, OwnOf, OwnQueued, JoinIds, SemIds;
    ConcatKeeps(n, x);
    ConcatKeeps(n + x, r);
    ConcatKeeps(n + x + r, w);
    ConcatKeeps(n + x + r + w, j);
    ConcatKeeps(n + x + r + w + j, e);
  }

  lemma GroupPlaces(q: Queues, pid: Pid)
    requires Structure(q) && pid in q.prog
    ensures var n, x, j := OwnOf(q.newList, pid), OwnOf(q.exitList, pid), OwnOf(JoinIds(q.blocked), pid);
            && NoDup(n) && (forall k :: k in n <==> k in q.place && k.pid == pid && q.place[k] == New)
            && NoDup(x) && (forall k :: k in x <==> k in q.place && k.pid == pid && q.place[k] == Exited)
            && NoDup(j) && (forall k :: k in j <==> k in q.place && k.pid == pid && q.place[k] == Joined)
    ensures var w := OwnQueued(q.sems, SemIds(q.blocked), pid);
            NoDup(w) && forall k :: k in w <==> k in q.place && k.pid == pid && q.place[k].Queued?
    ensures var p := q.prog[pid];
            && NoDup(p.ready) && (forall k :: k in p.ready <==> k in q.place && k.pid == pid && q.place[k] == Ready)
            && (forall k :: p.exec == Some(k) <==> k in q.place && k.pid == pid && q.place[k] == Exec)
  {
    hide OwnOf, OwnQueued, JoinIds, SemIds;
    OwnOfKeeps(q.newList, pid);
    OwnOfKeeps(q.exitList, pid);
    OwnOfKeeps(JoinIds(q.blocked), pid);
    OwnQueuedKeeps(q.sems, SemIds(q.blocked), pid, q.place);
    assert ProgramHolds(q.prog[pid], q.place, pid);
  }
}

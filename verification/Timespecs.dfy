/** Monotonic clock readings and the carry/borrow arithmetic that adds up the
    lengths of intervals. */
module Timespecs {
  import opened Lists

  const NANOS: int := 1_000_000_000

  /** A `struct timespec`; also the accumulator the sums are kept in. */
  datatype Timespec = Timespec(sec: int, nsec: int)

  predicate Normal(t: Timespec) {
    0 <= t.nsec < NANOS
  }

  /** The instant in nanoseconds. */
  function Ns(t: Timespec): int {
    t.sec * NANOS + t.nsec
  }

  /** An interval whose end has not been written yet has none. */
  datatype Interval = Interval(start: Timespec, end: Option<Timespec>)

  /** Length in nanoseconds; an interval without an end counts for nothing. */
  function Length(v: Interval): int {
    if v.end.Some? then Ns(v.end.value) - Ns(v.start) else 0
  }

  function SumLengths(vs: seq<Interval>): int {
    if vs == [] then 0 else SumLengths(vs[..|vs| - 1]) + Length(vs[|vs| - 1])
  }

  /** The list with its last interval ended at `t`, whatever end it had. */
  function Ended(vs: seq<Interval>, t: Timespec): seq<Interval> {
    if vs == [] then [] else vs[..|vs| - 1] + [Interval(vs[|vs| - 1].start, Some(t))]
  }

  /** The total when the last interval is still under way at the instant `now`, whatever end it has. */
  function SumUntil(vs: seq<Interval>, underWay: bool, now: int): int {
    if underWay && vs != [] then SumLengths(vs[..|vs| - 1]) + now - Ns(vs[|vs| - 1].start) else SumLengths(vs)
  }

  /** Total of `end - start` over a list of start instants. */
  function SumElapsed(starts: seq<Timespec>, end: Timespec): int {
    if starts == [] then 0
    else SumElapsed(starts[..|starts| - 1], end) + Ns(end) - Ns(starts[|starts| - 1])
  }

  lemma {:induction false} SumElapsedConcat(a: seq<Timespec>, b: seq<Timespec>, end: Timespec)
    ensures SumElapsed(a + b, end) == SumElapsed(a, end) + SumElapsed(b, end)
  {
    if b == [] {
      assert a + b == a;
    } else {
      assert (a + b)[..|a + b| - 1] == a + b[..|b| - 1];
      SumElapsedConcat(a, b[..|b| - 1], end);
    }
  }

  lemma SumElapsedWithout(s: seq<Timespec>, i: nat, end: Timespec)
    requires i < |s|
    ensures SumElapsed(s, end) == SumElapsed(RemoveAt(s, i), end) + Ns(end) - Ns(s[i])
  {
    assert s == s[..i] + ([s[i]] + s[i + 1..]);
    SumElapsedConcat(s[..i], [s[i]] + s[i + 1..], end);
    SumElapsedConcat([s[i]], s[i + 1..], end);
    SumElapsedConcat(s[..i], s[i + 1..], end);
    assert SumElapsed([s[i]], end) == Ns(end) - Ns(s[i]);
  }

  /** The total does not depend on the order in which the threads are listed. */
  lemma {:induction false} SumElapsedAnyOrder(a: seq<Timespec>, b: seq<Timespec>, end: Timespec)
    requires multiset(a) == multiset(b)
    ensures SumElapsed(a, end) == SumElapsed(b, end)
  {
    assert |multiset(a)| == |a| && |multiset(b)| == |b|;
    if a != [] {
      var n := |a| - 1;
      assert a[n] in multiset(b);
      var i := IndexOf(b, a[n]);
      RemoveAtMultiset(a, n);
      RemoveAtMultiset(b, i);
      SumElapsedWithout(a, n, end);
      SumElapsedWithout(b, i, end);
      SumElapsedAnyOrder(RemoveAt(a, n), RemoveAt(b, i), end);
    }
  }

  /** The `elapsed_time` a caller allocates, zeroes and lets the sums update. */
  class Accumulator {
    var diff: Timespec

    ghost predicate Valid()
      reads this
    {
      Normal(diff)
    }

    constructor ()
      ensures Valid() && Ns(diff) == 0
    {
      diff := Timespec(0, 0);
    }

    /** Exact for any two normalised readings: the nanoseconds stay normalised
        and the total grows by exactly end - start. */
    method TimeDiff(start: Timespec, end: Timespec)
      requires Valid() && Normal(start) && Normal(end)
      modifies this
      ensures Valid() && Ns(diff) == old(Ns(diff)) + Ns(end) - Ns(start)
    {
      if end.nsec - start.nsec < 0 {
        if diff.nsec + (end.nsec - start.nsec + NANOS) > 999_999_999 {
          diff := Timespec(diff.sec + (end.sec - start.sec), diff.nsec + (end.nsec - start.nsec));
        } else {
          diff := Timespec(diff.sec + (end.sec - start.sec - 1), diff.nsec + (end.nsec - start.nsec + NANOS));
        }
      } else {
        if diff.nsec + (end.nsec - start.nsec) > 999_999_999 {
          diff := Timespec(diff.sec + (end.sec - start.sec + 1), diff.nsec + (end.nsec - start.nsec - NANOS));
        } else {
          diff := Timespec(diff.sec + (end.sec - start.sec), diff.nsec + (end.nsec - start.nsec));
        }
      }
    }

    method ToUs() returns (us: int)
      requires Valid()
      ensures us == Ns(diff) / 1000
    {
      us := diff.sec * 1_000_000 + diff.nsec / 1000;
    }

    /** `find_run_time` and `find_wait_time`: the loop over one interval list. */
    method AddIntervals(vs: seq<Interval>)
      requires Valid()
      requires forall v :: v in vs ==> v.end.Some? && Normal(v.start) && Normal(v.end.value)
      modifies this
      ensures Valid() && Ns(diff) == old(Ns(diff)) + SumLengths(vs)
    {
      for i := 0 to |vs|
        invariant Valid() && Ns(diff) == old(Ns(diff)) + SumLengths(vs[..i])
      {
        assert vs[..i + 1][..i] == vs[..i];
        TimeDiff(vs[i].start, vs[i].end.value);
      }
      assert vs[..|vs|] == vs;
    }

    /** `find_exec_time_on_list`: time since creation, over a list of threads. */
    method AddElapsed(starts: seq<Timespec>, end: Timespec)
      requires Valid() && Normal(end) && (forall t :: t in starts ==> Normal(t))
      modifies this
      ensures Valid() && Ns(diff) == old(Ns(diff)) + SumElapsed(starts, end)
    {
      for i := 0 to |starts|
        invariant Valid() && Ns(diff) == old(Ns(diff)) + SumElapsed(starts[..i], end)
      {
        assert starts[..i + 1][..i] == starts[..i];
        TimeDiff(starts[i], end);
      }
      assert starts[..|starts|] == starts;
    }
  }

  /** `total_exec_time`: six groups of threads, given by their start instants,
      summed into one accumulator. The result is the floor, in microseconds, of
      the exact total, whatever order the threads of all groups are listed in. */
  method TotalExecTime(news: seq<Timespec>, exits: seq<Timespec>, readys: seq<Timespec>, semaphores: seq<Timespec>,
                       joins: seq<Timespec>, exec: Option<Timespec>, end: Timespec) returns (us: int)
    requires Normal(end)
    requires forall t :: t in AllStarts(news, exits, readys, semaphores, joins, exec) ==> Normal(t)
    ensures forall listing :: multiset(listing) == multiset(AllStarts(news, exits, readys, semaphores, joins, exec)) ==>
              us == SumElapsed(listing, end) / 1000
  {
    var elapsed := new Accumulator();
    elapsed.AddElapsed(news, end);
    elapsed.AddElapsed(exits, end);
    elapsed.AddElapsed(readys, end);
    elapsed.AddElapsed(semaphores, end);
    elapsed.AddElapsed(joins, end);
    if exec.Some? {
      elapsed.TimeDiff(exec.value, end);
    }
    us := elapsed.ToUs();
    ghost var all := AllStarts(news, exits, readys, semaphores, joins, exec);
    SumElapsedConcat(news, exits, end);
    SumElapsedConcat(news + exits, readys, end);
    SumElapsedConcat(news + exits + readys, semaphores, end);
    SumElapsedConcat(news + exits + readys + semaphores, joins, end);
    SumElapsedConcat(news + exits + readys + semaphores + joins, if exec.Some? then [exec.value] else [], end);
    forall listing | multiset(listing) == multiset(all) ensures SumElapsed(listing, end) == SumElapsed(all, end) {
      SumElapsedAnyOrder(listing, all, end);
    }
  }

  function AllStarts(news: seq<Timespec>, exits: seq<Timespec>, readys: seq<Timespec>, semaphores: seq<Timespec>,
                     joins: seq<Timespec>, exec: Option<Timespec>): seq<Timespec> {
    news + exits + readys + semaphores + joins + (if exec.Some? then [exec.value] else [])
  }
}

/** Removing first matches one at a time comes to the same as filtering. */
module Removal {
  import opened Lists
  import opened Model

  /** Position of the first element that satisfies `f`, or |s|. */
  function FindFirst<T>(s: seq<T>, f: T -> bool): (i: nat)
    ensures i <= |s|
    ensures i < |s| ==> f(s[i])
    ensures forall j :: 0 <= j < i ==> !f(s[j])
  {
    if s == [] then 0 else if f(s[0]) then 0 else 1 + FindFirst(s[1..], f)
  }

  lemma {:induction false} JoinedOnConcat(a: seq<Block>, b: seq<Block>, e: ThreadId)
    ensures JoinedOn(a + b, e) == JoinedOn(a, e) + JoinedOn(b, e)
    ensures OtherBlocks(a + b, e) == OtherBlocks(a, e) + OtherBlocks(b, e)
  {
    if b == [] {
      assert a + b == a;
    } else {
      assert (a + b)[..|a + b| - 1] == a + b[..|b| - 1];
      JoinedOnConcat(a, b[..|b| - 1], e);
    }
  }

  /** Removing the first block that `e` holds releases the one that blocked first. */
  lemma FirstHeld(bs: seq<Block>, e: ThreadId, i: nat)
    requires i < |bs| && bs[i].JoinBlock? && bs[i].blocking == e
    requires forall j :: 0 <= j < i ==> !(bs[j].JoinBlock? && bs[j].blocking == e)
    ensures JoinedOn(bs, e) == [bs[i].blocked] + JoinedOn(RemoveAt(bs, i), e)
    ensures OtherBlocks(RemoveAt(bs, i), e) == OtherBlocks(bs, e)
  {
    hide JoinedOn, OtherBlocks;
    var a, b := bs[..i], bs[i + 1..];
    assert bs == a + ([bs[i]] + b);
    JoinedOnConcat(a, [bs[i]] + b, e);
    JoinedOnConcat([bs[i]], b, e);
    JoinedOnConcat(a, b, e);
    NoneHeld(a, e);
    OneHeld(bs[i], e);
  }

  lemma OneHeld(b: Block, e: ThreadId)
    requires b.JoinBlock? && b.blocking == e
    ensures JoinedOn([b], e) == [b.blocked] && OtherBlocks([b], e) == []
  {
    assert [b][..0] == [];
  }

  lemma LastNotHeld(front: seq<Block>, b: Block, e: ThreadId)
    requires !(b.JoinBlock? && b.blocking == e)
    ensures JoinedOn(front + [b], e) == JoinedOn(front, e) && OtherBlocks(front + [b], e) == OtherBlocks(front, e) + [b]
  {
    assert (front + [b])[..|front|] == front;
  }

  lemma {:induction false} NoneHeld(bs: seq<Block>, e: ThreadId)
    requires forall b :: b in bs ==> !(b.JoinBlock? && b.blocking == e)
    ensures JoinedOn(bs, e) == [] && OtherBlocks(bs, e) == bs
  {
    if bs != [] {
      hide JoinedOn, OtherBlocks;
      var front, b := bs[..|bs| - 1], bs[|bs| - 1];
      assert bs == front + [b] && b in bs && forall a :: a in front ==> a in bs;
      NoneHeld(front, e);
      LastNotHeld(front, b, e);
    }
  }

  lemma {:induction false} OthersOfConcat(a: seq<ThreadId>, b: seq<ThreadId>, pid: Pid)
    ensures OthersOf(a + b, pid) == OthersOf(a, pid) + OthersOf(b, pid)
  {
    if b == [] {
      assert a + b == a;
    } else {
      assert (a + b)[..|a + b| - 1] == a + b[..|b| - 1];
      OthersOfConcat(a, b[..|b| - 1], pid);
    }
  }

  lemma OthersOfRemove(l: seq<ThreadId>, i: nat, pid: Pid)
    requires i < |l| && l[i].pid == pid
    ensures OthersOf(RemoveAt(l, i), pid) == OthersOf(l, pid)
  {
    assert l == l[..i] + ([l[i]] + l[i + 1..]);
    OthersOfConcat(l[..i], [l[i]] + l[i + 1..], pid);
    OthersOfConcat([l[i]], l[i + 1..], pid);
    OthersOfConcat(l[..i], l[i + 1..], pid);
  }

  lemma {:induction false} OthersOfAll(l: seq<ThreadId>, pid: Pid)
    requires forall k :: k in l ==> k.pid != pid
    ensures OthersOf(l, pid) == l
  {
    if l != [] {
      OthersOfAll(l[..|l| - 1], pid);
    }
  }
}

/** The list operations of the commons library the scheduler is written on:
    append at the tail, remove by position, remove the first match. */
module Lists {

  datatype Option<+T> = None | Some(value: T)

  ghost predicate NoDup<T>(s: seq<T>) {
    forall i, j :: 0 <= i < j < |s| ==> s[i] != s[j]
  }

  function RemoveAt<T>(s: seq<T>, i: nat): (r: seq<T>)
    requires i < |s|
    ensures |r| == |s| - 1
  {
    s[..i] + s[i + 1..]
  }

  /** Position of the first occurrence of `x`, or |s| when there is none. */
  function IndexOf<T(==)>(s: seq<T>, x: T): (i: nat)
    ensures i <= |s|
    ensures i < |s| ==> s[i] == x
    ensures x !in s[..i]
    ensures x in s <==> i < |s|
  {
    if s == [] then 0
    else if s[0] == x then 0
    else
      var j := IndexOf(s[1..], x);
      assert s[..j + 1] == [s[0]] + s[1..][..j];
      j + 1
  }

  function RemoveFirst<T(==)>(s: seq<T>, x: T): seq<T> {
    var i := IndexOf(s, x);
    if i < |s| then RemoveAt(s, i) else s
  }

  lemma AppendKeeps<T(!new)>(s: seq<T>, x: T)
    requires NoDup(s) && x !in s
    ensures NoDup(s + [x])
    ensures forall y :: y in s + [x] <==> y in s || y == x
  {}

  lemma RemoveAtKeeps<T(!new)>(s: seq<T>, i: nat)
    requires NoDup(s) && i < |s|
    ensures NoDup(RemoveAt(s, i))
    ensures forall y :: y in RemoveAt(s, i) <==> y in s && y != s[i]
  {
    var r := RemoveAt(s, i);
    forall y | y in s && y != s[i] ensures y in r {
      var j :| 0 <= j < |s| && s[j] == y;
      assert if j < i then r[j] == y else r[j - 1] == y;
    }
  }

  lemma ConcatKeeps<T(!new)>(s: seq<T>, t: seq<T>)
    requires NoDup(s) && NoDup(t) && (forall y :: y in s ==> y !in t)
    ensures NoDup(s + t)
    ensures forall y :: y in s + t <==> y in s || y in t
  {
    forall i, j | 0 <= i < j < |s + t| ensures (s + t)[i] != (s + t)[j] {
      if i < |s| <= j {
        assert (s + t)[i] in s && t[j - |s|] !in s;
      }
    }
  }

  lemma RemoveAtMultiset<T>(s: seq<T>, i: nat)
    requires i < |s|
    ensures multiset(RemoveAt(s, i)) == multiset(s) - multiset{s[i]}
  {
    assert s == s[..i] + [s[i]] + s[i + 1..];
  }

  /** A list without repetitions has as many elements as the set it lists. */
  lemma {:induction false} NoDupSize<T(!new)>(s: seq<T>, elements: set<T>)
    requires NoDup(s) && (forall y :: y in s <==> y in elements)
    ensures |s| == |elements|
  {
    if s == [] {
      assert elements == {};
    } else {
      var t := s[..|s| - 1];
      assert s == t + [s[|s| - 1]];
      NoDupSize(t, elements - {s[|s| - 1]});
    }
  }

  /** `x` stands before `y`. */
  ghost predicate Precedes<T>(l: seq<T>, x: T, y: T) {
    exists i, j :: 0 <= i < j < |l| && l[i] == x && l[j] == y
  }

  lemma PrecedesInFront<T>(l: seq<T>, last: T, x: T, y: T)
    ensures Precedes(l, x, y) ==> Precedes(l + [last], x, y)
    ensures Precedes(l + [last], x, y) ==> Precedes(l, x, y) || (x in l && y == last)
    ensures x in l ==> Precedes(l + [last], x, last)
  {
    var m := l + [last];
    if Precedes(l, x, y) {
      var i, j :| 0 <= i < j < |l| && l[i] == x && l[j] == y;
      assert m[i] == x && m[j] == y;
    }
    if x in l {
      var i :| 0 <= i < |l| && l[i] == x;
      assert m[i] == x && m[|l|] == last;
    }
    if Precedes(m, x, y) {
      var i, j :| 0 <= i < j < |m| && m[i] == x && m[j] == y;
      assert l[i] == x;
    }
  }

  lemma NonePrecedes<T>(x: T, y: T)
    ensures !Precedes<T>([], x, y)
  {}

  /** Removing an element keeps the order of the others. */
  lemma RemoveAtOrder<T>(s: seq<T>, i: nat, x: T, y: T)
    requires i < |s| && Precedes(RemoveAt(s, i), x, y)
    ensures Precedes(s, x, y)
  {
    var r := RemoveAt(s, i);
    var a, b :| 0 <= a < b < |r| && r[a] == x && r[b] == y;
    assert s[if a < i then a else a + 1] == x && s[if b < i then b else b + 1] == y;
  }

  lemma {:induction false} OccursOnce<T(!new)>(s: seq<T>, k: T)
    requires NoDup(s)
    ensures multiset(s)[k] == if k in s then 1 else 0
  {
    if s != [] {
      var n := |s| - 1;
      assert s == s[..n] + [s[n]];
      OccursOnce(s[..n], k);
      assert s[n] !in s[..n];
    }
  }

  /** Two lists without repetitions and with the same members are permutations of each other. */
  lemma SameMembers<T(!new)>(a: seq<T>, b: seq<T>)
    requires NoDup(a) && NoDup(b) && forall y :: y in a <==> y in b
    ensures multiset(a) == multiset(b)
  {
    forall y ensures multiset(a)[y] == multiset(b)[y] {
      OccursOnce(a, y);
      OccursOnce(b, y);
    }
  }
}

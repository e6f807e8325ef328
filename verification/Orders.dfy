/**
 Finite sets listed in increasing order of a strict total order, and sequences
 sorted by one. A `BTreeMap` is iterated in this listing, and a stable sort of
 rows whose order is total produces it.
 */
module Orders {

  ghost predicate StrictOrder<T(!new)>(S: set<T>, lt: (T, T) -> bool) {
    && (forall x | x in S :: !lt(x, x))
    && (forall x, y | x in S && y in S && x != y :: lt(x, y) || lt(y, x))
    && (forall x, y, z | x in S && y in S && z in S && lt(x, y) && lt(y, z) :: lt(x, z))
  }

  predicate SortedBy<T>(s: seq<T>, lt: (T, T) -> bool) {
    forall i, j | 0 <= i < j < |s| :: lt(s[i], s[j])
  }

  function Elements<T(==)>(s: seq<T>): set<T> {
    set x | x in s
  }

  predicate IsLeast<T(!new, ==)>(S: set<T>, lt: (T, T) -> bool, m: T) {
    m in S && forall x | x in S && x != m :: lt(m, x)
  }

  lemma LeastExists<T(!new)>(S: set<T>, lt: (T, T) -> bool)
    requires S != {} && StrictOrder(S, lt)
    ensures exists m :: IsLeast(S, lt, m)
  {
    var x :| x in S;
    var rest := S - {x};
    if rest == {} {
      assert S == {x};
      assert IsLeast(S, lt, x);
    } else {
      LeastExists(rest, lt);
      var m :| IsLeast(rest, lt, m);
      if lt(x, m) {
        assert IsLeast(S, lt, x);
      } else {
        assert IsLeast(S, lt, m);
      }
    }
  }

  /** The elements of `S`, smallest first. */
  function Enumerate<T(!new, ==)>(S: set<T>, lt: (T, T) -> bool): (s: seq<T>)
    requires StrictOrder(S, lt)
    ensures SortedBy(s, lt)
    ensures Elements(s) == S
    ensures |s| == |S|
  {
    if S == {} then
      []
    else
      LeastExists(S, lt);
      var m :| IsLeast(S, lt, m);
      var rest := Enumerate(S - {m}, lt);
      LeastFirst(S, lt, m, rest);
      [m] + rest
  }

  lemma LeastFirst<T(!new)>(S: set<T>, lt: (T, T) -> bool, m: T, rest: seq<T>)
    requires IsLeast(S, lt, m) && SortedBy(rest, lt) && Elements(rest) == S - {m} && |rest| == |S - {m}|
    ensures SortedBy([m] + rest, lt) && Elements([m] + rest) == S && |[m] + rest| == |S|
  {
    var s := [m] + rest;
    assert forall x | x in rest :: x in Elements(rest);
    assert forall x :: x in s <==> x == m || x in rest;
    assert forall x | x in S :: x == m || x in Elements(rest);
    assert forall k | 0 < k < |s| :: s[k] == rest[k - 1] && s[k] in rest;
  }

  /** A sorted sequence has no repetitions: it is as long as its set of elements. */
  lemma {:induction false} SortedLength<T(!new)>(s: seq<T>, lt: (T, T) -> bool)
    requires SortedBy(s, lt) && StrictOrder(Elements(s), lt)
    ensures |Elements(s)| == |s|
  {
    if s != [] {
      var t := s[1..];
      assert Elements(s) == Elements(t) + {s[0]};
      assert forall k | 0 <= k < |t| :: t[k] == s[k + 1];
      SortedLength(t, lt);
    }
  }

  /** Two sorted sequences with the same elements are the same sequence. */
  lemma {:induction false} SortedUnique<T(!new)>(s: seq<T>, t: seq<T>, lt: (T, T) -> bool)
    requires SortedBy(s, lt) && SortedBy(t, lt)
    requires Elements(s) == Elements(t)
    requires StrictOrder(Elements(s), lt)
    ensures s == t
  {
    SortedLength(s, lt);
    SortedLength(t, lt);
    if s != [] {
      assert s[0] in Elements(t) && t[0] in Elements(s);
      HeadIsLeast(s, lt);
      HeadIsLeast(t, lt);
      assert s[0] == t[0];
      TailElements(s, lt);
      TailElements(t, lt);
      SortedUnique(s[1..], t[1..], lt);
      assert s == [s[0]] + s[1..] && t == [t[0]] + t[1..];
    }
  }

  lemma HeadIsLeast<T(!new)>(s: seq<T>, lt: (T, T) -> bool)
    requires s != [] && SortedBy(s, lt)
    ensures forall x | x in Elements(s) && x != s[0] :: lt(s[0], x)
  {
    forall x | x in Elements(s) && x != s[0]
      ensures lt(s[0], x)
    {
      var k :| 0 <= k < |s| && s[k] == x;
    }
  }

  lemma TailElements<T(!new)>(s: seq<T>, lt: (T, T) -> bool)
    requires s != [] && SortedBy(s, lt) && StrictOrder(Elements(s), lt)
    ensures Elements(s[1..]) == Elements(s) - {s[0]}
  {
    forall x | x in Elements(s) - {s[0]}
      ensures x in Elements(s[1..])
    {
      var k :| 0 <= k < |s| && s[k] == x;
      assert s[1..][k - 1] == x;
    }
    assert forall k | 0 <= k < |s[1..]| :: s[1..][k] == s[k + 1];
  }

  ghost function Below<T(!new)>(S: set<T>, lt: (T, T) -> bool, a: T): set<T> {
    set b | b in S && lt(b, a)
  }

  /** How many elements of `S` come before `a`. */
  ghost function Rank<T(!new)>(S: set<T>, lt: (T, T) -> bool, a: T): nat {
    |Below(S, lt, a)|
  }

  /** In a sorted listing, an element's rank is its index. */
  lemma RankIsIndex<T(!new)>(s: seq<T>, lt: (T, T) -> bool, i: nat)
    requires i < |s| && SortedBy(s, lt) && StrictOrder(Elements(s), lt)
    ensures Rank(Elements(s), lt, s[i]) == i
  {
    var prefix := s[..i];
    forall b | b in Below(Elements(s), lt, s[i])
      ensures b in Elements(prefix)
    {
      var k :| 0 <= k < |s| && s[k] == b;
      assert s[i] in Elements(s);
      assert k < i;
      assert prefix[k] == b;
    }
    assert Below(Elements(s), lt, s[i]) == Elements(prefix);
    SortedLength(prefix, lt);
  }

  /** Rank respects the order. */
  lemma RankMonotone<T(!new)>(S: set<T>, lt: (T, T) -> bool, a: T, b: T)
    requires StrictOrder(S, lt) && a in S && b in S && lt(a, b)
    ensures Rank(S, lt, a) < Rank(S, lt, b)
  {
    var belowA, belowB := Below(S, lt, a), Below(S, lt, b);
    assert a in belowB && a !in belowA;
    assert belowA <= belowB - {a};
    SubsetSize(belowA, belowB - {a});
  }

  lemma NonEmptyElements<T>(s: seq<T>)
    requires s != []
    ensures Elements(s) != {}
  {
    assert s[0] in Elements(s);
  }

  lemma {:induction false} SubsetSize<T>(A: set<T>, B: set<T>)
    requires A <= B
    ensures |A| <= |B|
  {
    if A != {} {
      var x :| x in A;
      SubsetSize(A - {x}, B - {x});
    }
  }

  /** A sequence without repetitions is as long as its set of elements. */
  lemma {:induction false} DistinctLength<T>(s: seq<T>)
    requires forall i, j | 0 <= i < j < |s| :: s[i] != s[j]
    ensures |Elements(s)| == |s|
  {
    if s != [] {
      var n := |s| - 1;
      DistinctLength(s[..n]);
      assert s == s[..n] + [s[n]];
      assert Elements(s) == Elements(s[..n]) + {s[n]};
      assert s[n] !in s[..n];
    }
  }

  lemma {:induction false} ElementsAtMost<T>(s: seq<T>)
    ensures |Elements(s)| <= |s|
  {
    if s != [] {
      var n := |s| - 1;
      ElementsAtMost(s[..n]);
      assert s == s[..n] + [s[n]];
      assert Elements(s) == Elements(s[..n]) + {s[n]};
    }
  }

  /** A repetition makes the set of elements smaller. */
  lemma RepeatedLength<T>(s: seq<T>, i: nat, j: nat)
    requires i < j < |s| && s[i] == s[j]
    ensures |Elements(s)| < |s|
  {
    var rest := s[..j] + s[j + 1..];
    ElementsAtMost(rest);
    forall x | x in Elements(s)
      ensures x in Elements(rest)
    {
      var k :| 0 <= k < |s| && s[k] == x;
      assert rest[if k == j then i else if k < j then k else k - 1] == x;
    }
    SubsetSize(Elements(s), Elements(rest));
  }

  // ----- stable sorting -----

  function Insert<T>(x: T, s: seq<T>, leq: (T, T) -> bool): seq<T> {
    if s == [] then [x]
    else if leq(x, s[0]) then [x] + s
    else [s[0]] + Insert(x, s[1..], leq)
  }

  /** A stable sort, as the library's `sort_by`: equal rows keep their order. */
  function StableSort<T>(s: seq<T>, leq: (T, T) -> bool): seq<T> {
    if s == [] then [] else Insert(s[0], StableSort(s[1..], leq), leq)
  }

  lemma {:induction false} InsertPermutes<T>(x: T, s: seq<T>, leq: (T, T) -> bool)
    ensures multiset(Insert(x, s, leq)) == multiset{x} + multiset(s)
  {
    if s != [] && !leq(x, s[0]) {
      InsertPermutes(x, s[1..], leq);
      assert s == [s[0]] + s[1..];
    }
  }

  lemma {:induction false} StableSortPermutes<T>(s: seq<T>, leq: (T, T) -> bool)
    ensures multiset(StableSort(s, leq)) == multiset(s)
  {
    if s != [] {
      StableSortPermutes(s[1..], leq);
      InsertPermutes(s[0], StableSort(s[1..], leq), leq);
      assert s == [s[0]] + s[1..];
    }
  }

  lemma SameElements<T>(s: seq<T>, t: seq<T>)
    requires multiset(s) == multiset(t)
    ensures Elements(s) == Elements(t)
    ensures |s| == |t|
  {
    forall x
      ensures x in Elements(s) <==> x in Elements(t)
    {
      assert x in s <==> x in multiset(s);
      assert x in t <==> x in multiset(t);
    }
    assert |s| == |multiset(s)| == |t|;
  }

  /** `lt` is `leq` with ties broken by the original order. */
  ghost predicate BreaksTies<T>(s: seq<T>, leq: (T, T) -> bool, lt: (T, T) -> bool) {
    forall i, j | 0 <= i < j < |s| :: if leq(s[i], s[j]) then lt(s[i], s[j]) else lt(s[j], s[i])
  }

  lemma {:induction false} InsertSorted<T(!new)>(x: T, s: seq<T>, leq: (T, T) -> bool, lt: (T, T) -> bool)
    requires SortedBy(s, lt) && StrictOrder(Elements(s) + {x}, lt)
    requires forall y | y in s :: if leq(x, y) then lt(x, y) else lt(y, x)
    ensures SortedBy(Insert(x, s, leq), lt)
  {
    if s == [] {
    } else if leq(x, s[0]) {
      assert forall k | 0 <= k < |s| :: s[k] in Elements(s);
      assert forall k | 0 <= k < |s| :: lt(x, s[k]);
    } else {
      var rest := s[1..];
      InsertSorted(x, rest, leq, lt);
      InsertPermutes(x, rest, leq);
      var t := Insert(x, rest, leq);
      forall k | 0 <= k < |t|
        ensures lt(s[0], t[k])
      {
        assert t[k] in multiset(t);
        assert t[k] == x || t[k] in multiset(rest);
        if t[k] != x {
          var m :| 0 <= m < |rest| && rest[m] == t[k];
          assert lt(s[0], s[m + 1]);
        }
      }
    }
  }

  /** A stable sort lists the rows in the order that breaks ties by position. */
  lemma {:induction false} StableSortSorts<T(!new)>(s: seq<T>, leq: (T, T) -> bool, lt: (T, T) -> bool)
    requires BreaksTies(s, leq, lt) && StrictOrder(Elements(s), lt)
    ensures SortedBy(StableSort(s, leq), lt)
    ensures Elements(StableSort(s, leq)) == Elements(s)
  {
    StableSortPermutes(s, leq);
    SameElements(s, StableSort(s, leq));
    if s != [] {
      var rest := s[1..];
      assert forall k | 0 <= k < |rest| :: rest[k] == s[k + 1];
      assert Elements(rest) <= Elements(s);
      StableSortSorts(rest, leq, lt);
      var t := StableSort(rest, leq);
      forall y | y in t
        ensures if leq(s[0], y) then lt(s[0], y) else lt(y, s[0])
      {
        assert y in Elements(t);
        var k :| 0 <= k < |rest| && rest[k] == y;
        assert s[k + 1] == y;
      }
      assert Elements(t) + {s[0]} <= Elements(s);
      InsertSorted(s[0], t, leq, lt);
    }
  }
}

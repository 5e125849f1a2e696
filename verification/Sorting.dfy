/** A stable sort by a comparator, as a JavaScript array's `sort`. */
module Sorting {
  /** The comparator orders all pairs consistently; ties are allowed. */
  ghost predicate Comparator<T(!new)>(cmp: (T, T) -> int) {
    (forall x, y :: cmp(x, y) <= 0 || cmp(y, x) <= 0) &&
    (forall x, y, z :: cmp(x, y) <= 0 && cmp(y, z) <= 0 ==> cmp(x, z) <= 0)
  }

  function InsertSorted<T>(x: T, s: seq<T>, cmp: (T, T) -> int): (r: seq<T>)
    ensures multiset(r) == multiset{x} + multiset(s)
  {
    if s == [] || cmp(x, s[0]) <= 0 then [x] + s
    else
      assert s == [s[0]] + s[1..];
      [s[0]] + InsertSorted(x, s[1..], cmp)
  }

  function Sort<T>(s: seq<T>, cmp: (T, T) -> int): (r: seq<T>)
    ensures multiset(r) == multiset(s)
  {
    if s == [] then []
    else
      assert s == [s[0]] + s[1..];
      InsertSorted(s[0], Sort(s[1..], cmp), cmp)
  }

  lemma SameMembers<T>(a: seq<T>, b: seq<T>)
    requires multiset(a) == multiset(b)
    ensures |a| == |b|
    ensures forall x :: x in a <==> x in b
  {
    assert |a| == |multiset(a)|;
    assert forall x :: x in a <==> x in multiset(a);
    assert forall x :: x in b <==> x in multiset(b);
  }

  /** The head of the sorted sequence compares lowest with everything. */
  lemma {:induction false} SortHead<T(!new)>(s: seq<T>, cmp: (T, T) -> int)
    requires Comparator(cmp) && s != []
    ensures Sort(s, cmp) != [] && Sort(s, cmp)[0] in s
    ensures forall x :: x in s ==> cmp(Sort(s, cmp)[0], x) <= 0
  {
    SameMembers(s, Sort(s, cmp));
    var rest := Sort(s[1..], cmp);
    SameMembers(s[1..], rest);
    if s[1..] != [] {
      SortHead(s[1..], cmp);
    }
    forall x | x in s ensures cmp(Sort(s, cmp)[0], x) <= 0 {
      assert x == s[0] || x in s[1..];
      assert cmp(s[0], s[0]) <= 0;
    }
  }

  ghost predicate Sorted<T>(s: seq<T>, cmp: (T, T) -> int) {
    forall i, j :: 0 <= i < j < |s| ==> cmp(s[i], s[j]) <= 0
  }

  lemma {:induction false} InsertKeepsSorted<T(!new)>(x: T, s: seq<T>, cmp: (T, T) -> int)
    requires Comparator(cmp) && Sorted(s, cmp)
    ensures Sorted(InsertSorted(x, s, cmp), cmp)
  {
    if s != [] && cmp(x, s[0]) > 0 {
      var rest := InsertSorted(x, s[1..], cmp);
      InsertKeepsSorted(x, s[1..], cmp);
      SameMembers(rest, [x] + s[1..]);
      forall y | y in rest
        ensures cmp(s[0], y) <= 0
      {
        assert y in [x] + s[1..];
      }
    }
  }

  /** No two elements are the wrong way round. */
  lemma {:induction false} SortSorts<T(!new)>(s: seq<T>, cmp: (T, T) -> int)
    requires Comparator(cmp)
    ensures Sorted(Sort(s, cmp), cmp)
  {
    if s != [] {
      SortSorts(s[1..], cmp);
      InsertKeepsSorted(s[0], Sort(s[1..], cmp), cmp);
    }
  }
}

/** Cardinality facts about finite sets. */
module SetFacts {
  lemma SubsetSize<T>(a: set<T>, b: set<T>)
    requires a <= b
    ensures |a| <= |b|
  {
    assert b == a + (b - a);
  }

  lemma NoMembers<T>(s: set<T>)
    requires forall x :: x !in s
    ensures s == {}
  {
  }

  lemma EmptyOrMember<T>(s: seq<T>)
    ensures s == [] || exists x :: x in s
  {
    if s != [] {
      assert s[0] in s;
    }
  }

  /** A set with an injection into another is no larger. */
  lemma {:induction false} InjectionSize<T, U>(a: set<T>, image: map<T, U>, b: set<U>)
    requires forall x :: x in a ==> x in image && image[x] in b
    requires forall x, y :: x in a && y in a && image[x] == image[y] ==> x == y
    ensures |a| <= |b|
  {
    if a != {} {
      var x :| x in a;
      InjectionSize(a - {x}, image, b - {image[x]});
    }
  }

  /** Two sets that map onto each other one to one. */
  lemma MatchedSize<T, U>(a: set<T>, there: map<T, U>, b: set<U>, back: map<U, T>)
    requires forall x :: x in a ==> x in there && there[x] in b && there[x] in back && back[there[x]] == x
    requires forall y :: y in b ==> y in back && back[y] in a && back[y] in there && there[back[y]] == y
    ensures |a| == |b|
  {
    InjectionSize(a, there, b);
    InjectionSize(b, back, a);
  }

  /** What a scan has collected from `all` when it moves on past `x`. */
  lemma CollectedSoFar<T>(all: set<T>, rest: set<T>, x: T)
    requires x in rest
    ensures x !in all - rest
    ensures all - (rest - {x}) == if x in all then (all - rest) + {x} else all - rest
    ensures |all - (rest - {x})| == |all - rest| + if x in all then 1 else 0
  {
    assert all - (rest - {x}) == if x in all then (all - rest) + {x} else all - rest;
  }

  /** Some element, for loops that visit a collection in whatever order it has. */
  method Pick<T(==)>(s: set<T>) returns (x: T)
    requires s != {}
    ensures x in s
  {
    x :| x in s;
  }
}

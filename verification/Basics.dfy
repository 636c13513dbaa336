/** Smaller and larger numbers, and lists without duplicates. */
module Basics {

  function Min(a: int, b: int): int {
    if a <= b then a else b
  }

  function Max(a: int, b: int): int {
    if a >= b then a else b
  }

  predicate NoDuplicates<T(==)>(list: seq<T>) {
    forall i, j :: 0 <= i < j < |list| ==> list[i] != list[j]
  }

  lemma AppendKeeps<T>(list: seq<T>, x: T)
    requires NoDuplicates(list) && x !in list
    ensures NoDuplicates(list + [x])
  {
  }

  lemma {:induction false} LengthOfSet<T>(list: seq<T>)
    requires NoDuplicates(list)
    ensures |set x | x in list| == |list|
  {
    if list != [] {
      var front, last := list[..|list| - 1], list[|list| - 1];
      LengthOfSet(front);
      assert list == front + [last];
      assert (set x | x in list) == (set x | x in front) + {last};
    }
  }

  lemma {:induction false} SubsetSize<T>(a: set<T>, b: set<T>)
    requires a <= b
    ensures |a| <= |b| && (|a| == |b| ==> a == b)
    decreases b
  {
    if x :| x in b {
      if x in a {
        SubsetSize(a - {x}, b - {x});
        assert a == (a - {x}) + {x} && b == (b - {x}) + {x};
      } else {
        SubsetSize(a, b - {x});
      }
    } else {
      assert a == b;
    }
  }

  /** A duplicate-free list within another is no longer, and as long only if it
      has all of it. */
  lemma Pigeonhole<T>(small: seq<T>, large: seq<T>)
    requires NoDuplicates(small) && NoDuplicates(large) && forall x :: x in small ==> x in large
    ensures |small| <= |large|
    ensures |small| == |large| ==> forall x :: x in large ==> x in small
  {
    LengthOfSet(small);
    LengthOfSet(large);
    var a, b := set x | x in small, set x | x in large;
    SubsetSize(a, b);
    forall x | x in large && |small| == |large|
      ensures x in small
    {
      assert x in b;
    }
  }
}

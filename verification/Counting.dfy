/** Counting distinct elements of sequences. */
module Counting {

  predicate NoDuplicates<T(==)>(xs: seq<T>) { forall i, j | 0 <= i < j < |xs| :: xs[i] != xs[j] }

  function Elements<T>(xs: seq<T>): set<T> { set x | x in xs }

  lemma {:induction false} ElementsBound<T>(xs: seq<T>)
    ensures |Elements(xs)| <= |xs|
    ensures |Elements(xs)| == |xs| ==> NoDuplicates(xs)
  {
    if xs != [] {
      var front, x := xs[..|xs| - 1], xs[|xs| - 1];
      ElementsBound(front);
      assert xs == front + [x];
      assert Elements(xs) == Elements(front) + {x};
      if |Elements(xs)| == |xs| {
        assert x !in front;
      }
    } else {
      assert Elements(xs) == {};
    }
  }

  lemma {:induction false} DistinctSize<T>(xs: seq<T>)
    requires NoDuplicates(xs)
    ensures |Elements(xs)| == |xs|
  {
    if xs != [] {
      var front, x := xs[..|xs| - 1], xs[|xs| - 1];
      DistinctSize(front);
      assert xs == front + [x] && x !in front;
      assert Elements(xs) == Elements(front) + {x};
    } else {
      assert Elements(xs) == {};
    }
  }

  lemma {:induction false} SubsetSize<T>(a: set<T>, b: set<T>)
    requires a <= b
    ensures |a| <= |b| && (|a| == |b| ==> a == b)
  {
    if a == {} {
      if b != {} { var y :| y in b; assert |b| > 0; }
    } else {
      var x :| x in a;
      SubsetSize(a - {x}, b - {x});
      if |a| == |b| { assert a == (a - {x}) + {x} && b == (b - {x}) + {x}; }
    }
  }

  /** Distinct values that all occur in a sequence no longer than they are many
      fill it: the sequence has no duplicates and no other values. */
  lemma Pigeonhole<T>(xs: seq<T>, ys: seq<T>)
    requires NoDuplicates(xs) && |xs| == |ys| && forall x | x in xs :: x in ys
    ensures NoDuplicates(ys) && Elements(xs) == Elements(ys)
  {
    DistinctSize(xs);
    ElementsBound(ys);
    SubsetSize(Elements(xs), Elements(ys));
  }
}

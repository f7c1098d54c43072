/** Sizes of finite sets of small numbers. */
module Sets {

  function Below(n: nat): (s: set<nat>)
    ensures forall i: nat :: i in s <==> i < n
  {
    if n == 0 then {} else Below(n - 1) + {n - 1}
  }

  lemma {:induction false} BelowSize(n: nat)
    ensures |Below(n)| == n
  {
    if n > 0 {
      BelowSize(n - 1);
    }
  }

  lemma {:induction false} SubsetSize<T>(a: set<T>, b: set<T>)
    requires a <= b
    ensures |a| <= |b|
    decreases a
  {
    if a != {} {
      var x :| x in a;
      SubsetSize(a - {x}, b - {x});
    }
  }

  /** Two subsets with no member in common have at most as many members together as the whole. */
  lemma DisjointWithin<T>(a: set<T>, b: set<T>, whole: set<T>)
    requires a <= whole && b <= whole && a !! b
    ensures |a| + |b| <= |whole|
  {
    SubsetSize(a + b, whole);
    assert |a + b| == |a| + |b|;
  }

  lemma DisjointSizes(a: set<nat>, b: set<nat>, n: nat)
    requires a <= Below(n) && b <= Below(n) && a !! b
    ensures |a| + |b| <= n
  {
    BelowSize(n);
    DisjointWithin(a, b, Below(n));
  }
}

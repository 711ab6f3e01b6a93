/** Finite sets. */
module Sets {
  lemma IsEmpty<T(!new)>(s: set<T>)
    requires forall x :: x !in s
    ensures s == {}
  {
  }

  lemma Member<T(!new)>(s: set<T>) returns (x: T)
    requires s != {}
    ensures x in s
  {
    if forall y :: y !in s { IsEmpty(s); }
    x :| x in s;
  }

  lemma SubsetSize<T>(a: set<T>, b: set<T>)
    requires a <= b
    ensures |a| <= |b|
    ensures |a| == |b| ==> a == b
  {
    assert b == a + (b - a);
  }

  lemma DisjointSize<T>(a: set<T>, b: set<T>)
    requires a !! b
    ensures |a + b| == |a| + |b|
  {
  }
}

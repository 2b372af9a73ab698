/** Cardinalities of finite sets. */
module Sets {

  lemma SubsetIsSmaller<T>(a: set<T>, b: set<T>)
    requires a <= b
    ensures |a| <= |b|
  {
    assert b == a + (b - a);
  }

  lemma ProperSubsetIsSmaller<T>(a: set<T>, b: set<T>)
    requires a < b
    ensures |a| < |b|
  {
    ghost var x :| x in b && x !in a;
    assert b == a + (b - a) && x in b - a;
  }

  lemma CoveredIsSmaller<T>(a: set<T>, b: set<T>, c: set<T>)
    requires a <= b + c
    ensures |a| <= |b| + |c|
  {
    assert a == (a * b) + (a - b);
    SubsetIsSmaller(a * b, b);
    SubsetIsSmaller(a - b, c);
  }
}

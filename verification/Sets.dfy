/** Counting facts about finite sets. */
module Sets {
  /** Pigeonhole: distinct members of a finite set are no more than the set. */
  lemma {:induction false} DistinctFits<T>(xs: seq<T>, s: set<T>)
    requires forall i | 0 <= i < |xs| :: xs[i] in s
    requires forall i, j | 0 <= i < j < |xs| :: xs[i] != xs[j]
    ensures |xs| <= |s|
  {
    if xs == [] {
    } else {
      DistinctFits(xs[1..], s - {xs[0]});
    }
  }

  lemma SubsetFits<T>(a: set<T>, b: set<T>)
    requires a <= b
    ensures |a| <= |b| && (|a| == |b| ==> a == b)
  {
    assert b == a + (b - a);
  }
}

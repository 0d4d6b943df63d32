/** Sequences without repetition. */
module Sequences {

  ghost predicate Distinct<T>(xs: seq<T>) {
    forall i, j :: 0 <= i < j < |xs| ==> xs[i] != xs[j]
  }

  lemma {:induction false} DistinctSize<T>(xs: seq<T>, within: set<T>)
    requires Distinct(xs) && forall x :: x in xs ==> x in within
    ensures |xs| <= |within|
  {
    if xs != [] {
      var init, last := xs[..|xs| - 1], xs[|xs| - 1];
      assert forall i :: 0 <= i < |init| ==> init[i] == xs[i];
      DistinctSize(init, within - {last});
    }
  }
}

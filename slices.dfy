/** The slice helpers the strategies borrow from the `sam` package
    (`SliceInt.Sum` and `SliceFloat64.MaxIndex`).  `Sum` is the plain
    total; `MaxIndex` is relied on only for returning an index of some
    maximal element (no tie-break rule is promised). */
module Slices {

  /** The plain total of an integer slice, which is what `SliceInt.Sum`
      is taken to compute; a slice with no negative entry has a
      non-negative total. */
  function Sum(s: seq<int>): (t: int)
    ensures AllNonNegative(s) ==> t >= 0
  {
    if s == [] then 0 else Sum(s[..|s| - 1]) + s[|s| - 1]
  }

  predicate AllNonNegative(s: seq<int>)
  {
    forall i :: 0 <= i < |s| ==> s[i] >= 0
  }

  /** With no negative entry, every entry is bounded by the total. */
  lemma {:induction false} SumBoundsEach(s: seq<int>, i: int)
    requires AllNonNegative(s)
    requires 0 <= i < |s|
    ensures 0 <= s[i] <= Sum(s)
  {
    var p := s[..|s| - 1];
    assert AllNonNegative(p) by {
      forall j | 0 <= j < |p| ensures p[j] >= 0 { assert p[j] == s[j]; }
    }
    if i < |s| - 1 {
      assert p[i] == s[i];
      SumBoundsEach(p, i);
    } else if |p| > 0 {
      SumBoundsEach(p, 0);
    }
  }

  /** `k` indexes a largest element of `s`. */
  predicate IsMaxIndex(s: seq<real>, k: int)
  {
    0 <= k < |s| && forall j :: 0 <= j < |s| ==> s[j] <= s[k]
  }

  /** An index of a maximal element of a non-empty slice. */
  function MaxIndex(s: seq<real>): (k: nat)
    requires |s| > 0
    ensures IsMaxIndex(s, k)
  {
    if |s| == 1 then 0
    else
      var m := MaxIndex(s[..|s| - 1]);
      if s[|s| - 1] > s[m] then |s| - 1 else m
  }
}

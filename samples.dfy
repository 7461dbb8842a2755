/** Gathering samples by a boolean mask, as numpy's `a[cond]` does:
    the elements that pass the test, in their original order. */
module Samples {

  /** The elements of `s` that satisfy `keep`, in order. Defined from the
      back so that it unfolds the way a left-to-right scan extends. */
  function Filter<T(!new)>(s: seq<T>, keep: T -> bool): (r: seq<T>)
    ensures |r| <= |s|
    ensures forall k :: 0 <= k < |r| ==> keep(r[k]) && r[k] in s
    ensures (forall k :: 0 <= k < |s| ==> keep(s[k])) ==> r == s
    ensures (forall k :: 0 <= k < |s| ==> !keep(s[k])) ==> r == []
  {
    if s == [] then []
    else
      var n := |s| - 1;
      assert forall k :: 0 <= k < n ==> s[..n][k] == s[k];
      assert s[..n] + [s[n]] == s;
      Filter(s[..n], keep) + (if keep(s[n]) then [s[n]] else [])
  }

  /** The positions of `s` whose element satisfies `keep`: the mask itself. */
  ghost function Matching<T>(s: seq<T>, keep: T -> bool): set<int> {
    set i | 0 <= i < |s| && keep(s[i])
  }

  /** The number of gathered samples is the number of positions the mask selects. */
  lemma {:induction false} FilterCount<T(!new)>(s: seq<T>, keep: T -> bool)
    ensures |Filter(s, keep)| == |Matching(s, keep)|
  {
    if s != [] {
      var n := |s| - 1;
      var init := s[..n];
      FilterCount(init, keep);
      assert n !in Matching(init, keep);
      if keep(s[n]) {
        assert Matching(s, keep) == Matching(init, keep) + {n};
      } else {
        assert Matching(s, keep) == Matching(init, keep);
      }
    }
  }

  /** Masked gathering loses nothing: every element that passes the test is
      kept as often as it occurs, and every other element is dropped. */
  lemma {:induction false} FilterMultiset<T(!new)>(s: seq<T>, keep: T -> bool)
    ensures forall x :: multiset(Filter(s, keep))[x] == if keep(x) then multiset(s)[x] else 0
  {
    if s != [] {
      var n := |s| - 1;
      FilterMultiset(s[..n], keep);
      assert s[..n] + [s[n]] == s;
      assert multiset(s) == multiset(s[..n]) + multiset{s[n]};
    }
  }
}

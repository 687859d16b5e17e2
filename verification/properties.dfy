/**
  What the similarity finder computes when it is given the linear searcher,
  i.e. a searcher that answers membership truthfully: the classic Jaccard
  coefficient |A ∩ B| / |A ∪ B| on duplicate-free inputs, and the edge cases
  the finder's tests pin down.
 */
module JaccardProperties {
  import opened Searching
  import opened Similarity

  /** The set of values occurring in `s`. */
  ghost function Elems(s: seq<int>): set<int>
  {
    set x | x in s
  }

  /** No value occurs twice in `s`. */
  ghost predicate Distinct(s: seq<int>)
  {
    forall i, j :: 0 <= i < j < |s| ==> s[i] != s[j]
  }

  /** With the linear searcher, every element of `a` occurring in `b` is counted. */
  lemma {:induction false} CommonWhenAllFound(a: seq<int>, b: seq<int>)
    requires forall i :: 0 <= i < |a| ==> a[i] in b
    ensures Common(a, b, LinearSearch) == |a|
  {
    if |a| > 0 {
      CommonWhenAllFound(a[..|a| - 1], b);
    }
  }

  /** With the linear searcher, no element of `a` absent from `b` is counted. */
  lemma {:induction false} CommonWhenNoneFound(a: seq<int>, b: seq<int>)
    requires forall i :: 0 <= i < |a| ==> a[i] !in b
    ensures Common(a, b, LinearSearch) == 0
  {
    if |a| > 0 {
      CommonWhenNoneFound(a[..|a| - 1], b);
    }
  }

  /** A sequence has at most as many distinct values as elements, and exactly as many when duplicate-free. */
  lemma {:induction false} ElemsCount(s: seq<int>)
    ensures |Elems(s)| <= |s|
    ensures Distinct(s) ==> |Elems(s)| == |s|
  {
    if |s| > 0 {
      var n := |s| - 1;
      var prefix := s[..n];
      ElemsCount(prefix);
      assert Elems(s) == Elems(prefix) + {s[n]};
      if Distinct(s) {
        assert Distinct(prefix);
        assert s[n] !in Elems(prefix);
      }
    }
  }

  /**
    For a duplicate-free `a`, the linear searcher's hit count is the size of
    the intersection of the two value sets.
   */
  lemma {:induction false} CommonIsIntersectionSize(a: seq<int>, b: seq<int>)
    requires Distinct(a)
    ensures Common(a, b, LinearSearch) == |Elems(a) * Elems(b)|
  {
    if |a| > 0 {
      var n := |a| - 1;
      var prefix := a[..n];
      assert Distinct(prefix);
      CommonIsIntersectionSize(prefix, b);
      var before := Elems(prefix) * Elems(b);
      assert a[n] !in before;
      if a[n] in b {
        assert Elems(a) * Elems(b) == before + {a[n]};
      } else {
        assert Elems(a) * Elems(b) == before;
      }
    }
  }

  /** A subset is no larger than its superset. */
  lemma {:induction false} SubsetSize(x: set<int>, y: set<int>)
    requires x <= y
    ensures |x| <= |y|
  {
    var rest := y - x;
    assert y == x + rest;
    assert x * rest == {};
  }

  /** Two sequences holding the same elements, in any order, are identical (similarity 1). */
  lemma {:induction false} SameElementsAreIdentical(a: seq<int>, b: seq<int>)
    requires multiset(a) == multiset(b)
    ensures JaccardSimilarity(a, b, LinearSearch) == Ratio(1.0)
  {
    assert |a| == |multiset(a)| == |b|;
    forall i | 0 <= i < |a|
      ensures a[i] in b
    {
      assert a[i] in multiset(b);
    }
    CommonWhenAllFound(a, b);
  }

  /** Sequences without a common value, one of them possibly empty, have similarity 0. */
  lemma {:induction false} DisjointAreUnrelated(a: seq<int>, b: seq<int>)
    requires forall i :: 0 <= i < |a| ==> a[i] !in b
    requires |a| > 0 || |b| > 0
    ensures JaccardSimilarity(a, b, LinearSearch) == Ratio(0.0)
  {
    CommonWhenNoneFound(a, b);
  }

  /** When the second sequence's values all come from the first, every value of `b` is shared. */
  lemma {:induction false} FirstContainsSecond(a: seq<int>, b: seq<int>)
    requires Distinct(a) && Distinct(b)
    requires forall j :: 0 <= j < |b| ==> b[j] in a
    requires |a| > 0
    ensures Common(a, b, LinearSearch) == |b|
    ensures JaccardSimilarity(a, b, LinearSearch) == Ratio(|b| as real / |a| as real)
  {
    CommonIsIntersectionSize(a, b);
    assert Elems(a) * Elems(b) == Elems(b);
    ElemsCount(b);
  }

  /** When the first sequence's values all occur in the second, every element of `a` is shared. */
  lemma {:induction false} SecondContainsFirst(a: seq<int>, b: seq<int>)
    requires forall i :: 0 <= i < |a| ==> a[i] in b
    requires |b| > 0
    ensures Common(a, b, LinearSearch) == |a|
    ensures JaccardSimilarity(a, b, LinearSearch) == Ratio(|a| as real / |b| as real)
  {
    CommonWhenAllFound(a, b);
  }

  /**
    On duplicate-free sequences that are not both empty the finder computes
    the Jaccard coefficient of their value sets.
   */
  lemma {:induction false} SetJaccard(a: seq<int>, b: seq<int>)
    requires Distinct(a) && Distinct(b)
    requires |a| > 0 || |b| > 0
    ensures |Elems(a) + Elems(b)| > 0
    ensures JaccardSimilarity(a, b, LinearSearch)
         == Ratio(|Elems(a) * Elems(b)| as real / |Elems(a) + Elems(b)| as real)
  {
    CommonIsIntersectionSize(a, b);
    ElemsCount(a);
    ElemsCount(b);
    if |a| > 0 {
      assert a[0] in Elems(a) + Elems(b);
    } else {
      assert b[0] in Elems(a) + Elems(b);
    }
  }

  /** A duplicate-free probe sequence keeps the similarity within [0, 1]. */
  lemma {:induction false} DistinctProbeIsBounded(a: seq<int>, b: seq<int>)
    requires Distinct(a)
    ensures JaccardSimilarity(a, b, LinearSearch).Ratio?
    ensures 0.0 <= JaccardSimilarity(a, b, LinearSearch).value <= 1.0
  {
    var common := Common(a, b, LinearSearch);
    CommonIsIntersectionSize(a, b);
    SubsetSize(Elems(a) * Elems(b), Elems(b));
    ElemsCount(b);
    if |b| == 0 && |a| > 0 {
      assert Elems(b) == {};
    }
  }

  /** A repeated probe element is counted once per occurrence, so the result can exceed 1. */
  lemma DuplicatesCanExceedOne(x: int)
    ensures JaccardSimilarity([x, x], [x], LinearSearch) == Ratio(2.0)
  {
    CommonWhenAllFound([x, x], [x]);
  }
}

/**
  Concrete inputs from the finder's tests, worked out with the linear
  searcher from the general lemmas rather than by evaluation.
 */
module Scenarios {
  import opened Searching
  import opened Similarity
  import opened JaccardProperties

  /** Five probes against ten values share only 0: 1 / (5 + 10 - 1). */
  lemma OneCommonElement()
    ensures JaccardSimilarity([-4, -3, -2, -1, 0], [0, 1, 2, 3, 4, 5, 6, 7, 8, 9], LinearSearch) == Ratio(1.0 / 14.0)
  {
    var b := [0, 1, 2, 3, 4, 5, 6, 7, 8, 9];
    var missing := [-4, -3, -2, -1];
    CommonWhenNoneFound(missing, b);
    CommonWhenAllFound([0], b);
    CommonAppend(missing, [0], b, LinearSearch);
    assert missing + [0] == [-4, -3, -2, -1, 0];
  }

  /** Four probes against a haystack holding 4 twice: one hit, 1 / (4 + 5 - 1). */
  lemma RepeatedHaystackValue()
    ensures JaccardSimilarity([1, 2, 3, 4], [4, 4, 10, 11, 21], LinearSearch) == Ratio(0.125)
  {
    var a := [1, 2, 3, 4];
    var b := [4, 4, 10, 11, 21];
    CommonIsIntersectionSize(a, b);
    assert Elems(a) * Elems(b) == {4};
  }
}

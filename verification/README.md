# Jaccard similarity of integer sequences

This project models the similarity finder of the `edu.iis.mto.similarity` lab:
`SimilarityFinder.calculateJackardSimilarity(a, b)` computes the Jaccard
coefficient of two `int[]` sequences. It never reads the elements of `b` itself. Instead it asks an
injected `SequenceSearcher` once per element of `a`, in order, whether that
element occurs in `b`, always handing over the whole of `b` as the haystack.
The number of "found" answers is `common`, and the result is
`(double) common / (|a| + |b| - common)`. Two empty sequences are taken to be
identical (1.0) and cause no search at all.

SimilarityFinder's own source is not part of this model; its two test
classes fix its behaviour: the expected values, the edge cases and the
interaction with recording and counting searchers.

Layout:

- `searching.dfy`, module `Searching`: the `SearchResult(found, position)`
  value and the linear searcher the tests install (first matching index, or
  not found at -1).
- `similarity.dfy`, module `Similarity`:
  - the searcher as an object with state: `Searcher<S>` maps the state, an
    element and a haystack to the next state and an answer; a
    `PureSearcher` is one whose answer depends on its arguments only;
  - the count of found probes under a pure searcher, `Common`;
  - the Java `double` quotient, as the datatype
    `Jaccard = Ratio(real) | PositiveInfinity | NaN`, and the coefficient
    formed from a count, `Coefficient`;
  - the similarity under a pure searcher, `JaccardSimilarity`;
  - the interaction with a stateful searcher, `Run`: one call per element of
    `a`, in order, with `b` as the haystack, each call starting from the
    state the previous one left;
  - the loop `CountCommon` and the operation `CalculateJaccardSimilarity`,
    which thread the searcher's state and return its final state;
  - the tests' counting and recording searchers (`Counter`, `Recorder`) and
    what they observe.
- `properties.dfy`, module `JaccardProperties`: what the finder computes with
  a truthful searcher. This covers sequences with the same elements, disjoint
  sequences, containment either way, the set formula |A ∩ B| / |A ∪ B| for
  duplicate-free inputs, and the [0, 1] bound for a duplicate-free `a`.
- `scenarios.dfy`, module `Scenarios`: two concrete inputs from the tests,
  derived from the general lemmas.

The operation is modelled for every searcher whose effects are confined to
its own state, not only truthful ones. Its answers may depend on earlier
calls. A stub that counts or records its calls and returns a default-built
result is covered: the calculation completes, the counter ends at `|a|`, and
the recorder's log holds `Call(a[i], b)` for each `i`. When
`b` is empty and a dishonest searcher reports every probe of a non-empty `a`
as found, the Java quotient divides by zero. The model yields
`PositiveInfinity` there, as a Java `double` division does. `NaN` cannot arise.

## Model

| member | source | states |
|---|---|---|
| Searching.SearchFrom | src/test/java/edu/iis/mto/similarity/SimilarityFinderTest.java:22-25 | scanning from index i, the result is found exactly when elem occurs at some index at or after i; the position is then the first such index; otherwise the position is -1 |
| Searching.LinearSearch | src/test/java/edu/iis/mto/similarity/SimilarityFinderTest.java:21-26 | found exactly when elem is in the sequence, with position the first index holding elem; not found with position -1 otherwise |
| Similarity.Quotient | src/test/java/edu/iis/mto/similarity/SimilarityFinderTest.java:82 | `(double) n / d` is a finite ratio exactly when d > 0, and then ratio times d equals n, it is non-negative, at most 1 when n <= d, and exactly 1 when n == d; it is +Infinity exactly when d == 0 < n and NaN exactly when both are 0 |
| Similarity.Common | src/test/java/edu/iis/mto/similarity/SimilarityFinderTest.java:81-82 | the number of probes reported found never exceeds the length of the probe sequence, so the union size is never negative |
| Similarity.CommonCountsFoundPositions | src/test/java/edu/iis/mto/similarity/SimilarityFinderTest.java:99-100 | common equals the number of positions of a whose element the searcher reports found in b |
| Similarity.JaccardSimilarity | src/test/java/edu/iis/mto/similarity/SimilarityFinderTest.java:45-67 | for any searcher: two empty sequences give 1.0, an empty first sequence against a non-empty one gives 0.0, the result is never NaN and is non-negative, and it is infinite exactly when b is empty and every probe of a non-empty a was reported found |
| Similarity.Coefficient | src/test/java/edu/iis/mto/similarity/SimilarityFinderTest.java:100 | two empty sequences give 1.0; otherwise a finite result times the union size \|a\| + \|b\| - common equals common; never NaN; infinite exactly when b is empty and every probe of a non-empty a was counted; finite whenever b is non-empty |
| Similarity.Run | src/test/java/edu/iis/mto/similarity/SimilarityFinderTest.java:136-155 | the count of found answers never exceeds \|a\|, and an empty a leaves the searcher's state untouched, whatever b holds |
| Similarity.CountCommon | src/test/java/edu/iis/mto/similarity/SimilarityFinderTest.java:115-134 | the loop's count and the searcher's final state are those of the interaction Run: one call per element of a, in order, against b |
| Similarity.CalculateJaccardSimilarity | src/test/java/edu/iis/mto/similarity/BehaviourTest.java:14-35 | the searcher's final state is that of Run and the result is the coefficient of Run's count; an empty a, in particular two empty sequences, leaves the searcher untouched |
| Similarity.StatelessRun | src/test/java/edu/iis/mto/similarity/SimilarityFinderTest.java:21-26 | a searcher without state, like the tests' lambda, is asked about a and leaves its state alone, and the calculation then equals JaccardSimilarity |
| Similarity.RecorderSeesEveryCall | src/test/java/edu/iis/mto/similarity/SimilarityFinderTest.java:157-197 | a recording searcher receives exactly \|a\| calls, the i-th carrying a[i] and the whole of b as the haystack, and its answers are counted as Common |
| Similarity.CounterCountsCalls | src/test/java/edu/iis/mto/similarity/BehaviourTest.java:14-81 | a counting searcher ends at its starting count plus \|a\|: 0 for two empty sequences, 1 for one probe, 4 for four probes against a haystack with a repeated 4 |
| Similarity.StatefulAnswersMatter | src/test/java/edu/iis/mto/similarity/BehaviourTest.java:16-24 | a searcher is an object with state; one that says "found" only on its first call gives 1 / (2 + 1 - 1) = 0.5 for [x, x] against [x] |
| JaccardProperties.CommonWhenAllFound | src/test/java/edu/iis/mto/similarity/SimilarityFinderTest.java:89-90 | with the linear searcher, if every element of a occurs in b then common equals \|a\| |
| JaccardProperties.CommonWhenNoneFound | src/test/java/edu/iis/mto/similarity/SimilarityFinderTest.java:55-57 | with the linear searcher, if no element of a occurs in b then common is 0 |
| JaccardProperties.CommonIsIntersectionSize | src/test/java/edu/iis/mto/similarity/SimilarityFinderTest.java:106-108 | for a duplicate-free a and the linear searcher, common is the size of the intersection of the value sets of a and b |
| JaccardProperties.SameElementsAreIdentical | src/test/java/edu/iis/mto/similarity/SimilarityFinderTest.java:29-43 | sequences that are permutations of each other have similarity exactly 1.0, including the empty pair |
| JaccardProperties.DisjointAreUnrelated | src/test/java/edu/iis/mto/similarity/SimilarityFinderTest.java:53-75 | sequences sharing no value, not both empty, have similarity 0.0; this covers one empty side in either order |
| JaccardProperties.FirstContainsSecond | src/test/java/edu/iis/mto/similarity/SimilarityFinderTest.java:77-84 | for duplicate-free a and b whose values all come from a non-empty a, common equals \|b\| and the result is \|b\| / \|a\| |
| JaccardProperties.SecondContainsFirst | src/test/java/edu/iis/mto/similarity/SimilarityFinderTest.java:86-93 | when every element of a occurs in a non-empty b, common equals \|a\| and the result is \|a\| / \|b\| |
| JaccardProperties.SetJaccard | src/test/java/edu/iis/mto/similarity/SimilarityFinderTest.java:95-111 | for duplicate-free sequences that are not both empty, the result is the Jaccard coefficient of their value sets, \|A ∩ B\| / \|A ∪ B\| |
| JaccardProperties.DistinctProbeIsBounded | src/test/java/edu/iis/mto/similarity/SimilarityFinderTest.java:77-111 | when a has no duplicates, the linear searcher's result is a finite ratio in [0, 1] for every b |
| JaccardProperties.DuplicatesCanExceedOne | src/test/java/edu/iis/mto/similarity/SimilarityFinderTest.java:82 | each repeated probe is counted once per occurrence, so a = [x, x] and b = [x] give 2.0 for every x |
| Scenarios.OneCommonElement | src/test/java/edu/iis/mto/similarity/SimilarityFinderTest.java:96-101 | probes -4..0 against 0..9 share exactly one value, which gives 1 / 14 |
| Scenarios.RepeatedHaystackValue | src/test/java/edu/iis/mto/similarity/BehaviourTest.java:75-76 | the linear searcher on the test's inputs 1..4 against {4, 4, 10, 11, 21} gives one hit and 1 / 8 (the test itself checks only the call count, stated by Similarity.CounterCountsCalls) |

## Left out

- SimilarityFinder.java, SearchResult.java and SequenceSearcher.java are not part of this model. The finder is modelled from the behaviour its tests fix. The searcher is an arbitrary state-transition function. The result is a plain datatype, with no builder.
- The default values of a builder-made `SearchResult` are not assumed. Every `SearchResult` value is covered instead.
- Null arrays: the tests never pass one, so rejection of null inputs is not modelled.
- Similarity.Quotient: the value is the exact rational `n / d`, not the nearest IEEE double. The tests compare against the same `double` expression, so the rounding is common to both sides.
- Similarity.Coefficient: the 32-bit `int` arithmetic of `|a| + |b| - common` is not modelled. Wrap-around in the middle of the sum cancels out, so the Java value differs only when the union size `|a| + |b| - common` exceeds 2^31 - 1 (for example `|a| = 2^31 - 8`, `|b| = 8`, no shared value).
- Similarity.CalculateJaccardSimilarity: a variant that returns 0.0 without searching when exactly one sequence is empty is not modelled. The model searches once per element of a non-empty `a`, even against an empty `b`. With a truthful searcher both give 0.0.
- Similarity.CalculateJaccardSimilarity: a searcher that writes into the `int[]` haystack it is handed is not modelled. The haystack is an immutable sequence, so every call sees `b` as it was passed in.
- Similarity.CalculateJaccardSimilarity: a searcher that returns null instead of a `SearchResult`, on which the finder's call to `isFound()` would throw a `NullPointerException`, is not modelled, nor is one that never returns. The answer is a plain datatype value of a total function.
- Similarity.CalculateJaccardSimilarity: a searcher that throws, or that changes objects other than its own state, is not modelled.
- Reading the stubs' private counters by reflection, and the JUnit lifecycle, are test plumbing. The state of the `Counter` and `Recorder` searchers stands for those counters and fields.
- The `position` field of a search result is never read by the calculation. It is modelled only in the linear searcher's contract.

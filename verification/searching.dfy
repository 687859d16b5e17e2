/**
  The collaborator that answers "where does `elem` occur in `sequence`?".
  The finder only consumes the `found` flag; `position` is part of the
  collaborator's answer and is never read by the similarity calculation.
 */
module Searching {

  /** The answer of one search: whether the element was found and at which index. */
  datatype SearchResult = SearchResult(found: bool, position: int)

  /** Scans `sequence` from index `i` onwards and stops at the first occurrence of `elem`. */
  function SearchFrom(elem: int, sequence: seq<int>, i: nat): (r: SearchResult)
    requires i <= |sequence|
    ensures r.found <==> exists k :: i <= k < |sequence| && sequence[k] == elem
    ensures r.found ==> i <= r.position < |sequence| && sequence[r.position] == elem
    ensures r.found ==> forall k :: i <= k < r.position ==> sequence[k] != elem
    ensures !r.found ==> r.position == -1
    decreases |sequence| - i
  {
    if i == |sequence| then SearchResult(false, -1)
    else if sequence[i] == elem then SearchResult(true, i)
    else SearchFrom(elem, sequence, i + 1)
  }

  /**
    The linear searcher the similarity tests install: the first index holding
    `elem`, or "not found" at position -1.
   */
  function LinearSearch(elem: int, sequence: seq<int>): (r: SearchResult)
    ensures r.found <==> elem in sequence
    ensures r.found ==> 0 <= r.position < |sequence| && sequence[r.position] == elem
    ensures r.found ==> forall k :: 0 <= k < r.position ==> sequence[k] != elem
    ensures !r.found ==> r.position == -1
  {
    SearchFrom(elem, sequence, 0)
  }
}

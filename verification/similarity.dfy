/**
  The Jaccard similarity of two integer sequences as the similarity finder
  computes it: every element of the first sequence is looked up in the second
  through an injected searcher, the hits are counted as `common`, and the
  result is `common / (|a| + |b| - common)`, with two empty sequences taken to
  be identical.
 */
module Similarity {
  import opened Searching

  /** A searcher whose answer depends only on the element and the haystack. */
  type PureSearcher = (int, seq<int>) -> SearchResult

  /**
    The injected collaborator as the finder sees it: an object with state `S`
    that, asked about an element and a haystack, answers and moves on to its
    next state (a counter, a log of calls, or a different answer next time).
   */
  type Searcher<!S> = (S, int, seq<int>) -> (S, SearchResult)

  /** One invocation of the searcher, as a recording searcher would observe it. */
  datatype Call = Call(elem: int, haystack: seq<int>)

  /**
    The value of the Java expression `(double) n / d` for ints `n, d >= 0`,
    kept exact: a finite ratio, or the IEEE special values a zero divisor gives.
   */
  datatype Jaccard = Ratio(value: real) | PositiveInfinity | NaN

  function Quotient(n: nat, d: nat): (q: Jaccard)
    ensures q.Ratio? <==> d > 0
    ensures q.Ratio? ==> q.value * (d as real) == n as real
    ensures q.Ratio? ==> 0.0 <= q.value && (n <= d ==> q.value <= 1.0) && (n == d ==> q.value == 1.0)
    ensures q.PositiveInfinity? <==> d == 0 && n > 0
    ensures q.NaN? <==> d == 0 && n == 0
  {
    if d > 0 then Ratio(n as real / d as real)
    else if n > 0 then PositiveInfinity
    else NaN
  }

  /** The number of elements of `a`, duplicates included, that `search` reports found in `b`. */
  function Common(a: seq<int>, b: seq<int>, search: PureSearcher): (n: nat)
    ensures n <= |a|
  {
    if |a| == 0 then 0
    else Common(a[..|a| - 1], b, search) + (if search(a[|a| - 1], b).found then 1 else 0)
  }

  /** The positions of `a` whose element the searcher reports found in `b`. */
  ghost function FoundPositions(a: seq<int>, b: seq<int>, search: PureSearcher): set<nat>
  {
    set i: nat | i < |a| && search(a[i], b).found
  }

  /** `Common` counts exactly the positions the searcher answers with "found". */
  lemma {:induction false} CommonCountsFoundPositions(a: seq<int>, b: seq<int>, search: PureSearcher)
    ensures Common(a, b, search) == |FoundPositions(a, b, search)|
  {
    if |a| > 0 {
      var n := |a| - 1;
      var prefix := a[..n];
      CommonCountsFoundPositions(prefix, b, search);
      var before := FoundPositions(prefix, b, search);
      if search(a[n], b).found {
        assert FoundPositions(a, b, search) == before + {n};
        assert n !in before;
      } else {
        assert FoundPositions(a, b, search) == before;
      }
    }
  }

  /** Counting over a concatenation adds the counts of the parts. */
  lemma {:induction false} CommonAppend(a: seq<int>, c: seq<int>, b: seq<int>, search: PureSearcher)
    ensures Common(a + c, b, search) == Common(a, b, search) + Common(c, b, search)
  {
    if |c| == 0 {
      assert a + c == a;
    } else {
      var init := c[..|c| - 1];
      CommonAppend(a, init, b, search);
      assert (a + c)[..|a + c| - 1] == a + init;
    }
  }

  /**
    The coefficient formed from the number of shared probes: 1 for two empty
    sequences, otherwise `common` over the size of the union.
   */
  function Coefficient(a: seq<int>, b: seq<int>, common: nat): (r: Jaccard)
    requires common <= |a|
    ensures |a| == 0 && |b| == 0 ==> r == Ratio(1.0)
    ensures r.Ratio? && (|a| > 0 || |b| > 0) ==> r.value * ((|a| + |b| - common) as real) == common as real
    ensures !r.NaN?
    ensures r.PositiveInfinity? <==> |b| == 0 && 0 < |a| == common
    ensures |b| > 0 ==> r.Ratio?
  {
    if |a| == 0 && |b| == 0 then Ratio(1.0)
    else Quotient(common, |a| + |b| - common)
  }

  /**
    The similarity of `a` and `b` under a pure searcher: 1 for two empty
    sequences, otherwise the count of found elements over the size of the union.
   */
  function JaccardSimilarity(a: seq<int>, b: seq<int>, search: PureSearcher): (r: Jaccard)
    ensures |a| == 0 && |b| == 0 ==> r == Ratio(1.0)
    ensures |a| == 0 && |b| > 0 ==> r == Ratio(0.0)
    ensures !r.NaN?
    ensures r.PositiveInfinity? <==> |b| == 0 && 0 < |a| == Common(a, b, search)
    ensures r.Ratio? ==> 0.0 <= r.value
    ensures |b| > 0 ==> r.Ratio?
  {
    Coefficient(a, b, Common(a, b, search))
  }

  /** The number of probes answered "found" and the searcher's state after the last call. */
  datatype Tally<S> = Tally(common: nat, state: S)

  /**
    The interaction with a stateful searcher: the elements of `a` are asked
    about in order, each with the whole of `b` as the haystack, every call
    starting from the state the previous call left behind.
   */
  function Run<S>(a: seq<int>, b: seq<int>, search: Searcher<S>, start: S): (t: Tally<S>)
    ensures t.common <= |a|
    ensures |a| == 0 ==> t.state == start
  {
    if |a| == 0 then Tally(0, start)
    else
      var before := Run(a[..|a| - 1], b, search, start);
      var step := search(before.state, a[|a| - 1], b);
      Tally(before.common + (if step.1.found then 1 else 0), step.0)
  }

  /** The counting loop: one search per element of `a`, threading the searcher's state. */
  method CountCommon<S>(a: seq<int>, b: seq<int>, search: Searcher<S>, start: S) returns (count: nat, state: S)
    ensures Tally(count, state) == Run(a, b, search, start)
  {
    count := 0;
    state := start;
    var i := 0;
    while i < |a|
      invariant 0 <= i <= |a|
      invariant Tally(count, state) == Run(a[..i], b, search, start)
    {
      assert a[..i + 1][..i] == a[..i];
      var step := search(state, a[i], b);
      state := step.0;
      if step.1.found {
        count := count + 1;
      }
      i := i + 1;
    }
    assert a[..|a|] == a;
  }

  /**
    The similarity calculation: two empty sequences are identical and leave the
    searcher untouched; otherwise the counting loop runs and the ratio is formed.
   */
  method CalculateJaccardSimilarity<S>(a: seq<int>, b: seq<int>, search: Searcher<S>, start: S) returns (r: Jaccard, state: S)
    ensures state == Run(a, b, search, start).state
    ensures r == Coefficient(a, b, Run(a, b, search, start).common)
    ensures |a| == 0 ==> state == start
  {
    if |a| == 0 && |b| == 0 {
      return Ratio(1.0), start;
    }
    var common;
    common, state := CountCommon(a, b, search, start);
    r := Coefficient(a, b, common);
  }

  /** A pure searcher seen as a searcher whose state never changes. */
  function Stateless<S>(f: PureSearcher): Searcher<S>
  {
    (s: S, elem: int, haystack: seq<int>) => (s, f(elem, haystack))
  }

  /** Under a pure searcher the interaction counts `Common` and leaves the state alone. */
  lemma {:induction false} StatelessRun<S>(a: seq<int>, b: seq<int>, f: PureSearcher, start: S)
    ensures Run(a, b, Stateless(f), start) == Tally(Common(a, b, f), start)
    ensures Coefficient(a, b, Run(a, b, Stateless(f), start).common) == JaccardSimilarity(a, b, f)
  {
    if |a| > 0 {
      StatelessRun(a[..|a| - 1], b, f, start);
    }
  }

  /**
    A searcher that appends every call it receives to its log and answers as
    `inner` does. The tests' recording stubs keep only the last element or
    haystack they were given; that is the final entry of this log.
   */
  function Recorder(inner: PureSearcher): Searcher<seq<Call>>
  {
    (log: seq<Call>, elem: int, haystack: seq<int>) => (log + [Call(elem, haystack)], inner(elem, haystack))
  }

  /**
    The calls a recording searcher receives: exactly one per element of `a`,
    in order, carrying that element and the whole of `b`.
   */
  lemma {:induction false} RecorderSeesEveryCall(a: seq<int>, b: seq<int>, inner: PureSearcher)
    ensures |Run(a, b, Recorder(inner), []).state| == |a|
    ensures forall i :: 0 <= i < |a| ==> Run(a, b, Recorder(inner), []).state[i] == Call(a[i], b)
    ensures Run(a, b, Recorder(inner), []).common == Common(a, b, inner)
  {
    if |a| > 0 {
      var n := |a| - 1;
      RecorderSeesEveryCall(a[..n], b, inner);
    }
  }

  /**
    A searcher that counts its invocations and answers as `inner` does, like
    the tests' counting stubs, whose answer is a default-built result.
   */
  function Counter(inner: PureSearcher): Searcher<nat>
  {
    (calls: nat, elem: int, haystack: seq<int>) => (calls + 1, inner(elem, haystack))
  }

  /** A counting searcher is invoked exactly `|a|` times, whatever `b` holds. */
  lemma {:induction false} CounterCountsCalls(a: seq<int>, b: seq<int>, inner: PureSearcher, calls: nat)
    ensures Run(a, b, Counter(inner), calls).state == calls + |a|
  {
    if |a| > 0 {
      CounterCountsCalls(a[..|a| - 1], b, inner, calls);
    }
  }

  /** A searcher that reports "found" on its first call only. */
  function FoundOnFirstCallOnly(): Searcher<bool>
  {
    (called: bool, elem: int, haystack: seq<int>) => (true, SearchResult(!called, if called then -1 else 0))
  }

  /**
    Answers may depend on the searcher's history: asked twice about the same
    element, a searcher that says "found" only once gives 1 / (2 + 1 - 1).
   */
  lemma StatefulAnswersMatter(x: int)
    ensures Run([x, x], [x], FoundOnFirstCallOnly(), false).common == 1
    ensures Coefficient([x, x], [x], Run([x, x], [x], FoundOnFirstCallOnly(), false).common) == Ratio(0.5)
  {
  }
}

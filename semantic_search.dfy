/** Post-processing of semantic search results. The vector index is
    opaque: given a query and a result count it returns (chunk text,
    distance) pairs. What is modelled is the empty-query guard, the
    conversion of distances to similarity scores, the descending sort and
    the similarity threshold. */
module SemanticSearch {
  import opened Strings
  import opened Results

  /** An L2 distance, as the index reports it. */
  type Distance = d: real | d >= 0.0

  /** One hit from the index: a chunk's text and its distance to the query. */
  datatype Hit = Hit(text: string, distance: Distance)

  /** One search result: a chunk's text and its similarity score. */
  datatype Scored = Scored(text: string, score: real)

  /** The nearest-neighbour search of the index, for a query and a count. */
  type Index = (string, int) -> seq<Hit>

  // ---------------------------------------------------------------------
  // Building the index

  const NoChunksMessage := "No text chunks created from PDF"

  /** Building an index from the chunks the splitter produced: an error
      when there are none, otherwise an index over exactly those chunks. */
  function BuildSemanticIndex(chunks: seq<string>): (r: Result<seq<string>>)
    ensures r.Failure? <==> chunks == []
    ensures r.Failure? ==> r.error == NoChunksMessage
    ensures r.Success? ==> r.value == chunks
  {
    if chunks == [] then Failure(NoChunksMessage) else Success(chunks)
  }

  // ---------------------------------------------------------------------
  // Distance to similarity

  /** The similarity `1 / (1 + distance)`. */
  function Similarity(d: Distance): (s: real)
    ensures 0.0 < s <= 1.0
    ensures s == 1.0 <==> d == 0.0
  {
    1.0 / (1.0 + d)
  }

  /** A larger distance gives a strictly smaller similarity. */
  lemma SimilarityDecreasing(d1: Distance, d2: Distance)
    requires d1 < d2
    ensures Similarity(d1) > Similarity(d2)
  {
    var s1, s2 := Similarity(d1), Similarity(d2);
    assert s1 * (1.0 + d1) == 1.0 && s2 * (1.0 + d2) == 1.0;
    assert s2 * (1.0 + d1) < 1.0 by {
      assert s2 * (1.0 + d1) < s2 * (1.0 + d2);
    }
  }

  /** The distance can be read back from the similarity, so no two distances
      share a score. */
  lemma SimilarityInverse(d: Distance)
    ensures 1.0 / Similarity(d) - 1.0 == d
  {
  }

  /** The pair a hit becomes. */
  function ScoreHit(h: Hit): (r: Scored)
    ensures r.text == h.text && 0.0 < r.score <= 1.0
  {
    Scored(h.text, Similarity(h.distance))
  }

  /** Every hit converted, in hit order. */
  function ScoredHits(hits: seq<Hit>): (r: seq<Scored>)
    ensures |r| == |hits|
  {
    seq(|hits|, i requires 0 <= i < |hits| => ScoreHit(hits[i]))
  }

  /** Hits ordered by distance, nearest first. */
  predicate NearestFirst(hits: seq<Hit>) {
    forall i, j :: 0 <= i < j < |hits| ==> hits[i].distance <= hits[j].distance
  }

  /** Hits in order of distance become results in order of score. */
  lemma ScoredHitsOrdered(hits: seq<Hit>)
    requires NearestFirst(hits)
    ensures SortedDesc(ScoredHits(hits))
  {
    forall i, j | 0 <= i < j < |hits|
      ensures ScoredHits(hits)[i].score >= ScoredHits(hits)[j].score
    {
      if hits[i].distance < hits[j].distance {
        SimilarityDecreasing(hits[i].distance, hits[j].distance);
      }
    }
  }

  /** The conversion loop: one scored result per hit, in hit order, the
      text unchanged. */
  method ScoreHits(hits: seq<Hit>) returns (results: seq<Scored>)
    ensures |results| == |hits|
    ensures forall i :: 0 <= i < |hits| ==> results[i] == ScoreHit(hits[i])
  {
    results := [];
    for i := 0 to |hits|
      invariant |results| == i
      invariant forall j :: 0 <= j < i ==> results[j] == ScoreHit(hits[j])
    {
      results := results + [ScoreHit(hits[i])];
    }
  }

  // ---------------------------------------------------------------------
  // The sort: Python's list.sort(key=score, reverse=True), which is stable

  predicate SortedDesc(xs: seq<Scored>) {
    forall i, j :: 0 <= i < j < |xs| ==> xs[i].score >= xs[j].score
  }

  /** `x` placed before the first element whose score does not exceed its
      own; elements of equal score that were already there stay behind it. */
  function Insert(x: Scored, ys: seq<Scored>): (r: seq<Scored>)
    ensures |r| == |ys| + 1 && (r[0] == x || (ys != [] && r[0] == ys[0]))
  {
    if ys == [] || x.score >= ys[0].score then [x] + ys
    else [ys[0]] + Insert(x, ys[1..])
  }

  /** Inserting adds `x` and loses nothing. */
  lemma {:induction false} InsertPermutes(x: Scored, ys: seq<Scored>)
    ensures multiset(Insert(x, ys)) == multiset(ys) + multiset{x}
  {
    if ys != [] && x.score < ys[0].score {
      InsertPermutes(x, ys[1..]);
      assert ys == [ys[0]] + ys[1..];
    }
  }

  /** Inserting into a sorted list keeps it sorted. */
  lemma {:induction false} InsertSorted(x: Scored, ys: seq<Scored>)
    requires SortedDesc(ys)
    ensures SortedDesc(Insert(x, ys))
  {
    if ys != [] && x.score < ys[0].score {
      var rest := Insert(x, ys[1..]);
      InsertSorted(x, ys[1..]);
      InsertPermutes(x, ys[1..]);
      forall j | 0 <= j < |rest|
        ensures ys[0].score >= rest[j].score
      {
        assert rest[j] in multiset(rest);
        assert rest[j] == x || rest[j] in multiset(ys[1..]);
        if rest[j] != x {
          var k :| 0 <= k < |ys[1..]| && ys[1..][k] == rest[j];
          assert ys[k + 1] == rest[j];
        }
      }
      assert Insert(x, ys) == [ys[0]] + rest;
    }
  }

  /** The list sorted by score, highest first, equal scores in input order. */
  function SortDesc(xs: seq<Scored>): (r: seq<Scored>)
    ensures SortedDesc(r)
    ensures multiset(r) == multiset(xs)
  {
    if xs == [] then []
    else
      var rest := SortDesc(xs[1..]);
      InsertSorted(xs[0], rest);
      InsertPermutes(xs[0], rest);
      assert xs == [xs[0]] + xs[1..];
      Insert(xs[0], rest)
  }

  /** The results with score exactly `v`, in order. */
  function WithScore(xs: seq<Scored>, v: real): (r: seq<Scored>)
    ensures |r| <= |xs|
  {
    if xs == [] then []
    else (if xs[0].score == v then [xs[0]] else []) + WithScore(xs[1..], v)
  }

  lemma WithScoreCons(a: Scored, rest: seq<Scored>, v: real)
    ensures WithScore([a] + rest, v) == (if a.score == v then [a] else []) + WithScore(rest, v)
  {
    assert ([a] + rest)[1..] == rest;
  }

  lemma {:induction false} InsertWithScore(x: Scored, ys: seq<Scored>, v: real)
    ensures WithScore(Insert(x, ys), v)
         == (if x.score == v then [x] else []) + WithScore(ys, v)
  {
    if ys != [] && x.score < ys[0].score {
      var h: seq<Scored> := if x.score == v then [x] else [];
      var g: seq<Scored> := if ys[0].score == v then [ys[0]] else [];
      var w := WithScore(ys[1..], v);
      InsertWithScore(x, ys[1..], v);
      assert Insert(x, ys) == [ys[0]] + Insert(x, ys[1..]);
      WithScoreCons(ys[0], Insert(x, ys[1..]), v);
      assert ys == [ys[0]] + ys[1..];
      WithScoreCons(ys[0], ys[1..], v);
      // `x` scores below `ys[0]`, so at most one of them has score `v`.
      assert h == [] || g == [];
      assert g + (h + w) == h + (g + w);
    } else {
      WithScoreCons(x, ys, v);
    }
  }

  /** Stability: for every score, the results with that score come out in the
      order they went in. */
  lemma {:induction false} SortDescStable(xs: seq<Scored>, v: real)
    ensures WithScore(SortDesc(xs), v) == WithScore(xs, v)
  {
    if xs != [] {
      SortDescStable(xs[1..], v);
      InsertWithScore(xs[0], SortDesc(xs[1..]), v);
    }
  }

  /** Sorting a list that is already in order changes nothing. */
  lemma {:induction false} SortDescOfSorted(xs: seq<Scored>)
    requires SortedDesc(xs)
    ensures SortDesc(xs) == xs
  {
    if xs != [] {
      SortDescOfSorted(xs[1..]);
    }
  }

  // ---------------------------------------------------------------------
  // The search and the threshold

  /** What `search_semantic` returns: nothing for a blank query or when the
      index has no hits, otherwise the converted hits sorted by score. */
  function SearchResults(index: Index, query: string, k: int): (r: seq<Scored>)
    ensures AllSpace(query) ==> r == []
    ensures index(query, k) == [] ==> r == []
  {
    if AllSpace(query) then []
    else
      var hits := index(query, k);
      if hits == [] then [] else SortDesc(ScoredHits(hits))
  }

  /** `search_semantic`: the guard on the query, the index call, the
      conversion loop and the in-place sort. */
  method SearchSemantic(index: Index, query: string, k: int) returns (results: seq<Scored>)
    ensures results == SearchResults(index, query, k)
  {
    if Strip(query) == [] {
      return [];
    }
    var hits := index(query, k);
    if hits == [] {
      return [];
    }
    var formatted := ScoreHits(hits);
    assert formatted == ScoredHits(hits);
    results := SortDesc(formatted);
  }

  /** A blank query gives no results whatever the index holds: the index is
      not consulted. */
  lemma SearchBlankQuery(index1: Index, index2: Index, query: string, k: int)
    requires AllSpace(query)
    ensures SearchResults(index1, query, k) == SearchResults(index2, query, k) == []
  {
  }

  /** For a query that is not blank the results are the index's hits, each
      converted once, sorted by score with ties in hit order. */
  lemma SearchResultsOrdered(index: Index, query: string, k: int)
    requires !AllSpace(query)
    ensures var r, hits := SearchResults(index, query, k), ScoredHits(index(query, k));
      && SortedDesc(r)
      && multiset(r) == multiset(hits)
      && forall v :: WithScore(r, v) == WithScore(hits, v)
  {
    var hits := ScoredHits(index(query, k));
    forall v
      ensures WithScore(SearchResults(index, query, k), v) == WithScore(hits, v)
    {
      SortDescStable(hits, v);
    }
  }

  /** The index already returns hits nearest first, and then the sort
      changes nothing. */
  lemma SearchOfOrderedHits(index: Index, query: string, k: int)
    requires !AllSpace(query) && NearestFirst(index(query, k))
    ensures SearchResults(index, query, k) == ScoredHits(index(query, k))
  {
    ScoredHitsOrdered(index(query, k));
    SortDescOfSorted(ScoredHits(index(query, k)));
  }

  /** `b` contains the elements of `a` in the same order, possibly with
      others in between. */
  predicate Subsequence(a: seq<Scored>, b: seq<Scored>)
    decreases |b|
  {
    a == [] || (b != [] && ((a[0] == b[0] && Subsequence(a[1..], b[1..])) || Subsequence(a, b[1..])))
  }

  /** The comprehension of `search_semantic_with_threshold`. */
  function AboveThreshold(results: seq<Scored>, minSimilarity: real): (r: seq<Scored>)
    ensures Subsequence(r, results)
    ensures forall x :: x in r ==> x in results && x.score >= minSimilarity
    ensures forall i :: 0 <= i < |results| && results[i].score >= minSimilarity ==> results[i] in r
  {
    if results == [] then []
    else if results[0].score >= minSimilarity then
      [results[0]] + AboveThreshold(results[1..], minSimilarity)
    else AboveThreshold(results[1..], minSimilarity)
  }

  /** The filter keeps every copy of a result at or above the minimum and
      no copy of one below it. */
  lemma {:induction false} AboveThresholdCounts(results: seq<Scored>, minSimilarity: real)
    ensures forall x ::
      multiset(AboveThreshold(results, minSimilarity))[x] == (if x.score >= minSimilarity then multiset(results)[x] else 0)
  {
    if results != [] {
      AboveThresholdCounts(results[1..], minSimilarity);
      assert results == [results[0]] + results[1..];
      assert multiset(results) == multiset([results[0]]) + multiset(results[1..]);
    }
  }

  /** An ordered list stays ordered in any subsequence. */
  lemma {:induction false} SubsequenceSorted(a: seq<Scored>, b: seq<Scored>)
    requires Subsequence(a, b) && SortedDesc(b)
    ensures SortedDesc(a)
    ensures forall x :: x in a ==> x in b
    decreases |b|
  {
    if a != [] {
      assert SortedDesc(b[1..]);
      if a[0] == b[0] && Subsequence(a[1..], b[1..]) {
        SubsequenceSorted(a[1..], b[1..]);
        assert a == [a[0]] + a[1..];
        forall j | 0 < j < |a|
          ensures a[0].score >= a[j].score
        {
          assert a[j] in a[1..];
          var m :| 0 <= m < |b| - 1 && b[1..][m] == a[j];
          assert b[m + 1] == a[j];
        }
      } else {
        SubsequenceSorted(a, b[1..]);
      }
    }
  }

  /** The threshold keeps the scores and the order of what it keeps, so its
      result is still sorted by score. */
  lemma AboveThresholdSorted(results: seq<Scored>, minSimilarity: real)
    requires SortedDesc(results)
    ensures SortedDesc(AboveThreshold(results, minSimilarity))
  {
    SubsequenceSorted(AboveThreshold(results, minSimilarity), results);
  }

  /** `search_semantic_with_threshold`: the search, then the filter. */
  method SearchSemanticWithThreshold(index: Index, query: string, k: int, minSimilarity: real)
    returns (filtered: seq<Scored>)
    ensures filtered == AboveThreshold(SearchResults(index, query, k), minSimilarity)
    ensures SortedDesc(filtered)
  {
    var all := SearchSemantic(index, query, k);
    filtered := AboveThreshold(all, minSimilarity);
    AboveThresholdSorted(all, minSimilarity);
  }
}

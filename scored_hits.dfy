/** The search answer shape Pinecone and Qdrant share: each hit carries an
    optional similarity score and an optional metadata payload. Both keep
    hits whose score (missing counts as 0.0) reaches the threshold and report
    `distance = 1 - score`. */
module ScoredHits {
  import opened Wrappers
  import opened Seqs
  import opened Values

  datatype ScoredHit = ScoredHit(score: Option<real>, payload: Option<Meta>)

  /** `match.get("score") or 0.0` / `res.score or 0.0`. */
  function ScoreOf(h: ScoredHit): real {
    h.score.GetOr(0.0)
  }

  /** `match.get("metadata", {})` / `res.payload or {}`. */
  function PayloadOf(h: ScoredHit): Meta {
    h.payload.GetOr(map[])
  }

  /** The result a kept hit becomes. */
  function ResultOf(h: ScoredHit): (r: SearchResult)
    ensures r.metadata == PayloadOf(h) && r.distance == 1.0 - ScoreOf(h)
  {
    SearchResult(Show(Get(PayloadOf(h), "content", Str(""))), PayloadOf(h), 1.0 - ScoreOf(h))
  }

  function Convert(threshold: real): ScoredHit -> Option<SearchResult> {
    (h: ScoredHit) => if ScoreOf(h) < threshold then None else Some(ResultOf(h))
  }

  /** The search loop: skip hits under the threshold, convert the rest, in order. */
  method ConvertHits(hits: seq<ScoredHit>, threshold: real) returns (results: seq<SearchResult>)
    ensures results == FilterMap(hits, Convert(threshold))
  {
    ghost var f := Convert(threshold);
    results := [];
    var i := 0;
    while i < |hits|
      invariant 0 <= i <= |hits|
      invariant results == FilterMap(hits[..i], f)
    {
      FilterMapStep(hits, i, f);
      var score := hits[i].score.GetOr(0.0);
      if score >= threshold {
        results := results + [ResultOf(hits[i])];
      }
      i := i + 1;
    }
    assert hits[..|hits|] == hits;
  }

  /** Every result is a hit of score at least the threshold, with distance
      `1 - score` and at most 1 - threshold; every such hit appears. */
  lemma ConvertedHits(hits: seq<ScoredHit>, threshold: real)
    ensures forall r :: r in FilterMap(hits, Convert(threshold)) ==>
      r.distance <= 1.0 - threshold && exists i :: 0 <= i < |hits| && ScoreOf(hits[i]) >= threshold && r == ResultOf(hits[i])
    ensures forall i :: 0 <= i < |hits| && ScoreOf(hits[i]) >= threshold ==> ResultOf(hits[i]) in FilterMap(hits, Convert(threshold))
    ensures |FilterMap(hits, Convert(threshold))| <= |hits|
  {
    var f := Convert(threshold);
    forall r: SearchResult | r in FilterMap(hits, f)
      ensures r.distance <= 1.0 - threshold && exists i :: 0 <= i < |hits| && ScoreOf(hits[i]) >= threshold && r == ResultOf(hits[i])
    {
      FilterMapSound(hits, f, r);
    }
    forall i | 0 <= i < |hits| && ScoreOf(hits[i]) >= threshold
      ensures ResultOf(hits[i]) in FilterMap(hits, f)
    {
      FilterMapComplete(hits, f, i);
    }
    FilterMapLength(hits, f);
  }

  /** A hit without a score is kept only when the threshold is at most 0. */
  lemma MissingScoreIsZero(h: ScoredHit, threshold: real)
    requires h.score.None?
    ensures Convert(threshold)(h).Some? <==> threshold <= 0.0
  {
  }
}

/** The legacy Chroma-only store of vector_store/store.py: the same
    collection layout as the Chroma backend, but no tracker, no search
    fallback, and `list_documents` read from the stored metadata. */
module LegacyStore {
  import opened Wrappers
  import opened Seqs
  import opened Ordering
  import opened Values
  import opened ChromaStore

  /** What the legacy `search` returns: the candidates that reach the
      threshold, in backend order, up to the loop's early stop, and nothing else. */
  function LegacySearchSpec(cands: seq<Candidate>, topK: int, threshold: real): seq<SearchResult> {
    Take(FilterMap(cands, Passing(threshold)), StopAt(topK))
  }

  /** At most `top_k` results when `top_k >= 1` (one at most otherwise), each
      reaching the threshold; when no candidate reaches it the result is
      empty, candidates or not. */
  lemma LegacySearchFiltered(cands: seq<Candidate>, topK: int, threshold: real)
    ensures topK >= 1 ==> |LegacySearchSpec(cands, topK, threshold)| <= topK
    ensures topK < 1 ==> |LegacySearchSpec(cands, topK, threshold)| <= 1
    ensures forall r :: r in LegacySearchSpec(cands, topK, threshold) ==> CosineSimilarity(r.distance) >= threshold
    ensures (forall i :: 0 <= i < |cands| ==> CosineSimilarity(cands[i].distance) < threshold) ==>
      LegacySearchSpec(cands, topK, threshold) == []
  {
    var f := Passing(threshold);
    forall r: SearchResult | r in LegacySearchSpec(cands, topK, threshold)
      ensures CosineSimilarity(r.distance) >= threshold
    {
      FilterMapSound(cands, f, r);
    }
    FilterMapEmpty(cands, f);
  }

  /** As written, a `top_k` of 0 or less still returns the first candidate
      that reaches the threshold. */
  lemma LegacyNonPositiveTopKReturnsOne(cands: seq<Candidate>, topK: int, threshold: real, i: nat)
    requires topK <= 0 && i < |cands| && CosineSimilarity(cands[i].distance) >= threshold
    ensures |LegacySearchSpec(cands, topK, threshold)| == 1
  {
    FilterMapComplete(cands, Passing(threshold), i);
  }

  /** The legacy search with `top_k` honoured as a bound. */
  function BoundedLegacySearchSpec(cands: seq<Candidate>, topK: int, threshold: real): seq<SearchResult> {
    if topK >= 1 then LegacySearchSpec(cands, topK, threshold) else []
  }

  /** The corrected search never returns more than `max(top_k, 0)` results and
      agrees with the written one wherever `top_k >= 1`. */
  lemma BoundedLegacySearchSpecAtMostTopK(cands: seq<Candidate>, topK: int, threshold: real)
    ensures |BoundedLegacySearchSpec(cands, topK, threshold)| <= if topK >= 1 then topK else 0
    ensures topK >= 1 ==> BoundedLegacySearchSpec(cands, topK, threshold) == LegacySearchSpec(cands, topK, threshold)
  {
  }

  /** The document ids found in the metadata of `entries`. */
  function DocIds(entries: seq<Entry>): set<string> {
    set i, d | 0 <= i < |entries| && d == StoredId(entries[i].metadata) && d.Some? :: d.value
  }

  /** The metadata's `document_id` string, if it has one. */
  function StoredId(m: Meta): Option<string> {
    if "document_id" in m && m["document_id"].Str? then Some(m["document_id"].s) else None
  }

  lemma DocIdsStep(entries: seq<Entry>, i: nat)
    requires i < |entries|
    ensures DocIds(entries[..i + 1]) == DocIds(entries[..i]) +
      (match StoredId(entries[i].metadata) case Some(d) => {d} case None => {})
  {
    var p := entries[..i + 1];
    assert forall k :: 0 <= k < i ==> p[k] == entries[..i][k];
    assert p[i] == entries[i];
  }

  class LegacyVectorStore {
    /** The collection's content. */
    var entries: seq<Entry>
    /** `config.SIMILARITY_THRESHOLD`. */
    const configThreshold: real

    /** Every stored `document_id` is a string, as `add_chunks` writes it. */
    predicate Valid()
      reads this
    {
      forall e :: e in entries && "document_id" in e.metadata ==> e.metadata["document_id"].Str?
    }

    constructor (persisted: seq<Entry>, threshold: real)
      requires forall e :: e in persisted && "document_id" in e.metadata ==> e.metadata["document_id"].Str?
      ensures Valid() && entries == persisted && configThreshold == threshold
    {
      entries := persisted;
      configThreshold := threshold;
    }

    /** `add_chunks`: the same entries as the Chroma backend writes; no
        tracker exists here. */
    method AddChunks(chunks: seq<TextChunk>, documentId: Option<string>, hashes: seq<int>) returns (count: nat)
      requires Valid() && |hashes| == |chunks|
      modifies this
      ensures Valid()
      ensures count == |chunks|
      ensures entries == old(entries) + NewEntries(chunks, documentId, hashes)
    {
      if chunks == [] {
        assert NewEntries(chunks, documentId, hashes) == [];
        return 0;
      }
      entries := entries + NewEntries(chunks, documentId, hashes);
      count := |chunks|;
    }

    /** `search`: the threshold filter with early stop at `top_k`. */
    method Search(topK: int, similarityThreshold: Option<real>, answer: QueryAnswer) returns (results: seq<SearchResult>)
      ensures results == LegacySearchSpec(Candidates(answer), topK, EffectiveThreshold(similarityThreshold, configThreshold))
      ensures topK >= 1 ==> |results| <= topK
    {
      var threshold := EffectiveThreshold(similarityThreshold, configThreshold);
      var cands := if answer.documents == [] then [] else Candidates(answer);
      assert cands == Candidates(answer);
      assert cands[..|cands|] == cands;
      ghost var keep := Passing(threshold);
      results := [];
      var i := 0;
      while i < |cands|
        invariant 0 <= i <= |cands|
        invariant results == FilterMap(cands[..i], keep)
        invariant |results| < StopAt(topK)
      {
        var c := cands[i];
        FilterMapStep(cands, i, keep);
        if CosineSimilarity(c.distance) >= threshold {
          results := results + [AsResult(c)];
          if |results| >= topK {
            FilterMapEarlyStop(cands, i, keep, StopAt(topK));
            return;
          }
        }
        i := i + 1;
      }
    }

    /** `delete_by_document_id`: drops exactly the entries carrying the id. */
    method DeleteByDocumentId(documentId: string)
      requires Valid()
      modifies this
      ensures Valid()
      ensures entries == Surviving(old(entries), documentId)
    {
      DeleteRemovesExactly(entries, documentId);
      entries := Surviving(entries, documentId);
    }

    /** `list_documents`: the sorted set of the `document_id` values stored
        in the metadata. */
    method ListDocuments() returns (r: seq<string>)
      requires Valid()
      ensures StrictlySorted(r)
      ensures forall x :: x in r <==> exists i :: 0 <= i < |entries| && HasDocumentId(entries[i].metadata, x)
    {
      var docIds: set<string> := {};
      var i := 0;
      while i < |entries|
        invariant 0 <= i <= |entries|
        invariant docIds == DocIds(entries[..i])
      {
        DocIdsStep(entries, i);
        var meta := entries[i].metadata;
        if "document_id" in meta {
          docIds := docIds + {meta["document_id"].s};
        }
        i := i + 1;
      }
      assert entries[..i] == entries;
      r := SortSet(docIds);
      forall x ensures x in docIds <==> exists k :: 0 <= k < |entries| && HasDocumentId(entries[k].metadata, x) {
        if x in docIds {
          var k, d :| 0 <= k < |entries| && d == StoredId(entries[k].metadata) && d.Some? && d.value == x;
          assert HasDocumentId(entries[k].metadata, x);
        }
        if exists k :: 0 <= k < |entries| && HasDocumentId(entries[k].metadata, x) {
          var k :| 0 <= k < |entries| && HasDocumentId(entries[k].metadata, x);
          assert StoredId(entries[k].metadata) == Some(x);
        }
      }
    }
  }
}

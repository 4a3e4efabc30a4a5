/** The Chroma backend: chunks go into one collection whose metadata carries
    `document_id`; search filters the native answer by cosine similarity and
    falls back to the closest candidates when nothing passes. */
module ChromaStore {
  import opened Wrappers
  import opened Strings
  import opened Seqs
  import opened Values
  import opened DocumentTracker
  import opened VectorStoreBase

  /** One entry of the collection: its id, document text and metadata. */
  datatype Entry = Entry(id: string, content: string, metadata: Meta)

  /** The native query's answer for the single query embedding: the first row
      of `documents` and `metadatas`, and of `distances` when that is present. */
  datatype QueryAnswer = QueryAnswer(documents: seq<string>, metadatas: seq<Meta>, distances: Option<seq<real>>)

  /** A `(doc, meta, dist)` triple of the candidate list. */
  datatype Candidate = Candidate(content: string, metadata: Meta, distance: real)

  /** `{**c.metadata, "document_id": document_id or "unknown"}`. */
  function ChromaMetadata(m: Meta, documentId: Option<string>): (r: Meta)
    ensures HasDocumentId(r, StoredDocumentId(documentId))
    ensures r.Keys == m.Keys + {"document_id"}
    ensures forall k :: k in m && k != "document_id" ==> r[k] == m[k]
  {
    m["document_id" := Str(StoredDocumentId(documentId))]
  }

  /** `f"chunk_{i}_{hash(c.content) % 10**8}"`. */
  function ChunkId(i: nat, contentHash: int): string {
    "chunk_" + NatToString(i) + "_" + NatToString(contentHash % 100000000)
  }

  /** The entries `add_chunks` hands to the collection, one per chunk in order. */
  function NewEntries(chunks: seq<TextChunk>, documentId: Option<string>, hashes: seq<int>): (r: seq<Entry>)
    requires |hashes| == |chunks|
    ensures |r| == |chunks|
    ensures forall i :: 0 <= i < |r| ==>
      r[i].content == chunks[i].content && HasDocumentId(r[i].metadata, StoredDocumentId(documentId))
  {
    seq(|chunks|, i requires 0 <= i < |chunks| =>
      Entry(ChunkId(i, hashes[i]), chunks[i].content, ChromaMetadata(chunks[i].metadata, documentId)))
  }

  /** The entries left by a delete: those not carrying the document id. */
  function Surviving(entries: seq<Entry>, documentId: string): seq<Entry> {
    Filter(entries, (e: Entry) => !HasDocumentId(e.metadata, documentId))
  }

  /** `fetch_k = max(top_k * 2, 20) if similarity_threshold else top_k`. */
  function FetchK(topK: int, similarityThreshold: Option<real>): (k: int)
    ensures topK >= 0 ==> k >= topK
    ensures ThresholdGiven(similarityThreshold) ==> k >= 20
    ensures !ThresholdGiven(similarityThreshold) ==> k == topK
  {
    if ThresholdGiven(similarityThreshold) then (if topK * 2 > 20 then topK * 2 else 20) else topK
  }

  /** The candidate list: the zip of documents, metadatas and distances (zeros
      when the answer has no distances), empty when there are no documents. */
  function Candidates(a: QueryAnswer): (r: seq<Candidate>)
    ensures |r| <= |a.documents|
  {
    var dists := match a.distances case Some(d) => d case None => seq(|a.documents|, i => 0.0);
    var n := if |a.documents| < |a.metadatas| then |a.documents| else |a.metadatas|;
    var n := if n < |dists| then n else |dists|;
    seq(n, i requires 0 <= i < n => Candidate(a.documents[i], a.metadatas[i], dists[i]))
  }

  function AsResult(c: Candidate): SearchResult {
    SearchResult(c.content, c.metadata, c.distance)
  }

  /** The fallback's conversion: every candidate is kept. */
  function Unfiltered(c: Candidate): Option<SearchResult> {
    Some(AsResult(c))
  }

  /** The conversion of one candidate: kept when its similarity reaches the threshold. */
  function Passing(threshold: real): Candidate -> Option<SearchResult> {
    (c: Candidate) => if CosineSimilarity(c.distance) >= threshold then Some(AsResult(c)) else None
  }

  /** The length at which `if len(search_results) >= top_k: break` first
      fires: `top_k`, or 1 when `top_k <= 0`, since the test follows an append. */
  function StopAt(topK: int): (n: nat)
    ensures n >= 1
    ensures topK >= 1 ==> n == topK
  {
    if topK >= 1 then topK else 1
  }

  /** What `search` returns for a candidate list: the candidates that reach
      the threshold, in backend order, up to the loop's early stop; if none
      does, `candidates[:top_k]` unfiltered. */
  function SearchSpec(cands: seq<Candidate>, topK: int, threshold: real): seq<SearchResult> {
    var passed := Take(FilterMap(cands, Passing(threshold)), StopAt(topK));
    if passed == [] && cands != [] then PyPrefix(FilterMap(cands, Unfiltered), topK)
    else passed
  }

  /** For `top_k >= 1` the result never holds more than `top_k` entries and is
      empty exactly when there are no candidates. */
  lemma SearchSpecSize(cands: seq<Candidate>, topK: int, threshold: real)
    ensures |SearchSpec(cands, topK, threshold)| <= |cands|
    ensures topK >= 1 ==> |SearchSpec(cands, topK, threshold)| <= topK
    ensures topK >= 1 ==> (SearchSpec(cands, topK, threshold) == [] <==> cands == [])
  {
    FilterMapLength(cands, Passing(threshold));
    AllResultsAt(cands);
  }

  /** When some candidate reaches the threshold, every result does, and each
      result is one of the candidates; this holds for every `top_k`. */
  lemma SearchSpecFiltered(cands: seq<Candidate>, topK: int, threshold: real, i: nat)
    requires i < |cands| && CosineSimilarity(cands[i].distance) >= threshold
    ensures forall r :: r in SearchSpec(cands, topK, threshold) ==>
      CosineSimilarity(r.distance) >= threshold && exists j :: 0 <= j < |cands| && AsResult(cands[j]) == r
  {
    var f := Passing(threshold);
    FilterMapComplete(cands, f, i);
    var passed := FilterMap(cands, f);
    forall r | r in SearchSpec(cands, topK, threshold)
      ensures CosineSimilarity(r.distance) >= threshold && exists j :: 0 <= j < |cands| && AsResult(cands[j]) == r
    {
      assert r in passed;
      FilterMapSound(cands, f, r);
    }
  }

  /** When no candidate reaches the threshold, the result is
      `candidates[:top_k]` as they came (for a negative `top_k`, all but the
      last `-top_k`). */
  lemma SearchSpecFallback(cands: seq<Candidate>, topK: int, threshold: real)
    requires forall i :: 0 <= i < |cands| ==> CosineSimilarity(cands[i].distance) < threshold
    ensures |SearchSpec(cands, topK, threshold)| == |PyPrefix(cands, topK)|
    ensures forall i :: 0 <= i < |SearchSpec(cands, topK, threshold)| ==>
      SearchSpec(cands, topK, threshold)[i] == AsResult(cands[i])
  {
    FilterMapEmpty(cands, Passing(threshold));
    AllResultsAt(cands);
  }

  /** As written, a `top_k` of 0 or less still returns the first candidate
      that reaches the threshold: the early-stop test comes after the append. */
  lemma NonPositiveTopKReturnsOne(cands: seq<Candidate>, topK: int, threshold: real, i: nat)
    requires topK <= 0 && i < |cands| && CosineSimilarity(cands[i].distance) >= threshold
    ensures |SearchSpec(cands, topK, threshold)| == 1
  {
    FilterMapComplete(cands, Passing(threshold), i);
  }

  /** The search with `top_k` honoured as a bound: nothing for `top_k <= 0`. */
  function BoundedSearchSpec(cands: seq<Candidate>, topK: int, threshold: real): seq<SearchResult> {
    if topK >= 1 then SearchSpec(cands, topK, threshold) else []
  }

  /** The corrected search never returns more than `max(top_k, 0)` results and
      agrees with the written one wherever `top_k >= 1`. */
  lemma BoundedSearchSpecAtMostTopK(cands: seq<Candidate>, topK: int, threshold: real)
    ensures |BoundedSearchSpec(cands, topK, threshold)| <= if topK >= 1 then topK else 0
    ensures topK >= 1 ==> BoundedSearchSpec(cands, topK, threshold) == SearchSpec(cands, topK, threshold)
  {
    SearchSpecSize(cands, topK, threshold);
  }

  lemma {:induction false} AllResultsAt(cands: seq<Candidate>)
    ensures |FilterMap(cands, Unfiltered)| == |cands|
    ensures forall i :: 0 <= i < |cands| ==> FilterMap(cands, Unfiltered)[i] == AsResult(cands[i])
  {
    if cands != [] {
      AllResultsAt(cands[..|cands| - 1]);
    }
  }

  /** The fallback loop `for doc, meta, dist in candidates[:top_k]`. */
  method Closest(cands: seq<Candidate>, topK: int) returns (results: seq<SearchResult>)
    ensures results == PyPrefix(FilterMap(cands, Unfiltered), topK)
  {
    var n := |PyPrefix(cands, topK)|;
    results := [];
    var j := 0;
    while j < n
      invariant 0 <= j <= n
      invariant |results| == j
      invariant forall k :: 0 <= k < j ==> results[k] == AsResult(cands[k])
    {
      results := results + [AsResult(cands[j])];
      j := j + 1;
    }
    AllResultsAt(cands);
  }

  class ChromaVectorStore {
    const base: VectorStoreBase
    /** The collection's content. */
    var entries: seq<Entry>
    /** `config.SIMILARITY_THRESHOLD`. */
    const configThreshold: real

    constructor (tracker: Option<DocumentTracker>, defaultTrackerFile: TrackerFile,
                 persisted: seq<Entry>, threshold: real)
      ensures tracker.Some? ==> base.tracker == tracker.value
      ensures entries == persisted && configThreshold == threshold
    {
      base := new VectorStoreBase(tracker, defaultTrackerFile);
      entries := persisted;
      configThreshold := threshold;
    }

    /** `add_chunks`: no chunks means no write and no tracker change; otherwise
        one entry per chunk is added and the tracker is told about a truthy id. */
    method AddChunks(chunks: seq<TextChunk>, documentId: Option<string>, hashes: seq<int>) returns (count: nat)
      requires |hashes| == |chunks|
      modifies this, base.tracker
      ensures count == |chunks|
      ensures entries == old(entries) + NewEntries(chunks, documentId, hashes)
      ensures base.tracker.Ids() == if chunks == [] then old(base.tracker.Ids()) else Added(old(base.tracker.Ids()), documentId)
      ensures chunks == [] || !IsTruthyId(documentId) ==> base.tracker.file == old(base.tracker.file)
    {
      if chunks == [] {
        return 0;
      }
      entries := entries + NewEntries(chunks, documentId, hashes);
      if IsTruthyId(documentId) {
        base.TrackAdd(documentId);
      }
      count := |chunks|;
    }

    /** `search`: threshold filter with early stop at `top_k`, then the
        closest-candidates fallback. */
    method Search(topK: int, similarityThreshold: Option<real>, answer: QueryAnswer) returns (results: seq<SearchResult>)
      ensures results == SearchSpec(Candidates(answer), topK, EffectiveThreshold(similarityThreshold, configThreshold))
      ensures topK >= 1 ==> |results| <= topK
    {
      var threshold := EffectiveThreshold(similarityThreshold, configThreshold);
      var cands := if answer.documents == [] then [] else Candidates(answer);
      assert cands == Candidates(answer);
      assert cands[..|cands|] == cands;
      ghost var keep := Passing(threshold);
      results := [];
      var i := 0;
      while i < |cands|
        invariant 0 <= i <= |cands|
        invariant results == FilterMap(cands[..i], keep)
        invariant |results| < StopAt(topK)
      {
        var c := cands[i];
        FilterMapStep(cands, i, keep);
        if CosineSimilarity(c.distance) >= threshold {
          results := results + [AsResult(c)];
          if |results| >= topK {
            FilterMapEarlyStop(cands, i, keep, StopAt(topK));
            break;
          }
        }
        i := i + 1;
      }
      ghost var passed := results;
      assert passed == Take(FilterMap(cands, keep), StopAt(topK));
      if results == [] && cands != [] {
        results := Closest(cands, topK);
      }
      assert results == SearchSpec(cands, topK, threshold);
      SearchSpecSize(cands, topK, threshold);
    }

    /** `delete_by_document_id`: drops exactly the entries carrying the id,
        then always forwards the id to the tracker. */
    method DeleteByDocumentId(documentId: string)
      modifies this, base.tracker
      ensures entries == Surviving(old(entries), documentId)
      ensures base.tracker.Ids() == Removed(old(base.tracker.Ids()), Some(documentId))
    {
      entries := Surviving(entries, documentId);
      base.TrackRemove(Some(documentId));
    }

    /** The inherited `list_documents`: the tracker's sorted list. */
    method ListDocuments() returns (r: seq<string>)
      ensures Ordering.StrictlySorted(r)
      ensures forall x :: x in r <==> x in base.tracker.Ids()
    {
      r := base.ListDocuments();
    }
  }

  /** After a delete no entry carries the id, every other entry is kept, and a
      second delete changes nothing. */
  lemma DeleteRemovesExactly(entries: seq<Entry>, documentId: string)
    ensures forall e :: e in Surviving(entries, documentId) <==> e in entries && !HasDocumentId(e.metadata, documentId)
    ensures Surviving(Surviving(entries, documentId), documentId) == Surviving(entries, documentId)
  {
    FilterMembers(entries, (e: Entry) => !HasDocumentId(e.metadata, documentId));
    FilterIdempotent(entries, (e: Entry) => !HasDocumentId(e.metadata, documentId));
  }
}

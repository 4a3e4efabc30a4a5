/** The Qdrant backend: one point per chunk under a random uuid, with the
    chunk's metadata, content and document id as payload. */
module QdrantStore {
  import opened Wrappers
  import opened Seqs
  import opened Maps
  import opened Values
  import opened ScoredHits
  import opened DocumentTracker
  import opened VectorStoreBase

  function Payloads(chunks: seq<TextChunk>, documentId: Option<string>): (r: seq<Meta>)
    ensures |r| == |chunks|
    ensures forall i :: 0 <= i < |r| ==> r[i] == ContentRecord(chunks[i], documentId)
  {
    seq(|chunks|, i requires 0 <= i < |chunks| => ContentRecord(chunks[i], documentId))
  }

  class QdrantVectorStore {
    const base: VectorStoreBase
    /** The collection's points: point id to payload. */
    var points: map<string, Meta>
    /** `config.SIMILARITY_THRESHOLD` (0.7 when unset). */
    const configThreshold: real

    constructor (tracker: Option<DocumentTracker>, defaultTrackerFile: TrackerFile,
                 stored: map<string, Meta>, threshold: real)
      ensures tracker.Some? ==> base.tracker == tracker.value
      ensures points == stored && configThreshold == threshold
    {
      base := new VectorStoreBase(tracker, defaultTrackerFile);
      points := stored;
      configThreshold := threshold;
    }

    /** `add_chunks`: builds one point per chunk, upserts them, and tells the
        tracker about a truthy id. `pointIds` holds the `str(uuid4())` drawn
        for each chunk. */
    method AddChunks(chunks: seq<TextChunk>, documentId: Option<string>, pointIds: seq<string>) returns (count: nat)
      requires |pointIds| == |chunks|
      modifies this, base.tracker
      ensures count == |chunks|
      ensures points == Upserted(old(points), pointIds, Payloads(chunks, documentId))
      ensures base.tracker.Ids() == if chunks == [] then old(base.tracker.Ids()) else Added(old(base.tracker.Ids()), documentId)
      ensures chunks == [] || !IsTruthyId(documentId) ==> base.tracker.file == old(base.tracker.file)
    {
      if chunks == [] {
        assert pointIds == [];
        return 0;
      }
      var ids: seq<string> := [];
      var payloads: seq<Meta> := [];
      var i := 0;
      while i < |chunks|
        invariant 0 <= i <= |chunks|
        invariant ids == pointIds[..i]
        invariant payloads == Payloads(chunks, documentId)[..i]
      {
        ids := ids + [pointIds[i]];
        payloads := payloads + [ContentRecord(chunks[i], documentId)];
        i := i + 1;
      }
      assert ids == pointIds;
      assert payloads == Payloads(chunks, documentId);
      points := Upserted(points, ids, payloads);
      if IsTruthyId(documentId) {
        base.TrackAdd(documentId);
      }
      count := |ids|;
    }

    /** `search` over the points the query answers, at most `top_k` of them. */
    method Search(topK: int, similarityThreshold: Option<real>, answer: seq<ScoredHit>) returns (results: seq<SearchResult>)
      requires topK >= 1
      ensures results == FilterMap(Take(answer, topK), Convert(EffectiveThreshold(similarityThreshold, configThreshold)))
      ensures |results| <= topK
    {
      var hits := Take(answer, topK);
      var threshold := EffectiveThreshold(similarityThreshold, configThreshold);
      results := ConvertHits(hits, threshold);
      ConvertedHits(hits, threshold);
    }

    /** `delete_by_document_id`: deletes the points whose payload names the
        document, then the tracker. */
    method DeleteByDocumentId(documentId: string)
      modifies this, base.tracker
      ensures points == Without(old(points), (m: Meta) => HasDocumentId(m, documentId))
      ensures base.tracker.Ids() == Removed(old(base.tracker.Ids()), Some(documentId))
    {
      points := Without(points, (m: Meta) => HasDocumentId(m, documentId));
      base.TrackRemove(Some(documentId));
    }

    /** The inherited `list_documents`: the tracker's sorted list. */
    method ListDocuments() returns (r: seq<string>)
      ensures Ordering.StrictlySorted(r)
      ensures forall x :: x in r <==> x in base.tracker.Ids()
    {
      r := base.ListDocuments();
    }
  }

  /** With distinct uuids every chunk's payload is stored under its point id
      and the document's chunks are all found by the delete filter. */
  lemma AddStoresEveryChunk(before: map<string, Meta>, chunks: seq<TextChunk>, documentId: Option<string>, pointIds: seq<string>)
    requires |pointIds| == |chunks|
    requires forall i, j :: 0 <= i < j < |pointIds| ==> pointIds[i] != pointIds[j]
    ensures forall i :: 0 <= i < |chunks| ==>
      var stored := Upserted(before, pointIds, Payloads(chunks, documentId));
      pointIds[i] in stored && stored[pointIds[i]] == ContentRecord(chunks[i], documentId) &&
      HasDocumentId(stored[pointIds[i]], StoredDocumentId(documentId))
  {
    UpsertedContents(before, pointIds, Payloads(chunks, documentId));
  }
}

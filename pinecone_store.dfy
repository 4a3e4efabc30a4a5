/** The Pinecone backend: a managed index holding one vector per chunk under
    an id derived from the document id, the chunk position and a uuid. */
module PineconeStore {
  import opened Wrappers
  import opened Strings
  import opened Seqs
  import opened Maps
  import opened Values
  import opened ScoredHits
  import opened DocumentTracker
  import opened VectorStoreBase

  /** `api_key or PINECONE_API_KEY`, and the `ValueError` when both are empty. */
  function ApiKey(argument: Option<string>, configured: string): (r: Result<string>)
    ensures r.Failure? <==> !IsTruthyId(argument) && configured == []
    ensures r.Success? ==> r.value == IdOr(argument, configured) && r.value != []
  {
    var key := IdOr(argument, configured);
    if key == [] then Failure("Pinecone API key is required") else Success(key)
  }

  /** `f"{document_id or 'doc'}_{i}_{uuid.uuid4().hex[:8]}"`. */
  function VectorId(documentId: Option<string>, i: nat, uuidHex: string): string {
    IdOr(documentId, "doc") + "_" + NatToString(i) + "_" + Take(uuidHex, 8)
  }

  /** `{**chunk.metadata, "document_id": document_id or "unknown", "content": ...}`. */
  function PineconeMetadata(c: TextChunk, documentId: Option<string>): (r: Meta)
    ensures HasDocumentId(r, StoredDocumentId(documentId))
    ensures "content" in r && r["content"] == Str(c.content)
    ensures r.Keys == c.metadata.Keys + {"content", "document_id"}
    ensures forall k :: k in c.metadata && k != "content" && k != "document_id" ==> r[k] == c.metadata[k]
  {
    c.metadata["document_id" := Str(StoredDocumentId(documentId))]["content" := Str(c.content)]
  }

  function VectorIds(chunks: seq<TextChunk>, documentId: Option<string>, uuidHexes: seq<string>): (r: seq<string>)
    requires |uuidHexes| == |chunks|
    ensures |r| == |chunks|
    ensures forall i :: 0 <= i < |r| ==> r[i] == VectorId(documentId, i, uuidHexes[i])
  {
    seq(|chunks|, i requires 0 <= i < |chunks| => VectorId(documentId, i, uuidHexes[i]))
  }

  function VectorMetadata(chunks: seq<TextChunk>, documentId: Option<string>): (r: seq<Meta>)
    ensures |r| == |chunks|
    ensures forall i :: 0 <= i < |r| ==> r[i] == PineconeMetadata(chunks[i], documentId)
  {
    seq(|chunks|, i requires 0 <= i < |chunks| => PineconeMetadata(chunks[i], documentId))
  }

  /** Vector ids of distinct chunk positions differ, whatever the uuids. */
  lemma {:induction false} VectorIdsDistinct(documentId: Option<string>, i: nat, j: nat, hexI: string, hexJ: string)
    requires i != j && |hexI| >= 8 && |hexJ| >= 8
    ensures VectorId(documentId, i, hexI) != VectorId(documentId, j, hexJ)
  {
    var p := IdOr(documentId, "doc") + "_";
    var a := NatToString(i) + "_" + Take(hexI, 8);
    var b := NatToString(j) + "_" + Take(hexJ, 8);
    assert VectorId(documentId, i, hexI) == p + a;
    assert VectorId(documentId, j, hexJ) == p + b;
    if p + a == p + b {
      assert a == (p + a)[|p|..];
      assert b == (p + b)[|p|..];
      var si := NatToString(i);
      var sj := NatToString(j);
      DigitsBeforeSeparator(si, Take(hexI, 8), sj, Take(hexJ, 8));
      NatToStringInjective(i, j);
    }
  }

  /** Two decimal numerals each followed by `_` and eight more characters
      are equal only when the numerals are. */
  lemma DigitsBeforeSeparator(si: string, ti: string, sj: string, tj: string)
    requires forall k :: 0 <= k < |si| ==> IsDigit(si[k])
    requires forall k :: 0 <= k < |sj| ==> IsDigit(sj[k])
    requires |ti| == 8 && |tj| == 8
    requires si + "_" + ti == sj + "_" + tj
    ensures si == sj
  {
    var a := si + "_" + ti;
    assert forall k :: 0 <= k < |si| ==> a[k] == si[k];
    assert forall k :: 0 <= k < |sj| ==> a[k] == sj[k];
    assert a[|si|] == '_' && a[|sj|] == '_';
    assert |si| == |sj|;
    assert si == a[..|si|];
    assert sj == a[..|sj|];
  }

  /** The `add_chunks` loop: one id and one metadata record per chunk, in order. */
  method BuildVectors(chunks: seq<TextChunk>, documentId: Option<string>, uuidHexes: seq<string>)
    returns (ids: seq<string>, metas: seq<Meta>)
    requires |uuidHexes| == |chunks|
    ensures ids == VectorIds(chunks, documentId, uuidHexes)
    ensures metas == VectorMetadata(chunks, documentId)
  {
    ids, metas := [], [];
    var i := 0;
    while i < |chunks|
      invariant 0 <= i <= |chunks|
      invariant ids == VectorIds(chunks, documentId, uuidHexes)[..i]
      invariant metas == VectorMetadata(chunks, documentId)[..i]
    {
      ghost var allIds, allMetas := VectorIds(chunks, documentId, uuidHexes), VectorMetadata(chunks, documentId);
      assert allIds[..i + 1] == allIds[..i] + [allIds[i]];
      assert allMetas[..i + 1] == allMetas[..i] + [allMetas[i]];
      ids := ids + [VectorId(documentId, i, uuidHexes[i])];
      metas := metas + [PineconeMetadata(chunks[i], documentId)];
      i := i + 1;
    }
    assert ids == VectorIds(chunks, documentId, uuidHexes)[..|chunks|];
    assert metas == VectorMetadata(chunks, documentId)[..|chunks|];
  }

  class PineconeVectorStore {
    const base: VectorStoreBase
    const apiKey: string
    /** The namespace's vectors: id to metadata. */
    var vectors: map<string, Meta>
    /** `config.SIMILARITY_THRESHOLD` (0.7 when unset). */
    const configThreshold: real

    constructor (tracker: Option<DocumentTracker>, defaultTrackerFile: TrackerFile,
                 key: string, stored: map<string, Meta>, threshold: real)
      requires key != []
      ensures tracker.Some? ==> base.tracker == tracker.value
      ensures apiKey == key && vectors == stored && configThreshold == threshold
    {
      base := new VectorStoreBase(tracker, defaultTrackerFile);
      apiKey := key;
      vectors := stored;
      configThreshold := threshold;
    }

    /** `add_chunks`: builds one vector per chunk in an `enumerate` loop, upserts
        the batch, and tells the tracker about a truthy id. `uuidHexes` holds
        the `uuid4().hex` drawn for each chunk. */
    method AddChunks(chunks: seq<TextChunk>, documentId: Option<string>, uuidHexes: seq<string>) returns (count: nat)
      requires |uuidHexes| == |chunks|
      modifies this, base.tracker
      ensures count == |chunks|
      ensures vectors == Upserted(old(vectors), VectorIds(chunks, documentId, uuidHexes), VectorMetadata(chunks, documentId))
      ensures base.tracker.Ids() == if chunks == [] then old(base.tracker.Ids()) else Added(old(base.tracker.Ids()), documentId)
      ensures chunks == [] || !IsTruthyId(documentId) ==> base.tracker.file == old(base.tracker.file)
    {
      if chunks == [] {
        assert VectorIds(chunks, documentId, uuidHexes) == [];
        return 0;
      }
      var ids, metas := BuildVectors(chunks, documentId, uuidHexes);
      vectors := Upserted(vectors, ids, metas);
      if IsTruthyId(documentId) {
        base.TrackAdd(documentId);
      }
      count := |ids|;
    }

    /** `search` over the matches the query answers (`None` when the response
        has no `matches`); at most `top_k` come back. */
    method Search(topK: int, similarityThreshold: Option<real>, matches: Option<seq<ScoredHit>>) returns (results: seq<SearchResult>)
      requires topK >= 1
      ensures results == FilterMap(Take(matches.GetOr([]), topK), Convert(EffectiveThreshold(similarityThreshold, configThreshold)))
      ensures matches.None? ==> results == []
      ensures |results| <= topK
    {
      var hits := Take(matches.GetOr([]), topK);
      var threshold := EffectiveThreshold(similarityThreshold, configThreshold);
      results := ConvertHits(hits, threshold);
      FilterMapLength(hits, Convert(threshold));
    }

    /** `delete_by_document_id`: a filter delete on `document_id`, then the
        tracker. */
    method DeleteByDocumentId(documentId: string)
      modifies this, base.tracker
      ensures vectors == Without(old(vectors), (m: Meta) => HasDocumentId(m, documentId))
      ensures base.tracker.Ids() == Removed(old(base.tracker.Ids()), Some(documentId))
    {
      vectors := Without(vectors, (m: Meta) => HasDocumentId(m, documentId));
      base.TrackRemove(Some(documentId));
    }

    /** The inherited `list_documents`: the tracker's sorted list. */
    method ListDocuments() returns (r: seq<string>)
      ensures Ordering.StrictlySorted(r)
      ensures forall x :: x in r <==> x in base.tracker.Ids()
    {
      r := base.ListDocuments();
    }
  }

  /** `PineconeVectorStore(...)`: the key check comes before any index call. */
  method Open(tracker: Option<DocumentTracker>, defaultTrackerFile: TrackerFile,
              argument: Option<string>, configuredKey: string,
              stored: map<string, Meta>, threshold: real) returns (r: Result<PineconeVectorStore>)
    ensures r.Failure? <==> ApiKey(argument, configuredKey).Failure?
    ensures r.Success? ==> r.value.apiKey == ApiKey(argument, configuredKey).value && r.value.vectors == stored
  {
    var key := ApiKey(argument, configuredKey);
    if key.Failure? {
      return Failure(key.error);
    }
    var store := new PineconeVectorStore(tracker, defaultTrackerFile, key.value, stored, threshold);
    r := Success(store);
  }

  /** Within one batch the ids are distinct, so every chunk is stored under
      its own id with its own metadata. */
  lemma AddStoresEveryChunk(before: map<string, Meta>, chunks: seq<TextChunk>, documentId: Option<string>, uuidHexes: seq<string>)
    requires |uuidHexes| == |chunks|
    requires forall i :: 0 <= i < |uuidHexes| ==> |uuidHexes[i]| >= 8
    ensures forall i :: 0 <= i < |chunks| ==>
      var stored := Upserted(before, VectorIds(chunks, documentId, uuidHexes), VectorMetadata(chunks, documentId));
      VectorId(documentId, i, uuidHexes[i]) in stored && stored[VectorId(documentId, i, uuidHexes[i])] == PineconeMetadata(chunks[i], documentId)
  {
    var ids := VectorIds(chunks, documentId, uuidHexes);
    forall i, j | 0 <= i < j < |ids| ensures ids[i] != ids[j] {
      VectorIdsDistinct(documentId, i, j, uuidHexes[i], uuidHexes[j]);
    }
    UpsertedContents(before, ids, VectorMetadata(chunks, documentId));
  }
}

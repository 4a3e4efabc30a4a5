/** The Weaviate backend: one object per chunk with four typed properties
    (content, document_id, source, page); search reports only those. */
module WeaviateStore {
  import opened Wrappers
  import opened Seqs
  import opened Values
  import opened DocumentTracker
  import opened VectorStoreBase

  /** A stored object: its uuid and its properties. */
  datatype WObject = WObject(uuid: string, properties: Meta)

  /** One object of a `near_vector` answer: `metadata` is `None` when the
      object has no metadata, else the distance it reports (possibly none);
      `properties` is `None` when absent. */
  datatype WeaviateHit = WeaviateHit(metadata: Option<Option<real>>, properties: Option<Meta>)

  /** `fetch_objects(..., limit=10000)`. */
  const FetchLimit: nat := 10000

  /** `chunk.metadata.get("page") or 0`. */
  function PageOrZero(m: Meta): (v: Value)
    ensures Truthy(Get(m, "page", Null)) ==> v == m["page"]
    ensures !Truthy(Get(m, "page", Null)) ==> v == Int(0)
  {
    var p := Get(m, "page", Null);
    if Truthy(p) then p else Int(0)
  }

  /** The properties `add_chunks` gives the object of one chunk. */
  function Properties(c: TextChunk, documentId: Option<string>): (r: Meta)
    ensures r.Keys == {"content", "document_id", "source", "page"}
    ensures r["content"] == Str(c.content) && HasDocumentId(r, StoredDocumentId(documentId))
    ensures r["source"] == Get(c.metadata, "source", Str("")) && r["page"] == PageOrZero(c.metadata)
  {
    map["content" := Str(c.content), "document_id" := Str(StoredDocumentId(documentId)),
        "source" := Get(c.metadata, "source", Str("")), "page" := PageOrZero(c.metadata)]
  }

  function NewObjects(chunks: seq<TextChunk>, documentId: Option<string>, uuids: seq<string>): (r: seq<WObject>)
    requires |uuids| == |chunks|
    ensures |r| == |chunks|
    ensures forall i :: 0 <= i < |r| ==> r[i] == WObject(uuids[i], Properties(chunks[i], documentId))
  {
    seq(|chunks|, i requires 0 <= i < |chunks| => WObject(uuids[i], Properties(chunks[i], documentId)))
  }

  /** `obj.metadata.distance if obj.metadata else 1.0`. */
  function Dist(h: WeaviateHit): Option<real> {
    match h.metadata
    case None => Some(1.0)
    case Some(d) => d
  }

  /** `1.0 - float(dist) if dist is not None else 0`. */
  function Similarity(h: WeaviateHit): real {
    match Dist(h)
    case Some(d) => 1.0 - d
    case None => 0.0
  }

  /** The result metadata: exactly `source`, `page` and `document_id`, each
      `None` when the object lacks it. */
  function ResultMetadata(props: Meta): (r: Meta)
    ensures r.Keys == {"source", "page", "document_id"}
    ensures r["source"] == Get(props, "source", Null) && r["page"] == Get(props, "page", Null)
    ensures r["document_id"] == Get(props, "document_id", Null)
  {
    map["source" := Get(props, "source", Null), "page" := Get(props, "page", Null),
        "document_id" := Get(props, "document_id", Null)]
  }

  function Convert(threshold: real): WeaviateHit -> Option<SearchResult> {
    (h: WeaviateHit) =>
      if Similarity(h) < threshold then None
      else Some(SearchResult(Show(Get(h.properties.GetOr(map[]), "content", Str(""))),
                             ResultMetadata(h.properties.GetOr(map[])),
                             Dist(h).GetOr(1.0)))
  }

  /** Every result reaches the threshold, carries only the three reported
      keys, and reports distance 1.0 exactly for hits without a distance
      (or `1 - similarity` otherwise). */
  lemma SearchResultsShape(hits: seq<WeaviateHit>, threshold: real)
    ensures forall r :: r in FilterMap(hits, Convert(threshold)) ==>
      r.metadata.Keys == {"source", "page", "document_id"} &&
      exists i :: 0 <= i < |hits| && Similarity(hits[i]) >= threshold && r.distance == Dist(hits[i]).GetOr(1.0)
    ensures forall i :: 0 <= i < |hits| && Similarity(hits[i]) >= threshold ==>
      Convert(threshold)(hits[i]).value in FilterMap(hits, Convert(threshold))
  {
    var f := Convert(threshold);
    forall r: SearchResult | r in FilterMap(hits, f)
      ensures r.metadata.Keys == {"source", "page", "document_id"} &&
        exists i :: 0 <= i < |hits| && Similarity(hits[i]) >= threshold && r.distance == Dist(hits[i]).GetOr(1.0)
    {
      FilterMapSound(hits, f, r);
    }
    forall i | 0 <= i < |hits| && Similarity(hits[i]) >= threshold
      ensures f(hits[i]).value in FilterMap(hits, f)
    {
      FilterMapComplete(hits, f, i);
    }
  }

  /** Missing metadata counts as distance 1.0, i.e. similarity 0; a missing
      distance also gives similarity 0. */
  lemma MissingDistanceIsZeroSimilarity(h: WeaviateHit)
    requires h.metadata.None? || h.metadata == Some(None)
    ensures Similarity(h) == 0.0
  {
  }

  function OfDocument(documentId: string): WObject -> bool {
    (o: WObject) => HasDocumentId(o.properties, documentId)
  }

  function UuidNotIn(uuids: set<string>): WObject -> bool {
    (o: WObject) => o.uuid !in uuids
  }

  function UuidIsNot(uuid: string): WObject -> bool {
    (o: WObject) => o.uuid != uuid
  }

  function UuidsOf(objs: seq<WObject>): set<string> {
    set i | 0 <= i < |objs| :: objs[i].uuid
  }

  lemma UuidsOfStep(objs: seq<WObject>, i: nat)
    requires i < |objs|
    ensures UuidsOf(objs[..i + 1]) == UuidsOf(objs[..i]) + {objs[i].uuid}
  {
    var p := objs[..i + 1];
    assert forall k :: 0 <= k < i ==> p[k] == objs[..i][k];
    assert p[i] == objs[i];
  }

  /** Deleting one more fetched uuid extends the set of deleted uuids. */
  lemma DeleteStep(start: seq<WObject>, objs: seq<WObject>, i: nat)
    requires i < |objs|
    ensures Filter(Filter(start, UuidNotIn(UuidsOf(objs[..i]))), UuidIsNot(objs[i].uuid))
      == Filter(start, UuidNotIn(UuidsOf(objs[..i + 1])))
  {
    var done := UuidsOf(objs[..i]);
    UuidsOfStep(objs, i);
    FilterFilter(start, UuidNotIn(done), UuidIsNot(objs[i].uuid), UuidNotIn(done + {objs[i].uuid}));
  }

  /** The objects one delete fetches: the first 10000 of the document's. */
  function Fetched(objects: seq<WObject>, documentId: string): (r: seq<WObject>)
    ensures |r| <= FetchLimit
  {
    Take(Filter(objects, OfDocument(documentId)), FetchLimit)
  }

  class WeaviateVectorStore {
    const base: VectorStoreBase
    /** The collection's objects, in insertion order. */
    var objects: seq<WObject>
    /** `config.SIMILARITY_THRESHOLD` (0.7 when unset). */
    const configThreshold: real

    constructor (tracker: Option<DocumentTracker>, defaultTrackerFile: TrackerFile,
                 existing: seq<WObject>, threshold: real)
      ensures tracker.Some? ==> base.tracker == tracker.value
      ensures objects == existing && configThreshold == threshold
    {
      base := new VectorStoreBase(tracker, defaultTrackerFile);
      objects := existing;
      configThreshold := threshold;
    }

    /** `add_chunks`: one `batch.add_object` per chunk, then the tracker for a
        truthy id. `uuids` holds the uuids the batch assigns. */
    method AddChunks(chunks: seq<TextChunk>, documentId: Option<string>, uuids: seq<string>) returns (count: nat)
      requires |uuids| == |chunks|
      modifies this, base.tracker
      ensures count == |chunks|
      ensures objects == old(objects) + NewObjects(chunks, documentId, uuids)
      ensures base.tracker.Ids() == if chunks == [] then old(base.tracker.Ids()) else Added(old(base.tracker.Ids()), documentId)
      ensures chunks == [] || !IsTruthyId(documentId) ==> base.tracker.file == old(base.tracker.file)
    {
      if chunks == [] {
        assert NewObjects(chunks, documentId, uuids) == [];
        return 0;
      }
      var i := 0;
      while i < |chunks|
        invariant 0 <= i <= |chunks|
        invariant objects == old(objects) + NewObjects(chunks, documentId, uuids)[..i]
        invariant unchanged(base.tracker)
      {
        objects := objects + [WObject(uuids[i], Properties(chunks[i], documentId))];
        assert NewObjects(chunks, documentId, uuids)[..i + 1]
            == NewObjects(chunks, documentId, uuids)[..i] + [NewObjects(chunks, documentId, uuids)[i]];
        i := i + 1;
      }
      assert NewObjects(chunks, documentId, uuids)[..i] == NewObjects(chunks, documentId, uuids);
      if IsTruthyId(documentId) {
        base.TrackAdd(documentId);
      }
      count := |chunks|;
    }

    /** `search` over the objects `near_vector` answers, at most `top_k`. */
    method Search(topK: int, similarityThreshold: Option<real>, answer: seq<WeaviateHit>) returns (results: seq<SearchResult>)
      requires topK >= 1
      ensures results == FilterMap(Take(answer, topK), Convert(EffectiveThreshold(similarityThreshold, configThreshold)))
      ensures |results| <= topK
    {
      var threshold := EffectiveThreshold(similarityThreshold, configThreshold);
      var hits := Take(answer, topK);
      ghost var f := Convert(threshold);
      results := [];
      var i := 0;
      while i < |hits|
        invariant 0 <= i <= |hits|
        invariant results == FilterMap(hits[..i], f)
      {
        FilterMapStep(hits, i, f);
        var obj := hits[i];
        var dist := if obj.metadata.Some? then obj.metadata.value else Some(1.0);
        var similarity := if dist.Some? then 1.0 - dist.value else 0.0;
        if similarity >= threshold {
          var props := obj.properties.GetOr(map[]);
          results := results + [SearchResult(Show(Get(props, "content", Str(""))), ResultMetadata(props),
                                             if dist.Some? then dist.value else 1.0)];
        }
        i := i + 1;
      }
      assert hits[..|hits|] == hits;
      FilterMapLength(hits, f);
    }

    /** `delete_by_document_id`: fetches at most 10000 of the document's
        objects and deletes each by uuid, then the tracker. */
    method DeleteByDocumentId(documentId: string)
      modifies this, base.tracker
      ensures objects == Filter(old(objects), UuidNotIn(UuidsOf(Fetched(old(objects), documentId))))
      ensures base.tracker.Ids() == Removed(old(base.tracker.Ids()), Some(documentId))
    {
      var objs := Fetched(objects, documentId);
      ghost var start := objects;
      FilterAllKept(start, UuidNotIn({}));
      assert objs[..0] == [] && UuidsOf(objs[..0]) == {};
      var i := 0;
      while i < |objs|
        invariant 0 <= i <= |objs|
        invariant objects == Filter(start, UuidNotIn(UuidsOf(objs[..i])))
        invariant unchanged(base.tracker)
      {
        DeleteStep(start, objs, i);
        objects := Filter(objects, UuidIsNot(objs[i].uuid));
        i := i + 1;
      }
      assert objs[..|objs|] == objs;
      base.TrackRemove(Some(documentId));
    }

    /** The inherited `list_documents`: the tracker's sorted list. */
    method ListDocuments() returns (r: seq<string>)
      ensures Ordering.StrictlySorted(r)
      ensures forall x :: x in r <==> x in base.tracker.Ids()
    {
      r := base.ListDocuments();
    }
  }

  /** When the document has at most 10000 objects, none of them survives a
      delete. */
  lemma DeleteRemovesAllUpToLimit(objects: seq<WObject>, documentId: string)
    requires |Filter(objects, OfDocument(documentId))| <= FetchLimit
    ensures forall o :: o in Filter(objects, UuidNotIn(UuidsOf(Fetched(objects, documentId)))) ==>
      !HasDocumentId(o.properties, documentId)
  {
    var fetched := Fetched(objects, documentId);
    var matching := Filter(objects, OfDocument(documentId));
    assert fetched == matching;
    FilterMembers(objects, OfDocument(documentId));
    FilterMembers(objects, UuidNotIn(UuidsOf(fetched)));
    forall o | o in fetched
      ensures o.uuid in UuidsOf(fetched)
    {
      var k :| 0 <= k < |fetched| && fetched[k] == o;
    }
  }
}

/** The FAISS backend: an id-mapped inner-product index plus a JSON side file
    mapping each vector id to the chunk's metadata, content and document id. */
module FaissStore {
  import opened Wrappers
  import opened Seqs
  import opened Maps
  import opened Values
  import opened DocumentTracker
  import opened VectorStoreBase

  /** The vector ids are masked to the non-negative `int64` range. */
  const IdBound: nat := 0x8000_0000_0000_0000

  /** What `_load_metadata` finds on disk. Keys are the ids `str(uid)` spells. */
  datatype MetadataFile = Missing | Corrupt | NotDict | Dict(records: map<nat, Meta>)

  /** `_load_metadata`: the stored dict, or `{}` for a missing file, invalid
      JSON or a JSON value that is not an object. */
  function LoadMetadata(f: MetadataFile): (m: map<nat, Meta>)
    ensures f.Dict? ==> m == f.records
    ensures !f.Dict? ==> m == map[]
  {
    match f
    case Dict(records) => records
    case _ => map[]
  }

  /** `uuid.uuid4().int & ((1 << 63) - 1)`: the low 63 bits. */
  function MaskId(raw: nat): (uid: nat)
    ensures uid < IdBound
  {
    raw % IdBound
  }

  /** The ids the add loop draws, one per chunk. */
  function MaskedIds(raw: seq<nat>): (uids: seq<nat>)
    ensures |uids| == |raw|
    ensures forall i :: 0 <= i < |uids| ==> uids[i] == MaskId(raw[i]) && uids[i] < IdBound
  {
    seq(|raw|, i requires 0 <= i < |raw| => MaskId(raw[i]))
  }

  /** The metadata entries the add loop writes, one per chunk. */
  function FaissRecords(chunks: seq<TextChunk>, documentId: Option<string>): (r: seq<Meta>)
    ensures |r| == |chunks|
    ensures forall i :: 0 <= i < |r| ==> r[i] == ContentRecord(chunks[i], documentId)
  {
    seq(|chunks|, i requires 0 <= i < |chunks| => ContentRecord(chunks[i], documentId))
  }

  /** One hit row of `index.search`: a score and a vector id, `-1` for padding. */
  datatype Hit = Hit(score: real, idx: int)

  /** `self._metadata.get(str(idx), {})`. */
  function Lookup(metadata: map<nat, Meta>, idx: int): Meta {
    if idx >= 0 && idx as nat in metadata then metadata[idx as nat] else map[]
  }

  /** `metadata.get("content", "")`, as the text of the result. */
  function ContentOf(m: Meta): string {
    Show(Get(m, "content", Str("")))
  }

  /** The conversion of one hit: padding and scores under the threshold are
      skipped; the rest become results with `distance = 1 - score`. */
  function Convert(metadata: map<nat, Meta>, threshold: real): Hit -> Option<SearchResult> {
    (h: Hit) =>
      if h.idx == -1 || h.score < threshold then None
      else Some(SearchResult(ContentOf(Lookup(metadata, h.idx)), Lookup(metadata, h.idx), 1.0 - h.score))
  }

  /** `r` is the result of hit `h`: a real hit reaching the threshold, with
      the stored metadata of its id and `distance = 1 - score`. */
  predicate FromHit(metadata: map<nat, Meta>, threshold: real, h: Hit, r: SearchResult) {
    h.idx != -1 && h.score >= threshold &&
    r == SearchResult(ContentOf(Lookup(metadata, h.idx)), Lookup(metadata, h.idx), 1.0 - h.score)
  }

  /** Every result comes from a real hit that reaches the threshold, carries
      that hit's stored metadata, and its distance is `1 - score`; every such
      hit yields a result. */
  lemma SearchResultsAreHits(metadata: map<nat, Meta>, threshold: real, hits: seq<Hit>)
    ensures forall r :: r in FilterMap(hits, Convert(metadata, threshold)) ==>
      exists i :: 0 <= i < |hits| && FromHit(metadata, threshold, hits[i], r)
    ensures forall i :: 0 <= i < |hits| && hits[i].idx != -1 && hits[i].score >= threshold ==>
      Convert(metadata, threshold)(hits[i]).value in FilterMap(hits, Convert(metadata, threshold))
    ensures |FilterMap(hits, Convert(metadata, threshold))| <= |hits|
  {
    var f := Convert(metadata, threshold);
    forall r | r in FilterMap(hits, f)
      ensures exists i :: 0 <= i < |hits| && FromHit(metadata, threshold, hits[i], r)
    {
      FilterMapSound(hits, f, r);
    }
    forall i | 0 <= i < |hits| && hits[i].idx != -1 && hits[i].score >= threshold
      ensures f(hits[i]).value in FilterMap(hits, f)
    {
      FilterMapComplete(hits, f, i);
    }
    FilterMapLength(hits, f);
  }

  /** The ids a delete removes: those whose metadata names the document. */
  function Matching(metadata: map<nat, Meta>, documentId: string): set<nat> {
    set k | k in metadata && HasDocumentId(metadata[k], documentId)
  }

  /** The test the index's `remove_ids` applies to each stored id. */
  function NotIn(ids: set<nat>): nat -> bool {
    (k: nat) => k !in ids
  }

  class FaissVectorStore {
    const base: VectorStoreBase
    /** `_metadata`: vector id to stored metadata. */
    var metadata: map<nat, Meta>
    /** The ids held by the index, in insertion order; `ntotal` is its length. */
    var index: seq<nat>
    /** `config.SIMILARITY_THRESHOLD` (0.7 when unset). */
    const configThreshold: real
    /** How many times the metadata file and index have been written. */
    ghost var saves: nat

    constructor (tracker: Option<DocumentTracker>, defaultTrackerFile: TrackerFile,
                 metadataFile: MetadataFile, persistedIndex: Option<seq<nat>>, threshold: real)
      ensures tracker.Some? ==> base.tracker == tracker.value
      ensures metadata == LoadMetadata(metadataFile)
      ensures index == persistedIndex.GetOr([])
      ensures configThreshold == threshold && saves == 0
    {
      base := new VectorStoreBase(tracker, defaultTrackerFile);
      metadata := LoadMetadata(metadataFile);
      index := persistedIndex.GetOr([]);
      configThreshold := threshold;
      saves := 0;
    }

    /** `add_chunks`: records each chunk under a fresh masked id, adds the ids to
        the index, saves once, and tells the tracker about a truthy id. `raw`
        holds the `uuid4().int` values drawn for the chunks. */
    method AddChunks(chunks: seq<TextChunk>, documentId: Option<string>, raw: seq<nat>) returns (count: nat)
      requires |raw| == |chunks|
      modifies this, base.tracker
      ensures count == |chunks|
      ensures chunks == [] ==> metadata == old(metadata) && index == old(index) && saves == old(saves)
      ensures chunks != [] ==> saves == old(saves) + 1
      ensures index == old(index) + MaskedIds(raw)
      ensures metadata == Upserted(old(metadata), MaskedIds(raw), FaissRecords(chunks, documentId))
      ensures base.tracker.Ids() == if chunks == [] then old(base.tracker.Ids()) else Added(old(base.tracker.Ids()), documentId)
      ensures chunks == [] || !IsTruthyId(documentId) ==> base.tracker.file == old(base.tracker.file)
    {
      if chunks == [] {
        assert MaskedIds(raw) == [];
        return 0;
      }
      var ids: seq<nat> := [];
      var i := 0;
      while i < |chunks|
        invariant 0 <= i <= |chunks|
        invariant ids == MaskedIds(raw)[..i]
        invariant metadata == Upserted(old(metadata), ids, FaissRecords(chunks, documentId)[..i])
        invariant index == old(index) && saves == old(saves) && unchanged(base.tracker)
      {
        var uid := MaskId(raw[i]);
        var record := ContentRecord(chunks[i], documentId);
        UpsertedStep(old(metadata), ids, FaissRecords(chunks, documentId)[..i], uid, record);
        assert FaissRecords(chunks, documentId)[..i + 1] == FaissRecords(chunks, documentId)[..i] + [record];
        assert MaskedIds(raw)[..i + 1] == MaskedIds(raw)[..i] + [uid];
        ids := ids + [uid];
        metadata := metadata[uid := record];
        i := i + 1;
      }
      assert ids == MaskedIds(raw);
      assert FaissRecords(chunks, documentId)[..i] == FaissRecords(chunks, documentId);
      index := index + ids;
      saves := saves + 1;
      if IsTruthyId(documentId) {
        base.TrackAdd(documentId);
      }
      count := |ids|;
    }

    /** `search`: nothing on an empty index; otherwise the conversion of the
        `top_k` hit rows the index answers with, in their order. */
    method Search(topK: int, similarityThreshold: Option<real>, hits: seq<Hit>) returns (results: seq<SearchResult>)
      requires topK >= 1
      ensures index == [] ==> results == []
      ensures index != [] ==>
        results == FilterMap(Take(hits, topK), Convert(metadata, EffectiveThreshold(similarityThreshold, configThreshold)))
      ensures |results| <= topK
    {
      if |index| == 0 {
        return [];
      }
      var rows := Take(hits, topK);
      var threshold := EffectiveThreshold(similarityThreshold, configThreshold);
      ghost var f := Convert(metadata, threshold);
      results := [];
      var i := 0;
      while i < |rows|
        invariant 0 <= i <= |rows|
        invariant results == FilterMap(rows[..i], f)
      {
        FilterMapStep(rows, i, f);
        var h := rows[i];
        if h.idx != -1 && h.score >= threshold {
          var m := Lookup(metadata, h.idx);
          results := results + [SearchResult(ContentOf(m), m, 1.0 - h.score)];
        }
        i := i + 1;
      }
      assert rows[..|rows|] == rows;
      FilterMapLength(rows, f);
    }

    /** `delete_by_document_id`: drops exactly the matching ids from the
        metadata and the index, saves only when there was one, and always
        forwards the id to the tracker. */
    method DeleteByDocumentId(documentId: string)
      modifies this, base.tracker
      ensures metadata == old(metadata) - Matching(old(metadata), documentId)
      ensures index == Filter(old(index), NotIn(Matching(old(metadata), documentId)))
      ensures saves == old(saves) + (if Matching(old(metadata), documentId) == {} then 0 else 1)
      ensures base.tracker.Ids() == Removed(old(base.tracker.Ids()), Some(documentId))
    {
      var toRemove := Matching(metadata, documentId);
      if toRemove != {} {
        index := Filter(index, NotIn(toRemove));
        var rest := toRemove;
        while rest != {}
          invariant rest <= toRemove
          invariant metadata == old(metadata) - (toRemove - rest)
          invariant index == Filter(old(index), NotIn(toRemove))
          invariant saves == old(saves) && unchanged(base.tracker)
          decreases rest
        {
          var k :| k in rest;
          metadata := metadata - {k};
          rest := rest - {k};
        }
        saves := saves + 1;
      } else {
        FilterAllKept(index, NotIn(toRemove));
      }
      base.TrackRemove(Some(documentId));
    }

    /** The inherited `list_documents`: the tracker's sorted list. */
    method ListDocuments() returns (r: seq<string>)
      ensures Ordering.StrictlySorted(r)
      ensures forall x :: x in r <==> x in base.tracker.Ids()
    {
      r := base.ListDocuments();
    }
  }

  /** After a delete no stored entry names the document and every other entry
      is kept as it was. */
  lemma DeleteLeavesTheRest(metadata: map<nat, Meta>, documentId: string)
    ensures forall k :: k in metadata - Matching(metadata, documentId) ==>
      !HasDocumentId(metadata[k], documentId)
    ensures forall k :: k in metadata && !HasDocumentId(metadata[k], documentId) ==>
      k in metadata - Matching(metadata, documentId)
    ensures Matching(metadata - Matching(metadata, documentId), documentId) == {}
  {
  }
}

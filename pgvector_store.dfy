/** The pgvector backend: one PostgreSQL table of (document_id, content,
    metadata, embedding) rows, searched by cosine distance. */
module PgvectorStore {
  import opened Wrappers
  import opened Seqs
  import opened Ordering
  import opened Values
  import opened DocumentTracker
  import opened VectorStoreBase

  /** A stored row; the embedding column is left out. */
  datatype Row = Row(documentId: string, content: string, metadata: Meta)

  /** A row of the `SELECT content, metadata, embedding <=> q AS dist` answer;
      `dist` is SQL NULL when the row has no embedding. */
  datatype DbRow = DbRow(content: string, metadata: Meta, dist: Option<real>)

  /** `connection_string or PGVECTOR_CONNECTION_STRING or DATABASE_URL`, and
      the `ValueError` when all three are empty. */
  function ConnectionString(argument: Option<string>, pgvectorConnectionString: string, databaseUrl: string): (r: Result<string>)
    ensures IsTruthyId(argument) ==> r == Success(argument.value)
    ensures !IsTruthyId(argument) && pgvectorConnectionString != [] ==> r == Success(pgvectorConnectionString)
    ensures !IsTruthyId(argument) && pgvectorConnectionString == [] && databaseUrl != [] ==> r == Success(databaseUrl)
    ensures r.Failure? <==> !IsTruthyId(argument) && pgvectorConnectionString == [] && databaseUrl == []
    ensures r.Success? ==> r.value != []
  {
    var cs := if IsTruthyId(argument) then argument.value
              else if pgvectorConnectionString != [] then pgvectorConnectionString
              else databaseUrl;
    if cs == [] then Failure("PGVECTOR_CONNECTION_STRING or DATABASE_URL is required for pgvector.")
    else Success(cs)
  }

  /** The row `add_chunks` inserts for one chunk: the shared document id and
      the chunk metadata extended with its content. */
  function NewRow(c: TextChunk, documentId: Option<string>): (r: Row)
    ensures r.documentId == StoredDocumentId(documentId) && r.content == c.content
    ensures r.metadata.Keys == c.metadata.Keys + {"content"} && r.metadata["content"] == Str(c.content)
    ensures forall k :: k in c.metadata && k != "content" ==> r.metadata[k] == c.metadata[k]
  {
    Row(StoredDocumentId(documentId), c.content, c.metadata["content" := Str(c.content)])
  }

  function NewRows(chunks: seq<TextChunk>, documentId: Option<string>): (r: seq<Row>)
    ensures |r| == |chunks|
    ensures forall i :: 0 <= i < |r| ==> r[i] == NewRow(chunks[i], documentId)
  {
    seq(|chunks|, i requires 0 <= i < |chunks| => NewRow(chunks[i], documentId))
  }

  /** `float(dist) if dist is not None else 2.0`. */
  function DistOr2(r: DbRow): real {
    r.dist.GetOr(2.0)
  }

  /** Rows below the threshold are skipped; the others become results. */
  function Convert(threshold: real): DbRow -> Option<SearchResult> {
    (r: DbRow) =>
      if CosineSimilarity(DistOr2(r)) < threshold then None
      else Some(SearchResult(r.content, r.metadata, DistOr2(r)))
  }

  /** A row that passes the filter with a NULL distance: `float(None)` raises. */
  predicate Raises(threshold: real, r: DbRow) {
    r.dist.None? && CosineSimilarity(DistOr2(r)) >= threshold
  }

  /** The message of the `TypeError` that `float(None)` raises. */
  const NoneDistanceError: string := "float() argument must be a string or a real number, not 'NoneType'"

  /** What `search` gives for the rows the query answers: the `TypeError` when
      a passing row has a NULL distance, else the passing rows' results. */
  function SearchSpec(answer: seq<DbRow>, topK: nat, threshold: real): Result<seq<SearchResult>> {
    var rows := Take(answer, topK);
    if exists i :: 0 <= i < |rows| && Raises(threshold, rows[i]) then Failure(NoneDistanceError)
    else Success(FilterMap(rows, Convert(threshold)))
  }

  /** A NULL distance counts as 2.0, which is similarity 0: with a positive
      threshold such rows are dropped and the search cannot fail. */
  lemma PositiveThresholdNeverRaises(answer: seq<DbRow>, topK: nat, threshold: real)
    requires threshold > 0.0
    ensures SearchSpec(answer, topK, threshold).Success?
    ensures forall r :: r in SearchSpec(answer, topK, threshold).value ==>
      CosineSimilarity(r.distance) >= threshold && r.distance < 2.0
  {
    var rows := Take(answer, topK);
    var f := Convert(threshold);
    forall r: SearchResult | r in FilterMap(rows, f)
      ensures CosineSimilarity(r.distance) >= threshold && r.distance < 2.0
    {
      FilterMapSound(rows, f, r);
    }
  }

  /** Distances ascending, as `ORDER BY embedding <=> q` returns them. */
  predicate Ascending(rows: seq<DbRow>) {
    forall i, j :: 0 <= i < j < |rows| ==> DistOr2(rows[i]) <= DistOr2(rows[j])
  }

  /** Every result of a prefix comes from a row of it. */
  lemma {:induction false} ResultsBoundedBy(rows: seq<DbRow>, threshold: real, bound: real)
    requires forall i :: 0 <= i < |rows| ==> DistOr2(rows[i]) <= bound
    ensures forall r :: r in FilterMap(rows, Convert(threshold)) ==> r.distance <= bound
  {
    forall r: SearchResult | r in FilterMap(rows, Convert(threshold)) ensures r.distance <= bound {
      FilterMapSound(rows, Convert(threshold), r);
    }
  }

  /** The threshold filter keeps the query's order: ascending rows give
      results with ascending distances. */
  lemma {:induction false} SurvivorsKeepOrder(rows: seq<DbRow>, threshold: real)
    requires Ascending(rows)
    ensures forall i, j :: 0 <= i < j < |FilterMap(rows, Convert(threshold))| ==>
      FilterMap(rows, Convert(threshold))[i].distance <= FilterMap(rows, Convert(threshold))[j].distance
  {
    if rows != [] {
      var n := |rows| - 1;
      var p := rows[..n];
      var f := Convert(threshold);
      SurvivorsKeepOrder(p, threshold);
      ResultsBoundedBy(p, threshold, DistOr2(rows[n]));
      var out := FilterMap(rows, f);
      forall i, j | 0 <= i < j < |out| ensures out[i].distance <= out[j].distance {
        if j >= |FilterMap(p, f)| {
          assert out[i] in FilterMap(p, f);
        }
      }
    }
  }

  class PgvectorVectorStore {
    const base: VectorStoreBase
    /** The resolved connection string. */
    const connectionString: string
    /** The table's rows, in insertion order. */
    var rows: seq<Row>
    /** `config.SIMILARITY_THRESHOLD` (0.7 when unset). */
    const configThreshold: real

    constructor (tracker: Option<DocumentTracker>, defaultTrackerFile: TrackerFile,
                 connection: string, table: seq<Row>, threshold: real)
      requires connection != []
      ensures tracker.Some? ==> base.tracker == tracker.value
      ensures connectionString == connection && rows == table && configThreshold == threshold
    {
      base := new VectorStoreBase(tracker, defaultTrackerFile);
      connectionString := connection;
      rows := table;
      configThreshold := threshold;
    }

    /** `add_chunks`: inserts one row per chunk in order and tells the tracker
        about a truthy id. */
    method AddChunks(chunks: seq<TextChunk>, documentId: Option<string>) returns (count: nat)
      modifies this, base.tracker
      ensures count == |chunks|
      ensures rows == old(rows) + NewRows(chunks, documentId)
      ensures base.tracker.Ids() == if chunks == [] then old(base.tracker.Ids()) else Added(old(base.tracker.Ids()), documentId)
      ensures chunks == [] || !IsTruthyId(documentId) ==> base.tracker.file == old(base.tracker.file)
    {
      if chunks == [] {
        assert NewRows(chunks, documentId) == [];
        return 0;
      }
      var docId := StoredDocumentId(documentId);
      var i := 0;
      while i < |chunks|
        invariant 0 <= i <= |chunks|
        invariant rows == old(rows) + NewRows(chunks[..i], documentId)
        invariant unchanged(base.tracker)
      {
        var c := chunks[i];
        rows := rows + [Row(docId, c.content, c.metadata["content" := Str(c.content)])];
        assert NewRows(chunks[..i + 1], documentId) == NewRows(chunks[..i], documentId) + [NewRow(c, documentId)];
        i := i + 1;
      }
      assert chunks[..i] == chunks;
      if IsTruthyId(documentId) {
        base.TrackAdd(documentId);
      }
      count := |chunks|;
    }

    /** `search` over the rows the query answers, closest first: the `LIMIT`
        keeps `top_k` of them and the threshold filter keeps their order. */
    method Search(topK: int, similarityThreshold: Option<real>, answer: seq<DbRow>) returns (r: Result<seq<SearchResult>>)
      requires topK >= 1
      ensures r == SearchSpec(answer, topK, EffectiveThreshold(similarityThreshold, configThreshold))
      ensures r.Success? ==> |r.value| <= topK
    {
      var threshold := EffectiveThreshold(similarityThreshold, configThreshold);
      var fetched := Take(answer, topK);
      ghost var f := Convert(threshold);
      var results: seq<SearchResult> := [];
      var i := 0;
      while i < |fetched|
        invariant 0 <= i <= |fetched|
        invariant results == FilterMap(fetched[..i], f)
        invariant forall k :: 0 <= k < i ==> !Raises(threshold, fetched[k])
      {
        FilterMapStep(fetched, i, f);
        var row := fetched[i];
        var distF := if row.dist.Some? then row.dist.value else 2.0;
        var similarity := CosineSimilarity(distF);
        if similarity >= threshold {
          if row.dist.None? {
            assert Raises(threshold, fetched[i]);
            return Failure(NoneDistanceError);
          }
          results := results + [SearchResult(row.content, row.metadata, row.dist.value)];
        }
        i := i + 1;
      }
      assert fetched[..|fetched|] == fetched;
      assert !exists k :: 0 <= k < |fetched| && Raises(threshold, fetched[k]);
      FilterMapLength(fetched, f);
      r := Success(results);
    }

    /** `delete_by_document_id`: the rows of the document go, the rest stay in
        order; the id is always forwarded to the tracker. */
    method DeleteByDocumentId(documentId: string)
      modifies this, base.tracker
      ensures rows == Filter(old(rows), OtherDocument(documentId))
      ensures base.tracker.Ids() == Removed(old(base.tracker.Ids()), Some(documentId))
    {
      rows := Filter(rows, OtherDocument(documentId));
      base.TrackRemove(Some(documentId));
    }

    /** The overriding `list_documents`: the distinct stored document ids in
        ascending order, read from the table rather than the tracker. */
    method ListDocuments() returns (r: seq<string>)
      ensures StrictlySorted(r)
      ensures forall x :: x in r <==> exists i :: 0 <= i < |rows| && rows[i].documentId == x
    {
      r := SortSet(set i | 0 <= i < |rows| :: rows[i].documentId);
    }
  }

  /** `PgvectorVectorStore(...)`: resolves the connection string first and
      raises when none is configured, before any table is touched. */
  method Open(tracker: Option<DocumentTracker>, defaultTrackerFile: TrackerFile,
              argument: Option<string>, pgvectorConnectionString: string, databaseUrl: string,
              table: seq<Row>, threshold: real) returns (r: Result<PgvectorVectorStore>)
    ensures r.Failure? <==> ConnectionString(argument, pgvectorConnectionString, databaseUrl).Failure?
    ensures r.Success? ==> r.value.connectionString == ConnectionString(argument, pgvectorConnectionString, databaseUrl).value
    ensures r.Success? ==> r.value.rows == table
  {
    var cs := ConnectionString(argument, pgvectorConnectionString, databaseUrl);
    if cs.Failure? {
      return Failure(cs.error);
    }
    var store := new PgvectorVectorStore(tracker, defaultTrackerFile, cs.value, table, threshold);
    r := Success(store);
  }

  /** The rows a delete keeps. */
  function OtherDocument(documentId: string): Row -> bool {
    (row: Row) => row.documentId != documentId
  }

  /** After a delete the document's rows are gone and all others remain. */
  lemma DeleteRemovesExactly(rows: seq<Row>, documentId: string)
    ensures forall row :: row in Filter(rows, OtherDocument(documentId)) <==> row in rows && row.documentId != documentId
  {
    FilterMembers(rows, OtherDocument(documentId));
  }

  /** Chunks added without a document id are listed under "unknown". */
  lemma UnknownIsListed(chunks: seq<TextChunk>)
    requires chunks != []
    ensures exists i :: 0 <= i < |NewRows(chunks, None)| && NewRows(chunks, None)[i].documentId == UnknownDocument
  {
    assert NewRows(chunks, None)[0].documentId == UnknownDocument;
  }
}

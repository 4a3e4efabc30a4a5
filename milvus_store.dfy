/** The Milvus backend: a collection of three parallel columns (id,
    document id, metadata) next to the embeddings, and deletes driven by a
    boolean expression string. */
module MilvusStore {
  import opened Wrappers
  import opened Seqs
  import opened Values
  import opened DocumentTracker
  import opened VectorStoreBase

  /** One stored entity, read across the three columns. */
  datatype Entity = Entity(id: string, documentId: string, metadata: Meta)

  /** One hit of `collection.search`: its distance and, when the hit has an
      entity with a `metadata` field, that metadata. */
  datatype MilvusHit = MilvusHit(distance: real, metadata: Option<Meta>)

  /** `f"{document_id or 'doc'}_{uuid.uuid4().hex[:8]}"`. */
  function EntityId(documentId: Option<string>, uuidHex: string): (r: string)
    ensures r == IdOr(documentId, "doc") + "_" + Take(uuidHex, 8)
  {
    IdOr(documentId, "doc") + "_" + Take(uuidHex, 8)
  }

  /** `{**chunk.metadata, "content": chunk.content}`. */
  function EntityMetadata(c: TextChunk): (r: Meta)
    ensures r.Keys == c.metadata.Keys + {"content"} && r["content"] == Str(c.content)
    ensures forall k :: k in c.metadata && k != "content" ==> r[k] == c.metadata[k]
  {
    c.metadata["content" := Str(c.content)]
  }

  /** The entities one `add_chunks` inserts, in chunk order. */
  function NewEntities(chunks: seq<TextChunk>, documentId: Option<string>, uuidHexes: seq<string>): (r: seq<Entity>)
    requires |uuidHexes| == |chunks|
    ensures |r| == |chunks|
    ensures forall i :: 0 <= i < |r| ==>
      r[i] == Entity(EntityId(documentId, uuidHexes[i]), StoredDocumentId(documentId), EntityMetadata(chunks[i]))
  {
    seq(|chunks|, i requires 0 <= i < |chunks| =>
      Entity(EntityId(documentId, uuidHexes[i]), StoredDocumentId(documentId), EntityMetadata(chunks[i])))
  }

  /** Search: `similarity = 1 - hit.distance`, hits below the threshold are
      skipped, content comes from the metadata's `content` (default ""). */
  function Convert(threshold: real): MilvusHit -> Option<SearchResult> {
    (h: MilvusHit) =>
      if 1.0 - h.distance < threshold then None
      else Some(SearchResult(Show(Get(h.metadata.GetOr(map[]), "content", Str(""))), h.metadata.GetOr(map[]), h.distance))
  }

  // The delete expression and the string literal Milvus reads back from it.

  const ExprPrefix: string := "document_id == '"

  /** The string literal body after the opening quote: `\c` stands for `c`,
      and an unescaped `'` must close it at the very end. */
  function ReadLiteral(s: string): Option<string>
    decreases |s|
  {
    if s == [] then None
    else if s[0] == '\'' then (if |s| == 1 then Some([]) else None)
    else if s[0] == '\\' then
      (if |s| < 2 then None
       else match ReadLiteral(s[2..]) case Some(t) => Some([s[1]] + t) case None => None)
    else match ReadLiteral(s[1..]) case Some(t) => Some([s[0]] + t) case None => None
  }

  /** The document id an expression `document_id == '<literal>'` selects. */
  function ParseDeleteExpr(expr: string): Option<string> {
    if |expr| >= |ExprPrefix| && expr[..|ExprPrefix|] == ExprPrefix then ReadLiteral(expr[|ExprPrefix|..])
    else None
  }

  /** `document_id.replace("'", "\\'")`: only quotes are escaped. */
  function EscapeQuotes(d: string): string {
    if d == [] then [] else (if d[0] == '\'' then "\\'" else [d[0]]) + EscapeQuotes(d[1..])
  }

  /** The expression `delete_by_document_id` builds. */
  function DeleteExpr(d: string): string {
    ExprPrefix + EscapeQuotes(d) + "'"
  }

  /** Escaping both backslashes and quotes. */
  function EscapeLiteral(d: string): string {
    if d == [] then [] else (if d[0] == '\'' || d[0] == '\\' then ['\\', d[0]] else [d[0]]) + EscapeLiteral(d[1..])
  }

  /** The expression with both characters escaped. */
  function CorrectedDeleteExpr(d: string): string {
    ExprPrefix + EscapeLiteral(d) + "'"
  }

  lemma ParseAfterPrefix(body: string)
    ensures ParseDeleteExpr(ExprPrefix + body) == ReadLiteral(body)
  {
    assert (ExprPrefix + body)[..|ExprPrefix|] == ExprPrefix;
    assert (ExprPrefix + body)[|ExprPrefix|..] == body;
  }

  /** For ids without a backslash the expression as written selects exactly
      the id. */
  lemma {:induction false} QuotesRoundTrip(d: string)
    requires forall k :: 0 <= k < |d| ==> d[k] != '\\'
    ensures ReadLiteral(EscapeQuotes(d) + "'") == Some(d)
  {
    if d != [] {
      QuotesRoundTrip(d[1..]);
      var rest := EscapeQuotes(d[1..]) + "'";
      if d[0] == '\'' {
        assert EscapeQuotes(d) + "'" == "\\'" + rest;
        assert ("\\'" + rest)[2..] == rest;
      } else {
        assert EscapeQuotes(d) + "'" == [d[0]] + rest;
        assert ([d[0]] + rest)[1..] == rest;
      }
      assert d == [d[0]] + d[1..];
    }
  }

  lemma DeleteExprSelectsId(d: string)
    requires forall k :: 0 <= k < |d| ==> d[k] != '\\'
    ensures ParseDeleteExpr(DeleteExpr(d)) == Some(d)
  {
    assert DeleteExpr(d) == ExprPrefix + (EscapeQuotes(d) + "'");
    ParseAfterPrefix(EscapeQuotes(d) + "'");
    QuotesRoundTrip(d);
  }

  /** A document id ending in a backslash: the written expression's literal
      swallows its closing quote, so it selects nothing. */
  lemma TrailingBackslashBreaksDelete()
    ensures ParseDeleteExpr(DeleteExpr("a\\")) == None
  {
    assert DeleteExpr("a\\") == ExprPrefix + "a\\'";
    ParseAfterPrefix("a\\'");
    assert "a\\'"[1..] == "\\'";
    assert "\\'"[2..] == [];
  }

  /** A backslash inside the id is read as an escape: the expression as
      written for `a\b` selects the document `ab`. */
  lemma InnerBackslashSelectsOther()
    ensures ParseDeleteExpr(DeleteExpr("a\\b")) == Some("ab")
  {
    assert DeleteExpr("a\\b") == ExprPrefix + "a\\b'";
    ParseAfterPrefix("a\\b'");
    var tail: string := "\\b'";
    assert tail[0] == '\\' && tail[1] == 'b' && tail[2..] == "'";
    assert ReadLiteral(tail[2..]) == Some([]);
    assert ReadLiteral(tail) == Some(['b'] + []);
    assert ['b'] + [] == "b";
    var whole: string := "a\\b'";
    assert whole[0] == 'a' && whole[1..] == tail;
    assert ReadLiteral(whole) == Some(['a'] + "b");
    assert ['a'] + "b" == "ab";
  }

  /** With backslashes escaped as well, every id round-trips. */
  lemma {:induction false} LiteralRoundTrip(d: string)
    ensures ReadLiteral(EscapeLiteral(d) + "'") == Some(d)
  {
    if d != [] {
      LiteralRoundTrip(d[1..]);
      var rest := EscapeLiteral(d[1..]) + "'";
      if d[0] == '\'' || d[0] == '\\' {
        assert EscapeLiteral(d) + "'" == ['\\', d[0]] + rest;
        assert (['\\', d[0]] + rest)[2..] == rest;
      } else {
        assert EscapeLiteral(d) + "'" == [d[0]] + rest;
        assert ([d[0]] + rest)[1..] == rest;
      }
      assert d == [d[0]] + d[1..];
    }
  }

  lemma CorrectedDeleteExprSelectsId(d: string)
    ensures ParseDeleteExpr(CorrectedDeleteExpr(d)) == Some(d)
  {
    assert CorrectedDeleteExpr(d) == ExprPrefix + (EscapeLiteral(d) + "'");
    ParseAfterPrefix(EscapeLiteral(d) + "'");
    LiteralRoundTrip(d);
  }

  /** Both escapings agree on ids without a backslash. */
  lemma {:induction false} EscapingsAgree(d: string)
    requires forall k :: 0 <= k < |d| ==> d[k] != '\\'
    ensures EscapeLiteral(d) == EscapeQuotes(d)
  {
    if d != [] {
      EscapingsAgree(d[1..]);
    }
  }

  /** The error `collection.delete` raises for an expression it cannot parse. */
  const InvalidExpression: string := "invalid filter expression"

  /** The entities a delete keeps. */
  function OtherDocument(documentId: string): Entity -> bool {
    (e: Entity) => e.documentId != documentId
  }

  /** The `add_chunks` loop that fills the three columns, one value per chunk. */
  method BuildColumns(chunks: seq<TextChunk>, documentId: Option<string>, uuidHexes: seq<string>)
    returns (newIds: seq<string>, newDocIds: seq<string>, newMetadata: seq<Meta>)
    requires |uuidHexes| == |chunks|
    ensures |newIds| == |newDocIds| == |newMetadata| == |chunks|
    ensures forall k :: 0 <= k < |chunks| ==>
      Entity(newIds[k], newDocIds[k], newMetadata[k]) == NewEntities(chunks, documentId, uuidHexes)[k]
  {
    newIds, newDocIds, newMetadata := [], [], [];
    var i := 0;
    while i < |chunks|
      invariant 0 <= i <= |chunks|
      invariant |newIds| == |newDocIds| == |newMetadata| == i
      invariant forall k :: 0 <= k < i ==>
        Entity(newIds[k], newDocIds[k], newMetadata[k]) == NewEntities(chunks, documentId, uuidHexes)[k]
    {
      newIds := newIds + [EntityId(documentId, uuidHexes[i])];
      newDocIds := newDocIds + [IdOr(documentId, "unknown")];
      newMetadata := newMetadata + [EntityMetadata(chunks[i])];
      i := i + 1;
    }
  }

  class MilvusVectorStore {
    const base: VectorStoreBase
    /** The `id`, `document_id` and `metadata` columns. */
    var ids: seq<string>
    var docIds: seq<string>
    var metadatas: seq<Meta>
    /** `config.SIMILARITY_THRESHOLD` (0.7 when unset). */
    const configThreshold: real

    /** The columns have one value per entity. */
    predicate Valid()
      reads this
    {
      |ids| == |docIds| == |metadatas|
    }

    /** The stored entities, row by row. */
    function Entities(): (r: seq<Entity>)
      requires Valid()
      reads this
      ensures |r| == |ids|
    {
      seq(|ids|, i requires 0 <= i < |ids| && Valid() reads this => Entity(ids[i], docIds[i], metadatas[i]))
    }

    constructor (tracker: Option<DocumentTracker>, defaultTrackerFile: TrackerFile,
                 existing: seq<Entity>, threshold: real)
      ensures tracker.Some? ==> base.tracker == tracker.value
      ensures Valid() && Entities() == existing && configThreshold == threshold
    {
      base := new VectorStoreBase(tracker, defaultTrackerFile);
      ids := seq(|existing|, i requires 0 <= i < |existing| => existing[i].id);
      docIds := seq(|existing|, i requires 0 <= i < |existing| => existing[i].documentId);
      metadatas := seq(|existing|, i requires 0 <= i < |existing| => existing[i].metadata);
      configThreshold := threshold;
      new;
      assert forall i :: 0 <= i < |existing| ==> Entities()[i] == existing[i];
    }

    /** `add_chunks`: fills the three columns in one loop, inserts them, and
        tells the tracker about a truthy id. `uuidHexes` holds the
        `uuid4().hex` drawn for each chunk. */
    method AddChunks(chunks: seq<TextChunk>, documentId: Option<string>, uuidHexes: seq<string>) returns (count: nat)
      requires Valid() && |uuidHexes| == |chunks|
      modifies this, base.tracker
      ensures Valid()
      ensures count == |chunks|
      ensures Entities() == old(Entities()) + NewEntities(chunks, documentId, uuidHexes)
      ensures base.tracker.Ids() == if chunks == [] then old(base.tracker.Ids()) else Added(old(base.tracker.Ids()), documentId)
      ensures chunks == [] || !IsTruthyId(documentId) ==> base.tracker.file == old(base.tracker.file)
    {
      if chunks == [] {
        assert Entities() == old(Entities()) + [];
        return 0;
      }
      var newIds, newDocIds, newMetadata := BuildColumns(chunks, documentId, uuidHexes);
      ghost var before := Entities();
      ids, docIds, metadatas := ids + newIds, docIds + newDocIds, metadatas + newMetadata;
      ghost var added := NewEntities(chunks, documentId, uuidHexes);
      forall k | 0 <= k < |Entities()|
        ensures Entities()[k] == (before + added)[k]
      {
        if k >= |before| {
          assert Entities()[k] == Entity(newIds[k - |before|], newDocIds[k - |before|], newMetadata[k - |before|]);
        }
      }
      assert Entities() == before + added;
      if IsTruthyId(documentId) {
        base.TrackAdd(documentId);
      }
      count := |newIds|;
    }

    /** `search` over the first hit list, if any, of at most `top_k` hits. */
    method Search(topK: int, similarityThreshold: Option<real>, answer: Option<seq<MilvusHit>>) returns (results: seq<SearchResult>)
      requires topK >= 1
      ensures results == FilterMap(Take(answer.GetOr([]), topK), Convert(EffectiveThreshold(similarityThreshold, configThreshold)))
      ensures answer.None? ==> results == []
      ensures |results| <= topK
    {
      var hits := Take(answer.GetOr([]), topK);
      var threshold := EffectiveThreshold(similarityThreshold, configThreshold);
      ghost var f := Convert(threshold);
      results := [];
      var i := 0;
      while i < |hits|
        invariant 0 <= i <= |hits|
        invariant results == FilterMap(hits[..i], f)
      {
        FilterMapStep(hits, i, f);
        var hit := hits[i];
        var similarity := 1.0 - hit.distance;
        if similarity >= threshold {
          var metadata := hit.metadata.GetOr(map[]);
          results := results + [SearchResult(Show(Get(metadata, "content", Str(""))), metadata, hit.distance)];
        }
        i := i + 1;
      }
      assert hits[..|hits|] == hits;
      FilterMapLength(hits, f);
    }

    /** `delete_by_document_id` as written: builds the expression with only
        quotes escaped. An expression whose literal does not read back
        (`ParseDeleteExpr` gives none) makes `collection.delete` raise, so
        nothing is deleted and the tracker is not told; otherwise the
        entities of the id the literal reads as go, then the tracker forgets
        `document_id`. */
    method DeleteByDocumentId(documentId: string) returns (r: Result<()>)
      requires Valid()
      modifies this, base.tracker
      ensures Valid()
      ensures r.Success? <==> ParseDeleteExpr(DeleteExpr(documentId)).Some?
      ensures r.Success? ==> Entities() == Filter(old(Entities()), OtherDocument(ParseDeleteExpr(DeleteExpr(documentId)).value))
      ensures r.Success? ==> base.tracker.Ids() == Removed(old(base.tracker.Ids()), Some(documentId))
      ensures r.Failure? ==> Entities() == old(Entities()) && base.tracker.file == old(base.tracker.file)
      ensures (forall k :: 0 <= k < |documentId| ==> documentId[k] != '\\') ==>
        r.Success? && Entities() == Filter(old(Entities()), OtherDocument(documentId))
    {
      var expr := DeleteExpr(documentId);
      var target := ParseDeleteExpr(expr);
      if (forall k :: 0 <= k < |documentId| ==> documentId[k] != '\\') {
        DeleteExprSelectsId(documentId);
      }
      if target.None? {
        return Failure(InvalidExpression);
      }
      DeleteMatching(target.value);
      base.TrackRemove(Some(documentId));
      r := Success(());
    }

    /** The delete with both backslashes and quotes escaped: every id selects
        exactly its own entities, and the tracker then forgets it. */
    method CorrectedDeleteByDocumentId(documentId: string)
      requires Valid()
      modifies this, base.tracker
      ensures Valid()
      ensures Entities() == Filter(old(Entities()), OtherDocument(documentId))
      ensures base.tracker.Ids() == Removed(old(base.tracker.Ids()), Some(documentId))
    {
      var expr := CorrectedDeleteExpr(documentId);
      CorrectedDeleteExprSelectsId(documentId);
      DeleteMatching(ParseDeleteExpr(expr).value);
      base.TrackRemove(Some(documentId));
    }

    /** `collection.delete(expr)` for an expression selecting `target`: the
        entities with that document id go, the others stay in order. */
    method DeleteMatching(target: string)
      requires Valid()
      modifies this
      ensures Valid()
      ensures Entities() == Filter(old(Entities()), OtherDocument(target))
    {
      ghost var all := Entities();
      var keptIds: seq<string> := [];
      var keptDocIds: seq<string> := [];
      var keptMetadata: seq<Meta> := [];
      var i := 0;
      while i < |ids|
        invariant 0 <= i <= |ids| && Valid() && Entities() == all
        invariant |keptIds| == |keptDocIds| == |keptMetadata|
        invariant seq(|keptIds|, k requires 0 <= k < |keptIds| => Entity(keptIds[k], keptDocIds[k], keptMetadata[k]))
               == Filter(all[..i], OtherDocument(target))
      {
        FilterStep(all, i, OtherDocument(target));
        ghost var kept := seq(|keptIds|, k requires 0 <= k < |keptIds| => Entity(keptIds[k], keptDocIds[k], keptMetadata[k]));
        if docIds[i] != target {
          keptIds, keptDocIds, keptMetadata := keptIds + [ids[i]], keptDocIds + [docIds[i]], keptMetadata + [metadatas[i]];
          assert seq(|keptIds|, k requires 0 <= k < |keptIds| => Entity(keptIds[k], keptDocIds[k], keptMetadata[k]))
              == kept + [all[i]];
        }
        i := i + 1;
      }
      assert all[..|ids|] == all;
      ids, docIds, metadatas := keptIds, keptDocIds, keptMetadata;
    }

    /** The inherited `list_documents`: the tracker's sorted list. */
    method ListDocuments() returns (r: seq<string>)
      ensures Ordering.StrictlySorted(r)
      ensures forall x :: x in r <==> x in base.tracker.Ids()
    {
      r := base.ListDocuments();
    }
  }

  /** After a delete no entity of the document remains and all others do. */
  lemma DeleteRemovesExactly(entities: seq<Entity>, documentId: string)
    ensures forall e :: e in Filter(entities, OtherDocument(documentId)) <==> e in entities && e.documentId != documentId
  {
    FilterMembers(entities, OtherDocument(documentId));
  }
}

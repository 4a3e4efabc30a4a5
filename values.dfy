/** The records shared by ingestion, the vector stores and the answer chain:
    metadata values, chunks, search results, and the small rules about
    document ids, thresholds and similarity that every backend repeats. */
module Values {
  import opened Wrappers
  import opened Strings

  /** A metadata value as the backends store it (JSON scalars). */
  datatype Value = Str(s: string) | Int(i: int) | Null

  type Meta = map<string, Value>

  /** Python truthiness of a metadata value. */
  predicate Truthy(v: Value) {
    match v
    case Str(s) => s != []
    case Int(i) => i != 0
    case Null => false
  }

  /** `str(v)`, as an f-string renders it. */
  function Show(v: Value): string {
    match v
    case Str(s) => s
    case Int(i) => IntToString(i)
    case Null => "None"
  }

  /** `m.get(key, default)`. */
  function Get(m: Meta, key: string, default: Value): Value {
    if key in m then m[key] else default
  }

  /** `TextChunk` of ingestion/chunker.py: what every backend's add_chunks receives. */
  datatype TextChunk = TextChunk(content: string, metadata: Meta)

  /** `SearchResult` of vector_store/base.py. */
  datatype SearchResult = SearchResult(content: string, metadata: Meta, distance: real)

  const UnknownDocument: string := "unknown"

  /** Truthiness of `document_id: Optional[str]`: neither `None` nor `""`. */
  predicate IsTruthyId(documentId: Option<string>) {
    documentId.Some? && documentId.value != []
  }

  /** `document_id or default`. */
  function IdOr(documentId: Option<string>, default: string): (r: string)
    ensures IsTruthyId(documentId) ==> r == documentId.value
    ensures !IsTruthyId(documentId) ==> r == default
  {
    if IsTruthyId(documentId) then documentId.value else default
  }

  /** The key every stored chunk carries, defaulting to "unknown". */
  function StoredDocumentId(documentId: Option<string>): (r: string)
    ensures r != []
  {
    IdOr(documentId, UnknownDocument)
  }

  /** `similarity_threshold if similarity_threshold is not None else configured`. */
  function EffectiveThreshold(similarityThreshold: Option<real>, configured: real): real {
    similarityThreshold.GetOr(configured)
  }

  /** Truthiness of the threshold argument (`None` and `0.0` are falsy). */
  predicate ThresholdGiven(similarityThreshold: Option<real>) {
    similarityThreshold.Some? && similarityThreshold.value != 0.0
  }

  /** Cosine-distance normalisation of Chroma, the legacy store and pgvector:
      `1 - d / 2` when `d <= 2`, else 0. */
  function CosineSimilarity(d: real): real {
    if d <= 2.0 then 1.0 - d / 2.0 else 0.0
  }

  /** For any valid cosine distance the similarity lies in [0, 1]. */
  lemma CosineSimilarityBounds(d: real)
    requires 0.0 <= d
    ensures 0.0 <= CosineSimilarity(d) <= 1.0
    ensures CosineSimilarity(d) == 1.0 <==> d == 0.0
  {
  }

  /** A larger distance never gives a larger similarity, so closest-first
      order is also highest-similarity-first order. */
  lemma CosineSimilarityAntitone(d1: real, d2: real)
    requires d1 <= d2
    ensures CosineSimilarity(d2) <= CosineSimilarity(d1)
  {
  }

  /** True iff the metadata's `document_id` is the string `d`. */
  predicate HasDocumentId(m: Meta, d: string) {
    "document_id" in m && m["document_id"] == Str(d)
  }

  /** `{**chunk.metadata, "content": chunk.content, "document_id": document_id or "unknown"}`:
      the record FAISS and Qdrant store beside each vector. */
  function ContentRecord(c: TextChunk, documentId: Option<string>): (r: Meta)
    ensures HasDocumentId(r, StoredDocumentId(documentId))
    ensures "content" in r && r["content"] == Str(c.content)
    ensures r.Keys == c.metadata.Keys + {"content", "document_id"}
    ensures forall k :: k in c.metadata && k != "content" && k != "document_id" ==> r[k] == c.metadata[k]
  {
    c.metadata["content" := Str(c.content)]["document_id" := Str(StoredDocumentId(documentId))]
  }
}

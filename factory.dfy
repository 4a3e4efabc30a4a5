/** `create_vector_store`: picks one backend from the configured provider name
    and checks the credentials that backend needs before it is built. */
module Factory {
  import opened Wrappers
  import opened Strings
  import opened Values
  import opened DocumentTracker

  datatype Backend = Chroma | Pinecone | Qdrant | Milvus | Faiss | Pgvector | Weaviate

  /** The configuration values the factory reads. */
  datatype FactoryConfig = FactoryConfig(
    vectorProvider: Option<string>,
    pineconeApiKey: string,
    pgvectorConnectionString: string,
    databaseUrl: string)

  /** The provider name each backend answers to. */
  function NameOf(b: Backend): string {
    match b
    case Chroma => "chroma"
    case Pinecone => "pinecone"
    case Qdrant => "qdrant"
    case Milvus => "milvus"
    case Faiss => "faiss"
    case Pgvector => "pgvector"
    case Weaviate => "weaviate"
  }

  /** `(config.VECTOR_PROVIDER or "chroma").lower()`. */
  function ProviderName(vectorProvider: Option<string>): (r: string)
    ensures !IsTruthyId(vectorProvider) ==> r == "chroma"
    ensures |r| == |IdOr(vectorProvider, "chroma")|
  {
    Lower(IdOr(vectorProvider, "chroma"))
  }

  /** The names other than "chroma" that select a backend of their own. */
  predicate IsNamedBackend(name: string) {
    name in {"pinecone", "qdrant", "milvus", "faiss", "pgvector", "weaviate"}
  }

  /** `create_vector_store`: a backend choice, or the `ValueError` it raises. */
  function CreateVectorStore(cfg: FactoryConfig): (r: Result<Backend>)
    ensures r.Failure? <==>
      (ProviderName(cfg.vectorProvider) == "pinecone" && cfg.pineconeApiKey == []) ||
      (ProviderName(cfg.vectorProvider) == "pgvector" && cfg.pgvectorConnectionString == [] && cfg.databaseUrl == [])
    ensures r.Success? && IsNamedBackend(ProviderName(cfg.vectorProvider)) ==>
      NameOf(r.value) == ProviderName(cfg.vectorProvider)
    ensures r.Success? && !IsNamedBackend(ProviderName(cfg.vectorProvider)) ==> r.value == Chroma
  {
    var provider := ProviderName(cfg.vectorProvider);
    if provider == "pinecone" then
      if cfg.pineconeApiKey == [] then Failure("PINECONE_API_KEY is required for Pinecone provider.")
      else Success(Pinecone)
    else if provider == "qdrant" then Success(Qdrant)
    else if provider == "milvus" then Success(Milvus)
    else if provider == "faiss" then Success(Faiss)
    else if provider == "pgvector" then
      if cfg.pgvectorConnectionString == [] && cfg.databaseUrl == [] then
        Failure("PGVECTOR_CONNECTION_STRING or DATABASE_URL is required for pgvector.")
      else Success(Pgvector)
    else if provider == "weaviate" then Success(Weaviate)
    else Success(Chroma)
  }

  /** The whole call: one fresh `DocumentTracker()` over the default tracker
      file is made before the provider is examined (so also when the call
      then raises), and the chosen backend is built with `tracker=` that
      tracker, which every backend constructor keeps as `base.tracker`. */
  method CreateTracked(cfg: FactoryConfig, defaultTrackerFile: TrackerFile)
    returns (r: Result<Backend>, tracker: DocumentTracker)
    ensures r == CreateVectorStore(cfg)
    ensures fresh(tracker) && tracker.file == defaultTrackerFile && tracker.writes == 0
  {
    tracker := new DocumentTracker(defaultTrackerFile);
    r := CreateVectorStore(cfg);
  }

  /** Every backend is reachable through its own name, and only through it:
      naming a backend with its credentials present selects exactly that backend. */
  lemma EachNameSelectsItsBackend(b: Backend, cfg: FactoryConfig)
    requires cfg.vectorProvider == Some(NameOf(b))
    requires cfg.pineconeApiKey != [] && cfg.pgvectorConnectionString != []
    ensures CreateVectorStore(cfg) == Success(b)
  {
    var n := NameOf(b);
    assert Lower(n) == n;
  }

  /** Names are distinct, so the selection is a function of the name alone. */
  lemma NameOfInjective(a: Backend, b: Backend)
    requires NameOf(a) == NameOf(b)
    ensures a == b
  {
  }

  /** Upper-case names select the same backend as lower-case ones. */
  lemma ProviderNameIgnoresCase(cfg: FactoryConfig)
    requires cfg.vectorProvider == Some("PgVector")
    requires cfg.databaseUrl != []
    ensures CreateVectorStore(cfg) == Success(Pgvector)
  {
    assert Lower("PgVector") == "pgvector";
  }
}

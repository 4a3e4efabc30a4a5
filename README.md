# Verified model of the RAG chatbot's storage, ingestion and answer core

This project models, in Dafny, the core of a retrieval-augmented chatbot:

- **Document tracker and store base** (`vector_store/document_tracker.py`, `vector_store/base.py`): the JSON registry of indexed document ids, and the tracker calls every backend makes.
- **Backend factory** (`vector_store/factory.py`): the provider name picks a backend, and a missing credential raises.
- **Seven backends** (`vector_store/providers/`): Chroma, FAISS, pgvector, Milvus, Weaviate, Pinecone and Qdrant, plus the legacy Chroma-only store (`vector_store/store.py`). Each is a class over the state it mutates: a collection, a table, an index with its side file, or a map of vectors. For each backend the model states:
  - what `add_chunks` stores;
  - how `search` filters and orders the native answer;
  - what `delete_by_document_id` removes;
  - what `list_documents` returns.
- **Ingestion** (`ingestion/parsers.py`, `ingestion/chunker.py`, `ingestion/pipeline.py`):
  - suffix-based parser choice;
  - PDF pages and Markdown files as document chunks;
  - the sliding-window chunker;
  - the `process_file` pipeline.
- **Answer chain** (`rag/chain.py`):
  - the context blocks;
  - the no-context answers;
  - the failure answer with its hint and snippet;
  - the sources;
  - the streamed fragments.
- **Lead store** (`leads/store.py`): case-insensitive e-mail de-duplication, record creation and CSV export.

Embeddings, the native nearest-neighbour search and the LLM are not code this model can see. Their answers are method parameters:
- the candidate lists and hit rows a backend's query would return;
- the uuids, hashes and timestamps drawn;
- the page texts a PDF reader extracts;
- the outcome of a generation call.

Every loop of the source is a Dafny method with its invariants. Each method is proved against a specification function, and the lemmas state what the source promises about that function. The promises proved include:
- the tracker's sorted list and its idempotence;
- the search filters with their `top_k` bound and ordering;
- the deletes that remove exactly one document;
- that the chunker loses no non-blank character;
- the PDF page order;
- the lead store's "second add returns the first id".

Modules: `Wrappers`, `Strings`, `Seqs`, `Maps`, `Ordering` and `Values` hold shared vocabulary. Each source file then has its own module: `DocumentTracker`, `VectorStoreBase`, `Factory`, `ChromaStore`, `FaissStore`, `PgvectorStore`, `MilvusStore`, `WeaviateStore`, `PineconeStore`, `QdrantStore` (with `ScoredHits`, the hit shape it shares with Pinecone), `LegacyStore`, `Parsers`, `Chunker`, `Pipeline`, `Chain` and `Leads`.

## Model

| member | source | states |
|---|---|---|
| DocumentTracker.Decode | vector_store/document_tracker.py:19-28 | a missing file, invalid JSON or a non-list value reads as the empty set; a list reads as exactly the set of its items |
| DocumentTracker.Added | vector_store/document_tracker.py:34-41 | a falsy id leaves the set as it was; any other id is in the set afterwards, with nothing else added |
| DocumentTracker.Removed | vector_store/document_tracker.py:43-50 | a falsy id leaves the set as it was; any other id is gone afterwards, with nothing else removed |
| DocumentTracker.AddRemoveIdempotent | vector_store/document_tracker.py:34-50 | adding an id twice is adding it once; removing it twice is removing it once |
| DocumentTracker.AddThenRemoveRestores | vector_store/document_tracker.py:34-50 | starting from a set without the id, add followed by remove gives back the original set |
| DocumentTracker.DocumentTracker.constructor | vector_store/document_tracker.py:15-17 | the tracker starts over whatever the file holds, with no writes yet |
| DocumentTracker.DocumentTracker.Write | vector_store/document_tracker.py:30-32 | the file then holds a strictly sorted list with one item per id, so the next read gives back exactly the ids written |
| DocumentTracker.DocumentTracker.Add | vector_store/document_tracker.py:34-41 | the ids become `Added(old ids, id)`; a falsy or already present id leaves the file untouched with no write; otherwise exactly one write of a sorted list |
| DocumentTracker.DocumentTracker.Remove | vector_store/document_tracker.py:43-50 | the ids become `Removed(old ids, id)`; a falsy or absent id leaves the file untouched with no write; otherwise exactly one write of a sorted list |
| DocumentTracker.DocumentTracker.List | vector_store/document_tracker.py:52-53 | strictly ascending, holds exactly the stored ids, one entry per id |
| DocumentTracker.RestartKeepsList | vector_store/document_tracker.py:15-53 | a tracker rebuilt over the same file lists exactly what the old one listed |
| DocumentTracker.DuplicateAddAbsentRemove | vector_store/document_tracker.py:34-50 | adding "a" twice and removing an absent "b" leaves one new id and exactly one write |
| VectorStoreBase.VectorStoreBase.constructor | vector_store/base.py:23-24 | keeps the supplied tracker, or makes a fresh one over the default file |
| VectorStoreBase.VectorStoreBase.ListDocuments | vector_store/base.py:47-49 | the default listing is strictly ascending and holds exactly the tracker's ids |
| VectorStoreBase.VectorStoreBase.TrackAdd | vector_store/base.py:51-52 | the tracker's ids become `Added(old ids, id)`; a falsy id writes nothing |
| VectorStoreBase.VectorStoreBase.TrackRemove | vector_store/base.py:54-55 | the tracker's ids become `Removed(old ids, id)`; a falsy id writes nothing |
| Factory.ProviderName | vector_store/factory.py:23 | an unset or empty provider name reads as "chroma"; lower-casing keeps the length |
| Factory.CreateVectorStore | vector_store/factory.py:21-60 | fails exactly for "pinecone" without an API key and for "pgvector" with neither connection setting; a named backend is the one with that name; any other name gives Chroma |
| Factory.CreateTracked | vector_store/factory.py:21-60 | one fresh tracker over the default file is made per call, before the provider is examined, and the choice is `CreateVectorStore`'s |
| Factory.EachNameSelectsItsBackend | vector_store/factory.py:26-56 | each backend's own name, with the credentials present, selects that backend |
| Factory.NameOfInjective | vector_store/factory.py:26-56 | no two backends share a name |
| Factory.ProviderNameIgnoresCase | vector_store/factory.py:23-52 | "PgVector" selects pgvector, because the name is lower-cased first |
| Values.IdOr | vector_store/providers/chroma_store.py:52 | `document_id or default`: the id when it is truthy, else the default |
| Values.StoredDocumentId | vector_store/providers/chroma_store.py:52 | the stored `document_id` is never empty: the id, or "unknown" |
| Values.CosineSimilarityBounds | vector_store/providers/chroma_store.py:104 | for a distance of at least 0 the similarity is in [0, 1], and it is 1 exactly at distance 0 |
| Values.CosineSimilarityAntitone | vector_store/providers/chroma_store.py:104 | a larger distance never gives a larger similarity |
| ChromaStore.ChromaMetadata | vector_store/providers/chroma_store.py:51-54 | the stored metadata is the chunk's plus `document_id` (the id or "unknown"); every other key keeps its value |
| ChromaStore.NewEntries | vector_store/providers/chroma_store.py:50-63 | one entry per chunk, in chunk order, each with its id, its content and its metadata |
| ChromaStore.FetchK | vector_store/providers/chroma_store.py:76 | never fewer than `top_k`; at least 20 when a truthy threshold is given; exactly `top_k` otherwise |
| ChromaStore.StopAt | vector_store/providers/chroma_store.py:106-110 | the loop breaks once `top_k` results are collected, or after the first one when `top_k <= 0`, because the test follows the append |
| ChromaStore.Candidates | vector_store/providers/chroma_store.py:88-102 | never more candidates than documents in the answer |
| ChromaStore.SearchSpecSize | vector_store/providers/chroma_store.py:103-117 | never more results than candidates; for `top_k >= 1` at most `top_k` results, and empty exactly when there are no candidates |
| ChromaStore.SearchSpecFiltered | vector_store/providers/chroma_store.py:103-110 | when some candidate passes the threshold, for any `top_k`, every result passes it and is one of the candidates |
| ChromaStore.SearchSpecFallback | vector_store/providers/chroma_store.py:111-117 | when no candidate passes, the result is `candidates[:top_k]` as they came, with Python's slice for a negative `top_k` |
| ChromaStore.NonPositiveTopKReturnsOne | vector_store/providers/chroma_store.py:106-110 | as written, a `top_k` of 0 or less still returns exactly one result when some candidate passes |
| ChromaStore.BoundedSearchSpecAtMostTopK | vector_store/providers/chroma_store.py:103-117 | the corrected search returns at most `max(top_k, 0)` results, and the written results wherever `top_k >= 1` |
| ChromaStore.AllResultsAt | vector_store/providers/chroma_store.py:114-117 | the fallback keeps every candidate, at its own position |
| ChromaStore.Closest | vector_store/providers/chroma_store.py:113-117 | the fallback loop returns `candidates[:top_k]`, for any integer `top_k` |
| ChromaStore.ChromaVectorStore.constructor | vector_store/providers/chroma_store.py:20-25 | the store over the persisted collection and the given tracker |
| ChromaStore.ChromaVectorStore.AddChunks | vector_store/providers/chroma_store.py:42-67 | returns the chunk count; appends exactly the new entries; no chunks or a falsy id leaves the tracker file untouched, otherwise the id is tracked |
| ChromaStore.ChromaVectorStore.Search | vector_store/providers/chroma_store.py:69-118 | for every integer `top_k`, the result is the threshold filter up to the loop's early stop, or the `candidates[:top_k]` fallback; never more than `top_k` entries when `top_k >= 1` |
| ChromaStore.ChromaVectorStore.DeleteByDocumentId | vector_store/providers/chroma_store.py:120-127 | exactly the entries carrying the id go; the id is always passed on to the tracker |
| ChromaStore.ChromaVectorStore.ListDocuments | vector_store/base.py:47-49 | the inherited listing: strictly ascending, exactly the tracker's ids |
| ChromaStore.DeleteRemovesExactly | vector_store/providers/chroma_store.py:120-126 | an entry survives exactly when it does not carry the id; a second delete changes nothing |
| FaissStore.LoadMetadata | vector_store/providers/faiss_store.py:49-58 | a stored dict is kept as it is; a missing file, invalid JSON or a non-dict value gives the empty map |
| FaissStore.MaskId | vector_store/providers/faiss_store.py:91 | a masked id always fits the non-negative `int64` range |
| Values.ContentRecord | vector_store/providers/faiss_store.py:93-97 | the record is the chunk's metadata plus `content` and `document_id` (the id or "unknown"); every other key keeps its value; Qdrant builds the same payload at qdrant_store.py:82-86 |
| FaissStore.MaskedIds | vector_store/providers/faiss_store.py:89-92 | one masked id per drawn number, in order, each in range |
| FaissStore.FaissRecords | vector_store/providers/faiss_store.py:90-97 | one record per chunk, in chunk order |
| FaissStore.SearchResultsAreHits | vector_store/providers/faiss_store.py:124-136 | every result comes from a real hit (not -1) that reaches the threshold, with its stored content and distance `1 - score`; every such hit gives a result; never more results than hits |
| FaissStore.FaissVectorStore.constructor | vector_store/providers/faiss_store.py:19-47 | the metadata is what `_load_metadata` reads, the index is the persisted one or empty, and nothing has been saved yet |
| FaissStore.FaissVectorStore.AddChunks | vector_store/providers/faiss_store.py:80-106 | returns the chunk count; no chunks changes nothing; otherwise the masked ids are appended to the index, each id maps to its chunk's record, the files are saved once, and a truthy id is tracked; no chunks or a falsy id leaves the tracker file untouched |
| FaissStore.FaissVectorStore.Search | vector_store/providers/faiss_store.py:108-137 | an empty index gives no results; otherwise the results are the threshold filter over the `top_k` hit rows, in their order, and never more than `top_k` |
| FaissStore.FaissVectorStore.DeleteByDocumentId | vector_store/providers/faiss_store.py:139-152 | exactly the ids whose metadata names the document leave the map and the index; the files are saved only when some id went; the id is always passed on to the tracker |
| FaissStore.FaissVectorStore.ListDocuments | vector_store/base.py:47-49 | the inherited listing: strictly ascending, exactly the tracker's ids |
| FaissStore.DeleteLeavesTheRest | vector_store/providers/faiss_store.py:140-149 | after a delete no entry names the document, every other entry stays with its record, and a second delete finds nothing |
| PgvectorStore.ConnectionString | vector_store/providers/pgvector_store.py:29-37 | the argument, else `PGVECTOR_CONNECTION_STRING`, else `DATABASE_URL`, first non-empty wins; the `ValueError` exactly when all three are empty |
| PgvectorStore.NewRow | vector_store/providers/pgvector_store.py:104-118 | the row carries the id or "unknown", the chunk's content, and the chunk's metadata with `content` added |
| PgvectorStore.NewRows | vector_store/providers/pgvector_store.py:109-118 | one row per chunk, in chunk order |
| PgvectorStore.PositiveThresholdNeverRaises | vector_store/providers/pgvector_store.py:156-158 | with a positive threshold a NULL distance counts as similarity 0, so the search cannot fail, and every result reaches the threshold with a distance below 2 |
| PgvectorStore.ResultsBoundedBy | vector_store/providers/pgvector_store.py:155-163 | no result has a larger distance than the rows it came from |
| PgvectorStore.SurvivorsKeepOrder | vector_store/providers/pgvector_store.py:145-163 | rows ordered by distance give results ordered by distance |
| PgvectorStore.PgvectorVectorStore.constructor | vector_store/providers/pgvector_store.py:20-61 | the store over the resolved connection string and the existing table |
| PgvectorStore.PgvectorVectorStore.AddChunks | vector_store/providers/pgvector_store.py:96-123 | returns the chunk count; inserts exactly one row per chunk in order; a truthy id is tracked after a non-empty insert; no chunks or a falsy id leaves the tracker file untouched |
| PgvectorStore.PgvectorVectorStore.Search | vector_store/providers/pgvector_store.py:125-164 | the `LIMIT top_k` rows filtered by similarity `1 - dist/2`; the `TypeError` of `float(None)` when a passing row has a NULL distance; never more than `top_k` results |
| PgvectorStore.PgvectorVectorStore.DeleteByDocumentId | vector_store/providers/pgvector_store.py:166-174 | the document's rows go, the others stay in order; the id is always passed on to the tracker |
| PgvectorStore.PgvectorVectorStore.ListDocuments | vector_store/providers/pgvector_store.py:176-182 | strictly ascending, and a string is listed exactly when some row carries it |
| PgvectorStore.Open | vector_store/providers/pgvector_store.py:28-37 | fails exactly when no connection string resolves; otherwise the store uses the resolved one |
| PgvectorStore.DeleteRemovesExactly | vector_store/providers/pgvector_store.py:170 | a row survives exactly when its document id differs |
| PgvectorStore.UnknownIsListed | vector_store/providers/pgvector_store.py:104 | chunks added without an id are stored under "unknown", so that name is listed |
| MilvusStore.EntityId | vector_store/providers/milvus_store.py:136 | the id is the document id (or "doc"), an underscore, and the first 8 characters of the uuid's hex |
| MilvusStore.EntityMetadata | vector_store/providers/milvus_store.py:138 | the chunk's metadata with `content` added; every other key keeps its value |
| MilvusStore.NewEntities | vector_store/providers/milvus_store.py:132-138 | one entity per chunk, in chunk order, with its id, the id or "unknown" as `document_id`, and its metadata |
| MilvusStore.ParseAfterPrefix | vector_store/providers/milvus_store.py:193 | the expression selects whatever its quoted literal reads as |
| MilvusStore.QuotesRoundTrip | vector_store/providers/milvus_store.py:192 | for ids without a backslash, escaping only quotes reads back as the id |
| MilvusStore.DeleteExprSelectsId | vector_store/providers/milvus_store.py:192-194 | for ids without a backslash, the expression as written selects exactly that id |
| MilvusStore.TrailingBackslashBreaksDelete | vector_store/providers/milvus_store.py:192-193 | the id `a\` gives an expression whose literal does not close, so it selects nothing |
| MilvusStore.InnerBackslashSelectsOther | vector_store/providers/milvus_store.py:192-193 | the expression as written for the id `a\b` selects the document `ab` |
| MilvusStore.LiteralRoundTrip | vector_store/providers/milvus_store.py:192 | escaping backslashes as well as quotes reads back as the id, for every id |
| MilvusStore.CorrectedDeleteExprSelectsId | vector_store/providers/milvus_store.py:192-194 | the expression with both escapes selects exactly the id, for every id |
| MilvusStore.EscapingsAgree | vector_store/providers/milvus_store.py:192 | on ids without a backslash the corrected escaping is the written one |
| MilvusStore.MilvusVectorStore.Entities | vector_store/providers/milvus_store.py:80-103 | one entity per row of the parallel columns |
| MilvusStore.MilvusVectorStore.constructor | vector_store/providers/milvus_store.py:15-78 | the store over the existing collection, with columns of equal length |
| MilvusStore.MilvusVectorStore.AddChunks | vector_store/providers/milvus_store.py:123-151 | returns the chunk count; the columns grow by exactly the new entities; a truthy id is tracked after a non-empty insert; no chunks or a falsy id leaves the tracker file untouched |
| MilvusStore.MilvusVectorStore.Search | vector_store/providers/milvus_store.py:153-189 | the `top_k` hits of the first list, if any, filtered by similarity `1 - distance`, with the hit's metadata (or none) and its content; never more than `top_k` |
| MilvusStore.MilvusVectorStore.DeleteByDocumentId | vector_store/providers/milvus_store.py:191-196 | with the quote-only expression: when its literal reads back, the entities of the id it reads as go and the tracker forgets the id; when it does not, the call fails with nothing deleted and the tracker file untouched; an id without a backslash deletes exactly its own entities |
| MilvusStore.MilvusVectorStore.CorrectedDeleteByDocumentId | vector_store/providers/milvus_store.py:191-196 | with both characters escaped, exactly the entities of the document go, for every id, the others stay in order, and the tracker forgets the id |
| MilvusStore.MilvusVectorStore.DeleteMatching | vector_store/providers/milvus_store.py:194 | `collection.delete` of a selecting expression: exactly the entities with that document id go, the others stay in order |
| MilvusStore.MilvusVectorStore.ListDocuments | vector_store/base.py:47-49 | the inherited listing: strictly ascending, exactly the tracker's ids |
| MilvusStore.DeleteRemovesExactly | vector_store/providers/milvus_store.py:193-194 | an entity survives exactly when its document id differs |
| WeaviateStore.PageOrZero | vector_store/providers/weaviate_store.py:107 | a truthy `page` is kept; a missing or falsy one becomes 0 |
| WeaviateStore.Properties | vector_store/providers/weaviate_store.py:96-108 | exactly the four properties: the content, the id or "unknown", the source (or "") and the page (or 0) |
| WeaviateStore.NewObjects | vector_store/providers/weaviate_store.py:100-110 | one object per chunk, in chunk order, under its uuid |
| WeaviateStore.ResultMetadata | vector_store/providers/weaviate_store.py:146-150 | exactly `source`, `page` and `document_id`, each the property's value or null |
| WeaviateStore.SearchResultsShape | vector_store/providers/weaviate_store.py:137-153 | every result comes from a hit that reaches the threshold, has exactly the three keys and reports the hit's distance (1.0 when missing); every such hit gives a result |
| WeaviateStore.MissingDistanceIsZeroSimilarity | vector_store/providers/weaviate_store.py:138-139 | missing metadata or a missing distance is similarity 0 |
| WeaviateStore.UuidsOfStep | vector_store/providers/weaviate_store.py:165-166 | the deleted uuids grow by one per fetched object |
| WeaviateStore.DeleteStep | vector_store/providers/weaviate_store.py:165-166 | deleting one more uuid equals deleting the larger set at once |
| WeaviateStore.Fetched | vector_store/providers/weaviate_store.py:159-164 | never more than 10000 objects |
| WeaviateStore.WeaviateVectorStore.constructor | vector_store/providers/weaviate_store.py:19-49 | the store over the existing collection |
| WeaviateStore.WeaviateVectorStore.AddChunks | vector_store/providers/weaviate_store.py:88-114 | returns the chunk count; exactly the new objects are appended; a truthy id is tracked after a non-empty add; no chunks or a falsy id leaves the tracker file untouched |
| WeaviateStore.WeaviateVectorStore.Search | vector_store/providers/weaviate_store.py:116-154 | the threshold filter over the `top_k` objects answered, in their order; never more than `top_k` |
| WeaviateStore.WeaviateVectorStore.DeleteByDocumentId | vector_store/providers/weaviate_store.py:156-167 | exactly the fetched objects (the document's first 10000) go, the others stay in order; the id is always passed on to the tracker |
| WeaviateStore.WeaviateVectorStore.ListDocuments | vector_store/base.py:47-49 | the inherited listing: strictly ascending, exactly the tracker's ids |
| WeaviateStore.DeleteRemovesAllUpToLimit | vector_store/providers/weaviate_store.py:159-166 | a document with at most 10000 objects has none left after a delete |
| PineconeStore.ApiKey | vector_store/providers/pinecone_store.py:27-29 | the argument, else the configured key; the `ValueError` exactly when both are empty |
| PineconeStore.PineconeMetadata | vector_store/providers/pinecone_store.py:90-94 | the chunk's metadata plus `document_id` (the id or "unknown") and `content`; every other key keeps its value |
| PineconeStore.VectorIds | vector_store/providers/pinecone_store.py:84-85 | one id per chunk, built from the id (or "doc"), the chunk's position and its uuid prefix |
| PineconeStore.VectorMetadata | vector_store/providers/pinecone_store.py:84-96 | one metadata record per chunk, in chunk order |
| PineconeStore.VectorIdsDistinct | vector_store/providers/pinecone_store.py:85 | ids of two different positions differ, whatever uuids were drawn |
| PineconeStore.DigitsBeforeSeparator | vector_store/providers/pinecone_store.py:85 | the position can be read back from an id: equal ids have equal position numerals |
| PineconeStore.PineconeVectorStore.constructor | vector_store/providers/pinecone_store.py:15-69 | the store over the index with a non-empty key |
| PineconeStore.PineconeVectorStore.AddChunks | vector_store/providers/pinecone_store.py:74-102 | returns the chunk count; the index is the old one with each vector upserted in order; a truthy id is tracked after a non-empty upsert; no chunks or a falsy id leaves the tracker file untouched |
| PineconeStore.PineconeVectorStore.Search | vector_store/providers/pinecone_store.py:104-137 | the `top_k` matches (none when the answer has no matches) filtered by score, with distance `1 - score`; never more than `top_k` |
| PineconeStore.PineconeVectorStore.DeleteByDocumentId | vector_store/providers/pinecone_store.py:139-144 | exactly the vectors whose metadata names the document go; the id is always passed on to the tracker |
| PineconeStore.PineconeVectorStore.ListDocuments | vector_store/base.py:47-49 | the inherited listing: strictly ascending, exactly the tracker's ids |
| PineconeStore.Open | vector_store/providers/pinecone_store.py:26-29 | fails exactly when no key resolves, before the index is touched |
| PineconeStore.AddStoresEveryChunk | vector_store/providers/pinecone_store.py:84-98 | after an add every chunk's metadata is stored under its own id |
| ScoredHits.ResultOf | vector_store/providers/qdrant_store.py:118-123 | the result carries the payload (or `{}`) and distance `1 - score` |
| ScoredHits.ConvertHits | vector_store/providers/qdrant_store.py:113-125 | the loop skips hits under the threshold and converts the rest, in order |
| ScoredHits.ConvertedHits | vector_store/providers/pinecone_store.py:123-137 | every result comes from a hit scoring at least the threshold, so its distance is at most `1 - threshold`; every such hit gives a result |
| ScoredHits.MissingScoreIsZero | vector_store/providers/qdrant_store.py:115 | a hit without a score is kept exactly when the threshold is at most 0 |
| QdrantStore.Payloads | vector_store/providers/qdrant_store.py:77-88 | one payload per chunk, in chunk order |
| QdrantStore.QdrantVectorStore.constructor | vector_store/providers/qdrant_store.py:15-50 | the store over the existing collection |
| QdrantStore.QdrantVectorStore.AddChunks | vector_store/providers/qdrant_store.py:67-94 | returns the chunk count; the collection is the old one with each point upserted in order; a truthy id is tracked after a non-empty upsert; no chunks or a falsy id leaves the tracker file untouched |
| QdrantStore.QdrantVectorStore.Search | vector_store/providers/qdrant_store.py:96-125 | the `top_k` points answered, filtered by score, in order; never more than `top_k` |
| QdrantStore.QdrantVectorStore.DeleteByDocumentId | vector_store/providers/qdrant_store.py:127-141 | exactly the points whose payload names the document go; the id is always passed on to the tracker |
| QdrantStore.QdrantVectorStore.ListDocuments | vector_store/base.py:47-49 | the inherited listing: strictly ascending, exactly the tracker's ids |
| QdrantStore.AddStoresEveryChunk | vector_store/providers/qdrant_store.py:77-90 | with distinct point ids, every chunk's payload is stored under its own id |
| Maps.UpsertedStep | vector_store/providers/qdrant_store.py:90 | one more upserted point is one more map update |
| Maps.UpsertedContents | vector_store/providers/qdrant_store.py:90 | with distinct keys each key holds its own value, every old entry not overwritten is kept, and nothing else appears |
| Maps.Without | vector_store/providers/qdrant_store.py:128-140 | a filter delete keeps exactly the entries that do not match, with their values |
| Maps.WithoutIdempotent | vector_store/providers/pinecone_store.py:140-143 | deleting the same document twice removes nothing more |
| LegacyStore.LegacySearchFiltered | vector_store/store.py:105-121 | at most `top_k` results for `top_k >= 1` and at most one otherwise, each reaching the threshold; no passing candidate means no result, with no fallback |
| LegacyStore.LegacyNonPositiveTopKReturnsOne | vector_store/store.py:116-120 | as written, a `top_k` of 0 or less still returns exactly one result when some candidate passes |
| LegacyStore.BoundedLegacySearchSpecAtMostTopK | vector_store/store.py:105-121 | the corrected search returns at most `max(top_k, 0)` results, and the written results wherever `top_k >= 1` |
| LegacyStore.DocIdsStep | vector_store/store.py:134-136 | each metadata record with a `document_id` adds that id to the set |
| LegacyStore.LegacyVectorStore.constructor | vector_store/store.py:39-59 | the store over the persisted collection |
| LegacyStore.LegacyVectorStore.AddChunks | vector_store/store.py:64-85 | returns the chunk count and appends exactly the new entries, as the Chroma backend writes them |
| LegacyStore.LegacyVectorStore.Search | vector_store/store.py:87-121 | for every integer `top_k`, the candidates that reach the threshold, in backend order, up to the loop's early stop; never more than `top_k` when `top_k >= 1` |
| LegacyStore.LegacyVectorStore.DeleteByDocumentId | vector_store/store.py:123-129 | exactly the entries carrying the id go |
| LegacyStore.LegacyVectorStore.ListDocuments | vector_store/store.py:131-137 | strictly ascending, and an id is listed exactly when some stored metadata carries it |
| Chain.PageSuffix | rag/chain.py:50-51 | the " (page N)" suffix appears exactly when the page value is truthy |
| Chain.Blocks | rag/chain.py:47-52 | one block per result, numbered from 1, in result order |
| Chain.BuildContext | rag/chain.py:46-53 | the blocks of the results joined by the `---` separator, built by the numbering loop |
| Chain.JoinStartsWithFirst | rag/chain.py:53 | a join of a non-empty list starts with its first part |
| Chain.ContextEmptyIff | rag/chain.py:61-63 | the context is empty exactly when there are no results, and otherwise starts with the first result's block |
| Chain.Snippet | rag/chain.py:83 | nothing for no results; the first content when it has at most 500 characters; otherwise its first 500 characters and an ellipsis |
| Chain.StatusText | rag/chain.py:92 | "connection" exactly when the status is missing or 0 |
| Chain.Hint | rag/chain.py:85-90 | the key hint exactly for 401, the cloud-model hint exactly for 404, the network hint otherwise |
| Chain.Halves | rag/chain.py:91-101 | an answer built as lead plus tail splits back into them |
| Chain.FailureAnswerShape | rag/chain.py:84-101 | a failure answer is the cloud or local lead followed by the documents intro and the snippet |
| Chain.Sources | rag/chain.py:103-106 | one source per result, holding exactly its `source` and `page` (null when missing) |
| Chain.Contents | rag/chain.py:111 | one context chunk per result: its content |
| Chain.Query | rag/chain.py:55-112 | no results gives the fixed no-context answer with nothing else, and the model is not asked; otherwise the sources and chunks of the results, and the stripped generation or the failure answer with the snippet |
| Chain.QueryStream | rag/chain.py:114-139 | no results yields only the no-context line; otherwise each fragment carrying a response, in order, and the error line after them when the stream fails |
| Chain.StreamFragments | rag/chain.py:134-139 | never more fragments out than in; a text is yielded exactly when some fragment carries it; a failed stream ends with the error line after those fragments |
| Chunker.StartsShape | ingestion/chunker.py:40-54 | the loop visits the starts 0, then each `chunk_size - chunk_overlap` further on, all inside the text, and visits one more exactly when the next start is still inside |
| Chunker.StartsCover | ingestion/chunker.py:43-54 | every position lies in the first `chunk_size - chunk_overlap` characters of some visited window |
| Chunker.SliceOfSlice | ingestion/chunker.py:45-52 | a slice of the window `text[start:end]` is a slice of the text |
| Chunker.Window | ingestion/chunker.py:44-45 | a window never has more than `chunk_size` characters |
| Chunker.StripKeeps | ingestion/chunker.py:52 | stripping keeps every non-blank character, so a window holding one is not blank |
| Chunker.WindowKeeps | ingestion/chunker.py:44-52 | the stripped window around a non-blank character is a slice of the text around it |
| Chunker.WindowsLength | ingestion/chunker.py:43-54 | one window per visited start |
| Chunker.WindowsShape | ingestion/chunker.py:43-54 | the `i`-th window is the text cut at the `i`-th start |
| Chunker.Visit | ingestion/chunker.py:43-54 | one loop iteration: a blank window adds nothing, any other adds its stripped chunk, and the loop goes on exactly when the next start is inside the text |
| Chunker.StrippedChunk | ingestion/chunker.py:51-53 | every chunk is a stripped, non-blank window, no longer than it, with the document's metadata |
| Chunker.ChunksWellFormed | ingestion/chunker.py:34-56 | every chunk is non-empty, at most `chunk_size` long, has no space at either end, carries the metadata, and is the stripped window of a visited start |
| Chunker.CoveredBy | ingestion/chunker.py:45-53 | a window holding a non-blank character yields a chunk that is a slice of the text around that character |
| Chunker.NoTextLost | ingestion/chunker.py:43-54 | with a non-negative overlap every non-blank character lies in some chunk, and that chunk is a contiguous slice of the text |
| Chunker.ChunksEmptyIff | ingestion/chunker.py:36-54 | with a non-negative overlap there are no chunks exactly when the text is blank |
| Chunker.ChunkAllAppend | ingestion/chunker.py:26-32 | chunking documents distributes over concatenation, so chunks keep document order |
| Chunker.ChunkAllSources | ingestion/chunker.py:26-32 | every chunk comes from one document and carries its metadata, and every chunk of every document is there |
| Chunker.TextChunker.constructor | ingestion/chunker.py:18-24 | keeps the size and overlap |
| Chunker.TextChunker.ChunkText | ingestion/chunker.py:34-56 | the sliding-window loop returns exactly the stripped non-blank windows, in order, and nothing for a blank text |
| Chunker.TextChunker.ChunkDocuments | ingestion/chunker.py:26-32 | the chunks of every document in turn |
| Parsers.LastIndexOf | ingestion/parsers.py:50-51 | the last index holding the character, or none when it does not occur |
| Parsers.Suffix | ingestion/parsers.py:50-51 | empty, or a dot and at least one more character, with no further dot, ending the name and shorter than it |
| Parsers.SupportsDisjoint | ingestion/parsers.py:50-69 | no file is claimed by both parsers |
| Parsers.PdfSuffixCaseInsensitive | ingestion/parsers.py:50-51 | `.pdf`, `.PDF` and `.Pdf` all select the PDF parser |
| Parsers.PageChunk | ingestion/parsers.py:42-46 | the page's text, with exactly `source` (the file name) and `page` (1-based) |
| Parsers.PdfParse | ingestion/parsers.py:34-48 | the page loop returns exactly the chunks of the non-blank pages |
| Parsers.PdfDocumentsSound | ingestion/parsers.py:38-47 | every chunk is a non-blank page under its own 1-based number; never more chunks than pages |
| Parsers.PdfDocumentsOrdered | ingestion/parsers.py:38-47 | page numbers rise strictly along the chunks |
| Parsers.PdfDocumentsComplete | ingestion/parsers.py:38-47 | every non-blank page has its chunk |
| Parsers.MarkdownParse | ingestion/parsers.py:57-66 | exactly one chunk holding the whole text, with only `source` and no page |
| Pipeline.FirstSupporting | ingestion/pipeline.py:18-22 | a parser that is listed and supports the file, or none exactly when no listed parser supports it |
| Pipeline.ParserChoice | ingestion/pipeline.py:12-22 | with the two default parsers the order does not matter: PDF is chosen exactly for `.pdf` files and Markdown exactly for `.md` and `.markdown` files |
| Pipeline.ProcessFailsIffUnsupported | ingestion/pipeline.py:24-27 | processing fails exactly when neither parser supports the file, and the error names the file's suffix |
| Pipeline.ProcessMarkdown | ingestion/pipeline.py:24-30 | a Markdown file gives the chunks of its whole text, each with only its `source` |
| Pipeline.ProcessPdfPages | ingestion/pipeline.py:24-30 | a PDF gives the chunks of its non-blank pages, each carrying the file name and its own page number |
| Pipeline.IngestionPipeline.constructor | ingestion/pipeline.py:11-16 | the PDF parser then the Markdown parser, and a chunker with the given parameters |
| Pipeline.IngestionPipeline.GetParser | ingestion/pipeline.py:18-22 | the search loop returns the first listed parser that supports the file, or none |
| Pipeline.IngestionPipeline.ProcessFile | ingestion/pipeline.py:24-30 | the error for an unsupported file, else the chunks of what the chosen parser returns |
| Leads.NewLead | leads/store.py:43-49 | exactly the five fields: the drawn id, the stripped e-mail, name and company (a missing one as ""), and the creation time |
| Leads.AddAppendsAtMostOne | leads/store.py:34-52 | an add keeps every old record in order and appends at most one; it appends exactly when no record's e-mail matches ignoring case |
| Leads.AddTwiceSameId | leads/store.py:39-41 | adding the same clean e-mail again returns the first call's id and writes nothing |
| Leads.SpacedEmailNeverMatches | leads/store.py:39-45 | an e-mail given with leading whitespace never matches a stored (stripped) one, so each such add appends another record for the same address |
| Leads.Fields | leads/store.py:63-64 | one field per column, each `str(lead.get(column, ""))` |
| Leads.CsvLines | leads/store.py:64 | one line per lead, in order |
| Leads.CountAbsent | leads/store.py:64 | a string without the character counts none of it |
| Leads.JoinAvoids | leads/store.py:64 | joining parts that avoid a character with a separator that avoids it gives a line that avoids it |
| Leads.CsvLineCount | leads/store.py:58-65 | when no field holds a newline, the export has one newline for no leads and one per lead otherwise |
| Leads.LeadStore.constructor | leads/store.py:13-16 | the store over the file as it stands |
| Leads.LeadStore.Add | leads/store.py:34-52 | returns the first matching record's id and leaves the file alone, or appends the new record, saves, and returns the new id |
| Leads.LeadStore.GetAll | leads/store.py:54-56 | the stored list, or nothing for a missing or unreadable file |
| Leads.LeadStore.ExportCsv | leads/store.py:58-65 | just the header line for no leads; otherwise the header line followed by one line per lead |
| Strings.Strip | leads/store.py:45 | `str.strip` never lengthens a string |
| Strings.StripShape | leads/store.py:45-47 | `str.strip` removes exactly the leading and trailing whitespace: the rest is a slice of the input that neither starts nor ends with whitespace, and it is empty exactly when the input is all whitespace |
| Seqs.FirstIndex | leads/store.py:39 | `next(...)` over a generator: the first index whose element passes the test, with none passing before it, or none exactly when no element passes |
| Seqs.FilterMapEarlyStop | vector_store/providers/chroma_store.py:109-110 | when the loop breaks at `top_k` results, what it holds is the first `top_k` of the full filter |
| Strings.StripIsSlice | ingestion/chunker.py:52 | the stripped string is the slice right after the leading whitespace |
| Strings.StripIdempotent | leads/store.py:45 | stripping twice is stripping once |
| Strings.Lower | leads/store.py:39 | `str.lower` keeps the length and lowers each character on its own |
| Strings.JoinCount | rag/chain.py:53 | the separator character of a join occurs once between each pair of neighbours |
| Strings.ParseNatToString | vector_store/providers/faiss_store.py:93 | the `str(uid)` key of a FAISS record reads back as its id |
| Strings.NatToStringInjective | vector_store/providers/faiss_store.py:93 | no two ids share a key |
| Ordering.Insert | vector_store/document_tracker.py:32 | inserting into a strictly sorted list keeps it sorted and adds exactly the new element |
| Ordering.SortSet | vector_store/document_tracker.py:31-53 | `sorted(set)`: strictly ascending, exactly the set's elements, one each |
| Ordering.SortedUnique | vector_store/document_tracker.py:53 | two strictly sorted lists with the same elements are equal, so there is one listing per set |
| Ordering.LessTotal | vector_store/document_tracker.py:53 | any two distinct strings are ordered one way or the other |
| Ordering.LessTransitive | vector_store/document_tracker.py:53 | the string order is transitive |

## Left out

- File and network I/O: each file, collection, table or index is an abstract state that the methods reassign. JSON encoding and its `indent=2` layout, `mkdir` of parent directories, and the `read_text`/`write_text` calls are not modelled.
- Embedding functions, the native nearest-neighbour searches and the LLM client are code this model cannot see. Their answers are method parameters: candidate lists, hit rows, matches, the generation outcome and the stream fragments. The native `limit`/`top_k` cut is modelled as taking the first `top_k` rows of the answer.
- Floating point: scores, distances and thresholds are `real`. `float32` rounding and the FAISS L2 normalisation of vectors are not modelled.
- Randomness, hashing and time: `uuid4()`, `hash(content)` and `utcnow().isoformat()` are drawn values passed in as parameters.
- Configuration: `config.*` values are constructor parameters, for example `SIMILARITY_THRESHOLD` or the credentials in `Factory.FactoryConfig`. The defaults themselves are not restated. This includes the chunk size and overlap that `IngestionPipeline()` takes from `config` through `TextChunker()`.
- Backend constructors: the optional-import `ImportError` paths, client construction, and collection, index or schema creation are not modelled. This covers Qdrant's `_ensure_collection`, Pinecone's index creation, pgvector's `_ensure_schema`, Milvus's `_create_collection` and FAISS's `_load_or_create_index`. A constructor takes the store's existing content as a parameter.
- WeaviateStore.WeaviateVectorStore.constructor: `_connect` and `_ensure_collection` are not modelled. As written, `_connect` calls `urlparse` and `_ensure_collection` reads `self.wvc_config`, and neither name is defined in that module. The model starts from an already connected client.
- Logging, the `RAG_PROMPT` text, the generation options and `RAGChain.__init__`/`_ollama_client` are not modelled. The question enters only through the search results, which are parameters.
- Chain.QueryStream: an exception during streaming is modelled as the stream ending after the fragments it yielded (`FailAfter`). Where in the stream it was raised is not distinguished.
- Strings.Strip: the model strips ASCII whitespace only (space, tab, newline, carriage return, vertical tab, form feed). Python's `str.strip` also strips other Unicode whitespace.
- Strings.Lower: only ASCII letters are lowered. Python's `str.lower` also folds other Unicode letters.
- Ordering.SortSet: strings are ordered by code point, as Python compares `str`.
- ChromaStore.ChromaVectorStore.Search: with `top_k <= 0` and no truthy threshold the native query is asked for `n_results = top_k`. Whether Chroma raises there cannot be seen; the model takes whatever answer it is given.
- LegacyStore.LegacyVectorStore.Search: the same native query for `top_k <= 0` without a truthy threshold.
- FaissStore.FaissVectorStore.Search: requires `top_k >= 1`. The source hands smaller values straight to the native `index.search`, whose behaviour there cannot be seen.
- PgvectorStore.PgvectorVectorStore.Search: requires `top_k >= 1`. The source hands smaller values straight to the SQL `LIMIT`, whose behaviour there cannot be seen.
- MilvusStore.MilvusVectorStore.Search: requires `top_k >= 1`. The source hands smaller values straight to the native search `limit`, whose behaviour there cannot be seen.
- WeaviateStore.WeaviateVectorStore.Search: requires `top_k >= 1`. The source hands smaller values straight to the native query `limit`, whose behaviour there cannot be seen.
- PineconeStore.PineconeVectorStore.Search: requires `top_k >= 1`. The source hands smaller values straight to the native query `top_k`, whose behaviour there cannot be seen.
- QdrantStore.QdrantVectorStore.Search: requires `top_k >= 1`. The source hands smaller values straight to the native search `limit`, whose behaviour there cannot be seen.
- PgvectorStore.PgvectorVectorStore.ListDocuments: the list is in code-point order. PostgreSQL's `ORDER BY document_id` uses the database collation, which may differ.
- PgvectorStore.PgvectorVectorStore.Search: stored metadata is already a record. The `json.loads` of a metadata string is not modelled.
- MilvusStore.MilvusVectorStore.DeleteByDocumentId: Milvus's reading of the filter expression is modelled by `ReadLiteral`, with `\c` standing for `c` and a closing quote. An expression whose literal does not read back is taken to make `collection.delete` raise, so `flush` and `_track_remove` never run; what Milvus actually does with it cannot be seen.
- Chunker.TextChunker.ChunkText: requires `0 <= chunk_size` and `chunk_overlap < chunk_size`.
  - When the overlap is at least the size, the source's loop never advances and does not terminate.
  - Negative sizes are not modelled.
- Chunker.TextChunker.ChunkDocuments: the same requirement as `ChunkText`.
- Pipeline.IngestionPipeline.ProcessFile: the same chunker requirement. The parsers are the two defaults. The file's pages or text are inputs rather than reads.
- LegacyStore.LegacyVectorStore.constructor: stored `document_id` values are required to be strings, as `add_chunks` writes them. A foreign non-string value is not modelled.
- Leads.LeadStore.constructor: stored records are required to have the shape `add` writes them with: a string `id`, and a string `email` when one is present. A foreign record without an `id` would make `existing["id"]` raise, and that is not modelled. Neither is a file whose JSON is not a list.
- DocumentTracker.Decode: list items are strings. The `str(item)` conversion of non-string JSON items is not modelled.
- Paths: a `FilePath` carries `str(path)` and `path.name` directly. `pathlib`'s normalisation is not modelled.
- ChromaStore.ChromaVectorStore.AddChunks: the ids `chunk_{i}_{hash % 10**8}` repeat whenever a later add has equal content at the same position, as when the same file is uploaded twice. What Chroma does with an id it already holds cannot be seen. The model appends every new entry, so it can hold two entries under one id.
- LegacyStore.LegacyVectorStore.AddChunks: the same repeated ids as the Chroma backend, with the same consequence.
- Factory.CreateTracked: the backend object itself is not built, since its constructor needs the store's existing content. Every backend constructor takes the tracker as `Some(tracker)` and ensures that `base.tracker` is that tracker.
- WeaviateStore.Fetched: the objects come in insertion order. Which 10000 objects `fetch_objects` returns, and in what order, is decided natively.
- FaissStore.LoadMetadata: the metadata file's keys are the decimal ids themselves. A foreign key such as "007", which `int(k)` reads but `pop(str(idx))` would miss, and non-dict values are not modelled.
- Concurrency: two processes writing the same tracker, leads or FAISS file are not modelled.

## Findings

| source | as written | input that shows it | evidently intended | confidence | as-written member | corrected member |
|---|---|---|---|---|---|---|
| vector_store/providers/milvus_store.py:192-193 | the delete expression escapes single quotes but not backslashes | document id `a\`: the literal ends in an escaped quote and never closes, so `collection.delete` gets an expression it cannot read and `_track_remove` is not reached; document id `a\b` selects the entities of document `ab` | backslashes escaped as well, so every id selects exactly its own entities | medium, not executed (it depends on Milvus reading `\` as an escape, as `ReadLiteral` models) | MilvusStore.MilvusVectorStore.DeleteByDocumentId | MilvusStore.MilvusVectorStore.CorrectedDeleteByDocumentId |
| vector_store/providers/chroma_store.py:106-110 | the early stop `len(search_results) >= top_k` is tested after an append | `top_k = 0` with threshold 0.5 and one candidate at distance 0: one result comes back | never more than `max(top_k, 0)` results | low, not executed (`top_k` reaches the search unchecked from the API) | ChromaStore.NonPositiveTopKReturnsOne | ChromaStore.BoundedSearchSpecAtMostTopK |
| vector_store/store.py:116-120 | the same early-stop test after an append | `top_k = 0` with one passing candidate: one result comes back | never more than `max(top_k, 0)` results | low, not executed | LegacyStore.LegacyNonPositiveTopKReturnsOne | LegacyStore.BoundedLegacySearchSpecAtMostTopK |

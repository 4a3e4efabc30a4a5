/** The ingestion pipeline of ingestion/pipeline.py: pick the first parser
    that supports the file, parse it, and chunk what it returns. What a
    parser would read from the file is an input: the per-page texts for a
    PDF, the decoded text for Markdown. */
module Pipeline {
  import opened Wrappers
  import opened Strings
  import opened Values
  import opened Parsers
  import opened Chunker

  datatype ParserKind = Pdf | Markdown

  /** The parser list `[PDFParser(), MarkdownParser()]`. */
  const DefaultParsers: seq<ParserKind> := [Pdf, Markdown]

  /** The message of the `ValueError` for an unsupported file, before the
      suffix. */
  const UnsupportedFormat: string := "Unsupported file format: "

  /** `parser.supports(path)`. */
  predicate Supports(p: ParserKind, path: FilePath) {
    match p
    case Pdf => PdfSupports(path)
    case Markdown => MarkdownSupports(path)
  }

  /** `parser.parse(path)`, given what the parser reads from the file. */
  function Parse(p: ParserKind, path: FilePath, pages: seq<string>, text: string): seq<DocumentChunk> {
    match p
    case Pdf => PdfDocuments(path, pages)
    case Markdown => MarkdownParse(path, text)
  }

  /** The first parser of `ps` that supports the file, if any. */
  function FirstSupporting(ps: seq<ParserKind>, path: FilePath): (r: Option<ParserKind>)
    ensures r.Some? ==> r.value in ps && Supports(r.value, path)
    ensures r.None? <==> forall i :: 0 <= i < |ps| ==> !Supports(ps[i], path)
  {
    if ps == [] then None
    else if Supports(ps[0], path) then Some(ps[0])
    else FirstSupporting(ps[1..], path)
  }

  /** The suffix tests are disjoint, so the choice does not depend on the
      order of the list: the PDF parser is chosen exactly for `.pdf` files,
      the Markdown parser exactly for `.md` and `.markdown` files. */
  lemma ParserChoice(path: FilePath)
    ensures FirstSupporting(DefaultParsers, path) == FirstSupporting([Markdown, Pdf], path)
    ensures FirstSupporting(DefaultParsers, path) == Some(Pdf) <==> PdfSupports(path)
    ensures FirstSupporting(DefaultParsers, path) == Some(Markdown) <==> MarkdownSupports(path)
  {
    SupportsDisjoint(path);
    assert DefaultParsers[1..] == [Markdown];
    assert [Markdown, Pdf][1..] == [Pdf];
  }

  /** What `process_file` does for the file: the `ValueError` naming the
      suffix when no parser supports it, else the chunks of what the chosen
      parser returns. */
  function Process(path: FilePath, pages: seq<string>, text: string, size: nat, overlap: int): Result<seq<TextChunk>>
    requires overlap < size
  {
    match FirstSupporting(DefaultParsers, path)
    case None => Failure(UnsupportedFormat + Suffix(path.name))
    case Some(p) => Success(ChunkAll(Parse(p, path, pages, text), size, overlap))
  }

  /** An unsupported file fails, with its suffix in the message, and nothing
      is parsed; a supported one never fails. */
  lemma ProcessFailsIffUnsupported(path: FilePath, pages: seq<string>, text: string, size: nat, overlap: int)
    requires overlap < size
    ensures Process(path, pages, text, size, overlap).Failure? <==> !PdfSupports(path) && !MarkdownSupports(path)
    ensures Process(path, pages, text, size, overlap).Failure? ==>
      Process(path, pages, text, size, overlap).error == UnsupportedFormat + Suffix(path.name)
  {
    ParserChoice(path);
  }

  /** A Markdown file gives the chunks of its whole text, each carrying only
      the file name as source. */
  lemma ProcessMarkdown(path: FilePath, pages: seq<string>, text: string, size: nat, overlap: int)
    requires overlap < size && MarkdownSupports(path)
    ensures Process(path, pages, text, size, overlap) == Success(Chunks(text, size, overlap, map["source" := Str(path.name)]))
    ensures forall c :: c in Process(path, pages, text, size, overlap).value ==> c.metadata == map["source" := Str(path.name)]
  {
    ParserChoice(path);
    var docs := MarkdownParse(path, text);
    var f := DocumentChunks(size, overlap);
    Seqs.FlatMapStep(docs, 0, f);
    assert docs[..1] == docs;
    assert docs[..0] == [];
    assert Seqs.FlatMap(docs[..0], f) == [];
    assert f(docs[0]) == Chunks(text, size, overlap, map["source" := Str(path.name)]);
    assert ChunkAll(docs, size, overlap) == Chunks(text, size, overlap, map["source" := Str(path.name)]);
    ChunksWellFormed(text, size, overlap, map["source" := Str(path.name)]);
  }

  /** Every chunk of a PDF carries the file name and the 1-based number of a
      page that exists. */
  lemma ProcessPdfPages(path: FilePath, pages: seq<string>, text: string, size: nat, overlap: int)
    requires overlap < size && PdfSupports(path)
    ensures Process(path, pages, text, size, overlap) == Success(ChunkAll(PdfDocuments(path, pages), size, overlap))
    ensures forall c :: c in Process(path, pages, text, size, overlap).value ==>
      c.metadata.Keys == {"source", "page"} && c.metadata["source"] == Str(path.name) &&
      exists n :: 1 <= n <= |pages| && c.metadata["page"] == Int(n)
  {
    ParserChoice(path);
    var docs := PdfDocuments(path, pages);
    ChunkAllSources(docs, size, overlap);
    PdfDocumentsSound(path, pages);
    forall c | c in ChunkAll(docs, size, overlap)
      ensures c.metadata.Keys == {"source", "page"} && c.metadata["source"] == Str(path.name) &&
        exists n :: 1 <= n <= |pages| && c.metadata["page"] == Int(n)
    {
      var i :| 0 <= i < |docs| && c in Chunks(docs[i].content, size, overlap, docs[i].metadata) && c.metadata == docs[i].metadata;
      assert docs[i] in docs;
      var n := docs[i].page.value;
      assert c.metadata["page"] == Int(n);
    }
  }

  class IngestionPipeline {
    const parsers: seq<ParserKind>
    const chunker: TextChunker

    /** The pipeline with both parsers and a chunker of the given size and
        overlap. */
    constructor (chunkSize: int, chunkOverlap: int)
      ensures parsers == DefaultParsers
      ensures chunker.chunkSize == chunkSize && chunker.chunkOverlap == chunkOverlap
    {
      parsers := DefaultParsers;
      chunker := new TextChunker(chunkSize, chunkOverlap);
    }

    /** `_get_parser`: the first parser in list order whose `supports` holds. */
    method GetParser(path: FilePath) returns (p: Option<ParserKind>)
      ensures p == FirstSupporting(parsers, path)
    {
      var i := 0;
      while i < |parsers|
        invariant 0 <= i <= |parsers|
        invariant FirstSupporting(parsers[i..], path) == FirstSupporting(parsers, path)
      {
        if Supports(parsers[i], path) {
          return Some(parsers[i]);
        }
        assert parsers[i..][1..] == parsers[i + 1..];
        i := i + 1;
      }
      return None;
    }

    /** `process_file`: the `ValueError` for an unsupported file, else the
        chunks of the parsed documents. */
    method ProcessFile(path: FilePath, pages: seq<string>, text: string) returns (r: Result<seq<TextChunk>>)
      requires parsers == DefaultParsers
      requires 0 <= chunker.chunkSize && chunker.chunkOverlap < chunker.chunkSize
      ensures r == Process(path, pages, text, chunker.chunkSize, chunker.chunkOverlap)
    {
      var parser := GetParser(path);
      if parser.None? {
        return Failure(UnsupportedFormat + Suffix(path.name));
      }
      var documents: seq<DocumentChunk>;
      if parser.value == Pdf {
        documents := PdfParse(path, pages);
      } else {
        documents := MarkdownParse(path, text);
      }
      var chunks := chunker.ChunkDocuments(documents);
      return Success(chunks);
    }
  }
}

/** The document parsers of ingestion/parsers.py. A file is a path; what a
    parser would read from it (the texts the PDF reader extracts per page,
    the decoded Markdown text) is an input. */
module Parsers {
  import opened Wrappers
  import opened Strings
  import opened Values

  /** A file path: its full text (`str(path)`) and its final component
      (`path.name`). */
  datatype FilePath = FilePath(full: string, name: string)

  /** `DocumentChunk`: raw page or file content with its metadata. */
  datatype DocumentChunk = DocumentChunk(content: string, metadata: Meta, source: string, page: Option<nat>)

  /** `str.rfind`: the last index of `c` in `s`, or `None`. */
  function LastIndexOf(s: string, c: char): (r: Option<nat>)
    ensures r.Some? ==> r.value < |s| && s[r.value] == c && forall k :: r.value < k < |s| ==> s[k] != c
    ensures r.None? ==> forall k :: 0 <= k < |s| ==> s[k] != c
  {
    if s == [] then None
    else if s[|s| - 1] == c then Some(|s| - 1)
    else LastIndexOf(s[..|s| - 1], c)
  }

  /** `PurePath.suffix`: from the last dot of the name, unless that dot opens
      or ends the name. */
  function Suffix(name: string): (r: string)
    ensures r == [] || (r[0] == '.' && |r| >= 2 && |r| < |name| && r == name[|name| - |r|..])
    ensures r != [] ==> forall k :: 1 <= k < |r| ==> r[k] != '.'
  {
    var i := LastIndexOf(name, '.');
    if i.Some? && 0 < i.value < |name| - 1 then name[i.value..] else ""
  }

  /** `PDFParser.supports`. */
  predicate PdfSupports(path: FilePath) {
    Lower(Suffix(path.name)) == ".pdf"
  }

  /** `MarkdownParser.supports`. */
  predicate MarkdownSupports(path: FilePath) {
    Lower(Suffix(path.name)) in {".md", ".markdown"}
  }

  /** No file is claimed by both parsers. */
  lemma SupportsDisjoint(path: FilePath)
    ensures !(PdfSupports(path) && MarkdownSupports(path))
  {
    var l := Lower(Suffix(path.name));
    if PdfSupports(path) {
      assert l[1] == 'p';
    }
  }

  /** The suffix test ignores case: `.PDF`, `.Pdf` and `.pdf` all select the
      PDF parser. */
  lemma PdfSuffixCaseInsensitive(name: string, full: string)
    requires |name| >= 5 && name[|name| - 4..] in {".pdf", ".PDF", ".Pdf"} && name[0] != '.'
    requires forall k :: 0 <= k < |name| - 4 ==> name[k] != '.'
    ensures PdfSupports(FilePath(full, name))
  {
    var i := LastIndexOf(name, '.');
    assert name[|name| - 4] == '.';
    assert i == Some(|name| - 4);
    assert Suffix(name) == name[|name| - 4..];
  }

  /** The `DocumentChunk` of page `page` (1-based) of a PDF. */
  function PageChunk(path: FilePath, text: string, page: nat): (c: DocumentChunk)
    ensures c.metadata.Keys == {"source", "page"} && c.metadata["source"] == Str(path.name) && c.metadata["page"] == Int(page)
    ensures c.content == text && c.source == path.full && c.page == Some(page)
  {
    DocumentChunk(text, map["source" := Str(path.name), "page" := Int(page)], path.full, Some(page))
  }

  /** What `PDFParser.parse` returns for the extracted page texts. */
  function PdfDocuments(path: FilePath, pages: seq<string>): seq<DocumentChunk> {
    if pages == [] then []
    else
      var last := pages[|pages| - 1];
      PdfDocuments(path, pages[..|pages| - 1]) + (if HasText(last) then [PageChunk(path, last, |pages|)] else [])
  }

  /** `PDFParser.parse`: one chunk per page with non-blank text. */
  method PdfParse(path: FilePath, pages: seq<string>) returns (chunks: seq<DocumentChunk>)
    ensures chunks == PdfDocuments(path, pages)
  {
    chunks := [];
    var i := 0;
    while i < |pages|
      invariant 0 <= i <= |pages|
      invariant chunks == PdfDocuments(path, pages[..i])
    {
      assert pages[..i + 1][..i] == pages[..i];
      var text := pages[i];
      StripShape(text);
      if Strip(text) != [] {
        chunks := chunks + [DocumentChunk(text, map["source" := Str(path.name), "page" := Int(i + 1)], path.full, Some(i + 1))];
      }
      i := i + 1;
    }
    assert pages[..i] == pages;
  }

  /** Each chunk is a non-blank page under its 1-based number, and there
      are no more chunks than pages. */
  lemma {:induction false} PdfDocumentsSound(path: FilePath, pages: seq<string>)
    ensures forall c :: c in PdfDocuments(path, pages) ==>
      c.page.Some? && 1 <= c.page.value <= |pages| && c == PageChunk(path, pages[c.page.value - 1], c.page.value) &&
      HasText(c.content)
    ensures |PdfDocuments(path, pages)| <= |pages|
  {
    if pages != [] {
      var init := pages[..|pages| - 1];
      PdfDocumentsSound(path, init);
      assert forall k :: 0 <= k < |init| ==> init[k] == pages[k];
    }
  }

  /** The page numbers of the chunks rise strictly: page order is kept. */
  lemma {:induction false} PdfDocumentsOrdered(path: FilePath, pages: seq<string>)
    ensures forall i, j :: 0 <= i < j < |PdfDocuments(path, pages)| ==>
      PdfDocuments(path, pages)[i].page.Some? && PdfDocuments(path, pages)[j].page.Some? &&
      PdfDocuments(path, pages)[i].page.value < PdfDocuments(path, pages)[j].page.value
  {
    if pages != [] {
      var init := pages[..|pages| - 1];
      PdfDocumentsOrdered(path, init);
      PdfDocumentsSound(path, init);
      var d := PdfDocuments(path, init);
      var last := pages[|pages| - 1];
      var all := PdfDocuments(path, pages);
      assert all == d + (if HasText(last) then [PageChunk(path, last, |pages|)] else []);
      forall i, j | 0 <= i < j < |all|
        ensures all[i].page.Some? && all[j].page.Some? && all[i].page.value < all[j].page.value
      {
        assert all[i] == d[i] && d[i] in d;
        if j == |d| {
          assert all[j].page == Some(|pages|);
        } else {
          assert all[j] == d[j];
        }
      }
    } else {
      assert PdfDocuments(path, pages) == [];
    }
  }

  /** Every non-blank page has its chunk. */
  lemma {:induction false} PdfDocumentsComplete(path: FilePath, pages: seq<string>)
    ensures forall k :: 0 <= k < |pages| && HasText(pages[k]) ==> PageChunk(path, pages[k], k + 1) in PdfDocuments(path, pages)
  {
    if pages != [] {
      var init := pages[..|pages| - 1];
      PdfDocumentsComplete(path, init);
      assert forall k :: 0 <= k < |init| ==> init[k] == pages[k];
    }
  }

  /** `MarkdownParser.parse`: the whole text as one chunk without a page,
      whatever the text (an empty file included). */
  function MarkdownParse(path: FilePath, text: string): (r: seq<DocumentChunk>)
    ensures |r| == 1 && r[0].content == text && r[0].page.None? && r[0].source == path.full
    ensures r[0].metadata.Keys == {"source"} && r[0].metadata["source"] == Str(path.name)
  {
    [DocumentChunk(text, map["source" := Str(path.name)], path.full, None)]
  }
}

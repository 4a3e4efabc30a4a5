/** The sliding-window chunker of ingestion/chunker.py. */
module Chunker {
  import opened Wrappers
  import opened Strings
  import opened Seqs
  import opened Values
  import opened Parsers

  function Min(a: int, b: int): int {
    if a <= b then a else b
  }

  /** The window starts the loop visits: `a`, then each time `chunk_size -
      chunk_overlap` further on, while below `n`. */
  function StartsFrom(n: nat, size: nat, overlap: int, a: nat): seq<nat>
    requires overlap < size
    decreases n - a
  {
    if a >= n then [] else [a] + StartsFrom(n, size, overlap, a + size - overlap)
  }

  /** Windows start at `a` and each starts `chunk_size - chunk_overlap`
      after the previous one, all below `n`. */
  lemma {:induction false} StartsShape(n: nat, size: nat, overlap: int, a: nat)
    requires overlap < size
    ensures a < n ==> |StartsFrom(n, size, overlap, a)| >= 1 && StartsFrom(n, size, overlap, a)[0] == a
    ensures a >= n ==> StartsFrom(n, size, overlap, a) == []
    ensures forall i :: 0 <= i < |StartsFrom(n, size, overlap, a)| ==> a <= StartsFrom(n, size, overlap, a)[i] < n
    ensures forall i :: 0 <= i < |StartsFrom(n, size, overlap, a)| - 1 ==>
      StartsFrom(n, size, overlap, a)[i + 1] == StartsFrom(n, size, overlap, a)[i] + size - overlap
    ensures forall i :: 0 <= i < |StartsFrom(n, size, overlap, a)| && StartsFrom(n, size, overlap, a)[i] + size - overlap < n ==>
      i + 1 < |StartsFrom(n, size, overlap, a)|
    decreases n - a
  {
    if a < n {
      var next := a + size - overlap;
      StartsShape(n, size, overlap, next);
      assert StartsFrom(n, size, overlap, a) == [a] + StartsFrom(n, size, overlap, next);
    }
  }

  /** Every position at or after `a` lies in the first `chunk_size -
      chunk_overlap` characters of some visited window. */
  lemma {:induction false} StartsCover(n: nat, size: nat, overlap: int, a: nat, p: nat)
    requires overlap < size && a <= p < n
    ensures exists s :: s in StartsFrom(n, size, overlap, a) && s <= p < s + size - overlap
    decreases n - a
  {
    var next := a + size - overlap;
    assert StartsFrom(n, size, overlap, a) == [a] + StartsFrom(n, size, overlap, next);
    if p >= next {
      StartsCover(n, size, overlap, next, p);
      var s :| s in StartsFrom(n, size, overlap, next) && s <= p < s + size - overlap;
      assert s in StartsFrom(n, size, overlap, a);
    } else {
      assert a in StartsFrom(n, size, overlap, a);
    }
  }

  /** A slice of the slice `text[s..e]` is a slice of `text`. */
  lemma SliceOfSlice(text: string, w: string, s: nat, e: nat, lead: nat, r: string)
    requires s <= e <= |text| && w == text[s..e] && lead + |r| <= |w| && r == w[lead..lead + |r|]
    ensures r == text[s + lead..s + lead + |r|]
  {
    assert forall k :: 0 <= k < |r| ==> r[k] == text[s + lead + k];
  }

  /** `text[start:start + chunk_size]`. */
  function Window(text: string, size: nat, s: nat): (w: string)
    requires s < |text|
    ensures |w| <= size
  {
    text[s..Min(s + size, |text|)]
  }

  /** Stripping keeps every non-blank character. */
  lemma StripKeeps(w: string, q: nat)
    requires q < |w| && !IsSpace(w[q])
    ensures Strip(w) != []
    ensures LeadingSpaces(w) <= q < LeadingSpaces(w) + |Strip(w)|
  {
    StripShape(w);
    LeadingSpacesShape(w);
  }

  /** A window holding a non-blank character at `p` yields a chunk that is a
      slice of the text around `p`. */
  lemma WindowKeeps(text: string, size: nat, s: nat, p: nat) returns (a: nat, b: nat)
    requires s <= p < Min(s + size, |text|) && !IsSpace(text[p])
    ensures a <= p < b <= |text| && Strip(Window(text, size, s)) == text[a..b]
  {
    var w := Window(text, size, s);
    var e := Min(s + size, |text|);
    assert w[p - s] == text[p];
    StripKeeps(w, p - s);
    StripIsSlice(w);
    var r := Strip(w);
    var lead := LeadingSpaces(w);
    SliceOfSlice(text, w, s, e, lead, r);
    a, b := s + lead, s + lead + |r|;
  }

  /** The windows the loop cuts, from `a` on: `text[a:a + chunk_size]`,
      then each time `chunk_size - chunk_overlap` further on. */
  function Windows(text: string, size: nat, overlap: int, a: nat): seq<string>
    requires overlap < size
    decreases |text| - a
  {
    if a >= |text| then [] else [Window(text, size, a)] + Windows(text, size, overlap, a + size - overlap)
  }

  /** One window per visited start. */
  lemma {:induction false} WindowsLength(text: string, size: nat, overlap: int, a: nat)
    requires overlap < size
    ensures |Windows(text, size, overlap, a)| == |StartsFrom(|text|, size, overlap, a)|
    decreases |text| - a
  {
    if a < |text| {
      WindowsLength(text, size, overlap, a + size - overlap);
    }
  }

  /** The `i`-th window is the one at the `i`-th visited start. */
  lemma {:induction false} WindowsShape(text: string, size: nat, overlap: int, a: nat)
    requires overlap < size
    ensures |Windows(text, size, overlap, a)| == |StartsFrom(|text|, size, overlap, a)|
    ensures forall i :: 0 <= i < |Windows(text, size, overlap, a)| ==>
      StartsFrom(|text|, size, overlap, a)[i] < |text| &&
      Windows(text, size, overlap, a)[i] == Window(text, size, StartsFrom(|text|, size, overlap, a)[i])
    decreases |text| - a
  {
    if a < |text| {
      var next := a + size - overlap;
      WindowsShape(text, size, overlap, next);
      var w := Windows(text, size, overlap, next);
      var st := StartsFrom(|text|, size, overlap, next);
      assert Windows(text, size, overlap, a) == [Window(text, size, a)] + w;
      assert StartsFrom(|text|, size, overlap, a) == [a] + st;
    }
  }

  /** `chunk_content.strip()` as a chunk, unless it is empty. */
  function StripChunk(metadata: Meta): string -> Option<TextChunk> {
    (w: string) => if Strip(w) == [] then None else Some(TextChunk(Strip(w), metadata))
  }

  /** What `_chunk_text` returns: nothing for a blank text, else the
      non-blank stripped windows in order. */
  function Chunks(text: string, size: nat, overlap: int, metadata: Meta): seq<TextChunk>
    requires overlap < size
  {
    if Strip(text) == [] then [] else FilterMap(Windows(text, size, overlap, 0), StripChunk(metadata))
  }

  /** The `k`-th visit of the loop: the window it cuts adds its chunk, if
      any, to the chunks of the earlier windows; another visit follows
      exactly when the next start is still inside the text. */
  lemma Visit(text: string, size: nat, overlap: int, metadata: Meta, k: nat, done: seq<TextChunk>, content: string)
    requires overlap < size && k < |StartsFrom(|text|, size, overlap, 0)|
    requires var s := StartsFrom(|text|, size, overlap, 0)[k];
      s < |text| && content == text[s..Min(s + size, |text|)]
    requires |Windows(text, size, overlap, 0)| == |StartsFrom(|text|, size, overlap, 0)|
    requires done == FilterMap(Windows(text, size, overlap, 0)[..k], StripChunk(metadata))
    ensures Strip(content) == [] ==>
      FilterMap(Windows(text, size, overlap, 0)[..k + 1], StripChunk(metadata)) == done
    ensures Strip(content) != [] ==>
      FilterMap(Windows(text, size, overlap, 0)[..k + 1], StripChunk(metadata)) == done + [TextChunk(Strip(content), metadata)]
    ensures var st := StartsFrom(|text|, size, overlap, 0);
      (st[k] + size - overlap < |text| <==> k + 1 < |st|) &&
      (k + 1 < |st| ==> st[k + 1] == st[k] + size - overlap)
  {
    var ws := Windows(text, size, overlap, 0);
    WindowsShape(text, size, overlap, 0);
    StartsShape(|text|, size, overlap, 0);
    assert content == ws[k];
    FilterMapStep(ws, k, StripChunk(metadata));
  }

  /** A chunk of stripped windows is the stripped text of one of them, with
      no whitespace at either end. */
  lemma StrippedChunk(ws: seq<string>, metadata: Meta, c: TextChunk)
    requires c in FilterMap(ws, StripChunk(metadata))
    ensures exists i :: 0 <= i < |ws| && c.content == Strip(ws[i]) && |c.content| <= |ws[i]|
    ensures 1 <= |c.content| && !IsSpace(c.content[0]) && !IsSpace(c.content[|c.content| - 1])
    ensures c.metadata == metadata
  {
    var f := StripChunk(metadata);
    FilterMapSound(ws, f, c);
    var i :| 0 <= i < |ws| && f(ws[i]) == Some(c);
    StripShape(ws[i]);
  }

  /** Every chunk is the stripped text of one visited window: non-empty, no
      longer than `chunk_size`, without surrounding whitespace, carrying the
      document's metadata. */
  lemma ChunksWellFormed(text: string, size: nat, overlap: int, metadata: Meta)
    requires overlap < size
    ensures forall c :: c in Chunks(text, size, overlap, metadata) ==>
      1 <= |c.content| <= size && !IsSpace(c.content[0]) && !IsSpace(c.content[|c.content| - 1]) &&
      c.metadata == metadata &&
      exists s :: s in StartsFrom(|text|, size, overlap, 0) && s < |text| && c.content == Strip(Window(text, size, s))
  {
    var ws := Windows(text, size, overlap, 0);
    var st := StartsFrom(|text|, size, overlap, 0);
    WindowsShape(text, size, overlap, 0);
    forall c | c in Chunks(text, size, overlap, metadata)
      ensures 1 <= |c.content| <= size && !IsSpace(c.content[0]) && !IsSpace(c.content[|c.content| - 1]) &&
        c.metadata == metadata &&
        exists s :: s in st && s < |text| && c.content == Strip(Window(text, size, s))
    {
      StrippedChunk(ws, metadata, c);
      var i :| 0 <= i < |ws| && c.content == Strip(ws[i]) && |c.content| <= |ws[i]|;
      assert st[i] in st;
    }
  }

  /** A window from `s` among `ws` that holds the non-blank character at
      `p` yields a chunk that is a slice of the text around `p`. */
  lemma CoveredBy(text: string, size: nat, metadata: Meta, ws: seq<string>, i: nat, s: nat, p: nat)
    requires i < |ws| && s <= p < Min(s + size, |text|) && ws[i] == Window(text, size, s) && !IsSpace(text[p])
    ensures exists c, a: nat, b: nat ::
      c in FilterMap(ws, StripChunk(metadata)) && a <= p < b <= |text| && c.content == text[a..b]
  {
    var f := StripChunk(metadata);
    var a, b := WindowKeeps(text, size, s, p);
    var c := TextChunk(Strip(ws[i]), metadata);
    assert f(ws[i]) == Some(c);
    FilterMapComplete(ws, f, i);
    assert c in FilterMap(ws, f) && a <= p < b <= |text| && c.content == text[a..b];
  }

  /** With a non-negative overlap no text is lost: every non-blank character
      lies inside some chunk, which is a contiguous slice of the text. */
  lemma NoTextLost(text: string, size: nat, overlap: int, metadata: Meta, p: nat)
    requires 0 <= overlap < size && p < |text| && !IsSpace(text[p])
    ensures exists c, a: nat, b: nat ::
      c in Chunks(text, size, overlap, metadata) && a <= p < b <= |text| && c.content == text[a..b]
  {
    StripKeeps(text, p);
    var st := StartsFrom(|text|, size, overlap, 0);
    StartsCover(|text|, size, overlap, 0, p);
    var s :| s in st && s <= p < s + size - overlap;
    var i :| 0 <= i < |st| && st[i] == s;
    WindowsShape(text, size, overlap, 0);
    CoveredBy(text, size, metadata, Windows(text, size, overlap, 0), i, s, p);
  }

  /** A blank text gives no chunk; any other gives at least one when the
      overlap is non-negative. */
  lemma ChunksEmptyIff(text: string, size: nat, overlap: int, metadata: Meta)
    requires 0 <= overlap < size
    ensures Chunks(text, size, overlap, metadata) == [] <==> AllSpace(text)
  {
    StripShape(text);
    if !AllSpace(text) {
      var p :| 0 <= p < |text| && !IsSpace(text[p]);
      NoTextLost(text, size, overlap, metadata, p);
    }
  }

  function DocumentChunks(size: nat, overlap: int): DocumentChunk -> seq<TextChunk>
    requires overlap < size
  {
    (d: DocumentChunk) => Chunks(d.content, size, overlap, d.metadata)
  }

  /** What `chunk_documents` returns: the chunks of every document in turn. */
  function ChunkAll(documents: seq<DocumentChunk>, size: nat, overlap: int): seq<TextChunk>
    requires overlap < size
  {
    FlatMap(documents, DocumentChunks(size, overlap))
  }

  /** `chunk_documents` distributes over concatenation: chunks keep document
      order. */
  lemma ChunkAllAppend(a: seq<DocumentChunk>, b: seq<DocumentChunk>, size: nat, overlap: int)
    requires overlap < size
    ensures ChunkAll(a + b, size, overlap) == ChunkAll(a, size, overlap) + ChunkAll(b, size, overlap)
  {
    FlatMapAppend(a, b, DocumentChunks(size, overlap));
  }

  /** Every chunk of `chunk_documents` comes from one of the documents and
      carries that document's metadata; every chunk of every document is
      there. */
  lemma ChunkAllSources(documents: seq<DocumentChunk>, size: nat, overlap: int)
    requires overlap < size
    ensures forall c :: c in ChunkAll(documents, size, overlap) ==>
      exists i :: 0 <= i < |documents| &&
        c in Chunks(documents[i].content, size, overlap, documents[i].metadata) && c.metadata == documents[i].metadata
    ensures forall i, c :: 0 <= i < |documents| && c in Chunks(documents[i].content, size, overlap, documents[i].metadata) ==>
      c in ChunkAll(documents, size, overlap)
  {
    var f := DocumentChunks(size, overlap);
    forall c | c in ChunkAll(documents, size, overlap)
      ensures exists i ::
        0 <= i < |documents| && c in Chunks(documents[i].content, size, overlap, documents[i].metadata) &&
        c.metadata == documents[i].metadata
    {
      FlatMapSound(documents, f, c);
      var i :| 0 <= i < |documents| && c in f(documents[i]);
      ChunksWellFormed(documents[i].content, size, overlap, documents[i].metadata);
    }
    forall i, c | 0 <= i < |documents| && c in Chunks(documents[i].content, size, overlap, documents[i].metadata)
      ensures c in ChunkAll(documents, size, overlap)
    {
      assert c in f(documents[i]);
      FlatMapComplete(documents, f, i, c);
    }
  }

  /** `TextChunker`, configured by `chunk_size` and `chunk_overlap`. */
  class TextChunker {
    const chunkSize: int
    const chunkOverlap: int

    constructor (size: int, overlap: int)
      ensures chunkSize == size && chunkOverlap == overlap
    {
      chunkSize := size;
      chunkOverlap := overlap;
    }

    /** `_chunk_text`: the `while` loop over window starts. It stops only when
        the windows advance, i.e. `chunk_overlap < chunk_size`. */
    method ChunkText(text: string, metadata: Meta) returns (chunks: seq<TextChunk>)
      requires 0 <= chunkSize && chunkOverlap < chunkSize
      ensures chunks == Chunks(text, chunkSize, chunkOverlap, metadata)
    {
      if text == [] || Strip(text) == [] {
        return [];
      }
      var n := |text|;
      ghost var st := StartsFrom(n, chunkSize, chunkOverlap, 0);
      assert st == [0] + StartsFrom(n, chunkSize, chunkOverlap, chunkSize - chunkOverlap);
      WindowsLength(text, chunkSize, chunkOverlap, 0);
      ghost var k: nat := 0;
      chunks := [];
      var start: nat := 0;
      while start < n
        invariant |Windows(text, chunkSize, chunkOverlap, 0)| == |st|
        invariant k <= |st| && (k < |st| <==> start < n) && (k < |st| ==> start == st[k])
        invariant chunks == FilterMap(Windows(text, chunkSize, chunkOverlap, 0)[..k], StripChunk(metadata))
        decreases n - start
      {
        var end := start + chunkSize;
        var content := text[start..Min(end, n)];
        Visit(text, chunkSize, chunkOverlap, metadata, k, chunks, content);
        if Strip(content) == [] {
          start := end - chunkOverlap;
          k := k + 1;
          continue;
        }
        chunks := chunks + [TextChunk(Strip(content), metadata)];
        start := end - chunkOverlap;
        k := k + 1;
      }
      WindowsShape(text, chunkSize, chunkOverlap, 0);
      assert Windows(text, chunkSize, chunkOverlap, 0)[..k] == Windows(text, chunkSize, chunkOverlap, 0);
    }

    /** `chunk_documents`: every document's chunks, in document order. */
    method ChunkDocuments(documents: seq<DocumentChunk>) returns (all: seq<TextChunk>)
      requires 0 <= chunkSize && chunkOverlap < chunkSize
      ensures all == ChunkAll(documents, chunkSize, chunkOverlap)
    {
      all := [];
      var i := 0;
      while i < |documents|
        invariant 0 <= i <= |documents|
        invariant all == ChunkAll(documents[..i], chunkSize, chunkOverlap)
      {
        FlatMapStep(documents, i, DocumentChunks(chunkSize, chunkOverlap));
        var chunks := ChunkText(documents[i].content, documents[i].metadata);
        all := all + chunks;
        i := i + 1;
      }
      assert documents[..i] == documents;
    }
  }
}

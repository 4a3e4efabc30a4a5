/** The retrieval-augmented answer chain of rag/chain.py. The store's search
    results and the LLM's outcome are inputs; the prompt text is opaque. */
module Chain {
  import opened Wrappers
  import opened Strings
  import opened Seqs
  import opened Values

  /** What one `client.generate` call did: produced text, or raised an
      exception carrying an optional `status_code`. */
  datatype Generation = Generated(text: string) | GenerationFailed(status: Option<int>)

  /** A streamed generation: the pieces delivered (`Some(t)` for a piece with
      a `response` field), then either the end of the stream or an exception. */
  datatype Stream = Fragments(pieces: seq<Option<string>>) | FailAfter(pieces: seq<Option<string>>)

  /** The configuration `query` reads: `OLLAMA_API_KEY` and `OLLAMA_MODEL`. */
  datatype LlmConfig = LlmConfig(apiKey: string, model: string)

  /** `RAGResponse`. */
  datatype RAGResponse = RAGResponse(answer: string, sources: seq<Meta>, contextChunks: seq<string>)

  const Separator: string := "\n\n---\n\n"
  const NoContextAnswer: string := "I don't have specific information about that in my knowledge base yet. You can upload documents to expand my knowledge, or ask me something else!"
  const NoContextStream: string := "I don't have specific information about that yet. Try uploading documents or ask something else!"
  const StreamError: string := "Sorry, I encountered an error."
  const SnippetLimit: nat := 500
  const Ellipsis: char := '\U{2026}'
  const DocumentsIntro: string := "Here's relevant text from your documents:\n\n"
  const KeyHint: string := "Check **OLLAMA_API_KEY** in .env (get a key at https://ollama.com/settings/keys)."
  const ModelHint: string := "Use a **cloud model** name in OLLAMA_MODEL (e.g. `ministral-3:8b`, `gemini-3-flash-preview`). See https://ollama.com/search?c=cloud"
  const GeneralHint: string := "Check **OLLAMA_API_KEY** and network, and that **OLLAMA_MODEL** is a cloud model (https://ollama.com/search?c=cloud)."

  /** `f" (page {page})" if page else ""` for `page = metadata.get("page", "")`. */
  function PageSuffix(m: Meta): (r: string)
    ensures Truthy(Get(m, "page", Str(""))) <==> r != []
  {
    var page := Get(m, "page", Str(""));
    if Truthy(page) then " (page " + Show(page) + ")" else ""
  }

  /** The context block of the `i`-th result (1-based). */
  function Block(i: nat, r: SearchResult): string {
    "[Source " + NatToString(i) + ": " + Show(Get(r.metadata, "source", Str("unknown")))
      + PageSuffix(r.metadata) + "]\n" + r.content
  }

  function Blocks(results: seq<SearchResult>): (r: seq<string>)
    ensures |r| == |results|
    ensures forall i :: 0 <= i < |r| ==> r[i] == Block(i + 1, results[i])
  {
    seq(|results|, i requires 0 <= i < |results| => Block(i + 1, results[i]))
  }

  /** What `_build_context` returns. */
  function Context(results: seq<SearchResult>): string {
    Join(Blocks(results), Separator)
  }

  /** `_build_context`: one block per result, in result order, then the join. */
  method BuildContext(results: seq<SearchResult>) returns (context: string)
    ensures context == Context(results)
  {
    var parts: seq<string> := [];
    var i := 0;
    while i < |results|
      invariant 0 <= i <= |results|
      invariant parts == Blocks(results)[..i]
    {
      var r := results[i];
      var source := Get(r.metadata, "source", Str("unknown"));
      var page := Get(r.metadata, "page", Str(""));
      var pageStr := if Truthy(page) then " (page " + Show(page) + ")" else "";
      var part := "[Source " + NatToString(i + 1) + ": " + Show(source) + pageStr + "]\n" + r.content;
      assert part == Block(i + 1, r);
      assert Blocks(results)[..i + 1] == Blocks(results)[..i] + [Block(i + 1, r)];
      parts := parts + [part];
      i := i + 1;
    }
    assert parts == Blocks(results);
    context := Join(parts, Separator);
  }

  /** The first part of a join is its prefix. */
  lemma JoinStartsWithFirst(parts: seq<string>, sep: string)
    requires parts != []
    ensures |parts[0]| <= |Join(parts, sep)| && Join(parts, sep)[..|parts[0]|] == parts[0]
  {
  }

  /** The context is empty exactly when there are no results, and otherwise
      it opens with the first result's block. */
  lemma ContextEmptyIff(results: seq<SearchResult>)
    ensures Context(results) == [] <==> results == []
    ensures results != [] ==>
      |Block(1, results[0])| <= |Context(results)| && Context(results)[..|Block(1, results[0])|] == Block(1, results[0])
  {
    if results != [] {
      JoinStartsWithFirst(Blocks(results), Separator);
      assert Block(1, results[0])[0] == '[';
    }
  }

  /** The snippet shown when generation fails: the first result's content up
      to 500 characters, marked with an ellipsis when cut. */
  function Snippet(results: seq<SearchResult>): (s: string)
    ensures results == [] ==> s == []
    ensures results != [] && |results[0].content| <= SnippetLimit ==> s == results[0].content
    ensures results != [] && |results[0].content| > SnippetLimit ==>
      |s| == SnippetLimit + 1 && s[..SnippetLimit] == results[0].content[..SnippetLimit] && s[SnippetLimit] == Ellipsis
  {
    if results != [] && |results[0].content| > SnippetLimit then results[0].content[..SnippetLimit] + [Ellipsis]
    else if results != [] then results[0].content
    else ""
  }

  /** `status or 'connection'`. */
  function StatusText(status: Option<int>): (t: string)
    ensures t == "connection" <==> status.None? || status == Some(0)
  {
    if status.Some? && status.value != 0 then
      var t := IntToString(status.value);
      assert t[0] == '-' || IsDigit(t[0]);
      t
    else "connection"
  }

  /** Which hint a cloud failure shows. */
  datatype HintKind = CheckKey | UseCloudModel | CheckNetwork

  function Hint(status: Option<int>): (h: HintKind)
    ensures h == CheckKey <==> status == Some(401)
    ensures h == UseCloudModel <==> status == Some(404)
    ensures h == CheckNetwork <==> status != Some(401) && status != Some(404)
  {
    if status == Some(401) then CheckKey
    else if status == Some(404) then UseCloudModel
    else CheckNetwork
  }

  function HintText(h: HintKind): string {
    match h
    case CheckKey => KeyHint
    case UseCloudModel => ModelHint
    case CheckNetwork => GeneralHint
  }

  /** The opening of the answer when Ollama Cloud is configured. */
  function CloudLead(status: Option<int>): string {
    "Ollama Cloud error (" + StatusText(status) + "). " + HintText(Hint(status)) + "\n\n"
  }

  /** The opening of the answer when the local server is used. */
  function LocalLead(model: string): string {
    "Ollama isn't running, so I can't generate a full answer. Start it with: **ollama serve** (and run **ollama pull "
      + model + "** if needed). Or set **OLLAMA_API_KEY** to use Ollama Cloud.\n\n"
  }

  /** The opening of the failure answer: it names the cloud error when a
      key is configured, else how to start the local server. */
  function FailureLead(cfg: LlmConfig, status: Option<int>): string {
    if cfg.apiKey != [] then CloudLead(status) else LocalLead(cfg.model)
  }

  /** The answer after a generation failure. */
  function FailureAnswer(cfg: LlmConfig, status: Option<int>, snippet: string): string {
    FailureLead(cfg, status) + (DocumentsIntro + snippet)
  }

  /** `a` is `lead` followed by `tail`. */
  predicate Splits(a: string, lead: string, tail: string) {
    |lead| + |tail| == |a| && a[..|lead|] == lead && a[|lead|..] == tail
  }

  lemma Halves(a: string, lead: string, tail: string)
    requires a == lead + tail
    ensures Splits(a, lead, tail)
  {
  }

  /** Both failure answers end with the snippet after the same introduction,
      and open with the lead for the configured backend. */
  lemma FailureAnswerShape(cfg: LlmConfig, status: Option<int>, snippet: string)
    ensures Splits(FailureAnswer(cfg, status, snippet), FailureLead(cfg, status), DocumentsIntro + snippet)
  {
    Halves(FailureAnswer(cfg, status, snippet), FailureLead(cfg, status), DocumentsIntro + snippet);
  }

  /** `{"source": r.metadata.get("source"), "page": r.metadata.get("page")}` per result. */
  function Sources(results: seq<SearchResult>): (r: seq<Meta>)
    ensures |r| == |results|
    ensures forall i :: 0 <= i < |r| ==>
      r[i].Keys == {"source", "page"} &&
      r[i]["source"] == Get(results[i].metadata, "source", Null) && r[i]["page"] == Get(results[i].metadata, "page", Null)
  {
    seq(|results|, i requires 0 <= i < |results| =>
      map["source" := Get(results[i].metadata, "source", Null), "page" := Get(results[i].metadata, "page", Null)])
  }

  /** `[r.content for r in results]`. */
  function Contents(results: seq<SearchResult>): (r: seq<string>)
    ensures |r| == |results|
    ensures forall i :: 0 <= i < |r| ==> r[i] == results[i].content
  {
    seq(|results|, i requires 0 <= i < |results| => results[i].content)
  }

  /** `query` on the results `search` returned. `asked` tells whether the
      chain called `generate`, whose outcome is `outcome`. */
  method Query(results: seq<SearchResult>, outcome: Generation, cfg: LlmConfig) returns (response: RAGResponse, asked: bool)
    ensures asked <==> results != []
    ensures !asked ==> response == RAGResponse(NoContextAnswer, [], [])
    ensures asked ==> response.sources == Sources(results) && response.contextChunks == Contents(results)
    ensures asked && outcome.Generated? ==> response.answer == Strip(outcome.text)
    ensures asked && outcome.GenerationFailed? ==> response.answer == FailureAnswer(cfg, outcome.status, Snippet(results))
  {
    var context := "";
    if results != [] {
      context := BuildContext(results);
    }
    ContextEmptyIff(results);
    if context == [] {
      return RAGResponse(NoContextAnswer, [], []), false;
    }
    asked := true;
    var answer: string;
    match outcome {
      case Generated(text) =>
        answer := Strip(text);
      case GenerationFailed(status) =>
        answer := FailureAnswer(cfg, status, Snippet(results));
    }
    var sources := Sources(results);
    var chunks := Contents(results);
    response := RAGResponse(answer, sources, chunks);
  }

  /** `chunk["response"]` for the pieces that have one. */
  function ResponseOf(piece: Option<string>): Option<string> {
    piece
  }

  /** `query_stream`: what the generator yields, in order. */
  method QueryStream(results: seq<SearchResult>, stream: Stream) returns (out: seq<string>)
    ensures results == [] ==> out == [NoContextStream]
    ensures results != [] && stream.Fragments? ==> out == FilterMap(stream.pieces, ResponseOf)
    ensures results != [] && stream.FailAfter? ==> out == FilterMap(stream.pieces, ResponseOf) + [StreamError]
  {
    var context := "";
    if results != [] {
      context := BuildContext(results);
    }
    ContextEmptyIff(results);
    if context == [] {
      return [NoContextStream];
    }
    var pieces := stream.pieces;
    out := [];
    var i := 0;
    while i < |pieces|
      invariant 0 <= i <= |pieces|
      invariant out == FilterMap(pieces[..i], ResponseOf)
    {
      FilterMapStep(pieces, i, ResponseOf);
      if pieces[i].Some? {
        out := out + [pieces[i].value];
      }
      i := i + 1;
    }
    assert pieces[..i] == pieces;
    if stream.FailAfter? {
      out := out + [StreamError];
    }
  }

  /** Every yielded fragment is the `response` of a delivered piece, every
      delivered `response` is yielded, and a failing stream ends with exactly
      the one error message after them. */
  lemma StreamFragments(pieces: seq<Option<string>>)
    ensures |FilterMap(pieces, ResponseOf)| <= |pieces|
    ensures forall t :: t in FilterMap(pieces, ResponseOf) <==> Some(t) in pieces
    ensures var out := FilterMap(pieces, ResponseOf) + [StreamError];
      out[|out| - 1] == StreamError && out[..|out| - 1] == FilterMap(pieces, ResponseOf)
  {
    FilterMapLength(pieces, ResponseOf);
    forall t ensures t in FilterMap(pieces, ResponseOf) <==> Some(t) in pieces {
      if t in FilterMap(pieces, ResponseOf) {
        FilterMapSound(pieces, ResponseOf, t);
      }
      if Some(t) in pieces {
        var i :| 0 <= i < |pieces| && pieces[i] == Some(t);
        FilterMapComplete(pieces, ResponseOf, i);
      }
    }
  }
}

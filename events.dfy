/** The event normalisers of the tracing core (Tracing._generation_event and
    Tracing._retrieval_event in src/hamming/resources/tracing.py). */
module Events {
  import opened HammingTypes

  /** _generation_event: the whole generation record, tagged "llm".
      Absent input, output and metadata stay absent. */
  function GenerationEvent(p: GenerationParams): (e: Event)
    ensures Kind(e) == "llm"
    ensures e.generation.input == p.input
    ensures e.generation.output == p.output
    ensures e.generation.metadata == p.metadata
  {
    Llm(p)
  }

  /** normalize_document: a bare string becomes a Document with empty metadata,
      a Document is kept as it is. */
  function NormalizeDocument(r: RetrievalResult): (d: Document)
    ensures r.Text? ==> d == Document(r.text, map[])
    ensures r.Doc? ==> d == r.doc
  {
    match r
    case Doc(doc) => doc
    case Text(s) => Document(s, map[])
  }

  /** The list comprehension over params.results. */
  function NormalizeResults(rs: seq<RetrievalResult>): (out: seq<RetrievalResult>)
    ensures |out| == |rs|
    ensures forall i :: 0 <= i < |out| ==> out[i].Doc?
    ensures forall i :: 0 <= i < |rs| && rs[i].Text? ==> out[i].doc == Document(rs[i].text, map[])
    ensures forall i :: 0 <= i < |rs| && rs[i].Doc? ==> out[i] == rs[i]
  {
    seq(|rs|, i requires 0 <= i < |rs| => Doc(NormalizeDocument(rs[i])))
  }

  /** The retrieval record after `params.results` has been reassigned: the caller's
      record is rewritten in place, only its results change. */
  function NormalizeParams(p: RetrievalParams): (q: RetrievalParams)
    ensures q.query == p.query && q.metadata == p.metadata
    ensures q.results == NormalizeResults(p.results)
  {
    p.(results := NormalizeResults(p.results))
  }

  /** _retrieval_event: the rewritten record, tagged "vector". */
  function RetrievalEvent(p: RetrievalParams): (e: Event)
    ensures Kind(e) == "vector"
    ensures e.retrieval == NormalizeParams(p)
  {
    Vector(NormalizeParams(p))
  }

  /** Every result is already a Document. */
  predicate AllDocuments(rs: seq<RetrievalResult>)
  {
    forall i :: 0 <= i < |rs| ==> rs[i].Doc?
  }

  /** The text a result carries: its page content. */
  function Content(r: RetrievalResult): string
  {
    match r
    case Doc(d) => d.pageContent
    case Text(s) => s
  }

  function Contents(rs: seq<RetrievalResult>): (cs: seq<string>)
    ensures |cs| == |rs|
  {
    seq(|rs|, i requires 0 <= i < |rs| => Content(rs[i]))
  }

  /** Normalisation keeps the page contents of the results, in their order. */
  lemma NormalizePreservesContents(rs: seq<RetrievalResult>)
    ensures Contents(NormalizeResults(rs)) == Contents(rs)
  {
  }

  /** A record is left unchanged by normalisation exactly when all its results are
      already Documents. */
  lemma NormalizeFixedPoint(p: RetrievalParams)
    ensures NormalizeParams(p) == p <==> AllDocuments(p.results)
  {
    if !AllDocuments(p.results) {
      var i :| 0 <= i < |p.results| && !p.results[i].Doc?;
      assert NormalizeParams(p).results[i].Doc?;
    }
  }

  /** Rewriting the record twice is the same as rewriting it once. */
  lemma NormalizeIdempotent(p: RetrievalParams)
    ensures NormalizeParams(NormalizeParams(p)) == NormalizeParams(p)
  {
    NormalizeFixedPoint(NormalizeParams(p));
  }

  /** results = ["a", "b"] becomes two Documents with empty metadata. */
  lemma RetrievalEventExample(q: Option<string>, m: Option<RetrievalMetadata>)
    ensures RetrievalEvent(RetrievalParams(q, [Text("a"), Text("b")], m))
         == Vector(RetrievalParams(q, [Doc(Document("a", map[])), Doc(Document("b", map[]))], m))
  {
    var out := NormalizeResults([Text("a"), Text("b")]);
    assert out == [Doc(Document("a", map[])), Doc(Document("b", map[]))];
  }
}

/** The records the tracing core exchanges (src/hamming/types.py).
    The open-ended event mapping of the source becomes a tagged union with
    exactly the three kinds of event the core produces. */
module HammingTypes {

  datatype Option<+T> = None | Some(value: T)

  /** LLMProvider; the source also admits an arbitrary provider string. */
  datatype Provider = OpenAI | Anthropic | AzureOpenAI | OtherProvider(name: string)

  /** GenerationParams.Usage */
  datatype Usage = Usage(completionTokens: int, promptTokens: int, totalTokens: int)

  /** GenerationParams.Metadata; `error` defaults to false, every other field to None.
      The floating-point temperature is kept as a real number. */
  datatype GenerationMetadata = GenerationMetadata(
    provider: Option<Provider>,
    model: Option<string>,
    stream: Option<bool>,
    maxTokens: Option<int>,
    n: Option<int>,
    seed: Option<int>,
    temperature: Option<real>,
    usage: Option<Usage>,
    durationMs: Option<int>,
    error: bool,
    errorMessage: Option<string>)

  /** GenerationParams: one model call, successful or not. */
  datatype GenerationParams = GenerationParams(
    input: Option<string>,
    output: Option<string>,
    metadata: Option<GenerationMetadata>)

  /** Document; the values of its metadata mapping are kept as strings. */
  datatype Document = Document(pageContent: string, metadata: map<string, string>)

  /** One entry of RetrievalParams.results: a Document or a bare string. */
  datatype RetrievalResult = Doc(doc: Document) | Text(text: string)

  /** RetrievalParams.Metadata */
  datatype RetrievalMetadata = RetrievalMetadata(engine: Option<string>)

  /** RetrievalParams */
  datatype RetrievalParams = RetrievalParams(
    query: Option<string>,
    results: seq<RetrievalResult>,
    metadata: Option<RetrievalMetadata>)

  /** A trace event, discriminated by its kind. */
  datatype Event = Root | Llm(generation: GenerationParams) | Vector(retrieval: RetrievalParams)

  /** The value of the event's "kind" field. */
  function Kind(e: Event): (k: string)
    ensures k == "root" <==> e.Root?
    ensures k == "llm" <==> e.Llm?
    ensures k == "vector" <==> e.Vector?
  {
    match e
    case Root => "root"
    case Llm(_) => "llm"
    case Vector(_) => "vector"
  }

  /** ExperimentTrace: one node of a flushed tree. */
  datatype Node = Node(id: int, experimentItemId: string, parentId: Option<int>, event: Event)

  /** MonitoringTraceContext, supplied by the monitoring context provider. */
  datatype MonitoringContext = MonitoringContext(sessionId: string, seqId: int, parentSeqId: Option<int>)

  /** MonitoringTrace: a live record, the context plus the event. */
  datatype MonitoringTrace = MonitoringTrace(sessionId: string, seqId: int, parentSeqId: Option<int>, event: Event)
}

# Hamming tracing core, modelled in Dafny

This project models the trace-capture core of the Hamming Python SDK: the `Tracing`
resource and the base-URL handling of `HttpClient`.

`Tracing` keeps three pieces of state:

- a trace-id counter that starts at 0;
- a buffer of events waiting for the next flush;
- a live/batch flag.

Callers log generation (LLM) and retrieval (vector store) records. A normaliser turns
each record into a tagged event. In live mode the event is wrapped with the monitoring
context and meant to go to the client's logger at once; as written, the source fails
before the logger is reached (see "## Left out"), and the model describes the intended
delivery. In batch mode the event is appended to the buffer. A flush empties
the buffer and builds a two-level tree: a root node, then one child per buffered event,
each with a fresh id. It sends the whole list in one `POST /traces`.

`HttpClient.sanitize_base_url` strips whitespace and then trailing slashes. Every request
goes to the sanitised base URL followed by the path.

Files and modules:

- `types.dfy` (`HammingTypes`): the records of `src/hamming/types.py` as datatypes. The
  open-ended event mapping becomes `Event = Root | Llm(..) | Vector(..)`.
- `events.dfy` (`Events`): the two normalisers and their properties.
- `flush.dfy` (`FlushTree`): the list one flush sends, as a pure function `Flushed` of
  the counter before the flush, the experiment item id and the buffered events, with
  lemmas on its shape and ids.
- `tracing.dfy` (`TracingResource`): the class `Tracing`, with fields `counter`,
  `buffer` and `isLive`. Two ghost logs, `dispatched` and `liveSent`, stand for the
  HTTP POST and the live logger. Its object invariant says that no dispatched id repeats
  and that every dispatch is a rooted tree. `Flush` is a loop that calls
  `NextId` once per event, as the source does, and it is proved equal to `Flushed`.
- `http_client.dfy` (`Http`): Python's `str.strip()` and `str.rstrip("/")` as
  `TrimStart`/`TrimEnd`, `Sanitize`, and the client's constructor and URL construction.

The monitoring context provider is a parameter of `Log`; it is consulted only in live
mode, as in the source. The HTTP transport is not modelled: a flush appends its request
to `dispatched`.

Two points about the source's state:

- `counter` and `buffer` are per-object state: `self._current_local_trace_id += 1` and
  `self._collected_events = []` create instance attributes that hide the class-level
  defaults (tracing.py:26, 31).
- `_flush` clears the buffer and advances the counter before the POST
  (tracing.py:30-50). A POST that raises leaves that same state, and the drained events
  are lost. So `Flush`'s post-state is the state the source leaves whether or not the
  POST then raises.

## Model

| member | source | states |
|---|---|---|
| HammingTypes.Kind | src/hamming/resources/tracing.py:33-68 | the `kind` tag is "root", "llm" or "vector" exactly for the root, generation and retrieval events |
| Events.GenerationEvent | src/hamming/resources/tracing.py:52-56 | a generation event is tagged "llm" and keeps input, output and metadata as given, absent ones absent |
| Events.NormalizeDocument | src/hamming/resources/tracing.py:60-63 | a bare string s becomes Document(pageContent = s, metadata = {}); a Document is kept as it is |
| Events.NormalizeResults | src/hamming/resources/tracing.py:65 | same length; every entry is a Document; position by position, strings are converted and Documents are untouched |
| Events.NormalizeParams | src/hamming/resources/tracing.py:65 | the rewritten record keeps query and metadata, and only its results are normalised |
| Events.RetrievalEvent | src/hamming/resources/tracing.py:58-68 | a retrieval event is tagged "vector" and carries the record with its results normalised |
| Events.NormalizePreservesContents | src/hamming/resources/tracing.py:65 | normalisation keeps every result's text, in order |
| Events.NormalizeFixedPoint | src/hamming/resources/tracing.py:60-65 | a record is left unchanged if and only if all its results are already Documents |
| Events.NormalizeIdempotent | src/hamming/resources/tracing.py:60-65 | normalising an already normalised record changes nothing |
| Events.RetrievalEventExample | src/hamming/resources/tracing.py:58-68 | results ["a", "b"] become two Documents with empty metadata, tagged "vector" |
| FlushTree.Flushed | src/hamming/resources/tracing.py:33-48 | the list one flush sends has one node more than there were events, and starts with the parentless root event whose id is the old counter + 1 |
| FlushTree.Children | src/hamming/resources/tracing.py:39-48 | the loop builds exactly one child per buffered event |
| FlushTree.ChildrenAt | src/hamming/resources/tracing.py:40-48 | the k-th child has id root + 1 + k, parent root, and the k-th event unchanged |
| FlushTree.FlushedShape | src/hamming/resources/tracing.py:33-48 | a flush sends 1 + \|buffer\| nodes: first the parentless root with id counter + 1 and the root event, then every event in order under the root, every node carrying the experiment item id |
| FlushTree.FlushedIds | src/hamming/resources/tracing.py:33-48 | the ids of one flush are consecutive: the k-th node has id old counter + 1 + k |
| FlushTree.FlushedSingleRoot | src/hamming/resources/tracing.py:33-48 | a node of a flush has no parent if and only if it is the first |
| FlushTree.FlushedTwoEvents | src/hamming/resources/tracing.py:29-48 | two events flushed on a fresh counter get ids 2 and 3 under root 1 |
| FlushTree.AppendFlushedIds | src/hamming/resources/tracing.py:25-48 | ids issued before a flush followed by its ids stay strictly increasing and all lie in 1 .. new counter |
| TracingResource.FlushKeepsConsistent | src/hamming/resources/tracing.py:25-50 | a flush keeps the dispatch log consistent with the counter: no id is repeated across flushes and every dispatch is a POST of a rooted tree to /traces |
| TracingResource.Tracing.constructor | src/hamming/resources/tracing.py:16-20 | a fresh resource has counter 0, an empty buffer and batch mode |
| TracingResource.Tracing.SetLive | src/hamming/resources/tracing.py:22-23 | sets the mode flag and nothing else |
| TracingResource.Tracing.NextId | src/hamming/resources/tracing.py:25-27 | keeps the object invariant, returns the old counter + 1 and leaves the counter at that value, so on a fresh object the first call returns 1 and each later call returns one more than the previous |
| TracingResource.Tracing.Flush | src/hamming/resources/tracing.py:29-50 | empties the buffer whether or not it was empty, advances the counter by \|old buffer\| + 1, and records exactly one POST /traces of Flushed(old counter, item id, old buffer), root-only when nothing was buffered |
| TracingResource.Tracing.Log | src/hamming/resources/tracing.py:78-90 | live: buffer unchanged and exactly one record with the context's session_id, seq_id and parent_seq_id; batch: the event is appended at the end of the buffer and nothing is emitted; the counter is never touched |
| TracingResource.Tracing.LogGeneration | src/hamming/resources/tracing.py:92-93 | logs the generation event by the same mode rule |
| TracingResource.Tracing.LogRetrieval | src/hamming/resources/tracing.py:95-96 | logs the retrieval event by the same mode rule and leaves the caller's record with normalised results |
| TracingResource.LogBatchPair | src/hamming/resources/tracing.py:78-96 | batch mode on a fresh resource: a generation and then a retrieval with results ["x"] are buffered in order, the string already turned into a Document, with nothing counted or sent |
| TracingResource.EndToEnd | src/hamming/resources/tracing.py:29-96 | batch mode: a generation, a retrieval with results ["x"], then a flush for "item-42" send nodes 1 (root), 2 and 3 (both under 1), leave the buffer empty, and the next id is 4 |
| TracingResource.LiveGeneration | src/hamming/resources/tracing.py:78-93 | live mode: a generation is emitted once with the given context, and nothing is buffered or counted |
| Http.TrimStart | src/hamming/http_client.py:13 | a suffix of the input remains, every dropped character is a dropped kind, and the result does not start with one |
| Http.TrimEnd | src/hamming/http_client.py:13 | a prefix of the input remains, every dropped character is a dropped kind, and the result does not end with one |
| Http.Strip | src/hamming/http_client.py:13 | strip() never lengthens its input, and what it returns neither starts nor ends with whitespace |
| Http.StripKeepsMiddle | src/hamming/http_client.py:13 | strip() returns a contiguous middle part of its input and drops only whitespace around it |
| Http.StripDropsTrailingSpace | src/hamming/http_client.py:13 | an input ending in whitespace is shortened by strip() |
| Http.Sanitize | src/hamming/http_client.py:12-13 | the result is a prefix of strip(url), the cut suffix is only "/" characters, and the result never ends with "/" |
| Http.SanitizeNoLeadingSpace | src/hamming/http_client.py:12-13 | the sanitised URL never begins with whitespace |
| Http.SanitizeUnique | src/hamming/http_client.py:12-13 | that contract determines the result: it is the only prefix of strip(url) followed only by slashes and not itself ending in one |
| Http.SanitizeFixedPoint | src/hamming/http_client.py:12-13 | an input is returned unchanged if and only if it is empty, or has no leading or trailing whitespace and no trailing "/" |
| Http.SanitizeSpaceSlash | src/hamming/http_client.py:12-13 | "a /" sanitises to "a ": the space before the cut slash stays |
| Http.SanitizeTrailingSpace | src/hamming/http_client.py:12-13 | "a " sanitises to "a" |
| Http.SanitizeNotIdempotent | src/hamming/http_client.py:12-13 | sanitising is not idempotent: sanitising the result for "a /" changes it again |
| Http.HttpClient.constructor | src/hamming/http_client.py:15-17 | the client stores the API key and sanitize_base_url(config.base_url) |
| Http.HttpClient.Request | src/hamming/http_client.py:19-28 | the target URL is exactly base_url followed by the path, with no further normalisation; JSON content type and a bearer header carrying the key |
| Http.JoinSeam | src/hamming/http_client.py:12-22 | a sanitised base joined to a path that begins with "/" has exactly that slash at the seam, never a doubled one from the base |

## Left out

- The HTTP round trip: the `requests` call, `raise_for_status` and JSON decoding in `HttpClient.request`. A flush records its request in the ghost log `dispatched`, and `Request` returns the request it would make. Transport errors are not modelled, so neither is the data loss after a failed POST.
- The live logger `_log_live_trace` and `monitoring._get_tracing_context()` are external collaborators. The context is a parameter of `Log`, and each live record is appended to the ghost log `liveSent`. The `LogMessage` wrapper is not built: `tracing.py:72-75` passes the keywords `message_type` and `message_payload`, but `LogMessage` declares the required fields `type` and `payload` with no defaults (`types.py:202-204`). Pydantic ignores the unknown keywords, so as written every live `log` raises a ValidationError before the logger is called and nothing is emitted. `Log`'s live branch, and `LiveGeneration`, model the intended delivery instead.
- The Document metadata mapping's values, `Any` in the source, are kept as strings.
- The floating-point `temperature` is kept as a real number, so no float rounding.
- Pydantic serialisation (`model_dump`) and validation are not modelled. Events are tagged datatypes rather than dictionaries, so malformed-record errors cannot arise.
- The `results` union in `RetrievalParams` (all Documents or all strings) is widened to a list whose entries may each be either. The normaliser treats each entry on its own either way.
- `_retrieval_event` reassigns `params.results` on the caller's record. Records are values here, so `LogRetrieval` returns the rewritten record instead of updating it in place.
- Concurrency and sharing across instances, including the class-level mutable default `_collected_events = []` (`tracing.py:17`). Before its first flush, an instance appends to a list shared by every instance. The model is one instance under one thread of control.
- `src/hamming/oai.py`, the OpenAI client instrumentation, is not part of this model. Neither are the dataset and experiment resources.

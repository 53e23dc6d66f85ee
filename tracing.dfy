/** The Tracing resource (src/hamming/resources/tracing.py): a trace-id counter,
    a buffer of events waiting for the next flush, and the live/batch flag.
    The POST that a flush issues and the live logger are recorded in two ghost
    logs, `dispatched` and `liveSent`. */
module TracingResource {
  import opened HammingTypes
  import opened Events
  import opened FlushTree

  /** One request issued by a flush: `self._client.request(verb, path, json={"traces": traces})`. */
  datatype Dispatch = Dispatch(verb: string, path: string, traces: seq<Node>)

  /** The ids of every node dispatched so far, flush after flush. */
  function AllIds(ds: seq<Dispatch>): seq<int>
  {
    if ds == [] then [] else AllIds(ds[..|ds| - 1]) + Ids(ds[|ds| - 1].traces)
  }

  lemma AllIdsAppend(ds: seq<Dispatch>, d: Dispatch)
    ensures AllIds(ds + [d]) == AllIds(ds) + Ids(d.traces)
  {
    assert (ds + [d])[..|ds|] == ds;
  }

  /** A dispatch is a POST of a rooted two-level tree to /traces. */
  predicate IsTreeDispatch(d: Dispatch)
  {
    && d.verb == "POST"
    && d.path == TracesPath
    && |d.traces| >= 1
    && IsRootedTree(d.traces, d.traces[0].experimentItemId)
  }

  /** What the resource keeps true of its dispatch log and counter: no dispatched id
      repeats, as the ids of all dispatched nodes are strictly increasing, none exceeds
      the counter, and every dispatch is a rooted tree. */
  predicate Consistent(ds: seq<Dispatch>, counter: nat)
  {
    && StrictlyIncreasing(AllIds(ds))
    && (forall i :: 0 <= i < |AllIds(ds)| ==> 1 <= AllIds(ds)[i] <= counter)
    && AllTrees(ds)
  }

  /** Every dispatch in the log is a rooted tree. */
  predicate AllTrees(ds: seq<Dispatch>)
  {
    ds == [] || (AllTrees(ds[..|ds| - 1]) && IsTreeDispatch(ds[|ds| - 1]))
  }

  /** A flush keeps the log and counter consistent. */
  lemma FlushKeepsConsistent(ds: seq<Dispatch>, counter: nat, itemId: string, events: seq<Event>)
    requires Consistent(ds, counter)
    ensures Consistent(ds + [Dispatch("POST", TracesPath, Flushed(counter, itemId, events))],
                       counter + |events| + 1)
  {
    var d := Dispatch("POST", TracesPath, Flushed(counter, itemId, events));
    AllIdsAppend(ds, d);
    AppendFlushedIds(AllIds(ds), counter, itemId, events);
    FlushedShape(counter, itemId, events);
    assert IsTreeDispatch(d);
    assert (ds + [d])[..|ds|] == ds;
  }

  class Tracing {
    var counter: nat
    var buffer: seq<Event>
    var isLive: bool
    ghost var dispatched: seq<Dispatch>
    ghost var liveSent: seq<MonitoringTrace>

    ghost predicate Valid()
      reads this`dispatched, this`counter
    {
      Consistent(dispatched, counter)
    }

    /** A fresh resource: counter 0, nothing buffered, batch mode. */
    constructor ()
      ensures Valid()
      ensures counter == 0 && buffer == [] && !isLive
      ensures dispatched == [] && liveSent == []
    {
      counter := 0;
      buffer := [];
      isLive := false;
      dispatched := [];
      liveSent := [];
    }

    /** _set_live */
    method SetLive(live: bool)
      requires Valid()
      modifies this`isLive
      ensures Valid()
      ensures isLive == live
    {
      isLive := live;
    }

    /** _next_trace_id: the counter advances by one and its new value is returned. */
    method NextId() returns (id: nat)
      requires Valid()
      modifies this`counter
      ensures Valid()
      ensures id == old(counter) + 1 && counter == id
    {
      counter := counter + 1;
      id := counter;
    }

    /** _flush: the buffer is swapped for an empty one, then a root and one child per
        buffered event are built with fresh ids and sent in a single POST. */
    method Flush(itemId: string)
      requires Valid()
      modifies this`buffer, this`counter, this`dispatched
      ensures Valid()
      ensures buffer == []
      ensures counter == old(counter) + |old(buffer)| + 1
      ensures dispatched == old(dispatched) + [Dispatch("POST", TracesPath, Flushed(old(counter), itemId, old(buffer)))]
    {
      ghost var counter0, dispatched0 := counter, dispatched;
      var events := buffer;
      buffer := [];
      var rootId := NextId();
      var root := Node(rootId, itemId, None, Root);
      var traces := [root];
      var i := 0;
      while i < |events|
        invariant 0 <= i <= |events|
        invariant counter == rootId + i
        invariant Valid()
        invariant traces == Flushed(counter0, itemId, events[..i])
        invariant buffer == [] && dispatched == dispatched0
      {
        var id := NextId();
        traces := traces + [Node(id, itemId, Some(rootId), events[i])];
        ChildrenSnoc(rootId, itemId, events, i);
        assert traces == Flushed(counter0, itemId, events[..i + 1]);
        i := i + 1;
      }
      assert events[..i] == events;
      FlushKeepsConsistent(dispatched0, counter0, itemId, events);
      dispatched := dispatched + [Dispatch("POST", TracesPath, traces)];
    }

    /** log: in live mode the event is wrapped with the monitoring context and handed
        to the live logger (the intended delivery: the source's LogMessage construction
        at tracing.py:72-75 fails first); in batch mode it is appended to the buffer.
        The counter is never used. */
    method Log(trace: Event, context: MonitoringContext)
      requires Valid()
      modifies this`buffer, this`liveSent
      ensures Valid()
      ensures isLive ==> (buffer == old(buffer)
        && liveSent == old(liveSent) + [MonitoringTrace(context.sessionId, context.seqId, context.parentSeqId, trace)])
      ensures !isLive ==> buffer == old(buffer) + [trace] && liveSent == old(liveSent)
    {
      if isLive {
        liveSent := liveSent + [MonitoringTrace(context.sessionId, context.seqId, context.parentSeqId, trace)];
      } else {
        buffer := buffer + [trace];
      }
    }

    /** log_generation */
    method LogGeneration(params: GenerationParams, context: MonitoringContext)
      requires Valid()
      modifies this`buffer, this`liveSent
      ensures Valid()
      ensures isLive ==> (buffer == old(buffer)
        && liveSent == old(liveSent) + [MonitoringTrace(context.sessionId, context.seqId, context.parentSeqId, GenerationEvent(params))])
      ensures !isLive ==> buffer == old(buffer) + [GenerationEvent(params)] && liveSent == old(liveSent)
    {
      Log(GenerationEvent(params), context);
    }

    /** log_retrieval; `rewritten` is the caller's record after its results have been
        normalised in place. */
    method LogRetrieval(params: RetrievalParams, context: MonitoringContext) returns (rewritten: RetrievalParams)
      requires Valid()
      modifies this`buffer, this`liveSent
      ensures Valid()
      ensures rewritten == NormalizeParams(params)
      ensures isLive ==> (buffer == old(buffer)
        && liveSent == old(liveSent) + [MonitoringTrace(context.sessionId, context.seqId, context.parentSeqId, RetrievalEvent(params))])
      ensures !isLive ==> buffer == old(buffer) + [RetrievalEvent(params)] && liveSent == old(liveSent)
    {
      rewritten := NormalizeParams(params);
      Log(RetrievalEvent(params), context);
    }
  }

  /** The logging half of the batch scenario: on a fresh resource, a generation and
      then a retrieval whose only result is the string "x" are buffered in that order. */
  method LogBatchPair(g1: GenerationParams, q: Option<string>, m: Option<RetrievalMetadata>, context: MonitoringContext)
    returns (t: Tracing)
    ensures fresh(t) && t.Valid() && !t.isLive && t.counter == 0 && t.dispatched == []
    ensures t.buffer == [Llm(g1), Vector(RetrievalParams(q, [Doc(Document("x", map[]))], m))]
  {
    t := new Tracing();
    t.SetLive(false);
    t.LogGeneration(g1, context);
    var r1 := t.LogRetrieval(RetrievalParams(q, [Text("x")], m), context);
    assert NormalizeResults([Text("x")]) == [Doc(Document("x", map[]))];
  }

  /** Batch mode end to end: log a generation and a retrieval whose only result is the
      string "x", flush for "item-42": the ids are 1, 2, 3, both children hang under the
      root, the buffer is empty and the next id is 4. */
  method EndToEnd(g1: GenerationParams, q: Option<string>, m: Option<RetrievalMetadata>, context: MonitoringContext)
    returns (next: nat, emptied: bool, ghost sent: seq<Node>)
    ensures next == 4 && emptied
    ensures sent == [Node(1, "item-42", None, Root),
                     Node(2, "item-42", Some(1), Llm(g1)),
                     Node(3, "item-42", Some(1), Vector(RetrievalParams(q, [Doc(Document("x", map[]))], m)))]
  {
    var t := LogBatchPair(g1, q, m, context);
    FlushedTwoEvents("item-42", Llm(g1), Vector(RetrievalParams(q, [Doc(Document("x", map[]))], m)));
    t.Flush("item-42");
    emptied := t.buffer == [];
    sent := t.dispatched[0].traces;
    next := t.NextId();
  }

  /** Live mode: a generation is emitted once with the context given at call time and
      neither the buffer nor the counter moves. */
  method LiveGeneration(g: GenerationParams, context: MonitoringContext)
    returns (buffered: nat, counted: nat, ghost emitted: seq<MonitoringTrace>)
    ensures buffered == 0 && counted == 0
    ensures emitted == [MonitoringTrace(context.sessionId, context.seqId, context.parentSeqId, Llm(g))]
  {
    var t := new Tracing();
    t.SetLive(true);
    t.LogGeneration(g, context);
    buffered, counted := |t.buffer|, t.counter;
    emitted := t.liveSent;
  }
}

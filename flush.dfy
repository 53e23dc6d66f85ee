/** What one flush (Tracing._flush in src/hamming/resources/tracing.py) sends:
    a root node followed by one child per buffered event, as pure functions of the
    counter before the flush, the experiment item id and the buffered events. */
module FlushTree {
  import opened HammingTypes

  const TracesPath: string := "/traces"

  /** The child nodes built by the loop, one per event in order; the loop appends
      a node whose id is the next value of the counter after the root's. */
  function Children(rootId: int, itemId: string, events: seq<Event>): (cs: seq<Node>)
    ensures |cs| == |events|
    decreases |events|
  {
    if events == [] then []
    else Children(rootId, itemId, events[..|events| - 1])
         + [Node(rootId + |events|, itemId, Some(rootId), events[|events| - 1])]
  }

  /** One more event adds one child at the end, with the next id. */
  lemma ChildrenSnoc(rootId: int, itemId: string, events: seq<Event>, i: nat)
    requires i < |events|
    ensures Children(rootId, itemId, events[..i + 1])
         == Children(rootId, itemId, events[..i]) + [Node(rootId + i + 1, itemId, Some(rootId), events[i])]
  {
    assert events[..i + 1][..i] == events[..i];
  }

  /** The list a flush sends when the counter stood at `counter` beforehand. */
  function Flushed(counter: nat, itemId: string, events: seq<Event>): (nodes: seq<Node>)
    ensures |nodes| == 1 + |events|
    ensures nodes[0] == Node(counter + 1, itemId, None, Root)
  {
    [Node(counter + 1, itemId, None, Root)] + Children(counter + 1, itemId, events)
  }

  /** The k-th child is the k-th event, unchanged, under the root, with id rootId + 1 + k. */
  lemma {:induction false} ChildrenAt(rootId: int, itemId: string, events: seq<Event>)
    ensures forall k :: 0 <= k < |events| ==>
              Children(rootId, itemId, events)[k] == Node(rootId + 1 + k, itemId, Some(rootId), events[k])
    decreases |events|
  {
    if events != [] {
      var init := events[..|events| - 1];
      ChildrenAt(rootId, itemId, init);
      forall k | 0 <= k < |init| ensures events[k] == init[k] { }
    }
  }

  /** A two-level tree for one experiment item: a parentless root whose event is
      the root event, then nodes whose parent is the root. */
  predicate IsRootedTree(nodes: seq<Node>, itemId: string)
  {
    && |nodes| >= 1
    && nodes[0].parentId == None
    && nodes[0].event == Root
    && (forall k :: 1 <= k < |nodes| ==> nodes[k].parentId == Some(nodes[0].id))
    && (forall k :: 0 <= k < |nodes| ==> nodes[k].experimentItemId == itemId)
  }

  /** The shape of a flush: one node more than there were events, the root first,
      every child under the root carrying its event unchanged and in order, and
      every node carrying the experiment item id. */
  lemma FlushedShape(counter: nat, itemId: string, events: seq<Event>)
    ensures var nodes := Flushed(counter, itemId, events);
      && |nodes| == 1 + |events|
      && nodes[0] == Node(counter + 1, itemId, None, Root)
      && (forall k :: 0 <= k < |events| ==> nodes[k + 1].event == events[k])
      && IsRootedTree(nodes, itemId)
  {
    var nodes := Flushed(counter, itemId, events);
    var children := Children(counter + 1, itemId, events);
    ChildrenAt(counter + 1, itemId, events);
    assert forall k :: 1 <= k < |nodes| ==> nodes[k] == children[k - 1];
  }

  /** The ids of one flush are the consecutive values counter + 1, ..., counter + 1 + |events|. */
  lemma FlushedIds(counter: nat, itemId: string, events: seq<Event>)
    ensures var nodes := Flushed(counter, itemId, events);
      forall k :: 0 <= k < |nodes| ==> nodes[k].id == counter + 1 + k
  {
    ChildrenAt(counter + 1, itemId, events);
  }

  /** Only children have a parent: the root is the one node without one. */
  lemma FlushedSingleRoot(counter: nat, itemId: string, events: seq<Event>, k: nat)
    requires k < 1 + |events|
    ensures Flushed(counter, itemId, events)[k].parentId == None <==> k == 0
  {
    FlushedShape(counter, itemId, events);
  }

  /** The scenario of logging two events before a flush on a fresh counter:
      the ids are 1, 2 and 3, and both children hang under node 1. */
  lemma FlushedTwoEvents(itemId: string, e1: Event, e2: Event)
    ensures Flushed(0, itemId, [e1, e2])
         == [Node(1, itemId, None, Root), Node(2, itemId, Some(1), e1), Node(3, itemId, Some(1), e2)]
  {
    ChildrenAt(1, itemId, [e1, e2]);
  }

  /** The ids of a sequence of nodes. */
  function Ids(nodes: seq<Node>): (ids: seq<int>)
    ensures |ids| == |nodes|
  {
    seq(|nodes|, k requires 0 <= k < |nodes| => nodes[k].id)
  }

  predicate StrictlyIncreasing(s: seq<int>)
  {
    forall i, j :: 0 <= i < j < |s| ==> s[i] < s[j]
  }

  /** Appending a flush's ids to ids that all stay at or below the old counter keeps
      the ids strictly increasing, and puts them all at or below the new counter. */
  lemma AppendFlushedIds(earlier: seq<int>, counter: nat, itemId: string, events: seq<Event>)
    requires StrictlyIncreasing(earlier)
    requires forall i :: 0 <= i < |earlier| ==> 1 <= earlier[i] <= counter
    ensures var all := earlier + Ids(Flushed(counter, itemId, events));
      && StrictlyIncreasing(all)
      && forall i :: 0 <= i < |all| ==> 1 <= all[i] <= counter + 1 + |events|
  {
    FlushedShape(counter, itemId, events);
    FlushedIds(counter, itemId, events);
    var added := Ids(Flushed(counter, itemId, events));
    var all := earlier + added;
    forall i, j | 0 <= i < j < |all| ensures all[i] < all[j] {
      if j >= |earlier| {
        assert all[j] == counter + 1 + (j - |earlier|);
        if i >= |earlier| {
          assert all[i] == counter + 1 + (i - |earlier|);
        }
      }
    }
    forall i | 0 <= i < |all| ensures 1 <= all[i] <= counter + 1 + |events| {
      if i >= |earlier| {
        assert all[i] == counter + 1 + (i - |earlier|);
      }
    }
  }
}

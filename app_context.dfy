/** The state updaters of the application context: each takes the previous
    state and returns the next one. Also the built-in seed and the hydration
    rule for the state the main process sends at startup. */
module AppContext {
  import opened MindTypes
  import opened GraphTable
  import opened Invariants
  import opened SeqUtil

  const SeedRootNodeId := "lorenzo"
  const NewTopicTitle := "Nuovo Argomento"
  const NewTopicColor := "#ffffff"
  const NodeKind := "custom"

  /** `graphs[currentGraphId]`. */
  function CurrentGraph(s: AppState): (g: Option<Graph>)
    ensures g.Some? <==> s.currentGraphId in Keys(s.graphs)
  {
    Find(s.graphs, s.currentGraphId)
  }

  /** The edges pointing at `id`, in order. */
  function ParentEdges(edges: seq<Edge>, id: string): (r: seq<Edge>)
    ensures forall e :: e in r <==> e in edges && e.target == id
  {
    Filter(edges, (e: Edge) => e.target == id)
  }

  /** Each edge into `id` is kept as many times as it occurs in `edges`. */
  lemma ParentEdgesCount(edges: seq<Edge>, id: string)
    ensures forall e ::
              multiset(ParentEdges(edges, id))[e] == (if e.target == id then multiset(edges)[e] else 0)
  {
    FilterCount(edges, (e: Edge) => e.target == id);
  }

  /** `edges.some(edge => edge.target === id)`. */
  predicate HasParent(edges: seq<Edge>, id: string)
  {
    exists e :: e in edges && e.target == id
  }

  // ---------------------------------------------------------------- seed

  function SeedData(title: string, color: string): (r: NodeData)
  {
    NodeData(title, None, Some(color), None, None, None)
  }

  function SeedGraph(rootGraphId: string): (r: Graph)
  {
    Graph(
      rootGraphId,
      [ Node(SeedRootNodeId, Position(0.0, 0.0), SeedData("Lorenzo", "#ffc658"), NodeKind),
        Node("musica", Position(-200.0, 150.0), SeedData("\U{1F3B5} Musica", "#82c9ff"), NodeKind),
        Node("sviluppo", Position(0.0, 150.0), SeedData("\U{1F4BB} Sviluppo", "#95ff82"), NodeKind),
        Node("personale", Position(200.0, 150.0), SeedData("\U{1F464} Personale", "#ff8282"), NodeKind) ],
      [ Edge("e-lorenzo-musica", SeedRootNodeId, "musica"),
        Edge("e-lorenzo-sviluppo", SeedRootNodeId, "sviluppo"),
        Edge("e-lorenzo-personale", SeedRootNodeId, "personale") ],
      Some(SeedRootNodeId))
  }

  /** The built-in state; `rootGraphId` is the uuid minted when the module loads. */
  function Seed(rootGraphId: string): (r: AppState)
  {
    AppState([Entry(rootGraphId, SeedGraph(rootGraphId))], rootGraphId, [rootGraphId])
  }

  /** The seed starts at its only graph, rooted at 'lorenzo', whose three
      children each have exactly one parent edge, from the root. */
  lemma SeedFacts(rootGraphId: string)
    ensures Consistent(Seed(rootGraphId))
    ensures Seed(rootGraphId).history == [rootGraphId]
    ensures Seed(rootGraphId).currentGraphId == rootGraphId
    ensures CurrentGraph(Seed(rootGraphId)) == Some(SeedGraph(rootGraphId))
    ensures SeedGraph(rootGraphId).rootNodeId == Some(SeedRootNodeId)
    ensures forall c :: c in ["musica", "sviluppo", "personale"] ==>
      var p := ParentEdges(SeedGraph(rootGraphId).edges, c);
      |p| == 1 && p[0].source == SeedRootNodeId
  {
    var es := SeedGraph(rootGraphId).edges;
    assert es == [es[0]] + [es[1]] + [es[2]];
    forall c | c in ["musica", "sviluppo", "personale"]
      ensures |ParentEdges(es, c)| == 1 && ParentEdges(es, c)[0].source == SeedRootNodeId
    {
      FilterAppend([es[0]] + [es[1]], [es[2]], (e: Edge) => e.target == c);
      FilterAppend([es[0]], [es[1]], (e: Edge) => e.target == c);
    }
  }

  // ----------------------------------------------------------- hydration

  /** The `graphs` field of a parsed JSON document: missing (absent or
      `null`), a falsy primitive (`0`, `""`, `false`), or an object, whose
      own keys in order form the record. */
  datatype GraphsField = Missing | FalsyPrimitive | Record(entries: seq<Entry>)

  /** The part of a parsed JSON document the renderer looks at. */
  datatype Payload = Payload(graphs: GraphsField, currentGraphId: string, history: seq<string>)

  /** The state the main process hands over when no saved file could be read. */
  const MainFallback := Payload(Record([]), "", [])

  /** `data && data.graphs`: the document's `graphs` is truthy. */
  predicate HasGraphs(p: Option<Payload>)
  {
    p.Some? && p.value.graphs.Record?
  }

  /** `Object.keys(data.graphs)` does not throw: `graphs` is neither absent
      nor `null`. */
  predicate Loadable(p: Option<Payload>)
  {
    p.Some? && !p.value.graphs.Missing?
  }

  /** The payload taken as the state, as it is. A falsy primitive `graphs`
      holds no own keys, so it reads and spreads as the empty record. */
  function Adopt(p: Payload): (r: AppState)
    requires !p.graphs.Missing?
    ensures p.graphs.Record? ==> r.graphs == p.graphs.entries
    ensures p.graphs.FalsyPrimitive? ==> r.graphs == []
    ensures r.currentGraphId == p.currentGraphId && r.history == p.history
  {
    AppState(if p.graphs.Record? then p.graphs.entries else [], p.currentGraphId, p.history)
  }

  /** Startup hydration: any payload with a truthy `graphs` is adopted without
      further checks; anything else yields the seed, which is consistent. */
  function Hydrate(initial: Option<Payload>, rootGraphId: string): (r: AppState)
    ensures HasGraphs(initial) ==> r == Adopt(initial.value)
    ensures !HasGraphs(initial) ==> r == Seed(rootGraphId) && Consistent(r)
  {
    if HasGraphs(initial) then Adopt(initial.value)
    else SeedFacts(rootGraphId); Seed(rootGraphId)
  }

  /** The main process's fallback passes the hydration rule, and the state it
      produces breaks the navigation invariant: the history is empty and the
      current graph is missing. */
  lemma MainFallbackAdopted(rootGraphId: string)
    ensures Hydrate(Some(MainFallback), rootGraphId) == AppState([], "", [])
    ensures !WellFormed(Hydrate(Some(MainFallback), rootGraphId))
    ensures CurrentGraph(Hydrate(Some(MainFallback), rootGraphId)).None?
  {
  }

  // ---------------------------------------------------------- navigation

  /** Enter `graphId`: a no-op for an unknown graph or for the graph already
      at the end of the history; otherwise it is pushed and becomes current. */
  function NavigateToGraph(s: AppState, graphId: string): (r: AppState)
    ensures r.graphs == s.graphs
    ensures r != s <==> graphId in Keys(s.graphs) && !(|s.history| > 0 && s.history[|s.history| - 1] == graphId)
    ensures r != s ==> r.currentGraphId == graphId && r.history == s.history + [graphId]
    ensures WellFormed(s) ==> WellFormed(r)
  {
    if Find(s.graphs, graphId).None? then s
    else if |s.history| > 0 && s.history[|s.history| - 1] == graphId then s
    else s.(currentGraphId := graphId, history := s.history + [graphId])
  }

  /** The length `history.slice(0, end)` keeps: a negative end counts from the back. */
  function SliceEnd(len: nat, end: int): (n: nat)
    ensures n <= len
    ensures 0 <= end ==> n == if end < len then end else len
    ensures end < 0 ==> n == if len + end < 0 then 0 else len + end
  {
    if end < 0 then (if len + end < 0 then 0 else len + end)
    else if end < len then end
    else len
  }

  /** Jump back to history entry `index`: the history is cut to
      `slice(0, index + 1)` and the current graph becomes its last entry,
      unless that entry is missing or empty, in which case nothing changes. */
  function NavigateToHistory(s: AppState, index: int): (r: AppState)
    ensures r.graphs == s.graphs
    ensures r.history <= s.history
    ensures r != s ==> |r.history| == SliceEnd(|s.history|, index + 1)
    ensures r != s ==> |r.history| > 0 && r.currentGraphId == r.history[|r.history| - 1] != ""
    ensures 0 <= index < |s.history| && s.history[index] != "" ==>
      r.history == s.history[..index + 1] && r.currentGraphId == s.history[index]
    ensures var n := SliceEnd(|s.history|, index + 1);
      n > 0 && s.history[n - 1] != "" ==> r.history == s.history[..n] && r.currentGraphId == s.history[n - 1]
    ensures var n := SliceEnd(|s.history|, index + 1);
      (n == 0 || s.history[n - 1] == "") ==> r == s
    ensures WellFormed(s) ==> WellFormed(r)
  {
    var h := s.history[..SliceEnd(|s.history|, index + 1)];
    if h == [] || h[|h| - 1] == "" then s
    else s.(currentGraphId := h[|h| - 1], history := h)
  }

  /** Re-selecting the current history position changes nothing. */
  lemma NavigateToLastIsNoOp(s: AppState)
    requires WellFormed(s)
    ensures NavigateToHistory(s, |s.history| - 1) == s
  {
    assert s.history[..|s.history|] == s.history;
  }

  // ----------------------------------------------------------- mutations

  /** The node added by "Aggiungi Argomento". */
  function NewTopic(id: string): (r: Node)
  {
    Node(id, Position(0.0, 0.0), NodeData(NewTopicTitle, None, Some(NewTopicColor), None, None, None), NodeKind)
  }

  /** `id` already names a node, an edge end or the root of `g`. */
  predicate IdInUse(g: Graph, id: string)
  {
    || (exists n :: n in g.nodes && n.id == id)
    || (exists e :: e in g.edges && (e.source == id || e.target == id))
    || g.rootNodeId == Some(id)
  }

  /** The graph after adding a new topic below its root. */
  function WithNewTopic(g: Graph, newId: string): (r: Graph)
    requires g.rootNodeId.Some?
  {
    var root := g.rootNodeId.value;
    g.(nodes := g.nodes + [NewTopic(newId)],
       edges := g.edges + [Edge("e-" + root + "-" + newId, root, newId)])
  }

  /** Add a topic to the current graph, linked from its root. `newId` is the
      uuid the source mints; the source dereferences the current graph without
      a guard, hence the first precondition. */
  function AddNodeAndEdge(s: AppState, newId: string): (r: AppState)
    requires s.currentGraphId in Keys(s.graphs)
    requires !IdInUse(CurrentGraph(s).value, newId)
    ensures !Truthy(CurrentGraph(s).value.rootNodeId) ==> r == s
    ensures Truthy(CurrentGraph(s).value.rootNodeId) ==>
      && OnlyCurrentGraphChanged(s, r)
      && CurrentGraph(r) == Some(WithNewTopic(CurrentGraph(s).value, newId))
    ensures Consistent(s) ==> Consistent(r)
  {
    var g := CurrentGraph(s).value;
    if !Truthy(g.rootNodeId) then s
    else
      var g' := WithNewTopic(g, newId);
      NewTopicKeepsParents(g, newId);
      ReplaceCurrent(s, g');
      s.(graphs := Put(s.graphs, s.currentGraphId, g'))
  }

  /** The new topic keeps the parent rules and has exactly one parent edge,
      from the root; the graph gains exactly one node and one edge. */
  lemma {:induction false} NewTopicKeepsParents(g: Graph, newId: string)
    requires g.rootNodeId.Some?
    requires !IdInUse(g, newId)
    ensures ParentsOk(g) ==> ParentsOk(WithNewTopic(g, newId))
    ensures ParentEdges(WithNewTopic(g, newId).edges, newId) == [Edge("e-" + g.rootNodeId.value + "-" + newId, g.rootNodeId.value, newId)]
    ensures |WithNewTopic(g, newId).nodes| == |g.nodes| + 1
    ensures |WithNewTopic(g, newId).edges| == |g.edges| + 1
  {
    var root := g.rootNodeId.value;
    var e := Edge("e-" + root + "-" + newId, root, newId);
    FilterAppend(g.edges, [e], (x: Edge) => x.target == newId);
    assert ParentEdges(g.edges, newId) == [] by {
      var none := ParentEdges(g.edges, newId);
      assert forall x :: x !in none;
    }
    if ParentsOk(g) {
      var es := g.edges + [e];
      forall i, j | 0 <= i < j < |es| ensures es[i].target != es[j].target {
        if j == |es| - 1 {
          assert es[i] in g.edges;
        }
      }
    }
  }

  /** `nodes.map(n => n.id === id ? {...n, data: {...n.data, ...patch}} : n)`. */
  function PatchNodes(nodes: seq<Node>, id: string, patch: DataPatch): (r: seq<Node>)
    ensures |r| == |nodes|
    ensures forall i :: 0 <= i < |nodes| ==>
      r[i].id == nodes[i].id && r[i].position == nodes[i].position && r[i].nodeType == nodes[i].nodeType
    ensures forall i :: 0 <= i < |nodes| && nodes[i].id != id ==> r[i] == nodes[i]
    ensures forall i :: 0 <= i < |nodes| && nodes[i].id == id ==> r[i].data == Merge(nodes[i].data, patch)
  {
    seq(|nodes|, i requires 0 <= i < |nodes| =>
      if nodes[i].id == id then nodes[i].(data := Merge(nodes[i].data, patch)) else nodes[i])
  }

  /** Merge `patch` into the data of the node `nodeId` of the current graph;
      nothing else changes, and a missing current graph makes it a no-op. */
  function UpdateNodeData(s: AppState, nodeId: string, patch: DataPatch): (r: AppState)
    ensures CurrentGraph(s).None? ==> r == s
    ensures CurrentGraph(s).Some? ==>
      && OnlyCurrentGraphChanged(s, r)
      && CurrentGraph(r) == Some(CurrentGraph(s).value.(nodes := PatchNodes(CurrentGraph(s).value.nodes, nodeId, patch)))
    ensures Consistent(s) ==> Consistent(r)
  {
    match CurrentGraph(s)
    case None => s
    case Some(g) =>
      var g' := g.(nodes := PatchNodes(g.nodes, nodeId, patch));
      ReplaceCurrent(s, g');
      s.(graphs := Put(s.graphs, s.currentGraphId, g'))
  }

  /** A connection request from the canvas. */
  datatype Connection = Connection(source: string, target: string)

  /** Whether the current graph accepts the connection: it exists, has a
      root, the target is not the root and has no parent yet. */
  predicate Accepts(s: AppState, c: Connection)
  {
    && CurrentGraph(s).Some?
    && Truthy(CurrentGraph(s).value.rootNodeId)
    && Some(c.target) != CurrentGraph(s).value.rootNodeId
    && !HasParent(CurrentGraph(s).value.edges, c.target)
  }

  /** Draw an edge; `edgeId` is the id the flow library gives the new edge.
      The edge is added exactly when the graph accepts it. */
  function OnConnect(s: AppState, c: Connection, edgeId: string): (r: AppState)
    ensures !Accepts(s, c) ==> r == s
    ensures Accepts(s, c) ==>
      && r != s
      && OnlyCurrentGraphChanged(s, r)
      && CurrentGraph(r) == Some(CurrentGraph(s).value.(edges := CurrentGraph(s).value.edges + [Edge(edgeId, c.source, c.target)]))
    ensures Consistent(s) ==> Consistent(r)
  {
    if !Accepts(s, c) then s
    else
      var g := CurrentGraph(s).value;
      var g' := g.(edges := g.edges + [Edge(edgeId, c.source, c.target)]);
      ConnectKeepsParents(g, c, edgeId);
      ReplaceCurrent(s, g');
      assert |CurrentGraph(s.(graphs := Put(s.graphs, s.currentGraphId, g'))).value.edges| == |g.edges| + 1;
      s.(graphs := Put(s.graphs, s.currentGraphId, g'))
  }

  lemma {:induction false} ConnectKeepsParents(g: Graph, c: Connection, edgeId: string)
    requires Some(c.target) != g.rootNodeId
    requires !HasParent(g.edges, c.target)
    ensures ParentsOk(g) ==> ParentsOk(g.(edges := g.edges + [Edge(edgeId, c.source, c.target)]))
  {
    var es := g.edges + [Edge(edgeId, c.source, c.target)];
    if ParentsOk(g) {
      forall i, j | 0 <= i < j < |es| ensures es[i].target != es[j].target {
        if j == |es| - 1 {
          assert es[i] in g.edges;
        }
      }
    }
  }

  /** No edge into the root is ever added, whatever its source. */
  lemma ConnectToRootRejected(s: AppState, source: string, edgeId: string)
    requires CurrentGraph(s).Some? && CurrentGraph(s).value.rootNodeId.Some?
    ensures OnConnect(s, Connection(source, CurrentGraph(s).value.rootNodeId.value), edgeId) == s
  {
  }

  /** Once a node has a parent, a second connection into it changes nothing. */
  lemma {:induction false} SecondParentRejected(s: AppState, a: string, c: string, b: string, id1: string, id2: string)
    ensures var s1 := OnConnect(s, Connection(a, b), id1);
      OnConnect(s1, Connection(c, b), id2) == s1
  {
    var s1 := OnConnect(s, Connection(a, b), id1);
    if Accepts(s, Connection(a, b)) {
      var g1 := CurrentGraph(s1).value;
      assert g1.edges[|g1.edges| - 1].target == b;
      assert HasParent(g1.edges, b);
    }
  }

  /** Remove the nodes whose ids are listed, and every edge touching one. */
  function DeleteFromGraph(g: Graph, deleted: seq<string>): (r: Graph)
    ensures forall n :: n in r.nodes <==> n in g.nodes && n.id !in deleted
    ensures forall e :: e in r.edges <==> e in g.edges && e.source !in deleted && e.target !in deleted
    ensures IsSubsequence(r.nodes, g.nodes) && IsSubsequence(r.edges, g.edges)
    ensures r.id == g.id && r.rootNodeId == g.rootNodeId
    ensures ParentsOk(g) ==> ParentsOk(r)
  {
    var r := g.(nodes := Filter(g.nodes, (n: Node) => n.id !in deleted),
                edges := Filter(g.edges, (e: Edge) => e.source !in deleted && e.target !in deleted));
    DeleteKeepsParents(g, r);
    r
  }

  lemma DeleteKeepsParents(g: Graph, r: Graph)
    requires IsSubsequence(r.edges, g.edges) && r.rootNodeId == g.rootNodeId
    ensures ParentsOk(g) ==> ParentsOk(r)
  {
    if ParentsOk(g) {
      SubsequenceKeepsDistinct(r.edges, g.edges, (e: Edge) => e.target);
      SubsequenceMembers(r.edges, g.edges);
    }
  }

  /** Deletion keeps every surviving node and edge as many times as it
      occurred, so duplicates are neither merged nor dropped. */
  lemma DeleteCounts(g: Graph, deleted: seq<string>)
    ensures forall n ::
              multiset(DeleteFromGraph(g, deleted).nodes)[n] == (if n.id !in deleted then multiset(g.nodes)[n] else 0)
    ensures forall e ::
              multiset(DeleteFromGraph(g, deleted).edges)[e] ==
              (if e.source !in deleted && e.target !in deleted then multiset(g.edges)[e] else 0)
  {
    FilterCount(g.nodes, (n: Node) => n.id !in deleted);
    FilterCount(g.edges, (e: Edge) => e.source !in deleted && e.target !in deleted);
  }

  /** Delete nodes from the current graph; a missing current graph makes it a no-op. */
  function OnNodesDelete(s: AppState, deleted: seq<string>): (r: AppState)
    ensures CurrentGraph(s).None? ==> r == s
    ensures CurrentGraph(s).Some? ==>
      && OnlyCurrentGraphChanged(s, r)
      && CurrentGraph(r) == Some(DeleteFromGraph(CurrentGraph(s).value, deleted))
    ensures Consistent(s) ==> Consistent(r)
  {
    match CurrentGraph(s)
    case None => s
    case Some(g) =>
      var g' := DeleteFromGraph(g, deleted);
      ReplaceCurrent(s, g');
      s.(graphs := Put(s.graphs, s.currentGraphId, g'))
  }
}

/** The canvas handlers: a double-click on a portal enters its subgraph, a
    double-click on a leaf promotes it into a portal of a fresh one-node
    graph and enters that; a selection change picks the selected node. */
module GraphView {
  import opened MindTypes
  import opened GraphTable
  import opened Invariants
  import opened AppContext

  /** The id the promoted node's copy gets as root of the new graph. */
  function SubRootId(nodeId: string): (r: string)
  {
    "sub-root-" + nodeId
  }

  /** The graph a leaf is promoted into: a copy of the node, without its
      subgraph reference, as the only node and the root, and no edges. */
  function Subgraph(node: Node, newId: string): (g: Graph)
    ensures g.id == newId && |g.nodes| == 1 && g.edges == []
    ensures g.nodes[0].id == SubRootId(node.id) && g.rootNodeId == Some(g.nodes[0].id)
    ensures g.nodes[0].position == node.position && g.nodes[0].nodeType == node.nodeType
    ensures g.nodes[0].data == Merge(node.data, SubgraphPatch(None))
    ensures g.nodes[0].data.subgraphId.None?
    ensures ParentsOk(g)
  {
    var root := node.(id := SubRootId(node.id), data := Merge(node.data, SubgraphPatch(None)));
    Graph(newId, [root], [], Some(root.id))
  }

  /** Leaf promotion as one state update: the current graph's node `node.id`
      gains the reference to `newId`, the new graph is stored under `newId`,
      and `newId` is entered. */
  function Promote(s: AppState, node: Node, newId: string): (r: AppState)
    requires s.currentGraphId in Keys(s.graphs)
    requires newId !in Keys(s.graphs)
    ensures Find(r.graphs, newId) == Some(Subgraph(node, newId))
    ensures Find(r.graphs, s.currentGraphId) ==
      Some(CurrentGraph(s).value.(nodes := PatchNodes(CurrentGraph(s).value.nodes, node.id, SubgraphPatch(Some(newId)))))
    ensures forall k :: k != s.currentGraphId && k != newId ==> Find(r.graphs, k) == Find(s.graphs, k)
    ensures Keys(r.graphs) == Keys(s.graphs) + [newId]
    ensures r.currentGraphId == newId && r.history == s.history + [newId]
    ensures Consistent(s) ==> Consistent(r)
  {
    PromotedGraphsFacts(s, node, newId);
    AppState(PromotedGraphs(s, node, newId), newId, s.history + [newId])
  }

  /** `{...graphs, [currentGraphId]: updatedCurrentGraph, [newId]: newGraph}`. */
  function PromotedGraphs(s: AppState, node: Node, newId: string): (r: seq<Entry>)
    requires s.currentGraphId in Keys(s.graphs)
  {
    var g := CurrentGraph(s).value;
    var g' := g.(nodes := PatchNodes(g.nodes, node.id, SubgraphPatch(Some(newId))));
    Put(Put(s.graphs, s.currentGraphId, g'), newId, Subgraph(node, newId))
  }

  lemma PromotedGraphsFacts(s: AppState, node: Node, newId: string)
    requires s.currentGraphId in Keys(s.graphs)
    requires newId !in Keys(s.graphs)
    ensures var t := PromotedGraphs(s, node, newId);
      var g := CurrentGraph(s).value;
      && Find(t, newId) == Some(Subgraph(node, newId))
      && Find(t, s.currentGraphId) == Some(g.(nodes := PatchNodes(g.nodes, node.id, SubgraphPatch(Some(newId)))))
      && (forall k :: k != s.currentGraphId && k != newId ==> Find(t, k) == Find(s.graphs, k))
      && Keys(t) == Keys(s.graphs) + [newId]
    ensures Consistent(s) ==> Consistent(AppState(PromotedGraphs(s, node, newId), newId, s.history + [newId]))
  {
    var g := CurrentGraph(s).value;
    var g' := g.(nodes := PatchNodes(g.nodes, node.id, SubgraphPatch(Some(newId))));
    var s' := s.(graphs := Put(s.graphs, s.currentGraphId, g'));
    ReplaceCurrent(s, g');
    var sub := Subgraph(node, newId);
    assert newId !in Keys(s'.graphs);
    var t := Put(s'.graphs, newId, sub);
    assert t == PromotedGraphs(s, node, newId);
    assert t == s'.graphs + [Entry(newId, sub)];
    KeysAppend(s'.graphs, Entry(newId, sub));
    assert Keys(s'.graphs) == Keys(s.graphs);
    forall k ensures Find(t, k) == if k == newId then Some(sub) else Find(s'.graphs, k) {
      PutFind(s'.graphs, newId, sub, k);
    }
    if Consistent(s) {
      PromotedConsistent(s, s', g, g', newId, sub);
    }
  }

  lemma PromotedConsistent(s: AppState, s': AppState, g: Graph, g': Graph, newId: string, sub: Graph)
    requires Consistent(s) && CurrentGraph(s) == Some(g)
    requires g'.edges == g.edges && g'.rootNodeId == g.rootNodeId
    requires s' == s.(graphs := Put(s.graphs, s.currentGraphId, g'))
    requires newId !in Keys(s'.graphs) && ParentsOk(sub)
    ensures Consistent(AppState(Put(s'.graphs, newId, sub), newId, s.history + [newId]))
  {
    assert Entry(s.currentGraphId, g) in s.graphs;
    assert ParentsOk(g');
    ReplaceCurrent(s, g');
    assert Consistent(s');
    var t := Put(s'.graphs, newId, sub);
    PutUnique(s'.graphs, newId, sub);
    assert t == s'.graphs + [Entry(newId, sub)];
    KeysAppend(s'.graphs, Entry(newId, sub));
  }

  /** The double-click handler. `newId` is the uuid the handler mints. */
  function HandleNodeDoubleClick(s: AppState, node: Node, newId: string): (r: AppState)
    requires newId !in Keys(s.graphs)
    ensures CurrentGraph(s).None? ==> r == s
    ensures CurrentGraph(s).Some? && Some(node.id) == CurrentGraph(s).value.rootNodeId ==> r == s
    ensures CurrentGraph(s).Some? && Some(node.id) != CurrentGraph(s).value.rootNodeId ==>
      if Truthy(node.data.subgraphId) then r == NavigateToGraph(s, node.data.subgraphId.value)
      else r == Promote(s, node, newId)
    ensures Consistent(s) ==> Consistent(r)
  {
    match CurrentGraph(s)
    case None => s
    case Some(g) =>
      if Some(node.id) == g.rootNodeId then s
      else if Truthy(node.data.subgraphId) then NavigateToGraph(s, node.data.subgraphId.value)
      else Promote(s, node, newId)
  }

  /** Promotion goes only from leaf to portal: after promoting a leaf and
      returning to the graph it lives in, the same node carries the reference
      to the new graph, and double-clicking it enters that graph instead of
      promoting it again. */
  lemma {:induction false} PromotedNodeIsPortal(s: AppState, node: Node, newId: string, laterId: string)
    requires |s.history| > 0 && s.history[|s.history| - 1] == s.currentGraphId != ""
    requires s.currentGraphId in Keys(s.graphs) && newId != ""
    requires node in CurrentGraph(s).value.nodes
    requires Some(node.id) != CurrentGraph(s).value.rootNodeId
    requires !Truthy(node.data.subgraphId)
    requires newId !in Keys(s.graphs)
    ensures var s1 := HandleNodeDoubleClick(s, node, newId);
      var s2 := NavigateToHistory(s1, |s.history| - 1);
      var portal := node.(data := Merge(node.data, SubgraphPatch(Some(newId))));
      && s2.currentGraphId == s.currentGraphId && s2.history == s.history
      && portal in CurrentGraph(s2).value.nodes
      && portal.data.subgraphId == Some(newId)
      && (laterId !in Keys(s2.graphs) ==>
            && HandleNodeDoubleClick(s2, portal, laterId) == NavigateToGraph(s2, newId)
            && HandleNodeDoubleClick(s2, portal, laterId).currentGraphId == newId)
  {
    var g := CurrentGraph(s).value;
    var s1 := Promote(s, node, newId);
    assert HandleNodeDoubleClick(s, node, newId) == s1;
    var n := |s.history|;
    var h1 := s1.history;
    assert h1 == s.history + [newId];
    assert h1[..n] == s.history;
    assert h1[n - 1] == s.currentGraphId;
    var s2 := NavigateToHistory(s1, n - 1);
    assert s2 == s1.(currentGraphId := s.currentGraphId, history := s.history);
    var portal := node.(data := Merge(node.data, SubgraphPatch(Some(newId))));
    var i :| 0 <= i < |g.nodes| && g.nodes[i] == node;
    var nodes' := PatchNodes(g.nodes, node.id, SubgraphPatch(Some(newId)));
    assert nodes'[i] == portal;
    assert CurrentGraph(s2) == Some(g.(nodes := nodes'));
    assert portal in CurrentGraph(s2).value.nodes;
  }

  /** The selected node is the first of the selection, if there is one. */
  function SelectedNodeId(selection: seq<Node>): (r: Option<string>)
    ensures r.None? <==> selection == []
    ensures r.Some? ==> r.value == selection[0].id
  {
    if |selection| > 0 then Some(selection[0].id) else None
  }
}

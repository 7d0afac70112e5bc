/** Any sequence of the workspace updaters (navigation, breadcrumb and back
    jumps, adding, editing, connecting and deleting nodes, double-clicks)
    keeps the workspace consistent: the history ends at the current graph,
    names only known graphs, and no graph gains a second parent for a node
    or a parent for its root. */
module Session {
  import opened MindTypes
  import opened GraphTable
  import opened Invariants
  import opened AppContext
  import GraphView

  /** One user intent, with the fresh ids the source mints for it. */
  datatype Intent =
    | EnterGraph(graphId: string)
    | JumpToHistory(index: int)
    | AddTopic(newId: string)
    | EditNode(nodeId: string, patch: DataPatch)
    | Connect(connection: Connection, edgeId: string)
    | DeleteNodes(deleted: seq<string>)
    | DoubleClick(node: Node, newSubgraphId: string)

  /** The minted ids are fresh, and the current graph exists where the
      source dereferences it unguarded. */
  predicate Enabled(s: AppState, i: Intent)
  {
    match i
    case AddTopic(newId) =>
      s.currentGraphId in Keys(s.graphs) && !IdInUse(CurrentGraph(s).value, newId)
    case DoubleClick(_, newSubgraphId) => newSubgraphId !in Keys(s.graphs)
    case _ => true
  }

  function Step(s: AppState, i: Intent): (r: AppState)
    requires Enabled(s, i)
    ensures Consistent(s) ==> Consistent(r)
  {
    match i
    case EnterGraph(g) => NavigateToGraph(s, g)
    case JumpToHistory(index) => NavigateToHistory(s, index)
    case AddTopic(newId) => AddNodeAndEdge(s, newId)
    case EditNode(nodeId, patch) => UpdateNodeData(s, nodeId, patch)
    case Connect(c, edgeId) => OnConnect(s, c, edgeId)
    case DeleteNodes(deleted) => OnNodesDelete(s, deleted)
    case DoubleClick(node, newSubgraphId) => GraphView.HandleNodeDoubleClick(s, node, newSubgraphId)
  }

  /** Every intent of the run is enabled in the state it meets. */
  predicate Admissible(s: AppState, run: seq<Intent>)
    decreases |run|
  {
    run == [] || (Enabled(s, run[0]) && Admissible(Step(s, run[0]), run[1..]))
  }

  function Run(s: AppState, run: seq<Intent>): (r: AppState)
    requires Admissible(s, run)
    decreases |run|
  {
    if run == [] then s else Run(Step(s, run[0]), run[1..])
  }

  lemma {:induction false} RunKeepsConsistent(s: AppState, run: seq<Intent>)
    requires Consistent(s) && Admissible(s, run)
    ensures Consistent(Run(s, run))
    decreases |run|
  {
    if run != [] {
      var s' := Step(s, run[0]);
      assert Consistent(s');
      RunKeepsConsistent(s', run[1..]);
    }
  }

  /** A run from a consistent state, such as the seed (`SeedFacts`), keeps a
      non-empty history that ends at the current graph. */
  lemma RunKeepsHistory(s: AppState, run: seq<Intent>)
    requires Consistent(s) && Admissible(s, run)
    ensures var h := Run(s, run).history;
      |h| >= 1 && h[|h| - 1] == Run(s, run).currentGraphId
  {
    RunKeepsConsistent(s, run);
  }
}

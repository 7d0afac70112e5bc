/** The structural invariants the workspace is meant to keep: the history
    stack ends at the current graph and names only known graphs, and in every
    graph the root has no parent and no node has two parents. */
module Invariants {
  import opened MindTypes
  import opened GraphTable

  /** The root, if declared, is never the target of an edge. */
  predicate RootHasNoParent(g: Graph)
  {
    g.rootNodeId.Some? ==> forall e :: e in g.edges ==> e.target != g.rootNodeId.value
  }

  /** No two edges share a target: every node has at most one incoming edge. */
  predicate SingleParent(g: Graph)
  {
    forall i, j :: 0 <= i < j < |g.edges| ==> g.edges[i].target != g.edges[j].target
  }

  predicate ParentsOk(g: Graph)
  {
    RootHasNoParent(g) && SingleParent(g)
  }

  predicate AllGraphsOk(t: seq<Entry>)
  {
    forall e :: e in t ==> ParentsOk(e.graph)
  }

  /** The navigation invariant: a non-empty history whose last entry is the
      current graph, every entry a known graph, and a record with distinct keys. */
  predicate WellFormed(s: AppState)
  {
    && |s.history| >= 1
    && s.history[|s.history| - 1] == s.currentGraphId
    && (forall x :: x in s.history ==> x in Keys(s.graphs))
    && UniqueKeys(s.graphs)
  }

  predicate Consistent(s: AppState)
  {
    WellFormed(s) && AllGraphsOk(s.graphs)
  }

  /** `r` differs from `s` at most in the graph stored under the current id. */
  ghost predicate OnlyCurrentGraphChanged(s: AppState, r: AppState)
  {
    && r.currentGraphId == s.currentGraphId
    && r.history == s.history
    && Keys(r.graphs) == Keys(s.graphs)
    && (forall k :: k != s.currentGraphId ==> Find(r.graphs, k) == Find(s.graphs, k))
  }

  /** Replacing the current graph by one that keeps the parent rules keeps the
      whole state consistent, and changes nothing outside the current graph. */
  lemma {:induction false} ReplaceCurrent(s: AppState, g: Graph)
    requires s.currentGraphId in Keys(s.graphs)
    ensures OnlyCurrentGraphChanged(s, s.(graphs := Put(s.graphs, s.currentGraphId, g)))
    ensures Find(Put(s.graphs, s.currentGraphId, g), s.currentGraphId) == Some(g)
    ensures Consistent(s) && ParentsOk(g) ==> Consistent(s.(graphs := Put(s.graphs, s.currentGraphId, g)))
  {
    var t := Put(s.graphs, s.currentGraphId, g);
    PutShape(s.graphs, s.currentGraphId, g);
    forall k ensures Find(t, k) == if k == s.currentGraphId then Some(g) else Find(s.graphs, k) {
      PutFind(s.graphs, s.currentGraphId, g, k);
    }
    if UniqueKeys(s.graphs) {
      PutUnique(s.graphs, s.currentGraphId, g);
    }
  }
}

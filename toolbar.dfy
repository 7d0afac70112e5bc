/** The toolbar: breadcrumb titles, the Back button, breadcrumb jumps and
    loading a saved file. */
module Toolbar {
  import opened MindTypes
  import opened Invariants
  import opened AppContext

  const HomeTitle := "Home"
  const UnknownTitle := "Sconosciuto"

  /** Node `n` is a portal into `graphId`. */
  predicate Refers(n: Node, graphId: string)
  {
    n.data.subgraphId == Some(graphId)
  }

  predicate NoReferrer(nodes: seq<Node>, graphId: string)
  {
    forall n :: n in nodes ==> !Refers(n, graphId)
  }

  /** The position of the first node referring to `graphId`, or `|nodes|`. */
  function FirstReferrer(nodes: seq<Node>, graphId: string): (k: nat)
    ensures k <= |nodes|
    ensures forall j :: 0 <= j < k ==> !Refers(nodes[j], graphId)
    ensures k < |nodes| ==> Refers(nodes[k], graphId)
    ensures k == |nodes| <==> NoReferrer(nodes, graphId)
  {
    if nodes == [] then 0
    else if Refers(nodes[0], graphId) then 0
    else 1 + FirstReferrer(nodes[1..], graphId)
  }

  /** The position of the first graph, in iteration order, holding a node
      that refers to `graphId`, or `|graphs|`. */
  function FirstReferringGraph(graphs: seq<Entry>, graphId: string): (i: nat)
    ensures i <= |graphs|
    ensures forall k :: 0 <= k < i ==> NoReferrer(graphs[k].graph.nodes, graphId)
    ensures i < |graphs| ==> !NoReferrer(graphs[i].graph.nodes, graphId)
  {
    if graphs == [] then 0
    else if !NoReferrer(graphs[0].graph.nodes, graphId) then 0
    else 1 + FirstReferringGraph(graphs[1..], graphId)
  }

  /** No node of any graph refers to `graphId`. */
  predicate Unreferenced(graphs: seq<Entry>, graphId: string)
  {
    forall e :: e in graphs ==> NoReferrer(e.graph.nodes, graphId)
  }

  /** The breadcrumb label of `graphId`: 'Home' for the first history entry,
      otherwise the title of the first portal into it (graphs and nodes
      scanned in order), otherwise 'Sconosciuto'. */
  function GraphTitle(s: AppState, graphId: string): (title: string)
    ensures |s.history| > 0 && graphId == s.history[0] ==> title == HomeTitle
    ensures !(|s.history| > 0 && graphId == s.history[0]) && Unreferenced(s.graphs, graphId) ==>
      title == UnknownTitle
    ensures !(|s.history| > 0 && graphId == s.history[0]) && !Unreferenced(s.graphs, graphId) ==>
      exists i, j :: 0 <= i < |s.graphs| && 0 <= j < |s.graphs[i].graph.nodes|
        && Refers(s.graphs[i].graph.nodes[j], graphId)
        && title == s.graphs[i].graph.nodes[j].data.title
        && (forall k :: 0 <= k < i ==> NoReferrer(s.graphs[k].graph.nodes, graphId))
        && (forall k :: 0 <= k < j ==> !Refers(s.graphs[i].graph.nodes[k], graphId))
  {
    if |s.history| > 0 && graphId == s.history[0] then HomeTitle
    else
      var i := FirstReferringGraph(s.graphs, graphId);
      if i == |s.graphs| then
        assert Unreferenced(s.graphs, graphId) by {
          forall e | e in s.graphs ensures NoReferrer(e.graph.nodes, graphId) {
            var k :| 0 <= k < |s.graphs| && s.graphs[k] == e;
          }
        }
        UnknownTitle
      else
        var nodes := s.graphs[i].graph.nodes;
        var j := FirstReferrer(nodes, graphId);
        assert !Unreferenced(s.graphs, graphId) by {
          assert s.graphs[i] in s.graphs;
        }
        nodes[j].data.title
  }

  /** The Back button is enabled only with more than one history entry. */
  predicate BackEnabled(s: AppState)
  {
    |s.history| > 1
  }

  /** Back: jump to the second-to-last history entry. With a single entry
      this asks for index -1, which changes nothing. */
  function HandleBack(s: AppState): (r: AppState)
    ensures WellFormed(s) && !BackEnabled(s) ==> r == s
    ensures |s.history| >= 2 && s.history[|s.history| - 2] != "" ==>
      r.history == s.history[..|s.history| - 1] && r.currentGraphId == s.history[|s.history| - 2]
    ensures r.graphs == s.graphs
    ensures WellFormed(s) ==> WellFormed(r)
  {
    NavigateToHistory(s, |s.history| - 2)
  }

  /** Breadcrumb button `index` is disabled on the last entry. */
  predicate BreadcrumbEnabled(s: AppState, index: nat)
  {
    index != |s.history| - 1
  }

  /** Breadcrumb button `index` cuts the history after `index` and enters
      that graph. */
  function HandleBreadcrumb(s: AppState, index: nat): (r: AppState)
    requires index < |s.history|
    ensures s.history[index] != "" ==>
      r.history == s.history[..index + 1] && r.currentGraphId == s.history[index]
    ensures s.history[index] != "" && BreadcrumbEnabled(s, index) ==> r != s
    ensures WellFormed(s) ==> WellFormed(r)
  {
    NavigateToHistory(s, index)
  }

  /** The one disabled breadcrumb is the one that would change nothing. */
  lemma DisabledBreadcrumbIsNoOp(s: AppState, index: nat)
    requires WellFormed(s) && index < |s.history|
    requires !BreadcrumbEnabled(s, index)
    ensures HandleBreadcrumb(s, index) == s
  {
    NavigateToLastIsNoOp(s);
  }

  /** A file was read: once `Object.keys(loaded.graphs)` has not thrown,
      the document replaces the whole state, even when `graphs` is a falsy
      primitive; a parse error or a missing or `null` `graphs` leaves the
      state as it is. */
  function HandleDataLoaded(s: AppState, parsed: Option<Payload>): (r: AppState)
    ensures Loadable(parsed) ==> r == Adopt(parsed.value)
    ensures !Loadable(parsed) ==> r == s
  {
    if Loadable(parsed) then Adopt(parsed.value) else s
  }

  /** Loading never merges: the loaded state does not depend on the state it
      replaces, and a loaded file is taken without any check, so a payload
      such as the main process's fallback yields a state with no current graph. */
  lemma LoadReplacesWholesale(s1: AppState, s2: AppState, parsed: Option<Payload>)
    ensures Loadable(parsed) ==> HandleDataLoaded(s1, parsed) == HandleDataLoaded(s2, parsed)
    ensures Consistent(s1) ==> !WellFormed(HandleDataLoaded(s1, Some(MainFallback)))
  {
  }

  /** Loading a file and startup hydration agree on documents whose `graphs`
      is an object. They disagree on a falsy primitive `graphs`: the load
      adopts it as an empty record, while hydration falls back to the seed.
      On the rest a failed load keeps the current state, while a failed
      hydration falls back to the seed. */
  lemma LoadAgreesWithHydrate(s: AppState, parsed: Option<Payload>, rootGraphId: string)
    ensures HasGraphs(parsed) ==> HandleDataLoaded(s, parsed) == Hydrate(parsed, rootGraphId)
    ensures parsed.Some? && parsed.value.graphs.FalsyPrimitive? ==>
      && HandleDataLoaded(s, parsed) == AppState([], parsed.value.currentGraphId, parsed.value.history)
      && Hydrate(parsed, rootGraphId) == Seed(rootGraphId)
      && HandleDataLoaded(s, parsed) != Hydrate(parsed, rootGraphId)
    ensures !Loadable(parsed) ==>
      HandleDataLoaded(s, parsed) == s && Hydrate(parsed, rootGraphId) == Seed(rootGraphId)
  {
  }
}

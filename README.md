# Mind-map workspace state model

A Dafny model of the workspace state of the map-io mind-map renderer. The
workspace is a record of graphs keyed by graph id, a current graph id and a
navigation history. Each graph holds nodes, edges and an optional root node.
A node whose data carries a `subgraphId` is a portal into another graph.

The model covers:

- the state updaters of the application context: `navigateToGraph`,
  `navigateToHistory`, `addNodeAndEdge`, `updateNodeData`, `onConnect` and
  `onNodesDelete`, each a function from the previous state to the next one;
- the built-in seed and the startup hydration rule;
- the provider that owns the state cell and the autosave debounce: a class
  with a single pending-write slot and a logical clock;
- the canvas double-click: entering a portal, or promoting a leaf into a
  portal of a new one-node graph;
- the selection handler;
- the toolbar: breadcrumb titles, Back, breadcrumb jumps, and loading a file.

Modules, one per file: `MindTypes` (types.dfy), `GraphTable` (the `graphs`
record as an insertion-ordered key/graph list), `SeqUtil` (`filter`),
`Invariants`, `AppContext`, `Provider`, `GraphView`, `Toolbar` and `Session`.
`Session` runs any sequence of updaters and proves the invariants survive it.

The invariants are stated in `Invariants`:

- the history is non-empty and ends at the current graph;
- every history entry names a stored graph;
- graph keys are distinct;
- no edge targets a graph's root;
- no two edges share a target.

Every updater, and the double-click, preserves them, for graph ids that are
not names inherited from `Object.prototype` (see `GraphTable.Find` below). Hydration and file
loading do not. They take any document that has a `graphs` object; a file
load also takes one whose `graphs` is a falsy primitive. This includes the main process's fallback `{graphs:{}, currentGraphId:'', history:[]}`,
and the model proves that the resulting state breaks the invariant.

JavaScript details are modelled explicitly:

- Truthiness: an empty `rootNodeId`, `subgraphId` or history entry is falsy
  and is treated as absent.
- `slice` with a negative end counts from the back.
- A spread with a new key appends it to the record.
- `{...a, ...b}` on node data is `Merge` with a `DataPatch`. A patch key that
  is present overwrites the old value, even with `undefined`.

The uuids minted for a new topic and for a new subgraph are parameters with
freshness preconditions. The seed's root graph id and the id the flow library
gives a new edge are parameters without constraints.

Some facts about the program that the model keeps:

- The seed's root node is `lorenzo`.
- Adding a topic always uses the fixed title and colour and always links the
  new node from the root.
- A history index past the end is clamped.
- Loaded and hydrated states are not checked for a valid current graph.

## Model

| member | source | states |
|---|---|---|
| `MindTypes.Merge` | src/renderer/src/context/AppContext.tsx:208 | a key present in the patch replaces the field; an absent key keeps the old value |
| `MindTypes.MergeNoChange` | src/renderer/src/context/AppContext.tsx:208 | spreading the empty patch `{}` leaves the node data as it was |
| `MindTypes.MergeIdempotent` | src/renderer/src/context/AppContext.tsx:208 | applying the same patch twice equals applying it once |
| `MindTypes.MergeThen` | src/renderer/src/context/AppContext.tsx:208 | two merges in turn equal one merge with the later patch winning key by key |
| `GraphTable.Find` | src/renderer/src/context/AppContext.tsx:140 | lookup finds a graph exactly when the key is in the record, and the pair is stored there; with distinct keys it is the graph stored under that key |
| `GraphTable.Put` | src/renderer/src/context/AppContext.tsx:192-195 | a new key is appended at the end of the record |
| `GraphTable.PutFind` | src/renderer/src/context/AppContext.tsx:192-195 | after the spread, the key holds the new graph and every other key holds what it held |
| `GraphTable.PutShape` | src/renderer/src/context/AppContext.tsx:192-195 | overwriting an existing key keeps the keys and their order; entries are old ones or the new pair |
| `GraphTable.PutUnique` | src/renderer/src/context/AppContext.tsx:192-195 | the spread keeps the record's keys distinct |
| `GraphTable.KeysAppend` | src/renderer/src/components/GraphView/index.tsx:71-75 | a key added at the end comes last in iteration order |
| `SeqUtil.Filter` | src/renderer/src/context/AppContext.tsx:292-299 | an element survives if and only if it passes, and the survivors keep their original relative order |
| `SeqUtil.FilterCount` | src/renderer/src/context/AppContext.tsx:292-299 | an element that passes survives as many times as it occurs; one that fails is gone |
| `SeqUtil.FilterAppend` | src/renderer/src/context/AppContext.tsx:295-299 | filtering a concatenation is the concatenation of the filtered parts |
| `SeqUtil.SubsequenceKeepsDistinct` | src/renderer/src/context/AppContext.tsx:295-299 | dropping edges keeps distinct targets distinct |
| `Invariants.ReplaceCurrent` | src/renderer/src/context/AppContext.tsx:213-218 | storing a new current graph changes nothing outside it, and keeps the state consistent if the new graph keeps the parent rules |
| `AppContext.CurrentGraph` | src/renderer/src/context/AppContext.tsx:168 | the current graph exists exactly when its id is a key of the record |
| `AppContext.ParentEdges` | src/renderer/src/context/AppContext.tsx:268-270 | an edge is listed if and only if it points at the given node |
| `AppContext.ParentEdgesCount` | src/renderer/src/context/AppContext.tsx:268-270 | each edge into the node is listed as many times as it occurs |
| `AppContext.SeedFacts` | src/renderer/src/context/AppContext.tsx:13-62 | the seed is consistent; history is `[rootGraphId]` and current is `rootGraphId`; the root is 'lorenzo'; each of the three children has exactly one parent edge, from 'lorenzo' |
| `AppContext.Hydrate` | src/renderer/src/context/AppContext.tsx:103-111 | a payload whose `graphs` is truthy (an object) is adopted as is; anything else, a falsy primitive `graphs` included, yields the seed, which is consistent |
| `AppContext.MainFallbackAdopted` | src/main/index.ts:50-55 | the main process's fallback passes hydration and yields a state with an empty history and no current graph, which breaks the invariant |
| `AppContext.NavigateToGraph` | src/renderer/src/context/AppContext.tsx:138-149 | state changes exactly when the graph is known and not already the last history entry; then the id is appended and becomes current; graphs untouched; the invariant is kept |
| `AppContext.NavigateToHistory` | src/renderer/src/context/AppContext.tsx:151-164 | the new history is a prefix of the old, of the sliced length, ending at the new current graph; for every index, negative or past the end, the history is cut to `slice(0, index + 1)` and its last entry becomes current when that entry exists and is non-empty, and otherwise nothing changes; the invariant is kept |
| `AppContext.NavigateToLastIsNoOp` | src/renderer/src/context/AppContext.tsx:151-164 | under the invariant, jumping to the last history index changes nothing |
| `AppContext.AddNodeAndEdge` | src/renderer/src/context/AppContext.tsx:166-198 | no-op without a truthy root; otherwise the current graph gains the new topic and one edge from the root; nothing outside the current graph changes; consistency is kept |
| `AppContext.NewTopicKeepsParents` | src/renderer/src/context/AppContext.tsx:171-188 | the new node has exactly one parent edge, from the root; one node and one edge are added; the parent rules are kept |
| `AppContext.PatchNodes` | src/renderer/src/context/AppContext.tsx:206-211 | node count, order, ids, positions and types are unchanged; only nodes with the id get merged data |
| `AppContext.UpdateNodeData` | src/renderer/src/context/AppContext.tsx:200-222 | no-op when the current graph is missing; otherwise only its node list is patched, edges and other graphs untouched; consistency is kept |
| `AppContext.OnConnect` | src/renderer/src/context/AppContext.tsx:258-285 | an edge is appended to the current graph if and only if the graph exists, has a truthy root, and the target is neither the root nor already a child; otherwise nothing changes; consistency is kept |
| `AppContext.ConnectKeepsParents` | src/renderer/src/context/AppContext.tsx:264-275 | an accepted edge keeps "root has no parent" and "one parent per node" |
| `AppContext.ConnectToRootRejected` | src/renderer/src/context/AppContext.tsx:264-266 | a connection into the root never changes the state, whatever its source |
| `AppContext.SecondParentRejected` | src/renderer/src/context/AppContext.tsx:268-273 | after connecting into a node, a second connection into it changes nothing |
| `AppContext.DeleteFromGraph` | src/renderer/src/context/AppContext.tsx:292-305 | surviving nodes are exactly those not deleted, surviving edges exactly those touching no deleted node, both in their original order; the root and parent rules are kept |
| `AppContext.DeleteCounts` | src/renderer/src/context/AppContext.tsx:292-299 | each surviving node and edge is kept as many times as it occurred; deleted nodes and their edges are gone entirely |
| `AppContext.DeleteKeepsParents` | src/renderer/src/context/AppContext.tsx:295-299 | removing edges keeps the parent rules |
| `AppContext.OnNodesDelete` | src/renderer/src/context/AppContext.tsx:287-315 | no-op when the current graph is missing; otherwise only the current graph is filtered; consistency is kept |
| `Provider.AppProvider.constructor` | src/renderer/src/context/AppContext.tsx:97-100 | the state starts as the seed, no node is selected, and the first autosave is pending |
| `Provider.AppProvider.SetState` | src/renderer/src/context/AppContext.tsx:120-136 | a change cancels the pending write and schedules the new state `DebounceMs` later; no change leaves the slot alone; the latest state is always pending or already written |
| `Provider.AppProvider.Elapse` | src/renderer/src/context/AppContext.tsx:125-129 | a pending write that falls due is sent once and the slot is emptied; after a quiet `DebounceMs` the latest state has been written |
| `Provider.AppProvider.ReceiveInitialData` | src/renderer/src/context/AppContext.tsx:103-111 | the state becomes the hydrated payload or the seed, and autosave is rescheduled |
| `Provider.AppProvider.NavigateToGraph` | src/renderer/src/context/AppContext.tsx:138-149 | the updater applied to the state cell, with autosave rescheduling |
| `Provider.AppProvider.NavigateToHistory` | src/renderer/src/context/AppContext.tsx:151-164 | the updater applied to the state cell, with autosave rescheduling |
| `Provider.AppProvider.AddNodeAndEdge` | src/renderer/src/context/AppContext.tsx:166-198 | the updater applied to the state cell, with autosave rescheduling |
| `Provider.AppProvider.UpdateNodeData` | src/renderer/src/context/AppContext.tsx:200-222 | the updater applied to the state cell, with autosave rescheduling |
| `Provider.AppProvider.OnConnect` | src/renderer/src/context/AppContext.tsx:258-285 | the updater applied to the state cell, with autosave rescheduling |
| `Provider.AppProvider.OnNodesDelete` | src/renderer/src/context/AppContext.tsx:287-315 | the updater applied to the state cell, with autosave rescheduling |
| `Provider.AppProvider.HandleNodeDoubleClick` | src/renderer/src/components/GraphView/index.tsx:41-83 | either branch is one state update, with autosave rescheduling |
| `Provider.AppProvider.OnSelectionChange` | src/renderer/src/components/GraphView/index.tsx:89-94 | only the selected node changes; the state and the pending write are untouched |
| `Provider.AppProvider.HandleDataLoaded` | src/renderer/src/components/Toolbar/index.tsx:37-51 | a document whose `graphs` is present and not `null` replaces the state; a failed one changes nothing and schedules nothing |
| `Provider.RapidEdits` | src/renderer/src/context/AppContext.tsx:119-136 | five edits 200 ms apart followed by a quiet second produce exactly one autosave, of the final state |
| `GraphView.Subgraph` | src/renderer/src/components/GraphView/index.tsx:48-59 | the new graph has one node, with id `sub-root-<id>`, the same position and type, and the same data with `subgraphId` cleared; it has no edges and that node is its root |
| `GraphView.Promote` | src/renderer/src/components/GraphView/index.tsx:46-83 | the new graph is stored under the fresh id and appended to the keys; in the current graph only the clicked node gains `subgraphId`; other graphs are unchanged; the fresh id is appended to history and becomes current; consistency is kept |
| `GraphView.PromotedGraphsFacts` | src/renderer/src/components/GraphView/index.tsx:71-75 | the double spread stores both graphs and touches no other key |
| `GraphView.PromotedConsistent` | src/renderer/src/components/GraphView/index.tsx:71-82 | the promoted state is consistent |
| `GraphView.HandleNodeDoubleClick` | src/renderer/src/components/GraphView/index.tsx:29-87 | no-op for a missing current graph or its root node; a truthy `subgraphId` only navigates; otherwise the leaf is promoted; consistency is kept |
| `GraphView.PromotedNodeIsPortal` | src/renderer/src/components/GraphView/index.tsx:41-68 | after promotion and a jump back, the node carries the new `subgraphId`, and double-clicking it navigates into that graph instead of promoting again |
| `Toolbar.FirstReferrer` | src/renderer/src/components/Toolbar/index.tsx:11 | the index of the first node whose `subgraphId` is the id, or the length if there is none |
| `Toolbar.FirstReferringGraph` | src/renderer/src/components/Toolbar/index.tsx:10-15 | the first graph, in iteration order, holding such a node |
| `Toolbar.GraphTitle` | src/renderer/src/components/Toolbar/index.tsx:7-17 | 'Home' for the first history entry; else the title of the first portal into the id, scanning graphs and then nodes in order; 'Sconosciuto' when nothing refers to it |
| `Toolbar.HandleBack` | src/renderer/src/components/Toolbar/index.tsx:22-24 | with one entry, Back is disabled and a no-op; otherwise it drops the last entry and enters the one before; the invariant is kept |
| `Toolbar.HandleBreadcrumb` | src/renderer/src/components/Toolbar/index.tsx:77-83 | button `i` cuts the history after entry `i` and enters it; an enabled button always changes the state |
| `Toolbar.DisabledBreadcrumbIsNoOp` | src/renderer/src/components/Toolbar/index.tsx:82 | the disabled button, the last one, would change nothing |
| `Toolbar.LoadAgreesWithHydrate` | src/renderer/src/components/Toolbar/index.tsx:37-51 | for a document whose `graphs` is an object, a file load and startup hydration give the same state; for a falsy primitive `graphs` they disagree: the load adopts an empty record while hydration falls back to the seed; a failed load keeps the current state, where a failed hydration falls back to the seed |
| `Toolbar.LoadReplacesWholesale` | src/renderer/src/components/Toolbar/index.tsx:37-51 | the loaded state does not depend on the state it replaces; loading the fallback document breaks the invariant |
| `Session.Step` | src/renderer/src/context/AppContext.tsx:138-315 | every updater and the double-click keep the state consistent |
| `Session.RunKeepsConsistent` | src/renderer/src/context/AppContext.tsx:138-315 | any admissible sequence of updaters keeps the state consistent |
| `Session.RunKeepsHistory` | src/renderer/src/context/AppContext.tsx:138-164 | from any consistent state, the seed included, every admissible run keeps a non-empty history that ends at the current graph |

## Left out

- `onNodesChange` and `onEdgesChange` are not modelled. They wrap the flow library's `applyNodeChanges` and `applyEdgeChanges`, which are not part of this model.
- `AppContext.OnConnect`: the flow library's `addEdge` is modelled as appending one edge with the given source and target. The edge id it generates is a parameter. Its duplicate-connection check is never reached, because a target that already has a parent is rejected first. Connection handles are not modelled. Nor are falsy ends: `addEdge` returns the edges unchanged when the source or target is null or the empty string, but the model appends the edge anyway.
- JSON parsing and serialisation are not modelled. A parsed document is a `Payload`, and a parse error is `None`. Its other fields are assumed to have the declared types. A falsy primitive `graphs` (0, '', false) is one case: a file load adopts it and hydration rejects it. Once adopted it reads and spreads as the empty record, and the model stores it as one, so an autosave would write `{}` where the program writes the primitive. A truthy primitive `graphs` (a non-empty string, a non-zero number, true) is not modelled. Unknown extra fields are dropped.
- `GraphTable.Find`: lookups see own keys only. In the program, `graphs[k]` also finds names inherited from `Object.prototype` (`constructor`, `toString`, `__proto__`, ...). A portal whose `subgraphId` is such a name passes the guard of `navigateToGraph` and pushes a missing graph onto the history, breaking the invariant. The model treats those names as absent, so the preservation results hold only for graph ids that are not inherited property names.
- JavaScript objects iterate integer-like keys first. The graph record keeps plain insertion order. Generated uuid keys are never integer-like.
- `Provider.AppProvider.SetState`: React skips the effect only when the new state is the same object. The model compares values instead. So an updater that builds a new but equal state (for example `updateNodeData` on an unknown id) re-arms the timer in the source but not in the model.
- Timers are a logical clock, and only the single pending slot is modelled. The case without `window.api` (no write), the listener cleanup on unmount and the cleanup that clears the timer are left out.
- `GraphView.HandleNodeDoubleClick`: the source guards on the graph captured at render time and updates the latest state. The model uses one state for both, as the single-threaded UI normally sees them.
- Nodes keep id, position, data and type. Other flow-library fields that `...node` copies (selection, measured size) are left out. Edges keep only id, source and target.
- `AppContext.AddNodeAndEdge`: the source throws when the current graph is missing. The model requires that the current graph exists instead of modelling the exception.
- The seed object's extra `selectedNodeId: null` key, `isSidebarOpen`, `onPaneClick`, and the render output are not modelled. So are the main process (window, dialogs, file I/O, the simulated chat handler), the preload bridge, the layout helper, the chat, sidebar, editor and icon components, and the tool schema. None of them changes the workspace state.
- Positions are reals that are only copied. No floating-point arithmetic is modelled.

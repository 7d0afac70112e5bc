/** The context provider: the one mutable state cell, the selected node, and
    the autosave debounce. Every state change cancels the pending write and
    schedules a write of the new state `DebounceMs` later; time is a logical
    clock advanced by `Elapse`, and `saved` records what the autosave channel
    has been sent. */
module Provider {
  import opened MindTypes
  import opened Invariants
  import opened AppContext
  import GraphView
  import Toolbar

  const DebounceMs: nat := 1000

  /** The one scheduled autosave: what it will write, and when. */
  datatype PendingWrite = PendingWrite(snapshot: AppState, due: nat)

  class AppProvider {
    const rootGraphId: string
    var state: AppState
    var selectedNodeId: Option<string>
    var pending: Option<PendingWrite>
    var clock: nat
    var saved: seq<AppState>

    /** The latest state is always either the pending write, due within the
        debounce window, or the last state written. */
    ghost predicate Valid()
      reads this
    {
      && (pending.Some? ==>
            pending.value.snapshot == state && clock < pending.value.due <= clock + DebounceMs)
      && (pending.None? ==> saved != [] && saved[|saved| - 1] == state)
    }

    /** What one `setState` leaves behind: a changed state replaces the pending
        write by one of the new state; an unchanged one leaves it alone. */
    ghost predicate Scheduled(prevState: AppState, prevPending: Option<PendingWrite>, prevClock: nat, prevSaved: seq<AppState>)
      reads this
    {
      && clock == prevClock
      && saved == prevSaved
      && (state != prevState ==> pending == Some(PendingWrite(state, clock + DebounceMs)))
      && (state == prevState ==> pending == prevPending)
    }

    /** Mounting: the seed is the state and its first autosave is scheduled. */
    constructor (rootGraphId: string)
      ensures Valid()
      ensures this.rootGraphId == rootGraphId
      ensures state == Seed(rootGraphId) && selectedNodeId == None
      ensures pending == Some(PendingWrite(state, DebounceMs)) && clock == 0 && saved == []
    {
      this.rootGraphId := rootGraphId;
      state := Seed(rootGraphId);
      selectedNodeId := None;
      pending := Some(PendingWrite(Seed(rootGraphId), DebounceMs));
      clock := 0;
      saved := [];
    }

    /** `setState(next)` and the autosave effect that follows a change. */
    method SetState(next: AppState)
      requires Valid()
      modifies this
      ensures Valid()
      ensures state == next && selectedNodeId == old(selectedNodeId)
      ensures Scheduled(old(state), old(pending), old(clock), old(saved))
    {
      if next != state {
        state := next;
        pending := Some(PendingWrite(next, clock + DebounceMs));
      }
    }

    /** Time passes; a write that falls due is sent and the slot emptied. */
    method Elapse(ms: nat)
      requires Valid()
      modifies this
      ensures Valid()
      ensures state == old(state) && selectedNodeId == old(selectedNodeId)
      ensures clock == old(clock) + ms
      ensures old(pending).Some? && old(pending).value.due <= clock ==>
        pending.None? && saved == old(saved) + [old(pending).value.snapshot]
      ensures !(old(pending).Some? && old(pending).value.due <= clock) ==>
        pending == old(pending) && saved == old(saved)
      ensures ms >= DebounceMs ==> pending.None? && saved[|saved| - 1] == state
    {
      clock := clock + ms;
      if pending.Some? && pending.value.due <= clock {
        saved := saved + [pending.value.snapshot];
        pending := None;
      }
    }

    /** The startup payload from the main process. */
    method ReceiveInitialData(initial: Option<Payload>)
      requires Valid()
      modifies this
      ensures Valid()
      ensures state == Hydrate(initial, rootGraphId) && selectedNodeId == old(selectedNodeId)
      ensures Scheduled(old(state), old(pending), old(clock), old(saved))
    {
      SetState(Hydrate(initial, rootGraphId));
    }

    method NavigateToGraph(graphId: string)
      requires Valid()
      modifies this
      ensures Valid()
      ensures state == AppContext.NavigateToGraph(old(state), graphId) && selectedNodeId == old(selectedNodeId)
      ensures Scheduled(old(state), old(pending), old(clock), old(saved))
    {
      SetState(AppContext.NavigateToGraph(state, graphId));
    }

    method NavigateToHistory(index: int)
      requires Valid()
      modifies this
      ensures Valid()
      ensures state == AppContext.NavigateToHistory(old(state), index) && selectedNodeId == old(selectedNodeId)
      ensures Scheduled(old(state), old(pending), old(clock), old(saved))
    {
      SetState(AppContext.NavigateToHistory(state, index));
    }

    method AddNodeAndEdge(newId: string)
      requires Valid()
      requires state.currentGraphId in GraphTable.Keys(state.graphs)
      requires !IdInUse(CurrentGraph(state).value, newId)
      modifies this
      ensures Valid()
      ensures state == AppContext.AddNodeAndEdge(old(state), newId) && selectedNodeId == old(selectedNodeId)
      ensures Scheduled(old(state), old(pending), old(clock), old(saved))
    {
      SetState(AppContext.AddNodeAndEdge(state, newId));
    }

    method UpdateNodeData(nodeId: string, patch: DataPatch)
      requires Valid()
      modifies this
      ensures Valid()
      ensures state == AppContext.UpdateNodeData(old(state), nodeId, patch) && selectedNodeId == old(selectedNodeId)
      ensures Scheduled(old(state), old(pending), old(clock), old(saved))
    {
      SetState(AppContext.UpdateNodeData(state, nodeId, patch));
    }

    method OnConnect(c: Connection, edgeId: string)
      requires Valid()
      modifies this
      ensures Valid()
      ensures state == AppContext.OnConnect(old(state), c, edgeId) && selectedNodeId == old(selectedNodeId)
      ensures Scheduled(old(state), old(pending), old(clock), old(saved))
    {
      SetState(AppContext.OnConnect(state, c, edgeId));
    }

    method OnNodesDelete(deleted: seq<string>)
      requires Valid()
      modifies this
      ensures Valid()
      ensures state == AppContext.OnNodesDelete(old(state), deleted) && selectedNodeId == old(selectedNodeId)
      ensures Scheduled(old(state), old(pending), old(clock), old(saved))
    {
      SetState(AppContext.OnNodesDelete(state, deleted));
    }

    /** The canvas double-click; either branch is a single `setState`. */
    method HandleNodeDoubleClick(node: Node, newId: string)
      requires Valid()
      requires newId !in GraphTable.Keys(state.graphs)
      modifies this
      ensures Valid()
      ensures state == GraphView.HandleNodeDoubleClick(old(state), node, newId) && selectedNodeId == old(selectedNodeId)
      ensures Scheduled(old(state), old(pending), old(clock), old(saved))
    {
      SetState(GraphView.HandleNodeDoubleClick(state, node, newId));
    }

    /** The canvas selection changed; the workspace state is not touched. */
    method OnSelectionChange(selection: seq<Node>)
      requires Valid()
      modifies this
      ensures Valid()
      ensures selectedNodeId == GraphView.SelectedNodeId(selection)
      ensures state == old(state) && pending == old(pending) && clock == old(clock) && saved == old(saved)
    {
      selectedNodeId := GraphView.SelectedNodeId(selection);
    }

    /** A file was loaded through the toolbar. */
    method HandleDataLoaded(parsed: Option<Payload>)
      requires Valid()
      modifies this
      ensures Valid()
      ensures state == Toolbar.HandleDataLoaded(old(state), parsed) && selectedNodeId == old(selectedNodeId)
      ensures Scheduled(old(state), old(pending), old(clock), old(saved))
    {
      if Loadable(parsed) {
        SetState(Toolbar.HandleDataLoaded(state, parsed));
      }
    }
  }

  /** Five edits 200 ms apart, then a quiet second: the autosave channel
      receives exactly one write, of the state after the last edit. */
  method RapidEdits(rootGraphId: string, nodeId: string, patches: seq<DataPatch>)
    returns (written: seq<AppState>, last: AppState)
    requires |patches| == 5
    ensures written == [last]
    ensures last == UpdateNodeData(UpdateNodeData(UpdateNodeData(UpdateNodeData(UpdateNodeData(
      Seed(rootGraphId), nodeId, patches[0]), nodeId, patches[1]), nodeId, patches[2]), nodeId, patches[3]), nodeId, patches[4])
  {
    var p := new AppProvider(rootGraphId);
    p.UpdateNodeData(nodeId, patches[0]);
    p.Elapse(200);
    p.UpdateNodeData(nodeId, patches[1]);
    p.Elapse(200);
    p.UpdateNodeData(nodeId, patches[2]);
    p.Elapse(200);
    p.UpdateNodeData(nodeId, patches[3]);
    p.Elapse(200);
    p.UpdateNodeData(nodeId, patches[4]);
    p.Elapse(DebounceMs);
    written, last := p.saved, p.state;
  }
}

/** Returns dependents stopped by an upstream failure to pending. */
module DependentReleases {
  import opened Graphs
  import opened GraphServices
  import opened Runs

  predicate NeedsHumanWithoutAgent(run: Run, id: NodeId)
  {
    IsIn(run, id, NEEDS_HUMAN) && id !in run.agents
  }

  /** The node never started and its latest audit note says that an upstream node stopped it. */
  predicate IsReleasable(graph: Graph, run: Run, id: NodeId)
  {
    && NeedsHumanWithoutAgent(run, id)
    && var note := LatestNote(run.audits, id);
       note.Some? && note.value.UpstreamStopped? && note.value.upstream in Ids(graph)
  }

  /** The dependents to return to pending, in the order the store finds them. */
  ghost function ToRelease(graph: Graph, run: Run, id: NodeId): seq<NodeId>
  {
    Found(run.order, set d | d in DescendantIds(graph, id) && IsReleasable(graph, run, d))
  }

  function ReturnedToPending(run: Run, ids: seq<NodeId>, now: int): (r: Run)
    ensures r.rows.Keys == run.rows.Keys && r.order == run.order && r.agents == run.agents
    ensures forall id :: id in run.rows && id !in ids ==> r.rows[id] == run.rows[id]
    ensures forall id :: id in run.rows && id in ids ==> r.rows[id].state == PENDING
  {
    if ids == [] then run
    else Recorded(ReturnedToPending(run, ids[..|ids| - 1], now), ids[|ids| - 1], PENDING, UpstreamSkipped, now)
  }

  ghost function Released(graph: Graph, run: Run, id: NodeId, now: int): Run
  {
    ReturnedToPending(run, ToRelease(graph, run, id), now)
  }

  class DependentReleaseService {
    const store: RunStore
    const graph: Graph

    constructor (store: RunStore, graph: Graph)
      ensures this.store == store && this.graph == graph
    {
      this.store, this.graph := store, graph;
    }

    /** Returns unstarted dependents to pending after an upstream node restarts or is skipped. */
    method Release(id: NodeId, now: int) returns (released: seq<NodeId>)
      modifies store
      ensures released == ToRelease(graph, old(store.State()), id)
      ensures store.State() == Released(graph, old(store.State()), id, now)
    {
      var descendants := GetDescendants(graph, id);
      NodesWithIdsHaveIds(graph, DescendantIds(graph, id));
      released := GetStoppedNodes(Ids(descendants));
      for i := 0 to |released|
        invariant store.State() == ReturnedToPending(old(store.State()), released[..i], now)
      {
        assert released[..i + 1][..i] == released[..i];
        store.Record(released[i], PENDING, UpstreamSkipped, now);
      }
      assert released[..|released|] == released;
    }

    method GetStoppedNodes(descendants: set<NodeId>) returns (stopped: seq<NodeId>)
      ensures stopped == Found(store.order, set d | d in descendants && IsReleasable(graph, store.State(), d))
    {
      var order := store.order;
      ghost var releasable := set d | d in descendants && IsReleasable(graph, store.State(), d);
      stopped := [];
      for i := 0 to |order|
        invariant stopped + Found(order[i..], releasable) == Found(order, releasable)
      {
        var d := order[i];
        assert order[i..][1..] == order[i + 1..];
        if d in descendants && d in store.rows && store.rows[d].state == NEEDS_HUMAN && d !in store.agents {
          var note := LatestNote(store.audits, d);
          if note.Some? && note.value.UpstreamStopped? && note.value.upstream in Ids(graph) {
            assert stopped + ([d] + Found(order[i + 1..], releasable))
                == (stopped + [d]) + Found(order[i + 1..], releasable);
            stopped := stopped + [d];
          }
        }
      }
    }
  }
}

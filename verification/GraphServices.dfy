/**
 The graph queries of a run and the cycle check of `validate`: worklist loops over
 a declared graph, each proved to compute the reachability notion it stands for.
 */
module GraphServices {
  import opened Graphs
  import opened Options

  datatype Executor = Claude | Codex

  /** One declared node. `pr` is the pull request a node takes over, if any. */
  datatype GraphNode = GraphNode(
    id: NodeId,
    dependsOn: seq<NodeId>,
    cooldownSeconds: nat,
    executor: Option<Executor>,
    isAdopted: bool,
    recoveryAttemptsAllowed: int)

  type Graph = seq<GraphNode>

  function Ids(graph: Graph): set<NodeId>
  {
    set n | n in graph :: n.id
  }

  /** The node an id names; the last declaration wins, as in a dictionary built in order. */
  function Lookup(graph: Graph, id: NodeId): (r: Option<GraphNode>)
    ensures r.Some? <==> id in Ids(graph)
    ensures r.Some? ==> r.value in graph && r.value.id == id
  {
    if graph == [] then None
    else if graph[|graph| - 1].id == id then Some(graph[|graph| - 1])
    else
      assert graph == graph[..|graph| - 1] + [graph[|graph| - 1]];
      Lookup(graph[..|graph| - 1], id)
  }

  /** The first declaration of an id. */
  function FirstDeclared(graph: Graph, id: NodeId): (r: Option<GraphNode>)
    ensures r.Some? <==> id in Ids(graph)
    ensures r.Some? ==> r.value in graph && r.value.id == id
  {
    if graph == [] then None
    else
      assert graph == [graph[0]] + graph[1..];
      if graph[0].id == id then Some(graph[0]) else FirstDeclared(graph[1..], id)
  }

  function Known(graph: Graph, ids: seq<NodeId>): (r: seq<NodeId>)
    ensures forall d :: d in r <==> d in ids && d in Ids(graph)
  {
    if ids == [] then []
    else if ids[0] in Ids(graph) then [ids[0]] + Known(graph, ids[1..])
    else Known(graph, ids[1..])
  }

  /** The nodes this one directly depends on. */
  function GetDependencies(graph: Graph, id: NodeId): seq<NodeId>
  {
    match Lookup(graph, id)
    case None => []
    case Some(node) => Known(graph, node.dependsOn)
  }

  /** The dependency edges of the graph, as `GetDependencies` reads them. */
  ghost function EdgesOf(graph: Graph): Edges
  {
    set x, y | x in Ids(graph) && y in GetDependencies(graph, x) :: (x, y)
  }

  /** Every declared edge, also one that leads to a node the graph never declares. */
  ghost function DeclaredEdges(graph: Graph): Edges
  {
    set n, y | n in graph && y in n.dependsOn :: (n.id, y)
  }

  lemma EdgesAreDeclared(graph: Graph)
    ensures EdgesOf(graph) <= DeclaredEdges(graph)
  {
    forall e | e in EdgesOf(graph) ensures e in DeclaredEdges(graph) {
      var node := Lookup(graph, e.0).value;
      assert node in graph && e.1 in node.dependsOn;
    }
  }

  lemma DependenciesAreEdges(graph: Graph, id: NodeId)
    ensures forall d :: d in GetDependencies(graph, id) <==> (id, d) in EdgesOf(graph)
  {
  }

  /** The declared nodes with these ids, in graph order. */
  function NodesWithIds(graph: Graph, ids: set<NodeId>): (r: seq<GraphNode>)
    ensures forall n :: n in r <==> n in graph && n.id in ids
  {
    if graph == [] then []
    else if graph[0].id in ids then [graph[0]] + NodesWithIds(graph[1..], ids)
    else NodesWithIds(graph[1..], ids)
  }

  lemma NodesWithIdsHaveIds(graph: Graph, ids: set<NodeId>)
    requires ids <= Ids(graph)
    ensures Ids(NodesWithIds(graph, ids)) == ids
  {
    forall id | id in ids ensures id in Ids(NodesWithIds(graph, ids)) {
      var n :| n in graph && n.id == id;
    }
  }

  /** What the node waits for, with each skipped node replaced by its own dependencies. */
  ghost function EffectiveIds(graph: Graph, skipped: set<NodeId>, id: NodeId): set<NodeId>
  {
    EffectiveSet(EdgesOf(graph), skipped, id)
  }

  lemma EffectiveIdsAreDeclared(graph: Graph, skipped: set<NodeId>, id: NodeId)
    ensures EffectiveIds(graph, skipped, id) <= Ids(graph) - skipped
  {
    forall e | e in EdgesOf(graph) ensures e.0 in Ids(graph) && e.1 in Ids(graph) {
    }
  }

  /** The nodes that depend on this one, directly or through another. */
  ghost function DescendantIds(graph: Graph, id: NodeId): set<NodeId>
  {
    set m | m in Ids(graph) && DependsOn(DeclaredEdges(graph), m, id)
  }

  /**
   The effective dependencies of a node, by a worklist that resolves each id once.
   Exact on every graph and every set of skipped nodes, cycles included.
   */
  method GetEffectiveDependencies(graph: Graph, id: NodeId, skipped: set<NodeId>)
    returns (dependencies: seq<GraphNode>)
    ensures dependencies == NodesWithIds(graph, EffectiveIds(graph, skipped, id))
  {
    ghost var edges := EdgesOf(graph);
    var effective: set<NodeId> := {};
    var resolved: set<NodeId> := {};
    var frontier := GetDependencies(graph, id);
    DependenciesAreEdges(graph, id);
    forall d | d in frontier ensures Through(edges, skipped, id, d) {
      EdgeIsWalk(edges, skipped, id, d);
    }
    while frontier != []
      invariant resolved <= Ids(graph) && effective == resolved - skipped
      invariant forall d :: d in frontier ==> d in Ids(graph) && Through(edges, skipped, id, d)
      invariant forall d :: d in resolved ==> Through(edges, skipped, id, d)
      invariant forall e :: e in edges && e.0 == id ==> e.1 in resolved || e.1 in frontier
      invariant forall e :: e in edges && e.0 in resolved && e.0 in skipped ==> e.1 in resolved || e.1 in frontier
      decreases Ids(graph) - resolved, |frontier|
    {
      var dependency := frontier[|frontier| - 1];
      ghost var popped := frontier;
      frontier := frontier[..|frontier| - 1];
      assert forall d :: d in popped <==> d in frontier || d == dependency by {
        assert popped == frontier + [dependency];
      }
      if dependency in resolved {
        continue;
      }
      resolved := resolved + {dependency};
      if dependency !in skipped {
        effective := effective + {dependency};
        continue;
      }
      var inherited := GetDependencies(graph, dependency);
      DependenciesAreEdges(graph, dependency);
      forall d | d in inherited ensures Through(edges, skipped, id, d) {
        EdgeIsWalk(edges, skipped, dependency, d);
        Transitive(edges, skipped, id, dependency, d);
      }
      frontier := frontier + inherited;
    }
    forall d ensures d in effective <==> d in EffectiveIds(graph, skipped, id) {
      EffectiveSetIsEffective(edges, skipped, id, d);
      if Effective(edges, skipped, id, d) {
        var p :| Via(edges, skipped, id, p, d);
        ClosedUnderWalks(edges, skipped, resolved, id, p, d);
      }
    }
    assert effective == EffectiveIds(graph, skipped, id);
    dependencies := NodesWithIds(graph, effective);
  }

  lemma {:induction false} ClosedBackwards(edges: Edges, closed: set<NodeId>, x: NodeId, p: seq<NodeId>, y: NodeId)
    requires Via(edges, Nodes(edges), x, p, y)
    requires forall e :: e in edges && (e.1 in closed || e.1 == y) ==> e.0 in closed
    ensures x in closed
    decreases |p|
  {
    if p == [] {
      assert (x, y) in edges;
    } else {
      ClosedBackwards(edges, closed, p[0], p[1..], y);
      assert (x, p[0]) in edges;
    }
  }

  /** Adds the direct dependents of `current` that are not yet found to the worklist. */
  method VisitDependents(graph: Graph, current: NodeId, found: set<NodeId>, frontier: seq<NodeId>)
    returns (found': set<NodeId>, frontier': seq<NodeId>)
    ensures forall m :: m in found' <==> m in found || (m, current) in DeclaredEdges(graph)
    ensures forall m :: m in frontier' <==> m in frontier || (m in found' && m !in found)
    ensures found' == found ==> frontier' == frontier
  {
    found', frontier' := found, frontier;
    for i := 0 to |graph|
      invariant found <= found' && (found' == found ==> frontier' == frontier)
      invariant forall m :: m in found' ==> m in found || (m, current) in DeclaredEdges(graph)
      invariant forall m :: m in frontier' <==> m in frontier || (m in found' && m !in found)
      invariant forall k :: 0 <= k < i && current in graph[k].dependsOn ==> graph[k].id in found'
    {
      var node := graph[i];
      if current in node.dependsOn && node.id !in found' {
        assert (node.id, current) in DeclaredEdges(graph);
        found' := found' + {node.id};
        frontier' := frontier' + [node.id];
      }
    }
    forall m | (m, current) in DeclaredEdges(graph) ensures m in found' {
      var n :| n in graph && n.id == m && current in n.dependsOn;
    }
  }

  /** Nodes found so far all depend on `id`, and only dependents of the frontier are still missing. */
  ghost predicate DescendantsSoFar(edges: Edges, id: NodeId, found: set<NodeId>, frontier: seq<NodeId>)
  {
    && (forall m :: m in found ==> DependsOn(edges, m, id))
    && (forall m :: m in frontier ==> m in found || m == id)
    && (forall e :: e in edges && (e.1 in found || e.1 == id) && e.1 !in frontier ==> e.0 in found)
  }

  lemma DescendantsAdvance(edges: Edges, id: NodeId, found: set<NodeId>, frontier: seq<NodeId>,
                           found': set<NodeId>, frontier': seq<NodeId>)
    requires frontier != [] && DescendantsSoFar(edges, id, found, frontier)
    requires forall m :: m in found' <==> m in found || (m, frontier[|frontier| - 1]) in edges
    requires forall m :: m in frontier' <==> m in frontier[..|frontier| - 1] || (m in found' && m !in found)
    ensures DescendantsSoFar(edges, id, found', frontier')
  {
    var current := frontier[|frontier| - 1];
    assert forall d :: d in frontier <==> d in frontier[..|frontier| - 1] || d == current by {
      assert frontier == frontier[..|frontier| - 1] + [current];
    }
    forall m | m in found' ensures DependsOn(edges, m, id) {
      if m !in found {
        assert (m, current).0 in Nodes(edges) && (m, current).1 in Nodes(edges);
        if current == id {
          EdgeIsWalk(edges, Nodes(edges), m, id);
        } else {
          Prepend(edges, Nodes(edges), m, current, id);
        }
      }
    }
  }

  /** Every node that depends on this one, by a worklist over the whole graph. Exact on every graph. */
  method GetDescendants(graph: Graph, id: NodeId) returns (descendants: seq<GraphNode>)
    ensures descendants == NodesWithIds(graph, DescendantIds(graph, id))
  {
    ghost var edges := DeclaredEdges(graph);
    var found: set<NodeId> := {};
    var frontier := [id];
    while frontier != []
      invariant found <= Ids(graph) && DescendantsSoFar(edges, id, found, frontier)
      decreases Ids(graph) - found, |frontier|
    {
      var found', frontier' := VisitDependents(graph, frontier[|frontier| - 1], found, frontier[..|frontier| - 1]);
      DescendantsAdvance(edges, id, found, frontier, found', frontier');
      forall m | m in found' && m !in found ensures m in Ids(graph) {
        assert (m, frontier[|frontier| - 1]) in edges;
      }
      assert found' != found ==> Ids(graph) - found' < Ids(graph) - found;
      found, frontier := found', frontier';
    }
    forall m ensures m in found <==> m in DescendantIds(graph, id) {
      if DependsOn(edges, m, id) {
        var p :| Via(edges, Nodes(edges), m, p, id);
        ClosedBackwards(edges, found, m, p, id);
      }
    }
    assert found == DescendantIds(graph, id);
    descendants := NodesWithIds(graph, found);
  }

  /** Whatever a node waits for, however much is skipped, counts it among its descendants. */
  lemma EffectiveMakesDescendant(graph: Graph, skipped: set<NodeId>, m: NodeId, a: NodeId)
    requires a in EffectiveIds(graph, skipped, m)
    ensures m in DescendantIds(graph, a)
  {
    var edges, declared := EdgesOf(graph), DeclaredEdges(graph);
    EffectiveSetIsEffective(edges, skipped, m, a);
    EdgesAreDeclared(graph);
    Monotone(edges, skipped, declared, Nodes(declared) + skipped, m, a);
    Monotone(declared, Nodes(declared) + skipped, declared, Nodes(declared), m, a);
    var p :| Via(edges, skipped, m, p, a);
    var first := if p == [] then a else p[0];
    assert (m, first) in edges;
  }

  // ---------- the cycle check ----------

  /** The node lies on a cycle or depends on a node that does. */
  ghost predicate MeetsCycle(edges: Edges, x: NodeId)
  {
    exists y :: (y == x || DependsOn(edges, x, y)) && DependsOn(edges, y, y)
  }

  /** A set in which every node has an edge into the set meets a cycle from each of its nodes. */
  lemma StuckMeetsCycle(edges: Edges, stuck: set<NodeId>, x: NodeId)
    requires x in stuck
    requires forall v :: v in stuck ==> exists w :: w in stuck && (v, w) in edges
    ensures MeetsCycle(edges, x)
  {
    if !MeetsCycle(edges, x) {
      var among := set v | v in stuck && (v == x || DependsOn(edges, x, v));
      var inside := set e | e in edges && e.0 in among;
      forall v | DependsOn(inside, v, v) ensures false {
        var p :| Via(inside, Nodes(inside), v, p, v);
        assert (v, if p == [] then v else p[0]) in inside;
        Monotone(inside, Nodes(inside), edges, Nodes(edges) + Nodes(inside), v, v);
        Monotone(edges, Nodes(edges) + Nodes(inside), edges, Nodes(edges), v, v);
        assert DependsOn(edges, v, v) && (v == x || DependsOn(edges, x, v));
        assert MeetsCycle(edges, x);
      }
      assert x in among;
      var sink := SomeSink(inside, among);
      var w :| w in stuck && (sink, w) in edges;
      assert (sink, w).0 in Nodes(edges);
      EdgeIsWalk(edges, Nodes(edges), sink, w);
      if sink != x {
        Transitive(edges, Nodes(edges), x, sink, w);
      }
    }
  }

  /** The peeled nodes are closed and lie on no cycle; `remaining` is the graph that is left. */
  ghost predicate Peeling(edges: Edges, ids: set<NodeId>, remaining: map<NodeId, set<NodeId>>)
  {
    && remaining.Keys <= ids
    && (forall x, y :: x in remaining ==> (y in remaining[x] <==> (x, y) in edges && y in remaining))
    && (forall x :: x in ids - remaining.Keys ==> !DependsOn(edges, x, x))
    && (forall e :: e in edges && e.0 in ids - remaining.Keys ==> e.1 in ids - remaining.Keys)
  }

  /** Nodes whose dependencies are all peeled lie on no cycle. */
  lemma PeeledMeetNoCycle(edges: Edges, peeled: set<NodeId>, x: NodeId)
    requires forall e :: e in edges && e.0 in peeled ==> e.1 in peeled
    requires forall v :: v in peeled ==> !DependsOn(edges, v, v)
    requires x !in peeled && forall e :: e in edges && e.0 == x ==> e.1 in peeled
    ensures !DependsOn(edges, x, x)
  {
    if DependsOn(edges, x, x) {
      var p :| Via(edges, Nodes(edges), x, p, x);
      ClosedUnderWalks(edges, Nodes(edges), peeled, x, p, x);
    }
  }

  function Peel(remaining: map<NodeId, set<NodeId>>, startable: set<NodeId>): map<NodeId, set<NodeId>>
  {
    map x | x in remaining.Keys - startable :: remaining[x] - startable
  }

  lemma PeelStep(edges: Edges, ids: set<NodeId>, remaining: map<NodeId, set<NodeId>>, startable: set<NodeId>)
    requires Peeling(edges, ids, remaining) && forall e :: e in edges ==> e.0 in ids && e.1 in ids
    requires forall x :: x in startable <==> x in remaining && remaining[x] == {}
    ensures Peeling(edges, ids, Peel(remaining, startable))
  {
    var gone := ids - remaining.Keys;
    forall x | x in startable
      ensures !DependsOn(edges, x, x) && forall e :: e in edges && e.0 == x ==> e.1 in gone
    {
      forall e | e in edges && e.0 == x ensures e.1 in gone {
        assert e.1 !in remaining[x];
      }
      PeeledMeetNoCycle(edges, gone, x);
    }
    assert ids - Peel(remaining, startable).Keys == gone + startable;
  }

  /**
   The nodes left after topological elimination. They are exactly the nodes that lie on a
   cycle or depend on one, so the check passes exactly on the acyclic graphs.
   */
  method FindCycleMembers(graph: Graph) returns (members: set<NodeId>)
    ensures forall x :: x in members <==> x in Ids(graph) && MeetsCycle(EdgesOf(graph), x)
    ensures members == {} <==> Acyclic(EdgesOf(graph))
  {
    ghost var edges := EdgesOf(graph);
    var remaining := map x | x in Ids(graph) :: set d | d in GetDependencies(graph, x);
    var peeled := true;
    while peeled
      invariant Peeling(edges, Ids(graph), remaining)
      invariant peeled || forall x :: x in remaining ==> remaining[x] != {}
      decreases remaining.Keys, if peeled then 1 else 0
    {
      var startable := set x | x in remaining && remaining[x] == {};
      peeled := startable != {};
      PeelStep(edges, Ids(graph), remaining, startable);
      assert peeled ==> remaining.Keys - startable < remaining.Keys;
      remaining := Peel(remaining, startable);
    }
    members := remaining.Keys;
    LeftoversMeetCycles(edges, Ids(graph), remaining);
  }

  lemma LeftoversMeetCycles(edges: Edges, ids: set<NodeId>, remaining: map<NodeId, set<NodeId>>)
    requires Peeling(edges, ids, remaining) && forall e :: e in edges ==> e.0 in ids && e.1 in ids
    requires forall x :: x in remaining ==> remaining[x] != {}
    ensures forall x :: x in remaining.Keys <==> x in ids && MeetsCycle(edges, x)
    ensures remaining.Keys == {} <==> Acyclic(edges)
  {
    forall x ensures x in remaining.Keys <==> x in ids && MeetsCycle(edges, x) {
      if x in remaining {
        forall v | v in remaining.Keys ensures exists w :: w in remaining.Keys && (v, w) in edges {
          var w :| w in remaining[v];
          assert w in remaining.Keys && (v, w) in edges;
        }
        StuckMeetsCycle(edges, remaining.Keys, x);
      } else if x in ids && MeetsCycle(edges, x) {
        var y :| (y == x || DependsOn(edges, x, y)) && DependsOn(edges, y, y);
        if y != x {
          var p :| Via(edges, Nodes(edges), x, p, y);
          ClosedUnderWalks(edges, Nodes(edges), ids - remaining.Keys, x, p, y);
        }
      }
    }
    if remaining.Keys == {} {
      forall x ensures !DependsOn(edges, x, x) {
        if DependsOn(edges, x, x) {
          DependentIsNode(edges, x, x);
        }
      }
    } else {
      var x :| x in remaining.Keys;
      assert MeetsCycle(edges, x);
    }
  }
}

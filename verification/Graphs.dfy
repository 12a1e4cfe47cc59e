/**
 Dependency graphs as sets of edges, with the walks, reachability and skip
 contraction that the run controller's graph queries are specified by.

 An edge `(x, y)` says that node `x` depends on node `y`.
 */
module Graphs {

  datatype NodeId = NodeId(name: string)

  type Edges = set<(NodeId, NodeId)>

  // ---------- walks ----------

  /** There is a walk from `x` to `y` whose inner nodes are exactly `p`, all of them in `inner`. */
  ghost predicate Via(edges: Edges, inner: set<NodeId>, x: NodeId, p: seq<NodeId>, y: NodeId)
    decreases |p|
  {
    if p == [] then (x, y) in edges
    else (x, p[0]) in edges && p[0] in inner && Via(edges, inner, p[0], p[1..], y)
  }

  /** A non-empty walk leads from `x` to `y` through nodes of `inner` only. */
  ghost predicate Through(edges: Edges, inner: set<NodeId>, x: NodeId, y: NodeId)
  {
    exists p :: Via(edges, inner, x, p, y)
  }

  ghost function Nodes(edges: Edges): set<NodeId>
  {
    (set e | e in edges :: e.0) + (set e | e in edges :: e.1)
  }

  /** A non-empty walk of any kind leads from `x` to `y`: `x` depends on `y`, directly or not. */
  ghost predicate DependsOn(edges: Edges, x: NodeId, y: NodeId)
  {
    Through(edges, Nodes(edges), x, y)
  }

  ghost predicate Acyclic(edges: Edges)
  {
    forall x :: !DependsOn(edges, x, x)
  }

  lemma EdgeIsWalk(edges: Edges, inner: set<NodeId>, x: NodeId, y: NodeId)
    requires (x, y) in edges
    ensures Through(edges, inner, x, y)
  {
    assert Via(edges, inner, x, [], y);
  }

  lemma Prepend(edges: Edges, inner: set<NodeId>, x: NodeId, y: NodeId, z: NodeId)
    requires (x, y) in edges && y in inner
    requires Through(edges, inner, y, z)
    ensures Through(edges, inner, x, z)
  {
    var p :| Via(edges, inner, y, p, z);
    assert ([y] + p)[1..] == p;
    assert Via(edges, inner, x, [y] + p, z);
  }

  lemma {:induction false} Concat(edges: Edges, inner: set<NodeId>,
                                  x: NodeId, p: seq<NodeId>, y: NodeId, z: NodeId)
    requires Via(edges, inner, x, p, y) && y in inner
    requires Through(edges, inner, y, z)
    ensures Through(edges, inner, x, z)
    decreases |p|
  {
    if p == [] {
      Prepend(edges, inner, x, y, z);
    } else {
      Concat(edges, inner, p[0], p[1..], y, z);
      Prepend(edges, inner, x, p[0], z);
    }
  }

  lemma Transitive(edges: Edges, inner: set<NodeId>, x: NodeId, y: NodeId, z: NodeId)
    requires Through(edges, inner, x, y) && y in inner && Through(edges, inner, y, z)
    ensures Through(edges, inner, x, z)
  {
    var p :| Via(edges, inner, x, p, y);
    Concat(edges, inner, x, p, y, z);
  }

  /** Enlarging the graph or the set of allowed inner nodes keeps every walk. */
  lemma {:induction false} MonotoneVia(edges: Edges, inner: set<NodeId>, edges': Edges, inner': set<NodeId>,
                                       x: NodeId, p: seq<NodeId>, y: NodeId)
    requires Via(edges, inner, x, p, y)
    requires edges <= edges' && inner * Nodes(edges) <= inner'
    ensures Via(edges', inner', x, p, y)
    decreases |p|
  {
    if p != [] {
      assert (x, p[0]).1 in Nodes(edges);
      MonotoneVia(edges, inner, edges', inner', p[0], p[1..], y);
    }
  }

  lemma Monotone(edges: Edges, inner: set<NodeId>, edges': Edges, inner': set<NodeId>, x: NodeId, y: NodeId)
    requires Through(edges, inner, x, y)
    requires edges <= edges' && inner * Nodes(edges) <= inner'
    ensures Through(edges', inner', x, y)
  {
    var p :| Via(edges, inner, x, p, y);
    MonotoneVia(edges, inner, edges', inner', x, p, y);
  }

  lemma WalkEnds(edges: Edges, inner: set<NodeId>, x: NodeId, p: seq<NodeId>, y: NodeId)
    requires Via(edges, inner, x, p, y)
    ensures x in Nodes(edges) && y in Nodes(edges)
    decreases |p|
  {
    if p == [] {
      assert (x, y).0 in Nodes(edges) && (x, y).1 in Nodes(edges);
    } else {
      assert (x, p[0]).0 in Nodes(edges);
      WalkEnds(edges, inner, p[0], p[1..], y);
    }
  }

  lemma DependentIsNode(edges: Edges, x: NodeId, y: NodeId)
    requires DependsOn(edges, x, y)
    ensures exists e :: e in edges && e.0 == x
  {
    var p :| Via(edges, Nodes(edges), x, p, y);
    assert (x, if p == [] then y else p[0]) in edges;
  }

  /** A set closed under the edges it may be left by holds the end of every walk that starts in it. */
  lemma {:induction false} ClosedUnderWalks(edges: Edges, inner: set<NodeId>, closed: set<NodeId>,
                                            x: NodeId, p: seq<NodeId>, y: NodeId)
    requires Via(edges, inner, x, p, y)
    requires forall e :: e in edges && e.0 == x ==> e.1 in closed
    requires forall e :: e in edges && e.0 in closed && e.0 in inner ==> e.1 in closed
    ensures y in closed
    decreases |p|
  {
    if p == [] {
      assert (x, y) in edges;
    } else {
      assert (x, p[0]) in edges;
      ClosedUnderWalks(edges, inner, closed, p[0], p[1..], y);
    }
  }

  // ---------- effective dependencies ----------

  /** `y` is what `x` waits for once every node of `skipped` is replaced by its own dependencies. */
  ghost predicate Effective(edges: Edges, skipped: set<NodeId>, x: NodeId, y: NodeId)
  {
    y !in skipped && Through(edges, skipped, x, y)
  }

  ghost function EffectiveSet(edges: Edges, skipped: set<NodeId>, x: NodeId): (r: set<NodeId>)
  {
    set y | y in Nodes(edges) && Effective(edges, skipped, x, y)
  }

  lemma EffectiveSetIsEffective(edges: Edges, skipped: set<NodeId>, x: NodeId, y: NodeId)
    ensures y in EffectiveSet(edges, skipped, x) <==> Effective(edges, skipped, x, y)
  {
    if Effective(edges, skipped, x, y) {
      var p :| Via(edges, skipped, x, p, y);
      WalkEnds(edges, skipped, x, p, y);
    }
  }

  /** Everything a node effectively waits for is something it depends on. */
  lemma EffectiveIsDependency(edges: Edges, skipped: set<NodeId>, x: NodeId, y: NodeId)
    requires Effective(edges, skipped, x, y)
    ensures DependsOn(edges, x, y)
  {
    Monotone(edges, skipped, edges, Nodes(edges), x, y);
  }

  /** A walk that may use `b` either avoids it or passes to it and from it without it. */
  lemma {:induction false} SplitAt(edges: Edges, inner: set<NodeId>, b: NodeId,
                                   x: NodeId, p: seq<NodeId>, y: NodeId)
    requires Via(edges, inner + {b}, x, p, y)
    ensures Through(edges, inner, x, y) || (Through(edges, inner, x, b) && Through(edges, inner, b, y))
    decreases |p|
  {
    if p == [] {
      EdgeIsWalk(edges, inner, x, y);
    } else {
      var n := p[0];
      SplitAt(edges, inner, b, n, p[1..], y);
      if n == b {
        EdgeIsWalk(edges, inner, x, b);
      } else if Through(edges, inner, n, y) {
        Prepend(edges, inner, x, n, y);
      } else {
        Prepend(edges, inner, x, n, b);
      }
    }
  }

  /**
   Skipping one more node `b` replaces `b` by its own effective dependencies, on
   every graph, cycles included.
   */
  lemma SkipOneMore(edges: Edges, skipped: set<NodeId>, b: NodeId, x: NodeId)
    requires b !in skipped
    ensures EffectiveSet(edges, skipped + {b}, x) ==
            if b in EffectiveSet(edges, skipped, x)
            then EffectiveSet(edges, skipped, x) + EffectiveSet(edges, skipped, b) - {b}
            else EffectiveSet(edges, skipped, x)
  {
    forall y ensures y in EffectiveSet(edges, skipped + {b}, x) <==>
                     y != b && (y in EffectiveSet(edges, skipped, x)
                                || (b in EffectiveSet(edges, skipped, x) && y in EffectiveSet(edges, skipped, b)))
    {
      SkipOneMorePointwise(edges, skipped, b, x, y);
      EffectiveSetIsEffective(edges, skipped + {b}, x, y);
      EffectiveSetIsEffective(edges, skipped, x, y);
      EffectiveSetIsEffective(edges, skipped, x, b);
      EffectiveSetIsEffective(edges, skipped, b, y);
    }
  }

  lemma SkipOneMorePointwise(edges: Edges, skipped: set<NodeId>, b: NodeId, x: NodeId, y: NodeId)
    requires b !in skipped
    ensures Effective(edges, skipped + {b}, x, y) <==>
            y != b && (Effective(edges, skipped, x, y)
                       || (Effective(edges, skipped, x, b) && Effective(edges, skipped, b, y)))
  {
    if Effective(edges, skipped + {b}, x, y) {
      var p :| Via(edges, skipped + {b}, x, p, y);
      SplitAt(edges, skipped, b, x, p, y);
    } else if y != b && y !in skipped {
      if Through(edges, skipped, x, y) {
        Monotone(edges, skipped, edges, skipped + {b}, x, y);
      } else if Through(edges, skipped, x, b) && Through(edges, skipped, b, y) {
        Monotone(edges, skipped, edges, skipped + {b}, x, b);
        Monotone(edges, skipped, edges, skipped + {b}, b, y);
        Transitive(edges, skipped + {b}, x, b, y);
      }
    }
  }

  /** A walk either avoids `stops` or reaches one of them while still avoiding the others. */
  lemma {:induction false} FirstAmong(edges: Edges, inner: set<NodeId>, stops: set<NodeId>,
                                      x: NodeId, p: seq<NodeId>, y: NodeId)
    requires Via(edges, inner, x, p, y)
    ensures Through(edges, inner - stops, x, y)
            || exists k :: k in stops && Through(edges, inner - stops, x, k)
    decreases |p|
  {
    if p == [] {
      EdgeIsWalk(edges, inner - stops, x, y);
    } else if p[0] in stops {
      EdgeIsWalk(edges, inner - stops, x, p[0]);
    } else {
      FirstAmong(edges, inner, stops, p[0], p[1..], y);
      if Through(edges, inner - stops, p[0], y) {
        Prepend(edges, inner - stops, x, p[0], y);
      } else {
        var k :| k in stops && Through(edges, inner - stops, p[0], k);
        Prepend(edges, inner - stops, x, p[0], k);
      }
    }
  }

  /** Skipping a node that nothing of `x` waits for changes nothing for `x`. */
  lemma SkipUnrelated(edges: Edges, skipped: set<NodeId>, b: NodeId, x: NodeId)
    requires b !in EffectiveSet(edges, skipped, x)
    ensures EffectiveSet(edges, skipped + {b}, x) == EffectiveSet(edges, skipped, x)
  {
    if b in skipped {
      assert skipped + {b} == skipped;
    } else {
      SkipOneMore(edges, skipped, b, x);
    }
  }

  // ---------- contraction ----------

  type DependencyMap = map<NodeId, set<NodeId>>

  ghost function DirectDependencies(edges: Edges): DependencyMap
  {
    map x | x in Nodes(edges) :: set e | e in edges && e.0 == x :: e.1
  }

  /** Takes `b` out of the map: every dependent of `b` inherits the dependencies of `b`. */
  ghost function ContractOne(deps: DependencyMap, b: NodeId): DependencyMap
  {
    map x | x in deps ::
      if b in deps[x] && b in deps then deps[x] + deps[b] - {b} else deps[x]
  }

  ghost function ContractInOrder(deps: DependencyMap, order: seq<NodeId>): DependencyMap
  {
    if order == [] then deps
    else ContractOne(ContractInOrder(deps, order[..|order| - 1]), order[|order| - 1])
  }

  ghost function Elements(order: seq<NodeId>): set<NodeId>
  {
    set x | x in order
  }

  /**
   Skipping nodes one at a time, in any order, leaves exactly the dependencies that
   skipping the whole set at once leaves.
   */
  lemma {:induction false} ContractionLaw(edges: Edges, order: seq<NodeId>)
    ensures ContractInOrder(DirectDependencies(edges), order) ==
            map x | x in Nodes(edges) :: EffectiveSet(edges, Elements(order), x)
    decreases |order|
  {
    if order == [] {
      forall x | x in Nodes(edges)
        ensures DirectDependencies(edges)[x] == EffectiveSet(edges, {}, x)
      {
        NothingSkipped(edges, x);
      }
      assert Elements(order) == {};
    } else {
      var front, b := order[..|order| - 1], order[|order| - 1];
      assert order == front + [b];
      var skipped := Elements(front);
      assert Elements(order) == skipped + {b};
      ContractionLaw(edges, front);
      forall x | x in Nodes(edges)
        ensures ContractInOrder(DirectDependencies(edges), order)[x] == EffectiveSet(edges, skipped + {b}, x)
      {
        if b in skipped {
          assert skipped + {b} == skipped;
        } else {
          SkipOneMore(edges, skipped, b, x);
        }
      }
    }
  }

  lemma NothingSkipped(edges: Edges, x: NodeId)
    ensures EffectiveSet(edges, {}, x) == set e | e in edges && e.0 == x :: e.1
  {
    forall y ensures y in EffectiveSet(edges, {}, x) <==> (x, y) in edges {
      EffectiveSetIsEffective(edges, {}, x, y);
      if (x, y) in edges {
        EdgeIsWalk(edges, {}, x, y);
      }
    }
    forall y ensures (x, y) in edges <==> y in set e | e in edges && e.0 == x :: e.1 {
      if (x, y) in edges {
        var e := (x, y);
        assert e in edges && e.0 == x && e.1 == y;
      }
    }
  }

  /** The order of skipping does not matter. */
  lemma ContractionIsOrderIndependent(edges: Edges, order: seq<NodeId>, order': seq<NodeId>)
    requires Elements(order) == Elements(order')
    ensures ContractInOrder(DirectDependencies(edges), order) == ContractInOrder(DirectDependencies(edges), order')
  {
    ContractionLaw(edges, order);
    ContractionLaw(edges, order');
  }

  /** The graph that is left when the skipped nodes are taken out. */
  ghost function Contracted(edges: Edges, skipped: set<NodeId>): Edges
  {
    set x, y | x in Nodes(edges) - skipped && y in EffectiveSet(edges, skipped, x) :: (x, y)
  }

  lemma ContractedEdge(edges: Edges, skipped: set<NodeId>, x: NodeId, y: NodeId)
    ensures (x, y) in Contracted(edges, skipped) <==> x !in skipped && Effective(edges, skipped, x, y)
  {
    EffectiveSetIsEffective(edges, skipped, x, y);
    if Effective(edges, skipped, x, y) {
      var p :| Via(edges, skipped, x, p, y);
      WalkEnds(edges, skipped, x, p, y);
    }
  }

  /** A walk to a node that is not skipped starts with an effective dependency and continues in the contracted graph. */
  lemma {:induction false} FirstEffectiveStep(edges: Edges, skipped: set<NodeId>,
                                              x: NodeId, p: seq<NodeId>, z: NodeId) returns (y: NodeId)
    requires Via(edges, Nodes(edges), x, p, z) && z !in skipped
    ensures Effective(edges, skipped, x, y)
    ensures y == z || DependsOn(Contracted(edges, skipped), y, z)
    decreases |p|
  {
    if p == [] {
      EdgeIsWalk(edges, skipped, x, z);
      y := z;
    } else {
      var n := p[0];
      var next := FirstEffectiveStep(edges, skipped, n, p[1..], z);
      if n in skipped {
        Prepend(edges, skipped, x, n, next);
        y := next;
      } else {
        EdgeIsWalk(edges, skipped, x, n);
        y := n;
        var contracted := Contracted(edges, skipped);
        ContractedEdge(edges, skipped, n, next);
        if next == z {
          EdgeIsWalk(contracted, Nodes(contracted), n, z);
        } else {
          assert (n, next).1 in Nodes(contracted);
          Prepend(contracted, Nodes(contracted), n, next, z);
        }
      }
    }
  }

  lemma {:induction false} ContractedWalkIsWalk(edges: Edges, skipped: set<NodeId>,
                                                x: NodeId, p: seq<NodeId>, z: NodeId)
    requires Via(Contracted(edges, skipped), Nodes(Contracted(edges, skipped)), x, p, z)
    ensures DependsOn(edges, x, z)
    decreases |p|
  {
    var y := if p == [] then z else p[0];
    ContractedEdge(edges, skipped, x, y);
    EffectiveIsDependency(edges, skipped, x, y);
    if p != [] {
      ContractedWalkIsWalk(edges, skipped, y, p[1..], z);
      var q :| Via(edges, Nodes(edges), x, q, y);
      WalkEnds(edges, Nodes(edges), x, q, y);
      Transitive(edges, Nodes(edges), x, y, z);
    }
  }

  /** Contraction keeps exactly the ancestor relation between the nodes that are not skipped. */
  lemma ContractionKeepsAncestors(edges: Edges, skipped: set<NodeId>, x: NodeId, z: NodeId)
    requires x !in skipped && z !in skipped
    ensures DependsOn(Contracted(edges, skipped), x, z) <==> DependsOn(edges, x, z)
  {
    var contracted := Contracted(edges, skipped);
    if DependsOn(contracted, x, z) {
      var p :| Via(contracted, Nodes(contracted), x, p, z);
      ContractedWalkIsWalk(edges, skipped, x, p, z);
    }
    if DependsOn(edges, x, z) {
      var p :| Via(edges, Nodes(edges), x, p, z);
      var y := FirstEffectiveStep(edges, skipped, x, p, z);
      ContractedEdge(edges, skipped, x, y);
      if y == z {
        EdgeIsWalk(contracted, Nodes(contracted), x, z);
      } else {
        assert (x, y).1 in Nodes(contracted);
        Prepend(contracted, Nodes(contracted), x, y, z);
      }
    }
  }

  lemma ContractionKeepsAcyclicity(edges: Edges, skipped: set<NodeId>)
    requires Acyclic(edges)
    ensures Acyclic(Contracted(edges, skipped))
  {
    var contracted := Contracted(edges, skipped);
    forall x | DependsOn(contracted, x, x) ensures false {
      var p :| Via(contracted, Nodes(contracted), x, p, x);
      ContractedWalkIsWalk(edges, skipped, x, p, x);
    }
  }

  // ---------- acyclic graphs ----------

  /** Some node of a non-empty set has no edge into the set: the search for it cannot close a cycle. */
  lemma {:induction false} SinkFrom(edges: Edges, among: set<NodeId>, visited: set<NodeId>, x: NodeId)
    returns (sink: NodeId)
    requires Acyclic(edges) && x in among - visited && visited <= among
    requires forall v :: v in visited ==> DependsOn(edges, v, x)
    ensures sink in among && forall y :: y in among ==> (sink, y) !in edges
    decreases among - visited
  {
    if y :| y in among && (x, y) in edges {
      assert (x, y).0 in Nodes(edges) && (x, y).1 in Nodes(edges);
      EdgeIsWalk(edges, Nodes(edges), x, y);
      forall v | v in visited ensures DependsOn(edges, v, y) {
        Transitive(edges, Nodes(edges), v, x, y);
      }
      assert y !in visited + {x} by { assert !DependsOn(edges, y, y); }
      assert x in among - visited && x !in among - (visited + {x});
      sink := SinkFrom(edges, among, visited + {x}, y);
    } else {
      sink := x;
    }
  }

  lemma SomeSink(edges: Edges, among: set<NodeId>) returns (sink: NodeId)
    requires Acyclic(edges) && among != {}
    ensures sink in among && forall y :: y in among ==> (sink, y) !in edges
  {
    var x :| x in among;
    sink := SinkFrom(edges, among, {}, x);
  }
}

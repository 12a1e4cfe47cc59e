/**
 How a stopped node stops its dependents, pass by pass, and how skipping it brings them back.
 */
module StopPropagation {
  import opened Graphs
  import opened GraphServices
  import opened Options
  import opened Runs
  import opened PendingNodes
  import opened RunInvariants

  // ---------- the nodes that can never start ----------

  /** The effective dependencies of the nodes that are not skipped, as edges. */
  ghost function WaitEdges(graph: Graph, run: Run): Edges
  {
    Contracted(EdgesOf(graph), Skipped(run))
  }

  lemma WaitEdge(graph: Graph, run: Run, x: NodeId, y: NodeId)
    requires !IsIn(run, x, SKIPPED)
    ensures (x, y) in WaitEdges(graph, run) <==> y in WaitsFor(graph, run, x)
  {
    ContractedEdge(EdgesOf(graph), Skipped(run), x, y);
    EffectiveSetIsEffective(EdgesOf(graph), Skipped(run), x, y);
  }

  /** A pending node that waits, through pending nodes only, for a node that stopped. */
  ghost predicate IsDoomed(graph: Graph, run: Run, x: NodeId)
  {
    IsIn(run, x, PENDING)
    && exists y :: IsStopped(run, y) && Through(WaitEdges(graph, run), IdsIn(run, PENDING), x, y)
  }

  ghost function Doomed(graph: Graph, run: Run): (ids: set<NodeId>)
    ensures forall x :: x in ids <==> IsDoomed(graph, run, x)
  {
    set x | x in run.rows && IsDoomed(graph, run, x)
  }

  /** The state each node is left in once every doomed node is stopped. */
  ghost function SettledState(graph: Graph, run: Run, id: NodeId): NodeState
    requires id in run.rows
  {
    if IsDoomed(graph, run, id) then NEEDS_HUMAN else run.rows[id].state
  }

  ghost predicate WaitsForStopped(graph: Graph, run: Run, id: NodeId)
  {
    exists d :: d in WaitsFor(graph, run, id) && IsStopped(run, d)
  }

  /** The two runs differ only in nodes of `moved`, which went from pending to needing a human. */
  ghost predicate StopsOnly(run: Run, run': Run, moved: set<NodeId>)
  {
    && run'.order == run.order && run'.rows.Keys == run.rows.Keys
    && (forall id :: id in moved ==> IsIn(run, id, PENDING) && IsIn(run', id, NEEDS_HUMAN))
    && (forall id :: id in run.rows && id !in moved ==> run'.rows[id].state == run.rows[id].state)
  }

  /**
   Stopping doomed nodes, however many at a time, leaves exactly the other doomed nodes doomed:
   the set to be stopped does not depend on the order in which it is discovered.
   */
  lemma StoppingDoomedNodes(graph: Graph, run: Run, run': Run, moved: set<NodeId>)
    requires StopsOnly(run, run', moved) && moved <= Doomed(graph, run)
    ensures Doomed(graph, run') == Doomed(graph, run) - moved
  {
    var pending := IdsIn(run, PENDING);
    assert Skipped(run') == Skipped(run);
    assert IdsIn(run', PENDING) == pending - moved;
    var edges := WaitEdges(graph, run);
    forall x ensures x in Doomed(graph, run') <==> x in Doomed(graph, run) - moved {
      if IsDoomed(graph, run', x) {
        var y :| IsStopped(run', y) && Through(edges, pending - moved, x, y);
        Monotone(edges, pending - moved, edges, pending, x, y);
        if y in moved {
          var z :| IsStopped(run, z) && Through(edges, pending, y, z);
          Transitive(edges, pending, x, y, z);
        } else {
          assert y in run.rows && IsStopped(run, y);
        }
      } else if IsDoomed(graph, run, x) && x !in moved {
        var y :| IsStopped(run, y) && Through(edges, pending, x, y);
        var p :| Via(edges, pending, x, p, y);
        FirstAmong(edges, pending, moved, x, p, y);
        if Through(edges, pending - moved, x, y) {
          assert IsStopped(run', y);
        } else {
          var k :| k in moved && Through(edges, pending - moved, x, k);
          assert IsStopped(run', k);
        }
      }
    }
  }

  /** As long as some node is doomed, some doomed node waits for a stopped one directly. */
  lemma {:induction false} SomeDirectlyDoomed(graph: Graph, run: Run, x: NodeId, p: seq<NodeId>, y: NodeId)
    returns (m: NodeId)
    requires IsIn(run, x, PENDING) && IsStopped(run, y)
    requires Via(WaitEdges(graph, run), IdsIn(run, PENDING), x, p, y)
    ensures IsIn(run, m, PENDING) && WaitsForStopped(graph, run, m)
    decreases |p|
  {
    if p == [] {
      m := x;
      WaitEdge(graph, run, x, y);
    } else {
      m := SomeDirectlyDoomed(graph, run, p[0], p[1..], y);
    }
  }

  lemma DirectlyDoomedIsDoomed(graph: Graph, run: Run, x: NodeId)
    requires IsIn(run, x, PENDING) && WaitsForStopped(graph, run, x)
    ensures IsDoomed(graph, run, x)
  {
    var d :| d in WaitsFor(graph, run, x) && IsStopped(run, d);
    WaitEdge(graph, run, x, d);
    EdgeIsWalk(WaitEdges(graph, run), IdsIn(run, PENDING), x, d);
  }

  // ---------- passes in which nothing can launch ----------

  datatype Pass = Pass(now: int, answers: NodeId -> PendingAnswer)

  /** No node can launch in the pass: the workers are all busy, or no launch succeeds for now. */
  ghost predicate IsQuiet(config: Config, graph: Graph, run: Run, answers: NodeId -> PendingAnswer)
  {
    || |IdsIn(run, IN_PROGRESS)| >= config.maxWorkers
    || ((forall id :: answers(id).launch.Unavailable?) && forall n :: n in graph ==> HasLauncher(config, n))
  }

  ghost predicate NotedUpstreamStop(graph: Graph, run: Run, id: NodeId)
  {
    var note := LatestNote(run.audits, id);
    note.Some? && note.value.UpstreamStopped? && note.value.upstream in Ids(graph)
  }

  /** One quiet step: the node is stopped exactly when it waits for a stopped node; all else stays, notes too. */
  ghost predicate QuietStep(graph: Graph, run: Run, run': Run, id: NodeId)
  {
    && StopsOnly(run, run', if WaitsForStopped(graph, run, id) then {id} else {})
    && run'.agents == run.agents
    && (forall other :: other != id ==> LatestNote(run'.audits, other) == LatestNote(run.audits, other))
    && (WaitsForStopped(graph, run, id) ==> NotedUpstreamStop(graph, run', id))
  }

  lemma NoteAfter(audits: seq<AuditEntry>, entry: AuditEntry, id: NodeId)
    ensures LatestNote(audits + [entry], id) ==
            if entry.nodeId == id then Some(entry.note) else LatestNote(audits, id)
  {
    assert (audits + [entry])[..|audits|] == audits;
  }

  lemma RecordedNotes(run: Run, id: NodeId, state: NodeState, note: Note, at: int)
    ensures forall other :: LatestNote(Recorded(run, id, state, note, at).audits, other) ==
                            if other == id then Some(note) else LatestNote(run.audits, other)
  {
    forall other
      ensures LatestNote(Recorded(run, id, state, note, at).audits, other) ==
              if other == id then Some(note) else LatestNote(run.audits, other)
    {
      NoteAfter(run.audits, AuditEntry(id, state, note, at), other);
    }
  }

  lemma StoppedMeansWaitsForStopped(graph: Graph, run: Run, id: NodeId)
    requires Stored(graph, run)
    ensures StoppedDependencies(graph, run, id) != [] <==> WaitsForStopped(graph, run, id)
    ensures StoppedDependencies(graph, run, id) != [] ==> StoppedDependencies(graph, run, id)[0] in Ids(graph)
  {
    var stopped := StoppedDependencies(graph, run, id);
    EffectiveIdsAreDeclared(graph, Skipped(run), id);
    if stopped != [] {
      assert stopped[0] in stopped;
      assert stopped[0] in WaitsFor(graph, run, id) && IsStopped(run, stopped[0]);
    }
    if WaitsForStopped(graph, run, id) {
      var d :| d in WaitsFor(graph, run, id) && IsStopped(run, d);
      assert d in run.order && d in stopped;
    }
  }

  lemma StopMovesOnly(run: Run, id: NodeId, note: Note, now: int)
    requires IsIn(run, id, PENDING)
    ensures StopsOnly(run, Recorded(run, id, NEEDS_HUMAN, note, now), {id})
    ensures Recorded(run, id, NEEDS_HUMAN, note, now).agents == run.agents
  {
  }

  lemma StopIsQuiet(graph: Graph, run: Run, id: NodeId, upstream: NodeId, now: int)
    requires IsIn(run, id, PENDING) && WaitsForStopped(graph, run, id) && upstream in Ids(graph)
    ensures QuietStep(graph, run, Recorded(run, id, NEEDS_HUMAN, UpstreamStopped(upstream), now), id)
  {
    StopMovesOnly(run, id, UpstreamStopped(upstream), now);
    RecordedNotes(run, id, NEEDS_HUMAN, UpstreamStopped(upstream), now);
    var after := Recorded(run, id, NEEDS_HUMAN, UpstreamStopped(upstream), now);
    assert LatestNote(after.audits, id) == Some(UpstreamStopped(upstream));
  }

  lemma WaitIsQuiet(graph: Graph, run: Run, node: GraphNode, startTime: int, at: int)
    requires IsIn(run, node.id, PENDING) && !WaitsForStopped(graph, run, node.id)
    ensures QuietStep(graph, run, run, node.id)
    ensures QuietStep(graph, run, WaitNoted(run, node, startTime, at), node.id)
  {
    RecordedNotes(run, node.id, PENDING, StartsAfterCooldown(startTime), at);
  }

  /** In a quiet pass a pending node is stopped, notes its wait, or is left alone. */
  lemma QuietDecision(config: Config, graph: Graph, run: Run, node: GraphNode, now: int,
                      answers: NodeId -> PendingAnswer,
                      stopped: seq<NodeId>, isAwaiting: bool, startTime: Option<int>)
    requires node in graph && IsIn(run, node.id, PENDING) && IsQuiet(config, graph, run, answers)
    ensures var after := Decided(config, run, node, now, answers(node.id), stopped, isAwaiting, startTime).0;
            if stopped != [] then after == Recorded(run, node.id, NEEDS_HUMAN, UpstreamStopped(stopped[0]), now)
            else after == run ||
                 (startTime.Some? && after == WaitNoted(run, node, startTime.value, answers(node.id).wallClock))
  {
  }

  lemma QuietAdvance(config: Config, graph: Graph, run: Run, node: GraphNode, now: int,
                     answers: NodeId -> PendingAnswer)
    requires Stored(graph, run) && node in graph && IsIn(run, node.id, PENDING) && IsQuiet(config, graph, run, answers)
    ensures QuietStep(graph, run, PendingAdvance(config, graph, run, node, now, answers(node.id)).0, node.id)
  {
    var id, answer := node.id, answers(node.id);
    var stopped, startTime := StoppedDependencies(graph, run, id), NodeStartTime(graph, run, node);
    QuietDecision(config, graph, run, node, now, answers, stopped, AwaitsMerge(graph, run, id), startTime);
    StoppedMeansWaitsForStopped(graph, run, id);
    if stopped != [] {
      StopIsQuiet(graph, run, id, stopped[0], now);
    } else {
      WaitIsQuiet(graph, run, node, if startTime.Some? then startTime.value else now, answer.wallClock);
    }
  }

  /** What a quiet sweep over a list did: it stopped doomed nodes only, and every directly doomed node of the list. */
  ghost predicate QuietSweep(graph: Graph, run: Run, run': Run, nodes: seq<GraphNode>, moved: set<NodeId>)
  {
    && StopsOnly(run, run', moved) && moved <= Ids(nodes) && moved <= Doomed(graph, run)
    && run'.agents == run.agents
    && (forall n :: n in nodes && WaitsForStopped(graph, run, n.id) ==> n.id in moved)
    && (forall id :: id !in Ids(nodes) ==> LatestNote(run'.audits, id) == LatestNote(run.audits, id))
    && (forall id :: id in moved ==> NotedUpstreamStop(graph, run', id))
  }

  lemma StopsCompose(run: Run, before: Run, after: Run, moved: set<NodeId>, more: set<NodeId>)
    requires StopsOnly(run, before, moved) && StopsOnly(before, after, more)
    ensures StopsOnly(run, after, moved + more)
  {
  }

  lemma SameWaits(graph: Graph, run: Run, before: Run, moved: set<NodeId>, id: NodeId)
    requires StopsOnly(run, before, moved)
    ensures WaitsFor(graph, before, id) == WaitsFor(graph, run, id)
  {
    assert Skipped(before) == Skipped(run);
  }

  lemma StoppedStays(run: Run, before: Run, moved: set<NodeId>, d: NodeId)
    requires StopsOnly(run, before, moved) && IsStopped(run, d)
    ensures IsStopped(before, d)
  {
  }

  lemma StillWaits(graph: Graph, run: Run, before: Run, moved: set<NodeId>, id: NodeId)
    requires StopsOnly(run, before, moved) && WaitsForStopped(graph, run, id)
    ensures WaitsForStopped(graph, before, id)
  {
    var d :| d in WaitsFor(graph, run, id) && IsStopped(run, d);
    SameWaits(graph, run, before, moved, id);
    StoppedStays(run, before, moved, d);
  }

  lemma NotesKept(graph: Graph, before: Run, after: Run, moved: set<NodeId>, id: NodeId)
    requires forall m :: m in moved ==> NotedUpstreamStop(graph, before, m)
    requires forall other :: other != id ==> LatestNote(after.audits, other) == LatestNote(before.audits, other)
    ensures forall m :: m in moved && m != id ==> NotedUpstreamStop(graph, after, m)
  {
    forall m | m in moved && m != id ensures NotedUpstreamStop(graph, after, m) {
      assert NotedUpstreamStop(graph, before, m) && LatestNote(after.audits, m) == LatestNote(before.audits, m);
    }
  }

  lemma MoreDoomed(graph: Graph, run: Run, before: Run, moved: set<NodeId>, id: NodeId)
    requires StopsOnly(run, before, moved) && moved <= Doomed(graph, run)
    requires IsIn(before, id, PENDING) && WaitsForStopped(graph, before, id)
    ensures moved + {id} <= Doomed(graph, run)
  {
    StoppingDoomedNodes(graph, run, before, moved);
    DirectlyDoomedIsDoomed(graph, before, id);
  }

  /** Every directly doomed node of the longer list is among those moved. */
  lemma DirectlyDoomedMoved(graph: Graph, run: Run, before: Run, front: seq<GraphNode>, node: GraphNode,
                            moved: set<NodeId>, moved': set<NodeId>)
    requires StopsOnly(run, before, moved) && moved <= moved'
    requires forall n :: n in front && WaitsForStopped(graph, run, n.id) ==> n.id in moved
    requires WaitsForStopped(graph, before, node.id) ==> node.id in moved'
    ensures forall n :: n in front + [node] && WaitsForStopped(graph, run, n.id) ==> n.id in moved'
  {
    forall n | n in front + [node] && WaitsForStopped(graph, run, n.id) ensures n.id in moved' {
      if n !in front {
        assert n == node;
        StillWaits(graph, run, before, moved, node.id);
      }
    }
  }

  lemma QuietSweepExtends(graph: Graph, run: Run, before: Run, after: Run, front: seq<GraphNode>, node: GraphNode,
                          moved: set<NodeId>) returns (moved': set<NodeId>)
    requires QuietSweep(graph, run, before, front, moved) && IsIn(run, node.id, PENDING)
    requires node.id !in Ids(front) && QuietStep(graph, before, after, node.id)
    ensures QuietSweep(graph, run, after, front + [node], moved')
  {
    var nodes, id := front + [node], node.id;
    assert Ids(nodes) == Ids(front) + {id};
    NotesKept(graph, before, after, moved, id);
    if WaitsForStopped(graph, before, id) {
      moved' := moved + {id};
      StopsCompose(run, before, after, moved, {id});
      MoreDoomed(graph, run, before, moved, id);
    } else {
      moved' := moved;
      StopsCompose(run, before, after, moved, {});
    }
    DirectlyDoomedMoved(graph, run, before, front, node, moved, moved');
  }

  lemma StillQuiet(config: Config, graph: Graph, run: Run, before: Run, moved: set<NodeId>,
                   answers: NodeId -> PendingAnswer)
    requires Stored(graph, run) && StopsOnly(run, before, moved) && IsQuiet(config, graph, run, answers)
    ensures Stored(graph, before) && IsQuiet(config, graph, before, answers)
    ensures forall id :: IsIn(run, id, PENDING) && id !in moved ==> IsIn(before, id, PENDING)
  {
    assert IdsIn(before, IN_PROGRESS) == IdsIn(run, IN_PROGRESS);
  }

  lemma QuietSweepStep(config: Config, graph: Graph, run: Run, before: Run, front: seq<GraphNode>, node: GraphNode,
                       now: int, answers: NodeId -> PendingAnswer, soFar: set<NodeId>) returns (moved: set<NodeId>)
    requires Stored(graph, run) && IsQuiet(config, graph, run, answers)
    requires node in graph && IsIn(run, node.id, PENDING) && node.id !in Ids(front)
    requires QuietSweep(graph, run, before, front, soFar)
    ensures QuietSweep(graph, run, PendingAdvance(config, graph, before, node, now, answers(node.id)).0,
                       front + [node], moved)
  {
    StillQuiet(config, graph, run, before, soFar, answers);
    QuietAdvance(config, graph, before, node, now, answers);
    var after := PendingAdvance(config, graph, before, node, now, answers(node.id)).0;
    moved := QuietSweepExtends(graph, run, before, after, front, node, soFar);
  }

  lemma {:induction false} QuietSweepStops(config: Config, graph: Graph, run: Run, nodes: seq<GraphNode>, now: int,
                                           answers: NodeId -> PendingAnswer) returns (moved: set<NodeId>)
    requires Stored(graph, run) && SweptIn(run, nodes, PENDING) && IsQuiet(config, graph, run, answers)
    requires forall n :: n in nodes ==> n in graph
    ensures QuietSweep(graph, run, PendingSweepOver(config, graph, run, nodes, now, answers).0, nodes, moved)
    decreases |nodes|
  {
    if nodes == [] {
      moved := {};
    } else {
      var node, front := nodes[|nodes| - 1], nodes[..|nodes| - 1];
      assert nodes == front + [node] && node in nodes;
      SweepFront(run, nodes, PENDING);
      var soFar := QuietSweepStops(config, graph, run, front, now, answers);
      var before := PendingSweepOver(config, graph, run, front, now, answers).0;
      moved := QuietSweepStep(config, graph, run, before, front, node, now, answers, soFar);
    }
  }

  // ---------- repeated passes settle ----------

  ghost function RunPasses(config: Config, graph: Graph, run: Run, passes: seq<Pass>): Run
  {
    if passes == [] then run
    else
      var last := passes[|passes| - 1];
      PendingSweep(config, graph, RunPasses(config, graph, run, passes[..|passes| - 1]), last.now, last.answers).0
  }

  /** No pass can launch anything; that stays so, since quiet passes leave the working nodes alone. */
  ghost predicate AreQuiet(config: Config, graph: Graph, run: Run, passes: seq<Pass>)
  {
    forall pass :: pass in passes ==> IsQuiet(config, graph, run, pass.answers)
  }

  /**
   What quiet passes did to a run: stopped doomed nodes, with an upstream note, and touched nothing else
   that was settled.
   */
  ghost predicate PassesStopped(graph: Graph, run: Run, run': Run, moved: set<NodeId>)
  {
    && StopsOnly(run, run', moved) && moved <= Doomed(graph, run) && run'.agents == run.agents
    && (forall id :: id in moved ==> NotedUpstreamStop(graph, run', id))
    && (forall id :: id !in IdsIn(run, PENDING) ==> LatestNote(run'.audits, id) == LatestNote(run.audits, id))
  }

  lemma SweepContinues(graph: Graph, run: Run, before: Run, after: Run, nodes: seq<GraphNode>,
                       moved: set<NodeId>, more: set<NodeId>)
    requires PassesStopped(graph, run, before, moved) && QuietSweep(graph, before, after, nodes, more)
    requires Ids(nodes) <= IdsIn(before, PENDING)
    ensures PassesStopped(graph, run, after, moved + more) && moved !! more
  {
    StopsCompose(run, before, after, moved, more);
    StoppingDoomedNodes(graph, run, before, moved);
    forall id | id in moved + more ensures NotedUpstreamStop(graph, after, id) {
      if id !in more {
        assert IsIn(before, id, NEEDS_HUMAN) && id !in Ids(nodes);
        assert NotedUpstreamStop(graph, before, id);
      }
    }
    forall id | id !in IdsIn(run, PENDING) ensures LatestNote(after.audits, id) == LatestNote(run.audits, id) {
      assert id !in Ids(nodes);
    }
  }

  lemma DependentIsDeclared(graph: Graph, run: Run, id: NodeId)
    requires WaitsForStopped(graph, run, id)
    ensures id in Ids(graph)
  {
    var d :| d in WaitsFor(graph, run, id) && IsStopped(run, d);
    EffectiveSetIsEffective(EdgesOf(graph), Skipped(run), id, d);
    EffectiveIsDependency(EdgesOf(graph), Skipped(run), id, d);
    DependentIsNode(EdgesOf(graph), id, d);
  }

  /** A quiet pass over a run with doomed nodes stops at least one of them. */
  lemma PassMakesProgress(graph: Graph, run: Run, run': Run, moved: set<NodeId>)
    requires QuietSweep(graph, run, run', GraphNodesIn(graph, run, PENDING), moved) && Doomed(graph, run) != {}
    ensures moved != {}
  {
    var x :| x in Doomed(graph, run);
    var y :| IsStopped(run, y) && Through(WaitEdges(graph, run), IdsIn(run, PENDING), x, y);
    var p :| Via(WaitEdges(graph, run), IdsIn(run, PENDING), x, p, y);
    var m := SomeDirectlyDoomed(graph, run, x, p, y);
    DependentIsDeclared(graph, run, m);
    var n :| n in graph && n.id == m;
    assert n in GraphNodesIn(graph, run, PENDING);
  }

  /** One more quiet pass moves more of the doomed nodes, or there were none left. */
  lemma OneMorePass(graph: Graph, run: Run, before: Run, after: Run, moved: set<NodeId>, more: set<NodeId>)
    requires PassesStopped(graph, run, before, moved)
    requires QuietSweep(graph, before, after, GraphNodesIn(graph, before, PENDING), more)
    ensures PassesStopped(graph, run, after, moved + more)
    ensures moved + more == Doomed(graph, run) || |moved + more| > |moved|
  {
    SweepContinues(graph, run, before, after, GraphNodesIn(graph, before, PENDING), moved, more);
    StoppingDoomedNodes(graph, run, before, moved);
    if moved == Doomed(graph, run) {
      assert more == {};
      assert moved + more == moved;
    } else {
      assert !(Doomed(graph, run) <= moved);
      var left :| left in Doomed(graph, run) && left !in moved;
      assert left in Doomed(graph, before);
      PassMakesProgress(graph, before, after, more);
      assert |moved + more| == |moved| + |more|;
    }
  }

  lemma QuietPass(config: Config, graph: Graph, run: Run, before: Run, pass: Pass, moved: set<NodeId>)
    returns (more: set<NodeId>)
    requires UniqueIds(graph) && Stored(graph, run) && IsQuiet(config, graph, run, pass.answers)
    requires StopsOnly(run, before, moved)
    ensures QuietSweep(graph, before, PendingSweep(config, graph, before, pass.now, pass.answers).0,
                       GraphNodesIn(graph, before, PENDING), more)
  {
    assert IdsIn(before, IN_PROGRESS) == IdsIn(run, IN_PROGRESS);
    SweepListIsSwept(graph, before, PENDING);
    more := QuietSweepStops(config, graph, before, GraphNodesIn(graph, before, PENDING), pass.now, pass.answers);
  }

  /** Each quiet pass stops a doomed node until none is left. */
  lemma {:induction false} PassesStop(config: Config, graph: Graph, run: Run, passes: seq<Pass>)
    returns (moved: set<NodeId>)
    requires UniqueIds(graph) && Stored(graph, run) && AreQuiet(config, graph, run, passes)
    ensures PassesStopped(graph, run, RunPasses(config, graph, run, passes), moved)
    ensures moved == Doomed(graph, run) || |moved| >= |passes|
    decreases |passes|
  {
    if passes == [] {
      moved := {};
    } else {
      var last, front := passes[|passes| - 1], passes[..|passes| - 1];
      assert last in passes;
      assert AreQuiet(config, graph, run, front);
      moved := PassesStop(config, graph, run, front);
      var before, after := RunPasses(config, graph, run, front), RunPasses(config, graph, run, passes);
      var more := QuietPass(config, graph, run, before, last, moved);
      OneMorePass(graph, run, before, after, moved, more);
      moved := moved + more;
    }
  }

  lemma LargeSubset<T>(small: set<T>, large: set<T>)
    requires small <= large && |small| >= |large|
    ensures small == large
  {
    assert large == small + (large - small);
    assert |large| == |small| + |large - small|;
  }

  /** As many quiet passes as there are doomed nodes are enough to leave every node in its settled state. */
  ghost predicate AreEnough(graph: Graph, run: Run, passes: seq<Pass>)
  {
    |passes| >= |Doomed(graph, run)|
  }

  /** The pending nodes bound the passes needed. */
  lemma PendingBoundsDoomed(graph: Graph, run: Run)
    ensures |Doomed(graph, run)| <= |IdsIn(run, PENDING)|
  {
    var doomed, pending := Doomed(graph, run), IdsIn(run, PENDING);
    assert pending == doomed + (pending - doomed);
    assert |pending| == |doomed| + |pending - doomed|;
  }

  /**
   Stop propagation is a least fixpoint: after enough quiet passes exactly the pending nodes that
   reach a stopped node through pending nodes are stopped, and one more pass moves nothing.
   */
  lemma PropagationSettles(config: Config, graph: Graph, run: Run, passes: seq<Pass>)
    requires UniqueIds(graph) && Stored(graph, run)
    requires AreQuiet(config, graph, run, passes) && AreEnough(graph, run, passes)
    ensures var after := RunPasses(config, graph, run, passes);
            && PassesStopped(graph, run, after, Doomed(graph, run))
            && Doomed(graph, after) == {}
            && forall id :: id in run.rows ==>
                 id in after.rows && after.rows[id].state == SettledState(graph, run, id)
  {
    var moved := PassesStop(config, graph, run, passes);
    if moved != Doomed(graph, run) {
      LargeSubset(moved, Doomed(graph, run));
    }
    StoppingDoomedNodes(graph, run, RunPasses(config, graph, run, passes), moved);
  }

  /** The outcome does not depend on the order in which the graph lists its nodes. */
  lemma OrderDoesNotMatter(graph: Graph, graph': Graph, run: Run)
    requires UniqueIds(graph) && UniqueIds(graph') && forall n :: n in graph <==> n in graph'
    ensures Doomed(graph, run) == Doomed(graph', run)
  {
    assert Ids(graph) == Ids(graph');
    forall id | id in Ids(graph) ensures Lookup(graph, id) == Lookup(graph', id) {
      UniqueLookup(graph, Lookup(graph', id).value);
    }
    forall e ensures e in EdgesOf(graph) <==> e in EdgesOf(graph') {
    }
    assert EdgesOf(graph) == EdgesOf(graph');
  }

  lemma UniqueLookup(graph: Graph, node: GraphNode)
    requires UniqueIds(graph) && node in graph
    ensures Lookup(graph, node.id) == Some(node)
  {
    var found := Lookup(graph, node.id).value;
    var i :| 0 <= i < |graph| && graph[i] == node;
    var j :| 0 <= j < |graph| && graph[j] == found;
    assert i == j;
  }
}

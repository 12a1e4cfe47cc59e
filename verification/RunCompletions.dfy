/**
 Runs come to an end: every pass that helps takes a run a step towards the state in which nothing of it
 waits, works or rests, and only a usage limit or a wake takes it a step back.
 */
module RunCompletions {
  import opened Graphs
  import opened GraphServices
  import opened Options
  import opened Runs
  import opened PendingNodes
  import opened InProgressNodes
  import opened RestingNodes
  import opened RunInvariants
  import opened StartSafety
  import opened StopPropagation
  import opened NodeOutcomes
  import opened MarkHistories
  import opened ControlPasses

  // ---------- how far a run is from its end ----------

  /** The steps a node has before it, when none is taken back: to start, to publish and to merge. */
  function Distance(state: NodeState): nat
  {
    match state
    case PENDING => 3
    case IN_PROGRESS => 2
    case RESTING => 1
    case _ => 0
  }

  function DistanceOf(run: Run, id: NodeId): nat
  {
    Distance(StateOf(run, id))
  }

  function RunDistance(nodes: Graph, run: Run): (r: nat)
    ensures r <= 3 * |nodes|
  {
    if nodes == [] then 0 else DistanceOf(run, nodes[0].id) + RunDistance(nodes[1..], run)
  }

  /** A usage limit sent the node back to wait, or news on its pull request sent it back to work. */
  predicate IsSentBack(run: Run, run': Run, id: NodeId)
  {
    || (IsIn(run, id, IN_PROGRESS) && IsIn(run', id, PENDING))
    || (IsIn(run, id, RESTING) && IsIn(run', id, IN_PROGRESS))
  }

  function CountSentBack(nodes: Graph, run: Run, run': Run): nat
  {
    if nodes == [] then 0
    else (if IsSentBack(run, run', nodes[0].id) then 1 else 0) + CountSentBack(nodes[1..], run, run')
  }

  /** The sweep took each node forward, or one step back when it was sent back. */
  ghost predicate Moves(run: Run, run': Run)
  {
    forall id :: DistanceOf(run', id) <= DistanceOf(run, id) + (if IsSentBack(run, run', id) then 1 else 0)
  }

  lemma {:induction false} SweepMoves(nodes: Graph, run: Run, run': Run)
    requires Moves(run, run')
    ensures RunDistance(nodes, run') <= RunDistance(nodes, run) + CountSentBack(nodes, run, run')
  {
    if nodes != [] {
      SweepMoves(nodes[1..], run, run');
    }
  }

  lemma {:induction false} SweepMovesOn(nodes: Graph, run: Run, run': Run, node: GraphNode)
    requires Moves(run, run') && node in nodes
    requires DistanceOf(run', node.id) < DistanceOf(run, node.id)
    ensures RunDistance(nodes, run') < RunDistance(nodes, run) + CountSentBack(nodes, run, run')
  {
    if nodes[0] == node {
      SweepMoves(nodes[1..], run, run');
    } else {
      SweepMovesOn(nodes[1..], run, run', node);
    }
  }

  lemma {:induction false} NoDistanceLeft(nodes: Graph, run: Run)
    ensures RunDistance(nodes, run) == 0 <==> NothingToSweep(nodes, run)
  {
    if nodes != [] {
      NoDistanceLeft(nodes[1..], run);
      assert forall n :: n in nodes <==> n == nodes[0] || n in nodes[1..];
    }
  }

  // ---------- what each sweep does to one node ----------

  lemma UntouchedMoves(run: Run, run': Run, nodes: seq<GraphNode>)
    requires run'.rows.Keys == run.rows.Keys && Untouched(run, run', nodes)
    requires forall n :: n in nodes ==> DistanceOf(run', n.id) <=
                                        DistanceOf(run, n.id) + (if IsSentBack(run, run', n.id) then 1 else 0)
    ensures Moves(run, run')
  {
    forall id ensures DistanceOf(run', id) <= DistanceOf(run, id) + (if IsSentBack(run, run', id) then 1 else 0) {
      if id in Ids(nodes) {
        var n :| n in nodes && n.id == id;
      }
    }
  }

  lemma InProgressSweepMoves(config: Config, graph: Graph, run: Run, answers: NodeId -> SettleAnswer)
    requires UniqueIds(graph) && SessionsSound(run)
    ensures Moves(run, InProgressSweep(config, graph, run, answers).0)
  {
    var nodes := GraphNodesIn(graph, run, IN_PROGRESS);
    SweepListIsSwept(graph, run, IN_PROGRESS);
    InProgressSweepIsSound(config, run, nodes, answers);
    UntouchedMoves(run, InProgressSweep(config, graph, run, answers).0, nodes);
  }

  lemma RestingSweepMoves(config: Config, graph: Graph, run: Run, answers: NodeId -> RestingAnswer)
    requires UniqueIds(graph) && SessionsSound(run)
    ensures Moves(run, RestingSweep(config, graph, run, answers).0)
  {
    var nodes := GraphNodesIn(graph, run, RESTING);
    SweepListIsSwept(graph, run, RESTING);
    RestingSweepIsSound(config, run, nodes, answers);
    var run' := RestingSweep(config, graph, run, answers).0;
    forall n | n in nodes ensures !IsIn(run', n.id, PENDING) {
      var before := OwnStep(config, run, nodes, answers, n);
      RestingNodeOutcome(config, before, n, answers(n.id));
    }
    UntouchedMoves(run, run', nodes);
  }

  lemma PendingSweepMoves(config: Config, graph: Graph, run: Run, now: int, answers: NodeId -> PendingAnswer)
    requires UniqueIds(graph) && SessionsSound(run) && Stored(graph, run)
    ensures Moves(run, PendingSweep(config, graph, run, now, answers).0)
    ensures CountSentBack(graph, run, PendingSweep(config, graph, run, now, answers).0) == 0
  {
    var nodes := GraphNodesIn(graph, run, PENDING);
    SweepListIsSwept(graph, run, PENDING);
    PendingSweepIsSound(config, graph, run, nodes, now, answers);
    var run' := PendingSweep(config, graph, run, now, answers).0;
    UntouchedMoves(run, run', nodes);
    NobodySentBack(graph, run, run', nodes);
  }

  lemma {:induction false} NobodySentBack(graph: Graph, run: Run, run': Run, nodes: seq<GraphNode>)
    requires Untouched(run, run', nodes) && forall n :: n in nodes ==> IsIn(run, n.id, PENDING)
    ensures CountSentBack(graph, run, run') == 0
  {
    if graph != [] {
      var id := graph[0].id;
      if id in Ids(nodes) {
        var n :| n in nodes && n.id == id;
      }
      NobodySentBack(graph[1..], run, run', nodes);
    }
  }

  // ---------- a session that ends for good ----------

  lemma InProgressStepLeavesOthers(config: Config, run: Run, node: GraphNode, answer: SettleAnswer, other: NodeId)
    requires other != node.id
    ensures LeavesAlone(run, InProgressAdvance(config, run, node, answer).0, other)
  {
    if HasSession(run, node.id) {
      SettledLeavesOthers(run, node.id, answer, other);
      SettledLeavesOthers(SessionClosed(run, node.id, IsOverdue, None, answer.wallClock), node.id, answer, other);
    }
  }

  lemma SettledLeavesOthers(run: Run, id: NodeId, answer: SettleAnswer, other: NodeId)
    requires HasSession(run, id) && other != id
    ensures LeavesAlone(run, Settled(run, id, answer).0, other)
  {
  }

  lemma {:induction false} InProgressSweepLeavesOthers(config: Config, run: Run, nodes: seq<GraphNode>,
                                                       answers: NodeId -> SettleAnswer, other: NodeId)
    requires other !in Ids(nodes)
    ensures LeavesAlone(run, InProgressSweepOver(config, run, nodes, answers).0, other)
    decreases |nodes|
  {
    if nodes != [] {
      var node, front := nodes[|nodes| - 1], nodes[..|nodes| - 1];
      assert node in nodes && forall n :: n in front ==> n in nodes;
      InProgressSweepLeavesOthers(config, run, front, answers, other);
      var swept := InProgressSweepOver(config, run, front, answers).0;
      InProgressStepLeavesOthers(config, swept, node, answers(node.id), other);
    }
  }

  /** A sweep does to each of its nodes what that node's own step does, on rows where only others moved. */
  lemma {:induction false} OwnSettling(config: Config, run: Run, nodes: seq<GraphNode>,
                                       answers: NodeId -> SettleAnswer, node: GraphNode) returns (before: Run)
    requires UniqueIds(nodes) && node in nodes
    ensures LeavesAlone(run, before, node.id)
    ensures LeavesAlone(InProgressAdvance(config, before, node, answers(node.id)).0,
                        InProgressSweepOver(config, run, nodes, answers).0, node.id)
    decreases |nodes|
  {
    var last, front := nodes[|nodes| - 1], nodes[..|nodes| - 1];
    assert nodes == front + [last];
    var swept := InProgressSweepOver(config, run, front, answers).0;
    if last == node {
      assert node.id !in Ids(front);
      InProgressSweepLeavesOthers(config, run, front, answers, node.id);
      before := swept;
    } else {
      assert node in front && node.id != last.id by {
        var i :| 0 <= i < |nodes| && nodes[i] == node;
        assert front[i] == node;
      }
      before := OwnSettling(config, run, front, answers, node);
      InProgressStepLeavesOthers(config, swept, last, answers(last.id), node.id);
    }
  }

  /** The session is over, it met no usage limit, and what it left can be read. */
  predicate EndsForGood(config: Config, run: Run, node: GraphNode, answer: SettleAnswer)
  {
    && IsOver(config, run, node, answer) && answer.limit.NoLimit? && answer.branch.BranchRead?
    && (PullRequestNumber(run, node.id, answer) != 0 ==> IsHeadKnown(run, node.id, answer))
  }

  lemma SettlingMovesOn(config: Config, graph: Graph, run: Run, answers: NodeId -> SettleAnswer, node: GraphNode)
    requires UniqueIds(graph) && node in graph && IsIn(run, node.id, IN_PROGRESS)
    requires EndsForGood(config, run, node, answers(node.id))
    ensures DistanceOf(InProgressSweep(config, graph, run, answers).0, node.id) < DistanceOf(run, node.id)
  {
    var nodes := GraphNodesIn(graph, run, IN_PROGRESS);
    SweepListIsSwept(graph, run, IN_PROGRESS);
    var before := OwnSettling(config, run, nodes, answers, node);
    WorkingNodeOutcome(config, before, node, answers(node.id));
  }

  // ---------- a pull request that is merged or closed ----------

  lemma RestingMovesOn(config: Config, graph: Graph, run: Run, answers: NodeId -> RestingAnswer, node: GraphNode)
    requires UniqueIds(graph) && node in graph && IsIn(run, node.id, RESTING) && IsWatched(config, run, node)
    requires answers(node.id).pullRequest.IsMerged? || answers(node.id).pullRequest.IsClosed?
    ensures DistanceOf(RestingSweep(config, graph, run, answers).0, node.id) < DistanceOf(run, node.id)
  {
    var nodes := GraphNodesIn(graph, run, RESTING);
    SweepListIsSwept(graph, run, RESTING);
    var before := OwnStep(config, run, nodes, answers, node);
    RestingNodeOutcome(config, before, node, answers(node.id));
  }

  // ---------- a pending node that can go ----------

  lemma DecidedMoves(config: Config, run: Run, node: GraphNode, now: int, answer: PendingAnswer,
                     stopped: seq<NodeId>, isAwaiting: bool, startTime: Option<int>)
    requires node.id in run.rows
    requires stopped != [] || (&& !isAwaiting && (startTime.None? || startTime.value <= now)
                               && !answer.launch.Unavailable? && |IdsIn(run, IN_PROGRESS)| < config.maxWorkers)
    ensures !IsIn(Decided(config, run, node, now, answer, stopped, isAwaiting, startTime).0, node.id, PENDING)
  {
  }

  /** The node's dependencies have settled: all are merged, or one has stopped. */
  ghost predicate IsDecided(graph: Graph, run: Run, id: NodeId)
  {
    DependenciesMerged(graph, run, id) || WaitsForStopped(graph, run, id)
  }

  /** The node can leave its waiting: one it waits for has stopped, or all is there for its start. */
  ghost predicate CanGo(config: Config, graph: Graph, run: Run, node: GraphNode, now: int, answer: PendingAnswer)
    requires node.id in run.rows
  {
    || WaitsForStopped(graph, run, node.id)
    || (&& DependenciesMerged(graph, run, node.id) && WaitIsOver(graph, run, node, now)
        && !answer.launch.Unavailable? && |IdsIn(run, IN_PROGRESS)| < config.maxWorkers)
  }

  lemma DecidedNodeMoves(config: Config, graph: Graph, run: Run, node: GraphNode, now: int, answer: PendingAnswer)
    requires Stored(graph, run) && IsIn(run, node.id, PENDING) && CanGo(config, graph, run, node, now, answer)
    ensures !IsIn(PendingAdvance(config, graph, run, node, now, answer).0, node.id, PENDING)
  {
    StoppedMeansWaitsForStopped(graph, run, node.id);
    MergedMeansNothingToAwait(graph, run, node.id);
    if DependenciesMerged(graph, run, node.id) {
      StartTimeMeansWaitIsOver(graph, run, node, now);
    }
    DecidedMoves(config, run, node, now, answer, StoppedDependencies(graph, run, node.id),
                 AwaitsMerge(graph, run, node.id), NodeStartTime(graph, run, node));
  }

  /** No state has changed yet, and only pending rows of swept nodes have been written. */
  ghost predicate NoneMoved(run: Run, before: Run, front: seq<GraphNode>)
  {
    && before.order == run.order && before.rows.Keys == run.rows.Keys && Untouched(run, before, front)
    && forall n :: n in front ==> IsIn(run, n.id, PENDING) && IsIn(before, n.id, PENDING)
  }

  /** The same states everywhere, and the same rows outside the pending nodes. */
  ghost predicate SameStates(run: Run, before: Run)
  {
    && before.order == run.order && before.rows.Keys == run.rows.Keys
    && (forall id :: id in run.rows ==> before.rows[id].state == run.rows[id].state)
    && (forall id :: id in run.rows && run.rows[id].state != PENDING ==> before.rows[id] == run.rows[id])
  }

  lemma NoneMovedMeansSameStates(run: Run, before: Run, front: seq<GraphNode>)
    requires NoneMoved(run, before, front)
    ensures SameStates(run, before)
  {
    forall id | id in run.rows
      ensures before.rows[id].state == run.rows[id].state
      ensures run.rows[id].state != PENDING ==> before.rows[id] == run.rows[id]
    {
      if id in Ids(front) {
        var n :| n in front && n.id == id;
      }
    }
  }

  lemma SameStatesMeanSameWaits(graph: Graph, run: Run, before: Run, id: NodeId)
    requires SameStates(run, before)
    ensures WaitsFor(graph, before, id) == WaitsFor(graph, run, id)
    ensures IdsIn(before, IN_PROGRESS) == IdsIn(run, IN_PROGRESS)
    ensures DependenciesMerged(graph, run, id) ==> DependenciesMerged(graph, before, id)
    ensures WaitsForStopped(graph, run, id) ==> WaitsForStopped(graph, before, id)
  {
    assert Skipped(before) == Skipped(run);
    if WaitsForStopped(graph, run, id) {
      var d :| d in WaitsFor(graph, run, id) && IsStopped(run, d);
      assert IsStopped(before, d);
    }
  }

  lemma SameStatesMeanSameWait(graph: Graph, run: Run, before: Run, node: GraphNode, now: int)
    requires SameStates(run, before) && node.id in run.rows && before.rows[node.id] == run.rows[node.id]
    requires WaitsFor(graph, before, node.id) == WaitsFor(graph, run, node.id) && WaitIsOver(graph, run, node, now)
    ensures WaitIsOver(graph, before, node, now)
  {
  }

  lemma StillCanGo(config: Config, graph: Graph, run: Run, before: Run, node: GraphNode, now: int,
                   answer: PendingAnswer)
    requires SameStates(run, before) && node.id in run.rows && before.rows[node.id] == run.rows[node.id]
    requires CanGo(config, graph, run, node, now, answer)
    ensures CanGo(config, graph, before, node, now, answer)
  {
    SameStatesMeanSameWaits(graph, run, before, node.id);
    if !WaitsForStopped(graph, run, node.id) {
      SameStatesMeanSameWait(graph, run, before, node, now);
    }
  }

  /** The node's own turn in a sweep that has moved nobody before it. */
  lemma GoesInItsTurn(config: Config, graph: Graph, run: Run, before: Run, front: seq<GraphNode>, node: GraphNode,
                      now: int, answer: PendingAnswer)
    requires Stored(graph, run) && NoneMoved(run, before, front) && node.id !in Ids(front)
    requires IsIn(run, node.id, PENDING) && CanGo(config, graph, run, node, now, answer)
    ensures !IsIn(PendingAdvance(config, graph, before, node, now, answer).0, node.id, PENDING)
  {
    NoneMovedMeansSameStates(run, before, front);
    StillCanGo(config, graph, run, before, node, now, answer);
    DecidedNodeMoves(config, graph, before, node, now, answer);
  }

  lemma SweepLeavesOthers(config: Config, graph: Graph, run: Run, nodes: seq<GraphNode>, now: int,
                          answers: NodeId -> PendingAnswer)
    requires Stored(graph, run) && SessionsSound(run) && SweptIn(run, nodes, PENDING)
    ensures var after := PendingSweepOver(config, graph, run, nodes, now, answers).0;
            after.order == run.order && after.rows.Keys == run.rows.Keys && Untouched(run, after, nodes)
  {
    PendingSweepIsSound(config, graph, run, nodes, now, answers);
  }

  lemma StaysMoved(config: Config, graph: Graph, run: Run, node: GraphNode, now: int, answer: PendingAnswer,
                   moved: NodeId)
    requires IsIn(run, node.id, PENDING) && moved != node.id && !IsIn(run, moved, PENDING)
    ensures !IsIn(PendingAdvance(config, graph, run, node, now, answer).0, moved, PENDING)
  {
    PendingOutcome(config, graph, run, node, now, answer);
  }

  /** What moved in its turn has moved when the sweep is over. */
  lemma MovedEarlier(config: Config, graph: Graph, run: Run, nodes: seq<GraphNode>, now: int,
                     answers: NodeId -> PendingAnswer, moved: GraphNode)
    requires Stored(graph, run) && SessionsSound(run) && SweptIn(run, nodes, PENDING) && nodes != []
    requires moved in nodes[..|nodes| - 1]
    requires !IsIn(PendingSweepOver(config, graph, run, nodes[..|nodes| - 1], now, answers).0, moved.id, PENDING)
    ensures !IsIn(PendingSweepOver(config, graph, run, nodes, now, answers).0, moved.id, PENDING)
  {
    var last, front := nodes[|nodes| - 1], nodes[..|nodes| - 1];
    SweepFront(run, nodes, PENDING);
    SweepLeavesOthers(config, graph, run, front, now, answers);
    var before := PendingSweepOver(config, graph, run, front, now, answers).0;
    StaysMoved(config, graph, before, last, now, answers(last.id), moved.id);
  }

  /** When the last node of a sweep can go, it goes in its turn or another has moved before it. */
  lemma MovesByItsTurn(config: Config, graph: Graph, run: Run, nodes: seq<GraphNode>, now: int,
                       answers: NodeId -> PendingAnswer) returns (moved: GraphNode)
    requires Stored(graph, run) && SessionsSound(run) && SweptIn(run, nodes, PENDING) && nodes != []
    requires CanGo(config, graph, run, nodes[|nodes| - 1], now, answers(nodes[|nodes| - 1].id))
    ensures moved in nodes && !IsIn(PendingSweepOver(config, graph, run, nodes, now, answers).0, moved.id, PENDING)
  {
    var last, front := nodes[|nodes| - 1], nodes[..|nodes| - 1];
    SweepFront(run, nodes, PENDING);
    SweepLeavesOthers(config, graph, run, front, now, answers);
    var before := PendingSweepOver(config, graph, run, front, now, answers).0;
    if n :| n in front && !IsIn(before, n.id, PENDING) {
      moved := n;
      MovedEarlier(config, graph, run, nodes, now, answers, moved);
    } else {
      moved := last;
      GoesInItsTurn(config, graph, run, before, front, last, now, answers(last.id));
    }
  }

  /** A sweep whose list holds a node that can go moves some node. */
  lemma {:induction false} SweepMovesSome(config: Config, graph: Graph, run: Run, nodes: seq<GraphNode>, now: int,
                                          answers: NodeId -> PendingAnswer, i: nat) returns (moved: GraphNode)
    requires i < |nodes| && Stored(graph, run) && SessionsSound(run) && SweptIn(run, nodes, PENDING)
    requires CanGo(config, graph, run, nodes[i], now, answers(nodes[i].id))
    ensures moved in nodes && !IsIn(PendingSweepOver(config, graph, run, nodes, now, answers).0, moved.id, PENDING)
    decreases |nodes|
  {
    if i < |nodes| - 1 {
      SweepFront(run, nodes, PENDING);
      moved := SweepMovesSome(config, graph, run, nodes[..|nodes| - 1], now, answers, i);
      MovedEarlier(config, graph, run, nodes, now, answers, moved);
    } else {
      moved := MovesByItsTurn(config, graph, run, nodes, now, answers);
    }
  }

  /** Nobody of the graph works or rests, and each node whose dependencies have settled can go. */
  ghost predicate IsClear(config: Config, graph: Graph, run: Run, now: int, answers: NodeId -> PendingAnswer)
  {
    forall n :: n in graph && n.id in run.rows ==>
      && !IsIn(run, n.id, IN_PROGRESS) && !IsIn(run, n.id, RESTING)
      && (IsIn(run, n.id, PENDING) && IsDecided(graph, run, n.id) ==>
            CanGo(config, graph, run, n, now, answers(n.id)))
  }

  ghost predicate SomeCanGo(config: Config, graph: Graph, run: Run, now: int, answers: NodeId -> PendingAnswer)
  {
    exists n :: n in graph && IsIn(run, n.id, PENDING) && CanGo(config, graph, run, n, now, answers(n.id))
  }

  /** Without a deadlock, a clear run has a node that can go. */
  lemma ClearMeansSomeCanGo(config: Config, graph: Graph, run: Run, now: int, answers: NodeId -> PendingAnswer)
    requires Acyclic(EdgesOf(graph)) && Stored(graph, run) && IsClear(config, graph, run, now, answers)
    ensures SomeCanGo(config, graph, run, now, answers) || NothingToSweep(graph, run)
  {
    if n :| n in graph && IsIn(run, n.id, PENDING) {
      var node := NoDeadlock(graph, run);
      EffectiveIdsAreDeclared(graph, Skipped(run), node.id);
      forall d | d in WaitsFor(graph, run, node.id) ensures !IsIn(run, d, IN_PROGRESS) && !IsIn(run, d, RESTING) {
        var declared :| declared in graph && declared.id == d;
      }
      assert IsDecided(graph, run, node.id);
    }
  }

  lemma SweepMovesOnSome(config: Config, graph: Graph, run: Run, now: int, answers: NodeId -> PendingAnswer)
    returns (moved: GraphNode)
    requires UniqueIds(graph) && Stored(graph, run) && SessionsSound(run)
    requires SomeCanGo(config, graph, run, now, answers)
    ensures moved in graph
    ensures DistanceOf(PendingSweep(config, graph, run, now, answers).0, moved.id) < DistanceOf(run, moved.id)
  {
    var nodes := GraphNodesIn(graph, run, PENDING);
    var node :| && node in graph && IsIn(run, node.id, PENDING)
                && CanGo(config, graph, run, node, now, answers(node.id));
    SweepListIsSwept(graph, run, PENDING);
    var i :| 0 <= i < |nodes| && nodes[i] == node;
    moved := SweepMovesSome(config, graph, run, nodes, now, answers, i);
    LeftPendingMovesOn(config, graph, run, nodes, now, answers, moved);
  }

  lemma LeftPendingMovesOn(config: Config, graph: Graph, run: Run, nodes: seq<GraphNode>, now: int,
                           answers: NodeId -> PendingAnswer, moved: GraphNode)
    requires SessionsSound(run) && Stored(graph, run) && SweptIn(run, nodes, PENDING) && moved in nodes
    requires !IsIn(PendingSweepOver(config, graph, run, nodes, now, answers).0, moved.id, PENDING)
    ensures DistanceOf(PendingSweepOver(config, graph, run, nodes, now, answers).0, moved.id) <
            DistanceOf(run, moved.id)
  {
    PendingSweepIsSound(config, graph, run, nodes, now, answers);
  }

  // ---------- whole passes ----------

  /** The run after the first sweep of a pass, and after the second. */
  function AfterSettling(config: Config, graph: Graph, run: Run, tick: Tick): Run
  {
    InProgressSweep(config, graph, run, tick.answers.settle).0
  }

  function AfterResting(config: Config, graph: Graph, run: Run, tick: Tick): Run
  {
    RestingSweep(config, graph, AfterSettling(config, graph, run, tick), tick.answers.resting).0
  }

  /** How many nodes of the graph the pass sent back: by a usage limit, or by news that woke them. */
  function Setbacks(config: Config, graph: Graph, run: Run, tick: Tick): nat
  {
    var settled, rested := AfterSettling(config, graph, run, tick), AfterResting(config, graph, run, tick);
    CountSentBack(graph, run, settled) + CountSentBack(graph, settled, rested)
  }

  ghost predicate SomeSessionEnds(config: Config, graph: Graph, run: Run, answers: NodeId -> SettleAnswer)
  {
    exists n :: n in graph && IsIn(run, n.id, IN_PROGRESS) && EndsForGood(config, run, n, answers(n.id))
  }

  ghost predicate SomePullRequestEnds(config: Config, graph: Graph, run: Run, answers: NodeId -> RestingAnswer)
  {
    exists n :: && n in graph && IsIn(run, n.id, RESTING) && IsWatched(config, run, n)
                && (answers(n.id).pullRequest.IsMerged? || answers(n.id).pullRequest.IsClosed?)
  }

  /**
   The world outside helps the run along: a session ends for good, a pull request is merged or closed, a
   pending node can go, or nobody works or rests and whoever could start has all it needs.
   */
  ghost predicate Helps(config: Config, graph: Graph, run: Run, tick: Tick)
  {
    var settled, rested := AfterSettling(config, graph, run, tick), AfterResting(config, graph, run, tick);
    || SomeSessionEnds(config, graph, run, tick.answers.settle)
    || SomePullRequestEnds(config, graph, settled, tick.answers.resting)
    || SomeCanGo(config, graph, rested, tick.now, tick.answers.pending)
    || IsClear(config, graph, rested, tick.now, tick.answers.pending)
  }

  /** What a pass needs of the graph and the run. */
  ghost predicate IsFit(graph: Graph, run: Run)
  {
    Acyclic(EdgesOf(graph)) && UniqueIds(graph) && Stored(graph, run) && SessionsSound(run)
  }

  lemma SettlingKeepsFit(config: Config, graph: Graph, run: Run, answers: NodeId -> SettleAnswer)
    requires IsFit(graph, run)
    ensures IsFit(graph, InProgressSweep(config, graph, run, answers).0)
  {
    SweepListIsSwept(graph, run, IN_PROGRESS);
    InProgressSweepIsSound(config, run, GraphNodesIn(graph, run, IN_PROGRESS), answers);
  }

  lemma RestingKeepsFit(config: Config, graph: Graph, run: Run, answers: NodeId -> RestingAnswer)
    requires IsFit(graph, run)
    ensures IsFit(graph, RestingSweep(config, graph, run, answers).0)
  {
    SweepListIsSwept(graph, run, RESTING);
    RestingSweepIsSound(config, run, GraphNodesIn(graph, run, RESTING), answers);
  }

  lemma PendingKeepsFit(config: Config, graph: Graph, run: Run, now: int, answers: NodeId -> PendingAnswer)
    requires IsFit(graph, run)
    ensures IsFit(graph, PendingSweep(config, graph, run, now, answers).0)
  {
    SweepListIsSwept(graph, run, PENDING);
    PendingSweepIsSound(config, graph, run, GraphNodesIn(graph, run, PENDING), now, answers);
  }

  lemma SettlingStep(config: Config, graph: Graph, run: Run, tick: Tick)
    requires IsFit(graph, run)
    ensures var settled := AfterSettling(config, graph, run, tick);
            RunDistance(graph, settled) + (if SomeSessionEnds(config, graph, run, tick.answers.settle) then 1 else 0) <=
            RunDistance(graph, run) + CountSentBack(graph, run, settled)
  {
    var settled := AfterSettling(config, graph, run, tick);
    InProgressSweepMoves(config, graph, run, tick.answers.settle);
    SweepMoves(graph, run, settled);
    if SomeSessionEnds(config, graph, run, tick.answers.settle) {
      var n :| n in graph && IsIn(run, n.id, IN_PROGRESS) && EndsForGood(config, run, n, tick.answers.settle(n.id));
      SettlingMovesOn(config, graph, run, tick.answers.settle, n);
      SweepMovesOn(graph, run, settled, n);
    }
  }

  lemma RestingStep(config: Config, graph: Graph, settled: Run, tick: Tick)
    requires IsFit(graph, settled)
    ensures var rested := RestingSweep(config, graph, settled, tick.answers.resting).0;
            RunDistance(graph, rested)
            + (if SomePullRequestEnds(config, graph, settled, tick.answers.resting) then 1 else 0) <=
            RunDistance(graph, settled) + CountSentBack(graph, settled, rested)
  {
    var rested := RestingSweep(config, graph, settled, tick.answers.resting).0;
    RestingSweepMoves(config, graph, settled, tick.answers.resting);
    SweepMoves(graph, settled, rested);
    if SomePullRequestEnds(config, graph, settled, tick.answers.resting) {
      var n :| && n in graph && IsIn(settled, n.id, RESTING) && IsWatched(config, settled, n)
               && (tick.answers.resting(n.id).pullRequest.IsMerged?
                   || tick.answers.resting(n.id).pullRequest.IsClosed?);
      RestingMovesOn(config, graph, settled, tick.answers.resting, n);
      SweepMovesOn(graph, settled, rested, n);
    }
  }

  lemma PendingStep(config: Config, graph: Graph, rested: Run, tick: Tick)
    requires IsFit(graph, rested)
    ensures var now, answers := tick.now, tick.answers.pending;
            var after := PendingSweep(config, graph, rested, now, answers).0;
            && RunDistance(graph, after) <= RunDistance(graph, rested)
            && (SomeCanGo(config, graph, rested, now, answers) || IsClear(config, graph, rested, now, answers) ==>
                  NothingToSweep(graph, rested) || RunDistance(graph, after) < RunDistance(graph, rested))
  {
    var now, answers := tick.now, tick.answers.pending;
    var after := PendingSweep(config, graph, rested, now, answers).0;
    PendingSweepMoves(config, graph, rested, now, answers);
    SweepMoves(graph, rested, after);
    if IsClear(config, graph, rested, now, answers) {
      ClearMeansSomeCanGo(config, graph, rested, now, answers);
    }
    if SomeCanGo(config, graph, rested, now, answers) {
      var moved := SweepMovesOnSome(config, graph, rested, now, answers);
      SweepMovesOn(graph, rested, after, moved);
    }
  }

  /** A pass that helps takes the run a step on, and every node it sends back a step away. */
  lemma TickStep(config: Config, graph: Graph, run: Run, tick: Tick)
    requires IsFit(graph, run)
    ensures var after := TickApplied(config, graph, run, tick.now, tick.answers).0;
            && IsFit(graph, after)
            && (|| NothingToSweep(graph, after)
                || RunDistance(graph, after) + (if Helps(config, graph, run, tick) then 1 else 0) <=
                   RunDistance(graph, run) + Setbacks(config, graph, run, tick))
  {
    var settled, rested := AfterSettling(config, graph, run, tick), AfterResting(config, graph, run, tick);
    SettlingKeepsFit(config, graph, run, tick.answers.settle);
    RestingKeepsFit(config, graph, settled, tick.answers.resting);
    PendingKeepsFit(config, graph, rested, tick.now, tick.answers.pending);
    SettlingStep(config, graph, run, tick);
    RestingStep(config, graph, settled, tick);
    PendingStep(config, graph, rested, tick);
    var after := PendingSweep(config, graph, rested, tick.now, tick.answers.pending).0;
    assert TickApplied(config, graph, run, tick.now, tick.answers).0 == after;
    NoDistanceLeft(graph, rested);
    NoDistanceLeft(graph, after);
  }

  // ---------- whole runs ----------

  /** How many of the passes help. */
  ghost function CountHelps(config: Config, graph: Graph, run: Run, ticks: seq<Tick>): nat
  {
    if ticks == [] then 0
    else
      var last, front := ticks[|ticks| - 1], ticks[..|ticks| - 1];
      CountHelps(config, graph, run, front)
      + if Helps(config, graph, TicksApplied(config, graph, run, front), last) then 1 else 0
  }

  /** How often the passes send a node back. */
  ghost function CountSetbacks(config: Config, graph: Graph, run: Run, ticks: seq<Tick>): nat
  {
    if ticks == [] then 0
    else
      var last, front := ticks[|ticks| - 1], ticks[..|ticks| - 1];
      CountSetbacks(config, graph, run, front)
      + Setbacks(config, graph, TicksApplied(config, graph, run, front), last)
  }

  lemma SettledStays(config: Config, graph: Graph, run: Run, tick: Tick)
    requires NothingToSweep(graph, run)
    ensures TickApplied(config, graph, run, tick.now, tick.answers).0 == run
  {
    EmptySweeps(config, graph, run, tick.now, tick.answers);
  }

  lemma {:induction false} TicksGetNearer(config: Config, graph: Graph, run: Run, ticks: seq<Tick>)
    requires IsFit(graph, run)
    ensures var after := TicksApplied(config, graph, run, ticks);
            && IsFit(graph, after)
            && (|| NothingToSweep(graph, after)
                || RunDistance(graph, after) + CountHelps(config, graph, run, ticks) <=
                   RunDistance(graph, run) + CountSetbacks(config, graph, run, ticks))
    decreases |ticks|
  {
    if ticks != [] {
      var last, front := ticks[|ticks| - 1], ticks[..|ticks| - 1];
      var before := TicksApplied(config, graph, run, front);
      TicksGetNearer(config, graph, run, front);
      TickStep(config, graph, before, last);
      if NothingToSweep(graph, before) {
        SettledStays(config, graph, before, last);
      }
    }
  }

  lemma SettledStatus(graph: Graph, run: Run)
    requires Ids(graph) <= run.rows.Keys && NothingToSweep(graph, run)
    ensures GetRunStatus(graph, run) == CompleteRun <==> forall n :: n in graph ==> !IsStopped(run, n.id)
    ensures GetRunStatus(graph, run) == ActiveRun <==> IsMixed(graph, run)
  {
    RunEndsIff(graph, run);
    var states := StatesOf(graph, run);
    forall n | n in graph ensures StateOf(run, n.id) in states && n.id in run.rows {
    }
  }

  /**
   Every run settles. Whatever its passes bring, once those that help outnumber three a node and the times
   a node was sent back, nothing of the run waits, works or rests; and it is complete if no node stopped.
   */
  lemma RunSettles(config: Config, graph: Graph, run: Run, ticks: seq<Tick>)
    requires IsFit(graph, run)
    requires CountHelps(config, graph, run, ticks) >= 3 * |graph| + CountSetbacks(config, graph, run, ticks)
    ensures var after := TicksApplied(config, graph, run, ticks);
            && NothingToSweep(graph, after)
            && (GetRunStatus(graph, after) == CompleteRun <==> forall n :: n in graph ==> !IsStopped(after, n.id))
            && (GetRunStatus(graph, after) == ActiveRun <==> IsMixed(graph, after))
  {
    var after := TicksApplied(config, graph, run, ticks);
    TicksGetNearer(config, graph, run, ticks);
    NoDistanceLeft(graph, after);
    SettledStatus(graph, after);
  }
}

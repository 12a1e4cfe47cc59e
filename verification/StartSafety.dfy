/**
 No node works on a base that lacks a change it waits for: when a node may start, what its start
 was cleared by, and which steps keep that clearance.
 */
module StartSafety {
  import opened Graphs
  import opened GraphServices
  import opened Options
  import opened Signals
  import opened Runs
  import opened StartTimes
  import opened PendingNodes
  import opened RestingNodes
  import opened RunInvariants

  /** A node that left PENDING, and the time of the pass that started it. */
  type Start = (GraphNode, int)

  /** The dependency is merged, and was so a full cooldown before the start. */
  predicate IsDone(run: Run, start: Start, d: NodeId)
  {
    && IsIn(run, d, MERGED)
    && (start.0.cooldownSeconds > 0 ==> run.rows[d].updatedAt + start.0.cooldownSeconds <= start.1)
  }

  /** Everything the started node waits for now is merged, since long enough before its start. */
  ghost predicate Cleared(graph: Graph, run: Run, start: Start)
  {
    forall d :: d in WaitsFor(graph, run, start.0.id) ==> IsDone(run, start, d)
  }

  // ---------- clearance is permanent ----------

  lemma {:induction false} SkipManyUnrelated(edges: Edges, skipped: set<NodeId>, more: set<NodeId>, x: NodeId)
    requires more !! EffectiveSet(edges, skipped, x)
    ensures EffectiveSet(edges, skipped + more, x) == EffectiveSet(edges, skipped, x)
    decreases more
  {
    if more == {} {
      assert skipped + more == skipped;
    } else {
      var b :| b in more;
      SkipUnrelated(edges, skipped, b, x);
      SkipManyUnrelated(edges, skipped + {b}, more - {b}, x);
      assert skipped + {b} + (more - {b}) == skipped + more;
    }
  }

  /** A step that undoes nothing merged or skipped leaves what a cleared node waits for as it was. */
  lemma ForwardKeepsCleared(graph: Graph, run: Run, run': Run, start: Start)
    requires Forward(run, run') && Cleared(graph, run, start)
    ensures WaitsFor(graph, run', start.0.id) == WaitsFor(graph, run, start.0.id)
    ensures Cleared(graph, run', start)
  {
    var more := Skipped(run') - Skipped(run);
    forall d | d in WaitsFor(graph, run, start.0.id) ensures d !in more {
      assert IsDone(run, start, d);
    }
    SkipManyUnrelated(EdgesOf(graph), Skipped(run), more, start.0.id);
    assert Skipped(run) + more == Skipped(run');
    forall d | d in WaitsFor(graph, run', start.0.id) ensures IsDone(run', start, d) {
      assert IsDone(run, start, d);
    }
  }

  // ---------- when a pending node starts ----------

  /** Everything the node waits for is merged. */
  ghost predicate DependenciesMerged(graph: Graph, run: Run, id: NodeId)
  {
    forall d :: d in WaitsFor(graph, run, id) ==> IsIn(run, d, MERGED)
  }

  /**
   The node's own wait is over, and its cooldown since the last declared or effective dependency merged or
   was skipped.
   */
  ghost predicate WaitIsOver(graph: Graph, run: Run, node: GraphNode, now: int)
    requires node.id in run.rows
  {
    && (run.rows[node.id].resumeAt.Some? ==> run.rows[node.id].resumeAt.value <= now)
    && (node.cooldownSeconds > 0 ==>
          forall d :: (d in GetDependencies(graph, node.id) || d in WaitsFor(graph, run, node.id))
                      && d in run.rows && IsMergedOrSkipped(run.rows[d]) ==>
                      run.rows[d].updatedAt + node.cooldownSeconds <= now)
  }

  lemma TimedNodes(graph: Graph, run: Run, node: GraphNode)
    requires Stored(graph, run) && IsIn(run, node.id, PENDING) && DependenciesMerged(graph, run, node.id)
    ensures SkippedAmong(NodesToTime(run, WaitsFor(graph, run, node.id), node.id)) == Skipped(run)
    ensures forall n :: n in NodesToTime(run, WaitsFor(graph, run, node.id), node.id) ==>
                        n.0 in run.rows && n.1 == run.rows[n.0]
    ensures forall d :: d in WaitsFor(graph, run, node.id) || d in Skipped(run) || d == node.id ==>
                        d in run.rows && (d, run.rows[d]) in NodesToTime(run, WaitsFor(graph, run, node.id), node.id)
  {
    var waitsFor := WaitsFor(graph, run, node.id);
    var nodes := NodesToTime(run, waitsFor, node.id);
    EffectiveIdsAreDeclared(graph, Skipped(run), node.id);
    forall d | d in waitsFor || d in Skipped(run) || d == node.id
      ensures d in run.rows && (d, run.rows[d]) in nodes
    {
      assert d in run.order;
      assert d in Found(run.order, Skipped(run)) + Found(run.order, waitsFor) + [node.id];
    }
    forall d ensures d in SkippedAmong(nodes) <==> d in Skipped(run) {
      if d in Skipped(run) {
        assert (d, run.rows[d]) in nodes && (d, run.rows[d]).1.state == SKIPPED;
      }
    }
  }

  /** A dependency that is declared but not effective was skipped. */
  lemma DeclaredIsEffectiveOrSkipped(graph: Graph, run: Run, id: NodeId, d: NodeId)
    requires d in GetDependencies(graph, id)
    ensures d in WaitsFor(graph, run, id) || d in Skipped(run)
  {
    DependenciesAreEdges(graph, id);
    EdgeIsWalk(EdgesOf(graph), Skipped(run), id, d);
    EffectiveSetIsEffective(EdgesOf(graph), Skipped(run), id, d);
  }

  lemma StartTimeMeansWaitIsOver(graph: Graph, run: Run, node: GraphNode, now: int)
    requires Stored(graph, run) && IsIn(run, node.id, PENDING) && DependenciesMerged(graph, run, node.id)
    ensures (NodeStartTime(graph, run, node).None? || NodeStartTime(graph, run, node).value <= now) <==>
            WaitIsOver(graph, run, node, now)
  {
    var waitsFor := WaitsFor(graph, run, node.id);
    var nodes := NodesToTime(run, waitsFor, node.id);
    var ids := CooldownIds(graph, nodes, node.id);
    TimedNodes(graph, run, node);
    StartTimeReached(node, nodes, ids, now);
    assert (node.id, run.rows[node.id]) in nodes;
    forall d | d in ids ensures d in run.rows && (d, run.rows[d]) in nodes {
      if d in GetDependencies(graph, node.id) {
        DeclaredIsEffectiveOrSkipped(graph, run, node.id, d);
      }
    }
    assert forall n :: n in nodes && n.0 in ids ==> n == (n.0, run.rows[n.0]);
  }

  /** The guards of a start. */
  predicate Admits(config: Config, run: Run, node: GraphNode, now: int, stopped: seq<NodeId>, isAwaiting: bool,
                   startTime: Option<int>)
  {
    && stopped == [] && !isAwaiting
    && (startTime.None? || startTime.value <= now)
    && |IdsIn(run, IN_PROGRESS)| < config.maxWorkers
    && HasLauncher(config, node)
  }

  /** The guards of `PendingAdvance`, in its own terms. */
  ghost predicate PassesGuards(config: Config, graph: Graph, run: Run, node: GraphNode, now: int)
  {
    Admits(config, run, node, now, StoppedDependencies(graph, run, node.id), AwaitsMerge(graph, run, node.id),
           NodeStartTime(graph, run, node))
  }

  /** The node went to work with one session counted, or stayed out of work with none; no other row moved. */
  ghost predicate StartsIf(run: Run, after: (Run, TickResponse), id: NodeId, starts: bool)
  {
    && (IsIn(after.0, id, IN_PROGRESS) <==> starts)
    && after.1.sessionsStarted == (if starts then 1 else 0)
    && after.0.rows.Keys == run.rows.Keys
    && (forall other :: other != id && other in run.rows ==> after.0.rows[other] == run.rows[other])
    && (id in after.0.agents ==> id in run.agents || starts)
  }

  lemma LaunchOutcome(run: Run, node: GraphNode, now: int, answer: PendingAnswer)
    requires IsIn(run, node.id, PENDING)
    ensures StartsIf(run, Launched(run, node, now, answer), node.id, answer.launch.Started?)
  {
  }

  lemma RecordedOutcome(run: Run, id: NodeId, state: NodeState, note: Note, at: int, response: TickResponse)
    requires id in run.rows && state != IN_PROGRESS && response.sessionsStarted == 0
    ensures StartsIf(run, (Recorded(run, id, state, note, at), response), id, false)
  {
  }

  lemma DecidedOutcome(config: Config, run: Run, node: GraphNode, now: int, answer: PendingAnswer,
                       stopped: seq<NodeId>, isAwaiting: bool, startTime: Option<int>)
    requires IsIn(run, node.id, PENDING)
    ensures StartsIf(run, Decided(config, run, node, now, answer, stopped, isAwaiting, startTime), node.id,
                     Admits(config, run, node, now, stopped, isAwaiting, startTime) && answer.launch.Started?)
  {
    var id := node.id;
    if stopped != [] {
      RecordedOutcome(run, id, NEEDS_HUMAN, UpstreamStopped(stopped[0]), now, ONE_EVENT);
    } else if isAwaiting {
    } else if startTime.Some? && startTime.value > now {
      RecordedOutcome(run, id, PENDING, StartsAfterCooldown(startTime.value), answer.wallClock, NOTHING);
    } else if |IdsIn(run, IN_PROGRESS)| >= config.maxWorkers {
    } else if !HasLauncher(config, node) {
      RecordedOutcome(run, id, NEEDS_HUMAN, UnknownExecutor, now, ONE_EVENT);
    } else {
      LaunchOutcome(run, node, now, answer);
    }
  }

  lemma PendingOutcome(config: Config, graph: Graph, run: Run, node: GraphNode, now: int, answer: PendingAnswer)
    requires IsIn(run, node.id, PENDING)
    ensures StartsIf(run, PendingAdvance(config, graph, run, node, now, answer), node.id,
                     PassesGuards(config, graph, run, node, now) && answer.launch.Started?)
  {
    DecidedOutcome(config, run, node, now, answer, StoppedDependencies(graph, run, node.id),
                   AwaitsMerge(graph, run, node.id), NodeStartTime(graph, run, node));
  }

  /**
   A pending node starts exactly when everything it waits for is merged, its wait and cooldown
   are over, a worker is free, a launcher runs its executor and the launch succeeds.
   */
  lemma PendingNodeStartsIff(config: Config, graph: Graph, run: Run, node: GraphNode, now: int, answer: PendingAnswer)
    requires Stored(graph, run) && IsIn(run, node.id, PENDING)
    ensures IsIn(PendingAdvance(config, graph, run, node, now, answer).0, node.id, IN_PROGRESS) <==>
            && DependenciesMerged(graph, run, node.id)
            && WaitIsOver(graph, run, node, now)
            && |IdsIn(run, IN_PROGRESS)| < config.maxWorkers
            && HasLauncher(config, node)
            && answer.launch.Started?
  {
    PendingOutcome(config, graph, run, node, now, answer);
    MergedMeansNothingToAwait(graph, run, node.id);
    if DependenciesMerged(graph, run, node.id) {
      StartTimeMeansWaitIsOver(graph, run, node, now);
    }
  }

  lemma MergedMeansNothingToAwait(graph: Graph, run: Run, id: NodeId)
    requires Stored(graph, run)
    ensures DependenciesMerged(graph, run, id) <==>
            StoppedDependencies(graph, run, id) == [] && !AwaitsMerge(graph, run, id)
  {
    var waitsFor, stopped := WaitsFor(graph, run, id), StoppedDependencies(graph, run, id);
    EffectiveIdsAreDeclared(graph, Skipped(run), id);
    if stopped != [] {
      assert stopped[0] in stopped;
      assert stopped[0] in waitsFor && IsStopped(run, stopped[0]);
    }
    forall d | d in waitsFor && !IsIn(run, d, MERGED) ensures AwaitsMerge(graph, run, id) {
      assert d in run.order;
    }
  }

  lemma StartIsCleared(config: Config, graph: Graph, run: Run, node: GraphNode, now: int, answer: PendingAnswer)
    requires Stored(graph, run) && IsIn(run, node.id, PENDING)
    requires IsIn(PendingAdvance(config, graph, run, node, now, answer).0, node.id, IN_PROGRESS)
    ensures Cleared(graph, run, (node, now))
  {
    PendingNodeStartsIff(config, graph, run, node, now, answer);
  }

  // ---------- a whole pending sweep ----------

  /** What a pending sweep did so far: sound moves, and only cleared nodes of the list started. */
  ghost predicate SoundSweep(graph: Graph, run: Run, run': Run, nodes: seq<GraphNode>, now: int)
  {
    && SessionsSound(run') && Forward(run, run') && Untouched(run, run', nodes)
    && (forall n :: n in nodes && IsIn(run', n.id, IN_PROGRESS) ==> Cleared(graph, run', (n, now)))
    && (forall id :: id in run'.agents ==> id in run.agents || (id in Ids(nodes) && IsIn(run', id, IN_PROGRESS)))
  }

  lemma SweepExtends(graph: Graph, run: Run, before: Run, after: Run, front: seq<GraphNode>, node: GraphNode, now: int)
    requires SoundSweep(graph, run, before, front, now) && SweptIn(run, front + [node], PENDING)
    requires node.id !in Ids(front) && SoundStep(before, after, node.id)
    requires IsIn(after, node.id, IN_PROGRESS) ==> Cleared(graph, after, (node, now))
    requires node.id in after.agents ==> node.id in before.agents || IsIn(after, node.id, IN_PROGRESS)
    ensures SoundSweep(graph, run, after, front + [node], now)
  {
    var nodes := front + [node];
    SoundStepKeepsSessions(before, after, node.id);
    assert Ids(nodes) == Ids(front) + {node.id};
    forall n | n in nodes && IsIn(after, n.id, IN_PROGRESS) ensures Cleared(graph, after, (n, now)) {
      if n in front {
        assert n.id != node.id && IsIn(before, n.id, IN_PROGRESS);
        ForwardKeepsCleared(graph, before, after, (n, now));
      }
    }
    forall id | id in after.agents ensures id in run.agents || (id in Ids(nodes) && IsIn(after, id, IN_PROGRESS)) {
      if id != node.id && id !in run.agents {
        assert IsIn(before, id, IN_PROGRESS);
      }
    }
  }

  lemma {:induction false} PendingSweepIsSound(config: Config, graph: Graph, run: Run, nodes: seq<GraphNode>,
                                               now: int, answers: NodeId -> PendingAnswer)
    requires SessionsSound(run) && Stored(graph, run) && SweptIn(run, nodes, PENDING)
    ensures SoundSweep(graph, run, PendingSweepOver(config, graph, run, nodes, now, answers).0, nodes, now)
    decreases |nodes|
  {
    if nodes != [] {
      var node, front := nodes[|nodes| - 1], nodes[..|nodes| - 1];
      assert nodes == front + [node] && node in nodes;
      SweepFront(run, nodes, PENDING);
      PendingSweepIsSound(config, graph, run, front, now, answers);
      var before := PendingSweepOver(config, graph, run, front, now, answers).0;
      assert NodeSound(before, node.id) && IsIn(run, node.id, PENDING);
      var answer := answers(node.id);
      var after := PendingAdvance(config, graph, before, node, now, answer).0;
      PendingAdvanceIsSound(config, graph, before, node, now, answer);
      PendingOutcome(config, graph, before, node, now, answer);
      if IsIn(after, node.id, IN_PROGRESS) {
        StartIsCleared(config, graph, before, node, now, answer);
        ForwardKeepsCleared(graph, before, after, (node, now));
      }
      SweepExtends(graph, run, before, after, front, node, now);
    }
  }

  // ---------- the worker cap ----------

  /** The step added at most this node to those in progress, only below the cap, and counted it. */
  ghost predicate CapStep(config: Config, run: Run, after: (Run, TickResponse), id: NodeId)
  {
    || (IdsIn(after.0, IN_PROGRESS) == IdsIn(run, IN_PROGRESS) && after.1.sessionsStarted == 0)
    || (&& IdsIn(after.0, IN_PROGRESS) == IdsIn(run, IN_PROGRESS) + {id} && id !in IdsIn(run, IN_PROGRESS)
        && |IdsIn(run, IN_PROGRESS)| < config.maxWorkers && after.1.sessionsStarted == 1)
  }

  /**
   What a sweep leaves: nobody stopped working, the number of sessions started is the number of
   nodes moved to work, and the cap holds unless it was already exceeded.
   */
  ghost predicate CapKept(config: Config, run: Run, after: (Run, TickResponse))
  {
    var before, now := IdsIn(run, IN_PROGRESS), IdsIn(after.0, IN_PROGRESS);
    && before <= now
    && after.1.sessionsStarted == |now - before|
    && (|now| <= |before| || |now| <= config.maxWorkers)
  }

  lemma OneMoreWorking(start: set<NodeId>, middle: set<NodeId>, id: NodeId)
    requires start <= middle && id !in middle
    ensures |middle + {id}| == |middle| + 1 && |middle + {id} - start| == |middle - start| + 1
  {
    assert middle + {id} - start == (middle - start) + {id};
  }

  lemma CapStepsAdd(config: Config, run: Run, before: (Run, TickResponse), after: (Run, TickResponse), id: NodeId)
    requires CapKept(config, run, before) && CapStep(config, before.0, after, id)
    ensures CapKept(config, run, (after.0, before.1.IncrementWith(after.1)))
  {
    var start, middle, end := IdsIn(run, IN_PROGRESS), IdsIn(before.0, IN_PROGRESS), IdsIn(after.0, IN_PROGRESS);
    if end != middle {
      OneMoreWorking(start, middle, id);
    }
  }

  lemma OutcomeFitsCap(config: Config, run: Run, after: (Run, TickResponse), id: NodeId, starts: bool)
    requires StartsIf(run, after, id, starts) && !IsIn(run, id, IN_PROGRESS)
    requires starts ==> |IdsIn(run, IN_PROGRESS)| < config.maxWorkers
    ensures CapStep(config, run, after, id)
  {
    if starts {
      assert IdsIn(after.0, IN_PROGRESS) == IdsIn(run, IN_PROGRESS) + {id};
    } else {
      assert IdsIn(after.0, IN_PROGRESS) == IdsIn(run, IN_PROGRESS);
    }
  }

  /** A resting node goes to work exactly when its news wakes it, with wakes left, below the cap. */
  lemma RestingOutcome(config: Config, run: Run, node: GraphNode, answer: RestingAnswer) returns (starts: bool)
    requires IsIn(run, node.id, RESTING)
    ensures StartsIf(run, RestingAdvance(config, run, node, answer), node.id, starts)
    ensures starts ==> |IdsIn(run, IN_PROGRESS)| < config.maxWorkers
  {
    var id := node.id;
    starts := false;
    if id !in run.agents || run.agents[id].worktree.None? {
      RecordedOutcome(run, id, ERRORED, SessionNeverStarted, answer.wallClock, ONE_EVENT);
    } else if run.agents[id].worktree.value.prNumber == 0 || !HasLauncher(config, node) {
    } else if answer.pullRequest.IsMerged? || answer.pullRequest.IsClosed? {
      var settled := PullRequestSettled(run, id, answer.wallClock);
      assert StartsIf(run, (settled, NOTHING), id, false);
      RecordedOutcome(settled, id, MERGED, PullRequestMerged, answer.wallClock, ONE_EVENT);
      RecordedOutcome(settled, id, NEEDS_HUMAN, ClosedUnmerged, answer.wallClock, ONE_EVENT);
    } else if answer.pullRequest.IsOpen? {
      starts := NewsOutcome(config, run, id, answer.pullRequest.reading, answer);
    }
  }

  lemma NewsOutcome(config: Config, run: Run, id: NodeId, reading: Reading, answer: RestingAnswer)
    returns (starts: bool)
    requires IsIn(run, id, RESTING) && id in run.agents && run.agents[id].worktree.Some?
    ensures StartsIf(run, NewsHandled(config, run, id, reading, answer), id, starts)
    ensures starts ==> |IdsIn(run, IN_PROGRESS)| < config.maxWorkers
  {
    var worktree := run.agents[id].worktree.value;
    var changes := Changes(config.agentAccount, reading, worktree.marks);
    starts := WakingChanges(changes) != []
      && CountWakes(run.agents[id].sessions) < config.nodeWakes
      && |IdsIn(run, IN_PROGRESS)| < config.maxWorkers && answer.wake.WakeStarts?;
    if WakingChanges(changes) != [] {
      RecordedOutcome(run, id, NEEDS_HUMAN, OutOfWakes, answer.wallClock, ONE_EVENT);
    }
  }

  lemma {:induction false} PendingSweepKeepsCap(config: Config, graph: Graph, run: Run, nodes: seq<GraphNode>,
                                                now: int, answers: NodeId -> PendingAnswer)
    requires SessionsSound(run) && Stored(graph, run) && SweptIn(run, nodes, PENDING)
    ensures CapKept(config, run, PendingSweepOver(config, graph, run, nodes, now, answers))
    decreases |nodes|
  {
    if nodes != [] {
      var node, front := nodes[|nodes| - 1], nodes[..|nodes| - 1];
      SweepFront(run, nodes, PENDING);
      PendingSweepIsSound(config, graph, run, front, now, answers);
      PendingSweepKeepsCap(config, graph, run, front, now, answers);
      var before := PendingSweepOver(config, graph, run, front, now, answers);
      assert node in nodes && IsIn(run, node.id, PENDING);
      PendingOutcome(config, graph, before.0, node, now, answers(node.id));
      var after := PendingAdvance(config, graph, before.0, node, now, answers(node.id));
      OutcomeFitsCap(config, before.0, after, node.id,
                     PassesGuards(config, graph, before.0, node, now) && answers(node.id).launch.Started?);
      CapStepsAdd(config, run, before, after, node.id);
    } else {
      assert IdsIn(run, IN_PROGRESS) - IdsIn(run, IN_PROGRESS) == {};
    }
  }

  lemma {:induction false} RestingSweepKeepsCap(config: Config, run: Run, nodes: seq<GraphNode>,
                                                answers: NodeId -> RestingAnswer)
    requires SessionsSound(run) && SweptIn(run, nodes, RESTING)
    ensures CapKept(config, run, RestingSweepOver(config, run, nodes, answers))
    decreases |nodes|
  {
    if nodes != [] {
      var node, front := nodes[|nodes| - 1], nodes[..|nodes| - 1];
      SweepFront(run, nodes, RESTING);
      RestingSweepIsSound(config, run, front, answers);
      RestingSweepKeepsCap(config, run, front, answers);
      var before := RestingSweepOver(config, run, front, answers);
      assert node in nodes && IsIn(run, node.id, RESTING);
      var starts := RestingOutcome(config, before.0, node, answers(node.id));
      var after := RestingAdvance(config, before.0, node, answers(node.id));
      OutcomeFitsCap(config, before.0, after, node.id, starts);
      CapStepsAdd(config, run, before, after, node.id);
    } else {
      assert IdsIn(run, IN_PROGRESS) - IdsIn(run, IN_PROGRESS) == {};
    }
  }
}

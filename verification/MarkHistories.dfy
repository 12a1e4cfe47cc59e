/**
 The comment mark of a node over whole runs: no pass and no command takes it back but a verdict that
 restores marks, so a node hears each comment once.
 */
module MarkHistories {
  import opened Graphs
  import opened GraphServices
  import opened Options
  import opened Signals
  import opened Runs
  import opened PendingNodes
  import opened InProgressNodes
  import opened RestingNodes
  import opened NodeOperators
  import opened NodeRecoveries
  import opened RunInvariants
  import opened RunHistories
  import opened NodeOutcomes
  import opened WakeBudgets
  import opened Watermarks

  function NodeMarks(run: Run, id: NodeId): Marks
  {
    if id in run.agents && run.agents[id].worktree.Some? then run.agents[id].worktree.value.marks else map[]
  }

  function CommentMark(run: Run, id: NodeId): string
  {
    Read(NodeMarks(run, id), Comments)
  }

  /** The comment mark of the node is where it was or later. */
  predicate KeepsMark(run: Run, run': Run, id: NodeId)
  {
    !Less(CommentMark(run', id), CommentMark(run, id))
  }

  lemma SameMarkIsKept(run: Run, run': Run, id: NodeId)
    requires CommentMark(run', id) == CommentMark(run, id)
    ensures KeepsMark(run, run', id)
  {
    LessIrreflexive(CommentMark(run, id));
  }

  lemma KeptMarksCompose(run: Run, run': Run, run'': Run, id: NodeId)
    requires KeepsMark(run, run', id) && KeepsMark(run', run'', id)
    ensures KeepsMark(run, run'', id)
  {
    NotLessTransitive(CommentMark(run, id), CommentMark(run', id), CommentMark(run'', id));
  }

  // ---------- steps that move no mark ----------

  /** No agent's marks changed. */
  ghost predicate SameMarks(run: Run, run': Run)
  {
    forall id :: NodeMarks(run', id) == NodeMarks(run, id)
  }

  lemma SameMarksAreKept(run: Run, run': Run, id: NodeId)
    requires SameMarks(run, run')
    ensures KeepsMark(run, run', id)
  {
    assert NodeMarks(run', id) == NodeMarks(run, id);
    SameMarkIsKept(run, run', id);
  }

  lemma LaunchKeepsMarks(run: Run, node: GraphNode, now: int, answer: PendingAnswer)
    ensures SameMarks(run, PendingNodes.Launched(run, node, now, answer).0)
  {
  }

  lemma DecidedKeepsMarks(config: Config, run: Run, node: GraphNode, now: int, answer: PendingAnswer,
                          stopped: seq<NodeId>, isAwaiting: bool, startTime: Option<int>)
    ensures SameMarks(run, Decided(config, run, node, now, answer, stopped, isAwaiting, startTime).0)
  {
    LaunchKeepsMarks(run, node, now, answer);
  }

  lemma {:induction false} PendingSweepKeepsMarks(config: Config, graph: Graph, run: Run, nodes: seq<GraphNode>,
                                                  now: int, answers: NodeId -> PendingAnswer)
    ensures SameMarks(run, PendingSweepOver(config, graph, run, nodes, now, answers).0)
    decreases |nodes|
  {
    if nodes != [] {
      var node, front := nodes[|nodes| - 1], nodes[..|nodes| - 1];
      PendingSweepKeepsMarks(config, graph, run, front, now, answers);
      var before := PendingSweepOver(config, graph, run, front, now, answers).0;
      DecidedKeepsMarks(config, before, node, now, answers(node.id), StoppedDependencies(graph, before, node.id),
                        AwaitsMerge(graph, before, node.id), NodeStartTime(graph, before, node));
      SameMarksCompose(run, before, PendingAdvance(config, graph, before, node, now, answers(node.id)).0);
    }
  }

  lemma SameMarksCompose(run: Run, run': Run, run'': Run)
    requires SameMarks(run, run') && SameMarks(run', run'')
    ensures SameMarks(run, run'')
  {
    forall id ensures NodeMarks(run'', id) == NodeMarks(run, id) {
      assert NodeMarks(run', id) == NodeMarks(run, id) && NodeMarks(run'', id) == NodeMarks(run', id);
    }
  }

  lemma CloseKeepsMarks(run: Run, id: NodeId, status: Supervision, forced: Option<EndState>, at: int)
    requires HasSession(run, id)
    ensures SameMarks(run, SessionClosed(run, id, status, forced, at))
    ensures HasSession(SessionClosed(run, id, status, forced, at), id)
  {
  }

  lemma PublishKeepsMarks(run: Run, id: NodeId, status: Supervision, number: nat, headSha: string, at: int)
    requires HasSession(run, id)
    ensures SameMarks(run, Published(run, id, status, number, headSha, at))
  {
  }

  lemma RowsKeepMarks(run: Run, run': Run)
    requires run'.agents == run.agents
    ensures SameMarks(run, run')
  {
  }

  lemma SettleKeepsMarks(run: Run, id: NodeId, answer: SettleAnswer)
    requires HasSession(run, id)
    ensures SameMarks(run, Settled(run, id, answer).0)
  {
    var after := Settled(run, id, answer).0;
    var forced := if answer.limit.ResetsAt? then Some(UsageLimit) else None;
    var closed := SessionClosed(run, id, answer.status, forced, answer.wallClock);
    CloseKeepsMarks(run, id, answer.status, forced, answer.wallClock);
    if after.agents == run.agents {
      RowsKeepMarks(run, after);
    } else if after.agents == closed.agents {
      RowsKeepMarks(closed, after);
      SameMarksCompose(run, closed, after);
    } else {
      var number := PullRequestNumber(run, id, answer);
      PublishKeepsMarks(closed, id, answer.status, number, answer.headSha.value, answer.wallClock);
      SameMarksCompose(run, closed, after);
    }
  }

  lemma InProgressStepKeepsMarks(config: Config, run: Run, node: GraphNode, answer: SettleAnswer)
    ensures SameMarks(run, InProgressAdvance(config, run, node, answer).0)
  {
    if HasSession(run, node.id) {
      var closed := SessionClosed(run, node.id, IsOverdue, None, answer.wallClock);
      assert SameMarks(run, closed);
      SettleKeepsMarks(run, node.id, answer);
      SettleKeepsMarks(closed, node.id, answer);
      SameMarksCompose(run, closed, Settled(closed, node.id, answer).0);
    }
  }

  lemma {:induction false} InProgressSweepKeepsMarks(config: Config, run: Run, nodes: seq<GraphNode>,
                                                     answers: NodeId -> SettleAnswer)
    ensures SameMarks(run, InProgressSweepOver(config, run, nodes, answers).0)
    decreases |nodes|
  {
    if nodes != [] {
      var node, front := nodes[|nodes| - 1], nodes[..|nodes| - 1];
      InProgressSweepKeepsMarks(config, run, front, answers);
      var before := InProgressSweepOver(config, run, front, answers).0;
      InProgressStepKeepsMarks(config, before, node, answers(node.id));
      SameMarksCompose(run, before, InProgressAdvance(config, before, node, answers(node.id)).0);
    }
  }

  lemma {:induction false} AbortKeepsMarks(run: Run, keys: seq<SessionKey>, now: int)
    ensures SameMarks(run, SessionsKilled(run, keys, now))
    decreases |keys|
  {
    if keys != [] {
      AbortKeepsMarks(run, keys[..|keys| - 1], now);
      var before := SessionsKilled(run, keys[..|keys| - 1], now);
      assert SameMarks(before, SessionKilled(before, keys[|keys| - 1], now));
      SameMarksCompose(run, before, SessionsKilled(run, keys, now));
    }
  }

  lemma RetryKeepsMarks(graph: Graph, run: Run, id: NodeId, reset: bool, now: int)
    ensures SameMarks(run, RetryNode(graph, run, id, reset, now).0)
  {
    var declared := FirstDeclared(graph, id);
    if IsStopped(run, id) && declared.Some? {
      var renewed := AttemptsReset(run, id, declared.value.recoveryAttemptsAllowed);
      var cleared := if reset then TokenCleared(renewed, id) else renewed;
      ReleaseSparesEveryAgent(graph, Recorded(cleared, id, PENDING, SentBackToWork, now), id, now);
      assert SameMarks(run, cleared);
    }
  }

  /** A verdict moves only the marks it is asked to restore. */
  lemma RecoveryKeepsMark(config: Config, graph: Graph, run: Run, command: RecoverCommand, answer: RecoverAnswer,
                          id: NodeId)
    requires !(command.restoresMarks && command.nodeId == id)
    ensures KeepsMark(run, RecoverNode(config, graph, run, command, answer).0, id)
  {
    var x := command.nodeId;
    var after := RecoverNode(config, graph, run, command, answer);
    if after.0 != run {
      var restored := if command.restoresMarks then MarksRestored(run, x) else run;
      if after.1 {
        var woken := restored;
        if command.wakes {
          woken := WokenByVerdict(graph, restored, x, run.agents[x].worktree, answer);
          WokenByVerdictKeepsMarks(graph, restored, x, run.agents[x].worktree, answer);
        }
        VerdictSparesAgents(graph, woken, command, IsIn(run, x, NEEDS_HUMAN), answer);
        assert NodeMarks(woken, id) == NodeMarks(restored, id);
      }
      assert NodeMarks(restored, id) == NodeMarks(run, id);
    }
    SameMarkIsKept(run, after.0, id);
  }

  lemma WokenByVerdictKeepsMarks(graph: Graph, run: Run, id: NodeId, read: Option<WorkTree>, answer: RecoverAnswer)
    requires id in run.agents && answer.wake.RecoveryWakeStarts?
    ensures SameMarks(run, WokenByVerdict(graph, run, id, read, answer))
  {
    var session := ResumedSession(answer.wake.at, RecoveryTrigger, answer.wake.isFresh, read);
    var woken := WithAgent(run, id, AddSession(run.agents[id], session));
    var recorded := Recorded(woken, id, IN_PROGRESS, WokenByRecovery, answer.wokenAt);
    ReleaseSparesEveryAgent(graph, recorded, id, answer.wokenAt);
    assert SameMarks(run, woken);
  }

  // ---------- the resting pass ----------

  /** Only the row and the agent of this node changed. */
  ghost predicate LeavesAlone(run: Run, run': Run, id: NodeId)
  {
    && (id in run'.agents <==> id in run.agents) && (id in run.agents ==> run'.agents[id] == run.agents[id])
    && (id in run'.rows <==> id in run.rows) && (id in run.rows ==> run'.rows[id] == run.rows[id])
  }

  lemma NewsLeavesOthers(config: Config, run: Run, id: NodeId, reading: Reading, answer: RestingAnswer, other: NodeId)
    requires id in run.agents && run.agents[id].worktree.Some? && other != id
    ensures LeavesAlone(run, NewsHandled(config, run, id, reading, answer).0, other)
  {
  }

  lemma RestingStepLeavesOthers(config: Config, run: Run, node: GraphNode, answer: RestingAnswer, other: NodeId)
    requires other != node.id
    ensures LeavesAlone(run, RestingAdvance(config, run, node, answer).0, other)
  {
    var id := node.id;
    if id in run.agents && run.agents[id].worktree.Some? && answer.pullRequest.IsOpen? {
      NewsLeavesOthers(config, run, id, answer.pullRequest.reading, answer, other);
    }
  }

  lemma {:induction false} RestingSweepLeavesOthers(config: Config, run: Run, nodes: seq<GraphNode>,
                                                    answers: NodeId -> RestingAnswer, other: NodeId)
    requires other !in Ids(nodes)
    ensures LeavesAlone(run, RestingSweepOver(config, run, nodes, answers).0, other)
    decreases |nodes|
  {
    if nodes != [] {
      var node, front := nodes[|nodes| - 1], nodes[..|nodes| - 1];
      assert node in nodes && forall n :: n in front ==> n in nodes;
      RestingSweepLeavesOthers(config, run, front, answers, other);
      RestingStepLeavesOthers(config, RestingSweepOver(config, run, front, answers).0, node, answers(node.id), other);
    }
  }

  /** A sweep does to each of its nodes what that node's own step does, on rows where only others moved. */
  lemma {:induction false} OwnStep(config: Config, run: Run, nodes: seq<GraphNode>, answers: NodeId -> RestingAnswer,
                                   node: GraphNode) returns (before: Run)
    requires UniqueIds(nodes) && node in nodes
    ensures LeavesAlone(run, before, node.id)
    ensures LeavesAlone(RestingAdvance(config, before, node, answers(node.id)).0,
                        RestingSweepOver(config, run, nodes, answers).0, node.id)
    decreases |nodes|
  {
    var last, front := nodes[|nodes| - 1], nodes[..|nodes| - 1];
    assert nodes == front + [last];
    var swept := RestingSweepOver(config, run, front, answers).0;
    if last == node {
      assert node.id !in Ids(front);
      RestingSweepLeavesOthers(config, run, front, answers, node.id);
      before := swept;
    } else {
      assert node in front && node.id != last.id by {
        var i :| 0 <= i < |nodes| && nodes[i] == node;
        assert front[i] == node;
      }
      before := OwnStep(config, run, front, answers, node);
      RestingStepLeavesOthers(config, swept, last, answers(last.id), node.id);
    }
  }

  lemma NewsKeepsMark(config: Config, run: Run, id: NodeId, reading: Reading, answer: RestingAnswer)
    requires id in run.agents && run.agents[id].worktree.Some?
    ensures KeepsMark(run, NewsHandled(config, run, id, reading, answer).0, id)
  {
    var marks, after := NodeMarks(run, id), NewsHandled(config, run, id, reading, answer);
    HandlerMovesMarks(config, run, id, reading, answer);
    ReadAfter(config.agentAccount, reading, marks, Comments);
    LessIrreflexive(Read(marks, Comments));
    if Fresh(config.agentAccount, Read(marks, Comments), reading.artifacts) != [] {
      NewestIsPast(config.agentAccount, Read(marks, Comments), reading.artifacts);
      NotLessIfLess(Read(marks, Comments), MarkAfter(Comments, config.agentAccount, reading, Read(marks, Comments)));
    }
  }

  lemma RestingStepKeepsMark(config: Config, run: Run, node: GraphNode, answer: RestingAnswer)
    ensures KeepsMark(run, RestingAdvance(config, run, node, answer).0, node.id)
  {
    var id := node.id;
    if id in run.agents && run.agents[id].worktree.Some? && answer.pullRequest.IsOpen? {
      NewsKeepsMark(config, run, id, answer.pullRequest.reading, answer);
    }
    if NodeMarks(RestingAdvance(config, run, node, answer).0, id) == NodeMarks(run, id) {
      SameMarkIsKept(run, RestingAdvance(config, run, node, answer).0, id);
    }
  }

  lemma RestingSweepKeepsMark(config: Config, run: Run, nodes: seq<GraphNode>, answers: NodeId -> RestingAnswer,
                              id: NodeId)
    requires UniqueIds(nodes)
    ensures KeepsMark(run, RestingSweepOver(config, run, nodes, answers).0, id)
  {
    var after := RestingSweepOver(config, run, nodes, answers).0;
    if id in Ids(nodes) {
      var node :| node in nodes && node.id == id;
      var before := OwnStep(config, run, nodes, answers, node);
      RestingStepKeepsMark(config, before, node, answers(id));
    } else {
      RestingSweepLeavesOthers(config, run, nodes, answers, id);
      SameMarkIsKept(run, after, id);
    }
  }

  // ---------- whole runs ----------

  /** The event puts marks of this node back. */
  predicate RestoresMarks(event: Event, id: NodeId)
  {
    event.Recovery? && event.command.restoresMarks && event.command.nodeId == id
  }

  lemma EventKeepsMark(config: Config, graph: Graph, run: Run, event: Event, id: NodeId)
    requires UniqueIds(graph) && !RestoresMarks(event, id)
    ensures KeepsMark(run, Apply(config, graph, run, event), id)
  {
    var after := Apply(config, graph, run, event);
    match event
    case PendingPass(now, answers) =>
      PendingSweepKeepsMarks(config, graph, run, GraphNodesIn(graph, run, PENDING), now, answers);
      SameMarksAreKept(run, after, id);
    case InProgressPass(answers) =>
      InProgressSweepKeepsMarks(config, run, GraphNodesIn(graph, run, IN_PROGRESS), answers);
      SameMarksAreKept(run, after, id);
    case RestingPass(answers) =>
      SweepListIsSwept(graph, run, RESTING);
      RestingSweepKeepsMark(config, run, GraphNodesIn(graph, run, RESTING), answers, id);
    case SkipCommand(skipped, now) =>
      ReleaseSparesEveryAgent(graph, Recorded(run, skipped, SKIPPED, SkippedByHuman, now), skipped, now);
      SameMarkIsKept(run, after, id);
    case RetryCommand(retried, reset, now) =>
      RetryKeepsMarks(graph, run, retried, reset, now);
      SameMarksAreKept(run, after, id);
    case StopCommand(_, _, _) => SameMarkIsKept(run, after, id);
    case AbortCommand(keys, now) =>
      AbortKeepsMarks(run, keys, now);
      SameMarksAreKept(run, after, id);
    case Recovery(command, answer) => RecoveryKeepsMark(config, graph, run, command, answer, id);
    case AttemptsSpent(_, _) => SameMarkIsKept(run, after, id);
  }

  /** The states of a run whose events follow each other. */
  ghost predicate IsRun(config: Config, graph: Graph, runs: seq<Run>, events: seq<Event>)
  {
    && |runs| == |events| + 1
    && forall i :: 0 <= i < |events| ==> runs[i + 1] == Apply(config, graph, runs[i], events[i])
  }

  /** Unless a verdict restores marks in between, the comment mark of a node never falls back. */
  lemma {:induction false} MarkNeverFallsBack(config: Config, graph: Graph, runs: seq<Run>, events: seq<Event>,
                                              i: nat, j: nat, id: NodeId)
    requires UniqueIds(graph) && IsRun(config, graph, runs, events) && i <= j <= |events|
    requires forall k :: i <= k < j ==> !RestoresMarks(events[k], id)
    ensures KeepsMark(runs[i], runs[j], id)
    decreases j
  {
    if i == j {
      SameMarkIsKept(runs[i], runs[j], id);
    } else {
      MarkNeverFallsBack(config, graph, runs, events, i, j - 1, id);
      EventKeepsMark(config, graph, runs[j - 1], events[j - 1], id);
      KeptMarksCompose(runs[i], runs[j - 1], runs[j], id);
    }
  }

  /** The event is a resting pass that wakes the node, and this comment is part of the news it is woken with. */
  ghost predicate Hears(config: Config, graph: Graph, run: Run, event: Event, node: GraphNode, comment: Artifact)
  {
    && event.RestingPass? && node in graph && IsIn(run, node.id, RESTING)
    && IsIn(Apply(config, graph, run, event), node.id, IN_PROGRESS)
    && event.restingAnswers(node.id).pullRequest.IsOpen?
    && comment in Fresh(config.agentAccount, CommentMark(run, node.id),
                        event.restingAnswers(node.id).pullRequest.reading.artifacts)
  }

  /** A wake moves the mark past every comment the node is woken with. */
  lemma WakeMovesMark(config: Config, run: Run, node: GraphNode, answer: RestingAnswer, comment: Artifact)
    requires IsIn(run, node.id, RESTING) && IsIn(RestingAdvance(config, run, node, answer).0, node.id, IN_PROGRESS)
    requires answer.pullRequest.IsOpen?
    requires comment in Fresh(config.agentAccount, CommentMark(run, node.id), answer.pullRequest.reading.artifacts)
    ensures !Less(CommentMark(RestingAdvance(config, run, node, answer).0, node.id), comment.GetTimestamp())
  {
    var id, reading := node.id, answer.pullRequest.reading;
    var marks := NodeMarks(run, id);
    HandlerMovesMarks(config, run, id, reading, answer);
    ReadAfter(config.agentAccount, reading, marks, Comments);
    NewestIsPast(config.agentAccount, Read(marks, Comments), reading.artifacts);
  }

  lemma HearingMovesMark(config: Config, graph: Graph, run: Run, event: Event, node: GraphNode, comment: Artifact)
    requires UniqueIds(graph) && Hears(config, graph, run, event, node, comment)
    ensures !Less(CommentMark(Apply(config, graph, run, event), node.id), comment.GetTimestamp())
  {
    var nodes, answers := GraphNodesIn(graph, run, RESTING), event.restingAnswers;
    SweepListIsSwept(graph, run, RESTING);
    var before := OwnStep(config, run, nodes, answers, node);
    WakeMovesMark(config, before, node, answers(node.id), comment);
  }

  /**
   Over a whole run a node hears each comment once: of two passes that wake it with comments, the
   later one brings later comments, unless a verdict restored its marks in between.
   */
  lemma HeardOnceOverRuns(config: Config, graph: Graph, runs: seq<Run>, events: seq<Event>, i: nat, j: nat,
                          node: GraphNode, earlier: Artifact, later: Artifact)
    requires UniqueIds(graph) && IsRun(config, graph, runs, events) && i < j < |events|
    requires forall k :: i < k < j ==> !RestoresMarks(events[k], node.id)
    requires Hears(config, graph, runs[i], events[i], node, earlier)
    requires Hears(config, graph, runs[j], events[j], node, later)
    ensures Less(earlier.GetTimestamp(), later.GetTimestamp())
  {
    HearingMovesMark(config, graph, runs[i], events[i], node, earlier);
    MarkNeverFallsBack(config, graph, runs, events, i + 1, j, node.id);
    var past, reached := CommentMark(runs[i + 1], node.id), CommentMark(runs[j], node.id);
    NotLessTransitive(earlier.GetTimestamp(), past, reached);
    LessAfterNotLess(earlier.GetTimestamp(), reached, later.GetTimestamp());
  }
}

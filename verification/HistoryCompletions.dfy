/**
 Whole histories come to an end too: passes and operator commands in any order, with every step a command
 or a pass takes a node back counted against those that take one on.
 */
module HistoryCompletions {
  import opened Graphs
  import opened GraphServices
  import opened Runs
  import opened DependentReleases
  import opened NodeOperators
  import opened NodeRecoveries
  import opened RunInvariants
  import opened StartSafety
  import opened NodeOutcomes
  import opened SkipUndoing
  import opened RunHistories
  import opened ControlPasses
  import opened RunCompletions

  // ---------- steps back ----------

  /** How many steps further from its end the node is than before. */
  function StepsBack(run: Run, run': Run, id: NodeId): nat
  {
    var before, after := DistanceOf(run, id), DistanceOf(run', id);
    if after > before then after - before else 0
  }

  function CountStepsBack(nodes: Graph, run: Run, run': Run): nat
  {
    if nodes == [] then 0 else StepsBack(run, run', nodes[0].id) + CountStepsBack(nodes[1..], run, run')
  }

  lemma {:induction false} DistanceAfter(nodes: Graph, run: Run, run': Run)
    ensures RunDistance(nodes, run') <= RunDistance(nodes, run) + CountStepsBack(nodes, run, run')
  {
    if nodes != [] {
      DistanceAfter(nodes[1..], run, run');
    }
  }

  lemma {:induction false} DistanceAfterStepOn(nodes: Graph, run: Run, run': Run, node: GraphNode)
    requires node in nodes && DistanceOf(run', node.id) < DistanceOf(run, node.id)
    ensures RunDistance(nodes, run') < RunDistance(nodes, run) + CountStepsBack(nodes, run, run')
  {
    if nodes[0] == node {
      DistanceAfter(nodes[1..], run, run');
    } else {
      DistanceAfterStepOn(nodes[1..], run, run', node);
    }
  }

  // ---------- who goes back ----------

  /** A node an upstream stop held back returns to wait, as a dependent of this node. */
  ghost predicate IsReleasedBy(graph: Graph, run: Run, run': Run, upstream: NodeId, id: NodeId)
  {
    id in DescendantIds(graph, upstream) && IsStopped(run, id) && IsIn(run', id, PENDING)
  }

  /** The steps back an event may take a node. */
  ghost predicate MayGoBack(config: Config, graph: Graph, run: Run, run': Run, event: Event, id: NodeId)
  {
    match event
    case InProgressPass(_) => IsIn(run, id, IN_PROGRESS) && IsIn(run', id, PENDING)
    case RestingPass(_) => IsIn(run, id, RESTING) && IsIn(run', id, IN_PROGRESS)
    case SkipCommand(skipped, _) => IsReleasedBy(graph, run, run', skipped, id)
    case RetryCommand(retried, _, _) =>
      (id == retried && IsStopped(run, id) && IsIn(run', id, PENDING)) || IsReleasedBy(graph, run, run', retried, id)
    case Recovery(command, answer) =>
      && IsAccepted(config, graph, run, command, answer) && (command.wakes || Defers(command, answer))
      && (id == command.nodeId || IsReleasedBy(graph, run, run', command.nodeId, id))
    case _ => false
  }

  lemma ReleaseReturns(graph: Graph, run: Run, upstream: NodeId, now: int, id: NodeId)
    ensures var after := Released(graph, run, upstream, now);
            && after.rows.Keys == run.rows.Keys && after.agents == run.agents
            && (id in run.rows ==> after.rows[id] == run.rows[id] || IsReleasedBy(graph, run, after, upstream, id))
  {
  }

  lemma SkipGoesBack(graph: Graph, run: Run, skipped: NodeId, now: int, id: NodeId)
    requires Stored(graph, run)
    ensures var after := SkipNode(graph, run, skipped, now).0;
            StepsBack(run, after, id) > 0 ==> IsReleasedBy(graph, run, after, skipped, id)
  {
    if IsSkippable(run, skipped) {
      SkipStates(graph, run, skipped, now);
    }
  }

  lemma RetryGoesBack(graph: Graph, run: Run, retried: NodeId, reset: bool, now: int, id: NodeId)
    ensures var after := RetryNode(graph, run, retried, reset, now).0;
            StepsBack(run, after, id) > 0 ==>
              || (id == retried && IsStopped(run, id) && IsIn(after, id, PENDING))
              || IsReleasedBy(graph, run, after, retried, id)
  {
    var declared := FirstDeclared(graph, retried);
    if IsStopped(run, retried) && declared.Some? {
      var renewed := AttemptsReset(run, retried, declared.value.recoveryAttemptsAllowed);
      var cleared := if reset then TokenCleared(renewed, retried) else renewed;
      var sent := Recorded(cleared, retried, PENDING, SentBackToWork, now);
      ReleaseReturns(graph, sent, retried, now, id);
    }
  }

  /** No row changed but the command's own and those of dependents it released. */
  ghost predicate LeavesOrReleases(graph: Graph, run: Run, run': Run, upstream: NodeId)
  {
    && run'.rows.Keys == run.rows.Keys
    && forall id :: id in run.rows && id != upstream ==>
         run'.rows[id] == run.rows[id] || IsReleasedBy(graph, run, run', upstream, id)
  }

  lemma ReleasesCompose(graph: Graph, run: Run, run': Run, run'': Run, upstream: NodeId)
    requires LeavesOrReleases(graph, run, run', upstream) && LeavesOrReleases(graph, run', run'', upstream)
    ensures LeavesOrReleases(graph, run, run'', upstream)
  {
    forall id | id in run.rows && id != upstream
      ensures run''.rows[id] == run.rows[id] || IsReleasedBy(graph, run, run'', upstream, id)
    {
      assert run'.rows[id] == run.rows[id] || IsReleasedBy(graph, run, run', upstream, id);
    }
  }

  lemma MoveAndRelease(graph: Graph, run: Run, moved: Run, upstream: NodeId, now: int)
    requires moved.rows.Keys == run.rows.Keys
    requires forall id :: id in run.rows && id != upstream ==> moved.rows[id] == run.rows[id]
    ensures LeavesOrReleases(graph, run, moved, upstream)
    ensures LeavesOrReleases(graph, run, Released(graph, moved, upstream, now), upstream)
  {
    forall id | id in run.rows && id != upstream
      ensures var after := Released(graph, moved, upstream, now);
              id in after.rows
              && (after.rows[id] == run.rows[id] || IsReleasedBy(graph, run, after, upstream, id))
    {
      ReleaseReturns(graph, moved, upstream, now, id);
    }
    ReleaseReturns(graph, moved, upstream, now, upstream);
  }

  lemma VerdictReleases(graph: Graph, run: Run, command: RecoverCommand, neededHuman: bool, answer: RecoverAnswer)
    ensures LeavesOrReleases(graph, run, VerdictRecorded(graph, run, command, neededHuman, answer), command.nodeId)
    ensures !Defers(command, answer) ==>
              forall id :: StepsBack(run, VerdictRecorded(graph, run, command, neededHuman, answer), id) == 0
  {
    var id, now := command.nodeId, answer.recordedAt;
    var added, resumeAt := VerdictAdded(run, command, now), command.GetResumeAt(now);
    if resumeAt.Some? {
      MoveAndRelease(graph, run, Waiting(added, id, resumeAt.value, RecoveryWait(resumeAt.value), now), id, now);
    }
  }

  lemma RecoveryGoesBack(config: Config, graph: Graph, run: Run, command: RecoverCommand, answer: RecoverAnswer,
                         id: NodeId)
    ensures var after := RecoverNode(config, graph, run, command, answer).0;
            StepsBack(run, after, id) > 0 ==>
              && IsAccepted(config, graph, run, command, answer) && (command.wakes || Defers(command, answer))
              && (id == command.nodeId || IsReleasedBy(graph, run, after, command.nodeId, id))
  {
    var own, after := command.nodeId, RecoverNode(config, graph, run, command, answer);
    AcceptedShowsBefore(config, graph, run, command, answer);
    if after.1 {
      var restored := if command.restoresMarks then MarksRestored(run, own) else run;
      var woken := restored;
      if command.wakes {
        woken := WokenByVerdict(graph, restored, own, run.agents[own].worktree, answer);
        WakeReleases(graph, run, restored, command, answer);
      }
      VerdictReleases(graph, woken, command, IsIn(run, own, NEEDS_HUMAN), answer);
      ReleasesCompose(graph, run, woken, after.0, own);
    }
  }

  lemma WakeReleases(graph: Graph, run: Run, restored: Run, command: RecoverCommand, answer: RecoverAnswer)
    requires restored.rows == run.rows && command.nodeId in restored.agents && command.nodeId in run.agents
    requires answer.wake.RecoveryWakeStarts?
    ensures var own := command.nodeId;
            LeavesOrReleases(graph, run, WokenByVerdict(graph, restored, own, run.agents[own].worktree, answer), own)
  {
    var own := command.nodeId;
    var session := ResumedSession(answer.wake.at, RecoveryTrigger, answer.wake.isFresh, run.agents[own].worktree);
    var woken := WithAgent(restored, own, AddSession(restored.agents[own], session));
    MoveAndRelease(graph, run, Recorded(woken, own, IN_PROGRESS, WokenByRecovery, answer.wokenAt), own, answer.wokenAt);
  }

  lemma {:induction false} AbortGoesOn(run: Run, keys: seq<SessionKey>, now: int, id: NodeId)
    ensures var after := SessionsKilled(run, keys, now);
            && after.rows.Keys == run.rows.Keys
            && (id in run.rows ==> after.rows[id] == run.rows[id] || after.rows[id].state == NEEDS_HUMAN)
    decreases |keys|
  {
    if keys != [] {
      AbortGoesOn(run, keys[..|keys| - 1], now, id);
    }
  }

  lemma PassGoesBack(config: Config, graph: Graph, run: Run, event: Event, id: NodeId)
    requires IsFit(graph, run) && (event.PendingPass? || event.InProgressPass? || event.RestingPass?)
    ensures var run' := Apply(config, graph, run, event);
            StepsBack(run, run', id) > 0 ==>
              StepsBack(run, run', id) == 1 && MayGoBack(config, graph, run, run', event, id)
  {
    match event
    case PendingPass(now, answers) =>
      PendingSweepMoves(config, graph, run, now, answers);
      SweepListIsSwept(graph, run, PENDING);
      PendingSweepIsSound(config, graph, run, GraphNodesIn(graph, run, PENDING), now, answers);
    case InProgressPass(answers) =>
      InProgressSweepMoves(config, graph, run, answers);
      SweepListIsSwept(graph, run, IN_PROGRESS);
      InProgressSweepIsSound(config, run, GraphNodesIn(graph, run, IN_PROGRESS), answers);
    case RestingPass(answers) =>
      RestingSweepMoves(config, graph, run, answers);
      SweepListIsSwept(graph, run, RESTING);
      RestingSweepIsSound(config, run, GraphNodesIn(graph, run, RESTING), answers);
  }

  /**
   Who goes back: a working node by a usage limit and a resting one by news, one step each; a retried node; a
   node whose verdict wakes or defers it; and the dependents these, or a skip, return to wait.
   */
  lemma OnlyTheseGoBack(config: Config, graph: Graph, run: Run, event: Event, id: NodeId)
    requires IsFit(graph, run) && StepsBack(run, Apply(config, graph, run, event), id) > 0
    ensures MayGoBack(config, graph, run, Apply(config, graph, run, event), event, id)
    ensures event.InProgressPass? || event.RestingPass? ==> StepsBack(run, Apply(config, graph, run, event), id) == 1
  {
    match event
    case SkipCommand(skipped, now) => SkipGoesBack(graph, run, skipped, now, id);
    case RetryCommand(retried, reset, now) => RetryGoesBack(graph, run, retried, reset, now, id);
    case Recovery(command, answer) => RecoveryGoesBack(config, graph, run, command, answer, id);
    case AbortCommand(keys, now) => AbortGoesOn(run, keys, now, id);
    case StopCommand(_, _, _) =>
    case AttemptsSpent(_, _) =>
    case _ => PassGoesBack(config, graph, run, event, id);
  }

  // ---------- steps on ----------

  /** The event takes some node of the graph a step on. */
  ghost predicate HelpsAlong(config: Config, graph: Graph, run: Run, event: Event)
  {
    match event
    case InProgressPass(answers) => SomeSessionEnds(config, graph, run, answers)
    case RestingPass(answers) => SomePullRequestEnds(config, graph, run, answers)
    case PendingPass(now, answers) =>
      || SomeCanGo(config, graph, run, now, answers)
      || (IsClear(config, graph, run, now, answers) && !NothingToSweep(graph, run))
    case SkipCommand(id, _) => id in Ids(graph) && (IsIn(run, id, PENDING) || IsIn(run, id, RESTING))
    case StopCommand(id, now, answer) => StopNode(config, graph, run, id, now, answer).1
    case AbortCommand(keys, _) => exists key :: key in keys && key.nodeId in Ids(graph) && IsSessionOpen(run, key)
    case _ => false
  }

  lemma AbortStepsOn(graph: Graph, run: Run, keys: seq<SessionKey>, now: int) returns (node: GraphNode)
    requires SessionsSound(run) && forall key :: key in keys ==> IsSessionOpen(run, key)
    requires exists key :: key in keys && key.nodeId in Ids(graph) && IsSessionOpen(run, key)
    ensures node in graph && DistanceOf(SessionsKilled(run, keys, now), node.id) < DistanceOf(run, node.id)
  {
    var key :| key in keys && key.nodeId in Ids(graph) && IsSessionOpen(run, key);
    node :| node in graph && node.id == key.nodeId;
    assert NodeSound(run, node.id);
    AbortIsSound(run, keys, now);
  }

  lemma CommandStepsOn(config: Config, graph: Graph, run: Run, event: Event) returns (node: GraphNode)
    requires IsFit(graph, run) && IsPermitted(config, graph, run, event) && HelpsAlong(config, graph, run, event)
    requires event.SkipCommand? || event.StopCommand? || event.AbortCommand?
    ensures node in graph && DistanceOf(Apply(config, graph, run, event), node.id) < DistanceOf(run, node.id)
  {
    match event
    case SkipCommand(id, now) =>
      node :| node in graph && node.id == id;
      SkipStates(graph, run, id, now);
    case StopCommand(id, now, answer) =>
      node := FirstDeclared(graph, id).value;
    case AbortCommand(keys, now) =>
      node := AbortStepsOn(graph, run, keys, now);
  }

  lemma HelpStepsOn(config: Config, graph: Graph, run: Run, event: Event) returns (node: GraphNode)
    requires IsFit(graph, run) && IsPermitted(config, graph, run, event) && HelpsAlong(config, graph, run, event)
    ensures node in graph && DistanceOf(Apply(config, graph, run, event), node.id) < DistanceOf(run, node.id)
  {
    match event
    case InProgressPass(answers) =>
      node :| node in graph && IsIn(run, node.id, IN_PROGRESS) && EndsForGood(config, run, node, answers(node.id));
      SettlingMovesOn(config, graph, run, answers, node);
    case RestingPass(answers) =>
      node :| && node in graph && IsIn(run, node.id, RESTING) && IsWatched(config, run, node)
              && (answers(node.id).pullRequest.IsMerged? || answers(node.id).pullRequest.IsClosed?);
      RestingMovesOn(config, graph, run, answers, node);
    case PendingPass(now, answers) =>
      if !SomeCanGo(config, graph, run, now, answers) {
        ClearMeansSomeCanGo(config, graph, run, now, answers);
      }
      node := SweepMovesOnSome(config, graph, run, now, answers);
    case _ => node := CommandStepsOn(config, graph, run, event);
  }

  /** An event that helps takes a run a step nearer its end, short of the steps it takes nodes back. */
  lemma EventStep(config: Config, graph: Graph, run: Run, event: Event)
    requires IsFit(graph, run) && IsPermitted(config, graph, run, event)
    ensures var run' := Apply(config, graph, run, event);
            RunDistance(graph, run') + (if HelpsAlong(config, graph, run, event) then 1 else 0) <=
            RunDistance(graph, run) + CountStepsBack(graph, run, run')
  {
    var run' := Apply(config, graph, run, event);
    DistanceAfter(graph, run, run');
    if HelpsAlong(config, graph, run, event) {
      var node := HelpStepsOn(config, graph, run, event);
      DistanceAfterStepOn(graph, run, run', node);
    }
  }

  // ---------- whole histories ----------

  /** How many of the first events help. */
  ghost function CountEventHelps(config: Config, graph: Graph, runs: seq<Run>, events: seq<Event>, j: nat): nat
    requires |runs| == |events| + 1 && j <= |events|
  {
    if j == 0 then 0
    else CountEventHelps(config, graph, runs, events, j - 1)
         + if HelpsAlong(config, graph, runs[j - 1], events[j - 1]) then 1 else 0
  }

  /** How many steps back the first events take the nodes of the graph. */
  function CountAllStepsBack(graph: Graph, runs: seq<Run>, j: nat): nat
    requires j < |runs|
  {
    if j == 0 then 0 else CountAllStepsBack(graph, runs, j - 1) + CountStepsBack(graph, runs[j - 1], runs[j])
  }

  /** Over any history, the events that help are at most the steps there were to take and those taken back. */
  lemma {:induction false} HelpsAreCounted(config: Config, graph: Graph, runs: seq<Run>, events: seq<Event>, j: nat)
    requires Acyclic(EdgesOf(graph)) && UniqueIds(graph) && IsHistory(config, graph, runs, events) && j <= |events|
    ensures RunDistance(graph, runs[j]) + CountEventHelps(config, graph, runs, events, j) <=
            3 * |graph| + CountAllStepsBack(graph, runs, j)
  {
    if j > 0 {
      HelpsAreCounted(config, graph, runs, events, j - 1);
      HistoryIsSound(config, graph, runs, events, j - 1);
      EventStep(config, graph, runs[j - 1], events[j - 1]);
    }
  }

  /**
   Every history settles: once the events that help have made up for three steps a node and every step back,
   nothing of the run waits, works or rests; it is complete if no node has stopped.
   */
  lemma HistorySettles(config: Config, graph: Graph, runs: seq<Run>, events: seq<Event>, j: nat)
    requires Acyclic(EdgesOf(graph)) && UniqueIds(graph) && IsHistory(config, graph, runs, events) && j <= |events|
    requires CountEventHelps(config, graph, runs, events, j) >= 3 * |graph| + CountAllStepsBack(graph, runs, j)
    ensures NothingToSweep(graph, runs[j])
    ensures GetRunStatus(graph, runs[j]) == CompleteRun <==> forall n :: n in graph ==> !IsStopped(runs[j], n.id)
    ensures GetRunStatus(graph, runs[j]) == ActiveRun <==> IsMixed(graph, runs[j])
  {
    HelpsAreCounted(config, graph, runs, events, j);
    HistoryIsSound(config, graph, runs, events, j);
    NoDistanceLeft(graph, runs[j]);
    SettledStatus(graph, runs[j]);
  }
}

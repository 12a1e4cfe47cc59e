/** Where one pass leaves a working or a resting node, and one command its node: every outcome, and exactly when. */
module NodeOutcomes {
  import opened Graphs
  import opened GraphServices
  import opened Options
  import opened Signals
  import opened Runs
  import opened InProgressNodes
  import opened RestingNodes
  import opened DependentReleases
  import opened NodeOperators
  import opened RunInvariants
  import opened StopPropagation
  import opened Watermarks

  // ---------- working nodes ----------

  /** The session is over and nothing of it runs any more, so the node may be settled. */
  predicate IsOver(config: Config, run: Run, node: GraphNode, answer: SettleAnswer)
  {
    && HasSession(run, node.id) && HasLauncher(config, node)
    && (answer.status.HasFinished? || (answer.status.IsOverdue? && answer.canStop))
  }

  /** The pull request the session leaves: its branch's, or else the one already known. */
  function PullRequestNumber(run: Run, id: NodeId, answer: SettleAnswer): nat
    requires HasSession(run, id) && answer.branch.BranchRead?
  {
    if answer.branch.prNumber != 0 then answer.branch.prNumber else run.agents[id].worktree.value.prNumber
  }

  /** The head of the pull request can be read and, where it moved, its commits counted. */
  predicate IsHeadKnown(run: Run, id: NodeId, answer: SettleAnswer)
    requires HasSession(run, id)
  {
    var known := run.agents[id].worktree.value.headSha;
    answer.headSha.Some? && (known == "" || known == answer.headSha.value || answer.canCountCommits)
  }

  lemma SettledOutcome(run: Run, id: NodeId, answer: SettleAnswer)
    requires IsIn(run, id, IN_PROGRESS) && HasSession(run, id)
    ensures var after, limit, branch := Settled(run, id, answer).0, answer.limit, answer.branch;
            && (IsIn(after, id, PENDING) <==> limit.ResetsAt?)
            && (limit.ResetsAt? ==> after.rows[id].resumeAt == Some(limit.time))
            && (IsIn(after, id, RESTING) <==>
                  limit.NoLimit? && branch.BranchRead? && PullRequestNumber(run, id, answer) != 0
                  && IsHeadKnown(run, id, answer))
            && (IsIn(after, id, ERRORED) <==>
                  limit.NoLimit? && branch.BranchRead? && PullRequestNumber(run, id, answer) == 0
                    && answer.status.IsOverdue?)
            && (IsIn(after, id, NEEDS_HUMAN) <==>
                  limit.NoLimit? && branch.BranchRead? && PullRequestNumber(run, id, answer) == 0
                    && !answer.status.IsOverdue?)
            && (IsIn(after, id, RESTING) ==>
                  after.agents[id].worktree ==
                  Some(WorkTree(PullRequestNumber(run, id, answer), answer.headSha.value,
                                run.agents[id].worktree.value.marks)))
            && !IsIn(after, id, MERGED) && !IsIn(after, id, SKIPPED)
  {
  }

  /**
   A working node waits for its usage limit, rests on its pull request, errs or goes to a human exactly
   as its session ended; as long as that cannot be told, it stays in progress.
   */
  lemma WorkingNodeOutcome(config: Config, run: Run, node: GraphNode, answer: SettleAnswer)
    requires IsIn(run, node.id, IN_PROGRESS)
    ensures var after, id := InProgressAdvance(config, run, node, answer).0, node.id;
            var settles := IsOver(config, run, node, answer);
            var isRead := settles && answer.limit.NoLimit? && answer.branch.BranchRead?;
            && (IsIn(after, id, PENDING) <==> settles && answer.limit.ResetsAt?)
            && (IsIn(after, id, PENDING) ==> after.rows[id].resumeAt == Some(answer.limit.time))
            && (IsIn(after, id, RESTING) <==>
                  isRead && PullRequestNumber(run, id, answer) != 0 && IsHeadKnown(run, id, answer))
            && (IsIn(after, id, ERRORED) <==>
                  !HasSession(run, id)
                  || (isRead && PullRequestNumber(run, id, answer) == 0 && answer.status.IsOverdue?))
            && (IsIn(after, id, NEEDS_HUMAN) <==>
                  isRead && PullRequestNumber(run, id, answer) == 0 && answer.status.HasFinished?)
            && !IsIn(after, id, MERGED) && !IsIn(after, id, SKIPPED)
  {
    if IsOver(config, run, node, answer) {
      var id := node.id;
      if answer.status.IsOverdue? {
        var closed := SessionClosed(run, id, IsOverdue, None, answer.wallClock);
        assert closed.agents[id].worktree == run.agents[id].worktree;
        SettledOutcome(closed, id, answer);
      } else {
        SettledOutcome(run, id, answer);
      }
    }
  }

  // ---------- resting nodes ----------

  /** The pull request of the node can be asked about. */
  predicate IsWatched(config: Config, run: Run, node: GraphNode)
  {
    && node.id in run.agents && run.agents[node.id].worktree.Some?
    && run.agents[node.id].worktree.value.prNumber != 0 && HasLauncher(config, node)
  }

  /** News on the open pull request asks for a wake. */
  predicate IsAskedFor(config: Config, run: Run, node: GraphNode, answer: RestingAnswer)
  {
    && IsWatched(config, run, node) && answer.pullRequest.IsOpen?
    && NeedsWake(config.agentAccount, answer.pullRequest.reading, run.agents[node.id].worktree.value.marks)
  }

  lemma NewsOutcomes(config: Config, run: Run, id: NodeId, reading: Reading, answer: RestingAnswer)
    requires IsIn(run, id, RESTING) && id in run.agents && run.agents[id].worktree.Some?
    ensures var after := NewsHandled(config, run, id, reading, answer).0;
            var asked := NeedsWake(config.agentAccount, reading, run.agents[id].worktree.value.marks);
            var hasWakes := CountWakes(run.agents[id].sessions) < config.nodeWakes;
            var starts := |IdsIn(run, IN_PROGRESS)| < config.maxWorkers && answer.wake.WakeStarts?;
            && (IsIn(after, id, IN_PROGRESS) <==> asked && hasWakes && starts)
            && (IsIn(after, id, NEEDS_HUMAN) <==> asked && !hasWakes)
            && (IsIn(after, id, RESTING) <==> !asked || (hasWakes && !starts))
  {
    var changes := Changes(config.agentAccount, reading, run.agents[id].worktree.value.marks);
    assert changes == [] ==> WakingChanges(changes) == [];
  }

  /**
   A resting node merges with its pull request, goes to a human when that closes or its wakes are
   spent, works when it is asked for, has a wake and a worker is free, and otherwise rests.
   */
  lemma RestingNodeOutcome(config: Config, run: Run, node: GraphNode, answer: RestingAnswer)
    requires IsIn(run, node.id, RESTING)
    ensures var after, id := RestingAdvance(config, run, node, answer).0, node.id;
            var asked := IsAskedFor(config, run, node, answer);
            var hasWakes := asked && CountWakes(run.agents[id].sessions) < config.nodeWakes;
            && (IsIn(after, id, MERGED) <==> IsWatched(config, run, node) && answer.pullRequest.IsMerged?)
            && (IsIn(after, id, NEEDS_HUMAN) <==>
                  (IsWatched(config, run, node) && answer.pullRequest.IsClosed?) || (asked && !hasWakes))
            && (IsIn(after, id, IN_PROGRESS) <==>
                  hasWakes && |IdsIn(run, IN_PROGRESS)| < config.maxWorkers && answer.wake.WakeStarts?)
            && (IsIn(after, id, ERRORED) <==> id !in run.agents || run.agents[id].worktree.None?)
            && !IsIn(after, id, PENDING) && !IsIn(after, id, SKIPPED)
  {
    if IsWatched(config, run, node) && answer.pullRequest.IsOpen? {
      NewsOutcomes(config, run, node.id, answer.pullRequest.reading, answer);
    }
  }

  // ---------- operator commands ----------

  /** The run of a retry before the dependents are released. */
  function SentBack(run: Run, id: NodeId, attempts: int, reset: bool, now: int): Run
  {
    var renewed := AttemptsReset(run, id, attempts);
    Recorded(if reset then TokenCleared(renewed, id) else renewed, id, PENDING, SentBackToWork, now)
  }

  lemma SentBackOutcome(run: Run, id: NodeId, attempts: int, reset: bool, now: int)
    requires id in run.rows
    ensures var after := SentBack(run, id, attempts, reset, now);
            && after.order == run.order && after.rows.Keys == run.rows.Keys && after.agents.Keys == run.agents.Keys
            && after.rows == run.rows[id := Row(PENDING, now, None, attempts, run.rows[id].settledAt)]
            && (forall other :: other in run.agents ==>
                  after.agents[other] ==
                  if reset && other == id then run.agents[other].(hasToken := false) else run.agents[other])
            && (forall other :: other != id ==> LatestNote(after.audits, other) == LatestNote(run.audits, other))
  {
    var renewed := AttemptsReset(run, id, attempts);
    RecordedNotes(if reset then TokenCleared(renewed, id) else renewed, id, PENDING, SentBackToWork, now);
  }

  /** A release returns exactly the releasable dependents. */
  lemma ReleaseOutcome(graph: Graph, run: Run, id: NodeId, now: int, other: NodeId)
    requires Stored(graph, run) && other in run.rows
    ensures var after := Released(graph, run, id, now);
            && after.rows.Keys == run.rows.Keys && after.agents == run.agents
            && (if other in DescendantIds(graph, id) && IsReleasable(graph, run, other)
                then after.rows[other].state == PENDING else after.rows[other] == run.rows[other])
  {
    assert other in run.order;
  }

  /** What a retry that is done leaves of one node. */
  ghost predicate IsRetried(graph: Graph, run: Run, after: Run, id: NodeId, attempts: int, now: int, other: NodeId)
    requires id in run.rows && other in run.rows && other in after.rows
  {
    if other == id then after.rows[id] == Row(PENDING, now, None, attempts, run.rows[id].settledAt)
    else if other in DescendantIds(graph, id) && IsReleasable(graph, run, other) then after.rows[other].state == PENDING
    else after.rows[other] == run.rows[other]
  }

  lemma RetriedNode(graph: Graph, run: Run, id: NodeId, attempts: int, reset: bool, now: int, other: NodeId)
    requires Stored(graph, run) && id in run.rows && other in run.rows
    ensures var after := Released(graph, SentBack(run, id, attempts, reset, now), id, now);
            other in after.rows && IsRetried(graph, run, after, id, attempts, now, other)
  {
    var sent := SentBack(run, id, attempts, reset, now);
    SentBackOutcome(run, id, attempts, reset, now);
    ReleaseOutcome(graph, sent, id, now, other);
    assert other != id ==> (IsReleasable(graph, sent, other) <==> IsReleasable(graph, run, other));
  }

  /**
   A retry is done exactly for a stopped node the graph declares. It renews the row, returns the
   dependents the node had stopped, touches no session, and drops a conversation only on reset.
   */
  lemma RetryOutcome(graph: Graph, run: Run, id: NodeId, reset: bool, now: int)
    requires Stored(graph, run)
    ensures var (after, isDone) := RetryNode(graph, run, id, reset, now);
            && isDone == (IsStopped(run, id) && id in Ids(graph))
            && (!isDone ==> after == run)
            && (isDone ==>
                  && (forall other :: other in run.rows ==>
                        other in after.rows
                        && IsRetried(graph, run, after, id, FirstDeclared(graph, id).value.recoveryAttemptsAllowed,
                                     now, other))
                  && after.agents.Keys == run.agents.Keys
                  && (forall other :: other in run.agents ==>
                        after.agents[other] ==
                        if reset && other == id then run.agents[other].(hasToken := false) else run.agents[other]))
  {
    var declared := FirstDeclared(graph, id);
    if IsStopped(run, id) && declared.Some? {
      var attempts := declared.value.recoveryAttemptsAllowed;
      var sent := SentBack(run, id, attempts, reset, now);
      assert RetryNode(graph, run, id, reset, now) == (Released(graph, sent, id, now), true);
      SentBackOutcome(run, id, attempts, reset, now);
      ReleaseOutcome(graph, sent, id, now, id);
      forall other | other in run.rows
        ensures var after := Released(graph, sent, id, now);
                other in after.rows && IsRetried(graph, run, after, id, attempts, now, other)
      {
        RetriedNode(graph, run, id, attempts, reset, now, other);
      }
    }
  }

  /** A stop that is done closes the latest session as stopped and parks the node; nothing else changes. */
  lemma StopOutcome(config: Config, graph: Graph, run: Run, id: NodeId, now: int, answer: StopAnswer)
    ensures var (after, isDone) := StopNode(config, graph, run, id, now, answer);
            && (!isDone ==> after == run)
            && (isDone ==>
                  && IsIn(run, id, IN_PROGRESS) && IsIn(after, id, NEEDS_HUMAN)
                  && AgentSession(after, id).Some?
                  && AgentSession(after, id).value.endedAt == Some(now)
                  && AgentSession(after, id).value.endState == Stopped
                  && after.rows.Keys == run.rows.Keys && after.agents.Keys == run.agents.Keys
                  && (forall other :: other != id && other in run.rows ==> after.rows[other] == run.rows[other])
                  && (forall other :: other != id && other in run.agents ==> after.agents[other] == run.agents[other]))
  {
  }

  lemma StoppedNode(config: Config, graph: Graph, run: Run, id: NodeId, now: int, answer: StopAnswer)
    requires Stored(graph, run) && StopNode(config, graph, run, id, now, answer).1
    ensures var stopped := StopNode(config, graph, run, id, now, answer).0;
            && id in Ids(graph) && id in stopped.agents && Stored(graph, stopped) && IsStopped(stopped, id)
            && stopped.agents[id].hasToken == run.agents[id].hasToken
            && (SessionsFit(run.agents[id].sessions, true) ==> SessionsFit(stopped.agents[id].sessions, false))
            && (forall other :: other != id ==>
                  (IsReleasable(graph, stopped, other) <==> IsReleasable(graph, run, other)))
  {
    StopOutcome(config, graph, run, id, now, answer);
    RecordedNotes(WithAgent(run, id, CloseLatest(run.agents[id], now, Stopped)), id, NEEDS_HUMAN, StoppedByPerson, now);
  }

  /**
   A stop and a retry give the node back its work: it is pending with its attempts renewed and nothing to
   wait for, its conversation is kept with the last session closed as stopped, and no other node changes
   but the dependents an upstream stop had held back.
   */
  lemma StopThenRetry(config: Config, graph: Graph, run: Run, id: NodeId, now: int, answer: StopAnswer, later: int)
    requires Stored(graph, run) && StopNode(config, graph, run, id, now, answer).1
    ensures var stopped := StopNode(config, graph, run, id, now, answer).0;
            var (after, isDone) := RetryNode(graph, stopped, id, false, later);
            && isDone && id in after.rows && id in after.agents
            && after.rows[id].state == PENDING && after.rows[id].resumeAt == None
            && after.agents.Keys == run.agents.Keys && after.agents[id].hasToken == run.agents[id].hasToken
            && (SessionsFit(run.agents[id].sessions, true) ==> SessionsFit(after.agents[id].sessions, false))
            && (forall other :: other != id && other in run.agents ==> after.agents[other] == run.agents[other])
            && (forall other :: other != id && other in run.rows && !IsReleasable(graph, run, other) ==>
                  other in after.rows && after.rows[other] == run.rows[other])
  {
    var stopped := StopNode(config, graph, run, id, now, answer).0;
    StopOutcome(config, graph, run, id, now, answer);
    StoppedNode(config, graph, run, id, now, answer);
    RetryOutcome(graph, stopped, id, false, later);
  }
}

/**
 What every step of a run keeps: merged and skipped nodes stay so, an open session belongs to a
 node in progress, and what was cleared to start stays cleared.
 */
module RunInvariants {
  import opened Graphs
  import opened GraphServices
  import opened Options
  import opened Signals
  import opened Runs
  import opened PendingNodes
  import opened InProgressNodes
  import opened RestingNodes
  import opened DependentReleases
  import opened NodeOperators

  ghost predicate UniqueIds(graph: Graph)
  {
    forall i, j :: 0 <= i < j < |graph| ==> graph[i].id != graph[j].id
  }

  // ---------- one node's row and sessions ----------

  /** Only the latest session may be open, and only while the node is in progress. */
  ghost predicate SessionsFit(sessions: seq<Session>, isInProgress: bool)
  {
    forall k :: 0 <= k < |sessions| && sessions[k].endedAt.None? ==> k == |sessions| - 1 && isInProgress
  }

  ghost predicate NodeSound(run: Run, id: NodeId)
  {
    && (IsIn(run, id, IN_PROGRESS) ==> id in run.agents)
    && (id in run.agents ==>
          && id in run.rows
          && run.agents[id].worktree.Some?
          && SessionsFit(run.agents[id].sessions, IsIn(run, id, IN_PROGRESS)))
  }

  /** Every open session belongs to a node in progress, which has only that one open. */
  ghost predicate SessionsSound(run: Run)
  {
    forall id :: NodeSound(run, id)
  }

  /** The step changed no row and no agent but this node's. */
  ghost predicate Touches(run: Run, run': Run, id: NodeId)
  {
    && run'.order == run.order
    && run'.rows.Keys == run.rows.Keys
    && run.agents.Keys <= run'.agents.Keys
    && (forall other :: other != id && other in run.rows ==> run'.rows[other] == run.rows[other])
    && (forall other :: other != id ==> (other in run'.agents <==> other in run.agents))
    && (forall other :: other != id && other in run.agents ==> run'.agents[other] == run.agents[other])
  }

  /** Merged rows keep their state and time, and skipped nodes stay skipped. */
  ghost predicate Forward(run: Run, run': Run)
  {
    && run'.order == run.order
    && run'.rows.Keys == run.rows.Keys
    && (forall id :: IsIn(run, id, MERGED) ==>
                       IsIn(run', id, MERGED) && run'.rows[id].updatedAt == run.rows[id].updatedAt)
    && (forall id :: IsIn(run, id, SKIPPED) ==> IsIn(run', id, SKIPPED))
  }

  /** The step is sound for its node: nothing else changes, nothing merged or skipped is undone. */
  ghost predicate SoundStep(run: Run, run': Run, id: NodeId)
  {
    Touches(run, run', id) && NodeSound(run', id) && Forward(run, run')
  }

  lemma SoundStepKeepsSessions(run: Run, run': Run, id: NodeId)
    requires SessionsSound(run) && SoundStep(run, run', id)
    ensures SessionsSound(run')
  {
    forall other ensures NodeSound(run', other) {
      assert NodeSound(run, other);
    }
  }

  // ---------- the writes steps are made of ----------

  /** A node that is neither merged nor skipped, so that a step may move it anywhere. */
  predicate IsMovable(run: Run, id: NodeId)
  {
    id in run.rows && run.rows[id].state != MERGED && run.rows[id].state != SKIPPED
  }

  ghost predicate AgentFits(agent: Agent, state: NodeState)
  {
    agent.worktree.Some? && SessionsFit(agent.sessions, state == IN_PROGRESS)
  }

  lemma NothingIsSound(run: Run, id: NodeId)
    requires NodeSound(run, id)
    ensures SoundStep(run, run, id)
  {
  }

  lemma AgentWriteIsSound(run: Run, id: NodeId, agent: Agent)
    requires NodeSound(run, id) && id in run.rows && AgentFits(agent, run.rows[id].state)
    ensures SoundStep(run, WithAgent(run, id, agent), id)
  {
  }

  /** A row write on a node whose agent, if any, fits the new state. */
  lemma MoveIsSound(run: Run, id: NodeId, state: NodeState, at: int, resumeAt: Option<int>, note: Note)
    requires IsMovable(run, id)
    requires state == IN_PROGRESS ==> id in run.agents
    requires id in run.agents ==> AgentFits(run.agents[id], state)
    ensures SoundStep(run, Audited(SetState(run, id, state, at, resumeAt), id, state, note, at), id)
  {
  }

  lemma SoundStepsCompose(run: Run, run': Run, run'': Run, id: NodeId)
    requires SoundStep(run, run', id) && SoundStep(run', run'', id)
    ensures SoundStep(run, run'', id)
  {
  }

  /** A resting place is reached from a row whose sessions are all closed. */
  lemma RecordedIsSound(run: Run, id: NodeId, state: NodeState, note: Note, at: int)
    requires NodeSound(run, id) && IsMovable(run, id) && !IsIn(run, id, IN_PROGRESS) && state != IN_PROGRESS
    ensures SoundStep(run, Recorded(run, id, state, note, at), id)
  {
    MoveIsSound(run, id, state, at, None, note);
  }

  /** The node's agent gets one more session, and the node goes to work. */
  lemma StartIsSound(run: Run, id: NodeId, agent: Agent, session: Session, note: Note, at: int)
    requires NodeSound(run, id) && IsMovable(run, id) && !IsIn(run, id, IN_PROGRESS)
    requires agent.worktree.Some?
    requires agent.sessions == (if id in run.agents then run.agents[id].sessions else []) + [session]
    ensures SoundStep(run, Recorded(WithAgent(run, id, agent), id, IN_PROGRESS, note, at), id)
  {
    var written := WithAgent(run, id, agent);
    assert Touches(run, written, id) && Forward(run, written);
    MoveIsSound(written, id, IN_PROGRESS, at, None, note);
  }

  /** The latest session of a working node is closed; the node may then move on. */
  lemma CloseFits(agent: Agent, at: int, endState: EndState, state: NodeState)
    requires agent.sessions != [] && AgentFits(agent, IN_PROGRESS)
    ensures AgentFits(CloseLatest(agent, at, endState), state)
  {
  }

  // ---------- the steps of the three sweeps ----------

  lemma DecidedIsSound(config: Config, run: Run, node: GraphNode, now: int, answer: PendingAnswer,
                       stopped: seq<NodeId>, isAwaiting: bool, startTime: Option<int>)
    requires NodeSound(run, node.id) && IsIn(run, node.id, PENDING)
    ensures SoundStep(run, Decided(config, run, node, now, answer, stopped, isAwaiting, startTime).0, node.id)
  {
    var id := node.id;
    NothingIsSound(run, id);
    if stopped != [] {
      RecordedIsSound(run, id, NEEDS_HUMAN, UpstreamStopped(stopped[0]), now);
    } else if isAwaiting {
    } else if startTime.Some? && startTime.value > now {
      RecordedIsSound(run, id, PENDING, StartsAfterCooldown(startTime.value), answer.wallClock);
    } else if |IdsIn(run, IN_PROGRESS)| >= config.maxWorkers {
    } else if !HasLauncher(config, node) {
      RecordedIsSound(run, id, NEEDS_HUMAN, UnknownExecutor, now);
    } else if answer.launch.Started? {
      LaunchIsSound(run, node, now, answer);
    } else {
      RecordedIsSound(run, id, ERRORED, LaunchBlocked, now);
    }
  }

  lemma PendingAdvanceIsSound(config: Config, graph: Graph, run: Run, node: GraphNode, now: int, answer: PendingAnswer)
    requires NodeSound(run, node.id) && IsIn(run, node.id, PENDING)
    ensures SoundStep(run, PendingAdvance(config, graph, run, node, now, answer).0, node.id)
  {
    DecidedIsSound(config, run, node, now, answer, StoppedDependencies(graph, run, node.id),
                   AwaitsMerge(graph, run, node.id), NodeStartTime(graph, run, node));
  }

  lemma LaunchIsSound(run: Run, node: GraphNode, now: int, answer: PendingAnswer)
    requires NodeSound(run, node.id) && IsIn(run, node.id, PENDING) && answer.launch.Started?
    ensures SoundStep(run, PendingNodes.Launched(run, node, now, answer).0, node.id)
  {
    var id, after := node.id, PendingNodes.Launched(run, node, now, answer).0;
    var agent := after.agents[id];
    var entry := after.audits[|after.audits| - 1];
    StartIsSound(run, id, agent, agent.sessions[|agent.sessions| - 1], entry.note, entry.createdAt);
  }

  lemma SettledIsSound(run: Run, id: NodeId, answer: SettleAnswer)
    requires NodeSound(run, id) && IsIn(run, id, IN_PROGRESS) && HasSession(run, id)
    ensures SoundStep(run, Settled(run, id, answer).0, id)
  {
    NothingIsSound(run, id);
    var at, status, worktree := answer.wallClock, answer.status, run.agents[id].worktree.value;
    CloseIsSound(run, id, status, None, at, NEEDS_HUMAN);
    var closed := SessionClosed(run, id, status, None, at);
    if answer.limit.ResetsAt? {
      CloseIsSound(run, id, status, Some(UsageLimit), at, PENDING);
      var limited := SessionClosed(run, id, status, Some(UsageLimit), at);
      MoveIsSound(limited, id, PENDING, at, Some(answer.limit.time), UsageLimitWait(answer.limit.time));
      SoundStepsCompose(run, limited, Settled(run, id, answer).0, id);
    } else if answer.limit.LimitUnreadable? || answer.branch.BranchUnreadable? {
    } else {
      var number := if answer.branch.prNumber != 0 then answer.branch.prNumber else worktree.prNumber;
      if number != 0 && answer.headSha.None? {
      } else if number == 0 {
        MoveIsSound(closed, id, ERRORED, at, None, SessionOverdue);
        MoveIsSound(closed, id, NEEDS_HUMAN, at, None, FinishedWithoutPullRequest);
        SoundStepsCompose(run, closed, StoppedWithoutPullRequest(closed, id, status, at), id);
      } else {
        PublishIsSound(closed, id, status, number, answer.headSha.value, at);
        SoundStepsCompose(run, closed, Published(closed, id, status, number, answer.headSha.value, at), id);
      }
    }
  }

  lemma PublishIsSound(run: Run, id: NodeId, status: Supervision, number: nat, headSha: string, at: int)
    requires NodeSound(run, id) && IsIn(run, id, IN_PROGRESS) && AgentFits(run.agents[id], NEEDS_HUMAN)
    ensures SoundStep(run, Published(run, id, status, number, headSha, at), id)
  {
    var agent := run.agents[id];
    var worktree := agent.worktree.value;
    var agent' := agent.(worktree := Some(worktree.(prNumber := number, headSha := headSha)));
    assert agent'.sessions == agent.sessions;
    AgentWriteIsSound(run, id, agent');
    var written := WithAgent(run, id, agent');
    MoveIsSound(written, id, RESTING, at, None, RestingNote(status, worktree.prNumber, number));
    SoundStepsCompose(run, written, Published(run, id, status, number, headSha, at), id);
  }

  /** Closing the latest session of a working node is sound, and its agent then fits every state. */
  lemma CloseIsSound(run: Run, id: NodeId, status: Supervision, forced: Option<EndState>, at: int, state: NodeState)
    requires NodeSound(run, id) && IsIn(run, id, IN_PROGRESS) && HasSession(run, id)
    ensures SoundStep(run, SessionClosed(run, id, status, forced, at), id)
    ensures AgentFits(SessionClosed(run, id, status, forced, at).agents[id], state)
  {
    var agent := run.agents[id];
    var endState := FinalState(LatestSession(agent).value, status, forced);
    CloseFits(agent, at, endState, state);
    CloseFits(agent, at, endState, IN_PROGRESS);
    AgentWriteIsSound(run, id, CloseLatest(agent, at, endState));
  }

  lemma InProgressAdvanceIsSound(config: Config, run: Run, node: GraphNode, answer: SettleAnswer)
    requires NodeSound(run, node.id) && IsIn(run, node.id, IN_PROGRESS)
    ensures SoundStep(run, InProgressAdvance(config, run, node, answer).0, node.id)
  {
    NothingIsSound(run, node.id);
    if HasSession(run, node.id) {
      SettledIsSound(run, node.id, answer);
      var closed := SessionClosed(run, node.id, IsOverdue, None, answer.wallClock);
      CloseIsSound(run, node.id, IsOverdue, None, answer.wallClock, IN_PROGRESS);
      SettledIsSound(closed, node.id, answer);
      SoundStepsCompose(run, closed, Settled(closed, node.id, answer).0, node.id);
    } else {
      MoveIsSound(run, node.id, ERRORED, answer.wallClock, None, SessionNeverStarted);
    }
  }

  lemma RestingAdvanceIsSound(config: Config, run: Run, node: GraphNode, answer: RestingAnswer)
    requires NodeSound(run, node.id) && IsIn(run, node.id, RESTING)
    ensures SoundStep(run, RestingAdvance(config, run, node, answer).0, node.id)
  {
    var id, at := node.id, answer.wallClock;
    NothingIsSound(run, id);
    var after := RestingAdvance(config, run, node, answer).0;
    if id !in run.agents {
      RecordedIsSound(run, id, ERRORED, SessionNeverStarted, at);
    } else if answer.pullRequest.IsMerged? || answer.pullRequest.IsClosed? {
      var settled := PullRequestSettled(run, id, at);
      assert SoundStep(run, settled, id);
      var (state, note) := if answer.pullRequest.IsMerged? then (MERGED, PullRequestMerged)
                           else (NEEDS_HUMAN, ClosedUnmerged);
      RecordedIsSound(settled, id, state, note, at);
      SoundStepsCompose(run, settled, Recorded(settled, id, state, note, at), id);
    } else if after != run {
      NewsIsSound(config, run, id, answer.pullRequest.reading, answer);
    }
  }

  lemma NewsIsSound(config: Config, run: Run, id: NodeId, reading: Reading, answer: RestingAnswer)
    requires NodeSound(run, id) && IsIn(run, id, RESTING) && id in run.agents
    ensures SoundStep(run, NewsHandled(config, run, id, reading, answer).0, id)
  {
    NothingIsSound(run, id);
    var worktree := run.agents[id].worktree.value;
    var changes := Changes(config.agentAccount, reading, worktree.marks);
    var marked := worktree.(marks := Advanced(worktree.marks, changes));
    var after := NewsHandled(config, run, id, reading, answer);
    if after.1.sessionsStarted == 1 {
      var agent := after.0.agents[id];
      var session := ResumedSession(answer.wake.at, WakeTrigger, answer.wake.isFresh, run.agents[id].worktree);
      var woken := WithAgent(run, id, AddSession(run.agents[id], session));
      assert WithWorkTree(woken, id, marked.(headSha := reading.headSha)).agents == run.agents[id := agent];
      StartIsSound(run, id, agent, session, WorkResumed, answer.wallClock);
    } else if after.0 == WithWorkTree(run, id, marked) {
      AgentWriteIsSound(run, id, after.0.agents[id]);
    } else if after.0 != run {
      RecordedIsSound(run, id, NEEDS_HUMAN, OutOfWakes, answer.wallClock);
    }
  }

  // ---------- whole sweeps ----------

  /** A step over the whole run: sessions stay sound, nothing merged or skipped is undone, no agent appears. */
  ghost predicate SoundMove(run: Run, run': Run)
  {
    SessionsSound(run') && Forward(run, run') && run'.agents.Keys == run.agents.Keys
  }

  lemma SoundMovesCompose(run: Run, run': Run, run'': Run)
    requires SoundMove(run, run') && SoundMove(run', run'')
    ensures SoundMove(run, run'')
  {
  }

  lemma NodeStepIsSoundMove(run: Run, run': Run, id: NodeId)
    requires SessionsSound(run) && SoundStep(run, run', id)
    requires id in run'.agents ==> id in run.agents
    ensures SoundMove(run, run')
  {
    SoundStepKeepsSessions(run, run', id);
    assert NodeSound(run, id);
  }

  /** Rows of nodes outside the swept list are as they were. */
  ghost predicate Untouched(run: Run, run': Run, nodes: seq<GraphNode>)
  {
    forall id :: id in run.rows && id !in Ids(nodes) ==> id in run'.rows && run'.rows[id] == run.rows[id]
  }

  /** The list is a sweep's list: distinct nodes, all in this state. */
  ghost predicate SweptIn(run: Run, nodes: seq<GraphNode>, state: NodeState)
  {
    UniqueIds(nodes) && forall n :: n in nodes ==> IsIn(run, n.id, state)
  }

  /** The front of a sweep's list is one too, and does not hold its last node. */
  lemma SweepFront(run: Run, nodes: seq<GraphNode>, state: NodeState)
    requires nodes != [] && SweptIn(run, nodes, state)
    ensures SweptIn(run, nodes[..|nodes| - 1], state)
    ensures nodes[|nodes| - 1].id !in Ids(nodes[..|nodes| - 1])
    ensures Ids(nodes) == Ids(nodes[..|nodes| - 1]) + {nodes[|nodes| - 1].id}
  {
    var front, last := nodes[..|nodes| - 1], nodes[|nodes| - 1];
    assert nodes == front + [last];
    forall n | n in front ensures n.id != last.id {
      var i :| 0 <= i < |front| && front[i] == n;
      assert nodes[i] == n;
    }
  }

  lemma {:induction false} SweepListIsUnique(graph: Graph, ids: set<NodeId>)
    requires UniqueIds(graph)
    ensures UniqueIds(NodesWithIds(graph, ids))
  {
    if graph != [] {
      assert UniqueIds(graph[1..]);
      SweepListIsUnique(graph[1..], ids);
      var rest := NodesWithIds(graph[1..], ids);
      forall n | n in rest ensures n.id != graph[0].id {
        var i :| 0 <= i < |graph[1..]| && graph[1..][i] == n;
        assert graph[i + 1] == n;
      }
    }
  }

  lemma SweepListIsSwept(graph: Graph, run: Run, state: NodeState)
    requires UniqueIds(graph)
    ensures SweptIn(run, GraphNodesIn(graph, run, state), state)
  {
    SweepListIsUnique(graph, IdsIn(run, state));
  }

  lemma {:induction false} InProgressSweepIsSound(config: Config, run: Run, nodes: seq<GraphNode>,
                                                  answers: NodeId -> SettleAnswer)
    requires SessionsSound(run) && SweptIn(run, nodes, IN_PROGRESS)
    ensures SoundMove(run, InProgressSweepOver(config, run, nodes, answers).0)
    ensures Untouched(run, InProgressSweepOver(config, run, nodes, answers).0, nodes)
    decreases |nodes|
  {
    if nodes != [] {
      var node, front := nodes[|nodes| - 1], nodes[..|nodes| - 1];
      SweepFront(run, nodes, IN_PROGRESS);
      InProgressSweepIsSound(config, run, front, answers);
      var before := InProgressSweepOver(config, run, front, answers).0;
      assert node in nodes && NodeSound(before, node.id);
      InProgressAdvanceIsSound(config, before, node, answers(node.id));
      var after := InProgressAdvance(config, before, node, answers(node.id)).0;
      NodeStepIsSoundMove(before, after, node.id);
    }
  }

  lemma {:induction false} RestingSweepIsSound(config: Config, run: Run, nodes: seq<GraphNode>,
                                               answers: NodeId -> RestingAnswer)
    requires SessionsSound(run) && SweptIn(run, nodes, RESTING)
    ensures SoundMove(run, RestingSweepOver(config, run, nodes, answers).0)
    ensures Untouched(run, RestingSweepOver(config, run, nodes, answers).0, nodes)
    decreases |nodes|
  {
    if nodes != [] {
      var node, front := nodes[|nodes| - 1], nodes[..|nodes| - 1];
      SweepFront(run, nodes, RESTING);
      RestingSweepIsSound(config, run, front, answers);
      var before := RestingSweepOver(config, run, front, answers).0;
      assert node in nodes && NodeSound(before, node.id);
      RestingAdvanceIsSound(config, before, node, answers(node.id));
      RestingBindsNoAgent(config, before, node, answers(node.id));
      var after := RestingAdvance(config, before, node, answers(node.id)).0;
      NodeStepIsSoundMove(before, after, node.id);
    }
  }

  lemma RestingBindsNoAgent(config: Config, run: Run, node: GraphNode, answer: RestingAnswer)
    ensures RestingAdvance(config, run, node, answer).0.agents.Keys == run.agents.Keys
  {
  }

  // ---------- releases and the operator commands ----------

  lemma {:induction false} ReturnsAreSound(run: Run, ids: seq<NodeId>, now: int)
    requires SessionsSound(run) && forall id :: id in ids ==> IsIn(run, id, NEEDS_HUMAN)
    ensures SoundMove(run, ReturnedToPending(run, ids, now))
    ensures forall id :: id in run.rows ==>
              IsIn(ReturnedToPending(run, ids, now), id, if id in ids then PENDING else run.rows[id].state)
    decreases |ids|
  {
    if ids != [] {
      var id, front := ids[|ids| - 1], ids[..|ids| - 1];
      assert ids == front + [id];
      ReturnsAreSound(run, front, now);
      var before := ReturnedToPending(run, front, now);
      assert NodeSound(before, id) && IsIn(run, id, NEEDS_HUMAN);
      assert IsIn(before, id, if id in front then PENDING else NEEDS_HUMAN);
      RecordedIsSound(before, id, PENDING, UpstreamSkipped, now);
      NodeStepIsSoundMove(before, Recorded(before, id, PENDING, UpstreamSkipped, now), id);
    }
  }

  lemma ReleaseIsSound(graph: Graph, run: Run, id: NodeId, now: int)
    requires SessionsSound(run)
    ensures SoundMove(run, Released(graph, run, id, now))
  {
    ReturnsAreSound(run, ToRelease(graph, run, id), now);
  }

  lemma SkipIsSound(graph: Graph, run: Run, id: NodeId, now: int)
    requires SessionsSound(run)
    ensures SoundMove(run, SkipNode(graph, run, id, now).0)
  {
    if IsSkippable(run, id) {
      assert NodeSound(run, id);
      var marked := Recorded(run, id, SKIPPED, SkippedByHuman, now);
      assert SoundStep(run, marked, id);
      NodeStepIsSoundMove(run, marked, id);
      ReleaseIsSound(graph, marked, id, now);
      SoundMovesCompose(run, marked, SkipNode(graph, run, id, now).0);
    }
  }

  lemma RenewalIsSound(run: Run, id: NodeId, attempts: int, reset: bool)
    requires NodeSound(run, id) && id in run.rows
    ensures var renewed := AttemptsReset(run, id, attempts);
            SoundStep(run, if reset then TokenCleared(renewed, id) else renewed, id)
  {
    var renewed := AttemptsReset(run, id, attempts);
    assert SoundStep(run, renewed, id);
    if reset && id in run.agents {
      var agent := renewed.agents[id].(hasToken := false);
      AgentWriteIsSound(renewed, id, agent);
      SoundStepsCompose(run, renewed, TokenCleared(renewed, id), id);
    }
  }

  lemma RetryIsSound(graph: Graph, run: Run, id: NodeId, reset: bool, now: int)
    requires SessionsSound(run)
    ensures SoundMove(run, RetryNode(graph, run, id, reset, now).0)
  {
    var declared := FirstDeclared(graph, id);
    if IsStopped(run, id) && declared.Some? {
      assert NodeSound(run, id);
      var renewed := AttemptsReset(run, id, declared.value.recoveryAttemptsAllowed);
      var cleared := if reset then TokenCleared(renewed, id) else renewed;
      var returned := Recorded(cleared, id, PENDING, SentBackToWork, now);
      RenewalIsSound(run, id, declared.value.recoveryAttemptsAllowed, reset);
      RecordedIsSound(cleared, id, PENDING, SentBackToWork, now);
      SoundStepsCompose(run, cleared, returned, id);
      NodeStepIsSoundMove(run, returned, id);
      ReleaseIsSound(graph, returned, id, now);
    }
  }

  lemma StopIsSound(config: Config, graph: Graph, run: Run, id: NodeId, now: int, answer: StopAnswer)
    requires SessionsSound(run)
    ensures SoundMove(run, StopNode(config, graph, run, id, now, answer).0)
  {
    var after := StopNode(config, graph, run, id, now, answer);
    assert NodeSound(run, id);
    if after.1 {
      var closed := CloseLatest(run.agents[id], now, Stopped);
      CloseFits(run.agents[id], now, Stopped, IN_PROGRESS);
      CloseFits(run.agents[id], now, Stopped, NEEDS_HUMAN);
      AgentWriteIsSound(run, id, closed);
      MoveIsSound(WithAgent(run, id, closed), id, NEEDS_HUMAN, now, None, StoppedByPerson);
      SoundStepsCompose(run, WithAgent(run, id, closed), after.0, id);
      NodeStepIsSoundMove(run, after.0, id);
    }
  }

  /** Killing a listed session is sound when it is open, or when an earlier kill already parked its node. */
  lemma KillIsSound(run: Run, key: SessionKey, now: int)
    requires SessionsSound(run) && key.nodeId in run.agents && key.index < |run.agents[key.nodeId].sessions|
    requires IsSessionOpen(run, key) || IsIn(run, key.nodeId, NEEDS_HUMAN)
    ensures SoundMove(run, SessionKilled(run, key, now))
    ensures IsIn(SessionKilled(run, key, now), key.nodeId, NEEDS_HUMAN)
  {
    var id := key.nodeId;
    assert NodeSound(run, id);
    var agent := run.agents[id];
    var closed := agent.(sessions := agent.sessions[key.index := Close(agent.sessions[key.index], now, Aborted)]);
    assert AgentFits(closed, IN_PROGRESS) || IsIn(run, id, NEEDS_HUMAN);
    assert AgentFits(closed, NEEDS_HUMAN);
    AgentWriteIsSound(run, id, closed);
    MoveIsSound(WithAgent(run, id, closed), id, NEEDS_HUMAN, now, None, KilledByAbort);
    SoundStepsCompose(run, WithAgent(run, id, closed), SessionKilled(run, key, now), id);
    NodeStepIsSoundMove(run, SessionKilled(run, key, now), id);
  }

  /** The keys abort works on: every session the store lists as open, in whatever order. */
  ghost predicate ListsOpenSessions(run: Run, keys: seq<SessionKey>)
  {
    forall key :: key in keys <==> IsSessionOpen(run, key)
  }

  ghost predicate KilledAll(run: Run, run': Run, keys: seq<SessionKey>)
  {
    && (forall key :: key in keys ==> IsIn(run', key.nodeId, NEEDS_HUMAN))
    && (forall key :: IsSessionOpen(run', key) ==> IsSessionOpen(run, key) && key !in keys)
    && (forall id :: id in run.agents ==>
          id in run'.agents && |run'.agents[id].sessions| == |run.agents[id].sessions|)
    && (forall id :: id in run.agents && (forall key :: key in keys ==> key.nodeId != id) ==>
          run'.agents[id] == run.agents[id])
  }

  lemma KillExtends(run: Run, before: Run, keys: seq<SessionKey>, key: SessionKey, now: int)
    requires KilledAll(run, before, keys) && IsSessionOpen(run, key)
    requires IsIn(SessionKilled(before, key, now), key.nodeId, NEEDS_HUMAN)
    ensures KilledAll(run, SessionKilled(before, key, now), keys + [key])
  {
    var after := SessionKilled(before, key, now);
    forall other | IsSessionOpen(after, other)
      ensures IsSessionOpen(run, other) && other !in keys + [key]
    {
      assert IsSessionOpen(before, other);
    }
    forall id | id in run.agents && forall k :: k in keys + [key] ==> k.nodeId != id
      ensures after.agents[id] == run.agents[id]
    {
      assert key in keys + [key];
      assert forall k :: k in keys ==> k in keys + [key];
    }
  }

  lemma {:induction false} AbortIsSound(run: Run, keys: seq<SessionKey>, now: int)
    requires SessionsSound(run) && forall key :: key in keys ==> IsSessionOpen(run, key)
    ensures SoundMove(run, SessionsKilled(run, keys, now))
    ensures KilledAll(run, SessionsKilled(run, keys, now), keys)
    decreases |keys|
  {
    if keys != [] {
      var key, front := keys[|keys| - 1], keys[..|keys| - 1];
      assert keys == front + [key];
      AbortIsSound(run, front, now);
      var before := SessionsKilled(run, front, now);
      assert key in keys;
      if forall k :: k in front ==> k.nodeId != key.nodeId {
        assert before.agents[key.nodeId] == run.agents[key.nodeId];
      }
      KillIsSound(before, key, now);
      KillExtends(run, before, front, key, now);
      SoundMovesCompose(run, before, SessionsKilled(run, keys, now));
    }
  }

  /** After abort no session of the run is open. */
  lemma AbortClosesEverySession(run: Run, keys: seq<SessionKey>, now: int)
    requires SessionsSound(run) && ListsOpenSessions(run, keys)
    ensures forall key :: !IsSessionOpen(SessionsKilled(run, keys, now), key)
  {
    AbortIsSound(run, keys, now);
  }
}

/**
 The wake budget of a run: since its latest launch or human retry, a node is woken for reviews at
 most as often as the configuration allows, whatever else happens to it in between.
 */
module WakeBudgets {
  import opened Graphs
  import opened GraphServices
  import opened Options
  import opened Signals
  import opened Runs
  import opened PendingNodes
  import opened InProgressNodes
  import opened RestingNodes
  import opened DependentReleases
  import opened NodeOperators
  import opened NodeRecoveries
  import opened RecoveryScans
  import opened RunHistories

  /** The review wakes of a node since its latest launch or human retry. */
  function Wakes(run: Run, id: NodeId): nat
  {
    if id in run.agents then CountWakes(run.agents[id].sessions) else 0
  }

  /** The number of wakes of a node either did not rise or is within the budget. */
  ghost predicate IsWithinBudget(config: Config, before: nat, after: nat)
  {
    after <= before || after <= config.nodeWakes
  }

  ghost predicate BudgetKept(config: Config, run: Run, run': Run)
  {
    forall id :: IsWithinBudget(config, Wakes(run, id), Wakes(run', id))
  }

  // ---------- sessions ----------

  /** No launch and no human retry came after this session. */
  predicate IsSinceStart(sessions: seq<Session>, k: nat)
  {
    forall j :: k < j < |sessions| ==>
      sessions[j].triggeredBy != LaunchTrigger && sessions[j].triggeredBy != RetryTrigger
  }

  /** The reviews that woke the node since its latest launch or retry, by their places among the sessions. */
  function WakingSessions(sessions: seq<Session>): set<nat>
  {
    set k | 0 <= k < |sessions| && sessions[k].triggeredBy == WakeTrigger && IsSinceStart(sessions, k)
  }

  lemma WakingAfterOne(before: seq<Session>, last: Session)
    ensures WakingSessions(before + [last]) ==
            match last.triggeredBy
            case LaunchTrigger => {}
            case RetryTrigger => {}
            case WakeTrigger => WakingSessions(before) + {|before|}
            case RecoveryTrigger => WakingSessions(before)
  {
    var all, starts := before + [last], last.triggeredBy == LaunchTrigger || last.triggeredBy == RetryTrigger;
    assert all[|before|] == last;
    forall k: nat | k < |before| ensures IsSinceStart(all, k) <==> !starts && IsSinceStart(before, k) {
      assert forall j :: 0 <= j < |before| ==> all[j] == before[j];
    }
  }

  /** The wakes counted are exactly those sessions. */
  lemma {:induction false} WakesAreWakingSessions(sessions: seq<Session>)
    ensures CountWakes(sessions) == |WakingSessions(sessions)|
  {
    if sessions != [] {
      var before, last := sessions[..|sessions| - 1], sessions[|sessions| - 1];
      assert sessions == before + [last];
      WakingAfterOne(before, last);
      WakesAreWakingSessions(before);
    }
  }

  lemma {:induction false} SameTriggersSameWakes(a: seq<Session>, b: seq<Session>)
    requires |a| == |b| && forall k :: 0 <= k < |a| ==> a[k].triggeredBy == b[k].triggeredBy
    ensures CountWakes(a) == CountWakes(b)
  {
    if a != [] {
      SameTriggersSameWakes(a[..|a| - 1], b[..|b| - 1]);
    }
  }

  /** Closing a session is no wake. */
  lemma ClosingIsNoWake(sessions: seq<Session>, k: nat, at: int, endState: EndState)
    requires k < |sessions|
    ensures CountWakes(sessions[k := Close(sessions[k], at, endState)]) == CountWakes(sessions)
  {
    SameTriggersSameWakes(sessions[k := Close(sessions[k], at, endState)], sessions);
  }

  lemma WakesAfterStart(sessions: seq<Session>, session: Session)
    ensures CountWakes(sessions + [session]) ==
            match session.triggeredBy
            case LaunchTrigger => 0
            case RetryTrigger => 0
            case WakeTrigger => CountWakes(sessions) + 1
            case RecoveryTrigger => CountWakes(sessions)
  {
    assert (sessions + [session])[..|sessions|] == sessions;
  }

  // ---------- one node ----------

  /** Only this node's agent changed, and its wakes stayed within the budget. */
  ghost predicate AgentStep(config: Config, run: Run, run': Run, id: NodeId)
  {
    || run'.agents == run.agents
    || (&& id in run'.agents && run'.agents == run.agents[id := run'.agents[id]]
        && IsWithinBudget(config, Wakes(run, id), Wakes(run', id)))
  }

  lemma AgentStepKeepsBudget(config: Config, run: Run, run': Run, id: NodeId)
    requires AgentStep(config, run, run', id)
    ensures BudgetKept(config, run, run')
  {
  }

  lemma BudgetsCompose(config: Config, run: Run, run': Run, run'': Run)
    requires BudgetKept(config, run, run') && BudgetKept(config, run', run'')
    ensures BudgetKept(config, run, run'')
  {
    forall id ensures IsWithinBudget(config, Wakes(run, id), Wakes(run'', id)) {
      assert IsWithinBudget(config, Wakes(run, id), Wakes(run', id));
      assert IsWithinBudget(config, Wakes(run', id), Wakes(run'', id));
    }
  }

  /** Starting pending work is a launch, a retry or a recovery, never a wake. */
  lemma LaunchWithinBudget(config: Config, run: Run, node: GraphNode, now: int, answer: PendingAnswer)
    ensures AgentStep(config, run, PendingNodes.Launched(run, node, now, answer).0, node.id)
  {
    if answer.launch.Started? {
      var id, after := node.id, PendingNodes.Launched(run, node, now, answer).0;
      var sessions := if id in run.agents then run.agents[id].sessions else [];
      var agent := after.agents[id];
      assert agent.sessions == sessions + [agent.sessions[|agent.sessions| - 1]];
      WakesAfterStart(sessions, agent.sessions[|agent.sessions| - 1]);
    }
  }

  lemma DecidedWithinBudget(config: Config, run: Run, node: GraphNode, now: int, answer: PendingAnswer,
                            stopped: seq<NodeId>, isAwaiting: bool, startTime: Option<int>)
    ensures BudgetKept(config, run, Decided(config, run, node, now, answer, stopped, isAwaiting, startTime).0)
  {
    LaunchWithinBudget(config, run, node, now, answer);
    var after := Decided(config, run, node, now, answer, stopped, isAwaiting, startTime).0;
    assert AgentStep(config, run, after, node.id);
    AgentStepKeepsBudget(config, run, after, node.id);
  }

  lemma CloseStep(config: Config, run: Run, id: NodeId, status: Supervision, forced: Option<EndState>, at: int)
    requires HasSession(run, id)
    ensures AgentStep(config, run, SessionClosed(run, id, status, forced, at), id)
    ensures Wakes(SessionClosed(run, id, status, forced, at), id) == Wakes(run, id)
    ensures HasSession(SessionClosed(run, id, status, forced, at), id)
  {
    var agent := run.agents[id];
    ClosingIsNoWake(agent.sessions, |agent.sessions| - 1, at, FinalState(LatestSession(agent).value, status, forced));
  }

  lemma SettleStep(config: Config, run: Run, id: NodeId, answer: SettleAnswer)
    requires HasSession(run, id)
    ensures AgentStep(config, run, Settled(run, id, answer).0, id)
  {
    CloseStep(config, run, id, answer.status, None, answer.wallClock);
    CloseStep(config, run, id, answer.status, Some(UsageLimit), answer.wallClock);
  }

  lemma InProgressStep(config: Config, run: Run, node: GraphNode, answer: SettleAnswer)
    ensures BudgetKept(config, run, InProgressAdvance(config, run, node, answer).0)
  {
    var id, after := node.id, InProgressAdvance(config, run, node, answer).0;
    if HasSession(run, id) {
      var closed := SessionClosed(run, id, IsOverdue, None, answer.wallClock);
      CloseStep(config, run, id, IsOverdue, None, answer.wallClock);
      SettleStep(config, run, id, answer);
      SettleStep(config, closed, id, answer);
      AgentStepKeepsBudget(config, run, closed, id);
      AgentStepKeepsBudget(config, run, Settled(run, id, answer).0, id);
      AgentStepKeepsBudget(config, closed, Settled(closed, id, answer).0, id);
      BudgetsCompose(config, run, closed, Settled(closed, id, answer).0);
      AgentStepKeepsBudget(config, run, run, id);
    } else {
      AgentStepKeepsBudget(config, run, after, id);
    }
  }

  /** A review wake is refused once the budget is spent. */
  lemma NewsWithinBudget(config: Config, run: Run, id: NodeId, reading: Reading, answer: RestingAnswer)
    requires id in run.agents && run.agents[id].worktree.Some?
    ensures AgentStep(config, run, NewsHandled(config, run, id, reading, answer).0, id)
  {
    var after := NewsHandled(config, run, id, reading, answer);
    if after.1.sessionsStarted == 1 {
      var sessions := run.agents[id].sessions;
      var session := ResumedSession(answer.wake.at, WakeTrigger, answer.wake.isFresh, run.agents[id].worktree);
      assert after.0.agents[id].sessions == sessions + [session];
      WakesAfterStart(sessions, session);
    }
  }

  lemma RestingStep(config: Config, run: Run, node: GraphNode, answer: RestingAnswer)
    ensures AgentStep(config, run, RestingAdvance(config, run, node, answer).0, node.id)
  {
    if node.id in run.agents && run.agents[node.id].worktree.Some? && answer.pullRequest.IsOpen? {
      NewsWithinBudget(config, run, node.id, answer.pullRequest.reading, answer);
    }
  }

  // ---------- sweeps ----------

  lemma NothingKeepsBudget(config: Config, run: Run, run': Run)
    requires run'.agents == run.agents
    ensures BudgetKept(config, run, run')
  {
  }

  lemma {:induction false} PendingSweepBudget(config: Config, graph: Graph, run: Run, nodes: seq<GraphNode>, now: int,
                                              answers: NodeId -> PendingAnswer)
    ensures BudgetKept(config, run, PendingSweepOver(config, graph, run, nodes, now, answers).0)
    decreases |nodes|
  {
    if nodes == [] {
      NothingKeepsBudget(config, run, run);
    } else {
      var node, front := nodes[|nodes| - 1], nodes[..|nodes| - 1];
      PendingSweepBudget(config, graph, run, front, now, answers);
      var before := PendingSweepOver(config, graph, run, front, now, answers).0;
      var after := PendingAdvance(config, graph, before, node, now, answers(node.id)).0;
      DecidedWithinBudget(config, before, node, now, answers(node.id), StoppedDependencies(graph, before, node.id),
                          AwaitsMerge(graph, before, node.id), NodeStartTime(graph, before, node));
      BudgetsCompose(config, run, before, after);
    }
  }

  lemma {:induction false} InProgressSweepBudget(config: Config, run: Run, nodes: seq<GraphNode>,
                                                 answers: NodeId -> SettleAnswer)
    ensures BudgetKept(config, run, InProgressSweepOver(config, run, nodes, answers).0)
    decreases |nodes|
  {
    if nodes == [] {
      NothingKeepsBudget(config, run, run);
    } else {
      var node, front := nodes[|nodes| - 1], nodes[..|nodes| - 1];
      InProgressSweepBudget(config, run, front, answers);
      var before := InProgressSweepOver(config, run, front, answers).0;
      InProgressStep(config, before, node, answers(node.id));
      BudgetsCompose(config, run, before, InProgressAdvance(config, before, node, answers(node.id)).0);
    }
  }

  lemma {:induction false} RestingSweepBudget(config: Config, run: Run, nodes: seq<GraphNode>,
                                              answers: NodeId -> RestingAnswer)
    ensures BudgetKept(config, run, RestingSweepOver(config, run, nodes, answers).0)
    decreases |nodes|
  {
    if nodes == [] {
      NothingKeepsBudget(config, run, run);
    } else {
      var node, front := nodes[|nodes| - 1], nodes[..|nodes| - 1];
      RestingSweepBudget(config, run, front, answers);
      var before := RestingSweepOver(config, run, front, answers).0;
      var after := RestingAdvance(config, before, node, answers(node.id)).0;
      RestingStep(config, before, node, answers(node.id));
      AgentStepKeepsBudget(config, before, after, node.id);
      BudgetsCompose(config, run, before, after);
    }
  }

  // ---------- operators ----------

  lemma ReleaseSparesEveryAgent(graph: Graph, run: Run, id: NodeId, now: int)
    ensures Released(graph, run, id, now).agents == run.agents
  {
  }

  lemma RetryBudget(config: Config, graph: Graph, run: Run, id: NodeId, reset: bool, now: int)
    ensures BudgetKept(config, run, RetryNode(graph, run, id, reset, now).0)
  {
    var after := RetryNode(graph, run, id, reset, now).0;
    var declared := FirstDeclared(graph, id);
    if IsStopped(run, id) && declared.Some? {
      var renewed := AttemptsReset(run, id, declared.value.recoveryAttemptsAllowed);
      var token := if reset then TokenCleared(renewed, id) else renewed;
      ReleaseSparesEveryAgent(graph, Recorded(token, id, PENDING, SentBackToWork, now), id, now);
      assert after.agents == token.agents;
    }
    assert AgentStep(config, run, after, id);
    AgentStepKeepsBudget(config, run, after, id);
  }

  lemma StopBudget(config: Config, graph: Graph, run: Run, id: NodeId, now: int, answer: StopAnswer)
    ensures BudgetKept(config, run, StopNode(config, graph, run, id, now, answer).0)
  {
    var after := StopNode(config, graph, run, id, now, answer);
    if after.1 {
      ClosingIsNoWake(run.agents[id].sessions, |run.agents[id].sessions| - 1, now, Stopped);
    }
    AgentStepKeepsBudget(config, run, after.0, id);
  }

  lemma {:induction false} AbortBudget(config: Config, run: Run, keys: seq<SessionKey>, now: int)
    ensures BudgetKept(config, run, SessionsKilled(run, keys, now))
    decreases |keys|
  {
    if keys == [] {
      NothingKeepsBudget(config, run, run);
    } else {
      var key := keys[|keys| - 1];
      AbortBudget(config, run, keys[..|keys| - 1], now);
      var before := SessionsKilled(run, keys[..|keys| - 1], now);
      if key.nodeId in before.agents && key.index < |before.agents[key.nodeId].sessions| {
        ClosingIsNoWake(before.agents[key.nodeId].sessions, key.index, now, Aborted);
      }
      AgentStepKeepsBudget(config, before, SessionKilled(before, key, now), key.nodeId);
      BudgetsCompose(config, run, before, SessionsKilled(run, keys, now));
    }
  }

  lemma WokenByVerdictBudget(config: Config, graph: Graph, run: Run, id: NodeId, read: Option<WorkTree>,
                             answer: RecoverAnswer)
    requires id in run.agents && answer.wake.RecoveryWakeStarts?
    ensures AgentStep(config, run, WokenByVerdict(graph, run, id, read, answer), id)
  {
    var session := ResumedSession(answer.wake.at, RecoveryTrigger, answer.wake.isFresh, read);
    WakesAfterStart(run.agents[id].sessions, session);
    var woken := WithAgent(run, id, AddSession(run.agents[id], session));
    var recorded := Recorded(woken, id, IN_PROGRESS, WokenByRecovery, answer.wokenAt);
    ReleaseSparesEveryAgent(graph, recorded, id, answer.wokenAt);
  }

  lemma VerdictSparesAgents(graph: Graph, run: Run, command: RecoverCommand, neededHuman: bool, answer: RecoverAnswer)
    ensures VerdictRecorded(graph, run, command, neededHuman, answer).agents == run.agents
  {
    var id, now := command.nodeId, answer.recordedAt;
    var resumeAt := command.GetResumeAt(now);
    if resumeAt.Some? {
      var added := VerdictAdded(run, command, now);
      ReleaseSparesEveryAgent(graph, Waiting(added, id, resumeAt.value, RecoveryWait(resumeAt.value), now), id, now);
    }
  }

  lemma RecoveryBudget(config: Config, graph: Graph, run: Run, command: RecoverCommand, answer: RecoverAnswer)
    ensures BudgetKept(config, run, RecoverNode(config, graph, run, command, answer).0)
  {
    var id := command.nodeId;
    var after := RecoverNode(config, graph, run, command, answer);
    if after.0 == run {
      NothingKeepsBudget(config, run, run);
    } else {
      var restored := if command.restoresMarks then MarksRestored(run, id) else run;
      AgentStepKeepsBudget(config, run, restored, id);
      if after.1 {
        var woken := restored;
        if command.wakes {
          woken := WokenByVerdict(graph, restored, id, run.agents[id].worktree, answer);
          WokenByVerdictBudget(config, graph, restored, id, run.agents[id].worktree, answer);
        }
        AgentStepKeepsBudget(config, restored, woken, id);
        BudgetsCompose(config, run, restored, woken);
        VerdictSparesAgents(graph, woken, command, IsIn(run, id, NEEDS_HUMAN), answer);
        NothingKeepsBudget(config, woken, after.0);
        BudgetsCompose(config, run, woken, after.0);
      }
    }
  }

  // ---------- whole runs ----------

  lemma EventKeepsBudget(config: Config, graph: Graph, run: Run, event: Event)
    ensures BudgetKept(config, run, Apply(config, graph, run, event))
  {
    match event
    case PendingPass(now, answers) =>
      PendingSweepBudget(config, graph, run, GraphNodesIn(graph, run, PENDING), now, answers);
    case InProgressPass(answers) =>
      InProgressSweepBudget(config, run, GraphNodesIn(graph, run, IN_PROGRESS), answers);
    case RestingPass(answers) =>
      RestingSweepBudget(config, run, GraphNodesIn(graph, run, RESTING), answers);
    case SkipCommand(id, now) =>
      ReleaseSparesEveryAgent(graph, Recorded(run, id, SKIPPED, SkippedByHuman, now), id, now);
      NothingKeepsBudget(config, run, SkipNode(graph, run, id, now).0);
    case RetryCommand(id, reset, now) => RetryBudget(config, graph, run, id, reset, now);
    case StopCommand(id, now, answer) => StopBudget(config, graph, run, id, now, answer);
    case AbortCommand(keys, now) => AbortBudget(config, run, keys, now);
    case Recovery(command, answer) => RecoveryBudget(config, graph, run, command, answer);
    case AttemptsSpent(id, at) => NothingKeepsBudget(config, run, OutOfAttempts(run, id, at));
  }

  /**
   In every state of a history no node has been woken for reviews more often than the budget since its
   latest launch or retry; that needs neither unique ids nor orderly verdicts.
   */
  lemma {:induction false} WakeBudgetOverRuns(config: Config, graph: Graph, runs: seq<Run>, events: seq<Event>,
                                              j: nat, id: NodeId)
    requires |runs| == |events| + 1 && j <= |events| && runs[0].agents == map[]
    requires forall i :: 0 <= i < |events| ==> runs[i + 1] == Apply(config, graph, runs[i], events[i])
    ensures Wakes(runs[j], id) == 0 || Wakes(runs[j], id) <= config.nodeWakes
    decreases j
  {
    if j > 0 {
      WakeBudgetOverRuns(config, graph, runs, events, j - 1, id);
      EventKeepsBudget(config, graph, runs[j - 1], events[j - 1]);
      assert IsWithinBudget(config, Wakes(runs[j - 1], id), Wakes(runs[j], id));
    }
  }
}

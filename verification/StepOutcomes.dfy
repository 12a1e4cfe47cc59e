/**
 What one step of a pass leaves of its node: the row, the sessions, the worktree and the audit note, for each
 way a node can start, end its session or hear from its pull request.
 */
module StepOutcomes {
  import opened Graphs
  import opened GraphServices
  import opened Options
  import opened Signals
  import opened Runs
  import opened PendingNodes
  import opened InProgressNodes
  import opened RestingNodes
  import opened RunInvariants
  import opened StartSafety
  import opened StopPropagation
  import opened NodeOutcomes
  import opened WakeBudgets
  import opened RunCompletions

  /** The node's row has this state, time and resume time, and the audit trail says so; nothing else was written. */
  ghost predicate IsWritten(run: Run, run': Run, id: NodeId, state: NodeState, at: int, resumeAt: Option<int>,
                            note: Note)
    requires id in run.rows
  {
    var row := run.rows[id];
    && run'.rows == run.rows[id := Row(state, at, resumeAt, row.recoveryAttemptsAllowed, row.settledAt)]
    && run'.audits == run.audits + [AuditEntry(id, state, note, at)]
    && run'.recoveries == run.recoveries && run'.order == run.order
  }

  function SessionsOf(run: Run, id: NodeId): seq<Session>
  {
    if id in run.agents then run.agents[id].sessions else []
  }

  predicate HasToken(run: Run, id: NodeId)
  {
    id in run.agents && run.agents[id].hasToken
  }

  /** The node has one more session than before, open since this time. */
  ghost predicate OpensSession(run: Run, run': Run, id: NodeId, at: int)
  {
    var before, after := SessionsOf(run, id), SessionsOf(run', id);
    && id in run'.agents && run'.agents == run.agents[id := run'.agents[id]]
    && |after| == |before| + 1 && after[..|before|] == before
    && after[|before|].startedAt == at && after[|before|].endedAt.None? && after[|before|].endState == NoEnd
  }

  // ---------- a pending node ----------

  /** The pull request of another author that the node is to carry on, unless it only waited. */
  predicate TakesOver(run: Run, node: GraphNode)
    requires node.id in run.rows
  {
    node.isAdopted && !(run.rows[node.id].resumeAt.Some? && HasToken(run, node.id))
  }

  /**
   The session a start opens: a launch without a conversation to go on from, a recovery of a node that was
   given a time to resume, and a retry of any other.
   */
  ghost predicate HasStartSession(run: Run, run': Run, node: GraphNode, isFresh: bool)
    requires node.id in run.rows
  {
    var id, sessions := node.id, SessionsOf(run', node.id);
    var goesOn := HasToken(run, id) && !isFresh;
    && sessions != []
    && var session := sessions[|sessions| - 1];
       && (session.triggeredBy == LaunchTrigger <==> !goesOn)
       && (session.triggeredBy == RecoveryTrigger <==> goesOn && run.rows[id].resumeAt.Some?)
       && (session.triggeredBy == RetryTrigger <==> goesOn && run.rows[id].resumeAt.None?)
       && session.marksBefore ==
          if goesOn && !TakesOver(run, node) && run.agents[id].worktree.Some?
          then Some(run.agents[id].worktree.value.marks) else None
  }

  /** The worktree a start leaves: kept, or new without a pull request; a takeover has the number it was given. */
  ghost predicate HasStartWorkTree(run: Run, run': Run, node: GraphNode, prNumber: nat)
    requires node.id in run.rows
  {
    var id := node.id;
    var isKept := id in run.agents && run.agents[id].worktree.Some?;
    && id in run'.agents && run'.agents[id].hasToken
    && if TakesOver(run, node) then
         run'.agents[id].worktree ==
         Some(if isKept then run.agents[id].worktree.value.(prNumber := prNumber) else WorkTree(prNumber, "", map[]))
       else
         run'.agents[id].worktree ==
         if id in run.agents then run.agents[id].worktree else Some(WorkTree(0, "", map[]))
  }

  lemma LaunchStarts(run: Run, node: GraphNode, now: int, answer: PendingAnswer)
    requires IsIn(run, node.id, PENDING) && answer.launch.Started?
    ensures var id, run' := node.id, Launched(run, node, now, answer).0;
            && OpensSession(run, run', id, answer.launch.at)
            && HasStartSession(run, run', node, answer.launch.isFresh)
            && HasStartWorkTree(run, run', node, answer.launch.prNumber)
            && (if TakesOver(run, node)
                then IsWritten(run, run', id, IN_PROGRESS, answer.wallClock, None, TakeoverStarted)
                else IsWritten(run, run', id, IN_PROGRESS, now, None,
                               if HasToken(run, id) && answer.launch.isFresh
                               then ConversationStartedWithoutThread else WorkStarted))
  {
  }

  /** Everything the node's start needs is there. */
  ghost predicate IsReady(config: Config, graph: Graph, run: Run, node: GraphNode, now: int)
    requires node.id in run.rows
  {
    && DependenciesMerged(graph, run, node.id) && WaitIsOver(graph, run, node, now)
    && |IdsIn(run, IN_PROGRESS)| < config.maxWorkers
  }

  /** How a node that started was started, with the whole of what that wrote. */
  ghost predicate IsStarted(run: Run, run': Run, node: GraphNode, now: int, answer: PendingAnswer)
    requires node.id in run.rows
  {
    var id := node.id;
    && answer.launch.Started? && OpensSession(run, run', id, answer.launch.at)
    && HasStartSession(run, run', node, answer.launch.isFresh)
    && HasStartWorkTree(run, run', node, answer.launch.prNumber)
    && (if TakesOver(run, node)
        then IsWritten(run, run', id, IN_PROGRESS, answer.wallClock, None, TakeoverStarted)
        else IsWritten(run, run', id, IN_PROGRESS, now, None,
                       if HasToken(run, id) && answer.launch.isFresh
                       then ConversationStartedWithoutThread else WorkStarted))
  }

  lemma DecidedStart(config: Config, run: Run, node: GraphNode, now: int, answer: PendingAnswer,
                     stopped: seq<NodeId>, isAwaiting: bool, startTime: Option<int>)
    requires IsIn(run, node.id, PENDING)
    requires IsIn(Decided(config, run, node, now, answer, stopped, isAwaiting, startTime).0, node.id, IN_PROGRESS)
    ensures IsStarted(run, Decided(config, run, node, now, answer, stopped, isAwaiting, startTime).0, node, now, answer)
  {
    if answer.launch.Started? {
      LaunchStarts(run, node, now, answer);
    }
  }

  /**
   A pending node that starts keeps its earlier sessions and opens one more, of the kind its conversation and
   its resume time ask for, in the worktree it has or takes over.
   */
  lemma StartOutcome(config: Config, graph: Graph, run: Run, node: GraphNode, now: int, answer: PendingAnswer)
    requires IsIn(run, node.id, PENDING)
    requires IsIn(PendingAdvance(config, graph, run, node, now, answer).0, node.id, IN_PROGRESS)
    ensures IsStarted(run, PendingAdvance(config, graph, run, node, now, answer).0, node, now, answer)
  {
    DecidedStart(config, run, node, now, answer, StoppedDependencies(graph, run, node.id),
                 AwaitsMerge(graph, run, node.id), NodeStartTime(graph, run, node));
  }

  /** The time from which on the node's wait and cooldown are over. */
  ghost predicate IsStartTime(graph: Graph, run: Run, node: GraphNode, startTime: int)
    requires node.id in run.rows
  {
    forall t :: WaitIsOver(graph, run, node, t) <==> startTime <= t
  }

  /** A node that waits out its cooldown is noted once, unless its row was written since the cooldown began. */
  ghost predicate IsNoted(graph: Graph, run: Run, run': Run, node: GraphNode, answer: PendingAnswer)
    requires node.id in run.rows
  {
    var row := run.rows[node.id];
    exists startTime ::
      && IsStartTime(graph, run, node, startTime)
      && if row.resumeAt.None? && row.updatedAt + node.cooldownSeconds <= startTime
         then IsWritten(run, run', node.id, PENDING, answer.wallClock, None, StartsAfterCooldown(startTime))
         else run' == run
  }

  /** What else a pending node's turn can leave: a stop, an error, a noted cooldown or nothing at all. */
  ghost predicate IsHeldBack(config: Config, graph: Graph, run: Run, run': Run, node: GraphNode, now: int,
                             answer: PendingAnswer)
    requires node.id in run.rows
  {
    var id := node.id;
    if WaitsForStopped(graph, run, id) then
      exists stopped :: && stopped in WaitsFor(graph, run, id) && IsStopped(run, stopped)
                        && IsWritten(run, run', id, NEEDS_HUMAN, now, None, UpstreamStopped(stopped))
    else if DependenciesMerged(graph, run, id) && !WaitIsOver(graph, run, node, now) then
      IsNoted(graph, run, run', node, answer)
    else if !IsReady(config, graph, run, node, now) then run' == run
    else if !HasLauncher(config, node) then IsWritten(run, run', id, NEEDS_HUMAN, now, None, UnknownExecutor)
    else if answer.launch.Blocked? then IsWritten(run, run', id, ERRORED, now, None, LaunchBlocked)
    else run' == run
  }

  lemma DecidedOtherwise(config: Config, run: Run, node: GraphNode, now: int, answer: PendingAnswer,
                         stopped: seq<NodeId>, isAwaiting: bool, startTime: Option<int>)
    requires IsIn(run, node.id, PENDING)
    ensures var id := node.id;
            var (run', response) := Decided(config, run, node, now, answer, stopped, isAwaiting, startTime);
            && (stopped != [] ==> IsWritten(run, run', id, NEEDS_HUMAN, now, None, UpstreamStopped(stopped[0])))
            && (stopped == [] && isAwaiting ==> run' == run)
            && (stopped == [] && !isAwaiting && startTime.Some? && startTime.value > now ==>
                  if run.rows[id].resumeAt.None? && run.rows[id].updatedAt + node.cooldownSeconds <= startTime.value
                  then IsWritten(run, run', id, PENDING, answer.wallClock, None, StartsAfterCooldown(startTime.value))
                  else run' == run)
            && (stopped == [] && !isAwaiting && (startTime.None? || startTime.value <= now) ==>
                  if |IdsIn(run, IN_PROGRESS)| >= config.maxWorkers then run' == run
                  else if !HasLauncher(config, node) then
                    IsWritten(run, run', id, NEEDS_HUMAN, now, None, UnknownExecutor)
                  else if answer.launch.Blocked? then IsWritten(run, run', id, ERRORED, now, None, LaunchBlocked)
                  else if answer.launch.Unavailable? then run' == run
                  else IsIn(run', id, IN_PROGRESS))
            && response.eventsApplied == (if IsIn(run', id, PENDING) then 0 else 1)
            && (!IsIn(run', id, IN_PROGRESS) ==> run'.agents == run.agents)
  {
  }

  lemma StartTimeIsFound(graph: Graph, run: Run, node: GraphNode, now: int)
    requires Stored(graph, run) && IsIn(run, node.id, PENDING) && DependenciesMerged(graph, run, node.id)
    ensures !WaitIsOver(graph, run, node, now) ==>
              && NodeStartTime(graph, run, node).Some? && NodeStartTime(graph, run, node).value > now
              && IsStartTime(graph, run, node, NodeStartTime(graph, run, node).value)
  {
    StartTimeMeansWaitIsOver(graph, run, node, now);
    if !WaitIsOver(graph, run, node, now) {
      forall t ensures WaitIsOver(graph, run, node, t) <==> NodeStartTime(graph, run, node).value <= t {
        StartTimeMeansWaitIsOver(graph, run, node, t);
      }
    }
  }

  /** A pending node that does not start is stopped, errs or waits on exactly as its guards say. */
  lemma HeldBackOutcome(config: Config, graph: Graph, run: Run, node: GraphNode, now: int, answer: PendingAnswer)
    requires Stored(graph, run) && IsIn(run, node.id, PENDING)
    ensures var (run', response) := PendingAdvance(config, graph, run, node, now, answer);
            && (!IsIn(run', node.id, IN_PROGRESS) ==>
                  IsHeldBack(config, graph, run, run', node, now, answer) && run'.agents == run.agents)
            && response.eventsApplied == (if IsIn(run', node.id, PENDING) then 0 else 1)
  {
    var id := node.id;
    DecidedOtherwise(config, run, node, now, answer, StoppedDependencies(graph, run, id),
                     AwaitsMerge(graph, run, id), NodeStartTime(graph, run, node));
    StoppedMeansWaitsForStopped(graph, run, id);
    MergedMeansNothingToAwait(graph, run, id);
    if DependenciesMerged(graph, run, id) {
      StartTimeMeansWaitIsOver(graph, run, node, now);
      StartTimeIsFound(graph, run, node, now);
    }
    if StoppedDependencies(graph, run, id) != [] {
      assert StoppedDependencies(graph, run, id)[0] in StoppedDependencies(graph, run, id);
    }
  }

  /** Noting a cooldown changes nothing of the wait. */
  lemma NotedStillWaits(graph: Graph, run: Run, run': Run, node: GraphNode, startTime: int, at: int)
    requires Stored(graph, run) && IsIn(run, node.id, PENDING) && DependenciesMerged(graph, run, node.id)
    requires IsStartTime(graph, run, node, startTime) && run.rows[node.id].resumeAt.None?
    requires IsWritten(run, run', node.id, PENDING, at, None, StartsAfterCooldown(startTime))
    ensures Stored(graph, run') && IsIn(run', node.id, PENDING) && DependenciesMerged(graph, run', node.id)
    ensures IsStartTime(graph, run', node, startTime) && !WaitsForStopped(graph, run', node.id)
  {
    assert Skipped(run') == Skipped(run);
    assert WaitsFor(graph, run', node.id) == WaitsFor(graph, run, node.id);
    SameWait(graph, run, run', node);
  }

  lemma OneStartTime(graph: Graph, run: Run, node: GraphNode, t: int, t': int)
    requires node.id in run.rows && IsStartTime(graph, run, node, t) && IsStartTime(graph, run, node, t')
    ensures t == t'
  {
    assert WaitIsOver(graph, run, node, t) && WaitIsOver(graph, run, node, t');
  }

  /** A cooldown that was noted since it began is not noted again by a later turn that still waits for it. */
  lemma CooldownNotedOnce(config: Config, graph: Graph, run: Run, run': Run, node: GraphNode, startTime: int,
                          at: int, now: int, answer: PendingAnswer)
    requires Stored(graph, run) && IsIn(run, node.id, PENDING) && DependenciesMerged(graph, run, node.id)
    requires IsStartTime(graph, run, node, startTime) && run.rows[node.id].resumeAt.None?
    requires IsWritten(run, run', node.id, PENDING, at, None, StartsAfterCooldown(startTime))
    requires at + node.cooldownSeconds > startTime > now
    ensures PendingAdvance(config, graph, run', node, now, answer).0 == run'
  {
    var id, after := node.id, PendingAdvance(config, graph, run', node, now, answer).0;
    NotedStillWaits(graph, run, run', node, startTime, at);
    assert !WaitIsOver(graph, run', node, now);
    PendingNodeStartsIff(config, graph, run', node, now, answer);
    HeldBackOutcome(config, graph, run', node, now, answer);
    var again :| && IsStartTime(graph, run', node, again)
                 && if run'.rows[id].resumeAt.None? && run'.rows[id].updatedAt + node.cooldownSeconds <= again
                    then IsWritten(run', after, id, PENDING, answer.wallClock, None, StartsAfterCooldown(again))
                    else after == run';
    OneStartTime(graph, run', node, startTime, again);
  }

  lemma SameWait(graph: Graph, run: Run, run': Run, node: GraphNode)
    requires IsIn(run, node.id, PENDING) && IsIn(run', node.id, PENDING)
    requires run.rows[node.id].resumeAt == run'.rows[node.id].resumeAt
    requires run'.rows == run.rows[node.id := run'.rows[node.id]]
    requires WaitsFor(graph, run', node.id) == WaitsFor(graph, run, node.id)
    ensures forall t :: WaitIsOver(graph, run', node, t) <==> WaitIsOver(graph, run, node, t)
  {
  }

  // ---------- wakes that a start renews ----------

  /** A start takes the wakes of a node back to none, unless it resumes its conversation after a wait. */
  lemma StartRenewsWakes(config: Config, graph: Graph, run: Run, node: GraphNode, now: int, answer: PendingAnswer)
    requires IsIn(run, node.id, PENDING)
    requires IsIn(PendingAdvance(config, graph, run, node, now, answer).0, node.id, IN_PROGRESS)
    ensures answer.launch.Started?
    ensures Wakes(PendingAdvance(config, graph, run, node, now, answer).0, node.id) ==
            if answer.launch.Started? && Resumes(run, node.id, answer.launch.isFresh) then Wakes(run, node.id) else 0
  {
    StartOutcome(config, graph, run, node, now, answer);
    StartedWakes(run, PendingAdvance(config, graph, run, node, now, answer).0, node, now, answer);
  }

  /** The node goes on with its conversation after a wait. */
  predicate Resumes(run: Run, id: NodeId, isFresh: bool)
  {
    id in run.rows && run.rows[id].resumeAt.Some? && HasToken(run, id) && !isFresh
  }

  lemma StartedWakes(run: Run, run': Run, node: GraphNode, now: int, answer: PendingAnswer)
    requires node.id in run.rows && IsStarted(run, run', node, now, answer)
    ensures Wakes(run', node.id) == if Resumes(run, node.id, answer.launch.isFresh) then Wakes(run, node.id) else 0
  {
    var before, after := SessionsOf(run, node.id), SessionsOf(run', node.id);
    assert after == before + [after[|before|]];
    WakesAfterStart(before, after[|before|]);
  }

  // ---------- a working node ----------

  /** What the session left can be read as far as its node needs it. */
  predicate IsRead(run: Run, id: NodeId, answer: SettleAnswer)
    requires HasSession(run, id)
  {
    && answer.limit.NoLimit? && answer.branch.BranchRead?
    && (PullRequestNumber(run, id, answer) == 0 || answer.headSha.Some?)
  }

  /** The turn closes the session: it was stopped as overdue, or it finished and can be settled. */
  predicate Closes(config: Config, run: Run, node: GraphNode, answer: SettleAnswer)
  {
    && IsOver(config, run, node, answer)
    && (answer.status.IsOverdue? || answer.limit.ResetsAt? || IsRead(run, node.id, answer))
  }

  /**
   The latest session closed at this time and the others as they were: by the usage limit if it was one, and
   otherwise in the state on record, or else as the supervision found it.
   */
  ghost predicate IsClosed(run: Run, run': Run, id: NodeId, answer: SettleAnswer)
    requires HasSession(run, id)
  {
    var before, after := SessionsOf(run, id), SessionsOf(run', id);
    var last := |before| - 1;
    && run'.agents.Keys == run.agents.Keys && |after| == |before| && after[..last] == before[..last]
    && after[last].endedAt == Some(answer.wallClock)
    && after[last] == before[last].(endedAt := after[last].endedAt, endState := after[last].endState)
    && (if answer.limit.ResetsAt? then after[last].endState == UsageLimit
        else if before[last].endState != NoEnd then after[last].endState == before[last].endState
        else && (after[last].endState == Overdue <==> answer.status.IsOverdue?)
             && (after[last].endState == Finished <==> answer.status.HasFinished?))
  }

  lemma SettledSession(run: Run, id: NodeId, answer: SettleAnswer)
    requires HasSession(run, id) && !answer.status.IsAlive?
    ensures answer.limit.ResetsAt? || IsRead(run, id, answer) ==> IsClosed(run, Settled(run, id, answer).0, id, answer)
    ensures !(answer.limit.ResetsAt? || IsRead(run, id, answer)) ==> Settled(run, id, answer).0 == run
  {
  }

  /** A session stopped as overdue and settled in the same turn is closed once, as if by the settling alone. */
  lemma OverdueSession(run: Run, id: NodeId, answer: SettleAnswer)
    requires HasSession(run, id) && answer.status.IsOverdue?
    ensures IsClosed(run, Settled(SessionClosed(run, id, IsOverdue, None, answer.wallClock), id, answer).0, id, answer)
  {
    var closed := SessionClosed(run, id, IsOverdue, None, answer.wallClock);
    assert HasSession(closed, id) && closed.agents[id].worktree == run.agents[id].worktree;
    SettledSession(closed, id, answer);
  }

  /** A working node's session is closed exactly when it is over and can be settled, or was overdue and stopped. */
  lemma WorkingSessionOutcome(config: Config, run: Run, node: GraphNode, answer: SettleAnswer)
    requires HasSession(run, node.id)
    ensures var run' := InProgressAdvance(config, run, node, answer).0;
            if Closes(config, run, node, answer) then IsClosed(run, run', node.id, answer)
            else run'.agents == run.agents
  {
    if answer.status.IsOverdue? {
      OverdueSession(run, node.id, answer);
    } else if answer.status.HasFinished? {
      SettledSession(run, node.id, answer);
    }
  }

  /** What was written about the node, by the state it was left in. */
  ghost predicate IsSettledRow(run: Run, run': Run, id: NodeId, answer: SettleAnswer)
    requires id in run.rows && HasSession(run, id)
  {
    var at, known := answer.wallClock, run.agents[id].worktree.value.prNumber;
    && (IsIn(run', id, IN_PROGRESS) ==> run'.rows == run.rows && run'.audits == run.audits)
    && (IsIn(run', id, PENDING) ==>
          && answer.limit.ResetsAt?
          && IsWritten(run, run', id, PENDING, at, Some(answer.limit.time), UsageLimitWait(answer.limit.time)))
    && (IsIn(run', id, ERRORED) ==> IsWritten(run, run', id, ERRORED, at, None, SessionOverdue))
    && (IsIn(run', id, NEEDS_HUMAN) ==> IsWritten(run, run', id, NEEDS_HUMAN, at, None, FinishedWithoutPullRequest))
    && (IsIn(run', id, RESTING) ==>
          && answer.branch.BranchRead? && answer.headSha.Some?
          && var number := PullRequestNumber(run, id, answer);
             && number != 0
             && IsWritten(run, run', id, RESTING, at, None,
                          if answer.status.IsOverdue? then SessionOverdue
                          else if known == 0 then PullRequestOpened(number)
                          else SessionFinishedOnPullRequest(number)))
  }

  /** Only a node that comes to rest has its worktree moved on: to its pull request and head, with the marks kept. */
  ghost predicate IsSettledWorkTree(run: Run, run': Run, id: NodeId, answer: SettleAnswer)
    requires HasSession(run, id)
  {
    && id in run'.agents && run'.agents == run.agents[id := run'.agents[id]]
    && run'.agents[id].hasToken == run.agents[id].hasToken
    && run'.agents[id].worktree ==
       if IsIn(run', id, RESTING) && answer.branch.BranchRead? && answer.headSha.Some? then
         Some(WorkTree(PullRequestNumber(run, id, answer), answer.headSha.value, run.agents[id].worktree.value.marks))
       else run.agents[id].worktree
  }

  lemma SettledRow(run: Run, id: NodeId, answer: SettleAnswer)
    requires IsIn(run, id, IN_PROGRESS) && HasSession(run, id) && !answer.status.IsAlive?
    ensures var (run', response) := Settled(run, id, answer);
            && IsSettledRow(run, run', id, answer) && IsSettledWorkTree(run, run', id, answer)
            && response.eventsApplied == (if IsIn(run', id, IN_PROGRESS) then 0 else 1)
  {
  }

  lemma ClosedFirst(run: Run, id: NodeId, answer: SettleAnswer)
    requires IsIn(run, id, IN_PROGRESS) && HasSession(run, id) && answer.status.IsOverdue?
    ensures var (run', response) := Settled(SessionClosed(run, id, IsOverdue, None, answer.wallClock), id, answer);
            && IsSettledRow(run, run', id, answer) && IsSettledWorkTree(run, run', id, answer)
            && response.eventsApplied == (if IsIn(run', id, IN_PROGRESS) then 0 else 1)
  {
    var closed := SessionClosed(run, id, IsOverdue, None, answer.wallClock);
    assert HasSession(closed, id) && closed.agents[id].worktree == run.agents[id].worktree;
    SettledRow(closed, id, answer);
  }

  /** Row, note and worktree of a working node after its turn. */
  lemma WorkingRowOutcome(config: Config, run: Run, node: GraphNode, answer: SettleAnswer)
    requires IsIn(run, node.id, IN_PROGRESS)
    ensures var (run', response) := InProgressAdvance(config, run, node, answer);
            && response.eventsApplied == (if IsIn(run', node.id, IN_PROGRESS) then 0 else 1)
            && if HasSession(run, node.id) then
                 IsSettledRow(run, run', node.id, answer) && IsSettledWorkTree(run, run', node.id, answer)
               else
                 && IsWritten(run, run', node.id, ERRORED, answer.wallClock, None, SessionNeverStarted)
                 && run'.agents == run.agents
  {
    if HasSession(run, node.id) && IsOver(config, run, node, answer) {
      if answer.status.IsOverdue? {
        ClosedFirst(run, node.id, answer);
      } else {
        SettledRow(run, node.id, answer);
      }
    }
  }

  // ---------- a resting node ----------

  /** The row of a node whose pull request ended, with the time it did unless that was on record. */
  ghost predicate IsEnded(run: Run, run': Run, id: NodeId, state: NodeState, at: int, note: Note)
    requires id in run.rows
  {
    var row := run.rows[id];
    && run'.rows == run.rows[id := Row(state, at, None, row.recoveryAttemptsAllowed,
                                       if row.settledAt.None? then Some(at) else row.settledAt)]
    && run'.audits == run.audits + [AuditEntry(id, state, note, at)] && run'.agents == run.agents
  }

  /** A wake goes on with the conversation as a review wake, or launches a new one. */
  ghost predicate IsWoken(run: Run, run': Run, id: NodeId, reading: Reading, answer: RestingAnswer)
    requires id in run.rows && id in run.agents && run.agents[id].worktree.Some?
  {
    var worktree, sessions := run.agents[id].worktree.value, SessionsOf(run', id);
    && answer.wake.WakeStarts? && OpensSession(run, run', id, answer.wake.at)
    && IsWritten(run, run', id, IN_PROGRESS, answer.wallClock, None, WorkResumed)
    && (sessions[|sessions| - 1].triggeredBy == (if answer.wake.isFresh then LaunchTrigger else WakeTrigger))
    && (sessions[|sessions| - 1].marksBefore == (if answer.wake.isFresh then None else Some(worktree.marks)))
    && run'.agents[id].hasToken == run.agents[id].hasToken && run'.agents[id].worktree.Some?
    && run'.agents[id].worktree.value.headSha == reading.headSha
    && run'.agents[id].worktree.value.prNumber == worktree.prNumber
  }

  /** Whatever news does without a wake: at most the marks of the node's worktree move. */
  ghost predicate OnlyMarksMove(run: Run, run': Run, id: NodeId)
    requires id in run.agents && run.agents[id].worktree.Some?
  {
    && run'.rows == run.rows && run'.audits == run.audits && id in run'.agents && run'.agents[id].worktree.Some?
    && run'.agents ==
       run.agents[id := run.agents[id].(worktree :=
                   Some(run.agents[id].worktree.value.(marks := run'.agents[id].worktree.value.marks)))]
  }

  ghost predicate IsHeard(run: Run, run': Run, id: NodeId, reading: Reading, answer: RestingAnswer)
    requires id in run.rows && id in run.agents && run.agents[id].worktree.Some?
  {
    && (IsIn(run', id, IN_PROGRESS) ==> IsWoken(run, run', id, reading, answer))
    && (IsIn(run', id, NEEDS_HUMAN) ==>
          IsWritten(run, run', id, NEEDS_HUMAN, answer.wallClock, None, OutOfWakes) && run'.agents == run.agents)
    && (IsIn(run', id, RESTING) ==> OnlyMarksMove(run, run', id))
  }

  lemma WokenRow(config: Config, run: Run, id: NodeId, marked: WorkTree, reading: Reading, answer: RestingAnswer)
    requires IsIn(run, id, RESTING) && id in run.agents && run.agents[id].worktree.Some?
    requires marked == run.agents[id].worktree.value.(marks := marked.marks)
    ensures var (run', response) := NodeWoken(config, run, id, marked, reading.headSha, answer);
            && (IsIn(run', id, IN_PROGRESS) ==> IsWoken(run, run', id, reading, answer))
            && (IsIn(run', id, NEEDS_HUMAN) ==>
                  && IsWritten(run, run', id, NEEDS_HUMAN, answer.wallClock, None, OutOfWakes)
                  && run'.agents == run.agents)
            && (IsIn(run', id, RESTING) ==> run' == run)
            && response.eventsApplied == (if IsIn(run', id, RESTING) then 0 else 1)
  {
  }

  lemma NewsRow(config: Config, run: Run, id: NodeId, reading: Reading, answer: RestingAnswer)
    requires IsIn(run, id, RESTING) && id in run.agents && run.agents[id].worktree.Some?
    ensures IsHeard(run, NewsHandled(config, run, id, reading, answer).0, id, reading, answer)
  {
    var worktree := run.agents[id].worktree.value;
    var changes := Changes(config.agentAccount, reading, worktree.marks);
    WokenRow(config, run, id, worktree.(marks := Advanced(worktree.marks, changes)), reading, answer);
  }

  /** A turn that brings no news, or none it could act on, applies no event; any other applies one. */
  lemma RestingEvents(config: Config, run: Run, node: GraphNode, answer: RestingAnswer)
    requires IsIn(run, node.id, RESTING)
    ensures var id, (run', response) := node.id, RestingAdvance(config, run, node, answer);
            response.eventsApplied ==
            if !IsIn(run', id, RESTING) then 1
            else if && IsWatched(config, run, node) && answer.pullRequest.IsOpen?
                    && Changes(config.agentAccount, answer.pullRequest.reading,
                               run.agents[id].worktree.value.marks) != []
                    && !IsAskedFor(config, run, node, answer) then 1
            else 0
  {
    if IsWatched(config, run, node) && answer.pullRequest.IsOpen? {
      var reading, worktree := answer.pullRequest.reading, run.agents[node.id].worktree.value;
      var changes := Changes(config.agentAccount, reading, worktree.marks);
      WokenRow(config, run, node.id, worktree.(marks := Advanced(worktree.marks, changes)), reading, answer);
    }
  }

  /** Row, note, sessions and worktree of a resting node after its turn. */
  lemma RestingRowOutcome(config: Config, run: Run, node: GraphNode, answer: RestingAnswer)
    requires IsIn(run, node.id, RESTING)
    ensures var id, run' := node.id, RestingAdvance(config, run, node, answer).0;
            if id !in run.agents || run.agents[id].worktree.None? then
              && IsWritten(run, run', id, ERRORED, answer.wallClock, None, SessionNeverStarted)
              && run'.agents == run.agents
            else if !IsWatched(config, run, node) || answer.pullRequest.Unreadable? || answer.pullRequest.Incomplete?
            then run' == run
            else if answer.pullRequest.IsMerged? then
              IsEnded(run, run', id, MERGED, answer.wallClock, PullRequestMerged)
            else if answer.pullRequest.IsClosed? then
              IsEnded(run, run', id, NEEDS_HUMAN, answer.wallClock, ClosedUnmerged)
            else IsHeard(run, run', id, answer.pullRequest.reading, answer)
  {
    if IsWatched(config, run, node) && answer.pullRequest.IsOpen? {
      NewsRow(config, run, node.id, answer.pullRequest.reading, answer);
    }
  }

  /** Every review wake is counted, and one that finds the conversation gone starts the count anew. */
  lemma WakeIsCounted(config: Config, run: Run, node: GraphNode, answer: RestingAnswer)
    requires IsIn(run, node.id, RESTING)
    requires IsIn(RestingAdvance(config, run, node, answer).0, node.id, IN_PROGRESS)
    ensures answer.wake.WakeStarts?
    ensures Wakes(RestingAdvance(config, run, node, answer).0, node.id) ==
            if answer.wake.WakeStarts? && answer.wake.isFresh then 0 else Wakes(run, node.id) + 1
  {
    var run' := RestingAdvance(config, run, node, answer).0;
    RestingRowOutcome(config, run, node, answer);
    var before, after := SessionsOf(run, node.id), SessionsOf(run', node.id);
    assert after == before + [after[|before|]];
    WakesAfterStart(before, after[|before|]);
  }

  // ---------- what a sweep counts ----------

  /** The nodes whose state is no longer what it was. */
  function Moved(run: Run, run': Run): set<NodeId>
  {
    set id | id in run.rows && id in run'.rows && run'.rows[id].state != run.rows[id].state
  }

  lemma OneMoreMoved(run: Run, before: Run, after: Run, id: NodeId)
    requires before.rows.Keys == run.rows.Keys && after.rows.Keys == run.rows.Keys
    requires id in run.rows && before.rows[id].state == run.rows[id].state
    requires forall other :: other != id && other in run.rows ==> after.rows[other] == before.rows[other]
    ensures |Moved(run, after)| == |Moved(run, before)| + if after.rows[id].state != run.rows[id].state then 1 else 0
  {
    if after.rows[id].state != run.rows[id].state {
      assert Moved(run, after) == Moved(run, before) + {id};
    } else {
      assert Moved(run, after) == Moved(run, before);
    }
  }

  /** The events of a sweep over the working nodes are the nodes it moved. */
  lemma {:induction false} InProgressSweepCounts(config: Config, run: Run, nodes: seq<GraphNode>,
                                                 answers: NodeId -> SettleAnswer)
    requires SessionsSound(run) && SweptIn(run, nodes, IN_PROGRESS)
    ensures var (run', response) := InProgressSweepOver(config, run, nodes, answers);
            response.eventsApplied == |Moved(run, run')|
    decreases |nodes|
  {
    if nodes == [] {
      assert Moved(run, run) == {};
    } else {
      var node, front := nodes[|nodes| - 1], nodes[..|nodes| - 1];
      SweepFront(run, nodes, IN_PROGRESS);
      InProgressSweepCounts(config, run, front, answers);
      InProgressSweepIsSound(config, run, front, answers);
      var before := InProgressSweepOver(config, run, front, answers).0;
      assert node in nodes && NodeSound(before, node.id);
      WorkingRowOutcome(config, before, node, answers(node.id));
      InProgressAdvanceIsSound(config, before, node, answers(node.id));
      OneMoreMoved(run, before, InProgressAdvance(config, before, node, answers(node.id)).0, node.id);
    }
  }

  /** The events of a sweep over the pending nodes are the nodes it moved. */
  lemma {:induction false} PendingSweepCounts(config: Config, graph: Graph, run: Run, nodes: seq<GraphNode>, now: int,
                                              answers: NodeId -> PendingAnswer)
    requires Stored(graph, run) && SessionsSound(run) && SweptIn(run, nodes, PENDING)
    ensures var (run', response) := PendingSweepOver(config, graph, run, nodes, now, answers);
            response.eventsApplied == |Moved(run, run')|
    decreases |nodes|
  {
    if nodes == [] {
      assert Moved(run, run) == {};
    } else {
      var node, front := nodes[|nodes| - 1], nodes[..|nodes| - 1];
      SweepFront(run, nodes, PENDING);
      PendingSweepCounts(config, graph, run, front, now, answers);
      SweepLeavesOthers(config, graph, run, front, now, answers);
      var before := PendingSweepOver(config, graph, run, front, now, answers).0;
      assert IsIn(before, node.id, PENDING);
      HeldBackOutcome(config, graph, before, node, now, answers(node.id));
      PendingOutcome(config, graph, before, node, now, answers(node.id));
      OneMoreMoved(run, before, PendingAdvance(config, graph, before, node, now, answers(node.id)).0, node.id);
    }
  }
}

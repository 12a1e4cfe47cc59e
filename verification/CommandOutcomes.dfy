/**
 What an operator command leaves of every node: the rows and notes of the nodes it returns to wait, its own
 node's row, sessions and marks, and what it answers.
 */
module CommandOutcomes {
  import opened Graphs
  import opened GraphServices
  import opened Options
  import opened Signals
  import opened Runs
  import opened StartTimes
  import opened PendingNodes
  import opened DependentReleases
  import opened NodeOperators
  import opened NodeRecoveries
  import opened RecoveryScans
  import opened StartSafety
  import opened StopPropagation
  import opened NodeOutcomes
  import opened MarkHistories
  import opened Watermarks
  import opened WakeBudgets
  import opened StepOutcomes

  // ---------- the dependents a command returns ----------

  /** The node waits again from this time on, with nothing to wait out but its cooldown, and is noted as returned. */
  ghost predicate IsReturned(run: Run, run': Run, id: NodeId, now: int)
    requires id in run.rows
  {
    && id in run'.rows
    && run'.rows[id] == Row(PENDING, now, None, run.rows[id].recoveryAttemptsAllowed, run.rows[id].settledAt)
    && LatestNote(run'.audits, id) == Some(UpstreamSkipped)
  }

  ghost predicate IsLeft(run: Run, run': Run, id: NodeId)
    requires id in run.rows
  {
    id in run'.rows && run'.rows[id] == run.rows[id] && LatestNote(run'.audits, id) == LatestNote(run.audits, id)
  }

  /** The node is a dependent an upstream stop held back, so that this command returns it. */
  ghost predicate IsHeldBy(graph: Graph, run: Run, upstream: NodeId, id: NodeId)
  {
    id in DescendantIds(graph, upstream) && IsReleasable(graph, run, id)
  }

  /** Of all nodes but the command's own, exactly the dependents an upstream stop held back are returned. */
  ghost predicate ReturnsDependents(graph: Graph, run: Run, run': Run, upstream: NodeId, now: int)
  {
    forall id :: id in run.rows && id != upstream ==>
      if IsHeldBy(graph, run, upstream, id) then IsReturned(run, run', id, now)
      else IsLeft(run, run', id)
  }

  lemma {:induction false} ReturnedRow(run: Run, ids: seq<NodeId>, now: int, id: NodeId)
    requires id in run.rows
    ensures var run' := ReturnedToPending(run, ids, now);
            if id in ids then IsReturned(run, run', id, now) else IsLeft(run, run', id)
    decreases |ids|
  {
    if ids != [] {
      var front, last := ids[..|ids| - 1], ids[|ids| - 1];
      assert ids == front + [last];
      ReturnedRow(run, front, now, id);
      RecordedNotes(ReturnedToPending(run, front, now), last, PENDING, UpstreamSkipped, now);
    }
  }

  lemma ReleaseReturnsDependents(graph: Graph, run: Run, upstream: NodeId, now: int)
    requires Stored(graph, run)
    ensures ReturnsDependents(graph, run, Released(graph, run, upstream, now), upstream, now)
    ensures upstream in run.rows && !IsReleasable(graph, run, upstream) ==>
              IsLeft(run, Released(graph, run, upstream, now), upstream)
  {
    var ids := ToRelease(graph, run, upstream);
    forall id | id in run.rows
      ensures var run' := Released(graph, run, upstream, now);
              if IsHeldBy(graph, run, upstream, id) then IsReturned(run, run', id, now)
              else IsLeft(run, run', id)
    {
      ReturnedRow(run, ids, now, id);
      assert id in run.order;
    }
  }

  /** Writing about one node, with its agent kept or given, leaves which of the others can be returned. */
  lemma OthersStayReleasable(graph: Graph, run: Run, moved: Run, upstream: NodeId, now: int)
    requires Stored(graph, run) && moved.order == run.order && moved.rows.Keys == run.rows.Keys
    requires forall id :: id != upstream && id in run.rows ==> IsLeft(run, moved, id)
    requires forall id :: id != upstream ==> (id in moved.agents <==> id in run.agents)
    requires upstream in run.rows ==> !IsReleasable(graph, moved, upstream)
    ensures ReturnsDependents(graph, run, Released(graph, moved, upstream, now), upstream, now)
    ensures upstream in run.rows ==> IsLeft(moved, Released(graph, moved, upstream, now), upstream)
  {
    ReleaseReturnsDependents(graph, moved, upstream, now);
    forall id | id in run.rows && id != upstream
      ensures IsReleasable(graph, moved, id) <==> IsReleasable(graph, run, id)
    {
      assert IsLeft(run, moved, id);
    }
    forall id | id in run.rows && id != upstream
      ensures var run' := Released(graph, moved, upstream, now);
              if IsHeldBy(graph, run, upstream, id) then IsReturned(run, run', id, now)
              else IsLeft(run, run', id)
    {
      assert IsLeft(run, moved, id);
    }
  }

  // ---------- skip and retry ----------

  lemma SkipRows(graph: Graph, run: Run, id: NodeId, now: int)
    requires Stored(graph, run) && IsSkippable(run, id)
    ensures var run' := SkipNode(graph, run, id, now).0;
            && run'.agents == run.agents && run'.rows.Keys == run.rows.Keys
            && run'.rows[id] == Row(SKIPPED, now, None, run.rows[id].recoveryAttemptsAllowed, run.rows[id].settledAt)
            && LatestNote(run'.audits, id) == Some(SkippedByHuman)
            && ReturnsDependents(graph, run, run', id, now)
  {
    var marked := Recorded(run, id, SKIPPED, SkippedByHuman, now);
    RecordedNotes(run, id, SKIPPED, SkippedByHuman, now);
    OthersStayReleasable(graph, run, marked, id, now);
    assert IsLeft(marked, Released(graph, marked, id, now), id);
  }

  lemma SkipAnswer(graph: Graph, run: Run, id: NodeId, now: int)
    requires Stored(graph, run) && IsSkippable(run, id)
    ensures var (run', result) := SkipNode(graph, run, id, now);
            && result.SkipDone?
            && (forall x :: x in result.released <==> x in run.rows && x != id && IsHeldBy(graph, run, id, x))
            && (result.ensuresHostJob <==> !IsIn(run, id, SKIPPED) || result.released != [])
  {
    var marked := Recorded(run, id, SKIPPED, SkippedByHuman, now);
    RecordedNotes(run, id, SKIPPED, SkippedByHuman, now);
    forall x ensures x in ToRelease(graph, marked, id) <==> x in run.rows && x != id && IsHeldBy(graph, run, id, x) {
      assert x != id ==> LatestNote(marked.audits, x) == LatestNote(run.audits, x);
      assert x in run.order <==> x in run.rows;
    }
  }

  ghost predicate ChangesState(run: Run, run': Run, id: NodeId)
  {
    id in run.rows && id in run'.rows && run'.rows[id].state != run.rows[id].state
  }

  /**
   A skip is refused exactly for a node that is missing, at work or merged. Done, it leaves the node's row and
   note, returns the dependents and names them, and asks for the host job exactly when a node changed its
   state.
   */
  lemma SkipOutcome(graph: Graph, run: Run, id: NodeId, now: int)
    requires Stored(graph, run)
    ensures var (run', result) := SkipNode(graph, run, id, now);
            && (result.SkipRefused? <==> id !in run.rows || IsIn(run, id, IN_PROGRESS) || IsIn(run, id, MERGED))
            && (result.SkipRefused? ==> run' == run)
            && (result.SkipDone? ==>
                  && id in run'.rows && run'.agents == run.agents && run'.rows.Keys == run.rows.Keys
                  && run'.rows[id] == Row(SKIPPED, now, None, run.rows[id].recoveryAttemptsAllowed,
                                          run.rows[id].settledAt)
                  && LatestNote(run'.audits, id) == Some(SkippedByHuman)
                  && ReturnsDependents(graph, run, run', id, now)
                  && (forall x :: x in result.released <==> x != id && ChangesState(run, run', x))
                  && (result.ensuresHostJob <==> exists x :: ChangesState(run, run', x)))
  {
    if IsSkippable(run, id) {
      SkipRows(graph, run, id, now);
      SkipAnswer(graph, run, id, now);
      var (run', result) := SkipNode(graph, run, id, now);
      ReturnedChangeState(graph, run, run', id, now, result.released);
      if x :| ChangesState(run, run', x) {
        assert x == id || x in result.released;
      } else {
        assert !ChangesState(run, run', id);
      }
    }
  }

  lemma ReturnedChangeState(graph: Graph, run: Run, run': Run, id: NodeId, now: int, released: seq<NodeId>)
    requires run'.rows.Keys == run.rows.Keys && ReturnsDependents(graph, run, run', id, now)
    requires forall x :: x in released <==> x in run.rows && x != id && IsHeldBy(graph, run, id, x)
    ensures forall x :: x in released <==> x != id && ChangesState(run, run', x)
    ensures released != [] ==> ChangesState(run, run', released[0])
  {
    if released != [] {
      assert released[0] in released;
    }
  }

  /** A retry notes its node as sent back, and returns the dependents the node had stopped. */
  lemma RetryReturns(graph: Graph, run: Run, id: NodeId, reset: bool, now: int)
    requires Stored(graph, run) && RetryNode(graph, run, id, reset, now).1
    ensures var run' := RetryNode(graph, run, id, reset, now).0;
            && ReturnsDependents(graph, run, run', id, now)
            && LatestNote(run'.audits, id) == Some(SentBackToWork)
            && id in run'.rows && run'.rows[id].state == PENDING && run'.rows[id].resumeAt.None?
  {
    var attempts := FirstDeclared(graph, id).value.recoveryAttemptsAllowed;
    var sent := SentBack(run, id, attempts, reset, now);
    SentBackOutcome(run, id, attempts, reset, now);
    SentBackNotes(run, id, attempts, reset, now);
    OthersStayReleasable(graph, run, sent, id, now);
    assert IsLeft(sent, Released(graph, sent, id, now), id);
  }

  lemma SentBackNotes(run: Run, id: NodeId, attempts: int, reset: bool, now: int)
    requires id in run.rows
    ensures var sent := SentBack(run, id, attempts, reset, now);
            && LatestNote(sent.audits, id) == Some(SentBackToWork)
            && forall other :: other != id && other in run.rows ==> IsLeft(run, sent, other)
  {
    var renewed := AttemptsReset(run, id, attempts);
    RecordedNotes(if reset then TokenCleared(renewed, id) else renewed, id, PENDING, SentBackToWork, now);
  }

  /** The cooldown after the last dependency that merged or was skipped is over. */
  ghost predicate CooldownIsOver(graph: Graph, run: Run, node: GraphNode, now: int)
  {
    node.cooldownSeconds > 0 ==>
      forall d :: (d in GetDependencies(graph, node.id) || d in WaitsFor(graph, run, node.id))
                  && d in run.rows && IsMergedOrSkipped(run.rows[d]) ==>
                  run.rows[d].updatedAt + node.cooldownSeconds <= now
  }

  /** A returned node has no wait of its own: only its dependencies, its cooldown and a free worker hold it back. */
  lemma ReturnedNodeStartsIff(config: Config, graph: Graph, run: Run, run': Run, node: GraphNode, at: int, now: int,
                              answer: PendingAnswer)
    requires node.id in run.rows && Stored(graph, run') && IsReturned(run, run', node.id, at)
    ensures IsIn(PendingAdvance(config, graph, run', node, now, answer).0, node.id, IN_PROGRESS) <==>
            && DependenciesMerged(graph, run', node.id) && CooldownIsOver(graph, run', node, now)
            && |IdsIn(run', IN_PROGRESS)| < config.maxWorkers && HasLauncher(config, node) && answer.launch.Started?
  {
    PendingNodeStartsIff(config, graph, run', node, now, answer);
  }

  /** A dependent that a skip returns starts in the next pass as soon as its dependencies and its cooldown allow. */
  lemma SkippedPastStarts(config: Config, graph: Graph, run: Run, skipped: NodeId, at: int, node: GraphNode, now: int,
                          answer: PendingAnswer)
    requires Stored(graph, run) && IsSkippable(run, skipped) && node.id != skipped && node.id in run.rows
    requires IsHeldBy(graph, run, skipped, node.id)
    ensures var run' := SkipNode(graph, run, skipped, at).0;
            IsIn(PendingAdvance(config, graph, run', node, now, answer).0, node.id, IN_PROGRESS) <==>
            && DependenciesMerged(graph, run', node.id) && CooldownIsOver(graph, run', node, now)
            && |IdsIn(run, IN_PROGRESS)| < config.maxWorkers && HasLauncher(config, node) && answer.launch.Started?
  {
    var run' := SkipNode(graph, run, skipped, at).0;
    SkipRows(graph, run, skipped, at);
    SkipIsStored(graph, run, skipped, at);
    ReturnedNodeStartsIff(config, graph, run, run', node, at, now, answer);
  }

  lemma SkipIsStored(graph: Graph, run: Run, skipped: NodeId, at: int)
    requires Stored(graph, run) && IsSkippable(run, skipped)
    ensures var run' := SkipNode(graph, run, skipped, at).0;
            Stored(graph, run') && IdsIn(run', IN_PROGRESS) == IdsIn(run, IN_PROGRESS)
  {
    var run' := SkipNode(graph, run, skipped, at).0;
    SkipRows(graph, run, skipped, at);
    forall id ensures IsIn(run', id, IN_PROGRESS) <==> IsIn(run, id, IN_PROGRESS) {
      if id in run.rows && id != skipped {
        assert if IsHeldBy(graph, run, skipped, id) then IsReturned(run, run', id, at) else IsLeft(run, run', id);
      }
    }
  }

  /** After a human retry a node that starts has all its review wakes again. */
  lemma RetryRenewsWakes(config: Config, graph: Graph, run: Run, node: GraphNode, reset: bool, at: int, now: int,
                         answer: PendingAnswer)
    requires Stored(graph, run) && RetryNode(graph, run, node.id, reset, at).1
    ensures var run' := RetryNode(graph, run, node.id, reset, at).0;
            var started := PendingAdvance(config, graph, run', node, now, answer).0;
            IsIn(started, node.id, IN_PROGRESS) ==> Wakes(started, node.id) == 0
  {
    var run' := RetryNode(graph, run, node.id, reset, at).0;
    RetryReturns(graph, run, node.id, reset, at);
    if IsIn(PendingAdvance(config, graph, run', node, now, answer).0, node.id, IN_PROGRESS) {
      StartRenewsWakes(config, graph, run', node, now, answer);
    }
  }

  // ---------- stop ----------

  /** The latest session ended at this time in this state, and nothing else of the sessions changed. */
  ghost predicate EndsLatest(before: seq<Session>, after: seq<Session>, at: int, endState: EndState)
  {
    var last := |before| - 1;
    && before != [] && |after| == |before| && after[..last] == before[..last]
    && after[last] == before[last].(endedAt := Some(at), endState := endState)
  }

  /** A stop is done exactly when there is a session to stop and someone to stop it; its session ends as stopped. */
  lemma StopRow(config: Config, graph: Graph, run: Run, id: NodeId, now: int, answer: StopAnswer)
    ensures var (run', isDone) := StopNode(config, graph, run, id, now, answer);
            && (isDone <==>
                  && IsIn(run, id, IN_PROGRESS) && SessionsOf(run, id) != [] && run.agents[id].worktree.Some?
                  && !answer.isProcessDead && answer.canStop
                  && exists n :: n in graph && FirstDeclared(graph, id) == Some(n) && HasLauncher(config, n))
            && (isDone ==>
                  && id in run.rows && IsWritten(run, run', id, NEEDS_HUMAN, now, None, StoppedByPerson)
                  && run'.agents.Keys == run.agents.Keys
                  && (forall other :: other in run.agents && other != id ==> run'.agents[other] == run.agents[other])
                  && run'.agents[id] == run.agents[id].(sessions := run'.agents[id].sessions)
                  && EndsLatest(SessionsOf(run, id), SessionsOf(run', id), now, Stopped))
  {
  }

  // ---------- a recovery verdict ----------

  /** Everything of the verdict up to the restoration of the marks allows it. */
  predicate IsHeeded(run: Run, command: RecoverCommand, answer: RecoverAnswer)
  {
    var id := command.nodeId;
    && id in run.rows && SessionsOf(run, id) != []
    && (!command.recoverable ==>
          !IsIn(run, id, MERGED) && !(IsIn(run, id, IN_PROGRESS) && answer.isAliveAtVerdict))
    && (command.restoresMarks ==>
          !answer.isAliveAtRestore && AgentSession(run, id).value.marksBefore.Some? && run.agents[id].worktree.Some?)
  }

  /** The wake a verdict asks for can be started. */
  predicate CanBeWoken(config: Config, graph: Graph, run: Run, id: NodeId, answer: RecoverAnswer)
  {
    && (IsStopped(run, id) || IsIn(run, id, RESTING)) && !answer.isAliveAtWake && answer.wake.RecoveryWakeStarts?
    && HasToken(run, id) && run.agents[id].worktree.Some?
    && FirstDeclared(graph, id).Some? && HasLauncher(config, FirstDeclared(graph, id).value)
  }

  /** The marks of the node's worktree before this command. */
  function MarksRead(run: Run, id: NodeId): Option<Marks>
  {
    if id in run.agents && run.agents[id].worktree.Some? then Some(run.agents[id].worktree.value.marks) else None
  }

  /** The agent after a verdict: its sessions, and its worktree with the marks its latest session began with. */
  ghost predicate HasMarksOf(run: Run, run': Run, command: RecoverCommand, isHeeded: bool)
  {
    var id := command.nodeId;
    && run'.agents.Keys == run.agents.Keys
    && (forall other :: other != id && other in run.agents ==> run'.agents[other] == run.agents[other])
    && (id in run.agents ==>
          && run'.agents[id].hasToken == run.agents[id].hasToken
          && (run.agents[id].worktree.None? <==> run'.agents[id].worktree.None?)
          && (run.agents[id].worktree.Some? ==>
                run'.agents[id].worktree.value ==
                run.agents[id].worktree.value.(marks := run'.agents[id].worktree.value.marks)))
    && (MarksRead(run', id) ==
        if isHeeded && command.restoresMarks && AgentSession(run, id).Some? then AgentSession(run, id).value.marksBefore
        else MarksRead(run, id))
  }

  lemma VerdictKeepsAgents(graph: Graph, run: Run, command: RecoverCommand, neededHuman: bool, answer: RecoverAnswer)
    ensures VerdictRecorded(graph, run, command, neededHuman, answer).agents == run.agents
  {
    VerdictSparesAgents(graph, run, command, neededHuman, answer);
  }

  lemma WakeKeepsWorkTree(graph: Graph, run: Run, id: NodeId, read: Option<WorkTree>, answer: RecoverAnswer)
    requires id in run.agents && answer.wake.RecoveryWakeStarts?
    ensures var run' := WokenByVerdict(graph, run, id, read, answer);
            && id in run'.agents && OpensSession(run, run', id, answer.wake.at)
            && run'.agents[id] == run.agents[id].(sessions := run'.agents[id].sessions)
            && var session := run'.agents[id].sessions[|run.agents[id].sessions|];
               && session.triggeredBy == (if answer.wake.isFresh then LaunchTrigger else RecoveryTrigger)
               && session.marksBefore == (if answer.wake.isFresh || read.None? then None else Some(read.value.marks))
  {
    var session := ResumedSession(answer.wake.at, RecoveryTrigger, answer.wake.isFresh, read);
    var woken := WithAgent(run, id, AddSession(run.agents[id], session));
    ReleaseSparesEveryAgent(graph, Recorded(woken, id, IN_PROGRESS, WokenByRecovery, answer.wokenAt), id,
                            answer.wokenAt);
  }

  /** Beyond the restoration a verdict changes no agent but its node's sessions. */
  lemma RecoveredAgent(config: Config, graph: Graph, run: Run, restored: Run, command: RecoverCommand,
                       answer: RecoverAnswer)
    requires RecoverNode(config, graph, run, command, answer).1
    requires restored == if command.restoresMarks then MarksRestored(run, command.nodeId) else run
    ensures var id, run' := command.nodeId, RecoverNode(config, graph, run, command, answer).0;
            && id in restored.agents && id in run'.agents && run'.agents == restored.agents[id := run'.agents[id]]
            && run'.agents[id] == restored.agents[id].(sessions := run'.agents[id].sessions)
  {
    var id, woken := command.nodeId, restored;
    if command.wakes {
      woken := WokenByVerdict(graph, restored, id, run.agents[id].worktree, answer);
      WakeKeepsWorkTree(graph, restored, id, run.agents[id].worktree, answer);
    }
    VerdictKeepsAgents(graph, woken, command, IsIn(run, id, NEEDS_HUMAN), answer);
  }

  /**
   A verdict that restores marks gives the worktree those its latest session began with, even where the wake
   is refused afterwards; any other leaves them.
   */
  lemma RecoveryRestoresMarks(config: Config, graph: Graph, run: Run, command: RecoverCommand, answer: RecoverAnswer)
    ensures HasMarksOf(run, RecoverNode(config, graph, run, command, answer).0, command, IsHeeded(run, command, answer))
  {
    if RecoverNode(config, graph, run, command, answer).1 {
      var restored := if command.restoresMarks then MarksRestored(run, command.nodeId) else run;
      RecoveredAgent(config, graph, run, restored, command, answer);
    }
  }

  /**
   A comment that restored marks bring back is reported again by the next visit that can wake the node, as
   long as it stays on the pull request.
   */
  lemma RestoredCommentIsHeard(config: Config, graph: Graph, run: Run, command: RecoverCommand, answer: RecoverAnswer,
                               visits: seq<Visit>, k: nat, comment: Artifact)
    requires IsHeeded(run, command, answer) && command.restoresMarks && k < |visits|
    requires IsFeedback(config.agentAccount, comment)
    requires Less(Read(AgentSession(run, command.nodeId).value.marksBefore.value, Comments), comment.GetTimestamp())
    requires forall j :: 0 <= j <= k ==> comment in visits[j].reading.artifacts
    requires (forall j :: 0 <= j < k ==> !visits[j].starts) && visits[k].starts
    ensures var after := RecoverNode(config, graph, run, command, answer).0;
            comment in Reported(config.agentAccount, NodeMarks(after, command.nodeId), visits, k)
  {
    RecoveryRestoresMarks(config, graph, run, command, answer);
    var marks := NodeMarks(RecoverNode(config, graph, run, command, answer).0, command.nodeId);
    RefusalLosesNothing(config.agentAccount, marks, visits, 0, k, comment);
  }

  /** A verdict waits for a later time of a limit or a failure of the provider, unless it wakes the node at once. */
  predicate Waits(command: RecoverCommand, answer: RecoverAnswer)
  {
    && command.recoverable && !command.wakes && command.cause != OtherCause
    && command.recoverAt.Some? && command.recoverAt.value > answer.recordedAt
  }

  predicate ForHuman(run: Run, command: RecoverCommand)
  {
    !command.recoverable && !IsIn(run, command.nodeId, NEEDS_HUMAN)
  }

  /** The node's row after an accepted verdict: one attempt fewer, and the state the verdict asks for. */
  function RowAfterVerdict(run: Run, command: RecoverCommand, answer: RecoverAnswer): Row
    requires command.nodeId in run.rows
  {
    var row := run.rows[command.nodeId];
    var left := row.recoveryAttemptsAllowed - 1;
    if Waits(command, answer) then Row(PENDING, answer.recordedAt, command.recoverAt, left, row.settledAt)
    else if ForHuman(run, command) then Row(NEEDS_HUMAN, answer.movedAt, None, left, row.settledAt)
    else if command.wakes then Row(IN_PROGRESS, answer.wokenAt, None, left, row.settledAt)
    else row.(recoveryAttemptsAllowed := left)
  }

  function NoteAfterVerdict(run: Run, command: RecoverCommand, answer: RecoverAnswer): Option<Note>
  {
    if Waits(command, answer) then Some(RecoveryWait(command.recoverAt.value))
    else if ForHuman(run, command) then Some(MarkedUnrecoverable)
    else if command.wakes then Some(WokenByRecovery)
    else LatestNote(run.audits, command.nodeId)
  }

  lemma VerdictWrites(graph: Graph, run: Run, command: RecoverCommand, neededHuman: bool, answer: RecoverAnswer)
    requires Stored(graph, run) && command.nodeId in run.rows && command.nodeId in run.agents
    ensures var id, run' := command.nodeId, VerdictRecorded(graph, run, command, neededHuman, answer);
            var row := run.rows[id];
            var left := row.recoveryAttemptsAllowed - 1;
            && Stored(graph, run') && id in run'.rows
            && run'.recoveries ==
               run.recoveries + [NodeRecovery(id, answer.recordedAt, command.recoverable,
                                              if command.recoverAt.Some? then command.recoverAt.value
                                              else answer.recordedAt)]
            && (if Waits(command, answer) then
                  && run'.rows[id] == Row(PENDING, answer.recordedAt, command.recoverAt, left, row.settledAt)
                  && LatestNote(run'.audits, id) == Some(RecoveryWait(command.recoverAt.value))
                  && ReturnsDependents(graph, run, run', id, answer.recordedAt)
                else
                  && (forall other :: other in run.rows && other != id ==> IsLeft(run, run', other))
                  && if !command.recoverable && !neededHuman then
                       && run'.rows[id] == Row(NEEDS_HUMAN, answer.movedAt, None, left, row.settledAt)
                       && LatestNote(run'.audits, id) == Some(MarkedUnrecoverable)
                     else
                       && run'.rows[id] == row.(recoveryAttemptsAllowed := left)
                       && LatestNote(run'.audits, id) == LatestNote(run.audits, id))
  {
    var id, now := command.nodeId, answer.recordedAt;
    var added := VerdictAdded(run, command, now);
    if Waits(command, answer) {
      WaitWrites(graph, run, added, command, now);
    } else {
      RecordedNotes(added, id, NEEDS_HUMAN, MarkedUnrecoverable, answer.movedAt);
    }
  }

  lemma WaitWrites(graph: Graph, run: Run, added: Run, command: RecoverCommand, now: int)
    requires Stored(graph, run) && command.nodeId in run.rows && command.nodeId in run.agents
    requires added == VerdictAdded(run, command, now) && command.recoverAt.Some?
    ensures var id, until := command.nodeId, command.recoverAt.value;
            var run' := Released(graph, Waiting(added, id, until, RecoveryWait(until), now), id, now);
            && Stored(graph, run') && run'.recoveries == added.recoveries
            && run'.rows[id] == Row(PENDING, now, Some(until), run.rows[id].recoveryAttemptsAllowed - 1,
                                    run.rows[id].settledAt)
            && LatestNote(run'.audits, id) == Some(RecoveryWait(until))
            && ReturnsDependents(graph, run, run', id, now)
  {
    var id, until := command.nodeId, command.recoverAt.value;
    var waiting := Waiting(added, id, until, RecoveryWait(until), now);
    forall other
      ensures LatestNote(waiting.audits, other) ==
              if other == id then Some(RecoveryWait(until)) else LatestNote(run.audits, other)
    {
      NoteAfter(run.audits, AuditEntry(id, PENDING, RecoveryWait(until), now), other);
    }
    OthersStayReleasable(graph, run, waiting, id, now);
    assert IsLeft(waiting, Released(graph, waiting, id, now), id);
    ReleaseKeepsRecoveries(waiting, ToRelease(graph, waiting, id), now);
  }

  lemma {:induction false} ReleaseKeepsRecoveries(run: Run, ids: seq<NodeId>, now: int)
    ensures ReturnedToPending(run, ids, now).recoveries == run.recoveries
    decreases |ids|
  {
    if ids != [] {
      ReleaseKeepsRecoveries(run, ids[..|ids| - 1], now);
    }
  }

  lemma WakeWrites(graph: Graph, run: Run, restored: Run, id: NodeId, read: Option<WorkTree>, answer: RecoverAnswer)
    requires Stored(graph, run) && id in run.rows && id in restored.agents && answer.wake.RecoveryWakeStarts?
    requires restored == run.(agents := restored.agents) && restored.agents.Keys == run.agents.Keys
    ensures var woken := WokenByVerdict(graph, restored, id, read, answer);
            && Stored(graph, woken) && id in woken.rows && id in woken.agents && woken.recoveries == run.recoveries
            && woken.rows[id] == Row(IN_PROGRESS, answer.wokenAt, None, run.rows[id].recoveryAttemptsAllowed,
                                     run.rows[id].settledAt)
            && LatestNote(woken.audits, id) == Some(WokenByRecovery)
            && ReturnsDependents(graph, run, woken, id, answer.wokenAt)
  {
    var session := ResumedSession(answer.wake.at, RecoveryTrigger, answer.wake.isFresh, read);
    var opened' := WithAgent(restored, id, AddSession(restored.agents[id], session));
    var recorded := Recorded(opened', id, IN_PROGRESS, WokenByRecovery, answer.wokenAt);
    RecordedNotes(opened', id, IN_PROGRESS, WokenByRecovery, answer.wokenAt);
    OthersStayReleasable(graph, run, recorded, id, answer.wokenAt);
    assert IsLeft(recorded, Released(graph, recorded, id, answer.wokenAt), id);
    ReleaseKeepsRecoveries(recorded, ToRelease(graph, recorded, id), answer.wokenAt);
  }

  /**
   What a verdict that is carried out writes: one attempt spent, the verdict recorded, its node moved as it
   asks, and the dependents returned where the node wakes or waits.
   */
  ghost predicate IsCarriedOut(graph: Graph, run: Run, run': Run, command: RecoverCommand, answer: RecoverAnswer)
    requires command.nodeId in run.rows
  {
    var id := command.nodeId;
    && id in run'.rows && run'.rows[id] == RowAfterVerdict(run, command, answer)
    && LatestNote(run'.audits, id) == NoteAfterVerdict(run, command, answer)
    && run'.recoveries ==
       run.recoveries + [NodeRecovery(id, answer.recordedAt, command.recoverable,
                                      if command.recoverAt.Some? then command.recoverAt.value else answer.recordedAt)]
    && (if command.wakes then ReturnsDependents(graph, run, run', id, answer.wokenAt)
        else if Waits(command, answer) then ReturnsDependents(graph, run, run', id, answer.recordedAt)
        else forall other :: other in run.rows && other != id ==> IsLeft(run, run', other))
  }

  lemma QuietVerdictWrites(graph: Graph, run: Run, restored: Run, command: RecoverCommand, answer: RecoverAnswer)
    requires Stored(graph, run) && command.nodeId in run.rows && command.nodeId in run.agents && !command.wakes
    requires restored == run.(agents := restored.agents) && restored.agents.Keys == run.agents.Keys
    ensures IsCarriedOut(graph, run,
                         VerdictRecorded(graph, restored, command, IsIn(run, command.nodeId, NEEDS_HUMAN), answer),
                         command, answer)
  {
    VerdictWrites(graph, restored, command, IsIn(run, command.nodeId, NEEDS_HUMAN), answer);
    SameReturns(graph, run, restored,
                VerdictRecorded(graph, restored, command, IsIn(run, command.nodeId, NEEDS_HUMAN), answer),
                command.nodeId, answer.recordedAt);
  }

  lemma SameReturns(graph: Graph, run: Run, restored: Run, run': Run, upstream: NodeId, now: int)
    requires restored == run.(agents := restored.agents) && restored.agents.Keys == run.agents.Keys
    ensures ReturnsDependents(graph, restored, run', upstream, now) ==>
              ReturnsDependents(graph, run, run', upstream, now)
  {
    forall id ensures IsReleasable(graph, restored, id) <==> IsReleasable(graph, run, id) {
    }
  }

  lemma WakingVerdictWrites(graph: Graph, run: Run, woken: Run, command: RecoverCommand, answer: RecoverAnswer)
    requires command.nodeId in run.rows && command.wakes
    requires Stored(graph, woken) && command.nodeId in woken.rows && command.nodeId in woken.agents
    requires woken.recoveries == run.recoveries
    requires woken.rows[command.nodeId] ==
             Row(IN_PROGRESS, answer.wokenAt, None, run.rows[command.nodeId].recoveryAttemptsAllowed,
                 run.rows[command.nodeId].settledAt)
    requires LatestNote(woken.audits, command.nodeId) == Some(WokenByRecovery)
    requires ReturnsDependents(graph, run, woken, command.nodeId, answer.wokenAt)
    ensures IsCarriedOut(graph, run,
                         VerdictRecorded(graph, woken, command, IsIn(run, command.nodeId, NEEDS_HUMAN), answer),
                         command, answer)
  {
    var run' := VerdictRecorded(graph, woken, command, IsIn(run, command.nodeId, NEEDS_HUMAN), answer);
    VerdictWrites(graph, woken, command, IsIn(run, command.nodeId, NEEDS_HUMAN), answer);
    forall id | id in run.rows && id != command.nodeId
      ensures if IsHeldBy(graph, run, command.nodeId, id) then IsReturned(run, run', id, answer.wokenAt)
              else IsLeft(run, run', id)
    {
      assert if IsHeldBy(graph, run, command.nodeId, id) then IsReturned(run, woken, id, answer.wokenAt)
             else IsLeft(run, woken, id);
      assert IsLeft(woken, run', id);
    }
  }

  /**
   A verdict is carried out exactly when it is heeded and the wake it may ask for can start; a refused one
   writes no row, no note and no verdict.
   */
  lemma RecoveryIsDoneIff(config: Config, graph: Graph, run: Run, command: RecoverCommand, answer: RecoverAnswer)
    ensures var (run', isDone) := RecoverNode(config, graph, run, command, answer);
            && (isDone <==>
                  && IsHeeded(run, command, answer)
                  && (command.wakes ==> CanBeWoken(config, graph, run, command.nodeId, answer)))
            && (!isDone ==> run'.rows == run.rows && run'.audits == run.audits && run'.recoveries == run.recoveries)
  {
  }

  /** An accepted verdict is carried out in full: row, note, record and returned dependents. */
  lemma RecoveryOutcome(config: Config, graph: Graph, run: Run, command: RecoverCommand, answer: RecoverAnswer)
    requires Stored(graph, run) && RecoverNode(config, graph, run, command, answer).1
    ensures command.nodeId in run.rows
    ensures IsCarriedOut(graph, run, RecoverNode(config, graph, run, command, answer).0, command, answer)
  {
    var id := command.nodeId;
    var restored := if command.restoresMarks then MarksRestored(run, id) else run;
    if command.wakes {
      WakeWrites(graph, run, restored, id, run.agents[id].worktree, answer);
      WakingVerdictWrites(graph, run, WokenByVerdict(graph, restored, id, run.agents[id].worktree, answer), command,
                          answer);
    } else {
      QuietVerdictWrites(graph, run, restored, command, answer);
    }
  }

  /**
   A verdict that wakes opens a session, remembering the marks as they were before the command; a review wake
   is none of them, so the node keeps the wakes it has had unless a new conversation began.
   */
  lemma RecoverySession(config: Config, graph: Graph, run: Run, command: RecoverCommand, answer: RecoverAnswer)
    requires RecoverNode(config, graph, run, command, answer).1 && command.wakes
    ensures var id, run' := command.nodeId, RecoverNode(config, graph, run, command, answer).0;
            var before, after := SessionsOf(run, id), SessionsOf(run', id);
            && answer.wake.RecoveryWakeStarts? && |after| == |before| + 1 && after[..|before|] == before
            && after[|before|].startedAt == answer.wake.at && after[|before|].endedAt.None?
            && after[|before|].triggeredBy == (if answer.wake.isFresh then LaunchTrigger else RecoveryTrigger)
            && after[|before|].marksBefore == (if answer.wake.isFresh then None else MarksRead(run, id))
            && Wakes(run', id) == if answer.wake.isFresh then 0 else Wakes(run, id)
  {
    var id := command.nodeId;
    var restored := if command.restoresMarks then MarksRestored(run, id) else run;
    var woken := WokenByVerdict(graph, restored, id, run.agents[id].worktree, answer);
    WakeKeepsWorkTree(graph, restored, id, run.agents[id].worktree, answer);
    VerdictKeepsAgents(graph, woken, command, IsIn(run, id, NEEDS_HUMAN), answer);
    var before, after := SessionsOf(run, id), SessionsOf(woken, id);
    assert after == before + [after[|before|]];
    WakesAfterStart(before, after[|before|]);
  }

  // ---------- spent attempts ----------

  /** The entries that give this node this note, by their places in the log. */
  function NotesOn(run: Run, id: NodeId, note: Note): set<nat>
  {
    set k | 0 <= k < |run.audits| && run.audits[k].nodeId == id && run.audits[k].note == note
  }

  /**
   A failed node without attempts goes to a human, who is told how many verdicts there were. One that rests
   on a pull request stays where it is and is noted just once until a further verdict comes; one that a human
   has already, or without a row, is left alone.
   */
  lemma AttemptsOutcome(run: Run, id: NodeId, at: int, again: int)
    ensures var run', attempts := OutOfAttempts(run, id, at), CountVerdicts(run.recoveries, id);
            var entry := AuditEntry(id, RESTING, ObservingPullRequest(attempts), at);
            && run'.agents == run.agents
            && OutOfAttempts(run', id, again) == run'
            && if id !in run.rows || run.rows[id].state == NEEDS_HUMAN then run' == run
               else if && run.rows[id].state == RESTING && id in run.agents && run.agents[id].worktree.Some?
                       && run.agents[id].worktree.value.prNumber > 0 then
                 && run'.rows == run.rows
                 && run'.audits == run.audits + if NotesOn(run, id, entry.note) == {} then [entry] else []
               else IsWritten(run, run', id, NEEDS_HUMAN, at, None, OutOfRecoveryAttempts(attempts))
  {
    var run', attempts := OutOfAttempts(run, id, at), CountVerdicts(run.recoveries, id);
    var note := ObservingPullRequest(attempts);
    if IsObserved(run, id) && run' != run {
      assert run'.audits[|run.audits|] == AuditEntry(id, RESTING, note, at);
    }
    if e :| e in run.audits && e.nodeId == id && e.note == note {
      var k :| 0 <= k < |run.audits| && run.audits[k] == e;
      assert k in NotesOn(run, id, note);
    }
  }
}

/**
 Whole runs: sequences of passes and operator commands, what they keep from the first row to the
 last, and exactly which recovery verdicts would break it.
 */
module RunHistories {
  import opened Graphs
  import opened GraphServices
  import opened Options
  import opened Runs
  import opened PendingNodes
  import opened InProgressNodes
  import opened RestingNodes
  import opened DependentReleases
  import opened NodeOperators
  import opened NodeRecoveries
  import opened RecoveryScans
  import opened RunInvariants
  import opened StartSafety

  // ---------- recovery verdicts ----------

  /** The verdict puts its node back to pending until a future time. */
  predicate Defers(command: RecoverCommand, answer: RecoverAnswer)
  {
    command.GetResumeAt(answer.recordedAt).Some?
  }

  /** The verdict hands its node to a human. */
  predicate HandsOver(run: Run, command: RecoverCommand)
  {
    !command.recoverable && !IsIn(run, command.nodeId, NEEDS_HUMAN)
  }

  predicate HasOpenSession(run: Run, id: NodeId)
  {
    AgentSession(run, id).Some? && AgentSession(run, id).value.endedAt.None?
  }

  /** The verdict moves its node while a session of it is open. */
  predicate StrandsSession(run: Run, command: RecoverCommand, answer: RecoverAnswer)
  {
    || (Defers(command, answer) && HasOpenSession(run, command.nodeId))
    || (HandsOver(run, command) && (command.wakes || HasOpenSession(run, command.nodeId)))
  }

  /** The verdict takes its node out of MERGED or SKIPPED. */
  predicate UndoesEnding(run: Run, command: RecoverCommand, answer: RecoverAnswer)
  {
    || (Defers(command, answer) && (IsIn(run, command.nodeId, MERGED) || IsIn(run, command.nodeId, SKIPPED)))
    || (HandsOver(run, command) && IsIn(run, command.nodeId, SKIPPED))
  }

  /** The verdict is carried out: its node failed, what it asks for can be done, and its wake, if any, starts. */
  predicate IsAccepted(config: Config, graph: Graph, run: Run, command: RecoverCommand, answer: RecoverAnswer)
  {
    var id := command.nodeId;
    && id in run.rows && AgentSession(run, id).Some?
    && (!command.recoverable ==> CanRecordUnrecoverable(run, id, answer))
    && (command.restoresMarks ==> CanRestoreMarks(run, id, answer))
    && (command.wakes ==> CanWake(config, graph, run, id, answer))
  }

  /** Whether a verdict is carried out shows before the call; a refused one moves no node. */
  lemma AcceptedShowsBefore(config: Config, graph: Graph, run: Run, command: RecoverCommand, answer: RecoverAnswer)
    ensures var after := RecoverNode(config, graph, run, command, answer);
            && after.1 == IsAccepted(config, graph, run, command, answer)
            && (!after.1 ==> after.0.rows == run.rows && after.0.audits == run.audits)
  {
  }

  /** A verdict the invariants of a run survive; a caller can see it on the row before the call. */
  predicate IsOrderly(run: Run, command: RecoverCommand, answer: RecoverAnswer)
  {
    !StrandsSession(run, command, answer) && !UndoesEnding(run, command, answer)
  }

  lemma WakeByVerdictIsSound(config: Config, graph: Graph, run: Run, id: NodeId, read: Option<WorkTree>,
                             answer: RecoverAnswer)
    requires SessionsSound(run) && CanWake(config, graph, run, id, answer)
    ensures SoundMove(run, WokenByVerdict(graph, run, id, read, answer))
    ensures IsIn(WokenByVerdict(graph, run, id, read, answer), id, IN_PROGRESS)
  {
    assert NodeSound(run, id);
    var session := ResumedSession(answer.wake.at, RecoveryTrigger, answer.wake.isFresh, read);
    var agent := AddSession(run.agents[id], session);
    var woken := Recorded(WithAgent(run, id, agent), id, IN_PROGRESS, WokenByRecovery, answer.wokenAt);
    StartIsSound(run, id, agent, session, WokenByRecovery, answer.wokenAt);
    NodeStepIsSoundMove(run, woken, id);
    ReleaseIsSound(graph, woken, id, answer.wokenAt);
    SoundMovesCompose(run, woken, WokenByVerdict(graph, run, id, read, answer));
  }

  lemma RestoringMarksIsSound(run: Run, id: NodeId, answer: RecoverAnswer)
    requires SessionsSound(run) && CanRestoreMarks(run, id, answer)
    ensures SoundMove(run, MarksRestored(run, id)) && MarksRestored(run, id).rows == run.rows
    ensures AgentSession(MarksRestored(run, id), id) == AgentSession(run, id)
  {
    assert NodeSound(run, id);
    AgentWriteIsSound(run, id, MarksRestored(run, id).agents[id]);
    NodeStepIsSoundMove(run, MarksRestored(run, id), id);
  }

  lemma VerdictRowIsSound(run: Run, command: RecoverCommand, now: int)
    requires SessionsSound(run) && command.nodeId in run.rows
    ensures SoundMove(run, VerdictAdded(run, command, now))
  {
    assert NodeSound(run, command.nodeId);
    assert SoundStep(run, VerdictAdded(run, command, now), command.nodeId);
    NodeStepIsSoundMove(run, VerdictAdded(run, command, now), command.nodeId);
  }

  /** What the verdict row and the move it implies do to a run whose marks and wake are settled. */
  lemma RecordingIsSound(graph: Graph, run: Run, command: RecoverCommand, neededHuman: bool, answer: RecoverAnswer)
    requires SessionsSound(run) && command.nodeId in run.rows
    requires Defers(command, answer) || (!command.recoverable && !neededHuman) ==>
               IsMovable(run, command.nodeId) && !HasOpenSession(run, command.nodeId)
    ensures SoundMove(run, VerdictRecorded(graph, run, command, neededHuman, answer))
  {
    var id, now := command.nodeId, answer.recordedAt;
    var added := VerdictAdded(run, command, now);
    VerdictRowIsSound(run, command, now);
    assert NodeSound(added, id) && NodeSound(run, id);
    var resumeAt := command.GetResumeAt(now);
    if resumeAt.Some? {
      var waiting := Waiting(added, id, resumeAt.value, RecoveryWait(resumeAt.value), now);
      MoveIsSound(added, id, PENDING, now, resumeAt, RecoveryWait(resumeAt.value));
      NodeStepIsSoundMove(added, waiting, id);
      ReleaseIsSound(graph, waiting, id, now);
      SoundMovesCompose(added, waiting, VerdictRecorded(graph, run, command, neededHuman, answer));
    } else if !command.recoverable && !neededHuman {
      MoveIsSound(added, id, NEEDS_HUMAN, answer.movedAt, None, MarkedUnrecoverable);
      NodeStepIsSoundMove(added, VerdictRecorded(graph, run, command, neededHuman, answer), id);
    }
    SoundMovesCompose(run, added, VerdictRecorded(graph, run, command, neededHuman, answer));
  }

  lemma OrderlyRecoveryIsSound(config: Config, graph: Graph, run: Run, command: RecoverCommand, answer: RecoverAnswer)
    requires SessionsSound(run)
    requires IsAccepted(config, graph, run, command, answer) ==> IsOrderly(run, command, answer)
    ensures SoundMove(run, RecoverNode(config, graph, run, command, answer).0)
  {
    var id := command.nodeId;
    var after := RecoverNode(config, graph, run, command, answer);
    AcceptedShowsBefore(config, graph, run, command, answer);
    if after.0 != run {
      var restored := if command.restoresMarks then MarksRestored(run, id) else run;
      if command.restoresMarks {
        RestoringMarksIsSound(run, id, answer);
      }
      if after.1 {
        var woken := restored;
        assert NodeSound(run, id);
        if command.wakes {
          woken := WokenByVerdict(graph, restored, id, run.agents[id].worktree, answer);
          WakeByVerdictIsSound(config, graph, restored, id, run.agents[id].worktree, answer);
          SoundMovesCompose(run, restored, woken);
        }
        RecordingIsSound(graph, woken, command, IsIn(run, id, NEEDS_HUMAN), answer);
        SoundMovesCompose(run, woken, after.0);
      }
    }
  }

  // ---------- exactly which verdicts break a run ----------

  lemma ReleaseSparesAgents(graph: Graph, run: Run, id: NodeId, other: NodeId, now: int)
    requires other in run.rows && other in run.agents
    ensures Released(graph, run, id, now).rows[other] == run.rows[other]
    ensures Released(graph, run, id, now).agents == run.agents
  {
  }

  /** After a verdict that moves its node, the node rests in PENDING or NEEDS_HUMAN, whatever sessions it has. */
  lemma VerdictMovesNode(graph: Graph, run: Run, command: RecoverCommand, neededHuman: bool, answer: RecoverAnswer)
    requires command.nodeId in run.rows && command.nodeId in run.agents
    requires Defers(command, answer) || (!command.recoverable && !neededHuman)
    ensures var after := VerdictRecorded(graph, run, command, neededHuman, answer);
            && IsIn(after, command.nodeId, if Defers(command, answer) then PENDING else NEEDS_HUMAN)
            && after.agents == run.agents
  {
    var id, now := command.nodeId, answer.recordedAt;
    var added := VerdictAdded(run, command, now);
    var resumeAt := command.GetResumeAt(now);
    if resumeAt.Some? {
      ReleaseSparesAgents(graph, Waiting(added, id, resumeAt.value, RecoveryWait(resumeAt.value), now), id, id, now);
    }
  }

  lemma StrandedSessionIsUnsound(run: Run, id: NodeId)
    requires HasOpenSession(run, id) && !IsIn(run, id, IN_PROGRESS)
    ensures !SessionsSound(run)
  {
    assert !SessionsFit(run.agents[id].sessions, false) by {
      assert run.agents[id].sessions[|run.agents[id].sessions| - 1].endedAt.None?;
    }
    assert !NodeSound(run, id);
  }

  lemma DisorderlyVerdictStrands(config: Config, graph: Graph, run: Run, command: RecoverCommand, answer: RecoverAnswer)
    requires SessionsSound(run) && RecoverNode(config, graph, run, command, answer).1
    requires StrandsSession(run, command, answer)
    ensures !SessionsSound(RecoverNode(config, graph, run, command, answer).0)
  {
    var id := command.nodeId;
    var restored := if command.restoresMarks then MarksRestored(run, id) else run;
    if command.restoresMarks {
      RestoringMarksIsSound(run, id, answer);
    }
    var woken := restored;
    if command.wakes {
      woken := WokenByVerdict(graph, restored, id, run.agents[id].worktree, answer);
      WakeByVerdictIsSound(config, graph, restored, id, run.agents[id].worktree, answer);
      var session := ResumedSession(answer.wake.at, RecoveryTrigger, answer.wake.isFresh, run.agents[id].worktree);
      assert woken.agents[id] == AddSession(restored.agents[id], session);
      assert LatestSession(woken.agents[id]) == Some(session);
    }
    assert HasOpenSession(woken, id);
    VerdictMovesNode(graph, woken, command, IsIn(run, id, NEEDS_HUMAN), answer);
    StrandedSessionIsUnsound(RecoverNode(config, graph, run, command, answer).0, id);
  }

  lemma MoveKeepsSessions(run: Run, id: NodeId, state: NodeState, at: int, resumeAt: Option<int>, note: Note)
    requires SessionsSound(run) && !HasOpenSession(run, id) && state != IN_PROGRESS
    ensures SessionsSound(Audited(SetState(run, id, state, at, resumeAt), id, state, note, at))
  {
    var after := Audited(SetState(run, id, state, at, resumeAt), id, state, note, at);
    forall other ensures NodeSound(after, other) {
      assert NodeSound(run, other);
    }
  }

  lemma RecordingKeepsSessions(graph: Graph, run: Run, command: RecoverCommand, neededHuman: bool,
                               answer: RecoverAnswer)
    requires SessionsSound(run) && command.nodeId in run.rows
    requires Defers(command, answer) || (!command.recoverable && !neededHuman) ==> !HasOpenSession(run, command.nodeId)
    ensures SessionsSound(VerdictRecorded(graph, run, command, neededHuman, answer))
  {
    var id, now := command.nodeId, answer.recordedAt;
    var added := VerdictAdded(run, command, now);
    VerdictRowIsSound(run, command, now);
    var resumeAt := command.GetResumeAt(now);
    if resumeAt.Some? {
      MoveKeepsSessions(added, id, PENDING, now, resumeAt, RecoveryWait(resumeAt.value));
      ReleaseIsSound(graph, Waiting(added, id, resumeAt.value, RecoveryWait(resumeAt.value), now), id, now);
    } else if !command.recoverable && !neededHuman {
      MoveKeepsSessions(added, id, NEEDS_HUMAN, answer.movedAt, None, MarkedUnrecoverable);
    }
  }

  /**
   A recovery verdict keeps the session invariant exactly when it is refused or does not move its
   node away from an open session.
   */
  lemma RecoveryKeepsSessionsIff(config: Config, graph: Graph, run: Run, command: RecoverCommand, answer: RecoverAnswer)
    requires SessionsSound(run)
    ensures var after := RecoverNode(config, graph, run, command, answer);
            SessionsSound(after.0) <==>
            !(IsAccepted(config, graph, run, command, answer) && StrandsSession(run, command, answer))
  {
    var id := command.nodeId;
    var after := RecoverNode(config, graph, run, command, answer);
    AcceptedShowsBefore(config, graph, run, command, answer);
    if after.1 && StrandsSession(run, command, answer) {
      DisorderlyVerdictStrands(config, graph, run, command, answer);
    } else if after.0 != run {
      var restored := if command.restoresMarks then MarksRestored(run, id) else run;
      if command.restoresMarks {
        RestoringMarksIsSound(run, id, answer);
      }
      if after.1 {
        var woken := restored;
        if command.wakes {
          woken := WokenByVerdict(graph, restored, id, run.agents[id].worktree, answer);
          WakeByVerdictIsSound(config, graph, restored, id, run.agents[id].worktree, answer);
        }
        RecordingKeepsSessions(graph, woken, command, IsIn(run, id, NEEDS_HUMAN), answer);
      }
    }
  }

  ghost predicate StartsCleared(graph: Graph, run: Run, starts: set<Start>)
  {
    forall s :: s in starts ==> Cleared(graph, run, s)
  }

  lemma ForwardKeepsStarts(graph: Graph, run: Run, run': Run, starts: set<Start>)
    requires Forward(run, run') && StartsCleared(graph, run, starts)
    ensures StartsCleared(graph, run', starts)
  {
    forall s | s in starts ensures Cleared(graph, run', s) {
      ForwardKeepsCleared(graph, run, run', s);
    }
  }

  /** Apart from this node, exactly the same nodes are merged, at the same times, and skipped. */
  ghost predicate SameEndingsElsewhere(run: Run, run': Run, id: NodeId)
  {
    && run'.order == run.order && run'.rows.Keys == run.rows.Keys
    && (forall d :: d != id ==> (IsIn(run', d, MERGED) <==> IsIn(run, d, MERGED)))
    && (forall d :: d != id ==> (IsIn(run', d, SKIPPED) <==> IsIn(run, d, SKIPPED)))
    && (forall d :: d != id && IsIn(run, d, MERGED) ==> run'.rows[d].updatedAt == run.rows[d].updatedAt)
  }

  lemma ReturnsKeepEndings(run: Run, ids: seq<NodeId>, other: NodeId, now: int)
    requires forall d :: d in ids ==> IsIn(run, d, NEEDS_HUMAN)
    ensures SameEndingsElsewhere(run, ReturnedToPending(run, ids, now), other)
    ensures Forward(run, ReturnedToPending(run, ids, now))
  {
    var after := ReturnedToPending(run, ids, now);
    forall d | d in run.rows
      ensures after.rows[d] == run.rows[d] || (IsIn(run, d, NEEDS_HUMAN) && IsIn(after, d, PENDING))
    {
    }
  }

  lemma ReleaseKeepsEndings(graph: Graph, run: Run, id: NodeId, other: NodeId, now: int)
    ensures SameEndingsElsewhere(run, Released(graph, run, id, now), other)
    ensures Forward(run, Released(graph, run, id, now))
  {
    ReturnsKeepEndings(run, ToRelease(graph, run, id), other, now);
  }

  lemma VerdictKeepsEndings(graph: Graph, run: Run, command: RecoverCommand, neededHuman: bool, answer: RecoverAnswer)
    requires command.nodeId in run.rows
    ensures SameEndingsElsewhere(run, VerdictRecorded(graph, run, command, neededHuman, answer), command.nodeId)
    ensures (Defers(command, answer) || (!command.recoverable && !neededHuman) ==> IsMovable(run, command.nodeId)) ==>
              Forward(run, VerdictRecorded(graph, run, command, neededHuman, answer))
  {
    var id, now := command.nodeId, answer.recordedAt;
    var added := VerdictAdded(run, command, now);
    var resumeAt := command.GetResumeAt(now);
    if resumeAt.Some? {
      ReleaseKeepsEndings(graph, Waiting(added, id, resumeAt.value, RecoveryWait(resumeAt.value), now), id, id, now);
    }
  }

  /** A verdict that does not undo an ending undoes none at all. */
  lemma RecoveryIsForward(config: Config, graph: Graph, run: Run, command: RecoverCommand, answer: RecoverAnswer)
    requires SessionsSound(run)
    requires !(RecoverNode(config, graph, run, command, answer).1 && UndoesEnding(run, command, answer))
    ensures Forward(run, RecoverNode(config, graph, run, command, answer).0)
  {
    var id := command.nodeId;
    var after := RecoverNode(config, graph, run, command, answer);
    if after.0 != run {
      var restored := if command.restoresMarks then MarksRestored(run, id) else run;
      if command.restoresMarks {
        RestoringMarksIsSound(run, id, answer);
      }
      if after.1 {
        var woken := restored;
        if command.wakes {
          woken := WokenByVerdict(graph, restored, id, run.agents[id].worktree, answer);
          WakeByVerdictIsSound(config, graph, restored, id, run.agents[id].worktree, answer);
        }
        VerdictKeepsEndings(graph, woken, command, IsIn(run, id, NEEDS_HUMAN), answer);
      }
    }
  }

  /** Taking a node out of MERGED or SKIPPED uncovers it to whoever reaches it past the other skipped nodes. */
  lemma UndoneEndingUncovers(graph: Graph, run: Run, run': Run, id: NodeId, start: Start)
    requires SameEndingsElsewhere(run, run', id) && Cleared(graph, run, start)
    requires IsIn(run, id, MERGED) || IsIn(run, id, SKIPPED)
    requires !IsIn(run', id, MERGED) && !IsIn(run', id, SKIPPED)
    ensures Cleared(graph, run', start) <==> id !in EffectiveIds(graph, Skipped(run) - {id}, start.0.id)
  {
    var edges, x := EdgesOf(graph), start.0.id;
    var without := Skipped(run) - {id};
    assert Skipped(run') == without;
    if id in EffectiveIds(graph, without, x) {
      assert id in WaitsFor(graph, run', x) && !IsDone(run', start, id);
    } else {
      SkipUnrelated(edges, without, id, x);
      if id in Skipped(run) {
        assert without + {id} == Skipped(run);
      } else {
        assert without == Skipped(run);
      }
      assert WaitsFor(graph, run', x) == WaitsFor(graph, run, x);
      forall d | d in WaitsFor(graph, run', x) ensures IsDone(run', start, d) {
        assert IsDone(run, start, d);
      }
    }
  }

  lemma UndoingVerdict(config: Config, graph: Graph, run: Run, command: RecoverCommand, answer: RecoverAnswer)
    requires RecoverNode(config, graph, run, command, answer).1 && UndoesEnding(run, command, answer)
    ensures var after, id := RecoverNode(config, graph, run, command, answer).0, command.nodeId;
            && SameEndingsElsewhere(run, after, id)
            && (IsIn(run, id, MERGED) || IsIn(run, id, SKIPPED))
            && !IsIn(after, id, MERGED) && !IsIn(after, id, SKIPPED)
  {
    var id := command.nodeId;
    assert IsIn(run, id, MERGED) || IsIn(run, id, SKIPPED);
    assert !command.wakes;
    var restored := if command.restoresMarks then MarksRestored(run, id) else run;
    VerdictKeepsEndings(graph, restored, command, IsIn(run, id, NEEDS_HUMAN), answer);
    VerdictMovesNode(graph, restored, command, IsIn(run, id, NEEDS_HUMAN), answer);
  }

  /**
   A recovery verdict keeps every start cleared exactly when it is refused, undoes no ending, or
   nothing that started reaches the node past the other skipped nodes.
   */
  lemma RecoveryKeepsStartsIff(config: Config, graph: Graph, run: Run, command: RecoverCommand, answer: RecoverAnswer,
                               starts: set<Start>)
    requires SessionsSound(run) && StartsCleared(graph, run, starts)
    ensures var after := RecoverNode(config, graph, run, command, answer);
            StartsCleared(graph, after.0, starts) <==>
            !(&& IsAccepted(config, graph, run, command, answer) && UndoesEnding(run, command, answer)
              && exists s :: s in starts
                             && command.nodeId in EffectiveIds(graph, Skipped(run) - {command.nodeId}, s.0.id))
  {
    var id := command.nodeId;
    var after := RecoverNode(config, graph, run, command, answer);
    AcceptedShowsBefore(config, graph, run, command, answer);
    if after.1 && UndoesEnding(run, command, answer) {
      UndoingVerdict(config, graph, run, command, answer);
      forall s | s in starts
        ensures Cleared(graph, after.0, s) <==> id !in EffectiveIds(graph, Skipped(run) - {id}, s.0.id)
      {
        UndoneEndingUncovers(graph, run, after.0, id, s);
      }
    } else {
      RecoveryIsForward(config, graph, run, command, answer);
      ForwardKeepsStarts(graph, run, after.0, starts);
    }
  }

  // ---------- whole runs ----------

  /** One pass over a state, or one operator command; the answers come from outside. */
  datatype Event =
    | PendingPass(now: int, pendingAnswers: NodeId -> PendingAnswer)
    | InProgressPass(settleAnswers: NodeId -> SettleAnswer)
    | RestingPass(restingAnswers: NodeId -> RestingAnswer)
    | SkipCommand(skipped: NodeId, skippedAt: int)
    | RetryCommand(retried: NodeId, reset: bool, retriedAt: int)
    | StopCommand(stopped: NodeId, stoppedAt: int, stopAnswer: StopAnswer)
    | AbortCommand(keys: seq<SessionKey>, abortedAt: int)
    | Recovery(command: RecoverCommand, recoverAnswer: RecoverAnswer)
    | AttemptsSpent(spent: NodeId, spentAt: int)

  ghost function Apply(config: Config, graph: Graph, run: Run, event: Event): Run
  {
    match event
    case PendingPass(now, answers) => PendingSweep(config, graph, run, now, answers).0
    case InProgressPass(answers) => InProgressSweep(config, graph, run, answers).0
    case RestingPass(answers) => RestingSweep(config, graph, run, answers).0
    case SkipCommand(id, now) => SkipNode(graph, run, id, now).0
    case RetryCommand(id, reset, now) => RetryNode(graph, run, id, reset, now).0
    case StopCommand(id, now, answer) => StopNode(config, graph, run, id, now, answer).0
    case AbortCommand(keys, now) => SessionsKilled(run, keys, now)
    case Recovery(command, answer) => RecoverNode(config, graph, run, command, answer).0
    case AttemptsSpent(id, at) => OutOfAttempts(run, id, at)
  }

  /**
   Abort works on the sessions that are open, verdicts that are carried out are orderly, and only failed
   nodes run out of attempts.
   */
  ghost predicate IsPermitted(config: Config, graph: Graph, run: Run, event: Event)
  {
    match event
    case AbortCommand(keys, _) => forall key :: key in keys ==> IsSessionOpen(run, key)
    case Recovery(command, answer) =>
      IsAccepted(config, graph, run, command, answer) ==> IsOrderly(run, command, answer)
    case AttemptsSpent(id, _) => IsStopped(run, id) || IsIn(run, id, RESTING)
    case _ => true
  }

  /** The nodes this event started, each with the time of its pass. */
  ghost function StartsOf(graph: Graph, run: Run, run': Run, event: Event): set<Start>
  {
    match event
    case PendingPass(now, _) =>
      set n | n in graph && IsIn(run, n.id, PENDING) && IsIn(run', n.id, IN_PROGRESS) :: (n, now)
    case _ => {}
  }

  /** What holds from the first row of a run to the last. */
  ghost predicate RunSound(graph: Graph, run: Run, starts: set<Start>)
  {
    && Stored(graph, run)
    && SessionsSound(run)
    && StartsCleared(graph, run, starts)
    && (forall id :: id in run.agents ==> exists s :: s in starts && s.0.id == id)
  }

  lemma MoveKeepsRunSound(graph: Graph, run: Run, run': Run, starts: set<Start>)
    requires RunSound(graph, run, starts) && SoundMove(run, run')
    ensures RunSound(graph, run', starts)
  {
    ForwardKeepsStarts(graph, run, run', starts);
  }

  lemma PendingPassKeepsRunSound(config: Config, graph: Graph, run: Run, starts: set<Start>, event: Event)
    requires UniqueIds(graph) && event.PendingPass? && RunSound(graph, run, starts)
    ensures var run' := Apply(config, graph, run, event);
            Forward(run, run') && RunSound(graph, run', starts + StartsOf(graph, run, run', event))
  {
    var run' := Apply(config, graph, run, event);
    var nodes := GraphNodesIn(graph, run, PENDING);
    SweepListIsSwept(graph, run, PENDING);
    PendingSweepIsSound(config, graph, run, nodes, event.now, event.pendingAnswers);
    ForwardKeepsStarts(graph, run, run', starts);
    forall id | id in run'.agents
      ensures exists s :: s in starts + StartsOf(graph, run, run', event) && s.0.id == id
    {
      if id in run.agents {
        var s :| s in starts && s.0.id == id;
        assert s in starts + StartsOf(graph, run, run', event);
      } else {
        var n :| n in nodes && n.id == id;
        assert (n, event.now) in StartsOf(graph, run, run', event);
      }
    }
  }

  lemma AttemptsSpentIsSound(run: Run, id: NodeId, at: int)
    requires SessionsSound(run) && (IsStopped(run, id) || IsIn(run, id, RESTING))
    ensures SoundMove(run, OutOfAttempts(run, id, at))
  {
    assert NodeSound(run, id);
    var after := OutOfAttempts(run, id, at);
    if after.rows != run.rows {
      RecordedIsSound(run, id, NEEDS_HUMAN, OutOfRecoveryAttempts(CountVerdicts(run.recoveries, id)), at);
      NodeStepIsSoundMove(run, after, id);
    } else {
      assert SoundStep(run, after, id);
      NodeStepIsSoundMove(run, after, id);
    }
  }

  /** Every event of a run keeps it sound, with the nodes the event started added to those cleared. */
  lemma EventKeepsRunSound(config: Config, graph: Graph, run: Run, starts: set<Start>, event: Event)
    requires UniqueIds(graph) && RunSound(graph, run, starts) && IsPermitted(config, graph, run, event)
    ensures var run' := Apply(config, graph, run, event);
            Forward(run, run') && RunSound(graph, run', starts + StartsOf(graph, run, run', event))
  {
    if event.PendingPass? {
      PendingPassKeepsRunSound(config, graph, run, starts, event);
    } else {
      var run' := Apply(config, graph, run, event);
      assert starts + StartsOf(graph, run, run', event) == starts;
      OtherEventIsSound(config, graph, run, event);
      MoveKeepsRunSound(graph, run, run', starts);
    }
  }

  lemma OtherEventIsSound(config: Config, graph: Graph, run: Run, event: Event)
    requires UniqueIds(graph) && SessionsSound(run) && IsPermitted(config, graph, run, event) && !event.PendingPass?
    ensures SoundMove(run, Apply(config, graph, run, event))
  {
    match event
    case InProgressPass(answers) =>
      SweepListIsSwept(graph, run, IN_PROGRESS);
      InProgressSweepIsSound(config, run, GraphNodesIn(graph, run, IN_PROGRESS), answers);
    case RestingPass(answers) =>
      SweepListIsSwept(graph, run, RESTING);
      RestingSweepIsSound(config, run, GraphNodesIn(graph, run, RESTING), answers);
    case SkipCommand(id, now) => SkipIsSound(graph, run, id, now);
    case RetryCommand(id, reset, now) => RetryIsSound(graph, run, id, reset, now);
    case StopCommand(id, now, answer) => StopIsSound(config, graph, run, id, now, answer);
    case AbortCommand(keys, now) => AbortIsSound(run, keys, now);
    case Recovery(command, answer) => OrderlyRecoveryIsSound(config, graph, run, command, answer);
    case AttemptsSpent(id, at) => AttemptsSpentIsSound(run, id, at);
  }

  /** A run from freshly created rows: every node pending, no agent bound. */
  ghost predicate IsFresh(graph: Graph, run: Run)
  {
    Stored(graph, run) && run.agents == map[] && forall id :: id in run.rows ==> IsIn(run, id, PENDING)
  }

  /** `runs` are the states an uninterrupted history of permitted events went through. */
  ghost predicate IsHistory(config: Config, graph: Graph, runs: seq<Run>, events: seq<Event>)
  {
    && |runs| == |events| + 1
    && IsFresh(graph, runs[0])
    && forall i :: 0 <= i < |events| ==>
         IsPermitted(config, graph, runs[i], events[i]) && runs[i + 1] == Apply(config, graph, runs[i], events[i])
  }

  ghost function AllStarts(graph: Graph, runs: seq<Run>, events: seq<Event>, j: nat): set<Start>
    requires |runs| == |events| + 1 && j <= |events|
  {
    if j == 0 then {}
    else AllStarts(graph, runs, events, j - 1) + StartsOf(graph, runs[j - 1], runs[j], events[j - 1])
  }

  lemma {:induction false} HistoryIsSound(config: Config, graph: Graph, runs: seq<Run>, events: seq<Event>, j: nat)
    requires UniqueIds(graph) && IsHistory(config, graph, runs, events) && j <= |events|
    ensures RunSound(graph, runs[j], AllStarts(graph, runs, events, j))
  {
    if j == 0 {
      forall id ensures NodeSound(runs[0], id) {
        assert id in runs[0].rows ==> IsIn(runs[0], id, PENDING);
      }
    } else {
      HistoryIsSound(config, graph, runs, events, j - 1);
      EventKeepsRunSound(config, graph, runs[j - 1], AllStarts(graph, runs, events, j - 1), events[j - 1]);
    }
  }

  lemma {:induction false} StartsAccumulate(graph: Graph, runs: seq<Run>, events: seq<Event>, i: nat, j: nat)
    requires |runs| == |events| + 1 && i < j <= |events|
    ensures StartsOf(graph, runs[i], runs[i + 1], events[i]) <= AllStarts(graph, runs, events, j)
    decreases j
  {
    if i + 1 < j {
      StartsAccumulate(graph, runs, events, i, j - 1);
    }
  }

  /**
   Start safety: whatever happens after a pass started a node, everything the node waits for is
   merged, and merged at least the node's cooldown before that pass.
   */
  lemma StartSafetyOverRuns(config: Config, graph: Graph, runs: seq<Run>, events: seq<Event>,
                            i: nat, j: nat, node: GraphNode)
    requires UniqueIds(graph) && IsHistory(config, graph, runs, events)
    requires i < j <= |events| && events[i].PendingPass? && node in graph
    requires IsIn(runs[i], node.id, PENDING) && IsIn(runs[i + 1], node.id, IN_PROGRESS)
    ensures forall d :: d in WaitsFor(graph, runs[j], node.id) ==>
              && IsIn(runs[j], d, MERGED)
              && (node.cooldownSeconds > 0 ==>
                    runs[j].rows[d].updatedAt + node.cooldownSeconds <= events[i].now)
  {
    HistoryIsSound(config, graph, runs, events, j);
    StartsAccumulate(graph, runs, events, i, j);
    var start := (node, events[i].now);
    assert start in StartsOf(graph, runs[i], runs[i + 1], events[i]);
    assert Cleared(graph, runs[j], start);
    forall d | d in WaitsFor(graph, runs[j], node.id) ensures IsDone(runs[j], start, d) {
    }
  }

  /** However a node came to be in progress, everything it waits for is merged, then and ever after. */
  lemma WorkIsAlwaysCleared(config: Config, graph: Graph, runs: seq<Run>, events: seq<Event>,
                            i: nat, j: nat, id: NodeId)
    requires UniqueIds(graph) && IsHistory(config, graph, runs, events)
    requires i <= j <= |events| && IsIn(runs[i], id, IN_PROGRESS)
    ensures DependenciesMerged(graph, runs[j], id)
  {
    HistoryIsSound(config, graph, runs, events, i);
    assert NodeSound(runs[i], id);
    var start :| start in AllStarts(graph, runs, events, i) && start.0.id == id;
    AllStartsGrow(graph, runs, events, i, j);
    HistoryIsSound(config, graph, runs, events, j);
    assert Cleared(graph, runs[j], start);
    forall d | d in WaitsFor(graph, runs[j], id) ensures IsIn(runs[j], d, MERGED) {
      assert IsDone(runs[j], start, d);
    }
  }

  lemma {:induction false} AllStartsGrow(graph: Graph, runs: seq<Run>, events: seq<Event>, i: nat, j: nat)
    requires |runs| == |events| + 1 && i <= j <= |events|
    ensures AllStarts(graph, runs, events, i) <= AllStarts(graph, runs, events, j)
    decreases j
  {
    if i < j {
      AllStartsGrow(graph, runs, events, i, j - 1);
    }
  }

  /** In every state of a history an open session belongs to a node in progress, its latest, and only one. */
  lemma OpenSessionsOverRuns(config: Config, graph: Graph, runs: seq<Run>, events: seq<Event>,
                             j: nat, key: SessionKey, key': SessionKey)
    requires UniqueIds(graph) && IsHistory(config, graph, runs, events) && j <= |events|
    requires IsSessionOpen(runs[j], key) && IsSessionOpen(runs[j], key')
    ensures IsIn(runs[j], key.nodeId, IN_PROGRESS)
    ensures key.nodeId == key'.nodeId ==> key == key'
  {
    HistoryIsSound(config, graph, runs, events, j);
    assert NodeSound(runs[j], key.nodeId);
  }

  /** Each pending or resting pass of a history keeps the worker cap and counts the sessions it starts. */
  lemma WorkerCapOverRuns(config: Config, graph: Graph, runs: seq<Run>, events: seq<Event>, i: nat)
    requires UniqueIds(graph) && IsHistory(config, graph, runs, events) && i < |events|
    ensures events[i].PendingPass? ==>
              CapKept(config, runs[i], PendingSweep(config, graph, runs[i], events[i].now, events[i].pendingAnswers))
    ensures events[i].RestingPass? ==>
              CapKept(config, runs[i], RestingSweep(config, graph, runs[i], events[i].restingAnswers))
  {
    HistoryIsSound(config, graph, runs, events, i);
    if events[i].PendingPass? {
      SweepListIsSwept(graph, runs[i], PENDING);
      PendingSweepKeepsCap(config, graph, runs[i], GraphNodesIn(graph, runs[i], PENDING),
                           events[i].now, events[i].pendingAnswers);
    } else if events[i].RestingPass? {
      SweepListIsSwept(graph, runs[i], RESTING);
      RestingSweepKeepsCap(config, runs[i], GraphNodesIn(graph, runs[i], RESTING), events[i].restingAnswers);
    }
  }
}

/** Applies the recovery agent's decision to a node and records it. */
module NodeRecoveries {
  import opened Graphs
  import opened GraphServices
  import opened Options
  import opened Runs
  import opened DependentReleases

  datatype Cause = UsageLimitCause | ProviderFailure | OtherCause

  datatype RecoverCommand = RecoverCommand(
    nodeId: NodeId,
    cause: Cause,
    recoverable: bool,
    recoverAt: Option<int>,
    restoresMarks: bool,
    wakes: bool)
  {
    /** The resume time for an automatic recovery wait. */
    function GetResumeAt(now: int): Option<int>
    {
      if !recoverable || wakes || cause == OtherCause then None
      else if recoverAt.None? || recoverAt.value <= now then None
      else recoverAt
    }
  }

  datatype RecoveryWake = RecoveryWakeFails | RecoveryWakeStarts(at: int, isFresh: bool)

  /** What the process table, the launcher and the clock answer at each place they are asked. */
  datatype RecoverAnswer = RecoverAnswer(
    isAliveAtVerdict: bool,
    isAliveAtRestore: bool,
    isAliveAtWake: bool,
    wake: RecoveryWake,
    wokenAt: int,
    recordedAt: int,
    movedAt: int)

  // ---------- what one verdict does ----------

  predicate CanRecordUnrecoverable(run: Run, id: NodeId, answer: RecoverAnswer)
  {
    !IsIn(run, id, MERGED) && !(IsIn(run, id, IN_PROGRESS) && answer.isAliveAtVerdict)
  }

  predicate CanRestoreMarks(run: Run, id: NodeId, answer: RecoverAnswer)
  {
    && !answer.isAliveAtRestore
    && AgentSession(run, id).Some? && AgentSession(run, id).value.marksBefore.Some?
    && run.agents[id].worktree.Some?
  }

  /** Puts the worktree's watermarks back to the latest session's. */
  function MarksRestored(run: Run, id: NodeId): Run
    requires AgentSession(run, id).Some? && AgentSession(run, id).value.marksBefore.Some?
    requires run.agents[id].worktree.Some?
  {
    var agent := run.agents[id];
    var marks := AgentSession(run, id).value.marksBefore.value;
    WithAgent(run, id, agent.(worktree := Some(agent.worktree.value.(marks := marks))))
  }

  predicate IsWakeable(run: Run, id: NodeId)
  {
    IsIn(run, id, ERRORED) || IsIn(run, id, NEEDS_HUMAN) || IsIn(run, id, RESTING)
  }

  predicate CanWake(config: Config, graph: Graph, run: Run, id: NodeId, answer: RecoverAnswer)
  {
    && IsWakeable(run, id) && !answer.isAliveAtWake
    && id in run.agents && run.agents[id].worktree.Some? && run.agents[id].hasToken
    && FirstDeclared(graph, id).Some? && HasLauncher(config, FirstDeclared(graph, id).value)
    && answer.wake.RecoveryWakeStarts?
  }

  /** The node's conversation resumes; `read` is the worktree as it was read when the command began. */
  ghost function WokenByVerdict(graph: Graph, run: Run, id: NodeId, read: Option<WorkTree>, answer: RecoverAnswer): Run
    requires id in run.agents && answer.wake.RecoveryWakeStarts?
  {
    var session := ResumedSession(answer.wake.at, RecoveryTrigger, answer.wake.isFresh, read);
    var woken := WithAgent(run, id, AddSession(run.agents[id], session));
    Released(graph, Recorded(woken, id, IN_PROGRESS, WokenByRecovery, answer.wokenAt), id, answer.wokenAt)
  }

  function VerdictAdded(run: Run, command: RecoverCommand, now: int): Run
  {
    var id := command.nodeId;
    var recoverAt := if command.recoverAt.Some? then command.recoverAt.value else now;
    var added := run.(recoveries := run.recoveries + [NodeRecovery(id, now, command.recoverable, recoverAt)]);
    if id in added.rows
    then added.(rows := added.rows[id :=
                          added.rows[id].(recoveryAttemptsAllowed := added.rows[id].recoveryAttemptsAllowed - 1)])
    else added
  }

  /** Writes the failure and its verdict; `neededHuman` is the state the node was read in. */
  ghost function VerdictRecorded(graph: Graph, run: Run, command: RecoverCommand, neededHuman: bool,
                                 answer: RecoverAnswer): Run
  {
    var id, now := command.nodeId, answer.recordedAt;
    var added := VerdictAdded(run, command, now);
    var resumeAt := command.GetResumeAt(now);
    if resumeAt.Some? then
      Released(graph, Waiting(added, id, resumeAt.value, RecoveryWait(resumeAt.value), now), id, now)
    else if !command.recoverable && !neededHuman then
      Recorded(added, id, NEEDS_HUMAN, MarkedUnrecoverable, answer.movedAt)
    else added
  }

  /** Applies what the recovery agent decided; a refused decision reports failure. */
  ghost function RecoverNode(config: Config, graph: Graph, run: Run, command: RecoverCommand, answer: RecoverAnswer)
    : (Run, bool)
  {
    var id := command.nodeId;
    if id !in run.rows || AgentSession(run, id).None? then (run, false)
    else if !command.recoverable && !CanRecordUnrecoverable(run, id, answer) then (run, false)
    else if command.restoresMarks && !CanRestoreMarks(run, id, answer) then (run, false)
    else
      var restored := if command.restoresMarks then MarksRestored(run, id) else run;
      if command.wakes && !CanWake(config, graph, run, id, answer) then (restored, false)
      else
        var woken := if command.wakes
                     then WokenByVerdict(graph, restored, id, run.agents[id].worktree, answer) else restored;
        (VerdictRecorded(graph, woken, command, IsIn(run, id, NEEDS_HUMAN), answer), true)
  }

  // ---------- the service ----------

  class NodeRecoveryService {
    const store: RunStore
    const config: Config
    const releaseService: DependentReleaseService

    constructor (store: RunStore, config: Config, releaseService: DependentReleaseService)
      requires releaseService.store == store
      ensures this.store == store && this.config == config && this.releaseService == releaseService
    {
      this.store, this.config, this.releaseService := store, config, releaseService;
    }

    method Recover(command: RecoverCommand, answer: RecoverAnswer) returns (isDone: bool)
      requires releaseService.store == store
      modifies store
      ensures (store.State(), isDone) ==
              RecoverNode(config, releaseService.graph, old(store.State()), command, answer)
    {
      var id := command.nodeId;
      if id !in store.rows || id !in store.agents || store.agents[id].sessions == [] {
        return false;
      }
      var state, worktree := store.rows[id].state, store.agents[id].worktree;
      if !command.recoverable {
        if state == MERGED || (state == IN_PROGRESS && answer.isAliveAtVerdict) {
          return false;
        }
      }
      if command.restoresMarks {
        var isRestored := RestoreMarks(id, answer);
        if !isRestored {
          return false;
        }
      }
      if command.wakes {
        var isWoken := WakeNode(id, worktree, answer);
        if !isWoken {
          return false;
        }
      }
      RecordVerdict(command, state == NEEDS_HUMAN, answer);
      return true;
    }

    method RestoreMarks(id: NodeId, answer: RecoverAnswer) returns (isDone: bool)
      requires AgentSession(store.State(), id).Some?
      modifies store`agents
      ensures isDone == CanRestoreMarks(old(store.State()), id, answer)
      ensures store.State() == if isDone then MarksRestored(old(store.State()), id) else old(store.State())
    {
      var agent := store.agents[id];
      var session := agent.sessions[|agent.sessions| - 1];
      if answer.isAliveAtRestore || agent.worktree.None? || session.marksBefore.None? {
        return false;
      }
      store.SaveAgent(id, agent.(worktree := Some(agent.worktree.value.(marks := session.marksBefore.value))));
      return true;
    }

    method WakeNode(id: NodeId, read: Option<WorkTree>, answer: RecoverAnswer) returns (isDone: bool)
      requires releaseService.store == store
      requires id in store.rows && AgentSession(store.State(), id).Some?
      modifies store
      ensures isDone == CanWake(config, releaseService.graph, old(store.State()), id, answer)
      ensures store.State() ==
              if isDone then WokenByVerdict(releaseService.graph, old(store.State()), id, read, answer)
              else old(store.State())
      ensures id in store.rows
    {
      var state, agent := store.rows[id].state, store.agents[id];
      if state != ERRORED && state != NEEDS_HUMAN && state != RESTING {
        return false;
      }
      if answer.isAliveAtWake || agent.worktree.None? || !agent.hasToken {
        return false;
      }
      var declared := FirstDeclared(releaseService.graph, id);
      if declared.None? || !HasLauncher(config, declared.value) || answer.wake.RecoveryWakeFails? {
        return false;
      }
      var session := ResumedSession(answer.wake.at, RecoveryTrigger, answer.wake.isFresh, read);
      store.SaveAgent(id, AddSession(agent, session));
      store.Record(id, IN_PROGRESS, WokenByRecovery, answer.wokenAt);
      var _ := releaseService.Release(id, answer.wokenAt);
      return true;
    }

    method RecordVerdict(command: RecoverCommand, neededHuman: bool, answer: RecoverAnswer)
      requires releaseService.store == store && command.nodeId in store.rows
      modifies store
      ensures store.State() ==
              VerdictRecorded(releaseService.graph, old(store.State()), command, neededHuman, answer)
    {
      var id, now := command.nodeId, answer.recordedAt;
      AddVerdict(command, now);
      var resumeAt := command.GetResumeAt(now);
      if resumeAt.Some? {
        store.Wait(id, resumeAt.value, RecoveryWait(resumeAt.value), now);
        var _ := releaseService.Release(id, now);
      }
      if !command.recoverable && !neededHuman {
        store.Record(id, NEEDS_HUMAN, MarkedUnrecoverable, answer.movedAt);
      }
    }

    method AddVerdict(command: RecoverCommand, now: int)
      requires command.nodeId in store.rows
      modifies store
      ensures store.State() == VerdictAdded(old(store.State()), command, now)
    {
      var id := command.nodeId;
      var recoverAt := now;
      if command.recoverAt.Some? {
        recoverAt := command.recoverAt.value;
      }
      store.recoveries := store.recoveries + [NodeRecovery(id, now, command.recoverable, recoverAt)];
      var row := store.rows[id];
      store.rows := store.rows[id := row.(recoveryAttemptsAllowed := row.recoveryAttemptsAllowed - 1)];
    }
  }
}

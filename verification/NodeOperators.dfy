/** The operator commands on one node: skip, retry and stop, and what abort does to the open sessions. */
module NodeOperators {
  import opened Graphs
  import opened GraphServices
  import opened Options
  import opened Runs
  import opened DependentReleases

  // ---------- skip ----------

  datatype SkipResult = SkipRefused | SkipDone(released: seq<NodeId>, ensuresHostJob: bool)

  predicate IsSkippable(run: Run, id: NodeId)
  {
    id in run.rows && run.rows[id].state != IN_PROGRESS && run.rows[id].state != MERGED
  }

  /** Marks the node skipped and returns the dependents it stopped to pending. */
  ghost function SkipNode(graph: Graph, run: Run, id: NodeId, now: int): (Run, SkipResult)
  {
    if !IsSkippable(run, id) then (run, SkipRefused)
    else
      var marked := Recorded(run, id, SKIPPED, SkippedByHuman, now);
      var released := ToRelease(graph, marked, id);
      (Released(graph, marked, id, now), SkipDone(released, !IsIn(run, id, SKIPPED) || released != []))
  }

  class NodeSkipService {
    const store: RunStore
    const releaseService: DependentReleaseService

    constructor (store: RunStore, releaseService: DependentReleaseService)
      requires releaseService.store == store
      ensures this.store == store && this.releaseService == releaseService
    {
      this.store, this.releaseService := store, releaseService;
    }

    method Skip(id: NodeId, now: int) returns (result: SkipResult)
      requires releaseService.store == store
      modifies store
      ensures (store.State(), result) == SkipNode(releaseService.graph, old(store.State()), id, now)
    {
      if id !in store.rows {
        return SkipRefused;
      }
      var state := store.rows[id].state;
      if state == IN_PROGRESS || state == MERGED {
        return SkipRefused;
      }
      var isAlreadySkipped := state == SKIPPED;
      store.Record(id, SKIPPED, SkippedByHuman, now);
      var released := releaseService.Release(id, now);
      if isAlreadySkipped && released == [] {
        return SkipDone([], false);
      }
      return SkipDone(released, true);
    }
  }

  // ---------- retry ----------

  function AttemptsReset(run: Run, id: NodeId, attempts: int): Run
  {
    if id in run.rows
    then run.(rows := run.rows[id := run.rows[id].(recoveryAttemptsAllowed := attempts)])
    else run
  }

  function TokenCleared(run: Run, id: NodeId): Run
  {
    if id in run.agents then WithAgent(run, id, run.agents[id].(hasToken := false)) else run
  }

  /** Sends a stopped node back to pending; `reset` also drops its conversation. */
  ghost function RetryNode(graph: Graph, run: Run, id: NodeId, reset: bool, now: int): (Run, bool)
  {
    var declared := FirstDeclared(graph, id);
    if !IsStopped(run, id) || declared.None? then (run, false)
    else
      var renewed := AttemptsReset(run, id, declared.value.recoveryAttemptsAllowed);
      var renewedAgent := if reset then TokenCleared(renewed, id) else renewed;
      (Released(graph, Recorded(renewedAgent, id, PENDING, SentBackToWork, now), id, now), true)
  }

  class RetryCommandHandler {
    const store: RunStore
    const releaseService: DependentReleaseService

    constructor (store: RunStore, releaseService: DependentReleaseService)
      requires releaseService.store == store
      ensures this.store == store && this.releaseService == releaseService
    {
      this.store, this.releaseService := store, releaseService;
    }

    method Retry(id: NodeId, reset: bool, now: int) returns (isDone: bool)
      requires releaseService.store == store
      modifies store
      ensures (store.State(), isDone) == RetryNode(releaseService.graph, old(store.State()), id, reset, now)
    {
      if id !in store.rows {
        return false;
      }
      var state := store.rows[id].state;
      var declared := FirstDeclared(releaseService.graph, id);
      if (state != ERRORED && state != NEEDS_HUMAN) || declared.None? {
        return false;
      }
      var row := store.rows[id];
      store.rows := store.rows[id := row.(recoveryAttemptsAllowed := declared.value.recoveryAttemptsAllowed)];
      if reset && id in store.agents {
        store.SaveAgent(id, store.agents[id].(hasToken := false));
      }
      store.Record(id, PENDING, SentBackToWork, now);
      var _ := releaseService.Release(id, now);
      return true;
    }
  }

  // ---------- stop ----------

  /** What the process table and the launcher answer to a stop. */
  datatype StopAnswer = StopAnswer(isProcessDead: bool, canStop: bool)

  function StopNode(config: Config, graph: Graph, run: Run, id: NodeId, now: int, answer: StopAnswer): (Run, bool)
  {
    var declared := FirstDeclared(graph, id);
    if !IsIn(run, id, IN_PROGRESS) || answer.isProcessDead || AgentSession(run, id).None?
       || run.agents[id].worktree.None? || declared.None? || !HasLauncher(config, declared.value) || !answer.canStop
    then (run, false)
    else
      var closed := WithAgent(run, id, CloseLatest(run.agents[id], now, Stopped));
      (Recorded(closed, id, NEEDS_HUMAN, StoppedByPerson, now), true)
  }

  class NodeStopService {
    const store: RunStore
    const config: Config
    const graph: Graph

    constructor (store: RunStore, config: Config, graph: Graph)
      ensures this.store == store && this.config == config && this.graph == graph
    {
      this.store, this.config, this.graph := store, config, graph;
    }

    method Stop(id: NodeId, now: int, answer: StopAnswer) returns (isDone: bool)
      modifies store
      ensures (store.State(), isDone) == StopNode(config, graph, old(store.State()), id, now, answer)
    {
      if id !in store.rows || store.rows[id].state != IN_PROGRESS {
        return false;
      }
      if answer.isProcessDead || id !in store.agents || store.agents[id].sessions == []
         || store.agents[id].worktree.None? {
        return false;
      }
      var declared := FirstDeclared(graph, id);
      if declared.None? || !HasLauncher(config, declared.value) || !answer.canStop {
        return false;
      }
      CloseSession(id, now);
      store.Record(id, NEEDS_HUMAN, StoppedByPerson, now);
      return true;
    }

    method CloseSession(id: NodeId, now: int)
      requires id in store.agents && store.agents[id].sessions != []
      modifies store`agents
      ensures store.State() ==
              WithAgent(old(store.State()), id, CloseLatest(old(store.agents[id]), now, Stopped))
    {
      var agent := store.agents[id];
      var last := |agent.sessions| - 1;
      store.SaveAgent(id, agent.(sessions := agent.sessions[last := Close(agent.sessions[last], now, Stopped)]));
    }
  }

  // ---------- abort ----------

  /** One execution, named by its agent's node and its place in the agent's history. */
  datatype SessionKey = SessionKey(nodeId: NodeId, index: nat)

  predicate IsSessionOpen(run: Run, key: SessionKey)
  {
    && key.nodeId in run.agents
    && key.index < |run.agents[key.nodeId].sessions|
    && run.agents[key.nodeId].sessions[key.index].endedAt.None?
  }

  function SessionKilled(run: Run, key: SessionKey, now: int): Run
  {
    if key.nodeId in run.agents && key.index < |run.agents[key.nodeId].sessions| then
      var agent := run.agents[key.nodeId];
      var closed := Close(agent.sessions[key.index], now, Aborted);
      var killed := WithAgent(run, key.nodeId, agent.(sessions := agent.sessions[key.index := closed]));
      Recorded(killed, key.nodeId, NEEDS_HUMAN, KilledByAbort, now)
    else run
  }

  function SessionsKilled(run: Run, keys: seq<SessionKey>, now: int): Run
  {
    if keys == [] then run
    else SessionKilled(SessionsKilled(run, keys[..|keys| - 1], now), keys[|keys| - 1], now)
  }

  class AgentSessionKiller {
    const store: RunStore

    constructor (store: RunStore)
      ensures this.store == store
    {
      this.store := store;
    }

    /** Kills every session the store lists as open, in the order it lists them. */
    method KillAll(keys: seq<SessionKey>, now: int)
      modifies store
      ensures store.State() == SessionsKilled(old(store.State()), keys, now)
    {
      for i := 0 to |keys|
        invariant store.State() == SessionsKilled(old(store.State()), keys[..i], now)
      {
        assert keys[..i + 1][..i] == keys[..i];
        Kill(keys[i], now);
      }
      assert keys[..|keys|] == keys;
    }

    /** Ends this execution, records its ending and parks its node. */
    method Kill(key: SessionKey, now: int)
      modifies store
      ensures store.State() == SessionKilled(old(store.State()), key, now)
    {
      if key.nodeId !in store.agents || key.index >= |store.agents[key.nodeId].sessions| {
        return;
      }
      var agent := store.agents[key.nodeId];
      var closed := Close(agent.sessions[key.index], now, Aborted);
      store.SaveAgent(key.nodeId, agent.(sessions := agent.sessions[key.index := closed]));
      store.UpdateState(key.nodeId, NEEDS_HUMAN, now, None);
      store.SaveAudit(key.nodeId, NEEDS_HUMAN, KilledByAbort, now);
    }
  }
}

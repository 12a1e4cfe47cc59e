/** Advances the nodes that have not yet started. */
module PendingNodes {
  import opened Graphs
  import opened GraphServices
  import opened Options
  import opened Runs
  import opened StartTimes

  /** What git, the platform and the agent product answer when a node is about to start. */
  datatype LaunchAnswer =
    | Blocked
    | Unavailable
    | Started(at: int, isFresh: bool, prNumber: nat)

  datatype PendingAnswer = PendingAnswer(wallClock: int, launch: LaunchAnswer)

  // ---------- what one pending node does ----------

  /** The agent of a node after it starts or resumes its own work. */
  function StartedAgent(recorded: Option<Agent>, isResuming: bool, at: int, isFresh: bool): Agent
  {
    if recorded.Some? && recorded.value.hasToken then
      var trigger := if isResuming then RecoveryTrigger else RetryTrigger;
      AddSession(recorded.value, ResumedSession(at, trigger, isFresh, recorded.value.worktree))
    else
      var worktree := if recorded.Some? then recorded.value.worktree else Some(WorkTree(0, "", map[]));
      var sessions := if recorded.Some? then recorded.value.sessions else [];
      Agent(true, sessions + [LaunchedSession(at)], worktree)
  }

  /** The agent of a node after it takes over a pull request. */
  function AdoptedAgent(recorded: Option<Agent>, at: int, isFresh: bool, prNumber: nat): Agent
  {
    var isWaking := recorded.Some? && recorded.value.hasToken;
    var session := if isWaking then ResumedSession(at, RetryTrigger, isFresh, None) else LaunchedSession(at);
    var sessions := if recorded.Some? then recorded.value.sessions else [];
    var worktree :=
      if recorded.Some? && recorded.value.worktree.Some?
      then recorded.value.worktree.value.(prNumber := prNumber)
      else WorkTree(prNumber, "", map[]);
    Agent(true, sessions + [session], Some(worktree))
  }

  predicate CanResume(run: Run, id: NodeId)
  {
    id in run.rows && run.rows[id].resumeAt.Some? && id in run.agents && run.agents[id].hasToken
  }

  function StartNote(recorded: Option<Agent>, isFresh: bool): Note
  {
    if recorded.Some? && recorded.value.hasToken && isFresh then ConversationStartedWithoutThread else WorkStarted
  }

  /** The node passed every guard and a launcher for it exists. */
  function Launched(run: Run, node: GraphNode, now: int, answer: PendingAnswer): (Run, TickResponse)
  {
    match answer.launch
    case Blocked => (Recorded(run, node.id, ERRORED, LaunchBlocked, now), ONE_EVENT)
    case Unavailable => (run, NOTHING)
    case Started(at, isFresh, prNumber) =>
      var recorded := RecordedAgent(run, node.id);
      if node.isAdopted && !CanResume(run, node.id) then
        var agent := AdoptedAgent(recorded, at, isFresh, prNumber);
        (Recorded(WithAgent(run, node.id, agent), node.id, IN_PROGRESS, TakeoverStarted, answer.wallClock),
         ONE_SESSION)
      else
        var isResuming := node.id in run.rows && run.rows[node.id].resumeAt.Some?;
        var agent := StartedAgent(recorded, isResuming, at, isFresh);
        (Recorded(WithAgent(run, node.id, agent), node.id, IN_PROGRESS, StartNote(recorded, isFresh), now),
         ONE_SESSION)
  }

  /** The audit entry stating the start time of a waiting node, once for each wait. */
  function WaitNoted(run: Run, node: GraphNode, startTime: int, wallClock: int): Run
  {
    if node.id !in run.rows || run.rows[node.id].resumeAt.Some?
       || run.rows[node.id].updatedAt > startTime - node.cooldownSeconds
    then run
    else Recorded(run, node.id, PENDING, StartsAfterCooldown(startTime), wallClock)
  }

  function NodesToTime(run: Run, dependencies: set<NodeId>, id: NodeId): seq<NodeRow>
  {
    RowsOf(run.rows, Found(run.order, Skipped(run)) + Found(run.order, dependencies) + [id])
  }

  ghost function NodeStartTime(graph: Graph, run: Run, node: GraphNode): Option<int>
  {
    var nodes := NodesToTime(run, WaitsFor(graph, run, node.id), node.id);
    StartTime(node, nodes, CooldownIds(graph, nodes, node.id))
  }

  /** The stopped nodes this one waits for, in the order the store finds them. */
  ghost function StoppedDependencies(graph: Graph, run: Run, id: NodeId): seq<NodeId>
  {
    Found(run.order, set d | d in WaitsFor(graph, run, id) && IsStopped(run, d))
  }

  ghost predicate AwaitsMerge(graph: Graph, run: Run, id: NodeId)
  {
    exists d :: d in WaitsFor(graph, run, id) && d in run.order && !IsIn(run, d, MERGED)
  }

  /**
   One pending node, given what it waits for: stop propagation, merged guard, start time, worker cap, the
   start itself.
   */
  function Decided(config: Config, run: Run, node: GraphNode, now: int, answer: PendingAnswer,
                   stopped: seq<NodeId>, isAwaiting: bool, startTime: Option<int>): (Run, TickResponse)
  {
    if stopped != [] then
      (Recorded(run, node.id, NEEDS_HUMAN, UpstreamStopped(stopped[0]), now), ONE_EVENT)
    else if isAwaiting || node.id !in run.rows then (run, NOTHING)
    else if startTime.Some? && startTime.value > now then
      (WaitNoted(run, node, startTime.value, answer.wallClock), NOTHING)
    else if |IdsIn(run, IN_PROGRESS)| >= config.maxWorkers then (run, NOTHING)
    else if !HasLauncher(config, node) then
      (Recorded(run, node.id, NEEDS_HUMAN, UnknownExecutor, now), ONE_EVENT)
    else Launched(run, node, now, answer)
  }

  ghost function PendingAdvance(config: Config, graph: Graph, run: Run, node: GraphNode, now: int,
                                answer: PendingAnswer): (Run, TickResponse)
  {
    Decided(config, run, node, now, answer,
            StoppedDependencies(graph, run, node.id), AwaitsMerge(graph, run, node.id), NodeStartTime(graph, run, node))
  }

  /** The nodes in turn, each against the rows its predecessors left. */
  ghost function PendingSweepOver(config: Config, graph: Graph, run: Run, nodes: seq<GraphNode>, now: int,
                                  answers: NodeId -> PendingAnswer): (Run, TickResponse)
  {
    if nodes == [] then (run, NOTHING)
    else
      var node := nodes[|nodes| - 1];
      var before := PendingSweepOver(config, graph, run, nodes[..|nodes| - 1], now, answers);
      var after := PendingAdvance(config, graph, before.0, node, now, answers(node.id));
      (after.0, before.1.IncrementWith(after.1))
  }

  /** One sweep of the nodes waiting to start, on freshly read rows. */
  ghost function PendingSweep(config: Config, graph: Graph, run: Run, now: int,
                              answers: NodeId -> PendingAnswer): (Run, TickResponse)
  {
    PendingSweepOver(config, graph, run, GraphNodesIn(graph, run, PENDING), now, answers)
  }

  // ---------- the handler ----------

  class PendingNodeHandler {
    const store: RunStore
    const config: Config

    constructor (store: RunStore, config: Config)
      ensures this.store == store && this.config == config
    {
      this.store, this.config := store, config;
    }

    method Handle(graph: Graph, pendingNodes: seq<GraphNode>, now: int, answers: NodeId -> PendingAnswer)
      returns (response: TickResponse)
      modifies store
      ensures (store.State(), response) ==
              PendingSweepOver(config, graph, old(store.State()), pendingNodes, now, answers)
    {
      response := NOTHING;
      for i := 0 to |pendingNodes|
        invariant (store.State(), response) ==
                  PendingSweepOver(config, graph, old(store.State()), pendingNodes[..i], now, answers)
      {
        assert pendingNodes[..i + 1][..i] == pendingNodes[..i];
        var nodeResponse := Advance(graph, pendingNodes[i], now, answers(pendingNodes[i].id));
        response := response.IncrementWith(nodeResponse);
      }
      assert pendingNodes[..|pendingNodes|] == pendingNodes;
    }

    method Advance(graph: Graph, node: GraphNode, now: int, answer: PendingAnswer) returns (response: TickResponse)
      modifies store
      ensures (store.State(), response) == PendingAdvance(config, graph, old(store.State()), node, now, answer)
    {
      var skipped := store.GetIdsByState(SKIPPED);
      var dependencies := GetEffectiveDependencies(graph, node.id, skipped);
      ghost var effective := WaitsFor(graph, store.State(), node.id);
      EffectiveIdsAreDeclared(graph, skipped, node.id);
      NodesWithIdsHaveIds(graph, effective);
      var dependencyIds := store.GetIdsByIds(dependencies);

      var stopped := FindStopped(dependencyIds, effective);
      if stopped.Some? {
        store.Record(node.id, NEEDS_HUMAN, UpstreamStopped(stopped.value), now);
        return ONE_EVENT;
      }

      var isAwaiting := exists d :: d in dependencyIds && !(d in store.rows && store.rows[d].state == MERGED);
      assert isAwaiting == AwaitsMerge(graph, store.State(), node.id);
      if isAwaiting || node.id !in store.rows {
        return NOTHING;
      }

      var nodes := RowsOf(store.rows, Found(store.order, skipped) + dependencyIds + [node.id]);
      var startTime := GetStartTime(graph, node, nodes);
      assert startTime == NodeStartTime(graph, store.State(), node);
      if startTime.Some? && startTime.value > now {
        RecordWait(node, startTime.value, answer.wallClock);
        return NOTHING;
      }

      assert stopped.None? && !AwaitsMerge(graph, store.State(), node.id);
      var inProgress := store.GetIdsByState(IN_PROGRESS);
      if |inProgress| >= config.maxWorkers {
        return NOTHING;
      }

      if !HasLauncher(config, node) {
        store.Record(node.id, NEEDS_HUMAN, UnknownExecutor, now);
        return ONE_EVENT;
      }

      response := TryLaunch(node, now, answer);
    }

    /** Adopts or starts the node; what fails for good errors it, what fails for now leaves it pending. */
    method TryLaunch(node: GraphNode, now: int, answer: PendingAnswer) returns (response: TickResponse)
      requires node.id in store.rows
      modifies store
      ensures (store.State(), response) == Launched(old(store.State()), node, now, answer)
    {
      match answer.launch {
        case Blocked =>
          store.Record(node.id, ERRORED, LaunchBlocked, now);
          return ONE_EVENT;
        case Unavailable =>
          return NOTHING;
        case Started(at, isFresh, prNumber) =>
          var row := store.rows[node.id];
          var canResume := row.resumeAt.Some? && node.id in store.agents && store.agents[node.id].hasToken;
          if node.isAdopted && !canResume {
            Adopt(node, answer.wallClock, at, isFresh, prNumber);
          } else {
            Start(node, now, at, isFresh);
          }
          return ONE_SESSION;
      }
    }

    /** The first stopped node among these, if there is one. */
    method FindStopped(dependencyIds: seq<NodeId>, ghost effective: set<NodeId>) returns (stopped: Option<NodeId>)
      requires dependencyIds == Found(store.order, effective)
      ensures var all := Found(store.order, set d | d in effective && IsStopped(store.State(), d));
              stopped == if all == [] then None else Some(all[0])
    {
      FoundAmongFound(store.order, effective, set d | d in effective && IsStopped(store.State(), d));
      for i := 0 to |dependencyIds|
        invariant Found(dependencyIds[..i], set d | d in effective && IsStopped(store.State(), d)) == []
      {
        var d := dependencyIds[i];
        FoundAtEnd(dependencyIds, i, set d | d in effective && IsStopped(store.State(), d));
        if d in store.rows && (store.rows[d].state == NEEDS_HUMAN || store.rows[d].state == ERRORED) {
          return Some(d);
        }
      }
      assert dependencyIds[..|dependencyIds|] == dependencyIds;
      return None;
    }

    /** Writes an audit entry stating the start time of this node, once for each wait. */
    method RecordWait(node: GraphNode, startTime: int, wallClock: int)
      modifies store
      ensures store.State() == WaitNoted(old(store.State()), node, startTime, wallClock)
    {
      var cooldownStart := startTime - node.cooldownSeconds;
      if node.id !in store.rows || store.rows[node.id].resumeAt.Some? {
        return;
      }
      if store.rows[node.id].updatedAt > cooldownStart {
        return;
      }
      store.UpdateState(node.id, PENDING, wallClock, None);
      store.SaveAudit(node.id, PENDING, StartsAfterCooldown(startTime), wallClock);
    }

    method Start(node: GraphNode, now: int, at: int, isFresh: bool)
      requires node.id in store.rows
      modifies store
      ensures var before := old(store.State());
              var recorded := RecordedAgent(before, node.id);
              var agent := StartedAgent(recorded, before.rows[node.id].resumeAt.Some?, at, isFresh);
              store.State() ==
              Recorded(WithAgent(before, node.id, agent), node.id, IN_PROGRESS, StartNote(recorded, isFresh), now)
    {
      var recorded := if node.id in store.agents then Some(store.agents[node.id]) else None;
      var isResuming := store.rows[node.id].resumeAt.Some?;
      var note := WorkStarted;
      var agent: Agent;
      if recorded.Some? && recorded.value.hasToken {
        var trigger := if isResuming then RecoveryTrigger else RetryTrigger;
        var session := ResumedSession(at, trigger, isFresh, recorded.value.worktree);
        if session.triggeredBy == LaunchTrigger {
          note := ConversationStartedWithoutThread;
        }
        agent := AddSession(recorded.value, session);
      } else {
        agent := if recorded.Some? then Agent(true, recorded.value.sessions, recorded.value.worktree)
                 else Agent(true, [], Some(WorkTree(0, "", map[])));
        agent := AddSession(agent, LaunchedSession(at));
      }
      store.SaveAgent(node.id, agent);
      store.Record(node.id, IN_PROGRESS, note, now);
    }

    /** Starts the node's agent on the pull request it takes over. */
    method Adopt(node: GraphNode, wallClock: int, at: int, isFresh: bool, prNumber: nat)
      modifies store
      ensures var before := old(store.State());
              var agent := AdoptedAgent(RecordedAgent(before, node.id), at, isFresh, prNumber);
              store.State() ==
              Recorded(WithAgent(before, node.id, agent), node.id, IN_PROGRESS, TakeoverStarted, wallClock)
    {
      var recorded := if node.id in store.agents then Some(store.agents[node.id]) else None;
      var worktree := WorkTree(prNumber, "", map[]);
      if recorded.Some? && recorded.value.worktree.Some? {
        worktree := recorded.value.worktree.value.(prNumber := prNumber);
      }
      var agent := if recorded.Some? then Agent(recorded.value.hasToken, recorded.value.sessions, Some(worktree))
                   else Agent(false, [], Some(worktree));
      if agent.hasToken {
        agent := AddSession(agent, ResumedSession(at, RetryTrigger, isFresh, None));
      } else {
        agent := AddSession(agent.(hasToken := true), LaunchedSession(at));
      }
      store.SaveAgent(node.id, agent);
      store.UpdateState(node.id, IN_PROGRESS, wallClock, None);
      store.SaveAudit(node.id, IN_PROGRESS, TakeoverStarted, wallClock);
    }
  }

  lemma {:induction false} FoundAmongFound(order: seq<NodeId>, ids: set<NodeId>, some: set<NodeId>)
    requires some <= ids
    ensures Found(Found(order, ids), some) == Found(order, some)
  {
    if order != [] {
      FoundAmongFound(order[1..], ids, some);
      if order[0] in ids {
        assert Found(order, ids)[1..] == Found(order[1..], ids);
      }
    }
  }

  lemma {:induction false} FoundAtEnd(order: seq<NodeId>, i: nat, ids: set<NodeId>)
    requires i < |order| && Found(order[..i], ids) == []
    ensures order[i] in ids ==> Found(order, ids) != [] && Found(order, ids)[0] == order[i]
    ensures order[i] !in ids ==> Found(order[..i + 1], ids) == []
  {
    if i == 0 {
      assert order[..1] == [order[0]] && order[..1][1..] == [];
    } else {
      assert order[0] == order[..i][0];
      assert order[0] !in ids;
      assert order[..i][1..] == order[1..][..i - 1];
      assert order[..i + 1][1..] == order[1..][..i];
      FoundAtEnd(order[1..], i - 1, ids);
    }
  }
}

/** Supervises each working session and settles the node when its session stops. */
module InProgressNodes {
  import opened Graphs
  import opened GraphServices
  import opened Options
  import opened Runs

  datatype Supervision = IsAlive | HasFinished | IsOverdue

  datatype LimitReading = LimitUnreadable | NoLimit | ResetsAt(time: int)

  /** The number of the branch's pull request, zero when it has none. */
  datatype BranchReading = BranchUnreadable | BranchRead(prNumber: nat)

  /** What the launcher, the session log, git and the platform answer about one session. */
  datatype SettleAnswer = SettleAnswer(
    status: Supervision,
    canStop: bool,
    limit: LimitReading,
    branch: BranchReading,
    headSha: Option<string>,
    canCountCommits: bool,
    wallClock: int)

  // ---------- what one working node does ----------

  function FinalState(session: Session, status: Supervision, forced: Option<EndState>): EndState
  {
    if forced.Some? then forced.value
    else if session.endState != NoEnd then session.endState
    else if status.IsOverdue? then Overdue
    else Finished
  }

  /** The run with the node's latest session closed with its final state. */
  function SessionClosed(run: Run, id: NodeId, status: Supervision, forced: Option<EndState>, at: int): Run
    requires id in run.agents && run.agents[id].sessions != []
  {
    var agent := run.agents[id];
    WithAgent(run, id, CloseLatest(agent, at, FinalState(LatestSession(agent).value, status, forced)))
  }

  function StoppedWithoutPullRequest(run: Run, id: NodeId, status: Supervision, at: int): Run
  {
    if status.IsOverdue? then Recorded(run, id, ERRORED, SessionOverdue, at)
    else Recorded(run, id, NEEDS_HUMAN, FinishedWithoutPullRequest, at)
  }

  function RestingNote(status: Supervision, before: nat, number: nat): Note
  {
    if status.IsOverdue? then SessionOverdue
    else if before == 0 then PullRequestOpened(number)
    else SessionFinishedOnPullRequest(number)
  }

  function Published(run: Run, id: NodeId, status: Supervision, number: nat, headSha: string, at: int): Run
    requires id in run.agents && run.agents[id].worktree.Some?
  {
    var agent := run.agents[id];
    var worktree := agent.worktree.value;
    var published := WithAgent(run, id, agent.(worktree := Some(worktree.(prNumber := number, headSha := headSha))));
    Recorded(published, id, RESTING, RestingNote(status, worktree.prNumber, number), at)
  }

  predicate HasSession(run: Run, id: NodeId)
  {
    id in run.agents && run.agents[id].sessions != [] && run.agents[id].worktree.Some?
  }

  /** The session is over and its process gone; a failed reading leaves the node in progress. */
  function Settled(run: Run, id: NodeId, answer: SettleAnswer): (Run, TickResponse)
    requires HasSession(run, id)
  {
    var at, status, worktree := answer.wallClock, answer.status, run.agents[id].worktree.value;
    if answer.limit.LimitUnreadable? then (run, NOTHING)
    else if answer.limit.ResetsAt? then
      var closed := SessionClosed(run, id, status, Some(UsageLimit), at);
      (Waiting(closed, id, answer.limit.time, UsageLimitWait(answer.limit.time), at), ONE_EVENT)
    else if answer.branch.BranchUnreadable? then (run, NOTHING)
    else
      var number := if answer.branch.prNumber != 0 then answer.branch.prNumber else worktree.prNumber;
      if number != 0 && answer.headSha.None? then (run, NOTHING)
      else
        var closed := SessionClosed(run, id, status, None, at);
        if number == 0 then (StoppedWithoutPullRequest(closed, id, status, at), ONE_EVENT)
        else
          var headSha := answer.headSha.value;
          if worktree.headSha != "" && worktree.headSha != headSha && !answer.canCountCommits then (closed, NOTHING)
          else (Published(closed, id, status, number, headSha, at), ONE_EVENT)
  }

  function InProgressAdvance(config: Config, run: Run, node: GraphNode, answer: SettleAnswer): (Run, TickResponse)
  {
    var at := answer.wallClock;
    if !HasSession(run, node.id) then (Recorded(run, node.id, ERRORED, SessionNeverStarted, at), ONE_EVENT)
    else if !HasLauncher(config, node) || answer.status.IsAlive? then (run, NOTHING)
    else if !answer.status.IsOverdue? then Settled(run, node.id, answer)
    else if !answer.canStop then (run, NOTHING)
    else Settled(SessionClosed(run, node.id, IsOverdue, None, at), node.id, answer)
  }

  function InProgressSweepOver(config: Config, run: Run, nodes: seq<GraphNode>,
                               answers: NodeId -> SettleAnswer): (Run, TickResponse)
  {
    if nodes == [] then (run, NOTHING)
    else
      var node := nodes[|nodes| - 1];
      var before := InProgressSweepOver(config, run, nodes[..|nodes| - 1], answers);
      var after := InProgressAdvance(config, before.0, node, answers(node.id));
      (after.0, before.1.IncrementWith(after.1))
  }

  /** One sweep of the nodes whose agents are working, on freshly read rows. */
  function InProgressSweep(config: Config, graph: Graph, run: Run, answers: NodeId -> SettleAnswer): (Run, TickResponse)
  {
    InProgressSweepOver(config, run, GraphNodesIn(graph, run, IN_PROGRESS), answers)
  }

  // ---------- the handler ----------

  class InProgressNodeHandler {
    const store: RunStore
    const config: Config

    constructor (store: RunStore, config: Config)
      ensures this.store == store && this.config == config
    {
      this.store, this.config := store, config;
    }

    method Handle(nodes: seq<GraphNode>, answers: NodeId -> SettleAnswer) returns (response: TickResponse)
      modifies store
      ensures (store.State(), response) == InProgressSweepOver(config, old(store.State()), nodes, answers)
    {
      response := NOTHING;
      for i := 0 to |nodes|
        invariant (store.State(), response) == InProgressSweepOver(config, old(store.State()), nodes[..i], answers)
      {
        assert nodes[..i + 1][..i] == nodes[..i];
        var nodeResponse := Advance(nodes[i], answers(nodes[i].id));
        response := response.IncrementWith(nodeResponse);
      }
      assert nodes[..|nodes|] == nodes;
    }

    method Advance(node: GraphNode, answer: SettleAnswer) returns (response: TickResponse)
      modifies store
      ensures (store.State(), response) == InProgressAdvance(config, old(store.State()), node, answer)
    {
      if node.id !in store.agents || store.agents[node.id].sessions == [] || store.agents[node.id].worktree.None? {
        store.Record(node.id, ERRORED, SessionNeverStarted, answer.wallClock);
        return ONE_EVENT;
      }
      if !HasLauncher(config, node) || answer.status.IsAlive? {
        return NOTHING;
      }
      if answer.status.IsOverdue? {
        if !answer.canStop {
          return NOTHING;
        }
        CloseSession(node.id, answer.status, None, answer.wallClock);
      }
      response := Settle(node.id, answer);
    }

    method Settle(id: NodeId, answer: SettleAnswer) returns (response: TickResponse)
      requires HasSession(store.State(), id)
      modifies store
      ensures (store.State(), response) == Settled(old(store.State()), id, answer)
    {
      var worktree := store.agents[id].worktree.value;
      match answer.limit {
        case LimitUnreadable =>
          return NOTHING;
        case ResetsAt(resetTime) =>
          CloseSession(id, answer.status, Some(UsageLimit), answer.wallClock);
          store.Wait(id, resetTime, UsageLimitWait(resetTime), answer.wallClock);
          return ONE_EVENT;
        case NoLimit =>
      }
      if answer.branch.BranchUnreadable? {
        return NOTHING;
      }
      var prNumber := answer.branch.prNumber;
      if prNumber == 0 {
        prNumber := worktree.prNumber;
      }
      if prNumber != 0 && answer.headSha.None? {
        return NOTHING;
      }
      CloseSession(id, answer.status, None, answer.wallClock);
      if prNumber == 0 {
        RecordStopped(id, answer.status, answer.wallClock);
        return ONE_EVENT;
      }
      var headSha := answer.headSha.value;
      if worktree.headSha != "" && worktree.headSha != headSha && !answer.canCountCommits {
        return NOTHING;
      }
      RecordResting(id, answer.status, prNumber, headSha, answer.wallClock);
      return ONE_EVENT;
    }

    method CloseSession(id: NodeId, status: Supervision, forced: Option<EndState>, at: int)
      requires HasSession(store.State(), id)
      modifies store`agents
      ensures store.State() == SessionClosed(old(store.State()), id, status, forced, at)
    {
      var agent := store.agents[id];
      var last := |agent.sessions| - 1;
      var session := agent.sessions[last];
      var closed := Close(session, at, FinalState(session, status, forced));
      store.SaveAgent(id, agent.(sessions := agent.sessions[last := closed]));
    }

    method RecordStopped(id: NodeId, status: Supervision, at: int)
      modifies store
      ensures store.State() == StoppedWithoutPullRequest(old(store.State()), id, status, at)
    {
      var state, note := NEEDS_HUMAN, FinishedWithoutPullRequest;
      if status.IsOverdue? {
        state, note := ERRORED, SessionOverdue;
      }
      store.Record(id, state, note, at);
    }

    method RecordResting(id: NodeId, status: Supervision, prNumber: nat, headSha: string, at: int)
      requires HasSession(store.State(), id)
      modifies store
      ensures store.State() == Published(old(store.State()), id, status, prNumber, headSha, at)
    {
      var agent := store.agents[id];
      var worktree := agent.worktree.value;
      var isFirstPublication := worktree.prNumber == 0;
      store.SaveAgent(id, agent.(worktree := Some(worktree.(prNumber := prNumber, headSha := headSha))));
      var note := SessionFinishedOnPullRequest(prNumber);
      if status.IsOverdue? {
        note := SessionOverdue;
      } else if isFirstPublication {
        note := PullRequestOpened(prNumber);
      }
      store.Record(id, RESTING, note, at);
    }
  }
}

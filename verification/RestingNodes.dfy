/** Reads each resting node's pull request fresh and acts on its current state. */
module RestingNodes {
  import opened Graphs
  import opened GraphServices
  import opened Options
  import opened Signals
  import opened Runs

  datatype PullRequestReading = Unreadable | Incomplete | IsMerged | IsClosed | IsOpen(reading: Reading)

  datatype WakeAnswer = WakeFails | WakeStarts(at: int, isFresh: bool)

  /** What the platform and the launcher answer about one resting node. */
  datatype RestingAnswer = RestingAnswer(pullRequest: PullRequestReading, wake: WakeAnswer, wallClock: int)

  // ---------- what one resting node does ----------

  /** Review wakes since the latest launch or human retry. */
  function CountWakes(sessions: seq<Session>): nat
  {
    if sessions == [] then 0
    else
      var trigger := sessions[|sessions| - 1].triggeredBy;
      if trigger == LaunchTrigger || trigger == RetryTrigger then 0
      else CountWakes(sessions[..|sessions| - 1]) + if trigger == WakeTrigger then 1 else 0
  }

  function WakingChanges(changes: seq<SignalChange>): (r: seq<SignalChange>)
    ensures forall c :: c in r <==> c in changes && c.wakesNode
  {
    if changes == [] then []
    else if changes[0].wakesNode then [changes[0]] + WakingChanges(changes[1..])
    else WakingChanges(changes[1..])
  }

  function PullRequestSettled(run: Run, id: NodeId, at: int): Run
  {
    if id in run.rows && run.rows[id].settledAt.None?
    then run.(rows := run.rows[id := run.rows[id].(settledAt := Some(at))])
    else run
  }

  function WithWorkTree(run: Run, id: NodeId, worktree: WorkTree): Run
    requires id in run.agents
  {
    WithAgent(run, id, run.agents[id].(worktree := Some(worktree)))
  }

  /** The node is woken with its marks advanced and its starting commit recorded, or refused. */
  function NodeWoken(config: Config, run: Run, id: NodeId, marked: WorkTree, headSha: string, answer: RestingAnswer)
    : (Run, TickResponse)
    requires id in run.agents
  {
    var agent := run.agents[id];
    if CountWakes(agent.sessions) >= config.nodeWakes then
      (Recorded(run, id, NEEDS_HUMAN, OutOfWakes, answer.wallClock), ONE_EVENT)
    else if |IdsIn(run, IN_PROGRESS)| >= config.maxWorkers || answer.wake.WakeFails? then (run, NOTHING)
    else
      var session := ResumedSession(answer.wake.at, WakeTrigger, answer.wake.isFresh, agent.worktree);
      var woken := WithAgent(run, id, AddSession(agent, session));
      (Recorded(WithWorkTree(woken, id, marked.(headSha := headSha)), id, IN_PROGRESS, WorkResumed, answer.wallClock),
       ONE_SESSION)
  }

  /** What an open pull request's news does to its node. */
  function NewsHandled(config: Config, run: Run, id: NodeId, reading: Reading, answer: RestingAnswer)
    : (Run, TickResponse)
    requires id in run.agents && run.agents[id].worktree.Some?
  {
    var worktree := run.agents[id].worktree.value;
    var changes := Changes(config.agentAccount, reading, worktree.marks);
    var marked := worktree.(marks := Advanced(worktree.marks, changes));
    if changes == [] then (run, NOTHING)
    else if WakingChanges(changes) == [] then (WithWorkTree(run, id, marked), ONE_EVENT)
    else NodeWoken(config, run, id, marked, reading.headSha, answer)
  }

  function RestingAdvance(config: Config, run: Run, node: GraphNode, answer: RestingAnswer): (Run, TickResponse)
  {
    var id, at := node.id, answer.wallClock;
    if id !in run.agents || run.agents[id].worktree.None? then
      (Recorded(run, id, ERRORED, SessionNeverStarted, at), ONE_EVENT)
    else if run.agents[id].worktree.value.prNumber == 0 || !HasLauncher(config, node) then (run, NOTHING)
    else match answer.pullRequest
      case Unreadable => (run, NOTHING)
      case Incomplete => (run, NOTHING)
      case IsMerged => (Recorded(PullRequestSettled(run, id, at), id, MERGED, PullRequestMerged, at), ONE_EVENT)
      case IsClosed => (Recorded(PullRequestSettled(run, id, at), id, NEEDS_HUMAN, ClosedUnmerged, at), ONE_EVENT)
      case IsOpen(reading) => NewsHandled(config, run, id, reading, answer)
  }

  function RestingSweepOver(config: Config, run: Run, nodes: seq<GraphNode>,
                            answers: NodeId -> RestingAnswer): (Run, TickResponse)
  {
    if nodes == [] then (run, NOTHING)
    else
      var node := nodes[|nodes| - 1];
      var before := RestingSweepOver(config, run, nodes[..|nodes| - 1], answers);
      var after := RestingAdvance(config, before.0, node, answers(node.id));
      (after.0, before.1.IncrementWith(after.1))
  }

  /** One sweep of the nodes waiting on their pull requests, on freshly read rows. */
  function RestingSweep(config: Config, graph: Graph, run: Run, answers: NodeId -> RestingAnswer): (Run, TickResponse)
  {
    RestingSweepOver(config, run, GraphNodesIn(graph, run, RESTING), answers)
  }

  // ---------- the handler ----------

  /** Counts review wakes back from the newest session to the latest launch or human retry. */
  method CountWakesSinceStart(sessions: seq<Session>) returns (wakes: nat)
    ensures wakes == CountWakes(sessions)
  {
    wakes := 0;
    var i := |sessions|;
    assert sessions[..i] == sessions;
    while i > 0
      invariant 0 <= i <= |sessions|
      invariant CountWakes(sessions) == CountWakes(sessions[..i]) + wakes
    {
      var trigger := sessions[i - 1].triggeredBy;
      assert sessions[..i][..i - 1] == sessions[..i - 1];
      if trigger == LaunchTrigger || trigger == RetryTrigger {
        break;
      }
      if trigger == WakeTrigger {
        wakes := wakes + 1;
      }
      i := i - 1;
    }
  }

  class RestingNodeHandler {
    const store: RunStore
    const config: Config

    constructor (store: RunStore, config: Config)
      ensures this.store == store && this.config == config
    {
      this.store, this.config := store, config;
    }

    method Handle(nodes: seq<GraphNode>, answers: NodeId -> RestingAnswer) returns (response: TickResponse)
      modifies store
      ensures (store.State(), response) == RestingSweepOver(config, old(store.State()), nodes, answers)
    {
      response := NOTHING;
      for i := 0 to |nodes|
        invariant (store.State(), response) == RestingSweepOver(config, old(store.State()), nodes[..i], answers)
      {
        assert nodes[..i + 1][..i] == nodes[..i];
        var nodeResponse := Advance(nodes[i], answers(nodes[i].id));
        response := response.IncrementWith(nodeResponse);
      }
      assert nodes[..|nodes|] == nodes;
    }

    method Advance(node: GraphNode, answer: RestingAnswer) returns (response: TickResponse)
      modifies store
      ensures (store.State(), response) == RestingAdvance(config, old(store.State()), node, answer)
    {
      if node.id !in store.agents || store.agents[node.id].worktree.None? {
        store.Record(node.id, ERRORED, SessionNeverStarted, answer.wallClock);
        return ONE_EVENT;
      }
      if store.agents[node.id].worktree.value.prNumber == 0 || !HasLauncher(config, node) {
        return NOTHING;
      }
      response := Observe(node.id, answer);
    }

    method Observe(id: NodeId, answer: RestingAnswer) returns (response: TickResponse)
      requires id in store.agents && store.agents[id].worktree.Some?
      modifies store
      ensures var before, at := old(store.State()), answer.wallClock;
              (store.State(), response) ==
              match answer.pullRequest
              case Unreadable => (before, NOTHING)
              case Incomplete => (before, NOTHING)
              case IsMerged =>
                (Recorded(PullRequestSettled(before, id, at), id, MERGED, PullRequestMerged, at), ONE_EVENT)
              case IsClosed =>
                (Recorded(PullRequestSettled(before, id, at), id, NEEDS_HUMAN, ClosedUnmerged, at), ONE_EVENT)
              case IsOpen(reading) => NewsHandled(config, before, id, reading, answer)
    {
      match answer.pullRequest {
        case Unreadable =>
          return NOTHING;
        case Incomplete =>
          return NOTHING;
        case IsMerged =>
          RecordSettled(id, answer.wallClock);
          store.Record(id, MERGED, PullRequestMerged, answer.wallClock);
          return ONE_EVENT;
        case IsClosed =>
          RecordSettled(id, answer.wallClock);
          store.Record(id, NEEDS_HUMAN, ClosedUnmerged, answer.wallClock);
          return ONE_EVENT;
        case IsOpen(reading) =>
          response := HandleNews(id, reading, answer);
      }
    }

    method HandleNews(id: NodeId, reading: Reading, answer: RestingAnswer) returns (response: TickResponse)
      requires id in store.agents && store.agents[id].worktree.Some?
      modifies store
      ensures (store.State(), response) == NewsHandled(config, old(store.State()), id, reading, answer)
    {
      var worktree := store.agents[id].worktree.value;
      var changes := DetectChanges(SIGNALS, reading, worktree.marks);
      if changes == [] {
        return NOTHING;
      }
      var marked := worktree.(marks := Advanced(worktree.marks, changes));
      response := ONE_EVENT;
      if WakingChanges(changes) != [] {
        response := WakeNode(id, marked, reading.headSha, answer);
        if response.sessionsStarted == 0 {
          return;
        }
      }
      ghost var woken := store.State();
      AdvanceMarks(id, marked.marks);
      assert response.sessionsStarted > 0 ==> store.agents == woken.agents;
    }

    /** Asks each signal in turn for what is new since its mark. */
    method DetectChanges(signals: seq<Signal>, reading: Reading, marks: Marks) returns (changes: seq<SignalChange>)
      ensures changes == DetectAll(signals, config.agentAccount, reading, marks)
    {
      changes := [];
      for i := 0 to |signals|
        invariant changes + DetectAll(signals[i..], config.agentAccount, reading, marks)
                  == DetectAll(signals, config.agentAccount, reading, marks)
      {
        assert signals[i..][1..] == signals[i + 1..] && signals[i..][0] == signals[i];
        var detection := Detect(signals[i], config.agentAccount, reading, Read(marks, signals[i]));
        if detection.Change? {
          ghost var rest := DetectAll(signals[i + 1..], config.agentAccount, reading, marks);
          assert changes + ([detection.change] + rest) == (changes + [detection.change]) + rest;
          changes := changes + [detection.change];
        }
      }
    }

    method RecordSettled(id: NodeId, at: int)
      modifies store`rows
      ensures store.State() == PullRequestSettled(old(store.State()), id, at)
    {
      if id in store.rows && store.rows[id].settledAt.None? {
        store.rows := store.rows[id := store.rows[id].(settledAt := Some(at))];
      }
    }

    method AdvanceMarks(id: NodeId, marks: Marks)
      requires id in store.agents && store.agents[id].worktree.Some?
      modifies store`agents
      ensures store.State() ==
              WithWorkTree(old(store.State()), id, old(store.agents[id].worktree.value).(marks := marks))
    {
      var agent := store.agents[id];
      store.SaveAgent(id, agent.(worktree := Some(agent.worktree.value.(marks := marks))));
    }

    method WakeNode(id: NodeId, marked: WorkTree, headSha: string, answer: RestingAnswer)
      returns (response: TickResponse)
      requires id in store.agents
      modifies store
      ensures (store.State(), response) == NodeWoken(config, old(store.State()), id, marked, headSha, answer)
    {
      var agent := store.agents[id];
      var wakes := CountWakesSinceStart(agent.sessions);
      if wakes >= config.nodeWakes {
        store.Record(id, NEEDS_HUMAN, OutOfWakes, answer.wallClock);
        return ONE_EVENT;
      }
      var inProgress := store.GetIdsByState(IN_PROGRESS);
      if |inProgress| >= config.maxWorkers || answer.wake.WakeFails? {
        return NOTHING;
      }
      var session := ResumedSession(answer.wake.at, WakeTrigger, answer.wake.isFresh, agent.worktree);
      store.SaveAgent(id, AddSession(agent, session));
      store.SaveAgent(id, store.agents[id].(worktree := Some(marked.(headSha := headSha))));
      store.Record(id, IN_PROGRESS, WorkResumed, answer.wallClock);
      return ONE_SESSION;
    }
  }
}

/**
 The persisted state of one run: node rows, agents with their sessions and worktrees,
 the audit trail and the recovery verdicts, and the store every handler writes through.
 */
module Runs {
  import opened Graphs
  import opened GraphServices
  import opened Options
  import opened Signals

  datatype NodeState = PENDING | IN_PROGRESS | RESTING | NEEDS_HUMAN | MERGED | ERRORED | SKIPPED

  /** A row of the node table. */
  datatype Row = Row(
    state: NodeState,
    updatedAt: int,
    resumeAt: Option<int>,
    recoveryAttemptsAllowed: int,
    settledAt: Option<int>)

  /** The audit notes, one constructor per label. */
  datatype Note =
    | UpstreamStopped(upstream: NodeId)
    | UpstreamSkipped
    | SkippedByHuman
    | SentBackToWork
    | StoppedByPerson
    | KilledByAbort
    | UnknownExecutor
    | LaunchBlocked
    | WorkStarted
    | ConversationStartedWithoutThread
    | TakeoverStarted
    | StartsAfterCooldown(startTime: int)
    | SessionNeverStarted
    | UsageLimitWait(resetTime: int)
    | SessionOverdue
    | FinishedWithoutPullRequest
    | PullRequestOpened(number: nat)
    | SessionFinishedOnPullRequest(number: nat)
    | PullRequestMerged
    | ClosedUnmerged
    | OutOfWakes
    | WorkResumed
    | WokenByRecovery
    | RecoveryWait(recoverAt: int)
    | MarkedUnrecoverable
    | OutOfRecoveryAttempts(attempts: nat)
    | ObservingPullRequest(attempts: nat)

  datatype AuditEntry = AuditEntry(nodeId: NodeId, state: NodeState, note: Note, createdAt: int)

  datatype Trigger = LaunchTrigger | WakeTrigger | RetryTrigger | RecoveryTrigger

  datatype EndState = NoEnd | Finished | Overdue | UsageLimit | Stopped | Aborted

  /** One execution of an agent; it is open until `endedAt` is set. */
  datatype Session = Session(
    startedAt: int,
    endedAt: Option<int>,
    endState: EndState,
    triggeredBy: Trigger,
    marksBefore: Option<Marks>)

  datatype WorkTree = WorkTree(prNumber: nat, headSha: string, marks: Marks)

  /** The agent bound to a node; `sessions` are in start order. */
  datatype Agent = Agent(hasToken: bool, sessions: seq<Session>, worktree: Option<WorkTree>)

  datatype NodeRecovery = NodeRecovery(nodeId: NodeId, detectedAt: int, recoverable: bool, recoverAt: int)

  /** `order` is the order in which the store finds its rows. */
  datatype Run = Run(
    rows: map<NodeId, Row>,
    agents: map<NodeId, Agent>,
    audits: seq<AuditEntry>,
    recoveries: seq<NodeRecovery>,
    order: seq<NodeId>)

  datatype Config = Config(maxWorkers: int, nodeWakes: int, launchers: set<Executor>, agentAccount: string)

  datatype TickResponse = TickResponse(eventsApplied: nat, sessionsStarted: nat)
  {
    function IncrementWith(other: TickResponse): TickResponse
    {
      TickResponse(eventsApplied + other.eventsApplied, sessionsStarted + other.sessionsStarted)
    }
  }

  const NOTHING := TickResponse(0, 0)
  const ONE_EVENT := TickResponse(1, 0)
  const ONE_SESSION := TickResponse(1, 1)

  // ---------- reading a run ----------

  predicate IsIn(run: Run, id: NodeId, state: NodeState)
  {
    id in run.rows && run.rows[id].state == state
  }

  predicate IsStopped(run: Run, id: NodeId)
  {
    IsIn(run, id, NEEDS_HUMAN) || IsIn(run, id, ERRORED)
  }

  function IdsIn(run: Run, state: NodeState): (ids: set<NodeId>)
    ensures forall id :: id in ids <==> IsIn(run, id, state)
  {
    set id | id in run.rows && run.rows[id].state == state
  }

  function Skipped(run: Run): set<NodeId>
  {
    IdsIn(run, SKIPPED)
  }

  /** The graph's nodes in this state, in graph order, as a sweep reads them before it starts. */
  function GraphNodesIn(graph: Graph, run: Run, state: NodeState): seq<GraphNode>
  {
    NodesWithIds(graph, IdsIn(run, state))
  }

  /** These ids in the order the store finds them; ids without a row are not found. */
  function Found(order: seq<NodeId>, ids: set<NodeId>): (r: seq<NodeId>)
    ensures forall id :: id in r <==> id in order && id in ids
  {
    if order == [] then []
    else if order[0] in ids then [order[0]] + Found(order[1..], ids)
    else Found(order[1..], ids)
  }

  /** The store lists exactly the nodes it has a row for, and holds one for every graph node. */
  ghost predicate Stored(graph: Graph, run: Run)
  {
    && (forall id :: id in run.order <==> id in run.rows)
    && Ids(graph) <= run.rows.Keys
  }

  /** What the node waits for in this run. */
  ghost function WaitsFor(graph: Graph, run: Run, id: NodeId): set<NodeId>
  {
    EffectiveIds(graph, Skipped(run), id)
  }

  function LatestNote(audits: seq<AuditEntry>, id: NodeId): Option<Note>
  {
    if audits == [] then None
    else if audits[|audits| - 1].nodeId == id then Some(audits[|audits| - 1].note)
    else LatestNote(audits[..|audits| - 1], id)
  }

  function LatestSession(agent: Agent): Option<Session>
  {
    if agent.sessions == [] then None else Some(agent.sessions[|agent.sessions| - 1])
  }

  function AgentSession(run: Run, id: NodeId): Option<Session>
  {
    if id in run.agents then LatestSession(run.agents[id]) else None
  }

  // ---------- writing a run ----------

  function SetState(run: Run, id: NodeId, state: NodeState, at: int, resumeAt: Option<int>): Run
  {
    if id in run.rows
    then run.(rows := run.rows[id := run.rows[id].(state := state, updatedAt := at, resumeAt := resumeAt)])
    else run
  }

  function Audited(run: Run, id: NodeId, state: NodeState, note: Note, at: int): Run
  {
    run.(audits := run.audits + [AuditEntry(id, state, note, at)])
  }

  /** Moves a node to a new state everywhere the run is recorded. */
  function Recorded(run: Run, id: NodeId, state: NodeState, note: Note, at: int): Run
  {
    Audited(SetState(run, id, state, at, None), id, state, note, at)
  }

  /** Records a pending wait until the resume time. */
  function Waiting(run: Run, id: NodeId, resumeAt: int, note: Note, at: int): Run
  {
    Audited(SetState(run, id, PENDING, at, Some(resumeAt)), id, PENDING, note, at)
  }

  function WithAgent(run: Run, id: NodeId, agent: Agent): Run
  {
    run.(agents := run.agents[id := agent])
  }

  function Close(session: Session, at: int, endState: EndState): Session
  {
    session.(endedAt := Some(at), endState := endState)
  }

  /** Closes the latest session of an agent that has one. */
  function CloseLatest(agent: Agent, at: int, endState: EndState): Agent
  {
    if agent.sessions == [] then agent
    else
      var last := |agent.sessions| - 1;
      agent.(sessions := agent.sessions[last := Close(agent.sessions[last], at, endState)])
  }

  function AddSession(agent: Agent, session: Session): Agent
  {
    agent.(sessions := agent.sessions + [session])
  }

  function MarksOf(worktree: Option<WorkTree>): Option<Marks>
  {
    match worktree case None => None case Some(w) => Some(w.marks)
  }

  /** The session of an agent that starts a new conversation. */
  function LaunchedSession(at: int): Session
  {
    Session(at, None, NoEnd, LaunchTrigger, None)
  }

  /** The session of an agent that resumes; `isFresh` when its conversation was gone and a new one began. */
  function ResumedSession(at: int, trigger: Trigger, isFresh: bool, worktree: Option<WorkTree>): Session
  {
    if isFresh then LaunchedSession(at) else Session(at, None, NoEnd, trigger, MarksOf(worktree))
  }

  function RecordedAgent(run: Run, id: NodeId): Option<Agent>
  {
    if id in run.agents then Some(run.agents[id]) else None
  }

  predicate HasLauncher(config: Config, node: GraphNode)
  {
    node.executor.Some? && node.executor.value in config.launchers
  }

  /** The run's tables, updated one statement at a time. */
  class RunStore {
    var rows: map<NodeId, Row>
    var agents: map<NodeId, Agent>
    var audits: seq<AuditEntry>
    var recoveries: seq<NodeRecovery>
    const order: seq<NodeId>

    ghost function State(): Run
      reads this
    {
      Run(rows, agents, audits, recoveries, order)
    }

    constructor (rows: map<NodeId, Row>, order: seq<NodeId>)
      ensures State() == Run(rows, map[], [], [], order)
    {
      this.rows, this.agents, this.audits, this.recoveries, this.order := rows, map[], [], [], order;
    }

    method GetIdsByState(state: NodeState) returns (ids: set<NodeId>)
      ensures ids == IdsIn(State(), state)
    {
      ids := set id | id in rows && rows[id].state == state;
    }

    /** The rows with these ids, in the order the store finds them. */
    method GetIdsByIds(graphNodes: seq<GraphNode>) returns (ids: seq<NodeId>)
      ensures ids == Found(order, Ids(graphNodes))
    {
      ids := Found(order, Ids(graphNodes));
    }

    method UpdateState(id: NodeId, state: NodeState, at: int, resumeAt: Option<int>)
      modifies this`rows
      ensures State() == SetState(old(State()), id, state, at, resumeAt)
    {
      if id in rows {
        rows := rows[id := rows[id].(state := state, updatedAt := at, resumeAt := resumeAt)];
      }
    }

    method SaveAudit(id: NodeId, state: NodeState, note: Note, at: int)
      modifies this`audits
      ensures State() == Audited(old(State()), id, state, note, at)
    {
      audits := audits + [AuditEntry(id, state, note, at)];
    }

    method SaveAgent(id: NodeId, agent: Agent)
      modifies this`agents
      ensures State() == WithAgent(old(State()), id, agent)
    {
      agents := agents[id := agent];
    }

    /** Moves a node to a new state everywhere the run is recorded and read. */
    method Record(id: NodeId, state: NodeState, note: Note, at: int)
      modifies this`rows, this`audits
      ensures State() == Recorded(old(State()), id, state, note, at)
    {
      UpdateState(id, state, at, None);
      SaveAudit(id, state, note, at);
    }

    /** Records a pending wait until the node's resume time. */
    method Wait(id: NodeId, resumeAt: int, note: Note, at: int)
      modifies this`rows, this`audits
      ensures State() == Waiting(old(State()), id, resumeAt, note, at)
    {
      UpdateState(id, PENDING, at, Some(resumeAt));
      SaveAudit(id, PENDING, note, at);
    }
  }
}

/**
 One control pass: the three sweeps in order, each on freshly read rows; what a whole pass keeps,
 when a run has ended, and why a run that has not ended cannot be stuck.
 */
module ControlPasses {
  import opened Graphs
  import opened GraphServices
  import opened Options
  import opened Runs
  import opened PendingNodes
  import opened InProgressNodes
  import opened RestingNodes
  import opened RunInvariants
  import opened StartSafety
  import opened RunHistories
  import opened StopPropagation

  // ---------- the facade ----------

  class NodeStateHandlingFacade {
    const store: RunStore
    const config: Config
    const inProgressHandler: InProgressNodeHandler
    const restingHandler: RestingNodeHandler
    const pendingHandler: PendingNodeHandler

    ghost predicate Valid()
    {
      && inProgressHandler.store == store && inProgressHandler.config == config
      && restingHandler.store == store && restingHandler.config == config
      && pendingHandler.store == store && pendingHandler.config == config
    }

    constructor (store: RunStore, config: Config, inProgressHandler: InProgressNodeHandler,
                 restingHandler: RestingNodeHandler, pendingHandler: PendingNodeHandler)
      requires inProgressHandler.store == store && inProgressHandler.config == config
      requires restingHandler.store == store && restingHandler.config == config
      requires pendingHandler.store == store && pendingHandler.config == config
      ensures Valid() && this.store == store && this.config == config
    {
      this.store, this.config := store, config;
      this.inProgressHandler, this.restingHandler, this.pendingHandler :=
        inProgressHandler, restingHandler, pendingHandler;
    }

    /** Sweeps the nodes whose agents are working. */
    method HandleInProgressNodes(graph: Graph, answers: NodeId -> SettleAnswer) returns (response: TickResponse)
      requires Valid()
      modifies store
      ensures (store.State(), response) == InProgressSweep(config, graph, old(store.State()), answers)
    {
      var ids := store.GetIdsByState(IN_PROGRESS);
      response := inProgressHandler.Handle(NodesWithIds(graph, ids), answers);
    }

    /** Sweeps the nodes waiting on their pull requests. */
    method HandleRestingNodes(graph: Graph, answers: NodeId -> RestingAnswer) returns (response: TickResponse)
      requires Valid()
      modifies store
      ensures (store.State(), response) == RestingSweep(config, graph, old(store.State()), answers)
    {
      var ids := store.GetIdsByState(RESTING);
      response := restingHandler.Handle(NodesWithIds(graph, ids), answers);
    }

    /** Sweeps the nodes waiting to start. */
    method HandlePendingNodes(graph: Graph, now: int, answers: NodeId -> PendingAnswer) returns (response: TickResponse)
      requires Valid()
      modifies store
      ensures (store.State(), response) == PendingSweep(config, graph, old(store.State()), now, answers)
    {
      var ids := store.GetIdsByState(PENDING);
      response := pendingHandler.Handle(graph, NodesWithIds(graph, ids), now, answers);
    }

    method AddRestingNodes(graph: Graph, answers: NodeId -> RestingAnswer, soFar: TickResponse)
      returns (response: TickResponse)
      requires Valid()
      modifies store
      ensures (store.State(), response) == ThenRested(config, graph, (old(store.State()), soFar), answers)
    {
      var restingResponse := HandleRestingNodes(graph, answers);
      response := soFar.IncrementWith(restingResponse);
    }

    method AddPendingNodes(graph: Graph, now: int, answers: NodeId -> PendingAnswer, soFar: TickResponse)
      returns (response: TickResponse)
      requires Valid()
      modifies store
      ensures (store.State(), response) == ThenStarted(config, graph, (old(store.State()), soFar), now, answers)
    {
      var pendingResponse := HandlePendingNodes(graph, now, answers);
      response := soFar.IncrementWith(pendingResponse);
    }

    /** One control pass. */
    method Tick(graph: Graph, now: int, answers: TickAnswers) returns (response: TickResponse)
      requires Valid()
      modifies store
      ensures (store.State(), response) == TickApplied(config, graph, old(store.State()), now, answers)
    {
      response := HandleInProgressNodes(graph, answers.settle);
      response := AddRestingNodes(graph, answers.resting, response);
      response := AddPendingNodes(graph, now, answers.pending, response);
    }
  }

  // ---------- a whole pass ----------

  /** What the outside answers during one pass. */
  datatype TickAnswers = TickAnswers(
    settle: NodeId -> SettleAnswer,
    resting: NodeId -> RestingAnswer,
    pending: NodeId -> PendingAnswer)

  /** A resting sweep after what the pass did so far. */
  ghost function ThenRested(config: Config, graph: Graph, before: (Run, TickResponse),
                            answers: NodeId -> RestingAnswer): (Run, TickResponse)
  {
    var rested := RestingSweep(config, graph, before.0, answers);
    (rested.0, before.1.IncrementWith(rested.1))
  }

  /** A pending sweep after what the pass did so far. */
  ghost function ThenStarted(config: Config, graph: Graph, before: (Run, TickResponse), now: int,
                             answers: NodeId -> PendingAnswer): (Run, TickResponse)
  {
    var started := PendingSweep(config, graph, before.0, now, answers);
    (started.0, before.1.IncrementWith(started.1))
  }

  ghost function TickApplied(config: Config, graph: Graph, run: Run, now: int, answers: TickAnswers)
    : (Run, TickResponse)
  {
    ThenStarted(config, graph,
                ThenRested(config, graph, InProgressSweep(config, graph, run, answers.settle), answers.resting),
                now, answers.pending)
  }

  /** A pass is three events of a history, so what histories keep holds from pass to pass. */
  lemma TickIsThreeEvents(config: Config, graph: Graph, run: Run, now: int, answers: TickAnswers)
    ensures var settled := Apply(config, graph, run, InProgressPass(answers.settle));
            var rested := Apply(config, graph, settled, RestingPass(answers.resting));
            TickApplied(config, graph, run, now, answers).0 ==
            Apply(config, graph, rested, PendingPass(now, answers.pending))
  {
  }

  lemma InProgressStepStartsNothing(config: Config, run: Run, node: GraphNode, answer: SettleAnswer)
    ensures var after := InProgressAdvance(config, run, node, answer);
            after.1.sessionsStarted == 0 && IdsIn(after.0, IN_PROGRESS) <= IdsIn(run, IN_PROGRESS)
  {
    if HasSession(run, node.id) {
      SettlingOneStartsNothing(run, node.id, answer);
      SettlingOneStartsNothing(SessionClosed(run, node.id, IsOverdue, None, answer.wallClock), node.id, answer);
    }
  }

  lemma SettlingOneStartsNothing(run: Run, id: NodeId, answer: SettleAnswer)
    requires HasSession(run, id)
    ensures Settled(run, id, answer).1.sessionsStarted == 0
    ensures IdsIn(Settled(run, id, answer).0, IN_PROGRESS) <= IdsIn(run, IN_PROGRESS)
  {
  }

  lemma {:induction false} InProgressSweepStartsNothing(config: Config, run: Run, nodes: seq<GraphNode>,
                                                        answers: NodeId -> SettleAnswer)
    ensures var after := InProgressSweepOver(config, run, nodes, answers);
            after.1.sessionsStarted == 0 && IdsIn(after.0, IN_PROGRESS) <= IdsIn(run, IN_PROGRESS)
    decreases |nodes|
  {
    if nodes != [] {
      var node, front := nodes[|nodes| - 1], nodes[..|nodes| - 1];
      InProgressSweepStartsNothing(config, run, front, answers);
      InProgressStepStartsNothing(config, InProgressSweepOver(config, run, front, answers).0, node, answers(node.id));
    }
  }

  lemma SubsetIsSmaller<T>(small: set<T>, large: set<T>)
    requires small <= large
    ensures |small| <= |large|
  {
    assert large == small + (large - small);
    assert |large| == |small| + |large - small|;
  }

  /**
   A whole pass never exceeds the worker cap, unless the run already did, and its response counts
   exactly the nodes it put to work: those at work after it that were not once the settled ones had left.
   */
  lemma TickKeepsCap(config: Config, graph: Graph, run: Run, starts: set<Start>, now: int, answers: TickAnswers)
    requires UniqueIds(graph) && RunSound(graph, run, starts)
    ensures var settled := InProgressSweep(config, graph, run, answers.settle).0;
            var after := TickApplied(config, graph, run, now, answers);
            && IdsIn(settled, IN_PROGRESS) <= IdsIn(run, IN_PROGRESS)
            && CapKept(config, settled, after)
            && (|IdsIn(after.0, IN_PROGRESS)| <= |IdsIn(run, IN_PROGRESS)|
                || |IdsIn(after.0, IN_PROGRESS)| <= config.maxWorkers)
  {
    SettlingStartsNothing(config, graph, run, starts, answers);
    var settled := InProgressSweep(config, graph, run, answers.settle);
    StartingSweepsKeepCap(config, graph, settled.0, starts, now, answers);
    var rested := RestingSweep(config, graph, settled.0, answers.resting);
    var started := PendingSweep(config, graph, rested.0, now, answers.pending);
    CapAfterSettling(config, run, settled, rested, started);
  }

  lemma CapAfterSettling(config: Config, run: Run, settled: (Run, TickResponse), rested: (Run, TickResponse),
                         started: (Run, TickResponse))
    requires |IdsIn(settled.0, IN_PROGRESS)| <= |IdsIn(run, IN_PROGRESS)| && settled.1.sessionsStarted == 0
    requires CapKept(config, settled.0, (started.0, rested.1.IncrementWith(started.1)))
    ensures CapKept(config, settled.0, (started.0, settled.1.IncrementWith(rested.1).IncrementWith(started.1)))
    ensures |IdsIn(started.0, IN_PROGRESS)| <= |IdsIn(run, IN_PROGRESS)|
            || |IdsIn(started.0, IN_PROGRESS)| <= config.maxWorkers
  {
  }

  lemma SettlingStartsNothing(config: Config, graph: Graph, run: Run, starts: set<Start>, answers: TickAnswers)
    requires UniqueIds(graph) && RunSound(graph, run, starts)
    ensures var settled := InProgressSweep(config, graph, run, answers.settle);
            && IdsIn(settled.0, IN_PROGRESS) <= IdsIn(run, IN_PROGRESS)
            && |IdsIn(settled.0, IN_PROGRESS)| <= |IdsIn(run, IN_PROGRESS)|
            && settled.1.sessionsStarted == 0 && RunSound(graph, settled.0, starts)
  {
    InProgressSweepStartsNothing(config, run, GraphNodesIn(graph, run, IN_PROGRESS), answers.settle);
    SubsetIsSmaller(IdsIn(InProgressSweep(config, graph, run, answers.settle).0, IN_PROGRESS), IdsIn(run, IN_PROGRESS));
    OtherPassKeepsRunSound(config, graph, run, starts, InProgressPass(answers.settle));
  }

  lemma OtherPassKeepsRunSound(config: Config, graph: Graph, run: Run, starts: set<Start>, event: Event)
    requires UniqueIds(graph) && RunSound(graph, run, starts) && (event.InProgressPass? || event.RestingPass?)
    ensures RunSound(graph, Apply(config, graph, run, event), starts)
    ensures Forward(run, Apply(config, graph, run, event))
  {
    EventKeepsRunSound(config, graph, run, starts, event);
    assert starts + StartsOf(graph, run, Apply(config, graph, run, event), event) == starts;
  }

  /** The starts of a whole pass: those of its pending sweep. */
  ghost function TickStarts(config: Config, graph: Graph, run: Run, now: int, answers: TickAnswers): set<Start>
  {
    var rested := ThenRested(config, graph, InProgressSweep(config, graph, run, answers.settle), answers.resting).0;
    StartsOf(graph, rested, TickApplied(config, graph, run, now, answers).0, PendingPass(now, answers.pending))
  }

  lemma ForwardTwice(run: Run, halfway: Run, after: Run)
    requires Forward(run, halfway) && Forward(halfway, after)
    ensures Forward(run, after)
  {
  }

  lemma PendingPassStarts(config: Config, graph: Graph, rested: Run, after: Run, starts: set<Start>,
                          started: set<Start>, event: Event)
    requires UniqueIds(graph) && RunSound(graph, rested, starts) && event.PendingPass?
    requires after == Apply(config, graph, rested, event) && started == StartsOf(graph, rested, after, event)
    ensures RunSound(graph, after, starts + started) && Forward(rested, after)
    ensures forall s :: s in started ==> s.1 == event.now
  {
    EventKeepsRunSound(config, graph, rested, starts, event);
  }

  /** A whole pass keeps a run sound, the nodes it starts being cleared at its own time. */
  lemma TickKeepsRunSound(config: Config, graph: Graph, run: Run, starts: set<Start>, now: int, answers: TickAnswers)
    requires UniqueIds(graph) && RunSound(graph, run, starts)
    ensures var after, started := TickApplied(config, graph, run, now, answers).0,
                                  TickStarts(config, graph, run, now, answers);
            && RunSound(graph, after, starts + started) && Forward(run, after)
            && forall s :: s in started ==> s.1 == now
  {
    var settled := InProgressSweep(config, graph, run, answers.settle).0;
    var rested := RestingSweep(config, graph, settled, answers.resting).0;
    var after := TickApplied(config, graph, run, now, answers).0;
    TickIsThreeEvents(config, graph, run, now, answers);
    OtherPassKeepsRunSound(config, graph, run, starts, InProgressPass(answers.settle));
    OtherPassKeepsRunSound(config, graph, settled, starts, RestingPass(answers.resting));
    PendingPassStarts(config, graph, rested, after, starts, TickStarts(config, graph, run, now, answers),
                      PendingPass(now, answers.pending));
    ForwardTwice(run, settled, rested);
    ForwardTwice(run, rested, after);
  }

  lemma StartingSweepsKeepCap(config: Config, graph: Graph, settled: Run, starts: set<Start>, now: int,
                              answers: TickAnswers)
    requires UniqueIds(graph) && RunSound(graph, settled, starts)
    ensures var rested := RestingSweep(config, graph, settled, answers.resting);
            var started := PendingSweep(config, graph, rested.0, now, answers.pending);
            CapKept(config, settled, (started.0, rested.1.IncrementWith(started.1)))
  {
    var rested := RestingSweep(config, graph, settled, answers.resting);
    SweepListIsSwept(graph, settled, RESTING);
    RestingSweepKeepsCap(config, settled, GraphNodesIn(graph, settled, RESTING), answers.resting);
    OtherPassKeepsRunSound(config, graph, settled, starts, RestingPass(answers.resting));
    SweepListIsSwept(graph, rested.0, PENDING);
    PendingSweepKeepsCap(config, graph, rested.0, GraphNodesIn(graph, rested.0, PENDING), now, answers.pending);
    CapsCompose(config, settled, rested, PendingSweep(config, graph, rested.0, now, answers.pending));
  }

  lemma CapsCompose(config: Config, run: Run, middle: (Run, TickResponse), after: (Run, TickResponse))
    requires CapKept(config, run, middle) && CapKept(config, middle.0, after)
    ensures CapKept(config, run, (after.0, middle.1.IncrementWith(after.1)))
  {
    var start, halfway, end := IdsIn(run, IN_PROGRESS), IdsIn(middle.0, IN_PROGRESS), IdsIn(after.0, IN_PROGRESS);
    assert end - start == (end - halfway) + (halfway - start);
  }

  // ---------- the end of a run ----------

  datatype RunStatus = ActiveRun | CompleteRun | ErroredRun

  /** The state of a node; a node without a row counts as pending. */
  function StateOf(run: Run, id: NodeId): NodeState
  {
    if id in run.rows then run.rows[id].state else PENDING
  }

  function StatesOf(graph: Graph, run: Run): set<NodeState>
  {
    set n | n in graph :: StateOf(run, n.id)
  }

  function GetRunStatus(graph: Graph, run: Run): RunStatus
  {
    var states := StatesOf(graph, run);
    if states <= {MERGED, SKIPPED} then CompleteRun
    else if states <= {NEEDS_HUMAN, ERRORED, SKIPPED} then ErroredRun
    else ActiveRun
  }

  lemma {:induction false} NoNodesToSweep(nodes: Graph, ids: set<NodeId>)
    requires forall n :: n in nodes ==> n.id !in ids
    ensures NodesWithIds(nodes, ids) == []
  {
    if nodes != [] {
      assert nodes[0] in nodes;
      NoNodesToSweep(nodes[1..], ids);
    }
  }

  /** No node of the graph waits to start, works or rests. */
  ghost predicate NothingToSweep(graph: Graph, run: Run)
  {
    forall n :: n in graph ==>
      StateOf(run, n.id) != PENDING && StateOf(run, n.id) != IN_PROGRESS && StateOf(run, n.id) != RESTING
  }

  lemma EndedMeansNothingToSweep(graph: Graph, run: Run)
    requires GetRunStatus(graph, run) != ActiveRun
    ensures NothingToSweep(graph, run)
  {
    forall n | n in graph
      ensures StateOf(run, n.id) != PENDING && StateOf(run, n.id) != IN_PROGRESS && StateOf(run, n.id) != RESTING
    {
      assert StateOf(run, n.id) in StatesOf(graph, run);
    }
  }

  lemma EmptySettle(config: Config, graph: Graph, run: Run, answers: NodeId -> SettleAnswer)
    requires GraphNodesIn(graph, run, IN_PROGRESS) == []
    ensures InProgressSweep(config, graph, run, answers) == (run, NOTHING)
  {
  }

  lemma EmptyRest(config: Config, graph: Graph, run: Run, answers: NodeId -> RestingAnswer)
    requires GraphNodesIn(graph, run, RESTING) == []
    ensures ThenRested(config, graph, (run, NOTHING), answers) == (run, NOTHING)
  {
  }

  lemma EmptyStart(config: Config, graph: Graph, run: Run, now: int, answers: NodeId -> PendingAnswer)
    requires GraphNodesIn(graph, run, PENDING) == []
    ensures ThenStarted(config, graph, (run, NOTHING), now, answers) == (run, NOTHING)
  {
  }

  lemma EmptyStages(config: Config, graph: Graph, run: Run, now: int, answers: TickAnswers)
    requires InProgressSweep(config, graph, run, answers.settle) == (run, NOTHING)
    requires ThenRested(config, graph, (run, NOTHING), answers.resting) == (run, NOTHING)
    requires ThenStarted(config, graph, (run, NOTHING), now, answers.pending) == (run, NOTHING)
    ensures TickApplied(config, graph, run, now, answers) == (run, NOTHING)
  {
  }

  lemma NothingListed(graph: Graph, run: Run)
    requires NothingToSweep(graph, run)
    ensures GraphNodesIn(graph, run, IN_PROGRESS) == []
    ensures GraphNodesIn(graph, run, RESTING) == []
    ensures GraphNodesIn(graph, run, PENDING) == []
  {
    NoNodesToSweep(graph, IdsIn(run, IN_PROGRESS));
    NoNodesToSweep(graph, IdsIn(run, RESTING));
    NoNodesToSweep(graph, IdsIn(run, PENDING));
  }

  lemma EmptyPass(config: Config, graph: Graph, run: Run, now: int, answers: TickAnswers)
    requires GraphNodesIn(graph, run, IN_PROGRESS) == []
    requires GraphNodesIn(graph, run, RESTING) == []
    requires GraphNodesIn(graph, run, PENDING) == []
    ensures TickApplied(config, graph, run, now, answers) == (run, NOTHING)
  {
    EmptySettle(config, graph, run, answers.settle);
    EmptyRest(config, graph, run, answers.resting);
    EmptyStart(config, graph, run, now, answers.pending);
    EmptyStages(config, graph, run, now, answers);
  }

  lemma EmptySweeps(config: Config, graph: Graph, run: Run, now: int, answers: TickAnswers)
    requires NothingToSweep(graph, run)
    ensures TickApplied(config, graph, run, now, answers) == (run, NOTHING)
  {
    NothingListed(graph, run);
    EmptyPass(config, graph, run, now, answers);
  }

  /** A run that has ended stays ended: whatever the outside answers, a pass changes nothing and starts nothing. */
  lemma EndedRunIsLeftAlone(config: Config, graph: Graph, run: Run, now: int, answers: TickAnswers)
    requires GetRunStatus(graph, run) != ActiveRun
    ensures TickApplied(config, graph, run, now, answers) == (run, NOTHING)
  {
    EndedMeansNothingToSweep(graph, run);
    EmptySweeps(config, graph, run, now, answers);
  }

  /** Some node of the graph is merged while another needs a human or erred. */
  ghost predicate IsMixed(graph: Graph, run: Run)
  {
    && (exists n :: n in graph && IsIn(run, n.id, MERGED))
    && (exists n :: n in graph && IsStopped(run, n.id))
  }

  lemma StateAmongStates(graph: Graph, run: Run, state: NodeState)
    ensures state in StatesOf(graph, run) <==> exists n :: n in graph && StateOf(run, n.id) == state
  {
  }

  /**
   When a run ends: nothing of it waits, works or rests, and it is not the mix of merged and stopped
   nodes that counts as active although every node has settled.
   */
  lemma RunEndsIff(graph: Graph, run: Run)
    ensures GetRunStatus(graph, run) != ActiveRun <==> NothingToSweep(graph, run) && !IsMixed(graph, run)
  {
    var states := StatesOf(graph, run);
    if GetRunStatus(graph, run) != ActiveRun {
      EndedMeansNothingToSweep(graph, run);
      forall n | n in graph ensures StateOf(run, n.id) in states {
      }
    } else if NothingToSweep(graph, run) {
      forall s | s in states ensures s != PENDING && s != IN_PROGRESS && s != RESTING {
        StateAmongStates(graph, run, s);
      }
      var m :| m in states && m !in {NEEDS_HUMAN, ERRORED, SKIPPED};
      var e :| e in states && e !in {MERGED, SKIPPED};
      StateAmongStates(graph, run, m);
      StateAmongStates(graph, run, e);
      var n :| n in graph && StateOf(run, n.id) == e;
      assert IsStopped(run, n.id);
    }
  }

  /** The passes one after the other. */
  ghost function TicksApplied(config: Config, graph: Graph, run: Run, ticks: seq<Tick>): Run
  {
    if ticks == [] then run
    else
      var last := ticks[|ticks| - 1];
      TickApplied(config, graph, TicksApplied(config, graph, run, ticks[..|ticks| - 1]), last.now, last.answers).0
  }

  datatype Tick = Tick(now: int, answers: TickAnswers)

  /** A run of merged and stopped nodes and nothing else never ends: no pass changes it, and it stays active. */
  lemma {:induction false} MixedRunNeverEnds(config: Config, graph: Graph, run: Run, ticks: seq<Tick>)
    requires NothingToSweep(graph, run) && IsMixed(graph, run)
    ensures TicksApplied(config, graph, run, ticks) == run && GetRunStatus(graph, run) == ActiveRun
    decreases |ticks|
  {
    RunEndsIff(graph, run);
    if ticks != [] {
      var last := ticks[|ticks| - 1];
      MixedRunNeverEnds(config, graph, run, ticks[..|ticks| - 1]);
      EmptySweeps(config, graph, run, last.now, last.answers);
    }
  }

  // ---------- no deadlock ----------

  /** Some pending node of the graph waits for no other pending node. */
  lemma SomePendingWaitsForNonePending(graph: Graph, run: Run) returns (node: GraphNode)
    requires Acyclic(EdgesOf(graph)) && exists n :: n in graph && IsIn(run, n.id, PENDING)
    ensures node in graph && IsIn(run, node.id, PENDING)
    ensures forall d :: d in WaitsFor(graph, run, node.id) ==> !IsIn(run, d, PENDING) && !IsIn(run, d, SKIPPED)
  {
    var among := set n | n in graph && IsIn(run, n.id, PENDING) :: n.id;
    ContractionKeepsAcyclicity(EdgesOf(graph), Skipped(run));
    var n :| n in graph && IsIn(run, n.id, PENDING);
    assert n.id in among;
    var sink := SomeSink(WaitEdges(graph, run), among);
    node :| node in graph && node.id == sink;
    EffectiveIdsAreDeclared(graph, Skipped(run), sink);
    forall d | d in WaitsFor(graph, run, sink) ensures !IsIn(run, d, PENDING) {
      WaitEdge(graph, run, sink, d);
      assert d in Ids(graph);
    }
  }

  /**
   No deadlock: as long as a node is pending, some pending node waits only for merged nodes, or
   waits for one that stopped and is stopped next, or waits for work under way.
   */
  lemma NoDeadlock(graph: Graph, run: Run) returns (node: GraphNode)
    requires Acyclic(EdgesOf(graph)) && Stored(graph, run)
    requires exists n :: n in graph && IsIn(run, n.id, PENDING)
    ensures node in graph && IsIn(run, node.id, PENDING)
    ensures || DependenciesMerged(graph, run, node.id)
            || WaitsForStopped(graph, run, node.id)
            || exists d :: d in WaitsFor(graph, run, node.id) && (IsIn(run, d, IN_PROGRESS) || IsIn(run, d, RESTING))
  {
    node := SomePendingWaitsForNonePending(graph, run);
    EffectiveIdsAreDeclared(graph, Skipped(run), node.id);
    forall d | d in WaitsFor(graph, run, node.id)
      ensures IsIn(run, d, MERGED) || IsStopped(run, d) || IsIn(run, d, IN_PROGRESS) || IsIn(run, d, RESTING)
    {
      assert d in run.rows;
    }
  }

  /**
   With every node pending, merged or skipped, the next pass admits some pending node: with a free worker
   and its wait over, it starts.
   */
  lemma SomePendingIsAdmitted(config: Config, graph: Graph, run: Run, now: int, answers: NodeId -> PendingAnswer)
    returns (node: GraphNode)
    requires Acyclic(EdgesOf(graph)) && Stored(graph, run)
    requires forall id :: id in run.rows ==> IsIn(run, id, PENDING) || IsIn(run, id, MERGED) || IsIn(run, id, SKIPPED)
    requires exists n :: n in graph && IsIn(run, n.id, PENDING)
    ensures node in graph && IsIn(run, node.id, PENDING) && DependenciesMerged(graph, run, node.id)
    ensures IsIn(PendingAdvance(config, graph, run, node, now, answers(node.id)).0, node.id, IN_PROGRESS) <==>
            && WaitIsOver(graph, run, node, now) && config.maxWorkers > 0
            && HasLauncher(config, node) && answers(node.id).launch.Started?
  {
    node := SomePendingWaitsForNonePending(graph, run);
    OnlyMergedLeft(graph, run, node.id);
    StartsWithNobodyWorking(config, graph, run, node, now, answers(node.id));
  }

  lemma OnlyMergedLeft(graph: Graph, run: Run, id: NodeId)
    requires Ids(graph) <= run.rows.Keys
    requires forall d :: d in run.rows ==> IsIn(run, d, PENDING) || IsIn(run, d, MERGED) || IsIn(run, d, SKIPPED)
    requires forall d :: d in WaitsFor(graph, run, id) ==> !IsIn(run, d, PENDING) && !IsIn(run, d, SKIPPED)
    ensures DependenciesMerged(graph, run, id)
  {
    EffectiveIdsAreDeclared(graph, Skipped(run), id);
  }

  lemma StartsWithNobodyWorking(config: Config, graph: Graph, run: Run, node: GraphNode, now: int,
                                answer: PendingAnswer)
    requires Stored(graph, run) && IsIn(run, node.id, PENDING) && DependenciesMerged(graph, run, node.id)
    requires forall id :: id in run.rows ==> run.rows[id].state != IN_PROGRESS
    ensures IsIn(PendingAdvance(config, graph, run, node, now, answer).0, node.id, IN_PROGRESS) <==>
            && WaitIsOver(graph, run, node, now) && config.maxWorkers > 0
            && HasLauncher(config, node) && answer.launch.Started?
  {
    assert IdsIn(run, IN_PROGRESS) == {};
    PendingNodeStartsIff(config, graph, run, node, now, answer);
  }
}

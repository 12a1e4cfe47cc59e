/**
 Runs showing that the conditions of the run theorems exclude something real: each first in general, then
 at one run.
 */
module Counterexamples {
  import opened Graphs
  import opened GraphServices
  import opened Options
  import opened Runs
  import opened NodeOperators
  import opened NodeRecoveries
  import opened ControlPasses
  import opened RunInvariants
  import opened StartSafety
  import opened RunHistories
  import opened StopPropagation
  import opened SkipUndoing

  const UPSTREAM := NodeId("upstream")
  const DEPENDENT := NodeId("dependent")

  /** Two nodes, the second depending on the first. */
  const CHAIN: Graph := [
    GraphNode(UPSTREAM, [], 0, Some(Claude), false, 3),
    GraphNode(DEPENDENT, [UPSTREAM], 0, Some(Claude), false, 3)]

  function RowIn(state: NodeState): Row
  {
    Row(state, 0, None, 3, None)
  }

  function ChainRun(upstream: NodeState, dependent: NodeState, agents: map<NodeId, Agent>): Run
  {
    Run(map[UPSTREAM := RowIn(upstream), DEPENDENT := RowIn(dependent)], agents, [], [], [UPSTREAM, DEPENDENT])
  }

  const IDLE := Agent(true, [Session(0, Some(1), Finished, LaunchTrigger, None)], Some(WorkTree(7, "", map[])))

  /** A graph of two nodes of which one depends on the other. */
  ghost predicate IsChain(graph: Graph, upstream: NodeId, dependent: NodeId)
  {
    && upstream != dependent && UniqueIds(graph)
    && Ids(graph) == {upstream, dependent} && EdgesOf(graph) == {(dependent, upstream)}
  }

  lemma ChainIsChain()
    ensures IsChain(CHAIN, UPSTREAM, DEPENDENT)
  {
    assert CHAIN[0] in CHAIN && CHAIN[1] in CHAIN;
    assert Lookup(CHAIN[..1], UPSTREAM) == Some(CHAIN[0]);
    assert GetDependencies(CHAIN, UPSTREAM) == [];
    var declared := CHAIN[1].dependsOn;
    assert declared == [UPSTREAM] && declared[1..] == [];
    assert UPSTREAM in Ids(CHAIN);
    assert Known(CHAIN, declared) == [UPSTREAM];
    forall e ensures e in EdgesOf(CHAIN) <==> e == (DEPENDENT, UPSTREAM) {
    }
  }

  lemma ChainWaits(graph: Graph, run: Run, upstream: NodeId, dependent: NodeId)
    requires IsChain(graph, upstream, dependent) && !IsIn(run, upstream, SKIPPED) && !IsIn(run, dependent, SKIPPED)
    ensures WaitsFor(graph, run, dependent) == {upstream} && WaitsFor(graph, run, upstream) == {}
  {
    var edges, skipped := EdgesOf(graph), Skipped(run);
    NothingSkipped(edges, dependent);
    NothingSkipped(edges, upstream);
    assert EffectiveSet(edges, {}, dependent) == {upstream} by {
      assert (dependent, upstream).0 == dependent && (dependent, upstream).1 == upstream;
    }
    assert {} + skipped == skipped;
    SkipManyUnrelated(edges, {}, skipped, dependent);
    SkipManyUnrelated(edges, {}, skipped, upstream);
  }

  /**
   A stopped node with an agent is not brought back by skipping what stopped it: had the skip come
   before the pass, the node would still be pending.
   */
  lemma AgentKeepsNodeStopped(config: Config, graph: Graph, run: Run, upstream: NodeId, dependent: NodeId,
                              pass: Pass, now: int)
    requires IsChain(graph, upstream, dependent) && Stored(graph, run) && IsQuiet(config, graph, run, pass.answers)
    requires IsStopped(run, upstream) && IsIn(run, dependent, PENDING) && dependent in run.agents
    ensures IsIn(SkipNode(graph, run, upstream, now).0, dependent, PENDING)
    ensures IsIn(SkipNode(graph, RunPasses(config, graph, run, [pass]), upstream, now).0, dependent, NEEDS_HUMAN)
  {
    ChainWaits(graph, run, upstream, dependent);
    assert WaitsForStopped(graph, run, dependent);
    DirectlyDoomedIsDoomed(graph, run, dependent);
    var moved := PassesStop(config, graph, run, [pass]);
    ChainDoom(graph, run, upstream, dependent);
    if moved != Doomed(graph, run) {
      LargeSubset(moved, Doomed(graph, run));
    }
    SkipStates(graph, run, upstream, now);
    SkipStates(graph, RunPasses(config, graph, run, [pass]), upstream, now);
  }

  lemma ChainDoom(graph: Graph, run: Run, upstream: NodeId, dependent: NodeId)
    requires IsChain(graph, upstream, dependent) && IsStopped(run, upstream) && IsIn(run, dependent, PENDING)
    ensures Doomed(graph, run) <= {dependent} && |Doomed(graph, run)| <= 1
  {
    forall x | x in Doomed(graph, run) ensures x == dependent {
      var y :| IsStopped(run, y) && Through(WaitEdges(graph, run), IdsIn(run, PENDING), x, y);
      var p :| Via(WaitEdges(graph, run), IdsIn(run, PENDING), x, p, y);
      var next := if p == [] then y else p[0];
      ContractedEdge(EdgesOf(graph), Skipped(run), x, next);
      EffectiveIsDependency(EdgesOf(graph), Skipped(run), x, next);
      DependentIsNode(EdgesOf(graph), x, next);
    }
    if Doomed(graph, run) != {} {
      assert Doomed(graph, run) == {dependent};
    }
  }

  /** A verdict that wakes a resting node and calls it unrecoverable leaves it to a human with its new session open. */
  lemma UnrecoverableWakeStrandsSession(config: Config)
    requires Claude in config.launchers
    ensures var run := ChainRun(RESTING, PENDING, map[UPSTREAM := IDLE]);
            var command := RecoverCommand(UPSTREAM, OtherCause, false, None, false, true);
            var answer := RecoverAnswer(false, false, false, RecoveryWakeStarts(5, false), 6, 7, 8);
            && SessionsSound(run)
            && RecoverNode(config, CHAIN, run, command, answer).1
            && !SessionsSound(RecoverNode(config, CHAIN, run, command, answer).0)
  {
    var run := ChainRun(RESTING, PENDING, map[UPSTREAM := IDLE]);
    var command := RecoverCommand(UPSTREAM, OtherCause, false, None, false, true);
    var answer := RecoverAnswer(false, false, false, RecoveryWakeStarts(5, false), 6, 7, 8);
    assert FirstDeclared(CHAIN, UPSTREAM) == Some(CHAIN[0]);
    assert SessionsSound(run) by {
      forall id ensures NodeSound(run, id) {
      }
    }
    RecoveryKeepsSessionsIff(config, CHAIN, run, command, answer);
  }

  /** A verdict that defers a merged node takes back what its dependent was cleared by when it started. */
  lemma DeferringMergedNodeUncovers(config: Config, graph: Graph, run: Run, upstream: NodeId, start: Start,
                                    command: RecoverCommand, answer: RecoverAnswer)
    requires SessionsSound(run) && IsChain(graph, upstream, start.0.id) && !IsIn(run, start.0.id, SKIPPED)
    requires IsIn(run, upstream, MERGED) && IsDone(run, start, upstream) && AgentSession(run, upstream).Some?
    requires command == RecoverCommand(upstream, ProviderFailure, true, Some(answer.recordedAt + 1), false, false)
    ensures Cleared(graph, run, start)
    ensures RecoverNode(config, graph, run, command, answer).1
    ensures !Cleared(graph, RecoverNode(config, graph, run, command, answer).0, start)
  {
    ChainWaits(graph, run, upstream, start.0.id);
    RecoveryKeepsStartsIff(config, graph, run, command, answer, {start});
    assert Skipped(run) - {upstream} == Skipped(run);
    assert start in {start};
  }

  // ---------- the same at one run ----------

  lemma ChainRunIsSound(upstream: NodeState, dependent: NodeState)
    requires upstream != IN_PROGRESS && dependent != IN_PROGRESS
    ensures SessionsSound(ChainRun(upstream, dependent, BOTH)) && Stored(CHAIN, ChainRun(upstream, dependent, BOTH))
  {
    var run := ChainRun(upstream, dependent, BOTH);
    ChainIsChain();
    forall id ensures NodeSound(run, id) {
    }
  }

  const BOTH := map[UPSTREAM := IDLE, DEPENDENT := IDLE]

  lemma MergedChainIsSound()
    ensures RunSound(CHAIN, ChainRun(MERGED, RESTING, BOTH), {(CHAIN[0], 1), (CHAIN[1], 3)})
  {
    var run := ChainRun(MERGED, RESTING, BOTH);
    ChainIsChain();
    ChainRunIsSound(MERGED, RESTING);
    ChainWaits(CHAIN, run, UPSTREAM, DEPENDENT);
    AgentsHaveStarts(run, 1, 3);
    assert StartsCleared(CHAIN, run, {(CHAIN[0], 1), (CHAIN[1], 3)}) by {
      assert Cleared(CHAIN, run, (CHAIN[0], 1)) && Cleared(CHAIN, run, (CHAIN[1], 3));
    }
  }

  /** The dependent started after its upstream merged; the verdict takes that ending back from under it. */
  lemma DeferralUncoversChain(config: Config)
    ensures RunSound(CHAIN, ChainRun(MERGED, RESTING, BOTH), {(CHAIN[0], 1), (CHAIN[1], 3)})
    ensures var command := RecoverCommand(UPSTREAM, ProviderFailure, true, Some(8), false, false);
            var after := RecoverNode(config, CHAIN, ChainRun(MERGED, RESTING, BOTH), command, QUIET_ANSWER);
            after.1 && !Cleared(CHAIN, after.0, (CHAIN[1], 3))
  {
    var run, start := ChainRun(MERGED, RESTING, BOTH), (CHAIN[1], 3);
    var command := RecoverCommand(UPSTREAM, ProviderFailure, true, Some(8), false, false);
    ChainIsChain();
    ChainRunIsSound(MERGED, RESTING);
    MergedChainIsSound();
    assert AgentSession(run, UPSTREAM).Some?;
    DeferringMergedNodeUncovers(config, CHAIN, run, UPSTREAM, start, command, QUIET_ANSWER);
  }

  lemma AgentsHaveStarts(run: Run, first: int, second: int)
    requires run.agents == BOTH
    ensures forall id :: id in run.agents ==>
              exists s :: s in {(CHAIN[0], first), (CHAIN[1], second)} && s.0.id == id
  {
    forall id | id in run.agents
      ensures exists s :: s in {(CHAIN[0], first), (CHAIN[1], second)} && s.0.id == id
    {
      var s := if id == UPSTREAM then (CHAIN[0], first) else (CHAIN[1], second);
      assert s in {(CHAIN[0], first), (CHAIN[1], second)} && s.0.id == id;
    }
  }

  const QUIET_ANSWER := RecoverAnswer(false, false, false, RecoveryWakeFails, 6, 7, 8)

  /** The run of a skipped upstream whose started dependent waits out a usage limit. */
  function SkippedUpstream(): Run
  {
    ChainRun(SKIPPED, PENDING, BOTH)
  }

  /** The same run once a verdict has called the skipped upstream unrecoverable. */
  ghost function HandedOver(config: Config): Run
  {
    RecoverNode(config, CHAIN, SkippedUpstream(), RecoverCommand(UPSTREAM, OtherCause, false, None, false, false),
                QUIET_ANSWER).0
  }

  lemma SkippedUpstreamIsSound()
    ensures RunSound(CHAIN, SkippedUpstream(), {(CHAIN[0], 1), (CHAIN[1], 2)})
  {
    var run := SkippedUpstream();
    var edges := EdgesOf(CHAIN);
    ChainIsChain();
    ChainRunIsSound(SKIPPED, PENDING);
    AgentsHaveStarts(run, 1, 2);
    NothingSkipped(edges, DEPENDENT);
    NothingSkipped(edges, UPSTREAM);
    forall d ensures d !in WaitsFor(CHAIN, run, DEPENDENT) && d !in WaitsFor(CHAIN, run, UPSTREAM) {
      SkipOneMore(edges, {}, UPSTREAM, DEPENDENT);
      SkipOneMore(edges, {}, UPSTREAM, UPSTREAM);
      assert {} + {UPSTREAM} == Skipped(run);
      assert EffectiveSet(edges, {}, DEPENDENT) <= {UPSTREAM};
      assert EffectiveSet(edges, {}, UPSTREAM) == {};
    }
  }

  lemma HandOverIsCarriedOut(config: Config)
    ensures var command := RecoverCommand(UPSTREAM, OtherCause, false, None, false, false);
            && IsAccepted(config, CHAIN, SkippedUpstream(), command, QUIET_ANSWER)
            && !IsOrderly(SkippedUpstream(), command, QUIET_ANSWER)
    ensures IsIn(HandedOver(config), UPSTREAM, NEEDS_HUMAN) && IsIn(HandedOver(config), DEPENDENT, PENDING)
    ensures HandedOver(config).agents == BOTH && Stored(CHAIN, HandedOver(config))
  {
    ChainIsChain();
  }

  /**
   One disorderly verdict on a sound run dooms a node with an agent, and a later skip of its upstream no
   longer brings that node back, though an earlier one would have.
   */
  lemma DisorderlyVerdictDefeatsSkip(config: Config, pass: Pass, now: int)
    requires IsQuiet(config, CHAIN, HandedOver(config), pass.answers)
    ensures RunSound(CHAIN, SkippedUpstream(), {(CHAIN[0], 1), (CHAIN[1], 2)})
    ensures var run := HandedOver(config);
            && DEPENDENT in Doomed(CHAIN, run) && DEPENDENT in run.agents
            && IsIn(SkipNode(CHAIN, run, UPSTREAM, now).0, DEPENDENT, PENDING)
            && IsIn(SkipNode(CHAIN, RunPasses(config, CHAIN, run, [pass]), UPSTREAM, now).0, DEPENDENT, NEEDS_HUMAN)
  {
    var run := HandedOver(config);
    SkippedUpstreamIsSound();
    HandOverIsCarriedOut(config);
    ChainIsChain();
    ChainWaits(CHAIN, run, UPSTREAM, DEPENDENT);
    assert WaitsForStopped(CHAIN, run, DEPENDENT);
    DirectlyDoomedIsDoomed(CHAIN, run, DEPENDENT);
    AgentKeepsNodeStopped(config, CHAIN, run, UPSTREAM, DEPENDENT, pass, now);
  }

  /** A run that has settled, one node merged and one in error, stays active for ever. */
  lemma SettledChainStaysActive(config: Config, ticks: seq<Tick>)
    ensures var run := ChainRun(MERGED, ERRORED, BOTH);
            TicksApplied(config, CHAIN, run, ticks) == run && GetRunStatus(CHAIN, run) == ActiveRun
  {
    var run := ChainRun(MERGED, ERRORED, BOTH);
    assert CHAIN[0] in CHAIN && CHAIN[1] in CHAIN;
    assert IsMixed(CHAIN, run);
    MixedRunNeverEnds(config, CHAIN, run, ticks);
  }
}

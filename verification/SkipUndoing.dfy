/**
 Skipping a node after its failure stopped its dependents leaves the run exactly where skipping it
 before anything was stopped would have left it.
 */
module SkipUndoing {
  import opened Graphs
  import opened GraphServices
  import opened Runs
  import opened DependentReleases
  import opened NodeOperators
  import opened RunInvariants
  import opened StartSafety
  import opened RunHistories
  import opened StopPropagation

  // ---------- what one skip does to the states ----------

  /** The state of each node after `b` is skipped and its stopped dependents are returned to pending. */
  ghost function StateAfterSkip(graph: Graph, run: Run, b: NodeId, id: NodeId): NodeState
    requires id in run.rows
  {
    if id == b then SKIPPED
    else if id in DescendantIds(graph, b) && IsReleasable(graph, run, id) then PENDING
    else run.rows[id].state
  }

  lemma SkipStates(graph: Graph, run: Run, b: NodeId, now: int)
    requires Stored(graph, run) && IsSkippable(run, b)
    ensures var after := SkipNode(graph, run, b, now).0;
            && Stored(graph, after) && after.order == run.order && after.agents == run.agents
            && after.rows.Keys == run.rows.Keys
            && forall id :: id in run.rows ==> after.rows[id].state == StateAfterSkip(graph, run, b, id)
  {
    var marked := Recorded(run, b, SKIPPED, SkippedByHuman, now);
    RecordedNotes(run, b, SKIPPED, SkippedByHuman, now);
    var after := SkipNode(graph, run, b, now).0;
    var released := ToRelease(graph, marked, b);
    assert b !in released;
    forall id | id in run.rows ensures after.rows[id].state == StateAfterSkip(graph, run, b, id) {
      if id != b {
        assert marked.rows[id] == run.rows[id];
        assert LatestNote(marked.audits, id) == LatestNote(run.audits, id);
        assert IsReleasable(graph, marked, id) <==> IsReleasable(graph, run, id);
        assert id in run.order;
      }
    }
  }

  // ---------- what a late skip fails to bring back ----------

  /** The doomed nodes a late skip of `b` leaves stopped: those that do not depend on it and those with an agent. */
  ghost function LeftStopped(graph: Graph, run: Run, b: NodeId): set<NodeId>
  {
    set x | x in Doomed(graph, run) && x != b && (x !in DescendantIds(graph, b) || x in run.agents)
  }

  /**
   What propagation stopped can be released by the next skip, unless it has an agent; the rest is as
   releasable as before.
   */
  lemma ReleasableAfterStops(graph: Graph, run: Run, stopped: Run, id: NodeId)
    requires PassesStopped(graph, run, stopped, Doomed(graph, run)) && id in run.rows
    ensures IsReleasable(graph, stopped, id) <==>
            IsReleasable(graph, run, id) || (id in Doomed(graph, run) && id !in run.agents)
  {
    if id in Doomed(graph, run) {
      assert NotedUpstreamStop(graph, stopped, id);
    } else if !IsIn(run, id, PENDING) {
      assert LatestNote(stopped.audits, id) == LatestNote(run.audits, id);
    }
  }

  lemma StatesAfterBothSkips(graph: Graph, run: Run, stopped: Run, b: NodeId, id: NodeId)
    requires PassesStopped(graph, run, stopped, Doomed(graph, run)) && id in run.rows
    ensures StateAfterSkip(graph, stopped, b, id) ==
            if id in LeftStopped(graph, run, b) then NEEDS_HUMAN else StateAfterSkip(graph, run, b, id)
    ensures id in LeftStopped(graph, run, b) ==> StateAfterSkip(graph, run, b, id) == PENDING
  {
    ReleasableAfterStops(graph, run, stopped, id);
  }

  /** A late skip differs from an early one exactly in the nodes it leaves stopped. */
  lemma LateSkipDiffers(graph: Graph, run: Run, stopped: Run, early: Run, late: Run, b: NodeId)
    requires PassesStopped(graph, run, stopped, Doomed(graph, run))
    requires early.order == run.order && early.rows.Keys == run.rows.Keys
    requires late.order == stopped.order && late.rows.Keys == stopped.rows.Keys
    requires forall id :: id in run.rows ==> early.rows[id].state == StateAfterSkip(graph, run, b, id)
    requires forall id :: id in stopped.rows ==> late.rows[id].state == StateAfterSkip(graph, stopped, b, id)
    ensures StopsOnly(early, late, LeftStopped(graph, run, b))
  {
    var left := LeftStopped(graph, run, b);
    forall id | id in run.rows
      ensures late.rows[id].state == if id in left then NEEDS_HUMAN else early.rows[id].state
      ensures id in left ==> early.rows[id].state == PENDING
    {
      StatesAfterBothSkips(graph, run, stopped, b, id);
    }
  }

  /** A walk of waits that ends outside `b` and its dependents survives the skip of `b`. */
  lemma {:induction false} WalkSurvivesSkip(graph: Graph, run: Run, after: Run, b: NodeId,
                                            x: NodeId, p: seq<NodeId>, y: NodeId)
    requires Skipped(after) == Skipped(run) + {b}
    requires forall id :: id != b && IsIn(run, id, PENDING) ==> IsIn(after, id, PENDING)
    requires Via(WaitEdges(graph, run), IdsIn(run, PENDING), x, p, y)
    requires x != b && x !in DescendantIds(graph, b)
    ensures Through(WaitEdges(graph, after), IdsIn(after, PENDING), x, y)
    ensures y != b && y !in DescendantIds(graph, b)
    decreases |p|
  {
    var next := if p == [] then y else p[0];
    var edges := EdgesOf(graph);
    ContractedEdge(edges, Skipped(run), x, next);
    EffectiveSetIsEffective(edges, Skipped(run), x, next);
    if next == b || next in DescendantIds(graph, b) {
      EffectiveMakesDescendant(graph, Skipped(run), x, next);
      if next != b {
        DescendantsOfDescendants(graph, x, next, b);
      }
      assert false;
    }
    Monotone(edges, Skipped(run), edges, Skipped(after), x, next);
    ContractedEdge(edges, Skipped(after), x, next);
    EdgeIsWalk(WaitEdges(graph, after), IdsIn(after, PENDING), x, next);
    if p != [] {
      WalkSurvivesSkip(graph, run, after, b, next, p[1..], y);
      Prepend(WaitEdges(graph, after), IdsIn(after, PENDING), x, next, y);
    }
  }

  lemma DescendantsOfDescendants(graph: Graph, x: NodeId, y: NodeId, b: NodeId)
    requires x in DescendantIds(graph, y) && y in DescendantIds(graph, b)
    ensures x in DescendantIds(graph, b)
  {
    var edges := DeclaredEdges(graph);
    var p :| Via(edges, Nodes(edges), x, p, y);
    WalkEnds(edges, Nodes(edges), x, p, y);
    Transitive(edges, Nodes(edges), x, y, b);
  }

  lemma SkipAddsOne(graph: Graph, run: Run, b: NodeId, now: int)
    requires Stored(graph, run) && IsSkippable(run, b)
    ensures var after := SkipNode(graph, run, b, now).0;
            && Skipped(after) == Skipped(run) + {b}
            && (forall id :: id != b && IsIn(run, id, PENDING) ==> IsIn(after, id, PENDING))
            && (forall id :: id != b && id !in DescendantIds(graph, b) && IsStopped(run, id) ==> IsStopped(after, id))
  {
    SkipStates(graph, run, b, now);
    var after := SkipNode(graph, run, b, now).0;
    forall id | id in run.rows
      ensures IsIn(after, id, SKIPPED) <==> IsIn(run, id, SKIPPED) || id == b
      ensures id != b && IsIn(run, id, PENDING) ==> IsIn(after, id, PENDING)
      ensures id != b && id !in DescendantIds(graph, b) && IsStopped(run, id) ==> IsStopped(after, id)
    {
      assert after.rows[id].state == StateAfterSkip(graph, run, b, id);
    }
  }

  /** A doomed node that does not depend on `b` is doomed whether `b` is skipped or not. */
  lemma UnrelatedStaysDoomed(graph: Graph, run: Run, b: NodeId, now: int, x: NodeId)
    requires Stored(graph, run) && IsSkippable(run, b)
    requires x in Doomed(graph, run) && x != b && x !in DescendantIds(graph, b)
    ensures x in Doomed(graph, SkipNode(graph, run, b, now).0)
  {
    var after := SkipNode(graph, run, b, now).0;
    SkipAddsOne(graph, run, b, now);
    var y :| IsStopped(run, y) && Through(WaitEdges(graph, run), IdsIn(run, PENDING), x, y);
    var p :| Via(WaitEdges(graph, run), IdsIn(run, PENDING), x, p, y);
    WalkSurvivesSkip(graph, run, after, b, x, p, y);
  }

  // ---------- the theorem ----------

  ghost predicate SameStates(run: Run, run': Run)
  {
    run.rows.Keys == run'.rows.Keys && forall id :: id in run.rows ==> run.rows[id].state == run'.rows[id].state
  }

  /** Passes that launch nothing, enough of them to stop all there is to stop. */
  ghost predicate Settles(config: Config, graph: Graph, run: Run, passes: seq<Pass>)
  {
    AreQuiet(config, graph, run, passes) && AreEnough(graph, run, passes)
  }

  /** Every doomed node that ever had an agent would be stopped again after an early skip. */
  ghost predicate AgentsStayDoomed(graph: Graph, run: Run, skipped: Run, b: NodeId)
  {
    forall x :: x in Doomed(graph, run) && x != b && x in run.agents ==> x in Doomed(graph, skipped)
  }

  /**
   Propagate stops to the end, skip `b`, release its dependents and propagate again: the states are
   those of skipping `b` first and propagating once, exactly when every doomed node with an agent
   stays doomed. Sessions and agents are the same in any case.
   */
  lemma SkipUndoesPropagationIff(config: Config, graph: Graph, run: Run, b: NodeId, now: int, now': int,
                                 first: seq<Pass>, second: seq<Pass>, only: seq<Pass>)
    requires UniqueIds(graph) && Stored(graph, run) && IsSkippable(run, b)
    requires Settles(config, graph, run, first)
    requires Settles(config, graph, SkipNode(graph, RunPasses(config, graph, run, first), b, now).0, second)
    requires Settles(config, graph, SkipNode(graph, run, b, now').0, only)
    ensures var early := SkipNode(graph, run, b, now').0;
            var late := SkipNode(graph, RunPasses(config, graph, run, first), b, now).0;
            var earlySettled := RunPasses(config, graph, early, only);
            var lateSettled := RunPasses(config, graph, late, second);
            && lateSettled.agents == earlySettled.agents
            && (SameStates(lateSettled, earlySettled) <==> AgentsStayDoomed(graph, run, early, b))
  {
    var stopped := RunPasses(config, graph, run, first);
    PropagationSettles(config, graph, run, first);
    var early, late := SkipNode(graph, run, b, now').0, SkipNode(graph, stopped, b, now).0;
    SkipStates(graph, run, b, now');
    SkipStates(graph, stopped, b, now);
    LateSkipDiffers(graph, run, stopped, early, late, b);
    PropagationSettles(config, graph, early, only);
    PropagationSettles(config, graph, late, second);
    SettledStatesAgreeIff(graph, run, early, late, b, now');
    var earlySettled, lateSettled := RunPasses(config, graph, early, only), RunPasses(config, graph, late, second);
    assert SameStates(lateSettled, earlySettled) <==>
           forall id :: id in early.rows ==> SettledState(graph, late, id) == SettledState(graph, early, id);
  }

  lemma SettledStatesAgreeIff(graph: Graph, run: Run, early: Run, late: Run, b: NodeId, now: int)
    requires Stored(graph, run) && IsSkippable(run, b) && early == SkipNode(graph, run, b, now).0
    requires StopsOnly(early, late, LeftStopped(graph, run, b))
    ensures (forall id :: id in early.rows ==> SettledState(graph, late, id) == SettledState(graph, early, id)) <==>
            AgentsStayDoomed(graph, run, early, b)
  {
    var left := LeftStopped(graph, run, b);
    if AgentsStayDoomed(graph, run, early, b) {
      forall x | x in left ensures x in Doomed(graph, early) {
        if x !in DescendantIds(graph, b) {
          UnrelatedStaysDoomed(graph, run, b, now, x);
        }
      }
      StoppingDoomedNodes(graph, early, late, left);
      forall id | id in early.rows ensures SettledState(graph, late, id) == SettledState(graph, early, id) {
        assert id in Doomed(graph, late) <==> id in Doomed(graph, early) - left;
      }
    } else {
      var x :| x in Doomed(graph, run) && x != b && x in run.agents && x !in Doomed(graph, early);
      assert x in left;
      assert SettledState(graph, early, x) == PENDING && SettledState(graph, late, x) == NEEDS_HUMAN;
    }
  }

  /** A doomed node waits for something that is not merged, so no start of it is cleared. */
  lemma DoomedIsNotCleared(graph: Graph, run: Run, start: Start)
    requires start.0.id in Doomed(graph, run)
    ensures !Cleared(graph, run, start)
  {
    var x := start.0.id;
    var y :| IsStopped(run, y) && Through(WaitEdges(graph, run), IdsIn(run, PENDING), x, y);
    var p :| Via(WaitEdges(graph, run), IdsIn(run, PENDING), x, p, y);
    var next := if p == [] then y else p[0];
    WaitEdge(graph, run, x, next);
    assert !IsDone(run, start, next);
  }

  /** In a sound run a doomed node never started, so it has no agent. */
  lemma DoomedNeverStarted(graph: Graph, run: Run, starts: set<Start>, x: NodeId)
    requires RunSound(graph, run, starts) && x in Doomed(graph, run)
    ensures x !in run.agents
  {
    if x in run.agents {
      var start :| start in starts && start.0.id == x;
      DoomedIsNotCleared(graph, run, start);
    }
  }

  /**
   In every state a history can reach, skipping a node undoes what its stop propagated, exactly:
   the states are those of skipping it before anything propagated.
   */
  lemma SkipUndoesPropagationInEveryRun(config: Config, graph: Graph, runs: seq<Run>, events: seq<Event>, j: nat,
                                        b: NodeId, now: int, now': int,
                                        first: seq<Pass>, second: seq<Pass>, only: seq<Pass>)
    requires UniqueIds(graph) && IsHistory(config, graph, runs, events) && j <= |events|
    requires IsSkippable(runs[j], b) && Settles(config, graph, runs[j], first)
    requires Settles(config, graph, SkipNode(graph, RunPasses(config, graph, runs[j], first), b, now).0, second)
    requires Settles(config, graph, SkipNode(graph, runs[j], b, now').0, only)
    ensures SameStates(
              RunPasses(config, graph, SkipNode(graph, RunPasses(config, graph, runs[j], first), b, now).0, second),
              RunPasses(config, graph, SkipNode(graph, runs[j], b, now').0, only))
  {
    var run := runs[j];
    HistoryIsSound(config, graph, runs, events, j);
    forall x | x in Doomed(graph, run) ensures x !in run.agents {
      DoomedNeverStarted(graph, run, AllStarts(graph, runs, events, j), x);
    }
    SkipUndoesPropagationIff(config, graph, run, b, now, now', first, second, only);
  }
}

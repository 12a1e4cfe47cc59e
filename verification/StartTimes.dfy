/** When a pending node may start: after its scheduled wait and after its cooldown. */
module StartTimes {
  import opened Graphs
  import opened GraphServices
  import opened Options
  import opened Runs

  type NodeRow = (NodeId, Row)

  predicate IsMergedOrSkipped(row: Row)
  {
    row.state == MERGED || row.state == SKIPPED
  }

  function RowsOf(rows: map<NodeId, Row>, ids: seq<NodeId>): (r: seq<NodeRow>)
    ensures forall n :: n in r <==> n.0 in ids && n.0 in rows && n.1 == rows[n.0]
  {
    if ids == [] then []
    else if ids[0] in rows then [(ids[0], rows[ids[0]])] + RowsOf(rows, ids[1..])
    else RowsOf(rows, ids[1..])
  }

  /** The resume times recorded for the node. */
  function ResumeTimes(nodes: seq<NodeRow>, id: NodeId): (r: seq<int>)
    ensures forall t :: t in r <==> exists n :: n in nodes && n.0 == id && n.1.resumeAt == Some(t)
  {
    if nodes == [] then []
    else
      var rest := ResumeTimes(nodes[1..], id);
      assert forall n :: n in nodes <==> n == nodes[0] || n in nodes[1..];
      if nodes[0].0 == id && nodes[0].1.resumeAt.Some? then [nodes[0].1.resumeAt.value] + rest else rest
  }

  /** When the nodes with these ids merged or were skipped. */
  function MergedOrSkippedTimes(nodes: seq<NodeRow>, ids: set<NodeId>): (r: seq<int>)
    ensures forall t :: t in r <==>
                        exists n :: n in nodes && n.0 in ids && IsMergedOrSkipped(n.1) && n.1.updatedAt == t
  {
    if nodes == [] then []
    else
      var rest := MergedOrSkippedTimes(nodes[1..], ids);
      assert forall n :: n in nodes <==> n == nodes[0] || n in nodes[1..];
      if nodes[0].0 in ids && IsMergedOrSkipped(nodes[0].1) then [nodes[0].1.updatedAt] + rest else rest
  }

  function Latest(times: seq<int>): (r: Option<int>)
    ensures r.None? <==> times == []
    ensures r.Some? ==> r.value in times && forall t :: t in times ==> t <= r.value
  {
    if times == [] then None
    else
      assert forall t :: t in times ==> t == times[0] || t in times[1..];
      match Latest(times[1..])
      case None => Some(times[0])
      case Some(t) => Some(if times[0] > t then times[0] else t)
  }

  function CooldownStart(node: GraphNode, nodes: seq<NodeRow>, dependencyIds: set<NodeId>): Option<int>
  {
    if node.cooldownSeconds == 0 then None
    else match Latest(MergedOrSkippedTimes(nodes, dependencyIds))
         case None => None
         case Some(t) => Some(t + node.cooldownSeconds)
  }

  /** The earliest time the node may start, given the ids its cooldown looks at. */
  function StartTime(node: GraphNode, nodes: seq<NodeRow>, dependencyIds: set<NodeId>): Option<int>
  {
    var waits := ResumeTimes(nodes, node.id);
    match CooldownStart(node, nodes, dependencyIds)
    case None => Latest(waits)
    case Some(t) => Latest(waits + [t])
  }

  /** The wait is over exactly when every recorded resume time and every cooldown has passed. */
  lemma StartTimeReached(node: GraphNode, nodes: seq<NodeRow>, dependencyIds: set<NodeId>, now: int)
    ensures (StartTime(node, nodes, dependencyIds).None? || StartTime(node, nodes, dependencyIds).value <= now) <==>
            && (forall n :: n in nodes && n.0 == node.id && n.1.resumeAt.Some? ==> n.1.resumeAt.value <= now)
            && (node.cooldownSeconds > 0 ==>
                  forall n :: n in nodes && n.0 in dependencyIds && IsMergedOrSkipped(n.1) ==>
                              n.1.updatedAt + node.cooldownSeconds <= now)
  {
    var waits := ResumeTimes(nodes, node.id);
    var times := MergedOrSkippedTimes(nodes, dependencyIds);
    forall n | n in nodes && n.0 == node.id && n.1.resumeAt.Some? ensures n.1.resumeAt.value in waits {
      assert n.1.resumeAt == Some(n.1.resumeAt.value);
    }
    forall n | n in nodes && n.0 in dependencyIds && IsMergedOrSkipped(n.1) ensures n.1.updatedAt in times {
    }
    var cooldown := CooldownStart(node, nodes, dependencyIds);
    if cooldown.Some? {
      assert forall t :: t in waits + [cooldown.value] <==> t in waits || t == cooldown.value;
    }
  }

  function SkippedAmong(nodes: seq<NodeRow>): set<NodeId>
  {
    set n | n in nodes && n.1.state == SKIPPED :: n.0
  }

  /** The declared dependencies together with the effective ones. */
  ghost function CooldownIds(graph: Graph, nodes: seq<NodeRow>, id: NodeId): set<NodeId>
  {
    (set d | d in GetDependencies(graph, id)) + EffectiveIds(graph, SkippedAmong(nodes), id)
  }

  method GetStartTime(graph: Graph, node: GraphNode, nodes: seq<NodeRow>) returns (startTime: Option<int>)
    ensures startTime == StartTime(node, nodes, CooldownIds(graph, nodes, node.id))
  {
    var effective := GetEffectiveDependencies(graph, node.id, SkippedAmong(nodes));
    var dependencyIds := (set d | d in GetDependencies(graph, node.id)) + Ids(effective);
    EffectiveIdsAreDeclared(graph, SkippedAmong(nodes), node.id);
    NodesWithIdsHaveIds(graph, EffectiveIds(graph, SkippedAmong(nodes), node.id));
    startTime := StartTime(node, nodes, dependencyIds);
  }
}

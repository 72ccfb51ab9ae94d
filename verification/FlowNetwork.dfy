/**
 * The split-node, unit-capacity flow network behind k node-disjoint paths
 * (daemon/multipath.c). Configured nodes are numbered from 0; node i becomes the inbound flow
 * node 2i and the outbound flow node 2i + 1, joined by an internal arc. A configured edge
 * becomes an arc from the outbound node of its source to the inbound node of its destination.
 * Each arc is listed twice, as a real flow edge and as its residual twin.
 */
module FlowNetwork {

  type FlowNode = nat

  datatype Arc = Internal(id: nat) | Link(src: nat, dst: nat)

  datatype FlowEdge = FlowEdge(arc: Arc, residual: bool)

  /** `USHRT_MAX`, the label of a node that no path has reached. */
  const UNREACHED: int := 65535

  function In(i: nat): FlowNode { 2 * i }

  function Out(i: nat): FlowNode { 2 * i + 1 }

  function Start(a: Arc): FlowNode {
    match a case Internal(i) => In(i) case Link(s, _) => Out(s)
  }

  function End(a: Arc): FlowNode {
    match a case Internal(i) => Out(i) case Link(_, d) => In(d)
  }

  function Tail(e: FlowEdge): FlowNode {
    if e.residual then End(e.arc) else Start(e.arc)
  }

  function Head(e: FlowEdge): FlowNode {
    if e.residual then Start(e.arc) else End(e.arc)
  }

  /**
   * One computation's view of the network: how many nodes are configured, the flow edges in
   * the order of the global list, the costs of the arcs that are not broken, and the endpoints.
   */
  datatype Net = Net(nodes: nat, list: seq<FlowEdge>, cost: map<Arc, int>, me: nat, dest: nat) {

    function Size(): nat { 2 * nodes }

    function Source(): FlowNode { Out(me) }

    function Sink(): FlowNode { In(dest) }

    ghost predicate Valid() {
      && me < nodes && dest < nodes && me != dest
      && (forall j :: 0 <= j < |list| ==> Tail(list[j]) < Size() && Head(list[j]) < Size())
    }

    /** Broken links are missing from the costs; every remaining arc has both its edges listed. */
    ghost predicate Costed() {
      && (forall a :: a in cost ==> cost[a] >= 0 && (a.Internal? ==> cost[a] == 0))
      && (forall a, b :: a in cost ==> FlowEdge(a, b) in list)
      && (forall i :: 0 <= i < nodes ==> Internal(i) in cost)
    }

    function CostOf(e: FlowEdge): int {
      if e.arc !in cost then 0 else if e.residual then -cost[e.arc] else cost[e.arc]
    }

    /** `flow < capacity`: a real edge is free while its arc carries no flow, its twin while it does. */
    predicate Available(flow: set<Arc>, e: FlowEdge) {
      e.arc in cost && (e.residual <==> e.arc in flow)
    }

    /** Every free edge of the list is relaxed under the labels or potential `p`. */
    ghost predicate Relaxed(flow: set<Arc>, p: seq<int>)
      requires Valid() && |p| == Size()
    {
      forall j :: 0 <= j < |list| && Available(flow, list[j]) ==> p[Head(list[j])] <= p[Tail(list[j])] + CostOf(list[j])
    }

    /** A potential that bounds every label from below and is largest at the sink. */
    ghost predicate Potential(flow: set<Arc>, p: seq<int>) {
      && Valid() && |p| == Size() && Relaxed(flow, p)
      && p[Source()] == 0 && p[Sink()] < UNREACHED
      && (forall v :: 0 <= v < |p| ==> 0 <= p[v] <= p[Sink()])
    }
  }
}

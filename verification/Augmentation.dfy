/** Sums over the arcs of a flow. A flow is the set of arcs that carry one unit. */
module FlowSums {
  import opened FlowNetwork

  ghost function Sum(s: set<Arc>, f: Arc -> int): int {
    if s == {} then 0 else var a :| a in s; f(a) + Sum(s - {a}, f)
  }

  lemma {:induction false} SumRemove(s: set<Arc>, f: Arc -> int, a: Arc)
    requires a in s
    ensures Sum(s, f) == f(a) + Sum(s - {a}, f)
  {
    var b :| b in s && Sum(s, f) == f(b) + Sum(s - {b}, f);
    if a != b {
      SumRemove(s - {b}, f, a);
      SumRemove(s - {a}, f, b);
      assert s - {a} - {b} == s - {b} - {a};
    }
  }

  lemma SumAdd(s: set<Arc>, f: Arc -> int, a: Arc)
    requires a !in s
    ensures Sum(s + {a}, f) == f(a) + Sum(s, f)
  {
    SumRemove(s + {a}, f, a);
    assert s + {a} - {a} == s;
  }

  lemma {:induction false} SumUnion(s: set<Arc>, t: set<Arc>, f: Arc -> int)
    requires s !! t
    ensures Sum(s + t, f) == Sum(s, f) + Sum(t, f)
  {
    if t == {} {
      assert s + t == s;
    } else {
      var a :| a in t;
      SumUnion(s, t - {a}, f);
      SumRemove(t, f, a);
      SumAdd(s + (t - {a}), f, a);
      assert s + t == s + (t - {a}) + {a};
    }
  }

  lemma {:induction false} SumNonNegative(s: set<Arc>, f: Arc -> int)
    requires forall a :: a in s ==> f(a) >= 0
    ensures Sum(s, f) >= 0
    ensures Sum(s, f) == 0 ==> forall a :: a in s ==> f(a) == 0
  {
    if s != {} {
      var a :| a in s;
      SumNonNegative(s - {a}, f);
      SumRemove(s, f, a);
    }
  }

  lemma {:induction false} SumPlus(s: set<Arc>, f: Arc -> int, g: Arc -> int, h: Arc -> int)
    requires forall a :: a in s ==> f(a) == g(a) + h(a)
    ensures Sum(s, f) == Sum(s, g) + Sum(s, h)
  {
    if s != {} {
      var a :| a in s;
      SumPlus(s - {a}, f, g, h);
      SumRemove(s, f, a);
      SumRemove(s, g, a);
      SumRemove(s, h, a);
    }
  }

  /** What a unit over an arc gains under the potential `phi`. */
  function Gain(phi: FlowNode -> int): Arc -> int {
    a => phi(End(a)) - phi(Start(a))
  }

  /**
   * Conservation: `flow` carries `r` units from the source to the sink and nothing else. Taking
   * for `phi` the indicator of a node, or of a set, gives the balance there.
   */
  ghost predicate Carries(net: Net, flow: set<Arc>, r: nat) {
    forall phi: FlowNode -> int :: Sum(flow, Gain(phi)) == r * (phi(net.Sink()) - phi(net.Source()))
  }
}

/** Walking the predecessor edges back from the sink and flipping the flow on each of them. */
module Augmentation {
  import opened FlowNetwork
  import opened BellmanFord
  import opened FlowSums

  /** `flow = capacity` on the edge and `flow = 0` on its twin. */
  function Flip(flow: set<Arc>, e: FlowEdge): set<Arc> {
    if e.residual then flow - {e.arc} else flow + {e.arc}
  }

  function Upto(n: nat): (s: set<FlowNode>)
    ensures forall v :: v in s <==> 0 <= v < n
  {
    if n == 0 then {} else Upto(n - 1) + {n - 1}
  }

  /** The flow after the walk back from `v`; `unmet` holds the nodes the walk has not met. */
  function Push(net: Net, l: Labels, v: FlowNode, unmet: set<FlowNode>, flow: set<Arc>): set<Arc>
    requires forall u :: u in unmet ==> u < |l.prev|
    decreases unmet
  {
    if v == net.Source() || v !in unmet || l.prev[v] == NoEdge then
      flow
    else
      var e := l.prev[v].edge;
      Push(net, l, Tail(e), unmet - {v}, Flip(flow, e))
  }

  /** One pass of the path loop: `flow` unchanged when the sink is unreached. */
  predicate Reached(net: Net, flow: set<Arc>)
    requires net.Valid()
  {
    Final(net, flow).dist[net.Sink()] != UNREACHED
  }

  function Augment(net: Net, flow: set<Arc>): set<Arc>
    requires net.Valid()
  {
    Push(net, Final(net, flow), net.Sink(), Upto(net.Size()), flow)
  }

  lemma FlipGain(net: Net, flow: set<Arc>, e: FlowEdge, phi: FlowNode -> int)
    requires net.Available(flow, e)
    ensures Sum(Flip(flow, e), Gain(phi)) == Sum(flow, Gain(phi)) + phi(Head(e)) - phi(Tail(e))
  {
    if e.residual {
      SumRemove(flow, Gain(phi), e.arc);
    } else {
      SumAdd(flow, Gain(phi), e.arc);
    }
  }

  /** Everything Bellman-Ford leaves behind, for the flow it ran on. */
  ghost predicate Exact(net: Net, flow: set<Arc>, p: seq<int>, l: Labels, stamp: seq<nat>) {
    && Bounded(net, flow, p, l) && |stamp| == net.Size()
    && (forall v :: 0 <= v < net.Size() ==> ExactAt(net, flow, p, l, stamp, v))
  }

  /** A labelled node's predecessor edge is free, tight, earlier stamped and no farther in reduced cost. */
  ghost predicate ExactAt(net: Net, flow: set<Arc>, p: seq<int>, l: Labels, stamp: seq<nat>, v: FlowNode)
    requires Shaped(net, l) && |stamp| == net.Size() && |p| == net.Size() && v < net.Size()
  {
    if l.prev[v] == NoEdge then
      v == net.Source() || l.dist[v] == UNREACHED
    else
      var e := l.prev[v].edge;
      && v != net.Source()
      && net.Available(flow, e) && Head(e) == v && Tail(e) < net.Size()
      && l.dist[v] == l.dist[Tail(e)] + net.CostOf(e)
      && stamp[Tail(e)] < stamp[v]
      && l.dist[Tail(e)] - p[Tail(e)] <= l.dist[v] - p[v]
  }

  lemma FinalExact(net: Net, flow: set<Arc>, p: seq<int>) returns (stamp: seq<nat>)
    requires net.Potential(flow, p) && net.Costed()
    ensures Exact(net, flow, p, Final(net, flow), stamp)
  {
    var now;
    Converges(net, flow, p);
    stamp, now := RoundsTraced(net, flow, p, MaxRounds(net));
    var l := Final(net, flow);
    forall v | 0 <= v < net.Size() ensures ExactAt(net, flow, p, l, stamp, v) {
      assert PrevOk(net, flow, l, stamp, v);
      if l.prev[v] != NoEdge {
        var e := l.prev[v].edge;
        assert FlowEdge(e.arc, e.residual) in net.list;
        var j :| 0 <= j < |net.list| && net.list[j] == e;
      }
    }
  }

  /** Arc `a` is the arc of the predecessor edge of a node met on the walk back from `v`. */
  ghost predicate OnWalk(net: Net, p: seq<int>, l: Labels, stamp: seq<nat>, v: FlowNode, w: FlowNode, e: FlowEdge)
    requires Shaped(net, l) && |stamp| == net.Size() && |p| == net.Size() && v < net.Size()
  {
    && w < net.Size() && l.prev[w] == Via(e)
    && stamp[w] <= stamp[v] && l.dist[w] - p[w] <= l.dist[v] - p[v]
  }

  /** The walk has not yet touched the predecessor edges at or before `v`. */
  ghost predicate Untouched(net: Net, l: Labels, stamp: seq<nat>, v: FlowNode, flow: set<Arc>)
    requires Shaped(net, l) && |stamp| == net.Size() && v < net.Size()
  {
    forall w :: 0 <= w < net.Size() && stamp[w] <= stamp[v] && l.prev[w] != NoEdge ==>
      net.Available(flow, l.prev[w].edge)
  }

  lemma StepBack(net: Net, flow0: set<Arc>, p: seq<int>, l: Labels, stamp: seq<nat>, v: FlowNode, flow: set<Arc>)
    requires Exact(net, flow0, p, l, stamp) && v < net.Size() && l.prev[v] != NoEdge
    requires Tail(l.prev[v].edge) < net.Size()
    requires Untouched(net, l, stamp, v, flow)
    ensures Untouched(net, l, stamp, Tail(l.prev[v].edge), Flip(flow, l.prev[v].edge))
  {
    var e := l.prev[v].edge;
    assert ExactAt(net, flow0, p, l, stamp, v);
    forall w | 0 <= w < net.Size() && stamp[w] <= stamp[Tail(e)] && l.prev[w] != NoEdge
      ensures net.Available(Flip(flow, e), l.prev[w].edge)
    {
      assert ExactAt(net, flow0, p, l, stamp, w);
      assert l.prev[w].edge.arc != e.arc;
    }
  }

  /**
   * The walk back from a node nearer than the unreached bound ends at the source: it adds one
   * unit from the source to that node and changes only arcs of predecessor edges it met.
   */
  lemma {:induction false} PushEffect(net: Net, flow0: set<Arc>, p: seq<int>, l: Labels, stamp: seq<nat>,
                                      v: FlowNode, unmet: set<FlowNode>, flow: set<Arc>)
    requires Exact(net, flow0, p, l, stamp) && v < net.Size()
    requires l.dist[v] - p[v] < UNREACHED - p[net.Sink()]
    requires forall u :: u in unmet ==> u < net.Size()
    requires forall u :: 0 <= u < net.Size() && stamp[u] <= stamp[v] ==> u in unmet
    requires Untouched(net, l, stamp, v, flow)
    ensures forall phi: FlowNode -> int ::
              Sum(Push(net, l, v, unmet, flow), Gain(phi)) == Sum(flow, Gain(phi)) + phi(v) - phi(net.Source())
    ensures forall a :: (a in Push(net, l, v, unmet, flow)) != (a in flow) ==>
              exists w, e :: OnWalk(net, p, l, stamp, v, w, e) && e.arc == a && (e.residual <==> a in flow)
    decreases stamp[v]
  {
    assert ExactAt(net, flow0, p, l, stamp, v);
    if v != net.Source() {
      var e := l.prev[v].edge;
      var u := Tail(e);
      StepBack(net, flow0, p, l, stamp, v, flow);
      PushEffect(net, flow0, p, l, stamp, u, unmet - {v}, Flip(flow, e));
      var result := Push(net, l, v, unmet, flow);
      forall phi: FlowNode -> int
        ensures Sum(result, Gain(phi)) == Sum(flow, Gain(phi)) + phi(v) - phi(net.Source())
      {
        FlipGain(net, flow, e, phi);
      }
      forall a | (a in result) != (a in flow)
        ensures exists w, e :: OnWalk(net, p, l, stamp, v, w, e) && e.arc == a && (e.residual <==> a in flow)
      {
        PushChange(net, p, l, stamp, v, flow, a, result);
      }
    }
  }

  lemma PushChange(net: Net, p: seq<int>, l: Labels, stamp: seq<nat>, v: FlowNode, flow: set<Arc>, a: Arc,
                   result: set<Arc>)
    requires Shaped(net, l) && |stamp| == net.Size() && |p| == net.Size() && v < net.Size() && l.prev[v] != NoEdge
    requires var e := l.prev[v].edge;
             && Tail(e) < net.Size() && stamp[Tail(e)] < stamp[v] && net.Available(flow, e)
             && l.dist[Tail(e)] - p[Tail(e)] <= l.dist[v] - p[v]
             && ((a in result) != (a in Flip(flow, e)) ==>
                  exists w, e' ::
                    OnWalk(net, p, l, stamp, Tail(e), w, e') && e'.arc == a && (e'.residual <==> a in Flip(flow, e)))
    requires (a in result) != (a in flow)
    ensures exists w, e :: OnWalk(net, p, l, stamp, v, w, e) && e.arc == a && (e.residual <==> a in flow)
  {
    var e := l.prev[v].edge;
    if a == e.arc {
      assert OnWalk(net, p, l, stamp, v, v, e);
    } else {
      var w, e' :| OnWalk(net, p, l, stamp, Tail(e), w, e') && e'.arc == a && (e'.residual <==> a in Flip(flow, e));
      assert OnWalk(net, p, l, stamp, v, w, e');
    }
  }

  /** The walk has come back to `v` with flow `flow` and will end with the flow `goal`. */
  ghost predicate Walking(net: Net, flow0: set<Arc>, p: seq<int>, l: Labels, stamp: seq<nat>,
                          v: FlowNode, unmet: set<FlowNode>, flow: set<Arc>, goal: set<Arc>) {
    && Exact(net, flow0, p, l, stamp) && v < net.Size()
    && l.dist[v] - p[v] < UNREACHED - p[net.Sink()]
    && (forall u :: u in unmet ==> u < net.Size())
    && (forall u :: 0 <= u < net.Size() && stamp[u] <= stamp[v] ==> u in unmet)
    && Untouched(net, l, stamp, v, flow)
    && Push(net, l, v, unmet, flow) == goal
  }

  /** Away from the source there is always a free predecessor edge to step back over. */
  lemma WalkStep(net: Net, flow0: set<Arc>, p: seq<int>, l: Labels, stamp: seq<nat>,
                 v: FlowNode, unmet: set<FlowNode>, flow: set<Arc>, goal: set<Arc>)
    requires Walking(net, flow0, p, l, stamp, v, unmet, flow, goal) && v != net.Source()
    ensures l.prev[v] != NoEdge
    ensures var e := l.prev[v].edge;
            && net.Available(flow, e) && Tail(e) < net.Size() && stamp[Tail(e)] < stamp[v]
            && Walking(net, flow0, p, l, stamp, Tail(e), unmet - {v}, Flip(flow, e), goal)
  {
    assert ExactAt(net, flow0, p, l, stamp, v);
    StepBack(net, flow0, p, l, stamp, v, flow);
  }
}

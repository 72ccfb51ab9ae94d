/**
 * Successive shortest augmenting paths: what the loop of `MultiPath_Compute` over path
 * indices keeps, and why the flow it ends with is of least cost.
 */
module SuccessivePaths {
  import opened FlowNetwork
  import opened BellmanFord
  import opened FlowSums
  import opened Augmentation

  /** The paths found and the arcs left with flow. */
  datatype Run = Run(flow: set<Arc>, found: nat)

  /** The state after the loop has been allowed `k` paths. */
  function Compute(net: Net, k: nat): (r: Run)
    requires net.Valid()
    ensures r.found <= k
  {
    if k == 0 then Run({}, 0)
    else
      var r := Compute(net, k - 1);
      if r.found == k - 1 && Reached(net, r.flow) then Run(Augment(net, r.flow), k) else r
  }

  ghost predicate Sound(net: Net, flow: set<Arc>, r: nat) {
    && net.Valid() && Carries(net, flow, r)
    && (forall a :: a in flow ==> a in net.cost && End(a) != net.Source() && Start(a) != net.Sink())
  }

  function Min(a: int, b: int): int { if a <= b then a else b }

  /** The potential for the next pass: reduced distances, cut off at the sink's. */
  function NextPotential(net: Net, p: seq<int>, dist: seq<int>): (q: seq<int>)
    requires net.Valid() && |p| == net.Size() && |dist| == net.Size()
    ensures |q| == net.Size()
    ensures forall v :: 0 <= v < |q| ==> q[v] == Min(dist[v], p[v] + dist[net.Sink()] - p[net.Sink()])
  {
    seq(net.Size(), v requires 0 <= v < net.Size() => Min(dist[v], p[v] + dist[net.Sink()] - p[net.Sink()]))
  }

  /** Stable labels give a potential for the flow they were computed on, reached or not. */
  lemma NextRelaxed(net: Net, flow: set<Arc>, p: seq<int>, l: Labels)
    requires Bounded(net, flow, p, l) && net.Relaxed(flow, l.dist)
    ensures net.Relaxed(flow, NextPotential(net, p, l.dist))
  {
  }

  /** Flipping a tight predecessor edge on the walk frees its twin at reduced cost zero. */
  lemma AugmentRelaxed(net: Net, flow: set<Arc>, p: seq<int>, l: Labels, stamp: seq<nat>, flow': set<Arc>)
    requires Exact(net, flow, p, l, stamp) && net.Relaxed(flow, l.dist)
    requires forall a :: (a in flow') != (a in flow) ==>
               exists w, e :: OnWalk(net, p, l, stamp, net.Sink(), w, e) && e.arc == a && (e.residual <==> a in flow)
    ensures net.Relaxed(flow', NextPotential(net, p, l.dist))
  {
    NextRelaxed(net, flow, p, l);
    var q := NextPotential(net, p, l.dist);
    forall j | 0 <= j < |net.list| && net.Available(flow', net.list[j])
      ensures q[Head(net.list[j])] <= q[Tail(net.list[j])] + net.CostOf(net.list[j])
    {
      var f := net.list[j];
      if !net.Available(flow, f) {
        var w, e :| OnWalk(net, p, l, stamp, net.Sink(), w, e) && e.arc == f.arc && (e.residual <==> f.arc in flow);
        assert ExactAt(net, flow, p, l, stamp, w);
        assert Tail(f) == Head(e) == w && Head(f) == Tail(e) && net.CostOf(f) == -net.CostOf(e);
      }
    }
  }

  /**
   * One pass: from a sound flow with a potential, Bellman-Ford converges, and if the sink is
   * reached the walk back adds one unit, keeps the flow sound and leaves a potential again.
   */
  lemma AugmentKeeps(net: Net, flow: set<Arc>, r: nat, p: seq<int>) returns (q: seq<int>)
    requires Sound(net, flow, r) && net.Potential(flow, p) && net.Costed() && Reached(net, flow)
    ensures Sound(net, Augment(net, flow), r + 1) && net.Potential(Augment(net, flow), q)
  {
    var l := Final(net, flow);
    Converges(net, flow, p);
    var stamp := FinalExact(net, flow, p);
    var t := net.Sink();
    var flow' := Augment(net, flow);
    assert Untouched(net, l, stamp, t, flow) by { UntouchedAtFirst(net, flow, p, l, stamp, t); }
    PushEffect(net, flow, p, l, stamp, t, Upto(net.Size()), flow);
    AugmentRelaxed(net, flow, p, l, stamp, flow');
    q := NextPotential(net, p, l.dist);
    AugmentCarries(net, flow, r, flow');
    forall a | a in flow' ensures a in net.cost && End(a) != net.Source() && Start(a) != net.Sink() {
      if a !in flow {
        var w, e :| OnWalk(net, p, l, stamp, t, w, e) && e.arc == a && (e.residual <==> a in flow);
        assert ExactAt(net, flow, p, l, stamp, w);
      }
    }
  }

  lemma UntouchedAtFirst(net: Net, flow: set<Arc>, p: seq<int>, l: Labels, stamp: seq<nat>, v: FlowNode)
    requires Exact(net, flow, p, l, stamp) && v < net.Size()
    ensures Untouched(net, l, stamp, v, flow)
  {
    forall w | 0 <= w < net.Size() && stamp[w] <= stamp[v] && l.prev[w] != NoEdge
      ensures net.Available(flow, l.prev[w].edge)
    {
      assert ExactAt(net, flow, p, l, stamp, w);
    }
  }

  /** The walk the code starts at the sink when it is reached. */
  lemma WalkStarts(net: Net, flow: set<Arc>, p: seq<int>) returns (stamp: seq<nat>)
    requires net.Potential(flow, p) && net.Costed() && Reached(net, flow)
    ensures Walking(net, flow, p, Final(net, flow), stamp, net.Sink(), Upto(net.Size()), flow, Augment(net, flow))
  {
    Converges(net, flow, p);
    stamp := FinalExact(net, flow, p);
    UntouchedAtFirst(net, flow, p, Final(net, flow), stamp, net.Sink());
  }

  lemma AugmentCarries(net: Net, flow: set<Arc>, r: nat, flow': set<Arc>)
    requires Carries(net, flow, r)
    requires forall phi: FlowNode -> int ::
               Sum(flow', Gain(phi)) == Sum(flow, Gain(phi)) + phi(net.Sink()) - phi(net.Source())
    ensures Carries(net, flow', r + 1)
  {
    forall phi: FlowNode -> int
      ensures Sum(flow', Gain(phi)) == (r + 1) * (phi(net.Sink()) - phi(net.Source()))
    {
      var d := phi(net.Sink()) - phi(net.Source());
      assert (r + 1) * d == r * d + d;
    }
  }

  /** In every pass of every run the flow is sound and has a potential. */
  lemma {:induction false} ComputeKeeps(net: Net, k: nat) returns (p: seq<int>)
    requires net.Valid() && net.Costed()
    ensures var r := Compute(net, k);
            Sound(net, r.flow, r.found) && net.Potential(r.flow, p)
  {
    if k == 0 {
      p := seq(net.Size(), _ => 0);
    } else {
      p := ComputeKeeps(net, k - 1);
      var r := Compute(net, k - 1);
      if r.found == k - 1 && Reached(net, r.flow) {
        p := AugmentKeeps(net, r.flow, r.found, p);
      }
    }
  }
}

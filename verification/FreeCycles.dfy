/**
 * A network on which the flow found is more than its paths. Two links of cost zero form a cycle
 * (nodes 2 and 3): the first path runs over one of them, the second path leads both paths around,
 * but cancels the detour over the other link and so leaves the cycle with flow.
 */
module FreeCycles {
  import opened FlowNetwork
  import opened BellmanFord
  import opened Augmentation
  import opened SuccessivePaths
  import opened PathFamilies
  import opened Optimality
  import opened MultiPath

  predicate Present(a: Arc) {
    match a
    case Internal(i) => i < 6
    case Link(s, d) => (s, d) in {(0, 1), (1, 2), (2, 3), (3, 4), (4, 5), (3, 2), (0, 4), (1, 5)}
  }

  function Fee(a: Arc): int { if a == Link(0, 4) || a == Link(1, 5) then 1 else 0 }

  /** The network, in any order of the edge list that puts links before internal edges. */
  ghost predicate Loop(net: Net) {
    && net.Valid() && net.Costed() && net.nodes == 6 && net.me == 0 && net.dest == 5
    && (forall a :: a in net.cost <==> Present(a)) && (forall a :: a in net.cost ==> net.cost[a] == Fee(a))
    && (forall i, j :: 0 <= i < j < |net.list| && net.list[i].arc.Internal? ==> net.list[j].arc.Internal?)
  }

  function Real(a: Arc): FlowEdge { FlowEdge(a, false) }

  function Twin(a: Arc): FlowEdge { FlowEdge(a, true) }

  /** Labels under which a free edge is relaxed. */
  lemma AtEdge(net: Net, flow: set<Arc>, d: seq<int>, e: FlowEdge)
    requires Loop(net) && |d| == net.Size() && net.Relaxed(flow, d) && net.Available(flow, e)
    ensures Head(e) < net.Size() && Tail(e) < net.Size() && d[Head(e)] <= d[Tail(e)] + net.CostOf(e)
  {
    assert FlowEdge(e.arc, e.residual) in net.list;
    var j :| 0 <= j < |net.list| && net.list[j] == e;
  }

  /** One step of the walk back from the sink. */
  lemma PushOne(net: Net, l: Labels, v: FlowNode, unmet: set<FlowNode>, flow: set<Arc>, e: FlowEdge, flow': set<Arc>)
      returns (rest: set<FlowNode>)
    requires (forall u :: u in unmet ==> u < |l.prev|) && v in unmet && v != net.Source() && l.prev[v] == Via(e)
    requires flow' == if e.residual then flow - {e.arc} else flow + {e.arc}
    ensures rest == unmet - {v} && Push(net, l, v, unmet, flow) == Push(net, l, Tail(e), rest, flow')
  {
    rest := unmet - {v};
  }

  // ----- The first path -----

  ghost function FlowOne(): set<Arc> {
    {} + {Link(4, 5)} + {Internal(4)} + {Link(3, 4)} + {Internal(3)} + {Link(2, 3)} + {Internal(2)} + {Link(1, 2)}
    + {Internal(1)} + {Link(0, 1)}
  }

  /** The arcs of the first path. */
  predicate First(a: Arc) {
    match a
    case Internal(i) => 1 <= i <= 4
    case Link(s, d) => s < 5 && d == s + 1
  }

  lemma FlowOneIs()
    ensures forall a :: a in FlowOne() <==> First(a)
  {
  }

  lemma ZeroPotential(net: Net, p: seq<int>)
    requires Loop(net) && p == seq(12, _ => 0)
    ensures net.Potential({}, p)
  {
  }

  /** All labels on the way are zero. */
  lemma FirstLabels(net: Net, p: seq<int>, d: seq<int>)
    requires Loop(net) && p == seq(12, _ => 0) && |d| == 12 && net.Relaxed({}, d) && d[1] == 0
    requires forall v :: 0 <= v < 12 ==> 0 <= d[v]
    ensures forall v :: 1 <= v <= 10 ==> d[v] == 0
  {
    AtEdge(net, {}, d, Real(Link(0, 1)));
    AtEdge(net, {}, d, Real(Internal(1)));
    AtEdge(net, {}, d, Real(Link(1, 2)));
    AtEdge(net, {}, d, Real(Internal(2)));
    AtEdge(net, {}, d, Real(Link(2, 3)));
    AtEdge(net, {}, d, Real(Internal(3)));
    AtEdge(net, {}, d, Real(Link(3, 4)));
    AtEdge(net, {}, d, Real(Internal(4)));
    AtEdge(net, {}, d, Real(Link(4, 5)));
  }

  /** The predecessor edges into every node on the way. */
  lemma FirstPrev(net: Net, l: Labels, p: seq<int>, stamp: seq<nat>, v: FlowNode)
    requires Loop(net) && p == seq(12, _ => 0) && Exact(net, {}, p, l, stamp) && 2 <= v <= 10
    requires forall u :: 1 <= u <= 10 ==> l.dist[u] == 0
    ensures l.prev[v].Via? && Tail(l.prev[v].edge) < 12 && stamp[Tail(l.prev[v].edge)] < stamp[v]
    ensures v % 2 == 1 ==> l.prev[v] == Via(Real(Internal(v / 2)))
    ensures v == 2 ==> l.prev[v] == Via(Real(Link(0, 1)))
    ensures v == 4 ==> l.prev[v] == Via(Real(Link(1, 2))) || l.prev[v] == Via(Real(Link(3, 2)))
    ensures v == 6 ==> l.prev[v] == Via(Real(Link(2, 3)))
    ensures v == 8 ==> l.prev[v] == Via(Real(Link(3, 4)))
    ensures v == 10 ==> l.prev[v] == Via(Real(Link(4, 5)))
  {
    assert ExactAt(net, {}, p, l, stamp, v);
    var e := l.prev[v].edge;
    assert Present(e.arc);
  }

  /** The predecessor edges of the first path. */
  ghost predicate WayOne(l: Labels) {
    && |l.prev| == 12
    && l.prev[10] == Via(Real(Link(4, 5))) && l.prev[9] == Via(Real(Internal(4))) && l.prev[8] == Via(Real(Link(3, 4)))
    && l.prev[7] == Via(Real(Internal(3))) && l.prev[6] == Via(Real(Link(2, 3))) && l.prev[5] == Via(Real(Internal(2)))
    && l.prev[4] == Via(Real(Link(1, 2))) && l.prev[3] == Via(Real(Internal(1))) && l.prev[2] == Via(Real(Link(0, 1)))
  }

  /** The way back from the sink cannot turn to node 3 at node 2: it came from there. */
  lemma FirstBack(net: Net, l: Labels, p: seq<int>, stamp: seq<nat>)
    requires Loop(net) && p == seq(12, _ => 0) && Exact(net, {}, p, l, stamp)
    requires forall u :: 1 <= u <= 10 ==> l.dist[u] == 0
    ensures WayOne(l)
  {
    FirstPrev(net, l, p, stamp, 10);
    FirstPrev(net, l, p, stamp, 9);
    FirstPrev(net, l, p, stamp, 8);
    FirstPrev(net, l, p, stamp, 7);
    FirstPrev(net, l, p, stamp, 6);
    FirstPrev(net, l, p, stamp, 5);
    FirstPrev(net, l, p, stamp, 4);
    FirstPrev(net, l, p, stamp, 3);
    FirstPrev(net, l, p, stamp, 2);
  }

  lemma FirstHalf(net: Net, l: Labels, unmet: set<FlowNode>, flow: set<Arc>) returns (rest: set<FlowNode>)
    requires net.me == 0 && WayOne(l) && forall u :: u in unmet <==> 0 <= u < 12
    ensures forall u :: u in rest <==> 0 <= u < 7 || u == 11
    ensures Push(net, l, 10, unmet, flow) ==
            Push(net, l, 6, rest, flow + {Link(4, 5)} + {Internal(4)} + {Link(3, 4)} + {Internal(3)})
  {
    rest := PushOne(net, l, 10, unmet, flow, Real(Link(4, 5)), flow + {Link(4, 5)});
    rest := PushOne(net, l, 9, rest, flow + {Link(4, 5)}, Real(Internal(4)), flow + {Link(4, 5)} + {Internal(4)});
    var mid := flow + {Link(4, 5)} + {Internal(4)};
    rest := PushOne(net, l, 8, rest, mid, Real(Link(3, 4)), mid + {Link(3, 4)});
    rest := PushOne(net, l, 7, rest, mid + {Link(3, 4)}, Real(Internal(3)), mid + {Link(3, 4)} + {Internal(3)});
  }

  lemma SecondHalf(net: Net, l: Labels, unmet: set<FlowNode>, flow: set<Arc>)
    requires net.me == 0 && WayOne(l) && forall u :: u in unmet <==> 0 <= u < 7 || u == 11
    ensures Push(net, l, 6, unmet, flow) ==
            flow + {Link(2, 3)} + {Internal(2)} + {Link(1, 2)} + {Internal(1)} + {Link(0, 1)}
  {
    var rest := PushOne(net, l, 6, unmet, flow, Real(Link(2, 3)), flow + {Link(2, 3)});
    rest := PushOne(net, l, 5, rest, flow + {Link(2, 3)}, Real(Internal(2)), flow + {Link(2, 3)} + {Internal(2)});
    var mid := flow + {Link(2, 3)} + {Internal(2)};
    rest := PushOne(net, l, 4, rest, mid, Real(Link(1, 2)), mid + {Link(1, 2)});
    rest := PushOne(net, l, 3, rest, mid + {Link(1, 2)}, Real(Internal(1)), mid + {Link(1, 2)} + {Internal(1)});
    var far := mid + {Link(1, 2)} + {Internal(1)};
    rest := PushOne(net, l, 2, rest, far, Real(Link(0, 1)), far + {Link(0, 1)});
  }

  lemma FirstPush(net: Net, l: Labels)
    requires net.me == 0 && WayOne(l)
    ensures Push(net, l, 10, Upto(12), {}) == FlowOne()
  {
    var rest := FirstHalf(net, l, Upto(12), {});
    SecondHalf(net, l, rest, {} + {Link(4, 5)} + {Internal(4)} + {Link(3, 4)} + {Internal(3)});
  }

  lemma FirstPass(net: Net)
    requires Loop(net)
    ensures Reached(net, {}) && Augment(net, {}) == FlowOne()
  {
    var p := seq(12, _ => 0);
    ZeroPotential(net, p);
    Converges(net, {}, p);
    var stamp := FinalExact(net, {}, p);
    var l := Final(net, {});
    FirstLabels(net, p, l.dist);
    FirstBack(net, l, p, stamp);
    FirstPush(net, l);
  }

  // ----- The second path -----

  ghost function FlowTwo(): set<Arc> {
    FlowOne() + {Link(1, 5)} - {Link(1, 2)} + {Link(3, 2)} - {Link(3, 4)} + {Link(0, 4)}
  }

  ghost function Potential2(): seq<int> { [0, 0, 1, 1, 1, 1, 1, 1, 1, 2, 2, 2] }

  /** The edges free beside the first path. */
  ghost predicate Beside(net: Net, e: FlowEdge) {
    if e.residual then First(e.arc) && net.CostOf(e) == 0
    else net.CostOf(e) == Fee(e.arc) &&
         (e.arc == Link(3, 2) || e.arc == Link(0, 4) || e.arc == Link(1, 5)
          || e.arc == Internal(0) || e.arc == Internal(5))
  }

  lemma FreeEdges(net: Net, e: FlowEdge)
    requires Loop(net)
    ensures net.Available(FlowOne(), e) <==> Beside(net, e)
  {
    FlowOneIs();
    assert e.arc in net.cost <==> Present(e.arc);
  }

  lemma PotentialAt(net: Net, e: FlowEdge)
    requires Beside(net, e)
    ensures Head(e) < 12 && Tail(e) < 12 && Potential2()[Head(e)] <= Potential2()[Tail(e)] + net.CostOf(e)
  {
  }

  lemma SecondPotential(net: Net)
    requires Loop(net)
    ensures net.Potential(FlowOne(), Potential2())
  {
    var p := Potential2();
    forall j | 0 <= j < |net.list| && net.Available(FlowOne(), net.list[j])
      ensures p[Head(net.list[j])] <= p[Tail(net.list[j])] + net.CostOf(net.list[j])
    {
      FreeEdges(net, net.list[j]);
      PotentialAt(net, net.list[j]);
    }
  }

  lemma SecondLabels(net: Net, d: seq<int>)
    requires Loop(net) && |d| == 12 && net.Relaxed(FlowOne(), d) && d[1] == 0
    requires forall v :: 0 <= v < 12 ==> Potential2()[v] <= d[v]
    ensures forall v :: 1 <= v <= 10 ==> d[v] == Potential2()[v]
  {
    var f := FlowOne();
    FlowOneIs();
    AtEdge(net, f, d, Real(Link(0, 4)));
    AtEdge(net, f, d, Twin(Link(3, 4)));
    AtEdge(net, f, d, Twin(Internal(3)));
    AtEdge(net, f, d, Twin(Link(2, 3)));
    AtEdge(net, f, d, Twin(Internal(2)));
    AtEdge(net, f, d, Twin(Link(1, 2)));
    AtEdge(net, f, d, Twin(Internal(1)));
    AtEdge(net, f, d, Real(Link(1, 5)));
    AtEdge(net, f, d, Twin(Link(4, 5)));
  }

  /** The only tight edges into the nodes of the second path, but for node 2, which has two. */
  lemma TightEdge(net: Net, e: FlowEdge, d: seq<int>)
    requires Beside(net, e) && |d| == 12 && Head(e) < 12 && Tail(e) < 12 && d[Head(e)] == d[Tail(e)] + net.CostOf(e)
    requires forall u :: 1 <= u <= 10 ==> d[u] == Potential2()[u]
    ensures Head(e) == 10 ==> e == Real(Link(1, 5))
    ensures Head(e) == 3 ==> e == Twin(Link(1, 2))
    ensures Head(e) == 7 ==> e == Twin(Link(3, 4))
    ensures Head(e) == 8 ==> e == Real(Link(0, 4))
  {
  }

  lemma SecondPrev(net: Net, l: Labels, stamp: seq<nat>, v: FlowNode)
    requires Loop(net) && Exact(net, FlowOne(), Potential2(), l, stamp) && 2 <= v <= 10
    requires forall u :: 1 <= u <= 10 ==> l.dist[u] == Potential2()[u]
    ensures l.prev[v].Via?
    ensures v == 10 ==> l.prev[v] == Via(Real(Link(1, 5)))
    ensures v == 3 ==> l.prev[v] == Via(Twin(Link(1, 2)))
    ensures v == 7 ==> l.prev[v] == Via(Twin(Link(3, 4)))
    ensures v == 8 ==> l.prev[v] == Via(Real(Link(0, 4)))
  {
    assert ExactAt(net, FlowOne(), Potential2(), l, stamp, v);
    FreeEdges(net, l.prev[v].edge);
    TightEdge(net, l.prev[v].edge, l.dist);
  }

  ghost predicate WayTwo(l: Labels) {
    && |l.prev| == 12
    && l.prev[10] == Via(Real(Link(1, 5))) && l.prev[3] == Via(Twin(Link(1, 2))) && l.prev[4] == Via(Real(Link(3, 2)))
    && l.prev[7] == Via(Twin(Link(3, 4))) && l.prev[8] == Via(Real(Link(0, 4)))
  }

  lemma SecondWalk(net: Net, l: Labels, unmet: set<FlowNode>, flow: set<Arc>)
    requires net.me == 0 && WayTwo(l) && forall u :: u in unmet <==> 0 <= u < 12
    ensures Push(net, l, 10, unmet, flow) ==
            flow + {Link(1, 5)} - {Link(1, 2)} + {Link(3, 2)} - {Link(3, 4)} + {Link(0, 4)}
  {
    var rest := PushOne(net, l, 10, unmet, flow, Real(Link(1, 5)), flow + {Link(1, 5)});
    rest := PushOne(net, l, 3, rest, flow + {Link(1, 5)}, Twin(Link(1, 2)), flow + {Link(1, 5)} - {Link(1, 2)});
    var mid := flow + {Link(1, 5)} - {Link(1, 2)};
    rest := PushOne(net, l, 4, rest, mid, Real(Link(3, 2)), mid + {Link(3, 2)});
    rest := PushOne(net, l, 7, rest, mid + {Link(3, 2)}, Twin(Link(3, 4)), mid + {Link(3, 2)} - {Link(3, 4)});
    var far := mid + {Link(3, 2)} - {Link(3, 4)};
    rest := PushOne(net, l, 8, rest, far, Real(Link(0, 4)), far + {Link(0, 4)});
  }

  lemma SecondPush(net: Net, l: Labels)
    requires net.me == 0 && WayTwo(l)
    ensures Push(net, l, 10, Upto(12), FlowOne()) == FlowTwo()
  {
    SecondWalk(net, l, Upto(12), FlowOne());
  }

  // ----- Why node 2 is entered from node 3 in the second pass -----

  /** What every relaxation of the second pass keeps. */
  ghost predicate Keeps(l: Labels) {
    && |l.dist| == 12 == |l.prev| && l.dist[1] == 0
    && (forall v :: 0 <= v < 12 && v != 1 ==> (l.dist[8] == UNREACHED ==> l.dist[v] == UNREACHED))
    && (forall v :: 0 <= v < 12 ==> Potential2()[v] <= l.dist[v] <= UNREACHED)
    && (forall v :: 4 <= v <= 8 ==> l.dist[v] == 1 || l.dist[v] == UNREACHED)
    && (l.dist[4] == 1 ==> l.prev[4] == Via(Real(Link(3, 2))))
  }

  /** Between sweeps, and while the internal edges are swept. */
  ghost predicate Outside(l: Labels) {
    Keeps(l) && (l.dist[6] == 1 ==> l.dist[7] == 1) && (l.dist[5] == 1 ==> l.dist[4] == 1)
  }

  /** While the links are swept, from labels `l0` on; `met` tells whether the link from 3 to 2 has been. */
  ghost predicate Inside(l0: Labels, l: Labels, met: bool) {
    && Keeps(l) && Outside(l0) && l.dist[6] == l0.dist[6] && (l0.dist[7] == 1 ==> l.dist[7] == 1)
    && (l.dist[5] == 1 ==> l.dist[4] == 1 || l0.dist[7] == 1)
    && (met && l0.dist[7] == 1 ==> l.dist[4] == 1)
  }

  /** The labels after an edge into `v` improved them to `d`. */
  predicate Written(l: Labels, l': Labels, e: FlowEdge, d: int) {
    && Head(e) < |l.dist| == |l.prev| && Tail(e) < |l.dist| && l.dist[Head(e)] > d
    && l'.dist == l.dist[Head(e) := d] && l'.prev == l.prev[Head(e) := Via(e)]
  }

  lemma Improvement(net: Net, l: Labels, e: FlowEdge)
    requires Loop(net) && Keeps(l) && Tail(e) < 12 && Head(e) < 12 && Improves(net, FlowOne(), l, e)
    ensures Beside(net, e) && Written(l, Relax(net, FlowOne(), l, e), e, l.dist[Tail(e)] + net.CostOf(e))
  {
    FreeEdges(net, e);
    PotentialAt(net, e);
  }

  lemma RealLink(l0: Labels, l: Labels, met: bool, e: FlowEdge, l': Labels)
    requires Inside(l0, l, met) && Tail(e) < 12 && Written(l, l', e, l.dist[Tail(e)] + Fee(e.arc))
    requires !e.residual && (e.arc == Link(3, 2) || e.arc == Link(0, 4) || e.arc == Link(1, 5))
    ensures Inside(l0, l', met || e == Real(Link(3, 2)))
  {
  }

  lemma TwinLink(l0: Labels, l: Labels, met: bool, e: FlowEdge, l': Labels)
    requires Inside(l0, l, met) && Tail(e) < 12 && Written(l, l', e, l.dist[Tail(e)])
    requires e.residual && e.arc.Link? && First(e.arc)
    ensures Inside(l0, l', met)
  {
  }

  /** A link relaxed. */
  lemma LinkStep(net: Net, l0: Labels, l: Labels, met: bool, e: FlowEdge)
    requires Loop(net) && Inside(l0, l, met) && e.arc.Link? && Tail(e) < 12 && Head(e) < 12
    ensures Inside(l0, Relax(net, FlowOne(), l, e), met || e == Real(Link(3, 2)))
  {
    FreeEdges(net, e);
    if Improves(net, FlowOne(), l, e) {
      Improvement(net, l, e);
      if e.residual {
        TwinLink(l0, l, met, e, Relax(net, FlowOne(), l, e));
      } else {
        RealLink(l0, l, met, e, Relax(net, FlowOne(), l, e));
      }
    }
  }

  lemma InternalWritten(l: Labels, e: FlowEdge, l': Labels)
    requires Outside(l) && Tail(e) < 12 && Written(l, l', e, l.dist[Tail(e)]) && e.arc.Internal?
    requires if e.residual then First(e.arc) else e.arc == Internal(0) || e.arc == Internal(5)
    ensures Outside(l')
  {
  }

  /** An internal edge relaxed. */
  lemma InternalStep(net: Net, l: Labels, e: FlowEdge)
    requires Loop(net) && Outside(l) && e.arc.Internal? && Tail(e) < 12 && Head(e) < 12
    ensures Outside(Relax(net, FlowOne(), l, e))
  {
    if Improves(net, FlowOne(), l, e) {
      Improvement(net, l, e);
      InternalWritten(l, e, Relax(net, FlowOne(), l, e));
    }
  }

  // ----- Sweeps -----

  /** Where a sweep from `l0` stands after `n` edges; `at` is the place of the link from 3 to 2. */
  ghost predicate Swept(net: Net, l0: Labels, l: Labels, n: nat, at: nat) {
    if n < |net.list| && net.list[n].arc.Link? then Inside(l0, l, at < n) else Outside(l)
  }

  lemma {:induction false} SweepKeeps(net: Net, l0: Labels, n: nat, at: nat)
    requires Loop(net) && Outside(l0) && n <= |net.list| && at < |net.list| && net.list[at] == Real(Link(3, 2))
    ensures Swept(net, l0, Sweep(net, FlowOne(), l0, n), n, at)
  {
    if n == 0 {
      SweepStart(net, l0, at);
    } else {
      SweepKeeps(net, l0, n - 1, at);
      SweepStep(net, l0, Sweep(net, FlowOne(), l0, n - 1), n - 1, at);
    }
  }

  lemma SweepStart(net: Net, l0: Labels, at: nat)
    requires Outside(l0)
    ensures Swept(net, l0, l0, 0, at)
  {
  }

  lemma SweepStep(net: Net, l0: Labels, l: Labels, n: nat, at: nat)
    requires Loop(net) && Outside(l0) && n < |net.list| && at < |net.list| && net.list[at] == Real(Link(3, 2))
    requires Swept(net, l0, l, n, at)
    ensures Swept(net, l0, Relax(net, FlowOne(), l, net.list[n]), n + 1, at)
  {
    var e := net.list[n];
    if e.arc.Link? {
      LinkStep(net, l0, l, at < n, e);
    } else {
      InternalStep(net, l, e);
    }
  }

  lemma {:induction false} RoundsKeep(net: Net, n: nat)
    requires Loop(net)
    ensures Outside(Rounds(net, FlowOne(), n))
  {
    if n > 0 {
      RoundsKeep(net, n - 1);
      assert Real(Link(3, 2)) in net.list;
      var at :| 0 <= at < |net.list| && net.list[at] == Real(Link(3, 2));
      SweepKeeps(net, Rounds(net, FlowOne(), n - 1), |net.list|, at);
    }
  }

  lemma SecondPass(net: Net)
    requires Loop(net)
    ensures Reached(net, FlowOne()) && Augment(net, FlowOne()) == FlowTwo()
  {
    SecondPotential(net);
    Converges(net, FlowOne(), Potential2());
    var stamp := FinalExact(net, FlowOne(), Potential2());
    var l := Final(net, FlowOne());
    SecondLabels(net, l.dist);
    RoundsKeep(net, MaxRounds(net));
    SecondPrev(net, l, stamp, 10);
    SecondPrev(net, l, stamp, 3);
    SecondPrev(net, l, stamp, 7);
    SecondPrev(net, l, stamp, 8);
    SecondPush(net, l);
  }

  lemma {:induction false} OfSomePath(qs: seq<seq<nat>>, a: Arc) returns (i: nat)
    requires a in FamilyArcs(qs)
    ensures i < |qs| && a in Arcs(qs[i])
  {
    if a in Arcs(qs[0]) {
      i := 0;
    } else {
      i := OfSomePath(qs[1..], a);
      i := i + 1;
    }
  }

  /** Node 3 is entered from node 2 alone. */
  lemma OnlyEntry(u: nat)
    requires Link(u, 3) in FlowTwo()
    ensures u == 2
  {
  }

  /** A path that leaves node 3 to node 2 would come from node 2. */
  lemma NotOnPath(net: Net, q: seq<nat>)
    requires Loop(net) && IsPath(net, q) && Arcs(q) <= FlowTwo()
    ensures Link(3, 2) !in Arcs(q)
  {
    if Link(3, 2) in Arcs(q) {
      PathArcsMembers(q, |q| - 1);
      var k :| 0 <= k < |q| - 1 && q[k] == 3 && q[k + 1] == 2;
      OnPath(q, |q| - 1, k - 1);
      OnlyEntry(q[k - 1]);
    }
  }

  lemma NotOnPaths(net: Net, qs: seq<seq<nat>>)
    requires Loop(net) && Family(net, qs)
    ensures FamilyArcs(qs) != FlowTwo()
  {
    if FamilyArcs(qs) == FlowTwo() {
      var i := OfSomePath(qs, Link(3, 2));
      FamilyArcsInclude(qs, i);
      assert IsPath(net, qs[i]);
      NotOnPath(net, qs[i]);
    }
  }

  /**
   * On this network, with two paths asked for, two are found and the flow is not the arcs of any
   * set of disjoint paths: the links between nodes 2 and 3 stay in the bag beside them.
   */
  lemma FlowIsMoreThanPaths(net: Net)
    requires Loop(net)
    ensures Compute(net, 2) == Run(FlowTwo(), 2) && Link(2, 3) in FlowTwo() && Link(3, 2) in FlowTwo()
    ensures forall qs :: Family(net, qs) ==> FamilyArcs(qs) != Compute(net, 2).flow
  {
    FirstPass(net);
    SecondPass(net);
    assert Compute(net, 1) == Run(FlowOne(), 1);
    forall qs | Family(net, qs) ensures FamilyArcs(qs) != Compute(net, 2).flow {
      NotOnPaths(net, qs);
    }
  }

  // ----- As the daemon lays it out -----

  /** Seven links, each configured in both directions. */
  predicate Wire(s: nat, d: nat) { Present(Link(s, d)) || Present(Link(d, s)) }

  ghost predicate Wired(cfg: Config) {
    && cfg.Valid() && cfg.directed && cfg.nodes == 6 && cfg.me == 0
    && forall s: nat, d: nat :: (s, d) in cfg.edges <==> Wire(s, d)
  }

  /** The six directions not in use are down. */
  function State(s: nat, d: nat): EdgeState { EdgeState(if Present(Link(s, d)) then Fee(Link(s, d)) else -1, 0) }

  function WireCosts(cfg: Config): CostTable { map k | k in cfg.edges :: State(k.0, k.1) }

  lemma WiresAre(cfg: Config, s: nat, d: nat)
    requires Wired(cfg)
    ensures cfg.Configured(Link(s, d)) <==> Wire(s, d)
  {
    if Wire(s, d) {
      var j :| 0 <= j < |cfg.edges| && cfg.edges[j] == (s, d);
      assert cfg.Makes(j, Link(s, d));
    }
    if cfg.Configured(Link(s, d)) {
      var j :| 0 <= j < |cfg.edges| && cfg.Makes(j, Link(s, d));
      assert cfg.edges[j] in cfg.edges;
    }
  }

  lemma WireCostsOk(cfg: Config)
    requires Wired(cfg)
    ensures TableOk(cfg, WireCosts(cfg))
  {
    forall a: Arc | a.Link? && cfg.Configured(a)
      ensures (a.src, a.dst) in WireCosts(cfg) && (a.dst, a.src) in WireCosts(cfg)
    {
      WiresAre(cfg, a.src, a.dst);
      assert (a.src, a.dst) in cfg.edges && (a.dst, a.src) in cfg.edges;
    }
    forall k | k in WireCosts(cfg) ensures CostRange(WireCosts(cfg)[k]) && WireCosts(cfg)[k].cost != -32768 {
      StateRange(k.0, k.1);
    }
  }

  lemma StateRange(s: nat, d: nat)
    ensures CostRange(State(s, d)) && State(s, d).cost != -32768
  {
  }

  lemma Costs(cfg: Config, o: Layout, a: Arc)
    requires LaidOut(cfg, o) && TableOk(cfg, WireCosts(cfg))
    ensures var net := NetFor(cfg, o, WireCosts(cfg), 5, false, false);
            if cfg.Configured(a) && ArcPrice(WireCosts(cfg), a, false, false).Price?
            then a in net.cost && net.cost[a] == ArcPrice(WireCosts(cfg), a, false, false).cost
            else a !in net.cost
  {
    assert FlowEdge(a, false) in o.list <==> cfg.Configured(a);
  }

  lemma WiredArc(cfg: Config, o: Layout, a: Arc)
    requires Wired(cfg) && LaidOut(cfg, o) && TableOk(cfg, WireCosts(cfg))
    ensures var net := NetFor(cfg, o, WireCosts(cfg), 5, false, false);
            (a in net.cost <==> Present(a)) && (a in net.cost ==> net.cost[a] == Fee(a))
  {
    Costs(cfg, o, a);
    if a.Link? {
      WiresAre(cfg, a.src, a.dst);
      assert cfg.Configured(a) ==> WireCosts(cfg)[(a.src, a.dst)] == State(a.src, a.dst);
    }
  }

  /** Whatever the order of the configured edges, the list that the daemon builds gives the network above. */
  lemma WiredIsLoop(cfg: Config, o: Layout)
    requires Wired(cfg) && LaidOut(cfg, o) && InOrder(o.list) && TableOk(cfg, WireCosts(cfg))
    ensures Loop(NetFor(cfg, o, WireCosts(cfg), 5, false, false))
  {
    var net := NetFor(cfg, o, WireCosts(cfg), 5, false, false);
    NetForOk(cfg, o, WireCosts(cfg), 5, false, false);
    forall a ensures a in net.cost <==> Present(a) { WiredArc(cfg, o, a); }
    forall a | a in net.cost ensures net.cost[a] == Fee(a) { WiredArc(cfg, o, a); }
  }

  /** All wires below (s, d), in the order of the edge keys. */
  ghost predicate WiresUpTo(edges: seq<(nat, nat)>, s: nat, d: nat) {
    && (forall u: nat, v: nat :: (u, v) in edges <==> Wire(u, v) && (u < s || (u == s && v < d)))
    && (forall i, j :: 0 <= i < j < |edges| ==> edges[i] != edges[j]) && |edges| <= 6 * s + d
  }

  method Wires() returns (edges: seq<(nat, nat)>)
    ensures |edges| <= 36 && WiresUpTo(edges, 6, 0)
  {
    edges := [];
    for s := 0 to 6
      invariant WiresUpTo(edges, s, 0)
    {
      for d := 0 to 6
        invariant WiresUpTo(edges, s, d)
      {
        NextWire(edges, s, d);
        if Wire(s, d) {
          edges := edges + [(s, d)];
        }
      }
      NextRow(edges, s);
    }
  }

  lemma NextWire(edges: seq<(nat, nat)>, s: nat, d: nat)
    requires WiresUpTo(edges, s, d)
    ensures WiresUpTo(if Wire(s, d) then edges + [(s, d)] else edges, s, d + 1)
  {
    assert forall i :: 0 <= i < |edges| ==> (edges[i].0, edges[i].1) in edges;
  }

  lemma NextRow(edges: seq<(nat, nat)>, s: nat)
    requires WiresUpTo(edges, s, 6)
    ensures WiresUpTo(edges, s + 1, 0)
  {
  }

  lemma WiresWired(edges: seq<(nat, nat)>)
    requires |edges| <= 36 && WiresUpTo(edges, 6, 0)
    ensures Wired(Config(6, edges, true, 5, 0))
  {
    forall j | 0 <= j < |edges| ensures edges[j].0 < 6 && edges[j].1 < 6 {
      assert (edges[j].0, edges[j].1) in edges;
    }
  }

  /** The configuration laid out as at start-up: two paths are found, and the flow is more than paths. */
  method LoopAtStartUp() returns (cfg: Config, o: Layout)
    ensures Wired(cfg) && LaidOut(cfg, o) && TableOk(cfg, WireCosts(cfg))
    ensures var net := NetFor(cfg, o, WireCosts(cfg), 5, false, false);
            && net.Valid() && Compute(net, 2).found == 2
            && forall qs :: Family(net, qs) ==> FamilyArcs(qs) != Compute(net, 2).flow
  {
    var edges := Wires();
    cfg := Config(6, edges, true, 5, 0);
    WiresWired(edges);
    WireCostsOk(cfg);
    o := InitMultiPath(cfg);
    WiredIsLoop(cfg, o);
    FlowIsMoreThanPaths(NetFor(cfg, o, WireCosts(cfg), 5, false, false));
  }
}

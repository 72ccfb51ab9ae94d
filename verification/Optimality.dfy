/**
 * The flow found is optimal (by a potential, which is a dual solution) and is a set of
 * node-disjoint paths, up to links of cost zero.
 */
module Optimality {
  import opened FlowNetwork
  import opened BellmanFord
  import opened FlowSums
  import opened Augmentation
  import opened SuccessivePaths
  import opened PathFamilies

  function At(q: seq<int>): FlowNode -> int {
    (v: FlowNode) => if v < |q| then q[v] else 0
  }

  /** The reduced cost of an arc. */
  function Reduced(net: Net, q: seq<int>): Arc -> int {
    a => CostFn(net)(a) - Gain(At(q))(a)
  }

  lemma ReducedSign(net: Net, flow: set<Arc>, q: seq<int>, a: Arc)
    requires net.Valid() && net.Costed() && |q| == net.Size() && net.Relaxed(flow, q) && a in net.cost
    ensures a in flow ==> Reduced(net, q)(a) <= 0
    ensures a !in flow ==> Reduced(net, q)(a) >= 0
  {
    LinkRange(net, a);
    var e := FlowEdge(a, a in flow);
    assert e in net.list;
    var j :| 0 <= j < |net.list| && net.list[j] == e;
    assert net.Available(flow, net.list[j]);
    assert Gain(At(q))(a) == q[End(a)] - q[Start(a)];
  }

  /** No set of usable arcs has a smaller reduced cost than the flow itself. */
  lemma LeastReduced(net: Net, flow: set<Arc>, q: seq<int>, other: set<Arc>)
    requires net.Valid() && net.Costed() && |q| == net.Size() && net.Relaxed(flow, q)
    requires forall a :: a in flow || a in other ==> a in net.cost
    ensures Sum(other, Reduced(net, q)) >= Sum(flow, Reduced(net, q))
  {
    var f := Reduced(net, q);
    var both := flow * other;
    SumUnion(both, other - flow, f);
    assert both + (other - flow) == other;
    SumUnion(both, flow - other, f);
    assert both + (flow - other) == flow;
    forall a | a in other - flow ensures f(a) >= 0 { ReducedSign(net, flow, q, a); }
    SumNonNegative(other - flow, f);
    forall a | a in flow - other ensures f(a) <= 0 { ReducedSign(net, flow, q, a); }
    SumNonPositive(flow - other, f);
  }

  lemma {:induction false} SumNonPositive(s: set<Arc>, f: Arc -> int)
    requires forall a :: a in s ==> f(a) <= 0
    ensures Sum(s, f) <= 0
  {
    if s != {} {
      var a :| a in s;
      SumNonPositive(s - {a}, f);
      SumRemove(s, f, a);
    }
  }

  lemma CostSplits(net: Net, flow: set<Arc>, r: nat, q: seq<int>)
    requires net.Valid() && |q| == net.Size() && q[net.Source()] == 0 && Carries(net, flow, r)
    ensures Sum(flow, CostFn(net)) == Sum(flow, Reduced(net, q)) + r * q[net.Sink()]
  {
    SumPlus(flow, CostFn(net), Reduced(net, q), Gain(At(q)));
    assert Sum(flow, Gain(At(q))) == r * (At(q)(net.Sink()) - At(q)(net.Source()));
  }

  /** Weak duality: any flow of n units costs at least this much more than the given one. */
  lemma Duality(net: Net, flow: set<Arc>, r: nat, q: seq<int>, other: set<Arc>, n: nat)
    requires Sound(net, flow, r) && net.Costed() && |q| == net.Size() && net.Relaxed(flow, q) && q[net.Source()] == 0
    requires Carries(net, other, n) && forall a :: a in other ==> a in net.cost
    ensures Sum(other, CostFn(net)) >= Sum(flow, CostFn(net)) + (n - r) * q[net.Sink()]
  {
    LeastReduced(net, flow, q, other);
    CostSplits(net, flow, r, q);
    CostSplits(net, other, n, q);
    assert (n - r) * q[net.Sink()] == n * q[net.Sink()] - r * q[net.Sink()];
  }

  // ----- Decomposition into paths -----

  /** `rest` is a flow of `r` units less one unit already followed from the source to `v`. */
  ghost predicate Followed(net: Net, rest: set<Arc>, r: nat, v: FlowNode) {
    forall phi: FlowNode -> int ::
      Sum(rest, Gain(phi)) == r * (phi(net.Sink()) - phi(net.Source())) - (phi(v) - phi(net.Source()))
  }

  /** The unit followed to `v` leaves it over an arc not used before. */
  lemma NextArc(net: Net, rest: set<Arc>, r: nat, v: FlowNode) returns (a: Arc)
    requires Followed(net, rest, r, v) && net.Valid() && r > 0 && v != net.Sink()
    ensures a in rest && Start(a) == v
  {
    var phi := (u: FlowNode) => if u == v then 1 else 0;
    assert Sum(rest, Gain(phi)) < 0 by {
      var d := phi(net.Sink()) - phi(net.Source());
      assert Sum(rest, Gain(phi)) == r * d - (phi(v) - phi(net.Source()));
      if v == net.Source() { assert r * d <= -1; } else { assert r * d == 0; }
    }
    if forall a :: a in rest ==> Start(a) != v {
      SumNonNegative(rest, Gain(phi));
    }
    a :| a in rest && Start(a) == v;
  }

  lemma FollowArc(net: Net, rest: set<Arc>, r: nat, a: Arc)
    requires Followed(net, rest, r, Start(a)) && a in rest
    ensures Followed(net, rest - {a}, r, End(a))
  {
    forall phi: FlowNode -> int
      ensures Sum(rest - {a}, Gain(phi)) ==
              r * (phi(net.Sink()) - phi(net.Source())) - (phi(End(a)) - phi(net.Source()))
    {
      SumRemove(rest, Gain(phi), a);
    }
  }

  /** A path prefix inside `flow`: simple up to its last node, not yet past the destination. */
  ghost predicate Prefix(net: Net, flow: set<Arc>, q: seq<nat>) {
    && |q| >= 2 && q[0] == net.me
    && (forall i, j :: 0 <= i < j < |q| - 1 ==> q[i] != q[j])
    && (forall i :: 0 <= i < |q| - 1 ==> q[i] != net.dest && Link(q[i], q[i + 1]) in flow)
    && Arcs(q) <= flow
  }

  /** Following the unit on from the end of a prefix reaches the destination by a simple path. */
  lemma {:induction false} CompletePath(net: Net, flow: set<Arc>, r: nat, q: seq<nat>) returns (path: seq<nat>)
    requires Sound(net, flow, r) && r > 0 && Prefix(net, flow, q)
    requires Followed(net, flow - Arcs(q), r, In(q[|q| - 1]))
    ensures IsPath(net, path) && Arcs(path) <= flow && Followed(net, flow - Arcs(path), r, net.Sink())
    decreases |flow - Arcs(q)|
  {
    if q[|q| - 1] == net.dest {
      path := q;
    } else {
      var q' := ExtendPrefix(net, flow, r, q);
      path := CompletePath(net, flow, r, q');
    }
  }

  lemma ExtendPrefix(net: Net, flow: set<Arc>, r: nat, q: seq<nat>) returns (q': seq<nat>)
    requires Sound(net, flow, r) && r > 0 && Prefix(net, flow, q) && q[|q| - 1] != net.dest
    requires Followed(net, flow - Arcs(q), r, In(q[|q| - 1]))
    ensures Prefix(net, flow, q') && Followed(net, flow - Arcs(q'), r, In(q'[|q'| - 1]))
    ensures |flow - Arcs(q')| < |flow - Arcs(q)|
  {
    var last, rest := q[|q| - 1], flow - Arcs(q);
    var inner := NextArc(net, rest, r, In(last));
    assert inner == Internal(last);
    LastIsNew(net, flow, q);
    FollowArc(net, rest, r, inner);
    var link := NextArc(net, rest - {inner}, r, Out(last));
    assert link == Link(last, link.dst);
    FollowArc(net, rest - {inner}, r, link);
    q' := q + [link.dst];
    ArcsAppend(q, link.dst);
    assert rest - {inner} - {link} == flow - Arcs(q');
  }

  lemma LastIsNew(net: Net, flow: set<Arc>, q: seq<nat>)
    requires Prefix(net, flow, q) && Internal(q[|q| - 1]) in flow - Arcs(q)
    requires forall a :: a in flow ==> End(a) != net.Source()
    ensures forall i :: 0 <= i < |q| - 1 ==> q[i] != q[|q| - 1]
  {
    PathArcsMembers(q, |q| - 1);
  }

  lemma {:induction false} PathArcsPrefix(q: seq<nat>, q': seq<nat>, n: nat)
    requires q <= q' && n < |q|
    ensures PathArcs(q', n) == PathArcs(q, n)
  {
    if n != 0 {
      PathArcsPrefix(q, q', n - 1);
    }
  }

  lemma ArcsAppend(q: seq<nat>, d: nat)
    requires |q| >= 2
    ensures Arcs(q + [d]) == Arcs(q) + {Link(q[|q| - 1], d)} + {Internal(q[|q| - 1])}
  {
    PathArcsPrefix(q, q + [d], |q| - 1);
  }

  lemma ExtractPath(net: Net, flow: set<Arc>, r: nat) returns (q: seq<nat>)
    requires Sound(net, flow, r) && r > 0
    ensures IsPath(net, q) && Arcs(q) <= flow && Sound(net, flow - Arcs(q), r - 1)
  {
    assert Followed(net, flow, r, net.Source());
    var link := NextArc(net, flow, r, net.Source());
    assert link == Link(net.me, link.dst);
    FollowArc(net, flow, r, link);
    q := [net.me, link.dst];
    assert PathArcs(q, 0) == {} && Arcs(q) == {link};
    q := CompletePath(net, flow, r, q);
    var rest := flow - Arcs(q);
    forall phi: FlowNode -> int
      ensures Sum(rest, Gain(phi)) == (r - 1) * (phi(net.Sink()) - phi(net.Source()))
    {
      var d := phi(net.Sink()) - phi(net.Source());
      assert Sum(rest, Gain(phi)) == r * d - d;
      assert (r - 1) * d == r * d - d;
    }
  }

  /** The flow of r units contains r disjoint paths; what is left over carries nothing. */
  lemma {:induction false} Decompose(net: Net, flow: set<Arc>, r: nat) returns (qs: seq<seq<nat>>)
    requires Sound(net, flow, r)
    ensures |qs| == r && Family(net, qs) && FamilyArcs(qs) <= flow
    ensures Sound(net, flow - FamilyArcs(qs), 0)
  {
    if r == 0 {
      qs := [];
      assert flow - FamilyArcs(qs) == flow;
    } else {
      var q := ExtractPath(net, flow, r);
      var rest := Decompose(net, flow - Arcs(q), r - 1);
      qs := [q] + rest;
      assert qs[1..] == rest;
      assert flow - FamilyArcs(qs) == flow - Arcs(q) - FamilyArcs(rest);
      forall i | 0 <= i < |rest| ensures Disjoint(q, rest[i]) {
        FamilyArcsInclude(rest, i);
        ApartArcs(net, q, rest[i]);
      }
    }
  }

  lemma {:induction false} FamilyArcsInclude(qs: seq<seq<nat>>, i: nat)
    requires i < |qs|
    ensures Arcs(qs[i]) <= FamilyArcs(qs)
  {
    if i != 0 {
      FamilyArcsInclude(qs[1..], i - 1);
    }
  }

  lemma {:induction false} OnPath(q: seq<nat>, n: nat, i: nat)
    requires i < n < |q|
    ensures Link(q[i], q[i + 1]) in PathArcs(q, n)
    ensures i > 0 ==> Internal(q[i]) in PathArcs(q, n)
  {
    if i < n - 1 {
      OnPath(q, n - 1, i);
    }
  }

  /** Paths over disjoint arcs are distinct and share no intermediate node. */
  lemma ApartArcs(net: Net, q: seq<nat>, q': seq<nat>)
    requires IsPath(net, q) && IsPath(net, q') && Arcs(q) !! Arcs(q')
    ensures Disjoint(q, q')
  {
    OnPath(q, |q| - 1, 0);
    forall i, j | 0 < i < |q| - 1 && 0 < j < |q'| - 1 ensures q[i] != q'[j] {
      OnPath(q, |q| - 1, i);
      OnPath(q', |q'| - 1, j);
    }
  }

  /** Flow left over beside the paths lies on links of cost zero. */
  lemma LeftoverIsFree(net: Net, flow: set<Arc>, q: seq<int>, extra: set<Arc>)
    requires net.Valid() && net.Costed() && |q| == net.Size() && net.Relaxed(flow, q) && q[net.Source()] == 0
    requires extra <= flow && Carries(net, extra, 0) && forall a :: a in flow ==> a in net.cost
    ensures Sum(extra, CostFn(net)) == 0
    ensures forall a :: a in extra ==> net.cost[a] == 0
  {
    CostSplits(net, extra, 0, q);
    forall a | a in extra ensures Reduced(net, q)(a) <= 0 { ReducedSign(net, flow, q, a); }
    SumNonPositive(extra, Reduced(net, q));
    SumNonNegative(extra, CostFn(net));
  }

  // ----- When nothing is left over -----

  ghost predicate Free(net: Net, u: nat, v: nat) { Link(u, v) in net.cost && net.cost[Link(u, v)] == 0 }

  predicate Simple(q: seq<nat>) { forall i, j :: 0 <= i < j < |q| ==> q[i] != q[j] }

  /** A simple cycle of unbroken links that cost nothing, away from both endpoints. */
  ghost predicate FreeCycle(net: Net, q: seq<nat>) {
    && q != [] && Simple(q) && (forall i :: 0 <= i < |q| ==> q[i] != net.me && q[i] != net.dest)
    && (forall i :: 0 <= i < |q| - 1 ==> Free(net, q[i], q[i + 1])) && Free(net, q[|q| - 1], q[0])
  }

  ghost predicate NoFreeCycle(net: Net) { forall q :: !FreeCycle(net, q) }

  /** What enters a flow node of a circulation leaves it. */
  lemma NextInCirculation(net: Net, extra: set<Arc>, a: Arc) returns (b: Arc)
    requires Carries(net, extra, 0) && a in extra
    ensures b in extra && Start(b) == End(a)
  {
    var phi := (u: FlowNode) => if u == End(a) then 1 else 0;
    assert Sum(extra, Gain(phi)) == 0 * (phi(net.Sink()) - phi(net.Source()));
    if forall x :: x in extra ==> Start(x) != End(a) {
      assert Gain(phi)(a) == 1;
      SumNonNegative(extra, Gain(phi));
    }
    b :| b in extra && Start(b) == End(a);
  }

  /** From a node of a free circulation a free link leads on to another. */
  lemma NextFree(net: Net, extra: set<Arc>, v: nat) returns (w: nat)
    requires Sound(net, extra, 0) && Internal(v) in extra && forall a :: a in extra ==> net.cost[a] == 0
    ensures Internal(w) in extra && Free(net, v, w)
  {
    var link := NextInCirculation(net, extra, Internal(v));
    assert link == Link(v, link.dst);
    w := link.dst;
    var inner := NextInCirculation(net, extra, link);
    assert inner == Internal(w);
  }

  ghost function Inner(q: seq<nat>): set<Arc> { set i | 0 <= i < |q| :: Internal(q[i]) }

  /** A walk along free links inside a circulation. */
  ghost predicate FreeWalk(net: Net, extra: set<Arc>, q: seq<nat>) {
    && q != [] && Simple(q) && Inner(q) <= extra && (forall i :: 0 <= i < |q| ==> Internal(q[i]) in extra)
    && (forall i :: 0 <= i < |q| - 1 ==> Free(net, q[i], q[i + 1]))
  }

  lemma WalkGrows(net: Net, extra: set<Arc>, q: seq<nat>, w: nat)
    requires FreeWalk(net, extra, q) && Internal(w) in extra && Free(net, q[|q| - 1], w) && w !in q
    ensures FreeWalk(net, extra, q + [w]) && |extra - Inner(q + [w])| < |extra - Inner(q)|
  {
    var q' := q + [w];
    assert Internal(w) in Inner(q') by { assert q'[|q|] == w; }
    forall x | x in Inner(q) ensures x in Inner(q') {
      var i :| 0 <= i < |q| && x == Internal(q[i]);
      assert q'[i] == q[i];
    }
    assert Internal(w) in (extra - Inner(q)) - (extra - Inner(q'));
    assert extra - Inner(q') <= (extra - Inner(q)) - {Internal(w)};
    SubsetSize(extra - Inner(q'), (extra - Inner(q)) - {Internal(w)});
  }

  lemma {:induction false} SubsetSize(s: set<Arc>, t: set<Arc>)
    requires s <= t
    ensures |s| <= |t|
  {
    assert t == s + (t - s);
  }

  lemma {:induction false} FindFreeCycle(net: Net, extra: set<Arc>, q: seq<nat>) returns (c: seq<nat>)
    requires Sound(net, extra, 0) && FreeWalk(net, extra, q) && forall a :: a in extra ==> net.cost[a] == 0
    ensures FreeCycle(net, c)
    decreases |extra - Inner(q)|
  {
    var w := NextFree(net, extra, q[|q| - 1]);
    if w in q {
      var j :| 0 <= j < |q| && q[j] == w;
      c := q[j..];
      forall i | 0 <= i < |c| ensures c[i] != net.me && c[i] != net.dest {
        assert Internal(q[j + i]) in extra;
      }
    } else {
      WalkGrows(net, extra, q, w);
      c := FindFreeCycle(net, extra, q + [w]);
    }
  }

  /** Without a free cycle there is no flow beside the paths. */
  lemma NoLeftover(net: Net, extra: set<Arc>)
    requires Sound(net, extra, 0) && NoFreeCycle(net) && forall a :: a in extra ==> net.cost[a] == 0
    ensures extra == {}
  {
    if a :| a in extra {
      var b := a;
      if a.Link? {
        b := NextInCirculation(net, extra, a);
      }
      assert b == Internal(b.id);
      assert Inner([b.id]) <= {b};
      var c := FindFreeCycle(net, extra, [b.id]);
    }
  }

  // ----- The first path -----

  /** Along every arc of the flow the stamp grows. */
  ghost predicate Rising(net: Net, flow: set<Arc>, stamp: seq<nat>) {
    |stamp| == net.Size() &&
    forall a :: a in flow ==> Start(a) < |stamp| && End(a) < |stamp| && stamp[Start(a)] < stamp[End(a)]
  }

  /** The first walk back runs over real edges only, in falling order of their stamps. */
  lemma FirstPassRises(net: Net, p: seq<int>) returns (stamp: seq<nat>)
    requires net.Potential({}, p) && net.Costed() && Reached(net, {})
    ensures Rising(net, Augment(net, {}), stamp)
  {
    Converges(net, {}, p);
    stamp := FinalExact(net, {}, p);
    var l, t := Final(net, {}), net.Sink();
    UntouchedAtFirst(net, {}, p, l, stamp, t);
    PushEffect(net, {}, p, l, stamp, t, Upto(net.Size()), {});
    forall a | a in Augment(net, {})
      ensures Start(a) < |stamp| && End(a) < |stamp| && stamp[Start(a)] < stamp[End(a)]
    {
      var w, e :| OnWalk(net, p, l, stamp, t, w, e) && e.arc == a && (e.residual <==> a in {});
      assert ExactAt(net, {}, p, l, stamp, w);
    }
  }

  /** What circulates cannot rise. */
  lemma RisingIsEmpty(net: Net, extra: set<Arc>, stamp: seq<nat>)
    requires Carries(net, extra, 0) && Rising(net, extra, stamp)
    ensures extra == {}
  {
    var phi: FlowNode -> int := (u: FlowNode) => if 0 <= u < |stamp| then stamp[u] as int else 0;
    assert Sum(extra, Gain(phi)) == 0 * (phi(net.Sink()) - phi(net.Source()));
    SumNonNegative(extra, Gain(phi));
    if a :| a in extra {
      assert false;
    }
  }

  /** One path alone leaves nothing over, whatever cycles there are. */
  lemma OnePathExact(net: Net, qs: seq<seq<nat>>)
    requires net.Valid() && net.Costed()
    requires FamilyArcs(qs) <= Compute(net, 1).flow && Sound(net, Compute(net, 1).flow - FamilyArcs(qs), 0)
    ensures FamilyArcs(qs) == Compute(net, 1).flow
  {
    assert Compute(net, 0) == Run({}, 0);
    if Reached(net, {}) {
      var p := ComputeKeeps(net, 0);
      var stamp := FirstPassRises(net, p);
      RisingIsEmpty(net, Compute(net, 1).flow - FamilyArcs(qs), stamp);
    }
  }

  // ----- Main results -----

  /** A family bounded from below by a potential for the flow. */
  lemma FamilyBound(net: Net, flow: set<Arc>, r: nat, q: seq<int>, other: seq<seq<nat>>)
    requires Sound(net, flow, r) && net.Costed() && |q| == net.Size() && net.Relaxed(flow, q) && q[net.Source()] == 0
    requires Family(net, other)
    ensures FamilyCost(net, other) >= Sum(flow, CostFn(net)) + (|other| - r) * q[net.Sink()]
  {
    FamilyCarries(net, other);
    Duality(net, flow, r, q, FamilyArcs(other), |other|);
  }

  /** The flow as r disjoint paths of the same cost, and nothing else but links of cost zero. */
  lemma FlowAsPaths(net: Net, flow: set<Arc>, r: nat, p: seq<int>) returns (qs: seq<seq<nat>>)
    requires Sound(net, flow, r) && net.Costed() && net.Potential(flow, p)
    ensures |qs| == r && Family(net, qs) && FamilyArcs(qs) <= flow
    ensures FamilyCost(net, qs) == Sum(flow, CostFn(net))
    ensures forall a :: a in flow - FamilyArcs(qs) ==> net.cost[a] == 0
    ensures Sound(net, flow - FamilyArcs(qs), 0) && (NoFreeCycle(net) ==> FamilyArcs(qs) == flow)
  {
    qs := Decompose(net, flow, r);
    var arcs, extra := FamilyArcs(qs), flow - FamilyArcs(qs);
    LeftoverIsFree(net, flow, p, extra);
    FamilyCarries(net, qs);
    SumUnion(arcs, extra, CostFn(net));
    assert arcs + extra == flow;
    if NoFreeCycle(net) {
      NoLeftover(net, extra);
    }
  }

  /** An unreached sink gives a potential of 65535 there. */
  lemma UnreachedPotential(net: Net, flow: set<Arc>, p: seq<int>) returns (q: seq<int>)
    requires net.Potential(flow, p) && !Reached(net, flow)
    ensures |q| == net.Size() && net.Relaxed(flow, q) && q[net.Source()] == 0 && q[net.Sink()] == UNREACHED
  {
    Converges(net, flow, p);
    NextRelaxed(net, flow, p, Final(net, flow));
    q := NextPotential(net, p, Final(net, flow).dist);
  }

  /** No set of `r` disjoint paths costs less than `c`. */
  ghost predicate Cheapest(net: Net, r: nat, c: int) {
    forall other :: Family(net, other) && |other| == r ==> c <= FamilyCost(net, other)
  }

  /** Every set of more than `r` disjoint paths costs at least 65535 more than `c` per path beyond `r`. */
  ghost predicate OutOfReach(net: Net, r: nat, c: int) {
    forall other :: Family(net, other) && |other| > r ==> FamilyCost(net, other) >= c + (|other| - r) * UNREACHED
  }

  lemma FlowIsCheapest(net: Net, flow: set<Arc>, r: nat, p: seq<int>)
    requires Sound(net, flow, r) && net.Costed() && net.Potential(flow, p)
    ensures Cheapest(net, r, Sum(flow, CostFn(net)))
  {
    forall other | Family(net, other) && |other| == r ensures Sum(flow, CostFn(net)) <= FamilyCost(net, other) {
      NoCheaper(net, flow, r, p, other);
    }
  }

  lemma NoCheaper(net: Net, flow: set<Arc>, r: nat, p: seq<int>, other: seq<seq<nat>>)
    requires Sound(net, flow, r) && net.Costed() && net.Potential(flow, p) && Family(net, other) && |other| == r
    ensures Sum(flow, CostFn(net)) <= FamilyCost(net, other)
  {
    FamilyBound(net, flow, r, p, other);
    assert (|other| - r) * p[net.Sink()] == 0;
  }

  lemma MoreIsOutOfReach(net: Net, flow: set<Arc>, r: nat, p: seq<int>)
    requires Sound(net, flow, r) && net.Costed() && net.Potential(flow, p) && !Reached(net, flow)
    ensures OutOfReach(net, r, Sum(flow, CostFn(net)))
  {
    var q := UnreachedPotential(net, flow, p);
    forall other | Family(net, other) && |other| > r
      ensures FamilyCost(net, other) >= Sum(flow, CostFn(net)) + (|other| - r) * UNREACHED
    {
      FamilyBound(net, flow, r, q, other);
    }
  }

  /**
   * For every network and every k: the r paths found are node-disjoint and of least total cost
   * among all sets of r node-disjoint paths; fewer than k are found only if every larger set
   * costs at least 65535 more per additional path. Unless links of cost zero form a cycle and
   * more than one path is asked for, no other arc is left with flow.
   */
  lemma PathsFoundAreOptimal(net: Net, k: nat) returns (qs: seq<seq<nat>>)
    requires net.Valid() && net.Costed()
    ensures |qs| == Compute(net, k).found && Family(net, qs) && FamilyArcs(qs) <= Compute(net, k).flow
    ensures forall a :: a in Compute(net, k).flow - FamilyArcs(qs) ==> CostFn(net)(a) == 0
    ensures NoFreeCycle(net) || k <= 1 ==> FamilyArcs(qs) == Compute(net, k).flow
    ensures Cheapest(net, |qs|, FamilyCost(net, qs))
    ensures |qs| < k ==> OutOfReach(net, |qs|, FamilyCost(net, qs))
  {
    var r := Compute(net, k);
    var p := ComputeKeeps(net, k);
    qs := FlowAsPaths(net, r.flow, r.found, p);
    FlowIsCheapest(net, r.flow, r.found, p);
    if k == 1 {
      OnePathExact(net, qs);
    }
    if r.found < k {
      StoppedUnreached(net, k);
      MoreIsOutOfReach(net, r.flow, r.found, p);
    }
  }

  // ----- The condition is exact -----

  /** The arcs of a cycle. */
  ghost function CycleArcs(q: seq<nat>): set<Arc>
    requires q != []
  {
    Arcs(q) + {Internal(q[0])} + {Link(q[|q| - 1], q[0])} + if |q| == 1 then {} else {Internal(q[|q| - 1])}
  }

  lemma CycleApart(q: seq<nat>)
    requires q != [] && Simple(q)
    ensures Internal(q[0]) !in Arcs(q) && Internal(q[|q| - 1]) !in Arcs(q) && Link(q[|q| - 1], q[0]) !in Arcs(q)
  {
    PathArcsMembers(q, |q| - 1);
  }

  /** The three arcs that close a path to a cycle. */
  lemma SumClosed(s: set<Arc>, f: Arc -> int, a: Arc, b: Arc, c: Arc)
    requires a !in s && b !in s && c !in s && a != b && b != c
    ensures Sum(s + {a} + {b} + if a == c then {} else {c}, f) == Sum(s, f) + f(a) + f(b) + if a == c then 0 else f(c)
  {
    SumAdd(s, f, a);
    SumAdd(s + {a}, f, b);
    if a != c {
      SumAdd(s + {a} + {b}, f, c);
    } else {
      assert s + {a} + {b} + {} == s + {a} + {b};
    }
  }

  lemma CycleGain(q: seq<nat>, phi: FlowNode -> int)
    requires q != [] && Simple(q)
    ensures Sum(CycleArcs(q), Gain(phi)) == 0
  {
    var n := |q| - 1;
    var first, link, last := Internal(q[0]), Link(q[n], q[0]), Internal(q[n]);
    CycleApart(q);
    SumClosed(Arcs(q), Gain(phi), first, link, last);
    assert Start(first) == In(q[0]) && End(first) == Out(q[0]) && Start(link) == Out(q[n]) && End(link) == In(q[0]);
    if n > 0 {
      PathGain(q, n, phi);
      assert Start(last) == In(q[n]) && End(last) == Out(q[n]);
    } else {
      assert Arcs(q) == {};
    }
  }

  /** The arcs of a cycle run between its nodes. */
  lemma CycleArc(q: seq<nat>, a: Arc)
    requires q != [] && a in CycleArcs(q)
    ensures a.Internal? ==> a.id in q
    ensures a.Link? ==> a.src in q && a.dst in q
    ensures a.Link? ==> a == Link(q[|q| - 1], q[0]) || exists i :: 0 <= i < |q| - 1 && a == Link(q[i], q[i + 1])
  {
    PathArcsMembers(q, |q| - 1);
  }

  lemma CycleNode(net: Net, q: seq<nat>, i: nat)
    requires net.Valid() && net.Costed() && FreeCycle(net, q) && i < |q|
    ensures Internal(q[i]) in net.cost && q[i] != net.me && q[i] != net.dest
  {
    NodeInRange(net, q[i], q[if i < |q| - 1 then i + 1 else 0]);
  }

  lemma CycleArcFree(net: Net, q: seq<nat>, a: Arc)
    requires net.Valid() && net.Costed() && FreeCycle(net, q) && a in CycleArcs(q)
    ensures a in net.cost && End(a) != net.Source() && Start(a) != net.Sink() && net.cost[a] == 0
  {
    CycleArc(q, a);
    if a.Internal? {
      var i :| 0 <= i < |q| && q[i] == a.id;
      CycleNode(net, q, i);
    } else {
      assert Free(net, a.src, a.dst);
    }
  }

  lemma CycleIsSound(net: Net, q: seq<nat>)
    requires net.Valid() && net.Costed() && FreeCycle(net, q)
    ensures Sound(net, CycleArcs(q), 0) && forall a :: a in CycleArcs(q) ==> net.cost[a] == 0
  {
    forall phi: FlowNode -> int ensures Sum(CycleArcs(q), Gain(phi)) == 0 * (phi(net.Sink()) - phi(net.Source())) {
      CycleGain(q, phi);
    }
    forall a | a in CycleArcs(q)
      ensures a in net.cost && End(a) != net.Source() && Start(a) != net.Sink() && net.cost[a] == 0
    {
      CycleArcFree(net, q, a);
    }
  }

  lemma NodeInRange(net: Net, u: nat, v: nat)
    requires net.Valid() && net.Costed() && Link(u, v) in net.cost
    ensures Internal(u) in net.cost
  {
    LinkRange(net, Link(u, v));
  }

  lemma CycleHasPotential(net: Net, q: seq<nat>, p: seq<int>)
    requires net.Valid() && net.Costed() && FreeCycle(net, q) && p == seq(net.Size(), _ => 0)
    ensures net.Potential(CycleArcs(q), p)
  {
    CycleIsSound(net, q);
  }

  /** A flow is nothing but paths. */
  ghost predicate OnlyPaths(net: Net, flow: set<Arc>, r: nat) {
    exists qs :: |qs| == r && Family(net, qs) && FamilyArcs(qs) == flow
  }

  /**
   * What a pass of the algorithm keeps makes the flow consist of nothing but its paths exactly
   * if no free cycle avoids both endpoints.
   */
  lemma OnlyPathsIff(net: Net)
    requires net.Valid() && net.Costed()
    ensures NoFreeCycle(net) <==>
            (forall flow, r, p :: Sound(net, flow, r) && net.Potential(flow, p) ==> OnlyPaths(net, flow, r))
  {
    if NoFreeCycle(net) {
      forall flow, r, p | Sound(net, flow, r) && net.Potential(flow, p) ensures OnlyPaths(net, flow, r) {
        var qs := FlowAsPaths(net, flow, r, p);
      }
    } else {
      var q :| FreeCycle(net, q);
      var p := seq(net.Size(), _ => 0);
      CycleIsSound(net, q);
      CycleHasPotential(net, q, p);
      assert Internal(q[0]) in CycleArcs(q);
      assert !OnlyPaths(net, CycleArcs(q), 0);
    }
  }

  /** The loop stops short of k exactly because the sink was unreached for its last flow. */
  lemma {:induction false} StoppedUnreached(net: Net, k: nat)
    requires net.Valid() && Compute(net, k).found < k
    ensures !Reached(net, Compute(net, k).flow)
  {
    if Compute(net, k - 1).found < k - 1 {
      StoppedUnreached(net, k - 1);
    }
  }

  /**
   * When the loop stops: a pass finds no path exactly when every set of one more disjoint path
   * costs at least 65535 more than the flow already found.
   */
  lemma StopsExactly(net: Net, flow: set<Arc>, r: nat, p: seq<int>)
    requires Sound(net, flow, r) && net.Costed() && net.Potential(flow, p)
    ensures !Reached(net, flow) <==>
              (forall other :: Family(net, other) && |other| == r + 1 ==>
                 FamilyCost(net, other) >= Sum(flow, CostFn(net)) + UNREACHED)
  {
    if Reached(net, flow) {
      var l := Final(net, flow);
      Converges(net, flow, p);
      var q := AugmentKeeps(net, flow, r, p);
      var qs := FlowAsPaths(net, Augment(net, flow), r + 1, q);
      Duality(net, Augment(net, flow), r + 1, q, flow, r);
    } else {
      var q := UnreachedPotential(net, flow, p);
      forall other | Family(net, other) && |other| == r + 1
        ensures FamilyCost(net, other) >= Sum(flow, CostFn(net)) + UNREACHED
      {
        FamilyBound(net, flow, r, q, other);
      }
    }
  }

  lemma {:induction false} SumMonotone(s: set<Arc>, t: set<Arc>, f: Arc -> int)
    requires s <= t && forall a :: a in t ==> f(a) >= 0
    ensures Sum(s, f) <= Sum(t, f)
  {
    SumUnion(s, t - s, f);
    assert s + (t - s) == t;
    SumNonNegative(t - s, f);
  }

  /** If all costs together stay below 65535, finding fewer than k paths proves there are no more. */
  lemma NoMorePaths(net: Net, k: nat, other: seq<seq<nat>>)
    requires net.Valid() && net.Costed() && Sum(net.cost.Keys, CostFn(net)) < UNREACHED
    requires Compute(net, k).found < k && Family(net, other)
    ensures |other| <= Compute(net, k).found
  {
    var qs := PathsFoundAreOptimal(net, k);
    FamilyCarries(net, other);
    FamilyCarries(net, qs);
    SumMonotone(FamilyArcs(other), net.cost.Keys, CostFn(net));
    SumNonNegative(FamilyArcs(qs), CostFn(net));
  }
}

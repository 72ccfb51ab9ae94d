/**
 * Sets of node-disjoint paths, stated on the configured nodes, and their arcs in the flow
 * network. Connects the flow that `MultiPath_Compute` ends with to the paths it stands for.
 */
module PathFamilies {
  import opened FlowNetwork
  import opened FlowSums

  /** A simple path of unbroken links from this node to the destination, as its node sequence. */
  ghost predicate IsPath(net: Net, q: seq<nat>) {
    && |q| >= 2 && q[0] == net.me && q[|q| - 1] == net.dest
    && (forall i, j :: 0 <= i < j < |q| ==> q[i] != q[j])
    && (forall i :: 0 <= i < |q| - 1 ==> Link(q[i], q[i + 1]) in net.cost)
  }

  ghost predicate NoSharedNode(q: seq<nat>, q': seq<nat>) {
    forall i, j :: 0 < i < |q| - 1 && 0 < j < |q'| - 1 ==> q[i] != q'[j]
  }

  /** Distinct paths that share no intermediate node. */
  ghost predicate Disjoint(q: seq<nat>, q': seq<nat>) { q != q' && NoSharedNode(q, q') }

  ghost predicate Family(net: Net, qs: seq<seq<nat>>) {
    && (forall i :: 0 <= i < |qs| ==> IsPath(net, qs[i]))
    && (forall i, j :: 0 <= i < j < |qs| ==> Disjoint(qs[i], qs[j]))
  }

  function CostFn(net: Net): Arc -> int {
    a => if a in net.cost then net.cost[a] else 0
  }

  /** The arcs of the first `n` links of `q` and of the nodes between them. */
  ghost function PathArcs(q: seq<nat>, n: nat): set<Arc>
    requires n < |q|
  {
    if n == 0 then {}
    else PathArcs(q, n - 1) + {Link(q[n - 1], q[n])} + if n == 1 then {} else {Internal(q[n - 1])}
  }

  ghost function Arcs(q: seq<nat>): set<Arc> {
    if q == [] then {} else PathArcs(q, |q| - 1)
  }

  ghost function PathCost(net: Net, q: seq<nat>, n: nat): int
    requires n < |q|
  {
    if n == 0 then 0 else PathCost(net, q, n - 1) + CostFn(net)(Link(q[n - 1], q[n]))
  }

  ghost function FamilyArcs(qs: seq<seq<nat>>): set<Arc> {
    if qs == [] then {} else Arcs(qs[0]) + FamilyArcs(qs[1..])
  }

  ghost function FamilyCost(net: Net, qs: seq<seq<nat>>): int
    requires Family(net, qs)
  {
    if qs == [] then 0 else
      assert IsPath(net, qs[0]);
      PathCost(net, qs[0], |qs[0]| - 1) + FamilyCost(net, qs[1..])
  }

  /** The arcs of a path prefix, named by position. */
  lemma {:induction false} PathArcsMembers(q: seq<nat>, n: nat)
    requires n < |q|
    ensures forall a :: a in PathArcs(q, n) <==>
              || (a.Link? && exists i :: 0 <= i < n && a.src == q[i] && a.dst == q[i + 1])
              || (a.Internal? && exists i :: 0 < i < n && a.id == q[i])
  {
    if n != 0 {
      PathArcsMembers(q, n - 1);
    }
  }

  /** One more link adds its own term and that of the node before it. */
  lemma ArcsGrow(q: seq<nat>, n: nat, f: Arc -> int)
    requires 0 < n < |q| && forall i, j :: 0 <= i < j < |q| ==> q[i] != q[j]
    ensures Sum(PathArcs(q, n), f) ==
            Sum(PathArcs(q, n - 1), f) + f(Link(q[n - 1], q[n])) + if n == 1 then 0 else f(Internal(q[n - 1]))
  {
    PathArcsMembers(q, n - 1);
    var s, link, inner := PathArcs(q, n - 1), Link(q[n - 1], q[n]), Internal(q[n - 1]);
    SumAdd(s, f, link);
    if n == 1 {
      assert PathArcs(q, n) == s + {link};
    } else {
      SumAdd(s + {link}, f, inner);
    }
  }

  /** A simple path carries one unit. */
  lemma {:induction false} PathGain(q: seq<nat>, n: nat, phi: FlowNode -> int)
    requires 0 < n < |q| && forall i, j :: 0 <= i < j < |q| ==> q[i] != q[j]
    ensures Sum(PathArcs(q, n), Gain(phi)) == phi(In(q[n])) - phi(Out(q[0]))
  {
    ArcsGrow(q, n, Gain(phi));
    var link, inner := Link(q[n - 1], q[n]), Internal(q[n - 1]);
    assert Start(link) == Out(q[n - 1]) && End(link) == In(q[n]);
    if n == 1 {
      assert PathArcs(q, 0) == {};
    } else {
      PathGain(q, n - 1, phi);
      assert Start(inner) == In(q[n - 1]) && End(inner) == Out(q[n - 1]);
    }
  }

  /** The arcs of a path cost what its links cost. */
  lemma {:induction false} PathArcsCost(net: Net, q: seq<nat>, n: nat)
    requires n < |q| && net.Costed() && forall i, j :: 0 <= i < j < |q| ==> q[i] != q[j]
    ensures Sum(PathArcs(q, n), CostFn(net)) == PathCost(net, q, n)
  {
    if n != 0 {
      ArcsGrow(q, n, CostFn(net));
      PathArcsCost(net, q, n - 1);
    }
  }

  /** Paths that share a link but no intermediate node are both the direct link. */
  lemma SharedLink(net: Net, q: seq<nat>, q': seq<nat>, i: nat, j: nat)
    requires IsPath(net, q) && IsPath(net, q') && NoSharedNode(q, q')
    requires i < |q| - 1 && j < |q'| - 1 && q[i] == q'[j] && q[i + 1] == q'[j + 1]
    ensures q == q'
  {
    assert i == 0 || j == 0;
    assert i == 0 && j == 0;
    assert |q| == 2 || |q'| == 2;
    assert |q| == 2 && |q'| == 2;
  }

  lemma NoCommonArc(net: Net, q: seq<nat>, q': seq<nat>, a: Arc)
    requires IsPath(net, q) && IsPath(net, q') && Disjoint(q, q') && a in Arcs(q)
    ensures a !in Arcs(q')
  {
    PathArcsMembers(q, |q| - 1);
    PathArcsMembers(q', |q'| - 1);
    if a.Link? {
      var i :| 0 <= i < |q| - 1 && a.src == q[i] && a.dst == q[i + 1];
      if j :| 0 <= j < |q'| - 1 && a.src == q'[j] && a.dst == q'[j + 1] {
        SharedLink(net, q, q', i, j);
      }
    }
  }

  lemma DisjointArcs(net: Net, q: seq<nat>, q': seq<nat>)
    requires IsPath(net, q) && IsPath(net, q') && Disjoint(q, q')
    ensures Arcs(q) !! Arcs(q')
  {
    forall a | a in Arcs(q) ensures a !in Arcs(q') {
      NoCommonArc(net, q, q', a);
    }
  }

  lemma {:induction false} FamilyArcsAvoid(net: Net, q: seq<nat>, qs: seq<seq<nat>>)
    requires IsPath(net, q) && forall i :: 0 <= i < |qs| ==> IsPath(net, qs[i]) && Disjoint(q, qs[i])
    ensures Arcs(q) !! FamilyArcs(qs)
  {
    if qs != [] {
      DisjointArcs(net, q, qs[0]);
      FamilyArcsAvoid(net, q, qs[1..]);
    }
  }

  lemma PathThenRest(net: Net, q: seq<nat>, arcs: set<Arc>, n: nat, phi: FlowNode -> int)
    requires IsPath(net, q) && Arcs(q) !! arcs && Carries(net, arcs, n)
    ensures Sum(Arcs(q) + arcs, Gain(phi)) == (n + 1) * (phi(net.Sink()) - phi(net.Source()))
  {
    PathGain(q, |q| - 1, phi);
    SumUnion(Arcs(q), arcs, Gain(phi));
    var d := phi(net.Sink()) - phi(net.Source());
    assert (n + 1) * d == n * d + d;
  }

  /** A family of n disjoint paths is a flow of n units that costs what the family costs. */
  lemma {:induction false} FamilyCarries(net: Net, qs: seq<seq<nat>>)
    requires net.Valid() && net.Costed() && Family(net, qs)
    ensures Carries(net, FamilyArcs(qs), |qs|)
    ensures Sum(FamilyArcs(qs), CostFn(net)) == FamilyCost(net, qs)
    ensures forall a :: a in FamilyArcs(qs) ==> a in net.cost
  {
    if qs != [] {
      var q, rest := qs[0], qs[1..];
      assert IsPath(net, q);
      FamilyCarries(net, rest);
      FamilyArcsAvoid(net, q, rest);
      forall phi: FlowNode -> int
        ensures Sum(FamilyArcs(qs), Gain(phi)) == |qs| * (phi(net.Sink()) - phi(net.Source()))
      {
        PathThenRest(net, q, FamilyArcs(rest), |rest|, phi);
      }
      PathArcsCost(net, q, |q| - 1);
      SumUnion(Arcs(q), FamilyArcs(rest), CostFn(net));
      PathArcsUsable(net, q);
    }
  }

  lemma PathArcsUsable(net: Net, q: seq<nat>)
    requires net.Valid() && net.Costed() && IsPath(net, q)
    ensures forall a :: a in Arcs(q) ==> a in net.cost
  {
    PathArcsMembers(q, |q| - 1);
    forall a | a in Arcs(q) ensures a in net.cost {
      if a.Internal? {
        var i :| 0 < i < |q| - 1 && a.id == q[i];
        LinkRange(net, Link(q[i], q[i + 1]));
      }
    }
  }

  lemma LinkRange(net: Net, a: Arc)
    requires net.Valid() && net.Costed() && a in net.cost
    ensures Start(a) < net.Size() && End(a) < net.Size()
  {
    assert FlowEdge(a, false) in net.list;
    var j :| 0 <= j < |net.list| && net.list[j] == FlowEdge(a, false);
  }
}

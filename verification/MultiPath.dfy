/** Dissemination graph types (daemon/dissem_graphs.h). */
module GraphTypes {
  datatype GraphType = NoGraph | K2 | Src | Dst | SrcDst
}

/**
 * The k-paths service of daemon/multipath.c: network construction, the flow computation on
 * mutable labels and flows, and the bitmask cache.
 */
module MultiPath {
  import opened FlowNetwork
  import opened Bitmask

  const MAX_NODES: nat := 50
  const MULTIPATH_MAX_K: nat := 5
  const DG_K_FLAG: nat := MULTIPATH_MAX_K + 1

  /** A destination's precomputed masks. */
  datatype GraphMasks = GraphMasks(src: Mask, dst: Mask, srcDst: Mask)

  /** The current and the configured cost of one directed edge. */
  datatype EdgeState = EdgeState(cost: int, base: int)

  datatype Priced = Broken | Price(cost: int)

  /**
   * The static configuration: node count, sorted edge keys (an edge's index is its position),
   * whether keys are directed, the bytes in a mask, and this node.
   */
  datatype Config = Config(nodes: nat, edges: seq<(nat, nat)>, directed: bool, maskBytes: nat, me: nat) {
    ghost predicate Valid() {
      && me < nodes <= MAX_NODES
      && (forall j :: 0 <= j < |edges| ==> edges[j].0 < nodes && edges[j].1 < nodes && Byte(j) < maskBytes)
      && (forall i, j :: 0 <= i < j < |edges| ==> edges[i] != edges[j])
      && (!directed ==> forall j :: 0 <= j < |edges| ==> edges[j].0 < edges[j].1)
    }

    /** Edge key `j` gives rise to this link. */
    ghost predicate Makes(j: nat, a: Arc)
      requires j < |edges|
    {
      a == Link(edges[j].0, edges[j].1) || (!directed && a == Link(edges[j].1, edges[j].0))
    }

    ghost predicate MadeBefore(n: nat, a: Arc)
      requires n <= |edges|
    {
      exists j :: 0 <= j < n && Makes(j, a)
    }

    ghost predicate Configured(a: Arc) {
      match a
      case Internal(i) => i < nodes
      case Link(_, _) => MadeBefore(|edges|, a)
    }
  }

  /** A signed 16-bit number. */
  predicate Int16(x: int) { -32768 <= x <= 32767 }

  ghost predicate CostRange(s: EdgeState) { Int16(s.cost) && 0 <= s.base <= 32767 }

  function Abs(x: int): int { if x < 0 then -x else x }

  /** The absolute value as it is stored in 16 bits. */
  function Abs16(x: int): (r: int)
    ensures Int16(x) ==> Int16(r)
  {
    if Abs(x) > 32767 then Abs(x) - 0x1_0000 else Abs(x)
  }

  /** The stored absolute value of a 16-bit cost is a cost exactly if it is not the least number. */
  lemma OnlyLeastWraps(x: int)
    requires Int16(x)
    ensures (Abs16(x) == Abs(x) <==> x != -32768) && (Abs16(x) >= 0 <==> x != -32768)
  {
  }

  function Max(x: int, y: int): int { if x > y then x else y }

  /** The cost of a link in one direction, or that it is skipped as broken. */
  function LinkPrice(edge: EdgeState, reverse: EdgeState, useBase: bool, requireReverse: bool): Priced {
    if useBase then
      Price(if requireReverse then Max(edge.base, reverse.base) else edge.base)
    else if edge.cost == -1 || (requireReverse && reverse.cost == -1) then
      Broken
    else
      Price(if requireReverse then Max(Abs16(edge.cost), Abs16(reverse.cost)) else Abs16(edge.cost))
  }

  /** The global list of flow edges and the index of every link. */
  datatype Layout = Layout(list: seq<FlowEdge>, index: map<Arc, nat>)

  /** Every residual twin stands right before its real edge. */
  predicate Twinned(list: seq<FlowEdge>) {
    list == [] ||
    (|list| >= 2 && list[0].residual && list[1] == FlowEdge(list[0].arc, false) && Twinned(list[2..]))
  }

  /** Links come before internal edges, and twins before their edges. */
  ghost predicate InOrder(list: seq<FlowEdge>) {
    Twinned(list) && forall i, j :: 0 <= i < j < |list| && list[i].arc.Internal? ==> list[j].arc.Internal?
  }

  ghost predicate LaidOut(cfg: Config, o: Layout) {
    && (forall e :: e in o.list <==> cfg.Configured(e.arc))
    && (forall a :: a in o.index <==> a.Link? && cfg.Configured(a))
    && (forall a :: a in o.index ==> o.index[a] < |cfg.edges| && cfg.Makes(o.index[a], a))
  }

  /** The two flow edges of an arc, put in front of the list. */
  function Prepend(o: seq<FlowEdge>, a: Arc): (r: seq<FlowEdge>)
    ensures forall e :: e in r <==> e.arc == a || e in o
  {
    var pair := [FlowEdge(a, true), FlowEdge(a, false)];
    assert forall e :: e in pair <==> e.arc == a;
    pair + o
  }

  lemma PrependInOrder(o: seq<FlowEdge>, a: Arc)
    requires InOrder(o) && (a.Internal? ==> forall e :: e in o ==> e.arc.Internal?)
    ensures InOrder(Prepend(o, a))
  {
    var r := Prepend(o, a);
    assert r[2..] == o;
    forall i, j | 0 <= i < j < |r| && r[i].arc.Internal? ensures r[j].arc.Internal? {
      if i >= 2 {
        assert r[i] == o[i - 2] && r[j] == o[j - 2];
      } else if j >= 2 {
        assert r[j] in o;
      }
    }
  }

  /** The internal edges of the first `n` nodes. */
  method InternalEdges(n: nat) returns (list: seq<FlowEdge>)
    ensures InOrder(list) && forall e :: e in list <==> e.arc.Internal? && e.arc.id < n
  {
    list := [];
    for i := 0 to n
      invariant InOrder(list) && forall e :: e in list <==> e.arc.Internal? && e.arc.id < i
    {
      PrependInOrder(list, Internal(i));
      list := Prepend(list, Internal(i));
    }
  }

  /** The list and index agree with the links of the first `n` edge keys. */
  ghost predicate LinksLaid(cfg: Config, list: seq<FlowEdge>, index: map<Arc, nat>, n: nat)
    requires n <= |cfg.edges|
  {
    && (forall e :: e in list <==> if e.arc.Internal? then e.arc.id < cfg.nodes else cfg.MadeBefore(n, e.arc))
    && (forall a :: a in index <==> a.Link? && cfg.MadeBefore(n, a))
    && (forall a :: a in index ==> index[a] < n && cfg.Makes(index[a], a))
  }

  /** The list with the edges of edge key `j` in front. */
  function WithLinks(cfg: Config, list: seq<FlowEdge>, j: nat): seq<FlowEdge>
    requires j < |cfg.edges|
  {
    var (s, d) := cfg.edges[j];
    var list' := Prepend(list, Link(s, d));
    if cfg.directed then list' else Prepend(list', Link(d, s))
  }

  lemma WithLinksInOrder(cfg: Config, list: seq<FlowEdge>, j: nat)
    requires j < |cfg.edges| && InOrder(list)
    ensures InOrder(WithLinks(cfg, list, j))
  {
    var (s, d) := cfg.edges[j];
    PrependInOrder(list, Link(s, d));
    PrependInOrder(Prepend(list, Link(s, d)), Link(d, s));
  }

  lemma MadeNext(cfg: Config, j: nat)
    requires j < |cfg.edges|
    ensures forall a :: cfg.MadeBefore(j + 1, a) <==> cfg.MadeBefore(j, a) || cfg.Makes(j, a)
  {
  }

  /** One or two links for edge key `j`. */
  method AddLinks(cfg: Config, list: seq<FlowEdge>, index: map<Arc, nat>, j: nat)
    returns (list': seq<FlowEdge>, index': map<Arc, nat>)
    requires j < |cfg.edges| && LinksLaid(cfg, list, index, j)
    ensures LinksLaid(cfg, list', index', j + 1) && list' == WithLinks(cfg, list, j)
  {
    MadeNext(cfg, j);
    var (s, d) := cfg.edges[j];
    list', index' := Prepend(list, Link(s, d)), index[Link(s, d) := j];
    if !cfg.directed {
      list', index' := Prepend(list', Link(d, s)), index'[Link(d, s) := j];
    }
  }

  /** `Init_MultiPath`: the nodes' internal edges first, then the links of every sorted edge. */
  method InitMultiPath(cfg: Config) returns (o: Layout)
    requires cfg.Valid()
    ensures LaidOut(cfg, o) && InOrder(o.list)
  {
    var list := InternalEdges(cfg.nodes);
    var index: map<Arc, nat> := map[];
    for j := 0 to |cfg.edges|
      invariant LinksLaid(cfg, list, index, j) && InOrder(list)
    {
      WithLinksInOrder(cfg, list, j);
      list, index := AddLinks(cfg, list, index, j);
    }
    o := Layout(list, index);
  }

  /** The bits of a mask are the indices of the links that carry flow. */
  ghost predicate IsMask(cfg: Config, o: Layout, m: Mask, flow: set<Arc>) {
    && |m| == cfg.maskBytes
    && forall i :: 0 <= i && Byte(i) < |m| ==>
         (Bit(m, i) <==> exists a :: a in flow && a in o.index && o.index[a] == i)
  }

  /** The mask of a flow, bit by bit. */
  ghost function MaskOf(cfg: Config, o: Layout, flow: set<Arc>): (m: Mask)
    requires cfg.Valid() && LaidOut(cfg, o)
    ensures |m| == cfg.maskBytes
  {
    if flow == {} then Zero(cfg.maskBytes)
    else
      var a :| a in flow;
      var m := MaskOf(cfg, o, flow - {a});
      if a in o.index then Stamp(m, o.index[a]) else m
  }

  lemma StampMask(cfg: Config, o: Layout, m: Mask, flow: set<Arc>, a: Arc)
    requires cfg.Valid() && LaidOut(cfg, o) && IsMask(cfg, o, m, flow)
    ensures a in o.index ==> IsMask(cfg, o, Stamp(m, o.index[a]), flow + {a})
    ensures a !in o.index ==> IsMask(cfg, o, m, flow + {a})
  {
    if a in o.index {
      var j := o.index[a];
      forall i | 0 <= i && Byte(i) < |m|
        ensures Bit(Stamp(m, j), i) <==> exists b :: b in flow + {a} && b in o.index && o.index[b] == i
      {
        StampBit(m, j, i);
        if i == j {
          assert a in flow + {a} && o.index[a] == i;
        }
      }
    }
  }

  lemma {:induction false} MaskOfBits(cfg: Config, o: Layout, flow: set<Arc>)
    requires cfg.Valid() && LaidOut(cfg, o)
    ensures IsMask(cfg, o, MaskOf(cfg, o, flow), flow)
  {
    if flow == {} {
      forall i | 0 <= i && Byte(i) < cfg.maskBytes ensures !Bit(Zero(cfg.maskBytes), i) {
        ZeroBit(cfg.maskBytes, i);
      }
    } else {
      var a :| a in flow && MaskOf(cfg, o, flow) ==
                            var m := MaskOf(cfg, o, flow - {a}); if a in o.index then Stamp(m, o.index[a]) else m;
      MaskOfBits(cfg, o, flow - {a});
      StampMask(cfg, o, MaskOf(cfg, o, flow - {a}), flow - {a}, a);
      assert flow - {a} + {a} == flow;
    }
  }

  /** The order in which the bag is emptied does not matter. */
  lemma MaskUnique(cfg: Config, o: Layout, m: Mask, flow: set<Arc>)
    requires cfg.Valid() && LaidOut(cfg, o) && IsMask(cfg, o, m, flow)
    ensures m == MaskOf(cfg, o, flow)
  {
    MaskOfBits(cfg, o, flow);
    SameBits(m, MaskOf(cfg, o, flow));
  }

  type CostTable = map<(nat, nat), EdgeState>

  /**
   * Both directions of every configured link have an edge with 16-bit costs. The least number is
   * not among them: it would count as negative in both directions of a link.
   */
  ghost predicate TableOk(cfg: Config, t: CostTable) {
    && (forall a: Arc :: a.Link? && cfg.Configured(a) ==> (a.src, a.dst) in t && (a.dst, a.src) in t)
    && (forall k :: k in t ==> CostRange(t[k]) && t[k].cost != -32768)
  }

  function ArcPrice(t: CostTable, a: Arc, useBase: bool, requireReverse: bool): Priced
    requires a.Link? ==> (a.src, a.dst) in t && (a.dst, a.src) in t
  {
    match a
    case Internal(_) => Price(0)
    case Link(s, d) => LinkPrice(t[(s, d)], t[(d, s)], useBase, requireReverse)
  }

  /** The network one computation sees. */
  ghost function NetFor(cfg: Config, o: Layout, t: CostTable, dest: nat, useBase: bool, requireReverse: bool): Net
    requires LaidOut(cfg, o) && TableOk(cfg, t)
  {
    var arcs := set e | e in o.list :: e.arc;
    Net(cfg.nodes, o.list,
        map a | a in arcs && ArcPrice(t, a, useBase, requireReverse).Price? ::
          ArcPrice(t, a, useBase, requireReverse).cost,
        cfg.me, dest)
  }

  lemma NetForValid(cfg: Config, o: Layout, t: CostTable, dest: nat, useBase: bool, requireReverse: bool)
    requires cfg.Valid() && LaidOut(cfg, o) && TableOk(cfg, t) && dest < cfg.nodes && dest != cfg.me
    ensures NetFor(cfg, o, t, dest, useBase, requireReverse).Valid()
  {
    var net := NetFor(cfg, o, t, dest, useBase, requireReverse);
    forall j | 0 <= j < |net.list| ensures Tail(net.list[j]) < net.Size() && Head(net.list[j]) < net.Size() {
      assert net.list[j] in o.list;
    }
  }

  /** Every configuration and cost table gives a network the path theorems apply to. */
  lemma NetForOk(cfg: Config, o: Layout, t: CostTable, dest: nat, useBase: bool, requireReverse: bool)
    requires cfg.Valid() && LaidOut(cfg, o) && TableOk(cfg, t) && dest < cfg.nodes && dest != cfg.me
    ensures var net := NetFor(cfg, o, t, dest, useBase, requireReverse);
            && net.Valid() && net.Costed()
            && (forall e :: e in o.list ==>
                  (e.arc in net.cost <==> ArcPrice(t, e.arc, useBase, requireReverse).Price?))
  {
    NetForValid(cfg, o, t, dest, useBase, requireReverse);
    var net := NetFor(cfg, o, t, dest, useBase, requireReverse);
    forall i | 0 <= i < cfg.nodes ensures Internal(i) in net.cost {
      assert cfg.Configured(Internal(i)) && FlowEdge(Internal(i), false) in o.list;
    }
    forall a, b | a in net.cost ensures FlowEdge(a, b) in net.list {
      var e :| e in o.list && e.arc == a;
    }
  }

  /** `x` is the amount an edge counts for: its configured cost, or its current cost without the sign. */
  predicate Amount(s: EdgeState, useBase: bool, x: int) {
    if useBase then x == s.base else x >= 0 && (x == s.cost || x == -s.cost)
  }

  /**
   * The network in terms of the cost table alone. A configured link is left out exactly if current
   * costs are asked for and its cost, or a reverse cost that is asked for, is -1; a lossy link, with
   * any other negative cost, stays. It costs its amount, or the larger of both directions'.
   */
  lemma NetPrices(cfg: Config, o: Layout, t: CostTable, dest: nat, useBase: bool, requireReverse: bool,
                  a: Arc, x: int, y: int)
    requires LaidOut(cfg, o) && TableOk(cfg, t) && a.Link? && cfg.Configured(a)
    requires Amount(t[(a.src, a.dst)], useBase, x) && Amount(t[(a.dst, a.src)], useBase, y)
    ensures var cost, there, back :=
              NetFor(cfg, o, t, dest, useBase, requireReverse).cost, t[(a.src, a.dst)].cost, t[(a.dst, a.src)].cost;
            && (a in cost <==> useBase || (there != -1 && (requireReverse ==> back != -1)))
            && (a in cost && !requireReverse ==> cost[a] == x)
            && (a in cost && requireReverse ==> x <= cost[a] && y <= cost[a] && (cost[a] == x || cost[a] == y))
  {
    assert FlowEdge(a, false) in o.list;
  }

  /** Passing through a node costs nothing. */
  lemma NodesAreFree(cfg: Config, o: Layout, t: CostTable, dest: nat, useBase: bool, requireReverse: bool, i: nat)
    requires LaidOut(cfg, o) && TableOk(cfg, t) && i < cfg.nodes
    ensures var cost := NetFor(cfg, o, t, dest, useBase, requireReverse).cost;
            Internal(i) in cost && cost[Internal(i)] == 0
  {
    assert FlowEdge(Internal(i), false) in o.list;
  }
}

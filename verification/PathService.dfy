/** The mutable state of daemon/multipath.c and the operations on it. */
module PathService {
  import opened FlowNetwork
  import opened BellmanFord
  import opened Augmentation
  import opened SuccessivePaths
  import opened Bitmask
  import opened GraphTypes
  import opened MultiPath

  /** Once a sweep changes nothing, no later one does: breaking out early gives the final labels. */
  lemma {:induction false} RoundsFixed(net: Net, flow: set<Arc>, i: nat, m: nat)
    requires net.Valid() && i <= m && Rounds(net, flow, i + 1) == Rounds(net, flow, i)
    ensures Rounds(net, flow, m) == Rounds(net, flow, i)
  {
    if i < m {
      RoundsFixed(net, flow, i, m - 1);
    }
  }

  /** After an unreached sink no more paths are added, whatever the limit. */
  lemma {:induction false} ComputeStops(net: Net, i: nat, m: nat)
    requires net.Valid() && i <= m
    requires Compute(net, i).found < i || !Reached(net, Compute(net, i).flow)
    ensures Compute(net, m) == Compute(net, i)
  {
    if i < m {
      ComputeStops(net, i, m - 1);
    }
  }

  /** A run that finds r < k paths agrees with the runs for every limit from r upwards. */
  lemma {:induction false} ShortRunsAgree(net: Net, k: nat, i: nat)
    requires net.Valid() && Compute(net, k).found < k && Compute(net, k).found <= i
    ensures Compute(net, i) == Compute(net, k)
  {
    var r := Compute(net, k).found;
    if Compute(net, k - 1).found == k - 1 {
      assert Compute(net, k) == Compute(net, k - 1) && r == k - 1;
      ComputeStops(net, r, i);
    } else {
      ShortRunsAgree(net, k - 1, i);
    }
  }

  lemma HasPotential(net: Net, i: nat) returns (p: seq<int>)
    requires net.Valid() && net.Costed()
    ensures net.Potential(Compute(net, i).flow, p)
  {
    p := ComputeKeeps(net, i);
  }

  class KPaths {
    const cfg: Config
    const layout: Layout
    var table: CostTable
    var flow: map<FlowEdge, int>
    var distance: seq<int>
    var previous: seq<Prev>
    var cache: map<(nat, nat), Mask>

    ghost predicate Configured()
      reads this`table
    {
      cfg.Valid() && LaidOut(cfg, layout) && TableOk(cfg, table)
    }

    /** The flow fields hold `arcs`: a real edge carries one unit there, its twin elsewhere. */
    ghost predicate Holds(arcs: set<Arc>)
      reads this`flow
    {
      forall e :: e in layout.list ==> e in flow && flow[e] == if e.residual <==> e.arc in arcs then 0 else 1
    }

    /** Flow on real edges starts empty, on residual edges full. */
    method ResetFlow()
      modifies this`flow
      ensures Holds({})
    {
      for j := 0 to |layout.list|
        invariant forall i :: 0 <= i < j ==>
                    layout.list[i] in flow && flow[layout.list[i]] == if layout.list[i].residual then 1 else 0
      {
        flow := flow[layout.list[j] := if layout.list[j].residual then 1 else 0];
      }
    }

    /** The fields and costs, read as the network `net`. */
    ghost predicate Sees(net: Net, useBase: bool, requireReverse: bool)
      reads this`table
    {
      && net.Valid() && net.list == layout.list && net.nodes == cfg.nodes && net.me == cfg.me
      && forall j :: 0 <= j < |net.list| ==> SeesEdge(net, net.list[j], useBase, requireReverse)
    }

    ghost predicate SeesEdge(net: Net, e: FlowEdge, useBase: bool, requireReverse: bool)
      reads this`table
    {
      && (e.arc.Link? ==> (e.arc.src, e.arc.dst) in table && (e.arc.dst, e.arc.src) in table)
      && match ArcPrice(table, e.arc, useBase, requireReverse)
         case Broken => e.arc !in net.cost
         case Price(c) => e.arc in net.cost && net.cost[e.arc] == c
    }

    lemma SeesNetwork(dest: nat, useBase: bool, requireReverse: bool)
      requires Configured() && dest < cfg.nodes && dest != cfg.me
      ensures var net := NetFor(cfg, layout, table, dest, useBase, requireReverse);
              Sees(net, useBase, requireReverse) && net.Costed()
    {
      NetForOk(cfg, layout, table, dest, useBase, requireReverse);
      var net := NetFor(cfg, layout, table, dest, useBase, requireReverse);
      forall j | 0 <= j < |net.list| ensures SeesEdge(net, net.list[j], useBase, requireReverse) {
        assert net.list[j] in layout.list;
      }
    }

    /** The guarded update of one edge in the relaxation loop. */
    method RelaxEdge(j: nat, useBase: bool, requireReverse: bool, ghost net: Net, ghost arcs: set<Arc>)
      returns (changed: bool)
      requires Sees(net, useBase, requireReverse) && Holds(arcs)
      requires Shaped(net, Labels(distance, previous)) && j < |net.list|
      modifies this`distance, this`previous
      ensures changed == Improves(net, arcs, old(Labels(distance, previous)), net.list[j])
      ensures Labels(distance, previous) == Relax(net, arcs, old(Labels(distance, previous)), net.list[j])
    {
      var e := layout.list[j];
      assert SeesEdge(net, net.list[j], useBase, requireReverse) && e in layout.list;
      changed := false;
      var price := ArcPrice(table, e.arc, useBase, requireReverse);
      if price.Price? {
        var cost := if e.residual then -price.cost else price.cost;
        if flow[e] < 1 && distance[Head(e)] > distance[Tail(e)] + cost {
          distance := distance[Head(e) := (distance[Tail(e)] + cost) % 0x1_0000];
          previous := previous[Head(e) := Via(e)];
          changed := true;
        }
      }
    }

    /** One pass over the list of flow edges. */
    method RelaxEdges(useBase: bool, requireReverse: bool, ghost net: Net,
                      ghost arcs: set<Arc>) returns (progress: bool)
      requires Sees(net, useBase, requireReverse) && Holds(arcs) && Shaped(net, Labels(distance, previous))
      modifies this`distance, this`previous
      ensures Labels(distance, previous) == Sweep(net, arcs, old(Labels(distance, previous)), |net.list|)
      ensures !progress ==> Labels(distance, previous) == old(Labels(distance, previous))
      ensures net.Relaxed(arcs, old(distance)) ==> !progress
    {
      ghost var start := Labels(distance, previous);
      progress := false;
      for j := 0 to |layout.list|
        invariant Labels(distance, previous) == Sweep(net, arcs, start, j)
        invariant !progress ==> Labels(distance, previous) == start
        invariant net.Relaxed(arcs, start.dist) ==> !progress
      {
        var changed := RelaxEdge(j, useBase, requireReverse, net, arcs);
        progress := progress || changed;
      }
    }

    /** Every label unreached but the source's, no predecessors. */
    method ResetLabels(ghost net: Net)
      requires net.Valid() && net.nodes == cfg.nodes && net.me == cfg.me
      modifies this`distance, this`previous
      ensures Labels(distance, previous) == InitLabels(net)
    {
      distance := seq(2 * cfg.nodes, v => if v == Out(cfg.me) then 0 else UNREACHED);
      previous := seq(2 * cfg.nodes, _ => NoEdge);
      assert Labels(distance, previous) == InitLabels(net);
    }

    /** The `i`-th sweep. */
    method RunRound(i: nat, useBase: bool, requireReverse: bool, ghost net: Net, ghost arcs: set<Arc>)
        returns (progress: bool)
      requires Sees(net, useBase, requireReverse) && Holds(arcs) && i > 0
      requires Labels(distance, previous) == Rounds(net, arcs, i - 1)
      modifies this`distance, this`previous
      ensures Labels(distance, previous) == Rounds(net, arcs, i)
      ensures !progress ==> Rounds(net, arcs, i) == Rounds(net, arcs, i - 1)
      ensures net.Relaxed(arcs, Rounds(net, arcs, i - 1).dist) ==> !progress
    {
      progress := RelaxEdges(useBase, requireReverse, net, arcs);
    }

    /** The relaxation loop; `negativeCycle` is the "Negative Cycle Found" exit. */
    method ShortestPaths(useBase: bool, requireReverse: bool, ghost net: Net, ghost arcs: set<Arc>)
      returns (negativeCycle: bool)
      requires Sees(net, useBase, requireReverse) && Holds(arcs)
      requires net.Relaxed(arcs, Rounds(net, arcs, MaxRounds(net) - 1).dist)
      modifies this`distance, this`previous
      ensures !negativeCycle && Labels(distance, previous) == Final(net, arcs)
    {
      ResetLabels(net);
      var i, progress := 1, true;
      while i <= 2 * cfg.nodes + 1
        invariant 1 <= i <= MaxRounds(net)
        invariant Labels(distance, previous) == Rounds(net, arcs, i - 1)
      {
        progress := RunRound(i, useBase, requireReverse, net, arcs);
        if !progress {
          RoundsFixed(net, arcs, i - 1, MaxRounds(net));
          break;
        }
        i := i + 1;
      }
      negativeCycle := progress;
    }

    /** Walks back from the destination, flipping flow and keeping the bag of edges in step. */
    method PushFlow(dest: nat, bag: set<Arc>, ghost net: Net, ghost p: seq<int>, ghost stamp: seq<nat>)
      returns (bag': set<Arc>)
      requires net.me == cfg.me && net.dest == dest && Holds(bag)
      requires net.Valid() && |previous| == |distance| == net.Size()
      requires Walking(net, bag, p, Labels(distance, previous), stamp, In(dest), Upto(net.Size()), bag,
                       Augment(net, bag))
      modifies this`flow
      ensures bag' == Augment(net, bag) && Holds(bag')
    {
      var t: FlowNode := In(dest);
      ghost var unmet := Upto(net.Size());
      bag' := bag;
      while t != Out(cfg.me)
        invariant t < net.Size() && Holds(bag')
        invariant Walking(net, bag, p, Labels(distance, previous), stamp, t, unmet, bag', Augment(net, bag))
        decreases stamp[t]
      {
        WalkStep(net, bag, p, Labels(distance, previous), stamp, t, unmet, bag', Augment(net, bag));
        var e := previous[t].edge;
        if e.residual {
          bag' := bag' - {e.arc};
        } else {
          bag' := bag' + {e.arc};
        }
        flow := flow[e := 1][FlowEdge(e.arc, !e.residual) := 0];
        unmet := unmet - {t};
        t := Tail(e);
      }
    }

    /** Empties the bag into a bitmask. */
    method MaskOfBag(bag: set<Arc>) returns (mask: Mask)
      requires Configured()
      ensures mask == MaskOf(cfg, layout, bag)
    {
      mask := Zero(cfg.maskBytes);
      var rest := bag;
      ghost var taken: set<Arc> := {};
      MaskOfBits(cfg, layout, {});
      while rest != {}
        invariant rest + taken == bag && IsMask(cfg, layout, mask, taken)
        decreases |rest|
      {
        var a :| a in rest;
        StampMask(cfg, layout, mask, taken, a);
        if a in layout.index {
          mask := Stamp(mask, layout.index[a]);
        }
        taken := taken + {a};
        rest := rest - {a};
      }
      assert taken == bag;
      MaskUnique(cfg, layout, mask, bag);
    }

    /** One path: label, and if the destination is reached, augment. */
    method OnePath(dest: nat, bag: set<Arc>, useBase: bool, requireReverse: bool, ghost net: Net, ghost i: nat)
      returns (reached: bool, bag': set<Arc>, fatal: bool)
      requires Sees(net, useBase, requireReverse) && net.Costed() && net.dest == dest && Holds(bag)
      requires Compute(net, i) == Run(bag, i)
      modifies this`flow, this`distance, this`previous
      ensures !fatal && Holds(bag') && reached == Reached(net, bag)
      ensures Compute(net, i + 1) == Run(bag', if reached then i + 1 else i)
    {
      ghost var p := HasPotential(net, i);
      Converges(net, bag, p);
      fatal := ShortestPaths(useBase, requireReverse, net, bag);
      reached := distance[In(dest)] != UNREACHED;
      bag' := bag;
      if reached {
        ghost var stamp := WalkStarts(net, bag, p);
        bag' := PushFlow(dest, bag, net, p, stamp);
      }
    }

    /** The loop over path indices. */
    method FindPaths(dest: nat, k: nat, useBase: bool, requireReverse: bool, ghost net: Net)
      returns (bag: set<Arc>, found: nat, fatal: bool)
      requires Sees(net, useBase, requireReverse) && net.Costed() && net.dest == dest && Holds({})
      modifies this`flow, this`distance, this`previous
      ensures !fatal && Compute(net, k) == Run(bag, found)
    {
      found, bag, fatal := 0, {}, false;
      while found < k
        invariant 0 <= found <= k && !fatal
        invariant Holds(bag) && Compute(net, found) == Run(bag, found)
      {
        var reached;
        reached, bag, fatal := OnePath(dest, bag, useBase, requireReverse, net, found);
        if !reached {
          ComputeStops(net, found, k);
          return;
        }
        found := found + 1;
      }
    }

    /**
     * `MultiPath_Compute`: the number of paths found and the mask of their links. `fatal` is either
     * of the exits "Negative Cycle Found" and "paths found > k".
     */
    method ComputePaths(dest: nat, k: nat, useBase: bool, requireReverse: bool)
      returns (found: nat, mask: Mask, fatal: bool)
      requires Configured() && dest < cfg.nodes
      modifies this`flow, this`distance, this`previous
      ensures !fatal
      ensures dest == cfg.me ==> found == k && mask == MaskOf(cfg, layout, {})
      ensures dest != cfg.me ==>
                var net := NetFor(cfg, layout, table, dest, useBase, requireReverse);
                && net.Valid() && found == Compute(net, k).found && mask == MaskOf(cfg, layout, Compute(net, k).flow)
    {
      if dest == cfg.me {
        mask := MaskOfBag({});
        return k, mask, false;
      }
      ghost var net := NetFor(cfg, layout, table, dest, useBase, requireReverse);
      SeesNetwork(dest, useBase, requireReverse);
      ResetFlow();
      var bag;
      bag, found, fatal := FindPaths(dest, k, useBase, requireReverse, net);
      mask := MaskOfBag(bag);
      fatal := fatal || found > k;
    }

    // ----- The cache -----

    /** The links a computation for (dest, k) would find now. */
    ghost function FreshFlow(dest: nat, k: nat): set<Arc>
      requires Configured() && dest < cfg.nodes
      reads this`table
    {
      var net := NetFor(cfg, layout, table, dest, false, false);
      if net.Valid() then Compute(net, k).flow else {}
    }

    ghost predicate IsFresh(m: Mask, dest: nat, k: nat)
      requires Configured() && dest < cfg.nodes
      reads this`table
    {
      m == MaskOf(cfg, layout, FreshFlow(dest, k))
    }

    /** Every cached mask is what a computation under the current costs would return. */
    ghost predicate Valid()
      reads this`table, this`cache
    {
      && Configured()
      && forall d, k :: (d, k) in cache ==> d < cfg.nodes && IsFresh(cache[(d, k)], d, k)
    }

    constructor (cfg: Config, layout: Layout, table: CostTable)
      requires cfg.Valid() && LaidOut(cfg, layout) && TableOk(cfg, table)
      ensures Valid() && this.cfg == cfg && this.layout == layout && this.table == table && cache == map[]
    {
      this.cfg, this.layout, this.table := cfg, layout, table;
      flow, distance, previous, cache := map[], [], [], map[];
    }

    /** `MultiPath_Clear_Cache`. */
    method ClearCache()
      requires Configured()
      modifies this`cache
      ensures Valid() && cache == map[]
    {
      cache := map[];
    }

    /** Every place that changes an edge's cost clears the cache with it. */
    method SetCost(src: nat, dst: nat, cost: int)
      requires Valid() && (src, dst) in table && -32767 <= cost <= 32767
      modifies this`table, this`cache
      ensures Valid() && cache == map[] && table == old(table)[(src, dst) := old(table)[(src, dst)].(cost := cost)]
    {
      table := table[(src, dst) := table[(src, dst)].(cost := cost)];
      ClearCache();
    }

    /** Entry (dest, k), filled if it is missing together with the entries a short run settles. */
    method Cached(dest: nat, k: nat, spread: bool) returns (entry: Mask)
      requires Valid() && dest < cfg.nodes && k <= MULTIPATH_MAX_K
      modifies this`flow, this`distance, this`previous, this`cache
      ensures Valid() && IsFresh(entry, dest, k)
    {
      if (dest, k) !in cache {
        var ret, mask, fatal := ComputePaths(dest, k, false, false);
        if dest == cfg.me {
          assert !NetFor(cfg, layout, table, dest, false, false).Valid();
        }
        assert IsFresh(mask, dest, k);
        cache := cache[(dest, k) := mask];
        if spread && 0 < ret < k {
          for i := ret to MULTIPATH_MAX_K + 1
            invariant Valid() && (dest, k) in cache
          {
            if i != k {
              assert IsFresh(mask, dest, i) by {
                ShortRunsAgree(NetFor(cfg, layout, table, dest, false, false), k, i);
              }
              cache := cache[(dest, i) := mask];
            }
          }
        }
      }
      entry := cache[(dest, k)];
    }

    /** The mask that targeted redundancy asks for: a precomputed graph, two fresh paths, or both. */
    ghost predicate GraphMask(mask: Mask, dest: nat, graph: GraphType, masks: GraphMasks)
      requires Configured() && dest < cfg.nodes
      reads this`table
    {
      match graph
      case Src => mask == masks.src
      case Dst => mask == masks.dst
      case NoGraph => IsFresh(mask, dest, 2)
      case K2 => IsFresh(mask, dest, 2)
      case SrcDst => exists paths :: IsFresh(paths, dest, 2) && MergedFrom(mask, paths, masks.srcDst)
    }

    /** Dissemination graphs; without one, two paths are used. */
    method StampGraph(dest: nat, graph: GraphType, masks: GraphMasks) returns (mask: Mask)
      requires Valid() && dest < cfg.nodes
      requires |masks.srcDst| == cfg.maskBytes
      modifies this`flow, this`distance, this`previous, this`cache
      ensures Valid() && GraphMask(mask, dest, graph, masks)
    {
      if graph == Src || graph == Dst {
        return if graph == Src then masks.src else masks.dst;
      }
      mask := Cached(dest, 2, graph == NoGraph);
      if graph == SrcDst {
        mask := Merge(mask, masks.srcDst);
      }
    }

    /** What a valid request is answered with: flooding, dissemination graphs or k fresh paths. */
    ghost predicate Answers(mask: Mask, destId: nat, k: nat, graph: GraphType, masks: GraphMasks)
      requires Configured() && (k > 0 ==> 0 < destId <= cfg.nodes)
      reads this`table
    {
      if k == 0 then |mask| == cfg.maskBytes && forall j :: 0 <= j < |mask| ==> mask[j] == 0xFF
      else if k == DG_K_FLAG then GraphMask(mask, destId - 1, graph, masks)
      else IsFresh(mask, destId - 1, if k > MULTIPATH_MAX_K then MULTIPATH_MAX_K else k)
    }

    /**
     * `MultiPath_Stamp_Bitmask` with the original's node numbers, which start at 1. `graph` and
     * `masks` are the destination's dissemination graph and its precomputed masks.
     */
    method StampBitmask(destId: nat, k: nat, graph: GraphType, masks: GraphMasks) returns (ok: bool, mask: Mask)
      requires Valid() && (k > 0 && 0 < destId <= MAX_NODES ==> destId <= cfg.nodes)
      requires |masks.srcDst| == cfg.maskBytes
      modifies this`flow, this`distance, this`previous, this`cache
      ensures Valid()
      ensures ok <==> destId <= MAX_NODES && (destId > 0 || k == 0)
      ensures ok ==> Answers(mask, destId, k, graph, masks)
    {
      ok, mask := true, [];
      if (destId == 0 && k > 0) || destId > MAX_NODES {
        ok := false;
      } else if k == 0 {
        mask := seq(cfg.maskBytes, _ => 0xFF);
      } else if k == DG_K_FLAG {
        mask := StampGraph(destId - 1, graph, masks);
      } else {
        mask := Cached(destId - 1, if k > MULTIPATH_MAX_K then MULTIPATH_MAX_K else k, true);
      }
    }
  }
}

/**
 * The destination-problem and source-problem graphs (daemon/dissem_graphs.c:268-414, 932-985)
 * and the masks computed from them for one destination (daemon/dissem_graphs.c:1413-1487).
 */
module ProblemGraphSpec {
  import opened SelectorSpec
  import opened Paths

  datatype DgEdge = DgEdge(cost: nat, index: nat)

  type Graph = map<EdgeKey, DgEdge>

  /** `Graph_add_edge` ignores edges from a node to itself. */
  ghost predicate LoopFree(g: Graph) { forall e :: e in g ==> e.src != e.dst }

  function Costs(g: Graph): Weights { map e | e in g :: g[e].cost }

  /** A neighbour of `dst` from which it can be reached in time, without passing through it before. */
  ghost predicate Target(g: Graph, src: nat, dst: nat, bound: int, n: nat) {
    && EdgeKey(n, dst) in g
    && WithinReach(Avoiding(Costs(g), dst), src, n, bound - g[EdgeKey(n, dst)].cost)
  }

  /** A shortest walk to `n` that avoids `dst` and lies in `r`. */
  ghost predicate Spans(g: Graph, src: nat, dst: nat, r: Graph, n: nat, p: seq<nat>) {
    && IsWalk(Avoiding(Costs(g), dst), p, src, n)
    && IsDistance(Avoiding(Costs(g), dst), src, n, Length(Avoiding(Costs(g), dst), p, src, n))
    && forall i :: 0 <= i < |p| - 1 ==> EdgeKey(p[i], p[i + 1]) in r
  }

  ghost predicate HasTree(g: Graph, src: nat, dst: nat, r: Graph, n: nat) {
    exists p :: Spans(g, src, dst, r, n, p)
  }

  /** The edge lies on a spanning walk to a target. */
  ghost predicate Needed(g: Graph, src: nat, dst: nat, bound: int, r: Graph, e: EdgeKey) {
    exists n, p, i :: && Target(g, src, dst, bound, n) && Spans(g, src, dst, r, n, p)
                      && 0 <= i < |p| - 1 && e == EdgeKey(p[i], p[i + 1])
  }

  /**
   * What a destination-problem graph is: the edges into `dst` from exactly its targets, and a
   * tree of shortest paths to them, with nothing else.
   */
  ghost predicate DstProblem(g: Graph, src: nat, dst: nat, bound: int, r: Graph) {
    && (forall e :: e in r ==> e in g && r[e] == g[e] && e.src != dst)
    && (forall n :: EdgeKey(n, dst) in r <==> Target(g, src, dst, bound, n))
    && (forall n :: Target(g, src, dst, bound, n) ==> HasTree(g, src, dst, r, n))
    && (forall e :: e in r && e.dst != dst ==> Needed(g, src, dst, bound, r, e))
    && (forall e, f :: e in r && f in r && e.dst == f.dst != dst ==> e == f)
  }

  /** Every edge the other way round. */
  function Turn(g: Graph): Graph {
    map e | e in g :: Swap(e) := g[e]
  }

  lemma TurnHas(g: Graph, e: EdgeKey)
    ensures Swap(e) in Turn(g) <==> e in g
    ensures e in g ==> Turn(g)[Swap(e)] == g[e]
  {
    if Swap(e) in Turn(g) {
      var f :| f in g && Swap(f) == Swap(e);
      assert f == e;
    }
  }

  /** The mirror image: the destination problem on the reversed graph. */
  ghost predicate SrcProblem(g: Graph, src: nat, dst: nat, bound: int, r: Graph) {
    DstProblem(Turn(g), dst, src, bound, Turn(r))
  }

  lemma TurnReverses(g: Graph)
    ensures Reversed(Costs(g), Costs(Turn(g)))
  {
    forall e ensures (e in Costs(g) <==> Swap(e) in Costs(Turn(g))) &&
                     (e in Costs(g) ==> Costs(Turn(g))[Swap(e)] == Costs(g)[e])
    {
      TurnHas(g, e);
    }
  }

  lemma AvoidingReverses(w: Weights, r: Weights, x: nat)
    requires Reversed(w, r)
    ensures Reversed(Avoiding(w, x), Avoiding(r, x))
  {
  }

  /** The source-problem graph holds exactly the edges out of `src` from whose ends `dst` is near enough. */
  lemma SrcTargets(g: Graph, src: nat, dst: nat, bound: int, r: Graph, n: nat)
    requires SrcProblem(g, src, dst, bound, r)
    ensures EdgeKey(src, n) in r <==>
              EdgeKey(src, n) in g && WithinReach(Avoiding(Costs(g), src), n, dst, bound - g[EdgeKey(src, n)].cost)
  {
    TurnHas(r, EdgeKey(src, n));
    TurnHas(g, EdgeKey(src, n));
    assert Swap(EdgeKey(src, n)) == EdgeKey(n, src);
    assert EdgeKey(n, src) in Turn(r) <==> Target(Turn(g), dst, src, bound, n);
    TurnReverses(g);
    AvoidingReverses(Costs(g), Costs(Turn(g)), src);
    if EdgeKey(src, n) in g {
      ReverseReach(Avoiding(Costs(g), src), Avoiding(Costs(Turn(g)), src), n, dst, bound - g[EdgeKey(src, n)].cost);
    }
  }

  /** A destination-problem graph is empty exactly if no path meets the bound. */
  lemma DstEmptyIff(g: Graph, src: nat, dst: nat, bound: int, r: Graph)
    requires DstProblem(g, src, dst, bound, r) && src != dst
    ensures r == map[] <==> !WithinReach(Costs(g), src, dst, bound)
  {
    ReachThroughNeighbour(Costs(g), src, dst, bound);
    if r != map[] {
      var e :| e in r;
      NonEmptyHasTarget(g, src, dst, bound, r, e);
    } else if n :| Target(g, src, dst, bound, n) {
      assert EdgeKey(n, dst) !in r;
    }
  }

  lemma NonEmptyHasTarget(g: Graph, src: nat, dst: nat, bound: int, r: Graph, e: EdgeKey)
    requires DstProblem(g, src, dst, bound, r) && e in r
    ensures exists n :: Target(g, src, dst, bound, n)
  {
    if e.dst == dst {
      assert EdgeKey(e.src, dst) == e;
    } else {
      assert Needed(g, src, dst, bound, r, e);
    }
  }

  /**
   * For distinct ends, either both problem graphs exist or neither: both are empty exactly if the
   * shortest path is longer than the bound.
   */
  lemma EmptyTogether(g: Graph, src: nat, dst: nat, bound: int, s: Graph, d: Graph)
    requires SrcProblem(g, src, dst, bound, s) && DstProblem(g, src, dst, bound, d) && src != dst
    ensures d == map[] <==> !WithinReach(Costs(g), src, dst, bound)
    ensures s == map[] <==> d == map[]
  {
    DstEmptyIff(g, src, dst, bound, d);
    DstEmptyIff(Turn(g), dst, src, bound, Turn(s));
    TurnReverses(g);
    ReverseReach(Costs(g), Costs(Turn(g)), src, dst, bound);
    TurnEmpty(s);
  }

  lemma TurnEmpty(g: Graph)
    ensures Turn(g) == map[] <==> g == map[]
  {
    if e :| e in g {
      TurnHas(g, e);
    }
  }
}

module ProblemGraphs {
  import opened SelectorSpec
  import opened Paths
  import opened Dijkstra
  import opened ProblemGraphSpec

  ghost function WalkEdges(p: seq<nat>): set<EdgeKey> {
    if |p| < 2 then {} else WalkEdges(p[..|p| - 1]) + {EdgeKey(p[|p| - 2], p[|p| - 1])}
  }

  /** `p` runs from the source along the predecessors, over edges of `g` that avoid `dst`. */
  ghost predicate Backtrace(g: Graph, dst: nat, src: nat, s: Search, p: seq<nat>) {
    && |p| > 0 && p[0] == src
    && (|p| > 1 ==>
          var u, v := p[|p| - 2], p[|p| - 1];
          && v != src && v in s.prev && s.prev[v] == u
          && EdgeKey(u, v) in g && u != dst && v != dst
          && Backtrace(g, dst, src, s, p[..|p| - 1]))
  }

  /** `p` is such a walk to `n`, and a shortest one. */
  ghost predicate TracedTo(g: Graph, dst: nat, src: nat, w: Weights, s: Search, n: nat, p: seq<nat>) {
    && Backtrace(g, dst, src, s, p) && p[|p| - 1] == n
    && IsWalk(w, p, src, n) && n in s.dist && Length(w, p, src, n) == s.dist[n]
  }

  lemma {:induction false} FindBacktrace(g: Graph, dst: nat, src: nat, w: Weights, s: Search, rank: map<nat, nat>,
                                         n: nat)
    returns (p: seq<nat>)
    requires Solved(w, src, s, rank) && n in s.done
    requires forall e :: e in w ==> e in g && e.src != dst && e.dst != dst
    ensures TracedTo(g, dst, src, w, s, n, p)
    decreases rank[n]
  {
    if n == src {
      p := [src];
    } else {
      assert Hangs(w, s, n);
      var q := FindBacktrace(g, dst, src, w, s, rank, s.prev[n]);
      ExtendWalk(w, q, src, s.prev[n], n);
      p := q + [n];
      assert p[..|p| - 1] == q;
    }
  }

  /** `Graph_add_edge` with the values of the base graph: an edge already present is left alone. */
  function AddEdge(g: Graph, r: Graph, e: EdgeKey): Graph
    requires e in g
  {
    if e in r then r else r[e := g[e]]
  }

  ghost predicate SubGraph(r: Graph, g: Graph) { forall e :: e in r ==> e in g && r[e] == g[e] }

  /** Adds the path from the source to `n`, walking back over the predecessors. */
  method AddPath(g: Graph, ghost dst: nat, src: nat, s: Search, n: nat, r0: Graph, ghost p: seq<nat>) returns (r: Graph)
    requires Backtrace(g, dst, src, s, p) && p[|p| - 1] == n && SubGraph(r0, g)
    ensures SubGraph(r, g) && r.Keys == r0.Keys + WalkEdges(p)
  {
    var x := n;
    r := r0;
    ghost var q := p;
    while x != src
      invariant Backtrace(g, dst, src, s, q) && q[|q| - 1] == x && SubGraph(r, g)
      invariant r.Keys + WalkEdges(q) == r0.Keys + WalkEdges(p)
      decreases |q|
    {
      assert |q| > 1;
      r := AddEdge(g, r, EdgeKey(s.prev[x], x));
      x := s.prev[x];
      q := q[..|q| - 1];
    }
    assert |q| == 1;
  }

  predicate Viable(g: Graph, s: Search, dst: nat, bound: int, n: nat) {
    n in s.done && n in s.dist && EdgeKey(n, dst) in g && g[EdgeKey(n, dst)].cost + s.dist[n] <= bound
  }

  /** The edges that `n` brings into the result. */
  ghost function Brings(dst: nat, walks: map<nat, seq<nat>>, n: nat): set<EdgeKey>
    requires n in walks
  {
    WalkEdges(walks[n]) + {EdgeKey(n, dst)}
  }

  /** What the viable nodes among `seen` bring together. */
  ghost function AllBring(g: Graph, dst: nat, bound: int, s: Search, walks: map<nat, seq<nat>>,
                          seen: seq<nat>): set<EdgeKey>
    requires forall i :: 0 <= i < |seen| ==> seen[i] in walks
  {
    if seen == [] then {}
    else
      var n, rest := seen[|seen| - 1], AllBring(g, dst, bound, s, walks, seen[..|seen| - 1]);
      if Viable(g, s, dst, bound, n) then rest + Brings(dst, walks, n) else rest
  }

  lemma {:induction false} AllBringMembers(g: Graph, dst: nat, bound: int, s: Search, walks: map<nat, seq<nat>>,
                                           seen: seq<nat>, e: EdgeKey)
    requires forall i :: 0 <= i < |seen| ==> seen[i] in walks
    ensures e in AllBring(g, dst, bound, s, walks, seen) <==>
              exists i :: 0 <= i < |seen| && Viable(g, s, dst, bound, seen[i]) && e in Brings(dst, walks, seen[i])
  {
    if seen != [] {
      AllBringMembers(g, dst, bound, s, walks, seen[..|seen| - 1], e);
    }
  }

  ghost predicate Traces(g: Graph, dst: nat, src: nat, s: Search, walks: map<nat, seq<nat>>) {
    walks.Keys == s.done &&
    forall n :: n in walks ==> Backtrace(g, dst, src, s, walks[n]) && walks[n][|walks[n]| - 1] == n
  }

  /** Adds one finished node with its path, if it is viable. */
  method CollectTarget(g: Graph, src: nat, dst: nat, bound: int, s: Search, n: nat, r0: Graph,
                       ghost p: seq<nat>) returns (r: Graph)
    requires Backtrace(g, dst, src, s, p) && p[|p| - 1] == n && SubGraph(r0, g)
    ensures SubGraph(r, g)
    ensures r.Keys == if Viable(g, s, dst, bound, n) then r0.Keys + (WalkEdges(p) + {EdgeKey(n, dst)}) else r0.Keys
  {
    r := r0;
    if Viable(g, s, dst, bound, n) {
      r := AddEdge(g, r, EdgeKey(n, dst));
      r := AddPath(g, dst, src, s, n, r, p);
    }
  }

  /** The nodes `seen` have been gone over, `todo` are left. */
  ghost predicate GoneOver(g: Graph, dst: nat, bound: int, s: Search, walks: map<nat, seq<nat>>, todo: set<nat>,
                           seen: seq<nat>, r: Graph) {
    && SubGraph(r, g) && todo <= s.done && (forall i :: 0 <= i < |seen| ==> seen[i] in walks)
    && (forall n :: n in s.done ==> n in todo || n in seen) && (forall i :: 0 <= i < |seen| ==> seen[i] in s.done)
    && r.Keys == AllBring(g, dst, bound, s, walks, seen)
  }

  lemma CollectStep(g: Graph, dst: nat, bound: int, s: Search, walks: map<nat, seq<nat>>, todo: set<nat>,
                    seen: seq<nat>,
                    r: Graph, r': Graph, n: nat)
    requires GoneOver(g, dst, bound, s, walks, todo, seen, r) && n in todo && n in walks && walks[n] != []
    requires SubGraph(r', g)
    requires r'.Keys ==
             if Viable(g, s, dst, bound, n) then r.Keys + (WalkEdges(walks[n]) + {EdgeKey(n, dst)}) else r.Keys
    ensures GoneOver(g, dst, bound, s, walks, todo - {n}, seen + [n], r')
  {
    assert (seen + [n])[..|seen|] == seen;
  }

  /** Goes over one more node. */
  method CollectNext(g: Graph, src: nat, dst: nat, bound: int, s: Search, n: nat, r: Graph,
                     ghost walks: map<nat, seq<nat>>, ghost todo: set<nat>, ghost seen: seq<nat>) returns (r': Graph)
    requires Traces(g, dst, src, s, walks) && GoneOver(g, dst, bound, s, walks, todo, seen, r) && n in todo
    ensures GoneOver(g, dst, bound, s, walks, todo - {n}, seen + [n], r')
  {
    TraceOf(g, dst, src, s, walks, n);
    r' := CollectTarget(g, src, dst, bound, s, n, r, walks[n]);
    CollectStep(g, dst, bound, s, walks, todo, seen, r, r', n);
  }

  /** Goes over the finished nodes and adds every viable one with its path. */
  method CollectTargets(g: Graph, src: nat, dst: nat, bound: int, s: Search, ghost walks: map<nat, seq<nat>>)
    returns (r: Graph, ghost seen: seq<nat>)
    requires Traces(g, dst, src, s, walks)
    ensures SubGraph(r, g) && forall n :: n in s.done <==> n in seen
    ensures (forall i :: 0 <= i < |seen| ==> seen[i] in walks) && r.Keys == AllBring(g, dst, bound, s, walks, seen)
  {
    r, seen := map[], [];
    var todo := s.done;
    while todo != {}
      invariant GoneOver(g, dst, bound, s, walks, todo, seen, r)
      decreases |todo|
    {
      var n :| n in todo;
      r := CollectNext(g, src, dst, bound, s, n, r, walks, todo, seen);
      seen, todo := seen + [n], todo - {n};
    }
    AllGoneOver(g, dst, bound, s, walks, seen, r);
  }

  lemma TraceOf(g: Graph, dst: nat, src: nat, s: Search, walks: map<nat, seq<nat>>, n: nat)
    requires Traces(g, dst, src, s, walks) && n in s.done
    ensures n in walks && walks[n] != [] && Backtrace(g, dst, src, s, walks[n]) && walks[n][|walks[n]| - 1] == n
  {
  }

  lemma AllGoneOver(g: Graph, dst: nat, bound: int, s: Search, walks: map<nat, seq<nat>>, seen: seq<nat>, r: Graph)
    requires GoneOver(g, dst, bound, s, walks, {}, seen, r)
    ensures forall n :: n in s.done <==> n in seen
  {
  }

  lemma ViableIsTarget(g: Graph, src: nat, dst: nat, bound: int, s: Search, rank: map<nat, nat>, n: nat)
    requires Solved(Avoiding(Costs(g), dst), src, s, rank)
    ensures Viable(g, s, dst, bound, n) <==> Target(g, src, dst, bound, n)
  {
    if EdgeKey(n, dst) in g {
      ReachIsLabel(Avoiding(Costs(g), dst), src, s, rank, n, bound - g[EdgeKey(n, dst)].cost);
    }
  }

  lemma {:induction false} OnBacktrace(g: Graph, dst: nat, src: nat, s: Search, p: seq<nat>, e: EdgeKey)
    requires Backtrace(g, dst, src, s, p) && e in WalkEdges(p)
    ensures e in g && e.src != dst && e.dst != dst && e.dst in s.prev && s.prev[e.dst] == e.src
    ensures exists i :: 0 <= i < |p| - 1 && e == EdgeKey(p[i], p[i + 1])
  {
    var u, v, q := p[|p| - 2], p[|p| - 1], p[..|p| - 1];
    if e == EdgeKey(u, v) {
      assert e == EdgeKey(p[|p| - 2], p[|p| - 2 + 1]);
    } else {
      OnBacktrace(g, dst, src, s, q, e);
      var i :| 0 <= i < |q| - 1 && e == EdgeKey(q[i], q[i + 1]);
      assert e == EdgeKey(p[i], p[i + 1]);
    }
  }

  lemma {:induction false} WalkEdgesHave(p: seq<nat>, i: nat)
    requires i < |p| - 1
    ensures EdgeKey(p[i], p[i + 1]) in WalkEdges(p)
  {
    if i < |p| - 2 {
      WalkEdgesHave(p[..|p| - 1], i);
    }
  }

  /** A collected target has its whole backtrace in the result. */
  lemma TargetSpanned(g: Graph, src: nat, dst: nat, s: Search, rank: map<nat, nat>, r: Graph, n: nat, p: seq<nat>)
    requires Solved(Avoiding(Costs(g), dst), src, s, rank) && n in s.done
    requires IsWalk(Avoiding(Costs(g), dst), p, src, n) && Length(Avoiding(Costs(g), dst), p, src, n) == s.dist[n]
    requires WalkEdges(p) <= r.Keys
    ensures Spans(g, src, dst, r, n, p)
  {
    LabelsAreDistances(Avoiding(Costs(g), dst), src, s, rank, n);
    forall i | 0 <= i < |p| - 1 ensures EdgeKey(p[i], p[i + 1]) in r {
      WalkEdgesHave(p, i);
    }
  }

  /** The walks of all finished nodes, and the result they make. */
  ghost predicate Collected(g: Graph, src: nat, dst: nat, bound: int, s: Search, rank: map<nat, nat>,
                            walks: map<nat, seq<nat>>, r: Graph) {
    && Solved(Avoiding(Costs(g), dst), src, s, rank) && Traces(g, dst, src, s, walks) && SubGraph(r, g)
    && (forall n :: n in walks ==>
          IsWalk(Avoiding(Costs(g), dst), walks[n], src, n) &&
          Length(Avoiding(Costs(g), dst), walks[n], src, n) == s.dist[n])
    && (forall e :: e in r <==> exists n :: n in walks && Viable(g, s, dst, bound, n) && e in Brings(dst, walks, n))
  }

  lemma CollectedIn(g: Graph, src: nat, dst: nat, bound: int, s: Search, rank: map<nat, nat>, walks: map<nat, seq<nat>>,
                    r: Graph, n: nat)
    requires Collected(g, src, dst, bound, s, rank, walks, r)
    ensures EdgeKey(n, dst) in r <==> Target(g, src, dst, bound, n)
    ensures Target(g, src, dst, bound, n) ==> n in walks && Spans(g, src, dst, r, n, walks[n])
  {
    ViableIsTarget(g, src, dst, bound, s, rank, n);
    var e := EdgeKey(n, dst);
    if Viable(g, s, dst, bound, n) {
      assert e in Brings(dst, walks, n);
      assert WalkEdges(walks[n]) <= r.Keys by {
        forall f | f in WalkEdges(walks[n]) ensures f in r {
          assert f in Brings(dst, walks, n);
        }
      }
      TargetSpanned(g, src, dst, s, rank, r, n, walks[n]);
    } else if e in r {
      var m :| m in walks && Viable(g, s, dst, bound, m) && e in Brings(dst, walks, m);
      OnBacktrace(g, dst, src, s, walks[m], e);
    }
  }

  lemma CollectedEdge(g: Graph, src: nat, dst: nat, bound: int, s: Search, rank: map<nat, nat>,
                      walks: map<nat, seq<nat>>, r: Graph, e: EdgeKey)
    requires Collected(g, src, dst, bound, s, rank, walks, r) && LoopFree(g) && e in r
    ensures e.src != dst
    ensures e.dst != dst ==> Needed(g, src, dst, bound, r, e) && e.dst in s.prev && e.src == s.prev[e.dst]
  {
    var n :| n in walks && Viable(g, s, dst, bound, n) && e in Brings(dst, walks, n);
    if e in WalkEdges(walks[n]) {
      OnBacktrace(g, dst, src, s, walks[n], e);
      ViableIsTarget(g, src, dst, bound, s, rank, n);
      CollectedIn(g, src, dst, bound, s, rank, walks, r, n);
    }
  }

  lemma CollectedIsProblem(g: Graph, src: nat, dst: nat, bound: int, s: Search, rank: map<nat, nat>,
                           walks: map<nat, seq<nat>>, r: Graph)
    requires Collected(g, src, dst, bound, s, rank, walks, r) && LoopFree(g)
    ensures DstProblem(g, src, dst, bound, r)
  {
    forall n ensures (EdgeKey(n, dst) in r <==> Target(g, src, dst, bound, n)) &&
                     (Target(g, src, dst, bound, n) ==> HasTree(g, src, dst, r, n))
    {
      CollectedIn(g, src, dst, bound, s, rank, walks, r, n);
    }
    forall e | e in r
      ensures e.src != dst
      ensures e.dst != dst ==> Needed(g, src, dst, bound, r, e) && e.dst in s.prev && e.src == s.prev[e.dst]
    {
      CollectedEdge(g, src, dst, bound, s, rank, walks, r, e);
    }
  }

  lemma AllBacktraces(g: Graph, dst: nat, src: nat, w: Weights, s: Search, rank: map<nat, nat>, seen: set<nat>)
    returns (walks: map<nat, seq<nat>>)
    requires Solved(w, src, s, rank) && seen <= s.done
    requires forall e :: e in w ==> e in g && e.src != dst && e.dst != dst
    ensures walks.Keys == seen && forall n :: n in walks ==> TracedTo(g, dst, src, w, s, n, walks[n])
    decreases |seen|
  {
    if seen == {} {
      walks := map[];
    } else {
      var n :| n in seen;
      walks := AllBacktraces(g, dst, src, w, s, rank, seen - {n});
      var p := FindBacktrace(g, dst, src, w, s, rank, n);
      walks := walks[n := p];
    }
  }

  /** `Destination_Problem_Shortest_Path_Tree`. */
  method DestinationProblemGraph(g: Graph, src: nat, dst: nat, bound: int) returns (r: Graph)
    requires LoopFree(g)
    ensures DstProblem(g, src, dst, bound, r)
  {
    var w: Weights := map e | e in g && e.src != dst && e.dst != dst :: g[e].cost;
    assert w == Avoiding(Costs(g), dst);
    var s, rank := Solve(w, src);
    ghost var walks := AllBacktraces(g, dst, src, w, s, rank, s.done);
    ghost var seen;
    r, seen := CollectTargets(g, src, dst, bound, s, walks);
    SeenIsCollected(g, src, dst, bound, s, rank, walks, seen, r);
    CollectedIsProblem(g, src, dst, bound, s, rank, walks, r);
  }

  lemma SeenIsCollected(g: Graph, src: nat, dst: nat, bound: int, s: Search, rank: map<nat, nat>,
                        walks: map<nat, seq<nat>>, seen: seq<nat>, r: Graph)
    requires walks.Keys == s.done && (forall n :: n in s.done <==> n in seen)
    requires (forall i :: 0 <= i < |seen| ==> seen[i] in walks) && r.Keys == AllBring(g, dst, bound, s, walks, seen)
    ensures forall e :: e in r <==> exists n :: n in walks && Viable(g, s, dst, bound, n) && e in Brings(dst, walks, n)
  {
    forall e ensures e in r <==> exists n :: n in walks && Viable(g, s, dst, bound, n) && e in Brings(dst, walks, n) {
      AllBringMembers(g, dst, bound, s, walks, seen, e);
      if n :| n in walks && Viable(g, s, dst, bound, n) && e in Brings(dst, walks, n) {
        var i :| 0 <= i < |seen| && seen[i] == n;
      }
    }
  }

  // ----- Source problem: reverse, solve, reverse -----

  lemma TurnTwice(g: Graph)
    ensures Turn(Turn(g)) == g
  {
    var t := Turn(Turn(g));
    forall e ensures (e in t <==> e in g) && (e in g ==> t[e] == g[e]) {
      TurnHas(g, e);
      TurnHas(Turn(g), Swap(e));
    }
  }

  lemma TurnLoopFree(g: Graph)
    requires LoopFree(g)
    ensures LoopFree(Turn(g))
  {
  }

  ghost predicate TurnOf(t: Graph, g: Graph) {
    forall e :: (Swap(e) in t <==> e in g) && (e in g ==> t[Swap(e)] == g[e])
  }

  lemma TurnUnique(t: Graph, g: Graph)
    requires TurnOf(t, g)
    ensures t == Turn(g)
  {
    forall e ensures (e in t <==> e in Turn(g)) && (e in t ==> t[e] == Turn(g)[e]) {
      TurnHas(g, Swap(e));
      assert Swap(Swap(e)) == e;
    }
  }

  /** Adds every edge the other way round to an empty graph. */
  method ReverseGraph(g: Graph) returns (t: Graph)
    ensures t == Turn(g)
  {
    t := map[];
    var todo := g.Keys;
    assert g - todo == map[];
    while todo != {}
      invariant todo <= g.Keys && TurnOf(t, g - todo)
      decreases |todo|
    {
      var e :| e in todo;
      TurnGrows(t, g - todo, e, g[e]);
      Without(g, todo, e);
      t := t[Swap(e) := g[e]];
      todo := todo - {e};
    }
    assert g - todo == g;
    TurnUnique(t, g);
  }

  /** Taking one more edge off the list of edges to do. */
  lemma Without(g: Graph, todo: set<EdgeKey>, e: EdgeKey)
    requires e in todo && todo <= g.Keys
    ensures g - (todo - {e}) == (g - todo)[e := g[e]] && e !in g - todo
  {
  }

  lemma TurnGrows(t: Graph, g: Graph, e: EdgeKey, v: DgEdge)
    requires TurnOf(t, g)
    ensures TurnOf(t[Swap(e) := v], g[e := v])
  {
  }

  /** `Source_Problem_Graph` for directed edges; the empty graph stands for NULL. */
  method SourceProblemGraph(g: Graph, src: nat, dst: nat, bound: int) returns (r: Graph)
    requires LoopFree(g)
    ensures SrcProblem(g, src, dst, bound, r)
  {
    var t := ReverseGraph(g);
    TurnLoopFree(g);
    var d := DestinationProblemGraph(t, dst, src, bound);
    r := ReverseGraph(d);
    TurnTwice(d);
  }
}

/** The masks and edge lists of one destination (daemon/dissem_graphs.c:133-155, 719-762, 1404-1487). */
module GraphMasks {
  import opened Bitmask
  import opened SelectorSpec
  import opened Paths
  import opened ProblemGraphSpec
  import opened ProblemGraphs
  import opened Selector

  ghost predicate Fits(g: Graph, size: nat) { forall e :: e in g ==> Byte(g[e].index) < size }

  ghost predicate MaskOfGraph(m: Mask, g: Graph) {
    forall i :: 0 <= i && Byte(i) < |m| ==> (Bit(m, i) <==> exists e :: e in g && g[e].index == i)
  }

  /** `Graph_to_Bitmask`. */
  method GraphToBitmask(g: Graph, size: nat) returns (m: Mask)
    requires Fits(g, size)
    ensures |m| == size && MaskOfGraph(m, g)
  {
    m := Zero(size);
    var todo := g.Keys;
    EmptyMask(size);
    assert g - todo == map[];
    while todo != {}
      invariant todo <= g.Keys && |m| == size && MaskOfGraph(m, g - todo)
      decreases |todo|
    {
      var e :| e in todo;
      Without(g, todo, e);
      StampGraphEdge(m, g - todo, e, g[e]);
      m := Stamp(m, g[e].index);
      todo := todo - {e};
    }
    assert g - todo == g;
  }

  lemma EmptyMask(size: nat)
    ensures MaskOfGraph(Zero(size), map[])
  {
    forall i | 0 <= i && Byte(i) < size ensures !Bit(Zero(size), i) { ZeroBit(size, i); }
  }

  lemma StampGraphEdge(m: Mask, g: Graph, e: EdgeKey, v: DgEdge)
    requires MaskOfGraph(m, g) && Byte(v.index) < |m| && e !in g
    ensures MaskOfGraph(Stamp(m, v.index), g[e := v])
  {
    var g' := g[e := v];
    forall i | 0 <= i && Byte(i) < |m|
      ensures Bit(Stamp(m, v.index), i) <==> exists f :: f in g' && g'[f].index == i
    {
      StampBit(m, v.index, i);
      if i == v.index {
        assert g'[e].index == i;
      } else if f :| f in g && g[f].index == i {
        assert g'[f].index == i;
      }
    }
  }

  /** A graph's mask is all zero exactly if the graph is empty. */
  lemma ZeroMaskIffEmpty(m: Mask, g: Graph)
    requires MaskOfGraph(m, g) && Fits(g, |m|)
    ensures m == Zero(|m|) <==> g == map[]
  {
    if g == map[] {
      forall i | 0 <= i && Byte(i) < |m| ensures Bit(m, i) <==> Bit(Zero(|m|), i) { ZeroBit(|m|, i); }
      SameBits(m, Zero(|m|));
    } else {
      var e :| e in g;
      ZeroBit(|m|, g[e].index);
    }
  }

  /** A mask that stayed zero falls back to the two static paths. */
  function OrTwoPaths(m: Mask, k2: Mask): Mask { if m == Zero(|m|) then k2 else m }

  /** The union of both problem graphs, or nothing if one of them is missing. */
  function Union(s: Graph, d: Graph): Graph { if s == map[] || d == map[] then map[] else d + s }

  /** The three problem masks of one destination, given its mask of two static paths. */
  method ComputeMasks(g: Graph, me: nat, dest: nat, bound: int, k2: Mask)
    returns (src: Mask, dst: Mask, srcDst: Mask, ghost s: Graph, ghost d: Graph)
    requires LoopFree(g) && Fits(g, |k2|)
    ensures |src| == |dst| == |srcDst| == |k2|
    ensures SrcProblem(g, me, dest, bound, s) && DstProblem(g, me, dest, bound, d)
    ensures me != dest && WithinReach(Costs(g), me, dest, bound) ==>
              MaskOfGraph(src, s) && MaskOfGraph(dst, d) && MaskOfGraph(srcDst, d + s) && s != map[] && d != map[]
    ensures me != dest && !WithinReach(Costs(g), me, dest, bound) ==> src == k2 && dst == k2 && srcDst == k2
  {
    var sg := SourceProblemGraph(g, me, dest, bound);
    var dg := DestinationProblemGraph(g, me, dest, bound);
    s, d := sg, dg;
    PartsFit(g, me, dest, bound, sg, dg, |k2|);
    src := GraphToBitmask(sg, |k2|);
    dst := GraphToBitmask(dg, |k2|);
    srcDst := GraphToBitmask(Union(sg, dg), |k2|);
    ZeroMaskIffEmpty(src, sg);
    ZeroMaskIffEmpty(dst, dg);
    ZeroMaskIffEmpty(srcDst, Union(sg, dg));
    if me != dest {
      EmptyTogether(g, me, dest, bound, sg, dg);
    }
    src, dst, srcDst := OrTwoPaths(src, k2), OrTwoPaths(dst, k2), OrTwoPaths(srcDst, k2);
  }

  lemma PartsFit(g: Graph, me: nat, dest: nat, bound: int, s: Graph, d: Graph, size: nat)
    requires Fits(g, size) && SrcProblem(g, me, dest, bound, s) && DstProblem(g, me, dest, bound, d)
    ensures Fits(s, size) && Fits(d, size) && Fits(Union(s, d), size)
  {
    forall e | e in s ensures e in g && s[e] == g[e] {
      TurnHas(s, e);
      assert Swap(e) in Turn(s);
      TurnHas(g, e);
    }
  }

  /** The configured edges whose bit is set, in order: the edge list that goes with a mask. */
  method FillEdgeList(keys: seq<EdgeKey>, m: Mask) returns (edges: seq<EdgeKey>)
    requires forall j :: 0 <= j < |keys| ==> Byte(j) < |m|
    requires forall i, j :: 0 <= i < j < |keys| ==> keys[i] != keys[j]
    ensures forall j :: 0 <= j < |keys| ==> (keys[j] in edges <==> Bit(m, j))
    ensures forall e :: e in edges ==> e in keys
  {
    edges := [];
    for j := 0 to |keys|
      invariant forall i :: 0 <= i < j ==> (keys[i] in edges <==> Bit(m, i))
      invariant forall e :: e in edges ==> e in keys[..j]
    {
      var on := EdgeInGraph(j, m);
      assert keys[j] !in edges;
      if on {
        edges := edges + [keys[j]];
      }
    }
  }

  /** The lists that `FillEdgeList` makes for a set of destinations' masks. */
  ghost predicate Filled(keys: seq<EdgeKey>, masks: map<nat, Mask>, lists: map<nat, seq<EdgeKey>>) {
    && lists.Keys <= masks.Keys
    && forall i, j :: i in lists && 0 <= j < |keys| ==>
         Byte(j) < |masks[i]| && (keys[j] in lists[i] <==> Bit(masks[i], j))
  }

  method FillAll(keys: seq<EdgeKey>, masks: map<nat, Mask>) returns (lists: map<nat, seq<EdgeKey>>)
    requires forall i, j :: i in masks && 0 <= j < |keys| ==> Byte(j) < |masks[i]|
    requires forall i, j :: 0 <= i < j < |keys| ==> keys[i] != keys[j]
    ensures Filled(keys, masks, lists) && lists.Keys == masks.Keys
  {
    lists := map[];
    var todo := masks.Keys;
    while todo != {}
      invariant todo <= masks.Keys && lists.Keys == masks.Keys - todo && Filled(keys, masks, lists)
      decreases |todo|
    {
      var i :| i in todo;
      var edges := FillEdgeList(keys, masks[i]);
      lists := lists[i := edges];
      todo := todo - {i};
    }
  }

  method IndexKeys(keys: seq<EdgeKey>) returns (index: map<EdgeKey, nat>)
    requires forall i, j :: 0 <= i < j < |keys| ==> keys[i] != keys[j]
    ensures forall e :: e in index <==> e in keys
    ensures forall e :: e in index ==> index[e] < |keys| && keys[index[e]] == e
  {
    index := map[];
    for j := 0 to |keys|
      invariant forall e :: e in index <==> e in keys[..j]
      invariant forall e :: e in index ==> index[e] < j && keys[index[e]] == e
    {
      index := index[keys[j] := j];
    }
  }

  /** The selector's static tables for masks of all planned destinations. */
  method PlanGraphs(me: nat, maxNodes: nat, keys: seq<EdgeKey>, srcMask: map<nat, Mask>, dstMask: map<nat, Mask>)
    returns (plan: Plan, index: map<EdgeKey, nat>)
    requires forall i, j :: 0 <= i < j < |keys| ==> keys[i] != keys[j]
    requires forall e :: e in keys ==> 0 < e.src <= maxNodes && 0 < e.dst <= maxNodes
    requires srcMask.Keys == dstMask.Keys && forall i :: i in srcMask ==> 0 < i <= maxNodes
    requires forall i, j :: i in srcMask && 0 <= j < |keys| ==> Byte(j) < |srcMask[i]| && Byte(j) < |dstMask[i]|
    ensures PlanOk(plan, maxNodes, index, srcMask, dstMask) && plan.me == me && plan.planned == srcMask.Keys
  {
    index := IndexKeys(keys);
    var src := FillAll(keys, srcMask);
    var dst := FillAll(keys, dstMask);
    plan := Plan(me, srcMask.Keys, src, dst);
    forall i, e | i in plan.planned && e in index
      ensures InMask(index, srcMask[i], src[i], e) && InMask(index, dstMask[i], dst[i], e)
    {
      assert keys[index[e]] == e;
    }
  }
}

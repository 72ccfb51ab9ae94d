/**
 * Shortest paths on the configured graph (daemon/dissem_graphs.c): what a path costs, and
 * Dijkstra's loop on the nodes still open.
 */
module Paths {
  import opened SelectorSpec

  /** Edge costs; latencies are not negative. */
  type Weights = map<EdgeKey, nat>

  ghost predicate IsWalk(w: Weights, p: seq<nat>, from: nat, to: nat) {
    && |p| > 0 && p[0] == from && p[|p| - 1] == to
    && forall i :: 0 <= i < |p| - 1 ==> EdgeKey(p[i], p[i + 1]) in w
  }

  /** The cost of the first `n` edges of `p`. */
  ghost function Cost(w: Weights, p: seq<nat>, n: nat): (c: int)
    requires n < |p| && forall i :: 0 <= i < |p| - 1 ==> EdgeKey(p[i], p[i + 1]) in w
    ensures c >= 0
  {
    if n == 0 then 0 else Cost(w, p, n - 1) + w[EdgeKey(p[n - 1], p[n])]
  }

  ghost function Length(w: Weights, p: seq<nat>, from: nat, to: nat): int
    requires IsWalk(w, p, from, to)
  {
    Cost(w, p, |p| - 1)
  }

  /** `d` is the least length of a walk. */
  ghost predicate IsDistance(w: Weights, from: nat, to: nat, d: int) {
    && (exists p :: IsWalk(w, p, from, to) && Length(w, p, from, to) == d)
    && (forall p :: IsWalk(w, p, from, to) ==> Length(w, p, from, to) >= d)
  }

  ghost predicate WithinReach(w: Weights, from: nat, to: nat, bound: int) {
    exists p :: IsWalk(w, p, from, to) && Length(w, p, from, to) <= bound
  }

  lemma {:induction false} CostPrefix(w: Weights, p: seq<nat>, q: seq<nat>, n: nat)
    requires p <= q && n < |p| && forall i :: 0 <= i < |q| - 1 ==> EdgeKey(q[i], q[i + 1]) in w
    ensures forall i :: 0 <= i < |p| - 1 ==> EdgeKey(p[i], p[i + 1]) in w
    ensures Cost(w, p, n) == Cost(w, q, n)
  {
    forall i | 0 <= i < |p| - 1 ensures EdgeKey(p[i], p[i + 1]) in w {
      assert EdgeKey(q[i], q[i + 1]) in w;
    }
    if n != 0 {
      CostPrefix(w, p, q, n - 1);
    }
  }

  lemma {:induction false} CostMonotone(w: Weights, p: seq<nat>, m: nat, n: nat)
    requires m <= n < |p| && forall i :: 0 <= i < |p| - 1 ==> EdgeKey(p[i], p[i + 1]) in w
    ensures Cost(w, p, m) <= Cost(w, p, n)
  {
    if m < n {
      CostMonotone(w, p, m, n - 1);
    }
  }

  lemma ExtendWalk(w: Weights, p: seq<nat>, from: nat, mid: nat, to: nat)
    requires IsWalk(w, p, from, mid) && EdgeKey(mid, to) in w
    ensures IsWalk(w, p + [to], from, to)
    ensures Length(w, p + [to], from, to) == Length(w, p, from, mid) + w[EdgeKey(mid, to)]
  {
    var q := p + [to];
    forall i | 0 <= i < |q| - 1 ensures EdgeKey(q[i], q[i + 1]) in w {
      if i < |p| - 1 {
        assert EdgeKey(p[i], p[i + 1]) in w;
      }
    }
    CostPrefix(w, p, q, |p| - 1);
  }

  /** The edges that do not touch `x`. */
  ghost function Avoiding(w: Weights, x: nat): Weights {
    map e | e in w && e.src != x && e.dst != x :: w[e]
  }

  /**
   * Reaching `to` within the bound means reaching some neighbour of it without touching it, with
   * room left for the last edge.
   */
  lemma ReachThroughNeighbour(w: Weights, from: nat, to: nat, bound: int)
    requires from != to
    ensures WithinReach(w, from, to, bound) <==>
              exists n :: EdgeKey(n, to) in w && WithinReach(Avoiding(w, to), from, n, bound - w[EdgeKey(n, to)])
  {
    var v := Avoiding(w, to);
    if WithinReach(w, from, to, bound) {
      var p :| IsWalk(w, p, from, to) && Length(w, p, from, to) <= bound;
      var k := FirstVisit(p, to);
      CutWalk(w, p, from, to, k);
      var q := p[..k];
      assert WithinReach(v, from, p[k - 1], bound - w[EdgeKey(p[k - 1], to)]);
    }
    if n :| EdgeKey(n, to) in w && WithinReach(v, from, n, bound - w[EdgeKey(n, to)]) {
      var p :| IsWalk(v, p, from, n) && Length(v, p, from, n) <= bound - w[EdgeKey(n, to)];
      AvoidingIsSub(w, to, p, |p| - 1);
      assert IsWalk(w, p, from, n);
      ExtendWalk(w, p, from, n, to);
    }
  }

  lemma {:induction false} FirstVisit(p: seq<nat>, x: nat) returns (k: nat)
    requires x in p
    ensures k < |p| && p[k] == x && x !in p[..k]
  {
    if p[0] == x {
      k := 0;
    } else {
      k := FirstVisit(p[1..], x);
      k := k + 1;
      assert p[..k] == [p[0]] + p[1..][..k - 1];
    }
  }

  lemma CutWalk(w: Weights, p: seq<nat>, from: nat, to: nat, k: nat)
    requires IsWalk(w, p, from, to) && from != to && k < |p| && p[k] == to && to !in p[..k]
    ensures k > 0 && EdgeKey(p[k - 1], to) in w
    ensures IsWalk(Avoiding(w, to), p[..k], from, p[k - 1])
    ensures Length(Avoiding(w, to), p[..k], from, p[k - 1]) + w[EdgeKey(p[k - 1], to)] <= Length(w, p, from, to)
  {
    assert EdgeKey(p[k - 1], p[k]) in w;
    var q := p[..k];
    forall i | 0 <= i < |q| - 1 ensures EdgeKey(q[i], q[i + 1]) in Avoiding(w, to) {
      assert EdgeKey(p[i], p[i + 1]) in w && q[i] != to && q[i + 1] != to;
    }
    AvoidingIsSub(w, to, q, k - 1);
    CostPrefix(w, q, p, k - 1);
    CostMonotone(w, p, k, |p| - 1);
  }

  lemma {:induction false} AvoidingIsSub(w: Weights, x: nat, p: seq<nat>, n: nat)
    requires n < |p| && forall i :: 0 <= i < |p| - 1 ==> EdgeKey(p[i], p[i + 1]) in Avoiding(w, x)
    ensures forall i :: 0 <= i < |p| - 1 ==> EdgeKey(p[i], p[i + 1]) in w
    ensures Cost(Avoiding(w, x), p, n) == Cost(w, p, n)
  {
    forall i | 0 <= i < |p| - 1 ensures EdgeKey(p[i], p[i + 1]) in w {
      assert EdgeKey(p[i], p[i + 1]) in Avoiding(w, x);
    }
    if n != 0 {
      AvoidingIsSub(w, x, p, n - 1);
      assert EdgeKey(p[n - 1], p[n]) in Avoiding(w, x);
    }
  }

  // ----- Reversal -----

  function Swap(e: EdgeKey): EdgeKey { EdgeKey(e.dst, e.src) }

  ghost predicate Reversed(w: Weights, r: Weights) {
    forall e :: (e in w <==> Swap(e) in r) && (e in w ==> r[Swap(e)] == w[e])
  }

  ghost function Backwards(p: seq<nat>): seq<nat> { seq(|p|, i requires 0 <= i < |p| => p[|p| - 1 - i]) }

  /** Turning every edge around turns every walk around and keeps its length. */
  lemma ReverseWalk(w: Weights, r: Weights, p: seq<nat>, from: nat, to: nat)
    requires Reversed(w, r) && IsWalk(w, p, from, to)
    ensures IsWalk(r, Backwards(p), to, from)
    ensures Length(r, Backwards(p), to, from) == Length(w, p, from, to)
  {
    var q := Backwards(p);
    forall i | 0 <= i < |q| - 1 ensures EdgeKey(q[i], q[i + 1]) in r {
      var j := |p| - 2 - i;
      assert EdgeKey(p[j], p[j + 1]) in w && Swap(EdgeKey(p[j], p[j + 1])) == EdgeKey(q[i], q[i + 1]);
    }
    ReverseCost(w, r, p, |p| - 1);
  }

  lemma {:induction false} ReverseCost(w: Weights, r: Weights, p: seq<nat>, n: nat)
    requires Reversed(w, r) && n < |p| && forall i :: 0 <= i < |p| - 1 ==> EdgeKey(p[i], p[i + 1]) in w
    requires forall i :: 0 <= i < |p| - 1 ==> EdgeKey(Backwards(p)[i], Backwards(p)[i + 1]) in r
    ensures Cost(r, Backwards(p), |p| - 1) == Cost(r, Backwards(p), |p| - 1 - n) + Cost(w, p, n)
  {
    if n != 0 {
      ReverseCost(w, r, p, n - 1);
      var q, m := Backwards(p), |p| - n;
      assert EdgeKey(p[n - 1], p[n]) in w && Swap(EdgeKey(p[n - 1], p[n])) == EdgeKey(q[m - 1], q[m]);
    }
  }

  lemma ReverseReach(w: Weights, r: Weights, from: nat, to: nat, bound: int)
    requires Reversed(w, r)
    ensures WithinReach(w, from, to, bound) <==> WithinReach(r, to, from, bound)
  {
    if WithinReach(w, from, to, bound) {
      var p :| IsWalk(w, p, from, to) && Length(w, p, from, to) <= bound;
      ReverseWalk(w, r, p, from, to);
    }
    if WithinReach(r, to, from, bound) {
      var p :| IsWalk(r, p, to, from) && Length(r, p, to, from) <= bound;
      assert Reversed(r, w) by { ReversedBack(w, r); }
      ReverseWalk(r, w, p, to, from);
    }
  }

  lemma ReversedBack(w: Weights, r: Weights)
    requires Reversed(w, r)
    ensures Reversed(r, w)
  {
    forall e ensures (e in r <==> Swap(e) in w) && (e in r ==> w[Swap(e)] == r[e]) {
      assert Swap(Swap(e)) == e;
      assert Swap(e) in w <==> Swap(Swap(e)) in r;
    }
  }
}

module Dijkstra {
  import opened SelectorSpec
  import opened Paths

  /** Labels of the reached nodes, their predecessors, and the nodes open and done. */
  datatype Search = Search(dist: map<nat, int>, prev: map<nat, nat>, open: set<nat>, done: set<nat>)

  /** A labelled node other than the source hangs on a finished one by a tight edge. */
  ghost predicate Hangs(w: Weights, s: Search, v: nat) {
    && v in s.dist && v in s.prev && s.prev[v] in s.done && s.prev[v] in s.dist
    && EdgeKey(s.prev[v], v) in w && s.dist[v] == s.dist[s.prev[v]] + w[EdgeKey(s.prev[v], v)]
  }

  ghost predicate EdgeRelaxed(w: Weights, s: Search, e: EdgeKey)
    requires e in w
  {
    e.src in s.dist && e.dst in s.dist && s.dist[e.dst] <= s.dist[e.src] + w[e]
  }

  /** Finished nodes hang on nodes finished before them; `rank` is the order. */
  ghost predicate Ordered(s: Search, src: nat, rank: map<nat, nat>) {
    && s.done == rank.Keys && (forall v :: v in rank ==> rank[v] < |s.done|)
    && (forall v :: v in s.done && v != src ==> v in s.prev && s.prev[v] in rank && rank[s.prev[v]] < rank[v])
  }

  /** What the loop keeps about nodes and labels. */
  ghost predicate Tree(w: Weights, src: nat, s: Search) {
    && s.open !! s.done && src in s.dist && s.dist[src] == 0
    && (forall e :: e in w ==> e.src in s.open + s.done && e.dst in s.open + s.done)
    && s.done <= s.dist.Keys <= s.open + s.done
    && (forall v :: v in s.dist ==> s.dist[v] >= 0 && (v != src ==> Hangs(w, s, v)))
  }

  ghost predicate Inv(w: Weights, src: nat, s: Search, rank: map<nat, nat>) {
    && Tree(w, src, s) && Ordered(s, src, rank)
    && (forall e :: e in w && e.src in s.done ==> EdgeRelaxed(w, s, e))
  }

  /** Finished nodes are no farther than `b`, open labelled ones no nearer. */
  ghost predicate Frontier(s: Search, b: int) {
    && (forall v :: v in s.done && v in s.dist ==> s.dist[v] <= b)
    && (forall v :: v in s.open && v in s.dist ==> b <= s.dist[v])
  }

  /** When the loop ends: the finished nodes are closed under edges and hang on each other. */
  ghost predicate Solved(w: Weights, src: nat, s: Search, rank: map<nat, nat>) {
    && src in s.done && s.done <= s.dist.Keys && s.done == rank.Keys && s.dist[src] == 0
    && (forall e :: e in w && e.src in s.done ==> e.dst in s.done && EdgeRelaxed(w, s, e))
    && (forall v :: v in s.done && v != src ==> Hangs(w, s, v) && rank[s.prev[v]] < rank[v])
  }

  /** A node of least label among the open ones, if any is labelled. */
  method FindMin(s: Search) returns (found: bool, m: nat)
    ensures found ==> m in s.open && m in s.dist && forall v :: v in s.open && v in s.dist ==> s.dist[m] <= s.dist[v]
    ensures !found ==> forall v :: v in s.open ==> v !in s.dist
  {
    var todo := s.open;
    found, m := false, 0;
    while todo != {}
      invariant todo <= s.open
      invariant found ==> m in s.open && m in s.dist &&
                          forall v :: v in s.open - todo && v in s.dist ==> s.dist[m] <= s.dist[v]
      invariant !found ==> forall v :: v in s.open - todo ==> v !in s.dist
      decreases |todo|
    {
      var n :| n in todo;
      if n in s.dist && (!found || s.dist[n] < s.dist[m]) {
        found, m := true, n;
      }
      todo := todo - {n};
    }
  }

  function OutEdges(w: Weights, m: nat): (out: set<EdgeKey>)
    ensures forall e :: e in out <==> e in w && e.src == m
  {
    set e | e in w && e.src == m
  }

  /** While the neighbours of `m` are updated: `todo` edges of `m` may still be unrelaxed. */
  ghost predicate Relaxing(w: Weights, src: nat, s: Search, rank: map<nat, nat>, m: nat, todo: set<EdgeKey>) {
    && m in s.done && m in s.dist && Tree(w, src, s) && Ordered(s, src, rank) && Frontier(s, s.dist[m])
    && (forall e :: e in todo ==> e in w && e.src == m)
    && (forall e :: e in w && e.src in s.done && e !in todo ==> EdgeRelaxed(w, s, e))
  }

  predicate Lowers(w: Weights, s: Search, e: EdgeKey)
    requires e in w && e.src in s.dist
  {
    e.dst !in s.dist || s.dist[e.src] + w[e] < s.dist[e.dst]
  }

  /** See if the distance of one neighbour can be lowered. */
  function Improve(w: Weights, s: Search, e: EdgeKey): Search
    requires e in w && e.src in s.dist
  {
    if Lowers(w, s, e) then
      s.(dist := s.dist[e.dst := s.dist[e.src] + w[e]], prev := s.prev[e.dst := e.src])
    else s
  }

  /** Only open nodes are ever relabelled. */
  lemma LoweredIsOpen(w: Weights, src: nat, s: Search, rank: map<nat, nat>, m: nat, todo: set<EdgeKey>, e: EdgeKey)
    requires Relaxing(w, src, s, rank, m, todo) && e in todo && Lowers(w, s, e)
    ensures e.dst in s.open && e.dst != src
  {
  }

  lemma ImproveTree(w: Weights, src: nat, s: Search, e: EdgeKey)
    requires Tree(w, src, s) && e in w && e.src in s.done && e.src in s.dist && Lowers(w, s, e)
    requires e.dst in s.open && e.dst != src
    ensures Tree(w, src, Improve(w, s, e))
  {
    var s' := Improve(w, s, e);
    forall v | v in s'.dist && v != src ensures Hangs(w, s', v) {
      if v != e.dst {
        assert Hangs(w, s, v);
      }
    }
  }

  lemma ImproveOrdered(w: Weights, src: nat, s: Search, rank: map<nat, nat>, e: EdgeKey)
    requires Ordered(s, src, rank) && e in w && e.src in s.dist && Lowers(w, s, e) && e.dst !in s.done
    ensures Ordered(Improve(w, s, e), src, rank)
  {
    var s' := Improve(w, s, e);
    forall v | v in s'.done && v != src ensures v in s'.prev && s'.prev[v] in rank && rank[s'.prev[v]] < rank[v] {
      assert v != e.dst && s'.prev[v] == s.prev[v];
    }
  }

  lemma ImproveFrontier(w: Weights, s: Search, m: nat, e: EdgeKey)
    requires m in s.dist && Frontier(s, s.dist[m]) && e in w && e.src == m && w[e] >= 0
    requires Lowers(w, s, e) && e.dst !in s.done && e.dst != m
    ensures Frontier(Improve(w, s, e), s.dist[m])
  {
  }

  lemma LoweredKeeps(w: Weights, src: nat, s: Search, rank: map<nat, nat>, m: nat, todo: set<EdgeKey>, e: EdgeKey)
    requires Relaxing(w, src, s, rank, m, todo) && e in todo && Lowers(w, s, e)
    ensures Relaxing(w, src, Improve(w, s, e), rank, m, todo - {e})
  {
    LoweredIsOpen(w, src, s, rank, m, todo, e);
    ImproveTree(w, src, s, e);
    ImproveOrdered(w, src, s, rank, e);
    ImproveFrontier(w, s, m, e);
    ImproveRelaxes(w, s, m, todo, e);
  }

  lemma ImproveKeeps(w: Weights, src: nat, s: Search, rank: map<nat, nat>, m: nat, todo: set<EdgeKey>, e: EdgeKey)
    requires Relaxing(w, src, s, rank, m, todo) && e in todo
    ensures Relaxing(w, src, Improve(w, s, e), rank, m, todo - {e})
    ensures var s' := Improve(w, s, e); s'.dist[m] == s.dist[m] && s'.open == s.open && s'.done == s.done
  {
    if Lowers(w, s, e) {
      LoweredIsOpen(w, src, s, rank, m, todo, e);
      LoweredKeeps(w, src, s, rank, m, todo, e);
    }
  }

  lemma ImproveRelaxes(w: Weights, s: Search, m: nat, todo: set<EdgeKey>, e: EdgeKey)
    requires e in w && e.src in s.dist && Lowers(w, s, e) && e.dst !in s.done
    requires forall f :: f in w && f.src in s.done && f !in todo ==> EdgeRelaxed(w, s, f)
    ensures forall f :: f in w && f.src in s.done && f !in todo - {e} ==> EdgeRelaxed(w, Improve(w, s, e), f)
  {
    forall f | f in w && f.src in s.done && f !in todo - {e} ensures EdgeRelaxed(w, Improve(w, s, e), f) {
      assert f == e || EdgeRelaxed(w, s, f);
    }
  }

  /** The labels of the neighbours of `m`, which has just been finished. */
  method UpdateNeighbours(w: Weights, src: nat, s0: Search, m: nat, ghost rank: map<nat, nat>) returns (s: Search)
    requires Relaxing(w, src, s0, rank, m, OutEdges(w, m))
    ensures Inv(w, src, s, rank) && Frontier(s, s0.dist[m]) && s.open == s0.open && s.done == s0.done
  {
    var todo := OutEdges(w, m);
    s := s0;
    while todo != {}
      invariant Relaxing(w, src, s, rank, m, todo) && s.dist[m] == s0.dist[m]
      invariant s.open == s0.open && s.done == s0.done
      decreases |todo|
    {
      var e :| e in todo;
      ImproveKeeps(w, src, s, rank, m, todo, e);
      s := Improve(w, s, e);
      todo := todo - {e};
    }
  }

  function Finish(s: Search, m: nat): Search { s.(open := s.open - {m}, done := s.done + {m}) }

  lemma FinishTree(w: Weights, src: nat, s: Search, m: nat)
    requires Tree(w, src, s) && m in s.open && m in s.dist
    ensures Tree(w, src, Finish(s, m)) && m !in s.done && (m != src ==> m in s.prev && s.prev[m] in s.done)
  {
    assert m != src ==> Hangs(w, s, m);
    forall v | v in s.dist && v != src ensures Hangs(w, Finish(s, m), v) { assert Hangs(w, s, v); }
  }

  lemma FinishOrdered(s: Search, src: nat, rank: map<nat, nat>, m: nat)
    requires Ordered(s, src, rank) && m !in s.done && (m != src ==> m in s.prev && s.prev[m] in s.done)
    ensures Ordered(Finish(s, m), src, rank[m := |s.done|])
  {
    assert |s.done + {m}| == |s.done| + 1;
  }

  lemma FinishFrontier(s: Search, b: int, m: nat)
    requires Frontier(s, b) && m in s.open && m in s.dist
    requires forall v :: v in s.open && v in s.dist ==> s.dist[m] <= s.dist[v]
    ensures Frontier(Finish(s, m), s.dist[m])
  {
  }

  lemma FinishRelaxed(w: Weights, s: Search, m: nat)
    requires forall e :: e in w && e.src in s.done ==> EdgeRelaxed(w, s, e)
    ensures forall e :: e in w && e.src in Finish(s, m).done && e.src != m ==> EdgeRelaxed(w, Finish(s, m), e)
  {
    forall e | e in w && e.src in s.done ensures EdgeRelaxed(w, Finish(s, m), e) {
      assert EdgeRelaxed(w, s, e);
    }
  }

  /** Finishing the closest open node. */
  lemma FinishKeeps(w: Weights, src: nat, s: Search, rank: map<nat, nat>, b: int, m: nat)
    requires Inv(w, src, s, rank) && Frontier(s, b) && m in s.open && m in s.dist
    requires forall v :: v in s.open && v in s.dist ==> s.dist[m] <= s.dist[v]
    ensures Relaxing(w, src, Finish(s, m), rank[m := |s.done|], m, OutEdges(w, m))
  {
    FinishTree(w, src, s, m);
    FinishOrdered(s, src, rank, m);
    FinishFrontier(s, b, m);
    FinishRelaxed(w, s, m);
  }

  /** Shortest paths from `src` to every node it reaches. */
  method Solve(w: Weights, src: nat) returns (s: Search, ghost rank: map<nat, nat>)
    ensures Solved(w, src, s, rank)
  {
    var nodes := {src} + (set e | e in w :: e.src) + (set e | e in w :: e.dst);
    s, rank := Search(map[src := 0], map[], nodes, {}), map[];
    ghost var b := 0;
    while s.open != {}
      invariant Inv(w, src, s, rank) && Frontier(s, b)
      decreases |s.open|
    {
      var found, m := FindMin(s);
      if !found {
        break;
      }
      FinishKeeps(w, src, s, rank, b, m);
      rank := rank[m := |s.done|];
      s := Finish(s, m);
      b := s.dist[m];
      s := UpdateNeighbours(w, src, s, m, rank);
    }
    EndIsSolved(w, src, s, rank);
  }

  lemma EndIsSolved(w: Weights, src: nat, s: Search, rank: map<nat, nat>)
    requires Inv(w, src, s, rank) && forall v :: v in s.open ==> v !in s.dist
    ensures Solved(w, src, s, rank)
  {
    forall e | e in w && e.src in s.done ensures e.dst in s.done && EdgeRelaxed(w, s, e) {
      assert EdgeRelaxed(w, s, e);
    }
    forall v | v in s.done && v != src ensures Hangs(w, s, v) && rank[s.prev[v]] < rank[v] {
      assert Hangs(w, s, v);
    }
  }

  // ----- The labels are the distances -----

  lemma {:induction false} WalkStaysDone(w: Weights, src: nat, s: Search, rank: map<nat, nat>, p: seq<nat>, to: nat,
                                         n: nat)
    requires Solved(w, src, s, rank) && IsWalk(w, p, src, to) && n < |p|
    ensures p[n] in s.done && s.dist[p[n]] <= Cost(w, p, n)
  {
    if n != 0 {
      WalkStaysDone(w, src, s, rank, p, to, n - 1);
      assert EdgeRelaxed(w, s, EdgeKey(p[n - 1], p[n]));
    }
  }

  lemma {:induction false} FollowTree(w: Weights, src: nat, s: Search, rank: map<nat, nat>,
                                      v: nat) returns (p: seq<nat>)
    requires Solved(w, src, s, rank) && v in s.done
    ensures IsWalk(w, p, src, v) && Length(w, p, src, v) == s.dist[v]
    decreases rank[v]
  {
    if v == src {
      p := [src];
    } else {
      assert Hangs(w, s, v);
      var q := FollowTree(w, src, s, rank, s.prev[v]);
      ExtendWalk(w, q, src, s.prev[v], v);
      p := q + [v];
    }
  }

  /** Dijkstra's correctness: exactly the reachable nodes are finished, with their distances. */
  lemma LabelsAreDistances(w: Weights, src: nat, s: Search, rank: map<nat, nat>, v: nat)
    requires Solved(w, src, s, rank)
    ensures v in s.done <==> exists p :: IsWalk(w, p, src, v)
    ensures v in s.done ==> IsDistance(w, src, v, s.dist[v])
  {
    forall p | IsWalk(w, p, src, v) ensures v in s.done && s.dist[v] <= Length(w, p, src, v) {
      WalkStaysDone(w, src, s, rank, p, v, |p| - 1);
    }
    if v in s.done {
      var p := FollowTree(w, src, s, rank, v);
    }
  }

  lemma ReachIsLabel(w: Weights, src: nat, s: Search, rank: map<nat, nat>, v: nat, bound: int)
    requires Solved(w, src, s, rank)
    ensures WithinReach(w, src, v, bound) <==> v in s.done && s.dist[v] <= bound
  {
    LabelsAreDistances(w, src, s, rank, v);
  }
}

/**
 * The dissemination-graph selector (daemon/dissem_graphs.c): for every destination, which of the
 * precomputed graphs to use given the edges that currently have problems.
 */
module SelectorSpec {
  import opened GraphTypes

  datatype EdgeKey = EdgeKey(src: nat, dst: nat)

  const THRESHOLD: int := 2

  /** Problem edges that leave `me`, by their far end; and that enter `i`, by their near end. */
  ghost function OutOf(problems: set<EdgeKey>, me: nat): set<nat> { set e | e in problems && e.src == me :: e.dst }

  ghost function Into(problems: set<EdgeKey>, i: nat): set<nat> { set e | e in problems && e.dst == i :: e.src }

  /** A problem on the source graph away from the source, or on the destination graph away from the destination. */
  ghost predicate SrcHit(problems: set<EdgeKey>, edges: seq<EdgeKey>, me: nat) {
    exists e :: e in edges && e.src != me && e in problems
  }

  ghost predicate DstHit(problems: set<EdgeKey>, edges: seq<EdgeKey>, i: nat) {
    exists e :: e in edges && e.dst != i && e in problems
  }

  /** The choice from the two problem counts and the two hits. */
  function Pick(s: int, d: int, srcHit: bool, dstHit: bool): GraphType {
    if s < THRESHOLD && d < THRESHOLD then K2
    else if s >= THRESHOLD && d >= THRESHOLD then SrcDst
    else if s >= THRESHOLD then (if srcHit then SrcDst else Src)
    else (if dstHit then SrcDst else Dst)
  }

  /** The graphs of one node: which destinations have them, and the edges of the two problem graphs. */
  datatype Plan = Plan(me: nat, planned: set<nat>, src: map<nat, seq<EdgeKey>>, dst: map<nat, seq<EdgeKey>>) {
    ghost predicate Valid() { src.Keys == planned == dst.Keys }

    /** The graph for destination `i` as a function of the problem set alone. */
    ghost function Choose(problems: set<EdgeKey>, i: nat): GraphType
      requires Valid()
    {
      if i !in planned then NoGraph
      else Pick(|OutOf(problems, me)|, |Into(problems, i)|, SrcHit(problems, src[i], me), DstHit(problems, dst[i], i))
    }
  }

  // ----- The choice in terms of the problem edges -----

  /** Two problem edges leave `me`; two enter `i`. */
  ghost predicate TwoOut(problems: set<EdgeKey>, me: nat) {
    exists a, b :: EdgeKey(me, a) in problems && EdgeKey(me, b) in problems && a != b
  }

  ghost predicate TwoInto(problems: set<EdgeKey>, i: nat) {
    exists a, b :: EdgeKey(a, i) in problems && EdgeKey(b, i) in problems && a != b
  }

  lemma AtLeastTwo(xs: set<nat>)
    ensures |xs| >= 2 <==> exists a, b :: a in xs && b in xs && a != b
  {
    if |xs| >= 2 {
      var a :| a in xs;
      assert |xs - {a}| == |xs| - 1;
      var b :| b in xs - {a};
      assert a in xs && b in xs && a != b;
    }
    if a, b :| a in xs && b in xs && a != b {
      assert {a, b} <= xs && |{a, b}| == 2;
      SubsetSize({a, b}, xs);
    }
  }

  lemma {:induction false} SubsetSize(a: set<nat>, b: set<nat>)
    requires a <= b
    ensures |a| <= |b|
    decreases |a|
  {
    if a != {} {
      var x :| x in a;
      SubsetSize(a - {x}, b - {x});
    }
  }

  /**
   * One problem edge at an end does not matter. Two or more out of this node call for the source graph,
   * two or more into the destination for the destination graph, and both, or a problem elsewhere on
   * the graph called for, for the one that covers both ends.
   */
  lemma ChoiceByEdges(plan: Plan, problems: set<EdgeKey>, i: nat)
    requires plan.Valid() && i in plan.planned
    ensures var out, into, g := TwoOut(problems, plan.me), TwoInto(problems, i), plan.Choose(problems, i);
            && (g == K2 <==> !out && !into)
            && (g == Src <==> out && !into && !SrcHit(problems, plan.src[i], plan.me))
            && (g == Dst <==> into && !out && !DstHit(problems, plan.dst[i], i))
            && (g == SrcDst <==> (out && into) || (out && SrcHit(problems, plan.src[i], plan.me)) ||
                                 (into && DstHit(problems, plan.dst[i], i)))
  {
    AtLeastTwo(OutOf(problems, plan.me));
    AtLeastTwo(Into(problems, i));
    assert forall a :: a in OutOf(problems, plan.me) <==> EdgeKey(plan.me, a) in problems;
    assert forall a :: a in Into(problems, i) <==> EdgeKey(a, i) in problems;
  }

  /** A cost report on an edge, with the cost recorded before it. */
  datatype Update = Update(edge: EdgeKey, before: int, after: int)

  /** Costs fall into three classes: dead (-1), lossy (below -1) and good. */
  predicate SameStatus(a: int, b: int) {
    (a == -1 && b == -1) || (a < -1 && b < -1) || (a >= 0 && b >= 0)
  }

  ghost function Apply(problems: set<EdgeKey>, u: Update): set<EdgeKey> {
    if SameStatus(u.after, u.before) then problems
    else if u.after < 0 then problems + {u.edge}
    else problems - {u.edge}
  }

  ghost function Replay(updates: seq<Update>): set<EdgeKey> {
    if updates == [] then {} else Apply(Replay(updates[..|updates| - 1]), updates[|updates| - 1])
  }

  // ----- The problem set in terms of the edges' costs -----

  /** The cost of an edge after some updates; edges start dead. */
  ghost function CostAfter(updates: seq<Update>, e: EdgeKey): int {
    if updates == [] then -1
    else
      var last := updates[|updates| - 1];
      if last.edge == e then last.after else CostAfter(updates[..|updates| - 1], e)
  }

  /** Every report comes with the cost the edge really had. */
  ghost predicate Truthful(updates: seq<Update>) {
    forall n :: 0 <= n < |updates| ==> updates[n].before == CostAfter(updates[..n], updates[n].edge)
  }

  ghost predicate EverChanged(updates: seq<Update>, e: EdgeKey) {
    exists n :: 0 <= n < |updates| && updates[n].edge == e && !SameStatus(updates[n].after, updates[n].before)
  }

  /** An edge is in the problem set exactly if its cost is negative and has changed class since the start. */
  lemma {:induction false} ProblemsAreNegativeCosts(updates: seq<Update>, e: EdgeKey)
    requires Truthful(updates)
    ensures e in Replay(updates) <==> CostAfter(updates, e) < 0 && EverChanged(updates, e)
    ensures !EverChanged(updates, e) ==> CostAfter(updates, e) == -1
  {
    if updates != [] {
      var n := |updates| - 1;
      var front, last := updates[..n], updates[n];
      assert forall m :: 0 <= m < n ==> front[..m] == updates[..m];
      ProblemsAreNegativeCosts(front, e);
      ChangedStep(updates, e);
    }
  }

  lemma ChangedStep(updates: seq<Update>, e: EdgeKey)
    requires updates != []
    ensures var last := updates[|updates| - 1];
            EverChanged(updates, e) <==>
            EverChanged(updates[..|updates| - 1], e) || (last.edge == e && !SameStatus(last.after, last.before))
  {
    var front := updates[..|updates| - 1];
    if EverChanged(front, e) {
      var n :| 0 <= n < |front| && front[n].edge == e && !SameStatus(front[n].after, front[n].before);
      assert updates[n] == front[n];
    }
    if EverChanged(updates, e) {
      var n :| 0 <= n < |updates| && updates[n].edge == e && !SameStatus(updates[n].after, updates[n].before);
      assert n < |front| ==> front[n] == updates[n];
    }
  }
}

module Selector {
  import opened GraphTypes
  import opened Bitmask
  import opened SelectorSpec

  lemma OutOfGrows(p: set<EdgeKey>, e: EdgeKey, me: nat)
    requires e !in p
    ensures OutOf(p + {e}, me) == (if e.src == me then OutOf(p, me) + {e.dst} else OutOf(p, me))
    ensures e.src == me ==> e.dst !in OutOf(p, me)
  {
  }

  lemma IntoGrows(p: set<EdgeKey>, e: EdgeKey, i: nat)
    requires e !in p
    ensures Into(p + {e}, i) == (if e.dst == i then Into(p, i) + {e.src} else Into(p, i))
    ensures e.dst == i ==> e.src !in Into(p, i)
  {
  }

  /** An edge's index fits the mask, and its bit says whether the edge is in the list. */
  ghost predicate InMask(index: map<EdgeKey, nat>, m: Mask, edges: seq<EdgeKey>, e: EdgeKey)
    requires e in index
  {
    Byte(index[e]) < |m| && (Bit(m, index[e]) <==> e in edges)
  }

  /** The masks and the edge lists of a graph name the same configured edges. */
  ghost predicate PlanOk(plan: Plan, maxNodes: nat, index: map<EdgeKey, nat>, srcMask: map<nat, Mask>,
                         dstMask: map<nat, Mask>) {
    && plan.Valid() && srcMask.Keys == plan.planned == dstMask.Keys
    && (forall i :: i in plan.planned ==> 0 < i <= maxNodes)
    && (forall e :: e in index ==> 0 < e.src <= maxNodes && 0 < e.dst <= maxNodes)
    && (forall i, e :: i in plan.planned && e in index ==>
          InMask(index, srcMask[i], plan.src[i], e) && InMask(index, dstMask[i], plan.dst[i], e))
  }

  ghost predicate CountsOk(plan: Plan, p: set<EdgeKey>, srcMarked: set<nat>, srcCount: int, dstMarked: seq<set<nat>>,
                           dstCount: seq<int>) {
    && srcMarked == OutOf(p, plan.me) && srcCount == |srcMarked| && |dstMarked| == |dstCount|
    && forall i :: i in plan.planned && i < |dstMarked| ==> dstMarked[i] == Into(p, i) && dstCount[i] == |dstMarked[i]|
  }

  /** Counters and flags of a destination are kept only if graphs are planned for it. */
  function Bump(plan: Plan, counts: seq<int>, d: nat, delta: int): seq<int> {
    if d in plan.planned && d < |counts| then counts[d := counts[d] + delta] else counts
  }

  function Mark(plan: Plan, marks: seq<set<nat>>, e: EdgeKey): seq<set<nat>> {
    if e.dst in plan.planned && e.dst < |marks| then marks[e.dst := marks[e.dst] + {e.src}] else marks
  }

  function Unmark(plan: Plan, marks: seq<set<nat>>, e: EdgeKey): seq<set<nat>> {
    if e.dst in plan.planned && e.dst < |marks| then marks[e.dst := marks[e.dst] - {e.src}] else marks
  }

  lemma CountsStart(plan: Plan, p: set<EdgeKey>, e: EdgeKey, srcMarked: set<nat>, srcCount: int,
                    dstMarked: seq<set<nat>>, dstCount: seq<int>)
    requires CountsOk(plan, p, srcMarked, srcCount, dstMarked, dstCount) && e !in p
    ensures e.src == plan.me ==> e.dst !in srcMarked
    ensures e.dst in plan.planned && e.dst < |dstMarked| ==> e.src !in dstMarked[e.dst]
    ensures CountsOk(plan, p + {e}, if e.src == plan.me then srcMarked + {e.dst} else srcMarked,
                     if e.src == plan.me then srcCount + 1 else srcCount,
                     Mark(plan, dstMarked, e), Bump(plan, dstCount, e.dst, 1))
  {
    OutOfGrows(p, e, plan.me);
    forall i | i in plan.planned && i < |dstMarked| ensures Mark(plan, dstMarked, e)[i] == Into(p + {e}, i) {
      IntoGrows(p, e, i);
    }
    IntoGrows(p, e, e.dst);
  }

  lemma CountsEnd(plan: Plan, p: set<EdgeKey>, e: EdgeKey, srcMarked: set<nat>, srcCount: int, dstMarked: seq<set<nat>>,
                  dstCount: seq<int>)
    requires CountsOk(plan, p, srcMarked, srcCount, dstMarked, dstCount) && e in p
    ensures e.src == plan.me ==> e.dst in srcMarked
    ensures e.dst in plan.planned && e.dst < |dstMarked| ==> e.src in dstMarked[e.dst]
    ensures CountsOk(plan, p - {e}, if e.src == plan.me then srcMarked - {e.dst} else srcMarked,
                     if e.src == plan.me then srcCount - 1 else srcCount,
                     Unmark(plan, dstMarked, e), Bump(plan, dstCount, e.dst, -1))
  {
    var q := p - {e};
    assert q + {e} == p;
    OutOfGrows(q, e, plan.me);
    forall i | i in plan.planned && i < |dstMarked| ensures Unmark(plan, dstMarked, e)[i] == Into(q, i) {
      IntoGrows(q, e, i);
    }
    IntoGrows(q, e, e.dst);
  }

  /** Everything the choice depends on. */
  datatype View = View(plan: Plan, problems: set<EdgeKey>, srcCount: int, dstCount: seq<int>) {
    ghost predicate Valid() {
      plan.Valid() && forall i :: i in plan.planned ==> 0 < i < |dstCount|
    }

    /** What the counters and the problem list call for at destination `i`. */
    ghost function Wanted(i: nat): GraphType
      requires Valid()
    {
      if i !in plan.planned then NoGraph
      else Pick(srcCount, dstCount[i], SrcHit(problems, plan.src[i], plan.me), DstHit(problems, plan.dst[i], i))
    }

    /**
     * While a problem is being resolved, a destination may still sit on the source-destination
     * graph although only one of its ends needs it.
     */
    ghost predicate Loose(i: nat, g: GraphType)
      requires Valid()
    {
      || g == Wanted(i)
      || (g == SrcDst && i in plan.planned && (srcCount >= THRESHOLD || dstCount[i] >= THRESHOLD))
    }
  }

  lemma HitGrows(v: View, e: EdgeKey, i: nat)
    requires v.Valid() && i in v.plan.planned
    ensures var p := v.problems + {e};
            && (SrcHit(p, v.plan.src[i], v.plan.me) <==>
                  SrcHit(v.problems, v.plan.src[i], v.plan.me) || (e in v.plan.src[i] && e.src != v.plan.me))
            && (DstHit(p, v.plan.dst[i], i) <==>
                  DstHit(v.problems, v.plan.dst[i], i) || (e in v.plan.dst[i] && e.dst != i))
  {
  }

  lemma ShrinkIsLoose(v: View, e: EdgeKey)
    requires v.Valid()
    ensures forall i :: 0 <= i < |v.dstCount| ==> v.(problems := v.problems - {e}).Loose(i, v.Wanted(i))
  {
  }

  class Selector {
    const plan: Plan
    const maxNodes: nat
    const index: map<EdgeKey, nat>
    const srcMask: map<nat, Mask>
    const dstMask: map<nat, Mask>
    var problems: set<EdgeKey>
    var graph: seq<GraphType>
    var dstMarked: seq<set<nat>>
    var dstCount: seq<int>
    var srcMarked: set<nat>
    var srcCount: int

    ghost predicate Consistent() { PlanOk(plan, maxNodes, index, srcMask, dstMask) }

    /** All destinations start on two paths, with no problems known. */
    constructor (plan: Plan, maxNodes: nat, index: map<EdgeKey, nat>, srcMask: map<nat, Mask>, dstMask: map<nat, Mask>)
      requires PlanOk(plan, maxNodes, index, srcMask, dstMask)
      ensures Valid() && problems == {} && this.plan == plan && this.maxNodes == maxNodes && this.index == index
    {
      this.plan, this.maxNodes, this.index, this.srcMask, this.dstMask := plan, maxNodes, index, srcMask, dstMask;
      problems, srcMarked, srcCount := {}, {}, 0;
      graph := seq(maxNodes + 1, i => if i in plan.planned then K2 else NoGraph);
      dstMarked := seq(maxNodes + 1, _ => {});
      dstCount := seq(maxNodes + 1, _ => 0);
    }

    /** Flags and counters describe the problem list. */
    ghost predicate Counted()
      reads this`problems, this`dstMarked, this`dstCount, this`srcMarked, this`srcCount
    {
      |dstMarked| == |dstCount| == maxNodes + 1 && CountsOk(plan, problems, srcMarked, srcCount, dstMarked, dstCount)
    }

    ghost function Look(): View
      reads this`problems, this`srcCount, this`dstCount
    {
      View(plan, problems, srcCount, dstCount)
    }

    ghost predicate Valid()
      reads this
    {
      && Consistent() && Counted() && |graph| == maxNodes + 1
      && forall i :: 0 <= i < |graph| ==> graph[i] == Look().Wanted(i)
    }

    /** The key property: the graph in use depends on the current problem set alone. */
    lemma ChoiceIsFunctionOfProblems(i: nat)
      requires Valid() && i <= maxNodes
      ensures graph[i] == plan.Choose(problems, i)
    {
    }

    /** `DG_Problem_On_Graph` for a source graph (`ofSrc`) or a destination graph. */
    method ProblemOnGraph(edges: seq<EdgeKey>, key: EdgeKey, ofSrc: bool) returns (hit: bool)
      ensures hit <==> if ofSrc then SrcHit(problems, edges, key.src) else DstHit(problems, edges, key.dst)
    {
      for j := 0 to |edges|
        invariant if ofSrc then !SrcHit(problems, edges[..j], key.src) else !DstHit(problems, edges[..j], key.dst)
      {
        var e := edges[j];
        assert edges[..j + 1] == edges[..j] + [e];
        if (ofSrc && e.src == key.src) || (!ofSrc && e.dst == key.dst) {
          continue;
        }
        if e in problems {
          return true;
        }
      }
      assert edges[..|edges|] == edges;
      return false;
    }

    /** A new problem on the graph in use moves a source or destination graph to source-destination. */
    method AfterNewProblem(e: EdgeKey, i: nat, g: GraphType, ghost v: View) returns (g': GraphType)
      requires Consistent() && v.Valid() && v.plan == plan && e in index && i in plan.planned
      requires g == v.Wanted(i)
      ensures g' == v.(problems := v.problems + {e}).Wanted(i)
    {
      assert InMask(index, srcMask[i], plan.src[i], e) && InMask(index, dstMask[i], plan.dst[i], e);
      HitGrows(v, e, i);
      g' := g;
      if (g == Src && e.src != plan.me) || (g == Dst && e.dst != i) {
        var on := EdgeInGraph(index[e], if g == Src then srcMask[i] else dstMask[i]);
        if on {
          g' := SrcDst;
        }
      }
    }

    /** Re-evaluates every destination against a new problem. */
    method SpreadNewProblem(e: EdgeKey, ghost v: View)
      requires Consistent() && v.Valid() && v.plan == plan && e in index && |graph| == maxNodes + 1
      requires forall i :: 0 <= i < |graph| ==> graph[i] == v.Wanted(i)
      modifies this`graph
      ensures |graph| == maxNodes + 1
      ensures forall i :: 0 <= i < |graph| ==> graph[i] == v.(problems := v.problems + {e}).Wanted(i)
    {
      for i := 1 to maxNodes + 1
        invariant |graph| == maxNodes + 1
        invariant forall j :: 0 <= j < |graph| ==>
                    graph[j] == if j < i then v.(problems := v.problems + {e}).Wanted(j) else v.Wanted(j)
      {
        if graph[i] != NoGraph {
          var g := AfterNewProblem(e, i, graph[i], v);
          graph := graph[i := g];
        }
      }
    }

    /** The graph table is what the view calls for. */
    ghost predicate GraphIs(v: View)
      reads this`graph
    {
      v.Valid() && v.plan == plan && |v.dstCount| == maxNodes + 1 && |graph| == maxNodes + 1
      && forall i :: 0 <= i < |graph| ==> graph[i] == v.Wanted(i)
    }

    /** A destination's count has just reached the threshold. */
    method AfterDstThreshold(e: EdgeKey, g: GraphType, ghost v: View) returns (g': GraphType)
      requires v.Valid() && v.plan == plan && v.problems == problems && e.dst in plan.planned
      requires v.dstCount[e.dst] == THRESHOLD - 1 && g == v.Wanted(e.dst)
      ensures g' == v.(dstCount := v.dstCount[e.dst := THRESHOLD]).Wanted(e.dst)
    {
      g' := g;
      if g == Src {
        g' := SrcDst;
      } else if g == K2 {
        var hit := ProblemOnGraph(plan.dst[e.dst], e, false);
        g' := if hit then SrcDst else Dst;
      }
    }

    /** New destination problem. */
    method NewDstProblem(e: EdgeKey)
      requires GraphIs(Look()) && |dstMarked| == maxNodes + 1 && e.dst <= maxNodes
      requires e.dst in plan.planned ==> e.src !in dstMarked[e.dst]
      modifies this`graph, this`dstMarked, this`dstCount
      ensures GraphIs(Look())
      ensures dstMarked == Mark(plan, old(dstMarked), e) && dstCount == Bump(plan, old(dstCount), e.dst, 1)
    {
      var d := e.dst;
      assert graph[d] == NoGraph <==> d !in plan.planned;
      if graph[d] != NoGraph && e.src !in dstMarked[d] {
        ghost var v := Look();
        dstMarked := dstMarked[d := dstMarked[d] + {e.src}];
        dstCount := dstCount[d := dstCount[d] + 1];
        if dstCount[d] == THRESHOLD {
          var g := AfterDstThreshold(e, graph[d], v);
          graph := graph[d := g];
        }
      }
    }

    /** The source's count has just reached the threshold. */
    method AfterSrcThreshold(e: EdgeKey, i: nat, g: GraphType, ghost v: View) returns (g': GraphType)
      requires v.Valid() && v.plan == plan && v.problems == problems && i in plan.planned && e.src == plan.me
      requires v.srcCount == THRESHOLD - 1 && g == v.Wanted(i)
      ensures g' == v.(srcCount := THRESHOLD).Wanted(i)
    {
      g' := g;
      if g == Dst {
        g' := SrcDst;
      } else if g == K2 {
        var hit := ProblemOnGraph(plan.src[i], e, true);
        g' := if hit then SrcDst else Src;
      }
    }

    method SwitchToSource(e: EdgeKey, ghost v: View)
      requires GraphIs(v) && v.problems == problems && e.src == plan.me && v.srcCount == THRESHOLD - 1
      modifies this`graph
      ensures GraphIs(v.(srcCount := THRESHOLD))
    {
      for i := 1 to maxNodes + 1
        invariant |graph| == maxNodes + 1
        invariant forall j :: 0 <= j < |graph| ==>
                    graph[j] == if j < i then v.(srcCount := THRESHOLD).Wanted(j) else v.Wanted(j)
      {
        if graph[i] != NoGraph {
          var g := AfterSrcThreshold(e, i, graph[i], v);
          graph := graph[i := g];
        }
      }
    }

    /** New source problem. */
    method NewSrcProblem(e: EdgeKey)
      requires GraphIs(Look()) && e.src == plan.me && e.dst !in srcMarked
      modifies this`graph, this`srcMarked, this`srcCount
      ensures GraphIs(Look()) && srcMarked == old(srcMarked) + {e.dst} && srcCount == old(srcCount) + 1
    {
      ghost var v := Look();
      srcMarked := srcMarked + {e.dst};
      srcCount := srcCount + 1;
      if srcCount == THRESHOLD {
        SwitchToSource(e, v);
      }
    }

    /** The branch "problem started". */
    method ProblemStarted(e: EdgeKey)
      requires Valid() && e in index && e !in problems
      modifies this
      ensures Valid() && problems == old(problems) + {e}
    {
      ghost var v := Look();
      CountsStart(plan, problems, e, srcMarked, srcCount, dstMarked, dstCount);
      problems := problems + {e};
      SpreadNewProblem(e, v);
      assert Look() == v.(problems := v.problems + {e});
      NewDstProblem(e);
      if e.src == plan.me && e.dst !in srcMarked {
        NewSrcProblem(e);
      }
    }

    ghost predicate LooselyIs(v: View)
      reads this`graph
    {
      && v.Valid() && v.plan == plan && |v.dstCount| == maxNodes + 1 && |graph| == maxNodes + 1
      && forall i :: 0 <= i < |graph| ==> v.Loose(i, graph[i])
    }

    /** A destination's count is about to fall below the threshold. */
    method AfterDstResolved(e: EdgeKey, g: GraphType, ghost v: View) returns (g': GraphType)
      requires v.Valid() && v.plan == plan && v.problems == problems && v.srcCount == srcCount && e.dst in plan.planned
      requires v.dstCount[e.dst] == THRESHOLD && v.Loose(e.dst, g)
      ensures v.(dstCount := v.dstCount[e.dst := THRESHOLD - 1]).Loose(e.dst, g')
    {
      g' := g;
      if g == Dst {
        g' := K2;
      } else if g == SrcDst {
        if srcCount < THRESHOLD {
          g' := K2;
        } else {
          var hit := ProblemOnGraph(plan.src[e.dst], EdgeKey(plan.me, e.dst), true);
          g' := if !hit then Src else g;
        }
      }
    }

    /** Resolved destination problem. */
    method ResolvedDstProblem(e: EdgeKey)
      requires LooselyIs(Look()) && |dstMarked| == maxNodes + 1 && e.dst <= maxNodes
      requires e.dst in plan.planned ==> e.src in dstMarked[e.dst]
      modifies this`graph, this`dstMarked, this`dstCount
      ensures LooselyIs(Look())
      ensures dstMarked == Unmark(plan, old(dstMarked), e) && dstCount == Bump(plan, old(dstCount), e.dst, -1)
    {
      var d := e.dst;
      assert graph[d] == NoGraph <==> d !in plan.planned;
      if graph[d] != NoGraph && e.src in dstMarked[d] {
        ghost var v := Look();
        dstMarked := dstMarked[d := dstMarked[d] - {e.src}];
        if dstCount[d] == THRESHOLD {
          var g := AfterDstResolved(e, graph[d], v);
          graph := graph[d := g];
        }
        dstCount := dstCount[d := dstCount[d] - 1];
      }
    }

    /** The source's count is about to fall below the threshold. */
    method AfterSrcResolved(i: nat, g: GraphType, ghost v: View) returns (g': GraphType)
      requires v.Valid() && v.plan == plan && v.problems == problems && v.dstCount == dstCount && i in plan.planned
      requires v.srcCount == THRESHOLD && v.Loose(i, g)
      ensures v.(srcCount := THRESHOLD - 1).Loose(i, g')
    {
      g' := g;
      if g == Src {
        g' := K2;
      } else if g == SrcDst {
        if dstCount[i] < THRESHOLD {
          g' := K2;
        } else {
          var hit := ProblemOnGraph(plan.dst[i], EdgeKey(plan.me, i), false);
          g' := if !hit then Dst else g;
        }
      }
    }

    method SwitchFromSource(ghost v: View)
      requires LooselyIs(v) && v.problems == problems && v.dstCount == dstCount && v.srcCount == THRESHOLD
      modifies this`graph
      ensures LooselyIs(v.(srcCount := THRESHOLD - 1))
    {
      for i := 1 to maxNodes + 1
        invariant |graph| == maxNodes + 1
        invariant forall j :: 0 <= j < i && j < |graph| ==> v.(srcCount := THRESHOLD - 1).Loose(j, graph[j])
        invariant forall j :: i <= j < |graph| ==> v.Loose(j, graph[j])
      {
        if graph[i] != NoGraph {
          var g := AfterSrcResolved(i, graph[i], v);
          graph := graph[i := g];
        }
      }
    }

    /** Resolved source problem. */
    method ResolvedSrcProblem(e: EdgeKey)
      requires LooselyIs(Look()) && e.src == plan.me && e.dst in srcMarked
      modifies this`graph, this`srcMarked, this`srcCount
      ensures LooselyIs(Look()) && srcMarked == old(srcMarked) - {e.dst} && srcCount == old(srcCount) - 1
    {
      ghost var v := Look();
      srcMarked := srcMarked - {e.dst};
      if srcCount == THRESHOLD {
        SwitchFromSource(v);
      }
      srcCount := srcCount - 1;
    }

    /** A middle-of-network problem may have gone: leave the source-destination graph if possible. */
    method AfterMidResolved(i: nat, g: GraphType, ghost v: View) returns (g': GraphType, error: bool)
      requires v.Valid() && v == View(plan, problems, srcCount, dstCount) && i in plan.planned && v.Loose(i, g)
      ensures g' == v.Wanted(i) && !error
    {
      g', error := g, false;
      if g == SrcDst {
        error := srcCount < THRESHOLD && dstCount[i] < THRESHOLD;
        var key := EdgeKey(plan.me, i);
        if srcCount < THRESHOLD {
          var hit := ProblemOnGraph(plan.dst[i], key, false);
          g' := if !hit then Dst else g;
        } else if dstCount[i] < THRESHOLD {
          var hit := ProblemOnGraph(plan.src[i], key, true);
          g' := if !hit then Src else g;
        }
      }
    }

    /** The last loop of the resolved branch; `error` is its "No source OR destination problem" exit. */
    method SettleMidProblems() returns (error: bool)
      requires LooselyIs(Look())
      modifies this`graph
      ensures GraphIs(Look()) && !error
    {
      ghost var v := Look();
      error := false;
      for i := 1 to maxNodes + 1
        invariant |graph| == maxNodes + 1 && !error
        invariant forall j :: 0 <= j < i && j < |graph| ==> graph[j] == v.Wanted(j)
        invariant forall j :: i <= j < |graph| ==> v.Loose(j, graph[j])
      {
        if graph[i] != NoGraph {
          var g, bad := AfterMidResolved(i, graph[i], v);
          graph := graph[i := g];
          error := error || bad;
        }
      }
    }

    /** The branch "problem resolved". */
    method ProblemResolved(e: EdgeKey) returns (error: bool)
      requires Valid() && e in index && e in problems
      modifies this
      ensures Valid() && problems == old(problems) - {e} && !error
    {
      ghost var v := Look();
      CountsEnd(plan, problems, e, srcMarked, srcCount, dstMarked, dstCount);
      problems := problems - {e};
      ShrinkIsLoose(v, e);
      assert LooselyIs(Look());
      ResolvedDstProblem(e);
      if e.src == plan.me && e.dst in srcMarked {
        ResolvedSrcProblem(e);
      }
      error := SettleMidProblems();
    }

    /** `DG_Process_Edge_Update`. `error` is the exit the original takes on an impossible state. */
    method ProcessEdgeUpdate(u: Update, problemRoute: bool) returns (error: bool)
      requires Valid() && u.edge in index
      modifies this
      ensures Valid() && !error
      ensures problems == if problemRoute then Apply(old(problems), u) else old(problems)
    {
      error := false;
      if !problemRoute || SameStatus(u.after, u.before) {
        return;
      }
      if u.after < 0 {
        if u.edge !in problems {
          ProblemStarted(u.edge);
        }
      } else if u.edge in problems {
        error := ProblemResolved(u.edge);
      }
    }

    /** After any run of updates every destination's graph is the function of the replayed problem set. */
    method ProcessAll(updates: seq<Update>) returns (error: bool)
      requires Valid() && problems == {} && forall u :: u in updates ==> u.edge in index
      modifies this
      ensures Valid() && !error && problems == Replay(updates)
      ensures forall i :: 0 <= i <= maxNodes ==> |graph| > i && graph[i] == plan.Choose(Replay(updates), i)
    {
      error := false;
      for n := 0 to |updates|
        invariant Valid() && !error && problems == Replay(updates[..n])
      {
        error := ProcessEdgeUpdate(updates[n], true);
        assert updates[..n + 1][..n] == updates[..n];
      }
      assert updates[..|updates|] == updates;
      forall i | 0 <= i <= maxNodes ensures |graph| > i && graph[i] == plan.Choose(problems, i) {
        ChoiceIsFunctionOfProblems(i);
      }
    }
  }
}

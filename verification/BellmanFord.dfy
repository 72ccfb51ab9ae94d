/**
 * Bellman-Ford over the free edges, exactly as `MultiPath_Compute` runs it: labels are 16-bit
 * unsigned, the unreached label takes part in relaxation like any other number, and the edge
 * list is swept at most 2N + 1 times.
 */
module BellmanFord {
  import opened FlowNetwork

  datatype Prev = NoEdge | Via(edge: FlowEdge)

  datatype Labels = Labels(dist: seq<int>, prev: seq<Prev>)

  predicate Shaped(net: Net, l: Labels) { |l.dist| == net.Size() && |l.prev| == net.Size() }

  function InitLabels(net: Net): (l: Labels)
    requires net.Valid()
    ensures Shaped(net, l)
  {
    Labels(seq(net.Size(), v => if v == net.Source() then 0 else UNREACHED), seq(net.Size(), _ => NoEdge))
  }

  predicate Improves(net: Net, flow: set<Arc>, l: Labels, e: FlowEdge)
    requires Shaped(net, l) && Tail(e) < net.Size() && Head(e) < net.Size()
  {
    net.Available(flow, e) && l.dist[Head(e)] > l.dist[Tail(e)] + net.CostOf(e)
  }

  /** One relaxation. The stored label is truncated to 16 bits. */
  function Relax(net: Net, flow: set<Arc>, l: Labels, e: FlowEdge): (r: Labels)
    requires Shaped(net, l) && Tail(e) < net.Size() && Head(e) < net.Size()
    ensures Shaped(net, r)
  {
    if Improves(net, flow, l, e) then
      Labels(l.dist[Head(e) := (l.dist[Tail(e)] + net.CostOf(e)) % 0x1_0000], l.prev[Head(e) := Via(e)])
    else
      l
  }

  /** The first `n` relaxations of a sweep. */
  function Sweep(net: Net, flow: set<Arc>, l: Labels, n: nat): (r: Labels)
    requires net.Valid() && Shaped(net, l) && n <= |net.list|
    ensures Shaped(net, r)
  {
    if n == 0 then l else Relax(net, flow, Sweep(net, flow, l, n - 1), net.list[n - 1])
  }

  function Rounds(net: Net, flow: set<Arc>, n: nat): (r: Labels)
    requires net.Valid()
    ensures Shaped(net, r)
  {
    if n == 0 then InitLabels(net) else Sweep(net, flow, Rounds(net, flow, n - 1), |net.list|)
  }

  function MaxRounds(net: Net): nat { 2 * net.nodes + 1 }

  /** The labels after the relaxation loop. */
  function Final(net: Net, flow: set<Arc>): (r: Labels)
    requires net.Valid()
    ensures Shaped(net, r)
  {
    Rounds(net, flow, MaxRounds(net))
  }

  // ----- What every relaxation keeps -----

  /** Labels stay between the potential and the unreached label, and the source is never relabelled. */
  ghost predicate Bounded(net: Net, flow: set<Arc>, p: seq<int>, l: Labels) {
    && net.Potential(flow, p) && Shaped(net, l)
    && (forall v :: 0 <= v < net.Size() ==> p[v] <= l.dist[v] <= UNREACHED)
    && l.dist[net.Source()] == 0
  }

  lemma RelaxBounded(net: Net, flow: set<Arc>, p: seq<int>, l: Labels, j: nat)
    requires Bounded(net, flow, p, l) && j < |net.list|
    ensures Bounded(net, flow, p, Relax(net, flow, l, net.list[j]))
    ensures var e := net.list[j];
            Improves(net, flow, l, e) ==>
              && Head(e) != net.Source() && Head(e) != Tail(e)
              && Relax(net, flow, l, e).dist == l.dist[Head(e) := l.dist[Tail(e)] + net.CostOf(e)]
    ensures forall v :: 0 <= v < net.Size() ==> Relax(net, flow, l, net.list[j]).dist[v] <= l.dist[v]
  {
  }

  /**
   * The predecessor structure with a time stamp for every label: a predecessor edge whose
   * label is still exact was written after its tail's last change, so exact chains cannot cycle.
   */
  ghost predicate Traced(net: Net, flow: set<Arc>, l: Labels, stamp: seq<nat>, now: nat) {
    && Shaped(net, l) && |stamp| == net.Size()
    && (forall v :: 0 <= v < net.Size() ==> stamp[v] < now)
    && (forall v :: 0 <= v < net.Size() ==> PrevOk(net, flow, l, stamp, v))
  }

  ghost predicate PrevOk(net: Net, flow: set<Arc>, l: Labels, stamp: seq<nat>, v: FlowNode)
    requires Shaped(net, l) && |stamp| == net.Size() && v < net.Size()
  {
    if l.prev[v] == NoEdge then
      v == net.Source() || l.dist[v] == UNREACHED
    else
      var e := l.prev[v].edge;
      && v != net.Source()
      && net.Available(flow, e) && Head(e) == v && Tail(e) < net.Size()
      && l.dist[v] >= l.dist[Tail(e)] + net.CostOf(e)
      && (l.dist[v] == l.dist[Tail(e)] + net.CostOf(e) ==> stamp[Tail(e)] < stamp[v])
  }

  lemma RelaxTraced(net: Net, flow: set<Arc>, p: seq<int>, l: Labels, j: nat, stamp: seq<nat>, now: nat)
    returns (stamp': seq<nat>)
    requires Bounded(net, flow, p, l) && j < |net.list| && Traced(net, flow, l, stamp, now)
    ensures Traced(net, flow, Relax(net, flow, l, net.list[j]), stamp', now + 1)
  {
    RelaxBounded(net, flow, p, l, j);
    var e := net.list[j];
    stamp' := stamp;
    if Improves(net, flow, l, e) {
      stamp' := stamp[Head(e) := now];
      var l' := Relax(net, flow, l, e);
      forall v | 0 <= v < net.Size() ensures PrevOk(net, flow, l', stamp', v) {
        assert PrevOk(net, flow, l, stamp, v);
      }
    }
  }

  /**
   * A set of nodes whose labels are final: reduced labels are at most `b` inside and at least
   * `b` outside, and every free edge that leaves the set is relaxed.
   */
  ghost predicate Settled(net: Net, flow: set<Arc>, p: seq<int>, l: Labels, done: set<FlowNode>, b: int) {
    && Bounded(net, flow, p, l)
    && (forall u :: u in done ==> u < net.Size() && l.dist[u] - p[u] <= b)
    && (forall w :: 0 <= w < net.Size() && w !in done ==> b <= l.dist[w] - p[w])
    && (forall j :: 0 <= j < |net.list| && Tail(net.list[j]) in done && net.Available(flow, net.list[j]) ==>
          l.dist[Head(net.list[j])] <= l.dist[Tail(net.list[j])] + net.CostOf(net.list[j]))
  }

  /** The first `n` listed edges out of `m` are relaxed, and `m` is as close as a node outside can be. */
  ghost predicate Swept(net: Net, flow: set<Arc>, p: seq<int>, l: Labels, m: FlowNode, b: int, n: nat)
    requires net.Valid() && Shaped(net, l) && n <= |net.list| && m < net.Size() && |p| == net.Size()
  {
    && l.dist[m] - p[m] == b
    && (forall j :: 0 <= j < n && Tail(net.list[j]) == m && net.Available(flow, net.list[j]) ==>
          l.dist[Head(net.list[j])] <= l.dist[m] + net.CostOf(net.list[j]))
  }

  lemma RelaxSettled(net: Net, flow: set<Arc>, p: seq<int>, l: Labels, n: nat, done: set<FlowNode>, m: FlowNode, b: int)
    requires Settled(net, flow, p, l, done, b) && n < |net.list|
    requires m < net.Size() && m !in done && Swept(net, flow, p, l, m, b, n)
    ensures var l' := Relax(net, flow, l, net.list[n]);
            Settled(net, flow, p, l', done, b) && Swept(net, flow, p, l', m, b, n + 1)
  {
    RelaxBounded(net, flow, p, l, n);
    var e := net.list[n];
    if Improves(net, flow, l, e) {
      assert p[Head(e)] <= p[Tail(e)] + net.CostOf(e);
      assert Tail(e) !in done;
      assert Head(e) !in done && Head(e) != m;
    }
  }

  /** A whole sweep keeps the settled set and relaxes every free edge of a closest node. */
  lemma {:induction false} SweepSettles(net: Net, flow: set<Arc>, p: seq<int>, l: Labels, n: nat,
                                        done: set<FlowNode>, m: FlowNode, b: int)
    requires Settled(net, flow, p, l, done, b) && n <= |net.list|
    requires m < net.Size() && m !in done && Swept(net, flow, p, l, m, b, 0)
    ensures var l' := Sweep(net, flow, l, n);
            Settled(net, flow, p, l', done, b) && Swept(net, flow, p, l', m, b, n)
  {
    if n != 0 {
      SweepSettles(net, flow, p, l, n - 1, done, m, b);
      RelaxSettled(net, flow, p, Sweep(net, flow, l, n - 1), n - 1, done, m, b);
    }
  }

  /** Some node outside `done` has a least reduced label. */
  lemma {:induction false} ClosestExists(net: Net, p: seq<int>, l: Labels, done: set<FlowNode>, n: nat)
    returns (m: FlowNode)
    requires |p| == net.Size() && Shaped(net, l) && n <= net.Size()
    requires !All(n, done)
    ensures m < n && m !in done
    ensures forall w :: 0 <= w < n && w !in done ==> l.dist[m] - p[m] <= l.dist[w] - p[w]
  {
    if All(n - 1, done) {
      m := n - 1;
    } else {
      m := ClosestExists(net, p, l, done, n - 1);
      if n - 1 !in done && l.dist[n - 1] - p[n - 1] < l.dist[m] - p[m] {
        m := n - 1;
      }
    }
  }

  lemma SettleOne(net: Net, flow: set<Arc>, p: seq<int>, l: Labels, done: set<FlowNode>, m: FlowNode, b: int)
    requires Settled(net, flow, p, l, done, b) && m < net.Size() && Swept(net, flow, p, l, m, b, |net.list|)
    ensures Settled(net, flow, p, l, done + {m}, b)
  {
  }

  ghost predicate All(n: nat, done: set<FlowNode>) { forall v :: 0 <= v < n ==> v in done }

  /** After `n` sweeps at least `n` nodes are settled. */
  lemma {:induction false} RoundsSettle(net: Net, flow: set<Arc>, p: seq<int>, n: nat)
    returns (done: set<FlowNode>, b: int)
    requires net.Potential(flow, p)
    ensures Settled(net, flow, p, Rounds(net, flow, n), done, b)
    ensures |done| >= n || All(net.Size(), done)
  {
    if n == 0 {
      done, b := {}, 0;
    } else {
      done, b := RoundsSettle(net, flow, p, n - 1);
      var l := Rounds(net, flow, n - 1);
      if All(net.Size(), done) {
        SweepStable(net, flow, l, |net.list|);
      } else {
        var m := ClosestExists(net, p, l, done, net.Size());
        b := l.dist[m] - p[m];
        SweepSettles(net, flow, p, l, |net.list|, done, m, b);
        SettleOne(net, flow, p, Sweep(net, flow, l, |net.list|), done, m, b);
        done := done + {m};
      }
    }
  }

  /** A sweep over stable labels changes nothing, so the loop stops without progress. */
  lemma {:induction false} SweepStable(net: Net, flow: set<Arc>, l: Labels, n: nat)
    requires net.Valid() && Shaped(net, l) && n <= |net.list| && net.Relaxed(flow, l.dist)
    ensures Sweep(net, flow, l, n) == l
  {
    if n != 0 {
      SweepStable(net, flow, l, n - 1);
    }
  }

  lemma {:induction false} BoundedCardinality(s: set<nat>, n: nat)
    requires forall v :: v in s ==> v < n
    ensures |s| <= n && (|s| == n ==> All(n, s))
  {
    if n == 0 {
      assert s == {};
    } else {
      BoundedCardinality(s - {n - 1}, n - 1);
      if |s| == n {
        assert n - 1 in s;
      }
    }
  }

  /**
   * With a potential, labels are stable one sweep before the limit: the last permitted sweep
   * makes no progress and the "Negative Cycle Found" exit is not taken.
   */
  lemma Converges(net: Net, flow: set<Arc>, p: seq<int>)
    requires net.Potential(flow, p)
    ensures Final(net, flow) == Rounds(net, flow, MaxRounds(net) - 1)
    ensures Bounded(net, flow, p, Final(net, flow)) && net.Relaxed(flow, Final(net, flow).dist)
  {
    var n := MaxRounds(net) - 1;
    var done, b := RoundsSettle(net, flow, p, n);
    BoundedCardinality(done, net.Size());
    SweepStable(net, flow, Rounds(net, flow, n), |net.list|);
  }

  lemma {:induction false} SweepTraced(net: Net, flow: set<Arc>, p: seq<int>, l: Labels, n: nat, stamp: seq<nat>,
                                       now: nat)
    returns (stamp': seq<nat>, now': nat)
    requires Bounded(net, flow, p, l) && Traced(net, flow, l, stamp, now) && n <= |net.list|
    ensures Bounded(net, flow, p, Sweep(net, flow, l, n)) && Traced(net, flow, Sweep(net, flow, l, n), stamp', now')
  {
    if n == 0 {
      stamp', now' := stamp, now;
    } else {
      stamp', now' := SweepTraced(net, flow, p, l, n - 1, stamp, now);
      var mid := Sweep(net, flow, l, n - 1);
      RelaxBounded(net, flow, p, mid, n - 1);
      stamp' := RelaxTraced(net, flow, p, mid, n - 1, stamp', now');
      now' := now' + 1;
    }
  }

  lemma {:induction false} RoundsTraced(net: Net, flow: set<Arc>, p: seq<int>, n: nat)
    returns (stamp: seq<nat>, now: nat)
    requires net.Potential(flow, p)
    ensures Bounded(net, flow, p, Rounds(net, flow, n)) && Traced(net, flow, Rounds(net, flow, n), stamp, now)
  {
    if n == 0 {
      stamp, now := seq(net.Size(), _ => 0), 1;
    } else {
      stamp, now := RoundsTraced(net, flow, p, n - 1);
      stamp, now := SweepTraced(net, flow, p, Rounds(net, flow, n - 1), |net.list|, stamp, now);
    }
  }
}

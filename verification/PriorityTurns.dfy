/**
 * Fairness over whole runs of the scheduler: while a source waits with messages toward a neighbour,
 * no other source sends there more often than the waiting one has turns to wait.
 */
module PriorityTurns {
  import opened PriorityQueues
  import opened PriorityLinks
  import opened PrioritySched
  import opened PriorityFair
  import opened PriorityServing

  /** The queues, and what has been sent so far. */
  datatype Snapshot = Snapshot(links: seq<Link>, sent: seq<Pass>)

  /** How many messages of source `c` have been sent to neighbour `j`. */
  function Sends(sent: seq<Pass>, j: nat, c: nat): nat {
    if sent == [] then 0
    else
      var last := sent[|sent| - 1];
      Sends(sent[..|sent| - 1], j, c) + if last.ngbr == j && last.msg.src == c then 1 else 0
  }

  lemma SendsNext(sent: seq<Pass>, p: Pass, j: nat, c: nat)
    ensures Sends(sent + [p], j, c) == Sends(sent, j, c) + if p.ngbr == j && p.msg.src == c then 1 else 0
  {
    assert (sent + [p])[..|sent|] == sent;
  }

  lemma {:induction false} SendsGrow(a: seq<Pass>, b: seq<Pass>, j: nat, c: nat)
    requires a <= b
    ensures Sends(a, j, c) <= Sends(b, j, c)
  {
    if |a| < |b| {
      assert a <= b[..|b| - 1];
      SendsGrow(a, b[..|b| - 1], j, c);
    } else {
      assert a == b;
    }
  }

  /** Source `b` has messages waiting toward neighbour `j`. */
  predicate Waits(s: Snapshot, j: nat, b: nat) {
    j < |s.links| && b < |s.links[j].srcs| && s.links[j].srcs[b].count > 0
  }

  /** What `c` sends to `j` between `s` and `s'` counts against what it may send before `b`'s turn. */
  predicate FairFor(s: Snapshot, s': Snapshot, j: nat, b: nat, c: nat) {
    j < |s.links| && Two(s.links[j], b, c) && Waits(s', j, b) && Sends(s'.sent, j, b) == Sends(s.sent, j, b) ==>
      && InLine(s'.links[j], b)
      && Overtakes(s'.links[j], b, c) + Sends(s'.sent, j, c) <= Overtakes(s.links[j], b, c) + Sends(s.sent, j, c)
  }

  ghost predicate FairTo(s: Snapshot, s': Snapshot, j: nat) {
    && j < |s.links| == |s'.links| && s.sent <= s'.sent && |s.links[j].srcs| == |s'.links[j].srcs|
    && forall b: nat, c: nat :: FairFor(s, s', j, b, c)
  }

  /** Nothing was queued for `j` in between. */
  ghost predicate Descends(s: Snapshot, s': Snapshot, j: nat) {
    FairTo(s, s', j) && Fewer(s.links[j], s'.links[j])
  }

  lemma FairThenFor(s: Snapshot, t: Snapshot, u: Snapshot, j: nat, b: nat, c: nat)
    requires FairTo(s, t, j) && Descends(t, u, j)
    ensures FairFor(s, u, j, b, c)
  {
    SendsGrow(s.sent, t.sent, j, b);
    SendsGrow(t.sent, u.sent, j, b);
    assert FairFor(s, t, j, b, c) && FairFor(t, u, j, b, c);
  }

  lemma FairThen(s: Snapshot, t: Snapshot, u: Snapshot, j: nat)
    requires FairTo(s, t, j) && Descends(t, u, j)
    ensures FairTo(s, u, j)
  {
    forall b: nat, c: nat ensures FairFor(s, u, j, b, c) {
      FairThenFor(s, t, u, j, b, c);
    }
  }

  // ----- Serving one neighbour -----

  predicate SameSends(s: Snapshot, s': Snapshot, j: nat, c: nat) { Sends(s'.sent, j, c) == Sends(s.sent, j, c) }

  /** Only neighbour `i` was served. */
  ghost predicate ServesOnly(s: Snapshot, s': Snapshot, i: nat) {
    && Descends(s, s', i) && Beside(s.links, s'.links, i)
    && forall j: nat, c: nat :: j != i ==> SameSends(s, s', j, c)
  }

  lemma ServesNone(s: Snapshot, s': Snapshot, i: nat)
    requires i < |s.links| && Beside(s.links, s'.links, i) && Down(s.links[i], s'.links[i], NOBODY) && s'.sent == s.sent
    ensures ServesOnly(s, s', i)
  {
    forall b: nat, c: nat ensures FairFor(s, s', i, b, c) {
      assert DownFor(s.links[i], s'.links[i], NOBODY, b, c);
    }
  }

  lemma ServesOne(s: Snapshot, s': Snapshot, i: nat, m: Msg)
    requires i < |s.links| && Beside(s.links, s'.links, i) && Down(s.links[i], s'.links[i], m.src)
    requires s'.sent == s.sent + [Pass(i, m)]
    ensures ServesOnly(s, s', i)
  {
    forall b: nat, c: nat ensures FairFor(s, s', i, b, c) {
      assert DownFor(s.links[i], s'.links[i], m.src, b, c);
      SendsNext(s.sent, Pass(i, m), i, b);
      SendsNext(s.sent, Pass(i, m), i, c);
    }
    forall j: nat, c: nat | j != i ensures SameSends(s, s', j, c) {
      SendsNext(s.sent, Pass(i, m), j, c);
    }
  }

  lemma ServesTwice(s: Snapshot, t: Snapshot, u: Snapshot, i: nat)
    requires ServesOnly(s, t, i) && ServesOnly(t, u, i)
    ensures ServesOnly(s, u, i)
  {
    FairThen(s, t, u, i);
    BesideTwice(s.links, t.links, u.links, i);
    forall j: nat, c: nat | j != i ensures SameSends(s, u, j, c) {
      assert SameSends(s, t, j, c) && SameSends(t, u, j, c);
    }
  }

  lemma ServesSame(s: Snapshot, i: nat)
    requires i < |s.links|
    ensures ServesOnly(s, s, i)
  {
    SameFairDown(s.links[i], s.links[i]);
    ServesNone(s, s, i);
  }

  /** For every other neighbour nothing changes but for messages that go. */
  lemma OthersDescend(s: Snapshot, s': Snapshot, i: nat, j: nat)
    requires j < |s.links| && j != i && Beside(s.links, s'.links, i) && s.sent <= s'.sent
    requires forall c: nat :: SameSends(s, s', j, c)
    ensures Descends(s, s', j)
  {
    SameFairDown(s.links[j], s'.links[j]);
    forall b: nat, c: nat ensures FairFor(s, s', j, b, c) {
      assert DownFor(s.links[j], s'.links[j], NOBODY, b, c) && SameSends(s, s', j, c);
    }
  }

  // ----- Queueing for one neighbour after the other -----

  /** Neighbour `j` has not been served or queued for. */
  ghost predicate Still(s: Snapshot, s': Snapshot, j: nat) {
    && j < |s.links| == |s'.links| && s.sent <= s'.sent && |s.links[j].srcs| == |s'.links[j].srcs|
    && s'.links[j].urgent == s.links[j].urgent && s'.links[j].norm == s.links[j].norm
    && forall c: nat :: SameSends(s, s', j, c)
  }

  lemma StillThen(s: Snapshot, t: Snapshot, u: Snapshot, j: nat)
    requires Still(s, t, j) && FairTo(t, u, j)
    ensures FairTo(s, u, j)
  {
    forall b: nat, c: nat ensures FairFor(s, u, j, b, c) {
      assert SameSends(s, t, j, b) && SameSends(s, t, j, c) && FairFor(t, u, j, b, c);
    }
  }

  lemma StillFair(s: Snapshot, t: Snapshot, j: nat)
    requires Still(s, t, j)
    ensures FairTo(s, t, j)
  {
    forall b: nat, c: nat ensures FairFor(s, t, j, b, c) {
      assert SameSends(s, t, j, b) && SameSends(s, t, j, c);
    }
  }

  /** A message is queued for neighbour `i`, and only that neighbour is served. */
  ghost predicate Queues(s: Snapshot, s': Snapshot, i: nat) {
    FairTo(s, s', i) && Beside(s.links, s'.links, i) && forall j: nat, c: nat :: j != i ==> SameSends(s, s', j, c)
  }

  lemma EasyThen(s: Snapshot, t: Snapshot, u: Snapshot, i: nat)
    requires i < |s.links| == |t.links| && t.links == s.links[i := t.links[i]] && t.sent == s.sent
    requires Easy(s.links[i], t.links[i]) && ServesOnly(t, u, i)
    ensures Queues(s, u, i)
  {
    forall b: nat, c: nat ensures FairFor(s, u, i, b, c) {
      assert EasyFor(s.links[i], t.links[i], b, c) && FairFor(t, u, i, b, c);
    }
    forall j: nat, c: nat | j != i ensures SameSends(s, u, j, c) {
      assert SameSends(t, u, j, c);
    }
    forall j: nat | j < |s.links| && j != i ensures Fewer(s.links[j], u.links[j]) {
      assert Fewer(t.links[j], u.links[j]);
    }
  }

  /** The neighbours before `i` have been queued for, the others have not been touched. */
  ghost predicate QueuedUpTo(s: Snapshot, s': Snapshot, i: nat) {
    && |s'.links| == |s.links| && s.sent <= s'.sent
    && (forall j: nat :: j < i && j < |s.links| ==> FairTo(s, s', j))
    && (forall j: nat :: i <= j < |s.links| ==> Still(s, s', j))
  }

  lemma QueueNext(s: Snapshot, t: Snapshot, u: Snapshot, i: nat)
    requires QueuedUpTo(s, t, i) && i < |s.links| && Queues(t, u, i)
    ensures QueuedUpTo(s, u, i + 1)
  {
    forall j: nat | j < i + 1 ensures FairTo(s, u, j) {
      if j == i {
        StillThen(s, t, u, i);
      } else {
        OthersDescend(t, u, i, j);
        FairThen(s, t, u, j);
      }
    }
    forall j: nat | i < j < |s.links| ensures Still(s, u, j) {
      assert Still(s, t, j) && Fewer(t.links[j], u.links[j]);
      forall c: nat ensures SameSends(s, u, j, c) {
        assert SameSends(s, t, j, c) && SameSends(t, u, j, c);
      }
    }
  }

  lemma QueueSkip(s: Snapshot, t: Snapshot, i: nat)
    requires QueuedUpTo(s, t, i) && i < |s.links|
    ensures QueuedUpTo(s, t, i + 1)
  {
    StillFair(s, t, i);
  }

  /** So it is toward every neighbour. */
  ghost predicate AllFair(s: Snapshot, s': Snapshot) {
    |s'.links| == |s.links| && forall j: nat :: j < |s.links| ==> FairTo(s, s', j)
  }

  lemma ServesAllFair(s: Snapshot, s': Snapshot, i: nat)
    requires ServesOnly(s, s', i)
    ensures AllFair(s, s')
  {
    forall j: nat | j < |s.links| ensures FairTo(s, s', j) {
      if j != i {
        OthersDescend(s, s', i, j);
      }
    }
  }

  /** Messages go from the queues, and nothing is sent. */
  ghost predicate Thins(s: Snapshot, s': Snapshot) { s'.sent == s.sent && Beside(s.links, s'.links, |s.links|) }

  lemma ThinsAllFair(s: Snapshot, s': Snapshot)
    requires Thins(s, s')
    ensures AllFair(s, s')
  {
    forall j: nat | j < |s.links| ensures FairTo(s, s', j) {
      OthersDescend(s, s', |s.links|, j);
    }
  }

  // ----- Runs -----

  ghost predicate FairRun(trace: seq<Snapshot>) { forall t :: 0 < t < |trace| ==> AllFair(trace[t - 1], trace[t]) }

  lemma RunOn(trace: seq<Snapshot>, s: Snapshot)
    requires trace != [] && FairRun(trace) && AllFair(trace[|trace| - 1], s)
    ensures FairRun(trace + [s])
  {
    var more := trace + [s];
    forall t | 0 < t < |more| ensures AllFair(more[t - 1], more[t]) {
      assert t < |trace| ==> AllFair(trace[t - 1], trace[t]);
    }
  }

  /**
   * In a run, while source `b` waits with messages toward `j` and does not send, every other source
   * sends to `j` at most as many messages as `b` owes turns.
   */
  lemma {:induction false} BoundedOvertaking(trace: seq<Snapshot>, j: nat, b: nat, c: nat)
    requires trace != [] && FairRun(trace) && j < |trace[0].links| && Two(trace[0].links[j], b, c)
    requires forall t :: 0 < t < |trace| ==> Waits(trace[t], j, b) && Sends(trace[t].sent, j, b) ==
                                                                   Sends(trace[0].sent, j, b)
    ensures var last := trace[|trace| - 1];
            && j < |last.links| && Two(last.links[j], b, c)
            && Overtakes(last.links[j], b, c) + Sends(last.sent, j, c) - Sends(trace[0].sent, j, c) <=
               Overtakes(trace[0].links[j], b, c) <= Owed(trace[0].links[j], b)
  {
    if |trace| > 1 {
      var front := trace[..|trace| - 1];
      BoundedOvertaking(front, j, b, c);
      var s, last := front[|front| - 1], trace[|trace| - 1];
      assert AllFair(s, last) && FairTo(s, last, j) && FairFor(s, last, j, b, c);
    }
  }
}

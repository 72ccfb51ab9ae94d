/**
 * One neighbour's side of the scheduler: the source queues under a total, and the urgent and normal
 * fair queues that decide whose turn it is (daemon/priority_flood.c:835-957).
 */
module PriorityLinks {
  import opened PriorityQueues

  const PENALTIES: nat := 0x1_0000   // the penalty is a 16-bit unsigned number

  datatype Fair = Fair(src: nat, penalty: nat)

  datatype Link = Link(total: nat, srcs: seq<SourceQueue>, urgent: seq<Fair>, norm: seq<Fair>)

  function NewLink(n: nat): Link { Link(0, seq(n, _ => NO_MESSAGES), [], []) }

  function Total(srcs: seq<SourceQueue>): nat {
    if srcs == [] then 0 else Total(srcs[..|srcs| - 1]) + srcs[|srcs| - 1].count
  }

  function Times(q: seq<Fair>, src: nat): nat {
    if q == [] then 0 else (if q[0].src == src then 1 else 0) + Times(q[1..], src)
  }

  /** Turns until the penalties run out; 0 wraps around first. */
  function Weight(q: seq<Fair>): nat {
    if q == [] then 0 else (if q[0].penalty == 0 then PENALTIES else q[0].penalty) + Weight(q[1..])
  }

  function Decrement(penalty: nat): nat { if penalty == 0 then PENALTIES - 1 else penalty - 1 }

  predicate InRange(q: seq<Fair>, n: nat) { forall k :: 0 <= k < |q| ==> q[k].src < n && q[k].penalty < PENALTIES }

  /** A source is in the fair queues once or not at all, as its flag says; with messages it is. */
  predicate Fairly(l: Link) {
    && InRange(l.urgent, |l.srcs|) && InRange(l.norm, |l.srcs|)
    && (forall s :: 0 <= s < |l.srcs| ==> Times(l.urgent, s) + Times(l.norm, s) == if l.srcs[s].queued then 1 else 0)
    && (forall s :: 0 <= s < |l.srcs| && l.srcs[s].count > 0 ==> l.srcs[s].queued)
  }

  predicate Counted(l: Link, n: nat) {
    && |l.srcs| == n && l.total == Total(l.srcs)
    && (forall s :: 0 <= s < n ==> QueueOk(l.srcs[s], s))
  }

  predicate LinkOk(l: Link, n: nat) { Counted(l, n) && Fairly(l) }

  predicate Holds(l: Link, m: Msg) { m.src < |l.srcs| && In(l.srcs[m.src], m) }

  // ----- Lists -----

  lemma {:induction false} TotalUpdate(srcs: seq<SourceQueue>, s: nat, q: SourceQueue)
    requires s < |srcs|
    ensures Total(srcs[s := q]) + srcs[s].count == Total(srcs) + q.count
  {
    var front := srcs[..|srcs| - 1];
    if s == |srcs| - 1 {
      assert srcs[s := q][..|srcs| - 1] == front;
    } else {
      TotalUpdate(front, s, q);
      assert srcs[s := q][..|srcs| - 1] == front[s := q];
    }
  }

  lemma {:induction false} TotalBound(srcs: seq<SourceQueue>, s: nat)
    requires s < |srcs|
    ensures srcs[s].count <= Total(srcs)
  {
    if s < |srcs| - 1 {
      TotalBound(srcs[..|srcs| - 1], s);
    }
  }

  lemma {:induction false} TimesAppend(q: seq<Fair>, f: Fair, src: nat)
    ensures Times(q + [f], src) == Times(q, src) + if f.src == src then 1 else 0
  {
    if q == [] {
      assert q + [f] == [f] && [f][1..] == [];
    } else {
      assert (q + [f])[1..] == q[1..] + [f];
      TimesAppend(q[1..], f, src);
    }
  }

  lemma {:induction false} WeightAppend(q: seq<Fair>, f: Fair)
    ensures Weight(q + [f]) == Weight(q) + if f.penalty == 0 then PENALTIES else f.penalty
  {
    if q == [] {
      assert q + [f] == [f] && [f][1..] == [];
    } else {
      assert (q + [f])[1..] == q[1..] + [f];
      WeightAppend(q[1..], f);
    }
  }

  // ----- Queueing and unlinking -----

  /** A message queued; its source enters the urgent queue unless it is in one already. */
  function PutLink(l: Link, m: Msg): Link
    requires m.src < |l.srcs| && m.priority < |l.srcs[m.src].lists|
  {
    var q := l.srcs[m.src];
    l.(srcs := l.srcs[m.src := Put(q, m).(queued := true)], total := l.total + m.packets,
       urgent := if q.queued then l.urgent else l.urgent + [Fair(m.src, 1)])
  }

  predicate Proper(m: Msg, n: nat) {
    m.src < n && 0 < m.packets < PENALTIES && 1 <= m.priority <= MAX_PRIORITY
  }

  lemma PutFair(l: Link, n: nat, m: Msg)
    requires LinkOk(l, n) && Proper(m, n)
    ensures Fairly(PutLink(l, m))
  {
    var l' := PutLink(l, m);
    forall s | 0 <= s < n ensures Times(l'.urgent, s) + Times(l'.norm, s) == if l'.srcs[s].queued then 1 else 0 {
      TimesAppend(l.urgent, Fair(m.src, 1), s);
    }
  }

  lemma PutLinkOk(l: Link, n: nat, m: Msg)
    requires LinkOk(l, n) && Proper(m, n) && !Holds(l, m)
    ensures LinkOk(PutLink(l, m), n)
    ensures forall x :: Holds(PutLink(l, m), x) <==> Holds(l, x) || x == m
  {
    PutFair(l, n, m);
    var q := l.srcs[m.src];
    PutOk(q, m.src, m);
    var q' := Put(q, m).(queued := true);
    TotalUpdate(l.srcs, m.src, q');
    assert QueueOk(q', m.src);
    assert forall x :: In(q', x) <==> In(Put(q, m), x);
  }

  function DropLink(l: Link, m: Msg): Link
    requires Holds(l, m) && |l.srcs[m.src].lists| == MAX_PRIORITY + 1 && m.packets <= l.srcs[m.src].count <= l.total
  {
    l.(srcs := l.srcs[m.src := Drop(l.srcs[m.src], m)], total := l.total - m.packets)
  }

  /** The counters never go below zero. */
  lemma CountsCover(l: Link, n: nat, m: Msg)
    requires LinkOk(l, n) && Holds(l, m)
    ensures m.packets <= l.srcs[m.src].count <= l.total
  {
    CountCovers(l.srcs[m.src], m.src, m);
    TotalBound(l.srcs, m.src);
  }

  lemma DropFair(l: Link, n: nat, m: Msg)
    requires LinkOk(l, n) && Holds(l, m) && m.packets <= l.srcs[m.src].count <= l.total
    ensures Fairly(DropLink(l, m))
  {
    var l' := DropLink(l, m);
    forall s | 0 <= s < n ensures l'.srcs[s].queued == l.srcs[s].queued && l'.srcs[s].count <= l.srcs[s].count {
      assert s == m.src || l'.srcs[s] == l.srcs[s];
    }
  }

  lemma DropLinkOk(l: Link, n: nat, m: Msg)
    requires LinkOk(l, n) && Holds(l, m) && m.packets <= l.srcs[m.src].count <= l.total
    ensures LinkOk(DropLink(l, m), n)
    ensures forall x :: Holds(DropLink(l, m), x) <==> Holds(l, x) && x != m
  {
    DropFair(l, n, m);
    DropOk(l.srcs[m.src], m.src, m);
    TotalUpdate(l.srcs, m.src, Drop(l.srcs[m.src], m));
  }

  // ----- Whose turn -----

  /** Only the fair queues differ. */
  predicate SameLists(l: Link, l': Link) {
    && |l.srcs| == |l'.srcs| && l.total == l'.total
    && forall s :: 0 <= s < |l.srcs| ==> l'.srcs[s] == l.srcs[s].(queued := l'.srcs[s].queued)
  }

  lemma {:induction false} SameTotal(a: seq<SourceQueue>, b: seq<SourceQueue>)
    requires |a| == |b| && forall s :: 0 <= s < |a| ==> a[s].count == b[s].count
    ensures Total(a) == Total(b)
  {
    if a != [] {
      SameTotal(a[..|a| - 1], b[..|b| - 1]);
    }
  }

  lemma SameListsOk(l: Link, l': Link, n: nat)
    requires Counted(l, n) && SameLists(l, l')
    ensures Counted(l', n) && forall x :: Holds(l', x) <==> Holds(l, x)
  {
    SameTotal(l.srcs, l'.srcs);
    forall s | 0 <= s < n ensures QueueOk(l'.srcs[s], s) {
      assert QueueOk(l.srcs[s], s);
    }
  }

  /** The queue that is served: the urgent one first. */
  predicate Urgent(l: Link) { l.urgent != [] }

  predicate Waiting(l: Link) { l.urgent != [] || l.norm != [] }

  function First(l: Link): Fair
    requires Waiting(l)
  {
    if Urgent(l) then l.urgent[0] else l.norm[0]
  }

  /** The first entry with another penalty. */
  function SetFirst(l: Link, penalty: nat): Link
    requires Waiting(l)
  {
    if Urgent(l) then l.(urgent := [Fair(l.urgent[0].src, penalty)] + l.urgent[1..])
    else l.(norm := [Fair(l.norm[0].src, penalty)] + l.norm[1..])
  }

  /** The first entry at the end of the normal queue. */
  function Requeue(l: Link, penalty: nat): Link
    requires Waiting(l)
  {
    if Urgent(l) then l.(urgent := l.urgent[1..], norm := l.norm + [Fair(l.urgent[0].src, penalty)])
    else l.(norm := l.norm[1..] + [Fair(l.norm[0].src, penalty)])
  }

  lemma SetFirstOk(l: Link, n: nat, penalty: nat)
    requires LinkOk(l, n) && Waiting(l) && penalty < PENALTIES
    ensures LinkOk(SetFirst(l, penalty), n)
  {
    var l' := SetFirst(l, penalty);
    forall s | 0 <= s < n ensures Times(l'.urgent, s) == Times(l.urgent, s) && Times(l'.norm, s) == Times(l.norm, s) {
      if Urgent(l) {
        assert l'.urgent[1..] == l.urgent[1..];
      } else {
        assert l'.norm[1..] == l.norm[1..];
      }
    }
  }

  lemma RequeueOk(l: Link, n: nat, penalty: nat)
    requires LinkOk(l, n) && Waiting(l) && penalty < PENALTIES
    ensures LinkOk(Requeue(l, penalty), n)
  {
    var l' := Requeue(l, penalty);
    var f := First(l);
    forall s | 0 <= s < n
      ensures Times(l'.urgent, s) + Times(l'.norm, s) == Times(l.urgent, s) + Times(l.norm, s)
    {
      TimesAppend(if Urgent(l) then l.norm else l.norm[1..], Fair(f.src, penalty), s);
    }
  }

  /** A source without messages leaves the normal queue. */
  function Retire(l: Link): Link
    requires l.norm != [] && l.norm[0].src < |l.srcs|
  {
    var s := l.norm[0].src;
    l.(norm := l.norm[1..], srcs := l.srcs[s := l.srcs[s].(queued := false)])
  }

  lemma RetireOk(l: Link, n: nat)
    requires LinkOk(l, n) && l.norm != [] && l.srcs[l.norm[0].src].count == 0
    ensures LinkOk(Retire(l), n) && SameLists(l, Retire(l))
  {
    var l' := Retire(l);
    SameListsOk(l, l', n);
    var f := l.norm[0].src;
    forall s | 0 <= s < n
      ensures Times(l'.urgent, s) + Times(l'.norm, s) == if l'.srcs[s].queued then 1 else 0
    {
      assert Times(l.norm, s) == (if f == s then 1 else 0) + Times(l'.norm, s);
    }
  }

  /** The turn of some source has come closer: one of the measures behind the loop's termination. */
  predicate Closer(l': Link, l: Link) {
    || |l'.urgent| < |l.urgent|
    || (|l'.urgent| == |l.urgent| && |l'.norm| < |l.norm|)
    || (|l'.urgent| == |l.urgent| && |l'.norm| == |l.norm| && Weight(l'.norm) < Weight(l.norm))
  }

  /**
   * The first source has been looked at but does not send: it has to wait on, or has nothing to send.
   * In the urgent queue it then goes to the normal one, with a penalty of 0 that will wrap around; in
   * the normal queue it leaves.
   */
  predicate LookedAt(l: Link, l': Link) {
    Waiting(l) && First(l).src < |l.srcs| &&
    var f := First(l);
    if Decrement(f.penalty) > 0 then l' == Requeue(l, Decrement(f.penalty))
    else l.srcs[f.src].count == 0 && l' == if Urgent(l) then Requeue(l, 0) else Retire(l)
  }

  /**
   * One look at the fair queues: either the first source may send now, or the queues are rearranged
   * and some turn has come closer.
   */
  method NextSource(l: Link, n: nat) returns (l': Link, ready: bool)
    requires LinkOk(l, n) && Waiting(l)
    ensures LinkOk(l', n) && SameLists(l, l')
    ensures ready ==> l' == SetFirst(l, 0) && First(l').src < n && l'.srcs[First(l').src].count > 0
    ensures ready ==> First(l).penalty == 1
    ensures !ready ==> Closer(l', l) && LookedAt(l, l')
  {
    if l.urgent != [] {
      var f := l.urgent[0];
      var penalty := Decrement(f.penalty);
      if penalty > 0 || l.srcs[f.src].count == 0 {
        RequeueOk(l, n, penalty);
        return Requeue(l, penalty), false;
      }
    } else {
      var f := l.norm[0];
      var penalty := Decrement(f.penalty);
      if penalty > 0 {
        RequeueOk(l, n, penalty);
        WeightAppend(l.norm[1..], Fair(f.src, penalty));
        return Requeue(l, penalty), false;
      } else if l.srcs[f.src].count == 0 {
        RetireOk(l, n);
        return Retire(l), false;
      }
    }
    SetFirstOk(l, n, 0);
    return SetFirst(l, 0), true;
  }
}

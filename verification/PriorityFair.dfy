/**
 * Whose turn it is (daemon/priority_flood.c:835-957): how often one source may still send before
 * another one's turn comes, and that every look at the fair queues brings that turn closer.
 */
module PriorityFair {
  import opened PriorityQueues
  import opened PriorityLinks

  /** The penalty of a source's first entry. */
  function Penalty(q: seq<Fair>, b: nat): nat {
    if q == [] then 0 else if q[0].src == b then q[0].penalty else Penalty(q[1..], b)
  }

  /** Source `c` stands before source `b`. */
  predicate Before(q: seq<Fair>, c: nat, b: nat) {
    q != [] && q[0].src != b && (q[0].src == c || Before(q[1..], c, b))
  }

  /** How often a source is looked at until it may send; 0 wraps around first. */
  function Looks(penalty: nat): nat { if penalty == 0 then PENALTIES else penalty }

  predicate InLine(l: Link, b: nat) { Times(l.urgent, b) + Times(l.norm, b) > 0 }

  function Owed(l: Link, b: nat): nat {
    Looks(if Times(l.urgent, b) > 0 then Penalty(l.urgent, b) else Penalty(l.norm, b))
  }

  /**
   * Source `c` may send before `b` is looked at: it is in front of it, or could enter the urgent queue
   * while `b` is in the normal one.
   */
  predicate Ahead(l: Link, c: nat, b: nat) {
    if Times(l.urgent, b) > 0 then Before(l.urgent, c, b)
    else Times(l.urgent, c) > 0 || Before(l.norm, c, b) || Times(l.norm, c) == 0
  }

  /** How often `c` may send before `b`'s turn. */
  function Overtakes(l: Link, b: nat, c: nat): (k: nat)
    ensures k <= Owed(l, b)
  {
    Owed(l, b) - 1 + if Ahead(l, c, b) then 1 else 0
  }

  // ----- Lists -----

  lemma {:induction false} AppendOther(q: seq<Fair>, f: Fair, c: nat, b: nat)
    requires Times(q, b) > 0
    ensures Penalty(q + [f], b) == Penalty(q, b) && (Before(q + [f], c, b) <==> Before(q, c, b))
  {
    assert (q + [f])[1..] == q[1..] + [f];
    if q[0].src != b {
      AppendOther(q[1..], f, c, b);
    }
  }

  lemma {:induction false} AppendNew(q: seq<Fair>, f: Fair)
    requires Times(q, f.src) == 0
    ensures Penalty(q + [f], f.src) == f.penalty
  {
    if q == [] {
      assert q + [f] == [f];
    } else {
      assert (q + [f])[1..] == q[1..] + [f];
      AppendNew(q[1..], f);
    }
  }

  lemma {:induction false} BeforeIsIn(q: seq<Fair>, c: nat, b: nat)
    requires Before(q, c, b)
    ensures Times(q, c) > 0
  {
    if q[0].src != c {
      BeforeIsIn(q[1..], c, b);
    }
  }

  // ----- Steps -----

  /** Another source goes behind all others; if it is `c`, it may send once less before `b`. */
  lemma OtherRequeued(l: Link, n: nat, penalty: nat, b: nat, c: nat)
    requires LinkOk(l, n) && Waiting(l) && InLine(l, b) && b < n && c < n && b != c && First(l).src != b
    ensures var l' := Requeue(l, penalty);
            && InLine(l', b)
            && Overtakes(l', b, c) + (if First(l).src == c then 1 else 0) <= Overtakes(l, b, c)
  {
    var x := First(l).src;
    var f := Fair(x, penalty);
    var rest := if Urgent(l) then l.norm else l.norm[1..];
    TimesAppend(rest, f, b);
    TimesAppend(rest, f, c);
    assert Times(l.urgent, c) + Times(l.norm, c) <= 1;
    if Times(l.urgent, b) > 0 {
      if Before(l.urgent[1..], c, b) {
        BeforeIsIn(l.urgent[1..], c, b);
      }
    } else {
      AppendOther(rest, f, c, b);
      if Before(rest, c, b) {
        BeforeIsIn(rest, c, b);
      }
    }
  }

  /** The source itself is looked at and has to wait on. */
  lemma OwnLook(l: Link, n: nat, b: nat, c: nat)
    requires LinkOk(l, n) && Waiting(l) && b < n && First(l).src == b && b != c && Decrement(First(l).penalty) > 0
    ensures var l' := Requeue(l, Decrement(First(l).penalty));
            InLine(l', b) && Overtakes(l', b, c) <= Overtakes(l, b, c)
  {
    var f := Fair(b, Decrement(First(l).penalty));
    var rest := if Urgent(l) then l.norm else l.norm[1..];
    assert Times(l.urgent, b) + Times(l.norm, b) <= 1;
    TimesAppend(rest, f, b);
    AppendNew(rest, f);
  }

  lemma OtherRetired(l: Link, n: nat, b: nat, c: nat)
    requires LinkOk(l, n) && l.urgent == [] && l.norm != [] && InLine(l, b) && b < n && b != c && l.norm[0].src != b
    ensures InLine(Retire(l), b) && Overtakes(Retire(l), b, c) <= Overtakes(l, b, c)
  {
  }

  /** A source that was in neither queue enters the urgent one. */
  lemma OtherEnters(l: Link, n: nat, x: nat, b: nat, c: nat)
    requires LinkOk(l, n) && !InLine(l, x) && InLine(l, b) && b < n && b != c
    ensures var l' := l.(urgent := l.urgent + [Fair(x, 1)]); InLine(l', b) && Overtakes(l', b, c) <= Overtakes(l, b, c)
  {
    TimesAppend(l.urgent, Fair(x, 1), b);
    TimesAppend(l.urgent, Fair(x, 1), c);
    if Times(l.urgent, b) > 0 {
      AppendOther(l.urgent, Fair(x, 1), c, b);
    }
  }

  // ----- Looking and sending -----

  ghost predicate Fewer(l: Link, l': Link) {
    |l'.srcs| == |l.srcs| && forall b :: 0 <= b < |l.srcs| ==> l'.srcs[b].count <= l.srcs[b].count
  }

  /** From `l` to `l'`, while `x` sent one message or nobody did, `c` may overtake `b` no more often than before. */
  predicate NoWorse(l: Link, l': Link, x: int, b: nat, c: nat) {
    InLine(l', b) && Overtakes(l', b, c) + (if c == x then 1 else 0) <= Overtakes(l, b, c)
  }

  predicate Two(l: Link, b: nat, c: nat) { b < |l.srcs| && c < |l.srcs| && b != c && InLine(l, b) }

  /**
   * From `l` to `l'` nothing was queued and source `x` sent one message, or none did: a source other
   * than `x` that waits with messages is still queued, and `x` may overtake it once less.
   */
  predicate DownFor(l: Link, l': Link, x: int, b: nat, c: nat) {
    Two(l, b, c) && b != x && b < |l'.srcs| && l'.srcs[b].count > 0 ==> NoWorse(l, l', x, b, c)
  }

  ghost predicate Down(l: Link, l': Link, x: int) { Fewer(l, l') && forall b: nat, c: nat :: DownFor(l, l', x, b, c) }

  const NOBODY: int := -1

  lemma SameFairDown(l: Link, l': Link)
    requires Fewer(l, l') && l'.urgent == l.urgent && l'.norm == l.norm
    ensures Down(l, l', NOBODY)
  {
  }

  lemma DownTwice(l: Link, m: Link, r: Link, x: int)
    requires Down(l, m, NOBODY) && Down(m, r, x)
    ensures Down(l, r, x)
  {
    forall b: nat, c: nat ensures DownFor(l, r, x, b, c) {
      assert DownFor(l, m, NOBODY, b, c) && DownFor(m, r, x, b, c);
    }
  }

  lemma LookedDownFor(l: Link, l': Link, n: nat, b: nat, c: nat)
    requires LinkOk(l, n) && LookedAt(l, l') && Two(l, b, c) && b < |l'.srcs| && l'.srcs[b].count > 0
    ensures NoWorse(l, l', NOBODY, b, c)
  {
    var f := First(l);
    if Decrement(f.penalty) == 0 && !Urgent(l) {
      OtherRetired(l, n, b, c);
    } else if f.src == b {
      OwnLook(l, n, b, c);
    } else {
      OtherRequeued(l, n, Decrement(f.penalty), b, c);
    }
  }

  lemma LookedDown(l: Link, l': Link, n: nat)
    requires LinkOk(l, n) && LookedAt(l, l')
    ensures Down(l, l', NOBODY)
  {
    forall b: nat, c: nat | Two(l, b, c) && b < |l'.srcs| && l'.srcs[b].count > 0 ensures NoWorse(l, l', NOBODY, b, c) {
      LookedDownFor(l, l', n, b, c);
    }
  }

  /** A message of the first source goes to the link. */
  lemma ServedDown(l: Link, n: nat, penalty: nat)
    requires LinkOk(l, n) && Waiting(l)
    ensures Down(l, Requeue(l, penalty), First(l).src)
  {
    var l', x := Requeue(l, penalty), First(l).src;
    forall b: nat, c: nat | Two(l, b, c) && b != x ensures NoWorse(l, l', x, b, c) {
      OtherRequeued(l, n, penalty, b, c);
    }
  }

  predicate EasyFor(l: Link, l': Link, b: nat, c: nat) { Two(l, b, c) ==> NoWorse(l, l', NOBODY, b, c) }

  /** What is queued overtakes nobody more often. */
  ghost predicate Easy(l: Link, l': Link) { |l'.srcs| == |l.srcs| && forall b: nat, c: nat :: EasyFor(l, l', b, c) }

  lemma PutEasyFor(l: Link, n: nat, m: Msg, b: nat, c: nat)
    requires LinkOk(l, n) && Proper(m, n) && Two(l, b, c)
    ensures NoWorse(l, PutLink(l, m), NOBODY, b, c)
  {
    if !l.srcs[m.src].queued {
      OtherEnters(l, n, m.src, b, c);
    }
  }

  lemma PutEasy(l: Link, n: nat, m: Msg)
    requires LinkOk(l, n) && Proper(m, n)
    ensures Easy(l, PutLink(l, m))
  {
    forall b: nat, c: nat | Two(l, b, c) ensures NoWorse(l, PutLink(l, m), NOBODY, b, c) {
      PutEasyFor(l, n, m, b, c);
    }
  }

  /**
   * A look that does not make its source wait less: exactly if the urgent turn of a source comes when
   * its messages are gone. It stays in line with the penalty 0, and what it queues next waits for
   * 65536 looks.
   */
  lemma EmptyUrgentTurn(l: Link, l': Link, n: nat)
    requires LinkOk(l, n) && LookedAt(l, l') && InLine(l', First(l).src)
    ensures var f := First(l);
            && (Owed(l', f.src) >= Owed(l, f.src) <==> Urgent(l) && f.penalty == 1 && l.srcs[f.src].count == 0)
            && (Owed(l', f.src) >= Owed(l, f.src) ==> Owed(l', f.src) == PENALTIES)
  {
    var f := First(l);
    var rest := if Urgent(l) then l.norm else l.norm[1..];
    assert Times(l.urgent, f.src) + Times(l.norm, f.src) <= 1;
    if Decrement(f.penalty) > 0 || Urgent(l) {
      TimesAppend(rest, Fair(f.src, Decrement(f.penalty)), f.src);
      AppendNew(rest, Fair(f.src, Decrement(f.penalty)));
    }
  }
}

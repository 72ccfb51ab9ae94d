/**
 * Cleaning up messages and serving one neighbour's queue (daemon/priority_flood.c:806-1065).
 */
module PriorityServing {
  import opened PriorityQueues
  import opened PriorityLinks
  import opened PrioritySched
  import opened PriorityFair

  ghost predicate Monotone(clock: nat -> nat) { forall i: nat, j: nat :: i <= j ==> clock(i) <= clock(j) }

  /** The queue without `m`, if it holds it. */
  function Cleared(l: Link, m: Msg): Link {
    if Holds(l, m) && |l.srcs[m.src].lists| == MAX_PRIORITY + 1 && m.packets <= l.srcs[m.src].count <= l.total
    then DropLink(l, m) else l
  }

  /** Only the fair queues of link `i` change. */
  lemma SameListsSched(links: seq<Link>, belly: map<Key, Entry>, n: nat, i: nat, l: Link)
    requires SchedOk(links, belly, n) && i < |links| && LinkOk(l, n) && SameLists(links[i], l)
    ensures SchedOk(links[i := l], belly, n)
  {
    assert LinkOk(links[i], n);
    SameListsOk(links[i], l, n);
    LinksUpdate(links, n, i, l);
    var links' := links[i := l];
    forall j, x | 0 <= j < |links'| ensures Holds(links'[j], x) <==> Has(belly, x, j, Need) {
      assert Holds(links[j], x) <==> Has(belly, x, j, Need);
    }
  }

  /** The message of `k` has left the queue of neighbour `i`. */
  ghost predicate CleanedOne(links: seq<Link>, belly: map<Key, Entry>, links': seq<Link>, belly': map<Key, Entry>,
                             k: Key, i: nat, f: Flag) {
    && k in belly && i < |belly[k].ns| && belly[k].need > 0 && i < |links| && Holds(links[i], belly[k].msg)
    && links' == links[i := Cleared(links[i], belly[k].msg)] && belly' == belly[k := Settle(belly[k], i, f)]
    && !Has(belly', belly[k].msg, i, Need)
  }

  lemma CleanStep(links: seq<Link>, belly: map<Key, Entry>, n: nat, k: Key, i: nat, f: Flag)
      returns (links': seq<Link>, belly': map<Key, Entry>)
    requires SchedOk(links, belly, n)
    requires k in belly && i < |belly[k].ns| && belly[k].ns[i] == Need && !Pending(f)
    ensures SchedOk(links', belly', n) && Steady(belly, belly') && CleanedOne(links, belly, links', belly', k, i, f)
    ensures Droppable(links[i], n, belly[k].msg) && Cleared(links[i], belly[k].msg) == DropLink(links[i], belly[k].msg)
  {
    SettleNeed(links, belly, n, k, i, f);
    SettleSteady(belly, |links|, n, k, i, f);
    assert EntryOk(belly[k], k, |links|, n);
    links' := links[i := Cleared(links[i], belly[k].msg)];
    belly' := belly[k := Settle(belly[k], i, f)];
  }

  /** The neighbours `lo` .. `hi` - 1 have lost `m`, the others nothing. */
  ghost predicate Cleaned(links: seq<Link>, links': seq<Link>, m: Msg, lo: nat, hi: nat) {
    && |links'| == |links|
    && forall i :: 0 <= i < |links| ==> links'[i] == if lo <= i < hi then Cleared(links[i], m) else links[i]
  }

  lemma NotHeld(links: seq<Link>, belly: map<Key, Entry>, m: Msg, i: nat)
    requires Agree(links, belly) && i < |links| && !Has(belly, m, i, Need)
    ensures Cleared(links[i], m) == links[i]
  {
  }

  /** The state of a clean-up of `k` that has come to neighbour `i`. */
  ghost predicate Cleaning(links0: seq<Link>, belly0: map<Key, Entry>, links: seq<Link>, belly: map<Key, Entry>, k: Key,
                           lo: nat, i: nat) {
    && k in belly0 && k in belly && belly[k].msg == belly0[k].msg && Steady(belly0, belly)
    && Cleaned(links0, links, belly0[k].msg, lo, i)
    && (forall j: nat :: lo <= j < i ==> !Has(belly, belly0[k].msg, j, Need))
    && (forall j :: j in belly0 && j != k ==> j in belly && belly[j] == belly0[j])
  }

  lemma CleaningStart(links: seq<Link>, belly: map<Key, Entry>, k: Key, lo: nat)
    requires k in belly
    ensures Cleaning(links, belly, links, belly, k, lo, lo)
  {
  }

  lemma NeedHasNs(links: seq<Link>, belly: map<Key, Entry>, n: nat, k: Key)
    requires SchedOk(links, belly, n) && k in belly
    ensures KeyOf(belly[k].msg) == k && if belly[k].need > 0 then |belly[k].ns| == |links| else belly[k].ns == []
  {
    assert EntryOk(belly[k], k, |links|, n);
  }

  lemma SteadyTwice(a: map<Key, Entry>, b: map<Key, Entry>, c: map<Key, Entry>)
    requires Steady(a, b) && Steady(b, c)
    ensures Steady(a, c)
  {
  }

  lemma CleaningStep(links0: seq<Link>, belly0: map<Key, Entry>, links: seq<Link>, belly: map<Key, Entry>,
                     links': seq<Link>, belly': map<Key, Entry>, k: Key, lo: nat, i: nat, f: Flag)
    requires Cleaning(links0, belly0, links, belly, k, lo, i) && lo <= i < |links|
    requires Steady(belly, belly') && CleanedOne(links, belly, links', belly', k, i, f)
    ensures Cleaning(links0, belly0, links', belly', k, lo, i + 1)
  {
    SteadyTwice(belly0, belly, belly');
  }

  lemma CleaningSkip(links0: seq<Link>, belly0: map<Key, Entry>, links: seq<Link>, belly: map<Key, Entry>, k: Key,
                     lo: nat, i: nat)
    requires Cleaning(links0, belly0, links, belly, k, lo, i) && lo <= i < |links| && Agree(links, belly)
    requires KeyOf(belly[k].msg) == k && i < |belly[k].ns| && belly[k].ns[i] != Need
    ensures Cleaning(links0, belly0, links, belly, k, lo, i + 1)
  {
    assert !Has(belly, belly[k].msg, i, Need);
    NotHeld(links, belly, belly[k].msg, i);
  }

  lemma CleaningEnd(links0: seq<Link>, belly0: map<Key, Entry>, links: seq<Link>, belly: map<Key, Entry>, k: Key,
                    lo: nat, i: nat, hi: nat)
    requires Cleaning(links0, belly0, links, belly, k, lo, i) && lo <= i <= hi <= |links| && Agree(links, belly)
    requires KeyOf(belly[k].msg) == k && belly[k].ns == []
    ensures Cleaning(links0, belly0, links, belly, k, lo, hi)
  {
    var m := belly[k].msg;
    forall j: nat | i <= j < hi ensures links[j] == Cleared(links0[j], m) && !Has(belly, m, j, Need) {
      NotHeld(links, belly, m, j);
    }
  }

  predicate Droppable(l: Link, n: nat, m: Msg) {
    && LinkOk(l, n) && Holds(l, m) && |l.srcs[m.src].lists| == MAX_PRIORITY + 1
    && m.packets <= l.srcs[m.src].count <= l.total
  }

  method UnlinkLink(l: Link, ghost n: nat, m: Msg) returns (l': Link)
    requires Droppable(l, n, m)
    ensures l' == DropLink(l, m)
  {
    assert QueueOk(l.srcs[m.src], m.src);
    var q := Unlink(l.srcs[m.src], m.src, m);
    l' := l.(srcs := l.srcs[m.src := q], total := l.total - m.packets);
  }

  // ----- What serving a queue leaves of it -----

  /** Messages expired by `t` have gone from the front. */
  predicate Trimmed(a: seq<Msg>, b: seq<Msg>, t: nat) {
    |b| <= |a| && b == a[|a| - |b|..] && forall k :: 0 <= k < |a| - |b| ==> a[k].expire <= t
  }

  /** So they have from the list of priority `p` of source `s`. */
  predicate TrimmedAt(a: Link, b: Link, t: nat, s: nat, p: nat) {
    s < |a.srcs| && p < |a.srcs[s].lists| ==>
      s < |b.srcs| && |b.srcs[s].lists| == |a.srcs[s].lists| && Trimmed(a.srcs[s].lists[p], b.srcs[s].lists[p], t)
  }

  ghost predicate Pruned(a: Link, b: Link, t: nat) {
    |a.srcs| == |b.srcs| && forall s: nat, p: nat :: TrimmedAt(a, b, t, s, p)
  }

  lemma TrimmedLater(a: seq<Msg>, b: seq<Msg>, t: nat, t': nat)
    requires Trimmed(a, b, t) && t <= t'
    ensures Trimmed(a, b, t')
  {
  }

  lemma PrunedSame(a: Link, b: Link, c: Link, t: nat, t': nat)
    requires Pruned(a, b, t) && SameLists(b, c) && t <= t'
    ensures Pruned(a, c, t')
  {
    forall s: nat, p: nat ensures TrimmedAt(a, c, t', s, p) {
      assert TrimmedAt(a, b, t, s, p);
      if s < |a.srcs| && p < |a.srcs[s].lists| {
        assert c.srcs[s].lists == b.srcs[s].lists;
        TrimmedLater(a.srcs[s].lists[p], b.srcs[s].lists[p], t, t');
      }
    }
  }

  lemma TrimmedTail(a: seq<Msg>, b: seq<Msg>, t: nat)
    requires Trimmed(a, b, t) && b != [] && b[0].expire <= t
    ensures Trimmed(a, b[1..], t)
  {
    var k := |a| - |b|;
    assert a[k] == b[0] && b[1..] == a[k + 1..];
  }

  lemma HeadDropped(b: Link, n: nat, m: Msg, s: nat, p: nat)
    requires Droppable(b, n, m) && b.srcs[m.src].lists[m.priority][0] == m
    requires s < |b.srcs| && p < |b.srcs[s].lists|
    ensures var c := DropLink(b, m);
            |c.srcs| == |b.srcs| && |c.srcs[s].lists| == |b.srcs[s].lists| &&
            c.srcs[s].lists[p] == if s == m.src && p == m.priority then b.srcs[s].lists[p][1..] else b.srcs[s].lists[p]
  {
    var ms := b.srcs[m.src].lists[m.priority];
    assert IndexOf(ms, m) == 0 && Without(ms, m) == ms[1..];
  }

  /** The first message of some list, if expired, leaves a pruned queue. */
  lemma PrunedHead(a: Link, b: Link, n: nat, m: Msg, t: nat)
    requires Pruned(a, b, t) && Droppable(b, n, m) && m.expire <= t && b.srcs[m.src].lists[m.priority][0] == m
    ensures Pruned(a, DropLink(b, m), t)
  {
    var c := DropLink(b, m);
    forall s: nat, p: nat ensures TrimmedAt(a, c, t, s, p) {
      assert TrimmedAt(a, b, t, s, p);
      if s < |a.srcs| && p < |a.srcs[s].lists| {
        HeadDropped(b, n, m, s, p);
        if s == m.src && p == m.priority {
          TrimmedTail(a.srcs[s].lists[p], b.srcs[s].lists[p], t);
        }
      }
    }
  }

  /** Skipping expired messages leads to `m`. */
  predicate FirstAlive(ms: seq<Msg>, m: Msg, t: nat) {
    ms != [] && if ms[0].expire <= t then FirstAlive(ms[1..], m, t) else ms[0] == m
  }

  predicate AllDead(ms: seq<Msg>, t: nat) { forall k :: 0 <= k < |ms| ==> ms[k].expire <= t }

  /** `m` is the oldest unexpired message of the highest priority that has one, for its source. */
  predicate Oldest(l: Link, m: Msg, t: nat) {
    && m.src < |l.srcs| && m.priority < |l.srcs[m.src].lists| && FirstAlive(l.srcs[m.src].lists[m.priority], m, t)
    && (forall p :: m.priority < p < |l.srcs[m.src].lists| ==> AllDead(l.srcs[m.src].lists[p], t))
  }

  lemma {:induction false} TrimmedFirst(a: seq<Msg>, b: seq<Msg>, t: nat)
    requires Trimmed(a, b, t) && b != [] && b[0].expire > t
    ensures FirstAlive(a, b[0], t)
  {
    if |a| > |b| {
      assert a[0].expire <= t && a[1..][|a| - 1 - |b|..] == b;
      TrimmedFirst(a[1..], b, t);
    }
  }

  lemma OldestIs(a: Link, b: Link, n: nat, m: Msg, t: nat)
    requires Pruned(a, b, t) && LinkOk(a, n) && LinkOk(b, n) && m.src < n && m.expire > t
    requires b.srcs[m.src].maxPq == m.priority && 1 <= m.priority <= MAX_PRIORITY
    requires b.srcs[m.src].lists[m.priority] != [] && b.srcs[m.src].lists[m.priority][0] == m
    ensures Oldest(a, m, t)
  {
    var qa, qb := a.srcs[m.src], b.srcs[m.src];
    assert QueueOk(qa, m.src) && QueueOk(qb, m.src);
    forall p | m.priority < p < |qa.lists| ensures AllDead(qa.lists[p], t) {
      assert TrimmedAt(a, b, t, m.src, p) && qb.lists[p] == [];
    }
    assert TrimmedAt(a, b, t, m.src, m.priority);
    TrimmedFirst(qa.lists[m.priority], qb.lists[m.priority], t);
  }

  /** Nothing unexpired is left. */
  predicate AllExpired(l: Link, t: nat) {
    forall s, p :: 0 <= s < |l.srcs| && 0 <= p < |l.srcs[s].lists| ==> AllDead(l.srcs[s].lists[p], t)
  }

  lemma IdleMeansExpired(a: Link, b: Link, n: nat, t: nat)
    requires Pruned(a, b, t) && LinkOk(a, n) && LinkOk(b, n) && !Waiting(b)
    ensures AllExpired(a, t)
  {
    forall s, p | 0 <= s < |a.srcs| && 0 <= p < |a.srcs[s].lists| ensures AllDead(a.srcs[s].lists[p], t) {
      assert QueueOk(b.srcs[s], s) && QueueOk(a.srcs[s], s);
      assert Times(b.urgent, s) + Times(b.norm, s) == 0;
      CountZero(b.srcs[s], s);
      assert TrimmedAt(a, b, t, s, p);
    }
  }

  /** Serving neighbour `i` so far has only settled messages and pruned the queue. */
  ghost predicate Served(links0: seq<Link>, belly0: map<Key, Entry>, links: seq<Link>, belly: map<Key, Entry>, i: nat,
                         t: nat) {
    i < |links0| == |links| && Steady(belly0, belly) && Pruned(links0[i], links[i], t)
  }

  /** `m` is the first message of the highest priority of its source at neighbour `i`. */
  predicate Heads(links: seq<Link>, belly: map<Key, Entry>, n: nat, i: nat, m: Msg) {
    && i < |links| && Droppable(links[i], n, m) && m.packets > 0 && m.packets < PENALTIES && Has(belly, m, i, Need)
    && m.priority == links[i].srcs[m.src].maxPq && links[i].srcs[m.src].lists[m.priority][0] == m
  }

  /** The assertion that the chosen node is not null. */
  lemma HeadExists(links: seq<Link>, belly: map<Key, Entry>, n: nat, i: nat, s: nat)
    requires SchedOk(links, belly, n) && i < |links| && s < |links[i].srcs| && links[i].srcs[s].count > 0
    ensures var q := links[i].srcs[s];
            1 <= q.maxPq < |q.lists| && q.lists[q.maxPq] != [] && q.lists[q.maxPq][0].src == s &&
            Heads(links, belly, n, i, q.lists[q.maxPq][0])
  {
    var l := links[i];
    assert LinkOk(l, n) && QueueOk(l.srcs[s], s);
    CountZero(l.srcs[s], s);
    var q := l.srcs[s];
    var m := q.lists[q.maxPq][0];
    assert m in q.lists[q.maxPq];
    assert Holds(l, m) && Has(belly, m, i, Need);
    CountsCover(l, n, m);
    assert EntryOk(belly[KeyOf(m)], KeyOf(m), |links|, n);
  }

  lemma ExpireServed(links0: seq<Link>, belly0: map<Key, Entry>, links: seq<Link>, belly: map<Key, Entry>,
                     links': seq<Link>, belly': map<Key, Entry>, n: nat, i: nat, m: Msg, t: nat)
    requires Served(links0, belly0, links, belly, i, t) && Heads(links, belly, n, i, m) && m.expire <= t
    requires Cleaning(links, belly, links', belly', KeyOf(m), 0, |links|)
    ensures Served(links0, belly0, links', belly', i, t) && links'[i].total < links[i].total
    ensures links'[i].urgent == links[i].urgent && links'[i].norm == links[i].norm
  {
    SteadyTwice(belly0, belly, belly');
    PrunedHead(links0[i], links[i], n, m, t);
    assert links'[i] == Cleared(links[i], m) == DropLink(links[i], m);
  }

  predicate Departs(links: seq<Link>, belly: map<Key, Entry>, n: nat, i: nat, m: Msg) {
    KeyOf(m) in belly && i < |links| && Droppable(links[i], n, m) && m.packets > 0 && Has(belly, m, i, Need)
  }

  lemma RequeueHeads(links: seq<Link>, belly: map<Key, Entry>, n: nat, i: nat, m: Msg, penalty: nat)
    requires Heads(links, belly, n, i, m) && Waiting(links[i]) && penalty < PENALTIES
    ensures var links' := links[i := Requeue(links[i], penalty)];
            Departs(links', belly, n, i, m) && links'[i].total == links[i].total
  {
    RequeueOk(links[i], n, penalty);
  }

  lemma FirstServed(links0: seq<Link>, belly0: map<Key, Entry>, links: seq<Link>, belly: map<Key, Entry>, i: nat,
                    t: nat, l: Link)
    requires Served(links0, belly0, links, belly, i, t) && SameLists(links[i], l)
    ensures Served(links0, belly0, links[i := l], belly, i, t)
  {
    PrunedSame(links0[i], links[i], l, t, t);
  }

  lemma TransmitSteady(links: seq<Link>, belly: map<Key, Entry>, links': seq<Link>, belly': map<Key, Entry>, n: nat,
                       i: nat, m: Msg)
    requires Departs(links, belly, n, i, m) && Cleaning(links, belly, links', belly', KeyOf(m), i, i + 1)
    ensures Steady(belly, belly') && !Has(belly', m, i, Need) && !Has(belly', m, i, Unset)
    ensures links'[i].total < links[i].total
  {
    assert !Has(belly, m, i, Unset);
    assert links'[i] == Cleared(links[i], m) == DropLink(links[i], m);
  }

  lemma ExpiredCore(links0: seq<Link>, belly0: map<Key, Entry>, links: seq<Link>, belly: map<Key, Entry>,
                    links': seq<Link>, belly': map<Key, Entry>, n: nat, i: nat, m: Msg, t: nat)
    requires Served(links0, belly0, links, belly, i, t) && Heads(links, belly, n, i, m) && m.expire <= t
    requires Waiting(links[i])
    requires Cleaning(links, belly, links', belly', KeyOf(m), 0, |links|)
    ensures |links'| == |links| && Waiting(links'[i]) && links'[i].total < links[i].total
    ensures Served(links0, belly0, links'[i := SetFirst(links'[i], 1)], belly', i, t)
  {
    ExpireServed(links0, belly0, links, belly, links', belly', n, i, m, t);
    FirstServed(links0, belly0, links', belly', i, t, SetFirst(links'[i], 1));
  }

  lemma ServedStart(links: seq<Link>, belly: map<Key, Entry>, i: nat, t: nat)
    requires i < |links|
    ensures Served(links, belly, links, belly, i, t)
  {
  }

  /**
   * `m` is up next at neighbour `i`: it is its source's turn, and it is the right one of all messages
   * of that source that were queued at the outset.
   */
  ghost predicate Chosen(links0: seq<Link>, links: seq<Link>, belly: map<Key, Entry>, n: nat, i: nat, m: Msg, t: nat) {
    && i < |links0| && i < |links| && Waiting(links[i]) && First(links[i]).src == m.src
    && Heads(links, belly, n, i, m) && Oldest(links0[i], m, t)
  }

  lemma Alive(links0: seq<Link>, belly0: map<Key, Entry>, links: seq<Link>, belly: map<Key, Entry>, n: nat, i: nat,
              m: Msg, t: nat)
    requires Served(links0, belly0, links, belly, i, t) && LinksOk(links0, n) && LinksOk(links, n)
    requires Heads(links, belly, n, i, m) && Waiting(links[i]) && First(links[i]).src == m.src && m.expire > t
    ensures Chosen(links0, links, belly, n, i, m, t)
  {
    assert LinkOk(links0[i], n) && LinkOk(links[i], n);
    CountCovers(links[i].srcs[m.src], m.src, m);
    OldestIs(links0[i], links[i], n, m, t);
  }

  lemma NothingLeft(links0: seq<Link>, belly0: map<Key, Entry>, links: seq<Link>, belly: map<Key, Entry>, n: nat,
                    i: nat, t: nat)
    requires Served(links0, belly0, links, belly, i, t) && LinksOk(links0, n) && LinksOk(links, n) && !Waiting(links[i])
    ensures AllExpired(links0[i], t)
  {
    assert LinkOk(links0[i], n) && LinkOk(links[i], n);
    IdleMeansExpired(links0[i], links[i], n, t);
  }

  // ----- Whose turn it was -----

  lemma ClearedFewer(l: Link, m: Msg)
    ensures Fewer(l, Cleared(l, m)) && Cleared(l, m).urgent == l.urgent && Cleared(l, m).norm == l.norm
  {
  }

  /** Toward the neighbours other than `i` nobody's turn has come closer or gone further away. */
  ghost predicate Beside(links: seq<Link>, links': seq<Link>, i: nat) {
    |links'| == |links| &&
    forall j: nat :: j < |links| && j != i ==>
      Fewer(links[j], links'[j]) && links'[j].urgent == links[j].urgent && links'[j].norm == links[j].norm
  }

  lemma BesideTwice(a: seq<Link>, b: seq<Link>, c: seq<Link>, i: nat)
    requires Beside(a, b, i) && Beside(b, c, i)
    ensures Beside(a, c, i)
  {
    forall j: nat | j < |a| && j != i ensures Fewer(a[j], c[j]) {
      assert Fewer(a[j], b[j]) && Fewer(b[j], c[j]);
    }
  }

  lemma CleanedBeside(links: seq<Link>, links': seq<Link>, m: Msg, lo: nat, hi: nat, i: nat)
    requires Cleaned(links, links', m, lo, hi)
    ensures Beside(links, links', i)
  {
    forall j: nat | j < |links| && j != i
      ensures Fewer(links[j], links'[j]) && links'[j].urgent == links[j].urgent && links'[j].norm == links[j].norm
    {
      ClearedFewer(links[j], m);
    }
  }

  lemma Restored(l: Link)
    requires Waiting(l) && First(l).penalty == 1
    ensures SetFirst(SetFirst(l, 0), 1) == l
  {
  }

  /** The first source keeps its turn when its message turns out to have expired. */
  lemma ExpiredDown(l: Link, m: Msg)
    requires Waiting(l)
    ensures Waiting(Cleared(l, m)) && Down(SetFirst(l, 1), SetFirst(Cleared(l, m), 1), NOBODY)
  {
    ClearedFewer(l, m);
    SameFairDown(SetFirst(l, 1), SetFirst(Cleared(l, m), 1));
  }

  /** The served source goes behind all others. */
  lemma DepartedDown(l: Link, n: nat, m: Msg, penalty: nat)
    requires LinkOk(l, n) && Waiting(l)
    ensures var l' := Cleared(Requeue(l, penalty), m);
            && Down(SetFirst(l, 1), l', First(l).src)
            && l'.norm != [] && l'.norm[|l'.norm| - 1] == Fair(First(l).src, penalty)
  {
    var q := Requeue(l, penalty);
    SetFirstOk(l, n, 1);
    ServedDown(SetFirst(l, 1), n, penalty);
    ClearedFewer(q, m);
    assert Requeue(SetFirst(l, 1), penalty) == q;
    DownAlso(SetFirst(l, 1), q, Cleared(q, m), First(l).src);
  }

  lemma DownAlso(l: Link, q: Link, r: Link, x: int)
    requires Down(l, q, x) && Fewer(q, r) && r.urgent == q.urgent && r.norm == q.norm
    ensures Down(l, r, x)
  {
    forall b: nat, c: nat ensures DownFor(l, r, x, b, c) {
      assert DownFor(l, q, x, b, c);
    }
  }

  /**
   * Looking for a message toward neighbour `i` has made nobody wait longer; the source of one that was
   * `found` still has its turn to pay for.
   */
  ghost predicate InTurn(links: seq<Link>, links': seq<Link>, i: nat, found: bool) {
    && i < |links| && Beside(links, links', i) && (found ==> Waiting(links'[i]))
    && Down(links[i], if found then SetFirst(links'[i], 1) else links'[i], NOBODY)
  }

  lemma InTurnTwice(a: seq<Link>, b: seq<Link>, c: seq<Link>, i: nat, found: bool)
    requires InTurn(a, b, i, false) && InTurn(b, c, i, found)
    ensures InTurn(a, c, i, found)
  {
    BesideTwice(a, b, c, i);
    DownTwice(a[i], b[i], if found then SetFirst(c[i], 1) else c[i], NOBODY);
  }

  // ----- The operations -----

  /** One neighbour settled by a clean-up. */
  method CleanNeighbour(links: seq<Link>, belly: map<Key, Entry>, n: nat, k: Key, i: nat, f: Flag)
      returns (links': seq<Link>, belly': map<Key, Entry>)
    requires SchedOk(links, belly, n) && k in belly && i < |belly[k].ns| && belly[k].ns[i] == Need && !Pending(f)
    ensures SchedOk(links', belly', n) && Steady(belly, belly') && CleanedOne(links, belly, links', belly', k, i, f)
  {
    ghost var links1, belly1 := CleanStep(links, belly, n, k, i, f);
    var l := UnlinkLink(links[i], n, belly[k].msg);
    links', belly' := links[i := l], belly[k := Settle(belly[k], i, f)];
    assert links' == links1 && belly' == belly1;
  }

  /** `Cleanup_prio_flood_ds` over the neighbours `lo` .. `hi` - 1. */
  method Cleanup(links0: seq<Link>, belly0: map<Key, Entry>, n: nat, lo: nat, hi: nat, k: Key, f: Flag)
      returns (links: seq<Link>, belly: map<Key, Entry>)
    requires SchedOk(links0, belly0, n) && k in belly0 && lo <= hi <= |links0| && !Pending(f)
    ensures SchedOk(links, belly, n) && Cleaning(links0, belly0, links, belly, k, lo, hi)
  {
    links, belly := links0, belly0;
    CleaningStart(links, belly, k, lo);
    var i := lo;
    while i < hi && belly[k].need > 0
      invariant lo <= i <= hi && SchedOk(links, belly, n) && k in belly && |links| == |links0|
      invariant Cleaning(links0, belly0, links, belly, k, lo, i)
    {
      NeedHasNs(links, belly, n, k);
      if belly[k].ns[i] == Need {
        var links1, belly1 := CleanNeighbour(links, belly, n, k, i, f);
        CleaningStep(links0, belly0, links, belly, links1, belly1, k, lo, i, f);
        links, belly := links1, belly1;
      } else {
        CleaningSkip(links0, belly0, links, belly, k, lo, i);
      }
      i := i + 1;
    }
    if i < hi {
      NeedHasNs(links, belly, n, k);
      CleaningEnd(links0, belly0, links, belly, k, lo, i, hi);
    }
  }

  /** The chosen message has expired: cleaned up everywhere, and its source gets the turn again. */
  method Expire(links: seq<Link>, belly: map<Key, Entry>, n: nat, i: nat, m: Msg,
                ghost links0: seq<Link>, ghost belly0: map<Key, Entry>, ghost t: nat)
      returns (links': seq<Link>, belly': map<Key, Entry>)
    requires SchedOk(links, belly, n) && i < |links| && Waiting(links[i]) && Heads(links, belly, n, i, m)
    requires m.expire <= t
    requires Served(links0, belly0, links, belly, i, t)
    ensures SchedOk(links', belly', n) && Served(links0, belly0, links', belly', i, t)
    ensures links'[i].total < links[i].total
    ensures Beside(links, links', i) && Down(SetFirst(links[i], 1), links'[i], NOBODY)
  {
    links', belly' := Cleanup(links, belly, n, 0, |links|, KeyOf(m), Expired);
    ExpiredCore(links0, belly0, links, belly, links', belly', n, i, m, t);
    CleanedBeside(links, links', m, 0, |links|, i);
    ExpiredDown(links[i], m);
    FirstSched(links', belly', n, i, 1);
    links' := links'[i := SetFirst(links'[i], 1)];
  }

  lemma FirstSched(links: seq<Link>, belly: map<Key, Entry>, n: nat, i: nat, penalty: nat)
    requires SchedOk(links, belly, n) && i < |links| && Waiting(links[i]) && penalty < PENALTIES
    ensures SchedOk(links[i := SetFirst(links[i], penalty)], belly, n)
    ensures SchedOk(links[i := Requeue(links[i], penalty)], belly, n)
  {
    assert LinkOk(links[i], n);
    SetFirstOk(links[i], n, penalty);
    RequeueOk(links[i], n, penalty);
    SameListsSched(links, belly, n, i, SetFirst(links[i], penalty));
    SameListsSched(links, belly, n, i, Requeue(links[i], penalty));
  }

  /** One look at the fair queues of neighbour `i`. */
  method TakeTurn(links: seq<Link>, belly: map<Key, Entry>, n: nat, i: nat,
                  ghost links0: seq<Link>, ghost belly0: map<Key, Entry>, ghost t: nat)
      returns (links': seq<Link>, ready: bool)
    requires SchedOk(links, belly, n) && i < |links| && Waiting(links[i]) && Served(links0, belly0, links, belly, i, t)
    ensures SchedOk(links', belly, n) && Served(links0, belly0, links', belly, i, t)
    ensures links'[i].total == links[i].total
    ensures ready ==> Waiting(links'[i]) && First(links'[i]).src < |links'[i].srcs|
    ensures ready ==> links'[i].srcs[First(links'[i]).src].count > 0
    ensures !ready ==> Closer(links'[i], links[i]) && Down(links[i], links'[i], NOBODY)
    ensures ready ==> SetFirst(links'[i], 1) == links[i]
    ensures links' == links[i := links'[i]]
  {
    assert LinkOk(links[i], n);
    var l;
    l, ready := NextSource(links[i], n);
    if ready {
      Restored(links[i]);
    } else {
      LookedDown(links[i], l, n);
    }
    FirstServed(links0, belly0, links, belly, i, t, l);
    SameListsSched(links, belly, n, i, l);
    links' := links[i := l];
  }

  /** The oldest message of the highest priority of the source whose turn it is. */
  method Choose(links: seq<Link>, ghost belly: map<Key, Entry>, ghost n: nat, i: nat) returns (m: Msg)
    requires SchedOk(links, belly, n) && i < |links| && Waiting(links[i])
    requires First(links[i]).src < |links[i].srcs| && links[i].srcs[First(links[i]).src].count > 0
    ensures Heads(links, belly, n, i, m) && m.src == First(links[i]).src
  {
    HeadExists(links, belly, n, i, First(links[i]).src);
    var q := links[i].srcs[First(links[i]).src];
    m := q.lists[q.maxPq][0];
  }

  /**
   * The loop of `Priority_Flood_Send_One`: turns are taken until a message is up or nothing is left.
   * `clock` gives the readings of the clock, `tick` counts them.
   */
  method FindNext(links0: seq<Link>, belly0: map<Key, Entry>, n: nat, i: nat, clock: nat -> nat, tick0: nat)
      returns (found: bool, m: Msg, links: seq<Link>, belly: map<Key, Entry>, tick: nat)
    requires SchedOk(links0, belly0, n) && i < |links0| && Monotone(clock)
    ensures tick0 <= tick && SchedOk(links, belly, n) && Served(links0, belly0, links, belly, i, clock(tick))
    ensures links[i].total <= links0[i].total && (Waiting(links0[i]) ==> tick0 < tick)
    ensures if found then Chosen(links0, links, belly, n, i, m, clock(tick))
            else AllExpired(links0[i], clock(tick)) && !Waiting(links[i])
    ensures InTurn(links0, links, i, found)
  {
    links, belly, tick, m := links0, belly0, tick0, Msg(0, 0, 0, 0, 0, 0, [], false);
    var now := clock(tick);
    ServedStart(links, belly, i, now);
    SameFairDown(links[i], links[i]);
    assert InTurn(links0, links, i, false);
    while Waiting(links[i])
      invariant tick0 <= tick && now == clock(tick) && SchedOk(links, belly, n)
      invariant Served(links0, belly0, links, belly, i, now)
      invariant InTurn(links0, links, i, false)
      invariant links[i].total <= links0[i].total && (tick == tick0 && Waiting(links0[i]) ==> Waiting(links[i]))
      decreases links[i].total, |links[i].urgent|, |links[i].norm|, Weight(links[i].norm)
    {
      var later := clock(tick + 1);
      ghost var before := links;
      found, m, links, belly := Round(links, belly, n, i, links0, belly0, now, later);
      InTurnTwice(links0, before, links, i, found);
      tick, now := tick + 1, later;
      if found {
        return;
      }
    }
    NothingLeft(links0, belly0, links, belly, n, i, now);
    found := false;
  }

  /** One turn of the loop, with the clock at `now` before and `later` after. */
  method Round(links: seq<Link>, belly: map<Key, Entry>, n: nat, i: nat,
               ghost links0: seq<Link>, ghost belly0: map<Key, Entry>, ghost now: nat, later: nat)
      returns (found: bool, m: Msg, links': seq<Link>, belly': map<Key, Entry>)
    requires SchedOk(links, belly, n) && i < |links| && Waiting(links[i])
    requires Served(links0, belly0, links, belly, i, now)
    requires LinksOk(links0, n) && now <= later
    ensures SchedOk(links', belly', n) && Served(links0, belly0, links', belly', i, later)
    ensures links'[i].total <= links[i].total
    ensures if found then Chosen(links0, links', belly', n, i, m, later)
            else links'[i].total < links[i].total || Closer(links'[i], links[i])
    ensures InTurn(links, links', i, found)
  {
    var ready;
    belly' := belly;
    links', ready := TakeTurn(links, belly, n, i, links0, belly0, now);
    ServedLater(links0, belly0, links', belly, i, now, later);
    if ready {
      found, m, links', belly' := Examine(links', belly, n, i, links0, belly0, later);
    } else {
      found, m := false, Msg(0, 0, 0, 0, 0, 0, [], false);
    }
  }

  /** The best message of the source whose turn it is; cleaned up if it has expired. */
  method Examine(links: seq<Link>, belly: map<Key, Entry>, n: nat, i: nat,
                 ghost links0: seq<Link>, ghost belly0: map<Key, Entry>, now: nat)
      returns (alive: bool, m: Msg, links': seq<Link>, belly': map<Key, Entry>)
    requires SchedOk(links, belly, n) && i < |links| && Waiting(links[i])
    requires Served(links0, belly0, links, belly, i, now)
    requires First(links[i]).src < |links[i].srcs| && links[i].srcs[First(links[i]).src].count > 0 && LinksOk(links0, n)
    ensures SchedOk(links', belly', n) && Served(links0, belly0, links', belly', i, now)
    ensures links'[i].total <= links[i].total
    ensures if alive then Chosen(links0, links', belly', n, i, m, now) else links'[i].total < links[i].total
    ensures Beside(links, links', i)
    ensures Down(SetFirst(links[i], 1), if alive then SetFirst(links'[i], 1) else links'[i], NOBODY)
  {
    m := Choose(links, belly, n, i);
    alive, links', belly' := m.expire > now, links, belly;
    if alive {
      Alive(links0, belly0, links, belly, n, i, m, now);
      SameFairDown(SetFirst(links[i], 1), SetFirst(links[i], 1));
    } else {
      links', belly' := Expire(links, belly, n, i, m, links0, belly0, now);
    }
  }

  lemma ServedLater(links0: seq<Link>, belly0: map<Key, Entry>, links: seq<Link>, belly: map<Key, Entry>, i: nat,
                    t: nat, t': nat)
    requires Served(links0, belly0, links, belly, i, t) && t <= t'
    ensures Served(links0, belly0, links, belly, i, t')
  {
    PrunedSame(links0[i], links[i], links[i], t, t');
  }

  /** The chosen message goes to the link: its source goes behind the others with a new penalty. */
  method Depart(links: seq<Link>, belly: map<Key, Entry>, n: nat, i: nat, m: Msg)
      returns (links': seq<Link>, belly': map<Key, Entry>)
    requires SchedOk(links, belly, n) && i < |links| && Waiting(links[i]) && Heads(links, belly, n, i, m)
    requires First(links[i]).src == m.src
    ensures SchedOk(links', belly', n) && |links'| == |links| && Steady(belly, belly')
    ensures links'[i].total < links[i].total
    ensures Beside(links, links', i) && Down(SetFirst(links[i], 1), links'[i], m.src) && LastInLine(links'[i], m)
    ensures !Has(belly', m, i, Need) && !Has(belly', m, i, Unset)
  {
    RequeueHeads(links, belly, n, i, m, m.packets);
    FirstSched(links, belly, n, i, m.packets);
    ghost var links1 := links[i := Requeue(links[i], m.packets)];
    links', belly' := Cleanup(links[i := Requeue(links[i], m.packets)], belly, n, i, i + 1, KeyOf(m), OnLink);
    TransmitSteady(links1, belly, links', belly', n, i, m);
    DepartFair(links, links', n, i, m);
  }

  lemma DepartFair(links: seq<Link>, links': seq<Link>, n: nat, i: nat, m: Msg)
    requires i < |links| && LinkOk(links[i], n) && Waiting(links[i]) && First(links[i]).src == m.src
    requires Cleaned(links[i := Requeue(links[i], m.packets)], links', m, i, i + 1)
    ensures Beside(links, links', i) && Down(SetFirst(links[i], 1), links'[i], m.src) && LastInLine(links'[i], m)
  {
    DepartedDown(links[i], n, m, m.packets);
    CleanedBeside(links[i := Requeue(links[i], m.packets)], links', m, i, i + 1, i);
  }

  /** The source of `m` is behind all others and owes as many turns as `m` has packets. */
  predicate LastInLine(l: Link, m: Msg) { l.norm != [] && l.norm[|l.norm| - 1] == Fair(m.src, m.packets) }

  /** It is still the turn of the source of `m`. */
  predicate KeepsTurn(l: Link, m: Msg) { Waiting(l) && First(l) == Fair(m.src, 1) }
}

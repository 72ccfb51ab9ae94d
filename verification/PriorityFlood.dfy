/**
 * Priority flooding (daemon/priority_flood.c): accepting messages, sending to the neighbours,
 * dropping from the largest source and collecting expired messages.
 */
module PriorityFlood {
  import opened PriorityQueues
  import opened PriorityLinks
  import opened PrioritySched
  import opened PriorityFair
  import opened PriorityServing
  import opened PriorityTurns

  /** The configuration, and what the surroundings answer to the k-th call. */
  datatype Env = Env(
    n: nat,                  // nodes
    nbrs: seq<nat>,          // the neighbours' ids
    my: nat,
    maxStored: nat,
    clock: nat -> nat,
    forward: nat -> bool,    // `Forward_Data` takes the message
    patience: nat -> nat)    // how often `Request_Resources` answers 1 before it answers 0

  datatype State = State(links: seq<Link>, belly: map<Key, Entry>, log: Log, tick: nat, calls: nat, requests: nat)

  function Now(s: State, v: Env): nat { v.clock(s.tick) }

  /** The queues and the messages sent. */
  function Book(s: State): Snapshot { Snapshot(s.links, s.log.sent) }

  ghost predicate CoreOk(s: State, v: Env) {
    && Monotone(v.clock) && |s.links| == |v.nbrs|
    && SchedOk(s.links, s.belly, v.n) && LogOk(s.belly, s.log, v.nbrs, Now(s, v))
  }

  /** Messages are only settled and sent from `s` to `s'`. */
  ghost predicate Onward(s: State, s': State) {
    && |s'.links| == |s.links| && s.tick <= s'.tick && Steady(s.belly, s'.belly)
    && s'.log.accepted == s.log.accepted && s'.log.heard == s.log.heard && s.log.sent <= s'.log.sent
  }

  lemma OnwardTwice(a: State, b: State, c: State)
    requires Onward(a, b) && Onward(b, c)
    ensures Onward(a, c)
  {
    SteadyTwice(a.belly, b.belly, c.belly);
  }

  // ----- Sending -----

  datatype Outcome = Sent(m: Msg) | Idle | Refused(m: Msg)

  /**
   * What a call of `SendOne` for neighbour `i` guarantees. Nobody is overtaken out of turn, the source
   * served goes behind all others, and a source whose message is refused keeps its turn.
   */
  ghost predicate Ended(s: State, s': State, v: Env, i: nat, r: Outcome) {
    && i < |s.links| && Onward(s, s') && (Waiting(s.links[i]) ==> s.tick < s'.tick)
    && ServesOnly(Book(s), Book(s'), i)
    && match r
       case Idle => s'.log == s.log && AllExpired(s.links[i], Now(s', v)) && !Waiting(s'.links[i])
       case Refused(m) =>
         && s'.log == s.log && Oldest(s.links[i], m, Now(s', v)) && !v.forward(s'.calls)
         && KeepsTurn(s'.links[i], m) && Pruned(s.links[i], s'.links[i], Now(s', v))
       case Sent(m) =>
         && Oldest(s.links[i], m, Now(s', v)) && s'.log == s.log.(sent := s.log.sent + [Pass(i, m)])
         && Pass(i, m) !in s.log.sent && Pass(i, m) !in s.log.heard && s'.links[i].total < s.links[i].total
         && v.forward(s'.calls) && LastInLine(s'.links[i], m)
  }

  lemma FoundCore(s: State, v: Env, links: seq<Link>, belly: map<Key, Entry>, tick: nat)
    requires CoreOk(s, v) && SchedOk(links, belly, v.n) && |links| == |s.links| && Steady(s.belly, belly)
    requires s.tick <= tick
    ensures CoreOk(s.(links := links, belly := belly, tick := tick), v)
    ensures Onward(s, s.(links := links, belly := belly, tick := tick))
  {
    LaterLog(s.belly, s.log, v.nbrs, Now(s, v), v.clock(tick));
    LesserLog(s.belly, belly, s.log, v.nbrs, v.clock(tick));
  }

  lemma DepartCore(s: State, v: Env, i: nat, m: Msg, links: seq<Link>, belly: map<Key, Entry>)
    requires CoreOk(s, v) && SchedOk(links, belly, v.n) && |links| == |s.links| && Steady(s.belly, belly)
    requires Has(s.belly, m, i, Need) && !Has(belly, m, i, Need) && !Has(belly, m, i, Unset)
    ensures Pass(i, m) !in s.log.sent && Pass(i, m) !in s.log.heard
    ensures var s' := s.(links := links, belly := belly, log := s.log.(sent := s.log.sent + [Pass(i, m)]));
            CoreOk(s', v) && Onward(s, s')
  {
    SentLog(s.belly, belly, s.log, v.nbrs, Now(s, v), m, i);
  }

  /** The chosen message is handed to the lower layer. */
  method Hand(s: State, v: Env, i: nat, m: Msg) returns (s': State, taken: bool)
    requires CoreOk(s, v) && i < |s.links| && Waiting(s.links[i]) && Heads(s.links, s.belly, v.n, i, m)
    requires First(s.links[i]).src == m.src
    ensures CoreOk(s', v) && Onward(s, s') && s'.tick == s.tick && taken == v.forward(s'.calls)
    ensures Beside(s.links, s'.links, i)
    ensures Down(SetFirst(s.links[i], 1), s'.links[i], if taken then m.src else NOBODY)
    ensures if taken then LastInLine(s'.links[i], m) else KeepsTurn(s'.links[i], m)
    ensures !taken ==> s'.log == s.log && SameLists(s.links[i], s'.links[i])
    ensures taken ==> s'.log == s.log.(sent := s.log.sent + [Pass(i, m)])
    ensures taken ==> Pass(i, m) !in s.log.sent && Pass(i, m) !in s.log.heard
    ensures taken ==> s'.links[i].total < s.links[i].total
  {
    taken := v.forward(s.calls + 1);
    if taken {
      var links, belly := Depart(s.links, s.belly, v.n, i, m);
      DepartCore(s, v, i, m, links, belly);
      s' := s.(links := links, belly := belly, log := s.log.(sent := s.log.sent + [Pass(i, m)]), calls := s.calls + 1);
    } else {
      FirstSched(s.links, s.belly, v.n, i, 1);
      SameFairDown(SetFirst(s.links[i], 1), SetFirst(s.links[i], 1));
      s' := s.(links := s.links[i := SetFirst(s.links[i], 1)], calls := s.calls + 1);
    }
  }

  /** Finding the message and handing it on, as far as turns go. */
  lemma TurnTaken(s: State, s1: State, s': State, i: nat, m: Msg, taken: bool)
    requires i < |s.links| && Beside(s.links, s1.links, i) && Beside(s1.links, s'.links, i) && Waiting(s1.links[i])
    requires Down(s.links[i], SetFirst(s1.links[i], 1), NOBODY)
    requires Down(SetFirst(s1.links[i], 1), s'.links[i], if taken then m.src else NOBODY)
    requires s'.log.sent == if taken then s.log.sent + [Pass(i, m)] else s.log.sent
    ensures ServesOnly(Book(s), Book(s'), i)
  {
    BesideTwice(s.links, s1.links, s'.links, i);
    DownTwice(s.links[i], SetFirst(s1.links[i], 1), s'.links[i], if taken then m.src else NOBODY);
    if taken {
      ServesOne(Book(s), Book(s'), i, m);
    } else {
      ServesNone(Book(s), Book(s'), i);
    }
  }

  /**
   * `Priority_Flood_Send_One`: sends one message to neighbour `i` unless the link refuses it or
   * nothing is left. Expired messages are cleaned up on the way.
   */
  method SendOneFrom(s: State, v: Env, i: nat) returns (s': State, r: Outcome)
    requires CoreOk(s, v) && i < |s.links|
    ensures CoreOk(s', v) && Ended(s, s', v, i, r)
  {
    var found, m, links, belly, tick := FindNext(s.links, s.belly, v.n, i, v.clock, s.tick);
    FoundCore(s, v, links, belly, tick);
    var s1 := s.(links := links, belly := belly, tick := tick);
    if found {
      var taken;
      s', taken := Hand(s1, v, i, m);
      OnwardTwice(s, s1, s');
      r := if taken then Sent(m) else Refused(m);
      TurnTaken(s, s1, s', i, m, taken);
      if !taken {
        PrunedSame(s.links[i], links[i], s'.links[i], Now(s1, v), Now(s', v));
      }
    } else {
      s', r := s1, Idle;
      ServesNone(Book(s), Book(s'), i);
    }
  }

  // ----- Sending as long as it is granted -----

  /** Everything queued has expired by `t`. */
  ghost predicate AllGone(l: Link, t: nat) { forall m :: Holds(l, m) ==> m.expire <= t }

  /** Some reading of the clock up to the `n`-th finds everything queued for neighbour `i` expired. */
  ghost predicate Expires(s: State, v: Env, i: nat, n: nat) {
    i < |s.links| && exists k: nat :: k <= n && AllGone(s.links[i], v.clock(k))
  }

  /** The link takes nothing. */
  ghost predicate Refuses(v: Env) { forall k: nat :: !v.forward(k) }

  lemma {:induction false} AliveIn(ms: seq<Msg>, m: Msg, t: nat)
    requires FirstAlive(ms, m, t)
    ensures m in ms && m.expire > t
  {
    if ms[0].expire <= t {
      AliveIn(ms[1..], m, t);
    }
  }

  lemma OldestIsHeld(l: Link, m: Msg, t: nat)
    requires Oldest(l, m, t)
    ensures Holds(l, m) && m.expire > t
  {
    AliveIn(l.srcs[m.src].lists[m.priority], m, t);
  }

  lemma HeldWaits(l: Link, n: nat, m: Msg)
    requires LinkOk(l, n) && Holds(l, m)
    ensures Waiting(l)
  {
    CountCovers(l.srcs[m.src], m.src, m);
    assert Times(l.urgent, m.src) + Times(l.norm, m.src) == 1;
  }

  lemma ExpiredIsGone(l: Link, t: nat)
    requires AllExpired(l, t)
    ensures AllGone(l, t)
  {
    forall m | Holds(l, m) ensures m.expire <= t {
      assert AllDead(l.srcs[m.src].lists[m.priority], t);
    }
  }

  lemma {:induction false} StillThere(a: seq<Msg>, b: seq<Msg>, t: nat, m: Msg)
    requires Trimmed(a, b, t) && m in a && m.expire > t
    ensures m in b
  {
    var k :| 0 <= k < |a| && a[k] == m;
    assert b[k - (|a| - |b|)] == m;
  }

  lemma PrunedHolds(a: Link, b: Link, t: nat, m: Msg)
    requires Pruned(a, b, t) && Holds(a, m) && m.expire > t
    ensures Holds(b, m)
  {
    assert TrimmedAt(a, b, t, m.src, m.priority);
    StillThere(a.srcs[m.src].lists[m.priority], b.srcs[m.src].lists[m.priority], t, m);
  }

  /** Nothing joins a queue from `s` to `s'`. */
  lemma OnwardHolds(s: State, s': State, v: Env, i: nat, m: Msg)
    requires CoreOk(s, v) && CoreOk(s', v) && Onward(s, s') && i < |s.links| && Holds(s'.links[i], m)
    ensures Holds(s.links[i], m)
  {
    assert Has(s'.belly, m, i, Need) && Has(s.belly, m, i, Need);
  }

  /** After an answer: a queue still waiting has an unexpired message. */
  lemma AnswerEnds(s: State, s': State, s1: State, v: Env, i: nat, r: Outcome)
    requires CoreOk(s, v) && CoreOk(s', v) && Onward(s, s') && Ended(s', s1, v, i, r) && i < |s.links|
    ensures AllGone(s.links[i], Now(s1, v)) ==> !Waiting(s1.links[i])
  {
    if !r.Idle? {
      OldestIsHeld(s'.links[i], r.m, Now(s1, v));
      OnwardHolds(s, s', v, i, r.m);
    }
  }

  /** What a refusing link keeps: every message that has not expired. */
  ghost predicate Kept(s: State, s': State, v: Env, i: nat) {
    i < |s.links| == |s'.links| &&
    forall m :: Holds(s.links[i], m) && m.expire > Now(s', v) ==> Holds(s'.links[i], m)
  }

  lemma AnswerKeeps(s: State, s': State, s1: State, v: Env, i: nat, r: Outcome)
    requires Refuses(v) && Monotone(v.clock) && Kept(s, s', v, i) && Ended(s', s1, v, i, r)
    ensures Kept(s, s1, v, i)
  {
    forall m | Holds(s.links[i], m) && m.expire > Now(s1, v) ensures Holds(s1.links[i], m) {
      assert v.clock(s'.tick) <= v.clock(s1.tick);
      assert Holds(s'.links[i], m);
      if r.Idle? {
        ExpiredIsGone(s'.links[i], Now(s1, v));
      } else {
        PrunedHolds(s'.links[i], s1.links[i], Now(s1, v), m);
      }
    }
  }

  lemma KeptWaits(s: State, s': State, v: Env, i: nat)
    requires CoreOk(s', v) && Kept(s, s', v, i) && !AllGone(s.links[i], Now(s', v))
    ensures Waiting(s'.links[i])
  {
    var m :| Holds(s.links[i], m) && m.expire > Now(s', v);
    assert LinkOk(s'.links[i], v.n);
    HeldWaits(s'.links[i], v.n, m);
  }

  /**
   * The loop that sends to neighbour `i` while something waits and `Request_Resources` answers 1,
   * whether or not the link took the message, for `answers` such answers. Each answer reads the
   * clock, so the loop is over once everything queued has expired; on a link that takes nothing it
   * is over exactly then.
   */
  method SendAnswered(s: State, v: Env, i: nat, answers: nat) returns (s': State)
    requires CoreOk(s, v) && i < |s.links|
    ensures CoreOk(s', v) && Onward(s, s') && (answers == 0 ==> s' == s) && ServesOnly(Book(s), Book(s'), i)
    ensures Waiting(s'.links[i]) ==> s.tick + answers <= s'.tick
    ensures answers > 0 && Refuses(v) ==> (Waiting(s'.links[i]) <==> !AllGone(s.links[i], Now(s', v)))
    ensures answers > 0 && Expires(s, v, i, s.tick + answers) ==> !Waiting(s'.links[i])
    ensures Refuses(v) && (forall n: nat :: !Expires(s, v, i, n)) ==> Waiting(s'.links[i])
    ensures (forall k: nat :: v.forward(k)) && answers > s.links[i].total ==> !Waiting(s'.links[i])
  {
    var left := answers;
    s' := s;
    ServesSame(Book(s), i);
    while left > 0 && Waiting(s'.links[i])
      invariant 0 <= left <= answers && CoreOk(s', v) && Onward(s, s') && (left == answers ==> s' == s)
      invariant (!Waiting(s.links[i]) ==> s' == s) && ServesOnly(Book(s), Book(s'), i)
      invariant s.tick + (answers - left) <= s'.tick && (Refuses(v) ==> Kept(s, s', v, i))
      invariant left < answers && AllGone(s.links[i], Now(s', v)) ==> !Waiting(s'.links[i])
      invariant (forall k: nat :: v.forward(k)) && answers > s.links[i].total ==>
                  left > s'.links[i].total || !Waiting(s'.links[i])
    {
      var s1, r := SendOneFrom(s', v, i);
      OnwardTwice(s, s', s1);
      ServesTwice(Book(s), Book(s'), Book(s1), i);
      AnswerEnds(s, s', s1, v, i, r);
      if Refuses(v) {
        AnswerKeeps(s, s', s1, v, i, r);
      }
      s', left := s1, left - 1;
    }
    EndsInTime(s, s', v, i, answers);
  }

  lemma EndsInTime(s: State, s': State, v: Env, i: nat, answers: nat)
    requires CoreOk(s, v) && CoreOk(s', v) && Onward(s, s') && i < |s.links|
    requires Waiting(s'.links[i]) ==> s.tick + answers <= s'.tick
    requires answers > 0 && AllGone(s.links[i], Now(s', v)) && Waiting(s.links[i]) ==> !Waiting(s'.links[i])
    requires !Waiting(s.links[i]) ==> s' == s
    requires Refuses(v) ==> Kept(s, s', v, i)
    ensures answers > 0 && Refuses(v) ==> (Waiting(s'.links[i]) <==> !AllGone(s.links[i], Now(s', v)))
    ensures answers > 0 && Expires(s, v, i, s.tick + answers) ==> !Waiting(s'.links[i])
    ensures Refuses(v) && (forall n: nat :: !Expires(s, v, i, n)) ==> Waiting(s'.links[i])
  {
    if Refuses(v) && !AllGone(s.links[i], Now(s', v)) {
      KeptWaits(s, s', v, i);
    }
    if Expires(s, v, i, s.tick + answers) && Waiting(s'.links[i]) {
      var k: nat :| k <= s.tick + answers && AllGone(s.links[i], v.clock(k));
      assert v.clock(k) <= Now(s', v);
      assert AllGone(s.links[i], Now(s', v));
    }
    if AllGone(s.links[i], Now(s', v)) {
      assert Expires(s, v, i, s'.tick);
    }
  }

  /** The loop as it is called for a new message. */
  method SendGranted(s: State, v: Env, i: nat) returns (s': State)
    requires CoreOk(s, v) && i < |s.links|
    ensures CoreOk(s', v) && Onward(s, s') && ServesOnly(Book(s), Book(s'), i)
    ensures v.patience(s.requests) == 0 ==> s' == s.(requests := s.requests + 1)
    ensures var n := s.tick + v.patience(s.requests);
            v.patience(s.requests) > 0 && Expires(s, v, i, n) ==> !Waiting(s'.links[i])
  {
    s' := SendAnswered(s.(requests := s.requests + 1), v, i, v.patience(s.requests));
  }

  // ----- A clock that runs on -----

  function Latest(ms: seq<Msg>): nat {
    if ms == [] then 0
    else
      var rest := Latest(ms[..|ms| - 1]);
      if ms[|ms| - 1].expire > rest then ms[|ms| - 1].expire else rest
  }

  function LatestOf(lists: seq<seq<Msg>>): nat {
    if lists == [] then 0
    else
      var rest, last := LatestOf(lists[..|lists| - 1]), Latest(lists[|lists| - 1]);
      if last > rest then last else rest
  }

  function LatestAll(srcs: seq<SourceQueue>): nat {
    if srcs == [] then 0
    else
      var rest, last := LatestAll(srcs[..|srcs| - 1]), LatestOf(srcs[|srcs| - 1].lists);
      if last > rest then last else rest
  }

  lemma {:induction false} LatestBounds(ms: seq<Msg>, m: Msg)
    requires m in ms
    ensures m.expire <= Latest(ms)
  {
    if m != ms[|ms| - 1] {
      LatestBounds(ms[..|ms| - 1], m);
    }
  }

  lemma {:induction false} LatestOfBounds(lists: seq<seq<Msg>>, p: nat, m: Msg)
    requires p < |lists| && m in lists[p]
    ensures m.expire <= LatestOf(lists)
  {
    if p == |lists| - 1 {
      LatestBounds(lists[p], m);
    } else {
      LatestOfBounds(lists[..|lists| - 1], p, m);
    }
  }

  lemma {:induction false} LatestAllBounds(srcs: seq<SourceQueue>, s: nat, m: Msg)
    requires s < |srcs| && In(srcs[s], m)
    ensures m.expire <= LatestAll(srcs)
  {
    if s == |srcs| - 1 {
      LatestOfBounds(srcs[s].lists, m.priority, m);
    } else {
      LatestAllBounds(srcs[..|srcs| - 1], s, m);
    }
  }

  ghost predicate Passes(v: Env, t: nat) { exists k: nat :: v.clock(k) >= t }

  /** With a clock that passes every time, enough answers end the loop, whatever the link does. */
  lemma RunningClockExpires(s: State, v: Env, i: nat) returns (n: nat)
    requires i < |s.links| && forall t: nat :: Passes(v, t)
    ensures Expires(s, v, i, n)
  {
    assert Passes(v, LatestAll(s.links[i].srcs));
    n :| v.clock(n) >= LatestAll(s.links[i].srcs);
    forall m | Holds(s.links[i], m) ensures m.expire <= v.clock(n) {
      LatestAllBounds(s.links[i].srcs, m.src, m);
    }
    assert AllGone(s.links[i], v.clock(n));
  }

  // ----- Dropping from the largest source -----

  lemma {:induction false} TotalZero(srcs: seq<SourceQueue>)
    requires forall k :: 0 <= k < |srcs| ==> srcs[k].count == 0
    ensures Total(srcs) == 0
  {
    if srcs != [] {
      TotalZero(srcs[..|srcs| - 1]);
    }
  }

  /** `h` has the most packets queued. */
  predicate Hog(l: Link, h: nat) {
    h < |l.srcs| && l.srcs[h].count > 0 && forall k :: 0 <= k < |l.srcs| ==> l.srcs[k].count <= l.srcs[h].count
  }

  method FindHog(l: Link, ghost n: nat) returns (hog: nat)
    requires LinkOk(l, n) && l.total > 0
    ensures Hog(l, hog)
  {
    hog := 0;
    var usage := 0;
    for k := 0 to |l.srcs|
      invariant (usage == 0 && forall j :: 0 <= j < k ==> l.srcs[j].count == 0) ||
                (hog < k && usage == l.srcs[hog].count > 0 && forall j :: 0 <= j < k ==> l.srcs[j].count <= usage)
    {
      if l.srcs[k].count > 0 && l.srcs[k].count > usage {
        hog, usage := k, l.srcs[k].count;
      }
    }
    if usage == 0 {
      TotalZero(l.srcs);
    }
  }

  lemma LastExists(links: seq<Link>, belly: map<Key, Entry>, n: nat, i: nat, h: nat)
    requires SchedOk(links, belly, n) && i < |links| && h < |links[i].srcs| && links[i].srcs[h].count > 0
    ensures var q := links[i].srcs[h];
            1 <= q.minPq < |q.lists| && q.lists[q.minPq] != [] && Departs(links, belly, n, i, q.lists[q.minPq][0])
  {
    var l := links[i];
    assert LinkOk(l, n) && QueueOk(l.srcs[h], h);
    CountZero(l.srcs[h], h);
    var q := l.srcs[h];
    var m := q.lists[q.minPq][0];
    assert m in q.lists[q.minPq];
    assert Holds(l, m) && Has(belly, m, i, Need);
    CountsCover(l, n, m);
  }

  /** Neighbour `i` has lost the oldest message of the lowest priority of its largest source. */
  ghost predicate DroppedFromHog(l: Link, l': Link, h: nat) {
    && Hog(l, h) && l.srcs[h].minPq < |l.srcs[h].lists| && l.srcs[h].lists[l.srcs[h].minPq] != []
    && l' == Cleared(l, l.srcs[h].lists[l.srcs[h].minPq][0]) && l'.total < l.total
  }

  method DropFromHog(s: State, v: Env, i: nat) returns (s': State, h: nat)
    requires CoreOk(s, v) && i < |s.links| && s.links[i].total > 0
    ensures CoreOk(s', v) && Onward(s, s') && DroppedFromHog(s.links[i], s'.links[i], h)
    ensures forall j :: 0 <= j < |s.links| && j != i ==> s'.links[j] == s.links[j]
    ensures ServesOnly(Book(s), Book(s'), i)
  {
    assert LinkOk(s.links[i], v.n);
    h := FindHog(s.links[i], v.n);
    LastExists(s.links, s.belly, v.n, i, h);
    var q := s.links[i].srcs[h];
    var m := q.lists[q.minPq][0];
    var links, belly := Cleanup(s.links, s.belly, v.n, i, i + 1, KeyOf(m), Dropped);
    TransmitSteady(s.links, s.belly, links, belly, v.n, i, m);
    FoundCore(s, v, links, belly, s.tick);
    s' := s.(links := links, belly := belly);
    ThinnedServes(s, s', i, m);
  }

  lemma ThinnedServes(s: State, s': State, i: nat, m: Msg)
    requires i < |s.links| && Cleaned(s.links, s'.links, m, i, i + 1) && s'.log.sent == s.log.sent
    ensures ServesOnly(Book(s), Book(s'), i)
  {
    CleanedBeside(s.links, s'.links, m, i, i + 1, i);
    ClearedFewer(s.links[i], m);
    SameFairDown(s.links[i], s'.links[i]);
    ServesNone(Book(s), Book(s'), i);
  }

  // ----- Accepting a message -----

  /** Message `m` is known and has been dealt with for the neighbours before `i`. */
  ghost predicate Admitting(s: State, v: Env, m: Msg, hop: nat, i: nat) {
    && CoreOk(s, v) && Known(s.belly, m) && m in s.log.accepted && s.log.accepted[m] == hop
    && (forall x, j: nat :: Has(s.belly, x, j, Unset) <==> x == m && i <= j < |s.links|)
  }

  lemma AdmitOnward(s: State, s': State, v: Env, m: Msg, hop: nat, i: nat)
    requires Admitting(s, v, m, hop, i) && CoreOk(s', v) && Onward(s, s')
    ensures Admitting(s', v, m, hop, i)
  {
  }

  lemma AdmitStart(s: State, v: Env, m: Msg, hop: nat) returns (s': State)
    requires CoreOk(s, v) && AllSet(s.belly) && KeyOf(m) !in s.belly && m.expire > Now(s, v) && Proper(m, v.n)
    ensures m !in s.log.accepted
    ensures s' == s.(belly := s.belly[KeyOf(m) := Entry(m, |s.links|, seq(|s.links|, _ => Unset))],
                     log := s.log.(accepted := s.log.accepted[m := hop]))
    ensures Admitting(s', v, m, hop, 0)
  {
    InsertOk(s.links, s.belly, v.n, m);
    AcceptLog(s.belly, s.log, v.nbrs, Now(s, v), m, hop);
    s' := s.(belly := s.belly[KeyOf(m) := Entry(m, |s.links|, seq(|s.links|, _ => Unset))],
             log := s.log.(accepted := s.log.accepted[m := hop]));
    forall x, j: nat ensures Has(s'.belly, x, j, Unset) <==> x == m && j < |s'.links| {
      assert !Has(s.belly, x, j, Unset);
    }
  }

  /** Neighbour `i` does not need the message. */
  lemma AdmitSettled(s: State, v: Env, m: Msg, hop: nat, i: nat, f: Flag)
    requires Admitting(s, v, m, hop, i) && i < |s.links| && !Pending(f)
    ensures Has(s.belly, m, i, Unset) && s.belly[KeyOf(m)].need > 0
    ensures Admitting(s.(belly := s.belly[KeyOf(m) := Settle(s.belly[KeyOf(m)], i, f)]), v, m, hop, i + 1)
  {
    var k := KeyOf(m);
    assert Has(s.belly, m, i, Unset);
    SettleUnset(s.links, s.belly, v.n, k, i, f);
    SettleHas(s.belly, |s.links|, v.n, k, i, f);
    SettleLessens(s.belly, |s.links|, v.n, k, i, f);
    var belly' := s.belly[k := Settle(s.belly[k], i, f)];
    LesserLog(s.belly, belly', s.log, v.nbrs, Now(s, v));
    forall x, j: nat ensures Has(belly', x, j, Unset) <==> x == m && i + 1 <= j < |s.links| {
      assert Has(s.belly, x, j, Unset) <==> x == m && i <= j < |s.links|;
    }
  }

  /** The message in the queue of neighbour `i`. */
  function Queued(s: State, m: Msg, i: nat): State {
    if i < |s.links| && Has(s.belly, m, i, Unset) && m.src < |s.links[i].srcs| &&
       m.priority < |s.links[i].srcs[m.src].lists|
    then
      var e := s.belly[KeyOf(m)];
      s.(links := s.links[i := PutLink(s.links[i], m)], belly := s.belly[KeyOf(m) := e.(ns := e.ns[i := Need])])
    else s
  }

  /** Neighbour `i` needs it. */
  lemma AdmitQueued(s: State, v: Env, m: Msg, hop: nat, i: nat)
    requires Admitting(s, v, m, hop, i) && i < |s.links| && Eligible(m, i, hop, v.nbrs)
    ensures Has(s.belly, m, i, Unset) && m.src < |s.links[i].srcs| && m.priority < |s.links[i].srcs[m.src].lists|
    ensures Admitting(Queued(s, m, i), v, m, hop, i + 1)
  {
    var k := KeyOf(m);
    var e := s.belly[k];
    assert Has(s.belly, m, i, Unset);
    QueueUnset(s.links, s.belly, v.n, k, i);
    NeedLog(s.belly, s.log, |s.links|, v.n, v.nbrs, Now(s, v), k, i);
    var belly' := s.belly[k := e.(ns := e.ns[i := Need])];
    forall x, j: nat ensures Has(belly', x, j, Unset) <==> x == m && i + 1 <= j < |s.links| {
      assert Has(s.belly, x, j, Unset) <==> x == m && i <= j < |s.links|;
      assert KeyOf(x) != k ==> (Has(belly', x, j, Unset) <==> Has(s.belly, x, j, Unset));
    }
  }

  /** A message queued for neighbour `i`; sending is tried, and the largest source pays for an overflow. */
  method QueueFor(s: State, v: Env, m: Msg, hop: nat, i: nat) returns (s': State, dropped: bool)
    requires Admitting(s, v, m, hop, i) && i < |s.links| && Eligible(m, i, hop, v.nbrs) && Statuses(s, v, m, hop, i)
    ensures Admitting(s', v, m, hop, i + 1) && |s'.links| == |s.links| && s.log.sent <= s'.log.sent
    ensures Statuses(s', v, m, hop, i + 1)
    ensures s'.log.accepted == s.log.accepted && s'.log.heard == s.log.heard && s.tick <= s'.tick
    ensures Ungranted(Queued(s, m, i), s', v, i) && Queues(Book(s), Book(s'), i)
  {
    var s1 := Queued(s, m, i);
    QueuedReady(s, v, m, hop, i);
    s', dropped := SendOrDrop(s1, v, i);
    QueuedOn(s, s1, s', v, m, hop, i);
  }

  lemma QueuedReady(s: State, v: Env, m: Msg, hop: nat, i: nat)
    requires Admitting(s, v, m, hop, i) && i < |s.links| && Eligible(m, i, hop, v.nbrs) && Statuses(s, v, m, hop, i)
    ensures var s1 := Queued(s, m, i);
            && Admitting(s1, v, m, hop, i + 1) && Statuses(s1, v, m, hop, i + 1) && |s1.links| == |s.links|
            && s1.log == s.log && s1.tick == s.tick && s1.requests == s.requests
            && s1.links[i].total == s.links[i].total + m.packets
  {
    AdmitQueued(s, v, m, hop, i);
    QueuedStatuses(s, v, m, hop, i);
  }

  lemma QueuedOn(s: State, s1: State, s': State, v: Env, m: Msg, hop: nat, i: nat)
    requires Admitting(s, v, m, hop, i) && i < |s.links| && Eligible(m, i, hop, v.nbrs) && s1 == Queued(s, m, i)
    requires Admitting(s1, v, m, hop, i + 1) && Statuses(s1, v, m, hop, i + 1)
    requires CoreOk(s', v) && Onward(s1, s') && ServesOnly(Book(s1), Book(s'), i)
    ensures Admitting(s', v, m, hop, i + 1) && Statuses(s', v, m, hop, i + 1) && Queues(Book(s), Book(s'), i)
  {
    AdmitQueued(s, v, m, hop, i);
    assert LinkOk(s.links[i], v.n);
    QueuedInTurn(s, s1, s', v, m, i);
    AdmitOnward(s1, s', v, m, hop, i + 1);
    SteadyStatuses(s1, s', v, m, hop, i + 1);
  }

  lemma QueuedInTurn(s: State, s1: State, s': State, v: Env, m: Msg, i: nat)
    requires i < |s.links| && LinkOk(s.links[i], v.n) && Proper(m, v.n) && s1 == Queued(s, m, i)
    requires Has(s.belly, m, i, Unset) && m.src < |s.links[i].srcs| && m.priority < |s.links[i].srcs[m.src].lists|
    requires ServesOnly(Book(s1), Book(s'), i)
    ensures Queues(Book(s), Book(s'), i)
  {
    PutEasy(s.links[i], v.n, m);
    EasyThen(Book(s), Book(s1), Book(s'), i);
  }

  /** Some message has been dropped from a largest source. */
  ghost predicate Overflowed(l: Link, l': Link) { exists h :: DroppedFromHog(l, l', h) }

  /** With nothing granted, `s` is left as it is, unless more than the limit is queued for neighbour `i`. */
  ghost predicate Ungranted(s: State, s': State, v: Env, i: nat) {
    i < |s.links| && i < |s'.links| && v.patience(s.requests) == 0 ==>
      if s.links[i].total <= v.maxStored then s' == s.(requests := s.requests + 1)
      else Overflowed(s.links[i], s'.links[i])
  }

  /** Sending is tried, and the largest source pays for an overflow. */
  method SendOrDrop(s: State, v: Env, i: nat) returns (s': State, dropped: bool)
    requires CoreOk(s, v) && i < |s.links|
    ensures CoreOk(s', v) && Onward(s, s') && ServesOnly(Book(s), Book(s'), i)
    ensures Ungranted(s, s', v, i) && (!dropped ==> s'.links[i].total <= v.maxStored)
  {
    s' := SendGranted(s, v, i);
    dropped := s'.links[i].total > v.maxStored;
    if dropped {
      var s2, h := DropFromHog(s', v, i);
      OnwardTwice(s, s', s2);
      ServesTwice(Book(s), Book(s'), Book(s2), i);
      s' := s2;
    }
  }

  /** The status a new message gets toward neighbour `i`, before anything is sent or dropped. */
  function Standing(m: Msg, i: nat, hop: nat, nbrs: seq<nat>): Flag
    requires i < |nbrs|
  {
    if nbrs[i] == hop || nbrs[i] == m.src then Received
    else if i >= |m.mask| || !m.mask[i] then NotInMask
    else if m.local then Dropped else Need
  }

  /** No request is granted, and no queue overflows. */
  ghost predicate Quiet(s: State, v: Env, m: Msg) {
    && (forall k: nat :: v.patience(k) == 0)
    && (forall j :: 0 <= j < |s.links| ==> s.links[j].total + m.packets <= v.maxStored)
  }

  ghost predicate SomeoneNeeds(m: Msg, hop: nat, nbrs: seq<nat>, i: nat) {
    exists j :: 0 <= j < i && j < |nbrs| && Standing(m, j, hop, nbrs) == Need
  }

  /** Every neighbour before `i` has its standing, as long as someone is left who may need the message. */
  ghost predicate Stands(s0: State, s: State, v: Env, m: Msg, hop: nat, i: nat) {
    && |s.links| == |s0.links| == |v.nbrs| && i <= |v.nbrs|
    && (forall j :: i <= j < |s.links| ==> s.links[j] == s0.links[j])
    && (i < |v.nbrs| || SomeoneNeeds(m, hop, v.nbrs, i) ==>
          forall j: nat :: j < i ==> Has(s.belly, m, j, Standing(m, j, hop, v.nbrs)))
  }

  /** The status list is kept while someone besides neighbour `i` may need the message. */
  lemma ListKept(s0: State, s: State, v: Env, m: Msg, hop: nat, i: nat, f: Flag)
    requires Stands(s0, s, v, m, hop, i) && Admitting(s, v, m, hop, i) && i < |v.nbrs|
    requires f == Standing(m, i, hop, v.nbrs) && !Pending(f)
    requires i + 1 < |v.nbrs| || SomeoneNeeds(m, hop, v.nbrs, i + 1)
    ensures var e := s.belly[KeyOf(m)];
            i < |e.ns| && e.need > 0 && Settle(e, i, f).ns == e.ns[i := f]
  {
    var k := KeyOf(m);
    var e := s.belly[k];
    assert Has(s.belly, m, i, Unset) && EntryOk(e, k, |s.links|, v.n);
    SettleEntry(e, k, |s.links|, v.n, i, f);
    if i + 1 < |v.nbrs| {
      assert Has(s.belly, m, i + 1, Unset);
      assert Pending(e.ns[i + 1]);
    } else {
      var j :| 0 <= j < i + 1 && j < |v.nbrs| && Standing(m, j, hop, v.nbrs) == Need;
      assert Has(s.belly, m, j, Need);
      assert Pending(e.ns[j]);
    }
  }

  lemma SettledStands(s0: State, s: State, v: Env, m: Msg, hop: nat, i: nat, f: Flag)
    requires Stands(s0, s, v, m, hop, i) && Admitting(s, v, m, hop, i) && i < |v.nbrs|
    requires f == Standing(m, i, hop, v.nbrs) && !Pending(f) && Has(s.belly, m, i, Unset) && s.belly[KeyOf(m)].need > 0
    ensures Stands(s0, s.(belly := s.belly[KeyOf(m) := Settle(s.belly[KeyOf(m)], i, f)]), v, m, hop, i + 1)
  {
    if i + 1 < |v.nbrs| || SomeoneNeeds(m, hop, v.nbrs, i + 1) {
      ListKept(s0, s, v, m, hop, i, f);
    }
  }

  lemma QueuedStands(s0: State, s: State, v: Env, m: Msg, hop: nat, i: nat)
    requires Stands(s0, s, v, m, hop, i) && Admitting(s, v, m, hop, i) && i < |v.nbrs|
    requires Standing(m, i, hop, v.nbrs) == Need && Eligible(m, i, hop, v.nbrs)
    ensures Stands(s0, Queued(s, m, i).(requests := s.requests + 1), v, m, hop, i + 1)
  {
    AdmitQueued(s, v, m, hop, i);
  }

  /**
   * Whatever is sent, dropped or expired meanwhile: as long as the status list is kept, neighbours
   * before `i` that do not need the message have their standing.
   */
  ghost predicate Statuses(s: State, v: Env, m: Msg, hop: nat, i: nat) {
    && i <= |v.nbrs| && Known(s.belly, m)
    && (s.belly[KeyOf(m)].ns != [] ==>
          forall j: nat :: j < i && Standing(m, j, hop, v.nbrs) != Need ==>
            Has(s.belly, m, j, Standing(m, j, hop, v.nbrs)))
  }

  lemma SteadyStatuses(s: State, s': State, v: Env, m: Msg, hop: nat, i: nat)
    requires Statuses(s, v, m, hop, i) && Onward(s, s')
    ensures Statuses(s', v, m, hop, i)
  {
  }

  lemma SettledStatuses(s: State, v: Env, m: Msg, hop: nat, i: nat, f: Flag)
    requires Statuses(s, v, m, hop, i) && i < |v.nbrs| && Has(s.belly, m, i, Unset) && s.belly[KeyOf(m)].need > 0
    requires f == Standing(m, i, hop, v.nbrs)
    ensures Statuses(s.(belly := s.belly[KeyOf(m) := Settle(s.belly[KeyOf(m)], i, f)]), v, m, hop, i + 1)
  {
  }

  lemma QueuedStatuses(s: State, v: Env, m: Msg, hop: nat, i: nat)
    requires Statuses(s, v, m, hop, i) && i < |v.nbrs| && Standing(m, i, hop, v.nbrs) == Need
    ensures Statuses(Queued(s, m, i), v, m, hop, i + 1)
  {
  }

  /** The loop over the neighbours has come to neighbour `i`, from state `s0`. */
  ghost predicate AdmittedTo(s0: State, s: State, v: Env, m: Msg, hop: nat, i: nat) {
    && Admitting(s, v, m, hop, i) && |s.links| == |s0.links|
    && s.log.accepted == s0.log.accepted[m := hop] && s.log.heard == s0.log.heard && s0.log.sent <= s.log.sent
    && Statuses(s, v, m, hop, i) && (Quiet(s0, v, m) ==> Stands(s0, s, v, m, hop, i))
    && QueuedUpTo(Book(s0), Book(s), i)
  }

  lemma AdmitSettledTo(s0: State, s: State, v: Env, m: Msg, hop: nat, i: nat, f: Flag)
    requires AdmittedTo(s0, s, v, m, hop, i) && i < |s.links| && f == Standing(m, i, hop, v.nbrs) && !Pending(f)
    ensures Has(s.belly, m, i, Unset) && s.belly[KeyOf(m)].need > 0
    ensures AdmittedTo(s0, s.(belly := s.belly[KeyOf(m) := Settle(s.belly[KeyOf(m)], i, f)]), v, m, hop, i + 1)
  {
    AdmitSettled(s, v, m, hop, i, f);
    SettledStatuses(s, v, m, hop, i, f);
    if Quiet(s0, v, m) {
      SettledStands(s0, s, v, m, hop, i, f);
    }
    QueueSkip(Book(s0), Book(s), i);
  }

  /** The message for neighbour `i`. */
  method AdmitOne(s: State, v: Env, m: Msg, hop: nat, i: nat, ghost s0: State) returns (s': State, dropped: bool)
    requires AdmittedTo(s0, s, v, m, hop, i) && i < |s.links|
    ensures AdmittedTo(s0, s', v, m, hop, i + 1)
  {
    var f := Standing(m, i, hop, v.nbrs);
    if f != Need {
      AdmitSettledTo(s0, s, v, m, hop, i, f);
      s', dropped := s.(belly := s.belly[KeyOf(m) := Settle(s.belly[KeyOf(m)], i, f)]), false;
    } else {
      QueuedReady(s, v, m, hop, i);
      if Quiet(s0, v, m) {
        QueuedStands(s0, s, v, m, hop, i);
      }
      s', dropped := QueueFor(s, v, m, hop, i);
      QueueNext(Book(s0), Book(s), Book(s'), i);
    }
  }

  /** The loop over the neighbours for a new message. */
  method Admit(s: State, v: Env, m: Msg, hop: nat) returns (s': State, dropped: bool)
    requires CoreOk(s, v) && AllSet(s.belly) && KeyOf(m) !in s.belly && m.expire > Now(s, v) && Proper(m, v.n)
    ensures CoreOk(s', v) && AllSet(s'.belly) && |s'.links| == |s.links| && m !in s.log.accepted
    ensures s'.log.accepted == s.log.accepted[m := hop] && s'.log.heard == s.log.heard && s.log.sent <= s'.log.sent
    ensures Statuses(s', v, m, hop, |v.nbrs|) && (Quiet(s, v, m) ==> Stands(s, s', v, m, hop, |v.nbrs|))
    ensures AllFair(Book(s), Book(s'))
  {
    ghost var start := AdmitStart(s, v, m, hop);
    s' := s.(belly := s.belly[KeyOf(m) := Entry(m, |s.links|, seq(|s.links|, _ => Unset))],
             log := s.log.(accepted := s.log.accepted[m := hop]));
    dropped := false;
    for i := 0 to |s.links|
      invariant AdmittedTo(s, s', v, m, hop, i)
    {
      var d;
      s', d := AdmitOne(s', v, m, hop, i, s);
      dropped := dropped || d;
    }
  }

  // ----- A message seen before -----

  lemma HeardCore(s: State, v: Env, m: Msg, i: nat)
    requires CoreOk(s, v) && Known(s.belly, m) && !Has(s.belly, m, i, Need) && !Has(s.belly, m, i, Unset)
    ensures CoreOk(s.(log := s.log.(heard := s.log.heard + [Pass(i, m)])), v)
  {
    HeardLog(s.belly, s.log, v.nbrs, Now(s, v), m, i);
  }

  /** The sender of a copy is taken off the list of those that need the message. */
  method SettleHeard(s: State, v: Env, k: Key, i: nat) returns (s': State)
    requires CoreOk(s, v) && AllSet(s.belly) && k in s.belly && i < |s.links|
    ensures CoreOk(s', v) && AllSet(s'.belly) && |s'.links| == |s.links| && Steady(s.belly, s'.belly)
    ensures s'.log == s.log && s'.tick == s.tick && Thins(Book(s), Book(s'))
    ensures k in s'.belly && s'.belly[k].msg == s.belly[k].msg && !Has(s'.belly, s.belly[k].msg, i, Need)
  {
    var links, belly := Cleanup(s.links, s.belly, v.n, i, i + 1, k, Received);
    FoundCore(s, v, links, belly, s.tick);
    CleanedBeside(s.links, links, s.belly[k].msg, i, i + 1, |links|);
    s' := s.(links := links, belly := belly);
    forall m, j: nat ensures !Has(belly, m, j, Unset) {
      assert !Has(s.belly, m, j, Unset);
    }
  }

  /** A copy of a known message from neighbour `i`, which then needs it no more. */
  method HearCopy(s: State, v: Env, k: Key, i: nat) returns (s': State, exit: bool)
    requires CoreOk(s, v) && AllSet(s.belly) && k in s.belly && i < |s.links|
    ensures exit <==> i < |s.belly[k].ns| && s.belly[k].ns[i] == NotInMask
    ensures CoreOk(s', v) && AllSet(s'.belly) && |s'.links| == |s.links| && s'.tick == s.tick
    ensures Steady(s.belly, s'.belly) && Thins(Book(s), Book(s'))
    ensures s'.log == s.log.(heard := s.log.heard + [Pass(i, s.belly[k].msg)])
  {
    NeedHasNs(s.links, s.belly, v.n, k);
    var e := s.belly[k];
    s', exit := s, false;
    if e.need > 0 {
      match e.ns[i] {
        case Need => s' := SettleHeard(s, v, k, i);
        case NotInMask => exit := true;
        case _ =>
      }
    }
    assert !Has(s'.belly, e.msg, i, Need) && !Has(s'.belly, e.msg, i, Unset);
    HeardCore(s', v, e.msg, i);
    s' := s'.(log := s'.log.(heard := s'.log.heard + [Pass(i, e.msg)]));
  }

  // ----- Collecting expired messages -----

  lemma ErasedCore(s: State, v: Env, k: Key, links: seq<Link>, belly: map<Key, Entry>)
    requires CoreOk(s, v) && AllSet(s.belly) && k in s.belly && s.belly[k].msg.expire <= Now(s, v)
    requires SchedOk(links, belly, v.n) && Cleaning(s.links, s.belly, links, belly, k, 0, |s.links|)
    ensures CoreOk(s.(links := links, belly := belly - {k}), v) && AllSet(belly - {k})
  {
    FoundCore(s, v, links, belly, s.tick);
    NobodyNeeds(belly, |links|, v.n, k);
    EraseOk(links, belly, v.n, k);
    EraseLog(belly, s.log, v.nbrs, Now(s, v), k);
    forall m, i: nat ensures !Has(belly - {k}, m, i, Unset) {
      assert !Has(belly, m, i, Unset);
    }
  }

  /** What is left of the table once the keys outside `todo` have been looked at. */
  ghost predicate Collecting(s: State, s': State, v: Env, todo: set<Key>) {
    && CoreOk(s', v) && AllSet(s'.belly) && s'.log == s.log && s'.tick == s.tick && |s'.links| == |s.links|
    && Thins(Book(s), Book(s')) && s'.belly.Keys <= s.belly.Keys
    && (forall k :: k in s'.belly ==> s'.belly[k] == s.belly[k])
    && (forall k :: k in s.belly ==> (k in s'.belly <==> k in todo || s.belly[k].msg.expire > Now(s, v)))
  }

  lemma CollectNext(s: State, s1: State, s2: State, v: Env, todo: set<Key>, k: Key)
    requires Collecting(s, s1, v, todo) && k in todo && k in s1.belly && s1.belly[k].msg.expire <= Now(s, v)
    requires CoreOk(s2, v) && AllSet(s2.belly) && s2 == s1.(links := s2.links, belly := s2.belly)
    requires Beside(s1.links, s2.links, |s1.links|)
    requires s2.belly.Keys == s1.belly.Keys - {k} && forall j :: j in s2.belly ==> s2.belly[j] == s1.belly[j]
    ensures Collecting(s, s2, v, todo - {k})
  {
    BesideTwice(s.links, s1.links, s2.links, |s.links|);
  }

  lemma CollectSkip(s: State, s1: State, v: Env, todo: set<Key>, k: Key)
    requires Collecting(s, s1, v, todo) && k in todo && (k in s1.belly ==> s1.belly[k].msg.expire > Now(s, v))
    requires todo <= s.belly.Keys
    ensures Collecting(s, s1, v, todo - {k})
  {
  }

  /** `Priority_Garbage_Collect`: exactly the expired messages are forgotten. */
  method CollectFrom(s: State, v: Env) returns (s': State)
    requires CoreOk(s, v) && AllSet(s.belly)
    ensures Collecting(s, s', v, {})
  {
    s' := s;
    var todo := s.belly.Keys;
    while todo != {}
      invariant todo <= s.belly.Keys && todo <= s'.belly.Keys && Collecting(s, s', v, todo)
    {
      var k :| k in todo;
      if s'.belly[k].msg.expire <= Now(s, v) {
        var links, belly := Cleanup(s'.links, s'.belly, v.n, 0, |s'.links|, k, Expired);
        ErasedCore(s', v, k, links, belly);
        CleanedBeside(s'.links, links, s'.belly[k].msg, 0, |s'.links|, |links|);
        CollectNext(s, s', s'.(links := links, belly := belly - {k}), v, todo, k);
        s' := s'.(links := links, belly := belly - {k});
      } else {
        CollectSkip(s, s', v, todo, k);
      }
      todo := todo - {k};
    }
  }

  // ----- The daemon's view -----

  datatype Origin = Self | Neighbour(i: nat)

  datatype Verdict = NoRoute | Accepted(dropped: bool) | Exit

  predicate Legal(from: Origin, v: Env) { from.Self? || from.i < |v.nbrs| }

  /** The last hop of a message. */
  function Hop(from: Origin, v: Env): nat
    requires Legal(from, v)
  {
    if from.Self? then v.my else v.nbrs[from.i]
  }

  /** A copy from a neighbour to which the message's mask would not have sent it: the daemon gives up. */
  predicate OffMask(belly: map<Key, Entry>, incarnation: seq<nat>, n: nat, m: Msg, from: Origin) {
    && from.Neighbour? && m.src < n == |incarnation| && m.inc >= incarnation[m.src]
    && KeyOf(m) in belly && from.i < |belly[KeyOf(m)].ns| && belly[KeyOf(m)].ns[from.i] == NotInMask
  }

  /** Not refused for its incarnation, its age or its priority, and not known yet. */
  predicate Acceptable(belly: map<Key, Entry>, incarnation: seq<nat>, n: nat, m: Msg, now: nat) {
    && m.src < n == |incarnation| && m.inc >= incarnation[m.src]
    && KeyOf(m) !in belly && m.expire > now && 1 <= m.priority <= MAX_PRIORITY
  }

  lemma NewLinkOk(n: nat)
    ensures LinkOk(NewLink(n), n) && forall m :: !Holds(NewLink(n), m)
  {
    var lists := NO_MESSAGES.lists;
    LoadEmpty(lists);
    BoundsAre(lists, 0, MAX_PRIORITY + 1);
    TotalZero(NewLink(n).srcs);
    forall s | 0 <= s < n ensures QueueOk(NewLink(n).srcs[s], s) {
      assert NewLink(n).srcs[s] == NO_MESSAGES;
    }
  }

  lemma GoneOk(l: Link, n: nat, m: Msg)
    requires LinkOk(l, n) && Holds(l, m)
    ensures LinkOk(Cleared(l, m), n) && Cleared(l, m).srcs[m.src].count == l.srcs[m.src].count - m.packets
  {
    CountsCover(l, n, m);
    assert QueueOk(l.srcs[m.src], m.src);
    DropLinkOk(l, n, m);
  }

  /** A message queued has gone before it could be sent. */
  lemma QueuedAndGone(l: Link, n: nat, m: Msg)
    requires LinkOk(l, n) && Proper(m, n) && !Holds(l, m)
    ensures var queued := PutLink(l, m);
            && Holds(queued, m) && LinkOk(Cleared(queued, m), n)
            && Cleared(queued, m).urgent == queued.urgent && Cleared(queued, m).norm == l.norm
            && Cleared(queued, m).srcs[m.src].count == l.srcs[m.src].count
  {
    PutLinkOk(l, n, m);
    GoneOk(PutLink(l, m), n, m);
    ClearedFewer(PutLink(l, m), m);
  }

  /** It was the first of its source. */
  lemma Emptied(n: nat, m: Msg) returns (l: Link)
    requires Proper(m, n)
    ensures var queued := PutLink(NewLink(n), m); Holds(queued, m) && l == Cleared(queued, m)
    ensures LinkOk(l, n) && l.urgent == [Fair(m.src, 1)] && l.norm == [] && l.srcs[m.src].count == 0
  {
    NewLinkOk(n);
    QueuedAndGone(NewLink(n), n, m);
    assert NewLink(n).srcs[m.src] == NO_MESSAGES;
    l := Cleared(PutLink(NewLink(n), m), m);
  }

  /** So its urgent turn comes for nothing, and what it queues next waits for 65536 looks. */
  lemma EmptyTurnArises(n: nat, m: Msg) returns (l: Link, l': Link)
    requires Proper(m, n)
    ensures var queued := PutLink(NewLink(n), m); Holds(queued, m) && l == Cleared(queued, m)
    ensures LinkOk(l, n) && LookedAt(l, l') && InLine(l', m.src) && Owed(l', m.src) == PENALTIES
  {
    l := Emptied(n, m);
    l' := Requeue(l, 0);
    assert l'.norm == [Fair(m.src, 0)] && l'.urgent == [];
    EmptyUrgentTurn(l, l', n);
  }

  /** Empty queues, an empty table and an empty log. */
  function Start(v: Env): State {
    State(seq(|v.nbrs|, _ => NewLink(v.n)), map[], Log(map[], [], []), 0, 0, 0)
  }

  lemma StartOk(v: Env)
    requires Monotone(v.clock)
    ensures CoreOk(Start(v), v) && AllSet(Start(v).belly)
  {
    NewLinkOk(v.n);
  }

  class PriorityFlood {
    const env: Env
    var s: State
    var incarnation: seq<nat>

    ghost predicate Valid()
      reads this
    {
      CoreOk(s, env) && AllSet(s.belly) && |incarnation| == env.n
    }

    constructor (env: Env)
      requires Monotone(env.clock)
      ensures Valid() && this.env == env && s.log == Log(map[], [], []) && s.belly == map[]
      ensures s.links == seq(|env.nbrs|, _ => NewLink(env.n)) && incarnation == seq(env.n, _ => 0)
    {
      this.env := env;
      incarnation := seq(env.n, _ => 0);
      s := Start(env);
      new;
      StartOk(env);
    }

    method ReadClock() returns (now: nat)
      requires Valid()
      modifies this`s
      ensures Valid() && s == old(s).(tick := old(s).tick + 1) && now == Now(s, env)
    {
      LaterLog(s.belly, s.log, env.nbrs, Now(s, env), env.clock(s.tick + 1));
      s := s.(tick := s.tick + 1);
      now := env.clock(s.tick);
    }

    /**
     * `Priority_Flood_Disseminate`: a message from a neighbour or from this node. It is accepted as
     * new at most once in the whole run; a copy of a known one only settles its neighbour.
     */
    method Disseminate(m: Msg, from: Origin) returns (r: Verdict)
      requires Valid() && 0 < m.packets < PENALTIES
      modifies this
      ensures Valid() && AllFair(Book(old(s)), Book(s))
      ensures r.Accepted? <==>
              Legal(from, env) && Acceptable(old(s).belly, old(incarnation), env.n, m, env.clock(old(s).tick + 1))
      ensures r.Accepted? ==> m !in old(s).log.accepted && s.log.accepted == old(s).log.accepted[m := Hop(from, env)]
      ensures old(s).log.sent <= s.log.sent
      ensures (!r.Accepted? ==> s.log.accepted == old(s).log.accepted && s.log.sent == old(s).log.sent)
      ensures r.Accepted? ==> Statuses(s, env, m, Hop(from, env), |env.nbrs|)
      ensures r.Accepted? && Quiet(old(s), env, m) ==> Stands(old(s), s, env, m, Hop(from, env), |env.nbrs|)
      ensures |incarnation| == |old(incarnation)|
      ensures r.Accepted? ==> incarnation == old(incarnation)[m.src := m.inc]
      ensures r.Exit? <==> Legal(from, env) && OffMask(old(s).belly, old(incarnation), env.n, m, from)
    {
      ThinsAllFair(Book(s), Book(s));
      if from.Neighbour? && from.i >= |env.nbrs| {
        return NoRoute;
      }
      var now := ReadClock();
      if m.src >= env.n || m.inc < incarnation[m.src] {
        return NoRoute;
      }
      incarnation := incarnation[m.src := m.inc];
      if KeyOf(m) !in s.belly {
        if m.expire <= now || m.priority == 0 || m.priority > MAX_PRIORITY {
          return NoRoute;
        }
        var dropped;
        s, dropped := Admit(s, env, m, Hop(from, env));
        return Accepted(dropped);
      }
      if from.Self? {
        return NoRoute;
      }
      var exit;
      s, exit := HearCopy(s, env, KeyOf(m), from.i);
      ThinsAllFair(Book(old(s)), Book(s));
      r := if exit then Exit else NoRoute;
    }

    /** `Priority_Flood_Send_One`. */
    method SendOne(i: nat) returns (r: Outcome)
      requires Valid() && i < |s.links|
      modifies this`s
      ensures Valid() && Ended(old(s), s, env, i, r) && AllFair(Book(old(s)), Book(s))
    {
      s, r := SendOneFrom(s, env, i);
      ServesAllFair(Book(old(s)), Book(s), i);
    }

    /** `Priority_Garbage_Collect`. */
    method GarbageCollect()
      requires Valid()
      modifies this`s
      ensures Valid() && s.log == old(s).log && AllFair(Book(old(s)), Book(s))
      ensures forall k :: k in s.belly <==> k in old(s).belly && old(s).belly[k].msg.expire > Now(s, env)
      ensures forall k :: k in s.belly ==> s.belly[k] == old(s).belly[k]
    {
      var now := ReadClock();
      s := CollectFrom(s, env);
      ThinsAllFair(Book(old(s)), Book(s));
    }
  }

  // ----- Whole runs -----

  datatype Call = Arrive(m: Msg, from: Origin) | Turn(i: nat) | Collect

  predicate Callable(c: Call, v: Env) {
    match c
    case Arrive(m, _) => 0 < m.packets < PENALTIES
    case Turn(i) => i < |v.nbrs|
    case Collect => true
  }

  /** No message twice. */
  predicate Different(ms: seq<Msg>) { forall i, j :: 0 <= i < j < |ms| ==> ms[i] != ms[j] }

  /** What a run that accepted `ms`, from the hops in `log`, may have sent. */
  ghost predicate AtMostOnce(ms: seq<Msg>, log: Log, v: Env) {
    && Different(ms) && OnceEach(log.sent) && (forall m :: m in ms <==> m in log.accepted)
    && (forall x :: x in log.sent ==> x.msg in ms && Eligible(x.msg, x.ngbr, log.accepted[x.msg], v.nbrs))
  }

  lemma CoreAtMostOnce(s: State, v: Env, ms: seq<Msg>)
    requires CoreOk(s, v) && Different(ms) && forall m :: m in ms <==> m in s.log.accepted
    ensures AtMostOnce(ms, s.log, v)
  {
  }

  /**
   * Over any run, whatever the network, the link and the clock do: every message is accepted as new
   * at most once and sent to every neighbour at most once, never to the one it came from, to its
   * source or off its mask. `trace` has the queues before the first and after every call: no source
   * is overtaken out of turn.
   */
  method RunAll(v: Env, calls: seq<Call>) returns (accepted: seq<Msg>, log: Log, ghost trace: seq<Snapshot>)
    requires Monotone(v.clock) && forall k :: 0 <= k < |calls| ==> Callable(calls[k], v)
    ensures AtMostOnce(accepted, log, v)
    ensures |trace| == |calls| + 1 && FairRun(trace) && trace[|calls|].sent == log.sent
  {
    var flood := new PriorityFlood(v);
    accepted, trace := [], [Book(flood.s)];
    for k := 0 to |calls|
      invariant flood.Valid() && fresh(flood) && flood.env == v
      invariant Different(accepted) && forall m :: m in accepted <==> m in flood.s.log.accepted
      invariant |trace| == k + 1 && FairRun(trace) && trace[k] == Book(flood.s)
    {
      assert Callable(calls[k], v);
      match calls[k] {
        case Arrive(m, from) =>
          var r := flood.Disseminate(m, from);
          if r.Accepted? {
            accepted := accepted + [m];
          }
        case Turn(i) =>
          var r := flood.SendOne(i);
        case Collect =>
          flood.GarbageCollect();
      }
      RunOn(trace, Book(flood.s));
      trace := trace + [Book(flood.s)];
    }
    log := flood.s.log;
    CoreAtMostOnce(flood.s, v, accepted);
  }

  function ThreeNeighbours(running: bool): Env {
    Env(5, [1, 2, 3], 0, 500, (k: nat) => if running then k else 0, _ => false, _ => 0)
  }

  function PastTwo(): Msg { Msg(4, 0, 0, 1, 10, 1, [true, false, true], false) }

  lemma QuietAtFirst(s: State, running: bool)
    requires s.links == seq(3, _ => NewLink(5))
    ensures Quiet(s, ThreeNeighbours(running), PastTwo())
  {
  }

  lemma StandingsOfThree(s0: State, s: State, running: bool)
    requires Stands(s0, s, ThreeNeighbours(running), PastTwo(), 1, 3)
    ensures Has(s.belly, PastTwo(), 1, NotInMask) && Has(s.belly, PastTwo(), 2, Need)
  {
    assert Standing(PastTwo(), 2, 1, ThreeNeighbours(running).nbrs) == Need;
    assert SomeoneNeeds(PastTwo(), 1, ThreeNeighbours(running).nbrs, 3);
    assert Standing(PastTwo(), 1, 1, ThreeNeighbours(running).nbrs) == NotInMask;
  }

  /**
   * Three neighbours 1, 2 and 3 of node 0, and a message of node 4 whose mask lets it pass to 1 and 3
   * but not to 2. It comes from 1 and waits for 3; the copy that 2 then sends makes the daemon exit.
   */
  method OffMaskRun() returns (first: Verdict, second: Verdict)
    ensures first.Accepted? && second.Exit?
  {
    var v, m := ThreeNeighbours(false), PastTwo();
    var flood := new PriorityFlood(v);
    ghost var start := flood.s;
    QuietAtFirst(start, false);
    first := flood.Disseminate(m, Neighbour(0));
    StandingsOfThree(start, flood.s, false);
    second := flood.Disseminate(m, Neighbour(1));
  }

  /** What the run below has queued for neighbour 3: the message, and nothing that lives longer. */
  lemma OnlyOneQueued(s: State, v: Env)
    requires CoreOk(s, v) && |s.links| == 3 && s.log.accepted.Keys == {PastTwo()} && Has(s.belly, PastTwo(), 2, Need)
    ensures Holds(s.links[2], PastTwo()) && forall t: nat :: AllGone(s.links[2], t) <==> t >= 10
  {
    forall m | Holds(s.links[2], m) ensures m == PastTwo() {
      assert Has(s.belly, m, 2, Need);
      assert s.belly[KeyOf(m)].msg in s.log.accepted;
    }
  }

  /** The message has come from 1 and waits for 3. */
  method QueuedForThree(running: bool) returns (s: State)
    ensures CoreOk(s, ThreeNeighbours(running)) && |s.links| == 3 && s.log.accepted.Keys == {PastTwo()}
    ensures Has(s.belly, PastTwo(), 2, Need)
  {
    var start := Start(ThreeNeighbours(running));
    StartOk(ThreeNeighbours(running));
    QuietAtFirst(start, running);
    var dropped;
    s, dropped := Admit(start, ThreeNeighbours(running), PastTwo(), 1);
    StandingsOfThree(start, s, running);
  }

  /**
   * The same message on a link to 3 that takes nothing, with `answers` answers of 1 in a row. With
   * the clock standing still the loop never ends; with a running clock it spins until the message,
   * which expires at 10, is gone.
   */
  method RefusingRun(answers: nat, running: bool) returns (waiting: bool)
    requires answers > 0
    ensures !running ==> waiting
    ensures running && answers >= 10 ==> !waiting
  {
    var v := ThreeNeighbours(running);
    var s0 := QueuedForThree(running);
    OnlyOneQueued(s0, v);
    var s := SendAnswered(s0, v, 2, answers);
    if running && answers >= 10 {
      assert AllGone(s0.links[2], v.clock(10));
      assert Expires(s0, v, 2, s0.tick + answers);
    }
    waiting := Waiting(s.links[2]);
  }
}

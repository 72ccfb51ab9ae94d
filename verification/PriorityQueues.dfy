/**
 * The queues of the priority flooding scheduler toward one neighbour (`Prio_Link_Data` in
 * daemon/priority_flood.h): per source one list for every priority with redundant counters, and
 * two fair queues of sources.
 */
module PriorityQueues {

  const MAX_PRIORITY: nat := 10

  /** What the header of a message fixes, and its packet count. */
  datatype Msg = Msg(
    src: nat, inc: nat, no: nat, priority: nat, expire: nat, packets: nat, mask: seq<bool>, local: bool)

  /** `lists[p]` is the list of priority p, oldest first. */
  datatype SourceQueue = SourceQueue(count: nat, queued: bool, maxPq: nat, minPq: nat, lists: seq<seq<Msg>>)

  const NO_MESSAGES := SourceQueue(0, false, 0, MAX_PRIORITY + 1, seq(MAX_PRIORITY + 1, _ => []))

  // ----- Reference definitions of the counters -----

  function Load(ms: seq<Msg>): nat {
    if ms == [] then 0 else Load(ms[..|ms| - 1]) + ms[|ms| - 1].packets
  }

  function LoadAll(lists: seq<seq<Msg>>): nat {
    if lists == [] then 0 else LoadAll(lists[..|lists| - 1]) + Load(lists[|lists| - 1])
  }

  /** The highest non-empty priority up to `j`, or 0. */
  function Highest(lists: seq<seq<Msg>>, j: nat): (p: nat)
    requires j < |lists|
    ensures p <= j && (p != 0 ==> lists[p] != []) && (forall r :: p < r <= j ==> lists[r] == [])
  {
    if j == 0 then 0 else if lists[j] != [] then j else Highest(lists, j - 1)
  }

  /** The lowest non-empty priority from `j` on, or the number of lists. */
  function Lowest(lists: seq<seq<Msg>>, j: nat): (p: nat)
    requires j <= |lists|
    ensures j <= p <= |lists| && (p < |lists| ==> lists[p] != []) && (forall r :: j <= r < p ==> lists[r] == [])
    decreases |lists| - j
  {
    if j == |lists| || lists[j] != [] then j else Lowest(lists, j + 1)
  }

  lemma BoundsAre(lists: seq<seq<Msg>>, top: nat, low: nat)
    requires |lists| == MAX_PRIORITY + 1 && top <= MAX_PRIORITY && 1 <= low <= MAX_PRIORITY + 1
    requires (top != 0 ==> lists[top] != []) && forall r :: top < r <= MAX_PRIORITY ==> lists[r] == []
    requires (low <= MAX_PRIORITY ==> lists[low] != []) && forall r :: 1 <= r < low ==> lists[r] == []
    ensures Highest(lists, MAX_PRIORITY) == top && Lowest(lists, 1) == low
  {
    var h, l := Highest(lists, MAX_PRIORITY), Lowest(lists, 1);
  }

  predicate Distinct(ms: seq<Msg>) { forall i, j :: 0 <= i < j < |ms| ==> ms[i] != ms[j] }

  predicate Filed(lists: seq<seq<Msg>>, src: nat) {
    && |lists| == MAX_PRIORITY + 1 && lists[0] == []
    && (forall p, m :: 0 <= p < |lists| && m in lists[p] ==> m.priority == p && m.src == src && m.packets > 0)
    && (forall p :: 0 <= p < |lists| ==> Distinct(lists[p]))
  }

  predicate QueueOk(q: SourceQueue, src: nat) {
    && Filed(q.lists, src) && q.count == LoadAll(q.lists)
    && q.maxPq == Highest(q.lists, MAX_PRIORITY) && q.minPq == Lowest(q.lists, 1)
  }

  predicate In(q: SourceQueue, m: Msg) { m.priority < |q.lists| && m in q.lists[m.priority] }

  // ----- Sums -----

  lemma {:induction false} LoadWithout(ms: seq<Msg>, k: nat)
    requires k < |ms|
    ensures Load(ms) == Load(ms[..k] + ms[k + 1..]) + ms[k].packets
  {
    var rest := ms[..k] + ms[k + 1..];
    if k == |ms| - 1 {
      assert rest == ms[..k];
    } else {
      var front := ms[..|ms| - 1];
      LoadWithout(front, k);
      assert rest[..|rest| - 1] == front[..k] + front[k + 1..];
    }
  }

  lemma {:induction false} LoadAllUpdate(lists: seq<seq<Msg>>, p: nat, ms: seq<Msg>)
    requires p < |lists|
    ensures LoadAll(lists[p := ms]) + Load(lists[p]) == LoadAll(lists) + Load(ms)
  {
    var front := lists[..|lists| - 1];
    if p == |lists| - 1 {
      assert lists[p := ms][..|lists| - 1] == front;
    } else {
      LoadAllUpdate(front, p, ms);
      assert lists[p := ms][..|lists| - 1] == front[p := ms];
    }
  }

  lemma {:induction false} LoadAllBound(lists: seq<seq<Msg>>, p: nat)
    requires p < |lists|
    ensures Load(lists[p]) <= LoadAll(lists)
  {
    if p < |lists| - 1 {
      LoadAllBound(lists[..|lists| - 1], p);
    }
  }

  lemma {:induction false} LoadEmpty(lists: seq<seq<Msg>>)
    requires forall p :: 0 <= p < |lists| ==> lists[p] == []
    ensures LoadAll(lists) == 0
  {
    if lists != [] {
      LoadEmpty(lists[..|lists| - 1]);
    }
  }

  lemma LoadPositive(ms: seq<Msg>)
    requires ms != [] && forall m :: m in ms ==> m.packets > 0
    ensures Load(ms) > 0
  {
    assert ms[|ms| - 1] in ms;
  }

  /** A source counts no packet exactly if its lists are empty; otherwise its highest list has a first message. */
  lemma CountZero(q: SourceQueue, src: nat)
    requires QueueOk(q, src)
    ensures q.count == 0 <==> forall p :: 0 <= p <= MAX_PRIORITY ==> q.lists[p] == []
    ensures q.count > 0 ==> 1 <= q.maxPq <= MAX_PRIORITY && q.lists[q.maxPq] != []
    ensures q.count > 0 ==> 1 <= q.minPq <= MAX_PRIORITY && q.lists[q.minPq] != []
    ensures q.count == 0 ==> q.maxPq == 0 && q.minPq == MAX_PRIORITY + 1
  {
    if q.count == 0 {
      forall p | 0 <= p <= MAX_PRIORITY ensures q.lists[p] == [] {
        LoadAllBound(q.lists, p);
        if q.lists[p] != [] {
          LoadPositive(q.lists[p]);
        }
      }
    } else if forall p :: 0 <= p <= MAX_PRIORITY ==> q.lists[p] == [] {
      LoadEmpty(q.lists);
    }
  }

  // ----- Queueing and unlinking a message -----

  function Put(q: SourceQueue, m: Msg): SourceQueue
    requires m.priority < |q.lists|
  {
    q.(count := q.count + m.packets, lists := q.lists[m.priority := q.lists[m.priority] + [m]],
       maxPq := if m.priority > q.maxPq then m.priority else q.maxPq,
       minPq := if m.priority < q.minPq then m.priority else q.minPq)
  }

  lemma PutFiled(q: SourceQueue, src: nat, m: Msg)
    requires QueueOk(q, src) && m.src == src && m.packets > 0 && 1 <= m.priority <= MAX_PRIORITY && !In(q, m)
    ensures Filed(Put(q, m).lists, src)
  {
    var p, lists := m.priority, Put(q, m).lists;
    forall r, x: Msg | 0 <= r < |lists| && x in lists[r] ensures x.priority == r && x.src == src && x.packets > 0 {
      if r == p && x != m {
        assert x in q.lists[p];
      }
    }
    forall r | 0 <= r < |lists| ensures Distinct(lists[r]) {
      assert Distinct(q.lists[r]);
    }
  }

  lemma PutOk(q: SourceQueue, src: nat, m: Msg)
    requires QueueOk(q, src) && m.src == src && m.packets > 0 && 1 <= m.priority <= MAX_PRIORITY && !In(q, m)
    ensures QueueOk(Put(q, m), src)
    ensures forall x :: In(Put(q, m), x) <==> In(q, x) || x == m
  {
    PutFiled(q, src, m);
    var p := m.priority;
    var ms := q.lists[p] + [m];
    assert ms[..|ms| - 1] == q.lists[p];
    LoadAllUpdate(q.lists, p, ms);
    BoundsAre(Put(q, m).lists, Put(q, m).maxPq, Put(q, m).minPq);
  }

  function IndexOf(ms: seq<Msg>, m: Msg): (k: nat)
    requires m in ms
    ensures k < |ms| && ms[k] == m
  {
    if ms[0] == m then 0 else 1 + IndexOf(ms[1..], m)
  }

  function Without(ms: seq<Msg>, m: Msg): seq<Msg>
    requires m in ms
  {
    ms[..IndexOf(ms, m)] + ms[IndexOf(ms, m) + 1..]
  }

  lemma WithoutHas(ms: seq<Msg>, m: Msg)
    requires m in ms && Distinct(ms)
    ensures Distinct(Without(ms, m)) && forall x :: x in Without(ms, m) <==> x in ms && x != m
  {
    var k, r := IndexOf(ms, m), Without(ms, m);
    forall x | x in ms && x != m ensures x in r {
      var i := IndexOf(ms, x);
      assert i < k ==> r[i] == x;
      assert i > k ==> r[i - 1] == x;
    }
    forall x | x in r ensures x in ms && x != m {
      var i := IndexOf(r, x);
      assert x == if i < k then ms[i] else ms[i + 1];
    }
  }

  /** The queue without `m`, its counters afresh. */
  function Drop(q: SourceQueue, m: Msg): SourceQueue
    requires In(q, m) && |q.lists| == MAX_PRIORITY + 1 && m.packets <= q.count
  {
    var lists := q.lists[m.priority := Without(q.lists[m.priority], m)];
    SourceQueue(q.count - m.packets, q.queued, Highest(lists, MAX_PRIORITY), Lowest(lists, 1), lists)
  }

  lemma CountCovers(q: SourceQueue, src: nat, m: Msg)
    requires QueueOk(q, src) && In(q, m)
    ensures m.packets <= q.count && m.src == src && m.packets > 0 && 1 <= m.priority <= MAX_PRIORITY
  {
    var ms := q.lists[m.priority];
    LoadWithout(ms, IndexOf(ms, m));
    LoadAllBound(q.lists, m.priority);
  }

  lemma DropFiled(q: SourceQueue, src: nat, m: Msg)
    requires QueueOk(q, src) && In(q, m) && m.packets <= q.count
    ensures Filed(Drop(q, m).lists, src)
    ensures forall x :: In(Drop(q, m), x) <==> In(q, x) && x != m
  {
    var p, lists := m.priority, Drop(q, m).lists;
    WithoutHas(q.lists[p], m);
    forall r, x: Msg | 0 <= r < |lists| && x in lists[r] ensures x.priority == r && x.src == src && x.packets > 0 {
      assert x in q.lists[r];
    }
    forall r | 0 <= r < |lists| ensures Distinct(lists[r]) {
      assert Distinct(q.lists[r]);
    }
  }

  lemma DropOk(q: SourceQueue, src: nat, m: Msg)
    requires QueueOk(q, src) && In(q, m) && m.packets <= q.count
    ensures QueueOk(Drop(q, m), src)
    ensures forall x :: In(Drop(q, m), x) <==> In(q, x) && x != m
  {
    DropFiled(q, src, m);
    var ms := q.lists[m.priority];
    LoadWithout(ms, IndexOf(ms, m));
    LoadAllUpdate(q.lists, m.priority, Without(ms, m));
  }

  // ----- Oldest first -----

  /** `x` is served before `y`. */
  ghost predicate InFront(ms: seq<Msg>, x: Msg, y: Msg) {
    exists i, j :: 0 <= i < j < |ms| && ms[i] == x && ms[j] == y
  }

  /** A new message stands behind all of its priority, whose order stays. */
  lemma PutBehind(q: SourceQueue, m: Msg, x: Msg, y: Msg)
    requires m.priority < |q.lists| && !In(q, m) && In(q, x) && x.priority == m.priority == y.priority && y != m
    ensures InFront(Put(q, m).lists[m.priority], x, m)
    ensures InFront(Put(q, m).lists[m.priority], x, y) <==> InFront(q.lists[m.priority], x, y)
  {
    var ms, ms' := q.lists[m.priority], Put(q, m).lists[m.priority];
    var i := IndexOf(ms, x);
    assert ms'[i] == x && ms'[|ms|] == m;
    if InFront(ms, x, y) {
      var a, b :| 0 <= a < b < |ms| && ms[a] == x && ms[b] == y;
      assert ms'[a] == x && ms'[b] == y;
    }
  }

  /** The others keep their order when a message goes. */
  lemma DropInOrder(q: SourceQueue, m: Msg, x: Msg, y: Msg)
    requires In(q, m) && |q.lists| == MAX_PRIORITY + 1 && m.packets <= q.count && x != m && y != m
    ensures InFront(Drop(q, m).lists[m.priority], x, y) <==> InFront(q.lists[m.priority], x, y)
  {
    var ms := q.lists[m.priority];
    WithoutInOrder(ms, Without(ms, m), IndexOf(ms, m), x, y);
  }

  lemma WithoutInOrder(ms: seq<Msg>, r: seq<Msg>, k: nat, x: Msg, y: Msg)
    requires k < |ms| && r == ms[..k] + ms[k + 1..] && ms[k] != x && ms[k] != y
    ensures InFront(r, x, y) <==> InFront(ms, x, y)
  {
    if InFront(ms, x, y) {
      var a, b :| 0 <= a < b < |ms| && ms[a] == x && ms[b] == y;
      var a', b' := if a < k then a else a - 1, if b < k then b else b - 1;
      assert r[a'] == x && r[b'] == y;
    }
    if InFront(r, x, y) {
      var a, b :| 0 <= a < b < |r| && r[a] == x && r[b] == y;
      var a', b' := if a < k then a else a + 1, if b < k then b else b + 1;
      assert ms[a'] == x && ms[b'] == y;
    }
  }

  // ----- The counters as they are kept -----

  /** Scanning down from a bound above the highest non-empty priority finds it. */
  lemma {:induction false} HighestFrom(lists: seq<seq<Msg>>, j: nat, top: nat)
    requires j <= top < |lists| && forall r :: j < r <= top ==> lists[r] == []
    ensures Highest(lists, top) == Highest(lists, j)
    decreases top - j
  {
    if j < top {
      HighestFrom(lists, j, top - 1);
    }
  }

  lemma {:induction false} LowestFrom(lists: seq<seq<Msg>>, j: nat, k: nat)
    requires j <= k <= |lists| && forall r :: j <= r < k ==> lists[r] == []
    ensures Lowest(lists, j) == Lowest(lists, k)
    decreases k - j
  {
    if j < k {
      LowestFrom(lists, j + 1, k);
    }
  }

  /**
   * Unlinks `m` as `Cleanup_prio_flood_ds` does: the priorities are scanned again only if the last
   * message of a list went, and only from their old values inward.
   */
  method Unlink(q: SourceQueue, ghost src: nat, m: Msg) returns (r: SourceQueue)
    requires QueueOk(q, src) && In(q, m) && m.packets <= q.count
    ensures r == Drop(q, m)
  {
    ghost var goal := Drop(q, m);
    DropOk(q, src, m);
    var k := IndexOf(q.lists[m.priority], m);
    var last := k == |q.lists[m.priority]| - 1;
    var lists := q.lists[m.priority := Without(q.lists[m.priority], m)];
    r := q.(count := q.count - m.packets, lists := lists);
    if last {
      if r.count > 0 {
        var top, low := ScanPriorities(lists, q.maxPq, q.minPq);
        r := r.(maxPq := top, minPq := low);
      } else {
        CountZero(goal, src);
        r := r.(maxPq := 0, minPq := MAX_PRIORITY + 1);
      }
    } else {
      assert lists[m.priority] != [];
      BoundsAre(lists, q.maxPq, q.minPq);
    }
  }

  method ScanPriorities(lists: seq<seq<Msg>>, maxPq: nat, minPq: nat) returns (top: nat, low: nat)
    requires |lists| == MAX_PRIORITY + 1 && maxPq <= MAX_PRIORITY && 1 <= minPq <= MAX_PRIORITY + 1
    requires forall r :: maxPq < r <= MAX_PRIORITY ==> lists[r] == []
    requires forall r :: 1 <= r < minPq ==> lists[r] == []
    ensures top == Highest(lists, MAX_PRIORITY) && low == Lowest(lists, 1)
  {
    top := maxPq;
    while top >= 1 && lists[top] == []
      invariant top <= maxPq && forall r :: top < r <= MAX_PRIORITY ==> lists[r] == []
    {
      top := top - 1;
    }
    HighestFrom(lists, top, MAX_PRIORITY);
    low := minPq;
    while low <= MAX_PRIORITY && lists[low] == []
      invariant minPq <= low <= MAX_PRIORITY + 1 && forall r :: 1 <= r < low ==> lists[r] == []
    {
      low := low + 1;
    }
    LowestFrom(lists, 1, low);
  }
}

/**
 * The realtime link (daemon/realtime_udp.c): a receive ring of flags that stands for the set of all
 * numbers ever delivered, and a sending history whose retransmissions a token bucket bounds.
 */
module RealtimeLink {

  const MAX_HISTORY: nat := 1000
  const HISTORY_TIME: int := 100000
  const MAX_BUCKET: nat := 500
  const RETRANSMIT_TOKENS: nat := 2

  function Cell(s: nat): (k: nat)
    ensures k < MAX_HISTORY
  {
    s % MAX_HISTORY
  }

  /** Numbers less than a ring apart have cells of their own. */
  lemma CellsApart(lo: nat, t: nat)
    requires lo <= t < lo + MAX_HISTORY
    ensures forall s: nat {:trigger Cell(s)} :: lo <= s < lo + MAX_HISTORY && s != t ==> Cell(s) != Cell(t)
  {
  }

  function Min(a: nat, b: nat): nat { if a <= b then a else b }

  // ----- Receiving -----

  /** The window of a receiver, and when each number that was ever delivered came in. */
  datatype View = View(head: nat, tail: nat, arrival: map<nat, int>)

  predicate ViewOk(v: View) {
    v.tail <= v.head <= v.tail + MAX_HISTORY && forall s :: s in v.arrival ==> s < v.head
  }

  /** The first number from `lo` on that has come in, or `hi`. */
  function First(arrival: map<nat, int>, lo: nat, hi: nat): (r: nat)
    requires lo <= hi
    ensures lo <= r <= hi && (forall s :: lo <= s < r ==> s !in arrival) && (r < hi ==> r in arrival)
    decreases hi - lo
  {
    if lo == hi || lo in arrival then lo else First(arrival, lo + 1, hi)
  }

  predicate Old(arrival: map<nat, int>, s: nat, now: int)
    requires s in arrival
  {
    now - arrival[s] > HISTORY_TIME
  }

  /** Where the tail comes to rest when it moves over numbers that came in too long ago. */
  function AgedTail(arrival: map<nat, int>, lo: nat, hi: nat, now: int): (t: nat)
    requires lo <= hi
    ensures lo <= t <= hi
    decreases hi - lo
  {
    var i := First(arrival, lo, hi);
    if i == hi || !Old(arrival, i, now) then lo else AgedTail(arrival, i + 1, hi, now)
  }

  /** All that came in below `t` is old, the last number below `t` among it, and the next that came in is not. */
  ghost predicate Aged(arrival: map<nat, int>, lo: nat, hi: nat, now: int, t: nat) {
    && lo <= t <= hi && (forall s :: lo <= s < t && s in arrival ==> Old(arrival, s, now))
    && (t > lo ==> t - 1 in arrival) && (var i := First(arrival, t, hi); i < hi ==> !Old(arrival, i, now))
  }

  lemma {:induction false} AgedTailIs(arrival: map<nat, int>, lo: nat, hi: nat, now: int)
    requires lo <= hi
    ensures Aged(arrival, lo, hi, now, AgedTail(arrival, lo, hi, now))
    decreases hi - lo
  {
    var i := First(arrival, lo, hi);
    if i < hi && Old(arrival, i, now) {
      AgedTailIs(arrival, i + 1, hi, now);
    }
  }

  /** There is one such place only. */
  lemma AgedUnique(arrival: map<nat, int>, lo: nat, hi: nat, now: int, t: nat, u: nat)
    requires Aged(arrival, lo, hi, now, t) && Aged(arrival, lo, hi, now, u) && t <= u
    ensures t == u
  {
    var i := First(arrival, t, hi);
  }

  /** A number comes in. */
  function Arrive(v: View, no: nat, now: int): (r: (View, bool))
    requires v.tail <= v.head
  {
    if no < v.tail || no in v.arrival then (v, false)
    else
      var t := AgedTail(v.arrival, v.tail, v.head, now);
      (View(if no >= v.head then no + 1 else v.head,
            if no >= v.head && no - t >= MAX_HISTORY then no + 1 - MAX_HISTORY else t, v.arrival[no := now]), true)
  }

  /**
   * A number is delivered exactly if it is not below the tail and never was before. The tail then moves
   * exactly if the first number that came in within the window did so too long ago, or a jump needs the
   * room; and the last number it passes is such an old one or a ring below the number that came in.
   */
  lemma ArriveMoves(v: View, no: nat, now: int)
    requires ViewOk(v)
    ensures var (v', deliver) := Arrive(v, no, now);
            && ViewOk(v') && (deliver <==> no >= v.tail && no !in v.arrival) && (!deliver ==> v' == v)
            && (v'.arrival == if deliver then v.arrival[no := now] else v.arrival)
            && (deliver ==> v'.head == if no >= v.head then no + 1 else v.head)
            && (deliver ==>
                  var i := First(v.arrival, v.tail, v.head);
                  && (v'.tail > v.tail <==> (i < v.head && Old(v.arrival, i, now)) || no - v.tail >= MAX_HISTORY)
                  && (v'.tail > v.tail ==>
                        || (v'.tail - 1 in v.arrival && Old(v.arrival, v'.tail - 1, now))
                        || no - (v'.tail - 1) == MAX_HISTORY)
                  && (no < v.tail + MAX_HISTORY ==> Aged(v.arrival, v.tail, v.head, now, v'.tail)))
  {
    AgedTailIs(v.arrival, v.tail, v.head, now);
  }

  datatype Event = Event(no: nat, now: int)

  function ArriveAll(v: View, events: seq<Event>): (v': View)
    requires ViewOk(v)
    ensures ViewOk(v')
  {
    if events == [] then v
    else
      var before := ArriveAll(v, events[..|events| - 1]);
      var last := events[|events| - 1];
      ArriveMoves(before, last.no, last.now);
      Arrive(before, last.no, last.now).0
  }

  /** Everything delivered that is still in the window came in at `since` or later. */
  ghost predicate Recent(v: View, since: int) {
    forall s :: s in v.arrival && v.tail <= s < v.head ==> v.arrival[s] >= since
  }

  /**
   * Nothing asked for again is lost in time: while the clock is within the history time of the oldest
   * arrival in the window and no number is a ring above `b`, the tail does not pass `b`, and `b` has
   * been delivered at the end exactly if it was before or has come in.
   */
  lemma {:induction false} LateIsDelivered(v: View, events: seq<Event>, b: nat, since: int)
    requires ViewOk(v) && v.tail <= b && Recent(v, since)
    requires forall e :: e in events ==> since <= e.now <= since + HISTORY_TIME && e.no < b + MAX_HISTORY
    ensures var v' := ArriveAll(v, events);
            && v'.tail <= b && Recent(v', since)
            && (b in v'.arrival <==> b in v.arrival || exists e :: e in events && e.no == b)
  {
    if events != [] {
      var front, last := events[..|events| - 1], events[|events| - 1];
      assert events == front + [last];
      LateIsDelivered(v, front, b, since);
      ArriveMoves(ArriveAll(v, front), last.no, last.now);
    }
  }

  class Receiver {
    var head: nat
    var tail: nat
    const flags: array<bool>    // RECVD_CELL or EMPTY_CELL
    const stamps: array<int>
    ghost var arrival: map<nat, int>

    ghost function Abs(): View
      reads this
    {
      View(head, tail, arrival)
    }

    /** Within the window flags and time stamps tell what has been delivered and when. */
    ghost predicate Ring(lo: nat, hi: nat)
      requires flags.Length == MAX_HISTORY == stamps.Length
      reads this`arrival, flags, stamps
    {
      forall s: nat {:trigger Cell(s)} :: lo <= s < hi ==>
        (flags[Cell(s)] <==> s in arrival) && (s in arrival ==> stamps[Cell(s)] == arrival[s])
    }

    ghost predicate Valid()
      reads this, flags, stamps
    {
      && flags.Length == MAX_HISTORY == stamps.Length && flags as object != stamps
      && ViewOk(Abs()) && Ring(tail, head)
    }

    constructor ()
      ensures Valid() && Abs() == View(0, 0, map[])
    {
      head, tail, arrival := 0, 0, map[];
      flags := new bool[MAX_HISTORY](_ => false);
      stamps := new int[MAX_HISTORY](_ => 0);
    }

    /** The first number in the window that has come in. */
    method FindFirst() returns (i: nat)
      requires Valid()
      ensures i == First(arrival, tail, head)
    {
      i := tail;
      while i < head && !flags[Cell(i)]
        invariant tail <= i <= head && First(arrival, tail, head) == First(arrival, i, head)
      {
        i := i + 1;
      }
    }

    /** Moves the tail over packets older than the history time. */
    method AdvanceTail(now: int)
      requires Valid()
      modifies this`tail, flags
      ensures Valid() && tail == AgedTail(arrival, old(tail), head, now)
    {
      var stuck := false;
      while tail < head && !stuck
        invariant Valid() && old(tail) <= tail
        invariant AgedTail(arrival, old(tail), head, now) == AgedTail(arrival, tail, head, now)
        invariant stuck ==> tail == AgedTail(arrival, tail, head, now)
        decreases !stuck, head - tail
      {
        var i := FindFirst();
        if i == head || now - stamps[Cell(i)] <= HISTORY_TIME {
          stuck := true;
        } else {
          Pass(i);
        }
      }
    }

    /** Moves the tail behind number `i`. */
    method Pass(i: nat)
      requires Valid() && tail <= i < head
      modifies this`tail, flags
      ensures Valid() && tail == i + 1
    {
      CellsApart(i, i);
      flags[Cell(i)] := false;
      tail := i + 1;
    }

    /**
     * Makes room for a number at or above the head and clears the cells skipped; the oldest `room` of
     * them are asked for again.
     */
    method Jump(seqNo: nat, room: nat) returns (missing: seq<nat>)
      requires Valid() && seqNo >= head
      modifies this`tail, this`head, flags
      ensures head == seqNo + 1 && tail <= seqNo && head <= tail + MAX_HISTORY
      ensures tail == if seqNo - old(tail) >= MAX_HISTORY then seqNo + 1 - MAX_HISTORY else old(tail)
      ensures Ring(tail, seqNo)
      ensures |missing| == Min(room, seqNo - old(head))
      ensures forall k :: 0 <= k < |missing| ==> missing[k] == old(head) + k
    {
      MakeRoom(seqNo);
      missing := [];
      ghost var low := tail;
      var i := head;
      while i < seqNo
        invariant head == old(head) <= i <= seqNo && tail == low && Ring(tail, i)
        invariant |missing| == Min(room, i - head) && forall k :: 0 <= k < |missing| ==> missing[k] == head + k
      {
        if tail <= i {
          CellsApart(tail, i);
        }
        flags[Cell(i)] := false;
        if |missing| < room {
          missing := missing + [i];
        }
        i := i + 1;
      }
      head := seqNo + 1;
    }

    /** Moves the tail until number `seqNo` is within a ring of it. */
    method MakeRoom(seqNo: nat)
      requires Valid() && seqNo >= head
      modifies this`tail, flags
      ensures tail == if seqNo - old(tail) >= MAX_HISTORY then seqNo + 1 - MAX_HISTORY else old(tail)
      ensures Ring(tail, head)
    {
      while seqNo - tail >= MAX_HISTORY
        invariant old(tail) <= tail <= seqNo && Ring(tail, head)
        invariant tail > old(tail) ==> seqNo - tail >= MAX_HISTORY - 1
      {
        if tail < head {
          CellsApart(tail, tail);
        }
        flags[Cell(tail)] := false;
        tail := tail + 1;
      }
    }

    /** `Process_RT_UDP_data_packet`, and the numbers it asks for again. */
    method Process(seqNo: nat, now: int, room: nat) returns (deliver: bool, missing: seq<nat>)
      requires Valid()
      modifies this, flags, stamps
      ensures Valid() && (Abs(), deliver) == Arrive(old(Abs()), seqNo, now)
      ensures forall k :: 0 <= k < |missing| ==> old(head) <= missing[k] == old(head) + k < seqNo
      ensures |missing| == if seqNo > old(head) then Min(room, seqNo - old(head)) else 0
    {
      missing := [];
      if seqNo < tail || (seqNo < head && flags[Cell(seqNo)]) {
        return false, [];
      }
      deliver := true;
      ghost var tail0 := tail;
      AdvanceTail(now);
      if seqNo >= head {
        missing := Jump(seqNo, room);
        CellsApart(tail, seqNo);
      } else {
        CellsApart(tail0, seqNo);
      }
      flags[Cell(seqNo)] := true;
      stamps[Cell(seqNo)] := now;
      arrival := arrival[seqNo := now];
    }
  }

  // ----- Sending -----

  /**
   * What `Send_RT_Retransm` hands to the link: the requests in the history, as far as the tokens last
   * and up to the first send that fails; `ok` is the answer to the `n`-th send.
   */
  function Resent(requests: seq<nat>, tail: nat, head: nat, bucket: nat, ok: nat -> bool, n: nat): seq<nat> {
    if requests == [] then []
    else if requests[0] >= head || requests[0] < tail then Resent(requests[1..], tail, head, bucket, ok, n)
    else if bucket < RETRANSMIT_TOKENS then []
    else if !ok(n) then [requests[0]]
    else [requests[0]] + Resent(requests[1..], tail, head, bucket - RETRANSMIT_TOKENS, ok, n + 1)
  }

  /** The requests that the history can meet. */
  function Held(requests: seq<nat>, tail: nat, head: nat): seq<nat> {
    if requests == [] then []
    else (if tail <= requests[0] < head then [requests[0]] else []) + Held(requests[1..], tail, head)
  }

  /**
   * Every resent packet is paid for, and all requests that the history can meet are resent in order,
   * unless the tokens run out or a send fails: that one is the last.
   */
  lemma {:induction false} ResentPaid(requests: seq<nat>, tail: nat, head: nat, bucket: nat, ok: nat -> bool, n: nat)
    ensures var resent, held := Resent(requests, tail, head, bucket, ok, n), Held(requests, tail, head);
            && resent <= held && RETRANSMIT_TOKENS * |resent| <= bucket
            && (forall k :: n <= k < n + |resent| - 1 ==> ok(k))
            && (|resent| < |held| ==> bucket - RETRANSMIT_TOKENS * |resent| < RETRANSMIT_TOKENS ||
                                      (|resent| > 0 && !ok(n + |resent| - 1)))
  {
    if requests != [] && tail <= requests[0] < head {
      if bucket >= RETRANSMIT_TOKENS && ok(n) {
        ResentPaid(requests[1..], tail, head, bucket - RETRANSMIT_TOKENS, ok, n + 1);
      }
    } else if requests != [] {
      ResentPaid(requests[1..], tail, head, bucket, ok, n);
    }
  }

  datatype Entry<T> = Entry(data: T, stamp: int)

  class Sender<T> {
    var head: nat
    var tail: nat
    var bucket: nat
    const window: array<Entry<T>>
    ghost var sent: seq<T>       // every packet ever sent
    ghost var sentAt: seq<int>   // and when
    ghost var resent: nat        // how many were sent again

    /** The history holds the last packets sent; two data packets pay for a retransmission. */
    ghost predicate Valid()
      reads this, window
    {
      && window.Length == MAX_HISTORY && tail <= head == |sent| == |sentAt| && head <= tail + MAX_HISTORY
      && bucket <= MAX_BUCKET && bucket + RETRANSMIT_TOKENS * resent <= |sent|
      && forall s: nat {:trigger Cell(s)} :: tail <= s < head ==> window[Cell(s)] == Entry(sent[s], sentAt[s])
    }

    constructor (fill: T)
      ensures Valid() && sent == [] && resent == 0
    {
      head, tail, bucket, sent, sentAt, resent := 0, 0, 0, [], [], 0;
      window := new Entry<T>[MAX_HISTORY](_ => Entry(fill, 0));
    }

    /** `Clean_RT_history`: drops what is older than the history time from the front. */
    method Clean(now: int)
      requires Valid()
      modifies this`tail
      ensures Valid() && old(tail) <= tail <= head
      ensures forall s :: old(tail) <= s < tail ==> now - sentAt[s] > HISTORY_TIME
      ensures tail < head ==> now - sentAt[tail] <= HISTORY_TIME
    {
      while tail < head && now - window[Cell(tail)].stamp > HISTORY_TIME
        invariant Valid() && old(tail) <= tail <= head
        invariant forall s :: old(tail) <= s < tail ==> now - sentAt[s] > HISTORY_TIME
      {
        tail := tail + 1;
      }
    }

    /** `Forward_RT_UDP_Data`: the packet's number is the head; the oldest packet makes room if it must. */
    method Forward(data: T, now: int) returns (seqNo: nat)
      requires Valid()
      modifies this`head, this`tail, this`bucket, this`sent, this`sentAt, window
      ensures Valid() && seqNo == |old(sent)| && sent == old(sent) + [data] && old(tail) <= tail <= seqNo < head
      ensures sentAt == old(sentAt) + [now] && bucket == Min(old(bucket) + 1, MAX_BUCKET)
      ensures forall s :: old(tail) <= s < tail ==> now - sentAt[s] > HISTORY_TIME || s + MAX_HISTORY == seqNo
      ensures now - sentAt[tail] <= HISTORY_TIME || tail == seqNo || tail + MAX_HISTORY == head
    {
      Clean(now);
      if head - tail >= MAX_HISTORY {
        assert head - tail == MAX_HISTORY;
        tail := tail + 1;
      }
      seqNo := head;
      Store(data, now);
      if bucket < MAX_BUCKET {
        bucket := bucket + 1;
      }
    }

    /** Saves the packet in the history. */
    method Store(data: T, now: int)
      requires Valid() && head < tail + MAX_HISTORY
      modifies this`head, this`sent, this`sentAt, window
      ensures Valid() && head == old(head) + 1 && sent == old(sent) + [data] && sentAt == old(sentAt) + [now]
    {
      CellsApart(tail, head);
      window[Cell(head)] := Entry(data, now);
      sent, sentAt := sent + [data], sentAt + [now];
      head := head + 1;
    }

    /** Resends packet `s`, paid for with tokens. */
    method ResendOne(s: nat) returns (packet: (nat, T))
      requires Valid() && tail <= s < head && bucket >= RETRANSMIT_TOKENS
      modifies this`bucket, this`resent
      ensures Valid() && bucket == old(bucket) - RETRANSMIT_TOKENS && resent == old(resent) + 1
      ensures packet == (s, sent[s])
    {
      bucket := bucket - RETRANSMIT_TOKENS;
      resent := resent + 1;
      packet := (s, window[Cell(s)].data);
    }

    /** The packets are those numbered `nos`, with the data first sent. */
    ghost predicate Faithful(packets: seq<(nat, T)>, nos: seq<nat>)
      reads this`sent
    {
      |packets| == |nos| &&
      forall k :: 0 <= k < |packets| ==> packets[k].0 == nos[k] < |sent| && packets[k].1 == sent[packets[k].0]
    }

    /** `Send_RT_Retransm`: resends what was asked for, each packet with the data first sent under its number. */
    method Retransmit(requests: seq<nat>, now: int, ok: nat -> bool) returns (packets: seq<(nat, T)>)
      requires Valid()
      modifies this`tail, this`bucket, this`resent
      ensures Valid() && old(tail) <= tail && resent == old(resent) + |packets|
      ensures forall s :: old(tail) <= s < tail ==> now - sentAt[s] > HISTORY_TIME
      ensures tail < head ==> now - sentAt[tail] <= HISTORY_TIME
      ensures Faithful(packets, Resent(requests, tail, head, old(bucket), ok, 0))
    {
      Clean(now);
      packets := ResendAll(requests, ok);
    }

    /** The loop over the requests. */
    method ResendAll(requests: seq<nat>, ok: nat -> bool) returns (packets: seq<(nat, T)>)
      requires Valid()
      modifies this`bucket, this`resent
      ensures Valid() && resent == old(resent) + |packets|
      ensures Faithful(packets, Resent(requests, tail, head, old(bucket), ok, 0))
    {
      packets := [];
      var i, stop := 0, false;
      ghost var plan := Resent(requests, tail, head, bucket, ok, 0);
      ghost var rest := plan;
      assert requests[0..] == requests;
      while i < |requests| && !stop
        invariant i <= |requests| && Valid() && Prefixed(packets, plan, rest)
        invariant resent == old(resent) + |packets| && (stop ==> rest == [])
        invariant !stop ==> rest == Resent(requests[i..], tail, head, bucket, ok, |packets|)
        decreases |requests| - i, !stop
      {
        var s := requests[i];
        ResentStep(requests, i, tail, head, bucket, ok, |packets|);
        if tail <= s < head {
          stop := bucket < RETRANSMIT_TOKENS;
          if !stop {
            var packet := ResendOne(s);
            stop := !ok(|packets|);
            OneMore(packets, plan, rest, packet);
            packets, rest := packets + [packet], rest[1..];
          }
        }
        i := i + 1;
      }
    }

    /** What has been sent and what is left of the plan. */
    ghost predicate Prefixed(packets: seq<(nat, T)>, plan: seq<nat>, rest: seq<nat>)
      reads this`sent
    {
      |packets| + |rest| == |plan| && rest == plan[|packets|..] && Faithful(packets, plan[..|packets|])
    }

    lemma OneMore(packets: seq<(nat, T)>, plan: seq<nat>, rest: seq<nat>, packet: (nat, T))
      requires Prefixed(packets, plan, rest) && rest != [] && packet.0 == rest[0] < |sent| && packet.1 == sent[packet.0]
      ensures Prefixed(packets + [packet], plan, rest[1..])
    {
      var n := |packets|;
      assert plan[n..][1..] == plan[n + 1..] && plan[n] == plan[n..][0];
      assert plan[..n + 1] == plan[..n] + [plan[n]];
    }
  }

  lemma ResentStep(requests: seq<nat>, i: nat, tail: nat, head: nat, bucket: nat, ok: nat -> bool, n: nat)
    requires i < |requests|
    ensures Resent(requests[i..], tail, head, bucket, ok, n) ==
            if requests[i] >= head || requests[i] < tail then Resent(requests[i + 1..], tail, head, bucket, ok, n)
            else if bucket < RETRANSMIT_TOKENS then []
            else if !ok(n) then [requests[i]]
            else [requests[i]] + Resent(requests[i + 1..], tail, head, bucket - RETRANSMIT_TOKENS, ok, n + 1)
  {
    assert requests[i..][0] == requests[i] && requests[i..][1..] == requests[i + 1..];
  }
}

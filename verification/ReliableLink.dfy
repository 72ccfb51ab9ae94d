/**
 * The reliable link (daemon/reliable_datagram.c): a send window with a buffer behind it, a receive
 * window of flags, and two such ends over a network that loses, repeats and reorders packets.
 */
module ReliableLink {

  const MAX_WINDOW: nat := 20000

  datatype Option<T> = None | Some(value: T)

  function Slot(s: nat): (k: nat)
    ensures k < MAX_WINDOW
  {
    s % MAX_WINDOW
  }

  lemma SlotsApart(lo: nat, t: nat)
    requires lo <= t < lo + MAX_WINDOW
    ensures forall s: nat {:trigger Slot(s)} :: lo <= s < lo + MAX_WINDOW && s != t ==> Slot(s) != Slot(t)
  {
  }

  /** What one end knows of sequence numbers; `got` are the numbers it has reported as fresh. */
  datatype Side = Side(head: nat, tail: nat, recvHead: nat, recvTail: nat, got: set<nat>)

  const START := Side(0, 0, 0, 0, {})

  predicate SideOk(s: Side) {
    && s.tail <= s.head <= s.tail + MAX_WINDOW && s.recvTail <= s.recvHead && s.recvTail !in s.got
    && (forall k :: 0 <= k < s.recvTail ==> k in s.got) && (forall k :: k in s.got ==> k < s.recvHead)
    && (s.recvHead == 0 || s.recvHead - 1 in s.got)
  }

  /** The first number from `n` on that has not come in. */
  function NextGap(got: set<nat>, n: nat, limit: nat): (r: nat)
    requires n <= limit
    ensures n <= r <= limit && (forall k :: n <= k < r ==> k in got) && (r < limit ==> r !in got)
    decreases limit - n
  {
    if n < limit && n in got then NextGap(got, n + 1, limit) else n
  }

  /** `Process_Ack` for a packet with cumulative ack `cum` and, unless `ackOnly`, data under `no`. */
  function Process(s: Side, cum: nat, no: nat, ackOnly: bool): (r: (Side, int))
    requires s.recvTail <= s.recvHead
  {
    if cum > s.head then (s, 0)
    else
      var s1 := s.(tail := if cum > s.tail then cum else s.tail);
      if ackOnly then (s1, -1)
      else if no < s.recvTail || no in s.got then (s1, 0)
      else
        var got := s.got + {no};
        var top := if no >= s.recvHead then no + 1 else s.recvHead;
        (s1.(got := got, recvHead := top, recvTail := NextGap(got, s.recvTail, top)), 1)
  }

  /**
   * A number is fresh once: it is reported exactly if it never was before. Afterwards nothing below an
   * ack of numbers sent is kept, and nothing else is freed.
   */
  lemma ProcessKeeps(s: Side, cum: nat, no: nat, ackOnly: bool)
    requires SideOk(s)
    ensures var (s', code) := Process(s, cum, no, ackOnly);
            && SideOk(s') && s.recvTail <= s'.recvTail && s.tail <= s'.tail && s'.head == s.head
            && (code == 1 <==> cum <= s.head && !ackOnly && no !in s.got)
            && (s'.got == if code == 1 then s.got + {no} else s.got)
            && (cum <= s.head ==> cum <= s'.tail && (s'.tail == s.tail || s'.tail == cum))
            && (cum > s.head ==> s' == s)
  {
  }

  class Link<T> {
    var seqNo: nat
    var head: nat
    var tail: nat
    var buffer: seq<(nat, T)>
    const window: array<Option<T>>
    var recvHead: nat
    var recvTail: nat
    const received: array<bool>
    ghost var all: seq<T>      // every message handed to the link
    ghost var got: set<nat>

    ghost function Abs(): Side
      reads this
    {
      Side(head, tail, recvHead, recvTail, got)
    }

    /** Every slot of the window is filled, with the message of its number; the buffer goes on from there. */
    ghost predicate Sending()
      reads this, window
    {
      && window.Length == MAX_WINDOW && tail <= head <= tail + MAX_WINDOW && head + |buffer| == |all|
      && (forall k :: 0 <= k < |buffer| ==> buffer[k] == (head + k, all[head + k]))
      && Filled(tail, head)
    }

    ghost predicate Filled(lo: nat, hi: nat)
      requires window.Length == MAX_WINDOW && hi <= |all|
      reads this`all, window
    {
      forall s: nat {:trigger Slot(s)} :: lo <= s < hi ==> window[Slot(s)] == Some(all[s])
    }

    ghost predicate Flagged(lo: nat)
      requires received.Length == MAX_WINDOW
      reads this`got, received
    {
      forall s: nat {:trigger Slot(s)} :: lo <= s < lo + MAX_WINDOW ==> (received[Slot(s)] <==> s in got)
    }

    ghost predicate Receiving()
      reads this`got, this`recvTail, this`recvHead, received
    {
      && received.Length == MAX_WINDOW && Flagged(recvTail)
      && recvTail <= recvHead <= recvTail + MAX_WINDOW && recvTail !in got
      && (forall k :: 0 <= k < recvTail ==> k in got) && (forall k :: k in got ==> k < recvHead)
      && (recvHead == 0 || recvHead - 1 in got)
    }

    ghost predicate Valid()
      reads this, window, received
    {
      Sending() && Receiving() && seqNo == |all| && window as object != received
    }

    constructor ()
      ensures Valid() && all == [] && Abs() == START
    {
      seqNo, head, tail, buffer, recvHead, recvTail, all, got := 0, 0, 0, [], 0, 0, [], {};
      window := new Option<T>[MAX_WINDOW](_ => None);
      received := new bool[MAX_WINDOW](_ => false);
    }

    /** Puts the message with number `no` into its slot. */
    method Fill(no: nat, data: T, ghost lo: nat)
      requires window.Length == MAX_WINDOW && lo <= no < |all| && no < lo + MAX_WINDOW && data == all[no]
      requires Filled(lo, no)
      modifies window
      ensures Filled(lo, no + 1)
    {
      SlotsApart(lo, no);
      window[Slot(no)] := Some(data);
    }

    /** `Send_Much`: moves buffered messages into the window while there is room. */
    method SendMuch(size: real, connected: bool)
      requires Sending() && size <= MAX_WINDOW as real
      modifies this`head, this`buffer, window
      ensures Sending() && old(head) <= head
      ensures connected ==> buffer == [] || (head - tail) as real >= size
      ensures head > old(head) ==> connected && (head - 1 - tail) as real < size
    {
      if !connected {
        return;
      }
      while ((head - tail) as real) < size && buffer != []
        invariant Sending() && old(head) <= head && (head > old(head) ==> (head - 1 - tail) as real < size)
        decreases |buffer|
      {
        var (no, data) := buffer[0];
        assert head <= no;     // the exit for a smaller sequence number
        Fill(no, data, tail);
        buffer := buffer[1..];
        head := no + 1;
      }
    }

    /** `Reliable_Send_Msg`: the next number; into the window if nothing waits and there is room. */
    method SendMsg(data: T, size: real, connected: bool)
      requires Valid() && size <= MAX_WINDOW as real
      modifies this`seqNo, this`head, this`buffer, this`all, window
      ensures Valid() && all == old(all) + [data] && old(head) <= head
      ensures connected ==> buffer == [] || (head - tail) as real >= size
      ensures head > old(head) ==> connected && (head - 1 - tail) as real < size
    {
      var no := seqNo;
      seqNo := seqNo + 1;
      SendMuch(size, connected);
      if (head - tail) as real >= size || buffer != [] || !connected {
        Buffer(no, data);
      } else {
        assert head <= no;     // the exit for a smaller sequence number
        SendNow(no, data);
      }
    }

    /** The message waits behind those buffered. */
    method Buffer(no: nat, data: T)
      requires Sending() && no == |all|
      modifies this`buffer, this`all
      ensures Sending() && all == old(all) + [data] && buffer == old(buffer) + [(no, data)]
    {
      all := all + [data];
      buffer := buffer + [(no, data)];
    }

    /** The message goes into the window at once. */
    method SendNow(no: nat, data: T)
      requires Sending() && buffer == [] && no == |all| && head < tail + MAX_WINDOW
      modifies this`head, this`all, window
      ensures Sending() && all == old(all) + [data] && head == no + 1
    {
      all := all + [data];
      assert Filled(tail, head);
      Fill(no, data, tail);
      head := no + 1;
    }

    /** The cumulative ack frees the window; the exit for an empty slot is never taken. */
    method Free(cum: nat)
      requires Sending() && tail <= cum <= head
      modifies this`tail, window
      ensures Sending() && tail == cum
    {
      while tail < cum
        invariant Sending() && tail <= cum <= head
      {
        assert window[Slot(tail)].Some?;     // the exit for a reliability failure
        SlotsApart(tail, tail);
        window[Slot(tail)] := None;
        tail := tail + 1;
      }
    }

    /** Moves the tail over what has come in. */
    method MoveTail()
      requires received.Length == MAX_WINDOW && Flagged(recvTail) && recvTail <= recvHead <= recvTail + MAX_WINDOW
      requires forall k :: k in got ==> k < recvHead
      modifies this`recvTail, received
      ensures Flagged(recvTail) && recvTail == NextGap(got, old(recvTail), recvHead)
    {
      ghost var gap := NextGap(got, recvTail, recvHead);
      while recvTail < recvHead && received[Slot(recvTail)]
        invariant Flagged(recvTail) && recvTail <= recvHead <= recvTail + MAX_WINDOW
        invariant NextGap(got, recvTail, recvHead) == gap
      {
        SlotsApart(recvTail, recvTail);
        assert Slot(recvTail) == Slot(recvTail + MAX_WINDOW);
        received[Slot(recvTail)] := false;
        recvTail := recvTail + 1;
      }
    }

    /** Marks a number as received. */
    method Mark(no: nat)
      requires Receiving() && recvTail <= no < recvTail + MAX_WINDOW && no !in got
      modifies this`recvHead, this`recvTail, this`got, received
      ensures Receiving() && got == old(got) + {no}
      ensures recvHead == (if no >= old(recvHead) then no + 1 else old(recvHead))
      ensures recvTail == NextGap(got, old(recvTail), recvHead)
    {
      if no >= recvHead {
        recvHead := no + 1;
      }
      SlotsApart(recvTail, no);
      received[Slot(no)] := true;
      got := got + {no};
      MoveTail();
    }

    /** `Process_Ack`: -1 for an ack alone, 1 for fresh data, 0 otherwise. */
    method ProcessAck(cum: nat, no: nat, ackOnly: bool) returns (code: int)
      requires Valid() && no < recvTail + MAX_WINDOW
      modifies this`tail, this`recvHead, this`recvTail, this`got, window, received
      ensures Valid() && (Abs(), code) == Process(old(Abs()), cum, no, ackOnly)
    {
      if cum > head {
        return 0;
      }
      if cum > tail {
        Free(cum);
      }
      if ackOnly {
        return -1;
      }
      if received[Slot(no)] || no < recvTail {
        return 0;
      }
      Mark(no);
      code := 1;
    }
  }

  // ----- Two ends -----

  type Data = seq<nat>

  /** A packet with the message it carries, if any. */
  datatype Packet = Packet(src: nat, cum: nat, no: nat, ackOnly: bool, data: Option<Data>)

  /** `all` are the messages of each end that entered its window, `news` what each end reported as fresh. */
  datatype World = World(ends: seq<Side>, net: set<Packet>, all: seq<seq<Data>>, news: seq<map<nat, Data>>)

  datatype Step =
    | Admit(i: nat, m: Data)                        // a message enters the window
    | Transmit(i: nat, no: nat, ackOnly: bool)   // first or again
    | Hear(i: nat, p: Packet)

  ghost predicate Shaped(w: World) { |w.ends| == 2 == |w.all| == |w.news| }

  ghost function Report(news: map<nat, Data>, p: Packet): map<nat, Data>
    requires p.data.Some?
  {
    map n: nat | n in news.Keys + {p.no} :: if n == p.no then p.data.value else news[n]
  }

  ghost function Next(w: World, st: Step): (w': World)
    requires Shaped(w)
    ensures Shaped(w')
  {
    if st.i >= 2 then w else
    var i, e := st.i, w.ends[st.i];
    match st
    case Admit(_, m) =>
      if e.head < e.tail + MAX_WINDOW
      then w.(ends := w.ends[i := e.(head := e.head + 1)], all := w.all[i := w.all[i] + [m]]) else w
    case Transmit(_, no, ackOnly) =>
      if ackOnly then w.(net := w.net + {Packet(i, e.recvTail, 0, true, None)})
      else if e.tail <= no < e.head && no < |w.all[i]|
      then w.(net := w.net + {Packet(i, e.recvTail, no, false, Some(w.all[i][no]))}) else w
    case Hear(_, p) =>
      if p in w.net && p.src == 1 - i && e.recvTail <= e.recvHead then
        var (e', code) := Process(e, p.cum, p.no, p.ackOnly);
        w.(ends := w.ends[i := e'],
           news := if code == 1 && p.data.Some? then w.news[i := Report(w.news[i], p)] else w.news)
      else w
  }

  ghost function Run(steps: seq<Step>): (w: World)
    ensures Shaped(w)
  {
    if steps == [] then World([START, START], {}, [[], []], [map[], map[]])
    else Next(Run(steps[..|steps| - 1]), steps[|steps| - 1])
  }

  /** Nothing unreceived has been freed, and only what the other end has sent has come in, as it was sent. */
  ghost predicate Linked(e: Side, o: Side, news: map<nat, Data>, all: seq<Data>) {
    && SideOk(e) && o.tail <= e.recvTail && e.recvHead <= o.head == |all|
    && news.Keys == e.got && forall n :: n in news ==> n < |all| && news[n] == all[n]
  }

  ghost predicate Honest(w: World, p: Packet)
    requires Shaped(w)
  {
    && p.src < 2 && p.cum <= w.ends[p.src].recvTail && (p.ackOnly ==> p.no == 0)
    && (!p.ackOnly ==> p.no < w.ends[p.src].head && p.no < |w.all[p.src]| && p.data == Some(w.all[p.src][p.no]))
  }

  ghost predicate Inv(w: World) {
    && Shaped(w)
    && Linked(w.ends[0], w.ends[1], w.news[0], w.all[1]) && Linked(w.ends[1], w.ends[0], w.news[1], w.all[0])
    && forall p :: p in w.net ==> Honest(w, p)
  }

  lemma EndsLinked(w: World, i: nat)
    requires Inv(w) && i < 2
    ensures Linked(w.ends[i], w.ends[1 - i], w.news[i], w.all[1 - i])
  {
    assert i == 0 || i == 1;
  }

  /** Between honest ends every packet falls into the receive window and no ack is beyond the head. */
  lemma InWindow(w: World, i: nat, p: Packet)
    requires Inv(w) && i < 2 && p in w.net && p.src == 1 - i
    ensures p.no < w.ends[i].recvTail + MAX_WINDOW && p.cum <= w.ends[i].head
  {
    assert Honest(w, p);
  }

  /** One end takes in a packet of the other. */
  lemma LinkedHear(e: Side, o: Side, news: map<nat, Data>, all: seq<Data>, p: Packet)
    requires Linked(e, o, news, all) && (!p.ackOnly ==> p.no < |all| && p.data == Some(all[p.no]))
    ensures var (e', code) := Process(e, p.cum, p.no, p.ackOnly);
            && (code == 1 ==> p.data.Some?) && e.recvTail <= e'.recvTail
            && Linked(e', o, if code == 1 then Report(news, p) else news, all)
  {
    ProcessKeeps(e, p.cum, p.no, p.ackOnly);
  }

  /** What the other end knows of it still holds. */
  lemma LinkedHeard(e: Side, o: Side, back: map<nat, Data>, mine: seq<Data>, p: Packet)
    requires SideOk(e) && Linked(o, e, back, mine) && p.cum <= o.recvTail
    ensures Linked(o, Process(e, p.cum, p.no, p.ackOnly).0, back, mine)
  {
    ProcessKeeps(e, p.cum, p.no, p.ackOnly);
  }

  lemma HearKeeps(w: World, i: nat, p: Packet)
    requires Inv(w) && i < 2 && p in w.net && p.src == 1 - i
    ensures Inv(Next(w, Hear(i, p)))
  {
    assert Honest(w, p);
    LinkedHear(w.ends[i], w.ends[1 - i], w.news[i], w.all[1 - i], p);
    LinkedHeard(w.ends[i], w.ends[1 - i], w.news[1 - i], w.all[i], p);
    var w' := Next(w, Hear(i, p));
    assert w'.ends[i].head == w.ends[i].head && w'.ends[1 - i] == w.ends[1 - i] && w'.all == w.all;
    StillHonest(w, w');
  }

  lemma StillHonest(w: World, w': World)
    requires Shaped(w) && Shaped(w') && w'.net == w.net && w'.all == w.all && forall q :: q in w.net ==> Honest(w, q)
    requires forall i :: 0 <= i < 2 ==> w'.ends[i].head == w.ends[i].head && w'.ends[i].recvTail >= w.ends[i].recvTail
    ensures forall q :: q in w'.net ==> Honest(w', q)
  {
    forall q | q in w'.net ensures Honest(w', q) {
      assert Honest(w, q);
    }
  }

  /** What is heard is freed: the hearer keeps nothing that the ack covers and frees nothing else. */
  lemma HearFrees(w: World, i: nat, p: Packet)
    requires Inv(w) && i < 2 && p in w.net && p.src == 1 - i
    ensures var e, e' := w.ends[i], Next(w, Hear(i, p)).ends[i];
            && p.cum <= e'.tail <= w.ends[1 - i].recvTail && (e'.tail == e.tail || e'.tail == p.cum)
  {
    InWindow(w, i, p);
    assert Honest(w, p);
    var e, o := w.ends[i], w.ends[1 - i];
    assert SideOk(e) && e.tail <= o.recvTail;
    ProcessKeeps(e, p.cum, p.no, p.ackOnly);
  }

  lemma RunOne(steps: seq<Step>, st: Step)
    ensures Run(steps + [st]) == Next(Run(steps), st)
  {
    assert (steps + [st])[..|steps|] == steps;
  }

  /**
   * In every run: once an end has heard an ack of everything the other has received, its tail and the
   * other's receive tail agree.
   */
  lemma HeardIsFreed(steps: seq<Step>, i: nat, p: Packet)
    requires i < 2 && p in Run(steps).net && p.src == 1 - i
    ensures var w, w' := Run(steps), Run(steps + [Hear(i, p)]);
            && p.cum <= w'.ends[i].tail <= w.ends[1 - i].recvTail
            && (w'.ends[i].tail == w.ends[i].tail || w'.ends[i].tail == p.cum)
            && (p.cum == w.ends[1 - i].recvTail ==> w'.ends[i].tail == w'.ends[1 - i].recvTail)
  {
    RunKeeps(steps);
    RunOne(steps, Hear(i, p));
    HearFrees(Run(steps), i, p);
  }

  lemma AdmitKeeps(w: World, i: nat, m: Data)
    requires Inv(w) && i < 2
    ensures Inv(Next(w, Admit(i, m)))
  {
    var w' := Next(w, Admit(i, m));
    forall q | q in w.net ensures Honest(w', q) {
      assert Honest(w, q);
    }
  }

  lemma NextKeeps(w: World, st: Step)
    requires Inv(w)
    ensures Inv(Next(w, st))
  {
    if st.i < 2 {
      match st
      case Admit(i, m) => AdmitKeeps(w, i, m);
      case Transmit(i, no, ackOnly) =>
        forall q | q in Next(w, st).net ensures Honest(Next(w, st), q) {
          assert q in w.net ==> Honest(w, q);
        }
      case Hear(i, p) => if p in w.net && p.src == 1 - i { HearKeeps(w, i, p); }
    }
  }

  lemma {:induction false} RunKeeps(steps: seq<Step>)
    ensures Inv(Run(steps))
  {
    if steps != [] {
      RunKeeps(steps[..|steps| - 1]);
      NextKeeps(Run(steps[..|steps| - 1]), steps[|steps| - 1]);
    }
  }

  /**
   * In every run of two honest ends: nothing unreceived is freed; everything below the receive tail
   * has been reported fresh, and what was reported under a number is the message that the other end
   * handed to the link under it; and a packet on its way meets the requirement of `ProcessAck`.
   */
  lemma ReliableRun(steps: seq<Step>, i: nat, p: Packet)
    requires i < 2
    ensures var w := Run(steps); var e, o := w.ends[i], w.ends[1 - i];
            && o.tail <= e.recvTail <= o.head == |w.all[1 - i]|
            && (forall n :: 0 <= n < e.recvTail ==> n in w.news[i])
            && (forall n :: n in w.news[i] ==> n < |w.all[1 - i]| && w.news[i][n] == w.all[1 - i][n])
            && (p in w.net && p.src == 1 - i ==> p.no < e.recvTail + MAX_WINDOW && p.cum <= e.head)
  {
    RunKeeps(steps);
    var w := Run(steps);
    EndsLinked(w, i);
    if p in w.net && p.src == 1 - i {
      InWindow(w, i, p);
    }
  }

  // ----- No run is stuck -----

  /** Sending the number at the receive tail again and hearing it moves that tail. */
  lemma Progress(steps: seq<Step>, i: nat) returns (more: seq<Step>)
    requires i < 2 && Run(steps).ends[1 - i].recvTail < Run(steps).ends[i].head
    ensures var w, w' := Run(steps), Run(more);
            && steps <= more && w'.all == w.all && w'.ends[i] == w.ends[i]
            && w.ends[1 - i].recvTail < w'.ends[1 - i].recvTail
  {
    RunKeeps(steps);
    var w := Run(steps);
    var e, o := w.ends[i], w.ends[1 - i];
    EndsLinked(w, i);
    EndsLinked(w, 1 - i);
    var sent := Transmit(i, o.recvTail, false);
    var p := Packet(i, e.recvTail, o.recvTail, false, Some(w.all[i][o.recvTail]));
    RunOne(steps, sent);
    RunOne(steps + [sent], Hear(1 - i, p));
    ProcessKeeps(o, p.cum, p.no, p.ackOnly);
    more := steps + [sent] + [Hear(1 - i, p)];
  }

  lemma {:induction false} AllCanArrive(steps: seq<Step>, i: nat) returns (more: seq<Step>)
    requires i < 2
    ensures var w, w' := Run(steps), Run(more);
            steps <= more && w'.all == w.all && w'.ends[i] == w.ends[i] && w'.ends[1 - i].recvTail == w.ends[i].head
    decreases Run(steps).ends[i].head - Run(steps).ends[1 - i].recvTail
  {
    RunKeeps(steps);
    more := steps;
    if Run(steps).ends[1 - i].recvTail < Run(steps).ends[i].head {
      var once := Progress(steps, i);
      more := AllCanArrive(once, i);
    }
  }

  /**
   * No run is stuck: whatever has been lost, every run goes on to one in which all that an end has in
   * its window has been reported by the other end, and its window is empty.
   */
  lemma CanDrain(steps: seq<Step>, i: nat) returns (more: seq<Step>)
    requires i < 2
    ensures var w, w' := Run(steps), Run(more);
            && steps <= more && w'.all == w.all && w'.ends[i].tail == w'.ends[i].head == |w.all[i]|
            && forall n :: 0 <= n < |w.all[i]| ==> n in w'.news[1 - i] && w'.news[1 - i][n] == w.all[i][n]
  {
    var there := AllCanArrive(steps, i);
    var w := Run(there);
    var ack := Packet(1 - i, w.ends[1 - i].recvTail, 0, true, None);
    RunOne(there, Transmit(1 - i, 0, true));
    more := there + [Transmit(1 - i, 0, true)] + [Hear(i, ack)];
    HeardIsFreed(there + [Transmit(1 - i, 0, true)], i, ack);
    RunOne(there + [Transmit(1 - i, 0, true)], Hear(i, ack));
    RunKeeps(there);
    ReliableRun(more, 1 - i, ack);
  }
}

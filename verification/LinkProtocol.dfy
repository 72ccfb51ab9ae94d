/**
 * Two ends of an intrusion-tolerant link over a network that loses, repeats and reorders packets but
 * forges none. Either end may restart with a larger incarnation at any time and learns of the
 * other's restart at any later time, or never.
 */
module LinkProtocol {
  import opened Fragments
  import opened LinkSpec
  import opened LinkMessages

  /** The traffic of end `side` in incarnation `src` to the other end's incarnation `dst`. */
  datatype Key = Key(side: nat, src: nat, dst: nat)

  /** A log of it: the packets, how many may have been sent, how many were consumed, the messages. */
  datatype Chan = Chan(stream: seq<Cell>, sent: nat, taken: nat, epoch: seq<Message>)

  const EMPTY := Chan([], 1, 1, [])

  datatype Sent = Sent(side: nat, p: Packet)

  datatype World = World(ends: seq<Endpoint>, net: set<Sent>, hist: map<Key, Chan>)

  datatype Step =
    | Offer(i: nat, m: Message, cwnd: nat, rand: nat -> bv64)
    | Transmit(i: nat, s: nat)
    | Acknowledge(i: nat)
    | HearAck(i: nat, p: Packet, cwnd: nat, rand: nat -> bv64)
    | HearData(i: nat, p: Packet)
    | Learn(i: nat, ngbr: nat, reintroduce: bool, rand: nat -> bv64)
    | Restart(i: nat, my: nat)

  function At(h: map<Key, Chan>, k: Key): Chan { if k in h then h[k] else EMPTY }

  function Other(i: nat): (j: nat)
    requires i < 2
    ensures j < 2
  {
    1 - i
  }

  function OutKey(i: nat, e: Endpoint): Key { Key(i, e.my, e.ngbr) }

  function InKey(i: nat, e: Endpoint): Key
    requires i < 2
  {
    Key(Other(i), e.ngbr, e.my)
  }

  function Out(w: World, i: nat, e: Endpoint): World
    requires i < |w.ends|
  {
    OutWith(w, i, e, Chan(e.stream, e.tcpHead, At(w.hist, OutKey(i, e)).taken, e.epoch))
  }

  function OutWith(w: World, i: nat, e: Endpoint, c: Chan): World
    requires i < |w.ends|
  {
    World(w.ends[i := e], w.net, w.hist[OutKey(i, e) := c])
  }

  function In(w: World, i: nat, e: Endpoint): World
    requires i < |w.ends| && i < 2
  {
    var k := InKey(i, e);
    World(w.ends[i := e], w.net, w.hist[k := At(w.hist, k).(taken := e.inTail)])
  }

  function Send(w: World, i: nat, p: Packet): World { w.(net := w.net + {Sent(i, p)}) }

  const NONE := Cell(Piece([], 0), 0)

  /** The checks of the receive handlers; a cumulative ack in the window must carry the right digest. */
  function Heard(e: Endpoint, p: Packet, cap: nat, cwnd: nat, rand: nat -> bv64): Endpoint {
    if Accepts(e, p) && e.tcpHead <= OutHead(e) && AckInWindow(e, p) && NonceMatches(e, p)
    then TakeAck(e, p, cap, cwnd, rand) else e
  }

  /** One step; a step whose guard fails changes nothing. */
  ghost function Next(w: World, st: Step, cap: nat): World
    requires |w.ends| == 2
  {
    if st.i >= 2 then w else
    var i, e, o := st.i, w.ends[st.i], w.ends[Other(st.i)];
    match st
    case Offer(_, m, cwnd, rand) => if Sendable(m, cap) then Out(w, i, Submit(e, m, cap, cwnd, rand)) else w
    case Transmit(_, s) =>
      if 1 <= e.outTail <= s < e.tcpHead <= OutHead(e) && e.inTail > 0
      then Send(w, i, Stamp(e, s, e.stream[s - 1])) else w
    case Acknowledge(_) => if e.inTail > 0 then Send(w, i, Stamp(e, 0, NONE)) else w
    case HearAck(_, p, cwnd, rand) => if Sent(Other(i), p) in w.net then Out(w, i, Heard(e, p, cap, cwnd, rand)) else w
    case HearData(_, p) => if Sent(Other(i), p) in w.net && Accepts(e, p) then In(w, i, TakeData(e, p)) else w
    case Learn(_, ngbr, reintroduce, rand) =>
      if e.ngbr < ngbr <= o.my then Out(w, i, Learned(e, ngbr, reintroduce, cap, rand)) else w
    case Restart(_, my) => if my > e.my then Out(w, i, Fresh(my)) else w
  }

  ghost function Run(a: nat, b: nat, steps: seq<Step>, cap: nat): (w: World)
    ensures |w.ends| == 2
  {
    if steps == [] then World([Fresh(a), Fresh(b)], {}, map[])
    else Next(Run(a, b, steps[..|steps| - 1], cap), steps[|steps| - 1], cap)
  }

  // ----- The invariant -----

  ghost predicate ChanOk(c: Chan, cap: nat) {
    && 1 <= c.taken <= c.sent <= |c.stream| + 1
    && Sendables(c.epoch, cap) && PiecesOf(c.stream) <= AllPieces(c.epoch, cap)
  }

  predicate OutOk(c: Chan, e: Endpoint) {
    c.stream == e.stream && c.sent == e.tcpHead && e.outTail <= c.taken && c.epoch == e.epoch
  }

  predicate HeldOk(c: Chan, e: Endpoint) {
    forall s :: s in e.held ==> e.inTail <= s < e.inHead && s <= |c.stream| && s > 0 && e.held[s] == c.stream[s - 1]
  }

  ghost predicate InOk(c: Chan, e: Endpoint) {
    && c.taken == e.inTail && 1 <= e.inTail <= |c.stream| + 1 && e.inHead <= c.sent && HeldOk(c, e)
    && e.digest == Digest(c.stream, e.inTail - 1) && e.intake == ConsumeAll(NOTHING, c.stream[..e.inTail - 1])
  }

  /** Nothing was ever sent between incarnations that have not met. */
  ghost predicate Unmet(h: map<Key, Chan>, i: nat, e: Endpoint, o: Endpoint) {
    && e.ngbr <= o.my
    && (forall src: nat, dst: nat :: src > e.my || (src == e.my && dst > e.ngbr) || dst > o.my ==>
          At(h, Key(i, src, dst)) == EMPTY)
  }

  ghost predicate Untaken(h: map<Key, Chan>, i: nat, e: Endpoint)
    requires i < 2
  {
    forall src: nat :: src > e.ngbr ==> At(h, Key(Other(i), src, e.my)).taken == 1
  }

  ghost predicate EndOk(h: map<Key, Chan>, i: nat, e: Endpoint, cap: nat)
    requires i < 2
  {
    && Windows(e) && Whole(e, cap) && Packed(e)
    && OutOk(At(h, OutKey(i, e)), e) && InOk(At(h, InKey(i, e)), e) && e.inTail !in e.held
  }

  ghost predicate DataOk(c: Chan, p: Packet) {
    p.no > 0 ==> p.no < c.sent && p.no <= |c.stream| && p.cell == c.stream[p.no - 1]
  }

  ghost predicate AckOk(c: Chan, p: Packet) {
    p.aru < c.taken && p.aru <= |c.stream| && p.aruNonce == Digest(c.stream, p.aru)
  }

  ghost predicate PacketOk(h: map<Key, Chan>, s: Sent) {
    && s.side < 2
    && DataOk(At(h, Key(s.side, s.p.inc, s.p.aruInc)), s.p)
    && AckOk(At(h, Key(Other(s.side), s.p.aruInc, s.p.inc)), s.p)
  }

  ghost predicate SideOk(h: map<Key, Chan>, i: nat, e: Endpoint, o: Endpoint, cap: nat)
    requires i < 2
  {
    EndOk(h, i, e, cap) && Unmet(h, i, e, o) && Untaken(h, i, e)
  }

  ghost predicate NetOk(h: map<Key, Chan>, net: set<Sent>) { forall s :: s in net ==> PacketOk(h, s) }

  ghost predicate HistOk(h: map<Key, Chan>, cap: nat) { forall k: Key :: ChanOk(At(h, k), cap) }

  ghost predicate Inv(w: World, cap: nat) {
    && |w.ends| == 2 && HistOk(w.hist, cap) && NetOk(w.hist, w.net)
    && SideOk(w.hist, 0, w.ends[0], w.ends[1], cap) && SideOk(w.hist, 1, w.ends[1], w.ends[0], cap)
  }

  // ----- A log entry moves forward -----

  predicate Grows(c: Chan, c': Chan) {
    c.stream <= c'.stream && c.sent <= c'.sent && c.taken <= c'.taken && c.epoch <= c'.epoch
  }

  lemma PacketGrows(h: map<Key, Chan>, k: Key, c: Chan, s: Sent)
    requires PacketOk(h, s) && Grows(At(h, k), c)
    ensures PacketOk(h[k := c], s)
  {
    var ack := Key(Other(s.side), s.p.aruInc, s.p.inc);
    if ack == k {
      DigestPrefix(At(h, k).stream, c.stream, s.p.aru);
    }
  }

  lemma NetGrows(h: map<Key, Chan>, k: Key, c: Chan, net: set<Sent>)
    requires NetOk(h, net) && Grows(At(h, k), c)
    ensures NetOk(h[k := c], net)
  {
    forall s | s in net ensures PacketOk(h[k := c], s) {
      PacketGrows(h, k, c, s);
    }
  }

  lemma HistGrows(h: map<Key, Chan>, k: Key, c: Chan, cap: nat)
    requires HistOk(h, cap) && ChanOk(c, cap)
    ensures HistOk(h[k := c], cap)
  {
    var h' := h[k := c];
    forall j: Key ensures ChanOk(At(h', j), cap) {
      assert ChanOk(At(h, j), cap);
    }
  }

  /** The receiver's view of a log that gains packets. */
  lemma InGrows(c: Chan, c': Chan, e: Endpoint)
    requires InOk(c, e) && Grows(c, c') && c.taken == c'.taken
    ensures InOk(c', e)
  {
    DigestPrefix(c.stream, c'.stream, e.inTail - 1);
    assert c.stream[..e.inTail - 1] == c'.stream[..e.inTail - 1];
    forall s | s in e.held
      ensures e.inTail <= s < e.inHead && s <= |c'.stream| && s > 0 && e.held[s] == c'.stream[s - 1]
    {
      assert e.held[s] == c.stream[s - 1];
    }
  }

  /** The other end while end `i` moves its own outgoing log forward. */
  lemma PeerOfOut(h: map<Key, Chan>, i: nat, e: Endpoint, e': Endpoint, o: Endpoint, c: Chan, cap: nat)
    requires i < 2 && SideOk(h, Other(i), o, e, cap) && e.my <= e'.my
    requires var k := OutKey(i, e'); Grows(At(h, k), c) && At(h, k).taken == c.taken
    ensures SideOk(h[OutKey(i, e') := c], Other(i), o, e', cap)
  {
    var k := OutKey(i, e');
    var h' := h[k := c];
    if InKey(Other(i), o) == k {
      InGrows(At(h, k), c, o);
    }
    forall src: nat | src > o.ngbr ensures At(h', Key(i, src, o.my)).taken == 1 {
      assert At(h, Key(Other(Other(i)), src, o.my)).taken == 1;
    }
  }

  lemma OwnOut(h: map<Key, Chan>, i: nat, e: Endpoint, e': Endpoint, o: Endpoint, c: Chan, cap: nat)
    requires i < 2 && SideOk(h, i, e, o, cap) && SideOk(h, Other(i), o, e, cap)
    requires e.my < e'.my || (e.my == e'.my && e.ngbr <= e'.ngbr)
    requires e'.ngbr <= o.my && Windows(e') && Whole(e', cap) && Packed(e')
    requires OutOk(c, e') && InOk(At(h, InKey(i, e')), e') && e'.inTail !in e'.held
    ensures SideOk(h[OutKey(i, e') := c], i, e', o, cap)
  {
    var k := OutKey(i, e');
    var h' := h[k := c];
    forall src: nat, dst: nat | src > e'.my || (src == e'.my && dst > e'.ngbr) || dst > o.my
      ensures At(h', Key(i, src, dst)) == EMPTY
    {
      assert At(h, Key(i, src, dst)) == EMPTY;
    }
    forall src: nat | src > e'.ngbr ensures At(h', Key(Other(i), src, e'.my)).taken == 1 {
      if e'.my == e.my {
        assert At(h, Key(Other(i), src, e.my)).taken == 1;
      } else {
        assert At(h, Key(Other(i), src, e'.my)) == EMPTY;
      }
    }
  }

  /** What a change of the outgoing side must respect. */
  ghost predicate OutMove(w: World, i: nat, e': Endpoint, cap: nat)
    requires |w.ends| == 2 && i < 2
  {
    var e, o, c := w.ends[i], w.ends[Other(i)], At(w.hist, OutKey(i, e'));
    && (e.my < e'.my || (e.my == e'.my && e.ngbr <= e'.ngbr)) && e'.ngbr <= o.my
    && Windows(e') && Whole(e', cap) && Packed(e')
    && InOk(At(w.hist, InKey(i, e')), e') && e'.inTail !in e'.held
    && c.stream <= e'.stream && c.sent <= e'.tcpHead && c.epoch <= e'.epoch && e'.outTail <= c.taken
  }

  lemma WholePrefix(e: Endpoint, cap: nat)
    requires Whole(e, cap)
    ensures PiecesOf(e.stream) <= AllPieces(e.epoch, cap)
  {
  }

  lemma OutChan(w: World, i: nat, e': Endpoint, cap: nat) returns (c: Chan)
    requires Inv(w, cap) && i < 2 && OutMove(w, i, e', cap)
    ensures c == Chan(e'.stream, e'.tcpHead, At(w.hist, OutKey(i, e')).taken, e'.epoch)
    ensures ChanOk(c, cap) && Grows(At(w.hist, OutKey(i, e')), c) && OutOk(c, e')
  {
    assert ChanOk(At(w.hist, OutKey(i, e')), cap);
    WholePrefix(e', cap);
    c := Chan(e'.stream, e'.tcpHead, At(w.hist, OutKey(i, e')).taken, e'.epoch);
  }

  lemma Assemble(w: World, i: nat, cap: nat)
    requires |w.ends| == 2 && i < 2 && HistOk(w.hist, cap) && NetOk(w.hist, w.net)
    requires SideOk(w.hist, i, w.ends[i], w.ends[Other(i)], cap)
    requires SideOk(w.hist, Other(i), w.ends[Other(i)], w.ends[i], cap)
    ensures Inv(w, cap)
  {
    if i == 0 {
      assert Other(0) == 1;
    } else {
      assert i == 1 && Other(1) == 0;
    }
  }

  lemma AssembleOut(w: World, i: nat, e': Endpoint, c: Chan, cap: nat)
    requires |w.ends| == 2 && i < 2
    requires var h' := w.hist[OutKey(i, e') := c];
             HistOk(h', cap) && NetOk(h', w.net) && SideOk(h', i, e', w.ends[Other(i)], cap) &&
             SideOk(h', Other(i), w.ends[Other(i)], e', cap)
    ensures Inv(OutWith(w, i, e', c), cap)
  {
    Assemble(OutWith(w, i, e', c), i, cap);
  }

  /** The log entry of the outgoing traffic is replaced by `c`. */
  lemma OutParts(h: map<Key, Chan>, net: set<Sent>, i: nat, e: Endpoint, e': Endpoint, o: Endpoint, c: Chan, cap: nat)
    requires i < 2 && HistOk(h, cap) && NetOk(h, net) && SideOk(h, i, e, o, cap) && SideOk(h, Other(i), o, e, cap)
    requires e.my < e'.my || (e.my == e'.my && e.ngbr <= e'.ngbr)
    requires e'.ngbr <= o.my && Windows(e') && Whole(e', cap) && Packed(e')
    requires OutOk(c, e') && InOk(At(h, InKey(i, e')), e') && e'.inTail !in e'.held
    requires ChanOk(c, cap) && Grows(At(h, OutKey(i, e')), c) && At(h, OutKey(i, e')).taken == c.taken
    ensures var h' := h[OutKey(i, e') := c];
            HistOk(h', cap) && NetOk(h', net) && SideOk(h', i, e', o, cap) && SideOk(h', Other(i), o, e', cap)
  {
    HistGrows(h, OutKey(i, e'), c, cap);
    NetGrows(h, OutKey(i, e'), c, net);
    OwnOut(h, i, e, e', o, c, cap);
    PeerOfOut(h, i, e, e', o, c, cap);
  }

  lemma OutStep(w: World, i: nat, e': Endpoint, cap: nat)
    requires Inv(w, cap) && i < 2 && OutMove(w, i, e', cap)
    ensures Inv(Out(w, i, e'), cap)
  {
    FactsOf(w, i, cap);
    var c := OutChan(w, i, e', cap);
    OutParts(w.hist, w.net, i, w.ends[i], e', w.ends[Other(i)], c, cap);
    AssembleOut(w, i, e', c, cap);
  }

  lemma OutTo(w: World, i: nat, e': Endpoint, cap: nat) returns (w': World)
    requires Inv(w, cap) && i < 2 && OutMove(w, i, e', cap)
    ensures w' == Out(w, i, e') && Inv(w', cap)
  {
    OutStep(w, i, e', cap);
    w' := Out(w, i, e');
  }

  // ----- The steps -----

  lemma FactsOf(w: World, i: nat, cap: nat)
    requires Inv(w, cap) && i < 2
    ensures SideOk(w.hist, i, w.ends[i], w.ends[Other(i)], cap)
    ensures SideOk(w.hist, Other(i), w.ends[Other(i)], w.ends[i], cap)
  {
    if i == 0 {
      assert Other(0) == 1;
    } else {
      assert i == 1 && Other(1) == 0;
    }
  }

  lemma PackKeeps(e: Endpoint, cap: nat, rand: nat -> bv64)
    requires Whole(e, cap) && Windows(e)
    ensures var e' := PackLoop(e, cap, rand);
            && Whole(e', cap) && Packed(e') && Windows(e') && e.stream <= e'.stream
            && e' == e.(stream := e'.stream, pending := e'.pending)
  {
    PackLoopWhole(e, cap, rand);
    PackLoopBound(e, cap, rand);
  }

  /** The sending side moves on, the receiving side and the incarnations stay. */
  ghost predicate Forward(e: Endpoint, e': Endpoint, cap: nat) {
    && Windows(e') && Whole(e', cap) && Packed(e')
    && e.stream <= e'.stream && e.tcpHead <= e'.tcpHead && e.epoch <= e'.epoch
    && e' == e.(stream := e'.stream, outTail := e'.outTail, tcpHead := e'.tcpHead, pending := e'.pending,
                epoch := e'.epoch)
  }

  lemma ForwardStep(w: World, i: nat, e': Endpoint, cap: nat)
    requires Inv(w, cap) && i < 2 && Forward(w.ends[i], e', cap)
    requires e'.outTail <= At(w.hist, OutKey(i, e')).taken
    ensures Inv(Out(w, i, e'), cap)
  {
    ForwardMove(w, i, e', cap);
    OutStep(w, i, e', cap);
  }

  /** The receiving side's facts carry over when only the sending side moves. */
  lemma InSame(c: Chan, e: Endpoint, e': Endpoint)
    requires InOk(c, e) && e.inTail !in e.held && e'.inTail == e.inTail && e'.inHead == e.inHead
    requires e'.held == e.held && e'.digest == e.digest && e'.intake == e.intake
    ensures InOk(c, e') && e'.inTail !in e'.held
  {
  }

  lemma ForwardMove(w: World, i: nat, e': Endpoint, cap: nat)
    requires Inv(w, cap) && i < 2 && Forward(w.ends[i], e', cap)
    requires e'.outTail <= At(w.hist, OutKey(i, e')).taken
    ensures OutMove(w, i, e', cap)
  {
    FactsOf(w, i, cap);
    var e := w.ends[i];
    assert OutKey(i, e') == OutKey(i, e) && InKey(i, e') == InKey(i, e);
    InSame(At(w.hist, InKey(i, e)), e, e');
  }

  lemma ForwardTo(w: World, i: nat, e': Endpoint, cap: nat) returns (w': World)
    requires Inv(w, cap) && i < 2 && Forward(w.ends[i], e', cap)
    requires e'.outTail <= At(w.hist, OutKey(i, e')).taken
    ensures w' == Out(w, i, e') && Inv(w', cap)
  {
    ForwardStep(w, i, e', cap);
    w' := Out(w, i, e');
  }

  lemma OfferForward(e: Endpoint, m: Message, cap: nat, cwnd: nat, rand: nat -> bv64)
    requires Windows(e) && Whole(e, cap) && Packed(e) && Sendable(m, cap)
    ensures var e' := Submit(e, m, cap, cwnd, rand); Forward(e, e', cap) && e'.outTail == e.outTail
  {
    if e.pending.Idle? {
      StartWhole(e, m, cap);
      PackKeeps(e.(pending := Packing(m, 1), epoch := e.epoch + [m]), cap, rand);
    }
  }

  lemma OfferStep(w: World, i: nat, m: Message, cap: nat, cwnd: nat, rand: nat -> bv64) returns (w': World)
    requires Inv(w, cap) && i < 2
    ensures w' == Next(w, Offer(i, m, cwnd, rand), cap) && Inv(w', cap)
  {
    NextOffer(w, i, m, cap, cwnd, rand);
    if Sendable(m, cap) {
      FactsOf(w, i, cap);
      OfferForward(w.ends[i], m, cap, cwnd, rand);
      w' := ForwardTo(w, i, Submit(w.ends[i], m, cap, cwnd, rand), cap);
    } else {
      w' := w;
    }
  }

  lemma NextOffer(w: World, i: nat, m: Message, cap: nat, cwnd: nat, rand: nat -> bv64)
    requires |w.ends| == 2 && i < 2
    ensures Next(w, Offer(i, m, cwnd, rand), cap) ==
            if Sendable(m, cap) then Out(w, i, Submit(w.ends[i], m, cap, cwnd, rand)) else w
  {
  }

  lemma HeardForward(e: Endpoint, p: Packet, cap: nat, cwnd: nat, rand: nat -> bv64)
    requires Windows(e) && Whole(e, cap) && Packed(e)
    ensures var e' := Heard(e, p, cap, cwnd, rand);
            Forward(e, e', cap) && (e'.outTail == e.outTail || (Accepts(e, p) && e'.outTail == p.aru + 1))
  {
    if Accepts(e, p) && AckInWindow(e, p) && NonceMatches(e, p) {
      var e' := AckForward(e, p, cap, cwnd, rand);
    }
  }

  lemma AckForward(e: Endpoint, p: Packet, cap: nat, cwnd: nat, rand: nat -> bv64) returns (e': Endpoint)
    requires Windows(e) && Whole(e, cap) && Packed(e) && AckInWindow(e, p)
    ensures e' == TakeAck(e, p, cap, cwnd, rand) && Forward(e, e', cap) && e'.outTail == p.aru + 1
  {
    var wide := OpenWindow(e.(outTail := p.aru + 1), cwnd);
    PackKeeps(wide, cap, rand);
    e' := PackLoop(wide, cap, rand);
  }

  /** An ack frees no more than has been consumed. */
  lemma HeardTail(e: Endpoint, c: Chan, p: Packet, cap: nat, cwnd: nat, rand: nat -> bv64) returns (e': Endpoint)
    requires Windows(e) && Whole(e, cap) && Packed(e) && OutOk(c, e) && (Accepts(e, p) ==> AckOk(c, p))
    ensures e' == Heard(e, p, cap, cwnd, rand) && Forward(e, e', cap) && e'.outTail <= c.taken
  {
    HeardForward(e, p, cap, cwnd, rand);
    e' := Heard(e, p, cap, cwnd, rand);
  }

  lemma NextHear(w: World, i: nat, p: Packet, cap: nat, cwnd: nat, rand: nat -> bv64)
    requires |w.ends| == 2 && i < 2
    ensures Next(w, HearAck(i, p, cwnd, rand), cap) ==
            if Sent(Other(i), p) in w.net then Out(w, i, Heard(w.ends[i], p, cap, cwnd, rand)) else w
  {
  }

  /** The acks on the network are about the stream of the end that accepts them. */
  lemma HeardAckOk(w: World, i: nat, p: Packet, cap: nat)
    requires Inv(w, cap) && i < 2 && Sent(Other(i), p) in w.net && Accepts(w.ends[i], p)
    ensures AckOk(At(w.hist, OutKey(i, w.ends[i])), p)
  {
    assert PacketOk(w.hist, Sent(Other(i), p)) && Other(Other(i)) == i;
  }

  lemma HearAckStep(w: World, i: nat, p: Packet, cap: nat, cwnd: nat, rand: nat -> bv64) returns (w': World)
    requires Inv(w, cap) && i < 2
    ensures w' == Next(w, HearAck(i, p, cwnd, rand), cap) && Inv(w', cap)
  {
    NextHear(w, i, p, cap, cwnd, rand);
    if Sent(Other(i), p) in w.net {
      w' := HearOut(w, i, p, cap, cwnd, rand);
    } else {
      w' := w;
    }
  }

  lemma HearOut(w: World, i: nat, p: Packet, cap: nat, cwnd: nat, rand: nat -> bv64) returns (w': World)
    requires Inv(w, cap) && i < 2 && Sent(Other(i), p) in w.net
    ensures w' == Next(w, HearAck(i, p, cwnd, rand), cap) && Inv(w', cap)
  {
    FactsOf(w, i, cap);
    if Accepts(w.ends[i], p) {
      HeardAckOk(w, i, p, cap);
    }
    var e' := HeardTail(w.ends[i], At(w.hist, OutKey(i, w.ends[i])), p, cap, cwnd, rand);
    w' := ForwardTo(w, i, e', cap);
    NextHear(w, i, p, cap, cwnd, rand);
  }

  lemma FreshOk(my: nat, cap: nat)
    requires my > 0
    ensures Windows(Fresh(my)) && Whole(Fresh(my), cap) && Packed(Fresh(my)) && Clean(Fresh(my)) && ChanOk(EMPTY, cap)
  {
  }

  lemma RestartMove(w: World, i: nat, my: nat, cap: nat)
    requires Inv(w, cap) && i < 2 && my > w.ends[i].my
    ensures OutMove(w, i, Fresh(my), cap)
  {
    RestartEmpty(w, i, my, cap);
    FreshOk(my, cap);
    CleanIn(EMPTY, Fresh(my), cap);
  }

  lemma RestartEmpty(w: World, i: nat, my: nat, cap: nat)
    requires Inv(w, cap) && i < 2 && my > w.ends[i].my
    ensures At(w.hist, OutKey(i, Fresh(my))) == EMPTY && At(w.hist, InKey(i, Fresh(my))) == EMPTY
  {
    FactsOf(w, i, cap);
    assert At(w.hist, Key(i, my, 0)) == EMPTY;
    assert At(w.hist, Key(Other(i), 0, my)) == EMPTY;
  }

  lemma RestartStep(w: World, i: nat, my: nat, cap: nat) returns (w': World)
    requires Inv(w, cap) && i < 2
    ensures w' == Next(w, Restart(i, my), cap) && Inv(w', cap)
  {
    NextRestart(w, i, my, cap);
    if my > w.ends[i].my {
      RestartMove(w, i, my, cap);
      w' := OutTo(w, i, Fresh(my), cap);
    } else {
      w' := w;
    }
  }

  lemma NextRestart(w: World, i: nat, my: nat, cap: nat)
    requires |w.ends| == 2 && i < 2
    ensures Next(w, Restart(i, my), cap) == if my > w.ends[i].my then Out(w, i, Fresh(my)) else w
  {
  }

  /** A receiving side that starts over. */
  predicate Clean(e: Endpoint) {
    e.inTail == e.inHead == 1 && e.held == map[] && e.digest == 0 && e.intake == NOTHING
  }

  lemma ReintroduceWindows(r: Endpoint, cap: nat, rand: nat -> bv64)
    requires Windows(r) && Clean(r)
    ensures var e' := Reintroduce(r, cap, rand);
            Windows(e') && e'.outTail == 1 && e'.my == r.my && e'.ngbr == r.ngbr && Clean(e')
  {
    var kept := Renumber(Survivors(Window(r)), rand);
    SurvivorsSuffix(Window(r));
    var later := r.epoch[Cut(r.epoch, cap, r.outTail - 1)..];
    var r1 := r.(stream := kept, outTail := 1, tcpHead := Min(2, |kept| + 1), epoch := later);
    PackLoopBound(r1, cap, rand);
    assert Reintroduce(r, cap, rand) == PackLoop(r1, cap, rand);
  }

  lemma LearnedKeeps(e: Endpoint, ngbr: nat, reintroduce: bool, cap: nat, rand: nat -> bv64) returns (e': Endpoint)
    requires Windows(e) && Whole(e, cap) && Packed(e)
    ensures e' == Learned(e, ngbr, reintroduce, cap, rand)
    ensures Windows(e') && Whole(e', cap) && Packed(e')
    ensures e'.outTail == 1 && e'.my == e.my && e'.ngbr == ngbr && Clean(e')
  {
    var r := ResetIn(e, ngbr);
    e' := Learned(e, ngbr, reintroduce, cap, rand);
    if reintroduce {
      ReintroduceWhole(r, cap, rand);
      ReintroduceWindows(r, cap, rand);
    }
  }

  lemma CleanIn(c: Chan, e: Endpoint, cap: nat)
    requires ChanOk(c, cap) && c.taken == 1 && Clean(e)
    ensures InOk(c, e) && e.inTail !in e.held
  {
  }

  lemma LearnMove(w: World, i: nat, ngbr: nat, reintroduce: bool, cap: nat, rand: nat -> bv64) returns (e': Endpoint)
    requires Inv(w, cap) && i < 2 && w.ends[i].ngbr < ngbr <= w.ends[Other(i)].my
    ensures e' == Learned(w.ends[i], ngbr, reintroduce, cap, rand) && OutMove(w, i, e', cap)
  {
    var e := w.ends[i];
    FactsOf(w, i, cap);
    e' := LearnedKeeps(e, ngbr, reintroduce, cap, rand);
    assert At(w.hist, Key(i, e.my, ngbr)) == EMPTY;
    assert At(w.hist, Key(Other(i), ngbr, e.my)).taken == 1;
    CleanIn(At(w.hist, Key(Other(i), ngbr, e.my)), e', cap);
  }

  lemma LearnStep(w: World, i: nat, ngbr: nat, reintroduce: bool, cap: nat, rand: nat -> bv64) returns (w': World)
    requires Inv(w, cap) && i < 2
    ensures w' == Next(w, Learn(i, ngbr, reintroduce, rand), cap) && Inv(w', cap)
  {
    NextLearn(w, i, ngbr, reintroduce, cap, rand);
    if w.ends[i].ngbr < ngbr <= w.ends[Other(i)].my {
      w' := LearnOut(w, i, ngbr, reintroduce, cap, rand);
    } else {
      w' := w;
    }
  }

  lemma LearnOut(w: World, i: nat, ngbr: nat, reintroduce: bool, cap: nat, rand: nat -> bv64) returns (w': World)
    requires Inv(w, cap) && i < 2 && w.ends[i].ngbr < ngbr <= w.ends[Other(i)].my
    ensures w' == Next(w, Learn(i, ngbr, reintroduce, rand), cap) && Inv(w', cap)
  {
    var e' := LearnMove(w, i, ngbr, reintroduce, cap, rand);
    w' := OutTo(w, i, e', cap);
    NextLearn(w, i, ngbr, reintroduce, cap, rand);
  }

  lemma NextLearn(w: World, i: nat, ngbr: nat, reintroduce: bool, cap: nat, rand: nat -> bv64)
    requires |w.ends| == 2 && i < 2
    ensures Next(w, Learn(i, ngbr, reintroduce, rand), cap) ==
            if w.ends[i].ngbr < ngbr <= w.ends[Other(i)].my
            then Out(w, i, Learned(w.ends[i], ngbr, reintroduce, cap, rand)) else w
  {
  }

  lemma StampOk(h: map<Key, Chan>, i: nat, e: Endpoint, s: nat, c: Cell, cap: nat)
    requires i < 2 && EndOk(h, i, e, cap)
    requires s == 0 || (e.outTail <= s < e.tcpHead && c == e.stream[s - 1])
    ensures PacketOk(h, Sent(i, Stamp(e, s, c)))
  {
  }

  lemma SendTo(w: World, i: nat, p: Packet, cap: nat) returns (w': World)
    requires Inv(w, cap) && i < 2 && PacketOk(w.hist, Sent(i, p))
    ensures w' == Send(w, i, p) && Inv(w', cap)
  {
    w' := Send(w, i, p);
  }

  /** What either end stamps may go out. */
  lemma StampTo(w: World, i: nat, s: nat, c: Cell, cap: nat) returns (w': World)
    requires Inv(w, cap) && i < 2
    requires var e := w.ends[i];
             s == 0 || (e.outTail <= s < e.tcpHead && s <= |e.stream| && c == e.stream[s - 1])
    ensures w.ends[i].inTail > 0 && w' == Send(w, i, Stamp(w.ends[i], s, c)) && Inv(w', cap)
  {
    FactsOf(w, i, cap);
    StampOk(w.hist, i, w.ends[i], s, c, cap);
    w' := SendTo(w, i, Stamp(w.ends[i], s, c), cap);
  }

  lemma TransmitStep(w: World, i: nat, s: nat, cap: nat) returns (w': World)
    requires Inv(w, cap) && i < 2
    ensures w' == Next(w, Transmit(i, s), cap) && Inv(w', cap)
  {
    NextTransmit(w, i, s, cap);
    if MaySend(w.ends[i], s) {
      w' := StampTo(w, i, s, w.ends[i].stream[s - 1], cap);
    } else {
      w' := w;
    }
  }

  /** Packet `s` is in the usable window. */
  predicate MaySend(e: Endpoint, s: nat) { 1 <= e.outTail <= s < e.tcpHead <= OutHead(e) && e.inTail > 0 }

  lemma NextTransmit(w: World, i: nat, s: nat, cap: nat)
    requires |w.ends| == 2 && i < 2
    ensures var e := w.ends[i];
            Next(w, Transmit(i, s), cap) == if MaySend(e, s) then Send(w, i, Stamp(e, s, e.stream[s - 1])) else w
  {
  }

  lemma NextAcknowledge(w: World, i: nat, cap: nat)
    requires |w.ends| == 2 && i < 2 && w.ends[i].inTail > 0
    ensures Next(w, Acknowledge(i), cap) == Send(w, i, Stamp(w.ends[i], 0, NONE))
  {
  }

  lemma AcknowledgeStep(w: World, i: nat, cap: nat) returns (w': World)
    requires Inv(w, cap) && i < 2
    ensures w' == Next(w, Acknowledge(i), cap) && Inv(w', cap)
  {
    w' := StampTo(w, i, 0, NONE, cap);
    NextAcknowledge(w, i, cap);
  }

  // ----- Receiving data -----

  /** The receiver holds packets from its tail on, possibly at the tail itself. */
  ghost predicate Taking(c: Chan, e: Endpoint) {
    InOk(c.(taken := e.inTail), e) && e.inTail <= e.inHead <= e.inTail + WINDOW
  }

  lemma TakeOneKeeps(c: Chan, e: Endpoint)
    requires Taking(c, e) && e.inTail in e.held
    ensures Taking(c, TakeOne(e))
  {
    var n := e.inTail;
    var e' := TakeOne(e);
    assert c.stream[..n][..n - 1] == c.stream[..n - 1];
  }

  lemma {:induction false} AdvanceKeeps(c: Chan, e: Endpoint)
    requires Taking(c, e)
    ensures var e' := Advance(e);
            && Taking(c, e') && e'.inTail !in e'.held && e.inTail <= e'.inTail
            && e' == e.(inTail := e'.inTail, held := e'.held, digest := e'.digest, intake := e'.intake)
    decreases |e.held|
  {
    if e.inTail in e.held {
      assert e.held.Keys == (e.held - {e.inTail}).Keys + {e.inTail};
      TakeOneKeeps(c, e);
      AdvanceKeeps(c, TakeOne(e));
    }
  }

  lemma TakeDataKeeps(c: Chan, e: Endpoint, p: Packet)
    requires Taking(c, e) && e.inTail !in e.held && DataOk(c, p)
    ensures var e' := TakeData(e, p);
            && Taking(c, e') && e'.inTail !in e'.held && e.inTail <= e'.inTail
            && e' == e.(inTail := e'.inTail, inHead := e'.inHead, held := e'.held, digest := e'.digest,
                        intake := e'.intake)
  {
    if IsNew(e, p) {
      assert Taking(c, Hold(e, p));
      AdvanceKeeps(c, Hold(e, p));
    }
  }

  /** The receiving side moves on, the sending side and the incarnations stay. */
  predicate Inward(e: Endpoint, e': Endpoint) {
    && e.inTail <= e'.inTail <= e'.inHead <= e'.inTail + WINDOW && e'.inTail !in e'.held
    && e' == e.(inTail := e'.inTail, inHead := e'.inHead, held := e'.held, digest := e'.digest, intake := e'.intake)
  }

  lemma InwardKeeps(e: Endpoint, e': Endpoint, cap: nat)
    requires Windows(e) && Whole(e, cap) && Packed(e) && Inward(e, e')
    ensures Windows(e') && Whole(e', cap) && Packed(e')
  {
  }

  lemma OwnInUnmet(h: map<Key, Chan>, i: nat, e: Endpoint, o: Endpoint, c: Chan)
    requires i < 2 && Unmet(h, i, e, o) && Untaken(h, i, e)
    ensures Unmet(h[InKey(i, e) := c], i, e, o) && Untaken(h[InKey(i, e) := c], i, e)
  {
    var h' := h[InKey(i, e) := c];
    forall src: nat, dst: nat | src > e.my || (src == e.my && dst > e.ngbr) || dst > o.my
      ensures At(h', Key(i, src, dst)) == EMPTY
    {
      assert At(h, Key(i, src, dst)) == EMPTY;
    }
    forall src: nat | src > e.ngbr ensures At(h', Key(Other(i), src, e.my)).taken == 1 {
      assert At(h, Key(Other(i), src, e.my)).taken == 1;
    }
  }

  lemma OwnIn(h: map<Key, Chan>, i: nat, e: Endpoint, e': Endpoint, o: Endpoint, c: Chan, cap: nat)
    requires i < 2 && SideOk(h, i, e, o, cap) && Inward(e, e')
    requires c == At(h, InKey(i, e)).(taken := e'.inTail) && InOk(c, e')
    ensures SideOk(h[InKey(i, e) := c], i, e', o, cap)
  {
    OwnInUnmet(h, i, e, o, c);
    InwardKeeps(e, e', cap);
  }

  /** The other end while end `i` consumes from its log. */
  lemma PeerOfIn(h: map<Key, Chan>, i: nat, e: Endpoint, e': Endpoint, o: Endpoint, c: Chan, cap: nat)
    requires i < 2 && SideOk(h, Other(i), o, e, cap) && Inward(e, e') && ChanOk(c, cap)
    requires var c0 := At(h, InKey(i, e)); c == c0.(taken := e'.inTail) && c0.taken <= e'.inTail
    ensures SideOk(h[InKey(i, e) := c], Other(i), o, e', cap)
  {
    var k := InKey(i, e);
    var h' := h[k := c];
    assert Other(Other(i)) == i;
    forall src: nat, dst: nat | src > o.my || (src == o.my && dst > o.ngbr) || dst > e'.my
      ensures At(h', Key(Other(i), src, dst)) == EMPTY
    {
      assert At(h, Key(Other(i), src, dst)) == EMPTY;
    }
    forall src: nat | src > o.ngbr ensures At(h', Key(i, src, o.my)).taken == 1 {
      assert At(h, Key(Other(Other(i)), src, o.my)).taken == 1;
    }
  }

  lemma InwardStep(w: World, i: nat, e': Endpoint, cap: nat)
    requires Inv(w, cap) && i < 2 && Inward(w.ends[i], e')
    requires InOk(At(w.hist, InKey(i, e')).(taken := e'.inTail), e')
    ensures Inv(In(w, i, e'), cap)
  {
    FactsOf(w, i, cap);
    var c := InParts(w.hist, w.net, i, w.ends[i], e', w.ends[Other(i)], cap);
    AssembleIn(w, i, e', c, cap);
  }

  lemma InParts(h: map<Key, Chan>, net: set<Sent>, i: nat, e: Endpoint, e': Endpoint, o: Endpoint, cap: nat)
      returns (c: Chan)
    requires i < 2 && HistOk(h, cap) && NetOk(h, net) && SideOk(h, i, e, o, cap) && SideOk(h, Other(i), o, e, cap)
    requires Inward(e, e') && InOk(At(h, InKey(i, e')).(taken := e'.inTail), e')
    ensures c == At(h, InKey(i, e')).(taken := e'.inTail)
    ensures var h' := h[InKey(i, e') := c];
            HistOk(h', cap) && NetOk(h', net) && SideOk(h', i, e', o, cap) && SideOk(h', Other(i), o, e', cap)
  {
    var k := InKey(i, e');
    c := At(h, k).(taken := e'.inTail);
    assert ChanOk(At(h, k), cap);
    HistGrows(h, k, c, cap);
    NetGrows(h, k, c, net);
    OwnIn(h, i, e, e', o, c, cap);
    PeerOfIn(h, i, e, e', o, c, cap);
  }

  lemma AssembleIn(w: World, i: nat, e': Endpoint, c: Chan, cap: nat)
    requires |w.ends| == 2 && i < 2 && c == At(w.hist, InKey(i, e')).(taken := e'.inTail)
    requires var h' := w.hist[InKey(i, e') := c];
             HistOk(h', cap) && NetOk(h', w.net) && SideOk(h', i, e', w.ends[Other(i)], cap) &&
             SideOk(h', Other(i), w.ends[Other(i)], e', cap)
    ensures Inv(In(w, i, e'), cap)
  {
    Assemble(In(w, i, e'), i, cap);
  }

  lemma HearDataStep(w: World, i: nat, p: Packet, cap: nat) returns (w': World)
    requires Inv(w, cap) && i < 2
    ensures w' == Next(w, HearData(i, p), cap) && Inv(w', cap)
  {
    NextData(w, i, p, cap);
    if Heeds(w, i, p) {
      w' := HearIn(w, i, p, cap);
    } else {
      w' := w;
    }
  }

  /** The packet is on its way to end `i`, which accepts it. */
  predicate Heeds(w: World, i: nat, p: Packet)
    requires |w.ends| == 2 && i < 2
  {
    Sent(Other(i), p) in w.net && Accepts(w.ends[i], p)
  }

  lemma NextData(w: World, i: nat, p: Packet, cap: nat)
    requires |w.ends| == 2 && i < 2
    ensures Next(w, HearData(i, p), cap) == if Heeds(w, i, p) then In(w, i, TakeData(w.ends[i], p)) else w
  {
  }

  lemma HearIn(w: World, i: nat, p: Packet, cap: nat) returns (w': World)
    requires Inv(w, cap) && i < 2 && Heeds(w, i, p)
    ensures w' == In(w, i, TakeData(w.ends[i], p)) && Inv(w', cap)
  {
    var e := w.ends[i];
    FactsOf(w, i, cap);
    var c := At(w.hist, InKey(i, e));
    assert PacketOk(w.hist, Sent(Other(i), p));
    assert c.(taken := e.inTail) == c;
    TakeDataKeeps(c, e, p);
    InwardStep(w, i, TakeData(e, p), cap);
    w' := In(w, i, TakeData(e, p));
  }

  // ----- Every run -----

  lemma StartInv(a: nat, b: nat, cap: nat)
    requires a > 0 && b > 0
    ensures Inv(World([Fresh(a), Fresh(b)], {}, map[]), cap)
  {
  }

  lemma NextInv(w: World, st: Step, cap: nat)
    requires Inv(w, cap)
    ensures Inv(Next(w, st, cap), cap)
  {
    if st.i < 2 {
      var w';
      match st
      case Offer(i, m, cwnd, rand) => w' := OfferStep(w, i, m, cap, cwnd, rand);
      case Transmit(i, s) => w' := TransmitStep(w, i, s, cap);
      case Acknowledge(i) => w' := AcknowledgeStep(w, i, cap);
      case HearAck(i, p, cwnd, rand) => w' := HearAckStep(w, i, p, cap, cwnd, rand);
      case HearData(i, p) => w' := HearDataStep(w, i, p, cap);
      case Learn(i, ngbr, reintroduce, rand) => w' := LearnStep(w, i, ngbr, reintroduce, cap, rand);
      case Restart(i, my) => w' := RestartStep(w, i, my, cap);
    }
  }

  lemma {:induction false} RunInv(a: nat, b: nat, steps: seq<Step>, cap: nat)
    requires a > 0 && b > 0
    ensures Inv(Run(a, b, steps, cap), cap)
  {
    if steps == [] {
      StartInv(a, b, cap);
    } else {
      RunInv(a, b, steps[..|steps| - 1], cap);
      NextInv(Run(a, b, steps[..|steps| - 1], cap), steps[|steps| - 1], cap);
    }
  }

  // ----- What every run guarantees -----

  predicate Paired(e: Endpoint, o: Endpoint) { e.ngbr == o.my && o.ngbr == e.my }

  lemma ChanDelivers(c: Chan, t: Intake, n: nat, cap: nat)
    requires ChanOk(c, cap) && n <= |c.stream| && t == ConsumeAll(NOTHING, c.stream[..n])
    ensures !t.failed && t.delivered <= c.epoch
  {
    ConsumeIsEat(NOTHING, c.stream[..n]);
    assert PiecesOf(c.stream[..n]) == AllPieces(c.epoch, cap)[..n];
    DeliveredPrefix(c.epoch, cap, n);
  }

  /** What end `i` has of the stream of the end it is paired with. */
  ghost predicate InStep(e: Endpoint, o: Endpoint) {
    && 1 <= o.outTail <= e.inTail <= o.tcpHead <= OutHead(o)
    && e.intake == ConsumeAll(NOTHING, o.stream[..e.inTail - 1]) && e.digest == Digest(o.stream, e.inTail - 1)
    && !e.intake.failed && e.intake.delivered <= o.epoch
  }

  lemma ChanInStep(c: Chan, e: Endpoint, o: Endpoint, cap: nat)
    requires ChanOk(c, cap) && Windows(e) && Windows(o) && OutOk(c, o) && InOk(c, e)
    ensures InStep(e, o)
  {
    ChanDelivers(c, e.intake, e.inTail - 1, cap);
  }

  lemma PairInStep(w: World, cap: nat, i: nat)
    requires Inv(w, cap) && i < 2 && Paired(w.ends[i], w.ends[Other(i)])
    ensures InStep(w.ends[i], w.ends[Other(i)])
  {
    var e, o := w.ends[i], w.ends[Other(i)];
    FactsOf(w, i, cap);
    var c := At(w.hist, InKey(i, e));
    assert InKey(i, e) == OutKey(Other(i), o);
    assert ChanOk(c, cap);
    ChanInStep(c, e, o, cap);
  }

  /**
   * Within one pair of incarnations, whatever the network does: a receiver has consumed exactly the
   * packets 1 .. inTail - 1 of the sender's stream, in order and once each; the sender has freed
   * nothing it has not received; and what it has delivered is a prefix of the messages sent.
   */
  lemma ReliableInOrder(a: nat, b: nat, steps: seq<Step>, cap: nat, i: nat)
    requires a > 0 && b > 0 && i < 2
    ensures var w := Run(a, b, steps, cap);
            Paired(w.ends[i], w.ends[Other(i)]) ==> InStep(w.ends[i], w.ends[Other(i)])
  {
    var w := Run(a, b, steps, cap);
    RunInv(a, b, steps, cap);
    if Paired(w.ends[i], w.ends[Other(i)]) {
      PairInStep(w, cap, i);
    }
  }

  /** No packet was malformed, and an ack in the window carries the right digest. */
  ghost predicate Trusting(w: World, i: nat, p: Packet)
    requires |w.ends| == 2 && i < 2
  {
    var e := w.ends[i];
    && !e.intake.failed && e.tcpHead <= OutHead(e)
    && (Sent(Other(i), p) in w.net && Accepts(e, p) && AckInWindow(e, p) ==> NonceMatches(e, p))
  }

  lemma InvTrusts(w: World, cap: nat, i: nat, p: Packet)
    requires Inv(w, cap) && i < 2
    ensures Trusting(w, i, p)
  {
    var e := w.ends[i];
    FactsOf(w, i, cap);
    var c := At(w.hist, InKey(i, e));
    assert ChanOk(c, cap);
    ChanDelivers(c, e.intake, e.inTail - 1, cap);
    if Sent(Other(i), p) in w.net && Accepts(e, p) {
      assert PacketOk(w.hist, Sent(Other(i), p)) && Other(Other(i)) == i;
    }
  }

  /** An honest neighbour is never suspected, in no run. */
  lemma NeverSuspected(a: nat, b: nat, steps: seq<Step>, cap: nat, i: nat, p: Packet)
    requires a > 0 && b > 0 && i < 2
    ensures Trusting(Run(a, b, steps, cap), i, p)
  {
    RunInv(a, b, steps, cap);
    InvTrusts(Run(a, b, steps, cap), cap, i, p);
  }
}

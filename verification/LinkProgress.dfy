/**
 * How far the congestion window opens, when an ack leaves packets behind, and that no run between
 * two paired ends is stuck unless one message fills a window after another.
 */
module LinkProgress {
  import opened Fragments
  import opened LinkSpec
  import opened LinkMessages
  import opened LinkProtocol

  // ----- The congestion window -----

  /** What is packed is sent up to the congestion window, which holds back only what exceeds it. */
  lemma OpenedExactly(e: Endpoint, cwnd: nat)
    requires Windows(e)
    ensures var e' := OpenWindow(e, cwnd);
            && e' == e.(tcpHead := e'.tcpHead) && e.tcpHead <= e'.tcpHead <= OutHead(e)
            && (e'.tcpHead < OutHead(e) ==> e.outTail + cwnd <= e'.tcpHead)
            && (e.tcpHead < e'.tcpHead ==> e'.tcpHead <= e.outTail + cwnd)
  {
  }

  /** Packets wait to be sent and none is outstanding, so that no ack will come. */
  predicate Stalled(e: Endpoint) { e.outTail == e.tcpHead < OutHead(e) }

  /** A new message gets packets going: all of them if the congestion window is as large as the send window. */
  lemma SubmitSends(e: Endpoint, m: Message, cap: nat, cwnd: nat, rand: nat -> bv64)
    requires Windows(e) && Whole(e, cap) && e.pending.Idle? && Sendable(m, cap) && cwnd > 0
    ensures var e' := Submit(e, m, cap, cwnd, rand);
            && !Stalled(e') && (cwnd >= WINDOW ==> e'.tcpHead == OutHead(e'))
            && e'.outTail == e.outTail && e'.epoch == e.epoch + [m]
  {
    var s := e.(pending := Packing(m, 1), epoch := e.epoch + [m]);
    StartWhole(e, m, cap);
    PackKeeps(s, cap, rand);
    OpenedExactly(PackLoop(s, cap, rand), cwnd);
  }

  /** Packing adds a packet if there is room and something to pack, and all there is if it fits. */
  lemma {:induction false} PackLoopFills(e: Endpoint, cap: nat, rand: nat -> bv64)
    requires Whole(e, cap) && OutHead(e) <= e.outTail + WINDOW
    ensures var e' := PackLoop(e, cap, rand);
            && (OutHead(e') > OutHead(e) <==> OutHead(e) - e.outTail < WINDOW && e.pending.Packing?)
            && (OutHead(e) - e.outTail + |Rest(e.pending, cap)| <= WINDOW ==> e'.pending.Idle?)
    decreases e.outTail + WINDOW - OutHead(e)
  {
    if CanPack(e) {
      var e1 := PackOne(e, cap, rand(OutHead(e)));
      PackOneWhole(e, cap, rand(OutHead(e)));
      PackLoopFills(e1, cap, rand);
      PackLoopBound(e1, cap, rand);
    } else if e.pending.Packing? {
      RestLeft(e, cap);
    }
  }

  /** A message being packed has packets left, and fewer than fill a window. */
  lemma RestLeft(e: Endpoint, cap: nat)
    requires Whole(e, cap) && e.pending.Packing?
    ensures 1 <= |Rest(e.pending, cap)| < WINDOW
  {
    assert Sendable(e.epoch[|e.epoch| - 1], cap);
    PiecesCount(e.pending.msg, e.pending.idx, cap);
  }

  /**
   * The ack sends before it packs. So with a congestion window as large as the send window all that
   * was packed before is sent, and all that is packed afterwards exactly if no message was being
   * packed; and with any congestion window the link stalls exactly if one ack covers everything
   * packed, a full window, while a message is being packed. That message then is packed to its end.
   */
  lemma StallsExactly(e: Endpoint, p: Packet, cap: nat, cwnd: nat, rand: nat -> bv64)
    requires Windows(e) && Whole(e, cap) && Packed(e) && AckInWindow(e, p) && cwnd > 0
    ensures var e' := TakeAck(e, p, cap, cwnd, rand);
            && (Stalled(e') <==> p.aru + 1 == OutHead(e) && e.pending.Packing?)
            && (e.pending.Packing? ==> OutHead(e) == e.outTail + WINDOW)
            && (cwnd >= WINDOW ==> e'.tcpHead == OutHead(e) && (e'.tcpHead == OutHead(e') <==> e.pending.Idle?))
            && (Stalled(e') ==> e'.pending.Idle?)
  {
    var freed := e.(outTail := p.aru + 1);
    OpenedExactly(freed, cwnd);
    PackedBehind(OpenWindow(freed, cwnd), cap, rand);
  }

  /** What packing adds behind the usable head. */
  lemma PackedBehind(e: Endpoint, cap: nat, rand: nat -> bv64)
    requires Whole(e, cap) && OutHead(e) <= e.outTail + WINDOW
    ensures var e' := PackLoop(e, cap, rand);
            && e'.outTail == e.outTail && e'.tcpHead == e.tcpHead && OutHead(e) <= OutHead(e')
            && (OutHead(e) < OutHead(e') <==> OutHead(e) - e.outTail < WINDOW && e.pending.Packing?)
            && (OutHead(e) == e.outTail ==> e'.pending.Idle?)
  {
    PackLoopFills(e, cap, rand);
    PackLoopBound(e, cap, rand);
    if e.pending.Packing? {
      RestLeft(e, cap);
    }
  }

  // ----- What an ack proves, and what a receiver keeps -----

  lemma XorCancels(a: bv64, b: bv64, c: bv64)
    ensures (Xor(a, c) == Xor(b, c) <==> a == b) && (Xor(c, a) == Xor(c, b) <==> a == b)
  {
  }

  /**
   * A digest depends on every nonce it covers: whoever has one of them wrong and the others right has
   * the digest wrong, so that an ack of a packet that was not received is refused.
   */
  lemma {:induction false} DigestBinds(cells: seq<Cell>, n: nat, k: nat, c: Cell)
    requires n <= |cells| && k < |cells| && c.nonce != cells[k].nonce
    ensures Digest(cells[k := c], n) == Digest(cells, n) <==> n <= k
  {
    if n > 0 {
      DigestBinds(cells, n - 1, k, c);
      XorCancels(Digest(cells[k := c], n - 1), Digest(cells, n - 1), cells[n - 1].nonce);
      XorCancels(c.nonce, cells[k].nonce, Digest(cells, n - 1));
    }
  }

  /** What is taken or held. */
  ghost predicate Has(e: Endpoint, s: nat, c: Cell) { s < e.inTail || (s in e.held && e.held[s] == c) }

  lemma {:induction false} AdvanceHas(e: Endpoint, s: nat, c: Cell)
    requires Has(e, s, c)
    ensures Has(Advance(e), s, c)
    decreases |e.held|
  {
    if e.inTail in e.held {
      assert e.held.Keys == (e.held - {e.inTail}).Keys + {e.inTail};
      AdvanceHas(TakeOne(e), s, c);
    }
  }

  /** A packet in the receive window is kept, whatever comes before it, and so is all that was. */
  lemma NothingDropped(e: Endpoint, p: Packet, s: nat, c: Cell)
    requires Windows(e)
    ensures p.no < e.inTail + WINDOW && p.no > 0 && p.no !in e.held ==> Has(TakeData(e, p), p.no, p.cell)
    ensures Has(e, s, c) ==> Has(TakeData(e, p), s, c)
  {
    if IsNew(e, p) {
      AdvanceHas(Hold(e, p), p.no, p.cell);
      if Has(e, s, c) {
        AdvanceHas(Hold(e, p), s, c);
      }
    }
  }

  // ----- Sending, hearing, acking -----

  /** Ends `i` and the other know each other, and everything a run keeps holds. */
  ghost predicate Meeting(w: World, i: nat, cap: nat) {
    Inv(w, cap) && i < 2 && Paired(w.ends[i], w.ends[Other(i)])
  }

  /** What the invariant says of a sender and the receiver it is paired with. */
  lemma PairFacts(w: World, i: nat, cap: nat)
    requires Meeting(w, i, cap)
    ensures var e, o := w.ends[i], w.ends[Other(i)];
            && Windows(e) && Whole(e, cap) && Packed(e) && Windows(o) && InStep(o, e) && o.inTail !in o.held
            && HeldInWindow(o) && o.inHead <= e.tcpHead
  {
    assert Other(Other(i)) == i;
    FactsOf(w, i, cap);
    PairInStep(w, cap, Other(i));
    var e, o := w.ends[i], w.ends[Other(i)];
    assert InKey(Other(i), o) == OutKey(i, e);
  }

  /** The packet at the receive tail moves the tail; by one if nothing else is held. */
  lemma TakesTail(o: Endpoint, p: Packet)
    requires o.inTail > 0 && p.no == o.inTail && o.inTail !in o.held
    ensures var o' := TakeData(o, p);
            && o.inTail < o'.inTail && o'.my == o.my && o'.ngbr == o.ngbr
            && (o.held == map[] ==> o'.inTail == o.inTail + 1 && o'.held == map[])
  {
    var h := Hold(o, p);
    assert h.held.Keys == (h.held - {h.inTail}).Keys + {h.inTail};
    AdvanceOnly(TakeOne(h));
    if o.held == map[] {
      assert TakeOne(h).held == map[];
    }
  }

  lemma {:induction false} AdvanceOnly(e: Endpoint)
    ensures var e' := Advance(e);
            && e.inTail <= e'.inTail && (e.inTail !in e.held ==> e' == e)
            && e' == e.(inTail := e'.inTail, held := e'.held, digest := e'.digest, intake := e'.intake)
    decreases |e.held|
  {
    if e.inTail in e.held {
      assert e.held.Keys == (e.held - {e.inTail}).Keys + {e.inTail};
      AdvanceOnly(TakeOne(e));
    }
  }

  /** End `i` sends the packet the other waits for. */
  lemma SendTail(w: World, i: nat, cap: nat) returns (p: Packet, w': World)
    requires Meeting(w, i, cap) && w.ends[Other(i)].inTail < w.ends[i].tcpHead
    ensures w' == LinkProtocol.Next(w, Transmit(i, w.ends[Other(i)].inTail), cap) && Inv(w', cap) && w'.ends == w.ends
    ensures Sent(i, p) in w'.net && Accepts(w.ends[Other(i)], p) && p.no == w.ends[Other(i)].inTail
  {
    PairFacts(w, i, cap);
    var e, s := w.ends[i], w.ends[Other(i)].inTail;
    p := Stamp(e, s, e.stream[s - 1]);
    NextTransmit(w, i, s, cap);
    w' := TransmitStep(w, i, s, cap);
  }

  lemma HearTail(w: World, i: nat, p: Packet, cap: nat) returns (w': World)
    requires Meeting(w, i, cap) && Sent(i, p) in w.net && Accepts(w.ends[Other(i)], p)
    requires p.no == w.ends[Other(i)].inTail
    ensures w' == LinkProtocol.Next(w, HearData(Other(i), p), cap) && Meeting(w', i, cap) && w'.ends[i] == w.ends[i]
    ensures w'.ends[Other(i)] == TakeData(w.ends[Other(i)], p)
  {
    PairFacts(w, i, cap);
    assert Other(Other(i)) == i;
    TakesTail(w.ends[Other(i)], p);
    NextData(w, Other(i), p, cap);
    w' := HearDataStep(w, Other(i), p, cap);
  }

  /** End `i` sends the packet the other waits for, which takes it. */
  lemma Deliver(w: World, i: nat, cap: nat) returns (st: Step, next: Step, w': World)
    requires Meeting(w, i, cap) && w.ends[Other(i)].inTail < w.ends[i].tcpHead
    ensures w' == NextWorld(NextWorld(w, st, cap), next, cap) && Meeting(w', i, cap) && w'.ends[i] == w.ends[i]
    ensures var o, o' := w.ends[Other(i)], w'.ends[Other(i)];
            o.inTail < o'.inTail && (o.held == map[] ==> o'.inTail == o.inTail + 1 && o'.held == map[])
  {
    var p, w1 := SendTail(w, i, cap);
    w' := HearTail(w1, i, p, cap);
    st, next := Transmit(i, w.ends[Other(i)].inTail), HearData(Other(i), p);
    PairFacts(w, i, cap);
    TakesTail(w.ends[Other(i)], p);
  }

  /** The other end acks what it has taken. */
  lemma SendAck(w: World, i: nat, cap: nat) returns (p: Packet, w': World)
    requires Meeting(w, i, cap) && w.ends[i].outTail < w.ends[Other(i)].inTail
    ensures w' == LinkProtocol.Next(w, Acknowledge(Other(i)), cap) && Inv(w', cap) && w'.ends == w.ends
    ensures Sent(Other(i), p) in w'.net && Accepts(w.ends[i], p)
    ensures AckInWindow(w.ends[i], p) && p.aru + 1 == w.ends[Other(i)].inTail
  {
    PairFacts(w, i, cap);
    p := Stamp(w.ends[Other(i)], 0, NONE);
    NextAcknowledge(w, Other(i), cap);
    w' := AcknowledgeStep(w, Other(i), cap);
  }

  /** An honest ack in the window is taken. */
  lemma HeardTakes(w: World, i: nat, p: Packet, cap: nat, cwnd: nat, rand: nat -> bv64)
    requires Inv(w, cap) && i < 2 && Sent(Other(i), p) in w.net && Accepts(w.ends[i], p) && AckInWindow(w.ends[i], p)
    ensures Heard(w.ends[i], p, cap, cwnd, rand) == TakeAck(w.ends[i], p, cap, cwnd, rand)
  {
    InvTrusts(w, cap, i, p);
  }

  lemma TakeAckKeys(e: Endpoint, p: Packet, cap: nat, cwnd: nat, rand: nat -> bv64)
    requires Windows(e) && Whole(e, cap) && Packed(e) && AckInWindow(e, p)
    ensures var e' := TakeAck(e, p, cap, cwnd, rand);
            e'.my == e.my && e'.ngbr == e.ngbr && e'.epoch == e.epoch && e'.outTail == p.aru + 1
  {
    var wide := OpenWindow(e.(outTail := p.aru + 1), cwnd);
    PackKeeps(wide, cap, rand);
  }

  lemma HearSentAck(w: World, i: nat, p: Packet, cap: nat, cwnd: nat, rand: nat -> bv64) returns (w': World)
    requires Meeting(w, i, cap) && Sent(Other(i), p) in w.net && Accepts(w.ends[i], p) && AckInWindow(w.ends[i], p)
    ensures w' == LinkProtocol.Next(w, HearAck(i, p, cwnd, rand), cap) && Meeting(w', i, cap)
    ensures w'.ends[i] == TakeAck(w.ends[i], p, cap, cwnd, rand) && w'.ends[Other(i)] == w.ends[Other(i)]
  {
    PairFacts(w, i, cap);
    HeardTakes(w, i, p, cap, cwnd, rand);
    TakeAckKeys(w.ends[i], p, cap, cwnd, rand);
    NextHear(w, i, p, cap, cwnd, rand);
    w' := HearAckStep(w, i, p, cap, cwnd, rand);
  }

  // ----- Runs that go on -----

  /** The world after further steps. */
  ghost function After(w: World, more: seq<Step>, cap: nat): (w': World)
    requires |w.ends| == 2
    ensures |w'.ends| == 2
    decreases |more|
  {
    if more == [] then w else After(NextWorld(w, more[0], cap), more[1..], cap)
  }

  ghost function NextWorld(w: World, st: Step, cap: nat): (w': World)
    requires |w.ends| == 2
    ensures |w'.ends| == 2
  {
    LinkProtocol.Next(w, st, cap)
  }

  lemma AfterTwo(w: World, st: Step, next: Step, rest: seq<Step>, cap: nat)
    requires |w.ends| == 2
    ensures After(w, [st, next] + rest, cap) == After(NextWorld(NextWorld(w, st, cap), next, cap), rest, cap)
  {
    var all := [st, next] + rest;
    assert all[1..][0] == next && all[1..][1..] == rest;
  }

  lemma {:induction false} AfterMore(w: World, more: seq<Step>, rest: seq<Step>, cap: nat)
    requires |w.ends| == 2
    ensures After(w, more + rest, cap) == After(After(w, more, cap), rest, cap)
    decreases |more|
  {
    if more == [] {
      assert more + rest == rest;
    } else {
      assert (more + rest)[1..] == more[1..] + rest;
      AfterMore(NextWorld(w, more[0], cap), more[1..], rest, cap);
    }
  }

  /** Everything sent comes in. */
  lemma {:induction false} AllCanArrive(w: World, i: nat, cap: nat) returns (more: seq<Step>, w': World)
    requires Meeting(w, i, cap)
    ensures w' == After(w, more, cap) && Meeting(w', i, cap) && w'.ends[i] == w.ends[i]
    ensures w'.ends[Other(i)].inTail == w.ends[i].tcpHead && w'.ends[Other(i)].held == map[]
    decreases w.ends[i].tcpHead - w.ends[Other(i)].inTail
  {
    PairFacts(w, i, cap);
    more, w' := [], w;
    var o := w.ends[Other(i)];
    if o.inTail < w.ends[i].tcpHead {
      var st, next, w1 := Deliver(w, i, cap);
      more, w' := AllCanArrive(w1, i, cap);
      AfterTwo(w, st, next, more, cap);
      more := [st, next] + more;
    } else {
      assert forall s :: s in o.held ==> false;
    }
  }

  /** All that has been taken has been acked, and nothing else is held. */
  ghost predicate InSync(w: World, i: nat, cap: nat) {
    Meeting(w, i, cap) && w.ends[i].outTail == w.ends[Other(i)].inTail && w.ends[Other(i)].held == map[]
  }

  lemma AckOne(w: World, i: nat, cap: nat, cwnd: nat, rand: nat -> bv64)
      returns (more: seq<Step>, p: Packet, w': World)
    requires Meeting(w, i, cap) && w.ends[i].outTail < w.ends[Other(i)].inTail
    ensures w' == After(w, more, cap) && Meeting(w', i, cap)
    ensures AckInWindow(w.ends[i], p) && p.aru + 1 == w.ends[Other(i)].inTail
    ensures w'.ends[i] == TakeAck(w.ends[i], p, cap, cwnd, rand) && w'.ends[Other(i)] == w.ends[Other(i)]
  {
    var w1;
    p, w1 := SendAck(w, i, cap);
    w' := HearSentAck(w1, i, p, cap, cwnd, rand);
    more := [Acknowledge(Other(i)), HearAck(i, p, cwnd, rand)];
    AfterTwo(w, Acknowledge(Other(i)), HearAck(i, p, cwnd, rand), [], cap);
    assert more + [] == more;
  }

  /** The acks of what has come in so far are heard. */
  lemma CatchUp(w: World, i: nat, cap: nat, cwnd: nat, rand: nat -> bv64) returns (more: seq<Step>, w': World)
    requires Meeting(w, i, cap) && cwnd > 0 && (Stalled(w.ends[i]) ==> w.ends[i].pending.Idle?)
    requires w.ends[Other(i)].held == map[]
    ensures w' == After(w, more, cap) && InSync(w', i, cap) && w'.ends[i].epoch == w.ends[i].epoch
    ensures Stalled(w'.ends[i]) ==> w'.ends[i].pending.Idle?
    ensures var e, n := w.ends[i], w.ends[Other(i)].inTail;
            Stalled(w'.ends[i]) <==> if e.outTail == n then Stalled(e) else n == OutHead(e) && e.pending.Packing?
    ensures w'.ends[i].outTail == w.ends[Other(i)].inTail
  {
    PairFacts(w, i, cap);
    more, w' := [], w;
    if w.ends[i].outTail < w.ends[Other(i)].inTail {
      var p;
      more, p, w' := AckOne(w, i, cap, cwnd, rand);
      TakeAckKeys(w.ends[i], p, cap, cwnd, rand);
      StallsExactly(w.ends[i], p, cap, cwnd, rand);
    }
  }

  /** Nothing is left to send or to pack, and the other end has delivered every message. */
  ghost predicate Done(e: Endpoint, o: Endpoint) {
    e.outTail == OutHead(e) && e.pending.Idle? && o.intake.delivered == e.epoch && !o.intake.failed
  }

  lemma AllDelivered(w: World, i: nat, cap: nat)
    requires InSync(w, i, cap) && w.ends[i].outTail == OutHead(w.ends[i])
    ensures Done(w.ends[i], w.ends[Other(i)])
  {
    PairFacts(w, i, cap);
    AllTaken(w.ends[i], w.ends[Other(i)], cap);
  }

  lemma AllTaken(e: Endpoint, o: Endpoint, cap: nat)
    requires Whole(e, cap) && Packed(e) && e.outTail == OutHead(e) == o.inTail
    requires o.intake == ConsumeAll(NOTHING, e.stream[..o.inTail - 1])
    ensures Done(e, o)
  {
    var all := AllPieces(e.epoch, cap);
    assert e.stream[..|e.stream|] == e.stream;
    assert PiecesOf(e.stream) + [] == PiecesOf(e.stream) && all[..|all|] == all;
    ConsumeIsEat(NOTHING, e.stream);
    DeliveredPrefix(e.epoch, cap, |all|);
  }

  /** Packet by packet to the end: the window never empties while a message is being packed. */
  lemma {:induction false} OneByOne(w: World, i: nat, cap: nat, cwnd: nat, rand: nat -> bv64)
      returns (more: seq<Step>, w': World)
    requires InSync(w, i, cap) && cwnd > 0 && !Stalled(w.ends[i])
    ensures w' == After(w, more, cap) && InSync(w', i, cap) && w'.ends[i].epoch == w.ends[i].epoch
    ensures Done(w'.ends[i], w'.ends[Other(i)])
    decreases |AllPieces(w.ends[i].epoch, cap)| + 1 - w.ends[i].outTail
  {
    PairFacts(w, i, cap);
    if w.ends[i].outTail == OutHead(w.ends[i]) {
      AllDelivered(w, i, cap);
      more, w' := [], w;
    } else {
      var first, w2 := OneRound(w, i, cap, cwnd, rand);
      PairFacts(w2, i, cap);
      more, w' := OneByOne(w2, i, cap, cwnd, rand);
      AfterMore(w, first, more, cap);
      more := first + more;
    }
  }

  lemma OneRound(w: World, i: nat, cap: nat, cwnd: nat, rand: nat -> bv64) returns (more: seq<Step>, w': World)
    requires InSync(w, i, cap) && cwnd > 0 && !Stalled(w.ends[i]) && w.ends[i].outTail < OutHead(w.ends[i])
    ensures w' == After(w, more, cap) && InSync(w', i, cap) && w'.ends[i].epoch == w.ends[i].epoch
    ensures !Stalled(w'.ends[i]) && w'.ends[i].outTail == w.ends[i].outTail + 1
  {
    PairFacts(w, i, cap);
    var st, next, w1 := Deliver(w, i, cap);
    var rest;
    rest, w' := CatchUp(w1, i, cap, cwnd, rand);
    AfterTwo(w, st, next, rest, cap);
    more := [st, next] + rest;
  }

  /** A message offered while idle. */
  lemma OfferOne(w: World, i: nat, m: Message, cap: nat, cwnd: nat, rand: nat -> bv64) returns (w': World)
    requires Meeting(w, i, cap) && w.ends[i].pending.Idle? && Sendable(m, cap) && cwnd > 0
    ensures w' == NextWorld(w, Offer(i, m, cwnd, rand), cap) && Meeting(w', i, cap)
    ensures w'.ends[i] == Submit(w.ends[i], m, cap, cwnd, rand) && w'.ends[Other(i)] == w.ends[Other(i)]
    ensures !Stalled(w'.ends[i]) && w'.ends[i].epoch == w.ends[i].epoch + [m]
    ensures w'.ends[i].outTail == w.ends[i].outTail
  {
    PairFacts(w, i, cap);
    SubmitSends(w.ends[i], m, cap, cwnd, rand);
    OfferForward(w.ends[i], m, cap, cwnd, rand);
    NextOffer(w, i, m, cap, cwnd, rand);
    w' := OfferStep(w, i, m, cap, cwnd, rand);
  }

  /**
   * However many packets have been lost: two paired ends can go on until every message accepted has
   * been delivered. A link that is stalled needs the next message `m` for it.
   */
  lemma CanDeliver(w: World, i: nat, m: Message, cap: nat, cwnd: nat, rand: nat -> bv64)
      returns (more: seq<Step>, w': World)
    requires Meeting(w, i, cap) && cwnd > 0 && Sendable(m, cap)
    requires Stalled(w.ends[i]) ==> w.ends[i].pending.Idle?
    ensures w' == After(w, more, cap) && Meeting(w', i, cap) && Done(w'.ends[i], w'.ends[Other(i)])
    ensures w'.ends[i].epoch == w.ends[i].epoch || w'.ends[i].epoch == w.ends[i].epoch + [m]
  {
    var first, w1 := AllCanArrive(w, i, cap);
    var acks, w2 := CatchUp(w1, i, cap, cwnd, rand);
    var offer, w3 := Resume(w2, i, m, cap, cwnd, rand);
    var last;
    last, w' := OneByOne(w3, i, cap, cwnd, rand);
    AfterMore(w, first, acks, cap);
    AfterMore(w, first + acks, offer, cap);
    AfterMore(w, first + acks + offer, last, cap);
    more := first + acks + offer + last;
  }

  /** The next message gets a stalled link going. */
  lemma Resume(w: World, i: nat, m: Message, cap: nat, cwnd: nat, rand: nat -> bv64)
      returns (more: seq<Step>, w': World)
    requires InSync(w, i, cap) && cwnd > 0 && Sendable(m, cap)
    requires Stalled(w.ends[i]) ==> w.ends[i].pending.Idle?
    ensures w' == After(w, more, cap) && InSync(w', i, cap) && !Stalled(w'.ends[i])
    ensures w'.ends[i].epoch == w.ends[i].epoch || w'.ends[i].epoch == w.ends[i].epoch + [m]
  {
    more, w' := [], w;
    if Stalled(w.ends[i]) {
      w' := OfferOne(w, i, m, cap, cwnd, rand);
      more := [Offer(i, m, cwnd, rand)];
      assert more[1..] == [];
    }
  }

  // ----- No run gets stuck -----

  /** No link is stalled in the middle of a message, where it could not take another. */
  predicate Ready(e: Endpoint) { Stalled(e) ==> e.pending.Idle? }

  /** The congestion windows of a step are never closed. */
  predicate Open(st: Step) { (st.Offer? || st.HearAck?) ==> st.cwnd > 0 }

  lemma HeardReady(e: Endpoint, p: Packet, cap: nat, cwnd: nat, rand: nat -> bv64)
    requires Windows(e) && Whole(e, cap) && Packed(e) && Ready(e) && cwnd > 0
    ensures Ready(Heard(e, p, cap, cwnd, rand))
  {
    if AckInWindow(e, p) {
      StallsExactly(e, p, cap, cwnd, rand);
    }
  }

  lemma SubmitReady(e: Endpoint, m: Message, cap: nat, cwnd: nat, rand: nat -> bv64)
    requires Windows(e) && Whole(e, cap) && Packed(e) && Ready(e) && cwnd > 0 && Sendable(m, cap)
    ensures Ready(Submit(e, m, cap, cwnd, rand))
  {
    if e.pending.Idle? {
      SubmitSends(e, m, cap, cwnd, rand);
    }
  }

  lemma TakeDataReady(e: Endpoint, p: Packet)
    requires Ready(e)
    ensures Ready(TakeData(e, p))
  {
    if IsNew(e, p) {
      AdvanceOnly(Hold(e, p));
    }
  }

  lemma LearnedReady(e: Endpoint, ngbr: nat, reintroduce: bool, cap: nat, rand: nat -> bv64)
    requires Windows(e) && Whole(e, cap) && Packed(e)
    ensures Ready(Learned(e, ngbr, reintroduce, cap, rand))
  {
    if reintroduce {
      var r := KeptWhole(ResetIn(e, ngbr), cap, rand);
      PackedBehind(r, cap, rand);
    }
  }

  /** The sending side is as the steps leave it. */
  lemma MovedBySender(w: World, st: Step, cap: nat)
    requires Inv(w, cap) && st.i < 2 && Ready(w.ends[st.i]) && Open(st) && (st.Offer? || st.HearAck?)
    ensures Ready(NextWorld(w, st, cap).ends[st.i])
  {
    FactsOf(w, st.i, cap);
    if st.Offer? {
      NextOffer(w, st.i, st.m, cap, st.cwnd, st.rand);
      if Sendable(st.m, cap) {
        SubmitReady(w.ends[st.i], st.m, cap, st.cwnd, st.rand);
      }
    } else {
      NextHear(w, st.i, st.p, cap, st.cwnd, st.rand);
      HeardReady(w.ends[st.i], st.p, cap, st.cwnd, st.rand);
    }
  }

  lemma MovedByLearning(w: World, st: Step, cap: nat)
    requires Inv(w, cap) && st.i < 2 && Ready(w.ends[st.i]) && st.Learn?
    ensures Ready(NextWorld(w, st, cap).ends[st.i])
  {
    FactsOf(w, st.i, cap);
    NextLearn(w, st.i, st.ngbr, st.reintroduce, cap, st.rand);
    LearnedReady(w.ends[st.i], st.ngbr, st.reintroduce, cap, st.rand);
  }

  lemma MovedByReceiver(w: World, st: Step, cap: nat)
    requires |w.ends| == 2 && st.i < 2 && Ready(w.ends[st.i]) && st.HearData?
    ensures Ready(NextWorld(w, st, cap).ends[st.i])
  {
    NextData(w, st.i, st.p, cap);
    TakeDataReady(w.ends[st.i], st.p);
  }

  lemma MovedByRest(w: World, st: Step, cap: nat)
    requires |w.ends| == 2 && st.i < 2 && Ready(w.ends[st.i]) && (st.Transmit? || st.Acknowledge? || st.Restart?)
    ensures Ready(NextWorld(w, st, cap).ends[st.i])
  {
    if st.Transmit? {
      NextTransmit(w, st.i, st.s, cap);
    }
  }

  /** The end that moves stays ready. */
  lemma MovedReady(w: World, st: Step, cap: nat)
    requires Inv(w, cap) && st.i < 2 && Ready(w.ends[st.i]) && Open(st)
    ensures Ready(NextWorld(w, st, cap).ends[st.i])
  {
    match st
    case Offer(_, _, _, _) => MovedBySender(w, st, cap);
    case HearAck(_, _, _, _) => MovedBySender(w, st, cap);
    case HearData(_, _) => MovedByReceiver(w, st, cap);
    case Learn(_, _, _, _) => MovedByLearning(w, st, cap);
    case Transmit(_, _) => MovedByRest(w, st, cap);
    case Acknowledge(_) => MovedByRest(w, st, cap);
    case Restart(_, _) => MovedByRest(w, st, cap);
  }

  lemma OthersSame(w: World, st: Step, cap: nat, k: nat)
    requires |w.ends| == 2 && k < 2 && k != st.i
    ensures NextWorld(w, st, cap).ends[k] == w.ends[k]
  {
  }

  /** In no run whose congestion windows are open is an end stalled in the middle of a message. */
  lemma {:induction false} AlwaysReady(a: nat, b: nat, steps: seq<Step>, cap: nat, k: nat)
    requires a > 0 && b > 0 && k < 2 && forall j :: 0 <= j < |steps| ==> Open(steps[j])
    ensures Ready(Run(a, b, steps, cap).ends[k])
  {
    if steps != [] {
      var n := |steps| - 1;
      RunInv(a, b, steps[..n], cap);
      AlwaysReady(a, b, steps[..n], cap, k);
      if steps[n].i == k {
        MovedReady(Run(a, b, steps[..n], cap), steps[n], cap);
      } else {
        OthersSame(Run(a, b, steps[..n], cap), steps[n], cap, k);
      }
    }
  }

  lemma {:induction false} RunAfter(a: nat, b: nat, steps: seq<Step>, more: seq<Step>, cap: nat)
    ensures Run(a, b, steps + more, cap) == After(Run(a, b, steps, cap), more, cap)
    decreases |more|
  {
    if more == [] {
      assert steps + more == steps;
    } else {
      var on := steps + [more[0]];
      assert on[..|on| - 1] == steps && on + more[1..] == steps + more;
      RunAfter(a, b, on, more[1..], cap);
    }
  }

  /**
   * No run is stuck: whatever the network has lost, repeated or reordered, every run that leaves the
   * ends paired goes on, with any open congestion window and at most one message `m` more, to one in
   * which every message accepted has been delivered and nothing is left in the window.
   */
  lemma EveryRunCanFinish(a: nat, b: nat, steps: seq<Step>, cap: nat, i: nat, m: Message, cwnd: nat,
                          rand: nat -> bv64) returns (more: seq<Step>)
    requires a > 0 && b > 0 && i < 2 && forall j :: 0 <= j < |steps| ==> Open(steps[j])
    requires Paired(Run(a, b, steps, cap).ends[i], Run(a, b, steps, cap).ends[Other(i)])
    requires cwnd > 0 && Sendable(m, cap)
    ensures var e, w' := Run(a, b, steps, cap).ends[i], Run(a, b, steps + more, cap);
            && Done(w'.ends[i], w'.ends[Other(i)]) && Paired(w'.ends[i], w'.ends[Other(i)])
            && (w'.ends[i].epoch == e.epoch || w'.ends[i].epoch == e.epoch + [m])
  {
    RunInv(a, b, steps, cap);
    AlwaysReady(a, b, steps, cap, i);
    var w';
    more, w' := CanDeliver(Run(a, b, steps, cap), i, m, cap, cwnd, rand);
    RunAfter(a, b, steps, more, cap);
  }

  // ----- The stall happens -----

  /** Offering one message again and again fills the window in the middle of it, everything packed being sent. */
  lemma {:induction false} FillUp(w: World, i: nat, m: Message, cap: nat, rand: nat -> bv64)
      returns (more: seq<Step>, w': World)
    requires Meeting(w, i, cap) && w.ends[i].pending.Idle? && Sendable(m, cap)
    ensures w' == After(w, more, cap) && Meeting(w', i, cap) && w'.ends[i].pending.Packing?
    ensures w'.ends[i].tcpHead == OutHead(w'.ends[i])
    decreases w.ends[i].outTail + WINDOW - OutHead(w.ends[i])
  {
    PairFacts(w, i, cap);
    var e := w.ends[i];
    var st := Offer(i, m, WINDOW, rand);
    w' := OfferOne(w, i, m, cap, WINDOW, rand);
    SubmitSends(e, m, cap, WINDOW, rand);
    more := [];
    if w'.ends[i].pending.Idle? {
      SubmitGrows(e, m, cap, WINDOW, rand);
      more, w' := FillUp(w', i, m, cap, rand);
    }
    assert ([st] + more)[1..] == more;
    more := [st] + more;
  }

  lemma SubmitGrows(e: Endpoint, m: Message, cap: nat, cwnd: nat, rand: nat -> bv64)
    requires Windows(e) && Whole(e, cap) && e.pending.Idle? && Sendable(m, cap)
    ensures var e' := Submit(e, m, cap, cwnd, rand);
            e'.pending.Idle? ==> OutHead(e) < OutHead(e') <= e'.outTail + WINDOW && e'.outTail == e.outTail
  {
    var s := e.(pending := Packing(m, 1), epoch := e.epoch + [m]);
    StartWhole(e, m, cap);
    PackLoopFills(s, cap, rand);
    PackLoopBound(s, cap, rand);
  }

  /** Both ends learn of each other and have nothing to send. */
  lemma StartMeets(a: nat, b: nat, cap: nat, rand: nat -> bv64) returns (steps: seq<Step>)
    requires a > 0 && b > 0
    ensures Meeting(Run(a, b, steps, cap), 0, cap) && Run(a, b, steps, cap).ends[0].pending.Idle?
  {
    var first := Learn(0, b, false, rand);
    var w0 := Run(a, b, [], cap);
    assert [first][..0] == [];
    var w1 := Run(a, b, [first], cap);
    LearnFresh(w0, 0, b, cap, rand);
    steps := [first, Learn(1, a, false, rand)];
    assert steps[..1] == [first];
    LearnFresh(w1, 1, a, cap, rand);
    RunInv(a, b, steps, cap);
  }

  lemma LearnFresh(w: World, i: nat, ngbr: nat, cap: nat, rand: nat -> bv64)
    requires |w.ends| == 2 && i < 2 && w.ends[i].ngbr < ngbr <= w.ends[Other(i)].my
    ensures var w' := NextWorld(w, Learn(i, ngbr, false, rand), cap);
            && w'.ends[i].my == w.ends[i].my && w'.ends[i].ngbr == ngbr && w'.ends[i].pending.Idle?
            && w'.ends[Other(i)] == w.ends[Other(i)]
  {
    NextLearn(w, i, ngbr, false, cap, rand);
  }

  /**
   * With the congestion window as large as the send window, whatever messages are sent: a run ends
   * with packets waiting to be sent though nothing is outstanding and the window is open.
   */
  lemma StallHappens(a: nat, b: nat, m: Message, cap: nat, rand: nat -> bv64) returns (steps: seq<Step>)
    requires a > 0 && b > 0 && Sendable(m, cap)
    ensures var e := Run(a, b, steps, cap).ends[0]; Stalled(e) && e.pending.Idle?
  {
    steps := StartMeets(a, b, cap, rand);
    var w := Run(a, b, steps, cap);
    var fill, w1 := FillUp(w, 0, m, cap, rand);
    var arrive, w2 := AllCanArrive(w1, 0, cap);
    PairFacts(w2, 0, cap);
    var acks, w3 := CatchUp(w2, 0, cap, WINDOW, rand);
    AfterMore(w, fill, arrive, cap);
    AfterMore(w, fill + arrive, acks, cap);
    RunAfter(a, b, steps, fill + arrive + acks, cap);
    steps := steps + (fill + arrive + acks);
  }
}

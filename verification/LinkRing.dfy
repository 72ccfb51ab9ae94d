/**
 * The link as it is stored (`Int_Tol_Data` of daemon/intrusion_tol_udp.c): rings of 500 slots indexed
 * by sequence number modulo 500, with the nonce digests in a ring of their own. Every operation is
 * proved to act on the unbounded sequences of LinkSpec, which `abs` holds.
 */
module LinkRing {
  import opened Fragments
  import opened LinkSpec
  import opened LinkMessages

  function Slot(s: nat): (k: nat)
    ensures k < WINDOW
  {
    s % WINDOW
  }

  lemma Apart(s: nat, t: nat)
    requires s < t < s + WINDOW
    ensures Slot(s) != Slot(t)
  {
  }

  lemma Apart2(lo: nat, t: nat)
    ensures forall s: nat :: lo <= s < t && t < lo + WINDOW ==> Slot(s) != Slot(t)
  {
    forall s: nat | lo <= s < t && t < lo + WINDOW ensures Slot(s) != Slot(t) {
      Apart(s, t);
    }
  }

  lemma Around(lo: nat, t: nat)
    requires lo <= t < lo + WINDOW
    ensures forall s: nat :: lo <= s < lo + WINDOW && s != t ==> Slot(s) != Slot(t)
  {
    forall s: nat | lo <= s < lo + WINDOW && s != t ensures Slot(s) != Slot(t) {
      if s < t { Apart(s, t); } else { Apart(t, s); }
    }
  }

  lemma HeldShrinks(held: map<nat, Cell>, s: nat)
    requires s in held
    ensures |held - {s}| < |held|
  {
    assert held.Keys == (held - {s}).Keys + {s};
  }

  lemma SameSlot(s: nat)
    ensures Slot(s) == Slot(s + WINDOW)
  {
  }

  lemma DigestGrows(cells: seq<Cell>, c: Cell)
    ensures forall s: nat :: s <= |cells| ==> Digest(cells + [c], s) == Digest(cells, s)
  {
    forall s: nat | s <= |cells| ensures Digest(cells + [c], s) == Digest(cells, s) {
      DigestPrefix(cells, cells + [c], s);
    }
  }

  /** The packets `lo` .. `hi` - 1 with their tails. */
  function Burst(e: Endpoint, lo: nat, hi: nat): seq<Packet>
    requires 1 <= lo && hi <= OutHead(e) && e.inTail > 0
    decreases hi
  {
    if hi <= lo then [] else Burst(e, lo, hi - 1) + [Stamp(e, hi - 1, e.stream[hi - 2])]
  }

  /** What is sent when the congestion window is applied: the packets that become usable, in order. */
  function NowSent(e: Endpoint, cwnd: nat): seq<Packet> {
    if 1 <= e.tcpHead <= OutHead(e) && e.inTail > 0 then Burst(e, e.tcpHead, OpenWindow(e, cwnd).tcpHead) else []
  }

  /** A message put up for sending, as far as it could be packed. */
  function Started(e: Endpoint, m: Message, cap: nat, rand: nat -> bv64): Endpoint {
    PackLoop(e.(pending := Packing(m, 1), epoch := e.epoch + [m]), cap, rand)
  }

  datatype Flag = Empty | Nack | Recvd

  datatype Entry = Entry(flag: Flag, piece: Piece)

  const VACANT := Entry(Empty, Piece([], 0))

  lemma TailBounds(e: Endpoint, e': Endpoint)
    requires Windows(e) && HeldInWindow(e) && e.inTail in e.held
    requires e' == e.(digest := e'.digest, intake := e'.intake, held := e.held - {e.inTail}, inTail := e.inTail + 1)
    ensures Windows(e') && HeldInWindow(e')
  {
    forall s | s in e'.held ensures e'.inTail <= s < e'.inHead {
      assert s in e.held;
    }
  }

  /** Every slot is the slot of some sequence number from `lo` on. */
  lemma Reaches500(lo: nat, k: nat) returns (s: nat)
    requires k < WINDOW
    ensures lo <= s < lo + WINDOW && Slot(s) == k
  {
    s := lo + (k + WINDOW - lo % WINDOW) % WINDOW;
  }

  /** Rebuilds with one more packet; a finished message is handed up. */
  method Deliver(t: Intake, data: Bytes) returns (t': Intake)
    ensures t' == Consume(t, data)
  {
    var code, partial := BuildMessage(t.partial, data);
    if code < 0 {
      t' := Intake(partial, t.delivered, true);
    } else if code == 1 {
      t' := Intake(FRESH, t.delivered + [partial.frags], t.failed);
    } else {
      t' := Intake(partial, t.delivered, t.failed);
    }
  }

  class IntTolLink {
    var my: nat
    var ngbr: nat
    const outgoing: array<Piece>
    const outNonce: array<bv64>
    const outDigest: array<bv64>
    var outTail: nat
    var tcpHead: nat
    var outHead: nat
    var outMessage: Pending
    const incoming: array<Entry>
    const inNonce: array<bv64>
    var inTail: nat
    var inHead: nat
    var aruDigest: bv64
    var intake: Intake
    ghost var abs: Endpoint

    ghost predicate Shape() {
      && outgoing.Length == outNonce.Length == outDigest.Length == incoming.Length == inNonce.Length == WINDOW
      && outNonce != outDigest && outNonce != inNonce && outDigest != inNonce
      && outgoing as object != outNonce && outgoing as object != outDigest && outgoing as object != inNonce
      && incoming as object != outNonce && incoming as object != outDigest && incoming as object != inNonce
      && outgoing as object != incoming
    }

    ghost predicate OutScalars()
      reads this
    {
      && my == abs.my && ngbr == abs.ngbr && outTail == abs.outTail && tcpHead == abs.tcpHead && outHead == OutHead(abs)
      && outMessage == abs.pending
    }

    ghost predicate InScalars()
      reads this
    {
      inTail == abs.inTail && inHead == abs.inHead && aruDigest == abs.digest && intake == abs.intake
    }

    /** The packets `lo` .. `hi` - 1 are in their slots. */
    ghost predicate OutRing(lo: nat, hi: nat, cells: seq<Cell>)
      requires Shape() && 1 <= lo && hi <= |cells| + 1
      reads outgoing, outNonce
    {
      forall s: nat :: lo <= s < hi ==>
        outgoing[Slot(s)] == cells[s - 1].piece && outNonce[Slot(s)] == cells[s - 1].nonce
    }

    /** So are their digests, and the digest before the head. */
    ghost predicate DigestRing(lo: nat, hi: nat, cells: seq<Cell>)
      requires Shape() && 1 <= hi <= |cells| + 1
      reads outDigest
    {
      forall s: nat :: s < hi && (lo <= s || s == hi - 1) ==> outDigest[Slot(s)] == Digest(cells, s)
    }

    /** What the flag of each slot of the receive window says. */
    ghost predicate InRing(lo: nat, hi: nat, held: map<nat, Cell>)
      requires Shape()
      reads incoming, inNonce
    {
      forall s: nat {:trigger Slot(s)} :: lo <= s < lo + WINDOW ==>
        if s in held then incoming[Slot(s)] == Entry(Recvd, held[s].piece) && inNonce[Slot(s)] == held[s].nonce
        else incoming[Slot(s)].flag == (if s < hi then Nack else Empty)
    }

    /** The state while the receive tail moves: the packet at the tail may be held. */
    ghost predicate Core()
      reads this, outgoing, outNonce, outDigest, incoming, inNonce
    {
      && Shape() && OutScalars() && InScalars() && Windows(abs) && HeldInWindow(abs) && PendingOk(abs.pending)
      && OutRing(abs.outTail, OutHead(abs), abs.stream) && DigestRing(abs.outTail, OutHead(abs), abs.stream)
      && InRing(abs.inTail, abs.inHead, abs.held)
    }

    ghost predicate Valid()
      reads this, outgoing, outNonce, outDigest, incoming, inNonce
    {
      Core() && abs.inTail !in abs.held
    }

    constructor (incarnation: nat)
      requires incarnation > 0
      ensures Valid() && abs == Fresh(incarnation)
    {
      my, ngbr := incarnation, 0;
      outgoing := new Piece[WINDOW](_ => Piece([], 0));
      outNonce := new bv64[WINDOW](_ => 0);
      outDigest := new bv64[WINDOW](_ => 0);
      incoming := new Entry[WINDOW](_ => VACANT);
      inNonce := new bv64[WINDOW](_ => 0);
      outTail, tcpHead, outHead, outMessage := 1, 1, 1, Idle;
      inTail, inHead, aruDigest, intake := 1, 1, 0, NOTHING;
      abs := Fresh(incarnation);
    }

    /** A packet into the slot of the next sequence number. */
    method PutPacket(seqNo: nat, piece: Piece, nonce: bv64, ghost lo: nat, ghost cells: seq<Cell>)
      requires Shape() && 1 <= lo <= seqNo == |cells| + 1 < lo + WINDOW && OutRing(lo, seqNo, cells)
      modifies outgoing, outNonce
      ensures OutRing(lo, seqNo + 1, cells + [Cell(piece, nonce)])
    {
      Apart2(lo, seqNo);
      outgoing[Slot(seqNo)] := piece;
      outNonce[Slot(seqNo)] := nonce;
    }

    /** Its digest, chained to the one before. */
    method PutDigest(seqNo: nat, nonce: bv64, ghost lo: nat, ghost c: Cell, ghost cells: seq<Cell>)
      requires Shape() && 1 <= lo <= seqNo == |cells| + 1 < lo + WINDOW && DigestRing(lo, seqNo, cells)
      requires c.nonce == nonce
      modifies outDigest
      ensures DigestRing(lo, seqNo + 1, cells + [c])
    {
      Apart2(lo, seqNo);
      DigestGrows(cells, c);
      outDigest[Slot(seqNo)] := Xor(outDigest[Slot(seqNo - 1)], nonce);
    }

    method Put(seqNo: nat, piece: Piece, nonce: bv64, ghost lo: nat, ghost cells: seq<Cell>)
      requires Shape() && 1 <= lo <= seqNo == |cells| + 1 < lo + WINDOW && OutRing(lo, seqNo, cells)
      requires DigestRing(lo, seqNo, cells)
      modifies outgoing, outNonce, outDigest
      ensures OutRing(lo, seqNo + 1, cells + [Cell(piece, nonce)])
      ensures DigestRing(lo, seqNo + 1, cells + [Cell(piece, nonce)])
    {
      PutPacket(seqNo, piece, nonce, lo, cells);
      PutDigest(seqNo, nonce, lo, Cell(piece, nonce), cells);
    }

    /** One turn of the packing loop: fills a slot, draws its nonce and extends the digest chain. */
    method PackPacket(cap: nat, nonce: bv64)
      requires Valid() && CanPack(abs)
      modifies this`outHead, this`outMessage, this`abs, outgoing, outNonce, outDigest
      ensures Valid() && abs == PackOne(old(abs), cap, nonce)
    {
      var data, next := FillPacket(outMessage.msg, outMessage.idx, cap);
      ghost var e := PackOne(abs, cap, nonce);
      var piece := Piece(data, outMessage.idx);
      var finished := next > |outMessage.msg|;
      assert e == abs.(stream := abs.stream + [Cell(piece, nonce)],
                       pending := if finished then Idle else Packing(outMessage.msg, next));
      Push(piece, nonce, if finished then Idle else Packing(outMessage.msg, next), e);
    }

    /** The packet and what is left to pack. */
    method Push(piece: Piece, nonce: bv64, rest: Pending, ghost e: Endpoint)
      requires Valid() && OutHead(abs) - abs.outTail < WINDOW && PendingOk(rest)
      requires e == abs.(stream := abs.stream + [Cell(piece, nonce)], pending := rest)
      modifies this`outHead, this`outMessage, this`abs, outgoing, outNonce, outDigest
      ensures Valid() && abs == e
    {
      Put(outHead, piece, nonce, abs.outTail, abs.stream);
      abs := e;
      outHead := outHead + 1;
      outMessage := rest;
    }

    method PackFragments(cap: nat, rand: nat -> bv64)
      requires Valid()
      modifies this`outHead, this`outMessage, this`abs, outgoing, outNonce, outDigest
      ensures Valid() && abs == PackLoop(old(abs), cap, rand)
    {
      while outHead - outTail < WINDOW && outMessage.Packing?
        invariant Valid() && PackLoop(abs, cap, rand) == PackLoop(old(abs), cap, rand)
        decreases outTail + WINDOW - outHead
      {
        PackPacket(cap, rand(outHead));
      }
    }

    /** The packet with sequence number `s`, its tail filled in. */
    method SendData(s: nat) returns (p: Packet)
      requires Valid() && outTail <= s < tcpHead
      ensures p == Stamp(abs, s, abs.stream[s - 1])
    {
      p := Packet(my, ngbr, s, Cell(outgoing[Slot(s)], outNonce[Slot(s)]), inTail - 1, aruDigest);
    }

    method SendNext() returns (p: Packet)
      requires Valid() && tcpHead < outHead
      modifies this`tcpHead, this`abs
      ensures Valid() && abs == old(abs).(tcpHead := old(abs).tcpHead + 1)
      ensures p == Stamp(old(abs), old(abs).tcpHead, old(abs).stream[old(abs).tcpHead - 1])
    {
      abs := abs.(tcpHead := tcpHead + 1);
      tcpHead := tcpHead + 1;
      p := SendData(tcpHead - 1);
    }

    /** Sends what the congestion window now allows, in order; only what exceeds it stays behind. */
    method SendAllowed(cwnd: nat) returns (sent: seq<Packet>)
      requires Valid()
      modifies this`tcpHead, this`abs
      ensures Valid() && abs == OpenWindow(old(abs), cwnd)
      ensures sent == NowSent(old(abs), cwnd)
      ensures tcpHead < outHead ==> outTail + cwnd <= tcpHead
      ensures old(tcpHead) < tcpHead ==> tcpHead <= outTail + cwnd
    {
      ghost var e := abs;
      var j := Min(outHead, outTail + cwnd);
      sent := [];
      while tcpHead < j
        invariant Valid() && e.tcpHead <= tcpHead <= Max(e.tcpHead, j) && abs == e.(tcpHead := tcpHead)
        invariant sent == Burst(e, e.tcpHead, tcpHead)
      {
        var p := SendNext();
        sent := sent + [p];
      }
    }

    /** The sum of the fragment lengths in 16 bits. */
    method SizeOf(m: Message) returns (size: nat)
      ensures size == Size(m) % 0x1_0000
    {
      size := 0;
      for i := 0 to |m|
        invariant size == Size(m[..i]) % 0x1_0000
      {
        assert m[..i + 1][..i] == m[..i];
        size := (size + |m[i]|) % 0x1_0000;
      }
      assert m[..|m|] == m;
    }

    /**
     * A message for the link; refused while another is being packed, if its size check fails, or if
     * its header is malformed.
     */
    method Forward(m: Message, headerOk: bool, cap: nat, cwnd: nat, rand: nat -> bv64)
        returns (accepted: bool, sent: seq<Packet>)
      requires Valid()
      modifies this`outHead, this`outMessage, this`tcpHead, this`abs, outgoing, outNonce, outDigest
      ensures Valid() && accepted == (old(abs).pending.Idle? && !Oversize(m, cap) && headerOk)
      ensures abs == if accepted then Submit(old(abs), m, cap, cwnd, rand) else old(abs)
      ensures sent == if accepted then NowSent(Started(old(abs), m, cap, rand), cwnd) else []
    {
      var size := SizeOf(m);
      accepted := outMessage.Idle? && size + MAX_PACKETS * FRAG_HEADER <= MAX_PACKETS * cap && headerOk;
      sent := [];
      if accepted {
        sent := Begin(m, cap, cwnd, rand);
      }
    }

    method Begin(m: Message, cap: nat, cwnd: nat, rand: nat -> bv64) returns (sent: seq<Packet>)
      requires Valid() && abs.pending.Idle?
      modifies this`outHead, this`outMessage, this`tcpHead, this`abs, outgoing, outNonce, outDigest
      ensures Valid() && abs == Submit(old(abs), m, cap, cwnd, rand)
      ensures sent == NowSent(Started(old(abs), m, cap, rand), cwnd)
    {
      outMessage := Packing(m, 1);
      abs := abs.(pending := Packing(m, 1), epoch := abs.epoch + [m]);
      PackFragments(cap, rand);
      sent := SendAllowed(cwnd);
    }

    /** Compares the ack's digest with the one in its slot of the digest ring. */
    method DigestMatches(p: Packet) returns (ok: bool)
      requires Valid() && AckInWindow(abs, p)
      ensures ok == NonceMatches(abs, p)
    {
      ok := p.aruNonce == outDigest[Slot(p.aru)];
    }

    /** Frees the packets up to `aru`. */
    method FreeThrough(aru: nat)
      requires Valid() && outTail <= aru < tcpHead
      modifies this`outTail, this`abs
      ensures Valid() && abs == old(abs).(outTail := aru + 1)
    {
      outTail := aru + 1;
      abs := abs.(outTail := aru + 1);
    }

    /** The cumulative ack, part 1 of `Process_IT_Ack`: refused if its nonce digest is wrong. */
    method ProcessAck(p: Packet, cap: nat, cwnd: nat, rand: nat -> bv64) returns (ok: bool, sent: seq<Packet>)
      requires Valid()
      modifies this`outTail, this`outHead, this`outMessage, this`tcpHead, this`abs, outgoing, outNonce, outDigest
      ensures Valid() && ok == (AckInWindow(old(abs), p) ==> NonceMatches(old(abs), p))
      ensures abs == if ok then TakeAck(old(abs), p, cap, cwnd, rand) else old(abs)
      ensures sent == if ok && AckInWindow(old(abs), p) then NowSent(old(abs).(outTail := p.aru + 1), cwnd) else []
    {
      ok, sent := true, [];
      if outTail <= p.aru < tcpHead {
        ok := DigestMatches(p);
        if ok {
          sent := ApplyAck(p, cap, cwnd, rand);
        }
      }
    }

    method ApplyAck(p: Packet, cap: nat, cwnd: nat, rand: nat -> bv64) returns (sent: seq<Packet>)
      requires Valid() && AckInWindow(abs, p)
      modifies this`outTail, this`outHead, this`outMessage, this`tcpHead, this`abs, outgoing, outNonce, outDigest
      ensures Valid() && abs == TakeAck(old(abs), p, cap, cwnd, rand)
      ensures sent == NowSent(old(abs).(outTail := p.aru + 1), cwnd)
    {
      sent := ApplyThrough(p.aru, cap, cwnd, rand);
    }

    method ApplyThrough(aru: nat, cap: nat, cwnd: nat, rand: nat -> bv64) returns (sent: seq<Packet>)
      requires Valid() && outTail <= aru < tcpHead
      modifies this`outTail, this`outHead, this`outMessage, this`tcpHead, this`abs, outgoing, outNonce, outDigest
      ensures Valid() && abs == PackLoop(OpenWindow(old(abs).(outTail := aru + 1), cwnd), cap, rand)
      ensures sent == NowSent(old(abs).(outTail := aru + 1), cwnd)
    {
      FreeThrough(aru);
      sent := SendAllowed(cwnd);
      PackFragments(cap, rand);
    }

    /** Puts a packet into its slot of the receive window. */
    method Place(no: nat, c: Cell, ghost lo: nat, ghost hi: nat, ghost held: map<nat, Cell>)
      requires Shape() && lo <= no < lo + WINDOW && InRing(lo, hi, held)
      modifies incoming, inNonce
      ensures InRing(lo, hi, held[no := c])
    {
      Around(lo, no);
      incoming[Slot(no)] := Entry(Recvd, c.piece);
      inNonce[Slot(no)] := c.nonce;
    }

    /** Marks the slots from the head up to the packet `no` as missing and moves the head behind it. */
    method FillNacks(no: nat, ghost lo: nat, ghost held: map<nat, Cell>)
      requires Shape() && lo <= inHead <= no < lo + WINDOW && InRing(lo, inHead, held) && no in held
      requires forall s :: s in held ==> s < inHead || s == no
      modifies this`inHead, incoming
      ensures inHead == no + 1 && InRing(lo, no + 1, held)
    {
      var i := Slot(inHead);
      while inHead < no
        invariant lo <= inHead <= no && i == Slot(inHead) && InRing(lo, inHead, held)
        invariant forall s :: s in held ==> s < inHead || s == no
      {
        Around(lo, inHead);
        incoming[i] := incoming[i].(flag := Nack);
        inHead := inHead + 1;
        i := if i + 1 >= WINDOW then 0 else i + 1;
      }
      inHead := inHead + 1;
    }

    method Store(p: Packet)
      requires Valid() && IsNew(abs, p)
      modifies this`inHead, this`abs, incoming, inNonce
      ensures Core() && abs == Hold(old(abs), p)
    {
      ghost var e := Hold(abs, p);
      Place(p.no, p.cell, abs.inTail, abs.inHead, abs.held);
      if p.no >= inHead {
        FillNacks(p.no, abs.inTail, e.held);
      }
      abs := e;
    }

    /** Clears the slot at the tail. */
    method Vacate(ghost lo: nat, ghost hi: nat, ghost held: map<nat, Cell>)
      requires Shape() && inTail == lo && lo < hi <= lo + WINDOW && InRing(lo, hi, held)
      requires forall s :: s in held ==> s < hi
      modifies incoming, inNonce
      ensures InRing(lo + 1, hi, held - {lo})
    {
      Around(lo, lo);
      SameSlot(lo);
      inNonce[Slot(inTail)] := 0;
      incoming[Slot(inTail)] := VACANT;
    }

    /** The scalars of the receiving side follow the ring. */
    method SetTail(digest: bv64, taken: Intake, ghost e: Endpoint)
      requires Shape() && OutScalars() && InScalars() && Windows(e) && HeldInWindow(e) && PendingOk(e.pending)
      requires OutRing(e.outTail, OutHead(e), e.stream) && DigestRing(e.outTail, OutHead(e), e.stream)
      requires InRing(e.inTail, e.inHead, e.held)
      requires e == abs.(digest := digest, intake := taken, held := e.held, inTail := abs.inTail + 1)
      modifies this`inTail, this`aruDigest, this`intake, this`abs
      ensures Core() && abs == e
    {
      inTail, aruDigest, intake := inTail + 1, digest, taken;
      abs := e;
    }

    method MoveTail(digest: bv64, taken: Intake, ghost e: Endpoint)
      requires Core() && abs.inTail in abs.held
      requires e == abs.(digest := digest, intake := taken, held := abs.held - {abs.inTail}, inTail := abs.inTail + 1)
      modifies this`inTail, this`aruDigest, this`intake, this`abs, incoming, inNonce
      ensures Core() && abs == e
    {
      TailBounds(abs, e);
      Vacate(abs.inTail, abs.inHead, abs.held);
      SetTail(digest, taken, e);
    }

    /** One turn of the loop that moves the tail: digest, message under construction, slot. */
    method TakeSlot()
      requires Core() && abs.inTail in abs.held
      modifies this`inTail, this`aruDigest, this`intake, this`abs, incoming, inNonce
      ensures Core() && abs == TakeOne(old(abs))
    {
      var taken := Deliver(intake, incoming[Slot(inTail)].piece.data);
      MoveTail(Xor(aruDigest, inNonce[Slot(inTail)]), taken, TakeOne(abs));
    }

    /** Part 3 of `Process_IT_Ack`: store a new data packet and move the tail as far as it goes. */
    method ProcessData(p: Packet) returns (isNew: bool)
      requires Valid()
      modifies this`inHead, this`inTail, this`aruDigest, this`intake, this`abs, incoming, inNonce
      ensures Valid() && isNew == IsNew(old(abs), p) && abs == TakeData(old(abs), p)
    {
      isNew := false;
      if p.no == 0 || p.no < inTail || p.no >= inTail + WINDOW { return; }
      if incoming[Slot(p.no)].flag == Recvd { return; }
      isNew := true;
      Store(p);
      while incoming[Slot(inTail)].flag == Recvd
        invariant Core() && Advance(abs) == TakeData(old(abs), p)
        decreases |abs.held|
      {
        HeldShrinks(abs.held, abs.inTail);
        TakeSlot();
      }
    }

    // ----- Incarnation change -----

    /** Empties the receive window; the digest slots of the same indices are zeroed along. */
    method ClearIncoming()
      requires Shape() && inTail <= inHead <= inTail + WINDOW
      requires forall s: nat :: inHead <= s < inTail + WINDOW ==> incoming[Slot(s)].flag == Empty
      modifies incoming, inNonce, outDigest
      ensures forall k :: 0 <= k < WINDOW ==> incoming[k].flag == Empty
    {
      var i := inTail;
      while i < inHead
        invariant inTail <= i <= inHead
        invariant forall s: nat :: inTail <= s < inTail + WINDOW && (s < i || inHead <= s) ==>
                    incoming[Slot(s)].flag == Empty
      {
        Around(inTail, i);
        outDigest[Slot(i)] := 0;
        incoming[Slot(i)] := VACANT;
        inNonce[Slot(i)] := 0;
        i := i + 1;
      }
      forall k | 0 <= k < WINDOW ensures incoming[k].flag == Empty {
        var s := Reaches500(inTail, k);
      }
    }

    /** The outgoing packets alone; the digests may be gone. */
    ghost predicate OutBuffer()
      reads this, outgoing, outNonce
    {
      && Shape() && outTail == abs.outTail && outHead == OutHead(abs) && 1 <= outTail <= outHead <= outTail + WINDOW
      && OutRing(outTail, outHead, abs.stream)
    }

    method ResetIncoming(newNgbr: nat)
      requires Valid()
      modifies this`ngbr, this`inTail, this`inHead, this`aruDigest, this`intake, incoming, inNonce, outDigest
      ensures InClean() && ngbr == newNgbr && outDigest[0] == 0 && OutBuffer()
    {
      ngbr := newNgbr;
      ClearIncoming();
      intake, inTail, inHead := NOTHING, 1, 1;
      outDigest[0] := 0;
      aruDigest := 0;
    }

    /** How many leading packets of the window do not start a message. */
    method CountSkipped() returns (first: nat)
      requires OutBuffer()
      ensures outTail <= first <= outHead && abs.stream[first - 1..] == Survivors(Window(abs))
    {
      first := outTail;
      while first < outHead && outgoing[Slot(first)].first != 1
        invariant outTail <= first <= outHead && Survivors(abs.stream[first - 1..]) == Survivors(Window(abs))
      {
        assert abs.stream[first - 1..][1..] == abs.stream[first..];
        first := first + 1;
      }
    }

    /** The packets from `first` on, in the order of their new numbers 1, 2, ... */
    method CopyWindow(first: nat, ghost cells: seq<Cell>) returns (temp: array<Piece>)
      requires OutBuffer() && outTail <= first <= outHead && cells == abs.stream[first - 1..]
      ensures fresh(temp) && temp.Length == WINDOW
      ensures forall t: nat {:trigger Slot(t)} :: 1 <= t <= |cells| ==> temp[Slot(t)] == cells[t - 1].piece
    {
      temp := new Piece[WINDOW](_ => Piece([], 0));
      var j, i := 1, first;
      while i < outHead
        invariant first <= i <= outHead && i - first == j - 1
        invariant forall t: nat {:trigger Slot(t)} :: 1 <= t < j ==> temp[Slot(t)] == cells[t - 1].piece
      {
        Apart2(1, j);
        temp[Slot(j)] := outgoing[Slot(i)];
        i, j := i + 1, j + 1;
      }
    }

    /** Writes `n` packets back under the numbers 1 .. `n`, with new nonces and digests. */
    method Rewrite(temp: array<Piece>, n: nat, rand: nat -> bv64, ghost cells: seq<Cell>)
      requires Shape() && n <= WINDOW == temp.Length && outDigest[0] == 0 && |cells| == n
      requires temp != outgoing && temp as object != outNonce && temp as object != outDigest
      requires forall t: nat {:trigger Slot(t)} :: 1 <= t <= n ==> temp[Slot(t)] == cells[t - 1].piece
      modifies outgoing, outNonce, outDigest
      ensures OutRing(1, n + 1, Renumber(cells, rand)) && DigestRing(1, n + 1, Renumber(cells, rand))
    {
      ghost var kept := Renumber(cells, rand);
      var i := 1;
      while i <= n
        invariant 1 <= i <= n + 1 && OutRing(1, i, kept[..i - 1]) && DigestRing(1, i, kept[..i - 1])
        invariant temp[..] == old(temp[..])
      {
        Put(i, temp[Slot(i)], rand(i), 1, kept[..i - 1]);
        assert kept[..i] == kept[..i - 1] + [kept[i - 1]];
        i := i + 1;
      }
      assert kept[..n] == kept;
    }

    /** Puts the surviving packets back under the numbers from 1 on. */
    method RenumberWindow(rand: nat -> bv64) returns (n: nat)
      requires OutBuffer() && outDigest[0] == 0
      modifies outgoing, outNonce, outDigest
      ensures var kept := Renumber(Survivors(Window(abs)), rand);
              n == |kept| <= WINDOW && OutRing(1, n + 1, kept) && DigestRing(1, n + 1, kept)
    {
      var first := CountSkipped();
      ghost var cells := Survivors(Window(abs));
      var temp := CopyWindow(first, cells);
      n := outHead - first;
      Rewrite(temp, n, rand, cells);
    }

    /** The receiving side has started over. */
    ghost predicate InClean()
      reads this, incoming, inNonce
    {
      && Shape() && inTail == inHead == 1 && aruDigest == 0 && intake == NOTHING && InRing(1, 1, map[])
    }

    /** The outgoing side starts with the packets `1` .. `n` in place. */
    method StartOver(n: nat, rest: Pending, ghost e: Endpoint)
      requires InClean() && n == |e.stream| <= WINDOW && OutRing(1, n + 1, e.stream) && DigestRing(1, n + 1, e.stream)
      requires my == e.my > 0 && ngbr == e.ngbr && e.outTail == 1 && e.tcpHead == Min(2, n + 1) && e.pending == rest
      requires e.inTail == e.inHead == 1 && e.digest == 0 && e.intake == NOTHING && e.held == map[] && PendingOk(rest)
      modifies this`outTail, this`outHead, this`tcpHead, this`outMessage, this`abs
      ensures Valid() && abs == e
    {
      outTail, outHead, tcpHead, outMessage := 1, n + 1, Min(2, n + 1), rest;
      abs := e;
    }

    /** The outgoing side with reintroduction; `e` is the state with the receiving side reset. */
    method ReintroducePackets(cap: nat, rand: nat -> bv64, ghost e: Endpoint)
      requires InClean() && OutBuffer() && outDigest[0] == 0 && e.stream == abs.stream && e.outTail == abs.outTail
      requires my == e.my > 0 && ngbr == e.ngbr && outMessage == e.pending && PendingOk(e.pending)
      requires e.inTail == e.inHead == 1 && e.digest == 0 && e.intake == NOTHING && e.held == map[]
      modifies this`outTail, this`outHead, this`tcpHead, this`outMessage, this`abs, outgoing, outNonce, outDigest
      ensures Valid() && abs == Reintroduce(e, cap, rand)
    {
      var n := RenumberWindow(rand);
      ReintroduceIs(e, cap, rand);
      StartOver(n, outMessage, Kept(e, cap, rand));
      PackFragments(cap, rand);
    }

    /** `Incarnation_Change`. */
    method IncarnationChange(newNgbr: nat, reintroduce: bool, cap: nat, rand: nat -> bv64)
      requires Valid()
      modifies this, incoming, inNonce, outgoing, outNonce, outDigest
      ensures Valid() && abs == Learned(old(abs), newNgbr, reintroduce, cap, rand)
    {
      ghost var e := ResetIn(abs, newNgbr);
      ResetIncoming(newNgbr);
      if reintroduce {
        ReintroducePackets(cap, rand, e);
      } else {
        StartOver(0, Idle, ResetOut(e, [], false, cap, rand));
      }
    }
  }
}

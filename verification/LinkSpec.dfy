/**
 * One end of an intrusion-tolerant link (daemon/intrusion_tol_udp.c), with its sequence numbers
 * unbounded and its windows as plain sequences. The rings that implement it are in LinkRing.
 */
module LinkSpec {
  import opened Fragments

  const WINDOW: nat := 500   // MAX_SEND_ON_LINK

  function Xor(a: bv64, b: bv64): bv64 { a ^ b }

  /** A packet's data and the index in its first fragment header. */
  datatype Piece = Piece(data: Bytes, first: nat)

  datatype Cell = Cell(piece: Piece, nonce: bv64)

  /** The nonces 1 .. `n` folded together. */
  function Digest(cells: seq<Cell>, n: nat): bv64
    requires n <= |cells|
  {
    if n == 0 then 0 else Xor(Digest(cells, n - 1), cells[n - 1].nonce)
  }

  lemma {:induction false} DigestPrefix(a: seq<Cell>, b: seq<Cell>, n: nat)
    requires a <= b && n <= |a|
    ensures Digest(a, n) == Digest(b, n)
  {
    if n != 0 {
      DigestPrefix(a, b, n - 1);
    }
  }

  /** The message being packed and its next fragment. */
  datatype Pending = Idle | Packing(msg: Message, idx: nat)

  /** What the receiver of a link consumes: the message under way and the messages handed up. */
  datatype Intake = Intake(partial: Partial, delivered: seq<Message>, failed: bool)

  const NOTHING := Intake(FRESH, [], false)

  /** A packet taken in order. */
  function Consume(t: Intake, data: Bytes): Intake {
    var (code, p) := Build(t.partial, data);
    if code < 0 then Intake(p, t.delivered, true)
    else if code == 1 then Intake(FRESH, t.delivered + [p.frags], t.failed)
    else Intake(p, t.delivered, t.failed)
  }

  function ConsumeAll(t: Intake, cells: seq<Cell>): Intake {
    if cells == [] then t
    else Consume(ConsumeAll(t, cells[..|cells| - 1]), cells[|cells| - 1].piece.data)
  }

  /**
   * `stream` holds every packet put into the outgoing window since the last incarnation change, so
   * packet s is `stream[s - 1]` and the head is |stream| + 1. `held` are the packets received out of
   * order. `epoch` logs the messages accepted for sending in the same period.
   */
  datatype Endpoint = Endpoint(
    my: nat, ngbr: nat,
    stream: seq<Cell>, outTail: nat, tcpHead: nat, pending: Pending, epoch: seq<Message>,
    inTail: nat, inHead: nat, held: map<nat, Cell>, digest: bv64, intake: Intake)

  function OutHead(e: Endpoint): nat { |e.stream| + 1 }

  /** The state of a link at creation, before the neighbour's incarnation is known. */
  function Fresh(my: nat): Endpoint {
    Endpoint(my, 0, [], 1, 1, Idle, [], 1, 1, map[], 0, NOTHING)
  }

  /** The bounds of both windows. */
  predicate Windows(e: Endpoint) {
    && 1 <= e.outTail <= e.tcpHead <= OutHead(e) <= e.outTail + WINDOW
    && 1 <= e.inTail <= e.inHead <= e.inTail + WINDOW && e.my > 0
  }

  predicate HeldInWindow(e: Endpoint) { forall s :: s in e.held ==> e.inTail <= s < e.inHead }

  // ----- Sending -----

  /** Packing goes on while there is room in the window and something to pack. */
  predicate CanPack(e: Endpoint) { OutHead(e) - e.outTail < WINDOW && e.pending.Packing? && PendingOk(e.pending) }

  /** A message without fragments still takes one, empty, packet. */
  predicate PendingOk(p: Pending) { p.Packing? ==> 1 <= p.idx <= |p.msg| || (p.msg == [] && p.idx == 1) }

  /** One packet more in the window. */
  function PackOne(e: Endpoint, cap: nat, nonce: bv64): Endpoint
    requires CanPack(e)
  {
    var m, i := e.pending.msg, e.pending.idx;
    var j := Stop(m, i, 0, cap);
    e.(stream := e.stream + [Cell(Piece(Encode(m, i, j - 1), i), nonce)],
       pending := if j > |m| then Idle else Packing(m, j))
  }

  /** `Pack_Fragments_Into_Packets_IT`; `rand` supplies the nonce of each sequence number. */
  function PackLoop(e: Endpoint, cap: nat, rand: nat -> bv64): Endpoint
    decreases e.outTail + WINDOW - OutHead(e)
  {
    if CanPack(e) then PackLoop(PackOne(e, cap, rand(OutHead(e))), cap, rand) else e
  }

  function Min(a: nat, b: nat): nat { if a <= b then a else b }

  function Max(a: nat, b: nat): nat { if a >= b then a else b }

  /** The usable head after the congestion window `cwnd` has been applied. */
  function OpenWindow(e: Endpoint, cwnd: nat): Endpoint {
    e.(tcpHead := Max(e.tcpHead, Min(OutHead(e), e.outTail + cwnd)))
  }

  function Size(m: Message): nat { if m == [] then 0 else Size(m[..|m| - 1]) + |m[|m| - 1]| }

  const MAX_PACKETS: nat := 45   // MAX_PKTS_PER_MESSAGE

  /** The size check, on a 16-bit sum: more than 45 packets of `cap` bytes with one fragment each could hold. */
  predicate Oversize(m: Message, cap: nat) { Size(m) % 0x1_0000 + MAX_PACKETS * FRAG_HEADER > MAX_PACKETS * cap }

  /** `Forward_Intru_Tol_Data` for a message that passes its checks. */
  function Submit(e: Endpoint, m: Message, cap: nat, cwnd: nat, rand: nat -> bv64): Endpoint {
    if e.pending.Packing? then e
    else OpenWindow(PackLoop(e.(pending := Packing(m, 1), epoch := e.epoch + [m]), cap, rand), cwnd)
  }

  // ----- Receiving -----

  datatype Packet = Packet(inc: nat, aruInc: nat, no: nat, cell: Cell, aru: nat, aruNonce: bv64)

  /** The tail every packet carries: incarnations and the cumulative ack. */
  function Stamp(e: Endpoint, s: nat, c: Cell): Packet
    requires e.inTail > 0
  {
    Packet(e.my, e.ngbr, s, c, e.inTail - 1, e.digest)
  }

  predicate Accepts(e: Endpoint, p: Packet) { p.inc == e.ngbr && p.aruInc == e.my }

  predicate AckInWindow(e: Endpoint, p: Packet) { e.outTail <= p.aru < e.tcpHead }

  /** The cumulative ack: free what is acked, open the window, pack more. Needs a matching nonce digest. */
  function TakeAck(e: Endpoint, p: Packet, cap: nat, cwnd: nat, rand: nat -> bv64): Endpoint {
    if AckInWindow(e, p) then PackLoop(OpenWindow(e.(outTail := p.aru + 1), cwnd), cap, rand) else e
  }

  predicate NonceMatches(e: Endpoint, p: Packet)
    requires AckInWindow(e, p) && e.tcpHead <= OutHead(e)
  {
    p.aruNonce == Digest(e.stream, p.aru)
  }

  /** A data packet is new if its number is in the receive window and it is not held yet. */
  predicate IsNew(e: Endpoint, p: Packet) {
    p.no > 0 && e.inTail <= p.no < e.inTail + WINDOW && p.no !in e.held
  }

  function Hold(e: Endpoint, p: Packet): Endpoint {
    e.(held := e.held[p.no := p.cell], inHead := Max(e.inHead, p.no + 1))
  }

  /** One step of moving the tail over held packets. */
  function TakeOne(e: Endpoint): Endpoint
    requires e.inTail in e.held
  {
    var c := e.held[e.inTail];
    e.(digest := Xor(e.digest, c.nonce), intake := Consume(e.intake, c.piece.data),
       held := e.held - {e.inTail}, inTail := e.inTail + 1)
  }

  function Advance(e: Endpoint): Endpoint
    decreases |e.held|
  {
    if e.inTail in e.held then
      assert e.held.Keys == (e.held - {e.inTail}).Keys + {e.inTail};
      Advance(TakeOne(e))
    else e
  }

  function TakeData(e: Endpoint, p: Packet): Endpoint {
    if IsNew(e, p) then Advance(Hold(e, p)) else e
  }

  // ----- Incarnation change -----

  /** Leading packets that do not start a message are dropped. */
  function Survivors(cells: seq<Cell>): seq<Cell> {
    if cells == [] || cells[0].piece.first == 1 then cells else Survivors(cells[1..])
  }

  function Renumber(cells: seq<Cell>, rand: nat -> bv64): (r: seq<Cell>)
    ensures |r| == |cells| && forall i :: 0 <= i < |r| ==> r[i] == Cell(cells[i].piece, rand(i + 1))
  {
    seq(|cells|, i requires 0 <= i < |cells| => Cell(cells[i].piece, rand(i + 1)))
  }

  /** The receive side starts over. */
  function ResetIn(e: Endpoint, ngbr: nat): Endpoint {
    e.(ngbr := ngbr, inTail := 1, inHead := 1, held := map[], digest := 0, intake := NOTHING)
  }

  /** The unacked packets of the outgoing window. */
  function Window(e: Endpoint): seq<Cell> {
    if 1 <= e.outTail <= |e.stream| + 1 then e.stream[e.outTail - 1..] else []
  }

  /** Dropping all outgoing traffic, or renumbering the surviving packets from 1 with new nonces. */
  function ResetOut(e: Endpoint, epoch: seq<Message>, reintroduce: bool, cap: nat, rand: nat -> bv64): Endpoint {
    if reintroduce then
      var kept := Renumber(Survivors(Window(e)), rand);
      PackLoop(e.(stream := kept, outTail := 1, tcpHead := Min(2, |kept| + 1), epoch := epoch), cap, rand)
    else
      e.(stream := [], outTail := 1, tcpHead := 1, pending := Idle, epoch := [])
  }
}

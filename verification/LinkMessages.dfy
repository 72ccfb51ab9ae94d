/**
 * The outgoing window as messages: what has been packed together with what is still to be packed
 * is always a concatenation of whole messages, and the receiver gets them back one by one.
 */
module LinkMessages {
  import opened Fragments
  import opened LinkSpec

  /** The packets of a message from fragment `i` on, each with its first fragment index. */
  function Pieces(m: Message, i: nat, cap: nat): seq<Piece>
    requires 1 <= i <= |m| + 1
    decreases |m| + 1 - i
  {
    var j := Stop(m, i, 0, cap);
    if j == i then [] else [Piece(Encode(m, i, j - 1), i)] + Pieces(m, j, cap)
  }

  function AllPieces(ms: seq<Message>, cap: nat): seq<Piece> {
    if ms == [] then [] else AllPieces(ms[..|ms| - 1], cap) + Pieces(ms[|ms| - 1], 1, cap)
  }

  /** What is still to be packed. */
  function Rest(p: Pending, cap: nat): seq<Piece>
    requires PendingOk(p)
  {
    if p.Idle? then [] else Pieces(p.msg, p.idx, cap)
  }

  function PiecesOf(cells: seq<Cell>): (ps: seq<Piece>)
    ensures |ps| == |cells| && forall i :: 0 <= i < |ps| ==> ps[i] == cells[i].piece
  {
    seq(|cells|, i requires 0 <= i < |cells| => cells[i].piece)
  }

  ghost predicate Sendables(ms: seq<Message>, cap: nat) { forall i :: 0 <= i < |ms| ==> Sendable(ms[i], cap) }

  /**
   * The stream and the rest of the message being packed are the whole messages of the epoch; and
   * packing stops in the middle of a message only for a full window.
   */
  ghost predicate Whole(e: Endpoint, cap: nat) {
    && PendingOk(e.pending) && Sendables(e.epoch, cap)
    && PiecesOf(e.stream) + Rest(e.pending, cap) == AllPieces(e.epoch, cap)
    && (e.pending.Packing? ==> e.epoch != [] && e.epoch[|e.epoch| - 1] == e.pending.msg)
  }

  ghost predicate Packed(e: Endpoint) { e.pending.Packing? ==> OutHead(e) - e.outTail >= WINDOW }

  lemma PackOneWhole(e: Endpoint, cap: nat, nonce: bv64)
    requires Whole(e, cap) && CanPack(e)
    ensures Whole(PackOne(e, cap, nonce), cap)
  {
    var m, i := e.pending.msg, e.pending.idx;
    assert Sendable(m, cap) by { assert Sendable(e.epoch[|e.epoch| - 1], cap); }
    Progress(m, i, cap);
    var j := Stop(m, i, 0, cap);
    var e' := PackOne(e, cap, nonce);
    var piece := Piece(Encode(m, i, j - 1), i);
    assert Pieces(m, i, cap) == [piece] + Pieces(m, j, cap);
    if j > |m| {
      assert Pieces(m, j, cap) == [];
    }
    assert PiecesOf(e'.stream) == PiecesOf(e.stream) + [piece];
    Shift(PiecesOf(e.stream), piece, Pieces(m, j, cap));
  }

  lemma Shift(a: seq<Piece>, p: Piece, b: seq<Piece>)
    ensures (a + [p]) + b == a + ([p] + b)
  {
  }

  /** The packing loop keeps the messages whole and stops only when idle or full; it only appends. */
  lemma {:induction false} PackLoopWhole(e: Endpoint, cap: nat, rand: nat -> bv64)
    requires Whole(e, cap)
    ensures var e' := PackLoop(e, cap, rand);
            && Whole(e', cap) && Packed(e') && e.stream <= e'.stream
            && e' == e.(stream := e'.stream, pending := e'.pending)
    decreases e.outTail + WINDOW - OutHead(e)
  {
    if CanPack(e) {
      PackOneWhole(e, cap, rand(OutHead(e)));
      PackLoopWhole(PackOne(e, cap, rand(OutHead(e))), cap, rand);
    }
  }

  lemma {:induction false} PackLoopBound(e: Endpoint, cap: nat, rand: nat -> bv64)
    requires OutHead(e) <= e.outTail + WINDOW
    ensures var e' := PackLoop(e, cap, rand);
            && OutHead(e') <= e'.outTail + WINDOW && e.stream <= e'.stream
            && e' == e.(stream := e'.stream, pending := e'.pending)
    decreases e.outTail + WINDOW - OutHead(e)
  {
    if CanPack(e) {
      PackLoopBound(PackOne(e, cap, rand(OutHead(e))), cap, rand);
    }
  }

  /** A message put up for sending joins the epoch. */
  lemma StartWhole(e: Endpoint, m: Message, cap: nat)
    requires Whole(e, cap) && e.pending.Idle? && Sendable(m, cap)
    ensures Whole(e.(pending := Packing(m, 1), epoch := e.epoch + [m]), cap)
  {
    assert (e.epoch + [m])[..|e.epoch|] == e.epoch;
  }

  // ----- Delivery of whole messages -----

  /** Only the first packet of a message has first fragment index 1. */
  lemma {:induction false} PiecesFirst(m: Message, i: nat, cap: nat, k: nat)
    requires 1 <= i <= |m| + 1 && k < |Pieces(m, i, cap)|
    ensures Pieces(m, i, cap)[k].first >= i && (Pieces(m, i, cap)[k].first == i <==> k == 0)
    decreases |m| + 1 - i
  {
    if k != 0 {
      var j := Stop(m, i, 0, cap);
      PiecesFirst(m, j, cap, k - 1);
    }
  }

  lemma {:induction false} PiecesCount(m: Message, i: nat, cap: nat)
    requires 1 <= i <= |m| + 1
    ensures |Pieces(m, i, cap)| <= |m| + 1 - i
    ensures Sendable(m, cap) && i <= |m| ==> |Pieces(m, i, cap)| >= 1
    decreases |m| + 1 - i
  {
    var j := Stop(m, i, 0, cap);
    if j > i {
      PiecesCount(m, j, cap);
    } else if Sendable(m, cap) && i <= |m| {
      Progress(m, i, cap);
    }
  }

  function Eat(t: Intake, ps: seq<Piece>): Intake {
    if ps == [] then t else Consume(Eat(t, ps[..|ps| - 1]), ps[|ps| - 1].data)
  }

  /** The receiver is `n` packets into message `m` after the messages `done`. */
  ghost predicate Midway(t: Intake, done: seq<Message>, m: Message, cap: nat, n: nat)
    requires |m| > 0 && n <= |Pieces(m, 1, cap)|
  {
    !t.failed &&
    if n == |Pieces(m, 1, cap)| then t == Intake(FRESH, done + [m], false)
    else exists i :: 1 <= i <= |m| && Reaches(m, cap, n, i) && t == Intake(Arrived(m, i - 1), done, false)
  }

  lemma MidwayAt(t: Intake, done: seq<Message>, m: Message, cap: nat, n: nat) returns (i: nat)
    requires |m| > 0 && n < |Pieces(m, 1, cap)| && Midway(t, done, m, cap, n)
    ensures 1 <= i <= |m| && Reaches(m, cap, n, i) && t == Intake(Arrived(m, i - 1), done, false)
  {
    i :| 1 <= i <= |m| && Reaches(m, cap, n, i) && t == Intake(Arrived(m, i - 1), done, false);
  }

  /** After `n` packets the next fragment is `i`. */
  ghost predicate Reaches(m: Message, cap: nat, n: nat, i: nat)
    requires 1 <= i <= |m| + 1 && |m| > 0
  {
    n <= |Pieces(m, 1, cap)| && Pieces(m, 1, cap)[n..] == Pieces(m, i, cap)
  }

  lemma NextPiece(m: Message, cap: nat, n: nat, i: nat) returns (j: nat)
    requires Sendable(m, cap) && 1 <= i <= |m| && Reaches(m, cap, n, i) && n < |Pieces(m, 1, cap)|
    ensures i < j <= |m| + 1 && Pieces(m, 1, cap)[n] == Piece(Encode(m, i, j - 1), i)
    ensures Reaches(m, cap, n + 1, j) && (n + 1 == |Pieces(m, 1, cap)| <==> j > |m|)
  {
    j := Stop(m, i, 0, cap);
    Progress(m, i, cap);
    assert Pieces(m, i, cap) == [Piece(Encode(m, i, j - 1), i)] + Pieces(m, j, cap);
    var all := Pieces(m, 1, cap);
    assert all[n] == all[n..][0] && all[n + 1..] == all[n..][1..] == Pieces(m, j, cap);
    PiecesCount(m, j, cap);
  }

  lemma ConsumeEncoded(done: seq<Message>, m: Message, cap: nat, i: nat, j: nat)
    requires Sendable(m, cap) && 1 <= i < j <= |m| + 1
    ensures Consume(Intake(Arrived(m, i - 1), done, false), Encode(m, i, j - 1)) ==
            if j > |m| then Intake(FRESH, done + [m], false) else Intake(Arrived(m, j - 1), done, false)
  {
    BuildEncoded(m, i, j - 1);
    assert m[..|m|] == m;
  }

  lemma EatOne(done: seq<Message>, m: Message, cap: nat, n: nat, i: nat)
    requires Sendable(m, cap) && 1 <= i <= |m| && Reaches(m, cap, n, i) && n < |Pieces(m, 1, cap)|
    ensures Midway(Consume(Intake(Arrived(m, i - 1), done, false), Pieces(m, 1, cap)[n].data), done, m, cap, n + 1)
  {
    var j := NextPiece(m, cap, n, i);
    ConsumeEncoded(done, m, cap, i, j);
  }

  /** Eating the first `n` packets of a message after whole ones. */
  lemma {:induction false} EatMessage(done: seq<Message>, m: Message, cap: nat, n: nat)
    requires Sendable(m, cap) && n <= |Pieces(m, 1, cap)|
    ensures Midway(Eat(Intake(FRESH, done, false), Pieces(m, 1, cap)[..n]), done, m, cap, n)
  {
    var all := Pieces(m, 1, cap);
    PiecesCount(m, 1, cap);
    if n == 0 {
      assert all[0..] == all && Reaches(m, cap, 0, 1) && Arrived(m, 0) == FRESH;
    } else {
      EatMessage(done, m, cap, n - 1);
      assert all[..n][..n - 1] == all[..n - 1];
      var i := MidwayAt(Eat(Intake(FRESH, done, false), all[..n - 1]), done, m, cap, n - 1);
      EatOne(done, m, cap, n - 1, i);
    }
  }

  lemma {:induction false} EatSplit(t: Intake, a: seq<Piece>, b: seq<Piece>)
    ensures Eat(t, a + b) == Eat(Eat(t, a), b)
  {
    if b == [] {
      assert a + b == a;
    } else {
      assert (a + b)[..|a + b| - 1] == a + b[..|b| - 1];
      EatSplit(t, a, b[..|b| - 1]);
    }
  }

  /** No packet refused, exactly a prefix of the messages delivered, and all of them once all is consumed. */
  ghost predicate Prefixed(t: Intake, ms: seq<Message>, complete: bool) {
    !t.failed && t.delivered <= ms && (complete ==> t == Intake(FRESH, ms, false))
  }

  /**
   * Whatever prefix of the packets of some messages has been consumed, no packet was refused and
   * exactly a prefix of the messages has been delivered, each whole and in order.
   */
  lemma {:induction false} DeliveredPrefix(ms: seq<Message>, cap: nat, n: nat)
    requires Sendables(ms, cap) && n <= |AllPieces(ms, cap)|
    ensures Prefixed(Eat(NOTHING, AllPieces(ms, cap)[..n]), ms, n == |AllPieces(ms, cap)|)
  {
    if ms != [] {
      var front, m := ms[..|ms| - 1], ms[|ms| - 1];
      var pre := AllPieces(front, cap);
      assert Sendable(m, cap) && front + [m] == ms;
      DeliveredPrefix(front, cap, Min(n, |pre|));
      DeliveredOneMore(front, m, cap, pre, n);
    }
  }

  lemma DeliveredOneMore(front: seq<Message>, m: Message, cap: nat, pre: seq<Piece>, n: nat)
    requires Sendable(m, cap) && n <= |pre| + |Pieces(m, 1, cap)|
    requires Prefixed(Eat(NOTHING, pre[..Min(n, |pre|)]), front, Min(n, |pre|) == |pre|)
    ensures Prefixed(Eat(NOTHING, (pre + Pieces(m, 1, cap))[..n]), front + [m], n == |pre + Pieces(m, 1, cap)|)
  {
    PrefixOfPrefix(pre, Pieces(m, 1, cap), n);
    PiecesCount(m, 1, cap);
    if n > |pre| {
      assert pre[..|pre|] == pre;
      LastMessage(front, m, cap, pre, n - |pre|);
    }
  }

  lemma PrefixOfPrefix<T>(a: seq<T>, b: seq<T>, n: nat)
    requires n <= |a + b|
    ensures (a + b)[..n] == if n <= |a| then a[..n] else a + b[..n - |a|]
  {
  }

  lemma LastMessage(front: seq<Message>, m: Message, cap: nat, pre: seq<Piece>, k: nat)
    requires Sendable(m, cap) && 0 < k <= |Pieces(m, 1, cap)| && Eat(NOTHING, pre) == Intake(FRESH, front, false)
    ensures Prefixed(Eat(NOTHING, pre + Pieces(m, 1, cap)[..k]), front + [m], k == |Pieces(m, 1, cap)|)
  {
    EatSplit(NOTHING, pre, Pieces(m, 1, cap)[..k]);
    EatMessage(front, m, cap, k);
  }

  lemma {:induction false} ConsumeIsEat(t: Intake, cells: seq<Cell>)
    ensures ConsumeAll(t, cells) == Eat(t, PiecesOf(cells))
  {
    if cells != [] {
      ConsumeIsEat(t, cells[..|cells| - 1]);
      assert PiecesOf(cells)[..|cells| - 1] == PiecesOf(cells[..|cells| - 1]);
    }
  }

  // ----- Reintroduction after an incarnation change -----

  /** The fewest messages whose packets cover the first `n`. */
  function Cut(ms: seq<Message>, cap: nat, n: nat): (c: nat)
    ensures c <= |ms|
  {
    if ms != [] && n <= |AllPieces(ms[..|ms| - 1], cap)| then Cut(ms[..|ms| - 1], cap, n) else |ms|
  }

  /** `c` is the fewest messages whose packets cover the first `n`. */
  ghost predicate LeastCover(ms: seq<Message>, cap: nat, n: nat, c: nat)
    requires c <= |ms|
  {
    n <= |AllPieces(ms[..c], cap)| && (c > 0 ==> |AllPieces(ms[..c - 1], cap)| < n)
  }

  lemma {:induction false} CutIsLeast(ms: seq<Message>, cap: nat, n: nat)
    requires n <= |AllPieces(ms, cap)|
    ensures LeastCover(ms, cap, n, Cut(ms, cap, n))
  {
    var c := Cut(ms, cap, n);
    if c < |ms| {
      var front := ms[..|ms| - 1];
      CutIsLeast(front, cap, n);
      assert ms[..c] == front[..c] && (c > 0 ==> ms[..c - 1] == front[..c - 1]);
    } else {
      assert ms[..c] == ms;
    }
  }

  lemma {:induction false} AllPiecesSplit(ms: seq<Message>, cap: nat, c: nat)
    requires c <= |ms|
    ensures AllPieces(ms, cap) == AllPieces(ms[..c], cap) + AllPieces(ms[c..], cap)
  {
    if c == |ms| {
      assert ms[..c] == ms && ms[c..] == [];
    } else {
      var front, m := ms[..|ms| - 1], ms[|ms| - 1];
      AllPiecesSplit(front, cap, c);
      LastOff(ms, c);
      Regroup(AllPieces(front[..c], cap), AllPieces(front[c..], cap), Pieces(m, 1, cap));
    }
  }

  lemma LastOff(ms: seq<Message>, c: nat)
    requires c < |ms|
    ensures ms[..|ms| - 1][..c] == ms[..c] && ms[c..][..|ms[c..]| - 1] == ms[..|ms| - 1][c..]
  {
  }

  lemma Regroup(a: seq<Piece>, b: seq<Piece>, c: seq<Piece>)
    ensures (a + b) + c == a + (b + c)
  {
  }

  /** Dropping leading packets up to the first that starts a message. */
  function SurvivingPieces(ps: seq<Piece>): seq<Piece> {
    if ps == [] || ps[0].first == 1 then ps else SurvivingPieces(ps[1..])
  }

  lemma {:induction false} SurvivorsPieces(cells: seq<Cell>)
    ensures PiecesOf(Survivors(cells)) == SurvivingPieces(PiecesOf(cells))
  {
    if cells != [] && cells[0].piece.first != 1 {
      SurvivorsPieces(cells[1..]);
      assert PiecesOf(cells)[1..] == PiecesOf(cells[1..]);
    }
  }

  /** All of `lead` is dropped and nothing of what follows. */
  lemma {:induction false} DropLead(lead: seq<Piece>, tail: seq<Piece>)
    requires (forall i :: 0 <= i < |lead| ==> lead[i].first != 1) && (tail == [] || tail[0].first == 1)
    ensures SurvivingPieces(lead + tail) == tail
  {
    if lead == [] {
      assert lead + tail == tail;
    } else {
      assert (lead + tail)[1..] == lead[1..] + tail;
      DropLead(lead[1..], tail);
    }
  }

  lemma HeadFirst(ms: seq<Message>, cap: nat)
    requires Sendables(ms, cap) && AllPieces(ms, cap) != []
    ensures AllPieces(ms, cap)[0].first == 1
  {
    assert Sendable(ms[0], cap);
    AllPiecesSplit(ms, cap, 1);
    assert ms[..1] == [ms[0]] && ms[..1][..0] == [];
    assert AllPieces(ms[..1], cap) == [] + Pieces(ms[0], 1, cap);
    PiecesCount(ms[0], 1, cap);
    PiecesFirst(ms[0], 1, cap, 0);
  }

  /** The packets of message `c - 1` past its first one. */
  lemma TailNotFirst(ms: seq<Message>, cap: nat, c: nat, k: nat)
    requires 0 < c <= |ms| && |AllPieces(ms[..c - 1], cap)| < k < |AllPieces(ms[..c], cap)|
    ensures AllPieces(ms[..c], cap)[k].first != 1
  {
    assert ms[..c][..c - 1] == ms[..c - 1];
    PiecesFirst(ms[c - 1], 1, cap, k - |AllPieces(ms[..c - 1], cap)|);
  }

  lemma LastBound(ms: seq<Message>, cap: nat, c: nat)
    requires Sendables(ms, cap) && 0 < c <= |ms|
    ensures |AllPieces(ms[..c], cap)| <= |AllPieces(ms[..c - 1], cap)| + MAX_FRAGMENTS
  {
    assert ms[..c][..c - 1] == ms[..c - 1];
    assert Sendable(ms[c - 1], cap);
    PiecesCount(ms[c - 1], 1, cap);
  }

  lemma StreamCovered(e: Endpoint, cap: nat)
    requires Whole(e, cap)
    ensures |e.stream| <= |AllPieces(e.epoch, cap)|
  {
    assert |PiecesOf(e.stream) + Rest(e.pending, cap)| == |AllPieces(e.epoch, cap)|;
  }

  /** The cut lies in the window: a message still being packed has a full window before it. */
  lemma CutPacked(e: Endpoint, cap: nat)
    requires Whole(e, cap) && Packed(e) && 1 <= e.outTail <= OutHead(e)
    ensures var c := Cut(e.epoch, cap, e.outTail - 1);
            e.outTail - 1 <= |AllPieces(e.epoch[..c], cap)| <= |e.stream| && (e.pending.Packing? ==> c < |e.epoch|)
  {
    var n := e.outTail - 1;
    CutIsLeast(e.epoch, cap, n);
    var c := Cut(e.epoch, cap, n);
    AllPiecesSplit(e.epoch, cap, c);
    if c > 0 {
      LastBound(e.epoch, cap, c);
    }
  }

  lemma SplitAt(stream: seq<Piece>, rest: seq<Piece>, before: seq<Piece>, after: seq<Piece>, n: nat)
    requires stream + rest == before + after && n <= |before| <= |stream|
    ensures stream[n..] == before[n..] + stream[|before|..] && stream[|before|..] + rest == after
    ensures stream[|before|..] != [] ==> after != [] && stream[|before|..][0] == after[0]
  {
    var all := stream + rest;
    assert stream == all[..|stream|] && before == all[..|before|] && after == all[|before|..];
  }

  lemma SurvivingSplit(ms: seq<Message>, cap: nat, n: nat, c: nat, stream: seq<Piece>, rest: seq<Piece>)
    requires Sendables(ms, cap) && c <= |ms| && stream + rest == AllPieces(ms, cap)
    requires n <= |AllPieces(ms[..c], cap)| <= |stream| && (c > 0 ==> |AllPieces(ms[..c - 1], cap)| < n)
    ensures SurvivingPieces(stream[n..]) + rest == AllPieces(ms[c..], cap)
  {
    AllPiecesSplit(ms, cap, c);
    var before, after := AllPieces(ms[..c], cap), AllPieces(ms[c..], cap);
    SplitAt(stream, rest, before, after, n);
    var lead, tail := before[n..], stream[|before|..];
    forall i | 0 <= i < |lead| ensures lead[i].first != 1 {
      NotFirstInLead(ms, cap, n, c, i);
    }
    if tail != [] {
      HeadFirst(ms[c..], cap);
    }
    DropLead(lead, tail);
  }

  lemma WindowPieces(e: Endpoint)
    requires 1 <= e.outTail <= OutHead(e)
    ensures PiecesOf(Window(e)) == PiecesOf(e.stream)[e.outTail - 1..]
  {
  }

  /**
   * Reintroduction drops exactly the leading packets of the one message whose first packet is acked
   * already; what is left in the window and still to be packed are the whole messages after it.
   */
  lemma SurvivorsAreWhole(e: Endpoint, cap: nat)
    requires Whole(e, cap) && Packed(e) && 1 <= e.outTail <= OutHead(e)
    ensures var c := Cut(e.epoch, cap, e.outTail - 1);
            PiecesOf(Survivors(Window(e))) + Rest(e.pending, cap) == AllPieces(e.epoch[c..], cap)
  {
    var n := e.outTail - 1;
    var c := Cut(e.epoch, cap, n);
    CutPacked(e, cap);
    CutIsLeast(e.epoch, cap, n);
    WindowPieces(e);
    SurvivorsPieces(Window(e));
    SurvivingSplit(e.epoch, cap, n, c, PiecesOf(e.stream), Rest(e.pending, cap));
  }

  lemma NotFirstInLead(ms: seq<Message>, cap: nat, n: nat, c: nat, i: nat)
    requires c <= |ms| && n + i < |AllPieces(ms[..c], cap)| && (c > 0 ==> |AllPieces(ms[..c - 1], cap)| < n)
    ensures AllPieces(ms[..c], cap)[n..][i].first != 1
  {
    if c > 0 {
      TailNotFirst(ms, cap, c, n + i);
    }
  }

  /** Incarnation change with reintroduction: the log of the new epoch starts at the cut. */
  function Reintroduce(e: Endpoint, cap: nat, rand: nat -> bv64): Endpoint {
    ResetOut(e, if e.outTail > 0 then e.epoch[Cut(e.epoch, cap, e.outTail - 1)..] else [], true, cap, rand)
  }

  /** Learning of the neighbour's new incarnation. */
  function Learned(e: Endpoint, ngbr: nat, reintroduce: bool, cap: nat, rand: nat -> bv64): Endpoint {
    var r := ResetIn(e, ngbr);
    if reintroduce then Reintroduce(r, cap, rand) else ResetOut(r, [], false, cap, rand)
  }

  lemma RenumberPieces(cells: seq<Cell>, rand: nat -> bv64)
    ensures PiecesOf(Renumber(cells, rand)) == PiecesOf(cells)
  {
  }

  lemma {:induction false} SurvivorsSuffix(cells: seq<Cell>)
    ensures |Survivors(cells)| <= |cells| && Survivors(cells) == cells[|cells| - |Survivors(cells)|..]
  {
    if cells != [] && cells[0].piece.first != 1 {
      SurvivorsSuffix(cells[1..]);
    }
  }

  /** The kept packets under their new numbers, before packing goes on. */
  function Kept(e: Endpoint, cap: nat, rand: nat -> bv64): Endpoint
    requires e.outTail > 0
  {
    var kept := Renumber(Survivors(Window(e)), rand);
    e.(stream := kept, outTail := 1, tcpHead := Min(2, |kept| + 1),
       epoch := e.epoch[Cut(e.epoch, cap, e.outTail - 1)..])
  }

  lemma ReintroduceIs(e: Endpoint, cap: nat, rand: nat -> bv64)
    requires e.outTail > 0
    ensures Reintroduce(e, cap, rand) == PackLoop(Kept(e, cap, rand), cap, rand)
  {
  }

  lemma KeptWhole(e: Endpoint, cap: nat, rand: nat -> bv64) returns (r: Endpoint)
    requires Whole(e, cap) && Packed(e) && 1 <= e.outTail <= OutHead(e)
    ensures r == Kept(e, cap, rand) && Reintroduce(e, cap, rand) == PackLoop(r, cap, rand) && Whole(r, cap)
    ensures r.outTail == 1 && r.tcpHead == Min(2, OutHead(r)) && r.pending == e.pending
    ensures OutHead(e) <= e.outTail + WINDOW ==> OutHead(r) <= 1 + WINDOW
  {
    SurvivorsAreWhole(e, cap);
    CutPacked(e, cap);
    SurvivorsSuffix(Window(e));
    RenumberPieces(Survivors(Window(e)), rand);
    ReintroduceIs(e, cap, rand);
    r := Kept(e, cap, rand);
    WholeFrom(e, r, Cut(e.epoch, cap, e.outTail - 1), cap);
  }

  lemma WholeFrom(e: Endpoint, r: Endpoint, c: nat, cap: nat)
    requires Whole(e, cap) && c <= |e.epoch| && (e.pending.Packing? ==> c < |e.epoch|)
    requires r.epoch == e.epoch[c..] && r.pending == e.pending
    requires PiecesOf(r.stream) + Rest(e.pending, cap) == AllPieces(e.epoch[c..], cap)
    ensures Whole(r, cap)
  {
  }

  lemma ReintroduceWhole(e: Endpoint, cap: nat, rand: nat -> bv64)
    requires Whole(e, cap) && Packed(e) && 1 <= e.outTail <= OutHead(e)
    ensures Whole(Reintroduce(e, cap, rand), cap) && Packed(Reintroduce(e, cap, rand))
    ensures Renumber(Survivors(Window(e)), rand) <= Reintroduce(e, cap, rand).stream
  {
    var r := KeptWhole(e, cap, rand);
    PackLoopWhole(r, cap, rand);
  }

  /**
   * The packets kept are those from the first message on none of whose packets is acked: with the
   * fragments still to be packed, whole messages. `Renumber` gives them the numbers from 1 on.
   */
  lemma Reintroduction(e: Endpoint, cap: nat) returns (c: nat)
    requires Whole(e, cap) && Packed(e) && 1 <= e.outTail <= OutHead(e)
    ensures c <= |e.epoch| && LeastCover(e.epoch, cap, e.outTail - 1, c)
    ensures |AllPieces(e.epoch[..c], cap)| <= |e.stream|
    ensures Survivors(Window(e)) == e.stream[|AllPieces(e.epoch[..c], cap)|..]
    ensures PiecesOf(Survivors(Window(e))) + Rest(e.pending, cap) == AllPieces(e.epoch[c..], cap)
  {
    c := CutFound(e, cap);
    KeptFromCut(e, cap, c);
  }

  lemma CutFound(e: Endpoint, cap: nat) returns (c: nat)
    requires Whole(e, cap) && Packed(e) && 1 <= e.outTail <= OutHead(e)
    ensures c <= |e.epoch| && LeastCover(e.epoch, cap, e.outTail - 1, c)
    ensures PiecesOf(Survivors(Window(e))) + Rest(e.pending, cap) == AllPieces(e.epoch[c..], cap)
  {
    SurvivorsAreWhole(e, cap);
    c := LeastCut(e, cap);
  }

  lemma LeastCut(e: Endpoint, cap: nat) returns (c: nat)
    requires Whole(e, cap) && 1 <= e.outTail <= OutHead(e)
    ensures c == Cut(e.epoch, cap, e.outTail - 1) && LeastCover(e.epoch, cap, e.outTail - 1, c)
  {
    c := Cut(e.epoch, cap, e.outTail - 1);
    StreamCovered(e, cap);
    CutIsLeast(e.epoch, cap, e.outTail - 1);
  }

  lemma KeptFromCut(e: Endpoint, cap: nat, c: nat)
    requires Whole(e, cap) && 1 <= e.outTail <= OutHead(e) && c <= |e.epoch|
    requires PiecesOf(Survivors(Window(e))) + Rest(e.pending, cap) == AllPieces(e.epoch[c..], cap)
    ensures |AllPieces(e.epoch[..c], cap)| <= |e.stream|
    ensures Survivors(Window(e)) == e.stream[|AllPieces(e.epoch[..c], cap)|..]
  {
    AllPiecesSplit(e.epoch, cap, c);
    assert |PiecesOf(Survivors(Window(e))) + Rest(e.pending, cap)| == |AllPieces(e.epoch[c..], cap)|;
    assert |PiecesOf(e.stream) + Rest(e.pending, cap)| == |AllPieces(e.epoch, cap)|;
    SurvivorsSuffix(Window(e));
    KeptSuffix(e, |AllPieces(e.epoch[..c], cap)|);
  }

  lemma KeptSuffix(e: Endpoint, n: nat)
    requires 1 <= e.outTail <= OutHead(e) && n + |Survivors(Window(e))| == |e.stream|
    ensures Survivors(Window(e)) == e.stream[n..]
  {
    SurvivorsSuffix(Window(e));
  }
}

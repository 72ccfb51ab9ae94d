/**
 * Packing messages into link packets and rebuilding them (daemon/intrusion_tol_udp.c:1477-1562 and
 * 1602-1705), and the scheduler's packet count (daemon/protocol.c:477-502). A fragment travels as
 * its bytes followed by a four-byte trailer; a packet is read from its end.
 */
module Fragments {

  type Bytes = seq<nat>

  /** The fragments of a message, elements 1 .. total of its scatter. */
  type Message = seq<Bytes>

  const FRAG_HEADER: nat := 4
  const MAX_FRAGMENTS: nat := 99

  /** Fragment length (two bytes), index and total. */
  function Trailer(len: nat, idx: nat, total: nat): (t: Bytes)
    ensures |t| == FRAG_HEADER
  {
    [len % 256, len / 256, idx, total]
  }

  ghost predicate Sendable(m: Message, cap: nat) {
    0 < |m| <= MAX_FRAGMENTS && forall i :: 0 <= i < |m| ==> |m[i]| + FRAG_HEADER <= cap
  }

  // ----- Packing -----

  /** Fragments `a` .. `b` (counted from 1) of `m`, each with its trailer. */
  function Encode(m: Message, a: nat, b: nat): Bytes
    requires 1 <= a <= b + 1 && b <= |m|
    decreases b
  {
    if b < a then [] else Encode(m, a, b - 1) + m[b - 1] + Trailer(|m[b - 1]|, b, |m|)
  }

  /** The first fragment from `i` on that no longer fits behind `used` bytes. */
  function Stop(m: Message, i: nat, used: nat, cap: nat): (j: nat)
    requires 1 <= i <= |m| + 1
    ensures i <= j <= |m| + 1
    decreases |m| + 1 - i
  {
    if i > |m| || used + |m[i - 1]| + FRAG_HEADER > cap then i
    else Stop(m, i + 1, used + |m[i - 1]| + FRAG_HEADER, cap)
  }

  /** The packets for the fragments from `i` on. */
  function Pack(m: Message, i: nat, cap: nat): seq<Bytes>
    requires 1 <= i <= |m| + 1
    decreases |m| + 1 - i
  {
    var j := Stop(m, i, 0, cap);
    if j == i then [] else [Encode(m, i, j - 1)] + Pack(m, j, cap)
  }

  /** One turn of the packing loop: fills a packet with the fragments that fit. */
  method FillPacket(m: Message, i: nat, cap: nat) returns (data: Bytes, next: nat)
    requires 1 <= i <= |m| + 1
    ensures next == Stop(m, i, 0, cap) && data == Encode(m, i, next - 1)
  {
    data, next := [], i;
    while next <= |m| && |data| + |m[next - 1]| + FRAG_HEADER <= cap
      invariant i <= next <= |m| + 1 && data == Encode(m, i, next - 1)
      invariant Stop(m, i, 0, cap) == Stop(m, next, |data|, cap)
    {
      data := data + m[next - 1] + Trailer(|m[next - 1]|, next, |m|);
      next := next + 1;
    }
  }

  lemma Progress(m: Message, i: nat, cap: nat)
    requires Sendable(m, cap) && 1 <= i <= |m|
    ensures Stop(m, i, 0, cap) > i
  {
    assert |m[i - 1]| + FRAG_HEADER <= cap;
  }

  // ----- The packet count of the scheduler -----

  /** Packets opened for the fragments from `i` on when the open one holds `used` bytes. */
  function Opened(m: Message, i: nat, used: nat, cap: nat): nat
    requires 1 <= i <= |m| + 1
    decreases |m| + 1 - i
  {
    if i > |m| then 0
    else
      var len := |m[i - 1]| + FRAG_HEADER;
      if used + len > cap then 1 + Opened(m, i + 1, len, cap) else Opened(m, i + 1, used + len, cap)
  }

  /** The bytes in the packet that is open after the fragments from `i` on. */
  function LastUsed(m: Message, i: nat, used: nat, cap: nat): nat
    requires 1 <= i <= |m| + 1
    decreases |m| + 1 - i
  {
    if i > |m| then used
    else
      var len := |m[i - 1]| + FRAG_HEADER;
      LastUsed(m, i + 1, if used + len > cap then len else used + len, cap)
  }

  /** `Calculate_Packets_In_Message`; the space left in the last packet is an unsigned 16-bit number. */
  method CalculatePackets(m: Message, cap: nat) returns (packets: nat, space: nat)
    ensures packets == 1 + Opened(m, 1, 0, cap) && space == (cap - LastUsed(m, 1, 0, cap)) % 0x1_0000
    ensures Sendable(m, cap) ==> packets == |Pack(m, 1, cap)|
    ensures Sendable(m, cap) && cap < 0x1_0000 ==> space + |Pack(m, 1, cap)[packets - 1]| == cap
  {
    packets := 1;
    var used: nat := 0;
    for i := 1 to |m| + 1
      invariant packets + Opened(m, i, used, cap) == 1 + Opened(m, 1, 0, cap)
      invariant LastUsed(m, i, used, cap) == LastUsed(m, 1, 0, cap)
    {
      var len := |m[i - 1]| + FRAG_HEADER;
      if used + len > cap {
        packets := packets + 1;
        used := len;
      } else {
        used := used + len;
      }
    }
    space := (cap - used) % 0x1_0000;
    if Sendable(m, cap) {
      CountIsPacked(m, 1, cap);
      LastUsedIsPacked(m, 1, cap);
    }
  }

  lemma {:induction false} LastUsedAtStop(m: Message, i: nat, used: nat, cap: nat)
    requires Sendable(m, cap) && 1 <= i <= |m| + 1
    ensures var j := Stop(m, i, used, cap);
            LastUsed(m, i, used, cap) == if j > |m| then Filled(m, i, used, cap) else LastUsed(m, j, 0, cap)
    decreases |m| + 1 - i
  {
    if i <= |m| {
      assert |m[i - 1]| + FRAG_HEADER <= cap;
      if used + |m[i - 1]| + FRAG_HEADER <= cap {
        LastUsedAtStop(m, i + 1, used + |m[i - 1]| + FRAG_HEADER, cap);
      }
    }
  }

  /** The bytes in a packet that starts with `used` and takes what fits from `i` on. */
  function Filled(m: Message, i: nat, used: nat, cap: nat): nat
    requires 1 <= i <= |m| + 1
    decreases |m| + 1 - i
  {
    if i > |m| || used + |m[i - 1]| + FRAG_HEADER > cap then used
    else Filled(m, i + 1, used + |m[i - 1]| + FRAG_HEADER, cap)
  }

  lemma {:induction false} FilledIsEncoded(m: Message, a: nat, i: nat, cap: nat)
    requires 1 <= a <= i <= |m| + 1
    ensures Filled(m, i, |Encode(m, a, i - 1)|, cap) == |Encode(m, a, Stop(m, i, |Encode(m, a, i - 1)|, cap) - 1)|
    decreases |m| + 1 - i
  {
    var used := |Encode(m, a, i - 1)|;
    if i <= |m| && used + |m[i - 1]| + FRAG_HEADER <= cap {
      assert |Encode(m, a, i)| == used + |m[i - 1]| + FRAG_HEADER;
      FilledIsEncoded(m, a, i + 1, cap);
    }
  }

  /** What the count leaves in the last packet is what the last packet packed holds. */
  lemma {:induction false} LastUsedIsPacked(m: Message, i: nat, cap: nat)
    requires Sendable(m, cap) && 1 <= i <= |m|
    ensures Pack(m, i, cap) != [] && LastUsed(m, i, 0, cap) == |Pack(m, i, cap)[|Pack(m, i, cap)| - 1]| <= cap
    decreases |m| - i
  {
    var j := Stop(m, i, 0, cap);
    Progress(m, i, cap);
    LastUsedAtStop(m, i, 0, cap);
    FilledIsEncoded(m, i, i, cap);
    assert Encode(m, i, i - 1) == [];
    FilledBound(m, i, 0, cap);
    if j <= |m| {
      LastUsedIsPacked(m, j, cap);
    } else {
      assert Pack(m, j, cap) == [];
    }
  }

  lemma {:induction false} FilledBound(m: Message, i: nat, used: nat, cap: nat)
    requires 1 <= i <= |m| + 1 && used <= cap
    ensures Filled(m, i, used, cap) <= cap
    decreases |m| + 1 - i
  {
    if i <= |m| && used + |m[i - 1]| + FRAG_HEADER <= cap {
      FilledBound(m, i + 1, used + |m[i - 1]| + FRAG_HEADER, cap);
    }
  }

  lemma {:induction false} OpenedAtStop(m: Message, i: nat, used: nat, cap: nat)
    requires Sendable(m, cap) && 1 <= i <= |m| + 1
    ensures var j := Stop(m, i, used, cap);
            Opened(m, i, used, cap) == if j > |m| then 0 else 1 + Opened(m, j, 0, cap)
    decreases |m| + 1 - i
  {
    if i <= |m| {
      assert |m[i - 1]| + FRAG_HEADER <= cap;
      if used + |m[i - 1]| + FRAG_HEADER <= cap {
        OpenedAtStop(m, i + 1, used + |m[i - 1]| + FRAG_HEADER, cap);
      }
    }
  }

  /** The scheduler's count is the number of packets the link packs. */
  lemma {:induction false} CountIsPacked(m: Message, i: nat, cap: nat)
    requires Sendable(m, cap) && 1 <= i <= |m|
    ensures 1 + Opened(m, i, 0, cap) == |Pack(m, i, cap)|
    decreases |m| - i
  {
    var j := Stop(m, i, 0, cap);
    Progress(m, i, cap);
    OpenedAtStop(m, i, 0, cap);
    if j <= |m| {
      CountIsPacked(m, j, cap);
    }
  }

  // ----- Rebuilding -----

  /** The next fragment expected, the total of the message under way (0 if none), and what has arrived. */
  datatype Partial = Partial(idx: nat, total: nat, frags: Message)

  const FRESH := Partial(1, 0, [])

  datatype Parse = Bad(code: int) | Parsed(total: nat, low: nat, high: nat, found: map<nat, Bytes>)

  datatype Read = Refused(code: int) | Next(rest: Bytes, p: Parse)

  /** Reads the last fragment of what is left of a packet; indices must be consecutive. */
  function ReadLast(data: Bytes, p: Parse): (r: Read)
    requires p.Parsed?
    ensures r.Next? ==> |r.rest| < |data| && r.p.Parsed?
  {
    if |data| < FRAG_HEADER then Refused(-5)
    else
      var n := |data| - FRAG_HEADER;
      var len, idx, total := data[n] + 256 * data[n + 1], data[n + 2], data[n + 3];
      if total == 0 || total > MAX_FRAGMENTS then Refused(-1)
      else if p.total != 0 && p.total != total then Refused(-2)
      else if idx == 0 || idx > total then Refused(-3)
      else
        var low, high := if p.low == 0 then idx else p.low, if p.low == 0 then idx else p.high;
        if idx != low then Refused(-4)
        else if len > n then Refused(-5)
        else Next(data[..n - len], Parsed(total, low - 1, high, p.found[idx := data[n - len..n]]))
  }

  /** Reads a packet backwards. */
  function ParseBack(data: Bytes, p: Parse): Parse
    requires p.Parsed?
    decreases |data|
  {
    if data == [] then p
    else
      var r := ReadLast(data, p);
      if r.Refused? then Bad(r.code) else ParseBack(r.rest, r.p)
  }

  /** Appends fragments `i` .. `high`; an index out of turn is an error. */
  function Append(st: Partial, found: map<nat, Bytes>, i: nat, high: nat): (r: (int, Partial))
    decreases high + 1 - i
  {
    if i > high then (0, st)
    else if i != st.idx || i !in found then (-6, st)
    else Append(Partial(st.idx + 1, st.total, st.frags + [found[i]]), found, i + 1, high)
  }

  /** `Build_Message_From_Fragments_IT`: 1 when the message is complete, 0 when more is to come, else an error. */
  function Build(st: Partial, data: Bytes): (r: (int, Partial)) {
    match ParseBack(data, Parsed(st.total, 0, 0, map[]))
    case Bad(c) => (c, st)
    case Parsed(total, low, high, found) =>
      var (code, st') := Append(st.(total := total), found, low + 1, high);
      if code < 0 then (code, st') else (if st'.idx == st'.total + 1 then 1 else 0, st')
  }

  /** One turn of the loop that reads the packet backwards. */
  method ReadFragment(rest: Bytes, p: Parse) returns (r: Read)
    requires p.Parsed?
    ensures r == ReadLast(rest, p)
  {
    if |rest| < FRAG_HEADER { return Refused(-5); }
    var n := |rest| - FRAG_HEADER;
    var len, idx, total := rest[n] + 256 * rest[n + 1], rest[n + 2], rest[n + 3];
    if total == 0 || total > MAX_FRAGMENTS { return Refused(-1); }
    if p.total != 0 && p.total != total { return Refused(-2); }
    if idx == 0 || idx > total { return Refused(-3); }
    var low, high := p.low, p.high;
    if low == 0 { low, high := idx, idx; }
    if idx != low { return Refused(-4); }
    if len > n { return Refused(-5); }
    r := Next(rest[..n - len], Parsed(total, low - 1, high, p.found[idx := rest[n - len..n]]));
  }

  method ParsePacket(total: nat, data: Bytes) returns (p: Parse)
    ensures p == ParseBack(data, Parsed(total, 0, 0, map[]))
  {
    var rest := data;
    p := Parsed(total, 0, 0, map[]);
    while rest != []
      invariant p.Parsed? && ParseBack(rest, p) == ParseBack(data, Parsed(total, 0, 0, map[]))
      decreases |rest|
    {
      var r := ReadFragment(rest, p);
      if r.Refused? {
        return Bad(r.code);
      }
      rest, p := r.rest, r.p;
    }
  }

  /** The loop that appends the fragments in increasing order. */
  method AppendFound(st: Partial, found: map<nat, Bytes>, low: nat, high: nat) returns (code: int, st': Partial)
    ensures (code, st') == Append(st, found, low, high)
  {
    st' := st;
    var i := low;
    ghost var appended := Append(st, found, low, high);
    while i <= high
      invariant Append(st', found, i, high) == appended
      decreases high + 1 - i
    {
      if i != st'.idx || i !in found { return -6, st'; }
      st' := Partial(st'.idx + 1, st'.total, st'.frags + [found[i]]);
      i := i + 1;
    }
    code := 0;
  }

  method BuildMessage(st: Partial, data: Bytes) returns (code: int, st': Partial)
    ensures (code, st') == Build(st, data)
  {
    var p := ParsePacket(st.total, data);
    if p.Bad? {
      return p.code, st;
    }
    code, st' := AppendFound(st.(total := p.total), p.found, p.low + 1, p.high);
    if code >= 0 {
      code := if st'.idx == st'.total + 1 then 1 else 0;
    }
  }

  /** Fragments 1 .. `n` of `m` have arrived. */
  function Arrived(m: Message, n: nat): Partial
    requires n <= |m|
  {
    Partial(n + 1, if n == 0 then 0 else |m|, m[..n])
  }

  /** What reading fragments `b` down to `a` adds to those found. */
  function Collect(found: map<nat, Bytes>, m: Message, a: nat, b: nat): map<nat, Bytes>
    requires 1 <= a <= b + 1 && b <= |m|
    decreases b
  {
    if b < a then found else Collect(found[b := m[b - 1]], m, a, b - 1)
  }

  lemma {:induction false} CollectHas(found: map<nat, Bytes>, m: Message, a: nat, b: nat, i: nat)
    requires 1 <= a <= b + 1 && b <= |m|
    ensures a <= i <= b ==> i in Collect(found, m, a, b) && Collect(found, m, a, b)[i] == m[i - 1]
    ensures i > b && i in found ==> i in Collect(found, m, a, b) && Collect(found, m, a, b)[i] == found[i]
    decreases b
  {
    if a <= b {
      CollectHas(found[b := m[b - 1]], m, a, b - 1, i);
    }
  }

  /** The last fragment of a packet can be read off its end. */
  lemma LastFragment(front: Bytes, frag: Bytes, idx: nat, total: nat)
    ensures var data := front + frag + Trailer(|frag|, idx, total); var n := |data| - FRAG_HEADER;
            && n == |front| + |frag|
            && data[n] + 256 * data[n + 1] == |frag| && data[n + 2] == idx && data[n + 3] == total
            && data[..n - |frag|] == front && data[n - |frag|..n] == frag
  {
    var t, data := Trailer(|frag|, idx, total), front + frag + Trailer(|frag|, idx, total);
    var n := |data| - FRAG_HEADER;
    assert data[n] == t[0] && data[n + 1] == t[1] && data[n + 2] == t[2] && data[n + 3] == t[3];
  }

  /** One fragment read off the end of a packet. */
  lemma ReadEncoded(data: Bytes, front: Bytes, frag: Bytes, b: nat, total: nat, p: Parse)
    requires data == front + frag + Trailer(|frag|, b, total) && 1 <= b <= total <= MAX_FRAGMENTS
    requires p.Parsed? && (p.total == 0 || p.total == total) && (p.low == 0 || p.low == b)
    ensures ReadLast(data, p) ==
            Next(front, Parsed(total, b - 1, if p.low == 0 then b else p.high, p.found[b := frag]))
  {
    LastFragment(front, frag, b, total);
  }

  lemma ParseStep(data: Bytes, front: Bytes, frag: Bytes, b: nat, total: nat, p: Parse) returns (p': Parse)
    requires data == front + frag + Trailer(|frag|, b, total) && 1 <= b <= total <= MAX_FRAGMENTS
    requires p.Parsed? && (p.total == 0 || p.total == total) && (p.low == 0 || p.low == b)
    ensures p' == Parsed(total, b - 1, if p.low == 0 then b else p.high, p.found[b := frag])
    ensures ParseBack(data, p) == ParseBack(front, p')
  {
    ReadEncoded(data, front, frag, b, total, p);
    p' := ReadLast(data, p).p;
  }

  lemma CollectStep(found: map<nat, Bytes>, m: Message, a: nat, b: nat)
    requires 1 <= a <= b <= |m|
    ensures Collect(found, m, a, b) == Collect(found[b := m[b - 1]], m, a, b - 1)
    ensures a == b ==> Collect(found, m, a, b) == found[b := m[b - 1]]
  {
  }

  /** Reading an honest packet backwards recovers each of its fragments. */
  lemma {:induction false} ParseEncoded(m: Message, a: nat, b: nat, p: Parse, data: Bytes) returns (r: Parse)
    requires 1 <= a <= b <= |m| <= MAX_FRAGMENTS && data == Encode(m, a, b)
    requires p.Parsed? && (p.total == 0 || p.total == |m|) && (p.low == 0 || p.low == b)
    ensures r == ParseBack(data, p) && r.Parsed? && r.total == |m| && r.low == a - 1
    ensures r.high == (if p.low == 0 then b else p.high) && r.found == Collect(p.found, m, a, b)
    decreases b
  {
    CollectStep(p.found, m, a, b);
    var front := Encode(m, a, b - 1);
    var p' := ParseStep(data, front, m[b - 1], b, |m|, p);
    if a < b {
      r := ParseEncoded(m, a, b - 1, p', front);
    } else {
      r := p';
    }
  }

  lemma {:induction false} AppendCollected(m: Message, a: nat, b: nat, i: nat)
    requires 1 <= a <= i <= b + 1 && b <= |m|
    ensures Append(Partial(i, |m|, m[..i - 1]), Collect(map[], m, a, b), i, b) == (0, Partial(b + 1, |m|, m[..b]))
    decreases b + 1 - i
  {
    if i <= b {
      CollectHas(map[], m, a, b, i);
      assert m[..i - 1] + [m[i - 1]] == m[..i];
      AppendCollected(m, a, b, i + 1);
    }
  }

  lemma BuildParsed(m: Message, a: nat, b: nat, data: Bytes)
    requires 1 <= a <= b <= |m|
    requires ParseBack(data, Parsed(Arrived(m, a - 1).total, 0, 0, map[])) ==
             Parsed(|m|, a - 1, b, Collect(map[], m, a, b))
    ensures Build(Arrived(m, a - 1), data) == (if b == |m| then 1 else 0, Arrived(m, b))
  {
    AppendCollected(m, a, b, a);
  }

  /** A packet received in turn adds exactly its fragments, and is "ready" exactly with the last one. */
  lemma BuildEncoded(m: Message, a: nat, b: nat)
    requires 1 <= a <= b <= |m| <= MAX_FRAGMENTS
    ensures Build(Arrived(m, a - 1), Encode(m, a, b)) == (if b == |m| then 1 else 0, Arrived(m, b))
  {
    var r := ParseEncoded(m, a, b, Parsed(Arrived(m, a - 1).total, 0, 0, map[]), Encode(m, a, b));
    BuildParsed(m, a, b, Encode(m, a, b));
  }

  /** Feeding packets one after the other: the codes and the final state. */
  function Feed(st: Partial, packets: seq<Bytes>): (r: (seq<int>, Partial))
    decreases |packets|
  {
    if packets == [] then ([], st)
    else
      var (code, st') := Build(st, packets[0]);
      var (codes, end) := Feed(st', packets[1..]);
      ([code] + codes, end)
  }

  /** Not ready after every packet but the last, ready after that one. */
  ghost predicate ReadyAtLast(codes: seq<int>) {
    && codes != [] && codes[|codes| - 1] == 1
    && forall k :: 0 <= k < |codes| - 1 ==> codes[k] == 0
  }

  lemma ReadyLater(codes: seq<int>)
    requires ReadyAtLast(codes)
    ensures ReadyAtLast([0] + codes)
  {
  }

  lemma FeedCons(st: Partial, data: Bytes, rest: seq<Bytes>)
    ensures var (code, st') := Build(st, data); var (codes, end) := Feed(st', rest);
            Feed(st, [data] + rest) == ([code] + codes, end)
  {
    var packets := [data] + rest;
    assert packets[0] == data && packets[1..] == rest;
  }

  /** The first packet and what the receiver makes of it. */
  lemma PackStep(m: Message, i: nat, cap: nat) returns (j: nat, data: Bytes)
    requires Sendable(m, cap) && 1 <= i <= |m|
    ensures i < j <= |m| + 1 && Pack(m, i, cap) == [data] + Pack(m, j, cap)
    ensures Build(Arrived(m, i - 1), data) == (if j > |m| then 1 else 0, Arrived(m, j - 1))
  {
    j := Stop(m, i, 0, cap);
    Progress(m, i, cap);
    data := Encode(m, i, j - 1);
    BuildEncoded(m, i, j - 1);
  }

  /** Feeding `packets` completes message `m`, with "ready" at the last packet and at no other. */
  ghost predicate Completes(m: Message, st: Partial, packets: seq<Bytes>) {
    var r := Feed(st, packets);
    |r.0| == |packets| && r.1 == Arrived(m, |m|) && ReadyAtLast(r.0)
  }

  lemma CompletesStep(m: Message, st: Partial, data: Bytes, st': Partial, rest: seq<Bytes>)
    requires Build(st, data) == (if rest == [] then 1 else 0, st')
    requires if rest == [] then st' == Arrived(m, |m|) else Completes(m, st', rest)
    ensures Completes(m, st, [data] + rest)
  {
    FeedCons(st, data, rest);
    if rest != [] {
      ReadyLater(Feed(st', rest).0);
    }
  }

  /**
   * Round trip: packing a message from fragment `i` on and feeding the packets in order to a
   * receiver that has the earlier ones gives back all fragments.
   */
  lemma {:induction false} RoundTrip(m: Message, i: nat, cap: nat)
    requires Sendable(m, cap) && 1 <= i <= |m|
    ensures Completes(m, Arrived(m, i - 1), Pack(m, i, cap))
    decreases |m| - i
  {
    var j, data := PackStep(m, i, cap);
    if j <= |m| {
      RoundTrip(m, j, cap);
    } else {
      assert Pack(m, j, cap) == [];
    }
    CompletesStep(m, Arrived(m, i - 1), data, Arrived(m, j - 1), Pack(m, j, cap));
  }
}

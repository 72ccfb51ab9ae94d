/**
 * Routing bitmasks: byte strings in which edge index i is the bit 0x80 >> (i % 8) of byte i / 8.
 * The original reads and combines them in 64-bit words; the model works byte by byte.
 */
module Bitmask {

  type Mask = seq<bv8>

  function Byte(i: nat): nat { i / 8 }

  function Pos(i: nat): (r: nat)
    ensures r < 8
  {
    i % 8
  }

  lemma Place(i: nat, j: nat, n: nat)
    ensures i == j <==> Byte(i) == Byte(j) && Pos(i) == Pos(j)
    ensures i < 8 * n ==> Byte(i) < n
  {
  }

  /** 0x80 >> k */
  function Probe(k: nat): bv8
    requires k < 8
  {
    if k == 0 then 0x80 else if k == 1 then 0x40 else if k == 2 then 0x20 else if k == 3 then 0x10
    else if k == 4 then 0x08 else if k == 5 then 0x04 else if k == 6 then 0x02 else 0x01
  }

  function Or(b: bv8, c: bv8): bv8 { b | c }

  function And(b: bv8, c: bv8): bv8 { b & c }

  predicate Has(b: bv8, k: nat)
    requires k < 8
  {
    And(b, Probe(k)) != 0
  }

  lemma HasOr(b: bv8, n: nat, k: nat)
    requires k < 8 && n < 8
    ensures Has(Or(b, Probe(n)), k) <==> k == n || Has(b, k)
  {
  }

  lemma HasEither(b: bv8, c: bv8, k: nat)
    requires k < 8
    ensures Has(Or(b, c), k) <==> Has(b, k) || Has(c, k)
  {
  }

  lemma OrAnd(t: bv8, g: bv8, e: bv8)
    ensures e == 0 ==> Or(t, And(g, e)) == t
    ensures t == 0 ==> Or(t, And(g, e)) == And(g, e)
  {
  }

  predicate Bit(m: Mask, i: nat)
    requires Byte(i) < |m|
  {
    Has(m[Byte(i)], Pos(i))
  }

  function Zero(size: nat): (m: Mask)
    ensures |m| == size && forall j :: 0 <= j < size ==> m[j] == 0
  {
    seq(size, _ => 0)
  }

  lemma ZeroBit(size: nat, i: nat)
    requires Byte(i) < size
    ensures !Bit(Zero(size), i)
  {
    OrAnd(0, Probe(Pos(i)), 0);
    assert And(0, Probe(Pos(i))) == 0;
  }

  function Stamp(m: Mask, j: nat): (r: Mask)
    requires Byte(j) < |m|
    ensures |r| == |m|
  {
    m[Byte(j) := Or(m[Byte(j)], Probe(Pos(j)))]
  }

  /** Stamping an index sets its bit and no other. */
  lemma StampBit(m: Mask, j: nat, i: nat)
    requires Byte(j) < |m| && Byte(i) < |m|
    ensures Bit(Stamp(m, j), i) <==> i == j || Bit(m, i)
  {
    Place(i, j, |m|);
    HasOr(m[Byte(j)], Pos(j), Pos(i));
  }

  /** Masks with the same bits are the same bytes. */
  lemma SameBits(m: Mask, r: Mask)
    requires |m| == |r| && forall i :: 0 <= i && Byte(i) < |m| ==> (Bit(m, i) <==> Bit(r, i))
    ensures m == r
  {
    forall j | 0 <= j < |m| ensures m[j] == r[j] {
      forall k | 0 <= k < 8 ensures Has(m[j], k) <==> Has(r[j], k) {
        assert Byte(8 * j + k) == j && Pos(8 * j + k) == k;
        assert Bit(m, 8 * j + k) <==> Bit(r, 8 * j + k);
      }
      SameByte(m[j], r[j]);
    }
  }

  lemma SameByte(b: bv8, c: bv8)
    requires forall k :: 0 <= k < 8 ==> (Has(b, k) <==> Has(c, k))
    ensures b == c
  {
    assert Has(b, 0) <==> Has(c, 0);
    assert Has(b, 1) <==> Has(c, 1);
    assert Has(b, 2) <==> Has(c, 2);
    assert Has(b, 3) <==> Has(c, 3);
    assert Has(b, 4) <==> Has(c, 4);
    assert Has(b, 5) <==> Has(c, 5);
    assert Has(b, 6) <==> Has(c, 6);
    assert Has(b, 7) <==> Has(c, 7);
  }

  function Only(n: nat, index: nat): (r: Mask)
    requires Byte(index) < n
    ensures |r| == n && r[Byte(index)] == Probe(Pos(index))
    ensures forall j :: 0 <= j < n && j != Byte(index) ==> r[j] == 0
  {
    Zero(n)[Byte(index) := Probe(Pos(index))]
  }

  /** `DG_Edge_In_Graph`: a one-bit mask against the graph's mask, every byte of it. */
  method EdgeInGraph(index: nat, graph: Mask) returns (found: bool)
    requires Byte(index) < |graph|
    ensures found == Bit(graph, index)
  {
    var edge := Only(|graph|, index);
    var temp: bv8 := 0;
    for j := 0 to |graph|
      invariant temp == if j <= Byte(index) then 0 else And(graph[Byte(index)], Probe(Pos(index)))
    {
      OrAnd(temp, graph[j], edge[j]);
      temp := Or(temp, And(graph[j], edge[j]));
    }
    found := temp != 0;
  }

  ghost predicate MergedFrom(r: Mask, m: Mask, n: Mask) {
    && |r| == |m| == |n|
    && forall i :: 0 <= i && Byte(i) < |m| ==> (Bit(r, i) <==> Bit(m, i) || Bit(n, i))
  }

  /** Bitwise or of two masks, as used when two graphs are merged. */
  method Merge(m: Mask, n: Mask) returns (r: Mask)
    requires |m| == |n|
    ensures MergedFrom(r, m, n)
  {
    r := m;
    for j := 0 to |m|
      invariant |r| == |m|
      invariant forall i :: 0 <= i < |m| ==> r[i] == if i < j then Or(m[i], n[i]) else m[i]
    {
      r := r[j := Or(r[j], n[j])];
    }
    forall i | 0 <= i && Byte(i) < |m| ensures Bit(r, i) <==> Bit(m, i) || Bit(n, i) {
      HasEither(m[Byte(i)], n[Byte(i)], Pos(i));
    }
  }
}

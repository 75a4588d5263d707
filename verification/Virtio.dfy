/**
  The virtio block driver (kernel/virtio_disk.c) with a device that keeps to sections 2.6 and
  5.2 of the OASIS virtio 1.1 specification: descriptors, the two rings with their 16-bit
  indices, and requests from submission to completion.
 */
module Virtio {

  const NUM := 8
  const U16 := 0x1_0000
  const F_NEXT := 1
  const F_WRITE := 2

  /** A descriptor; addr names the request header, the buffer's data or the status byte it points to. */
  datatype Addr = Nowhere | Ops(h: int) | DataOf(buf: int) | Status(h: int)
  datatype Desc = Desc(addr: Addr, flags: int, next: int)

  /** The request header: write (OUT) or read (IN), and the block. */
  datatype Op = Op(write: bool, blk: int)

  /** A request: in the avail ring at index i, in the device's hands, in the used ring at index i, or acknowledged. */
  datatype Phase = Queued(i: int) | Taken | Done(i: int) | Seen

  /** The chain of a head descriptor: its other two descriptors, the buffer and the operation. */
  datatype Chain = Chain(a: int, b: int, buf: int, op: Op, ph: Phase)

  /** A count as a 16-bit index, and the ring slot of an index. */
  function Idx(n: int): int { n % U16 }

  function RingSlot(n: int): int { n % NUM }

  // ----- invariants -----

  /** A descriptor is free, or belongs to exactly one chain. */
  ghost predicate DescOk(free: seq<bool>, owner: seq<int>, chain: map<int, Chain>) {
    && |free| == |owner| == NUM
    && (forall d :: 0 <= d < NUM ==> (free[d] <==> owner[d] == -1))
    && (forall d :: 0 <= d < NUM && owner[d] != -1 ==>
          owner[d] in chain && (d == owner[d] || d == chain[owner[d]].a || d == chain[owner[d]].b))
    && (forall h :: h in chain ==> Owns(owner, h, chain[h]))
  }

  predicate Owns(owner: seq<int>, h: int, c: Chain)
    requires |owner| == NUM
  {
    && 0 <= h < NUM && 0 <= c.a < NUM && 0 <= c.b < NUM && h != c.a && h != c.b && c.a != c.b
    && owner[h] == h && owner[c.a] == h && owner[c.b] == h
  }

  /** The descriptors in memory say what was asked for. */
  predicate Formatted(desc: seq<Desc>, ops: seq<Op>, info: seq<int>, h: int, c: Chain) {
    && |desc| == |ops| == |info| == NUM && 0 <= h < NUM && 0 <= c.a < NUM && 0 <= c.b < NUM
    && desc[h] == Desc(Ops(h), F_NEXT, c.a) && ops[h] == c.op && info[h] == c.buf
    && desc[c.a] == Desc(DataOf(c.buf), if c.op.write then F_NEXT else F_WRITE + F_NEXT, c.b)
    && desc[c.b] == Desc(Status(h), F_WRITE, 0)
  }

  ghost predicate FormatOk(desc: seq<Desc>, ops: seq<Op>, info: seq<int>, chain: map<int, Chain>) {
    |desc| == |ops| == |info| == NUM && forall h :: h in chain ==> Formatted(desc, ops, info, h, chain[h])
  }

  /** ring[lo..hi) (indices modulo NUM) holds exactly the chains in that phase. */
  ghost predicate AvailOk(ring: seq<int>, lo: int, hi: int, chain: map<int, Chain>) {
    && |ring| == NUM && 0 <= lo <= hi
    && (forall i :: lo <= i < hi ==> ring[RingSlot(i)] in chain && chain[ring[RingSlot(i)]].ph == Queued(i))
    && (forall h :: h in chain && chain[h].ph.Queued? ==>
        lo <= chain[h].ph.i < hi && ring[RingSlot(chain[h].ph.i)] == h)
  }

  ghost predicate UsedOk(ring: seq<int>, status: seq<int>, lo: int, hi: int, chain: map<int, Chain>) {
    && |ring| == |status| == NUM && 0 <= lo <= hi
    && (forall i :: lo <= i < hi ==> ring[RingSlot(i)] in chain && chain[ring[RingSlot(i)]].ph == Done(i))
    && (forall h :: h in chain && chain[h].ph.Done? ==> lo <= chain[h].ph.i < hi && ring[RingSlot(chain[h].ph.i)] == h)
    && (forall h :: h in chain && (chain[h].ph.Done? || chain[h].ph.Seen?) ==> 0 <= h < NUM && status[h] == 0)
  }

  /** A buffer is in one request at most, and b->disk is set until the request is acknowledged. */
  ghost predicate BusyOk(busy: set<int>, chain: map<int, Chain>) {
    && (forall g, h :: g in chain && h in chain && chain[g].buf == chain[h].buf ==> g == h)
    && (forall h :: h in chain ==> (chain[h].buf in busy <==> !chain[h].ph.Seen?))
    && (forall x :: x in busy ==> exists h :: h in chain && chain[h].buf == x)
  }

  /**
    got[h] is what chain h moves: for a write the buffer as it was submitted, for a read the block as it was on
    completion.  The buffer holds it from then on.
   */
  predicate Holds(got: map<int, seq<int>>, data: map<int, seq<int>>, h: int, c: Chain) {
    c.buf in data && (c.op.write || c.ph.Done? || c.ph.Seen? ==> h in got && data[c.buf] == got[h])
  }

  ghost predicate HeldOk(got: map<int, seq<int>>, data: map<int, seq<int>>, chain: map<int, Chain>) {
    forall h :: h in chain ==> Holds(got, data, h, chain[h])
  }

  // ----- at most two requests are in flight -----

  ghost function Triple(chain: map<int, Chain>, h: int): set<int>
    requires h in chain
  {
    {h, chain[h].a, chain[h].b}
  }

  lemma TripleApart(free: seq<bool>, owner: seq<int>, chain: map<int, Chain>, g: int, h: int)
    requires DescOk(free, owner, chain) && g in chain && h in chain && g != h
    ensures Triple(chain, g) !! Triple(chain, h) && |Triple(chain, g)| == 3
  {
    assert Owns(owner, g, chain[g]) && Owns(owner, h, chain[h]);
  }

  function Below(n: int): set<int> { set i | 0 <= i < n && InRange(i, n) }

  predicate InRange(i: int, n: int) { 0 <= i < n }

  lemma {:induction false} BelowSize(n: int)
    requires n >= 0
    ensures |Below(n)| == n
  {
    if n > 0 {
      BelowSize(n - 1);
      assert Below(n) == Below(n - 1) + {n - 1};
    }
  }

  lemma SubsetSize(a: set<int>, b: set<int>)
    requires a <= b
    ensures |a| <= |b|
  {
    assert b == a + (b - a);
  }

  /** Eight descriptors are not enough for three chains. */
  lemma AtMostTwo(free: seq<bool>, owner: seq<int>, chain: map<int, Chain>, g: int, h: int, k: int)
    requires DescOk(free, owner, chain) && g in chain && h in chain && k in chain && g != h && g != k
    ensures h == k
  {
    if h != k {
      TripleApart(free, owner, chain, g, h);
      TripleApart(free, owner, chain, h, k);
      TripleApart(free, owner, chain, k, g);
      TripleApart(free, owner, chain, g, k);
      var all := Triple(chain, g) + Triple(chain, h) + Triple(chain, k);
      assert Owns(owner, g, chain[g]) && Owns(owner, h, chain[h]) && Owns(owner, k, chain[k]);
      assert all <= Below(NUM);
      BelowSize(NUM);
      SubsetSize(all, Below(NUM));
    }
  }

  /** So a ring never holds more than two entries. */
  lemma AvailFew(free: seq<bool>, owner: seq<int>, chain: map<int, Chain>, ring: seq<int>, lo: int, hi: int)
    requires DescOk(free, owner, chain) && AvailOk(ring, lo, hi, chain)
    ensures 0 <= lo <= hi <= lo + 2
  {
    if hi - lo >= 3 {
      AtMostTwo(free, owner, chain, ring[RingSlot(lo)], ring[RingSlot(lo + 1)], ring[RingSlot(lo + 2)]);
    }
  }

  lemma UsedFew(free: seq<bool>, owner: seq<int>, chain: map<int, Chain>, ring: seq<int>, status: seq<int>, lo: int,
      hi: int)
    requires DescOk(free, owner, chain) && UsedOk(ring, status, lo, hi, chain)
    ensures 0 <= lo <= hi <= lo + 2
  {
    if hi - lo >= 3 {
      AtMostTwo(free, owner, chain, ring[RingSlot(lo)], ring[RingSlot(lo + 1)], ring[RingSlot(lo + 2)]);
    }
  }

  /** The ring's slots go round evenly as the 16-bit indices wrap. */
  lemma IdxOf(n: int)
    requires 0 <= n
    ensures RingSlot(Idx(n)) == RingSlot(n) && Idx(Idx(n) + 1) == Idx(n + 1)
  {
    var q, x := n / U16, n % U16;
    assert n == U16 * q + x;
    assert n == NUM * (8192 * q + x / NUM) + x % NUM;
  }

  lemma SlotsApart(i: int, j: int)
    requires 0 <= i < j <= i + 2
    ensures RingSlot(i) != RingSlot(j) && Idx(i) != Idx(j)
  {
    var d := j / NUM - i / NUM;
    assert j - i == NUM * d + (RingSlot(j) - RingSlot(i));
    var e := j / U16 - i / U16;
    assert j - i == U16 * e + (Idx(j) - Idx(i));
  }

  /** With at most two entries the 16-bit indices tell as much as the full counts. */
  lemma Wraps(lo: int, hi: int)
    requires 0 <= lo <= hi <= lo + 2
    ensures (Idx(lo) == Idx(hi) <==> lo == hi) && RingSlot(Idx(lo)) == RingSlot(lo) && RingSlot(Idx(hi)) == RingSlot(hi)
    ensures Idx(Idx(hi) + 1) == Idx(hi + 1) && Idx(Idx(lo) + 1) == Idx(lo + 1)
    ensures 0 <= RingSlot(lo) < NUM && 0 <= RingSlot(hi) < NUM
    ensures forall i :: lo <= i < hi ==> RingSlot(i) != RingSlot(hi)
  {
    hide Idx, RingSlot;
    IdxOf(lo);
    IdxOf(hi);
    if lo < hi { SlotsApart(lo, hi); }
    forall i | lo <= i < hi ensures RingSlot(i) != RingSlot(hi) { SlotsApart(i, hi); }
    SlotBound(lo);
    SlotBound(hi);
  }

  lemma SlotBound(n: int)
    ensures 0 <= RingSlot(n) < NUM
  {
  }
}

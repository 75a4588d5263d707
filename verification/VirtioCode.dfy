/** kernel/virtio_disk.c as written, and the device's two moves. */
module VirtioCode {
  import opened Virtio

  const BLANK := Desc(Nowhere, 0, 0)

  /** v at the three places x, y and z. */
  function Put3<T>(s: seq<T>, x: int, y: int, z: int, v: T): (r: seq<T>)
    requires 0 <= x < |s| && 0 <= y < |s| && 0 <= z < |s|
    ensures |r| == |s|
  {
    s[x := v][y := v][z := v]
  }

  /** The three descriptors of a request: header, data, status. */
  function Describe(desc: seq<Desc>, x: int, y: int, z: int, buf: int, op: Op): (r: seq<Desc>)
    requires 0 <= x < |desc| && 0 <= y < |desc| && 0 <= z < |desc|
    ensures |r| == |desc|
  {
    desc[x := Desc(Ops(x), F_NEXT, y)]
        [y := Desc(DataOf(buf), if op.write then F_NEXT else F_WRITE + F_NEXT, z)]
        [z := Desc(Status(x), F_WRITE, 0)]
  }

  /** Sets phase ph on chain h. */
  function SetPhase(chain: map<int, Chain>, h: int, ph: Phase): map<int, Chain>
    requires h in chain
  {
    chain[h := chain[h].(ph := ph)]
  }

  lemma PhaseDesc(free: seq<bool>, owner: seq<int>, chain: map<int, Chain>, h: int, ph: Phase)
    requires DescOk(free, owner, chain) && h in chain
    ensures DescOk(free, owner, SetPhase(chain, h, ph))
  {
    var c2 := SetPhase(chain, h, ph);
    forall g | g in c2 ensures Owns(owner, g, c2[g]) { assert Owns(owner, g, chain[g]); }
  }

  lemma PhaseFormat(desc: seq<Desc>, ops: seq<Op>, info: seq<int>, chain: map<int, Chain>, h: int, ph: Phase)
    requires FormatOk(desc, ops, info, chain) && h in chain
    ensures FormatOk(desc, ops, info, SetPhase(chain, h, ph))
  {
    var c2 := SetPhase(chain, h, ph);
    forall g | g in c2 ensures Formatted(desc, ops, info, g, c2[g]) { assert Formatted(desc, ops, info, g, chain[g]); }
  }

  lemma PhaseBusy(busy: set<int>, chain: map<int, Chain>, h: int, ph: Phase)
    requires BusyOk(busy, chain) && h in chain && !ph.Seen? && !chain[h].ph.Seen?
    ensures BusyOk(busy, SetPhase(chain, h, ph))
  {
    var c2 := SetPhase(chain, h, ph);
    forall x | x in busy ensures exists g :: g in c2 && c2[g].buf == x {
      var g :| g in chain && chain[g].buf == x;
      assert g in c2 && c2[g].buf == x;
    }
  }

  lemma SeenBusy(busy: set<int>, chain: map<int, Chain>, h: int)
    requires BusyOk(busy, chain) && h in chain
    ensures !chain[h].ph.Seen? ==> chain[h].buf in busy
    ensures BusyOk(busy - {chain[h].buf}, SetPhase(chain, h, Seen))
  {
    var c2, busy2 := SetPhase(chain, h, Seen), busy - {chain[h].buf};
    forall x | x in busy2 ensures exists g :: g in c2 && c2[g].buf == x {
      var g :| g in chain && chain[g].buf == x;
      assert g in c2 && c2[g].buf == x;
    }
  }

  /** The head of the avail ring leaves it. */
  lemma TakeAvail(ring: seq<int>, lo: int, hi: int, chain: map<int, Chain>)
    requires AvailOk(ring, lo, hi, chain) && lo < hi
    ensures ring[RingSlot(lo)] in chain && chain[ring[RingSlot(lo)]].ph == Queued(lo)
        && AvailOk(ring, lo + 1, hi, SetPhase(chain, ring[RingSlot(lo)], Taken))
  {
  }

  /** A phase outside the avail ring changes to another one. */
  lemma KeepAvail(ring: seq<int>, lo: int, hi: int, chain: map<int, Chain>, h: int, ph: Phase)
    requires AvailOk(ring, lo, hi, chain) && h in chain && !chain[h].ph.Queued? && !ph.Queued?
    ensures AvailOk(ring, lo, hi, SetPhase(chain, h, ph))
  {
  }

  lemma KeepUsed(ring: seq<int>, status: seq<int>, lo: int, hi: int, chain: map<int, Chain>, h: int, ph: Phase)
    requires UsedOk(ring, status, lo, hi, chain) && h in chain && (chain[h].ph.Queued? || chain[h].ph.Taken?)
        && (ph.Queued? || ph.Taken?)
    ensures UsedOk(ring, status, lo, hi, SetPhase(chain, h, ph))
  {
  }

  /** The device completes chain h. */
  lemma AddUsed(ring: seq<int>, status: seq<int>, lo: int, hi: int, chain: map<int, Chain>, h: int)
    requires UsedOk(ring, status, lo, hi, chain) && h in chain && chain[h].ph.Taken? && 0 <= h < NUM && hi - lo <= 2
    ensures UsedOk(ring[RingSlot(hi) := h], status[h := 0], lo, hi + 1, SetPhase(chain, h, Done(hi)))
  {
    Wraps(lo, hi);
  }

  /** The driver acknowledges the oldest entry. */
  lemma SeeUsed(ring: seq<int>, status: seq<int>, lo: int, hi: int, chain: map<int, Chain>)
    requires UsedOk(ring, status, lo, hi, chain) && lo < hi
    ensures ring[RingSlot(lo)] in chain && chain[ring[RingSlot(lo)]].ph == Done(lo) && 0 <= ring[RingSlot(lo)] < NUM
        && status[ring[RingSlot(lo)]] == 0
        && UsedOk(ring, status, lo + 1, hi, SetPhase(chain, ring[RingSlot(lo)], Seen))
  {
  }

  /** A request that goes on from one phase to the next, not yet completed or already. */
  lemma KeepHeld(got: map<int, seq<int>>, data: map<int, seq<int>>, chain: map<int, Chain>, h: int, ph: Phase)
    requires HeldOk(got, data, chain) && h in chain && (ph.Done? || ph.Seen? ==> chain[h].ph.Done?)
    ensures HeldOk(got, data, SetPhase(chain, h, ph))
  {
    forall g | g in SetPhase(chain, h, ph) ensures Holds(got, data, g, SetPhase(chain, h, ph)[g]) {
      assert Holds(got, data, g, chain[g]);
    }
  }

  /** The buffers, and what the chains move, once the device has carried out chain h. */
  function DataAfter(data: map<int, seq<int>>, blocks: map<int, seq<int>>, c: Chain): map<int, seq<int>>
    requires c.op.blk in blocks
  {
    if c.op.write then data else data[c.buf := blocks[c.op.blk]]
  }

  function GotAfter(got: map<int, seq<int>>, blocks: map<int, seq<int>>, h: int, c: Chain): map<int, seq<int>>
    requires c.op.blk in blocks
  {
    if c.op.write then got else got[h := blocks[c.op.blk]]
  }

  /** A read changes its own buffer, which no other request has; a write finds its buffer as it was submitted. */
  lemma HeldAfter(got: map<int, seq<int>>, data: map<int, seq<int>>, blocks: map<int, seq<int>>, chain: map<int, Chain>,
      busy: set<int>, h: int, i: int)
    requires HeldOk(got, data, chain) && BusyOk(busy, chain) && h in chain && chain[h].op.blk in blocks
    ensures HeldOk(GotAfter(got, blocks, h, chain[h]), DataAfter(data, blocks, chain[h]), SetPhase(chain, h, Done(i)))
    ensures chain[h].buf in data && h in GotAfter(got, blocks, h, chain[h])
    ensures chain[h].op.write ==> data[chain[h].buf] == GotAfter(got, blocks, h, chain[h])[h]
  {
    var c2 := SetPhase(chain, h, Done(i));
    var got2, data2 := GotAfter(got, blocks, h, chain[h]), DataAfter(data, blocks, chain[h]);
    assert Holds(got, data, h, chain[h]);
    forall g | g in c2 ensures Holds(got2, data2, g, c2[g]) { assert Holds(got, data, g, chain[g]); }
  }

  lemma NewHeld(got: map<int, seq<int>>, data: map<int, seq<int>>, chain: map<int, Chain>, h: int, c: Chain)
    requires HeldOk(got, data, chain) && h !in chain && c.buf in data && c.ph.Queued?
    ensures HeldOk(got[h := data[c.buf]], data, chain[h := c])
  {
    var got2, c2 := got[h := data[c.buf]], chain[h := c];
    forall g | g in c2 ensures Holds(got2, data, g, c2[g]) { assert g != h ==> Holds(got, data, g, chain[g]); }
  }

  lemma EndHeld(got: map<int, seq<int>>, data: map<int, seq<int>>, chain: map<int, Chain>, h: int)
    requires HeldOk(got, data, chain) && h in chain && chain[h].ph.Seen?
    ensures HeldOk(got, data, chain - {h}) && h in got && chain[h].buf in data && data[chain[h].buf] == got[h]
  {
    assert Holds(got, data, h, chain[h]);
    forall g | g in chain - {h} ensures Holds(got, data, g, (chain - {h})[g]) { assert Holds(got, data, g, chain[g]); }
  }

  // ----- a new request, and its end -----

  lemma HeadOwned(free: seq<bool>, owner: seq<int>, chain: map<int, Chain>, h: int)
    requires DescOk(free, owner, chain) && h in chain
    ensures Owns(owner, h, chain[h]) && !free[h] && !free[chain[h].a] && !free[chain[h].b]
  {
    assert Owns(owner, h, chain[h]);
  }

  lemma NotHead(free: seq<bool>, owner: seq<int>, chain: map<int, Chain>, d: int)
    requires DescOk(free, owner, chain) && 0 <= d < NUM && free[d]
    ensures d !in chain
  {
    if d in chain { HeadOwned(free, owner, chain, d); }
  }

  lemma NewDesc(free: seq<bool>, owner: seq<int>, chain: map<int, Chain>, h: int, c: Chain)
    requires DescOk(free, owner, chain) && 0 <= h < NUM && 0 <= c.a < NUM && 0 <= c.b < NUM && h != c.a && h != c.b
        && c.a != c.b
    requires free[h] && free[c.a] && free[c.b]
    ensures h !in chain
    ensures DescOk(Put3(free, h, c.a, c.b, false), Put3(owner, h, c.a, c.b, h), chain[h := c])
  {
    var owner2, c2 := Put3(owner, h, c.a, c.b, h), chain[h := c];
    NotHead(free, owner, chain, h);
    forall g | g in c2 ensures Owns(owner2, g, c2[g]) { assert g != h ==> Owns(owner, g, chain[g]); }
  }

  lemma EndDesc(free: seq<bool>, owner: seq<int>, chain: map<int, Chain>, h: int)
    requires DescOk(free, owner, chain) && h in chain
    ensures Owns(owner, h, chain[h])
    ensures var c := chain[h];
            DescOk(Put3(free, h, c.a, c.b, true), Put3(owner, h, c.a, c.b, -1), chain - {h})
  {
    var c := chain[h];
    var owner2, c2 := Put3(owner, h, c.a, c.b, -1), chain - {h};
    assert Owns(owner, h, c);
    forall g | g in c2 ensures Owns(owner2, g, c2[g]) { assert Owns(owner, g, chain[g]); }
    forall d | 0 <= d < NUM && owner2[d] != -1 ensures owner2[d] in c2
        && (d == owner2[d] || d == c2[owner2[d]].a || d == c2[owner2[d]].b) {
      assert owner[d] != h;
    }
  }

  lemma NewAvail(ring: seq<int>, lo: int, hi: int, chain: map<int, Chain>, h: int, c: Chain)
    requires AvailOk(ring, lo, hi, chain) && h !in chain && c.ph == Queued(hi) && hi - lo <= 2
    ensures AvailOk(ring[RingSlot(hi) := h], lo, hi + 1, chain[h := c])
  {
    Wraps(lo, hi);
  }

  lemma NewUsed(ring: seq<int>, status: seq<int>, lo: int, hi: int, chain: map<int, Chain>, h: int, c: Chain)
    requires UsedOk(ring, status, lo, hi, chain) && h !in chain && c.ph.Queued? && 0 <= h < NUM
    ensures UsedOk(ring, status[h := 0xff], lo, hi, chain[h := c])
  {
  }

  lemma NewBusy(busy: set<int>, chain: map<int, Chain>, h: int, c: Chain)
    requires BusyOk(busy, chain) && h !in chain && c.ph.Queued? && forall g :: g in chain ==> chain[g].buf != c.buf
    ensures BusyOk(busy + {c.buf}, chain[h := c])
  {
    var c2, busy2 := chain[h := c], busy + {c.buf};
    forall x | x in busy2 ensures exists g :: g in c2 && c2[g].buf == x {
      if x == c.buf {
        assert h in c2 && c2[h].buf == x;
      } else {
        var g :| g in chain && chain[g].buf == x;
        assert g in c2 && c2[g].buf == x;
      }
    }
  }

  lemma EndRings(avail: seq<int>, lo: int, hi: int, used: seq<int>, status: seq<int>, s: int, u: int, busy: set<int>,
      chain: map<int, Chain>, h: int)
    requires AvailOk(avail, lo, hi, chain) && UsedOk(used, status, s, u, chain) && BusyOk(busy, chain) && h in chain
        && chain[h].ph.Seen?
    ensures AvailOk(avail, lo, hi, chain - {h}) && UsedOk(used, status, s, u, chain - {h}) && BusyOk(busy, chain - {h})
  {
    var c2 := chain - {h};
    forall x | x in busy ensures exists g :: g in c2 && c2[g].buf == x {
      var g :| g in chain && chain[g].buf == x;
      assert g != h && g in c2 && c2[g].buf == x;
    }
  }

  /** Fewer than three descriptors are free. */
  ghost predicate NoThree(free: seq<bool>) {
    forall x, y, z :: 0 <= x < |free| && 0 <= y < |free| && 0 <= z < |free| && x != y && x != z && y != z ==>
        !(free[x] && free[y] && free[z])
  }

  /** Descriptors outside the chains may change freely. */
  lemma FormatKept(desc: seq<Desc>, desc': seq<Desc>, ops: seq<Op>, info: seq<int>, free: seq<bool>, owner: seq<int>,
      chain: map<int, Chain>)
    requires FormatOk(desc, ops, info, chain) && DescOk(free, owner, chain) && |desc'| == NUM
    requires forall d :: 0 <= d < NUM && !free[d] ==> desc'[d] == desc[d]
    ensures FormatOk(desc', ops, info, chain)
  {
    forall h | h in chain ensures Formatted(desc', ops, info, h, chain[h]) {
      assert Formatted(desc, ops, info, h, chain[h]);
      HeadOwned(free, owner, chain, h);
    }
  }

  /** The descriptors of a new chain, formatted. */
  lemma FormatNew(desc: seq<Desc>, ops: seq<Op>, info: seq<int>, free: seq<bool>, owner: seq<int>, chain: map<int,
      Chain>, h: int, c: Chain)
    requires FormatOk(desc, ops, info, chain) && DescOk(free, owner, chain)
    requires 0 <= h < NUM && 0 <= c.a < NUM && 0 <= c.b < NUM && h != c.a && h != c.b && c.a != c.b && free[h]
        && free[c.a] && free[c.b]
    ensures FormatOk(Describe(desc, h, c.a, c.b, c.buf, c.op), ops[h := c.op], info[h := c.buf], chain[h := c])
  {
    var desc2, c2 := Describe(desc, h, c.a, c.b, c.buf, c.op), chain[h := c];
    forall g | g in c2 ensures Formatted(desc2, ops[h := c.op], info[h := c.buf], g, c2[g]) {
      if g != h {
        assert Formatted(desc, ops, info, g, chain[g]);
        HeadOwned(free, owner, chain, g);
      }
    }
  }

  /** A chain that goes leaves the others formatted. */
  lemma FormatEnd(desc: seq<Desc>, ops: seq<Op>, info: seq<int>, free: seq<bool>, owner: seq<int>, chain: map<int,
      Chain>, h: int)
    requires FormatOk(desc, ops, info, chain) && DescOk(free, owner, chain) && h in chain
    ensures Owns(owner, h, chain[h])
    ensures var c := chain[h]; FormatOk(Put3(desc, h, c.a, c.b, BLANK), ops, info[h := -1], chain - {h})
  {
    HeadOwned(free, owner, chain, h);
    var c := chain[h];
    var desc2, c2 := Put3(desc, h, c.a, c.b, BLANK), chain - {h};
    forall g | g in c2 ensures Formatted(desc2, ops, info[h := -1], g, c2[g]) {
      assert Formatted(desc, ops, info, g, chain[g]);
      HeadOwned(free, owner, chain, g);
    }
  }

  lemma NewRequest(free: seq<bool>, owner: seq<int>, chain: map<int, Chain>, desc: seq<Desc>, ops: seq<Op>,
      info: seq<int>, h: int, c: Chain)
    requires DescOk(free, owner, chain) && FormatOk(desc, ops, info, chain)
    requires 0 <= h < NUM && 0 <= c.a < NUM && 0 <= c.b < NUM && h != c.a && h != c.b && c.a != c.b && free[h]
        && free[c.a] && free[c.b]
    ensures h !in chain
        && DescOk(Put3(free, h, c.a, c.b, false), Put3(owner, h, c.a, c.b, h), chain[h := c])
    ensures FormatOk(Describe(desc, h, c.a, c.b, c.buf, c.op), ops[h := c.op], info[h := c.buf], chain[h := c])
  {
    hide FormatOk;
    NewDesc(free, owner, chain, h, c);
    FormatNew(desc, ops, info, free, owner, chain, h, c);
  }

  lemma NewRings(free: seq<bool>, owner: seq<int>, chain: map<int, Chain>, avail: seq<int>, lo: int, hi: int,
      used: seq<int>, status: seq<int>,
                 s: int, u: int, busy: set<int>, h: int, c: Chain)
    requires DescOk(free, owner, chain) && AvailOk(avail, lo, hi, chain) && UsedOk(used, status, s, u, chain)
        && BusyOk(busy, chain)
    requires h !in chain && 0 <= h < NUM && c.ph == Queued(hi) && forall g :: g in chain ==> chain[g].buf != c.buf
    ensures 0 <= RingSlot(Idx(hi)) < NUM && Idx(Idx(hi) + 1) == Idx(hi + 1)
    ensures AvailOk(avail[RingSlot(Idx(hi)) := h], lo, hi + 1, chain[h := c])
        && UsedOk(used, status[h := 0xff], s, u, chain[h := c])
    ensures BusyOk(busy + {c.buf}, chain[h := c])
  {
    hide DescOk, BusyOk;
    AvailFew(free, owner, chain, avail, lo, hi);
    Wraps(lo, hi);
    NewAvail(avail, lo, hi, chain, h, c);
    NewUsed(used, status, s, u, chain, h, c);
    NewBusy(busy, chain, h, c);
  }

  lemma Lengths(free: seq<bool>, owner: seq<int>, chain: map<int, Chain>, desc: seq<Desc>, ops: seq<Op>, info: seq<int>,
                avail: seq<int>, lo: int, hi: int, used: seq<int>, status: seq<int>, s: int, u: int)
    requires DescOk(free, owner, chain) && FormatOk(desc, ops, info, chain) && AvailOk(avail, lo, hi, chain)
        && UsedOk(used, status, s, u, chain)
    ensures |free| == |owner| == |desc| == |ops| == |info| == |avail| == |used| == |status| == NUM
  {
  }

  class Disk {
    var free: seq<bool>
    var desc: seq<Desc>
    var ops: seq<Op>
    var info: seq<int>             // info[h].b, -1 for none
    var status: seq<int>           // info[h].status
    var availRing: seq<int>
    var availIdx: int              // avail->idx
    var lastAvail: int             // how far the device has read the avail ring
    var usedRing: seq<int>
    var deviceIdx: int             // used->idx
    var usedIdx: int               // used_idx
    var busy: set<int>             // buffers with b->disk == 1
    var data: map<int, seq<int>>   // buffer contents
    var blocks: map<int, seq<int>> // the disk
    ghost var owner: seq<int>
    ghost var chain: map<int, Chain>
    // how often: avail entries made, taken by the device, used entries made, seen by the driver
    ghost var made: int
    ghost var taken: int
    ghost var done: int
    ghost var seen: int
    ghost var got: map<int, seq<int>> // what each chain moves

    ghost predicate Valid()
      reads this
    {
      && DescOk(free, owner, chain) && FormatOk(desc, ops, info, chain)
      && AvailOk(availRing, taken, made, chain) && UsedOk(usedRing, status, seen, done, chain) && BusyOk(busy, chain)
      && HeldOk(got, data, chain)
      && availIdx == Idx(made) && lastAvail == Idx(taken) && deviceIdx == Idx(done) && usedIdx == Idx(seen)
    }

    constructor (d: map<int, seq<int>>, c: map<int, seq<int>>)
      ensures Valid() && blocks == d && data == c && chain == map[] && busy == {}
    {
      free, desc, ops := seq(NUM, _ => true), seq(NUM, _ => BLANK), seq(NUM, _ => Op(false, 0));
      info, status := seq(NUM, _ => -1), seq(NUM, _ => 0);
      availRing, availIdx, lastAvail := seq(NUM, _ => 0), 0, 0;
      usedRing, deviceIdx, usedIdx := seq(NUM, _ => 0), 0, 0;
      busy, data, blocks := {}, c, d;
      owner, chain := seq(NUM, _ => -1), map[];
      made, taken, done, seen, got := 0, 0, 0, 0, map[];
    }

    /** A process changes a buffer; it has the buffer's sleep-lock, so no request of its own is under way. */
    method Modify(buf: int, w: seq<int>)
      requires Valid() && forall g :: g in chain ==> chain[g].buf != buf
      modifies this`data
      ensures Valid() && data == old(data)[buf := w]
    {
      hide DescOk, FormatOk, AvailOk, UsedOk, BusyOk;
      forall g | g in chain ensures Holds(got, data[buf := w], g, chain[g]) { assert Holds(got, data, g, chain[g]); }
      data := data[buf := w];
    }

    /** The first free descriptor, no longer free; -1 if there is none. */
    method AllocDesc() returns (d: int)
      requires |free| == NUM
      modifies this`free
      ensures d == -1 ==> free == old(free) && forall i :: 0 <= i < NUM ==> !free[i]
      ensures d != -1 ==> 0 <= d < NUM && old(free)[d] && free == old(free)[d := false]
    {
      d := 0;
      while d < NUM
        invariant 0 <= d <= NUM && free == old(free) && forall i :: 0 <= i < d ==> !free[i]
      {
        if free[d] {
          free := free[d := false];
          return;
        }
        d := d + 1;
      }
      d := -1;
    }

    /** Gives back a descriptor; both panics would need one that is free or out of range. */
    method FreeDesc(d: int)
      requires |free| == |desc| == NUM && 0 <= d < NUM && !free[d]
      modifies this`free, this`desc
      ensures free == old(free)[d := true] && desc == old(desc)[d := BLANK]
    {
      if d >= NUM || free[d] {
        assert false;  // panic("free_desc")
      }
      desc := desc[d := BLANK];
      free := free[d := true];
    }

    /** Three free descriptors, or none taken. */
    method Alloc3Desc() returns (ok: bool, x: int, y: int, z: int)
      requires |free| == |desc| == NUM
      modifies this`free, this`desc
      ensures ok ==> 0 <= x < NUM && 0 <= y < NUM && 0 <= z < NUM && x != y && x != z && y != z && desc == old(desc)
      ensures ok ==>
          old(free)[x] && old(free)[y] && old(free)[z] && free == Put3(old(free), x, y, z, false)
      ensures !ok ==> free == old(free) && |desc| == NUM && forall d :: 0 <= d < NUM && !free[d] ==>
          desc[d] == old(desc)[d]
      ensures !ok ==> NoThree(free)
    {
      x := AllocDesc();
      if x == -1 { return false, 0, 0, 0; }
      y := AllocDesc();
      if y == -1 {
        FreeDesc(x);
        assert free == old(free);
        return false, 0, 0, 0;
      }
      z := AllocDesc();
      if z == -1 {
        FreeDesc(x);
        FreeDesc(y);
        assert free == old(free);
        return false, 0, 0, 0;
      }
      ok := true;
    }

    /** virtio_disk_rw up to the notification; false if it has to sleep for descriptors first. */
    method Submit(buf: int, op: Op) returns (ok: bool, h: int)
      requires Valid() && buf in data && forall g :: g in chain ==> chain[g].buf != buf
      modifies this`free, this`desc, this`ops, this`info, this`status, this`availRing, this`availIdx, this`busy,
          this`owner, this`chain, this`made, this`got
      ensures Valid() && made == old(made) + (if ok then 1 else 0)
      ensures got == (if ok then old(got)[h := data[buf]] else old(got))
      ensures !ok ==> chain == old(chain) && busy == old(busy) && NoThree(old(free))
      ensures ok ==> h !in old(chain) && h in chain && chain[h].buf == buf && chain[h].op == op && chain[h].ph.Queued?
      ensures ok ==> chain == old(chain)[h := chain[h]] && busy == old(busy) + {buf}
    {
      hide DescOk, FormatOk, AvailOk, UsedOk, BusyOk, HeldOk, NoThree, Idx, RingSlot, Put3;
      Sizes(this);
      ghost var free0, desc0 := free, desc;
      var x, y, z;
      ok, x, y, z := Alloc3Desc();
      if !ok {
        FormatKept(desc0, desc, ops, info, free, owner, chain);
        return false, 0;
      }
      h := x;
      NotHead(free0, owner, chain, x);
      NewHeld(got, data, chain, x, Chain(y, z, buf, op, Queued(made)));
      got := got[x := data[buf]];
      Enqueue(x, y, z, buf, op, free0);
    }

    /** The rest of the submission, on three descriptors that were free. */
    method Enqueue(x: int, y: int, z: int, buf: int, op: Op, ghost free0: seq<bool>)
      requires DescOk(free0, owner, chain) && FormatOk(desc, ops, info, chain) && AvailOk(availRing, taken, made, chain)
      requires UsedOk(usedRing, status, seen, done, chain) && BusyOk(busy, chain)
      requires HeldOk(got, data, chain[x := Chain(y, z, buf, op, Queued(made))]) && forall g :: g in chain ==>
          chain[g].buf != buf
      requires availIdx == Idx(made) && lastAvail == Idx(taken) && deviceIdx == Idx(done) && usedIdx == Idx(seen)
      requires 0 <= x < NUM && 0 <= y < NUM && 0 <= z < NUM && x != y && x != z && y != z && free0[x] && free0[y]
          && free0[z]
      requires free == Put3(free0, x, y, z, false)
      modifies this`desc, this`ops, this`info, this`status, this`availRing, this`availIdx, this`busy, this`owner,
          this`chain, this`made
      ensures Valid() && made == old(made) + 1 && x !in old(chain)
          && chain == old(chain)[x := Chain(y, z, buf, op, Queued(old(made)))] && busy == old(busy) + {buf}
    {
      hide DescOk, FormatOk, AvailOk, UsedOk, BusyOk, HeldOk, Idx, RingSlot, Put3, Describe;
      ghost var c := Chain(y, z, buf, op, Queued(made));
      Lengths(free0, owner, chain, desc, ops, info, availRing, taken, made, usedRing, status, seen, done);
      NewRequest(free0, owner, chain, desc, ops, info, x, c);
      NewRings(free0, owner, chain, availRing, taken, made, usedRing, status, seen, done, busy, x, c);
      Format(x, y, z, buf, op, c);
    }

    /** Request header, descriptors and status byte; the buffer is noted, and the head put in the avail ring. */
    method Format(x: int, y: int, z: int, buf: int, op: Op, ghost c: Chain)
      requires |desc| == |ops| == |status| == |info| == |availRing| == |owner| == NUM && 0 <= RingSlot(availIdx) < NUM
      requires 0 <= x < NUM && 0 <= y < NUM && 0 <= z < NUM
      modifies this`desc, this`ops, this`info, this`status, this`availRing, this`availIdx, this`busy, this`owner,
          this`chain, this`made
      ensures ops == old(ops)[x := op] && status == old(status)[x := 0xff]
      ensures desc == Describe(old(desc), x, y, z, buf, op) && busy == old(busy) + {buf} && info == old(info)[x := buf]
      ensures availRing == old(availRing)[RingSlot(old(availIdx)) := x] && availIdx == Idx(old(availIdx) + 1)
      ensures owner == Put3(old(owner), x, y, z, x) && chain == old(chain)[x := c] && made == old(made) + 1
    {
      hide Idx, RingSlot, Put3;
      ops := ops[x := op];
      desc := desc[x := Desc(Ops(x), F_NEXT, y)];
      desc := desc[y := Desc(DataOf(buf), if op.write then F_NEXT else F_WRITE + F_NEXT, z)];
      status := status[x := 0xff];
      desc := desc[z := Desc(Status(x), F_WRITE, 0)];
      busy := busy + {buf};
      info := info[x := buf];
      availRing := availRing[RingSlot(availIdx) := x];
      availIdx := Idx(availIdx + 1);
      owner, chain, made := Put3(owner, x, y, z, x), chain[x := c], made + 1;
    }

    /** The device takes the next request from the avail ring. */
    method DeviceTake() returns (h: int)
      requires Valid() && lastAvail != availIdx
      modifies this`lastAvail, this`chain, this`taken
      ensures Valid() && h in old(chain) && old(chain)[h].ph == Queued(old(taken)) && taken == old(taken) + 1
      ensures chain == SetPhase(old(chain), h, Taken)
    {
      hide DescOk, FormatOk, UsedOk, BusyOk, HeldOk, AvailOk, Idx, RingSlot, SetPhase;
      Sizes(this);
      AvailFew(free, owner, chain, availRing, taken, made);
      Wraps(taken, made);
      h := availRing[RingSlot(lastAvail)];
      TakeAvail(availRing, taken, made, chain);
      PhaseDesc(free, owner, chain, h, Taken);
      PhaseFormat(desc, ops, info, chain, h, Taken);
      PhaseBusy(busy, chain, h, Taken);
      KeepUsed(usedRing, status, seen, done, chain, h, Taken);
      KeepHeld(got, data, chain, h, Taken);
      lastAvail := Idx(lastAvail + 1);
      chain, taken := SetPhase(chain, h, Taken), taken + 1;
    }

    /**
      What the descriptors in memory tell the device to do: copy between buffer and disk, write the status, and put
      the head in the used ring.
     */
    method Transfer(h: int, ghost c: Chain)
      requires Formatted(desc, ops, info, h, c) && c.buf in data && c.op.blk in blocks && h in chain
      requires |status| == |usedRing| == NUM && 0 <= RingSlot(deviceIdx) < NUM
      modifies this`data, this`blocks, this`status, this`usedRing, this`deviceIdx, this`chain, this`done, this`got
      ensures status == old(status)[h := 0]
      ensures usedRing == old(usedRing)[RingSlot(old(deviceIdx)) := h] && deviceIdx == Idx(old(deviceIdx) + 1)
      ensures chain == SetPhase(old(chain), h, Done(old(done))) && done == old(done) + 1
      ensures got == GotAfter(old(got), old(blocks), h, c)
      ensures data == DataAfter(old(data), old(blocks), c)
      ensures blocks == if c.op.write then old(blocks)[c.op.blk := old(data)[c.buf]] else old(blocks)
    {
      hide Idx, RingSlot, SetPhase, GotAfter;
      got := GotAfter(got, blocks, h, c);
      var d := desc[h].next;
      var buf := desc[d].addr.buf;
      if desc[d].flags == F_NEXT {
        blocks := blocks[ops[h].blk := data[buf]];
      } else {
        data := data[buf := blocks[ops[h].blk]];
      }
      status := status[desc[desc[d].next].addr.h := 0];
      usedRing := usedRing[RingSlot(deviceIdx) := h];
      deviceIdx := Idx(deviceIdx + 1);
      chain, done := SetPhase(chain, h, Done(done)), done + 1;
    }

    /** The device carries out, in any order, a request it has taken: what the descriptors in memory say. */
    method DeviceComplete(h: int)
      requires Valid() && h in chain && chain[h].ph.Taken? && chain[h].op.blk in blocks
      modifies this`data, this`blocks, this`status, this`usedRing, this`deviceIdx, this`chain, this`done, this`got
      ensures Valid() && chain == SetPhase(old(chain), h, Done(old(done))) && done == old(done) + 1 && h in got
      ensures data == DataAfter(old(data), old(blocks), old(chain)[h])
      ensures got == GotAfter(old(got), old(blocks), h, old(chain)[h])
      ensures var c := old(chain)[h]; blocks == if c.op.write then old(blocks)[c.op.blk := got[h]] else old(blocks)
    {
      hide DescOk, FormatOk, AvailOk, UsedOk, BusyOk, HeldOk, Idx, RingSlot, SetPhase, DataAfter, GotAfter;
      Sizes(this);
      ChainFormat(desc, ops, info, chain, h);
      UsedFew(free, owner, chain, usedRing, status, seen, done);
      Wraps(seen, done);
      PhaseDesc(free, owner, chain, h, Done(done));
      PhaseFormat(desc, ops, info, chain, h, Done(done));
      PhaseBusy(busy, chain, h, Done(done));
      KeepAvail(availRing, taken, made, chain, h, Done(done));
      AddUsed(usedRing, status, seen, done, chain, h);
      HeldAfter(got, data, blocks, chain, busy, h, done);
      Transfer(h, chain[h]);
    }

    /** One round of virtio_disk_intr: the entry names a request in flight, whose buffer waits for it. */
    method IntrOne() returns (ghost h: int)
      requires Valid() && usedIdx != deviceIdx
      modifies this`busy, this`usedIdx, this`chain, this`seen
      ensures Valid() && seen == old(seen) + 1 <= done
      ensures h in old(chain) && old(chain)[h].ph == Done(old(seen)) && chain == SetPhase(old(chain), h, Seen)
      ensures old(chain)[h].buf in old(busy) && busy == old(busy) - {old(chain)[h].buf}
    {
      hide DescOk, FormatOk, AvailOk, BusyOk, UsedOk, HeldOk, Idx, RingSlot, SetPhase;
      Sizes(this);
      UsedFew(free, owner, chain, usedRing, status, seen, done);
      Wraps(seen, done);
      SeeUsed(usedRing, status, seen, done, chain);
      var id := usedRing[RingSlot(usedIdx)];
      ChainFormat(desc, ops, info, chain, id);
      if status[id] != 0 {
        assert false;  // panic("virtio_disk_intr status")
      }
      var b := info[id];
      PhaseDesc(free, owner, chain, id, Seen);
      PhaseFormat(desc, ops, info, chain, id, Seen);
      KeepAvail(availRing, taken, made, chain, id, Seen);
      SeenBusy(busy, chain, id);
      KeepHeld(got, data, chain, id, Seen);
      busy := busy - {b};
      usedIdx := Idx(usedIdx + 1);
      h, chain, seen := id, SetPhase(chain, id, Seen), seen + 1;
    }

    /** virtio_disk_intr: every completed request is acknowledged, once, and no other. */
    method Intr()
      requires Valid()
      modifies this`busy, this`usedIdx, this`chain, this`seen
      ensures Valid() && seen == done
      ensures forall h :: h in chain <==> h in old(chain)
      ensures forall h :: h in chain ==>
          chain[h] == (if old(chain)[h].ph.Done? then old(chain)[h].(ph := Seen) else old(chain)[h])
    {
      hide DescOk, FormatOk, AvailOk, BusyOk, HeldOk, Idx, RingSlot;
      ghost var chain0 := chain;
      while usedIdx != deviceIdx
        invariant Valid() && seen <= done
        invariant forall h :: h in chain <==> h in chain0
        invariant forall h :: h in chain ==>
                    chain[h] == chain0[h] || (chain0[h].ph.Done? && chain[h] == chain0[h].(ph := Seen))
        decreases done - seen
      {
        ghost var h := IntrOne();
      }
      UsedFew(free, owner, chain, usedRing, status, seen, done);
      Wraps(seen, done);
    }

    /** free_chain(i): follows the chain's next fields. */
    method FreeChain(i: int, ghost c: Chain)
      requires |free| == |desc| == NUM && 0 <= i < NUM && 0 <= c.a < NUM && 0 <= c.b < NUM && i != c.a && i != c.b
          && c.a != c.b
      requires !free[i] && !free[c.a] && !free[c.b]
      requires desc[i].flags % 2 == 1 && desc[i].next == c.a && desc[c.a].flags % 2 == 1 && desc[c.a].next == c.b
          && desc[c.b].flags % 2 == 0
      modifies this`free, this`desc
      ensures free == Put3(old(free), i, c.a, c.b, true)
          && desc == Put3(old(desc), i, c.a, c.b, BLANK)
    {
      var d := i;
      ghost var k := 0;
      while true
        invariant 0 <= k <= 2 && d == (if k == 0 then i else if k == 1 then c.a else c.b)
        invariant k == 0 ==> free == old(free) && desc == old(desc)
        invariant k == 1 ==> free == old(free)[i := true] && desc == old(desc)[i := BLANK]
        invariant k == 2 ==> free == old(free)[i := true][c.a := true] && desc == old(desc)[i := BLANK][c.a := BLANK]
        decreases 2 - k
      {
        var flag, nxt := desc[d].flags, desc[d].next;
        FreeDesc(d);
        if flag % 2 == 1 { d := nxt; } else { break; }
        k := k + 1;
      }
    }

    /** The end of virtio_disk_rw, once b->disk is clear: the request's three descriptors are free again. */
    method Finish(h: int)
      requires Valid() && h in chain && chain[h].buf !in busy
      modifies this`info, this`free, this`desc, this`owner, this`chain
      ensures Valid() && chain == old(chain) - {h}
      ensures h in got && old(chain)[h].buf in data && data[old(chain)[h].buf] == got[h]
    {
      hide DescOk, FormatOk, AvailOk, UsedOk, BusyOk, HeldOk, Idx, RingSlot, Put3;
      Sizes(this);
      SeenNow(busy, chain, h);
      ghost var c := chain[h];
      HeadOwned(free, owner, chain, h);
      ChainFormat(desc, ops, info, chain, h);
      FormatEnd(desc, ops, info, free, owner, chain, h);
      EndDesc(free, owner, chain, h);
      EndRings(availRing, taken, made, usedRing, status, seen, done, busy, chain, h);
      EndHeld(got, data, chain, h);
      Release(h, c);
    }

    method Release(h: int, ghost c: Chain)
      requires |free| == |owner| == NUM && Formatted(desc, ops, info, h, c) && h != c.a && h != c.b && c.a != c.b
      requires !free[h] && !free[c.a] && !free[c.b]
      modifies this`info, this`free, this`desc, this`owner, this`chain
      ensures info == old(info)[h := -1] && free == Put3(old(free), h, c.a, c.b, true)
      ensures desc == Put3(old(desc), h, c.a, c.b, BLANK)
      ensures owner == Put3(old(owner), h, c.a, c.b, -1) && chain == old(chain) - {h}
    {
      hide Put3;
      info := info[h := -1];
      FreeChain(h, c);
      owner, chain := Put3(owner, h, c.a, c.b, -1), chain - {h};
    }
  }

  lemma SeenNow(busy: set<int>, chain: map<int, Chain>, h: int)
    requires BusyOk(busy, chain) && h in chain && chain[h].buf !in busy
    ensures chain[h].ph.Seen?
  {
  }

  lemma ChainFormat(desc: seq<Desc>, ops: seq<Op>, info: seq<int>, chain: map<int, Chain>, h: int)
    requires FormatOk(desc, ops, info, chain) && h in chain
    ensures Formatted(desc, ops, info, h, chain[h])
  {
  }

  lemma Sizes(d: Disk)
    requires d.Valid()
    ensures |d.free| == |d.desc| == |d.ops| == |d.info| == |d.status| == |d.availRing| == |d.usedRing| == |d.owner| ==
        NUM
  {
  }
}

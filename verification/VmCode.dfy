/**
  kernel/kalloc.c and kernel/vm.c on one physical memory: the allocator's free list threaded
  through the pages, and page tables changed in place entry by entry.
 */
module VmCode {
  import opened VmModel

  const MAXVA := NVPN * PGSIZE

  function Junk(b: int): (w: seq<int>)
    ensures |w| == PGSIZE
  {
    seq(PGSIZE, _ => b)
  }

  /** The tables on the path to virtual page v. */
  function PathNode(level: int, r: int, v: int): Node {
    if level == 2 then Root(r) else if level == 1 then Mid(r, v / 512 / 512) else Low(r, v / 512)
  }

  /** t is s with tables added to the page table r, and nothing else changed but the free pages they took. */
  ghost predicate Extends(s: State, t: State, r: int) {
    && t.view == s.view && TabGrows(s.tab, t.tab) && Keeps(s.role, s.mem, t.mem)
    && (forall p :: p in s.role ==>
          p in t.role && (t.role[p] == s.role[p] || (s.role[p] == Free && t.role[p].Tab? && t.role[p].nd.r == r)))
  }

  /** One more table on the path. */
  lemma ExtendOne(lo: int, s: State, nd: Node)
    requires Inv(lo, s) && |s.fl| > 0 && nd !in s.tab && !nd.Root? && NodeOk(s.tab, nd)
    ensures s.head in s.mem && |s.mem[s.head]| > 0 && s.head in s.role && s.role[s.head] == Free && s.head != 0
    ensures var t := Take(s, Zeros(512));
            && (var (pn, idx) := ParentOf(nd); pn in t.tab && t.tab[pn] in t.mem && 0 <= idx < |t.mem[t.tab[pn]]|)
            && Inv(lo, AddTable(t, s.head, nd)) && Extends(s, AddTable(t, s.head, nd), nd.r)
  {
    hide FreeOk, ViewOk, EntryOk;
    TakeInv(lo, s, Zeros(512), NoHole);
    var t := Take(s, Zeros(512));
    AddTableInv(lo, t, s.head, nd);
    TabRole(t.role, t.tab, ParentOf(nd).0);
  }

  lemma ExtendsTrans(s: State, t: State, u: State, r: int)
    requires Extends(s, t, r) && Extends(t, u, r)
    ensures Extends(s, u, r)
  {
  }

  // ----- what mapping and unmapping a span of pages means -----

  predicate InSpan(x: Va, r: int, v0: int, k: int) { x.r == r && v0 <= x.v < v0 + k }

  /** PTE_V set in flags. */
  function OrV(flags: int): int { if flags % 2 == 1 then flags else flags + 1 }

  lemma PteFlags(p: int, f: int)
    requires p >= 0 && 0 <= f < 1024
    ensures (MkPte(p, f) / 2) % 8 == (f / 2) % 8 && (MkPte(p, f) / 16) % 2 == (f / 16) % 2
        && (MkPte(p, f) / 4) % 2 == (f / 4) % 2
  {
    var a, b, c := f / 2, f / 16, f / 4;
    assert MkPte(p, f) / 2 == p * 512 + a && (p * 512 + a) / 8 == p * 64 + a / 8;
    assert MkPte(p, f) / 16 == p * 64 + b && (p * 64 + b) / 2 == p * 32 + b / 2;
    assert MkPte(p, f) / 4 == p * 256 + c && (p * 256 + c) / 2 == p * 128 + c / 2;
  }

  lemma PteBits(p: int, f: int)
    requires p >= 0 && 0 <= f < 1024
    ensures Ppn(MkPte(p, f)) == p && Flags(MkPte(p, f)) == f && MkPte(p, f) >= 0
    ensures IsV(MkPte(p, f)) == IsV(f) && IsLeaf(MkPte(p, f)) == IsLeaf(f) && IsU(MkPte(p, f)) == IsU(f)
        && IsW(MkPte(p, f)) == IsW(f)
  {
    hide MkPte, Ppn, Flags, IsV;
    PteFlags(p, f);
    PteParts(p, f);
  }

  lemma PteParts(p: int, f: int)
    requires p >= 0 && 0 <= f < 1024
    ensures Ppn(MkPte(p, f)) == p && Flags(MkPte(p, f)) == f && MkPte(p, f) >= 0 && IsV(MkPte(p, f)) == IsV(f)
  {
    assert MkPte(p, f) == 2 * (p * 512 + f / 2) + f % 2;
  }

  lemma OrVBits(f: int)
    requires 0 <= f < 1024
    ensures IsV(OrV(f)) && IsLeaf(OrV(f)) == IsLeaf(f) && 0 <= OrV(f) < 1024
  {
    assert f % 2 == 0 ==> (f + 1) / 2 == f / 2;
  }

  /** Every table of s is in t. */
  ghost predicate TabGrows(s: map<Node, int>, t: map<Node, int>) { forall nd :: nd in s ==> nd in t && t[nd] == s[nd] }

  /** Pages in use outside the tables keep their content. */
  ghost predicate Keeps(role: map<int, Role>, s: map<int, seq<int>>, t: map<int, seq<int>>) {
    forall p :: p in role && p in s && (role[p].User? || role[p] == Held) ==> p in t && t[p] == s[p]
  }

  ghost predicate SpanAdded(s: map<Va, int>, t: map<Va, int>, r: int, v0: int, k: int) {
    (forall x :: x in t <==> x in s || InSpan(x, r, v0, k)) && (forall x :: x in s ==> t[x] == s[x])
  }

  ghost predicate SpanPtes(view: map<Va, int>, role: map<int, Role>, r: int, v0: int, k: int, p0: int, perm: int) {
    forall v :: v0 <= v < v0 + k ==> Va(r, v) in view && PteFor(view[Va(r, v)], role, r, v, p0 + v - v0, perm)
  }

  predicate PteFor(e: int, role: map<int, Role>, r: int, v: int, p: int, perm: int) {
    e == MkPte(p, OrV(perm)) && (v < TRAPFRAME_VPN ==> p in role && role[p] == User(r, v))
  }

  ghost predicate MapRoles(s: map<int, Role>, t: map<int, Role>, r: int, v0: int, k: int, p0: int) {
    forall p :: p in s ==>
      && p in t
      && (|| t[p] == s[p]
          || (s[p] == Free && t[p].Tab? && t[p].nd.r == r)
          || (s[p] == Held && p0 <= p < p0 + k && t[p] == User(r, v0 + p - p0)))
  }

  /** t is s with virtual pages [v0, v0 + k) of r mapped to the physical pages from p0 on. */
  ghost predicate Mapped(s: State, t: State, r: int, v0: int, k: int, p0: int, perm: int) {
    && SpanAdded(s.view, t.view, r, v0, k) && SpanPtes(t.view, t.role, r, v0, k, p0, perm)
    && TabGrows(s.tab, t.tab) && MapRoles(s.role, t.role, r, v0, k, p0) && Keeps(s.role, s.mem, t.mem)
  }

  lemma MappedNone(s: State, r: int, v0: int, p0: int, perm: int)
    ensures Mapped(s, s, r, v0, 0, p0, perm)
  {
  }

  lemma MappedExtends(s: State, t: State, u: State, r: int, v0: int, k: int, p0: int, perm: int)
    requires Mapped(s, t, r, v0, k, p0, perm) && Extends(t, u, r)
    ensures Mapped(s, u, r, v0, k, p0, perm)
  {
  }

  /** A page that can be mapped for a user: held, and with a page of bytes. */
  predicate Backed(s: State, p: int) { p in s.role && s.role[p] == Held && p in s.mem && |s.mem[p]| == PGSIZE }

  lemma MapInv(lo: int, t: State, r: int, v: int, p: int, perm: int)
    requires Inv(lo, t) && p >= 0 && 0 <= v < NVPN && Low(r, v / 512) in t.tab && Va(r, v) !in t.view
    requires 0 <= perm < 1024 && IsLeaf(perm) && (v < TRAPFRAME_VPN ==> Backed(t, p))
    ensures t.tab[Low(r, v / 512)] in t.mem && v % 512 < |t.mem[t.tab[Low(r, v / 512)]]|
    ensures t.tab[Low(r, v / 512)] in t.role && t.role[t.tab[Low(r, v / 512)]].Tab?
    ensures Inv(lo, SetLeaf(t, r, v, MkPte(p, OrV(perm)))) && Ppn(MkPte(p, OrV(perm))) == p
  {
    hide FreeOk, TabOk, ViewOk, EntryOk, MemOk, IsV, IsLeaf, MkPte, Ppn;
    OrVBits(perm);
    PteBits(p, OrV(perm));
    SetLeafInv(lo, t, r, v, MkPte(p, OrV(perm)));
    TabRole(t.role, t.tab, Low(r, v / 512));
  }

  lemma MapOne(s: State, t: State, r: int, v0: int, k: int, p0: int, perm: int)
    requires Mapped(s, t, r, v0, k, p0, perm) && k >= 0 && v0 >= 0
    requires var nd := Low(r, (v0 + k) / 512);
             && nd in t.tab && t.tab[nd] in t.mem && (v0 + k) % 512 < |t.mem[t.tab[nd]]|
             && t.tab[nd] in t.role && t.role[t.tab[nd]].Tab?
    requires Va(r, v0 + k) !in s.view && Ppn(MkPte(p0 + k, OrV(perm))) == p0 + k
    requires v0 + k < TRAPFRAME_VPN ==> Backed(s, p0 + k)
    ensures Mapped(s, SetLeaf(t, r, v0 + k, MkPte(p0 + k, OrV(perm))), r, v0, k + 1, p0, perm)
  {
    hide MkPte, Ppn, OrV;
    var u := SetLeaf(t, r, v0 + k, MkPte(p0 + k, OrV(perm)));
    assert SpanAdded(s.view, u.view, r, v0, k + 1);
    assert MapRoles(s.role, u.role, r, v0, k + 1, p0);
    forall v | v0 <= v < v0 + k + 1 ensures Va(r, v) in u.view
        && PteFor(u.view[Va(r, v)], u.role, r, v, p0 + v - v0, perm) {
      if v < v0 + k { assert Va(r, v) in t.view && PteFor(t.view[Va(r, v)], t.role, r, v, p0 + v - v0, perm); }
    }
  }

  /** t is s with virtual pages [v0, v0 + k) of r unmapped and, if `free`, their pages freed. */
  ghost predicate Unmapped(s: State, t: State, r: int, v0: int, k: int, free: bool) {
    && (forall x :: x in t.view <==> x in s.view && !InSpan(x, r, v0, k))
    && (forall x :: x in t.view ==> t.view[x] == s.view[x])
    && t.tab == s.tab
    && (forall p :: p in s.role ==>
          p in t.role && t.role[p] == (if s.role[p].User? && s.role[p].r == r && v0 <= s.role[p].v < v0 + k
                                       then (if free then Free else Held) else s.role[p]))
    && (forall p :: p in s.role && p in s.mem && p in t.role && (t.role[p].User? || t.role[p] == Held) ==>
        p in t.mem && t.mem[p] == s.mem[p])
  }

  lemma UnmappedNone(s: State, r: int, v0: int, free: bool)
    ensures Unmapped(s, s, r, v0, 0, free)
  {
  }

  /** The state after one round of uvmunmap. */
  function UnmapPage(s: State, r: int, v: int, free: bool): State
    requires Va(r, v) in s.view && Low(r, v / 512) in s.tab
    requires free ==> Ppn(s.view[Va(r, v)]) != s.tab[Low(r, v / 512)]
    requires s.tab[Low(r, v / 512)] in s.mem && v % 512 < |s.mem[s.tab[Low(r, v / 512)]]|
  {
    var t := DropLeaf(s, r, v);
    ClearLeaf(if free then Put(t, Ppn(s.view[Va(r, v)]), Junk(1)) else t, r, v)
  }

  lemma UnmapInv(lo: int, t: State, r: int, v: int, free: bool)
    requires Inv(lo, t) && Va(r, v) in t.view && (free ==> v < TRAPFRAME_VPN)
    ensures 0 <= v && Low(r, v / 512) in t.tab && t.tab[Low(r, v / 512)] in t.mem
        && v % 512 < |t.mem[t.tab[Low(r, v / 512)]]|
    ensures t.tab[Low(r, v / 512)] in t.role && t.role[t.tab[Low(r, v / 512)]] == Tab(Low(r, v / 512))
    ensures v < TRAPFRAME_VPN ==> Ppn(t.view[Va(r, v)]) in t.role && t.role[Ppn(t.view[Va(r, v)])] == User(r, v)
    ensures free ==> Ppn(t.view[Va(r, v)]) != t.tab[Low(r, v / 512)]
    ensures Inv(lo, UnmapPage(t, r, v, free))
  {
    hide FreeOk, TabOk, EntryOk, ViewOk, MemOk, Ppn;
    var p := Ppn(t.view[Va(r, v)]);
    DropLeafInv(lo, t, r, v);
    TabRole(t.role, t.tab, Low(r, v / 512));
    TablePage(lo, t, Low(r, v / 512));
    var a := DropLeaf(t, r, v);
    if free { PutInv(lo, a, p, Junk(1), AtLeaf(Va(r, v))); }
    var b := if free then Put(a, p, Junk(1)) else a;
    ClearLeafInv(lo, b, r, v);
  }

  lemma OwnerPage(lo: int, t: State, r: int, v: int)
    requires Inv(lo, t) && Va(r, v) in t.view
    ensures forall p :: p in t.role && t.role[p] == User(r, v) ==> v < TRAPFRAME_VPN && p == Ppn(t.view[Va(r, v)])
  {
    hide FreeOk, TabOk, EntryOk, MemOk, Ppn;
  }

  lemma UnmapOne(s: State, t: State, r: int, v0: int, k: int, free: bool)
    requires Unmapped(s, t, r, v0, k, free) && k >= 0 && Va(r, v0 + k) in t.view && (free ==> v0 + k < TRAPFRAME_VPN)
    requires var v := v0 + k;
             && Low(r, v / 512) in t.tab && t.tab[Low(r, v / 512)] in t.mem && v % 512 < |t.mem[t.tab[Low(r, v / 512)]]|
             && t.tab[Low(r, v / 512)] in t.role && t.role[t.tab[Low(r, v / 512)]].Tab?
             && (v < TRAPFRAME_VPN ==> Ppn(t.view[Va(r, v)]) in t.role && t.role[Ppn(t.view[Va(r, v)])] == User(r, v))
             && (free ==> Ppn(t.view[Va(r, v)]) != t.tab[Low(r, v / 512)])
             && (forall p :: p in t.role && t.role[p] == User(r, v) ==> v < TRAPFRAME_VPN && p == Ppn(t.view[Va(r, v)]))
    requires forall p :: p in t.role ==> p in s.role
    ensures Unmapped(s, UnmapPage(t, r, v0 + k, free), r, v0, k + 1, free)
  {
    hide Ppn;
  }

  // ----- growing a process -----

  /** A process of size sz: exactly its pages are mapped below TRAPFRAME. */
  ghost predicate SizeOk(s: State, r: int, sz: int) {
    Root(r) in s.tab && sz >= 0 && forall v :: 0 <= v < TRAPFRAME_VPN ==> (Va(r, v) in s.view <==> v < Pages(sz))
  }

  /** Virtual pages [v0, v0 + n) of r are all mapped. */
  ghost predicate AllMapped(view: map<Va, int>, r: int, v0: int, n: int) {
    forall v :: v0 <= v < v0 + n ==> Va(r, v) in view
  }

  /** t is s with k pages of r added from v0 on, mapped to pages that were free. */
  ghost predicate Grown(s: State, t: State, r: int, v0: int, k: int) {
    && SpanAdded(s.view, t.view, r, v0, k) && TabGrows(s.tab, t.tab) && Keeps(s.role, s.mem, t.mem)
    && (forall p :: p in s.role ==>
          && p in t.role
          && (|| t.role[p] == s.role[p]
              || (s.role[p] == Free && t.role[p].Tab? && t.role[p].nd.r == r)
              || (s.role[p] == Free && t.role[p].User? && t.role[p].r == r && v0 <= t.role[p].v < v0 + k)))
  }

  /** Virtual page v of r has these flags and this content. */
  ghost predicate Holds(s: State, r: int, v: int, flags: int, w: seq<int>) {
    Va(r, v) in s.view && Flags(s.view[Va(r, v)]) == flags && Ppn(s.view[Va(r, v)]) in s.mem
        && s.mem[Ppn(s.view[Va(r, v)])] == w
  }

  ghost predicate AllHold(s: State, r: int, v0: int, v1: int, flags: int, w: seq<int>) {
    forall v :: v0 <= v < v1 ==> Holds(s, r, v, flags, w)
  }

  lemma GrownNone(s: State, r: int, v0: int)
    ensures Grown(s, s, r, v0, 0)
  {
  }

  /** A page from kalloc, given content w and mapped, is one more page. */
  lemma GrowOne(s: State, t: State, u: State, r: int, v0: int, k: int, w: seq<int>, perm: int)
    requires Grown(s, t, r, v0, k) && k >= 0 && |t.fl| > 0 && t.head in t.mem && |t.mem[t.head]| > 0
    requires t.head in s.role && t.head in t.role && t.role[t.head] == Free && (forall p :: p in t.role ==> p in s.role)
    requires Mapped(Take(t, w), u, r, v0 + k, 1, t.head, perm) && 0 <= perm < 1024 && t.head >= 0
        && v0 + k < TRAPFRAME_VPN
    ensures Grown(s, u, r, v0, k + 1) && Holds(u, r, v0 + k, OrV(perm), w)
  {
    hide MkPte, Ppn, Flags, IsLeaf, IsV, IsU, IsW;
    OrVBits(perm);
    PteBits(t.head, OrV(perm));
    assert u.view[Va(r, v0 + k)] == MkPte(t.head, OrV(perm));
    assert InSpan(Va(r, v0 + k), r, v0 + k, 1);
  }

  /** ... and leaves the pages mapped before as they are. */
  lemma GrowKeeps(lo: int, t: State, u: State, r: int, v: int, v': int, w: seq<int>, perm: int, f: int, w': seq<int>)
    requires Inv(lo, t) && |t.fl| > 0 && t.head in t.mem && |t.mem[t.head]| > 0 && t.head in t.role
        && t.role[t.head] == Free
    requires Mapped(Take(t, w), u, r, v, 1, t.head, perm) && Holds(t, r, v', f, w') && v' < TRAPFRAME_VPN
    ensures Holds(u, r, v', f, w')
  {
    hide MkPte, Ppn, Flags, IsLeaf, IsV, FreeOk, TabOk, EntryOk, MemOk;
  }

  /** kalloc succeeded but mappages did not: the page goes back. */
  lemma GrowUndone(s: State, t: State, u: State, r: int, v0: int, k: int, w: seq<int>, perm: int)
    requires Grown(s, t, r, v0, k) && |t.fl| > 0 && t.head in t.mem && |t.mem[t.head]| > 0
    requires t.head in s.role && t.head in t.role && t.role[t.head] == Free && s.role[t.head] == Free
    requires Mapped(Take(t, w), u, r, v0 + k, 0, t.head, perm)
    ensures t.head in u.role && u.role[t.head] == Held
    ensures Grown(s, Put(u, t.head, Junk(1)), r, v0, k)
  {
  }

  /** A failed uvmalloc unmaps what it had added. */
  lemma GrownBack(s: State, t: State, u: State, r: int, v0: int, k: int)
    requires Grown(s, t, r, v0, k) && Unmapped(t, u, r, v0, k, true) && k >= 0
    requires forall v :: v0 <= v < v0 + k ==> Va(r, v) !in s.view
    requires forall p :: p in s.role && s.role[p].User? ==> Va(s.role[p].r, s.role[p].v) in s.view
    ensures Grown(s, u, r, v0, 0)
  {
    forall p | p in s.role && s.role[p].User? ensures u.role[p] == s.role[p] {
      assert !InSpan(Va(s.role[p].r, s.role[p].v), r, v0, k);
    }
  }

  /** SizeOk and the pigeonhole: the next page is far below TRAPFRAME. */
  lemma RoomToGrow(lo: int, s: State, t: State, r: int, sz: int, k: int)
    requires Inv(lo, t) && SizeOk(s, r, sz) && Grown(s, t, r, Pages(sz), k) && k >= 0
        && (k > 0 ==> Pages(sz) + k <= TRAPFRAME_VPN)
    ensures sz >= 0 && Pages(sz) + k <= PHYSTOP_PPN - lo <= 0x8000
    ensures Va(r, Pages(sz) + k) !in t.view && Root(r) in t.tab
    ensures forall v :: 0 <= v < Pages(sz) + k ==> Va(r, v) in t.view
  {
    hide FreeOk, TabOk, EntryOk, ViewOk;
    var n := if Pages(sz) + k <= TRAPFRAME_VPN then Pages(sz) + k else TRAPFRAME_VPN;
    assert forall v :: 0 <= v < n ==> Va(r, v) in t.view;
    Pigeonhole(lo, t, r, n);
  }

  class Vm {
    const lo: int
    var mem: map<int, seq<int>>
    var freelist: int
    ghost var role: map<int, Role>
    ghost var fl: seq<int>
    ghost var tab: map<Node, int>
    ghost var view: map<Va, int>

    ghost function St(): State
      reads this
    {
      State(mem, freelist, role, fl, tab, view)
    }

    ghost predicate Valid()
      reads this
    {
      Inv(lo, St())
    }

    /** Boot: every page from the end of the kernel to PHYSTOP is in use, and no page table exists. */
    constructor (first: int)
      requires KERNBASE_PPN <= first <= PHYSTOP_PPN
      ensures Valid() && lo == first && fl == [] && tab == map[] && view == map[] && forall p :: p in role ==>
          role[p] == Held
    {
      lo := first;
      mem := map p | first <= p < PHYSTOP_PPN && InRange(first, p) :: Junk(0);
      freelist := 0;
      role := map p | first <= p < PHYSTOP_PPN && InRange(first, p) :: Held;
      fl, tab, view := [], map[], map[];
    }

    /** Pops the free list; 0 when it is empty. */
    method Kalloc() returns (p: int)
      requires Valid()
      modifies this
      ensures Valid() && (p == 0 <==> old(fl) == [])
      ensures p == 0 ==> St() == old(St())
      ensures p != 0 ==> p == old(freelist) && p in old(mem) && |old(mem)[p]| > 0 && St() == Take(old(St()), Junk(5))
    {
      hide TabOk, ViewOk, EntryOk;
      p := freelist;
      if p != 0 {
        TakeInv(lo, St(), Junk(5), NoHole);
        freelist := mem[p][0];
        role, fl := role[p := Held], fl[..|fl| - 1];
        mem := mem[p := Junk(5)];
        assert St() == Take(old(St()), Junk(5));
      }
    }

    /** Pushes a page that is in use but in no page table any more. */
    method Kfree(p: int, ghost hole: Hole)
      requires InvExcept(lo, St(), hole) && p in role && role[p] == Held
      modifies this
      ensures InvExcept(lo, St(), hole) && St() == Put(old(St()), p, Junk(1))
    {
      hide FreeOk, TabOk, ViewOk, EntryOk;
      PutInv(lo, St(), p, Junk(1), hole);
      mem := mem[p := Junk(1)];
      mem := mem[p := mem[p][0 := freelist]];
      freelist := p;
      role, fl := role[p := Free], fl + [p];
      assert St() == Put(old(St()), p, Junk(1));
    }

    /** A zeroed page becomes table nd, linked from entry idx of its parent's page; 0 if there is no page. */
    method NewTable(page: int, idx: int, ghost nd: Node) returns (p: int)
      requires Valid() && nd !in tab && !nd.Root? && NodeOk(tab, nd)
      requires ParentOf(nd).0 in tab && page == tab[ParentOf(nd).0] && idx == ParentOf(nd).1 && page in mem
          && 0 <= idx < |mem[page]|
      modifies this
      ensures Valid() && Extends(old(St()), St(), nd.r)
      ensures p == 0 ==> St() == old(St()) && fl == []
      ensures p != 0 ==> nd in tab && tab[nd] == p && |fl| == |old(fl)| - 1
    {
      hide FreeOk, TabOk, ViewOk, EntryOk;
      ghost var s := St();
      p := Kalloc();
      if p != 0 {
        ExtendOne(lo, s, nd);
        mem := mem[p := Zeros(512)];
        assert St() == Take(s, Zeros(512));
        mem := SetEntry(mem, page, idx, MkPte(p, 1));
        role, tab := role[p := Tab(nd)], tab[nd := p];
        assert St() == AddTable(Take(s, Zeros(512)), p, nd);
      }
    }

    /** The table that holds the entry of va and the entry's index; creates the tables on the way if alloc. */
    method Walk(r: int, va: int, alloc: bool) returns (found: bool, page: int, idx: int)
      requires Valid() && Root(r) in tab && 0 <= va < MAXVA
      modifies this
      ensures Valid() && Extends(old(St()), St(), r)
      ensures !alloc ==> St() == old(St()) && (found <==> Low(r, va / PGSIZE / 512) in tab)
      ensures found ==>
          Low(r, va / PGSIZE / 512) in tab && page == tab[Low(r, va / PGSIZE / 512)] && idx == va / PGSIZE % 512
      ensures found ==> page in mem && 0 <= idx < |mem[page]| && mem[page][idx] == Leaf(view, Va(r, va / PGSIZE))
      ensures alloc && !found ==> fl == [] && |old(fl)| <= 1
      ensures |old(fl)| - 2 <= |fl| <= |old(fl)|
    {
      hide InvExcept, Extends, Px, Ppn, IsV, ParentOf, NodeOk, Leaf;
      ghost var v := va / PGSIZE;
      page, idx := r, 0;
      var level := 2;
      RootPage(lo, St(), r);
      ExtendsSelf(St(), r);
      while level > 0
        invariant Valid() && Extends(old(St()), St(), r) && (!alloc ==> St() == old(St()))
        invariant |old(fl)| - (2 - level) <= |fl| <= |old(fl)|
        invariant 0 <= level <= 2 && PathNode(level, r, v) in tab && page == tab[PathNode(level, r, v)]
      {
        var i := Px(level, va / PGSIZE);
        ghost var nd, s := PathNode(level - 1, r, v), St();
        Step(lo, s, level, r, v);
        var e := mem[page][i];
        if IsV(e) {
          page := Ppn(e);
        } else {
          if !alloc { return false, 0, 0; }
          page := NewTable(page, i, nd);
          ExtendsTrans(old(St()), s, St(), r);
          if page == 0 { return false, 0, 0; }
        }
        level := level - 1;
      }
      LastStep(lo, St(), r, v);
      return true, page, Px(0, va / PGSIZE);
    }

    /** Maps size bytes at va to the pages from pa on; k pages are mapped when it fails for want of a table. */
    method Mappages(r: int, va: int, size: int, pa: int, perm: int) returns (ok: bool, ghost k: int)
      requires Valid() && Root(r) in tab
      requires va % PGSIZE == 0 && size % PGSIZE == 0 && size > 0 && 0 <= va && va + size <= MAXVA && pa >= 0
      requires 0 <= perm < 1024 && IsLeaf(perm)
      requires forall v :: va / PGSIZE <= v < va / PGSIZE + size / PGSIZE ==> Va(r, v) !in view
      requires forall p ::
        pa / PGSIZE <= p < pa / PGSIZE + size / PGSIZE && va / PGSIZE + p - pa / PGSIZE < TRAPFRAME_VPN ==>
          Backed(St(), p)
      modifies this
      ensures Valid() && Mapped(old(St()), St(), r, va / PGSIZE, k, pa / PGSIZE, perm)
      ensures ok ==> k == size / PGSIZE
      ensures !ok ==> 0 <= k < size / PGSIZE && fl == [] && |old(fl)| <= 2 * k + 1
      ensures |old(fl)| - 2 * (size / PGSIZE) <= |fl| <= |old(fl)|
    {
      hide InvExcept, Mapped, Extends, IsLeaf, MkPte;
      ghost var v0, p0 := va / PGSIZE, pa / PGSIZE;
      var a, last := va, va + size - PGSIZE;
      var pb := pa;
      k := 0;
      MappedNone(St(), r, v0, p0, perm);
      while true
        invariant 0 <= k < size / PGSIZE && a == va + k * PGSIZE && pb / PGSIZE == p0 + k
        invariant Valid() && Root(r) in tab && Mapped(old(St()), St(), r, v0, k, p0, perm)
        invariant |old(fl)| - 2 * k <= |fl| <= |old(fl)|
        decreases size / PGSIZE - k
      {
        ghost var s := St();
        var found, page, idx := Walk(r, a, true);
        MappedExtends(old(St()), s, St(), r, v0, k, p0, perm);
        if !found { return false, k; }
        StillRoot(old(St()), St(), r, v0, k, p0, perm);
        if IsV(mem[page][idx]) {
          assert false;  // panic("mappages: remap")
        }
        assert v0 + k < TRAPFRAME_VPN ==> Backed(old(St()), p0 + k);
        MapInv(lo, St(), r, v0 + k, p0 + k, perm);
        MapOne(old(St()), St(), r, v0, k, p0, perm);
        ghost var u := SetLeaf(St(), r, v0 + k, MkPte(p0 + k, OrV(perm)));
        mem := SetEntry(mem, page, idx, MkPte(pb / PGSIZE, OrV(perm)));
        role, view := u.role, u.view;
        assert St() == u;
        k := k + 1;
        if a == last { break; }
        a := a + PGSIZE;
        pb := pb + PGSIZE;
      }
      ok := true;
    }

    /** Removes npages mappings from va on, freeing the pages if do_free; panics exactly if one is not there. */
    method Uvmunmap(r: int, va: int, npages: int, do_free: bool) returns (panic: bool)
      requires Valid() && Root(r) in tab && 0 <= va && 0 <= npages && va + npages * PGSIZE < U64
      requires do_free ==> va / PGSIZE + npages <= TRAPFRAME_VPN
      modifies this
      ensures panic <==> va % PGSIZE != 0 || !AllMapped(old(view), r, va / PGSIZE, npages)
      ensures !panic ==> Valid() && Unmapped(old(St()), St(), r, va / PGSIZE, npages, do_free)
    {
      hide InvExcept, Unmapped, Extends, IsLeaf, MkPte, Ppn, UnmapPage, IsV, Flags;
      if va % PGSIZE != 0 {
        return true;  // panic("uvmunmap: not aligned")
      }
      ghost var v0, k := va / PGSIZE, 0;
      UnmappedNone(St(), r, v0, do_free);
      var a := va;
      while a < va + npages * PGSIZE
        invariant 0 <= k <= npages && a == va + k * PGSIZE && AllMapped(old(view), r, v0, k)
        invariant Valid() && Root(r) in tab && Unmapped(old(St()), St(), r, v0, k, do_free)
      {
        ghost var s := St();
        StillThere(old(St()), s, r, v0, k, do_free);
        if a >= MAXVA {
          NotMapped(lo, s, r, v0 + k);
          return true;  // panic("walk")
        }
        var found, page, idx := Walk(r, a, false);
        ghost var there := Va(r, v0 + k) in view;
        if there { LeafBits(lo, s, r, v0 + k); } else { NoBits(); }
        if !found || !IsV(mem[page][idx]) || Flags(mem[page][idx]) == 1 {
          return true;  // panic("uvmunmap: walk"), ("uvmunmap: not mapped"), ("uvmunmap: not a leaf")
        }
        UnmapInv(lo, s, r, v0 + k, do_free);
        OwnerPage(lo, s, r, v0 + k);
        SameRoles(lo, old(St()), s);
        UnmapOne(old(St()), s, r, v0, k, do_free);
        UnmapPageIs(s, r, v0 + k, do_free);
        ghost var u := DropLeaf(s, r, v0 + k);
        DropLeafInv(lo, s, r, v0 + k);
        var pa := Ppn(mem[page][idx]);
        role, view := u.role, u.view;
        if do_free { Kfree(pa, AtLeaf(Va(r, v0 + k))); }
        mem := SetEntry(mem, page, idx, 0);
        assert St() == UnmapPage(s, r, v0 + k, do_free);
        k := k + 1;
        a := a + PGSIZE;
      }
      panic := false;
    }

    /** Brings the size down from oldsz to newsz, freeing the pages in between; panics exactly if one is not there. */
    method Uvmdealloc(r: int, oldsz: int, newsz: int) returns (panic: bool, sz: int)
      requires Valid() && Root(r) in tab && 0 <= oldsz && 0 <= newsz < U64
      requires newsz < oldsz ==> Pages(oldsz) <= TRAPFRAME_VPN
      modifies this
      ensures panic <==> newsz < oldsz && !AllMapped(old(view), r, Pages(newsz), Pages(oldsz) - Pages(newsz))
      ensures !panic ==> Valid() && sz == (if newsz >= oldsz then oldsz else newsz)
      ensures newsz >= oldsz ==> St() == old(St())
      ensures !panic && newsz < oldsz ==>
          Unmapped(old(St()), St(), r, Pages(newsz), Pages(oldsz) - Pages(newsz), true)
    {
      hide InvExcept, Unmapped;
      if newsz >= oldsz { return false, oldsz; }
      if PgRoundUp(newsz) < PgRoundUp(oldsz) {
        var npages := (PgRoundUp(oldsz) - PgRoundUp(newsz)) / PGSIZE;
        assert npages == Pages(oldsz) - Pages(newsz) && PgRoundUp(newsz) / PGSIZE == Pages(newsz)
            && npages < 0x8000_0000;
        panic := Uvmunmap(r, PgRoundUp(newsz), npages, true);
      } else {
        assert Pages(oldsz) == Pages(newsz);
        UnmappedNone(St(), r, Pages(newsz), true);
        panic := false;
      }
      sz := newsz;
    }

    /** Undoes k pages of a uvmalloc that cannot go on. */
    method Undo(r: int, sz: int, a: int, ghost s: State, ghost k: int)
      requires Valid() && Inv(lo, s) && SizeOk(s, r, sz) && Grown(s, St(), r, Pages(sz), k)
      requires k >= 0 && a == (Pages(sz) + k) * PGSIZE && (k > 0 ==> Pages(sz) + k <= TRAPFRAME_VPN)
      modifies this
      ensures Valid() && Grown(s, St(), r, Pages(sz), 0) && SizeOk(St(), r, sz)
    {
      hide InvExcept, Grown, Unmapped, SizeOk;
      RoomToGrow(lo, s, St(), r, sz, k);
      ghost var t := St();
      assert Pages(PgRoundUp(sz)) == Pages(sz) && Pages(a) == Pages(sz) + k;
      var panic, _ := Uvmdealloc(r, a, PgRoundUp(sz));
      if k > 0 {
        UndoFacts(lo, s, r, sz, k);
        GrownBack(s, t, St(), r, Pages(sz), k);
      }
      GrownSize(s, St(), r, sz, sz);
    }

    /** Grows from oldsz to newsz with zeroed pages; on failure puts everything back and returns 0. */
    method Uvmalloc(r: int, oldsz: int, newsz: int, xperm: int) returns (sz: int)
      requires Valid() && SizeOk(St(), r, oldsz) && 0 <= newsz < U64 && xperm in {0, 4, 8, 12}
      modifies this
      ensures Valid()
      ensures newsz < oldsz ==> sz == oldsz && St() == old(St())
      ensures newsz >= oldsz ==>
                || (sz == newsz && Grown(old(St()), St(), r, Pages(oldsz), Pages(newsz) - Pages(oldsz))
                    && SizeOk(St(), r, newsz)
                    && AllHold(St(), r, Pages(oldsz), Pages(newsz), 19 + xperm, Zeros(PGSIZE)))
                || (sz == 0 && Grown(old(St()), St(), r, Pages(oldsz), 0) && SizeOk(St(), r, oldsz)
                    && |old(fl)| < 3 * (Pages(newsz) - Pages(oldsz)))
    {
      hide InvExcept, Grown, Mapped, SizeOk, AllHold, Put, Backed;
      if newsz < oldsz { return oldsz; }
      ghost var s, v0, k, w := St(), Pages(oldsz), 0, Zeros(PGSIZE);
      GrownNone(s, r, v0);
      RoomToGrow(lo, s, s, r, oldsz, 0);
      AllHoldNone(s, r, v0, 19 + xperm, w);
      var a := PgRoundUp(oldsz);
      while a < newsz
        invariant Valid() && 0 <= k <= Pages(newsz) - v0 && a == (v0 + k) * PGSIZE && v0 + k <= TRAPFRAME_VPN
        invariant Grown(s, St(), r, v0, k) && AllHold(St(), r, v0, v0 + k, 19 + xperm, w)
        invariant |s.fl| - 3 * k <= |fl|
      {
        ghost var t := St();
        RoomToGrow(lo, s, t, r, oldsz, k);
        var p := Kalloc();
        if p == 0 {
          Undo(r, oldsz, a, s, k);
          return 0;
        }
        mem := mem[p := Zeros(PGSIZE)];
        TookPage(lo, s, t, r, v0, k, w);
        assert St() == Take(t, w);
        UserPerm(xperm);
        var ok, n := Mappages(r, a, PGSIZE, p * PGSIZE, 18 + xperm);
        if !ok {
          GrowUndone(s, t, St(), r, v0, k, w, 18 + xperm);
          Kfree(p, NoHole);
          Undo(r, oldsz, a, s, k);
          return 0;
        }
        GrowOne(s, t, St(), r, v0, k, w, 18 + xperm);
        GrowHolds(lo, t, St(), r, v0, k, w, 18 + xperm);
        k := k + 1;
        a := a + PGSIZE;
      }
      GrownSize(s, St(), r, oldsz, newsz);
      return newsz;
    }
  }

  lemma UserPerm(xperm: int)
    requires xperm in {0, 4, 8, 12}
    ensures IsLeaf(18 + xperm) && OrV(18 + xperm) == 19 + xperm
  {
  }

  lemma AllHoldNone(s: State, r: int, v0: int, flags: int, w: seq<int>)
    ensures AllHold(s, r, v0, v0, flags, w)
  {
  }

  lemma GrowHolds(lo: int, t: State, u: State, r: int, v0: int, k: int, w: seq<int>, perm: int)
    requires Inv(lo, t) && |t.fl| > 0 && t.head in t.mem && |t.mem[t.head]| > 0 && t.head in t.role
        && t.role[t.head] == Free
    requires Mapped(Take(t, w), u, r, v0 + k, 1, t.head, perm) && k >= 0 && v0 + k < TRAPFRAME_VPN
    requires AllHold(t, r, v0, v0 + k, OrV(perm), w) && Holds(u, r, v0 + k, OrV(perm), w)
    ensures AllHold(u, r, v0, v0 + k + 1, OrV(perm), w)
  {
    hide InvExcept, Mapped, Holds, OrV;
    var f := OrV(perm);
    forall v | v0 <= v < v0 + k ensures Holds(u, r, v, f, w) {
      GrowKeeps(lo, t, u, r, v0 + k, v, w, perm, f, w);
    }
  }

  /** The page kalloc returned: free before, and now a page to map. */
  lemma TookPage(lo: int, s: State, t: State, r: int, v0: int, k: int, w: seq<int>)
    requires |w| == PGSIZE && Inv(lo, s) && Inv(lo, t) && |t.fl| > 0 && Grown(s, t, r, v0, k)
    ensures t.head in t.mem && |t.mem[t.head]| > 0 && t.head in t.role && t.role[t.head] == Free && t.head > 0
    ensures t.head in s.role && s.role[t.head] == Free && forall p :: p in t.role ==> p in s.role
    ensures Inv(lo, Take(t, w)) && Backed(Take(t, w), t.head)
    ensures Take(t, w).view == t.view && Take(t, w).tab == t.tab && |Take(t, w).fl| == |t.fl| - 1
  {
    hide FreeOk, TabOk, ViewOk, EntryOk;
    TakeInv(lo, t, w, NoHole);
  }

  lemma UndoFacts(lo: int, s: State, r: int, sz: int, k: int)
    requires Inv(lo, s) && SizeOk(s, r, sz) && Pages(sz) + k <= TRAPFRAME_VPN
    ensures forall v :: Pages(sz) <= v < Pages(sz) + k ==> Va(r, v) !in s.view
    ensures forall p :: p in s.role && s.role[p].User? ==> Va(s.role[p].r, s.role[p].v) in s.view
  {
    hide FreeOk, TabOk, EntryOk, MemOk;
  }

  lemma GrownSize(s: State, t: State, r: int, sz: int, newsz: int)
    requires SizeOk(s, r, sz) && 0 <= newsz && Pages(newsz) >= Pages(sz)
        && Grown(s, t, r, Pages(sz), Pages(newsz) - Pages(sz))
    ensures SizeOk(t, r, newsz)
  {
  }

  lemma UnmapPageIs(s: State, r: int, v: int, free: bool)
    requires Va(r, v) in s.view && Low(r, v / 512) in s.tab
    requires free ==> Ppn(s.view[Va(r, v)]) != s.tab[Low(r, v / 512)]
    requires s.tab[Low(r, v / 512)] in s.mem && v % 512 < |s.mem[s.tab[Low(r, v / 512)]]|
    ensures UnmapPage(s, r, v, free) ==
            (var t := DropLeaf(s, r, v);
             var b := if free then Put(t, Ppn(s.view[Va(r, v)]), Junk(1)) else t;
             b.(mem := SetEntry(b.mem, s.tab[Low(r, v / 512)], v % 512, 0)))
  {
  }

  lemma JustV(e: int)
    requires Flags(e) == 1
    ensures !IsLeaf(e)
  {
    var q := e / 1024;
    assert e / 2 == q * 512 && (q * 512) / 8 == q * 64;
  }

  /** A mapped entry passes uvmunmap's checks. */
  lemma LeafBits(lo: int, s: State, r: int, v: int)
    requires Inv(lo, s) && Va(r, v) in s.view
    ensures IsV(s.view[Va(r, v)]) && Flags(s.view[Va(r, v)]) != 1 && 0 <= v < NVPN && Low(r, v / 512) in s.tab
  {
    hide FreeOk, TabOk, EntryOk, MemOk;
    if Flags(s.view[Va(r, v)]) == 1 { JustV(s.view[Va(r, v)]); }
  }

  lemma StillRoot(s: State, t: State, r: int, v0: int, k: int, p0: int, perm: int)
    requires Mapped(s, t, r, v0, k, p0, perm)
    ensures Root(r) in s.tab ==> Root(r) in t.tab
    ensures forall x :: x in t.view <==> x in s.view || InSpan(x, r, v0, k)
    ensures Backed(s, p0 + k) ==> Backed(t, p0 + k)
  {
  }

  lemma StillThere(s: State, t: State, r: int, v0: int, k: int, free: bool)
    requires Unmapped(s, t, r, v0, k, free)
    ensures Va(r, v0 + k) in t.view <==> Va(r, v0 + k) in s.view
  {
  }

  /** Nothing is mapped from MAXVA up. */
  lemma NotMapped(lo: int, s: State, r: int, v: int)
    requires Inv(lo, s) && v >= NVPN
    ensures Va(r, v) !in s.view
  {
    hide FreeOk, TabOk, EntryOk, MemOk;
  }

  lemma NoBits()
    ensures !IsV(0)
  {
  }

  lemma SameRoles(lo: int, s: State, t: State)
    requires Inv(lo, s) && Inv(lo, t)
    ensures forall p :: p in t.role <==> p in s.role
  {
    hide FreeOk, TabOk, EntryOk, ViewOk;
  }

  lemma ExtendsSelf(s: State, r: int)
    ensures Extends(s, s, r)
  {
  }

  lemma LastStep(lo: int, s: State, r: int, v: int)
    requires Inv(lo, s) && 0 <= v < NVPN && Low(r, v / 512) in s.tab
    ensures var page := s.tab[Low(r, v / 512)];
            && Px(0, v) == v % 512 && page in s.mem && |s.mem[page]| == 512
                && s.mem[page][v % 512] == Leaf(s.view, Va(r, v))
  {
    hide FreeOk, EntryOk, ViewOk, MkPte, Ppn, IsV, IsLeaf;
    TablePage(lo, s, Low(r, v / 512));
    LeafWord(s, r, v);
  }

  lemma RootPage(lo: int, s: State, r: int)
    requires Inv(lo, s) && Root(r) in s.tab
    ensures s.tab[Root(r)] == r
  {
  }

  /**
    The entry for virtual page v in its table at `level` is valid exactly if the next table exists, and points
    to it.
   */
  lemma Step(lo: int, s: State, level: int, r: int, v: int)
    requires Inv(lo, s) && 1 <= level <= 2 && 0 <= v < NVPN && PathNode(level, r, v) in s.tab
    ensures var nd, page := PathNode(level - 1, r, v), s.tab[PathNode(level, r, v)];
            && NodeOk(s.tab, nd) && !nd.Root? && nd.r == r && ParentOf(nd) == (PathNode(level, r, v), Px(level, v))
            && page in s.mem && 0 <= Px(level, v) < |s.mem[page]|
            && (IsV(s.mem[page][Px(level, v)]) <==> nd in s.tab)
            && (nd in s.tab ==> Ppn(s.mem[page][Px(level, v)]) == s.tab[nd])
            && (nd !in s.tab ==> Low(r, v / 512) !in s.tab)
  {
    hide FreeOk, EntryOk, ViewOk, MkPte, Ppn, IsV, IsLeaf;
    var nd := PathNode(level - 1, r, v);
    Indices(v);
    PointerBits(0);
    TablePage(lo, s, PathNode(level, r, v));
    PointerWord(s, nd);
    if nd in s.tab {
      TablePage(lo, s, nd);
      PointerBits(s.tab[nd]);
    }
  }
}

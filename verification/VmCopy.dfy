/**
  kernel/kalloc.c kinit, and the copies between kernel and user memory (kernel/vm.c walkaddr,
  copyout and copyin), specified by the bytes a process sees at its virtual addresses.
 */
module VmCopy {
  import opened VmModel
  import opened VmCode

  /** kinit: frees every page between the end of the kernel and PHYSTOP. */
  method Kinit(m: Vm, end: int)
    requires m.Valid() && m.lo == Pages(end) && end >= 0 && m.fl == []
        && (forall p :: p in m.role ==> m.role[p] == Held)
    modifies m
    ensures m.Valid() && (forall p :: InRange(m.lo, p) ==> m.role[p] == Free) && |m.fl| == PHYSTOP_PPN - m.lo
  {
    hide FreeOk, TabOk, ViewOk, EntryOk;
    var p := PgRoundUp(end);
    ghost var k := m.lo;
    while p + PGSIZE <= PHYSTOP_PPN * PGSIZE
      invariant m.Valid() && m.lo <= k <= PHYSTOP_PPN && p == k * PGSIZE && |m.fl| == k - m.lo
      invariant forall q :: q in m.role ==> m.role[q] == (if q < k then Free else Held)
    {
      if p % PGSIZE != 0 || p < end || p >= PHYSTOP_PPN * PGSIZE {
        assert false;  // panic("kfree")
      }
      m.Kfree(p / PGSIZE, NoHole);
      k := k + 1;
      p := p + PGSIZE;
    }
  }

  /** src written over w from off on. */
  function Splice(w: seq<int>, off: int, src: seq<int>): (r: seq<int>)
    requires 0 <= off && off + |src| <= |w|
    ensures |r| == |w| && forall j :: 0 <= j < |w| ==> r[j] == (if off <= j < off + |src| then src[j - off] else w[j])
  {
    seq(|w|, j requires 0 <= j < |w| => if off <= j < off + |src| then src[j - off] else w[j])
  }

  /** User code may read (or, if w, also write) virtual page v. */
  predicate Access(view: map<Va, int>, r: int, v: int, w: bool) {
    0 <= v < NVPN && Va(r, v) in view && IsU(view[Va(r, v)]) && (w ==> IsW(view[Va(r, v)]))
  }

  /**
    Pages that growproc has added (V, R, W and U set) are the user's to write; text pages (V, R, X and U) only
    to read.
   */
  lemma PermAccess(s: State, r: int, v: int, w: seq<int>)
    requires 0 <= v < NVPN
    ensures Holds(s, r, v, 23, w) ==> Access(s.view, r, v, true)
    ensures Holds(s, r, v, 27, w) ==> Access(s.view, r, v, false) && !Access(s.view, r, v, true)
    ensures Holds(s, r, v, 7, w) ==> !Access(s.view, r, v, false)
  {
    hide IsU, IsW, Flags;
    if Va(r, v) in s.view { FlagBits(s.view[Va(r, v)]); }
  }

  lemma FlagBits(pte: int)
    ensures IsU(pte) <==> (Flags(pte) / 16) % 2 == 1
    ensures IsW(pte) <==> (Flags(pte) / 4) % 2 == 1
  {
    Digits(pte / 1024, Flags(pte) / 16, Flags(pte) % 16);
    Digits4(pte / 1024, Flags(pte) / 4, Flags(pte) % 4);
  }

  lemma Digits(a: int, b: int, c: int)
    requires 0 <= c < 16
    ensures (1024 * a + 16 * b + c) / 16 % 2 == b % 2
  {
    assert (1024 * a + 16 * b + c) / 16 == 64 * a + b;
  }

  lemma Digits4(a: int, b: int, c: int)
    requires 0 <= c < 4
    ensures (1024 * a + 4 * b + c) / 4 % 2 == b % 2
  {
    assert (1024 * a + 4 * b + c) / 4 == 256 * a + b;
  }

  /** From TRAPFRAME up, nothing is open to the user. */
  ghost predicate HighClosed(view: map<Va, int>, r: int)
      { forall v :: v >= TRAPFRAME_VPN && Va(r, v) in view ==> !IsU(view[Va(r, v)]) }

  /** An accessible page is a page of bytes that only this virtual page uses. */
  lemma AccessPage(lo: int, s: State, r: int, v: int, w: bool)
    requires Inv(lo, s) && HighClosed(s.view, r) && Access(s.view, r, v, w)
    ensures var p := Ppn(s.view[Va(r, v)]);
            v < TRAPFRAME_VPN && p in s.mem && |s.mem[p]| == PGSIZE && p in s.role && s.role[p] == User(r, v) && p > 0
    ensures IsV(s.view[Va(r, v)]) && Low(r, v / 512) in s.tab
  {
    hide FreeOk, TabOk, EntryOk;
    assert RoleFits(s.role[Ppn(s.view[Va(r, v)])], s.mem[Ppn(s.view[Va(r, v)])]);
  }

  /** The byte at address va of process r, below TRAPFRAME; -1 if it has none there. */
  function Byte(s: State, r: int, va: int): int {
    var x := Va(r, va / PGSIZE);
    if x.v < TRAPFRAME_VPN && x in s.view && Ppn(s.view[x]) in s.mem && va % PGSIZE < |s.mem[Ppn(s.view[x])]|
    then s.mem[Ppn(s.view[x])][va % PGSIZE] else -1
  }

  /** t is s with the k bytes of src written at address va of process r. */
  ghost predicate Wrote(s: State, t: State, r: int, va: int, k: int, src: seq<int>) {
    && 0 <= k <= |src| && t == s.(mem := t.mem)
    && (forall a :: Byte(t, r, a) == (if va <= a < va + k then src[a - va] else Byte(s, r, a)))
    && (forall p :: p in s.mem && p in s.role && !(s.role[p].User? && s.role[p].r == r) ==>
        p in t.mem && t.mem[p] == s.mem[p])
  }

  /** Page v of r is overwritten. */
  function WritePage(s: State, p: int, w: seq<int>): State { s.(mem := s.mem[p := w]) }

  lemma WritePageInv(lo: int, s: State, p: int, w: seq<int>)
    requires Inv(lo, s) && p in s.role && s.role[p].User? && |w| == PGSIZE
    ensures Inv(lo, WritePage(s, p, w))
  {
    hide TabOk, ViewOk, EntryOk, FreeOk;
    MemEntry(s.mem, s.role, s.tab, s.view, NoHole, p, w);
    RoleFree(s.mem, s.head, s.role, s.fl, p, s.role[p], w);
    assert s.role[p := s.role[p]] == s.role;
  }

  /** The bytes after one page of the copy. */
  lemma WriteOne(lo: int, s: State, t: State, r: int, va: int, k: int, n: int, src: seq<int>)
    requires Inv(lo, t) && HighClosed(t.view, r) && Wrote(s, t, r, va, k, src) && va >= 0
    requires 0 < n && k + n <= |src| && Access(t.view, r, (va + k) / PGSIZE, true) && (va + k) % PGSIZE + n <= PGSIZE
    ensures var p := Ppn(t.view[Va(r, (va + k) / PGSIZE)]);
            && p in t.mem && |t.mem[p]| == PGSIZE && p in t.role && t.role[p].User?
            && Wrote(s, WritePage(t, p, Splice(t.mem[p], (va + k) % PGSIZE, src[k..k + n])), r, va, k + n, src)
  {
    hide InvExcept, HighClosed, Ppn, IsU, IsW;
    var v, o := (va + k) / PGSIZE, (va + k) % PGSIZE;
    AccessPage(lo, t, r, v, true);
    var p := Ppn(t.view[Va(r, v)]);
    var w := Splice(t.mem[p], o, src[k..k + n]);
    var u := WritePage(t, p, w);
    forall a ensures Byte(u, r, a) == (if va <= a < va + k + n then src[a - va] else Byte(s, r, a)) {
      OtherPage(lo, t, r, v, a / PGSIZE);
      assert a == a / PGSIZE * PGSIZE + a % PGSIZE && va + k == v * PGSIZE + o;
      if a / PGSIZE == v {
        assert Byte(u, r, a) == w[a % PGSIZE] && Byte(t, r, a) == t.mem[p][a % PGSIZE];
        assert va + k <= a < va + k + n <==> o <= a % PGSIZE < o + n;
        assert va + k <= a < va + k + n ==> src[k..k + n][a % PGSIZE - o] == src[a - va];
      } else {
        assert !(va + k <= a < va + k + n);
        assert Byte(u, r, a) == Byte(t, r, a);
      }
    }
  }

  lemma OtherPage(lo: int, t: State, r: int, v: int, v': int)
    requires Inv(lo, t) && Va(r, v) in t.view && v < TRAPFRAME_VPN
    ensures v != v' && Va(r, v') in t.view && v' < TRAPFRAME_VPN ==> Ppn(t.view[Va(r, v')]) != Ppn(t.view[Va(r, v)])
  {
    hide FreeOk, TabOk, EntryOk, MemOk, Ppn;
  }

  /** Copies src to dstva; fails exactly if some page of the destination is not the user's to write. */
  method Copyout(m: Vm, r: int, dstva: int, src: seq<int>) returns (ok: bool, ghost k: int)
    requires m.Valid() && Root(r) in m.tab && HighClosed(m.view, r) && 0 <= dstva < U64
    modifies m
    ensures m.Valid() && Wrote(old(m.St()), m.St(), r, dstva, k, src)
    ensures ok ==> k == |src|
    ensures ok <==> forall a :: dstva <= a < dstva + |src| ==> Access(old(m.view), r, a / PGSIZE, true)
  {
    hide InvExcept, Wrote, HighClosed, Splice, WritePage, Ppn, IsV, IsU, IsW, Extends;
    ghost var s := m.St();
    var va, len, i := dstva, |src|, 0;
    k := 0;
    WroteNone(s, r, dstva, src);
    while len > 0
      invariant m.Valid() && Root(r) in m.tab && m.view == s.view && m.tab == s.tab
          && Wrote(s, m.St(), r, dstva, k, src)
      invariant 0 <= k <= |src| && len == |src| - k && (len > 0 ==> va == dstva + k) && i == k
      invariant forall a :: dstva <= a < dstva + k ==> Access(s.view, r, a / PGSIZE, true)
    {
      var va0 := va / PGSIZE * PGSIZE;
      if va0 >= MAXVA {
        assert !Access(s.view, r, va / PGSIZE, true);
        return false, k;
      }
      var found, page, idx := m.Walk(r, va0, false);
      EntryAccess(m.lo, m.St(), r, va / PGSIZE);
      if !found || !IsV(m.mem[page][idx]) || !IsU(m.mem[page][idx]) || !IsW(m.mem[page][idx]) {
        assert !Access(s.view, r, va / PGSIZE, true);
        return false, k;
      }
      var pa0 := Ppn(m.mem[page][idx]);
      var n := PGSIZE - (va - va0);
      if n > len { n := len; }
      ghost var t := m.St();
      WriteOne(m.lo, s, t, r, dstva, k, n, src);
      m.mem := m.mem[pa0 := Splice(m.mem[pa0], va - va0, src[i..i + n])];
      WrotePage(m.lo, s, t, m.St(), pa0, r, dstva, k + n, src, Splice(t.mem[pa0], va - va0, src[i..i + n]));
      forall a | dstva + k <= a < dstva + k + n ensures Access(s.view, r, a / PGSIZE, true) {
        assert a / PGSIZE == va / PGSIZE;
      }
      len := len - n;
      i := i + n;
      k := k + n;
      va := va0 + PGSIZE;
    }
    return true, k;
  }

  lemma WroteNone(s: State, r: int, va: int, src: seq<int>)
    ensures Wrote(s, s, r, va, 0, src)
  {
  }

  lemma WrotePage(lo: int, s: State, t: State, u: State, p: int, r: int, va: int, k: int, src: seq<int>, w: seq<int>)
    requires Inv(lo, t) && p in t.role && t.role[p].User? && |w| == PGSIZE && u == t.(mem := t.mem[p := w])
    requires Wrote(s, WritePage(t, p, w), r, va, k, src)
    ensures Inv(lo, u) && Wrote(s, u, r, va, k, src)
  {
    hide InvExcept, Wrote;
    WritePageInv(lo, t, p, w);
  }

  /** The walk's entry shows whether the page is accessible. */
  lemma EntryAccess(lo: int, s: State, r: int, v: int)
    requires Inv(lo, s) && 0 <= v < NVPN
    ensures Va(r, v) in s.view ==> Low(r, v / 512) in s.tab && IsV(s.view[Va(r, v)])
    ensures Va(r, v) !in s.view ==> !IsV(Leaf(s.view, Va(r, v)))
  {
    hide FreeOk, TabOk, EntryOk, MemOk;
  }

  /** The page behind user address va, 0 if the user may not read there. */
  method Walkaddr(m: Vm, r: int, va: int) returns (p: int)
    requires m.Valid() && Root(r) in m.tab && HighClosed(m.view, r) && 0 <= va
    modifies m
    ensures m.St() == old(m.St())
    ensures p == 0 <==> !Access(m.view, r, va / PGSIZE, false)
    ensures p != 0 ==> p == Ppn(m.view[Va(r, va / PGSIZE)])
  {
    hide InvExcept, HighClosed, Ppn, IsV, IsU, IsW, Extends;
    if va >= MAXVA { return 0; }
    var found, page, idx := m.Walk(r, va, false);
    EntryAccess(m.lo, m.St(), r, va / PGSIZE);
    if !found || !IsV(m.mem[page][idx]) || !IsU(m.mem[page][idx]) { return 0; }
    AccessPage(m.lo, m.St(), r, va / PGSIZE, false);
    return Ppn(m.mem[page][idx]);
  }

  /** Copies len bytes from srcva; fails exactly if the user may not read some page of the source. */
  method Copyin(m: Vm, r: int, srcva: int, len: int) returns (ok: bool, dst: seq<int>)
    requires m.Valid() && Root(r) in m.tab && HighClosed(m.view, r) && 0 <= srcva < U64 && 0 <= len
    modifies m
    ensures m.St() == old(m.St())
    ensures ok <==> forall a :: srcva <= a < srcva + len ==> Access(m.view, r, a / PGSIZE, false)
    ensures ok ==> |dst| == len && forall i :: 0 <= i < len ==> dst[i] == Byte(m.St(), r, srcva + i)
  {
    hide InvExcept, HighClosed, Ppn, IsV, IsU, IsW, Byte;
    ghost var s := m.St();
    var va, left := srcva, len;
    dst := [];
    while left > 0
      invariant m.St() == s && 0 <= left && |dst| == len - left && (left > 0 ==> va == srcva + |dst|)
      invariant forall a :: srcva <= a < srcva + |dst| ==> Access(s.view, r, a / PGSIZE, false)
      invariant forall i :: 0 <= i < |dst| ==> dst[i] == Byte(s, r, srcva + i)
    {
      var va0 := va / PGSIZE * PGSIZE;
      var pa0 := Walkaddr(m, r, va0);
      if pa0 == 0 {
        assert !Access(s.view, r, va / PGSIZE, false);
        return false, [];
      }
      AccessPage(m.lo, s, r, va / PGSIZE, false);
      var n, o := PGSIZE - (va - va0), va - va0;
      if n > left { n := left; }
      ghost var d := dst;
      dst := dst + m.mem[pa0][o..o + n];
      forall a | srcva + |d| <= a < srcva + |d| + n
        ensures Access(s.view, r, a / PGSIZE, false) && dst[a - srcva] == Byte(s, r, a)
      {
        assert a / PGSIZE == va / PGSIZE && a % PGSIZE == o + (a - va);
        ByteIs(s, r, a, pa0);
        assert dst[a - srcva] == s.mem[pa0][o..o + n][a - va];
      }
      forall i | 0 <= i < |dst| ensures dst[i] == Byte(s, r, srcva + i) {
        if i >= |d| { assert dst[(srcva + i) - srcva] == Byte(s, r, srcva + i); }
      }
      left := left - n;
      va := va0 + PGSIZE;
    }
    return true, dst;
  }

  lemma ByteIs(s: State, r: int, a: int, p: int)
    requires Va(r, a / PGSIZE) in s.view && a / PGSIZE < TRAPFRAME_VPN && p == Ppn(s.view[Va(r, a / PGSIZE)])
        && p in s.mem && |s.mem[p]| == PGSIZE
    ensures Byte(s, r, a) == s.mem[p][a % PGSIZE]
  {
  }

  /** What copyout wrote, copyin of the same range reads back. */
  lemma CopyRoundTrip(s: State, t: State, r: int, va: int, src: seq<int>, dst: seq<int>)
    requires Wrote(s, t, r, va, |src|, src) && |dst| == |src| && forall i :: 0 <= i < |src| ==>
        dst[i] == Byte(t, r, va + i)
    ensures dst == src
  {
    forall i | 0 <= i < |src| ensures dst[i] == src[i] {
      assert Byte(t, r, va + i) == src[va + i - va];
    }
  }
}

/**
  Process memory on top of kernel/vm.c: growproc, fork's uvmcopy, freewalk and uvmfree, and
  the life of a process page table (kernel/proc.c).
 */
module VmProc {
  import opened VmModel
  import opened VmCode

  // ----- growproc -----

  /** growproc(n) for any C int n, sz + n computed modulo 2^64. */
  method Growproc(m: Vm, r: int, sz: int, n: int) returns (ok: bool, sz': int)
    requires m.Valid() && SizeOk(m.St(), r, sz) && -0x8000_0000 <= n < 0x8000_0000
    modifies m
    ensures m.Valid() && SizeOk(m.St(), r, sz') && Pages(sz') <= PHYSTOP_PPN - m.lo
    ensures ok ==> sz' == (if sz + n < 0 then sz else sz + n)
    ensures ok && n > 0 ==>
        && Grown(old(m.St()), m.St(), r, Pages(sz), Pages(sz + n) - Pages(sz))
        && AllHold(m.St(), r, Pages(sz), Pages(sz + n), 23, Zeros(PGSIZE))
    ensures ok && n < 0 <= sz + n ==>
        Unmapped(old(m.St()), m.St(), r, Pages(sz + n), Pages(sz) - Pages(sz + n), true)
    ensures ok && (n == 0 || sz + n < 0) ==> m.St() == old(m.St())
    ensures !ok ==>
        n > 0 && sz' == sz && Grown(old(m.St()), m.St(), r, Pages(sz), 0)
        && |old(m.fl)| < 3 * (Pages(sz + n) - Pages(sz))
  {
    hide InvExcept, Grown, SizeOk, AllHold, Unmapped;
    SizeBound(m.lo, m.St(), r, sz);
    ok, sz' := true, sz;
    if n > 0 {
      var a := m.Uvmalloc(r, sz, sz + n, 4);
      if a == 0 {
        ok := false;
      } else {
        sz' := a;
      }
    } else if n < 0 {
      ghost var s := m.St();
      var newsz := (sz + n) % U64;
      assert sz + n < 0 ==> newsz == sz + n + U64 > sz;
      var panic;
      panic, sz' := m.Uvmdealloc(r, sz, newsz);
      if newsz < sz { Shrunk(s, m.St(), r, sz, newsz); }
    }
    SizeBound(m.lo, m.St(), r, sz');
  }

  /** A process never has more pages than there is memory, so it ends far below TRAPFRAME. */
  lemma SizeBound(lo: int, s: State, r: int, sz: int)
    requires Inv(lo, s) && SizeOk(s, r, sz)
    ensures sz >= 0 && Pages(sz) <= PHYSTOP_PPN - lo <= 0x8000 && sz <= 0x800_0000 && Root(r) in s.tab
    ensures forall v :: 0 <= v < Pages(sz) ==> Va(r, v) in s.view
  {
    hide InvExcept, Grown;
    GrownNone(s, r, Pages(sz));
    RoomToGrow(lo, s, s, r, sz, 0);
  }

  /**
    For a process of size sz the pages between newsz and oldsz are all there exactly if oldsz reaches no
    further page.
   */
  lemma DeallocPanics(s: State, r: int, sz: int, oldsz: int, newsz: int)
    requires SizeOk(s, r, sz) && 0 <= newsz < oldsz && Pages(oldsz) <= TRAPFRAME_VPN
    ensures AllMapped(s.view, r, Pages(newsz), Pages(oldsz) - Pages(newsz)) <==>
            Pages(oldsz) <= Pages(sz) || Pages(oldsz) == Pages(newsz)
  {
    assert Pages(newsz) <= Pages(oldsz);
    if Pages(sz) < Pages(oldsz) && Pages(newsz) < Pages(oldsz) {
      assert Va(r, Pages(oldsz) - 1) !in s.view;
    }
  }

  /** One page more than any process has: the kernel panics. */
  method DeallocAbove(m: Vm, r: int, sz: int) returns (panic: bool)
    requires m.Valid() && SizeOk(m.St(), r, sz)
    modifies m
    ensures panic
  {
    hide InvExcept, SizeOk, Unmapped;
    SizeBound(m.lo, m.St(), r, sz);
    assert Pages(sz + PGSIZE) == Pages(sz) + 1;
    DeallocPanics(m.St(), r, sz, sz + PGSIZE, sz);
    var sz';
    panic, sz' := m.Uvmdealloc(r, sz + PGSIZE, sz);
  }

  lemma Shrunk(s: State, t: State, r: int, sz: int, newsz: int)
    requires SizeOk(s, r, sz) && 0 <= newsz < sz && Unmapped(s, t, r, Pages(newsz), Pages(sz) - Pages(newsz), true)
    ensures SizeOk(t, r, newsz)
  {
    forall v | 0 <= v < TRAPFRAME_VPN ensures Va(r, v) in t.view <==> v < Pages(newsz) {
      assert InSpan(Va(r, v), r, Pages(newsz), Pages(sz) - Pages(newsz)) <==> Pages(newsz) <= v < Pages(sz);
    }
  }

  // ----- uvmcopy -----

  /** In t, page v of the child holds what page v of the parent held in s, with the same flags. */
  ghost predicate Copied(s: State, t: State, old_: int, new_: int, v: int) {
    && Va(old_, v) in s.view && Ppn(s.view[Va(old_, v)]) in s.mem
    && Holds(t, new_, v, Flags(s.view[Va(old_, v)]), s.mem[Ppn(s.view[Va(old_, v)])])
  }

  /** What uvmcopy reads for page v of the parent, while the child grows. */
  lemma ParentPage(lo: int, s: State, t: State, old_: int, new_: int, k: int, v: int)
    requires Inv(lo, s) && Grown(s, t, new_, 0, k) && Va(old_, v) in s.view && v < TRAPFRAME_VPN
    ensures var e := s.view[Va(old_, v)];
            && Va(old_, v) in t.view && t.view[Va(old_, v)] == e
            && Ppn(e) in s.mem && Ppn(e) in t.mem && t.mem[Ppn(e)] == s.mem[Ppn(e)] && |s.mem[Ppn(e)]| == PGSIZE
            && 0 <= Flags(e) < 1024 && IsLeaf(Flags(e)) && OrV(Flags(e)) == Flags(e)
            && 0 <= v && Low(old_, v / 512) in t.tab && Ppn(e) in t.role && t.role[Ppn(e)].User?
  {
    hide FreeOk, TabOk, EntryOk, MkPte, Ppn, Flags, IsV, IsLeaf, OrV;
    var e := s.view[Va(old_, v)];
    assert RoleFits(s.role[Ppn(e)], s.mem[Ppn(e)]);
    SplitPte(e);
  }

  lemma SplitPte(e: int)
    requires e >= 0 && IsV(e) && IsLeaf(e)
    ensures 0 <= Flags(e) < 1024 && IsLeaf(Flags(e)) && OrV(Flags(e)) == Flags(e)
  {
    hide MkPte, Ppn, Flags, IsLeaf;
    PteSum(e);
    PteBits(Ppn(e), Flags(e));
  }

  lemma PteSum(e: int)
    requires e >= 0
    ensures e == MkPte(Ppn(e), Flags(e)) && 0 <= Flags(e) < 1024 && Ppn(e) >= 0
  {
  }

  lemma CopyKeeps(lo: int, s: State, t: State, u: State, old_: int, new_: int, k: int, w: seq<int>, perm: int)
    requires Inv(lo, t) && |t.fl| > 0 && t.head in t.mem && |t.mem[t.head]| > 0 && t.head in t.role
        && t.role[t.head] == Free
    requires Mapped(Take(t, w), u, new_, k, 1, t.head, perm) && 0 <= k < TRAPFRAME_VPN
    requires forall v :: 0 <= v < k ==> Copied(s, t, old_, new_, v)
    ensures forall v :: 0 <= v < k ==> Copied(s, u, old_, new_, v)
  {
    hide InvExcept, Mapped, Holds, Ppn, Flags;
    forall v | 0 <= v < k ensures Copied(s, u, old_, new_, v) {
      assert Copied(s, t, old_, new_, v);
      GrowKeeps(lo, t, u, new_, k, v, w, perm, Flags(s.view[Va(old_, v)]), s.mem[Ppn(s.view[Va(old_, v)])]);
    }
  }

  /** Copies the parent's sz bytes to the child, which has none; on failure leaves the child none. */
  method Uvmcopy(m: Vm, old_: int, new_: int, sz: int) returns (ok: bool)
    requires m.Valid() && SizeOk(m.St(), old_, sz) && SizeOk(m.St(), new_, 0) && old_ != new_
    modifies m
    ensures m.Valid() && SizeOk(m.St(), old_, sz)
    ensures ok ==> Grown(old(m.St()), m.St(), new_, 0, Pages(sz)) && SizeOk(m.St(), new_, sz)
    ensures ok ==> forall v :: 0 <= v < Pages(sz) ==> Copied(old(m.St()), m.St(), old_, new_, v)
    ensures !ok ==> Grown(old(m.St()), m.St(), new_, 0, 0) && SizeOk(m.St(), new_, 0) && |old(m.fl)| < 3 * Pages(sz)
  {
    hide InvExcept, Grown, Mapped, SizeOk, Copied, Put, Backed, Holds, Ppn, Flags, IsLeaf, IsV, OrV, Unmapped;
    ghost var s, k := m.St(), 0;
    GrownNone(s, new_, 0);
    SizeBound(m.lo, s, old_, sz);
    var i := 0;
    while i < sz
      invariant m.Valid() && 0 <= k <= Pages(sz) && i == k * PGSIZE
      invariant Grown(s, m.St(), new_, 0, k) && |s.fl| - 3 * k <= |m.fl|
      invariant forall v :: 0 <= v < k ==> Copied(s, m.St(), old_, new_, v)
    {
      ghost var t := m.St();
      assert Va(old_, k) in s.view;
      ParentPage(m.lo, s, t, old_, new_, k, k);
      RoomToGrow(m.lo, s, t, new_, 0, k);
      OldRoot(s, t, old_, new_, k, sz);
      var found, page, idx := m.Walk(old_, i, false);
      LeafBits(m.lo, t, old_, k);
      if !found || !IsV(m.mem[page][idx]) {
        assert false;  // panic("uvmcopy")
      }
      var e := m.mem[page][idx];
      var pa, flags := Ppn(e), Flags(e);
      var p := m.Kalloc();
      if p == 0 {
        var panic := m.Uvmunmap(new_, 0, i / PGSIZE, true);
        CopyUndone(m.lo, s, t, m.St(), old_, new_, sz, k);
        return false;
      }
      ghost var w := s.mem[pa];
      TookPage(m.lo, s, t, new_, 0, k, w);
      m.mem := m.mem[p := m.mem[pa]];
      assert m.St() == Take(t, w);
      var done, n := m.Mappages(new_, i, PGSIZE, p * PGSIZE, flags);
      if !done {
        GrowUndone(s, t, m.St(), new_, 0, k, w, flags);
        m.Kfree(p, NoHole);
        ghost var u := m.St();
        RoomToGrow(m.lo, s, u, new_, 0, k);
        var panic := m.Uvmunmap(new_, 0, i / PGSIZE, true);
        CopyUndone(m.lo, s, u, m.St(), old_, new_, sz, k);
        return false;
      }
      GrowOne(s, t, m.St(), new_, 0, k, w, flags);
      CopyKeeps(m.lo, s, t, m.St(), old_, new_, k, w, flags);
      NowCopied(s, m.St(), old_, new_, k);
      k := k + 1;
      i := i + PGSIZE;
    }
    GrownSize(s, m.St(), new_, 0, sz);
    OldRoot(s, m.St(), old_, new_, k, sz);
    return true;
  }

  lemma NowCopied(s: State, u: State, old_: int, new_: int, v: int)
    requires Va(old_, v) in s.view && Ppn(s.view[Va(old_, v)]) in s.mem
    requires Holds(u, new_, v, Flags(s.view[Va(old_, v)]), s.mem[Ppn(s.view[Va(old_, v)])])
    ensures Copied(s, u, old_, new_, v)
  {
  }

  /** Growing the child leaves the parent's size. */
  lemma OldRoot(s: State, t: State, old_: int, new_: int, k: int, sz: int)
    requires Grown(s, t, new_, 0, k) && old_ != new_ && SizeOk(s, old_, sz)
    ensures SizeOk(t, old_, sz) && Root(old_) in t.tab
  {
  }

  lemma CopyUndone(lo: int, s: State, t: State, u: State, old_: int, new_: int, sz: int, k: int)
    requires Inv(lo, s) && Grown(s, t, new_, 0, k) && Unmapped(t, u, new_, 0, k, true) && 0 <= k <= TRAPFRAME_VPN
    requires SizeOk(s, new_, 0) && SizeOk(s, old_, sz) && old_ != new_
    ensures Grown(s, u, new_, 0, 0) && SizeOk(u, new_, 0) && SizeOk(u, old_, sz)
  {
    hide InvExcept, Grown, Unmapped, SizeOk;
    UndoFacts(lo, s, new_, 0, k);
    GrownBack(s, t, u, new_, 0, k);
    GrownSize(s, u, new_, 0, 0);
    OldRoot(s, u, old_, new_, 0, sz);
  }

  // ----- freewalk -----

  /** Table x is nd or hangs below it. */
  predicate Under(nd: Node, x: Node) {
    match nd
    case Root(r) => x.r == r
    case Mid(r, i) => x == nd || (x.Low? && x.r == r && x.u / 512 == i)
    case Low(_, _) => x == nd
  }

  /** The table that entry i of table nd points to. */
  function ChildNode(nd: Node, i: int): Node
    requires !nd.Low?
  {
    match nd
    case Root(r) => Mid(r, i)
    case Mid(r, j) => Low(r, j * 512 + i)
  }

  function Level(nd: Node): nat { if nd.Root? then 2 else if nd.Mid? then 1 else 0 }

  /** Table x hangs below one of the first i entries of nd. */
  predicate UnderFirst(nd: Node, i: int, x: Node) {
    match nd
    case Root(r) => x.r == r && ((x.Mid? && x.i < i) || (x.Low? && x.u / 512 < i))
    case Mid(r, j) => x.Low? && x.r == r && x.u / 512 == j && x.u % 512 < i
    case Low(_, _) => false
  }

  /** t is s with the tables `gone` freed. */
  ghost predicate Freed(s: State, t: State, gone: iset<Node>) {
    && t.view == s.view
    && (forall x :: x in t.tab <==> x in s.tab && x !in gone) && (forall x :: x in t.tab ==> t.tab[x] == s.tab[x])
    && (forall p :: p in s.role ==>
          p in t.role && t.role[p] == (if s.role[p].Tab? && s.role[p].nd in gone then Free else s.role[p]))
    && Keeps(s.role, s.mem, t.mem)
  }

  ghost function SubTree(nd: Node): iset<Node> { iset x | Under(nd, x) }

  ghost function FirstTrees(nd: Node, i: int): iset<Node> { iset x | UnderFirst(nd, i, x) }

  lemma FreedNone(s: State, nd: Node)
    requires forall x :: x in s.tab ==> x !in FirstTrees(nd, 0)
    requires forall p :: p in s.role && s.role[p].Tab? ==> s.role[p].nd in s.tab
    ensures Freed(s, s, FirstTrees(nd, 0))
  {
  }

  /** No entry has a negative index. */
  lemma NoFirst(lo: int, s: State, nd: Node)
    requires Inv(lo, s)
    ensures forall x :: x in s.tab ==> x !in FirstTrees(nd, 0)
    ensures forall p :: p in s.role && s.role[p].Tab? ==> s.role[p].nd in s.tab
  {
    hide FreeOk, EntryOk, ViewOk, MemOk;
    forall x | x in s.tab ensures x !in FirstTrees(nd, 0) {
      match x
      case Root(r) =>
      case Mid(r, i) =>
      case Low(r, u) =>
    }
  }

  /** Freeing the subtree below entry i, then clearing the entry. */
  lemma FreedChild(lo: int, s: State, t: State, u: State, nd: Node, i: int)
    requires Inv(lo, s) && !nd.Low? && 0 <= i < 512 && Freed(s, t, FirstTrees(nd, i))
        && Freed(t, u, SubTree(ChildNode(nd, i)))
    requires nd.Mid? ==> 0 <= nd.i < 512
    ensures Freed(s, u, FirstTrees(nd, i + 1))
  {
    hide InvExcept;
    forall x ensures x in FirstTrees(nd, i + 1) <==> x in FirstTrees(nd, i) || x in SubTree(ChildNode(nd, i)) {
    }
  }

  ghost predicate NoLeaf(view: map<Va, int>, nd: Node)
      { forall r, v :: Va(r, v) in view ==> !Under(nd, Low(r, v / 512)) }

  /** What freewalk finds in entry i of table nd when no leaf is left below it. */
  lemma EntryWord(lo: int, s: State, nd: Node, i: int)
    requires Inv(lo, s) && nd in s.tab && 0 <= i < 512 && NoLeaf(s.view, nd)
    ensures s.tab[nd] in s.mem && |s.mem[s.tab[nd]]| == 512
    ensures var e := s.mem[s.tab[nd]][i];
            && (nd.Low? ==> !IsV(e))
            && (!nd.Low? ==>
                  && NodeOk(s.tab, ChildNode(nd, i)) && !ChildNode(nd, i).Root? && ParentOf(ChildNode(nd, i)) == (nd, i)
                  && (IsV(e) <==> ChildNode(nd, i) in s.tab)
                  && (IsV(e) ==>
                      !IsLeaf(e) && Ppn(e) == s.tab[ChildNode(nd, i)] && Level(ChildNode(nd, i)) < Level(nd)))
  {
    hide FreeOk, EntryOk, ViewOk, MkPte, Ppn, IsV, IsLeaf;
    TablePage(lo, s, nd);
    PointerBits(0);
    if nd.Low? {
      var v := nd.u * 512 + i;
      assert v / 512 == nd.u && v % 512 == i;
      assert Va(nd.r, v) !in s.view;
      LeafWord27(s, nd.r, v);
    } else {
      var c := ChildNode(nd, i);
      assert ParentOf(c) == (nd, i);
      PointerWord(s, c);
      if c in s.tab {
        TablePage(lo, s, c);
        PointerBits(s.tab[c]);
      }
    }
  }

  lemma LeafWord27(s: State, r: int, v: int)
    requires EntryOk(s.mem, s.tab, s.view, NoHole) && Low(r, v / 512) in s.tab && 0 <= v < 512 * 512 * 512
    ensures WordAt(s.mem, s.tab[Low(r, v / 512)], v % 512) == Leaf(s.view, Va(r, v))
  {
    assert EntryAt(s.mem, s.tab, Low(r, v / 512), v % 512) == Leaf(s.view, Va(r, v));
  }

  /** A table that does not exist has nothing below it. */
  lemma NothingBelow(lo: int, s: State, nd: Node)
    requires Inv(lo, s) && nd !in s.tab && !nd.Root?
    ensures Freed(s, s, SubTree(nd))
  {
    hide FreeOk, EntryOk, ViewOk, MemOk;
    forall x | x in s.tab ensures !Under(nd, x) {
      match x
      case Root(_) =>
      case Mid(_, _) =>
      case Low(_, _) =>
    }
  }

  /** Clearing the entry of a freed table. */
  lemma FreedCleared(lo: int, s: State, t: State, nd: Node)
    requires Freed(s, t, SubTree(nd)) && InvExcept(lo, t, HoleOf(nd)) && !nd.Root? && NodeOk(s.tab, nd)
    ensures NodeOk(t.tab, nd) && nd !in t.tab && ParentOf(nd).0 in t.tab
    ensures var (pn, idx) := ParentOf(nd); t.tab[pn] == s.tab[pn] && t.tab[pn] in t.mem && 0 <= idx < |t.mem[t.tab[pn]]|
    ensures Inv(lo, ClearPointer(t, nd)) && Freed(s, ClearPointer(t, nd), SubTree(nd))
  {
    hide FreeOk, EntryOk, ViewOk, MemOk, TabOk;
    assert nd in SubTree(nd) && ParentOf(nd).0 !in SubTree(nd);
    ClearPointerInv(lo, t, nd);
    TabRole(t.role, t.tab, ParentOf(nd).0);
  }

  lemma AllTrees(lo: int, s: State, nd: Node)
    requires Inv(lo, s) && nd in s.tab
    ensures nd !in FirstTrees(nd, 512)
    ensures forall x :: x in s.tab ==> (x in SubTree(nd) <==> x == nd || x in FirstTrees(nd, 512))
  {
    hide FreeOk, EntryOk, ViewOk, MemOk;
    forall x | x in s.tab ensures x in SubTree(nd) <==> x == nd || x in FirstTrees(nd, 512) {
      match x
      case Root(_) =>
      case Mid(_, _) =>
      case Low(_, u) => assert u % 512 < 512 && (u / 512 < 512);
    }
  }

  /** All subtrees of nd are gone: it is empty. */
  lemma AllEmpty(lo: int, s: State, t: State, nd: Node)
    requires Inv(lo, s) && Inv(lo, t) && nd in s.tab && Freed(s, t, FirstTrees(nd, 512)) && NoLeaf(s.view, nd)
    ensures nd in t.tab && t.tab[nd] == s.tab[nd] && Empty(t.tab, t.view, nd)
    ensures t.tab[nd] in t.role && t.role[t.tab[nd]] == Tab(nd)
  {
    hide FreeOk, EntryOk, ViewOk, MemOk;
    assert nd !in FirstTrees(nd, 512);
    TabRole(t.role, t.tab, nd);
  }

  lemma KeepsTable(role: map<int, Role>, s: map<int, seq<int>>, t: map<int, seq<int>>, p: int, w: seq<int>)
    requires Keeps(role, s, t) && p in role && role[p].Tab?
    ensures Keeps(role, s, t[p := w])
  {
  }

  lemma FreedRoles(role: map<int, Role>, tab: map<Node, int>, now: map<int, Role>, p: int, nd: Node, below: iset<Node>,
      all: iset<Node>)
    requires TabOk(role, tab) && p in role && role[p] == Tab(nd) && forall x :: x in tab ==>
        (x in all <==> x == nd || x in below)
    requires forall q :: q in role ==>
        q in now && now[q] == (if role[q].Tab? && role[q].nd in below then Free else role[q])
    ensures forall q :: q in role ==> now[p := Free][q] == (if role[q].Tab? && role[q].nd in all then Free else role[q])
  {
    forall q | q in role ensures now[p := Free][q] == (if role[q].Tab? && role[q].nd in all then Free else role[q]) {
      if q != p && role[q].Tab? { assert role[q].nd in tab && role[q].nd != nd; }
    }
  }

  /** ... and can go too. */
  lemma FreedAll(lo: int, s: State, t: State, nd: Node)
    requires Inv(lo, s) && nd in s.tab && Freed(s, t, FirstTrees(nd, 512))
    requires nd in t.tab && t.tab[nd] == s.tab[nd] && t.tab[nd] in t.role && t.role[t.tab[nd]] == Tab(nd)
    ensures Freed(s, Put(DropTable(t, nd), t.tab[nd], Junk(1)), SubTree(nd))
  {
    hide FreeOk, EntryOk, ViewOk, MemOk, SubTree, FirstTrees, Keeps, TabOk;
    var p, u := t.tab[nd], Put(DropTable(t, nd), t.tab[nd], Junk(1));
    AllTrees(lo, s, nd);
    TabRole(s.role, s.tab, nd);
    KeepsTable(s.role, s.mem, t.mem, p, Junk(1)[0 := t.head]);
    FreedRoles(s.role, s.tab, t.role, p, nd, FirstTrees(nd, 512), SubTree(nd));
    assert u.role == t.role[p := Free];
  }

  /** Frees the page-table pages below and including nd; every leaf below must be gone. */
  method Freewalk(m: Vm, pagetable: int, ghost nd: Node)
    requires m.Valid() && nd in m.tab && m.tab[nd] == pagetable && NoLeaf(m.view, nd)
    modifies m
    ensures InvExcept(m.lo, m.St(), HoleOf(nd)) && Freed(old(m.St()), m.St(), SubTree(nd))
    decreases Level(nd)
  {
    hide InvExcept, Freed, NoLeaf, Empty, IsV, IsLeaf, Ppn, ParentOf, NodeOk, Level, SubTree, FirstTrees, Put;
    ghost var s := m.St();
    NoFirst(m.lo, s, nd);
    FreedNone(s, nd);
    for i := 0 to 512
      invariant m.Valid() && Freed(s, m.St(), FirstTrees(nd, i))
    {
      ghost var t := m.St();
      SameNode(m.lo, s, t, nd, i);
      EntryWord(m.lo, t, nd, i);
      var pte := m.mem[pagetable][i];
      if IsV(pte) && !IsLeaf(pte) {
        var child := Ppn(pte);
        ghost var c := ChildNode(nd, i);
        Freewalk(m, child, c);
        FreedCleared(m.lo, t, m.St(), c);
        m.mem := SetEntry(m.mem, pagetable, i, 0);
        FreedChild(m.lo, s, t, m.St(), nd, i);
      } else {
        if IsV(pte) {
          assert false;  // panic("freewalk: leaf")
        }
        Skipped(m.lo, s, t, nd, i);
      }
    }
    ghost var t := m.St();
    AllEmpty(m.lo, s, t, nd);
    FreedAll(m.lo, s, t, nd);
    DropTableInv(m.lo, t, nd);
    m.role, m.tab := DropTable(t, nd).role, DropTable(t, nd).tab;
    m.Kfree(pagetable, HoleOf(nd));
  }

  lemma SameNode(lo: int, s: State, t: State, nd: Node, i: int)
    requires nd in s.tab && Freed(s, t, FirstTrees(nd, i)) && NoLeaf(s.view, nd) && Inv(lo, s) && 0 <= i < 512
    ensures nd in t.tab && t.tab[nd] == s.tab[nd] && NoLeaf(t.view, nd)
    ensures nd.Mid? ==> 0 <= nd.i < 512
    ensures !nd.Low? ==> NoLeaf(t.view, ChildNode(nd, i))
  {
    hide FreeOk, EntryOk, ViewOk, MemOk;
    assert nd !in FirstTrees(nd, i);
    if !nd.Low? {
      forall r, v | Va(r, v) in t.view ensures !Under(ChildNode(nd, i), Low(r, v / 512)) {
        assert !Under(nd, Low(r, v / 512));
      }
    }
  }

  lemma Skipped(lo: int, s: State, t: State, nd: Node, i: int)
    requires Inv(lo, s) && Inv(lo, t) && 0 <= i < 512 && Freed(s, t, FirstTrees(nd, i)) && (nd.Mid? ==> 0 <= nd.i < 512)
    requires !nd.Low? ==> ChildNode(nd, i) !in t.tab
    ensures Freed(s, t, FirstTrees(nd, i + 1))
  {
    hide InvExcept, Freed;
    if nd.Low? {
      assert FirstTrees(nd, i) == FirstTrees(nd, i + 1);
    } else {
      NothingBelow(lo, t, ChildNode(nd, i));
      FreedChild(lo, s, t, t, nd, i);
    }
  }

  // ----- the life of a process page table -----

  /** t is s without page table r: its tables and user pages are free, everything else is as it was. */
  ghost predicate Released(s: State, t: State, r: int) {
    && (forall x :: x in t.view <==> x in s.view && x.r != r) && (forall x :: x in t.view ==> t.view[x] == s.view[x])
    && (forall nd :: nd in t.tab <==> nd in s.tab && nd.r != r) && (forall nd :: nd in t.tab ==> t.tab[nd] == s.tab[nd])
    && (forall p :: p in s.role ==>
          p in t.role && t.role[p] ==
              (if (s.role[p].Tab? && s.role[p].nd.r == r) || (s.role[p].User? && s.role[p].r == r)
                                       then Free else s.role[p]))
    && (forall p :: p in s.role && p in s.mem && p in t.role && (t.role[p].User? || t.role[p] == Held) ==>
        p in t.mem && t.mem[p] == s.mem[p])
  }

  /** Frees the user pages and then the tables of r; nothing may be mapped from TRAPFRAME up. */
  method Uvmfree(m: Vm, r: int, sz: int)
    requires m.Valid() && SizeOk(m.St(), r, sz) && forall v :: v >= TRAPFRAME_VPN ==> Va(r, v) !in m.view
    modifies m
    ensures m.Valid() && Released(old(m.St()), m.St(), r)
  {
    hide InvExcept, Released, SizeOk, Unmapped, Freed, NoLeaf;
    ghost var s := m.St();
    SizeBound(m.lo, s, r, sz);
    if sz > 0 {
      var panic := m.Uvmunmap(r, 0, PgRoundUp(sz) / PGSIZE, true);
    } else {
      UnmappedNone(s, r, 0, true);
    }
    assert PgRoundUp(sz) / PGSIZE == Pages(sz) && (sz == 0 ==> Pages(sz) == 0);
    ghost var t := m.St();
    NoneLeft(m.lo, s, t, r, sz);
    Freewalk(m, r, Root(r));
    AllReleased(m.lo, s, t, m.St(), r, sz);
  }

  lemma NoneLeft(lo: int, s: State, t: State, r: int, sz: int)
    requires Inv(lo, s) && Inv(lo, t) && SizeOk(s, r, sz) && Unmapped(s, t, r, 0, Pages(sz), true)
    requires forall v :: v >= TRAPFRAME_VPN ==> Va(r, v) !in s.view
    ensures NoLeaf(t.view, Root(r)) && Root(r) in t.tab && t.tab[Root(r)] == r
  {
    hide FreeOk, EntryOk, MemOk;
    forall q, v | Va(q, v) in t.view ensures !Under(Root(r), Low(q, v / 512)) {
      assert Va(q, v) in s.view && !InSpan(Va(q, v), r, 0, Pages(sz));
    }
  }

  lemma AllReleased(lo: int, s: State, t: State, u: State, r: int, sz: int)
    requires Inv(lo, s) && Unmapped(s, t, r, 0, Pages(sz), true) && Freed(t, u, SubTree(Root(r))) && SizeOk(s, r, sz)
    requires forall v :: v >= TRAPFRAME_VPN ==> Va(r, v) !in s.view
    ensures Released(s, u, r)
  {
    hide FreeOk, EntryOk, MemOk, TabOk;
    forall x ensures x in u.view <==> x in s.view && x.r != r {
      assert x == Va(x.r, x.v);
    }
    forall p | p in s.role && s.role[p].User? && s.role[p].r == r ensures u.role[p] == Free {
      assert Va(r, s.role[p].v) in s.view;
    }
  }

  /** proc_freepagetable: drops the trampoline and trapframe mappings, then frees the rest. */
  method ProcFreepagetable(m: Vm, r: int, sz: int)
    requires m.Valid() && SizeOk(m.St(), r, sz) && Va(r, TRAPFRAME_VPN) in m.view && Va(r, TRAPFRAME_VPN + 1) in m.view
    modifies m
    ensures m.Valid() && Released(old(m.St()), m.St(), r)
  {
    hide InvExcept, Released, SizeOk, Unmapped;
    ghost var s := m.St();
    SizeBound(m.lo, s, r, sz);
    var panic := m.Uvmunmap(r, (TRAPFRAME_VPN + 1) * PGSIZE, 1, false);
    ghost var t := m.St();
    HighUnmapped(m.lo, s, t, r, TRAPFRAME_VPN + 1, sz);
    panic := m.Uvmunmap(r, TRAPFRAME_VPN * PGSIZE, 1, false);
    ghost var u := m.St();
    HighUnmapped(m.lo, t, u, r, TRAPFRAME_VPN, sz);
    NoHigh(m.lo, s, t, u, r);
    Uvmfree(m, r, sz);
    StillReleased(m.lo, s, t, r, TRAPFRAME_VPN + 1, u, m.St());
  }

  /** Unmapping one page from TRAPFRAME up changes no role and no size. */
  lemma HighUnmapped(lo: int, s: State, t: State, r: int, v: int, sz: int)
    requires Inv(lo, s) && Unmapped(s, t, r, v, 1, false) && v >= TRAPFRAME_VPN && SizeOk(s, r, sz)
    ensures SizeOk(t, r, sz) && Root(r) in t.tab && (forall p :: p in s.role ==> p in t.role && t.role[p] == s.role[p])
    ensures forall x :: x in t.view <==> x in s.view && x != Va(r, v)
  {
    hide FreeOk, EntryOk, MemOk, TabOk;
    forall x ensures InSpan(x, r, v, 1) <==> x == Va(r, v) {}
  }

  lemma NoHigh(lo: int, s: State, t: State, u: State, r: int)
    requires Inv(lo, s) && (forall x :: x in t.view <==> x in s.view && x != Va(r, TRAPFRAME_VPN + 1))
    requires forall x :: x in u.view <==> x in t.view && x != Va(r, TRAPFRAME_VPN)
    ensures forall v :: v >= TRAPFRAME_VPN ==> Va(r, v) !in u.view
  {
    hide FreeOk, EntryOk, MemOk, TabOk;
  }

  lemma StillReleased(lo: int, s: State, t: State, r: int, v: int, u: State, w: State)
    requires Inv(lo, s) && Inv(lo, t) && Unmapped(s, t, r, v, 1, false) && Unmapped(t, u, r, v - 1, 1, false)
        && Released(u, w, r) && v == TRAPFRAME_VPN + 1
    ensures Released(s, w, r)
  {
    hide FreeOk, EntryOk, MemOk, TabOk, Unmapped, Released, Lifted;
    assert forall p :: p in s.role && s.role[p].User? ==> s.role[p].v < TRAPFRAME_VPN;
    assert forall p :: p in t.role && t.role[p].User? ==> t.role[p].v < TRAPFRAME_VPN;
    LowUsers(s, t, r, v);
    LowUsers(t, u, r, v - 1);
    LiftedReleased(t, u, r, v - 1, w);
    LiftedReleased(s, t, r, v, w);
  }

  /** A page at or above TRAPFRAME is unmapped: no page changes hands. */
  ghost predicate Lifted(s: State, t: State, r: int, v: int) {
    && (forall x :: x in t.view <==> x in s.view && x != Va(r, v))
        && (forall x :: x in t.view ==> t.view[x] == s.view[x])
    && t.tab == s.tab && (forall p :: p in s.role ==> p in t.role && t.role[p] == s.role[p])
    && (forall p :: p in s.role && p in s.mem && (s.role[p].User? || s.role[p] == Held) ==>
        p in t.mem && t.mem[p] == s.mem[p])
  }

  lemma LowUsers(s: State, t: State, r: int, v: int)
    requires Unmapped(s, t, r, v, 1, false) && v >= TRAPFRAME_VPN
    requires forall p :: p in s.role && s.role[p].User? ==> s.role[p].v < TRAPFRAME_VPN
    ensures Lifted(s, t, r, v)
  {
    forall x ensures InSpan(x, r, v, 1) <==> x == Va(r, v) {}
  }

  lemma LiftedReleased(s: State, t: State, r: int, v: int, w: State)
    requires Lifted(s, t, r, v) && Released(t, w, r)
    ensures Released(s, w, r)
  {
    forall x ensures x in w.view <==> x in s.view && x.r != r { assert x == Va(r, v) ==> x.r == r; }
  }

  /** t is s with the new page table r. */
  ghost predicate Made(s: State, t: State, r: int) {
    && (forall x :: x in s.view ==> x in t.view && t.view[x] == s.view[x] && x.r != r)
    && (forall x :: x in t.view ==> x in s.view || (x.r == r && x.v >= TRAPFRAME_VPN))
    && TabGrows(s.tab, t.tab) && (forall nd :: nd in s.tab ==> nd.r != r)
        && (forall nd :: nd in t.tab ==> nd in s.tab || nd.r == r)
    && (forall p :: p in s.role ==>
          p in t.role && (t.role[p] == s.role[p] || (s.role[p] == Free && t.role[p].Tab? && t.role[p].nd.r == r)))
    && (forall p :: p in s.role && s.role[p] != Free ==> t.role[p] == s.role[p])
    && Keeps(s.role, s.mem, t.mem)
  }

  /** Memory is as before, but for the content and order of the free pages. */
  ghost predicate Restored(s: State, t: State) {
    t.view == s.view && t.tab == s.tab && t.role == s.role && Keeps(s.role, s.mem, t.mem)
  }

  /** An empty page table, or 0. */
  method Uvmcreate(m: Vm) returns (r: int)
    requires m.Valid()
    modifies m
    ensures m.Valid()
    ensures r == 0 ==> m.St() == old(m.St()) && m.fl == []
    ensures r != 0 ==>
        Made(old(m.St()), m.St(), r) && SizeOk(m.St(), r, 0) && (forall v :: Va(r, v) !in m.view) && r > 0
    ensures r != 0 ==> |m.fl| == |old(m.fl)| - 1
  {
    hide InvExcept, Made, SizeOk;
    ghost var s := m.St();
    r := m.Kalloc();
    if r != 0 {
      TookRoot(m.lo, s);
      m.mem := m.mem[r := Zeros(512)];
      assert m.St() == Take(s, Zeros(512));
      m.role, m.tab := m.role[r := Tab(Root(r))], m.tab[Root(r) := r];
    }
  }

  lemma TookRoot(lo: int, s: State)
    requires Inv(lo, s) && |s.fl| > 0
    ensures s.head in s.mem && |s.mem[s.head]| > 0 && s.head > 0
    ensures var t := AddTable(Take(s, Zeros(512)), s.head, Root(s.head));
            Inv(lo, t) && Made(s, t, s.head) && SizeOk(t, s.head, 0) && (forall v :: Va(s.head, v) !in t.view)
  {
    hide FreeOk, EntryOk, ViewOk, TabOk, Made, SizeOk;
    var r := s.head;
    TakeInv(lo, s, Zeros(512), NoHole);
    NotRooted(lo, s, r);
    AddTableInv(lo, Take(s, Zeros(512)), r, Root(r));
    RootMade(s, r);
  }

  lemma RootMade(s: State, r: int)
    requires r == s.head && r in s.mem && |s.mem[r]| > 0 && r in s.role && s.role[r] == Free && |s.fl| > 0
    requires (forall nd :: nd in s.tab ==> nd.r != r) && (forall x :: x in s.view ==> x.r != r)
    ensures var t := AddTable(Take(s, Zeros(512)), r, Root(r));
        Made(s, t, r) && SizeOk(t, r, 0) && (forall v :: Va(r, v) !in t.view)
  {
  }

  /** A page that is not a table is the root of nothing. */
  lemma NotRooted(lo: int, s: State, r: int)
    requires Inv(lo, s) && r in s.role && !s.role[r].Tab?
    ensures (forall nd :: nd in s.tab ==> nd.r != r) && (forall x :: x in s.view ==> x.r != r)
  {
    hide FreeOk, EntryOk, MemOk;
    assert Root(r) !in s.tab;
    forall nd | nd in s.tab ensures nd.r != r {
      match nd
      case Root(_) =>
      case Mid(_, _) =>
      case Low(_, _) =>
    }
    forall x | x in s.view ensures x.r != r {
      assert x == Va(x.r, x.v) && Low(x.r, x.v / 512) in s.tab;
    }
  }

  lemma HighRoles(lo: int, t: State, u: State, r: int, v: int, k: int, p0: int)
    requires Inv(lo, t) && Inv(lo, u) && MapRoles(t.role, u.role, r, v, k, p0) && v >= TRAPFRAME_VPN
    ensures forall p :: p in t.role ==>
        p in u.role && (u.role[p] == t.role[p] || (t.role[p] == Free && u.role[p].Tab? && u.role[p].nd.r == r))
    ensures forall nd :: nd in u.tab ==> nd in t.tab || nd.r == r
  {
    hide FreeOk, EntryOk;
    SameRoles(lo, t, u);
    forall p | p in t.role ensures u.role[p] == t.role[p]
        || (t.role[p] == Free && u.role[p].Tab? && u.role[p].nd.r == r) {
      assert u.role[p].User? ==> u.role[p].v < TRAPFRAME_VPN;
    }
    forall nd | nd in u.tab ensures nd in t.tab || nd.r == r {
      TabRole(u.role, u.tab, nd);
      var q := u.tab[nd];
      assert q in t.role;
      if t.role[q] == u.role[q] { assert t.role[q].Tab? && t.role[q].nd == nd; }
    }
  }

  /** Mapping a page from TRAPFRAME up, or none. */
  lemma MadeMapped(lo: int, s: State, t: State, u: State, r: int, v: int, k: int, p: int, perm: int)
    requires Inv(lo, t) && Inv(lo, u) && Made(s, t, r) && Mapped(t, u, r, v, k, p, perm) && v >= TRAPFRAME_VPN
    ensures Made(s, u, r)
  {
    hide InvExcept, SpanPtes, MapRoles;
    HighRoles(lo, t, u, r, v, k, p);
  }

  lemma RolesNot(lo: int, s: State, r: int)
    requires Inv(lo, s) && (forall nd :: nd in s.tab ==> nd.r != r) && (forall x :: x in s.view ==> x.r != r)
    ensures forall p :: p in s.role ==>
        (s.role[p].Tab? ==> s.role[p].nd.r != r) && (s.role[p].User? ==> s.role[p].r != r)
  {
    hide FreeOk, EntryOk;
  }

  /** Giving a new page table back restores memory. */
  lemma MadeReleased(lo: int, s: State, t: State, u: State, r: int)
    requires Inv(lo, s) && Inv(lo, u) && Made(s, t, r) && Released(t, u, r)
    ensures Restored(s, u)
  {
    hide FreeOk, EntryOk, ViewOk, TabOk;
    RolesNot(lo, s, r);
    SameRoles(lo, s, u);
    forall p | p in s.role ensures u.role[p] == s.role[p] {
    }
    forall x ensures x in u.view <==> x in s.view {}
    forall nd ensures nd in u.tab <==> nd in s.tab {}
    assert u.view == s.view;
    assert u.tab == s.tab;
    forall p ensures p in u.role <==> p in s.role {}
    assert u.role == s.role;
  }

  /** proc_pagetable: a page table with only the trampoline and trapframe mapped, or 0 with memory as before. */
  method ProcPagetable(m: Vm, trampoline: int, trapframe: int) returns (r: int)
    requires m.Valid() && trampoline >= 0 && trapframe >= 0
    modifies m
    ensures m.Valid()
    ensures r == 0 ==> Restored(old(m.St()), m.St()) && |old(m.fl)| < 5
    ensures r != 0 ==> Made(old(m.St()), m.St(), r) && SizeOk(m.St(), r, 0)
    ensures r != 0 ==> Va(r, TRAPFRAME_VPN) in m.view && m.view[Va(r, TRAPFRAME_VPN)] == MkPte(trapframe, 7)
    ensures r != 0 ==> Va(r, TRAPFRAME_VPN + 1) in m.view && m.view[Va(r, TRAPFRAME_VPN + 1)] == MkPte(trampoline, 11)
  {
    hide InvExcept, Made, Released, Restored, SizeOk, Mapped, MkPte, Unmapped;
    ghost var s := m.St();
    r := Uvmcreate(m);
    if r == 0 {
      RestoredSelf(s);
      return 0;
    }
    ghost var t := m.St();
    SizeBound(m.lo, t, r, 0);
    var ok, k := m.Mappages(r, (TRAPFRAME_VPN + 1) * PGSIZE, PGSIZE, trampoline * PGSIZE, 10);
    ghost var u := m.St();
    MadeMapped(m.lo, s, t, u, r, TRAPFRAME_VPN + 1, k, trampoline, 10);
    HighMapped(t, u, r, TRAPFRAME_VPN + 1, k, trampoline, 10);
    if !ok {
      Uvmfree(m, r, 0);
      MadeReleased(m.lo, s, u, m.St(), r);
      return 0;
    }
    ok, k := m.Mappages(r, TRAPFRAME_VPN * PGSIZE, PGSIZE, trapframe * PGSIZE, 6);
    ghost var w := m.St();
    MadeMapped(m.lo, s, u, w, r, TRAPFRAME_VPN, k, trapframe, 6);
    HighMapped(u, w, r, TRAPFRAME_VPN, k, trapframe, 6);
    if !ok {
      var panic := m.Uvmunmap(r, (TRAPFRAME_VPN + 1) * PGSIZE, 1, false);
      HighUnmapped(m.lo, w, m.St(), r, TRAPFRAME_VPN + 1, 0);
      MadeUnmapped(m.lo, s, w, m.St(), r, TRAPFRAME_VPN + 1);
      ghost var z := m.St();
      Uvmfree(m, r, 0);
      MadeReleased(m.lo, s, z, m.St(), r);
      return 0;
    }
  }

  lemma RestoredSelf(s: State)
    ensures Restored(s, s)
  {
  }

  lemma HighMapped(t: State, u: State, r: int, v: int, k: int, p: int, perm: int)
    requires Mapped(t, u, r, v, k, p, perm) && v >= TRAPFRAME_VPN && 0 <= k <= 1
    ensures SizeOk(t, r, 0) ==> SizeOk(u, r, 0)
    ensures Root(r) in t.tab ==> Root(r) in u.tab
    ensures forall x :: x in u.view <==> x in t.view || (k == 1 && x == Va(r, v))
    ensures forall x :: x in t.view ==> u.view[x] == t.view[x]
    ensures k == 1 ==> u.view[Va(r, v)] == MkPte(p, OrV(perm))
  {
    hide MkPte, OrV;
    forall x ensures InSpan(x, r, v, k) <==> k == 1 && x == Va(r, v) {}
    if k == 1 { assert PteFor(u.view[Va(r, v)], u.role, r, v, p + v - v, perm); }
  }

  lemma MadeUnmapped(lo: int, s: State, t: State, u: State, r: int, v: int)
    requires Inv(lo, t) && Made(s, t, r) && Unmapped(t, u, r, v, 1, false) && v >= TRAPFRAME_VPN
    requires forall p :: p in t.role ==> p in u.role && u.role[p] == t.role[p]
    ensures Made(s, u, r)
  {
    hide InvExcept;
  }
}

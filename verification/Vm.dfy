/**
  The page allocator and Sv39 page tables (kernel/kalloc.c, kernel/vm.c, kernel/riscv.h):
  what the physical pages hold, who owns each page, and the partial map from virtual pages
  to page-table entries that the three-level tree stands for.
 */
module VmModel {

  const KERNBASE_PPN := 0x80000
  const PHYSTOP_PPN := 0x88000
  const PGSIZE := 4096
  const NVPN := 0x400_0000                // MAXVA / PGSIZE = 2^26
  const TRAPFRAME_VPN := NVPN - 2
  const U64 := 0x1_0000_0000_0000_0000

  /** A page-table page: the root r (a physical page), its i-th middle table, the table of 2-MB region u. */
  datatype Node = Root(r: int) | Mid(r: int, i: int) | Low(r: int, u: int)

  /** Virtual page v of the page table rooted at r. */
  datatype Va = Va(r: int, v: int)

  /** What an allocatable page is used for; Held: handed out by kalloc, not (or no longer) in a page table. */
  datatype Role = Free | Held | Tab(nd: Node) | User(r: int, v: int)

  /**
    Physical memory (512 entries in a page-table page, 4096 bytes in a user page), the free
    list head (0: empty), and as history the roles, the free list bottom first, the page of
    each table and the entries of each page table.
   */
  datatype State = State(mem: map<int, seq<int>>, head: int, role: map<int, Role>, fl: seq<int>, tab: map<Node, int>,
      view: map<Va, int>)

  // ----- page-table entries -----

  function MkPte(ppn: int, flags: int): int { ppn * 1024 + flags }

  function Ppn(pte: int): int { pte / 1024 }

  function Flags(pte: int): int { pte % 1024 }

  predicate IsV(pte: int) { pte % 2 == 1 }

  /** One of R, W, X is set. */
  predicate IsLeaf(pte: int) { (pte / 2) % 8 != 0 }

  predicate IsU(pte: int) { (pte / 16) % 2 == 1 }

  predicate IsW(pte: int) { (pte / 4) % 2 == 1 }

  /** PX(level, va) for virtual page v. */
  function Px(level: int, v: int): int
    requires 0 <= level <= 2
  {
    if level == 0 then v % 512 else if level == 1 then (v / 512) % 512 else (v / 512 / 512) % 512
  }

  function PgRoundUp(sz: int): int { (sz + PGSIZE - 1) / PGSIZE * PGSIZE }

  /** The number of pages below sz. */
  function Pages(sz: int): int { (sz + PGSIZE - 1) / PGSIZE }

  function Zeros(n: nat): (z: seq<int>)
    ensures |z| == n && forall i :: 0 <= i < n ==> z[i] == 0
  {
    seq(n, _ => 0)
  }

  // ----- invariants -----

  predicate InRange(lo: int, p: int) { lo <= p < PHYSTOP_PPN }

  predicate RoleFits(ro: Role, w: seq<int>) {
    match ro
    case Tab(_) => |w| == 512
    case User(_, _) => |w| == PGSIZE
    case _ => |w| >= 1
  }

  /** Every allocatable page has one role, and content of that kind. */
  ghost predicate MemOk(lo: int, mem: map<int, seq<int>>, role: map<int, Role>) {
    && KERNBASE_PPN <= lo <= PHYSTOP_PPN
    && (forall p :: p in mem <==> InRange(lo, p))
    && (forall p :: p in role <==> InRange(lo, p))
    && (forall p :: p in mem && p in role ==> RoleFits(role[p], mem[p]))
  }

  /** The page below position i of the free list, 0 at the bottom. */
  function Below(fl: seq<int>, i: int): int { if 0 < i <= |fl| then fl[i - 1] else 0 }

  /** The free list, threaded through the free pages, holds each of them once. */
  ghost predicate FreeOk(mem: map<int, seq<int>>, head: int, role: map<int, Role>, fl: seq<int>) {
    && head == Below(fl, |fl|)
    && (forall i :: 0 <= i < |fl| ==> fl[i] in role && role[fl[i]] == Free && fl[i] in mem && |mem[fl[i]]| >= 1)
    && (forall i {:trigger Below(fl, i)} :: 0 <= i < |fl| ==> mem[fl[i]][0] == Below(fl, i))
    && (forall i, j :: 0 <= i < j < |fl| ==> fl[i] != fl[j])
    && (forall p :: p in role && role[p] == Free ==> p in fl)
  }

  /** Tables and pages correspond, and the tables form trees. */
  ghost predicate TabOk(role: map<int, Role>, tab: map<Node, int>) {
    && (forall nd :: nd in tab ==> tab[nd] in role && role[tab[nd]] == Tab(nd))
    && (forall p :: p in role && role[p].Tab? ==> role[p].nd in tab && tab[role[p].nd] == p)
    && (forall r :: Root(r) in tab ==> tab[Root(r)] == r)
    && (forall r, i :: Mid(r, i) in tab ==> Root(r) in tab && 0 <= i < 512)
    && (forall r, u :: Low(r, u) in tab ==> Mid(r, u / 512) in tab && 0 <= u < 512 * 512)
  }

  /** Each owned leaf below TRAPFRAME has its own physical page, and only those pages are user pages. */
  ghost predicate ViewOk(role: map<int, Role>, tab: map<Node, int>, view: map<Va, int>) {
    && (forall r, v :: Va(r, v) in view ==>
          Low(r, v / 512) in tab && 0 <= v < NVPN && IsV(view[Va(r, v)]) && IsLeaf(view[Va(r, v)])
              && view[Va(r, v)] >= 0)
    && (forall r, v :: Va(r, v) in view && v < TRAPFRAME_VPN ==>
          Ppn(view[Va(r, v)]) in role && role[Ppn(view[Va(r, v)])] == User(r, v))
    && (forall p :: p in role && role[p].User? ==>
          var x := Va(role[p].r, role[p].v); x in view && x.v < TRAPFRAME_VPN && Ppn(view[x]) == p)
  }

  function EntryAt(mem: map<int, seq<int>>, tab: map<Node, int>, nd: Node, idx: int): int {
    if nd in tab && tab[nd] in mem && 0 <= idx < |mem[tab[nd]]| then mem[tab[nd]][idx] else 0
  }

  /** The entry that points to table nd, or 0. */
  function Pointer(tab: map<Node, int>, nd: Node): int { if nd in tab then MkPte(tab[nd], 1) else 0 }

  function Leaf(view: map<Va, int>, x: Va): int { if x in view then view[x] else 0 }

  /** The one entry a table may still hold after what it points to was given up: a table's, or a leaf. */
  datatype Hole = NoHole | AtNode(nd: Node) | AtLeaf(x: Va)

  /** The tables in memory say exactly what `tab` and `view` say, except perhaps for the hole. */
  ghost predicate EntryOk(mem: map<int, seq<int>>, tab: map<Node, int>, view: map<Va, int>, hole: Hole) {
    && (forall r, i {:trigger Mid(r, i)} :: Root(r) in tab && 0 <= i < 512 && AtNode(Mid(r, i)) != hole ==>
          EntryAt(mem, tab, Root(r), i) == Pointer(tab, Mid(r, i)))
    && (forall r, u {:trigger Low(r, u)} ::
          Mid(r, u / 512) in tab && 0 <= u < 512 * 512 && AtNode(Low(r, u)) != hole ==>
          EntryAt(mem, tab, Mid(r, u / 512), u % 512) == Pointer(tab, Low(r, u)))
    && (forall r, v {:trigger Va(r, v)} ::
          Low(r, v / 512) in tab && 0 <= v < 512 * 512 * 512 && AtLeaf(Va(r, v)) != hole ==>
          EntryAt(mem, tab, Low(r, v / 512), v % 512) == Leaf(view, Va(r, v)))
  }

  ghost predicate InvExcept(lo: int, s: State, hole: Hole) {
    && MemOk(lo, s.mem, s.role) && FreeOk(s.mem, s.head, s.role, s.fl)
    && TabOk(s.role, s.tab) && ViewOk(s.role, s.tab, s.view)
    && EntryOk(s.mem, s.tab, s.view, hole)
  }

  ghost predicate Inv(lo: int, s: State) { InvExcept(lo, s, NoHole) }

  // ----- kalloc and kfree -----

  /** kalloc takes the top of the free list and fills it with content w. */
  function Take(s: State, w: seq<int>): State
    requires |s.fl| > 0 && s.head in s.mem && |s.mem[s.head]| > 0
  {
    s.(mem := s.mem[s.head := w], head := s.mem[s.head][0], role := s.role[s.head := Held], fl := s.fl[..|s.fl| - 1])
  }

  lemma InTake(fl: seq<int>, p: int)
    requires p in fl && p != fl[|fl| - 1]
    ensures p in fl[..|fl| - 1]
  {
    var i :| 0 <= i < |fl| && fl[i] == p;
    assert fl[..|fl| - 1][i] == p;
  }

  lemma TakeFree(mem: map<int, seq<int>>, head: int, role: map<int, Role>, fl: seq<int>, w: seq<int>)
    requires FreeOk(mem, head, role, fl) && |fl| > 0
    ensures head in role && role[head] == Free && head in mem && |mem[head]| > 0
    ensures FreeOk(mem[head := w], mem[head][0], role[head := Held], fl[..|fl| - 1])
  {
    var n := |fl| - 1;
    var role2, fl2 := role[head := Held], fl[..n];
    var mem2 := mem[head := w];
    assert head == fl[n] && mem[head][0] == Below(fl, n) == Below(fl2, n);
    forall i | 0 <= i < |fl2|
      ensures fl2[i] in role2 && role2[fl2[i]] == Free && fl2[i] in mem2 && mem2[fl2[i]] == mem[fl[i]]
    {
      assert fl2[i] == fl[i] && fl[i] != head;
    }
    forall i {:trigger Below(fl2, i)} | 0 <= i < |fl2| ensures mem2[fl2[i]][0] == Below(fl2, i) {
      assert Below(fl, i) == Below(fl2, i);
    }
    forall p | p in role2 && role2[p] == Free ensures p in fl2 {
      assert p != head && p in role && role[p] == Free;
      InTake(fl, p);
    }
  }

  lemma PutFree(mem: map<int, seq<int>>, head: int, role: map<int, Role>, fl: seq<int>, p: int, w: seq<int>)
    requires FreeOk(mem, head, role, fl) && p in role && role[p] != Free && |w| >= 1
    ensures FreeOk(mem[p := w[0 := head]], p, role[p := Free], fl + [p])
  {
    var n, role2, fl2 := |fl|, role[p := Free], fl + [p];
    var mem2 := mem[p := w[0 := head]];
    assert fl2[n] == p == Below(fl2, n + 1) && Below(fl2, n) == Below(fl, n);
    forall i | 0 <= i < n ensures fl2[i] == fl[i] && fl[i] != p {}
    forall i {:trigger Below(fl2, i)} | 0 <= i < |fl2| ensures mem2[fl2[i]][0] == Below(fl2, i) {
      assert i < n ==> fl2[i] == fl[i] && Below(fl, i) == Below(fl2, i);
    }
    forall q | q in role2 && role2[q] == Free ensures q in fl2 {
      if q != p {
        var i :| 0 <= i < |fl| && fl[i] == q;
        assert fl2[i] == q;
      }
    }
  }

  /** A page that is and stays outside the page tables changes role. */
  lemma RoleTab(role: map<int, Role>, tab: map<Node, int>, p: int, ro: Role)
    requires TabOk(role, tab) && p in role && !role[p].Tab? && !ro.Tab?
    ensures TabOk(role[p := ro], tab)
  {
  }

  lemma RoleView(role: map<int, Role>, tab: map<Node, int>, view: map<Va, int>, p: int, ro: Role)
    requires ViewOk(role, tab, view) && p in role && !role[p].User? && !ro.User?
    ensures ViewOk(role[p := ro], tab, view)
  {
  }

  lemma RoleFree(mem: map<int, seq<int>>, head: int, role: map<int, Role>, fl: seq<int>, p: int, ro: Role, w: seq<int>)
    requires FreeOk(mem, head, role, fl) && p in role && role[p] != Free && ro != Free
    ensures FreeOk(mem[p := w], head, role[p := ro], fl)
  {
    var role2 := role[p := ro];
    forall i | 0 <= i < |fl| ensures fl[i] != p {}
    forall q | q in role2 && role2[q] == Free ensures q in fl { assert q != p && q in role; }
  }

  lemma MemEntry(mem: map<int, seq<int>>, role: map<int, Role>, tab: map<Node, int>, view: map<Va, int>, hole: Hole,
      p: int, w: seq<int>)
    requires EntryOk(mem, tab, view, hole) && TabOk(role, tab) && p in role && !role[p].Tab?
    ensures EntryOk(mem[p := w], tab, view, hole)
  {
    var mem2 := mem[p := w];
    forall nd, idx ensures EntryAt(mem2, tab, nd, idx) == EntryAt(mem, tab, nd, idx) {}
  }

  lemma TakeInv(lo: int, s: State, w: seq<int>, hole: Hole)
    requires InvExcept(lo, s, hole) && |s.fl| > 0 && |w| >= 1
    ensures s.head in s.role && s.role[s.head] == Free && s.head in s.mem && |s.mem[s.head]| > 0
    ensures InvExcept(lo, Take(s, w), hole)
  {
    hide FreeOk, TabOk, ViewOk, EntryOk;
    TakeFree(s.mem, s.head, s.role, s.fl, w);
    RoleTab(s.role, s.tab, s.head, Held);
    RoleView(s.role, s.tab, s.view, s.head, Held);
    MemEntry(s.mem, s.role, s.tab, s.view, hole, s.head, w);
  }

  /** kfree pushes page p, writing the link into its first word (the rest, w, is junk). */
  function Put(s: State, p: int, w: seq<int>): State
    requires |w| >= 1
  {
    s.(mem := s.mem[p := w[0 := s.head]], head := p, role := s.role[p := Free], fl := s.fl + [p])
  }

  lemma PutInv(lo: int, s: State, p: int, w: seq<int>, hole: Hole)
    requires InvExcept(lo, s, hole) && p in s.role && s.role[p] == Held && |w| >= 1
    ensures InvExcept(lo, Put(s, p, w), hole)
  {
    hide FreeOk, TabOk, ViewOk, EntryOk;
    PutFree(s.mem, s.head, s.role, s.fl, p, w);
    RoleTab(s.role, s.tab, p, Free);
    RoleView(s.role, s.tab, s.view, p, Free);
    MemEntry(s.mem, s.role, s.tab, s.view, hole, p, w[0 := s.head]);
  }

  // ----- writing entries -----

  /** The table, and the index in it, that points to table nd. */
  function ParentOf(nd: Node): (Node, int) {
    match nd
    case Root(r) => (nd, 0)
    case Mid(r, i) => (Root(r), i)
    case Low(r, u) => (Mid(r, u / 512), u % 512)
  }

  function SetEntry(mem: map<int, seq<int>>, p: int, idx: int, e: int): map<int, seq<int>>
    requires p in mem && 0 <= idx < |mem[p]|
  {
    mem[p := mem[p][idx := e]]
  }

  /** Writing one entry of table pn changes that entry and no other. */
  lemma EntrySet(mem: map<int, seq<int>>, role: map<int, Role>, tab: map<Node, int>, pn: Node, idx: int, e: int)
    requires TabOk(role, tab) && pn in tab && tab[pn] in mem && 0 <= idx < |mem[tab[pn]]|
    ensures var mem2 := SetEntry(mem, tab[pn], idx, e);
            forall nd, x {:trigger EntryAt(mem2, tab, nd, x)} ::
              EntryAt(mem2, tab, nd, x) == (if nd == pn && x == idx then e else EntryAt(mem, tab, nd, x))
  {
  }

  /** Adding a table with no entries. */
  lemma AddTab(role: map<int, Role>, tab: map<Node, int>, p: int, nd: Node)
    requires TabOk(role, tab) && p in role && !role[p].Tab? && nd !in tab
    requires nd.Root? ==> nd.r == p
    requires !nd.Root? ==> ParentOf(nd).0 in tab && (nd.Mid? ==> 0 <= nd.i < 512) && (nd.Low? ==> 0 <= nd.u < 512 * 512)
    ensures TabOk(role[p := Tab(nd)], tab[nd := p])
  {
  }

  lemma AddView(role: map<int, Role>, tab: map<Node, int>, view: map<Va, int>, p: int, nd: Node)
    requires ViewOk(role, tab, view) && p in role && !role[p].User?
    ensures ViewOk(role[p := Tab(nd)], tab[nd := p], view)
  {
  }

  lemma AddEntry(mem: map<int, seq<int>>, role: map<int, Role>, tab: map<Node, int>, view: map<Va, int>, p: int,
      nd: Node)
    requires EntryOk(mem, tab, view, NoHole) && TabOk(role, tab) && ViewOk(role, tab, view)
    requires p in role && !role[p].Tab? && nd !in tab && p in mem && mem[p] == Zeros(512)
    requires nd.Root? ==> nd.r == p
    requires !nd.Root? ==>
        ParentOf(nd).0 in tab && tab[ParentOf(nd).0] in mem && 0 <= ParentOf(nd).1 < |mem[tab[ParentOf(nd).0]]|
    ensures nd.Root? ==> EntryOk(mem, tab[nd := p], view, NoHole)
    ensures !nd.Root? ==>
              EntryOk(SetEntry(mem, tab[ParentOf(nd).0], ParentOf(nd).1, MkPte(p, 1)), tab[nd := p], view, NoHole)
  {
    var tab2 := tab[nd := p];
    var mem2 := if nd.Root? then mem else SetEntry(mem, tab[ParentOf(nd).0], ParentOf(nd).1, MkPte(p, 1));
    forall a, x ensures EntryAt(mem2, tab2, a, x) ==
        (if a == nd then 0 else if !nd.Root? && (a, x) == ParentOf(nd) then MkPte(p, 1) else EntryAt(mem, tab, a, x)) {
    }
    forall r, u | Mid(r, u / 512) in tab2 && 0 <= u < 512 * 512
      ensures EntryAt(mem2, tab2, Mid(r, u / 512), u % 512) == Pointer(tab2, Low(r, u))
    {
    }
  }

  /** walk (and uvmcreate) turns the zeroed page p into table nd. */
  function AddTable(s: State, p: int, nd: Node): State
    requires !nd.Root? ==>
      var (pn, idx) := ParentOf(nd); pn in s.tab && s.tab[pn] in s.mem && 0 <= idx < |s.mem[s.tab[pn]]|
  {
    var mem2 := if nd.Root? then s.mem else SetEntry(s.mem, s.tab[ParentOf(nd).0], ParentOf(nd).1, MkPte(p, 1));
    s.(mem := mem2, role := s.role[p := Tab(nd)], tab := s.tab[nd := p])
  }

  /** What makes nd a table that can be added to, or found in, a tree. */
  predicate NodeOk(tab: map<Node, int>, nd: Node) {
    match nd
    case Root(_) => true
    case Mid(r, i) => Root(r) in tab && 0 <= i < 512
    case Low(r, u) => Mid(r, u / 512) in tab && 0 <= u < 512 * 512
  }

  /** A table page has 512 entries. */
  lemma TablePage(lo: int, s: State, nd: Node)
    requires MemOk(lo, s.mem, s.role) && TabOk(s.role, s.tab) && nd in s.tab
    ensures s.tab[nd] in s.mem && |s.mem[s.tab[nd]]| == 512 && InRange(lo, s.tab[nd])
  {
    assert s.tab[nd] in s.role && InRange(lo, s.tab[nd]) && s.tab[nd] in s.mem;
    assert RoleFits(s.role[s.tab[nd]], s.mem[s.tab[nd]]);
  }

  lemma AddTableInv(lo: int, s: State, p: int, nd: Node)
    requires Inv(lo, s) && p in s.role && s.role[p] == Held && p in s.mem && s.mem[p] == Zeros(512)
    requires nd !in s.tab && NodeOk(s.tab, nd) && (nd.Root? ==> nd.r == p)
    ensures !nd.Root? ==> var (pn, idx) := ParentOf(nd); s.tab[pn] in s.mem && 0 <= idx < |s.mem[s.tab[pn]]|
    ensures Inv(lo, AddTable(s, p, nd))
  {
    hide FreeOk, TabOk, ViewOk, EntryOk;
    if !nd.Root? { TablePage(lo, s, ParentOf(nd).0); }
    AddTab(s.role, s.tab, p, nd);
    AddView(s.role, s.tab, s.view, p, nd);
    AddEntry(s.mem, s.role, s.tab, s.view, p, nd);
    AddTableFree(s, p, nd);
  }

  lemma AddTableFree(s: State, p: int, nd: Node)
    requires FreeOk(s.mem, s.head, s.role, s.fl) && TabOk(s.role, s.tab) && p in s.role && s.role[p] == Held
        && p in s.mem
    requires !nd.Root? ==>
      var (pn, idx) := ParentOf(nd); pn in s.tab && s.tab[pn] in s.mem && 0 <= idx < |s.mem[s.tab[pn]]|
    ensures var t := AddTable(s, p, nd); FreeOk(t.mem, t.head, t.role, t.fl)
  {
    hide TabOk;
    RoleFree(s.mem, s.head, s.role, s.fl, p, Tab(nd), s.mem[p]);
    assert s.mem[p := s.mem[p]] == s.mem;
    if !nd.Root? {
      var (pn, idx) := ParentOf(nd);
      var q := s.tab[pn];
      assert q in s.role && s.role[q] == Tab(pn) by { assert TabOk(s.role, s.tab); TabRole(s.role, s.tab, pn); }
      var role2 := s.role[p := Tab(nd)];
      RoleFree(s.mem, s.head, role2, s.fl, q, role2[q], s.mem[q][idx := MkPte(p, 1)]);
      assert role2[q := role2[q]] == role2;
    }
  }

  lemma TabRole(role: map<int, Role>, tab: map<Node, int>, nd: Node)
    requires TabOk(role, tab) && nd in tab
    ensures tab[nd] in role && role[tab[nd]] == Tab(nd)
  {
  }

  // ----- leaves -----

  /** mappages writes the entry of virtual page v. */
  function SetLeaf(s: State, r: int, v: int, pte: int): State
    requires Low(r, v / 512) in s.tab && s.tab[Low(r, v / 512)] in s.mem && v % 512 < |s.mem[s.tab[Low(r, v / 512)]]|
  {
    s.(mem := SetEntry(s.mem, s.tab[Low(r, v / 512)], v % 512, pte), view := s.view[Va(r, v) := pte],
       role := if v < TRAPFRAME_VPN then s.role[Ppn(pte) := User(r, v)] else s.role)
  }

  lemma SetLeafInv(lo: int, s: State, r: int, v: int, pte: int)
    requires Inv(lo, s) && Low(r, v / 512) in s.tab && 0 <= v < NVPN && Va(r, v) !in s.view
    requires IsV(pte) && IsLeaf(pte) && pte >= 0
    requires v < TRAPFRAME_VPN ==> Ppn(pte) in s.role && s.role[Ppn(pte)] == Held && |s.mem[Ppn(pte)]| == PGSIZE
    ensures s.tab[Low(r, v / 512)] in s.mem && v % 512 < |s.mem[s.tab[Low(r, v / 512)]]|
    ensures Inv(lo, SetLeaf(s, r, v, pte))
  {
    hide FreeOk, TabOk, ViewOk, EntryOk;
    var nd, t := Low(r, v / 512), s.tab[Low(r, v / 512)];
    TablePage(lo, s, nd);
    TabRole(s.role, s.tab, nd);
    RoleFree(s.mem, s.head, s.role, s.fl, t, Tab(nd), s.mem[t][v % 512 := pte]);
    assert s.role[t := Tab(nd)] == s.role;
    LeafEntry(s.mem, s.role, s.tab, s.view, r, v, pte, NoHole);
    LeafView(s.role, s.tab, s.view, r, v, pte);
    if v < TRAPFRAME_VPN {
      var p, mem2 := Ppn(pte), SetEntry(s.mem, t, v % 512, pte);
      RoleFree(mem2, s.head, s.role, s.fl, p, User(r, v), mem2[p]);
      assert mem2[p := mem2[p]] == mem2;
      RoleTab(s.role, s.tab, p, User(r, v));
    }
  }

  /** The leaf entry of virtual page v becomes e (0: none). */
  lemma LeafEntry(mem: map<int, seq<int>>, role: map<int, Role>, tab: map<Node, int>, view: map<Va, int>, r: int,
      v: int, e: int,
                  hole: Hole)
    requires EntryOk(mem, tab, view, hole) && TabOk(role, tab) && Low(r, v / 512) in tab
        && (hole == NoHole || hole == AtLeaf(Va(r, v)))
    requires tab[Low(r, v / 512)] in mem && |mem[tab[Low(r, v / 512)]]| == 512
    ensures var mem2 := SetEntry(mem, tab[Low(r, v / 512)], v % 512, e);
            && EntryOk(mem2, tab, view[Va(r, v) := e], NoHole)
            && (e == 0 && Va(r, v) !in view ==> EntryOk(mem2, tab, view, NoHole))
  {
    EntrySet(mem, role, tab, Low(r, v / 512), v % 512, e);
  }

  lemma LeafView(role: map<int, Role>, tab: map<Node, int>, view: map<Va, int>, r: int, v: int, pte: int)
    requires ViewOk(role, tab, view) && Low(r, v / 512) in tab && 0 <= v < NVPN && Va(r, v) !in view
    requires IsV(pte) && IsLeaf(pte) && pte >= 0
    requires v < TRAPFRAME_VPN ==> Ppn(pte) in role && role[Ppn(pte)] == Held
    ensures ViewOk(if v < TRAPFRAME_VPN then role[Ppn(pte) := User(r, v)] else role, tab, view[Va(r, v) := pte])
  {
  }

  /** uvmunmap gives up the mapping of virtual page v; its entry is still in the table. */
  function DropLeaf(s: State, r: int, v: int): State
    requires Va(r, v) in s.view
  {
    s.(view := s.view - {Va(r, v)}, role := if v < TRAPFRAME_VPN then s.role[Ppn(s.view[Va(r, v)]) := Held] else s.role)
  }

  lemma DropLeafInv(lo: int, s: State, r: int, v: int)
    requires Inv(lo, s) && Va(r, v) in s.view
    ensures InvExcept(lo, DropLeaf(s, r, v), AtLeaf(Va(r, v)))
    ensures 0 <= v && Low(r, v / 512) in s.tab
    ensures v < TRAPFRAME_VPN ==> var p := Ppn(s.view[Va(r, v)]);
        p in s.role && s.role[p] == User(r, v) && InRange(lo, p)
  {
    hide FreeOk, TabOk, EntryOk;
    var p := Ppn(s.view[Va(r, v)]);
    DropEntry(s.mem, s.tab, s.view, Va(r, v));
    if v < TRAPFRAME_VPN {
      RoleTab(s.role, s.tab, p, Held);
      RoleFree(s.mem, s.head, s.role, s.fl, p, Held, s.mem[p]);
      assert s.mem[p := s.mem[p]] == s.mem;
    }
  }

  lemma DropEntry(mem: map<int, seq<int>>, tab: map<Node, int>, view: map<Va, int>, x: Va)
    requires EntryOk(mem, tab, view, NoHole)
    ensures EntryOk(mem, tab, view - {x}, AtLeaf(x))
  {
  }

  /** uvmunmap clears the entry. */
  function ClearLeaf(s: State, r: int, v: int): State
    requires Low(r, v / 512) in s.tab && s.tab[Low(r, v / 512)] in s.mem && v % 512 < |s.mem[s.tab[Low(r, v / 512)]]|
  {
    s.(mem := SetEntry(s.mem, s.tab[Low(r, v / 512)], v % 512, 0))
  }

  lemma ClearLeafInv(lo: int, s: State, r: int, v: int)
    requires InvExcept(lo, s, AtLeaf(Va(r, v))) && Va(r, v) !in s.view && Low(r, v / 512) in s.tab
    ensures s.tab[Low(r, v / 512)] in s.mem && v % 512 < |s.mem[s.tab[Low(r, v / 512)]]|
    ensures Inv(lo, ClearLeaf(s, r, v))
  {
    hide FreeOk, TabOk, ViewOk, EntryOk;
    var nd, t := Low(r, v / 512), s.tab[Low(r, v / 512)];
    TablePage(lo, s, nd);
    TabRole(s.role, s.tab, nd);
    LeafEntry(s.mem, s.role, s.tab, s.view, r, v, 0, AtLeaf(Va(r, v)));
    RoleFree(s.mem, s.head, s.role, s.fl, t, Tab(nd), s.mem[t][v % 512 := 0]);
    assert s.role[t := Tab(nd)] == s.role;
  }

  // ----- giving up tables -----

  /** Nothing hangs below table nd. */
  ghost predicate Empty(tab: map<Node, int>, view: map<Va, int>, nd: Node) {
    match nd
    case Root(r) => forall i :: Mid(r, i) !in tab
    case Mid(r, i) => forall u :: 0 <= u && u / 512 == i ==> Low(r, u) !in tab
    case Low(r, u) => forall v :: 0 <= v && v / 512 == u ==> Va(r, v) !in view
  }

  /** freewalk gives up an empty table; the entry that points to it is still there. */
  function DropTable(s: State, nd: Node): State
    requires nd in s.tab
  {
    s.(tab := s.tab - {nd}, role := s.role[s.tab[nd] := Held])
  }

  function HoleOf(nd: Node): Hole { if nd.Root? then NoHole else AtNode(nd) }

  lemma DropTableInv(lo: int, s: State, nd: Node)
    requires Inv(lo, s) && nd in s.tab && Empty(s.tab, s.view, nd)
    ensures InvExcept(lo, DropTable(s, nd), HoleOf(nd))
    ensures s.tab[nd] in s.role && s.role[s.tab[nd]] == Tab(nd) && InRange(lo, s.tab[nd])
  {
    hide FreeOk, TabOk, ViewOk, EntryOk;
    var p := s.tab[nd];
    TabRole(s.role, s.tab, nd);
    RoleFree(s.mem, s.head, s.role, s.fl, p, Held, s.mem[p]);
    assert s.mem[p := s.mem[p]] == s.mem;
    DropTab(s.role, s.tab, s.view, nd);
    DropView(s.role, s.tab, s.view, nd);
    DropPointer(s.mem, s.role, s.tab, s.view, nd);
  }

  lemma DropTab(role: map<int, Role>, tab: map<Node, int>, view: map<Va, int>, nd: Node)
    requires TabOk(role, tab) && nd in tab && Empty(tab, view, nd)
    ensures TabOk(role[tab[nd] := Held], tab - {nd})
  {
  }

  lemma DropView(role: map<int, Role>, tab: map<Node, int>, view: map<Va, int>, nd: Node)
    requires ViewOk(role, tab, view) && TabOk(role, tab) && nd in tab && Empty(tab, view, nd)
    ensures ViewOk(role[tab[nd] := Held], tab - {nd}, view)
  {
  }

  lemma DropPointer(mem: map<int, seq<int>>, role: map<int, Role>, tab: map<Node, int>, view: map<Va, int>, nd: Node)
    requires EntryOk(mem, tab, view, NoHole) && TabOk(role, tab) && nd in tab
    ensures EntryOk(mem, tab - {nd}, view, HoleOf(nd))
  {
    var tab2 := tab - {nd};
    forall a, x | a in tab2 ensures EntryAt(mem, tab2, a, x) == EntryAt(mem, tab, a, x) {}
  }

  /** freewalk clears the entry that pointed to a table it has freed. */
  function ClearPointer(s: State, nd: Node): State
    requires var (pn, idx) := ParentOf(nd); pn in s.tab && s.tab[pn] in s.mem && 0 <= idx < |s.mem[s.tab[pn]]|
  {
    s.(mem := SetEntry(s.mem, s.tab[ParentOf(nd).0], ParentOf(nd).1, 0))
  }

  lemma ClearPointerInv(lo: int, s: State, nd: Node)
    requires InvExcept(lo, s, AtNode(nd)) && !nd.Root? && nd !in s.tab && NodeOk(s.tab, nd)
    ensures var (pn, idx) := ParentOf(nd); s.tab[pn] in s.mem && 0 <= idx < |s.mem[s.tab[pn]]|
    ensures Inv(lo, ClearPointer(s, nd))
  {
    hide FreeOk, TabOk, ViewOk, EntryOk;
    var (pn, idx) := ParentOf(nd);
    var q := s.tab[pn];
    TablePage(lo, s, pn);
    TabRole(s.role, s.tab, pn);
    RoleFree(s.mem, s.head, s.role, s.fl, q, Tab(pn), s.mem[q][idx := 0]);
    assert s.role[q := Tab(pn)] == s.role;
    PointerEntry(s.mem, s.role, s.tab, s.view, nd);
  }

  lemma PointerEntry(mem: map<int, seq<int>>, role: map<int, Role>, tab: map<Node, int>, view: map<Va, int>, nd: Node)
    requires EntryOk(mem, tab, view, AtNode(nd)) && TabOk(role, tab) && !nd.Root? && nd !in tab && NodeOk(tab, nd)
    requires var (pn, idx) := ParentOf(nd); tab[pn] in mem && |mem[tab[pn]]| == 512
    ensures EntryOk(SetEntry(mem, tab[ParentOf(nd).0], ParentOf(nd).1, 0), tab, view, NoHole)
  {
    EntrySet(mem, role, tab, ParentOf(nd).0, ParentOf(nd).1, 0);
  }

  // ----- the tree stands for a partial map -----

  function WordAt(mem: map<int, seq<int>>, p: int, idx: int): int {
    if p in mem && 0 <= idx < |mem[p]| then mem[p][idx] else 0
  }

  /** What the hardware finds for virtual page v when satp points to page r: the level-0 entry, 0 on a fault above. */
  function Hardware(mem: map<int, seq<int>>, r: int, v: int): int {
    var e2 := WordAt(mem, r, Px(2, v));
    if !IsV(e2) then 0
    else
      var e1 := WordAt(mem, Ppn(e2), Px(1, v));
      if !IsV(e1) then 0 else WordAt(mem, Ppn(e1), Px(0, v))
  }

  lemma PointerWord(s: State, nd: Node)
    requires EntryOk(s.mem, s.tab, s.view, NoHole) && !nd.Root? && NodeOk(s.tab, nd)
    ensures WordAt(s.mem, s.tab[ParentOf(nd).0], ParentOf(nd).1) == Pointer(s.tab, nd)
  {
    assert EntryAt(s.mem, s.tab, ParentOf(nd).0, ParentOf(nd).1) == Pointer(s.tab, nd);
  }

  lemma LeafWord(s: State, r: int, v: int)
    requires EntryOk(s.mem, s.tab, s.view, NoHole) && Low(r, v / 512) in s.tab && 0 <= v < NVPN
    ensures WordAt(s.mem, s.tab[Low(r, v / 512)], v % 512) == Leaf(s.view, Va(r, v))
  {
    assert EntryAt(s.mem, s.tab, Low(r, v / 512), v % 512) == Leaf(s.view, Va(r, v));
  }

  lemma PointerBits(p: int)
    requires p >= 0
    ensures IsV(MkPte(p, 1)) && Ppn(MkPte(p, 1)) == p && !IsLeaf(MkPte(p, 1)) && !IsV(0)
  {
    var e := MkPte(p, 1);
    assert e == 2 * (512 * p) + 1 && e / 2 == 8 * (64 * p);
  }

  /** The page of a root is the root; the indices of a virtual page select its tables. */
  lemma Indices(v: int)
    requires 0 <= v < NVPN
    ensures Px(0, v) == v % 512 && Px(1, v) == (v / 512) % 512 && Px(2, v) == v / 512 / 512
    ensures 0 <= v / 512 / 512 < 256 && 0 <= v / 512 < 512 * 512
  {
  }

  /** The tables in memory translate every virtual page exactly as the partial map says. */
  lemma HardwareIsView(lo: int, s: State, r: int, v: int)
    requires Inv(lo, s) && Root(r) in s.tab && 0 <= v < NVPN
    ensures Hardware(s.mem, r, v) == Leaf(s.view, Va(r, v))
  {
    hide FreeOk, EntryOk, MkPte, Ppn, IsV, Px, IsLeaf;
    var i, u := v / 512 / 512, v / 512;
    Indices(v);
    PointerBits(0);
    PointerWord(s, Mid(r, i));
    if Mid(r, i) in s.tab {
      TablePage(lo, s, Mid(r, i));
      PointerBits(s.tab[Mid(r, i)]);
      PointerWord(s, Low(r, u));
      if Low(r, u) in s.tab {
        TablePage(lo, s, Low(r, u));
        PointerBits(s.tab[Low(r, u)]);
        LeafWord(s, r, v);
      }
    }
  }

  /** Distinct virtual pages below TRAPFRAME never share a physical page, in one table or in two. */
  lemma NoSharing(lo: int, s: State, x: Va, y: Va)
    requires Inv(lo, s) && x in s.view && y in s.view && x.v < TRAPFRAME_VPN && y.v < TRAPFRAME_VPN
    requires Ppn(s.view[x]) == Ppn(s.view[y])
    ensures x == y
  {
    hide FreeOk, MemOk, TabOk, EntryOk;
    assert x == Va(x.r, x.v) && y == Va(y.r, y.v);
  }

  /** Free list, page-table pages, user pages and held pages partition the allocatable pages. */
  lemma Partition(lo: int, s: State, p: int)
    requires Inv(lo, s)
    ensures p in s.fl ==> InRange(lo, p) && s.role[p] == Free
    ensures (exists nd :: nd in s.tab && s.tab[nd] == p) ==> InRange(lo, p) && s.role[p].Tab?
    ensures (exists x :: x in s.view && x.v < TRAPFRAME_VPN && Ppn(s.view[x]) == p) ==>
        InRange(lo, p) && s.role[p].User?
    ensures InRange(lo, p) ==>
              match s.role[p]
              case Free => p in s.fl
              case Tab(nd) => nd in s.tab && s.tab[nd] == p
              case User(r, v) => Va(r, v) in s.view && v < TRAPFRAME_VPN && Ppn(s.view[Va(r, v)]) == p
              case Held => p !in s.fl
  {
    hide EntryOk;
    if x :| x in s.view && x.v < TRAPFRAME_VPN && Ppn(s.view[x]) == p { assert x == Va(x.r, x.v); }
  }

  // ----- the pigeonhole -----

  function Images(view: map<Va, int>, r: int, n: nat): set<int> {
    set v {:trigger Va(r, v)} | 0 <= v < n && Va(r, v) in view :: Ppn(view[Va(r, v)])
  }

  lemma ImagesStep(view: map<Va, int>, r: int, n: int)
    requires n > 0 && Va(r, n - 1) in view
    ensures Images(view, r, n) == Images(view, r, n - 1) + {Ppn(view[Va(r, n - 1)])}
  {
    hide Ppn;
  }

  lemma {:induction false} ImagesSize(lo: int, s: State, r: int, n: nat)
    requires Inv(lo, s) && n <= TRAPFRAME_VPN && forall v :: 0 <= v < n ==> Va(r, v) in s.view
    ensures |Images(s.view, r, n)| == n && forall p :: p in Images(s.view, r, n) ==> InRange(lo, p)
  {
    hide FreeOk, TabOk, EntryOk;
    if n == 0 {
      assert Images(s.view, r, 0) == {};
    } else {
      ImagesSize(lo, s, r, n - 1);
      var p := Ppn(s.view[Va(r, n - 1)]);
      forall v | 0 <= v < n - 1 ensures Ppn(s.view[Va(r, v)]) != p {
        if Ppn(s.view[Va(r, v)]) == p { NoSharing(lo, s, Va(r, v), Va(r, n - 1)); }
      }
      assert InRange(lo, p);
      ImagesStep(s.view, r, n);
    }
  }

  lemma {:induction false} RangeSize(a: set<int>, lo: int, hi: int)
    requires forall p :: p in a ==> lo <= p < hi
    requires lo <= hi
    ensures |a| <= hi - lo
    decreases hi - lo
  {
    if lo == hi {
      assert a == {};
    } else {
      RangeSize(a - {hi - 1}, lo, hi - 1);
    }
  }

  /** If virtual pages [0, n) are all mapped there are at least n allocatable pages. */
  lemma Pigeonhole(lo: int, s: State, r: int, n: nat)
    requires Inv(lo, s) && n <= TRAPFRAME_VPN && forall v :: 0 <= v < n ==> Va(r, v) in s.view
    ensures n <= PHYSTOP_PPN - lo
  {
    hide FreeOk, TabOk, EntryOk, ViewOk;
    ImagesSize(lo, s, r, n);
    RangeSize(Images(s.view, r, n), lo, PHYSTOP_PPN);
  }
}

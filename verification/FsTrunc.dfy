/** kernel/fs.c itrunc and bfree: a file gives back exactly its own blocks. */
module FsTrunc {
  import opened FsModel
  import opened FsCode

  /** The invariant but for the block lists. */
  ghost predicate Base(s: State) {
    BitsOk(s.bits, s.role) && ContentOk(s.blocks, s.role) && OwnOk(s.role, s.file, s.ind, s.inodes) && |s.bits| > 0
  }

  /** The lists of all files but i. */
  ghost predicate ListsBut(inodes: map<int, Inode>, blocks: map<int, seq<int>>, file: map<Slot, int>, ind: map<int,
      int>, i: int) {
    forall j :: j in inodes && j != i ==> ListOk(inodes[j], j, blocks, file, ind)
  }

  /** Block n of file i, number b, is off the list and free. */
  function DropData(s: State, i: int, n: int, b: int): State
    requires 0 <= b < |s.bits|
  {
    s.(bits := s.bits[b := false], role := s.role[b := Free], file := s.file - {Slot(i, n)})
  }

  lemma DropDataBase(s: State, i: int, n: int)
    requires Base(s) && Slot(i, n) in s.file
    ensures var b := s.file[Slot(i, n)]; 0 < b < |s.bits| && s.bits[b] && Base(DropData(s, i, n, b))
  {
    var b := s.file[Slot(i, n)];
    assert b in s.role && s.role[b] == Data(i, n);
    RoleBits(s.bits, s.role, b, Free);
    DropOwn(s.role, s.file, s.ind, s.inodes, i, n);
    RoleContent(s.blocks, s.role, b, Free, s.blocks[b]);
    assert s.blocks[b := s.blocks[b]] == s.blocks;
  }

  lemma DropOwn(role: map<int, Role>, file: map<Slot, int>, ind: map<int, int>, inodes: map<int, Inode>, i: int, n: int)
    requires OwnOk(role, file, ind, inodes) && Slot(i, n) in file
    ensures OwnOk(role[file[Slot(i, n)] := Free], file - {Slot(i, n)}, ind, inodes)
  {
    var b, x := file[Slot(i, n)], Slot(i, n);
    forall y | y in file && y != x ensures file[y] != b {
      assert y == Slot(y.i, y.n) && role[file[y]] == Data(y.i, y.n);
    }
  }

  lemma DropLists(s: State, i: int, n: int, b: int)
    requires ListsBut(s.inodes, s.blocks, s.file, s.ind, i) && 0 <= b < |s.bits|
    ensures var t := DropData(s, i, n, b); ListsBut(t.inodes, t.blocks, t.file, t.ind, i)
  {
    var t := DropData(s, i, n, b);
    forall j | j in t.inodes && j != i ensures ListOk(t.inodes[j], j, t.blocks, t.file, t.ind) {
      assert ListOk(s.inodes[j], j, s.blocks, s.file, s.ind);
    }
  }

  /** The indirect block of file i is off the inode and free. */
  function DropInd(s: State, i: int): State
    requires i in s.ind && 0 <= s.ind[i] < |s.bits|
  {
    s.(bits := s.bits[s.ind[i] := false], role := s.role[s.ind[i] := Free], ind := s.ind - {i})
  }

  lemma DropIndBase(s: State, i: int)
    requires Base(s) && i in s.ind && forall n :: NDIRECT <= n ==> Slot(i, n) !in s.file
    ensures var d := s.ind[i]; 0 < d < |s.bits| && s.bits[d] && Base(DropInd(s, i))
  {
    var d := s.ind[i];
    assert d in s.role && s.role[d] == Ind(i);
    RoleBits(s.bits, s.role, d, Free);
    RoleContent(s.blocks, s.role, d, Free, s.blocks[d]);
    assert s.blocks[d := s.blocks[d]] == s.blocks;
    DropIndOwn(s.role, s.file, s.ind, s.inodes, i);
  }

  lemma DropIndOwn(role: map<int, Role>, file: map<Slot, int>, ind: map<int, int>, inodes: map<int, Inode>, i: int)
    requires OwnOk(role, file, ind, inodes) && i in ind && forall n :: NDIRECT <= n ==> Slot(i, n) !in file
    ensures OwnOk(role[ind[i] := Free], file, ind - {i}, inodes)
  {
    forall x | x in file && x.n >= NDIRECT ensures x.i != i {
      assert x == Slot(x.i, x.n);
    }
  }

  lemma DropIndLists(s: State, i: int)
    requires ListsBut(s.inodes, s.blocks, s.file, s.ind, i) && i in s.ind && 0 <= s.ind[i] < |s.bits|
    ensures var t := DropInd(s, i); ListsBut(t.inodes, t.blocks, t.file, t.ind, i)
  {
    var t := DropInd(s, i);
    forall j | j in t.inodes && j != i ensures ListOk(t.inodes[j], j, t.blocks, t.file, t.ind) {
      assert ListOk(s.inodes[j], j, s.blocks, s.file, s.ind);
    }
  }

  /** The part of file i's blocks that has been given back: those with index below n, and the indirect block if all. */
  ghost predicate Given(s: State, t: State, i: int, n: int, all: bool) {
    && |t.bits| == |s.bits| && t.blocks == s.blocks
    && (forall x :: x in t.file <==> x in s.file && !(x.i == i && x.n < n))
        && (forall x :: x in t.file ==> t.file[x] == s.file[x])
    && (forall j :: j in t.ind <==> j in s.ind && !(all && j == i)) && (forall j :: j in t.ind ==> t.ind[j] == s.ind[j])
    && (forall b :: b in s.role ==>
          b in t.role && t.role[b] ==
              (if (s.role[b].Data? && s.role[b].i == i && s.role[b].n < n) || (all && s.role[b] == Ind(i))
                                       then Free else s.role[b]))
    && (forall j :: j in t.inodes <==> j in s.inodes)
        && (forall j :: j in s.inodes && j != i ==> t.inodes[j] == s.inodes[j])
  }

  lemma GivenNone(s: State, i: int)
    requires Base(s)
    ensures Given(s, s, i, 0, false)
  {
  }

  lemma GivenData(s: State, t: State, u: State, i: int, n: int)
    requires Base(s) && Given(s, t, i, n, false) && Base(t) && 0 <= n
    requires if Slot(i, n) in t.file then 0 <= t.file[Slot(i, n)] < |t.bits|
        && u == DropData(t, i, n, t.file[Slot(i, n)]) else u == t
    ensures Given(s, u, i, n + 1, false)
  {
    hide BitsOk, ContentOk, OwnOk;
    forall b | b in s.role
      ensures b in u.role && u.role[b] ==
          if s.role[b].Data? && s.role[b].i == i && s.role[b].n < n + 1 then Free else s.role[b]
    {
      GivenRole(s, t, u, i, n, b);
    }
    forall x | x in s.file && x.i == i && x.n == n ensures x == Slot(i, n) {}
  }

  lemma GivenRole(s: State, t: State, u: State, i: int, n: int, b: int)
    requires Base(s) && Given(s, t, i, n, false) && Base(t) && 0 <= n && b in s.role
    requires if Slot(i, n) in t.file then 0 <= t.file[Slot(i, n)] < |t.bits|
        && u == DropData(t, i, n, t.file[Slot(i, n)]) else u == t
    ensures b in u.role && u.role[b] ==
        if s.role[b].Data? && s.role[b].i == i && s.role[b].n < n + 1 then Free else s.role[b]
  {
    hide BitsOk, ContentOk;
    if s.role[b].Data? { assert Slot(s.role[b].i, s.role[b].n) in s.file; }
  }

  lemma GivenInode(s: State, t: State, i: int, n: int, all: bool, x: Inode)
    requires Given(s, t, i, n, all) && i in t.inodes
    ensures Given(s, t.(inodes := t.inodes[i := x]), i, n, all)
  {
  }

  lemma GivenInd(s: State, t: State, i: int, n: int)
    requires Base(s) && Base(t) && Given(s, t, i, n, false) && i in t.ind && 0 <= t.ind[i] < |t.bits|
    ensures Given(s, DropInd(t, i), i, n, true)
  {
    hide BitsOk, ContentOk;
  }

  /** The bitmap blocks that hold the bits of the first n blocks of file i. */
  function MapsTo(file: map<Slot, int>, i: int, n: int): set<int> {
    set m | 0 <= m < n && Slot(i, m) in file :: file[Slot(i, m)] / BPB
  }

  lemma MapsNext(file: map<Slot, int>, i: int, n: int)
    requires 0 <= n
    ensures MapsTo(file, i, n + 1) ==
        MapsTo(file, i, n) + (if Slot(i, n) in file then {file[Slot(i, n)] / BPB} else {})
  {
    if Slot(i, n) in file { assert file[Slot(i, n)] / BPB in MapsTo(file, i, n + 1); }
    forall x | x in MapsTo(file, i, n) ensures x in MapsTo(file, i, n + 1) {
      var m :| 0 <= m < n && Slot(i, m) in file && x == file[Slot(i, m)] / BPB;
    }
  }

  /** The bitmap blocks of all blocks of file i, the indirect one included. */
  function MapsOf(s: State, i: int): set<int> {
    MapsTo(s.file, i, MAXFILE) + (if i in s.ind then {s.ind[i] / BPB} else {})
  }

  lemma SameEntry(s: State, t: State, i: int, n: int)
    requires Given(s, t, i, n, false)
    ensures (Slot(i, n) in t.file <==> Slot(i, n) in s.file)
        && (Slot(i, n) in s.file ==> t.file[Slot(i, n)] == s.file[Slot(i, n)])
    ensures (i in t.ind <==> i in s.ind) && (i in s.ind ==> t.ind[i] == s.ind[i])
  {
  }

  /** bfree(b): clears the block's bit; that the block is off its list is recorded as t. */
  method Bfree(f: Fs, b: int, ghost t: State)
    requires 0 <= b < |f.bits| && f.bits[b]
        && t == f.St().(bits := f.bits[b := false], role := t.role, file := t.file, ind := t.ind)
    modifies f
    ensures f.St() == t && f.maps == old(f.maps) + {b / BPB} && f.blks == old(f.blks) && f.inos == old(f.inos)
  {
    if !f.bits[b] {
      assert false;  // panic("freeing free block")
    }
    f.bits := f.bits[b := false];
    f.maps := f.maps + {b / BPB};
    f.role, f.file, f.ind := t.role, t.file, t.ind;
  }

  /** What itrunc still finds in the inode of file i once n entries are done. */
  ghost predicate Left(s: State, i: int, n: int) {
    && i in s.inodes && |s.inodes[i].addrs| == NDIRECT + 1
    && (forall m :: 0 <= m < NDIRECT ==> s.inodes[i].addrs[m] == (if m < n then 0 else Entry(s.file, Slot(i, m))))
    && s.inodes[i].addrs[NDIRECT] == IndEntry(s.ind, i)
    && (i in s.ind ==>
          && s.ind[i] in s.blocks && |s.blocks[s.ind[i]]| == NINDIRECT
          && (forall m :: NDIRECT <= m < MAXFILE && n <= m ==>
              s.blocks[s.ind[i]][m - NDIRECT] == Entry(s.file, Slot(i, m))))
  }

  /** File i is empty and its blocks are free; nothing else has changed. */
  ghost predicate Truncated(s: State, t: State, i: int) {
    && Given(s, t, i, MAXFILE, true) && i in t.inodes && t.inodes[i] == Inode(0, Zeros(NDIRECT + 1))
    && forall n :: Slot(i, n) !in t.file
  }

  /** itrunc: logs the inode and the bitmap block of every block of the file, however many those are. */
  method Itrunc(f: Fs, i: int)
    requires f.Valid() && i in f.inodes
    modifies f
    ensures f.Valid() && Truncated(old(f.St()), f.St(), i)
    ensures f.maps == old(f.maps) + MapsOf(old(f.St()), i) && f.blks == old(f.blks) && f.inos == old(f.inos) + {i}
  {
    hide Base, ListsBut, Left, Given, Inv, MapsTo;
    ghost var s := f.St();
    Start(s, i);
    MapsNone(s.file, i);
    for n := 0 to NDIRECT
      invariant f.maps == old(f.maps) + MapsTo(s.file, i, n) && f.blks == old(f.blks) && f.inos == old(f.inos)
      invariant Base(f.St()) && ListsBut(f.inodes, f.blocks, f.file, f.ind, i) && Left(f.St(), i, n)
          && Given(s, f.St(), i, n, false)
    {
      ghost var t := f.St();
      LeftDirect(t, i, n);
      MapsNext(s.file, i, n);
      SameEntry(s, t, i, n);
      if f.inodes[i].addrs[n] != 0 {
        var b := f.inodes[i].addrs[n];
        DropDataBase(t, i, n);
        DropLists(t, i, n, b);
        GivenData(s, t, DropData(t, i, n, b), i, n);
        Bfree(f, b, DropData(t, i, n, b));
        NextDirect(t, i, n, b);
        f.inodes := f.inodes[i := f.inodes[i].(addrs := f.inodes[i].addrs[n := 0])];
        GivenInode(s, DropData(t, i, n, b), i, n + 1, false, f.inodes[i]);
      } else {
        GivenData(s, t, t, i, n);
      }
    }
    TruncIndirect(f, i, s, old(f.maps));
  }

  /** The bits itrunc changes are in the bitmap blocks it logs, and each of these has one. */
  lemma TruncLogged(s: State, t: State, i: int)
    requires Inv(s) && Inv(t) && Truncated(s, t, i)
    ensures forall b :: 0 <= b < |s.bits| && t.bits[b] != s.bits[b] ==> b / BPB in MapsOf(s, i)
    ensures forall m :: m in MapsOf(s, i) ==> exists b :: 0 <= b < |s.bits| && b / BPB == m && s.bits[b] && !t.bits[b]
  {
    hide ContentOk, ListsOk;
    forall b | 0 <= b < |s.bits| && t.bits[b] != s.bits[b] ensures b / BPB in MapsOf(s, i) {
      assert s.role[b] == Ind(i) || s.file[Slot(i, s.role[b].n)] == b;
    }
    forall m | m in MapsOf(s, i) ensures exists b :: 0 <= b < |s.bits| && b / BPB == m && s.bits[b] && !t.bits[b] {
      var b: int;
      if m in MapsTo(s.file, i, MAXFILE) {
        var n :| 0 <= n < MAXFILE && Slot(i, n) in s.file && m == s.file[Slot(i, n)] / BPB;
        b := s.file[Slot(i, n)];
      } else {
        b := s.ind[i];
      }
      assert 0 <= b < |s.bits| && b / BPB == m && s.bits[b] && !t.bits[b];
    }
  }

  lemma MapsNone(file: map<Slot, int>, i: int)
    ensures MapsTo(file, i, 0) == {}
  {
  }

  /** Without an indirect block there are no blocks to free beyond the direct ones. */
  lemma {:induction false} MapsDirect(s: State, i: int, n: int)
    requires Base(s) && i !in s.ind && NDIRECT <= n
    ensures MapsTo(s.file, i, n) == MapsTo(s.file, i, NDIRECT)
  {
    forall x | x in MapsTo(s.file, i, n) ensures x in MapsTo(s.file, i, NDIRECT) {
      var m :| 0 <= m < n && Slot(i, m) in s.file && x == s.file[Slot(i, m)] / BPB;
      NoIndirect(s, i);
    }
    forall x | x in MapsTo(s.file, i, NDIRECT) ensures x in MapsTo(s.file, i, n) {
      var m :| 0 <= m < NDIRECT && Slot(i, m) in s.file && x == s.file[Slot(i, m)] / BPB;
    }
  }

  /** The second half of itrunc: the blocks of the indirect block, the block itself, and the size. */
  method TruncIndirect(f: Fs, i: int, ghost s: State, ghost maps0: set<int>)
    requires Base(s) && Base(f.St()) && ListsBut(f.inodes, f.blocks, f.file, f.ind, i)
    requires Left(f.St(), i, NDIRECT) && Given(s, f.St(), i, NDIRECT, false)
    requires f.maps == maps0 + MapsTo(s.file, i, NDIRECT)
    modifies f
    ensures f.Valid() && Truncated(s, f.St(), i)
    ensures f.maps == maps0 + MapsOf(s, i) && f.blks == old(f.blks) && f.inos == old(f.inos) + {i}
  {
    hide Base, ListsBut, Left, Given, Inv, Truncated, MapsTo;
    LeftInd(f.St(), i);
    SameEntry(s, f.St(), i, NDIRECT);
    if f.inodes[i].addrs[NDIRECT] != 0 {
      var d := f.inodes[i].addrs[NDIRECT];
      for j := 0 to NINDIRECT
        invariant f.maps == maps0 + MapsTo(s.file, i, NDIRECT + j) && f.blks == old(f.blks) && f.inos == old(f.inos)
        invariant Base(f.St()) && ListsBut(f.inodes, f.blocks, f.file, f.ind, i) && Left(f.St(), i, NDIRECT + j)
        invariant Given(s, f.St(), i, NDIRECT + j, false) && i in f.ind && f.ind[i] == d
      {
        ghost var t := f.St();
        LeftIndirect(t, i, NDIRECT + j);
        MapsNext(s.file, i, NDIRECT + j);
        SameEntry(s, t, i, NDIRECT + j);
        if f.blocks[d][j] != 0 {
          var b := f.blocks[d][j];
          DropDataBase(t, i, NDIRECT + j);
          DropLists(t, i, NDIRECT + j, b);
          GivenData(s, t, DropData(t, i, NDIRECT + j, b), i, NDIRECT + j);
          Bfree(f, b, DropData(t, i, NDIRECT + j, b));
          NextIndirect(t, i, NDIRECT + j, b);
        } else {
          GivenData(s, t, t, i, NDIRECT + j);
        }
      }
      ghost var t := f.St();
      NoSlots(t, s, i);
      DropIndBase(t, i);
      DropIndLists(t, i);
      GivenInd(s, t, i, MAXFILE);
      Bfree(f, d, DropInd(t, i));
      LastInd(t, i);
      f.inodes := f.inodes[i := f.inodes[i].(addrs := f.inodes[i].addrs[NDIRECT := 0])];
      GivenInode(s, DropInd(t, i), i, MAXFILE, true, f.inodes[i]);
    } else {
      NoInd(f.St(), s, i);
      MapsDirect(s, i, MAXFILE);
    }
    ghost var u := f.St();
    Finish(u, s, i);
    f.inodes := f.inodes[i := f.inodes[i].(size := 0)];
    f.inos := f.inos + {i};
  }

  lemma Start(s: State, i: int)
    requires Inv(s) && i in s.inodes
    ensures Base(s) && ListsBut(s.inodes, s.blocks, s.file, s.ind, i) && Left(s, i, 0) && Given(s, s, i, 0, false)
  {
    hide Given, BitsOk, ContentOk, OwnOk;
    assert ListOk(s.inodes[i], i, s.blocks, s.file, s.ind);
    SlotWord(s, i, 0);
    GivenNone(s, i);
  }

  lemma LeftDirect(s: State, i: int, n: int)
    requires Base(s) && Left(s, i, n) && 0 <= n < NDIRECT
    ensures i in s.inodes && |s.inodes[i].addrs| == NDIRECT + 1 && s.inodes[i].addrs[n] == Entry(s.file, Slot(i, n))
    ensures s.inodes[i].addrs[n] == 0 <==> Slot(i, n) !in s.file
    ensures Slot(i, n) !in s.file ==> Left(s, i, n + 1)
  {
    hide BitsOk, ContentOk;
  }

  lemma NextDirect(s: State, i: int, n: int, b: int)
    requires Base(s) && Left(s, i, n) && 0 <= n < NDIRECT && 0 <= b < |s.bits|
    ensures i in s.inodes && |s.inodes[i].addrs| == NDIRECT + 1
    ensures var t := DropData(s, i, n, b);
            var u := t.(inodes := t.inodes[i := t.inodes[i].(addrs := t.inodes[i].addrs[n := 0])]);
            && Left(u, i, n + 1) && (Base(t) ==> Base(u))
            && (ListsBut(t.inodes, t.blocks, t.file, t.ind, i) ==> ListsBut(u.inodes, u.blocks, u.file, u.ind, i))
  {
    var t := DropData(s, i, n, b);
    var x := t.inodes[i].(addrs := t.inodes[i].addrs[n := 0]);
    if Base(t) { InodesOwn(t.role, t.file, t.ind, t.inodes, i, x); }
  }

  lemma LeftInd(s: State, i: int)
    requires Base(s) && Left(s, i, NDIRECT)
    ensures i in s.inodes && |s.inodes[i].addrs| == NDIRECT + 1 && s.inodes[i].addrs[NDIRECT] == IndEntry(s.ind, i)
    ensures s.inodes[i].addrs[NDIRECT] != 0 <==> i in s.ind
  {
    hide BitsOk, ContentOk;
  }

  lemma LeftIndirect(s: State, i: int, n: int)
    requires Base(s) && Left(s, i, n) && NDIRECT <= n < MAXFILE && i in s.ind
    ensures s.ind[i] in s.blocks && |s.blocks[s.ind[i]]| == NINDIRECT
        && s.blocks[s.ind[i]][n - NDIRECT] == Entry(s.file, Slot(i, n))
    ensures s.blocks[s.ind[i]][n - NDIRECT] == 0 <==> Slot(i, n) !in s.file
    ensures Slot(i, n) !in s.file ==> Left(s, i, n + 1)
  {
    hide BitsOk, ContentOk;
  }

  lemma NextIndirect(s: State, i: int, n: int, b: int)
    requires Left(s, i, n) && NDIRECT <= n < MAXFILE && 0 <= b < |s.bits|
    ensures Left(DropData(s, i, n, b), i, n + 1)
  {
  }

  lemma NoSlots(t: State, s: State, i: int)
    requires Given(s, t, i, MAXFILE, false) && Base(t)
    ensures forall n :: Slot(i, n) !in t.file
  {
    forall n ensures Slot(i, n) !in t.file {
      assert Slot(i, n) in t.file ==> n < MAXFILE;
    }
  }

  lemma LastInd(t: State, i: int)
    requires Base(t) && Left(t, i, MAXFILE) && i in t.ind && 0 <= t.ind[i] < |t.bits|
    ensures i in t.inodes && |t.inodes[i].addrs| == NDIRECT + 1
    ensures var u := DropInd(t, i);
            var w := u.(inodes := u.inodes[i := u.inodes[i].(addrs := u.inodes[i].addrs[NDIRECT := 0])]);
            && w.inodes[i].addrs == Zeros(NDIRECT + 1) && (Base(u) ==> Base(w))
            && (ListsBut(u.inodes, u.blocks, u.file, u.ind, i) ==> ListsBut(w.inodes, w.blocks, w.file, w.ind, i))
  {
    var u := DropInd(t, i);
    var x := u.inodes[i].(addrs := u.inodes[i].addrs[NDIRECT := 0]);
    if Base(u) { InodesOwn(u.role, u.file, u.ind, u.inodes, i, x); }
  }

  lemma NoInd(t: State, s: State, i: int)
    requires Base(t) && Base(s) && Left(t, i, NDIRECT) && i !in t.ind && Given(s, t, i, NDIRECT, false)
    ensures i in t.inodes && t.inodes[i].addrs == Zeros(NDIRECT + 1) && Given(s, t, i, MAXFILE, true)
  {
    hide BitsOk, ContentOk;
    NoIndirect(t, i);
    forall x: Slot | x.i == i && x.n >= NDIRECT ensures x !in t.file { assert x == Slot(x.i, x.n); }
    forall b | b in s.role && s.role[b].Data? && s.role[b].i == i ensures s.role[b].n < NDIRECT {
      assert Slot(i, s.role[b].n) in s.file;
    }
    forall b | b in s.role ensures s.role[b] != Ind(i) {}
  }

  lemma Finish(t: State, s: State, i: int)
    requires Base(t) && Given(s, t, i, MAXFILE, true) && ListsBut(t.inodes, t.blocks, t.file, t.ind, i)
        && i in t.inodes && t.inodes[i].addrs == Zeros(NDIRECT + 1)
    ensures var u := t.(inodes := t.inodes[i := t.inodes[i].(size := 0)]); Inv(u) && Truncated(s, u, i)
  {
    hide BitsOk, ContentOk;
    var u := t.(inodes := t.inodes[i := t.inodes[i].(size := 0)]);
    InodesOwn(t.role, t.file, t.ind, t.inodes, i, t.inodes[i].(size := 0));
    forall n ensures Slot(i, n) !in t.file {
      assert Slot(i, n) in t.file ==> n < MAXFILE;
    }
    forall j | j in u.inodes ensures ListOk(u.inodes[j], j, u.blocks, u.file, u.ind) {
      assert j != i ==> ListOk(t.inodes[j], j, t.blocks, t.file, t.ind);
    }
  }
}

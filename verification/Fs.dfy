/**
  Files on disk blocks (kernel/fs.c, kernel/fs.h): the free bitmap, block lists with one
  indirect block, and the bytes of each file.
 */
module FsModel {

  const BSIZE := 1024
  const NDIRECT := 12
  const NINDIRECT := 256
  const MAXFILE := NDIRECT + NINDIRECT
  const BPB := BSIZE * 8

  datatype Inode = Inode(size: int, addrs: seq<int>)

  /** Block n of file i. */
  datatype Slot = Slot(i: int, n: int)

  /**
    What a disk block is used for: boot, super, log, inode and bitmap blocks are Meta; Held: just allocated,
    not listed yet.
   */
  datatype Role = Free | Meta | Held | Data(i: int, n: int) | Ind(i: int)

  /**
    The bitmap (one bit a block), block contents (bytes; 256 block numbers in an indirect
    block), the inodes, and as history each block's role and the block lists as maps.
   */
  datatype State = State(bits: seq<bool>, blocks: map<int, seq<int>>, inodes: map<int, Inode>,
                         role: map<int, Role>, file: map<Slot, int>, ind: map<int, int>)

  // ----- invariants -----

  /** A bit is set exactly if the block is in use. */
  ghost predicate BitsOk(bits: seq<bool>, role: map<int, Role>) {
    && (forall b :: b in role <==> 0 <= b < |bits|)
    && (forall b :: 0 <= b < |bits| ==> (bits[b] <==> b in role && role[b] != Free))
  }

  predicate RoleFits(ro: Role, w: seq<int>) {
    match ro
    case Data(_, _) => |w| == BSIZE
    case Ind(_) => |w| == NINDIRECT
    case _ => true
  }

  ghost predicate ContentOk(blocks: map<int, seq<int>>, role: map<int, Role>) {
    forall b :: b in role ==> b in blocks && RoleFits(role[b], blocks[b])
  }

  /** No block is in two lists, or twice in one; listed blocks are in use, and blocks in use by files are listed. */
  ghost predicate OwnOk(role: map<int, Role>, file: map<Slot, int>, ind: map<int, int>, inodes: map<int, Inode>) {
    && (0 in role ==> role[0] == Meta)
    && (forall x :: x in file ==>
        file[x] in role && role[file[x]] == Data(x.i, x.n) && 0 <= x.n < MAXFILE && x.i in inodes)
    && (forall i :: i in ind ==> ind[i] in role && role[ind[i]] == Ind(i) && i in inodes)
    && (forall b :: b in role && role[b].Data? ==> var x := Slot(role[b].i, role[b].n); x in file && file[x] == b)
    && (forall b :: b in role && role[b].Ind? ==> role[b].i in ind && ind[role[b].i] == b)
    && (forall x :: x in file && x.n >= NDIRECT ==> x.i in ind)
  }

  function Entry(file: map<Slot, int>, x: Slot): int { if x in file then file[x] else 0 }

  function IndEntry(ind: map<int, int>, i: int): int { if i in ind then ind[i] else 0 }

  /** addrs and the indirect block hold the file's list. */
  ghost predicate ListOk(inode: Inode, i: int, blocks: map<int, seq<int>>, file: map<Slot, int>, ind: map<int, int>) {
    && |inode.addrs| == NDIRECT + 1 && 0 <= inode.size <= MAXFILE * BSIZE
    && (forall n :: 0 <= n < NDIRECT ==> inode.addrs[n] == Entry(file, Slot(i, n)))
    && inode.addrs[NDIRECT] == IndEntry(ind, i)
    && (i in ind ==> ind[i] in blocks && IndOk(blocks[ind[i]], i, file))
  }

  ghost predicate IndOk(w: seq<int>, i: int, file: map<Slot, int>) {
    |w| == NINDIRECT && forall n :: NDIRECT <= n < MAXFILE ==> w[n - NDIRECT] == Entry(file, Slot(i, n))
  }

  ghost predicate ListsOk(inodes: map<int, Inode>, blocks: map<int, seq<int>>, file: map<Slot, int>, ind: map<int,
      int>) {
    forall i :: i in inodes ==> ListOk(inodes[i], i, blocks, file, ind)
  }

  /** Every block below the size is there. */
  ghost predicate NoHoles(inodes: map<int, Inode>, file: map<Slot, int>, i: int) {
    i in inodes && forall n :: 0 <= n && n * BSIZE < inodes[i].size ==> Slot(i, n) in file
  }

  ghost predicate Inv(s: State) {
    && BitsOk(s.bits, s.role) && ContentOk(s.blocks, s.role) && OwnOk(s.role, s.file, s.ind, s.inodes)
    && ListsOk(s.inodes, s.blocks, s.file, s.ind) && |s.bits| > 0
  }

  // ----- blocks change hands -----

  lemma RoleBits(bits: seq<bool>, role: map<int, Role>, b: int, ro: Role)
    requires BitsOk(bits, role) && 0 <= b < |bits|
    ensures BitsOk(bits[b := ro != Free], role[b := ro])
    ensures bits[b] == (ro != Free) ==> BitsOk(bits, role[b := ro])
  {
    assert bits[b] == (ro != Free) ==> bits[b := ro != Free] == bits;
  }

  lemma RoleContent(blocks: map<int, seq<int>>, role: map<int, Role>, b: int, ro: Role, w: seq<int>)
    requires ContentOk(blocks, role) && RoleFits(ro, w)
    ensures ContentOk(blocks[b := w], role[b := ro])
  {
  }

  /** A block outside the files changes role. */
  lemma RoleOwn(role: map<int, Role>, file: map<Slot, int>, ind: map<int, int>, inodes: map<int, Inode>, b: int,
      ro: Role)
    requires OwnOk(role, file, ind, inodes) && b in role && !role[b].Data? && !role[b].Ind? && !ro.Data? && !ro.Ind?
        && b != 0
    ensures OwnOk(role[b := ro], file, ind, inodes)
  {
  }

  /** The content of a block that is no indirect block changes. */
  lemma ContentLists(inodes: map<int, Inode>, blocks: map<int, seq<int>>, file: map<Slot, int>, ind: map<int, int>,
      b: int, w: seq<int>)
    requires ListsOk(inodes, blocks, file, ind) && (forall i :: i in ind && i in inodes ==> ind[i] != b)
    ensures ListsOk(inodes, blocks[b := w], file, ind)
  {
    var blocks2 := blocks[b := w];
    forall i | i in inodes ensures ListOk(inodes[i], i, blocks2, file, ind) {
      assert ListOk(inodes[i], i, blocks, file, ind);
    }
  }

  function Zeros(n: nat): (z: seq<int>)
    ensures |z| == n && forall k :: 0 <= k < n ==> z[k] == 0
  {
    seq(n, _ => 0)
  }

  /** balloc: free block b is marked in use and zeroed. */
  function Claim(s: State, b: int, n: nat): State
    requires 0 <= b < |s.bits|
  {
    s.(bits := s.bits[b := true], blocks := s.blocks[b := Zeros(n)], role := s.role[b := Held])
  }

  lemma ClaimInv(s: State, b: int, n: nat)
    requires Inv(s) && 0 <= b < |s.bits| && !s.bits[b]
    ensures b in s.role && s.role[b] == Free && b != 0 && Inv(Claim(s, b, n))
  {
    hide ListsOk;
    RoleBits(s.bits, s.role, b, Held);
    RoleContent(s.blocks, s.role, b, Held, Zeros(n));
    RoleOwn(s.role, s.file, s.ind, s.inodes, b, Held);
    ContentLists(s.inodes, s.blocks, s.file, s.ind, b, Zeros(n));
  }

  lemma AddData(role: map<int, Role>, file: map<Slot, int>, ind: map<int, int>, inodes: map<int, Inode>, b: int,
      i: int, n: int)
    requires OwnOk(role, file, ind, inodes) && b in role && role[b] == Held && Slot(i, n) !in file && 0 <= n < MAXFILE
        && i in inodes
    requires n >= NDIRECT ==> i in ind
    ensures OwnOk(role[b := Data(i, n)], file[Slot(i, n) := b], ind, inodes)
  {
  }

  lemma AddInd(role: map<int, Role>, file: map<Slot, int>, ind: map<int, int>, inodes: map<int, Inode>, b: int, i: int)
    requires OwnOk(role, file, ind, inodes) && b in role && role[b] == Held && i !in ind && i in inodes
    ensures OwnOk(role[b := Ind(i)], file, ind[i := b], inodes)
  {
  }

  lemma InodesOwn(role: map<int, Role>, file: map<Slot, int>, ind: map<int, int>, inodes: map<int, Inode>, i: int,
      x: Inode)
    requires OwnOk(role, file, ind, inodes)
    ensures OwnOk(role, file, ind, inodes[i := x])
  {
  }

  /** bmap: ip->addrs[n] = b. */
  function LinkDirect(s: State, i: int, n: int, b: int): State
    requires i in s.inodes && 0 <= n < |s.inodes[i].addrs|
  {
    var x := s.inodes[i];
    s.(inodes := s.inodes[i := x.(addrs := x.addrs[n := b])], role := s.role[b := Data(i, n)],
        file := s.file[Slot(i, n) := b])
  }

  lemma LinkDirectLists(inodes: map<int, Inode>, blocks: map<int, seq<int>>, file: map<Slot, int>, ind: map<int, int>,
      i: int, n: int, b: int)
    requires ListsOk(inodes, blocks, file, ind) && i in inodes && 0 <= n < NDIRECT
    ensures |inodes[i].addrs| == NDIRECT + 1
    ensures var x := inodes[i]; ListsOk(inodes[i := x.(addrs := x.addrs[n := b])], blocks, file[Slot(i, n) := b], ind)
  {
    var x := inodes[i];
    var inodes2, file2 := inodes[i := x.(addrs := x.addrs[n := b])], file[Slot(i, n) := b];
    forall j | j in inodes2 ensures ListOk(inodes2[j], j, blocks, file2, ind) {
      assert ListOk(inodes[j], j, blocks, file, ind);
    }
  }

  lemma LinkDirectInv(s: State, i: int, n: int, b: int)
    requires Inv(s) && i in s.inodes && 0 <= n < NDIRECT && Slot(i, n) !in s.file
    requires b in s.role && s.role[b] == Held && b in s.blocks && |s.blocks[b]| == BSIZE
    ensures |s.inodes[i].addrs| == NDIRECT + 1 && Inv(LinkDirect(s, i, n, b))
  {
    hide OwnOk, ListsOk;
    var x := s.inodes[i];
    LinkDirectLists(s.inodes, s.blocks, s.file, s.ind, i, n, b);
    RoleBits(s.bits, s.role, b, Data(i, n));
    RoleContent(s.blocks, s.role, b, Data(i, n), s.blocks[b]);
    assert s.blocks[b := s.blocks[b]] == s.blocks;
    AddData(s.role, s.file, s.ind, s.inodes, b, i, n);
    InodesOwn(s.role[b := Data(i, n)], s.file[Slot(i, n) := b], s.ind, s.inodes, i, x.(addrs := x.addrs[n := b]));
  }

  /** bmap: ip->addrs[NDIRECT] = b, a zeroed indirect block. */
  function LinkInd(s: State, i: int, b: int): State
    requires i in s.inodes && |s.inodes[i].addrs| == NDIRECT + 1
  {
    var x := s.inodes[i];
    s.(inodes := s.inodes[i := x.(addrs := x.addrs[NDIRECT := b])], role := s.role[b := Ind(i)], ind := s.ind[i := b])
  }

  lemma LinkIndLists(inodes: map<int, Inode>, blocks: map<int, seq<int>>, file: map<Slot, int>, ind: map<int, int>,
      i: int, b: int)
    requires ListsOk(inodes, blocks, file, ind) && i in inodes && i !in ind && b in blocks
        && blocks[b] == Zeros(NINDIRECT)
    requires forall n :: NDIRECT <= n ==> Slot(i, n) !in file
    ensures |inodes[i].addrs| == NDIRECT + 1
    ensures var x := inodes[i]; ListsOk(inodes[i := x.(addrs := x.addrs[NDIRECT := b])], blocks, file, ind[i := b])
  {
    var x := inodes[i];
    var inodes2, ind2 := inodes[i := x.(addrs := x.addrs[NDIRECT := b])], ind[i := b];
    forall j | j in inodes2 ensures ListOk(inodes2[j], j, blocks, file, ind2) {
      assert ListOk(inodes[j], j, blocks, file, ind);
    }
  }

  lemma NoIndirect(s: State, i: int)
    requires OwnOk(s.role, s.file, s.ind, s.inodes) && i !in s.ind
    ensures forall n :: NDIRECT <= n ==> Slot(i, n) !in s.file
  {
    forall n | NDIRECT <= n ensures Slot(i, n) !in s.file {
      assert Slot(i, n).i == i;
    }
  }

  lemma LinkIndInv(s: State, i: int, b: int)
    requires Inv(s) && i in s.inodes && i !in s.ind && b in s.role && s.role[b] == Held && b in s.blocks
        && s.blocks[b] == Zeros(NINDIRECT)
    ensures |s.inodes[i].addrs| == NDIRECT + 1 && Inv(LinkInd(s, i, b))
  {
    hide OwnOk, ListsOk;
    var x := s.inodes[i];
    NoIndirect(s, i);
    LinkIndLists(s.inodes, s.blocks, s.file, s.ind, i, b);
    RoleBits(s.bits, s.role, b, Ind(i));
    RoleContent(s.blocks, s.role, b, Ind(i), s.blocks[b]);
    assert s.blocks[b := s.blocks[b]] == s.blocks;
    AddInd(s.role, s.file, s.ind, s.inodes, b, i);
    InodesOwn(s.role[b := Ind(i)], s.file, s.ind[i := b], s.inodes, i, x.(addrs := x.addrs[NDIRECT := b]));
  }

  /** bmap: entry n - NDIRECT of the indirect block becomes b. */
  function LinkIndirect(s: State, i: int, n: int, b: int): State
    requires i in s.ind && s.ind[i] in s.blocks && 0 <= n - NDIRECT < |s.blocks[s.ind[i]]|
  {
    var d := s.ind[i];
    s.(blocks := s.blocks[d := s.blocks[d][n - NDIRECT := b]], role := s.role[b := Data(i, n)],
        file := s.file[Slot(i, n) := b])
  }

  lemma LinkIndirectLists(inodes: map<int, Inode>, blocks: map<int, seq<int>>, file: map<Slot, int>, ind: map<int,
      int>, i: int, n: int, b: int)
    requires ListsOk(inodes, blocks, file, ind) && i in inodes && i in ind && NDIRECT <= n < MAXFILE
    requires forall j :: j in ind && j in inodes && j != i ==> ind[j] != ind[i]
    ensures ind[i] in blocks && |blocks[ind[i]]| == NINDIRECT
    ensures ListsOk(inodes, blocks[ind[i] := blocks[ind[i]][n - NDIRECT := b]], file[Slot(i, n) := b], ind)
  {
    assert ListOk(inodes[i], i, blocks, file, ind);
    var d := ind[i];
    var blocks2, file2 := blocks[d := blocks[d][n - NDIRECT := b]], file[Slot(i, n) := b];
    forall j | j in inodes ensures ListOk(inodes[j], j, blocks2, file2, ind) {
      assert ListOk(inodes[j], j, blocks, file, ind);
    }
  }

  lemma IndApart(s: State, i: int)
    requires OwnOk(s.role, s.file, s.ind, s.inodes) && i in s.ind
    ensures forall j :: j in s.ind && j in s.inodes && j != i ==> s.ind[j] != s.ind[i]
    ensures s.ind[i] in s.role && s.role[s.ind[i]] == Ind(i) && s.ind[i] != 0
  {
  }

  lemma LinkIndirectInv(s: State, i: int, n: int, b: int)
    requires Inv(s) && i in s.inodes && i in s.ind && NDIRECT <= n < MAXFILE && Slot(i, n) !in s.file
    requires b in s.role && s.role[b] == Held && b in s.blocks && |s.blocks[b]| == BSIZE
    ensures s.ind[i] in s.blocks && |s.blocks[s.ind[i]]| == NINDIRECT && Inv(LinkIndirect(s, i, n, b))
  {
    hide OwnOk, ListsOk;
    IndApart(s, i);
    LinkIndirectLists(s.inodes, s.blocks, s.file, s.ind, i, n, b);
    RoleBits(s.bits, s.role, b, Data(i, n));
    var d := s.ind[i];
    var w := s.blocks[d][n - NDIRECT := b];
    RoleContent(s.blocks, s.role, b, Data(i, n), s.blocks[b]);
    assert s.blocks[b := s.blocks[b]] == s.blocks;
    var role2 := s.role[b := Data(i, n)];
    RoleContent(s.blocks, role2, d, Ind(i), w);
    assert role2[d := Ind(i)] == role2;
    AddData(s.role, s.file, s.ind, s.inodes, b, i, n);
  }
}

/** mkfs/mkfs.c: the image mkfs builds, block by block, satisfies the file system's invariant. */
module FsImage {
  import opened FsModel
  import opened FsCode
  import opened FsFile

  const ROOTINO := 1

  /** The bitmap balloc(used) writes at the end. */
  function Bitmap(n: nat, used: int): (r: seq<bool>)
    ensures |r| == n && forall b :: 0 <= b < n ==> r[b] == (b < used)
  {
    seq(n, b => b < used)
  }

  /** Putting the next free block to use. */
  lemma NextBit(n: nat, used: int)
    requires 0 <= used < n
    ensures Bitmap(n, used + 1) == Bitmap(n, used)[used := true]
  {
  }

  /** File i has exactly the blocks that pos bytes call for. */
  ghost predicate Upto(file: map<Slot, int>, ind: map<int, int>, i: int, pos: int) {
    && (forall n :: Slot(i, n) in file <==> 0 <= n && n * BSIZE < pos)
    && (i in ind <==> pos > NDIRECT * BSIZE)
  }

  class Image {
    const fssize: nat
    var freeblock: int
    var freeinode: int
    var blocks: map<int, seq<int>>
    var inodes: map<int, Inode>
    ghost var role: map<int, Role>
    ghost var file: map<Slot, int>
    ghost var ind: map<int, int>

    /** The file system the image will be once the bitmap is written. */
    ghost function St(): State
      reads this
    {
      State(Bitmap(fssize, freeblock), blocks, inodes, role, file, ind)
    }

    ghost predicate Valid()
      reads this
    {
      Inv(St()) && 0 < freeblock <= fssize && (forall i :: i in inodes ==> i < freeinode)
      && forall b :: freeblock <= b < fssize ==> b in blocks && blocks[b] == Zeros(BSIZE)
    }

    /** A zeroed disk: the first nmeta blocks are taken, no inode exists yet. */
    constructor (size: nat, nmeta: int)
      requires 0 < nmeta <= size
      ensures Valid() && fssize == size && freeblock == nmeta && inodes == map[] && freeinode == 1
    {
      fssize, freeblock, freeinode := size, nmeta, 1;
      blocks := map b | 0 <= b < size && Between(b, size) :: Zeros(BSIZE);
      inodes := map[];
      role := map b | 0 <= b < size && Between(b, size) :: if b < nmeta then Meta else Free;
      file, ind := map[], map[];
    }

    /** A new, empty inode. */
    method Ialloc() returns (i: int)
      requires Valid()
      modifies this
      ensures Valid() && i == old(freeinode) && i !in old(inodes)
          && inodes == old(inodes)[i := Inode(0, Zeros(NDIRECT + 1))]
      ensures freeblock == old(freeblock) && blocks == old(blocks) && file == old(file) && ind == old(ind)
          && freeinode == i + 1
      ensures Upto(file, ind, i, 0)
    {
      i := freeinode;
      NewInode(St(), i);
      freeinode := freeinode + 1;
      inodes := inodes[i := Inode(0, Zeros(NDIRECT + 1))];
    }

    /** freeblock++: the next block, seen as n zero elements. */
    method NextBlock(n: nat) returns (b: int)
      requires Valid() && freeblock < fssize && (n == BSIZE || n == NINDIRECT)
      modifies this
      ensures Valid() && b == old(freeblock) && freeblock == b + 1 && 0 < b < fssize && freeinode == old(freeinode)
      ensures |old(St()).bits| == fssize && !old(St()).bits[b] && St() == Claim(old(St()), b, n)
      ensures b in role && role[b] == Held && b in blocks && blocks[b] == Zeros(n)
    {
      hide Inv;
      b := freeblock;
      ClaimInv(St(), b, n);
      NextBit(fssize, b);
      freeblock := freeblock + 1;
      blocks := blocks[b := Zeros(n)];
      role := role[b := Held];
      assert St() == Claim(old(St()), b, n);
    }

    /** The block of file i at index fbn, taken from the free ones if need be. */
    method MapBlock(i: int, fbn: int) returns (x: int)
      requires Valid() && i in inodes && 0 <= fbn < MAXFILE && freeblock + Fresh(file, ind, i, fbn) <= fssize
      modifies this
      ensures Valid() && Grew(old(St()), St(), i, fbn) && i in inodes && Slot(i, fbn) in file && file[Slot(i, fbn)] == x
      ensures freeinode == old(freeinode) && freeblock == old(freeblock) + Fresh(old(file), old(ind), i, fbn)
      ensures forall j :: j in ind <==> j in old(ind) || (j == i && fbn >= NDIRECT)
    {
      hide Inv, Grew;
      ghost var s := St();
      SlotWord(s, i, fbn);
      GrewSelf(s, i, fbn);
      if fbn < NDIRECT {
        x := inodes[i].addrs[fbn];
        if x == 0 {
          x := NextBlock(BSIZE);
          ghost var t := St();
          ClaimGrew(s, x, BSIZE, i, fbn);
          LinkDirectInv(t, i, fbn, x);
          DirectGrew(t, i, fbn, x);
          inodes := inodes[i := inodes[i].(addrs := inodes[i].addrs[fbn := x])];
          role, file := role[x := Data(i, fbn)], file[Slot(i, fbn) := x];
          assert St() == LinkDirect(t, i, fbn, x);
          GrewTrans(s, t, St(), i, fbn);
        }
        return x;
      }
      IndListed(s, i, fbn);
      if inodes[i].addrs[NDIRECT] == 0 {
        var d := NextBlock(NINDIRECT);
        ghost var t := St();
        ClaimGrew(s, d, NINDIRECT, i, fbn);
        LinkIndInv(t, i, d);
        IndGrew(t, i, fbn, d);
        inodes := inodes[i := inodes[i].(addrs := inodes[i].addrs[NDIRECT := d])];
        role, ind := role[d := Ind(i)], ind[i := d];
        assert St() == LinkInd(t, i, d);
        GrewTrans(s, t, St(), i, fbn);
      }
      ghost var t := St();
      x := MapIndirect(i, fbn);
      GrewTrans(s, t, St(), i, fbn);
    }

    method MapIndirect(i: int, fbn: int) returns (x: int)
      requires Valid() && i in inodes && NDIRECT <= fbn < MAXFILE && i in ind
          && freeblock + Fresh(file, ind, i, fbn) <= fssize
      modifies this
      ensures Valid() && Grew(old(St()), St(), i, fbn) && i in inodes && Slot(i, fbn) in file
          && file[Slot(i, fbn)] == x && ind == old(ind)
      ensures freeinode == old(freeinode) && freeblock == old(freeblock) + Fresh(old(file), old(ind), i, fbn)
    {
      hide Inv, Grew;
      ghost var s := St();
      SlotWord(s, i, fbn);
      GrewSelf(s, i, fbn);
      var d := inodes[i].addrs[NDIRECT];
      x := blocks[d][fbn - NDIRECT];
      if x == 0 {
        x := NextBlock(BSIZE);
        ghost var t := St();
        ClaimGrew(s, x, BSIZE, i, fbn);
        LinkIndirectInv(t, i, fbn, x);
        IndirectGrew(t, i, fbn, x);
        TypedAbove(t, i, freeblock);
        blocks := blocks[d := blocks[d][fbn - NDIRECT := x]];
        role, file := role[x := Data(i, fbn)], file[Slot(i, fbn) := x];
        assert St() == LinkIndirect(t, i, fbn, x);
        GrewTrans(s, t, St(), i, fbn);
      }
    }
  }

  /** Blocks in use by files lie below freeblock. */
  lemma TypedAbove(s: State, i: int, used: int)
    requires Inv(s) && s.bits == Bitmap(|s.bits|, used)
    ensures forall j :: j in s.ind ==> s.ind[j] < used
    ensures forall x :: x in s.file ==> s.file[x] < used
  {
    hide ListsOk, ContentOk;
    forall j | j in s.ind ensures s.ind[j] < used { assert s.role[s.ind[j]] == Ind(j); }
    forall x | x in s.file ensures s.file[x] < used { assert s.role[s.file[x]] != Free; }
  }

  predicate Between(b: int, n: int) { 0 <= b < n }

  lemma NewInode(s: State, i: int)
    requires Inv(s) && i !in s.inodes
    ensures Inv(s.(inodes := s.inodes[i := Inode(0, Zeros(NDIRECT + 1))])) && Upto(s.file, s.ind, i, 0)
  {
    hide BitsOk, ContentOk;
    var x := Inode(0, Zeros(NDIRECT + 1));
    var t := s.(inodes := s.inodes[i := x]);
    forall n ensures Slot(i, n) !in s.file {
      assert Slot(i, n) in s.file ==> Slot(i, n).i in s.inodes;
    }
    assert i !in s.ind;
    forall j | j in t.inodes ensures ListOk(t.inodes[j], j, t.blocks, t.file, t.ind) {
      assert j != i ==> ListOk(s.inodes[j], j, s.blocks, s.file, s.ind);
    }
  }

  /** File i has exactly the blocks its size calls for. */
  ghost predicate Exact(s: State, i: int) { i in s.inodes && Upto(s.file, s.ind, i, s.inodes[i].size) }

  /** The blocks of a file of z bytes, the indirect block included. */
  function Need(z: int): int { (z + BSIZE - 1) / BSIZE + (if z > NDIRECT * BSIZE then 1 else 0) }

  /** One round of iappend: the block at the current end is found or added, and filled. */
  method AppendRound(m: Image, i: int, off: int, tot: int, src: seq<int>, ghost s: State) returns (n1: int)
    requires m.Valid() && Patched(s, m.St(), i, off, tot, src) && i in m.inodes && 0 <= off && 0 <= tot < |src|
    requires off + |src| <= MAXFILE * BSIZE && Upto(m.file, m.ind, i, off + tot)
    requires m.freeblock + Need(off + |src|) - Need(off + tot) <= m.fssize
    modifies m
    ensures m.Valid() && i in m.inodes && m.freeinode == old(m.freeinode) && 0 < n1 && tot + n1 <= |src|
    ensures Patched(s, m.St(), i, off, tot + n1, src) && Upto(m.file, m.ind, i, off + tot + n1)
    ensures m.freeblock == old(m.freeblock) + Need(off + tot + n1) - Need(off + tot)
    ensures forall j :: j != i ==> (j in m.ind <==> j in old(m.ind))
  {
    hide Inv, Patched, Grew, Upto, Need, Fresh;
    var fbn, n := (off + tot) / BSIZE, |src|;
    ghost var t := m.St();
    n1 := if n - tot < (fbn + 1) * BSIZE - (off + tot) then n - tot else (fbn + 1) * BSIZE - (off + tot);
    NeedStep(t.file, t.ind, i, off + tot, n1);
    NeedUp(off + tot + n1, off + n);
    var x := m.MapBlock(i, fbn);
    ghost var u := m.St();
    GrewKeeps(t, u, i, fbn);
    PatchedGrew(s, t, u, i, off, tot, src, fbn);
    UptoStep(t.file, t.ind, u.file, u.ind, i, off + tot, n1);
    PatchOne(s, u, i, off, tot, n1, src);
    TypedAbove(u, i, m.freeblock);
    m.blocks := m.blocks[x := Splice(m.blocks[x], off + tot - fbn * BSIZE, src[tot..tot + n1])];
    assert m.St() == WriteData(u, x, Splice(u.blocks[x], (off + tot) % BSIZE, src[tot..tot + n1]));
  }

  lemma NeedStep(file: map<Slot, int>, ind: map<int, int>, i: int, pos: int, n1: int)
    requires Upto(file, ind, i, pos) && 0 <= pos && 0 < n1 <= BSIZE - pos % BSIZE
    ensures Need(pos + n1) == Need(pos) + Fresh(file, ind, i, pos / BSIZE)
  {
    var fbn, o := pos / BSIZE, pos % BSIZE;
    assert pos == fbn * BSIZE + o;
    assert (pos + n1 + BSIZE - 1) / BSIZE == fbn + 1;
    assert (pos + BSIZE - 1) / BSIZE == (if o == 0 then fbn else fbn + 1);
  }

  lemma NeedUp(a: int, b: int)
    requires a <= b
    ensures Need(a) <= Need(b)
  {
  }

  lemma UptoStep(file: map<Slot, int>, ind: map<int, int>, file2: map<Slot, int>, ind2: map<int, int>, i: int,
      pos: int, n1: int)
    requires Upto(file, ind, i, pos) && 0 <= pos && 0 < n1 <= BSIZE - pos % BSIZE
    requires forall x :: x in file2 <==> x in file || x == Slot(i, pos / BSIZE)
    requires i in ind2 <==> i in ind || pos / BSIZE >= NDIRECT
    ensures Upto(file2, ind2, i, pos + n1)
  {
    var fbn := pos / BSIZE;
    assert pos == fbn * BSIZE + pos % BSIZE;
    forall n ensures Slot(i, n) in file2 <==> 0 <= n && n * BSIZE < pos + n1 {
      assert Slot(i, n) == Slot(i, fbn) <==> n == fbn;
    }
  }

  /** Appends src to file i, with no more blocks than it needs. */
  method Iappend(m: Image, i: int, src: seq<int>)
    requires m.Valid() && Exact(m.St(), i) && m.inodes[i].size + |src| <= MAXFILE * BSIZE
    requires m.freeblock + Need(m.inodes[i].size + |src|) - Need(m.inodes[i].size) <= m.fssize
    modifies m
    ensures m.Valid() && Exact(m.St(), i) && Wrote(old(m.St()), m.St(), i, old(m.inodes)[i].size, |src|, src)
    ensures m.freeblock == old(m.freeblock) + Need(old(m.inodes)[i].size + |src|) - Need(old(m.inodes)[i].size)
    ensures m.freeinode == old(m.freeinode) && forall j :: j != i ==> (j in m.ind <==> j in old(m.ind))
  {
    hide Inv, Patched, Wrote, WroteAs, Upto, Need;
    ghost var s, f0 := m.St(), m.freeblock;
    var off, n := m.inodes[i].size, |src|;
    SizeRange(s, i);
    PatchedNone(s, i, off, src);
    var tot := 0;
    while tot < n
      invariant m.Valid() && Patched(s, m.St(), i, off, tot, src) && i in m.inodes && 0 <= tot <= n
          && m.freeinode == old(m.freeinode)
      invariant m.freeblock == f0 + Need(off + tot) - Need(off) && Upto(m.file, m.ind, i, off + tot)
      invariant forall j :: j != i ==> (j in m.ind <==> j in old(m.ind))
    {
      var n1 := AppendRound(m, i, off, tot, src, s);
      tot := tot + n1;
    }
    ghost var t := m.St();
    SizeWrote(s, t, i, off, tot, tot, src);
    PatchedSize(s, t, i, off, tot, src);
    m.inodes := m.inodes[i := m.inodes[i].(size := off + tot)];
    WroteExact(s, m.St(), i, off, tot, tot, src);
  }

  lemma PatchedSize(s: State, t: State, i: int, off: int, r: int, src: seq<int>)
    requires Patched(s, t, i, off, r, src) && i in s.inodes && off == s.inodes[i].size
    ensures i in t.inodes && t.inodes[i].size == off && r >= 0
  {
    hide Byte, Others;
  }

  // ----- the last word on the root directory -----

  /** mkfs rounds the root directory's size up to the next block, even when it is whole blocks already. */
  function RoundRoot(size: int): int { (size / BSIZE + 1) * BSIZE }

  /** The rounded root directory is free of holes exactly if its entries did not fill whole blocks. */
  lemma RootHolesIff(s: State, i: int)
    requires Inv(s) && Exact(s, i) && RoundRoot(s.inodes[i].size) <= MAXFILE * BSIZE
    ensures Inv(SetSize(s, i, RoundRoot(s.inodes[i].size)))
    ensures NoHoles(SetSize(s, i, RoundRoot(s.inodes[i].size)).inodes, s.file, i) <==> s.inodes[i].size % BSIZE != 0
  {
    hide Inv;
    var z := s.inodes[i].size;
    SizeRange(s, i);
    SetSizeInv(s, i, RoundRoot(z));
    var u := SetSize(s, i, RoundRoot(z));
    assert z == z / BSIZE * BSIZE + z % BSIZE;
    if z % BSIZE == 0 {
      assert (z / BSIZE) * BSIZE < u.inodes[i].size && Slot(i, z / BSIZE) !in s.file;
    } else {
      forall n | 0 <= n && n * BSIZE < u.inodes[i].size ensures Slot(i, n) in s.file {
        assert n <= z / BSIZE;
      }
    }
  }
}

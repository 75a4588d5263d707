/** mkfs/mkfs.c main: the whole image, from the files' names and contents. */
module FsMkfs {
  import opened FsModel
  import opened FsCode
  import opened FsFile
  import opened FsImage
  import opened DirFile
  import Dir

  const NINODES := 200

  /** File i holds exactly data, and nothing but zeros beyond. */
  ghost predicate Holds(s: State, i: int, data: seq<int>) {
    i in s.inodes && s.inodes[i].size == |data| && forall k :: Byte(s, i, k) == if 0 <= k < |data| then data[k] else 0
  }

  /** The root directory's entry j: itself twice, then the files in order, file j as inode j. */
  function RootEnt(names: seq<Name>, j: int): Ent
    requires 0 <= j < |names| + 2
  {
    if j == 0 then Dir.Entry(ROOTINO, [0x2e]) else if j == 1 then Dir.Entry(ROOTINO, [0x2e, 0x2e])
        else Dir.Entry(j, names[j - 2])
  }

  predicate NamesOk(names: seq<Name>) { forall k :: 0 <= k < |names| ==> NameOk(names[k]) }

  /** The first n entries as bytes. */
  function RootBytes(names: seq<Name>, n: int): (r: seq<int>)
    requires NamesOk(names) && 0 <= n <= |names| + 2
    ensures |r| == DIRENT * n
    decreases n
  {
    if n == 0 then [] else RootBytes(names, n - 1) + Encode(RootEnt(names, n - 1))
  }

  lemma {:induction false} RootBytesAt(names: seq<Name>, n: int, j: int)
    requires NamesOk(names) && 0 <= j < n <= |names| + 2
    ensures RootBytes(names, n)[DIRENT * j..DIRENT * j + DIRENT] == Encode(RootEnt(names, j))
    decreases n
  {
    hide Encode;
    var r, e := RootBytes(names, n - 1), Encode(RootEnt(names, n - 1));
    if j == n - 1 {
      assert (r + e)[DIRENT * j..DIRENT * j + DIRENT] == e;
    } else {
      RootBytesAt(names, n - 1, j);
      assert (r + e)[DIRENT * j..DIRENT * j + DIRENT] == r[DIRENT * j..DIRENT * j + DIRENT];
    }
  }

  /** The blocks the first k files take. */
  function Total(contents: seq<seq<int>>, k: int): int
    requires 0 <= k <= |contents|
  {
    if k == 0 then 0 else Total(contents, k - 1) + Need(|contents[k - 1]|)
  }

  lemma HoldsAppend(s: State, t: State, i: int, data: seq<int>, src: seq<int>)
    requires Holds(s, i, data) && Wrote(s, t, i, |data|, |src|, src)
    ensures Holds(t, i, data + src)
  {
    hide Byte, Others;
  }

  lemma HoldsOther(s: State, t: State, i: int, j: int, data: seq<int>)
    requires Holds(s, j, data) && Others(s, t, i) && j != i
    ensures Holds(t, j, data)
  {
    forall k ensures Byte(t, j, k) == Byte(s, j, k) { assert Slot(j, k / BSIZE).i == j; }
  }

  lemma ExactOther(s: State, t: State, i: int, j: int)
    requires Exact(s, j) && Others(s, t, i) && j != i && (j in t.ind <==> j in s.ind)
    ensures Exact(t, j)
  {
    forall n ensures Slot(j, n) in t.file <==> Slot(j, n) in s.file { assert Slot(j, n).i == j; }
  }

  /** A file that has just been made is empty. */
  lemma HoldsNone(s: State, i: int)
    requires i in s.inodes && s.inodes[i].size == 0 && Upto(s.file, s.ind, i, 0)
    ensures Holds(s, i, []) && Exact(s, i)
  {
    forall k ensures Byte(s, i, k) == 0 { assert Slot(i, k / BSIZE) !in s.file; }
  }

  lemma OthersSelf(s: State, i: int)
    requires Inv(s)
    ensures Others(s, s, i)
  {
    hide Inv;
    FileBlocks(s);
  }

  /** mkfs's read loop: the file's bytes go in a block at a time. */
  method CopyIn(m: Image, i: int, data: seq<int>)
    requires m.Valid() && Exact(m.St(), i) && Holds(m.St(), i, []) && |data| <= MAXFILE * BSIZE
    requires m.freeblock + Need(|data|) <= m.fssize
    modifies m
    ensures m.Valid() && Exact(m.St(), i) && Holds(m.St(), i, data) && Others(old(m.St()), m.St(), i)
    ensures m.freeblock == old(m.freeblock) + Need(|data|) && m.freeinode == old(m.freeinode)
    ensures forall j :: j != i ==> (j in m.ind <==> j in old(m.ind))
  {
    hide Inv, Exact, Others, Need, Wrote;
    ghost var s, f0 := m.St(), m.freeblock;
    OthersSelf(s, i);
    NeedNone();
    var pos := 0;
    while pos < |data|
      invariant m.Valid() && Exact(m.St(), i) && 0 <= pos <= |data| && Holds(m.St(), i, data[..pos])
          && Others(s, m.St(), i)
      invariant m.freeblock == f0 + Need(pos) && m.freeinode == old(m.freeinode)
      invariant forall j :: j != i ==> (j in m.ind <==> j in old(m.ind))
    {
      var cc := if |data| - pos < BSIZE then |data| - pos else BSIZE;
      ghost var t := m.St();
      NeedUp(pos + cc, |data|);
      Iappend(m, i, data[pos..pos + cc]);
      WroteOthers(t, m.St(), i, pos, cc, data[pos..pos + cc]);
      OthersTrans(s, t, m.St(), i);
      HoldsAppend(t, m.St(), i, data[..pos], data[pos..pos + cc]);
      assert data[..pos] + data[pos..pos + cc] == data[..pos + cc];
      pos := pos + cc;
    }
    assert data[..pos] == data;
  }

  lemma NeedNone()
    ensures Need(0) == 0
  {
  }

  lemma WroteOthers(s: State, t: State, i: int, off: int, r: int, src: seq<int>)
    requires Wrote(s, t, i, off, r, src)
    ensures Others(s, t, i)
  {
  }

  /** Inode j is the file numbered j - 2. */
  ghost predicate FileIn(s: State, contents: seq<seq<int>>, j: int)
      { 2 <= j < |contents| + 2 && Exact(s, j) && Holds(s, j, contents[j - 2]) }

  /** The root directory and the first n files are in the image. */
  ghost predicate Made(s: State, names: seq<Name>, contents: seq<seq<int>>, n: int)
    requires NamesOk(names) && 0 <= n <= |names| == |contents|
  {
    && Exact(s, ROOTINO) && Holds(s, ROOTINO, RootBytes(names, n + 2))
    && forall j :: 2 <= j < n + 2 ==> FileIn(s, contents, j)
  }

  /** A new inode leaves the others alone. */
  lemma MadeNew(s: State, t: State, names: seq<Name>, contents: seq<seq<int>>, n: int)
    requires NamesOk(names) && 0 <= n <= |names| == |contents| && Made(s, names, contents, n)
    requires t.file == s.file && t.ind == s.ind && t.blocks == s.blocks && forall j :: j in s.inodes && j != n + 2 ==>
        j in t.inodes && t.inodes[j] == s.inodes[j]
    ensures Made(t, names, contents, n)
  {
    hide RootBytes, Byte, Upto;
    forall j, k ensures Byte(t, j, k) == Byte(s, j, k) { SameBlocks(s, t, j, k); }
    forall j | 2 <= j < n + 2 ensures FileIn(t, contents, j) { assert FileIn(s, contents, j); }
  }

  lemma SameBlocks(s: State, t: State, i: int, k: int)
    requires t.file == s.file && t.blocks == s.blocks
    ensures Byte(t, i, k) == Byte(s, i, k)
  {
  }

  /** The root directory with one entry more; the files are not touched. */
  lemma MadeEntry(s: State, t: State, names: seq<Name>, contents: seq<seq<int>>, n: int)
    requires NamesOk(names) && 0 <= n < |names| == |contents| && Made(s, names, contents, n) && n + 2 in s.inodes
    requires Wrote(s, t, ROOTINO, DIRENT * (n + 2), DIRENT, Encode(RootEnt(names, n + 2))) && Exact(t, ROOTINO)
    requires forall j :: j != ROOTINO ==> (j in t.ind <==> j in s.ind)
    requires Holds(s, n + 2, []) && Exact(s, n + 2)
    ensures Holds(t, ROOTINO, RootBytes(names, n + 3)) && Holds(t, n + 2, []) && Exact(t, n + 2)
    ensures forall j :: 2 <= j < n + 2 ==> FileIn(t, contents, j)
  {
    hide Others, Exact, Holds, Wrote, Encode;
    WroteOthers(s, t, ROOTINO, DIRENT * (n + 2), DIRENT, Encode(RootEnt(names, n + 2)));
    HoldsAppend(s, t, ROOTINO, RootBytes(names, n + 2), Encode(RootEnt(names, n + 2)));
    HoldsOther(s, t, ROOTINO, n + 2, []);
    ExactOther(s, t, ROOTINO, n + 2);
    forall j | 2 <= j < n + 2 ensures FileIn(t, contents, j) {
      assert FileIn(s, contents, j);
      HoldsOther(s, t, ROOTINO, j, contents[j - 2]);
      ExactOther(s, t, ROOTINO, j);
    }
  }

  lemma MadeFile(s: State, t: State, names: seq<Name>, contents: seq<seq<int>>, n: int)
    requires NamesOk(names) && 0 <= n < |names| == |contents| && Others(s, t, n + 2) && forall j :: j != n + 2 ==>
        (j in t.ind <==> j in s.ind)
    requires Holds(s, ROOTINO, RootBytes(names, n + 3)) && Exact(s, ROOTINO)
    requires forall j :: 2 <= j < n + 2 ==> FileIn(s, contents, j)
    requires Exact(t, n + 2) && Holds(t, n + 2, contents[n])
    ensures Made(t, names, contents, n + 1)
  {
    hide Others, Exact, Holds, RootBytes;
    HoldsOther(s, t, n + 2, ROOTINO, RootBytes(names, n + 3));
    ExactOther(s, t, n + 2, ROOTINO);
    forall j | 2 <= j < n + 3 ensures FileIn(t, contents, j) {
      if j < n + 2 {
        assert FileIn(s, contents, j);
        HoldsOther(s, t, n + 2, j, contents[j - 2]);
        ExactOther(s, t, n + 2, j);
      }
    }
  }

  /** One file: its inode, its name in the root directory, its contents. */
  method AddFile(m: Image, names: seq<Name>, contents: seq<seq<int>>, n: int)
    requires m.Valid() && NamesOk(names) && 0 <= n < |names| == |contents| <= NINODES - 2
        && |contents[n]| <= MAXFILE * BSIZE
    requires Made(m.St(), names, contents, n) && m.freeinode == n + 2
    requires m.freeblock + Need(DIRENT * (n + 3)) - Need(DIRENT * (n + 2)) + Need(|contents[n]|) <= m.fssize
    modifies m
    ensures m.Valid() && Made(m.St(), names, contents, n + 1) && m.freeinode == n + 3
    ensures m.freeblock == old(m.freeblock) + Need(DIRENT * (n + 3)) - Need(DIRENT * (n + 2)) + Need(|contents[n]|)
  {
    hide Inv, Exact, Holds, Others, Wrote, Need, Encode, RootBytes, Upto;
    ghost var s := m.St();
    var inum := m.Ialloc();
    ghost var t := m.St();
    MadeNew(s, t, names, contents, n);
    HoldsNone(t, inum);
    HoldsSize(t, ROOTINO, RootBytes(names, n + 2));
    NeedNat(|contents[n]|);
    Iappend(m, ROOTINO, Encode(Dir.Entry(inum, names[n])));
    ghost var u := m.St();
    MadeEntry(t, u, names, contents, n);
    CopyIn(m, inum, contents[n]);
    MadeFile(u, m.St(), names, contents, n);
  }

  lemma HoldsSize(s: State, i: int, data: seq<int>)
    requires Holds(s, i, data)
    ensures i in s.inodes && s.inodes[i].size == |data|
  {
  }

  lemma NeedNat(z: int)
    requires z >= 0
    ensures Need(z) >= 0
  {
  }

  /** What the image needs: its fixed part, the root directory, and the files. */
  function Blocks(nmeta: int, contents: seq<seq<int>>): int
      { nmeta + Need(DIRENT * (|contents| + 2)) + Total(contents, |contents|) }

  /** The root directory's entries: those made, and unused ones up to the rounded size. */
  function RootDir(names: seq<Name>): seq<Ent> {
    seq(RoundRoot(DIRENT * (|names| + 2)) / DIRENT, j requires 0 <= j => if j < |names| + 2 then RootEnt(names, j)
        else Dir.Entry(0, []))
  }

  /** mkfs: the image of these files; the bitmap marks exactly the blocks in use. */
  method Build(size: nat, nmeta: int, names: seq<Name>, contents: seq<seq<int>>) returns (m: Image)
    requires 0 < nmeta && NamesOk(names) && |names| == |contents| <= NINODES - 2
    requires (forall k :: 0 <= k < |contents| ==> |contents[k]| <= MAXFILE * BSIZE) && Blocks(nmeta, contents) <= size
    requires Blocks(nmeta, contents) < BPB
    ensures fresh(m) && Inv(m.St()) && m.fssize == size && 0 < m.freeblock == Blocks(nmeta, contents)
    ensures ROOTINO in m.inodes && m.inodes[ROOTINO].size >= 0 && Ents(m.St(), ROOTINO) == RootDir(names)
    ensures forall j :: 2 <= j < |contents| + 2 ==> FileIn(m.St(), contents, j)
    ensures forall k :: 0 <= k < |names| ==> Found(m.St(), names[k], contents[k])
    ensures NoHoles(m.inodes, m.file, ROOTINO) <==> (|names| + 2) % 64 != 0
    ensures Upto(m.file, m.ind, ROOTINO, DIRENT * (|names| + 2)) && m.inodes[ROOTINO].size % DIRENT == 0
  {
    hide Inv, Exact, Holds, Others, Wrote, Need, Encode, RootBytes, Upto, RootDir, NoHoles, Total;
    TotalUp(contents, 0);
    NeedNat(DIRENT * 2);
    NeedUp(DIRENT * 2, DIRENT * (|contents| + 2));
    m := new Image(size, nmeta);
    StartRoot(m, names, contents, nmeta);
    for n := 0 to |names|
      invariant fresh(m) && m.Valid() && m.fssize == size && m.freeinode == n + 2 && Made(m.St(), names, contents, n)
      invariant m.freeblock == nmeta + Need(DIRENT * (n + 2)) + Total(contents, n)
    {
      TotalStep(contents, n);
      TotalUp(contents, n + 1);
      NeedUp(DIRENT * (n + 3), DIRENT * (|contents| + 2));
      AddFile(m, names, contents, n);
    }
    ghost var s := m.St();
    HoldsSize(s, ROOTINO, RootBytes(names, |names| + 2));
    RootHolesIff(s, ROOTINO);
    RootDone(s, names, contents);
    ExactUpto(s, ROOTINO);
    var off := m.inodes[ROOTINO].size;
    m.inodes := m.inodes[ROOTINO := m.inodes[ROOTINO].(size := (off / BSIZE + 1) * BSIZE)];
    assert m.St() == SetSize(s, ROOTINO, RoundRoot(off));
    AllFound(m.St(), names, contents);
  }

  /** The root directory has an entry for the name, and the inode it gives holds the data. */
  ghost predicate Found(s: State, name: Name, data: seq<int>) {
    && ROOTINO in s.inodes && s.inodes[ROOTINO].size >= 0
    && exists e :: e in Ents(s, ROOTINO) && e.name == name && e.inum != 0 && Holds(s, e.inum, data)
  }

  lemma AllFound(s: State, names: seq<Name>, contents: seq<seq<int>>)
    requires |names| == |contents| && ROOTINO in s.inodes && s.inodes[ROOTINO].size >= 0
    requires Ents(s, ROOTINO) == RootDir(names) && forall j :: 2 <= j < |contents| + 2 ==> FileIn(s, contents, j)
    ensures forall k :: 0 <= k < |names| ==> Found(s, names[k], contents[k])
  {
    hide Ents, Holds, Exact;
    forall k | 0 <= k < |names| ensures Found(s, names[k], contents[k]) {
      var e := Dir.Entry(k + 2, names[k]);
      assert RootDir(names)[k + 2] == e && FileIn(s, contents, k + 2);
    }
  }

  /** The root inode with its first two entries. */
  method StartRoot(m: Image, names: seq<Name>, contents: seq<seq<int>>, nmeta: int)
    requires m.Valid() && m.inodes == map[] && m.freeinode == ROOTINO && m.freeblock == nmeta
    requires NamesOk(names) && |names| == |contents| && nmeta + Need(DIRENT * 2) <= m.fssize
    modifies m
    ensures m.Valid() && m.freeinode == 2 && Made(m.St(), names, contents, 0)
        && m.freeblock == nmeta + Need(DIRENT * 2) + Total(contents, 0)
  {
    hide Inv, Exact, Others, Wrote, Need, Encode, Upto, Holds;
    NeedNone();
    NeedUp(DIRENT, DIRENT * 2);
    var root := m.Ialloc();
    HoldsNone(m.St(), root);
    ghost var s := m.St();
    Iappend(m, root, Encode(Dir.Entry(root, [0x2e])));
    ghost var t := m.St();
    HoldsAppend(s, t, root, [], Encode(Dir.Entry(root, [0x2e])));
    HoldsSize(t, root, [] + Encode(Dir.Entry(root, [0x2e])));
    Iappend(m, root, Encode(Dir.Entry(root, [0x2e, 0x2e])));
    HoldsAppend(t, m.St(), root, [] + Encode(Dir.Entry(root, [0x2e])), Encode(Dir.Entry(root, [0x2e, 0x2e])));
    assert RootBytes(names, 2) == RootBytes(names, 1) + Encode(RootEnt(names, 1));
    assert RootBytes(names, 1) == RootBytes(names, 0) + Encode(RootEnt(names, 0));
  }

  lemma TotalStep(contents: seq<seq<int>>, n: int)
    requires 0 <= n < |contents|
    ensures Total(contents, n + 1) == Total(contents, n) + Need(|contents[n]|)
  {
  }

  lemma {:induction false} TotalUp(contents: seq<seq<int>>, n: int)
    requires 0 <= n <= |contents|
    ensures Total(contents, n) <= Total(contents, |contents|) && (n == 0 ==> Total(contents, n) == 0)
    decreases |contents| - n
  {
    hide Need;
    if n < |contents| {
      NeedNat(|contents[n]|);
      TotalUp(contents, n + 1);
    }
  }

  /** Rounding the root's size changes no byte; the new entries are unused. */
  lemma RootDone(s: State, names: seq<Name>, contents: seq<seq<int>>)
    requires NamesOk(names) && |names| == |contents| <= NINODES - 2 && Made(s, names, contents, |names|)
    ensures var z := RoundRoot(s.inodes[ROOTINO].size); var t := SetSize(s, ROOTINO, z);
            && z >= 0 && Ents(t, ROOTINO) == RootDir(names) && forall j :: 2 <= j < |contents| + 2 ==>
                FileIn(t, contents, j)
  {
    hide Byte, RootBytes, Decode;
    var t, n := SetSize(s, ROOTINO, RoundRoot(s.inodes[ROOTINO].size)), |names| + 2;
    forall j, k ensures Byte(t, j, k) == Byte(s, j, k) { SameBlocks(s, t, j, k); }
    forall j | 2 <= j < |contents| + 2 ensures FileIn(t, contents, j) { assert FileIn(s, contents, j); }
    forall j | 0 <= j < |RootDir(names)| ensures EntAt(t, ROOTINO, j) == RootDir(names)[j] {
      if j < n { MadeEnt(t, names, j); } else { UnusedEnt(t, names, j); }
    }
  }

  lemma BytesOf(s: State, d: int, off: int, all: seq<int>)
    requires 0 <= off <= off + DIRENT <= |all| && forall k :: 0 <= k < |all| ==> Byte(s, d, k) == all[k]
    ensures Bytes(s, d, off) == all[off..off + DIRENT]
  {
    hide Byte;
    forall x | 0 <= x < DIRENT ensures Bytes(s, d, off)[x] == all[off + x] {}
  }

  lemma RootEntOk(names: seq<Name>, j: int)
    requires NamesOk(names) && |names| <= NINODES - 2 && 0 <= j < |names| + 2
    ensures 0 <= RootEnt(names, j).inum < 65536 && NameOk(RootEnt(names, j).name)
  {
  }

  lemma MadeEnt(s: State, names: seq<Name>, j: int)
    requires NamesOk(names) && |names| <= NINODES - 2 && 0 <= j < |names| + 2
    requires forall k :: 0 <= k < DIRENT * (|names| + 2) ==> Byte(s, ROOTINO, k) == RootBytes(names, |names| + 2)[k]
    ensures EntAt(s, ROOTINO, j) == RootEnt(names, j)
  {
    hide Byte, RootBytes, Encode, Decode, Bytes, RootEnt, NameOk, NamesOk;
    RootEntOk(names, j);
    RootBytesAt(names, |names| + 2, j);
    BytesOf(s, ROOTINO, DIRENT * j, RootBytes(names, |names| + 2));
    DecodeEncode(RootEnt(names, j));
  }

  lemma UnusedEnt(s: State, names: seq<Name>, j: int)
    requires |names| + 2 <= j && forall k :: k >= DIRENT * (|names| + 2) ==> Byte(s, ROOTINO, k) == 0
    ensures EntAt(s, ROOTINO, j) == Dir.Entry(0, [])
  {
    hide Byte;
    var b := Bytes(s, ROOTINO, DIRENT * j);
    assert b[0] == 0 && b[1] == 0 && b[2..][0] == 0;
  }

  lemma ExactUpto(s: State, i: int)
    requires Exact(s, i)
    ensures Upto(s.file, s.ind, i, s.inodes[i].size)
  {
  }

  // ----- a lookup in the image -----

  lemma {:induction false} BitmapCount(n: nat, used: int)
    requires 0 <= used <= n
    ensures FreeCount(Bitmap(n, used)) == n - used
    decreases n
  {
    if n > 0 {
      var m := if used == n then n - 1 else used;
      BitmapCount(n - 1, m);
      assert Bitmap(n, used)[..n - 1] == Bitmap(n - 1, m);
    }
  }

  /** A search through the whole root directory costs one block if its rounded end is missing, and none otherwise. */
  lemma RootCost(s: State, names: seq<Name>, name: Name)
    requires |names| <= NINODES - 2 && Upto(s.file, s.ind, ROOTINO, DIRENT * (|names| + 2))
    requires ROOTINO in s.inodes && s.inodes[ROOTINO].size >= 0 && Ents(s, ROOTINO) == RootDir(names)
    requires !Present(RootDir(names), name)
    ensures Stop(Ents(s, ROOTINO), name, 0) == |RootDir(names)| && Touched(|RootDir(names)|) == (|names| + 2) / 64 + 1
    ensures ScanCost(s, ROOTINO, |RootDir(names)|) == (if (|names| + 2) % 64 == 0 then 1 else 0)
  {
    hide Upto, Ents;
    var n := |names| + 2;
    var b := n / 64;
    assert DIRENT * n / BSIZE == b by { assert DIRENT * n == b * BSIZE + DIRENT * (n % 64); }
    assert |RootDir(names)| == 64 * (b + 1);
    assert Touched(64 * (b + 1)) == b + 1;
    RootBlocks(s, n, b);
    SpanNone(s.file, ROOTINO in s.ind, ROOTINO, 0, b);
    SpanSnoc(s.file, ROOTINO in s.ind, ROOTINO, 0, b);
  }

  lemma RootBlocks(s: State, n: int, b: int)
    requires 0 <= n <= NINODES && b == n / 64 && Upto(s.file, s.ind, ROOTINO, DIRENT * n)
    ensures (forall k :: 0 <= k < b ==> Slot(ROOTINO, k) in s.file) && (Slot(ROOTINO, b) in s.file <==> n % 64 != 0)
  {
    assert n == 64 * b + n % 64;
    forall k | 0 <= k < b ensures Slot(ROOTINO, k) in s.file { assert k * BSIZE < DIRENT * n; }
  }

  /**
    A lookup of a name that is not there, in the root directory of a new image: it panics exactly if the
    directory has its hole and the files fill the disk, and gives the hole a block otherwise.
   */
  method BootLookup(size: nat, nmeta: int, names: seq<Name>, contents: seq<seq<int>>, name: Name)
      returns (panic: bool, f: Fs)
    requires 0 < nmeta && NamesOk(names) && |names| == |contents| <= NINODES - 2 && NameOk(name)
    requires (forall k :: 0 <= k < |contents| ==> |contents[k]| <= MAXFILE * BSIZE) && Blocks(nmeta, contents) <= size
    requires Blocks(nmeta, contents) < BPB && !Present(RootDir(names), name)
    ensures panic <==> (|names| + 2) % 64 == 0 && Blocks(nmeta, contents) == size
    ensures !panic ==> f.Valid() && Slot(ROOTINO, (|names| + 2) / 64) in f.file
    ensures !panic ==>
        FreeCount(f.bits) == size - Blocks(nmeta, contents) - (if (|names| + 2) % 64 == 0 then 1 else 0)
  {
    hide Inv, Upto, RootDir, NoHoles, Span, FreeCount, Ents, Stop, Touched, Present, Blocks, NamesOk, NameOk, FileIn;
    var m := Build(size, nmeta, names, contents);
    f := new Fs(Bitmap(size, m.freeblock), m.blocks, m.inodes, m.role, m.file, m.ind);
    BitmapCount(size, m.freeblock);
    ghost var s := f.St();
    RootCost(s, names, name);
    var i;
    panic, i := Dirlookup(f, ROOTINO, name);
  }

  lemma RootRead(s: State, names: seq<Name>)
    requires |names| <= NINODES - 2 && Upto(s.file, s.ind, ROOTINO, DIRENT * (|names| + 2))
    requires ROOTINO in s.inodes && s.inodes[ROOTINO].size >= 0 && s.inodes[ROOTINO].size % DIRENT == 0
    requires Ents(s, ROOTINO) == RootDir(names)
    ensures ReadCost(s, ROOTINO, DIRENT * (|names| + 2), DIRENT) == (if (|names| + 2) % 64 == 0 then 1 else 0)
  {
    hide Upto;
    var n := |names| + 2;
    var b, off, size := n / 64, DIRENT * n, s.inodes[ROOTINO].size;
    assert off == b * BSIZE + DIRENT * (n % 64);
    assert off / BSIZE == b;
    assert |RootDir(names)| == 64 * (b + 1) && size / DIRENT == |RootDir(names)|;
    assert size == DIRENT * |RootDir(names)|;
    assert ReadLen(size, off, DIRENT) == DIRENT && EndBlock(off, DIRENT) == b + 1;
    RootBlocks(s, n, b);
    assert Span(s.file, ROOTINO in s.ind, ROOTINO, b, b + 1) == if n % 64 == 0 then 1 else 0;
  }

  /**
    Reading on in the root directory of a new image, past its last entry, as ls does: the kernel panics exactly
    if the directory has its hole, a block is free, and no operation happens to be outstanding.
   */
  method BootRead(size: nat, nmeta: int, names: seq<Name>, contents: seq<seq<int>>, outstanding: nat)
      returns (panic: bool)
    requires 0 < nmeta && NamesOk(names) && |names| == |contents| <= NINODES - 2
    requires (forall k :: 0 <= k < |contents| ==> |contents[k]| <= MAXFILE * BSIZE) && Blocks(nmeta, contents) <= size
    requires Blocks(nmeta, contents) < BPB
    ensures panic <==> outstanding == 0 && (|names| + 2) % 64 == 0 && Blocks(nmeta, contents) < size
  {
    hide Inv, Upto, RootDir, NoHoles, FreeCount, Ents, Blocks, NamesOk, FileIn, ReadCost, Quiet, Got;
    var m := Build(size, nmeta, names, contents);
    var f := new Fs(Bitmap(size, m.freeblock), m.blocks, m.inodes, m.role, m.file, m.ind);
    BitmapCount(size, m.freeblock);
    RootRead(f.St(), names);
    var r, off, dst;
    panic, r, off, dst := Fileread(f, ROOTINO, DIRENT * (|names| + 2), DIRENT, DIRENT, outstanding);
  }
}

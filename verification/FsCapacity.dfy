/**
  What a chunk of kernel/file.c filewrite takes of the log: its budget of ten blocks is reached on large disks
  only.
 */
module FsCapacity {
  import opened FsModel
  import opened FsCode
  import opened FsFile
  import opened FsTrunc
  import LogModel
  import LogCapacity

  /** The four blocks at hand lie under four bitmap blocks. */
  predicate Scattered(bits: seq<bool>, free: seq<int>) {
    && |free| == 4 && (forall j :: 0 <= j < 4 ==> 0 <= free[j] < |bits| && !bits[free[j]])
    && forall j, k :: 0 <= j < k < 4 ==> free[j] / BPB != free[k] / BPB
  }

  /** File i ends inside its twelfth block, and has no indirect block yet. */
  ghost predicate AtTwelfth(s: State, i: int) {
    i in s.inodes && NoHoles(s.inodes, s.file, i) && i !in s.ind && 11 * BSIZE < s.inodes[i].size < 12 * BSIZE
  }

  /** Appending a whole chunk takes three data blocks and the indirect block. */
  lemma FourBlocks(s: State, i: int)
    requires Inv(s) && AtTwelfth(s, i)
    ensures WriteCost(s, i, s.inodes[i].size, MAXCHUNK) == 4
    ensures s.inodes[i].size / BSIZE == 11 && Slot(i, 11) in s.file && s.file[Slot(i, 11)] in s.role
            && s.role[s.file[Slot(i, 11)]] != Free
  {
    hide Inv, FreeCount;
    var off := s.inodes[i].size;
    assert off / BSIZE == 11 && EndBlock(off, MAXCHUNK) == 15;
    assert 11 * BSIZE < off;
    FileBlocks(s);
    IndListed(s, i, 12);
    IndListed(s, i, 13);
    IndListed(s, i, 14);
    assert Span(s.file, true, i, 15, 15) == 0;
    assert Span(s.file, true, i, 14, 15) == 1;
    assert Span(s.file, true, i, 13, 15) == 2;
    assert Span(s.file, false, i, 12, 15) == 4;
  }

  lemma FourMaps(maps: set<int>, free: seq<int>)
    requires |free| == 4 && (forall j :: 0 <= j < 4 ==> free[j] / BPB in maps)
    requires forall j, k :: 0 <= j < k < 4 ==> free[j] / BPB != free[k] / BPB
    ensures |maps| >= 4
  {
    SubsetSize({free[0] / BPB, free[1] / BPB, free[2] / BPB, free[3] / BPB}, maps);
  }

  lemma FiveBlocks(blks: set<int>, free: seq<int>, b: int)
    requires |free| == 4 && b in blks && (forall j :: 0 <= j < 4 ==> free[j] in blks && free[j] != b)
    requires forall j, k :: 0 <= j < k < 4 ==> free[j] / BPB != free[k] / BPB
    ensures |blks| >= 5
  {
    SubsetSize({free[0], free[1], free[2], free[3], b}, blks);
  }

  lemma UsedBit(s: State, b: int)
    requires Inv(s) && b in s.role && s.role[b] != Free
    ensures 0 <= b < |s.bits| && s.bits[b]
  {
    hide ContentOk, OwnOk, ListsOk;
  }

  lemma AllLogged(s: State, t: State, maps: set<int>, blks: set<int>, torn: set<int>, free: seq<int>)
    requires Logged(s, t, {}, maps, {}, blks, torn) && Full(t.bits) && Scattered(s.bits, free)
    ensures forall j :: 0 <= j < 4 ==> free[j] / BPB in maps && free[j] in blks
  {
  }

  /** With the last four free blocks scattered over the bitmap, a chunk logs ten blocks: filewrite's whole budget. */
  method TenBlocks(f: Fs, i: int, src: seq<int>, ghost free: seq<int>)
    requires f.Valid() && f.maps == {} && f.blks == {} && f.inos == {} && AtTwelfth(f.St(), i)
    requires FreeCount(f.bits) == 4 && Scattered(f.bits, free) && |src| == MAXCHUNK
    modifies f
    ensures f.Valid() && Wrote(old(f.St()), f.St(), i, old(f.inodes)[i].size, |src|, src) && Full(f.bits)
    ensures Logs(f) == 10
  {
    hide Inv, FreeCount, Logged, WriteCost, Byte;
    ghost var s := f.St();
    var off := f.inodes[i].size;
    FourBlocks(s, i);
    SizeRange(s, i);
    UsedBit(s, s.file[Slot(i, 11)]);
    var r, p := Writei(f, i, off, src, |src|);
    CountFull(f.bits);
    AllLogged(s, f.St(), f.maps, f.blks, Torn(f.file, i, off, r, p), free);
    FourMaps(f.maps, free);
    assert ByteLogged(f.file, f.blks, i, off);
    FiveBlocks(f.blks, free, f.file[Slot(i, 11)]);
  }

  // ----- such a disk -----

  const BLOCKS := 4 * BPB
  // boot block, super block, log, inode blocks (16 inodes each), bitmap blocks
  const META := 2 + LogModel.LOGSIZE + (BLOCKS / 16 + 1) + (BLOCKS / BPB + 1)

  /** One block in each bitmap block's range is free; file 1 has twelve blocks, every other file one. */
  function Use(b: int): Role {
    if b % BPB == BPB - 1 then Free
    else if b < META then Meta
    else if b < META + NDIRECT then Data(1, b - META)
    else Data(b, 0)
  }

  function OneBlock(b: int): Inode { Inode(BSIZE, [b] + Zeros(NDIRECT)) }

  function Twelve(): Inode { Inode(11 * BSIZE + 512, seq(NDIRECT, n => META + n) + [0]) }

  /** Block b is the whole of file b. */
  predicate Alone(b: int) { META + NDIRECT <= b < BLOCKS && b % BPB != BPB - 1 }

  function Roles(): map<int, Role> { map b | 0 <= b < BLOCKS :: Use(b) }

  function Files(): map<Slot, int> { map b | 0 <= b < BLOCKS && Use(b).Data? :: Slot(Use(b).i, Use(b).n) := b }

  function Inodes(): map<int, Inode> { (map b | 0 <= b < BLOCKS && Alone(b) :: OneBlock(b))[1 := Twelve()] }

  function TenDisk(): State {
    State(seq(BLOCKS, b => b % BPB != BPB - 1), map b | b in Roles() :: Zeros(BSIZE), Inodes(), Roles(), Files(), map[])
  }

  lemma FileAt(x: Slot)
    ensures x in Files() <==> (x.i == 1 && 0 <= x.n < NDIRECT) || (Alone(x.i) && x.n == 0)
    ensures x in Files() ==> Files()[x] == (if x.i == 1 then META + x.n else x.i)
  {
    if x.i == 1 && 0 <= x.n < NDIRECT { assert Use(META + x.n) == Data(x.i, x.n); }
    if Alone(x.i) && x.n == 0 { assert Use(x.i) == Data(x.i, x.n); }
  }

  lemma {:induction false} OneInEach(n: nat)
    ensures FreeCount(seq(n, b => b % BPB != BPB - 1)) == n / BPB
  {
    if n > 0 {
      OneInEach(n - 1);
      var bits := seq(n, b => b % BPB != BPB - 1);
      assert bits[..n - 1] == seq(n - 1, b => b % BPB != BPB - 1);
    }
  }

  lemma UseBits()
    ensures BitsOk(TenDisk().bits, Roles()) && ContentOk(TenDisk().blocks, Roles())
  {
    hide Files, Inodes;
  }

  lemma FileUse(x: Slot)
    requires x in Files()
    ensures Files()[x] in Roles() && Roles()[Files()[x]] == Data(x.i, x.n) && 0 <= x.n < NDIRECT && x.i in Inodes()
  {
    hide Files;
    FileAt(x);
  }

  lemma UseFile(b: int)
    requires b in Roles() && Roles()[b].Data?
    ensures var x := Slot(Roles()[b].i, Roles()[b].n); x in Files() && Files()[x] == b
  {
    hide Files;
    FileAt(Slot(Use(b).i, Use(b).n));
  }

  lemma NoInd()
    ensures 0 in Roles() && Roles()[0] == Meta && forall b :: b in Roles() ==> !Roles()[b].Ind?
  {
  }

  lemma UseOwn()
    ensures OwnOk(Roles(), Files(), map[], Inodes())
  {
    hide Roles, Files, Inodes;
    NoInd();
    forall x | x in Files()
      ensures Files()[x] in Roles() && Roles()[Files()[x]] == Data(x.i, x.n) && 0 <= x.n < NDIRECT && x.i in Inodes()
    {
      FileUse(x);
    }
    forall b | b in Roles() && Roles()[b].Data?
      ensures var x := Slot(Roles()[b].i, Roles()[b].n); x in Files() && Files()[x] == b
    {
      UseFile(b);
    }
  }

  lemma UseLists()
    ensures ListsOk(Inodes(), TenDisk().blocks, Files(), map[])
  {
    hide Files, Use;
    forall i | i in Inodes() ensures ListOk(Inodes()[i], i, TenDisk().blocks, Files(), map[]) {
      forall n | 0 <= n < NDIRECT ensures Inodes()[i].addrs[n] == Entry(Files(), Slot(i, n)) {
        FileAt(Slot(i, n));
      }
    }
  }

  /** TenDisk is a disk that TenBlocks fits. */
  lemma TenDiskFits()
    ensures Inv(TenDisk()) && AtTwelfth(TenDisk(), 1) && FreeCount(TenDisk().bits) == 4 && |TenDisk().bits| == 4 * BPB
    ensures Scattered(TenDisk().bits, [BPB - 1, 2 * BPB - 1, 3 * BPB - 1, 4 * BPB - 1])
  {
    hide Roles, Files, BitsOk, ContentOk, OwnOk, ListsOk, FreeCount;
    UseBits();
    UseOwn();
    UseLists();
    OneInEach(BLOCKS);
    forall n | 0 <= n && n * BSIZE < Inodes()[1].size ensures Slot(1, n) in Files() { FileAt(Slot(1, n)); }
  }

  // ----- truncation -----

  const RANGES := 12
  // as above, with room for 200 inodes
  const SMALL := 2 + LogModel.LOGSIZE + (200 / 16 + 1) + (RANGES + 1)

  /** The n-th block of file 1, the last of those under bitmap block n. */
  function Far(n: int): int { n * BPB + BPB - 1 }

  function WideUse(b: int): Role {
    if b < SMALL then Meta else if b % BPB == BPB - 1 then Data(1, b / BPB) else Free
  }

  function WideRoles(): map<int, Role> { map b | 0 <= b < RANGES * BPB :: WideUse(b) }

  function WideFiles(): map<Slot, int> { map n | 0 <= n < RANGES && Far(n) >= 0 :: Slot(1, n) := Far(n) }

  function WideInode(): Inode { Inode(RANGES * BSIZE, seq(RANGES, n => Far(n)) + [0]) }

  /** A disk of twelve bitmap blocks with one file, a block under each. */
  function WideDisk(): State {
    State(seq(RANGES * BPB, b => WideUse(b) != Free), map b | b in WideRoles() :: Zeros(BSIZE),
          map[1 := WideInode()], WideRoles(), WideFiles(), map[])
  }

  lemma WideFile(n: int)
    ensures Slot(1, n) in WideFiles() <==> 0 <= n < RANGES
    ensures 0 <= n < RANGES ==> WideFiles()[Slot(1, n)] == Far(n) && Far(n) / BPB == n && Far(n) % BPB == BPB - 1
    ensures 0 <= n < RANGES ==> SMALL <= Far(n) < RANGES * BPB
  {
  }

  lemma WideBits()
    ensures BitsOk(WideDisk().bits, WideRoles()) && ContentOk(WideDisk().blocks, WideRoles())
  {
    hide WideFiles, WideInode;
  }

  lemma WideOwn()
    ensures OwnOk(WideRoles(), WideFiles(), map[], map[1 := WideInode()])
  {
    hide WideInode;
    forall x | x in WideFiles()
      ensures x.i == 1 && 0 <= x.n < RANGES && WideFiles()[x] in WideRoles()
          && WideRoles()[WideFiles()[x]] == Data(1, x.n)
    {
      assert x == Slot(1, x.n);
      WideFile(x.n);
    }
    forall b | b in WideRoles() && WideRoles()[b].Data?
      ensures WideRoles()[b] == Data(1, b / BPB) && Slot(1, b / BPB) in WideFiles()
          && WideFiles()[Slot(1, b / BPB)] == b
    {
      assert b == b / BPB * BPB + b % BPB;
      WideFile(b / BPB);
    }
  }

  lemma WideLists()
    ensures ListsOk(map[1 := WideInode()], WideDisk().blocks, WideFiles(), map[])
  {
    hide WideFiles, WideRoles;
    forall n | 0 <= n < NDIRECT ensures WideInode().addrs[n] == Entry(WideFiles(), Slot(1, n)) { WideFile(n); }
  }

  lemma WideInv()
    ensures Inv(WideDisk())
  {
    hide WideFiles, WideRoles, WideInode, BitsOk, ContentOk, OwnOk, ListsOk;
    WideBits();
    WideOwn();
    WideLists();
  }

  lemma WideMaps()
    ensures |MapsOf(WideDisk(), 1)| == RANGES
  {
    hide WideFiles, WideRoles, WideInode;
    var s := WideDisk();
    forall n | 0 <= n < RANGES ensures n in MapsOf(s, 1) {
      WideFile(n);
      assert Slot(1, n) in s.file && s.file[Slot(1, n)] / BPB == n;
    }
    forall n | n in MapsOf(s, 1) ensures 0 <= n < RANGES {
      var m :| 0 <= m < MAXFILE && Slot(1, m) in s.file && n == s.file[Slot(1, m)] / BPB;
      WideFile(m);
    }
    CountBelow(MapsOf(s, 1), RANGES);
  }

  lemma {:induction false} CountBelow(a: set<int>, n: nat)
    requires forall m :: m in a <==> 0 <= m < n
    ensures |a| == n
  {
    if n > 0 {
      CountBelow(a - {n - 1}, n - 1);
    } else {
      assert forall m :: m !in a;
    }
  }

  /** itrunc logs more than the MAXOPBLOCKS blocks that begin_op has reserved for its operation. */
  method TruncateTooMuch() returns (f: Fs)
    ensures fresh(f) && f.Valid() && Logs(f) == 13 > LogModel.MAXOPBLOCKS
  {
    hide Inv, WideDisk, MapsOf, Truncated;
    WideInv();
    WideMaps();
    WideHas();
    ghost var s := WideDisk();
    f := new Fs(WideDisk().bits, WideDisk().blocks, WideDisk().inodes, s.role, s.file, s.ind);
    Itrunc(f, 1);
  }

  /** On a disk of at most nine bitmap blocks it cannot. */
  lemma TruncateFits(s: State, i: int)
    requires Inv(s) && i in s.inodes
    ensures |MapsOf(s, i)| <= MapBlocks(|s.bits|)
    ensures |s.bits| <= 9 * BPB ==> |MapsOf(s, i)| + 1 <= LogModel.MAXOPBLOCKS
  {
    hide ListsOk, ContentOk;
    forall m | m in MapsOf(s, i) ensures 0 <= m < MapBlocks(|s.bits|) {
      var b: int;
      if m in MapsTo(s.file, i, MAXFILE) {
        var n :| 0 <= n < MAXFILE && Slot(i, n) in s.file && m == s.file[Slot(i, n)] / BPB;
        b := s.file[Slot(i, n)];
      } else {
        b := s.ind[i];
      }
      assert b in s.role && 0 <= b < |s.bits| && m == b / BPB;
    }
    Below(MapsOf(s, i), MapBlocks(|s.bits|));
  }

  lemma WideHas()
    ensures 1 in WideDisk().inodes
  {
  }

  // ----- on the log -----

  /**
    With the log mkfs lays out, operations that log no more than a file write does can reach log_write's panic
    exactly if the disk has more than three bitmap blocks' worth of blocks.
   */
  lemma FileWrites(p: LogModel.Params)
    requires LogModel.ValidParams(p) && p.size == LogModel.LOGSIZE && p.total - p.size >= LogModel.LOGSIZE
    requires p.opBlocks == ChunkBlocks(p.total)
    ensures (forall s, t, b :: LogCapacity.Reachable(p, s) ==> !LogCapacity.Panics(p, s, t, b)) <==> p.total <= 3 * BPB
  {
    LogCapacity.MkfsLayout(p);
  }
}

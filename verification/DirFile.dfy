/**
  A directory's entries in its bytes (kernel/fs.h struct dirent, kernel/fs.c dirlookup and
  dirlink): 16 bytes each, read and written through the file's blocks.  What dirlink does to
  the bytes is what it does to the sequence of entries, and it fails without a trace.
 */
module DirFile {
  import opened FsModel
  import opened FsCode
  import opened FsFile
  import Dir

  type Name = seq<int>
  type Ent = Dir.Entry<Name>

  const DIRENT := 16
  const PERBLOCK := 64         // BSIZE / DIRENT

  // ----- one entry as bytes -----

  predicate ByteOk(v: int) { 0 <= v < 256 }

  /** A C string of at most 14 characters. */
  predicate NameOk(name: Name)
      { |name| <= Dir.DIRSIZ && forall k :: 0 <= k < |name| ==> ByteOk(name[k]) && name[k] != 0 }

  /** strncpy to 14 bytes. */
  function Pad(name: Name): (r: seq<int>)
    requires |name| <= Dir.DIRSIZ
    ensures |r| == Dir.DIRSIZ && r[..|name|] == name && forall k :: |name| <= k < Dir.DIRSIZ ==> r[k] == 0
  {
    name + seq(Dir.DIRSIZ - |name|, _ => 0)
  }

  /** The bytes up to the first NUL. */
  function Chop(bs: seq<int>): (r: Name)
    ensures |r| <= |bs| && r == bs[..|r|] && (forall k :: 0 <= k < |r| ==> r[k] != 0) && (|r| < |bs| ==> bs[|r|] == 0)
  {
    if bs == [] || bs[0] == 0 then [] else [bs[0]] + Chop(bs[1..])
  }

  function Encode(e: Ent): (r: seq<int>)
    requires |e.name| <= Dir.DIRSIZ
    ensures |r| == DIRENT
  {
    [e.inum % 256, e.inum / 256] + Pad(e.name)
  }

  function Decode(bs: seq<int>): Ent
    requires |bs| == DIRENT
  {
    Dir.Entry(bs[0] + 256 * bs[1], Chop(bs[2..]))
  }

  lemma DecodeEncode(e: Ent)
    requires 0 <= e.inum < 65536 && NameOk(e.name)
    ensures Decode(Encode(e)) == e
  {
    var bs := Encode(e);
    assert bs[2..] == Pad(e.name);
    ChopPad(e.name);
  }

  lemma ChopPad(name: Name)
    requires NameOk(name)
    ensures Chop(Pad(name)) == name
  {
    var p := Pad(name);
    forall k | 0 <= k < |name| ensures p[k] != 0 { assert p[k] == p[..|name|][k]; }
    ChopIs(p, |name|);
  }

  lemma {:induction false} ChopIs(bs: seq<int>, n: int)
    requires 0 <= n <= |bs| && (forall k :: 0 <= k < n ==> bs[k] != 0) && (n < |bs| ==> bs[n] == 0)
    ensures Chop(bs) == bs[..n]
    decreases n
  {
    if n > 0 {
      ChopIs(bs[1..], n - 1);
      assert bs[..n] == [bs[0]] + bs[1..][..n - 1];
    }
  }

  // ----- the entries of a directory -----

  function Bytes(s: State, d: int, off: int): (r: seq<int>)
    ensures |r| == DIRENT
  {
    seq(DIRENT, j => Byte(s, d, off + j))
  }

  function EntAt(s: State, d: int, k: int): Ent { Decode(Bytes(s, d, DIRENT * k)) }

  function Ents(s: State, d: int): (r: seq<Ent>)
    requires d in s.inodes && s.inodes[d].size >= 0
    ensures |r| == s.inodes[d].size / DIRENT && forall k :: 0 <= k < |r| ==> r[k] == EntAt(s, d, k)
  {
    seq(s.inodes[d].size / DIRENT, k => EntAt(s, d, k))
  }

  /** The size, and all bytes, of file d are the same, and so are all other files. */
  ghost predicate Same(s: State, t: State, d: int) {
    Others(s, t, d) && d in s.inodes && d in t.inodes && t.inodes[d].size == s.inodes[d].size
        && forall k :: Byte(t, d, k) == Byte(s, d, k)
  }

  lemma SameEnts(s: State, t: State, d: int)
    requires Same(s, t, d) && s.inodes[d].size >= 0
    ensures Ents(t, d) == Ents(s, d)
  {
    hide Byte, Others;
    forall k ensures EntAt(t, d, k) == EntAt(s, d, k) { assert Bytes(t, d, DIRENT * k) == Bytes(s, d, DIRENT * k); }
  }

  // ----- dirlookup and dirlink on the bytes -----

  /** The bytes are those of entry k, and its block is there. */
  ghost predicate ReadEnt(s: State, f: Fs, d: int, k: int, de: Ent)
    reads f
  {
    de == EntAt(s, d, k) && Slot(d, DIRENT * k / BSIZE) in f.file
  }

  /** An entry lies in one block. */
  lemma OneBlock(k: int)
    requires k >= 0
    ensures DIRENT * k / BSIZE == k / PERBLOCK && EndBlock(DIRENT * k, DIRENT) == k / PERBLOCK + 1
  {
    assert DIRENT * k == k / PERBLOCK * BSIZE + DIRENT * (k % PERBLOCK);
    assert DIRENT * k + DIRENT - 1 == k / PERBLOCK * BSIZE + (DIRENT * (k % PERBLOCK) + DIRENT - 1);
  }

  lemma OneSpan(file: map<Slot, int>, ind: map<int, int>, d: int, n: int)
    ensures Span(file, d in ind, d, n, n + 1) == Fresh(file, ind, d, n)
  {
  }

  /** readi of one entry; a short read panics: exactly if its block is missing and cannot be had. */
  method ReadEntry(f: Fs, d: int, k: int, ghost s: State) returns (panic: bool, de: Ent)
    requires f.Valid() && d in f.inodes && Same(s, f.St(), d) && 0 <= k && DIRENT * k + DIRENT <= s.inodes[d].size
    modifies f
    ensures f.Valid() && d in f.inodes && Same(s, f.St(), d) && forall x :: x in old(f.file) ==> x in f.file
    ensures NoHoles(old(f.inodes), old(f.file), d) ==> f.St() == old(f.St())
    ensures panic <==> Fresh(old(f.file), old(f.ind), d, k / PERBLOCK) > FreeCount(old(f.bits))
    ensures !panic ==> ReadEnt(s, f, d, k, de) && Paid(old(f.St()), f.St(), d, k / PERBLOCK)
  {
    hide Inv, Byte, Full, NoHoles, Others, Decode, FreeCount, Span, Fresh, Paid, Filled, EndBlock;
    SizeRange(f.St(), d);
    OneBlock(k);
    OneSpan(f.file, f.ind, d, k / PERBLOCK);
    ghost var t := f.St();
    var r, dst := Readi(f, d, DIRENT * k, DIRENT, DIRENT);
    QuietSame(s, t, f.St(), d);
    if r != DIRENT {
      return true, Dir.Entry(0, []);  // panic("dirlookup read") or panic("dirlink read")
    }
    FilledOne(t, f.St(), d, k / PERBLOCK);
    forall j | 0 <= j < DIRENT ensures dst[j] == Byte(s, d, DIRENT * k + j) {
      assert Got(t, f.file, d, DIRENT * k + j, dst[j]);
    }
    assert dst == Bytes(s, d, DIRENT * k);
    assert Got(t, f.file, d, DIRENT * k + 0, dst[0]);
    return false, Decode(dst);
  }

  lemma QuietSame(s: State, t: State, u: State, d: int)
    requires Same(s, t, d) && Quiet(t, u, d)
    ensures Same(s, u, d) && forall x :: x in t.file ==> x in u.file
  {
    hide Byte, Others;
    OthersTrans(s, t, u, d);
  }

  /** Entry k is in use, for this name. */
  predicate IsFor(e: Ent, name: Name) { e.inum != 0 && e.name == name }

  predicate Present(ents: seq<Ent>, name: Name) { exists k :: 0 <= k < |ents| && IsFor(ents[k], name) }

  /** A name is in the directory's map exactly if it is found. */
  lemma PresentNames(ents: seq<Ent>, name: Name)
    requires Dir.Distinct(ents)
    ensures Present(ents, name) <==> name in Dir.Names(ents)
  {
    hide Dir.Names;
    if Present(ents, name) {
      var k :| 0 <= k < |ents| && IsFor(ents[k], name);
      assert Dir.For(ents, k, name);
      Dir.NamesAt(ents, k, name);
    }
    if name in Dir.Names(ents) {
      Dir.NamesAt(ents, 0, name);
      var k :| Dir.For(ents, k, name);
      assert IsFor(ents[k], name);
    }
  }

  /** How many entries a search for the name looks at. */
  function Stop(ents: seq<Ent>, name: Name, k: int): (r: int)
    requires 0 <= k <= |ents|
    ensures k <= r <= |ents| && (k < |ents| ==> r > k) && (!Present(ents, name) ==> r == |ents|)
    decreases |ents| - k
  {
    if k == |ents| then k else if IsFor(ents[k], name) then k + 1 else Stop(ents, name, k + 1)
  }

  /** The blocks that the first k entries lie in. */
  function Touched(k: int): int { (k + PERBLOCK - 1) / PERBLOCK }

  /** The blocks that reading the first k entries of directory d adds to it. */
  function ScanCost(s: State, d: int, k: int): int { Span(s.file, d in s.ind, d, 0, Touched(k)) }

  /** t is s with the first c blocks of directory d there. */
  ghost predicate Scanned(s: State, t: State, d: int, c: int) {
    Filled(s, t, d, 0, c) && FreeCount(t.bits) == FreeCount(s.bits) - Span(s.file, d in s.ind, d, 0, c)
  }

  lemma ScannedNone(s: State, d: int)
    ensures Scanned(s, s, d, 0)
  {
    FilledNone(s, d, 0);
  }

  /** One block more, or one of the blocks again. */
  lemma ScannedOn(s: State, t: State, u: State, d: int, c: int, n: int)
    requires Scanned(s, t, d, c) && Paid(t, u, d, n) && 0 <= n <= c
    ensures Scanned(s, u, d, if n == c then c + 1 else c)
  {
    hide FreeCount, Span;
    if n == c {
      FilledOn(s, t, u, d, 0, c);
      SpanSnoc(s.file, d in s.ind, d, 0, c);
    } else {
      assert Slot(d, n) in t.file && (n >= NDIRECT ==> d in t.ind);
    }
  }

  lemma ScannedStop(s: State, t: State, d: int, c: int, n: int)
    requires Scanned(s, t, d, c) && 0 <= n <= c && Fresh(t.file, t.ind, d, n) > FreeCount(t.bits)
    ensures n == c && Span(s.file, d in s.ind, d, 0, c + 1) > FreeCount(s.bits)
  {
    hide FreeCount, Span;
    assert Slot(d, n) !in t.file;
    SpanSnoc(s.file, d in s.ind, d, 0, c);
  }

  lemma TouchedAt(k: int)
    requires k >= 0
    ensures 0 <= k / PERBLOCK <= Touched(k) && Touched(k + 1) == k / PERBLOCK + 1
    ensures Touched(k) == (if k % PERBLOCK == 0 then k / PERBLOCK else k / PERBLOCK + 1) && Touched(0) == 0
  {
    assert k == k / PERBLOCK * PERBLOCK + k % PERBLOCK;
  }

  lemma TouchedUp(a: int, b: int)
    requires a <= b
    ensures Touched(a) <= Touched(b)
  {
  }

  /** The next entry of a scan, in the first c blocks or in the one after. */
  method ScanEntry(f: Fs, d: int, k: int, ghost s: State, ghost c: int) returns (panic: bool, de: Ent)
    requires f.Valid() && d in f.inodes && Same(s, f.St(), d) && 0 <= k && DIRENT * k + DIRENT <= s.inodes[d].size
    requires Scanned(s, f.St(), d, c) && k / PERBLOCK <= c
    modifies f
    ensures f.Valid() && d in f.inodes && Same(s, f.St(), d) && f.inodes[d].size == s.inodes[d].size
    ensures NoHoles(old(f.inodes), old(f.file), d) ==> f.St() == old(f.St())
    ensures panic ==> k / PERBLOCK == c && Span(s.file, d in s.ind, d, 0, c + 1) > FreeCount(s.bits)
    ensures !panic ==> de == EntAt(s, d, k) && Slot(d, DIRENT * k / BSIZE) in f.file
    ensures !panic ==> Scanned(s, f.St(), d, if k / PERBLOCK == c then c + 1 else c)
  {
    hide Inv, Byte, Full, NoHoles, Others, Decode, FreeCount, Span, Fresh, Paid, Scanned;
    ghost var t := f.St();
    panic, de := ReadEntry(f, d, k, s);
    if panic {
      ScannedStop(s, t, d, c, k / PERBLOCK);
    } else {
      ScannedOn(s, t, f.St(), d, c, k / PERBLOCK);
    }
  }

  /** dirlookup: the first entry for the name; panics exactly if the search needs more blocks than are free. */
  method Dirlookup(f: Fs, d: int, name: Name) returns (panic: bool, inum: int)
    requires f.Valid() && d in f.inodes && f.inodes[d].size % DIRENT == 0 && f.inodes[d].size >= 0 && NameOk(name)
    modifies f
    ensures f.Valid() && Same(old(f.St()), f.St(), d) && d in f.inodes
    ensures NoHoles(old(f.inodes), old(f.file), d) ==> f.St() == old(f.St())
    ensures var ents := Ents(old(f.St()), d);
            && (panic <==> ScanCost(old(f.St()), d, Stop(ents, name, 0)) > FreeCount(old(f.bits)))
            && (!panic ==> Scanned(old(f.St()), f.St(), d, Touched(Stop(ents, name, 0))))
            && (!panic ==> (inum != 0 <==> Present(ents, name)))
            && (!panic && inum != 0 ==> Dir.Entry(inum, name) in ents)
  {
    hide Inv, Byte, Full, NoHoles, Others, FreeCount, Span, Scanned, Touched, Stop, Same, EntAt;
    ghost var s := f.St();
    ghost var ents := Ents(s, d);
    SameSelf(s, d);
    ScannedNone(s, d);
    TouchedAt(0);
    var k := 0;
    while DIRENT * k < f.inodes[d].size
      invariant f.Valid() && d in f.inodes && Same(s, f.St(), d) && 0 <= k <= |ents|
          && f.inodes[d].size == s.inodes[d].size
      invariant NoHoles(s.inodes, s.file, d) ==> f.St() == s
      invariant forall j :: 0 <= j < k ==> !IsFor(ents[j], name)
      invariant Stop(ents, name, 0) == Stop(ents, name, k) && Scanned(s, f.St(), d, Touched(k))
      decreases |ents| - k
    {
      TouchedAt(k);
      var de;
      panic, de := ScanEntry(f, d, k, s, Touched(k));
      if panic {
        TouchedUp(k + 1, Stop(ents, name, k));
        SpanUp(s.file, d in s.ind, d, 0, k / PERBLOCK + 1, Touched(Stop(ents, name, 0)));
        return true, 0;
      }
      StopAt(ents, name, k);
      assert de == ents[k];
      if de.inum != 0 && de.name == name {
        ScannedFree(s, f.St(), d, Touched(k + 1));
        return false, de.inum;
      }
      k := k + 1;
    }
    StopAt(ents, name, k);
    ScannedFree(s, f.St(), d, Touched(k));
    return false, 0;
  }

  lemma ScannedFree(s: State, t: State, d: int, c: int)
    requires Scanned(s, t, d, c)
    ensures Span(s.file, d in s.ind, d, 0, c) <= FreeCount(s.bits)
  {
  }

  lemma StopAt(ents: seq<Ent>, name: Name, k: int)
    requires 0 <= k <= |ents|
    ensures k == |ents| ==> Stop(ents, name, k) == k
    ensures k < |ents| ==> Stop(ents, name, k) == if IsFor(ents[k], name) then k + 1 else Stop(ents, name, k + 1)
  {
  }

  lemma SameSelf(s: State, d: int)
    requires Inv(s) && d in s.inodes
    ensures Same(s, s, d)
  {
    hide Inv, Byte;
    FileBlocks(s);
  }

  /** The directory can take an entry at the end: in its last block, or in a block that can be had. */
  predicate Roomy(s: State, d: int, n: int) {
    DIRENT * (n + 1) <= MAXFILE * BSIZE && ScanCost(s, d, n + 1) <= FreeCount(s.bits)
  }

  /**
    dirlink: one entry more in the first unused place, or at the end; fails exactly if the name is there or the
    block for the end cannot be had, and panics exactly if the search does.
   */
  method Dirlink(f: Fs, d: int, name: Name, inum: int) returns (panic: bool, ok: bool)
    requires f.Valid() && d in f.inodes && f.inodes[d].size % DIRENT == 0 && f.inodes[d].size >= 0 && NameOk(name)
        && 0 < inum < 65536
    modifies f
    ensures f.Valid() && d in f.inodes && f.inodes[d].size >= 0 && f.inodes[d].size % DIRENT == 0
    ensures var s, ents := old(f.St()), Ents(old(f.St()), d);
      && (panic <==> ScanCost(s, d, Stop(ents, name, 0)) > FreeCount(s.bits))
      && (!panic ==> (ok <==> !Present(ents, name) && (Dir.FirstFree(ents, 0) < |ents| || Roomy(s, d, |ents|))))
      && (!panic ==> Ents(f.St(), d) == (if ok then Dir.Placed(ents, Dir.Entry(inum, name)) else ents))
      && (!panic ==> Others(s, f.St(), d) && (!ok ==> Same(s, f.St(), d)))
    ensures !panic && NoHoles(old(f.inodes), old(f.file), d) ==> NoHoles(f.inodes, f.file, d)
  {
    hide Inv, Byte, Full, NoHoles, Others, Present, FreeCount, Span, Fresh, Scanned, Touched, Stop, ScanCost, Roomy,
        Same, EntAt;
    ghost var s := f.St();
    ghost var ents := Ents(s, d);
    var i;
    ok := false;
    panic, i := Dirlookup(f, d, name);
    SameEnts(s, f.St(), d);
    SameSize(s, f.St(), d);
    if panic || i != 0 { return; }
    ghost var c := Touched(|ents|);
    var k := 0;
    while DIRENT * k < f.inodes[d].size
      invariant f.Valid() && d in f.inodes && Same(s, f.St(), d) && 0 <= k <= |ents|
          && f.inodes[d].size == s.inodes[d].size
      invariant NoHoles(s.inodes, s.file, d) ==> f.St() == s
      invariant Dir.FirstFree(ents, 0) == Dir.FirstFree(ents, k) && !panic && Scanned(s, f.St(), d, c)
      decreases |ents| - k
    {
      TouchedAt(k);
      TouchedUp(k + 1, |ents|);
      var de;
      panic, de := ScanEntry(f, d, k, s, c);
      if panic {
        assert false;  // panic("dirlink read")
      }
      if de.inum == 0 { break; }
      k := k + 1;
    }
    RoomyIff(s, f.St(), d, |ents|);
    ok := PutEntry(f, d, k, Dir.Entry(inum, name), s);
  }

  lemma SameSize(s: State, t: State, d: int)
    requires Same(s, t, d)
    ensures d in s.inodes && d in t.inodes && t.inodes[d].size == s.inodes[d].size && Others(s, t, d)
  {
  }

  lemma ScannedAll(s: State, t: State, d: int, c: int, n: int)
    requires Scanned(s, t, d, c) && 0 <= n < c
    ensures Fresh(t.file, t.ind, d, n) == 0
  {
    hide Span, FreeCount;
    assert Slot(d, n) in t.file;
  }

  /** With all entries read, what is left to pay for one more. */
  lemma RoomyIff(s: State, t: State, d: int, n: int)
    requires n >= 0 && Scanned(s, t, d, Touched(n))
    ensures Roomy(s, d, n) <==>
            DIRENT * (n + 1) <= MAXFILE * BSIZE && Fresh(t.file, t.ind, d, n / PERBLOCK) <= FreeCount(t.bits)
  {
    hide Span, FreeCount;
    TouchedAt(n);
    if n % PERBLOCK == 0 {
      SpanSnoc(s.file, d in s.ind, d, 0, n / PERBLOCK);
    } else {
      ScannedAll(s, t, d, Touched(n), n / PERBLOCK);
    }
    ScannedFree(s, t, d, Touched(n));
  }

  /** writei of entry k of the directory, whose block is there unless k is the end. */
  method PutEntry(f: Fs, d: int, k: int, e: Ent, ghost s: State) returns (ok: bool)
    requires f.Valid() && d in f.inodes && Same(s, f.St(), d) && s.inodes[d].size % DIRENT == 0 && s.inodes[d].size >= 0
    requires NameOk(e.name) && 0 <= e.inum < 65536
    requires 0 <= k <= |Ents(s, d)| && (k < |Ents(s, d)| ==> Slot(d, DIRENT * k / BSIZE) in f.file)
    modifies f
    ensures f.Valid() && d in f.inodes && f.inodes[d].size >= 0 && f.inodes[d].size % DIRENT == 0
        && Others(s, f.St(), d)
    ensures NoHoles(old(f.inodes), old(f.file), d) ==> NoHoles(f.inodes, f.file, d)
    ensures ok <==>
        k < |Ents(s, d)|
        || (DIRENT * (k + 1) <= MAXFILE * BSIZE
            && Fresh(old(f.file), old(f.ind), d, k / PERBLOCK) <= FreeCount(old(f.bits)))
    ensures ok ==> Ents(f.St(), d) == if k < |Ents(s, d)| then Ents(s, d)[k := e] else Ents(s, d) + [e]
    ensures !ok ==> Same(s, f.St(), d) && Ents(f.St(), d) == Ents(s, d)
  {
    hide Inv, Byte, Full, NoHoles, Others, Wrote, WroteAs, FreeCount, Span, EndBlock, Logged;
    ghost var t := f.St();
    SizeRange(t, d);
    OneBlock(k);
    OneSpan(f.file, f.ind, d, k / PERBLOCK);
    var r, p := Writei(f, d, DIRENT * k, Encode(e), DIRENT);
    if r != -1 { WroteExact(t, f.St(), d, DIRENT * k, r, p, Encode(e)); }
    ok := r == DIRENT;
    if ok {
      EntryWritten(s, t, f.St(), d, k, e);
    } else {
      if r != -1 { NothingWritten(s, t, f.St(), d, k, r, e); }
      SameEnts(s, f.St(), d);
    }
  }

  /** A short write of an entry at the end wrote nothing. */
  lemma NothingWritten(s: State, t: State, u: State, d: int, k: int, r: int, e: Ent)
    requires Same(s, t, d) && NameOk(e.name) && Wrote(t, u, d, DIRENT * k, r, Encode(e)) && k >= 0
        && DIRENT * k <= s.inodes[d].size
    requires r != DIRENT && (r == 0 || (DIRENT * k + r) % BSIZE == 0)
    ensures r == 0 && Same(s, u, d)
  {
    hide Byte, Others, Encode;
    assert r == 0;
    OthersTrans(s, t, u, d);
  }

  lemma EntryWritten(s: State, t: State, u: State, d: int, k: int, e: Ent)
    requires Same(s, t, d) && s.inodes[d].size >= 0 && s.inodes[d].size % DIRENT == 0
        && 0 <= k <= s.inodes[d].size / DIRENT
    requires NameOk(e.name) && 0 <= e.inum < 65536 && Wrote(t, u, d, DIRENT * k, DIRENT, Encode(e))
    ensures d in u.inodes && u.inodes[d].size >= 0 && u.inodes[d].size % DIRENT == 0 && Others(s, u, d)
    ensures Ents(u, d) == if k < |Ents(s, d)| then Ents(s, d)[k := e] else Ents(s, d) + [e]
  {
    hide Byte, Others, Encode, Decode;
    OthersTrans(s, t, u, d);
    DecodeEncode(e);
    assert Bytes(u, d, DIRENT * k) == Encode(e);
    forall j | 0 <= j < s.inodes[d].size / DIRENT && j != k ensures EntAt(u, d, j) == EntAt(s, d, j) {
      assert Bytes(u, d, DIRENT * j) == Bytes(s, d, DIRENT * j);
    }
  }
}

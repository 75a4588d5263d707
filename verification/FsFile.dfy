/** kernel/fs.c writei and readi, and kernel/file.c filewrite, against the bytes of the file. */
module FsFile {
  import opened FsModel
  import opened FsCode

  const MAXCHUNK := (10 - 1 - 1 - 2) / 2 * BSIZE      // filewrite's max
  const U32 := 0x1_0000_0000

  function Splice(w: seq<int>, off: int, src: seq<int>): (r: seq<int>)
    requires 0 <= off && off + |src| <= |w|
    ensures |r| == |w| && forall j :: 0 <= j < |w| ==> r[j] == (if off <= j < off + |src| then src[j - off] else w[j])
  {
    seq(|w|, j requires 0 <= j < |w| => if off <= j < off + |src| then src[j - off] else w[j])
  }

  /** t is s with the first r bytes of src written to file i at off; its size is not touched. */
  ghost predicate Patched(s: State, t: State, i: int, off: int, r: int, src: seq<int>) {
    && 0 <= r <= |src| && Others(s, t, i)
    && (i in s.inodes ==> i in t.inodes && t.inodes[i].size == s.inodes[i].size)
    && (forall x :: x in s.file ==> x in t.file)
    && (forall k :: off <= k < off + r ==> Slot(i, k / BSIZE) in t.file)
    && (forall k :: Byte(t, i, k) == (if off <= k < off + r then src[k - off] else Byte(s, i, k)))
  }

  lemma PatchedNone(s: State, i: int, off: int, src: seq<int>)
    requires Inv(s)
    ensures Patched(s, s, i, off, 0, src)
  {
    hide Inv, Byte;
    FileBlocks(s);
  }

  lemma OthersTrans(s: State, t: State, u: State, i: int)
    requires Others(s, t, i) && Others(t, u, i)
    ensures Others(s, u, i)
  {
  }

  lemma PatchedGrew(s: State, t: State, u: State, i: int, off: int, r: int, src: seq<int>, n: int)
    requires Patched(s, t, i, off, r, src) && Grew(t, u, i, n)
    ensures Patched(s, u, i, off, r, src)
  {
    hide Byte, Others;
    OthersTrans(s, t, u, i);
  }

  function WriteData(s: State, b: int, w: seq<int>): State { s.(blocks := s.blocks[b := w]) }

  lemma WriteDataInv(s: State, x: Slot, w: seq<int>)
    requires Inv(s) && x in s.file && |w| == BSIZE
    ensures Inv(WriteData(s, s.file[x], w)) && Others(s, WriteData(s, s.file[x], w), x.i)
  {
    hide ListsOk, BitsOk;
    var b := s.file[x];
    FileBlocks(s);
    RoleContent(s.blocks, s.role, b, s.role[b], w);
    assert s.role[b := s.role[b]] == s.role;
    ContentLists(s.inodes, s.blocks, s.file, s.ind, b, w);
    forall y | y in s.file && y != x ensures s.file[y] != b {
      assert s.role[s.file[y]] == Data(y.i, y.n);
      assert y == Slot(y.i, y.n) && x == Slot(x.i, x.n);
    }
  }

  /** One block of the copy. */
  lemma PatchOne(s: State, t: State, i: int, off: int, r: int, m: int, src: seq<int>)
    requires Inv(t) && Patched(s, t, i, off, r, src) && 0 <= off && 0 < m && r + m <= |src|
    requires Slot(i, (off + r) / BSIZE) in t.file && (off + r) % BSIZE + m <= BSIZE
    ensures var b := t.file[Slot(i, (off + r) / BSIZE)];
            && b in t.blocks && |t.blocks[b]| == BSIZE
            && Inv(WriteData(t, b, Splice(t.blocks[b], (off + r) % BSIZE, src[r..r + m])))
            && Patched(s, WriteData(t, b, Splice(t.blocks[b], (off + r) % BSIZE, src[r..r + m])), i, off, r + m, src)
  {
    hide Inv, Others;
    FileBlocks(t);
    var x, o := Slot(i, (off + r) / BSIZE), (off + r) % BSIZE;
    var b := t.file[x];
    var w := Splice(t.blocks[b], o, src[r..r + m]);
    WriteDataInv(t, x, w);
    var u := WriteData(t, b, w);
    OthersTrans(s, t, u, i);
    forall k ensures Byte(u, i, k) == (if off <= k < off + r + m then src[k - off] else Byte(s, i, k)) {
      assert k == k / BSIZE * BSIZE + k % BSIZE && off + r == x.n * BSIZE + o;
      if k / BSIZE == x.n {
        assert Byte(u, i, k) == w[k % BSIZE] && Byte(t, i, k) == t.blocks[b][k % BSIZE];
        assert off + r <= k < off + r + m <==> o <= k % BSIZE < o + m;
        assert off + r <= k < off + r + m ==> src[r..r + m][k % BSIZE - o] == src[k - off];
      } else {
        assert !(off + r <= k < off + r + m);
        OtherBlock(t, x, Slot(i, k / BSIZE));
        assert Byte(u, i, k) == Byte(t, i, k);
      }
    }
    forall k | off <= k < off + r + m ensures Slot(i, k / BSIZE) in u.file {
      assert k >= off + r ==> k / BSIZE == x.n;
    }
  }

  lemma OtherBlock(t: State, x: Slot, y: Slot)
    requires Inv(t) && x in t.file && x != y
    ensures y in t.file ==> t.file[y] != t.file[x]
  {
    hide ListsOk, BitsOk, ContentOk;
    assert x == Slot(x.i, x.n) && y == Slot(y.i, y.n);
  }

  function SetSize(s: State, i: int, z: int): State
    requires i in s.inodes
  {
    s.(inodes := s.inodes[i := s.inodes[i].(size := z)])
  }

  lemma SetSizeInv(s: State, i: int, z: int)
    requires Inv(s) && i in s.inodes && 0 <= z <= MAXFILE * BSIZE
    ensures Inv(SetSize(s, i, z))
  {
    hide BitsOk, ContentOk, OwnOk;
    InodesOwn(s.role, s.file, s.ind, s.inodes, i, s.inodes[i].(size := z));
    var inodes2 := s.inodes[i := s.inodes[i].(size := z)];
    forall j | j in inodes2 ensures ListOk(inodes2[j], j, s.blocks, s.file, s.ind) {
      assert ListOk(s.inodes[j], j, s.blocks, s.file, s.ind);
    }
  }

  /** writei's outcome: r bytes written, the size raised to cover them, nothing else changed. */
  ghost predicate Wrote(s: State, t: State, i: int, off: int, r: int, src: seq<int>) {
    && 0 <= r <= |src| && Others(s, t, i) && i in s.inodes && i in t.inodes
    && t.inodes[i].size == (if off + r > s.inodes[i].size then off + r else s.inodes[i].size)
    && (forall k :: Byte(t, i, k) == (if off <= k < off + r then src[k - off] else Byte(s, i, k)))
  }

  /** The same, except that p bytes went into the buffers. */
  ghost predicate WroteAs(s: State, t: State, i: int, off: int, r: int, p: int, src: seq<int>) {
    && 0 <= r <= p <= |src| && Others(s, t, i) && i in s.inodes && i in t.inodes
    && t.inodes[i].size == (if off + r > s.inodes[i].size then off + r else s.inodes[i].size)
    && (forall k :: Byte(t, i, k) == (if off <= k < off + p then src[k - off] else Byte(s, i, k)))
  }

  /** Only what is reported was written, exactly if nothing more was (or it was there before). */
  lemma WroteExact(s: State, t: State, i: int, off: int, r: int, p: int, src: seq<int>)
    requires WroteAs(s, t, i, off, r, p, src)
    ensures Wrote(s, t, i, off, r, src) <==> forall k :: off + r <= k < off + p ==> src[k - off] == Byte(s, i, k)
  {
    hide Byte, Others;
    if Wrote(s, t, i, off, r, src) {
      forall k | off + r <= k < off + p ensures src[k - off] == Byte(s, i, k) {
        assert Byte(t, i, k) == Byte(s, i, k);
      }
    }
  }

  lemma SizeWrote(s: State, t: State, i: int, off: int, r: int, p: int, src: seq<int>)
    requires Inv(t) && Patched(s, t, i, off, p, src) && 0 <= r <= p && i in s.inodes && 0 <= off <= s.inodes[i].size
    requires off + |src| <= MAXFILE * BSIZE
    ensures i in t.inodes && 0 <= t.inodes[i].size <= MAXFILE * BSIZE
    ensures var z := if off + r > t.inodes[i].size then off + r else t.inodes[i].size;
            && Inv(SetSize(t, i, z)) && WroteAs(s, SetSize(t, i, z), i, off, r, p, src)
            && (NoHoles(s.inodes, s.file, i) ==> NoHoles(SetSize(t, i, z).inodes, t.file, i))
  {
    hide BitsOk, ContentOk, OwnOk;
    assert ListOk(t.inodes[i], i, t.blocks, t.file, t.ind);
    var z := if off + r > t.inodes[i].size then off + r else t.inodes[i].size;
    SetSizeInv(t, i, z);
    var u := SetSize(t, i, z);
    if NoHoles(s.inodes, s.file, i) {
      forall n | 0 <= n && n * BSIZE < z ensures Slot(i, n) in u.file {
        if n * BSIZE >= s.inodes[i].size { assert (n * BSIZE) / BSIZE == n; }
      }
    }
    forall k ensures Byte(u, i, k) == Byte(t, i, k) {}
  }

  // ----- how many blocks a stretch of a file costs -----

  /** The missing ones of blocks [a, e) of file i, and the indirect block if it is needed and not there. */
  function Span(file: map<Slot, int>, has: bool, i: int, a: int, e: int): (r: int)
    ensures r >= 0
    decreases e - a
  {
    if a >= e then 0
    else
      (if Slot(i, a) in file then 0 else if a >= NDIRECT && !has then 2 else 1)
      + Span(file, has || a >= NDIRECT, i, a + 1, e)
  }

  /** The block after the last one that bytes [off, off + n) touch. */
  function EndBlock(off: int, n: int): int { if n <= 0 then off / BSIZE else (off + n - 1) / BSIZE + 1 }

  lemma {:induction false} SpanSame(file: map<Slot, int>, file2: map<Slot, int>, has: bool, i: int, a: int, e: int)
    requires forall n :: a <= n < e ==> (Slot(i, n) in file <==> Slot(i, n) in file2)
    ensures Span(file, has, i, a, e) == Span(file2, has, i, a, e)
    decreases e - a
  {
    if a < e {
      assert Slot(i, a) in file <==> Slot(i, a) in file2;
      SpanSame(file, file2, has || a >= NDIRECT, i, a + 1, e);
    }
  }

  lemma {:induction false} SpanNone(file: map<Slot, int>, has: bool, i: int, a: int, e: int)
    requires forall n :: a <= n < e ==> Slot(i, n) in file
    ensures Span(file, has, i, a, e) == 0
    decreases e - a
  {
    if a < e {
      assert Slot(i, a) in file;
      SpanNone(file, has || a >= NDIRECT, i, a + 1, e);
    }
  }

  lemma {:induction false} SpanSnoc(file: map<Slot, int>, has: bool, i: int, a: int, c: int)
    requires a <= c
    ensures Span(file, has, i, a, c + 1) == Span(file, has, i, a, c)
            + (if Slot(i, c) in file then 0 else if c >= NDIRECT && !(has || (c > a && c > NDIRECT)) then 2 else 1)
    decreases c - a
  {
    if a < c { SpanSnoc(file, has || a >= NDIRECT, i, a + 1, c); }
  }

  lemma {:induction false} SpanUp(file: map<Slot, int>, has: bool, i: int, a: int, c: int, e: int)
    requires a <= c <= e
    ensures Span(file, has, i, a, c) <= Span(file, has, i, a, e)
    decreases e - c
  {
    if c < e {
      SpanUp(file, has, i, a, c, e - 1);
      SpanSnoc(file, has, i, a, e - 1);
    }
  }

  /** Block a is paid for, and the rest is to come. */
  lemma SpanRound(file: map<Slot, int>, ind: map<int, int>, file2: map<Slot, int>, has2: bool, i: int, a: int, e: int)
    requires a < e && has2 == (i in ind || a >= NDIRECT)
    requires forall x :: x in file2 <==> x in file || x == Slot(i, a)
    ensures Span(file, i in ind, i, a, e) == Fresh(file, ind, i, a) + Span(file2, has2, i, a + 1, e)
  {
    SpanSame(file, file2, has2, i, a + 1, e);
  }

  lemma SpanFirst(file: map<Slot, int>, ind: map<int, int>, i: int, a: int, e: int)
    requires a < e
    ensures Span(file, i in ind, i, a, e) >= Fresh(file, ind, i, a)
  {
  }

  /** The block a transfer of n bytes from off goes on in after k of them. */
  function AtBlock(off: int, k: int, n: int): int { if k < n then (off + k) / BSIZE else EndBlock(off, n) }

  /** How far a round at pos gets. */
  function Room(pos: int, left: int): int { if left < BSIZE - pos % BSIZE then left else BSIZE - pos % BSIZE }

  lemma AtEnds(off: int, n: int)
    requires n >= 0
    ensures AtBlock(off, 0, n) == off / BSIZE && AtBlock(off, n, n) == EndBlock(off, n)
  {
  }

  lemma NextBlock(off: int, k: int, n: int)
    requires 0 <= off && 0 <= k < n
    ensures AtBlock(off, k, n) == (off + k) / BSIZE < EndBlock(off, n)
    ensures AtBlock(off, k + Room(off + k, n - k), n) == (off + k) / BSIZE + 1
  {
    var pos, m := off + k, Room(off + k, n - k);
    assert pos == pos / BSIZE * BSIZE + pos % BSIZE;
    if k + m < n {
      assert pos + m == (pos / BSIZE + 1) * BSIZE;
    } else {
      assert off + n - 1 == pos / BSIZE * BSIZE + (pos % BSIZE + m - 1);
    }
    assert pos <= off + n - 1;
  }

  /** Block n of file i is there, at its cost; nothing else was allocated. */
  ghost predicate Paid(s: State, t: State, i: int, n: int) {
    && FreeCount(t.bits) == FreeCount(s.bits) - Fresh(s.file, s.ind, i, n)
        && (i in t.ind <==> i in s.ind || n >= NDIRECT)
    && forall x :: x in t.file <==> x in s.file || x == Slot(i, n)
  }

  /** Of the blocks [a, e) of file i, those before c are there, and paid for since s. */
  ghost predicate PaidTo(s: State, t: State, i: int, a: int, c: int, e: int) {
    FreeCount(s.bits) - FreeCount(t.bits) + Span(t.file, i in t.ind, i, c, e) == Span(s.file, i in s.ind, i, a, e)
  }

  /** Exactly the blocks [a, c) of file i were added, where they were missing, and the indirect block with them. */
  ghost predicate Filled(s: State, t: State, i: int, a: int, c: int) {
    && (forall x: Slot :: x in t.file <==> x in s.file || (x.i == i && a <= x.n < c))
    && (i in t.ind <==> i in s.ind || (c > a && c > NDIRECT))
  }

  lemma FilledOn(s: State, t: State, u: State, i: int, a: int, c: int)
    requires Filled(s, t, i, a, c) && Paid(t, u, i, c) && a <= c
    ensures Filled(s, u, i, a, c + 1)
  {
    hide FreeCount, Fresh;
    forall x: Slot ensures x == Slot(i, c) <==> x.i == i && x.n == c {}
  }

  lemma FilledNone(s: State, i: int, a: int)
    ensures Filled(s, s, i, a, a)
  {
  }

  lemma FilledOne(s: State, t: State, i: int, n: int)
    requires Filled(s, t, i, n, n + 1) && FreeCount(t.bits) == FreeCount(s.bits) - Span(s.file, i in s.ind, i, n, n + 1)
    ensures Paid(s, t, i, n)
  {
    hide FreeCount;
    forall x: Slot ensures x == Slot(i, n) <==> x.i == i && x.n == n {}
  }

  lemma PaidOn(s: State, t: State, u: State, i: int, a: int, c: int, e: int)
    requires PaidTo(s, t, i, a, c, e) && Paid(t, u, i, c) && c < e
    ensures PaidTo(s, u, i, a, c + 1, e)
  {
    hide Span, FreeCount, Fresh;
    SpanRound(t.file, t.ind, u.file, i in u.ind, i, c, e);
  }

  /** With the next block beyond what is free, so is the whole. */
  lemma PaidStop(s: State, t: State, i: int, a: int, c: int, e: int)
    requires PaidTo(s, t, i, a, c, e) && c < e && Fresh(t.file, t.ind, i, c) > FreeCount(t.bits)
    ensures Span(s.file, i in s.ind, i, a, e) > FreeCount(s.bits)
  {
    hide Span, FreeCount, Fresh;
    SpanFirst(t.file, t.ind, i, c, e);
  }

  lemma PaidAll(s: State, t: State, i: int, a: int, e: int)
    requires PaidTo(s, t, i, a, e, e)
    ensures FreeCount(t.bits) == FreeCount(s.bits) - Span(s.file, i in s.ind, i, a, e)
  {
  }

  lemma PaidStart(s: State, i: int, a: int, e: int)
    ensures PaidTo(s, s, i, a, a, e)
  {
  }

  // ----- how many blocks a write logs -----

  /** Blocks logged so far in the open transaction. */
  ghost function Logs(f: Fs): nat
    reads f
  {
    |f.maps| + |f.blks| + |f.inos|
  }

  /** k rounds of writei, of which `added` added a block to the file, are few enough for one transaction. */
  predicate Few(off: int, n: int, k: int, added: int) {
    && 0 <= added <= k && (off % BSIZE != 0 && k > 0 ==> added < k)
    && (n <= MAXCHUNK ==> k <= (if off % BSIZE == 0 then 3 else 4))
  }

  /** Rounds of writei that have reached tot of n bytes. */
  predicate Rounds(off: int, n: int, tot: int, k: int, added: int) {
    Few(off, n, k, added) && 0 <= tot <= n && 0 <= off
        && (tot < n ==> if k == 0 then tot == 0 else tot + off % BSIZE == k * BSIZE)
  }

  lemma RoundStep(off: int, n: int, tot: int, k: int, added: int, m: int, new_: bool)
    requires Rounds(off, n, tot, k, added) && tot < n
    requires m == (if n - tot < BSIZE - (off + tot) % BSIZE then n - tot else BSIZE - (off + tot) % BSIZE)
    requires k == 0 && off % BSIZE != 0 ==> !new_
    ensures 0 < m && tot + m <= n && Rounds(off, n, tot + m, k + 1, if new_ then added + 1 else added)
    ensures Few(off, n, k + 1, if new_ then added + 1 else added)
  {
    if k > 0 {
      assert off == off / BSIZE * BSIZE + off % BSIZE;
      assert off + tot == (off / BSIZE + k) * BSIZE;
    }
  }

  /** The blocks logged, besides bitmap blocks and inodes: one per round, and the indirect block. */
  ghost predicate Within(blks0: set<int>, blks: set<int>, data: set<int>, d: set<int>, k: int) {
    blks <= blks0 + data + d && |data| <= k && |d| <= 1
  }

  lemma WithinStep(blks0: set<int>, blks: set<int>, data: set<int>, d: set<int>, k: int, blks': set<int>, addr: int,
      d': set<int>)
    requires Within(blks0, blks, data, d, k) && blks' <= blks + {addr} + d' && (d == {} || d == d') && |d'| <= 1
    ensures Within(blks0, blks', data + {addr}, d', k + 1)
  {
  }

  lemma WithinTotal(blks0: set<int>, blks: set<int>, data: set<int>, d: set<int>, k: int)
    requires Within(blks0, blks, data, d, k)
    ensures |blks| <= |blks0| + k + 1
  {
    var all := blks0 + data + d;
    assert |all| <= |blks0| + |data| + |d|;
    SubsetSize(blks, all);
  }

  lemma SubsetSize(a: set<int>, b: set<int>)
    requires a <= b
    ensures |a| <= |b|
  {
    assert b == a + (b - a);
  }

  /** What k rounds have logged: maps and blks now, m0 and b0 before the write. */
  ghost predicate Budget(m0: set<int>, b0: set<int>, maps: set<int>, blks: set<int>, i: int, ind0: map<int, int>,
      ind: map<int, int>,
                         data: set<int>, d: set<int>, k: int, added: int) {
    && Within(b0, blks, data, d, k) && (d == {} || (i in ind && d == {ind[i]}))
    && |maps| <= |m0| + added + (if i in ind && i !in ind0 then 1 else 0) && (i in ind0 ==> i in ind)
  }

  ghost function NextD(i: int, ind: map<int, int>, d: set<int>, high: bool): set<int> {
    if i in ind && (d != {} || high) then {ind[i]} else {}
  }

  lemma BudgetStep(m0: set<int>, b0: set<int>, maps: set<int>, blks: set<int>, i: int, ind0: map<int, int>,
      ind: map<int, int>,
                   data: set<int>, d: set<int>, k: int, added: int,
                   maps': set<int>, blks': set<int>, ind': map<int, int>, addr: int, high: bool, new_: bool)
    requires Budget(m0, b0, maps, blks, i, ind0, ind, data, d, k, added)
    requires i in ind ==> i in ind' && ind'[i] == ind[i]
    requires |maps'| <= |maps| + (if new_ then 1 else 0) + (if i in ind' && i !in ind then 1 else 0)
    requires blks' <= blks + {addr} + (if i in ind' && high then {ind'[i]} else {})
    ensures Budget(m0, b0, maps', blks', i, ind0, ind', data + {addr}, NextD(i, ind', d, high), k + 1,
        if new_ then added + 1 else added)
  {
    hide Within;
    var d' := NextD(i, ind', d, high);
    WithinStep(b0, blks, data, d, k, blks', addr, d');
  }

  /** Rounds of writei that have reached tot of n bytes have logged no more than this. */
  ghost predicate SpentTo(m0: set<int>, b0: set<int>, maps: set<int>, blks: set<int>, i: int, ind0: map<int, int>,
      ind: map<int, int>, off: int, n: int, tot: int)
  {
    exists data, d, k, added ::
      Rounds(off, n, tot, k, added) && Budget(m0, b0, maps, blks, i, ind0, ind, data, d, k, added)
  }

  /** The same of rounds of which the last may have failed. */
  ghost predicate Spent(m0: set<int>, b0: set<int>, maps: set<int>, blks: set<int>, i: int, ind0: map<int, int>,
      ind: map<int, int>, off: int, n: int)
  {
    exists data, d, k, added :: Few(off, n, k, added) && Budget(m0, b0, maps, blks, i, ind0, ind, data, d, k, added)
  }

  lemma SpentNone(m0: set<int>, b0: set<int>, i: int, ind: map<int, int>, off: int, n: int)
    requires 0 <= off && 0 <= n
    ensures SpentTo(m0, b0, m0, b0, i, ind, ind, off, n, 0) && Spent(m0, b0, m0, b0, i, ind, ind, off, n)
  {
    assert Rounds(off, n, 0, 0, 0) && Budget(m0, b0, m0, b0, i, ind, ind, {}, {}, 0, 0);
  }

  lemma SpendRound(m0: set<int>, b0: set<int>, maps: set<int>, blks: set<int>, i: int, ind0: map<int, int>,
      ind: map<int, int>, off: int, n: int, tot: int,
      maps': set<int>, blks': set<int>, ind': map<int, int>, addr: int, new_: bool)
    requires SpentTo(m0, b0, maps, blks, i, ind0, ind, off, n, tot) && 0 <= tot < n
    requires tot == 0 && off % BSIZE != 0 ==> !new_
    requires i in ind ==> i in ind' && ind'[i] == ind[i]
    requires |maps'| <= |maps| + (if new_ then 1 else 0) + (if i in ind' && i !in ind then 1 else 0)
    requires blks' <= blks + {addr} + (if i in ind' && (off + tot) / BSIZE >= NDIRECT then {ind'[i]} else {})
    ensures var m := Room(off + tot, n - tot);
        0 < m && tot + m <= n && SpentTo(m0, b0, maps', blks', i, ind0, ind', off, n, tot + m)
    ensures Spent(m0, b0, maps', blks', i, ind0, ind', off, n)
  {
    hide Budget;
    var data, d, k, added :|
      Rounds(off, n, tot, k, added) && Budget(m0, b0, maps, blks, i, ind0, ind, data, d, k, added);
    var high := (off + tot) / BSIZE >= NDIRECT;
    RoundStep(off, n, tot, k, added, Room(off + tot, n - tot), new_);
    BudgetStep(m0, b0, maps, blks, i, ind0, ind, data, d, k, added, maps', blks', ind', addr, high, new_);
    assert Budget(m0, b0, maps', blks', i, ind0, ind', data + {addr}, NextD(i, ind', d, high), k + 1,
        if new_ then added + 1 else added);
  }

  /** The bitmap blocks of a disk of n blocks. */
  function MapBlocks(n: int): int { (n - 1) / BPB + 1 }

  /**
    The most blocks a chunk of filewrite logs on a disk of n blocks: data, indirect and inode block, and
    bitmap blocks.
   */
  function ChunkBlocks(n: int): (r: int)
    ensures n > 0 ==> 7 <= r <= 10
  {
    if MapBlocks(n) < 4 then 6 + MapBlocks(n) else 10
  }

  lemma BudgetTotal(m0: set<int>, b0: set<int>, maps: set<int>, blks: set<int>, i: int, ind0: map<int, int>,
      ind: map<int, int>, off: int, n: int, inos: set<int>, size: int)
    requires Spent(m0, b0, maps, blks, i, ind0, ind, off, n)
    requires m0 == {} ==> |maps| <= MapBlocks(size)
    ensures n <= MAXCHUNK ==> |inos + {i}| + |maps| + |blks| <= |m0| + |b0| + |inos| + 10
    ensures n <= MAXCHUNK && m0 == {} ==> |inos + {i}| + |maps| + |blks| <= |b0| + |inos| + ChunkBlocks(size)
  {
    hide Within, MapBlocks;
    var data, d, k, added :| Few(off, n, k, added) && Budget(m0, b0, maps, blks, i, ind0, ind, data, d, k, added);
    WithinTotal(b0, blks, data, d, k);
  }

  /** The block that holds byte k of file i is logged. */
  ghost predicate ByteLogged(file: map<Slot, int>, blks: set<int>, i: int, k: int) {
    Slot(i, k / BSIZE) in file && file[Slot(i, k / BSIZE)] in blks
  }

  ghost predicate BytesLogged(file: map<Slot, int>, blks: set<int>, i: int, off: int, n: int) {
    forall k :: off <= k < off + n ==> ByteLogged(file, blks, i, k)
  }

  lemma NoneLogged(file: map<Slot, int>, blks: set<int>, i: int, off: int)
    ensures BytesLogged(file, blks, i, off, 0)
  {
  }

  /** No block of any file is lost or moved. */
  ghost predicate Keeps(file: map<Slot, int>, file2: map<Slot, int>) {
    forall x :: x in file ==> x in file2 && file2[x] == file[x]
  }

  lemma KeepsSelf(file: map<Slot, int>)
    ensures Keeps(file, file)
  {
  }

  lemma KeepsTrans(file: map<Slot, int>, file2: map<Slot, int>, file3: map<Slot, int>, x: Slot)
    requires Keeps(file, file2) && Keeps(file2, file3)
    ensures Keeps(file, file3) && (x !in file2 ==> x !in file)
  {
  }

  /**
    One round of writei: the block at the current position is found or added, and filled from user memory, which
    gives the first avail bytes of src.  A copy that fails has changed the buffer as far as it got.
   */
  method WriteRound(f: Fs, i: int, off: int, tot: int, src: seq<int>, avail: int, ghost s: State)
      returns (m: int, addr: int, done: bool, ghost got: int, ghost new_: bool)
    requires f.Valid() && Patched(s, f.St(), i, off, tot, src) && i in f.inodes && 0 <= off && 0 <= tot < |src|
    requires off + |src| <= MAXFILE * BSIZE && tot <= avail
    modifies f
    ensures f.Valid() && i in f.inodes && f.inos == old(f.inos) && f.txs == old(f.txs)
    ensures m == Room(off + tot, |src| - tot)
    ensures addr != 0 <==> Fresh(old(f.file), old(f.ind), i, (off + tot) / BSIZE) <= FreeCount(old(f.bits))
    ensures addr != 0 ==> Paid(old(f.St()), f.St(), i, (off + tot) / BSIZE)
    ensures done <==> addr != 0 && tot + m <= avail
    ensures tot + m <= |src| && Patched(s, f.St(), i, off, tot + got, src)
    ensures got == (if addr == 0 then 0 else if done then m else avail - tot)
    ensures addr == 0 ==> Full(f.bits) && !new_ && Slot(i, (off + tot) / BSIZE) !in old(f.file)
    ensures Keeps(old(f.file), f.file)
    ensures done ==> Slot(i, (off + tot) / BSIZE) in f.file && f.file[Slot(i, (off + tot) / BSIZE)] in f.blks
    ensures addr != 0 && Slot(i, (off + tot) / BSIZE) in old(f.file) ==> !new_
    ensures !done && Slot(i, (off + tot) / BSIZE) in old(f.file) ==> f.blks == old(f.blks) && f.maps == old(f.maps)
    ensures forall j :: j in old(f.ind) ==> j in f.ind && f.ind[j] == old(f.ind)[j]
    ensures |f.maps| <= |old(f.maps)| + (if new_ then 1 else 0) + (if i in f.ind && i !in old(f.ind) then 1 else 0)
    ensures f.blks <= old(f.blks) + {addr} + (if i in f.ind && (off + tot) / BSIZE >= NDIRECT then {f.ind[i]} else {})
    ensures addr != 0 ==> Slot(i, (off + tot) / BSIZE) in f.file && f.file[Slot(i, (off + tot) / BSIZE)] == addr
    ensures Logged(old(f.St()), f.St(), old(f.maps), f.maps, old(f.blks), f.blks, if done || got == 0 then {}
        else {addr})
    ensures old(f.blks) <= f.blks
  {
    hide Inv, Patched, Grew, Full, FreeCount, Logged;
    var pos, n := off + tot, |src|;
    ghost var t := f.St();
    addr, new_ := f.Bmap(i, pos / BSIZE);
    ghost var u := f.St();
    GrewKeeps(t, u, i, pos / BSIZE);
    PatchedGrew(s, t, u, i, off, tot, src, pos / BSIZE);
    m := if n - tot < BSIZE - pos % BSIZE then n - tot else BSIZE - pos % BSIZE;
    LoggedSub(t, u, old(f.maps), f.maps, old(f.blks), f.blks, {});
    done, got := false, 0;
    if addr != 0 {
      var c := if tot + m <= avail then m else avail - tot;
      got := c;
      if c > 0 {
        PatchOne(s, u, i, off, tot, c, src);
        f.blocks := f.blocks[addr := Splice(f.blocks[addr], pos % BSIZE, src[tot..tot + c])];
        assert f.St() == WriteData(u, addr, Splice(u.blocks[addr], pos % BSIZE, src[tot..tot + c]));
        LoggedWrite(t, u, f.St(), old(f.maps), f.maps, old(f.blks), f.blks, addr, f.blocks[addr]);
      }
      if c == m {
        LoggedMore(t, f.St(), old(f.maps), f.maps, old(f.blks), f.blks, {addr}, addr);
        assert {addr} - {addr} == {};
        f.blks := f.blks + {addr};
        done := true;
      }
    }
  }

  /** The blocks that writing bytes [off, off + n) of file i adds to it. */
  function WriteCost(s: State, i: int, off: int, n: int): int {
    Span(s.file, i in s.ind, i, off / BSIZE, EndBlock(off, n))
  }

  /**
    Writes src at off, of which user memory gives the first avail bytes; -1 if that is not allowed, otherwise
    the number of bytes written.  p bytes have gone into the buffers: more than reported exactly if the copy
    failed inside a block.
   */
  method Writei(f: Fs, i: int, off: int, src: seq<int>, avail: int) returns (r: int, ghost p: int)
    requires f.Valid() && i in f.inodes && 0 <= off < U32 && |src| < U32 && 0 <= avail
    modifies f
    ensures f.Valid() && i in f.inodes && (NoHoles(old(f.inodes), old(f.file), i) ==> NoHoles(f.inodes, f.file, i))
    ensures -1 <= r <= |src| && (r == -1 <==> off > old(f.inodes)[i].size || off + |src| > MAXFILE * BSIZE)
    ensures r == -1 ==> f.St() == old(f.St()) && Logs(f) == old(Logs(f))
    ensures r != -1 ==> WroteAs(old(f.St()), f.St(), i, off, r, p, src) && (p == r || r < p == avail < |src|)
    ensures r != -1 ==>
        (r == |src| <==> WriteCost(old(f.St()), i, off, |src|) <= FreeCount(old(f.bits)) && |src| <= avail)
    ensures Keeps(old(f.file), f.file)
    ensures r == |src| ==> FreeCount(f.bits) == FreeCount(old(f.bits)) - WriteCost(old(f.St()), i, off, |src|)
    ensures r != -1 && WriteCost(old(f.St()), i, off, |src|) <= FreeCount(old(f.bits)) ==>
        p == (if avail < |src| then avail else |src|)
    ensures r == 0 && Slot(i, off / BSIZE) in old(f.file) ==> f.blks == old(f.blks) && f.maps == old(f.maps)
    ensures r != -1 && r < |src| ==> r == 0 || (off + r) % BSIZE == 0
    ensures r != -1 && r < |src| <= avail ==> Full(f.bits) && Slot(i, (off + r) / BSIZE) !in old(f.file)
    ensures NoHoles(old(f.inodes), old(f.file), i) && |src| <= MAXCHUNK ==> Logs(f) <= old(Logs(f)) + 10
    ensures NoHoles(old(f.inodes), old(f.file), i) && |src| <= MAXCHUNK && old(f.maps) == {} ==>
        Logs(f) <= old(Logs(f)) + ChunkBlocks(|f.bits|)
    ensures Logged(old(f.St()), f.St(), old(f.maps), f.maps, old(f.blks), f.blks, Torn(f.file, i, off, r, p))
    ensures f.txs == old(f.txs)
    ensures r != -1 ==> f.inos == old(f.inos) + {i} && BytesLogged(f.file, f.blks, i, off, r)
  {
    hide Inv, Patched, WroteAs, Full, NoHoles, FreeCount, WriteCost, Logged, BytesLogged, Keeps;
    ghost var s := f.St();
    var n := |src|;
    SizeRange(s, i);
    LoggedSelf(s, f.maps, f.blks);
    KeepsSelf(s.file);
    if off > f.inodes[i].size || (off + n) % U32 < off { return -1, -1; }
    if off + n > MAXFILE * BSIZE { return -1, -1; }
    r, p := WriteAll(f, i, off, src, avail);
    ghost var t := f.St();
    WriteSize(f, i, off + r, s, off, r, p, src);
    LoggedSame(s, t, f.St(), old(f.maps), f.maps, old(f.blks), f.blks, Torn(f.file, i, off, r, p));
  }

  lemma InOneBlock(s: State, i: int, off: int, n: int)
    requires Inv(s) && 0 <= off && 0 < n <= BSIZE - off % BSIZE && Slot(i, off / BSIZE) in s.file
    ensures off + n <= MAXFILE * BSIZE && WriteCost(s, i, off, n) == 0
  {
    hide BitsOk, ContentOk, ListsOk;
    assert off == off / BSIZE * BSIZE + off % BSIZE;
    assert EndBlock(off, n) == off / BSIZE + 1;
    SpanNone(s.file, i in s.ind, i, off / BSIZE, off / BSIZE + 1);
  }

  /**
    A write inside a block of the file whose copy from user memory fails after avail bytes: it reports no byte and
    logs no block, but those bytes are in the buffer.
   */
  method TornWrite(f: Fs, i: int, off: int, src: seq<int>, avail: int) returns (r: int)
    requires f.Valid() && i in f.inodes && 0 <= off <= f.inodes[i].size && Slot(i, off / BSIZE) in f.file
    requires 0 <= avail < |src| <= BSIZE - off % BSIZE
    modifies f
    ensures r == 0 && f.maps == old(f.maps) && f.blks == old(f.blks) && i in f.inodes
    ensures f.inodes[i].size == old(f.inodes)[i].size
    ensures forall k :: off <= k < off + avail ==> Byte(f.St(), i, k) == src[k - off]
  {
    hide Inv, Byte, Others, Full, FreeCount, WriteCost, Logged, BytesLogged, Keeps, NoHoles;
    InOneBlock(f.St(), i, off, |src|);
    SizeRange(f.St(), i);
    ghost var p;
    r, p := Writei(f, i, off, src, avail);
  }

  /** The block in which a copy failed, if it had begun: r bytes are reported, p are in the buffers. */
  ghost function Torn(file: map<Slot, int>, i: int, off: int, r: int, p: int): set<int> {
    if p > r && Slot(i, (off + r) / BSIZE) in file then {file[Slot(i, (off + r) / BSIZE)]} else {}
  }

  lemma TornIs(file: map<Slot, int>, i: int, off: int, r: int, p: int, addr: int)
    requires r <= p && (p > r ==> Slot(i, (off + r) / BSIZE) in file && file[Slot(i, (off + r) / BSIZE)] == addr)
    ensures Torn(file, i, off, r, p) == if p > r then {addr} else {}
  {
  }

  /** writei's loop, on a range that is allowed. */
  method WriteAll(f: Fs, i: int, off: int, src: seq<int>, avail: int) returns (tot: int, ghost p: int)
    requires f.Valid() && i in f.inodes && 0 <= off <= f.inodes[i].size && off + |src| <= MAXFILE * BSIZE && 0 <= avail
    modifies f
    ensures f.Valid() && i in f.inodes && f.inos == old(f.inos) && f.txs == old(f.txs)
    ensures 0 <= tot <= p <= |src| && (p == tot || tot < p == avail < |src|)
    ensures Patched(old(f.St()), f.St(), i, off, p, src)
    ensures tot == |src| <==> WriteCost(old(f.St()), i, off, |src|) <= FreeCount(old(f.bits)) && |src| <= avail
    ensures tot == |src| ==> FreeCount(f.bits) == FreeCount(old(f.bits)) - WriteCost(old(f.St()), i, off, |src|)
    ensures WriteCost(old(f.St()), i, off, |src|) <= FreeCount(old(f.bits)) ==>
        p == (if avail < |src| then avail else |src|)
    ensures tot == 0 && Slot(i, off / BSIZE) in old(f.file) ==> f.blks == old(f.blks) && f.maps == old(f.maps)
    ensures tot < |src| ==> tot == 0 || (off + tot) % BSIZE == 0
    ensures tot < |src| <= avail ==> Full(f.bits) && Slot(i, (off + tot) / BSIZE) !in old(f.file)
    ensures NoHoles(old(f.inodes), old(f.file), i) && |src| <= MAXCHUNK ==>
        |f.inos + {i}| + |f.maps| + |f.blks| <= old(Logs(f)) + 10
    ensures NoHoles(old(f.inodes), old(f.file), i) && |src| <= MAXCHUNK && old(f.maps) == {} ==>
        |f.inos + {i}| + |f.maps| + |f.blks| <= old(Logs(f)) + ChunkBlocks(|f.bits|)
    ensures Logged(old(f.St()), f.St(), old(f.maps), f.maps, old(f.blks), f.blks, Torn(f.file, i, off, tot, p))
    ensures Keeps(old(f.file), f.file)
    ensures BytesLogged(f.file, f.blks, i, off, tot)
  {
    hide Inv, Patched, Spent, SpentTo, Full, NoHoles, FreeCount, Span, EndBlock, AtBlock, Paid, PaidTo, Fresh,
        Logged, BytesLogged, Keeps, ChunkBlocks, MapBlocks, Torn;
    ghost var s, whole := f.St(), NoHoles(f.inodes, f.file, i);
    var n := |src|;
    SizeRange(s, i);
    LoggedSelf(s, f.maps, f.blks);
    KeepsSelf(s.file);
    ghost var m0, b0 := f.maps, f.blks;
    tot, p := 0, 0;
    NoneLogged(f.file, f.blks, i, off);
    PatchedNone(s, i, off, src);
    SpentNone(m0, b0, i, s.ind, off, n);
    ghost var a, e := off / BSIZE, EndBlock(off, n);
    PaidStart(s, i, a, e);
    AtEnds(off, n);
    while tot < n
      invariant PaidTo(s, f.St(), i, a, AtBlock(off, tot, n), e)
      invariant f.Valid() && Patched(s, f.St(), i, off, tot, src) && i in f.inodes && 0 <= tot <= n <= |src|
          && f.inos == old(f.inos) && f.txs == old(f.txs) && tot <= avail && p == tot
      invariant whole ==> SpentTo(m0, b0, f.maps, f.blks, i, s.ind, f.ind, off, n, tot)
      invariant whole ==> Spent(m0, b0, f.maps, f.blks, i, s.ind, f.ind, off, n)
      invariant Keeps(s.file, f.file) && (tot == 0 || tot == n || (off + tot) % BSIZE == 0)
      invariant Logged(s, f.St(), m0, f.maps, b0, f.blks, {})
      invariant tot == 0 ==> f.file == s.file && f.blks == b0 && f.maps == m0
      invariant BytesLogged(f.file, f.blks, i, off, tot)
    {
      ghost var maps1, blks1, ind1, t := f.maps, f.blks, f.ind, f.St();
      NextBlock(off, tot, n);
      if whole { Reached(s, f.St(), i, off, tot, src); }
      var m, addr, done, got, new_ := WriteRound(f, i, off, tot, src, avail, s);
      KeepsTrans(s.file, t.file, f.file, Slot(i, (off + tot) / BSIZE));
      LoggedTrans(s, t, f.St(), m0, maps1, f.maps, b0, blks1, f.blks, if done || got == 0 then {} else {addr});
      if whole {
        SpendRound(m0, b0, maps1, blks1, i, s.ind, ind1, off, n, tot, f.maps, f.blks, f.ind, addr, new_);
      }
      StillLogged(t.file, f.file, blks1, f.blks, i, off, tot, if done then m else 0);
      if !done {
        if addr == 0 { PaidStop(s, t, i, a, (off + tot) / BSIZE, e); }
        p := tot + got;
        TornIs(f.file, i, off, tot, p, addr);
        break;
      }
      PaidOn(s, t, f.St(), i, a, (off + tot) / BSIZE, e);
      tot := tot + m;
      p := tot;
    }
    if tot == n { PaidAll(s, f.St(), i, a, e); }
    if tot == n { TornIs(f.file, i, off, tot, p, 0); }
    FewMaps(s, f.St(), m0, f.maps, b0, f.blks, Torn(f.file, i, off, tot, p));
    if whole { BudgetTotal(m0, b0, f.maps, f.blks, i, s.ind, f.ind, off, n, f.inos, |f.bits|); }
  }

  lemma LoggedSub(s: State, t: State, maps0: set<int>, maps: set<int>, blks0: set<int>, blks: set<int>, torn: set<int>)
    requires Logged(s, t, maps0, maps, blks0, blks, torn)
    ensures blks0 <= blks && |t.bits| == |s.bits|
  {
  }

  /** No more bitmap blocks are logged than there are. */
  lemma FewMaps(s: State, t: State, maps0: set<int>, maps: set<int>, blks0: set<int>, blks: set<int>, torn: set<int>)
    requires Logged(s, t, maps0, maps, blks0, blks, torn)
    ensures maps0 == {} && |s.bits| > 0 ==> |maps| <= MapBlocks(|t.bits|) && |t.bits| == |s.bits|
  {
    if maps0 == {} && |s.bits| > 0 { Below(maps, MapBlocks(|t.bits|)); }
  }

  lemma {:induction false} Below(a: set<int>, n: nat)
    requires forall m :: m in a ==> 0 <= m < n
    ensures |a| <= n
  {
    if n > 0 {
      Below(a - {n - 1}, n - 1);
    } else {
      assert forall m :: m !in a;
    }
  }

  lemma StillLogged(file: map<Slot, int>, file2: map<Slot, int>, blks: set<int>, blks2: set<int>, i: int, off: int,
      tot: int,
      m: int)
    requires Keeps(file, file2) && blks <= blks2 && 0 <= m && 0 <= off && 0 <= tot
    requires BytesLogged(file, blks, i, off, tot)
    requires m > 0 ==>
        m <= BSIZE - (off + tot) % BSIZE && Slot(i, (off + tot) / BSIZE) in file2
        && file2[Slot(i, (off + tot) / BSIZE)] in blks2
    ensures BytesLogged(file2, blks2, i, off, tot + m)
  {
    forall k | off <= k < off + tot + m ensures ByteLogged(file2, blks2, i, k) {
      if k < off + tot {
        assert ByteLogged(file, blks, i, k);
      } else {
        var pos := off + tot;
        assert pos == pos / BSIZE * BSIZE + pos % BSIZE;
        assert k / BSIZE == pos / BSIZE;
      }
    }
  }

  /** The end of writei: the size is raised if need be, and the inode written. */
  method WriteSize(f: Fs, i: int, end: int, ghost s: State, ghost off: int, ghost r: int, ghost p: int,
      ghost src: seq<int>)
    requires f.Valid() && Patched(s, f.St(), i, off, p, src) && 0 <= r <= p && i in s.inodes
        && 0 <= off <= s.inodes[i].size
    requires off + |src| <= MAXFILE * BSIZE && end == off + r && i in f.inodes
    modifies f`inodes, f`inos
    ensures f.Valid() && i in f.inodes && WroteAs(s, f.St(), i, off, r, p, src)
    ensures NoHoles(s.inodes, s.file, i) ==> NoHoles(f.inodes, f.file, i)
    ensures f.inos == old(f.inos) + {i}
  {
    hide Inv, Patched, WroteAs, NoHoles;
    ghost var t := f.St();
    SizeWrote(s, t, i, off, r, p, src);
    if end > f.inodes[i].size { f.inodes := f.inodes[i := f.inodes[i].(size := end)]; } else { SameInode(t, i); }
    f.inos := f.inos + {i};
  }

  lemma SizeRange(s: State, i: int)
    requires Inv(s) && i in s.inodes
    ensures 0 <= s.inodes[i].size <= MAXFILE * BSIZE && |s.bits| > 0
  {
    hide BitsOk, ContentOk, OwnOk;
    assert ListOk(s.inodes[i], i, s.blocks, s.file, s.ind);
  }

  lemma SameInode(s: State, i: int)
    requires i in s.inodes
    ensures s.inodes[i := s.inodes[i].(size := s.inodes[i].size)] == s.inodes
  {
  }

  /** The block a round starts in is there already if the round starts in the middle of it. */
  lemma Reached(s: State, t: State, i: int, off: int, tot: int, src: seq<int>)
    requires Patched(s, t, i, off, tot, src) && i in s.inodes && NoHoles(s.inodes, s.file, i)
        && 0 <= off <= s.inodes[i].size
    ensures tot == 0 && off % BSIZE != 0 ==> Slot(i, off / BSIZE) in t.file
  {
    hide Byte, Others;
    assert off == off / BSIZE * BSIZE + off % BSIZE;
    if off % BSIZE != 0 { assert (off / BSIZE) * BSIZE < s.inodes[i].size; }
  }

  /** The bytes readi(off, n) is to return on a file of the given size. */
  function ReadLen(size: int, off: int, n: int): (r: int)
    ensures 0 <= off && 0 <= n && off + n < U32 ==>
        0 <= r <= n && (r > 0 ==> off + r <= size) && (r < n ==> off + r >= size)
  {
    if off > size || off + n >= U32 then 0 else if off + n > size then size - off else n
  }

  /** No byte and no size changed; file i may have got blocks for its holes. */
  ghost predicate Quiet(s: State, t: State, i: int) { Patched(s, t, i, 0, 0, []) }

  lemma QuietTrans(s: State, t: State, u: State, i: int, n: int)
    requires Quiet(s, t, i) && Grew(t, u, i, n) && i in s.inodes
    ensures Quiet(s, u, i) && i in u.inodes && u.inodes[i].size == s.inodes[i].size && forall x :: x in t.file ==>
        x in u.file
  {
    PatchedGrew(s, t, u, i, 0, 0, [], n);
  }

  /** v is byte k of file i in s, in a block that is there. */
  ghost predicate Got(s: State, file: map<Slot, int>, i: int, k: int, v: int)
      { v == Byte(s, i, k) && Slot(i, k / BSIZE) in file }

  /** One round of readi: as many bytes as the block holds, at most want; none if there is no block to be had. */
  method ReadRound(f: Fs, i: int, pos: int, want: int, ghost s: State) returns (piece: seq<int>)
    requires f.Valid() && i in f.inodes && i in s.inodes && Quiet(s, f.St(), i) && 0 <= pos < MAXFILE * BSIZE
        && want > 0
    modifies f
    ensures f.Valid() && i in f.inodes && Quiet(s, f.St(), i) && f.inodes[i].size == s.inodes[i].size && |piece| <= want
    ensures Slot(i, pos / BSIZE) in old(f.file) ==>
              f.St() == old(f.St()) && f.maps == old(f.maps) && f.blks == old(f.blks) && piece != []
    ensures f.inos == old(f.inos) && (piece == [] ==> Full(f.bits)) && forall x :: x in old(f.file) ==> x in f.file
    ensures forall k :: 0 <= k < |piece| ==> Got(s, f.file, i, pos + k, piece[k])
    ensures piece != [] <==> Fresh(old(f.file), old(f.ind), i, pos / BSIZE) <= FreeCount(old(f.bits))
    ensures piece != [] ==>
        |piece| == Room(pos, want) && Paid(old(f.St()), f.St(), i, pos / BSIZE)
    ensures Logged(old(f.St()), f.St(), old(f.maps), f.maps, old(f.blks), f.blks, {})
  {
    hide Inv, Grew, Full, Byte, Quiet, FreeCount, Logged;
    ghost var t := f.St();
    var addr, _ := f.Bmap(i, pos / BSIZE);
    QuietTrans(s, t, f.St(), i, pos / BSIZE);
    GrewKeeps(t, f.St(), i, pos / BSIZE);
    if addr == 0 { return []; }
    var o := pos % BSIZE;
    var m := if want < BSIZE - o then want else BSIZE - o;
    FileBlocks(f.St());
    piece := f.blocks[addr][o..o + m];
    forall k | 0 <= k < |piece| ensures Got(s, f.file, i, pos + k, piece[k]) {
      ByteAt(f.St(), i, pos, k);
      SameByte(s, f.St(), i, pos + k);
    }
  }

  lemma SameByte(s: State, t: State, i: int, k: int)
    requires Quiet(s, t, i)
    ensures Byte(t, i, k) == Byte(s, i, k)
  {
  }

  /**
    Reads up to n bytes at off, giving holes blocks; user memory takes the first avail of them.  It is short
    exactly if the holes in the range cost more blocks than are free, and -1 exactly if the bytes that
    could be read do not all fit.
   */
  method Readi(f: Fs, i: int, off: int, n: int, avail: int) returns (r: int, dst: seq<int>)
    requires f.Valid() && i in f.inodes && 0 <= off < U32 && 0 <= n < U32 && 0 <= avail
    modifies f
    ensures f.Valid() && Quiet(old(f.St()), f.St(), i) && i in f.inodes
    ensures NoHoles(old(f.inodes), old(f.file), i) ==> f.St() == old(f.St()) && Logs(f) == old(Logs(f))
    ensures var len, cost := ReadLen(f.inodes[i].size, off, n), ReadCost(old(f.St()), i, off, n);
            && |dst| <= len && (r == |dst| || r == -1) && (r == -1 ==> avail < len)
            && (cost <= FreeCount(old(f.bits)) ==> if avail < len then r == -1 else r == len)
            && (r == len >= 0 ==>
                  cost <= FreeCount(old(f.bits)) && FreeCount(f.bits) == FreeCount(old(f.bits)) - cost
                  && Filled(old(f.St()), f.St(), i, off / BSIZE, EndBlock(off, len)))
            && (0 <= r < len ==> Full(f.bits))
            && (cost == 0 ==> f.St() == old(f.St()) && f.maps == old(f.maps) && f.blks == old(f.blks))
    ensures forall k :: 0 <= k < |dst| ==> Got(old(f.St()), f.file, i, off + k, dst[k])
    ensures f.inos == old(f.inos) && Logged(old(f.St()), f.St(), old(f.maps), f.maps, old(f.blks), f.blks, {})
  {
    hide Inv, Full, Byte, Quiet, NoHoles, FreeCount, Span, EndBlock, Got, Filled, Logged;
    ghost var s := f.St();
    SizeRange(s, i);
    QuietSelf(s, i);
    LoggedSelf(s, f.maps, f.blks);
    if off > f.inodes[i].size || (off + n) % U32 < off {
      NoSpan(s, i, off);
      FilledNone(s, i, off / BSIZE);
      return 0, [];
    }
    var len := if off + n > f.inodes[i].size then f.inodes[i].size - off else n;
    r, dst := ReadAll(f, i, off, len, avail);
  }

  lemma {:induction false} NoCost(s: State, i: int, a: int, c: int, e: int)
    requires Span(s.file, i in s.ind, i, a, e) == 0 && a <= c < e
    ensures Slot(i, c) in s.file
  {
    SpanUp(s.file, i in s.ind, i, a, c + 1, e);
    SpanSnoc(s.file, i in s.ind, i, a, c);
  }

  /** readi's loop, on a range inside the file. */
  method ReadAll(f: Fs, i: int, off: int, len: int, avail: int) returns (r: int, dst: seq<int>)
    requires f.Valid() && i in f.inodes && 0 <= off && 0 <= len && off + len <= f.inodes[i].size && 0 <= avail
    modifies f
    ensures f.Valid() && Quiet(old(f.St()), f.St(), i) && i in f.inodes && f.inodes[i].size == old(f.inodes)[i].size
    ensures NoHoles(old(f.inodes), old(f.file), i) ==> f.St() == old(f.St()) && Logs(f) == old(Logs(f))
    ensures var cost := Span(old(f.file), i in old(f.ind), i, off / BSIZE, EndBlock(off, len));
            && |dst| <= len && (r == |dst| || r == -1) && (r == -1 ==> avail < len)
            && (cost <= FreeCount(old(f.bits)) ==> if avail < len then r == -1 else r == len)
            && (r == len ==> cost <= FreeCount(old(f.bits)) && FreeCount(f.bits) == FreeCount(old(f.bits)) - cost)
            && (0 <= r < len ==> Full(f.bits))
            && (cost == 0 ==> f.St() == old(f.St()) && f.maps == old(f.maps) && f.blks == old(f.blks))
    ensures f.inos == old(f.inos) && Logged(old(f.St()), f.St(), old(f.maps), f.maps, old(f.blks), f.blks, {})
    ensures r == len ==> Filled(old(f.St()), f.St(), i, off / BSIZE, EndBlock(off, len))
    ensures forall k :: 0 <= k < |dst| ==> Got(old(f.St()), f.file, i, off + k, dst[k])
  {
    hide Inv, Full, Byte, Quiet, NoHoles, FreeCount, Span, Paid, PaidTo, Fresh, EndBlock, AtBlock, Got, Filled, Logged;
    ghost var s, whole, a, e := f.St(), NoHoles(f.inodes, f.file, i), off / BSIZE, EndBlock(off, len);
    ghost var free := Span(s.file, i in s.ind, i, a, e) == 0;
    LoggedSelf(s, f.maps, f.blks);
    SizeRange(s, i);
    QuietSelf(s, i);
    PaidStart(s, i, a, e);
    AtEnds(off, len);
    FilledNone(s, i, a);
    dst := [];
    while |dst| < len
      invariant f.Valid() && Quiet(s, f.St(), i) && |dst| <= len && i in f.inodes
          && f.inodes[i].size == s.inodes[i].size && |dst| <= avail
      invariant whole || free ==> f.St() == s && f.maps == old(f.maps) && f.blks == old(f.blks)
      invariant f.inos == old(f.inos) && Logged(s, f.St(), old(f.maps), f.maps, old(f.blks), f.blks, {})
      invariant forall k :: 0 <= k < |dst| ==> Got(s, f.file, i, off + k, dst[k])
      invariant PaidTo(s, f.St(), i, a, AtBlock(off, |dst|, len), e)
      invariant Filled(s, f.St(), i, a, AtBlock(off, |dst|, len))
    {
      ghost var t, pos, maps1, blks1 := f.St(), off + |dst|, f.maps, f.blks;
      if whole { InFile(s, i, pos); }
      NextBlock(off, |dst|, len);
      if free { NoCost(s, i, a, pos / BSIZE, e); }
      var piece := ReadRound(f, i, off + |dst|, len - |dst|, s);
      LoggedTrans(s, t, f.St(), old(f.maps), maps1, f.maps, old(f.blks), blks1, f.blks, {});
      GotMore(s, t.file, f.file, i, off, dst, []);
      assert dst + [] == dst;
      if piece == [] {
        PaidStop(s, t, i, a, pos / BSIZE, e);
        return |dst|, dst;
      }
      if |dst| + |piece| > avail {
        return -1, dst;  // either_copyout failed
      }
      GotMore(s, t.file, f.file, i, off, dst, piece);
      PaidOn(s, t, f.St(), i, a, pos / BSIZE, e);
      FilledOn(s, t, f.St(), i, a, pos / BSIZE);
      dst := dst + piece;
    }
    PaidAll(s, f.St(), i, a, e);
    r := len;
  }

  lemma GotMore(s: State, file: map<Slot, int>, file2: map<Slot, int>, i: int, off: int, dst: seq<int>, piece: seq<int>)
    requires (forall x :: x in file ==> x in file2) && forall k :: 0 <= k < |dst| ==> Got(s, file, i, off + k, dst[k])
    requires forall k :: 0 <= k < |piece| ==> Got(s, file2, i, off + |dst| + k, piece[k])
    ensures forall k :: 0 <= k < |dst + piece| ==> Got(s, file2, i, off + k, (dst + piece)[k])
  {
    hide Byte;
    forall k | 0 <= k < |dst + piece| ensures Got(s, file2, i, off + k, (dst + piece)[k]) {
      assert k >= |dst| ==> Got(s, file2, i, off + |dst| + (k - |dst|), piece[k - |dst|]);
      assert k < |dst| ==> Got(s, file, i, off + k, dst[k]);
    }
  }

  /** The blocks that reading bytes [off, off + n) of file i adds to it. */
  function ReadCost(s: State, i: int, off: int, n: int): int
    requires i in s.inodes
  {
    Span(s.file, i in s.ind, i, off / BSIZE, EndBlock(off, ReadLen(s.inodes[i].size, off, n)))
  }

  lemma NoSpan(s: State, i: int, off: int)
    ensures Span(s.file, i in s.ind, i, off / BSIZE, EndBlock(off, 0)) == 0 && EndBlock(off, 0) == off / BSIZE
  {
  }

  lemma QuietSelf(s: State, i: int)
    requires Inv(s)
    ensures Quiet(s, s, i)
  {
    PatchedNone(s, i, 0, []);
  }

  /** A position inside a file without holes is in one of its blocks. */
  lemma InFile(s: State, i: int, pos: int)
    requires Inv(s) && i in s.inodes && NoHoles(s.inodes, s.file, i) && 0 <= pos < s.inodes[i].size
    ensures Slot(i, pos / BSIZE) in s.file && 0 <= pos / BSIZE < MAXFILE
  {
    hide Inv;
    SizeRange(s, i);
    assert pos == pos / BSIZE * BSIZE + pos % BSIZE;
  }

  lemma ByteAt(s: State, i: int, pos: int, j: int)
    requires Slot(i, pos / BSIZE) in s.file && 0 <= j && pos % BSIZE + j < BSIZE && 0 <= pos
    requires var b := s.file[Slot(i, pos / BSIZE)]; b in s.blocks && |s.blocks[b]| == BSIZE
    ensures Byte(s, i, pos + j) == s.blocks[s.file[Slot(i, pos / BSIZE)]][pos % BSIZE + j]
    ensures (pos + j) / BSIZE == pos / BSIZE
  {
    assert (pos + j) / BSIZE == pos / BSIZE && (pos + j) % BSIZE == pos % BSIZE + j;
  }

  /** What writei wrote, readi of the same range reads back. */
  lemma ReadBack(s: State, t: State, i: int, off: int, src: seq<int>, dst: seq<int>)
    requires Wrote(s, t, i, off, |src|, src) && off >= 0 && off + |src| < U32
    requires |dst| == ReadLen(t.inodes[i].size, off, |src|) && forall k :: 0 <= k < |dst| ==>
        dst[k] == Byte(t, i, off + k)
    ensures dst == src
  {
    hide Others, Byte;
    forall k | 0 <= k < |src| ensures dst[k] == src[k] {
      assert Byte(t, i, off + k) == src[off + k - off];
    }
  }

  // ----- filewrite -----

  lemma WroteNone(s: State, i: int, off: int, src: seq<int>)
    requires Inv(s) && i in s.inodes && off <= s.inodes[i].size
    ensures WroteAs(s, s, i, off, 0, 0, src)
  {
    hide Inv, Byte;
    FileBlocks(s);
  }

  /** How many transactions filewrite makes when it gets as far as done of n bytes. */
  function Chunks(n: int, done: int): int {
    if n == 0 then 0 else if done == n then (n + MAXCHUNK - 1) / MAXCHUNK else done / MAXCHUNK + 1
  }

  lemma ChunkCount(n: int, j: int, n1: int)
    requires 0 <= j < n && j % MAXCHUNK == 0 && n1 == (if n - j > MAXCHUNK then MAXCHUNK else n - j)
    ensures (j + n1 + MAXCHUNK - 1) / MAXCHUNK == (j + MAXCHUNK - 1) / MAXCHUNK + 1 == j / MAXCHUNK + 1
    ensures j + n1 == n || (j + n1) % MAXCHUNK == 0
  {
    assert j == j / MAXCHUNK * MAXCHUNK;
  }

  /** filewrite has stopped after j bytes, of which the last r of its last chunk. */
  lemma ChunkStop(n: int, j: int, r: int)
    requires 0 <= j < n && j % MAXCHUNK == 0 && 0 <= r < MAXCHUNK && j + r < n
    ensures Chunks(n, j + r) == j / MAXCHUNK + 1
  {
    assert j == j / MAXCHUNK * MAXCHUNK;
    assert (j + r) / MAXCHUNK == j / MAXCHUNK;
  }

  /** One chunk of filewrite, in a transaction of its own. */
  method WriteChunk(f: Fs, i: int, pos: int, piece: seq<int>, avail: int) returns (r: int, ghost q: int)
    requires f.Valid() && i in f.inodes && 0 <= pos < U32 && |piece| <= MAXCHUNK && 0 <= avail
    modifies f
    ensures f.Valid() && i in f.inodes && 0 <= f.inodes[i].size <= MAXFILE * BSIZE && |f.bits| == |old(f.bits)| > 0
    ensures NoHoles(old(f.inodes), old(f.file), i) ==> NoHoles(f.inodes, f.file, i)
    ensures -1 <= r <= |piece| && (r == -1 <==> pos > old(f.inodes)[i].size || pos + |piece| > MAXFILE * BSIZE)
    ensures r == -1 ==> f.St() == old(f.St())
    ensures r != -1 ==> WroteAs(old(f.St()), f.St(), i, pos, r, q, piece) && (q == r || r < q == avail < |piece|)
    ensures r != -1 && r < |piece| <= avail ==> Full(f.bits)
    ensures r == |piece| ==> |piece| <= avail
    ensures |f.txs| == |old(f.txs)| + 1 && f.txs[..|old(f.txs)|] == old(f.txs)
    ensures NoHoles(old(f.inodes), old(f.file), i) ==> f.txs[|old(f.txs)|] <= ChunkBlocks(|f.bits|)
  {
    hide Inv, WroteAs, Full, NoHoles, Logged, Keeps, BytesLogged, FreeCount, WriteCost, ChunkBlocks;
    SizeRange(f.St(), i);
    f.BeginOp();
    ghost var t := f.St();
    r, q := Writei(f, i, pos, piece, avail);
    LoggedSub(t, f.St(), {}, f.maps, {}, f.blks, Torn(f.file, i, pos, r, q));
    f.EndOp();
    SizeRange(f.St(), i);
  }

  /**
    filewrite to an inode: src, of which user memory gives the first avail bytes, goes out in chunks of at most
    MAXCHUNK bytes, each in its own transaction.
   */
  method Filewrite(f: Fs, i: int, foff: int, src: seq<int>, avail: int) returns (ret: int, foff': int, ghost p: int)
    requires f.Valid() && i in f.inodes && 0 <= foff < U32 && |src| < 0x8000_0000 && 0 <= avail
    modifies f
    ensures f.Valid() && i in f.inodes && (NoHoles(old(f.inodes), old(f.file), i) ==> NoHoles(f.inodes, f.file, i))
    ensures foff <= old(f.inodes)[i].size ==>
        WroteAs(old(f.St()), f.St(), i, foff, foff' - foff, p, src) && (p == foff' - foff || p == avail < |src|)
    ensures foff > old(f.inodes)[i].size ==> f.St() == old(f.St()) && foff' == foff
    ensures ret == (if foff' - foff == |src| then |src| else -1)
    ensures ret == -1 ==>
        Full(f.bits) || foff + |src| > MAXFILE * BSIZE || foff > old(f.inodes)[i].size || avail < |src|
    ensures |f.txs| == |old(f.txs)| + Chunks(|src|, foff' - foff) && f.txs[..|old(f.txs)|] == old(f.txs)
    ensures NoHoles(old(f.inodes), old(f.file), i) ==>
        forall k :: |old(f.txs)| <= k < |f.txs| ==> f.txs[k] <= ChunkBlocks(|f.bits|)
  {
    hide Inv, WroteAs, Full, NoHoles, ChunkBlocks, Chunks;
    ghost var s, whole, x0 := f.St(), NoHoles(f.inodes, f.file, i), f.txs;
    SizeRange(s, i);
    if foff <= f.inodes[i].size { WroteNone(s, i, foff, src); }
    foff', p := foff, 0;
    var j := 0;
    ChunksAll(|src|);
    while j < |src|
      invariant f.Valid() && i in f.inodes && 0 <= j <= |src| && foff' == foff + j && j <= avail && |f.bits| == |s.bits|
      invariant (j == |src| || j % MAXCHUNK == 0) && p == j
      invariant |f.txs| == |x0| + (j + MAXCHUNK - 1) / MAXCHUNK && f.txs[..|x0|] == x0
      invariant whole ==> NoHoles(f.inodes, f.file, i)
      invariant whole ==> forall k :: |x0| <= k < |f.txs| ==> f.txs[k] <= ChunkBlocks(|s.bits|)
      invariant if foff <= s.inodes[i].size then WroteAs(s, f.St(), i, foff, j, j, src)
          && foff' <= f.inodes[i].size <= MAXFILE * BSIZE else j == 0 && f.St() == s
    {
      var n1 := if |src| - j > MAXCHUNK then MAXCHUNK else |src| - j;
      ghost var t, x1 := f.St(), f.txs;
      ChunkCount(|src|, j, n1);
      var r, q := WriteChunk(f, i, foff', src[j..j + n1], avail - j);
      TxsKept(x0, x1, f.txs);
      if r != -1 {
        ChunkWrote(s, t, f.St(), i, foff, j, r, q, n1, src);
        p := j + q;
      }
      if r > 0 { foff' := foff' + r; }
      if r != n1 {
        ChunkStop(|src|, j, if r == -1 then 0 else r);
        break;
      }
      j := j + r;
    }
    ret := if j == |src| then |src| else -1;
  }

  lemma ChunksAll(n: int)
    requires 0 <= n
    ensures Chunks(n, n) == (n + MAXCHUNK - 1) / MAXCHUNK
  {
  }

  lemma TxsKept(x0: seq<int>, x1: seq<int>, x2: seq<int>)
    requires |x0| <= |x1| < |x2| && x1[..|x0|] == x0 && x2[..|x1|] == x1
    ensures x2[..|x0|] == x0 && forall k :: 0 <= k < |x1| ==> x2[k] == x1[k]
  {
    assert x2[..|x0|] == x2[..|x1|][..|x0|];
    assert forall k :: 0 <= k < |x1| ==> x2[k] == x2[..|x1|][k];
  }

  lemma ChunkWrote(s: State, t: State, u: State, i: int, off: int, a: int, r: int, q: int, n1: int, src: seq<int>)
    requires WroteAs(s, t, i, off, a, a, src) && 0 <= a && 0 <= n1 && a + n1 <= |src|
        && WroteAs(t, u, i, off + a, r, q, src[a..a + n1])
    ensures WroteAs(s, u, i, off, a + r, a + q, src) && i in u.inodes && off + a + r <= u.inodes[i].size && 0 <= r <= n1
  {
    hide Byte, Others;
    OthersTrans(s, t, u, i);
    forall k ensures Byte(u, i, k) == (if off <= k < off + (a + q) then src[k - off] else Byte(s, i, k)) {
      if off + a <= k < off + a + q { assert src[a..a + n1][k - (off + a)] == src[k - off]; }
    }
  }

  // ----- reads outside a transaction -----

  /** A bitmap block is logged exactly if a block was taken; a full disk has none to take. */
  lemma SomeLogged(s: State, t: State, maps: set<int>, blks: set<int>)
    requires Logged(s, t, {}, maps, {}, blks, {})
    ensures maps != {} <==> t.bits != s.bits
    ensures Full(s.bits) ==> t.bits == s.bits
  {
    if t.bits != s.bits {
      var b :| 0 <= b < |t.bits| && t.bits[b] != s.bits[b];
      assert b / BPB in maps;
    }
  }

  /**
    fileread of an inode, which begins no operation: log_write panics as soon as readi gives a hole a block, unless
    an operation of another process is outstanding.  With memory for all bytes that is so exactly if there is a
    hole in the range and a free block.
   */
  method Fileread(f: Fs, i: int, foff: int, n: int, avail: int, outstanding: nat)
      returns (panic: bool, r: int, foff': int, dst: seq<int>)
    requires f.Valid() && i in f.inodes && 0 <= foff < U32 && 0 <= n < 0x8000_0000 && 0 <= avail
    requires f.maps == {} && f.blks == {} && f.inos == {}
    modifies f
    ensures n <= avail ==>
        (panic <==> outstanding == 0 && ReadCost(old(f.St()), i, foff, n) > 0 && FreeCount(old(f.bits)) > 0)
    ensures !panic ==>
        && f.Valid() && Quiet(old(f.St()), f.St(), i) && i in f.inodes && foff' == (if r > 0 then foff + r else foff)
        && (r == |dst| || r == -1) && forall k :: 0 <= k < |dst| ==> Got(old(f.St()), f.file, i, foff + k, dst[k])
    ensures n <= avail && ReadCost(old(f.St()), i, foff, n) == 0 ==>
        r == |dst| == ReadLen(f.inodes[i].size, foff, n) && f.St() == old(f.St())
  {
    hide Inv, Full, Byte, Quiet, NoHoles, FreeCount, Span, EndBlock, Got, Filled, Logged;
    ghost var s := f.St();
    r, dst := Readi(f, i, foff, n, avail);
    foff' := if r > 0 then foff + r else foff;
    panic := outstanding == 0 && f.maps != {};  // panic("log_write outside of trans")
    CountFull(f.bits);
    CountFull(s.bits);
    SomeLogged(s, f.St(), f.maps, f.blks);
  }
}

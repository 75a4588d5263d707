/** kernel/fs.c balloc and bmap, updating the disk in place. */
module FsCode {
  import opened FsModel

  /** Byte k of file i; 0 where the file has no block. */
  function Byte(s: State, i: int, k: int): int {
    var x := Slot(i, k / BSIZE);
    if x in s.file && s.file[x] in s.blocks
        && 0 <= k % BSIZE < |s.blocks[s.file[x]]| then s.blocks[s.file[x]][k % BSIZE] else 0
  }

  /** Files other than i are untouched: inode, block list and contents. */
  ghost predicate Others(s: State, t: State, i: int) {
    && |t.bits| == |s.bits| && (forall j :: j in t.inodes <==> j in s.inodes)
    && (forall j :: j in s.inodes && j != i ==> t.inodes[j] == s.inodes[j])
    && (forall x: Slot :: x.i != i ==> (x in t.file <==> x in s.file))
    && (forall x: Slot :: x.i != i && x in s.file ==>
          t.file[x] == s.file[x] && s.file[x] in s.blocks && s.file[x] in t.blocks
              && t.blocks[s.file[x]] == s.blocks[s.file[x]])
  }

  /** What bmap may do to file i: give it block n, zeroed, and an indirect block. */
  ghost predicate Grew(s: State, t: State, i: int, n: int) {
    && Others(s, t, i)
    && (i in s.inodes ==> i in t.inodes && t.inodes[i].size == s.inodes[i].size)
    && (forall x :: x in s.file ==> x in t.file && t.file[x] == s.file[x])
    && (forall x :: x in t.file ==> x in s.file || x == Slot(i, n))
    && (forall j :: j in s.ind ==> j in t.ind && t.ind[j] == s.ind[j])
    && (forall k :: Byte(t, i, k) == Byte(s, i, k))
  }

  /** Listed blocks are in use by their slot, and hold bytes. */
  lemma FileBlocks(s: State)
    requires Inv(s)
    ensures forall x :: x in s.file ==> s.file[x] in s.role && s.role[s.file[x]] == Data(x.i, x.n) && s.file[x] != 0
                                        && s.file[x] in s.blocks && |s.blocks[s.file[x]]| == BSIZE
  {
    hide ListsOk, BitsOk;
    forall x | x in s.file
      ensures s.file[x] != 0 && s.file[x] in s.blocks && |s.blocks[s.file[x]]| == BSIZE
    {
      var b := s.file[x];
      assert b in s.role && b in s.blocks;
      assert RoleFits(s.role[b], s.blocks[b]);
    }
  }

  lemma GrewSelf(s: State, i: int, n: int)
    requires Inv(s)
    ensures Grew(s, s, i, n)
  {
    hide Inv, Byte;
    FileBlocks(s);
  }

  lemma GrewTrans(s: State, t: State, u: State, i: int, n: int)
    requires Grew(s, t, i, n) && Grew(t, u, i, n)
    ensures Grew(s, u, i, n)
  {
    hide Byte;
  }

  /** Claiming a free block shows in no file. */
  lemma ClaimGrew(s: State, b: int, z: nat, i: int, n: int)
    requires Inv(s) && 0 <= b < |s.bits| && !s.bits[b]
    ensures Grew(s, Claim(s, b, z), i, n)
  {
    hide Inv;
    FileBlocks(s);
    ClaimInv(s, b, z);
  }

  lemma DirectGrew(s: State, i: int, n: int, b: int)
    requires Inv(s) && i in s.inodes && 0 <= n < NDIRECT && |s.inodes[i].addrs| == NDIRECT + 1 && Slot(i, n) !in s.file
    requires b in s.blocks && s.blocks[b] == Zeros(BSIZE)
    ensures Grew(s, LinkDirect(s, i, n, b), i, n)
  {
    hide Inv;
    FileBlocks(s);
    var t := LinkDirect(s, i, n, b);
    forall k ensures Byte(t, i, k) == Byte(s, i, k) {}
  }

  lemma IndGrew(s: State, i: int, n: int, b: int)
    requires Inv(s) && i in s.inodes && |s.inodes[i].addrs| == NDIRECT + 1 && i !in s.ind
    ensures Grew(s, LinkInd(s, i, b), i, n)
  {
    hide Inv;
    FileBlocks(s);
  }

  lemma IndirectGrew(s: State, i: int, n: int, b: int)
    requires Inv(s) && i in s.ind && s.ind[i] in s.blocks && 0 <= n - NDIRECT < |s.blocks[s.ind[i]]|
        && Slot(i, n) !in s.file
    requires b in s.blocks && s.blocks[b] == Zeros(BSIZE) && b in s.role && s.role[b] == Held
    ensures Grew(s, LinkIndirect(s, i, n, b), i, n)
  {
    hide ListsOk, BitsOk, ContentOk, OwnOk;
    FileBlocks(s);
    IndApart(s, i);
    var t := LinkIndirect(s, i, n, b);
    forall k ensures Byte(t, i, k) == Byte(s, i, k) {}
  }

  // ----- what is logged -----

  /**
    From s to t, blocks were allocated or written: every bit that changed has its bitmap block logged, and every block
    that was allocated or changed, except torn, is logged; without an allocation no bitmap block is.
   */
  ghost predicate Logged(s: State, t: State, maps0: set<int>, maps: set<int>, blks0: set<int>, blks: set<int>,
      torn: set<int>)
  {
    && |t.bits| == |s.bits| && maps0 <= maps && blks0 <= blks
    && (forall b :: 0 <= b < |t.bits| && t.bits[b] != s.bits[b] ==> b / BPB in maps)
    && (forall b :: 0 <= b < |t.bits| && t.bits[b] && !s.bits[b] ==> b in blks)
    && (forall b :: b in t.blocks && !(b in s.blocks && t.blocks[b] == s.blocks[b]) ==> b in blks + torn)
    && (forall m :: m in maps ==> m in maps0 || 0 <= m <= (|t.bits| - 1) / BPB)
    && (forall b :: 0 <= b < |t.bits| && s.bits[b] ==> t.bits[b]) && (t.bits == s.bits ==> maps == maps0)
  }

  lemma LoggedSelf(s: State, maps: set<int>, blks: set<int>)
    ensures Logged(s, s, maps, maps, blks, blks, {})
  {
  }

  lemma LoggedTrans(s: State, t: State, u: State, maps0: set<int>, maps1: set<int>, maps2: set<int>,
      blks0: set<int>, blks1: set<int>, blks2: set<int>, torn: set<int>)
    requires Logged(s, t, maps0, maps1, blks0, blks1, {}) && Logged(t, u, maps1, maps2, blks1, blks2, torn)
    ensures Logged(s, u, maps0, maps2, blks0, blks2, torn)
  {
    forall b | 0 <= b < |u.bits| && u.bits[b] && !s.bits[b] ensures b in blks2 {
      assert t.bits[b] || !t.bits[b];
    }
    forall b | 0 <= b < |u.bits| && u.bits[b] != s.bits[b] ensures b / BPB in maps2 {
      assert t.bits[b] != s.bits[b] || u.bits[b] != t.bits[b];
    }
    if u.bits == s.bits {
      forall b | 0 <= b < |t.bits| ensures t.bits[b] == s.bits[b] {}
      assert t.bits == s.bits;
    }
  }

  /** More is logged, nothing else happened. */
  lemma LoggedMore(s: State, t: State, maps0: set<int>, maps: set<int>, blks0: set<int>, blks: set<int>,
      torn: set<int>, b: int)
    requires Logged(s, t, maps0, maps, blks0, blks, torn)
    ensures Logged(s, t, maps0, maps, blks0, blks + {b}, torn - {b})
  {
  }

  /** The contents of one block change; lists and roles do not matter to the log. */
  lemma LoggedWrite(s: State, t: State, u: State, maps0: set<int>, maps: set<int>, blks0: set<int>, blks: set<int>,
      b: int, w: seq<int>)
    requires Logged(s, t, maps0, maps, blks0, blks, {}) && u.bits == t.bits && u.blocks == t.blocks[b := w]
    ensures Logged(s, u, maps0, maps, blks0, blks, {b})
  {
  }

  /** A block is written and logged. */
  lemma LoggedBoth(s: State, t: State, u: State, maps0: set<int>, maps: set<int>, blks0: set<int>, blks: set<int>,
      b: int)
    requires Logged(s, t, maps0, maps, blks0, blks, {}) && u.bits == t.bits
    requires b in u.blocks && u.blocks == t.blocks[b := u.blocks[b]]
    ensures Logged(s, u, maps0, maps, blks0, blks + {b}, {})
  {
  }

  lemma LoggedSame(s: State, t: State, u: State, maps0: set<int>, maps: set<int>, blks0: set<int>, blks: set<int>,
      torn: set<int>)
    requires Logged(s, t, maps0, maps, blks0, blks, torn) && u.bits == t.bits && u.blocks == t.blocks
    ensures Logged(s, u, maps0, maps, blks0, blks, torn)
  {
  }

  lemma LoggedOne(s: State, b: int, n: nat, maps: set<int>, blks: set<int>)
    requires 0 <= b < |s.bits| && !s.bits[b]
    ensures Logged(s, Claim(s, b, n), maps, maps + {b / BPB}, blks, blks + {b}, {})
  {
    assert Claim(s, b, n).bits[b];
  }

  // ----- how many blocks are free, and how many a block of a file costs -----

  function FreeCount(bits: seq<bool>): (r: int)
    ensures 0 <= r <= |bits|
  {
    if bits == [] then 0 else FreeCount(bits[..|bits| - 1]) + (if bits[|bits| - 1] then 0 else 1)
  }

  lemma {:induction false} CountSet(bits: seq<bool>, b: int)
    requires 0 <= b < |bits| && !bits[b]
    ensures FreeCount(bits[b := true]) == FreeCount(bits) - 1
    decreases |bits|
  {
    var n := |bits| - 1;
    if b < n {
      CountSet(bits[..n], b);
      assert bits[b := true][..n] == bits[..n][b := true];
    } else {
      assert bits[b := true][..n] == bits[..n];
    }
  }

  lemma {:induction false} CountFull(bits: seq<bool>)
    ensures FreeCount(bits) == 0 <==> Full(bits)
    decreases |bits|
  {
    if bits != [] {
      var n := |bits| - 1;
      CountFull(bits[..n]);
      if Full(bits) { assert Full(bits[..n]); }
      if Full(bits[..n]) && bits[n] {
        forall b | 0 <= b < |bits| ensures bits[b] { if b < n { assert bits[..n][b]; } }
      }
    }
  }

  /** The blocks that block n of file i still costs. */
  function Fresh(file: map<Slot, int>, ind: map<int, int>, i: int, n: int): int {
    if Slot(i, n) in file then 0 else if n >= NDIRECT && i !in ind then 2 else 1
  }

  class Fs {
    var bits: seq<bool>
    var blocks: map<int, seq<int>>
    var inodes: map<int, Inode>
    ghost var role: map<int, Role>
    ghost var file: map<Slot, int>
    ghost var ind: map<int, int>
    // blocks logged since begin_op: bitmap blocks, other blocks, inodes
    var maps: set<int>
    var blks: set<int>
    var inos: set<int>
    ghost var txs: seq<int>    // how many blocks each transaction so far has logged

    ghost function St(): State
      reads this
    {
      State(bits, blocks, inodes, role, file, ind)
    }

    ghost predicate Valid()
      reads this
    {
      Inv(St())
    }

    /** A disk as found at boot, nothing logged yet. */
    constructor (b: seq<bool>, data: map<int, seq<int>>, nodes: map<int, Inode>,
        ghost r: map<int, Role>, ghost slots: map<Slot, int>, ghost lists: map<int, int>)
      requires Inv(State(b, data, nodes, r, slots, lists))
      ensures Valid() && St() == State(b, data, nodes, r, slots, lists) && maps == {} && blks == {} && inos == {}
    {
      bits, blocks, inodes, role, file, ind := b, data, nodes, r, slots, lists;
      maps, blks, inos, txs := {}, {}, {}, [];
    }

    /** begin_op: nothing logged yet in this transaction. */
    method BeginOp()
      modifies `maps, `blks, `inos
      ensures maps == {} && blks == {} && inos == {}
    {
      maps, blks, inos := {}, {}, {};
    }

    /** end_op, with what the transaction has logged. */
    method EndOp()
      modifies `txs
      ensures txs == old(txs) + [|maps| + |blks| + |inos|]
    {
      txs := txs + [|maps| + |blks| + |inos|];
    }

    /** Marks free block b in use, and zeroes it (as n elements). */
    method Mark(b: int, n: nat)
      requires Valid() && 0 <= b < |bits| && !bits[b]
      modifies this
      ensures Valid() && b != 0 && inos == old(inos) && txs == old(txs) && St() == Claim(old(St()), b, n)
      ensures maps == old(maps) + {b / BPB} && blks == old(blks) + {b}
      ensures b in role && role[b] == Held && b in blocks && blocks[b] == Zeros(n)
      ensures FreeCount(bits) == FreeCount(old(bits)) - 1 && FreeCount(old(bits)) > 0
      ensures Logged(old(St()), St(), old(maps), maps, old(blks), blks, {})
    {
      hide Inv, FreeCount, Logged;
      ClaimInv(St(), b, n);
      CountSet(bits, b);
      LoggedOne(St(), b, n, maps, blks);
      bits := bits[b := true];
      maps := maps + {b / BPB};
      blocks := blocks[b := Zeros(n)];
      blks := blks + {b};
      role := role[b := Held];
      assert St() == Claim(old(St()), b, n);
    }

    /** The first free block, marked in use and zeroed (as n elements); 0 if there is none. */
    method Balloc(n: nat) returns (r: int)
      requires Valid()
      modifies this
      ensures Valid() && inos == old(inos) && txs == old(txs)
      ensures r == 0 ==> St() == old(St()) && maps == old(maps) && blks == old(blks) && forall b :: 0 <= b < |bits| ==>
          bits[b]
      ensures r != 0 ==> 0 < r < |old(bits)| && !old(bits)[r] && (forall b :: 0 <= b < r ==> old(bits)[b])
      ensures r != 0 ==> St() == Claim(old(St()), r, n) && maps == old(maps) + {r / BPB} && blks == old(blks) + {r}
      ensures r != 0 ==> r in role && role[r] == Held && r in blocks && blocks[r] == Zeros(n)
      ensures FreeCount(bits) == FreeCount(old(bits)) - (if r != 0 then 1 else 0)
      ensures Logged(old(St()), St(), old(maps), maps, old(blks), blks, {})
      ensures r == 0 <==> FreeCount(old(bits)) == 0
    {
      hide Inv, FreeCount, Logged;
      LoggedSelf(St(), maps, blks);
      var b := 0;
      while b < |bits|
        invariant 0 <= b && b % BPB == 0 && St() == old(St()) && maps == old(maps) && blks == old(blks)
            && inos == old(inos) && txs == old(txs)
        invariant forall c :: 0 <= c < b && c < |bits| ==> bits[c]
      {
        var bi := 0;
        while bi < BPB && b + bi < |bits|
          invariant 0 <= bi <= BPB && St() == old(St()) && maps == old(maps) && blks == old(blks)
              && inos == old(inos) && txs == old(txs)
          invariant forall c :: 0 <= c < b + bi && c < |bits| ==> bits[c]
        {
          if !bits[b + bi] {
            assert (b + bi) / BPB == b / BPB;
            Mark(b + bi, n);
            return b + bi;
          }
          bi := bi + 1;
        }
        b := b + BPB;
      }
      CountFull(bits);
      return 0;
    }

    /** The block of file i at index bn, allocated if need be; 0 if the disk is full. */
    method Bmap(i: int, bn: int) returns (addr: int, ghost added: bool)
      requires Valid() && i in inodes && 0 <= bn < MAXFILE
      modifies this
      ensures Valid() && Grew(old(St()), St(), i, bn) && inos == old(inos) && txs == old(txs)
      ensures addr != 0 <==> Slot(i, bn) in file
      ensures addr != 0 ==> file[Slot(i, bn)] == addr && added == (Slot(i, bn) !in old(file))
      ensures Slot(i, bn) in old(file) ==> St() == old(St()) && maps == old(maps) && blks == old(blks)
      ensures addr == 0 ==> Full(bits) && !added
      ensures addr != 0 <==> Fresh(old(file), old(ind), i, bn) <= FreeCount(old(bits))
      ensures addr != 0 ==> FreeCount(bits) == FreeCount(old(bits)) - Fresh(old(file), old(ind), i, bn)
      ensures addr != 0 ==> (i in ind <==> i in old(ind) || bn >= NDIRECT)
      ensures Logged(old(St()), St(), old(maps), maps, old(blks), blks, {})
      ensures |maps| <= |old(maps)| + (if added then 1 else 0) + (if i in ind && i !in old(ind) then 1 else 0)
      ensures blks <= old(blks) + {addr} + (if i in ind && bn >= NDIRECT then {ind[i]} else {})
    {
      hide Inv, Grew, Full, FreeCount, Logged;
      if bn < NDIRECT {
        addr, added := MapDirect(i, bn);
        return;
      }
      ghost var s := St();
      ghost var maps0, blks0 := maps, blks;
      SlotWord(s, i, bn);
      IndListed(s, i, bn);
      var d := LoadIndirect(i, bn);
      if d == 0 { return 0, false; }
      ghost var t := St();
      ghost var maps1, blks1 := maps, blks;
      GrewKeeps(s, t, i, bn);
      addr, added := MapIndirect(i, bn, d);
      LoggedTrans(s, t, St(), maps0, maps1, maps, blks0, blks1, blks, {});
      GrewTrans(s, t, St(), i, bn);
      GrewKeeps(t, St(), i, bn);
    }

    /** bmap for the first NDIRECT blocks. */
    method MapDirect(i: int, bn: int) returns (addr: int, ghost added: bool)
      requires Valid() && i in inodes && 0 <= bn < NDIRECT
      modifies this
      ensures Valid() && Grew(old(St()), St(), i, bn) && inos == old(inos) && txs == old(txs) && ind == old(ind)
      ensures addr != 0 <==> Slot(i, bn) in file
      ensures addr != 0 ==> file[Slot(i, bn)] == addr && added == (Slot(i, bn) !in old(file))
      ensures Slot(i, bn) in old(file) ==> St() == old(St()) && maps == old(maps) && blks == old(blks)
      ensures addr == 0 ==> Full(bits) && !added
      ensures addr != 0 <==> Fresh(old(file), old(ind), i, bn) <= FreeCount(old(bits))
      ensures addr != 0 ==> FreeCount(bits) == FreeCount(old(bits)) - Fresh(old(file), old(ind), i, bn)
      ensures Logged(old(St()), St(), old(maps), maps, old(blks), blks, {})
      ensures |maps| <= |old(maps)| + (if added then 1 else 0) && blks <= old(blks) + {addr}
    {
      hide Inv, Grew, FreeCount, Logged;
      LoggedSelf(St(), maps, blks);
      ghost var s := St();
      added := false;
      SlotWord(s, i, bn);
      GrewSelf(s, i, bn);
      addr := inodes[i].addrs[bn];
      if addr == 0 {
        addr := Balloc(BSIZE);
        if addr == 0 { return 0, false; }
        ghost var t := St();
        ClaimGrew(s, addr, BSIZE, i, bn);
        LinkDirectInv(t, i, bn, addr);
        DirectGrew(t, i, bn, addr);
        inodes := inodes[i := inodes[i].(addrs := inodes[i].addrs[bn := addr])];
        role, file := role[addr := Data(i, bn)], file[Slot(i, bn) := addr];
        assert St() == LinkDirect(t, i, bn, addr);
        LoggedSame(s, t, St(), old(maps), maps, old(blks), blks, {});
        GrewTrans(s, t, St(), i, bn);
        added := true;
      }
    }

    /** The indirect block of file i, allocated if need be. */
    method LoadIndirect(i: int, ghost bn: int) returns (d: int)
      requires Valid() && i in inodes && NDIRECT <= bn < MAXFILE
      modifies this
      ensures Valid() && Grew(old(St()), St(), i, bn) && inos == old(inos) && txs == old(txs) && file == old(file)
          && i in inodes
      ensures if d == 0 then i !in ind && Full(bits) else i in ind && ind[i] == d
      ensures i in old(ind) || d == 0 ==> St() == old(St()) && maps == old(maps) && blks == old(blks)
      ensures |maps| <= |old(maps)| + (if i in ind && i !in old(ind) then 1 else 0)
      ensures Logged(old(St()), St(), old(maps), maps, old(blks), blks, {})
      ensures blks <= old(blks) + {d} && (d != 0 <==> i in old(ind) || FreeCount(old(bits)) >= 1)
      ensures FreeCount(bits) == FreeCount(old(bits)) - (if d != 0 && i !in old(ind) then 1 else 0)
    {
      hide Inv, Grew, FreeCount, Logged;
      LoggedSelf(St(), maps, blks);
      ghost var s := St();
      SlotWord(s, i, bn);
      GrewSelf(s, i, bn);
      d := inodes[i].addrs[NDIRECT];
      if d == 0 {
        d := Balloc(NINDIRECT);
        if d == 0 { return 0; }
        ghost var t := St();
        ClaimGrew(s, d, NINDIRECT, i, bn);
        LinkIndInv(t, i, d);
        IndGrew(t, i, bn, d);
        inodes := inodes[i := inodes[i].(addrs := inodes[i].addrs[NDIRECT := d])];
        role, ind := role[d := Ind(i)], ind[i := d];
        assert St() == LinkInd(t, i, d);
        LoggedSame(s, t, St(), old(maps), maps, old(blks), blks, {});
        GrewTrans(s, t, St(), i, bn);
      }
    }

    /** Writes the block's number in the indirect block, and logs that. */
    method EnterBlock(i: int, bn: int, d: int, addr: int)
      requires i in ind && ind[i] == d && d in blocks && 0 <= bn - NDIRECT < |blocks[d]|
      modifies `blocks, `blks, `role, `file
      ensures St() == LinkIndirect(old(St()), i, bn, addr) && blks == old(blks) + {d}
    {
      blocks := blocks[d := blocks[d][bn - NDIRECT := addr]];
      blks := blks + {d};
      role, file := role[addr := Data(i, bn)], file[Slot(i, bn) := addr];
    }

    /** bmap for the blocks listed in indirect block d. */
    method MapIndirect(i: int, bn: int, d: int) returns (addr: int, ghost added: bool)
      requires Valid() && i in inodes && NDIRECT <= bn < MAXFILE && i in ind && ind[i] == d
      modifies this
      ensures Valid() && Grew(old(St()), St(), i, bn) && inos == old(inos) && txs == old(txs) && ind == old(ind)
      ensures addr != 0 <==> Slot(i, bn) in file
      ensures addr != 0 ==> file[Slot(i, bn)] == addr && added == (Slot(i, bn) !in old(file))
      ensures Slot(i, bn) in old(file) ==> St() == old(St()) && maps == old(maps) && blks == old(blks)
      ensures addr == 0 ==> Full(bits) && !added
      ensures addr != 0 <==> Fresh(old(file), old(ind), i, bn) <= FreeCount(old(bits))
      ensures addr != 0 ==> FreeCount(bits) == FreeCount(old(bits)) - Fresh(old(file), old(ind), i, bn)
      ensures Logged(old(St()), St(), old(maps), maps, old(blks), blks, {})
      ensures |maps| <= |old(maps)| + (if added then 1 else 0) && blks <= old(blks) + {addr, d}
    {
      hide Inv, Grew, FreeCount, Logged;
      LoggedSelf(St(), maps, blks);
      ghost var t := St();
      added := false;
      SlotWord(t, i, bn);
      GrewSelf(t, i, bn);
      addr := blocks[d][bn - NDIRECT];
      if addr == 0 {
        addr := Balloc(BSIZE);
        if addr != 0 {
          ghost var u, blks1 := St(), blks;
          ClaimGrew(t, addr, BSIZE, i, bn);
          LinkIndirectInv(u, i, bn, addr);
          IndirectGrew(u, i, bn, addr);
          EnterBlock(i, bn, d, addr);
          LoggedBoth(t, u, St(), old(maps), maps, old(blks), blks1, d);
          GrewTrans(t, u, St(), i, bn);
          added := true;
        }
      }
    }
  }

  lemma GrewKeeps(s: State, t: State, i: int, n: int)
    requires Grew(s, t, i, n)
    ensures (forall j :: j in s.ind ==> j in t.ind && t.ind[j] == s.ind[j])
        && (forall j :: j in t.inodes <==> j in s.inodes)
    ensures i in s.inodes ==> i in t.inodes && t.inodes[i].size == s.inodes[i].size
    ensures (forall x :: x in s.file ==> x in t.file && t.file[x] == s.file[x])
        && (forall x :: x in t.file ==> x in s.file || x == Slot(i, n))
  {
  }

  predicate Full(bits: seq<bool>) { forall b :: 0 <= b < |bits| ==> bits[b] }

  /** A block of the indirect part is listed in an indirect block. */
  lemma IndListed(s: State, i: int, n: int)
    requires Inv(s) && n >= NDIRECT
    ensures Slot(i, n) in s.file ==> i in s.ind
  {
    hide BitsOk, ContentOk, ListsOk;
  }

  /** What bmap reads: the direct entry, the indirect block's number and its entry. */
  lemma SlotWord(s: State, i: int, n: int)
    requires Inv(s) && i in s.inodes && 0 <= n < MAXFILE
    ensures |s.inodes[i].addrs| == NDIRECT + 1
    ensures n < NDIRECT ==> s.inodes[i].addrs[n] == Entry(s.file, Slot(i, n))
    ensures s.inodes[i].addrs[NDIRECT] == IndEntry(s.ind, i)
    ensures i in s.ind ==> s.ind[i] != 0 && s.ind[i] in s.blocks && |s.blocks[s.ind[i]]| == NINDIRECT
    ensures i in s.ind && n >= NDIRECT ==> s.blocks[s.ind[i]][n - NDIRECT] == Entry(s.file, Slot(i, n))
    ensures i !in s.ind && n >= NDIRECT ==> Slot(i, n) !in s.file
    ensures Slot(i, n) in s.file ==> s.file[Slot(i, n)] != 0
  {
    hide BitsOk, ContentOk, OwnOk;
    assert ListOk(s.inodes[i], i, s.blocks, s.file, s.ind);
    FileBlocks(s);
    if i in s.ind { IndApart(s, i); } else { NoIndirect(s, i); }
  }
}

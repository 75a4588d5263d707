/**
  The user-level allocator (user/umalloc.c): a circular, address-ordered free list of blocks
  with coalescing.  Addresses and sizes are counted in 16-byte header units.
 */
module Umalloc {

  const UNIT := 16
  const MINCORE := 4096

  /** What a unit obtained from sbrk belongs to: the free, or the allocated, block that starts at a. */
  datatype Tag = Free(a: int) | Used(a: int)

  // ----- invariants -----

  /** q is the block after a: the next higher address, or B after the highest. */
  ghost predicate Succ(B: int, F: set<int>, a: int, q: int) {
    && q in F
    && (if q > a then forall x :: x in F ==> x <= a || x >= q else q == B && forall x :: x in F ==> x <= a)
  }

  /** ptr links the blocks F in address order, once around; B, the lowest, is &base. */
  ghost predicate ListOk(B: int, F: set<int>, ptr: map<int, int>) {
    && B in F && (forall a :: a in F ==> B <= a && a in ptr)
    && (forall a {:trigger ptr[a]} :: a in F ==> Succ(B, F, a, ptr[a]))
  }

  /** Free blocks are in address order with room between any two: none overlap and none touch. */
  ghost predicate NoTouch(B: int, F: set<int>, size: map<int, int>) {
    && (forall a :: a in F ==> a in size && (if a == B then size[a] == 0 else size[a] >= 1))
    && (forall a, b :: a in F && b in F && a < b ==> a + size[a] < b)
  }

  ghost predicate AllocOk(F: set<int>, size: map<int, int>, alloc: map<int, int>) {
    forall a :: a in alloc ==> a !in F && a in size && size[a] == alloc[a] >= 1
  }

  /** The units [lo, hi) all belong to block t. */
  ghost predicate Covers(tag: map<int, Tag>, lo: int, hi: int, t: Tag)
      { forall u :: lo <= u < hi ==> u in tag && tag[u] == t }

  /** The block a unit belongs to, and that the unit is in it. */
  predicate InBlock(B: int, F: set<int>, size: map<int, int>, alloc: map<int, int>, u: int, t: Tag) {
    if t.Free? then t.a in F && t.a != B && t.a in size && t.a <= u < t.a + size[t.a]
    else t.a in alloc && t.a <= u < t.a + alloc[t.a]
  }

  ghost predicate FreeUnits(B: int, F: set<int>, size: map<int, int>, tag: map<int, Tag>) {
    forall a :: a in F && a != B && a in size ==> Covers(tag, a, a + size[a], Free(a))
  }

  ghost predicate UsedUnits(alloc: map<int, int>, tag: map<int, Tag>) {
    forall a :: a in alloc ==> Covers(tag, a, a + alloc[a], Used(a))
  }

  ghost predicate Tagged(B: int, F: set<int>, size: map<int, int>, alloc: map<int, int>, tag: map<int, Tag>, top: int) {
    forall u :: u in tag ==> B < u < top && InBlock(B, F, size, alloc, u, tag[u])
  }

  /** Each unit from sbrk is in exactly one block, free or allocated, and blocks hold nothing else. */
  ghost predicate TagOk(B: int, F: set<int>, size: map<int, int>, alloc: map<int, int>, tag: map<int, Tag>, top: int) {
    Tagged(B, F, size, alloc, tag, top) && FreeUnits(B, F, size, tag) && UsedUnits(alloc, tag)
  }

  /** The units [lo, hi) change hands. */
  function Retag(tag: map<int, Tag>, lo: int, hi: int, t: Tag): (r: map<int, Tag>)
    ensures r.Keys == tag.Keys && forall u :: u in tag ==> r[u] == (if lo <= u < hi then t else tag[u])
  {
    map u | u in tag :: if lo <= u < hi then t else tag[u]
  }

  /** Two blocks never overlap. */
  lemma Apart(tag: map<int, Tag>, a: int, n: int, s: Tag, b: int, m: int, t: Tag)
    requires Covers(tag, a, a + n, s) && Covers(tag, b, b + m, t) && s != t && n >= 1 && m >= 1
    ensures a + n <= b || b + m <= a
  {
    var u := if a <= b then b else a;
    assert a <= u < a + n ==> u in tag;
  }

  lemma KeepCovers(tag: map<int, Tag>, lo: int, hi: int, t: Tag, a: int, b: int, s: Tag)
    requires Covers(tag, a, b, s) && (b <= lo || hi <= a)
    ensures Covers(Retag(tag, lo, hi, t), a, b, s)
  {
  }

  // ----- list surgery -----

  lemma SuccInj(B: int, F: set<int>, a: int, b: int, q: int)
    requires Succ(B, F, a, q) && Succ(B, F, b, q) && q != B && a in F && b in F
    ensures a == b < q
  {
  }

  lemma SuccDrop(B: int, F: set<int>, q: int, a: int, s: int)
    requires Succ(B, F, a, s) && s != q
    ensures Succ(B, F - {q}, a, s)
  {
  }

  lemma SuccSkip(B: int, F: set<int>, p: int, q: int, s: int)
    requires Succ(B, F, p, q) && Succ(B, F, q, s) && q > p && (forall a :: a in F ==> B <= a) && p in F && s in F - {q}
    ensures Succ(B, F - {q}, p, s)
  {
  }

  /** Taking block q, the successor of p, out of the list. */
  lemma Unlink(B: int, F: set<int>, ptr: map<int, int>, p: int)
    requires ListOk(B, F, ptr) && p in F && ptr[p] != B
    ensures ptr[p] in F && ptr[p] > p && ListOk(B, F - {ptr[p]}, ptr[p := ptr[ptr[p]]])
  {
    var q := ptr[p];
    SuccInj(B, F, p, p, q);
    var F2, ptr2 := F - {q}, ptr[p := ptr[q]];
    assert Succ(B, F, q, ptr[q]) && ptr[q] != q;
    forall a {:trigger ptr2[a]} | a in F2 ensures Succ(B, F2, a, ptr2[a]) {
      hide Succ;
      if a == p {
        SuccSkip(B, F, p, q, ptr[q]);
      } else {
        if ptr[a] == q { SuccInj(B, F, a, p, q); }
        SuccDrop(B, F, q, a, ptr[a]);
      }
    }
  }

  lemma SuccAdd(B: int, F: set<int>, p: int, b: int, a: int, s: int)
    requires Succ(B, F, a, s) && a in F && p in F && p < b && p != a
        && (exists q :: Succ(B, F, p, q) && (b < q || q <= p)) && B <= p
    requires forall a :: a in F ==> B <= a
    ensures Succ(B, F + {b}, a, s)
  {
  }

  lemma SuccNew(B: int, F: set<int>, p: int, b: int, s: int)
    requires Succ(B, F, p, s) && p in F && b !in F && p < b && (b < s || s <= p) && B <= p
    ensures Succ(B, F + {b}, p, b) && Succ(B, F + {b}, b, s)
  {
  }

  /** Putting block b in between p and its successor. */
  lemma Link(B: int, F: set<int>, ptr: map<int, int>, p: int, b: int)
    requires ListOk(B, F, ptr) && p in F && b !in F && p < b && (b < ptr[p] || ptr[p] <= p)
    ensures ListOk(B, F + {b}, ptr[b := ptr[p]][p := b])
  {
    hide Succ;
    var F2, ptr2 := F + {b}, ptr[b := ptr[p]][p := b];
    assert Succ(B, F, p, ptr[p]);
    SuccNew(B, F, p, b, ptr[p]);
    forall a {:trigger ptr2[a]} | a in F2 ensures Succ(B, F2, a, ptr2[a]) {
      if a != b && a != p { SuccAdd(B, F, p, b, a, ptr[a]); }
    }
  }

  /** A word written outside the list. */
  lemma Junk(B: int, F: set<int>, ptr: map<int, int>, b: int, v: int)
    requires ListOk(B, F, ptr) && b !in F
    ensures ListOk(B, F, ptr[b := v])
  {
    var ptr2 := ptr[b := v];
    forall a {:trigger ptr2[a]} | a in F ensures Succ(B, F, a, ptr2[a]) {
      hide Succ;
      assert ptr2[a] == ptr[a];
    }
  }

  // ----- the whole state -----

  /** freep is left out: it only has to be one of the blocks. */
  datatype Heap = Heap(F: set<int>, ptr: map<int, int>, size: map<int, int>, alloc: map<int, int>, tag: map<int, Tag>,
      top: int)

  ghost predicate Ok(B: int, h: Heap) {
    && ListOk(B, h.F, h.ptr) && NoTouch(B, h.F, h.size) && AllocOk(h.F, h.size, h.alloc)
    && TagOk(B, h.F, h.size, h.alloc, h.tag, h.top) && 0 < B < h.top
  }

  /** Block b lies between block p and its successor. */
  predicate Fits(h: Heap, p: int, b: int) {
    p in h.F && p in h.ptr && p < b && (b < h.ptr[p] || h.ptr[p] <= p)
  }

  /** The neighbours of an allocated block: it overlaps neither, and may touch either. */
  lemma Neighbours(B: int, h: Heap, p: int, b: int)
    requires Ok(B, h) && Fits(h, p, b) && b in h.alloc
    ensures b in h.size && h.size[b] == h.alloc[b] >= 1 && p in h.size && p + h.size[p] <= b && b !in h.F
    ensures h.ptr[p] in h.F && h.ptr[p] in h.size && (h.ptr[p] > p ==> b + h.size[b] <= h.ptr[p])
    ensures forall x :: x in h.F ==> x <= p || (x >= h.ptr[p] && h.ptr[p] > p)
  {
    assert b in h.tag && h.tag[b] == Used(b);
    var q := h.ptr[p];
    assert Succ(B, h.F, p, q);
    assert q > p ==> q in h.F && h.size[q] >= 1 && q in h.tag;
  }

  /** The first half of free: a free block that touches the end of b becomes part of b. */
  function AbsorbRight(h: Heap, p: int, b: int): Heap
    requires p in h.ptr && h.ptr[p] in h.ptr && h.ptr[p] in h.size && b in h.size
  {
    var q := h.ptr[p];
    h.(F := h.F - {q}, ptr := h.ptr[p := h.ptr[q]], size := h.size[b := h.size[b] + h.size[q]],
       alloc := h.alloc[b := h.size[b] + h.size[q]], tag := Retag(h.tag, q, q + h.size[q], Used(b)))
  }

  lemma AbsorbFree(B: int, F: set<int>, size: map<int, int>, tag: map<int, Tag>, b: int, q: int, n: int)
    requires NoTouch(B, F, size) && FreeUnits(B, F, size, tag) && q in F && q != B && q in size && b !in F
    ensures FreeUnits(B, F - {q}, size[b := n], Retag(tag, q, q + size[q], Used(b)))
  {
    var size2, tag2 := size[b := n], Retag(tag, q, q + size[q], Used(b));
    forall a | a in F - {q} && a != B && a in size2 ensures Covers(tag2, a, a + size2[a], Free(a)) {
      hide Covers;
      Apart(tag, a, size[a], Free(a), q, size[q], Free(q));
      KeepCovers(tag, q, q + size[q], Used(b), a, a + size[a], Free(a));
    }
  }

  lemma AbsorbUsed(alloc: map<int, int>, tag: map<int, Tag>, b: int, q: int, m: int)
    requires UsedUnits(alloc, tag) && (forall a :: a in alloc ==> alloc[a] >= 1) && Covers(tag, q, q + m, Free(q))
        && m >= 1
    requires b in alloc && b + alloc[b] == q
    ensures UsedUnits(alloc[b := alloc[b] + m], Retag(tag, q, q + m, Used(b)))
  {
    var alloc2, tag2 := alloc[b := alloc[b] + m], Retag(tag, q, q + m, Used(b));
    assert Covers(tag, b, b + alloc[b], Used(b));
    assert Covers(tag2, b, b + alloc2[b], Used(b));
    forall a | a in alloc2 ensures Covers(tag2, a, a + alloc2[a], Used(a)) {
      hide Covers;
      if a != b {
        Apart(tag, a, alloc[a], Used(a), q, m, Free(q));
        KeepCovers(tag, q, q + m, Used(b), a, a + alloc[a], Used(a));
      }
    }
  }

  lemma AbsorbTagged(B: int, F: set<int>, size: map<int, int>, alloc: map<int, int>, tag: map<int, Tag>, top: int,
      b: int, q: int)
    requires Tagged(B, F, size, alloc, tag, top) && q in size && b in alloc && b in size && alloc[b] == size[b]
        && b + alloc[b] == q && b !in F
    requires alloc[b] >= 1 && size[q] >= 1
    ensures Tagged(B, F - {q}, size[b := size[b] + size[q]], alloc[b := size[b] + size[q]],
        Retag(tag, q, q + size[q], Used(b)), top)
  {
  }

  lemma AbsorbRightOk(B: int, h: Heap, p: int, b: int)
    requires Ok(B, h) && Fits(h, p, b) && b in h.alloc && b in h.size && b + h.size[b] == h.ptr[p]
    ensures h.ptr[p] in h.F && h.ptr[p] in h.ptr && h.ptr[p] in h.size && h.ptr[p] > p
    ensures Ok(B, AbsorbRight(h, p, b)) && Fits(AbsorbRight(h, p, b), p, b)
    ensures var g := AbsorbRight(h, p, b);
        p in g.size && g.size[p] == h.size[p] && (g.ptr[p] > p ==> b + g.size[b] < g.ptr[p])
  {
    hide Tagged, UsedUnits, Covers, Succ;
    Neighbours(B, h, p, b);
    var q := h.ptr[p];
    Unlink(B, h.F, h.ptr, p);
    SuccOf(B, h.F, h.ptr, q);
    AbsorbFree(B, h.F, h.size, h.tag, b, q, h.size[b] + h.size[q]);
    AbsorbUsed(h.alloc, h.tag, b, q, h.size[q]);
    AbsorbTagged(B, h.F, h.size, h.alloc, h.tag, h.top, b, q);
  }

  lemma SuccOf(B: int, F: set<int>, ptr: map<int, int>, a: int)
    requires ListOk(B, F, ptr) && a in F
    ensures ptr[a] in F && (ptr[a] > a || (ptr[a] == B && forall x :: x in F ==> x <= a))
  {
  }

  /** The other half of free, when b touches no free block before it: it becomes one itself. */
  function Insert(h: Heap, p: int, b: int): Heap
    requires p in h.ptr && b in h.size
  {
    h.(F := h.F + {b}, ptr := h.ptr[b := h.ptr[p]][p := b], alloc := h.alloc - {b},
        tag := Retag(h.tag, b, b + h.size[b], Free(b)))
  }

  lemma InsertFree(B: int, F: set<int>, size: map<int, int>, tag: map<int, Tag>, b: int)
    requires NoTouch(B, F, size) && FreeUnits(B, F, size, tag) && b in size && size[b] >= 1
        && Covers(tag, b, b + size[b], Used(b))
    ensures FreeUnits(B, F + {b}, size, Retag(tag, b, b + size[b], Free(b)))
  {
    var tag2 := Retag(tag, b, b + size[b], Free(b));
    forall a | a in F + {b} && a != B && a in size ensures Covers(tag2, a, a + size[a], Free(a)) {
      if a != b {
        hide Covers;
        Apart(tag, a, size[a], Free(a), b, size[b], Used(b));
        KeepCovers(tag, b, b + size[b], Free(b), a, a + size[a], Free(a));
      }
    }
  }

  /** The units of allocated block b become those of free block f. */
  lemma FreeUsed(alloc: map<int, int>, tag: map<int, Tag>, b: int, f: int)
    requires UsedUnits(alloc, tag) && (forall a :: a in alloc ==> alloc[a] >= 1) && b in alloc
    ensures UsedUnits(alloc - {b}, Retag(tag, b, b + alloc[b], Free(f)))
  {
    var alloc2, tag2 := alloc - {b}, Retag(tag, b, b + alloc[b], Free(f));
    forall a | a in alloc2 ensures Covers(tag2, a, a + alloc2[a], Used(a)) {
      hide Covers;
      Apart(tag, a, alloc[a], Used(a), b, alloc[b], Used(b));
      KeepCovers(tag, b, b + alloc[b], Free(f), a, a + alloc[a], Used(a));
    }
  }

  lemma InsertTagged(B: int, F: set<int>, size: map<int, int>, alloc: map<int, int>, tag: map<int, Tag>, top: int,
      b: int)
    requires Tagged(B, F, size, alloc, tag, top) && b in alloc && b in size && alloc[b] == size[b] && b > B
    ensures Tagged(B, F + {b}, size, alloc - {b}, Retag(tag, b, b + size[b], Free(b)), top)
  {
  }

  lemma InsertOk(B: int, h: Heap, p: int, b: int)
    requires Ok(B, h) && Fits(h, p, b) && b in h.alloc && b in h.size && p in h.size
    requires p + h.size[p] < b && (h.ptr[p] > p ==> b + h.size[b] < h.ptr[p])
    ensures Ok(B, Insert(h, p, b))
  {
    hide Tagged, Covers, Succ;
    Neighbours(B, h, p, b);
    Link(B, h.F, h.ptr, p, b);
    InsertFree(B, h.F, h.size, h.tag, b);
    FreeUsed(h.alloc, h.tag, b, b);
    InsertTagged(B, h.F, h.size, h.alloc, h.tag, h.top, b);
  }

  /** ... when free block p touches b: b becomes part of p. */
  function MergeLeft(h: Heap, p: int, b: int): Heap
    requires p in h.size && b in h.size
  {
    h.(size := h.size[p := h.size[p] + h.size[b]], alloc := h.alloc - {b},
        tag := Retag(h.tag, b, b + h.size[b], Free(p)))
  }

  lemma MergeFree(B: int, F: set<int>, size: map<int, int>, tag: map<int, Tag>, p: int, b: int, n: int)
    requires NoTouch(B, F, size) && FreeUnits(B, F, size, tag) && p in F && p in size && p != B && p + size[p] == b
    requires Covers(tag, b, b + n, Used(b)) && n >= 1
    ensures FreeUnits(B, F, size[p := size[p] + n], Retag(tag, b, b + n, Free(p)))
  {
    var size2, tag2 := size[p := size[p] + n], Retag(tag, b, b + n, Free(p));
    assert Covers(tag, p, p + size[p], Free(p));
    assert Covers(tag2, p, p + size2[p], Free(p));
    forall a | a in F && a != B && a in size2 ensures Covers(tag2, a, a + size2[a], Free(a)) {
      hide Covers;
      if a != p {
        Apart(tag, a, size[a], Free(a), b, n, Used(b));
        KeepCovers(tag, b, b + n, Free(p), a, a + size[a], Free(a));
      }
    }
  }

  lemma MergeTagged(B: int, F: set<int>, size: map<int, int>, alloc: map<int, int>, tag: map<int, Tag>, top: int,
      p: int, b: int)
    requires Tagged(B, F, size, alloc, tag, top) && b in alloc && p in F && p != B && p in size && p + size[p] == b
        && alloc[b] >= 1 && size[p] >= 1
    ensures Tagged(B, F, size[p := size[p] + alloc[b]], alloc - {b}, Retag(tag, b, b + alloc[b], Free(p)), top)
  {
  }

  lemma MergeLeftOk(B: int, h: Heap, p: int, b: int)
    requires Ok(B, h) && Fits(h, p, b) && b in h.alloc && b in h.size && p in h.size
    requires p + h.size[p] == b && (h.ptr[p] > p ==> b + h.size[b] < h.ptr[p])
    ensures Ok(B, MergeLeft(h, p, b))
  {
    hide Tagged, Covers, Succ;
    Neighbours(B, h, p, b);
    assert p != B;
    MergeFree(B, h.F, h.size, h.tag, p, b, h.size[b]);
    FreeUsed(h.alloc, h.tag, b, p);
    MergeTagged(B, h.F, h.size, h.alloc, h.tag, h.top, p, b);
  }

  // ----- malloc's two ways to take units, and morecore -----

  /** A block of exactly the right size leaves the list. */
  function TakeWhole(h: Heap, prev: int, p: int): Heap
    requires prev in h.ptr && p in h.ptr && p in h.size
  {
    h.(F := h.F - {p}, ptr := h.ptr[prev := h.ptr[p]], alloc := h.alloc[p := h.size[p]],
        tag := Retag(h.tag, p, p + h.size[p], Used(p)))
  }

  lemma TakeFree(B: int, F: set<int>, size: map<int, int>, tag: map<int, Tag>, p: int)
    requires NoTouch(B, F, size) && FreeUnits(B, F, size, tag) && p in F && p != B && p in size
    ensures FreeUnits(B, F - {p}, size, Retag(tag, p, p + size[p], Used(p)))
  {
    var tag2 := Retag(tag, p, p + size[p], Used(p));
    forall a | a in F - {p} && a != B && a in size ensures Covers(tag2, a, a + size[a], Free(a)) {
      hide Covers;
      Apart(tag, a, size[a], Free(a), p, size[p], Free(p));
      KeepCovers(tag, p, p + size[p], Used(p), a, a + size[a], Free(a));
    }
  }

  /** Units [b, b + n) of free block f become the new allocated block b. */
  lemma TakeUsed(alloc: map<int, int>, tag: map<int, Tag>, b: int, n: int, f: int)
    requires UsedUnits(alloc, tag) && (forall a :: a in alloc ==> alloc[a] >= 1) && b !in alloc
    requires Covers(tag, b, b + n, Free(f)) && n >= 1
    ensures UsedUnits(alloc[b := n], Retag(tag, b, b + n, Used(b)))
  {
    var alloc2, tag2 := alloc[b := n], Retag(tag, b, b + n, Used(b));
    assert Covers(tag2, b, b + n, Used(b));
    forall a | a in alloc2 ensures Covers(tag2, a, a + alloc2[a], Used(a)) {
      hide Covers;
      if a != b {
        Apart(tag, a, alloc[a], Used(a), b, n, Free(f));
        KeepCovers(tag, b, b + n, Used(b), a, a + alloc[a], Used(a));
      }
    }
  }

  lemma TakeTagged(B: int, F: set<int>, size: map<int, int>, alloc: map<int, int>, tag: map<int, Tag>, top: int, p: int)
    requires Tagged(B, F, size, alloc, tag, top) && p in F && p in size && p !in alloc
    ensures Tagged(B, F - {p}, size, alloc[p := size[p]], Retag(tag, p, p + size[p], Used(p)), top)
  {
  }

  lemma TakeWholeOk(B: int, h: Heap, prev: int, p: int)
    requires Ok(B, h) && prev in h.F && prev in h.ptr && h.ptr[prev] == p && p != B
    ensures p in h.F && p in h.ptr && p in h.size && prev < p && Ok(B, TakeWhole(h, prev, p))
  {
    hide Tagged, Covers, Succ;
    SuccOf(B, h.F, h.ptr, prev);
    Unlink(B, h.F, h.ptr, prev);
    TakeFree(B, h.F, h.size, h.tag, p);
    TakeUsed(h.alloc, h.tag, p, h.size[p], p);
    TakeTagged(B, h.F, h.size, h.alloc, h.tag, h.top, p);
  }

  /** The last n units of a larger block are cut off. */
  function Split(h: Heap, p: int, n: int): Heap
    requires p in h.size
  {
    var b := p + h.size[p] - n;
    h.(size := h.size[p := h.size[p] - n][b := n], alloc := h.alloc[b := n], tag := Retag(h.tag, b, b + n, Used(b)))
  }

  lemma SplitFree(B: int, F: set<int>, size: map<int, int>, tag: map<int, Tag>, p: int, n: int)
    requires NoTouch(B, F, size) && FreeUnits(B, F, size, tag) && p in F && p != B && p in size && 1 <= n < size[p]
    ensures var b := p + size[p] - n;
        b !in F && FreeUnits(B, F, size[p := size[p] - n][b := n], Retag(tag, b, b + n, Used(b)))
  {
    var b := p + size[p] - n;
    var size2, tag2 := size[p := size[p] - n][b := n], Retag(tag, b, b + n, Used(b));
    assert b !in F;
    assert Covers(tag, p, p + size[p], Free(p));
    assert Covers(tag, p, b, Free(p));
    forall a | a in F && a != B && a in size2 ensures Covers(tag2, a, a + size2[a], Free(a)) {
      hide Covers;
      if a == p {
        KeepCovers(tag, b, b + n, Used(b), p, b, Free(p));
      } else {
        Apart(tag, a, size[a], Free(a), p, size[p], Free(p));
        KeepCovers(tag, b, b + n, Used(b), a, a + size[a], Free(a));
      }
    }
  }

  lemma SplitTagged(B: int, F: set<int>, size: map<int, int>, alloc: map<int, int>, tag: map<int, Tag>, top: int,
      p: int, n: int)
    requires Tagged(B, F, size, alloc, tag, top) && p in F && p in size && 1 <= n < size[p]
    requires var b := p + size[p] - n; b !in alloc && b !in F
    ensures var b := p + size[p] - n;
            Tagged(B, F, size[p := size[p] - n][b := n], alloc[b := n], Retag(tag, b, b + n, Used(b)), top)
  {
  }

  /** No allocated block starts inside a free one. */
  lemma NotAllocated(B: int, h: Heap, p: int, b: int)
    requires Ok(B, h) && p in h.F && p in h.size && p != B && p <= b < p + h.size[p]
    ensures b !in h.alloc && forall hi :: hi <= p + h.size[p] ==> Covers(h.tag, b, hi, Free(p))
  {
    hide Tagged, Succ, ListOk;
    assert Covers(h.tag, p, p + h.size[p], Free(p));
    if b in h.alloc { Apart(h.tag, p, h.size[p], Free(p), b, h.alloc[b], Used(b)); }
  }

  lemma SplitOk(B: int, h: Heap, p: int, n: int)
    requires Ok(B, h) && p in h.F && p in h.size && p != B && 1 <= n < h.size[p]
    ensures Ok(B, Split(h, p, n)) && p + h.size[p] - n !in h.alloc
  {
    hide Tagged, Covers, Succ, ListOk;
    var b := p + h.size[p] - n;
    NotAllocated(B, h, p, b);
    SplitFree(B, h.F, h.size, h.tag, p, n);
    TakeUsed(h.alloc, h.tag, b, n, p);
    SplitTagged(B, h.F, h.size, h.alloc, h.tag, h.top, p, n);
  }

  /** sbrk gives nu units at c, above everything known; morecore treats them as an allocated block and frees it. */
  function AddCore(h: Heap, c: int, nu: int): Heap {
    h.(size := h.size[c := nu], alloc := h.alloc[c := nu], top := c + nu, tag := Extend(h.tag, c, c + nu, Used(c)))
  }

  predicate Between(lo: int, u: int, hi: int) { lo <= u < hi }

  function Extend(tag: map<int, Tag>, lo: int, hi: int, t: Tag): (r: map<int, Tag>)
    ensures forall u :: u in r <==> u in tag || lo <= u < hi
    ensures forall u :: u in r ==> r[u] == (if lo <= u < hi then t else tag[u])
  {
    tag + (map u | lo <= u < hi && Between(lo, u, hi) :: t)
  }

  lemma KeepExtend(tag: map<int, Tag>, lo: int, hi: int, t: Tag, a: int, b: int, s: Tag)
    requires Covers(tag, a, b, s) && b <= lo
    ensures Covers(Extend(tag, lo, hi, t), a, b, s)
  {
  }

  lemma NewExtend(tag: map<int, Tag>, lo: int, hi: int, t: Tag)
    ensures Covers(Extend(tag, lo, hi, t), lo, hi, t)
  {
  }

  lemma CoreUnits(B: int, F: set<int>, size: map<int, int>, alloc: map<int, int>, tag: map<int, Tag>, c: int, nu: int)
    requires FreeUnits(B, F, size, tag) && UsedUnits(alloc, tag) && c !in F && c !in alloc && nu >= 1
    requires forall a :: a in F ==> a in size && a + size[a] <= c
    requires forall a :: a in alloc ==> a + alloc[a] <= c
    ensures var tag2 := Extend(tag, c, c + nu, Used(c));
        FreeUnits(B, F, size[c := nu], tag2) && UsedUnits(alloc[c := nu], tag2)
  {
    hide Extend, Covers;
    var tag2 := Extend(tag, c, c + nu, Used(c));
    NewExtend(tag, c, c + nu, Used(c));
    forall a | a in F && a != B ensures Covers(tag2, a, a + size[a], Free(a)) {
      KeepExtend(tag, c, c + nu, Used(c), a, a + size[a], Free(a));
    }
    forall a | a in alloc ensures Covers(tag2, a, a + alloc[a], Used(a)) {
      KeepExtend(tag, c, c + nu, Used(c), a, a + alloc[a], Used(a));
    }
  }

  lemma CoreTagged(B: int, F: set<int>, size: map<int, int>, alloc: map<int, int>, tag: map<int, Tag>, top: int,
      c: int, nu: int)
    requires Tagged(B, F, size, alloc, tag, top) && c !in F && c !in alloc && B < top <= c && nu >= 1
    ensures Tagged(B, F, size[c := nu], alloc[c := nu], Extend(tag, c, c + nu, Used(c)), c + nu)
  {
  }

  lemma AddCoreOk(B: int, h: Heap, c: int, nu: int)
    requires Ok(B, h) && c >= h.top && nu >= 1
    ensures Ok(B, AddCore(h, c, nu)) && c !in h.alloc && c !in h.F
  {
    hide ListOk, Tagged, FreeUnits, UsedUnits;
    Below(B, h);
    CoreUnits(B, h.F, h.size, h.alloc, h.tag, c, nu);
    CoreTagged(B, h.F, h.size, h.alloc, h.tag, h.top, c, nu);
  }

  /** Every block lies below top. */
  lemma Below(B: int, h: Heap)
    requires Ok(B, h)
    ensures forall a :: a in h.F ==> a in h.size && a + h.size[a] <= h.top && a < h.top
    ensures forall a :: a in h.alloc ==> a < h.top && a + h.alloc[a] <= h.top
  {
    hide ListOk;
    forall a | a in h.F ensures a in h.size && a + h.size[a] <= h.top && a < h.top {
      if a != B {
        assert Covers(h.tag, a, a + h.size[a], Free(a));
        assert a + h.size[a] - 1 in h.tag && a in h.tag;
      }
    }
    forall a | a in h.alloc ensures a < h.top && a + h.alloc[a] <= h.top {
      assert Covers(h.tag, a, a + h.alloc[a], Used(a));
      assert a + h.alloc[a] - 1 in h.tag && a in h.tag;
    }
  }
}

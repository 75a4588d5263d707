/** malloc, free and morecore as written in user/umalloc.c, on header words in memory. */
module UmallocCode {
  import opened Umalloc

  /** Allocated units stay with their blocks, apart from block b. */
  ghost predicate Keeps(s: map<int, Tag>, t: map<int, Tag>, b: int) {
    && (forall u :: u in s && s[u].Used? && s[u].a != b ==> u in t && t[u] == s[u])
    && (forall u :: u in s && u in t && t[u].Used? ==> t[u] == s[u] && t[u].a != b)
  }

  /** What free does to the heap, once block p before b is found. */
  function Freed(h: Heap, p: int, b: int): Heap
    requires p in h.ptr && h.ptr[p] in h.ptr && h.ptr[p] in h.size && b in h.size && p in h.size
  {
    var g := if b + h.size[b] == h.ptr[p] then AbsorbRight(h, p, b) else h;
    if p + g.size[p] == b then MergeLeft(g, p, b) else Insert(g, p, b)
  }

  lemma FreedOk(B: int, h: Heap, p: int, b: int)
    requires Ok(B, h) && Fits(h, p, b) && b in h.alloc
    ensures h.ptr[p] in h.ptr && h.ptr[p] in h.size && b in h.size && p in h.size && b !in h.F && PtrIn2(h, p) && p < b
    ensures var g := Freed(h, p, b);
            && Ok(B, g) && g.alloc == h.alloc - {b} && g.top == h.top && g.tag.Keys == h.tag.Keys && p in g.F
            && Keeps(h.tag, g.tag, b)
            && b in g.tag && g.tag[b].Free? && g.tag[b].a in g.F && g.tag[b].a in g.size
                && g.size[g.tag[b].a] >= h.size[b]
  {
    hide ListOk, Succ, NoTouch, AllocOk, TagOk;
    Neighbours(B, h, p, b);
    PtrIn(B, h, p);
    var g := h;
    if b + h.size[b] == h.ptr[p] {
      AbsorbRightOk(B, h, p, b);
      g := AbsorbRight(h, p, b);
      AbsorbTags(B, h, p, b);
    } else {
      assert h.ptr[p] > p ==> b + h.size[b] < h.ptr[p];
    }
    if p + g.size[p] == b {
      MergeLeftOk(B, g, p, b);
      FreeTags(B, g, b, p);
    } else {
      InsertOk(B, g, p, b);
      FreeTags(B, g, b, b);
    }
  }

  lemma AbsorbTags(B: int, h: Heap, p: int, b: int)
    requires Ok(B, h) && Fits(h, p, b) && b in h.alloc && b in h.size && h.ptr[p] in h.F && h.ptr[p] in h.ptr
        && h.ptr[p] in h.size
    requires h.ptr[p] > p
    ensures var g := AbsorbRight(h, p, b);
            && (forall u :: u in h.tag && h.tag[u].Used? ==> g.tag[u] == h.tag[u])
            && (forall u :: u in h.tag && g.tag[u].Used? && g.tag[u].a != b ==> g.tag[u] == h.tag[u])
            && g.size[b] >= h.size[b] && b in g.alloc && g.tag.Keys == h.tag.Keys && g.alloc - {b} == h.alloc - {b}
  {
    hide ListOk, Succ, AllocOk, Tagged, UsedUnits;
    LeastB(B, h, p);
    assert Covers(h.tag, h.ptr[p], h.ptr[p] + h.size[h.ptr[p]], Free(h.ptr[p]));
  }

  lemma LeastB(B: int, h: Heap, p: int)
    requires Ok(B, h) && p in h.F
    ensures 0 < B <= p
  {
    hide Succ, NoTouch, AllocOk, TagOk;
  }

  /** The units of b go to free block f, everybody else's stay. */
  lemma FreeTags(B: int, g: Heap, b: int, f: int)
    requires Ok(B, g) && b in g.alloc && b in g.size
    ensures var tag2 := Retag(g.tag, b, b + g.size[b], Free(f));
            && (forall u :: u in g.tag && g.tag[u].Used? && g.tag[u].a != b ==> tag2[u] == g.tag[u])
            && (forall u :: u in g.tag && tag2[u].Used? ==> tag2[u] == g.tag[u] && tag2[u].a != b)
            && b in g.tag && tag2[b] == Free(f) && g.size[b] == g.alloc[b] >= 1
  {
    hide ListOk, Succ, NoTouch, FreeUnits;
    assert Covers(g.tag, b, b + g.alloc[b], Used(b));
    assert b in g.tag;
  }

  lemma PtrIn(B: int, h: Heap, p: int)
    requires Ok(B, h) && p in h.F
    ensures p in h.ptr && h.ptr[p] in h.F && h.ptr[p] in h.ptr && h.ptr[p] in h.size && p in h.size
  {
    hide Tagged, FreeUnits, UsedUnits;
    SuccOf(B, h.F, h.ptr, p);
  }

  /** The heap with p's link and b's link as the code leaves them after a merge. */
  lemma MergedLinks(B: int, h: Heap, b: int, x: int)
    requires Ok(B, h) && b !in h.F
    ensures Ok(B, h.(ptr := h.ptr[b := x]))
  {
    hide Succ, NoTouch, AllocOk, TagOk, ListOk;
    Junk(B, h.F, h.ptr, b, x);
  }

  /** Free search order: the successor of a block at or above b is higher, or it is B. */
  lemma SearchStep(B: int, h: Heap, p: int, b: int)
    requires Ok(B, h) && p in h.F && b in h.alloc
    ensures PtrIn2(h, p) && p != b && B < b && p < h.top
    ensures h.ptr[p] > p || h.ptr[p] == B
    ensures h.ptr[p] > p && p < b && !(b < h.ptr[p]) ==> h.ptr[p] < b
  {
    hide Succ, NoTouch;
    SuccOf(B, h.F, h.ptr, p);
    Below(B, h);
    assert Covers(h.tag, b, b + h.alloc[b], Used(b));
    assert b in h.tag;
  }

  predicate PtrIn2(h: Heap, p: int)
      { p in h.ptr && h.ptr[p] in h.F && h.ptr[p] in h.ptr && p in h.size && h.ptr[p] in h.size }

  class Allocator {
    const B: int                 // &base
    var freep: int               // 0: not initialised yet
    var ptr: map<int, int>
    var size: map<int, int>
    var top: int                 // the process break
    ghost var F: set<int>
    ghost var alloc: map<int, int>
    ghost var tag: map<int, Tag>

    ghost function H(): Heap
      reads this
    {
      Heap(F, ptr, size, alloc, tag, top)
    }

    ghost predicate Valid()
      reads this
    {
      && 0 < B < top
      && (if freep == 0 then F == {} && alloc == map[] && tag == map[] else Ok(B, H()) && freep in F)
    }

    constructor (base: int, brk: int)
      requires 0 < base < brk
      ensures Valid() && freep == 0 && B == base && top == brk
    {
      B, top, freep := base, brk, 0;
      ptr, size := map[], map[];
      F, alloc, tag := {}, map[], map[];
    }

    /** The block after which bp belongs, looking from freep on. */
    method Search(bp: int) returns (p: int)
      requires Valid() && freep != 0 && bp in alloc
      ensures Fits(H(), p, bp)
    {
      hide Ok;
      p := freep;
      SearchStep(B, H(), p, bp);
      while !(bp > p && bp < ptr[p])
        invariant p in F && PtrIn2(H(), p)
        decreases if p > bp then 1 else 0, top - p
      {
        SearchStep(B, H(), p, bp);
        if p >= ptr[p] && (bp > p || bp < ptr[p]) { break; }
        p := ptr[p];
        SearchStep(B, H(), p, bp);
      }
    }

    /** Returns block ap - 1 to the free list, merged with the blocks it touches. */
    method Free(ap: int)
      requires Valid() && freep != 0 && ap - 1 in alloc
      modifies this
      ensures Valid() && freep != 0 && top == old(top) && alloc == old(alloc) - {ap - 1} && tag.Keys == old(tag).Keys
      ensures Keeps(old(tag), tag, ap - 1)
      ensures ap - 1 in old(size) && ap - 1 in tag && tag[ap - 1].Free? && tag[ap - 1].a in F && tag[ap - 1].a in size
      ensures size[tag[ap - 1].a] >= old(size)[ap - 1] && Fits(old(H()), freep, ap - 1)
    {
      hide Ok, Keeps, Freed, Fits;
      ghost var h := H();
      var bp := ap - 1;
      var p := Search(bp);
      FreedOk(B, h, p, bp);
      FreedIs(B, h, p, bp);
      if bp + size[bp] == ptr[p] {
        size := size[bp := size[bp] + size[ptr[p]]];
        ptr := ptr[bp := ptr[ptr[p]]];
      } else {
        ptr := ptr[bp := ptr[p]];
      }
      if p + size[p] == bp {
        size := size[p := size[p] + size[bp]];
        ptr := ptr[p := ptr[bp]];
      } else {
        ptr := ptr[p := bp];
      }
      ghost var g := Freed(h, p, bp);
      F, alloc, tag := g.F, g.alloc, g.tag;
      FreedMem(B, h, p, bp, size, ptr);
      freep := p;
    }

    /** Asks sbrk for at least nu units; `grant` and `gap` are the kernel's answer and what others took before. */
    method Morecore(nu: int, grant: bool, gap: nat) returns (p: int)
      requires Valid() && freep != 0 && 1 <= nu && nu * UNIT < 0x8000_0000
      modifies this
      ensures Valid() && freep != 0 && alloc == old(alloc)
      ensures p == 0 <==> !grant
      ensures !grant ==> H() == old(H()) && freep == old(freep)
      ensures grant ==> p == freep && top == old(top) + gap + AtLeast(nu) && Preserved(old(tag), tag)
      ensures grant ==> forall u :: u in tag <==> u in old(tag) || old(top) + gap <= u < top
      ensures grant ==> forall u :: old(top) + gap <= u < top ==> tag[u].Free?
      ensures grant ==> exists x :: x in F && x in size && size[x] >= nu
    {
      hide Ok, Keeps;
      var n := if nu < MINCORE then MINCORE else nu;
      assert ToInt(n * UNIT) == n * UNIT;
      if !grant { return 0; }
      ghost var h := H();
      var hp := top + gap;
      top := hp + n;
      size := size[hp := n];
      ghost var g := AddCore(h, hp, n);
      AddCoreOk(B, h, hp, n);
      alloc, tag := g.alloc, g.tag;
      assert H() == g;
      Free(hp + 1);
      CoreFreed(B, h, g, H(), hp, n);
      return freep;
    }

    /** Takes nunits units off free block p, the successor of prevp. */
    method TakeUnits(prevp: int, p: int, nunits: int) returns (r: int)
      requires Ok(B, H()) && prevp in F && prevp != 0 && PtrIn2(H(), prevp) && p == ptr[prevp] && PtrIn2(H(), p)
          && 1 <= nunits <= size[p]
      modifies this
      ensures Valid() && freep == prevp && top == old(top) && r > 0 && r - 1 == p + old(size)[p] - nunits
      ensures r - 1 !in old(alloc) && alloc == old(alloc)[r - 1 := nunits]
      ensures tag == Retag(old(tag), r - 1, r - 1 + nunits, Used(r - 1))
      ensures Covers(old(tag), r - 1, r - 1 + nunits, Tag.Free(p)) && Covers(tag, r - 1, r - 1 + nunits, Used(r - 1))
    {
      hide Ok, Covers;
      ghost var s := H();
      BaseSmall(B, s, p, nunits);
      LeastB(B, s, p);
      var q := p;
      if size[q] == nunits {
        TakeWholeOk(B, s, prevp, p);
        TakenTags(B, s, p, p, nunits);
        TakeWholePrev(B, s, prevp, p);
        ptr := ptr[prevp := ptr[q]];
        F, alloc, tag := F - {p}, alloc[p := nunits], Retag(tag, p, p + nunits, Used(p));
        assert H() == TakeWhole(s, prevp, p);
      } else {
        SplitOk(B, s, p, nunits);
        TakenTags(B, s, p, p + size[p] - nunits, nunits);
        size := size[q := size[q] - nunits];
        q := q + size[q];
        size := size[q := nunits];
        alloc, tag := alloc[q := nunits], Retag(tag, q, q + nunits, Used(q));
        assert H() == Split(s, p, nunits);
      }
      TopAbove(B, H());
      freep := prevp;
      return q + 1;
    }

    /**
      A block of at least nbytes bytes after its header, 0 if sbrk refuses; `cores` counts the calls of morecore.
      Without one, it is the end of p, the first block after freep that is large enough.
     */
    method Malloc(nbytes: int, grant: bool, gap: nat) returns (r: int, ghost cores: int, ghost p: int)
      requires Valid() && 0 <= nbytes <= 0x8000_0000 - 32
      modifies this
      ensures Valid() && freep != 0 && 0 <= cores <= 1
      ensures cores == 1 ==> forall x :: x in old(F) ==> x in old(size) && old(size)[x] < Units(nbytes)
      ensures r == 0 ==> !grant && cores == 1 && alloc == old(alloc) && tag == old(tag) && top == old(top)
      ensures r != 0 ==>
          r - 1 !in old(alloc) && alloc == old(alloc)[r - 1 := Units(nbytes)] && (Units(nbytes) - 1) * UNIT >= nbytes
      ensures r != 0 ==> Kept(old(tag), tag, r - 1) && Covers(tag, r - 1, r - 1 + Units(nbytes), Used(r - 1))
      ensures r != 0 && cores == 0 ==>
          && p in old(F) && p in old(size) && old(size)[p] >= Units(nbytes) && r - 1 == p + old(size)[p] - Units(nbytes)
          && SeenSmall(old(H()), old(freep), p, Units(nbytes)) && freep in old(ptr) && old(ptr)[freep] == p
      ensures r != 0 ==> top == (if cores == 1 then old(top) + gap + AtLeast(Units(nbytes)) else old(top))
      ensures r != 0 ==> forall u :: u in tag <==> u in old(tag) || (cores == 1 && old(top) + gap <= u < top)
    {
      hide Ok, Preserved, Kept, Covers, SeenSmall, AllSmall, Seen;
      var nunits := Units(nbytes);
      var prevp := freep;
      cores := 0;
      if prevp == 0 {
        freep, prevp := B, B;
        ptr := ptr[B := B];
        size := size[B := 0];
        F := {B};
        StartOk(B, H());
      }
      ghost var h, f0, big := H(), freep, 0;
      NextIn(B, H(), prevp, freep, nunits);
      var q := ptr[prevp];
      p := q;
      while true
        invariant Ok(B, H()) && freep in F && freep != 0 && prevp in F && prevp > 0 && PtrIn2(H(), prevp)
            && q == ptr[prevp] && 0 <= cores <= 1
        invariant SeenSmall(H(), freep, q, nunits) && alloc == h.alloc
        invariant cores == 0 ==> H() == h && freep == f0
        invariant cores == 1 ==> big in F && big in size && size[big] >= nunits && grant && AllSmall(h, nunits)
        invariant cores == 1 ==> top == h.top + gap + AtLeast(nunits) && Preserved(h.tag, tag)
        invariant cores == 1 ==> forall u :: u in tag <==> u in h.tag || h.top + gap <= u < top
        invariant cores == 1 ==> forall u :: h.top + gap <= u < top ==> u in tag && tag[u].Free?
        decreases 1 - cores, if q > freep then 1 else 0, top - q
      {
        NextIn(B, H(), q, freep, nunits);
        if size[q] >= nunits {
          ghost var m := tag;
          p := q;
          r := TakeUnits(prevp, q, nunits);
          KeptAll(h.tag, m, tag, r - 1, r - 1 + nunits);
          if cores == 1 { SmallIs(h, nunits); }
          return r, cores, p;
        }
        if q == freep {
          NoneFits(H(), freep, nunits);
          assert cores == 0;
          cores := 1;
          q := Morecore(nunits, grant, gap);
          if q == 0 {
            SmallIs(h, nunits);
            return 0, cores, p;
          }
          big :| big in F && big in size && size[big] >= nunits;
          NextIn(B, H(), q, freep, nunits);
        }
        prevp := q;
        q := ptr[q];
      }
    }
  }

  /** Header units for nbytes bytes. */
  function Units(nbytes: int): int { (nbytes + UNIT - 1) / UNIT + 1 }

  function AtLeast(nu: int): int { if nu < MINCORE then MINCORE else nu }

  /** A 64-bit value passed as a C int. */
  function ToInt(x: int): int {
    var y := x % 0x1_0000_0000;
    if y >= 0x8000_0000 then y - 0x1_0000_0000 else y
  }

  /** morecore asks sbrk for the bytes it means exactly for requests of at most 2^31 - 32 bytes. */
  lemma SbrkExactIff(nbytes: int)
    requires 0 <= nbytes < 0x1_0000_0000
    ensures ToInt(AtLeast(Units(nbytes)) * UNIT) == AtLeast(Units(nbytes)) * UNIT <==> nbytes <= 0x8000_0000 - 32
  {
  }

  /** One byte more, and the argument is the most negative int: a request to shrink. */
  lemma SbrkWraps()
    ensures ToInt(AtLeast(Units(0x8000_0000 - 31)) * UNIT) == -0x8000_0000
  {
  }

  // ----- malloc's search -----

  /** x comes strictly between f and p on the way around from f. */
  predicate Seen(f: int, x: int, p: int) { if f < p then f < x < p else x > f || x < p }

  ghost predicate SeenSmall(h: Heap, f: int, p: int, n: int) {
    forall x :: x in h.F && Seen(f, x, p) ==> x in h.size && h.size[x] < n
  }

  ghost predicate AllSmall(h: Heap, n: int) { forall x :: x in h.F ==> x in h.size && h.size[x] < n }

  /** Between p and its successor there is nothing more to see. */
  lemma SeenStep(B: int, F: set<int>, f: int, p: int, q: int, x: int)
    requires Succ(B, F, p, q) && x in F && f in F && p in F && B <= x
    ensures p != f && Seen(f, x, q) ==> x == p || Seen(f, x, p)
    ensures p == f ==> !Seen(f, x, q)
  {
  }

  /** Going on from a block that is too small, unless the circle is complete. */
  lemma NextIn(B: int, h: Heap, p: int, f: int, n: int)
    requires Ok(B, h) && p in h.F && f in h.F
    ensures PtrIn2(h, p) && p < h.top && p > 0
    ensures p == f ==> SeenSmall(h, f, h.ptr[p], n)
    ensures p != f && h.size[p] < n && SeenSmall(h, f, p, n) ==> SeenSmall(h, f, h.ptr[p], n)
    ensures h.ptr[p] > p || h.ptr[p] == B
    ensures p < f ==> p < h.ptr[p] <= f
    ensures 0 < B <= f
  {
    hide TagOk, AllocOk, NoTouch, Succ, Seen;
    PtrIn(B, h, p);
    SuccOf(B, h.F, h.ptr, p);
    Below(B, h);
    forall x | x in h.F
      ensures p != f && Seen(f, x, h.ptr[p]) ==> x == p || Seen(f, x, p)
      ensures p == f ==> !Seen(f, x, h.ptr[p])
    {
      SeenStep(B, h.F, f, p, h.ptr[p], x);
    }
    if p < f { NextBelow(B, h, p, f); }
  }

  lemma NextBelow(B: int, h: Heap, p: int, f: int)
    requires Ok(B, h) && p in h.F && f in h.F && p < f
    ensures p < h.ptr[p] <= f
  {
    hide TagOk, AllocOk, NoTouch;
    assert Succ(B, h.F, p, h.ptr[p]);
  }

  lemma NoneFits(h: Heap, f: int, n: int)
    requires SeenSmall(h, f, f, n) && f in h.size && h.size[f] < n
    ensures AllSmall(h, n)
  {
  }

  lemma SmallIs(h: Heap, n: int)
    requires AllSmall(h, n)
    ensures forall x :: x in h.F ==> x in h.size && h.size[x] < n
  {
  }

  lemma BaseSmall(B: int, h: Heap, p: int, n: int)
    requires Ok(B, h) && p in h.F && p in h.size && h.size[p] >= n >= 1
    ensures p != B
  {
    hide ListOk, TagOk, AllocOk;
  }

  lemma TopAbove(B: int, h: Heap)
    requires Ok(B, h)
    ensures 0 < B < h.top
  {
    hide ListOk, TagOk, AllocOk, NoTouch;
  }

  lemma TakeWholePrev(B: int, h: Heap, prev: int, p: int)
    requires Ok(B, h) && prev in h.F && prev in h.ptr && h.ptr[prev] == p && p != B
    ensures prev != p
  {
    hide TagOk, AllocOk, NoTouch;
    SuccOf(B, h.F, h.ptr, prev);
  }

  lemma StartOk(B: int, h: Heap)
    requires h.F == {B} && B in h.ptr && h.ptr[B] == B && B in h.size && h.size[B] == 0 && h.alloc == map[]
        && h.tag == map[] && 0 < B < h.top
    ensures Ok(B, h)
  {
  }

  // ----- who keeps what -----

  /** The same units are allocated, to the same blocks. */
  ghost predicate Preserved(s: map<int, Tag>, t: map<int, Tag>) {
    && (forall u :: u in s && s[u].Used? ==> u in t && t[u] == s[u])
    && (forall u :: u in t && t[u].Used? ==> u in s && t[u] == s[u])
  }

  /** Allocated units stay with their blocks; only block b is new. */
  ghost predicate Kept(s: map<int, Tag>, t: map<int, Tag>, b: int) {
    && (forall u :: u in s && s[u].Used? ==> u in t && t[u] == s[u])
    && (forall u :: u in t && t[u].Used? && t[u].a != b ==> u in s && t[u] == s[u])
  }

  lemma TakenTags(B: int, h: Heap, p: int, b: int, n: int)
    requires Ok(B, h) && p in h.F && p in h.size && p != B && p <= b && b + n == p + h.size[p] && n >= 1
    ensures b !in h.alloc && Covers(h.tag, b, b + n, Free(p))
        && Covers(Retag(h.tag, b, b + n, Used(b)), b, b + n, Used(b))
  {
    hide Ok, Covers;
    NotAllocated(B, h, p, b);
    RetagCovers(h.tag, b, b + n, Free(p), Used(b));
  }

  lemma RetagCovers(tag: map<int, Tag>, lo: int, hi: int, s: Tag, t: Tag)
    requires Covers(tag, lo, hi, s)
    ensures Covers(Retag(tag, lo, hi, t), lo, hi, t)
  {
  }

  lemma KeptAll(s: map<int, Tag>, m: map<int, Tag>, t: map<int, Tag>, b: int, hi: int)
    requires s == m || Preserved(s, m)
    requires t == Retag(m, b, hi, Used(b)) && exists p :: Covers(m, b, hi, Free(p))
    ensures Kept(s, t, b)
  {
  }

  /** morecore's block added and freed again: the old units are as they were, the new ones free. */
  lemma CoreFreed(B: int, h: Heap, g: Heap, k: Heap, c: int, n: int)
    requires Ok(B, h) && c >= h.top && n >= 1 && g == AddCore(h, c, n) && Keeps(g.tag, k.tag, c)
        && k.tag.Keys == g.tag.Keys
    requires k.alloc == g.alloc - {c} && c !in h.alloc
    ensures k.alloc == h.alloc && Preserved(h.tag, k.tag)
    ensures forall u :: u in k.tag <==> u in h.tag || c <= u < c + n
    ensures forall u :: c <= u < c + n ==> u in k.tag && k.tag[u].Free?
  {
    hide ListOk, NoTouch, AllocOk, FreeUnits, UsedUnits;
    assert forall u :: u in k.tag <==> u in g.tag;
  }

  /** The header words free writes are those of the freed heap, but for the link of a block that is no more. */
  lemma FreedMem(B: int, h: Heap, p: int, b: int, size: map<int, int>, ptr: map<int, int>)
    requires Ok(B, h) && Fits(h, p, b) && b in h.alloc && PtrIn2(h, p) && b in h.size && b !in h.F
        && Ok(B, Freed(h, p, b))
    requires var q := h.ptr[p];
             var right, left := b + h.size[b] == q, p + h.size[p] == b;
             var n, x := if right then h.size[b] + h.size[q] else h.size[b], if right then h.ptr[q] else q;
             && size == (if right then (if left then h.size[b := n][p := h.size[p] + n] else h.size[b := n])
                         else (if left then h.size[p := h.size[p] + n] else h.size))
             && ptr == h.ptr[b := x][p := if left then x else b]
    ensures size == Freed(h, p, b).size && Ok(B, Freed(h, p, b).(ptr := ptr))
  {
    hide Ok, Freed, Fits;
    FreedIs(B, h, p, b);
    var g, q := Freed(h, p, b), h.ptr[p];
    if p + h.size[p] == b {
      var x := if b + h.size[b] == q then h.ptr[q] else q;
      MergedLinks(B, g, b, x);
      assert ptr == g.ptr[b := x];
    }
  }

  /** Freed, field by field. */
  lemma FreedIs(B: int, h: Heap, p: int, b: int)
    requires Ok(B, h) && Fits(h, p, b) && b in h.alloc && PtrIn2(h, p) && b in h.size && b !in h.F
    ensures var g, q := Freed(h, p, b), h.ptr[p];
            var right, left := b + h.size[b] == q, p + h.size[p] == b;
            var n, x := if right then h.size[b] + h.size[q] else h.size[b], if right then h.ptr[q] else q;
            && g.size == (if right then (if left then h.size[b := n][p := h.size[p] + n] else h.size[b := n])
                          else (if left then h.size[p := h.size[p] + n] else h.size))
            && g.ptr == (if left then h.ptr[p := x] else h.ptr[b := x][p := b])
            && (left ==> b !in g.F) && g.top == h.top && p > 0
  {
    hide Ok;
    LeastB(B, h, p);
    var q := h.ptr[p];
    assert h.ptr[p := q] == h.ptr;
    assert h.ptr[p := h.ptr[q]][b := h.ptr[q]][p := b] == h.ptr[b := h.ptr[q]][p := b];
  }
}

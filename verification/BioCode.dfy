/** kernel/bio.c as written: scans along the ring, reference counts, and the disk behind. */
module BioCode {
  import opened Bio

  /** No block is in two buffers. */
  ghost predicate Unique(key: seq<Key>) { forall a, b :: 0 <= a < b < |key| && key[a] == key[b] ==> key[a].dev == 0 }

  predicate Cached(key: seq<Key>, k: Key) { exists b :: 0 <= b < |key| && key[b] == k }

  /** Valid buffers hold their block's current content; the disk holds that of all other blocks. */
  ghost predicate Refines(key: seq<Key>, valid: seq<bool>, data: seq<seq<int>>, disk: map<Key, seq<int>>,
      view: map<Key, seq<int>>)
    requires |key| == |valid| == |data|
  {
    && (forall k :: k in view <==> k in disk)
    && (forall b :: 0 <= b < |key| && key[b].dev != 0 ==> key[b] in disk && (valid[b] ==> data[b] == view[key[b]]))
    && (forall b :: 0 <= b < |key| && valid[b] ==> key[b].dev != 0)
    && (forall k :: k in disk && (forall b :: 0 <= b < |key| && key[b] == k ==> !valid[b]) ==> disk[k] == view[k])
  }

  /** A buffer nobody holds or pins has nothing the disk lacks. */
  ghost predicate Clean(key: seq<Key>, valid: seq<bool>, data: seq<seq<int>>, refcnt: seq<int>, disk: map<Key,
      seq<int>>)
    requires |key| == |valid| == |data| == |refcnt|
  {
    forall b :: 0 <= b < |key| && refcnt[b] == 0 && valid[b] && key[b].dev != 0 ==>
        key[b] in disk && disk[key[b]] == data[b]
  }

  /** Reusing an unused buffer for a block that is not cached. */
  lemma Recycle(key: seq<Key>, valid: seq<bool>, data: seq<seq<int>>, refcnt: seq<int>, disk: map<Key, seq<int>>,
      view: map<Key, seq<int>>,
                b: int, k: Key)
    requires |key| == |valid| == |data| == |refcnt| && 0 <= b < |key| && refcnt[b] == 0 && k.dev != 0 && k in disk
        && !Cached(key, k)
    requires Unique(key) && Refines(key, valid, data, disk, view) && Clean(key, valid, data, refcnt, disk)
    ensures Unique(key[b := k]) && Refines(key[b := k], valid[b := false], data, disk, view)
    ensures Clean(key[b := k], valid[b := false], data, refcnt[b := 1], disk)
  {
    var key2, valid2 := key[b := k], valid[b := false];
    forall j | j in disk && (forall c :: 0 <= c < |key2| && key2[c] == j ==> !valid2[c]) ensures disk[j] == view[j] {
      if key[b] == j && valid[b] {
        assert disk[j] == data[b];
        assert data[b] == view[j];
      } else {
        forall c | 0 <= c < |key| && key[c] == j ensures !valid[c] { assert c != b ==> key2[c] == j; }
      }
    }
  }

  /** A buffer that is not valid is filled from the disk. */
  lemma Fill(key: seq<Key>, valid: seq<bool>, data: seq<seq<int>>, disk: map<Key, seq<int>>, view: map<Key, seq<int>>,
      b: int)
    requires |key| == |valid| == |data| && 0 <= b < |key| && key[b].dev != 0 && !valid[b]
    requires Unique(key) && Refines(key, valid, data, disk, view)
    ensures key[b] in disk && Refines(key, valid[b := true], data[b := disk[key[b]]], disk, view)
        && disk[key[b]] == view[key[b]]
  {
    var k := key[b];
    forall c | 0 <= c < |key| && key[c] == k ensures !valid[c] { assert c == b; }
    var valid2 := valid[b := true];
    forall j | j in disk && (forall c :: 0 <= c < |key| && key[c] == j ==> !valid2[c]) ensures disk[j] == view[j] {
      assert j != k;
      forall c | 0 <= c < |key| && key[c] == j ensures !valid[c] { assert !valid2[c]; }
    }
  }

  class Bcache {
    const n: int
    var next: seq<int>
    var prev: seq<int>
    var key: seq<Key>
    var refcnt: seq<int>
    var valid: seq<bool>
    var data: seq<seq<int>>
    var disk: map<Key, seq<int>>
    ghost var ring: seq<int>                  // most recently used first
    ghost var view: map<Key, seq<int>>        // what every block holds

    ghost predicate Valid()
      reads this
    {
      && n > 0 && |key| == |refcnt| == |valid| == |data| == n
      && Permutation(n, ring) && Linked(n, ring, next, prev)
      && (forall b :: 0 <= b < n ==> refcnt[b] >= 0)
      && Unique(key) && Refines(key, valid, data, disk, view) && Clean(key, valid, data, refcnt, disk)
    }

    /** binit: every buffer pushed on the ring in turn. */
    constructor (nbuf: int, d: map<Key, seq<int>>)
      requires nbuf > 0
      ensures Valid() && n == nbuf && disk == d && view == d && forall b :: 0 <= b < n ==>
          refcnt[b] == 0 && key[b] == Key(0, 0)
    {
      n := nbuf;
      next, prev := seq(nbuf + 1, _ => nbuf), seq(nbuf + 1, _ => nbuf);
      key, refcnt, valid, data := seq(nbuf, _ => Key(0, 0)), seq(nbuf, _ => 0), seq(nbuf, _ => false),
          seq(nbuf, _ => []);
      disk, view, ring := d, d, [];
      new;
      for b := 0 to nbuf
        invariant |key| == |refcnt| == |valid| == |data| == n == nbuf && disk == d && view == d
        invariant forall c :: 0 <= c < n ==> refcnt[c] == 0 && key[c] == Key(0, 0) && !valid[c]
        invariant |ring| == b && Distinct(n, ring) && Linked(n, ring, next, prev) && forall i :: 0 <= i < b ==>
            ring[i] < b
      {
        PushRing(n, ring, next, prev, b);
        next := next[b := next[n]];
        prev := prev[b := n];
        prev := prev[next[n] := b];
        next := next[n := b];
        ring := [b] + ring;
      }
    }

    /** The buffer for block k, one more reference to it; -1 (a panic) if k is not cached and every buffer is in use. */
    method Bget(k: Key) returns (b: int)
      requires Valid() && k.dev != 0 && k in disk
      modifies this
      ensures Valid() && disk == old(disk) && view == old(view) && ring == old(ring) && data == old(data)
      ensures b == -1 <==> !Cached(old(key), k) && forall c :: 0 <= c < n ==> old(refcnt)[c] > 0
      ensures b == -1 ==> key == old(key) && refcnt == old(refcnt) && valid == old(valid)
      ensures b != -1 ==> 0 <= b < n && key == old(key)[b := k] && refcnt == old(refcnt)[b := old(refcnt)[b] + 1]
      ensures b != -1 && Cached(old(key), k) ==> old(key)[b] == k && valid == old(valid)
      ensures b != -1 && !Cached(old(key), k) ==>
          old(refcnt)[b] == 0 && valid == old(valid)[b := false] && LastUnused(ring, old(refcnt), b)
    {
      hide Refines, Clean, Unique, Permutation;
      RingFacts(n, ring);
      b := next[n];
      assert Hop(n, ring, next, prev, -1);
      ghost var i := 0;
      while b != n
        invariant 0 <= i <= n && b == At(n, ring, i) && forall j :: 0 <= j < i ==> key[ring[j]] != k
        decreases n - i
      {
        assert Hop(n, ring, next, prev, i);
        if key[b] == k {
          refcnt := refcnt[b := refcnt[b] + 1];
          MoreRefs(key, valid, data, old(refcnt), refcnt, disk);
          assert key[b := k] == key;
          return;
        }
        b := next[b];
        i := i + 1;
      }
      NotCached(n, ring, key, k);
      b := prev[n];
      assert Hop(n, ring, next, prev, n - 1);
      i := n - 1;
      while b != n
        invariant -1 <= i < n && b == At(n, ring, i) && forall j :: i < j < n ==> refcnt[ring[j]] > 0
        decreases i + 1
      {
        assert Hop(n, ring, next, prev, i - 1);
        if refcnt[b] == 0 {
          Recycle(key, valid, data, refcnt, disk, view, b, k);
          key, valid, refcnt := key[b := k], valid[b := false], refcnt[b := 1];
          return;
        }
        b := prev[b];
        i := i - 1;
      }
      AllUsed(n, ring, refcnt);
      return -1;
    }

    /** The buffer for block k, holding what the block map holds. */
    method Bread(k: Key) returns (b: int)
      requires Valid() && k.dev != 0 && k in disk
      modifies this
      ensures Valid() && disk == old(disk) && view == old(view) && ring == old(ring)
      ensures b == -1 <==> !Cached(old(key), k) && forall c :: 0 <= c < n ==> old(refcnt)[c] > 0
      ensures b != -1 ==> 0 <= b < n && key == old(key)[b := k] && refcnt == old(refcnt)[b := old(refcnt)[b] + 1]
      ensures b != -1 ==> valid[b] && data[b] == view[k]
      ensures b != -1 ==> forall c :: 0 <= c < n && c != b ==> valid[c] == old(valid)[c] && data[c] == old(data)[c]
    {
      hide Clean, Unique, Permutation, Linked, Refines;
      b := Bget(k);
      if b == -1 { return; }
      ValidData(key, valid, data, disk, view, b);
      if !valid[b] {
        Fill(key, valid, data, disk, view, b);
        KeepClean(key, valid, data, refcnt, disk, b, valid[b := true], data[b := disk[key[b]]]);
        data := data[b := disk[key[b]]];
        valid := valid[b := true];
      }
    }

    /** A holder of the buffer changes its content: from now on the block holds d. */
    method Modify(b: int, d: seq<int>)
      requires Valid() && 0 <= b < n && valid[b] && refcnt[b] > 0
      modifies this
      ensures Valid() && view == old(view)[key[b] := d] && data == old(data)[b := d]
      ensures key == old(key) && refcnt == old(refcnt) && valid == old(valid) && disk == old(disk) && ring == old(ring)
    {
      hide Permutation, Linked;
      Changed(key, valid, data, disk, view, b, d);
      KeepClean(key, valid, data, refcnt, disk, b, valid, data[b := d]);
      data, view := data[b := d], view[key[b] := d];
    }

    method Bwrite(b: int)
      requires Valid() && 0 <= b < n && valid[b] && refcnt[b] > 0
      modifies this
      ensures Valid() && disk == old(disk)[key[b] := data[b]] && view == old(view)
      ensures key == old(key) && refcnt == old(refcnt) && valid == old(valid) && data == old(data) && ring == old(ring)
    {
      hide Permutation, Linked;
      Written(key, valid, data, refcnt, disk, view, b);
      disk := disk[key[b] := data[b]];
    }

    /** Drops a reference; at the last one the buffer becomes the most recently used. */
    method Brelse(b: int)
      requires Valid() && 0 <= b < n && refcnt[b] > 0
      requires refcnt[b] == 1 && valid[b] ==> key[b] in disk && disk[key[b]] == data[b]
      modifies this
      ensures Valid() && refcnt == old(refcnt)[b := old(refcnt)[b] - 1]
      ensures key == old(key) && valid == old(valid) && data == old(data) && disk == old(disk) && view == old(view)
      ensures if refcnt[b] > 0 then ring == old(ring)
              else exists k :: 0 <= k < n && old(ring)[k] == b && ring == ToFront(old(ring), k)
    {
      hide Permutation, Linked, Unique, Refines;
      refcnt := refcnt[b := refcnt[b] - 1];
      FewerRefs(key, valid, data, old(refcnt), refcnt, disk, b);
      if refcnt[b] == 0 {
        ghost var k := Find(n, ring, b);
        MoveRing(n, ring, next, prev, k);
        prev := prev[next[b] := prev[b]];
        next := next[prev[b] := next[b]];
        next := next[b := next[n]];
        prev := prev[b := n];
        prev := prev[next[n] := b];
        next := next[n := b];
        ring := ToFront(ring, k);
      }
    }

    method Bpin(b: int)
      requires Valid() && 0 <= b < n
      modifies this
      ensures Valid() && refcnt == old(refcnt)[b := old(refcnt)[b] + 1]
      ensures key == old(key) && valid == old(valid) && data == old(data) && disk == old(disk) && view == old(view)
          && ring == old(ring)
    {
      hide Permutation, Linked, Unique, Refines;
      refcnt := refcnt[b := refcnt[b] + 1];
    }

    method Bunpin(b: int)
      requires Valid() && 0 <= b < n && refcnt[b] > 0
      requires refcnt[b] == 1 && valid[b] ==> key[b] in disk && disk[key[b]] == data[b]
      modifies this
      ensures Valid() && refcnt == old(refcnt)[b := old(refcnt)[b] - 1]
      ensures key == old(key) && valid == old(valid) && data == old(data) && disk == old(disk) && view == old(view)
          && ring == old(ring)
    {
      hide Permutation, Linked, Unique, Refines;
      refcnt := refcnt[b := refcnt[b] - 1];
    }
  }

  /** b is the unused buffer used longest ago. */
  ghost predicate LastUnused(ring: seq<int>, refcnt: seq<int>, b: int) {
    exists i :: 0 <= i < |ring| && ring[i] == b && forall j :: i < j < |ring| ==>
        0 <= ring[j] < |refcnt| && refcnt[ring[j]] > 0
  }

  lemma RingFacts(n: int, ring: seq<int>)
    requires Permutation(n, ring)
    ensures |ring| == n && forall i :: 0 <= i < n ==> 0 <= ring[i] < n
  {
  }

  /** Every buffer is on the ring. */
  lemma {:induction false} OnRing(n: int, ring: seq<int>, b: int)
    requires Permutation(n, ring) && 0 <= b < n
    ensures b in ring
  {
    if b !in ring {
      var all := Below(n);
      Card(n);
      SeqCard(ring);
      var s := set x | x in ring;
      assert s <= all - {b};
      SubsetCard(s, all - {b});
    }
  }

  predicate InRange(i: int, n: int) { 0 <= i < n }

  function Below(n: int): set<int> { set i | 0 <= i < n && InRange(i, n) }

  lemma {:induction false} Card(n: int)
    requires n >= 0
    ensures |Below(n)| == n
  {
    if n > 0 {
      Card(n - 1);
      assert Below(n) == Below(n - 1) + {n - 1};
    }
  }

  lemma {:induction false} SeqCard(s: seq<int>)
    requires forall i, j :: 0 <= i < j < |s| ==> s[i] != s[j]
    ensures |set x | x in s| == |s|
  {
    if s != [] {
      var t := s[..|s| - 1];
      SeqCard(t);
      assert (set x | x in s) == (set x | x in t) + {s[|s| - 1]};
    }
  }

  lemma SubsetCard(a: set<int>, b: set<int>)
    requires a <= b
    ensures |a| <= |b|
  {
    assert b == a + (b - a);
  }

  ghost function Find(n: int, ring: seq<int>, b: int): (k: int)
    requires Permutation(n, ring) && 0 <= b < n
    ensures 0 <= k < n && ring[k] == b
  {
    OnRing(n, ring, b);
    var k :| 0 <= k < |ring| && ring[k] == b;
    k
  }

  lemma NotCached(n: int, ring: seq<int>, key: seq<Key>, k: Key)
    requires Permutation(n, ring) && |key| == n && forall j :: 0 <= j < n ==> 0 <= ring[j] < n && key[ring[j]] != k
    ensures !Cached(key, k)
  {
    forall b | 0 <= b < n ensures key[b] != k {
      var j := Find(n, ring, b);
      assert key[ring[j]] != k;
    }
  }

  lemma AllUsed(n: int, ring: seq<int>, refcnt: seq<int>)
    requires Permutation(n, ring) && |refcnt| == n && forall j :: 0 <= j < n ==> 0 <= ring[j] < n && refcnt[ring[j]] > 0
    ensures forall b :: 0 <= b < n ==> refcnt[b] > 0
  {
    forall b | 0 <= b < n ensures refcnt[b] > 0 {
      var j := Find(n, ring, b);
      assert refcnt[ring[j]] > 0;
    }
  }

  lemma MoreRefs(key: seq<Key>, valid: seq<bool>, data: seq<seq<int>>, refcnt: seq<int>, refcnt': seq<int>,
      disk: map<Key, seq<int>>)
    requires |key| == |valid| == |data| == |refcnt| == |refcnt'| && Clean(key, valid, data, refcnt, disk)
    requires forall b :: 0 <= b < |refcnt| ==> refcnt'[b] >= refcnt[b] >= 0
    ensures Clean(key, valid, data, refcnt', disk)
  {
  }

  lemma FewerRefs(key: seq<Key>, valid: seq<bool>, data: seq<seq<int>>, refcnt: seq<int>, refcnt': seq<int>,
      disk: map<Key, seq<int>>, b: int)
    requires |key| == |valid| == |data| == |refcnt| == |refcnt'| && Clean(key, valid, data, refcnt, disk)
        && 0 <= b < |key|
    requires refcnt' == refcnt[b := refcnt[b] - 1]
        && (refcnt[b] == 1 && valid[b] ==> key[b] in disk && disk[key[b]] == data[b])
    ensures Clean(key, valid, data, refcnt', disk)
  {
  }

  lemma KeepClean(key: seq<Key>, valid: seq<bool>, data: seq<seq<int>>, refcnt: seq<int>, disk: map<Key, seq<int>>,
      b: int,
                  valid': seq<bool>, data': seq<seq<int>>)
    requires |key| == |valid| == |data| == |refcnt| == |valid'| == |data'| && Clean(key, valid, data, refcnt, disk)
    requires 0 <= b < |key| && refcnt[b] > 0 && forall c :: 0 <= c < |key| && c != b ==>
        valid'[c] == valid[c] && data'[c] == data[c]
    ensures Clean(key, valid', data', refcnt, disk)
  {
  }

  lemma Changed(key: seq<Key>, valid: seq<bool>, data: seq<seq<int>>, disk: map<Key, seq<int>>, view: map<Key,
      seq<int>>, b: int, d: seq<int>)
    requires |key| == |valid| == |data| && 0 <= b < |key| && valid[b] && Unique(key)
        && Refines(key, valid, data, disk, view)
    ensures Refines(key, valid, data[b := d], disk, view[key[b] := d])
  {
    assert key[b].dev != 0;
  }

  lemma Written(key: seq<Key>, valid: seq<bool>, data: seq<seq<int>>, refcnt: seq<int>, disk: map<Key, seq<int>>,
      view: map<Key, seq<int>>, b: int)
    requires |key| == |valid| == |data| == |refcnt| && 0 <= b < |key| && valid[b] && refcnt[b] > 0
    requires Unique(key) && Refines(key, valid, data, disk, view) && Clean(key, valid, data, refcnt, disk)
    ensures Refines(key, valid, data, disk[key[b] := data[b]], view)
        && Clean(key, valid, data, refcnt, disk[key[b] := data[b]])
  {
    assert key[b].dev != 0;
  }

  lemma ValidData(key: seq<Key>, valid: seq<bool>, data: seq<seq<int>>, disk: map<Key, seq<int>>, view: map<Key,
      seq<int>>, b: int)
    requires |key| == |valid| == |data| && 0 <= b < |key| && Refines(key, valid, data, disk, view) && key[b].dev != 0
    ensures key[b] in view && (valid[b] ==> data[b] == view[key[b]])
  {
  }
}

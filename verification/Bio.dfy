/**
  The buffer cache (kernel/bio.c): a doubly linked ring in order of last use, and a cache
  that behaves like the plain map from blocks to contents.
 */
module Bio {

  /** Device and block number; device 0 marks a buffer that was never used. */
  datatype Key = Key(dev: int, blk: int)

  // ----- the ring -----

  /** The i-th buffer from the most recently used on; n, the list head, at both ends. */
  function At(n: int, ring: seq<int>, i: int): int { if 0 <= i < |ring| then ring[i] else n }

  /** ring lists every buffer once. */
  ghost predicate Permutation(n: int, ring: seq<int>) {
    && |ring| == n && (forall i :: 0 <= i < n ==> 0 <= ring[i] < n)
    && (forall i, j :: 0 <= i < j < n ==> ring[i] != ring[j])
  }

  /** The links between the i-th buffer and the one after it. */
  predicate Hop(n: int, ring: seq<int>, next: seq<int>, prev: seq<int>, i: int)
    requires |next| == |prev| == n + 1
  {
    var a, b := At(n, ring, i), At(n, ring, i + 1);
    0 <= a <= n && 0 <= b <= n && next[a] == b && prev[b] == a
  }

  /** next and prev run through the ring, forwards and backwards. */
  ghost predicate Linked(n: int, ring: seq<int>, next: seq<int>, prev: seq<int>) {
    |next| == |prev| == n + 1 && forall i :: -1 <= i < |ring| ==> Hop(n, ring, next, prev, i)
  }

  /** The ring with its k-th buffer moved to the front. */
  function ToFront(ring: seq<int>, k: int): (r: seq<int>)
    requires 0 <= k < |ring|
    ensures |r| == |ring| && r[0] == ring[k]
    ensures forall i :: 0 <= i < |ring| ==>
        r[i] == (if i == 0 then ring[k] else if i <= k then ring[i - 1] else ring[i])
  {
    [ring[k]] + ring[..k] + ring[k + 1..]
  }

  lemma ToFrontPermutation(n: int, ring: seq<int>, k: int)
    requires Permutation(n, ring) && 0 <= k < n
    ensures Permutation(n, ToFront(ring, k))
  {
  }

  /** Taking b out: brelse's first two assignments. */
  function Unlink(next: seq<int>, prev: seq<int>, b: int): (r: (seq<int>, seq<int>))
    requires 0 <= b < |next| == |prev| && 0 <= next[b] < |next| && 0 <= prev[b] < |prev|
  {
    (next[prev[b] := next[b]], prev[next[b] := prev[b]])
  }

  /** Putting b in at the front: its last four. */
  function PushFront(n: int, next: seq<int>, prev: seq<int>, b: int): (r: (seq<int>, seq<int>))
    requires 0 <= b < |next| == |prev| == n + 1 && 0 <= next[n] <= n
  {
    (next[b := next[n]][n := b], prev[b := n][next[n] := b])
  }

  /** The ring without its k-th buffer. */
  function Without(ring: seq<int>, k: int): (r: seq<int>)
    requires 0 <= k < |ring|
    ensures |r| == |ring| - 1 && forall i :: 0 <= i < |r| ==> r[i] == (if i < k then ring[i] else ring[i + 1])
  {
    ring[..k] + ring[k + 1..]
  }

  /** Distinct buffers in range. */
  ghost predicate Distinct(n: int, ring: seq<int>) {
    (forall i :: 0 <= i < |ring| ==> 0 <= ring[i] < n) && (forall i, j :: 0 <= i < j < |ring| ==> ring[i] != ring[j])
  }

  lemma UnlinkRing(n: int, ring: seq<int>, next: seq<int>, prev: seq<int>, k: int)
    requires Distinct(n, ring) && Linked(n, ring, next, prev) && 0 <= k < |ring| && n >= 0
    ensures 0 <= next[ring[k]] <= n && 0 <= prev[ring[k]] <= n
    ensures var (next', prev') := Unlink(next, prev, ring[k]); Linked(n, Without(ring, k), next', prev')
  {
    var b, r := ring[k], Without(ring, k);
    assert Hop(n, ring, next, prev, k) && Hop(n, ring, next, prev, k - 1);
    var (next', prev') := Unlink(next, prev, b);
    forall i | -1 <= i < |r| ensures Hop(n, r, next', prev', i) {
      assert Hop(n, ring, next, prev, if i < k then i else i + 1);
    }
  }

  lemma PushRing(n: int, ring: seq<int>, next: seq<int>, prev: seq<int>, b: int)
    requires Distinct(n, ring) && Linked(n, ring, next, prev) && 0 <= b < n && b !in ring
    ensures 0 <= next[n] <= n
    ensures var (next', prev') := PushFront(n, next, prev, b); Linked(n, [b] + ring, next', prev')
  {
    assert Hop(n, ring, next, prev, -1);
    var r := [b] + ring;
    var (next', prev') := PushFront(n, next, prev, b);
    forall i | -1 <= i < |r| ensures Hop(n, r, next', prev', i) {
      if i >= 1 { assert Hop(n, ring, next, prev, i - 1); }
    }
  }

  /** Moving a buffer to the front, as brelse does it. */
  lemma MoveRing(n: int, ring: seq<int>, next: seq<int>, prev: seq<int>, k: int)
    requires Permutation(n, ring) && Linked(n, ring, next, prev) && 0 <= k < n
    ensures |next| == |prev| == n + 1 && 0 <= next[ring[k]] <= n && 0 <= prev[ring[k]] <= n && next[ring[k]] != ring[k]
    ensures var (n1, p1) := Unlink(next, prev, ring[k]);
            0 <= n1[n] <= n && var (n2, p2) := PushFront(n, n1, p1, ring[k]);
                               Permutation(n, ToFront(ring, k)) && Linked(n, ToFront(ring, k), n2, p2)
  {
    UnlinkRing(n, ring, next, prev, k);
    assert Hop(n, ring, next, prev, k);
    var (n1, p1) := Unlink(next, prev, ring[k]);
    PushRing(n, Without(ring, k), n1, p1, ring[k]);
    assert [ring[k]] + Without(ring, k) == ToFront(ring, k);
    ToFrontPermutation(n, ring, k);
  }
}

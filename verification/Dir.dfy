/**
  Directories and paths (kernel/fs.c dirlookup, dirlink, skipelem, namex; kernel/sysfile.c
  create, sys_unlink): directories as finite maps from names to inode numbers, and inode
  references.  A directory's content is its sequence of entries.
 */
module Dir {

  const DIRSIZ := 14
  const T_DIR := 1
  const T_FILE := 2
  const T_DEVICE := 3

  /** inum 0 marks an unused entry. */
  datatype Entry<N> = Entry(inum: int, name: N)

  /** type 0 marks a free inode. */
  datatype Node = Node(kind: int, nlink: int, ents: seq<Entry<string>>)

  function Cut(s: string): (r: string)
    ensures r <= s && |r| == if |s| < DIRSIZ then |s| else DIRSIZ
  {
    if |s| > DIRSIZ then s[..DIRSIZ] else s
  }

  /** No two live entries share a name. */
  ghost predicate Distinct<N>(ents: seq<Entry<N>>) {
    forall i, j :: 0 <= i < j < |ents| && ents[i].inum != 0 && ents[j].inum != 0 ==> ents[i].name != ents[j].name
  }

  /** The directory as a finite map. */
  ghost function Names<N>(ents: seq<Entry<N>>): map<N, int>
    requires Distinct(ents)
  {
    map i | 0 <= i < |ents| && ents[i].inum != 0 :: ents[i].name := ents[i].inum
  }

  /** Live entry i is for this name. */
  predicate For<N(==)>(ents: seq<Entry<N>>, i: int, name: N)
      { 0 <= i < |ents| && ents[i].inum != 0 && ents[i].name == name }

  /** What a live entry says, the map says, and the other way round. */
  lemma NamesAt<N>(ents: seq<Entry<N>>, i: int, name: N)
    requires Distinct(ents)
    ensures For(ents, i, name) ==> name in Names(ents) && Names(ents)[name] == ents[i].inum
    ensures name in Names(ents) ==> exists k :: For(ents, k, name)
  {
    if name in Names(ents) {
      var k :| 0 <= k < |ents| && ents[k].inum != 0 && ents[k].name == name;
      assert For(ents, k, name);
    }
  }

  /** Two directories whose live entries match have the same map. */
  lemma NamesEqual<N>(ents: seq<Entry<N>>, m: map<N, int>)
    requires Distinct(ents)
    requires forall i, n :: For(ents, i, n) ==> n in m && m[n] == ents[i].inum
    requires forall n :: n in m ==> exists i :: For(ents, i, n)
    ensures Names(ents) == m
  {
    hide Names;
    forall n | n in m ensures n in Names(ents) {
      var i :| For(ents, i, n);
      NamesAt(ents, i, n);
    }
    forall n | n in Names(ents) ensures n in m && m[n] == Names(ents)[n] {
      NamesAt(ents, 0, n);
      var i :| For(ents, i, n);
      NamesAt(ents, i, n);
    }
  }

  /** Writing a live entry for a new name into an unused place, or at the end. */
  lemma AddName<N>(ents: seq<Entry<N>>, off: int, name: N, inum: int)
    requires Distinct(ents) && 0 <= off <= |ents| && (off < |ents| ==> ents[off].inum == 0) && name !in Names(ents)
        && inum != 0
    ensures var e := if off < |ents| then ents[off := Entry(inum, name)] else ents + [Entry(inum, name)];
            Distinct(e) && Names(e) == Names(ents)[name := inum]
  {
    hide Names;
    var e := if off < |ents| then ents[off := Entry(inum, name)] else ents + [Entry(inum, name)];
    forall i | 0 <= i < |ents| && ents[i].inum != 0 ensures ents[i].name != name { NamesAt(ents, i, ents[i].name); }
    var m := Names(ents)[name := inum];
    assert For(e, off, name);
    forall i, n | For(e, i, n) ensures n in m && m[n] == e[i].inum {
      if i != off { NamesAt(ents, i, n); }
    }
    forall n | n in m ensures exists i :: For(e, i, n) {
      if n != name {
        NamesAt(ents, 0, n);
        var i :| For(ents, i, n);
        assert For(e, i, n);
      }
    }
    NamesEqual(e, m);
  }

  /** Clearing the entry at off. */
  lemma DropName<N>(ents: seq<Entry<N>>, off: int, blank: N)
    requires Distinct(ents) && 0 <= off < |ents| && ents[off].inum != 0
    ensures var e := ents[off := Entry(0, blank)]; Distinct(e) && Names(e) == Names(ents) - {ents[off].name}
  {
    hide Names;
    var e, m := ents[off := Entry(0, blank)], Names(ents) - {ents[off].name};
    forall i, n | For(e, i, n) ensures n in m && m[n] == e[i].inum {
      assert i != off;
      NamesAt(ents, i, n);
    }
    forall n | n in m ensures exists i :: For(e, i, n) {
      NamesAt(ents, 0, n);
      var i :| For(ents, i, n);
      assert For(e, i, n);
    }
    NamesEqual(e, m);
  }

  /** The first unused entry, or the end. */
  function FirstFree<N>(ents: seq<Entry<N>>, k: int): (off: int)
    requires 0 <= k <= |ents|
    ensures k <= off <= |ents| && (off < |ents| ==> ents[off].inum == 0) && forall j :: k <= j < off ==>
        ents[j].inum != 0
    decreases |ents| - k
  {
    if k == |ents| || ents[k].inum == 0 then k else FirstFree(ents, k + 1)
  }

  /** Where dirlink puts an entry. */
  function Placed<N>(ents: seq<Entry<N>>, e: Entry<N>): seq<Entry<N>> {
    var off := FirstFree(ents, 0);
    if off < |ents| then ents[off := e] else ents + [e]
  }

  /** Entries in use stay in their places, and an unused one is taken before the directory grows. */
  lemma PlacedReuses<N(!new)>(ents: seq<Entry<N>>, e: Entry<N>)
    requires e.inum != 0
    ensures |Placed(ents, e)| == |ents| + (if exists k :: 0 <= k < |ents| && ents[k].inum == 0 then 0 else 1)
    ensures forall k :: 0 <= k < |ents| && ents[k].inum != 0 ==> Placed(ents, e)[k] == ents[k]
    ensures e in Placed(ents, e)
  {
    var off := FirstFree(ents, 0);
    assert Placed(ents, e)[off] == e;
  }

  // ----- paths -----

  /** The end of the run of slashes (or of non-slashes) that starts at p. */
  function Run(path: string, p: int, slash: bool): (r: int)
    requires 0 <= p <= |path|
    ensures p <= r <= |path| && (forall i :: p <= i < r ==> (path[i] == '/') == slash)
        && (r < |path| ==> (path[r] == '/') != slash)
    decreases |path| - p
  {
    if p < |path| && (path[p] == '/') == slash then Run(path, p + 1, slash) else p
  }

  /** The elements of the path from p on, each cut to DIRSIZ. */
  function Elems(path: string, p: int): seq<string>
    requires 0 <= p <= |path|
    decreases |path| - p
  {
    var s := Run(path, p, true);
    if s == |path| then [] else
      var e := Run(path, s, false);
      [Cut(path[s..e])] + Elems(path, e)
  }

  lemma ElemsSkip(path: string, p: int, r: int)
    requires 0 <= p <= |path| && p <= r <= Run(path, p, true)
    ensures Run(path, r, true) == Run(path, p, true) && Elems(path, r) == Elems(path, p)
    decreases r - p
  {
    if p < r { ElemsSkip(path, p + 1, r); }
  }

  function Slashes(n: nat): (r: string)
    ensures |r| == n && forall i :: 0 <= i < n ==> r[i] == '/'
  {
    seq(n, _ => '/')
  }

  predicate Plain(elem: string) { elem != "" && forall i :: 0 <= i < |elem| ==> elem[i] != '/' }

  /** As many slashes as gaps says before, between and after the elements. */
  predicate Spaced(elems: seq<string>, gaps: seq<nat>) {
    && |gaps| == |elems| + 1 && (forall i :: 0 <= i < |elems| ==> Plain(elems[i]))
    && forall i :: 0 < i < |elems| ==> gaps[i] > 0
  }

  function Join(elems: seq<string>, gaps: seq<nat>): string
    requires |gaps| == |elems| + 1
  {
    if elems == [] then Slashes(gaps[0]) else Slashes(gaps[0]) + elems[0] + Join(elems[1..], gaps[1..])
  }

  function CutAll(elems: seq<string>): seq<string> { seq(|elems|, i requires 0 <= i < |elems| => Cut(elems[i])) }

  lemma RunIs(path: string, p: int, e: int, slash: bool)
    requires 0 <= p <= e <= |path| && (forall i :: p <= i < e ==> (path[i] == '/') == slash)
    requires e < |path| ==> (path[e] == '/') != slash
    ensures Run(path, p, slash) == e
  {
  }

  /** After an element comes a slash, or the end. */
  lemma JoinFirst(elems: seq<string>, gaps: seq<nat>)
    requires Spaced(elems, gaps) && (elems == [] || gaps[0] > 0)
    ensures Join(elems, gaps) != "" ==> Join(elems, gaps)[0] == '/'
  {
  }

  /** An element between slashes. */
  lemma RunsOf(pre: string, gap: string, elem: string, rest: string)
    requires (forall i :: 0 <= i < |gap| ==> gap[i] == '/') && Plain(elem) && (rest != "" ==> rest[0] == '/')
    ensures var path, s, e := pre + gap + elem + rest, |pre + gap|, |pre + gap + elem|;
            Run(path, |pre|, true) == s < |path| && Run(path, s, false) == e && path[s..e] == elem
  {
    hide Run;
    var path, s, e := pre + gap + elem + rest, |pre + gap|, |pre + gap + elem|;
    forall i | |pre| <= i < s ensures path[i] == '/' { assert path[i] == gap[i - |pre|]; }
    forall i | s <= i < e ensures path[i] != '/' { assert path[i] == elem[i - s]; }
    assert path[s] == elem[0] && (e < |path| ==> path[e] == rest[0]);
    RunIs(path, |pre|, s, true);
    RunIs(path, s, e, false);
    assert path[s..e] == elem;
  }

  /** The first element of a joined path, and what follows it. */
  lemma JoinParts(pre: string, elems: seq<string>, gaps: seq<nat>)
    requires Spaced(elems, gaps) && elems != []
    ensures Spaced(elems[1..], gaps[1..]) && Plain(elems[0])
    ensures Join(elems[1..], gaps[1..]) != "" ==> Join(elems[1..], gaps[1..])[0] == '/'
    ensures pre + Join(elems, gaps) == pre + Slashes(gaps[0]) + elems[0] + Join(elems[1..], gaps[1..])
  {
    hide Plain, Slashes;
    assert Plain(elems[0]);
    JoinFirst(elems[1..], gaps[1..]);
    Regroup(pre, Slashes(gaps[0]), elems[0], Join(elems[1..], gaps[1..]));
  }

  lemma Regroup(a: string, b: string, c: string, d: string)
    ensures a + (b + c + d) == a + b + c + d
  {
  }

  /** The elements of a path are the pieces between its slashes, however many those are, each cut to 14 bytes. */
  lemma {:induction false} ElemsJoin(pre: string, elems: seq<string>, gaps: seq<nat>)
    requires Spaced(elems, gaps)
    ensures Elems(pre + Join(elems, gaps), |pre|) == CutAll(elems)
    decreases |elems|
  {
    hide Run, Join, Cut, Plain;
    if elems == [] {
      JoinNone(pre, gaps);
    } else {
      JoinParts(pre, elems, gaps);
      RunsOf(pre, Slashes(gaps[0]), elems[0], Join(elems[1..], gaps[1..]));
      ElemsJoin(pre + Slashes(gaps[0]) + elems[0], elems[1..], gaps[1..]);
      assert CutAll(elems) == [Cut(elems[0])] + CutAll(elems[1..]);
    }
  }

  lemma JoinNone(pre: string, gaps: seq<nat>)
    requires |gaps| == 1
    ensures Run(pre + Join([], gaps), |pre|, true) == |pre + Join([], gaps)|
  {
  }

  /** skipelem: the next element and what follows it, slashes skipped; no element at the end. */
  method Skipelem(path: string, p: int) returns (some: bool, name: string, r: int)
    requires 0 <= p <= |path|
    ensures some <==> Elems(path, p) != []
    ensures some ==>
        p < r <= |path| && Elems(path, p) == [name] + Elems(path, r) && |name| <= DIRSIZ
        && (r < |path| ==> path[r] != '/')
  {
    var q := p;
    while q < |path| && path[q] == '/'
      invariant p <= q <= Run(path, p, true) && Run(path, q, true) == Run(path, p, true)
    {
      q := q + 1;
    }
    if q == |path| { return false, "", q; }
    var s := q;
    while q < |path| && path[q] != '/'
      invariant s <= q <= Run(path, s, false) && Run(path, q, false) == Run(path, s, false)
    {
      q := q + 1;
    }
    name := Cut(path[s..q]);
    var e := q;
    while q < |path| && path[q] == '/'
      invariant e <= q <= Run(path, e, true) && Run(path, q, true) == Run(path, e, true)
    {
      q := q + 1;
    }
    ElemsSkip(path, e, q);
    return true, name, q;
  }
}

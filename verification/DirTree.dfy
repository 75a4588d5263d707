/**
  The directory tree (kernel/fs.c namex, iput; kernel/sysfile.c create, sys_link, sys_unlink):
  what a path means, the invariant that link counts and names keep, directories that were
  removed while in use included, and when every name leads to an inode in use.
 */
module DirTree {
  import opened Dir

  const ROOTINO := 1
  const EMPTY := Node(0, 0, [])

  /** A name, in the directory that holds it. */
  type Place = (int, string)

  ghost predicate NodeOk(n: Node, ninodes: int) {
    && Distinct(n.ents) && n.nlink >= 0 && (n.kind == 0 ==> n == EMPTY)
    && (forall k :: 0 <= k < |n.ents| ==> |n.ents[k].name| <= DIRSIZ && 0 <= n.ents[k].inum < ninodes)
  }

  ghost predicate AllOk(nodes: seq<Node>) { forall j :: 0 <= j < |nodes| ==> NodeOk(nodes[j], |nodes|) }

  /** Only inodes in use are referred to. */
  ghost predicate NodesOk(nodes: seq<Node>, ref: seq<int>) {
    && |nodes| == |ref| > ROOTINO && AllOk(nodes)
    && (forall i :: 0 <= i < |ref| ==> ref[i] >= 0 && (ref[i] > 0 ==> nodes[i].kind != 0))
  }

  predicate IsDir(nodes: seq<Node>, d: int) { 0 <= d < |nodes| && nodes[d].kind == T_DIR }

  predicate InUse(nodes: seq<Node>, i: int) { 0 <= i < |nodes| && nodes[i].kind != 0 }

  /** The inode that directory d names, 0 if none. */
  ghost function Look(nodes: seq<Node>, d: int, name: string): int {
    if IsDir(nodes, d) && Distinct(nodes[d].ents) && name in Names(nodes[d].ents) then Names(nodes[d].ents)[name] else 0
  }

  lemma LookEntry(nodes: seq<Node>, d: int, k: int, name: string)
    requires AllOk(nodes) && IsDir(nodes, d)
    ensures NodeOk(nodes[d], |nodes|) && (For(nodes[d].ents, k, name) ==> Look(nodes, d, name) == nodes[d].ents[k].inum)
    ensures Look(nodes, d, name) != 0 ==>
        exists k :: For(nodes[d].ents, k, name) && nodes[d].ents[k].inum == Look(nodes, d, name)
  {
    hide Names;
    assert NodeOk(nodes[d], |nodes|);
    NamesAt(nodes[d].ents, k, name);
    if Look(nodes, d, name) != 0 {
      var j :| For(nodes[d].ents, j, name);
      NamesAt(nodes[d].ents, j, name);
    }
  }

  lemma LookRange(nodes: seq<Node>, d: int, name: string)
    requires AllOk(nodes)
    ensures Look(nodes, d, name) == 0 || 0 < Look(nodes, d, name) < |nodes|
  {
    if Look(nodes, d, name) != 0 { LookEntry(nodes, d, 0, name); }
  }

  // ----- what a path means -----

  /** Each element looked up in the directory reached so far; 0 if that fails. */
  ghost function Walk(nodes: seq<Node>, i: int, elems: seq<string>): int
    decreases |elems|
  {
    if elems == [] then i
    else
      var next := Look(nodes, i, elems[0]);
      if next == 0 then 0 else Walk(nodes, next, elems[1..])
  }

  /** The directory all but the last element lead to, 0 if that fails or there is no element. */
  ghost function WalkParent(nodes: seq<Node>, i: int, elems: seq<string>): (r: int)
    ensures r == 0 || IsDir(nodes, r)
  {
    if elems == [] then 0
    else
      var d := Walk(nodes, i, elems[..|elems| - 1]);
      if d != 0 && IsDir(nodes, d) then d else 0
  }

  /** An inode that has to be locked on the way is free. */
  ghost predicate Panics(nodes: seq<Node>, i: int, elems: seq<string>)
    decreases |elems|
  {
    elems != [] && 0 <= i < |nodes|
    && (nodes[i].kind == 0 || (Look(nodes, i, elems[0]) != 0 && Panics(nodes, Look(nodes, i, elems[0]), elems[1..])))
  }

  function Start(path: string, cwd: int): int { if path != "" && path[0] == '/' then ROOTINO else cwd }

  ghost function PathInode(nodes: seq<Node>, path: string, cwd: int): int
      { Walk(nodes, Start(path, cwd), Elems(path, 0)) }

  ghost function PathParent(nodes: seq<Node>, path: string, cwd: int): (r: int)
    ensures r == 0 || IsDir(nodes, r)
  {
    WalkParent(nodes, Start(path, cwd), Elems(path, 0))
  }

  ghost predicate PathPanics(nodes: seq<Node>, path: string, cwd: int)
      { Panics(nodes, Start(path, cwd), Elems(path, 0)) }

  /** A path of these elements goes from the root if it begins with a slash, and from the current directory if not. */
  lemma PathMeans(nodes: seq<Node>, elems: seq<string>, gaps: seq<nat>, cwd: int)
    requires Spaced(elems, gaps)
    ensures var path, from := Join(elems, gaps), if gaps[0] > 0 then ROOTINO else cwd;
            && PathInode(nodes, path, cwd) == Walk(nodes, from, CutAll(elems))
            && PathParent(nodes, path, cwd) == WalkParent(nodes, from, CutAll(elems))
            && LastName(path) == (if elems == [] then "" else Cut(elems[|elems| - 1]))
  {
    hide Walk, WalkParent, Elems;
    ElemsJoin("", elems, gaps);
    var path := Join(elems, gaps);
    assert "" + path == path;
    if gaps[0] > 0 { assert path[0] == '/'; } else if elems != [] { assert path[0] == elems[0][0] && Plain(elems[0]); }
  }

  function LastName(path: string): string {
    var elems := Elems(path, 0);
    if elems == [] then "" else elems[|elems| - 1]
  }

  /** A path is walked piece by piece. */
  lemma {:induction false} WalkApp(nodes: seq<Node>, i: int, a: seq<string>, b: seq<string>)
    requires Walk(nodes, i, a) != 0
    ensures Walk(nodes, i, a + b) == Walk(nodes, Walk(nodes, i, a), b)
    decreases |a|
  {
    hide Look;
    if a == [] {
      assert a + b == b;
    } else {
      assert (a + b)[0] == a[0] && (a + b)[1..] == a[1..] + b;
      WalkApp(nodes, Look(nodes, i, a[0]), a[1..], b);
    }
  }

  /** Where the lookup fails nothing lies below. */
  lemma WalkStops(nodes: seq<Node>, start: int, before: seq<string>, rest: seq<string>, i: int)
    requires Walk(nodes, start, before) == i != 0 && rest != [] && Look(nodes, i, rest[0]) == 0
    ensures Walk(nodes, start, before + rest) == 0
    ensures |rest| > 1 || !IsDir(nodes, i) ==> WalkParent(nodes, start, before + rest) == 0
  {
    hide Look;
    WalkApp(nodes, start, before, rest);
    var all, m := before + rest, |rest| - 1;
    assert all[..|all| - 1] == before + rest[..m];
    WalkApp(nodes, start, before, rest[..m]);
    if m > 0 { assert rest[..m][0] == rest[0]; }
  }

  lemma WalkOn(nodes: seq<Node>, start: int, before: seq<string>, elem: string, i: int)
    requires Walk(nodes, start, before) == i != 0
    ensures Walk(nodes, start, before + [elem]) == Look(nodes, i, elem)
  {
    hide Look;
    WalkApp(nodes, start, before, [elem]);
    assert [elem][0] == elem && [elem][1..] == [];
  }

  lemma WalkLast(nodes: seq<Node>, start: int, before: seq<string>, elem: string)
    ensures WalkParent(nodes, start, before + [elem]) ==
            (var d := Walk(nodes, start, before); if d != 0 && IsDir(nodes, d) then d else 0)
  {
    hide Walk;
    assert (before + [elem])[..|before|] == before;
  }

  lemma PanicsOn(nodes: seq<Node>, i: int, elem: string, rest: seq<string>)
    requires 0 <= i < |nodes|
    ensures Panics(nodes, i, [elem] + rest) <==>
            nodes[i].kind == 0 || (Look(nodes, i, elem) != 0 && Panics(nodes, Look(nodes, i, elem), rest))
  {
    hide Look;
    assert ([elem] + rest)[1..] == rest;
  }

  // ----- the invariant -----

  predicate Undotted(name: string) { name != "." && name != ".." }

  /** Every directory starts with "." and ".."; nothing else has entries. */
  ghost predicate Shape(nodes: seq<Node>) {
    forall d :: 0 <= d < |nodes| ==> Headed(nodes[d], d)
  }

  ghost predicate Headed(n: Node, d: int) {
    if n.kind == T_DIR then d != 0 && |n.ents| >= 2 && n.ents[0] == Entry(d, ".") && n.ents[1].name == ".."
        && n.ents[1].inum != 0
    else n.ents == []
  }

  /** The name in d counts as a link to i: every name does except ".", and ".." of a directory that was removed. */
  ghost predicate Counts(nodes: seq<Node>, named: map<int, string>, x: Place, i: int) {
    && i != 0 && Look(nodes, x.0, x.1) == i && x.1 != "." && (x.1 == ".." ==> x.0 in named)
  }

  /** links collects, for each inode, the names that count. */
  ghost predicate LinksOk(nodes: seq<Node>, named: map<int, string>, links: seq<set<Place>>) {
    && |links| == |nodes|
    && forall i, x :: 0 <= i < |links| ==> (x in links[i] <==> Counts(nodes, named, x, i))
  }

  /** No inode has fewer links than names; directories have as many. */
  ghost predicate CountOk(nodes: seq<Node>, links: seq<set<Place>>) {
    && |links| == |nodes|
    && forall i :: 0 <= i < |links| ==>
        |links[i]| <= nodes[i].nlink && (nodes[i].kind == T_DIR ==> |links[i]| == nodes[i].nlink)
  }

  /** named holds the directories that were not removed, with their names in their parents. */
  ghost predicate NamedOk(nodes: seq<Node>, named: map<int, string>) {
    && ROOTINO in named && Look(nodes, ROOTINO, "..") == ROOTINO
    && forall d :: d in named ==> HasName(nodes, named, d)
  }

  ghost predicate HasName(nodes: seq<Node>, named: map<int, string>, d: int)
    requires d in named
  {
    && d > 0 && IsDir(nodes, d) && IsDir(nodes, Look(nodes, d, ".."))
    && (d != ROOTINO ==> Undotted(named[d]) && Look(nodes, Look(nodes, d, ".."), named[d]) == d)
  }

  /** A directory has one name, in its parent. */
  ghost predicate TreeOk(nodes: seq<Node>, named: map<int, string>) {
    forall d, n :: Undotted(n) && Look(nodes, d, n) != 0 && IsDir(nodes, Look(nodes, d, n)) ==>
      ChildOf(nodes, named, d, n, Look(nodes, d, n))
  }

  ghost predicate ChildOf(nodes: seq<Node>, named: map<int, string>, d: int, n: string, t: int) {
    t in named && t != ROOTINO && t != d && Look(nodes, t, "..") == d && named[t] == n
  }

  /** An inode in use without links is referred to. */
  ghost predicate Orphans(nodes: seq<Node>, ref: seq<int>) {
    && |nodes| == |ref|
    && forall i :: 0 <= i < |nodes| && nodes[i].kind != 0 && nodes[i].nlink == 0 ==> ref[i] > 0
  }

  /** What holds apart from Orphans. */
  ghost predicate Linked(nodes: seq<Node>, named: map<int, string>, links: seq<set<Place>>) {
    && AllOk(nodes) && |nodes| > ROOTINO && Shape(nodes)
    && LinksOk(nodes, named, links) && CountOk(nodes, links) && NamedOk(nodes, named) && TreeOk(nodes, named)
  }

  ghost predicate Sound(nodes: seq<Node>, ref: seq<int>, named: map<int, string>, links: seq<set<Place>>) {
    NodesOk(nodes, ref) && Orphans(nodes, ref) && Linked(nodes, named, links)
  }
}

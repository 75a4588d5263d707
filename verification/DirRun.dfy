/** A run of the calls that ends in a panic: the parent of somebody's current directory is removed. */
module DirRun {
  import opened Dir
  import opened DirTree
  import opened DirSound
  import opened DirLive
  import opened DirCode

  lemma BareIf(nodes: seq<Node>, named: Naming, links: Links, d: int)
    requires Linked(nodes, named, links) && IsDir(nodes, d) && forall n :: Undotted(n) ==> Look(nodes, d, n) == 0
    ensures Bare(nodes[d])
  {
    hide Look, NamedOk, TreeOk, LinksOk;
    assert Headed(nodes[d], d) && NodeOk(nodes[d], |nodes|);
    forall k | 2 <= k < |nodes[d].ents| ensures nodes[d].ents[k].inum == 0 {
      var n := nodes[d].ents[k].name;
      if nodes[d].ents[k].inum != 0 {
        assert Undotted(n) && For(nodes[d].ents, k, n);
        LookEntry(nodes, d, k, n);
      }
    }
  }

  lemma ElemAt(path: string, p: int, s: int, e: int)
    requires 0 <= p <= s < e <= |path| && (forall i :: p <= i < s ==> path[i] == '/')
        && (forall i :: s <= i < e ==> path[i] != '/')
    requires e < |path| ==> path[e] == '/'
    ensures Elems(path, p) == [Cut(path[s..e])] + Elems(path, e)
  {
    RunIs(path, p, true, s);
    RunIs(path, s, false, e);
  }

  lemma {:induction false} RunIs(path: string, p: int, slash: bool, e: int)
    requires 0 <= p <= e <= |path| && (forall i :: p <= i < e ==> (path[i] == '/') == slash)
        && (e < |path| ==> (path[e] == '/') != slash)
    ensures Run(path, p, slash) == e
    decreases e - p
  {
    if p < e { RunIs(path, p + 1, slash, e); }
  }

  lemma Paths()
    ensures Elems("/a", 0) == ["a"] && Elems("/a/b", 0) == ["a", "b"] && Elems("../x", 0) == ["..", "x"]
  {
    hide Run, Elems;
    OneElem("/a", 0, "a", 1, 2);
    OneElem("/a/b", 2, "b", 3, 4);
    ElemAt("/a/b", 0, 1, 2);
    OneElem("../x", 2, "x", 3, 4);
    ElemAt("../x", 0, 0, 2);
    assert "/a/b"[1..2] == "a" && "../x"[0..2] == "..";
  }

  lemma OneElem(path: string, p: int, elem: string, s: int, e: int)
    requires 0 <= p <= s < e == |path| && (forall i :: p <= i < s ==> path[i] == '/')
        && (forall i :: s <= i < e ==> path[i] != '/')
    requires path[s..e] == elem && |elem| <= DIRSIZ
    ensures Elems(path, p) == [elem]
  {
    ElemAt(path, p, s, e);
  }

  /** Paths of one and of two elements from the root. */
  lemma PathOne(nodes: seq<Node>, cwd: int)
    requires IsDir(nodes, ROOTINO)
    ensures PathParent(nodes, "/a", cwd) == ROOTINO && LastName("/a") == "a" && !PathPanics(nodes, "/a", cwd)
  {
    hide Look, Elems;
    Paths();
    WalkLast(nodes, ROOTINO, [], "a");
    assert [] + ["a"] == ["a"];
    PanicsOn(nodes, ROOTINO, "a", []);
    assert ["a"] + [] == ["a"];
  }

  lemma PathTwo(nodes: seq<Node>, cwd: int)
    requires IsDir(nodes, ROOTINO) && Look(nodes, ROOTINO, "a") != 0 && IsDir(nodes, Look(nodes, ROOTINO, "a"))
    ensures PathParent(nodes, "/a/b", cwd) == Look(nodes, ROOTINO, "a") && LastName("/a/b") == "b"
        && !PathPanics(nodes, "/a/b", cwd)
  {
    hide Look, Elems;
    Paths();
    WalkLast(nodes, ROOTINO, ["a"], "b");
    WalkOn(nodes, ROOTINO, [], "a", ROOTINO);
    assert [] + ["a"] == ["a"] && ["a"] + ["b"] == ["a", "b"];
    PanicsOn(nodes, ROOTINO, "a", ["b"]);
    PanicsOn(nodes, Look(nodes, ROOTINO, "a"), "b", []);
    assert ["b"] + [] == ["b"];
  }

  /** A new directory, made. */
  method Mkdir(t: Tree, path: string, ghost dp: int, ghost name: string) returns (i: int)
    requires t.Valid() && |t.nodes| == |t.ref| > ROOTINO && t.ref[ROOTINO] > 0 && !NoInode(t.nodes)
    requires !PathPanics(t.nodes, path, ROOTINO) && PathParent(t.nodes, path, ROOTINO) == dp > 0
        && LastName(path) == name
    requires Look(t.nodes, dp, name) == 0
    modifies t
    ensures t.Valid() && |t.nodes| == |old(t.nodes)| == |old(t.ref)| && 0 < i < |t.nodes| && old(t.nodes)[i].kind == 0
        && i != dp
    ensures t.ref == old(t.ref)[i := 1] && t.named == old(t.named)[i := name]
    ensures forall d, n :: Look(t.nodes, d, n) == GraftLook(old(t.nodes), dp, name, i, d, n)
    ensures forall d :: IsDir(t.nodes, d) <==> d == i || IsDir(old(t.nodes), d)
    ensures forall j :: 0 <= j < |t.nodes| && j != i ==> t.nodes[j].kind == old(t.nodes)[j].kind
  {
    hide Look, Sound, PathParent, PathPanics, LastName, Grafted;
    var panic;
    ghost var was := t.nodes;
    panic, i := t.Create(path, T_DIR, ROOTINO, [true, true, true]);
    forall d, n ensures Look(t.nodes, d, n) == GraftLook(was, dp, name, i, d, n) {
      LookGrafted(was, dp, t.nodes[dp].ents, name, i, d, n);
    }
    GraftKinds(was, dp, t.nodes[dp].ents, i);
  }

  lemma GraftKinds(was: seq<Node>, dp: int, ents: seq<Entry<string>>, ip: int)
    requires 0 <= dp < |was| && 0 <= ip < |was| && dp != ip
    ensures var now := Grafted(was, dp, ents, ip);
            && (forall d :: IsDir(now, d) <==> d == ip || IsDir(was, d))
            && forall j :: 0 <= j < |now| && j != ip ==> now[j].kind == was[j].kind
  {
  }

  /** A directory removed: it stays in use if it is referred to. */
  method Rmdir(t: Tree, path: string, ghost dp: int, ghost name: string)
    requires t.Valid() && |t.nodes| == |t.ref| > ROOTINO && t.ref[ROOTINO] > 0 && forall i :: 0 <= i < |t.ref| ==>
        t.ref[i] >= 0
    requires !PathPanics(t.nodes, path, ROOTINO) && PathParent(t.nodes, path, ROOTINO) == dp && dp in t.named
        && LastName(path) == name && Undotted(name)
    requires var ip := Look(t.nodes, dp, name);
             ip != 0 && IsDir(t.nodes, ip) && forall n :: Undotted(n) ==> Look(t.nodes, ip, n) == 0
    modifies t
    ensures t.Valid() && |t.nodes| == |old(t.nodes)| && t.ref == old(t.ref)
    ensures RmdirDone(old(t.nodes), t.nodes, t.ref, dp, name, Look(old(t.nodes), dp, name))
    ensures t.named == old(t.named) - {Look(old(t.nodes), dp, name)}
  {
    hide Look, Sound, PathParent, PathPanics, LastName, Unlinked, Bare, RmdirDone;
    ghost var was, named, links, ip := t.nodes, t.named, t.links, Look(t.nodes, dp, name);
    RmdirStart(was, t.ref, named, links, dp, name, ip);
    var panic, ok := t.Unlink(path, ROOTINO);
    RmdirLook(was, t.nodes, t.ref, named, links, dp, name, ip);
  }

  /** Directory ip is out of dp; it stays in use if it is referred to. */
  ghost predicate RmdirDone(was: seq<Node>, now: seq<Node>, ref: seq<int>, dp: int, name: string, ip: int) {
    && 0 < ip < |was| == |now| == |ref| && (ref[ip] == 0 ==> now[ip].kind == 0)
    && (forall d :: IsDir(now, d) <==> IsDir(was, d) && (d == ip ==> ref[ip] > 0))
    && (forall d, n :: Look(now, d, n) == if d == ip && ref[ip] == 0 then 0 else DropLook(was, dp, name, d, n))
  }

  lemma RmdirStart(nodes: seq<Node>, ref: seq<int>, named: Naming, links: Links, dp: int, name: string, ip: int)
    requires Sound(nodes, ref, named, links) && dp in named && Look(nodes, dp, name) == ip != 0 && IsDir(nodes, ip)
    requires forall n :: Undotted(n) ==> Look(nodes, ip, n) == 0
    ensures 0 < ip < |nodes| && Removable(nodes, ip) && 0 < dp < |nodes|
  {
    hide Look, Linked, NodesOk;
    NameLinked(nodes, named, links, dp);
    BareIf(nodes, named, links, ip);
    LinkedHead(nodes, named, links, dp);
  }

  lemma LinkedHead(nodes: seq<Node>, named: Naming, links: Links, d: int)
    requires Linked(nodes, named, links) && IsDir(nodes, d)
    ensures d > 0
  {
    assert Headed(nodes[d], d);
  }

  lemma RmdirLook(was: seq<Node>, now: seq<Node>, ref: seq<int>, named: Naming, links: Links, dp: int, name: string,
      ip: int)
    requires Sound(was, ref, named, links) && Undotted(name) && dp in named && Look(was, dp, name) == ip
        && 0 < ip < |was|
    requires IsDir(was, ip) && Bare(was[ip]) && Unlinked(was, now, ref, dp, ip, name)
    ensures RmdirDone(was, now, ref, dp, name, ip)
  {
    hide Look, Linked, Bare;
    var ents :| Removes(was, dp, ents, name) && now == Freed(Freed(Removed(was, dp, ents, ip), ref, dp), ref, ip);
    var mid := Pruned(was, dp, ents, ip);
    LinkedIs(was, named, links);
    RemovedLinked(was, named, links, dp, ents, name, ip);
    NameLinked(mid, named - {ip}, RemovedLinks(was, links, dp, ip, name), dp);
    BareOnce(was, named, links, dp, name, ip);
    assert now == Freed(mid, ref, ip);
    RefNat(was, ref, ip);
    forall d, n ensures Look(now, d, n) == if d == ip && ref[ip] == 0 then 0 else DropLook(was, dp, name, d, n) {
      LookRemoved(was, dp, ents, name, d, n);
      LookSame(Entered(was, dp, ents), mid, d, n);
      if d == ip && ref[ip] == 0 { NoLook(now, d, n); } else { LookSame(mid, now, d, n); }
    }
  }

  /** A process stays in /a/b while /a/b and then /a are removed: its path "../x" makes the kernel panic. */
  method RemovedParent(n: int) returns (panic: bool)
    requires n >= 4
    ensures panic
  {
    hide Look, Sound, PathParent, PathPanics, LastName, Unlinked, NoInode, Elems, Freed;
    var t := new Tree(n);
    FreeFew(t.nodes, ROOTINO, ROOTINO);
    PathOne(t.nodes, ROOTINO);
    var a := Mkdir(t, "/a", ROOTINO, "a");
    Kept(t.nodes, t.ref, t.named, t.links, a);
    t.Release(a);
    FreeFew(t.nodes, ROOTINO, a);
    PathTwo(t.nodes, ROOTINO);
    var b := Mkdir(t, "/a/b", a, "b");
    PathTwo(t.nodes, ROOTINO);
    Rmdir(t, "/a/b", a, "b");
    PathOne(t.nodes, ROOTINO);
    Rmdir(t, "/a", ROOTINO, "a");
    PathUp(t.nodes, b, a);
    var i, name;
    panic, i, name := t.Namex("../x", false, b);
  }

  lemma FreeFew(nodes: seq<Node>, a: int, b: int)
    requires |nodes| >= 4 && forall i :: 0 < i < |nodes| && i != a && i != b ==> nodes[i].kind == 0
    requires a == ROOTINO
    ensures !NoInode(nodes)
  {
    var i := if b == 2 then 3 else 2;
    assert nodes[i].kind == 0;
  }

  lemma Kept(nodes: seq<Node>, ref: seq<int>, named: Naming, links: Links, i: int)
    requires Sound(nodes, ref, named, links) && i in named && 0 <= i < |nodes| == |ref|
    ensures Freed(nodes, ref[i := ref[i] - 1], i) == nodes
  {
    hide Look, Linked, NodesOk, Orphans;
    NameLinked(nodes, named, links, i);
  }

  lemma PathUp(nodes: seq<Node>, b: int, a: int)
    requires 0 < b < |nodes| && 0 < a < |nodes| && Look(nodes, b, "..") == a && nodes[a].kind == 0
    ensures PathPanics(nodes, "../x", b)
  {
    hide Look, Elems;
    Paths();
    PanicsOn(nodes, a, "x", []);
    PanicsOn(nodes, b, "..", ["x"]);
    assert ["x"] + [] == ["x"] && [".."] + ["x"] == ["..", "x"];
  }
}

/**
  When every name leads to an inode in use, so that no path makes the kernel panic: as long as
  no directory is removed while it is referred to, and not always afterwards.
 */
module DirLive {
  import opened Dir
  import opened DirTree
  import opened DirSound

  /** Every name leads to an inode in use that has links. */
  ghost predicate Live(nodes: seq<Node>) {
    forall d, n :: Look(nodes, d, n) != 0 ==> InUse(nodes, Look(nodes, d, n)) && nodes[Look(nodes, d, n)].nlink >= 1
  }

  /** No directory in use was removed. */
  ghost predicate Whole(nodes: seq<Node>, named: Naming) { forall d :: IsDir(nodes, d) ==> d in named }

  /** What a name that counts leads to has links. */
  lemma CountedLinked(nodes: seq<Node>, named: Naming, links: Links, x: Place, i: int)
    requires Linked(nodes, named, links) && 0 < i < |nodes| && Counts(nodes, named, x, i)
    ensures nodes[i].nlink >= 1 && InUse(nodes, i)
  {
    hide Look, Shape, NamedOk, TreeOk, AllOk;
    assert x in links[i];
    assert |links[i]| > 0;
    FileInUse(nodes, i);
  }

  lemma DotIs(nodes: seq<Node>, named: Naming, links: Links, d: int)
    requires Linked(nodes, named, links) && IsDir(nodes, d)
    ensures Look(nodes, d, ".") == d
  {
    hide Look, NamedOk, TreeOk, LinksOk;
    assert Headed(nodes[d], d);
    assert For(nodes[d].ents, 0, ".");
    LookEntry(nodes, d, 0, ".");
  }

  /** A name leads to an inode in use, unless it is ".." of a removed directory. */
  lemma NameLive(nodes: seq<Node>, named: Naming, links: Links, d: int, n: string)
    requires Linked(nodes, named, links) && Look(nodes, d, n) != 0 && (n == ".." ==> d in named)
    ensures InUse(nodes, Look(nodes, d, n)) && (d in named || n != "." ==> nodes[Look(nodes, d, n)].nlink >= 1)
  {
    hide Look, Shape, AllOk, TreeOk, LinksOk;
    var i := Look(nodes, d, n);
    LinkedIs(nodes, named, links);
    LookRange(nodes, d, n);
    if !IsDir(nodes, d) { NoLook(nodes, d, n); }
    if n == "." {
      DotIs(nodes, named, links, d);
      if d in named { NameLinked(nodes, named, links, d); }
    } else {
      CountedLinked(nodes, named, links, (d, n), i);
    }
  }

  lemma NameLinked(nodes: seq<Node>, named: Naming, links: Links, d: int)
    requires Linked(nodes, named, links) && d in named
    ensures IsDir(nodes, d) && nodes[d].nlink >= 1
  {
    hide Look, Shape, AllOk, TreeOk;
    assert HasName(nodes, named, d);
    NamedLinked(nodes, named, links, d);
    assert |links[d]| > 0;
  }

  lemma WholeLive(nodes: seq<Node>, named: Naming, links: Links)
    requires Linked(nodes, named, links) && Whole(nodes, named)
    ensures Live(nodes)
  {
    hide Look, Linked;
    forall d, n | Look(nodes, d, n) != 0 ensures InUse(nodes, Look(nodes, d, n))
        && nodes[Look(nodes, d, n)].nlink >= 1 {
      if !IsDir(nodes, d) { NoLook(nodes, d, n); }
      NameLive(nodes, named, links, d, n);
    }
  }

  // ----- panics -----

  /** A directory in use that was removed, and whose parent is gone. */
  ghost predicate Stranded(nodes: seq<Node>, named: Naming, d: int) {
    IsDir(nodes, d) && d !in named && !InUse(nodes, Look(nodes, d, ".."))
  }

  ghost predicate Safe(nodes: seq<Node>, named: Naming) { forall d :: !Stranded(nodes, named, d) }

  /** The path goes through the ".." of such a directory after k elements, and further. */
  ghost predicate Through(nodes: seq<Node>, named: Naming, i: int, elems: seq<string>, k: int) {
    0 <= k < |elems| - 1 && elems[k] == ".." && Stranded(nodes, named, Walk(nodes, i, elems[..k]))
  }

  lemma ThroughNext(nodes: seq<Node>, named: Naming, i: int, elems: seq<string>, k: int)
    requires 0 < k < |elems| && Look(nodes, i, elems[0]) != 0
    ensures Through(nodes, named, i, elems, k) <==>
            Through(nodes, named, Look(nodes, i, elems[0]), elems[1..], k - 1)
  {
    hide Look, Stranded;
    var a := elems[..k];
    assert a[0] == elems[0] && a[1..] == elems[1..][..k - 1];
  }

  /** A path from an inode in use panics only so ... */
  lemma {:induction false} PanicsWhere(nodes: seq<Node>, named: Naming, links: Links, i: int, elems: seq<string>)
      returns (k: int)
    requires Linked(nodes, named, links) && InUse(nodes, i) && Panics(nodes, i, elems)
    ensures Through(nodes, named, i, elems, k)
    decreases |elems|
  {
    hide Look, Linked;
    var next := Look(nodes, i, elems[0]);
    if !InUse(nodes, next) {
      if !(elems[0] == ".." && i !in named) { NameLive(nodes, named, links, i, elems[0]); }
      if !IsDir(nodes, i) { NoLook(nodes, i, elems[0]); }
      assert elems[..0] == [];
      k := 0;
    } else {
      k := PanicsWhere(nodes, named, links, next, elems[1..]);
      k := k + 1;
      ThroughNext(nodes, named, i, elems, k);
    }
  }

  lemma ParentThere(nodes: seq<Node>, named: Naming, links: Links, d: int)
    requires Linked(nodes, named, links) && IsDir(nodes, d)
    ensures 0 < Look(nodes, d, "..") < |nodes|
  {
    hide Look, NamedOk, TreeOk, LinksOk, CountOk;
    assert Headed(nodes[d], d);
    assert For(nodes[d].ents, 1, "..");
    LookEntry(nodes, d, 1, "..");
    LookRange(nodes, d, "..");
  }

  /** ... and always so. */
  lemma {:induction false} ThroughPanics(nodes: seq<Node>, named: Naming, links: Links, i: int, elems: seq<string>,
      k: int)
    requires Linked(nodes, named, links) && 0 < i < |nodes| && Through(nodes, named, i, elems, k)
    ensures Panics(nodes, i, elems)
    decreases k
  {
    hide Look, Linked;
    LinkedIs(nodes, named, links);
    if k == 0 {
      assert elems[..0] == [];
      ParentThere(nodes, named, links, i);
      assert elems[1..] != [];
    } else {
      assert elems[..k][0] == elems[0];
      var next := Look(nodes, i, elems[0]);
      if next == 0 {
        ZeroDir(nodes, named, links);
      } else {
        LookRange(nodes, i, elems[0]);
        ThroughNext(nodes, named, i, elems, k);
        ThroughPanics(nodes, named, links, next, elems[1..], k - 1);
      }
    }
  }

  lemma ZeroDir(nodes: seq<Node>, named: Naming, links: Links)
    requires Linked(nodes, named, links)
    ensures !IsDir(nodes, 0)
  {
    assert Headed(nodes[0], 0);
  }

  /** Exactly when a path from an inode in use panics. */
  lemma PanicsIff(nodes: seq<Node>, named: Naming, links: Links, i: int, elems: seq<string>)
    requires Linked(nodes, named, links) && InUse(nodes, i) && i > 0
    ensures Panics(nodes, i, elems) <==> exists k :: Through(nodes, named, i, elems, k)
  {
    hide Look, Linked, Through, Panics;
    if Panics(nodes, i, elems) {
      var k := PanicsWhere(nodes, named, links, i, elems);
    }
    if k :| Through(nodes, named, i, elems, k) {
      ThroughPanics(nodes, named, links, i, elems, k);
    }
  }

  lemma SafeLook(nodes: seq<Node>, named: Naming, links: Links, d: int, n: string)
    requires Linked(nodes, named, links) && Safe(nodes, named) && Look(nodes, d, n) != 0
    ensures InUse(nodes, Look(nodes, d, n))
  {
    hide Look, Linked;
    if !IsDir(nodes, d) { NoLook(nodes, d, n); }
    if n == ".." && d !in named {
      assert !Stranded(nodes, named, d);
    } else {
      NameLive(nodes, named, links, d, n);
    }
  }

  lemma {:induction false} SafeWalk(nodes: seq<Node>, named: Naming, links: Links, i: int, elems: seq<string>)
    requires Linked(nodes, named, links) && Safe(nodes, named) && InUse(nodes, i)
    ensures !Panics(nodes, i, elems) && (Walk(nodes, i, elems) == 0 || InUse(nodes, Walk(nodes, i, elems)))
    decreases |elems|
  {
    hide Look, Linked, Safe;
    if elems != [] && Look(nodes, i, elems[0]) != 0 {
      SafeLook(nodes, named, links, i, elems[0]);
      SafeWalk(nodes, named, links, Look(nodes, i, elems[0]), elems[1..]);
    }
  }

  /** Without such a directory none of the calls panics. */
  lemma SafeCalls(nodes: seq<Node>, ref: seq<int>, named: Naming, links: Links, from: string, to: string, cwd: int)
    requires Sound(nodes, ref, named, links) && Safe(nodes, named) && 0 < cwd < |nodes| == |ref| && ref[cwd] > 0
    ensures !PathPanics(nodes, from, cwd) && !CreatePanics(nodes, from, cwd) && !LinkPanics(nodes, from, to, cwd)
  {
    hide Look, Panics, Walk, WalkParent, Elems, LastName, Safe, NodesOk, Orphans, Linked;
    StartOk(nodes, ref, named, links, cwd);
    SafeWalk(nodes, named, links, Start(from, cwd), Elems(from, 0));
    SafeWalk(nodes, named, links, Start(to, cwd), Elems(to, 0));
    if Look(nodes, PathParent(nodes, from, cwd), LastName(from)) != 0 {
      SafeLook(nodes, named, links, PathParent(nodes, from, cwd), LastName(from));
    }
  }

  lemma WholeSafe(nodes: seq<Node>, named: Naming)
    requires Whole(nodes, named)
    ensures Safe(nodes, named)
  {
  }

  // ----- what keeps every name alive -----

  lemma CreatedWhole(was: seq<Node>, named: Naming, dp: int, ents: seq<Entry<string>>, ip: int, kind: int, name: string)
    requires Whole(was, named) && IsDir(was, dp) && 0 <= ip < |was| && ip != dp
    ensures Whole(Created(was, dp, ents, ip, kind), CreatedNames(named, ip, kind, name))
  {
    var now := Created(was, dp, ents, ip, kind);
    forall d | IsDir(now, d) ensures d in CreatedNames(named, ip, kind, name) {
      if d != ip { assert IsDir(was, d); }
    }
  }

  lemma LinkWhole(was: seq<Node>, now: seq<Node>, named: Naming, ip: int, dp: int, name: string)
    requires Whole(was, named) && LinkMade(was, now, ip, dp, name)
    ensures Whole(now, named)
  {
    hide Look;
    forall d | IsDir(now, d) ensures d in named { assert IsDir(was, d); }
  }

  lemma FreedWhole(nodes: seq<Node>, ref: seq<int>, named: Naming, i: int)
    requires Whole(nodes, named) && 0 <= i < |nodes| == |ref|
    ensures Whole(Freed(nodes, ref, i), named)
  {
    forall d | IsDir(Freed(nodes, ref, i), d) ensures d in named { assert IsDir(nodes, d); }
  }

  /** An empty directory has one link: its name. */
  lemma BareOnce(nodes: seq<Node>, named: Naming, links: Links, dp: int, name: string, ip: int)
    requires Linked(nodes, named, links) && 0 < dp < |nodes| && Undotted(name) && Look(nodes, dp, name) == ip
    requires 0 < ip && IsDir(nodes, ip) && Bare(nodes[ip])
    ensures nodes[ip].nlink == 1
  {
    hide Look, Shape, AllOk, NamedOk, LinksOk, TreeOk;
    LinkedIs(nodes, named, links);
    ChildIs(nodes, named, links, dp, name, ip);
    forall x | x in links[ip] ensures x == (dp, name) { OnlyName(nodes, named, links, dp, name, ip, x); }
    assert links[ip] == {(dp, name)};
  }

  lemma OnlyName(nodes: seq<Node>, named: Naming, links: Links, dp: int, name: string, ip: int, x: Place)
    requires Linked(nodes, named, links) && ChildOf(nodes, named, dp, name, ip) && 0 < ip && IsDir(nodes, ip)
        && Bare(nodes[ip]) && x in links[ip]
    ensures x == (dp, name)
  {
    hide Look, Shape, AllOk, Bare;
    assert Counts(nodes, named, x, ip);
    if x.1 == ".." {
      assert HasName(nodes, named, x.0);
      BareNone(nodes, named, links, ip, named[x.0]);
    } else {
      assert ChildOf(nodes, named, x.0, x.1, ip);
    }
  }

  lemma BareNone(nodes: seq<Node>, named: Naming, links: Links, ip: int, n: string)
    requires Linked(nodes, named, links) && IsDir(nodes, ip) && Bare(nodes[ip]) && Undotted(n)
    ensures Look(nodes, ip, n) == 0
  {
    hide Look, NamedOk, TreeOk, LinksOk;
    assert Headed(nodes[ip], ip);
    LookEntry(nodes, ip, 0, n);
  }

  /** sys_unlink keeps every name alive exactly if it does not remove a directory that is referred to. */
  lemma UnlinkLiveIff(
    was: seq<Node>, now: seq<Node>, ref: seq<int>, named: Naming, links: Links, now2: Links, dp: int, name: string,
        ip: int)
    requires Sound(was, ref, named, links) && Whole(was, named) && Look(was, dp, name) == ip && Removable(was, ip)
        && Undotted(name)
    requires Unlinked(was, now, ref, dp, ip, name) && Sound(now, ref, RemovedNames(was, named, ip), now2)
    ensures Live(now) <==> !(IsDir(was, ip) && ref[ip] > 0)
    ensures Live(now) <==> Whole(now, RemovedNames(was, named, ip))
  {
    hide Look, Linked, Live;
    var ents :| Removes(was, dp, ents, name) && now == Freed(Freed(Removed(was, dp, ents, ip), ref, dp), ref, ip);
    RemovedLinked(was, named, links, dp, ents, name, ip);
    if IsDir(was, ip) {
      BareOnce(was, named, links, dp, name, ip);
      RefNat(was, ref, ip);
    }
    if IsDir(was, ip) && ref[ip] > 0 {
      assert IsDir(now, ip) && now[ip].nlink == 0;
      DotIs(now, RemovedNames(was, named, ip), now2, ip);
      NotLive(now, ip);
    } else {
      forall d | IsDir(now, d) ensures d in RemovedNames(was, named, ip)
          { assert IsDir(was, d) && (d == ip ==> !IsDir(was, ip)); }
      WholeLive(now, RemovedNames(was, named, ip), now2);
    }
  }

  lemma RefNat(nodes: seq<Node>, ref: seq<int>, i: int)
    requires NodesOk(nodes, ref) && 0 <= i < |ref|
    ensures ref[i] >= 0
  {
  }

  lemma NotLive(nodes: seq<Node>, d: int)
    requires 0 < d < |nodes| && Look(nodes, d, ".") == d && nodes[d].nlink == 0
    ensures !Live(nodes)
  {
  }

  // ----- what strands a directory -----

  /** sys_unlink of ip in dp frees inode i. */
  predicate Gone(was: seq<Node>, ref: seq<int>, dp: int, ip: int, i: int)
    requires 0 <= dp < |was| == |ref| && 0 <= ip < |was|
  {
    || (i == ip && was[ip].nlink == 1 && ref[ip] == 0)
    || (i == dp && IsDir(was, ip) && was[dp].nlink == 1 && ref[dp] == 0)
  }

  /** d will be a removed directory in use, and its parent freed. */
  ghost predicate Strands(was: seq<Node>, ref: seq<int>, named: Naming, dp: int, ip: int, d: int)
    requires 0 <= dp < |was| == |ref| && 0 <= ip < |was|
  {
    && IsDir(was, d) && (d !in named || d == ip) && !Gone(was, ref, dp, ip, d)
    && Gone(was, ref, dp, ip, Look(was, d, ".."))
  }

  /** What sys_unlink leaves in use, and where ".." leads. */
  lemma UnlinkNow(was: seq<Node>, now: seq<Node>, ref: seq<int>, named: Naming, links: Links, dp: int, name: string,
      ip: int)
    requires Sound(was, ref, named, links) && Undotted(name) && Look(was, dp, name) == ip
    requires Unlinked(was, now, ref, dp, ip, name)
    ensures 0 < dp < |was| == |ref| && 0 < ip < |was|
    ensures |now| == |was| && (forall i :: InUse(now, i) <==> InUse(was, i) && !Gone(was, ref, dp, ip, i))
    ensures forall d :: IsDir(now, d) <==> IsDir(was, d) && !Gone(was, ref, dp, ip, d)
    ensures forall d :: IsDir(now, d) ==> Look(now, d, "..") == Look(was, d, "..")
  {
    hide Look, Linked, Removes, NodesOk;
    var ents :| Removes(was, dp, ents, name) && now == Freed(Freed(Removed(was, dp, ents, ip), ref, dp), ref, ip);
    var mid := Removed(was, dp, ents, ip);
    RemovesIs(was, dp, ents, name);
    RemovedLinked(was, named, links, dp, ents, name, ip);
    LinkedIs(was, named, links);
    FileInUse(was, ip);
    forall d | IsDir(now, d) ensures Look(now, d, "..") == Look(was, d, "..") {
      LookRemoved(was, dp, ents, name, d, "..");
      LookSame(Entered(was, dp, ents), now, d, "..");
    }
  }

  /** From a state without a stranded directory, sys_unlink makes one exactly if it frees the parent of one removed. */
  lemma UnlinkSafeIff(was: seq<Node>, now: seq<Node>, ref: seq<int>, named: Naming, links: Links, dp: int,
      name: string, ip: int)
    requires Sound(was, ref, named, links) && Safe(was, named) && Undotted(name) && Look(was, dp, name) == ip
    requires Unlinked(was, now, ref, dp, ip, name)
    ensures Safe(now, RemovedNames(was, named, ip)) <==> !exists d :: Strands(was, ref, named, dp, ip, d)
  {
    hide Look, Linked, NodesOk, Orphans, Unlinked, Gone;
    UnlinkNow(was, now, ref, named, links, dp, name, ip);
    var named2 := RemovedNames(was, named, ip);
    forall d ensures Stranded(now, named2, d) <==> Strands(was, ref, named, dp, ip, d) {
      if IsDir(was, d) { ParentThere(was, named, links, d); }
      assert !Stranded(was, named, d);
      if d in named && IsDir(was, d) { NamedParent(was, named, links, d); }
    }
  }

  /** The parent of a directory with a name is in use. */
  lemma NamedParent(nodes: seq<Node>, named: Naming, links: Links, d: int)
    requires Linked(nodes, named, links) && d in named
    ensures InUse(nodes, Look(nodes, d, ".."))
  {
    hide Look, Shape, AllOk, LinksOk, CountOk, TreeOk;
    assert HasName(nodes, named, d);
  }

  /** So does iput, when it frees the parent of a removed directory in use. */
  lemma FreedSafeIff(nodes: seq<Node>, ref: seq<int>, named: Naming, links: Links, i: int)
    requires Linked(nodes, named, links) && Safe(nodes, named) && 0 < i < |nodes| == |ref|
    ensures Safe(Freed(nodes, ref, i), named) <==>
            !(ref[i] == 0 && nodes[i].nlink == 0 && exists d :: Orphaned(nodes, named, i, d))
  {
    hide Look, Linked;
    var now := Freed(nodes, ref, i);
    if ref[i] == 0 && nodes[i].nlink == 0 {
      forall d ensures Stranded(now, named, d) <==> Orphaned(nodes, named, i, d) {
        assert !Stranded(nodes, named, d);
        if IsDir(nodes, d) { ParentThere(nodes, named, links, d); }
        if d != i { LookSame(nodes, now, d, ".."); }
      }
    }
  }

  /** d is a removed directory in use, and i its parent. */
  ghost predicate Orphaned(nodes: seq<Node>, named: Naming, i: int, d: int) {
    IsDir(nodes, d) && d !in named && d != i && Look(nodes, d, "..") == i
  }

  lemma CreatedSafe(was: seq<Node>, named: Naming, dp: int, ents: seq<Entry<string>>, ip: int, kind: int, name: string)
    requires Safe(was, named) && Adds(was, dp, ents, name, ip) && 0 < ip < |was| && 0 < dp && was[ip].kind == 0
        && kind != 0
    ensures Safe(Created(was, dp, ents, ip, kind), CreatedNames(named, ip, kind, name))
  {
    hide Look, Adds;
    AddsIs(was, dp, ents, name, ip);
    var now, named2 := Created(was, dp, ents, ip, kind), CreatedNames(named, ip, kind, name);
    forall d ensures !Stranded(now, named2, d) {
      assert !Stranded(was, named, d);
      if IsDir(was, d) { CreatedParent(was, dp, ents, ip, kind, name, d); }
    }
  }

  lemma CreatedParent(was: seq<Node>, dp: int, ents: seq<Entry<string>>, ip: int, kind: int, name: string, d: int)
    requires Adds(was, dp, ents, name, ip) && 0 < ip < |was| && 0 < dp && was[ip].kind == 0 && IsDir(was, d)
        && kind != 0
    ensures Look(Created(was, dp, ents, ip, kind), d, "..") == Look(was, d, "..")
  {
    hide Look, Names, Distinct;
    if kind == T_DIR {
      LookGrafted(was, dp, ents, name, ip, d, "..");
    } else {
      LookAdded(was, dp, ents, name, ip, d, "..");
      LookSame(Entered(was, dp, ents), Created(was, dp, ents, ip, kind), d, "..");
    }
  }

  lemma LinkSafe(was: seq<Node>, now: seq<Node>, named: Naming, ip: int, dp: int, name: string)
    requires Safe(was, named) && LinkMade(was, now, ip, dp, name) && !IsDir(was, ip)
    ensures Safe(now, named)
  {
    hide Look, Adds;
    forall d ensures !Stranded(now, named, d) {
      assert !Stranded(was, named, d);
      if IsDir(was, d) {
        LookAdded(was, dp, now[dp].ents, name, ip, d, "..");
        LookSame(Entered(was, dp, now[dp].ents), now, d, "..");
        AddsIs(was, dp, now[dp].ents, name, ip);
      }
    }
  }

  /** What becomes of both properties in sys_unlink. */
  ghost predicate UnlinkKeeps(was: seq<Node>, ref: seq<int>, named: Naming, now: seq<Node>, named2: Naming, dp: int,
      ip: int)
  {
    && 0 < dp < |was| == |ref| && 0 < ip < |was|
    && (Safe(was, named) ==> (Safe(now, named2) <==> !exists d :: Strands(was, ref, named, dp, ip, d)))
    && (Whole(was, named) ==> (Whole(now, named2) <==> !(IsDir(was, ip) && ref[ip] > 0)))
  }

  lemma UnlinkKept(was: seq<Node>, now: seq<Node>, ref: seq<int>, named: Naming, links: Links, links2: Links, dp: int,
      name: string, ip: int)
    requires Sound(was, ref, named, links) && Look(was, dp, name) == ip && Removable(was, ip) && Undotted(name)
    requires Unlinked(was, now, ref, dp, ip, name) && Sound(now, ref, RemovedNames(was, named, ip), links2)
    ensures UnlinkKeeps(was, ref, named, now, RemovedNames(was, named, ip), dp, ip)
  {
    hide Look, Sound, Safe, Whole, Live, Removable, RemovedNames, Strands;
    if Safe(was, named) { UnlinkSafeIff(was, now, ref, named, links, dp, name, ip); }
    if Whole(was, named) { UnlinkLiveIff(was, now, ref, named, links, links2, dp, name, ip); }
  }

  lemma CreateKept(was: seq<Node>, named: Naming, dp: int, ents: seq<Entry<string>>, ip: int, kind: int, name: string)
    requires Adds(was, dp, ents, name, ip) && 0 < ip < |was| && 0 < dp && was[ip].kind == 0 && kind != 0
    ensures Safe(was, named) ==> Safe(Created(was, dp, ents, ip, kind), CreatedNames(named, ip, kind, name))
    ensures Whole(was, named) ==> Whole(Created(was, dp, ents, ip, kind), CreatedNames(named, ip, kind, name))
  {
    hide Look, Safe, Whole, Adds, Created, CreatedNames;
    AddsIs(was, dp, ents, name, ip);
    if Safe(was, named) { CreatedSafe(was, named, dp, ents, ip, kind, name); }
    if Whole(was, named) { CreatedWhole(was, named, dp, ents, ip, kind, name); }
  }

  lemma LinkKept(was: seq<Node>, now: seq<Node>, named: Naming, ip: int, dp: int, name: string)
    requires LinkMade(was, now, ip, dp, name) && !IsDir(was, ip)
    ensures (Safe(was, named) ==> Safe(now, named)) && (Whole(was, named) ==> Whole(now, named))
  {
    hide Safe, Whole, LinkMade;
    if Safe(was, named) { LinkSafe(was, now, named, ip, dp, name); }
    if Whole(was, named) { LinkWhole(was, now, named, ip, dp, name); }
  }

  /** Before a call. */
  lemma Calm(nodes: seq<Node>, ref: seq<int>, named: Naming, links: Links, from: string, to: string, cwd: int)
    requires Sound(nodes, ref, named, links) && 0 < cwd < |nodes| == |ref| && ref[cwd] > 0
    ensures Whole(nodes, named) ==> Safe(nodes, named)
    ensures Safe(nodes, named) ==>
        !PathPanics(nodes, from, cwd) && !CreatePanics(nodes, from, cwd) && !LinkPanics(nodes, from, to, cwd)
  {
    hide Sound, Safe, Whole, PathPanics, CreatePanics, LinkPanics;
    if Whole(nodes, named) { WholeSafe(nodes, named); }
    if Safe(nodes, named) { SafeCalls(nodes, ref, named, links, from, to, cwd); }
  }

  // ----- create or link, then unlink -----

  /** Unlinking what was created, once nothing refers to it, gives the tree back. */
  lemma CreateUnlink(was: seq<Node>, mid: seq<Node>, now: seq<Node>, ref: seq<int>, dp: int, ip: int, kind: int,
      name: string)
    requires 0 < dp < |was| == |mid| && 0 < ip < |was| && was[ip] == EMPTY && Adds(was, dp, mid[dp].ents, name, ip)
    requires mid == Created(was, dp, mid[dp].ents, ip, kind) && kind != 0
    requires Unlinked(mid, now, ref, dp, ip, name) && ref[ip] == 0 && (was[dp].nlink >= 1 || ref[dp] > 0)
    ensures |now| == |was| && now == was[dp := was[dp].(ents := now[dp].ents)]
    ensures Distinct(was[dp].ents) && Distinct(now[dp].ents) && Names(now[dp].ents) == Names(was[dp].ents)
  {
    hide Look, Names, NodeOk, Headed, Distinct;
    var ents :| Removes(mid, dp, ents, name) && now == Freed(Freed(Removed(mid, dp, ents, ip), ref, dp), ref, ip);
    assert now[dp].ents == ents;
    AddRemove(was, mid, dp, ents, name, ip);
  }

  /** Unlinking a name that sys_link made gives the tree back. */
  lemma LinkUnlink(was: seq<Node>, mid: seq<Node>, now: seq<Node>, ref: seq<int>, dp: int, ip: int, name: string)
    requires 0 < dp < |was| && LinkMade(was, mid, ip, dp, name) && !IsDir(was, ip) && was[ip].nlink >= 1
    requires Unlinked(mid, now, ref, dp, ip, name) && (was[dp].nlink >= 1 || ref[dp] > 0)
    ensures |now| == |was| && now == was[dp := was[dp].(ents := now[dp].ents)]
    ensures Distinct(was[dp].ents) && Distinct(now[dp].ents) && Names(now[dp].ents) == Names(was[dp].ents)
  {
    hide Look, Names, NodeOk, Headed, Distinct;
    var ents :| Removes(mid, dp, ents, name) && now == Freed(Freed(Removed(mid, dp, ents, ip), ref, dp), ref, ip);
    assert now[dp].ents == ents;
    AddRemove(was, mid, dp, ents, name, ip);
  }

  lemma AddRemove(was: seq<Node>, mid: seq<Node>, dp: int, ents: seq<Entry<string>>, name: string, ip: int)
    requires 0 < dp < |was| == |mid| && Adds(was, dp, mid[dp].ents, name, ip) && Removes(mid, dp, ents, name)
    ensures Distinct(was[dp].ents) && Distinct(ents) && Names(ents) == Names(was[dp].ents)
  {
    hide Names;
    LookNames(was, dp, name);
    assert Names(was[dp].ents)[name := ip] - {name} == Names(was[dp].ents);
  }
}

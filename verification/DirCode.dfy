/**
  kernel/fs.c iget, iput, ialloc, dirlookup, dirlink and namex, and kernel/sysfile.c create, sys_link,
  sys_unlink, as written.
 */
module DirCode {
  import opened Dir
  import opened DirTree
  import opened DirSound
  import opened DirLive

  /** Every entry is in use: the next one needs room. */
  predicate Full(n: Node) { FirstFree(n.ents, 0) == |n.ents| }

  /** create on a name that is there: only an open of a file or device succeeds. */
  predicate Reusable(nodes: seq<Node>, i: int, kind: int) {
    kind == T_FILE && 0 <= i < |nodes| && nodes[i].kind in {T_FILE, T_DEVICE}
  }

  predicate NoInode(nodes: seq<Node>) { forall i :: 0 < i < |nodes| ==> nodes[i].kind != 0 }

  /** create of a new name fails: no free inode, or no block for an entry. */
  predicate NoSpace(nodes: seq<Node>, dp: int, kind: int, room: seq<bool>)
    requires 0 <= dp < |nodes| && |room| == 3
  {
    NoInode(nodes) || (kind == T_DIR && !(room[0] && room[1])) || (Full(nodes[dp]) && !room[2])
  }

  class Tree {
    var nodes: seq<Node>
    var ref: seq<int>
    ghost var named: Naming
    ghost var links: Links

    ghost predicate Valid()
      reads this
    {
      Sound(nodes, ref, named, links)
    }

    /** What mkfs makes: a root directory that names itself, referred to by the first process. */
    constructor (n: int)
      requires n > ROOTINO
      ensures Valid() && |nodes| == n && ref == seq(n, i => if i == ROOTINO then 1 else 0)
      ensures Whole(nodes, named)
      ensures named == map[ROOTINO := ""] && forall i :: 0 <= i < n ==>
          nodes[i].kind == if i == ROOTINO then T_DIR else 0
      ensures forall d, name :: Look(nodes, d, name) == if d == ROOTINO && !Undotted(name) then ROOTINO else 0
    {
      nodes := seq(n, i => if i == ROOTINO then Node(T_DIR, 1, [Entry(ROOTINO, "."), Entry(ROOTINO, "..")]) else EMPTY);
      ref := seq(n, i => if i == ROOTINO then 1 else 0);
      named := map[ROOTINO := ""];
      links := seq(n, i => if i == ROOTINO then {(ROOTINO, "..")} else {});
      new;
      RootSound(n, nodes, ref, named, links);
    }

    /** One more reference to inode i, in use or not. */
    method Iget(i: int)
      requires 0 <= i < |ref|
      modifies this`ref
      ensures ref == old(ref)[i := old(ref)[i] + 1]
    {
      ref := ref[i := ref[i] + 1];
    }

    /** One reference fewer; an inode without links or other references is freed. */
    method Iput(i: int)
      requires 0 <= i < |nodes| == |ref| && ref[i] > 0
      modifies this`nodes, this`ref
      ensures ref == old(ref)[i := old(ref)[i] - 1] && nodes == Freed(old(nodes), ref, i)
    {
      if ref[i] == 1 && nodes[i].nlink == 0 {
        nodes := nodes[i := EMPTY];
      }
      ref := ref[i := ref[i] - 1];
    }

    /** idup, by a holder of a reference. */
    method Idup(i: int)
      requires Valid() && 0 < i < |ref| && ref[i] > 0
      modifies this`ref
      ensures Valid() && ref == old(ref)[i := old(ref)[i] + 1]
    {
      hide Linked;
      Iget(i);
    }

    /** iput, by a holder of a reference. */
    method Release(i: int)
      requires Valid() && 0 < i < |nodes| == |ref| && ref[i] > 0
      modifies this
      ensures Valid() && ref == old(ref)[i := old(ref)[i] - 1] && nodes == Freed(old(nodes), ref, i)
          && named == old(named)
      ensures Whole(old(nodes), old(named)) ==> Whole(nodes, named)
      ensures Safe(old(nodes), old(named)) ==>
          (Safe(nodes, named) <==>
           !(ref[i] == 0 && old(nodes)[i].nlink == 0 && exists d :: Orphaned(old(nodes), old(named), i, d)))
    {
      hide Sound, Safe, Whole, Orphaned;
      FreedKept(nodes, ref, named, links, i);
      ghost var r := ref[i := ref[i] - 1];
      FreedSound(nodes, ref, named, links, i);
      links := FreedLinks(nodes, r, links, i);
      Iput(i);
    }

    /** Gives back the reference taken since ref was was. */
    method Drop(i: int, ghost was: seq<int>)
      requires Orphans(nodes, was) && 0 <= i < |was| && ref == was[i := was[i] + 1] && was[i] >= 0 && nodes[i].kind != 0
      modifies this`nodes, this`ref
      ensures nodes == old(nodes) && ref == was
    {
      Iput(i);
    }

    /** Takes a reference to next, in use or not, and gives back the one to i. */
    method Step(i: int, next: int, ghost was: seq<int>)
      requires Orphans(nodes, was) && 0 <= i < |was| && ref == was[i := was[i] + 1] && nodes[i].kind != 0
      requires 0 <= next < |was| && was[i] >= 0
      modifies this`nodes, this`ref
      ensures nodes == old(nodes) && ref == was[next := was[next] + 1]
    {
      Iget(next);
      Iput(i);
    }

    /** The first free inode, marked in use, with one reference; 0 if there is none. */
    method Ialloc(kind: int) returns (i: int)
      requires NodesOk(nodes, ref) && kind != 0
      modifies this`nodes, this`ref
      ensures i == 0 <==> NoInode(old(nodes))
      ensures i == 0 ==> nodes == old(nodes) && ref == old(ref)
      ensures i != 0 ==>
          0 < i < |old(nodes)| == |old(ref)| && old(nodes)[i].kind == 0 && nodes == old(nodes)[i := Node(kind, 0, [])]
      ensures i != 0 ==> old(ref)[i] == 0 && ref == old(ref)[i := 1]
    {
      i := 1;
      while i < |nodes|
        invariant 1 <= i <= |nodes| && nodes == old(nodes) && ref == old(ref) && forall j :: 0 < j < i ==>
            nodes[j].kind != 0
      {
        if nodes[i].kind == 0 {
          nodes := nodes[i := Node(kind, 0, [])];
          Iget(i);
          return;
        }
        i := i + 1;
      }
      i := 0;
    }

    /** The inode that directory d names, and the entry; 0 if none. */
    method Dirlookup(d: int, name: string) returns (i: int, off: int)
      requires AllOk(nodes) && IsDir(nodes, d) && |name| <= DIRSIZ
      ensures i == Look(nodes, d, name) && 0 <= i < |nodes|
      ensures i != 0 ==> For(nodes[d].ents, off, name) && nodes[d].ents[off].inum == i
    {
      hide Look;
      assert NodeOk(nodes[d], |nodes|);
      off := 0;
      while off < |nodes[d].ents|
        invariant 0 <= off <= |nodes[d].ents| && forall k :: 0 <= k < off ==> !For(nodes[d].ents, k, name)
      {
        var de := nodes[d].ents[off];
        if de.inum != 0 && Cut(name) == Cut(de.name) {
          assert For(nodes[d].ents, off, name);
          LookEntry(nodes, d, off, name);
          return de.inum, off;
        }
        off := off + 1;
      }
      LookEntry(nodes, d, 0, name);
      return 0, 0;
    }

    /** Adds an entry; fails if the name is there, or if a new entry is needed and there is no room. */
    method Dirlink(d: int, name: string, inum: int, room: bool) returns (ok: bool)
      requires AllOk(nodes) && IsDir(nodes, d) && |name| <= DIRSIZ && 0 < inum < |nodes|
      modifies this`nodes
      ensures ok <==> Look(old(nodes), d, name) == 0 && (room || !Full(old(nodes)[d]))
      ensures !ok ==> nodes == old(nodes)
      ensures ok ==> AllOk(nodes) && IsDir(nodes, d) && NodeOk(nodes[d], |nodes|) && NodeOk(old(nodes)[d], |nodes|)
      ensures ok ==>
          nodes == Entered(old(nodes), d, nodes[d].ents)
          && nodes[d].ents == Placed(old(nodes)[d].ents, Entry(inum, name))
      ensures ok ==> Names(nodes[d].ents) == Names(old(nodes)[d].ents)[name := inum]
    {
      hide Look;
      var ip, _ := Dirlookup(d, name);
      if ip != 0 { return false; }
      var n := nodes[d];
      LookNames(nodes, d, name);
      var off := 0;
      while off < |n.ents|
        invariant 0 <= off <= |n.ents| && FirstFree(n.ents, 0) == FirstFree(n.ents, off)
      {
        if n.ents[off].inum == 0 { break; }
        off := off + 1;
      }
      AddName(n.ents, off, Cut(name), inum);
      if off < |n.ents| {
        nodes := nodes[d := n.(ents := n.ents[off := Entry(inum, Cut(name))])];
      } else {
        if !room { return false; }
        nodes := nodes[d := n.(ents := n.ents + [Entry(inum, Cut(name))])];
      }
      PlacedOk(old(nodes), d, Entry(inum, name));
      return true;
    }

    /** namex: the inode the path leads to (or, if parent, its directory and last element), with one more reference. */
    method Namex(path: string, parent: bool, cwd: int) returns (panic: bool, i: int, name: string)
      requires Valid() && 0 < cwd < |nodes| == |ref| && ref[cwd] > 0
      modifies this`nodes, this`ref
      ensures !panic ==> 0 <= i < |nodes| == |old(ref)| && |name| <= DIRSIZ
      ensures nodes == old(nodes) && (panic <==> PathPanics(nodes, path, cwd))
      ensures !panic ==> i == if parent then PathParent(nodes, path, cwd) else PathInode(nodes, path, cwd)
      ensures !panic && parent && i != 0 ==> name == LastName(path) && IsDir(nodes, i)
      ensures !panic && (i == 0 || InUse(nodes, i)) ==> Valid()
      ensures !panic ==> ref == if i == 0 then old(ref) else old(ref)[i := old(ref)[i] + 1]
    {
      hide Look, Elems, Sound, AllOk, Orphans, LastName, PathInode, PathParent, PathPanics, Along;
      ghost var ref0, before: seq<string> := ref, [];
      StartOk(nodes, ref, named, links, cwd);
      if path != "" && path[0] == '/' {
        i := ROOTINO;
      } else {
        i := cwd;
      }
      Iget(i);
      name := "";
      var p := 0;
      AlongStart(nodes, path, cwd, parent);
      while true
        invariant nodes == old(nodes) && AllOk(nodes) && Orphans(nodes, ref0) && |nodes| == |ref0| && 0 <= p <= |path|
            && 0 < i < |nodes|
        invariant ref == ref0[i := ref0[i] + 1] && |name| <= DIRSIZ && (forall j :: 0 <= j < |ref0| ==> ref0[j] >= 0)
        invariant Along(nodes, path, cwd, parent, before, i, p) && (before == [] ==> nodes[i].kind != 0)
        decreases |path| - p
      {
        var some, elem, r := Skipelem(path, p);
        if !some { break; }
        if nodes[i].kind == 0 {
          AlongFree(nodes, path, cwd, parent, before, i, p);
          return true, 0, name;  // panic("ilock: no type")
        }
        name := elem;
        if nodes[i].kind != T_DIR {
          AlongFile(nodes, path, cwd, parent, before, i, p, elem, r);
          Drop(i, ref0);
          return false, 0, name;
        }
        if parent && r == |path| {
          AlongParent(nodes, path, cwd, before, i, p, elem);
          RefSound(nodes, ref0, named, links, i);
          return false, i, name;
        }
        var next, _ := Dirlookup(i, name);
        if next == 0 {
          AlongNone(nodes, path, cwd, parent, before, i, p, elem, r);
          Drop(i, ref0);
          return false, 0, name;
        }
        AlongStep(nodes, path, cwd, parent, before, i, p, elem, r);
        Step(i, next, ref0);
        i, p, before := next, r, before + [elem];
      }
      AlongEnd(nodes, path, cwd, parent, before, i, p);
      if parent {
        Drop(i, ref0);
        return false, 0, name;
      }
      panic := false;
      if nodes[i].kind != 0 { RefSound(nodes, ref0, named, links, i); }
    }

    /** The new inode's own entries, if it is a directory; fails if there is no room for one. */
    method Dots(ip: int, dp: int, kind: int, room: seq<bool>) returns (ok: bool)
      requires AllOk(nodes) && |room| == 3 && 0 < ip < |nodes| && 0 < dp < |nodes| && kind != 0
          && nodes[ip] == Node(kind, 1, [])
      modifies this`nodes
      ensures AllOk(nodes) && |nodes| == |old(nodes)| && nodes == old(nodes)[ip := nodes[ip]]
          && (ok <==> kind == T_DIR ==> room[0] && room[1])
      ensures ok ==> nodes[ip] == Node(kind, 1, if kind == T_DIR then [Entry(ip, "."), Entry(dp, "..")] else [])
      ensures nodes[ip].kind == kind
    {
      hide Look, AllOk, Distinct, NodeOk;
      ok := true;
      if kind == T_DIR {
        NewLook(nodes, ip, [], ".");
        ok := Dirlink(ip, ".", ip, room[0]);
        if ok {
          assert nodes[ip].ents == [Entry(ip, ".")];
          NewLook(nodes, ip, nodes[ip].ents, "..");
          ok := Dirlink(ip, "..", dp, room[1]);
        }
      }
    }

    /** Gives the new inode up, and the reference to its directory. */
    method Abandon(ip: int, dp: int, ghost nodes0: seq<Node>, ghost ref0: seq<int>)
      requires Orphans(nodes0, ref0) && 0 < ip < |nodes0| == |nodes| && 0 < dp < |nodes0| && ip != dp
          && nodes0[ip] == EMPTY
      requires nodes == nodes0[ip := nodes[ip]] && ref == ref0[dp := ref0[dp] + 1][ip := 1] && ref0[ip] == 0
          && ref0[dp] >= 0
      requires nodes0[dp].kind != 0
      modifies this`nodes, this`ref
      ensures nodes == nodes0 && ref == ref0
    {
      nodes := nodes[ip := nodes[ip].(nlink := 0)];
      Iput(ip);
      assert nodes == nodes0;
      assert ref == ref0[dp := ref0[dp] + 1];
      Drop(dp, ref0);
    }

    /** Counts the new directory's ".." and gives the reference to its parent back. */
    method Settle(dp: int, ip: int, ghost nodes0: seq<Node>, ghost ref0: seq<int>)
      requires Orphans(nodes0, ref0) && 0 < ip < |nodes0| == |nodes| && 0 < dp < |nodes0| && ip != dp
          && nodes0[dp].kind != 0 && nodes0[dp].nlink >= 0
      requires nodes == nodes0[ip := nodes[ip]][dp := nodes0[dp].(ents := nodes[dp].ents)]
      requires nodes[ip] ==
          Node(nodes[ip].kind, 1, if nodes[ip].kind == T_DIR then [Entry(ip, "."), Entry(dp, "..")] else [])
      requires ref == ref0[dp := ref0[dp] + 1][ip := 1] && ref0[dp] >= 0
      modifies this`nodes, this`ref
      ensures |nodes| == |nodes0| && nodes == Created(nodes0, dp, nodes[dp].ents, ip, old(nodes)[ip].kind)
          && ref == ref0[ip := 1]
      ensures nodes[dp].ents == old(nodes)[dp].ents
    {
      if nodes[ip].kind == T_DIR {
        nodes := nodes[dp := nodes[dp].(nlink := nodes[dp].nlink + 1)];
      }
      Iput(dp);
    }

    /** A new inode under a new name in directory dp, to which a reference was taken. */
    method Make(dp: int, name: string, kind: int, room: seq<bool>, ghost ref0: seq<int>) returns (ip: int)
      requires Sound(nodes, ref0, named, links) && 0 < dp < |nodes| == |ref0| && IsDir(nodes, dp)
          && ref == ref0[dp := ref0[dp] + 1]
      requires kind != 0 && |room| == 3 && |name| <= DIRSIZ && Look(nodes, dp, name) == 0
      modifies this`nodes, this`ref
      ensures ip == 0 <==> NoSpace(old(nodes), dp, kind, room)
      ensures ip == 0 ==> nodes == old(nodes) && ref == ref0
      ensures ip != 0 ==> 0 < ip < |old(nodes)| == |nodes| && old(nodes)[ip].kind == 0 && ref == ref0[ip := 1]
      ensures ip != 0 ==>
          Adds(old(nodes), dp, nodes[dp].ents, name, ip) && nodes == Created(old(nodes), dp, nodes[dp].ents, ip, kind)
    {
      hide Look, AllOk, Distinct, NodeOk, Headed, Sound, Names, Orphans, NodesOk;
      ghost var nodes0 := nodes;
      MakeStart(nodes, ref0, named, links, dp);
      ip := Ialloc(kind);
      if ip == 0 {
        Drop(dp, ref0);
        return;
      }
      FreeIs(nodes0, ip);
      nodes := nodes[ip := nodes[ip].(nlink := 1)];
      NewOk(nodes0, ip, kind);
      assert nodes == nodes0[ip := Node(kind, 1, [])];
      var ok := Dots(ip, dp, kind, room);
      LookSame(nodes0, nodes, dp, name);
      if ok {
        ok := Dirlink(dp, name, ip, room[2]);
      }
      if !ok {
        Abandon(ip, dp, nodes0, ref0);
        return 0;
      }
      MakeAdds(nodes0, nodes, ref0, named, links, dp, ip, name);
      Settle(dp, ip, nodes0, ref0);
    }

    /** create: all or nothing. */
    method Create(path: string, kind: int, cwd: int, room: seq<bool>) returns (panic: bool, i: int)
      requires Valid() && 0 < cwd < |nodes| == |ref| && ref[cwd] > 0 && kind != 0 && |room| == 3
      modifies this
      ensures panic <==> CreatePanics(old(nodes), path, cwd)
      ensures !panic ==> Valid() && |nodes| == |old(nodes)| == |old(ref)|
      ensures !panic ==>
          CreateResult(old(nodes), old(ref), nodes, ref, PathParent(old(nodes), path, cwd), LastName(path), kind, room,
          i)
      ensures !panic && (i == 0 || nodes == old(nodes)) ==> named == old(named) && links == old(links)
      ensures !panic && nodes != old(nodes) ==>
        0 < i < |nodes| && named == CreatedNames(old(named), i, kind, LastName(path)) && InUse(nodes, i)
      ensures Safe(old(nodes), old(named)) ==> !panic && Safe(nodes, named)
      ensures Whole(old(nodes), old(named)) ==> !panic && Whole(nodes, named)
    {
      hide Look, Sound, Elems, PathParent, PathPanics, LastName, Created, NoSpace, CreatedNames, CreatedLinks, Safe,
          Whole, LinkPanics;
      ghost var nodes0, ref0 := nodes, ref;
      Calm(nodes, ref, named, links, path, path, cwd);
      var d, elem;
      panic, d, elem := Namex(path, true, cwd);
      if panic { return true, 0; }
      if d == 0 {
        return false, 0;
      }
      StartOk(nodes0, ref0, named, links, cwd);
      var off;
      i, off := Dirlookup(d, elem);
      if i != 0 {
        Step(d, i, ref0);
        if nodes[i].kind == 0 {
          return true, 0;  // panic("ilock: no type")
        }
        if kind == T_FILE && (nodes[i].kind == T_FILE || nodes[i].kind == T_DEVICE) {
          RefSound(nodes, ref0, named, links, i);
          return false, i;
        }
        Drop(i, ref0);
        return false, 0;
      }
      i := Make(d, elem, kind, room, ref0);
      if i != 0 {
        CreatedSound(nodes0, ref0, named, links, d, nodes[d].ents, elem, i, kind);
        CreatedUses(nodes0, d, nodes[d].ents, i, kind);
        CreateKept(nodes0, named, d, nodes[d].ents, i, kind, elem);
        named, links := CreatedNames(named, i, kind, elem), CreatedLinks(links, d, i, kind, elem);
      }
    }

    /** Is the directory empty except for its first two entries? */
    method Isdirempty(d: int) returns (empty: bool)
      requires 0 <= d < |nodes|
      ensures empty <==> Bare(nodes[d])
    {
      var off := 2;
      while off < |nodes[d].ents|
        invariant 2 <= off && forall k :: 2 <= k < |nodes[d].ents| && k < off ==> nodes[d].ents[k].inum == 0
      {
        if nodes[d].ents[off].inum != 0 { return false; }
        off := off + 1;
      }
      return true;
    }

    /** The rest of sys_unlink once the entry is found. */
    method Remove(dp: int, ip: int, off: int, ghost ref0: seq<int>)
      requires |ref0| == |nodes| && 0 < dp < |nodes| && 0 < ip < |nodes| && dp != ip && 0 <= off < |nodes[dp].ents|
      requires ref == ref0[dp := ref0[dp] + 1][ip := ref0[ip] + 1] && ref0[dp] >= 0 && ref0[ip] >= 0
      modifies this`nodes, this`ref
      ensures ref == ref0
          && nodes == Freed(Freed(Removed(old(nodes), dp, Cleared(old(nodes)[dp].ents, off), ip), ref0, dp), ref0, ip)
    {
      nodes := nodes[dp := nodes[dp].(ents := Cleared(nodes[dp].ents, off))];
      if nodes[ip].kind == T_DIR {
        nodes := nodes[dp := nodes[dp].(nlink := nodes[dp].nlink - 1)];
      }
      Iput(dp);
      nodes := nodes[ip := nodes[ip].(nlink := nodes[ip].nlink - 1)];
      Iput(ip);
    }

    method RemoveSound(dp: int, ip: int, off: int, ghost name: string, ghost ref0: seq<int>)
      requires Sound(nodes, ref0, named, links) && |ref0| == |nodes| == |links| && 0 < dp < |nodes| && 0 < ip < |nodes|
          && dp != ip
      requires 0 <= off < |nodes[dp].ents| && Removes(nodes, dp, Cleared(nodes[dp].ents, off), name)
          && Look(nodes, dp, name) == ip
      requires ref == ref0[dp := ref0[dp] + 1][ip := ref0[ip] + 1] && ref0[dp] >= 0 && ref0[ip] >= 0
      requires Undotted(name) && Removable(nodes, ip)
      modifies this
      ensures Valid() && ref == ref0 && |nodes| == |old(nodes)| && Unlinked(old(nodes), nodes, ref, dp, ip, name)
      ensures named == RemovedNames(old(nodes), old(named), ip)
      ensures UnlinkKeeps(old(nodes), ref, old(named), nodes, named, dp, ip)
    {
      hide Look, Sound, Unlinked, Removed, Removes, Freed, RemovedNames, RemovedLinks, UnlinkedLinks, UnlinkKeeps,
          Removable;
      ghost var nodes0, ents := nodes, Cleared(nodes[dp].ents, off);
      Remove(dp, ip, off, ref0);
      UnlinkedSound(nodes0, ref0, named, links, dp, ents, name, ip);
      UnlinkedIs(nodes0, nodes, ref0, dp, ents, name, ip);
      UnlinkKept(nodes0, nodes, ref0, named, links, UnlinkedLinks(nodes0, ref0, links, dp, ents, name, ip), dp, name,
          ip);
      named, links := RemovedNames(nodes0, named, ip), UnlinkedLinks(nodes0, ref0, links, dp, ents, name, ip);
    }

    /** sys_unlink: one name fewer, or nothing. */
    method Unlink(path: string, cwd: int) returns (panic: bool, ok: bool)
      requires Valid() && 0 < cwd < |nodes| == |ref| && ref[cwd] > 0
      modifies this
      ensures panic <==> PathPanics(old(nodes), path, cwd)
      ensures !panic ==> Valid() && ref == old(ref) && |nodes| == |old(nodes)|
      ensures !panic && !ok ==> nodes == old(nodes) && named == old(named) && links == old(links)
      ensures !panic ==> var dp := PathParent(old(nodes), path, cwd);
        var ip := Look(old(nodes), dp, LastName(path));
        && (ok <==> dp != 0 && Undotted(LastName(path)) && ip != 0 && Removable(old(nodes), ip))
        && (ok ==> Unlinked(old(nodes), nodes, old(ref), dp, ip, LastName(path)))
        && (ok ==> named == RemovedNames(old(nodes), old(named), ip))
        && (ok ==> UnlinkKeeps(old(nodes), old(ref), old(named), nodes, named, dp, ip))
      ensures Safe(old(nodes), old(named)) ==> !panic
    {
      hide Look, Sound, Elems, PathParent, PathPanics, LastName, Unlinked, Removed, Freed, RemovedNames, RemovedLinks,
          Orphans, AllOk, Safe, Whole, UnlinkKeeps, CreatePanics, LinkPanics;
      ghost var nodes0, ref0 := nodes, ref;
      Calm(nodes, ref, named, links, path, path, cwd);
      var d, elem;
      ok := false;
      panic, d, elem := Namex(path, true, cwd);
      if panic || d == 0 { return; }
      StartOk(nodes0, ref0, named, links, cwd);
      if elem == "." || elem == ".." {
        Drop(d, ref0);
        return;
      }
      var ip, off := Dirlookup(d, elem);
      if ip == 0 {
        Drop(d, ref0);
        return;
      }
      Iget(ip);
      UnlinkStart(nodes0, ref0, named, links, d, off, elem, ip);
      if nodes[ip].nlink < 1 {
        assert false;  // panic("unlink: nlink < 1")
      }
      if nodes[ip].kind == T_DIR {
        var empty := Isdirempty(ip);
        if !empty {
          GiveBack(nodes0, ref0, d, ip);
          Drop(ip, ref0[d := ref0[d] + 1]);
          Drop(d, ref0);
          return;
        }
      }
      RemoveSound(d, ip, off, elem, ref0);
      ok := true;
    }

    /** Takes sys_link's new link back. */
    method Unlinks(ip: int, ghost nodes0: seq<Node>, ghost ref0: seq<int>)
      requires Orphans(nodes0, ref0) && 0 < ip < |nodes0| && nodes0[ip].kind != 0 && ref0[ip] >= 0
      requires nodes == nodes0[ip := OneMore(nodes0[ip])] && ref == ref0[ip := ref0[ip] + 1]
      modifies this`nodes, this`ref
      ensures nodes == nodes0 && ref == ref0
    {
      nodes := nodes[ip := nodes[ip].(nlink := nodes[ip].nlink - 1)];
      assert nodes == nodes0;
      Drop(ip, ref0);
    }

    /** sys_link: one more name for an inode that is no directory, or nothing. */
    method Link(from: string, to: string, cwd: int, room: bool) returns (panic: bool, ok: bool)
      requires Valid() && 0 < cwd < |nodes| == |ref| && ref[cwd] > 0
      modifies this
      ensures panic <==> LinkPanics(old(nodes), from, to, cwd)
      ensures !panic ==> Valid() && ref == old(ref) && |nodes| == |old(nodes)| && named == old(named)
      ensures !panic && !ok ==> nodes == old(nodes) && links == old(links)
      ensures !panic ==> var ip, dp := PathInode(old(nodes), from, cwd), PathParent(old(nodes), to, cwd);
        && (ok <==> Linkable(old(nodes), ip, dp, LastName(to), room))
        && (ok ==> LinkMade(old(nodes), nodes, ip, dp, LastName(to)))
      ensures Safe(old(nodes), old(named)) ==> !panic && Safe(nodes, named)
      ensures Whole(old(nodes), old(named)) ==> !panic && Whole(nodes, named)
    {
      hide Look, Sound, Elems, PathParent, PathInode, PathPanics, LastName, Orphans, AllOk, Full, LinkMade, Safe, Whole,
          CreatePanics;
      ghost var nodes0, ref0 := nodes, ref;
      Calm(nodes, ref, named, links, from, to, cwd);
      var ip, d, elem;
      ok := false;
      StartOk(nodes0, ref0, named, links, cwd);
      panic, ip, elem := Namex(from, false, cwd);
      if panic || ip == 0 { return; }
      if nodes[ip].kind == 0 {
        return true, false;  // panic("ilock: no type")
      }
      if nodes[ip].kind == T_DIR {
        Drop(ip, ref0);
        return;
      }
      LinkSound(nodes0, ref0, named, links, ip);
      nodes := nodes[ip := nodes[ip].(nlink := nodes[ip].nlink + 1)];
      PathSame(nodes0, nodes, to, cwd);
      ghost var ref1 := ref;
      panic, d, elem := Namex(to, true, cwd);
      if panic { return; }
      if d != 0 {
        ok := LinkAt(d, ip, elem, room, nodes0, ref0);
        if ok { LinkKept(nodes0, nodes, named, ip, d, elem); }
      }
      if !ok {
        Unlinks(ip, nodes0, ref0);
      }
    }

    /** sys_link, once both paths are found. */
    method LinkAt(dp: int, ip: int, name: string, room: bool, ghost nodes0: seq<Node>, ghost ref0: seq<int>)
        returns (ok: bool)
      requires Sound(nodes0, ref0, named, links) && 0 < dp < |nodes0| == |ref0| == |links| && 0 < ip < |nodes0|
          && |name| <= DIRSIZ
      requires IsDir(nodes0, dp) && !IsDir(nodes0, ip) && nodes0[ip].kind != 0
          && nodes == nodes0[ip := OneMore(nodes0[ip])]
      requires Sound(nodes, ref0[ip := ref0[ip] + 1], named, links)
      requires ref == ref0[ip := ref0[ip] + 1][dp := ref0[dp] + 1]
      modifies this
      ensures ok <==> Linkable(nodes0, ip, dp, name, room)
      ensures ok ==> Valid() && ref == ref0 && LinkMade(nodes0, nodes, ip, dp, name) && |nodes| == |nodes0|
      ensures !ok ==> nodes == old(nodes) && ref == ref0[ip := ref0[ip] + 1] && links == old(links)
      ensures named == old(named)
    {
      hide Look, Sound, Orphans, AllOk, Full, LinkMade, Placed, Names, Distinct;
      ghost var nodes1, ref1 := nodes, ref0[ip := ref0[ip] + 1];
      LinkAtStart(nodes0, nodes1, ref0, named, links, dp, ip, name);
      ok := Dirlink(dp, name, ip, room);
      if ok { OrphansEntered(nodes1, nodes, ref1, dp); }
      Drop(dp, ref1);
      if ok {
        LinkedSound(nodes0, nodes1, nodes, ref0, named, links, dp, ip, name);
        links := links[ip := links[ip] + {(dp, name)}];
        Drop(ip, ref0);
      }
    }
  }

  /** sys_link's target can be named there. */
  ghost predicate Linkable(nodes: seq<Node>, ip: int, dp: int, name: string, room: bool) {
    && 0 < ip < |nodes| && !IsDir(nodes, ip) && dp > 0 && IsDir(nodes, dp)
    && Look(nodes, dp, name) == 0 && (room || !Full(nodes[dp]))
  }

  lemma LinkSound(nodes: seq<Node>, ref: seq<int>, named: Naming, links: Links, ip: int)
    requires Sound(nodes, ref, named, links) && 0 < ip < |nodes| == |ref| && nodes[ip].kind != 0 && !IsDir(nodes, ip)
    ensures Sound(nodes[ip := OneMore(nodes[ip])], ref[ip := ref[ip] + 1], named, links)
  {
    hide Linked, AllOk;
    LinkedIs(nodes, named, links);
    PlainEnts(nodes, named, links, ip);
    PlainLinked(nodes, named, links, ip, OneMore(nodes[ip]));
    LinkedIs(nodes[ip := OneMore(nodes[ip])], named, links);
  }

  lemma LinkAtStart(was: seq<Node>, now: seq<Node>, ref: seq<int>, named: Naming, links: Links, dp: int, ip: int,
      name: string)
    requires Sound(was, ref, named, links) && |was| == |ref| && 0 < ip < |was| && IsDir(was, dp) && !IsDir(was, ip)
        && 0 < dp
    requires now == was[ip := OneMore(was[ip])] && Sound(now, ref[ip := ref[ip] + 1], named, links)
    ensures AllOk(now) && Orphans(now, ref[ip := ref[ip] + 1]) && Look(now, dp, name) == Look(was, dp, name)
        && ref[dp] >= 0 && ref[ip] >= 0
  {
    hide Linked, Look;
    LookSame(was, now, dp, name);
  }

  lemma OrphansEntered(was: seq<Node>, now: seq<Node>, ref: seq<int>, dp: int)
    requires Orphans(was, ref) && 0 <= dp < |was| == |now| && now == Entered(was, dp, now[dp].ents)
    ensures Orphans(now, ref)
  {
  }

  lemma LinkedSound(
    was: seq<Node>, mid: seq<Node>, now: seq<Node>, ref: seq<int>, named: Naming, links: Links, dp: int, ip: int,
        name: string)
    requires |was| == |ref| == |links| == |now| && 0 < ip < |was|
    requires Sound(was, ref, named, links) && Sound(mid, ref[ip := ref[ip] + 1], named, links)
    requires IsDir(was, dp) && !IsDir(was, ip) && was[ip].kind != 0 && 0 < dp && mid == was[ip := OneMore(was[ip])]
    requires AllOk(now) && NodeOk(now[dp], |now|) && NodeOk(mid[dp], |now|) && Look(mid, dp, name) == 0
    requires now == Entered(mid, dp, now[dp].ents) && now[dp].ents == Placed(mid[dp].ents, Entry(ip, name))
    requires Names(now[dp].ents) == Names(mid[dp].ents)[name := ip]
    ensures Sound(now, ref, named, links[ip := links[ip] + {(dp, name)}]) && LinkMade(was, now, ip, dp, name)
        && Orphans(now, ref)
  {
    hide Look, Linked, AllOk, Names, Distinct, NodeOk, Placed;
    MakeAdds(mid, now, ref[ip := ref[ip] + 1], named, links, dp, ip, name);
    LinkedIs(was, named, links);
    NameFile(mid, named, links, dp, now[dp].ents, name, ip);
    LookSame(was, mid, dp, name);
    SameNode(was, dp);
    AddsBack(was, mid, dp, now[dp].ents, name, ip);
  }

  lemma SameNode(nodes: seq<Node>, d: int)
    requires AllOk(nodes) && 0 <= d < |nodes|
    ensures NodeOk(nodes[d], |nodes|)
  {
  }

  lemma AddsBack(was: seq<Node>, mid: seq<Node>, dp: int, ents: seq<Entry<string>>, name: string, ip: int)
    requires AllOk(was) && |was| == |mid| && 0 <= dp < |was| && was[dp] == mid[dp]
        && Look(was, dp, name) == Look(mid, dp, name)
    requires Adds(mid, dp, ents, name, ip)
    ensures Adds(was, dp, ents, name, ip)
  {
    hide Look, Names, Distinct;
    assert NodeOk(was[dp], |was|);
  }

  /** Paths do not depend on the numbers of links. */
  lemma {:induction false} WalkSame(was: seq<Node>, now: seq<Node>, i: int, elems: seq<string>)
    requires |was| == |now| && forall j :: 0 <= j < |was| ==> now[j].kind == was[j].kind && now[j].ents == was[j].ents
    ensures Walk(now, i, elems) == Walk(was, i, elems) && Panics(now, i, elems) == Panics(was, i, elems)
    decreases |elems|
  {
    hide Look;
    if elems != [] {
      LookSame(was, now, i, elems[0]);
      WalkSame(was, now, Look(was, i, elems[0]), elems[1..]);
    }
  }

  lemma PathSame(was: seq<Node>, now: seq<Node>, path: string, cwd: int)
    requires |was| == |now| && forall j :: 0 <= j < |was| ==> now[j].kind == was[j].kind && now[j].ents == was[j].ents
    ensures PathParent(now, path, cwd) == PathParent(was, path, cwd)
        && PathPanics(now, path, cwd) == PathPanics(was, path, cwd)
  {
    hide Walk, Panics, Elems;
    var start, elems := Start(path, cwd), Elems(path, 0);
    WalkSame(was, now, start, elems);
    if elems != [] { WalkSame(was, now, start, elems[..|elems| - 1]); }
  }

  function Cleared(ents: seq<Entry<string>>, off: int): seq<Entry<string>>
    requires 0 <= off < |ents|
  {
    ents[off := Entry(0, "")]
  }

  lemma UnlinkStart(nodes: seq<Node>, ref: seq<int>, named: Naming, links: Links, d: int, off: int, name: string,
      ip: int)
    requires Sound(nodes, ref, named, links) && 0 < d && IsDir(nodes, d) && For(nodes[d].ents, off, name)
        && Undotted(name)
    requires Look(nodes, d, name) == ip && 0 < ip < |nodes|
    ensures Removes(nodes, d, Cleared(nodes[d].ents, off), name)
    ensures nodes[ip].nlink >= 1 && ip != d && nodes[ip].kind != 0 && |ref| == |nodes|
        && forall i :: 0 <= i < |ref| ==> ref[i] >= 0
  {
    hide Look, Linked, Distinct, Names, Headed;
    var ents := Cleared(nodes[d].ents, off);
    DotsThere(nodes, ref, named, links, d);
    HeadKept(nodes[d], d, off);
    LookEntry(nodes, d, off, name);
    DropName(nodes[d].ents, off, "");
    RemovedLinked(nodes, named, links, d, ents, name, ip);
    FileInUse(nodes, ip);
  }

  lemma HeadKept(n: Node, d: int, off: int)
    requires n.kind == T_DIR && Headed(n, d) && 0 <= off < |n.ents| && Undotted(n.ents[off].name)
    ensures Headed(n.(ents := Cleared(n.ents, off)), d)
  {
  }

  lemma GiveBack(nodes: seq<Node>, ref: seq<int>, d: int, ip: int)
    requires Orphans(nodes, ref) && 0 <= d < |ref| && ref[d] >= 0
    ensures Orphans(nodes, ref[d := ref[d] + 1])
  {
  }

  lemma UnlinkedSound(
    was: seq<Node>, ref: seq<int>, named: Naming, links: Links, dp: int, ents: seq<Entry<string>>, name: string,
        ip: int)
    requires Sound(was, ref, named, links) && Removes(was, dp, ents, name) && Look(was, dp, name) == ip
    requires 0 < dp < |was| == |ref| == |links| && 0 < ip < |was| && dp != ip
    ensures Sound(Freed(Freed(Removed(was, dp, ents, ip), ref, dp), ref, ip), ref,
                  RemovedNames(was, named, ip), UnlinkedLinks(was, ref, links, dp, ents, name, ip))
  {
    hide Look, Linked, AllOk, RemovedNames, RemovedLinks, FreedLinks;
    RemovedLinked(was, named, links, dp, ents, name, ip);
    var named2, l0 := RemovedNames(was, named, ip), RemovedLinks(was, links, dp, ip, name);
    var n0 := Removed(was, dp, ents, ip);
    var n1, l1 := Freed(n0, ref, dp), FreedLinks(n0, ref, l0, dp);
    FreedLinked(n0, ref, named2, l0, dp);
    FreedLinked(n1, ref, named2, l1, ip);
    LinkedIs(Freed(n1, ref, ip), named2, FreedLinks(n1, ref, l1, ip));
  }

  lemma UnlinkedIs(was: seq<Node>, now: seq<Node>, ref: seq<int>, dp: int, ents: seq<Entry<string>>, name: string,
      ip: int)
    requires 0 < dp < |was| == |ref| && 0 < ip < |was| && Removes(was, dp, ents, name)
    requires now == Freed(Freed(Removed(was, dp, ents, ip), ref, dp), ref, ip)
    ensures Unlinked(was, now, ref, dp, ip, name) && |now| == |was|
  {
  }

  lemma RefSound(nodes: seq<Node>, ref: seq<int>, named: Naming, links: Links, i: int)
    requires Sound(nodes, ref, named, links) && 0 <= i < |nodes| == |ref| && nodes[i].kind != 0
    ensures Sound(nodes, ref[i := ref[i] + 1], named, links)
  {
    hide Linked;
  }

  lemma NewLook(nodes: seq<Node>, d: int, ents: seq<Entry<string>>, name: string)
    requires AllOk(nodes) && IsDir(nodes, d) && nodes[d].ents == ents && forall k :: 0 <= k < |ents| ==>
        ents[k].name != name
    ensures Look(nodes, d, name) == 0
  {
    hide Look;
    LookEntry(nodes, d, 0, name);
  }

  lemma MakeStart(nodes: seq<Node>, ref: seq<int>, named: Naming, links: Links, dp: int)
    requires Sound(nodes, ref, named, links) && 0 < dp < |nodes| == |ref| && IsDir(nodes, dp)
    ensures NodesOk(nodes, ref[dp := ref[dp] + 1]) && AllOk(nodes) && Orphans(nodes, ref) && ref[dp] >= 0
        && nodes[dp].nlink >= 0
    ensures forall i :: 0 <= i < |ref| && nodes[i].kind == 0 ==> ref[i] == 0
  {
    hide Linked;
    assert NodeOk(nodes[dp], |nodes|);
  }

  lemma FreeIs(nodes: seq<Node>, i: int)
    requires AllOk(nodes) && 0 <= i < |nodes| && nodes[i].kind == 0
    ensures nodes[i] == EMPTY
  {
    assert NodeOk(nodes[i], |nodes|);
  }

  lemma NewOk(nodes: seq<Node>, ip: int, kind: int)
    requires AllOk(nodes) && 0 <= ip < |nodes| && kind != 0
    ensures AllOk(nodes[ip := Node(kind, 1, [])])
  {
    var now := nodes[ip := Node(kind, 1, [])];
    forall j | 0 <= j < |now| ensures NodeOk(now[j], |now|) { if j != ip { assert NodeOk(nodes[j], |nodes|); } }
  }

  /** Names with "." and ".." are always there. */
  lemma DotsThere(nodes: seq<Node>, ref: seq<int>, named: Naming, links: Links, d: int)
    requires Sound(nodes, ref, named, links) && 0 < d && IsDir(nodes, d)
    ensures Look(nodes, d, ".") == d && Look(nodes, d, "..") != 0 && Headed(nodes[d], d)
  {
    hide Look;
    assert Headed(nodes[d], d);
    assert For(nodes[d].ents, 0, ".") && For(nodes[d].ents, 1, "..");
    LookEntry(nodes, d, 0, ".");
    LookEntry(nodes, d, 1, "..");
  }

  lemma MakeAdds(was: seq<Node>, now: seq<Node>, ref: seq<int>, named: Naming, links: Links, dp: int, ip: int,
      name: string)
    requires Sound(was, ref, named, links) && |was| == |now| && 0 < dp < |was| && IsDir(was, dp) && 0 < ip < |was|
        && Look(was, dp, name) == 0
    requires AllOk(now) && now[dp] == was[dp].(ents := Placed(was[dp].ents, Entry(ip, name))) && NodeOk(now[dp], |now|)
        && NodeOk(was[dp], |was|)
    requires Names(now[dp].ents) == Names(was[dp].ents)[name := ip]
    ensures Adds(was, dp, now[dp].ents, name, ip)
  {
    hide Look, Names, Distinct;
    DotsThere(was, ref, named, links, dp);
    PlacedHead(was[dp].ents, Entry(ip, name));
  }

  /** Entries in use stay where they are. */
  lemma PlacedHead(ents: seq<Entry<string>>, e: Entry<string>)
    ensures |Placed(ents, e)| >= |ents| && forall k :: 0 <= k < |ents| && ents[k].inum != 0 ==>
        Placed(ents, e)[k] == ents[k]
  {
  }

  lemma CreatedUses(was: seq<Node>, dp: int, ents: seq<Entry<string>>, ip: int, kind: int)
    requires 0 <= dp < |was| && 0 <= ip < |was| && dp != ip && kind != 0 && was[ip].kind == 0
    ensures InUse(Created(was, dp, ents, ip, kind), ip) && Created(was, dp, ents, ip, kind) != was
  {
    assert Created(was, dp, ents, ip, kind)[ip].kind == kind;
  }

  /** What create returns and does: the file that was there, a new inode, or nothing. */
  ghost predicate CreateResult(
    was: seq<Node>, ref0: seq<int>, now: seq<Node>, ref: seq<int>, dp: int, name: string, kind: int, room: seq<bool>,
        i: int)
    requires |room| == 3
  {
    && |was| == |now| == |ref0| && 0 <= dp < |was|
    && var old_ := Look(was, dp, name);
       && (i == 0 <==> dp == 0 || (if old_ != 0 then !Reusable(was, old_, kind) else NoSpace(was, dp, kind, room)))
       && (i == 0 || old_ != 0 ==> now == was)
       && (i == 0 ==> ref == ref0)
       && (i != 0 && old_ != 0 ==> i == old_ && 0 < i < |was| && ref == ref0[i := ref0[i] + 1])
       && (i != 0 && old_ == 0 ==>
             && 0 < i < |was| && was[i].kind == 0 && ref == ref0[i := 1]
             && Adds(was, dp, now[dp].ents, name, i) && now == Created(was, dp, now[dp].ents, i, kind))
  }

  lemma RootSound(n: int, nodes: seq<Node>, ref: seq<int>, named: Naming, links: Links)
    requires n > ROOTINO
        && nodes == seq(n, i => if i == ROOTINO then Node(T_DIR, 1, [Entry(ROOTINO, "."), Entry(ROOTINO, "..")])
        else EMPTY)
    requires ref == seq(n, i => if i == ROOTINO then 1 else 0) && named == map[ROOTINO := ""]
    requires links == seq(n, i => if i == ROOTINO then {(ROOTINO, "..")} else {})
    ensures Sound(nodes, ref, named, links)
    ensures forall d, name :: Look(nodes, d, name) == if d == ROOTINO && !Undotted(name) then ROOTINO else 0
  {
    hide Look;
    var e := [Entry(ROOTINO, "."), Entry(ROOTINO, "..")];
    NewNames(ROOTINO, ROOTINO);
    forall d, name ensures Look(nodes, d, name) == if d == ROOTINO && !Undotted(name) then ROOTINO else 0 {
      if d == ROOTINO { LookIs(nodes, d, name); } else { NoLook(nodes, d, name); }
    }
    assert NodeOk(nodes[ROOTINO], n);
    assert HasName(nodes, named, ROOTINO);
  }

  lemma LookIs(nodes: seq<Node>, d: int, name: string)
    requires IsDir(nodes, d) && Distinct(nodes[d].ents)
    ensures Look(nodes, d, name) == if name in Names(nodes[d].ents) then Names(nodes[d].ents)[name] else 0
  {
  }

  lemma PlacedOk(nodes: seq<Node>, d: int, e: Entry<string>)
    requires AllOk(nodes) && IsDir(nodes, d) && |e.name| <= DIRSIZ && 0 < e.inum < |nodes|
        && Distinct(Placed(nodes[d].ents, e))
    ensures AllOk(Entered(nodes, d, Placed(nodes[d].ents, e)))
  {
    hide Distinct;
    var now := Entered(nodes, d, Placed(nodes[d].ents, e));
    assert NodeOk(nodes[d], |nodes|);
    forall j | 0 <= j < |now| ensures NodeOk(now[j], |now|) { if j != d { assert NodeOk(nodes[j], |nodes|); } }
  }

  lemma FreedKept(nodes: seq<Node>, ref: seq<int>, named: Naming, links: Links, i: int)
    requires Sound(nodes, ref, named, links) && 0 < i < |nodes| == |ref| && ref[i] > 0
    ensures var r := ref[i := ref[i] - 1];
            && (Whole(nodes, named) ==> Whole(Freed(nodes, r, i), named))
            && (Safe(nodes, named) ==>
                  (Safe(Freed(nodes, r, i), named) <==>
                   !(r[i] == 0 && nodes[i].nlink == 0 && exists d :: Orphaned(nodes, named, i, d))))
  {
    hide Linked, Safe, Whole, Orphaned, NodesOk, Orphans;
    var r := ref[i := ref[i] - 1];
    if Whole(nodes, named) { FreedWhole(nodes, r, named, i); }
    if Safe(nodes, named) { FreedSafeIff(nodes, r, named, links, i); }
  }

  lemma FreedSound(nodes: seq<Node>, ref: seq<int>, named: Naming, links: Links, i: int)
    requires Sound(nodes, ref, named, links) && 0 < i < |nodes| == |ref| && ref[i] > 0
    ensures var r := ref[i := ref[i] - 1]; Sound(Freed(nodes, r, i), r, named, FreedLinks(nodes, r, links, i))
  {
    hide Linked;
    var r := ref[i := ref[i] - 1];
    FreedLinked(nodes, r, named, links, i);
    LinkedIs(Freed(nodes, r, i), named, FreedLinks(nodes, r, links, i));
  }

  // ----- along the path -----

  /** The walk has taken the elements before p and is at inode i. */
  ghost predicate Along(nodes: seq<Node>, path: string, cwd: int, parent: bool, before: seq<string>, i: int, p: int) {
    && 0 <= p <= |path| && i != 0 && Elems(path, 0) == before + Elems(path, p)
        && Walk(nodes, Start(path, cwd), before) == i
    && (parent ==> before == [] || Elems(path, p) != [])
        && (PathPanics(nodes, path, cwd) <==> Panics(nodes, i, Elems(path, p)))
  }

  lemma AlongStart(nodes: seq<Node>, path: string, cwd: int, parent: bool)
    requires Start(path, cwd) != 0
    ensures Along(nodes, path, cwd, parent, [], Start(path, cwd), 0)
  {
    hide Elems, Look, Panics;
    assert [] + Elems(path, 0) == Elems(path, 0);
  }

  lemma AlongFree(nodes: seq<Node>, path: string, cwd: int, parent: bool, before: seq<string>, i: int, p: int)
    requires Along(nodes, path, cwd, parent, before, i, p) && Elems(path, p) != [] && 0 <= i < |nodes|
        && nodes[i].kind == 0
    ensures PathPanics(nodes, path, cwd)
  {
    hide Elems, Look, Walk, PathPanics;
  }

  /** Below something that is no directory, or has no such name, there is nothing. */
  lemma AlongFile(
    nodes: seq<Node>, path: string, cwd: int, parent: bool, before: seq<string>, i: int, p: int, elem: string, r: int)
    requires Along(nodes, path, cwd, parent, before, i, p) && 0 < i < |nodes| && InUse(nodes, i) && !IsDir(nodes, i)
    requires 0 <= r <= |path| && Elems(path, p) == [elem] + Elems(path, r)
    ensures !PathPanics(nodes, path, cwd) && PathInode(nodes, path, cwd) == 0 && PathParent(nodes, path, cwd) == 0
  {
    hide Elems, Look, Walk, WalkParent, Panics;
    NoLook(nodes, i, elem);
    PanicsOn(nodes, i, elem, Elems(path, r));
    WalkStops(nodes, Start(path, cwd), before, Elems(path, p), i);
  }

  lemma AlongNone(
    nodes: seq<Node>, path: string, cwd: int, parent: bool, before: seq<string>, i: int, p: int, elem: string, r: int)
    requires Along(nodes, path, cwd, parent, before, i, p) && 0 < i < |nodes| && InUse(nodes, i)
        && Look(nodes, i, elem) == 0
    requires 0 <= r <= |path| && Elems(path, p) == [elem] + Elems(path, r) && (r < |path| ==> path[r] != '/')
    ensures !PathPanics(nodes, path, cwd) && PathInode(nodes, path, cwd) == 0
        && (r < |path| ==> PathParent(nodes, path, cwd) == 0)
  {
    hide Elems, Look, Walk, WalkParent, Panics;
    PanicsOn(nodes, i, elem, Elems(path, r));
    if r < |path| { MoreElems(path, r); }
    WalkStops(nodes, Start(path, cwd), before, Elems(path, p), i);
  }

  lemma AlongParent(nodes: seq<Node>, path: string, cwd: int, before: seq<string>, i: int, p: int, elem: string)
    requires Along(nodes, path, cwd, true, before, i, p) && IsDir(nodes, i)
        && Elems(path, p) == [elem] + Elems(path, |path|)
    ensures !PathPanics(nodes, path, cwd) && PathParent(nodes, path, cwd) == i && LastName(path) == elem
  {
    hide Elems, Look, Walk, WalkParent, Panics;
    LastElem(path, before, elem, |path|);
    assert [elem] + [] == [elem];
    PanicsOn(nodes, i, elem, []);
    PanicsNone(nodes, Look(nodes, i, elem));
    WalkLast(nodes, Start(path, cwd), before, elem);
  }

  lemma AlongStep(
    nodes: seq<Node>, path: string, cwd: int, parent: bool, before: seq<string>, i: int, p: int, elem: string, r: int)
    requires Along(nodes, path, cwd, parent, before, i, p) && 0 < i < |nodes| && InUse(nodes, i)
        && Look(nodes, i, elem) != 0
    requires 0 <= r <= |path| && Elems(path, p) == [elem] + Elems(path, r) && (r < |path| ==> path[r] != '/')
        && (parent ==> r < |path|)
    ensures Along(nodes, path, cwd, parent, before + [elem], Look(nodes, i, elem), r)
  {
    hide Elems, Look, Walk, Panics;
    PanicsOn(nodes, i, elem, Elems(path, r));
    if r < |path| { MoreElems(path, r); }
    WalkOn(nodes, Start(path, cwd), before, elem, i);
    assert before + ([elem] + Elems(path, r)) == before + [elem] + Elems(path, r);
  }

  lemma AlongEnd(nodes: seq<Node>, path: string, cwd: int, parent: bool, before: seq<string>, i: int, p: int)
    requires Along(nodes, path, cwd, parent, before, i, p) && Elems(path, p) == []
    ensures !PathPanics(nodes, path, cwd) && PathInode(nodes, path, cwd) == i
    ensures parent ==> before == [] && PathParent(nodes, path, cwd) == 0
  {
    hide Elems, Look, Walk;
    assert before + [] == before;
  }

  lemma PanicsNone(nodes: seq<Node>, i: int)
    ensures !Panics(nodes, i, [])
  {
  }

  lemma LastElem(path: string, before: seq<string>, elem: string, r: int)
    requires r == |path| && Elems(path, 0) == before + ([elem] + Elems(path, r))
    ensures Elems(path, r) == [] && LastName(path) == elem
  {
  }

  lemma MoreElems(path: string, p: int)
    requires 0 <= p < |path| && path[p] != '/'
    ensures Elems(path, p) != []
  {
  }
}

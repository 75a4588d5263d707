/** Every step of create, sys_link, sys_unlink and iput keeps the directory tree's invariant. */
module DirSound {
  import opened Dir
  import opened DirTree

  type Naming = map<int, string>
  type Links = seq<set<Place>>

  lemma LookSame(was: seq<Node>, now: seq<Node>, d: int, n: string)
    requires |was| == |now| && (0 <= d < |was| ==> now[d].kind == was[d].kind && now[d].ents == was[d].ents)
    ensures Look(now, d, n) == Look(was, d, n)
  {
  }

  lemma NoLook(nodes: seq<Node>, d: int, n: string)
    requires !IsDir(nodes, d)
    ensures Look(nodes, d, n) == 0
  {
  }

  // ----- an inode that is no directory -----

  lemma PlainOk(was: seq<Node>, i: int, n: Node)
    requires AllOk(was) && Shape(was) && 0 <= i < |was|
    requires n.kind != T_DIR && n.ents == [] && n.nlink >= 0 && (n.kind == 0 ==> n == EMPTY)
    ensures AllOk(was[i := n]) && Shape(was[i := n])
  {
  }

  /** The names, and which inodes are directories, are all that these depend on. */
  lemma LookKept(was: seq<Node>, now: seq<Node>, named: Naming, links: Links)
    requires |was| == |now| && (forall d, n :: Look(now, d, n) == Look(was, d, n))
        && (forall d :: IsDir(now, d) == IsDir(was, d))
    requires LinksOk(was, named, links) && NamedOk(was, named) && TreeOk(was, named)
    ensures LinksOk(now, named, links) && NamedOk(now, named) && TreeOk(now, named)
  {
    hide Look;
    forall i, x | 0 <= i < |links| ensures x in links[i] <==> Counts(now, named, x, i) {
      assert x in links[i] <==> Counts(was, named, x, i);
    }
    forall d | d in named ensures HasName(now, named, d) { assert HasName(was, named, d); }
    forall d, n | Undotted(n) && Look(now, d, n) != 0 && IsDir(now, Look(now, d, n))
      ensures ChildOf(now, named, d, n, Look(now, d, n))
    {
      assert ChildOf(was, named, d, n, Look(was, d, n));
    }
  }

  /** Its kind and its number of links may change, as long as there are as many as names. */
  lemma PlainLinked(was: seq<Node>, named: Naming, links: Links, i: int, n: Node)
    requires Linked(was, named, links) && 0 <= i < |was| && !IsDir(was, i)
    requires n.kind != T_DIR && n.ents == [] && n.nlink >= |links[i]| && (n.kind == 0 ==> n == EMPTY)
    ensures Linked(was[i := n], named, links)
  {
    hide Look, AllOk, Shape, LinksOk, NamedOk, TreeOk;
    var now := was[i := n];
    forall d, n ensures Look(now, d, n) == Look(was, d, n) {
      if d == i {
        NoLook(was, i, n);
        NoLook(now, i, n);
      } else {
        LookSame(was, now, d, n);
      }
    }
    PlainOk(was, i, n);
    LookKept(was, now, named, links);
  }

  // ----- one name more -----

  /** Directory d with other entries. */
  function Entered(nodes: seq<Node>, d: int, ents: seq<Entry<string>>): seq<Node>
    requires 0 <= d < |nodes|
  {
    nodes[d := nodes[d].(ents := ents)]
  }

  ghost predicate EntsOk(nodes: seq<Node>, d: int, ents: seq<Entry<string>>) {
    && IsDir(nodes, d) && Distinct(ents) && NodeOk(nodes[d].(ents := ents), |nodes|)
        && Headed(nodes[d].(ents := ents), d)
  }

  lemma EnteredOk(nodes: seq<Node>, d: int, ents: seq<Entry<string>>)
    requires AllOk(nodes) && Shape(nodes) && EntsOk(nodes, d, ents)
    ensures AllOk(Entered(nodes, d, ents)) && Shape(Entered(nodes, d, ents))
  {
  }

  lemma LookEntered(nodes: seq<Node>, dp: int, ents: seq<Entry<string>>, d: int, n: string)
    requires AllOk(nodes) && EntsOk(nodes, dp, ents)
    ensures Look(Entered(nodes, dp, ents), d, n) ==
            if d != dp then Look(nodes, d, n) else if n in Names(ents) then Names(ents)[n] else 0
  {
  }

  /** One name more in dp. */
  ghost predicate Adds(nodes: seq<Node>, dp: int, ents: seq<Entry<string>>, name: string, ip: int) {
    && AllOk(nodes) && EntsOk(nodes, dp, ents) && NodeOk(nodes[dp], |nodes|) && Undotted(name) && ip != 0
    && Look(nodes, dp, name) == 0 && Names(ents) == Names(nodes[dp].ents)[name := ip]
  }

  lemma LookAdded(nodes: seq<Node>, dp: int, ents: seq<Entry<string>>, name: string, ip: int, d: int, n: string)
    requires Adds(nodes, dp, ents, name, ip)
    ensures Look(Entered(nodes, dp, ents), d, n) == if d == dp && n == name then ip else Look(nodes, d, n)
  {
    hide Names;
    LookEntered(nodes, dp, ents, d, n);
  }

  /** A name for an inode that is no directory and has a link to spare. */
  lemma NameFile(was: seq<Node>, named: Naming, links: Links, dp: int, ents: seq<Entry<string>>, name: string, ip: int)
    requires Linked(was, named, links) && Adds(was, dp, ents, name, ip)
    requires 0 < ip < |was| && !IsDir(was, ip) && |links[ip]| < was[ip].nlink
    ensures Linked(Entered(was, dp, ents), named, links[ip := links[ip] + {(dp, name)}])
  {
    hide Look, AllOk, Shape, NodeOk, Headed, Names, Distinct;
    var now, x0, links2 := Entered(was, dp, ents), (dp, name), links[ip := links[ip] + {(dp, name)}];
    EnteredOk(was, dp, ents);
    forall d, n ensures Look(now, d, n) == if d == dp && n == name then ip else Look(was, d, n) {
      LookAdded(was, dp, ents, name, ip, d, n);
    }
    NamedLinks(was, now, named, links, dp, name, ip);
    NamedTree(was, now, named, dp, name, ip);
    assert CountOk(now, links2);
  }

  lemma NamedLinks(was: seq<Node>, now: seq<Node>, named: Naming, links: Links, dp: int, name: string, ip: int)
    requires LinksOk(was, named, links) && |was| == |now| && Undotted(name) && 0 < ip < |was|
        && Look(was, dp, name) == 0
    requires forall d, n :: Look(now, d, n) == if d == dp && n == name then ip else Look(was, d, n)
    ensures LinksOk(now, named, links[ip := links[ip] + {(dp, name)}]) && (dp, name) !in links[ip]
  {
    hide Look;
    var x0, links2 := (dp, name), links[ip := links[ip] + {(dp, name)}];
    forall i, x | 0 <= i < |links2| ensures x in links2[i] <==> Counts(now, named, x, i) {
      assert x in links[i] <==> Counts(was, named, x, i);
      assert x == x0 <==> x.0 == dp && x.1 == name;
    }
    assert x0 in links[ip] <==> Counts(was, named, x0, ip);
  }

  lemma NamedTree(was: seq<Node>, now: seq<Node>, named: Naming, dp: int, name: string, ip: int)
    requires NamedOk(was, named) && TreeOk(was, named) && |was| == |now| && Undotted(name) && Look(was, dp, name) == 0
        && !IsDir(now, ip)
    requires forall d, n :: Look(now, d, n) == if d == dp && n == name then ip else Look(was, d, n)
    requires forall d :: IsDir(now, d) == IsDir(was, d)
    ensures NamedOk(now, named) && TreeOk(now, named)
  {
    hide Look;
    forall d | d in named ensures HasName(now, named, d) { assert HasName(was, named, d); }
    forall d, n | Undotted(n) && Look(now, d, n) != 0 && IsDir(now, Look(now, d, n))
      ensures ChildOf(now, named, d, n, Look(now, d, n))
    {
      assert ChildOf(was, named, d, n, Look(was, d, n));
    }
  }

  // ----- a new directory -----

  /** The new directory ip in dp, which has one link more through "..". */
  function Grafted(nodes: seq<Node>, dp: int, ents: seq<Entry<string>>, ip: int): seq<Node>
    requires 0 <= dp < |nodes| && 0 <= ip < |nodes|
  {
    nodes[dp := nodes[dp].(ents := ents, nlink := nodes[dp].nlink + 1)][ip := Node(T_DIR, 1,
        [Entry(ip, "."), Entry(dp, "..")])]
  }

  lemma NewNames(ip: int, dp: int)
    requires ip != 0 && dp != 0
    ensures var e := [Entry(ip, "."), Entry(dp, "..")]; Distinct(e) && Names(e) == map["." := ip, ".." := dp]
  {
    var e := [Entry(ip, "."), Entry(dp, "..")];
    assert For(e, 0, ".") && For(e, 1, "..");
    NamesEqual(e, map["." := ip, ".." := dp]);
  }

  /** What names lead to once ip is in dp. */
  ghost function GraftLook(nodes: seq<Node>, dp: int, name: string, ip: int, d: int, n: string): int {
    if d == ip then (if n == "." then ip else if n == ".." then dp else 0)
    else if d == dp && n == name then ip
    else Look(nodes, d, n)
  }

  lemma LookGrafted(was: seq<Node>, dp: int, ents: seq<Entry<string>>, name: string, ip: int, d: int, n: string)
    requires Adds(was, dp, ents, name, ip) && 0 < ip < |was| && ip != dp && dp != 0
    ensures Look(Grafted(was, dp, ents, ip), d, n) == GraftLook(was, dp, name, ip, d, n)
  {
    hide Names;
    var now := Grafted(was, dp, ents, ip);
    if d == ip {
      NewNames(ip, dp);
    } else if d == dp {
      LookAdded(was, dp, ents, name, ip, d, n);
      LookSame(Entered(was, dp, ents), now, d, n);
    } else {
      LookSame(was, now, d, n);
    }
  }

  lemma GraftOk(was: seq<Node>, dp: int, ents: seq<Entry<string>>, ip: int)
    requires AllOk(was) && Shape(was) && EntsOk(was, dp, ents) && 0 < ip < |was| && ip != dp && dp != 0
    ensures AllOk(Grafted(was, dp, ents, ip)) && Shape(Grafted(was, dp, ents, ip))
  {
    hide Names, Distinct;
    NewNames(ip, dp);
    var now := Grafted(was, dp, ents, ip);
    forall j | 0 <= j < |now| ensures NodeOk(now[j], |now|) && Headed(now[j], j) {
      if j != dp && j != ip { assert now[j] == was[j] && NodeOk(was[j], |was|) && Headed(was[j], j); }
    }
  }

  lemma NameDir(was: seq<Node>, named: Naming, links: Links, dp: int, ents: seq<Entry<string>>, name: string, ip: int)
    requires Linked(was, named, links) && Adds(was, dp, ents, name, ip) && 0 < ip < |was| && ip != dp && dp != 0
        && was[ip].kind == 0
    ensures Linked(Grafted(was, dp, ents, ip), named[ip := name],
        links[ip := {(dp, name)}][dp := links[dp] + {(ip, "..")}])
  {
    hide Look, AllOk, Shape, NodeOk, Headed, Names, Distinct, LinksOk, NamedOk, TreeOk;
    var now := Grafted(was, dp, ents, ip);
    GraftOk(was, dp, ents, ip);
    forall d, n ensures Look(now, d, n) == GraftLook(was, dp, name, ip, d, n)
        { LookGrafted(was, dp, ents, name, ip, d, n); }
    forall n ensures Look(was, ip, n) == 0 { NoLook(was, ip, n); }
    FreeLinks(was, links, ip);
    assert links[ip] == {};
    GraftLinks(was, now, named, links, dp, name, ip);
    GraftTree(was, now, named, links, dp, name, ip);
  }

  lemma AddsIs(nodes: seq<Node>, dp: int, ents: seq<Entry<string>>, name: string, ip: int)
    requires Adds(nodes, dp, ents, name, ip)
    ensures IsDir(nodes, dp) && EntsOk(nodes, dp, ents) && Undotted(name) && Look(nodes, dp, name) == 0
  {
  }

  lemma FreeLinks(nodes: seq<Node>, links: Links, ip: int)
    requires AllOk(nodes) && CountOk(nodes, links) && 0 <= ip < |nodes| && nodes[ip].kind == 0
    ensures nodes[ip].nlink == 0 && links[ip] == {}
  {
    assert NodeOk(nodes[ip], |nodes|);
    assert |links[ip]| == 0;
  }

  lemma GraftLinks(was: seq<Node>, now: seq<Node>, named: Naming, links: Links, dp: int, name: string, ip: int)
    requires LinksOk(was, named, links) && |was| == |now| && 0 < ip < |was| && 0 < dp < |was| && dp != ip
        && links[ip] == {}
    requires Undotted(name) && Look(was, dp, name) == 0 && forall n :: Look(was, ip, n) == 0
    requires forall d, n :: Look(now, d, n) == GraftLook(was, dp, name, ip, d, n)
    ensures LinksOk(now, named[ip := name], links[ip := {(dp, name)}][dp := links[dp] + {(ip, "..")}])
    ensures (ip, "..") !in links[dp]
  {
    hide Look;
    var named2, links2 := named[ip := name], links[ip := {(dp, name)}][dp := links[dp] + {(ip, "..")}];
    forall i, x | 0 <= i < |links2| ensures x in links2[i] <==> Counts(now, named2, x, i) {
      assert x in links[i] <==> Counts(was, named, x, i);
      assert x == (x.0, x.1);
    }
    assert (ip, "..") in links[dp] <==> Counts(was, named, (ip, ".."), dp);
  }

  lemma GraftTree(was: seq<Node>, now: seq<Node>, named: Naming, links: Links, dp: int, name: string, ip: int)
    requires NamedOk(was, named) && TreeOk(was, named) && LinksOk(was, named, links) && |was| == |now|
    requires 0 < ip < |was| && IsDir(was, dp) && dp != ip && !IsDir(was, ip) && links[ip] == {}
    requires Undotted(name) && Look(was, dp, name) == 0 && forall n :: Look(was, ip, n) == 0
    requires forall d, n :: Look(now, d, n) == GraftLook(was, dp, name, ip, d, n)
    requires forall d :: IsDir(now, d) == (d == ip || IsDir(was, d))
    ensures NamedOk(now, named[ip := name]) && TreeOk(now, named[ip := name])
  {
    hide Look;
    var named2 := named[ip := name];
    forall d | d in named2 ensures HasName(now, named2, d) {
      if d != ip { assert HasName(was, named, d); }
    }
    forall d, n | Undotted(n) && Look(now, d, n) != 0 && IsDir(now, Look(now, d, n))
      ensures ChildOf(now, named2, d, n, Look(now, d, n))
    {
      if !(d == dp && n == name) {
        assert (d, n) !in links[ip] && !Counts(was, named, (d, n), ip);
        assert ChildOf(was, named, d, n, Look(was, d, n));
        assert HasName(was, named, Look(was, d, n));
      }
    }
  }

  // ----- one name fewer -----

  ghost predicate Removes(nodes: seq<Node>, dp: int, ents: seq<Entry<string>>, name: string) {
    && AllOk(nodes) && EntsOk(nodes, dp, ents) && NodeOk(nodes[dp], |nodes|) && Undotted(name)
    && Look(nodes, dp, name) != 0 && Names(ents) == Names(nodes[dp].ents) - {name}
  }

  ghost function DropLook(nodes: seq<Node>, dp: int, name: string, d: int, n: string): int {
    if d == dp && n == name then 0 else Look(nodes, d, n)
  }

  lemma LookRemoved(nodes: seq<Node>, dp: int, ents: seq<Entry<string>>, name: string, d: int, n: string)
    requires Removes(nodes, dp, ents, name)
    ensures Look(Entered(nodes, dp, ents), d, n) == DropLook(nodes, dp, name, d, n)
  {
    hide Names;
    LookEntered(nodes, dp, ents, d, n);
  }

  lemma UnnameFile(was: seq<Node>, named: Naming, links: Links, dp: int, ents: seq<Entry<string>>, name: string,
      ip: int)
    requires Linked(was, named, links) && Removes(was, dp, ents, name) && 0 < ip < |was| && !IsDir(was, ip)
        && Look(was, dp, name) == ip
    ensures Linked(Entered(was, dp, ents), named, links[ip := links[ip] - {(dp, name)}]) && (dp, name) in links[ip]
  {
    hide Look, AllOk, Shape, NodeOk, Headed, Names, Distinct, LinksOk, NamedOk, TreeOk;
    var now, links2 := Entered(was, dp, ents), links[ip := links[ip] - {(dp, name)}];
    EnteredOk(was, dp, ents);
    forall d, n ensures Look(now, d, n) == DropLook(was, dp, name, d, n) { LookRemoved(was, dp, ents, name, d, n); }
    DropFileLinks(was, now, named, links, dp, name, ip);
    DropFileTree(was, now, named, dp, name, ip);
  }

  lemma DropFileLinks(was: seq<Node>, now: seq<Node>, named: Naming, links: Links, dp: int, name: string, ip: int)
    requires LinksOk(was, named, links) && |was| == |now| && Undotted(name) && 0 < ip < |was|
        && Look(was, dp, name) == ip
    requires forall d, n :: Look(now, d, n) == DropLook(was, dp, name, d, n)
    ensures LinksOk(now, named, links[ip := links[ip] - {(dp, name)}]) && (dp, name) in links[ip]
  {
    hide Look;
    var x0, links2 := (dp, name), links[ip := links[ip] - {(dp, name)}];
    forall i, x | 0 <= i < |links2| ensures x in links2[i] <==> Counts(now, named, x, i) {
      assert x in links[i] <==> Counts(was, named, x, i);
      assert x == x0 <==> x.0 == dp && x.1 == name;
    }
    assert x0 in links[ip] <==> Counts(was, named, x0, ip);
  }

  lemma DropFileTree(was: seq<Node>, now: seq<Node>, named: Naming, dp: int, name: string, ip: int)
    requires NamedOk(was, named) && TreeOk(was, named) && |was| == |now| && Undotted(name) && Look(was, dp, name) == ip
        && !IsDir(was, ip)
    requires forall d, n :: Look(now, d, n) == DropLook(was, dp, name, d, n)
    requires forall d :: IsDir(now, d) == IsDir(was, d)
    ensures NamedOk(now, named) && TreeOk(now, named)
  {
    hide Look;
    forall d | d in named ensures HasName(now, named, d) { assert HasName(was, named, d); }
    forall d, n | Undotted(n) && Look(now, d, n) != 0 && IsDir(now, Look(now, d, n))
      ensures ChildOf(now, named, d, n, Look(now, d, n))
    {
      assert ChildOf(was, named, d, n, Look(was, d, n));
    }
  }

  /** Directory ip taken out of dp. */
  function Pruned(nodes: seq<Node>, dp: int, ents: seq<Entry<string>>, ip: int): seq<Node>
    requires 0 <= dp < |nodes| && 0 <= ip < |nodes|
  {
    nodes[dp := nodes[dp].(ents := ents, nlink := nodes[dp].nlink - 1)][ip := nodes[ip].(nlink := nodes[ip].nlink - 1)]
  }

  lemma UnnameDir(was: seq<Node>, named: Naming, links: Links, dp: int, ents: seq<Entry<string>>, name: string, ip: int)
    requires Linked(was, named, links) && Removes(was, dp, ents, name) && 0 < ip < |was| && IsDir(was, ip)
        && Look(was, dp, name) == ip && dp != 0
    ensures ip != dp
        && Linked(Pruned(was, dp, ents, ip), named - {ip},
        links[ip := links[ip] - {(dp, name)}][dp := links[dp] - {(ip, "..")}])
    ensures was[ip].nlink >= 1 && was[dp].nlink >= 1
  {
    hide Look, AllOk, Shape, NodeOk, Headed, Names, Distinct, LinksOk, NamedOk, TreeOk;
    var now := Pruned(was, dp, ents, ip);
    ChildIs(was, named, links, dp, name, ip);
    assert |links[ip]| > 0 && |links[dp]| > 0;
    PruneOk(was, dp, ents, ip);
    forall d, n ensures Look(now, d, n) == DropLook(was, dp, name, d, n) {
      LookRemoved(was, dp, ents, name, d, n);
      LookSame(Entered(was, dp, ents), now, d, n);
    }
    PruneLinks(was, now, named, links, dp, name, ip);
    PruneTree(was, now, named, dp, name, ip);
  }

  lemma RemovesIs(nodes: seq<Node>, dp: int, ents: seq<Entry<string>>, name: string)
    requires Removes(nodes, dp, ents, name)
    ensures IsDir(nodes, dp) && EntsOk(nodes, dp, ents) && Undotted(name)
  {
  }

  lemma ChildIs(nodes: seq<Node>, named: Naming, links: Links, dp: int, name: string, ip: int)
    requires LinksOk(nodes, named, links) && TreeOk(nodes, named) && 0 < ip && IsDir(nodes, ip) && 0 < dp < |nodes|
    requires Undotted(name) && Look(nodes, dp, name) == ip
    ensures ChildOf(nodes, named, dp, name, ip) && (dp, name) in links[ip] && (ip, "..") in links[dp]
  {
    hide Look;
    assert (dp, name) in links[ip] <==> Counts(nodes, named, (dp, name), ip);
    assert (ip, "..") in links[dp] <==> Counts(nodes, named, (ip, ".."), dp);
  }

  lemma PruneOk(was: seq<Node>, dp: int, ents: seq<Entry<string>>, ip: int)
    requires AllOk(was) && Shape(was) && EntsOk(was, dp, ents) && IsDir(was, ip) && ip != dp && was[ip].nlink >= 1
        && was[dp].nlink >= 1
    ensures AllOk(Pruned(was, dp, ents, ip)) && Shape(Pruned(was, dp, ents, ip))
  {
    hide Distinct;
    var now := Pruned(was, dp, ents, ip);
    forall j | 0 <= j < |now| ensures NodeOk(now[j], |now|) && Headed(now[j], j) {
      if j != dp { assert NodeOk(was[j], |was|) && Headed(was[j], j); }
    }
  }

  lemma PruneLinks(was: seq<Node>, now: seq<Node>, named: Naming, links: Links, dp: int, name: string, ip: int)
    requires LinksOk(was, named, links) && |was| == |now| && Undotted(name) && 0 < ip < |was|
        && Look(was, dp, name) == ip
    requires 0 < dp < |was| && dp != ip && Look(was, ip, "..") == dp
    requires forall d, n :: Look(now, d, n) == DropLook(was, dp, name, d, n)
    ensures LinksOk(now, named - {ip}, links[ip := links[ip] - {(dp, name)}][dp := links[dp] - {(ip, "..")}])
  {
    hide Look;
    var named2, links2 := named - {ip}, links[ip := links[ip] - {(dp, name)}][dp := links[dp] - {(ip, "..")}];
    forall i, x | 0 <= i < |links2| ensures x in links2[i] <==> Counts(now, named2, x, i) {
      assert x in links[i] <==> Counts(was, named, x, i);
      assert x == (x.0, x.1);
    }
  }

  lemma PruneTree(was: seq<Node>, now: seq<Node>, named: Naming, dp: int, name: string, ip: int)
    requires NamedOk(was, named) && TreeOk(was, named) && |was| == |now| && ChildOf(was, named, dp, name, ip)
    requires Undotted(name) && Look(was, dp, name) == ip
    requires forall d, n :: Look(now, d, n) == DropLook(was, dp, name, d, n)
    requires forall d :: IsDir(now, d) == IsDir(was, d)
    ensures NamedOk(now, named - {ip}) && TreeOk(now, named - {ip})
  {
    hide Look;
    var named2 := named - {ip};
    forall d | d in named2 ensures HasName(now, named2, d) { assert HasName(was, named, d); }
    forall d, n | Undotted(n) && Look(now, d, n) != 0 && IsDir(now, Look(now, d, n))
      ensures ChildOf(now, named2, d, n, Look(now, d, n))
    {
      assert ChildOf(was, named, d, n, Look(was, d, n));
    }
  }

  // ----- an inode is freed -----

  ghost function Without(links: Links, i: int): Links
      { seq(|links|, j requires 0 <= j < |links| => set x | x in links[j] && x.0 != i) }

  ghost function FreeLook(nodes: seq<Node>, i: int, d: int, n: string): int { if d == i then 0 else Look(nodes, d, n) }

  /** Without links it has no names that count; what it named itself is forgotten. */
  lemma FreeLinked(was: seq<Node>, named: Naming, links: Links, i: int)
    requires Linked(was, named, links) && 0 < i < |was| && was[i].nlink == 0
    ensures Linked(was[i := EMPTY], named, Without(links, i))
  {
    hide Look, AllOk, Shape, NodeOk, Headed, LinksOk, NamedOk, TreeOk;
    var now := was[i := EMPTY];
    CountAt(was, links, i);
    PlainOk(was, i, EMPTY);
    forall d, n ensures Look(now, d, n) == FreeLook(was, i, d, n) {
      if d == i { NoLook(now, i, n); } else { LookSame(was, now, d, n); }
    }
    if i in named { NamedLinked(was, named, links, i); }
    FreeLinksOk(was, now, named, links, i);
    FreeCount(was, now, named, links, i);
    FreeTree(was, now, named, links, i);
  }

  lemma CountAt(nodes: seq<Node>, links: Links, i: int)
    requires CountOk(nodes, links) && 0 <= i < |nodes| && nodes[i].nlink == 0
    ensures links[i] == {}
  {
    assert |links[i]| == 0;
  }

  /** A directory with a name has links. */
  lemma NamedLinked(nodes: seq<Node>, named: Naming, links: Links, d: int)
    requires LinksOk(nodes, named, links) && NamedOk(nodes, named) && 0 <= d < |nodes| && d in named
    ensures links[d] != {}
  {
    hide Look;
    assert HasName(nodes, named, d);
    var x := if d == ROOTINO then (ROOTINO, "..") else (Look(nodes, d, ".."), named[d]);
    assert Counts(nodes, named, x, d);
    assert x in links[d];
  }

  lemma FreeLinksOk(was: seq<Node>, now: seq<Node>, named: Naming, links: Links, i: int)
    requires LinksOk(was, named, links) && |was| == |now|
    requires forall d, n :: Look(now, d, n) == FreeLook(was, i, d, n)
    ensures LinksOk(now, named, Without(links, i))
  {
    hide Look;
    var links2 := Without(links, i);
    forall j, x | 0 <= j < |links2| ensures x in links2[j] <==> Counts(now, named, x, j) {
      assert x in links[j] <==> Counts(was, named, x, j);
    }
  }

  lemma FreeCount(was: seq<Node>, now: seq<Node>, named: Naming, links: Links, i: int)
    requires CountOk(was, links) && LinksOk(was, named, links) && TreeOk(was, named) && 0 < i < |was|
        && now == was[i := EMPTY]
    requires links[i] == {} && i !in named
    ensures CountOk(now, Without(links, i))
  {
    hide Look;
    var links2 := Without(links, i);
    forall j | 0 <= j < |links2|
      ensures |links2[j]| <= now[j].nlink && (now[j].kind == T_DIR ==> |links2[j]| == now[j].nlink)
    {
      Smaller(links2[j], links[j]);
      if now[j].kind == T_DIR {
        forall x | x in links[j] ensures x.0 != i {
          if x.0 == i { BackLink(was, named, links, i, j, x); }
        }
        assert links2[j] == links[j];
      }
    }
  }

  /** A directory named in i counts as a link to i. */
  lemma BackLink(nodes: seq<Node>, named: Naming, links: Links, i: int, j: int, x: Place)
    requires LinksOk(nodes, named, links) && TreeOk(nodes, named) && 0 < i < |nodes| && IsDir(nodes, j)
    requires i !in named && x in links[j] && x.0 == i
    ensures (j, "..") in links[i]
  {
    hide Look;
    assert Counts(nodes, named, x, j);
    assert ChildOf(nodes, named, i, x.1, j);
    assert Counts(nodes, named, (j, ".."), i);
  }

  lemma Smaller<T>(a: set<T>, b: set<T>)
    requires a <= b
    ensures |a| <= |b|
  {
    assert b == a + (b - a);
  }

  lemma FreeTree(was: seq<Node>, now: seq<Node>, named: Naming, links: Links, i: int)
    requires NamedOk(was, named) && TreeOk(was, named) && LinksOk(was, named, links) && 0 < i < |was|
        && now == was[i := EMPTY]
    requires links[i] == {} && i !in named && forall d, n :: Look(now, d, n) == FreeLook(was, i, d, n)
    ensures NamedOk(now, named) && TreeOk(now, named)
  {
    hide Look;
    forall d | d in named ensures HasName(now, named, d) {
      assert HasName(was, named, d);
      assert (d, "..") !in links[i] && !Counts(was, named, (d, ".."), i);
    }
    forall d, n | Undotted(n) && Look(now, d, n) != 0 && IsDir(now, Look(now, d, n))
      ensures ChildOf(now, named, d, n, Look(now, d, n))
    {
      assert ChildOf(was, named, d, n, Look(was, d, n));
    }
  }

  // ----- the operations -----

  /** create's new inode ip in dp. */
  function Created(was: seq<Node>, dp: int, ents: seq<Entry<string>>, ip: int, kind: int): seq<Node>
    requires 0 <= dp < |was| && 0 <= ip < |was|
  {
    if kind == T_DIR then Grafted(was, dp, ents, ip) else Entered(was[ip := Node(kind, 1, [])], dp, ents)
  }

  function CreatedNames(named: Naming, ip: int, kind: int, name: string): Naming
      { if kind == T_DIR then named[ip := name] else named }

  function CreatedLinks(links: Links, dp: int, ip: int, kind: int, name: string): Links
    requires 0 <= dp < |links| && 0 <= ip < |links|
  {
    var l := links[ip := {(dp, name)}];
    if kind == T_DIR then l[dp := links[dp] + {(ip, "..")}] else l
  }

  lemma AddsMid(was: seq<Node>, dp: int, ents: seq<Entry<string>>, name: string, ip: int, n: Node)
    requires Adds(was, dp, ents, name, ip) && 0 < ip < |was| && ip != dp && NodeOk(n, |was|)
    ensures Adds(was[ip := n], dp, ents, name, ip)
  {
    hide Names, Distinct;
    var mid := was[ip := n];
    LookSame(was, mid, dp, name);
    forall j | 0 <= j < |mid| ensures NodeOk(mid[j], |mid|) { if j != ip { assert NodeOk(was[j], |was|); } }
  }

  lemma CreatedSound(
    was: seq<Node>, ref: seq<int>, named: Naming, links: Links, dp: int, ents: seq<Entry<string>>, name: string,
        ip: int, kind: int)
    requires Sound(was, ref, named, links) && Adds(was, dp, ents, name, ip)
    requires 0 < ip < |was| && 0 < dp < |was| && was[ip].kind == 0 && kind != 0
    ensures Sound(Created(was, dp, ents, ip, kind), ref[ip := 1], CreatedNames(named, ip, kind, name),
        CreatedLinks(links, dp, ip, kind, name))
  {
    hide Look, AllOk, Shape, NodeOk, Headed, Names, Distinct, LinksOk, NamedOk, TreeOk, Linked;
    LinkedIs(was, named, links);
    FreeLinks(was, links, ip);
    var now := Created(was, dp, ents, ip, kind);
    if kind == T_DIR {
      NameDir(was, named, links, dp, ents, name, ip);
    } else {
      var n := Node(kind, 1, []);
      PlainLinked(was, named, links, ip, n);
      PlainNode(n, |was|);
      AddsMid(was, dp, ents, name, ip, n);
      NameFile(was[ip := n], named, links, dp, ents, name, ip);
      assert links[ip] + {(dp, name)} == {(dp, name)};
    }
    LinkedIs(now, CreatedNames(named, ip, kind, name), CreatedLinks(links, dp, ip, kind, name));
  }

  lemma PlainNode(n: Node, size: int)
    requires n.kind != 0 && n.nlink >= 0 && n.ents == []
    ensures NodeOk(n, size)
  {
  }

  lemma LinkedIs(nodes: seq<Node>, named: Naming, links: Links)
    requires Linked(nodes, named, links)
    ensures AllOk(nodes) && |nodes| == |links| > ROOTINO && CountOk(nodes, links)
  {
  }

  /** sys_unlink's removal of ip from dp. */
  function Removed(was: seq<Node>, dp: int, ents: seq<Entry<string>>, ip: int): seq<Node>
    requires 0 <= dp < |was| && 0 <= ip < |was|
  {
    if IsDir(was, ip) then Pruned(was, dp, ents, ip)
    else Entered(was, dp, ents)[ip := was[ip].(nlink := was[ip].nlink - 1)]
  }

  function RemovedNames(was: seq<Node>, named: Naming, ip: int): Naming
      { if IsDir(was, ip) then named - {ip} else named }

  function RemovedLinks(was: seq<Node>, links: Links, dp: int, ip: int, name: string): Links
    requires 0 <= dp < |links| && 0 <= ip < |links|
  {
    var l := links[ip := links[ip] - {(dp, name)}];
    if IsDir(was, ip) then l[dp := links[dp] - {(ip, "..")}] else l
  }

  lemma RemovedLinked(was: seq<Node>, named: Naming, links: Links, dp: int, ents: seq<Entry<string>>, name: string,
      ip: int)
    requires Linked(was, named, links) && Removes(was, dp, ents, name) && Look(was, dp, name) == ip && 0 < ip < |was|
        && 0 < dp < |was|
    ensures Linked(Removed(was, dp, ents, ip), RemovedNames(was, named, ip), RemovedLinks(was, links, dp, ip, name))
    ensures was[ip].nlink >= 1 && ip != dp && (IsDir(was, ip) ==> was[dp].nlink >= 1)
  {
    hide Look, AllOk, Shape, NodeOk, Headed, Names, Distinct, LinksOk, NamedOk, TreeOk, Linked;
    LinkedIs(was, named, links);
    if IsDir(was, ip) {
      UnnameDir(was, named, links, dp, ents, name, ip);
    } else {
      UnnameFile(was, named, links, dp, ents, name, ip);
      assert |links[ip]| > 0;
      var mid := Entered(was, dp, ents);
      PlainEnts(was, named, links, ip);
      FileInUse(was, ip);
      PlainLinked(mid, named, RemovedLinks(was, links, dp, ip, name), ip, was[ip].(nlink := was[ip].nlink - 1));
    }
  }

  lemma PlainEnts(nodes: seq<Node>, named: Naming, links: Links, i: int)
    requires Linked(nodes, named, links) && 0 <= i < |nodes| && !IsDir(nodes, i)
    ensures nodes[i].ents == []
  {
    assert Headed(nodes[i], i);
  }

  lemma FileInUse(nodes: seq<Node>, i: int)
    requires AllOk(nodes) && 0 <= i < |nodes| && nodes[i].nlink >= 1
    ensures nodes[i].kind != 0
  {
    assert NodeOk(nodes[i], |nodes|);
  }

  /** iput's last step: an inode without links and references is freed. */
  function Freed(nodes: seq<Node>, ref: seq<int>, i: int): seq<Node>
    requires 0 <= i < |nodes| == |ref|
  {
    if ref[i] == 0 && nodes[i].nlink == 0 then nodes[i := EMPTY] else nodes
  }

  ghost function FreedLinks(nodes: seq<Node>, ref: seq<int>, links: Links, i: int): Links
    requires 0 <= i < |nodes| == |ref|
  {
    if ref[i] == 0 && nodes[i].nlink == 0 then Without(links, i) else links
  }

  lemma FreedLinked(nodes: seq<Node>, ref: seq<int>, named: Naming, links: Links, i: int)
    requires Linked(nodes, named, links) && 0 < i < |nodes| == |ref|
    ensures Linked(Freed(nodes, ref, i), named, FreedLinks(nodes, ref, links, i))
  {
    hide Linked;
    if ref[i] == 0 && nodes[i].nlink == 0 { FreeLinked(nodes, named, links, i); }
  }

  /** The directory has no entries beside its first two. */
  ghost predicate Bare(n: Node) { forall k :: 2 <= k < |n.ents| ==> n.ents[k].inum == 0 }

  /** Path ip's locking panics: the walk does, or the inode already there is free. */
  ghost predicate CreatePanics(nodes: seq<Node>, path: string, cwd: int) {
    || PathPanics(nodes, path, cwd)
    || (var dp := PathParent(nodes, path, cwd);
        dp != 0 && Look(nodes, dp, LastName(path)) != 0 && !InUse(nodes, Look(nodes, dp, LastName(path))))
  }

  /** One name fewer in dp, for inode ip; either is freed if that leaves it without links and references. */
  ghost predicate Unlinked(was: seq<Node>, now: seq<Node>, ref: seq<int>, dp: int, ip: int, name: string) {
    && 0 < dp < |was| == |ref| && 0 < ip < |was|
    && exists ents :: Removes(was, dp, ents, name) && now == Freed(Freed(Removed(was, dp, ents, ip), ref, dp), ref, ip)
  }

  /** One name more in dp, and one link more to ip. */
  ghost predicate LinkMade(was: seq<Node>, now: seq<Node>, ip: int, dp: int, name: string) {
    && |was| == |now| && 0 < ip < |was| && IsDir(was, dp) && Adds(was, dp, now[dp].ents, name, ip)
    && now == Entered(was[ip := OneMore(was[ip])], dp, now[dp].ents)
  }

  /** The inode is named by one more entry. */
  function OneMore(n: Node): Node { n.(nlink := n.nlink + 1) }

  /** One of the inodes that sys_link locks is free. */
  ghost predicate LinkPanics(nodes: seq<Node>, from: string, to: string, cwd: int) {
    var ip := PathInode(nodes, from, cwd);
    PathPanics(nodes, from, cwd)
        || (ip != 0 && (!InUse(nodes, ip) || (!IsDir(nodes, ip) && PathPanics(nodes, to, cwd))))
  }

  /** sys_unlink takes files, devices and empty directories. */
  ghost predicate Removable(nodes: seq<Node>, ip: int)
      { 0 <= ip < |nodes| && (nodes[ip].kind == T_DIR ==> Bare(nodes[ip])) }

  ghost function UnlinkedLinks(
    was: seq<Node>, ref: seq<int>, links: Links, dp: int, ents: seq<Entry<string>>, name: string, ip: int): Links
    requires 0 <= dp < |was| == |links| == |ref| && 0 <= ip < |was|
  {
    var now := Removed(was, dp, ents, ip);
    FreedLinks(Freed(now, ref, dp), ref, FreedLinks(now, ref, RemovedLinks(was, links, dp, ip, name), dp), ip)
  }

  lemma LookNames(nodes: seq<Node>, d: int, name: string)
    requires AllOk(nodes) && IsDir(nodes, d) && Look(nodes, d, name) == 0
    ensures NodeOk(nodes[d], |nodes|) && name !in Names(nodes[d].ents)
  {
    hide Names;
    assert NodeOk(nodes[d], |nodes|);
    if name in Names(nodes[d].ents) {
      NamesAt(nodes[d].ents, 0, name);
      var k :| For(nodes[d].ents, k, name);
      NamesAt(nodes[d].ents, k, name);
    }
  }

  lemma StartOk(nodes: seq<Node>, ref: seq<int>, named: Naming, links: Links, cwd: int)
    requires Sound(nodes, ref, named, links) && 0 < cwd < |nodes| && ref[cwd] > 0
    ensures AllOk(nodes) && Orphans(nodes, ref) && |nodes| == |ref| == |links| > ROOTINO && nodes[ROOTINO].kind != 0
        && nodes[cwd].kind != 0
    ensures forall i :: 0 <= i < |ref| ==> ref[i] >= 0
  {
    assert HasName(nodes, named, ROOTINO);
  }
}

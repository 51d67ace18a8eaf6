/** Messages in which a directory shares its name with a link
    (crates/brokkr-cas/src/tree.rs): when the names alone decide whether the walk
    stays in its target. */
module DiskClash {
  import opened Common
  import opened Cas
  import opened Tree
  import opened Disk

  ghost predicate DirsApart(dirs: seq<DirNode>) {
    forall i, j :: 0 <= i < j < |dirs| ==> dirs[i].name != dirs[j].name
  }

  /** A link that shares its name with a directory has an absolute target. */
  ghost predicate ClashesAbsolute(m: Directory) {
    forall i, k :: 0 <= i < |m.dirs| && 0 <= k < |m.links| && m.dirs[i].name == m.links[k].name ==>
                     Absolute(m.links[k].target)
  }

  /** In every message the walk can reach the directories have different names,
      and links named like one of them are absolute. */
  ghost predicate ClashesLead(w: World, d: Digest, fuel: nat)
    decreases fuel
  {
    fuel > 0 && Fetch(w, d).Ok? && w.codec.decode(Fetch(w, d).value).Some? ==>
      var m := w.codec.decode(Fetch(w, d).value).value;
      DirsApart(m.dirs) && ClashesAbsolute(m) && ChildrenLead(w, m.dirs, fuel)
  }

  ghost predicate ChildrenLead(w: World, dirs: seq<DirNode>, fuel: nat)
    requires fuel > 0
    decreases fuel, 0
  {
    forall i :: 0 <= i < |dirs| && dirs[i].digest.Some? ==> ClashesLead(w, dirs[i].digest.value, fuel - 1)
  }

  // ----- a link on the way -----

  /** A real way down to an absolute link: following it leaves the target, or fails. */
  lemma {:induction false} StraysAt(nodes: Nodes, root: Path, base: Path, q: Path, name: Name, hops: nat)
    requires Straight(nodes, base, q) && ValidName(name) && base + q + [name] in nodes
    requires nodes[base + q + [name]].Symlink? && Absolute(nodes[base + q + [name]].target)
    ensures if hops > 0 then Strays(nodes, root, base, q + [name], true, hops)
            else Resolve(nodes, base, q + [name], true, hops) == Broken
    decreases |q|
  {
    if q == [] {
      assert base + q[..0] == base && q + [name] == [name] && base + q == base && [name][1..] == [];
    } else {
      StraightTail(nodes, base, q);
      assert IsFolder(nodes, base + q[..1]) && q[..1] == [q[0]];
      assert (q + [name])[1..] == q[1..] + [name] && (base + [q[0]]) + q[1..] == base + q;
      StraysAt(nodes, root, base + [q[0]], q[1..], name, hops);
    }
  }

  /** Making a folder where an absolute link is. */
  lemma FolderOverLink(w: World, s: Site, q: Path, d: DirNode)
    requires Straight(s.nodes, w.root, q) && (w.root + q) + [d.name] in s.nodes
    requires s.nodes[(w.root + q) + [d.name]].Symlink? && Absolute(s.nodes[(w.root + q) + [d.name]].target)
    ensures DoFolder(w, s, q, d).fault.None? ==> DoFolder(w, s, q, d).strayed
  {
    if s.fault.None? && ValidName(d.name) {
      ResolveStraight(s.nodes, w.root, w.root, q, d.name, false, w.hops);
      StraysAt(s.nodes, w.root, w.root, q, d.name, w.hops);
    }
  }

  // ----- the links of a message are there when its directories come -----

  ghost predicate IsLinkOf(nodes: Nodes, b: Path, links: seq<LinkNode>, n: Name) {
    exists i :: 0 <= i < |links| && links[i].name == n && At(nodes, b + [n]) == Some(Symlink(links[i].target))
  }

  ghost predicate LinksThere(nodes: Nodes, b: Path, links: seq<LinkNode>) {
    forall n :: n in LinkNames(links) ==> IsLinkOf(nodes, b, links, n)
  }

  lemma {:induction false} LinksMade(w: World, before: Site, q: Path, s: Site, links: seq<LinkNode>)
    requires Direct(w, before, q, s, {}, {}) && DoLinks(w, s, q, links).fault.None?
    ensures LinksThere(DoLinks(w, s, q, links).nodes, w.root + q, links)
  {
    if links != [] {
      var rest, l := links[..|links| - 1], links[|links| - 1];
      LinksMade(w, before, q, s, rest);
      assert rest[..|rest|] == rest;
      LinksDirect(w, before, q, s, rest, |rest|);
      var s1 := DoLinks(w, s, q, rest);
      ResolveStraight(s1.nodes, w.root, w.root, q, l.name, false, w.hops);
      LinkAdded(s1.nodes, w.root + q, rest, l);
      assert rest + [l] == links;
    }
  }

  lemma LinkAdded(nodes: Nodes, b: Path, links: seq<LinkNode>, l: LinkNode)
    requires LinksThere(nodes, b, links)
    ensures LinksThere(nodes[b + [l.name] := Symlink(l.target)], b, links + [l])
  {
    var more, now := links + [l], nodes[b + [l.name] := Symlink(l.target)];
    forall n | n in LinkNames(more) ensures IsLinkOf(now, b, more, n) {
      if n == l.name {
        assert more[|links|] == l;
      } else {
        var k :| 0 <= k < |more| && more[k].name == n;
        assert more[k] == links[k];
        assert n in LinkNames(links);
        assert IsLinkOf(nodes, b, links, n);
        var i :| 0 <= i < |links| && links[i].name == n && At(nodes, b + [n]) == Some(Symlink(links[i].target));
        assert (b + [n])[|b|] == n && (b + [l.name])[|b|] == l.name;
        assert more[i] == links[i];
      }
    }
  }

  // ----- directories leave the names beside them alone -----

  lemma {:induction false} DirLeaves(w: World, before: Site, q: Path, s: Site, links: set<Name>, made: set<Name>,
      d: DirNode, fuel: nat, x: Name)
    requires Direct(w, before, q, s, links, made) && d.name !in links && d.name !in made && x != d.name
    requires d.digest.Some? ==> NoRepeats(w, d.digest.value, fuel)
    ensures At(DoDir(w, s, q, d, fuel).nodes, (w.root + q) + [x]) == At(s.nodes, (w.root + q) + [x])
  {
    if s.fault.None? && ValidName(d.name) {
      var b, t := w.root + q, DoFolder(w, s, q, d);
      FolderDirect(w, before, q, s, links, made, d);
      Below(w.root, q, d.name);
      NotBelow(b, x, [], d.name);
      assert (b + [x]) + [] == b + [x];
      assert (b + [x])[|b|] == x && (b + [d.name])[|b|] == d.name;
      if t.fault.None? && d.digest.Some? {
        WalkDirect(w, t, q + [d.name], d.digest.value, fuel);
      }
    }
  }

  lemma {:induction false} DirsLeave(w: World, before: Site, q: Path, s: Site, links: set<Name>, dirs: seq<DirNode>,
      k: nat, fuel: nat, x: Name)
    requires Direct(w, before, q, s, links, {}) && k <= |dirs| && DirsApart(dirs)
    requires forall i :: 0 <= i < |dirs| ==> Plain(w, links, dirs[i], fuel) && dirs[i].name != x
    ensures At(DoDirs(w, s, q, dirs[..k], fuel).nodes, (w.root + q) + [x]) == At(s.nodes, (w.root + q) + [x])
  {
    if k > 0 {
      DirsLeave(w, before, q, s, links, dirs, k - 1, fuel, x);
      DirsDirect(w, before, q, s, links, dirs, k - 1, fuel);
      MadeNext(dirs, k);
      assert dirs[..k][..k - 1] == dirs[..k - 1];
      var s1, made := DoDirs(w, s, q, dirs[..k - 1], fuel), MadeNames(dirs[..k - 1]);
      DirLeaves(w, before, q, s1, links, made, dirs[k - 1], fuel, x);
    }
  }

  // ----- a clash is reached unless the walk fails -----

  /** A directory no link is named like, with no clash below it. */
  ghost predicate Plain(w: World, links: set<Name>, d: DirNode, fuel: nat) {
    d.name !in links && (d.digest.Some? ==> NoRepeats(w, d.digest.value, fuel))
  }

  lemma {:induction false} DirKeepsRecord(w: World, s: Site, q: Path, d: DirNode, fuel: nat)
    ensures DoFolder(w, s, q, d).strayed ==> DoDir(w, s, q, d, fuel).strayed
    ensures s.strayed ==> DoFolder(w, s, q, d).strayed
    ensures s.fault.Some? ==> DoDir(w, s, q, d, fuel).fault.Some?
    ensures DoFolder(w, s, q, d).fault.Some? ==> DoDir(w, s, q, d, fuel).fault.Some?
  {
    if d.digest.Some? {
      WalkKeepsRecord(w, DoFolder(w, s, q, d), q + [d.name], d.digest.value, fuel);
    }
  }

  /** The first directory that is not plain takes the walk outside. */
  lemma {:induction false} DirLeads(w: World, before: Site, q: Path, s: Site, m: Directory, made: set<Name>, d: DirNode,
      fuel: nat)
    requires Direct(w, before, q, s, LinkNames(m.links), made) && d.name !in made && d in m.dirs && ClashesAbsolute(m)
    requires d.name in LinkNames(m.links) ==> IsLinkOf(s.nodes, w.root + q, m.links, d.name)
    requires d.digest.Some? ==> ClashesLead(w, d.digest.value, fuel)
    requires !Plain(w, LinkNames(m.links), d, fuel) && DoDir(w, s, q, d, fuel).fault.None?
    ensures DoDir(w, s, q, d, fuel).strayed
    decreases fuel, 1
  {
    DirKeepsRecord(w, s, q, d, fuel);
    if d.name in LinkNames(m.links) {
      FolderOverLink(w, s, q, d);
    } else {
      FolderDirect(w, before, q, s, LinkNames(m.links), made, d);
      WalkLeads(w, DoFolder(w, s, q, d), q + [d.name], d.digest.value, fuel);
    }
  }

  lemma {:induction false} DirsLead(w: World, before: Site, q: Path, s: Site, m: Directory, k: nat, fuel: nat)
    requires Direct(w, before, q, s, LinkNames(m.links), {}) && LinksThere(s.nodes, w.root + q, m.links)
    requires k <= |m.dirs| && DirsApart(m.dirs) && ClashesAbsolute(m) && ChildrenLead(w, m.dirs, fuel + 1)
    requires exists i :: 0 <= i < k && !Plain(w, LinkNames(m.links), m.dirs[i], fuel)
    requires DoDirs(w, s, q, m.dirs[..k], fuel).fault.None?
    ensures DoDirs(w, s, q, m.dirs[..k], fuel).strayed
    decreases fuel, 2, k
  {
    var d, pre := m.dirs[k - 1], m.dirs[..k - 1];
    assert m.dirs[..k][..k - 1] == pre;
    var s1 := DoDirs(w, s, q, pre, fuel);
    DirKeepsRecord(w, s1, q, d, fuel);
    if i :| 0 <= i < k - 1 && !Plain(w, LinkNames(m.links), m.dirs[i], fuel) {
      DirsLead(w, before, q, s, m, k - 1, fuel);
    } else {
      assert pre[..k - 1] == pre;
      DirsDirect(w, before, q, s, LinkNames(m.links), pre, k - 1, fuel);
      DirsLeave(w, before, q, s, LinkNames(m.links), pre, k - 1, fuel, d.name);
      MadeNext(m.dirs, k);
      DirLeads(w, before, q, s1, m, MadeNames(pre), d, fuel);
    }
  }

  lemma {:induction false} WalkLeads(w: World, s: Site, q: Path, d: Digest, fuel: nat)
    requires Straight(s.nodes, w.root, q) && Empty(s.nodes, w.root + q) && ClashesLead(w, d, fuel)
    requires !NoRepeats(w, d, fuel) && Walk(w, s, q, d, fuel).fault.None?
    ensures Walk(w, s, q, d, fuel).strayed
    decreases fuel, 0
  {
    var m := w.codec.decode(Fetch(w, d).value).value;
    var s1 := DoFiles(w, s, q, m.files);
    var s2 := DoLinks(w, s1, q, m.links);
    assert m.links[..|m.links|] == m.links && m.dirs[..|m.dirs|] == m.dirs;
    TidyAtFirst(s.nodes, w.root + q);
    FilesDirect(w, s, q, s, m.files);
    LinksDirect(w, s, q, s1, m.links, |m.links|);
    DirsPassFault(w, s2, q, m.dirs, fuel - 1);
    LinksMade(w, s, q, s1, m.links);
    SomeNotPlain(w, m, fuel - 1);
    DirsLead(w, s, q, s2, m, |m.dirs|, fuel - 1);
  }

  lemma {:induction false} DirsPassFault(w: World, s: Site, q: Path, dirs: seq<DirNode>, fuel: nat)
    ensures s.fault.Some? ==> DoDirs(w, s, q, dirs, fuel).fault.Some?
  {
    if dirs != [] {
      DirsPassFault(w, s, q, dirs[..|dirs| - 1], fuel);
    }
  }

  lemma SomeNotPlain(w: World, m: Directory, fuel: nat)
    requires DirsApart(m.dirs)
    requires !(Distinctly(m) &&
               forall i :: 0 <= i < |m.dirs| && m.dirs[i].digest.Some? ==> NoRepeats(w, m.dirs[i].digest.value, fuel))
    ensures exists i :: 0 <= i < |m.dirs| && !Plain(w, LinkNames(m.links), m.dirs[i], fuel)
  {
    if Distinctly(m) {
      var i :| 0 <= i < |m.dirs| && m.dirs[i].digest.Some? && !NoRepeats(w, m.dirs[i].digest.value, fuel);
      assert !Plain(w, LinkNames(m.links), m.dirs[i], fuel);
    } else {
      var i, k :| 0 <= i < |m.dirs| && 0 <= k < |m.links| && m.dirs[i].name == m.links[k].name;
      assert m.links[k].name in LinkNames(m.links);
      assert !Plain(w, LinkNames(m.links), m.dirs[i], fuel);
    }
  }

  /** Where directories have different names and a link named like one is
      absolute, a walk that ends well has stayed in its target exactly when no
      reachable message names a link and a directory alike. */
  lemma {:induction false} ClashIff(w: World, nodes: Nodes, d: Digest, fuel: nat)
    requires Empty(nodes, w.root) && ClashesLead(w, d, fuel) && Materialize(w, nodes, d, fuel).fault.None?
    ensures Materialize(w, nodes, d, fuel).strayed <==> !NoRepeats(w, d, fuel)
  {
    assert w.root + [] == w.root;
    if NoRepeats(w, d, fuel) {
      DistinctNamesConfine(w, nodes, d, fuel);
    } else {
      assert Straight(nodes, w.root, []);
      WalkLeads(w, Start(nodes), [], d, fuel);
    }
  }

  // ----- links that only lead down -----

  /** A relative target that never goes up. */
  predicate Descends(target: Bytes) { !Absolute(target) && NoUp(Split(target)) }

  predicate NoUp(segs: seq<Name>) { [DOT, DOT] !in segs }

  ghost predicate LinksDescend(nodes: Nodes, root: Path) {
    forall p: Path :: root < p && p in nodes && nodes[p].Symlink? ==> Descends(nodes[p].target)
  }

  /** In every message the walk can reach, links only lead down. */
  ghost predicate AllDescend(w: World, d: Digest, fuel: nat)
    decreases fuel
  {
    fuel > 0 && Fetch(w, d).Ok? && w.codec.decode(Fetch(w, d).value).Some? ==>
      var m := w.codec.decode(Fetch(w, d).value).value;
      (forall k :: 0 <= k < |m.links| ==> Descends(m.links[k].target)) && BelowDescend(w, m.dirs, fuel)
  }

  ghost predicate BelowDescend(w: World, dirs: seq<DirNode>, fuel: nat)
    requires fuel > 0
    decreases fuel, 0
  {
    forall i :: 0 <= i < |dirs| && dirs[i].digest.Some? ==> AllDescend(w, dirs[i].digest.value, fuel - 1)
  }

  /** A path without `..` over links that only lead down stays below. */
  lemma {:induction false} StaysBelow(nodes: Nodes, root: Path, base: Path, segs: seq<Name>, follow: bool, hops: nat)
    requires LinksDescend(nodes, root) && root <= base && NoUp(segs)
    ensures !Strays(nodes, root, base, segs, follow, hops)
    decreases hops, |segs|
  {
    if segs != [] && IsFolder(nodes, base) {
      var seg, rest := segs[0], segs[1..];
      var p := base + [seg];
      assert NoUp(rest);
      assert root < p;
      if seg == [] || seg == [DOT] {
        StaysBelow(nodes, root, base, rest, follow, hops);
      } else if p in nodes && nodes[p].Symlink? && (rest != [] || follow) {
        if hops > 0 {
          StaysBelow(nodes, root, base, Split(nodes[p].target) + rest, follow, hops - 1);
        }
      } else if rest != [] {
        StaysBelow(nodes, root, p, rest, follow, hops);
      }
    }
  }

  /** A walk that has stayed in its target, where all links lead down. */
  ghost predicate Within(w: World, s: Site) {
    !s.strayed && IsFolder(s.nodes, w.root) && LinksDescend(s.nodes, w.root)
  }

  ghost predicate Plainly(q: Path) { forall i :: 0 <= i < |q| ==> ValidName(q[i]) }

  lemma OnTheWay(w: World, s: Site, q: Path, name: Name, follow: bool)
    requires Within(w, s) && Plainly(q) && ValidName(name)
    ensures Noted(w, s, q + [name], follow) == s
  {
    assert NoUp(q + [name]);
    StaysBelow(s.nodes, w.root, w.root, q + [name], follow, w.hops);
  }

  lemma {:induction false} FilesWithin(w: World, s: Site, q: Path, files: seq<FileNode>)
    requires Within(w, s) && Plainly(q)
    ensures Within(w, DoFiles(w, s, q, files))
  {
    if files != [] {
      var f := files[|files| - 1];
      FilesWithin(w, s, q, files[..|files| - 1]);
      if ValidName(f.name) {
        OnTheWay(w, DoFiles(w, s, q, files[..|files| - 1]), q, f.name, true);
      }
    }
  }

  lemma {:induction false} LinksWithin(w: World, s: Site, q: Path, links: seq<LinkNode>)
    requires Within(w, s) && Plainly(q) && forall k :: 0 <= k < |links| ==> Descends(links[k].target)
    ensures Within(w, DoLinks(w, s, q, links))
  {
    if links != [] {
      var l := links[|links| - 1];
      LinksWithin(w, s, q, links[..|links| - 1]);
      if ValidName(l.name) {
        OnTheWay(w, DoLinks(w, s, q, links[..|links| - 1]), q, l.name, false);
      }
    }
  }

  lemma FolderWithin(w: World, s: Site, q: Path, d: DirNode)
    requires Within(w, s) && Plainly(q)
    ensures Within(w, DoFolder(w, s, q, d))
  {
    if ValidName(d.name) {
      OnTheWay(w, s, q, d.name, false);
      OnTheWay(w, s, q, d.name, true);
    }
  }

  lemma {:induction false} DirsWithin(w: World, s: Site, q: Path, dirs: seq<DirNode>, fuel: nat)
    requires Within(w, s) && Plainly(q) && BelowDescend(w, dirs, fuel + 1)
    ensures Within(w, DoDirs(w, s, q, dirs, fuel))
    decreases fuel, 2, |dirs|
  {
    if dirs != [] {
      var rest, d := dirs[..|dirs| - 1], dirs[|dirs| - 1];
      DirsWithin(w, s, q, rest, fuel);
      var t := DoFolder(w, DoDirs(w, s, q, rest, fuel), q, d);
      FolderWithin(w, DoDirs(w, s, q, rest, fuel), q, d);
      if t.fault.None? && d.digest.Some? {
        WalkWithin(w, t, q + [d.name], d.digest.value, fuel);
      }
    }
  }

  lemma {:induction false} WalkWithin(w: World, s: Site, q: Path, d: Digest, fuel: nat)
    requires Within(w, s) && Plainly(q) && AllDescend(w, d, fuel)
    ensures Within(w, Walk(w, s, q, d, fuel))
    decreases fuel, 0
  {
    if s.fault.None? && fuel > 0 && Fetch(w, d).Ok? && w.codec.decode(Fetch(w, d).value).Some? {
      var m := w.codec.decode(Fetch(w, d).value).value;
      FilesWithin(w, s, q, m.files);
      LinksWithin(w, DoFiles(w, s, q, m.files), q, m.links);
      DirsWithin(w, DoLinks(w, DoFiles(w, s, q, m.files), q, m.links), q, m.dirs, fuel - 1);
    }
  }

  /** If links only lead down, the walk stays in its target on every disk,
      whatever names the messages repeat and even if it fails. */
  lemma DescendingConfine(w: World, nodes: Nodes, d: Digest, fuel: nat)
    requires Empty(nodes, w.root) && AllDescend(w, d, fuel)
    ensures !Materialize(w, nodes, d, fuel).strayed && SameOutside(nodes, Materialize(w, nodes, d, fuel).nodes, w.root)
  {
    WalkWithin(w, Start(nodes), [], d, fuel);
    ConfinedIff(w, nodes, d, fuel);
  }
}

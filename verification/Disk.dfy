/** The file system a tree is materialised into (crates/brokkr-cas/src/tree.rs):
    paths, symbolic links met on the way, and what each call of the walk does. */
module Disk {
  import opened Common
  import opened Order
  import opened Cas
  import opened Tree

  type Path = seq<Name>

  datatype Inode = Regular(data: Bytes, mode: nat) | Symlink(target: Bytes) | Folder

  type Nodes = map<Path, Inode>

  function At(nodes: Nodes, p: Path): Option<Inode> { if p in nodes then Some(nodes[p]) else None }

  predicate IsFolder(nodes: Nodes, p: Path) { At(nodes, p) == Some(Folder) }

  // ----- resolving a path -----

  predicate Absolute(target: Bytes) { target != [] && target[0] == SLASH }

  function Parent(p: Path): Path { if p == [] then [] else p[..|p| - 1] }

  /** Where a path leads: to a node or to a free name in a folder, or nowhere. */
  datatype Place = Found(path: Path) | Broken

  /** Follows `segs` from folder `base`; a link in last position only if `follow`,
      and at most `hops` links in all. */
  function Resolve(nodes: Nodes, base: Path, segs: seq<Name>, follow: bool, hops: nat): Place
    decreases hops, |segs|
  {
    if segs == [] then if base in nodes then Found(base) else Broken
    else if !IsFolder(nodes, base) then Broken
    else
      var seg, rest := segs[0], segs[1..];
      var p := base + [seg];
      if seg == [] || seg == [DOT] then Resolve(nodes, base, rest, follow, hops)
      else if seg == [DOT, DOT] then Resolve(nodes, Parent(base), rest, follow, hops)
      else if p in nodes && nodes[p].Symlink? && (rest != [] || follow) then
        if hops == 0 then Broken
        else
          var target := nodes[p].target;
          Resolve(nodes, if Absolute(target) then [] else base, Split(target) + rest, follow, hops - 1)
      else if rest == [] then Found(p)
      else Resolve(nodes, p, rest, follow, hops)
  }

  /** The same path passes outside folder `root`: up from it, or by an absolute link. */
  predicate Strays(nodes: Nodes, root: Path, base: Path, segs: seq<Name>, follow: bool, hops: nat)
    decreases hops, |segs|
  {
    if segs == [] || !IsFolder(nodes, base) then false
    else
      var seg, rest := segs[0], segs[1..];
      var p := base + [seg];
      if seg == [] || seg == [DOT] then Strays(nodes, root, base, rest, follow, hops)
      else if seg == [DOT, DOT] then base == root || Strays(nodes, root, Parent(base), rest, follow, hops)
      else if p in nodes && nodes[p].Symlink? && (rest != [] || follow) then
        hops > 0 && (Absolute(nodes[p].target) ||
            Strays(nodes, root, base, Split(nodes[p].target) + rest, follow, hops - 1))
      else rest != [] && Strays(nodes, root, p, rest, follow, hops)
  }

  // ----- the calls of the walk -----

  /** What a walk works with: the store, the target folder, the link limit. */
  datatype World = World(codec: Codec, blobs: map<Digest, Bytes>, up: bool, root: Path, hops: nat)

  /** The disk, the counts, the first failure, and whether a path has passed outside the target. */
  datatype Site = Site(nodes: Nodes, stats: Stats, fault: Option<Failure>, strayed: bool)

  function Fetch(w: World, d: Digest): Result<Bytes, CasError> { if w.up then Lookup(w.blobs, d) else Err(Unavailable) }

  function Fail(s: Site, e: Failure): Site { s.(fault := Some(e)) }

  /** Notes whether resolving `segs` from the target passes outside it. */
  function Noted(w: World, s: Site, segs: seq<Name>, follow: bool): Site {
    s.(strayed := s.strayed || Strays(s.nodes, w.root, w.root, segs, follow, w.hops))
  }

  function ModeOf(was: Option<Inode>, executable: bool): nat {
    if executable then EXECUTABLE else if was.Some? && was.value.Regular? then was.value.mode else PLAIN
  }

  /** Creates or overwrites a file, through a link if one is there. */
  function PutFile(w: World, s: Site, q: Path, name: Name, data: Bytes, executable: bool): Site {
    var t := Noted(w, s, q + [name], true);
    match Resolve(s.nodes, w.root, q + [name], true, w.hops)
    case Broken => Fail(t, Io)
    case Found(p) =>
      if IsFolder(s.nodes, p) then Fail(t, Io)
      else t.(nodes := s.nodes[p := Regular(data, ModeOf(At(s.nodes, p), executable))])
  }

  /** Puts a link in place of whatever but a folder is there. */
  function PutLink(w: World, s: Site, q: Path, name: Name, target: Bytes): Site {
    var t := Noted(w, s, q + [name], false);
    match Resolve(s.nodes, w.root, q + [name], false, w.hops)
    case Broken => Fail(t, Io)
    case Found(p) =>
      if IsFolder(s.nodes, p) then Fail(t, Io)
      else if !ValidTarget(target) then Fail(t.(nodes := s.nodes - {p}), Io)
      else t.(nodes := s.nodes[p := Symlink(target)])
  }

  /** Makes a folder, or accepts one that is there, through a link if need be. */
  function PutFolder(w: World, s: Site, q: Path, name: Name): Site {
    var t := Noted(w, s, q + [name], false);
    match Resolve(s.nodes, w.root, q + [name], false, w.hops)
    case Broken => Fail(t, Io)
    case Found(p) =>
      if p !in s.nodes then t.(nodes := s.nodes[p := Folder])
      else
        var u := Noted(w, t, q + [name], true);
        match Resolve(s.nodes, w.root, q + [name], true, w.hops)
        case Found(there) => if IsFolder(s.nodes, there) then u else Fail(u, Io)
        case Broken => Fail(u, Io)
  }

  function Count(s: Site, more: Stats): Site { if s.fault.Some? then s else s.(stats := Plus(s.stats, more)) }

  function DoFile(w: World, s: Site, q: Path, f: FileNode): Site {
    if s.fault.Some? then s
    else if !ValidName(f.name) then Fail(s, InvalidName)
    else if f.digest.None? then Fail(s, InvalidDigest)
    else
      match Fetch(w, f.digest.value)
      case Err(e) => Fail(s, Store(e))
      case Ok(data) => Count(PutFile(w, s, q, f.name, data, f.executable), Stats(1, 0, 0, f.digest.value.size))
  }

  function DoFiles(w: World, s: Site, q: Path, files: seq<FileNode>): Site {
    if files == [] then s else DoFile(w, DoFiles(w, s, q, files[..|files| - 1]), q, files[|files| - 1])
  }

  function DoLink(w: World, s: Site, q: Path, l: LinkNode): Site {
    if s.fault.Some? then s
    else if !ValidName(l.name) then Fail(s, InvalidName)
    else Count(PutLink(w, s, q, l.name, l.target), Stats(0, 0, 1, 0))
  }

  function DoLinks(w: World, s: Site, q: Path, links: seq<LinkNode>): Site {
    if links == [] then s else DoLink(w, DoLinks(w, s, q, links[..|links| - 1]), q, links[|links| - 1])
  }

  /** The folder for one child, before the walk goes into it. */
  function DoFolder(w: World, s: Site, q: Path, d: DirNode): Site {
    if s.fault.Some? then s
    else if !ValidName(d.name) then Fail(s, InvalidName)
    else
      var t := Count(PutFolder(w, s, q, d.name), Stats(0, 1, 0, 0));
      if t.fault.None? && d.digest.None? then Fail(t, InvalidDigest) else t
  }

  function DoDir(w: World, s: Site, q: Path, d: DirNode, fuel: nat): Site
    decreases fuel, 1
  {
    var t := DoFolder(w, s, q, d);
    if t.fault.Some? || d.digest.None? then t else Walk(w, t, q + [d.name], d.digest.value, fuel)
  }

  function DoDirs(w: World, s: Site, q: Path, dirs: seq<DirNode>, fuel: nat): Site
    decreases fuel, 2, |dirs|
  {
    if dirs == [] then s else DoDir(w, DoDirs(w, s, q, dirs[..|dirs| - 1], fuel), q, dirs[|dirs| - 1], fuel)
  }

  /** Materialises the message under `d` into the path `q` below the target. */
  function Walk(w: World, s: Site, q: Path, d: Digest, fuel: nat): Site
    decreases fuel, 0
  {
    if s.fault.Some? then s
    else if fuel == 0 then Fail(s, TooDeep)
    else
      match Fetch(w, d)
      case Err(e) => Fail(s, Store(e))
      case Ok(data) =>
        match w.codec.decode(data)
        case None => Fail(s, Undecodable)
        case Some(m) => DoDirs(w, DoLinks(w, DoFiles(w, s, q, m.files), q, m.links), q, m.dirs, fuel - 1)
  }

  function Start(nodes: Nodes): Site { Site(nodes, NoStats, None, false) }

  // ----- the target as a disk of its own -----

  /** Below `root`, `nodes` is a copy of the disk `inner`. */
  ghost predicate Holds(nodes: Nodes, root: Path, inner: Nodes) {
    forall q: Path :: At(nodes, root + q) == At(inner, q)
  }

  /** Nothing but what lies strictly below `root` differs. */
  ghost predicate SameOutside(before: Nodes, after: Nodes, root: Path) {
    forall p: Path :: !(root < p) ==> At(after, p) == At(before, p)
  }

  function Lift(root: Path, p: Place): Place { match p case Found(q) => Found(root + q) case Broken => Broken }

  lemma Below(root: Path, b: Path, seg: Name)
    ensures root + (b + [seg]) == (root + b) + [seg]
    ensures root + b == root <==> b == []
    ensures b != [] ==> root + Parent(b) == Parent(root + b)
  {
    assert b == [] ==> root + b == root;
    assert b != [] ==> (root + b)[..|root + b| - 1] == root + b[..|b| - 1];
  }

  /** Unless a path passes outside, it leads to the same node as on the target's own disk. */
  lemma {:induction false} ResolveLift(nodes: Nodes, root: Path, inner: Nodes, b: Path, segs: seq<Name>, follow: bool,
      hops: nat)
    requires Holds(nodes, root, inner)
    ensures Strays(nodes, root, root + b, segs, follow, hops) == Strays(inner, [], b, segs, follow, hops)
    ensures !Strays(inner, [], b, segs, follow, hops) ==>
              Resolve(nodes, root + b, segs, follow, hops) == Lift(root, Resolve(inner, b, segs, follow, hops))
    decreases hops, |segs|
  {
    assert At(nodes, root + b) == At(inner, b);
    if segs != [] && IsFolder(inner, b) {
      var seg, rest := segs[0], segs[1..];
      Below(root, b, seg);
      assert At(nodes, root + (b + [seg])) == At(inner, b + [seg]);
      if seg == [] || seg == [DOT] {
        ResolveLift(nodes, root, inner, b, rest, follow, hops);
      } else if seg == [DOT, DOT] {
        if b != [] {
          ResolveLift(nodes, root, inner, Parent(b), rest, follow, hops);
        }
      } else if b + [seg] in inner && inner[b + [seg]].Symlink? && (rest != [] || follow) {
        if hops > 0 && !Absolute(inner[b + [seg]].target) {
          ResolveLift(nodes, root, inner, b, Split(inner[b + [seg]].target) + rest, follow, hops - 1);
        }
      } else if rest != [] {
        ResolveLift(nodes, root, inner, b + [seg], rest, follow, hops);
      }
    }
  }

  lemma HoldsPut(nodes: Nodes, root: Path, inner: Nodes, q: Path, x: Inode)
    requires Holds(nodes, root, inner)
    ensures Holds(nodes[root + q := x], root, inner[q := x])
  {
    forall p: Path ensures At(nodes[root + q := x], root + p) == At(inner[q := x], p) {
      assert (root + p)[|root|..] == p && (root + q)[|root|..] == q;
    }
  }

  lemma HoldsDrop(nodes: Nodes, root: Path, inner: Nodes, q: Path)
    requires Holds(nodes, root, inner)
    ensures Holds(nodes - {root + q}, root, inner - {q})
  {
    forall p: Path ensures At(nodes - {root + q}, root + p) == At(inner - {q}, p) {
      assert (root + p)[|root|..] == p && (root + q)[|root|..] == q;
    }
  }

  /** A walk on a disk and one on the target's own disk: they stray together,
      and until then do the same, below the target only. */
  ghost predicate Alike(before: Nodes, root: Path, s: Site, inner: Site) {
    && s.strayed == inner.strayed
    && (!s.strayed ==>
          && Holds(s.nodes, root, inner.nodes) && IsFolder(inner.nodes, []) && SameOutside(before, s.nodes, root)
          && s.stats == inner.stats && s.fault == inner.fault)
  }

  /** The same walk in a disk that is the target and nothing else. */
  function Inner(w: World): World { w.(root := []) }

  lemma OutsidePut(before: Nodes, now: Nodes, root: Path, q: Path, x: Inode)
    requires SameOutside(before, now, root) && q != []
    ensures SameOutside(before, now[root + q := x], root) && SameOutside(before, now - {root + q}, root)
  {
    assert root < root + q;
  }

  lemma FileAlike(w: World, before: Nodes, s: Site, inner: Site, q: Path, name: Name, data: Bytes, executable: bool)
    requires Alike(before, w.root, s, inner) && !s.strayed
    ensures Alike(before, w.root, PutFile(w, s, q, name, data, executable),
            PutFile(Inner(w), inner, q, name, data, executable))
  {
    assert w.root + [] == w.root;
    ResolveLift(s.nodes, w.root, inner.nodes, [], q + [name], true, w.hops);
    var place := Resolve(inner.nodes, [], q + [name], true, w.hops);
    if place.Found? && !IsFolder(inner.nodes, place.path) {
      assert At(s.nodes, w.root + place.path) == At(inner.nodes, place.path);
      var x := Regular(data, ModeOf(At(inner.nodes, place.path), executable));
      HoldsPut(s.nodes, w.root, inner.nodes, place.path, x);
      OutsidePut(before, s.nodes, w.root, place.path, x);
    }
  }

  lemma LinkAlike(w: World, before: Nodes, s: Site, inner: Site, q: Path, name: Name, target: Bytes)
    requires Alike(before, w.root, s, inner) && !s.strayed
    ensures Alike(before, w.root, PutLink(w, s, q, name, target), PutLink(Inner(w), inner, q, name, target))
  {
    assert w.root + [] == w.root;
    ResolveLift(s.nodes, w.root, inner.nodes, [], q + [name], false, w.hops);
    var place := Resolve(inner.nodes, [], q + [name], false, w.hops);
    if place.Found? && !IsFolder(inner.nodes, place.path) {
      assert At(s.nodes, w.root + place.path) == At(inner.nodes, place.path);
      HoldsPut(s.nodes, w.root, inner.nodes, place.path, Symlink(target));
      HoldsDrop(s.nodes, w.root, inner.nodes, place.path);
      OutsidePut(before, s.nodes, w.root, place.path, Symlink(target));
    }
  }

  lemma FolderAlike(w: World, before: Nodes, s: Site, inner: Site, q: Path, name: Name)
    requires Alike(before, w.root, s, inner) && !s.strayed
    ensures Alike(before, w.root, PutFolder(w, s, q, name), PutFolder(Inner(w), inner, q, name))
  {
    assert w.root + [] == w.root;
    ResolveLift(s.nodes, w.root, inner.nodes, [], q + [name], false, w.hops);
    ResolveLift(s.nodes, w.root, inner.nodes, [], q + [name], true, w.hops);
    var place := Resolve(inner.nodes, [], q + [name], false, w.hops);
    var through := Resolve(inner.nodes, [], q + [name], true, w.hops);
    if place.Found? {
      assert At(s.nodes, w.root + place.path) == At(inner.nodes, place.path);
      if place.path !in inner.nodes {
        HoldsPut(s.nodes, w.root, inner.nodes, place.path, Folder);
        OutsidePut(before, s.nodes, w.root, place.path, Folder);
      } else if through.Found? {
        assert At(s.nodes, w.root + through.path) == At(inner.nodes, through.path);
      }
    }
  }

  lemma {:induction false} FilesAlike(w: World, before: Nodes, s: Site, inner: Site, q: Path, files: seq<FileNode>)
    requires Alike(before, w.root, s, inner)
    ensures Alike(before, w.root, DoFiles(w, s, q, files), DoFiles(Inner(w), inner, q, files))
  {
    if files != [] {
      var rest, f := files[..|files| - 1], files[|files| - 1];
      FilesAlike(w, before, s, inner, q, rest);
      var s1, inner1 := DoFiles(w, s, q, rest), DoFiles(Inner(w), inner, q, rest);
      if !s1.strayed && f.digest.Some? && Fetch(w, f.digest.value).Ok? {
        FileAlike(w, before, s1, inner1, q, f.name, Fetch(w, f.digest.value).value, f.executable);
      }
    }
  }

  lemma {:induction false} LinksAlike(w: World, before: Nodes, s: Site, inner: Site, q: Path, links: seq<LinkNode>)
    requires Alike(before, w.root, s, inner)
    ensures Alike(before, w.root, DoLinks(w, s, q, links), DoLinks(Inner(w), inner, q, links))
  {
    if links != [] {
      var rest, l := links[..|links| - 1], links[|links| - 1];
      LinksAlike(w, before, s, inner, q, rest);
      var s1, inner1 := DoLinks(w, s, q, rest), DoLinks(Inner(w), inner, q, rest);
      if !s1.strayed {
        LinkAlike(w, before, s1, inner1, q, l.name, l.target);
      }
    }
  }

  /** Once outside, always on record. */
  lemma {:induction false} FilesKeepRecord(w: World, s: Site, q: Path, files: seq<FileNode>)
    ensures s.strayed ==> DoFiles(w, s, q, files).strayed
  {
    if files != [] {
      FilesKeepRecord(w, s, q, files[..|files| - 1]);
    }
  }

  lemma {:induction false} LinksKeepRecord(w: World, s: Site, q: Path, links: seq<LinkNode>)
    ensures s.strayed ==> DoLinks(w, s, q, links).strayed
  {
    if links != [] {
      LinksKeepRecord(w, s, q, links[..|links| - 1]);
    }
  }

  lemma {:induction false} DirsKeepRecord(w: World, s: Site, q: Path, dirs: seq<DirNode>, fuel: nat)
    ensures s.strayed ==> DoDirs(w, s, q, dirs, fuel).strayed
    decreases fuel, 2, |dirs|
  {
    if dirs != [] {
      var rest, d := dirs[..|dirs| - 1], dirs[|dirs| - 1];
      DirsKeepRecord(w, s, q, rest, fuel);
      var t := DoFolder(w, DoDirs(w, s, q, rest, fuel), q, d);
      if d.digest.Some? {
        WalkKeepsRecord(w, t, q + [d.name], d.digest.value, fuel);
      }
    }
  }

  lemma {:induction false} WalkKeepsRecord(w: World, s: Site, q: Path, d: Digest, fuel: nat)
    ensures s.strayed ==> Walk(w, s, q, d, fuel).strayed
    decreases fuel, 0
  {
    if s.fault.None? && fuel > 0 && Fetch(w, d).Ok? && w.codec.decode(Fetch(w, d).value).Some? {
      var m := w.codec.decode(Fetch(w, d).value).value;
      FilesKeepRecord(w, s, q, m.files);
      LinksKeepRecord(w, DoFiles(w, s, q, m.files), q, m.links);
      DirsKeepRecord(w, DoLinks(w, DoFiles(w, s, q, m.files), q, m.links), q, m.dirs, fuel - 1);
    }
  }

  lemma {:induction false} DirsAlike(w: World, before: Nodes, s: Site, inner: Site, q: Path, dirs: seq<DirNode>,
      fuel: nat)
    requires Alike(before, w.root, s, inner)
    ensures Alike(before, w.root, DoDirs(w, s, q, dirs, fuel), DoDirs(Inner(w), inner, q, dirs, fuel))
    decreases fuel, 2, |dirs|
  {
    if dirs != [] {
      var rest, d := dirs[..|dirs| - 1], dirs[|dirs| - 1];
      DirsAlike(w, before, s, inner, q, rest, fuel);
      DirAlike(w, before, DoDirs(w, s, q, rest, fuel), DoDirs(Inner(w), inner, q, rest, fuel), q, d, fuel);
    }
  }

  lemma {:induction false} DirAlike(w: World, before: Nodes, s: Site, inner: Site, q: Path, d: DirNode, fuel: nat)
    requires Alike(before, w.root, s, inner)
    ensures Alike(before, w.root, DoDir(w, s, q, d, fuel), DoDir(Inner(w), inner, q, d, fuel))
    decreases fuel, 1
  {
    var t, innerT := DoFolder(w, s, q, d), DoFolder(Inner(w), inner, q, d);
    if !s.strayed {
      FolderAlike(w, before, s, inner, q, d.name);
    }
    assert Alike(before, w.root, t, innerT);
    if d.digest.Some? {
      if t.strayed {
        WalkKeepsRecord(w, t, q + [d.name], d.digest.value, fuel);
        WalkKeepsRecord(Inner(w), innerT, q + [d.name], d.digest.value, fuel);
      } else {
        WalkAlike(w, before, t, innerT, q + [d.name], d.digest.value, fuel);
      }
    }
  }

  lemma {:induction false} WalkAlike(w: World, before: Nodes, s: Site, inner: Site, q: Path, d: Digest, fuel: nat)
    requires Alike(before, w.root, s, inner) && !s.strayed
    ensures Alike(before, w.root, Walk(w, s, q, d, fuel), Walk(Inner(w), inner, q, d, fuel))
    decreases fuel, 0
  {
    if s.fault.None? && fuel > 0 && Fetch(w, d).Ok? && w.codec.decode(Fetch(w, d).value).Some? {
      var m := w.codec.decode(Fetch(w, d).value).value;
      FilesAlike(w, before, s, inner, q, m.files);
      var s1, inner1 := DoFiles(w, s, q, m.files), DoFiles(Inner(w), inner, q, m.files);
      LinksAlike(w, before, s1, inner1, q, m.links);
      DirsAlike(w, before, DoLinks(w, s1, q, m.links), DoLinks(Inner(w), inner1, q, m.links), q, m.dirs, fuel - 1);
    }
  }

  // ----- confinement -----

  /** A folder with nothing in it. */
  ghost predicate Empty(nodes: Nodes, p: Path) { IsFolder(nodes, p) && forall b: Path :: p < b ==> b !in nodes }

  /** Materialising on a given disk. */
  function Materialize(w: World, nodes: Nodes, d: Digest, fuel: nat): Site { Walk(w, Start(nodes), [], d, fuel) }

  /** Materialising on a disk that holds nothing but the target. */
  function DryRun(w: World, d: Digest, fuel: nat): Site { Walk(Inner(w), Start(map[[] := Folder]), [], d, fuel) }

  /** Confinement: on every disk, materialising into an empty folder passes
      outside it exactly when the dry run does, which needs the store only. If
      it does not, outcome, counts and contents are the dry run's, and nothing
      else on the disk changes. */
  lemma ConfinedIff(w: World, nodes: Nodes, d: Digest, fuel: nat)
    requires Empty(nodes, w.root)
    ensures Materialize(w, nodes, d, fuel).strayed <==> DryRun(w, d, fuel).strayed
    ensures var s, dry := Materialize(w, nodes, d, fuel), DryRun(w, d, fuel);
            !dry.strayed ==>
              && s.fault == dry.fault && s.stats == dry.stats
              && Holds(s.nodes, w.root, dry.nodes) && SameOutside(nodes, s.nodes, w.root)
  {
    forall q: Path ensures At(nodes, w.root + q) == At(map[[] := Folder], q) {
      if q == [] {
        assert w.root + q == w.root;
      } else {
        assert w.root < w.root + q;
      }
    }
    WalkAlike(w, nodes, Start(nodes), Start(map[[] := Folder]), [], d, fuel);
  }

  // ----- plain copies: no name repeated, no link met -----

  /** Every folder on the way down `q` is a real one. */
  ghost predicate Straight(nodes: Nodes, base: Path, q: Path) {
    && (forall i :: 0 <= i <= |q| ==> IsFolder(nodes, base + q[..i]))
    && (forall i :: 0 <= i < |q| ==> ValidName(q[i]))
  }

  lemma StraightTail(nodes: Nodes, base: Path, q: Path)
    requires Straight(nodes, base, q) && q != []
    ensures IsFolder(nodes, base) && Straight(nodes, base + [q[0]], q[1..])
  {
    assert base + q[..0] == base;
    forall i | 0 <= i <= |q[1..]| ensures IsFolder(nodes, (base + [q[0]]) + q[1..][..i]) {
      assert (base + [q[0]]) + q[1..][..i] == base + q[..i + 1];
    }
  }

  /** A real way down leads where it says, and stays inside. */
  lemma {:induction false} ResolveStraight(nodes: Nodes, root: Path, base: Path, q: Path, name: Name, follow: bool,
      hops: nat)
    requires Straight(nodes, base, q) && ValidName(name)
    requires follow ==> !(base + q + [name] in nodes && nodes[base + q + [name]].Symlink?)
    ensures Resolve(nodes, base, q + [name], follow, hops) == Found(base + q + [name])
    ensures !Strays(nodes, root, base, q + [name], follow, hops)
    decreases |q|
  {
    if q == [] {
      assert base + q[..0] == base && q + [name] == [name] && base + q == base && [name][1..] == [];
    } else {
      StraightTail(nodes, base, q);
      assert IsFolder(nodes, base + q[..1]) && q[..1] == [q[0]];
      assert (q + [name])[1..] == q[1..] + [name] && (base + [q[0]]) + q[1..] == base + q;
      ResolveStraight(nodes, root, base + [q[0]], q[1..], name, follow, hops);
    }
  }

  /** What a tree has under a path. */
  function Inside(t: Tree, rest: Path): Option<Inode> {
    if rest == [] then
      match t
      case File(data, mode) => Some(Regular(data, mode))
      case Link(target) => Some(Symlink(target))
      case Dir(_) => Some(Folder)
    else if t.Dir? && rest[0] in t.entries then Inside(t.entries[rest[0]], rest[1..])
    else None
  }

  function Under(entries: map<Name, Tree>, n: Name, rest: Path): Option<Inode> {
    if n in entries then Inside(entries[n], rest) else None
  }

  /** Folder `b` holds exactly `entries`. */
  ghost predicate Shows(nodes: Nodes, b: Path, entries: map<Name, Tree>) {
    IsFolder(nodes, b) && forall n: Name, rest: Path :: At(nodes, (b + [n]) + rest) == Under(entries, n, rest)
  }

  lemma SamePath(b: Path, n: Name, rest: Path, m: Name, other: Path)
    ensures (b + [n]) + rest == (b + [m]) + other <==> n == m && rest == other
    ensures (b + [n]) + rest != b && b < (b + [n]) + rest
  {
    if (b + [n]) + rest == (b + [m]) + other {
      assert ((b + [n]) + rest)[|b|] == n && ((b + [m]) + other)[|b|] == m;
      assert ((b + [n]) + rest)[|b| + 1..] == rest && ((b + [m]) + other)[|b| + 1..] == other;
    }
  }

  lemma ShowsNone(nodes: Nodes, b: Path)
    requires Empty(nodes, b)
    ensures Shows(nodes, b, map[])
  {
    forall n: Name, rest: Path ensures At(nodes, (b + [n]) + rest) == None {
      SamePath(b, n, rest, n, rest);
    }
  }

  lemma {:induction false} ShowsLeaf(nodes: Nodes, b: Path, entries: map<Name, Tree>, n: Name, t: Tree, x: Inode)
    requires Shows(nodes, b, entries) && n !in entries && !t.Dir? && Inside(t, []) == Some(x)
    ensures Shows(nodes[b + [n] := x], b, entries[n := t])
  {
    var now := nodes[b + [n] := x];
    forall m: Name, rest: Path ensures At(now, (b + [m]) + rest) == Under(entries[n := t], m, rest) {
      SamePath(b, m, rest, n, []);
      assert (b + [n]) + [] == b + [n];
      assert At(nodes, (b + [m]) + rest) == Under(entries, m, rest);
    }
    SamePath(b, n, [], n, []);
    assert (b + [n]) + [] == b + [n];
  }

  lemma ShowsFolder(nodes: Nodes, after: Nodes, b: Path, entries: map<Name, Tree>, n: Name, sub: map<Name, Tree>)
    requires Shows(nodes, b, entries) && n !in entries
    requires SameOutside(nodes[b + [n] := Folder], after, b + [n]) && Shows(after, b + [n], sub)
    ensures Shows(after, b, entries[n := Dir(sub)])
  {
    var made := nodes[b + [n] := Folder];
    forall m: Name, rest: Path ensures At(after, (b + [m]) + rest) == Under(entries[n := Dir(sub)], m, rest) {
      SamePath(b, m, rest, n, []);
      assert (b + [n]) + [] == b + [n];
      assert At(nodes, (b + [m]) + rest) == Under(entries, m, rest);
      if m == n {
        if rest == [] {
          assert (b + [m]) + rest == b + [n];
        } else {
          assert (b + [m]) + rest == ((b + [n]) + [rest[0]]) + rest[1..];
          assert At(after, ((b + [n]) + [rest[0]]) + rest[1..]) == Under(sub, rest[0], rest[1..]);
        }
      } else {
        NotBelow(b, m, rest, n);
        assert At(after, (b + [m]) + rest) == At(made, (b + [m]) + rest);
      }
    }
    SamePath(b, n, [], n, []);
    assert (b + [n]) + [] == b + [n];
    assert !(b + [n] < b);
  }

  lemma NotBelow(b: Path, m: Name, rest: Path, n: Name)
    requires m != n
    ensures !(b + [n] < (b + [m]) + rest)
  {
    assert (b + [n])[|b|] == n && ((b + [m]) + rest)[|b|] == m;
  }

  /** A copy under way: folder `q` below the target holds `work`, nothing
      outside that folder has changed and no path has left the target. */
  ghost predicate Copying(w: World, before: Site, q: Path, s: Site, work: Work) {
    && s.fault.None? && s.strayed == before.strayed && s.stats == Plus(before.stats, work.stats)
    && SameOutside(before.nodes, s.nodes, w.root + q) && Straight(s.nodes, w.root, q)
    && Shows(s.nodes, w.root + q, work.entries)
  }

  lemma StillStraight(before: Nodes, after: Nodes, root: Path, q: Path)
    requires Straight(before, root, q) && SameOutside(before, after, root + q)
    ensures Straight(after, root, q)
  {
    forall i | 0 <= i <= |q| ensures IsFolder(after, root + q[..i]) {
      assert |root + q[..i]| <= |root + q|;
    }
  }

  /** One more child that is a file or a link. */
  lemma {:induction false} LeafCopied(w: World, before: Site, q: Path, s: Site, work: Work, n: Name, t: Tree, x: Inode,
      more: Stats)
    requires Copying(w, before, q, s, work) && n !in work.entries && !t.Dir? && Inside(t, []) == Some(x)
    ensures (w.root + q) + [n] !in s.nodes
    ensures Copying(w, before, q, s.(nodes := s.nodes[(w.root + q) + [n] := x], stats := Plus(s.stats, more)),
                    Work(work.entries[n := t], Plus(work.stats, more)))
  {
    var b := w.root + q;
    assert (b + [n]) + [] == b + [n] && At(s.nodes, (b + [n]) + []) == Under(work.entries, n, []);
    ShowsLeaf(s.nodes, b, work.entries, n, t, x);
    PlusAssoc(before.stats, work.stats, more);
    var now := s.nodes[b + [n] := x];
    SamePath(b, n, [], n, []);
    assert SameOutside(before.nodes, now, b);
    forall i | 0 <= i <= |q| ensures IsFolder(now, w.root + q[..i]) {
      assert |w.root + q[..i]| < |b + [n]|;
    }
  }

  lemma {:induction false} FilesCopied(w: World, before: Site, q: Path, s: Site, work: Work, files: seq<FileNode>)
    requires w.up && Copying(w, before, q, s, work) && WriteFiles(w.blobs, work, files).Ok?
    ensures Copying(w, before, q, DoFiles(w, s, q, files), WriteFiles(w.blobs, work, files).value)
  {
    if files != [] {
      var rest, f := files[..|files| - 1], files[|files| - 1];
      FilesCopied(w, before, q, s, work, rest);
      FileStep(w, before, q, DoFiles(w, s, q, rest), WriteFiles(w.blobs, work, rest).value, f);
    }
  }

  lemma FileStep(w: World, before: Site, q: Path, s: Site, work: Work, f: FileNode)
    requires w.up && Copying(w, before, q, s, work) && WriteFile(w.blobs, work, f).Ok?
    ensures Copying(w, before, q, DoFile(w, s, q, f), WriteFile(w.blobs, work, f).value)
  {
    var data := Lookup(w.blobs, f.digest.value).value;
    var mode := if f.executable then EXECUTABLE else PLAIN;
    LeafCopied(w, before, q, s, work, f.name, File(data, mode), Regular(data, mode),
        Stats(1, 0, 0, f.digest.value.size));
    ResolveStraight(s.nodes, w.root, w.root, q, f.name, true, w.hops);
  }

  lemma {:induction false} LinksCopied(w: World, before: Site, q: Path, s: Site, work: Work, links: seq<LinkNode>)
    requires Copying(w, before, q, s, work) && WriteLinks(work, links).Ok?
    ensures Copying(w, before, q, DoLinks(w, s, q, links), WriteLinks(work, links).value)
  {
    if links != [] {
      var rest, l := links[..|links| - 1], links[|links| - 1];
      LinksCopied(w, before, q, s, work, rest);
      var s1, work1 := DoLinks(w, s, q, rest), WriteLinks(work, rest).value;
      LeafCopied(w, before, q, s1, work1, l.name, Link(l.target), Symlink(l.target), Stats(0, 0, 1, 0));
      ResolveStraight(s1.nodes, w.root, w.root, q, l.name, false, w.hops);
    }
  }

  /** The folder for one more child: empty, and reached by a real way down. */
  lemma FolderMade(w: World, before: Site, q: Path, s: Site, work: Work, d: DirNode)
    requires Copying(w, before, q, s, work) && ValidName(d.name) && d.name !in work.entries && d.digest.Some?
    ensures DoFolder(w, s, q, d) ==
            s.(nodes := s.nodes[(w.root + q) + [d.name] := Folder], stats := Plus(s.stats, Stats(0, 1, 0, 0)))
    ensures Straight(DoFolder(w, s, q, d).nodes, w.root, q + [d.name]) &&
            Empty(DoFolder(w, s, q, d).nodes, w.root + (q + [d.name]))
  {
    var b, n := w.root + q, d.name;
    Below(w.root, q, n);
    assert (b + [n]) + [] == b + [n] && At(s.nodes, (b + [n]) + []) == Under(work.entries, n, []);
    ResolveStraight(s.nodes, w.root, w.root, q, n, false, w.hops);
    var now := s.nodes[b + [n] := Folder];
    forall p: Path | b + [n] < p ensures p !in now {
      assert p == (b + [n]) + p[|b| + 1..];
      assert At(s.nodes, (b + [n]) + p[|b| + 1..]) == Under(work.entries, n, p[|b| + 1..]);
    }
    forall i | 0 <= i <= |q + [n]| ensures IsFolder(now, w.root + (q + [n])[..i]) {
      if i <= |q| {
        assert (q + [n])[..i] == q[..i] && |w.root + q[..i]| < |b + [n]|;
      } else {
        assert (q + [n])[..i] == q + [n];
      }
    }
  }

  lemma {:induction false} DirsCopied(w: World, before: Site, q: Path, s: Site, work: Work, dirs: seq<DirNode>,
      fuel: nat)
    requires w.up && Copying(w, before, q, s, work) && WriteDirs(w.codec, w.blobs, work, dirs, fuel).Ok?
    ensures Copying(w, before, q, DoDirs(w, s, q, dirs, fuel), WriteDirs(w.codec, w.blobs, work, dirs, fuel).value)
    decreases fuel, 2, |dirs|
  {
    if dirs != [] {
      var rest, d := dirs[..|dirs| - 1], dirs[|dirs| - 1];
      DirsCopied(w, before, q, s, work, rest, fuel);
      var s1, work1 := DoDirs(w, s, q, rest, fuel), WriteDirs(w.codec, w.blobs, work, rest, fuel).value;
      FolderMade(w, before, q, s1, work1, d);
      var t := DoFolder(w, s1, q, d);
      WalkCopied(w, t, q + [d.name], d.digest.value, fuel);
      DirStep(w, before, q, s1, work1, d, Walk(w, t, q + [d.name], d.digest.value, fuel), fuel);
    }
  }

  lemma {:induction false} DirStep(w: World, before: Site, q: Path, s: Site, work: Work, d: DirNode, after: Site,
      fuel: nat)
    requires Copying(w, before, q, s, work) && WriteDir(w.codec, w.blobs, work, d, fuel).Ok?
    requires DoFolder(w, s, q, d) ==
             s.(nodes := s.nodes[(w.root + q) + [d.name] := Folder], stats := Plus(s.stats, Stats(0, 1, 0, 0)))
    requires Copying(w, DoFolder(w, s, q, d), q + [d.name], after,
             Materialized(w.codec, w.blobs, d.digest.value, fuel).value)
    ensures Copying(w, before, q, after, WriteDir(w.codec, w.blobs, work, d, fuel).value)
  {
    var b, n := w.root + q, d.name;
    var sub := Materialized(w.codec, w.blobs, d.digest.value, fuel).value;
    Below(w.root, q, n);
    ShowsFolder(s.nodes, after.nodes, b, work.entries, n, sub.entries);
    PlusAssoc(before.stats, work.stats, Stats(0, 1, 0, 0));
    PlusAssoc(Plus(before.stats, work.stats), Stats(0, 1, 0, 0), sub.stats);
    PlusAssoc(before.stats, work.stats, Plus(Stats(0, 1, 0, 0), sub.stats));
    forall p: Path | !(b < p) ensures At(after.nodes, p) == At(before.nodes, p) {
      assert !(b + [n] < p) && p != b + [n];
    }
    StillStraight(s.nodes, after.nodes, w.root, q);
  }

  /** Where the copy without repeated names succeeds, the walk makes exactly that copy. */
  lemma {:induction false} WalkCopied(w: World, s: Site, q: Path, d: Digest, fuel: nat)
    requires w.up && s.fault.None? && Straight(s.nodes, w.root, q) && Empty(s.nodes, w.root + q)
    requires Materialized(w.codec, w.blobs, d, fuel).Ok?
    ensures Copying(w, s, q, Walk(w, s, q, d, fuel), Materialized(w.codec, w.blobs, d, fuel).value)
    decreases fuel, 0
  {
    var m := w.codec.decode(Lookup(w.blobs, d).value).value;
    ShowsNone(s.nodes, w.root + q);
    PlusZero(s.stats);
    var w0 := Work(map[], NoStats);
    assert Copying(w, s, q, s, w0);
    FilesCopied(w, s, q, s, w0, m.files);
    var s1, w1 := DoFiles(w, s, q, m.files), WriteFiles(w.blobs, w0, m.files).value;
    LinksCopied(w, s, q, s1, w1, m.links);
    DirsCopied(w, s, q, DoLinks(w, s1, q, m.links), WriteLinks(w1, m.links).value, m.dirs, fuel - 1);
  }

  // ----- a condition on the messages -----

  /** A message whose directories have names of their own among its directories and links. */
  ghost predicate Distinctly(m: Directory) {
    && (forall i, j :: 0 <= i < j < |m.dirs| ==> m.dirs[i].name != m.dirs[j].name)
    && (forall i, k :: 0 <= i < |m.dirs| && 0 <= k < |m.links| ==> m.dirs[i].name != m.links[k].name)
  }

  /** So has every message the walk can reach. */
  ghost predicate NoRepeats(w: World, d: Digest, fuel: nat)
    decreases fuel
  {
    fuel > 0 && Fetch(w, d).Ok? && w.codec.decode(Fetch(w, d).value).Some? ==>
      var m := w.codec.decode(Fetch(w, d).value).value;
      Distinctly(m) && forall i :: 0 <= i < |m.dirs| && m.dirs[i].digest.Some? ==>
          NoRepeats(w, m.dirs[i].digest.value, fuel - 1)
  }

  ghost predicate TidyName(nodes: Nodes, b: Path, links: set<Name>, made: set<Name>, n: Name) {
    && (n !in links ==> !(b + [n] in nodes && nodes[b + [n]].Symlink?))
    && (n !in made ==> !IsFolder(nodes, b + [n]) && Bare(nodes, b + [n]))
  }

  /** In folder `b` only `links` may be links, only `made` folders. */
  ghost predicate Tidy(nodes: Nodes, b: Path, links: set<Name>, made: set<Name>) {
    forall n: Name :: TidyName(nodes, b, links, made, n)
  }

  ghost predicate Bare(nodes: Nodes, p: Path) { forall b: Path :: p < b ==> b !in nodes }

  /** A walk inside folder `q` that has met no link. */
  ghost predicate Direct(w: World, before: Site, q: Path, s: Site, links: set<Name>, made: set<Name>) {
    && s.strayed == before.strayed && SameOutside(before.nodes, s.nodes, w.root + q)
    && Straight(s.nodes, w.root, q) && Tidy(s.nodes, w.root + q, links, made)
  }

  /** Putting or removing a leaf of the folder. */
  lemma TidyPut(nodes: Nodes, b: Path, links: set<Name>, made: set<Name>, n: Name, x: Inode)
    requires Tidy(nodes, b, links, made) && !x.Folder? && (x.Symlink? ==> n in links)
    ensures Tidy(nodes[b + [n] := x], b, links, made) && Tidy(nodes - {b + [n]}, b, links, made)
  {
    var put, cut := nodes[b + [n] := x], nodes - {b + [n]};
    forall m: Name ensures TidyName(put, b, links, made, m) && TidyName(cut, b, links, made, m) {
      TidyPutName(nodes, b, links, made, n, x, m);
    }
  }

  lemma TidyPutName(nodes: Nodes, b: Path, links: set<Name>, made: set<Name>, n: Name, x: Inode, m: Name)
    requires Tidy(nodes, b, links, made) && !x.Folder? && (x.Symlink? ==> n in links)
    ensures TidyName(nodes[b + [n] := x], b, links, made, m) && TidyName(nodes - {b + [n]}, b, links, made, m)
  {
    assert TidyName(nodes, b, links, made, m);
    assert (b + [m])[|b|] == m && (b + [n])[|b|] == n;
    assert !(b + [m] < b + [n]);
  }

  lemma DirectMore(w: World, before: Site, q: Path, s: Site, links: set<Name>, made: set<Name>, moreLinks: set<Name>,
      moreMade: set<Name>)
    requires Direct(w, before, q, s, links, made) && links <= moreLinks && made <= moreMade
    ensures Direct(w, before, q, s, moreLinks, moreMade)
  {
    forall m: Name ensures TidyName(s.nodes, w.root + q, moreLinks, moreMade, m) {
      assert TidyName(s.nodes, w.root + q, links, made, m);
    }
  }

  lemma DirectLeaf(w: World, before: Site, q: Path, s: Site, links: set<Name>, made: set<Name>, n: Name, x: Inode)
    requires Direct(w, before, q, s, links, made) && !x.Folder? && (x.Symlink? ==> n in links)
    ensures Direct(w, before, q, s.(nodes := s.nodes[(w.root + q) + [n] := x]), links, made)
    ensures Direct(w, before, q, s.(nodes := s.nodes - {(w.root + q) + [n]}), links, made)
  {
    var b := w.root + q;
    TidyPut(s.nodes, b, links, made, n, x);
    assert b < b + [n];
    forall i | 0 <= i <= |q| ensures w.root + q[..i] != b + [n] {
      assert |w.root + q[..i]| < |b + [n]|;
    }
  }

  lemma {:induction false} FilesDirect(w: World, before: Site, q: Path, s: Site, files: seq<FileNode>)
    requires Direct(w, before, q, s, {}, {})
    ensures Direct(w, before, q, DoFiles(w, s, q, files), {}, {})
  {
    if files != [] {
      var f := files[|files| - 1];
      FilesDirect(w, before, q, s, files[..|files| - 1]);
      var s1 := DoFiles(w, s, q, files[..|files| - 1]);
      if s1.fault.None? && ValidName(f.name) && f.digest.Some? && Fetch(w, f.digest.value).Ok? {
        var p := (w.root + q) + [f.name];
        assert TidyName(s1.nodes, w.root + q, {}, {}, f.name);
        ResolveStraight(s1.nodes, w.root, w.root, q, f.name, true, w.hops);
        DirectLeaf(w, before, q, s1, {}, {}, f.name,
            Regular(Fetch(w, f.digest.value).value, ModeOf(At(s1.nodes, p), f.executable)));
      }
    }
  }

  function LinkNames(links: seq<LinkNode>): set<Name> { set k | 0 <= k < |links| :: links[k].name }

  lemma {:induction false} LinksDirect(w: World, before: Site, q: Path, s: Site, links: seq<LinkNode>, k: nat)
    requires Direct(w, before, q, s, {}, {}) && k <= |links|
    ensures Direct(w, before, q, DoLinks(w, s, q, links[..k]), LinkNames(links), {})
  {
    if k == 0 {
      DirectMore(w, before, q, s, {}, {}, LinkNames(links), {});
    } else {
      var l := links[k - 1];
      assert links[..k][..k - 1] == links[..k - 1];
      LinksDirect(w, before, q, s, links, k - 1);
      LinkDirect(w, before, q, DoLinks(w, s, q, links[..k - 1]), LinkNames(links), l);
    }
  }

  lemma LinkDirect(w: World, before: Site, q: Path, s: Site, links: set<Name>, l: LinkNode)
    requires Direct(w, before, q, s, links, {}) && l.name in links
    ensures Direct(w, before, q, DoLink(w, s, q, l), links, {})
  {
    if s.fault.None? && ValidName(l.name) {
      ResolveStraight(s.nodes, w.root, w.root, q, l.name, false, w.hops);
      DirectLeaf(w, before, q, s, links, {}, l.name, Symlink(l.target));
    }
  }

  function MadeNames(dirs: seq<DirNode>): set<Name> { set k | 0 <= k < |dirs| :: dirs[k].name }

  /** Going into a fresh folder. */
  lemma FolderDirect(w: World, before: Site, q: Path, s: Site, links: set<Name>, made: set<Name>, d: DirNode)
    requires Direct(w, before, q, s, links, made) && s.fault.None? && ValidName(d.name) && d.name !in links &&
             d.name !in made
    ensures DoFolder(w, s, q, d).strayed == s.strayed
    ensures (w.root + q) + [d.name] in s.nodes ==>
            DoFolder(w, s, q, d).fault.Some? && DoFolder(w, s, q, d).nodes == s.nodes
    ensures (w.root + q) + [d.name] !in s.nodes ==>
              var t := DoFolder(w, s, q, d);
              && t.nodes == s.nodes[(w.root + q) + [d.name] := Folder]
              && Straight(t.nodes, w.root, q + [d.name]) && Empty(t.nodes, w.root + (q + [d.name]))
  {
    var b, n := w.root + q, d.name;
    Below(w.root, q, n);
    assert TidyName(s.nodes, b, links, made, n);
    ResolveStraight(s.nodes, w.root, w.root, q, n, false, w.hops);
    ResolveStraight(s.nodes, w.root, w.root, q, n, true, w.hops);
    if b + [n] !in s.nodes {
      var now := s.nodes[b + [n] := Folder];
      forall i | 0 <= i <= |q + [n]| ensures IsFolder(now, w.root + (q + [n])[..i]) {
        if i <= |q| {
          assert (q + [n])[..i] == q[..i] && |w.root + q[..i]| < |b + [n]|;
        } else {
          assert (q + [n])[..i] == q + [n];
        }
      }
    }
  }

  lemma DirectAfter(w: World, before: Site, q: Path, s: Site, links: set<Name>, made: set<Name>, n: Name, after: Site)
    requires Direct(w, before, q, s, links, made) && after.strayed == s.strayed
    requires SameOutside(s.nodes[(w.root + q) + [n] := Folder], after.nodes, (w.root + q) + [n])
    ensures Direct(w, before, q, after, links, made + {n})
  {
    var b := w.root + q;
    var mid := s.nodes[b + [n] := Folder];
    assert b < b + [n];
    forall p: Path | !(b < p) ensures At(after.nodes, p) == At(s.nodes, p) {
      assert !(b + [n] < p) && p != b + [n];
    }
    StillStraight(s.nodes, after.nodes, w.root, q);
    forall m: Name ensures TidyName(after.nodes, b, links, made + {n}, m) {
      assert TidyName(s.nodes, b, links, made, m);
      SamePath(b, m, [], n, []);
      assert (b + [m]) + [] == b + [m] && (b + [n]) + [] == b + [n];
      if m != n {
        NotBelow(b, m, [], n);
        assert At(after.nodes, b + [m]) == At(mid, b + [m]) == At(s.nodes, b + [m]);
        forall p: Path | b + [m] < p && m !in made ensures p !in after.nodes {
          assert p == (b + [m]) + p[|b| + 1..];
          NotBelow(b, m, p[|b| + 1..], n);
          assert At(after.nodes, p) == At(mid, p);
          assert p != b + [n] by { assert p[|b|] == m && (b + [n])[|b|] == n; }
        }
      } else {
        assert At(after.nodes, b + [n]) == At(mid, b + [n]);
      }
    }
  }

  lemma {:induction false} DirsDirect(w: World, before: Site, q: Path, s: Site, links: set<Name>, dirs: seq<DirNode>,
      k: nat, fuel: nat)
    requires Direct(w, before, q, s, links, {}) && k <= |dirs|
    requires forall i, j :: 0 <= i < j < |dirs| ==> dirs[i].name != dirs[j].name
    requires forall i :: 0 <= i < |dirs| ==>
             dirs[i].name !in links && (dirs[i].digest.Some? ==> NoRepeats(w, dirs[i].digest.value, fuel))
    ensures Direct(w, before, q, DoDirs(w, s, q, dirs[..k], fuel), links, MadeNames(dirs[..k]))
    decreases fuel, 2, k
  {
    if k == 0 {
      assert MadeNames(dirs[..0]) == {};
    } else {
      var d := dirs[k - 1];
      assert dirs[..k][..k - 1] == dirs[..k - 1];
      DirsDirect(w, before, q, s, links, dirs, k - 1, fuel);
      var s1, made := DoDirs(w, s, q, dirs[..k - 1], fuel), MadeNames(dirs[..k - 1]);
      MadeNext(dirs, k);
      DirDirect(w, before, q, s1, links, made, d, fuel);
    }
  }

  lemma MadeNext(dirs: seq<DirNode>, k: nat)
    requires 0 < k <= |dirs| && forall i, j :: 0 <= i < j < |dirs| ==> dirs[i].name != dirs[j].name
    ensures MadeNames(dirs[..k]) == MadeNames(dirs[..k - 1]) + {dirs[k - 1].name} &&
            dirs[k - 1].name !in MadeNames(dirs[..k - 1])
  {
    var before, after := dirs[..k - 1], dirs[..k];
    forall n ensures n in MadeNames(after) <==> n in MadeNames(before) || n == dirs[k - 1].name {
      if n in MadeNames(before) {
        var i :| 0 <= i < |before| && before[i].name == n;
        assert after[i] == before[i];
      }
      assert after[k - 1] == dirs[k - 1];
      if n in MadeNames(after) {
        var i :| 0 <= i < |after| && after[i].name == n;
        assert i < k - 1 ==> before[i] == after[i];
      }
    }
  }

  lemma {:induction false} DirDirect(w: World, before: Site, q: Path, s: Site, links: set<Name>, made: set<Name>,
      d: DirNode, fuel: nat)
    requires Direct(w, before, q, s, links, made) && d.name !in links && d.name !in made
    requires d.digest.Some? ==> NoRepeats(w, d.digest.value, fuel)
    ensures Direct(w, before, q, DoDir(w, s, q, d, fuel), links, made + {d.name})
    decreases fuel, 1
  {
    if s.fault.None? && ValidName(d.name) {
      var t := DoFolder(w, s, q, d);
      FolderDirect(w, before, q, s, links, made, d);
      Below(w.root, q, d.name);
      if (w.root + q) + [d.name] !in s.nodes {
        if t.fault.None? && d.digest.Some? {
          WalkDirect(w, t, q + [d.name], d.digest.value, fuel);
        }
        DirectAfter(w, before, q, s, links, made, d.name, DoDir(w, s, q, d, fuel));
      } else {
        DirectMore(w, before, q, s, links, made, links, made + {d.name});
      }
    } else {
      DirectMore(w, before, q, s, links, made, links, made + {d.name});
    }
  }

  lemma {:induction false} WalkDirect(w: World, s: Site, q: Path, d: Digest, fuel: nat)
    requires Straight(s.nodes, w.root, q) && Empty(s.nodes, w.root + q) && NoRepeats(w, d, fuel)
    ensures Walk(w, s, q, d, fuel).strayed == s.strayed &&
            SameOutside(s.nodes, Walk(w, s, q, d, fuel).nodes, w.root + q)
    decreases fuel, 0
  {
    if s.fault.None? && fuel > 0 && Fetch(w, d).Ok? && w.codec.decode(Fetch(w, d).value).Some? {
      var m := w.codec.decode(Fetch(w, d).value).value;
      TidyAtFirst(s.nodes, w.root + q);
      FilesDirect(w, s, q, s, m.files);
      var s1 := DoFiles(w, s, q, m.files);
      assert m.links[..|m.links|] == m.links && m.dirs[..|m.dirs|] == m.dirs;
      LinksDirect(w, s, q, s1, m.links, |m.links|);
      DirsDirect(w, s, q, DoLinks(w, s1, q, m.links), LinkNames(m.links), m.dirs, |m.dirs|, fuel - 1);
    }
  }

  lemma TidyAtFirst(nodes: Nodes, b: Path)
    requires Empty(nodes, b)
    ensures Tidy(nodes, b, {}, {})
  {
    forall n: Name ensures TidyName(nodes, b, {}, {}, n) {
      assert b < b + [n];
      forall p: Path | b + [n] < p ensures p !in nodes {
        assert b < p;
      }
    }
  }

  /** If no reachable message repeats a directory's name among its directories
      and links, the walk stays in the target, on every disk and even if it fails. */
  lemma {:induction false} DistinctNamesConfine(w: World, nodes: Nodes, d: Digest, fuel: nat)
    requires Empty(nodes, w.root) && NoRepeats(w, d, fuel)
    ensures !Materialize(w, nodes, d, fuel).strayed && SameOutside(nodes, Materialize(w, nodes, d, fuel).nodes, w.root)
  {
    assert w.root + [] == w.root;
    WalkDirect(w, Start(nodes), [], d, fuel);
  }

  // ----- only text is written -----

  /** Everything new on the disk has a text name, and every link leads by text. */
  ghost predicate TextDisk(c: Codec, before: Nodes, now: Nodes) { forall p: Path :: TextNode(c, before, now, p) }

  ghost predicate TextNode(c: Codec, before: Nodes, now: Nodes, p: Path) {
    p in now ==> (p in before || TextLast(c, p)) && (now[p].Symlink? ==> Text(c, now[p].target))
  }

  ghost predicate TextLast(c: Codec, p: Path) { p != [] && Text(c, p[|p| - 1]) }

  lemma TextPut(c: Codec, before: Nodes, now: Nodes, p: Path, x: Inode)
    requires TextDisk(c, before, now) && (p in now || TextLast(c, p)) && (x.Symlink? ==> Text(c, x.target))
    ensures TextDisk(c, before, now[p := x]) && TextDisk(c, before, now - {p})
  {
    var put, cut := now[p := x], now - {p};
    assert TextNode(c, before, now, p);
    forall o: Path ensures TextNode(c, before, put, o) && TextNode(c, before, cut, o) {
      assert TextNode(c, before, now, o);
    }
  }

  lemma TextJoin(c: Codec, a: seq<Name>, b: seq<Name>)
    requires TextSegs(c, a) && TextSegs(c, b)
    ensures TextSegs(c, a + b) && (b != [] ==> TextSegs(c, b[1..]))
  {
  }

  /** A free name at the end of a path of text is text. */
  lemma {:induction false} ResolveText(c: Codec, before: Nodes, nodes: Nodes, base: Path, segs: seq<Name>, follow: bool,
      hops: nat)
    requires LossyOk(c) && TextDisk(c, before, nodes) && TextSegs(c, segs)
    ensures var place := Resolve(nodes, base, segs, follow, hops);
            place.Found? ==> place.path in nodes || TextLast(c, place.path)
    decreases hops, |segs|
  {
    if segs != [] && IsFolder(nodes, base) {
      var seg, rest := segs[0], segs[1..];
      var p := base + [seg];
      TextJoin(c, [], segs);
      if seg == [] || seg == [DOT] {
        ResolveText(c, before, nodes, base, rest, follow, hops);
      } else if seg == [DOT, DOT] {
        ResolveText(c, before, nodes, Parent(base), rest, follow, hops);
      } else if p in nodes && nodes[p].Symlink? && (rest != [] || follow) {
        if hops > 0 {
          var target := nodes[p].target;
          assert LossyAt(c, target) && TextNode(c, before, nodes, p);
          TextJoin(c, Split(target), rest);
          ResolveText(c, before, nodes, if Absolute(target) then [] else base, Split(target) + rest, follow, hops - 1);
        }
      } else if rest != [] {
        ResolveText(c, before, nodes, p, rest, follow, hops);
      }
    }
  }

  lemma {:induction false} FilesText(w: World, before: Nodes, s: Site, q: Path, files: seq<FileNode>)
    requires LossyOk(w.codec) && TextDisk(w.codec, before, s.nodes) && TextSegs(w.codec, q)
    requires forall i :: 0 <= i < |files| ==> Text(w.codec, files[i].name)
    ensures TextDisk(w.codec, before, DoFiles(w, s, q, files).nodes)
  {
    if files != [] {
      FilesText(w, before, s, q, files[..|files| - 1]);
      FileText(w, before, DoFiles(w, s, q, files[..|files| - 1]), q, files[|files| - 1]);
    }
  }

  lemma FileText(w: World, before: Nodes, s: Site, q: Path, f: FileNode)
    requires LossyOk(w.codec) && TextDisk(w.codec, before, s.nodes) && TextSegs(w.codec, q) && Text(w.codec, f.name)
    ensures TextDisk(w.codec, before, DoFile(w, s, q, f).nodes)
  {
    TextJoin(w.codec, q, [f.name]);
    ResolveText(w.codec, before, s.nodes, w.root, q + [f.name], true, w.hops);
    var place := Resolve(s.nodes, w.root, q + [f.name], true, w.hops);
    if place.Found? && f.digest.Some? && Fetch(w, f.digest.value).Ok? {
      var x := Regular(Fetch(w, f.digest.value).value, ModeOf(At(s.nodes, place.path), f.executable));
      TextPut(w.codec, before, s.nodes, place.path, x);
    }
  }

  lemma LinkText(w: World, before: Nodes, s: Site, q: Path, l: LinkNode)
    requires LossyOk(w.codec) && TextDisk(w.codec, before, s.nodes) && TextSegs(w.codec, q)
    requires Text(w.codec, l.name) && Text(w.codec, l.target)
    ensures TextDisk(w.codec, before, DoLink(w, s, q, l).nodes)
  {
    TextJoin(w.codec, q, [l.name]);
    ResolveText(w.codec, before, s.nodes, w.root, q + [l.name], false, w.hops);
    var place := Resolve(s.nodes, w.root, q + [l.name], false, w.hops);
    if place.Found? {
      TextPut(w.codec, before, s.nodes, place.path, Symlink(l.target));
    }
  }

  lemma FolderText(w: World, before: Nodes, s: Site, q: Path, d: DirNode)
    requires LossyOk(w.codec) && TextDisk(w.codec, before, s.nodes) && TextSegs(w.codec, q) && Text(w.codec, d.name)
    ensures TextDisk(w.codec, before, DoFolder(w, s, q, d).nodes)
  {
    TextJoin(w.codec, q, [d.name]);
    ResolveText(w.codec, before, s.nodes, w.root, q + [d.name], false, w.hops);
    var place := Resolve(s.nodes, w.root, q + [d.name], false, w.hops);
    if place.Found? {
      TextPut(w.codec, before, s.nodes, place.path, Folder);
    }
  }

  lemma {:induction false} LinksText(w: World, before: Nodes, s: Site, q: Path, links: seq<LinkNode>)
    requires LossyOk(w.codec) && TextDisk(w.codec, before, s.nodes) && TextSegs(w.codec, q)
    requires forall i :: 0 <= i < |links| ==> Text(w.codec, links[i].name) && Text(w.codec, links[i].target)
    ensures TextDisk(w.codec, before, DoLinks(w, s, q, links).nodes)
  {
    if links != [] {
      LinksText(w, before, s, q, links[..|links| - 1]);
      LinkText(w, before, DoLinks(w, s, q, links[..|links| - 1]), q, links[|links| - 1]);
    }
  }

  lemma {:induction false} DirsText(w: World, before: Nodes, s: Site, q: Path, dirs: seq<DirNode>, fuel: nat)
    requires CodecOk(w.codec) && TextDisk(w.codec, before, s.nodes) && TextSegs(w.codec, q)
    requires forall i :: 0 <= i < |dirs| ==> Text(w.codec, dirs[i].name)
    ensures TextDisk(w.codec, before, DoDirs(w, s, q, dirs, fuel).nodes)
    decreases fuel, 2, |dirs|
  {
    if dirs != [] {
      var rest, d := dirs[..|dirs| - 1], dirs[|dirs| - 1];
      DirsText(w, before, s, q, rest, fuel);
      var s1 := DoDirs(w, s, q, rest, fuel);
      FolderText(w, before, s1, q, d);
      TextJoin(w.codec, q, [d.name]);
      var t := DoFolder(w, s1, q, d);
      if d.digest.Some? {
        WalkText(w, before, t, q + [d.name], d.digest.value, fuel);
      }
    }
  }

  lemma {:induction false} WalkText(w: World, before: Nodes, s: Site, q: Path, d: Digest, fuel: nat)
    requires CodecOk(w.codec) && TextDisk(w.codec, before, s.nodes) && TextSegs(w.codec, q)
    ensures TextDisk(w.codec, before, Walk(w, s, q, d, fuel).nodes)
    decreases fuel, 0
  {
    if s.fault.None? && fuel > 0 && Fetch(w, d).Ok? && w.codec.decode(Fetch(w, d).value).Some? {
      var m := w.codec.decode(Fetch(w, d).value).value;
      assert TextMessage(w.codec, m);
      FilesText(w, before, s, q, m.files);
      var s1 := DoFiles(w, s, q, m.files);
      LinksText(w, before, s1, q, m.links);
      DirsText(w, before, DoLinks(w, s1, q, m.links), q, m.dirs, fuel - 1);
    }
  }

  // ----- the round trip -----

  /** The tree came back: its contents, its counts, and nothing else touched. */
  ghost predicate CameBack(w: World, nodes: Nodes, s: Site, t: Tree)
    requires t.Dir?
  {
    && s.fault.None? && s.stats == CountAll(t)
    && Shows(s.nodes, w.root, Normal(t).entries) && SameOutside(nodes, s.nodes, w.root)
  }

  /** A name or a target that is not text, somewhere in the tree. */
  lemma {:induction false} NotText(c: Codec, t: Tree) returns (rest: Path)
    requires !Faithful(c, t)
    ensures var x := Inside(Normal(t), rest);
            x.Some? && ((rest != [] && !Text(c, rest[|rest| - 1])) || (x.value.Symlink? && !Text(c, x.value.target)))
    ensures t.Dir? ==> rest != []
    decreases t
  {
    match t
    case Link(_) =>
      rest := [];
    case Dir(entries) =>
      var n :| n in entries && !(Text(c, n) && Faithful(c, entries[n]));
      if Text(c, n) {
        var deeper := NotText(c, entries[n]);
        rest := [n] + deeper;
        assert rest[1..] == deeper && (deeper != [] ==> rest[|rest| - 1] == deeper[|deeper| - 1]);
      } else {
        rest := [n];
        assert rest[1..] == [];
      }
  }

  lemma {:induction false} TextComesBack(w: World, nodes: Nodes, t: Tree, fuel: nat)
    requires CodecOk(w.codec) && w.up && t.Dir? && WellNamed(t) && Stored(w.codec, w.blobs, t) && fuel >= Depth(t)
    requires Empty(nodes, w.root) && Faithful(w.codec, t)
    ensures CameBack(w, nodes, Materialize(w, nodes, TreeDigest(w.codec, t), fuel), t)
  {
    assert w.root + [] == w.root;
    CopyBack(w.codec, w.blobs, t, fuel);
    assert Straight(nodes, w.root, []);
    WalkCopied(w, Start(nodes), [], TreeDigest(w.codec, t), fuel);
    PlusZero(CountAll(t));
  }

  lemma {:induction false} OtherDiffers(w: World, nodes: Nodes, t: Tree, root: Digest, fuel: nat)
    requires CodecOk(w.codec) && t.Dir? && !Faithful(w.codec, t)
    requires Empty(nodes, w.root) && TextDisk(w.codec, nodes, nodes)
    ensures !Shows(Materialize(w, nodes, root, fuel).nodes, w.root, Normal(t).entries)
  {
    assert w.root + [] == w.root;
    var rest := NotText(w.codec, t);
    WalkText(w, nodes, Start(nodes), [], root, fuel);
    var p := (w.root + [rest[0]]) + rest[1..];
    assert w.root < p && p[|p| - 1] == rest[|rest| - 1];
    assert TextNode(w.codec, nodes, Materialize(w, nodes, root, fuel).nodes, p);
    assert At(Materialize(w, nodes, root, fuel).nodes, p) != Under(Normal(t).entries, rest[0], rest[1..]);
  }

  /** The round trip: on every disk whose own links are text, a packed tree
      materialises back into an empty folder, modes reduced to the executable
      bit, exactly when all its names and link targets are text. */
  lemma {:induction false} RoundTrip(w: World, nodes: Nodes, t: Tree, fuel: nat)
    requires CodecOk(w.codec) && w.up && t.Dir? && WellNamed(t) && Stored(w.codec, w.blobs, t) && fuel >= Depth(t)
    requires Empty(nodes, w.root) && TextDisk(w.codec, nodes, nodes)
    ensures CameBack(w, nodes, Materialize(w, nodes, TreeDigest(w.codec, t), fuel), t) <==> Faithful(w.codec, t)
  {
    if Faithful(w.codec, t) {
      TextComesBack(w, nodes, t, fuel);
    } else {
      OtherDiffers(w, nodes, t, TreeDigest(w.codec, t), fuel);
    }
  }

  /** A file whose name is not text comes back under another name. */
  lemma LossyName(w: World, nodes: Nodes, data: Bytes, fuel: nat)
    requires CodecOk(w.codec) && w.up && fuel > 0 && w.codec.lossy([255]) == [239, 191, 189]
    requires Stored(w.codec, w.blobs, Dir(map[[255] := File(data, PLAIN)]))
    requires Empty(nodes, w.root) && TextDisk(w.codec, nodes, nodes)
    ensures var s := Materialize(w, nodes, TreeDigest(w.codec, Dir(map[[255] := File(data, PLAIN)])), fuel);
            s.fault.None? && Shows(s.nodes, w.root, map[[239, 191, 189] := File(data, PLAIN)])
  {
    var back := Dir(map[[239, 191, 189] := File(data, PLAIN)]);
    LossyTwin(w.codec, w.blobs, data);
    TextComesBack(w, nodes, back, fuel);
  }

  /** The tree with the replaced name packs to the same message. */
  lemma {:induction false} LossyTwin(c: Codec, blobs: map<Digest, Bytes>, data: Bytes)
    requires CodecOk(c) && c.lossy([255]) == [239, 191, 189]
    requires Stored(c, blobs, Dir(map[[255] := File(data, PLAIN)]))
    ensures var back := Dir(map[[239, 191, 189] := File(data, PLAIN)]);
            && TreeDigest(c, back) == TreeDigest(c, Dir(map[[255] := File(data, PLAIN)])) && Stored(c, blobs, back)
            && WellNamed(back) && Faithful(c, back) && Depth(back) == 1 && Normal(back) == back
  {
    assert LossyAt(c, [255]);
    SameMessage(c, blobs, [255], [239, 191, 189], data);
    TextFile(c, [239, 191, 189], data);
  }

  lemma {:induction false} SameMessage(c: Codec, blobs: map<Digest, Bytes>, n: Name, m: Name, data: Bytes)
    requires c.lossy(n) == c.lossy(m) && Stored(c, blobs, Dir(map[n := File(data, PLAIN)]))
    ensures TreeDigest(c, Dir(map[m := File(data, PLAIN)])) == TreeDigest(c, Dir(map[n := File(data, PLAIN)]))
    ensures Stored(c, blobs, Dir(map[m := File(data, PLAIN)]))
  {
    var t := Dir(map[n := File(data, PLAIN)]);
    OneFile(c, n, data);
    OneFile(c, m, data);
    assert Stored(c, blobs, t.entries[n]);
  }

  lemma {:induction false} TextFile(c: Codec, m: Name, data: Bytes)
    requires Text(c, m) && ValidName(m)
    ensures var t := Dir(map[m := File(data, PLAIN)]);
            WellNamed(t) && Faithful(c, t) && Depth(t) == 1 && Normal(t) == t
  {
    var t := Dir(map[m := File(data, PLAIN)]);
    OneFile(c, m, data);
    assert Normal(t).entries == t.entries;
  }

  lemma {:induction false} OneFile(c: Codec, n: Name, data: Bytes)
    ensures Describe(c, Dir(map[n := File(data, PLAIN)])) ==
            Directory([FileNode(c.lossy(n), Some(DigestOf(c.hash, data)), false)], [], [])
    ensures Depth(Dir(map[n := File(data, PLAIN)])) == 1
  {
    var t := Dir(map[n := File(data, PLAIN)]);
    SortedUnique([n]);
    assert (set k | k in [n]) == {n} == t.entries.Keys;
    assert Listed(t) == [n];
    assert [n][..0] == [];
    assert FilesOf(c, t, [n][..0]) == [] && LinksOf(c, t, [n][..0]) == [] && DirsOf(c, t, [n][..0]) == [];
    assert DepthOver(t, [n][..0]) == 0;
  }

  /** A disk with two empty folders, `t` and `e`. */
  function TwoFolders(): Nodes { map[[] := Folder, [[116]] := Folder, [[101]] := Folder] }

  lemma TwoFoldersEmpty()
    ensures Empty(TwoFolders(), [[116]])
  {
    assert forall b: Path :: [[116]] < b ==> |b| > 1;
  }

  /** A message that names a link and a directory alike: the directory's file
      is written where the link leads, outside the target. */
  lemma PlantedLinkLeads(w: World, top: Digest, below: Digest, content: Digest, data: Bytes)
    requires w.up && w.root == [[116]] && w.hops > 0 && Lookup(w.blobs, content) == Ok(data)
    requires Lookup(w.blobs, top).Ok? && Lookup(w.blobs, below).Ok?
    requires w.codec.decode(w.blobs[top]) ==
             Some(Directory([], [LinkNode([120], [SLASH, 101])], [DirNode([120], Some(below))]))
    requires w.codec.decode(w.blobs[below]) == Some(Directory([FileNode([102], Some(content), false)], [], []))
    ensures Empty(TwoFolders(), w.root)
    ensures var s := Materialize(w, TwoFolders(), top, 2);
            s.fault.None? && s.strayed && At(s.nodes, [[101], [102]]) == Some(Regular(data, PLAIN))
  {
    var l, d, f := LinkNode([120], [SLASH, 101]), DirNode([120], Some(below)), FileNode([102], Some(content), false);
    var s0 := Start(TwoFolders());
    TwoFoldersEmpty();
    OneLinkOneDir(w, s0, [], top, l, d);
    LinkMade(w, s0);
    var s1 := DoLink(w, s0, [], l);
    LinkFollowed(w, s1, below);
    DirOfOneFile(w, s1, d, f);
    FileLands(w, DoFolder(w, s1, [], d), f, data);
  }

  lemma {:induction false} DirOfOneFile(w: World, s: Site, d: DirNode, f: FileNode)
    requires w.up && d.digest.Some? && DoFolder(w, s, [], d).fault.None? && Lookup(w.blobs, d.digest.value).Ok?
    requires w.codec.decode(w.blobs[d.digest.value]) == Some(Directory([f], [], []))
    ensures DoDir(w, s, [], d, 1) == DoFile(w, DoFolder(w, s, [], d), [d.name], f)
  {
    assert [] + [d.name] == [d.name];
    OneNode(w, DoFolder(w, s, [], d), [d.name], d.digest.value, f);
  }

  /** The walk over a message of one file. */
  lemma {:induction false} OneNode(w: World, s: Site, q: Path, d: Digest, f: FileNode)
    requires w.up && s.fault.None? && Lookup(w.blobs, d).Ok? &&
             w.codec.decode(w.blobs[d]) == Some(Directory([f], [], []))
    ensures Walk(w, s, q, d, 1) == DoFile(w, s, q, f)
  {
    assert [f][..0] == [] && DoFiles(w, s, q, [f][..0]) == s;
  }

  /** The walk over a message of one link and one directory. */
  lemma {:induction false} OneLinkOneDir(w: World, s: Site, q: Path, d: Digest, l: LinkNode, child: DirNode)
    requires w.up && s.fault.None? && Lookup(w.blobs, d).Ok? &&
             w.codec.decode(w.blobs[d]) == Some(Directory([], [l], [child]))
    ensures Walk(w, s, q, d, 2) == DoDir(w, DoLink(w, s, q, l), q, child, 1)
  {
    assert [l][..0] == [] && DoLinks(w, s, q, [l][..0]) == s;
    var t := DoLink(w, s, q, l);
    assert [child][..0] == [] && DoDirs(w, t, q, [child][..0], 1) == t;
  }

  lemma LinkMade(w: World, s: Site)
    requires w.root == [[116]] && s == Start(TwoFolders())
    ensures DoLink(w, s, [], LinkNode([120], [SLASH, 101])) ==
            s.(nodes := s.nodes[[[116], [120]] := Symlink([SLASH, 101])], stats := Stats(0, 0, 1, 0))
  {
    assert Straight(s.nodes, w.root, []) by {
      assert w.root + [][..0] == w.root;
    }
    ResolveStraight(s.nodes, w.root, w.root, [], [120], false, w.hops);
    assert w.root + [] + [[120]] == [[116], [120]];
  }

  /** The link leads to the folder `e` at the top of the disk. */
  lemma {:induction false} LinkLeads(nodes: Nodes, segs: seq<Name>, follow: bool, hops: nat)
    requires IsFolder(nodes, []) && IsFolder(nodes, [[116]]) && IsFolder(nodes, [[101]]) && hops > 0
    requires At(nodes, [[116], [120]]) == Some(Symlink([SLASH, 101])) && segs != [] && segs[0] == [120] &&
             (|segs| > 1 || follow)
    ensures Strays(nodes, [[116]], [[116]], segs, follow, hops)
    ensures |segs| == 1 ==> Resolve(nodes, [[116]], segs, follow, hops) == Found([[101]])
    ensures |segs| > 1 ==>
            Resolve(nodes, [[116]], segs, follow, hops) == Resolve(nodes, [[101]], segs[1..], follow, hops - 1)
  {
    var rest := segs[1..];
    assert [[116]] + [[120]] == [[116], [120]];
    SplitSlash();
    var again := [[], [101]] + rest;
    assert again[0] == [] && again[1..] == [[101]] + rest && ([[101]] + rest)[1..] == rest;
    assert [] + [[101]] == [[101]];
    assert Resolve(nodes, [], again, follow, hops - 1) == Resolve(nodes, [], [[101]] + rest, follow, hops - 1);
  }

  lemma SplitSlash()
    ensures Split([SLASH, 101]) == [[], [101]]
  {
    var s: Bytes := [SLASH, 101];
    assert s[1..] == [101] && s[1..][1..] == [];
    var one: Bytes := [101];
    assert Split([]) == [[]];
    assert one[1..] == [] && [one[0]] + [] == one;
    assert Split(one) == [one];
  }

  lemma LinkFollowed(w: World, s: Site, below: Digest)
    requires w.root == [[116]] && w.hops > 0 && s.fault.None?
    requires s.nodes == TwoFolders()[[[116], [120]] := Symlink([SLASH, 101])]
    ensures DoFolder(w, s, [], DirNode([120], Some(below))) ==
            s.(stats := Plus(s.stats, Stats(0, 1, 0, 0)), strayed := true)
  {
    assert [] + [[120]] == [[120]];
    LinkLeads(s.nodes, [[120]], true, w.hops);
    assert [[116]] + [[120]] == [[116], [120]] && [[120]][1..] == [];
    assert Resolve(s.nodes, w.root, [[120]], false, w.hops) == Found([[116], [120]]);
  }

  lemma FileLands(w: World, s: Site, f: FileNode, data: Bytes)
    requires w.root == [[116]] && w.hops > 0 && s.fault.None? && w.up && f.name == [102] && !f.executable
    requires f.digest.Some? && Lookup(w.blobs, f.digest.value) == Ok(data)
    requires s.nodes == TwoFolders()[[[116], [120]] := Symlink([SLASH, 101])]
    ensures var t := DoFile(w, s, [[120]], f);
            t.fault.None? && t.strayed && At(t.nodes, [[101], [102]]) == Some(Regular(data, PLAIN))
  {
    var segs: seq<Name> := [[120]] + [[102]];
    assert segs[1..] == [[102]] && [[102]][1..] == [] && [[101]] + [[102]] == [[101], [102]];
    LinkLeads(s.nodes, segs, true, w.hops);
    assert Resolve(s.nodes, [[101]], [[102]], true, w.hops - 1) == Found([[101], [102]]);
  }

  // ----- the walk, step by step -----

  lemma {:induction false} FilesFail(w: World, s: Site, q: Path, files: seq<FileNode>, i: nat)
    requires i <= |files| && DoFiles(w, s, q, files[..i]).fault.Some?
    ensures DoFiles(w, s, q, files) == DoFiles(w, s, q, files[..i])
  {
    if i == |files| {
      assert files[..i] == files;
    } else {
      assert files[..|files| - 1][..i] == files[..i];
      FilesFail(w, s, q, files[..|files| - 1], i);
    }
  }

  lemma {:induction false} LinksFail(w: World, s: Site, q: Path, links: seq<LinkNode>, i: nat)
    requires i <= |links| && DoLinks(w, s, q, links[..i]).fault.Some?
    ensures DoLinks(w, s, q, links) == DoLinks(w, s, q, links[..i])
  {
    if i == |links| {
      assert links[..i] == links;
    } else {
      assert links[..|links| - 1][..i] == links[..i];
      LinksFail(w, s, q, links[..|links| - 1], i);
    }
  }

  lemma {:induction false} DirsFail(w: World, s: Site, q: Path, dirs: seq<DirNode>, i: nat, fuel: nat)
    requires i <= |dirs| && DoDirs(w, s, q, dirs[..i], fuel).fault.Some?
    ensures DoDirs(w, s, q, dirs, fuel) == DoDirs(w, s, q, dirs[..i], fuel)
    decreases |dirs|
  {
    if i == |dirs| {
      assert dirs[..i] == dirs;
    } else {
      assert dirs[..|dirs| - 1][..i] == dirs[..i];
      DirsFail(w, s, q, dirs[..|dirs| - 1], i, fuel);
    }
  }

  lemma {:induction false} AfterFault(w: World, s: Site, q: Path, m: Directory, fuel: nat)
    requires s.fault.Some?
    ensures DoLinks(w, s, q, m.links) == s && DoDirs(w, s, q, m.dirs, fuel) == s
  {
    assert m.links[..0] == [] && m.dirs[..0] == [];
    LinksFail(w, s, q, m.links, 0);
    DirsFail(w, s, q, m.dirs, 0, fuel);
  }

  class FileSystem {
    const root: Path
    const hops: nat
    var nodes: Nodes
    var stats: Stats
    /** Whether a path has passed outside the target. */
    ghost var strayed: bool

    constructor (root: Path, hops: nat, nodes: Nodes)
      ensures this.root == root && this.hops == hops && State(None) == Start(nodes)
    {
      this.root, this.hops, this.nodes := root, hops, nodes;
      stats, strayed := NoStats, false;
    }

    ghost function State(fault: Option<Failure>): Site
      reads this
    {
      Site(nodes, stats, fault, strayed)
    }

    ghost function Here(c: Codec, cas: Store): World
      reads this, cas
    {
      World(c, cas.blobs, cas.up, root, hops)
    }

    /** Creates or overwrites a file. */
    method WriteFile(q: Path, name: Name, data: Bytes, executable: bool, ghost w: World)
        returns (fault: Option<Failure>)
      requires w.root == root && w.hops == hops
      modifies this
      ensures State(fault) == PutFile(w, old(State(None)), q, name, data, executable)
    {
      strayed := Noted(w, State(None), q + [name], true).strayed;
      var place := Resolve(nodes, root, q + [name], true, hops);
      if place.Broken? || IsFolder(nodes, place.path) {
        return Some(Io);
      }
      nodes := nodes[place.path := Regular(data, ModeOf(At(nodes, place.path), executable))];
      return None;
    }

    /** Removes what is in the way, then makes the link. */
    method MakeLink(q: Path, name: Name, target: Bytes, ghost w: World) returns (fault: Option<Failure>)
      requires w.root == root && w.hops == hops
      modifies this
      ensures State(fault) == PutLink(w, old(State(None)), q, name, target)
    {
      strayed := Noted(w, State(None), q + [name], false).strayed;
      var place := Resolve(nodes, root, q + [name], false, hops);
      if place.Broken? || IsFolder(nodes, place.path) {
        return Some(Io);
      }
      var cleared := nodes - {place.path};
      if !ValidTarget(target) {
        nodes := cleared;
        return Some(Io);
      }
      assert cleared[place.path := Symlink(target)] == nodes[place.path := Symlink(target)];
      nodes := cleared[place.path := Symlink(target)];
      return None;
    }

    method MakeFolder(q: Path, name: Name, ghost w: World) returns (fault: Option<Failure>)
      requires w.root == root && w.hops == hops
      modifies this
      ensures State(fault) == PutFolder(w, old(State(None)), q, name)
    {
      strayed := Noted(w, State(None), q + [name], false).strayed;
      var place := Resolve(nodes, root, q + [name], false, hops);
      if place.Broken? {
        return Some(Io);
      }
      if place.path !in nodes {
        nodes := nodes[place.path := Folder];
        return None;
      }
      strayed := Noted(w, State(None), q + [name], true).strayed;
      var there := Resolve(nodes, root, q + [name], true, hops);
      return if there.Found? && IsFolder(nodes, there.path) then None else Some(Io);
    }

    method CopyFiles(c: Codec, cas: Store, q: Path, files: seq<FileNode>) returns (fault: Option<Failure>)
      modifies this
      ensures State(fault) == DoFiles(Here(c, cas), old(State(None)), q, files)
    {
      ghost var w, s := Here(c, cas), State(None);
      for i := 0 to |files|
        invariant State(None) == DoFiles(w, s, q, files[..i])
      {
        assert files[..i + 1][..i] == files[..i];
        fault := CopyFile(c, cas, q, files[i]);
        if fault.Some? {
          FilesFail(w, s, q, files, i + 1);
          return;
        }
      }
      assert files[..|files|] == files;
      return None;
    }

    method CopyFile(c: Codec, cas: Store, q: Path, f: FileNode) returns (fault: Option<Failure>)
      modifies this
      ensures State(fault) == DoFile(Here(c, cas), old(State(None)), q, f)
    {
      if !ValidName(f.name) {
        return Some(InvalidName);
      }
      if f.digest.None? {
        return Some(InvalidDigest);
      }
      var got := cas.BatchRead([f.digest.value]);
      if got.Err? {
        return Some(Failure.Store(got.error));
      }
      assert got.value[0] == Lookup(cas.blobs, f.digest.value);
      if got.value[0].Err? {
        return Some(Failure.Store(got.value[0].error));
      }
      fault := WriteFile(q, f.name, got.value[0].value, f.executable, Here(c, cas));
      if fault.None? {
        stats := Plus(stats, Stats(1, 0, 0, f.digest.value.size));
      }
    }

    method MakeLinks(ghost w: World, q: Path, links: seq<LinkNode>) returns (fault: Option<Failure>)
      requires w.root == root && w.hops == hops
      modifies this
      ensures State(fault) == DoLinks(w, old(State(None)), q, links)
    {
      ghost var s := State(None);
      for i := 0 to |links|
        invariant State(None) == DoLinks(w, s, q, links[..i])
      {
        assert links[..i + 1][..i] == links[..i];
        if !ValidName(links[i].name) {
          LinksFail(w, s, q, links, i + 1);
          return Some(InvalidName);
        }
        fault := MakeLink(q, links[i].name, links[i].target, w);
        if fault.Some? {
          LinksFail(w, s, q, links, i + 1);
          return;
        }
        stats := Plus(stats, Stats(0, 0, 1, 0));
      }
      assert links[..|links|] == links;
      return None;
    }

    method EnterDir(c: Codec, cas: Store, q: Path, d: DirNode, fuel: nat) returns (fault: Option<Failure>)
      modifies this
      ensures State(fault) == DoDir(Here(c, cas), old(State(None)), q, d, fuel)
      decreases fuel, 1
    {
      if !ValidName(d.name) {
        return Some(InvalidName);
      }
      fault := MakeFolder(q, d.name, Here(c, cas));
      if fault.Some? {
        return;
      }
      stats := Plus(stats, Stats(0, 1, 0, 0));
      if d.digest.None? {
        return Some(InvalidDigest);
      }
      fault := MaterializeDirectory(c, cas, q + [d.name], d.digest.value, fuel);
    }

    method MakeDirs(c: Codec, cas: Store, q: Path, dirs: seq<DirNode>, fuel: nat) returns (fault: Option<Failure>)
      modifies this
      ensures State(fault) == DoDirs(Here(c, cas), old(State(None)), q, dirs, fuel)
      decreases fuel, 2
    {
      ghost var w, s := Here(c, cas), State(None);
      for i := 0 to |dirs|
        invariant State(None) == DoDirs(w, s, q, dirs[..i], fuel)
      {
        assert dirs[..i + 1][..i] == dirs[..i];
        fault := EnterDir(c, cas, q, dirs[i], fuel);
        if fault.Some? {
          DirsFail(w, s, q, dirs, i + 1, fuel);
          return;
        }
      }
      assert dirs[..|dirs|] == dirs;
      return None;
    }

    /** Materialises a digest into the path `q` below the target. */
    method MaterializeDirectory(c: Codec, cas: Store, q: Path, d: Digest, fuel: nat) returns (fault: Option<Failure>)
      modifies this
      ensures State(fault) == Walk(Here(c, cas), old(State(None)), q, d, fuel)
      decreases fuel, 0
    {
      if fuel == 0 {
        return Some(TooDeep);
      }
      var fetched := cas.BatchRead([d]);
      if fetched.Err? {
        return Some(Failure.Store(fetched.error));
      }
      assert fetched.value[0] == Lookup(cas.blobs, d);
      if fetched.value[0].Err? {
        return Some(Failure.Store(fetched.value[0].error));
      }
      var decoded := c.decode(fetched.value[0].value);
      if decoded.None? {
        return Some(Undecodable);
      }
      ghost var w, m, s := Here(c, cas), decoded.value, State(None);
      fault := CopyFiles(c, cas, q, decoded.value.files);
      if fault.Some? {
        AfterFault(w, State(fault), q, m, fuel - 1);
        return;
      }
      fault := MakeLinks(w, q, decoded.value.links);
      if fault.Some? {
        AfterFault(w, State(fault), q, m, fuel - 1);
        return;
      }
      fault := MakeDirs(c, cas, q, decoded.value.dirs, fuel - 1);
    }
  }

  /** Packing a tree of text and materialising its root into an empty folder:
      the same tree, its counts, and a store that holds the tree's blobs besides its own. */
  method PackThenMaterialize(c: Codec, cas: Store, t: Tree, fs: FileSystem, fuel: nat) returns (fault: Option<Failure>)
    requires CodecOk(c) && cas.Valid() && cas.up && cas.hash == c.hash && t.Dir? && WellNamed(t) && fuel >= Depth(t)
    requires Empty(fs.nodes, fs.root) && TextDisk(c, fs.nodes, fs.nodes) && fs.State(None) == Start(fs.nodes)
    modifies cas`blobs, fs
    ensures CameBack(fs.Here(c, cas), old(fs.nodes), fs.State(fault), t) <==> Faithful(c, t)
    ensures Grows(old(cas.blobs), cas.blobs) && cas.blobs.Keys == old(cas.blobs).Keys + Digests(c, t)
  {
    var packed := PackDirectory(c, cas, t);
    RoundTrip(fs.Here(c, cas), fs.nodes, t, fuel);
    fault := fs.MaterializeDirectory(c, cas, [], packed.value, fuel);
  }
}

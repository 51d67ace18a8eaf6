/** Packing a directory tree into the store and materialising it again
    (crates/brokkr-cas/src/tree.rs). The Directory encoding is a parameter. */
module Tree {
  import opened Common
  import opened Order
  import opened Cas

  type Name = Bytes

  /** What a file system holds under one name. */
  datatype Tree = File(data: Bytes, mode: nat) | Link(target: Bytes) | Dir(entries: map<Name, Tree>)

  // ----- the Directory message -----

  /** A digest is absent when the message omits it or it does not validate. */
  datatype FileNode = FileNode(name: Name, digest: Option<Digest>, executable: bool)
  datatype LinkNode = LinkNode(name: Name, target: Bytes)
  datatype DirNode = DirNode(name: Name, digest: Option<Digest>)
  datatype Directory = Directory(files: seq<FileNode>, links: seq<LinkNode>, dirs: seq<DirNode>)

  /** `lossy` turns what a file system holds into the text a message can carry. */
  datatype Codec = Codec(hash: Hash, encode: Directory -> Bytes, decode: Bytes -> Option<Directory>,
      lossy: Bytes -> Bytes)

  ghost predicate Text(c: Codec, s: Bytes) { c.lossy(s) == s }

  /** Every name and link target of the message is text. */
  ghost predicate TextMessage(c: Codec, d: Directory) {
    && (forall i :: 0 <= i < |d.files| ==> Text(c, d.files[i].name))
    && (forall i :: 0 <= i < |d.links| ==> Text(c, d.links[i].name) && Text(c, d.links[i].target))
    && (forall i :: 0 <= i < |d.dirs| ==> Text(c, d.dirs[i].name))
  }

  /** Conversion to text is done once, keeps names and targets usable, and a
      path that is text has only text between its slashes. */
  ghost predicate LossyAt(c: Codec, s: Bytes) {
    && Text(c, c.lossy(s))
    && (ValidName(s) ==> ValidName(c.lossy(s)))
    && (ValidTarget(s) ==> ValidTarget(c.lossy(s)))
    && (Text(c, s) ==> TextSegs(c, Split(s)))
  }

  ghost predicate TextSegs(c: Codec, segs: seq<Name>) { forall i :: 0 <= i < |segs| ==> Text(c, segs[i]) }

  ghost predicate LossyOk(c: Codec) { forall s :: LossyAt(c, s) }

  /** Messages of text survive encoding, and only messages of text decode. */
  ghost predicate CodecOk(c: Codec) {
    && Injective(c.hash) && LossyOk(c)
    && (forall d :: TextMessage(c, d) ==> c.decode(c.encode(d)) == Some(d))
    && (forall b :: c.decode(b).Some? ==> TextMessage(c, c.decode(b).value))
  }

  // ----- names and modes -----

  const SLASH: byte := 47
  const DOT: byte := 46
  const NUL: byte := 0

  /** A single path segment that cannot leave its directory. */
  predicate ValidName(name: Name) {
    name != [] && name != [DOT] && name != [DOT, DOT] && SLASH !in name && NUL !in name
  }

  /** What a symbolic link may hold. */
  predicate ValidTarget(target: Bytes) { target != [] && NUL !in target }

  /** The segments of a path, between its slashes. */
  function Split(s: Bytes): (r: seq<Name>)
    ensures r != []
  {
    if s == [] then [[]]
    else if s[0] == SLASH then [[]] + Split(s[1..])
    else
      var rest := Split(s[1..]);
      [[s[0]] + rest[0]] + rest[1..]
  }

  const EXECUTABLE: nat := 0x1ED
  const PLAIN: nat := 0x1A4

  /** Any of the three execute bits. */
  predicate IsExecutable(mode: nat) { mode % 2 == 1 || mode / 8 % 2 == 1 || mode / 64 % 2 == 1 }

  function NormalMode(mode: nat): nat { if IsExecutable(mode) then EXECUTABLE else PLAIN }

  // ----- packing -----

  function Listed(t: Tree): seq<Name>
    requires t.Dir?
  {
    Sorted(t.entries.Keys)
  }

  ghost predicate Lists(t: Tree, names: seq<Name>) { t.Dir? && forall n :: n in names ==> n in t.entries }

  function FilesOf(c: Codec, t: Tree, names: seq<Name>): seq<FileNode>
    requires Lists(t, names)
  {
    if names == [] then []
    else
      var n := names[|names| - 1];
      FilesOf(c, t, names[..|names| - 1]) +
      match t.entries[n]
      case File(data, mode) => [FileNode(c.lossy(n), Some(DigestOf(c.hash, data)), IsExecutable(mode))]
      case _ => []
  }

  function LinksOf(c: Codec, t: Tree, names: seq<Name>): seq<LinkNode>
    requires Lists(t, names)
  {
    if names == [] then []
    else
      var n := names[|names| - 1];
      LinksOf(c, t, names[..|names| - 1]) +
      match t.entries[n]
      case Link(target) => [LinkNode(c.lossy(n), c.lossy(target))]
      case _ => []
  }

  function DirsOf(c: Codec, t: Tree, names: seq<Name>): seq<DirNode>
    requires Lists(t, names)
    decreases t, |names|
  {
    if names == [] then []
    else
      var n := names[|names| - 1];
      DirsOf(c, t, names[..|names| - 1]) +
      match t.entries[n]
      case Dir(_) => [DirNode(c.lossy(n), Some(TreeDigest(c, t.entries[n])))]
      case _ => []
  }

  function Describe(c: Codec, t: Tree): Directory
    requires t.Dir?
    decreases t, |t.entries| + 1
  {
    SortedIs(t.entries.Keys);
    Directory(FilesOf(c, t, Listed(t)), LinksOf(c, t, Listed(t)), DirsOf(c, t, Listed(t)))
  }

  /** The digest of a packed tree: a Merkle root. */
  function TreeDigest(c: Codec, t: Tree): Digest
    requires t.Dir?
    decreases t, |t.entries| + 2
  {
    DigestOf(c.hash, c.encode(Describe(c, t)))
  }

  /** The store holds every blob of the tree. */
  ghost predicate Stored(c: Codec, blobs: map<Digest, Bytes>, t: Tree)
    decreases t
  {
    match t
    case File(data, _) => Lookup(blobs, DigestOf(c.hash, data)) == Ok(data)
    case Link(_) => true
    case Dir(entries) =>
      Lookup(blobs, TreeDigest(c, t)) == Ok(c.encode(Describe(c, t))) && forall n :: n in entries ==>
          Stored(c, blobs, entries[n])
  }

  /** The digests of the tree's blobs. */
  ghost function Digests(c: Codec, t: Tree): set<Digest>
    decreases t
  {
    match t
    case File(data, _) => {DigestOf(c.hash, data)}
    case Link(_) => {}
    case Dir(entries) => {TreeDigest(c, t)} + set n, d | n in entries && d in Digests(c, entries[n]) :: d
  }

  // ----- materialising -----

  datatype Stats = Stats(files: nat, dirs: nat, symlinks: nat, bytes: nat)

  function Plus(a: Stats, b: Stats): Stats {
    Stats(a.files + b.files, a.dirs + b.dirs, a.symlinks + b.symlinks, a.bytes + b.bytes)
  }

  const NoStats := Stats(0, 0, 0, 0)

  /** Why a walk stops. */
  datatype Failure = Store(error: CasError) | Undecodable | InvalidName | InvalidDigest | TooDeep | Io

  // ----- copying a message whose names are all different -----

  /** What has been written so far into one directory. */
  datatype Work = Work(entries: map<Name, Tree>, stats: Stats)

  /** Why there is no plain copy: the walk would fail, or a name is repeated (`Disk` has what the walk does then). */
  datatype Gap = Fails(why: Failure) | Repeated

  type Outcome = Result<Work, Gap>

  function NameError(w: Work, name: Name): Option<Gap> {
    if !ValidName(name) then Some(Fails(InvalidName)) else if name in w.entries then Some(Repeated) else None
  }

  function WriteFile(blobs: map<Digest, Bytes>, w: Work, f: FileNode): Outcome {
    if NameError(w, f.name).Some? then Err(NameError(w, f.name).value)
    else if f.digest.None? then Err(Fails(InvalidDigest))
    else
      match Lookup(blobs, f.digest.value)
      case Err(e) => Err(Fails(Store(e)))
      case Ok(data) =>
        Ok(Work(w.entries[f.name := File(data, if f.executable then EXECUTABLE else PLAIN)],
                Plus(w.stats, Stats(1, 0, 0, f.digest.value.size))))
  }

  function WriteFiles(blobs: map<Digest, Bytes>, w: Work, files: seq<FileNode>): Outcome {
    if files == [] then Ok(w)
    else
      match WriteFiles(blobs, w, files[..|files| - 1])
      case Err(e) => Err(e)
      case Ok(before) => WriteFile(blobs, before, files[|files| - 1])
  }

  function WriteLink(w: Work, l: LinkNode): Outcome {
    if NameError(w, l.name).Some? then Err(NameError(w, l.name).value)
    else if !ValidTarget(l.target) then Err(Fails(Io))
    else Ok(Work(w.entries[l.name := Link(l.target)], Plus(w.stats, Stats(0, 0, 1, 0))))
  }

  function WriteLinks(w: Work, links: seq<LinkNode>): Outcome {
    if links == [] then Ok(w)
    else
      match WriteLinks(w, links[..|links| - 1])
      case Err(e) => Err(e)
      case Ok(before) => WriteLink(before, links[|links| - 1])
  }

  function WriteDir(c: Codec, blobs: map<Digest, Bytes>, w: Work, d: DirNode, fuel: nat): Outcome
    decreases fuel, 1
  {
    if NameError(w, d.name).Some? then Err(NameError(w, d.name).value)
    else if d.digest.None? then Err(Fails(InvalidDigest))
    else
      match Materialized(c, blobs, d.digest.value, fuel)
      case Err(e) => Err(e)
      case Ok(sub) => Ok(Work(w.entries[d.name := Dir(sub.entries)], Plus(w.stats, Plus(Stats(0, 1, 0, 0), sub.stats))))
  }

  function WriteDirs(c: Codec, blobs: map<Digest, Bytes>, w: Work, dirs: seq<DirNode>, fuel: nat): Outcome
    decreases fuel, 2, |dirs|
  {
    if dirs == [] then Ok(w)
    else
      match WriteDirs(c, blobs, w, dirs[..|dirs| - 1], fuel)
      case Err(e) => Err(e)
      case Ok(before) => WriteDir(c, blobs, before, dirs[|dirs| - 1], fuel)
  }

  /** The contents and the counts that materialising a digest into an empty
      directory yields when no message repeats a name; `fuel` bounds the depth. */
  function Materialized(c: Codec, blobs: map<Digest, Bytes>, d: Digest, fuel: nat): Outcome
    decreases fuel, 0
  {
    if fuel == 0 then Err(Fails(TooDeep))
    else
      match Lookup(blobs, d)
      case Err(e) => Err(Fails(Store(e)))
      case Ok(data) =>
        match c.decode(data)
        case None => Err(Fails(Undecodable))
        case Some(dir) =>
          match WriteFiles(blobs, Work(map[], NoStats), dir.files)
          case Err(e) => Err(e)
          case Ok(afterFiles) =>
            match WriteLinks(afterFiles, dir.links)
            case Err(e) => Err(e)
            case Ok(afterLinks) => WriteDirs(c, blobs, afterLinks, dir.dirs, fuel - 1)
  }

  // ----- what a tree amounts to -----

  /** The tree a faithful copy holds: modes reduced to the executable bit. */
  function Normal(t: Tree): Tree
    decreases t
  {
    match t
    case File(data, mode) => File(data, NormalMode(mode))
    case Link(_) => t
    case Dir(entries) => Dir(map n | n in entries :: Normal(entries[n]))
  }

  ghost predicate WellNamed(t: Tree)
    decreases t
  {
    match t
    case File(_, _) => true
    case Link(target) => ValidTarget(target)
    case Dir(entries) => forall n :: n in entries ==> ValidName(n) && WellNamed(entries[n])
  }

  /** Every name and link target is text, so messages carry it unchanged. */
  ghost predicate Faithful(c: Codec, t: Tree)
    decreases t
  {
    match t
    case File(_, _) => true
    case Link(target) => Text(c, target)
    case Dir(entries) => forall n :: n in entries ==> Text(c, n) && Faithful(c, entries[n])
  }

  /** Files, directories, symlinks and bytes below a directory, for the names listed. */
  function CountOver(t: Tree, names: seq<Name>): Stats
    requires Lists(t, names)
    decreases t, |names|
  {
    if names == [] then NoStats
    else Plus(CountOver(t, names[..|names| - 1]), CountNode(t, names[|names| - 1]))
  }

  function CountNode(t: Tree, n: Name): Stats
    requires t.Dir? && n in t.entries
    decreases t, 0
  {
    match t.entries[n]
    case File(data, _) => Stats(1, 0, 0, |data|)
    case Link(_) => Stats(0, 0, 1, 0)
    case Dir(_) => Plus(Stats(0, 1, 0, 0), CountAll(t.entries[n]))
  }

  function CountAll(t: Tree): Stats
    requires t.Dir?
    decreases t, |t.entries| + 1
  {
    SortedIs(t.entries.Keys);
    CountOver(t, Listed(t))
  }

  function DepthOver(t: Tree, names: seq<Name>): nat
    requires Lists(t, names)
    decreases t, |names|
  {
    if names == [] then 0
    else
      var child := t.entries[names[|names| - 1]];
      Max(DepthOver(t, names[..|names| - 1]), if child.Dir? then Depth(child) else 0)
  }

  /** How many directories deep a tree is, itself included. */
  function Depth(t: Tree): nat
    requires t.Dir?
    decreases t, |t.entries| + 1
  {
    SortedIs(t.entries.Keys);
    1 + DepthOver(t, Listed(t))
  }

  // ----- the round trip -----

  ghost predicate Distinct(names: seq<Name>) { forall i, j :: 0 <= i < j < |names| ==> names[i] != names[j] }

  /** The normalised children among `names` of the kind `kind` picks. */
  function Part(t: Tree, names: seq<Name>, kind: Tree -> bool): map<Name, Tree>
    requires Lists(t, names)
  {
    map n | n in t.entries && n in names && kind(t.entries[n]) :: Normal(t.entries[n])
  }

  function CountPart(t: Tree, names: seq<Name>, kind: Tree -> bool): Stats
    requires Lists(t, names)
  {
    if names == [] then NoStats
    else
      var n := names[|names| - 1];
      Plus(CountPart(t, names[..|names| - 1], kind), if kind(t.entries[n]) then CountNode(t, n) else NoStats)
  }

  const IsFile := (t: Tree) => t.File?
  const IsLink := (t: Tree) => t.Link?
  const IsDir := (t: Tree) => t.Dir?

  lemma PartNext(t: Tree, names: seq<Name>, kind: Tree -> bool)
    requires Lists(t, names) && names != [] && Distinct(names)
    ensures names[|names| - 1] !in Part(t, names[..|names| - 1], kind)
    ensures Part(t, names, kind) ==
            if kind(t.entries[names[|names| - 1]]) then
                Part(t, names[..|names| - 1], kind)[names[|names| - 1] := Normal(t.entries[names[|names| - 1]])]
            else Part(t, names[..|names| - 1], kind)
  {
    var k := |names| - 1;
    assert names == names[..k] + [names[k]];
    assert names[k] !in names[..k];
  }

  /** Everything from an earlier phase stays apart from the children still to come. */
  ghost predicate Apart(w: Work, t: Tree, kind: Tree -> bool)
    requires t.Dir?
  {
    forall n :: n in t.entries && kind(t.entries[n]) ==> n !in w.entries
  }

  function After(w: Work, t: Tree, names: seq<Name>, kind: Tree -> bool): Work
    requires Lists(t, names)
  {
    Work(w.entries + Part(t, names, kind), Plus(w.stats, CountPart(t, names, kind)))
  }

  lemma PlusAssoc(a: Stats, b: Stats, c: Stats)
    ensures Plus(Plus(a, b), c) == Plus(a, Plus(b, c))
  {
  }

  lemma {:induction false} StatsNext(s: Stats, t: Tree, names: seq<Name>, kind: Tree -> bool)
    requires Lists(t, names) && names != []
    ensures var k := |names| - 1; var before := Plus(s, CountPart(t, names[..k], kind));
            Plus(s, CountPart(t, names, kind)) == if kind(t.entries[names[k]]) then Plus(before, CountNode(t, names[k]))
                else before
  {
    var k := |names| - 1;
    PlusAssoc(s, CountPart(t, names[..k], kind), CountNode(t, names[k]));
  }

  /** Adding the last listed child to what the children before it left. */
  lemma AfterNext(w: Work, t: Tree, names: seq<Name>, kind: Tree -> bool)
    requires Lists(t, names) && names != [] && Distinct(names) && Apart(w, t, kind)
    ensures var k := |names| - 1; var n := names[k]; var before := After(w, t, names[..k], kind);
            After(w, t, names, kind) == if kind(t.entries[n]) then With(before, t, n) else before
    ensures kind(t.entries[names[|names| - 1]]) ==>
            names[|names| - 1] !in After(w, t, names[..|names| - 1], kind).entries
  {
    StatsNext(w.stats, t, names, kind);
    EntriesNext(w.entries, t, names, kind);
  }

  lemma EntriesNext(m: map<Name, Tree>, t: Tree, names: seq<Name>, kind: Tree -> bool)
    requires Lists(t, names) && names != [] && Distinct(names)
    ensures var k := |names| - 1; var before := m + Part(t, names[..k], kind);
            m + Part(t, names, kind) == if kind(t.entries[names[k]]) then
                before[names[k] := Normal(t.entries[names[k]])] else before
    ensures names[|names| - 1] !in Part(t, names[..|names| - 1], kind)
  {
    PartNext(t, names, kind);
  }

  ghost predicate GoodListing(t: Tree, names: seq<Name>) {
    Lists(t, names) && Distinct(names) && forall n :: n in names ==> ValidName(n)
  }

  lemma ShorterListing(t: Tree, names: seq<Name>)
    requires GoodListing(t, names) && names != []
    ensures GoodListing(t, names[..|names| - 1]) && ValidName(names[|names| - 1])
  {
  }

  /** The directory with child `n` of `t` copied in. */
  function With(w: Work, t: Tree, n: Name): Work
    requires t.Dir? && n in t.entries
  {
    Work(w.entries[n := Normal(t.entries[n])], Plus(w.stats, CountNode(t, n)))
  }

  lemma {:induction false} FileCopied(c: Codec, blobs: map<Digest, Bytes>, w: Work, t: Tree, n: Name)
    requires t.Dir? && n in t.entries && t.entries[n].File? && Stored(c, blobs, t.entries[n]) && ValidName(n) &&
             n !in w.entries
    requires Text(c, n)
    ensures WriteFile(blobs, w,
            FileNode(c.lossy(n), Some(DigestOf(c.hash, t.entries[n].data)), IsExecutable(t.entries[n].mode))) ==
                Ok(With(w, t, n))
  {
  }

  lemma {:induction false} FilesPhase(c: Codec, blobs: map<Digest, Bytes>, w: Work, t: Tree, names: seq<Name>)
    requires GoodListing(t, names) && Stored(c, blobs, t) && Apart(w, t, IsFile) && Faithful(c, t)
    ensures WriteFiles(blobs, w, FilesOf(c, t, names)) == Ok(After(w, t, names, IsFile))
  {
    if names == [] {
      assert After(w, t, names, IsFile) == w;
    } else {
      var k := |names| - 1;
      var n, before := names[k], FilesOf(c, t, names[..k]);
      ShorterListing(t, names);
      FilesPhase(c, blobs, w, t, names[..k]);
      AfterNext(w, t, names, IsFile);
      if t.entries[n].File? {
        assert FilesOf(c, t, names)[..|before|] == before;
        FileCopied(c, blobs, After(w, t, names[..k], IsFile), t, n);
      } else {
        assert FilesOf(c, t, names) == before;
      }
    }
  }

  lemma {:induction false} LinksPhase(c: Codec, w: Work, t: Tree, names: seq<Name>)
    requires GoodListing(t, names) && Apart(w, t, IsLink) && WellNamed(t) && Faithful(c, t)
    ensures WriteLinks(w, LinksOf(c, t, names)) == Ok(After(w, t, names, IsLink))
  {
    if names == [] {
      assert After(w, t, names, IsLink) == w;
    } else {
      var k := |names| - 1;
      var before := LinksOf(c, t, names[..k]);
      ShorterListing(t, names);
      LinksPhase(c, w, t, names[..k]);
      AfterNext(w, t, names, IsLink);
      if t.entries[names[k]].Link? {
        assert Faithful(c, t.entries[names[k]]) && WellNamed(t.entries[names[k]]);
        assert LinksOf(c, t, names)[..|before|] == before;
      } else {
        assert LinksOf(c, t, names) == before;
      }
    }
  }

  lemma {:induction false} DirsPhase(c: Codec, blobs: map<Digest, Bytes>, w: Work, t: Tree, names: seq<Name>, fuel: nat)
    requires CodecOk(c) && GoodListing(t, names) && WellNamed(t) && Stored(c, blobs, t) && Apart(w, t, IsDir) &&
             Faithful(c, t)
    requires fuel >= DepthOver(t, names)
    ensures WriteDirs(c, blobs, w, DirsOf(c, t, names), fuel) == Ok(After(w, t, names, IsDir))
    decreases fuel, 1, |names|
  {
    if names == [] {
      assert After(w, t, names, IsDir) == w;
    } else {
      var k := |names| - 1;
      ShorterListing(t, names);
      DirsPhase(c, blobs, w, t, names[..k], fuel);
      if t.entries[names[k]].Dir? {
        CopyBack(c, blobs, t.entries[names[k]], fuel);
      }
      DirsNext(c, blobs, w, t, names, fuel);
    }
  }

  /** One more child, its subtree already known to come back. */
  lemma DirsNext(c: Codec, blobs: map<Digest, Bytes>, w: Work, t: Tree, names: seq<Name>, fuel: nat)
    requires GoodListing(t, names) && names != [] && Apart(w, t, IsDir) && Faithful(c, t)
    requires WriteDirs(c, blobs, w, DirsOf(c, t, names[..|names| - 1]), fuel) ==
             Ok(After(w, t, names[..|names| - 1], IsDir))
    requires var child := t.entries[names[|names| - 1]];
             child.Dir? ==>
               Materialized(c, blobs, TreeDigest(c, child), fuel) == Ok(Work(Normal(child).entries, CountAll(child)))
    ensures WriteDirs(c, blobs, w, DirsOf(c, t, names), fuel) == Ok(After(w, t, names, IsDir))
  {
    var k := |names| - 1;
    var n, before := names[k], DirsOf(c, t, names[..k]);
    ShorterListing(t, names);
    AfterNext(w, t, names, IsDir);
    if t.entries[n].Dir? {
      DirCopied(c, blobs, After(w, t, names[..k], IsDir), t, n, fuel);
      DirsLast(c, blobs, w, before, DirNode(c.lossy(n), Some(TreeDigest(c, t.entries[n]))),
          After(w, t, names[..k], IsDir), fuel);
    } else {
      assert DirsOf(c, t, names) == before + [] == before;
    }
  }

  lemma {:induction false} DirCopied(c: Codec, blobs: map<Digest, Bytes>, w: Work, t: Tree, n: Name, fuel: nat)
    requires t.Dir? && n in t.entries && t.entries[n].Dir? && ValidName(n) && n !in w.entries
    requires Materialized(c, blobs, TreeDigest(c, t.entries[n]), fuel) ==
             Ok(Work(Normal(t.entries[n]).entries, CountAll(t.entries[n])))
    ensures WriteDir(c, blobs, w, DirNode(n, Some(TreeDigest(c, t.entries[n]))), fuel) == Ok(With(w, t, n))
  {
  }

  lemma {:induction false} DirsLast(c: Codec, blobs: map<Digest, Bytes>, w: Work, dirs: seq<DirNode>, d: DirNode,
      before: Work, fuel: nat)
    requires WriteDirs(c, blobs, w, dirs, fuel) == Ok(before)
    ensures WriteDirs(c, blobs, w, dirs + [d], fuel) == WriteDir(c, blobs, before, d, fuel)
  {
    assert (dirs + [d])[..|dirs|] == dirs;
  }

  /** Where `x` is added does not matter. */
  lemma PlusAnywhere(f: Stats, l: Stats, d: Stats, x: Stats)
    ensures Plus(Plus(Plus(f, x), l), d) == Plus(Plus(Plus(f, l), d), x)
    ensures Plus(Plus(f, Plus(l, x)), d) == Plus(Plus(Plus(f, l), d), x)
    ensures Plus(Plus(f, l), Plus(d, x)) == Plus(Plus(Plus(f, l), d), x)
  {
  }

  lemma PlusZero(a: Stats)
    ensures Plus(a, NoStats) == a && Plus(NoStats, a) == a
  {
  }

  lemma {:induction false} PartStep(t: Tree, names: seq<Name>, kind: Tree -> bool)
    requires Lists(t, names) && names != []
    ensures var k := |names| - 1; var before := CountPart(t, names[..k], kind);
            CountPart(t, names, kind) == if kind(t.entries[names[k]]) then Plus(before, CountNode(t, names[k]))
                else before
  {
    PlusZero(CountPart(t, names[..|names| - 1], kind));
  }

  /** The three kinds of children make up the directory. */
  lemma {:induction false} CountSplit(t: Tree, names: seq<Name>)
    requires Lists(t, names)
    ensures Plus(Plus(CountPart(t, names, IsFile), CountPart(t, names, IsLink)), CountPart(t, names, IsDir)) ==
            CountOver(t, names)
    decreases |names|
  {
    if names == [] {
      assert CountPart(t, names, IsFile) == NoStats && CountPart(t, names, IsLink) == NoStats &&
             CountPart(t, names, IsDir) == NoStats;
    } else {
      CountSplit(t, names[..|names| - 1]);
      CountSplitNext(t, names);
    }
  }

  lemma {:induction false} CountSplitNext(t: Tree, names: seq<Name>)
    requires Lists(t, names) && names != []
    requires Plus(Plus(CountPart(t, names[..|names| - 1], IsFile), CountPart(t, names[..|names| - 1], IsLink)),
             CountPart(t, names[..|names| - 1], IsDir)) ==
             CountOver(t, names[..|names| - 1])
    ensures Plus(Plus(CountPart(t, names, IsFile), CountPart(t, names, IsLink)), CountPart(t, names, IsDir)) ==
            CountOver(t, names)
  {
    var k := |names| - 1;
    PartStep(t, names, IsFile);
    PartStep(t, names, IsLink);
    PartStep(t, names, IsDir);
    PlusAnywhere(CountPart(t, names[..k], IsFile), CountPart(t, names[..k], IsLink), CountPart(t, names[..k], IsDir),
        CountNode(t, names[k]));
    assert CountOver(t, names) == Plus(CountOver(t, names[..k]), CountNode(t, names[k]));
  }

  lemma {:induction false} ListingGood(t: Tree)
    requires t.Dir? && WellNamed(t)
    ensures GoodListing(t, Listed(t)) && forall n :: n in Listed(t) <==> n in t.entries
  {
    SortedIs(t.entries.Keys);
    var names := Listed(t);
    forall i, j | 0 <= i < j < |names| ensures names[i] != names[j] {
      Trichotomy(names[i], names[j]);
    }
  }

  lemma {:induction false} PartsMakeEntries(t: Tree, names: seq<Name>)
    requires Lists(t, names) && forall n :: n in t.entries ==> n in names
    ensures map[] + Part(t, names, IsFile) + Part(t, names, IsLink) + Part(t, names, IsDir) == Normal(t).entries
  {
  }

  lemma {:induction false} PartsMakeStats(t: Tree, names: seq<Name>)
    requires Lists(t, names)
    ensures Plus(Plus(Plus(NoStats, CountPart(t, names, IsFile)), CountPart(t, names, IsLink)),
            CountPart(t, names, IsDir)) == CountOver(t, names)
  {
    PlusZero(CountPart(t, names, IsFile));
    CountSplit(t, names);
  }

  function Fresh(): Work { Work(map[], NoStats) }

  /** What files leave has no links' names, and what both leave no directories'. */
  lemma PhasesApart(t: Tree, names: seq<Name>)
    requires Lists(t, names)
    ensures Apart(Fresh(), t, IsFile) && Apart(After(Fresh(), t, names, IsFile), t, IsLink)
    ensures Apart(After(After(Fresh(), t, names, IsFile), t, names, IsLink), t, IsDir)
  {
  }

  /** A packed tree whose names and targets are text copies back to itself,
      modes reduced to the executable bit, and is counted exactly. */
  lemma {:induction false} CopyBack(c: Codec, blobs: map<Digest, Bytes>, t: Tree, fuel: nat)
    requires CodecOk(c) && t.Dir? && WellNamed(t) && Faithful(c, t) && Stored(c, blobs, t) && fuel >= Depth(t)
    ensures Materialized(c, blobs, TreeDigest(c, t), fuel) == Ok(Work(Normal(t).entries, CountAll(t)))
    decreases fuel, 0
  {
    ListingGood(t);
    var names := Listed(t);
    PhasesApart(t, names);
    FilesPhase(c, blobs, Fresh(), t, names);
    var w1 := After(Fresh(), t, names, IsFile);
    LinksPhase(c, w1, t, names);
    var w2 := After(w1, t, names, IsLink);
    DirsPhase(c, blobs, w2, t, names, fuel - 1);
    PartsMakeEntries(t, names);
    PartsMakeStats(t, names);
    Decoded(c, blobs, t, fuel);
  }

  lemma {:induction false} PackedText(c: Codec, t: Tree, names: seq<Name>)
    requires LossyOk(c) && Lists(t, names)
    ensures TextMessage(c, Directory(FilesOf(c, t, names), LinksOf(c, t, names), DirsOf(c, t, names)))
  {
    if names != [] {
      var n := names[|names| - 1];
      PackedText(c, t, names[..|names| - 1]);
      assert LossyAt(c, n) && (t.entries[n].Link? ==> LossyAt(c, t.entries[n].target));
    }
  }

  /** The message found under a packed tree's digest describes the tree. */
  lemma {:induction false} Decoded(c: Codec, blobs: map<Digest, Bytes>, t: Tree, fuel: nat)
    requires CodecOk(c) && t.Dir? && Stored(c, blobs, t) && fuel > 0
    ensures Materialized(c, blobs, TreeDigest(c, t), fuel) ==
            match WriteFiles(blobs, Fresh(), Describe(c, t).files)
            case Err(e) => Err(e)
            case Ok(w1) =>
              match WriteLinks(w1, Describe(c, t).links)
              case Err(e) => Err(e)
              case Ok(w2) => WriteDirs(c, blobs, w2, Describe(c, t).dirs, fuel - 1)
  {
    SortedIs(t.entries.Keys);
    PackedText(c, t, Listed(t));
  }

  // ----- packing a directory -----

  /** Nothing that was stored changes. */
  ghost predicate Grows(before: map<Digest, Bytes>, after: map<Digest, Bytes>) {
    forall d :: d in before ==> d in after && after[d] == before[d]
  }

  lemma {:induction false} StoredGrows(c: Codec, before: map<Digest, Bytes>, after: map<Digest, Bytes>, t: Tree)
    requires Stored(c, before, t) && Grows(before, after)
    ensures Stored(c, after, t)
    decreases t
  {
    if t.Dir? {
      forall n | n in t.entries ensures Stored(c, after, t.entries[n]) {
        StoredGrows(c, before, after, t.entries[n]);
      }
    }
  }

  /** Stores one blob under its own digest. */
  method PutBlob(cas: Store, data: Bytes) returns (r: Result<Digest, CasError>)
    requires cas.Valid() && Injective(cas.hash)
    modifies cas`blobs
    ensures cas.Valid() && r == if cas.up then Ok(DigestOf(cas.hash, data)) else Err(Unavailable)
    ensures cas.up ==>
              Lookup(cas.blobs, DigestOf(cas.hash, data)) == Ok(data) &&
              cas.blobs.Keys == old(cas.blobs).Keys + {DigestOf(cas.hash, data)}
    ensures Grows(old(cas.blobs), cas.blobs)
  {
    var d := DigestOf(cas.hash, data);
    var batch := [(d, data)];
    assert batch[..0] == [] && Written(cas.hash, cas.blobs, batch[..0]) == cas.blobs;
    assert Written(cas.hash, cas.blobs, batch) == cas.blobs[d := data];
    if d in cas.blobs {
      OneBlob(cas.hash, cas.blobs, d, data);
    }
    var put := cas.BatchUpdate(batch);
    r := if put.Ok? then Ok(d) else Err(put.error);
  }

  ghost predicate DoneStored(c: Codec, blobs: map<Digest, Bytes>, t: Tree, names: seq<Name>)
    requires Lists(t, names)
  {
    forall n :: n in names ==> Stored(c, blobs, t.entries[n])
  }

  ghost function DoneDigests(c: Codec, t: Tree, names: seq<Name>): set<Digest>
    requires Lists(t, names)
  {
    set n, d | n in names && d in Digests(c, t.entries[n]) :: d
  }

  lemma {:induction false} DoneNext(c: Codec, blobs: map<Digest, Bytes>, after: map<Digest, Bytes>, t: Tree,
      names: seq<Name>, n: Name)
    requires Lists(t, names + [n]) && DoneStored(c, blobs, t, names) && Grows(blobs, after) &&
             Stored(c, after, t.entries[n])
    ensures Lists(t, names) && DoneStored(c, after, t, names + [n])
    ensures DoneDigests(c, t, names + [n]) == DoneDigests(c, t, names) + Digests(c, t.entries[n])
  {
    assert forall m :: m in names ==> m in names + [n];
    forall m | m in names + [n] ensures Stored(c, after, t.entries[m]) {
      if m in names {
        StoredGrows(c, blobs, after, t.entries[m]);
      }
    }
  }

  /** Packs one child: its blobs are stored and its node is known. */
  method PackChild(c: Codec, cas: Store, child: Tree) returns (r: Result<Option<Digest>, CasError>)
    requires CodecOk(c) && cas.Valid() && cas.hash == c.hash
    modifies cas`blobs
    ensures cas.Valid() && Grows(old(cas.blobs), cas.blobs)
    ensures r.Err? ==> r.error == Unavailable && !cas.up
    ensures r.Ok? ==> Stored(c, cas.blobs, child) && cas.blobs.Keys == old(cas.blobs).Keys + Digests(c, child)
    ensures r.Ok? ==> r.value == NodeDigest(c, child)
    decreases child, 2
  {
    match child
    case Link(_) =>
      r := Ok(None);
    case File(data, _) =>
      var put := PutBlob(cas, data);
      r := if put.Ok? then Ok(Some(put.value)) else Err(put.error);
    case Dir(_) =>
      var packed := PackDirectory(c, cas, child);
      r := if packed.Ok? then Ok(Some(packed.value)) else Err(packed.error);
  }

  function AddNode(c: Codec, d: Directory, n: Name, child: Tree, digest: Option<Digest>): Directory {
    match child
    case File(_, mode) => d.(files := d.files + [FileNode(c.lossy(n), digest, IsExecutable(mode))])
    case Link(target) => d.(links := d.links + [LinkNode(c.lossy(n), c.lossy(target))])
    case Dir(_) => d.(dirs := d.dirs + [DirNode(c.lossy(n), digest)])
  }

  /** The message listing the children in `names`. */
  function DescribeSome(c: Codec, t: Tree, names: seq<Name>): Directory
    requires Lists(t, names)
  {
    Directory(FilesOf(c, t, names), LinksOf(c, t, names), DirsOf(c, t, names))
  }

  function NodeDigest(c: Codec, child: Tree): Option<Digest> {
    match child
    case File(data, _) => Some(DigestOf(c.hash, data))
    case Link(_) => None
    case Dir(_) => Some(TreeDigest(c, child))
  }

  lemma DescribeNext(c: Codec, t: Tree, names: seq<Name>, n: Name)
    requires Lists(t, names + [n])
    ensures Lists(t, names) &&
            DescribeSome(c, t, names + [n]) ==
                AddNode(c, DescribeSome(c, t, names), n, t.entries[n], NodeDigest(c, t.entries[n]))
  {
    var more := names + [n];
    assert more[..|names|] == names && more[|names|] == n;
    assert forall m :: m in names ==> m in more;
    var files, links, dirs := FilesOf(c, t, names), LinksOf(c, t, names), DirsOf(c, t, names);
    assert files + [] == files && links + [] == links && dirs + [] == dirs;
  }

  /** How far packing the children has come. */
  ghost predicate Progress(c: Codec, before: map<Digest, Bytes>, blobs: map<Digest, Bytes>, t: Tree, names: seq<Name>,
      d: Directory) {
    && Lists(t, names) && Grows(before, blobs) && d == DescribeSome(c, t, names) && DoneStored(c, blobs, t, names)
    && blobs.Keys == before.Keys + DoneDigests(c, t, names)
  }

  lemma {:induction false} ProgressNext(c: Codec, before: map<Digest, Bytes>, blobs: map<Digest, Bytes>,
      after: map<Digest, Bytes>, t: Tree, names: seq<Name>, d: Directory, n: Name)
    requires Progress(c, before, blobs, t, names, d) && t.Dir? && n in t.entries && Grows(blobs, after)
    requires Stored(c, after, t.entries[n]) && after.Keys == blobs.Keys + Digests(c, t.entries[n])
    ensures Progress(c, before, after, t, names + [n], AddNode(c, d, n, t.entries[n], NodeDigest(c, t.entries[n])))
  {
    DescribeNext(c, t, names, n);
    DoneNext(c, blobs, after, t, names, n);
    GrowsOn(before, blobs, after);
    KeysOn(before.Keys, DoneDigests(c, t, names), Digests(c, t.entries[n]));
  }

  lemma GrowsOn(a: map<Digest, Bytes>, b: map<Digest, Bytes>, c: map<Digest, Bytes>)
    requires Grows(a, b) && Grows(b, c)
    ensures Grows(a, c)
  {
  }

  lemma KeysOn(a: set<Digest>, b: set<Digest>, c: set<Digest>)
    ensures (a + b) + c == a + (b + c)
  {
  }

  /** Packs the next child and adds its node to the message. */
  method PackNext(c: Codec, cas: Store, t: Tree, ghost done: seq<Name>, n: Name, d: Directory,
      ghost before: map<Digest, Bytes>)
      returns (r: Result<Directory, CasError>)
    requires CodecOk(c) && cas.Valid() && cas.hash == c.hash && t.Dir? && n in t.entries
    requires Progress(c, before, cas.blobs, t, done, d)
    modifies cas`blobs
    ensures cas.Valid() && Grows(before, cas.blobs)
    ensures r.Err? ==> r.error == Unavailable && !cas.up
    ensures r.Ok? ==> Progress(c, before, cas.blobs, t, done + [n], r.value)
    decreases t, 1, 0
  {
    ghost var was := cas.blobs;
    var packed := PackChild(c, cas, t.entries[n]);
    GrowsOn(before, was, cas.blobs);
    if packed.Err? {
      return Err(packed.error);
    }
    ProgressNext(c, before, was, cas.blobs, t, done, d, n);
    return Ok(AddNode(c, d, n, t.entries[n], packed.value));
  }

  method PackChildren(c: Codec, cas: Store, t: Tree) returns (r: Result<Directory, CasError>)
    requires CodecOk(c) && cas.Valid() && cas.hash == c.hash && t.Dir?
    modifies cas`blobs
    ensures cas.Valid() && Grows(old(cas.blobs), cas.blobs)
    ensures r.Err? ==> r.error == Unavailable && !cas.up
    ensures r.Ok? ==> Progress(c, old(cas.blobs), cas.blobs, t, Listed(t), r.value)
    decreases t, 1, 2
  {
    SortedIs(t.entries.Keys);
    r := PackListed(c, cas, t, Listed(t));
  }

  lemma {:induction false} ProgressFirst(c: Codec, blobs: map<Digest, Bytes>, t: Tree)
    requires t.Dir?
    ensures Progress(c, blobs, blobs, t, [], Directory([], [], []))
  {
  }

  method PackListed(c: Codec, cas: Store, t: Tree, names: seq<Name>) returns (r: Result<Directory, CasError>)
    requires CodecOk(c) && cas.Valid() && cas.hash == c.hash && Lists(t, names)
    modifies cas`blobs
    ensures cas.Valid() && Grows(old(cas.blobs), cas.blobs)
    ensures r.Err? ==> r.error == Unavailable && !cas.up
    ensures r.Ok? ==> Progress(c, old(cas.blobs), cas.blobs, t, names, r.value)
    decreases t, 1, 1
  {
    ghost var before, done := cas.blobs, [];
    ProgressFirst(c, before, t);
    r := Ok(Directory([], [], []));
    for i := 0 to |names|
      invariant cas.Valid() && done == names[..i] && r.Ok? && Progress(c, before, cas.blobs, t, done, r.value)
    {
      r := PackNext(c, cas, t, done, names[i], r.value, before);
      if r.Err? {
        return;
      }
      done := done + [names[i]];
    }
    assert done == names;
  }

  lemma {:induction false} DigestsListed(c: Codec, t: Tree, names: seq<Name>)
    requires Lists(t, names) && forall n :: n in t.entries ==> n in names
    ensures Digests(c, t) == {TreeDigest(c, t)} + DoneDigests(c, t, names)
  {
    var below := set n, d | n in t.entries && d in Digests(c, t.entries[n]) :: d;
    assert below == DoneDigests(c, t, names);
  }

  lemma {:induction false} StoredListed(c: Codec, done: map<Digest, Bytes>, after: map<Digest, Bytes>, t: Tree,
      names: seq<Name>)
    requires Lists(t, names) && (forall n :: n in t.entries ==> n in names) && DoneStored(c, done, t, names) &&
             Grows(done, after)
    requires Lookup(after, TreeDigest(c, t)) == Ok(c.encode(Describe(c, t)))
    ensures Stored(c, after, t)
  {
    forall n | n in t.entries ensures Stored(c, after, t.entries[n]) {
      StoredGrows(c, done, after, t.entries[n]);
    }
  }

  /** Packs a directory: only adds to the store, exactly the tree's blobs. */
  method PackDirectory(c: Codec, cas: Store, t: Tree) returns (r: Result<Digest, CasError>)
    requires CodecOk(c) && cas.Valid() && cas.hash == c.hash && t.Dir?
    modifies cas`blobs
    ensures cas.Valid() && Grows(old(cas.blobs), cas.blobs)
    ensures r.Err? ==> r.error == Unavailable && !cas.up
    ensures r.Ok? ==>
              r.value == TreeDigest(c, t) && Stored(c, cas.blobs, t) &&
              cas.blobs.Keys == old(cas.blobs).Keys + Digests(c, t)
    decreases t, 1, 3
  {
    var directory := PackChildren(c, cas, t);
    if directory.Err? {
      return Err(directory.error);
    }
    ghost var done := cas.blobs;
    r := PutBlob(cas, c.encode(directory.value));
    if r.Ok? {
      WholeStored(c, old(cas.blobs), done, cas.blobs, t, directory.value, r.value);
    }
  }

  /** Storing the message about `t` after its children completes the tree. */
  lemma {:induction false} WholeStored(c: Codec, before: map<Digest, Bytes>, done: map<Digest, Bytes>,
      after: map<Digest, Bytes>, t: Tree, dir: Directory, d: Digest)
    requires t.Dir? && Progress(c, before, done, t, Listed(t), dir) && Grows(done, after) &&
             d == DigestOf(c.hash, c.encode(dir))
    requires Lookup(after, d) == Ok(c.encode(dir)) && after.Keys == done.Keys + {d}
    ensures d == TreeDigest(c, t) && Grows(before, after) && Stored(c, after, t) &&
            after.Keys == before.Keys + Digests(c, t)
  {
    SortedIs(t.entries.Keys);
    assert dir == Describe(c, t);
    StoredListed(c, done, after, t, Listed(t));
    KeysListed(c, before, done, after, t, d);
  }

  lemma {:induction false} KeysListed(c: Codec, before: map<Digest, Bytes>, done: map<Digest, Bytes>,
      after: map<Digest, Bytes>, t: Tree, d: Digest)
    requires t.Dir? && Lists(t, Listed(t)) && (forall n :: n in t.entries ==> n in Listed(t)) && d == TreeDigest(c, t)
    requires done.Keys == before.Keys + DoneDigests(c, t, Listed(t)) && after.Keys == done.Keys + {d}
    ensures after.Keys == before.Keys + Digests(c, t)
  {
    DigestsListed(c, t, Listed(t));
  }
}

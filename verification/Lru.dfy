/** What the hot tier of crates/brokkr-cas/src/tiered.rs stands for: blobs from
    most to least recently used, within a byte budget. */
module Lru {
  import opened Common
  import opened Cas

  datatype Blob = Blob(digest: Digest, data: Bytes)

  function Cut<T>(s: seq<T>, k: nat): seq<T>
    requires k < |s|
  {
    s[..k] + s[k + 1..]
  }

  function Size(s: seq<Blob>): nat {
    if s == [] then 0 else Size(s[..|s| - 1]) + |s[|s| - 1].data|
  }

  function Find(s: seq<Blob>, d: Digest): Option<Bytes> {
    if s == [] then None else if s[0].digest == d then Some(s[0].data) else Find(s[1..], d)
  }

  function Without(s: seq<Blob>, d: Digest): seq<Blob> {
    if s == [] then [] else (if s[0].digest == d then [] else [s[0]]) + Without(s[1..], d)
  }

  /** Drops least recently used blobs until the rest fits. */
  function Fit(s: seq<Blob>, capacity: nat): seq<Blob> {
    if s == [] || Size(s) <= capacity then s else Fit(s[..|s| - 1], capacity)
  }

  function Touched(s: seq<Blob>, d: Digest): seq<Blob> {
    match Find(s, d)
    case Some(data) => [Blob(d, data)] + Without(s, d)
    case None => s
  }

  function Stored(s: seq<Blob>, capacity: nat, d: Digest, data: Bytes): seq<Blob> {
    if capacity == 0 || (Find(s, d).None? && |data| > capacity) then s
    else Fit([Blob(d, data)] + Without(s, d), capacity)
  }

  ghost predicate Distinct(s: seq<Blob>) {
    forall i, j :: 0 <= i < j < |s| ==> s[i].digest != s[j].digest
  }

  lemma {:induction false} SizeJoin(s: seq<Blob>, t: seq<Blob>)
    ensures Size(s + t) == Size(s) + Size(t)
  {
    if t == [] {
      assert s + t == s;
    } else {
      assert (s + t)[..|s + t| - 1] == s + t[..|t| - 1];
      SizeJoin(s, t[..|t| - 1]);
    }
  }

  lemma SizeOne(b: Blob)
    ensures Size([b]) == |b.data|
  {
    assert [b][..0] == [];
    assert Size([b][..0]) == 0;
  }

  lemma {:induction false} SizeCut(s: seq<Blob>, k: nat)
    requires k < |s|
    ensures Size(s) == Size(Cut(s, k)) + |s[k].data|
  {
    assert s == s[..k] + [s[k]] + s[k + 1..];
    SizeJoin(s[..k] + [s[k]], s[k + 1..]);
    SizeJoin(s[..k], [s[k]]);
    SizeJoin(s[..k], s[k + 1..]);
    SizeOne(s[k]);
  }

  lemma {:induction false} SizeFront(b: Blob, s: seq<Blob>)
    ensures Size([b] + s) == |b.data| + Size(s)
  {
    SizeJoin([b], s);
    SizeOne(b);
  }

  lemma {:induction false} FindAt(s: seq<Blob>, k: nat)
    requires Distinct(s) && k < |s|
    ensures Find(s, s[k].digest) == Some(s[k].data) && Without(s, s[k].digest) == Cut(s, k)
  {
    if k == 0 {
      FindNone(s[1..], s[0].digest);
    } else {
      FindAt(s[1..], k - 1);
      assert Cut(s, k) == [s[0]] + Cut(s[1..], k - 1);
    }
  }

  lemma {:induction false} FindNone(s: seq<Blob>, d: Digest)
    requires forall i :: 0 <= i < |s| ==> s[i].digest != d
    ensures Find(s, d) == None && Without(s, d) == s
  {
    if s != [] {
      FindNone(s[1..], d);
    }
  }

  /** `Fit` keeps the longest prefix of the recency order that fits. */
  lemma {:induction false} FitLongest(s: seq<Blob>, capacity: nat, k: nat)
    requires k <= |s|
    ensures |Fit(s, capacity)| <= |s| && Fit(s, capacity) == s[..|Fit(s, capacity)|]
    ensures Size(s[..k]) <= capacity <==> k <= |Fit(s, capacity)|
    decreases |s|
  {
    if s == [] {
      assert s[..k] == [];
    } else if Size(s) <= capacity {
      assert s == s[..k] + s[k..] && s[..|s|] == s;
      SizeJoin(s[..k], s[k..]);
    } else if k == |s| {
      assert s[..k] == s;
      FitLongest(s[..|s| - 1], capacity, 0);
    } else {
      FitLongest(s[..|s| - 1], capacity, k);
      assert s[..|s| - 1][..k] == s[..k];
    }
  }

  lemma {:induction false} FitUnique(s: seq<Blob>, capacity: nat, k: nat)
    requires k <= |s| && Size(s[..k]) <= capacity && (k < |s| ==> Size(s[..k + 1]) > capacity)
    ensures Fit(s, capacity) == s[..k]
  {
    FitLongest(s, capacity, k);
    if k < |s| {
      FitLongest(s, capacity, k + 1);
    }
  }

  /** What does not fit is dropped before anything behind it is kept. */
  lemma {:induction false} FitOver(s: seq<Blob>, t: seq<Blob>, capacity: nat)
    requires Size(s) > capacity
    ensures Fit(s + t, capacity) == Fit(s, capacity)
  {
    FitLongest(s, capacity, 0);
    var k := |Fit(s, capacity)|;
    FitLongest(s, capacity, k);
    assert s[..|s|] == s;
    FitLongest(s, capacity, |s|);
    FitLongest(s, capacity, k + 1);
    assert (s + t)[..k] == s[..k] && (s + t)[..k + 1] == s[..k + 1];
    FitUnique(s + t, capacity, k);
  }

  lemma {:induction false} FitFront(s: seq<Blob>, t: seq<Blob>, capacity: nat)
    requires Size(s) <= capacity && (t != [] ==> Size(s) + |t[0].data| > capacity)
    ensures Fit(s + t, capacity) == s
  {
    assert (s + t)[..|s|] == s;
    if t != [] {
      assert (s + t)[..|s| + 1] == s + [t[0]];
      SizeJoin(s, [t[0]]);
      SizeOne(t[0]);
    }
    FitUnique(s + t, capacity, |s|);
  }

  // ----- runs: the cache is a window on the full recency order -----

  datatype Op = Read(d: Digest) | Write(b: Blob)

  function CacheStep(s: seq<Blob>, capacity: nat, op: Op): seq<Blob> {
    match op
    case Read(d) => Touched(s, d)
    case Write(b) => Stored(s, capacity, b.digest, b.data)
  }

  /** The recency order that never forgets; a read that misses uses nothing. */
  function StackStep(s: seq<Blob>, capacity: nat, op: Op): seq<Blob> {
    match op
    case Read(d) => if Find(Fit(s, capacity), d).Some? then Touched(s, d) else s
    case Write(b) => if capacity == 0 || |b.data| > capacity then s else [b] + Without(s, b.digest)
  }

  function Cached(ops: seq<Op>, capacity: nat): seq<Blob> {
    if ops == [] then [] else CacheStep(Cached(ops[..|ops| - 1], capacity), capacity, ops[|ops| - 1])
  }

  function Stack(ops: seq<Op>, capacity: nat): seq<Blob> {
    if ops == [] then [] else StackStep(Stack(ops[..|ops| - 1], capacity), capacity, ops[|ops| - 1])
  }

  /** Content addressing: a digest names one blob. */
  ghost predicate Addressed(s: seq<Blob>, content: Digest -> Bytes) {
    forall i :: 0 <= i < |s| ==> s[i].data == content(s[i].digest)
  }

  ghost predicate WritesAddressed(ops: seq<Op>, content: Digest -> Bytes) {
    forall i :: 0 <= i < |ops| && ops[i].Write? ==> ops[i].b.data == content(ops[i].b.digest)
  }

  ghost predicate Orderly(s: seq<Blob>, content: Digest -> Bytes) { Distinct(s) && Addressed(s, content) }

  lemma {:induction false} FindSome(s: seq<Blob>, d: Digest) returns (k: nat)
    requires Find(s, d).Some?
    ensures k < |s| && s[k].digest == d && Find(s, d) == Some(s[k].data)
  {
    if s[0].digest == d {
      k := 0;
    } else {
      k := FindSome(s[1..], d);
      k := k + 1;
    }
  }

  lemma {:induction false} WithoutJoin(s: seq<Blob>, t: seq<Blob>, d: Digest)
    ensures Without(s + t, d) == Without(s, d) + Without(t, d)
  {
    if s == [] {
      assert s + t == t;
    } else {
      assert (s + t)[1..] == s[1..] + t;
      WithoutJoin(s[1..], t, d);
    }
  }

  lemma {:induction false} WithoutKeeps(s: seq<Blob>, d: Digest)
    ensures forall i :: 0 <= i < |Without(s, d)| ==> Without(s, d)[i] in s && Without(s, d)[i].digest != d
    ensures Distinct(s) ==> Distinct(Without(s, d))
  {
    if s != [] {
      WithoutKeeps(s[1..], d);
      assert s == [s[0]] + s[1..];
      if Distinct(s) {
        forall i | 0 <= i < |Without(s[1..], d)| ensures Without(s[1..], d)[i].digest != s[0].digest {
          var k :| 0 <= k < |s[1..]| && s[1..][k] == Without(s[1..], d)[i];
          assert s[k + 1].digest != s[0].digest;
        }
      }
    }
  }

  /** Moving a blob to the front keeps the order orderly. */
  lemma {:induction false} OrderlyFront(s: seq<Blob>, content: Digest -> Bytes, b: Blob)
    requires Orderly(s, content) && b.data == content(b.digest)
    ensures Orderly([b] + Without(s, b.digest), content)
  {
    WithoutKeeps(s, b.digest);
  }

  lemma SplitOrderly(w: seq<Blob>, rest: seq<Blob>, content: Digest -> Bytes, k: nat)
    requires Orderly(w + rest, content) && k < |w|
    ensures Distinct(w) && w[k].data == content(w[k].digest) && (w + rest)[k] == w[k]
    ensures forall i :: 0 <= i < |rest| ==> rest[i].digest != w[k].digest
  {
    assert (w + rest)[k] == w[k];
    forall i, j | 0 <= i < j < |w| ensures w[i].digest != w[j].digest {
      assert (w + rest)[i] == w[i] && (w + rest)[j] == w[j];
    }
    forall i | 0 <= i < |rest| ensures rest[i].digest != w[k].digest {
      assert (w + rest)[|w| + i] == rest[i] && (w + rest)[k] == w[k];
    }
  }

  lemma {:induction false} FindFront(s: seq<Blob>, t: seq<Blob>, d: Digest)
    requires Find(s, d).Some?
    ensures Find(s + t, d) == Find(s, d)
  {
    if s[0].digest != d {
      assert (s + t)[1..] == s[1..] + t;
      FindFront(s[1..], t, d);
    }
  }

  lemma {:induction false} MoveFront(w: seq<Blob>, rest: seq<Blob>, k: nat)
    requires Distinct(w) && k < |w| && forall i :: 0 <= i < |rest| ==> rest[i].digest != w[k].digest
    ensures Without(w + rest, w[k].digest) == Without(w, w[k].digest) + rest
    ensures Size([w[k]] + Without(w, w[k].digest)) == Size(w)
  {
    FindAt(w, k);
    FindNone(rest, w[k].digest);
    WithoutJoin(w, rest, w[k].digest);
    SizeCut(w, k);
    SizeFront(w[k], Cut(w, k));
  }

  /** Using a blob that is held: the window's blobs are reordered, nothing enters or leaves. */
  lemma {:induction false} HitWindow(s: seq<Blob>, capacity: nat, content: Digest -> Bytes, b: Blob)
    requires Orderly(s, content) && Find(Fit(s, capacity), b.digest).Some? && b.data == content(b.digest)
    ensures Fit([b] + Without(s, b.digest), capacity) == [b] + Without(Fit(s, capacity), b.digest)
    ensures Size([b] + Without(Fit(s, capacity), b.digest)) <= capacity
    ensures Find(Fit(s, capacity), b.digest) == Find(s, b.digest) == Some(b.data)
  {
    var w, rest := Window(s, capacity);
    HitSplit(w, rest, capacity, content, b);
  }

  lemma {:induction false} HitSplit(w: seq<Blob>, rest: seq<Blob>, capacity: nat, content: Digest -> Bytes, b: Blob)
    requires Orderly(w + rest, content) && Find(w, b.digest).Some? && b.data == content(b.digest)
    requires Size(w) <= capacity && (rest != [] ==> Size(w) + |rest[0].data| > capacity)
    ensures Fit([b] + Without(w + rest, b.digest), capacity) == [b] + Without(w, b.digest)
    ensures Size([b] + Without(w, b.digest)) <= capacity
    ensures Find(w, b.digest) == Find(w + rest, b.digest) == Some(b.data)
  {
    var k := FindSome(w, b.digest);
    SplitOrderly(w, rest, content, k);
    FindFront(w, rest, b.digest);
    MoveFront(w, rest, k);
    var front := [b] + Without(w, b.digest);
    assert [b] + (Without(w, b.digest) + rest) == front + rest;
    FitFront(front, rest, capacity);
  }

  /** The window and what lies behind it. */
  lemma Window(s: seq<Blob>, capacity: nat) returns (w: seq<Blob>, rest: seq<Blob>)
    ensures w == Fit(s, capacity) && s == w + rest && Size(w) <= capacity
    ensures rest != [] ==> Size(w) + |rest[0].data| > capacity
  {
    FitLongest(s, capacity, 0);
    w := Fit(s, capacity);
    rest := s[|w|..];
    FitLongest(s, capacity, |w|);
    if rest != [] {
      FitLongest(s, capacity, |w| + 1);
      assert s[..|w| + 1] == w + [rest[0]];
      SizeJoin(w, [rest[0]]);
      SizeOne(rest[0]);
    }
  }

  /** A blob entering the window pushes out the same blobs that a refit of the whole order would. */
  lemma {:induction false} EnterWindow(s: seq<Blob>, capacity: nat, content: Digest -> Bytes, b: Blob)
    requires Orderly(s, content) && Find(Fit(s, capacity), b.digest).None? && b.data == content(b.digest)
    ensures Fit([b] + Without(s, b.digest), capacity) == Fit([b] + Fit(s, capacity), capacity)
    ensures Without(Fit(s, capacity), b.digest) == Fit(s, capacity)
  {
    var w, rest := Window(s, capacity);
    if rest != [] {
      assert rest[0] == s[|w|];
    }
    EnterSplit(w, rest, capacity, content, b);
  }

  lemma {:induction false} EnterSplit(w: seq<Blob>, rest: seq<Blob>, capacity: nat, content: Digest -> Bytes, b: Blob)
    requires Find(w, b.digest).None? && b.data == content(b.digest) && Size(w) <= capacity
    requires rest != [] ==> rest[0].data == content(rest[0].digest) && Size(w) + |rest[0].data| > capacity
    ensures Without(w, b.digest) == w && Fit([b] + Without(w + rest, b.digest), capacity) == Fit([b] + w, capacity)
  {
    Absent(w, b.digest);
    WithoutJoin(w, rest, b.digest);
    SizeFront(b, w);
    var front, behind := [b] + w, Without(rest, b.digest);
    assert [b] + (w + behind) == front + behind;
    FitEither(front, behind, capacity);
  }

  /** Refitting does not see what lies behind a window that is full or has nothing that fits behind it. */
  lemma {:induction false} FitEither(s: seq<Blob>, t: seq<Blob>, capacity: nat)
    requires Size(s) <= capacity && t != [] ==> Size(s) + |t[0].data| > capacity
    ensures Fit(s + t, capacity) == Fit(s, capacity)
  {
    assert s + [] == s;
    if Size(s) > capacity {
      FitOver(s, t, capacity);
    } else {
      FitFront(s, [], capacity);
      FitFront(s, t, capacity);
    }
  }

  lemma {:induction false} Absent(s: seq<Blob>, d: Digest)
    requires Find(s, d).None?
    ensures Without(s, d) == s && forall i :: 0 <= i < |s| ==> s[i].digest != d
  {
    if s != [] {
      Absent(s[1..], d);
    }
  }

  lemma {:induction false} WindowStep(s: seq<Blob>, capacity: nat, content: Digest -> Bytes, op: Op)
    requires Orderly(s, content) && (op.Write? ==> op.b.data == content(op.b.digest))
    ensures Orderly(StackStep(s, capacity, op), content)
    ensures CacheStep(Fit(s, capacity), capacity, op) == Fit(StackStep(s, capacity, op), capacity)
  {
    var b := if op.Write? then op.b else Blob(op.d, content(op.d));
    OrderlyFront(s, content, b);
    if Find(Fit(s, capacity), b.digest).Some? {
      HitWindow(s, capacity, content, b);
      var k := FindSome(s, b.digest);
      FitsBudget(s, capacity, b);
      FitWhole([b] + Without(Fit(s, capacity), b.digest), capacity);
    } else if op.Write? {
      EnterWindow(s, capacity, content, b);
    }
  }

  lemma {:induction false} FitWhole(s: seq<Blob>, capacity: nat)
    requires Size(s) <= capacity
    ensures Fit(s, capacity) == s
  {
  }

  /** A held blob fits the budget, and an empty budget holds only empty blobs. */
  lemma {:induction false} FitsBudget(s: seq<Blob>, capacity: nat, b: Blob)
    requires Find(Fit(s, capacity), b.digest) == Some(b.data)
    ensures |b.data| <= capacity
  {
    var w, _ := Window(s, capacity);
    var k := FindSome(w, b.digest);
    SizeCut(w, k);
  }

  /** Over every run, the cache holds exactly the longest prefix, within the
      budget, of the order in which blobs were last used. */
  lemma {:induction false} RunIsWindow(ops: seq<Op>, capacity: nat, content: Digest -> Bytes)
    requires WritesAddressed(ops, content)
    ensures Orderly(Stack(ops, capacity), content)
    ensures Cached(ops, capacity) == Fit(Stack(ops, capacity), capacity)
  {
    if ops != [] {
      RunIsWindow(ops[..|ops| - 1], capacity, content);
      WindowStep(Stack(ops[..|ops| - 1], capacity), capacity, content, ops[|ops| - 1]);
    }
  }
}

/** The hot tier in front of a warm store (crates/brokkr-cas/src/tiered.rs). */
module TieredStore {
  import opened Common
  import opened Cas
  import opened Lru
  import opened Tiered

  /** Every cached blob is what the warm store holds. */
  ghost predicate Backed(s: seq<Blob>, blobs: map<Digest, Bytes>) {
    forall b :: b in s ==> b.digest in blobs && blobs[b.digest] == b.data
  }

  lemma {:induction false} FitWithin(s: seq<Blob>, capacity: nat, b: Blob)
    requires b in Fit(s, capacity)
    ensures b in s
  {
    FitLongest(s, capacity, 0);
  }

  lemma {:induction false} BackedTouch(s: seq<Blob>, blobs: map<Digest, Bytes>, d: Digest)
    requires Backed(s, blobs)
    ensures Backed(Touched(s, d), blobs)
    ensures Find(s, d).Some? ==> Lookup(blobs, d) == Ok(Find(s, d).value)
  {
    WithoutKeeps(s, d);
    if Find(s, d).Some? {
      var k := FindSome(s, d);
      assert s[k] in s;
    }
  }

  lemma BackedStore(s: seq<Blob>, blobs: map<Digest, Bytes>, capacity: nat, d: Digest, data: Bytes)
    requires Backed(s, blobs) && d in blobs && blobs[d] == data
    ensures Backed(Stored(s, capacity, d, data), blobs)
  {
    WithoutKeeps(s, d);
    var all := [Blob(d, data)] + Without(s, d);
    forall b | b in Stored(s, capacity, d, data) ensures b.digest in blobs && blobs[b.digest] == b.data {
      if b !in s {
        FitWithin(all, capacity, b);
      }
    }
  }

  type Answer = Result<Bytes, CasError>

  /** Position `j` still waits for the warm store, at or after `from` in the fetch list. */
  ghost predicate Queued(toFetch: seq<(nat, Digest)>, from: nat, j: nat) {
    exists m :: from <= m < |toFetch| && toFetch[m].0 == j
  }

  ghost predicate Asked(ds: seq<Digest>, toFetch: seq<(nat, Digest)>) {
    forall k :: 0 <= k < |toFetch| ==> toFetch[k].0 < |ds| && toFetch[k].1 == ds[toFetch[k].0]
  }

  /** The first `n` positions are answered as the warm store would, or queued. */
  ghost predicate Answered(blobs: map<Digest, Bytes>, ds: seq<Digest>, out: seq<Option<Answer>>,
      toFetch: seq<(nat, Digest)>, from: nat, n: nat) {
    |out| == |ds| && forall j: nat :: j < n <= |ds| ==> out[j] == Some(Lookup(blobs, ds[j])) || Queued(toFetch, from, j)
  }

  /** The first pass of a read up to position `n`. */
  ghost predicate Scanned(blobs: map<Digest, Bytes>, ds: seq<Digest>, out: seq<Option<Answer>>,
      toFetch: seq<(nat, Digest)>, n: nat) {
    Asked(ds, toFetch) && Answered(blobs, ds, out, toFetch, 0, n)
  }

  lemma AnswerOne(blobs: map<Digest, Bytes>, ds: seq<Digest>, out: seq<Option<Answer>>, toFetch: seq<(nat, Digest)>,
      i: nat)
    requires i < |ds| && Scanned(blobs, ds, out, toFetch, i)
    ensures |out| == |ds| && Scanned(blobs, ds, out[i := Some(Lookup(blobs, ds[i]))], toFetch, i + 1)
    ensures Scanned(blobs, ds, out, toFetch + [(i, ds[i])], i + 1)
  {
    var more := toFetch + [(i, ds[i])];
    forall j: nat | j <= i && (j == i || Queued(toFetch, 0, j)) ensures Queued(more, 0, j) {
      if j == i {
        assert more[|toFetch|].0 == i;
      } else {
        var m :| 0 <= m < |toFetch| && toFetch[m].0 == j;
        assert more[m].0 == j;
      }
    }
  }

  lemma FetchOne(blobs: map<Digest, Bytes>, ds: seq<Digest>, out: seq<Option<Answer>>, toFetch: seq<(nat, Digest)>,
      k: nat)
    requires Asked(ds, toFetch) && k < |toFetch| && Answered(blobs, ds, out, toFetch, k, |ds|)
    ensures Answered(blobs, ds, out[toFetch[k].0 := Some(Lookup(blobs, toFetch[k].1))], toFetch, k + 1, |ds|)
  {
    forall j: nat | j != toFetch[k].0 && Queued(toFetch, k, j) ensures Queued(toFetch, k + 1, j) {
      var m :| k <= m < |toFetch| && toFetch[m].0 == j;
      assert m != k;
    }
  }

  function Wanted(toFetch: seq<(nat, Digest)>): (ds: seq<Digest>)
    ensures |ds| == |toFetch|
  {
    seq(|toFetch|, k requires 0 <= k < |toFetch| => toFetch[k].1)
  }

  ghost predicate SameHits(s: seq<Blob>, t: seq<Blob>) { forall d :: Find(t, d).None? <==> Find(s, d).None? }

  lemma SameTouched(s: seq<Blob>, t: seq<Blob>, d: Digest)
    requires SameHits(s, t)
    ensures SameHits(s, Touched(t, d))
  {
    forall e ensures Find(Touched(t, d), e).None? <==> Find(s, e).None? {
      FindTouched(t, d, e);
    }
  }

  lemma {:induction false} MissedNext(s: seq<Blob>, ds: seq<Digest>, i: nat, toFetch: seq<(nat, Digest)>)
    requires i < |ds| && Wanted(toFetch) == Missed(s, ds[..i])
    ensures Missed(s, ds[..i + 1]) == Wanted(if Find(s, ds[i]).None? then toFetch + [(i, ds[i])] else toFetch)
  {
    assert ds[..i + 1][..i] == ds[..i];
    assert Wanted(toFetch + [(i, ds[i])]) == Wanted(toFetch) + [ds[i]];
    assert Wanted(toFetch) + [] == Wanted(toFetch);
  }

  /** The first pass of a read that began with `s` hot, up to position `i`. */
  ghost predicate Looked(blobs: map<Digest, Bytes>, s: seq<Blob>, now: seq<Blob>, ds: seq<Digest>,
      out: seq<Option<Answer>>, toFetch: seq<(nat, Digest)>, i: nat) {
    i <= |ds| && Scanned(blobs, ds, out, toFetch, i) && Wanted(toFetch) == Missed(s, ds[..i]) && SameHits(s, now)
  }

  lemma {:induction false} LookOne(blobs: map<Digest, Bytes>, s: seq<Blob>, now: seq<Blob>, ds: seq<Digest>,
      out: seq<Option<Answer>>, toFetch: seq<(nat, Digest)>, i: nat)
    requires i < |ds| && Looked(blobs, s, now, ds, out, toFetch, i)
    ensures |out| == |ds|
    ensures Find(now, ds[i]).Some? ==>
            Looked(blobs, s, Touched(now, ds[i]), ds, out[i := Some(Lookup(blobs, ds[i]))], toFetch, i + 1)
    ensures Find(now, ds[i]).None? ==> Looked(blobs, s, Touched(now, ds[i]), ds, out, toFetch + [(i, ds[i])], i + 1)
  {
    AnswerOne(blobs, ds, out, toFetch, i);
    MissedNext(s, ds, i, toFetch);
    SameTouched(s, now, ds[i]);
  }

  function Flatten(out: seq<Option<Answer>>): seq<Answer>
    requires forall i :: 0 <= i < |out| ==> out[i].Some?
  {
    seq(|out|, i requires 0 <= i < |out| => out[i].value)
  }

  lemma AllAnswered(blobs: map<Digest, Bytes>, ds: seq<Digest>, out: seq<Option<Answer>>, toFetch: seq<(nat, Digest)>)
    requires Answered(blobs, ds, out, toFetch, |toFetch|, |ds|)
    ensures forall i :: 0 <= i < |out| ==> out[i].Some?
    ensures Flatten(out) == Lookups(blobs, ds)
  {
    assert forall j: nat :: j < |ds| ==> !Queued(toFetch, |toFetch|, j);
  }

  // ----- what a batch asks of the hot tier -----

  function Reads(ds: seq<Digest>): seq<Op> { if ds == [] then [] else Reads(ds[..|ds| - 1]) + [Read(ds[|ds| - 1])] }

  /** The digests a batch has to fetch. */
  function Missed(s: seq<Blob>, ds: seq<Digest>): seq<Digest> {
    if ds == [] then [] else Missed(s, ds[..|ds| - 1]) + if Find(s, ds[|ds| - 1]).None? then [ds[|ds| - 1]] else []
  }

  /** What fetching makes hot. */
  function Fills(blobs: map<Digest, Bytes>, ds: seq<Digest>): seq<Op> {
    if ds == [] then []
    else
      var d := ds[|ds| - 1];
      Fills(blobs, ds[..|ds| - 1]) + if d in blobs then [Write(Blob(d, blobs[d]))] else []
  }

  /** What a write makes hot: the blobs that verify. */
  function Puts(hash: Hash, batch: seq<(Digest, Bytes)>): seq<Op> {
    if batch == [] then []
    else
      var (d, data) := batch[|batch| - 1];
      Puts(hash, batch[..|batch| - 1]) + if d == DigestOf(hash, data) then [Write(Blob(d, data))] else []
  }

  lemma ReadsNext(start: seq<Op>, ds: seq<Digest>, i: nat)
    requires i < |ds|
    ensures start + Reads(ds[..i + 1]) == (start + Reads(ds[..i])) + [Read(ds[i])]
  {
    assert ds[..i + 1][..i] == ds[..i];
  }

  lemma {:induction false} FillsNext(start: seq<Op>, blobs: map<Digest, Bytes>, ds: seq<Digest>, k: nat)
    requires k < |ds|
    ensures start + Fills(blobs, ds[..k + 1]) ==
            if ds[k] in blobs then (start + Fills(blobs, ds[..k])) + [Write(Blob(ds[k], blobs[ds[k]]))]
                else start + Fills(blobs, ds[..k])
  {
    assert ds[..k + 1][..k] == ds[..k];
  }

  lemma PutsNext(start: seq<Op>, hash: Hash, batch: seq<(Digest, Bytes)>, i: nat)
    requires i < |batch|
    ensures start + Puts(hash, batch[..i + 1]) ==
            if batch[i].0 == DigestOf(hash, batch[i].1) then
                (start + Puts(hash, batch[..i])) + [Write(Blob(batch[i].0, batch[i].1))]
            else start + Puts(hash, batch[..i])
  {
    assert batch[..i + 1][..i] == batch[..i];
  }

  lemma {:induction false} CachedNext(ops: seq<Op>, capacity: nat, op: Op)
    ensures Cached(ops + [op], capacity) == CacheStep(Cached(ops, capacity), capacity, op)
  {
    assert (ops + [op])[..|ops|] == ops;
  }

  /** Only verified blobs are ever made hot. */
  ghost predicate Verified(hash: Hash, ops: seq<Op>) {
    forall i :: 0 <= i < |ops| && ops[i].Write? ==> ops[i].b.digest == DigestOf(hash, ops[i].b.data)
  }

  /** The blob a digest names. */
  ghost function Named(hash: Hash, d: Digest): Bytes {
    if data: Bytes :| d == DigestOf(hash, data) then data else []
  }

  /** The hot tier of any run of reads and writes: the longest prefix, within
      the budget, of the order in which blobs were last used. */
  lemma {:induction false} HotIsWindow(hash: Hash, ops: seq<Op>, capacity: nat)
    requires Injective(hash) && Verified(hash, ops)
    ensures Cached(ops, capacity) == Fit(Stack(ops, capacity), capacity)
  {
    var content := d => Named(hash, d);
    forall i | 0 <= i < |ops| && ops[i].Write? ensures ops[i].b.data == content(ops[i].b.digest) {
      assert ops[i].b.digest == DigestOf(hash, ops[i].b.data);
    }
    RunIsWindow(ops, capacity, content);
  }

  /** Moving a blob to the front changes no lookup. */
  lemma {:induction false} FindTouched(s: seq<Blob>, e: Digest, d: Digest)
    ensures Find(Touched(s, e), d).None? <==> Find(s, d).None?
  {
    if Find(s, e).Some? {
      FindWithout(s, e, d);
      var t := [Blob(e, Find(s, e).value)] + Without(s, e);
      assert t[1..] == Without(s, e);
    }
  }

  lemma {:induction false} FindWithout(s: seq<Blob>, e: Digest, d: Digest)
    ensures Find(Without(s, e), d) == if d == e then None else Find(s, d)
  {
    if s != [] {
      FindWithout(s[1..], e, d);
      if s[0].digest != e {
        var t := [s[0]] + Without(s[1..], e);
        assert t[1..] == Without(s[1..], e);
      } else {
        assert [] + Without(s[1..], e) == Without(s[1..], e);
      }
    }
  }

  class TieredCas {
    const warm: Store
    const hot: HotTier
    /** Every use of the hot tier so far. */
    ghost var used: seq<Op>

    ghost predicate Valid()
      reads this, warm, hot
    {
      && warm.Valid() && hot.Valid() && Injective(warm.hash)
      && Backed(hot.Contents(), warm.blobs)
      && hot.Contents() == Cached(used, hot.capacity) && Verified(warm.hash, used)
      && forall d :: d in warm.blobs ==> |warm.blobs[d]| + hot.capacity <= USIZE_MAX
    }

    constructor (warm: Store, capacity: nat)
      requires warm.Valid() && Injective(warm.hash) && capacity <= USIZE_MAX
      requires forall d :: d in warm.blobs ==> |warm.blobs[d]| + capacity <= USIZE_MAX
      ensures Valid() && this.warm == warm && fresh(hot) && hot.capacity == capacity && used == []
    {
      this.warm, used := warm, [];
      hot := new HotTier(capacity);
    }

    method FindMissing(ds: seq<Digest>) returns (r: Result<seq<Digest>, CasError>)
      ensures r == if warm.up then Ok(Missing(warm.blobs, ds)) else Err(Unavailable)
    {
      r := warm.FindMissing(ds);
    }

    method HotGet(d: Digest) returns (r: Option<Bytes>)
      requires Valid()
      modifies this`used, hot
      ensures Valid() && used == old(used) + [Read(d)] && hot.Contents() == Touched(old(hot.Contents()), d)
      ensures r == Find(old(hot.Contents()), d) && (r.Some? ==> Lookup(warm.blobs, d) == Ok(r.value))
    {
      BackedTouch(hot.Contents(), warm.blobs, d);
      CachedNext(used, hot.capacity, Read(d));
      r := hot.Get(d);
      used := used + [Read(d)];
    }

    method HotPut(d: Digest, data: Bytes)
      requires Valid() && Lookup(warm.blobs, d) == Ok(data)
      modifies this`used, hot
      ensures Valid() && used == old(used) + [Write(Blob(d, data))]
    {
      BackedStore(hot.Contents(), warm.blobs, hot.capacity, d, data);
      CachedNext(used, hot.capacity, Write(Blob(d, data)));
      hot.Put(d, data);
      used := used + [Write(Blob(d, data))];
    }

    /** Makes a blob the warm store gave hot. */
    method Fill(d: Digest, answer: Answer)
      requires Valid() && answer == Lookup(warm.blobs, d)
      modifies this`used, hot
      ensures Valid() && used == old(used) + if d in warm.blobs then [Write(Blob(d, warm.blobs[d]))] else []
    {
      if answer.Ok? {
        HotPut(d, answer.value);
      }
    }

    /** First pass of a read: serve what is hot and note what is not. */
    method ReadHot(ds: seq<Digest>) returns (out: seq<Option<Answer>>, toFetch: seq<(nat, Digest)>)
      requires Valid()
      modifies this`used, hot
      ensures Valid() && Scanned(warm.blobs, ds, out, toFetch, |ds|)
      ensures used == old(used) + Reads(ds) && Wanted(toFetch) == Missed(old(hot.Contents()), ds)
    {
      out, toFetch := seq(|ds|, _ => None), [];
      ghost var s := hot.Contents();
      for i := 0 to |ds|
        invariant Valid() && used == old(used) + Reads(ds[..i])
        invariant Looked(warm.blobs, s, hot.Contents(), ds, out, toFetch, i)
      {
        ReadsNext(old(used), ds, i);
        out, toFetch := LookUp(ds, i, out, toFetch, s);
      }
      assert ds[..|ds|] == ds;
    }

    method LookUp(ds: seq<Digest>, i: nat, before: seq<Option<Answer>>, queue: seq<(nat, Digest)>, ghost s: seq<Blob>)
        returns (out: seq<Option<Answer>>, toFetch: seq<(nat, Digest)>)
      requires Valid() && i < |ds| && Looked(warm.blobs, s, hot.Contents(), ds, before, queue, i)
      modifies this`used, hot
      ensures Valid() && used == old(used) + [Read(ds[i])] &&
              Looked(warm.blobs, s, hot.Contents(), ds, out, toFetch, i + 1)
    {
      LookOne(warm.blobs, s, hot.Contents(), ds, before, queue, i);
      out, toFetch := before, queue;
      var hit := HotGet(ds[i]);
      if hit.Some? {
        out := out[i := Some(Ok(hit.value))];
      } else {
        toFetch := toFetch + [(i, ds[i])];
      }
    }

    /** A read through the tiers answers exactly what the warm store would. */
    method BatchRead(ds: seq<Digest>) returns (r: Result<seq<Answer>, CasError>)
      requires Valid()
      modifies this`used, hot
      ensures Valid()
      ensures r == if warm.up || Missed(old(hot.Contents()), ds) == [] then Ok(Lookups(warm.blobs, ds))
              else Err(Unavailable)
      ensures used == old(used) + Reads(ds) + if warm.up then Fills(warm.blobs, Missed(old(hot.Contents()), ds)) else []
    {
      var out, toFetch := ReadHot(ds);
      if toFetch == [] {
        AllAnswered(warm.blobs, ds, out, toFetch);
        return Ok(Flatten(out));
      }
      var fetched := warm.BatchRead(Wanted(toFetch));
      if fetched.Err? {
        return Err(fetched.error);
      }
      out := Fetch(ds, out, toFetch, fetched.value);
      AllAnswered(warm.blobs, ds, out, toFetch);
      return Ok(Flatten(out));
    }

    /** Second pass of a read: fill in what was fetched, and make it hot. */
    method Fetch(ds: seq<Digest>, asked: seq<Option<Answer>>, toFetch: seq<(nat, Digest)>, fetched: seq<Answer>)
        returns (out: seq<Option<Answer>>)
      requires Valid() && Scanned(warm.blobs, ds, asked, toFetch, |ds|) &&
               fetched == Lookups(warm.blobs, Wanted(toFetch))
      modifies this`used, hot
      ensures Valid() && Answered(warm.blobs, ds, out, toFetch, |toFetch|, |ds|)
      ensures used == old(used) + Fills(warm.blobs, Wanted(toFetch))
    {
      out := asked;
      for k := 0 to |toFetch|
        invariant Valid() && Answered(warm.blobs, ds, out, toFetch, k, |ds|)
        invariant used == old(used) + Fills(warm.blobs, Wanted(toFetch)[..k])
      {
        var (i, d) := toFetch[k];
        FetchOne(warm.blobs, ds, out, toFetch, k);
        FillsNext(old(used), warm.blobs, Wanted(toFetch), k);
        Fill(d, fetched[k]);
        out := out[i := Some(fetched[k])];
      }
      assert Wanted(toFetch)[..|toFetch|] == Wanted(toFetch);
    }

    /** Makes the blobs a write stored hot. */
    method Populate(batch: seq<(Digest, Bytes)>, results: seq<UpdateResult>)
      requires Valid() && |results| == |batch|
      requires forall i :: 0 <= i < |batch| && results[i].ok ==> Lookup(warm.blobs, batch[i].0) == Ok(batch[i].1)
      requires results == Statuses(warm.hash, batch)
      modifies this`used, hot
      ensures Valid() && used == old(used) + Puts(warm.hash, batch)
    {
      for i := 0 to |batch|
        invariant Valid() && used == old(used) + Puts(warm.hash, batch[..i])
      {
        PutsNext(old(used), warm.hash, batch, i);
        if results[i].ok {
          HotPut(batch[i].0, batch[i].1);
        }
      }
      assert batch[..|batch|] == batch;
    }

    /** A write through the tiers changes the warm store exactly as a plain write would. */
    method BatchUpdate(batch: seq<(Digest, Bytes)>) returns (r: Result<seq<UpdateResult>, CasError>)
      requires Valid() && forall i :: 0 <= i < |batch| ==> |batch[i].1| + hot.capacity <= USIZE_MAX
      modifies this`used, warm`blobs, hot
      ensures Valid() && used == old(used) + if warm.up then Puts(warm.hash, batch) else []
      ensures r == if warm.up then Ok(Statuses(warm.hash, batch)) else Err(Unavailable)
      ensures warm.blobs == if warm.up then Written(warm.hash, old(warm.blobs), batch) else old(warm.blobs)
    {
      r := warm.BatchUpdate(batch);
      if r.Ok? {
        StaysBacked(warm.hash, old(warm.blobs), batch, hot.Contents());
        StaysAddressable(warm.hash, old(warm.blobs), batch, USIZE_MAX - hot.capacity);
        WrittenAll(warm.hash, old(warm.blobs), batch);
        Populate(batch, r.value);
      }
    }
  }

  lemma {:induction false} WrittenAll(hash: Hash, blobs: map<Digest, Bytes>, batch: seq<(Digest, Bytes)>)
    requires Injective(hash) && Authentic(hash, blobs)
    ensures forall i :: 0 <= i < |batch| && Statuses(hash, batch)[i].ok ==>
              Lookup(Written(hash, blobs, batch), batch[i].0) == Ok(batch[i].1)
  {
    WrittenKeys(hash, blobs, batch);
    forall i | 0 <= i < |batch| && Statuses(hash, batch)[i].ok
      ensures Lookup(Written(hash, blobs, batch), batch[i].0) == Ok(batch[i].1)
    {
      assert batch[i].0 in (set j | 0 <= j < |batch| && Statuses(hash, batch)[j].ok :: batch[j].0);
      OneBlob(hash, Written(hash, blobs, batch), batch[i].0, batch[i].1);
    }
  }

  lemma {:induction false} StaysBacked(hash: Hash, blobs: map<Digest, Bytes>, batch: seq<(Digest, Bytes)>, s: seq<Blob>)
    requires Injective(hash) && Authentic(hash, blobs) && Backed(s, blobs)
    ensures Backed(s, Written(hash, blobs, batch))
  {
    WrittenKeys(hash, blobs, batch);
    forall b | b in s ensures b.digest in Written(hash, blobs, batch) &&
        Written(hash, blobs, batch)[b.digest] == b.data {
      OneBlob(hash, Written(hash, blobs, batch), b.digest, b.data);
    }
  }

  lemma {:induction false} StaysAddressable(hash: Hash, blobs: map<Digest, Bytes>, batch: seq<(Digest, Bytes)>,
      limit: nat)
    requires forall d :: d in blobs ==> |blobs[d]| <= limit
    requires forall i :: 0 <= i < |batch| ==> |batch[i].1| <= limit
    ensures forall d :: d in Written(hash, blobs, batch) ==> |Written(hash, blobs, batch)[d]| <= limit
  {
    if batch != [] {
      StaysAddressable(hash, blobs, batch[..|batch| - 1], limit);
    }
  }
}

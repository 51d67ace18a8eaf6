/** The content-addressed store interface (crates/brokkr-cas/src/traits.rs) and its
    in-memory backend (crates/brokkr-cas/src/in_memory.rs). The hash is a parameter. */
module Cas {
  import opened Common

  type Hash = Bytes -> Bytes

  datatype Digest = Digest(hash: Bytes, size: nat)

  datatype CasError = NotFound(digest: Digest) | Unavailable

  datatype UpdateResult = UpdateResult(digest: Digest, ok: bool)

  function DigestOf(hash: Hash, data: Bytes): Digest { Digest(hash(data), |data|) }

  ghost predicate Injective(hash: Hash) {
    forall a, b :: hash(a) == hash(b) ==> a == b
  }

  /** Every stored blob matches its digest. */
  ghost predicate Authentic(hash: Hash, blobs: map<Digest, Bytes>) {
    forall d :: d in blobs ==> d == DigestOf(hash, blobs[d])
  }

  function Lookup(blobs: map<Digest, Bytes>, d: Digest): Result<Bytes, CasError> {
    if d in blobs then Ok(blobs[d]) else Err(NotFound(d))
  }

  function Lookups(blobs: map<Digest, Bytes>, ds: seq<Digest>): seq<Result<Bytes, CasError>> {
    seq(|ds|, i requires 0 <= i < |ds| => Lookup(blobs, ds[i]))
  }

  function Missing(blobs: map<Digest, Bytes>, ds: seq<Digest>): seq<Digest> {
    if ds == [] then []
    else Missing(blobs, ds[..|ds| - 1]) + (if ds[|ds| - 1] in blobs then [] else [ds[|ds| - 1]])
  }

  lemma {:induction false} MissingNext(blobs: map<Digest, Bytes>, ds: seq<Digest>, d: Digest)
    ensures Missing(blobs, ds + [d]) == Missing(blobs, ds) + (if d in blobs then [] else [d])
  {
    assert (ds + [d])[..|ds|] == ds;
  }

  function Statuses(hash: Hash, batch: seq<(Digest, Bytes)>): seq<UpdateResult> {
    seq(|batch|, i requires 0 <= i < |batch| => UpdateResult(batch[i].0, batch[i].0 == DigestOf(hash, batch[i].1)))
  }

  /** The blobs after a batch: entries that do not match their digest are left out. */
  function Written(hash: Hash, blobs: map<Digest, Bytes>, batch: seq<(Digest, Bytes)>): map<Digest, Bytes> {
    if batch == [] then blobs
    else
      var before := Written(hash, blobs, batch[..|batch| - 1]);
      var (d, data) := batch[|batch| - 1];
      if d == DigestOf(hash, data) then before[d := data] else before
  }

  /** A batch adds exactly the digests it reports stored, and only authentic blobs. */
  lemma {:induction false} WrittenKeys(hash: Hash, blobs: map<Digest, Bytes>, batch: seq<(Digest, Bytes)>)
    requires Authentic(hash, blobs)
    ensures Authentic(hash, Written(hash, blobs, batch))
    ensures Written(hash, blobs, batch).Keys ==
            blobs.Keys + set i | 0 <= i < |batch| && Statuses(hash, batch)[i].ok :: batch[i].0
  {
    if batch != [] {
      var init, n := batch[..|batch| - 1], |batch| - 1;
      WrittenKeys(hash, blobs, init);
      var was := set i | 0 <= i < |init| && Statuses(hash, init)[i].ok :: init[i].0;
      var now := set i | 0 <= i < |batch| && Statuses(hash, batch)[i].ok :: batch[i].0;
      assert forall i :: 0 <= i < n ==> Statuses(hash, init)[i] == Statuses(hash, batch)[i] && init[i] == batch[i];
      assert now == was + (if Statuses(hash, batch)[n].ok then {batch[n].0} else {});
    }
  }

  lemma {:induction false} MissingIs(blobs: map<Digest, Bytes>, ds: seq<Digest>, d: Digest)
    ensures d in Missing(blobs, ds) <==> d in ds && d !in blobs
  {
    if ds != [] {
      MissingIs(blobs, ds[..|ds| - 1], d);
      assert ds == ds[..|ds| - 1] + [ds[|ds| - 1]];
    }
  }

  /** Uploading what was reported missing leaves nothing missing. */
  lemma {:induction false} NothingMissingAfter(hash: Hash, blobs: map<Digest, Bytes>, ds: seq<Digest>,
      batch: seq<(Digest, Bytes)>)
    requires Authentic(hash, blobs)
    requires forall d :: d in Missing(blobs, ds) ==> exists i ::
               0 <= i < |batch| && batch[i].0 == d == DigestOf(hash, batch[i].1)
    ensures Missing(Written(hash, blobs, batch), ds) == []
  {
    WrittenKeys(hash, blobs, batch);
    var after := Written(hash, blobs, batch);
    FirstIn(Missing(after, ds));
    forall d | d in ds ensures d in after {
      MissingIs(blobs, ds, d);
      if d !in blobs {
        var i :| 0 <= i < |batch| && batch[i].0 == d == DigestOf(hash, batch[i].1);
        assert Statuses(hash, batch)[i].ok;
        assert d in (set j | 0 <= j < |batch| && Statuses(hash, batch)[j].ok :: batch[j].0);
      }
    }
    forall d ensures d !in Missing(after, ds) {
      MissingIs(after, ds, d);
    }
  }

  lemma FirstIn(ds: seq<Digest>)
    ensures ds != [] ==> ds[0] in ds
  {
  }

  /** With an injective hash a digest names one blob. */
  lemma OneBlob(hash: Hash, blobs: map<Digest, Bytes>, d: Digest, data: Bytes)
    requires Injective(hash) && Authentic(hash, blobs) && d in blobs && d == DigestOf(hash, data)
    ensures blobs[d] == data
  {
  }

  class Store {
    const hash: Hash
    /** Whether calls get through; an unreachable store refuses every call. */
    var up: bool
    var blobs: map<Digest, Bytes>

    ghost predicate Valid()
      reads this
    {
      Authentic(hash, blobs)
    }

    constructor (hash: Hash)
      ensures Valid() && up && blobs == map[] && this.hash == hash
    {
      this.hash := hash;
      up := true;
      blobs := map[];
    }

    method FindMissing(ds: seq<Digest>) returns (r: Result<seq<Digest>, CasError>)
      ensures r == if up then Ok(Missing(blobs, ds)) else Err(Unavailable)
    {
      if !up {
        return Err(Unavailable);
      }
      var out := [];
      for i := 0 to |ds|
        invariant out == Missing(blobs, ds[..i])
      {
        assert ds[..i + 1][..i] == ds[..i];
        if ds[i] !in blobs {
          out := out + [ds[i]];
        }
      }
      assert ds[..|ds|] == ds;
      return Ok(out);
    }

    method BatchRead(ds: seq<Digest>) returns (r: Result<seq<Result<Bytes, CasError>>, CasError>)
      ensures r == if up then Ok(Lookups(blobs, ds)) else Err(Unavailable)
    {
      if !up {
        return Err(Unavailable);
      }
      var out := [];
      for i := 0 to |ds|
        invariant out == Lookups(blobs, ds)[..i]
      {
        out := out + [Lookup(blobs, ds[i])];
      }
      assert Lookups(blobs, ds)[..|ds|] == Lookups(blobs, ds);
      return Ok(out);
    }

    method BatchUpdate(batch: seq<(Digest, Bytes)>) returns (r: Result<seq<UpdateResult>, CasError>)
      requires Valid()
      modifies this`blobs
      ensures Valid()
      ensures r == if up then Ok(Statuses(hash, batch)) else Err(Unavailable)
      ensures blobs == if up then Written(hash, old(blobs), batch) else old(blobs)
    {
      if !up {
        return Err(Unavailable);
      }
      var out := [];
      for i := 0 to |batch|
        invariant out == Statuses(hash, batch)[..i]
        invariant blobs == Written(hash, old(blobs), batch[..i])
      {
        var (d, data) := batch[i];
        var ok := d == DigestOf(hash, data);
        if ok {
          blobs := blobs[d := data];
        }
        out := out + [UpdateResult(d, ok)];
        assert batch[..i + 1][..i] == batch[..i];
      }
      assert batch[..|batch|] == batch;
      assert Statuses(hash, batch)[..|batch|] == Statuses(hash, batch);
      WrittenKeys(hash, old(blobs), batch);
      return Ok(out);
    }

    /** Every digest held, once each, in no particular order. */
    method ListDigests() returns (r: Result<seq<Digest>, CasError>)
      ensures r.Ok? <==> up
      ensures r.Ok? ==> (forall d :: d in r.value <==> d in blobs) && forall i, j :: 0 <= i < j < |r.value| ==>
              r.value[i] != r.value[j]
    {
      if !up {
        return Err(Unavailable);
      }
      var out := [];
      var rest := blobs.Keys;
      while rest != {}
        invariant rest <= blobs.Keys && (forall d :: d in out <==> d in blobs && d !in rest)
        invariant forall i, j :: 0 <= i < j < |out| ==> out[i] != out[j]
        decreases |rest|
      {
        var d :| d in rest;
        out := out + [d];
        rest := rest - {d};
      }
      return Ok(out);
    }

    /** Removing an absent blob is not an error. */
    method DeleteBlob(d: Digest) returns (ok: bool)
      modifies this`blobs
      ensures ok == up && blobs == if up then old(blobs) - {d} else old(blobs)
    {
      ok := up;
      if up {
        blobs := blobs - {d};
      }
    }
  }
}

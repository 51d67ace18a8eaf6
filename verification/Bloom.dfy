/** The bloom filter over digests (crates/brokkr-cas/src/bloom.rs) and the store
    decorator that consults it (crates/brokkr-cas/src/bloom_cas.rs). */
module BloomFilter {
  import opened Common
  import opened Cas

  const WORD: nat := 0x1_0000_0000_0000_0000

  /** A 64-bit word as the set of its one bits. */
  type Word = set<nat>

  predicate IsSet(bits: seq<Word>, bit: nat)
    requires bit < 64 * |bits|
  {
    bit % 64 in bits[bit / 64]
  }

  /** Setting one bit sets that bit and no other. */
  lemma AfterSet(bits: seq<Word>, b: nat, c: nat)
    requires b < 64 * |bits| && c < 64 * |bits|
    ensures IsSet(bits[b / 64 := bits[b / 64] + {b % 64}], c) <==> IsSet(bits, c) || c == b
  {
  }

  class Bloom {
    const bits: array<Word>
    const k: nat
    /** The two 64-bit halves a digest is hashed by. */
    const h1: Digest -> nat
    const h2: Digest -> nat
    var items: nat
    /** What was inserted since the filter was last empty. */
    ghost var inserted: set<Digest>

    function BitIndex(d: Digest, i: nat): (bit: nat)
      requires bits.Length > 0
      ensures bit < 64 * bits.Length
    {
      (h1(d) + (i * h2(d)) % WORD) % WORD % (64 * bits.Length)
    }

    ghost predicate Marks(d: Digest, n: nat, bit: nat)
      requires bits.Length > 0
    {
      exists i: nat :: i < n && BitIndex(d, i) == bit
    }

    /** Some digest of `ds` marks `bit`. */
    ghost predicate Covered(ds: set<Digest>, bit: nat)
      requires bits.Length > 0
    {
      exists d :: d in ds && Marks(d, k, bit)
    }

    /** The bits set are exactly the bits of the inserted digests. */
    ghost predicate Valid()
      reads this, bits
    {
      && bits.Length > 0 && k > 0
      && forall bit: nat :: bit < 64 * bits.Length ==> (IsSet(bits[..], bit) <==> Covered(inserted, bit))
    }

    constructor (words: nat, k: nat, h1: Digest -> nat, h2: Digest -> nat)
      requires words > 0 && k > 0
      ensures Valid() && inserted == {} && fresh(bits)
    {
      bits := new Word[words](_ => {});
      this.k, this.h1, this.h2 := k, h1, h2;
      items, inserted := 0, {};
    }

    method Insert(d: Digest)
      requires Valid()
      modifies this, bits
      ensures Valid() && inserted == old(inserted) + {d}
    {
      for i := 0 to k
        invariant inserted == old(inserted)
        invariant forall bit: nat :: bit < 64 * bits.Length ==>
          (IsSet(bits[..], bit) <==> IsSet(old(bits[..]), bit) || Marks(d, i, bit))
      {
        var bit := BitIndex(d, i);
        ghost var was := bits[..];
        bits[bit / 64] := bits[bit / 64] + {bit % 64};
        assert bits[..] == was[bit / 64 := was[bit / 64] + {bit % 64}];
        forall c: nat | c < 64 * bits.Length
          ensures IsSet(bits[..], c) <==> IsSet(old(bits[..]), c) || Marks(d, i + 1, c)
        {
          AfterSet(was, bit, c);
        }
      }
      items := Min(items + 1, U64_MAX);
      inserted := inserted + {d};
      forall bit: nat | bit < 64 * bits.Length
        ensures Covered(inserted, bit) <==> Covered(old(inserted), bit) || Marks(d, k, bit)
      {
      }
    }

    /** Every bit of `d` is a bit of some inserted digest. */
    ghost predicate Passes(d: Digest)
      requires bits.Length > 0
      reads this
    {
      forall i: nat :: i < k ==> Covered(inserted, BitIndex(d, i))
    }

    /** No false negatives; a false positive only when other digests cover every bit. */
    method Contains(d: Digest) returns (r: bool)
      requires Valid()
      ensures d in inserted ==> r
      ensures r <==> Passes(d)
    {
      for i := 0 to k
        invariant forall j: nat :: j < i ==> IsSet(bits[..], BitIndex(d, j))
      {
        var bit := BitIndex(d, i);
        if bit % 64 !in bits[bit / 64] {
          assert !IsSet(bits[..], bit);
          assert Marks(d, k, bit);
          return false;
        }
        assert IsSet(bits[..], bit);
      }
      return true;
    }

    method Clear()
      requires Valid()
      modifies this, bits
      ensures Valid() && inserted == {}
    {
      for w := 0 to bits.Length
        invariant forall j :: 0 <= j < w ==> bits[j] == {}
      {
        bits[w] := {};
      }
      items, inserted := 0, {};
    }
  }

  /** Splits a batch into the digests in `s` and the others, in order. */
  function Within(ds: seq<Digest>, s: set<Digest>): seq<Digest> {
    if ds == [] then [] else Within(ds[..|ds| - 1], s) + if ds[|ds| - 1] in s then [ds[|ds| - 1]] else []
  }

  function Outside(ds: seq<Digest>, s: set<Digest>): seq<Digest> {
    if ds == [] then [] else Outside(ds[..|ds| - 1], s) + if ds[|ds| - 1] in s then [] else [ds[|ds| - 1]]
  }

  /** If nothing outside `s` is stored, only the digests in `s` need asking about. */
  lemma {:induction false} SplitMissing(blobs: map<Digest, Bytes>, ds: seq<Digest>, s: set<Digest>)
    requires forall d :: d in ds && d !in s ==> d !in blobs
    ensures multiset(Missing(blobs, ds)) == multiset(Outside(ds, s)) + multiset(Missing(blobs, Within(ds, s)))
  {
    if ds != [] {
      var rest, d := ds[..|ds| - 1], ds[|ds| - 1];
      SplitMissing(blobs, rest, s);
      BothGrow(Missing(blobs, rest), Outside(rest, s), Missing(blobs, Within(rest, s)), if d in blobs then [] else [d]);
      MissingLast(blobs, ds);
      SplitLast(ds, s);
      MissingNext(blobs, Within(rest, s), d);
    }
  }

  lemma BothGrow(all: seq<Digest>, a: seq<Digest>, b: seq<Digest>, x: seq<Digest>)
    requires multiset(all) == multiset(a) + multiset(b)
    ensures multiset(all + x) == multiset(a + x) + multiset(b) && multiset(all + x) == multiset(a) + multiset(b + x)
  {
  }

  lemma {:induction false} MissingLast(blobs: map<Digest, Bytes>, ds: seq<Digest>)
    requires ds != []
    ensures Missing(blobs, ds) ==
            Missing(blobs, ds[..|ds| - 1]) + (if ds[|ds| - 1] in blobs then [] else [ds[|ds| - 1]])
  {
    assert ds == ds[..|ds| - 1] + [ds[|ds| - 1]];
    MissingNext(blobs, ds[..|ds| - 1], ds[|ds| - 1]);
  }

  lemma {:induction false} SplitLast(ds: seq<Digest>, s: set<Digest>)
    requires ds != []
    ensures ds[|ds| - 1] in s ==>
            Within(ds, s) == Within(ds[..|ds| - 1], s) + [ds[|ds| - 1]] && Outside(ds, s) == Outside(ds[..|ds| - 1], s)
    ensures ds[|ds| - 1] !in s ==>
            Within(ds, s) == Within(ds[..|ds| - 1], s) && Outside(ds, s) == Outside(ds[..|ds| - 1], s) + [ds[|ds| - 1]]
  {
    assert Within(ds[..|ds| - 1], s) + [] == Within(ds[..|ds| - 1], s) &&
           Outside(ds[..|ds| - 1], s) + [] == Outside(ds[..|ds| - 1], s);
  }

  lemma {:induction false} WithinNone(ds: seq<Digest>, s: set<Digest>)
    ensures Within(ds, s) == [] <==> forall i :: 0 <= i < |ds| ==> ds[i] !in s
  {
    if ds != [] {
      WithinNone(ds[..|ds| - 1], s);
      SplitLast(ds, s);
    }
  }

  /** A store behind a bloom filter. */
  class BloomCas {
    const inner: Store
    const bloom: Bloom

    /** The filter was told of everything the store holds. */
    ghost predicate Valid()
      reads this, inner, bloom, bloom.bits
    {
      inner.Valid() && bloom.Valid() && inner.blobs.Keys <= bloom.inserted
    }

    constructor (inner: Store, bloom: Bloom)
      requires inner.Valid() && bloom.Valid()
      ensures this.inner == inner && this.bloom == bloom && (inner.blobs.Keys <= bloom.inserted ==> Valid())
    {
      this.inner, this.bloom := inner, bloom;
    }

    /** Re-seeds the filter, whatever it held: it covers the store exactly when
        the digests given do. */
    method RebuildFrom(ds: seq<Digest>)
      requires inner.Valid() && bloom.Valid()
      modifies bloom, bloom.bits
      ensures bloom.Valid() && bloom.inserted == set d | d in ds
      ensures Valid() <==> forall d :: d in inner.blobs ==> d in ds
    {
      bloom.Clear();
      for i := 0 to |ds|
        invariant bloom.Valid() && bloom.inserted == set d | d in ds[..i]
      {
        bloom.Insert(ds[i]);
        assert ds[..i + 1] == ds[..i] + [ds[i]];
      }
      assert ds[..|ds|] == ds;
    }

    /** The filter answers for what it rules out, the store for the rest: the
        same digests are missing as the store alone would report. */
    method FindMissing(ds: seq<Digest>) returns (r: Result<seq<Digest>, CasError>)
      requires Valid()
      ensures r.Ok? ==> multiset(r.value) == multiset(Missing(inner.blobs, ds))
      ensures r.Err? <==> !inner.up && exists i :: 0 <= i < |ds| && bloom.Passes(ds[i])
      ensures r.Err? ==> r.error == Unavailable
    {
      ghost var passed := set d | d in ds && bloom.Passes(d);
      var definitelyMissing, maybePresent := Partition(ds, passed);
      SplitMissing(inner.blobs, ds, passed);
      WithinNone(ds, passed);
      if maybePresent == [] {
        return Ok(definitelyMissing);
      }
      var confirmed := inner.FindMissing(maybePresent);
      if confirmed.Err? {
        return confirmed;
      }
      return Ok(definitelyMissing + confirmed.value);
    }

    /** What the filter rules out, and what it may have seen. */
    method Partition(ds: seq<Digest>, ghost passed: set<Digest>)
        returns (definitelyMissing: seq<Digest>, maybePresent: seq<Digest>)
      requires Valid() && passed == set d | d in ds && bloom.Passes(d)
      ensures definitelyMissing == Outside(ds, passed) && maybePresent == Within(ds, passed)
      ensures forall d :: d in ds && d !in passed ==> d !in inner.blobs
    {
      definitelyMissing, maybePresent := [], [];
      for i := 0 to |ds|
        invariant definitelyMissing == Outside(ds[..i], passed) && maybePresent == Within(ds[..i], passed)
        invariant forall k :: 0 <= k < i && ds[k] !in passed ==> ds[k] !in inner.blobs
      {
        var maybe := bloom.Contains(ds[i]);
        assert ds[..i + 1][..i] == ds[..i];
        if maybe {
          maybePresent := maybePresent + [ds[i]];
        } else {
          definitelyMissing := definitelyMissing + [ds[i]];
        }
      }
      assert ds[..|ds|] == ds;
    }

    method BatchUpdate(batch: seq<(Digest, Bytes)>) returns (r: Result<seq<UpdateResult>, CasError>)
      requires Valid()
      modifies inner`blobs, bloom, bloom.bits
      ensures Valid()
      ensures r == if inner.up then Ok(Statuses(inner.hash, batch)) else Err(Unavailable)
      ensures inner.blobs == if inner.up then Written(inner.hash, old(inner.blobs), batch) else old(inner.blobs)
    {
      WrittenKeys(inner.hash, inner.blobs, batch);
      r := inner.BatchUpdate(batch);
      if r.Ok? {
        Note(r.value);
      }
    }

    /** Tells the filter of every blob reported stored. */
    method Note(results: seq<UpdateResult>)
      requires bloom.Valid()
      modifies bloom, bloom.bits
      ensures bloom.Valid()
      ensures bloom.inserted == old(bloom.inserted) + set i | 0 <= i < |results| && results[i].ok :: results[i].digest
    {
      for n := 0 to |results|
        invariant bloom.Valid()
        invariant bloom.inserted == old(bloom.inserted) + set i | 0 <= i < n && results[i].ok :: results[i].digest
      {
        if results[n].ok {
          bloom.Insert(results[n].digest);
        }
      }
    }
  }
}

/** The replicated key-value machine and its snapshot codec
    (crates/brokkr-control/src/raftkv.rs). */
module KvMachine {
  import opened Common
  import opened Order
  import opened RaftCluster

  const KV_OP_PUT: nat := 1
  const KV_OP_DELETE: nat := 2

  datatype KvCommand = KvCommand(op: nat, key: Bytes, value: Bytes)

  /** How a command payload is decoded; a parameter of the model. */
  type Decoder = Bytes -> Option<KvCommand>

  type Kv = map<Bytes, Bytes>

  const LIMIT: nat := 0x1_0000_0000

  // ----- the wire format -----

  /** `n as u32`, in little-endian bytes. */
  function Le32(n: nat): (b: Bytes)
    ensures |b| == 4
  {
    [n % 256, n / 256 % 256, n / 256 / 256 % 256, n / 256 / 256 / 256 % 256]
  }

  function FromLe32(b: Bytes): (n: nat)
    requires |b| >= 4
    ensures n < LIMIT
  {
    var b0: int, b1: int, b2: int, b3: int := b[0], b[1], b[2], b[3];
    b0 + 256 * (b1 + 256 * (b2 + 256 * b3))
  }

  lemma {:induction false} Le32RoundTrip(n: nat, rest: Bytes)
    requires n < LIMIT
    ensures FromLe32(Le32(n) + rest) == n
  {
    var q := n / 256;
    var r := q / 256;
    assert n == 256 * q + n % 256 && q == 256 * r + q % 256 && r == 256 * (r / 256) + r % 256;
    assert r / 256 < 256;
  }

  function Chunk(data: Bytes): Bytes { Le32(|data|) + data }

  /** One length-prefixed chunk and what follows it. */
  function TakeChunk(b: Bytes): Option<(Bytes, Bytes)> {
    if |b| < 4 then None
    else
      var len, rest := FromLe32(b), b[4..];
      if |rest| < len then None else Some((rest[..len], rest[len..]))
  }

  function Pair(m: Kv, k: Bytes): Bytes
    requires k in m
  {
    Chunk(k) + Chunk(m[k])
  }

  function Encode(m: Kv, keys: seq<Bytes>): Bytes
    requires forall k :: k in keys ==> k in m
  {
    if keys == [] then [] else Pair(m, keys[0]) + Encode(m, keys[1..])
  }

  function EncodeSet(m: Kv, s: set<Bytes>): Bytes
    requires s <= m.Keys
  {
    SortedIs(s);
    Encode(m, Sorted(s))
  }

  /** The snapshot of a map: its pairs in ascending key order. */
  function SnapshotOf(m: Kv): Bytes { EncodeSet(m, m.Keys) }

  /** Reading pairs until the bytes run out or a chunk is cut short. */
  function Decode(b: Bytes, m: Kv): Kv
    decreases |b|
  {
    match TakeChunk(b)
    case None => m
    case Some((k, after)) =>
      match TakeChunk(after)
      case None => m
      case Some((v, rest)) => Decode(rest, m[k := v])
  }

  function RestoreOf(b: Bytes): Kv { Decode(b, map[]) }

  /** The part of `m` listed in `keys`. */
  function Only(m: Kv, keys: seq<Bytes>): Kv { map k | k in m && k in keys :: m[k] }

  /** Every key and value length survives the cast to 32 bits. */
  ghost predicate Small(m: Kv) {
    forall k :: k in m ==> |k| < LIMIT && |m[k]| < LIMIT
  }

  // ----- the codec -----

  lemma {:induction false} TakeWhole(data: Bytes, rest: Bytes)
    requires |data| < LIMIT
    ensures TakeChunk(Chunk(data) + rest) == Some((data, rest))
  {
    var b := Chunk(data) + rest;
    assert b == Le32(|data|) + (data + rest);
    Le32RoundTrip(|data|, data + rest);
    assert b[4..] == data + rest;
  }

  lemma TakeCut(data: Bytes, n: nat)
    requires |data| < LIMIT && n < |Chunk(data)|
    ensures TakeChunk(Chunk(data)[..n]) == None
  {
    if n >= 4 {
      var b := Chunk(data)[..n];
      assert b == Le32(|data|) + data[..n - 4];
      Le32RoundTrip(|data|, data[..n - 4]);
    }
  }

  lemma {:induction false} DecodePair(m: Kv, k: Bytes, rest: Bytes, acc: Kv)
    requires k in m && |k| < LIMIT && |m[k]| < LIMIT
    ensures Decode(Pair(m, k) + rest, acc) == Decode(rest, acc[k := m[k]])
  {
    var tail := Chunk(m[k]) + rest;
    assert Pair(m, k) + rest == Chunk(k) + tail;
    TakeWhole(k, tail);
    TakeWhole(m[k], rest);
    DecodeTwo(Pair(m, k) + rest, k, tail, m[k], rest, acc);
  }

  lemma {:induction false} DecodeTwo(b: Bytes, key: Bytes, tail: Bytes, value: Bytes, rest: Bytes, acc: Kv)
    requires TakeChunk(b) == Some((key, tail)) && TakeChunk(tail) == Some((value, rest))
    ensures Decode(b, acc) == Decode(rest, acc[key := value])
  {
  }

  lemma {:induction false} DecodeCut(m: Kv, k: Bytes, n: nat, acc: Kv)
    requires k in m && |k| < LIMIT && |m[k]| < LIMIT && n < |Pair(m, k)|
    ensures Decode(Pair(m, k)[..n], acc) == acc
  {
    var key, value := Chunk(k), Chunk(m[k]);
    if n < |key| {
      assert Pair(m, k)[..n] == key[..n];
      TakeCut(k, n);
    } else {
      assert Pair(m, k)[..n] == key + value[..n - |key|];
      TakeWhole(k, value[..n - |key|]);
      TakeCut(m[k], n - |key|);
    }
  }

  /** `acc` with the pairs of `keys` put in, in order. */
  function PutAll(acc: Kv, m: Kv, keys: seq<Bytes>): Kv
    requires forall k :: k in keys ==> k in m
    decreases keys
  {
    if keys == [] then acc else PutAll(acc[keys[0] := m[keys[0]]], m, keys[1..])
  }

  lemma {:induction false} PutAllIs(acc: Kv, m: Kv, keys: seq<Bytes>)
    requires forall k :: k in keys ==> k in m
    ensures PutAll(acc, m, keys) == acc + Only(m, keys)
    decreases keys
  {
    if keys != [] {
      PutAllIs(acc[keys[0] := m[keys[0]]], m, keys[1..]);
      OnlyNext(acc, m, keys[0], keys[1..]);
      assert keys == [keys[0]] + keys[1..];
    }
  }

  lemma OnlyNext(acc: Kv, m: Kv, k: Bytes, rest: seq<Bytes>)
    requires k in m
    ensures acc[k := m[k]] + Only(m, rest) == acc + Only(m, [k] + rest)
  {
  }

  /** `j` is the number of whole pairs in the first `n` bytes. */
  ghost predicate WholePairs(m: Kv, keys: seq<Bytes>, n: nat, j: nat)
    requires forall k :: k in keys ==> k in m
  {
    j <= |keys| && |Encode(m, keys[..j])| <= n && (j < |keys| ==> n < |Encode(m, keys[..j + 1])|)
  }

  lemma {:induction false} EncodeFront(m: Kv, keys: seq<Bytes>, j: nat)
    requires 0 < j <= |keys| && forall k :: k in keys ==> k in m
    ensures |Encode(m, keys[..j])| == |Pair(m, keys[0])| + |Encode(m, keys[1..][..j - 1])|
  {
    assert keys[..j][1..] == keys[1..][..j - 1];
  }

  lemma WholePairsNext(m: Kv, keys: seq<Bytes>, n: nat, i: nat)
    requires keys != [] && (forall k :: k in keys ==> k in m) && n >= |Pair(m, keys[0])|
    requires WholePairs(m, keys[1..], n - |Pair(m, keys[0])|, i)
    ensures WholePairs(m, keys, n, i + 1)
  {
    EncodeFront(m, keys, i + 1);
    if i + 1 < |keys| {
      EncodeFront(m, keys, i + 2);
    }
  }

  /** Decoding a byte prefix of an encoding takes in exactly the whole pairs it holds. */
  lemma {:induction false} DecodePrefix(m: Kv, keys: seq<Bytes>, n: nat, acc: Kv) returns (j: nat)
    requires Small(m) && (forall k :: k in keys ==> k in m) && n <= |Encode(m, keys)|
    ensures WholePairs(m, keys, n, j) && Decode(Encode(m, keys)[..n], acc) == PutAll(acc, m, keys[..j])
    decreases keys
  {
    if keys == [] {
      j := 0;
    } else if n < |Pair(m, keys[0])| {
      j := 0;
      EncodeFront(m, keys, 1);
      PrefixCut(m, keys, n, acc);
    } else {
      var k := keys[0];
      var i := DecodePrefix(m, keys[1..], n - |Pair(m, k)|, acc[k := m[k]]);
      WholePairsNext(m, keys, n, i);
      PrefixPair(m, keys, n, acc);
      j := i + 1;
      assert keys[..j][0] == k && keys[..j][1..] == keys[1..][..i];
    }
  }

  lemma {:induction false} PrefixCut(m: Kv, keys: seq<Bytes>, n: nat, acc: Kv)
    requires Small(m) && keys != [] && (forall k :: k in keys ==> k in m) && n < |Pair(m, keys[0])|
    ensures Decode(Encode(m, keys)[..n], acc) == acc
  {
    assert Encode(m, keys)[..n] == Pair(m, keys[0])[..n];
    DecodeCut(m, keys[0], n, acc);
  }

  lemma {:induction false} PrefixPair(m: Kv, keys: seq<Bytes>, n: nat, acc: Kv)
    requires Small(m) && keys != [] && (forall k :: k in keys ==> k in m)
    requires |Pair(m, keys[0])| <= n <= |Encode(m, keys)|
    ensures Decode(Encode(m, keys)[..n], acc) ==
            Decode(Encode(m, keys[1..])[..n - |Pair(m, keys[0])|], acc[keys[0] := m[keys[0]]])
  {
    var tail := Encode(m, keys[1..])[..n - |Pair(m, keys[0])|];
    assert Encode(m, keys)[..n] == Pair(m, keys[0]) + tail;
    DecodePair(m, keys[0], tail, acc);
  }

  /** Restoring a byte prefix of a snapshot yields an initial segment of the
      map in key order: every pair the prefix holds in full, and no other. */
  lemma {:induction false} RestorePrefix(m: Kv, n: nat) returns (j: nat)
    requires Small(m) && n <= |SnapshotOf(m)|
    ensures forall k :: k in Sorted(m.Keys) ==> k in m
    ensures WholePairs(m, Sorted(m.Keys), n, j)
    ensures RestoreOf(SnapshotOf(m)[..n]) == Only(m, Sorted(m.Keys)[..j])
  {
    SortedIs(m.Keys);
    j := ListedPrefix(m, Sorted(m.Keys), n);
  }

  lemma {:induction false} ListedPrefix(m: Kv, keys: seq<Bytes>, n: nat) returns (j: nat)
    requires Small(m) && (forall k :: k in keys ==> k in m) && n <= |Encode(m, keys)|
    ensures WholePairs(m, keys, n, j) && Decode(Encode(m, keys)[..n], map[]) == Only(m, keys[..j])
  {
    j := DecodePrefix(m, keys, n, map[]);
    PutAllIs(map[], m, keys[..j]);
  }

  /** What is restored never has an oversized chunk. */
  lemma {:induction false} DecodeSmall(b: Bytes, acc: Kv)
    requires Small(acc)
    ensures Small(Decode(b, acc))
    decreases |b|
  {
    var first := TakeChunk(b);
    if first.Some? {
      var second := TakeChunk(first.value.1);
      if second.Some? {
        DecodeSmall(second.value.1, acc[first.value.0 := second.value.0]);
      }
    }
  }

  /** A snapshot restores to the map it was taken from exactly when every key
      and value length fits in 32 bits. */
  lemma {:induction false} SnapshotRoundTrip(m: Kv)
    ensures RestoreOf(SnapshotOf(m)) == m <==> Small(m)
  {
    if Small(m) {
      SmallRestores(m);
    }
    RestoredSmall(SnapshotOf(m));
  }

  lemma {:induction false} RestoredSmall(b: Bytes)
    ensures Small(RestoreOf(b))
  {
    DecodeSmall(b, map[]);
  }

  lemma {:induction false} SmallRestores(m: Kv)
    requires Small(m)
    ensures RestoreOf(SnapshotOf(m)) == m
  {
    SortedIs(m.Keys);
    ListedRestores(m, Sorted(m.Keys));
  }

  lemma {:induction false} ListedRestores(m: Kv, keys: seq<Bytes>)
    requires Small(m) && forall k :: k in keys <==> k in m
    ensures Decode(Encode(m, keys), map[]) == m
  {
    var all := Encode(m, keys);
    var j := ListedPrefix(m, keys, |all|);
    AllWhole(m, keys, j);
    assert all[..|all|] == all && keys[..j] == keys;
    assert Only(m, keys) == m;
  }

  /** All the bytes hold all the pairs. */
  lemma {:induction false} AllWhole(m: Kv, keys: seq<Bytes>, j: nat)
    requires (forall k :: k in keys ==> k in m) && WholePairs(m, keys, |Encode(m, keys)|, j)
    ensures j == |keys|
  {
    if j < |keys| {
      EncodeGrows(m, keys, j + 1);
    }
  }

  lemma {:induction false} EncodeGrows(m: Kv, keys: seq<Bytes>, j: nat)
    requires j <= |keys| && forall k :: k in keys ==> k in m
    ensures |Encode(m, keys[..j])| <= |Encode(m, keys)|
    decreases |keys|
  {
    if j > 0 {
      assert keys[..j][1..] == keys[1..][..j - 1];
      EncodeGrows(m, keys[1..], j - 1);
    }
  }

  // ----- applying entries -----

  /** Only well-formed puts and deletes change the map. */
  function Applied(decode: Decoder, m: Kv, e: Entry): Kv {
    if !e.payload.Command? then m
    else
      match decode(e.payload.data)
      case None => m
      case Some(c) =>
        if c.op == KV_OP_PUT then m[c.key := c.value]
        else if c.op == KV_OP_DELETE then m - {c.key}
        else m
  }

  /** Commands whose key and value lengths fit in 32 bits. */
  predicate SmallEntry(decode: Decoder, e: Entry) {
    e.payload.Command? ==>
      match decode(e.payload.data)
      case None => true
      case Some(c) => |c.key| < LIMIT && |c.value| < LIMIT
  }

  lemma EncodeLeast(m: Kv, s: set<Bytes>)
    requires s <= m.Keys && s != {}
    ensures EncodeSet(m, s) == Pair(m, Least(s)) + EncodeSet(m, s - {Least(s)})
  {
    assert Sorted(s)[0] == Least(s) && Sorted(s)[1..] == Sorted(s - {Least(s)});
  }

  lemma Regroup(out: Bytes, key: Bytes, value: Bytes, rest: Bytes)
    ensures out + ((key + value) + rest) == (out + key + value) + rest
  {
  }

  /** The machine: the map behind `KvMachine`. */
  class Machine {
    const decode: Decoder
    var kv: Kv

    constructor (decode: Decoder)
      ensures kv == map[] && this.decode == decode
    {
      this.decode := decode;
      kv := map[];
    }

    method Apply(e: Entry)
      modifies this
      ensures kv == Applied(decode, old(kv), e)
    {
      if !e.payload.Command? {
        return;
      }
      var decoded := decode(e.payload.data);
      if decoded.None? {
        return;
      }
      var c := decoded.value;
      if c.op == KV_OP_PUT {
        kv := kv[c.key := c.value];
      } else if c.op == KV_OP_DELETE {
        kv := kv - {c.key};
      }
    }

    /** Visits the keys in ascending order, as the ordered map does. */
    method Snapshot() returns (out: Bytes)
      ensures out == SnapshotOf(kv)
    {
      out := [];
      var rest := kv.Keys;
      while rest != {}
        invariant rest <= kv.Keys && out + EncodeSet(kv, rest) == SnapshotOf(kv)
        decreases |rest|
      {
        var k := Least(rest);
        EncodeLeast(kv, rest);
        Regroup(out, Chunk(k), Chunk(kv[k]), EncodeSet(kv, rest - {k}));
        out := out + Chunk(k) + Chunk(kv[k]);
        rest := rest - {k};
      }
    }

    method Restore(snapshot: Bytes)
      modifies this
      ensures kv == RestoreOf(snapshot)
    {
      var rebuilt: Kv := map[];
      var rest := snapshot;
      while |rest| >= 4
        invariant Decode(rest, rebuilt) == RestoreOf(snapshot)
      {
        var first := TakeChunk(rest);
        if first.None? {
          break;
        }
        var second := TakeChunk(first.value.1);
        if second.None? {
          break;
        }
        rebuilt := rebuilt[first.value.0 := second.value.0];
        rest := second.value.1;
      }
      kv := rebuilt;
    }
  }
}

/** The in-memory hot tier (crates/brokkr-cas/src/tiered.rs): a byte-bounded LRU
    kept as an index-linked list in a slot pool, and the recency sequence it
    stands for. */
module Tiered {
  import opened Common
  import opened Cas
  import opened Lru

  const USIZE_MAX: nat := U64_MAX

  /** `usize::MAX` as an index: no slot. */
  const NONE: int := -1

  datatype Slot = Slot(digest: Digest, data: Bytes, prev: int, next: int)

  ghost predicate InPool(nodes: seq<Slot>, order: seq<nat>) {
    && (forall i :: 0 <= i < |order| ==> order[i] < |nodes|)
    && (forall i, j :: 0 <= i < j < |order| ==> order[i] != order[j])
  }

  ghost predicate Neighbours(nodes: seq<Slot>, order: seq<nat>)
    requires InPool(nodes, order)
  {
    forall i, j :: 0 <= i < j == i + 1 < |order| ==>
        nodes[order[i]].next == order[j] && nodes[order[j]].prev == order[i]
  }

  ghost predicate Ends(nodes: seq<Slot>, order: seq<nat>, head: int, tail: int)
    requires InPool(nodes, order)
  {
    if order == [] then head == NONE && tail == NONE
    else
      head == order[0] && tail == order[|order| - 1] && nodes[order[0]].prev == NONE &&
      nodes[order[|order| - 1]].next == NONE
  }

  /** The list from head to tail visits exactly the slots of `order`, and both
      directions of every link agree. */
  ghost predicate Chain(nodes: seq<Slot>, order: seq<nat>, head: int, tail: int) {
    InPool(nodes, order) && Neighbours(nodes, order) && Ends(nodes, order, head, tail)
  }

  /** The pool once the neighbours of a slot are linked to each other. */
  function Bypass(nodes: seq<Slot>, prev: int, next: int): seq<Slot>
    requires prev == NONE || 0 <= prev < |nodes|
    requires next == NONE || 0 <= next < |nodes|
  {
    var linked := if prev == NONE then nodes else nodes[prev := nodes[prev].(next := next)];
    if next == NONE then linked else linked[next := linked[next].(prev := prev)]
  }

  function Before(order: seq<nat>, k: nat): int
    requires k < |order|
  {
    if k == 0 then NONE else order[k - 1]
  }

  function After(order: seq<nat>, k: nat): int
    requires k < |order|
  {
    if k == |order| - 1 then NONE else order[k + 1]
  }

  lemma CutNeighbours(nodes: seq<Slot>, order: seq<nat>, k: nat)
    requires InPool(nodes, order) && Neighbours(nodes, order) && k < |order|
    ensures InPool(Bypass(nodes, Before(order, k), After(order, k)), Cut(order, k))
    ensures Neighbours(Bypass(nodes, Before(order, k), After(order, k)), Cut(order, k))
  {
    var after, cut := Bypass(nodes, Before(order, k), After(order, k)), Cut(order, k);
    forall i, j | 0 <= i < j == i + 1 < |cut| ensures after[cut[i]].next == cut[j] && after[cut[j]].prev == cut[i] {
      if j < k {
        assert cut[i] == order[i] && cut[j] == order[j];
      } else if i >= k {
        assert cut[i] == order[i + 1] && cut[j] == order[j + 1];
      } else {
        assert cut[i] == order[k - 1] && cut[j] == order[k + 1];
      }
    }
  }

  /** Digests name exactly the slots in use. */
  ghost predicate Mapped(nodes: seq<Slot>, order: seq<nat>, slots: map<Digest, nat>) {
    && InPool(nodes, order)
    && (forall i :: 0 <= i < |order| ==> nodes[order[i]].digest in slots && slots[nodes[order[i]].digest] == order[i])
    && (forall d :: d in slots ==> slots[d] in order && nodes[slots[d]].digest == d)
  }

  /** Slots in use and free slots partition the pool. */
  ghost predicate Pooled(size: nat, order: seq<nat>, free: seq<nat>) {
    && (forall i, j :: 0 <= i < j < |free| ==> free[i] != free[j])
    && (forall n :: n in free ==> n < size && n !in order)
    && (forall n: nat :: n < size ==> n in order || n in free)
  }

  lemma TakeFree(size: nat, order: seq<nat>, free: seq<nat>)
    requires Pooled(size, order, free) && free != []
    ensures free[|free| - 1] < size && free[|free| - 1] !in order
    ensures Pooled(size, [free[|free| - 1]] + order, free[..|free| - 1])
  {
    var n, rest := free[|free| - 1], free[..|free| - 1];
    assert n in free;
    forall m | m in rest ensures m < size && m !in [n] + order {
      var i :| 0 <= i < |rest| && rest[i] == m;
      assert free[i] == m && m in free;
    }
    forall m: nat | m < size ensures m in [n] + order || m in rest {
      if m !in order && m != n {
        var i :| 0 <= i < |free| && free[i] == m;
        assert rest[i] == m;
      }
    }
  }

  lemma GrowPool(size: nat, order: seq<nat>)
    requires Pooled(size, order, [])
    ensures Pooled(size + 1, [size] + order, [])
  {
    forall m: nat | m < size + 1 ensures m in [size] + order {
      assert m < size ==> m in order;
    }
  }

  lemma GiveBack(size: nat, order: seq<nat>, free: seq<nat>, n: nat)
    requires Pooled(size, [n] + order, free) && n < size && n !in order
    ensures Pooled(size, order, free + [n])
  {
    assert n in [n] + order;
    forall m: nat | m < size ensures m in order || m in free + [n] {
      assert m in [n] + order || m in free;
    }
  }

  ghost function Blobs(nodes: seq<Slot>, order: seq<nat>): (s: seq<Blob>)
    requires InPool(nodes, order)
    ensures |s| == |order|
  {
    seq(|order|, i requires 0 <= i < |order| => Blob(nodes[order[i]].digest, nodes[order[i]].data))
  }

  /** The same blobs sit in the slots of `order`. */
  ghost predicate SameBlobs(before: seq<Slot>, after: seq<Slot>) {
    && |before| == |after|
    && forall i :: 0 <= i < |after| ==> after[i].digest == before[i].digest && after[i].data == before[i].data
  }

  /** Both pools keep the same blob in every slot of `order`. */
  ghost predicate Same(before: seq<Slot>, after: seq<Slot>, order: seq<nat>) {
    && InPool(before, order) && InPool(after, order)
    && forall i :: 0 <= i < |order| ==>
         after[order[i]].digest == before[order[i]].digest && after[order[i]].data == before[order[i]].data
  }

  /** Both pools hold the very same slots along `order`. */
  ghost predicate Untouched(before: seq<Slot>, after: seq<Slot>, order: seq<nat>) {
    && InPool(before, order) && InPool(after, order)
    && forall i :: 0 <= i < |order| ==> after[order[i]] == before[order[i]]
  }

  lemma ChainFrame(before: seq<Slot>, after: seq<Slot>, order: seq<nat>, head: int, tail: int)
    requires Chain(before, order, head, tail) && Untouched(before, after, order)
    ensures Chain(after, order, head, tail) && Blobs(after, order) == Blobs(before, order)
  {
  }

  lemma FillFrame(nodes: seq<Slot>, order: seq<nat>, n: nat, slot: Slot)
    requires InPool(nodes, order) && n !in order && n <= |nodes|
    ensures Untouched(nodes, if n < |nodes| then nodes[n := slot] else nodes + [slot], order)
  {
    forall i | 0 <= i < |order| ensures order[i] != n {
      assert order[i] in order;
    }
  }

  lemma DataFrame(nodes: seq<Slot>, order: seq<nat>, head: int, tail: int, n: nat, data: Bytes)
    requires Chain(nodes, order, head, tail) && n < |nodes|
    ensures Chain(nodes[n := nodes[n].(data := data)], order, head, tail)
  {
  }

  lemma SameThrough(a: seq<Slot>, b: seq<Slot>, c: seq<Slot>, order: seq<nat>)
    requires InPool(a, order) && SameBlobs(a, b) && Untouched(b, c, order)
    ensures Same(a, c, order)
  {
  }

  lemma SameAfter(a: seq<Slot>, b: seq<Slot>, c: seq<Slot>, order: seq<nat>)
    requires Untouched(a, b, order) && SameBlobs(b, c)
    ensures Same(a, c, order)
  {
  }

  lemma LiveBut(size: nat, order: seq<nat>, free: seq<nat>, k: nat)
    requires Pooled(size, order, free) && k < |order|
    ensures Pooled(size, [order[k]] + Cut(order, k), free)
  {
    var moved := [order[k]] + Cut(order, k);
    forall n: nat ensures n in moved <==> n in order {
      if n in order {
        var i :| 0 <= i < |order| && order[i] == n;
        assert if i < k then moved[i + 1] == n else if i == k then moved[0] == n else moved[i] == n;
      }
    }
  }

  lemma CutHas(order: seq<nat>, k: nat, n: nat)
    requires k < |order| && (forall i, j :: 0 <= i < j < |order| ==> order[i] != order[j])
    ensures n in Cut(order, k) <==> n in order && n != order[k]
  {
    var cut := Cut(order, k);
    if n in cut {
      var i :| 0 <= i < |cut| && cut[i] == n;
      assert order[if i < k then i else i + 1] == n;
    }
    if n in order && n != order[k] {
      var i :| 0 <= i < |order| && order[i] == n;
      assert cut[if i < k then i else i - 1] == n;
    }
  }

  lemma MappedCut(nodes: seq<Slot>, order: seq<nat>, slots: map<Digest, nat>, k: nat, after: seq<Slot>)
    requires Mapped(nodes, order, slots) && k < |order| && Same(nodes, after, Cut(order, k))
    ensures Mapped(after, Cut(order, k), slots - {nodes[order[k]].digest})
    ensures Blobs(after, Cut(order, k)) == Cut(Blobs(nodes, order), k)
  {
    var cut, rest := Cut(order, k), slots - {nodes[order[k]].digest};
    forall d | d in rest ensures rest[d] in cut && after[rest[d]].digest == d {
      CutHas(order, k, slots[d]);
    }
    forall i | 0 <= i < |cut| ensures after[cut[i]].digest in rest && rest[after[cut[i]].digest] == cut[i] {
      CutHas(order, k, cut[i]);
    }
  }

  lemma MappedPush(nodes: seq<Slot>, order: seq<nat>, slots: map<Digest, nat>, n: nat, after: seq<Slot>)
    requires Mapped(nodes, order, slots) && n < |after| && n !in order && Same(nodes, after, order)
    requires after[n].digest !in slots
    ensures Mapped(after, [n] + order, slots[after[n].digest := n])
    ensures Blobs(after, [n] + order) == [Blob(after[n].digest, after[n].data)] + Blobs(nodes, order)
  {
  }

  lemma {:induction false} Unheld(nodes: seq<Slot>, order: seq<nat>, slots: map<Digest, nat>, d: Digest)
    requires Mapped(nodes, order, slots) && d !in slots
    ensures Find(Blobs(nodes, order), d) == None && Without(Blobs(nodes, order), d) == Blobs(nodes, order)
  {
    FindNone(Blobs(nodes, order), d);
  }

  lemma Held(nodes: seq<Slot>, order: seq<nat>, slots: map<Digest, nat>, k: nat)
    requires Mapped(nodes, order, slots) && k < |order|
    ensures Find(Blobs(nodes, order), nodes[order[k]].digest) == Some(nodes[order[k]].data)
    ensures Without(Blobs(nodes, order), nodes[order[k]].digest) == Cut(Blobs(nodes, order), k)
  {
    FindAt(Blobs(nodes, order), k);
  }

  lemma Locate(nodes: seq<Slot>, order: seq<nat>, slots: map<Digest, nat>, d: Digest) returns (k: nat)
    requires Mapped(nodes, order, slots) && d in slots
    ensures k < |order| && order[k] == slots[d] && nodes[slots[d]].digest == d
    ensures Find(Blobs(nodes, order), d).Some? && |nodes[slots[d]].data| <= Size(Blobs(nodes, order))
  {
    k :| k < |order| && order[k] == slots[d];
    Held(nodes, order, slots, k);
    SizeCut(Blobs(nodes, order), k);
  }

  /** Moving one slot to the front moves its blob to the front. */
  lemma Moved(nodes: seq<Slot>, order: seq<nat>, slots: map<Digest, nat>, k: nat, after: seq<Slot>)
    requires Mapped(nodes, order, slots) && k < |order|
    requires order[k] < |after| && Same(nodes, after, Cut(order, k))
    requires after[order[k]].digest == nodes[order[k]].digest
    ensures Mapped(after, [order[k]] + Cut(order, k), slots)
    ensures Blobs(after, [order[k]] + Cut(order, k)) ==
            [Blob(nodes[order[k]].digest, after[order[k]].data)] + Cut(Blobs(nodes, order), k)
  {
    var d := nodes[order[k]].digest;
    MappedCut(nodes, order, slots, k, after);
    MappedPush(after, Cut(order, k), slots - {d}, order[k], after);
    assert (slots - {d})[d := order[k]] == slots;
  }

  /** What a cache hit leaves behind. */
  lemma HitStep(pool: seq<Slot>, live: seq<nat>, slots: map<Digest, nat>, free: seq<nat>, k: nat, nodes: seq<Slot>)
    requires Mapped(pool, live, slots) && Pooled(|pool|, live, free) && k < |live| && SameBlobs(pool, nodes)
    ensures Mapped(nodes, [live[k]] + Cut(live, k), slots) && Pooled(|nodes|, [live[k]] + Cut(live, k), free)
    ensures Blobs(nodes, [live[k]] + Cut(live, k)) == Touched(Blobs(pool, live), pool[live[k]].digest)
    ensures Size(Blobs(nodes, [live[k]] + Cut(live, k))) == Size(Blobs(pool, live))
    ensures Find(Blobs(pool, live), pool[live[k]].digest) == Some(nodes[live[k]].data)
  {
    SameThrough(pool, nodes, nodes, Cut(live, k));
    Moved(pool, live, slots, k, nodes);
    LiveBut(|nodes|, live, free, k);
    Held(pool, live, slots, k);
    SizeCut(Blobs(pool, live), k);
    SizeFront(Blob(pool[live[k]].digest, nodes[live[k]].data), Cut(Blobs(pool, live), k));
  }

  /** What refreshing a held blob leaves behind, before eviction. */
  lemma RefreshStep(pool: seq<Slot>, live: seq<nat>, slots: map<Digest, nat>, free: seq<nat>, k: nat, data: Bytes,
      nodes: seq<Slot>)
    requires Mapped(pool, live, slots) && Pooled(|pool|, live, free) && k < |live|
    requires SameBlobs(pool[live[k] := pool[live[k]].(data := data)], nodes)
    ensures Mapped(nodes, [live[k]] + Cut(live, k), slots) && Pooled(|nodes|, [live[k]] + Cut(live, k), free)
    ensures Blobs(nodes, [live[k]] + Cut(live, k)) ==
            [Blob(pool[live[k]].digest, data)] + Without(Blobs(pool, live), pool[live[k]].digest)
    ensures Size(Blobs(nodes, [live[k]] + Cut(live, k))) == Size(Blobs(pool, live)) - |pool[live[k]].data| + |data|
  {
    assert Same(pool, nodes, Cut(live, k)) by {
      forall i | 0 <= i < |Cut(live, k)| ensures Cut(live, k)[i] != live[k] {
        assert Cut(live, k)[i] == live[if i < k then i else i + 1];
      }
    }
    Moved(pool, live, slots, k, nodes);
    LiveBut(|nodes|, live, free, k);
    Held(pool, live, slots, k);
    SizeCut(Blobs(pool, live), k);
    SizeFront(Blob(pool[live[k]].digest, data), Cut(Blobs(pool, live), k));
  }

  /** What admitting a new blob leaves behind, before eviction. */
  lemma {:induction false} AdmitStep(pool: seq<Slot>, live: seq<nat>, slots: map<Digest, nat>, n: nat, nodes: seq<Slot>,
      d: Digest, data: Bytes)
    requires Mapped(pool, live, slots) && Same(pool, nodes, live)
    requires n < |nodes| && n !in live && nodes[n].digest == d && nodes[n].data == data && d !in slots
    ensures Mapped(nodes, [n] + live, slots[d := n])
    ensures Blobs(nodes, [n] + live) == [Blob(d, data)] + Without(Blobs(pool, live), d)
    ensures Size(Blobs(nodes, [n] + live)) == Size(Blobs(pool, live)) + |data|
  {
    MappedPush(pool, live, slots, n, nodes);
    Unheld(pool, live, slots, d);
    SizeFront(Blob(d, data), Blobs(pool, live));
  }

  /** What an eviction leaves behind. */
  lemma EvictStep(pool: seq<Slot>, live: seq<nat>, slots: map<Digest, nat>, k: nat, nodes: seq<Slot>)
    requires Mapped(pool, live, slots) && k == |live| - 1 && Same(pool, nodes, Cut(live, k))
    ensures Mapped(nodes, Cut(live, k), slots - {pool[live[k]].digest})
    ensures Blobs(nodes, Cut(live, k)) == Blobs(pool, live)[..k]
    ensures Size(Blobs(pool, live)) == Size(Blobs(pool, live)[..k]) + |pool[live[k]].data|
  {
    MappedCut(pool, live, slots, k, nodes);
    assert Cut(Blobs(pool, live), k) == Blobs(pool, live)[..k];
  }

  function SatSub(a: nat, b: nat): nat { if a <= b then 0 else a - b }

  function SatAdd(a: nat, b: nat): nat { Min(a + b, USIZE_MAX) }

  class HotTier {
    const capacity: nat
    var bytes: nat
    var slots: map<Digest, nat>
    var nodes: seq<Slot>
    var free: seq<nat>
    var head: int
    var tail: int
    /** The slots in use, from head to tail. */
    ghost var order: seq<nat>

    ghost predicate Linked()
      reads this
    {
      Chain(nodes, order, head, tail) && Mapped(nodes, order, slots) && Pooled(|nodes|, order, free)
    }

    ghost function Contents(): seq<Blob>
      requires InPool(nodes, order)
      reads this
    {
      Blobs(nodes, order)
    }

    ghost predicate Valid()
      reads this
    {
      Linked() && bytes == Size(Contents()) <= capacity <= USIZE_MAX
    }

    constructor (capacity: nat)
      requires capacity <= USIZE_MAX
      ensures Valid() && this.capacity == capacity && Contents() == []
    {
      this.capacity := capacity;
      bytes, slots, nodes, free, head, tail := 0, map[], [], [], NONE, NONE;
      order := [];
    }

    method Unlink(n: nat, ghost k: nat)
      requires Chain(nodes, order, head, tail) && k < |order| && order[k] == n
      modifies this`nodes, this`head, this`tail, this`order
      ensures Chain(nodes, order, head, tail) && order == Cut(old(order), k)
      ensures SameBlobs(old(nodes), nodes)
    {
      var prev, next := nodes[n].prev, nodes[n].next;
      assert prev == Before(order, k) && next == After(order, k);
      CutNeighbours(nodes, order, k);
      if prev != NONE {
        nodes := nodes[prev := nodes[prev].(next := next)];
      } else {
        head := next;
      }
      if next != NONE {
        nodes := nodes[next := nodes[next].(prev := prev)];
      } else {
        tail := prev;
      }
      order := Cut(order, k);
    }

    method PushToHead(n: nat)
      requires Chain(nodes, order, head, tail) && n < |nodes| && n !in order
      modifies this`nodes, this`head, this`tail, this`order
      ensures Chain(nodes, order, head, tail) && order == [n] + old(order)
      ensures SameBlobs(old(nodes), nodes)
    {
      nodes := nodes[n := nodes[n].(prev := NONE, next := head)];
      if head != NONE {
        nodes := nodes[head := nodes[head].(prev := n)];
      }
      head := n;
      if tail == NONE {
        tail := n;
      }
      order := [n] + order;
    }

    method MoveToHead(n: nat, ghost k: nat)
      requires Chain(nodes, order, head, tail) && k < |order| && order[k] == n
      modifies this`nodes, this`head, this`tail, this`order
      ensures Chain(nodes, order, head, tail) && order == [n] + Cut(old(order), k)
      ensures SameBlobs(old(nodes), nodes)
    {
      if n == head {
        return;
      }
      Unlink(n, k);
      PushToHead(n);
    }

    method Alloc(digest: Digest, data: Bytes) returns (n: nat)
      requires InPool(nodes, order) && Pooled(|nodes|, order, free)
      modifies this`nodes, this`free
      ensures n < |nodes| && n !in order && Pooled(|nodes|, [n] + order, free)
      ensures nodes[n].digest == digest && nodes[n].data == data && Untouched(old(nodes), nodes, order)
    {
      var slot := Slot(digest, data, NONE, NONE);
      if free != [] {
        n := free[|free| - 1];
        TakeFree(|nodes|, order, free);
        FillFrame(nodes, order, n, slot);
        free := free[..|free| - 1];
        nodes := nodes[n := slot];
      } else {
        n := |nodes|;
        GrowPool(|nodes|, order);
        FillFrame(nodes, order, n, slot);
        nodes := nodes + [slot];
      }
    }

    /** Gives a new blob a slot at the head of the list. */
    method Place(d: Digest, data: Bytes) returns (n: nat)
      requires Chain(nodes, order, head, tail) && Pooled(|nodes|, order, free)
      modifies this`nodes, this`free, this`head, this`tail, this`order
      ensures Chain(nodes, order, head, tail) && Pooled(|nodes|, order, free)
      ensures n < |nodes| && n !in old(order) && order == [n] + old(order)
      ensures nodes[n].digest == d && nodes[n].data == data && Same(old(nodes), nodes, old(order))
    {
      ghost var pool := nodes;
      n := Alloc(d, data);
      ChainFrame(pool, nodes, order, head, tail);
      ghost var filled, live := nodes, order;
      PushToHead(n);
      SameAfter(pool, filled, nodes, live);
    }

    method Recycle(n: nat)
      requires Chain(nodes, order, head, tail) && n < |nodes| && n !in order && Pooled(|nodes|, [n] + order, free)
      modifies this`nodes, this`free
      ensures Chain(nodes, order, head, tail) && Pooled(|nodes|, order, free)
      ensures |nodes| == |old(nodes)| && Untouched(old(nodes), nodes, order)
    {
      GiveBack(|nodes|, order, free, n);
      nodes := nodes[n := nodes[n].(data := [], prev := NONE, next := NONE)];
      free := free + [n];
      ChainFrame(old(nodes), nodes, order, head, tail);
    }

    /** Takes slot `n` out of the list and gives it back to the pool. */
    method Discard(n: nat, ghost k: nat)
      requires Chain(nodes, order, head, tail) && Pooled(|nodes|, order, free) && k < |order| && order[k] == n
      modifies this`nodes, this`head, this`tail, this`order, this`free
      ensures Chain(nodes, order, head, tail) && Pooled(|nodes|, order, free)
      ensures order == Cut(old(order), k) && Same(old(nodes), nodes, order)
    {
      ghost var pool := nodes;
      LiveBut(|nodes|, order, free, k);
      Unlink(n, k);
      ghost var unlinked := nodes;
      Recycle(n);
      SameThrough(pool, unlinked, nodes, order);
    }

    /** Forgets the least recently used blob. */
    method EvictOne(victim: nat, ghost k: nat)
      requires Linked() && k == |order| - 1 && order[k] == victim && bytes == Size(Contents())
      modifies this
      ensures Linked() && Contents() == old(Contents())[..k] && bytes == Size(Contents())
    {
      ghost var pool, live, named := nodes, order, slots;
      slots := slots - {nodes[victim].digest};
      bytes := SatSub(bytes, |nodes[victim].data|);
      Discard(victim, k);
      EvictStep(pool, live, named, k, nodes);
    }

    method EvictUntilUnderCapacity()
      requires Linked() && bytes == Size(Contents()) && capacity <= USIZE_MAX
      modifies this
      ensures Valid() && Contents() == Fit(old(Contents()), capacity)
    {
      while bytes > capacity && tail != NONE
        invariant Linked() && bytes == Size(Contents())
        invariant Fit(Contents(), capacity) == Fit(old(Contents()), capacity)
        decreases |order|
      {
        EvictOne(tail, |order| - 1);
      }
    }

    /** A hit: the blob of slot `n` becomes the most recently used. */
    method Promote(n: nat, ghost k: nat)
      requires Linked() && k < |order| && order[k] == n
      modifies this`nodes, this`head, this`tail, this`order
      ensures Linked() && n < |nodes|
      ensures Contents() == Touched(old(Contents()), old(nodes)[n].digest) && Size(Contents()) == Size(old(Contents()))
      ensures Find(old(Contents()), old(nodes)[n].digest) == Some(nodes[n].data)
    {
      ghost var pool, live := nodes, order;
      MoveToHead(n, k);
      HitStep(pool, live, slots, free, k, nodes);
    }

    method Get(d: Digest) returns (r: Option<Bytes>)
      requires Valid()
      modifies this`nodes, this`head, this`tail, this`order
      ensures Valid()
      ensures r == Find(old(Contents()), d) && Contents() == Touched(old(Contents()), d)
    {
      if d !in slots {
        Unheld(nodes, order, slots, d);
        return None;
      }
      var data := Hit(d);
      return Some(data);
    }

    method Hit(d: Digest) returns (data: Bytes)
      requires Linked() && d in slots
      modifies this`nodes, this`head, this`tail, this`order
      ensures Linked() && Size(Contents()) == Size(old(Contents()))
      ensures Find(old(Contents()), d) == Some(data) && Contents() == Touched(old(Contents()), d)
    {
      var n := slots[d];
      ghost var k := Locate(nodes, order, slots, d);
      Promote(n, k);
      data := nodes[n].data;
    }

    /** Replaces the data of slot `n` and makes it the most recently used. */
    method Rewrite(n: nat, ghost k: nat, data: Bytes)
      requires Linked() && k < |order| && order[k] == n
      modifies this`nodes, this`head, this`tail, this`order
      ensures Linked() && Size(Contents()) == Size(old(Contents())) - |old(nodes)[n].data| + |data|
      ensures Contents() == [Blob(old(nodes)[n].digest, data)] + Without(old(Contents()), old(nodes)[n].digest)
    {
      ghost var pool, live := nodes, order;
      DataFrame(nodes, order, head, tail, n, data);
      nodes := nodes[n := nodes[n].(data := data)];
      MoveToHead(n, k);
      RefreshStep(pool, live, slots, free, k, data, nodes);
    }

    method Refresh(d: Digest, data: Bytes)
      requires Linked() && d in slots && bytes == Size(Contents()) && Size(Contents()) + |data| <= USIZE_MAX
      modifies this`nodes, this`head, this`tail, this`order, this`bytes
      ensures Linked() && bytes == Size(Contents())
      ensures Find(old(Contents()), d).Some? && Contents() == [Blob(d, data)] + Without(old(Contents()), d)
    {
      ghost var k := Locate(nodes, order, slots, d);
      bytes := SatAdd(SatSub(bytes, |nodes[slots[d]].data|), |data|);
      Rewrite(slots[d], k, data);
    }

    method Admit(d: Digest, data: Bytes)
      requires Linked() && d !in slots && bytes == Size(Contents()) && Size(Contents()) + |data| <= USIZE_MAX
      modifies this
      ensures Linked() && bytes == Size(Contents())
      ensures Contents() == [Blob(d, data)] + Without(old(Contents()), d)
    {
      ghost var pool, live, named := nodes, order, slots;
      var n := Place(d, data);
      slots := slots[d := n];
      bytes := SatAdd(bytes, |data|);
      AdmitStep(pool, live, named, n, nodes, d, data);
    }

    /** The new blob and those held are addressable together. */
    method Put(d: Digest, data: Bytes)
      requires Valid() && Size(Contents()) + |data| <= USIZE_MAX
      modifies this
      ensures Valid() && Contents() == Stored(old(Contents()), capacity, d, data)
    {
      if capacity == 0 {
        return;
      }
      if d in slots {
        Refresh(d, data);
        EvictUntilUnderCapacity();
        return;
      }
      Unheld(nodes, order, slots, d);
      if |data| > capacity {
        return;
      }
      Admit(d, data);
      EvictUntilUnderCapacity();
    }
  }
}

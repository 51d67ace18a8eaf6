/** Worker-selection policies (crates/brokkr-control/src/scheduling.rs). */
module Strategies {
  import opened Common
  import opened Order

  type Loads = WorkerId -> nat

  /** The contract on every strategy: a candidate, whenever there is one, whatever the context. */
  ghost predicate Chooses<C(!new)>(choose: (C, seq<WorkerId>) -> Option<WorkerId>) {
    forall x, cs {:trigger choose(x, cs)} ::
      if cs == [] then choose(x, cs) == None else choose(x, cs).Some? && choose(x, cs).value in cs
  }

  /** `a` comes before `b`: lower rank first, then lower id. */
  predicate Before(rank: WorkerId -> int, a: WorkerId, b: WorkerId) {
    rank(a) < rank(b) || (rank(a) == rank(b) && Below(a, b))
  }

  predicate IsFirst(rank: WorkerId -> int, cs: set<WorkerId>, w: WorkerId) {
    w in cs && forall x :: x in cs ==> x == w || Before(rank, w, x)
  }

  function Members(cs: seq<WorkerId>): set<WorkerId> { set w | w in cs }

  /** The candidate that comes first, as `min_by` finds it. */
  function First(rank: WorkerId -> int, cs: seq<WorkerId>): (r: Option<WorkerId>)
    ensures r.None? <==> cs == []
    ensures r.Some? ==> IsFirst(rank, Members(cs), r.value)
  {
    if cs == [] then None
    else
      var rest, w := First(rank, cs[..|cs| - 1]), cs[|cs| - 1];
      FirstNext(rank, cs);
      if rest.Some? && (rest.value == w || Before(rank, rest.value, w)) then rest else Some(w)
  }

  lemma FirstNext(rank: WorkerId -> int, cs: seq<WorkerId>)
    requires cs != []
    ensures Members(cs) == Members(cs[..|cs| - 1]) + {cs[|cs| - 1]}
    ensures forall a, b :: a == b || Before(rank, a, b) || Before(rank, b, a)
    ensures forall a, b, c :: Before(rank, a, b) && Before(rank, b, c) ==> Before(rank, a, c)
  {
    assert cs == cs[..|cs| - 1] + [cs[|cs| - 1]];
    forall a, b ensures a == b || Before(rank, a, b) || Before(rank, b, a) {
      Trichotomy(a, b);
    }
    forall a, b, c | Before(rank, a, b) && Before(rank, b, c) ensures Before(rank, a, c) {
      if rank(a) == rank(b) == rank(c) {
        Transitive(a, b, c);
      }
    }
  }

  /** There is one first candidate, so the answer does not depend on the order they are listed in. */
  lemma FirstUnique(rank: WorkerId -> int, cs: set<WorkerId>, a: WorkerId, b: WorkerId)
    requires IsFirst(rank, cs, a) && IsFirst(rank, cs, b)
    ensures a == b
  {
    Trichotomy(a, b);
  }

  function ByLoad(loads: Loads): WorkerId -> int { w => loads(w) }

  function ByFill(loads: Loads): WorkerId -> int { w => 0 - loads(w) }

  /** Nobody in the list ranks before the one chosen. */
  lemma {:induction false} FirstRank(rank: WorkerId -> int, cs: seq<WorkerId>)
    requires cs != []
    ensures First(rank, cs).value in cs && forall w :: w in cs ==> rank(First(rank, cs).value) <= rank(w)
  {
    var f := First(rank, cs).value;
    assert f in Members(cs);
    forall w | w in cs ensures rank(f) <= rank(w) {
      assert w in Members(cs);
    }
  }

  function SimpleFifo(loads: Loads, cs: seq<WorkerId>): Option<WorkerId> { First(ByLoad(loads), cs) }

  function UnderCap(loads: Loads, cap: nat, cs: seq<WorkerId>): seq<WorkerId> {
    if cs == [] then []
    else UnderCap(loads, cap, cs[..|cs| - 1]) + if loads(cs[|cs| - 1]) < cap then [cs[|cs| - 1]] else []
  }

  /** Packs the most loaded worker under the cap; spreads when all are at it. */
  function BinPacking(loads: Loads, cap: nat, cs: seq<WorkerId>): Option<WorkerId> {
    var packed := First(ByFill(loads), UnderCap(loads, cap, cs));
    if packed.Some? then packed else First(ByLoad(loads), cs)
  }

  lemma {:induction false} UnderCapHas(loads: Loads, cap: nat, cs: seq<WorkerId>, w: WorkerId)
    ensures w in UnderCap(loads, cap, cs) <==> w in cs && loads(w) < cap
  {
    if cs != [] {
      UnderCapHas(loads, cap, cs[..|cs| - 1], w);
      assert cs == cs[..|cs| - 1] + [cs[|cs| - 1]];
    }
  }

  /** Least loaded, ties by id, whatever the order of the candidates. */
  lemma SimpleFifoChooses(loads: Loads, cs: seq<WorkerId>, cs': seq<WorkerId>)
    requires forall w :: w in cs <==> w in cs'
    ensures SimpleFifo(loads, cs) == SimpleFifo(loads, cs')
    ensures cs == [] <==> SimpleFifo(loads, cs) == None
    ensures SimpleFifo(loads, cs).Some? ==> SimpleFifo(loads, cs).value in cs && forall w :: w in cs ==>
            loads(SimpleFifo(loads, cs).value) <= loads(w)
  {
    assert Members(cs) == Members(cs');
    assert cs != [] ==> cs[0] in cs';
    assert cs' != [] ==> cs'[0] in cs;
    if cs != [] {
      FirstRank(ByLoad(loads), cs);
      forall w | w in cs ensures loads(SimpleFifo(loads, cs).value) <= loads(w) {
        assert ByLoad(loads)(SimpleFifo(loads, cs).value) <= ByLoad(loads)(w);
      }
      FirstUnique(ByLoad(loads), Members(cs), SimpleFifo(loads, cs).value, SimpleFifo(loads, cs').value);
    }
  }

  /** A worker under the cap is chosen if there is one, the fullest such; else the least loaded. */
  lemma BinPackingChooses(loads: Loads, cap: nat, cs: seq<WorkerId>)
    ensures cs == [] <==> BinPacking(loads, cap, cs) == None
    ensures BinPacking(loads, cap, cs).Some? ==>
              var w := BinPacking(loads, cap, cs).value;
              && w in cs
              && ((exists x :: x in cs && loads(x) < cap) ==>
                   loads(w) < cap && forall x :: x in cs && loads(x) < cap ==> loads(x) <= loads(w))
              && ((forall x :: x in cs ==> loads(x) >= cap) ==> forall x :: x in cs ==> loads(w) <= loads(x))
  {
    var under := UnderCap(loads, cap, cs);
    forall w ensures w in under <==> w in cs && loads(w) < cap {
      UnderCapHas(loads, cap, cs, w);
    }
    if under != [] {
      assert under[0] in under;
      FirstRank(ByFill(loads), under);
      var w := First(ByFill(loads), under).value;
      forall x | x in cs && loads(x) < cap ensures loads(x) <= loads(w) {
        assert x in under && ByFill(loads)(w) <= ByFill(loads)(x);
      }
    } else if cs != [] {
      FirstRank(ByLoad(loads), cs);
      var w := First(ByLoad(loads), cs).value;
      forall x | x in cs ensures loads(w) <= loads(x) {
        assert ByLoad(loads)(w) <= ByLoad(loads)(x);
      }
    }
  }
}

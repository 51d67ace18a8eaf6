/** Rendezvous-hash replica selection (crates/brokkr-cas/src/ring.rs); the score is a parameter. */
module Ring {
  import opened Common
  import opened Order
  import opened Cas

  type NodeName = Bytes

  datatype NodeStatus = Healthy | Suspect | Unreachable

  datatype RingNode = RingNode(id: NodeName, status: NodeStatus)

  type Score = (NodeName, Digest) -> nat

  predicate IsEligible(n: RingNode) { n.status != Unreachable }

  function EligibleIds(nodes: seq<RingNode>): set<NodeName> {
    set k | 0 <= k < |nodes| && IsEligible(nodes[k]) :: nodes[k].id
  }

  ghost predicate DistinctIds(nodes: seq<RingNode>) {
    forall i, j :: 0 <= i < j < |nodes| ==> nodes[i].id != nodes[j].id
  }

  // ----- the ranking of a set of nodes for one digest -----

  /** Higher score first, ties by id. */
  predicate Outranks(score: Score, d: Digest, a: NodeName, b: NodeName) {
    score(a, d) > score(b, d) || (score(a, d) == score(b, d) && Below(a, b))
  }

  predicate IsTop(score: Score, d: Digest, ids: set<NodeName>, a: NodeName) {
    a in ids && forall b :: b in ids ==> b == a || Outranks(score, d, a, b)
  }

  lemma OutranksTotal(score: Score, d: Digest, a: NodeName, b: NodeName)
    ensures a == b || Outranks(score, d, a, b) || Outranks(score, d, b, a)
    ensures !(Outranks(score, d, a, b) && Outranks(score, d, b, a)) && !Outranks(score, d, a, a)
  {
    Trichotomy(a, b);
    Trichotomy(a, a);
  }

  lemma OutranksTransitive(score: Score, d: Digest, a: NodeName, b: NodeName, c: NodeName)
    requires Outranks(score, d, a, b) && Outranks(score, d, b, c)
    ensures Outranks(score, d, a, c)
  {
    if score(a, d) == score(b, d) == score(c, d) {
      Transitive(a, b, c);
    }
  }

  lemma {:induction false} TopExists(score: Score, d: Digest, ids: set<NodeName>) returns (a: NodeName)
    requires ids != {}
    ensures IsTop(score, d, ids, a)
    decreases |ids|
  {
    a :| a in ids;
    var rest := ids - {a};
    if rest == {} {
      assert ids == {a};
    } else {
      var b := TopExists(score, d, rest);
      OutranksTotal(score, d, a, b);
      if Outranks(score, d, b, a) {
        a := b;
      } else {
        forall c | c in ids && c != a ensures Outranks(score, d, a, c) {
          if c != b {
            OutranksTransitive(score, d, a, b, c);
          }
        }
      }
    }
  }

  lemma OneTop(score: Score, d: Digest, ids: set<NodeName>)
    requires ids != {}
    ensures exists a :: IsTop(score, d, ids, a)
    ensures forall a, b :: IsTop(score, d, ids, a) && IsTop(score, d, ids, b) ==> a == b
  {
    var a := TopExists(score, d, ids);
    forall a, b | IsTop(score, d, ids, a) && IsTop(score, d, ids, b) ensures a == b {
      OutranksTotal(score, d, a, b);
    }
  }

  function Top(score: Score, d: Digest, ids: set<NodeName>): (a: NodeName)
    requires ids != {}
    ensures IsTop(score, d, ids, a)
  {
    OneTop(score, d, ids);
    var a :| a in ids && IsTop(score, d, ids, a);
    a
  }

  function Ranking(score: Score, d: Digest, ids: set<NodeName>): seq<NodeName>
    decreases |ids|
  {
    if ids == {} then [] else [Top(score, d, ids)] + Ranking(score, d, ids - {Top(score, d, ids)})
  }

  /** The replicas of `d` among `ids`, primary first. */
  function Replicas(score: Score, d: Digest, ids: set<NodeName>, r: nat): seq<NodeName> {
    Ranking(score, d, ids)[..Min(r, |Ranking(score, d, ids)|)]
  }

  ghost predicate Ranked(score: Score, d: Digest, s: seq<NodeName>) {
    forall i, j :: 0 <= i < j < |s| ==> Outranks(score, d, s[i], s[j])
  }

  lemma {:induction false} RankingIs(score: Score, d: Digest, ids: set<NodeName>)
    ensures |Ranking(score, d, ids)| == |ids| && Ranked(score, d, Ranking(score, d, ids))
    ensures forall n :: n in Ranking(score, d, ids) <==> n in ids
    decreases |ids|
  {
    if ids != {} {
      var a, rest := Top(score, d, ids), Ranking(score, d, ids - {Top(score, d, ids)});
      RankingIs(score, d, ids - {a});
      forall j | 0 <= j < |rest| ensures Outranks(score, d, a, rest[j]) {
        assert rest[j] in rest;
      }
    }
  }

  /** There is one ranked listing of a set. */
  lemma {:induction false} RankingUnique(score: Score, d: Digest, s: seq<NodeName>, ids: set<NodeName>)
    requires Ranked(score, d, s) && forall n :: n in s <==> n in ids
    ensures s == Ranking(score, d, ids)
    decreases |s|
  {
    if s == [] {
      assert ids == {};
    } else {
      assert s[0] in s;
      forall b | b in ids && b != s[0] ensures Outranks(score, d, s[0], b) {
        assert b in s;
      }
      OneTop(score, d, ids);
      assert IsTop(score, d, ids, s[0]) && IsTop(score, d, ids, Top(score, d, ids));
      var rest := s[1..];
      forall n ensures n in rest <==> n in ids - {s[0]} {
        assert s == [s[0]] + rest;
        OutranksTotal(score, d, s[0], s[0]);
        assert n in rest ==> Outranks(score, d, s[0], n);
      }
      RankingUnique(score, d, rest, ids - {s[0]});
    }
  }

  // ----- minimal disruption -----

  function Removed(s: seq<NodeName>, n: NodeName): seq<NodeName> {
    if s == [] then [] else Removed(s[..|s| - 1], n) + (if s[|s| - 1] == n then [] else [s[|s| - 1]])
  }

  lemma {:induction false} RemovedHas(s: seq<NodeName>, n: NodeName, m: NodeName)
    ensures m in Removed(s, n) <==> m in s && m != n
  {
    if s != [] {
      RemovedHas(s[..|s| - 1], n, m);
      assert s == s[..|s| - 1] + [s[|s| - 1]];
    }
  }

  lemma {:induction false} RemovedRanked(score: Score, d: Digest, s: seq<NodeName>, n: NodeName)
    requires Ranked(score, d, s)
    ensures Ranked(score, d, Removed(s, n))
  {
    if s != [] {
      var k := |s| - 1;
      var before := Removed(s[..k], n);
      RemovedRanked(score, d, s[..k], n);
      forall i | 0 <= i < |before| ensures Outranks(score, d, before[i], s[k]) {
        assert before[i] in before;
        RemovedHas(s[..k], n, before[i]);
      }
    }
  }

  /** Losing a node takes it out of the ranking and leaves the rest in order. */
  lemma {:induction false} RankingWithout(score: Score, d: Digest, ids: set<NodeName>, n: NodeName)
    ensures Ranking(score, d, ids - {n}) == Removed(Ranking(score, d, ids), n)
  {
    var s := Ranking(score, d, ids);
    RankingIs(score, d, ids);
    RemovedRanked(score, d, s, n);
    forall m ensures m in Removed(s, n) <==> m in ids - {n} {
      RemovedHas(s, n, m);
    }
    RankingUnique(score, d, Removed(s, n), ids - {n});
  }

  lemma {:induction false} RemovedPrefix(s: seq<NodeName>, k: nat, n: NodeName)
    requires k <= |s|
    ensures Removed(s[..k], n) <= Removed(s, n)
    decreases |s|
  {
    if k == |s| {
      assert s[..k] == s;
    } else {
      assert s[..|s| - 1][..k] == s[..k];
      RemovedPrefix(s[..|s| - 1], k, n);
    }
  }

  lemma {:induction false} RemovedSize(s: seq<NodeName>, n: NodeName)
    requires forall i, j :: 0 <= i < j < |s| ==> s[i] != s[j]
    ensures |Removed(s, n)| == if n in s then |s| - 1 else |s|
  {
    if s != [] {
      var k := |s| - 1;
      RemovedSize(s[..k], n);
      assert s == s[..k] + [s[k]] && s[k] !in s[..k];
    }
  }

  lemma RankedDistinct(score: Score, d: Digest, s: seq<NodeName>)
    requires Ranked(score, d, s)
    ensures forall i, j :: 0 <= i < j < |s| ==> s[i] != s[j]
  {
    forall i, j | 0 <= i < j < |s| ensures s[i] != s[j] {
      OutranksTotal(score, d, s[i], s[j]);
    }
  }

  /** After losing node `n`, the replicas are exactly the first `r` of the
      `r + 1` there were, without `n`. */
  lemma {:induction false} MinimalDisruption(score: Score, d: Digest, ids: set<NodeName>, n: NodeName, r: nat)
    ensures var left := Removed(Replicas(score, d, ids, r + 1), n);
            Replicas(score, d, ids - {n}, r) == left[..Min(r, |left|)]
  {
    var s := Ranking(score, d, ids);
    var k := Min(r + 1, |s|);
    RankingIs(score, d, ids);
    RankingWithout(score, d, ids, n);
    RankedDistinct(score, d, s);
    RemovedPrefix(s, k, n);
    RemovedSize(s[..k], n);
    assert k == |s| ==> s[..k] == s;
  }

  /** Digests that were not placed on the lost node do not move. */
  lemma OthersStay(score: Score, d: Digest, ids: set<NodeName>, n: NodeName, r: nat)
    requires n !in Replicas(score, d, ids, r)
    ensures Replicas(score, d, ids - {n}, r) == Replicas(score, d, ids, r)
  {
    var s := Ranking(score, d, ids);
    var k := Min(r, |s|);
    RankingIs(score, d, ids);
    RankingWithout(score, d, ids, n);
    RankedDistinct(score, d, s);
    RemovedPrefix(s, k, n);
    RemovedSize(s[..k], n);
    RemovedSize(s, n);
    RemovedNone(s[..k], n);
    assert k == |s| ==> s[..k] == s;
  }

  lemma {:induction false} RemovedNone(s: seq<NodeName>, n: NodeName)
    requires n !in s
    ensures Removed(s, n) == s
  {
    if s != [] {
      RemovedNone(s[..|s| - 1], n);
      assert s == s[..|s| - 1] + [s[|s| - 1]];
    }
  }

  // ----- the selection -----

  /** Inserts a node where it belongs in a ranked listing. */
  method Place(score: Score, d: Digest, ranked: seq<NodeName>, x: NodeName) returns (out: seq<NodeName>)
    requires Ranked(score, d, ranked) && x !in ranked
    ensures Ranked(score, d, out) && forall n :: n in out <==> n in ranked || n == x
  {
    var k := 0;
    while k < |ranked| && Outranks(score, d, ranked[k], x)
      invariant 0 <= k <= |ranked| && forall i :: 0 <= i < k ==> Outranks(score, d, ranked[i], x)
    {
      k := k + 1;
    }
    forall i | k <= i < |ranked| ensures Outranks(score, d, x, ranked[i]) {
      assert ranked[k] in ranked;
      OutranksTotal(score, d, x, ranked[k]);
      if k < i {
        OutranksTransitive(score, d, x, ranked[k], ranked[i]);
      }
    }
    out := ranked[..k] + [x] + ranked[k..];
  }

  /** The result depends only on which nodes are eligible, not on their order. */
  method ReplicasFor(score: Score, d: Digest, nodes: seq<RingNode>, r: nat) returns (out: seq<NodeName>)
    requires DistinctIds(nodes)
    ensures out == Replicas(score, d, EligibleIds(nodes), r)
  {
    if r == 0 {
      return [];
    }
    var ranked := [];
    for k := 0 to |nodes|
      invariant Ranked(score, d, ranked) && forall n :: n in ranked <==> n in EligibleIds(nodes[..k])
    {
      EligibleNext(nodes, k);
      if IsEligible(nodes[k]) {
        ranked := Place(score, d, ranked, nodes[k].id);
      }
    }
    assert nodes[..|nodes|] == nodes;
    RankingUnique(score, d, ranked, EligibleIds(nodes));
    out := ranked[..Min(r, |ranked|)];
  }

  lemma EligibleNext(nodes: seq<RingNode>, k: nat)
    requires k < |nodes| && DistinctIds(nodes)
    ensures EligibleIds(nodes[..k + 1]) ==
            EligibleIds(nodes[..k]) + (if IsEligible(nodes[k]) then {nodes[k].id} else {})
    ensures nodes[k].id !in EligibleIds(nodes[..k])
  {
    var before, after := nodes[..k], nodes[..k + 1];
    forall n ensures n in EligibleIds(after) <==>
        n in EligibleIds(before) || (IsEligible(nodes[k]) && n == nodes[k].id) {
      if n in EligibleIds(before) {
        var i :| 0 <= i < |before| && IsEligible(before[i]) && before[i].id == n;
        assert after[i] == before[i];
      }
      if IsEligible(nodes[k]) && n == nodes[k].id {
        assert after[k] == nodes[k];
      }
      if n in EligibleIds(after) {
        var i :| 0 <= i < |after| && IsEligible(after[i]) && after[i].id == n;
        assert i < k ==> before[i] == after[i];
      }
    }
  }
}

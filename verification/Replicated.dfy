/** Quorum writes, fan-out reads (crates/brokkr-cas/src/replicated.rs) and peer repair
    (crates/brokkr-cas/src/peer.rs) over a fixed topology. */
module Replicated {
  import opened Common
  import opened Cas
  import opened Ring

  type Blobs = map<Digest, Bytes>

  type Stores = map<NodeName, Blobs>

  /** Who should hold a digest. */
  type Placement = Digest -> seq<NodeName>

  function WriteQuorum(r: nat): nat { if r == 0 then 0 else r / 2 + 1 }

  // ----- where blobs are -----

  /** The replicas that hold `d`. */
  function Holders(stores: Stores, replicas: seq<NodeName>, d: Digest): set<NodeName> {
    set n | n in stores && n in replicas && d in stores[n]
  }

  /** The replicas that accept a write now. */
  function Takers(stores: Stores, up: set<NodeName>, replicas: seq<NodeName>): set<NodeName> {
    set n | n in stores && n in replicas && n in up
  }

  predicate Serves(stores: Stores, up: set<NodeName>, d: Digest, n: NodeName) {
    n in stores && n in up && d in stores[n]
  }

  ghost predicate Readable(stores: Stores, up: set<NodeName>, replicas: seq<NodeName>, d: Digest) {
    exists n :: n in replicas && Serves(stores, up, d, n)
  }

  ghost predicate AllAuthentic(hash: Hash, stores: Stores) { forall n :: n in stores ==> Authentic(hash, stores[n]) }

  /** No store loses or changes a blob. */
  ghost predicate StoresGrow(before: Stores, after: Stores) {
    before.Keys == after.Keys && forall n, d :: n in before && d in before[n] ==>
        d in after[n] && after[n][d] == before[n][d]
  }

  /** One replica after a write reaches it. */
  function Stored(hash: Hash, stores: Stores, up: set<NodeName>, n: NodeName, d: Digest, data: Bytes): Stores {
    if n in stores && n in up && d == DigestOf(hash, data) then stores[n := stores[n][d := data]] else stores
  }

  /** The cluster after a write: the replicas that answer hold the blob if it verifies, nothing else changes. */
  function Spread(hash: Hash, stores: Stores, up: set<NodeName>, replicas: seq<NodeName>, d: Digest,
      data: Bytes): Stores {
    map n | n in stores :: if n in replicas && n in up && d == DigestOf(hash, data) then stores[n][d := data]
        else stores[n]
  }

  lemma SpreadKeeps(hash: Hash, stores: Stores, up: set<NodeName>, replicas: seq<NodeName>, d: Digest, data: Bytes)
    requires Injective(hash) && AllAuthentic(hash, stores)
    ensures AllAuthentic(hash, Spread(hash, stores, up, replicas, d, data)) &&
            StoresGrow(stores, Spread(hash, stores, up, replicas, d, data))
  {
    forall n | n in stores && d in stores[n] && d == DigestOf(hash, data) ensures stores[n][d] == data {
      OneBlob(hash, stores[n], d, data);
    }
  }

  lemma SpreadNext(hash: Hash, stores: Stores, up: set<NodeName>, replicas: seq<NodeName>, k: nat, d: Digest,
      data: Bytes)
    requires k < |replicas|
    ensures Spread(hash, stores, up, replicas[..k + 1], d, data) ==
            Stored(hash, Spread(hash, stores, up, replicas[..k], d, data), up, replicas[k], d, data)
  {
    assert replicas[..k + 1] == replicas[..k] + [replicas[k]];
    forall n | n in stores ensures stores[n][d := data][d := data] == stores[n][d := data] {
    }
  }

  // ----- durability -----

  /** A write quorum cannot be lost with half the replication factor. */
  lemma QuorumSurvives(holders: set<NodeName>, lost: set<NodeName>, r: nat) returns (n: NodeName)
    requires |holders| >= r / 2 + 1 && |lost| <= r / 2
    ensures n in holders && n !in lost
  {
    assert holders <= lost ==> lost == holders + (lost - holders);
    n :| n in holders && n !in lost;
  }

  /** A blob acknowledged by a quorum stays readable after any half of the
      replication factor goes down or loses its data. */
  lemma DurableRead(stores: Stores, after: Stores, up: set<NodeName>, replicas: seq<NodeName>, d: Digest, r: nat,
      lost: set<NodeName>)
    requires |Holders(stores, replicas, d)| >= r / 2 + 1 && |lost| <= r / 2
    requires forall n :: n in Holders(stores, replicas, d) && n !in lost ==> Serves(after, up, d, n)
    ensures Readable(after, up, replicas, d)
  {
    var n := QuorumSurvives(Holders(stores, replicas, d), lost, r);
    assert n in replicas && Serves(after, up, d, n);
  }

  class ReplicatedCas {
    const hash: Hash
    const score: Score
    const nodes: seq<RingNode>
    const r: nat
    /** The pool: one backend per node it knows. */
    var stores: Stores
    /** The nodes whose backend answers. */
    var up: set<NodeName>

    ghost predicate Valid()
      reads this
    {
      DistinctIds(nodes) && Injective(hash) && AllAuthentic(hash, stores)
    }

    function Assigned(d: Digest): seq<NodeName> { Replicas(score, d, EligibleIds(nodes), r) }

    constructor (hash: Hash, score: Score, nodes: seq<RingNode>, r: nat, stores: Stores, up: set<NodeName>)
      requires DistinctIds(nodes) && Injective(hash) && AllAuthentic(hash, stores)
      ensures Valid() && this.stores == stores && this.up == up
    {
      this.hash, this.score, this.nodes, this.r := hash, score, nodes, r;
      this.stores, this.up := stores, up;
    }

    /** Sends one blob to every replica and counts acknowledgements. */
    method FanOut(d: Digest, data: Bytes, replicas: seq<NodeName>) returns (acks: nat)
      requires Valid() && forall i, j :: 0 <= i < j < |replicas| ==> replicas[i] != replicas[j]
      modifies this`stores
      ensures Valid() && stores == Spread(hash, old(stores), up, replicas, d, data)
      ensures acks == if d == DigestOf(hash, data) then |Takers(old(stores), up, replicas)| else 0
    {
      acks := 0;
      ghost var before := stores;
      FanNone(hash, before, up, replicas, d, data);
      for k := 0 to |replicas|
        invariant Fanned(hash, before, stores, up, replicas, k, d, data, acks)
      {
        var n := replicas[k];
        FanOne(hash, before, stores, up, replicas, k, d, data, acks);
        if n in stores && n in up && d == DigestOf(hash, data) {
          acks := acks + 1;
        }
        stores := Stored(hash, stores, up, n, d, data);
      }
      assert replicas[..|replicas|] == replicas;
      SpreadKeeps(hash, before, up, replicas, d, data);
    }

    /** A blob is acknowledged once a quorum of its replicas holds it. */
    method WriteOne(d: Digest, data: Bytes) returns (ok: bool)
      requires Valid()
      modifies this`stores
      ensures Valid() && stores == Spread(hash, old(stores), up, Assigned(d), d, data)
      ensures ok <==> Accepted(hash, old(stores), up, Assigned(d), r, d, data)
      ensures ok ==> |Holders(stores, Assigned(d), d)| >= r / 2 + 1
    {
      var replicas := ReplicasFor(score, d, nodes, r);
      if replicas == [] {
        assert stores == Spread(hash, stores, up, [], d, data);
        return false;
      }
      AssignedDistinct(score, d, EligibleIds(nodes), r);
      var acks := FanOut(d, data, replicas);
      ok := acks >= WriteQuorum(r);
      if ok {
        SubsetCount(Takers(old(stores), up, replicas), Holders(stores, replicas, d));
      }
    }

    /** Every blob reported stored is held by a write quorum of its replicas. */
    method BatchUpdate(batch: seq<(Digest, Bytes)>) returns (out: seq<UpdateResult>)
      requires Valid()
      modifies this`stores
      ensures Valid() && stores == SpreadAll(hash, old(stores), up, Assigned, batch)
      ensures |out| == |batch| && forall i :: 0 <= i < |batch| ==>
              Settled(hash, old(stores), stores, up, Assigned, r, batch[i], out[i])
    {
      out := [];
      ghost var before := stores;
      for i := 0 to |batch|
        invariant Batched(hash, before, stores, up, Assigned, r, batch[..i], out)
      {
        ghost var was := stores;
        var ok := WriteOne(batch[i].0, batch[i].1);
        assert batch[..i + 1] == batch[..i] + [batch[i]];
        BatchedNext(hash, before, was, up, Assigned, r, batch[..i], out, batch[i], UpdateResult(batch[i].0, ok));
        out := out + [UpdateResult(batch[i].0, ok)];
      }
      assert batch[..|batch|] == batch;
    }

    method BatchRead(ds: seq<Digest>) returns (out: seq<Result<Bytes, CasError>>)
      requires Valid()
      ensures |out| == |ds|
      ensures forall i :: 0 <= i < |ds| ==> (out[i].Ok? <==> Readable(stores, up, Assigned(ds[i]), ds[i]))
      ensures forall i :: 0 <= i < |ds| && out[i].Ok? ==> ds[i] == DigestOf(hash, out[i].value)
    {
      out := [];
      for i := 0 to |ds|
        invariant |out| == i
        invariant forall k :: 0 <= k < i ==> (out[k].Ok? <==> Readable(stores, up, Assigned(ds[k]), ds[k]))
        invariant forall k :: 0 <= k < i && out[k].Ok? ==> ds[k] == DigestOf(hash, out[k].value)
      {
        var found := ReadOne(ds[i]);
        out := out + [found];
      }
    }

    /** Groups digests by primary; a digest without replicas ends the grouping. */
    method GroupByPrimary(ds: seq<Digest>) returns (groups: Option<map<NodeName, Group>>)
      requires Valid()
      ensures groups.None? <==> exists k :: 0 <= k < |ds| && Assigned(ds[k]) == []
      ensures groups.Some? ==> Grouped(groups.value, ds, |ds|, Assigned)
    {
      var byNode: map<NodeName, Group> := map[];
      for i := 0 to |ds|
        invariant Grouped(byNode, ds, i, Assigned)
      {
        var replicas := ReplicasFor(score, ds[i], nodes, r);
        if replicas == [] {
          return None;
        }
        var primary := replicas[0];
        GroupedNext(byNode, ds, i, Assigned);
        byNode := byNode[primary := if primary in byNode then
            byNode[primary].(digests := byNode[primary].digests + [ds[i]])
                                    else Group([ds[i]], replicas)];
      }
      return Some(byNode);
    }

    /** The first reachable replica of a group answers for all of it. */
    method AskGroup(g: Group) returns (missing: seq<Digest>)
      ensures forall d :: d in missing <==> d in g.digests && Unseen(stores, up, g.replicas, d)
    {
      for k := 0 to |g.replicas|
        invariant FirstUp(stores, up, g.replicas) == FirstUp(stores, up, g.replicas[k..])
      {
        var n := g.replicas[k];
        assert g.replicas[k..][1..] == g.replicas[k + 1..];
        if n in stores && n in up {
          missing := Missing(stores[n], g.digests);
          forall d ensures d in missing <==> d in g.digests && d !in stores[n] {
            MissingIs(stores[n], g.digests, d);
          }
          return;
        }
      }
      missing := g.digests;
    }

    /** A digest is reported missing exactly when some digest has no replicas at
        all, or the replica that answers for its primary does not hold it. */
    method FindMissing(ds: seq<Digest>) returns (missing: seq<Digest>)
      requires Valid()
      ensures forall d :: d in missing <==>
              d in ds && ((exists k :: 0 <= k < |ds| && Assigned(ds[k]) == []) ||
                  Overlooked(stores, up, ds, Assigned, d))
    {
      var groups := GroupByPrimary(ds);
      if groups.None? {
        return ds;
      }
      missing := AskAll(groups.value);
      forall d ensures d in missing <==> d in ds && Overlooked(stores, up, ds, Assigned, d) {
        GroupAnswers(stores, up, groups.value, ds, Assigned, d);
      }
    }

    method AskAll(groups: map<NodeName, Group>) returns (missing: seq<Digest>)
      ensures forall d :: d in missing <==> InReports(stores, up, groups, groups.Keys, d)
    {
      missing := [];
      var rest := groups.Keys;
      ghost var done: set<NodeName> := {};
      while rest != {}
        invariant done + rest == groups.Keys
        invariant forall d :: d in missing <==> InReports(stores, up, groups, done, d)
        decreases |rest|
      {
        var p :| p in rest;
        var more := AskGroup(groups[p]);
        forall d ensures d in missing + more <==> InReports(stores, up, groups, done + {p}, d) {
          ReportNext(stores, up, groups, done, p, d);
        }
        missing, rest, done := missing + more, rest - {p}, done + {p};
      }
      assert done == groups.Keys;
    }

    /** Reads from the first replica that answers with the blob. */
    method ReadOne(d: Digest) returns (found: Result<Bytes, CasError>)
      requires Valid()
      ensures found.Ok? <==> Readable(stores, up, Assigned(d), d)
      ensures found.Ok? ==> d == DigestOf(hash, found.value)
      ensures found.Err? ==> found.error == NotFound(d)
    {
      var replicas := ReplicasFor(score, d, nodes, r);
      for k := 0 to |replicas|
        invariant forall i :: 0 <= i < k ==> !Serves(stores, up, d, replicas[i])
      {
        if Serves(stores, up, d, replicas[k]) {
          assert replicas[k] in replicas;
          return Ok(stores[replicas[k]][d]);
        }
      }
      return Err(NotFound(d));
    }
  }

  /** The blob verifies and enough of its replicas answer. */
  predicate Accepted(hash: Hash, stores: Stores, up: set<NodeName>, replicas: seq<NodeName>, r: nat, d: Digest,
      data: Bytes) {
    replicas != [] && d == DigestOf(hash, data) && |Takers(stores, up, replicas)| >= WriteQuorum(r)
  }

  /** The cluster after the writes of a batch, one by one. */
  function SpreadAll(hash: Hash, stores: Stores, up: set<NodeName>, place: Placement,
      batch: seq<(Digest, Bytes)>): Stores {
    if batch == [] then stores
    else
      var (d, data) := batch[|batch| - 1];
      Spread(hash, SpreadAll(hash, stores, up, place, batch[..|batch| - 1]), up, place(d), d, data)
  }

  /** The report on one write: acknowledged exactly when a quorum took it, and then a quorum holds it. */
  ghost predicate Settled(hash: Hash, before: Stores, now: Stores, up: set<NodeName>, place: Placement, r: nat,
      w: (Digest, Bytes), res: UpdateResult) {
    && res.digest == w.0 && (res.ok <==> Accepted(hash, before, up, place(w.0), r, w.0, w.1))
    && (res.ok ==> |Holders(now, place(w.0), w.0)| >= r / 2 + 1)
  }

  ghost predicate Batched(hash: Hash, before: Stores, now: Stores, up: set<NodeName>, place: Placement, r: nat,
      batch: seq<(Digest, Bytes)>, out: seq<UpdateResult>) {
    && |out| == |batch| && now == SpreadAll(hash, before, up, place, batch)
    && Injective(hash) && AllAuthentic(hash, now) && StoresGrow(before, now)
    && forall i :: 0 <= i < |batch| ==> Settled(hash, before, now, up, place, r, batch[i], out[i])
  }

  lemma BatchedNext(hash: Hash, before: Stores, was: Stores, up: set<NodeName>, place: Placement, r: nat,
      batch: seq<(Digest, Bytes)>, out: seq<UpdateResult>, w: (Digest, Bytes), res: UpdateResult)
    requires Batched(hash, before, was, up, place, r, batch, out)
    requires Settled(hash, was, Spread(hash, was, up, place(w.0), w.0, w.1), up, place, r, w, res)
    ensures Batched(hash, before, Spread(hash, was, up, place(w.0), w.0, w.1), up, place, r, batch + [w], out + [res])
  {
    var now := Spread(hash, was, up, place(w.0), w.0, w.1);
    SpreadKeeps(hash, was, up, place(w.0), w.0, w.1);
    GrowTrans(before, was, now);
    assert (batch + [w])[..|batch|] == batch;
    assert Takers(was, up, place(w.0)) == Takers(before, up, place(w.0));
    forall i | 0 <= i < |batch| ensures Settled(hash, before, now, up, place, r, batch[i], out[i]) {
      assert Settled(hash, before, was, up, place, r, batch[i], out[i]);
      HoldersGrow(was, now, place(batch[i].0), batch[i].0);
    }
  }

  /** Digests that share a primary, with the replicas of the first of them. */
  datatype Group = Group(digests: seq<Digest>, replicas: seq<NodeName>)

  /** The first replica whose backend answers. */
  function FirstUp(stores: Stores, up: set<NodeName>, replicas: seq<NodeName>): Option<NodeName> {
    if replicas == [] then None
    else if replicas[0] in stores && replicas[0] in up then Some(replicas[0])
    else FirstUp(stores, up, replicas[1..])
  }

  lemma {:induction false} FirstUpServes(stores: Stores, up: set<NodeName>, replicas: seq<NodeName>)
    ensures FirstUp(stores, up, replicas).Some? ==>
              var n := FirstUp(stores, up, replicas).value; n in replicas && n in stores && n in up
    ensures FirstUp(stores, up, replicas).None? ==> forall n :: n in replicas ==> n !in stores || n !in up
  {
    if replicas != [] {
      FirstUpServes(stores, up, replicas[1..]);
    }
  }

  /** Nobody answers, or the one who does lacks `d`. */
  ghost predicate Unseen(stores: Stores, up: set<NodeName>, replicas: seq<NodeName>, d: Digest) {
    FirstUpServes(stores, up, replicas);
    match FirstUp(stores, up, replicas) case None => true case Some(n) => d !in stores[n]
  }

  ghost predicate Reported(stores: Stores, up: set<NodeName>, g: Group, d: Digest) {
    d in g.digests && Unseen(stores, up, g.replicas, d)
  }

  /** One of the groups in `ps` reports `d`. */
  ghost predicate InReports(stores: Stores, up: set<NodeName>, groups: map<NodeName, Group>, ps: set<NodeName>,
      d: Digest) {
    exists p :: p in ps && p in groups && Reported(stores, up, groups[p], d)
  }

  lemma ReportNext(stores: Stores, up: set<NodeName>, groups: map<NodeName, Group>, ps: set<NodeName>, p: NodeName,
      d: Digest)
    requires p in groups
    ensures InReports(stores, up, groups, ps + {p}, d) <==>
            InReports(stores, up, groups, ps, d) || Reported(stores, up, groups[p], d)
  {
  }

  /** `ds[k]` is the first digest asked about whose primary is `p`. */
  ghost predicate Leads(ds: seq<Digest>, place: Placement, k: nat, p: NodeName) {
    && k < |ds| && place(ds[k]) != [] && place(ds[k])[0] == p
    && forall j :: 0 <= j < k ==> place(ds[j]) == [] || place(ds[j])[0] != p
  }

  /** The replicas of the first digest with `d`'s primary do not show `d`. */
  ghost predicate Overlooked(stores: Stores, up: set<NodeName>, ds: seq<Digest>, place: Placement, d: Digest) {
    place(d) != [] && exists k: nat :: Leads(ds, place, k, place(d)[0]) && Unseen(stores, up, place(ds[k]), d)
  }

  ghost predicate GroupOk(g: Group, ds: seq<Digest>, place: Placement, p: NodeName) {
    && (forall d :: d in g.digests ==> d in ds && place(d) != [] && place(d)[0] == p)
    && exists k: nat :: Leads(ds, place, k, p) && g.replicas == place(ds[k])
  }

  /** The first `i` digests are grouped by primary, and nothing else is. */
  ghost predicate Grouped(groups: map<NodeName, Group>, ds: seq<Digest>, i: nat, place: Placement) {
    && i <= |ds| && (forall k :: 0 <= k < i ==>
         place(ds[k]) != [] && place(ds[k])[0] in groups && ds[k] in groups[place(ds[k])[0]].digests)
    && (forall p :: p in groups ==> GroupOk(groups[p], ds, place, p))
  }

  lemma GroupedNext(groups: map<NodeName, Group>, ds: seq<Digest>, i: nat, place: Placement)
    requires Grouped(groups, ds, i, place) && i < |ds| && place(ds[i]) != []
    ensures var p := place(ds[i])[0];
            Grouped(groups[p := if p in groups then groups[p].(digests := groups[p].digests + [ds[i]])
                else Group([ds[i]], place(ds[i]))], ds, i + 1, place)
  {
    var p := place(ds[i])[0];
    if p in groups {
      GroupGrows(groups[p], ds, place, p, i);
    } else {
      assert Leads(ds, place, i, p);
    }
  }

  lemma GroupGrows(g: Group, ds: seq<Digest>, place: Placement, p: NodeName, i: nat)
    requires GroupOk(g, ds, place, p) && i < |ds| && place(ds[i]) != [] && place(ds[i])[0] == p
    ensures GroupOk(g.(digests := g.digests + [ds[i]]), ds, place, p)
  {
    var k: nat :| Leads(ds, place, k, p) && g.replicas == place(ds[k]);
    assert g.(digests := g.digests + [ds[i]]).replicas == place(ds[k]);
  }

  /** Asking group by group reports what asking digest by digest would. */
  lemma GroupAnswers(stores: Stores, up: set<NodeName>, groups: map<NodeName, Group>, ds: seq<Digest>, place: Placement,
      d: Digest)
    requires Grouped(groups, ds, |ds|, place)
    ensures InReports(stores, up, groups, groups.Keys, d) <==> d in ds && Overlooked(stores, up, ds, place, d)
  {
    if d in ds {
      var i :| 0 <= i < |ds| && ds[i] == d;
      var p := place(d)[0];
      OwnGroup(groups, ds, place, d, p);
      GroupSees(stores, up, groups[p], ds, place, d, p);
    } else {
      forall q | q in groups ensures d !in groups[q].digests {
        assert GroupOk(groups[q], ds, place, q);
      }
    }
  }

  lemma OwnGroup(groups: map<NodeName, Group>, ds: seq<Digest>, place: Placement, d: Digest, p: NodeName)
    requires Grouped(groups, ds, |ds|, place) && d in ds && place(d) != [] && place(d)[0] == p
    ensures p in groups && d in groups[p].digests && GroupOk(groups[p], ds, place, p)
    ensures forall q :: q in groups && d in groups[q].digests ==> q == p
  {
    var i :| 0 <= i < |ds| && ds[i] == d;
    forall q | q in groups && d in groups[q].digests ensures q == p {
      assert GroupOk(groups[q], ds, place, q);
    }
  }

  lemma GroupSees(stores: Stores, up: set<NodeName>, g: Group, ds: seq<Digest>, place: Placement, d: Digest,
      p: NodeName)
    requires GroupOk(g, ds, place, p) && d in g.digests && place(d) != [] && place(d)[0] == p
    ensures Reported(stores, up, g, d) <==> Overlooked(stores, up, ds, place, d)
  {
    var k: nat :| Leads(ds, place, k, p) && g.replicas == place(ds[k]);
    forall j: nat | Leads(ds, place, j, p) ensures j == k {
    }
  }

  /** Whatever is not reported missing is on some reachable node; it is
      readable if stores hold only what is assigned to them. */
  lemma LeftOutIsReadable(stores: Stores, up: set<NodeName>, ds: seq<Digest>, place: Placement, d: Digest)
    requires d in ds && (forall k :: 0 <= k < |ds| ==> place(ds[k]) != []) && !Overlooked(stores, up, ds, place, d)
    ensures Somewhere(stores, up, d)
    ensures (forall n :: n in stores && d in stores[n] ==> n in place(d)) ==> Readable(stores, up, place(d), d)
  {
    var i :| 0 <= i < |ds| && ds[i] == d;
    var k := FirstLeads(ds, place, i, place(d)[0]);
    var n := FirstUp(stores, up, place(ds[k])).value;
    FirstUpServes(stores, up, place(ds[k]));
    assert Serves(stores, up, d, n);
  }

  lemma {:induction false} FirstLeads(ds: seq<Digest>, place: Placement, i: nat, p: NodeName) returns (k: nat)
    requires i < |ds| && place(ds[i]) != [] && place(ds[i])[0] == p
    ensures Leads(ds, place, k, p)
  {
    k := i;
    if j :| 0 <= j < i && place(ds[j]) != [] && place(ds[j])[0] == p {
      k := FirstLeads(ds, place, j, p);
    }
  }

  ghost predicate Somewhere(stores: Stores, up: set<NodeName>, d: Digest) { exists n :: Serves(stores, up, d, n) }

  lemma HoldersGrow(before: Stores, after: Stores, replicas: seq<NodeName>, d: Digest)
    requires StoresGrow(before, after)
    ensures |Holders(before, replicas, d)| <= |Holders(after, replicas, d)|
  {
    SubsetCount(Holders(before, replicas, d), Holders(after, replicas, d));
  }

  lemma AssignedDistinct(score: Score, d: Digest, ids: set<NodeName>, r: nat)
    ensures forall i, j ::
              0 <= i < j < |Replicas(score, d, ids, r)| ==>
                  Replicas(score, d, ids, r)[i] != Replicas(score, d, ids, r)[j]
    ensures r == 0 ==> Replicas(score, d, ids, r) == []
  {
    RankingIs(score, d, ids);
    RankedDistinct(score, d, Ranking(score, d, ids));
  }

  /** After fanning out to the first `k` replicas. */
  ghost predicate Fanned(hash: Hash, before: Stores, now: Stores, up: set<NodeName>, replicas: seq<NodeName>, k: nat,
      d: Digest, data: Bytes, acks: nat) {
    && k <= |replicas| && now == Spread(hash, before, up, replicas[..k], d, data)
    && acks == (if d == DigestOf(hash, data) then |Takers(before, up, replicas[..k])| else 0)
  }

  lemma FanNone(hash: Hash, before: Stores, up: set<NodeName>, replicas: seq<NodeName>, d: Digest, data: Bytes)
    ensures Fanned(hash, before, before, up, replicas, 0, d, data, 0)
  {
    assert Spread(hash, before, up, replicas[..0], d, data) == before;
    assert Takers(before, up, replicas[..0]) == {};
  }

  lemma FanOne(hash: Hash, before: Stores, now: Stores, up: set<NodeName>, replicas: seq<NodeName>, k: nat, d: Digest,
      data: Bytes, acks: nat)
    requires Fanned(hash, before, now, up, replicas, k, d, data, acks) && k < |replicas|
    requires forall i, j :: 0 <= i < j < |replicas| ==> replicas[i] != replicas[j]
    ensures Fanned(hash, before, Stored(hash, now, up, replicas[k], d, data), up, replicas, k + 1, d, data,
                   acks + if replicas[k] in now && replicas[k] in up && d == DigestOf(hash, data) then 1 else 0)
  {
    TakersNext(before, up, replicas, k);
    SpreadNext(hash, before, up, replicas, k, d, data);
  }

  lemma GrowTrans(a: Stores, b: Stores, c: Stores)
    requires StoresGrow(a, b) && StoresGrow(b, c)
    ensures StoresGrow(a, c)
  {
  }

  lemma TakersNext(stores: Stores, up: set<NodeName>, replicas: seq<NodeName>, k: nat)
    requires k < |replicas| && forall i, j :: 0 <= i < j < |replicas| ==> replicas[i] != replicas[j]
    ensures Takers(stores, up, replicas[..k + 1]) ==
            Takers(stores, up, replicas[..k]) +
                (if replicas[k] in stores && replicas[k] in up then {replicas[k]} else {})
    ensures replicas[k] !in Takers(stores, up, replicas[..k])
  {
    assert replicas[..k + 1] == replicas[..k] + [replicas[k]];
  }

  lemma SubsetCount<T>(a: set<T>, b: set<T>)
    requires a <= b
    ensures |a| <= |b|
  {
    assert b == a + (b - a);
  }
}

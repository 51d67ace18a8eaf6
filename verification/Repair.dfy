/** Peer repair (crates/brokkr-cas/src/peer.rs). */
module Repair {
  import opened Common
  import opened Cas
  import opened Ring
  import opened Replicated

  datatype RepairError = UnknownNode(id: NodeName) | ListFailed(id: NodeName)

  datatype Report = Report(expected: nat, alreadyPresent: nat, repaired: nat, unrepairable: seq<Digest>)

  ghost predicate HeldByAssigned(stores: Stores, place: Placement, d: Digest) {
    exists n :: n in place(d) && n in stores && d in stores[n]
  }

  /** Everything any store of the topology holds. */
  function Universe(stores: Stores, ids: set<NodeName>): set<Digest> {
    set n, d | n in ids && n in stores && d in stores[n] :: d
  }

  /** What `target` should hold and some assigned replica can supply. */
  ghost function Owed(stores: Stores, ids: set<NodeName>, place: Placement, target: NodeName): set<Digest> {
    set d | d in Universe(stores, ids) && target in place(d) && HeldByAssigned(stores, place, d)
  }

  /** Only `target` changes, and it gains exactly `gained`. */
  ghost predicate Gains(before: Stores, after: Stores, target: NodeName, gained: set<Digest>) {
    && before.Keys == after.Keys && target in before
    && (forall n :: n in before && n != target ==> after[n] == before[n])
    && after[target].Keys == before[target].Keys + gained
    && StoresGrow(before, after)
  }

  /** How one digest fares in a pass over `target`. */
  datatype Fate = NotAssigned | Present | Fixed | Hopeless

  ghost function FateOf(stores: Stores, place: Placement, target: NodeName, d: Digest): Fate
    requires target in stores
  {
    if target !in place(d) then NotAssigned
    else if d in stores[target] then Present
    else if HeldByAssigned(stores, place, d) then Fixed
    else Hopeless
  }

  ghost function With(stores: Stores, place: Placement, target: NodeName, ds: set<Digest>, fate: Fate): set<Digest>
    requires target in stores
  {
    set d | d in ds && FateOf(stores, place, target, d) == fate
  }

  lemma WithNext(stores: Stores, place: Placement, target: NodeName, ds: set<Digest>, d: Digest, fate: Fate)
    requires target in stores && d !in ds
    ensures With(stores, place, target, ds + {d}, fate) ==
            With(stores, place, target, ds, fate) + (if FateOf(stores, place, target, d) == fate then {d} else {})
    ensures d !in With(stores, place, target, ds, fate)
  {
  }

  /** After the digests in `done`: the target has what could be fixed, and the counts say so. */
  ghost predicate Tallied(before: Stores, now: Stores, place: Placement, target: NodeName, done: set<Digest>,
      rep: Report) {
    && target in before && Gains(before, now, target, With(before, place, target, done, Fixed))
    && Counts(before, place, target, done, rep)
  }

  ghost predicate Counts(before: Stores, place: Placement, target: NodeName, done: set<Digest>, rep: Report)
    requires target in before
  {
    && rep.alreadyPresent == |With(before, place, target, done, Present)|
    && rep.repaired == |With(before, place, target, done, Fixed)|
    && |rep.unrepairable| == |With(before, place, target, done, Hopeless)|
    && (forall d :: d in rep.unrepairable <==> d in With(before, place, target, done, Hopeless))
    && rep.expected == rep.alreadyPresent + rep.repaired + |rep.unrepairable|
  }

  /** Adding one fixed digest to the target. */
  lemma GainOne(before: Stores, now: Stores, after: Stores, target: NodeName, gained: set<Digest>, d: Digest)
    requires Gains(before, now, target, gained) && Gains(now, after, target, {d})
    ensures Gains(before, after, target, gained + {d})
  {
    GrowTrans(before, now, after);
  }

  /** The report once `d` has been dealt with. */
  function Counted(rep: Report, fate: Fate, d: Digest): Report {
    match fate
    case NotAssigned => rep
    case Present => rep.(expected := rep.expected + 1, alreadyPresent := rep.alreadyPresent + 1)
    case Fixed => rep.(expected := rep.expected + 1, repaired := rep.repaired + 1)
    case Hopeless => rep.(expected := rep.expected + 1, unrepairable := rep.unrepairable + [d])
  }

  lemma TallyOne(before: Stores, now: Stores, after: Stores, place: Placement, target: NodeName, done: set<Digest>,
      rep: Report, d: Digest, fate: Fate)
    requires Tallied(before, now, place, target, done, rep) && d !in done
    requires fate == FateOf(before, place, target, d) && if fate == Fixed then Gains(now, after, target, {d})
             else after == now
    ensures Tallied(before, after, place, target, done + {d}, Counted(rep, fate, d))
  {
    CountOne(before, place, target, done, rep, d, fate);
    WithNext(before, place, target, done, d, Fixed);
    if fate == Fixed {
      GainOne(before, now, after, target, With(before, place, target, done, Fixed), d);
    }
  }

  lemma CountOne(before: Stores, place: Placement, target: NodeName, done: set<Digest>, rep: Report, d: Digest,
      fate: Fate)
    requires target in before && Counts(before, place, target, done, rep) && d !in done &&
             fate == FateOf(before, place, target, d)
    ensures Counts(before, place, target, done + {d}, Counted(rep, fate, d))
  {
    WithCount(before, place, target, done, d, Present);
    WithCount(before, place, target, done, d, Fixed);
    WithCount(before, place, target, done, d, Hopeless);
    WithNext(before, place, target, done, d, Hopeless);
  }

  lemma WithCount(before: Stores, place: Placement, target: NodeName, done: set<Digest>, d: Digest, fate: Fate)
    requires target in before && d !in done
    ensures |With(before, place, target, done + {d}, fate)| ==
            |With(before, place, target, done, fate)| + if FateOf(before, place, target, d) == fate then 1 else 0
  {
    WithNext(before, place, target, done, d, fate);
  }

  /** Another assigned replica than `target` holds `d`. */
  ghost predicate Supplied(stores: Stores, replicas: seq<NodeName>, target: NodeName, d: Digest) {
    exists n :: n in replicas && n != target && n in stores && d in stores[n]
  }

  /** Reading now or before the pass decides the same fate. */
  lemma SameFate(before: Stores, now: Stores, place: Placement, target: NodeName, done: set<Digest>, rep: Report,
      d: Digest)
    requires Tallied(before, now, place, target, done, rep)
    ensures FateOf(before, place, target, d) ==
            if target !in place(d) then NotAssigned else if d in before[target] then Present
            else if Supplied(now, place(d), target, d) then Fixed else Hopeless
  {
    if d !in before[target] {
      if HeldByAssigned(before, place, d) {
        var n :| n in place(d) && n in before && d in before[n];
        assert n != target && n in now && d in now[n];
      }
      if Supplied(now, place(d), target, d) {
        var n :| n in place(d) && n != target && n in now && d in now[n];
        assert n in before && d in before[n];
      }
    }
  }

  /** Every store of the topology answers, and so does `target`'s. */
  ghost predicate Answering(c: ReplicatedCas, target: NodeName)
    reads c
  {
    AllUp(c.nodes, c.stores.Keys, c.up) && target in c.up
  }

  ghost predicate AllUp(nodes: seq<RingNode>, known: set<NodeName>, up: set<NodeName>) {
    forall k :: 0 <= k < |nodes| && nodes[k].id in known ==> nodes[k].id in up
  }

  lemma AssignedInTopology(c: ReplicatedCas, d: Digest, n: NodeName)
    requires n in c.Assigned(d)
    ensures exists k :: 0 <= k < |c.nodes| && c.nodes[k].id == n
  {
    RankingIs(c.score, d, EligibleIds(c.nodes));
    assert n in EligibleIds(c.nodes);
  }

  function TopologyIds(nodes: seq<RingNode>): set<NodeName> { set k | 0 <= k < |nodes| :: nodes[k].id }

  lemma StoredKeeps(hash: Hash, stores: Stores, up: set<NodeName>, n: NodeName, d: Digest, data: Bytes)
    requires Injective(hash) && AllAuthentic(hash, stores)
    ensures AllAuthentic(hash, Stored(hash, stores, up, n, d, data)) &&
            StoresGrow(stores, Stored(hash, stores, up, n, d, data))
  {
    if n in stores && d in stores[n] && d == DigestOf(hash, data) {
      OneBlob(hash, stores[n], d, data);
    }
  }

  /** Pulls one digest from the first other replica that has it. */
  method Pull(c: ReplicatedCas, target: NodeName, d: Digest, replicas: seq<NodeName>) returns (pulled: bool)
    requires c.Valid() && target in c.stores && target in c.up && forall n :: n in replicas && n in c.stores ==>
             n in c.up
    modifies c`stores
    ensures c.Valid() && (pulled <==> Supplied(old(c.stores), replicas, target, d))
    ensures if pulled then Gains(old(c.stores), c.stores, target, {d}) else c.stores == old(c.stores)
  {
    for k := 0 to |replicas|
      invariant c.stores == old(c.stores)
      invariant forall i ::
                  0 <= i < k ==> !(replicas[i] != target && replicas[i] in c.stores && d in c.stores[replicas[i]])
    {
      var n := replicas[k];
      if n == target || n !in c.stores || n !in c.up || d !in c.stores[n] {
        continue;
      }
      var data := c.stores[n][d];
      assert n in replicas && d == DigestOf(c.hash, data);
      StoredKeeps(c.hash, c.stores, c.up, target, d, data);
      c.stores := Stored(c.hash, c.stores, c.up, target, d, data);
      return true;
    }
    return false;
  }

  /** Finds out, and acts on, what is to be done with one digest. */
  method Settle(c: ReplicatedCas, target: NodeName, local: set<Digest>, d: Digest) returns (fate: Fate)
    requires c.Valid() && Answering(c, target) && target in c.stores
    modifies c`stores
    ensures c.Valid() && Answering(c, target)
    ensures fate == NotAssigned <==> target !in c.Assigned(d)
    ensures fate == Present <==> target in c.Assigned(d) && d in local
    ensures fate == Fixed <==>
            target in c.Assigned(d) && d !in local && Supplied(old(c.stores), c.Assigned(d), target, d)
    ensures if fate == Fixed then Gains(old(c.stores), c.stores, target, {d}) else c.stores == old(c.stores)
  {
    var replicas := ReplicasFor(c.score, d, c.nodes, c.r);
    if target !in replicas {
      return NotAssigned;
    }
    if d in local {
      return Present;
    }
    forall n | n in replicas && n in c.stores ensures n in c.up {
      AssignedInTopology(c, d, n);
    }
    var pulled := Pull(c, target, d, replicas);
    return if pulled then Fixed else Hopeless;
  }

  /** A pass over `target` has dealt with `done`. */
  ghost predicate Pass(c: ReplicatedCas, before: Stores, target: NodeName, done: set<Digest>, rep: Report)
    reads c
  {
    c.Valid() && Answering(c, target) && Tallied(before, c.stores, c.Assigned, target, done, rep)
  }

  /** Deals with one digest of the universe. */
  method RepairDigest(c: ReplicatedCas, target: NodeName, local: set<Digest>, d: Digest, rep: Report,
      ghost before: Stores, ghost done: set<Digest>)
    returns (rep': Report)
    requires Pass(c, before, target, done, rep) && d !in done && local == before[target].Keys
    modifies c`stores
    ensures Pass(c, before, target, done + {d}, rep')
  {
    ghost var now := c.stores;
    SameFate(before, now, c.Assigned, target, done, rep, d);
    var fate := Settle(c, target, local, d);
    TallyOne(before, now, c.stores, c.Assigned, target, done, rep, d, fate);
    rep' := Counted(rep, fate, d);
  }

  /** The union of what the reachable stores hold. */
  method Scan(c: ReplicatedCas) returns (r: Result<set<Digest>, RepairError>)
    requires c.Valid()
    ensures r.Ok? ==> r.value == Universe(c.stores, TopologyIds(c.nodes))
    ensures r.Ok? <==> AllUp(c.nodes, c.stores.Keys, c.up)
  {
    var universe: set<Digest> := {};
    for k := 0 to |c.nodes|
      invariant Scanned(c.nodes, c.stores, c.up, k, universe)
    {
      var n := c.nodes[k].id;
      ScanNext(c.nodes, c.stores, c.up, k, universe);
      if n in c.stores {
        if n !in c.up {
          return Err(ListFailed(n));
        }
        universe := universe + c.stores[n].Keys;
      }
    }
    assert c.nodes[..|c.nodes|] == c.nodes;
    return Ok(universe);
  }

  /** The stores of the first `k` nodes all answered, and list `universe`. */
  ghost predicate Scanned(nodes: seq<RingNode>, stores: Stores, up: set<NodeName>, k: nat, universe: set<Digest>) {
    k <= |nodes| && AllUp(nodes[..k], stores.Keys, up) && universe == Universe(stores, TopologyIds(nodes[..k]))
  }

  lemma ScanNext(nodes: seq<RingNode>, stores: Stores, up: set<NodeName>, k: nat, universe: set<Digest>)
    requires k < |nodes| && Scanned(nodes, stores, up, k, universe)
    ensures nodes[k].id !in stores ==> Scanned(nodes, stores, up, k + 1, universe)
    ensures nodes[k].id in stores && nodes[k].id in up ==>
            Scanned(nodes, stores, up, k + 1, universe + stores[nodes[k].id].Keys)
    ensures nodes[k].id in stores && nodes[k].id !in up ==> !AllUp(nodes, stores.Keys, up)
  {
    TopologyNext(nodes, k);
    UniverseNext(stores, TopologyIds(nodes[..k]), nodes[k].id);
    assert nodes[k].id in stores ==> nodes[k].id in stores.Keys;
  }

  lemma UniverseNext(stores: Stores, ids: set<NodeName>, n: NodeName)
    ensures Universe(stores, ids + {n}) == Universe(stores, ids) + if n in stores then stores[n].Keys else {}
  {
  }

  lemma TopologyNext(nodes: seq<RingNode>, k: nat)
    requires k < |nodes|
    ensures TopologyIds(nodes[..k + 1]) == TopologyIds(nodes[..k]) + {nodes[k].id}
  {
    var before, after := nodes[..k], nodes[..k + 1];
    forall n ensures n in TopologyIds(after) <==> n in TopologyIds(before) || n == nodes[k].id {
      if n in TopologyIds(before) {
        var i :| 0 <= i < |before| && before[i].id == n;
        assert after[i] == before[i];
      }
      assert after[k] == nodes[k];
      if n in TopologyIds(after) {
        var i :| 0 <= i < |after| && after[i].id == n;
        assert i < k ==> before[i] == after[i];
      }
    }
  }

  /** One pass over one node: it gains exactly what it is assigned and an
      assigned replica can supply, and the report accounts for every digest. */
  method RepairNode(c: ReplicatedCas, target: NodeName) returns (r: Result<Report, RepairError>)
    requires c.Valid()
    modifies c`stores
    ensures c.Valid() && c.stores.Keys == old(c.stores).Keys
    ensures r.Ok? <==> target in old(c.stores) && AllUp(c.nodes, old(c.stores).Keys, c.up) && target in c.up
    ensures r.Err? ==> c.stores == old(c.stores)
    ensures r.Ok? ==> Tallied(old(c.stores), c.stores, c.Assigned, target,
            Universe(old(c.stores), TopologyIds(c.nodes)), r.value)
  {
    if target !in c.stores {
      return Err(UnknownNode(target));
    }
    var scan := Scan(c);
    if scan.Err? {
      return Err(scan.error);
    }
    if target !in c.up {
      return Err(ListFailed(target));
    }
    var rep := RepairAll(c, target, scan.value);
    return Ok(rep);
  }

  function Elements(ds: seq<Digest>): set<Digest> { set d | d in ds }

  lemma ElementsNext(ds: seq<Digest>, i: nat)
    requires i < |ds| && forall a, b :: 0 <= a < b < |ds| ==> ds[a] != ds[b]
    ensures Elements(ds[..i + 1]) == Elements(ds[..i]) + {ds[i]} && ds[i] !in Elements(ds[..i])
  {
    assert ds[..i + 1] == ds[..i] + [ds[i]];
  }

  /** The digests of a set in some order, as iterating over it yields them. */
  method Iterate(s: set<Digest>) returns (ds: seq<Digest>)
    ensures Elements(ds) == s && forall a, b :: 0 <= a < b < |ds| ==> ds[a] != ds[b]
  {
    ds := [];
    var rest := s;
    while rest != {}
      invariant rest <= s && Elements(ds) == s - rest && forall a, b :: 0 <= a < b < |ds| ==> ds[a] != ds[b]
      decreases |rest|
    {
      var d :| d in rest;
      assert d !in Elements(ds);
      assert Elements(ds + [d]) == Elements(ds) + {d};
      ds := ds + [d];
      rest := rest - {d};
    }
  }

  method RepairAll(c: ReplicatedCas, target: NodeName, universe: set<Digest>) returns (rep: Report)
    requires c.Valid() && Answering(c, target) && target in c.stores
    modifies c`stores
    ensures Pass(c, old(c.stores), target, universe, rep)
  {
    var ds := Iterate(universe);
    var local := c.stores[target].Keys;
    ghost var before := c.stores;
    rep := Report(0, 0, 0, []);
    TallyNone(c.stores, c.Assigned, target);
    assert Elements(ds[..0]) == {};
    for i := 0 to |ds|
      invariant Pass(c, before, target, Elements(ds[..i]), rep)
    {
      ElementsNext(ds, i);
      rep := RepairDigest(c, target, local, ds[i], rep, before, Elements(ds[..i]));
    }
    assert ds[..|ds|] == ds;
  }

  lemma TallyNone(stores: Stores, place: Placement, target: NodeName)
    requires target in stores
    ensures Tallied(stores, stores, place, target, {}, Report(0, 0, 0, []))
  {
    assert forall fate :: With(stores, place, target, {}, fate) == {};
  }

  // ----- the whole cluster -----

  /** `now` is `before` after passes over the nodes in `done`. */
  ghost predicate Converging(before: Stores, now: Stores, ids: set<NodeName>, place: Placement, done: set<NodeName>) {
    && StoresGrow(before, now)
    && forall n :: n in before ==>
         now[n].Keys == before[n].Keys + (if n in done then Owed(before, ids, place, n) else {})
  }

  /** A pass creates no new claim: what is owed to a node is settled from the start. */
  lemma SameHolders(before: Stores, now: Stores, ids: set<NodeName>, place: Placement, done: set<NodeName>, d: Digest)
    requires Converging(before, now, ids, place, done)
    ensures HeldByAssigned(now, place, d) <==> HeldByAssigned(before, place, d)
  {
    if HeldByAssigned(before, place, d) {
      var n :| n in place(d) && n in before && d in before[n];
      assert n in now && d in now[n];
    }
    if HeldByAssigned(now, place, d) {
      var n :| n in place(d) && n in now && d in now[n];
      assert n in before;
    }
  }

  lemma SameUniverse(before: Stores, now: Stores, ids: set<NodeName>, place: Placement, done: set<NodeName>, d: Digest)
    requires Converging(before, now, ids, place, done)
    ensures d in Universe(now, ids) <==> d in Universe(before, ids)
  {
    if d in Universe(before, ids) {
      var n :| n in ids && n in before && d in before[n];
      assert n in now && d in now[n];
    }
    if d in Universe(now, ids) {
      var n :| n in ids && n in now && d in now[n];
      assert n in before;
    }
  }

  lemma SameOwed(before: Stores, now: Stores, ids: set<NodeName>, place: Placement, done: set<NodeName>, n: NodeName)
    requires Converging(before, now, ids, place, done)
    ensures Owed(now, ids, place, n) == Owed(before, ids, place, n)
  {
    forall d ensures d in Owed(now, ids, place, n) <==> d in Owed(before, ids, place, n) {
      SameHolders(before, now, ids, place, done, d);
      SameUniverse(before, now, ids, place, done, d);
    }
  }

  lemma FixedIsOwed(stores: Stores, ids: set<NodeName>, place: Placement, target: NodeName)
    requires target in stores
    ensures With(stores, place, target, Universe(stores, ids), Fixed) ==
            Owed(stores, ids, place, target) - stores[target].Keys
  {
  }

  lemma UnionRest<T>(a: set<T>, b: set<T>)
    ensures a + (b - a) == a + b
  {
  }

  lemma PassTarget(before: Stores, now: Stores, after: Stores, ids: set<NodeName>, place: Placement,
      done: set<NodeName>, n: NodeName)
    requires Converging(before, now, ids, place, done) && n in now && n !in done
    requires Gains(now, after, n, With(now, place, n, Universe(now, ids), Fixed))
    ensures after[n].Keys == before[n].Keys + Owed(before, ids, place, n)
  {
    SameOwed(before, now, ids, place, done, n);
    FixedIsOwed(now, ids, place, n);
    UnionRest(now[n].Keys, Owed(before, ids, place, n));
  }

  /** One more pass. */
  lemma PassConverges(before: Stores, now: Stores, after: Stores, ids: set<NodeName>, place: Placement,
      done: set<NodeName>, n: NodeName)
    requires Converging(before, now, ids, place, done) && n in now && n !in done
    requires Gains(now, after, n, With(now, place, n, Universe(now, ids), Fixed))
    ensures Converging(before, after, ids, place, done + {n})
  {
    PassTarget(before, now, after, ids, place, done, n);
    GrowTrans(before, now, after);
    forall m | m in before
      ensures after[m].Keys == before[m].Keys + (if m in done + {n} then Owed(before, ids, place, m) else {})
    {
      if m != n {
        assert after[m] == now[m];
      }
    }
  }

  /** The report on one node: it balances, and repairs nothing if nothing was owed. */
  ghost predicate FairReport(before: Stores, ids: set<NodeName>, place: Placement, entry: (NodeName, Report),
      n: NodeName) {
    && entry.0 == n && Balanced(entry.1) && n in before
    && (Owed(before, ids, place, n) <= before[n].Keys ==> entry.1.repaired == 0)
  }

  ghost predicate ClusterPass(c: ReplicatedCas, before: Stores, k: nat, out: seq<(NodeName, Report)>)
    reads c
  {
    && k == |out| <= |c.nodes| && c.Valid() && (k > 0 ==> AllUp(c.nodes, c.stores.Keys, c.up))
    && Converging(before, c.stores, TopologyIds(c.nodes), c.Assigned, TopologyIds(c.nodes[..k]))
    && forall i :: 0 <= i < k ==> FairReport(before, TopologyIds(c.nodes), c.Assigned, out[i], c.nodes[i].id)
  }

  /** Repairs the next node of the topology. */
  method RepairNext(c: ReplicatedCas, k: nat, ghost out: seq<(NodeName, Report)>, ghost before: Stores)
      returns (r: Result<Report, RepairError>)
    requires ClusterPass(c, before, k, out) && k < |c.nodes|
    modifies c`stores
    ensures c.Valid() && (r.Ok? ==> AllUp(c.nodes, c.stores.Keys, c.up)) &&
            (r.Err? ==> !AllKnownUp(c.nodes, before.Keys, c.up))
    ensures r.Ok? ==> Converging(before, c.stores, TopologyIds(c.nodes), c.Assigned, TopologyIds(c.nodes[..k + 1]))
    ensures r.Ok? ==> FairReport(before, TopologyIds(c.nodes), c.Assigned, (c.nodes[k].id, r.value), c.nodes[k].id)
  {
    var n := c.nodes[k].id;
    ghost var now, ids, done := c.stores, TopologyIds(c.nodes), TopologyIds(c.nodes[..k]);
    TopologyNext(c.nodes, k);
    NotYet(c.nodes, k);
    Needed(c.nodes, before.Keys, c.up, k);
    r := RepairNode(c, n);
    if r.Ok? {
      PassConverges(before, now, c.stores, ids, c.Assigned, done, n);
      NothingToFix(before, now, ids, c.Assigned, done, n);
    }
  }

  /** Cluster repair: every node gains exactly what it is assigned and some
      assigned replica held at the start. */
  method RepairCluster(c: ReplicatedCas) returns (r: Result<seq<(NodeName, Report)>, RepairError>)
    requires c.Valid()
    modifies c`stores
    ensures c.Valid()
    ensures r.Ok? <==> AllKnownUp(c.nodes, old(c.stores).Keys, c.up)
    ensures r.Ok? ==> Converging(old(c.stores), c.stores, TopologyIds(c.nodes), c.Assigned, TopologyIds(c.nodes))
    ensures r.Ok? ==> |r.value| == |c.nodes| && forall k :: 0 <= k < |c.nodes| ==>
              FairReport(old(c.stores), TopologyIds(c.nodes), c.Assigned, r.value[k], c.nodes[k].id)
  {
    ghost var before := c.stores;
    StartOfPass(c);
    r := Ok([]);
    for k := 0 to |c.nodes|
      invariant r.Ok? && ClusterPass(c, before, k, r.value)
    {
      r := RepairOneMore(c, k, r.value, before);
      if r.Err? {
        return;
      }
    }
    EndOfPass(c, before, r.value);
  }

  /** The pass goes on with node `k`, or a node is not there. */
  method RepairOneMore(c: ReplicatedCas, k: nat, out: seq<(NodeName, Report)>, ghost before: Stores)
      returns (r: Result<seq<(NodeName, Report)>, RepairError>)
    requires ClusterPass(c, before, k, out) && k < |c.nodes|
    modifies c`stores
    ensures c.Valid() && (r.Err? ==> !AllKnownUp(c.nodes, before.Keys, c.up))
    ensures r.Ok? ==> ClusterPass(c, before, k + 1, r.value)
  {
    var report := RepairNext(c, k, out, before);
    if report.Err? {
      return Err(report.error);
    }
    return Ok(out + [(c.nodes[k].id, report.value)]);
  }

  lemma StartOfPass(c: ReplicatedCas)
    requires c.Valid()
    ensures ClusterPass(c, c.stores, 0, [])
  {
    assert c.nodes[..0] == [];
  }

  lemma EndOfPass(c: ReplicatedCas, before: Stores, out: seq<(NodeName, Report)>)
    requires ClusterPass(c, before, |c.nodes|, out)
    ensures Converging(before, c.stores, TopologyIds(c.nodes), c.Assigned, TopologyIds(c.nodes))
    ensures AllKnownUp(c.nodes, before.Keys, c.up) && |out| == |c.nodes|
    ensures forall k :: 0 <= k < |c.nodes| ==>
              FairReport(before, TopologyIds(c.nodes), c.Assigned, out[k], c.nodes[k].id)
  {
    assert c.nodes[..|c.nodes|] == c.nodes;
    KnownUp(c.nodes, before, c.up, out, TopologyIds(c.nodes), c.Assigned);
  }

  /** The pool knows every node of the topology and all of them answer. */
  ghost predicate AllKnownUp(nodes: seq<RingNode>, known: set<NodeName>, up: set<NodeName>) {
    forall k :: 0 <= k < |nodes| ==> nodes[k].id in known && nodes[k].id in up
  }

  lemma Needed(nodes: seq<RingNode>, known: set<NodeName>, up: set<NodeName>, k: nat)
    requires k < |nodes|
    ensures AllKnownUp(nodes, known, up) ==> AllUp(nodes, known, up) && nodes[k].id in known
  {
  }

  lemma KnownUp(nodes: seq<RingNode>, before: Stores, up: set<NodeName>, out: seq<(NodeName, Report)>,
      ids: set<NodeName>, place: Placement)
    requires |out| == |nodes| && (|nodes| > 0 ==> AllUp(nodes, before.Keys, up))
    requires forall i :: 0 <= i < |nodes| ==> FairReport(before, ids, place, out[i], nodes[i].id)
    ensures AllKnownUp(nodes, before.Keys, up)
  {
    forall k | 0 <= k < |nodes| ensures nodes[k].id in before.Keys && nodes[k].id in up {
      assert FairReport(before, ids, place, out[k], nodes[k].id);
    }
  }

  /** Every digest expected is present, repaired or reported. */
  predicate Balanced(rep: Report) { rep.expected == rep.alreadyPresent + rep.repaired + |rep.unrepairable| }

  lemma NotYet(nodes: seq<RingNode>, k: nat)
    requires k < |nodes| && DistinctIds(nodes)
    ensures nodes[k].id !in TopologyIds(nodes[..k])
  {
  }

  lemma NothingToFix(before: Stores, now: Stores, ids: set<NodeName>, place: Placement, done: set<NodeName>,
      n: NodeName)
    requires Converging(before, now, ids, place, done) && n in before && n !in done
    ensures Owed(before, ids, place, n) <= before[n].Keys ==> With(now, place, n, Universe(now, ids), Fixed) == {}
  {
    SameOwed(before, now, ids, place, done, n);
    FixedIsOwed(now, ids, place, n);
  }

  /** Once converged, nothing is owed: an immediate second pass repairs nothing. */
  lemma SecondPassIdle(before: Stores, after: Stores, ids: set<NodeName>, place: Placement, n: NodeName)
    requires Converging(before, after, ids, place, ids) && n in ids && n in after
    ensures Owed(after, ids, place, n) <= after[n].Keys
  {
    SameOwed(before, after, ids, place, ids, n);
  }

  /** After repair, a digest some assigned replica held is held by every
      assigned replica, and no store has gained an unassigned digest. */
  lemma Converged(before: Stores, after: Stores, ids: set<NodeName>, place: Placement, d: Digest, n: NodeName)
    requires Converging(before, after, ids, place, ids) && n in after && n in ids
    requires forall m :: m in place(d) ==> m in ids
    ensures HeldByAssigned(after, place, d) && n in place(d) ==> d in after[n]
    ensures d in after[n] && d !in before[n] ==> n in place(d)
  {
    if HeldByAssigned(after, place, d) && n in place(d) {
      SameHolders(before, after, ids, place, ids, d);
      var m :| m in place(d) && m in before && d in before[m];
      assert d in Universe(before, ids);
    }
  }
}

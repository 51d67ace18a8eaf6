/** Garbage collection of unreferenced blobs (crates/brokkr-cas/src/gc.rs). */
module Gc {
  import opened Common
  import opened Cas

  /** What an action result refers to; an absent digest is missing or malformed. */
  datatype OutputDirectory = OutputDirectory(tree: Option<Digest>, root: Option<Digest>)

  datatype ActionResult = ActionResult(files: seq<Option<Digest>>, dirs: seq<OutputDirectory>, stdout: Option<Digest>,
      stderr: Option<Digest>)

  /** The digests inlined in a result. */
  ghost predicate Refers(ar: ActionResult, d: Digest) {
    || Some(d) in ar.files
    || (exists dir :: dir in ar.dirs && (dir.tree == Some(d) || dir.root == Some(d)))
    || ar.stdout == Some(d) || ar.stderr == Some(d)
  }

  ghost predicate Referenced(entries: map<Digest, ActionResult>, d: Digest) {
    exists a :: a in entries && Refers(entries[a], d)
  }

  /** Every digest a cached result refers to is in the store. */
  ghost predicate Closed(entries: map<Digest, ActionResult>, blobs: map<Digest, Bytes>) {
    forall d :: Referenced(entries, d) ==> d in blobs
  }

  function Present(o: Option<Digest>): seq<Digest> { if o.Some? then [o.value] else [] }

  method DirectDigests(ar: ActionResult) returns (out: seq<Digest>)
    ensures forall d :: d in out <==> Refers(ar, d)
  {
    out := [];
    for i := 0 to |ar.files|
      invariant forall d :: d in out <==> Some(d) in ar.files[..i]
    {
      assert ar.files[..i + 1] == ar.files[..i] + [ar.files[i]];
      out := out + Present(ar.files[i]);
    }
    assert ar.files[..|ar.files|] == ar.files;
    for i := 0 to |ar.dirs|
      invariant forall d :: d in out <==> Some(d) in ar.files || exists dir ::
                  dir in ar.dirs[..i] && (dir.tree == Some(d) || dir.root == Some(d))
    {
      assert ar.dirs[..i + 1] == ar.dirs[..i] + [ar.dirs[i]];
      ghost var was := out;
      out := out + Present(ar.dirs[i].tree) + Present(ar.dirs[i].root);
      forall d ensures d in out <==> Some(d) in ar.files || exists dir ::
          dir in ar.dirs[..i + 1] && (dir.tree == Some(d) || dir.root == Some(d)) {
        DirNext(ar.dirs, i, d);
        assert d in out <==> d in was || ar.dirs[i].tree == Some(d) || ar.dirs[i].root == Some(d);
      }
    }
    assert ar.dirs[..|ar.dirs|] == ar.dirs;
    out := out + Present(ar.stdout) + Present(ar.stderr);
  }

  lemma DirNext(dirs: seq<OutputDirectory>, i: nat, d: Digest)
    requires i < |dirs|
    ensures (exists dir :: dir in dirs[..i + 1] && (dir.tree == Some(d) || dir.root == Some(d))) <==>
            (exists dir :: dir in dirs[..i] && (dir.tree == Some(d) || dir.root == Some(d))) ||
                dirs[i].tree == Some(d) || dirs[i].root == Some(d)
  {
    assert dirs[..i + 1] == dirs[..i] + [dirs[i]];
    assert dirs[i] in dirs[..i + 1];
    assert forall dir :: dir in dirs[..i] ==> dir in dirs[..i + 1];
  }

  datatype GcPlan = GcPlan(reachable: set<Digest>, unreachable: seq<Digest>, localCount: nat)

  class ActionCache {
    var entries: map<Digest, ActionResult>

    constructor ()
      ensures entries == map[]
    {
      entries := map[];
    }
  }

  /** The plan is exact: reachable is everything referenced, unreachable everything else held. */
  ghost predicate Exact(plan: GcPlan, entries: map<Digest, ActionResult>, blobs: map<Digest, Bytes>) {
    && (forall d :: d in plan.reachable <==> Referenced(entries, d))
    && (forall d :: d in plan.unreachable <==> d in blobs && !Referenced(entries, d))
    && (forall i, j :: 0 <= i < j < |plan.unreachable| ==> plan.unreachable[i] != plan.unreachable[j])
  }

  method Mark(ac: ActionCache) returns (reachable: set<Digest>)
    ensures forall d :: d in reachable <==> Referenced(ac.entries, d)
  {
    reachable := {};
    var rest := ac.entries.Keys;
    while rest != {}
      invariant rest <= ac.entries.Keys
      invariant forall d :: d in reachable <==> exists a :: a in ac.entries && a !in rest && Refers(ac.entries[a], d)
      decreases |rest|
    {
      var a :| a in rest;
      var ds := DirectDigests(ac.entries[a]);
      reachable := reachable + set d | d in ds;
      rest := rest - {a};
    }
  }

  method Plan(cas: Store, ac: ActionCache) returns (r: Result<GcPlan, CasError>)
    ensures r.Ok? <==> cas.up
    ensures r.Ok? ==> Exact(r.value, ac.entries, cas.blobs)
  {
    var reachable := Mark(ac);
    var local := cas.ListDigests();
    if local.Err? {
      return Err(local.error);
    }
    var unreachable := [];
    for i := 0 to |local.value|
      invariant forall d :: d in unreachable <==> d in local.value[..i] && d !in reachable
      invariant forall a, b :: 0 <= a < b < |unreachable| ==> unreachable[a] != unreachable[b]
    {
      assert local.value[..i + 1] == local.value[..i] + [local.value[i]];
      if local.value[i] !in reachable {
        unreachable := unreachable + [local.value[i]];
      }
    }
    assert local.value[..|local.value|] == local.value;
    return Ok(GcPlan(reachable, unreachable, |local.value|));
  }

  method SweepWithPlan(cas: Store, plan: GcPlan) returns (deleted: nat)
    requires cas.up
    modifies cas`blobs
    ensures cas.blobs == old(cas.blobs) - (set d | d in plan.unreachable) && deleted == |plan.unreachable|
  {
    deleted := 0;
    for i := 0 to |plan.unreachable|
      invariant cas.blobs == old(cas.blobs) - (set d | d in plan.unreachable[..i]) && deleted == i
    {
      assert plan.unreachable[..i + 1] == plan.unreachable[..i] + [plan.unreachable[i]];
      var _ := cas.DeleteBlob(plan.unreachable[i]);
      deleted := deleted + 1;
    }
    assert plan.unreachable[..|plan.unreachable|] == plan.unreachable;
  }

  /** A sweep deletes exactly the unreferenced blobs and keeps references closed. */
  method Sweep(cas: Store, ac: ActionCache) returns (r: Result<nat, CasError>)
    modifies cas`blobs
    ensures r.Ok? <==> cas.up
    ensures r.Err? ==> cas.blobs == old(cas.blobs)
    ensures r.Ok? ==> forall d :: d in cas.blobs <==> d in old(cas.blobs) && Referenced(ac.entries, d)
    ensures r.Ok? ==> forall d :: d in cas.blobs ==> cas.blobs[d] == old(cas.blobs)[d]
    ensures r.Ok? ==> r.value == |old(cas.blobs).Keys - cas.blobs.Keys|
    ensures Closed(ac.entries, old(cas.blobs)) <==> Closed(ac.entries, cas.blobs)
  {
    var plan := Plan(cas, ac);
    if plan.Err? {
      return Err(plan.error);
    }
    var deleted := SweepWithPlan(cas, plan.value);
    ListedCount(plan.value.unreachable);
    assert old(cas.blobs).Keys - cas.blobs.Keys == set d | d in plan.value.unreachable;
    return Ok(deleted);
  }

  lemma {:induction false} ListedCount(ds: seq<Digest>)
    requires forall i, j :: 0 <= i < j < |ds| ==> ds[i] != ds[j]
    ensures |set d | d in ds| == |ds|
  {
    if ds != [] {
      var n := |ds| - 1;
      ListedCount(ds[..n]);
      assert ds == ds[..n] + [ds[n]] && ds[n] !in ds[..n];
      assert (set d | d in ds) == (set d | d in ds[..n]) + {ds[n]};
    } else {
      assert (set d | d in ds) == {};
    }
  }
}

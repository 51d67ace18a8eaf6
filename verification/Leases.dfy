/** Job leases (crates/brokkr-control/src/lease.rs). */
module Leases {
  import opened Common
  import opened Order

  datatype Lease<P> = Lease(worker: WorkerId, deadline: nat, payload: P)

  type Table<P> = map<JobId, Lease<P>>

  predicate Busy<P>(t: Table<P>, w: WorkerId) { exists id :: id in t && t[id].worker == w }

  /** At most one lease per worker. */
  ghost predicate OneEach<P>(t: Table<P>) {
    forall a, b :: a in t && b in t && a != b ==> t[a].worker != t[b].worker
  }

  function HeldBy<P>(t: Table<P>, w: WorkerId): set<JobId> { set id | id in t && t[id].worker == w }

  function Expired<P>(t: Table<P>, now: nat): set<JobId> { set id | id in t && now >= t[id].deadline }

  /** The leases of `ids` with their payloads, in ascending order of job id. */
  function Listing<P>(t: Table<P>, ids: set<JobId>): seq<(JobId, P)>
    requires ids <= t.Keys
    decreases |ids|
  {
    if ids == {} then []
    else
      var id := Least(ids);
      [(id, t[id].payload)] + Listing(t, ids - {id})
  }

  function Renewed<P>(t: Table<P>, w: WorkerId, deadline: nat): Table<P> {
    map id | id in t :: if t[id].worker == w then t[id].(deadline := deadline) else t[id]
  }

  class LeaseTable<P> {
    var leases: Table<P>

    constructor ()
      ensures leases == map[]
    {
      leases := map[];
    }

    /** A reassignment supersedes the lease the job had. */
    method Insert(id: JobId, w: WorkerId, deadline: nat, payload: P)
      modifies this
      ensures leases == old(leases)[id := Lease(w, deadline, payload)]
      ensures old(OneEach(leases)) && !old(Busy(leases, w)) ==> OneEach(leases)
    {
      leases := leases[id := Lease(w, deadline, payload)];
    }

    /** Resolves a lease once: its worker is idle again, and a second report of
        the job finds nothing. */
    method Complete(id: JobId) returns (payload: Option<P>)
      modifies this
      ensures leases == old(leases) - {id}
      ensures payload == if id in old(leases) then Some(old(leases)[id].payload) else None
      ensures old(OneEach(leases)) ==> OneEach(leases) && (id in old(leases) ==> !Busy(leases, old(leases)[id].worker))
    {
      payload := if id in leases then Some(leases[id].payload) else None;
      leases := leases - {id};
    }

    method IsWorkerBusy(w: WorkerId) returns (busy: bool)
      ensures busy == Busy(leases, w) && (busy <==> HeldBy(leases, w) != {})
    {
      var rest := leases.Keys;
      while rest != {}
        invariant rest <= leases.Keys && forall id :: id in leases && id !in rest ==> leases[id].worker != w
        decreases |rest|
      {
        var id :| id in rest;
        if leases[id].worker == w {
          assert id in HeldBy(leases, w);
          return true;
        }
        rest := rest - {id};
      }
      return false;
    }

    /** Removes the leases of `ids` in ascending order of job id. */
    method Drain(ids: set<JobId>) returns (out: seq<(JobId, P)>)
      requires ids <= leases.Keys
      modifies this
      ensures leases == old(leases) - ids && out == Listing(old(leases), ids)
    {
      out := [];
      var rest := ids;
      while rest != {}
        invariant rest <= ids && leases == old(leases) - (ids - rest)
        invariant out + Listing(old(leases), rest) == Listing(old(leases), ids)
        decreases |rest|
      {
        var id := Least(rest);
        out := out + [(id, leases[id].payload)];
        leases := leases - {id};
        rest := rest - {id};
      }
    }

    /** Takes every lease whose deadline has passed. */
    method TakeExpired(now: nat) returns (out: seq<(JobId, P)>)
      modifies this
      ensures forall id :: id in leases <==> id in old(leases) && now < old(leases)[id].deadline
      ensures forall id :: id in leases ==> leases[id] == old(leases)[id]
      ensures out == Listing(old(leases), Expired(old(leases), now))
    {
      out := Drain(Expired(leases, now));
    }

    /** Takes every lease a worker holds; it is idle afterwards. */
    method TakeWorker(w: WorkerId) returns (out: seq<(JobId, P)>)
      modifies this
      ensures !Busy(leases, w) && forall id :: id in leases <==> id in old(leases) && old(leases)[id].worker != w
      ensures forall id :: id in leases ==> leases[id] == old(leases)[id]
      ensures out == Listing(old(leases), HeldBy(old(leases), w))
    {
      out := Drain(HeldBy(leases, w));
    }

    method RenewWorker(w: WorkerId, deadline: nat) returns (renewed: nat)
      modifies this
      ensures leases == Renewed(old(leases), w, deadline) && renewed == |HeldBy(old(leases), w)|
    {
      renewed := 0;
      var rest := leases.Keys;
      ghost var before := leases;
      RenewNone(before, w, deadline);
      while rest != {}
        invariant Renewing(before, leases, rest, w, deadline, renewed)
        decreases |rest|
      {
        var id :| id in rest;
        RenewOne(before, leases, rest, w, deadline, renewed, id);
        if leases[id].worker == w {
          leases := leases[id := leases[id].(deadline := deadline)];
          renewed := renewed + 1;
        }
        rest := rest - {id};
      }
      assert HeldBy(before, w) - {} == HeldBy(before, w);
    }
  }

  /** All leases but those of `rest` have been looked at, and `n` of them renewed. */
  ghost predicate Renewing<P>(before: Table<P>, now: Table<P>, rest: set<JobId>, w: WorkerId, deadline: nat, n: nat) {
    && rest <= before.Keys && now.Keys == before.Keys && n == |HeldBy(before, w) - rest|
    && forall id :: id in before ==> now[id] == if id in rest then before[id] else Renewed(before, w, deadline)[id]
  }

  lemma RenewNone<P>(before: Table<P>, w: WorkerId, deadline: nat)
    ensures Renewing(before, before, before.Keys, w, deadline, 0)
  {
    assert HeldBy(before, w) - before.Keys == {};
  }

  lemma RenewOne<P>(before: Table<P>, now: Table<P>, rest: set<JobId>, w: WorkerId, deadline: nat, n: nat, id: JobId)
    requires Renewing(before, now, rest, w, deadline, n) && id in rest
    ensures now[id].worker == w ==>
            Renewing(before, now[id := now[id].(deadline := deadline)], rest - {id}, w, deadline, n + 1)
    ensures now[id].worker != w ==> Renewing(before, now, rest - {id}, w, deadline, n)
  {
    OneLess(HeldBy(before, w), rest, id);
  }

  lemma OneLess<T>(held: set<T>, rest: set<T>, x: T)
    requires x in rest
    ensures |held - (rest - {x})| == |held - rest| + if x in held then 1 else 0
  {
    if x in held {
      assert held - (rest - {x}) == (held - rest) + {x};
    } else {
      assert held - (rest - {x}) == held - rest;
    }
  }
}

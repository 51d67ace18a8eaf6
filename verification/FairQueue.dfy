/** The per-tenant start-time fair queue (crates/brokkr-control/src/fairqueue.rs). */
module FairQueue {
  import opened Common

  const COST: nat := 1_000_000

  type TenantId = string

  /** One queued job; `tenant` is whom it was pushed for. */
  datatype Entry<J> = Entry(start: nat, tenant: TenantId, job: J)

  datatype Queue<J> = Queue(entries: seq<Entry<J>>, clock: nat, finish: map<TenantId, nat>, weights: map<TenantId, nat>)

  function WeightOf<J>(q: Queue<J>, t: TenantId): (w: nat)
    ensures w >= 1
  {
    if t in q.weights then Max(q.weights[t], 1) else 1
  }

  /** How far one job moves its tenant's clock. */
  function Stride<J>(q: Queue<J>, t: TenantId): nat { COST / WeightOf(q, t) }

  function FinishOf<J>(q: Queue<J>, t: TenantId): nat { if t in q.finish then q.finish[t] else 0 }

  function StartFor<J>(q: Queue<J>, t: TenantId): nat { Max(q.clock, FinishOf(q, t)) }

  /** A push that moves the tenant's clock by `d`. */
  function PushedBy<J>(q: Queue<J>, t: TenantId, job: J, d: nat): Queue<J> {
    q.(entries := q.entries + [Entry(StartFor(q, t), t, job)],
       finish := q.finish[t := Min(StartFor(q, t) + d, U64_MAX)])
  }

  function Pushed<J>(q: Queue<J>, t: TenantId, job: J): Queue<J> { PushedBy(q, t, job, Stride(q, t)) }

  function SwapRemoved<T>(s: seq<T>, i: nat): seq<T>
    requires i < |s|
  {
    if i == |s| - 1 then s[..i] else s[..i] + [s[|s| - 1]] + s[i + 1..|s| - 1]
  }

  function Taken<J>(q: Queue<J>, i: nat): Queue<J>
    requires i < |q.entries|
  {
    q.(entries := SwapRemoved(q.entries, i), clock := Max(q.clock, q.entries[i].start))
  }

  /** The first entry with the lowest start tag. */
  predicate IsFirstMin<J>(entries: seq<Entry<J>>, i: nat) {
    && i < |entries|
    && (forall k :: 0 <= k < |entries| ==> entries[i].start <= entries[k].start)
    && (forall k :: 0 <= k < i ==> entries[i].start < entries[k].start)
  }

  function FirstMin<J>(entries: seq<Entry<J>>): (i: nat)
    requires entries != []
    ensures IsFirstMin(entries, i)
  {
    if |entries| == 1 then 0
    else
      var i := FirstMin(entries[..|entries| - 1]);
      if entries[|entries| - 1].start < entries[i].start then |entries| - 1 else i
  }

  function Popped<J>(q: Queue<J>): Queue<J> {
    if q.entries == [] then q else Taken(q, FirstMin(q.entries))
  }

  function Kept<J>(entries: seq<Entry<J>>, keep: J -> bool): seq<Entry<J>> {
    if entries == [] then []
    else
      var last := entries[|entries| - 1];
      Kept(entries[..|entries| - 1], keep) + (if keep(last.job) then [last] else [])
  }

  class FairQueue<J> {
    var entries: seq<Entry<J>>
    var clock: nat
    var finish: map<TenantId, nat>
    var weights: map<TenantId, nat>

    function State(): Queue<J>
      reads this
    {
      Queue(entries, clock, finish, weights)
    }

    constructor ()
      ensures State() == Queue([], 0, map[], map[])
    {
      entries, clock, finish, weights := [], 0, map[], map[];
    }

    method SetWeight(t: TenantId, weight: nat)
      modifies this`weights
      ensures State() == old(State()).(weights := old(weights)[t := Max(weight, 1)])
    {
      weights := weights[t := Max(weight, 1)];
    }

    method Push(t: TenantId, job: J)
      modifies this
      ensures State() == Pushed(old(State()), t, job)
    {
      var weight := WeightOf(State(), t);
      var lastFinish := FinishOf(State(), t);
      var start := Max(clock, lastFinish);
      finish := finish[t := Min(start + COST / weight, U64_MAX)];
      entries := entries + [Entry(start, t, job)];
    }

    method Take(i: nat) returns (job: Option<J>)
      modifies this`entries, this`clock
      ensures i >= |old(entries)| ==> job == None && State() == old(State())
      ensures i < |old(entries)| ==> job == Some(old(entries)[i].job) && State() == Taken(old(State()), i)
    {
      if i >= |entries| {
        return None;
      }
      var entry := entries[i];
      entries := SwapRemoved(entries, i);
      clock := Max(clock, entry.start);
      return Some(entry.job);
    }

    method Pop() returns (job: Option<J>)
      modifies this`entries, this`clock
      ensures State() == Popped(old(State()))
      ensures job == if old(entries) == [] then None else Some(old(entries)[FirstMin(old(entries))].job)
    {
      if entries == [] {
        return None;
      }
      var best := 0;
      for i := 1 to |entries|
        invariant IsFirstMin(entries[..i], best)
      {
        if entries[i].start < entries[best].start {
          best := i;
        }
        assert entries[..i + 1][..i] == entries[..i];
      }
      assert entries[..|entries|] == entries;
      job := Take(best);
    }

    method Retain(keep: J -> bool)
      modifies this`entries
      ensures State() == old(State()).(entries := Kept(old(entries), keep))
    {
      var kept := [];
      for i := 0 to |entries|
        invariant kept == Kept(entries[..i], keep)
      {
        if keep(entries[i].job) {
          kept := kept + [entries[i]];
        }
        assert entries[..i + 1][..i] == entries[..i];
      }
      assert entries[..|entries|] == entries;
      entries := kept;
    }
  }
}

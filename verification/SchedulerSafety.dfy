/** Safety of the scheduler under every interleaving
    (crates/brokkr-control/src/scheduler.rs). */
module SchedulerSafety {
  import opened Common
  import opened Order
  import opened FairQueue
  import opened Leases
  import opened Scheduler

  // ----- taking leases and requeueing -----

  lemma {:induction false} ListingHas(t: Table<Job>, ids: set<JobId>, id: JobId)
    requires ids <= t.Keys && id in ids
    ensures (id, t[id].payload) in Listing(t, ids)
    decreases |ids|
  {
    if id != Least(ids) {
      ListingHas(t, ids - {Least(ids)}, id);
    }
  }

  lemma {:induction false} ListingFrom(t: Table<Job>, ids: set<JobId>, p: (JobId, Job))
    requires ids <= t.Keys && p in Listing(t, ids)
    ensures p.0 in ids && p.1 == t[p.0].payload
    decreases |ids|
  {
    var id := Least(ids);
    if p != (id, t[id].payload) {
      ListingFrom(t, ids - {id}, p);
    }
  }

  lemma {:induction false} RequeuedKeeps(q: Queue<Job>, taken: seq<(JobId, Job)>)
    ensures q.entries <= Requeued(q, taken).entries
  {
    if taken != [] {
      RequeuedKeeps(q, taken[..|taken| - 1]);
    }
  }

  /** Every job taken is queued again or given up. */
  lemma {:induction false} RequeuedHas(q: Queue<Job>, taken: seq<(JobId, Job)>, p: (JobId, Job))
    requires p in taken && p.1.id == p.0
    ensures Queued(Requeued(q, taken), p.0) || p.0 in GivenUp(taken)
  {
    var n := |taken| - 1;
    assert taken == taken[..n] + [taken[n]];
    if p == taken[n] {
      var now := Requeued(q, taken);
      if !Exhausted(p.1) {
        assert now.entries[|now.entries| - 1].job.id == p.0;
        assert now.entries[|now.entries| - 1] in now.entries;
      }
    } else {
      RequeuedHas(q, taken[..n], p);
      if Queued(Requeued(q, taken[..n]), p.0) {
        var e :| e in Requeued(q, taken[..n]).entries && e.job.id == p.0;
        assert e in Requeued(q, taken).entries;
      }
    }
  }

  lemma {:induction false} RequeuedOk(q: Queue<Job>, taken: seq<(JobId, Job)>, used: set<JobId>)
    requires QueueOk(q, used) && forall p :: p in taken ==> GoodJob(p.1, used)
    ensures QueueOk(Requeued(q, taken), used)
  {
    if taken != [] {
      var n := |taken| - 1;
      assert taken[n] in taken;
      RequeuedOk(q, taken[..n], used);
    }
  }

  lemma {:induction false} DropTakenOk(s: State, ids: set<JobId>)
    requires ids <= s.leases.Keys && QueueOk(s.pending, s.used) && LeasesOk(s.leases, s.used)
    ensures QueueOk(DropTaken(s, ids).pending, s.used) && LeasesOk(DropTaken(s, ids).leases, s.used)
  {
    var taken := Listing(s.leases, ids);
    forall p | p in taken ensures GoodJob(p.1, s.used) {
      ListingFrom(s.leases, ids, p);
    }
    RequeuedOk(s.pending, taken, s.used);
  }

  lemma {:induction false} DropTakenHas(s: State, ids: set<JobId>, id: JobId)
    requires ids <= s.leases.Keys && LeasesOk(s.leases, s.used)
    requires Queued(s.pending, id) || id in s.leases || id in s.givingUp
    ensures Queued(DropTaken(s, ids).pending, id) || id in DropTaken(s, ids).leases || id in DropTaken(s, ids).givingUp
  {
    var taken := Listing(s.leases, ids);
    if Queued(s.pending, id) {
      RequeuedKeeps(s.pending, taken);
      var e :| e in s.pending.entries && e.job.id == id;
      assert e in Requeued(s.pending, taken).entries;
    } else if id in ids {
      ListingHas(s.leases, ids, id);
      RequeuedHas(s.pending, taken, (id, s.leases[id].payload));
    }
  }

  // ----- the queue -----

  lemma {:induction false} PushedHas(q: Queue<Job>, t: TenantId, job: Job, id: JobId)
    ensures job.id == id || Queued(q, id) ==> Queued(Pushed(q, t, job), id)
  {
    var now := Pushed(q, t, job);
    assert now.entries[|q.entries|].job == job && now.entries[|q.entries|] in now.entries;
    if Queued(q, id) {
      var e :| e in q.entries && e.job.id == id;
      assert e in now.entries;
    }
  }

  lemma TakenHas(q: Queue<Job>, i: nat, id: JobId)
    requires i < |q.entries| && Queued(q, id) && q.entries[i].job.id != id
    ensures Queued(Taken(q, i), id)
  {
    var e :| e in q.entries && e.job.id == id;
    var k :| 0 <= k < |q.entries| && q.entries[k] == e;
    var rest := SwapRemoved(q.entries, i);
    assert rest[if k == |q.entries| - 1 then i else k] == e;
  }

  lemma TakenFrom(q: Queue<Job>, i: nat, e: Entry<Job>)
    requires i < |q.entries| && e in Taken(q, i).entries
    ensures e in q.entries
  {
    var rest := SwapRemoved(q.entries, i);
    var k :| 0 <= k < |rest| && rest[k] == e;
    assert q.entries[if k == i then |q.entries| - 1 else k] == e;
  }

  lemma {:induction false} KeptHas(entries: seq<Entry<Job>>, keep: Job -> bool, e: Entry<Job>)
    ensures e in Kept(entries, keep) <==> e in entries && keep(e.job)
  {
    if entries != [] {
      var n := |entries| - 1;
      KeptHas(entries[..n], keep, e);
      assert entries == entries[..n] + [entries[n]];
    }
  }

  // ----- every copy has attempts left -----

  ghost predicate CopiesOk(s: State) {
    QueueOk(s.pending, s.used) && LeasesOk(s.leases, s.used) && SendsOk(s.sends, s.used)
  }

  lemma {:induction false} CopiesKept(s: State, step: Step)
    requires CopiesOk(s) && CallsOk(s) && Enabled(s, step)
    ensures CopiesOk(Apply(s, step))
  {
    match step
    case Place(i, w, deadline) =>
      assert s.pending.entries[i] in s.pending.entries;
      forall e | e in Taken(s.pending, i).entries ensures e in s.pending.entries {
        TakenFrom(s.pending, i, e);
      }
    case Disconnect(w) => DropTakenOk(s, HeldBy(s.leases, w));
    case Expire(now) => DropTakenOk(s, Leases.Expired(s.leases, now));
    case Clean(id) =>
      forall e | e in Kept(s.pending.entries, (job: Job) => job.id != id) ensures e in s.pending.entries {
        KeptHas(s.pending.entries, (job: Job) => job.id != id, e);
      }
    case _ =>
  }

  // ----- one lease per worker -----

  lemma {:induction false} OneEachKept(s: State, step: Step)
    requires OneEach(s.leases) && Enabled(s, step)
    ensures OneEach(Apply(s, step).leases)
  {
  }

  // ----- calls and waiters -----

  lemma {:induction false} CallsKept(s: State, step: Step)
    requires CallsOk(s) && Enabled(s, step)
    ensures CallsOk(Apply(s, step))
  {
    if TouchesCalls(step) {
      CallsTouched(s, step);
    } else {
      CallsQuiet(s, step);
    }
  }

  lemma {:induction false} CallsTouched(s: State, step: Step)
    requires CallsOk(s) && Enabled(s, step) && TouchesCalls(step)
    ensures CallsOk(Apply(s, step))
  {
  }

  lemma {:induction false} CallsQuiet(s: State, step: Step)
    requires Enabled(s, step) && !TouchesCalls(step)
    ensures Apply(s, step).calls == s.calls && Apply(s, step).used == s.used && Apply(s, step).waiters <= s.waiters
    ensures Apply(s, step).inflight == s.inflight && Apply(s, step).limit == s.limit
  {
    CallsSame(s, step);
    WaitersShrink(s, step);
  }

  lemma {:induction false} CallsSame(s: State, step: Step)
    requires Enabled(s, step) && !TouchesCalls(step)
    ensures Apply(s, step).calls == s.calls && Apply(s, step).used == s.used
    ensures Apply(s, step).inflight == s.inflight && Apply(s, step).limit == s.limit
  {
    match step
    case Disconnect(w) => DropTakenSame(s.(connected := s.connected - {w}), HeldBy(s.leases, w));
    case Expire(now) => DropTakenSame(s, Leases.Expired(s.leases, now));
    case _ =>
  }

  lemma {:induction false} DropTakenSame(s: State, ids: set<JobId>)
    requires ids <= s.leases.Keys
    ensures DropTaken(s, ids).calls == s.calls && DropTaken(s, ids).used == s.used
    ensures DropTaken(s, ids).inflight == s.inflight && DropTaken(s, ids).limit == s.limit
  {
  }

  lemma {:induction false} WaitersShrink(s: State, step: Step)
    requires Enabled(s, step) && !TouchesCalls(step)
    ensures Apply(s, step).waiters <= s.waiters
  {
  }

  // ----- no job is lost -----

  /** `id` has a copy, or its caller is about to be answered or failed. */
  ghost predicate Somewhere(s: State, id: JobId) {
    Queued(s.pending, id) || id in s.leases || id in s.reporting || id in s.givingUp
  }

  /** No step of another caller makes the last copy of a waited-for job disappear. */
  lemma {:induction false} SomewhereKept(s: State, step: Step, id: JobId)
    requires CopiesOk(s) && CallsOk(s) && Enabled(s, step) && Somewhere(s, id)
    requires id in Apply(s, step).waiters && InPhase(Apply(s, step), id, Waiting)
    ensures Somewhere(Apply(s, step), id)
  {
    match step
    case Place(i, w, deadline) =>
      if Queued(s.pending, id) && s.pending.entries[i].job.id != id {
        TakenHas(s.pending, i, id);
      }
    case SendFailed(k) => PushedHas(s.pending, s.sends[k].job.tenant, Retried(s.sends[k].job), id);
    case Disconnect(w) => if id !in s.reporting { DropTakenHas(s, HeldBy(s.leases, w), id); }
    case Expire(now) => if id !in s.reporting { DropTakenHas(s, Leases.Expired(s.leases, now), id); }
    case Admit(other) => PushedHas(s.pending, s.calls[other].tenant, Job(other, s.calls[other].tenant, 0), id);
    case Clean(other) =>
      if Queued(s.pending, id) {
        var e :| e in s.pending.entries && e.job.id == id;
        KeptHas(s.pending.entries, (job: Job) => job.id != other, e);
      }
    case _ =>
  }

  lemma {:induction false} NoLostJobKept(s: State, step: Step)
    requires CopiesOk(s) && CallsOk(s) && NoLostJob(s) && Enabled(s, step)
    ensures NoLostJob(Apply(s, step))
  {
    var s' := Apply(s, step);
    forall id | id in s'.waiters && InPhase(s', id, Waiting) ensures Somewhere(s', id) {
      if id in s.waiters && InPhase(s, id, Waiting) {
        assert Somewhere(s, id);
        SomewhereKept(s, step, id);
      } else {
        NewlyWaiting(s, step, id);
      }
    }
  }

  /** A caller starts waiting only by queueing its job. */
  lemma {:induction false} NewlyWaiting(s: State, step: Step, id: JobId)
    requires CallsOk(s) && Enabled(s, step)
    requires id in Apply(s, step).waiters && InPhase(Apply(s, step), id, Waiting) &&
             !(id in s.waiters && InPhase(s, id, Waiting))
    ensures Somewhere(Apply(s, step), id)
  {
    PushedHas(s.pending, s.calls[step.id].tenant, Job(step.id, s.calls[step.id].tenant, 0), id);
  }

  // ----- the quota -----

  /** What one call adds to its tenant's count. */
  function Counted(calls: map<JobId, Call>, id: JobId, t: TenantId): nat {
    if id in calls && calls[id].tenant == t && calls[id].phase in {Waiting, TimingOut, Done} then 1 else 0
  }

  /** Calls that agree except on `id` differ in count by what `id` adds. */
  lemma ActiveDiffers(calls: map<JobId, Call>, calls': map<JobId, Call>, id: JobId, t: TenantId)
    requires calls - {id} == calls' - {id}
    ensures |Active(calls', t)| == |Active(calls, t)| - Counted(calls, id, t) + Counted(calls', id, t)
  {
    ActiveSplit(calls, id, t);
    ActiveSplit(calls', id, t);
  }

  lemma ActiveSplit(calls: map<JobId, Call>, id: JobId, t: TenantId)
    ensures |Active(calls, t)| == |Active(calls - {id}, t)| + Counted(calls, id, t)
  {
    assert Active(calls, t) == Active(calls - {id}, t) + if Counted(calls, id, t) == 1 then {id} else {};
  }

  predicate TouchesCalls(step: Step) {
    step.Register? || step.Admit? || step.Reject? || step.Timeout? || step.Clean? || step.Finish?
  }

  lemma {:induction false} CountKept(s: State, step: Step, t: TenantId)
    requires Enabled(s, step) && CallsOk(s) && TouchesCalls(step) && InflightOf(s, t) == |Active(s.calls, t)|
    ensures InflightOf(Apply(s, step), t) == |Active(Apply(s, step).calls, t)|
  {
    ActiveDiffers(s.calls, Apply(s, step).calls, step.id, t);
  }

  lemma {:induction false} QuotaKept(s: State, step: Step)
    requires QuotaOk(s) && Enabled(s, step) && CallsOk(s)
    ensures QuotaOk(Apply(s, step))
  {
    if TouchesCalls(step) {
      forall t ensures InflightOf(Apply(s, step), t) == |Active(Apply(s, step).calls, t)| {
        assert InflightOf(s, t) == |Active(s.calls, t)|;
        CountKept(s, step, t);
      }
      WithinKept(s, step);
    } else {
      CallsQuiet(s, step);
    }
  }

  lemma WithinKept(s: State, step: Step)
    requires QuotaOk(s) && Enabled(s, step) && TouchesCalls(step)
    ensures forall t :: Apply(s, step).limit.Some? ==> InflightOf(Apply(s, step), t) <= Apply(s, step).limit.value
  {
    forall t | s.limit.Some? ensures InflightOf(Apply(s, step), t) <= s.limit.value {
      assert InflightOf(s, t) <= s.limit.value;
    }
  }

  // ----- all of it, over every run -----

  lemma {:induction false} StepKeeps(s: State, step: Step)
    requires Inv(s) && Enabled(s, step)
    ensures Inv(Apply(s, step))
  {
    CopiesKept(s, step);
    OneEachKept(s, step);
    CallsKept(s, step);
    NoLostJobKept(s, step);
    QuotaKept(s, step);
  }

  /** In every interleaving: no admitted job with a waiting caller is lost, no
      two leases share a worker, every copy has attempts left, and a tenant's
      in-flight count is exact and within its quota. */
  lemma {:induction false} RunSafe(run: seq<State>, steps: seq<Step>, i: nat)
    requires IsRun(run, steps) && i < |run|
    ensures Inv(run[i])
  {
    if i == 0 {
      assert forall t :: Active(run[0].calls, t) == {};
    } else {
      var k := i - 1;
      RunSafe(run, steps, k);
      assert Enabled(run[k], steps[k]) && run[k + 1] == Apply(run[k], steps[k]);
      StepKeeps(run[k], steps[k]);
    }
  }
}

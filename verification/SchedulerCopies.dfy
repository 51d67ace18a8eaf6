/** How many copies of a job the scheduler keeps
    (crates/brokkr-control/src/scheduler.rs). */
module SchedulerCopies {
  import opened Common
  import opened Order
  import opened FairQueue
  import opened Leases
  import opened Sums
  import opened Scheduler
  import opened SchedulerSafety
  import opened SchedulerRetries

  function Mark(j: JobId): Entry<Job> -> nat { (e: Entry<Job>) => if e.job.id == j then 1 else 0 }

  function InQueue(q: Queue<Job>, j: JobId): nat { Total(q.entries, Mark(j)) }

  /** Queued and leased copies of one job. */
  function Copies(s: State, j: JobId): nat { InQueue(s.pending, j) + if j in s.leases then 1 else 0 }

  ghost predicate Single(s: State) { forall j :: Copies(s, j) <= 1 }

  /** A send fails, with attempts left, although the job is queued already:
      its lease was taken while the send was under way. */
  ghost predicate Doubles(s: State, step: Step)
    requires Enabled(s, step)
  {
    step.SendFailed? && !Exhausted(s.sends[step.k].job) && Queued(s.pending, s.sends[step.k].job.id)
  }

  // ----- counting in the queue -----

  lemma {:induction false} CountedIsQueued(entries: seq<Entry<Job>>, j: JobId)
    ensures Total(entries, Mark(j)) > 0 <==> exists e :: e in entries && e.job.id == j
  {
    if entries != [] {
      var rest, last := entries[..|entries| - 1], entries[|entries| - 1];
      CountedIsQueued(rest, j);
      assert entries == rest + [last];
      assert last in entries;
    }
  }

  lemma {:induction false} PushedCount(q: Queue<Job>, t: TenantId, job: Job, j: JobId)
    ensures InQueue(Pushed(q, t, job), j) == InQueue(q, j) + if job.id == j then 1 else 0
  {
    TotalNext(q.entries, Entry(StartFor(q, t), t, job), Mark(j));
  }

  /** One job a time, under its own id. */
  ghost predicate Once(taken: seq<(JobId, Job)>) {
    && (forall i :: 0 <= i < |taken| ==> taken[i].1.id == taken[i].0)
    && (forall i, k :: 0 <= i < k < |taken| ==> taken[i].0 != taken[k].0)
  }

  /** Taking `j` from the lease table puts back at most one copy of it. */
  lemma {:induction false} RequeuedCount(q: Queue<Job>, taken: seq<(JobId, Job)>, j: JobId)
    requires Once(taken)
    ensures InQueue(q, j) <= InQueue(Requeued(q, taken), j) <= InQueue(q, j) + 1
    ensures (forall i :: 0 <= i < |taken| ==> taken[i].0 != j) ==> InQueue(Requeued(q, taken), j) == InQueue(q, j)
  {
    if taken != [] {
      var rest, last := taken[..|taken| - 1], taken[|taken| - 1];
      RequeuedCount(q, rest, j);
      PushedCount(Requeued(q, rest), last.1.tenant, Retried(last.1), j);
    }
  }

  lemma {:induction false} ListingOnce(t: Table<Job>, ids: set<JobId>)
    requires ids <= t.Keys && forall id :: id in t ==> t[id].payload.id == id
    ensures Once(Listing(t, ids)) && forall i :: 0 <= i < |Listing(t, ids)| ==> Listing(t, ids)[i].0 in ids
    decreases |ids|
  {
    if ids != {} {
      var id := Least(ids);
      var rest := Listing(t, ids - {id});
      ListingOnce(t, ids - {id});
      OnceMore((id, t[id].payload), rest, ids - {id});
    }
  }

  lemma OnceMore(p: (JobId, Job), rest: seq<(JobId, Job)>, ids: set<JobId>)
    requires Once(rest) && (forall i :: 0 <= i < |rest| ==> rest[i].0 in ids) && p.0 !in ids && p.1.id == p.0
    ensures Once([p] + rest) && forall i :: 0 <= i < |[p] + rest| ==> ([p] + rest)[i].0 in ids + {p.0}
  {
    var all := [p] + rest;
    assert forall i :: 0 < i < |all| ==> all[i] == rest[i - 1];
  }

  lemma {:induction false} DropTakenCopies(s: State, ids: set<JobId>, j: JobId)
    requires ids <= s.leases.Keys && LeasesOk(s.leases, s.used)
    ensures Copies(DropTaken(s, ids), j) <= Copies(s, j)
  {
    ListingOnce(s.leases, ids);
    RequeuedCount(s.pending, Listing(s.leases, ids), j);
  }

  // ----- one step -----

  /** A job that was never admitted: no copy of it exists. */
  ghost predicate Unborn(s: State, j: JobId) { j !in s.used || InPhase(s, j, Registered) }

  ghost predicate Unsent(s: State, j: JobId) { forall k :: 0 <= k < |s.sends| ==> s.sends[k].job.id != j }

  ghost predicate NotYet(s: State) { forall j :: Unborn(s, j) ==> Copies(s, j) == 0 && Unsent(s, j) }

  lemma PlaceCopies(s: State, i: nat, w: WorkerId, deadline: nat, j: JobId)
    requires i < |s.pending.entries| && Copies(s, j) <= 1
    ensures Copies(Placed(s, i, w, deadline), j) == Copies(s, j)
  {
    SwapRemovedTotal(s.pending.entries, i, Mark(j));
  }

  lemma {:induction false} LostCopies(s: State, k: nat, j: JobId)
    requires k < |s.sends| && Copies(s, j) <= 1
    ensures Copies(SendLost(s, k), j) <= 1 <==>
            !(s.sends[k].job.id == j && !Exhausted(s.sends[k].job) && Queued(s.pending, j))
  {
    PushedCount(s.pending, s.sends[k].job.tenant, Retried(s.sends[k].job), j);
    CountedIsQueued(s.pending.entries, j);
  }

  lemma {:induction false} StepCopies(s: State, step: Step, j: JobId)
    requires LeasesOk(s.leases, s.used) && NotYet(s) && Enabled(s, step) && Copies(s, j) <= 1
    ensures Copies(Apply(s, step), j) <= 1 <==> !(Doubles(s, step) && s.sends[step.k].job.id == j)
  {
    match step
    case Place(i, w, deadline) => PlaceCopies(s, i, w, deadline, j);
    case SendFailed(k) => LostCopies(s, k, j);
    case Disconnect(w) => DropTakenCopies(s.(connected := s.connected - {w}), HeldBy(s.leases, w), j);
    case Expire(now) => DropTakenCopies(s, Leases.Expired(s.leases, now), j);
    case Admit(id) =>
      PushedCount(s.pending, s.calls[id].tenant, Job(id, s.calls[id].tenant, 0), j);
      assert Unborn(s, id);
    case Clean(id) => KeptTotal(s.pending.entries, (job: Job) => job.id != id, Mark(j));
    case _ =>
  }

  /** No step but its admission makes a copy of a job that has none. */
  lemma {:induction false} NoneStays(s: State, step: Step, j: JobId)
    requires LeasesOk(s.leases, s.used) && Enabled(s, step) && step != Admit(j) && Copies(s, j) == 0 && Unsent(s, j)
    ensures Copies(Apply(s, step), j) == 0 && Unsent(Apply(s, step), j)
  {
    match step
    case Place(i, w, deadline) =>
      SwapRemovedTotal(s.pending.entries, i, Mark(j));
      CountedIsQueued(s.pending.entries, j);
      assert s.pending.entries[i] in s.pending.entries;
    case SendFailed(k) => PushedCount(s.pending, s.sends[k].job.tenant, Retried(s.sends[k].job), j);
    case Disconnect(w) => DropTakenCopies(s.(connected := s.connected - {w}), HeldBy(s.leases, w), j);
    case Expire(now) => DropTakenCopies(s, Leases.Expired(s.leases, now), j);
    case Admit(id) => PushedCount(s.pending, s.calls[id].tenant, Job(id, s.calls[id].tenant, 0), j);
    case Clean(id) => KeptTotal(s.pending.entries, (job: Job) => job.id != id, Mark(j));
    case _ =>
  }

  lemma {:induction false} UnbornBefore(s: State, step: Step, j: JobId)
    requires CallsOk(s) && Enabled(s, step) && Unborn(Apply(s, step), j)
    ensures Unborn(s, j) && step != Admit(j)
  {
  }

  lemma {:induction false} NotYetKept(s: State, step: Step)
    requires LeasesOk(s.leases, s.used) && CallsOk(s) && NotYet(s) && Enabled(s, step)
    ensures NotYet(Apply(s, step))
  {
    forall j | Unborn(Apply(s, step), j) ensures Copies(Apply(s, step), j) == 0 && Unsent(Apply(s, step), j) {
      UnbornBefore(s, step, j);
      NoneStays(s, step, j);
    }
  }

  lemma {:induction false} SingleStep(s: State, step: Step)
    requires LeasesOk(s.leases, s.used) && NotYet(s) && Single(s) && Enabled(s, step)
    ensures Single(Apply(s, step)) <==> !Doubles(s, step)
  {
    forall j ensures Copies(Apply(s, step), j) <= 1 <==> !(Doubles(s, step) && s.sends[step.k].job.id == j) {
      StepCopies(s, step, j);
    }
    if Doubles(s, step) {
      StepCopies(s, step, s.sends[step.k].job.id);
    }
  }

  // ----- every run -----

  lemma {:induction false} RunNotYet(run: seq<State>, steps: seq<Step>, n: nat)
    requires IsRun(run, steps) && n < |run|
    ensures NotYet(run[n])
  {
    if n > 0 {
      RunNotYet(run, steps, n - 1);
      RunSafe(run, steps, n - 1);
      assert Enabled(run[n - 1], steps[n - 1]) && run[n] == Apply(run[n - 1], steps[n - 1]);
      NotYetKept(run[n - 1], steps[n - 1]);
    }
  }

  ghost predicate AllSingle(run: seq<State>, n: nat)
    requires n < |run|
  {
    forall i :: 0 <= i <= n ==> Single(run[i])
  }

  ghost predicate NoneDoubles(run: seq<State>, steps: seq<Step>, n: nat)
    requires IsRun(run, steps) && n <= |steps|
  {
    forall i :: 0 <= i < n ==> !Doubles(run[i], steps[i])
  }

  /** One copy: in every run, each job has at most one queued or leased copy in
      all states up to the `n`-th exactly when no send among the first `n` steps
      failed, with attempts left, while its job was queued. */
  lemma {:induction false} SingleCopyIff(run: seq<State>, steps: seq<Step>, n: nat)
    requires IsRun(run, steps) && n <= |steps|
    ensures AllSingle(run, n) <==> NoneDoubles(run, steps, n)
  {
    if n == 0 {
      assert Single(run[0]);
    } else {
      SingleCopyIff(run, steps, n - 1);
      if Single(run[n - 1]) {
        RunSingleStep(run, steps, n - 1);
      }
      assert AllSingle(run, n) <==> AllSingle(run, n - 1) && Single(run[n]);
      assert NoneDoubles(run, steps, n) <==> NoneDoubles(run, steps, n - 1) && !Doubles(run[n - 1], steps[n - 1]);
    }
  }

  lemma {:induction false} RunSingleStep(run: seq<State>, steps: seq<Step>, k: nat)
    requires IsRun(run, steps) && k < |steps| && Single(run[k])
    ensures Enabled(run[k], steps[k]) && (Single(run[k + 1]) <==> !Doubles(run[k], steps[k]))
  {
    RunNotYet(run, steps, k);
    RunSafe(run, steps, k);
    assert Enabled(run[k], steps[k]) && run[k + 1] == Apply(run[k], steps[k]);
    SingleStep(run[k], steps[k]);
  }
}

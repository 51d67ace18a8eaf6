/** How often a job can be dispatched and retried
    (crates/brokkr-control/src/scheduler.rs). */
module SchedulerRetries {
  import opened Common
  import opened Order
  import opened FairQueue
  import opened Leases
  import opened Sums
  import opened Scheduler
  import opened SchedulerSafety

  // ----- what a copy can still cost: `a` per dispatch, `b` per retry -----

  /** A queued copy: one dispatch, then its lease and its send can each be retried. */
  function QueuedCost(k: nat, a: nat, b: nat): nat
    decreases MAX_ATTEMPTS - k, 1
  {
    if k >= MAX_ATTEMPTS then 0 else a + 2 * HeldCost(k, a, b)
  }

  /** A leased copy or one being sent: one retry, if it has attempts left. */
  function HeldCost(k: nat, a: nat, b: nat): nat
    decreases MAX_ATTEMPTS - k, 0
  {
    if k + 1 >= MAX_ATTEMPTS then 0 else b + QueuedCost(k + 1, a, b)
  }

  function EntryCost(j: JobId, a: nat, b: nat): Entry<Job> -> nat {
    (e: Entry<Job>) => if e.job.id == j then QueuedCost(e.job.attempts, a, b) else 0
  }

  function SendCost(j: JobId, a: nat, b: nat): Send -> nat {
    (x: Send) => if x.job.id == j then HeldCost(x.job.attempts, a, b) else 0
  }

  function LeaseCost(t: Table<Job>, j: JobId, a: nat, b: nat): nat {
    if j in t then HeldCost(t[j].payload.attempts, a, b) else 0
  }

  function Potential(s: State, j: JobId, a: nat, b: nat): nat {
    Total(s.pending.entries, EntryCost(j, a, b)) + LeaseCost(s.leases, j, a, b) + Total(s.sends, SendCost(j, a, b))
  }

  // ----- what a step spends on job `j` -----

  predicate Dispatches(s: State, step: Step, j: JobId)
    requires Enabled(s, step)
  {
    step.Place? && s.pending.entries[step.index].job.id == j
  }

  predicate Retries(s: State, step: Step, j: JobId)
    requires Enabled(s, step)
  {
    match step
    case SendFailed(k) => s.sends[k].job.id == j && !Exhausted(s.sends[k].job)
    case Disconnect(w) => j in HeldBy(s.leases, w) && !Exhausted(s.leases[j].payload)
    case Expire(now) => j in Leases.Expired(s.leases, now) && !Exhausted(s.leases[j].payload)
    case _ => false
  }

  predicate Admits(s: State, step: Step, j: JobId)
    requires Enabled(s, step)
  {
    step == Admit(j) && InPhase(Apply(s, step), j, Waiting)
  }

  function Spent(s: State, step: Step, j: JobId, a: nat, b: nat): nat
    requires Enabled(s, step)
  {
    (if Dispatches(s, step, j) then a else 0) + (if Retries(s, step, j) then b else 0)
  }

  // ----- the potential pays for every step -----

  lemma SplitAround<T>(s: seq<T>, i: nat)
    requires i < |s| - 1
    ensures s[..|s| - 1] + [s[|s| - 1]] == s && s[..i + 1] + s[i + 1..|s| - 1] == s[..|s| - 1] &&
            s[..i] + [s[i]] == s[..i + 1]
  {
  }

  lemma {:induction false} SwapRemovedTotal<T>(s: seq<T>, i: nat, f: T -> nat)
    requires i < |s|
    ensures Total(SwapRemoved(s, i), f) + f(s[i]) == Total(s, f)
  {
    var n := |s| - 1;
    var front, out, last := s[..i], [s[i]], [s[n]];
    TotalOne(s[i], f);
    TotalOne(s[n], f);
    if i == n {
      assert s == front + out;
      TotalJoin(front, out, f);
    } else {
      var mid := s[i + 1..n];
      SplitAround(s, i);
      TotalJoin(s[..n], last, f);
      TotalJoin(s[..i + 1], mid, f);
      TotalJoin(front, out, f);
      TotalJoin(front + last, mid, f);
      TotalJoin(front, last, f);
    }
  }

  lemma {:induction false} KeptTotal(entries: seq<Entry<Job>>, keep: Job -> bool, f: Entry<Job> -> nat)
    ensures Total(Kept(entries, keep), f) <= Total(entries, f)
  {
    if entries != [] {
      var n := |entries| - 1;
      KeptTotal(entries[..n], keep, f);
      TotalNext(Kept(entries[..n], keep), entries[n], f);
      assert Kept(entries[..n], keep) + [] == Kept(entries[..n], keep);
    }
  }

  lemma {:induction false} PushedTotal(q: Queue<Job>, t: TenantId, job: Job, j: JobId, a: nat, b: nat)
    ensures Total(Pushed(q, t, job).entries, EntryCost(j, a, b)) ==
            Total(q.entries, EntryCost(j, a, b)) + if job.id == j then QueuedCost(job.attempts, a, b) else 0
  {
    TotalNext(q.entries, Entry(StartFor(q, t), t, job), EntryCost(j, a, b));
  }

  /** What requeueing the jobs taken puts back for `j`. */
  function TakenCost(taken: seq<(JobId, Job)>, j: JobId, a: nat, b: nat): nat {
    if taken == [] then 0
    else
      var job := taken[|taken| - 1].1;
      TakenCost(taken[..|taken| - 1], j, a, b) + if job.id == j &&
          !Exhausted(job) then QueuedCost(job.attempts + 1, a, b) else 0
  }

  lemma {:induction false} RequeuedTotal(q: Queue<Job>, taken: seq<(JobId, Job)>, j: JobId, a: nat, b: nat)
    ensures Total(Requeued(q, taken).entries, EntryCost(j, a, b)) ==
            Total(q.entries, EntryCost(j, a, b)) + TakenCost(taken, j, a, b)
  {
    if taken != [] {
      var n := |taken| - 1;
      RequeuedTotal(q, taken[..n], j, a, b);
      PushedTotal(Requeued(q, taken[..n]), taken[n].1.tenant, Retried(taken[n].1), j, a, b);
    }
  }

  lemma {:induction false} TakenCostFront(p: (JobId, Job), rest: seq<(JobId, Job)>, j: JobId, a: nat, b: nat)
    ensures TakenCost([p] + rest, j, a, b) == TakenCost(rest, j, a, b) + if p.1.id == j &&
            !Exhausted(p.1) then QueuedCost(p.1.attempts + 1, a, b) else 0
  {
    if rest == [] {
      assert [p] + rest == [p] && [p][..0] == [];
      assert TakenCost([p][..0], j, a, b) == 0;
    } else {
      assert ([p] + rest)[..|rest|] == [p] + rest[..|rest| - 1];
      TakenCostFront(p, rest[..|rest| - 1], j, a, b);
    }
  }

  /** A job has one lease, so at most one copy of it is put back. */
  lemma {:induction false} ListingCost(t: Table<Job>, ids: set<JobId>, j: JobId, a: nat, b: nat)
    requires ids <= t.Keys && forall id :: id in t ==> t[id].payload.id == id
    ensures TakenCost(Listing(t, ids), j, a, b) == if j in ids &&
            !Exhausted(t[j].payload) then QueuedCost(t[j].payload.attempts + 1, a, b) else 0
    decreases |ids|
  {
    if ids != {} {
      var id := Least(ids);
      ListingCost(t, ids - {id}, j, a, b);
      TakenCostFront((id, t[id].payload), Listing(t, ids - {id}), j, a, b);
    }
  }

  lemma PlaceSpends(s: State, i: nat, w: WorkerId, deadline: nat, j: JobId, a: nat, b: nat)
    requires CopiesOk(s) && Enabled(s, Place(i, w, deadline))
    ensures Potential(Placed(s, i, w, deadline), j, a, b) +
            Spent(s, Place(i, w, deadline), j, a, b) <= Potential(s, j, a, b)
  {
    var job := s.pending.entries[i].job;
    assert s.pending.entries[i] in s.pending.entries;
    SwapRemovedTotal(s.pending.entries, i, EntryCost(j, a, b));
    TotalNext(s.sends, Send(w, job), SendCost(j, a, b));
    assert job.attempts < MAX_ATTEMPTS;
    assert QueuedCost(job.attempts, a, b) == a + 2 * HeldCost(job.attempts, a, b);
  }

  lemma {:induction false} SendLostSpends(s: State, k: nat, j: JobId, a: nat, b: nat)
    requires k < |s.sends|
    ensures Potential(SendLost(s, k), j, a, b) + Spent(s, SendFailed(k), j, a, b) <= Potential(s, j, a, b)
  {
    var job := s.sends[k].job;
    TotalWithout(s.sends, k, SendCost(j, a, b));
    PushedTotal(s.pending, job.tenant, Retried(job), j, a, b);
    HeldPays(job.attempts, a, b);
    assert Total(s.sends, SendCost(j, a, b)) ==
           Total(Dropped(s.sends, k), SendCost(j, a, b)) + SendCost(j, a, b)(s.sends[k]);
    assert Spent(s, SendFailed(k), j, a, b) == if job.id == j && !Exhausted(job) then b else 0;
  }

  lemma {:induction false} HeldPays(k: nat, a: nat, b: nat)
    ensures k + 1 < MAX_ATTEMPTS ==> HeldCost(k, a, b) == b + QueuedCost(k + 1, a, b)
  {
  }

  lemma {:induction false} DropTakenSpends(s: State, ids: set<JobId>, j: JobId, a: nat, b: nat)
    requires LeasesOk(s.leases, s.used) && ids <= s.leases.Keys
    ensures Potential(DropTaken(s, ids), j, a, b) +
            (if j in ids && !Exhausted(s.leases[j].payload) then b else 0) <= Potential(s, j, a, b)
  {
    var taken := Listing(s.leases, ids);
    RequeuedTotal(s.pending, taken, j, a, b);
    ListingCost(s.leases, ids, j, a, b);
  }

  lemma {:induction false} AdmitSpends(s: State, id: JobId, j: JobId, a: nat, b: nat)
    requires Enabled(s, Admit(id))
    ensures Potential(Admitted(s, id), j, a, b) <= Potential(s, j, a, b) + if Admits(s, Admit(id), j) then
            QueuedCost(0, a, b) else 0
  {
    PushedTotal(s.pending, s.calls[id].tenant, Job(id, s.calls[id].tenant, 0), j, a, b);
  }

  lemma {:induction false} CleanSpends(s: State, id: JobId, j: JobId, a: nat, b: nat)
    requires Enabled(s, Clean(id))
    ensures Potential(Apply(s, Clean(id)), j, a, b) <= Potential(s, j, a, b)
  {
    KeptTotal(s.pending.entries, (job: Job) => job.id != id, EntryCost(j, a, b));
  }

  /** Steps that only touch leases, calls, waiters or connections cost nothing. */
  lemma {:induction false} QuietSpends(s: State, step: Step, j: JobId, a: nat, b: nat)
    requires Enabled(s, step) && !step.Place? && !step.SendOk? && !step.SendFailed? && !step.Disconnect? &&
             !step.Expire?
    requires !step.Admit? && !step.Clean?
    ensures Potential(Apply(s, step), j, a, b) <= Potential(s, j, a, b)
  {
  }

  lemma {:induction false} StepSpends(s: State, step: Step, j: JobId, a: nat, b: nat)
    requires CopiesOk(s) && Enabled(s, step)
    ensures Potential(Apply(s, step), j, a, b) + Spent(s, step, j, a, b) <=
            Potential(s, j, a, b) + if Admits(s, step, j) then QueuedCost(0, a, b) else 0
  {
    if step.Place? {
      PlaceSpends(s, step.index, step.worker, step.deadline, j, a, b);
    } else if step.SendOk? {
      TotalWithout(s.sends, step.k, SendCost(j, a, b));
    } else if step.SendFailed? {
      SendLostSpends(s, step.k, j, a, b);
    } else if step.Disconnect? {
      DropTakenSpends(s, HeldBy(s.leases, step.worker), j, a, b);
    } else if step.Expire? {
      DropTakenSpends(s, Leases.Expired(s.leases, step.now), j, a, b);
    } else if step.Admit? {
      AdmitSpends(s, step.id, j, a, b);
    } else if step.Clean? {
      CleanSpends(s, step.id, j, a, b);
    } else {
      QuietSpends(s, step, j, a, b);
    }
  }

  // ----- over a whole run -----

  ghost function SpentBy(run: seq<State>, steps: seq<Step>, n: nat, j: JobId, a: nat, b: nat): nat
    requires IsRun(run, steps) && n <= |steps|
  {
    if n == 0 then 0 else SpentBy(run, steps, n - 1, j, a, b) + Spent(run[n - 1], steps[n - 1], j, a, b)
  }

  ghost predicate AdmittedBy(run: seq<State>, steps: seq<Step>, n: nat, j: JobId)
    requires IsRun(run, steps) && n <= |steps|
  {
    exists k :: 0 <= k < n && Admits(run[k], steps[k], j)
  }

  lemma {:induction false} StaysAdmitted(s: State, step: Step, j: JobId)
    requires Enabled(s, step) && j in s.used && !InPhase(s, j, Registered)
    ensures j in Apply(s, step).used && !InPhase(Apply(s, step), j, Registered)
  {
  }

  lemma {:induction false} NowAdmitted(s: State, step: Step, j: JobId)
    requires Enabled(s, step) && Admits(s, step, j) && CallsOk(s)
    ensures j in Apply(s, step).used && !InPhase(Apply(s, step), j, Registered)
  {
  }

  /** A job id is admitted at most once: afterwards it is used and no longer registering. */
  lemma {:induction false} AdmittedOnce(run: seq<State>, steps: seq<Step>, n: nat, j: JobId)
    requires IsRun(run, steps) && n <= |steps| && AdmittedBy(run, steps, n, j)
    ensures j in run[n].used && !InPhase(run[n], j, Registered)
  {
    var k := n - 1;
    assert Enabled(run[k], steps[k]) && run[k + 1] == Apply(run[k], steps[k]);
    if AdmittedBy(run, steps, k, j) {
      AdmittedOnce(run, steps, k, j);
      StaysAdmitted(run[k], steps[k], j);
    } else {
      RunSafe(run, steps, k);
      NowAdmitted(run[k], steps[k], j);
    }
  }

  /** What a run spends on one job, however callers interleave, is paid by its one admission. */
  lemma {:induction false} RunSpends(run: seq<State>, steps: seq<Step>, n: nat, j: JobId, a: nat, b: nat)
    requires IsRun(run, steps) && n <= |steps|
    ensures SpentBy(run, steps, n, j, a, b) + Potential(run[n], j, a, b) <= if AdmittedBy(run, steps, n, j) then
            QueuedCost(0, a, b) else 0
  {
    if n > 0 {
      var k := n - 1;
      RunSpends(run, steps, k, j, a, b);
      RunSafe(run, steps, k);
      assert Enabled(run[k], steps[k]) && run[k + 1] == Apply(run[k], steps[k]);
      StepSpends(run[k], steps[k], j, a, b);
      if AdmittedBy(run, steps, k, j) {
        AdmittedOnce(run, steps, k, j);
        var i :| 0 <= i < k && Admits(run[i], steps[i], j);
        assert i < n;
      }
    }
  }

  lemma CostOfAJob()
    ensures QueuedCost(0, 1, 0) == 31 && QueuedCost(0, 1, 1) == 61
  {
    assert QueuedCost(3, 1, 0) == 3 && QueuedCost(3, 1, 1) == 5;
    assert QueuedCost(1, 1, 0) == 15 && QueuedCost(1, 1, 1) == 29;
  }

  /** No endless retry: in every run a job is dispatched at most 31 times, and
      dispatched and retried at most 61 times in all. Five attempts bound each
      copy; the race between a failed send and a lost lease can double copies. */
  lemma {:induction false} RetriesEnd(run: seq<State>, steps: seq<Step>, j: JobId)
    requires IsRun(run, steps)
    ensures SpentBy(run, steps, |steps|, j, 1, 0) <= 31
    ensures SpentBy(run, steps, |steps|, j, 1, 1) <= 61
  {
    RunSpends(run, steps, |steps|, j, 1, 0);
    RunSpends(run, steps, |steps|, j, 1, 1);
    CostOfAJob();
  }
}

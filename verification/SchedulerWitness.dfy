/** Runs of the scheduler that reach the limits stated for it
    (crates/brokkr-control/src/scheduler.rs). */
module SchedulerWitness {
  import opened Common
  import opened Order
  import opened FairQueue
  import opened Leases
  import opened Sums
  import opened Scheduler
  import opened SchedulerRetries
  import opened SchedulerCopies

  function Last(run: seq<State>): State
    requires run != []
  {
    run[|run| - 1]
  }

  // ----- extending a run -----

  lemma {:induction false} SpentPrefix(run: seq<State>, steps: seq<Step>, run': seq<State>, steps': seq<Step>, n: nat,
      j: JobId, a: nat, b: nat)
    requires IsRun(run, steps) && IsRun(run', steps') && run <= run' && steps <= steps' && n <= |steps|
    ensures SpentBy(run', steps', n, j, a, b) == SpentBy(run, steps, n, j, a, b)
  {
    if n > 0 {
      SpentPrefix(run, steps, run', steps', n - 1, j, a, b);
    }
  }

  lemma {:induction false} Extended(run: seq<State>, steps: seq<Step>, step: Step)
    requires IsRun(run, steps) && Enabled(Last(run), step)
    ensures IsRun(run + [Apply(Last(run), step)], steps + [step])
  {
    var run', steps' := run + [Apply(Last(run), step)], steps + [step];
    forall i | 0 <= i < |steps'| ensures Enabled(run'[i], steps'[i]) && run'[i + 1] == Apply(run'[i], steps'[i]) {
      if i < |steps| {
        assert run'[i] == run[i] && run'[i + 1] == run[i + 1] && steps'[i] == steps[i];
      }
    }
  }

  /** What one more step spends. */
  lemma {:induction false} SpentNext(run: seq<State>, steps: seq<Step>, step: Step, j: JobId, a: nat, b: nat)
    requires IsRun(run, steps) && Enabled(Last(run), step) && IsRun(run + [Apply(Last(run), step)], steps + [step])
    ensures SpentBy(run + [Apply(Last(run), step)], steps + [step], |steps| + 1, j, a, b) ==
            SpentBy(run, steps, |steps|, j, a, b) + Spent(Last(run), step, j, a, b)
  {
    var run', steps' := run + [Apply(Last(run), step)], steps + [step];
    SpentPrefix(run, steps, run', steps', |steps|, j, a, b);
    assert run'[|steps|] == Last(run) && steps'[|steps|] == step;
  }

  // ----- one dispatch that doubles its job -----

  /** Nothing leased, nothing being sent, a worker connected, and `rest` queued. */
  ghost predicate Calm(s: State, w: WorkerId, rest: seq<Entry<Job>>) {
    s.leases == map[] && s.sends == [] && w in s.connected && s.pending.entries == rest
  }

  /** The same, with a copy of `job` queued behind `rest`. */
  ghost predicate Ends(s: State, w: WorkerId, rest: seq<Entry<Job>>, job: Job) {
    && s.leases == map[] && s.sends == [] && w in s.connected && s.pending.entries != []
    && s.pending.entries[..|s.pending.entries| - 1] == rest && s.pending.entries[|s.pending.entries| - 1].job == job
  }

  function LastIndex(s: State): nat
    requires s.pending.entries != []
  {
    |s.pending.entries| - 1
  }

  lemma {:induction false} ListedOne(t: Table<Job>, id: JobId)
    requires id in t
    ensures Listing(t, {id}) == [(id, t[id].payload)]
  {
    assert IsLeast({id}, Least({id}));
    assert {id} - {id} == {};
    assert Listing(t, {}) == [];
  }

  ghost predicate AfterPlace(s: State, w: WorkerId, rest: seq<Entry<Job>>, job: Job) {
    && s.pending.entries == rest && s.leases == map[job.id := Lease(w, 0, job)]
    && s.sends == [Send(w, job)] && w in s.connected
  }

  ghost predicate AfterExpire(s: State, w: WorkerId, rest: seq<Entry<Job>>, job: Job) {
    && s.leases == map[] && s.sends == [Send(w, job)] && w in s.connected
    && if Exhausted(job) then s.pending.entries == rest
       else
         |s.pending.entries| == |rest| + 1 && s.pending.entries[..|rest|] == rest &&
         s.pending.entries[|rest|].job == Retried(job)
  }

  ghost predicate TwoMore(entries: seq<Entry<Job>>, rest: seq<Entry<Job>>, job: Job) {
    |entries| == |rest| + 2 && entries[..|rest|] == rest && entries[|rest|].job == job && entries[|rest| + 1].job == job
  }

  ghost predicate AfterLost(s: State, w: WorkerId, rest: seq<Entry<Job>>, job: Job) {
    && s.leases == map[] && s.sends == []
    && if Exhausted(job) then s.pending.entries == rest else TwoMore(s.pending.entries, rest, Retried(job))
  }

  /** What the four steps of a cycle leave. */
  ghost predicate Doubled(s: State, w: WorkerId, rest: seq<Entry<Job>>, job: Job) {
    AfterLost(s, w, rest, job) && w in s.connected
  }

  lemma {:induction false} PlacedLast(s: State, w: WorkerId, rest: seq<Entry<Job>>, job: Job, a: nat, b: nat)
    requires Ends(s, w, rest, job)
    ensures Enabled(s, Place(LastIndex(s), w, 0)) && AfterPlace(Apply(s, Place(LastIndex(s), w, 0)), w, rest, job)
    ensures Spent(s, Place(LastIndex(s), w, 0), job.id, a, b) == a
  {
  }

  lemma {:induction false} ExpiredOne(s: State, w: WorkerId, rest: seq<Entry<Job>>, job: Job, a: nat, b: nat)
    requires AfterPlace(s, w, rest, job)
    ensures AfterExpire(Apply(s, Expire(0)), w, rest, job)
    ensures Spent(s, Expire(0), job.id, a, b) == if Exhausted(job) then 0 else b
  {
    assert Leases.Expired(s.leases, 0) == {job.id};
    ListedOne(s.leases, job.id);
    var taken := [(job.id, job)];
    assert taken[..0] == [];
    assert Requeued(s.pending, taken[..0]) == s.pending;
    assert s.leases - {job.id} == map[];
  }

  lemma {:induction false} LostAfter(s: State, w: WorkerId, rest: seq<Entry<Job>>, job: Job, a: nat, b: nat)
    requires AfterExpire(s, w, rest, job)
    ensures Enabled(s, SendFailed(0)) && AfterLost(Apply(s, SendFailed(0)), w, rest, job)
    ensures Spent(s, SendFailed(0), job.id, a, b) == if Exhausted(job) then 0 else b
  {
    var all := Apply(s, SendFailed(0)).pending.entries;
    assert !Exhausted(job) ==> all[..|rest| + 1] == s.pending.entries && all[..|rest|] == s.pending.entries[..|rest|];
  }

  lemma {:induction false} Extend(run: seq<State>, steps: seq<Step>, step: Step, j: JobId, a: nat, b: nat)
    returns (run': seq<State>, steps': seq<Step>)
    requires IsRun(run, steps) && Enabled(Last(run), step)
    ensures IsRun(run', steps') && Last(run') == Apply(Last(run), step)
    ensures SpentBy(run', steps', |steps'|, j, a, b) ==
            SpentBy(run, steps, |steps|, j, a, b) + Spent(Last(run), step, j, a, b)
  {
    Extended(run, steps, step);
    SpentNext(run, steps, step, j, a, b);
    run', steps' := run + [Apply(Last(run), step)], steps + [step];
  }

  /** Placed, expired while being sent, then the send fails: one dispatch and,
      with attempts left, two retries that leave two copies. */
  lemma {:induction false} CycleRun(run: seq<State>, steps: seq<Step>, w: WorkerId, rest: seq<Entry<Job>>, job: Job,
      a: nat, b: nat)
    returns (run': seq<State>, steps': seq<Step>)
    requires IsRun(run, steps) && Ends(Last(run), w, rest, job)
    ensures IsRun(run', steps') && Doubled(Last(run'), w, rest, job)
    ensures SpentBy(run', steps', |steps'|, job.id, a, b) ==
            SpentBy(run, steps, |steps|, job.id, a, b) + a + if Exhausted(job) then 0 else 2 * b
  {
    var s := Last(run);
    PlacedLast(s, w, rest, job, a, b);
    var run1, steps1 := Extend(run, steps, Place(LastIndex(s), w, 0), job.id, a, b);
    ExpiredOne(Last(run1), w, rest, job, a, b);
    var run2, steps2 := Extend(run1, steps1, Expire(0), job.id, a, b);
    LostAfter(Last(run2), w, rest, job, a, b);
    var run3, steps3 := Extend(run2, steps2, SendFailed(0), job.id, a, b);
    Reconnected(Last(run3), w, rest, job, a, b);
    run', steps' := Extend(run3, steps3, Connect(w), job.id, a, b);
  }

  lemma {:induction false} Reconnected(s: State, w: WorkerId, rest: seq<Entry<Job>>, job: Job, a: nat, b: nat)
    requires AfterLost(s, w, rest, job)
    ensures Doubled(Apply(s, Connect(w)), w, rest, job) && Spent(s, Connect(w), job.id, a, b) == 0
  {
  }

  // ----- as many dispatches as the bound allows -----

  lemma DoubledEnds(s: State, w: WorkerId, rest: seq<Entry<Job>>, job: Job) returns (one: Entry<Job>)
    requires Doubled(s, w, rest, job) && !Exhausted(job)
    ensures Ends(s, w, rest + [one], Retried(job)) && one.job == Retried(job)
  {
    var all := s.pending.entries;
    one := all[|rest|];
    assert all[..|all| - 1] == rest + [one];
  }

  lemma CalmEnds(s: State, w: WorkerId, rest: seq<Entry<Job>>, one: Entry<Job>, job: Job)
    requires Calm(s, w, rest + [one]) && one.job == job
    ensures Ends(s, w, rest, job)
  {
    assert (rest + [one])[..|rest|] == rest;
  }

  /** The whole run spends `n` on job `j`. */
  ghost predicate Costs(run: seq<State>, steps: seq<Step>, j: JobId, a: nat, b: nat, n: nat)
    requires IsRun(run, steps)
  {
    SpentBy(run, steps, |steps|, j, a, b) == n
  }

  /** Using up the copy at the end of the queue costs all that was reckoned for it. */
  lemma {:induction false} UseUp(run: seq<State>, steps: seq<Step>, w: WorkerId, rest: seq<Entry<Job>>, job: Job,
      a: nat, b: nat, n: nat)
    returns (run': seq<State>, steps': seq<Step>)
    requires IsRun(run, steps) && Ends(Last(run), w, rest, job) && job.attempts < MAX_ATTEMPTS
    requires Costs(run, steps, job.id, a, b, n)
    ensures IsRun(run', steps') && Calm(Last(run'), w, rest)
    ensures Costs(run', steps', job.id, a, b, n + QueuedCost(job.attempts, a, b))
    decreases MAX_ATTEMPTS - job.attempts
  {
    var m := n + a + if Exhausted(job) then 0 else 2 * b;
    var run1, steps1 := CycleCosts(run, steps, w, rest, job, a, b, n);
    if Exhausted(job) {
      run', steps' := run1, steps1;
    } else {
      var one := DoubledEnds(Last(run1), w, rest, job);
      var run2, steps2 := UseUp(run1, steps1, w, rest + [one], Retried(job), a, b, m);
      CalmEnds(Last(run2), w, rest, one, Retried(job));
      var cost := QueuedCost(job.attempts + 1, a, b);
      run', steps' := UseUp(run2, steps2, w, rest, Retried(job), a, b, m + cost);
    }
  }

  lemma {:induction false} CycleCosts(run: seq<State>, steps: seq<Step>, w: WorkerId, rest: seq<Entry<Job>>, job: Job,
      a: nat, b: nat, n: nat)
    returns (run': seq<State>, steps': seq<Step>)
    requires IsRun(run, steps) && Ends(Last(run), w, rest, job) && Costs(run, steps, job.id, a, b, n)
    ensures IsRun(run', steps') && Doubled(Last(run'), w, rest, job)
    ensures Costs(run', steps', job.id, a, b, n + a + if Exhausted(job) then 0 else 2 * b)
  {
    run', steps' := CycleRun(run, steps, w, rest, job, a, b);
  }

  /** A job admitted to an idle scheduler with one worker. */
  lemma {:induction false} OneJob(j: JobId, t: TenantId, w: WorkerId, a: nat, b: nat)
      returns (run: seq<State>, steps: seq<Step>)
    ensures IsRun(run, steps) && Ends(Last(run), w, [], Job(j, t, 0)) && SpentBy(run, steps, |steps|, j, a, b) == 0
  {
    var start := State(None, {w}, Queue([], 0, map[], map[]), map[], map[], {}, map[], [], multiset{}, multiset{}, {});
    run, steps := [start], [];
    run, steps := Extend(run, steps, Register(j, t), j, a, b);
    run, steps := Extend(run, steps, Admit(j), j, a, b);
  }

  /** The bound on what a job can cost is reached: 31 dispatches, 61 dispatches and retries. */
  lemma {:induction false} RetriesReached(j: JobId, t: TenantId, w: WorkerId, a: nat, b: nat)
      returns (run: seq<State>, steps: seq<Step>)
    ensures IsRun(run, steps) && SpentBy(run, steps, |steps|, j, a, b) == QueuedCost(0, a, b)
    ensures a == 1 && b == 0 ==> SpentBy(run, steps, |steps|, j, a, b) == 31
    ensures a == 1 && b == 1 ==> SpentBy(run, steps, |steps|, j, a, b) == 61
  {
    run, steps := OneJob(j, t, w, a, b);
    run, steps := UseUp(run, steps, w, [], Job(j, t, 0), a, b, 0);
    CostOfAJob();
  }

  /** One job in two places: its lease expires while it is being sent, and then the send fails. */
  lemma {:induction false} TwoCopies(j: JobId, t: TenantId, w: WorkerId) returns (run: seq<State>, steps: seq<Step>)
    ensures IsRun(run, steps) && Copies(Last(run), j) == 2
  {
    run, steps := OneJob(j, t, w, 0, 0);
    run, steps := CycleRun(run, steps, w, [], Job(j, t, 0), 0, 0);
    CountTwo(Last(run).pending.entries, j);
  }

  lemma {:induction false} CountTwo(entries: seq<Entry<Job>>, j: JobId)
    requires |entries| == 2 && entries[0].job.id == j && entries[1].job.id == j
    ensures Total(entries, Mark(j)) == 2
  {
    assert entries == [entries[0]] + [entries[1]];
    TotalJoin([entries[0]], [entries[1]], Mark(j));
    TotalOne(entries[0], Mark(j));
    TotalOne(entries[1], Mark(j));
  }
}

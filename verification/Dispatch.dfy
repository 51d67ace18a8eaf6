/** The dispatch loop of crates/brokkr-control/src/scheduler.rs, run without
    interference, as steps of the scheduler state machine. */
module Dispatch {
  import opened Common
  import opened Order
  import opened FairQueue
  import opened Leases
  import opened Scheduler
  import opened SchedulerSafety
  import opened Strategies

  /** What a strategy is told: the job, the leases, and the round, which stands
      for what changes elsewhere (the clock, the locality index). */
  datatype Context = Context(job: Job, leases: Table<Job>, round: nat)

  /** Connected, eligible and holding no lease. */
  function IdleFor(connected: set<WorkerId>, leases: Table<Job>, eligible: (Job, WorkerId) -> bool,
      job: Job): set<WorkerId> {
    set w | w in connected && eligible(job, w) && !Busy(leases, w)
  }

  /** Entry `i` has an idle worker, and no entry with one has a lower start tag. */
  ghost predicate LowestServable(entries: seq<Entry<Job>>, idle: Job -> set<WorkerId>, i: nat) {
    && i < |entries| && idle(entries[i].job) != {}
    && forall k :: 0 <= k < |entries| && idle(entries[k].job) != {} ==> entries[i].start <= entries[k].start
  }

  class Dispatcher {
    const eligible: (Job, WorkerId) -> bool
    const choose: (Context, seq<WorkerId>) -> Option<WorkerId>
    /** Workers whose job channel is closed: a send to them fails. */
    const closed: set<WorkerId>
    var connected: set<WorkerId>
    const pending: FairQueue<Job>
    const leases: LeaseTable<Job>
    var waiters: set<JobId>
    /** The scheduler state this object implements. */
    ghost var model: State

    ghost predicate Coupled()
      reads this, pending, leases
    {
      model.connected == connected && model.pending == pending.State() && model.leases == leases.leases &&
          model.waiters == waiters
    }

    ghost predicate Valid()
      reads this, pending, leases
    {
      Coupled() && Inv(model) && Chooses(choose)
    }

    constructor (eligible: (Job, WorkerId) -> bool, choose: (Context, seq<WorkerId>) -> Option<WorkerId>,
        closed: set<WorkerId>)
      requires Chooses(choose)
      ensures Valid()
    {
      this.eligible, this.choose, this.closed := eligible, choose, closed;
      connected, waiters := {}, {};
      pending := new FairQueue<Job>();
      leases := new LeaseTable<Job>();
      model := State(None, {}, Queue([], 0, map[], map[]), map[], map[], {}, map[], [], multiset{}, multiset{}, {});
      new;
      assert forall t :: Active(model.calls, t) == {};
    }

    /** Requeues jobs taken from the lease table, bumping each attempt count. */
    method RequeueTaken(taken: seq<(JobId, Job)>) returns (requeued: nat, giveUp: seq<JobId>)
      modifies pending
      ensures pending.State() == Requeued(old(pending.State()), taken) && multiset(giveUp) == GivenUp(taken)
      ensures requeued + |giveUp| == |taken|
    {
      requeued, giveUp := 0, [];
      for n := 0 to |taken|
        invariant pending.State() == Requeued(old(pending.State()), taken[..n]) &&
                  multiset(giveUp) == GivenUp(taken[..n])
        invariant requeued + |giveUp| == n
      {
        var (id, job) := taken[n];
        assert taken[..n + 1][..n] == taken[..n];
        if job.attempts + 1 >= MAX_ATTEMPTS {
          giveUp := giveUp + [id];
        } else {
          pending.Push(job.tenant, Retried(job));
          requeued := requeued + 1;
        }
      }
      assert taken[..|taken|] == taken;
    }

    function Idle(job: Job): set<WorkerId>
      reads this, leases
    {
      IdleFor(connected, leases.leases, eligible, job)
    }

    /** The lowest-start-tag entry that some idle worker can take. */
    method FindSlot() returns (best: Option<nat>)
      ensures best.None? ==> forall k :: 0 <= k < |pending.entries| ==> Idle(pending.entries[k].job) == {}
      ensures best.Some? ==> best.value < |pending.entries| && Idle(pending.entries[best.value].job) != {}
      ensures best.Some? ==> forall k :: 0 <= k < |pending.entries| && Idle(pending.entries[k].job) != {} ==>
                pending.entries[best.value].start < pending.entries[k].start ||
                (pending.entries[best.value].start == pending.entries[k].start && best.value <= k)
    {
      best := None;
      for i := 0 to |pending.entries|
        invariant best.None? ==> forall k :: 0 <= k < i ==> Idle(pending.entries[k].job) == {}
        invariant best.Some? ==> best.value < i && Idle(pending.entries[best.value].job) != {}
        invariant best.Some? ==> forall k :: 0 <= k < i && Idle(pending.entries[k].job) != {} ==>
          pending.entries[best.value].start < pending.entries[k].start ||
          (pending.entries[best.value].start == pending.entries[k].start && best.value <= k)
      {
        if best.Some? && pending.entries[i].start >= pending.entries[best.value].start {
          continue;
        }
        if Idle(pending.entries[i].job) != {} {
          best := Some(i);
        }
      }
    }

    /** Leases the chosen entry to a worker: the decision made under the lock. */
    method PlaceOn(i: nat, w: WorkerId, deadline: nat) returns (job: Job)
      requires Valid() && Enabled(model, Place(i, w, deadline))
      modifies this`model, pending, leases
      ensures Valid() && model == Apply(old(model), Place(i, w, deadline)) && job == old(pending.entries)[i].job
      ensures |pending.entries| == |old(pending.entries)| - 1
    {
      StepKeeps(model, Place(i, w, deadline));
      var taken := pending.Take(i);
      job := taken.value;
      leases.Insert(job.id, w, deadline, job);
      model := Apply(model, Place(i, w, deadline));
    }

    /** The channel was closed: drop the lease and the worker, then retry or give up. */
    method SendLostTo(w: WorkerId, job: Job, ghost k: nat)
      requires Valid() && Enabled(model, SendFailed(k)) && model.sends[k] == Send(w, job)
      modifies this`model, this`connected, pending, leases
      ensures Valid() && model == Apply(old(model), SendFailed(k)) && connected == old(connected) - {w} &&
              waiters == old(waiters)
    {
      StepKeeps(model, SendFailed(k));
      var _ := leases.Complete(job.id);
      connected := connected - {w};
      if job.attempts + 1 < MAX_ATTEMPTS {
        pending.Push(job.tenant, Retried(job));
      }
      model := Apply(model, SendFailed(k));
    }

    /** A job out of attempts: its waiter is dropped. */
    method Fail(id: JobId)
      requires Valid() && id in model.givingUp
      modifies this`model, this`waiters
      ensures Valid() && model == Apply(old(model), GiveUp(id))
    {
      StepKeeps(model, GiveUp(id));
      waiters := waiters - {id};
      model := Apply(model, GiveUp(id));
    }

    /** The failure path of a send: the lease, the worker, then a retry or the end. */
    method DeliverLost(w: WorkerId, job: Job, ghost k: nat) returns (ghost p: Path)
      requires Valid() && k < |model.sends| && model.sends[k] == Send(w, job)
      modifies this`model, this`connected, this`waiters, pending, leases
      ensures Valid() && IsPath(p) && p.states[0] == old(model) && p.states[|p.states| - 1] == model
      ensures forall n :: 0 <= n < |p.steps| ==> !p.steps[n].Place?
      ensures connected == old(connected) - {w}
    {
      ghost var s := model;
      SendLostTo(w, job, k);
      ghost var s1 := model;
      p := At(s1);
      if job.attempts + 1 >= MAX_ATTEMPTS {
        Fail(job.id);
        FromIsPath(s1, GiveUp(job.id), At(model));
        p := From(s1, GiveUp(job.id), At(model));
      }
      FromIsPath(s, SendFailed(k), p);
      p := From(s, SendFailed(k), p);
    }

    /** Sends a placed job and handles the outcome. */
    method Deliver(w: WorkerId, job: Job, ghost k: nat) returns (ghost p: Path)
      requires Valid() && k < |model.sends| && model.sends[k] == Send(w, job)
      modifies this`model, this`connected, this`waiters, pending, leases
      ensures Valid() && IsPath(p) && p.states[0] == old(model) && p.states[|p.states| - 1] == model
      ensures forall n :: 0 <= n < |p.steps| ==> !p.steps[n].Place?
      ensures if w in closed then connected == old(connected) - {w}
              else connected == old(connected) && pending.entries == old(pending.entries)
    {
      if w in closed {
        p := DeliverLost(w, job, k);
      } else {
        ghost var s := model;
        StepKeeps(model, SendOk(k));
        model := Apply(model, SendOk(k));
        FromIsPath(s, SendOk(k), At(model));
        p := From(s, SendOk(k), At(model));
      }
    }

    /** One round of the loop: place one job, then send it. */
    method DispatchOne(i: nat, w: WorkerId, deadline: nat) returns (ghost p: Path)
      requires Valid() && Enabled(model, Place(i, w, deadline))
      modifies this`model, this`connected, this`waiters, pending, leases
      ensures Valid() && IsPath(p) && p.states[0] == old(model) && p.states[|p.states| - 1] == model
      ensures |p.steps| > 0 && p.steps[0] == Place(i, w, deadline) && forall k :: 0 < k < |p.steps| ==>
              !p.steps[k].Place?
      ensures if w in closed then connected == old(connected) - {w}
              else connected == old(connected) && |pending.entries| < |old(pending.entries)|
    {
      ghost var s, k := model, |model.sends|;
      var job := PlaceOn(i, w, deadline);
      p := Deliver(w, job, k);
      FromIsPath(s, Place(i, w, deadline), p);
      p := From(s, Place(i, w, deadline), p);
    }

    /** Places queued jobs until none has an idle eligible worker: each round
        takes the lowest start tag that can be served, and the loop ends.
        `deadlines` gives the lease deadline of each round. */
    method TryDispatch(deadlines: nat -> nat) returns (ghost p: Path)
      requires Valid()
      modifies this`model, this`connected, this`waiters, pending, leases
      ensures Valid() && IsPath(p) && p.states[0] == old(model) && p.states[|p.states| - 1] == model
      ensures forall k :: 0 <= k < |p.steps| && p.steps[k].Place? ==> FairPlacement(p.states[k], eligible, p.steps[k])
      ensures forall k :: 0 <= k < |pending.entries| ==> Idle(pending.entries[k].job) == {}
    {
      p := Path([model], []);
      var round := 0;
      while true
        invariant Valid() && IsPath(p) && p.states[0] == old(model) && p.states[|p.states| - 1] == model
        invariant forall k ::
                    0 <= k < |p.steps| && p.steps[k].Place? ==> FairPlacement(p.states[k], eligible, p.steps[k])
        decreases |connected|, |pending.entries|
      {
        var best := FindSlot();
        if best.None? {
          return;
        }
        var job := pending.entries[best.value].job;
        var candidates := Idle(job);
        SortedIs(candidates);
        var w := choose(Context(job, leases.leases, round), Sorted(candidates)).value;
        assert w in candidates && FairPlacement(model, eligible, Place(best.value, w, deadlines(round)));
        ghost var more := DispatchOne(best.value, w, deadlines(round));
        JoinPaths(p, more, eligible);
        p := Joined(p, more);
        round := round + 1;
      }
    }
  }

  /** A stretch of a run of the scheduler. */
  datatype Path = Path(states: seq<State>, steps: seq<Step>)

  ghost predicate IsPath(p: Path) {
    && |p.states| == |p.steps| + 1
    && forall k :: 0 <= k < |p.steps| ==>
         Enabled(p.states[k], p.steps[k]) && p.states[k + 1] == Apply(p.states[k], p.steps[k])
  }

  /** `p` with one more step at the front. */
  function From(s: State, step: Step, p: Path): Path { Path([s] + p.states, [step] + p.steps) }

  function At(s: State): Path { Path([s], []) }

  lemma {:induction false} FromIsPath(s: State, step: Step, p: Path)
    requires Enabled(s, step) && IsPath(p) && p.states[0] == Apply(s, step)
    ensures IsPath(From(s, step, p))
  {
    var q := From(s, step, p);
    forall k | 0 <= k < |q.steps|
      ensures Enabled(q.states[k], q.steps[k]) && q.states[k + 1] == Apply(q.states[k], q.steps[k])
    {
      if k > 0 {
        assert q.states[k] == p.states[k - 1] && q.states[k + 1] == p.states[k] && q.steps[k] == p.steps[k - 1];
      }
    }
  }

  /** A placement on an idle eligible worker of a job no queued servable job comes before. */
  ghost predicate FairPlacement(s: State, eligible: (Job, WorkerId) -> bool, step: Step)
    requires step.Place?
  {
    && LowestServable(s.pending.entries, job => IdleFor(s.connected, s.leases, eligible, job), step.index)
    && step.worker in IdleFor(s.connected, s.leases, eligible, s.pending.entries[step.index].job)
  }

  function Joined(p: Path, q: Path): Path
    requires |q.states| > 0
  {
    Path(p.states + q.states[1..], p.steps + q.steps)
  }

  lemma {:induction false} JoinPaths(p: Path, q: Path, eligible: (Job, WorkerId) -> bool)
    requires IsPath(p) && IsPath(q) && p.states[|p.states| - 1] == q.states[0] && |q.steps| > 0
    requires forall k :: 0 <= k < |p.steps| && p.steps[k].Place? ==> FairPlacement(p.states[k], eligible, p.steps[k])
    requires q.steps[0].Place? && FairPlacement(q.states[0], eligible, q.steps[0])
    requires forall k :: 0 < k < |q.steps| ==> !q.steps[k].Place?
    ensures IsPath(Joined(p, q)) && Joined(p, q).states[0] == p.states[0]
    ensures Joined(p, q).states[|Joined(p, q).states| - 1] == q.states[|q.states| - 1]
    ensures forall k :: 0 <= k < |Joined(p, q).steps| && Joined(p, q).steps[k].Place? ==>
            FairPlacement(Joined(p, q).states[k], eligible, Joined(p, q).steps[k])
  {
    var j, n := Joined(p, q), |p.steps|;
    forall k | n <= k < |j.states| ensures j.states[k] == q.states[k - n] {
    }
    forall k | 0 <= k < |j.steps|
      ensures Enabled(j.states[k], j.steps[k]) && j.states[k + 1] == Apply(j.states[k], j.steps[k])
      ensures j.steps[k].Place? ==> FairPlacement(j.states[k], eligible, j.steps[k])
    {
      if k < n {
        assert j.states[k] == p.states[k] && j.states[k + 1] == p.states[k + 1] && j.steps[k] == p.steps[k];
      } else {
        assert j.states[k] == q.states[k - n] && j.states[k + 1] == q.states[k - n + 1] && j.steps[k] == q.steps[k - n];
      }
    }
  }
}

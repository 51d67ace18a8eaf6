/** The scheduler of crates/brokkr-control/src/scheduler.rs as a state machine: every
    lock-held section is one step, and whatever a caller still has to do outside
    the lock is part of the state, so steps of different callers interleave freely. */
module Scheduler {
  import opened Common
  import opened FairQueue
  import opened Leases

  const MAX_ATTEMPTS: nat := 5

  /** One copy of a job, as it is queued, leased or being sent. */
  datatype Job = Job(id: JobId, tenant: TenantId, attempts: nat)

  /** Where an `execute` call stands. */
  datatype Phase = Registered | Waiting | Rejected | TimingOut | Done

  datatype Call = Call(tenant: TenantId, phase: Phase)

  /** A job placed on a worker whose channel send has not finished. */
  datatype Send = Send(worker: WorkerId, job: Job)

  datatype State = State(
    limit: Option<nat>,
    connected: set<WorkerId>,
    pending: Queue<Job>,
    leases: Table<Job>,
    inflight: map<TenantId, nat>,
    waiters: set<JobId>,
    calls: map<JobId, Call>,
    sends: seq<Send>,
    reporting: multiset<JobId>,
    givingUp: multiset<JobId>,
    used: set<JobId>)

  function InflightOf(s: State, t: TenantId): nat { if t in s.inflight then s.inflight[t] else 0 }

  function Incremented(m: map<TenantId, nat>, t: TenantId): map<TenantId, nat> {
    m[t := (if t in m then m[t] else 0) + 1]
  }

  /** Saturating, and idle tenants are dropped. */
  function Decremented(m: map<TenantId, nat>, t: TenantId): map<TenantId, nat> {
    if t !in m then m else if m[t] <= 1 then m - {t} else m[t := m[t] - 1]
  }

  function Retried(job: Job): Job { job.(attempts := job.attempts + 1) }

  predicate Exhausted(job: Job) { job.attempts + 1 >= MAX_ATTEMPTS }

  /** Jobs taken from the lease table go back to the queue, unless out of attempts. */
  function Requeued(q: Queue<Job>, taken: seq<(JobId, Job)>): Queue<Job> {
    if taken == [] then q
    else
      var before, job := Requeued(q, taken[..|taken| - 1]), taken[|taken| - 1].1;
      if Exhausted(job) then before else Pushed(before, job.tenant, Retried(job))
  }

  function GivenUp(taken: seq<(JobId, Job)>): multiset<JobId> {
    if taken == [] then multiset{}
    else
      var (id, job) := taken[|taken| - 1];
      GivenUp(taken[..|taken| - 1]) + if Exhausted(job) then multiset{id} else multiset{}
  }

  function DropTaken(s: State, ids: set<JobId>): State
    requires ids <= s.leases.Keys
  {
    var taken := Listing(s.leases, ids);
    s.(leases := s.leases - ids, pending := Requeued(s.pending, taken), givingUp := s.givingUp + GivenUp(taken))
  }

  function Dropped<T>(s: seq<T>, k: nat): seq<T>
    requires k < |s|
  {
    s[..k] + s[k + 1..]
  }

  datatype Step =
    | Register(id: JobId, tenant: TenantId)
    | Admit(id: JobId)
    | Reject(id: JobId)
    | Place(index: nat, worker: WorkerId, deadline: nat)
    | SendOk(k: nat)
    | SendFailed(k: nat)
    | GiveUp(id: JobId)
    | Connect(worker: WorkerId)
    | Disconnect(worker: WorkerId)
    | Expire(now: nat)
    | Renew(worker: WorkerId, deadline: nat)
    | Report(id: JobId)
    | ReportDone(id: JobId)
    | Timeout(id: JobId)
    | Clean(id: JobId)
    | Finish(id: JobId)

  predicate InPhase(s: State, id: JobId, phase: Phase) { id in s.calls && s.calls[id].phase == phase }

  predicate Enabled(s: State, step: Step) {
    match step
    case Register(id, _) => id !in s.used
    case Admit(id) => InPhase(s, id, Registered)
    case Reject(id) => InPhase(s, id, Rejected)
    case Place(i, w, _) => i < |s.pending.entries| && w in s.connected && !Busy(s.leases, w)
    case SendOk(k) => k < |s.sends|
    case SendFailed(k) => k < |s.sends|
    case GiveUp(id) => id in s.givingUp
    case Connect(_) => true
    case Disconnect(_) => true
    case Expire(_) => true
    case Renew(_, _) => true
    case Report(_) => true
    case ReportDone(id) => id in s.reporting
    case Timeout(id) => InPhase(s, id, Waiting)
    case Clean(id) => InPhase(s, id, TimingOut)
    case Finish(id) => InPhase(s, id, Done) || (InPhase(s, id, Waiting) && id !in s.waiters)
  }

  function To(s: State, id: JobId, phase: Phase): map<JobId, Call>
    requires id in s.calls
  {
    s.calls[id := s.calls[id].(phase := phase)]
  }

  function Placed(s: State, i: nat, w: WorkerId, deadline: nat): State
    requires i < |s.pending.entries|
  {
    var job := s.pending.entries[i].job;
    s.(pending := Taken(s.pending, i), leases := s.leases[job.id := Lease(w, deadline, job)], sends :=
        s.sends + [Send(w, job)])
  }

  /** The channel closed between placement and send. */
  function SendLost(s: State, k: nat): State
    requires k < |s.sends|
  {
    var Send(w, job) := s.sends[k];
    s.(sends := Dropped(s.sends, k),
       leases := s.leases - {job.id},
       connected := s.connected - {w},
       pending := if Exhausted(job) then s.pending else Pushed(s.pending, job.tenant, Retried(job)),
       givingUp := s.givingUp + if Exhausted(job) then multiset{job.id} else multiset{})
  }

  function Admitted(s: State, id: JobId): State
    requires id in s.calls
  {
    var t := s.calls[id].tenant;
    if s.limit.Some? && InflightOf(s, t) >= s.limit.value then s.(calls := To(s, id, Rejected))
    else s.(calls := To(s, id, Waiting), inflight := Incremented(s.inflight, t), pending :=
        Pushed(s.pending, t, Job(id, t, 0)))
  }

  function Apply(s: State, step: Step): State
    requires Enabled(s, step)
  {
    match step
    case Register(id, t) => s.(used := s.used + {id}, waiters := s.waiters + {id}, calls :=
      s.calls[id := Call(t, Registered)])
    case Admit(id) => Admitted(s, id)
    case Reject(id) => s.(waiters := s.waiters - {id}, calls := s.calls - {id})
    case Place(i, w, deadline) => Placed(s, i, w, deadline)
    case SendOk(k) => s.(sends := Dropped(s.sends, k))
    case SendFailed(k) => SendLost(s, k)
    case GiveUp(id) => s.(waiters := s.waiters - {id}, givingUp := s.givingUp - multiset{id})
    case Connect(w) => s.(connected := s.connected + {w})
    case Disconnect(w) => DropTaken(s.(connected := s.connected - {w}), HeldBy(s.leases, w))
    case Expire(now) => DropTaken(s, Leases.Expired(s.leases, now))
    case Renew(w, deadline) => s.(leases := Renewed(s.leases, w, deadline))
    case Report(id) => if id in s.leases then s.(leases := s.leases - {id}, reporting := s.reporting + multiset{id})
      else s
    case ReportDone(id) => s.(waiters := s.waiters - {id}, reporting := s.reporting - multiset{id})
    case Timeout(id) => s.(waiters := s.waiters - {id}, calls := To(s, id, TimingOut))
    case Clean(id) =>
      s.(pending := s.pending.(entries := Kept(s.pending.entries, (job: Job) => job.id != id)),
         leases := s.leases - {id}, calls := To(s, id, Done))
    case Finish(id) => s.(inflight := Decremented(s.inflight, s.calls[id].tenant), calls := s.calls - {id})
  }

  predicate IsInit(s: State) {
    && s.pending.entries == [] && s.leases == map[] && s.inflight == map[] && s.waiters == {} && s.calls == map[]
    && s.sends == [] && s.reporting == multiset{} && s.givingUp == multiset{} && s.used == {}
  }

  ghost predicate IsRun(run: seq<State>, steps: seq<Step>) {
    && |run| == |steps| + 1 && IsInit(run[0])
    && forall i :: 0 <= i < |steps| ==> Enabled(run[i], steps[i]) && run[i + 1] == Apply(run[i], steps[i])
  }

  // ----- the invariant -----

  ghost predicate Queued(q: Queue<Job>, id: JobId) { exists e :: e in q.entries && e.job.id == id }

  ghost predicate GoodJob(job: Job, used: set<JobId>) { job.attempts < MAX_ATTEMPTS && job.id in used }

  /** Every copy has attempts left. */
  ghost predicate QueueOk(q: Queue<Job>, used: set<JobId>) { forall e :: e in q.entries ==> GoodJob(e.job, used) }

  ghost predicate LeasesOk(t: Table<Job>, used: set<JobId>) {
    forall id :: id in t ==> GoodJob(t[id].payload, used) && t[id].payload.id == id
  }

  ghost predicate SendsOk(sends: seq<Send>, used: set<JobId>) {
    forall k :: 0 <= k < |sends| ==> GoodJob(sends[k].job, used)
  }

  ghost predicate CallsOk(s: State) {
    && s.calls.Keys <= s.used
    && forall id :: id in s.waiters ==> id in s.calls && s.calls[id].phase in {Registered, Waiting, Rejected}
  }

  /** A caller whose job was admitted and who still waits has a copy of the job
      somewhere, or is about to be answered or failed. */
  ghost predicate NoLostJob(s: State) {
    forall id :: id in s.waiters && InPhase(s, id, Waiting) ==>
      Queued(s.pending, id) || id in s.leases || id in s.reporting || id in s.givingUp
  }

  function Active(calls: map<JobId, Call>, t: TenantId): set<JobId> {
    set id | id in calls && calls[id].tenant == t && calls[id].phase in {Waiting, TimingOut, Done}
  }

  /** A tenant's in-flight count is its admitted, unfinished calls, within the quota. */
  ghost predicate QuotaOk(s: State) {
    forall t :: InflightOf(s, t) == |Active(s.calls, t)| && (s.limit.Some? ==> InflightOf(s, t) <= s.limit.value)
  }

  ghost predicate Inv(s: State) {
    && QueueOk(s.pending, s.used) && LeasesOk(s.leases, s.used) && SendsOk(s.sends, s.used)
    && OneEach(s.leases) && CallsOk(s) && NoLostJob(s) && QuotaOk(s)
  }
}

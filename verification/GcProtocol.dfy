/** The coordination barrier between sweeps and writers (crates/brokkr-cas/src/gc.rs,
    crates/brokkr-cas/src/action_cache.rs) as a state machine: every store access is
    one step, and steps of the collector and of all writers interleave. */
module GcProtocol {
  import opened Common
  import opened Cas
  import opened Gc

  /** A caller caching a result. An early writer takes the guard before it uploads
      the result's blobs, all of them; a late one takes it before the cache write,
      whatever was uploaded. */
  datatype Writer = Writer(action: Digest, result: ActionResult, early: bool, uploaded: set<Digest>)

  datatype Owner = Collector | Worker(id: nat)

  datatype Phase = Idle | Marking | Listing(reachable: set<Digest>) | Deleting(rest: set<Digest>)

  datatype State = State(blobs: set<Digest>, entries: map<Digest, ActionResult>, guard: Option<Owner>, gc: Phase,
      writers: map<nat, Writer>)

  datatype Step =
    | Begin(w: nat, action: Digest, result: ActionResult, early: bool)
    | Upload(w: nat, d: Digest)
    | Acquire(w: nat)
    | Commit(w: nat)
    | Abandon(w: nat)
    | Add(d: Digest)
    | SweepStart
    | MarkAll(reachable: set<Digest>)
    | ListAll
    | Delete(d: Digest)
    | SweepEnd

  predicate Holds(s: State, w: nat) { s.guard == Some(Worker(w)) }

  /** Everything the result refers to has been uploaded. */
  ghost predicate Complete(w: Writer) { forall d :: Refers(w.result, d) ==> d in w.uploaded }

  ghost predicate Enabled(s: State, step: Step) {
    match step
    case Begin(w, _, _, early) => w !in s.writers && !Holds(s, w) && (early ==> s.guard == None)
    case Upload(w, d) => w in s.writers && Refers(s.writers[w].result, d)
    case Acquire(w) => w in s.writers && s.guard == None
    case Commit(w) => w in s.writers && Holds(s, w) && (s.writers[w].early ==> Complete(s.writers[w]))
    case Abandon(w) => w in s.writers
    case Add(_) => true
    case SweepStart => s.guard == None && s.gc == Idle
    case MarkAll(reachable) => s.gc == Marking && forall d :: d in reachable <==> Referenced(s.entries, d)
    case ListAll => s.gc.Listing?
    case Delete(d) => s.gc.Deleting? && d in s.gc.rest
    case SweepEnd => s.gc != Idle
  }

  function Released(s: State, w: nat): Option<Owner> { if Holds(s, w) then None else s.guard }

  ghost function Apply(s: State, step: Step): State
    requires Enabled(s, step)
  {
    match step
    case Begin(w, a, result, early) =>
      s.(writers := s.writers[w := Writer(a, result, early, {})], guard := if early then Some(Worker(w)) else s.guard)
    case Upload(w, d) =>
      s.(blobs := s.blobs + {d}, writers := s.writers[w := s.writers[w].(uploaded := s.writers[w].uploaded + {d})])
    case Acquire(w) => s.(guard := Some(Worker(w)))
    case Commit(w) =>
      s.(entries := s.entries[s.writers[w].action := s.writers[w].result], guard := None, writers := s.writers - {w})
    case Abandon(w) => s.(guard := Released(s, w), writers := s.writers - {w})
    case Add(d) => s.(blobs := s.blobs + {d})
    case SweepStart => s.(guard := Some(Collector), gc := Marking)
    case MarkAll(reachable) => s.(gc := Listing(reachable))
    case ListAll => s.(gc := Deleting(set d | d in s.blobs && d !in s.gc.reachable))
    case Delete(d) => s.(blobs := s.blobs - {d}, gc := Deleting(s.gc.rest - {d}))
    case SweepEnd => s.(guard := None, gc := Idle)
  }

  ghost predicate IsInit(s: State) { s.entries == map[] && s.guard == None && s.gc == Idle && s.writers == map[] }

  ghost predicate IsRun(run: seq<State>, steps: seq<Step>) {
    && |run| == |steps| + 1 && IsInit(run[0])
    && forall i :: 0 <= i < |steps| ==> Enabled(run[i], steps[i]) && run[i + 1] == Apply(run[i], steps[i])
  }

  /** Every digest a cached result refers to is in the store. */
  ghost predicate RefsClosed(s: State) { forall d :: Referenced(s.entries, d) ==> d in s.blobs }

  /** The collector holds the guard while it works, and has missed no reference. */
  ghost predicate Guarded(s: State) {
    && (s.guard == Some(Collector) <==> s.gc != Idle)
    && (s.gc.Listing? ==> forall d :: Referenced(s.entries, d) ==> d in s.gc.reachable)
    && (s.gc.Deleting? ==> forall d :: d in s.gc.rest ==> !Referenced(s.entries, d))
  }

  ghost predicate Inv(s: State) {
    && Guarded(s) && RefsClosed(s)
    && (forall w :: w in s.writers && s.writers[w].early ==> Holds(s, w) && s.writers[w].uploaded <= s.blobs)
  }

  /** Only early writers take part. */
  ghost predicate AllEarly(steps: seq<Step>) { forall i :: 0 <= i < |steps| && steps[i].Begin? ==> steps[i].early }

  /** Caching one more result. */
  lemma ReferencedNext(entries: map<Digest, ActionResult>, a: Digest, ar: ActionResult, d: Digest)
    ensures Referenced(entries[a := ar], d) ==> Referenced(entries, d) || Refers(ar, d)
    ensures Refers(ar, d) ==> Referenced(entries[a := ar], d)
  {
    var now := entries[a := ar];
    if Referenced(now, d) && !Refers(ar, d) {
      var x :| x in now && Refers(now[x], d);
      assert x in entries && Refers(entries[x], d);
    }
    assert a in now && now[a] == ar;
  }

  /** The store holds everything writer `w`'s result refers to. */
  ghost predicate Present(s: State, w: nat)
    requires w in s.writers
  {
    forall d :: Refers(s.writers[w].result, d) ==> d in s.blobs
  }

  /** A cache write keeps references closed exactly when the store still holds
      everything the result refers to. */
  lemma CommitCloses(s: State, w: nat)
    requires RefsClosed(s) && Enabled(s, Commit(w))
    ensures RefsClosed(Apply(s, Commit(w))) <==> Present(s, w)
  {
    var ar := s.writers[w].result;
    forall d ensures Referenced(Apply(s, Commit(w)).entries, d) ==> Referenced(s.entries, d) || Refers(ar, d) {
      ReferencedNext(s.entries, s.writers[w].action, ar, d);
    }
    forall d | Refers(ar, d) ensures Referenced(Apply(s, Commit(w)).entries, d) {
      ReferencedNext(s.entries, s.writers[w].action, ar, d);
    }
  }

  // ----- every run, early and late writers -----

  lemma GuardedKept(s: State, step: Step)
    requires Guarded(s) && Enabled(s, step)
    ensures Guarded(Apply(s, step))
  {
  }

  /** Closed references open only at a cache write that finds a blob gone. */
  lemma StepCloses(s: State, step: Step)
    requires Guarded(s) && RefsClosed(s) && Enabled(s, step)
    ensures RefsClosed(Apply(s, step)) <==> (step.Commit? ==> Present(s, step.w))
  {
    if step.Commit? {
      CommitCloses(s, step.w);
    }
  }

  lemma {:induction false} RunGuarded(run: seq<State>, steps: seq<Step>, n: nat)
    requires IsRun(run, steps) && n < |run|
    ensures Guarded(run[n])
  {
    if n > 0 {
      RunGuarded(run, steps, n - 1);
      assert Enabled(run[n - 1], steps[n - 1]) && run[n] == Apply(run[n - 1], steps[n - 1]);
      GuardedKept(run[n - 1], steps[n - 1]);
    }
  }

  ghost predicate AllClosed(run: seq<State>, n: nat)
    requires n < |run|
  {
    forall i :: 0 <= i <= n ==> RefsClosed(run[i])
  }

  ghost predicate CommitsFind(run: seq<State>, steps: seq<Step>, n: nat)
    requires IsRun(run, steps) && n <= |steps|
  {
    forall i :: 0 <= i < n && steps[i].Commit? ==> Enabled(run[i], steps[i]) && Present(run[i], steps[i].w)
  }

  /** Reference closure, whenever writers take the guard: in every interleaving
      with sweeps all states up to the `n`-th are closed exactly when every cache
      write among the first `n` steps finds its result's blobs in the store. */
  lemma {:induction false} ClosedIff(run: seq<State>, steps: seq<Step>, n: nat)
    requires IsRun(run, steps) && n <= |steps|
    ensures AllClosed(run, n) <==> CommitsFind(run, steps, n)
  {
    if n == 0 {
      assert RefsClosed(run[0]);
    } else {
      ClosedIff(run, steps, n - 1);
      assert Enabled(run[n - 1], steps[n - 1]) && run[n] == Apply(run[n - 1], steps[n - 1]);
      if RefsClosed(run[n - 1]) {
        RunGuarded(run, steps, n - 1);
        StepCloses(run[n - 1], steps[n - 1]);
      }
      assert AllClosed(run, n) <==> AllClosed(run, n - 1) && RefsClosed(run[n]);
    }
  }

  // ----- early writers -----

  ghost predicate EarlyOnly(s: State) { forall w :: w in s.writers ==> s.writers[w].early }

  lemma StepKeeps(s: State, step: Step)
    requires Inv(s) && EarlyOnly(s) && Enabled(s, step) && (step.Begin? ==> step.early)
    ensures Inv(Apply(s, step)) && EarlyOnly(Apply(s, step))
  {
    if step.Commit? {
      CommitCloses(s, step.w);
    }
  }

  /** Reference closure: with writers that hold the guard across their uploads
      and the cache write, in every interleaving with sweeps, every digest a
      cached result refers to stays in the store. */
  lemma {:induction false} ReferencesStayClosed(run: seq<State>, steps: seq<Step>, i: nat)
    requires IsRun(run, steps) && AllEarly(steps) && i < |run|
    ensures Inv(run[i]) && EarlyOnly(run[i])
  {
    if i > 0 {
      var k := i - 1;
      ReferencesStayClosed(run, steps, k);
      assert Enabled(run[k], steps[k]) && run[k + 1] == Apply(run[k], steps[k]);
      StepKeeps(run[k], steps[k]);
    }
  }

  /** A whole sweep, run while nobody else moves, deletes an unreferenced blob. */
  lemma SweepDeletes(s: State, d: Digest) returns (run: seq<State>, steps: seq<Step>)
    requires s.guard == None && s.gc == Idle && s.entries == map[] && d in s.blobs
    ensures |run| == |steps| + 1 && run[0] == s && |steps| == 5
    ensures forall i :: 0 <= i < |steps| ==> Enabled(run[i], steps[i]) && run[i + 1] == Apply(run[i], steps[i])
    ensures run[5] == s.(blobs := s.blobs - {d})
  {
    var s1 := Apply(s, SweepStart);
    var s2 := Apply(s1, MarkAll({}));
    var s3 := Apply(s2, ListAll);
    var s4 := Apply(s3, Delete(d));
    var s5 := Apply(s4, SweepEnd);
    run, steps := [s, s1, s2, s3, s4, s5], [SweepStart, MarkAll({}), ListAll, Delete(d), SweepEnd];
  }

  /** A writer that takes the guard only for the cache write can cache a result
      whose blob a sweep has just deleted. */
  lemma LateWriterBreaksClosure(a: Digest, d: Digest) returns (run: seq<State>, steps: seq<Step>)
    ensures IsRun(run, steps) && !RefsClosed(run[|run| - 1])
  {
    var ar := ActionResult([Some(d)], [], None, None);
    assert Refers(ar, d) && forall e :: Refers(ar, e) ==> e == d;
    var s0 := State({}, map[], None, Idle, map[]);
    var s1 := Apply(s0, Begin(0, a, ar, false));
    var s2 := Apply(s1, Upload(0, d));
    var mid, sweep := SweepDeletes(s2, d);
    var s7 := mid[5];
    var s8 := Apply(s7, Acquire(0));
    var s9 := Apply(s8, Commit(0));
    run := [s0, s1] + mid + [s8, s9];
    steps := [Begin(0, a, ar, false), Upload(0, d)] + sweep + [Acquire(0), Commit(0)];
    assert a in s9.entries && Refers(s9.entries[a], d) && d !in s9.blobs;
    assert Referenced(s9.entries, d);
    forall i | 0 <= i < |steps| ensures Enabled(run[i], steps[i]) && run[i + 1] == Apply(run[i], steps[i]) {
      if 2 <= i < 7 {
        assert run[i] == mid[i - 2] && run[i + 1] == mid[i - 1] && steps[i] == sweep[i - 2];
      }
    }
  }
}

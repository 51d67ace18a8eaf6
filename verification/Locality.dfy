/** The bounded per-worker completion history (crates/brokkr-control/src/locality.rs). */
module Locality {
  import opened Common
  import opened Cas

  datatype Completion = Completion(action: Digest, inputRoot: Option<Digest>)

  datatype WorkerHistory = WorkerHistory(recent: seq<Completion>, lastTouch: nat)

  // ----- what the index stands for: the log of everything recorded -----

  datatype Entry = Entry(worker: WorkerId, done: Completion)

  function WorkersOf(log: seq<Entry>): set<WorkerId> { set i | 0 <= i < |log| :: log[i].worker }

  /** When `w` was last recorded, 0 for never. */
  function LastAt(log: seq<Entry>, w: WorkerId): nat {
    if log == [] then 0 else if log[|log| - 1].worker == w then |log| else LastAt(log[..|log| - 1], w)
  }

  /** The workers recorded more recently than `w`. */
  function Newer(log: seq<Entry>, w: WorkerId): set<WorkerId> {
    set u | u in WorkersOf(log) && LastAt(log, u) > LastAt(log, w)
  }

  /** `w` is one of the `max` most recently recorded workers. */
  predicate Tracked(log: seq<Entry>, max: nat, w: WorkerId) { w in WorkersOf(log) && |Newer(log, w)| < max }

  /** What `w` completed since it last became one of them. */
  function Stay(log: seq<Entry>, max: nat, w: WorkerId): seq<Completion> {
    if log == [] then []
    else
      var before, last := log[..|log| - 1], log[|log| - 1];
      if last.worker == w then (if Tracked(before, max, w) then Stay(before, max, w) else []) + [last.done]
      else if Tracked(log, max, w) then Stay(before, max, w)
      else []
  }

  function LastN<T>(s: seq<T>, n: nat): seq<T> { if |s| <= n then s else s[|s| - n..] }

  function RootHits(s: seq<Completion>, root: Digest): nat {
    if s == [] then 0 else RootHits(s[..|s| - 1], root) + (if s[|s| - 1].inputRoot == Some(root) then 1 else 0)
  }

  function ActionHits(s: seq<Completion>, action: Digest): nat {
    if s == [] then 0 else ActionHits(s[..|s| - 1], action) + (if s[|s| - 1].action == action then 1 else 0)
  }

  lemma {:induction false} LastAtWithin(log: seq<Entry>, w: WorkerId)
    ensures LastAt(log, w) <= |log| && (LastAt(log, w) > 0 <==> w in WorkersOf(log))
    ensures LastAt(log, w) > 0 ==> log[LastAt(log, w) - 1].worker == w
  {
    if log != [] {
      var n := |log| - 1;
      LastAtWithin(log[..n], w);
      WorkersNext(log[..n], log[n]);
      assert log == log[..n] + [log[n]];
    }
  }

  lemma WorkersNext(log: seq<Entry>, r: Entry)
    ensures WorkersOf(log + [r]) == WorkersOf(log) + {r.worker}
  {
    var now := log + [r];
    forall w | w in WorkersOf(log) ensures w in WorkersOf(now) {
      var i :| 0 <= i < |log| && log[i].worker == w;
      assert now[i].worker == w;
    }
    assert now[|log|].worker == r.worker;
  }

  lemma {:induction false} LastAtNext(log: seq<Entry>, r: Entry, w: WorkerId)
    ensures LastAt(log + [r], w) == if r.worker == w then |log| + 1 else LastAt(log, w)
  {
    assert (log + [r])[..|log|] == log;
  }

  /** Who is newer than `w` after one more record. */
  lemma NewerNext(log: seq<Entry>, r: Entry, w: WorkerId)
    ensures Newer(log + [r], w) == if r.worker == w then {} else Newer(log, w) + {r.worker}
  {
    WorkersNext(log, r);
    forall u ensures LastAt(log + [r], u) == (if r.worker == u then |log| + 1 else LastAt(log, u)) &&
        LastAt(log, u) <= |log| {
      LastAtNext(log, r, u);
      LastAtWithin(log, u);
    }
  }

  lemma SubsetSize<T>(a: set<T>, b: set<T>)
    requires a <= b
    ensures |a| <= |b|
  {
    assert b == a + (b - a);
  }

  /** Whoever is newer than a tracked worker is tracked. */
  lemma NewerTracked(log: seq<Entry>, max: nat, w: WorkerId, u: WorkerId)
    requires Tracked(log, max, w) && u in Newer(log, w)
    ensures Tracked(log, max, u)
  {
    SubsetSize(Newer(log, u), Newer(log, w));
  }

  lemma LastNNext<T>(s: seq<T>, n: nat, x: T)
    requires n > 0
    ensures LastN(s + [x], n) == LastN(LastN(s, n) + [x], n)
  {
  }

  // ----- how one record changes who is tracked -----

  /** With room for everyone, the recorded worker joins the tracked ones. */
  lemma Joins(log: seq<Entry>, max: nat, r: Entry, kept: set<WorkerId>, w: WorkerId)
    requires max > 0 && (forall u :: u in kept <==> Tracked(log, max, u)) && |kept + {r.worker}| <= max
    ensures Tracked(log + [r], max, w) <==> w in kept + {r.worker}
  {
    WorkersNext(log, r);
    NewerNext(log, r, w);
    if w in kept && w != r.worker {
      forall u | u in Newer(log, w) ensures u in kept {
        NewerTracked(log, max, w, u);
      }
      FewerNewer(log, kept + {r.worker}, r.worker, w, w);
    } else if w != r.worker {
      SubsetSize(Newer(log, w), Newer(log + [r], w));
    }
  }

  lemma FewerNewer(log: seq<Entry>, all: set<WorkerId>, x: WorkerId, w: WorkerId, v: WorkerId)
    requires w in all && v in all && w !in Newer(log, w) + {x} && v !in Newer(log, w) + {x} &&
             Newer(log, w) + {x} <= all
    ensures |Newer(log, w) + {x}| <= |all| - |{w, v}|
  {
    SubsetSize(Newer(log, w) + {x}, all - {w, v});
  }

  /** With one worker too many, the least recently recorded one leaves. */
  lemma {:induction false} Leaves(log: seq<Entry>, max: nat, r: Entry, kept: set<WorkerId>, v: WorkerId, w: WorkerId)
    requires max > 0 && (forall u :: u in kept <==> Tracked(log, max, u)) && |kept + {r.worker}| == max + 1
    requires v in kept && v != r.worker && forall u :: u in kept && u != v ==> LastAt(log, v) < LastAt(log, u)
    ensures Tracked(log + [r], max, w) <==> w in kept + {r.worker} - {v}
  {
    var all := kept + {r.worker};
    WorkersNext(log, r);
    NewerNext(log, r, w);
    if w == v {
      forall u | u in kept && u != v ensures u in Newer(log, v) {
        assert Tracked(log, max, u);
      }
      SubsetSize(all - {v}, Newer(log, v) + {r.worker});
    } else if w in kept && w != r.worker {
      forall u | u in Newer(log, w) ensures u in kept {
        NewerTracked(log, max, w, u);
      }
      FewerNewer(log, all, r.worker, w, v);
    } else if w != r.worker {
      SubsetSize(Newer(log, w), Newer(log + [r], w));
    }
  }

  lemma {:induction false} LastAtDistinct(log: seq<Entry>, u: WorkerId, w: WorkerId)
    requires u in WorkersOf(log) && w in WorkersOf(log) && u != w
    ensures LastAt(log, u) != LastAt(log, w)
  {
    LastAtWithin(log, u);
    LastAtWithin(log, w);
  }

  lemma {:induction false} StayNext(log: seq<Entry>, max: nat, r: Entry, w: WorkerId)
    requires Tracked(log + [r], max, w)
    ensures Stay(log + [r], max, w) ==
            if r.worker == w then (if Tracked(log, max, w) then Stay(log, max, w) else []) + [r.done]
                else Stay(log, max, w)
  {
    assert (log + [r])[..|log|] == log;
  }

  /** The entry kept for a tracked worker. */
  ghost predicate Remembers(h: WorkerHistory, log: seq<Entry>, max: nat, window: nat, w: WorkerId) {
    h.lastTouch == LastAt(log, w) && h.recent == LastN(Stay(log, max, w), window)
  }

  ghost predicate Faithful(workers: map<WorkerId, WorkerHistory>, log: seq<Entry>, max: nat, window: nat) {
    && (forall w :: w in workers <==> Tracked(log, max, w))
    && (forall w :: w in workers ==> Remembers(workers[w], log, max, window, w))
  }

  /** The map after the recorded worker's entry is refreshed and `gone` removed. */
  function Refreshed(workers: map<WorkerId, WorkerHistory>, r: Entry, window: nat,
      tick: nat): map<WorkerId, WorkerHistory> {
    workers[r.worker := WorkerHistory(LastN((if r.worker in workers then workers[r.worker].recent else []) + [r.done],
        window), tick)]
  }

  lemma RecordKeeps(workers: map<WorkerId, WorkerHistory>, log: seq<Entry>, max: nat, window: nat, r: Entry,
      now: map<WorkerId, WorkerHistory>)
    requires Faithful(workers, log, max, window) && window > 0 && max > 0
    requires forall w :: Tracked(log + [r], max, w) <==> w in now
    requires forall w :: w in now ==>
             w in Refreshed(workers, r, window, |log| + 1) && now[w] == Refreshed(workers, r, window, |log| + 1)[w]
    ensures Faithful(now, log + [r], max, window)
  {
    forall w | w in now ensures Remembers(now[w], log + [r], max, window, w) {
      LastAtNext(log, r, w);
      StayNext(log, max, r, w);
      if w == r.worker && w in workers {
        LastNNext(Stay(log, max, w), window, r.done);
      }
    }
  }

  class LocalityIndex {
    const window: nat
    const maxWorkers: nat
    var workers: map<WorkerId, WorkerHistory>
    var tick: nat
    /** Everything recorded so far. */
    ghost var log: seq<Entry>

    ghost predicate Valid()
      reads this
    {
      && window > 0 && maxWorkers > 0 && tick == |log| && |workers| <= maxWorkers
      && Faithful(workers, log, maxWorkers, window)
    }

    constructor (window: nat, maxWorkers: nat)
      ensures Valid() && log == [] && this.window == Max(window, 1) && this.maxWorkers == Max(maxWorkers, 1)
    {
      this.window, this.maxWorkers := Max(window, 1), Max(maxWorkers, 1);
      workers, tick, log := map[], 0, [];
    }

    /** After any sequence of records, the workers kept are the most recently
        recorded ones and each history is the end of its worker's current stay. */
    method Record(worker: WorkerId, done: Completion)
      requires Valid() && tick < U64_MAX
      modifies this
      ensures Valid() && log == old(log) + [Entry(worker, done)] && worker in workers
    {
      WindowBound(workers, log, maxWorkers, window, worker);
      Revise(worker, done);
      RecordStep(old(workers), log, maxWorkers, window, Entry(worker, done), workers);
      log := log + [Entry(worker, done)];
    }

    method Revise(worker: WorkerId, done: Completion)
      requires window > 0 && maxWorkers > 0 && (worker in workers ==> |workers[worker].recent| <= window)
      modifies this`workers, this`tick
      ensures tick == old(tick) + 1
      ensures Trimmed(Refreshed(old(workers), Entry(worker, done), window, tick), workers, worker, maxWorkers)
    {
      Touch(worker, done);
      Trim(worker);
    }

    /** Evicts one worker if there are too many. */
    method Trim(keep: WorkerId)
      requires keep in workers && maxWorkers > 0
      modifies this`workers
      ensures Trimmed(old(workers), workers, keep, maxWorkers)
    {
      if |workers| > maxWorkers {
        TwoWorkers(workers, keep);
        var victim := LeastRecent(keep);
        assert Oldest(workers, keep, victim);
        workers := workers - {victim};
      }
    }

    /** Adds a completion to its worker's window and marks the worker as the latest. */
    method Touch(worker: WorkerId, done: Completion)
      requires window > 0 && (worker in workers ==> |workers[worker].recent| <= window)
      modifies this`workers, this`tick
      ensures tick == old(tick) + 1 && workers == Refreshed(old(workers), Entry(worker, done), window, tick)
    {
      tick := tick + 1;
      var recent := (if worker in workers then workers[worker].recent else []) + [done];
      if |recent| > window {
        recent := recent[1..];
      }
      workers := workers[worker := WorkerHistory(recent, tick)];
    }

    /** The least recently touched worker other than `keep`. */
    method LeastRecent(keep: WorkerId) returns (victim: WorkerId)
      requires exists w :: w in workers && w != keep
      ensures victim in workers && victim != keep
      ensures forall w :: w in workers && w != keep ==> workers[victim].lastTouch <= workers[w].lastTouch
    {
      var rest := workers.Keys - {keep};
      assert exists w :: w in rest by {
        var w :| w in workers && w != keep;
        assert w in rest;
      }
      victim :| victim in rest;
      rest := rest - {victim};
      while rest != {}
        invariant rest <= workers.Keys - {keep} && victim in workers && victim != keep
        invariant forall w ::
                    w in workers && w != keep && w !in rest ==> workers[victim].lastTouch <= workers[w].lastTouch
        decreases |rest|
      {
        var w :| w in rest;
        if workers[w].lastTouch < workers[victim].lastTouch {
          victim := w;
        }
        rest := rest - {w};
      }
    }

    /** How often `worker` ran with this input root in what is remembered of its stay. */
    method InputRootHits(worker: WorkerId, root: Digest) returns (n: nat)
      requires Valid()
      ensures n == if Tracked(log, maxWorkers, worker) then RootHits(LastN(Stay(log, maxWorkers, worker), window), root)
              else 0
    {
      if worker !in workers {
        return 0;
      }
      var recent := workers[worker].recent;
      n := 0;
      for i := 0 to |recent|
        invariant n == RootHits(recent[..i], root)
      {
        if recent[i].inputRoot == Some(root) {
          n := n + 1;
        }
        assert recent[..i + 1][..i] == recent[..i];
      }
      assert recent[..|recent|] == recent;
    }

    method CountActionHits(worker: WorkerId, action: Digest) returns (n: nat)
      requires Valid()
      ensures n == if Tracked(log, maxWorkers, worker) then
              ActionHits(LastN(Stay(log, maxWorkers, worker), window), action) else 0
    {
      if worker !in workers {
        return 0;
      }
      var recent := workers[worker].recent;
      n := 0;
      for i := 0 to |recent|
        invariant n == ActionHits(recent[..i], action)
      {
        if recent[i].action == action {
          n := n + 1;
        }
        assert recent[..i + 1][..i] == recent[..i];
      }
      assert recent[..|recent|] == recent;
    }
  }

  lemma Oversized(was: map<WorkerId, WorkerHistory>, r: Entry, window: nat, tick: nat, max: nat)
    requires max > 0 && |was| <= max && |Refreshed(was, r, window, tick)| > max
    ensures r.worker !in was && |Refreshed(was, r, window, tick)| == |was| + 1 && |was| == max
    ensures exists w :: w in Refreshed(was, r, window, tick) && w != r.worker
    ensures |was.Keys + {r.worker}| > max
  {
    var now := Refreshed(was, r, window, tick);
    assert now.Keys == was.Keys + {r.worker} && |now| == |now.Keys| && |was| == |was.Keys|;
    assert r.worker in was ==> was.Keys + {r.worker} == was.Keys;
    assert was.Keys != {};
    var w :| w in was.Keys;
    assert w in now;
  }

  /** `after` is `now` without its least recently touched worker other than `keep`, if it had too many. */
  ghost predicate Trimmed(now: map<WorkerId, WorkerHistory>, after: map<WorkerId, WorkerHistory>, keep: WorkerId,
      max: nat) {
    if |now| <= max then after == now else exists v :: Oldest(now, keep, v) && after == now - {v}
  }

  ghost predicate Oldest(now: map<WorkerId, WorkerHistory>, keep: WorkerId, v: WorkerId) {
    v in now && v != keep && forall w :: w in now && w != keep ==> now[v].lastTouch <= now[w].lastTouch
  }

  lemma TwoWorkers(workers: map<WorkerId, WorkerHistory>, keep: WorkerId)
    requires |workers| > 1 && keep in workers
    ensures exists w :: w in workers && w != keep
  {
    var rest := workers.Keys - {keep};
    assert |workers| == |workers.Keys| && workers.Keys == rest + {keep};
    var w :| w in rest;
    assert w in workers && w != keep;
  }

  lemma RecordStep(was: map<WorkerId, WorkerHistory>, log: seq<Entry>, max: nat, window: nat, r: Entry,
      after: map<WorkerId, WorkerHistory>)
    requires Faithful(was, log, max, window) && max > 0 && window > 0 && |was| <= max
    requires Trimmed(Refreshed(was, r, window, |log| + 1), after, r.worker, max)
    ensures Faithful(after, log + [r], max, window) && |after| <= max && r.worker in after
  {
    var now := Refreshed(was, r, window, |log| + 1);
    if |now| <= max {
      RecordFits(was, log, max, window, r);
    } else {
      Oversized(was, r, window, |log| + 1, max);
      var v :| Oldest(now, r.worker, v) && after == now - {v};
      RecordEvicts(was, log, max, window, r, now, v);
    }
  }

  lemma WindowBound(workers: map<WorkerId, WorkerHistory>, log: seq<Entry>, max: nat, window: nat, w: WorkerId)
    requires Faithful(workers, log, max, window)
    ensures w in workers ==> |workers[w].recent| <= window
  {
    assert w in workers ==> Remembers(workers[w], log, max, window, w);
  }

  lemma RecordFits(was: map<WorkerId, WorkerHistory>, log: seq<Entry>, max: nat, window: nat, r: Entry)
    requires Faithful(was, log, max, window) && max > 0 && window > 0 && |Refreshed(was, r, window, |log| + 1)| <= max
    ensures Faithful(Refreshed(was, r, window, |log| + 1), log + [r], max, window)
  {
    var now := Refreshed(was, r, window, |log| + 1);
    assert now.Keys == was.Keys + {r.worker} && |now| == |now.Keys|;
    forall w ensures Tracked(log + [r], max, w) <==> w in now {
      Joins(log, max, r, was.Keys, w);
    }
    RecordKeeps(was, log, max, window, r, now);
  }

  lemma RecordEvicts(was: map<WorkerId, WorkerHistory>, log: seq<Entry>, max: nat, window: nat, r: Entry,
      now: map<WorkerId, WorkerHistory>, v: WorkerId)
    requires Faithful(was, log, max, window) && max > 0 && window > 0 && |was| == max && r.worker !in was
    requires now == Refreshed(was, r, window, |log| + 1) && v in now && v != r.worker
    requires forall w :: w in now && w != r.worker ==> now[v].lastTouch <= now[w].lastTouch
    ensures Faithful(now - {v}, log + [r], max, window) && |now - {v}| == max
  {
    assert (now - {v}).Keys == was.Keys + {r.worker} - {v} && |now - {v}| == |(now - {v}).Keys|;
    forall w | w in was ensures was[v].lastTouch <= was[w].lastTouch {
      assert w in now;
    }
    VictimLeaves(was, log, max, window, r, v);
    RecordKeeps(was, log, max, window, r, now - {v});
  }

  lemma VictimLeaves(was: map<WorkerId, WorkerHistory>, log: seq<Entry>, max: nat, window: nat, r: Entry, v: WorkerId)
    requires Faithful(was, log, max, window) && max > 0 && |was| <= max && |was.Keys + {r.worker}| > max
    requires v in was && v != r.worker && forall w :: w in was && w != r.worker ==> was[v].lastTouch <= was[w].lastTouch
    ensures forall w :: Tracked(log + [r], max, w) <==> w in was.Keys + {r.worker} - {v}
  {
    assert r.worker in was ==> was.Keys + {r.worker} == was.Keys;
    forall u | u in was && u != v ensures LastAt(log, v) < LastAt(log, u) {
      assert Remembers(was[u], log, max, window, u) && Remembers(was[v], log, max, window, v);
      LastAtDistinct(log, u, v);
    }
    forall w ensures Tracked(log + [r], max, w) <==> w in was.Keys + {r.worker} - {v} {
      Leaves(log, max, r, was.Keys, v, w);
    }
  }
}

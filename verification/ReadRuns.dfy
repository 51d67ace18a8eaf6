/** A run with reads seen as a run of the cluster: what holds of every run of
    the cluster holds of its nodes too, and a confirmed read is current. */
module ReadRuns {
  import opened Quorum
  import opened RaftCluster
  import opened RaftSafety
  import opened ReplicatedKv
  import Reads = RaftReads

  type Moments = seq<Reads.Reading>

  type Events = seq<Reads.ReadStep>

  // ----- the run of the cluster underneath -----

  ghost predicate OneOn(step: Reads.ReadStep, base: seq<Step>, a: nat, b: nat) {
    if step.Base? then b == a + 1 <= |base| && base[a] == step.s else b == a
  }

  /** `run` is what the base steps do; moment `i` lies at `at[i]` of it. */
  ghost predicate Under(rs: Moments, steps: Events, run: seq<Cluster>, base: seq<Step>, at: seq<nat>) {
    && |rs| == |steps| + 1 && |at| == |rs| && IsRun(run, base) && at[0] == 0 && at[|steps|] == |base|
    && (forall i :: 0 <= i < |rs| ==> at[i] < |run| && run[at[i]] == rs[i].c)
    && (forall i :: 0 <= i < |steps| ==> OneOn(steps[i], base, at[i], at[i + 1]))
  }

  lemma {:induction false} Underlying(rs: Moments, steps: Events)
    returns (run: seq<Cluster>, base: seq<Step>, at: seq<nat>)
    requires Reads.IsReadRun(rs, steps)
    ensures Under(rs, steps, run, base, at)
    decreases |steps|
  {
    if steps == [] {
      run, base, at := [rs[0].c], [], [0];
    } else {
      var k := |steps| - 1;
      ShorterRun(rs, steps, k);
      run, base, at := Underlying(rs[..k + 1], steps[..k]);
      assert Reads.ReadNext(rs[k], steps[k], rs[k + 1]);
      if steps[k].Base? {
        UnderBase(rs, steps, run, base, at);
        run, base, at := run + [rs[k + 1].c], base + [steps[k].s], at + [|base| + 1];
      } else {
        assert rs[k + 1].c == rs[k].c;
        UnderSame(rs, steps, run, base, at);
        at := at + [|base|];
      }
    }
  }

  lemma ShorterRun(rs: Moments, steps: Events, k: nat)
    requires Reads.IsReadRun(rs, steps) && k <= |steps|
    ensures Reads.IsReadRun(rs[..k + 1], steps[..k])
  {
    forall i | 0 <= i < k ensures Reads.ReadNext(rs[..k + 1][i], steps[..k][i], rs[..k + 1][i + 1]) {
      assert Reads.ReadNext(rs[i], steps[i], rs[i + 1]);
    }
  }

  lemma UnderBase(rs: Moments, steps: Events, run: seq<Cluster>, base: seq<Step>, at: seq<nat>)
    requires |rs| == |steps| + 1 && steps != [] && steps[|steps| - 1].Base?
    requires Under(rs[..|steps|], steps[..|steps| - 1], run, base, at)
    requires Next(rs[|steps| - 1].c, steps[|steps| - 1].s, rs[|steps|].c)
    ensures Under(rs, steps, run + [rs[|steps|].c], base + [steps[|steps| - 1].s], at + [|base| + 1])
  {
    var k := |steps| - 1;
    Reads.RunOn(run, base, steps[k].s, rs[k + 1].c);
    forall i | 0 <= i < |steps| ensures OneOn(steps[i], base + [steps[k].s], at[i], (at + [|base| + 1])[i + 1]) {
      assert i < k ==> OneOn(steps[..k][i], base, at[i], at[i + 1]);
    }
    forall i | 0 <= i < |rs|
      ensures (at + [|base| + 1])[i] < |run| + 1 && (run + [rs[k + 1].c])[(at + [|base| + 1])[i]] == rs[i].c
    {
      assert i <= k ==> run[at[i]] == rs[..k + 1][i].c;
    }
  }

  lemma UnderSame(rs: Moments, steps: Events, run: seq<Cluster>, base: seq<Step>, at: seq<nat>)
    requires |rs| == |steps| + 1 && steps != [] && !steps[|steps| - 1].Base?
    requires Under(rs[..|steps|], steps[..|steps| - 1], run, base, at) && rs[|steps|].c == rs[|steps| - 1].c
    ensures Under(rs, steps, run, base, at + [|base|])
  {
    var k := |steps| - 1;
    forall i | 0 <= i < |steps| ensures OneOn(steps[i], base, at[i], (at + [|base|])[i + 1]) {
      assert i < k ==> OneOn(steps[..k][i], base, at[i], at[i + 1]);
    }
    forall i | 0 <= i < |rs| ensures (at + [|base|])[i] < |run| && run[(at + [|base|])[i]] == rs[i].c {
      assert run[at[if i <= k then i else k]] == rs[..k + 1][if i <= k then i else k].c;
    }
  }

  lemma {:induction false} AtGrows(rs: Moments, steps: Events, run: seq<Cluster>, base: seq<Step>, at: seq<nat>, i: nat,
      j: nat)
    requires Under(rs, steps, run, base, at) && i <= j < |rs|
    ensures at[i] <= at[j]
  {
    if i < j {
      AtGrows(rs, steps, run, base, at, i, j - 1);
      assert OneOn(steps[j - 1], base, at[j - 1], at[j]);
    }
  }

  // ----- what it says of a node -----

  ghost predicate InBounds(nd: Node) { nd.snap <= nd.commit <= |nd.log| }

  lemma {:induction false} StillThere(run: seq<Cluster>, steps: seq<Step>, i: nat, n: NodeId)
    requires IsRun(run, steps) && i < |run| && n in run[0].nodes
    ensures n in run[i].nodes && InBounds(run[i].nodes[n])
  {
    if i > 0 {
      StillThere(run, steps, i - 1, n);
      Keeps(run, steps, i - 1, n);
    }
    RunHolds(run, steps, i);
    NodeBounds(run[i], n);
  }

  /** From one state of a run to the next a node keeps what it committed. */
  lemma Keeps(run: seq<Cluster>, steps: seq<Step>, i: nat, n: NodeId)
    requires IsRun(run, steps) && i < |steps| && n in run[i].nodes
    ensures n in run[i + 1].nodes && Retains(run[i].nodes[n], run[i + 1].nodes[n], steps[i] == Restart(n))
  {
    RunHolds(run, steps, i);
    assert Next(run[i], steps[i], run[i + 1]);
    CommittedNeverLost(run[i], steps[i], n);
  }

  /** A node is there at every moment, within its bounds, and its log agrees with the whole run. */
  lemma Stays(rs: Moments, steps: Events, i: nat, n: NodeId)
    requires Reads.IsReadRun(rs, steps) && i < |rs| && n in rs[0].c.nodes
    ensures n in rs[i].c.nodes && InBounds(rs[i].c.nodes[n])
    ensures RaftDriver.Canonical(rs[i].c.nodes[n].log, CanonOf(rs[|steps|].c.h))
  {
    var run, base, at := Underlying(rs, steps);
    assert run[at[0]] == rs[0].c && run[at[i]] == rs[i].c && run[at[|steps|]] == rs[|steps|].c;
    StillThere(run, base, at[i], n);
    RunCanonical(run, base, at[i], n);
  }

  lemma StaysOn(rs: Moments, steps: Events, i: nat, n: NodeId)
    requires Reads.IsReadRun(rs, steps) && i < |steps| && n in rs[0].c.nodes
    ensures n in rs[i].c.nodes && n in rs[i + 1].c.nodes
    ensures Retains(rs[i].c.nodes[n], rs[i + 1].c.nodes[n], steps[i] == Reads.Base(Restart(n)))
  {
    var run, base, at := Underlying(rs, steps);
    assert run[at[0]] == rs[0].c && run[at[i]] == rs[i].c && run[at[i + 1]] == rs[i + 1].c;
    assert OneOn(steps[i], base, at[i], at[i + 1]);
    StillThere(run, base, at[i], n);
    if steps[i].Base? {
      Keeps(run, base, at[i], n);
    }
  }

  /** Within its term a leader's log only grows. */
  lemma LeaderGrows(rs: Moments, steps: Events, i: nat, j: nat, n: NodeId, t: nat)
    requires Reads.IsReadRun(rs, steps) && i <= j < |rs| && IsLeader(rs[i].c, n, t) && IsLeader(rs[j].c, n, t)
    ensures rs[i].c.nodes[n].log <= rs[j].c.nodes[n].log
  {
    var run, base, at := Underlying(rs, steps);
    assert run[at[i]] == rs[i].c && run[at[j]] == rs[j].c;
    AtGrows(rs, steps, run, base, at, i, j);
    LeaderAppendOnly(run, base, at[i], at[j], n, t);
  }

  // ----- reads -----

  /** Step `x` registers a read with node `n`. */
  ghost predicate Asked(steps: Events, n: NodeId, x: nat) { x < |steps| && steps[x].StartRead? && steps[x].n == n }

  /** Index `i` covers what any node had committed when read `x` was registered. */
  ghost predicate Current(rs: Moments, steps: Events, n: NodeId, x: nat, i: nat) {
    Asked(steps, n, x) && x < |rs| && forall b :: b in rs[x].c.nodes ==> rs[x].c.nodes[b].commit <= i
  }

  /** After step `i` the node may report read `x` confirmed at `index`. */
  ghost predicate Reports(rs: Moments, steps: Events, i: nat, n: NodeId, x: nat, index: nat) {
    && Asked(steps, n, x) && x <= i && i + 1 < |rs| && n in rs[x].c.nodes
    && var key := Reads.KeyOf(rs[x].c, n, steps[x].id);
       Reads.Confirmed(rs[i + 1], key) && index == rs[i + 1].pending[key].index
  }

  lemma ReportsCurrent(rs: Moments, steps: Events, i: nat, n: NodeId, x: nat, index: nat)
    requires Reads.IsReadRun(rs, steps) && Reports(rs, steps, i, n, x, index)
    ensures Current(rs, steps, n, x, index)
  {
    forall b | b in rs[x].c.nodes ensures rs[x].c.nodes[b].commit <= index {
      Reads.LinearizableRead(rs, steps, x, i + 1, n, steps[x].id, b);
    }
  }
}

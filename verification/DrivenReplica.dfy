/** A driver fed with what its node goes through in a run of the cluster with
    reads: everything the driver assumes of its node holds there, and what it
    tells its callers is true of the run. */
module DrivenReplica {
  import opened Common
  import opened Quorum
  import opened RaftCluster
  import opened RaftSafety
  import opened RaftDriver
  import opened ReplicatedKv
  import opened ReadRuns

  /** Every state the machine passes through survives its snapshot. */
  ghost predicate Snapshots<S(!new)>(m: Machine<S>, log: Log) {
    forall k: nat :: k <= |log| ==> m.decode(m.encode(Replay(m, log[..k]))) == Replay(m, log[..k])
  }

  /** The blob a snapshot of this node holds. */
  function BlobFor<S>(m: Machine<S>, nd: Node): Bytes
    requires nd.snap <= |nd.log|
  {
    m.encode(Replay(m, nd.log[..nd.snap]))
  }

  lemma Feeds<S(!new)>(m: Machine<S>, nd: Node)
    requires InBounds(nd) && Snapshots(m, nd.log)
    ensures RaftDriver.NodeOk(m, nd, BlobFor(m, nd))
  {
  }

  /** More is committed beyond the snapshot than the driver lets stand. */
  predicate Over(nd: Node, threshold: nat) { nd.commit - nd.snap > threshold }

  /** What is driven: a run with reads, a node of it, and the read results the
      node reports after each step. */
  datatype Course = Course(rs: Moments, steps: Events, n: NodeId, reports: seq<seq<ReadResult>>)

  ghost predicate HasNode(c: Course, i: nat) { i < |c.rs| && c.n in c.rs[i].c.nodes }

  function NodeAt(c: Course, i: nat): Node
    requires i < |c.rs| && c.n in c.rs[i].c.nodes
  {
    c.rs[i].c.nodes[c.n]
  }

  /** A read result names a registered read, confirmed where the run confirms it, or one that failed. */
  ghost predicate Borne(c: Course, i: nat, r: ReadResult) {
    r.index.Some? ==> Reports(c.rs, c.steps, i, c.n, r.ticket, r.index.value)
  }

  /** The automatic compaction of the node is a step of the run. */
  ghost predicate CompactsAt(c: Course, threshold: nat, i: nat) {
    HasNode(c, i) && Over(NodeAt(c, i), threshold) ==>
      i < |c.steps| && c.steps[i] == Reads.Base(Compact(c.n)) && i < |c.reports| && c.reports[i] == []
  }

  ghost predicate Lawful<S(!new)>(c: Course, m: Machine<S>, threshold: nat) {
    && Reads.IsReadRun(c.rs, c.steps) && c.n in c.rs[0].c.nodes && |c.reports| == |c.steps|
    && (forall i :: 0 <= i < |c.steps| ==> forall r :: r in c.reports[i] ==> Borne(c, i, r))
    && (forall i :: HasNode(c, i) ==> Snapshots(m, NodeAt(c, i).log))
    && (forall i :: 0 <= i < |c.rs| ==> CompactsAt(c, threshold, i))
  }

  // ----- what the driver knows of its callers -----

  /** Each proposal on record is a step of the run, made as leader of its term,
      and names the entry that step appended. */
  ghost predicate Tracks(c: Course, i: nat, proposed: map<nat, Proposal>)
    requires |c.rs| == |c.steps| + 1
  {
    forall x :: x in proposed ==> Tracked(c, i, x, proposed[x])
  }

  ghost predicate Tracked(c: Course, i: nat, x: nat, p: Proposal)
    requires |c.rs| == |c.steps| + 1
  {
    && x < i && x < |c.steps| && IsLeader(c.rs[x + 1].c, c.n, p.entry.term) && 0 < p.index == |NodeAt(c, x + 1).log|
    && p.entry.payload.Command? && c.steps[x] == Reads.Base(Propose(c.n, p.entry.payload.data))
    && p.entry == NodeAt(c, x + 1).log[p.index - 1]
  }

  /** Readers are registered under their own ticket, and whoever waits or was
      answered has an index that covers all that was committed when it asked. */
  ghost predicate Serves(c: Course, i: nat, d: Desk, applied: nat) {
    && (forall t :: t in d.confirming ==> t < i && d.confirming[t] == Reader(t))
    && (forall w :: w in d.awaiting ==> Waiting(c, w))
    && (forall a :: a in d.answers ==> Served(c, a, applied))
  }

  ghost predicate Waiting(c: Course, w: Waiter) {
    w.caller.Reader? ==> Current(c.rs, c.steps, c.n, w.caller.id, w.index)
  }

  ghost predicate Served(c: Course, a: Answer, applied: nat) {
    a.caller.Reader? && a.reply.Applied? ==>
      Current(c.rs, c.steps, c.n, a.caller.id, a.reply.index) && a.reply.index <= applied
  }

  lemma ResultCurrent(c: Course, i: nat, d: Desk, results: seq<ReadResult>, a: Answer, index: nat)
    requires Reads.IsReadRun(c.rs, c.steps) && EarnedRead(d.confirming, results, a, index)
    requires forall t :: t in d.confirming ==> d.confirming[t] == Reader(t)
    requires forall r :: r in results ==> Borne(c, i, r)
    ensures a.caller.Reader? && Current(c.rs, c.steps, c.n, a.caller.id, index)
  {
    var r :| r in results && r.index == Some(index) && r.ticket in d.confirming && d.confirming[r.ticket] == a.caller;
    ReportsCurrent(c.rs, c.steps, i, c.n, r.ticket, index);
  }

  lemma AnswerServed(c: Course, i: nat, d: Desk, results: seq<ReadResult>, a: Answer, log: Log, applied: nat)
    requires Reads.IsReadRun(c.rs, c.steps) && (forall w :: w in d.awaiting ==> Waiting(c, w))
    requires forall t :: t in d.confirming ==> d.confirming[t] == Reader(t)
    requires forall r :: r in results ==> Borne(c, i, r)
    requires a.reply.Applied? && a.reply.index <= applied
    requires Earned(d.awaiting, log, a, a.reply.index) || EarnedRead(d.confirming, results, a, a.reply.index)
    ensures Served(c, a, applied)
  {
    if EarnedRead(d.confirming, results, a, a.reply.index) {
      ResultCurrent(c, i, d, results, a, a.reply.index);
    } else {
      var w :| w in d.awaiting && w.caller == a.caller && w.index == a.reply.index && 0 < a.reply.index <= |log| &&
          (w.expected.Some? ==> log[a.reply.index - 1].term == w.expected.value);
      assert Waiting(c, w);
    }
  }

  /** One event leaves its readers well served. */
  lemma ServesOn(c: Course, i: nat, d: Desk, results: seq<ReadResult>, e: Desk, log: Log, before: nat, applied: nat)
    requires Reads.IsReadRun(c.rs, c.steps) && Serves(c, i + 1, d, before) && before <= applied
    requires (forall r :: r in results ==> Borne(c, i, r)) && Dealt(d, results, e, log, applied)
    ensures Serves(c, i + 1, e, applied)
  {
    forall w | w in e.awaiting ensures Waiting(c, w) {
      if w !in d.awaiting {
        ResultCurrent(c, i, d, results, Answer(w.caller, Applied(w.index)), w.index);
      }
    }
    forall a | a in e.answers ensures Served(c, a, applied) {
      var k :| 0 <= k < |e.answers| && e.answers[k] == a;
      if k < |d.answers| {
        assert d.answers[k] in d.answers && Served(c, d.answers[k], before);
      } else if a.reply.Applied? {
        AnswerServed(c, i, d, results, a, log, applied);
      }
    }
  }

  lemma ServesLater(c: Course, i: nat, d: Desk, applied: nat)
    requires Serves(c, i, d, applied)
    ensures Serves(c, i + 1, d, applied)
  {
  }

  // ----- driving -----

  /** The driver stands where its node stands. */
  ghost predicate Following<S(!new)>(d: Driver<S>, m: Machine<S>, c: Course, i: nat, threshold: nat)
    requires |c.rs| == |c.steps| + 1
    reads d
  {
    && Keeping(d, m, c, i, threshold) && HasNode(c, i) && d.node == NodeAt(c, i)
  }

  /** What it keeps whatever its node does. */
  ghost predicate Keeping<S(!new)>(d: Driver<S>, m: Machine<S>, c: Course, i: nat, threshold: nat)
    requires |c.rs| == |c.steps| + 1
    reads d
  {
    Tending(d, m, c, i, threshold) && Serves(c, i, Desk(d.awaiting, d.confirming, d.answers), d.lastApplied)
  }

  /** The part of it that does not speak of reads. */
  ghost predicate Tending<S(!new)>(d: Driver<S>, m: Machine<S>, c: Course, i: nat, threshold: nat)
    requires |c.rs| == |c.steps| + 1
    reads d
  {
    && d.Ready() && d.m == m && d.threshold == threshold && d.canon == CanonOf(c.rs[|c.steps|].c.h)
    && Tracks(c, i, d.proposed)
  }

  /** Drives a replica through a run with reads: a fresh driver at the start and
      after each restart, a proposal for each command its node appends as
      leader, a read for each one registered with it, a plain event otherwise.
      The machine ends as the fold of the committed log; every acknowledged
      proposal is the caller's own entry of the run; and every answered read has
      an index, applied here, that covers all that any node of the cluster had
      committed when the read was registered. */
  method Drive<S(!new)>(m: Machine<S>, c: Course, threshold: nat) returns (d: Driver<S>)
    requires Lawful(c, m, threshold)
    ensures fresh(d) && d.Ready() && d.m == m && HasNode(c, |c.steps|) && d.node == NodeAt(c, |c.steps|)
    ensures d.lastApplied == d.node.commit <= |d.node.log| && d.machine == Replay(m, d.node.log[..d.node.commit])
    ensures Tracks(c, |c.steps|, d.proposed) && AllTruthful(d.answers, d.node.log, d.lastApplied, d.proposed)
    ensures forall a :: a in d.answers ==> Served(c, a, d.lastApplied)
  {
    var i := 0;
    d, i := Boot(m, c, 0, threshold);
    while i < |c.steps|
      invariant i <= |c.steps| && fresh(d) && Following(d, m, c, i, threshold)
      decreases |c.steps| - i
    {
      if c.steps[i] == Reads.Base(Restart(c.n)) {
        d, i := Boot(m, c, i + 1, threshold);
      } else {
        Follow(d, m, c, i, threshold);
        i := Settled(d, m, c, i + 1, threshold);
      }
    }
  }

  /** The compaction that closes an event is the next step of the run. */
  method Settled<S(!new)>(d: Driver<S>, m: Machine<S>, c: Course, i: nat, threshold: nat) returns (k: nat)
    requires Lawful(c, m, threshold) && i <= |c.steps| && HasNode(c, i)
    requires Keeping(d, m, c, i, threshold) && d.node == Compacted(NodeAt(c, i), threshold)
    ensures i <= k <= |c.steps| && Following(d, m, c, k, threshold)
  {
    assert CompactsAt(c, threshold, i);
    if Over(NodeAt(c, i), threshold) {
      assert Reads.ReadNext(c.rs[i], c.steps[i], c.rs[i + 1]);
      TracksOn(c, i, d.proposed);
      ServesLater(c, i, Desk(d.awaiting, d.confirming, d.answers), d.lastApplied);
      return i + 1;
    }
    return i;
  }

  /** A driver started on the node's state at moment `i`. */
  method Boot<S(!new)>(m: Machine<S>, c: Course, i: nat, threshold: nat) returns (d: Driver<S>, k: nat)
    requires Lawful(c, m, threshold) && i <= |c.steps|
    ensures fresh(d) && i <= k <= |c.steps| && Following(d, m, c, k, threshold)
  {
    Stays(c.rs, c.steps, i, c.n);
    assert HasNode(c, i);
    var nd := NodeAt(c, i);
    Feeds(m, nd);
    d := new Driver(m, threshold, nd, BlobFor(m, nd), CanonOf(c.rs[|c.steps|].c.h));
    NobodyCalls(d.awaiting, d.confirming, d.answers);
    k := Settled(d, m, c, i, threshold);
  }

  /** What the driver needs of the node's next state. */
  ghost predicate Arrived<S(!new)>(m: Machine<S>, c: Course, i: nat) {
    && HasNode(c, i) && HasNode(c, i + 1) && InBounds(NodeAt(c, i + 1))
    && Retains(NodeAt(c, i), NodeAt(c, i + 1), false)
    && RaftDriver.NodeOk(m, NodeAt(c, i + 1), BlobFor(m, NodeAt(c, i + 1)))
    && Canonical(NodeAt(c, i + 1).log, CanonOf(c.rs[|c.rs| - 1].c.h))
  }

  lemma Arrives<S(!new)>(m: Machine<S>, c: Course, i: nat, threshold: nat)
    requires Lawful(c, m, threshold) && i < |c.steps| && c.steps[i] != Reads.Base(Restart(c.n))
    ensures Arrived(m, c, i)
  {
    Moves(c, i);
    Lands(c, i + 1);
    KeepsSnapshots(c, m, threshold, i + 1);
    Feeds(m, NodeAt(c, i + 1));
  }

  lemma Moves(c: Course, i: nat)
    requires Reads.IsReadRun(c.rs, c.steps) && c.n in c.rs[0].c.nodes && i < |c.steps|
    requires c.steps[i] != Reads.Base(Restart(c.n))
    ensures HasNode(c, i) && HasNode(c, i + 1) && Retains(NodeAt(c, i), NodeAt(c, i + 1), false)
  {
    StaysOn(c.rs, c.steps, i, c.n);
  }

  lemma Lands(c: Course, i: nat)
    requires Reads.IsReadRun(c.rs, c.steps) && c.n in c.rs[0].c.nodes && i < |c.rs|
    ensures HasNode(c, i) && InBounds(NodeAt(c, i)) && Canonical(NodeAt(c, i).log, CanonOf(c.rs[|c.rs| - 1].c.h))
  {
    Stays(c.rs, c.steps, i, c.n);
  }

  lemma KeepsSnapshots<S(!new)>(c: Course, m: Machine<S>, threshold: nat, i: nat)
    requires Lawful(c, m, threshold) && HasNode(c, i)
    ensures Snapshots(m, NodeAt(c, i).log)
  {
  }

  lemma TracksOn(c: Course, i: nat, proposed: map<nat, Proposal>)
    requires |c.rs| == |c.steps| + 1 && Tracks(c, i, proposed)
    ensures Tracks(c, i + 1, proposed) && i !in proposed
  {
    forall x | x in proposed ensures Tracked(c, i + 1, x, proposed[x]) && x != i {
      assert Tracked(c, i, x, proposed[x]);
    }
  }

  /** What a leader proposed in its term lies within its log. */
  lemma ProposalsWithin(c: Course, i: nat, proposed: map<nat, Proposal>)
    requires Reads.IsReadRun(c.rs, c.steps) && HasNode(c, i) && NodeAt(c, i).role.Leader? && Tracks(c, i, proposed)
    ensures forall x :: x in proposed && proposed[x].entry.term == Term(NodeAt(c, i)) ==>
              proposed[x].index <= |NodeAt(c, i).log|
  {
    forall x | x in proposed && proposed[x].entry.term == Term(NodeAt(c, i))
      ensures proposed[x].index <= |NodeAt(c, i).log|
    {
      assert Tracked(c, i, x, proposed[x]);
      LeaderGrows(c.rs, c.steps, x + 1, i, c.n, Term(NodeAt(c, i)));
    }
  }

  lemma Proposes(c: Cluster, n: NodeId, data: Bytes, c': Cluster)
    requires Next(c, Propose(n, data), c')
    ensures IsLeader(c, n, Term(c.nodes[n])) && IsLeader(c', n, Term(c.nodes[n]))
    ensures c'.nodes[n].log == c.nodes[n].log + [Entry(Term(c.nodes[n]), Command(data))]
  {
  }

  /** What step `i` does at the node, if it is a proposal or a read made there. */
  ghost predicate Fits(c: Course, i: nat, proposed: map<nat, Proposal>)
    requires |c.rs| == |c.steps| + 1
  {
    && i < |c.steps| && HasNode(c, i) && HasNode(c, i + 1) && i !in proposed && Tracks(c, i + 1, proposed)
    && (MakesProposal(c, i) ==> Fitting(c, i, c.steps[i].s.data, proposed))
    && (MakesRead(c, i) ==> NodeAt(c, i + 1) == NodeAt(c, i))
  }

  predicate MakesProposal(c: Course, i: nat)
    requires i < |c.steps|
  {
    c.steps[i].Base? && c.steps[i].s.Propose? && c.steps[i].s.n == c.n
  }

  predicate MakesRead(c: Course, i: nat)
    requires i < |c.steps|
  {
    c.steps[i].StartRead? && c.steps[i].n == c.n
  }

  ghost predicate Fitting(c: Course, i: nat, data: Bytes, proposed: map<nat, Proposal>)
    requires |c.rs| == |c.steps| + 1 && HasNode(c, i) && HasNode(c, i + 1)
  {
    var nd, after := NodeAt(c, i), NodeAt(c, i + 1);
    && nd.role.Leader? && Term(after) == Term(nd) && after.log == nd.log + [Entry(Term(nd), Command(data))]
    && (forall x :: x in proposed && proposed[x].entry.term == Term(nd) ==> proposed[x].index <= |nd.log|)
    && Tracks(c, i + 1, proposed[i := Proposal(|after.log|, after.log[|after.log| - 1])])
  }

  lemma ProposalFits(c: Course, i: nat, data: Bytes, proposed: map<nat, Proposal>)
    requires Reads.IsReadRun(c.rs, c.steps) && i < |c.steps| && Tracks(c, i, proposed)
    requires c.steps[i] == Reads.Base(Propose(c.n, data))
    ensures HasNode(c, i) && HasNode(c, i + 1) && Fitting(c, i, data, proposed)
  {
    assert Reads.ReadNext(c.rs[i], c.steps[i], c.rs[i + 1]);
    Proposes(c.rs[i].c, c.n, data, c.rs[i + 1].c);
    ProposalsWithin(c, i, proposed);
    TracksOn(c, i, proposed);
  }

  lemma StepFits(c: Course, i: nat, proposed: map<nat, Proposal>)
    requires Reads.IsReadRun(c.rs, c.steps) && i < |c.steps| && HasNode(c, i) && HasNode(c, i + 1)
    requires Tracks(c, i, proposed)
    ensures Fits(c, i, proposed)
  {
    TracksOn(c, i, proposed);
    if MakesProposal(c, i) {
      ProposalFits(c, i, c.steps[i].s.data, proposed);
    } else if MakesRead(c, i) {
      assert Reads.ReadNext(c.rs[i], c.steps[i], c.rs[i + 1]);
    }
  }

  /** The callers as step `i` finds them: a proposer or a reader of its own comes first. */
  ghost function Facing(c: Course, i: nat, d: Desk): Desk
    requires i < |c.steps| && HasNode(c, i) && HasNode(c, i + 1)
  {
    if MakesProposal(c, i) then
      d.(awaiting := Enrolled(d.awaiting, NodeAt(c, i), NodeAt(c, i + 1), i))
    else if MakesRead(c, i) then
      d.(confirming := Asking(d.confirming, NodeAt(c, i), i, i))
    else d
  }

  lemma ServesFacing(c: Course, i: nat, d: Desk, applied: nat)
    requires i < |c.steps| && HasNode(c, i) && HasNode(c, i + 1) && Serves(c, i, d, applied)
    ensures Serves(c, i + 1, Facing(c, i, d), applied)
  {
  }

  /** One step of the run other than a restart. */
  method Follow<S(!new)>(d: Driver<S>, m: Machine<S>, c: Course, i: nat, threshold: nat)
    requires Lawful(c, m, threshold) && i < |c.steps| && c.steps[i] != Reads.Base(Restart(c.n))
    requires Following(d, m, c, i, threshold)
    modifies d
    ensures Keeping(d, m, c, i + 1, threshold) && HasNode(c, i + 1) && d.node == Compacted(NodeAt(c, i + 1), threshold)
  {
    Arrives(m, c, i, threshold);
    ghost var before, desk := d.lastApplied, Desk(d.awaiting, d.confirming, d.answers);
    ServesFacing(c, i, desk, before);
    StepFits(c, i, d.proposed);
    FollowStep(d, m, c, i, threshold);
    ServesOn(c, i, Facing(c, i, desk), c.reports[i], Desk(d.awaiting, d.confirming, d.answers), d.node.log, before,
        d.lastApplied);
  }

  method FollowStep<S(!new)>(d: Driver<S>, m: Machine<S>, c: Course, i: nat, threshold: nat)
    requires |c.rs| == |c.steps| + 1 && i < |c.steps| == |c.reports| && Arrived(m, c, i)
    requires Following(d, m, c, i, threshold) && Fits(c, i, d.proposed)
    modifies d
    ensures Tending(d, m, c, i + 1, threshold) && d.node == Compacted(NodeAt(c, i + 1), threshold)
    ensures d.lastApplied >= old(d.lastApplied)
    ensures Dealt(Facing(c, i, old(Desk(d.awaiting, d.confirming, d.answers))), c.reports[i],
              Desk(d.awaiting, d.confirming, d.answers), d.node.log, d.lastApplied)
  {
    if MakesProposal(c, i) {
      FollowProposal(d, m, c, i, threshold);
    } else if MakesRead(c, i) {
      FollowRead(d, m, c, i, threshold);
    } else {
      FollowEvent(d, m, c, i, threshold);
    }
  }

  method FollowProposal<S(!new)>(d: Driver<S>, m: Machine<S>, c: Course, i: nat, threshold: nat)
    requires |c.rs| == |c.steps| + 1 && i < |c.steps| == |c.reports| && Arrived(m, c, i)
    requires Following(d, m, c, i, threshold) && Fits(c, i, d.proposed)
    requires MakesProposal(c, i)
    modifies d
    ensures Tending(d, m, c, i + 1, threshold) && d.node == Compacted(NodeAt(c, i + 1), threshold)
    ensures d.lastApplied >= old(d.lastApplied)
    ensures Dealt(Facing(c, i, old(Desk(d.awaiting, d.confirming, d.answers))), c.reports[i],
              Desk(d.awaiting, d.confirming, d.answers), d.node.log, d.lastApplied)
  {
    var after := NodeAt(c, i + 1);
    assert d.Appends(c.steps[i].s.data, after) && d.Newest();
    d.ProposeCommitted(i, c.steps[i].s.data, after, BlobFor(m, after), c.reports[i]);
  }

  method FollowRead<S(!new)>(d: Driver<S>, m: Machine<S>, c: Course, i: nat, threshold: nat)
    requires |c.rs| == |c.steps| + 1 && i < |c.steps| == |c.reports| && Arrived(m, c, i)
    requires Following(d, m, c, i, threshold) && Fits(c, i, d.proposed)
    requires MakesRead(c, i)
    modifies d
    ensures Tending(d, m, c, i + 1, threshold) && d.node == Compacted(NodeAt(c, i + 1), threshold)
    ensures d.lastApplied >= old(d.lastApplied)
    ensures Dealt(Facing(c, i, old(Desk(d.awaiting, d.confirming, d.answers))), c.reports[i],
              Desk(d.awaiting, d.confirming, d.answers), d.node.log, d.lastApplied)
  {
    d.ReadIndex(i, i, c.reports[i]);
  }

  method FollowEvent<S(!new)>(d: Driver<S>, m: Machine<S>, c: Course, i: nat, threshold: nat)
    requires |c.rs| == |c.steps| + 1 && i < |c.steps| == |c.reports| && Arrived(m, c, i)
    requires Following(d, m, c, i, threshold) && Fits(c, i, d.proposed)
    requires !MakesProposal(c, i) && !MakesRead(c, i)
    modifies d
    ensures Tending(d, m, c, i + 1, threshold) && d.node == Compacted(NodeAt(c, i + 1), threshold)
    ensures d.lastApplied >= old(d.lastApplied)
    ensures Dealt(Facing(c, i, old(Desk(d.awaiting, d.confirming, d.answers))), c.reports[i],
              Desk(d.awaiting, d.confirming, d.answers), d.node.log, d.lastApplied)
  {
    var after := NodeAt(c, i + 1);
    d.NodeEvent(after, BlobFor(m, after), c.reports[i]);
  }
}

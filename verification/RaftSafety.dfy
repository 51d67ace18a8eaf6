/** The five safety properties of Raft, over every run of the cluster:
    elections, leader changes, membership changes, snapshots and restarts in any order. */
module RaftSafety {
  import opened Quorum
  import opened RaftCluster
  import opened RaftInvariant
  import opened RaftCompleteness
  import opened RaftMonotone
  import opened RaftSteps

  lemma ExtendsTrans(a: History, b: History, c: History)
    requires Extends(a, b) && Extends(b, c)
    ensures Extends(a, c)
  {
    assert Grows(a.reigns, c.reigns) by {
      forall t | t in a.reigns ensures t in c.reigns && a.reigns[t].log <= c.reigns[t].log {
        assert a.reigns[t].log <= b.reigns[t].log && b.reigns[t].log <= c.reigns[t].log;
      }
    }
  }

  lemma AppendStepExtends(c: Cluster, n: NodeId, p: Payload)
    requires Inv(c) && Leads(c, n)
    ensures Extends(c.h, LeaderAppend(c, n, p).h)
  {
    assert NodeInv(c.h, n, c.nodes[n]);
    GrowReigns(c.h, n, c.nodes[n], p);
  }

  lemma CrownStepExtends(c: Cluster, n: NodeId)
    requires Inv(c) && Enabled(c, BecomeLeader(n))
    ensures Extends(c.h, DoBecomeLeader(c, n).h)
  {
    assert NodeInv(c.h, n, c.nodes[n]);
    TermIsFree(c.h, n, c.nodes[n]);
    CrownReigns(c.h, n, c.nodes[n]);
  }

  /** No step rewrites history. */
  lemma StepExtends(c: Cluster, s: Step)
    requires Inv(c) && Enabled(c, s)
    ensures Extends(c.h, Apply(c, s).h)
  {
    match s
    case BecomeLeader(n) => CrownStepExtends(c, n);
    case Propose(n, data) => AppendStepExtends(c, n, Command(data));
    case ProposeConfChange(n, vs) => AppendStepExtends(c, n, Config(JointConfig(Cfg(c.h.boot, c.nodes[n].log), vs)));
    case ProposeAddLearner(n, l) => AppendStepExtends(c, n, Config(WithLearner(Cfg(c.h.boot, c.nodes[n].log), l)));
    case FinishJoint(n) => AppendStepExtends(c, n, Config(FinalConfig(Cfg(c.h.boot, c.nodes[n].log))));
    case _ => OtherStepExtends(c, s);
  }

  lemma ExtendsAdding(h: History, slot: Slot, b: Ballot, index: nat, r: CommitRec)
    ensures Extends(h, h) && Extends(h, WithVote(h, slot, b)) && Extends(h, WithAck(h, slot, index))
    ensures Extends(h, h.(commits := h.commits + {r}))
  {
  }

  /** The steps that leave `reigns` alone. */
  lemma OtherStepExtends(c: Cluster, s: Step)
    requires Enabled(c, s) && !s.BecomeLeader? && !s.Propose? && !s.ProposeConfChange? && !s.ProposeAddLearner? &&
             !s.FinishJoint?
    ensures Extends(c.h, Apply(c, s).h)
  {
    var nd := c.nodes[s.n];
    var anySlot, anyBallot, anyRec := Slot(s.n, 0), Ballot(s.n, []), CommitRec(0, 0, 0, {});
    if s.StartElection? {
      ExtendsAdding(c.h, Slot(s.n, NextTerm(nd)), Ballot(s.n, nd.log), 0, anyRec);
    } else if s.HandleVoteRequest? {
      ExtendsAdding(c.h, Slot(s.n, s.req.term), Ballot(s.req.cand, ObserveTerm(nd, s.req.term).log), 0, anyRec);
    } else if s.HandleAppend? {
      ExtendsAdding(c.h, Slot(s.n, s.app.term), anyBallot, Reach(s.app), anyRec);
    } else if s.AdvanceCommit? {
      var k := FindCommit(c.h.boot, s.n, nd, |nd.log|);
      ExtendsAdding(c.h, anySlot, anyBallot, 0, CommitRec(Term(nd), k, |nd.log|, AckSet(s.n, nd.role.matched, k)));
    } else {
      QuietHistory(c, s);
      ExtendsAdding(c.h, anySlot, anyBallot, 0, anyRec);
    }
  }

  lemma QuietHistory(c: Cluster, s: Step)
    requires Enabled(c, s) && !s.BecomeLeader? && !s.Propose? && !s.ProposeConfChange? && !s.ProposeAddLearner?
    requires !s.FinishJoint? && !s.StartElection? && !s.HandleVoteRequest? && !s.HandleAppend? && !s.AdvanceCommit?
    ensures Apply(c, s).h == c.h
  {
  }

  lemma NextKeeps(c: Cluster, s: Step, c': Cluster)
    requires Inv(c) && Next(c, s, c')
    ensures Inv(c')
  {
    StepKeeps(c, s);
  }

  lemma NextExtends(c: Cluster, s: Step, c': Cluster)
    requires Inv(c) && Next(c, s, c')
    ensures Extends(c.h, c'.h)
  {
    StepExtends(c, s);
  }

  lemma {:induction false} RunHolds(run: seq<Cluster>, steps: seq<Step>, i: nat)
    requires IsRun(run, steps) && i < |run|
    ensures Inv(run[i])
    decreases i
  {
    if i == 0 {
      InitHolds(run[0]);
    } else {
      var k := i - 1;
      RunHolds(run, steps, k);
      assert Next(run[k], steps[k], run[k + 1]);
      NextKeeps(run[k], steps[k], run[i]);
    }
  }

  lemma {:induction false} RunExtends(run: seq<Cluster>, steps: seq<Step>, i: nat, j: nat)
    requires IsRun(run, steps) && i <= j < |run|
    ensures Extends(run[i].h, run[j].h)
    decreases j
  {
    if i < j {
      var k := j - 1;
      RunExtends(run, steps, i, k);
      RunHolds(run, steps, k);
      assert Next(run[k], steps[k], run[k + 1]);
      NextExtends(run[k], steps[k], run[j]);
      ExtendsTrans(run[i].h, run[k].h, run[j].h);
    }
  }

  /** The node's own invariant, and its history carried on to a later moment. */
  lemma NodeAt(run: seq<Cluster>, steps: seq<Step>, i: nat, j: nat, n: NodeId)
    requires IsRun(run, steps) && i <= j < |run| && n in run[i].nodes
    ensures NodeInv(run[i].h, n, run[i].nodes[n]) && Extends(run[i].h, run[j].h)
    ensures LogOk(run[j].h.reigns, run[i].nodes[n].log)
  {
    RunHolds(run, steps, i);
    RunExtends(run, steps, i, j);
    assert NodeInv(run[i].h, n, run[i].nodes[n]);
    LogOkGrows(run[i].h.reigns, run[j].h.reigns, run[i].nodes[n].log);
  }

  ghost predicate IsLeader(c: Cluster, n: NodeId, t: nat) {
    n in c.nodes && c.nodes[n].role.Leader? && Term(c.nodes[n]) == t
  }

  /** Election safety: over a whole run, at most one node ever leads a term. */
  lemma ElectionSafety(run: seq<Cluster>, steps: seq<Step>, i: nat, j: nat, a: NodeId, b: NodeId, t: nat)
    requires IsRun(run, steps) && i <= j < |run|
    requires IsLeader(run[i], a, t) && IsLeader(run[j], b, t)
    ensures a == b
  {
    NodeAt(run, steps, i, j, a);
    NodeAt(run, steps, j, j, b);
  }

  /** Leader append-only: within its term a leader's log only grows at the end. */
  lemma LeaderAppendOnly(run: seq<Cluster>, steps: seq<Step>, i: nat, j: nat, n: NodeId, t: nat)
    requires IsRun(run, steps) && i <= j < |run|
    requires IsLeader(run[i], n, t) && IsLeader(run[j], n, t)
    ensures run[i].nodes[n].log <= run[j].nodes[n].log
  {
    NodeAt(run, steps, i, j, n);
    NodeAt(run, steps, j, j, n);
  }

  /** Log matching: entries with one index and one term, on any two nodes at
      any two moments, are the same entry after the same history. */
  lemma LogMatching(run: seq<Cluster>, steps: seq<Step>, i: nat, j: nat, a: NodeId, b: NodeId, index: nat)
    requires IsRun(run, steps) && i <= j < |run| && a in run[i].nodes && b in run[j].nodes
    requires 0 < index <= |run[i].nodes[a].log| && index <= |run[j].nodes[b].log|
    requires run[i].nodes[a].log[index - 1].term == run[j].nodes[b].log[index - 1].term
    ensures run[i].nodes[a].log[..index] == run[j].nodes[b].log[..index]
  {
    NodeAt(run, steps, i, j, a);
    NodeAt(run, steps, j, j, b);
    SameTermAgree(run[j].h.reigns, run[i].nodes[a].log, run[j].nodes[b].log, index - 1);
  }

  /** What node `n` has committed: the entries its state machine may apply. */
  function CommittedLog(c: Cluster, n: NodeId): Log
    requires n in c.nodes && c.nodes[n].commit <= |c.nodes[n].log|
  {
    c.nodes[n].log[..c.nodes[n].commit]
  }

  ghost predicate HasCommitted(c: Cluster, n: NodeId, p: Log) {
    n in c.nodes && c.nodes[n].commit <= |c.nodes[n].log| && p == CommittedLog(c, n)
  }

  /** What a node has committed at one moment counts as committed ever after. */
  lemma CommittedStays(run: seq<Cluster>, steps: seq<Step>, i: nat, j: nat, n: NodeId, p: Log)
    requires IsRun(run, steps) && i <= j < |run| && HasCommitted(run[i], n, p)
    ensures Committed(run[j].h, p, Term(run[i].nodes[n]))
  {
    NodeAt(run, steps, i, j, n);
    CommittedGrows(run[i].h, run[j].h, p, Term(run[i].nodes[n]), Term(run[i].nodes[n]));
  }

  /** Leader completeness: a leader holds everything that any node had committed
      earlier in the run in its own or an earlier term. */
  lemma LeaderCompleteness(run: seq<Cluster>, steps: seq<Step>, i: nat, j: nat, n: NodeId, l: NodeId, p: Log)
    requires IsRun(run, steps) && i <= j < |run| && HasCommitted(run[i], n, p)
    requires l in run[j].nodes && IsLeader(run[j], l, Term(run[j].nodes[l]))
    requires Term(run[i].nodes[n]) <= Term(run[j].nodes[l])
    ensures p <= run[j].nodes[l].log
  {
    CommittedStays(run, steps, i, j, n, p);
    RunHolds(run, steps, j);
    var h, nd := run[j].h, run[j].nodes[l];
    assert NodeInv(h, l, nd);
    if p != [] {
      var r: CommitRec :| Covers(h, r, p) && r.term <= Term(run[i].nodes[n]);
      CommittedInReign(h, r, p, Term(nd));
    }
  }

  /** State machine safety: whatever two nodes have committed at any two moments
      of a run, across crashes and restarts, one is a prefix of the other. */
  lemma StateMachineSafety(run: seq<Cluster>, steps: seq<Step>, i: nat, j: nat, a: NodeId, b: NodeId, p: Log, q: Log)
    requires IsRun(run, steps) && i <= j < |run|
    requires HasCommitted(run[i], a, p) && HasCommitted(run[j], b, q)
    ensures p <= q || q <= p
  {
    CommittedStays(run, steps, i, j, a, p);
    CommittedStays(run, steps, j, j, b, q);
    RunHolds(run, steps, j);
    CommittedComparable(run[j].h, p, q, Term(run[i].nodes[a]), Term(run[j].nodes[b]));
  }

  /** Committed entries are never truncated, and the commit index falls only
      at a restart, never below the snapshot; the snapshot index never falls. */
  ghost predicate Retains(nd: Node, nd': Node, restarted: bool) {
    && nd.snap <= nd.commit <= |nd.log|
    && nd.log[..nd.commit] <= nd'.log
    && nd.snap <= nd'.snap <= nd'.commit
    && (!restarted ==> nd.commit <= nd'.commit)
    && Term(nd) <= Term(nd')
  }

  lemma CommittedNeverLost(c: Cluster, s: Step, n: NodeId)
    requires Inv(c) && Enabled(c, s) && n in c.nodes
    ensures n in Apply(c, s).nodes && Retains(c.nodes[n], Apply(c, s).nodes[n], s == Restart(n))
  {
    NodeBounds(c, n);
    if s.n != n {
      OthersUntouched(c, s, n);
    } else if s.HandleAppend? {
      AppendStepRetains(c, s);
    } else if s.TruncateOnly? {
      CutStepRetains(c, s);
    } else if s.HandleInstall? {
      InstallStepRetains(c, s);
    } else {
      OtherRetains(c, s);
    }
  }

  lemma NodeBounds(c: Cluster, n: NodeId)
    requires Inv(c) && n in c.nodes
    ensures c.nodes[n].snap <= c.nodes[n].commit <= |c.nodes[n].log|
  {
    assert NodeInv(c.h, n, c.nodes[n]);
  }

  lemma OthersUntouched(c: Cluster, s: Step, n: NodeId)
    requires Enabled(c, s) && n in c.nodes && s.n != n && c.nodes[n].snap <= c.nodes[n].commit <= |c.nodes[n].log|
    ensures n in Apply(c, s).nodes && Retains(c.nodes[n], Apply(c, s).nodes[n], s == Restart(n))
  {
    assert Apply(c, s).nodes[n] == c.nodes[n];
  }

  lemma AppendStepRetains(c: Cluster, s: Step)
    requires Inv(c) && Enabled(c, s) && s.HandleAppend?
    ensures s.n in Apply(c, s).nodes && Retains(c.nodes[s.n], Apply(c, s).nodes[s.n], s == Restart(s.n))
  {
    AppendRetains(c, s.n, s.app);
    AppendIsStep(c, s);
  }

  lemma AppendIsStep(c: Cluster, s: Step)
    requires Enabled(c, s) && s.HandleAppend? && Retains(c.nodes[s.n], DoHandleAppend(c, s.n, s.app).nodes[s.n], false)
    ensures s.n in Apply(c, s).nodes && Retains(c.nodes[s.n], Apply(c, s).nodes[s.n], s == Restart(s.n))
  {
  }

  lemma InstallIsStep(c: Cluster, s: Step)
    requires Enabled(c, s) && s.HandleInstall? &&
             Retains(c.nodes[s.n], DoHandleInstall(c, s.n, s.inst).nodes[s.n], false)
    ensures s.n in Apply(c, s).nodes && Retains(c.nodes[s.n], Apply(c, s).nodes[s.n], s == Restart(s.n))
  {
  }

  lemma InstallStepRetains(c: Cluster, s: Step)
    requires Inv(c) && Enabled(c, s) && s.HandleInstall?
    ensures s.n in Apply(c, s).nodes && Retains(c.nodes[s.n], Apply(c, s).nodes[s.n], s == Restart(s.n))
  {
    InstallRetains(c, s.n, s.inst);
    InstallIsStep(c, s);
  }

  lemma CutStepRetains(c: Cluster, s: Step)
    requires Inv(c) && Enabled(c, s) && s.TruncateOnly?
    ensures s.n in Apply(c, s).nodes && Retains(c.nodes[s.n], Apply(c, s).nodes[s.n], s == Restart(s.n))
  {
    assert NodeInv(c.h, s.n, c.nodes[s.n]) && AppendOk(c.h, s.app);
    CutNodeInv(c.h, s.n, c.nodes[s.n], s.app);
    CutIsStep(c, s);
  }

  lemma CutIsStep(c: Cluster, s: Step)
    requires Enabled(c, s) && s.TruncateOnly? &&
             c.nodes[s.n].snap <= c.nodes[s.n].commit < CutAt(c.nodes[s.n], s.app).value
    ensures s.n in Apply(c, s).nodes && Retains(c.nodes[s.n], Apply(c, s).nodes[s.n], s == Restart(s.n))
  {
    var nd, nd' := c.nodes[s.n], Cut(c.nodes[s.n], s.app);
    assert nd.log[..nd.commit] == nd'.log[..nd.commit];
    assert Apply(c, s).nodes[s.n] == nd';
  }

  lemma OtherRetains(c: Cluster, s: Step)
    requires Enabled(c, s) && c.nodes[s.n].snap <= c.nodes[s.n].commit <= |c.nodes[s.n].log|
    requires !s.HandleAppend? && !s.HandleInstall? && !s.TruncateOnly?
    ensures s.n in Apply(c, s).nodes && Retains(c.nodes[s.n], Apply(c, s).nodes[s.n], s == Restart(s.n))
  {
    var nd, nd' := c.nodes[s.n], Apply(c, s).nodes[s.n];
    assert nd'.log == nd.log || nd'.log == nd.log + [nd'.log[|nd.log|]];
    assert nd'.snap == nd.snap || (nd'.snap == nd.commit && nd'.commit == nd.commit);
  }

  lemma AppendRetains(c: Cluster, n: NodeId, m: Append)
    requires Inv(c) && n in c.nodes && m in c.appends
    ensures Retains(c.nodes[n], DoHandleAppend(c, n, m).nodes[n], false)
  {
    assert NodeInv(c.h, n, c.nodes[n]) && AppendOk(c.h, m);
    ReceivedRetains(c.h, n, c.nodes[n], m);
    ReceivedIs(c, n, m);
  }

  /** The node once it has handled an append request. */
  function Received(nd: Node, m: Append): Node {
    var nd1 := ObserveTerm(nd, m.term);
    var nd2 := nd1.(role := Follower);
    if m.term < Term(nd1) then nd1 else if LogMatches(nd2, m.prev, m.prevTerm) then Accept(nd2, m) else nd2
  }

  lemma ReceivedIs(c: Cluster, n: NodeId, m: Append)
    requires n in c.nodes
    ensures n in DoHandleAppend(c, n, m).nodes && DoHandleAppend(c, n, m).nodes[n] == Received(c.nodes[n], m)
  {
  }

  lemma ReceivedRetains(h: History, n: NodeId, nd: Node, m: Append)
    requires HistoryInv(h) && NodeInv(h, n, nd) && AppendOk(h, m)
    ensures Retains(nd, Received(nd, m), false)
  {
    var nd1 := ObserveTerm(nd, m.term);
    ObserveTermInv(h, n, nd, m.term);
    var nd2 := nd1.(role := Follower);
    if m.term >= Term(nd1) && LogMatches(nd2, m.prev, m.prevTerm) {
      AcceptRetains(h, nd2, m);
    }
  }

  lemma AcceptRetains(h: History, nd: Node, m: Append)
    requires HistoryInv(h) && NodeOk(h, nd) && AppendOk(h, m) && Term(nd) == m.term &&
             LogMatches(nd, m.prev, m.prevTerm)
    ensures Retains(nd, Accept(nd, m), false)
  {
    var slog, log' := h.reigns[m.term].log, AppendNew(nd, m.prev, m.entries, 0);
    CommittedInLeader(h, nd, m.term);
    PrevAgrees(h, nd, m);
    AcceptedLog(h.reigns, nd, slog, m);
    if nd.commit <= Reach(m) {
      AgreeShorter(log', slog, Reach(m), nd.commit);
    } else {
      AgreeShorter(nd.log, slog, nd.commit, Reach(m));
    }
  }

  lemma InstallRetains(c: Cluster, n: NodeId, m: Install)
    requires Inv(c) && n in c.nodes && m in c.installs
    ensures Retains(c.nodes[n], DoHandleInstall(c, n, m).nodes[n], false)
  {
    assert NodeInv(c.h, n, c.nodes[n]) && InstallOk(c.h, m);
    InstalledRetains(c.h, n, c.nodes[n], m);
  }

  lemma InstalledRetains(h: History, n: NodeId, nd: Node, m: Install)
    requires HistoryInv(h) && NodeInv(h, n, nd) && InstallOk(h, m)
    ensures Retains(nd, Installed(nd, m), false)
  {
    var nd2 := ObserveTerm(nd, m.term).(role := Follower);
    ObserveTermInv(h, n, nd, m.term);
    if m.term == Term(nd2) && m.lastIndex > nd2.snap && m.lastIndex > nd2.commit {
      AdoptRetains(h, nd2, m);
    }
  }

  lemma AdoptRetains(h: History, nd: Node, m: Install)
    requires HistoryInv(h) && NodeOk(h, nd) && InstallOk(h, m) && Term(nd) == m.term
    requires m.lastIndex > nd.snap && m.lastIndex > nd.commit
    ensures Retains(nd, Adopt(nd, m), false)
  {
    var slog := h.reigns[m.term].log;
    CommittedInLeader(h, nd, m.term);
    assert LogOk(h.reigns, slog);
    AdoptedLog(h.reigns, nd, slog, m);
    AgreeShorter(Adopt(nd, m).log, slog, m.lastIndex, nd.commit);
  }
}

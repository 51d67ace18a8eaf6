/** The inductive invariant of a Raft cluster. */
module RaftInvariant {
  import opened Common
  import opened Quorum
  import opened RaftCluster

  /** `x` and `y` both reach index `k` and hold the same entries up to it. */
  ghost predicate Agree(x: Log, y: Log, k: nat) { k <= |x| && k <= |y| && x[..k] == y[..k] }

  /** Log matching, one entry: the leader of the entry's term led with this very prefix. */
  ghost predicate EntryOk(g: Reigns, log: Log, i: nat)
    requires i < |log|
  {
    log[i].term in g && Agree(log, g[log[i].term].log, i + 1)
  }

  ghost predicate LogOk(g: Reigns, log: Log) { forall i :: 0 <= i < |log| ==> EntryOk(g, log, i) }

  ghost predicate TermsBelow(log: Log, bound: nat) { forall i :: 0 <= i < |log| ==> log[i].term <= bound }

  ghost predicate Fresher(x: Log, y: Log) { UpToDate(LastTerm(x), |x|, LastTerm(y), |y|) }

  /** Leader append-only and log matching for the log a term was led with. */
  ghost predicate ReignShape(r: Reign, t: nat) {
    && t > 0
    && r.base < |r.log|
    && (forall i :: 0 <= i < r.base ==> r.log[i].term < t)
    && (forall i :: r.base <= i < |r.log| ==> r.log[i].term == t)
  }

  ghost predicate InvReigns(g: Reigns) {
    forall t :: t in g ==> ReignShape(g[t], t) && LogOk(g, g[t].log)
  }

  ghost predicate VoteFor(h: History, v: NodeId, t: nat, cand: NodeId, log: Log) {
    Slot(v, t) in h.votes && h.votes[Slot(v, t)].cand == cand && Fresher(log, h.votes[Slot(v, t)].log)
  }

  /** The prefix `p` was committed by the leader of a term up to `bound`. */
  ghost predicate Covers(h: History, r: CommitRec, p: Log) {
    && r in h.commits && r.term in h.reigns
    && |p| <= r.index && Agree(p, h.reigns[r.term].log, |p|)
  }

  ghost predicate Committed(h: History, p: Log, bound: nat) {
    p == [] || exists r: CommitRec :: Covers(h, r, p) && r.term <= bound
  }

  /** As `Committed`, and before the leader of `t` had more than `len` entries. */
  ghost predicate CommittedBefore(h: History, p: Log, t: nat, len: nat) {
    p == [] || exists r: CommitRec :: Covers(h, r, p) && r.term <= t && (r.term == t ==> r.logLen <= len)
  }

  /** A configuration entry follows from the configuration before it, which was committed by then. */
  ghost predicate ConfigOk(h: History, t: nat, log: Log, j: nat)
    requires j < |log|
  {
    log[j].payload.Config? ==>
      && IsChild(Cfg(h.boot, log[..j]), log[j].payload.config)
      && CommittedBefore(h, log[..LastCfg(log[..j])], t, j)
  }

  ghost predicate InvConfigs(h: History) {
    forall t :: t in h.reigns ==>
                  forall j :: h.reigns[t].base <= j < |h.reigns[t].log| ==> ConfigOk(h, t, h.reigns[t].log, j)
  }

  ghost predicate AckedTo(h: History, v: NodeId, t: nat, k: nat) { Slot(v, t) in h.acked && k <= h.acked[Slot(v, t)] }

  ghost predicate RecOk(h: History, r: CommitRec) {
    && r.term in h.reigns
    && h.reigns[r.term].base < r.index <= r.logLen <= |h.reigns[r.term].log|
    && HasQuorum(Cfg(h.boot, h.reigns[r.term].log[..r.logLen]), r.quorum)
    && forall v :: v in r.quorum ==> AckedTo(h, v, r.term, r.index)
  }

  ghost predicate InvCommits(h: History) { forall r :: r in h.commits ==> RecOk(h, r) }

  /** Some leader of a term in `(t, bound]` led without the first `k` entries of `t`'s log. */
  ghost predicate Displaced(g: Reigns, t: nat, k: nat, bound: nat)
    requires t in g
  {
    exists s :: t < s <= bound && s in g && !Agree(g[s].log, g[t].log, k)
  }

  ghost predicate Kept(g: Reigns, log: Log, t: nat, k: nat, bound: nat)
    requires t in g
  {
    Agree(log, g[t].log, k) || Displaced(g, t, k, bound)
  }

  ghost predicate BallotKept(h: History, v: NodeId, t: nat, T: nat, B: nat) {
    && t in h.reigns && Slot(v, t) in h.acked && Slot(v, T) in h.votes
    && forall k :: 0 <= k <= h.acked[Slot(v, t)] ==> Kept(h.reigns, h.votes[Slot(v, T)].log, t, k, B)
  }

  /** `v` is on record for `cand` in term `T`, and when it voted it still held what
      it had acknowledged in earlier terms, unless a leader of a term up to `B` displaced it. */
  ghost predicate VoterOk(h: History, v: NodeId, T: nat, B: nat, cand: NodeId, log: Log) {
    VoteFor(h, v, T, cand, log) && forall t: nat :: t < T && Slot(v, t) in h.acked ==> BallotKept(h, v, t, T, B)
  }

  /** `cand` could be, or was, elected in term `T` with log `log` by `voters`. */
  ghost predicate Electable(h: History, T: nat, B: nat, cand: NodeId, log: Log, voters: set<NodeId>) {
    && LogOk(h.reigns, log)
    && (forall i :: 0 <= i < |log| ==> log[i].term < T)
    && HasQuorum(Cfg(h.boot, log), voters)
    && forall v :: v in voters ==> VoterOk(h, v, T, B, cand, log)
  }

  ghost predicate Elected(h: History, t: nat, r: Reign) {
    0 < t && r.base <= |r.log| && Electable(h, t, t - 1, r.leader, r.log[..r.base], r.voters)
  }

  ghost predicate InvElected(h: History) { forall t :: t in h.reigns ==> Elected(h, t, h.reigns[t]) }

  ghost predicate InvBallots(h: History) {
    && (forall v, t: nat, T: nat ::
         Slot(v, t) in h.acked && Slot(v, T) in h.votes && t < T ==> BallotKept(h, v, t, T, T))
    && forall slot :: slot in h.votes ==> LogOk(h.reigns, h.votes[slot].log)
  }

  /** What the leader-completeness argument needs. */
  ghost predicate HistoryInv(h: History) {
    InvReigns(h.reigns) && InvElected(h) && InvConfigs(h) && InvCommits(h) && InvBallots(h)
  }

  // ----- one node against the history -----

  ghost predicate NodeOk(h: History, nd: Node) {
    && LogOk(h.reigns, nd.log)
    && TermsBelow(nd.log, Term(nd))
    && nd.snap <= nd.commit <= |nd.log|
    && Committed(h, nd.log[..nd.commit], Term(nd))
  }

  ghost predicate LeaderOk(h: History, n: NodeId, nd: Node) {
    nd.role.Leader? ==>
      && Term(nd) in h.reigns
      && h.reigns[Term(nd)].leader == n
      && nd.log == h.reigns[Term(nd)].log
      && AckedTo(h, n, Term(nd), |nd.log|)
      && (forall r :: r in h.commits && r.term == Term(nd) ==> r.index <= nd.commit)
      && forall p :: p in nd.role.matched ==>
                       nd.role.matched[p] <= nd.commit || AckedTo(h, p, Term(nd), nd.role.matched[p])
  }

  ghost predicate CandidateOk(h: History, n: NodeId, nd: Node) {
    nd.role.Candidate? ==>
      && (forall i :: 0 <= i < |nd.log| ==> nd.log[i].term < Term(nd))
      && Term(nd) > 0 && n in nd.role.votes
      && (Term(nd) in h.reigns ==> h.reigns[Term(nd)].leader != n)
      && (forall v :: v in nd.role.votes ==> Slot(v, Term(nd)) in h.votes && h.votes[Slot(v, Term(nd))].cand == n)
      && forall v :: Slot(v, Term(nd)) in h.votes && h.votes[Slot(v, Term(nd))].cand == n ==>
                       Fresher(nd.log, h.votes[Slot(v, Term(nd))].log)
  }

  ghost predicate VotesOk(h: History, n: NodeId, nd: Node) {
    forall t: nat :: Slot(n, t) in h.votes ==>
                  t <= Term(nd) && (t == Term(nd) ==> nd.hard.votedFor == Some(h.votes[Slot(n, t)].cand))
  }

  /** What a node acknowledged it still holds, unless a later leader displaced it. */
  ghost predicate SlotKept(h: History, n: NodeId, nd: Node, t: nat) {
    && t in h.reigns && Slot(n, t) in h.acked
    && h.acked[Slot(n, t)] <= |h.reigns[t].log|
    && t <= Term(nd)
    && forall k :: 0 <= k <= h.acked[Slot(n, t)] ==> Kept(h.reigns, nd.log, t, k, Term(nd))
  }

  ghost predicate AckedOk(h: History, n: NodeId, nd: Node) {
    forall t: nat :: Slot(n, t) in h.acked ==> SlotKept(h, n, nd, t)
  }

  ghost predicate LedOk(h: History, n: NodeId, nd: Node) {
    forall t :: t in h.reigns && h.reigns[t].leader == n ==> t <= Term(nd)
  }

  /** Nobody votes for a node in a term it has not reached. */
  ghost predicate CalledOk(h: History, n: NodeId, nd: Node) {
    forall s :: s in h.votes && h.votes[s].cand == n ==> s.term <= Term(nd)
  }

  ghost predicate NodeInv(h: History, n: NodeId, nd: Node) {
    && NodeOk(h, nd) && LeaderOk(h, n, nd) && CandidateOk(h, n, nd)
    && VotesOk(h, n, nd) && AckedOk(h, n, nd) && LedOk(h, n, nd) && CalledOk(h, n, nd)
  }

  ghost predicate InvNodes(c: Cluster) { forall n :: n in c.nodes ==> NodeInv(c.h, n, c.nodes[n]) }

  /** The history speaks of the cluster's nodes only. */
  ghost predicate InvKnown(c: Cluster) {
    && (forall v, t: nat :: Slot(v, t) in c.h.votes ==> v in c.nodes)
    && (forall v, t: nat :: Slot(v, t) in c.h.acked ==> v in c.nodes)
    && (forall t :: t in c.h.reigns ==> c.h.reigns[t].leader in c.nodes)
  }

  // ----- messages -----

  ghost predicate RequestOk(nodes: map<NodeId, Node>, r: VoteRequest) {
    && r.cand in nodes && r.term <= Term(nodes[r.cand])
    && (r.term == Term(nodes[r.cand]) && nodes[r.cand].role.Candidate? ==>
          r.lastIndex == |nodes[r.cand].log| && r.lastTerm == LastTerm(nodes[r.cand].log))
  }

  ghost predicate InvRequests(c: Cluster) { forall r :: r in c.requests ==> RequestOk(c.nodes, r) }

  ghost predicate GrantOk(h: History, g: VoteGrant) {
    Slot(g.from, g.term) in h.votes && h.votes[Slot(g.from, g.term)].cand == g.to
  }

  ghost predicate AppendOk(h: History, m: Append) {
    && m.term in h.reigns
    && Reach(m) <= |h.reigns[m.term].log|
    && m.entries == h.reigns[m.term].log[m.prev..Reach(m)]
    && (m.prev > 0 ==> m.prevTerm == h.reigns[m.term].log[m.prev - 1].term)
    && m.leaderCommit <= Reach(m)
    && Committed(h, h.reigns[m.term].log[..m.leaderCommit], m.term)
  }

  ghost predicate AckOk(h: History, a: AppendAck) { AckedTo(h, a.from, a.term, a.matchIndex) }

  ghost predicate InstallOk(h: History, m: Install) {
    && m.term in h.reigns
    && 0 < m.lastIndex <= |h.reigns[m.term].log|
    && m.prefix == h.reigns[m.term].log[..m.lastIndex]
    && m.lastTerm == h.reigns[m.term].log[m.lastIndex - 1].term
    && Committed(h, m.prefix, m.term)
  }

  ghost predicate InvMessages(c: Cluster) {
    && (forall g :: g in c.grants ==> GrantOk(c.h, g))
    && (forall m :: m in c.appends ==> AppendOk(c.h, m))
    && (forall a :: a in c.acks ==> AckOk(c.h, a))
    && (forall m :: m in c.installs ==> InstallOk(c.h, m))
  }

  ghost predicate Inv(c: Cluster) {
    HistoryInv(c.h) && InvNodes(c) && InvKnown(c) && InvRequests(c) && InvMessages(c)
  }
}

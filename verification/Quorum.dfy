/** Cluster configurations, quorums and the durable vote
    (crates/brokkr-raft/src/types.rs and state.rs). */
module Quorum {
  import opened Common

  datatype NodeId = NodeId(name: string)

  /** `oldVoters` is `Some` exactly while the joint configuration C_old,new is in force. */
  datatype ClusterConfig = ClusterConfig(voters: set<NodeId>, oldVoters: Option<set<NodeId>>, learners: set<NodeId>)

  predicate Majority(voters: set<NodeId>, acks: set<NodeId>) {
    voters != {} && |set v | v in voters && v in acks| * 2 > |voters|
  }

  predicate HasQuorum(c: ClusterConfig, acks: set<NodeId>) {
    && Majority(c.voters, acks)
    && (c.oldVoters.Some? ==> Majority(c.oldVoters.value, acks))
  }

  predicate IsJoint(c: ClusterConfig) { c.oldVoters.Some? }

  /** The configurations a leader may append directly after `p`: the joint
      configuration of a voter change, the same voters with other learners,
      or, when `p` is joint, its new half. */
  predicate IsChild(p: ClusterConfig, c: ClusterConfig) {
    if IsJoint(p) then c.oldVoters == None && c.voters == p.voters
    else (c.oldVoters == None && c.voters == p.voters) || c.oldVoters == Some(p.voters)
  }

  /** Two configurations whose quorums must overlap: equal, parent and child, or siblings. */
  ghost predicate Adjacent(a: ClusterConfig, b: ClusterConfig) {
    || a == b || IsChild(a, b) || IsChild(b, a)
    || exists p: ClusterConfig :: IsChild(p, a) && IsChild(p, b)
  }

  lemma MajoritiesMeet(voters: set<NodeId>, a: set<NodeId>, b: set<NodeId>) returns (v: NodeId)
    requires Majority(voters, a) && Majority(voters, b)
    ensures v in voters && v in a && v in b
  {
    var x := set v | v in voters && v in a;
    var y := set v | v in voters && v in b;
    if x * y == {} {
      assert |x + y| == |x| + |y|;
      SubsetCard(x + y, voters);
      assert false;
    }
    v :| v in x * y;
  }

  lemma SubsetCard<T>(x: set<T>, y: set<T>)
    requires x <= y
    ensures |x| <= |y|
  {
    assert y == x + (y - x);
  }

  /** Any quorum of one configuration meets any quorum of an adjacent one. */
  lemma QuorumsMeet(c: ClusterConfig, d: ClusterConfig, a: set<NodeId>, b: set<NodeId>) returns (v: NodeId)
    requires Adjacent(c, d) && HasQuorum(c, a) && HasQuorum(d, b)
    ensures v in a && v in b
  {
    var common: set<NodeId>;
    if c == d || IsChild(c, d) {
      common := if IsJoint(c) then c.voters else if d.oldVoters.Some? then d.oldVoters.value else c.voters;
    } else if IsChild(d, c) {
      common := if IsJoint(d) then d.voters else if c.oldVoters.Some? then c.oldVoters.value else d.voters;
    } else {
      var p: ClusterConfig :| IsChild(p, c) && IsChild(p, d);
      common := p.voters;
    }
    v := MajoritiesMeet(common, a, b);
  }

  /** A strict minority never reaches quorum, and learners never count. */
  lemma LearnersNeverCount(c: ClusterConfig, acks: set<NodeId>, learners: set<NodeId>)
    requires learners !! c.voters
    requires c.oldVoters.Some? ==> learners !! c.oldVoters.value
    ensures HasQuorum(c, acks) <==> HasQuorum(c, acks + learners)
  {
    assert (set v | v in c.voters && v in acks) == (set v | v in c.voters && v in acks + learners);
    if c.oldVoters.Some? {
      var o := c.oldVoters.value;
      assert (set v | v in o && v in acks) == (set v | v in o && v in acks + learners);
    }
  }

  /** The persisted hard state of one node. */
  datatype HardState = HardState(currentTerm: nat, votedFor: Option<NodeId>)

  const FreshHardState := HardState(0, None)

  function SteppedTo(h: HardState, term: nat): (r: HardState)
    requires term > h.currentTerm
  {
    HardState(term, None)
  }

  function VotingFor(h: HardState, candidate: NodeId): (r: HardState) {
    HardState(h.currentTerm, Some(candidate))
  }

  /** How a node may move its hard state: advance the term, or vote when free or again for the same candidate. */
  predicate HardStep(h: HardState, h': HardState) {
    || h' == h
    || (h'.currentTerm > h.currentTerm && h' == SteppedTo(h, h'.currentTerm))
    || (h'.votedFor.Some? && h' == VotingFor(h, h'.votedFor.value)
        && (h.votedFor == None || h.votedFor == h'.votedFor))
  }

  predicate HardRun(hs: seq<HardState>) {
    forall i :: 0 < i < |hs| ==> HardStep(hs[i - 1], hs[i])
  }

  /** Over a whole run of hard states the term never falls, and within one
      term the vote, once cast, never changes. */
  lemma {:induction false} OneVotePerTerm(hs: seq<HardState>, i: nat, j: nat)
    requires HardRun(hs) && i <= j < |hs|
    ensures hs[i].currentTerm <= hs[j].currentTerm
    ensures hs[i].currentTerm == hs[j].currentTerm && hs[i].votedFor.Some? ==> hs[j].votedFor == hs[i].votedFor
    decreases j - i
  {
    if i < j {
      OneVotePerTerm(hs, i, j - 1);
      assert HardStep(hs[j - 1], hs[j]);
    }
  }

  /** Node `v` is on record as having voted for `cand` in `term` at some moment of its history. */
  ghost predicate Voted(hs: seq<HardState>, term: nat, cand: NodeId) {
    exists i :: 0 <= i < |hs| && hs[i] == HardState(term, Some(cand))
  }

  /** `cand` holds a quorum of `config` in `term`, drawn from the nodes' histories. */
  ghost predicate Wins(histories: map<NodeId, seq<HardState>>, config: ClusterConfig, term: nat, cand: NodeId,
      votes: set<NodeId>) {
    && HasQuorum(config, votes)
    && forall v :: v in votes ==> v in histories && Voted(histories[v], term, cand)
  }

  /** Election safety across a membership change: no two candidates win the
      same term under adjacent configurations. */
  lemma ElectionSafety(histories: map<NodeId, seq<HardState>>, c: ClusterConfig, d: ClusterConfig,
                       term: nat, a: NodeId, b: NodeId, votesA: set<NodeId>, votesB: set<NodeId>)
    requires forall v :: v in histories ==> HardRun(histories[v])
    requires Adjacent(c, d)
    requires Wins(histories, c, term, a, votesA) && Wins(histories, d, term, b, votesB)
    ensures a == b
  {
    var v := QuorumsMeet(c, d, votesA, votesB);
    var hs := histories[v];
    var i :| 0 <= i < |hs| && hs[i] == HardState(term, Some(a));
    var j :| 0 <= j < |hs| && hs[j] == HardState(term, Some(b));
    if i <= j { OneVotePerTerm(hs, i, j); } else { OneVotePerTerm(hs, j, i); }
  }
}

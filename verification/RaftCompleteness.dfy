/** Leader completeness: every elected leader holds everything committed in
    earlier terms, under joint-consensus membership changes. */
module RaftCompleteness {
  import opened Quorum
  import opened RaftCluster
  import opened RaftInvariant

  lemma {:induction false} LastCfgPrefix(log: Log, p: nat)
    requires LastCfg(log) <= p <= |log|
    ensures LastCfg(log[..p]) == LastCfg(log)
    decreases |log|
  {
    if p == |log| {
      assert log[..p] == log;
    } else {
      LastCfgPrefix(log[..|log| - 1], p);
      assert log[..|log| - 1][..p] == log[..p];
    }
  }

  lemma {:induction false} CfgPrefix(boot: ClusterConfig, log: Log, p: nat)
    requires LastCfg(log) <= p <= |log|
    ensures Cfg(boot, log[..p]) == Cfg(boot, log)
  {
    LastCfgPrefix(log, p);
  }

  /** If `log`'s latest configuration lies beyond `p`, it is a lawful step from
      one that lies within the first `p` entries. */
  ghost predicate StepsFrom(boot: ClusterConfig, log: Log, p: nat) {
    LastCfg(log) > p ==> StepWithin(boot, log[..LastCfg(log) - 1], log[LastCfg(log) - 1].payload.config, p)
  }

  ghost predicate StepWithin(boot: ClusterConfig, before: Log, next: ClusterConfig, p: nat) {
    IsChild(Cfg(boot, before), next) && LastCfg(before) <= p
  }

  /** Relative to a common prefix of length `p`, a log's configuration is the prefix's own or one step from it. */
  lemma CfgFromCommon(boot: ClusterConfig, log: Log, p: nat)
    requires p <= |log| && StepsFrom(boot, log, p)
    ensures Cfg(boot, log) == Cfg(boot, log[..p]) || IsChild(Cfg(boot, log[..p]), Cfg(boot, log))
  {
    if LastCfg(log) <= p {
      CfgPrefix(boot, log, p);
    } else {
      CfgStep(boot, log[..LastCfg(log) - 1], log[LastCfg(log) - 1].payload.config, p);
      assert log[..LastCfg(log) - 1][..p] == log[..p];
    }
  }

  lemma CfgStep(boot: ClusterConfig, before: Log, next: ClusterConfig, p: nat)
    requires p <= |before| && StepWithin(boot, before, next, p)
    ensures IsChild(Cfg(boot, before[..p]), next)
  {
    CfgPrefix(boot, before, p);
  }

  /** The length of the longest common prefix. */
  function CommonLen(x: Log, y: Log): (p: nat)
    ensures Agree(x, y, p)
    ensures forall k: nat :: Agree(x, y, k) ==> k <= p
  {
    if x == [] || y == [] || x[0] != y[0] then 0
    else
      var p := 1 + CommonLen(x[1..], y[1..]);
      assert x[..p] == [x[0]] + x[1..][..p - 1];
      assert y[..p] == [y[0]] + y[1..][..p - 1];
      assert forall k: nat :: Agree(x, y, k) ==> k <= p by {
        forall k: nat | Agree(x, y, k) && k > 0 ensures k <= p {
          assert x[1..][..k - 1] == x[..k][1..];
          assert y[1..][..k - 1] == y[..k][1..];
          assert Agree(x[1..], y[1..], k - 1);
        }
      }
      p
  }

  lemma {:induction false} ConfigsAdjacent(boot: ClusterConfig, x: Log, y: Log)
    requires StepsFrom(boot, x, CommonLen(x, y)) && StepsFrom(boot, y, CommonLen(x, y))
    ensures Adjacent(Cfg(boot, x), Cfg(boot, y))
  {
    var p := CommonLen(x, y);
    CfgFromCommon(boot, x, p);
    CfgFromCommon(boot, y, p);
    assert x[..p] == y[..p];
  }

  lemma AgreeShorter(x: Log, y: Log, k: nat, j: nat)
    requires Agree(x, y, k) && j <= k
    ensures Agree(x, y, j)
  {
    assert x[..j] == x[..k][..j];
    assert y[..j] == y[..k][..j];
  }

  lemma AgreeTrans(x: Log, y: Log, z: Log, k: nat)
    requires Agree(x, y, k) && Agree(y, z, k)
    ensures Agree(x, z, k)
  {
  }

  lemma AgreeAt(x: Log, y: Log, k: nat, i: nat)
    requires Agree(x, y, k) && i < k
    ensures x[i] == y[i]
  {
    assert x[i] == x[..k][i];
    assert y[i] == y[..k][i];
  }

  /** Terms never decrease along a log. */
  lemma TermsSorted(h: History, log: Log, i: nat, j: nat)
    requires InvReigns(h.reigns) && LogOk(h.reigns, log) && i <= j < |log|
    ensures log[i].term <= log[j].term
  {
    assert EntryOk(h.reigns, log, j);
    var t := log[j].term;
    AgreeAt(log, h.reigns[t].log, j + 1, i);
    assert ReignShape(h.reigns[t], t);
  }

  /** A log's latest configuration was appended by the leader of term `u`,
      lawfully, when the configuration before it, at index `parent`, was committed. */
  lemma LastConfigLawful(h: History, log: Log) returns (u: nat, parent: nat)
    requires InvReigns(h.reigns) && InvConfigs(h) && LogOk(h.reigns, log) && LastCfg(log) > 0
    ensures u == log[LastCfg(log) - 1].term && u in h.reigns
    ensures parent < LastCfg(log) && CommittedBefore(h, log[..parent], u, LastCfg(log) - 1)
    ensures StepsFrom(h.boot, log, parent)
  {
    var j := LastCfg(log) - 1;
    assert EntryOk(h.reigns, log, j);
    u := log[j].term;
    var r := h.reigns[u];
    AgreeAt(log, r.log, j + 1, j);
    assert ReignShape(r, u);
    assert ConfigOk(h, u, r.log, j);
    parent := LastCfg(r.log[..j]);
    AgreeShorter(log, r.log, j + 1, j);
    assert log[..parent] == r.log[..parent] by { AgreeShorter(log, r.log, j + 1, parent); }
  }

  /** A leader of term `T`, or a candidate with the votes to become one, holds
      every entry committed in an earlier term. */
  lemma {:induction false} LeaderHolds(h: History, T: nat, B: nat, cand: NodeId, log: Log, voters: set<NodeId>,
      r: CommitRec)
    requires HistoryInv(h) && Electable(h, T, B, cand, log, voters)
    requires B <= T && r in h.commits && r.term < T
    ensures r.term in h.reigns && Agree(log, h.reigns[r.term].log, r.index)
    decreases T, B, r.term, r.logLen, 3
  {
    assert RecOk(h, r);
    var t, k := r.term, r.index;
    var rlog := h.reigns[t].log;
    var s := LastTerm(log);
    assert ReignShape(h.reigns[t], t);
    if s > t {
      LaterTermHolds(h, T, B, cand, log, voters, r);
    } else if s == t && |log| >= k {
      assert EntryOk(h.reigns, log, |log| - 1);
      AgreeShorter(log, rlog, |log|, k);
    } else {
      AdjacentToCommit(h, T, B, cand, log, voters, r);
      var v := QuorumsMeet(Cfg(h.boot, log), Cfg(h.boot, rlog[..r.logLen]), voters, r.quorum);
      assert VoterOk(h, v, T, B, cand, log) && AckedTo(h, v, t, k);
      assert BallotKept(h, v, t, T, B);
      var vlog := h.votes[Slot(v, T)].log;
      assert Kept(h.reigns, vlog, t, k, B);
      if Displaced(h.reigns, t, k, B) {
        var d :| t < d <= B && d in h.reigns && !Agree(h.reigns[d].log, rlog, k);
        ReignHolds(h, d, r);
        assert false;
      }
      HolderVotes(h, log, vlog, t, k);
      assert false;
    }
  }

  /** A voter that holds an entry of term `t` votes only for logs at least as new. */
  lemma HolderVotes(h: History, log: Log, vlog: Log, t: nat, k: nat)
    requires InvReigns(h.reigns) && LogOk(h.reigns, vlog) && t in h.reigns && h.reigns[t].base < k
    requires Agree(vlog, h.reigns[t].log, k) && Fresher(log, vlog)
    ensures LastTerm(log) > t || (LastTerm(log) == t && |log| >= k)
  {
    AgreeAt(vlog, h.reigns[t].log, k, k - 1);
    TermsSorted(h, vlog, k - 1, |vlog| - 1);
  }

  /** The same, for the log a term was actually led with. */
  lemma {:induction false} ReignHolds(h: History, T: nat, r: CommitRec)
    requires HistoryInv(h)
    requires T in h.reigns && r in h.commits && r.term < T
    ensures r.term in h.reigns && Agree(h.reigns[T].log, h.reigns[r.term].log, r.index) && r.index <= h.reigns[T].base
    decreases T, T - 1, r.term, r.logLen, 4
  {
    var q := h.reigns[T];
    assert Elected(h, T, q);
    LeaderHolds(h, T, T - 1, q.leader, q.log[..q.base], q.voters, r);
    AgreeOfPrefix(q.log, q.base, h.reigns[r.term].log, r.index);
  }

  lemma AgreeOfPrefix(x: Log, b: nat, y: Log, k: nat)
    requires b <= |x| && Agree(x[..b], y, k)
    ensures Agree(x, y, k) && k <= b
  {
    assert x[..b][..k] == x[..k];
  }

  lemma {:induction false} LaterTermHolds(h: History, T: nat, B: nat, cand: NodeId, log: Log, voters: set<NodeId>,
      r: CommitRec)
    requires HistoryInv(h) && Electable(h, T, B, cand, log, voters)
    requires B <= T && r in h.commits && r.term < LastTerm(log)
    ensures r.term in h.reigns && Agree(log, h.reigns[r.term].log, r.index)
    decreases T, B, r.term, r.logLen, 2
  {
    assert RecOk(h, r);
    var t, k, s := r.term, r.index, LastTerm(log);
    var rlog := h.reigns[t].log;
    assert EntryOk(h.reigns, log, |log| - 1);
    ReignHolds(h, s, r);
    var slog := h.reigns[s].log;
    assert ReignShape(h.reigns[s], s);
    AgreeAt(log, slog, |log|, |log| - 1);
    assert |log| > k;
    AgreeShorter(log, slog, |log|, k);
    AgreeTrans(log, slog, rlog, k);
  }

  /** The configuration that elects `log` and the one `r` was counted under are adjacent. */
  lemma {:induction false} AdjacentToCommit(h: History, T: nat, B: nat, cand: NodeId, log: Log, voters: set<NodeId>,
      r: CommitRec)
    requires HistoryInv(h) && Electable(h, T, B, cand, log, voters)
    requires B <= T && r in h.commits && r.term < T && RecOk(h, r)
    requires LastTerm(log) < r.term || (LastTerm(log) == r.term && |log| < r.index)
    ensures Adjacent(Cfg(h.boot, log), Cfg(h.boot, h.reigns[r.term].log[..r.logLen]))
    decreases T, B, r.term, r.logLen, 2
  {
    var y := h.reigns[r.term].log[..r.logLen];
    CommitSideSteps(h, T, B, cand, log, voters, r, CommonLen(log, y));
    LeaderSideSteps(h, T, B, log, r, CommonLen(log, y));
    ConfigsAdjacent(h.boot, log, y);
  }

  lemma {:induction false} CommitSideSteps(h: History, T: nat, B: nat, cand: NodeId, log: Log, voters: set<NodeId>,
      r: CommitRec, p: nat)
    requires HistoryInv(h) && Electable(h, T, B, cand, log, voters)
    requires B <= T && r in h.commits && r.term < T && RecOk(h, r)
    requires forall k: nat :: Agree(log, h.reigns[r.term].log[..r.logLen], k) ==> k <= p
    ensures StepsFrom(h.boot, h.reigns[r.term].log[..r.logLen], p)
    decreases T, B, r.term, r.logLen, 1
  {
    var rlog := h.reigns[r.term].log;
    var y := rlog[..r.logLen];
    PrefixLogOk(h, rlog, r.logLen);
    var a := LastCfg(y);
    if a > p {
      var u, pa := LastConfigLawful(h, y);
      assert u <= r.term by { assert ReignShape(h.reigns[r.term], r.term); }
      if pa > 0 {
        var q := CoveringRec(h, y[..pa], u, a - 1);
        LeaderHolds(h, T, B, cand, log, voters, q);
        AgreeShorter(log, h.reigns[q.term].log, q.index, pa);
        assert Agree(log, y, pa);
      }
    }
  }

  lemma WithinReign(h: History, log: Log, t: nat, len: nat)
    requires LogOk(h.reigns, log) && log != [] && LastTerm(log) == t && t in h.reigns
    requires |log| <= len <= |h.reigns[t].log|
    ensures Agree(log, h.reigns[t].log[..len], |log|)
  {
    assert EntryOk(h.reigns, log, |log| - 1);
    assert h.reigns[t].log[..len][..|log|] == h.reigns[t].log[..|log|];
  }

  lemma {:induction false} LeaderSideSteps(h: History, T: nat, B: nat, log: Log, r: CommitRec, p: nat)
    requires HistoryInv(h) && LogOk(h.reigns, log)
    requires B <= T && r in h.commits && r.term < T && RecOk(h, r)
    requires LastTerm(log) < r.term || (LastTerm(log) == r.term && |log| < r.index)
    requires forall k: nat :: Agree(log, h.reigns[r.term].log[..r.logLen], k) ==> k <= p
    ensures StepsFrom(h.boot, log, p)
    decreases T, B, r.term, r.logLen, 1
  {
    var t := r.term;
    var rlog := h.reigns[t].log;
    var y := rlog[..r.logLen];
    var b := LastCfg(log);
    if b > p {
      var u, pb := LastConfigLawful(h, log);
      TermsSorted(h, log, b - 1, |log| - 1);
      if LastTerm(log) == t {
        WithinReign(h, log, t, r.logLen);
        assert false;
      }
      assert u < t;
      if pb > 0 {
        assert CommittedBefore(h, log[..pb], u, b - 1);
        ParentInReign(h, T, B, log[..pb], u, b - 1, r);
        assert log[..pb][..pb] == log[..pb];
        assert Agree(log, y, pb);
      }
    }
  }

  lemma {:induction false} ParentInReign(h: History, T: nat, B: nat, x: Log, u: nat, len: nat, r: CommitRec)
    requires B <= T && HistoryInv(h) && r in h.commits && RecOk(h, r) && u < r.term < T
    requires x != [] && CommittedBefore(h, x, u, len)
    ensures Agree(x, h.reigns[r.term].log[..r.logLen], |x|)
    decreases T, B, r.term, r.logLen, 0
  {
    var rlog := h.reigns[r.term].log;
    var q := CoveringRec(h, x, u, len);
    ReignHolds(h, r.term, q);
    AgreeShorter(rlog, h.reigns[q.term].log, q.index, |x|);
    assert rlog[..|x|] == rlog[..r.logLen][..|x|];
  }

  lemma CoveringRec(h: History, p: Log, t: nat, len: nat) returns (r: CommitRec)
    requires p != [] && CommittedBefore(h, p, t, len)
    ensures Covers(h, r, p) && r.term <= t && (r.term == t ==> r.logLen <= len)
    ensures p == h.reigns[r.term].log[..|p|]
  {
    r :| Covers(h, r, p) && r.term <= t && (r.term == t ==> r.logLen <= len);
    assert p[..|p|] == p;
  }

  lemma PrefixLogOk(h: History, log: Log, m: nat)
    requires m <= |log| && LogOk(h.reigns, log)
    ensures LogOk(h.reigns, log[..m])
  {
    forall i | 0 <= i < m ensures EntryOk(h.reigns, log[..m], i) {
      assert EntryOk(h.reigns, log, i);
      assert log[..m][..i + 1] == log[..i + 1];
    }
  }

  /** Two candidates that could both be elected in one term are the same node. */
  lemma OneLeaderPerTerm(h: History, T: nat, a: NodeId, x: Log, xs: set<NodeId>, b: NodeId, y: Log, ys: set<NodeId>)
    requires HistoryInv(h)
    requires Electable(h, T, T, a, x, xs) && Electable(h, T, T, b, y, ys)
    ensures a == b
  {
    var p := CommonLen(x, y);
    ParentShared(h, T, x, b, y, ys, p);
    assert Agree(y, x, p) && (forall k: nat :: Agree(y, x, k) ==> Agree(x, y, k));
    ParentShared(h, T, y, a, x, xs, p);
    ConfigsAdjacent(h.boot, x, y);
    var v := QuorumsMeet(Cfg(h.boot, x), Cfg(h.boot, y), xs, ys);
    assert VoterOk(h, v, T, T, a, x) && VoterOk(h, v, T, T, b, y);
  }

  /** If `x`'s latest configuration is beyond what it shares with the electable
      `y`, then the configuration before it is within. */
  lemma ParentShared(h: History, T: nat, x: Log, b: NodeId, y: Log, ys: set<NodeId>, p: nat)
    requires HistoryInv(h) && LogOk(h.reigns, x) && Electable(h, T, T, b, y, ys)
    requires forall i :: 0 <= i < |x| ==> x[i].term < T
    requires forall k: nat :: Agree(x, y, k) ==> k <= p
    ensures StepsFrom(h.boot, x, p)
  {
    var a := LastCfg(x);
    if a > p {
      var u, pa := LastConfigLawful(h, x);
      if pa > 0 {
        var q := CoveringRec(h, x[..pa], u, a - 1);
        LeaderHolds(h, T, T, b, y, ys, q);
        AgreeShorter(y, h.reigns[q.term].log, q.index, pa);
        assert Agree(x, y, pa);
      }
    }
  }

  /** Two committed prefixes never disagree: one is a prefix of the other. */
  lemma CommittedComparable(h: History, x: Log, y: Log, xBound: nat, yBound: nat)
    requires HistoryInv(h) && Committed(h, x, xBound) && Committed(h, y, yBound)
    ensures x <= y || y <= x
  {
    if x != [] && y != [] {
      var r: CommitRec :| Covers(h, r, x) && r.term <= xBound;
      var s: CommitRec :| Covers(h, s, y) && s.term <= yBound;
      if r.term <= s.term { RecsComparable(h, r, x, s, y); } else { RecsComparable(h, s, y, r, x); }
    }
  }

  lemma RecsComparable(h: History, r: CommitRec, x: Log, s: CommitRec, y: Log)
    requires HistoryInv(h) && Covers(h, r, x) && Covers(h, s, y) && r.term <= s.term
    ensures x <= y || y <= x
  {
    CommittedInReign(h, r, x, s.term);
    var log := h.reigns[s.term].log;
    assert x == log[..|x|] && y == log[..|y|];
  }

  /** A committed prefix is a prefix of the log of every leader from that term on. */
  lemma CommittedInReign(h: History, r: CommitRec, x: Log, T: nat)
    requires HistoryInv(h) && Covers(h, r, x) && r.term <= T && T in h.reigns
    ensures Agree(x, h.reigns[T].log, |x|) && x == h.reigns[T].log[..|x|]
  {
    assert x[..|x|] == x;
    if r.term < T {
      ReignHolds(h, T, r);
      AgreeShorter(h.reigns[T].log, h.reigns[r.term].log, r.index, |x|);
    }
  }
}

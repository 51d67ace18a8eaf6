/** History only grows, and what the invariant says of it survives growth. */
module RaftMonotone {
  import opened Quorum
  import opened RaftCluster
  import opened RaftInvariant
  import opened RaftCompleteness

  ghost predicate Grows(g: Reigns, g': Reigns) {
    forall t :: t in g ==>
                  && t in g' && g'[t].leader == g[t].leader && g'[t].base == g[t].base
                  && g'[t].voters == g[t].voters && g[t].log <= g'[t].log
  }

  ghost predicate Extends(h: History, h': History) {
    && h'.boot == h.boot
    && Grows(h.reigns, h'.reigns)
    && (forall s :: s in h.votes ==> s in h'.votes && h'.votes[s] == h.votes[s])
    && (forall s :: s in h.acked ==> s in h'.acked && h.acked[s] <= h'.acked[s])
    && h.commits <= h'.commits
  }

  lemma AgreeGrows(x: Log, y: Log, y': Log, k: nat)
    requires Agree(x, y, k) && y <= y'
    ensures Agree(x, y', k)
  {
    assert y'[..k] == y[..k];
  }

  lemma LogOkGrows(g: Reigns, g': Reigns, log: Log)
    requires Grows(g, g') && LogOk(g, log)
    ensures LogOk(g', log)
  {
    forall i | 0 <= i < |log| ensures EntryOk(g', log, i) {
      assert EntryOk(g, log, i);
      AgreeGrows(log, g[log[i].term].log, g'[log[i].term].log, i + 1);
    }
  }

  lemma CoversGrows(h: History, h': History, r: CommitRec, p: Log)
    requires Extends(h, h') && Covers(h, r, p)
    ensures Covers(h', r, p)
  {
    AgreeGrows(p, h.reigns[r.term].log, h'.reigns[r.term].log, |p|);
  }

  lemma CommittedGrows(h: History, h': History, p: Log, b: nat, b': nat)
    requires Extends(h, h') && Committed(h, p, b) && b <= b'
    ensures Committed(h', p, b')
  {
    if p != [] {
      var r: CommitRec :| Covers(h, r, p) && r.term <= b;
      CoversGrows(h, h', r, p);
    }
  }

  lemma CommittedPrefix(h: History, p: Log, k: nat, b: nat)
    requires Committed(h, p, b) && k <= |p|
    ensures Committed(h, p[..k], b)
  {
    if k > 0 {
      var r: CommitRec :| Covers(h, r, p) && r.term <= b;
      assert p[..k][..k] == p[..|p|][..k];
      assert h.reigns[r.term].log[..k] == h.reigns[r.term].log[..|p|][..k];
      assert Covers(h, r, p[..k]);
    }
  }

  /** A displacement is for good: what a leader appends later carries its own, higher term. */
  lemma DisplacedGrows(g: Reigns, g': Reigns, t: nat, k: nat, b: nat, b': nat)
    requires Grows(g, g') && InvReigns(g) && InvReigns(g') && t in g && k <= |g[t].log|
    requires Displaced(g, t, k, b) && b <= b'
    ensures Displaced(g', t, k, b')
  {
    var s :| t < s <= b && s in g && !Agree(g[s].log, g[t].log, k);
    if k <= |g[s].log| {
      assert g'[s].log[..k] == g[s].log[..k] && g'[t].log[..k] == g[t].log[..k];
    } else {
      assert ReignShape(g'[s], s) && ReignShape(g[t], t) && ReignShape(g[s], s);
      assert g'[t].log[k - 1] == g[t].log[k - 1];
      DifferAt(g'[s].log, g'[t].log, k, k);
    }
  }

  lemma DifferAt(x: Log, y: Log, j: nat, k: nat)
    requires 0 < j <= k && j <= |y| && (j <= |x| ==> x[j - 1] != y[j - 1])
    ensures !Agree(x, y, k)
  {
    if Agree(x, y, k) { AgreeAt(x, y, k, j - 1); }
  }

  lemma KeptGrows(g: Reigns, g': Reigns, log: Log, log': Log, t: nat, k: nat, b: nat, b': nat)
    requires Grows(g, g') && InvReigns(g) && InvReigns(g') && t in g && k <= |g[t].log|
    requires Kept(g, log, t, k, b) && b <= b' && log <= log'
    ensures Kept(g', log', t, k, b')
  {
    if Agree(log, g[t].log, k) {
      AgreeGrows(log, g[t].log, g'[t].log, k);
      assert log'[..k] == log[..k];
    } else {
      DisplacedGrows(g, g', t, k, b, b');
    }
  }

  lemma BallotKeptGrows(h: History, h': History, v: NodeId, t: nat, T: nat, B: nat)
    requires Extends(h, h') && InvReigns(h.reigns) && InvReigns(h'.reigns)
    requires BallotKept(h, v, t, T, B)
    requires h'.acked[Slot(v, t)] == h.acked[Slot(v, t)] <= |h.reigns[t].log|
    ensures BallotKept(h', v, t, T, B)
  {
    var log := h.votes[Slot(v, T)].log;
    forall k | 0 <= k <= h'.acked[Slot(v, t)] ensures Kept(h'.reigns, log, t, k, B) {
      assert Kept(h.reigns, log, t, k, B);
      KeptGrows(h.reigns, h'.reigns, log, log, t, k, B, B);
    }
  }

  lemma RecOkGrows(h: History, h': History, r: CommitRec)
    requires Extends(h, h') && RecOk(h, r)
    ensures RecOk(h', r)
  {
    assert h'.reigns[r.term].log[..r.logLen] == h.reigns[r.term].log[..r.logLen];
    forall v | v in r.quorum ensures AckedTo(h', v, r.term, r.index) {
      assert AckedTo(h, v, r.term, r.index);
    }
  }

  lemma ConfigOkGrows(h: History, h': History, t: nat, log: Log, log': Log, j: nat)
    requires Extends(h, h') && j < |log| && log <= log' && ConfigOk(h, t, log, j)
    ensures ConfigOk(h', t, log', j)
  {
    assert log'[..j] == log[..j];
    var p := log[..LastCfg(log[..j])];
    assert log'[..LastCfg(log'[..j])] == p;
    if log[j].payload.Config? && p != [] {
      var r := CoveringRec(h, p, t, j);
      CoversGrows(h, h', r, p);
    }
  }

  /** Acknowledgements are only ever added in the node's current term, so a
      slot older than a node's vote is closed. */
  ghost predicate Closed(h: History, h': History) {
    forall v, t: nat, T: nat :: Slot(v, t) in h'.acked && Slot(v, T) in h'.votes && t < T ==>
                                  && Slot(v, t) in h.acked && h'.acked[Slot(v, t)] == h.acked[Slot(v, t)]
                                  && t in h.reigns && h.acked[Slot(v, t)] <= |h.reigns[t].log|
  }

  lemma ElectableGrows(h: History, h': History, T: nat, B: nat, cand: NodeId, log: Log, voters: set<NodeId>)
    requires Extends(h, h') && InvReigns(h.reigns) && InvReigns(h'.reigns) && Closed(h, h')
    requires Electable(h, T, B, cand, log, voters)
    ensures Electable(h', T, B, cand, log, voters)
  {
    LogOkGrows(h.reigns, h'.reigns, log);
    forall v | v in voters ensures VoterOk(h', v, T, B, cand, log) {
      assert VoterOk(h, v, T, B, cand, log);
      forall t: nat | t < T && Slot(v, t) in h'.acked ensures BallotKept(h', v, t, T, B) {
        assert BallotKept(h, v, t, T, B);
        BallotKeptGrows(h, h', v, t, T, B);
      }
    }
  }

  /** The old part of the history keeps its invariants; what is new is listed as a precondition. */
  lemma HistoryGrows(h: History, h': History)
    requires HistoryInv(h) && Extends(h, h') && InvReigns(h'.reigns) && Closed(h, h')
    requires forall t :: t in h'.reigns && t !in h.reigns ==> Elected(h', t, h'.reigns[t])
    requires forall t, j :: (t in h'.reigns && (t !in h.reigns || |h.reigns[t].log| <= j)
                             && h'.reigns[t].base <= j < |h'.reigns[t].log|) ==> ConfigOk(h', t, h'.reigns[t].log, j)
    requires forall r :: r in h'.commits && r !in h.commits ==> RecOk(h', r)
    requires forall v, T: nat :: Slot(v, T) in h'.votes && Slot(v, T) !in h.votes ==> NewBallotOk(h, h', v, T)
    ensures HistoryInv(h')
  {
    ElectedGrows(h, h');
    ConfigsGrow(h, h');
    forall r | r in h'.commits ensures RecOk(h', r) {
      if r in h.commits { RecOkGrows(h, h', r); }
    }
    BallotsGrow(h, h');
  }

  lemma ElectedGrows(h: History, h': History)
    requires HistoryInv(h) && Extends(h, h') && InvReigns(h'.reigns) && Closed(h, h')
    requires forall t :: t in h'.reigns && t !in h.reigns ==> Elected(h', t, h'.reigns[t])
    ensures InvElected(h')
  {
    forall t | t in h'.reigns ensures Elected(h', t, h'.reigns[t]) {
      if t in h.reigns {
        var r, r' := h.reigns[t], h'.reigns[t];
        assert Elected(h, t, r);
        ElectableGrows(h, h', t, t - 1, r.leader, r.log[..r.base], r.voters);
        assert r'.log[..r'.base] == r.log[..r.base];
      }
    }
  }

  lemma ConfigsGrow(h: History, h': History)
    requires InvConfigs(h) && Extends(h, h')
    requires forall t, j :: (t in h'.reigns && (t !in h.reigns || |h.reigns[t].log| <= j)
                             && h'.reigns[t].base <= j < |h'.reigns[t].log|) ==> ConfigOk(h', t, h'.reigns[t].log, j)
    ensures InvConfigs(h')
  {
    forall t, j | t in h'.reigns && h'.reigns[t].base <= j < |h'.reigns[t].log|
      ensures ConfigOk(h', t, h'.reigns[t].log, j)
    {
      if t in h.reigns && j < |h.reigns[t].log| {
        ConfigOkGrows(h, h', t, h.reigns[t].log, h'.reigns[t].log, j);
      }
    }
  }

  /** A new ballot holds what its voter had acknowledged. */
  ghost predicate NewBallotOk(h: History, h': History, v: NodeId, T: nat)
    requires Slot(v, T) in h'.votes
  {
    && LogOk(h'.reigns, h'.votes[Slot(v, T)].log)
    && forall t: nat :: t < T && Slot(v, t) in h'.acked ==> BallotKept(h', v, t, T, T)
  }

  lemma BallotsGrow(h: History, h': History)
    requires HistoryInv(h) && Extends(h, h') && InvReigns(h'.reigns) && Closed(h, h')
    requires forall v, T: nat :: Slot(v, T) in h'.votes && Slot(v, T) !in h.votes ==> NewBallotOk(h, h', v, T)
    ensures InvBallots(h')
  {
    forall v, t: nat, T: nat | Slot(v, t) in h'.acked && Slot(v, T) in h'.votes && t < T
      ensures BallotKept(h', v, t, T, T)
    {
      if Slot(v, T) in h.votes {
        BallotKeptGrows(h, h', v, t, T, T);
      } else {
        assert NewBallotOk(h, h', v, T);
      }
    }
    forall s | s in h'.votes ensures LogOk(h'.reigns, h'.votes[s].log) {
      if s in h.votes {
        LogOkGrows(h.reigns, h'.reigns, h.votes[s].log);
      } else {
        assert Slot(s.node, s.term) == s;
        assert NewBallotOk(h, h', s.node, s.term);
      }
    }
  }

  /** What a step must not do behind the back of node `m`. */
  ghost predicate Untouched(h: History, h': History, m: NodeId, nd: Node) {
    && (forall t: nat :: Slot(m, t) in h'.votes ==> Slot(m, t) in h.votes)
    && (forall t: nat :: Slot(m, t) in h'.acked ==>
         Slot(m, t) in h.acked && h'.acked[Slot(m, t)] == h.acked[Slot(m, t)])
    && (forall t :: t in h'.reigns && h'.reigns[t].leader == m ==> t in h.reigns && h'.reigns[t] == h.reigns[t])
    && (forall s :: s in h'.votes && s !in h.votes && h'.votes[s].cand == m ==> s.term <= Term(nd))
    && (nd.role.Leader? ==> forall r :: r in h'.commits && r !in h.commits ==> r.term != Term(nd))
    && (nd.role.Candidate? ==> forall v :: Slot(v, Term(nd)) in h'.votes && Slot(v, Term(nd)) !in h.votes
                                           && h'.votes[Slot(v, Term(nd))].cand == m ==>
                                             Fresher(nd.log, h'.votes[Slot(v, Term(nd))].log))
  }

  lemma NodeGrows(h: History, h': History, m: NodeId, nd: Node)
    requires InvReigns(h.reigns) && InvReigns(h'.reigns) && Extends(h, h')
    requires NodeInv(h, m, nd) && Untouched(h, h', m, nd)
    ensures NodeInv(h', m, nd)
  {
    LogOkGrows(h.reigns, h'.reigns, nd.log);
    CommittedGrows(h, h', nd.log[..nd.commit], Term(nd), Term(nd));
    forall t: nat | Slot(m, t) in h'.acked ensures SlotKept(h', m, nd, t) {
      assert SlotKept(h, m, nd, t);
      forall k | 0 <= k <= h'.acked[Slot(m, t)] ensures Kept(h'.reigns, nd.log, t, k, Term(nd)) {
        KeptGrows(h.reigns, h'.reigns, nd.log, nd.log, t, k, Term(nd), Term(nd));
      }
    }
    assert LeaderOk(h', m, nd) by {
      if nd.role.Leader? {
        forall p | p in nd.role.matched && nd.role.matched[p] > nd.commit
          ensures AckedTo(h', p, Term(nd), nd.role.matched[p])
        {
          assert AckedTo(h, p, Term(nd), nd.role.matched[p]);
        }
      }
    }
    assert CandidateOk(h', m, nd);
  }

  lemma MessagesGrow(c: Cluster, h': History)
    requires InvMessages(c) && Extends(c.h, h')
    ensures InvMessages(c.(h := h'))
  {
    forall m | m in c.appends ensures AppendOk(h', m) {
      assert AppendOk(c.h, m);
      var log, log' := c.h.reigns[m.term].log, h'.reigns[m.term].log;
      assert log'[m.prev..Reach(m)] == log[m.prev..Reach(m)];
      assert log'[..m.leaderCommit] == log[..m.leaderCommit];
      CommittedGrows(c.h, h', log[..m.leaderCommit], m.term, m.term);
    }
    forall m | m in c.installs ensures InstallOk(h', m) {
      assert InstallOk(c.h, m);
      assert h'.reigns[m.term].log[..m.lastIndex] == c.h.reigns[m.term].log[..m.lastIndex];
      CommittedGrows(c.h, h', m.prefix, m.term, m.term);
    }
    forall a | a in c.acks ensures AckOk(h', a) {
      assert AckOk(c.h, a);
    }
    forall g | g in c.grants ensures GrantOk(h', g) {
      assert GrantOk(c.h, g);
    }
  }
}

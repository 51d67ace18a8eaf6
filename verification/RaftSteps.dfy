/** Every step of the cluster keeps the invariant. */
module RaftSteps {
  import opened Common
  import opened Quorum
  import opened RaftCluster
  import opened RaftInvariant
  import opened RaftCompleteness
  import opened RaftMonotone

  // ----- steps that change one node and leave the history alone -----

  /** A node's change may not turn it into a candidate. */
  ghost predicate CalmChange(nd: Node, nd': Node) {
    && Term(nd) <= Term(nd')
    && (nd'.role.Candidate? ==> nd.role.Candidate? && Term(nd') == Term(nd) && nd'.log == nd.log)
  }

  lemma NodeStep(c: Cluster, n: NodeId, nd': Node)
    requires Inv(c) && n in c.nodes && NodeInv(c.h, n, nd') && CalmChange(c.nodes[n], nd')
    ensures Inv(SetNode(c, n, nd'))
  {
    var c' := SetNode(c, n, nd');
    CalmRequests(c, c', n, nd');
    assert InvNodes(c') by {
      forall m | m in c'.nodes ensures NodeInv(c'.h, m, c'.nodes[m]) {
        assert m != n ==> NodeInv(c.h, m, c.nodes[m]);
      }
    }
  }

  lemma CommittedLater(h: History, p: Log, b: nat, b': nat)
    requires Committed(h, p, b) && b <= b'
    ensures Committed(h, p, b')
  {
  }

  lemma KeptLater(h: History, n: NodeId, nd: Node, nd': Node)
    requires AckedOk(h, n, nd) && nd'.log == nd.log && Term(nd) <= Term(nd')
    ensures AckedOk(h, n, nd')
  {
    forall t: nat | Slot(n, t) in h.acked ensures SlotKept(h, n, nd', t) {
      assert SlotKept(h, n, nd, t);
      forall k | 0 <= k <= h.acked[Slot(n, t)] ensures Kept(h.reigns, nd'.log, t, k, Term(nd')) {
        assert Kept(h.reigns, nd.log, t, k, Term(nd));
      }
    }
  }

  lemma ObserveTermInv(h: History, n: NodeId, nd: Node, t: nat)
    requires NodeInv(h, n, nd)
    ensures NodeInv(h, n, ObserveTerm(nd, t)) && CalmChange(nd, ObserveTerm(nd, t))
  {
    var nd' := ObserveTerm(nd, t);
    CommittedLater(h, nd.log[..nd.commit], Term(nd), Term(nd'));
    KeptLater(h, n, nd, nd');
    assert TermsBelow(nd'.log, Term(nd'));
  }

  lemma FollowerInv(h: History, n: NodeId, nd: Node)
    requires NodeInv(h, n, nd)
    ensures NodeInv(h, n, nd.(role := Follower))
  {
    KeptLater(h, n, nd, nd.(role := Follower));
  }

  lemma VoteGrantKeeps(c: Cluster, n: NodeId, g: VoteGrant)
    requires Inv(c) && n in c.nodes && g in c.grants && g.to == n
    ensures Inv(DoHandleVoteGrant(c, n, g))
  {
    var nd := ObserveTerm(c.nodes[n], g.term);
    ObserveTermInv(c.h, n, c.nodes[n], g.term);
    assert GrantOk(c.h, g);
    if g.term == Term(nd) && nd.role.Candidate? {
      CountVoteInv(c.h, n, nd, g.from);
      NodeStep(c, n, nd.(role := Candidate(nd.role.votes + {g.from})));
    } else {
      NodeStep(c, n, nd);
    }
  }

  lemma CountVoteInv(h: History, n: NodeId, nd: Node, v: NodeId)
    requires NodeInv(h, n, nd) && nd.role.Candidate?
    requires Slot(v, Term(nd)) in h.votes && h.votes[Slot(v, Term(nd))].cand == n
    ensures NodeInv(h, n, nd.(role := Candidate(nd.role.votes + {v})))
  {
    var nd' := nd.(role := Candidate(nd.role.votes + {v}));
    KeptLater(h, n, nd, nd');
    assert CandidateOk(h, n, nd');
  }

  lemma MatchInv(h: History, n: NodeId, nd: Node, p: NodeId, index: nat)
    requires NodeInv(h, n, nd) && nd.role.Leader?
    requires index <= nd.commit || AckedTo(h, p, Term(nd), index)
    ensures NodeInv(h, n, nd.(role := Leader(RecordMatch(nd.role.matched, p, index))))
  {
    var nd' := nd.(role := Leader(RecordMatch(nd.role.matched, p, index)));
    KeptLater(h, n, nd, nd');
    assert LeaderOk(h, n, nd') by {
      forall q | q in nd'.role.matched
        ensures nd'.role.matched[q] <= nd'.commit || AckedTo(h, q, Term(nd'), nd'.role.matched[q])
      {
        if q in nd.role.matched {
          assert nd.role.matched[q] <= nd.commit || AckedTo(h, q, Term(nd), nd.role.matched[q]);
        }
      }
    }
  }

  lemma AckKeeps(c: Cluster, n: NodeId, a: AppendAck)
    requires Inv(c) && n in c.nodes && a in c.acks
    ensures Inv(DoHandleAck(c, n, a))
  {
    var nd := ObserveTerm(c.nodes[n], a.term);
    ObserveTermInv(c.h, n, c.nodes[n], a.term);
    assert AckOk(c.h, a);
    if a.term == Term(nd) && nd.role.Leader? {
      MatchInv(c.h, n, nd, a.from, a.matchIndex);
      NodeStep(c, n, nd.(role := Leader(RecordMatch(nd.role.matched, a.from, a.matchIndex))));
    } else {
      NodeStep(c, n, nd);
    }
  }

  /** Crediting a peer with the leader's own snapshot index is harmless: that index is committed. */
  lemma InstallReplyKeeps(c: Cluster, n: NodeId, from: NodeId)
    requires Inv(c) && Leads(c, n)
    ensures Inv(DoHandleInstallReply(c, n, from))
  {
    var nd := c.nodes[n];
    assert NodeInv(c.h, n, nd);
    MatchInv(c.h, n, nd, from, nd.snap);
    NodeStep(c, n, nd.(role := Leader(RecordMatch(nd.role.matched, from, nd.snap))));
  }

  /** A leader may drop what a peer acknowledged, as it does for removed members. */
  lemma ForgetKeeps(c: Cluster, n: NodeId, peer: NodeId)
    requires Inv(c) && Leads(c, n)
    ensures Inv(SetNode(c, n, c.nodes[n].(role := Leader(c.nodes[n].role.matched - {peer}))))
  {
    var nd' := c.nodes[n].(role := Leader(c.nodes[n].role.matched - {peer}));
    assert NodeInv(c.h, n, c.nodes[n]);
    ForgetInv(c.h, n, c.nodes[n], peer);
    NodeStep(c, n, nd');
  }

  lemma ForgetInv(h: History, n: NodeId, nd: Node, peer: NodeId)
    requires NodeInv(h, n, nd) && nd.role.Leader?
    ensures NodeInv(h, n, nd.(role := Leader(nd.role.matched - {peer})))
  {
    KeptLater(h, n, nd, nd.(role := Leader(nd.role.matched - {peer})));
  }

  lemma RetireKeeps(c: Cluster, n: NodeId)
    requires Inv(c) && n in c.nodes
    ensures Inv(SetNode(c, n, c.nodes[n].(role := Follower)))
  {
    FollowerInv(c.h, n, c.nodes[n]);
    NodeStep(c, n, c.nodes[n].(role := Follower));
  }

  lemma ObserveKeeps(c: Cluster, n: NodeId, t: nat)
    requires Inv(c) && n in c.nodes
    ensures Inv(SetNode(c, n, ObserveTerm(c.nodes[n], t)))
  {
    ObserveTermInv(c.h, n, c.nodes[n], t);
    NodeStep(c, n, ObserveTerm(c.nodes[n], t));
  }

  lemma CompactKeeps(c: Cluster, n: NodeId)
    requires Inv(c) && n in c.nodes
    ensures Inv(SetNode(c, n, c.nodes[n].(snap := c.nodes[n].commit)))
  {
    var nd := c.nodes[n];
    var nd' := nd.(snap := nd.commit);
    assert NodeInv(c.h, n, nd);
    KeptLater(c.h, n, nd, nd');
    NodeStep(c, n, nd');
  }

  lemma RestartInv(h: History, n: NodeId, nd: Node)
    requires NodeInv(h, n, nd)
    ensures NodeInv(h, n, nd.(role := Follower, commit := nd.snap))
  {
    CommittedPrefix(h, nd.log[..nd.commit], nd.snap, Term(nd));
    assert nd.log[..nd.commit][..nd.snap] == nd.log[..nd.snap];
    KeptLater(h, n, nd, nd.(role := Follower, commit := nd.snap));
  }

  lemma RestartKeeps(c: Cluster, n: NodeId)
    requires Inv(c) && n in c.nodes
    ensures Inv(SetNode(c, n, c.nodes[n].(role := Follower, commit := c.nodes[n].snap)))
  {
    RestartInv(c.h, n, c.nodes[n]);
    NodeStep(c, n, c.nodes[n].(role := Follower, commit := c.nodes[n].snap));
  }

  // ----- sending -----

  lemma NewAppendOk(h: History, n: NodeId, nd: Node, next: nat)
    requires NodeOk(h, nd) && LeaderOk(h, n, nd) && nd.role.Leader? && nd.snap < next <= |nd.log| + 1
    ensures AppendOk(h, AppendFor(n, nd, next))
  {
    var log := h.reigns[Term(nd)].log;
    assert log[next - 1..|log|] == log[next - 1..];
  }

  lemma NewInstallOk(h: History, n: NodeId, nd: Node)
    requires NodeOk(h, nd) && LeaderOk(h, n, nd) && nd.role.Leader? && 0 < nd.snap <= |nd.log|
    ensures InstallOk(h, InstallFor(n, nd))
  {
    CommittedPrefix(h, nd.log[..nd.commit], nd.snap, Term(nd));
    assert nd.log[..nd.commit][..nd.snap] == nd.log[..nd.snap];
  }

  lemma AddAppend(c: Cluster, m: Append)
    requires Inv(c) && AppendOk(c.h, m)
    ensures Inv(c.(appends := c.appends + {m}))
  {
    MoreMessages(c, {m}, {});
    assert c.installs + {} == c.installs;
    SameButMessages(c, c.(appends := c.appends + {m}));
  }

  lemma MoreMessages(c: Cluster, appends: set<Append>, installs: set<Install>)
    requires InvMessages(c) && (forall m :: m in appends ==> AppendOk(c.h, m))
    requires forall m :: m in installs ==> InstallOk(c.h, m)
    ensures InvMessages(c.(appends := c.appends + appends, installs := c.installs + installs))
  {
  }

  lemma SameButMessages(c: Cluster, c': Cluster)
    requires HistoryInv(c.h) && InvNodes(c) && InvKnown(c) && InvRequests(c) && InvMessages(c')
    requires c'.h == c.h && c'.nodes == c.nodes && c'.requests == c.requests
    ensures Inv(c')
  {
  }

  lemma AddInstall(c: Cluster, m: Install)
    requires Inv(c) && InstallOk(c.h, m)
    ensures Inv(c.(installs := c.installs + {m}))
  {
    MoreMessages(c, {}, {m});
    assert c.appends + {} == c.appends;
    SameButMessages(c, c.(installs := c.installs + {m}));
  }

  lemma SendAppendKeeps(c: Cluster, n: NodeId, next: nat)
    requires Inv(c) && Leads(c, n) && c.nodes[n].snap < next <= |c.nodes[n].log| + 1
    ensures Inv(c.(appends := c.appends + {AppendFor(n, c.nodes[n], next)}))
  {
    assert NodeInv(c.h, n, c.nodes[n]);
    NewAppendOk(c.h, n, c.nodes[n], next);
    AddAppend(c, AppendFor(n, c.nodes[n], next));
  }

  lemma SendInstallKeeps(c: Cluster, n: NodeId)
    requires Inv(c) && Leads(c, n) && 0 < c.nodes[n].snap <= |c.nodes[n].log|
    ensures Inv(c.(installs := c.installs + {InstallFor(n, c.nodes[n])}))
  {
    assert NodeInv(c.h, n, c.nodes[n]);
    NewInstallOk(c.h, n, c.nodes[n]);
    AddInstall(c, InstallFor(n, c.nodes[n]));
  }

  // ----- receiving entries and snapshots -----

  /** Log matching between any two lawful logs. */
  lemma SameTermAgree(g: Reigns, x: Log, y: Log, i: nat)
    requires LogOk(g, x) && LogOk(g, y) && i < |x| && i < |y| && x[i].term == y[i].term
    ensures Agree(x, y, i + 1)
  {
    assert EntryOk(g, x, i) && EntryOk(g, y, i);
  }

  /** Everything a node has committed is in the log of the leader of its own or any later term. */
  lemma CommittedInLeader(h: History, nd: Node, T: nat)
    requires HistoryInv(h) && NodeOk(h, nd) && Term(nd) <= T && T in h.reigns
    ensures Agree(nd.log, h.reigns[T].log, nd.commit) && Agree(nd.log, h.reigns[T].log, nd.snap)
  {
    var p := nd.log[..nd.commit];
    if p != [] {
      var r: CommitRec :| Covers(h, r, p) && r.term <= Term(nd);
      CommittedInReign(h, r, p, T);
    }
    AgreeShorter(nd.log, h.reigns[T].log, nd.commit, nd.snap);
  }

  /** The receiver loop leaves the log alone when it already agrees with the
      leader, and otherwise makes it the leader's log. */
  lemma {:induction false} AppendNewSpec(g: Reigns, nd: Node, slog: Log, prev: nat, entries: Log, i: nat)
    requires LogOk(g, nd.log) && LogOk(g, slog) && nd.snap <= |nd.log|
    requires i <= |entries| && prev + |entries| <= |slog| && entries == slog[prev..prev + |entries|]
    requires Agree(nd.log, slog, nd.snap) && Agree(nd.log, slog, prev + i)
    ensures var log' := AppendNew(nd, prev, entries, i);
            && (Agree(nd.log, slog, prev + |entries|) ==> log' == nd.log)
            && ((log' == nd.log && Agree(nd.log, slog, prev + |entries|)) || log' == slog[..prev + |entries|])
    decreases |entries| - i
  {
    if i < |entries| {
      var index := prev + i + 1;
      assert entries[i] == slog[index - 1];
      if index <= nd.snap {
        AgreeShorter(nd.log, slog, nd.snap, index);
        AppendNewSpec(g, nd, slog, prev, entries, i + 1);
      } else if index <= |nd.log| && nd.log[index - 1].term == entries[i].term {
        SameTermAgree(g, nd.log, slog, index - 1);
        AppendNewSpec(g, nd, slog, prev, entries, i + 1);
      } else {
        DifferAt(nd.log, slog, index, prev + |entries|);
        assert nd.log[..index - 1] == slog[..index - 1];
        assert entries[i..] == slog[index - 1..prev + |entries|];
        assert slog[..index - 1] + slog[index - 1..prev + |entries|] == slog[..prev + |entries|];
        assert index > |nd.log| ==> nd.log[..index - 1] == nd.log;
      }
    }
  }

  /** Replacing a log by one that agrees with leader `s` as far as the old one did keeps every acknowledgement. */
  lemma KeptUnderLeader(g: Reigns, log: Log, log': Log, t: nat, k: nat, s: nat, reach: nat)
    requires t in g && s in g && t <= s && Kept(g, log, t, k, s)
    requires Agree(log', g[s].log, reach) && (Agree(log, g[s].log, k) ==> k <= reach || log' == log)
    ensures Kept(g, log', t, k, s)
  {
    if Agree(log, g[t].log, k) && (t == s || Agree(g[s].log, g[t].log, k)) {
      if k <= reach {
        AgreeShorter(log', g[s].log, reach, k);
      }
    }
  }

  lemma PrevAgrees(h: History, nd: Node, m: Append)
    requires HistoryInv(h) && NodeOk(h, nd) && AppendOk(h, m) && Term(nd) == m.term
    requires LogMatches(nd, m.prev, m.prevTerm)
    ensures Agree(nd.log, h.reigns[m.term].log, m.prev)
  {
    var slog := h.reigns[m.term].log;
    if m.prev > 0 {
      if m.prev < nd.snap {
        CommittedInLeader(h, nd, m.term);
        AgreeShorter(nd.log, slog, nd.snap, m.prev);
      } else {
        SameTermAgree(h.reigns, nd.log, slog, m.prev - 1);
      }
    }
  }

  lemma {:induction false} AcceptedLog(g: Reigns, nd: Node, slog: Log, m: Append)
    requires LogOk(g, nd.log) && LogOk(g, slog) && nd.snap <= |nd.log|
    requires Reach(m) <= |slog| && m.entries == slog[m.prev..Reach(m)]
    requires Agree(nd.log, slog, nd.snap) && Agree(nd.log, slog, m.prev)
    ensures Agree(AppendNew(nd, m.prev, m.entries, 0), slog, Reach(m))
    ensures Agree(nd.log, slog, Reach(m)) ==> AppendNew(nd, m.prev, m.entries, 0) == nd.log
    ensures || AppendNew(nd, m.prev, m.entries, 0) == nd.log
            || AppendNew(nd, m.prev, m.entries, 0) == slog[..Reach(m)]
  {
    AppendNewSpec(g, nd, slog, m.prev, m.entries, 0);
    assert slog[..Reach(m)][..Reach(m)] == slog[..Reach(m)];
  }

  // ----- steps that add to the history -----

  /** Everything a step adds to the history concerns node `n`, in its current term `T` or, for votes, up to it. */
  ghost predicate AddedBy(h: History, h': History, n: NodeId, T: nat) {
    && (forall s :: s in h'.votes && s !in h.votes ==> s.node == n)
    && (forall t: nat :: Slot(n, t) in h'.votes ==> t <= T)
    && (forall s :: s in h'.acked && !(s in h.acked && h'.acked[s] == h.acked[s]) ==> s == Slot(n, T))
    && (forall t :: t in h'.reigns && !(t in h.reigns && h'.reigns[t] == h.reigns[t]) ==> h'.reigns[t].leader == n)
    && (forall r :: r in h'.commits && r !in h.commits ==> r.term in h.reigns && h.reigns[r.term].leader == n)
  }

  lemma ClosedStep(c: Cluster, h': History, n: NodeId, T: nat)
    requires InvNodes(c) && InvKnown(c) && AddedBy(c.h, h', n, T)
    ensures Closed(c.h, h')
  {
    forall v, t: nat, T': nat | Slot(v, t) in h'.acked && Slot(v, T') in h'.votes && t < T'
      ensures Slot(v, t) in c.h.acked && h'.acked[Slot(v, t)] == c.h.acked[Slot(v, t)]
      ensures t in c.h.reigns && c.h.acked[Slot(v, t)] <= |c.h.reigns[t].log|
    {
      assert Slot(v, t) != Slot(n, T);
      assert NodeInv(c.h, v, c.nodes[v]);
      assert SlotKept(c.h, v, c.nodes[v], t);
    }
  }

  /** A vote newly recorded for a candidate other than the voter is fresh enough for it. */
  ghost predicate NewVotesFresh(c: Cluster, h': History, n: NodeId) {
    forall v, T: nat :: Slot(v, T) in h'.votes && Slot(v, T) !in c.h.votes ==> VoteFresh(c, h', n, v, T)
  }

  ghost predicate VoteFresh(c: Cluster, h': History, n: NodeId, v: NodeId, T: nat)
    requires Slot(v, T) in h'.votes
  {
    var b := h'.votes[Slot(v, T)];
    b.cand != n && b.cand in c.nodes ==>
      && T <= Term(c.nodes[b.cand])
      && (Term(c.nodes[b.cand]) == T && c.nodes[b.cand].role.Candidate? ==> Fresher(c.nodes[b.cand].log, b.log))
  }

  /** Puts a step's obligations together. */
  lemma HistoryStep(c: Cluster, c': Cluster, n: NodeId, nd': Node, T: nat)
    requires Inv(c) && n in c.nodes && c'.nodes == c.nodes[n := nd']
    requires Extends(c.h, c'.h) && HistoryInv(c'.h)
    requires AddedBy(c.h, c'.h, n, T) && NewVotesFresh(c, c'.h, n)
    requires NodeInv(c'.h, n, nd')
    requires InvRequests(c') && InvMessages(c')
    ensures Inv(c')
  {
    forall m | m in c'.nodes ensures NodeInv(c'.h, m, c'.nodes[m]) {
      if m != n {
        assert NodeInv(c.h, m, c.nodes[m]);
        UntouchedOther(c, c'.h, n, T, m);
        NodeGrows(c.h, c'.h, m, c.nodes[m]);
      }
    }
    KnownStep(c, c', n, T);
  }

  lemma UntouchedOther(c: Cluster, h': History, n: NodeId, T: nat, m: NodeId)
    requires m in c.nodes && m != n && LeaderOk(c.h, m, c.nodes[m]) && AddedBy(c.h, h', n, T) && NewVotesFresh(c, h', n)
    ensures Untouched(c.h, h', m, c.nodes[m])
  {
    var nd := c.nodes[m];
    forall s | s in h'.votes && s !in c.h.votes && h'.votes[s].cand == m ensures s.term <= Term(nd) {
      assert s == Slot(s.node, s.term);
      assert VoteFresh(c, h', n, s.node, s.term);
    }
    if nd.role.Candidate? {
      forall v | Slot(v, Term(nd)) in h'.votes && Slot(v, Term(nd)) !in c.h.votes &&
          h'.votes[Slot(v, Term(nd))].cand == m
        ensures Fresher(nd.log, h'.votes[Slot(v, Term(nd))].log)
      {
        assert VoteFresh(c, h', n, v, Term(nd));
      }
    }
  }

  lemma KnownStep(c: Cluster, c': Cluster, n: NodeId, T: nat)
    requires InvKnown(c) && n in c.nodes && c'.nodes.Keys == c.nodes.Keys && AddedBy(c.h, c'.h, n, T)
    ensures InvKnown(c')
  {
    forall v, t: nat | Slot(v, t) in c'.h.votes ensures v in c'.nodes {
      assert Slot(v, t) in c.h.votes || v == n;
    }
    forall v, t: nat | Slot(v, t) in c'.h.acked ensures v in c'.nodes {
      assert Slot(v, t) in c.h.acked || v == n;
    }
    forall t | t in c'.h.reigns ensures c'.h.reigns[t].leader in c'.nodes {
      assert (t in c.h.reigns && c'.h.reigns[t] == c.h.reigns[t]) || c'.h.reigns[t].leader == n;
    }
  }

  lemma CalmRequests(c: Cluster, c': Cluster, n: NodeId, nd': Node)
    requires InvRequests(c) && n in c.nodes && c'.nodes == c.nodes[n := nd']
    requires c'.requests == c.requests && CalmChange(c.nodes[n], nd')
    ensures InvRequests(c')
  {
    forall r | r in c'.requests ensures RequestOk(c'.nodes, r) {
      assert RequestOk(c.nodes, r);
    }
  }

  // ----- AppendEntries -----

  lemma AcceptedCommit(h: History, nd: Node, m: Append, log': Log)
    requires HistoryInv(h) && NodeOk(h, nd) && AppendOk(h, m) && Term(nd) == m.term
    requires Agree(log', h.reigns[m.term].log, Reach(m))
    requires Agree(nd.log, h.reigns[m.term].log, Reach(m)) ==> log' == nd.log
    requires log' == nd.log || log' == h.reigns[m.term].log[..Reach(m)]
    ensures nd.commit <= |log'| && Committed(h, log'[..nd.commit], m.term)
    ensures m.leaderCommit <= |log'| && Committed(h, log'[..m.leaderCommit], m.term)
    ensures LogOk(h.reigns, log') && TermsBelow(log', m.term)
  {
    var slog, reach := h.reigns[m.term].log, Reach(m);
    CommittedInLeader(h, nd, m.term);
    if nd.commit > reach {
      AgreeShorter(nd.log, slog, nd.commit, reach);
    } else {
      AgreeShorter(log', slog, reach, nd.commit);
    }
    AgreeShorter(log', slog, reach, m.leaderCommit);
    if log' != nd.log {
      PrefixLogOk(h, slog, reach);
      assert ReignShape(h.reigns[m.term], m.term);
    }
  }

  /** Accepting entries keeps everything this node acknowledged before, and makes the new acknowledgement true. */
  lemma AcceptedKept(h: History, n: NodeId, nd: Node, m: Append, log': Log, t: nat, k: nat)
    requires NodeInv(h, n, nd) && AppendOk(h, m) && Term(nd) == m.term && t in h.reigns
    requires Agree(log', h.reigns[m.term].log, Reach(m))
    requires Agree(nd.log, h.reigns[m.term].log, Reach(m)) ==> log' == nd.log
    requires (Slot(n, t) in h.acked && k <= h.acked[Slot(n, t)]) || (t == m.term && k <= Reach(m))
    ensures Kept(h.reigns, log', t, k, m.term)
  {
    var slog, reach := h.reigns[m.term].log, Reach(m);
    if t == m.term && k <= reach {
      AgreeShorter(log', slog, reach, k);
    } else {
      assert SlotKept(h, n, nd, t);
      assert Kept(h.reigns, nd.log, t, k, m.term);
      if Agree(nd.log, slog, k) && k > reach {
        AgreeShorter(nd.log, slog, k, reach);
      }
      KeptUnderLeader(h.reigns, nd.log, log', t, k, m.term, reach);
    }
  }

  lemma AcceptedAcked(h: History, n: NodeId, nd: Node, m: Append, nd': Node, h': History)
    requires NodeInv(h, n, nd) && AppendOk(h, m) && Term(nd) == m.term == Term(nd') &&
             h' == WithAck(h, Slot(n, m.term), Reach(m))
    requires Agree(nd'.log, h.reigns[m.term].log, Reach(m))
    requires Agree(nd.log, h.reigns[m.term].log, Reach(m)) ==> nd'.log == nd.log
    ensures AckedOk(h', n, nd')
  {
    forall t: nat | Slot(n, t) in h'.acked ensures SlotKept(h', n, nd', t) {
      assert Slot(n, t) in h.acked ==> SlotKept(h, n, nd, t);
      forall k | 0 <= k <= h'.acked[Slot(n, t)] ensures Kept(h'.reigns, nd'.log, t, k, Term(nd')) {
        AcceptedKept(h, n, nd, m, nd'.log, t, k);
      }
    }
  }

  lemma AcceptInv(h: History, n: NodeId, nd: Node, m: Append)
    requires HistoryInv(h) && NodeInv(h, n, nd) && AppendOk(h, m) && Term(nd) == m.term && nd.role.Follower?
    requires LogMatches(nd, m.prev, m.prevTerm)
    ensures NodeInv(WithAck(h, Slot(n, m.term), Reach(m)), n, Accept(nd, m))
  {
    AcceptedOk(h, nd, m);
    AckedInv(h, n, nd, m, Accept(nd, m));
  }

  lemma AcceptedOk(h: History, nd: Node, m: Append)
    requires HistoryInv(h) && NodeOk(h, nd) && AppendOk(h, m) && Term(nd) == m.term
    requires LogMatches(nd, m.prev, m.prevTerm)
    ensures NodeOk(h, Accept(nd, m)) && Agree(Accept(nd, m).log, h.reigns[m.term].log, Reach(m))
    ensures Agree(nd.log, h.reigns[m.term].log, Reach(m)) ==> Accept(nd, m).log == nd.log
  {
    CommittedInLeader(h, nd, m.term);
    PrevAgrees(h, nd, m);
    AcceptedLog(h.reigns, nd, h.reigns[m.term].log, m);
    AcceptedCommit(h, nd, m, Accept(nd, m).log);
  }

  lemma AckedInv(h: History, n: NodeId, nd: Node, m: Append, nd': Node)
    requires NodeInv(h, n, nd) && nd.role.Follower? && AppendOk(h, m) && Term(nd) == m.term
    requires NodeOk(h, nd') && nd' == nd.(log := nd'.log, commit := nd'.commit)
    requires Agree(nd'.log, h.reigns[m.term].log, Reach(m))
    requires Agree(nd.log, h.reigns[m.term].log, Reach(m)) ==> nd'.log == nd.log
    ensures NodeInv(WithAck(h, Slot(n, m.term), Reach(m)), n, nd')
  {
    var h' := WithAck(h, Slot(n, m.term), Reach(m));
    assert Extends(h, h');
    CommittedGrows(h, h', nd'.log[..nd'.commit], m.term, m.term);
    AcceptedAcked(h, n, nd, m, nd', h');
  }

  lemma AckAdds(h: History, n: NodeId, nd: Node, T: nat, index: nat)
    requires VotesOk(h, n, nd) && T == Term(nd)
    ensures Extends(h, WithAck(h, Slot(n, T), index)) && AddedBy(h, WithAck(h, Slot(n, T), index), n, T)
  {
  }

  lemma AckHistory(h: History, h': History)
    requires HistoryInv(h) && Extends(h, h') && Closed(h, h')
    requires h'.reigns == h.reigns && h'.votes == h.votes && h'.commits == h.commits
    ensures HistoryInv(h')
  {
    HistoryGrows(h, h');
  }

  lemma AckMessages(c: Cluster, c': Cluster, a: AppendAck)
    requires InvMessages(c) && Extends(c.h, c'.h) && AckOk(c'.h, a)
    requires c'.grants == c.grants && c'.appends == c.appends && c'.installs == c.installs && c'.acks == c.acks + {a}
    ensures InvMessages(c')
  {
    MessagesGrow(c, c'.h);
    forall x | x in c'.acks ensures AckOk(c'.h, x) {
      assert x in c.acks || x == a;
    }
  }

  lemma AcceptKeeps(c: Cluster, n: NodeId, nd: Node, m: Append)
    requires Inv(c) && n in c.nodes && m in c.appends && NodeInv(c.h, n, nd) && CalmChange(c.nodes[n], nd)
    requires Term(nd) == m.term && nd.role.Follower? && LogMatches(nd, m.prev, m.prevTerm)
    ensures Inv(DoAccept(c, n, nd, m))
  {
    var c' := DoAccept(c, n, nd, m);
    AcceptInv(c.h, n, nd, m);
    AckAdds(c.h, n, nd, m.term, Reach(m));
    ClosedStep(c, c'.h, n, m.term);
    AckHistory(c.h, c'.h);
    CalmRequests(c, c', n, Accept(nd, m));
    AckMessages(c, c', AppendAck(m.term, n, Reach(m)));
    HistoryStep(c, c', n, Accept(nd, m), m.term);
  }

  lemma HandleAppendKeeps(c: Cluster, n: NodeId, m: Append)
    requires Inv(c) && n in c.nodes && m in c.appends
    ensures Inv(DoHandleAppend(c, n, m))
  {
    var nd1 := ObserveTerm(c.nodes[n], m.term);
    ObserveTermInv(c.h, n, c.nodes[n], m.term);
    if m.term < Term(nd1) {
      NodeStep(c, n, nd1);
    } else {
      var nd2 := nd1.(role := Follower);
      FollowerInv(c.h, n, nd1);
      if LogMatches(nd2, m.prev, m.prevTerm) {
        AcceptKeeps(c, n, nd2, m);
      } else {
        NodeStep(c, n, nd2);
      }
    }
  }

  /** A conflict lies just beyond what log and leader agree on. */
  lemma {:induction false} ConflictSpec(g: Reigns, nd: Node, slog: Log, prev: nat, entries: Log, i: nat)
    requires LogOk(g, nd.log) && LogOk(g, slog) && nd.snap <= |nd.log|
    requires i <= |entries| && prev + |entries| <= |slog| && entries == slog[prev..prev + |entries|]
    requires Agree(nd.log, slog, nd.snap) && Agree(nd.log, slog, prev + i)
    ensures var at := Conflict(nd, prev, entries, i);
            at.Some? ==>
              Agree(nd.log, slog, at.value - 1) && at.value <= |slog| &&
              nd.log[at.value - 1].term != slog[at.value - 1].term
    decreases |entries| - i
  {
    if i < |entries| {
      var index := prev + i + 1;
      assert entries[i] == slog[index - 1];
      if index <= nd.snap {
        AgreeShorter(nd.log, slog, nd.snap, index);
        ConflictSpec(g, nd, slog, prev, entries, i + 1);
      } else if index <= |nd.log| && nd.log[index - 1].term == entries[i].term {
        SameTermAgree(g, nd.log, slog, index - 1);
        ConflictSpec(g, nd, slog, prev, entries, i + 1);
      }
    }
  }

  lemma AgreeShort(x: Log, y: Log, k: nat, i: nat)
    requires Agree(x, y, k) && i < |x| && i < |y| && x[i].term != y[i].term
    ensures k <= i
  {
    if i < k {
      AgreeAt(x, y, k, i);
      assert false;
    }
  }

  /** `index` holds an entry the leader of `s` does not have, just beyond what it does have. */
  ghost predicate FirstDiffers(h: History, nd: Node, s: nat, index: nat) {
    && s == Term(nd) && s in h.reigns && 0 < index <= |nd.log| && index <= |h.reigns[s].log|
    && Agree(nd.log, h.reigns[s].log, index - 1) && nd.log[index - 1].term != h.reigns[s].log[index - 1].term
  }

  /** What a follower cuts is neither committed nor shared with the leader. */
  lemma {:induction false} CutPlace(h: History, nd: Node, m: Append, index: nat)
    requires HistoryInv(h) && NodeOk(h, nd) && AppendOk(h, m) && Term(nd) == m.term
    requires LogMatches(nd, m.prev, m.prevTerm) && Conflict(nd, m.prev, m.entries, 0) == Some(index)
    ensures FirstDiffers(h, nd, m.term, index) && nd.commit < index
  {
    CommittedInLeader(h, nd, m.term);
    PrevAgrees(h, nd, m);
    LeaderLogOk(h, m.term);
    ConflictFound(h, nd, m, index);
  }

  lemma LeaderLogOk(h: History, s: nat)
    requires HistoryInv(h) && s in h.reigns
    ensures LogOk(h.reigns, h.reigns[s].log)
  {
  }

  lemma {:induction false} ConflictFound(h: History, nd: Node, m: Append, index: nat)
    requires AppendOk(h, m) && Term(nd) == m.term && LogOk(h.reigns, nd.log) && LogOk(h.reigns, h.reigns[m.term].log)
    requires nd.snap <= |nd.log| && Conflict(nd, m.prev, m.entries, 0) == Some(index)
    requires Agree(nd.log, h.reigns[m.term].log, nd.snap) && Agree(nd.log, h.reigns[m.term].log, nd.commit)
    requires Agree(nd.log, h.reigns[m.term].log, m.prev)
    ensures FirstDiffers(h, nd, m.term, index) && nd.commit < index
  {
    ConflictSpec(h.reigns, nd, h.reigns[m.term].log, m.prev, m.entries, 0);
    AgreeShort(nd.log, h.reigns[m.term].log, nd.commit, index - 1);
  }

  lemma CutInv(h: History, n: NodeId, nd: Node, s: nat, index: nat)
    requires NodeInv(h, n, nd) && nd.role.Follower? && FirstDiffers(h, nd, s, index) && nd.commit < index
    ensures NodeInv(h, n, nd.(log := nd.log[..index - 1]))
  {
    var nd' := nd.(log := nd.log[..index - 1]);
    PrefixLogOk(h, nd.log, index - 1);
    assert nd'.log[..nd.commit] == nd.log[..nd.commit];
    CutAcked(h, n, nd, s, index);
  }

  lemma CutAcked(h: History, n: NodeId, nd: Node, s: nat, index: nat)
    requires AckedOk(h, n, nd) && FirstDiffers(h, nd, s, index)
    ensures AckedOk(h, n, nd.(log := nd.log[..index - 1]))
  {
    var slog, nd' := h.reigns[s].log, nd.(log := nd.log[..index - 1]);
    assert nd'.log[..index - 1] == nd.log[..index - 1];
    forall t: nat | Slot(n, t) in h.acked ensures SlotKept(h, n, nd', t) {
      assert SlotKept(h, n, nd, t);
      forall k | 0 <= k <= h.acked[Slot(n, t)] ensures Kept(h.reigns, nd'.log, t, k, Term(nd')) {
        if Agree(nd.log, slog, k) {
          AgreeShort(nd.log, slog, k, index - 1);
        }
        KeptUnderLeader(h.reigns, nd.log, nd'.log, t, k, s, index - 1);
      }
    }
  }

  lemma StepDownInv(h: History, n: NodeId, nd: Node, t: nat)
    requires NodeInv(h, n, nd)
    ensures NodeInv(h, n, ObserveTerm(nd, t).(role := Follower)) && Term(ObserveTerm(nd, t)) >= Term(nd)
  {
    ObserveTermInv(h, n, nd, t);
    FollowerInv(h, n, ObserveTerm(nd, t));
  }

  lemma CutNodeInv(h: History, n: NodeId, nd: Node, m: Append)
    requires HistoryInv(h) && NodeInv(h, n, nd) && AppendOk(h, m) && CutAt(nd, m).Some?
    ensures NodeInv(h, n, Cut(nd, m)) && CalmChange(nd, Cut(nd, m)) && nd.commit < CutAt(nd, m).value
  {
    StepDownInv(h, n, nd, m.term);
    var nd2, index := ObserveTerm(nd, m.term).(role := Follower), CutAt(nd, m).value;
    assert NodeOk(h, nd2) && Term(nd2) == m.term;
    CutPlace(h, nd2, m, index);
    CutInv(h, n, nd2, m.term, index);
    assert Cut(nd, m) == nd2.(log := nd2.log[..index - 1]);
  }

  lemma TruncateKeeps(c: Cluster, n: NodeId, m: Append)
    requires Inv(c) && n in c.nodes && m in c.appends && CutAt(c.nodes[n], m).Some?
    ensures Inv(SetNode(c, n, Cut(c.nodes[n], m)))
  {
    assert NodeInv(c.h, n, c.nodes[n]) && AppendOk(c.h, m);
    CutNodeInv(c.h, n, c.nodes[n], m);
    NodeStep(c, n, Cut(c.nodes[n], m));
  }

  // ----- InstallSnapshot -----

  /** Adopting a snapshot leaves the log alone or makes it the leader's prefix. */
  lemma AdoptedLog(g: Reigns, nd: Node, slog: Log, m: Install)
    requires LogOk(g, nd.log) && LogOk(g, slog)
    requires 0 < m.lastIndex <= |slog| && m.prefix == slog[..m.lastIndex] && m.lastTerm == slog[m.lastIndex - 1].term
    requires m.lastIndex > nd.snap
    ensures Agree(Adopt(nd, m).log, slog, m.lastIndex)
    ensures Agree(nd.log, slog, m.lastIndex) ==> Adopt(nd, m).log == nd.log
    ensures Adopt(nd, m).log == nd.log || Adopt(nd, m).log == m.prefix
  {
    var i := m.lastIndex;
    assert slog[..i][..i] == slog[..i];
    if i <= |nd.log| {
      if nd.log[i - 1].term == m.lastTerm {
        SameTermAgree(g, nd.log, slog, i - 1);
        assert m.prefix + nd.log[i..] == nd.log;
        assert Adopt(nd, m).log == nd.log;
      } else {
        DifferAt(nd.log, slog, i, i);
      }
    }
  }

  lemma AdoptInv(h: History, n: NodeId, nd: Node, m: Install)
    requires HistoryInv(h) && NodeInv(h, n, nd) && InstallOk(h, m) && Term(nd) == m.term && nd.role.Follower?
    requires m.lastIndex > nd.snap
    ensures NodeInv(h, n, Adopt(nd, m))
  {
    var slog, i := h.reigns[m.term].log, m.lastIndex;
    var nd' := Adopt(nd, m);
    assert LogOk(h.reigns, slog);
    AdoptedLog(h.reigns, nd, slog, m);
    assert nd'.log[..i] == m.prefix;
    if nd'.log != nd.log {
      PrefixLogOk(h, slog, i);
      assert ReignShape(h.reigns[m.term], m.term);
    }
    forall t: nat | Slot(n, t) in h.acked ensures SlotKept(h, n, nd', t) {
      assert SlotKept(h, n, nd, t);
      forall k | 0 <= k <= h.acked[Slot(n, t)] ensures Kept(h.reigns, nd'.log, t, k, Term(nd')) {
        if Agree(nd.log, slog, k) && k > i { AgreeShorter(nd.log, slog, k, i); }
        KeptUnderLeader(h.reigns, nd.log, nd'.log, t, k, m.term, i);
      }
    }
  }

  lemma HandleInstallKeeps(c: Cluster, n: NodeId, m: Install)
    requires Inv(c) && n in c.nodes && m in c.installs
    ensures Inv(DoHandleInstall(c, n, m))
  {
    assert NodeInv(c.h, n, c.nodes[n]) && InstallOk(c.h, m);
    InstalledInv(c.h, n, c.nodes[n], m);
    NodeStep(c, n, Installed(c.nodes[n], m));
  }

  lemma InstalledInv(h: History, n: NodeId, nd: Node, m: Install)
    requires HistoryInv(h) && NodeInv(h, n, nd) && InstallOk(h, m)
    ensures NodeInv(h, n, Installed(nd, m)) && CalmChange(nd, Installed(nd, m))
  {
    var nd1 := ObserveTerm(nd, m.term);
    ObserveTermInv(h, n, nd, m.term);
    if m.term >= Term(nd1) {
      var nd2 := nd1.(role := Follower);
      FollowerInv(h, n, nd1);
      if m.lastIndex > nd2.snap && m.lastIndex > nd2.commit {
        AdoptInv(h, n, nd2, m);
      }
    }
  }

  // ----- elections -----

  /** Recording the vote of node `n`, which has not voted in a term this high, keeps the history lawful. */
  lemma VoteExtends(c: Cluster, n: NodeId, nd: Node, T: nat, cand: NodeId)
    requires Inv(c) && n in c.nodes && NodeInv(c.h, n, nd) && Term(nd) <= T
    ensures Extends(c.h, WithVote(c.h, Slot(n, T), Ballot(cand, nd.log)))
    ensures AddedBy(c.h, WithVote(c.h, Slot(n, T), Ballot(cand, nd.log)), n, T)
    ensures HistoryInv(WithVote(c.h, Slot(n, T), Ballot(cand, nd.log)))
  {
    VoteAdds(c.h, n, nd, T, cand);
    ClosedStep(c, WithVote(c.h, Slot(n, T), Ballot(cand, nd.log)), n, T);
    VoteHistory(c.h, n, nd, T, cand);
  }

  lemma VoteAdds(h: History, n: NodeId, nd: Node, T: nat, cand: NodeId)
    requires VotesOk(h, n, nd) && Term(nd) <= T
    ensures Extends(h, WithVote(h, Slot(n, T), Ballot(cand, nd.log)))
    ensures AddedBy(h, WithVote(h, Slot(n, T), Ballot(cand, nd.log)), n, T)
  {
  }

  lemma VoteHistory(h: History, n: NodeId, nd: Node, T: nat, cand: NodeId)
    requires HistoryInv(h) && NodeInv(h, n, nd) && Term(nd) <= T
    requires Closed(h, WithVote(h, Slot(n, T), Ballot(cand, nd.log)))
    ensures HistoryInv(WithVote(h, Slot(n, T), Ballot(cand, nd.log)))
  {
    var h' := WithVote(h, Slot(n, T), Ballot(cand, nd.log));
    VoteAdds(h, n, nd, T, cand);
    if Slot(n, T) !in h.votes {
      NewBallot(h, h', n, nd, T);
    }
    HistoryGrows(h, h');
  }

  /** A voter still holds what it has acknowledged. */
  lemma NewBallot(h: History, h': History, n: NodeId, nd: Node, T: nat)
    requires LogOk(h.reigns, nd.log) && AckedOk(h, n, nd) && Term(nd) <= T
    requires h'.reigns == h.reigns && h'.acked == h.acked && Slot(n, T) in h'.votes
    requires h'.votes[Slot(n, T)].log == nd.log
    ensures NewBallotOk(h, h', n, T)
  {
    forall t: nat | t < T && Slot(n, t) in h'.acked ensures BallotKept(h', n, t, T, T) {
      assert SlotKept(h, n, nd, t);
      forall k | 0 <= k <= h'.acked[Slot(n, t)] ensures Kept(h'.reigns, nd.log, t, k, T) {
        assert Kept(h.reigns, nd.log, t, k, Term(nd));
      }
    }
  }

  lemma CampaignInv(h: History, n: NodeId, nd: Node)
    requires NodeInv(h, n, nd)
    ensures NodeInv(WithVote(h, Slot(n, NextTerm(nd)), Ballot(n, nd.log)), n, Campaign(n, nd))
  {
    var T := NextTerm(nd);
    var h' := WithVote(h, Slot(n, T), Ballot(n, nd.log));
    var nd' := Campaign(n, nd);
    assert Slot(n, T) !in h.votes;
    assert Extends(h, h');
    CommittedGrows(h, h', nd.log[..nd.commit], Term(nd), T);
    forall t: nat | Slot(n, t) in h'.acked ensures SlotKept(h', n, nd', t) {
      assert SlotKept(h, n, nd, t);
      forall k | 0 <= k <= h'.acked[Slot(n, t)] ensures Kept(h'.reigns, nd'.log, t, k, T) {
        assert Kept(h.reigns, nd.log, t, k, Term(nd));
      }
    }
    forall s | s in h'.votes && h'.votes[s].cand == n && s != Slot(n, T) ensures s.term < T {
    }
    assert CandidateOk(h', n, nd');
  }

  lemma SameMessages(c: Cluster, c': Cluster)
    requires InvMessages(c) && Extends(c.h, c'.h)
    requires c'.grants == c.grants && c'.appends == c.appends && c'.installs == c.installs && c'.acks == c.acks
    ensures InvMessages(c')
  {
    MessagesGrow(c, c'.h);
  }

  lemma StartElectionKeeps(c: Cluster, n: NodeId)
    requires Inv(c) && n in c.nodes
    ensures Inv(DoStartElection(c, n))
  {
    var c' := DoStartElection(c, n);
    var nd := c.nodes[n];
    assert NodeInv(c.h, n, nd);
    CampaignInv(c.h, n, nd);
    VoteExtends(c, n, nd, NextTerm(nd), n);
    SameMessages(c, c');
    CampaignRequests(c, c', n);
    HistoryStep(c, c', n, Campaign(n, nd), NextTerm(nd));
  }

  lemma CampaignRequests(c: Cluster, c': Cluster, n: NodeId)
    requires InvRequests(c) && n in c.nodes && c' == DoStartElection(c, n)
    ensures InvRequests(c')
  {
    forall r | r in c'.requests ensures RequestOk(c'.nodes, r) {
      assert r in c.requests ==> RequestOk(c.nodes, r);
    }
  }

  lemma GrantInv(h: History, n: NodeId, nd: Node, req: VoteRequest)
    requires NodeInv(h, n, nd) && !nd.role.Leader? && req.term == Term(nd)
    requires nd.hard.votedFor == None || nd.hard.votedFor == Some(req.cand)
    ensures NodeInv(WithVote(h, Slot(n, req.term), Ballot(req.cand, nd.log)), n,
            nd.(hard := VotingFor(nd.hard, req.cand)))
  {
    var h' := WithVote(h, Slot(n, req.term), Ballot(req.cand, nd.log));
    var nd' := nd.(hard := VotingFor(nd.hard, req.cand));
    assert Extends(h, h');
    CommittedGrows(h, h', nd.log[..nd.commit], Term(nd), Term(nd));
    KeptLater(h, n, nd, nd');
    forall t: nat | Slot(n, t) in h'.acked ensures SlotKept(h', n, nd', t) {
      assert SlotKept(h, n, nd', t);
    }
    if nd.role.Candidate? {
      assert Slot(n, Term(nd)) in h.votes;
      assert h' == h;
    }
  }

  lemma GrantKeeps(c: Cluster, n: NodeId, nd: Node, req: VoteRequest)
    requires Inv(c) && n in c.nodes && req in c.requests && NodeInv(c.h, n, nd) && CalmChange(c.nodes[n], nd)
    requires !nd.role.Leader? && req.term == Term(nd)
    requires nd.hard.votedFor == None || nd.hard.votedFor == Some(req.cand)
    requires UpToDate(req.lastTerm, req.lastIndex, LastTerm(nd.log), |nd.log|)
    ensures Inv(DoGrant(c, n, nd, req))
  {
    var c' := DoGrant(c, n, nd, req);
    var nd' := nd.(hard := VotingFor(nd.hard, req.cand));
    GrantInv(c.h, n, nd, req);
    VoteExtends(c, n, nd, req.term, req.cand);
    CalmRequests(c, c', n, nd');
    GrantMessages(c, c', VoteGrant(req.term, n, req.cand));
    assert RequestOk(c.nodes, req);
    HistoryStep(c, c', n, nd', req.term);
  }

  lemma GrantMessages(c: Cluster, c': Cluster, g: VoteGrant)
    requires InvMessages(c) && Extends(c.h, c'.h) && GrantOk(c'.h, g)
    requires c'.acks == c.acks && c'.appends == c.appends && c'.installs == c.installs && c'.grants == c.grants + {g}
    ensures InvMessages(c')
  {
    MessagesGrow(c, c'.h);
    forall x | x in c'.grants ensures GrantOk(c'.h, x) {
      assert x in c.grants || x == g;
    }
  }

  lemma HandleVoteRequestKeeps(c: Cluster, n: NodeId, req: VoteRequest)
    requires Inv(c) && n in c.nodes && req in c.requests
    ensures Inv(DoHandleVoteRequest(c, n, req))
  {
    if !c.nodes[n].role.Leader? {
      var nd1 := ObserveTerm(c.nodes[n], req.term);
      ObserveTermInv(c.h, n, c.nodes[n], req.term);
      if req.term == Term(nd1) && (nd1.hard.votedFor == None || nd1.hard.votedFor == Some(req.cand))
         && UpToDate(req.lastTerm, req.lastIndex, LastTerm(nd1.log), |nd1.log|) {
        GrantKeeps(c, n, nd1, req);
      } else {
        NodeStep(c, n, nd1);
      }
    }
  }

  // ----- leading -----

  /** Setting the log of a new or growing reign keeps log matching. */
  lemma ReignsStep(g: Reigns, t: nat, r: Reign)
    requires InvReigns(g) && ReignShape(r, t) && r.base <= |r.log|
    requires LogOk(g, r.log[..r.base])
    requires t in g ==> r == g[t].(log := r.log) && g[t].log <= r.log
    ensures Grows(g, g[t := r]) && InvReigns(g[t := r])
  {
    var g' := g[t := r];
    assert Grows(g, g');
    LogOkGrows(g, g', r.log[..r.base]);
    forall i | 0 <= i < |r.log| ensures EntryOk(g', r.log, i) {
      if i < r.base {
        assert EntryOk(g', r.log[..r.base], i);
        assert r.log[..r.base][..i + 1] == r.log[..i + 1];
      }
    }
    forall s | s in g' && s != t ensures LogOk(g', g'[s].log) {
      LogOkGrows(g, g', g[s].log);
    }
  }

  /** A candidate with a quorum of votes is electable. */
  lemma CandidateElectable(h: History, n: NodeId, nd: Node)
    requires HistoryInv(h) && NodeInv(h, n, nd) && nd.role.Candidate? && HasQuorum(Cfg(h.boot, nd.log), nd.role.votes)
    ensures Electable(h, Term(nd), Term(nd), n, nd.log, nd.role.votes)
  {
    var T := Term(nd);
    forall v | v in nd.role.votes ensures VoterOk(h, v, T, T, n, nd.log) {
      assert Slot(v, T) in h.votes;
    }
  }

  /** Raising the bound only weakens electability. */
  lemma ElectableWeaker(h: History, T: nat, B: nat, B': nat, cand: NodeId, log: Log, voters: set<NodeId>)
    requires Electable(h, T, B, cand, log, voters) && (B <= B' || (B == B' + 1 && B !in h.reigns))
    ensures Electable(h, T, B', cand, log, voters)
  {
    forall v | v in voters ensures VoterOk(h, v, T, B', cand, log) {
      assert VoterOk(h, v, T, B, cand, log);
      forall t: nat | t < T && Slot(v, t) in h.acked ensures BallotKept(h, v, t, T, B') {
        assert BallotKept(h, v, t, T, B);
        forall k | 0 <= k <= h.acked[Slot(v, t)] ensures Kept(h.reigns, h.votes[Slot(v, T)].log, t, k, B') {
          assert Kept(h.reigns, h.votes[Slot(v, T)].log, t, k, B);
        }
      }
    }
  }

  /** Election safety: the term of a winning candidate has no leader yet. */
  lemma TermIsFree(h: History, n: NodeId, nd: Node)
    requires HistoryInv(h) && NodeInv(h, n, nd) && nd.role.Candidate? && HasQuorum(Cfg(h.boot, nd.log), nd.role.votes)
    ensures Term(nd) !in h.reigns
  {
    var T := Term(nd);
    CandidateElectable(h, n, nd);
    if T in h.reigns {
      var r := h.reigns[T];
      assert Elected(h, T, r);
      ElectableWeaker(h, T, T - 1, T, r.leader, r.log[..r.base], r.voters);
      OneLeaderPerTerm(h, T, n, nd.log, nd.role.votes, r.leader, r.log[..r.base], r.voters);
    }
  }

  function Crowned(n: NodeId, nd: Node): Reign
    requires nd.role.Candidate?
  {
    Reign(n, Longer(nd, Noop), |nd.log|, nd.role.votes)
  }

  lemma CrownReigns(h: History, n: NodeId, nd: Node)
    requires HistoryInv(h) && NodeInv(h, n, nd) && nd.role.Candidate? && Term(nd) !in h.reigns
    ensures Grows(h.reigns, h.reigns[Term(nd) := Crowned(n, nd)]) && InvReigns(h.reigns[Term(nd) := Crowned(n, nd)])
  {
    var r := Crowned(n, nd);
    assert r.log[..r.base] == nd.log;
    ReignsStep(h.reigns, Term(nd), r);
  }

  lemma CrownAdds(c: Cluster, n: NodeId, nd: Node, h': History)
    requires InvNodes(c) && InvKnown(c) && HistoryInv(c.h) && NodeInv(c.h, n, nd)
    requires nd.role.Candidate? && Term(nd) !in c.h.reigns
    requires h' == WithReign(c.h, Term(nd), Crowned(n, nd))
    ensures Extends(c.h, h') && AddedBy(c.h, h', n, Term(nd)) && InvReigns(h'.reigns) && Closed(c.h, h')
  {
    CrownReigns(c.h, n, nd);
    assert Slot(n, Term(nd)) !in c.h.acked;
    ClosedStep(c, h', n, Term(nd));
  }

  lemma CrownHistory(h: History, n: NodeId, nd: Node, h': History)
    requires HistoryInv(h) && NodeInv(h, n, nd) && nd.role.Candidate? && Term(nd) !in h.reigns
    requires HasQuorum(Cfg(h.boot, nd.log), nd.role.votes)
    requires h' == WithReign(h, Term(nd), Crowned(n, nd))
    requires Extends(h, h') && InvReigns(h'.reigns) && Closed(h, h')
    ensures HistoryInv(h')
  {
    var T, r := Term(nd), Crowned(n, nd);
    CandidateElectable(h, n, nd);
    ElectableWeaker(h, T, T, T - 1, n, nd.log, nd.role.votes);
    ElectableGrows(h, h', T, T - 1, n, nd.log, nd.role.votes);
    assert r.log[..r.base] == nd.log;
    assert Elected(h', T, r);
    HistoryGrows(h, h');
  }

  /** A leader that extends its own log keeps all it acknowledged, as itself and before. */
  lemma LongerKept(h: History, n: NodeId, nd: Node, h': History, nd': Node)
    requires InvReigns(h.reigns) && InvReigns(h'.reigns) && AckedOk(h, n, nd) && Extends(h, h')
    requires nd.log <= nd'.log && Term(nd) == Term(nd') && Term(nd) in h'.reigns && h'.reigns[Term(nd)].log == nd'.log
    requires forall t: nat ::
               Slot(n, t) in h'.acked && t != Term(nd) ==>
                   Slot(n, t) in h.acked && h'.acked[Slot(n, t)] == h.acked[Slot(n, t)]
    requires Slot(n, Term(nd)) in h'.acked && h'.acked[Slot(n, Term(nd))] <= |nd'.log|
    ensures AckedOk(h', n, nd')
  {
    var T := Term(nd);
    forall t: nat | Slot(n, t) in h'.acked ensures SlotKept(h', n, nd', t) {
      if t != T {
        assert SlotKept(h, n, nd, t);
        forall k | 0 <= k <= h'.acked[Slot(n, t)] ensures Kept(h'.reigns, nd'.log, t, k, T) {
          assert Kept(h.reigns, nd.log, t, k, T);
          KeptGrows(h.reigns, h'.reigns, nd.log, nd'.log, t, k, T, T);
        }
      }
    }
  }

  lemma CrownInv(h: History, n: NodeId, nd: Node, h': History)
    requires HistoryInv(h) && NodeInv(h, n, nd) && nd.role.Candidate? && Term(nd) !in h.reigns
    requires h' == WithReign(h, Term(nd), Crowned(n, nd)) && Extends(h, h') && InvReigns(h'.reigns)
    ensures NodeInv(h', n, nd.(log := Longer(nd, Noop), role := Leader(map[])))
  {
    var nd' := nd.(log := Longer(nd, Noop), role := Leader(map[]));
    LongerOk(h, nd, h', nd');
    LongerKept(h, n, nd, h', nd');
  }

  /** Extending the log to what its term was led with. */
  lemma LongerOk(h: History, nd: Node, h': History, nd': Node)
    requires NodeOk(h, nd) && InvReigns(h'.reigns) && Extends(h, h') && Term(nd) == Term(nd') && nd.snap == nd'.snap &&
             nd.commit == nd'.commit
    requires nd.log <= nd'.log && Term(nd) in h'.reigns && h'.reigns[Term(nd)].log == nd'.log &&
             TermsBelow(nd'.log, Term(nd))
    ensures NodeOk(h', nd')
  {
    assert nd'.log[..nd.commit] == nd.log[..nd.commit];
    CommittedGrows(h, h', nd.log[..nd.commit], Term(nd), Term(nd));
    assert LogOk(h'.reigns, h'.reigns[Term(nd)].log);
  }

  lemma BecomeLeaderKeeps(c: Cluster, n: NodeId)
    requires Inv(c) && n in c.nodes && c.nodes[n].role.Candidate?
    requires HasQuorum(Cfg(c.h.boot, c.nodes[n].log), c.nodes[n].role.votes)
    ensures Inv(DoBecomeLeader(c, n))
  {
    var c' := DoBecomeLeader(c, n);
    var nd := c.nodes[n];
    var nd' := nd.(log := Longer(nd, Noop), role := Leader(map[]));
    assert NodeInv(c.h, n, nd);
    TermIsFree(c.h, n, nd);
    CrownAdds(c, n, nd, c'.h);
    CrownHistory(c.h, n, nd, c'.h);
    CrownInv(c.h, n, nd, c'.h);
    SameMessages(c, c');
    CalmRequests(c, c', n, nd');
    HistoryStep(c, c', n, nd', Term(nd));
  }

  // ----- a leader appends -----

  /** What a leader may append: anything but a configuration, or a lawful next
      configuration once the current one is committed. */
  ghost predicate Lawful(boot: ClusterConfig, nd: Node, p: Payload) {
    p.Config? ==> IsChild(Cfg(boot, nd.log), p.config) && LastCfg(nd.log) <= nd.commit
  }

  lemma GrowReigns(h: History, n: NodeId, nd: Node, p: Payload)
    requires HistoryInv(h) && NodeInv(h, n, nd) && nd.role.Leader?
    ensures var r := h.reigns[Term(nd)].(log := Longer(nd, p));
            Grows(h.reigns, h.reigns[Term(nd) := r]) && InvReigns(h.reigns[Term(nd) := r])
  {
    var was := h.reigns[Term(nd)];
    var r := was.(log := Longer(nd, p));
    assert ReignShape(was, Term(nd));
    assert r.log[..r.base] == was.log[..r.base];
    PrefixLogOk(h, was.log, r.base);
    ReignsStep(h.reigns, Term(nd), r);
  }

  lemma NewConfigOk(h: History, h': History, nd: Node, p: Payload)
    requires InvCommits(h) && NodeOk(h, nd) && Term(nd) in h.reigns && nd.log == h.reigns[Term(nd)].log
    requires Lawful(h.boot, nd, p) && Extends(h, h')
    ensures ConfigOk(h', Term(nd), Longer(nd, p), |nd.log|)
  {
    assert Longer(nd, p)[..|nd.log|] == nd.log;
    if p.Config? && LastCfg(nd.log) > 0 {
      ParentCommitted(h, h', nd, LastCfg(nd.log));
      assert Longer(nd, p)[..LastCfg(nd.log)] == nd.log[..LastCfg(nd.log)];
    }
  }

  lemma ParentCommitted(h: History, h': History, nd: Node, l: nat)
    requires InvCommits(h) && NodeOk(h, nd) && Term(nd) in h.reigns && nd.log == h.reigns[Term(nd)].log
    requires 0 < l <= nd.commit && Extends(h, h')
    ensures CommittedBefore(h', nd.log[..l], Term(nd), |nd.log|)
  {
    CommittedPrefix(h, nd.log[..nd.commit], l, Term(nd));
    assert nd.log[..nd.commit][..l] == nd.log[..l];
    var r: CommitRec :| Covers(h, r, nd.log[..l]) && r.term <= Term(nd);
    assert RecOk(h, r);
    CoversGrows(h, h', r, nd.log[..l]);
  }

  lemma AppendExtends(h: History, n: NodeId, nd: Node, p: Payload, h': History)
    requires HistoryInv(h) && NodeInv(h, n, nd) && nd.role.Leader?
    requires Term(nd) in h.reigns && h' == WithReign(h, Term(nd), h.reigns[Term(nd)].(log := Longer(nd, p)))
    ensures Extends(h, h') && InvReigns(h'.reigns)
  {
    GrowReigns(h, n, nd, p);
  }

  lemma AppendAdds(h: History, n: NodeId, nd: Node, p: Payload, h': History)
    requires NodeInv(h, n, nd) && nd.role.Leader?
    requires Term(nd) in h.reigns && h' == WithReign(h, Term(nd), h.reigns[Term(nd)].(log := Longer(nd, p)))
    ensures AddedBy(h, h', n, Term(nd))
  {
  }

  lemma AppendHistory(h: History, n: NodeId, nd: Node, p: Payload, h': History)
    requires HistoryInv(h) && NodeInv(h, n, nd) && nd.role.Leader? && Lawful(h.boot, nd, p)
    requires Term(nd) in h.reigns && h' == WithReign(h, Term(nd), h.reigns[Term(nd)].(log := Longer(nd, p)))
    requires Extends(h, h') && InvReigns(h'.reigns) && Closed(h, h')
    ensures HistoryInv(h')
  {
    NewConfigOk(h, h', nd, p);
    LongerHistory(h, h', Term(nd), Longer(nd, p));
  }

  lemma LongerHistory(h: History, h': History, t: nat, log: Log)
    requires HistoryInv(h) && Extends(h, h') && InvReigns(h'.reigns) && Closed(h, h')
    requires t in h.reigns && h' == WithReign(h, t, h.reigns[t].(log := log)) && |log| == |h.reigns[t].log| + 1
    requires ConfigOk(h', t, log, |h.reigns[t].log|)
    ensures HistoryInv(h')
  {
    OnlyLonger(h, h', t, log);
    HistoryGrows(h, h');
  }

  lemma OnlyLonger(h: History, h': History, t: nat, log: Log)
    requires t in h.reigns && h' == WithReign(h, t, h.reigns[t].(log := log)) && |log| == |h.reigns[t].log| + 1
    requires ConfigOk(h', t, log, |h.reigns[t].log|)
    ensures forall t', j :: (t' in h'.reigns && (t' !in h.reigns || |h.reigns[t'].log| <= j)
                             && h'.reigns[t'].base <= j < |h'.reigns[t'].log|) ==>
                                  ConfigOk(h', t', h'.reigns[t'].log, j)
  {
  }

  lemma AppendInv(h: History, n: NodeId, nd: Node, p: Payload, h': History)
    requires InvReigns(h.reigns) && NodeInv(h, n, nd) && nd.role.Leader? && Term(nd) in h.reigns
    requires h' == WithReign(h, Term(nd), h.reigns[Term(nd)].(log := Longer(nd, p))) && Extends(h, h') &&
             InvReigns(h'.reigns)
    ensures NodeInv(h', n, nd.(log := Longer(nd, p)))
  {
    var nd' := nd.(log := Longer(nd, p));
    LongerOk(h, nd, h', nd');
    LongerKept(h, n, nd, h', nd');
    LongerLeads(h, n, nd, p, h');
  }

  lemma LongerLeads(h: History, n: NodeId, nd: Node, p: Payload, h': History)
    requires LeaderOk(h, n, nd) && nd.role.Leader? &&
             h' == WithReign(h, Term(nd), h.reigns[Term(nd)].(log := Longer(nd, p))) && Extends(h, h')
    ensures LeaderOk(h', n, nd.(log := Longer(nd, p)))
  {
    forall q | q in nd.role.matched && nd.role.matched[q] > nd.commit
      ensures AckedTo(h', q, Term(nd), nd.role.matched[q])
    {
      assert AckedTo(h, q, Term(nd), nd.role.matched[q]);
    }
  }

  lemma LeaderAppendKeeps(c: Cluster, n: NodeId, p: Payload)
    requires Inv(c) && Leads(c, n) && Lawful(c.h.boot, c.nodes[n], p)
    ensures Inv(LeaderAppend(c, n, p))
  {
    var c' := LeaderAppend(c, n, p);
    var nd := c.nodes[n];
    var nd' := nd.(log := Longer(nd, p));
    assert NodeInv(c.h, n, nd);
    AppendExtends(c.h, n, nd, p, c'.h);
    AppendAdds(c.h, n, nd, p, c'.h);
    ClosedStep(c, c'.h, n, Term(nd));
    AppendHistory(c.h, n, nd, p, c'.h);
    AppendInv(c.h, n, nd, p, c'.h);
    SameMessages(c, c');
    CalmRequests(c, c', n, nd');
    HistoryStep(c, c', n, nd', Term(nd));
  }

  // ----- committing -----

  lemma NewRecOk(h: History, n: NodeId, nd: Node, k: nat)
    requires HistoryInv(h) && NodeInv(h, n, nd) && nd.role.Leader?
    requires nd.commit < k <= |nd.log| && nd.log[k - 1].term == Term(nd)
    requires HasQuorum(Cfg(h.boot, nd.log), AckSet(n, nd.role.matched, k))
    ensures RecOk(h, CommitRec(Term(nd), k, |nd.log|, AckSet(n, nd.role.matched, k)))
  {
    assert ReignShape(h.reigns[Term(nd)], Term(nd));
    assert nd.log[..|nd.log|] == nd.log;
    forall v | v in AckSet(n, nd.role.matched, k) ensures AckedTo(h, v, Term(nd), k) {
      if v != n {
        assert v in nd.role.matched;
      }
    }
  }

  lemma CommitAdds(h: History, n: NodeId, nd: Node, r: CommitRec, h': History)
    requires VotesOk(h, n, nd) && LeaderOk(h, n, nd) && nd.role.Leader? && r.term == Term(nd)
    requires h' == h.(commits := h.commits + {r})
    ensures AddedBy(h, h', n, Term(nd))
  {
  }

  lemma CommitHistory(h: History, r: CommitRec, h': History)
    requires HistoryInv(h) && RecOk(h, r) && h' == h.(commits := h.commits + {r}) && Closed(h, h')
    ensures Extends(h, h') && HistoryInv(h')
  {
    RecOkGrows(h, h', r);
    HistoryGrows(h, h');
  }

  lemma CommitInv(h: History, n: NodeId, nd: Node, r: CommitRec, h': History)
    requires InvReigns(h.reigns) && NodeInv(h, n, nd) && nd.role.Leader? && r.term == Term(nd)
    requires nd.commit < r.index <= |nd.log| && h' == h.(commits := h.commits + {r})
    ensures NodeInv(h', n, nd.(commit := r.index))
  {
    var nd' := nd.(commit := r.index);
    assert Extends(h, h');
    assert Covers(h', r, nd'.log[..r.index]) by {
      assert nd'.log[..r.index][..r.index] == nd'.log[..r.index];
    }
    KeptLater(h, n, nd, nd');
    forall t: nat | Slot(n, t) in h'.acked ensures SlotKept(h', n, nd', t) {
      assert SlotKept(h, n, nd', t);
    }
    forall q | q in nd.role.matched && nd.role.matched[q] > nd'.commit
      ensures AckedTo(h', q, Term(nd), nd.role.matched[q])
    {
      assert AckedTo(h, q, Term(nd), nd.role.matched[q]);
    }
  }

  lemma AdvanceKeeps(c: Cluster, n: NodeId)
    requires Inv(c) && Leads(c, n)
    ensures Inv(DoAdvanceCommit(c, n))
  {
    var nd := c.nodes[n];
    var k := FindCommit(c.h.boot, n, nd, |nd.log|);
    assert NodeInv(c.h, n, nd);
    if k != nd.commit {
      NewRecOk(c.h, n, nd, k);
      AdvanceTo(c, n, CommitRec(Term(nd), k, |nd.log|, AckSet(n, nd.role.matched, k)));
    }
  }

  lemma AdvanceTo(c: Cluster, n: NodeId, r: CommitRec)
    requires Inv(c) && Leads(c, n) && RecOk(c.h, r) && r.term == Term(c.nodes[n])
    requires c.nodes[n].commit < r.index <= |c.nodes[n].log|
    ensures Inv(SetNode(c, n, c.nodes[n].(commit := r.index)).(h := c.h.(commits := c.h.commits + {r})))
  {
    var nd := c.nodes[n];
    var c' := SetNode(c, n, nd.(commit := r.index)).(h := c.h.(commits := c.h.commits + {r}));
    assert NodeInv(c.h, n, nd);
    CommitAdds(c.h, n, nd, r, c'.h);
    ClosedStep(c, c'.h, n, Term(nd));
    CommitHistory(c.h, r, c'.h);
    CommitInv(c.h, n, nd, r, c'.h);
    SameMessages(c, c');
    CalmRequests(c, c', n, nd.(commit := r.index));
    HistoryStep(c, c', n, nd.(commit := r.index), Term(nd));
  }

  // ----- every step -----

  lemma InitHolds(c: Cluster)
    requires Init(c)
    ensures Inv(c)
  {
    forall n | n in c.nodes ensures NodeInv(c.h, n, c.nodes[n]) {
    }
  }

  lemma ConfigPayloadsLawful(boot: ClusterConfig, nd: Node, newVoters: set<NodeId>, learner: NodeId)
    requires LastCfg(nd.log) <= nd.commit
    ensures !IsJoint(Cfg(boot, nd.log)) ==> Lawful(boot, nd, Config(JointConfig(Cfg(boot, nd.log), newVoters)))
    ensures !IsJoint(Cfg(boot, nd.log)) ==> Lawful(boot, nd, Config(WithLearner(Cfg(boot, nd.log), learner)))
    ensures IsJoint(Cfg(boot, nd.log)) ==> Lawful(boot, nd, Config(FinalConfig(Cfg(boot, nd.log))))
  {
  }

  lemma StepKeeps(c: Cluster, s: Step)
    requires Inv(c) && Enabled(c, s)
    ensures Inv(Apply(c, s))
  {
    match s
    case StartElection(n) => StartElectionKeeps(c, n);
    case HandleVoteRequest(n, req) => HandleVoteRequestKeeps(c, n, req);
    case HandleVoteGrant(n, grant) => VoteGrantKeeps(c, n, grant);
    case BecomeLeader(n) => BecomeLeaderKeeps(c, n);
    case Propose(n, data) => LeaderAppendKeeps(c, n, Command(data));
    case ProposeConfChange(n, newVoters) =>
      ConfigPayloadsLawful(c.h.boot, c.nodes[n], newVoters, n);
      LeaderAppendKeeps(c, n, Config(JointConfig(Cfg(c.h.boot, c.nodes[n].log), newVoters)));
    case ProposeAddLearner(n, learner) =>
      ConfigPayloadsLawful(c.h.boot, c.nodes[n], {}, learner);
      LeaderAppendKeeps(c, n, Config(WithLearner(Cfg(c.h.boot, c.nodes[n].log), learner)));
    case FinishJoint(n) =>
      ConfigPayloadsLawful(c.h.boot, c.nodes[n], {}, n);
      LeaderAppendKeeps(c, n, Config(FinalConfig(Cfg(c.h.boot, c.nodes[n].log))));
    case SendAppend(n, next) => SendAppendKeeps(c, n, next);
    case SendInstall(n) => SendInstallKeeps(c, n);
    case HandleAppend(n, app) => HandleAppendKeeps(c, n, app);
    case TruncateOnly(n, app) => TruncateKeeps(c, n, app);
    case HandleAck(n, ack) => AckKeeps(c, n, ack);
    case HandleInstall(n, inst) => HandleInstallKeeps(c, n, inst);
    case HandleInstallReply(n, from) => InstallReplyKeeps(c, n, from);
    case ForgetPeer(n, peer) => ForgetKeeps(c, n, peer);
    case AdvanceCommit(n) => AdvanceKeeps(c, n);
    case Retire(n) => RetireKeeps(c, n);
    case ObserveReply(n, term) => ObserveKeeps(c, n, term);
    case Compact(n) => CompactKeeps(c, n);
    case Restart(n) => RestartKeeps(c, n);
  }
}

/** A cluster of Raft nodes as a state machine over the handlers of
    crates/brokkr-raft/src/node.rs.

    Every step below is one handler, or one self-contained block of a handler,
    run on one node.  Messages are kept in ever-growing sets, so a run may
    delay, reorder, duplicate or drop any of them.  The history `h` records what
    has happened; beyond the bootstrap configuration no handler reads it. */
module RaftCluster {
  import opened Common
  import opened Quorum

  datatype Payload = Command(data: Bytes) | Noop | Config(config: ClusterConfig)

  datatype Entry = Entry(term: nat, payload: Payload)

  /** A log from index 1; the entry with index `i` is `log[i - 1]`. */
  type Log = seq<Entry>

  datatype Role = Follower | Candidate(votes: set<NodeId>) | Leader(matched: map<NodeId, nat>)

  /** One node.  `log` is the logical log; its first `snap` entries live only in
      the snapshot, and handlers read the log through `Get` and `TermAt`. */
  datatype Node = Node(hard: HardState, log: Log, snap: nat, commit: nat, role: Role)

  datatype VoteRequest = VoteRequest(term: nat, cand: NodeId, lastIndex: nat, lastTerm: nat)
  datatype VoteGrant = VoteGrant(term: nat, from: NodeId, to: NodeId)
  datatype Append = Append(term: nat, leader: NodeId, prev: nat, prevTerm: nat, entries: Log, leaderCommit: nat)
  datatype AppendAck = AppendAck(term: nat, from: NodeId, matchIndex: nat)

  /** The opaque snapshot blob is represented by the log prefix it replaces. */
  datatype Install = Install(term: nat, leader: NodeId, lastIndex: nat, lastTerm: nat, prefix: Log)

  /** History: who led a term, the log they led with, its length when elected, and who elected them. */
  datatype Reign = Reign(leader: NodeId, log: Log, base: nat, voters: set<NodeId>)

  /** History: a vote and the voter's log when it was cast. */
  datatype Ballot = Ballot(cand: NodeId, log: Log)

  datatype Slot = Slot(node: NodeId, term: nat)

  /** History: the leader of `term` advanced its commit index to `index` when
      its log had `logLen` entries, counting `quorum`. */
  datatype CommitRec = CommitRec(term: nat, index: nat, logLen: nat, quorum: set<NodeId>)

  type Reigns = map<nat, Reign>

  /** What has happened so far; only `boot`, the bootstrap configuration, is read by handlers. */
  datatype History = History(
    boot: ClusterConfig,
    reigns: Reigns,
    votes: map<Slot, Ballot>,
    acked: map<Slot, nat>,
    commits: set<CommitRec>)

  datatype Cluster = Cluster(
    nodes: map<NodeId, Node>,
    requests: set<VoteRequest>,
    grants: set<VoteGrant>,
    appends: set<Append>,
    acks: set<AppendAck>,
    installs: set<Install>,
    h: History)

  // ----- reading a node -----

  function Term(nd: Node): nat { nd.hard.currentTerm }

  function LastTerm(log: Log): nat { if log == [] then 0 else log[|log| - 1].term }

  /** RaftLog::get on the compacted store. */
  function Get(nd: Node, index: nat): Option<Entry> {
    if nd.snap < index <= |nd.log| then Some(nd.log[index - 1]) else None
  }

  function TermAt(nd: Node, index: nat): Option<nat> {
    if Get(nd, index).Some? then Some(Get(nd, index).value.term)
    else if 0 < nd.snap == index <= |nd.log| then Some(nd.log[index - 1].term)
    else None
  }

  /** The latest configuration entry's index, 0 when the log holds none. */
  function LastCfg(log: Log): (i: nat)
    ensures i <= |log|
    ensures i > 0 ==> log[i - 1].payload.Config?
  {
    if log == [] then 0
    else if log[|log| - 1].payload.Config? then |log|
    else LastCfg(log[..|log| - 1])
  }

  /** The configuration in force: the latest in the log, committed or not. */
  function Cfg(boot: ClusterConfig, log: Log): ClusterConfig {
    if LastCfg(log) == 0 then boot else log[LastCfg(log) - 1].payload.config
  }

  predicate IsVoter(c: ClusterConfig, n: NodeId) {
    n in c.voters || (c.oldVoters.Some? && n in c.oldVoters.value)
  }

  /** The election restriction: last `(term, index)` compared lexicographically. */
  predicate UpToDate(lastTerm: nat, lastIndex: nat, ourTerm: nat, ourIndex: nat) {
    lastTerm > ourTerm || (lastTerm == ourTerm && lastIndex >= ourIndex)
  }

  predicate LogMatches(nd: Node, prev: nat, prevTerm: nat) {
    prev == 0 || prev < nd.snap || TermAt(nd, prev) == Some(prevTerm)
  }

  /** The receiver loop: keep what is already held with the same term, and on
      the first conflict truncate and append the rest. */
  function AppendNew(nd: Node, prev: nat, entries: Log, i: nat): Log
    requires i <= |entries|
    decreases |entries| - i
  {
    if i == |entries| then nd.log
    else
      var index := prev + i + 1;
      if index <= nd.snap then AppendNew(nd, prev, entries, i + 1)
      else match Get(nd, index)
        case Some(e) =>
          if e.term == entries[i].term then AppendNew(nd, prev, entries, i + 1)
          else nd.log[..index - 1] + entries[i..]
        case None => nd.log + entries[i..]
  }

  /** The first index at which the receiver holds an entry of another term. */
  function Conflict(nd: Node, prev: nat, entries: Log, i: nat): (r: Option<nat>)
    requires i <= |entries|
    ensures r.Some? ==> nd.snap < r.value <= |nd.log|
    decreases |entries| - i
  {
    if i == |entries| then None
    else
      var index := prev + i + 1;
      if index <= nd.snap then Conflict(nd, prev, entries, i + 1)
      else match Get(nd, index)
        case Some(e) => if e.term == entries[i].term then Conflict(nd, prev, entries, i + 1) else Some(index)
        case None => None
  }

  /** The acknowledgements a leader counts for index `k`: its peers' and its own. */
  function AckSet(n: NodeId, matched: map<NodeId, nat>, k: nat): set<NodeId> {
    (set p | p in matched && matched[p] >= k) + {n}
  }

  /** The commit rule: the largest index above the commit index that a quorum
      holds and that carries the leader's own term. */
  function FindCommit(boot: ClusterConfig, n: NodeId, nd: Node, k: nat): (r: nat)
    requires nd.role.Leader? && k <= |nd.log|
    ensures r == nd.commit || (nd.commit < r <= k && nd.snap < r && nd.log[r - 1].term == Term(nd)
                               && HasQuorum(Cfg(boot, nd.log), AckSet(n, nd.role.matched, r)))
    ensures forall j :: r < j <= k && nd.snap < j && nd.log[j - 1].term == Term(nd)
              ==> !HasQuorum(Cfg(boot, nd.log), AckSet(n, nd.role.matched, j))
    decreases k
  {
    if k <= nd.commit then
      nd.commit
    else if HasQuorum(Cfg(boot, nd.log), AckSet(n, nd.role.matched, k))
            && Get(nd, k).Some? && Get(nd, k).value.term == Term(nd) then
      k
    else FindCommit(boot, n, nd, k - 1)
  }

  // ----- node-local transitions -----

  /** The universal rule: adopt a higher term, drop the vote, become a follower. */
  function ObserveTerm(nd: Node, term: nat): Node {
    if term > Term(nd) then nd.(hard := SteppedTo(nd.hard, term), role := Follower) else nd
  }

  function RecordMatch(matched: map<NodeId, nat>, p: NodeId, index: nat): map<NodeId, nat> {
    matched[p := if p in matched && matched[p] > index then matched[p] else index]
  }

  // ----- steps -----

  datatype Step =
    | StartElection(n: NodeId)
    | HandleVoteRequest(n: NodeId, req: VoteRequest)
    | HandleVoteGrant(n: NodeId, grant: VoteGrant)
    | BecomeLeader(n: NodeId)
    | Propose(n: NodeId, data: Bytes)
    | ProposeConfChange(n: NodeId, newVoters: set<NodeId>)
    | ProposeAddLearner(n: NodeId, learner: NodeId)
    | FinishJoint(n: NodeId)
    | SendAppend(n: NodeId, next: nat)
    | SendInstall(n: NodeId)
    | HandleAppend(n: NodeId, app: Append)
    | TruncateOnly(n: NodeId, app: Append)
    | HandleAck(n: NodeId, ack: AppendAck)
    | HandleInstall(n: NodeId, inst: Install)
    | HandleInstallReply(n: NodeId, from: NodeId)
    | ForgetPeer(n: NodeId, peer: NodeId)
    | AdvanceCommit(n: NodeId)
    | Retire(n: NodeId)
    | ObserveReply(n: NodeId, term: nat)
    | Compact(n: NodeId)
    | Restart(n: NodeId)

  predicate Leads(c: Cluster, n: NodeId) { n in c.nodes && c.nodes[n].role.Leader? }

  /** One change at a time: the latest configuration must already be committed. */
  predicate MayReconfigure(c: Cluster, n: NodeId) {
    Leads(c, n) && LastCfg(c.nodes[n].log) <= c.nodes[n].commit
  }

  predicate Enabled(c: Cluster, s: Step) {
    s.n in c.nodes &&
    var nd := c.nodes[s.n];
    var active := Cfg(c.h.boot, nd.log);
    match s
    case StartElection(n) => !nd.role.Leader? && IsVoter(active, n)
    case HandleVoteRequest(n, req) => req in c.requests
    case HandleVoteGrant(n, grant) => grant in c.grants && grant.to == n
    case BecomeLeader(n) => nd.role.Candidate? && HasQuorum(active, nd.role.votes)
    case Propose(n, data) => nd.role.Leader?
    case ProposeConfChange(n, newVoters) =>
      MayReconfigure(c, n) && !IsJoint(active) && newVoters != {} && newVoters != active.voters
    case ProposeAddLearner(n, learner) =>
      MayReconfigure(c, n) && !IsJoint(active) && learner !in active.voters && learner !in active.learners
    case FinishJoint(n) => MayReconfigure(c, n) && IsJoint(active)
    case SendAppend(n, next) => nd.role.Leader? && nd.snap < next <= |nd.log| + 1
    case SendInstall(n) => nd.role.Leader? && 0 < nd.snap <= |nd.log|
    case HandleAppend(n, app) => app in c.appends
    case TruncateOnly(n, app) => app in c.appends && CutAt(nd, app).Some?
    case HandleAck(n, ack) => ack in c.acks
    case HandleInstall(n, inst) => inst in c.installs
    case HandleInstallReply(n, from) => nd.role.Leader? && nd.snap > 0
    case ForgetPeer(n, peer) => nd.role.Leader?
    case AdvanceCommit(n) => nd.role.Leader?
    case Retire(n) => MayReconfigure(c, n) && !IsJoint(active) && n !in active.voters
    case ObserveReply(n, term) => true
    case Compact(n) => nd.snap < nd.commit
    case Restart(n) => true
  }

  function Apply(c: Cluster, s: Step): Cluster
    requires Enabled(c, s)
  {
    match s
    case StartElection(n) => DoStartElection(c, n)
    case HandleVoteRequest(n, req) => DoHandleVoteRequest(c, n, req)
    case HandleVoteGrant(n, grant) => DoHandleVoteGrant(c, n, grant)
    case BecomeLeader(n) => DoBecomeLeader(c, n)
    case Propose(n, data) => LeaderAppend(c, n, Command(data))
    case ProposeConfChange(n, newVoters) => LeaderAppend(c, n,
      Config(JointConfig(Cfg(c.h.boot, c.nodes[n].log), newVoters)))
    case ProposeAddLearner(n, learner) => LeaderAppend(c, n,
      Config(WithLearner(Cfg(c.h.boot, c.nodes[n].log), learner)))
    case FinishJoint(n) => LeaderAppend(c, n, Config(FinalConfig(Cfg(c.h.boot, c.nodes[n].log))))
    case SendAppend(n, next) => c.(appends := c.appends + {AppendFor(n, c.nodes[n], next)})
    case SendInstall(n) => c.(installs := c.installs + {InstallFor(n, c.nodes[n])})
    case HandleAppend(n, app) => DoHandleAppend(c, n, app)
    case TruncateOnly(n, app) => SetNode(c, n, Cut(c.nodes[n], app))
    case HandleAck(n, ack) => DoHandleAck(c, n, ack)
    case HandleInstall(n, inst) => DoHandleInstall(c, n, inst)
    case HandleInstallReply(n, from) => DoHandleInstallReply(c, n, from)
    case ForgetPeer(n, peer) => SetNode(c, n, c.nodes[n].(role := Leader(c.nodes[n].role.matched - {peer})))
    case AdvanceCommit(n) => DoAdvanceCommit(c, n)
    case Retire(n) => SetNode(c, n, c.nodes[n].(role := Follower))
    case ObserveReply(n, term) => SetNode(c, n, ObserveTerm(c.nodes[n], term))
    case Compact(n) => SetNode(c, n, c.nodes[n].(snap := c.nodes[n].commit))
    case Restart(n) => SetNode(c, n, c.nodes[n].(role := Follower, commit := c.nodes[n].snap))
  }

  function SetNode(c: Cluster, n: NodeId, nd: Node): Cluster { c.(nodes := c.nodes[n := nd]) }

  function NextTerm(nd: Node): nat { Term(nd) + 1 }

  /** Advance the term, vote for oneself, ask the others. */
  function Campaign(n: NodeId, nd: Node): Node {
    nd.(hard := VotingFor(SteppedTo(nd.hard, NextTerm(nd)), n), role := Candidate({n}))
  }

  function DoStartElection(c: Cluster, n: NodeId): Cluster
    requires n in c.nodes
  {
    var nd := c.nodes[n];
    SetNode(c, n, Campaign(n, nd)).(
    requests := c.requests + {VoteRequest(NextTerm(nd), n, |nd.log|, LastTerm(nd.log))},
    h := WithVote(c.h, Slot(n, NextTerm(nd)), Ballot(n, nd.log)))
  }

  /** History: the first ballot cast in a slot. */
  function WithVote(h: History, slot: Slot, b: Ballot): History {
    if slot in h.votes then h else h.(votes := h.votes[slot := b])
  }

  /** A serving leader disregards the request; a follower that still hears a
      leader does so too, which a run expresses by not taking the step. */
  function DoHandleVoteRequest(c: Cluster, n: NodeId, req: VoteRequest): Cluster
    requires n in c.nodes
  {
    var nd := c.nodes[n];
    if nd.role.Leader? then c
    else
      var nd1 := ObserveTerm(nd, req.term);
      var free := nd1.hard.votedFor == None || nd1.hard.votedFor == Some(req.cand);
      if req.term == Term(nd1) && free && UpToDate(req.lastTerm, req.lastIndex, LastTerm(nd1.log), |nd1.log|) then
        DoGrant(c, n, nd1, req)
      else SetNode(c, n, nd1)
  }

  function DoGrant(c: Cluster, n: NodeId, nd: Node, req: VoteRequest): Cluster {
    SetNode(c, n, nd.(hard := VotingFor(nd.hard, req.cand))).(
    grants := c.grants + {VoteGrant(req.term, n, req.cand)},
    h := WithVote(c.h, Slot(n, req.term), Ballot(req.cand, nd.log)))
  }

  function DoHandleVoteGrant(c: Cluster, n: NodeId, g: VoteGrant): Cluster
    requires n in c.nodes
  {
    var nd := ObserveTerm(c.nodes[n], g.term);
    if g.term == Term(nd) && nd.role.Candidate? then
      SetNode(c, n, nd.(role := Candidate(nd.role.votes + {g.from})))
    else SetNode(c, n, nd)
  }

  /** A leader's log with one more entry of its own term. */
  function Longer(nd: Node, p: Payload): Log { nd.log + [Entry(Term(nd), p)] }

  /** History: the log term `t` is led with, acknowledged in full by the leader itself. */
  function WithReign(h: History, t: nat, r: Reign): History {
    WithAck(h.(reigns := h.reigns[t := r]), Slot(r.leader, t), |r.log|)
  }

  /** The new leader's first act is the start-of-term no-op. */
  function DoBecomeLeader(c: Cluster, n: NodeId): Cluster
    requires n in c.nodes && c.nodes[n].role.Candidate?
  {
    var nd := c.nodes[n];
    SetNode(c, n, nd.(log := Longer(nd, Noop), role := Leader(map[]))).(
    h := WithReign(c.h, Term(nd), Reign(n, Longer(nd, Noop), |nd.log|, nd.role.votes)))
  }

  function LeaderAppend(c: Cluster, n: NodeId, p: Payload): Cluster
    requires n in c.nodes
  {
    var nd := c.nodes[n];
    SetNode(c, n, nd.(log := Longer(nd, p))).(
    h := if Term(nd) in c.h.reigns then WithReign(c.h, Term(nd), c.h.reigns[Term(nd)].(log := Longer(nd, p))) else c.h)
  }

  function JointConfig(active: ClusterConfig, newVoters: set<NodeId>): ClusterConfig {
    ClusterConfig(newVoters, Some(active.voters), set l | l in active.learners && l !in newVoters)
  }

  function WithLearner(active: ClusterConfig, learner: NodeId): ClusterConfig {
    active.(learners := active.learners + {learner})
  }

  function FinalConfig(active: ClusterConfig): ClusterConfig { active.(oldVoters := None) }

  /** An AppendEntries request always carries the whole suffix from `next`. */
  function AppendFor(n: NodeId, nd: Node, next: nat): Append
    requires 0 < next <= |nd.log| + 1
  {
    var prev := next - 1;
    var prevTerm := if prev == 0 || TermAt(nd, prev) == None then 0 else TermAt(nd, prev).value;
    Append(Term(nd), n, prev, prevTerm, nd.log[prev..], nd.commit)
  }

  function InstallFor(n: NodeId, nd: Node): Install
    requires 0 < nd.snap <= |nd.log|
  {
    Install(Term(nd), n, nd.snap, nd.log[nd.snap - 1].term, nd.log[..nd.snap])
  }

  /** The highest index a request covers: what its success acknowledges. */
  function Reach(m: Append): nat { m.prev + |m.entries| }

  /** A follower in the leader's term, past the consistency check, takes the entries in. */
  function Accept(nd: Node, m: Append): Node {
    nd.(log := AppendNew(nd, m.prev, m.entries, 0),
    commit := if m.leaderCommit > nd.commit then Min(m.leaderCommit, Reach(m)) else nd.commit)
  }

  /** Where handling `m` truncates the log, if it does. */
  function CutAt(nd: Node, m: Append): (r: Option<nat>)
    ensures r.Some? ==> nd.snap < r.value <= |nd.log|
  {
    var nd2 := ObserveTerm(nd, m.term).(role := Follower);
    if m.term < Term(nd2) || !LogMatches(nd2, m.prev, m.prevTerm) then None else Conflict(nd2, m.prev, m.entries, 0)
  }

  /** The handler stopped after truncating and before appending, two transactions of the store. */
  function Cut(nd: Node, m: Append): Node
    requires CutAt(nd, m).Some?
  {
    ObserveTerm(nd, m.term).(role := Follower, log := nd.log[..CutAt(nd, m).value - 1])
  }

  function DoHandleAppend(c: Cluster, n: NodeId, m: Append): Cluster
    requires n in c.nodes
  {
    var nd1 := ObserveTerm(c.nodes[n], m.term);
    if m.term < Term(nd1) then SetNode(c, n, nd1)
    else
      var nd2 := nd1.(role := Follower);
      if !LogMatches(nd2, m.prev, m.prevTerm) then SetNode(c, n, nd2)
      else DoAccept(c, n, nd2, m)
  }

  function DoAccept(c: Cluster, n: NodeId, nd: Node, m: Append): Cluster {
    SetNode(c, n, Accept(nd, m)).(
    acks := c.acks + {AppendAck(m.term, n, Reach(m))},
    h := WithAck(c.h, Slot(n, m.term), Reach(m)))
  }

  /** History: `slot` has acknowledged at least `index`. */
  function WithAck(h: History, slot: Slot, index: nat): History {
    h.(acked := h.acked[slot := if slot in h.acked && h.acked[slot] > index then h.acked[slot] else index])
  }

  function DoHandleAck(c: Cluster, n: NodeId, a: AppendAck): Cluster
    requires n in c.nodes
  {
    var nd := ObserveTerm(c.nodes[n], a.term);
    if a.term == Term(nd) && nd.role.Leader? then
      SetNode(c, n, nd.(role := Leader(RecordMatch(nd.role.matched, a.from, a.matchIndex))))
    else SetNode(c, n, nd)
  }

  /** Adopting a snapshot keeps the tail when our log holds its last entry, and discards the log otherwise. */
  function Adopt(nd: Node, m: Install): Node {
    var held := Get(nd, m.lastIndex);
    nd.(log := if held.Some? && held.value.term == m.lastTerm then m.prefix + nd.log[m.lastIndex..] else m.prefix,
    snap := m.lastIndex, commit := m.lastIndex)
  }

  function Installed(nd: Node, m: Install): Node {
    var nd1 := ObserveTerm(nd, m.term);
    if m.term < Term(nd1) then nd1
    else
      var nd2 := nd1.(role := Follower);
      if m.lastIndex <= nd2.snap || m.lastIndex <= nd2.commit then nd2 else Adopt(nd2, m)
  }

  function DoHandleInstall(c: Cluster, n: NodeId, m: Install): Cluster
    requires n in c.nodes
  {
    SetNode(c, n, Installed(c.nodes[n], m))
  }

  /** The reply names no index: the leader credits its own current snapshot index. */
  function DoHandleInstallReply(c: Cluster, n: NodeId, from: NodeId): Cluster
    requires n in c.nodes && c.nodes[n].role.Leader?
  {
    var nd := c.nodes[n];
    SetNode(c, n, nd.(role := Leader(RecordMatch(nd.role.matched, from, nd.snap))))
  }

  function DoAdvanceCommit(c: Cluster, n: NodeId): Cluster
    requires Leads(c, n)
  {
    var nd := c.nodes[n];
    var k := FindCommit(c.h.boot, n, nd, |nd.log|);
    if k == nd.commit then c
    else
      SetNode(c, n, nd.(commit := k)).(
      h := c.h.(commits := c.h.commits + {CommitRec(Term(nd), k, |nd.log|, AckSet(n, nd.role.matched, k))}))
  }

  // ----- runs -----

  const FreshNode := Node(FreshHardState, [], 0, 0, Follower)

  ghost predicate Init(c: Cluster) {
    && (forall n :: n in c.nodes ==> c.nodes[n] == FreshNode)
    && c.requests == {} && c.grants == {} && c.appends == {} && c.acks == {} && c.installs == {}
    && c.h.reigns == map[] && c.h.votes == map[] && c.h.acked == map[] && c.h.commits == {}
  }

  ghost predicate Next(c: Cluster, s: Step, c': Cluster) { Enabled(c, s) && c' == Apply(c, s) }

  /** `run` is a run: it starts in an initial state and every step is enabled. */
  ghost predicate IsRun(run: seq<Cluster>, steps: seq<Step>) {
    && |run| == |steps| + 1
    && Init(run[0])
    && forall i :: 0 <= i < |steps| ==> Next(run[i], steps[i], run[i + 1])
  }
}

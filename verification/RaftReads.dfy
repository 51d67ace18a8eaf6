/** Linearizable reads (the ReadIndex protocol of crates/brokkr-raft/src/node.rs)
    on top of the cluster: sequence stamps on a leader's requests, their answers,
    and reads waiting for a quorum of answers sent after they were registered. */
module RaftReads {
  import opened Common
  import opened Quorum
  import opened RaftCluster
  import opened RaftInvariant
  import opened RaftCompleteness
  import opened RaftMonotone
  import opened RaftSteps
  import opened RaftSafety

  /** The sequence number of one AppendEntries request. */
  datatype Stamp = Stamp(leader: NodeId, term: nat, number: nat)

  /** A reply in the leader's own term, whether or not the logs matched. */
  datatype Answer = Answer(from: NodeId, stamp: Stamp)

  datatype ReadKey = ReadKey(leader: NodeId, term: nat, id: nat)

  /** `known` is the history at registration; no handler reads it. */
  datatype PendingRead = PendingRead(index: nat, confirmSeq: nat, acks: set<NodeId>, known: History)

  datatype Reading = Reading(c: Cluster, seqs: map<Slot, nat>, stamps: set<Stamp>, answers: set<Answer>,
      pending: map<ReadKey, PendingRead>)

  datatype ReadStep =
    | Base(s: Step)
    | SendStamped(n: NodeId)
    | AnswerStamp(q: NodeId, stamp: Stamp)
    | StartRead(n: NodeId, id: nat)
    | CountAnswer(n: NodeId, answer: Answer)

  function SeqOf(s: Reading, slot: Slot): nat { if slot in s.seqs then s.seqs[slot] else 0 }

  /** Where a leader's own entries start: the index of its start-of-term no-op. */
  function TermStart(log: Log, t: nat): nat {
    if log == [] || log[|log| - 1].term < t then |log| + 1 else TermStart(log[..|log| - 1], t)
  }

  function KeyOf(c: Cluster, n: NodeId, id: nat): ReadKey
    requires n in c.nodes
  {
    ReadKey(n, Term(c.nodes[n]), id)
  }

  predicate ReadEnabled(s: Reading, r: ReadStep) {
    match r
    case Base(b) => Enabled(s.c, b)
    case SendStamped(n) => Leads(s.c, n)
    case AnswerStamp(q, st) => st in s.stamps && q in s.c.nodes && Term(s.c.nodes[q]) == st.term
    case StartRead(n, id) => Leads(s.c, n) && KeyOf(s.c, n, id) !in s.pending
    case CountAnswer(n, a) =>
      Leads(s.c, n) && a in s.answers && a.stamp.leader == n && a.stamp.term == Term(s.c.nodes[n])
  }

  function FreshStamp(s: Reading, n: NodeId): Stamp
    requires n in s.c.nodes
  {
    Stamp(n, Term(s.c.nodes[n]), SeqOf(s, Slot(n, Term(s.c.nodes[n]))) + 1)
  }

  /** The read must observe everything committed here, and at least this leader's own no-op. */
  function NewRead(s: Reading, n: NodeId): PendingRead
    requires n in s.c.nodes
  {
    var nd := s.c.nodes[n];
    PendingRead(Max(TermStart(nd.log, Term(nd)), nd.commit), SeqOf(s, Slot(n, Term(nd))) + 1, {n}, s.c.h)
  }

  predicate Counts(a: Answer, key: ReadKey, read: PendingRead) {
    a.stamp.leader == key.leader && a.stamp.term == key.term && a.stamp.number >= read.confirmSeq
  }

  function Counted(pending: map<ReadKey, PendingRead>, a: Answer): map<ReadKey, PendingRead> {
    map k | k in pending :: if Counts(a, k, pending[k]) then pending[k].(acks := pending[k].acks + {a.from})
        else pending[k]
  }

  function ReadApply(s: Reading, r: ReadStep): Reading
    requires ReadEnabled(s, r)
  {
    match r
    case Base(b) => s.(c := Apply(s.c, b))
    case SendStamped(n) =>
      var st := FreshStamp(s, n);
      s.(seqs := s.seqs[Slot(n, st.term) := st.number], stamps := s.stamps + {st})
    case AnswerStamp(q, st) => s.(answers := s.answers + {Answer(q, st)})
    case StartRead(n, id) => s.(pending := s.pending[KeyOf(s.c, n, id) := NewRead(s, n)])
    case CountAnswer(n, a) => s.(pending := Counted(s.pending, a))
  }

  /** A read is answered once its acknowledgements form a quorum of the configuration in force. */
  ghost predicate Confirmed(s: Reading, key: ReadKey) {
    && key in s.pending && IsLeader(s.c, key.leader, key.term)
    && HasQuorum(Cfg(s.c.h.boot, s.c.nodes[key.leader].log), s.pending[key].acks)
  }

  ghost predicate ReadInit(s: Reading) {
    Init(s.c) && s.seqs == map[] && s.stamps == {} && s.answers == {} && s.pending == map[]
  }

  ghost predicate ReadNext(s: Reading, r: ReadStep, s': Reading) { ReadEnabled(s, r) && s' == ReadApply(s, r) }

  ghost predicate IsReadRun(run: seq<Reading>, steps: seq<ReadStep>) {
    && |run| == |steps| + 1 && ReadInit(run[0])
    && forall i :: 0 <= i < |steps| ==> ReadNext(run[i], steps[i], run[i + 1])
  }

  // ----- the invariant -----

  /** `q` took no part in a commit of a later term that `known` records. */
  ghost predicate Behind(known: History, t: nat, q: NodeId) {
    forall r :: r in known.commits && r.term > t ==> q !in r.quorum
  }

  /** `known` is a lawful past of `h` in which term `t` already has its leader. */
  ghost predicate Past(h: History, t: nat, known: History) {
    HistoryInv(known) && Extends(known, h) && t in known.reigns
  }

  ghost predicate ReadOk(key: ReadKey, read: PendingRead) {
    && (forall r :: r in read.known.commits && r.term <= key.term ==> r.index <= read.index)
    && (forall q :: q in read.acks ==> Behind(read.known, key.term, q))
  }

  ghost predicate AnswerOk(s: Reading, key: ReadKey, a: Answer)
    requires key in s.pending
  {
    Counts(a, key, s.pending[key]) ==> Behind(s.pending[key].known, key.term, a.from)
  }

  ghost predicate StampsOk(s: Reading) {
    && (forall st :: st in s.stamps ==> st.number <= SeqOf(s, Slot(st.leader, st.term)))
    && (forall a :: a in s.answers ==> a.stamp in s.stamps)
  }

  ghost predicate PendingOk(s: Reading) {
    && (forall key :: key in s.pending ==> ReadOk(key, s.pending[key]))
    && (forall key, a :: key in s.pending && a in s.answers ==> AnswerOk(s, key, a))
  }

  ghost predicate PastOk(s: Reading) {
    forall key :: key in s.pending ==> Past(s.c.h, key.term, s.pending[key].known)
  }

  ghost predicate ReadInv(s: Reading) { Inv(s.c) && PastOk(s) && StampsOk(s) && PendingOk(s) }

  /** A node in term `t` has taken part in no commit of a later term. */
  lemma NodeBehind(c: Cluster, q: NodeId, known: History)
    requires InvNodes(c) && InvCommits(c.h) && q in c.nodes && known.commits <= c.h.commits
    ensures Behind(known, Term(c.nodes[q]), q)
  {
    forall r | r in known.commits && r.term > Term(c.nodes[q]) ensures q !in r.quorum {
      assert RecOk(c.h, r);
      assert NodeInv(c.h, q, c.nodes[q]);
      assert AckedTo(c.h, q, r.term, r.index) ==> SlotKept(c.h, q, c.nodes[q], r.term);
    }
  }

  lemma {:induction false} TermStartIs(log: Log, t: nat, base: nat)
    requires base < |log| && (forall i :: 0 <= i < base ==> log[i].term < t) &&
             (forall i :: base <= i < |log| ==> log[i].term == t)
    ensures TermStart(log, t) == base + 1
    decreases |log|
  {
    if |log| == base + 1 {
      assert base == 0 || log[..|log| - 1][base - 1].term < t;
    } else {
      TermStartIs(log[..|log| - 1], t, base);
    }
  }

  /** At registration the read index covers every commit known of this term or earlier. */
  lemma RegisteredIndex(h: History, n: NodeId, nd: Node, r: CommitRec)
    requires HistoryInv(h) && NodeInv(h, n, nd) && nd.role.Leader? && r in h.commits && r.term <= Term(nd)
    ensures r.index <= Max(TermStart(nd.log, Term(nd)), nd.commit)
  {
    if r.term < Term(nd) {
      ReignHolds(h, Term(nd), r);
      assert ReignShape(h.reigns[Term(nd)], Term(nd));
      TermStartIs(nd.log, Term(nd), h.reigns[Term(nd)].base);
    }
  }

  /** A read index can lie beyond what the leader knows to be committed: it
      does not exactly when the leader has committed an entry of its own term. */
  lemma ReadIndexCommitted(s: Reading, n: NodeId)
    requires Inv(s.c) && Leads(s.c, n)
    ensures NewRead(s, n).index <= s.c.nodes[n].commit <==>
            TermAt(s.c.nodes[n], s.c.nodes[n].commit) == Some(Term(s.c.nodes[n]))
  {
    var nd := s.c.nodes[n];
    assert NodeInv(s.c.h, n, nd);
    assert ReignShape(s.c.h.reigns[Term(nd)], Term(nd));
    TermStartIs(nd.log, Term(nd), s.c.h.reigns[Term(nd)].base);
  }

  lemma AllIsQuorum(voters: set<NodeId>)
    requires voters != {}
    ensures HasQuorum(ClusterConfig(voters, None, {}), voters)
  {
    var acks := voters;
    assert (set v | v in voters && v in acks) == voters;
  }

  lemma Campaigns(c: Cluster, a: NodeId) returns (d: Cluster)
    requires a in c.nodes && c.nodes[a] == FreshNode && c.h.boot.voters >= {a}
    ensures Next(c, StartElection(a), d)
    ensures && d.nodes == c.nodes[a := Node(HardState(1, Some(a)), [], 0, 0, Candidate({a}))]
            && VoteRequest(1, a, 0, 0) in d.requests && d.h.boot == c.h.boot
  {
    d := Apply(c, StartElection(a));
  }

  lemma GetsVote(c: Cluster, a: NodeId, b: NodeId) returns (d: Cluster)
    requires b in c.nodes && c.nodes[b] == FreshNode && VoteRequest(1, a, 0, 0) in c.requests
    ensures Next(c, HandleVoteRequest(b, VoteRequest(1, a, 0, 0)), d) && VoteGrant(1, b, a) in d.grants &&
            d.h.boot == c.h.boot
    ensures d.nodes.Keys == c.nodes.Keys && forall n :: n in c.nodes && n != b ==> d.nodes[n] == c.nodes[n]
  {
    d := Apply(c, HandleVoteRequest(b, VoteRequest(1, a, 0, 0)));
  }

  lemma CountsVote(c: Cluster, a: NodeId, b: NodeId) returns (d: Cluster)
    requires a in c.nodes && c.nodes[a] == Node(HardState(1, Some(a)), [], 0, 0, Candidate({a})) &&
             VoteGrant(1, b, a) in c.grants
    ensures Next(c, HandleVoteGrant(a, VoteGrant(1, b, a)), d)
    ensures a in d.nodes && d.nodes[a] == Node(HardState(1, Some(a)), [], 0, 0, Candidate({a, b})) &&
            d.h.boot == c.h.boot
  {
    assert {a} + {b} == {a, b};
    d := Apply(c, HandleVoteGrant(a, VoteGrant(1, b, a)));
  }

  /** Two nodes, the first elected by both. */
  lemma TwoNodesElect(a: NodeId, b: NodeId, c: Cluster) returns (run: seq<Cluster>, steps: seq<Step>)
    requires a != b && Init(c) && c.nodes.Keys == {a, b} && c.h.boot == ClusterConfig({a, b}, None, {})
    ensures IsRun(run, steps) && Leads(run[|run| - 1], a)
    ensures run[|run| - 1].nodes[a] == Node(HardState(1, Some(a)), [Entry(1, Noop)], 0, 0, Leader(map[]))
  {
    var req, grant := VoteRequest(1, a, 0, 0), VoteGrant(1, b, a);
    assert a in c.nodes.Keys && b in c.nodes.Keys;
    var c1 := Campaigns(c, a);
    var c2 := GetsVote(c1, a, b);
    var c3 := CountsVote(c2, a, b);
    var c4 := TakesOffice(c3, a, {a, b});
    RunOn([c], [], StartElection(a), c1);
    RunOn([c] + [c1], [] + [StartElection(a)], HandleVoteRequest(b, req), c2);
    run, steps := [c] + [c1] + [c2], [] + [StartElection(a)] + [HandleVoteRequest(b, req)];
    RunOn(run, steps, HandleVoteGrant(a, grant), c3);
    run, steps := run + [c3], steps + [HandleVoteGrant(a, grant)];
    RunOn(run, steps, BecomeLeader(a), c4);
    run, steps := run + [c4], steps + [BecomeLeader(a)];
  }

  lemma TakesOffice(c: Cluster, a: NodeId, voters: set<NodeId>) returns (d: Cluster)
    requires a in c.nodes && c.nodes[a] == Node(HardState(1, Some(a)), [], 0, 0, Candidate(voters))
    requires c.h.boot == ClusterConfig(voters, None, {}) && voters != {}
    ensures Next(c, BecomeLeader(a), d)
    ensures a in d.nodes && d.nodes[a] == Node(HardState(1, Some(a)), [Entry(1, Noop)], 0, 0, Leader(map[]))
  {
    AllIsQuorum(voters);
    d := Apply(c, BecomeLeader(a));
  }

  lemma RunOn(run: seq<Cluster>, steps: seq<Step>, s: Step, d: Cluster)
    requires IsRun(run, steps) && Next(run[|run| - 1], s, d)
    ensures IsRun(run + [d], steps + [s])
  {
    var more, all := run + [d], steps + [s];
    forall i | 0 <= i < |all| ensures Next(more[i], all[i], more[i + 1]) {
      assert i < |steps| ==> Next(run[i], steps[i], run[i + 1]);
    }
  }

  /** A read index beyond the commit index, reached by an election: the new
      leader has appended its no-op but committed nothing. */
  lemma ReadAheadOfCommit(a: NodeId, b: NodeId) returns (run: seq<Cluster>, steps: seq<Step>, s: Reading)
    requires a != b
    ensures IsRun(run, steps) && s.c == run[|run| - 1] && Leads(s.c, a) && NewRead(s, a).index > s.c.nodes[a].commit
  {
    var h := History(ClusterConfig({a, b}, None, {}), map[], map[], map[], {});
    var c := Cluster(map[a := FreshNode, b := FreshNode], {}, {}, {}, {}, {}, h);
    run, steps := TwoNodesElect(a, b, c);
    s := Reading(run[|run| - 1], map[], {}, {}, map[]);
    var log := [Entry(1, Noop)];
    assert log[..0] == [];
    assert TermStart(log, 1) == TermStart(log[..0], 1) == 1;
  }

  lemma NewReadOk(s: Reading, n: NodeId, id: nat)
    requires Inv(s.c) && Leads(s.c, n)
    ensures ReadOk(KeyOf(s.c, n, id), NewRead(s, n))
  {
    var nd, read := s.c.nodes[n], NewRead(s, n);
    assert NodeInv(s.c.h, n, nd);
    forall r | r in s.c.h.commits && r.term <= Term(nd) ensures r.index <= read.index {
      RegisteredIndex(s.c.h, n, nd, r);
    }
    NodeBehind(s.c, n, s.c.h);
  }

  lemma BaseKeeps(s: Reading, b: Step)
    requires ReadInv(s) && Enabled(s.c, b)
    ensures ReadInv(ReadApply(s, Base(b)))
  {
    StepKeeps(s.c, b);
    StepExtends(s.c, b);
    PastKeeps(s, Apply(s.c, b));
    SamePending(s, Apply(s.c, b));
  }

  lemma PastKeeps(s: Reading, c: Cluster)
    requires PastOk(s) && Extends(s.c.h, c.h)
    ensures PastOk(s.(c := c))
  {
    forall key | key in s.pending ensures Past(c.h, key.term, s.pending[key].known) {
      assert Past(s.c.h, key.term, s.pending[key].known);
      ExtendsTrans(s.pending[key].known, s.c.h, c.h);
    }
  }

  lemma SamePending(s: Reading, c: Cluster)
    requires StampsOk(s) && PendingOk(s)
    ensures StampsOk(s.(c := c)) && PendingOk(s.(c := c))
  {
    var s' := s.(c := c);
    forall key, a | key in s'.pending && a in s'.answers ensures AnswerOk(s', key, a) {
      assert AnswerOk(s, key, a);
    }
  }

  /** A registered read keeps its past; a new one starts from the present. */
  ghost predicate Carried(s: Reading, s': Reading, key: ReadKey)
    requires key in s'.pending
  {
    if key in s.pending then s'.pending[key].known == s.pending[key].known
    else s'.pending[key].known == s.c.h && key.term in s.c.h.reigns
  }

  lemma CarriedStep(s: Reading, r: ReadStep, key: ReadKey)
    requires ReadEnabled(s, r) && !r.Base? && key in ReadApply(s, r).pending
    requires r.StartRead? ==> Term(s.c.nodes[r.n]) in s.c.h.reigns
    ensures Carried(s, ReadApply(s, r), key)
  {
  }

  lemma PastStep(s: Reading, s': Reading)
    requires PastOk(s) && HistoryInv(s.c.h) && s'.c.h == s.c.h
    requires forall key :: key in s'.pending ==> Carried(s, s', key)
    ensures PastOk(s')
  {
    forall key | key in s'.pending ensures Past(s'.c.h, key.term, s'.pending[key].known) {
      assert Carried(s, s', key);
      assert key in s.pending ==> Past(s.c.h, key.term, s.pending[key].known);
    }
  }

  lemma StampKeeps(s: Reading, n: NodeId)
    requires StampsOk(s) && PendingOk(s) && Leads(s.c, n)
    ensures StampsOk(ReadApply(s, SendStamped(n))) && PendingOk(ReadApply(s, SendStamped(n)))
  {
    var s' := ReadApply(s, SendStamped(n));
    forall key, a | key in s'.pending && a in s'.answers ensures AnswerOk(s', key, a) {
      assert AnswerOk(s, key, a);
    }
  }

  lemma AnswerKeeps(s: Reading, q: NodeId, st: Stamp)
    requires StampsOk(s) && PendingOk(s) && ReadEnabled(s, AnswerStamp(q, st))
    requires forall key :: key in s.pending ==> Behind(s.pending[key].known, st.term, q)
    ensures StampsOk(ReadApply(s, AnswerStamp(q, st))) && PendingOk(ReadApply(s, AnswerStamp(q, st)))
  {
    var s' := ReadApply(s, AnswerStamp(q, st));
    forall key, a | key in s'.pending && a in s'.answers ensures AnswerOk(s', key, a) {
      assert a in s.answers ==> AnswerOk(s, key, a);
    }
  }

  /** No answer already given can count towards a read registered now. */
  lemma StartReadKeeps(s: Reading, n: NodeId, id: nat)
    requires StampsOk(s) && PendingOk(s) && ReadEnabled(s, StartRead(n, id))
    requires ReadOk(KeyOf(s.c, n, id), NewRead(s, n))
    ensures StampsOk(ReadApply(s, StartRead(n, id))) && PendingOk(ReadApply(s, StartRead(n, id)))
  {
    var s' := ReadApply(s, StartRead(n, id));
    forall key | key in s'.pending ensures ReadOk(key, s'.pending[key]) {
      assert key in s.pending ==> ReadOk(key, s.pending[key]);
    }
    forall key, a | key in s'.pending && a in s'.answers ensures AnswerOk(s', key, a) {
      assert key in s.pending ==> AnswerOk(s, key, a);
      assert a.stamp in s.stamps;
    }
  }

  lemma CountKeeps(s: Reading, n: NodeId, a: Answer)
    requires StampsOk(s) && PendingOk(s) && ReadEnabled(s, CountAnswer(n, a))
    ensures StampsOk(ReadApply(s, CountAnswer(n, a))) && PendingOk(ReadApply(s, CountAnswer(n, a)))
  {
    var s' := ReadApply(s, CountAnswer(n, a));
    forall key | key in s'.pending ensures ReadOk(key, s'.pending[key]) {
      assert ReadOk(key, s.pending[key]);
      assert AnswerOk(s, key, a);
    }
    forall key, x | key in s'.pending && x in s'.answers ensures AnswerOk(s', key, x) {
      assert AnswerOk(s, key, x);
    }
  }

  lemma PastStepKeeps(s: Reading, r: ReadStep)
    requires Inv(s.c) && PastOk(s) && ReadEnabled(s, r) && !r.Base?
    ensures PastOk(ReadApply(s, r))
  {
    assert r.StartRead? ==> NodeInv(s.c.h, r.n, s.c.nodes[r.n]);
    forall key | key in ReadApply(s, r).pending ensures Carried(s, ReadApply(s, r), key) {
      CarriedStep(s, r, key);
    }
    PastStep(s, ReadApply(s, r));
  }

  lemma AllBehind(s: Reading, q: NodeId)
    requires Inv(s.c) && PastOk(s) && q in s.c.nodes
    ensures forall key :: key in s.pending ==> Behind(s.pending[key].known, Term(s.c.nodes[q]), q)
  {
    forall key | key in s.pending ensures Behind(s.pending[key].known, Term(s.c.nodes[q]), q) {
      assert Past(s.c.h, key.term, s.pending[key].known);
      NodeBehind(s.c, q, s.pending[key].known);
    }
  }

  lemma PendingStepKeeps(s: Reading, r: ReadStep)
    requires ReadInv(s) && ReadEnabled(s, r) && !r.Base?
    ensures StampsOk(ReadApply(s, r)) && PendingOk(ReadApply(s, r))
  {
    match r
    case SendStamped(n) => StampKeeps(s, n);
    case AnswerStamp(q, st) =>
      AllBehind(s, q);
      AnswerKeeps(s, q, st);
    case StartRead(n, id) =>
      NewReadOk(s, n, id);
      StartReadKeeps(s, n, id);
    case CountAnswer(n, a) => CountKeeps(s, n, a);
  }

  lemma ReadStepKeeps(s: Reading, r: ReadStep, s': Reading)
    requires ReadInv(s) && ReadNext(s, r, s')
    ensures ReadInv(s')
  {
    if r.Base? {
      BaseKeeps(s, r.s);
    } else {
      PastStepKeeps(s, r);
      PendingStepKeeps(s, r);
    }
  }

  lemma {:induction false} ReadRunHolds(run: seq<Reading>, steps: seq<ReadStep>, i: nat)
    requires IsReadRun(run, steps) && i < |run|
    ensures ReadInv(run[i])
  {
    if i == 0 {
      InitHolds(run[0].c);
    } else {
      var k := i - 1;
      ReadRunHolds(run, steps, k);
      assert ReadNext(run[k], steps[k], run[k + 1]);
      ReadStepKeeps(run[k], steps[k], run[i]);
    }
  }

  // ----- why a quorum of answers suffices -----

  /** If a quorum of the leader's configuration took no part in any later
      commit on record, then there is no later commit on record: the first of
      them would have been counted under an adjacent configuration. */
  lemma {:induction false} NoLaterCommit(known: History, h: History, T: nat, acks: set<NodeId>, r: CommitRec)
    requires HistoryInv(known) && HistoryInv(h) && Extends(known, h) && T in known.reigns
    requires HasQuorum(Cfg(h.boot, h.reigns[T].log), acks)
    requires forall q :: q in acks ==> Behind(known, T, q)
    requires r in known.commits
    ensures r.term <= T
    decreases r.term, r.logLen
  {
    if r.term > T {
      var x, y := h.reigns[T].log, known.reigns[r.term].log[..r.logLen];
      assert RecOk(known, r);
      LaterSideSteps(known, h, T, acks, r, CommonLen(x, y));
      EarlierSideSteps(known, h, T, r, CommonLen(x, y));
      ConfigsAdjacent(h.boot, x, y);
      var v := QuorumsMeet(Cfg(h.boot, x), Cfg(h.boot, y), acks, r.quorum);
      assert false;
    }
  }

  lemma {:induction false} LaterSideSteps(known: History, h: History, T: nat, acks: set<NodeId>, r: CommitRec, p: nat)
    requires HistoryInv(known) && HistoryInv(h) && Extends(known, h) && T in known.reigns
    requires HasQuorum(Cfg(h.boot, h.reigns[T].log), acks)
    requires forall q :: q in acks ==> Behind(known, T, q)
    requires r in known.commits && RecOk(known, r)
    requires forall k: nat :: Agree(h.reigns[T].log, known.reigns[r.term].log[..r.logLen], k) ==> k <= p
    ensures StepsFrom(h.boot, known.reigns[r.term].log[..r.logLen], p)
    decreases r.term, r.logLen, 0
  {
    var log := known.reigns[r.term].log;
    var y := log[..r.logLen];
    PrefixLogOk(known, log, r.logLen);
    if LastCfg(y) > p {
      var u, parent := LastConfigLawful(known, y);
      assert u <= r.term by { assert ReignShape(known.reigns[r.term], r.term); }
      if parent > 0 {
        var q := CoveringRec(known, y[..parent], u, LastCfg(y) - 1);
        NoLaterCommit(known, h, T, acks, q);
        CoversGrows(known, h, q, y[..parent]);
        CommittedInReign(h, q, y[..parent], T);
        assert Agree(h.reigns[T].log, y, parent);
      }
    }
  }

  lemma EarlierSideSteps(known: History, h: History, T: nat, r: CommitRec, p: nat)
    requires HistoryInv(h) && Extends(known, h) && T in h.reigns
    requires r in known.commits && RecOk(known, r) && r.term > T
    requires forall k: nat :: Agree(h.reigns[T].log, known.reigns[r.term].log[..r.logLen], k) ==> k <= p
    ensures StepsFrom(h.boot, h.reigns[T].log, p)
  {
    var x := h.reigns[T].log;
    var y := known.reigns[r.term].log[..r.logLen];
    if LastCfg(x) > p {
      var u, parent := LastConfigLawful(h, x);
      assert u <= T by { assert ReignShape(h.reigns[T], T); }
      if parent > 0 {
        var q := CoveringRec(h, x[..parent], u, LastCfg(x) - 1);
        ReignHolds(h, r.term, q);
        InFirstPart(h.reigns[r.term], h.reigns[q.term].log, x[..parent], q.index, known.reigns[r.term].log, r.logLen);
        assert Agree(x, y, parent);
      }
    }
  }

  lemma InFirstPart(reign: Reign, qlog: Log, p: Log, k: nat, log: Log, len: nat)
    requires Agree(reign.log, qlog, k) && k <= reign.base < len <= |log| && log <= reign.log
    requires |p| <= k && p == qlog[..|p|]
    ensures p == log[..len][..|p|]
  {
    AgreeShorter(reign.log, qlog, k, |p|);
    assert log[..len][..|p|] == reign.log[..|p|];
  }

  /** Linearizable reads: when a read is confirmed, its index is at least the
      commit index every node of the cluster had when it was registered. */
  lemma ConfirmedReadIsCurrent(s: Reading, key: ReadKey, r: CommitRec)
    requires ReadInv(s) && Confirmed(s, key) && r in s.pending[key].known.commits
    ensures r.index <= s.pending[key].index
  {
    var read, nd := s.pending[key], s.c.nodes[key.leader];
    assert ReadOk(key, read) && Past(s.c.h, key.term, read.known);
    assert NodeInv(s.c.h, key.leader, nd);
    NoLaterCommit(read.known, s.c.h, key.term, read.acks, r);
  }

  /** A registered read keeps its index and its view of the past. */
  lemma {:induction false} ReadPersists(run: seq<Reading>, steps: seq<ReadStep>, i: nat, j: nat, key: ReadKey)
    requires IsReadRun(run, steps) && i <= j < |run| && key in run[i].pending
    ensures key in run[j].pending && run[j].pending[key].known == run[i].pending[key].known
    ensures run[j].pending[key].index == run[i].pending[key].index
    decreases j
  {
    if i < j {
      var k := j - 1;
      ReadPersists(run, steps, i, k, key);
      assert ReadNext(run[k], steps[k], run[k + 1]);
    }
  }

  lemma LinearizableRead(run: seq<Reading>, steps: seq<ReadStep>, i: nat, j: nat, n: NodeId, id: nat, b: NodeId)
    requires IsReadRun(run, steps) && i < j < |run| && steps[i] == StartRead(n, id)
    requires n in run[i].c.nodes && Confirmed(run[j], KeyOf(run[i].c, n, id))
    requires b in run[i].c.nodes
    ensures run[i].c.nodes[b].commit <= run[j].pending[KeyOf(run[i].c, n, id)].index
  {
    var key := KeyOf(run[i].c, n, id);
    assert ReadNext(run[i], steps[i], run[i + 1]);
    ReadPersists(run, steps, i + 1, j, key);
    ReadRunHolds(run, steps, i);
    ReadRunHolds(run, steps, j);
    var nd := run[i].c.nodes[b];
    assert NodeInv(run[i].c.h, b, nd);
    var p := nd.log[..nd.commit];
    if p != [] {
      var r: CommitRec :| Covers(run[i].c.h, r, p) && r.term <= Term(nd);
      ConfirmedReadIsCurrent(run[j], key, r);
    }
  }
}

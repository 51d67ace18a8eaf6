/** The apply loop around a Raft node (crates/brokkr-raft/src/driver.rs): restoring
    and applying, acknowledging proposals, serving confirmed reads. */
module RaftDriver {
  import opened Common
  import opened Quorum
  import opened RaftCluster
  import opened RaftSafety

  /** Whose reply channel it is: a proposal's or a read's. */
  datatype Caller = Proposer(id: nat) | Reader(id: nat)

  /** A caller waiting for `index` to be applied; `expected` is the term a
      proposal's entry must carry, absent for a read. */
  datatype Waiter = Waiter(index: nat, expected: Option<nat>, caller: Caller)

  datatype Reply = Applied(index: nat) | NotLeader | OutcomeUnknown

  datatype Answer = Answer(caller: Caller, reply: Reply)

  /** How the node settled a read: confirmed at an index, or leadership was lost. */
  datatype ReadResult = ReadResult(ticket: nat, index: Option<nat>)

  // ----- the waiters -----

  predicate Jumped(w: Waiter, to: nat) { w.index <= to && w.expected.Some? }

  function Unjumped(ws: seq<Waiter>, to: nat): seq<Waiter> {
    if ws == [] then []
    else Unjumped(ws[..|ws| - 1], to) + (if Jumped(ws[|ws| - 1], to) then [] else [ws[|ws| - 1]])
  }

  function JumpAnswers(ws: seq<Waiter>, to: nat): seq<Answer> {
    if ws == [] then []
    else
      JumpAnswers(ws[..|ws| - 1], to) +
      (if Jumped(ws[|ws| - 1], to) then [Answer(ws[|ws| - 1].caller, OutcomeUnknown)] else [])
  }

  function Elsewhere(ws: seq<Waiter>, index: nat): seq<Waiter> {
    if ws == [] then []
    else Elsewhere(ws[..|ws| - 1], index) + (if ws[|ws| - 1].index == index then [] else [ws[|ws| - 1]])
  }

  /** A proposal is acknowledged only if the entry applied carries its term. */
  function Outcome(w: Waiter, index: nat, term: nat): Reply {
    if w.expected.Some? && w.expected.value != term then NotLeader else Applied(index)
  }

  function AppliedAnswers(ws: seq<Waiter>, index: nat, term: nat): seq<Answer> {
    if ws == [] then []
    else
      var w := ws[|ws| - 1];
      AppliedAnswers(ws[..|ws| - 1], index, term) +
          (if w.index == index then [Answer(w.caller, Outcome(w, index, term))] else [])
  }

  lemma {:induction false} UnjumpedHas(ws: seq<Waiter>, to: nat, w: Waiter)
    ensures w in Unjumped(ws, to) <==> w in ws && !Jumped(w, to)
  {
    if ws != [] {
      UnjumpedHas(ws[..|ws| - 1], to, w);
      assert ws == ws[..|ws| - 1] + [ws[|ws| - 1]];
    }
  }

  lemma {:induction false} ElsewhereHas(ws: seq<Waiter>, index: nat, w: Waiter)
    ensures w in Elsewhere(ws, index) <==> w in ws && w.index != index
  {
    if ws != [] {
      ElsewhereHas(ws[..|ws| - 1], index, w);
      assert ws == ws[..|ws| - 1] + [ws[|ws| - 1]];
    }
  }

  lemma {:induction false} AppliedAnswerFrom(ws: seq<Waiter>, index: nat, term: nat, a: Answer)
    requires a in AppliedAnswers(ws, index, term)
    ensures exists w :: w in ws && w.index == index && w.caller == a.caller && a.reply == Outcome(w, index, term)
  {
    var w := ws[|ws| - 1];
    assert ws == ws[..|ws| - 1] + [w];
    if a !in AppliedAnswers(ws[..|ws| - 1], index, term) {
      assert w in ws;
    } else {
      AppliedAnswerFrom(ws[..|ws| - 1], index, term, a);
    }
  }

  lemma {:induction false} JumpAnswerUnknown(ws: seq<Waiter>, to: nat, a: Answer)
    requires a in JumpAnswers(ws, to)
    ensures a.reply == OutcomeUnknown
  {
    if a in JumpAnswers(ws[..|ws| - 1], to) {
      JumpAnswerUnknown(ws[..|ws| - 1], to, a);
    }
  }

  // ----- replies owed -----

  function Waits(ws: seq<Waiter>, c: Caller): nat {
    if ws == [] then 0 else Waits(ws[..|ws| - 1], c) + if ws[|ws| - 1].caller == c then 1 else 0
  }

  function Told(answers: seq<Answer>, c: Caller): nat {
    if answers == [] then 0 else Told(answers[..|answers| - 1], c) + if answers[|answers| - 1].caller == c then 1 else 0
  }

  function Tickets(confirming: map<nat, Caller>, c: Caller): set<nat> { set t | t in confirming && confirming[t] == c }

  function Asks(confirming: map<nat, Caller>, c: Caller): nat { |Tickets(confirming, c)| }

  /** How often a caller is waiting, or has been answered. */
  function Calls(ws: seq<Waiter>, confirming: map<nat, Caller>, answers: seq<Answer>, c: Caller): nat {
    Waits(ws, c) + Asks(confirming, c) + Told(answers, c)
  }

  /** Nobody who waited is forgotten, nobody is answered twice. */
  ghost predicate Balanced(ws: seq<Waiter>, asked: map<nat, Caller>, given: seq<Answer>, ws': seq<Waiter>,
      asked': map<nat, Caller>, given': seq<Answer>) {
    forall c :: Calls(ws', asked', given', c) == Calls(ws, asked, given, c)
  }

  lemma {:induction false} WaitsNext(ws: seq<Waiter>, w: Waiter, c: Caller)
    ensures Waits(ws + [w], c) == Waits(ws, c) + if w.caller == c then 1 else 0
  {
    assert (ws + [w])[..|ws|] == ws;
  }

  lemma {:induction false} ToldNext(answers: seq<Answer>, a: Answer, c: Caller)
    ensures Told(answers + [a], c) == Told(answers, c) + if a.caller == c then 1 else 0
  {
    assert (answers + [a])[..|answers|] == answers;
  }

  lemma {:induction false} ToldJoin(a: seq<Answer>, b: seq<Answer>, c: Caller)
    ensures Told(a + b, c) == Told(a, c) + Told(b, c)
  {
    if b == [] {
      assert a + b == a;
    } else {
      var rest, last := b[..|b| - 1], b[|b| - 1];
      ToldJoin(a, rest, c);
      ToldNext(a + rest, last, c);
      assert a + b == (a + rest) + [last];
    }
  }

  lemma AsksWithout(confirming: map<nat, Caller>, t: nat, c: Caller)
    requires t in confirming
    ensures Asks(confirming - {t}, c) + (if confirming[t] == c then 1 else 0) == Asks(confirming, c)
  {
    assert Tickets(confirming - {t}, c) == Tickets(confirming, c) - {t};
  }

  lemma AsksWith(confirming: map<nat, Caller>, t: nat, caller: Caller, c: Caller)
    requires t !in confirming
    ensures Asks(confirming[t := caller], c) == Asks(confirming, c) + if caller == c then 1 else 0
  {
    AsksWithout(confirming[t := caller], t, c);
    assert confirming[t := caller] - {t} == confirming;
  }

  /** A waiter goes on waiting or is answered. */
  lemma {:induction false} EitherCount(kept: seq<Waiter>, out: seq<Answer>, w: Waiter, answered: bool, reply: Reply,
      c: Caller)
    ensures Waits(kept + (if answered then [] else [w]), c) +
            Told(out + (if answered then [Answer(w.caller, reply)] else []), c) ==
            Waits(kept, c) + Told(out, c) + if w.caller == c then 1 else 0
  {
    if answered {
      assert kept + [] == kept;
      ToldNext(out, Answer(w.caller, reply), c);
    } else {
      assert out + [] == out;
      WaitsNext(kept, w, c);
    }
  }

  lemma {:induction false} JumpCount(ws: seq<Waiter>, to: nat, c: Caller)
    ensures Waits(Unjumped(ws, to), c) + Told(JumpAnswers(ws, to), c) == Waits(ws, c)
  {
    if ws != [] {
      var rest, w := ws[..|ws| - 1], ws[|ws| - 1];
      JumpCount(rest, to, c);
      EitherCount(Unjumped(rest, to), JumpAnswers(rest, to), w, Jumped(w, to), OutcomeUnknown, c);
    }
  }

  lemma {:induction false} ApplyCount(ws: seq<Waiter>, index: nat, term: nat, c: Caller)
    ensures Waits(Elsewhere(ws, index), c) + Told(AppliedAnswers(ws, index, term), c) == Waits(ws, c)
  {
    if ws != [] {
      var rest, w := ws[..|ws| - 1], ws[|ws| - 1];
      ApplyCount(rest, index, term, c);
      EitherCount(Elsewhere(rest, index), AppliedAnswers(rest, index, term), w, w.index == index,
          Outcome(w, index, term), c);
    }
  }

  lemma {:induction false} JumpBalances(ws: seq<Waiter>, asked: map<nat, Caller>, given: seq<Answer>, to: nat)
    ensures Balanced(ws, asked, given, Unjumped(ws, to), asked, given + JumpAnswers(ws, to))
  {
    forall c ensures Calls(Unjumped(ws, to), asked, given + JumpAnswers(ws, to), c) == Calls(ws, asked, given, c) {
      JumpCount(ws, to, c);
      ToldJoin(given, JumpAnswers(ws, to), c);
    }
  }

  lemma {:induction false} ApplyBalances(ws: seq<Waiter>, asked: map<nat, Caller>, given: seq<Answer>, index: nat,
      term: nat)
    ensures Balanced(ws, asked, given, Elsewhere(ws, index), asked, given + AppliedAnswers(ws, index, term))
  {
    forall c ensures Calls(Elsewhere(ws, index), asked, given + AppliedAnswers(ws, index, term), c) ==
        Calls(ws, asked, given, c) {
      ApplyCount(ws, index, term, c);
      ToldJoin(given, AppliedAnswers(ws, index, term), c);
    }
  }

  /** A settled read moves from the registered to the waiting or the answered. */
  lemma ReadBalances(ws: seq<Waiter>, asked: map<nat, Caller>, given: seq<Answer>, t: nat, index: nat, reply: Reply)
    requires t in asked
    ensures Balanced(ws, asked, given, ws + [Waiter(index, None, asked[t])], asked - {t}, given)
    ensures Balanced(ws, asked, given, ws, asked - {t}, given + [Answer(asked[t], reply)])
  {
    forall c
      ensures Calls(ws + [Waiter(index, None, asked[t])], asked - {t}, given, c) == Calls(ws, asked, given, c)
      ensures Calls(ws, asked - {t}, given + [Answer(asked[t], reply)], c) == Calls(ws, asked, given, c)
    {
      AsksWithout(asked, t, c);
      WaitsNext(ws, Waiter(index, None, asked[t]), c);
      ToldNext(given, Answer(asked[t], reply), c);
    }
  }

  /** One more call by `who`. */
  ghost predicate OneMore(ws: seq<Waiter>, asked: map<nat, Caller>, given: seq<Answer>, ws': seq<Waiter>,
      asked': map<nat, Caller>, given': seq<Answer>, who: Caller) {
    forall c :: Calls(ws', asked', given', c) == Calls(ws, asked, given, c) + if c == who then 1 else 0
  }

  lemma OneMoreThen(ws: seq<Waiter>, asked: map<nat, Caller>, given: seq<Answer>, ws': seq<Waiter>,
      asked': map<nat, Caller>, given': seq<Answer>, ws'': seq<Waiter>, asked'': map<nat, Caller>, given'': seq<Answer>,
          who: Caller)
    requires OneMore(ws, asked, given, ws', asked', given', who) &&
             Balanced(ws', asked', given', ws'', asked'', given'')
    ensures OneMore(ws, asked, given, ws'', asked'', given'', who)
  {
  }

  lemma NewCall(ws: seq<Waiter>, asked: map<nat, Caller>, given: seq<Answer>, w: Waiter, t: nat, reply: Reply)
    ensures OneMore(ws, asked, given, ws + [w], asked, given, w.caller)
    ensures OneMore(ws, asked, given, ws, asked, given + [Answer(w.caller, reply)], w.caller)
    ensures t !in asked ==> OneMore(ws, asked, given, ws, asked[t := w.caller], given, w.caller)
  {
    forall c
      ensures Calls(ws + [w], asked, given, c) == Calls(ws, asked, given, c) + if c == w.caller then 1 else 0
      ensures Calls(ws, asked, given + [Answer(w.caller, reply)], c) ==
              Calls(ws, asked, given, c) + if c == w.caller then 1 else 0
      ensures t !in asked ==>
              Calls(ws, asked[t := w.caller], given, c) == Calls(ws, asked, given, c) + if c == w.caller then 1 else 0
    {
      WaitsNext(ws, w, c);
      ToldNext(given, Answer(w.caller, reply), c);
      if t !in asked {
        AsksWith(asked, t, w.caller, c);
      }
    }
  }

  // ----- replaying a log -----

  /** A state machine: its first state, how it applies an entry, and its snapshot codec. */
  datatype Machine<!S> = Machine(initial: S, apply: (S, Entry) -> S, encode: S -> Bytes, decode: Bytes -> S)

  function Replay<S>(m: Machine<S>, log: Log): S {
    if log == [] then m.initial else m.apply(Replay(m, log[..|log| - 1]), log[|log| - 1])
  }

  lemma {:induction false} ReplayNext<S>(m: Machine<S>, log: Log, k: nat)
    requires k < |log|
    ensures Replay(m, log[..k + 1]) == m.apply(Replay(m, log[..k]), log[k])
  {
    assert log[..k + 1][..k] == log[..k];
  }

  /** What the driver relies on of its node: bounds, and snapshots that hold
      the state after the entries they replace and can be taken at any point. */
  ghost predicate NodeOk<S(!new)>(m: Machine<S>, nd: Node, blob: Bytes) {
    && nd.snap <= nd.commit <= |nd.log|
    && (nd.snap > 0 ==> m.decode(blob) == Replay(m, nd.log[..nd.snap]))
    && forall k: nat :: k <= |nd.log| ==> m.decode(m.encode(Replay(m, nd.log[..k]))) == Replay(m, nd.log[..k])
  }

  /** An acknowledgement of index `i` that the log up to `i` bears out: the entry
      there is the proposal the caller waits for, or the caller only reads. */
  ghost predicate Earned(ws: seq<Waiter>, log: Log, a: Answer, i: nat) {
    exists w :: w in ws && w.caller == a.caller && w.index == i && 0 < i <= |log| &&
      (w.expected.Some? ==> log[i - 1].term == w.expected.value)
  }

  ghost predicate EarnedRead(confirming: map<nat, Caller>, results: seq<ReadResult>, a: Answer, i: nat) {
    exists r :: r in results && r.index == Some(i) && r.ticket in confirming && confirming[r.ticket] == a.caller
  }

  /** Answers given from position `from` on acknowledge only what was applied by `applied`. */
  ghost predicate Sound(answers: seq<Answer>, from: nat, ws: seq<Waiter>, confirming: map<nat, Caller>,
      results: seq<ReadResult>, log: Log, applied: nat) {
    from <= |answers| && forall k :: from <= k < |answers| && answers[k].reply.Applied? ==>
      answers[k].reply.index <= applied &&
      (Earned(ws, log, answers[k], answers[k].reply.index) ||
          EarnedRead(confirming, results, answers[k], answers[k].reply.index))
  }

  datatype Proposal = Proposal(index: nat, entry: Entry)

  /** Log matching: an index and a term name one entry. */
  ghost predicate Canonical(log: Log, canon: (nat, nat) -> Entry) {
    forall i :: 0 <= i < |log| ==> log[i] == canon(i + 1, log[i].term)
  }

  /** Proposers wait for what they proposed; readers only read. */
  ghost predicate Honest(ws: seq<Waiter>, confirming: map<nat, Caller>, proposed: map<nat, Proposal>,
      canon: (nat, nat) -> Entry) {
    && (forall w :: w in ws ==> WaiterOk(w, proposed, canon))
    && (forall t :: t in confirming ==> confirming[t].Reader?)
  }

  ghost predicate WaiterOk(w: Waiter, proposed: map<nat, Proposal>, canon: (nat, nat) -> Entry) {
    if w.caller.Reader? then w.expected.None?
    else
      w.expected.Some? && w.caller.id in proposed &&
      proposed[w.caller.id] == Proposal(w.index, canon(w.index, w.expected.value))
  }

  /** A proposer told `Applied(i)` finds its own entry at `i`. */
  ghost predicate Truthful(a: Answer, log: Log, applied: nat, proposed: map<nat, Proposal>) {
    a.caller.Proposer? && a.reply.Applied? ==>
      && 0 < a.reply.index <= applied <= |log|
      && a.caller.id in proposed && proposed[a.caller.id] == Proposal(a.reply.index, log[a.reply.index - 1])
  }

  /** The node once the part committed but not compacted has been held against the threshold. */
  function Compacted(nd: Node, threshold: nat): Node {
    if nd.commit - nd.snap > threshold then nd.(snap := nd.commit) else nd
  }

  // ----- settling reads -----

  /** The callers: waiting for an index, registered, answered. */
  datatype Desk = Desk(awaiting: seq<Waiter>, confirming: map<nat, Caller>, answers: seq<Answer>)

  function SettleOne(d: Desk, r: ReadResult, applied: nat): Desk {
    if r.ticket !in d.confirming then d
    else
      var caller, left := d.confirming[r.ticket], d.confirming - {r.ticket};
      if r.index.None? then d.(confirming := left, answers := d.answers + [Answer(caller, NotLeader)])
      else if r.index.value <= applied then
          d.(confirming := left, answers := d.answers + [Answer(caller, Applied(r.index.value))])
      else d.(confirming := left, awaiting := d.awaiting + [Waiter(r.index.value, None, caller)])
  }

  function SettleAll(d: Desk, rs: seq<ReadResult>, applied: nat): Desk {
    if rs == [] then d else SettleOne(SettleAll(d, rs[..|rs| - 1], applied), rs[|rs| - 1], applied)
  }

  /** What settling `rs` may do: waiters stay and only reads join them, settled
      tickets leave, answers are sound, and every caller is accounted for. */
  ghost predicate Turned(d: Desk, e: Desk, rs: seq<ReadResult>, log: Log, applied: nat) {
    && d.answers <= e.answers && Sound(e.answers, |d.answers|, [], d.confirming, rs, log, applied)
    && (forall w :: w in d.awaiting ==> w in e.awaiting)
    && (forall w :: w in e.awaiting ==> w in d.awaiting || Joins(w, d.confirming, rs, applied))
    && (forall t :: t in e.confirming ==> t in d.confirming && e.confirming[t] == d.confirming[t])
    && Balanced(d.awaiting, d.confirming, d.answers, e.awaiting, e.confirming, e.answers)
  }

  /** A read of the register, confirmed at an index not yet applied, that starts to wait. */
  ghost predicate Joins(w: Waiter, confirming: map<nat, Caller>, rs: seq<ReadResult>, applied: nat) {
    w.expected.None? && w.index > applied && EarnedRead(confirming, rs, Answer(w.caller, Applied(w.index)), w.index)
  }

  /** What one event does for its callers: answers are sound, only confirmed
      reads join the waiters, and the register only shrinks. */
  ghost predicate Dealt(d: Desk, rs: seq<ReadResult>, e: Desk, log: Log, applied: nat) {
    && d.answers <= e.answers && Sound(e.answers, |d.answers|, d.awaiting, d.confirming, rs, log, applied)
    && (forall w :: w in e.awaiting ==> w in d.awaiting || Joins(w, d.confirming, rs, applied))
    && (forall t :: t in e.confirming ==> t in d.confirming && e.confirming[t] == d.confirming[t])
  }

  lemma OneTurned(d: Desk, e: Desk, r: ReadResult, rs: seq<ReadResult>, log: Log, applied: nat)
    requires Turned(d, e, rs, log, applied) && r in rs
    ensures Turned(d, SettleOne(e, r, applied), rs, log, applied)
  {
    if r.ticket in e.confirming {
      var caller := e.confirming[r.ticket];
      var index := if r.index.Some? then r.index.value else 0;
      ReadBalances(e.awaiting, e.confirming, e.answers, r.ticket, index, if r.index.Some? then Applied(index)
          else NotLeader);
      assert d.confirming[r.ticket] == caller;
      if r.index.Some? {
        assert EarnedRead(d.confirming, rs, Answer(caller, Applied(index)), index);
        assert index > applied ==> Joins(Waiter(index, None, caller), d.confirming, rs, applied);
      }
    }
  }

  lemma {:induction false} AllTurned(d: Desk, some: seq<ReadResult>, rs: seq<ReadResult>, log: Log, applied: nat)
    requires forall r :: r in some ==> r in rs
    ensures Turned(d, SettleAll(d, some, applied), rs, log, applied)
  {
    if some != [] {
      AllTurned(d, some[..|some| - 1], rs, log, applied);
      OneTurned(d, SettleAll(d, some[..|some| - 1], applied), some[|some| - 1], rs, log, applied);
    }
  }

  lemma TurnedHonest(d: Desk, e: Desk, rs: seq<ReadResult>, log: Log, applied: nat, proposed: map<nat, Proposal>,
      canon: (nat, nat) -> Entry)
    requires Honest(d.awaiting, d.confirming, proposed, canon) && Turned(d, e, rs, log, applied)
    ensures Honest(e.awaiting, e.confirming, proposed, canon)
  {
  }

  lemma {:induction false} OneDeferred(d: Desk, rs: seq<ReadResult>, applied: nat)
    ensures forall r :: rs == [r] && Defers(r, d.confirming, applied) ==>
              Waiter(r.index.value, None, d.confirming[r.ticket]) in SettleAll(d, rs, applied).awaiting
  {
    if |rs| == 1 {
      assert rs[..0] == [];
      assert SettleAll(d, rs, applied) == SettleOne(d, rs[0], applied);
    }
  }

  /** Settled tickets leave the register, no other. */
  lemma {:induction false} TicketsLeave(d: Desk, rs: seq<ReadResult>, applied: nat, t: nat)
    ensures t in SettleAll(d, rs, applied).confirming <==> t in d.confirming && forall i :: 0 <= i < |rs| ==>
            rs[i].ticket != t
  {
    if rs != [] {
      TicketsLeave(d, rs[..|rs| - 1], applied, t);
    }
  }

  /** A registered read confirmed at an index not yet applied. */
  predicate Defers(r: ReadResult, confirming: map<nat, Caller>, applied: nat) {
    r.ticket in confirming && r.index.Some? && r.index.value > applied
  }

  /** The waiters once a proposal is on its way: its caller joins them on a leader. */
  function Enrolled(ws: seq<Waiter>, node: Node, after: Node, id: nat): seq<Waiter> {
    if node.role.Leader? then ws + [Waiter(|after.log|, Some(Term(after)), Proposer(id))] else ws
  }

  /** The register once a read is asked for: its caller is in it on a leader. */
  function Asking(asked: map<nat, Caller>, node: Node, ticket: nat, id: nat): map<nat, Caller> {
    if node.role.Leader? then asked[ticket := Reader(id)] else asked
  }

  /** Answers added since, none of them an acknowledgement. */
  ghost predicate NoneApplied(given: seq<Answer>, answers: seq<Answer>) {
    given <= answers && forall k :: |given| <= k < |answers| ==> !answers[k].reply.Applied?
  }

  lemma DealtBefore(given: seq<Answer>, d: Desk, rs: seq<ReadResult>, e: Desk, log: Log, applied: nat)
    requires NoneApplied(given, d.answers) && Dealt(d, rs, e, log, applied)
    ensures Dealt(d.(answers := given), rs, e, log, applied)
  {
    forall k | |given| <= k < |d.answers| ensures e.answers[k] == d.answers[k] {
    }
  }

  /** No two proposals are for one entry. */
  ghost predicate Distinctly(proposed: map<nat, Proposal>) {
    forall x, y :: x in proposed && y in proposed && x != y ==> proposed[x] != proposed[y]
  }

  class Driver<S(!new)> {
    const m: Machine<S>
    const threshold: nat

    var node: Node
    /** The blob of the node's snapshot. */
    var blob: Bytes
    var results: seq<ReadResult>

    var machine: S
    var lastApplied: nat
    var awaiting: seq<Waiter>
    /** Registered reads by ticket. */
    var confirming: map<nat, Caller>
    var answers: seq<Answer>

    /** The one entry an index and a term can name, in this run of the cluster. */
    ghost const canon: (nat, nat) -> Entry
    /** What each proposer appended, and where. */
    ghost var proposed: map<nat, Proposal>

    /** The machine holds exactly the first `lastApplied` committed entries. */
    ghost predicate Synced()
      reads this
    {
      NodeOk(m, node, blob) && lastApplied <= node.commit && machine == Replay(m, node.log[..lastApplied])
    }

    /** No proposal waits for an index already applied. */
    ghost predicate Settled()
      reads this
    {
      forall w :: w in awaiting && w.expected.Some? ==> w.index > lastApplied
    }

    ghost predicate Valid()
      reads this
    {
      Synced() && Settled() && lastApplied == node.commit
    }

    method FailJumped(to: nat)
      modifies this`awaiting, this`answers
      ensures awaiting == Unjumped(old(awaiting), to) && answers == old(answers) + JumpAnswers(old(awaiting), to)
    {
      var kept, out := [], [];
      for i := 0 to |awaiting|
        invariant kept == Unjumped(awaiting[..i], to) && out == JumpAnswers(awaiting[..i], to)
      {
        if Jumped(awaiting[i], to) {
          out := out + [Answer(awaiting[i].caller, OutcomeUnknown)];
        } else {
          kept := kept + [awaiting[i]];
        }
        assert awaiting[..i + 1][..i] == awaiting[..i];
      }
      assert awaiting[..|awaiting|] == awaiting;
      awaiting, answers := kept, answers + out;
    }

    method SettleAt(index: nat, term: nat)
      modifies this`awaiting, this`answers
      ensures awaiting == Elsewhere(old(awaiting), index)
      ensures answers == old(answers) + AppliedAnswers(old(awaiting), index, term)
    {
      var kept, out := [], [];
      for i := 0 to |awaiting|
        invariant kept == Elsewhere(awaiting[..i], index) && out == AppliedAnswers(awaiting[..i], index, term)
      {
        if awaiting[i].index != index {
          kept := kept + [awaiting[i]];
        } else {
          out := out + [Answer(awaiting[i].caller, Outcome(awaiting[i], index, term))];
        }
        assert awaiting[..i + 1][..i] == awaiting[..i];
      }
      assert awaiting[..|awaiting|] == awaiting;
      awaiting, answers := kept, answers + out;
    }

    /** Starting up: the machine resumes from the snapshot and replays the committed tail. */
    constructor (m: Machine<S>, threshold: nat, node: Node, blob: Bytes, ghost canon: (nat, nat) -> Entry)
      requires NodeOk(m, node, blob)
      requires Canonical(node.log, canon)
      ensures Ready() && this.m == m && this.canon == canon && this.threshold == threshold &&
              this.node == Compacted(node, threshold)
      ensures proposed == map[] && forall c :: Calls(awaiting, confirming, answers, c) == 0
    {
      this.m, this.threshold, this.node, this.blob := m, threshold, node, blob;
      results, awaiting, confirming, answers := [], [], map[], [];
      machine, lastApplied := m.initial, 0;
      this.canon, proposed := canon, map[];
      new;
      if node.snap > 0 {
        machine := m.decode(blob);
        lastApplied := node.snap;
      }
      Finish();
    }

    /** A snapshot installed by the leader jumps the machine past the log still held. */
    method JumpToSnapshot()
      requires Synced()
      modifies this`machine, this`lastApplied, this`awaiting, this`answers
      ensures Synced() && lastApplied == Max(old(lastApplied), node.snap)
      ensures awaiting == if node.snap > old(lastApplied) then Unjumped(old(awaiting), node.snap) else old(awaiting)
      ensures answers == old(answers) + if node.snap > old(lastApplied) then JumpAnswers(old(awaiting), node.snap)
              else []
      ensures Balanced(old(awaiting), confirming, old(answers), awaiting, confirming, answers)
    {
      if node.snap > lastApplied {
        machine := m.decode(blob);
        lastApplied := node.snap;
        JumpBalances(awaiting, confirming, answers, node.snap);
        FailJumped(node.snap);
      }
    }

    /** Applies the committed tail, in order, once per index. */
    method ApplyCommitted()
      requires Synced() && node.snap <= lastApplied
      modifies this`machine, this`lastApplied, this`awaiting, this`answers
      ensures Synced() && lastApplied == node.commit
      ensures forall w :: w in awaiting <==> w in old(awaiting) && !(old(lastApplied) < w.index <= node.commit)
      ensures old(answers) <= answers
      ensures Sound(answers, |old(answers)|, old(awaiting), map[], [], node.log, lastApplied)
      ensures Balanced(old(awaiting), confirming, old(answers), awaiting, confirming, answers)
    {
      while lastApplied < node.commit
        invariant Synced() && old(lastApplied) <= lastApplied <= node.commit
        invariant forall w :: w in awaiting <==> w in old(awaiting) && !(old(lastApplied) < w.index <= lastApplied)
        invariant old(answers) <= answers
        invariant Sound(answers, |old(answers)|, old(awaiting), map[], [], node.log, lastApplied)
        invariant Balanced(old(awaiting), confirming, old(answers), awaiting, confirming, answers)
      {
        var next := lastApplied + 1;
        var entry := Get(node, next);
        ghost var ws, given := awaiting, answers;
        ReplayNext(m, node.log, lastApplied);
        machine := m.apply(machine, entry.value);
        lastApplied := next;
        ApplyBalances(awaiting, confirming, answers, next, entry.value.term);
        SettleAt(next, entry.value.term);
        SoundNext(given, |old(answers)|, old(awaiting), ws, node.log, next);
        forall w ensures w in awaiting <==> w in ws && w.index != next {
          ElsewhereHas(ws, next, w);
        }
      }
    }

    /** Once the committed log outgrows the threshold, snapshots the applied machine. */
    method AutoCompact()
      requires Synced() && lastApplied == node.commit
      modifies this`node, this`blob
      ensures Synced() && node.log == old(node).log && node.commit == old(node).commit &&
              node == Compacted(old(node), threshold)
    {
      if node.commit - node.snap > threshold {
        blob := m.encode(machine);
        node := node.(snap := node.commit);
      }
    }

    /** Settles the reads the node confirmed or failed. */
    method SettleReads()
      requires Honest(awaiting, confirming, proposed, canon)
      modifies this`results, this`confirming, this`awaiting, this`answers
      ensures results == [] && Honest(awaiting, confirming, proposed, canon)
      ensures Desk(awaiting, confirming, answers) ==
              SettleAll(old(Desk(awaiting, confirming, answers)), old(results), lastApplied)
      ensures Turned(old(Desk(awaiting, confirming, answers)), Desk(awaiting, confirming, answers), old(results),
              node.log, lastApplied)
    {
      var drained := results;
      results := [];
      for i := 0 to |drained|
        invariant results == [] &&
                  Desk(awaiting, confirming, answers) ==
                      SettleAll(old(Desk(awaiting, confirming, answers)), drained[..i], lastApplied)
      {
        assert drained[..i + 1][..i] == drained[..i];
        var r := drained[i];
        if r.ticket in confirming {
          var caller := confirming[r.ticket];
          confirming := confirming - {r.ticket};
          if r.index.None? {
            answers := answers + [Answer(caller, NotLeader)];
          } else if r.index.value <= lastApplied {
            answers := answers + [Answer(caller, Applied(r.index.value))];
          } else {
            awaiting := awaiting + [Waiter(r.index.value, None, caller)];
          }
        }
      }
      assert drained[..|drained|] == drained;
      AllTurned(old(Desk(awaiting, confirming, answers)), drained, drained, node.log, lastApplied);
      TurnedHonest(old(Desk(awaiting, confirming, answers)), Desk(awaiting, confirming, answers), drained, node.log,
          lastApplied, proposed, canon);
    }

    /** Restores from a newer snapshot, then applies what is committed. */
    method CatchUp()
      requires Synced() && Settled()
      modifies this`machine, this`lastApplied, this`awaiting, this`answers
      ensures Synced() && lastApplied == node.commit
      ensures forall w :: w in awaiting <==>
              w in old(awaiting) && !Answered(w, Max(old(lastApplied), node.snap), node.commit)
      ensures old(answers) <= answers
      ensures Sound(answers, |old(answers)|, old(awaiting), map[], [], node.log, lastApplied)
      ensures Balanced(old(awaiting), confirming, old(answers), awaiting, confirming, answers)
    {
      ghost var ws, base, given := awaiting, Max(lastApplied, node.snap), answers;
      forall w ensures w in Unjumped(ws, node.snap) <==> w in ws && !Jumped(w, node.snap) {
        UnjumpedHas(ws, node.snap, w);
      }
      SoundJump(given, ws, node.snap, node.log, base);
      JumpToSnapshot();
      ghost var mid, left := answers, awaiting;
      ApplyCommitted();
      SoundJoin(given, mid, answers, ws, left, map[], [], node.log, base, lastApplied);
    }

    /** The bookkeeping after every node interaction. */
    method PostEvent()
      requires Synced() && Settled() && Honest(awaiting, confirming, proposed, canon)
      modifies this`node, this`blob, this`results, this`machine, this`lastApplied, this`awaiting, this`confirming,
               this`answers
      ensures Valid() && lastApplied >= old(lastApplied) && Honest(awaiting, confirming, proposed, canon)
      ensures node == Compacted(old(node), threshold)
      ensures old(answers) <= answers
      ensures Sound(answers, |old(answers)|, old(awaiting), old(confirming), old(results), node.log, lastApplied)
      ensures forall w :: w in awaiting && (w.index <= lastApplied || w.expected.Some?) ==>
                w in old(awaiting) && !Answered(w, Max(old(lastApplied), old(node).snap), node.commit)
      ensures forall w :: w in old(awaiting) && !Answered(w, Max(old(lastApplied), old(node).snap), node.commit) ==>
              w in awaiting
      ensures forall w :: w in old(awaiting) && w.expected.None? && old(lastApplied) < w.index <= lastApplied ==>
                (w !in awaiting <==> w.index > old(node).snap)
      ensures Balanced(old(awaiting), old(confirming), old(answers), awaiting, confirming, answers)
      ensures forall r :: old(results) == [r] && Defers(r, old(confirming), lastApplied) ==>
                Waiter(r.index.value, None, old(confirming)[r.ticket]) in awaiting
      ensures lastApplied == node.commit && (old(results) == [] ==> confirming == old(confirming))
      ensures Dealt(old(Desk(awaiting, confirming, answers)), old(results), Desk(awaiting, confirming, answers),
              node.log, lastApplied)
    {
      ghost var given, ws, asked, told := answers, awaiting, confirming, results;
      CatchUp();
      ghost var mid := answers;
      SoundMore(mid, |given|, ws, asked, told, node.log, lastApplied);
      AutoCompact();
      ghost var desk := Desk(awaiting, confirming, answers);
      SettleReads();
      OneDeferred(desk, told, lastApplied);
      SoundJoin(given, mid, answers, ws, [], asked, told, node.log, lastApplied, lastApplied);
    }

    /** Between events: caught up with the node, and every acknowledgement
        given so far was for the caller's own entry. */
    ghost predicate Ready()
      reads this
    {
      && Valid() && Canonical(node.log, canon) && Honest(awaiting, confirming, proposed, canon)
      && AllTruthful(answers, node.log, lastApplied, proposed)
      && Distinctly(proposed)
    }

    /** Post-event bookkeeping keeps acknowledgements truthful. */
    method Finish()
      requires Synced() && Settled() && Canonical(node.log, canon) && Honest(awaiting, confirming, proposed, canon)
      requires AllTruthful(answers, node.log, lastApplied, proposed)
      requires Distinctly(proposed)
      modifies this`node, this`blob, this`results, this`machine, this`lastApplied, this`awaiting, this`confirming,
               this`answers
      ensures Ready() && lastApplied >= old(lastApplied)
      ensures node == Compacted(old(node), threshold) && old(answers) <= answers
      ensures Balanced(old(awaiting), old(confirming), old(answers), awaiting, confirming, answers)
      ensures forall r :: old(results) == [r] && Defers(r, old(confirming), lastApplied) ==>
                Waiter(r.index.value, None, old(confirming)[r.ticket]) in awaiting
      ensures lastApplied == node.commit && (old(results) == [] ==> confirming == old(confirming))
      ensures Dealt(old(Desk(awaiting, confirming, answers)), old(results), Desk(awaiting, confirming, answers),
              node.log, lastApplied)
      ensures forall w :: w in old(awaiting) && w.expected.None? && w.index <= Max(old(lastApplied), old(node).snap) ==>
              w in awaiting
    {
      ghost var ws, asked, told, given := awaiting, confirming, results, answers;
      PostEvent();
      TruthAfter(given, answers, ws, asked, told, node.log, old(lastApplied), lastApplied, proposed, canon);
    }

    /** Any interaction with the node other than a proposal or a read: ticks,
        messages, replies. The node keeps what it committed. */
    method NodeEvent(after: Node, data: Bytes, settled: seq<ReadResult>)
      requires Ready() && Retains(node, after, false) && NodeOk(m, after, data) && Canonical(after.log, canon)
      modifies this`node, this`blob, this`results, this`machine, this`lastApplied, this`awaiting, this`confirming,
               this`answers
      ensures Ready() && lastApplied >= old(lastApplied) && node == Compacted(after, threshold)
      ensures old(answers) <= answers &&
              Balanced(old(awaiting), old(confirming), old(answers), awaiting, confirming, answers)
      ensures lastApplied == node.commit && (settled == [] ==> confirming == old(confirming))
      ensures Dealt(old(Desk(awaiting, confirming, answers)), settled, Desk(awaiting, confirming, answers), node.log,
              lastApplied)
      ensures forall r :: settled == [r] && Defers(r, old(confirming), lastApplied) ==>
                Waiter(r.index.value, None, old(confirming)[r.ticket]) in awaiting
      ensures forall w :: w in old(awaiting) && w.expected.None? && w.index <= Max(old(lastApplied), after.snap) ==>
              w in awaiting
    {
      SamePrefix(node.log, after.log, lastApplied);
      TruthKept(answers, node.log, after.log, lastApplied, proposed);
      node, blob, results := after, data, settled;
      Finish();
    }

    /** What a proposal leaves at the node: one more entry on a leader, nothing elsewhere. */
    ghost predicate Appends(command: Bytes, after: Node)
      reads this
    {
      if node.role.Leader? then
        after.log == node.log + [Entry(Term(node), Command(command))] && Term(after) == Term(node)
      else after == node
    }

    /** The index is new among the proposals of this term. */
    ghost predicate Newest()
      reads this
    {
      node.role.Leader? ==>
        forall x :: x in proposed && proposed[x].entry.term == Term(node) ==> proposed[x].index <= |node.log|
    }

    /** Refuses a proposer or puts it down for the entry its node has appended. */
    method Enroll(id: nat, command: Bytes, after: Node)
      requires Ready() && Retains(node, after, false) && Canonical(after.log, canon) && id !in proposed
      requires lastApplied <= |node.log| && Appends(command, after) && Newest()
      modifies this`awaiting, this`answers, this`proposed
      ensures Honest(awaiting, confirming, proposed, canon) && Settled() && Distinctly(proposed)
      ensures old(answers) <= answers && AllTruthful(answers, after.log, lastApplied, proposed)
      ensures OneMore(old(awaiting), confirming, old(answers), awaiting, confirming, answers, Proposer(id))
      ensures awaiting == Enrolled(old(awaiting), node, after, id) && NoneApplied(old(answers), answers)
      ensures !node.role.Leader? ==> Answer(Proposer(id), NotLeader) in answers
      ensures proposed == if node.role.Leader? then
              old(proposed)[id := Proposal(|after.log|, after.log[|after.log| - 1])] else old(proposed)
    {
      SamePrefix(node.log, after.log, lastApplied);
      TruthKept(answers, node.log, after.log, lastApplied, proposed);
      NewCall(awaiting, confirming, answers, Waiter(|after.log|, Some(Term(after)), Proposer(id)), 0, NotLeader);
      if !node.role.Leader? {
        answers := answers + [Answer(Proposer(id), NotLeader)];
      } else {
        var index, term := |after.log|, Term(after);
        awaiting := awaiting + [Waiter(index, Some(term), Proposer(id))];
        TruthAdded(answers, after.log, lastApplied, proposed, id, Proposal(index, after.log[index - 1]));
        HonestAdded(old(awaiting), confirming, proposed, canon, Waiter(index, Some(term), Proposer(id)));
        proposed := proposed[id := Proposal(index, after.log[index - 1])];
      }
    }

    /** A proposal: a leader appends one entry; its caller waits for it to be applied. */
    method ProposeCommitted(id: nat, command: Bytes, after: Node, data: Bytes, settled: seq<ReadResult>)
      requires Ready() && Retains(node, after, false) && NodeOk(m, after, data) && Canonical(after.log, canon)
      requires id !in proposed && Appends(command, after) && Newest()
      modifies this
      ensures Ready() && lastApplied >= old(lastApplied) && node == Compacted(after, threshold)
      ensures old(answers) <= answers &&
              OneMore(old(awaiting), old(confirming), old(answers), awaiting, confirming, answers, Proposer(id))
      ensures !old(node).role.Leader? ==> Answer(Proposer(id), NotLeader) in answers
      ensures proposed == if old(node).role.Leader? then
              old(proposed)[id := Proposal(|after.log|, after.log[|after.log| - 1])] else old(proposed)
      ensures lastApplied == node.commit
      ensures Dealt(Desk(Enrolled(old(awaiting), old(node), after, id), old(confirming), old(answers)), settled,
              Desk(awaiting, confirming, answers), node.log, lastApplied)
    {
      SamePrefix(node.log, after.log, lastApplied);
      Enroll(id, command, after);
      node, blob, results := after, data, settled;
      ghost var ws, given := awaiting, answers;
      Finish();
      StillIn(given, answers);
      DealtBefore(old(answers), Desk(ws, old(confirming), given), settled, Desk(awaiting, confirming, answers),
          node.log, lastApplied);
      OneMoreThen(old(awaiting), old(confirming), old(answers), ws, old(confirming), given, awaiting, confirming,
          answers, Proposer(id));
    }

    /** Refuses a reader or registers it under the ticket its node has given out. */
    method Ask(id: nat, ticket: nat)
      requires Ready() && ticket !in confirming
      modifies this`confirming, this`answers
      ensures Ready() && old(answers) <= answers
      ensures OneMore(awaiting, old(confirming), old(answers), awaiting, confirming, answers, Reader(id))
      ensures confirming == Asking(old(confirming), node, ticket, id) && NoneApplied(old(answers), answers)
      ensures !node.role.Leader? ==> Answer(Reader(id), NotLeader) in answers
    {
      NewCall(awaiting, confirming, answers, Waiter(0, None, Reader(id)), ticket, NotLeader);
      if !node.role.Leader? {
        answers := answers + [Answer(Reader(id), NotLeader)];
      } else {
        confirming := confirming[ticket := Reader(id)];
      }
    }

    /** A read: registered with the node, answered once confirmed and applied. */
    method ReadIndex(id: nat, ticket: nat, settled: seq<ReadResult>)
      requires Ready() && ticket !in confirming
      modifies this`node, this`blob, this`results, this`machine, this`lastApplied, this`awaiting, this`confirming,
               this`answers
      ensures Ready() && lastApplied >= old(lastApplied) && old(answers) <= answers
      ensures OneMore(old(awaiting), old(confirming), old(answers), awaiting, confirming, answers, Reader(id))
      ensures !old(node).role.Leader? ==> Answer(Reader(id), NotLeader) in answers
      ensures node == Compacted(old(node), threshold)
      ensures old(node).role.Leader? && settled == [] ==> confirming == old(confirming)[ticket := Reader(id)]
      ensures old(node).role.Leader? && settled == [ReadResult(ticket, Some(lastApplied + 1))] ==>
                Waiter(lastApplied + 1, None, Reader(id)) in awaiting
      ensures lastApplied == node.commit
      ensures Dealt(Desk(old(awaiting), Asking(old(confirming), old(node), ticket, id), old(answers)), settled,
              Desk(awaiting, confirming, answers), node.log, lastApplied)
    {
      Ask(id, ticket);
      results := settled;
      ghost var asked, given := confirming, answers;
      Finish();
      StillIn(given, answers);
      DealtBefore(old(answers), Desk(old(awaiting), asked, given), settled, Desk(awaiting, confirming, answers),
          node.log, lastApplied);
      OneMoreThen(old(awaiting), old(confirming), old(answers), old(awaiting), asked, given, awaiting, confirming,
          answers, Reader(id));
    }
  }

  /** A leader registers a read. */
  method AskedRead(m: Machine<()>, leader: Node) returns (d: Driver<()>)
    requires m == Machine((), UnitApply, UnitEncode, UnitDecode)
    requires leader == Node(HardState(2, None), [Entry(1, Noop), Entry(2, Noop)], 0, 0, Leader(map[]))
    ensures fresh(d) && d.Ready() && d.lastApplied == 0 && d.threshold == 10 && d.node == leader && d.m == m
    ensures d.canon == UnitCanon && d.confirming == map[7 := Reader(0)]
    ensures Calls(d.awaiting, d.confirming, d.answers, Reader(0)) == 1
  {
    d := new Driver(m, 10, Node(HardState(0, None), [], 0, 0, Follower), [], UnitCanon);
    d.NodeEvent(leader, [], []);
    NobodyAsks(d.awaiting, d.confirming, d.answers);
    d.ReadIndex(0, 7, []);
  }

  function UnitApply(s: (), e: Entry): () { () }

  function UnitEncode(s: ()): Bytes { [] }

  function UnitDecode(b: Bytes): () { () }

  function UnitCanon(index: nat, term: nat): Entry { Entry(term, Noop) }

  /** A read can wait for ever. A leader registers it at the index of its first
      entry, which is not committed; answers to its heartbeats confirm it, and it
      waits for that entry to be applied. The leader steps down and a snapshot
      takes the machine past the index. No later event answers the read (`NodeEvent`). */
  method StrandedRead() returns (d: Driver<()>)
    ensures fresh(d) && d.Ready() && d.lastApplied == 2
    ensures Waiter(2, None, Reader(0)) in d.awaiting && Told(d.answers, Reader(0)) == 0
  {
    var log := [Entry(1, Noop), Entry(2, Noop)];
    var leader := Node(HardState(2, None), log, 0, 0, Leader(map[]));
    d := AskedRead(Machine((), UnitApply, UnitEncode, UnitDecode), leader);
    assert Defers(ReadResult(7, Some(2)), d.confirming, 0);
    d.NodeEvent(leader, [], [ReadResult(7, Some(2))]);
    assert Calls(d.awaiting, d.confirming, d.answers, Reader(0)) == 1;
    d.NodeEvent(Node(HardState(3, None), log, 2, 2, Follower), [], []);
    WaitsOnce(d.awaiting, Waiter(2, None, Reader(0)));
    assert Calls(d.awaiting, d.confirming, d.answers, Reader(0)) == 1;
  }

  lemma NobodyAsks(ws: seq<Waiter>, confirming: map<nat, Caller>, answers: seq<Answer>)
    requires forall c :: Calls(ws, confirming, answers, c) == 0
    ensures confirming == map[]
  {
    forall t ensures t in confirming ==>
        t in Tickets(confirming, confirming[t]) && Calls(ws, confirming, answers, confirming[t]) > 0 {
    }
  }

  lemma {:induction false} WaitsOnce(ws: seq<Waiter>, w: Waiter)
    requires w in ws
    ensures Waits(ws, w.caller) > 0
  {
    if w in ws[..|ws| - 1] {
      WaitsOnce(ws[..|ws| - 1], w);
    } else {
      assert ws == ws[..|ws| - 1] + [ws[|ws| - 1]];
    }
  }

  lemma {:induction false} ToldOnce(given: seq<Answer>, a: Answer)
    requires a in given
    ensures Told(given, a.caller) > 0
  {
    if a in given[..|given| - 1] {
      ToldOnce(given[..|given| - 1], a);
    } else {
      assert given == given[..|given| - 1] + [given[|given| - 1]];
    }
  }

  lemma NobodyCalls(ws: seq<Waiter>, asked: map<nat, Caller>, given: seq<Answer>)
    requires forall c :: Calls(ws, asked, given, c) == 0
    ensures ws == [] && asked == map[] && given == []
  {
    NobodyAsks(ws, asked, given);
    if ws != [] {
      assert Calls(ws, asked, given, ws[0].caller) == 0;
      WaitsOnce(ws, ws[0]);
    }
    if given != [] {
      assert Calls(ws, asked, given, given[0].caller) == 0;
      ToldOnce(given, given[0]);
    }
  }

  lemma StillIn(given: seq<Answer>, answers: seq<Answer>)
    requires given <= answers
    ensures forall a :: a in given ==> a in answers
  {
    forall a | a in given ensures a in answers {
      var i :| 0 <= i < |given| && given[i] == a;
      assert answers[i] == a;
    }
  }

  ghost predicate AllTruthful(answers: seq<Answer>, log: Log, applied: nat, proposed: map<nat, Proposal>) {
    forall a :: a in answers ==> Truthful(a, log, applied, proposed)
  }

  lemma SamePrefix(log: Log, after: Log, k: nat)
    requires k <= |log| && log[..k] <= after
    ensures after[..k] == log[..k]
  {
  }

  lemma TruthKept(answers: seq<Answer>, log: Log, after: Log, applied: nat, proposed: map<nat, Proposal>)
    requires AllTruthful(answers, log, applied, proposed) && applied <= |log| && log[..applied] <= after
    ensures AllTruthful(answers, after, applied, proposed)
  {
  }

  lemma TruthAdded(answers: seq<Answer>, log: Log, applied: nat, proposed: map<nat, Proposal>, id: nat, p: Proposal)
    requires AllTruthful(answers, log, applied, proposed) && id !in proposed
    ensures AllTruthful(answers, log, applied, proposed[id := p])
  {
  }

  lemma HonestAdded(ws: seq<Waiter>, confirming: map<nat, Caller>, proposed: map<nat, Proposal>,
      canon: (nat, nat) -> Entry, w: Waiter)
    requires Honest(ws, confirming, proposed, canon) && w.caller.Proposer? && w.caller.id !in proposed &&
             w.expected.Some?
    ensures Honest(ws + [w], confirming, proposed[w.caller.id := Proposal(w.index, canon(w.index, w.expected.value))],
            canon)
  {
    forall x | x in ws ensures WaiterOk(x, proposed[w.caller.id := Proposal(w.index, canon(w.index, w.expected.value))],
        canon) {
      assert WaiterOk(x, proposed, canon);
    }
  }

  /** Sound answers to honest waiters are truthful. */
  lemma TruthAfter(given: seq<Answer>, answers: seq<Answer>, ws: seq<Waiter>, confirming: map<nat, Caller>,
      results: seq<ReadResult>,
                   log: Log, n: nat, applied: nat, proposed: map<nat, Proposal>, canon: (nat, nat) -> Entry)
    requires given <= answers && n <= applied <= |log| && AllTruthful(given, log, n, proposed)
    requires Honest(ws, confirming, proposed, canon) && Canonical(log, canon)
    requires Sound(answers, |given|, ws, confirming, results, log, applied)
    ensures AllTruthful(answers, log, applied, proposed)
  {
    forall a | a in answers ensures Truthful(a, log, applied, proposed) {
      var k :| 0 <= k < |answers| && answers[k] == a;
      if k < |given| {
        assert given[k] in given && Truthful(given[k], log, n, proposed);
      } else if a.reply.Applied? && a.caller.Proposer? {
        TruthOne(a, ws, confirming, results, log, proposed, canon);
      }
    }
  }

  lemma TruthOne(a: Answer, ws: seq<Waiter>, confirming: map<nat, Caller>, results: seq<ReadResult>,
                 log: Log, proposed: map<nat, Proposal>, canon: (nat, nat) -> Entry)
    requires Honest(ws, confirming, proposed, canon) && Canonical(log, canon)
    requires a.reply.Applied? && a.caller.Proposer?
    requires Earned(ws, log, a, a.reply.index) || EarnedRead(confirming, results, a, a.reply.index)
    ensures 0 < a.reply.index <= |log| && a.caller.id in proposed
    ensures proposed[a.caller.id] == Proposal(a.reply.index, log[a.reply.index - 1])
  {
    var i := a.reply.index;
    var w :| w in ws && w.caller == a.caller && w.index == i && 0 < i <= |log| &&
        (w.expected.Some? ==> log[i - 1].term == w.expected.value);
    assert WaiterOk(w, proposed, canon);
  }

  /** At most one proposal is acknowledged per index. */
  lemma OneAckPerIndex(answers: seq<Answer>, log: Log, applied: nat, proposed: map<nat, Proposal>, a: Answer, b: Answer)
    requires AllTruthful(answers, log, applied, proposed) && a in answers && b in answers
    requires Distinctly(proposed)
    requires a.caller.Proposer? && b.caller.Proposer? && a.reply.Applied? && a.reply == b.reply
    ensures a.caller == b.caller
  {
    assert Truthful(a, log, applied, proposed) && Truthful(b, log, applied, proposed);
  }

  /** A waiter that catching up from `base` to `commit` answers: every proposal
      up to `commit`, but a read only beyond `base`. */
  predicate Answered(w: Waiter, base: nat, commit: nat) {
    w.index <= commit && (w.expected.Some? || w.index > base)
  }

  lemma {:induction false} SoundJump(given: seq<Answer>, ws: seq<Waiter>, to: nat, log: Log, applied: nat)
    ensures Sound(given, |given|, ws, map[], [], log, applied)
    ensures Sound(given + JumpAnswers(ws, to), |given|, ws, map[], [], log, applied)
  {
    var now := given + JumpAnswers(ws, to);
    forall k | |given| <= k < |now| ensures now[k].reply == OutcomeUnknown {
      assert now[k] in JumpAnswers(ws, to);
      JumpAnswerUnknown(ws, to, now[k]);
    }
  }

  lemma SoundMore(answers: seq<Answer>, from: nat, ws: seq<Waiter>, confirming: map<nat, Caller>,
      results: seq<ReadResult>, log: Log, applied: nat)
    requires Sound(answers, from, ws, map[], [], log, applied)
    ensures Sound(answers, from, ws, confirming, results, log, applied)
  {
  }

  /** Two batches of sound answers are one. */
  lemma SoundJoin(a: seq<Answer>, b: seq<Answer>, c: seq<Answer>, ws: seq<Waiter>, left: seq<Waiter>,
      confirming: map<nat, Caller>, results: seq<ReadResult>, log: Log, n: nat, n': nat)
    requires a <= b <= c && n <= n' && forall w :: w in left ==> w in ws
    requires Sound(b, |a|, ws, confirming, results, log, n) && Sound(c, |b|, left, confirming, results, log, n')
    ensures Sound(c, |a|, ws, confirming, results, log, n')
  {
    forall k | |a| <= k < |c| && c[k].reply.Applied?
      ensures c[k].reply.index <= n'
      ensures Earned(ws, log, c[k], c[k].reply.index) || EarnedRead(confirming, results, c[k], c[k].reply.index)
    {
      if k < |b| {
        assert c[k] == b[k];
      }
    }
  }

  lemma SoundNext(given: seq<Answer>, from: nat, all: seq<Waiter>, ws: seq<Waiter>, log: Log, next: nat)
    requires 0 < next <= |log| && Sound(given, from, all, map[], [], log, next - 1)
    requires forall w :: w in ws ==> w in all
    ensures Sound(given + AppliedAnswers(ws, next, log[next - 1].term), from, all, map[], [], log, next)
  {
    var more := AppliedAnswers(ws, next, log[next - 1].term);
    var now := given + more;
    forall k | from <= k < |now| && now[k].reply.Applied?
      ensures now[k].reply.index <= next && Earned(all, log, now[k], now[k].reply.index)
    {
      if k >= |given| {
        assert now[k] in more;
        AppliedAnswerFrom(ws, next, log[next - 1].term, now[k]);
      } else {
        assert now[k] == given[k];
      }
    }
  }
}

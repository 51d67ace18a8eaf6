/** The driver and the key-value machine on a run of the cluster: what the node
    contract rests on, and that replicas hold the same map. */
module ReplicatedKv {
  import opened Common
  import opened Quorum
  import opened RaftCluster
  import opened RaftInvariant
  import opened RaftSafety
  import opened RaftDriver
  import opened KvMachine

  /** The entry that the leader of `term` placed at `index`. */
  function CanonOf(h: History): (nat, nat) -> Entry {
    (index: nat, term: nat) =>
      if term in h.reigns && 0 < index <= |h.reigns[term].log| then h.reigns[term].log[index - 1] else Entry(0, Noop)
  }

  /** Every log of every node at every moment of a run is canonical. */
  lemma RunCanonical(run: seq<Cluster>, steps: seq<Step>, i: nat, n: NodeId)
    requires IsRun(run, steps) && i < |run| && n in run[i].nodes
    ensures Canonical(run[i].nodes[n].log, CanonOf(run[|run| - 1].h))
  {
    var last := |run| - 1;
    NodeAt(run, steps, i, last, n);
    var log, h := run[i].nodes[n].log, run[last].h;
    forall k | 0 <= k < |log| ensures log[k] == CanonOf(h)(k + 1, log[k].term) {
      assert EntryOk(h.reigns, log, k);
    }
  }

  lemma WithinLog(run: seq<Cluster>, steps: seq<Step>, i: nat, n: NodeId)
    requires IsRun(run, steps) && i < |run| && n in run[i].nodes
    ensures run[i].nodes[n].commit <= |run[i].nodes[n].log|
  {
    RunHolds(run, steps, i);
    NodeBounds(run[i], n);
  }

  /** Replicas that have applied the same number of entries hold the same state. */
  lemma {:induction false} ReplicasAgree<S>(run: seq<Cluster>, steps: seq<Step>, i: nat, j: nat, a: NodeId, b: NodeId,
      m: RaftDriver.Machine<S>, k: nat)
    requires IsRun(run, steps) && i <= j < |run| && a in run[i].nodes && b in run[j].nodes
    requires k <= run[i].nodes[a].commit && k <= run[j].nodes[b].commit
    ensures run[i].nodes[a].commit <= |run[i].nodes[a].log| && run[j].nodes[b].commit <= |run[j].nodes[b].log|
    ensures Replay(m, run[i].nodes[a].log[..k]) == Replay(m, run[j].nodes[b].log[..k])
  {
    WithinLog(run, steps, i, a);
    WithinLog(run, steps, j, b);
    var p, q := CommittedLog(run[i], a), CommittedLog(run[j], b);
    StateMachineSafety(run, steps, i, j, a, b, p, q);
    assert p[..k] == run[i].nodes[a].log[..k] && q[..k] == run[j].nodes[b].log[..k];
    assert p[..k] == q[..k];
  }

  /** A state that its snapshot gives back. */
  ghost predicate Survives<S>(m: RaftDriver.Machine<S>, s: S) { m.decode(m.encode(s)) == s }

  /** A snapshot taken of a caught-up machine on one replica restores, on any
      other that has committed as far, the state after the entries it replaces. */
  lemma {:induction false} SnapshotTravels<S>(run: seq<Cluster>, steps: seq<Step>, i: nat, j: nat, a: NodeId, b: NodeId,
      m: RaftDriver.Machine<S>, k: nat)
    requires IsRun(run, steps) && i <= j < |run| && a in run[i].nodes && b in run[j].nodes
    requires k <= run[i].nodes[a].commit && k <= run[j].nodes[b].commit
    requires k <= |run[i].nodes[a].log| ==> Survives(m, Replay(m, run[i].nodes[a].log[..k]))
    ensures run[i].nodes[a].commit <= |run[i].nodes[a].log| && run[j].nodes[b].commit <= |run[j].nodes[b].log|
    ensures m.decode(m.encode(Replay(m, run[i].nodes[a].log[..k]))) == Replay(m, run[j].nodes[b].log[..k])
  {
    ReplicasAgree(run, steps, i, j, a, b, m, k);
  }

  // ----- the key-value machine -----

  function KvAsMachine(decode: Decoder): RaftDriver.Machine<Kv> {
    RaftDriver.Machine(map[], (m: Kv, e: Entry) => KvMachine.Applied(decode, m, e), SnapshotOf, RestoreOf)
  }

  /** Every map the machine can reach by small commands survives its snapshot. */
  lemma {:induction false} KvReplaySmall(decode: Decoder, log: Log)
    requires forall k :: 0 <= k < |log| ==> SmallEntry(decode, log[k])
    ensures Small(Replay(KvAsMachine(decode), log))
  {
    if log != [] {
      KvReplaySmall(decode, log[..|log| - 1]);
    }
  }

  lemma {:induction false} KvSnapshots(decode: Decoder, log: Log)
    requires forall k :: 0 <= k < |log| ==> SmallEntry(decode, log[k])
    ensures RestoreOf(SnapshotOf(Replay(KvAsMachine(decode), log))) == Replay(KvAsMachine(decode), log)
  {
    KvReplaySmall(decode, log);
    SnapshotRoundTrip(Replay(KvAsMachine(decode), log));
  }

  /** What an entry does to a key: sets it, removes it, or leaves it alone. */
  function Touch(decode: Decoder, e: Entry, key: Bytes): Option<Option<Bytes>> {
    if !e.payload.Command? then None
    else
      match decode(e.payload.data)
      case None => None
      case Some(c) =>
        if c.key != key then None
        else if c.op == KV_OP_PUT then Some(Some(c.value))
        else if c.op == KV_OP_DELETE then Some(None)
        else None
  }

  ghost predicate LastTouch(decode: Decoder, log: Log, key: Bytes, i: nat) {
    && i < |log| && Touch(decode, log[i], key).Some?
    && forall j :: i < j < |log| ==> Touch(decode, log[j], key).None?
  }

  function ValueOf(m: Kv, key: Bytes): Option<Bytes> { if key in m then Some(m[key]) else None }

  lemma TouchIs(decode: Decoder, m: Kv, e: Entry, key: Bytes)
    ensures ValueOf(KvMachine.Applied(decode, m, e), key) == if Touch(decode, e, key).Some? then
            Touch(decode, e, key).value else ValueOf(m, key)
  {
  }

  /** The last write wins: a key holds what the last committed command on it
      says, and nothing if there was none. */
  lemma {:induction false} LastWriteWins(decode: Decoder, log: Log, key: Bytes)
    ensures forall i: nat :: LastTouch(decode, log, key, i) ==>
              ValueOf(Replay(KvAsMachine(decode), log), key) == Touch(decode, log[i], key).value
    ensures (forall i :: 0 <= i < |log| ==> Touch(decode, log[i], key).None?) ==>
            ValueOf(Replay(KvAsMachine(decode), log), key) == None
  {
    if log != [] {
      var rest, last := log[..|log| - 1], log[|log| - 1];
      LastWriteWins(decode, rest, key);
      TouchIs(decode, Replay(KvAsMachine(decode), rest), last, key);
      var m := Replay(KvAsMachine(decode), log);
      assert m == KvMachine.Applied(decode, Replay(KvAsMachine(decode), rest), last);
      forall i: nat | LastTouch(decode, log, key, i) ensures ValueOf(m, key) == Touch(decode, log[i], key).value
      {
        if i < |rest| {
          assert LastTouch(decode, rest, key, i) && Touch(decode, last, key).None?;
        }
      }
    }
  }
}

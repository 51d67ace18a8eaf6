# Verification of the brokkr build grid

Models and proofs, in Dafny 4.11, of the logic at the core of brokkr: a Raft
library and the state machine it replicates, the scheduler of a remote-execution
build grid, and its content-addressed storage. `dafny verify dfyconfig.toml`
checks everything; each file holds one module.

**Consensus.** `RaftCluster` is the Raft node (`crates/brokkr-raft/src/node.rs`)
as a cluster-wide state machine of twenty-one kinds of step over nodes, messages in
flight and a history of reigns, votes, acknowledgements and commits. Messages are
never removed, so loss, delay, reordering and duplication are all runs of it.
Membership changes use joint consensus and learners; logs are compacted to
snapshots; nodes crash and restart. `RaftInvariant`, `RaftMonotone`,
`RaftCompleteness` and `RaftSteps` carry an inductive invariant through every
step, and `RaftSafety` draws the five safety properties of Figure 3 of the Raft
paper (Ongaro and Ousterhout, 2014) for every run. `RaftReads` adds linearizable
reads, `RaftConfigs` the tracker that refines "latest configuration of the log".
`RaftLog` is the durable log, `KvMachine` the replicated map and its snapshot
codec, `RaftDriver` the apply loop with its waiting callers; `ReplicatedKv`,
`ReadRuns` and `DrivenReplica` put them together over every run of the cluster:
what a replica tells its proposers and readers is true of the run.

**Scheduling.** `FairQueue` is start-time fair queuing as a class and `Fairness`
its bounds over every run. `Leases`, `Strategies` and `Locality` are the lease
table, the placement strategies and the locality index. `Scheduler` is the
scheduler as a state machine whose steps are its lock-held sections, with the
channel send outside the lock; `SchedulerSafety`, `SchedulerRetries` and
`SchedulerCopies` prove what holds in every interleaving, `SchedulerWitness` gives
the runs that attain the bounds, and `Dispatch` shows that the dispatch loop is a
path of that machine.

**Storage.** `Cas` is the plain store. `Lru` is the recency list, `Tiered` the
index-linked list in a node pool that refines it, `TieredStore` (file
`TieredCas.dfy`) the decorator. `BloomFilter` (file `Bloom.dfy`) is the bloom
filter and its decorator. `Ring`, `Replicated` and `Repair` are rendezvous
placement, quorum replication and peer repair. `Tree` packs
directory trees, `Disk` and `DiskClash` materialise them on a file system with
symbolic links, `Gc` and `GcProtocol` are the collector and its barrier.

Where the code and its documentation disagree the model follows the code:

- A read waiting for an index that a snapshot jumps over is never answered
  (`crates/brokkr-raft/src/driver.rs:371-381` keeps it, line 395 no longer meets
  its index), though the comment says such reads stay valid. `PostEvent` states
  exactly which reads are answered and `StrandedRead` reaches one that is not.
- A read index can exceed the commit index (`crates/brokkr-raft/src/node.rs:1455`
  takes the larger of the term's first index and the commit index).
  `ReadIndexCommitted` gives the exact condition, `ReadAheadOfCommit` a run; the
  driver copes by waiting.
- The write quorum is R/2 + 1 with the half rounded down, not up.
- `find_missing` does not ask the primary alone: it falls through to the replicas
  of the first digest with that primary. `FindMissing` states the exact answer.
- The scheduler takes the collection guard only around the cache write, after the
  uploads, and so does the service. `ClosedIff` gives the exact condition under
  which that is safe and `LateWriterBreaksClosure` a run in which it is not.
- Above a weight of one million a tenant's stride is zero. Fairness still holds;
  order within a tenant and the waiting bound do not (`OverweightNotFifo`,
  `OverweightStarvesOne`).
- A failed send drops the lease of its job even when another copy holds it, so a
  job can be in two places (`TwoCopies`; `SingleCopyIff` is the exact condition).
  The safety results do not assume otherwise, and the retry bound counts it.
- The name check of the tree walk does not by itself keep it in its target: a
  message may name a link and a directory alike, and the walk then follows the
  link (`PlantedLinkLeads`). `ConfinedIff` says exactly when it stays,
  `DistinctNamesConfine`, `ClashIff` and `DescendingConfine` say it of names and links.
- Packing converts names and link targets to text lossily, so a tree with other
  names does not come back (`LossyName`; `RoundTrip` is the exact condition).

Assumptions, stated as preconditions where they are used: the hash is injective,
the Directory encoding is invertible on text, converting to text leaves text as it
is and turns a valid name into a valid name, the links already on a disk are text,
nodes are booted with the same voters, HRW scores are any function with ties broken
by id, and byte counts stay within the machine's address space.

## Model

| member | source | states |
|---|---|---|
| `Quorum.QuorumsMeet` | crates/brokkr-raft/src/types.rs:176-214 | any quorum of one configuration shares a node with any quorum of an adjacent one: the same, the joint one before or after it, or one with a learner more |
| `Quorum.LearnersNeverCount` | crates/brokkr-raft/src/types.rs:198-214 | adding learners to a set of acknowledgements never turns a non-quorum into a quorum |
| `Quorum.OneVotePerTerm` | crates/brokkr-raft/src/state.rs:42-62 | over every run of hard states the term never falls and a vote cast in a term never changes in it |
| `Quorum.ElectionSafety` | crates/brokkr-raft/src/state.rs:42-62 | no two candidates win one term under adjacent configurations, from the voters' hard states alone |
| `RaftSteps.InitHolds` | crates/brokkr-raft/src/node.rs:286-380 | every freshly booted cluster meets the inductive invariant |
| `RaftSteps.StepKeeps` | crates/brokkr-raft/src/node.rs:578-1590 | each of the twenty-one kinds of step (elections, appends, acknowledgements, commits, membership changes, snapshots, restarts) keeps the inductive invariant |
| `RaftSteps.HandleVoteRequestKeeps` | crates/brokkr-raft/src/node.rs:791-876 | granting or refusing a vote keeps the invariant, including what the voter had acknowledged in earlier terms |
| `RaftSteps.BecomeLeaderKeeps` | crates/brokkr-raft/src/node.rs:639-672 | a candidate with a quorum of its own configuration may take office: its term is free and its log holds everything committed before |
| `RaftSteps.LeaderAppendKeeps` | crates/brokkr-raft/src/node.rs:1246-1266 | a leader appending a command, a no-op or a lawful configuration keeps the invariant |
| `RaftSteps.HandleAppendKeeps` | crates/brokkr-raft/src/node.rs:918-1061 | accepting, truncating or rejecting replicated entries keeps the invariant |
| `RaftSteps.TruncateKeeps` | crates/brokkr-raft/src/node.rs:1041-1050 | a crash after the conflicting suffix is truncated and before the new entries are appended keeps the invariant |
| `RaftSteps.CutPlace` | crates/brokkr-raft/src/node.rs:1032-1061 | what a follower truncates is never committed and begins at the first entry it does not share with the leader |
| `RaftSteps.AcceptedLog` | crates/brokkr-raft/src/node.rs:1032-1061 | the receiver loop leaves the leader's entries up to the end of the message, keeps a log that already agrees, and never mixes the two |
| `RaftSteps.HandleInstallKeeps` | crates/brokkr-raft/src/node.rs:1281-1338 | installing a snapshot, keeping or dropping the tail, keeps the invariant |
| `RaftSteps.InstallReplyKeeps` | crates/brokkr-raft/src/node.rs:1341-1362 | crediting a peer with the leader's current snapshot index, which the reply does not name, is harmless: that index is already committed |
| `RaftSteps.AdvanceKeeps` | crates/brokkr-raft/src/node.rs:1177-1214 | the commit rule (a quorum of the active configuration, own term only) keeps the invariant |
| `RaftCluster.FindCommit` | crates/brokkr-raft/src/node.rs:1177-1214 | the new commit index carries the leader's term and a quorum, and no larger index does |
| `RaftCompleteness.LeaderHolds` | crates/brokkr-raft/src/node.rs:865-876 | whoever can win a term under its own configuration holds every entry committed in an earlier term, across any number of membership changes |
| `RaftCompleteness.OneLeaderPerTerm` | crates/brokkr-raft/src/node.rs:878-916 | two logs that could both win one term belong to one candidate, although the voters may use different configurations |
| `RaftCompleteness.CommittedComparable` | docs/raft-notes.md:355-371 | of two committed prefixes on record one is a prefix of the other |
| `RaftSafety.ElectionSafety` | docs/raft-notes.md:362 | over every run at most one node ever leads a term |
| `RaftSafety.LeaderAppendOnly` | docs/raft-notes.md:363 | within its term a leader's log only grows at the end |
| `RaftSafety.LogMatching` | docs/raft-notes.md:364 | one index and one term, on any two nodes at any two moments, name one entry after one history |
| `RaftSafety.LeaderCompleteness` | docs/raft-notes.md:365 | a leader holds everything any node had committed earlier in the run in its own or an earlier term |
| `RaftSafety.StateMachineSafety` | docs/raft-notes.md:366-371 | what two nodes have committed at any two moments, across crashes and restarts, are prefixes of one log |
| `RaftSafety.CommittedNeverLost` | crates/brokkr-raft/src/node.rs:918-1409 | no step truncates a committed entry; the commit index falls only at a restart and never below the snapshot; term and snapshot index never fall |
| `RaftReads.ReadIndexCommitted` | crates/brokkr-raft/src/node.rs:1437-1476 | a new read index is covered by the commit index exactly when the leader has committed an entry of its own term |
| `RaftReads.ReadAheadOfCommit` | crates/brokkr-raft/src/node.rs:1437-1476 | a run from boot, of two nodes, to a leader whose read index exceeds its commit index |
| `RaftReads.ReadRunHolds` | crates/brokkr-raft/src/node.rs:1094-1131 | over every run of reads, stamped heartbeats and answers, only answers sent after a read was registered count towards it |
| `RaftReads.NoLaterCommit` | crates/brokkr-raft/src/node.rs:1113-1131 | if a quorum of the leader's configuration took no part in a later commit, there was none, even under other configurations |
| `RaftReads.LinearizableRead` | docs/raft-notes.md:475-486 | a confirmed read's index is at least the commit index every node had when the read was registered |
| `RaftConfigs.LastIsActive` | crates/brokkr-raft/src/node.rs:178-189 | the last configuration entry after the base is the latest configuration of the whole log; with none, the configuration at the base is |
| `RaftConfigs.ConfigTracker.ConfigAt` | crates/brokkr-raft/src/node.rs:191-199 | the backward search finds the configuration of the log cut at an index |
| `RaftConfigs.ConfigTracker.OnAppend` | crates/brokkr-raft/src/node.rs:201-206 | the tracker stands for the log with everything from the index on replaced by the new configuration |
| `RaftConfigs.ConfigTracker.OnTruncate` | crates/brokkr-raft/src/node.rs:208-212 | truncation rolls the tracked configuration back to that of the shorter log |
| `RaftConfigs.ConfigTracker.NoteAppended` | crates/brokkr-raft/src/node.rs:1063-1071 | after a batch of entries the tracker stands for the log with the batch appended |
| `RaftConfigs.ConfigTracker.OnCompact` | crates/brokkr-raft/src/node.rs:214-219 | folding configurations into the base changes no answer about the log |
| `RaftConfigs.ConfigTracker.OnInstallSnapshot` | crates/brokkr-raft/src/node.rs:221-235 | after a snapshot the tracker stands for the snapshot's log, tail kept or dropped, unless the snapshot names no voters |
| `RaftLog.WholeReads` | crates/brokkr-raft/src/storage.rs:257-311 | a store that holds a whole snapshot or none always reads its metadata, and has data exactly when it has metadata |
| `RaftLog.RaftLog.constructor` | crates/brokkr-raft/src/storage.rs:70-80 | a new store stands for the empty log, no snapshot and the fresh hard state |
| `RaftLog.RaftLog.AppendAll` | crates/brokkr-raft/src/storage.rs:83-101 | any entries, inserted over what is at their indices in one transaction: the store then stands for a log if and only if they leave no gap, and consecutive ones extend the full log |
| `RaftLog.RaftLog.Get` | crates/brokkr-raft/src/storage.rs:104-114 | finds exactly the entries after the snapshot |
| `RaftLog.RaftLog.LastIndexAndTerm` | crates/brokkr-raft/src/storage.rs:145-163 | the last index and term of the full log, even when every entry is compacted away |
| `RaftLog.RaftLog.TruncateFrom` | crates/brokkr-raft/src/storage.rs:181-202 | cuts the full log, leaves snapshot and hard state |
| `RaftLog.RaftLog.WriteSnapshot` | crates/brokkr-raft/src/storage.rs:220-254 | metadata, blob and removal of covered entries appear together: one version, never half a snapshot |
| `RaftLog.RaftLog.CompactTo` | crates/brokkr-raft/src/storage.rs:205-210 | the full log, its end and every uncovered entry survive compaction |
| `RaftLog.RaftLog.InstallSnapshotReplacingLog` | crates/brokkr-raft/src/storage.rs:212-219 | the full log becomes the snapshot's prefix |
| `RaftLog.RaftLog.SaveHardState` | crates/brokkr-raft/src/storage.rs:313-343 | every version ever visible holds a term and vote that were saved together |
| `KvMachine.Le32RoundTrip` | crates/brokkr-control/src/raftkv.rs:132-142 | a length below 2^32 survives its four bytes |
| `KvMachine.TakeWhole` | crates/brokkr-control/src/raftkv.rs:165-175 | a framed chunk is taken back whole and leaves the rest |
| `KvMachine.TakeCut` | crates/brokkr-control/src/raftkv.rs:165-175 | a cut chunk is not taken at all |
| `KvMachine.RestorePrefix` | crates/brokkr-control/src/raftkv.rs:145-163 | restoring any byte prefix of a snapshot yields exactly the pairs it holds whole, an initial segment of the map in key order |
| `KvMachine.SnapshotRoundTrip` | crates/brokkr-control/src/raftkv.rs:132-163 | a snapshot restores to its map if and only if every key and value is shorter than 2^32 bytes |
| `KvMachine.Machine.Snapshot` | crates/brokkr-control/src/raftkv.rs:132-143 | the pairs in ascending key order |
| `KvMachine.Machine.Restore` | crates/brokkr-control/src/raftkv.rs:145-163 | replaces the map by what the bytes hold |
| `RaftDriver.Driver.constructor` | crates/brokkr-raft/src/driver.rs:295-312 | start-up resumes from the snapshot and replays the committed tail: the machine is the fold of the committed log, and nobody is owed a reply |
| `RaftDriver.Driver.JumpToSnapshot` | crates/brokkr-raft/src/driver.rs:361-382 | the machine jumps to the snapshot's state; exactly the proposals jumped over fail with an unknown outcome |
| `RaftDriver.Driver.ApplyCommitted` | crates/brokkr-raft/src/driver.rs:384-407 | the machine becomes the fold of apply over the committed log; waiters leave exactly at their index, each with one answer, Ok only for the entry of the expected term |
| `RaftDriver.Driver.AutoCompact` | crates/brokkr-raft/src/driver.rs:409-414 | compacts exactly past the threshold, at the commit index, with a blob that restores the applied state |
| `RaftDriver.Driver.SettleReads` | crates/brokkr-raft/src/driver.rs:416-436 | every settled ticket leaves the register: it is answered if applied or refused, else it waits for its index |
| `RaftDriver.Driver.PostEvent` | crates/brokkr-raft/src/driver.rs:360-438 | machine = committed log, applied index never falls, answers are sound, no caller is dropped or answered twice, no proposal waits at an applied index; a waiting read whose index is reached is answered if and only if the index lies beyond the snapshot jumped to |
| `RaftDriver.Driver.NodeEvent` | crates/brokkr-raft/src/driver.rs:313-355 | any interaction with a node that keeps what it committed leaves all acknowledgements truthful and every caller accounted for, and strands the reads a snapshot jumps over |
| `RaftDriver.Driver.ProposeCommitted` | crates/brokkr-raft/src/driver.rs:498-516 | a proposal to a non-leader is refused; on a leader its caller is registered for exactly its own entry, and is owed exactly one answer |
| `RaftDriver.Driver.ReadIndex` | crates/brokkr-raft/src/driver.rs:489-497 | a read is refused by a node that does not lead, else registered under its ticket; its caller is owed exactly one answer |
| `RaftDriver.OneAckPerIndex` | crates/brokkr-raft/src/driver.rs:384-407 | no two proposals are ever acknowledged for one index |
| `RaftDriver.StrandedRead` | crates/brokkr-raft/src/driver.rs:361-396 | a leader's read, confirmed above the commit index and then jumped by a snapshot: its index is applied and it is still waiting, unanswered |
| `DrivenReplica.Drive` | crates/brokkr-raft/src/driver.rs:295-438 | a driver fed by any replica of any run of the cluster with reads, restarts and automatic compaction included: its machine is the fold of the committed log, every acknowledged proposal is the entry its own step appended, and every answered read has an applied index that covers all that any node had committed when the read was registered |
| `ReadRuns.ReportsCurrent` | crates/brokkr-raft/src/node.rs:1113-1131 | a read result the node can report covers all that any node of the cluster had committed when the read was registered |
| `ReadRuns.Underlying` | crates/brokkr-raft/src/node.rs:1437-1476 | every run with reads lies over a run of the cluster with the same states, so registering, stamping and confirming change nothing the safety results speak of |
| `ReplicatedKv.RunCanonical` | crates/brokkr-raft/src/node.rs:918-1061 | in every run of the cluster one index and term name one entry: the contract the driver relies on |
| `ReplicatedKv.ReplicasAgree` | crates/brokkr-raft/src/driver.rs:384-407 | replicas that applied equally many entries hold the same state, at any two moments of a run |
| `ReplicatedKv.LastWriteWins` | crates/brokkr-control/src/raftkv.rs:107-130 | after any log a key holds the value of the last command that decodes and touches it, or nothing if that is a delete or there is none |
| `ReplicatedKv.SnapshotTravels` | crates/brokkr-raft/src/driver.rs:361-371 | a snapshot taken on one replica restores, on any other, the state after the entries it replaces |
| `ReplicatedKv.KvSnapshots` | crates/brokkr-control/src/raftkv.rs:106-163 | the map machine meets the snapshot contract on every log of commands with keys and values below 2^32 bytes |
| `Cas.WrittenKeys` | crates/brokkr-cas/src/in_memory.rs:53-73 | a batch adds exactly the digests it reports stored and keeps every blob matching its digest |
| `Cas.NothingMissingAfter` | crates/brokkr-cas/src/in_memory.rs:41-73 | uploading what `find_missing_blobs` reported leaves nothing missing |
| `Cas.Store.BatchUpdate` | crates/brokkr-cas/src/in_memory.rs:53-73 | stores exactly the blobs that match their digest and reports which |
| `Cas.Store.ListDigests` | crates/brokkr-cas/src/in_memory.rs:94-100 | every digest held, once |
| `Lru.FitLongest` | crates/brokkr-cas/src/tiered.rs:263-273 | evicting from the tail keeps the longest recency prefix within the budget |
| `Lru.RunIsWindow` | crates/brokkr-cas/src/tiered.rs:223-261 | over every run of reads and writes the cache is exactly the longest prefix, within the budget, of the order in which blobs were last used |
| `Lru.EnterWindow` | crates/brokkr-cas/src/tiered.rs:229-261 | a blob entering the cache pushes out the same blobs a refit of the whole recency order would |
| `Lru.HitWindow` | crates/brokkr-cas/src/tiered.rs:223-227 | a hit reorders the cache and changes nothing else |
| `Tiered.HotTier.Unlink` | crates/brokkr-cas/src/tiered.rs:312-325 | removes one slot from the doubly linked list; both directions of every link still agree |
| `Tiered.HotTier.PushToHead` | crates/brokkr-cas/src/tiered.rs:300-310 | puts an unlinked slot first |
| `Tiered.HotTier.MoveToHead` | crates/brokkr-cas/src/tiered.rs:327-334 | moves a slot to the front, the others keep their order |
| `Tiered.HotTier.Alloc` | crates/brokkr-cas/src/tiered.rs:275-289 | takes a free slot or grows the pool; live and free slots still partition it |
| `Tiered.HotTier.Recycle` | crates/brokkr-cas/src/tiered.rs:291-298 | frees a slot without touching the live ones |
| `Tiered.HotTier.EvictUntilUnderCapacity` | crates/brokkr-cas/src/tiered.rs:263-273 | keeps the longest recency prefix that fits, with the byte count exact |
| `Tiered.HotTier.Get` | crates/brokkr-cas/src/tiered.rs:223-227 | answers from the recency list and moves the blob to its front |
| `Tiered.HotTier.Put` | crates/brokkr-cas/src/tiered.rs:229-261 | refines the abstract LRU: linked list, map, free list and byte count all stand for the recency list after the put |
| `TieredStore.HotIsWindow` | crates/brokkr-cas/src/tiered.rs:123-172 | through any run of batches the hot tier is the longest prefix, within the budget, of the last-use order |
| `TieredStore.TieredCas.BatchRead` | crates/brokkr-cas/src/tiered.rs:140-172 | answers exactly what the warm store would, fails exactly when it is down and something is not hot, touches what it read and makes hot what it fetched |
| `TieredStore.TieredCas.BatchUpdate` | crates/brokkr-cas/src/tiered.rs:123-138 | changes the warm store exactly as a plain write and makes hot exactly the blobs stored |
| `TieredStore.TieredCas.FindMissing` | crates/brokkr-cas/src/tiered.rs:115-121 | answers exactly what the warm store would |
| `BloomFilter.Bloom.Insert` | crates/brokkr-cas/src/bloom.rs:116-126 | the bits set are exactly the bits of the digests inserted |
| `BloomFilter.Bloom.Contains` | crates/brokkr-cas/src/bloom.rs:130-143 | never misses an inserted digest, and passes another exactly when inserted ones cover all its bits |
| `BloomFilter.Bloom.Clear` | crates/brokkr-cas/src/bloom.rs:147-152 | forgets every digest |
| `BloomFilter.BloomCas.RebuildFrom` | crates/brokkr-cas/src/bloom_cas.rs:76-85 | from any filter, an empty one over a full store included: afterwards the filter has no false negatives if and only if the digests given cover the store |
| `BloomFilter.BloomCas.FindMissing` | crates/brokkr-cas/src/bloom_cas.rs:114-137 | the same multiset of missing digests as the store alone; fails exactly when the store is down and some digest passes the filter |
| `BloomFilter.BloomCas.BatchUpdate` | crates/brokkr-cas/src/bloom_cas.rs:139-150 | writes exactly as the store alone and keeps the filter free of false negatives |
| `FairQueue.FairQueue.Push` | crates/brokkr-control/src/fairqueue.rs:93-102 | appends the job with its start tag and finish tag |
| `FairQueue.FairQueue.Take` | crates/brokkr-control/src/fairqueue.rs:130-139 | removes one entry and advances virtual time to its tag |
| `FairQueue.FairQueue.Pop` | crates/brokkr-control/src/fairqueue.rs:142-150 | serves the first entry with the least start tag |
| `FairQueue.FairQueue.Retain` | crates/brokkr-control/src/fairqueue.rs:154-157 | keeps exactly the entries asked for, in order |
| `Fairness.RunLanes` | crates/brokkr-control/src/fairqueue.rs:93-150 | over every run each tenant's queued tags are equally spaced, one stride apart, and no tag saturates |
| `Fairness.TagsNeverDecrease` | crates/brokkr-control/src/fairqueue.rs:130-150 | served start tags never decrease |
| `Fairness.ServiceTracksClock` | crates/brokkr-control/src/fairqueue.rs:93-150 | while a tenant stays backlogged its service differs from virtual time by at most one stride |
| `Fairness.FairShare` | crates/brokkr-control/src/fairqueue.rs:93-150 | while two tenants stay backlogged their service in virtual time differs by at most the sum of their strides, at any weights |
| `Fairness.PassedAtMost` | crates/brokkr-control/src/fairqueue.rs:93-150 | while a tenant's oldest job waits, another is served at most its strides in that tenant's stride, plus one |
| `Fairness.WaitBound` | crates/brokkr-control/src/fairqueue.rs:93-150 | a head job waits at most the sum of those bounds over the tenants served meanwhile |
| `Fairness.TenantFifo` | crates/brokkr-control/src/fairqueue.rs:130-150 | one tenant's jobs are served in push order when its weight is at most the cost of a job |
| `Fairness.StridePositive` | crates/brokkr-control/src/fairqueue.rs:74-102 | a stride is positive exactly when the weight is at most the cost of a job: the condition of the two results above |
| `Fairness.OverweightNotFifo` | crates/brokkr-control/src/fairqueue.rs:93-150 | above that weight three jobs of one tenant come out first, third, second |
| `Fairness.OverweightStarves` | crates/brokkr-control/src/fairqueue.rs:93-150 | above that weight one tenant is served any number of times while the entries already queued stay where they are |
| `Fairness.OverweightStarvesOne` | crates/brokkr-control/src/fairqueue.rs:93-150 | a run from the empty queue to a waiting job of another tenant that is passed over any number of times |
| `Locality.LocalityIndex.Record` | crates/brokkr-control/src/locality.rs:97-131 | after any record sequence the workers tracked are the most recently recorded distinct ones, each history the last completions of its current stay, and the one just recorded survives |
| `Locality.LocalityIndex.LeastRecent` | crates/brokkr-control/src/locality.rs:120-131 | the least recently touched worker other than the one kept |
| `Locality.LocalityIndex.InputRootHits` | crates/brokkr-control/src/locality.rs:153-160 | counts the input root in the remembered end of the worker's stay, zero for an untracked worker |
| `Locality.LocalityIndex.CountActionHits` | crates/brokkr-control/src/locality.rs:162-166 | the same for actions |
| `Leases.LeaseTable.Insert` | crates/brokkr-control/src/lease.rs:53-65 | supersedes the job's lease; one lease per worker is kept when the worker was idle |
| `Leases.LeaseTable.Complete` | crates/brokkr-control/src/lease.rs:67-70 | hands back the payload of the job's lease, once; with one lease per worker the worker that held it is idle afterwards |
| `Leases.LeaseTable.IsWorkerBusy` | crates/brokkr-control/src/lease.rs:83-86 | the scan finds a lease exactly when the set of jobs the worker holds is not empty |
| `Leases.LeaseTable.TakeExpired` | crates/brokkr-control/src/lease.rs:100-109 | takes exactly the leases past their deadline, in job order |
| `Leases.LeaseTable.TakeWorker` | crates/brokkr-control/src/lease.rs:112-121 | takes exactly the worker's leases, in job order; it is idle afterwards |
| `Leases.LeaseTable.RenewWorker` | crates/brokkr-control/src/lease.rs:125-134 | moves exactly the deadlines of the worker's leases and counts them |
| `Strategies.SimpleFifoChooses` | crates/brokkr-control/src/scheduling.rs:133-146 | a least loaded candidate, the same whatever the order they are listed in; none only when there is no candidate |
| `Strategies.BinPackingChooses` | crates/brokkr-control/src/scheduling.rs:169-196 | the fullest worker under the cap if there is one, else a least loaded one |
| `SchedulerSafety.CopiesKept` | crates/brokkr-control/src/scheduler.rs:633-655 | every queued, leased or in-flight copy keeps attempts below the maximum and belongs to an admitted job |
| `SchedulerSafety.OneEachKept` | crates/brokkr-control/src/scheduler.rs:524-632 | no step gives a worker a second lease |
| `SchedulerSafety.SomewhereKept` | crates/brokkr-control/src/scheduler.rs:459-519 | no step of another caller makes the last copy of a waited-for job disappear |
| `SchedulerSafety.NoLostJobKept` | crates/brokkr-control/src/scheduler.rs:633-655 | a job with a waiting caller stays queued, leased, being reported or in a give-up, whatever races with a failed send |
| `SchedulerSafety.QuotaKept` | crates/brokkr-control/src/scheduler.rs:839-856 | a tenant's in-flight count is exactly its active calls and within the quota |
| `SchedulerSafety.RunSafe` | crates/brokkr-control/src/scheduler.rs:459-1033 | all of the above in every interleaving of the lock-held sections |
| `SchedulerRetries.StepSpends` | crates/brokkr-control/src/scheduler.rs:170-184 | a potential over a job's copies pays for every dispatch and every retry |
| `SchedulerRetries.RetriesEnd` | crates/brokkr-control/src/scheduler.rs:170-184 | in every run a job is dispatched at most 31 times, dispatched and retried at most 61 times |
| `SchedulerWitness.RetriesReached` | crates/brokkr-control/src/scheduler.rs:170-184 | runs that attain both bounds |
| `SchedulerWitness.TwoCopies` | crates/brokkr-control/src/scheduler.rs:633-655 | a run from an empty scheduler after which one job is queued twice |
| `SchedulerCopies.SingleCopyIff` | crates/brokkr-control/src/scheduler.rs:633-655 | in every run each job has at most one copy, queued or leased, if and only if no send with attempts left fails while its job is queued |
| `Dispatch.Dispatcher.RequeueTaken` | crates/brokkr-control/src/scheduler.rs:170-184 | every job taken is queued with one attempt more or given up |
| `Dispatch.Dispatcher.FindSlot` | crates/brokkr-control/src/scheduler.rs:540-600 | the least start tag among the jobs with an idle eligible connected worker, none only when no job has one |
| `Dispatch.Dispatcher.Deliver` | crates/brokkr-control/src/scheduler.rs:633-655 | a send and its failure path are steps of the scheduler's state machine, none a placement |
| `Dispatch.Dispatcher.TryDispatch` | crates/brokkr-control/src/scheduler.rs:524-656 | ends, under any strategy that picks a candidate and any deadlines; each placement takes a minimum start tag; on return no queued job has an idle eligible worker; the whole call is a path of the state machine |
| `Tree.CopyBack` | crates/brokkr-cas/src/tree.rs:127-301 | the recursive copy of a packed tree of text names is the tree itself, modes reduced to the executable bit, with exact counts |
| `Tree.PackDirectory` | crates/brokkr-cas/src/tree.rs:238-301 | returns the digest of the tree with its names and link targets made text, and adds exactly that tree's blobs |
| `Disk.FileSystem.MaterializeDirectory` | crates/brokkr-cas/src/tree.rs:127-202 | the loops over files, links and directories compute the walk over the disk, errors and partial work included |
| `Disk.ConfinedIff` | crates/brokkr-cas/src/tree.rs:94-202 | on every disk the walk passes outside its empty target if and only if a dry run on the messages alone does; if not, outcome, counts and contents are the dry run's and nothing outside changes |
| `Disk.DistinctNamesConfine` | crates/brokkr-cas/src/tree.rs:94-202 | if no reachable message repeats a directory's name among its directories and links, nothing outside the target changes, even when the walk fails |
| `DiskClash.ClashIff` | crates/brokkr-cas/src/tree.rs:136-199 | where directories are named apart and links named like one are absolute, a successful walk stays inside if and only if no reachable message names a link and a directory alike |
| `DiskClash.DescendingConfine` | crates/brokkr-cas/src/tree.rs:136-199 | if links only lead down (relative, no `..`), nothing outside the target changes on any disk, whatever names the messages repeat and even when the walk fails |
| `Disk.PlantedLinkLeads` | crates/brokkr-cas/src/tree.rs:159-199 | a link and a directory of one name: the directory's file is written where the link leads, outside the target |
| `Disk.WalkCopied` | crates/brokkr-cas/src/tree.rs:127-202 | into an empty folder, messages that copy without repeated names are copied exactly, and nothing outside changes |
| `Disk.RoundTrip` | crates/brokkr-cas/src/tree.rs:127-301 | a packed tree materialises back into an empty folder, with exact counts, if and only if every name and link target in it is unchanged by the conversion to text |
| `Disk.LossyName` | crates/brokkr-cas/src/tree.rs:249-301 | a file named by the byte 255 comes back under the replacement character |
| `Disk.PackThenMaterialize` | crates/brokkr-cas/src/tree.rs:127-301 | the round trip on a real store and disk, exactly for trees of text; the store grows by exactly the tree's blobs |
| `Ring.RankingUnique` | crates/brokkr-cas/src/ring.rs:93-106 | one ranked listing of a set of nodes: the input order cannot matter |
| `Ring.MinimalDisruption` | crates/brokkr-cas/src/ring.rs:93-106 | losing a node gives exactly the first r of the r + 1 replicas without it |
| `Ring.OthersStay` | crates/brokkr-cas/src/ring.rs:93-106 | digests not placed on the lost node do not move |
| `Ring.ReplicasFor` | crates/brokkr-cas/src/ring.rs:93-106 | filtering, scoring and sorting the node list computes the ranking of the eligible ids, cut at the factor |
| `Replicated.QuorumSurvives` | crates/brokkr-cas/src/replicated.rs:146-153 | a write quorum is never contained in half the replication factor |
| `Replicated.DurableRead` | crates/brokkr-cas/src/replicated.rs:146-153 | an acknowledged blob stays readable after any half (rounded down) of the replication factor is lost |
| `Replicated.ReplicatedCas.FanOut` | crates/brokkr-cas/src/replicated.rs:230-255 | exactly the reachable replicas gain a blob that verifies, and the acknowledgements count them |
| `Replicated.ReplicatedCas.BatchUpdate` | crates/brokkr-cas/src/replicated.rs:213-265 | each blob is acknowledged exactly when it verifies and a quorum of its replicas took it, and is then held by at least R/2 + 1 of them |
| `Replicated.ReplicatedCas.BatchRead` | crates/brokkr-cas/src/replicated.rs:267-296 | a blob is found exactly when a reachable replica holds it, and it matches its digest |
| `Replicated.ReplicatedCas.FindMissing` | crates/brokkr-cas/src/replicated.rs:158-211 | a digest is reported missing exactly when some digest has no replicas, or the first reachable replica of the first digest with its primary lacks it |
| `Replicated.LeftOutIsReadable` | crates/brokkr-cas/src/replicated.rs:158-211 | a digest not reported is on a reachable node, and readable if stores hold only what is assigned to them |
| `Repair.Pull` | crates/brokkr-cas/src/peer.rs:118-150 | pulls a digest exactly when another reachable replica has it |
| `Repair.RepairNode` | crates/brokkr-cas/src/peer.rs:73-155 | the target gains exactly what it is assigned and an assigned replica can supply; expected = present + repaired + unrepairable |
| `Repair.RepairCluster` | crates/brokkr-cas/src/peer.rs:164-174 | every node gains exactly what it is assigned and an assigned replica held at the start; succeeds exactly when every store is known and reachable |
| `Repair.Converged` | crates/brokkr-cas/src/peer.rs:164-174 | afterwards a digest any assigned replica holds is held by all of them, and no store gained an unassigned one |
| `Repair.SecondPassIdle` | crates/brokkr-cas/src/peer.rs:164-174 | an immediate second pass has nothing to repair |
| `Gc.DirectDigests` | crates/brokkr-cas/src/gc.rs:71-108 | every digest an action result refers to, and no other |
| `Gc.Plan` | crates/brokkr-cas/src/gc.rs:129-172 | lists exactly the stored digests no cached result refers to |
| `Gc.Sweep` | crates/brokkr-cas/src/gc.rs:210-214 | deletes exactly the unreferenced blobs, counts them, and keeps references closed |
| `GcProtocol.CommitCloses` | crates/brokkr-cas/src/action_cache.rs:82-105 | a cache write keeps references closed exactly when the store still holds everything the result refers to |
| `GcProtocol.ReferencesStayClosed` | crates/brokkr-cas/src/gc.rs:32-58 | with writers that hold the guard across upload and cache write, references stay closed in every interleaving with sweeps |
| `GcProtocol.ClosedIff` | crates/brokkr-control/src/services/action_cache.rs:120-137 | in every run, writers that take the guard late included, references stay closed if and only if every cache write finds the blobs its result refers to |
| `GcProtocol.LateWriterBreaksClosure` | crates/brokkr-control/src/scheduler.rs:892-912 | a writer that takes the guard only for the cache write can cache a result whose blob a sweep has just deleted |

## Left out

- RaftCluster: the handlers are steps on values, finer than the source's functions; timers, leader stickiness and the learner catch-up gate appear only as freedom not to take a step; a snapshot's blob is the log prefix it stands for; one bootstrap configuration serves all nodes, where a learner's own lists it among the learners, which no quorum counts; a leader may forget a peer's acknowledgements at any time, of which the source's removal of former members is a case.
- RaftReads.LinearizableRead: a confirmed read is kept after its leader steps down, a superset of the source's confirmed reads.
- DrivenReplica.Drive: the automatic compaction that closes an event is the run's next step; which confirmed reads a node reports after which step is a parameter, bound to what the run confirms.
- RaftDriver: storage errors end the driver in the source and are not modelled; nor is the manual compaction with a caller's blob, which nothing checks against the state.
- RaftLog: reading a range and the first index are not modelled.
- KvMachine: the protobuf decoding of commands is a parameter.
- Cas.Store: the redb-backed store is not modelled; a store that does not answer fails whole calls.
- Tiered.HotTier.Put: requires that the new blob and those held are addressable together, since the source's byte counter saturates.
- TieredStore, BloomFilter: listing and deleting through the decorators are the trait's defaults and not modelled; operations are not interleaved.
- BloomFilter.Bloom.Insert: a word is the set of its bit positions; sizing and the false-positive rate are not modelled.
- Fairness.WaitBound: states runs of pushes and pops; taking from the middle and retaining, which the scheduler also does, are specified in `FairQueue` but not part of these runs.
- Locality.LocalityIndex.Record: forgetting a worker is not modelled, and the tick stays below 2^64.
- Scheduler: cancelled calls, job history, worker registry, platform matching and the per-worker load counters are not modelled; eligibility is a parameter.
- Dispatch.Dispatcher.TryDispatch: a strategy that chooses nobody for a job with candidates is excluded, as its contract forbids it; eligibility does not change during the call and sends fail exactly to the workers of a given set.
- Disk.ConfinedIff: recursion is bounded by a parameter, at which the walk fails, and a link limit; permissions, name-length limits, hard links, special files and other writers on the disk are not modelled, and the byte count does not saturate.
- DiskClash.ClashIff: covers clashing links with absolute targets, `DescendingConfine` links that never go up; for other relative targets and for directories named twice the exact condition is the dry run of `ConfinedIff`.
- Replicated, Repair: the topology is fixed and the parallel writes of a fan-out go to distinct stores one after the other.
- GcProtocol: one store and one cache in one process, as the barrier itself assumes.
- Left out whole: gRPC services, transport, TLS, tokens, command line, client library, policy engine, sandbox, file-system mount, metrics and views.

# OxideDB in Dafny

OxideDB is a store of rows in range shards, each shard a Raft group, with Percolator-style
transactions over the shards and a routing table kept by a group of its own. This project models
the parts that are hard to get right and proves what they promise, over every run rather than for
one call:

- **A Raft group** (`Raft*.dfy`, `MemoryRaftNode.dfy`). `RaftNode` has one function for each
  lock-held block of the node: the node after it, the storage writes it made, in order, and the reply.
  `RaftProtocol` is the protocol those blocks take part in, `RaftGroup` the group with its messages, and
  `RaftSteps` to `RaftRuns` prove that every run of the group is a run of the protocol, `RaftDying` also for
  a node that dies between two writes of a block. `RaftAnswers` says of any node when each call succeeds and what
  it then holds. `RaftReads` is the read index. `RaftCalls`, `RaftVotes`,
  `RaftCompaction` and `RaftReplay` are about one node that may die after any single storage write and that
  compacts its log. `RaftStorage` lays the state out in a byte-ordered engine, and
  `MemoryRaftNode` is the node with its fields changed in place, proved to compute the functions.
- **A shard** (`ByteOrder`, `Rows`, `MvccCodec`, `Engine`, `MvccRows`, `MvccScans`, `MvccStorage`, `Shards`,
  `RowLaws`, `StateMachine`). `Rows` says what a command does to one row; `RowLaws` when it succeeds and
  what readers then find; the classes do it over byte keys.
- **Transactions** (`Tso`, `Percolator`, `Transactions`, `Snapshots`, `Serializability`,
  `SerializabilityLimits`, `Coordinator`, `LockResolver`).
- **Routing** (`Routing`, `RoutingLaws`, `MetadataService`, `ClientWalk`).
- **Moving a shard** (`ShardMove`, `ShardMoveProof`, `ShardMoveLimits`, `RecoveryRunner`).

The classes that take part in a protocol (`Coordinator`, `LockResolver`, `RecoveryRunner`) promise that
each call is a run of its steps; `Paths` says what that means.

## Premises

Some results hold only where the code relies on something it does not check. Each is a named
predicate or a hypothesis of the result.

- R1 (`RaftGroup.InTerm`): a vote or append reply is acted on in the term it was asked in. The code only
  looks for a newer term. `RaftPremises.TwoLeaders` is a run without it.
- R2: the whole-group model has no snapshot installs, because an install keeps the suffix above the
  snapshot without comparing it (`RaftReplay.SuffixKeptUnchecked`). Snapshots are proved for a single node,
  given messages that agree with what was committed (`RaftReplay.Fits`).
- R3 (`RaftGroup.DurableTerm`): a node restarts, or comes back after dying in a block, into a stored
  term no older than its newest stored entry. A
  term heard of in a reply is not saved, and a request of that same term does not save it either, so a
  restart can bring an older term back. `RaftLostTerm.CommandsDiffer` is a run without it that breaks
  state-machine safety. A crash between the writes of one request is another way to it
  (`RaftPremises.EntryBeforeTerm`). One vote per term does not need it (`RaftVotes.OneVotePerTerm`).
- T1: one coordinator and one clock client. T2 (`Serializability.Orderly`): proposals are answered
  definitely; a lock is rolled back only if its transaction has aborted or can no longer commit, or if it is
  the lock of a primary the transaction writes once; and what has committed is settled before the next
  validation starts. The runs in `SerializabilityLimits` leave out one half each. T3: no all-or-nothing is claimed of the resolver
  (`LockResolver.OlderCommitForgotten`).
- M1: a proposal that timed out counts as no answer. M2: restart, note loading and freezing are one step,
  and so are dropping the note and closing the old group. M3: the copy is the move's, which checks each
  answer, and only this move changes the shard's replica set in the table. M4 (`ShardMove.Safe`): a write does
  not add a value from under a deletion that its group does not hold, nor the newest version at the timestamp
  of another value that a copy may still bring; and a refusal is acted on only when no proposal that was sent
  can still land. The code checks none of M4; `ShardMoveLimits` shows that every step it leaves out loses a
  row or lets both groups take rows.

## Where the code and its documentation differ

- `default_range_map` is said to leave out only keys of 0xff bytes; with two shards or more it leaves out
  the empty key as well.
- A named leader is said to be one of the shard's nodes; before nodes are set anyone may report leading.
- `init_routes` accepts overlapping ranges.
- A transaction that writes one key twice refuses its own second prewrite.

In all of these the model follows the code.

## Model

| member | source | states |
|---|---|---|
| `RaftRuns.AppliedAgree` | oxidedb/raft/node.py:776-799 | State-machine safety: in every run with lost, repeated and reordered messages, restarts, and deaths between any two writes of a block, any two nodes at any two moments have applied the same entries, index for index, as far as both have applied (premises R1, R2, R3) |
| `RaftRuns.MachinesAgree` | oxidedb/raft/node.py:776-799 | So of any two state machines one has been handed a prefix of what the other has |
| `RaftRuns.LogsMatch` | oxidedb/raft/node.py:904-987 | Log matching across nodes and across time: logs with an entry of one term at one index agree up to it |
| `RaftRuns.AckedIsHeld` | oxidedb/raft/node.py:957-987 | The over-wide acknowledgement is sound: all of the log a follower reports as matched is the log of the leader it answered, whenever that leader is looked at later |
| `RaftRuns.LeadersHoldCommitted` | oxidedb/raft/node.py:755-774 | What any node has committed is in the log of every leader, then or later, of a term no older than the newest committed entry's, whatever uncommitted tail the node has |
| `RaftRuns.CommitPersists` | oxidedb/raft/node.py:755-774 | What a node has committed stays backed by a majority that holds an entry of the committing term, in every later state |
| `RaftRuns.OneLeader` | oxidedb/raft/node.py:418-442 | Election safety: a term has one leader in the whole of a run |
| `RaftRuns.OneVote` | oxidedb/raft/node.py:870-902 | Of the votes in messages sent, no voter has two candidates in one term, through restarts |
| `RaftRuns.NextKeeps` | oxidedb/raft/node.py:418-987 | Every action of a group keeps the whole invariant and forgets nothing that happened |
| `RaftRuns.RunKeeps` | oxidedb/raft/node.py:418-987 | The invariant holds in every state of every run |
| `RaftDying.DieKeeps` | oxidedb/raft/node.py:418-985 | A node that dies after any number of the writes of any block, and comes back from what they left, keeps the whole invariant |
| `RaftDying.DieTakingKeeps` | oxidedb/raft/node.py:904-985 | So does a follower that dies while it takes a request, with its log cut or half replaced, and the term stored or not |
| `RaftDying.MergePartTaken` | oxidedb/raft/node.py:957-974 | After any number of the log writes of a request, storage holds a start of the sender's log that has all of it the follower's log had |
| `RaftReads.ReadIndexCovers` | oxidedb/raft/node.py:1220-1272 | The commit index a leader has after a quorum answered covers every entry any node had committed before the read began, even on a leader that has committed nothing in its own term |
| `RaftReads.ServedIff` | oxidedb/raft/node.py:1236-1272 | A read is served if and only if the node led when it began and is alone, or still leads that term and the peers that acknowledged it are a majority with it |
| `RaftReads.ServedCovers` | oxidedb/raft/node.py:1236-1272 | What is served, from the answers as they are counted, covers everything committed before the read began; alone, the commit index as it stands |
| `RaftReads.NothingNewer` | oxidedb/raft/node.py:1220-1272 | No leader of a later term existed before a quorum answered in this one |
| `RaftReads.LeadsThroughout` | oxidedb/raft/node.py:1264-1265 | A node that leads a term at both ends of a stretch led it throughout, so the second leadership check suffices |
| `RaftReads.NoReturn` | oxidedb/raft/node.py:418-442 | A leader that stopped leading a term never leads that term again |
| `RaftProtocol.LeaderCompleteness` | oxidedb/raft/node.py:755-774 | An index acknowledged by a quorum in a term is in every later leader's log |
| `RaftProtocol.CompleteAt` | oxidedb/raft/node.py:888-900 | That is so leader by leader in the order in which they were elected, which need not be that of their terms |
| `RaftProtocol.CommittedAgree` | oxidedb/raft/node.py:755-774 | Two committed prefixes agree on what both have |
| `RaftProtocol.LogMatching` | oxidedb/raft/node.py:957-971 | In any state of the protocol, an equal term at an index means an equal prefix |
| `RaftProtocol.ElectKeeps` | oxidedb/raft/node.py:528-569 | An election with a quorum of votes, and the no-op that opens its term, keep every protocol invariant |
| `RaftProtocol.GrantKeeps` | oxidedb/raft/node.py:888-900 | A vote for a candidate at least as up to date keeps every protocol invariant |
| `RaftProtocol.AcceptKeeps` | oxidedb/raft/node.py:957-987 | Taking a leader's suffix keeps every protocol invariant, acknowledgements included |
| `RaftProtocol.FalterKeeps` | oxidedb/raft/node.py:957-978 | A follower that dies on the way to a leader's log, and comes back in an older term without what it had acknowledged, keeps every protocol invariant |
| `RaftProtocol.ExtendKeeps` | oxidedb/raft/node.py:1151-1169 | A leader's append keeps every protocol invariant |
| `RaftNodeFacts.MajorityIndexCounts` | oxidedb/raft/node.py:755-766 | The commit rule picks an index at least `c` if and only if the peers that matched `c`, with the leader, are a majority |
| `RaftNodeFacts.MergeTakes` | oxidedb/raft/node.py:957-977 | A request either leaves the log alone or makes it exactly the sender's up to the request's end, and cuts nothing that agreed |
| `RaftNodeFacts.MergeMirrors` | oxidedb/raft/node.py:957-977 | Storage holds exactly the log after merging any request |
| `RaftNodeFacts.ApplyLoopHands` | oxidedb/raft/node.py:776-794 | The apply loop hands the machine the commands between the two indices, in order, no-ops left out |
| `RaftNodeFacts.LoadMirrors` | oxidedb/raft/storage.py:348-358 | Reading the stored entries above the snapshot gives the log in memory |
| `RaftSteps.AppendStep` | oxidedb/raft/node.py:904-987 | A request that is accepted leaves the follower's log equal to the leader's, reports its end, and commits no further than it |
| `RaftSteps.UpdateStep` | oxidedb/raft/node.py:755-774 | Committing by counting commits only an index of the leader's own term that a majority matched |
| `RaftSteps.VoteStep` | oxidedb/raft/node.py:870-902 | A grant is stored, is of the asked term, and takes no other candidate's vote of that term |
| `RaftSteps.LoadStep` | oxidedb/raft/node.py:245-275 | A restart gives the machine exactly the committed commands, and nothing past the commit index |
| `RaftAnswers.VoteIff` | oxidedb/raft/node.py:870-902 | For any node: a vote is given if and only if the term is not over, it was not given to another in that term, and the candidate's log is at least as far on; what is given is the last thing stored |
| `RaftAnswers.StandIff` | oxidedb/raft/node.py:418-442 | Whoever does not lead stands in the next term with its own vote, stored first, and leads at once if and only if it is alone |
| `RaftAnswers.VoteReplyIff` | oxidedb/raft/node.py:509-553 | A candidate wins if and only if this vote makes a majority of the group; one short of it the vote is counted, and a newer term ends it |
| `RaftAnswers.AppendIff` | oxidedb/raft/node.py:904-956 | For any node, compacted or not: a request is taken if and only if its term is not over and the entry before its first is the one held here; a refusal changes no log |
| `RaftAnswers.AppendTakes` | oxidedb/raft/node.py:957-987 | A request that is taken is held afterwards entry for entry, with everything before it; what came after its last stays if and only if all of it was held already; the match reported is the end of the log, and the commit index follows the leader as far as that |
| `RaftAnswers.MergeCommit` | oxidedb/raft/node.py:965-973 | A conflict takes the commit index back to before the first entry that was not held, and no further |
| `RaftAnswers.CommitIff` | oxidedb/raft/node.py:755-774 | Counting commits an index if and only if that one or a later one is of the leader's own term and matched by a majority |
| `RaftAnswers.FoldIff` | oxidedb/raft/node.py:801-842 | The applied prefix is folded if and only if folding is on and the interval is reached; what is written is the snapshot of the machine and then the compaction, and nothing above is lost |
| `RaftAnswers.FoldKeepsVotes` | oxidedb/raft/node.py:870-877 | Folding changes no vote a node gives and none it asks for |
| `RaftAnswers.ApplyAll` | oxidedb/raft/node.py:776-799 | Applying reaches the commit index, hands the machine exactly the commands up to it, and loses no entry that is not folded |
| `RaftAnswers.InstallIff` | oxidedb/raft/node.py:989-1051 | For any node: a snapshot is answered with success if and only if the term is not over, and success means everything it covers is applied; a node that had not takes the snapshot's state, index and term, and keeps of its log exactly what is above |
| `RaftAnswers.AnswerIff` | oxidedb/raft/node.py:669-690 | A success moves the peer to where it says it is; a refusal one entry back, no further than the first, and changes nothing else; a newer term ends the leading |
| `RaftAnswers.AnswerCommits` | oxidedb/raft/node.py:681-685 | After a success an index is committed if and only if it, or one after it, can be with the match that was reported |
| `RaftAnswers.RequestIff` | oxidedb/raft/node.py:612-660 | A peer is sent everything after its position, with the entry before it, and nothing if that is folded |
| `RaftAnswers.RefusalsEnd` | oxidedb/raft/node.py:597-690 | After at most as many refusals as its position is past the first entry, a peer in no newer term takes the request it is sent, or the snapshot it is then due |
| `RaftAnswers.ProposeIff` | oxidedb/raft/node.py:1151-1169 | Only a leader appends; the entry is stored first, and is the last of the log or folded with it |
| `RaftAnswers.ProposeCommits` | oxidedb/raft/node.py:1151-1169 | After an append likewise; a leader that is alone commits it at once |
| `RaftAnswers.LoadIff` | oxidedb/raft/node.py:245-275 | A node comes back a follower in the term and with the vote that are stored |
| `RaftPremises.TwoLeaders` | oxidedb/raft/node.py:509-524 | Without R1: a run of three nodes, all other premises kept, with two leaders of one term |
| `RaftPremises.EntryBeforeTerm` | oxidedb/raft/node.py:957-978 | A request of a newer term stores its entry before the term, so a crash between the two writes leaves storage that breaks R3 |
| `RaftLostTerm.CommandsDiffer` | oxidedb/raft/node.py:510-516 | Without R3: a run of five nodes, R1 kept throughout, in which two nodes apply different commands at index 2 |
| `RaftLostTerm.TermHeard` | oxidedb/raft/node.py:510-516 | A node that hears of a term in an answer is in it in memory and not in storage |
| `RaftLostTerm.EntryGivenUp` | oxidedb/raft/node.py:958-971 | The entry a quorum committed is cut from the log of one of them by an older leader, after a restart |
| `RaftVotes.OneVotePerTerm` | oxidedb/raft/node.py:870-902 | With no premise: whatever a node is asked, and after whichever storage write it dies, it gives no two candidates its vote in one term |
| `RaftVotes.HandleKeeps` | oxidedb/raft/node.py:418-442 | Every call, cut off anywhere, leaves a stored vote record that forgets no vote of its term |
| `RaftVotes.GivenIsSaved` | oxidedb/raft/node.py:888-900 | A vote that is given is in storage before it is given |
| `RaftReplay.MachineIsReplay` | oxidedb/raft/node.py:776-842 | Through appends, truncations, snapshots, installs and crashes between any two writes, the machine is the replay of the committed commands up to the applied index, and every entry from the snapshot to there is retained and is the committed one |
| `RaftReplay.StorageIsReplay` | oxidedb/raft/node.py:245-275 | Storage cut off after any write has no gap after its snapshot, and starting from it replays exactly what it says is committed |
| `RaftReplay.NextKeeps` | oxidedb/raft/node.py:776-1051 | Every event, a call served or cut off or a start, keeps both |
| `RaftReplay.AppendKeeps` | oxidedb/raft/node.py:904-987 | A request in any state of compaction keeps both, at every point between its writes |
| `RaftReplay.InstallKeeps` | oxidedb/raft/node.py:989-1051 | So does a snapshot from the leader |
| `RaftReplay.MergeOneKeeps` | oxidedb/raft/node.py:957-977 | Nothing committed is ever cut |
| `RaftReplay.LoadKeeps` | oxidedb/raft/node.py:245-275 | A node comes back as the replay of what its storage says is committed |
| `RaftReplay.SuffixKeptUnchecked` | oxidedb/raft/node.py:1034-1038 | An install keeps what the log has above the snapshot, even an entry of an older term (why R2 is a premise) |
| `RaftCompaction.MaybeSnapshotKeeps` | oxidedb/raft/node.py:801-842 | Folding the applied prefix keeps both, cut off between the snapshot and the compaction too |
| `RaftCompaction.SnapshotHolds` | oxidedb/raft/storage.py:367-373 | A snapshot of what is committed may take the place of everything it covers, before and after the covered entries are deleted |
| `MemoryRaftNode.MemoryRaftNode.constructor` | oxidedb/raft/node.py:139-275 | A new node is what its storage loads as |
| `MemoryRaftNode.MemoryRaftNode.LoadFromStorage` | oxidedb/raft/node.py:245-275 | Loading in place computes `Load`, in memory and in storage |
| `MemoryRaftNode.MemoryRaftNode.StartElection` | oxidedb/raft/node.py:418-442 | In place, `StartElection`, storage writes included |
| `MemoryRaftNode.MemoryRaftNode.CheckVoteCount` | oxidedb/raft/node.py:528-553 | In place, `CheckVotes`; the loop over peers resets every position |
| `MemoryRaftNode.MemoryRaftNode.ResetPositions` | oxidedb/raft/node.py:544-549 | Every peer is to be sent what comes next and is known to hold nothing |
| `MemoryRaftNode.MemoryRaftNode.TakeVoteReply` | oxidedb/raft/node.py:509-524 | In place, `HandleVoteReply` |
| `MemoryRaftNode.MemoryRaftNode.AppendOwn` | oxidedb/raft/node.py:555-569 | In place, `LeaderAppend` |
| `MemoryRaftNode.MemoryRaftNode.UpdateCommitIndex` | oxidedb/raft/node.py:755-774 | In place, `UpdateCommit` |
| `MemoryRaftNode.MemoryRaftNode.ApplyCommittedEntries` | oxidedb/raft/node.py:776-799 | The apply loop, in place, computes `ApplyCommitted` |
| `MemoryRaftNode.MemoryRaftNode.MaybeSnapshot` | oxidedb/raft/node.py:801-842 | In place, `MaybeSnapshot`, the snapshot written before the log is compacted |
| `MemoryRaftNode.MemoryRaftNode.TakeAppendReply` | oxidedb/raft/node.py:669-687 | In place, `HandleAppendReply` |
| `MemoryRaftNode.MemoryRaftNode.RequestVote` | oxidedb/raft/node.py:870-902 | In place, `HandleVoteRequest`: the reply, the fields and the storage |
| `MemoryRaftNode.MemoryRaftNode.AppendEntries` | oxidedb/raft/node.py:904-987 | In place, `HandleAppendRequest`: the reply, the fields and the storage writes in their order |
| `MemoryRaftNode.MemoryRaftNode.MergeEntries` | oxidedb/raft/node.py:957-974 | The loop over the entries, in place, computes `Merge` |
| `MemoryRaftNode.MemoryRaftNode.MergeEntry` | oxidedb/raft/node.py:957-974 | One entry skipped, appended, or put in place of the suffix it disagrees with, in memory and in storage |
| `MemoryRaftNode.MemoryRaftNode.FollowCommit` | oxidedb/raft/node.py:982-985 | In place, `AdvanceCommit` |
| `MemoryRaftNode.MemoryRaftNode.InstallSnapshot` | oxidedb/raft/node.py:989-1051 | In place, `HandleInstallRequest` |
| `MemoryRaftNode.MemoryRaftNode.Restore` | oxidedb/raft/node.py:1034-1049 | The machine swapped for the snapshot's, and everything it covers dropped, in memory and in storage |
| `MemoryRaftNode.MemoryRaftNode.ServeRead` | oxidedb/raft/node.py:1252-1272 | In place, the loop over the answers, the two checks and the counting compute `ServedIndex`; a read that is not served changes nothing |
| `MemoryRaftNode.MemoryRaftNode.Propose` | oxidedb/raft/node.py:1053-1080 | Admitted exactly when this node leads and the shard is not frozen against the command; a refusal changes nothing and says exactly whether it is a move's freeze or another's |
| `MemoryRaftNode.FrozenNodeIsFixed` | oxidedb/raft/node.py:1099-1123 | Whatever sequence of commands a frozen node admits, and however it reads its commands, a key without a lock stays as it was |
| `RaftStorage.LogKeyOrder` | oxidedb/raft/storage.py:317-319 | The order of the log's keys is the order of the indices |
| `RaftStorage.TailRange` | oxidedb/raft/storage.py:338-341 | The range a truncation deletes is exactly the entries from an index on |
| `RaftStorage.HeadRange` | oxidedb/raft/storage.py:343-346 | The range a compaction deletes is exactly the entries up to an index |
| `RaftStorage.LoadLogUnique` | oxidedb/raft/storage.py:348-358 | A list of exactly the stored entries in index order is the log they load as |
| `RaftStorage.EngineRaftStorage.SaveMeta` | oxidedb/raft/storage.py:321-324 | The engine then holds the state after `SaveMeta`, notes untouched |
| `RaftStorage.EngineRaftStorage.LoadMeta` | oxidedb/raft/storage.py:326-331 | Reads back the term and vote, nothing stored being term 0 and no vote |
| `RaftStorage.EngineRaftStorage.AppendLogEntry` | oxidedb/raft/storage.py:333-336 | The entry is stored at its index, in place of any other |
| `RaftStorage.EngineRaftStorage.TruncateLog` | oxidedb/raft/storage.py:338-341 | One range delete drops exactly the entries from an index on |
| `RaftStorage.EngineRaftStorage.CompactLog` | oxidedb/raft/storage.py:343-346 | One range delete drops exactly the entries up to an index |
| `RaftStorage.EngineRaftStorage.LoadLog` | oxidedb/raft/storage.py:348-358 | The scan gives the stored entries, all of them, in index order |
| `RaftStorage.EngineRaftStorage.SaveCommitIndex` | oxidedb/raft/storage.py:360-361 | The commit index is stored, and nothing else changes |
| `RaftStorage.EngineRaftStorage.LoadCommitIndex` | oxidedb/raft/storage.py:363-365 | Reads it back, 0 when none is stored |
| `RaftStorage.EngineRaftStorage.SaveSnapshot` | oxidedb/raft/storage.py:367-373 | One record holds index, term and data |
| `RaftStorage.EngineRaftStorage.LoadSnapshot` | oxidedb/raft/storage.py:375-380 | Reads it back |
| `RaftStorage.EngineRaftStorage.SaveAdmin` | oxidedb/raft/storage.py:382-383 | A note changes nothing of the Raft state |
| `RaftStorage.EngineRaftStorage.LoadAdmin` | oxidedb/raft/storage.py:385-386 | Reads a note back |
| `RaftStorage.EngineRaftStorage.DeleteAdmin` | oxidedb/raft/storage.py:388-389 | Drops one note and nothing of the Raft state |
| `RaftStorage.EngineRaftStorage.Clear` | oxidedb/raft/storage.py:391-394 | Leaves no state and no note |
| `ByteOrder.BigEndianOrder` | oxidedb/storage/mvcc.py:51-54 | Fixed-width big-endian numbers compare as the numbers do |
| `ByteOrder.SeparatorOrder` | oxidedb/storage/mvcc.py:66-67 | With a zero byte after each key and none in one, entries compare as (key, rest) |
| `ByteOrder.BoundOrder` | oxidedb/storage/mvcc.py:196-219 | A key used as a range bound never cuts inside another key's entries |
| `ByteOrder.UpperBoundOrder` | oxidedb/storage/mvcc.py:70-77 | A key followed by a one byte is above all of that key's entries and below the next key's |
| `MvccCodec.StoredOrder` | oxidedb/storage/mvcc.py:51-77 | Stored keys of one namespace compare as (key, timestamp) |
| `MvccCodec.SplitStored` | oxidedb/storage/mvcc.py:220-229 | Splitting a stored key gives back the key and timestamp it was made of |
| `MvccCodec.StoredSplit` | oxidedb/storage/mvcc.py:220-229 | And putting the split parts together gives back the stored key |
| `MvccCodec.WholeKeyRange` | oxidedb/storage/mvcc.py:70-77 | The range of one key holds exactly that key's entries |
| `MvccCodec.VersionRange` | oxidedb/storage/mvcc.py:143-156 | The range up to a timestamp holds exactly that key's entries up to it |
| `MvccScans.LastIsNewest` | oxidedb/storage/mvcc.py:143-156 | The last row of such a scan is the newest entry the row holds there |
| `MvccScans.WalkedAll` | oxidedb/storage/mvcc.py:181-219 | The walk over every version of a range reports the newest visible one of each key, and of no other key |
| `Engine.MemoryEngine.PutBatch` | oxidedb/storage/engine.py:100-103 | The items are put one after another |
| `Engine.MemoryEngine.DeleteRange` | oxidedb/storage/engine.py:105-109 | Exactly the keys of the half-open range go |
| `Engine.MemoryEngine.Scan` | oxidedb/storage/engine.py:111-114 | Exactly the rows of the half-open range, in byte order |
| `MvccStorage.MVCCStorage.GetVersion` | oxidedb/storage/mvcc.py:124-156 | Finds the newest version at or below the timestamp, a tombstone hiding what is older |
| `MvccStorage.MVCCStorage.Set` | oxidedb/storage/mvcc.py:158-161 | Adds one version to one row |
| `MvccStorage.MVCCStorage.Delete` | oxidedb/storage/mvcc.py:163-168 | Adds a tombstone to one row |
| `MvccStorage.MVCCStorage.ScanVersions` | oxidedb/storage/mvcc.py:181-219 | The loop over a byte range returns, in key order, exactly the keys a point read finds, with its values and versions |
| `MvccStorage.MVCCStorage.GetLatestVersion` | oxidedb/storage/mvcc.py:231-239 | The newest version of the row |
| `MvccStorage.MVCCStorage.GetLatestWrite` | oxidedb/storage/mvcc.py:241-258 | The newest write record of the row |
| `MvccStorage.MVCCStorage.PutLock` | oxidedb/storage/mvcc.py:260-268 | Puts one lock on one row |
| `MvccStorage.MVCCStorage.GetLock` | oxidedb/storage/mvcc.py:284-288 | The lock of a start timestamp |
| `MvccStorage.MVCCStorage.GetNewestLock` | oxidedb/storage/mvcc.py:290-299 | The newest lock of the row |
| `MvccStorage.MVCCStorage.RemoveLock` | oxidedb/storage/mvcc.py:301-304 | Takes one lock off one row |
| `MvccStorage.MVCCStorage.IterLocks` | oxidedb/storage/mvcc.py:306-321 | Lists every lock of every row, once, by key and then by start timestamp, and nothing else |
| `MvccStorage.MVCCStorage.WriteWriteRecord` | oxidedb/storage/mvcc.py:334-337 | Adds one write record to one row |
| `MvccStorage.MVCCStorage.Dump` | oxidedb/storage/mvcc.py:350-353 | Lists everything stored |
| `MvccStorage.MVCCStorage.Load` | oxidedb/storage/mvcc.py:355-359 | Leaves exactly the dumped rows, whatever was there before |
| `MvccStorage.DumpIsAll` | oxidedb/storage/mvcc.py:350-359 | Round trip: loading what was dumped gives the engine it was dumped from |
| `StateMachine.MVCCStateMachine.Apply` | oxidedb/raft/state_machine.py:229-256 | Over the byte encoding, every command does to the shard what the row-level model says, with its code |
| `StateMachine.MVCCStateMachine.ApplySet` | oxidedb/raft/state_machine.py:258-271 | One row changes as the row-level SET does |
| `StateMachine.MVCCStateMachine.ApplyDelete` | oxidedb/raft/state_machine.py:273-279 | One row changes as the row-level DELETE does |
| `StateMachine.MVCCStateMachine.ApplyPrewrite` | oxidedb/raft/state_machine.py:281-304 | One row changes as the row-level PREWRITE does, or is refused with its code |
| `StateMachine.MVCCStateMachine.ApplyCommit` | oxidedb/raft/state_machine.py:306-333 | One row changes as the row-level COMMIT does, or is refused with its code |
| `StateMachine.MVCCStateMachine.ApplyRollback` | oxidedb/raft/state_machine.py:335-351 | One row changes as the row-level ROLLBACK does, or is refused with its code |
| `StateMachine.MVCCStateMachine.ApplyCleanLock` | oxidedb/raft/state_machine.py:353-364 | One row changes as the row-level CLEAN_LOCK does |
| `StateMachine.MVCCStateMachine.Get` | oxidedb/raft/state_machine.py:366-404 | A point read finds what the row-level read does, blocked by an older lock |
| `StateMachine.MVCCStateMachine.ScanVersions` | oxidedb/raft/state_machine.py:424-456 | Refuses exactly when some key of the range would be refused by a point read, and otherwise returns, in key order, exactly the keys, values and versions point reads find |
| `StateMachine.MVCCStateMachine.Snapshot` | oxidedb/raft/state_machine.py:477-483 | Carries the whole shard |
| `StateMachine.MVCCStateMachine.Restore` | oxidedb/raft/state_machine.py:485-492 | Leaves exactly the shard the snapshot was taken of |
| `Shards.Replicas` | oxidedb/raft/state_machine.py:229-364 | Replica determinism: a replica that goes through a snapshot at any point, and stamps locks by its own clock, answers every later command and read as the other does |
| `Shards.FirstCommitterWins` | oxidedb/raft/state_machine.py:281-333 | Over every command log a key never holds two locks, and of two commits of a key the later starts no earlier than the earlier commits |
| `Shards.FrozenIsFixed` | oxidedb/raft/state_machine.py:59-71 | No sequence of commands a frozen shard admits changes anything about a key without a lock |
| `RowLaws.PrewriteIff` | oxidedb/raft/state_machine.py:281-304 | A prewrite succeeds if and only if the row has no lock, no write record and no version above the start, which is in range; otherwise nothing changes and the first of these that fails gives the code |
| `RowLaws.PrewriteSeesAll` | oxidedb/raft/state_machine.py:281-304 | Over every log: a prewrite that succeeds started no earlier than anything the key ever held, plain writes included |
| `RowLaws.CommitIff` | oxidedb/raft/state_machine.py:306-333 | A commit succeeds if and only if the row holds the transaction's lock and the timestamp is in range; readers then find the locked value from the commit timestamp to the next version, and nothing else has changed |
| `RowLaws.RollbackIff` | oxidedb/raft/state_machine.py:335-351 | A rollback fails only on another's lock; after it the transaction holds none, and nothing else has changed |
| `RowLaws.CleanLockIff` | oxidedb/raft/state_machine.py:353-364 | Exactly the newest lock goes, if it is the one meant or any is |
| `RowLaws.SetIff` | oxidedb/raft/state_machine.py:258-271 | A SET succeeds if and only if its key and timestamps are in range; readers find it from its timestamp to the next version and what they did before elsewhere |
| `RowLaws.DeleteIff` | oxidedb/raft/state_machine.py:273-279 | The same of a DELETE |
| `RowLaws.VisibleIff` | oxidedb/storage/mvcc.py:124-156 | What is visible at a timestamp is the newest version no later, and nothing if that is a tombstone |
| `RowLaws.ReadIff` | oxidedb/raft/state_machine.py:366-404 | A read is refused if and only if there is a lock and all locks are older than it; one whose own lock is the newest reads that, and any other what is visible |
| `RowLaws.FreezeIff` | oxidedb/raft/state_machine.py:59-71 | A freeze refuses exactly the commands that could change some row without a lock |
| `Tso.TimestampsOnce` | oxidedb/tso/tso.py:88-117 | Over every interleaving of any number of clients, lost allocations, snapshots of the counter and restarts that load the last one and apply the log since again: no number twice, each client's go up, none inside a run skipped |
| `Tso.RestartIff` | oxidedb/tso/tso.py:67-76 | A restart brings the counter back to where it was if and only if the log is applied again or nothing was allocated since the snapshot |
| `Tso.StaleRestoreRepeats` | oxidedb/tso/tso.py:74-76 | Loading a snapshot and not applying the log hands out a number twice, for every run length |
| `Tso.BatchDecides` | oxidedb/tso/tso.py:97-117 | That holds for every interleaving if and only if runs have at least one number and answers carry them |
| `Tso.UnansweredRepeats` | oxidedb/tso/tso.py:97-117 | Answers without their run make two clients hand out 0 |
| `Tso.EmptyRunRepeats` | oxidedb/tso/tso.py:42-48 | Runs of no numbers make a client hand out a number no greater than its last |
| `Tso.TSOClient.GetTimestamp` | oxidedb/client/remote_group_client.py:356-379 | One number out of the run in hand, read as half-open, or out of a new one |
| `Percolator.PrimaryDecides` | oxidedb/transaction/coordinator.py:288-310 | In every run with any number of coordinators and resolvers stopping anywhere: a secondary commits only after its primary did, and at the primary's commit timestamp |
| `Percolator.NextKeeps` | oxidedb/transaction/lock_resolver.py:104-166 | Every message sent, delivered or lost keeps what that rests on |
| `Snapshots.RepeatableReads` | oxidedb/raft/state_machine.py:388-404 | Once a key is read at a start timestamp, every later answered read of it before the transaction's own prewrites gives the same value (premise T1) |
| `Snapshots.NextKeeps` | oxidedb/transaction/coordinator.py:256-286 | Every step keeps what that rests on: a newer commit timestamp than any answered read's, or a lock that blocks the read |
| `Serializability.Serializable` | oxidedb/transaction/coordinator.py:244-336 | In every state of every orderly run, each committed transaction, run at its turn by commit timestamp (a read-only one by start), finds every value it read (premises T1, T2) |
| `Serializability.SerialOutcome` | oxidedb/transaction/coordinator.py:244-336 | And once all is settled the store that serial execution leaves is the database |
| `Serializability.OrderExists` | oxidedb/transaction/coordinator.py:267-273 | There is such an order |
| `Serializability.NextSerial` | oxidedb/transaction/coordinator.py:244-336 | Every step keeps the serialization invariant |
| `SerializabilityLimits.UnsettledSkew` | oxidedb/transaction/coordinator.py:308-334 | Without the settling half of T2: a run with a write skew, in which two committed transactions each miss what the other wrote; no order of the committed transactions whatever explains what they read |
| `SerializabilityLimits.HalfRolledBack` | oxidedb/transaction/lock_resolver.py:110-119 | Without the other half: a secondary's lock is rolled back under a held primary, and half of a committed transaction is gone |
| `Coordinator.CallsSerialize` | oxidedb/transaction/coordinator.py:244-336 | Whatever calls are made of the coordinator, in whatever order: its committed transactions, run one at a time by commit timestamp, find every value they read |
| `Coordinator.CallsLeave` | oxidedb/transaction/coordinator.py:244-336 | And they leave, key for key, the database as it is, whether they read anything or not |
| `Coordinator.TransactionCoordinator.Begin` | oxidedb/transaction/coordinator.py:117-127 | A new transaction at a timestamp above all before it |
| `Coordinator.TransactionCoordinator.AddWrite` | oxidedb/transaction/coordinator.py:129-136 | Adds a write exactly while the transaction is open |
| `Coordinator.TransactionCoordinator.ReadAt` | oxidedb/transaction/coordinator.py:167-222 | In any phase, answered exactly when no older lock blocks it, with the value the row has; remembered in the read set while the transaction is open |
| `Coordinator.TransactionCoordinator.PrewriteAll` | oxidedb/transaction/coordinator.py:347-391 | Succeeds if and only if the keys are valid and different, none is locked, and none has a record or version above the start; then all are locked, and otherwise none of this transaction's locks is left; nothing is published and no other lock touched |
| `Coordinator.TransactionCoordinator.PrewriteOne` | oxidedb/transaction/coordinator.py:376-391 | Succeeds if and only if the key is valid and free and nothing was written there after the start; otherwise the transaction is aborted; no other row is touched |
| `Coordinator.TransactionCoordinator.ValidateReadSet` | oxidedb/transaction/coordinator.py:312-336 | True if and only if nothing read has a write record above the start timestamp |
| `Coordinator.TransactionCoordinator.ValidateOne` | oxidedb/transaction/coordinator.py:312-336 | True if and only if this key has no write record above the start timestamp; otherwise the transaction is aborted and the commit lock free |
| `Coordinator.TransactionCoordinator.RollbackAll` | oxidedb/transaction/coordinator.py:393-401 | No lock of the transaction is left and nothing is published |
| `Coordinator.TransactionCoordinator.CommitSecondaries` | oxidedb/transaction/coordinator.py:413-419 | Every secondary gains the write at the commit timestamp, and no row anything else |
| `Coordinator.TransactionCoordinator.CommitDecided` | oxidedb/transaction/coordinator.py:280-310 | Draws the next timestamp; succeeds if and only if it is in range, with the primary and then the rest published there and nothing else, or publishes nothing |
| `Coordinator.TransactionCoordinator.CommitLocked` | oxidedb/transaction/coordinator.py:267-310 | Under the commit lock: succeeds if and only if everything read is still fresh and there is a timestamp to commit at |
| `Coordinator.TransactionCoordinator.Commit` | oxidedb/transaction/coordinator.py:244-310 | Succeeds if and only if the transaction is open and writes nothing, or can lock all it writes, has read nothing that was committed since, and there is a timestamp left; its rows then gain exactly its writes at that timestamp. Otherwise an open transaction ends aborted, with nothing published and none of its locks left. The call is an orderly run of the transaction steps, ending with everything settled |
| `Coordinator.TransactionCoordinator.RollbackTransaction` | oxidedb/transaction/coordinator.py:421-438 | Refused exactly for an unknown or committed transaction, changing nothing; otherwise aborted, with nothing published and, if it had begun to commit, none of its keys locked; and an orderly run |
| `LockResolver.LockResolver.ResolveLock` | oxidedb/transaction/lock_resolver.py:142-166 | With anything the others do between any two of its calls, all the resolver does is a run of Percolator steps, so `Percolator.PrimaryDecides` holds of it; success means the lock it saw is gone; and with nobody else about it does exactly what `SettlesByPrimary` is about |
| `LockResolver.LockResolver.PrimaryCommitTs` | oxidedb/transaction/lock_resolver.py:121-131 | The commit timestamp, exactly if the primary's newest record is the transaction's, and it is then on record as seen |
| `LockResolver.LockResolver.SettleForward` | oxidedb/transaction/lock_resolver.py:157-162 | Asks for the timestamp again and commits at what it is told then; gives up if the record is no longer the newest |
| `LockResolver.LockResolver.SettleBack` | oxidedb/transaction/lock_resolver.py:115-120 | Leaves a lock still in its time alone, and rolls any other back |
| `LockResolver.RollsForward` | oxidedb/transaction/lock_resolver.py:157-162 | A lock seen and a primary's record seen, each at whatever earlier moment, call for a commit that is a step of the protocol and keeps its invariant |
| `LockResolver.RollsBack` | oxidedb/transaction/lock_resolver.py:164-165 | So is rolling a lock back |
| `LockResolver.SettlesByPrimary` | oxidedb/transaction/lock_resolver.py:104-166 | A lock goes if and only if the primary's newest record is its transaction's, or the transaction's lock there is not the newest or is past its time: published at the primary's commit timestamp in the first case, dropped otherwise; nothing else changes |
| `LockResolver.StatusIff` | oxidedb/transaction/lock_resolver.py:104-141 | Committed if and only if the primary's newest record is the transaction's; pending if and only if not, and its lock is the newest there and was taken less than the time allowed ago |
| `LockResolver.OlderCommitForgotten` | oxidedb/transaction/lock_resolver.py:110-119 | Only the newest record is looked at: a lock of a transaction that committed before another did on the primary is rolled back (why all-or-nothing is not claimed of the resolver) |
| `Routing.TablesPartition` | oxidedb/metadata/service.py:226-455 | Every reachable table has disjoint ranges covering exactly the keys the initial ones did; a shard that has nodes names only one of them as leader |
| `Routing.PartitionIff` | oxidedb/metadata/service.py:226-239 | Every table stays disjoint if and only if the initial ranges are: nothing checks them |
| `Routing.ApplyKeeps` | oxidedb/metadata/service.py:206-455 | Every command keeps that, and the cover |
| `Routing.SplitMoves` | oxidedb/metadata/service.py:279-351 | A split sends the keys from the split point to the old end to the new shard, and no other key anywhere |
| `RoutingLaws.SplitPlaces` | oxidedb/metadata/service.py:279-351 | A split that goes through puts the new shard from the split point to the old end, on exactly the nodes and addresses asked for, without a leader; the old shard differs in its end only, every other in nothing; and proposed again at once it succeeds |
| `RoutingLaws.SplitIff` | oxidedb/metadata/service.py:279-351 | In a table whose shards are disjoint and not empty, a split into a new id goes through if and only if the shard is there and the point strictly inside its range; the codes tell which fails |
| `RoutingLaws.StaysNonEmpty` | oxidedb/metadata/service.py:279-351 | No command ever leaves a shard without a range |
| `RoutingLaws.SplitTakenIff` | oxidedb/metadata/service.py:353-371 | A split into a taken id changes nothing and succeeds if and only if it is the one that took it |
| `RoutingLaws.MoveIff` | oxidedb/metadata/service.py:373-455 | A move changes the table if and only if its nodes can serve, the shard is on the nodes it is to leave, and the two sets share none; the shard is then on the new nodes at their addresses, with its range and without a leader; each refusal has its code |
| `RoutingLaws.SetNodesIff` | oxidedb/metadata/service.py:241-257 | Nodes and addresses are exactly those given, and the leader stays if and only if it is one of them |
| `RoutingLaws.ReportIff` | oxidedb/metadata/service.py:259-277 | A report is taken if and only if it comes from a node that serves the shard, where any does, and is of a later term than the leader it replaces |
| `RoutingLaws.LeaderTermsRise` | oxidedb/metadata/service.py:259-277 | Through any commands that leave a shard on its nodes, the term of its leader never goes back and no older report is taken |
| `RoutingLaws.InitIff` | oxidedb/metadata/service.py:226-239 | A first table is taken once, with exactly the ranges given and nobody serving them |
| `Routing.OthersMoveNothing` | oxidedb/metadata/service.py:241-277 | Commands that move no boundary move no key |
| `Routing.SplitRepeats` | oxidedb/metadata/service.py:353-371 | A split proposed again after it went through and after any other commands never happens twice; it succeeds if and only if the shard still ends at the split point and the new one is on the nodes asked for |
| `Routing.MoveRepeatsIff` | oxidedb/metadata/service.py:373-455 | A move proposed again after any other commands moves the shard a second time if and only if the shard is by then back on the nodes it was to leave, and succeeds without moving it exactly where it put it |
| `Routing.MoveOnce` | oxidedb/metadata/service.py:373-455 | So not twice if no command in between placed the shard there |
| `Routing.MovedTwice` | oxidedb/metadata/service.py:373-455 | And twice after a move there and back, whatever the addresses |
| `Routing.VersionCounts` | oxidedb/metadata/service.py:206-224 | A refusal changes nothing; a change moves the version by one |
| `Routing.LeaderBeforeNodes` | oxidedb/metadata/service.py:259-277 | Before a shard has nodes any node may be named its leader |
| `Routing.LocateOwner` | oxidedb/shard/router.py:34-44 | Whatever the order of the map, a key goes to the shard that owns it |
| `Routing.LocateNobody` | oxidedb/shard/router.py:34-44 | And a key nobody owns goes to shard 0 |
| `Routing.DefaultsPartition` | oxidedb/shard/router.py:17-31 | The default ranges are disjoint and hold exactly the keys below 0xff, the empty key only with one shard |
| `Routing.EvenWidths` | oxidedb/shard/router.py:17-31 | All default ranges but the last are equally wide, and that by as much as goes into 256 |
| `MetadataService.DefaultRangeMap` | oxidedb/shard/router.py:17-31 | The loop fills exactly the default ranges |
| `MetadataService.MetadataStateMachine.Apply` | oxidedb/metadata/service.py:206-224 | In place, every command does what the table function says, with its code |
| `MetadataService.MetadataStateMachine.ApplySplit` | oxidedb/metadata/service.py:279-371 | In place, a split, or the recognition of one |
| `MetadataService.MetadataStateMachine.Snapshot` | oxidedb/metadata/service.py:496-497 | Carries the table, in id order |
| `MetadataService.MetadataStateMachine.Restore` | oxidedb/metadata/service.py:499-508 | Puts exactly the table back |
| `ClientWalk.AskShard` | oxidedb/client/routing.py:370-469 | Terminates for any answers over a finite set of addresses; reads the table again at most `tableReads - 1` times; between two reads asks no address twice by one route; stops at the first answer. It reads the table again only when every reachable replica, and every reachable address a refusal named, was asked, and gives up only then with no read left, or when the table names nobody; it then hands back the last refusal, and is fit to be started again |
| `ClientWalk.TakeRefusal` | oxidedb/client/routing.py:183-202 | A refusal never adds to what is left to ask in a round, and says exactly whether anything is |
| `ClientWalk.WaitingAll` | oxidedb/client/routing.py:183-202 | No reachable replica that has not been asked is left out of the queue |
| `ClientWalk.NeverThrice` | oxidedb/client/routing.py:281-339 | So no address is asked three times between two reads of the table |
| `ClientWalk.ShardLeaders.LeaderForShard` | oxidedb/client/routing.py:83-126 | Hands out the hint, then the queue, then the table's leader, and notes it as asked |
| `ClientWalk.ShardLeaders.RefusedWith` | oxidedb/client/routing.py:183-202 | A name not asked yet becomes the hint; otherwise the replicas are queued; says whether there is anywhere left |
| `ShardMoveProof.NoRowLost` | oxidedb/raft/recovery_runner.py:441-536 | At every point of every run, with a crash and resume anywhere and proposals lost, late or with other addresses: the group the table names shows the newest acknowledged version of every key at its own timestamp, and not both groups admit new rows (premises M1 to M4) |
| `ShardMoveProof.NextKeeps` | oxidedb/raft/recovery_runner.py:831-1058 | Every step that keeps M4 keeps the invariant of a move |
| `ShardMoveLimits.UnsafeLoses` | oxidedb/raft/recovery_runner.py:831-1058 | M4 asks for nothing that is not needed: in every state a move can be in, each step it leaves out leads in at most three more steps to a lost row or to two groups that take rows |
| `ShardMoveLimits.SafeIff` | oxidedb/raft/recovery_runner.py:831-1058 | A step keeps the invariant if and only if it keeps M4 |
| `ShardMoveProof.WriteShowsIff` | oxidedb/raft/recovery_runner.py:843-871 | A group goes on showing the newest version of every key through a write if and only if the write is not from under a deletion the group does not hold |
| `ShardMoveProof.HarmlessIff` | oxidedb/raft/recovery_runner.py:843-871 | A copy on its way stays harmless through a write if and only if the write is not a newest version the copy would undo |
| `ShardMoveProof.HearRefusedIff` | oxidedb/raft/recovery_runner.py:1035-1058 | Giving the shard back on a refusal keeps the invariant if and only if no proposal that was sent can still land |
| `ShardMoveLimits.RefusedLoses` | oxidedb/raft/recovery_runner.py:935-941 | And otherwise both groups take rows, at most one step later |
| `ShardMoveLimits.DeletionForgotten` | oxidedb/raft/recovery_runner.py:843-871 | A whole run: a deletion is not copied, and a write without a timestamp brings the key back |
| `ShardMoveLimits.DeletionUndone` | oxidedb/raft/recovery_runner.py:831-881 | A whole run: a copy that lands again undoes a deletion at its own timestamp |
| `ShardMoveLimits.RefusedTooSoon` | oxidedb/raft/recovery_runner.py:915-941 | A whole run: an unanswered proposal lands after a later one, with an address missing, was refused and the shard given back |
| `ShardMoveProof.SwitchShows` | oxidedb/raft/recovery_runner.py:926-941 | When the table switches, every row of the new group shows what the old one's did |
| `ShardMoveProof.FrozenWrite` | oxidedb/raft/state_machine.py:59-71 | What a frozen source still admits changes no row of the range |
| `ShardMoveProof.LandCopyKeeps` | oxidedb/raft/recovery_runner.py:831-881 | A copy that lands at once, late or again changes nothing a reader sees |
| `ShardMoveProof.ProposalEffect` | oxidedb/metadata/service.py:373-455 | With any addresses, a proposal lands if and only if the set asked for can serve at them; once it has landed, another changes nothing and succeeds only with the same addresses |
| `RecoveryRunner.RecoveryRunner.MoveShard` | oxidedb/raft/shard_server.py:848-930 | The whole call is a run of the modelled steps; a lock in the range gives the shard back at once, and without one it is done, given back or left frozen exactly as `FinishMove` says |
| `RecoveryRunner.RecoveryRunner.FinishMove` | oxidedb/raft/recovery_runner.py:441-536 | Done if and only if every row gets across, the table answers and the nodes can serve; given back if and only if they cannot; and otherwise frozen with its note. Given back, the invariant holds if and only if no proposal can still land |
| `RecoveryRunner.RecoveryRunner.ResumeMigration` | oxidedb/raft/recovery_runner.py:774-829 | A side that comes back finishes a move the table already names, otherwise makes it, with the same ends as `FinishMove`, and leaves everything alone if the table names neither set |
| `RecoveryRunner.RecoveryRunner.CopyRows` | oxidedb/raft/recovery_runner.py:831-881 | Succeeds if and only if every row was across already or was taken and heard to be; success means every row of the source is in the new group at its version |
| `RecoveryRunner.RecoveryRunner.MoveRow` | oxidedb/raft/recovery_runner.py:1173-1201 | Succeeds if and only if it is heard and its record is in range; the row then reads in the new group as in the old, with the record of whoever committed it; no other row is touched |
| `RecoveryRunner.RecoveryRunner.ProposeMove` | oxidedb/raft/recovery_runner.py:883-949 | Unanswered if and only if no attempt is heard; heard, it is accepted if and only if the nodes can serve at the addresses of this call (and, where the table names them already, at the same ones); the table then names the new group if and only if it did or one attempt reached it |
| `RecoveryRunner.RecoveryRunner.CommitMove` | oxidedb/raft/recovery_runner.py:951-1033 | The note goes and the old group with it |
| `RecoveryRunner.RecoveryRunner.AbortMove` | oxidedb/raft/recovery_runner.py:1035-1058 | On any refusal the source takes rows again and the new group is put aside; the invariant survives if and only if no proposal that was sent can still land |

## Left out

- gRPC servers, generated messages, channels and the network client: messages are datatypes in a set that may lose, repeat or reorder them.
- Timers, threads and pools: an election timeout, a heartbeat or a retry is an action that may happen at any time; a lock-held block is one action.
- Compaction and snapshot installs in the whole group (premise R2).
- Clock reads: the moment a lock is stamped with, and the age the resolver sees, are parameters.
- The wait for a proposal's result, its timeouts, and the drain window.
- SQLite, files, directory renames and `JSONFileStorage`; packed records are datatypes, as if packing were one-to-one.
- SQL, the command line, process start-up, publishers, caches, cleaners and liveness.
- Copying for a split, and the split's own recovery: its copy ignores the answers it gets.
- The walk over a group's seeds in `remote_group_client._ask`: the same shape as the shard walk, with less state.
- The message text of refusals; codes are kept.
- MemoryRaftNode.MemoryRaftNode.Propose: models admission and the append; what the caller is told after waiting for the commit is left out.
- MemoryRaftNode.MemoryRaftNode.MaybeSnapshot: the machine can always be serialised and the write never fails.
- RaftStorage.EngineRaftStorage.AppendLogEntry: indices are below 2^64, as eight bytes cannot hold more.
- RaftRuns.AppliedAgree: needs R3, which is a condition on each restart, and is not shown to be necessary for every run that is safe.
- RaftReads.ReadIndexCovers: needs that no older acknowledgement of a confirming peer is counted in between, as the match index may go down.
- ClientWalk.AskShard: the reachable addresses and the table are fixed between two reads of it.
- Tso.TSOClient.GetTimestamp: the batch reader of several numbers at once is a loop over it and is not modelled.
- Plain setters and lookups (the freeze flag, `put`, `get` and `delete` of the engine, the counter's own methods) are in the model and have no row: what they are for is stated by the lemmas and classes that use them.
- Coordinator.TransactionCoordinator.ReadAt: a lock in the way is answered at once instead of being waited for and resolved; a read made after the transaction has begun to commit or has ended is answered and not added to its read set.
- Coordinator.TransactionCoordinator.CommitSecondaries: the source hands the secondaries to a pool and returns before they are done; here they are done when the call returns (premise T2).
- Coordinator.TransactionCoordinator.RollbackTransaction: an aborted transaction is marked so before its locks are given back, the source marks it after; `prewrite` called on its own is not modelled.
- RecoveryRunner.RecoveryRunner.ProposeMove: a shard that is not in the table, or on nodes that are neither set, is not proposed for. The set a proposal expects to replace is always the source's; read from a table that has already switched it would be the target's, which the table answers in the same way.
- RecoveryRunner.RecoveryRunner.MoveShard: which nodes hold groups, ports and storages on this side is not modelled, only what the two groups hold and whether they are open.

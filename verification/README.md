# Sandstore: a model in Dafny, with proofs

Sandstore is a replicated file store. Its metadata is a state machine replicated by a durable Raft
log; its bytes are written in chunks with a two-phase protocol and found again through that
metadata. This project models four connected parts of it and proves what they promise.
`dafny verify dfyconfig.toml` checks everything.

**The replicated log.** `RaftNode` holds each critical section of the replicator as a function on
the state of one node. `RaftCluster` makes a cluster of them: every step is one critical section of
one node, messages may be lost, delayed, reordered and delivered again at any time, writes to the
stable store may fail before or after their rename, and processes crash and restart. A ledger
records votes, candidacies, reigns and acknowledgements; no node reads it. `RaftLedger`,
`RaftLedgerSteps` and `RaftLedgerProof` hold the invariants of the ledger and what each kind of move
keeps; `RaftElection` proves election safety on them for all runs, `RaftSafety`, `RaftSafetyLedger`
and `RaftSafetySteps` carry log safety through every step, and `RaftTheorems` states the results over
whole runs. `Replicator` is the same node as a class with the program's fields and loops; each of its
methods is proved to do what the function does, over the map-based log store.

Election safety and the durability of votes hold in all runs. The log theorems hold in all *clean*
runs: no process crashes after it has acknowledged a request of a term that is not on its disk. A
crash with an unsaved term in which nothing was acknowledged is clean. This is not a convenience.
When SetState fails in stepDownLocked the new term stays in memory and the next request of that term
is accepted and acknowledged, and `RaftForgetting` builds a run of five nodes in which a committed
entry is then lost. The ledger therefore records the term each node is bound to, the one on its disk
or a later one it acknowledged in, and not the one in memory. It is not claimed that every unclean
crash does harm. `RaftDuties` states each outcome of each critical section on the fields of the node,
without the functions it is computed by, and that terms never fall and reigns end; `RaftAnswers` says
what becomes of every waiting caller, and `RaftOutrun` builds a run in which one is not answered.
`RaftNext` and `RaftRepair` are about the search for the point where two logs agree, `RaftWindow`
about requests built while the log is compacted without the lock, and `RaftRuns` builds runs step by
step.

**The stores.** `LogStore` is the write-ahead log store as a value, with the sequence with a hidden
prefix it stands for; `FileLogStore` is the class with its loops over the file of `AtomicFile`, whose
writes can fail or be cut off by a crash at every system call.

**The byte path.** `Client` is the write buffer with its requests to `FileServer`, which lays a file
out in chunks as `FileLayout` says; `FileBytes` is the flat image both refine. The server holds the
namespace with the inode of the file, which a commit changes by the metadata operation it replicates,
and the chunk files of all nodes. `FileReplicas` says how they stand for a file: every target of every
chunk has its contents as the final file. `ChunkStore` is the chunk service of one node. `ChunkProtocol` is the two-phase protocol over many nodes and transactions, in which commit,
abort and read are two steps each, split where the code releases its index lock, and preparing is
two, writing the file and indexing it; `ChunkProtocolProof` carries its invariants through every step,
`ChunkTheorems` states what holds over runs, and `ChunkRaces` builds the runs in which something is
lost.

**The namespace.** `Namespace` holds the operations on flat tables and on nested inodes and
`NamespaceProof` their simulation. `NamespaceEffects` states field by field what each operation
changes, and `NamespacePaths` where paths lead, before and after operations. `MetadataKeys`,
`OrderedBucket`, `ChunkLists` and `DirectoryListing` are the byte keys, the ordered tables and the
scans, and `MetadataTables` relates the byte-keyed tables to the maps they stand for.
`MetadataServices` has both services as classes, the first one on those tables.

## What turned out not to hold

Each of these has a lemma or method with a concrete case and, beside it, the condition.

- Leader completeness when a process crashes after acknowledging in a term that is not on its disk
  (`RaftForgetting.CommittedEntryLost`, `RaftTheorems.LeaderCompleteness`).
- A caller whose entry is applied while it waits is answered: exactly unless the node moves to a later
  term in the same step (`RaftOutrun.AppliedUnanswered`, `RaftAnswers.AppliedIsAnsweredIff`).
- A leader that has heard of a later term never goes back before it: not if the write of that term is
  lost and the process crashes (`RaftDuties.LostStepDownForgets`, `RaftDuties.LaterReplyEndsReign`).
- Commit coverage in the unlocked compaction window, exactly for peers whose nextIndex is right after
  the old snapshot (`RaftWindow.CommitsUnmatched`, `RaftWindow.WindowSafeIff`).
- "A failed Write has accepted nothing": exactly when the flush before accepting is the one that failed
  (`Client.RetriedWriteDoubles`, `Client.Descriptor.Write`).
- A read returns the bytes at its offset: only at chunk boundaries (`FileLayout.MisalignedRead`,
  `FileLayout.ReadIsRightIffAligned`).
- The chunk list is a flat file: only for writes that do not skip (`FileLayout.SkippedWrite`,
  `FileLayout.RefinesIffNoSkip`).
- A target holds an acknowledged write until the chunk is prepared again, deleted or restarted over an
  orphan: not if a harmful call on the chunk was in progress when it was prepared, a commit or abort
  between its look-up and its end, or a read that has missed a final file which is there by then
  (`ChunkRaces.CommitOvertakesPrepare`, `ChunkRaces.ReadOvertakesPrepare`,
  `ChunkTheorems.QuietPrepareIsHeld`, `ChunkTheorems.OvertakesIffHarmful`). The bytes stay on disk all
  the same (`ChunkTheorems.PayloadSurvives`).
- A chunk service restart keeps what is prepared: exactly without an orphan file of the chunk
  (`ChunkRaces.OrphanOverwrites`, `ChunkStore.RestartKeepsIff`).
- A read sees the last acknowledged write of a chunk: exactly if that was made final at the target, or
  no other bytes were final when it was prepared (`ChunkRaces.StaleReadLosesBytes`,
  `ChunkTheorems.ReadIsFreshIff`).
- A committed transaction has its bytes at its targets: not at one that has executed its abort
  (`ChunkRaces.CommittedButAborted`, `ChunkTheorems.CommittedSurvives`).
- Flat tables and nested inodes agree: exactly unless an operation deletes one of its own parents
  (`NamespaceProof.RenameOverParentDiffers`, `NamespaceProof.RemoveFromItselfDiffers`,
  `NamespaceProof.StepSimulatesIff`).

## Model

| member | source | states |
|---|---|---|
| `RaftElection.ElectionSafety` | internal/metadata_replicator/durable_raft/replicator.go:275-356 | In every run, whatever is lost, duplicated or reordered, however the stable store fails and wherever processes crash, two leaders of one term are the same node (section 5.2 of the Raft paper) |
| `RaftElection.WinnerStays` | internal/metadata_replicator/durable_raft/replicator.go:333-353 | A term that was won keeps its winner for the rest of every run |
| `RaftElection.RunElects` | internal/metadata_replicator/durable_raft/replicator.go:855-903 | Every reachable state has each counted vote on its voter's disk, each candidate's votes cast for it, and each leader as the winner of its term |
| `RaftDurable.DiskNeverGoesBack` | internal/metadata_replicator/durable_raft/replicator.go:1106-1111 | In every run the durable term never falls, and a vote recorded for a term is never replaced, also when SetState fails before or after its rename |
| `RaftTheorems.LeaderCompleteness` | internal/metadata_replicator/durable_raft/replicator.go:652-687 | Over all runs in which no process crashes after acknowledging a request of a term that is not on its disk: what any node regards as committed is, from then on, a prefix of the log of every leader of that or a later term (section 5.4.3) |
| `RaftTheorems.StateMachineSafety` | internal/metadata_replicator/durable_raft/replicator.go:689-729 | No two nodes, at any two moments, hand different entries to the state machine for the same index |
| `RaftTheorems.CommittedLogsAgree` | internal/metadata_replicator/durable_raft/replicator.go:834-849 | The committed parts of any two logs, at any two moments, are one a prefix of the other |
| `RaftTheorems.AppliesInOrder` | internal/metadata_replicator/durable_raft/replicator.go:689-729 | Since its last start a node has handed out exactly the consecutive indexes after its start index, in order, each with the entry of its log, and none past its commit index |
| `RaftApply.HandedOnlyGrows` | internal/metadata_replicator/durable_raft/replicator.go:702-729 | Between two starts of a process what was handed out only grows at its end, so nothing is handed out twice or taken back, in every run |
| `RaftTheorems.LogsMatch` | internal/metadata_replicator/durable_raft/replicator.go:772-832 | If two logs, of any nodes at any two moments, have the same term at an index, they are equal up to that index (section 5.3) |
| `RaftTheorems.MatchingEntriesStay` | internal/metadata_replicator/durable_raft/replicator.go:804-826 | No request ever sent, late, repeated or the first one of a new leader, removes an entry that the follower shares with the leader of the request's term |
| `RaftTheorems.CommitCoverage` | internal/metadata_replicator/durable_raft/replicator.go:414-505 | Every AppendEntries ever sent satisfies leaderCommit <= prevLogIndex + len(entries) |
| `RaftTheorems.CommitsOnlyMatched` | internal/metadata_replicator/durable_raft/replicator.go:834-849 | When a follower's commit index rises on any request, also one that moves it to a later term, it rises to the leader's, and everything up to it equals the leader's log although the bound is the follower's own last index |
| `RaftTheorems.LeaderLogMeaning` | internal/metadata_replicator/durable_raft/replicator.go:358-378 | The leader log of a term, which these statements speak of, is the log its leader holds as long as it leads |
| `RaftTheorems.RequestsNumbered` | internal/metadata_replicator/durable_raft/replicator.go:487-505 | The entries of every request ever sent carry consecutive indexes that follow prevLogIndex |
| `RaftTheorems.AnswerIsCommitted` | internal/metadata_replicator/durable_raft/replicator.go:720-727 | When a waiting Replicate call is answered, the answering node has committed and applied an entry with the caller's own data at the caller's index |
| `RaftTheorems.AnswerIsDurable` | internal/metadata_replicator/durable_raft/replicator.go:150-205 | The entry of an answered call is in the log of every leader of that or a later term from then on |
| `RaftAnswers.CallerIsServed` | internal/metadata_replicator/durable_raft/replicator.go:720-727 | Nobody is forgotten: in every step of every clean run a waiting caller goes on waiting, or is answered in that step with the entry at its index, or gives up, or its process crashes, or its node follows in a later term or fails to store a vote |
| `RaftAnswers.AppliedIsAnsweredIff` | internal/metadata_replicator/durable_raft/replicator.go:702-729 | When a step of a clean run other than a crash leaves lastApplied at or past the index of a waiting caller, that caller is answered in that step if and only if the node's term has not changed in it |
| `RaftOutrun.AppliedUnanswered` | internal/metadata_replicator/durable_raft/replicator.go:757-849 | Where it has, a run of five nodes in which the request that commits a leader's own entry also makes it step down: the entry is applied and its caller is not answered |
| `RaftAnswers.ApplyAnswersAll` | internal/metadata_replicator/durable_raft/replicator.go:702-729 | The apply loop reaches the commit index, answers every caller up to it, each with the entry at its index, removes these and keeps all the others |
| `RaftDuties.LaterReplyEndsReign` | internal/metadata_replicator/durable_raft/replicator.go:569-574 | In every run a leader that handles a reply of a later term follows in that term at once and is never again in an earlier one: for good if the new term reached its disk, and otherwise until its process crashes |
| `RaftDuties.LostStepDownForgets` | internal/metadata_replicator/durable_raft/replicator.go:1086-1100 | With the write lost and a crash after it the node comes back in the term on its disk and campaigns in the next one, which is before the one it had followed in |
| `RaftDuties.TermNeverFalls` | internal/metadata_replicator/durable_raft/replicator.go:1086-1100 | In every run a node's term never falls between two moments without a crash of its process in between |
| `RaftDuties.StepDownRule` | internal/metadata_replicator/durable_raft/replicator.go:1086-1100 | Stepping down leaves a follower of the new term without vote, pending entries or callers, with its log and all its indexes as they were, and the term on disk unless the write was lost |
| `RaftDuties.RestartRule` | internal/metadata_replicator/durable_raft/replicator.go:94-131 | A start keeps term, vote, log and snapshot of the disk, resumes applying at the snapshot and has no callers |
| `RaftDuties.VoteRule` | internal/metadata_replicator/durable_raft/replicator.go:855-903 | With a working disk a vote is granted if and only if the request is not of an earlier term, no other candidate has the vote of that term, and the candidate's last entry is at least as recent; it is then on disk, and a refusal leaves the vote of the term alone |
| `RaftDuties.FailedVoteRule` | internal/metadata_replicator/durable_raft/replicator.go:880-896 | Which of the two stable-store failures leave a vote request without a reply, and that the node then follows |
| `RaftDuties.CampaignRule` | internal/metadata_replicator/durable_raft/replicator.go:275-307 | A campaign is in the next term with the node's own vote; the node stands, or leads if it is alone, if and only if the vote is stored, and otherwise follows with its record untouched |
| `RaftDuties.AskRule` | internal/metadata_replicator/durable_raft/replicator.go:300-331 | Votes are asked for if and only if the node is a candidate then, in its new term and with the index and term of the end of its own log |
| `RaftDuties.TallyRule` | internal/metadata_replicator/durable_raft/replicator.go:333-353 | A candidate leads after a reply if and only if it is a vote of its term that makes a majority; a later term makes it follow, and a refusal changes nothing |
| `RaftDuties.OfficeRule` | internal/metadata_replicator/durable_raft/replicator.go:358-378 | A new leader probes every member right after its log and counts no other member beyond its own snapshot |
| `RaftDuties.SubmitRule` | internal/metadata_replicator/durable_raft/replicator.go:150-192 | A leader puts the call's data at the next free index in its own term and registers exactly that index for the caller; any other node refuses |
| `RaftDuties.FlushRule` | internal/metadata_replicator/durable_raft/replicator.go:194-201 | Flushing moves what is pending to the end of the log; giving up forgets one caller and nothing else |
| `RaftDuties.BuildRule` | internal/metadata_replicator/durable_raft/replicator.go:433-505 | A leader sends a peer everything of its log from the next index on, with the term before it and its own commit index, if and only if that index is neither covered by the snapshot nor past the end of the log |
| `RaftDuties.StaleRequestRule` | internal/metadata_replicator/durable_raft/replicator.go:753-755 | A request of an earlier term changes nothing and is told the later one |
| `RaftDuties.UnstoredRequestRule` | internal/metadata_replicator/durable_raft/replicator.go:757-761 | A request of a later term that cannot be stored moves the node there and gets no reply |
| `RaftDuties.RequestRule` | internal/metadata_replicator/durable_raft/replicator.go:762-849 | A request of the node's term is accepted if and only if its probe is neither compacted nor past the log and has the probed term; otherwise the log and all indexes stay and the reply carries the hint; a higher commit index of the leader is taken as far as the log goes |
| `RaftDuties.MergeRule` | internal/metadata_replicator/durable_raft/replicator.go:804-832 | The log stays if it agrees with everything sent, and is replaced from the first position on at which it differs or ends |
| `RaftDuties.LaterReplyRule` | internal/metadata_replicator/durable_raft/replicator.go:569-574 | A leader that gets a reply of a later term follows in it, with its callers let go, its record untouched, and nobody answered or replied to |
| `RaftDuties.IgnoredReplyRule` | internal/metadata_replicator/durable_raft/replicator.go:566-568 | A reply that comes when the node no longer leads, or not in the term of the request, changes nothing |
| `RaftDuties.AcceptedReplyRule` | internal/metadata_replicator/durable_raft/replicator.go:576-585 | Success raises the peer's match index to the last index of the request, never lowers it, sets its next index right after, and touches no other peer |
| `RaftDuties.RejectedReplyRule` | internal/metadata_replicator/durable_raft/replicator.go:587-599 | A rejection moves the peer's next index to the hint, or down by one without one, and nothing else |
| `RaftDuties.AdvanceRule` | internal/metadata_replicator/durable_raft/replicator.go:652-687 | If some index above the commit index has an entry of the current term that a majority holds, the highest such index is committed and applied |
| `RaftDuties.CompactRule` | internal/metadata_replicator/durable_raft/replicator.go:992-1050 | Compaction raises the snapshot index to lastApplied if the threshold is reached, and changes nothing otherwise |
| `RaftTheorems.PendingOnLeader` | internal/metadata_replicator/durable_raft/replicator.go:249-273 | Pending entries and waiting callers exist only on a leader, numbered on from its log in its own term, and each caller waits for an unapplied entry with its own data |
| `RaftTheorems.RunSafe` | internal/metadata_replicator/durable_raft/replicator.go:731-853 | The whole safety invariant of ledger, nodes and messages holds in every state of every clean run |
| `RaftSafetySteps.CommitPointRule` | internal/metadata_replicator/durable_raft/replicator.go:663-686 | The commit point is the highest index above commitIndex whose entry is of the current term and held by a majority, and no index above it is |
| `RaftSafetySteps.RequestSafe` | internal/metadata_replicator/durable_raft/replicator.go:438-505 | A request built by a leader quotes a stretch of its log up to the end, the term before it, and a commit index within it |
| `RaftSafetySteps.WinnerOutput` | internal/metadata_replicator/durable_raft/replicator.go:368-372 | A new leader's match indexes, seeded with the snapshot index, promise nothing above its commit index |
| `RaftSafetySteps.ApplyAnswers` | internal/metadata_replicator/durable_raft/replicator.go:702-729 | The apply loop answers only callers whose entries it hands out, each with its own entry, and leaves the others waiting; that it answers all of them is `RaftAnswers.ApplyAnswersAll` |
| `RaftLedger.LeaderHoldsCommitted` | internal/metadata_replicator/durable_raft/replicator.go:664-684 | Whatever a majority acknowledged of a leader's own entry is in the log of every later winner |
| `RaftLedgerProof.UpToDateKeeps` | internal/metadata_replicator/durable_raft/replicator.go:887-890 | A candidate whose last entry is at least as recent as the voter's holds everything the voter protects (section 5.4.1) |
| `RaftLedgerProof.AcceptKeepsCommitted` | internal/metadata_replicator/durable_raft/replicator.go:797-832 | Merging a leader's entries keeps every committed prefix of the follower's log |
| `RaftLedgerSteps.MergeOutcome` | internal/metadata_replicator/durable_raft/replicator.go:804-832 | Merging leaves the follower's own log, which then already agrees with everything sent, or the leader's log cut after it |
| `RaftForgetting.CommittedEntryLost` | internal/metadata_replicator/durable_raft/replicator.go:1086-1100 | Leader completeness is false without that condition: a run of five nodes in which stepDownLocked's SetState fails, the next request of the unsaved term is acknowledged anyway, the process crashes, and a committed entry is lost |
| `RaftWindow.WindowCoverage` | internal/metadata_replicator/durable_raft/replicator.go:1026-1050 | In the unlocked compaction window a request covers its commit index if and only if the peer's nextIndex is not the one right after the old snapshot index |
| `RaftWindow.WindowSafeIff` | internal/metadata_replicator/durable_raft/replicator.go:433-505 | In every clean run, with the log compacted up to anything the leader has applied, the request built for a peer meets the message invariant all log theorems rest on if and only if the same condition on nextIndex holds |
| `RaftWindow.CommitsUnmatched` | internal/metadata_replicator/durable_raft/replicator.go:487-505 | Where it does not, a run of five nodes in which the leader compacts its only entry, sends the peer nothing but its commit index, and the peer commits and applies an entry the leader never had |
| `RaftWindow.OutsideWindow` | internal/metadata_replicator/durable_raft/replicator.go:438-505 | Outside that window the built request is the one the run theorems are about |
| `RaftRepair.RejectedRound` | internal/metadata_replicator/durable_raft/replicator.go:587-599 | A rejected request leaves the follower's log alone and moves nextIndex to the end of a shorter follower log, down by one, or up to the boundary of a follower that compacted past it |
| `RaftRepair.AcceptedRound` | internal/metadata_replicator/durable_raft/replicator.go:576-585 | An accepted request leaves the follower with the whole leader log as a prefix of its own |
| `RaftRepair.RepairEnds` | internal/metadata_replicator/durable_raft/replicator.go:772-795 | If the logs agree at some index a that neither node has compacted away, the search ends within nextIndex minus a rounds (two if it starts below the follower's boundary) and the follower then holds the whole leader log |
| `RaftRepair.SearchEndsInSnapshot` | internal/metadata_replicator/durable_raft/replicator.go:443-459 | If they agree nowhere above both snapshots, every probe is rejected, the search goes strictly down, and it ends, with the follower's log untouched, at a probe for which the follower needs a snapshot |
| `RaftRepair.RepairInRuns` | internal/metadata_replicator/durable_raft/replicator.go:576-599 | From every state of every clean run a leader that goes on probing a node of its term repairs its log exactly when the logs agree somewhere above both snapshots and nextIndex is above its own; otherwise the search ends where a snapshot is needed |
| `RaftNext.ProbesInLog` | internal/metadata_replicator/durable_raft/replicator.go:576-599 | In every clean run a leader knows a nextIndex for every member, and it is at most one past its log |
| `RaftNext.RejectionHint` | internal/metadata_replicator/durable_raft/replicator.go:772-795 | The conflict index of a rejection is at most one past the log of the leader it answers |
| `Replicator.DurableRaft.constructor` | internal/metadata_replicator/durable_raft/replicator.go:94-131 | A start takes over the durable term, vote and snapshot indexes and forgets everything else, and is refused exactly when the log ends before the snapshot |
| `Replicator.DurableRaft.ApplyLogs` | internal/metadata_replicator/durable_raft/replicator.go:689-729 | The apply loop does to the node what Apply says and gives the answers that Answers says, of which `RaftAnswers.ApplyAnswersAll` says who gets one |
| `Replicator.DurableRaft.BecomeFollower` | internal/metadata_replicator/durable_raft/replicator.go:1086-1100 | Stepping down changes role, term, vote, pending calls and, unless the write left no trace, the stable pair, as StepDown says |
| `Replicator.DurableRaft.FailAllPending` | internal/metadata_replicator/durable_raft/replicator.go:1117-1127 | Every pending entry and waiting caller is dropped and nothing else changes |
| `Replicator.DurableRaft.HandleRequestVote` | internal/metadata_replicator/durable_raft/replicator.go:855-903 | The vote handler's new state and reply, for every outcome of both stable-store writes, are those of HandleVote |
| `Replicator.DurableRaft.Campaign` | internal/metadata_replicator/durable_raft/replicator.go:275-307 | Starting an election changes the node as StartElection says and asks for votes exactly when the vote is stored and the node is not alone |
| `Replicator.DurableRaft.HandleVoteAnswer` | internal/metadata_replicator/durable_raft/replicator.go:333-353 | Counting a vote reply changes the node as HandleVoteReply says |
| `Replicator.DurableRaft.Lead` | internal/metadata_replicator/durable_raft/replicator.go:358-378 | Becoming leader sets all next and match indexes and flushes what is pending, as BecomeLeader says |
| `Replicator.DurableRaft.Replicate` | internal/metadata_replicator/durable_raft/replicator.go:150-188 | A submitted call is queued under the next free index and flushed when the batch is full; a node that does not lead refuses and changes nothing |
| `Replicator.DurableRaft.FlushPending` | internal/metadata_replicator/durable_raft/replicator.go:249-273 | The pending batch is appended to the log store, which then stands for the longer log |
| `Replicator.DurableRaft.BuildRequest` | internal/metadata_replicator/durable_raft/replicator.go:433-505 | The request built by reading entries one by one is WindowAppend, also while the log is compacted past the snapshot index |
| `Replicator.DurableRaft.HandleAppendEntries` | internal/metadata_replicator/durable_raft/replicator.go:731-853 | Over the map-based log store the handler's new state, reply and answers are those of HandleAppend on the whole log |
| `Replicator.DurableRaft.FindConflict` | internal/metadata_replicator/durable_raft/replicator.go:772-795 | The refusal carries the conflict index and term of the first of the three reasons that applies |
| `Replicator.DurableRaft.MergeEntries` | internal/metadata_replicator/durable_raft/replicator.go:804-832 | Skipping, truncating and storing leave the log as Merge of the old log and the entries |
| `Replicator.DurableRaft.TakeCommit` | internal/metadata_replicator/durable_raft/replicator.go:839-849 | The leader's commit index is taken, bounded below by the snapshot and above by the own last index, and applied |
| `Replicator.DurableRaft.HandleAppendAnswer` | internal/metadata_replicator/durable_raft/replicator.go:563-599 | A reply changes role, term, match, next and commit indexes as HandleAppendReply says, whose outcomes the four reply rules of `RaftDuties` state |
| `Replicator.DurableRaft.AdvanceCommitIndex` | internal/metadata_replicator/durable_raft/replicator.go:652-687 | The downward loop with its counting commits and applies exactly the commit point |
| `Replicator.DurableRaft.CountHolders` | internal/metadata_replicator/durable_raft/replicator.go:673-682 | The counting loop over distinct members gives the number of members that hold the index |
| `Replicator.DurableRaft.CheckCompaction` | internal/metadata_replicator/durable_raft/replicator.go:992-1050 | With nothing between its sections compaction raises the snapshot index to lastApplied once the threshold is reached and leaves the whole log in place behind it |
| `Replicator.DurableRaft.ChooseSnapshot` | internal/metadata_replicator/durable_raft/replicator.go:1008-1026 | The first locked section picks lastApplied and its term once the threshold is reached |
| `Replicator.DurableRaft.CompactLog` | internal/metadata_replicator/durable_raft/replicator.go:1040-1043 | The unlocked section hides the prefix in the log store and changes nothing of the node, which opens the window |
| `Replicator.DurableRaft.RaiseSnapshot` | internal/metadata_replicator/durable_raft/replicator.go:1045-1050 | The second locked section raises the snapshot index to the compaction mark and closes the window |
| `LogStore.LookupAnswers` | internal/metadata_replicator/durable_raft/stores.go:335-343 | Of a store that stands for a log, GetLog reports compacted up to the mark, the entry of the log above it, and not found past its end |
| `LogStore.LastAnswers` | internal/metadata_replicator/durable_raft/stores.go:361-372 | LastIndexAndTerm is the length and last term of the log, also when everything is compacted |
| `LogStore.PutAllAppends` | internal/metadata_replicator/durable_raft/stores.go:306-317 | Storing contiguous entries succeeds and appends them to the log |
| `LogStore.PutAllRefuses` | internal/metadata_replicator/durable_raft/stores.go:306-317 | Storing is refused if and only if some entry lies at or below the compaction mark; those before it are stored and nothing else |
| `LogStore.PutAllStores` | internal/metadata_replicator/durable_raft/stores.go:306-317 | Accepted entries are found under their own indexes, the last one of an index staying |
| `LogStore.DeleteRule` | internal/metadata_replicator/durable_raft/stores.go:375-427 | An empty range deletes nothing; a range from 0 raises the mark to its end; what lies in it above the mark is deleted and nothing else; the last index is the highest one left, or the mark |
| `LogStore.DeleteTruncates` | internal/metadata_replicator/durable_raft/stores.go:390-426 | Deleting from an index on leaves exactly the shorter log, never cutting into the compacted part |
| `LogStore.DeleteCompacts` | internal/metadata_replicator/durable_raft/stores.go:402-417 | Deleting from 0 hides a prefix and changes nothing else: the log is the same and the hidden entries stay in the map |
| `LogStore.HiddenStaysHidden` | internal/metadata_replicator/durable_raft/stores.go:335-337 | Once compacted, an index is reported as compacted after any sequence of stores and deletes |
| `LogStore.StepsWellKeyed` | internal/metadata_replicator/durable_raft/stores.go:306-317 | Every state reachable by any calls has each entry under its own index and the highest index as last |
| `LogStore.ReloadRestores` | internal/metadata_replicator/durable_raft/stores.go:247-288 | Loading what persist wrote gives the same map, last index, compaction mark and compacted term |
| `FileLogStore.LogFile.constructor` | internal/metadata_replicator/durable_raft/stores.go:233-288 | Opening reads the file entry by entry into the state Load gives, or starts empty |
| `FileLogStore.LogFile.StoreLogs` | internal/metadata_replicator/durable_raft/stores.go:290-318 | The map changes as PutAll says even when the write then fails; an entry at or below the mark stops it before any write; success means the file holds the new state also after a crash |
| `FileLogStore.LogFile.GetLog` | internal/metadata_replicator/durable_raft/stores.go:320-344 | Answers as Lookup says |
| `FileLogStore.LogFile.LastIndexAndTerm` | internal/metadata_replicator/durable_raft/stores.go:346-373 | Answers as LastOf says |
| `FileLogStore.LogFile.DeleteRange` | internal/metadata_replicator/durable_raft/stores.go:375-427 | The state changes as Delete says, and success means it is on disk |
| `FileLogStore.LogFile.Persist` | internal/metadata_replicator/durable_raft/stores.go:429-456 | Whatever fails and wherever the process dies, a restart loads a state that was saved before or this one, and after success only this one |
| `FileLogStore.LogFile.Sorted` | internal/metadata_replicator/durable_raft/stores.go:429-436 | The entries written are exactly those of the map, in index order |
| `FileLogStore.Reopen` | internal/metadata_replicator/durable_raft/stores.go:247-288 | After a successful call a process restarted after a crash of the process or of the machine loads the state the old process had |
| `AtomicFile.File.WriteAtomically` | internal/metadata_replicator/durable_raft/stores.go:458-501 | For every combination of failing calls and every point of a crash the old or the new contents survive, never torn ones; only the new ones after success, only the old ones after a failure before the rename |
| `AtomicFile.File.CrashAndReopen` | internal/metadata_replicator/durable_raft/stores.go:247-288 | A restart finds one of the survivors; a crash of the machine settles it, a crash of the process alone loses nothing and settles nothing |
| `Client.Descriptor.Write` | clients/library/client.go:216-278 | Success accepts all the data; a failed call has accepted nothing exactly when the flush before accepting failed, and everything when the one after it did, which needs more data than the buffer limit; data that fits is only buffered; the server always holds a prefix of the accepted stream that reaches at least to the buffer |
| `Client.RetriedWriteDoubles` | clients/library/client.go:251-278 | A failed call of more than the buffer limit on an empty buffer is accepted all the same, so repeating it writes the data twice |
| `Client.Descriptor.SendWriteInChunks` | clients/library/client.go:280-317 | Pieces go to their own place in the stream and stay inside chunks; success means the server holds the stream up to the end of the payload |
| `Client.Descriptor.FlushBuffered` | clients/library/client.go:319-335 | Success empties the buffer, failure leaves it as it was, and the server's prefix never shrinks |
| `Client.Descriptor.Fsync` | clients/library/client.go:350-378 | Success means the server's image equals everything accepted |
| `Client.Descriptor.Close` | clients/library/client.go:394-423 | The final flush makes the image equal to everything accepted, if it succeeds |
| `Client.Descriptor.Run` | clients/library/client.go:251-335 | For any run of Write and Fsync, with reads, prepares, replication and answers failing anywhere, aborts lost, notifications repeated and nodes restarting (but no write committing after its replication was reported as failed), the accepted stream only grows, the image is a prefix of it up to the buffer, and the buffer is the rest |
| `Client.PiecesFitIff` | clients/library/client.go:286-301 | All requests the client can send stay inside one server chunk if and only if the chunk size is a multiple of the 8 MiB request size |
| `Client.PieceEndsAtMultiple` | clients/library/client.go:286-301 | A full piece ends at the next multiple of the request size, and no multiple lies inside it |
| `Client.ReadToEnd` | clients/library/client.go:150-205 | Reading a fresh descriptor until a read is empty ends and, if every read was answered by some target, returns the whole file |
| `Client.RoundTrip` | clients/library/client.go:216-335 | Any writes of any sizes to a file just created in a namespace, closed and read back until empty, return exactly their concatenation: through the buffer, the inode's chunk list and size as the metadata operations leave them, and the two-phase files of every target, whatever commits and is answered, with restarts, late aborts and repeated commits in between |
| `FileLayout.WriteKeepsLayout` | internal/orchestrators/control_plane.go:106-173 | All chunks but the last stay full, the last one is not empty, and the recorded size is what the chunks hold |
| `FileLayout.ChunkCount` | internal/orchestrators/control_plane.go:106-107 | The number of chunks is the size divided by the chunk size, rounded up |
| `FileLayout.WriteRefines` | internal/orchestrators/control_plane.go:137-192 | A write inside one chunk that skips none does to the chunk list what laying the data over one flat image does |
| `FileLayout.RefinesIffNoSkip` | internal/orchestrators/control_plane.go:165-173 | The chunk list refines a flat file on a write if and only if the write does not skip past the end of the list or past a last chunk that is not full |
| `FileLayout.SkippedWrite` | internal/orchestrators/control_plane.go:165-173 | A byte written at offset 4 of an empty file with chunks of two bytes becomes the first byte of the file |
| `FileLayout.NoGapNoSkip` | internal/orchestrators/control_plane.go:106-107 | A write at or before the end of the file never skips |
| `FileLayout.ReadIsRightIffAligned` | internal/server/hyperconverged/hyperconverged_server.go:252-263 | A read inside the file returns the bytes from its offset to the end of the chunk if and only if the offset is at a chunk boundary |
| `FileLayout.MisalignedRead` | internal/server/hyperconverged/hyperconverged_server.go:252-263 | A read at offset 1 of a two-byte file returns both bytes |
| `FileLayout.WithinFits` | internal/orchestrators/control_plane.go:469-477 | A write accepted by the boundary check ends inside its chunk |
| `FileLayout.PayloadIsOverlay` | internal/orchestrators/raft_data_plane.go:270-295 | Replacing a whole chunk equals laying the data over it |
| `FileServer.PrepareWritePayload` | internal/orchestrators/raft_data_plane.go:258-296 | The buffer filled by copies is the payload: zeros before new data, old contents where the data does not reach |
| `FileServer.Server.HandleWrite` | internal/server/hyperconverged/hyperconverged_server.go:265-292 | The file becomes the written one exactly when the write stays in its chunk, some target answers the read it may need, all targets prepare and the commit is replicated; it is acknowledged exactly then unless the answer is lost; every target of every chunk then serves that chunk |
| `FileServer.Server.RecordWrite` | internal/orchestrators/control_plane.go:137-192 | The metadata update of a committed write: the inode of the namespace has the longer chunk list and the larger size afterwards, and no other inode and no entry changes |
| `FileServer.Server.ExecuteWrite` | internal/orchestrators/raft_data_plane.go:117-196 | The payload is the old contents, read from any target that answers, with the data laid over; it succeeds exactly when a needed read is answered and no target fails to prepare |
| `FileServer.Server.ExecuteRead` | internal/orchestrators/raft_data_plane.go:198-223 | The first target that answers serves the contents of the chunk, and none only if all are down |
| `FileServer.Server.CommitAll` | internal/orchestrators/raft_tx_coordinator.go:136-179 | Delivered commits make the payload the final file of every target and leave nothing prepared for the chunk |
| `FileServer.Server.AbortAll` | internal/orchestrators/raft_tx_coordinator.go:181-224 | Aborts, wherever they get, change no final file |
| `FileServer.Server.Meanwhile` | internal/chunk_service/local_disc/local_disc_posix_chunk_service.go:65-100 | Late aborts, repeated commits and restarts between requests leave the file as it is |
| `FileServer.Server.HandleRead` | internal/orchestrators/control_plane.go:211-243 | A read past the end is empty, any other returns the whole chunk that holds the offset, and it fails exactly when all targets of that chunk are down |
| `FileReplicas.StoredOverwrite` | internal/orchestrators/raft_data_plane.go:117-196 | When every target of a chunk has a new final file and no other final file changed, the file has exactly that chunk replaced |
| `FileReplicas.StoredOnce` | internal/orchestrators/raft_data_plane.go:198-223 | The final files of the targets determine the contents of the file |
| `FileReplicas.EventKeeps` | internal/chunk_service/local_disc/local_disc_posix_chunk_service.go:152-229 | On a node that holds only leftovers of failed writes, a late abort, a repeated commit or a restart changes no final file |
| `ChunkStore.LocalDisc.constructor` | internal/chunk_service/local_disc/local_disc_posix_chunk_service.go:65-100 | A restart rebuilds the index from the temporary files, the last listed one of a chunk staying |
| `ChunkStore.PrepareRule` | internal/chunk_service/local_disc/local_disc_posix_chunk_service.go:106-150 | Preparing indexes the transaction with exactly the given bytes, a torn write leaves its bytes and the old entry, and nothing else changes |
| `ChunkStore.CommitRule` | internal/chunk_service/local_disc/local_disc_posix_chunk_service.go:152-192 | A commit succeeds if and only if it makes its own file final, or finds nothing prepared and a final file; otherwise nothing changes |
| `ChunkStore.AbortRule` | internal/chunk_service/local_disc/local_disc_posix_chunk_service.go:194-229 | An abort is refused if and only if another transaction is indexed, and drops only its own |
| `ChunkStore.ReadRule` | internal/chunk_service/local_disc/local_disc_posix_chunk_service.go:231-287 | For every intent, expired or not: a final file is served as it is; without one, bytes are returned if and only if the intent is committed and the file is there, and then it is made final; an aborted or expired one is dropped, an unknown one is reported as locked; no read makes a file final that is not committed |
| `ChunkStore.FinishReadRule` | internal/chunk_service/local_disc/local_disc_posix_chunk_service.go:261-286 | The same for the second half of a read on the entry it copied, whatever the node looks like by then |
| `ChunkStore.LocalDisc.PrepareChunk` | internal/chunk_service/local_disc/local_disc_posix_chunk_service.go:106-150 | Preparing what is already there succeeds without writing; a failed write leaves a torn file and no index entry |
| `ChunkStore.LocalDisc.CommitChunk` | internal/chunk_service/local_disc/local_disc_posix_chunk_service.go:152-192 | With nothing between its halves only the indexed transaction is made final; any other commit changes nothing and succeeds only if nothing is prepared and a final file exists |
| `ChunkStore.LocalDisc.AbortChunk` | internal/chunk_service/local_disc/local_disc_posix_chunk_service.go:194-229 | With nothing between its halves only the indexed transaction is dropped |
| `ChunkStore.LocalDisc.ReadChunk` | internal/chunk_service/local_disc/local_disc_posix_chunk_service.go:231-287 | With nothing between its halves a final file wins; a prepared file of a committed transaction is made final and returned; an aborted or expired one is dropped |
| `ChunkStore.LocalDisc.TakeEntry` | internal/chunk_service/local_disc/local_disc_posix_chunk_service.go:169-171 | The first half of commit, abort and read copies the index entry and releases the lock |
| `ChunkStore.LocalDisc.FinishCommit` | internal/chunk_service/local_disc/local_disc_posix_chunk_service.go:186-191 | The second half renames the file of the copied entry and deletes whatever entry the chunk then has |
| `ChunkStore.LocalDisc.FinishAbort` | internal/chunk_service/local_disc/local_disc_posix_chunk_service.go:223-228 | The same for an abort, which removes the file |
| `ChunkStore.LocalDisc.FinishReadChunk` | internal/chunk_service/local_disc/local_disc_posix_chunk_service.go:266-286 | The same for a read, which returns a final file that has appeared meanwhile and then only deletes the entry |
| `ChunkStore.LocalDisc.DeleteChunkLocal` | internal/chunk_service/local_disc/local_disc_posix_chunk_service.go:289-308 | Only the final file is removed |
| `ChunkTheorems.RunKeeps` | internal/orchestrators/raft_tx_coordinator.go:79-134 | The invariant of nodes, calls in progress, transactions and notifications holds in every state of every run, with all calls of a node interleaved at their locks |
| `ChunkTheorems.AcknowledgedEverywhere` | internal/server/hyperconverged/hyperconverged_server.go:265-292 | When a write has reported success, every target prepared its payload and holds it byte for byte, indexed or final, unless the chunk was prepared again, deleted, restarted over an orphan file, or overtaken by another call there |
| `ChunkTheorems.AcknowledgedIsHeld` | internal/orchestrators/raft_tx_coordinator.go:104-134 | That holds for any loss, duplication and reordering of commit and abort notifications |
| `ChunkTheorems.HeldStaysIff` | internal/chunk_service/local_disc/local_disc_posix_chunk_service.go:186-190 | A step that does not disturb the chunk ends the hold of a live transaction if and only if it is the end of a call that deletes an entry it does not make final |
| `ChunkTheorems.QuietPrepareIsHeld` | internal/chunk_service/local_disc/local_disc_posix_chunk_service.go:106-150 | If no harmful call on the chunk is in progress at the node when it prepares the write, nothing overtakes it: an acknowledged write is held there until the chunk is disturbed |
| `ChunkTheorems.OvertakesIffHarmful` | internal/chunk_service/local_disc/local_disc_posix_chunk_service.go:169-190 | A call that has copied an entry is harmful exactly when its end overtakes the indexed transaction: it copied another one whose file it can still rename or remove, which a read does only for a committed one, or it is such a read with a final file in front |
| `ChunkTheorems.MissedReadOvertakes` | internal/chunk_service/local_disc/local_disc_posix_chunk_service.go:244-277 | A read that missed the final file before, and goes on when a committed transaction stands behind one, overtakes it |
| `ChunkTheorems.PayloadSurvives` | internal/chunk_service/local_disc/local_disc_posix_chunk_service.go:152-229 | In every run and for every interleaving the bytes of an acknowledged write are a temporary file of each target, or were made its final file and stayed it until another one was put in its place or it was deleted |
| `ChunkTheorems.CommittedSurvives` | internal/server/hyperconverged/hyperconverged_server.go:282-289 | The same for every committed transaction, acknowledged or not, at each target that has not executed its abort |
| `ChunkTheorems.FinalsAreCommitted` | internal/chunk_service/local_disc/local_disc_posix_chunk_service.go:152-192 | A final file always holds what a committed transaction prepared for that chunk |
| `ChunkTheorems.ReadsAreCommitted` | internal/chunk_service/local_disc/local_disc_posix_chunk_service.go:231-287 | In every run every end of a read, whatever intent and expiry it sees that the transaction table allows and whatever came between its halves, returns the bytes of a committed transaction or none |
| `ChunkTheorems.WholeReadsAreCommitted` | internal/chunk_service/local_disc/local_disc_posix_chunk_service.go:231-287 | The same for a read whose halves have nothing between them, in every state of every run |
| `ChunkTheorems.ReadIsFreshIff` | internal/chunk_service/local_disc/local_disc_posix_chunk_service.go:244-252 | In every run a target that prepared an acknowledged write, neither disturbed nor overtaken since, serves it on a read if and only if the file was made final there since, or no other bytes were its final file when it was prepared |
| `ChunkStore.RestartKeepsIff` | internal/chunk_service/local_disc/local_disc_posix_chunk_service.go:78-97 | Whatever order the directory is listed in, a restart keeps the index entry of a chunk, if and only if every temporary file of the chunk is the indexed one |
| `ChunkRaces.CommitOvertakesPrepare` | internal/chunk_service/local_disc/local_disc_posix_chunk_service.go:166-190 | A run in which a prepare comes between a commit's look-up and its end: the new write is acknowledged and its entry is gone, its own commit reports success and changes nothing, and reads serve the older bytes |
| `ChunkRaces.ReadOvertakesPrepare` | internal/chunk_service/local_disc/local_disc_posix_chunk_service.go:244-277 | The same by a read that had only missed the final file when the write was prepared |
| `ChunkRaces.OrphanOverwrites` | internal/chunk_service/local_disc/local_disc_posix_chunk_service.go:78-97 | A run in which a restart over an orphan file and a late notification replace a newer acknowledged final file by an older one |
| `ChunkRaces.StaleReadLosesBytes` | internal/orchestrators/raft_data_plane.go:280-295 | A run in which a third write is laid over what a read returns before the notification of the acknowledged second one, and a byte of the second is lost for good |
| `ChunkRaces.CommittedButAborted` | internal/server/hyperconverged/hyperconverged_server.go:282-289 | A run in which Replicate fails, the abort is delivered and the entry commits all the same: the transaction is committed and its bytes are nowhere |
| `NamespaceProof.RunKeepsNames` | internal/metadata_service/bolt/bolt_metadata_service.go:356-629 | Any sequence of operations with unused inode numbers keeps every entry naming an existing inode, no inode named twice, and the root present and nobody's child, whatever is removed or overwritten |
| `NamespaceProof.StepKeepsNames` | internal/metadata_service/bolt/bolt_metadata_service.go:462-539 | Each single operation keeps that invariant |
| `NamespaceProof.StepSimulatesIff` | internal/metadata_service/bolt/bolt_metadata_service.go:568-629 | One operation keeps flat tables and nested inodes related if and only if it does not delete one of its own parents, which the tables would store again |
| `NamespaceProof.RenameOverParentDiffers` | internal/metadata_service/bolt/bolt_metadata_service.go:490-541 | From a new file system: create b, create x in it, rename b/x over b; the tables still have the overwritten directory and the nested inodes do not |
| `NamespaceProof.RemoveFromItselfDiffers` | internal/metadata_service/bolt/bolt_metadata_service.go:568-629 | The same for a directory renamed into itself and removed from there |
| `NamespaceProof.RunSimulates` | internal/metadata_service/bolt/bolt_metadata_service.go:328-631 | Any sequence of operations that keeps to this, to unused numbers and to directories as rename targets keeps the two related, also where they report errors differently |
| `NamespaceProof.LookupsAgree` | internal/metadata_service/bolt/bolt_metadata_service.go:1084-1147 | Related states resolve every path alike, errors included |
| `NamespaceEffects.CreateRule` | internal/metadata_service/bolt/bolt_metadata_service.go:356-429 | With an unused inode number a create stores an inode with the given kind, mode and owner, no bytes, all times now and one link, two for a directory, and its entry; the parent gets new times and a link for a directory; nothing else changes, and it fails exactly for a missing parent, a parent that is a file, or a taken name |
| `NamespaceEffects.RemoveRule` | internal/metadata_service/bolt/bolt_metadata_service.go:568-629 | A remove deletes exactly the entry and its inode and gives the parent new times and one link less for a directory, or fails and changes nothing exactly if entry, inode or parent is missing |
| `NamespaceEffects.RenameRule` | internal/metadata_service/bolt/bolt_metadata_service.go:462-541 | A rename moves exactly one entry, deletes the inode it overwrites, and gives both parents new times |
| `NamespaceEffects.SetAttrRule` | internal/metadata_service/bolt/bolt_metadata_service.go:633-701 | Exactly the given attributes and the change time of one inode are set, or nothing if it is missing |
| `NamespaceEffects.UpdateRule` | internal/metadata_service/bolt/bolt_metadata_service.go:703-769 | Exactly the given size and modification time, the next version, the change time and the given chunk list of one inode are stored, or nothing if it is missing |
| `NamespaceEffects.NestedCreateRule` | internal/metadata_service/inmemory/inmemory_posix_metadata_service.go:150-191 | The same for nested inodes, where a taken name is reported as success and changes nothing |
| `NamespaceEffects.NestedRemoveRule` | internal/metadata_service/inmemory/inmemory_posix_metadata_service.go:193-225 | The same for nested inodes, where a missing name is reported as success and changes nothing |
| `NamespaceEffects.NestedRenameRule` | internal/metadata_service/inmemory/inmemory_posix_metadata_service.go:227-258 | Between two different parents one loses the child, the other gets it, and what it overwrites is gone |
| `NamespaceEffects.NestedRenameWithinRule` | internal/metadata_service/inmemory/inmemory_posix_metadata_service.go:227-258 | Within one parent the child leaves its old name before it takes the new one |
| `NamespaceEffects.NestedSetAttrRule` | internal/metadata_service/inmemory/inmemory_posix_metadata_service.go:260-286 | Exactly the given attributes and the change time of one inode object are set |
| `NamespaceEffects.NestedUpdateRule` | internal/metadata_service/inmemory/inmemory_posix_metadata_service.go:288-308 | Exactly the given size and modification time, the next version, the change time and the given chunk list of one inode object are stored |
| `NamespacePaths.NameLeadsTo` | internal/metadata_service/bolt/bolt_metadata_service.go:1110-1138 | A name under a directory leads to exactly the inode its entry names, and to an error if and only if there is none |
| `NamespacePaths.DotsStay` | internal/metadata_service/bolt/bolt_metadata_service.go:1107-1113 | The empty name, a single dot and the empty path lead nowhere else |
| `NamespacePaths.NoDirectoryNoName` | internal/metadata_service/bolt/bolt_metadata_service.go:1122-1128 | Only directories have names below them |
| `NamespacePaths.PathsCompose` | internal/metadata_service/bolt/bolt_metadata_service.go:1084-1147 | What comes after the first part of a path is looked up from where the first part leads, with the error of the first part if it has one |
| `NamespacePaths.CreatedIsFound` | internal/metadata_service/bolt/bolt_metadata_service.go:356-429 | After a create the path of the parent followed by the name leads to the new inode |
| `NamespacePaths.CreateKeepsPaths` | internal/metadata_service/bolt/bolt_metadata_service.go:356-429 | After a create every path that led somewhere still leads there |
| `NamespacePaths.RemovedIsNotFound` | internal/metadata_service/bolt/bolt_metadata_service.go:568-629 | After a remove in a well-formed namespace the path that led to the child finds nothing |
| `NamespacePaths.PathsAfterRemove` | internal/metadata_service/bolt/bolt_metadata_service.go:568-629 | Every other path from an inode that is still there leads where it led or stops at the removed name |
| `NamespacePaths.RenamedIsFound` | internal/metadata_service/bolt/bolt_metadata_service.go:462-541 | After a rename the new name leads to the moved inode from wherever the destination is reached |
| `NamespacePaths.RenamedIsGone` | internal/metadata_service/bolt/bolt_metadata_service.go:462-541 | After a rename the old name, if it is another one, leads nowhere from wherever the source is reached |
| `NamespacePaths.NestedPathsCompose` | internal/metadata_service/inmemory/inmemory_posix_metadata_service.go:354-393 | Paths compose on nested inodes as well |
| `NamespacePaths.NestedName` | internal/metadata_service/inmemory/inmemory_posix_metadata_service.go:368-390 | A name under a nested directory leads to exactly the child of that name |
| `NamespaceProof.FlatSimulatesNested` | internal/metadata_service/inmemory/inmemory_posix_metadata_service.go:150-308 | After any such sequence every path resolves alike and every inode exists in both with the same attributes and chunk list |
| `MetadataServices.TableService.ApplyCreate` | internal/metadata_service/bolt/bolt_metadata_service.go:328-429 | One transaction changes the byte-keyed tables so that they stand for what FlatStep says, or returns its error and changes nothing |
| `MetadataServices.TableService.ApplyRemove` | internal/metadata_service/bolt/bolt_metadata_service.go:543-631 | The entry and the child are deleted and the parent is stored again, as FlatStep says |
| `MetadataServices.TableService.ApplyRename` | internal/metadata_service/bolt/bolt_metadata_service.go:431-541 | The entry moves, an overwritten inode is deleted, and both parents are stored again, as FlatStep says |
| `MetadataServices.TableService.ApplySetAttr` | internal/metadata_service/bolt/bolt_metadata_service.go:633-701 | Only the given attributes and the change time are set |
| `MetadataServices.TableService.ApplyUpdateInode` | internal/metadata_service/bolt/bolt_metadata_service.go:703-769 | Size and modification time are set where given, the version counts up, the change time is now, everything else of the inode stays, and the chunk list is the given one, read back from its rows |
| `MetadataServices.TableService.LookupPath` | internal/metadata_service/bolt/bolt_metadata_service.go:1084-1147 | The loop over the parts resolves the path as FlatLookup says, which `NamespacePaths` describes name by name |
| `MetadataServices.TableService.ChunkList` | internal/metadata_service/bolt/bolt_metadata_service.go:1060-1075 | The chunk list read back from the rows of an inode is the one last stored |
| `MetadataServices.TableService.ListDirectory` | internal/metadata_service/bolt/bolt_metadata_service.go:788-831 | A listing of a well-formed namespace gives every child once, in order, and never reports a missing child |
| `MetadataServices.RunThenList` | internal/metadata_service/bolt/bolt_metadata_service.go:788-831 | After any operations with unused numbers on a new file system a listing never reports a missing child and gives every child of the directory once, in name order, with its inode and kind |
| `MetadataServices.ObjectService.ApplyCreate` | internal/metadata_service/inmemory/inmemory_posix_metadata_service.go:150-191 | Inode objects change in place as NestedCreate says |
| `MetadataServices.ObjectService.ApplyRemove` | internal/metadata_service/inmemory/inmemory_posix_metadata_service.go:193-225 | Deleting the child first and then changing the parent object is NestedRemove, also when they are the same object |
| `MetadataServices.ObjectService.ApplyRename` | internal/metadata_service/inmemory/inmemory_posix_metadata_service.go:227-258 | The same for a rename whose parents are one object, or whose overwritten inode is a parent |
| `MetadataServices.ObjectService.ApplySetAttr` | internal/metadata_service/inmemory/inmemory_posix_metadata_service.go:260-286 | Only the given attributes and the change time are set; a missing inode changes nothing |
| `MetadataServices.ObjectService.ApplyUpdateInode` | internal/metadata_service/inmemory/inmemory_posix_metadata_service.go:288-308 | The same on the inode object: given size and modification time, next version, change time, and the given chunk list or the old one |
| `MetadataServices.ObjectService.LookupPath` | internal/metadata_service/inmemory/inmemory_posix_metadata_service.go:354-393 | The loop over the parts resolves the path as NestedLookup says, which `NamespacePaths` describes name by name |
| `MetadataKeys.InodeKeyRoundTrip` | internal/metadata_service/bolt/bolt_metadata_service.go:1746-1762 | Decoding an encoded inode number gives it back |
| `MetadataKeys.InodeKeyOrder` | internal/metadata_service/bolt/bolt_metadata_service.go:1753-1762 | Byte order of encoded numbers is number order |
| `MetadataKeys.PrefixIsParent` | internal/metadata_service/bolt/bolt_metadata_service.go:1764-1769 | The prefix of one parent is a prefix of exactly that parent's keys |
| `MetadataKeys.SiblingsByName` | internal/metadata_service/bolt/bolt_metadata_service.go:1764-1769 | Keys of one parent are in the order of their names |
| `MetadataKeys.DentryKeyInjective` | internal/metadata_service/bolt/bolt_metadata_service.go:1764-1769 | Different parents or names have different keys |
| `MetadataKeys.ChunkKeyInjective` | internal/metadata_service/bolt/bolt_metadata_service.go:1692-1697 | Different inodes or chunk numbers have different keys |
| `OrderedBucket.Scan` | internal/metadata_service/bolt/bolt_metadata_service.go:808-829 | Seeking a prefix and walking on while keys have it finds every key that has it, in order |
| `MetadataTables.PutTabulates` | internal/metadata_service/bolt/bolt_metadata_service.go:400-429 | Storing an entry under its byte key is adding it to the entry map |
| `MetadataTables.RemoveTabulates` | internal/metadata_service/bolt/bolt_metadata_service.go:495-500 | Deleting a byte key is removing its entry |
| `MetadataTables.TableFinds` | internal/metadata_service/bolt/bolt_metadata_service.go:490-494 | A byte key is found exactly if its entry exists, with the inode it names |
| `MetadataTables.ReplaceTabulates` | internal/metadata_service/bolt/bolt_metadata_service.go:1656-1690 | Replacing the rows of one inode is replacing its chunk list |
| `DirectoryListing.ReadEntries` | internal/metadata_service/bolt/bolt_metadata_service.go:788-831 | The scan gives the entries of the directory, or the error for a missing directory, a file, or a missing child |
| `DirectoryListing.ListDir` | clients/library/client.go:789-821 | The cookie loop over pages of 100 ends and returns the whole listing |
| `DirectoryListing.ListedOnceInOrder` | internal/metadata_service/bolt/bolt_metadata_service.go:808-829 | In a well-formed namespace no child is missing, and every child is listed exactly once, in name order, with its inode |
| `ChunkLists.ReplaceChunkList` | internal/metadata_service/bolt/bolt_metadata_service.go:1656-1690 | Afterwards a scan of the inode finds exactly the new list, and scans of every other inode find what they found before |
| `ChunkLists.LoadChunkList` | internal/metadata_service/bolt/bolt_metadata_service.go:1629-1654 | Rows are read in key order into their positions, and a key of the wrong width is refused |
| `ChunkLists.StoreRule` | internal/metadata_service/bolt/bolt_metadata_service.go:1629-1654 | A row goes to its own position, and positions before it that had none are blank |
| `ChunkLists.ReplaceThenLoad` | internal/metadata_service/bolt/bolt_metadata_service.go:1629-1672 | Loading after replacing gives the list back |

## Left out

- HandleInstallSnapshot and replicateSnapshot: no step of the cluster installs a snapshot; a peer that needs one gets no request.
- Failing log-store writes in the cluster: StoreLogs changes memory before it persists, so a node whose write-ahead log fails is taken to have crashed; `FileLogStore.LogFile.StoreLogs` shows what a failed write leaves behind.
- Changing membership, and GetAllNodes failing: members are fixed, distinct, not empty strings, and include the node itself.
- Stop, leader address lookup, timers, metrics, logging, transport, JSON, gob and CRC32: encoders are taken as inverse pairs, and a file is its decoded contents.
- The state machine's contents after a restart: applying resumes at the snapshot index, so what is handed out is stated per process lifetime.
- Replicator.DurableRaft.HandleAppendEntries: asks for entries numbered on from prevLogIndex and for 64-bit indexes; every request sent in a clean run is numbered so (`RaftTheorems.RequestsNumbered`). The log store is a value there, reached through its interface; that `FileLogStore.LogFile` computes the same operations is proved on that class.
- Replicator.DurableRaft.CheckCompaction: nothing comes between its three sections, which are methods of their own; `RaftWindow` is about what can. It asks for lastApplied <= commitIndex and within the log, which `RaftTheorems.AppliesInOrder` gives.
- Replicator.DurableRaft.Lead: asks for pending entries numbered on from the log, which `RaftTheorems.PendingOnLeader` gives; so do Campaign, HandleVoteAnswer, FlushPending and Replicate.
- RaftRepair.RepairEnds: for a leader and a node of its term with no other event in between; what the snapshot then does is left out.
- RaftForgetting.CommittedEntryLost: one direction only; not every unclean crash loses an entry.
- Client.RoundTrip: one writer, a new file, no Read on a descriptor with a non-empty buffer, and the commit notifications of a write delivered to all its targets before the next request; `ChunkTheorems` is about what happens when they are not.
- Client.Descriptor.Write: descriptor table, open modes, timeouts and the retries below a request are not modelled; a request sent again writes the same bytes to the same place.
- FileServer.Server.HandleWrite: requests to one file come one after the other, and a write whose replication fails does not commit later; `ChunkRaces.CommittedButAborted` shows what such a late commit leaves, a longer file whose bytes were aborted, and nothing is claimed for the file then. Zero-length writes are not considered in the layout lemmas; checksums and the choice of targets are left out.
- FileReplicas.NewId: identifiers count up where the program draws random ones; both are taken to be new.
- ChunkTheorems.AcknowledgedEverywhere: each target is asked to prepare once per transaction, prepared files do not expire, existing files can be read, renaming a file and deleting its index entry are one step, and no intent is recorded as aborted, which the coordinator never does.
- Endpoint resolution, placement, permission checks, path cleaning and file statistics: they would only add easy members.
- applyChunkIntentAtomic, the consistent index, and recovery of the bolt tables: transactions are all or nothing, and the inode table is a map.
- NamespaceProof.RunSimulates: inode numbers are numbers; the text form of an id and ids that do not parse are left out. Acyclicity and link counts under arbitrary renames are not claimed.
- Rmdir's emptiness check and the services' checks before replicating: the state machines do not repeat them.

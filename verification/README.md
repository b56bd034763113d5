# Verification of d-raft

A Dafny model of d-raft, a deterministic laboratory for the Raft consensus protocol: the Raft
node, the cluster that crashes and restarts it, the virtual-time scheduler and random streams
under it, and the recording, replay and exploration of its decisions.  The proofs say, for all
inputs and all runs, what the program promises.

## The Raft core

The node of `raft/` is a state machine that asks for its own durability: a step that changes
durable state returns nothing but the write, and every message, application and timer that
depends on it waits for the acknowledgement.  The cluster of `raftsim/` completes writes and
acknowledges them by separate events, crashes a process at any point between them, restarts it
from its store, and keeps a mailbox while a write is outstanding.

| file | holds |
|---|---|
| `RaftTypes`, `Configuration`, `MembershipLoops`, `Validation` | values, configurations and their transitions, quorums, the restart check |
| `NodeSpec` | what every transition of the node computes, as functions on values |
| `RaftNode` | the node as an object with loops and updates in place, proved to compute `NodeSpec` |
| `History`, `LeaderCompleteness` | the history a run leaves behind, and leader completeness and election safety as consequences of local invariants |
| `Actions` | the protocol's atomic actions and why each keeps the invariants |
| `NodeRefinement`, `LeaderProofs`, `FollowerProofs`, `NodeProofs` | every handler is a sequence of actions; a compacted node is viewed with its whole log |
| `Answers`, `Replication`, `Requests` | what every input makes a node do, if and only if: votes, elections, messages and answers, proposals, configuration changes, compaction, timers, steps |
| `CatchUp` | how an exchange between a leader and a follower ends |
| `Compaction` | a node and its compacted twin behave alike |
| `ClusterSpec`, `ClusterInvariant`, `ClusterSafety`, `ClusterTheorems`, `Barrier` | processes, stores and events; the invariant; runs; the theorems |
| `Mailbox`, `Promptness` | inputs are handled in order and none is lost; leaders leave nothing uncommitted that they may commit |

The proof runs on a history that is not in the program: for each node its term, every ballot with
the voter's log at the time, and how far it acknowledged each leader; for each elected term the
leader, its voters and its log; and the one committed log.  Leader completeness is proved by
strong induction over terms.  Two candidates' quorums meet because the configurations of two logs
that differ have at most one configuration entry each past their common prefix, which in turn
holds because a configuration entry is appended only when every earlier one is committed.

Where the code departs from the paper, the invariant follows the code.

- A follower commits up to its own last index (`raft/node.go:533-534`); `AppendsCarryTheirCommits`
  is what makes this sound.
- A leader counts itself before its write is durable (`raft/node.go:119-124`); the step takes
  place for the rest of the world when it is stored, and until then only the state before it counts.
- Commit quorums use the configuration at the entry (`raft/node.go:650-651`).
- Beginning a change needs no commit in the current term; finalizing one needs the whole log
  committed.  Both guards appear as the invariant that a committed prefix separates any two
  configuration entries of a log.
- A sole voter leads inside its own pending write; leadership is claimed of nodes that are not in
  the middle of one.

## Promises that hold only in part

Each comes with the exact condition and a run where it fails.

- A follower cannot always be caught up.  If it compacted entries whose acknowledgement the leader
  never got, it refuses everything that starts before its snapshot with a hint that lies ahead
  (`raft/node.go:472-490`), the leader goes one entry back instead (`raft/node.go:611-628`), and
  with the entries at hand it never sends a snapshot: `CatchUp.CatchesUpExactly`,
  `Corners.CatchingUpCanStall`.
- An application cannot always be rebuilt after a crash (`raftsim/cluster.go:998-1029`).  If a
  snapshot was installed before, so that older entries are gone, and a newer one was written but
  its acknowledgement was lost in the crash, recovery fails with an apply-order error:
  `ApplicationTheorems.RecoveryIsExact`, `UnrecoverableWindow`, `Corners.RecoveryCanFail`.
- Snapshots of one index agree in term and configuration on every run; in data they agree when
  they are checkpoints of an application, or when no two nodes are told different data for one
  index, which the caller supplies (`raftsim/cluster.go:501-507`): `Watching.DataWasTold`,
  `Corners.SnapshotsCanConflict`.
- Events run in order unless an event's action runs the simulator past the end of a `RunUntil`
  around it, which then sets the clock back (`simulator.go:329-335`): `Scheduler.OrderedExactly`,
  `NestedRunBreaksOrder`.
- A projection report passes the validator unless it counts more fixed or additional choices than a
  tape may hold (`semanticplan/execution.go:382-384`): `Projection.ReportsAreValid`, `TooManyFixed`.

## Under and around it

| file | holds |
|---|---|
| `Checker`, `Watching` | the online history checker as an object that knows exactly what a history of observations says; its silence on every run of the cluster |
| `Checkpoints`, `Vouching` | what messages and snapshots a step handles, and where every snapshot of a run comes from |
| `Application`, `ApplicationSafety`, `ApplicationTheorems` | the application of every process, its checkpoints and its recovery, for any deterministic machine |
| `Commands`, `Oracle` | the portable key-value machine: binary commands, self-verifying checkpoints |
| `Corners` | concrete runs that reach the corners |
| `EventQueue`, `Scheduler`, `Simulator` | the binary heap of event objects with stored indexes, the scheduler as operations on a value, and the object that implements it |
| `Rand`, `SeedDecider` | SplitMix64 on explicit 64-bit words, exactly uniform bounded draws, weighted choices |
| `Decision` | choices, tapes, recorder and replayer |
| `Projection` | directives of one run projected onto another, and the independent re-check |
| `Minimize` | reduction of failing runs |
| `Octets`, `StateCache`, `Explore` | bytes, the collision-safe cache and the depth-first search by clean reruns |

Identifiers of nodes are naturals, with zero for the empty identifier.  Time is a natural number
of nanoseconds, and 64-bit wrap-around is written out wherever the program relies on it.

## Model

| member | source | states |
|---|---|---|
| `Configuration.AdjacentQuorumsMeet` | raft/membership.go:100-115 | any quorum of one configuration and any quorum of another, each at most one configuration entry away from a common base, share a voter; this is why joint consensus is safe |
| `Configuration.OneConfigIsAdjacent` | raft/membership.go:63-90 | a legal chain with at most one configuration entry ends in a configuration adjacent to the one it started from, and in the same one if it has none |
| `Configuration.ChainConcat` | raft/membership.go:63-90 | a log is a legal chain exactly when its front is and its rest is from the configuration the front ends in |
| `Configuration.QuorumExactly` | raft/membership.go:100-115 | nodes are a quorum if and only if more than half of the voters are among them, and during a change more than half of the outgoing voters too |
| `Configuration.StableExactly` | raft/membership.go:28-53 | a stable configuration, of any lists, is legal if and only if it has a voter, repeats nobody, and keeps within the universe |
| `MembershipLoops.HasQuorum` | raft/membership.go:100-115 | the counting loops decide exactly whether the matching nodes hold a majority of each active voter set |
| `MembershipLoops.VoterUnion` | raft/membership.go:117-126 | the collected and sorted union is sorted and holds exactly the voters of either set |
| `MembershipLoops.IsValidMembership` | raft/membership.go:128-158 | the loops accept exactly the canonical, disjoint configurations over the universe |
| `Configuration.SortedSorts` | raft/membership.go:48-53 | sorting a node set gives an ordered permutation of it |
| `RaftHistory.TermsMonotone` | raft/node.go:495-500 | terms never decrease along a log of a reachable history |
| `LeaderCompleteness.QuorumsOfCloseLogsMeet` | raft/node.go:260-304 | quorums of the configurations of two logs meet when each has at most one configuration entry past their common prefix |
| `LeaderCompleteness.CommitPointBetween` | raft/node.go:260-304 | between two configuration entries of one log there is always a committed prefix, which is what the guards on beginning and finalizing a change buy |
| `LeaderCompleteness.Complete` | raft/node.go:644-661 | LEADER COMPLETENESS: whoever wins a quorum of its own log's configuration in a later term ran with every committed prefix of every earlier term, through any reconfiguration |
| `LeaderCompleteness.UniqueWinner` | raft/node.go:426-470 | whoever wins a quorum in a term is the leader already elected in it, even when the two counted votes under different configurations |
| `LeaderCompleteness.CommitPointsComparable` | raft/node.go:644-661 | any two committed prefixes, of any terms, are prefixes one of the other |
| `LeaderCompleteness.CommittedLogOK` | raft/node.go:644-661 | the global committed log is itself a matched log of legal configurations whose length fits 64 bits |
| `RaftActions.MessageGrows` | raft/types.go:203-225 | what a message says about its sender's durable history stays true forever, so lost, late and repeated delivery are harmless |
| `RaftActions.NodeFrame` | raft/node.go:77-159 | no step of one node disturbs the invariant of another |
| `RaftActions.Bump` | raft/node.go:742-755 | following a later term keeps every invariant of the history and of the node |
| `RaftActions.CastBallot` | raft/node.go:400-424 | granting a vote keeps them: one ballot a term, only for a log at least as up to date, holding all that was acknowledged before |
| `RaftActions.Elect` | raft/node.go:441-470 | becoming leader on a quorum of votes keeps them: it opens the term's only log, with the no-op after everything committed |
| `RaftActions.Append` | raft/node.go:113-124 | a leader appending to its own log, and counting itself before the write is durable, keeps them |
| `RaftActions.Adopt` | raft/node.go:472-541 | a follower replacing its log from the first difference by a stretch of the leader's log keeps them: nothing committed or acknowledged is lost |
| `RaftActions.LearnCommit` | raft/node.go:644-661 | a leader committing an entry of its term on a quorum of the configuration at that entry extends the one committed log |
| `NodeRefinement.GoodIsWF` | raft/node.go:770-841 | a node that satisfies the invariant has contiguous indexes, legal configurations, everything committed available, and a cached configuration equal to the fold of transitions over snapshot and log |
| `NodeRefinement.MembershipAtFull` | raft/node.go:814-841 | the configuration read from snapshot and suffix is the fold over the whole log from index one |
| `LeaderProofs.AdvanceCommitOK` | raft/node.go:644-661 | advancing the commit index keeps the invariant and applies exactly the newly committed entries, in order |
| `LeaderProofs.AppendForOK` | raft/node.go:686-723 | every AppendEntries or InstallSnapshot a leader sends is justified: a stretch of its log up to its end, with a commit index inside it, or a committed checkpoint |
| `LeaderProofs.CandidateAsksVoters` | raft/node.go:343-359 | a candidate asks exactly the other voters of either set for their vote |
| `LeaderProofs.StartElectionOK` | raft/node.go:321-360 | starting an election keeps the invariant, including a sole voter that becomes leader at once |
| `LeaderProofs.HandleRequestVoteResponseOK` | raft/node.go:426-470 | counting a vote, and becoming leader on a quorum, keeps the invariant |
| `FollowerProofs.HandleRequestVoteOK` | raft/node.go:400-424 | answering a vote request keeps the invariant and never grants what the ballots do not bear out |
| `FollowerProofs.MergeAdopts` | raft/node.go:511-527 | merging received entries into a compacted log is adopting the leader's log up to their end, and never leaves a gap |
| `FollowerProofs.HandleAppendEntriesOK` | raft/node.go:472-541 | an AppendEntries keeps the invariant, acknowledges only what is then in the log, and commits at most what the leader committed |
| `NodeProofs.HandleAppendEntriesResponseOK` | raft/node.go:611-642 | counting an acknowledgement, or backing off after a rejection, keeps the invariant |
| `NodeProofs.HandleInstallSnapshotOK` | raft/node.go:543-590 | installing, acknowledging or refusing a snapshot keeps the invariant, and restores the application only forward |
| `NodeProofs.CompactedCore` | raft/node.go:125-142 | compaction leaves the whole log, and every role, term, vote and index, as they were |
| `NodeProofs.BeginMembershipOK` | raft/node.go:260-290 | beginning a configuration change keeps the invariant although no entry of the current term need be committed first |
| `NodeProofs.FinalizeMembershipOK` | raft/node.go:292-304 | finalizing a change, on a wholly committed log, keeps the invariant |
| `NodeProofs.ReactOK` | raft/node.go:77-159 | every input leaves a later history of which every invariant holds, justified effects in an order the application accepts, and no durable change without a write; it never panics |
| `NodeSpec.HighestCommittableBounds` | raft/node.go:644-661 | the chosen commit index is committable and every later one is not |
| `Answers.VotesExactly` | raft/node.go:400-424 | A VOTE IS GRANTED if and only if the request is not of an earlier term, both nodes are voters of the voter's configuration, the vote of that term is free or this candidate's, and the candidate's last term and length are at least those of the voter's whole log; with what is stored and answered |
| `Answers.CampaignsExactly` | raft/node.go:321-360 | an election timeout makes a voter a candidate of the next term that voted for itself and asked exactly the other voters, or at once leader if it needs no other vote; with each error |
| `Answers.WinsExactly` | raft/node.go:426-470 | A CANDIDATE WINS if and only if those who granted it their vote in its term, with those it counted before, are a quorum of its configuration, in whatever order and however often the answers come; then its log ends in the no-op of its term |
| `Answers.QuorumElects` | raft/node.go:400-470 | AN ELECTION SUCCEEDS: asked by a candidate, voters that with it are a quorum, did not vote otherwise and have no newer log make it leader by their replies |
| `Replication.ShipsExactly` | raft/node.go:686-723 | what a leader sends a member is, on the whole log, all that comes after the member's next index, with its commit index, or the snapshot if that is gone, under the member's next number |
| `Replication.BroadcastsExactly` | raft/node.go:676-684 | a heartbeat ships to every other member once, in order, just that |
| `Replication.AppendsExactly` | raft/node.go:472-541 | A FOLLOWER TAKES a message of its term or a later one if and only if its log agrees with the leader's up to the previous index and is not compacted past it; then it holds all the message reaches, commits as far as the leader says, and acknowledges just that; otherwise its log stays and it says where to go on |
| `Replication.InstallsExactly` | raft/node.go:543-590 | A FOLLOWER INSTALLS a snapshot if and only if it has not committed as far, keeping what its log has past it where they agree, and always answers that it holds it |
| `Replication.AcksExactly` | raft/node.go:592-661 | AN ACKNOWLEDGEMENT COUNTS: the record of the sender rises to what it acknowledged and no other changes; the commit index becomes the highest index of the leader's term that a quorum of the configuration at it, the sender included, is recorded to hold, if there is one; it ships what the sender still lacks; and it stops leading if and only if it commits without being a voter |
| `Replication.BacksOffExactly` | raft/node.go:611-628 | A REJECTION of the latest message takes the leader one entry back, or further where the follower says, and makes it ship again from there; any other rejection is ignored |
| `Replication.EachRejectionGoesBack` | raft/node.go:611-628 | the next message after an accepted rejection has a smaller previous index, or is a snapshot, until the leader is back at the first entry |
| `Replication.OldTermsExactly` | raft/node.go:400-661 | a message of an earlier term changes nothing: a request is refused in the present term, an answer is ignored |
| `CatchUp.CatchesUp` | raft/node.go:472-723 | A FOLLOWER CATCHES UP: left alone with the leader it holds the leader's whole log, and the leader knows it, after at most as many rounds as the leader can go back and two more, if it is not compacted past where the leader goes on |
| `CatchUp.StaysBehind` | raft/node.go:472-490 | otherwise, however long they exchange messages, the leader never learns that it holds the log |
| `CatchUp.CatchesUpExactly` | raft/node.go:472-723 | so a leader that is a voter gets to know it if and only if the follower's snapshot does not reach past where the leader goes on with it |
| `Corners.CatchingUpCanStall` | raft/node.go:472-490 | a run of an elected leader and a follower that took its first entry and compacted it before the leader heard of it; every later message of the leader is refused, for any number of rounds |
| `Requests.ProposesExactly` | raft/node.go:106-124 | A PROPOSAL IS ACCEPTED if and only if the node leads, votes, has no configuration entry past its commit index, and has an index left; then its log ends in the command, it commits what it may, and ships to every other member; with each error in order |
| `Requests.BeginsExactly` | raft/node.go:260-320 | A CHANGE BEGINS if and only if a voting leader outside any change is asked for a legal configuration other than the present one, with an index left; then its log ends in the joint configuration, in which learners that still vote wait |
| `Requests.FinalizesExactly` | raft/node.go:292-320 | A CHANGE IS FINALIZED if and only if a leader in a joint configuration has committed its whole log and has an index left; then its log ends in the new voters and the learners that waited |
| `Requests.CompactsExactly` | raft/node.go:125-142 | a snapshot is taken if and only if its index is past the last one and applied; it carries the term and configuration at it, and the whole log stays the same |
| `Requests.TimersExactly` | raft/node.go:321-590 | the election timer is armed again exactly by a campaign, a granted vote and a leader's sign of life; the heartbeat timer exactly by a heartbeat and on winning |
| `Requests.StepsExactly` | raft/node.go:77-159 | THE BARRIER, step by step: while a write is outstanding nothing but its own acknowledgement is accepted, and that releases what waited; a durable change asks for its write alone, anything else releases its effects at once |
| `Requests.StartsExactly` | raft/node.go:63-74 | a node starts as a follower of its store: it restores a snapshot the application lacks, applies in order what is committed past that, and arms the timer of a voter |
| `RaftNode.Node.constructor` | raft/node.go:39-58 | on an accepted configuration and state, a new node is a follower with the state as given and the configuration folded from it |
| `RaftNode.Node.Start` | raft/node.go:63-74 | restores the snapshot the application lacks, then re-emits what is committed, then arms the timer of a voter |
| `RaftNode.Node.Step` | raft/node.go:77-159 | computes exactly the step that the cluster theorems are about: barrier, acknowledgement, every handler and every error |
| `RaftNode.Node.StepMessage` | raft/node.go:362-398 | rejects wrong routes, follows later terms durably, and dispatches |
| `RaftNode.Node.HandleAppendEntries` | raft/node.go:472-541 | the validating and truncating loops compute the specified merge, rejection hints included |
| `RaftNode.Node.MergeEntries` | raft/node.go:511-527 | the in-place loop leaves the log up to the first difference followed by the incoming rest, or reports a gap and changes nothing |
| `RaftNode.Node.HandleInstallSnapshot` | raft/node.go:543-590 | refuses unacceptable snapshots and illegal suffixes, acknowledges known ones, installs new ones |
| `RaftNode.Node.AdvanceCommit` | raft/node.go:644-661 | the downward loop finds the highest committable index of the current term and steps a removed leader down |
| `RaftNode.Node.AppendFor` | raft/node.go:686-723 | sends everything from the next index, or the snapshot, numbering the message |
| `RaftNode.Node.MembershipAt` | raft/node.go:814-837 | the loop folds the transitions up to an index, and is never cut short on a legal log |
| `RaftNode.Node.HandleBeginMembership` | raft/node.go:260-290 | the guards in order, then the joint configuration with its learners |
| `Validation.Check` | raft/types.go:107-169 | the checks and the log walk report exactly the specified error |
| `Validation.AcceptedConfig` | raft/types.go:107-133 | an accepted configuration is an ordered universe without the empty identifier and a legal initial configuration over it |
| `Validation.AcceptsExactly` | raft/types.go:107-133 | a configuration is accepted, on the lists as given, if and only if the node is one of the members, which are named once each, and either all vote or voters and learners are given, nobody twice, all of them members |
| `Validation.AcceptedState` | raft/types.go:134-169 | an accepted state is contiguous, legal and in term order, lacks nothing committed, and a node can go on from it |
| `Compaction.CompactionMakesTwins` | raft/node.go:125-142 | compacting makes a twin: the same node but for a log prefix replaced by a snapshot that stands for it |
| `Compaction.TwinsAgree` | raft/node.go:766-841 | twins have the same last index, and the same term, entries and configuration at every index from the boundary on |
| `Compaction.TwinsAnswerAlike` | raft/node.go:472-541 | twins give any AppendEntries whose previous index is at or past the boundary the same answer and effects, and stay twins |
| `Compaction.TwinsVoteAlike` | raft/node.go:400-424 | twins give any vote request the same answer |
| `ClusterInvariant.PerformOK` | raftsim/cluster.go:849-996 | performing justified effects never meets an entry out of order and moves the application exactly as they say |
| `ClusterInvariant.SubmitOK` | raftsim/cluster.go:815-847 | submitting an input to a process, queued or at once, keeps every invariant |
| `ClusterInvariant.CompleteWriteOK` | raftsim/cluster.go:876-890 | storing a write is when its step takes place; a crash armed for that moment keeps every invariant |
| `ClusterInvariant.AcknowledgeOK` | raftsim/cluster.go:896-912 | an acknowledgement releases the held effects and drains the mailbox, keeping every invariant |
| `Mailbox.HandledInOrder` | raftsim/cluster.go:815-1055 | NOTHING IS LOST OR OVERTAKEN: at every moment of every run without an error a running process is where a node comes to that takes the inputs given to it since its start one after another, but for a rest that is just its mailbox, empty unless a write is outstanding; and what it sent is what they ask for, but for what waits for that write |
| `Mailbox.SentIsOut` | raftsim/cluster.go:849-875 | what a process sent is in the network |
| `Mailbox.WriteReachesStore` | raftsim/cluster.go:876-890 | a completed write puts the node's state into the store, and the process survives it if and only if no crash was armed since it started |
| `ClusterInvariant.RecoverOK` | raft/node.go:39-58 | losing everything volatile keeps the invariant |
| `ClusterInvariant.StoredStateValid` | raft/types.go:107-169 | whatever satisfies the invariant passes the restart check, final configurations and indexes included |
| `ClusterSafety.AfterOK` | raftsim/cluster.go:780-921 | every event of the cluster keeps the invariant of every process, store and message, and moves no durable term, commit or application index back |
| `ClusterSafety.RunOK` | raftsim/cluster.go:677-716 | every run, with loss, duplication, reordering, crashes at any write boundary and restarts, has histories that explain each of its states |
| `ClusterTheorems.StateMachineSafety` | raft/node.go:644-674 | STATE MACHINE SAFETY: committed entries at one index agree, on any two nodes, at any two moments of any run |
| `ClusterTheorems.ApplicationsAgree` | raftsim/cluster.go:946-990 | applications took the same entry at the same index, and it is the one every durable log has committed there |
| `ClusterTheorems.SnapshotsAgree` | raft/node.go:125-142 | snapshots at one index carry the same term and configuration, and the ones any log that still holds the entry has there |
| `ClusterTheorems.ElectionSafety` | raft/node.go:321-470 | ELECTION SAFETY: at most one node ever leads a term, whatever configurations the candidates held; leaders in the middle of a write do not count yet |
| `ClusterTheorems.LeadersAreComplete` | raft/node.go:757-760 | a leader holds every entry that any node, at any moment, committed in an earlier term, and every entry committed before in its own |
| `Promptness.LeadersCommitPromptly` | raft/node.go:644-661 | LEADERS COMMIT PROMPTLY: at every moment of every run a running leader has committed every entry of its term that it has on record as held by a quorum of the configuration at it |
| `ClusterTheorems.DurableLogsMatch` | raft/node.go:472-541 | LOG MATCHING over durable logs, above both snapshot boundaries, on any two nodes, at any two moments |
| `ClusterTheorems.AppendsCarryTheirCommits` | raft/node.go:533-534 | every AppendEntries ever sent has a commit index inside its entries; this makes committing up to the last index sound |
| `ClusterTheorems.AppendsMatchLogs` | raft/node.go:686-723 | LOG MATCHING between entries in flight and every durable log |
| `ClusterTheorems.NothingPendingMeansDurable` | raft/node.go:152-158 | with no write outstanding a running node is exactly its store, well formed, and wholly applied |
| `Barrier.MessagesAreBornOut` | raft/node.go:251-258 | PERSISTENCE BARRIER: every message was sent at a moment when the sender's store was in its term and bore it out: the vote was stored, and the acknowledged prefix too, the same as in the leader's log |
| `Barrier.MessagesStayBornOut` | raft/node.go:251-258 | it stays so at every later moment, through any crash: the store's term is as high, and within that term the vote and the acknowledged prefix are still there |
| `ClusterTheorems.RestartAccepted` | raft/types.go:107-169 | at every moment every store passes the restart check, and booting from it succeeds and catches the application up |
| `ClusterTheorems.AppliedExactlyOnce` | raftsim/cluster.go:946-990 | every application took entries in order without gap or repeat; out-of-order application, overlapping writes, unexpected acknowledgements, refused starts and panics never happen |
| `ClusterTheorems.StoresMoveForward` | raftsim/cluster.go:853-921 | durable terms, commit indexes and application indexes never decrease over a run |
| `ClusterTheorems.OneVotePerTerm` | raft/node.go:400-424 | a node's durable vote in a term, once cast, is the same at every moment of a run, through crashes and restarts |
| `Checker.FirstFindsConflicts` | check/check.go:410-424 | comparing each record with the first one of its key finds a conflict exactly when two records of the history conflict |
| `Checker.PeakFindsDrops` | check/check.go:402-409 | comparing each value with the highest so far finds a decrease exactly when some later value is below some earlier one |
| `Checker.Checker.CheckPair` | check/check.go:480-508 | the one pass over the common window reports a pair exactly when some index of equal terms lies at or after a difference: log matching fails |
| `Checker.Checker.CheckMembership` | check/check.go:359-395 | reports a node exactly when its snapshot and log are not a legal chain of configurations |
| `Checker.Checker.Observe` | check/check.go:251-270 | after any sequence of observations each historical alarm is raised if and only if two records of the history witness it, and every alarm that this observation accounts for by itself is raised |
| `Checker.AlarmsMean` | check/check.go:251-270 | the historical alarms, said on the observations themselves: each is raised if and only if two of them contradict each other in a leader, a committed entry, a snapshot, or a number that went down |
| `Checker.AlarmsAreExact` | check/check.go:251-270 | any other alarm is raised if and only if it was before, or two durable logs of this observation disagree, or one of its nodes is out of step, has an illegal chain of configurations, or leads without an entry the checker remembers as committed |
| `Watching.LeadersLackNothing` | check/check.go:529-547 | what the checker remembers as committed, every later leader of a run holds |
| `Watching.SnapshotsConflictInData` | check/check.go:450-462 | snapshots of one index in a run can differ in nothing but the application's data |
| `Watching.QuietHistory` | check/check.go:251-270 | no two observations of a run witness an alarm, but for snapshots with different data |
| `Watching.Watch` | check/check.go:251-270 | THE CHECKER IS SILENT: of the modelled alarms it raises, fed with every state of any run, nothing but snapshot conflicts in data, and nothing at all when the data agree |
| `EventQueue.RootIsFirst` | queue.go:17-22 | the root of the heap comes before everything else in it |
| `EventQueue.SwapDown` | queue.go:66-85 | swapping with the smaller child moves the only disorder down and mends what is above it |
| `EventQueue.EventHeap.Remove` | queue.go:40-53 | removing any event by its stored index keeps order and every stored index, and takes out just that event |
| `EventQueue.EventHeap.Pop` | queue.go:36-38 | takes out an event that no remaining one comes before |
| `Scheduler.ExecutionIsOrdered` | simulator.go:167-341 | over any program, whose events' actions may schedule, cancel, step and run the simulator themselves, executed events strictly increase in time and identifier unless a RunUntil set the clock back behind them |
| `Scheduler.OrderedExactly` | simulator.go:319-342 | the order is safe from then on if and only if the end of a RunUntil is not before the last executed event, or no event can be scheduled any more |
| `Scheduler.NestedRunBreaksOrder` | simulator.go:319-342 | a step inside an event's action takes the clock past the end of the RunUntil around it; an event scheduled afterwards runs out of order |
| `Scheduler.AddsAtExactly` | simulator.go:155-205 | scheduling at a time is accepted if and only if the time is not past and identifiers are left; then exactly one event is added, under a new identifier, due at that time; with each error |
| `Scheduler.AddsAfterExactly` | simulator.go:132-153 | scheduling after a delay is accepted if and only if the delay is not negative, does not overflow the clock, and identifiers are left; then exactly one event is added, under a new identifier, due that long after the present |
| `Scheduler.RunsAfterDelay` | simulator.go:132-342 | AN EVENT RUNS WHEN IT IS DUE: whatever follows, it is executed at most once, with its time the delay after the clock at its scheduling; and unless something cancels it, it waits or was executed |
| `Scheduler.RunsAtTime` | simulator.go:155-342 | the same of an event scheduled at a time |
| `Scheduler.CancelledNeverRuns` | simulator.go:252-269 | a cancelled event neither waits nor runs, whatever follows |
| `Scheduler.StepsExactly` | simulator.go:280-298 | a step executes the earliest event, of equal times the one scheduled first, and takes the clock to it |
| `Scheduler.RunsUntilExactly` | simulator.go:319-342 | unless its end is past, a RunUntil ends with the clock at the end and everything pending later than that, having executed once each event that was due and not cancelled, or goes on as long as something is due; nothing later runs unless an action runs it |
| `Simulator.Simulator.RunUntil` | simulator.go:319-342 | executes exactly what is due, event by event, and then sets the clock to the end, or stops at a bound; with each error |
| `Simulator.Simulator.AddAt` | simulator.go:167-202 | heap, pending table and counters do to their contents what scheduling specifies, with each error and the last identifier |
| `Simulator.Simulator.Cancel` | simulator.go:252-269 | removes exactly the event with the identifier, or reports that there is none |
| `Simulator.Simulator.Step` | simulator.go:280-298 | runs the specified next event whatever the heap layout, so simulators with equal canonical contents go on alike |
| `Rand.MixInjective` | rand.go:67-75 | the output function is one-to-one on 64-bit words |
| `Rand.DrawsDistinct` | rand.go:67-75 | within 2^64 draws no word comes twice |
| `Rand.ExactlyUniform` | rand.go:180-189 | for every bound and every result below it, the accepted words with that result are exactly floor(2^64 / bound) consecutive ones |
| `Rand.RejectedSize` | rand.go:180-189 | exactly 2^64 mod bound words are rejected |
| `Rand.RejectionsEnd` | rand.go:180-189 | so many draws in a row at most are rejected, and the loop ends |
| `Rand.Rand.Uint64N` | rand.go:180-189 | the loop returns the high word of the first accepted draw and leaves the state right after it |
| `SeedDecider.EachOptionGetsItsWeight` | decision/decision.go:121-140 | of all words, each option is picked by its weight times one and the same number of them |
| `SeedDecider.SeedDecider.Choose` | decision/decision.go:117-148 | fails exactly on invalid choices and overflowing weights, and otherwise selects from the domain by one accepted draw: the option it falls to, or the lower bound plus its high word |
| `Decision.RecordingIsValid` | decision/decision.go:179-199 | a recording has one valid entry for every answer, with the answer in it |
| `Decision.ReplayReproduces` | decision/decision.go:270-301 | replaying a recorded tape gives the same selections and outcome, with every entry consumed |
| `Decision.ReplayImpliesMatch` | decision/decision.go:270-293 | a replay answers a choice only with the entry recorded for that identity, kind, domain and context |
| `Decision.AnswersOwnChoices` | decision/decision.go:270-293 | a valid tape answers a valid choice if and only if the entry that is due recorded the same choice, and then with what is recorded, which is in the choice's domain |
| `Decision.RecordThenReplay` | decision/decision.go:167-301 | the recorder and the tape decider, run one after the other on any program, make the same selections and leave nothing over |
| `StateCache.FieldsInjective` | explore/explore.go:343-346 | length-prefixed fields are told apart whatever follows them |
| `StateCache.IdentityInjective` | explore/explore.go:323-341 | equal cache identities have equal parts and equal remaining depth |
| `StateCache.StateCache.Seen` | explore/explore.go:108-131 | reports exactly the bytes stored before, whatever the hash, and stores new ones when there is room |
| `Explore.SameFutureSameLeaves` | explore/explore.go:165-283 | points with the same future have the same outcomes below them, to any depth |
| `Explore.PrefixReaches` | decision/control.go:43-53 | a clean rerun of a prefix of open choices comes to exactly what the program does there, fully consumed |
| `Explore.ChildrenCover` | explore/explore.go:242-250 | the pushed children cover every outcome below the point they replace |
| `Explore.TopSeen` | explore/explore.go:220-232 | pruning a seen state loses nothing, because what covers it lies strictly deeper |
| `Explore.OptionsTried` | explore/explore.go:348-359 | of options exactly the first ones are tried, in order, as many as the bound allows |
| `Explore.RangeTried` | explore/explore.go:360-384 | of a range that is only sampled the least number is tried, the greatest from two samples on, and the middle from three on |
| `Explore.SampledExactly` | explore/explore.go:348-384 | a domain counts as sampled if and only if some valid selection of it is not tried |
| `Explore.TreeIsWhole` | explore/explore.go:165-283 | where no domain is sampled and no path of valid selections is deeper than the bound, the outcomes of the bounded tree are exactly those the program can attain by valid selections |
| `Explore.Explorer.Search` | explore/explore.go:165-283 | a search that was not cut short finds exactly the outcomes of the bounded tree, with a violation if and only if there is one; if besides no domain was sampled and no path is too deep, exactly the outcomes of the program; it is cut short only by its runs or at a violation, and fails only on a choice that is not valid |
| `Explore.SearchBothWays` | explore/explore.go:138-159 | for any hash and any cache bounds the cached and the uncached search find the same outcomes |
| `Application.RecoverApplication` | raftsim/cluster.go:998-1029 | the loop rebuilds the machine as specified: from a usable checkpoint or from the beginning, over entries without a gap up to the applied index |
| `Checkpoints.ReactTraced` | raft/node.go:77-159 | every snapshot a step stores, sends or restores is its old one, the one in the message, or the one it was told to take, which lies further on |
| `ApplicationSafety.PerformApplies` | raftsim/cluster.go:946-990 | the effects of a step move the application exactly as far along the committed log as they move the store; a restored checkpoint never fails and never conflicts |
| `ApplicationSafety.AcknowledgeApplies` | raftsim/cluster.go:896-912 | so do an acknowledgement and everything drained after it |
| `ApplicationSafety.RecoverIsMachine` | raftsim/cluster.go:998-1029 | a store can be recovered from if and only if its snapshot is not ahead of the applied index or none was ever installed, and then to the machine of the whole log so far |
| `ApplicationTheorems.OneLog` | raftsim/cluster.go:946-990 | over every run there is one log whose commands make every live machine, every checkpoint and every recovery, of any node at any moment |
| `ApplicationTheorems.EqualIndexEqualMachine` | raftsim/cluster.go:946-990 | machines that applied equally far are equal, on any two nodes, at any two moments, through snapshots, crashes and recoveries |
| `ApplicationTheorems.RecoveryIsExact` | raftsim/cluster.go:998-1029 | RECOVERY over every run: it succeeds exactly on recoverable stores, and gives the machine that any node that applied as far was running |
| `ApplicationTheorems.UnrecoverableWindow` | raftsim/cluster.go:876-912 | the only moment whose crash can leave a store that cannot be recovered from is between a stored write and its acknowledgement |
| `ApplicationTheorems.CheckpointsAgree` | raftsim/cluster.go:510-545 | durable checkpoints of one index carry the same data, on any two nodes, at any two moments |
| `ApplicationTheorems.WhatBreaks` | raftsim/cluster.go:946-990 | an event breaks an application if and only if it is a restart from an unrecoverable store, or applies a command of the one log that the machine refuses; for every application, the key-value machine included |
| `Corners.RecoveryCanFail` | raftsim/cluster.go:998-1029 | whatever the application, a run with one voter and one learner that ends with a store from which recovery fails |
| `Vouching.RunVouched` | raft/node.go:125-142 | at every moment of a run each snapshot anywhere is one that some node was told to take, with just that data |
| `Watching.DataWasTold` | check/check.go:450-462 | two durable snapshots of one index differ in data only if nodes were told to take them with different data |
| `Watching.WatchTold` | check/check.go:251-270 | so with one data per index the checker raises none of the modelled alarms, on any run |
| `Corners.SnapshotsCanConflict` | check/check.go:450-462 | for any two data a run that stores snapshots of one index with them |
| `ApplicationTheorems.WatchApplication` | check/check.go:251-270 | with an application the checker raises none of the modelled alarms, on any run |
| `Commands.DecodesWhatItEncodes` | apporacle/apporacle.go:207-227 | decoding undoes encoding, for every command that can be encoded |
| `Commands.EncodesWhatItDecodes` | apporacle/apporacle.go:230-260 | encoding undoes decoding, for all bytes that are accepted: no command has two forms |
| `Commands.AcceptsExactly` | apporacle/apporacle.go:230-277 | bytes are accepted if and only if they are the layout of a command with an identity, a key of at most 64 KiB, a value only with a put, and at most 1 MiB in all |
| `Oracle.Machine.Apply` | apporacle/apporacle.go:308-364 | a command is refused and changes nothing, or makes the specified state, byte counts and chained block |
| `Oracle.AppliesExactly` | apporacle/apporacle.go:308-364 | a command is applied if and only if its identity is new and there is room for it in the history and in the state it leads to; a put gives its key the value, a deletion takes the key away, and no other key changes |
| `Oracle.Machine.Sorted` | apporacle/apporacle.go:392-396 | lists the state in strictly ascending order of keys, whatever order they come in |
| `Oracle.CanonicalUnique` | apporacle/apporacle.go:392-396 | a state has only one such listing |
| `Oracle.FedIsCounted` | apporacle/apporacle.go:308-364 | on every reachable machine the byte counters equal the real sums and stay within bounds, and the history is what it was fed |
| `Oracle.RestoreExactly` | apporacle/apporacle.go:437-480 | what restores is exactly the checkpoint of a reachable machine, and it restores that machine in every field |
| `Oracle.RestoreCheckpoint` | apporacle/apporacle.go:437-480 | the checking and replaying loops compute that restore, with each error |
| `Oracle.ReplayComposes` | apporacle/apporacle.go:484-509 | replaying a log whole and replaying its rest from a checkpoint of its front come to the same commitment and blocks |
| `Oracle.ReplaysExactly` | apporacle/apporacle.go:484-509 | a log is replayed if and only if its commands, and nothing else in it, can be fed to a new machine one after another; it comes to that machine's commitment and blocks |
| `Oracle.KeyValueIsFaithful` | apporacle/apporacle.go:400-433 | encoded and decoded checkpoints of the key-value machine restore it, so that the theorems about applications hold of it |
| `Minimize.SimplerIsSimpler` | minimize/minimize.go:213-241 | every proposed replacement is another valid selection of the same choice, a smaller number if a number, and none is proposed twice |
| `Minimize.ProposesOptions` | minimize/minimize.go:213-222 | of options exactly dropping is proposed, if it is an option and not selected, and then the first option, if it is another |
| `Minimize.ProposesNumbers` | minimize/minimize.go:223-241 | of numbers above the minimum exactly the minimum and then numbers that halve the distance each time, down to the one next to it |
| `Minimize.Sweep` | minimize/minimize.go:122-142 | one sweep evaluates the items without one chunk after another until the target shows; at full granularity, with budget left, every single item was tried; it breaks off only if an evaluation fails |
| `Minimize.ReduceActions` | minimize/minimize.go:116-149 | the first phase ends with a run that shows the target, with a subsequence of the actions, and 1-minimal if budget is left |
| `Minimize.ShrinkSelections` | minimize/minimize.go:183-207 | each entry in its turn gets the first simpler selection that still shows the target, if there is one |
| `Minimize.Reduce` | minimize/minimize.go:110-211 | REDUCTION is sound, within budget, and 1-minimal in actions and in guide entries under what was in force; the counts of runs, of what was removed and of what was shrunk are exact; it fails only if an evaluation fails |
| `Projection.Projector.Choose` | semanticplan/projector.go:198-240 | the stateful projector computes the specified reply and account, and never recovers from a failure |
| `Projection.AnswersExactly` | semanticplan/projector.go:198-240 | once failed, always the same failure; a choice that does not project, or under a key seen before, fails; one that leaves nothing to choose gets its only selection; one with a directive gets that if it is in its domain; any other is left to the fallback |
| `Projection.DirectivesFromTape` | semanticplan/projector.go:165-194 | extracts the directives of the variable choices, or refuses the tape; they always pass the validator |
| `Projection.ExtractsExactly` | semanticplan/projector.go:165-194 | a tape gives directives if and only if all its choices project under keys of their own; they are one for each choice that leaves something to choose, in order, with its key, position and selection |
| `Projection.ReportsAreValid` | semanticplan/execution.go:378-416 | THE ACCOUNT ADDS UP: the report of any run of a projector, failed or not, passes the report validator if and only if it counts no more fixed and no more additional choices than a tape may hold |
| `Projection.ReportsExactly` | semanticplan/projector.go:244-268 | a report failed if and only if a choice did; it is exact if and only if besides nothing was left to the fallback and every directive was used; it lists exactly the unused directives, in the order of their source |
| `Projection.TooManyFixed` | semanticplan/execution.go:378-384 | a run of more choices with one option than that, whose report the validator refuses |
| `Projection.RechecksExactly` | semanticplan/execution.go:209-250 | THE RE-CHECK accepts a record and report if and only if some run of a projector with this plan made them, whether or not it failed |
| `Projection.VerifyProjection` | semanticplan/execution.go:209-250 | the loop with a fresh projector decides exactly that |
| `Projection.ProjectionRoundTrip` | semanticplan/projector.go:165-268 | projecting a tape's own directives onto its choices reproduces the tape, with exact fidelity and nothing left over |

## Left out

- Observers of the node: the fields that only remember the votes and configuration of the last election, and the status and state copies.
- Message types and entry types outside the declared ones: the datatypes cannot express them, so the checks that reject them have no counterpart.
- Copies: cloning has no meaning for values; aliasing between a caller's slices and the node's is not modelled.
- Nil maps of a node that does not lead are empty maps; that no handler writes to one follows from the proofs, which send only as leader, but is not stated apart.
- Wrap-around of write tokens and append sequence numbers: they are naturals. Exhaustion of terms and log indexes is modelled.
- The cluster's virtual time, timer generations, incarnations and event identifiers: a timer may fire whenever its node's role allows it, and messages of any age may arrive, which covers every schedule.
- The network's latency, loss and partition settings: any message ever sent may arrive at any time, any number of times, or never.
- RaftNode.Node.Step: requires the well-formed state that ClusterTheorems.NothingPendingMeansDurable shows of every running node, so what it computes from a corrupted state is not claimed.
- Application: runs end at the first application error. The program stops there too, except that a direct `Restart` returns the error and leaves the process down, with its store advanced by what its start had applied before a refused command (`raftsim/cluster.go:699-716`); what a cluster does after that is not modelled. That proposals decode before they are accepted is not required.
- Oracle: JSON and hexadecimal text (any encoding of checkpoints that reads back), copies, and the schema names. SHA-256 is any function. A command's buffer is filled by concatenation.
- Minimize: the exact replay of the input before reduction, and the evaluator itself, which is any deterministic function that keeps the actions it is given and records valid tapes.
- Projection: reading a key from a JSON context (any function from choices to well-formed keys), control characters in endpoints, the other checks on an execution's documents. Additional keys are a set instead of its sorted listing, and unmatched directives keep the plan's order, which is by source index already.
- Watching.Watch: silence is not shown for the election-certificate alarm, which needs the node's record of its last election and is not modelled.
- Checker: the sorting of observations by node; the order in which a leader's missing entries are listed. Two violations are the same when their alarm and evidence are, as if fingerprints had no collisions.
- Trace sinks, and everything under `cmd/`, `mutant/`, `defect/`, `evaluation/`, `artifact/` and `adapters/`.
- Scheduler: what an event's action does is given with its execution, as a finite tree of calls, and a RunUntil whose actions run out while something is due is left unfinished, because actions may keep it going for ever; nil actions and the validation of event tags are not modelled.
- Simulator.Simulator.Step: takes what an action schedules and cancels as a function of the event's tag; actions that run the simulator are covered on values only, in Scheduler; canonical state is the set of pending events, not its sorted encoding.
- Rand: floating-point draws, and trace labels of split streams.
- Decision: JSON. A digest is the canonical value itself, so it has no collisions, and a context is taken to be compact and valid already.
- Guided deciders, which reuse a selection where the whole choice matches.
- Explore.Explorer.Search: takes the outcome of completing a prefix with the seeded decider as a function of the prefix, and does not count outcomes by status; a rerun that leaves part of its prefix unconsumed cannot happen for a deterministic program, so pruned prefixes stay at zero.
- Liveness under a schedule: what a quorum's votes, an acknowledgement, a rejection and an exchange left alone lead to is proved, but nothing is claimed about when timers fire or messages arrive, so not that elections end.
- Causal projection and outcome normalization in `semanticplan/`.

/** The values that the Raft node, its messages and its durable state are made of. */
module RaftTypes {
  import Octets

  datatype Option<+T> = None | Some(value: T)

  /** A member of the pre-provisioned universe.  Zero plays the empty identifier. */
  type NodeID = nat

  const NO_NODE: NodeID := 0

  const MAX_UINT64: nat := 0xFFFF_FFFF_FFFF_FFFF

  type Bytes = Octets.Bytes

  datatype Role = Follower | Candidate | Leader

  datatype EntryType = Noop | Command | ConfigJoint | ConfigFinal

  /**
   * A stable or joint voting configuration: `voters` is the incoming (or stable) set,
   * `votersOutgoing` is non-empty only during joint consensus, and `learnersNext` is the learner
   * set that takes effect when the joint configuration is finalized.
   */
  datatype Membership = Membership(
    voters: seq<NodeID>,
    votersOutgoing: seq<NodeID>,
    learners: seq<NodeID>,
    learnersNext: seq<NodeID>)
  {
    predicate Joint() {
      |votersOutgoing| > 0
    }

    predicate IsZero() {
      |voters| == 0 && |votersOutgoing| == 0 && |learners| == 0 && |learnersNext| == 0
    }

    predicate IsVoter(id: NodeID) {
      id in voters || id in votersOutgoing
    }
  }

  const ZERO_MEMBERSHIP := Membership([], [], [], [])

  datatype Entry = Entry(index: nat, term: nat, kind: EntryType, data: Bytes, membership: Membership)
  {
    predicate IsConfig() {
      kind.ConfigJoint? || kind.ConfigFinal?
    }
  }

  /** An application and log-prefix checkpoint. */
  datatype Snapshot = Snapshot(index: nat, term: nat, members: seq<NodeID>, data: Bytes, membership: Membership)

  const NO_SNAPSHOT := Snapshot(0, 0, [], [], ZERO_MEMBERSHIP)

  /** What one durable write stores, all of it or nothing. */
  datatype PersistentState = PersistentState(
    term: nat,
    votedFor: NodeID,
    commit: nat,
    snapshot: Snapshot,
    log: seq<Entry>)
  {
    function LastIndex(): nat {
      snapshot.index + |log|
    }
  }

  const EMPTY_STATE := PersistentState(0, NO_NODE, 0, NO_SNAPSHOT, [])

  datatype Message =
    | RequestVote(from: NodeID, to: NodeID, term: nat, lastLogIndex: nat, lastLogTerm: nat)
    | RequestVoteResponse(from: NodeID, to: NodeID, term: nat, granted: bool)
    | AppendEntries(from: NodeID, to: NodeID, term: nat, sequence: nat,
                    prevIndex: nat, prevTerm: nat, entries: seq<Entry>, leaderCommit: nat)
    | AppendEntriesResponse(from: NodeID, to: NodeID, term: nat, sequence: nat,
                            success: bool, matchIndex: nat, rejectHint: nat)
    | InstallSnapshot(from: NodeID, to: NodeID, term: nat, sequence: nat, snapshot: Snapshot)
    | InstallSnapshotResponse(from: NodeID, to: NodeID, term: nat, sequence: nat,
                              success: bool, matchIndex: nat)

  datatype Input =
    | ElectionTimeout
    | HeartbeatTimeout
    | Receive(message: Message)
    | Propose(data: Bytes)
    | Persisted(token: nat)
    | TakeSnapshot(index: nat, data: Bytes)
    | BeginMembership(voters: seq<NodeID>, learners: seq<NodeID>)
    | FinalizeMembership

  datatype Effect =
    | Persist(token: nat, state: PersistentState)
    | Send(message: Message)
    | ResetElectionTimer
    | ResetHeartbeatTimer
    | Apply(entry: Entry)
    | RestoreSnapshot(snapshot: Snapshot)

  datatype Error =
    | InvalidConfig
    | InvalidState
    | InvalidInput
    | NotLeader
    | AwaitingPersistence
    | UnexpectedPersistence
    | TermExhausted
    | IndexExhausted
    | NotVoter
    | MembershipInProgress
    | Panic

  /** The cluster-wide constants: the sorted universe and the configuration before any entry. */
  datatype Setup = Setup(members: seq<NodeID>, initial: Membership)

  function Min(a: nat, b: nat): nat {
    if a <= b then a else b
  }

  function Max(a: nat, b: nat): nat {
    if a >= b then a else b
  }
}

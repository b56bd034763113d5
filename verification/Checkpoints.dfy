/**
 * What the effects of a step carry: messages of the term that the step leaves behind, and no
 * snapshot but the one it leaves behind, which is the old one, the one it was sent, or the one it
 * was told to take.
 */
module Checkpoints {
  import opened RaftTypes
  import opened Configuration
  import opened NodeSpec

  predicate CarriesOne(effect: Effect, term: nat, s: Snapshot) {
    match effect
    case Send(m) => m.term == term && (m.InstallSnapshot? ==> m.snapshot == s)
    case RestoreSnapshot(snapshot) => snapshot == s
    case _ => true
  }

  /** Every message in the effects has this term, and every snapshot is this one. */
  ghost predicate Carries(effects: seq<Effect>, term: nat, s: Snapshot) {
    forall i {:trigger effects[i]} | 0 <= i < |effects| :: CarriesOne(effects[i], term, s)
  }

  lemma CarriesConcat(a: seq<Effect>, b: seq<Effect>, term: nat, s: Snapshot)
    requires Carries(a, term, s) && Carries(b, term, s)
    ensures Carries(a + b, term, s)
  {
    hide CarriesOne;
  }

  ghost predicate Keeps(n: Core, out: Outcome) {
    out.Done? ==>
      && out.node.state.snapshot == n.state.snapshot
      && Carries(out.effects, out.node.state.term, n.state.snapshot)
  }

  lemma {:induction false} BroadcastCarries(n: Core, members: seq<NodeID>)
    ensures var (n1, effects) := BroadcastAppend(n, members); n1.state == n.state && Carries(effects, n.state.term, n.state.snapshot)
  {
    if members != [] {
      BroadcastCarries(n, members[..|members| - 1]);
      var (n1, effects) := BroadcastAppend(n, members[..|members| - 1]);
      CarriesConcat(effects, [Send(AppendFor(n1, members[|members| - 1]))], n.state.term, n.state.snapshot);
    }
  }

  lemma AdvanceCarries(u: Setup, n: Core)
    requires Boundary(n) <= n.applied
    ensures var (n1, effects) := AdvanceCommit(u, n);
      && n1.state.term == n.state.term && n1.state.snapshot == n.state.snapshot
      && Carries(effects, n.state.term, n.state.snapshot)
  {
    HighestCommittableBounds(u, n, LastIndex(n));
  }

  lemma {:induction false} VoteRequestsCarry(n: Core, members: seq<NodeID>, s: Snapshot)
    ensures Carries(VoteRequests(n, members), n.state.term, s)
  {
    if members != [] {
      VoteRequestsCarry(n, members[..|members| - 1], s);
    }
  }

  lemma TimersCarry(term: nat, s: Snapshot)
    ensures Carries([ResetHeartbeatTimer], term, s) && Carries([ResetElectionTimer], term, s)
  {
  }

  lemma BecomeLeaderKeeps(u: Setup, n: Core)
    requires Boundary(n) <= n.applied
    ensures Keeps(n, BecomeLeader(u, n))
  {
    hide AdvanceCommit, BroadcastAppend, Carries;
    if LastIndex(n) != MAX_UINT64 {
      TimersCarry(n.state.term, n.state.snapshot);
      AdvanceCarries(u, Crowned(u, n));
      var (n1, applied) := AdvanceCommit(u, Crowned(u, n));
      BroadcastCarries(n1, u.members);
      CarriesConcat([ResetHeartbeatTimer], applied, n.state.term, n.state.snapshot);
      CarriesConcat([ResetHeartbeatTimer] + applied, BroadcastAppend(n1, u.members).1, n.state.term, n.state.snapshot);
    }
  }

  lemma StartElectionKeeps(u: Setup, n: Core)
    requires Boundary(n) <= n.applied
    ensures Keeps(n, StartElection(u, n))
  {
    hide BecomeLeader, VoteRequests, Quorum;
    BecomeLeaderKeeps(u, Candidacy(n));
    VoteRequestsCarry(Candidacy(n), VoterUnion(n.membership), n.state.snapshot);
  }

  lemma AfterAckKeeps(u: Setup, n: Core, from: NodeID, matchIndex: nat)
    requires Boundary(n) <= n.applied
    ensures Keeps(n, AfterAck(u, n, from, matchIndex))
  {
    hide AdvanceCommit;
    AdvanceCarries(u, RecordMatch(n, from, matchIndex));
  }

  lemma AppendEntriesKeeps(u: Setup, n: Core, m: Message)
    requires m.AppendEntries? && Boundary(n) <= n.applied
    ensures Keeps(n, HandleAppendEntries(u, n, m))
  {
    hide FirstInvalid, FirstNew, Merge, ConfigsLegal, MembershipAt, BaseMembership, TermAt;
  }

  lemma AppendResponseKeeps(u: Setup, n: Core, m: Message)
    requires m.AppendEntriesResponse? && Boundary(n) <= n.applied
    ensures Keeps(n, HandleAppendEntriesResponse(u, n, m))
  {
    hide AfterAck;
    if m.success { AfterAckKeeps(u, n, m.from, m.matchIndex); }
  }

  lemma ProposalKeeps(u: Setup, n: Core, data: Bytes)
    requires Boundary(n) <= n.applied
    ensures Keeps(n, HandleProposal(u, n, data))
  {
    hide AdvanceCommit, BroadcastAppend, HasUncommittedConfiguration;
    var entry := Entry(LastIndex(n) + 1, n.state.term, Command, data, ZERO_MEMBERSHIP);
    AdvanceCarries(u, Appended(n, entry));
    BroadcastCarries(AdvanceCommit(u, Appended(n, entry)).0, u.members);
  }

  lemma MembershipEntryKeeps(u: Setup, n: Core, kind: EntryType, membership: Membership)
    requires Boundary(n) <= n.applied
    ensures Keeps(n, AppendMembershipEntry(u, n, kind, membership))
  {
    hide AdvanceCommit, BroadcastAppend, TransitionMembership, MembershipAt;
    var entry := Entry(LastIndex(n) + 1, n.state.term, kind, [], membership);
    AdvanceCarries(u, Refresh(u, Appended(n, entry)));
    BroadcastCarries(AdvanceCommit(u, Refresh(u, Appended(n, entry))).0, u.members);
  }

  /** A new snapshot lies past the old one, and is the one in the message or the one asked for. */
  predicate Replaces(n: Core, input: Input, s: Snapshot) {
    && n.state.snapshot.index < s.index
    && ((input.Receive? && input.message.InstallSnapshot? && s == input.message.snapshot)
        || (input.TakeSnapshot? && s.index == input.index && s.data == input.data))
  }

  ghost predicate Traced(n: Core, input: Input, out: Outcome) {
    out.Done? ==>
      && (out.node.state.snapshot == n.state.snapshot || Replaces(n, input, out.node.state.snapshot))
      && Carries(out.effects, out.node.state.term, out.node.state.snapshot)
  }

  lemma InstallTraced(u: Setup, n: Core, m: Message)
    requires m.InstallSnapshot? && Boundary(n) <= n.state.commit
    ensures Traced(n, Receive(m), HandleInstallSnapshot(u, n, m))
  {
    hide AcceptableSnapshot, ChainOK, SuffixAfter, MembershipAt;
  }

  lemma DispatchTraced(u: Setup, n: Core, m: Message)
    requires Boundary(n) <= n.applied && Boundary(n) <= n.state.commit
    ensures Traced(n, Receive(m), Dispatch(u, n, m))
  {
    hide HandleAppendEntries, HandleAppendEntriesResponse, HandleInstallSnapshot, AfterAck, BecomeLeader, Quorum, CarriesOne;
    match m
    case RequestVote(_, _, _, _, _) => VoteKeeps(n, m);
    case RequestVoteResponse(_, _, _, _) => VoteResponseKeeps(u, n, m);
    case AppendEntries(_, _, _, _, _, _, _, _) => AppendEntriesKeeps(u, n, m);
    case AppendEntriesResponse(_, _, _, _, _, _, _) => AppendResponseKeeps(u, n, m);
    case InstallSnapshot(_, _, _, _, _) => InstallTraced(u, n, m);
    case InstallSnapshotResponse(_, _, _, _, _, _) => AfterAckKeeps(u, n, m.from, m.matchIndex);
  }

  lemma VoteKeeps(n: Core, m: Message)
    requires m.RequestVote?
    ensures Keeps(n, HandleRequestVote(n, m))
  {
    hide GrantsVote;
  }

  lemma VoteResponseKeeps(u: Setup, n: Core, m: Message)
    requires m.RequestVoteResponse? && Boundary(n) <= n.applied
    ensures Keeps(n, HandleRequestVoteResponse(u, n, m))
  {
    hide BecomeLeader, Quorum;
    BecomeLeaderKeeps(u, n.(votes := n.votes + {m.from}));
  }

  /** EVERY SNAPSHOT IS TRACED: a step stores its old snapshot, the message's or the requested one, and handles no other; its messages have its term. */
  lemma ReactTraced(u: Setup, n: Core, input: Input)
    requires Boundary(n) <= n.applied && Boundary(n) <= n.state.commit
    ensures Traced(n, input, React(u, n, input))
  {
    hide StartElection, BroadcastAppend, Dispatch, HandleProposal, AppendMembershipEntry, Carries, HasUncommittedConfiguration,
      ValidateMembership, MembershipAt, TermAt, EntriesFrom;
    match input
    case ElectionTimeout => StartElectionKeeps(u, n); NothingCarried(n.state.term, n.state.snapshot);
    case HeartbeatTimeout => HeartbeatCarries(u, n); NothingCarried(n.state.term, n.state.snapshot);
    case Receive(m) =>
      DispatchTraced(u, if m.term > n.state.term then BecomeFollower(n, m.term, NO_NODE) else n, m);
    case Propose(data) => ProposalKeeps(u, n, data);
    case Persisted(_) =>
    case TakeSnapshot(index, data) => NothingCarried(n.state.term, React(u, n, input).node.state.snapshot);
    case BeginMembership(voters, learners) =>
      MembershipEntryKeeps(u, n, ConfigJoint, JointMembership(n.membership, StableMembership(voters, learners)));
    case FinalizeMembership =>
      MembershipEntryKeeps(u, n, ConfigFinal, StableMembership(n.membership.voters, n.membership.learnersNext));
  }

  lemma NothingCarried(term: nat, s: Snapshot)
    ensures Carries([], term, s)
  {
  }

  lemma HeartbeatCarries(u: Setup, n: Core)
    ensures var (n1, sends) := BroadcastAppend(n, u.members);
      n1.state == n.state && Carries([ResetHeartbeatTimer] + sends, n.state.term, n.state.snapshot)
  {
    hide BroadcastAppend;
    BroadcastCarries(n, u.members);
    CarriesConcat([ResetHeartbeatTimer], BroadcastAppend(n, u.members).1, n.state.term, n.state.snapshot);
  }

  lemma StartCarries(n: Core)
    requires n.state.commit <= LastIndex(n)
    ensures Carries(Start(n).1, n.state.term, n.state.snapshot)
  {
  }
}

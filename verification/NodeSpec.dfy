/**
 * What each transition of the Raft node computes (raft/node.go), as functions on values: the
 * specification that the imperative node (module RaftNode) is proved to implement and that the
 * cluster theorems are about.
 */
module NodeSpec {
  import opened RaftTypes
  import opened Configuration

  /** A node's fields, apart from its pending write. */
  datatype Core = Core(
    id: NodeID,
    role: Role,
    leader: NodeID,
    state: PersistentState,
    applied: nat,
    membership: Membership,
    votes: set<NodeID>,
    nextIndex: map<NodeID, nat>,
    matchIndex: map<NodeID, nat>,
    appendSequence: map<NodeID, nat>)

  /** What one input did: the new node, whether it must be written, and the effects that wait for the write. */
  datatype Outcome =
    | Done(node: Core, dirty: bool, effects: seq<Effect>)
    | Failed(node: Core, error: Error)

  function Get(m: map<NodeID, nat>, id: NodeID): nat {
    if id in m then m[id] else 0
  }

  function NextIndexAfter(index: nat): nat {
    if index == MAX_UINT64 then MAX_UINT64 else index + 1
  }

  // ----- the log -----

  function Boundary(n: Core): nat {
    n.state.snapshot.index
  }

  function LastIndex(n: Core): nat {
    n.state.LastIndex()
  }

  function TermAt(state: PersistentState, index: nat): nat {
    if index == 0 then 0
    else if index == state.snapshot.index then state.snapshot.term
    else if index <= state.snapshot.index || index > state.LastIndex() then 0
    else state.log[index - state.snapshot.index - 1].term
  }

  function LastTermOf(n: Core): nat {
    TermAt(n.state, LastIndex(n))
  }

  function EntriesFrom(state: PersistentState, index: nat): seq<Entry> {
    if index <= state.snapshot.index then state.log
    else if index > state.LastIndex() then []
    else state.log[index - state.snapshot.index - 1..]
  }

  /** The configuration a snapshot stands for; a zero membership is a legacy static snapshot. */
  function SnapshotMembership(snapshot: Snapshot): Membership {
    if snapshot.membership.IsZero() then StableMembership(snapshot.members, []) else snapshot.membership
  }

  function BaseMembership(u: Setup, state: PersistentState): Membership {
    if state.snapshot.index > 0 then SnapshotMembership(state.snapshot) else u.initial
  }

  /** How many log entries have an index up to `index`. */
  function Covered(state: PersistentState, index: nat): nat {
    if index <= state.snapshot.index then 0 else Min(|state.log|, index - state.snapshot.index)
  }

  function MembershipAt(u: Setup, state: PersistentState, index: nat): Membership {
    Fold(u,
         if index >= state.snapshot.index then BaseMembership(u, state) else u.initial,
         state.log[..Covered(state, index)])
  }

  /** Every configuration entry is a legal transition; reading a log where one is not stops the program. */
  predicate ConfigsLegal(u: Setup, m: Membership, entries: seq<Entry>) {
    forall i {:trigger entries[i]} | 0 <= i < |entries| :: entries[i].IsConfig() ==> LegalAt(u, m, entries, i)
  }

  function Refresh(u: Setup, n: Core): Core {
    n.(membership := MembershipAt(u, n.state, LastIndex(n)))
  }

  predicate HasUncommittedConfiguration(n: Core) {
    exists i | 0 <= i < |n.state.log| :: n.state.log[i].index > n.state.commit && n.state.log[i].IsConfig()
  }

  /** Committed entries are available for application. */
  predicate Applicable(n: Core) {
    Boundary(n) <= n.applied && n.state.commit <= LastIndex(n)
  }

  /** A node between transitions: contiguous indexes, legal configurations, and everything committed applied or available. */
  predicate WF(u: Setup, n: Core) {
    && Boundary(n) <= n.applied <= n.state.commit <= LastIndex(n)
    && (forall i | 0 <= i < |n.state.log| :: n.state.log[i].index == Boundary(n) + i + 1)
    && ChainOK(u, BaseMembership(u, n.state), n.state.log)
    && |BaseMembership(u, n.state).voters| > 0
    && n.membership == MembershipAt(u, n.state, LastIndex(n))
  }

  // ----- roles -----

  function BecomeFollower(n: Core, term: nat, leader: NodeID): Core {
    var n1 := n.(role := Follower, leader := leader, votes := {}, nextIndex := map[], matchIndex := map[], appendSequence := map[]);
    if term > n.state.term then n1.(state := n.state.(term := term, votedFor := NO_NODE)) else n1
  }

  /** The entries committed but not applied, in order. */
  function Unapplied(n: Core): seq<Effect>
    requires Applicable(n)
  {
    if n.applied < n.state.commit
    then seq(n.state.commit - n.applied, i requires 0 <= i < n.state.commit - n.applied =>
             Apply(n.state.log[n.applied + i - Boundary(n)]))
    else []
  }

  function ApplyCommitted(n: Core): (Core, seq<Effect>)
    requires Applicable(n)
  {
    (n.(applied := Max(n.applied, n.state.commit)), Unapplied(n))
  }

  function MatchedNodes(n: Core, index: nat): set<NodeID> {
    set m | m in n.matchIndex && n.matchIndex[m] >= index
  }

  /** A quorum of the configuration at an entry of the current term holds the entry. */
  predicate Committable(u: Setup, n: Core, index: nat) {
    TermAt(n.state, index) == n.state.term && Quorum(MembershipAt(u, n.state, index), MatchedNodes(n, index))
  }

  /** The highest committable index in (commit, from], or the commit index. */
  function HighestCommittable(u: Setup, n: Core, from: nat): nat {
    if from <= n.state.commit then n.state.commit
    else if Committable(u, n, from) then from
    else HighestCommittable(u, n, from - 1)
  }

  lemma {:induction false} HighestCommittableBounds(u: Setup, n: Core, from: nat)
    ensures n.state.commit <= HighestCommittable(u, n, from) <= Max(from, n.state.commit)
    ensures HighestCommittable(u, n, from) > n.state.commit ==> Committable(u, n, HighestCommittable(u, n, from))
    ensures forall i | HighestCommittable(u, n, from) < i <= from :: !Committable(u, n, i)
  {
    if from > n.state.commit && !Committable(u, n, from) {
      HighestCommittableBounds(u, n, from - 1);
    }
  }

  function AdvanceCommit(u: Setup, n: Core): (Core, seq<Effect>)
    requires Boundary(n) <= n.applied
  {
    var k := HighestCommittable(u, n, LastIndex(n));
    if k == n.state.commit then (n, [])
    else
      HighestCommittableBounds(u, n, LastIndex(n));
      var (n1, effects) := ApplyCommitted(n.(state := n.state.(commit := k)));
      if n1.role.Leader? && !n1.membership.IsVoter(n1.id)
      then (BecomeFollower(n1, n1.state.term, NO_NODE), effects)
      else (n1, effects)
  }

  // ----- messages a node sends -----

  function AppendResponse(n: Core, to: NodeID, sequence: nat, success: bool, matchIndex: nat, rejectHint: nat): Effect {
    Send(AppendEntriesResponse(n.id, to, n.state.term, sequence, success, matchIndex, rejectHint))
  }

  function SnapshotResponse(n: Core, to: NodeID, sequence: nat, success: bool, matchIndex: nat): Effect {
    Send(InstallSnapshotResponse(n.id, to, n.state.term, sequence, success, matchIndex))
  }

  function Sequenced(n: Core, member: NodeID): Core {
    n.(appendSequence := n.appendSequence[member := Get(n.appendSequence, member) + 1])
  }

  /** The message that brings `member` up to date: everything from its next index, or the snapshot. */
  function AppendFor(n: Core, member: NodeID): Message {
    var sequence := Get(n.appendSequence, member) + 1;
    if Get(n.matchIndex, member) == MAX_UINT64 then
      AppendEntries(n.id, member, n.state.term, sequence, MAX_UINT64, TermAt(n.state, MAX_UINT64), [], n.state.commit)
    else
      var wanted := Get(n.nextIndex, member);
      var next := if wanted == 0 then NextIndexAfter(LastIndex(n)) else wanted;
      if next <= Boundary(n) then
        InstallSnapshot(n.id, member, n.state.term, sequence, n.state.snapshot)
      else
        AppendEntries(n.id, member, n.state.term, sequence, next - 1, TermAt(n.state, next - 1),
                      if next <= LastIndex(n) then EntriesFrom(n.state, next) else [], n.state.commit)
  }

  function BroadcastAppend(n: Core, members: seq<NodeID>): (Core, seq<Effect>) {
    if members == [] then (n, [])
    else
      var (n1, effects) := BroadcastAppend(n, members[..|members| - 1]);
      var member := members[|members| - 1];
      if member == n.id then (n1, effects)
      else (Sequenced(n1, member), effects + [Send(AppendFor(n1, member))])
  }

  // ----- elections -----

  /** The same value for every member. */
  function Filled(members: seq<NodeID>, value: nat): (r: map<NodeID, nat>)
    ensures forall m :: (m in r <==> m in members) && (m in r ==> r[m] == value)
  {
    if members == [] then map[]
    else
      assert members == members[..|members| - 1] + [members[|members| - 1]];
      Filled(members[..|members| - 1], value)[members[|members| - 1] := value]
  }

  /** A node as leader of its term, its log extended by the no-op entry that opens the term. */
  function Crowned(u: Setup, n: Core): Core {
    var last := LastIndex(n);
    n.(role := Leader,
       leader := n.id,
       state := n.state.(log := n.state.log + [Entry(last + 1, n.state.term, Noop, [], ZERO_MEMBERSHIP)]),
       nextIndex := Filled(u.members, last + 1),
       matchIndex := Filled(u.members, 0)[n.id := last + 1],
       appendSequence := map[])
  }

  function BecomeLeader(u: Setup, n: Core): Outcome
    requires Boundary(n) <= n.applied
  {
    if LastIndex(n) == MAX_UINT64 then Failed(n, IndexExhausted)
    else
      var (n1, applied) := AdvanceCommit(u, Crowned(u, n));
      var (n2, sends) := BroadcastAppend(n1, u.members);
      Done(n2, true, [ResetHeartbeatTimer] + applied + sends)
  }

  function VoterUnion(m: Membership): seq<NodeID> {
    Sorted(Extended(m.voters, m.votersOutgoing))
  }

  function VoteRequests(n: Core, members: seq<NodeID>): seq<Effect> {
    if members == [] then []
    else
      var member := members[|members| - 1];
      VoteRequests(n, members[..|members| - 1])
      + if member == n.id then []
        else [Send(RequestVote(n.id, member, n.state.term, LastIndex(n), LastTermOf(n)))]
  }

  /** What a node is right after it started an election in the next term. */
  function Candidacy(n: Core): Core {
    n.(role := Candidate, leader := NO_NODE,
       state := n.state.(term := n.state.term + 1, votedFor := n.id),
       votes := {n.id}, nextIndex := map[], matchIndex := map[], appendSequence := map[])
  }

  function StartElection(u: Setup, n: Core): Outcome
    requires Boundary(n) <= n.applied
  {
    if !n.membership.IsVoter(n.id) then Failed(n, NotVoter)
    else if Quorum(n.membership, {n.id}) && LastIndex(n) == MAX_UINT64 then Failed(n, IndexExhausted)
    else
      var n1 := Candidacy(n);
      if Quorum(n1.membership, n1.votes) then
        match BecomeLeader(u, n1)
        case Done(n2, _, effects) => Done(n2, true, [ResetElectionTimer] + effects)
        case Failed(n2, error) => Failed(n2, error)
      else
        Done(n1, true, [ResetElectionTimer] + VoteRequests(n1, VoterUnion(n1.membership)))
  }

  predicate CandidateLogIsUpToDate(n: Core, index: nat, term: nat) {
    term > LastTermOf(n) || (term == LastTermOf(n) && index >= LastIndex(n))
  }

  predicate GrantsVote(n: Core, m: Message)
    requires m.RequestVote?
  {
    && m.term == n.state.term
    && n.membership.IsVoter(n.id)
    && n.membership.IsVoter(m.from)
    && (n.state.votedFor == NO_NODE || n.state.votedFor == m.from)
    && CandidateLogIsUpToDate(n, m.lastLogIndex, m.lastLogTerm)
  }

  function HandleRequestVote(n: Core, m: Message): Outcome
    requires m.RequestVote?
  {
    var response := Send(RequestVoteResponse(n.id, m.from, n.state.term, GrantsVote(n, m)));
    if GrantsVote(n, m)
    then Done(n.(state := n.state.(votedFor := m.from)), n.state.votedFor != m.from, [ResetElectionTimer, response])
    else Done(n, false, [response])
  }

  function HandleRequestVoteResponse(u: Setup, n: Core, m: Message): Outcome
    requires m.RequestVoteResponse? && Boundary(n) <= n.applied
  {
    if !n.role.Candidate? || m.term != n.state.term || !m.granted || m.from in n.votes then Done(n, false, [])
    else
      var n1 := n.(votes := n.votes + {m.from});
      if Quorum(n1.membership, n1.votes) then BecomeLeader(u, n1) else Done(n1, false, [])
  }

  // ----- replication -----

  /** Entry o of an AppendEntries is well formed and a legal configuration transition. */
  predicate ValidIncoming(u: Setup, m: Message, base: Membership, o: nat)
    requires m.AppendEntries? && o < |m.entries|
  {
    && m.entries[o].index == m.prevIndex + o + 1
    && m.entries[o].term != 0
    && m.entries[o].term <= m.term
    && m.entries[o].term >= (if o == 0 then m.prevTerm else m.entries[o - 1].term)
    && LegalAt(u, base, m.entries, o)
  }

  function FirstInvalid(u: Setup, m: Message, base: Membership, o: nat): nat
    requires m.AppendEntries? && o <= |m.entries|
    decreases |m.entries| - o
  {
    if o == |m.entries| || !ValidIncoming(u, m, base, o) then o else FirstInvalid(u, m, base, o + 1)
  }

  /** The first incoming entry the log does not already hold. */
  function FirstNew(state: PersistentState, prev: nat, entries: seq<Entry>, o: nat): (r: nat)
    requires o <= |entries|
    ensures o <= r <= |entries|
    decreases |entries| - o
  {
    if o == |entries| || prev + o + 1 > state.LastIndex() || TermAt(state, prev + o + 1) != entries[o].term then o
    else FirstNew(state, prev, entries, o + 1)
  }

  /** The log with the incoming entries in place, or None when they would leave a gap. */
  function Merge(state: PersistentState, prev: nat, entries: seq<Entry>): Option<seq<Entry>>
    requires state.snapshot.index <= prev
  {
    var o := FirstNew(state, prev, entries, 0);
    if o == |entries| then Some(state.log)
    else if prev + o > state.LastIndex() then None
    else Some(state.log[..prev + o - state.snapshot.index] + entries[o..])
  }

  function RejectHint(n: Core, m: Message): nat
    requires m.AppendEntries?
  {
    if m.prevIndex < Boundary(n) then NextIndexAfter(Boundary(n))
    else
      var hint := Min(m.prevIndex, NextIndexAfter(LastIndex(n)));
      if hint == 0 then 1 else hint
  }

  function Rejected(n: Core, m: Message, hint: nat): Outcome
    requires m.AppendEntries?
  {
    Done(n, false, [ResetElectionTimer, AppendResponse(n, m.from, m.sequence, false, 0, hint)])
  }

  function FollowLeader(n: Core, m: Message): Core {
    if !n.role.Follower? || n.leader != m.from then BecomeFollower(n, m.term, m.from) else n
  }

  function HandleAppendEntries(u: Setup, n0: Core, m: Message): Outcome
    requires m.AppendEntries? && Boundary(n0) <= n0.applied
  {
    if m.term < n0.state.term then
      Done(n0, false, [AppendResponse(n0, m.from, m.sequence, false, 0, NextIndexAfter(LastIndex(n0)))])
    else
      var n := FollowLeader(n0, m);
      if m.prevIndex < Boundary(n) || TermAt(n.state, m.prevIndex) != m.prevTerm then
        Rejected(n, m, RejectHint(n, m))
      else if m.prevIndex + |m.entries| > MAX_UINT64 then
        Rejected(n, m, NextIndexAfter(LastIndex(n)))
      else
        var invalid := FirstInvalid(u, m, MembershipAt(u, n.state, m.prevIndex), 0);
        if invalid < |m.entries| then Rejected(n, m, m.prevIndex + invalid + 1)
        else
          match Merge(n.state, m.prevIndex, m.entries)
          case None => Rejected(n, m, NextIndexAfter(LastIndex(n)))
          case Some(log) => AcceptEntries(u, n, m, log)
  }

  /** The log is in place: refresh the configuration, follow the leader's commit index, acknowledge. */
  function AcceptEntries(u: Setup, n: Core, m: Message, log: seq<Entry>): Outcome
    requires m.AppendEntries? && Boundary(n) <= n.applied
  {
    var grew := FirstNew(n.state, m.prevIndex, m.entries, 0) < |m.entries|;
    var n1 := n.(state := n.state.(log := log));
    if grew && !ConfigsLegal(u, BaseMembership(u, n1.state), log) then Failed(n1, Panic)
    else
      var n2 := if grew then Refresh(u, n1) else n1;
      var response := AppendResponse(n2, m.from, m.sequence, true, m.prevIndex + |m.entries|, 0);
      if m.leaderCommit > n2.state.commit then
        var (n3, applied) := ApplyCommitted(n2.(state := n2.state.(commit := Min(m.leaderCommit, LastIndex(n2)))));
        Done(n3, true, [ResetElectionTimer] + applied + [response])
      else
        Done(n2, grew, [ResetElectionTimer, response])
  }

  /** A leader records how far a follower got. */
  function RecordMatch(n: Core, from: NodeID, matchIndex: nat): Core {
    if matchIndex > Get(n.matchIndex, from) then
      var k := Min(matchIndex, LastIndex(n));
      n.(matchIndex := n.matchIndex[from := k], nextIndex := n.nextIndex[from := NextIndexAfter(k)])
    else n
  }

  /** After a success: commit what that allows, and send what the follower still lacks. */
  function AfterAck(u: Setup, n: Core, from: NodeID, matchIndex: nat): Outcome
    requires Boundary(n) <= n.applied
  {
    var (n1, effects) := AdvanceCommit(u, RecordMatch(n, from, matchIndex));
    if n1.role.Leader? && Get(n1.matchIndex, from) < LastIndex(n1)
    then Done(Sequenced(n1, from), |effects| > 0, effects + [Send(AppendFor(n1, from))])
    else Done(n1, |effects| > 0, effects)
  }

  function HandleAppendEntriesResponse(u: Setup, n: Core, m: Message): Outcome
    requires m.AppendEntriesResponse? && Boundary(n) <= n.applied
  {
    if !n.role.Leader? || m.term != n.state.term then Done(n, false, [])
    else if !m.success then
      if m.sequence != Get(n.appendSequence, m.from) then Done(n, false, [])
      else
        var next := Get(n.nextIndex, m.from);
        var back := if next > 1 then next - 1 else next;
        var hinted := if 0 < m.rejectHint < back then m.rejectHint else back;
        var n1 := n.(nextIndex := n.nextIndex[m.from := Max(1, hinted)]);
        Done(Sequenced(n1, m.from), false, [Send(AppendFor(n1, m.from))])
    else AfterAck(u, n, m.from, m.matchIndex)
  }

  // ----- snapshots -----

  predicate AcceptableSnapshot(u: Setup, m: Message)
    requires m.InstallSnapshot?
  {
    var s := m.snapshot;
    && s.index != 0
    && s.term != 0
    && s.term <= m.term
    && s.members == u.members
    && ValidateMembership(SnapshotMembership(s), u.members)
    && !(s.membership.IsZero() && u.initial != StableMembership(u.members, []))
  }

  /** The log entries past a snapshot that agree with it. */
  function SuffixAfter(state: PersistentState, snapshot: Snapshot): seq<Entry> {
    if TermAt(state, snapshot.index) == snapshot.term && snapshot.index < MAX_UINT64
    then EntriesFrom(state, snapshot.index + 1)
    else []
  }

  function HandleInstallSnapshot(u: Setup, n0: Core, m: Message): Outcome
    requires m.InstallSnapshot?
  {
    if m.term < n0.state.term then
      Done(n0, false, [SnapshotResponse(n0, m.from, m.sequence, false, Boundary(n0))])
    else
      var n := FollowLeader(n0, m);
      var s := m.snapshot;
      if !AcceptableSnapshot(u, m) then
        Done(n, false, [ResetElectionTimer, SnapshotResponse(n, m.from, m.sequence, false, Boundary(n))])
      else if s.index <= n.state.commit then
        Done(n, false, [ResetElectionTimer, SnapshotResponse(n, m.from, m.sequence, true, s.index)])
      else
        var suffix := SuffixAfter(n.state, s);
        if !ChainOK(u, SnapshotMembership(s), suffix) then
          Done(n, false, [ResetElectionTimer, SnapshotResponse(n, m.from, m.sequence, false, Boundary(n))])
        else
          var n1 := Refresh(u, n.(state := n.state.(snapshot := s, log := suffix, commit := s.index), applied := s.index));
          Done(n1, true, [ResetElectionTimer, RestoreSnapshot(s), SnapshotResponse(n1, m.from, m.sequence, true, s.index)])
  }

  function HandleInstallSnapshotResponse(u: Setup, n: Core, m: Message): Outcome
    requires m.InstallSnapshotResponse? && Boundary(n) <= n.applied
  {
    if !n.role.Leader? || m.term != n.state.term || !m.success then Done(n, false, [])
    else AfterAck(u, n, m.from, m.matchIndex)
  }

  /** Compaction: the prefix up to `index` becomes a snapshot. */
  function Compact(u: Setup, n: Core, index: nat, data: Bytes): Outcome {
    if index == 0 || index <= Boundary(n) || index > n.applied || index > n.state.commit then Failed(n, InvalidInput)
    else if TermAt(n.state, index) == 0 then Failed(n, InvalidInput)
    else
      var suffix := if index < MAX_UINT64 then EntriesFrom(n.state, index + 1) else [];
      var snapshot := Snapshot(index, TermAt(n.state, index), u.members, data, MembershipAt(u, n.state, index));
      Done(Refresh(u, n.(state := n.state.(snapshot := snapshot, log := suffix))), true, [])
  }

  // ----- client inputs -----

  /** A leader's log after it appended an entry of its own. */
  function Appended(n: Core, entry: Entry): Core {
    n.(state := n.state.(log := n.state.log + [entry]), matchIndex := n.matchIndex[n.id := entry.index])
  }

  function HandleProposal(u: Setup, n: Core, data: Bytes): Outcome
    requires Boundary(n) <= n.applied
  {
    if !n.role.Leader? then Failed(n, NotLeader)
    else if !n.membership.IsVoter(n.id) then Failed(n, NotVoter)
    else if HasUncommittedConfiguration(n) then Failed(n, MembershipInProgress)
    else if LastIndex(n) == MAX_UINT64 then Failed(n, IndexExhausted)
    else
      var entry := Entry(LastIndex(n) + 1, n.state.term, Command, data, ZERO_MEMBERSHIP);
      var (n1, applied) := AdvanceCommit(u, Appended(n, entry));
      var (n2, sends) := BroadcastAppend(n1, u.members);
      Done(n2, true, applied + sends)
  }

  function AppendMembershipEntry(u: Setup, n: Core, kind: EntryType, membership: Membership): Outcome
    requires Boundary(n) <= n.applied
  {
    var entry := Entry(LastIndex(n) + 1, n.state.term, kind, [], membership);
    if TransitionMembership(n.membership, entry, u.members).None? then Failed(n, InvalidInput)
    else
      var (n1, applied) := AdvanceCommit(u, Refresh(u, Appended(n, entry)));
      if n1.role.Leader? then
        var (n2, sends) := BroadcastAppend(n1, u.members);
        Done(n2, true, applied + sends)
      else Done(n1, true, applied)
  }

  /** The joint configuration that leads from `current` to `target`. */
  function JointMembership(current: Membership, target: Membership): Membership {
    Membership(target.voters, current.voters, Without(target.learners, current.voters), target.learners)
  }

  function HandleBeginMembership(u: Setup, n: Core, voters: seq<NodeID>, learners: seq<NodeID>): Outcome
    requires Boundary(n) <= n.applied
  {
    var target := StableMembership(voters, learners);
    if !n.role.Leader? then Failed(n, NotLeader)
    else if !n.membership.IsVoter(n.id) then Failed(n, NotVoter)
    else if n.membership.Joint() || HasUncommittedConfiguration(n) then Failed(n, MembershipInProgress)
    else if LastIndex(n) == MAX_UINT64 then Failed(n, IndexExhausted)
    else if !ValidateMembership(target, u.members) || target == n.membership then Failed(n, InvalidInput)
    else AppendMembershipEntry(u, n, ConfigJoint, JointMembership(n.membership, target))
  }

  function HandleFinalizeMembership(u: Setup, n: Core): Outcome
    requires Boundary(n) <= n.applied
  {
    if !n.role.Leader? then Failed(n, NotLeader)
    else if !n.membership.Joint() || HasUncommittedConfiguration(n) || n.state.commit != LastIndex(n)
    then Failed(n, MembershipInProgress)
    else if LastIndex(n) == MAX_UINT64 then Failed(n, IndexExhausted)
    else AppendMembershipEntry(u, n, ConfigFinal, StableMembership(n.membership.voters, n.membership.learnersNext))
  }

  // ----- one input -----

  function Dispatch(u: Setup, n: Core, m: Message): Outcome
    requires Boundary(n) <= n.applied
  {
    match m
    case RequestVote(_, _, _, _, _) => HandleRequestVote(n, m)
    case RequestVoteResponse(_, _, _, _) => HandleRequestVoteResponse(u, n, m)
    case AppendEntries(_, _, _, _, _, _, _, _) => HandleAppendEntries(u, n, m)
    case AppendEntriesResponse(_, _, _, _, _, _, _) => HandleAppendEntriesResponse(u, n, m)
    case InstallSnapshot(_, _, _, _, _) => HandleInstallSnapshot(u, n, m)
    case InstallSnapshotResponse(_, _, _, _, _, _) => HandleInstallSnapshotResponse(u, n, m)
  }

  function HandleMessage(u: Setup, n: Core, m: Message): Outcome
    requires Boundary(n) <= n.applied
  {
    if m.to != n.id || m.from == NO_NODE || m.from == n.id || m.from !in u.members then Failed(n, InvalidInput)
    else if m.term > n.state.term then
      match Dispatch(u, BecomeFollower(n, m.term, NO_NODE), m)
      case Done(n1, _, effects) => Done(n1, true, effects)
      case Failed(n1, error) => Failed(n1, error)
    else Dispatch(u, n, m)
  }

  /** The transition for one input other than a persistence acknowledgement. */
  function React(u: Setup, n: Core, input: Input): Outcome
    requires Boundary(n) <= n.applied
  {
    match input
    case ElectionTimeout =>
      if !n.membership.IsVoter(n.id) then Done(n, false, [])
      else if n.state.term == MAX_UINT64 then Failed(n, TermExhausted)
      else StartElection(u, n)
    case HeartbeatTimeout =>
      if n.role.Leader? then
        var (n1, sends) := BroadcastAppend(n, u.members);
        Done(n1, false, [ResetHeartbeatTimer] + sends)
      else Done(n, false, [])
    case Receive(m) => HandleMessage(u, n, m)
    case Propose(data) => HandleProposal(u, n, data)
    case Persisted(_) => Failed(n, UnexpectedPersistence)
    case TakeSnapshot(index, data) => Compact(u, n, index, data)
    case BeginMembership(voters, learners) => HandleBeginMembership(u, n, voters, learners)
    case FinalizeMembership => HandleFinalizeMembership(u, n)
  }

  // ----- the write barrier -----

  datatype PendingWrite = PendingWrite(token: nat, effects: seq<Effect>)

  /** A node with its pending write. */
  datatype Node = Node(core: Core, nextToken: nat, pending: Option<PendingWrite>)

  datatype StepResult = Stepped(node: Node, effects: seq<Effect>) | Refused(node: Node, error: Error)

  /** A dirty step releases nothing but the write; everything else waits for its acknowledgement. */
  function Step(u: Setup, n: Node, input: Input): StepResult
    requires Boundary(n.core) <= n.core.applied
  {
    if input.Persisted? then
      if n.pending.None? || input.token == 0 || input.token != n.pending.value.token
      then Refused(n, UnexpectedPersistence)
      else Stepped(n.(pending := None), n.pending.value.effects)
    else if n.pending.Some? then Refused(n, AwaitingPersistence)
    else
      match React(u, n.core, input)
      case Failed(core, error) => Refused(n.(core := core), error)
      case Done(core, dirty, effects) =>
        if dirty
        then Stepped(Node(core, n.nextToken + 1, Some(PendingWrite(n.nextToken, effects))), [Persist(n.nextToken, core.state)])
        else Stepped(n.(core := core), effects)
  }

  // ----- construction -----

  /** The node that `New` builds from durable state. */
  function Fresh(u: Setup, id: NodeID, state: PersistentState, applied: nat): Core {
    Core(id, Follower, NO_NODE, state, applied, MembershipAt(u, state, state.LastIndex()), {}, map[], map[], map[])
  }

  /** The first effects after construction: restore the snapshot the application lacks, then what is committed. */
  function Start(n: Core): (Core, seq<Effect>)
    requires n.state.commit <= LastIndex(n)
  {
    var behind := n.applied < Boundary(n);
    var n1 := if behind then n.(applied := Boundary(n)) else n;
    var (n2, applied) := ApplyCommitted(n1);
    (n2, (if behind then [RestoreSnapshot(n.state.snapshot)] else [])
         + applied
         + (if n2.membership.IsVoter(n2.id) then [ResetElectionTimer] else []))
  }
}

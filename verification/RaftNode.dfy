/**
 * The node as the program writes it (raft/node.go): one object whose handlers update its fields
 * in place.  Each handler is proved to compute exactly what NodeSpec says of the old fields.
 */
module RaftNode {
  import opened RaftTypes
  import opened Configuration
  import opened MembershipLoops
  import opened Validation
  import S = NodeSpec

  /** Contiguous indexes that fit, and only legal configurations. */
  predicate Chained(u: Setup, state: PersistentState) {
    && state.LastIndex() <= MAX_UINT64
    && Contiguous(state)
    && ChainOK(u, S.BaseMembership(u, state), state.log)
  }

  /** What the log-reading helpers need: everything committed is available, and nothing illegal is stored. */
  predicate Sturdy(u: Setup, n: S.Core) {
    S.Boundary(n) <= n.applied && Chained(u, n.state)
  }

  lemma WFIsSturdy(u: Setup, n: S.Core)
    requires S.WF(u, n) && S.LastIndex(n) <= MAX_UINT64
    ensures Sturdy(u, n) && Chained(u, n.state) && Contiguous(n.state)
    ensures S.Boundary(n) <= n.applied <= n.state.commit <= S.LastIndex(n)
  {
  }

  lemma AppendKeepsChain(u: Setup, state: PersistentState, entry: Entry)
    requires Chained(u, state) && state.LastIndex() < MAX_UINT64 && entry.index == state.LastIndex() + 1
    requires TransitionMembership(S.MembershipAt(u, state, state.LastIndex()), entry, u.members).Some?
    ensures Chained(u, state.(log := state.log + [entry]))
  {
    var base := S.BaseMembership(u, state);
    assert state.log[..|state.log|] == state.log;
    assert S.MembershipAt(u, state, state.LastIndex()) == Fold(u, base, state.log) by {
      if |state.log| == 0 {
        assert state.log[..0] == state.log;
      }
    }
    assert [entry][..0] == [];
    assert LegalAt(u, Fold(u, base, state.log), [entry], 0);
    ChainConcat(u, base, state.log, [entry]);
  }

  lemma IllegalConfig(u: Setup, m: Membership, entries: seq<Entry>, i: nat)
    requires i < |entries| && entries[i].IsConfig() && !LegalAt(u, m, entries, i)
    ensures !S.ConfigsLegal(u, m, entries) && !ChainOK(u, m, entries)
  {
  }

  lemma ExtendConfigs(u: Setup, m: Membership, entries: seq<Entry>, i: nat)
    requires i < |entries| && S.ConfigsLegal(u, m, entries[..i])
    requires entries[i].IsConfig() ==> LegalAt(u, m, entries, i)
    ensures S.ConfigsLegal(u, m, entries[..i + 1])
  {
    var next := entries[..i + 1];
    forall j | 0 <= j < |next| && next[j].IsConfig()
      ensures LegalAt(u, m, next, j)
    {
      assert next[..j] == entries[..j];
      if j < i {
        assert entries[..i][j].IsConfig();
        assert entries[..i][..j] == entries[..j];
      }
    }
  }

  lemma StoredChain(u: Setup, state: PersistentState, applied: nat)
    requires ValidState(u, state, applied)
    ensures Chained(u, state)
  {
    forall i | 0 <= i < |state.log|
      ensures state.log[i].index == state.snapshot.index + i + 1 && LegalAt(u, S.BaseMembership(u, state), state.log, i)
    {
      assert ValidEntry(u, state, i);
    }
  }

  predicate Contiguous(state: PersistentState) {
    forall i | 0 <= i < |state.log| :: state.log[i].index == state.snapshot.index + i + 1
  }

  lemma MergeIsContiguous(state: PersistentState, prev: nat, entries: seq<Entry>)
    requires Contiguous(state) && state.snapshot.index <= prev
    requires forall i | 0 <= i < |entries| :: entries[i].index == prev + i + 1
    requires S.Merge(state, prev, entries).Some?
    ensures Contiguous(state.(log := S.Merge(state, prev, entries).value))
  {
  }

  lemma SliceGrows(entries: seq<Entry>, from: nat, to: nat)
    requires from <= to < |entries|
    ensures entries[from..to + 1] == entries[from..to] + [entries[to]]
  {
  }

  lemma YieldingIsValid(u: Setup, n: S.Core, term: nat, leader: NodeID)
    requires S.WF(u, n)
    ensures S.WF(u, S.BecomeFollower(n, term, leader))
  {
  }

  lemma SuffixIsLegal(u: Setup, state: PersistentState, s: Snapshot)
    requires Contiguous(state) && s.index > state.snapshot.index
    requires ChainOK(u, S.SnapshotMembership(s), S.SuffixAfter(state, s))
    ensures Contiguous(state.(snapshot := s, log := S.SuffixAfter(state, s)))
    ensures S.ConfigsLegal(u, S.SnapshotMembership(s), S.SuffixAfter(state, s))
  {
  }

  lemma CompactedIsLegal(u: Setup, n: S.Core, snapshot: Snapshot, suffix: seq<Entry>)
    requires S.WF(u, n) && n.state.snapshot.index < snapshot.index <= S.LastIndex(n) <= MAX_UINT64
    requires suffix == if snapshot.index < MAX_UINT64 then S.EntriesFrom(n.state, snapshot.index + 1) else []
    requires snapshot.membership == S.MembershipAt(u, n.state, snapshot.index)
    ensures Contiguous(n.state.(snapshot := snapshot, log := suffix))
    ensures S.ConfigsLegal(u, S.BaseMembership(u, n.state.(snapshot := snapshot, log := suffix)), suffix)
  {
    var base, k := S.BaseMembership(u, n.state), snapshot.index - n.state.snapshot.index;
    assert n.state.log == n.state.log[..k] + n.state.log[k..];
    assert suffix == n.state.log[k..];
    ChainConcat(u, base, n.state.log[..k], suffix);
    ChainPrefix(u, base, n.state.log, k);
    FoldHasVoters(u, base, n.state.log[..k]);
    assert S.BaseMembership(u, n.state.(snapshot := snapshot, log := suffix)) == Fold(u, base, n.state.log[..k]);
  }

  lemma SturdyParts(u: Setup, n: S.Core)
    requires Sturdy(u, n)
    ensures Contiguous(n.state) && Chained(u, n.state)
  {
  }

  lemma RefreshIsSturdy(u: Setup, n: S.Core)
    requires Sturdy(u, n)
    ensures Sturdy(u, S.Refresh(u, n))
  {
    hide Chained;
  }

  lemma CampaigningIsValid(u: Setup, n: S.Core)
    requires S.WF(u, n)
    ensures S.WF(u, S.Candidacy(n)) && S.Boundary(n) <= n.applied
  {
  }

  class Node {
    const setup: Setup
    const id: NodeID
    var membership: Membership
    var role: Role
    var leader: NodeID
    var state: PersistentState
    var applied: nat
    var votes: set<NodeID>
    var nextIndex: map<NodeID, nat>
    var matchIndex: map<NodeID, nat>
    var appendSequence: map<NodeID, nat>
    var nextWriteToken: nat
    var pending: Option<S.PendingWrite>

    ghost function Self(): S.Core
      reads this
    {
      S.Core(id, role, leader, state, applied, membership, votes, nextIndex, matchIndex, appendSequence)
    }

    ghost function Whole(): S.Node
      reads this
    {
      S.Node(Self(), nextWriteToken, pending)
    }

    ghost predicate Valid()
      reads this
    {
      S.WF(setup, Self()) && S.LastIndex(Self()) <= MAX_UINT64
    }

    ghost function Result(dirty: bool, effects: seq<Effect>, error: Option<Error>): S.Outcome
      reads this
    {
      if error.Some? then S.Failed(Self(), error.value) else S.Done(Self(), dirty, effects)
    }

    /** New, on a configuration and a state that `Check` accepts. */
    constructor (config: NodeConfig, state: PersistentState)
      requires Validate(config, state).None?
      ensures setup == SetupOf(config)
      ensures Whole() == S.Node(S.Fresh(SetupOf(config), config.id, state, config.applied), 1, None)
    {
      this.setup := SetupOf(config);
      this.id := config.id;
      this.role := Follower;
      this.leader := NO_NODE;
      this.state := state;
      this.applied := config.applied;
      this.votes := {};
      this.nextIndex := map[];
      this.matchIndex := map[];
      this.appendSequence := map[];
      this.nextWriteToken := 1;
      this.pending := None;
      this.membership := SetupOf(config).initial;
      new;
      StoredChain(setup, state, config.applied);
      var ok := RefreshMembership();
    }

    // ----- reading the log -----

    function LastIndex(): (r: nat)
      reads this
      ensures r == S.LastIndex(Self())
    {
      state.snapshot.index + |state.log|
    }

    function EntryAt(index: nat): (r: Option<Entry>)
      reads this
      ensures r.Some? ==> S.TermAt(state, index) == r.value.term || index == state.snapshot.index
    {
      if index <= state.snapshot.index || index > LastIndex() then None
      else Some(state.log[index - state.snapshot.index - 1])
    }

    function TermAt(index: nat): (r: nat)
      reads this
      ensures r == S.TermAt(state, index)
    {
      if index == 0 then 0
      else if index == state.snapshot.index then state.snapshot.term
      else match EntryAt(index) case None => 0 case Some(entry) => entry.term
    }

    function LastTerm(): (r: nat)
      reads this
      ensures r == S.LastTermOf(Self())
    {
      TermAt(LastIndex())
    }

    function EntriesFrom(index: nat): (r: seq<Entry>)
      reads this
      ensures r == S.EntriesFrom(state, index)
    {
      if index <= state.snapshot.index then state.log
      else if index > LastIndex() then []
      else state.log[index - state.snapshot.index - 1..]
    }

    /** The configuration in force at an index; `ok` is false where the program would panic. */
    method MembershipAt(index: nat) returns (m: Membership, ok: bool)
      requires Contiguous(state)
      ensures m == S.MembershipAt(setup, state, index) || !ok
      ensures index >= LastIndex() ==> ok == S.ConfigsLegal(setup, S.BaseMembership(setup, state), state.log)
      ensures Chained(setup, state) ==> ok
    {
      hide TransitionMembership, StableMembership;
      var base := setup.initial;
      if state.snapshot.index > 0 && index >= state.snapshot.index {
        base := if state.snapshot.membership.IsZero() then StableMembership(state.snapshot.members, [])
                else state.snapshot.membership;
      }
      m := base;
      ghost var cover := S.Covered(state, index);
      for i := 0 to |state.log|
        invariant i <= cover
        invariant m == Fold(setup, base, state.log[..i])
        invariant S.ConfigsLegal(setup, base, state.log[..i])
      {
        var entry := state.log[i];
        if entry.index > index {
          return m, true;
        }
        assert state.log[..i + 1][..i] == state.log[..i];
        if entry.IsConfig() {
          var next := TransitionMembership(m, entry, setup.members);
          if next.None? {
            IllegalConfig(setup, base, state.log, i);
            return m, false;
          }
          m := next.value;
        }
        ExtendConfigs(setup, base, state.log, i);
      }
      assert state.log[..|state.log|] == state.log;
      ok := true;
    }

    /** False where the program would panic. */
    method RefreshMembership() returns (ok: bool)
      requires Contiguous(state)
      modifies this`membership
      ensures ok == S.ConfigsLegal(setup, S.BaseMembership(setup, state), state.log)
      ensures ok ==> Self() == S.Refresh(setup, old(Self()))
      ensures !ok ==> Self() == old(Self())
      ensures Chained(setup, state) ==> ok
    {
      var m;
      m, ok := MembershipAt(LastIndex());
      if ok {
        membership := m;
      }
    }

    method HasUncommittedConfiguration() returns (r: bool)
      ensures r == S.HasUncommittedConfiguration(Self())
    {
      for i := 0 to |state.log|
        invariant forall k | 0 <= k < i :: !(state.log[k].index > state.commit && state.log[k].IsConfig())
      {
        if state.log[i].index > state.commit && state.log[i].IsConfig() {
          return true;
        }
      }
      return false;
    }

    // ----- roles, applying and committing -----

    method BecomeFollower(term: nat, leader: NodeID)
      modifies this
      ensures Self() == S.BecomeFollower(old(Self()), term, leader)
      ensures nextWriteToken == old(nextWriteToken) && pending == old(pending)
    {
      role := Follower;
      this.leader := leader;
      votes := {};
      nextIndex := map[];
      matchIndex := map[];
      appendSequence := map[];
      if term > state.term {
        state := state.(term := term, votedFor := NO_NODE);
      }
    }

    method ApplyCommitted() returns (effects: seq<Effect>)
      requires S.Applicable(Self())
      modifies this`applied
      ensures (Self(), effects) == S.ApplyCommitted(old(Self()))
    {
      effects := [];
      ghost var n := Self();
      while applied < state.commit
        invariant n.applied <= applied && (n.applied < n.state.commit ==> applied <= n.state.commit)
        invariant n.applied >= n.state.commit ==> applied == n.applied
        invariant Self() == n.(applied := applied)
        invariant |effects| == applied - n.applied
        invariant forall i | 0 <= i < |effects| :: effects[i] == Apply(state.log[n.applied + i - S.Boundary(n)])
      {
        applied := applied + 1;
        var entry := EntryAt(applied);
        effects := effects + [Apply(entry.value)];
      }
      assert effects == S.Unapplied(n);
    }

    method AdvanceCommit() returns (effects: seq<Effect>)
      requires Sturdy(setup, Self())
      modifies this
      ensures (Self(), effects) == S.AdvanceCommit(setup, old(Self()))
      ensures nextWriteToken == old(nextWriteToken) && pending == old(pending)
    {
      ghost var n := Self();
      var oldCommit := state.commit;
      var index: nat := LastIndex();
      while index > oldCommit
        invariant Self() == n && nextWriteToken == old(nextWriteToken) && pending == old(pending)
        invariant index <= LastIndex()
        invariant S.HighestCommittable(setup, n, LastIndex()) == S.HighestCommittable(setup, n, index)
      {
        if TermAt(index) == state.term {
          var m, ok := MembershipAt(index);
          var matched := matchIndex;
          var quorum := HasQuorum(m, (v: NodeID) => S.Get(matched, v) >= index, S.MatchedNodes(n, index));
          if quorum {
            state := state.(commit := index);
            effects := ApplyCommitted();
            if role.Leader? && !membership.IsVoter(id) {
              BecomeFollower(state.term, NO_NODE);
            }
            return;
          }
        }
        index := index - 1;
      }
      effects := [];
    }

    // ----- sending -----

    function AppendResponse(to: NodeID, sequence: nat, success: bool, matchIndex: nat, rejectHint: nat): (m: Message)
      reads this
      ensures Send(m) == S.AppendResponse(Self(), to, sequence, success, matchIndex, rejectHint)
    {
      AppendEntriesResponse(id, to, state.term, sequence, success, matchIndex, rejectHint)
    }

    function SnapshotResponse(to: NodeID, sequence: nat, success: bool, matchIndex: nat): (m: Message)
      reads this
      ensures Send(m) == S.SnapshotResponse(Self(), to, sequence, success, matchIndex)
    {
      InstallSnapshotResponse(id, to, state.term, sequence, success, matchIndex)
    }

    method AppendFor(member: NodeID) returns (m: Message)
      modifies this`appendSequence
      ensures m == S.AppendFor(old(Self()), member)
      ensures Self() == S.Sequenced(old(Self()), member)
    {
      hide S.TermAt, S.EntriesFrom;
      var sequence := S.Get(appendSequence, member) + 1;
      appendSequence := appendSequence[member := sequence];
      if S.Get(matchIndex, member) == MAX_UINT64 {
        return AppendEntries(id, member, state.term, sequence, MAX_UINT64, TermAt(MAX_UINT64), [], state.commit);
      }
      var next := S.Get(nextIndex, member);
      if next == 0 {
        next := S.NextIndexAfter(LastIndex());
      }
      if next <= state.snapshot.index {
        return InstallSnapshot(id, member, state.term, sequence, state.snapshot);
      }
      var prev := next - 1;
      var entries := [];
      if next <= LastIndex() {
        entries := EntriesFrom(next);
      }
      return AppendEntries(id, member, state.term, sequence, prev, TermAt(prev), entries, state.commit);
    }

    method BroadcastAppend() returns (effects: seq<Effect>)
      modifies this`appendSequence
      ensures (Self(), effects) == S.BroadcastAppend(old(Self()), setup.members)
    {
      effects := [];
      ghost var n := Self();
      for i := 0 to |setup.members|
        invariant (Self(), effects) == S.BroadcastAppend(n, setup.members[..i])
      {
        var member := setup.members[i];
        assert setup.members[..i + 1][..i] == setup.members[..i];
        if member != id {
          var m := AppendFor(member);
          effects := effects + [Send(m)];
        }
      }
      assert setup.members[..|setup.members|] == setup.members;
    }

    // ----- elections -----

    method ResetProgress(last: nat)
      modifies this`nextIndex, this`matchIndex
      ensures nextIndex == S.Filled(setup.members, last + 1) && matchIndex == S.Filled(setup.members, 0)
    {
      nextIndex := map[];
      matchIndex := map[];
      for i := 0 to |setup.members|
        invariant nextIndex == S.Filled(setup.members[..i], last + 1)
        invariant matchIndex == S.Filled(setup.members[..i], 0)
      {
        assert setup.members[..i + 1][..i] == setup.members[..i];
        nextIndex := nextIndex[setup.members[i] := last + 1];
        matchIndex := matchIndex[setup.members[i] := 0];
      }
      assert setup.members[..|setup.members|] == setup.members;
    }

    method Crown()
      requires Chained(setup, state) && LastIndex() < MAX_UINT64
      modifies this
      ensures Self() == S.Crowned(setup, old(Self())) && Chained(setup, state)
      ensures nextWriteToken == old(nextWriteToken) && pending == old(pending)
    {
      hide S.Filled, S.MembershipAt, ChainOK, Fold;
      var last := LastIndex();
      var noop := Entry(last + 1, state.term, Noop, [], ZERO_MEMBERSHIP);
      AppendKeepsChain(setup, state, noop);
      hide Chained;
      role := Leader;
      leader := id;
      appendSequence := map[];
      ResetProgress(last);
      matchIndex := matchIndex[id := last];
      state := state.(log := state.log + [noop]);
      matchIndex := matchIndex[id := noop.index];
    }

    method BecomeLeader() returns (effects: seq<Effect>, error: Option<Error>)
      requires Valid()
      modifies this
      ensures Result(true, effects, error) == S.BecomeLeader(setup, old(Self()))
      ensures nextWriteToken == old(nextWriteToken) && pending == old(pending)
    {
      hide S.AdvanceCommit, S.BroadcastAppend, ChainOK, S.MembershipAt, S.Filled;
      if LastIndex() == MAX_UINT64 {
        return [], Some(IndexExhausted);
      }
      Crown();
      var applied := AdvanceCommit();
      var sends := BroadcastAppend();
      return [ResetHeartbeatTimer] + applied + sends, None;
    }

    method RequestVotes(voters: seq<NodeID>) returns (effects: seq<Effect>)
      ensures effects == S.VoteRequests(Self(), voters)
    {
      effects := [];
      for i := 0 to |voters|
        invariant effects == S.VoteRequests(Self(), voters[..i])
      {
        assert voters[..i + 1][..i] == voters[..i];
        if voters[i] != id {
          effects := effects + [Send(RequestVote(id, voters[i], state.term, LastIndex(), LastTerm()))];
        }
      }
      assert voters[..|voters|] == voters;
    }

    method HasVotes() returns (r: bool)
      ensures r == Quorum(membership, votes)
    {
      var granted := votes;
      r := HasQuorum(membership, (v: NodeID) => v in granted, votes);
    }

    method Campaign()
      modifies this
      ensures Self() == S.Candidacy(old(Self()))
      ensures nextWriteToken == old(nextWriteToken) && pending == old(pending)
    {
      role := Candidate;
      leader := NO_NODE;
      state := state.(term := state.term + 1, votedFor := id);
      votes := {id};
      nextIndex := map[];
      matchIndex := map[];
      appendSequence := map[];
    }

    method StartElection() returns (effects: seq<Effect>, error: Option<Error>)
      requires Valid()
      modifies this
      ensures Result(true, effects, error) == S.StartElection(setup, old(Self()))
      ensures nextWriteToken == old(nextWriteToken) && pending == old(pending)
    {
      hide S.WF, S.BecomeLeader, S.VoteRequests, Quorum;
      CampaigningIsValid(setup, Self());
      if !membership.IsVoter(id) {
        return [], Some(NotVoter);
      }
      var me := id;
      var alone := HasQuorum(membership, (v: NodeID) => v == me, {id});
      if alone && LastIndex() == MAX_UINT64 {
        return [], Some(IndexExhausted);
      }
      Campaign();
      var won := HasVotes();
      if won {
        var more;
        more, error := BecomeLeader();
        return if error.Some? then [] else [ResetElectionTimer] + more, error;
      }
      var voters := VoterUnion(membership);
      var requests := RequestVotes(voters);
      return [ResetElectionTimer] + requests, None;
    }

    method HandleRequestVote(m: Message) returns (dirty: bool, effects: seq<Effect>)
      requires m.RequestVote?
      modifies this`state
      ensures S.Done(Self(), dirty, effects) == S.HandleRequestVote(old(Self()), m)
    {
      var granted := false;
      dirty := false;
      if m.term == state.term && membership.IsVoter(id) && membership.IsVoter(m.from) {
        var upToDate := m.lastLogTerm > LastTerm() || (m.lastLogTerm == LastTerm() && m.lastLogIndex >= LastIndex());
        if (state.votedFor == NO_NODE || state.votedFor == m.from) && upToDate {
          granted := true;
          if state.votedFor != m.from {
            state := state.(votedFor := m.from);
            dirty := true;
          }
        }
      }
      effects := [Send(RequestVoteResponse(id, m.from, state.term, granted))];
      if granted {
        effects := [ResetElectionTimer] + effects;
      }
    }

    method HandleRequestVoteResponse(m: Message) returns (dirty: bool, effects: seq<Effect>, error: Option<Error>)
      requires m.RequestVoteResponse? && Valid()
      modifies this
      ensures Result(dirty, effects, error) == S.HandleRequestVoteResponse(setup, old(Self()), m)
      ensures nextWriteToken == old(nextWriteToken) && pending == old(pending)
    {
      if !role.Candidate? || m.term != state.term || !m.granted || m.from in votes {
        return false, [], None;
      }
      votes := votes + {m.from};
      var won := HasVotes();
      if !won {
        return false, [], None;
      }
      effects, error := BecomeLeader();
      dirty := error.None?;
    }

    // ----- replication -----

    method TruncateFrom(index: nat)
      modifies this`state
      ensures state == old(state).(log :=
                if index <= old(state).snapshot.index then []
                else if index <= old(state).LastIndex() then old(state).log[..index - old(state).snapshot.index - 1]
                else old(state).log)
    {
      if index <= state.snapshot.index {
        state := state.(log := []);
      } else if index <= LastIndex() {
        state := state.(log := state.log[..index - state.snapshot.index - 1]);
      }
    }

    /** Puts the incoming entries in place, truncating at the first that differs; `gap` if they would leave one. */
    method MergeEntries(prev: nat, entries: seq<Entry>) returns (dirty: bool, gap: bool)
      requires state.snapshot.index <= prev && prev + |entries| <= MAX_UINT64 && state.LastIndex() <= MAX_UINT64
      modifies this`state
      ensures gap == S.Merge(old(state), prev, entries).None?
      ensures gap ==> state == old(state) && !dirty
      ensures !gap ==> state == old(state).(log := S.Merge(old(state), prev, entries).value)
      ensures !gap ==> dirty == (S.FirstNew(old(state), prev, entries, 0) < |entries|)
    {
      ghost var was := state;
      ghost var b := was.snapshot.index;
      ghost var f := S.FirstNew(was, prev, entries, 0);
      dirty, gap := false, false;
      for o := 0 to |entries|
        invariant !dirty ==> state == was && f == S.FirstNew(was, prev, entries, o)
        invariant !dirty && o > 0 ==> prev + o <= was.LastIndex()
        invariant dirty ==> f < o && prev + f <= was.LastIndex()
        invariant dirty ==> state == was.(log := was.log[..prev + f - b] + entries[f..o])
      {
        var index := prev + o + 1;
        if index <= LastIndex() {
          if TermAt(index) == entries[o].term {
            continue;
          }
          TruncateFrom(index);
        }
        if index > LastIndex() {
          if index != S.NextIndexAfter(LastIndex()) {
            return dirty, true;
          }
          if dirty {
            SliceGrows(entries, f, o);
          } else {
            assert f == o && entries[o..o + 1] == [entries[o]];
          }
          state := state.(log := state.log + [entries[o]]);
          dirty := true;
        }
      }
      assert entries[..|entries|] == entries;
    }

    /** The first incoming entry that is malformed or an illegal transition. */
    method FirstInvalidEntry(m: Message) returns (r: nat)
      requires m.AppendEntries? && Chained(setup, state)
      ensures r == S.FirstInvalid(setup, m, S.MembershipAt(setup, state, m.prevIndex), 0)
      ensures r <= |m.entries| && forall i | 0 <= i < r :: m.entries[i].index == m.prevIndex + i + 1
    {
      var previousTerm := m.prevTerm;
      var membership, ok := MembershipAt(m.prevIndex);
      ghost var base := membership;
      for o := 0 to |m.entries|
        invariant previousTerm == if o == 0 then m.prevTerm else m.entries[o - 1].term
        invariant membership == Fold(setup, base, m.entries[..o])
        invariant S.FirstInvalid(setup, m, base, 0) == S.FirstInvalid(setup, m, base, o)
        invariant forall i | 0 <= i < o :: m.entries[i].index == m.prevIndex + i + 1
      {
        var incoming := m.entries[o];
        assert m.entries[..o + 1][..o] == m.entries[..o];
        if incoming.index != m.prevIndex + o + 1 || incoming.term == 0 || incoming.term > m.term || incoming.term < previousTerm {
          assert !S.ValidIncoming(setup, m, base, o);
          return o;
        }
        var next := TransitionMembership(membership, incoming, setup.members);
        if next.None? {
          assert !S.ValidIncoming(setup, m, base, o);
          return o;
        }
        assert S.ValidIncoming(setup, m, base, o);
        membership := next.value;
        previousTerm := incoming.term;
      }
      r := |m.entries|;
    }

    method HandleAppendEntries(m: Message) returns (dirty: bool, effects: seq<Effect>, error: Option<Error>)
      requires m.AppendEntries? && Valid()
      modifies this
      ensures Result(dirty, effects, error) == S.HandleAppendEntries(setup, old(Self()), m)
      ensures nextWriteToken == old(nextWriteToken) && pending == old(pending)
    {
      hide Fold, ChainOK, S.FirstInvalid, S.FirstNew, S.MembershipAt, S.Merge, S.ConfigsLegal, S.AcceptEntries, S.TermAt;
      if m.term < state.term {
        return false, [Send(AppendResponse(m.from, m.sequence, false, 0, S.NextIndexAfter(LastIndex())))], None;
      }
      YieldingIsValid(setup, Self(), m.term, m.from);
      if !role.Follower? || leader != m.from {
        BecomeFollower(m.term, m.from);
      }
      dirty, effects, error := HandleEntriesFromLeader(m, old(Self()));
    }

    method HandleEntriesFromLeader(m: Message, ghost was: S.Core)
      returns (dirty: bool, effects: seq<Effect>, error: Option<Error>)
      requires m.AppendEntries? && Valid()
      requires Self() == S.FollowLeader(was, m) && m.term >= was.state.term && S.Boundary(was) <= was.applied
      modifies this
      ensures Result(dirty, effects, error) == S.HandleAppendEntries(setup, was, m)
      ensures nextWriteToken == old(nextWriteToken) && pending == old(pending)
    {
      WFIsSturdy(setup, Self());
      hide Fold, ChainOK, S.FirstInvalid, S.FirstNew, S.MembershipAt, S.Merge, S.ConfigsLegal, S.AcceptEntries, S.FollowLeader,
        S.TermAt, S.WF, LegalAt, TransitionMembership, S.BaseMembership;
      ghost var n := Self();
      effects := [ResetElectionTimer];
      if m.prevIndex < state.snapshot.index || TermAt(m.prevIndex) != m.prevTerm {
        var hint := Min(m.prevIndex, S.NextIndexAfter(LastIndex()));
        if m.prevIndex < state.snapshot.index {
          hint := S.NextIndexAfter(state.snapshot.index);
        }
        if hint == 0 {
          hint := 1;
        }
        return false, effects + [Send(AppendResponse(m.from, m.sequence, false, 0, hint))], None;
      }
      if m.prevIndex + |m.entries| > MAX_UINT64 {
        return false, effects + [Send(AppendResponse(m.from, m.sequence, false, 0, S.NextIndexAfter(LastIndex())))], None;
      }
      var invalid := FirstInvalidEntry(m);
      if invalid < |m.entries| {
        return false, effects + [Send(AppendResponse(m.from, m.sequence, false, 0, m.prevIndex + invalid + 1))], None;
      }
      var gap;
      dirty, gap := MergeEntries(m.prevIndex, m.entries);
      if gap {
        return dirty, effects + [Send(AppendResponse(m.from, m.sequence, false, 0, S.NextIndexAfter(LastIndex())))], None;
      }
      MergeIsContiguous(n.state, m.prevIndex, m.entries);
      var more;
      dirty, more, error := AcceptEntries(m, dirty, n);
      effects := if error.Some? then [] else effects + more;
    }

    /** With the entries in place: refresh the configuration, follow the leader's commit index, acknowledge. */
    method AcceptEntries(m: Message, grew: bool, ghost was: S.Core) returns (dirty: bool, effects: seq<Effect>, error: Option<Error>)
      requires m.AppendEntries? && Contiguous(state) && S.Boundary(was) <= was.applied
      requires grew == (S.FirstNew(was.state, m.prevIndex, m.entries, 0) < |m.entries|)
      requires Self() == was.(state := was.state.(log := state.log))
      modifies this
      ensures Result(dirty, if error.Some? then effects else [ResetElectionTimer] + effects, error) ==
              S.AcceptEntries(setup, was, m, old(state).log)
      ensures nextWriteToken == old(nextWriteToken) && pending == old(pending)
    {
      hide Fold, LegalAt, S.FirstNew, S.MembershipAt, S.ConfigsLegal, S.Unapplied;
      dirty, effects := grew, [];
      if dirty {
        var ok := RefreshMembership();
        if !ok {
          return dirty, [], Some(Panic);
        }
      }
      if m.leaderCommit > state.commit {
        state := state.(commit := Min(m.leaderCommit, LastIndex()));
        dirty := true;
        effects := ApplyCommitted();
      }
      effects := effects + [Send(AppendResponse(m.from, m.sequence, true, m.prevIndex + |m.entries|, 0))];
      error := None;
    }

    // ----- acknowledgements -----

    method RecordMatch(from: NodeID, matched: nat)
      modifies this`matchIndex, this`nextIndex
      ensures Self() == S.RecordMatch(old(Self()), from, matched)
    {
      if matched > S.Get(matchIndex, from) {
        matchIndex := matchIndex[from := Min(matched, LastIndex())];
        nextIndex := nextIndex[from := S.NextIndexAfter(matchIndex[from])];
      }
    }

    method AfterAck(from: NodeID, matched: nat) returns (dirty: bool, effects: seq<Effect>)
      requires Valid()
      modifies this
      ensures S.Done(Self(), dirty, effects) == S.AfterAck(setup, old(Self()), from, matched)
      ensures nextWriteToken == old(nextWriteToken) && pending == old(pending)
    {
      WFIsSturdy(setup, Self());
      hide S.WF, Chained, S.AdvanceCommit, S.AppendFor;
      RecordMatch(from, matched);
      effects := AdvanceCommit();
      dirty := |effects| > 0;
      if role.Leader? && S.Get(matchIndex, from) < LastIndex() {
        var m := AppendFor(from);
        effects := effects + [Send(m)];
      }
    }

    method HandleAppendEntriesResponse(m: Message) returns (dirty: bool, effects: seq<Effect>)
      requires m.AppendEntriesResponse? && Valid()
      modifies this
      ensures S.Done(Self(), dirty, effects) == S.HandleAppendEntriesResponse(setup, old(Self()), m)
      ensures nextWriteToken == old(nextWriteToken) && pending == old(pending)
    {
      hide S.WF, S.AdvanceCommit, S.AppendFor, S.AfterAck;
      if !role.Leader? || m.term != state.term {
        return false, [];
      }
      if !m.success {
        if m.sequence != S.Get(appendSequence, m.from) {
          return false, [];
        }
        var next := S.Get(nextIndex, m.from);
        if next > 1 {
          next := next - 1;
        }
        if m.rejectHint > 0 && m.rejectHint < next {
          next := m.rejectHint;
        }
        nextIndex := nextIndex[m.from := Max(1, next)];
        var append := AppendFor(m.from);
        return false, [Send(append)];
      }
      dirty, effects := AfterAck(m.from, m.matchIndex);
    }

    method HandleInstallSnapshotResponse(m: Message) returns (dirty: bool, effects: seq<Effect>)
      requires m.InstallSnapshotResponse? && Valid()
      modifies this
      ensures S.Done(Self(), dirty, effects) == S.HandleInstallSnapshotResponse(setup, old(Self()), m)
      ensures nextWriteToken == old(nextWriteToken) && pending == old(pending)
    {
      hide S.WF, S.AfterAck;
      if !role.Leader? || m.term != state.term || !m.success {
        return false, [];
      }
      dirty, effects := AfterAck(m.from, m.matchIndex);
    }

    // ----- snapshots -----

    method AcceptsSnapshot(m: Message) returns (r: bool)
      requires m.InstallSnapshot?
      ensures r == S.AcceptableSnapshot(setup, m)
    {
      var s := m.snapshot;
      var legacy := s.membership.IsZero();
      var snapshotMembership := if legacy then StableMembership(s.members, []) else s.membership;
      var mismatch := legacy && setup.initial != StableMembership(setup.members, []);
      var valid := IsValidMembership(snapshotMembership, setup.members);
      return !(s.index == 0 || s.term == 0 || s.term > m.term || s.members != setup.members || !valid || mismatch);
    }

    /** Whether entries are legal transitions one after the other. */
    method LegalFrom(base: Membership, entries: seq<Entry>) returns (r: bool)
      ensures r == ChainOK(setup, base, entries)
    {
      var membership := base;
      for i := 0 to |entries|
        invariant membership == Fold(setup, base, entries[..i])
        invariant forall k {:trigger LegalAt(setup, base, entries, k)} | 0 <= k < i :: LegalAt(setup, base, entries, k)
      {
        assert entries[..i + 1][..i] == entries[..i];
        var next := TransitionMembership(membership, entries[i], setup.members);
        if next.None? {
          assert !LegalAt(setup, base, entries, i);
          return false;
        }
        membership := next.value;
      }
      r := true;
    }

    method HandleInstallSnapshot(m: Message) returns (dirty: bool, effects: seq<Effect>)
      requires m.InstallSnapshot? && Valid()
      modifies this
      ensures S.Done(Self(), dirty, effects) == S.HandleInstallSnapshot(setup, old(Self()), m)
      ensures nextWriteToken == old(nextWriteToken) && pending == old(pending)
    {
      hide S.AcceptableSnapshot, S.MembershipAt, ChainOK, Fold, S.SuffixAfter;
      if m.term < state.term {
        return false, [Send(SnapshotResponse(m.from, m.sequence, false, state.snapshot.index))];
      }
      YieldingIsValid(setup, Self(), m.term, m.from);
      if !role.Follower? || leader != m.from {
        BecomeFollower(m.term, m.from);
      }
      effects := [ResetElectionTimer];
      dirty := false;
      var acceptable := AcceptsSnapshot(m);
      if !acceptable {
        return false, effects + [Send(SnapshotResponse(m.from, m.sequence, false, state.snapshot.index))];
      }
      var s := m.snapshot;
      if s.index <= state.commit {
        return false, effects + [Send(SnapshotResponse(m.from, m.sequence, true, s.index))];
      }
      var installed := InstallNewSnapshot(s);
      if !installed {
        return false, effects + [Send(SnapshotResponse(m.from, m.sequence, false, state.snapshot.index))];
      }
      return true, effects + [RestoreSnapshot(s), Send(SnapshotResponse(m.from, m.sequence, true, s.index))];
    }

    /** The snapshot with the suffix of the log that agrees with it; false, and nothing done, if that is not legal. */
    method InstallNewSnapshot(s: Snapshot) returns (installed: bool)
      requires Valid() && s.index > state.commit
      modifies this
      ensures var n := old(Self());
        && installed == ChainOK(setup, S.SnapshotMembership(s), S.SuffixAfter(n.state, s))
        && (!installed ==> Self() == n)
        && (installed ==> Self() == S.Refresh(setup, n.(state := n.state.(snapshot := s, log := S.SuffixAfter(n.state, s),
                                                                          commit := s.index), applied := s.index)))
      ensures nextWriteToken == old(nextWriteToken) && pending == old(pending)
    {
      ghost var n := Self();
      var suffix := [];
      if TermAt(s.index) == s.term && s.index < MAX_UINT64 {
        suffix := EntriesFrom(s.index + 1);
      }
      assert suffix == S.SuffixAfter(n.state, s);
      var base := if s.membership.IsZero() then StableMembership(s.members, []) else s.membership;
      installed := LegalFrom(base, suffix);
      if installed {
        SuffixIsLegal(setup, n.state, s);
        hide ChainOK, Fold, S.WF;
        state := state.(snapshot := s, log := suffix, commit := s.index);
        applied := s.index;
        var ok := RefreshMembership();
      }
    }

    method TakeSnapshot(index: nat, data: Bytes) returns (dirty: bool, error: Option<Error>)
      requires Valid()
      modifies this
      ensures Result(dirty, [], error) == S.Compact(setup, old(Self()), index, data)
      ensures nextWriteToken == old(nextWriteToken) && pending == old(pending)
    {
      WFIsSturdy(setup, Self());
      hide S.MembershipAt, S.WF, ChainOK, Fold, S.ConfigsLegal, Chained, Sturdy, Contiguous, S.BaseMembership, S.TermAt, S.EntriesFrom;
      if index == 0 || index <= state.snapshot.index || index > applied || index > state.commit || TermAt(index) == 0 {
        return false, Some(InvalidInput);
      }
      var suffix := [];
      if index < MAX_UINT64 {
        suffix := EntriesFrom(index + 1);
      }
      var m, found := MembershipAt(index);
      ghost var n := Self();
      var snapshot := Snapshot(index, TermAt(index), setup.members, data, m);
      CompactedIsLegal(setup, n, snapshot, suffix);
      ReplaceLog(snapshot, suffix);
      return true, None;
    }

    /** A new snapshot and log, and the configuration that goes with them. */
    method ReplaceLog(snapshot: Snapshot, log: seq<Entry>)
      requires Contiguous(state.(snapshot := snapshot, log := log))
      requires S.ConfigsLegal(setup, S.BaseMembership(setup, state.(snapshot := snapshot, log := log)), log)
      modifies this`state, this`membership
      ensures Self() == S.Refresh(setup, old(Self()).(state := old(state).(snapshot := snapshot, log := log)))
    {
      hide S.ConfigsLegal, S.MembershipAt, S.BaseMembership;
      state := state.(snapshot := snapshot, log := log);
      var ok := RefreshMembership();
    }

    // ----- client inputs -----

    /** An entry of the leader's own, which it counts at once. */
    method AppendOwn(entry: Entry)
      requires Sturdy(setup, Self()) && LastIndex() < MAX_UINT64 && entry.index == LastIndex() + 1
      requires TransitionMembership(S.MembershipAt(setup, state, LastIndex()), entry, setup.members).Some?
      modifies this`state, this`matchIndex
      ensures Self() == S.Appended(old(Self()), entry) && Sturdy(setup, Self())
    {
      AppendKeepsChain(setup, state, entry);
      hide Chained;
      state := state.(log := state.log + [entry]);
      matchIndex := matchIndex[id := entry.index];
    }

    method HandleProposal(data: Bytes) returns (dirty: bool, effects: seq<Effect>, error: Option<Error>)
      requires Valid()
      modifies this
      ensures Result(dirty, effects, error) == S.HandleProposal(setup, old(Self()), data)
      ensures nextWriteToken == old(nextWriteToken) && pending == old(pending)
    {
      WFIsSturdy(setup, Self());
      hide S.WF, S.AdvanceCommit, S.BroadcastAppend, S.HasUncommittedConfiguration, ChainOK, Chained, Sturdy, S.Appended, S.MembershipAt;
      if !role.Leader? {
        return false, [], Some(NotLeader);
      }
      if !membership.IsVoter(id) {
        return false, [], Some(NotVoter);
      }
      var busy := HasUncommittedConfiguration();
      if busy {
        return false, [], Some(MembershipInProgress);
      }
      if LastIndex() == MAX_UINT64 {
        return false, [], Some(IndexExhausted);
      }
      AppendOwn(Entry(LastIndex() + 1, state.term, Command, data, ZERO_MEMBERSHIP));
      var committed := AdvanceCommit();
      var sends := BroadcastAppend();
      return true, committed + sends, None;
    }

    method AppendMembershipEntry(kind: EntryType, next: Membership) returns (dirty: bool, effects: seq<Effect>, error: Option<Error>)
      requires Valid() && LastIndex() < MAX_UINT64
      modifies this
      ensures Result(dirty, effects, error) == S.AppendMembershipEntry(setup, old(Self()), kind, next)
      ensures nextWriteToken == old(nextWriteToken) && pending == old(pending)
    {
      WFIsSturdy(setup, Self());
      assert membership == S.MembershipAt(setup, state, LastIndex());
      hide S.WF, S.AdvanceCommit, S.BroadcastAppend, TransitionMembership, ChainOK, Chained, Sturdy, S.MembershipAt, S.Appended, S.Refresh;
      var entry := Entry(LastIndex() + 1, state.term, kind, [], next);
      if TransitionMembership(membership, entry, setup.members).None? {
        return false, [], Some(InvalidInput);
      }
      AppendOwn(entry);
      SturdyParts(setup, Self());
      var ok := RefreshMembership();
      RefreshIsSturdy(setup, S.Appended(old(Self()), entry));
      effects := AdvanceCommit();
      if role.Leader? {
        var sends := BroadcastAppend();
        effects := effects + sends;
      }
      return true, effects, None;
    }

    method HandleBeginMembership(voters: seq<NodeID>, learners: seq<NodeID>)
      returns (dirty: bool, effects: seq<Effect>, error: Option<Error>)
      requires Valid()
      modifies this
      ensures Result(dirty, effects, error) == S.HandleBeginMembership(setup, old(Self()), voters, learners)
      ensures nextWriteToken == old(nextWriteToken) && pending == old(pending)
    {
      hide S.WF, S.AppendMembershipEntry, S.HasUncommittedConfiguration, ValidateMembership;
      if !role.Leader? {
        return false, [], Some(NotLeader);
      }
      if !membership.IsVoter(id) {
        return false, [], Some(NotVoter);
      }
      var busy := HasUncommittedConfiguration();
      if membership.Joint() || busy {
        return false, [], Some(MembershipInProgress);
      }
      if LastIndex() == MAX_UINT64 {
        return false, [], Some(IndexExhausted);
      }
      var target := StableMembership(voters, learners);
      var valid := IsValidMembership(target, setup.members);
      if !valid || target == membership {
        return false, [], Some(InvalidInput);
      }
      var jointLearners := [];
      for i := 0 to |target.learners|
        invariant jointLearners == Without(target.learners[..i], membership.voters)
      {
        assert target.learners[..i + 1][..i] == target.learners[..i];
        if target.learners[i] !in membership.voters {
          jointLearners := jointLearners + [target.learners[i]];
        }
      }
      assert target.learners[..|target.learners|] == target.learners;
      var joint := Membership(target.voters, membership.voters, jointLearners, target.learners);
      dirty, effects, error := AppendMembershipEntry(ConfigJoint, joint);
    }

    method HandleFinalizeMembership() returns (dirty: bool, effects: seq<Effect>, error: Option<Error>)
      requires Valid()
      modifies this
      ensures Result(dirty, effects, error) == S.HandleFinalizeMembership(setup, old(Self()))
      ensures nextWriteToken == old(nextWriteToken) && pending == old(pending)
    {
      hide S.WF, S.AppendMembershipEntry, S.HasUncommittedConfiguration;
      if !role.Leader? {
        return false, [], Some(NotLeader);
      }
      var busy := HasUncommittedConfiguration();
      if !membership.Joint() || busy || state.commit != LastIndex() {
        return false, [], Some(MembershipInProgress);
      }
      if LastIndex() == MAX_UINT64 {
        return false, [], Some(IndexExhausted);
      }
      var final := StableMembership(membership.voters, membership.learnersNext);
      dirty, effects, error := AppendMembershipEntry(ConfigFinal, final);
    }

    // ----- one input -----

    method Dispatch(m: Message) returns (dirty: bool, effects: seq<Effect>, error: Option<Error>)
      requires Valid()
      modifies this
      ensures Result(dirty, effects, error) == S.Dispatch(setup, old(Self()), m)
      ensures nextWriteToken == old(nextWriteToken) && pending == old(pending)
    {
      hide S.WF, S.HandleRequestVote, S.HandleRequestVoteResponse, S.HandleAppendEntries, S.HandleAppendEntriesResponse,
        S.HandleInstallSnapshot, S.HandleInstallSnapshotResponse;
      error := None;
      match m {
        case RequestVote(_, _, _, _, _) => dirty, effects := HandleRequestVote(m);
        case RequestVoteResponse(_, _, _, _) => dirty, effects, error := HandleRequestVoteResponse(m);
        case AppendEntries(_, _, _, _, _, _, _, _) => dirty, effects, error := HandleAppendEntries(m);
        case AppendEntriesResponse(_, _, _, _, _, _, _) => dirty, effects := HandleAppendEntriesResponse(m);
        case InstallSnapshot(_, _, _, _, _) => dirty, effects := HandleInstallSnapshot(m);
        case InstallSnapshotResponse(_, _, _, _, _, _) => dirty, effects := HandleInstallSnapshotResponse(m);
      }
    }

    method StepMessage(m: Message) returns (dirty: bool, effects: seq<Effect>, error: Option<Error>)
      requires Valid()
      modifies this
      ensures Result(dirty, effects, error) == S.HandleMessage(setup, old(Self()), m)
      ensures nextWriteToken == old(nextWriteToken) && pending == old(pending)
    {
      YieldingIsValid(setup, Self(), m.term, NO_NODE);
      hide S.WF, S.Dispatch;
      if m.to != id || m.from == NO_NODE || m.from == id || m.from !in setup.members {
        return false, [], Some(InvalidInput);
      }
      var newTerm := false;
      if m.term > state.term {
        BecomeFollower(m.term, NO_NODE);
        newTerm := true;
      }
      dirty, effects, error := Dispatch(m);
      dirty := newTerm || dirty;
    }

    method React(input: Input) returns (dirty: bool, effects: seq<Effect>, error: Option<Error>)
      requires Valid() && !input.Persisted?
      modifies this
      ensures Result(dirty, effects, error) == S.React(setup, old(Self()), input)
      ensures nextWriteToken == old(nextWriteToken) && pending == old(pending)
    {
      hide S.WF, S.HandleMessage, S.StartElection, S.BroadcastAppend, S.HandleProposal, S.Compact, S.HandleBeginMembership,
        S.HandleFinalizeMembership;
      dirty, effects, error := false, [], None;
      match input {
        case ElectionTimeout =>
          if membership.IsVoter(id) {
            if state.term == MAX_UINT64 {
              error := Some(TermExhausted);
            } else {
              effects, error := StartElection();
              dirty := true;
            }
          }
        case HeartbeatTimeout =>
          if role.Leader? {
            var sends := BroadcastAppend();
            effects := [ResetHeartbeatTimer] + sends;
          }
        case Receive(m) => dirty, effects, error := StepMessage(m);
        case Propose(data) => dirty, effects, error := HandleProposal(data);
        case TakeSnapshot(index, data) => dirty, error := TakeSnapshot(index, data);
        case BeginMembership(voters, learners) => dirty, effects, error := HandleBeginMembership(voters, learners);
        case FinalizeMembership => dirty, effects, error := HandleFinalizeMembership();
      }
    }

    /** The whole step: what it computes is the step that every cluster theorem is about. */
    method Step(input: Input) returns (effects: seq<Effect>, error: Option<Error>)
      requires Valid()
      modifies this
      ensures (if error.Some? then S.Refused(Whole(), error.value) else S.Stepped(Whole(), effects)) ==
              S.Step(setup, old(Whole()), input)
    {
      hide S.WF, S.React;
      if input.Persisted? {
        if pending.None? || input.token == 0 || input.token != pending.value.token {
          return [], Some(UnexpectedPersistence);
        }
        effects := pending.value.effects;
        pending := None;
        return effects, None;
      }
      if pending.Some? {
        return [], Some(AwaitingPersistence);
      }
      var dirty;
      dirty, effects, error := React(input);
      if error.Some? {
        return [], error;
      }
      if dirty {
        var token := nextWriteToken;
        nextWriteToken := nextWriteToken + 1;
        pending := Some(S.PendingWrite(token, effects));
        return [Persist(token, state)], None;
      }
    }

    method Start() returns (effects: seq<Effect>)
      requires state.commit <= LastIndex()
      modifies this
      ensures (Self(), effects) == S.Start(old(Self()))
      ensures nextWriteToken == old(nextWriteToken) && pending == old(pending)
    {
      effects := [];
      if applied < state.snapshot.index {
        applied := state.snapshot.index;
        effects := [RestoreSnapshot(state.snapshot)];
      }
      var committed := ApplyCommitted();
      effects := effects + committed;
      if membership.IsVoter(id) {
        effects := effects + [ResetElectionTimer];
      } else {
        assert effects + [] == effects;
      }
    }
  }
}

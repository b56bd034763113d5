/** Acknowledgements, snapshots, client inputs, and the node's transition as a whole. */
module NodeProofs {
  import opened RaftTypes
  import opened Configuration
  import opened RaftHistory
  import opened LeaderCompleteness
  import opened RaftActions
  import opened NodeSpec
  import opened NodeRefinement
  import opened LeaderProofs
  import opened FollowerProofs

  // ----- acknowledgements -----

  lemma RecordMatchOK(u: Setup, h: History, n: Core, from: NodeID, matchIndex: nat)
    requires Good(u, h, n) && n.role.Leader? && Acked(h, from, n.state.term, matchIndex)
    ensures var n1 := RecordMatch(n, from, matchIndex);
      && Good(u, h, n1) && n1.role.Leader? && n1.state == n.state && n1.applied == n.applied && n1.id == n.id
  {
    hide Good, CoreOK, NodeOK, Full, Acked;
    if matchIndex > Get(n.matchIndex, from) {
      GoodParts(u, h, n);
      var k := Min(matchIndex, LastIndex(n));
      CountAck(u, h, n.id, View(h, n), from, matchIndex, k);
      RecordMatchCore(u, h, n, from, matchIndex);
      MakeGood(u, h, RecordMatch(n, from, matchIndex), View(h, n).(match_ := n.matchIndex[from := k]));
    }
  }

  lemma RecordMatchCore(u: Setup, h: History, n: Core, from: NodeID, matchIndex: nat)
    requires CoreOK(u, h, n) && n.role.Leader?
    ensures CoreOK(u, h, RecordMatch(n, from, matchIndex))
  {
    hide Fold, StoredSnapshotOK, Full;
    var n1 := RecordMatch(n, from, matchIndex);
    forall m
      ensures Get(n1.nextIndex, m) <= LastIndex(n1) + 1 && Get(n1.matchIndex, m) <= LastIndex(n1)
    {
      assert Get(n.nextIndex, m) <= LastIndex(n) + 1 && Get(n.matchIndex, m) <= LastIndex(n);
    }
  }

  lemma AfterAckOK(u: Setup, h: History, n: Core, from: NodeID, matchIndex: nat) returns (h': History)
    requires SetupOK(u) && HistoryOK(u, h) && Good(u, h, n) && n.role.Leader?
    requires Acked(h, from, n.state.term, matchIndex)
    requires Boundary(n) <= n.applied
    ensures OutcomeOK(u, h, h', n, AfterAck(u, n, from, matchIndex))
    ensures AfterAck(u, n, from, matchIndex).Done?
  {
    hide HistoryOK, Good, SetupOK, GrowsBy, EffectsOK, Delivered, Acked;
    RecordMatchOK(u, h, n, from, matchIndex);
    var n0 := RecordMatch(n, from, matchIndex);
    h' := AdvanceCommitOK(u, h, n0);
    var (n1, effects) := AdvanceCommit(u, n0);
    if n1.role.Leader? && Get(n1.matchIndex, from) < LastIndex(n1) {
      AppendForOK(u, h', n1, from);
      SequencedGood(u, h', n1, Sequenced(n1, from).appendSequence);
      JustifiedOK(u, h', n.id, AppendFor(n1, from));
      NoEffects(u, h', n.id, n.applied);
      EffectsCompose(u, h', n.id, [], effects, [Send(AppendFor(n1, from))], n.applied, n1.applied);
      assert [] + effects + [Send(AppendFor(n1, from))] == effects + [Send(AppendFor(n1, from))];
    }
  }

  /** Backing off after a rejection moves only the next index, and never past the log. */
  lemma BackOffOK(u: Setup, h: History, n: Core, from: NodeID, next: nat)
    requires Good(u, h, n) && n.role.Leader? && 0 < next <= LastIndex(n) + 1
    ensures Good(u, h, n.(nextIndex := n.nextIndex[from := next]))
  {
    hide NodeOK, Fold, StoredSnapshotOK, Full;
    var n1 := n.(nextIndex := n.nextIndex[from := next]);
    assert View(h, n1) == View(h, n);
    assert forall m :: Get(n.nextIndex, m) <= LastIndex(n) + 1 && Get(n.matchIndex, m) <= LastIndex(n)
                       && (m in u.members ==> Get(n.nextIndex, m) > 0);
  }

  lemma NextIndexFits(u: Setup, h: History, n: Core, m: NodeID)
    requires Good(u, h, n) && n.role.Leader?
    ensures Get(n.nextIndex, m) <= LastIndex(n) + 1
  {
    hide NodeOK, Fold, StoredSnapshotOK, Full;
  }

  lemma NothingOK(u: Setup, h: History, n: Core)
    requires HistoryOK(u, h) && Good(u, h, n)
    ensures OutcomeOK(u, h, h, n, Done(n, false, []))
  {
    hide HistoryOK, Good, EffectsOK;
    NoGrowth(h, n.id);
    NoEffects(u, h, n.id, n.applied);
  }

  lemma FailedOK(u: Setup, h: History, n: Core, error: Error)
    requires HistoryOK(u, h) && Good(u, h, n) && error != Panic
    ensures OutcomeOK(u, h, h, n, Failed(n, error))
  {
    hide HistoryOK, Good;
    NoGrowth(h, n.id);
  }

  lemma HandleAppendEntriesResponseOK(u: Setup, h: History, n: Core, m: Message) returns (h': History)
    requires SetupOK(u) && HistoryOK(u, h) && Good(u, h, n) && Boundary(n) <= n.applied
    requires m.AppendEntriesResponse? && MessageOK(u, h, m)
    ensures OutcomeOK(u, h, h', n, HandleAppendEntriesResponse(u, n, m))
    ensures HandleAppendEntriesResponse(u, n, m).Done?
  {
    h' := h;
    if !n.role.Leader? || m.term != n.state.term {
      NothingOK(u, h, n);
    } else if m.success {
      hide HistoryOK, Good, SetupOK, Acked, OutcomeOK;
      h' := AfterAckOK(u, h, n, m.from, m.matchIndex);
    } else if m.sequence != Get(n.appendSequence, m.from) {
      NothingOK(u, h, n);
    } else {
      h' := RejectionOK(u, h, n, m);
    }
  }

  lemma RejectionOK(u: Setup, h: History, n: Core, m: Message) returns (h': History)
    requires SetupOK(u) && HistoryOK(u, h) && Good(u, h, n) && Boundary(n) <= n.applied
    requires m.AppendEntriesResponse? && n.role.Leader? && m.term == n.state.term
    requires !m.success && m.sequence == Get(n.appendSequence, m.from)
    ensures OutcomeOK(u, h, h', n, HandleAppendEntriesResponse(u, n, m))
    ensures HandleAppendEntriesResponse(u, n, m).Done?
  {
    hide HistoryOK, Good, SetupOK, EffectsOK, GrowsBy;
    h' := h;
    NoGrowth(h, n.id);
    NextIndexFits(u, h, n, m.from);
    var next := Get(n.nextIndex, m.from);
    var back := if next > 1 then next - 1 else next;
    var hinted := if 0 < m.rejectHint < back then m.rejectHint else back;
    var n1 := n.(nextIndex := n.nextIndex[m.from := Max(1, hinted)]);
    BackOffOK(u, h, n, m.from, Max(1, hinted));
    AppendForOK(u, h, n1, m.from);
    SequencedGood(u, h, n1, Sequenced(n1, m.from).appendSequence);
    JustifiedOK(u, h, n.id, AppendFor(n1, m.from));
    QuietOutcome(u, h, h, n, HandleAppendEntriesResponse(u, n, m), [Send(AppendFor(n1, m.from))]);
  }

  lemma HandleInstallSnapshotResponseOK(u: Setup, h: History, n: Core, m: Message) returns (h': History)
    requires SetupOK(u) && HistoryOK(u, h) && Good(u, h, n) && Boundary(n) <= n.applied
    requires m.InstallSnapshotResponse? && MessageOK(u, h, m)
    ensures OutcomeOK(u, h, h', n, HandleInstallSnapshotResponse(u, n, m))
    ensures HandleInstallSnapshotResponse(u, n, m).Done?
  {
    h' := h;
    if !n.role.Leader? || m.term != n.state.term || !m.success {
      NothingOK(u, h, n);
    } else {
      hide HistoryOK, Good, SetupOK, Acked, OutcomeOK;
      h' := AfterAckOK(u, h, n, m.from, m.matchIndex);
    }
  }

  // ----- snapshots -----

  /** A snapshot's boundary entry, matched by term, is the committed one. */
  lemma SnapshotAdopts(state: PersistentState, full: Log, log: Log, committed: Log, s: Snapshot)
    requires Stores(state, full) && |full| <= MAX_UINT64
    requires state.snapshot.index < s.index <= |log| && s.index <= |committed| && log[..s.index] == committed[..s.index]
    requires s.term == committed[s.index - 1].term > 0
    requires s.index <= |full| ==> MatchAt(full, log, s.index)
    ensures committed[..s.index] + SuffixAfter(state, s) == Adopted(full, log, s.index)
  {
    StoredTerm(state, full, s.index);
    var p := log[..s.index];
    assert p[s.index - 1] == log[s.index - 1] == committed[..s.index][s.index - 1];
    if TermAt(state, s.index) == s.term {
      assert s.index <= |full|;
      assert full[..s.index] == p;
      assert p <= full;
      assert full[s.index..] == full[state.snapshot.index..][s.index - state.snapshot.index..];
      if s.index < MAX_UINT64 {
        assert SuffixAfter(state, s) == full[s.index..] by {
          if s.index + 1 > state.LastIndex() {
            assert full[s.index..] == [];
          }
        }
      } else {
        assert full[s.index..] == [];
      }
      assert full == full[..s.index] + full[s.index..];
    } else {
      assert s.index <= |full| ==> full[..s.index][s.index - 1] == full[s.index - 1];
      assert p + [] == p;
    }
  }

  /** Everything installing a snapshot asks of a good node and a justified message. */
  lemma ReadyToInstall(u: Setup, h: History, n: Core, m: Message)
    requires SetupOK(u) && HistoryOK(u, h) && Good(u, h, n)
    requires m.InstallSnapshot? && InstallOK(u, h, m)
    ensures var full := Full(h, n.state);
      var log := h.reigns[m.term].log;
      var s := m.snapshot;
      && Stores(n.state, full) && |full| <= MAX_UINT64
      && 0 < s.index <= |log| && s.index <= |h.committed| && log[..s.index] == h.committed[..s.index]
      && s.term == h.committed[s.index - 1].term > 0
      && (s.index <= |full| ==> MatchAt(full, log, s.index))
      && n.state.commit <= |full| && full[..n.state.commit] <= h.committed
      && SnapshotMembership(s) == s.membership
      && SnapshotOK(u, h, s) && s.index > 0
      && n.id in u.members
      && Committed(u, h, log, s.index, m.term)
      && h.reigns[m.term].leader == m.from
      && m.term in h.reigns
  {
    hide HistoryOK, Good, SetupOK, LogOK, CommitPoint, Fold, Full, Stores;
    var full := Full(h, n.state);
    var log := h.reigns[m.term].log;
    var s := m.snapshot;
    LogFits(u, h, n);
    GoodLog(u, h, n);
    GoodParts(u, h, n);
    StoredOK(u, h, n);
    StoresFull(u, h, n.state);
    ReignLogOK(u, h, m.term);
    LogsOKMatch(h, full, log);
    CommittedLogOK(u, h);
    TermsPositive(u, h, h.committed);
    LogPrefixOK(h, h.committed, s.index);
    ConfigValid(u, h, h.committed[..s.index]);
    assert s.index <= |full| ==> MatchAt(full, log, s.index);
  }

  lemma KnownSnapshotOK(u: Setup, h: History, n: Core, m: Message) returns (h': History)
    requires SetupOK(u) && HistoryOK(u, h) && Good(u, h, n) && n.role.Follower?
    requires m.InstallSnapshot? && MessageOK(u, h, m) && m.term == n.state.term && m.from != n.id
    requires m.snapshot.index <= n.state.commit
    ensures HistoryOK(u, h') && GrowsBy(h, h', n.id) && Good(u, h', n)
    ensures Acked(h', n.id, m.term, m.snapshot.index)
  {
    hide HistoryOK, NodeOK, Fold, SnapshotOK, GrowsBy, Full, Committed, CoreOK, SetupOK, Adopted, Stores, Good, Acked;
    ReadyToInstall(u, h, n, m);
    GoodParts(u, h, n);
    var i := m.snapshot.index;
    var full := Full(h, n.state);
    var log := h.reigns[m.term].log;
    KnownPrefix(full, log, h.committed, n.state.commit, i);
    SnapshotFinals(log, n.state.commit, i);
    h' := Adopt(u, h, n.id, View(h, n), i, i);
    CoreGrowsBy(u, h, h', n, n.id);
    MakeGood(u, h', n, View(h, n).(log := full, commit := Max(n.state.commit, i)));
  }

  lemma KnownPrefix(full: Log, log: Log, committed: Log, commit: nat, i: nat)
    requires i <= commit <= |full| && full[..commit] <= committed
    requires i <= |log| && i <= |committed| && log[..i] == committed[..i]
    ensures Adopted(full, log, i) == full
  {
    assert full[..i] == full[..commit][..i] == committed[..i];
    AlreadyThere(full, log, i);
  }

  lemma SnapshotFinals(log: Log, commit: nat, i: nat)
    requires i <= |log|
    ensures forall x | 0 <= x < i :: log[x].kind.ConfigFinal? ==> x <= Max(commit, i)
  {
  }

  ghost function Installed(u: Setup, n: Core, s: Snapshot): Core {
    Refresh(u, n.(state := n.state.(snapshot := s, log := SuffixAfter(n.state, s), commit := s.index), applied := s.index))
  }

  lemma NewSnapshotOK(u: Setup, h: History, n: Core, m: Message) returns (h': History)
    requires SetupOK(u) && HistoryOK(u, h) && Good(u, h, n) && n.role.Follower?
    requires m.InstallSnapshot? && MessageOK(u, h, m) && m.term == n.state.term && m.from != n.id
    requires m.snapshot.index > n.state.commit
    ensures HistoryOK(u, h') && GrowsBy(h, h', n.id) && Good(u, h', Installed(u, n, m.snapshot))
    ensures Acked(h', n.id, m.term, m.snapshot.index)
    ensures SnapshotOK(u, h', m.snapshot)
  {
    hide HistoryOK, NodeOK, Fold, SnapshotOK, GrowsBy, Committed, SetupOK, Adopted, Stores, SuffixAfter, Good, CoreOK, Acked, Full, Installed;
    ReadyToInstall(u, h, n, m);
    GoodParts(u, h, n);
    var s := m.snapshot;
    var full := Full(h, n.state);
    var log := h.reigns[m.term].log;
    SnapshotAdopts(n.state, full, log, h.committed, s);
    SnapshotFinals(log, n.state.commit, s.index);
    h' := Adopt(u, h, n.id, View(h, n), s.index, s.index);
    SnapshotSame(u, h, h', s);
    FullSame(h, h', n.state);
    InstalledCore(u, h', n, s);
    MakeGood(u, h', Installed(u, n, s), View(h, n).(log := Adopted(full, log, s.index), commit := Max(n.state.commit, s.index)));
  }

  lemma InstalledCore(u: Setup, h: History, n: Core, s: Snapshot)
    requires SetupOK(u) && HistoryOK(u, h) && n.id in u.members && n.role.Follower?
    requires SnapshotOK(u, h, s)
    ensures CoreOK(u, h, Installed(u, n, s)) && Installed(u, n, s).id == n.id
    ensures View(h, Installed(u, n, s)) == View(h, n).(
              log := h.committed[..s.index] + SuffixAfter(n.state, s), commit := s.index)
  {
    var n1 := Installed(u, n, s);
    InstalledMembership(u, n, s);
    LastMembership(u, h, n1.state);
    hide HistoryOK, SetupOK, Fold, SuffixAfter;
  }

  lemma InstalledMembership(u: Setup, n: Core, s: Snapshot)
    ensures var n1 := Installed(u, n, s);
      n1.membership == MembershipAt(u, n1.state, n1.state.LastIndex())
  {
  }

  lemma SnapshotSame(u: Setup, a: History, b: History, s: Snapshot)
    requires a.committed == b.committed && SnapshotOK(u, a, s)
    ensures SnapshotOK(u, b, s)
  {
  }

  lemma SnapshotRefusedOK(u: Setup, h: History, n0: Core, n: Core, m: Message)
    requires HistoryOK(u, h) && Good(u, h, n) && n.id == n0.id && n.applied == n0.applied && n.state == n0.state
    ensures OutcomeOK(u, h, h, n0,
              Done(n, false, [ResetElectionTimer, SnapshotResponse(n, m.from, m.sequence, false, Boundary(n))]))
    requires m.InstallSnapshot?
  {
    NoGrowth(h, n.id);
    var response := InstallSnapshotResponse(n.id, m.from, n.state.term, m.sequence, false, Boundary(n));
    RefusalOK(u, h, n, response);
    hide HistoryOK, GrowsBy, Good, EffectsOK;
    QuietOutcome(u, h, h, n0, Done(n, false, [ResetElectionTimer, Send(response)]), [Send(response)]);
  }

  lemma AckIsJustified(u: Setup, h: History, n: Core, m: Message)
    requires Good(u, h, n) && m.from == n.id && m.term == n.state.term
    requires (m.InstallSnapshotResponse? || m.AppendEntriesResponse?) && Acked(h, n.id, m.term, m.matchIndex)
    ensures MessageOK(u, h, m)
  {
  }

  lemma HandleInstallSnapshotOK(u: Setup, h: History, n0: Core, m: Message) returns (h': History)
    requires SetupOK(u) && HistoryOK(u, h) && Good(u, h, n0)
    requires m.InstallSnapshot? && MessageOK(u, h, m) && m.from != n0.id && m.term <= n0.state.term
    ensures OutcomeOK(u, h, h', n0, HandleInstallSnapshot(u, n0, m))
    ensures HandleInstallSnapshot(u, n0, m).Done?
  {
    if m.term < n0.state.term {
      h' := h;
      NoGrowth(h, n0.id);
      var response := InstallSnapshotResponse(n0.id, m.from, n0.state.term, m.sequence, false, Boundary(n0));
      RefusalOK(u, h, n0, response);
      hide HistoryOK, GrowsBy, Good, EffectsOK;
      QuietOutcome(u, h, h, n0, HandleInstallSnapshot(u, n0, m), [Send(response)]);
    } else {
      assert n0.applied == n0.state.commit;
      hide HistoryOK, Good, SetupOK, MessageOK, FollowLeader, OutcomeOK, AcceptableSnapshot, SuffixAfter, ChainOK, BaseMembership;
      FollowLeaderOK(u, h, n0, m);
      var n := FollowLeader(n0, m);
      var s := m.snapshot;
      if !AcceptableSnapshot(u, m) || (s.index > n.state.commit && !ChainOK(u, SnapshotMembership(s), SuffixAfter(n.state, s))) {
        h' := h;
        SnapshotRefusedOK(u, h, n0, n, m);
      } else if s.index <= n.state.commit {
        h' := KnownSnapshotOK(u, h, n, m);
        KnownOutcome(u, h, h', n0, n, m);
      } else {
        h' := NewSnapshotOK(u, h, n, m);
        NewOutcome(u, h, h', n0, n, m);
      }
    }
  }

  lemma KnownOutcome(u: Setup, h: History, h': History, n0: Core, n: Core, m: Message)
    requires HistoryOK(u, h') && GrowsBy(h, h', n.id) && Good(u, h', n)
    requires n.id == n0.id && n.applied == n0.applied && n.state == n0.state
    requires m.InstallSnapshot? && m.term == n.state.term && Acked(h', n.id, m.term, m.snapshot.index)
    ensures OutcomeOK(u, h, h', n0,
              Done(n, false, [ResetElectionTimer, SnapshotResponse(n, m.from, m.sequence, true, m.snapshot.index)]))
  {
    var response := InstallSnapshotResponse(n.id, m.from, n.state.term, m.sequence, true, m.snapshot.index);
    hide HistoryOK, GrowsBy, Good, EffectsOK, Acked, MessageOK;
    AckIsJustified(u, h', n, response);
    JustifiedOK(u, h', n.id, response);
    QuietOutcome(u, h, h', n0, Done(n, false, [ResetElectionTimer, Send(response)]), [Send(response)]);
  }

  lemma NewOutcome(u: Setup, h: History, h': History, n0: Core, n: Core, m: Message)
    requires m.InstallSnapshot?
    requires var n1 := Installed(u, n, m.snapshot);
      && HistoryOK(u, h') && GrowsBy(h, h', n.id) && Good(u, h', n1)
      && Acked(h', n.id, m.term, m.snapshot.index) && SnapshotOK(u, h', m.snapshot)
    requires n.id == n0.id && n.applied == n0.applied && n.state == n0.state && n0.applied == n0.state.commit
    requires m.term == n.state.term && m.snapshot.index > n.state.commit
    ensures var n1 := Installed(u, n, m.snapshot);
      OutcomeOK(u, h, h', n0, Done(n1, true,
        [ResetElectionTimer, RestoreSnapshot(m.snapshot), SnapshotResponse(n1, m.from, m.sequence, true, m.snapshot.index)]))
  {
    hide CommitPoint, Fold, Count;
    var s := m.snapshot;
    var n1 := Installed(u, n, s);
    var response := InstallSnapshotResponse(n.id, m.from, n.state.term, m.sequence, true, s.index);
    hide HistoryOK, GrowsBy, Good, Acked, MessageOK, SuffixAfter, MembershipAt, SnapshotOK;
    AckIsJustified(u, h', n1, response);
    JustifiedOK(u, h', n.id, response);
    TimerOK(u, h', n.id, ResetElectionTimer);
    RestoreDelivers(u, h', n.id, s, n.applied);
    EffectsCompose(u, h', n.id, [ResetElectionTimer], [RestoreSnapshot(s)], [Send(response)], n.applied, s.index);
    assert [ResetElectionTimer] + [RestoreSnapshot(s)] + [Send(response)] == [ResetElectionTimer, RestoreSnapshot(s), Send(response)];
  }

  lemma RestoreDelivers(u: Setup, h: History, id: NodeID, s: Snapshot, applied: nat)
    requires SnapshotOK(u, h, s) && s.index >= applied
    ensures EffectsOK(u, h, id, [RestoreSnapshot(s)])
    ensures Delivered([RestoreSnapshot(s)], applied) == Some(s.index)
  {
    hide SnapshotOK, MessageOK;
    assert Delivered([], applied) == Some(applied);
  }

  // ----- compaction -----

  /** A snapshot at a committed index stands for exactly the entries it replaces. */
  lemma CompactedStore(u: Setup, h: History, state: PersistentState, index: nat, snapshot: Snapshot)
    requires SetupOK(u) && HistoryOK(u, h) && StoredSnapshotOK(u, h, state.snapshot)
    requires state.snapshot.index < index <= state.LastIndex() <= MAX_UINT64
    requires Full(h, state)[..index] <= h.committed
    requires snapshot.index == index && snapshot.term == TermAt(state, index) && snapshot.members == u.members
    requires snapshot.membership == MembershipAt(u, state, index)
    ensures SnapshotOK(u, h, snapshot)
    ensures var suffix := if index < MAX_UINT64 then EntriesFrom(state, index + 1) else [];
      Full(h, state.(snapshot := snapshot, log := suffix)) == Full(h, state)
  {
    hide CommitPoint, Fold, Count;
    FullLength(u, h, state);
    TermAtFull(u, h, state, index);
    MembershipAtFull(u, h, state, index);
    var full := Full(h, state);
    assert full[..index] == h.committed[..index];
    assert full[index - 1] == full[..index][index - 1];
    if index < MAX_UINT64 {
      EntriesFromFull(u, h, state, index + 1);
    }
    CutAt(full, index);
  }

  lemma CutAt(log: Log, index: nat)
    requires index <= |log|
    ensures log == log[..index] + log[index..]
  {
  }

  lemma CompactOK(u: Setup, h: History, n: Core, index: nat, data: Bytes)
    requires SetupOK(u) && HistoryOK(u, h) && Good(u, h, n)
    ensures OutcomeOK(u, h, h, n, Compact(u, n, index, data))
  {
    hide Good, CoreOK, NodeOK, HistoryOK, Fold, EffectsOK, GrowsBy, SnapshotOK, EntriesFrom, TermAt, SetupOK, Full, MembershipAt;
    GoodParts(u, h, n);
    var out := Compact(u, n, index, data);
    if out.Failed? {
      FailedOK(u, h, n, out.error);
    } else {
      NoGrowth(h, n.id);
      NoEffects(u, h, n.id, n.applied);
      CompactedCore(u, h, n, index, data);
      MakeGood(u, h, out.node, View(h, n));
    }
  }

  /** COMPACTION IS INVISIBLE to the protocol: the whole log, and every role and index, stay as they were. */
  lemma CompactedCore(u: Setup, h: History, n: Core, index: nat, data: Bytes)
    requires SetupOK(u) && HistoryOK(u, h) && Good(u, h, n)
    requires Compact(u, n, index, data).Done?
    ensures CoreOK(u, h, Compact(u, n, index, data).node)
    ensures View(h, Compact(u, n, index, data).node) == View(h, n)
  {
    LogFits(u, h, n);
    CommitIsPrefix(u, h, n, index);
    GoodParts(u, h, n);
    var n1 := Compact(u, n, index, data).node;
    assert n1.state.snapshot.term == TermAt(n.state, index);
    hide HistoryOK, Fold, EntriesFrom, TermAt, SetupOK, Full, MembershipAt, Good, NodeOK, SnapshotOK;
    assert StoredSnapshotOK(u, h, n.state.snapshot);
    CompactedStore(u, h, n.state, index, n1.state.snapshot);
    LastMembership(u, h, n1.state);
  }

  lemma CommitIsPrefix(u: Setup, h: History, n: Core, index: nat)
    requires Good(u, h, n) && index <= n.state.commit
    ensures n.state.commit <= LastIndex(n) == |Full(h, n.state)|
    ensures Full(h, n.state)[..index] <= h.committed
  {
    FullLength(u, h, n.state);
    assert Full(h, n.state)[..n.state.commit] <= h.committed;
    hide Fold, NodeOK, Good;
    assert Full(h, n.state)[..index] <= Full(h, n.state)[..n.state.commit];
  }

  // ----- client inputs -----

  lemma AppendedIndexes(u: Setup, n: Core, entry: Entry)
    requires IndexesOK(u, n) && n.role.Leader? && entry.index == LastIndex(n) + 1
    ensures IndexesOK(u, Appended(n, entry)) && LastIndex(Appended(n, entry)) == LastIndex(n) + 1
  {
    var n1 := Appended(n, entry);
    forall m
      ensures Get(n1.nextIndex, m) <= LastIndex(n1) + 1 && Get(n1.matchIndex, m) <= LastIndex(n1)
      ensures m in u.members ==> Get(n1.nextIndex, m) > 0
    {
      assert Get(n.nextIndex, m) <= LastIndex(n) + 1 && Get(n.matchIndex, m) <= LastIndex(n);
    }
  }

  lemma AppendedCore(u: Setup, h: History, n: Core, entry: Entry)
    requires CoreOK(u, h, n) && SetupOK(u) && HistoryOK(u, h) && n.role.Leader? && entry.index == LastIndex(n) + 1
    ensures CoreOK(u, h, Refresh(u, Appended(n, entry))) && Refresh(u, Appended(n, entry)).id == n.id
    ensures View(h, Refresh(u, Appended(n, entry))) ==
            View(h, n).(log := Full(h, n.state) + [entry], match_ := n.matchIndex[n.id := entry.index])
    ensures !entry.IsConfig() ==> Refresh(u, Appended(n, entry)) == Appended(n, entry)
  {
    var n1 := Appended(n, entry);
    AppendedIndexes(u, n, entry);
    FullAppend(u, h, n.state, entry);
    LastMembership(u, h, n1.state);
    if !entry.IsConfig() {
      NoopKeepsConfig(u, Full(h, n.state), entry);
    }
    hide HistoryOK, SnapshotOK, Fold, Full, SetupOK, MembershipAt, Get;
  }

  lemma AppendedOK(u: Setup, h: History, n: Core, entry: Entry) returns (h': History)
    requires SetupOK(u) && HistoryOK(u, h) && Good(u, h, n) && n.role.Leader?
    requires entry.index == LastIndex(n) + 1 <= MAX_UINT64 && entry.term == n.state.term
    requires TransitionMembership(n.membership, entry, u.members).Some?
    requires entry.IsConfig() ==> !HasUncommittedConfiguration(n)
    requires entry.kind.ConfigFinal? ==> n.state.commit == LastIndex(n)
    ensures HistoryOK(u, h') && GrowsBy(h, h', n.id)
    ensures Good(u, h', Refresh(u, Appended(n, entry)))
    ensures !entry.IsConfig() ==> Refresh(u, Appended(n, entry)) == Appended(n, entry)
  {
    hide HistoryOK, NodeOK, GrowsBy, SnapshotOK, Fold, Full, SetupOK, CoreOK, TransitionMembership, HasUncommittedConfiguration, Good;
    hide Appended, Refresh;
    GoodParts(u, h, n);
    UncommittedConfigs(u, h, n);
    LegalEntry(u, Full(h, n.state), entry);
    h' := Append(u, h, n.id, View(h, n), entry);
    CoreGrowsBy(u, h, h', n, n.id);
    AppendedCore(u, h', n, entry);
    MakeGood(u, h', Refresh(u, Appended(n, entry)), View(h, n).(log := View(h, n).log + [entry], match_ := n.matchIndex[n.id := entry.index]));
  }

  lemma LegalEntry(u: Setup, log: Log, entry: Entry)
    requires TransitionMembership(Config(u, log), entry, u.members).Some?
    ensures LegalAt(u, Config(u, log), [entry], 0)
  {
    assert [entry][..0] == [];
  }

  lemma UncommittedConfigs(u: Setup, h: History, n: Core)
    requires CoreOK(u, h, n) && NodeOK(u, h, n.id, View(h, n))
    ensures |Full(h, n.state)| == LastIndex(n)
    ensures !HasUncommittedConfiguration(n) ==>
              forall i | n.state.commit <= i < |Full(h, n.state)| :: !Full(h, n.state)[i].IsConfig()
  {
    var full := Full(h, n.state);
    FullLength(u, h, n.state);
    assert LogOK(h, full);
    hide Fold, NodeOK, SnapshotOK;
    if !HasUncommittedConfiguration(n) {
      forall i | n.state.commit <= i < |full|
        ensures !full[i].IsConfig()
      {
        assert full[i] == full[Boundary(n)..][i - Boundary(n)] == n.state.log[i - Boundary(n)];
        assert full[i].index == i + 1;
      }
    }
  }

  lemma CommandLegal(u: Setup, m: Membership, entry: Entry)
    requires entry.kind.Command? && entry.membership == ZERO_MEMBERSHIP
    ensures TransitionMembership(m, entry, u.members).Some?
  {
  }

  lemma ProposalOK(u: Setup, h: History, n: Core, data: Bytes) returns (h': History)
    requires SetupOK(u) && HistoryOK(u, h) && Good(u, h, n) && Boundary(n) <= n.applied
    ensures OutcomeOK(u, h, h', n, HandleProposal(u, n, data))
  {
    hide HistoryOK, Good, SetupOK, GrowsBy, EffectsOK, Delivered, HasUncommittedConfiguration, Refresh, AdvanceCommit, BroadcastAppend;
    hide TransitionMembership, Quiet;
    LogFits(u, h, n);
    if !n.role.Leader? || !n.membership.IsVoter(n.id) || HasUncommittedConfiguration(n) || LastIndex(n) == MAX_UINT64 {
      h' := h;
      FailedOK(u, h, n, HandleProposal(u, n, data).error);
    } else {
      var entry := Entry(LastIndex(n) + 1, n.state.term, Command, data, ZERO_MEMBERSHIP);
      CommandLegal(u, n.membership, entry);
      var h1 := AppendedOK(u, h, n, entry);
      var n1 := Appended(n, entry);
      h' := CommitAndBroadcastOK(u, h1, n1);
      GrowsByTransitive(h, h1, h', n.id);
    }
  }

  lemma MembershipEntryOK(u: Setup, h: History, n: Core, kind: EntryType, membership: Membership) returns (h': History)
    requires SetupOK(u) && HistoryOK(u, h) && Good(u, h, n) && Boundary(n) <= n.applied
    requires n.role.Leader? && LastIndex(n) < MAX_UINT64 && !HasUncommittedConfiguration(n)
    requires kind.ConfigJoint? || (kind.ConfigFinal? && n.state.commit == LastIndex(n))
    ensures OutcomeOK(u, h, h', n, AppendMembershipEntry(u, n, kind, membership))
  {
    hide CommitPoint, Fold, Count;
    hide HistoryOK, Good, SetupOK, GrowsBy, EffectsOK, Delivered, HasUncommittedConfiguration;
    var out := AppendMembershipEntry(u, n, kind, membership);
    if out.Failed? {
      h' := h;
      FailedOK(u, h, n, out.error);
    } else {
      var entry := Entry(LastIndex(n) + 1, n.state.term, kind, [], membership);
      var h1 := AppendedOK(u, h, n, entry);
      var n1 := Refresh(u, Appended(n, entry));
      h' := CommitAndBroadcastOK(u, h1, n1);
      GrowsByTransitive(h, h1, h', n.id);
    }
  }

  lemma BeginMembershipOK(u: Setup, h: History, n: Core, voters: seq<NodeID>, learners: seq<NodeID>) returns (h': History)
    requires SetupOK(u) && HistoryOK(u, h) && Good(u, h, n) && Boundary(n) <= n.applied
    ensures OutcomeOK(u, h, h', n, HandleBeginMembership(u, n, voters, learners))
  {
    hide HistoryOK, Good, SetupOK, OutcomeOK, ValidateMembership, StableMembership, HasUncommittedConfiguration, AppendMembershipEntry;
    LogFits(u, h, n);
    var target := StableMembership(voters, learners);
    if n.role.Leader? && n.membership.IsVoter(n.id) && !n.membership.Joint() && !HasUncommittedConfiguration(n)
       && LastIndex(n) != MAX_UINT64 && ValidateMembership(target, u.members) && target != n.membership {
      h' := MembershipEntryOK(u, h, n, ConfigJoint, JointMembership(n.membership, target));
    } else {
      h' := h;
      FailedOK(u, h, n, HandleBeginMembership(u, n, voters, learners).error);
    }
  }

  lemma FinalizeMembershipOK(u: Setup, h: History, n: Core) returns (h': History)
    requires SetupOK(u) && HistoryOK(u, h) && Good(u, h, n) && Boundary(n) <= n.applied
    ensures OutcomeOK(u, h, h', n, HandleFinalizeMembership(u, n))
  {
    hide HistoryOK, Good, SetupOK, OutcomeOK, StableMembership, HasUncommittedConfiguration, AppendMembershipEntry;
    LogFits(u, h, n);
    if n.role.Leader? && n.membership.Joint() && !HasUncommittedConfiguration(n)
       && n.state.commit == LastIndex(n) && LastIndex(n) != MAX_UINT64 {
      h' := MembershipEntryOK(u, h, n, ConfigFinal, StableMembership(n.membership.voters, n.membership.learnersNext));
    } else {
      h' := h;
      FailedOK(u, h, n, HandleFinalizeMembership(u, n).error);
    }
  }

  // ----- one input -----

  lemma DispatchOK(u: Setup, h: History, n: Core, m: Message) returns (h': History)
    requires SetupOK(u) && HistoryOK(u, h) && Good(u, h, n) && Boundary(n) <= n.applied
    requires MessageOK(u, h, m) && m.to == n.id && m.from != n.id && m.from != NO_NODE && m.term <= n.state.term
    ensures OutcomeOK(u, h, h', n, Dispatch(u, n, m))
    ensures Dispatch(u, n, m).Failed? ==> n.role.Candidate?
  {
    hide HistoryOK, Good, SetupOK, MessageOK, OutcomeOK, HandleRequestVote, HandleRequestVoteResponse, HandleAppendEntries,
      HandleAppendEntriesResponse, HandleInstallSnapshot, HandleInstallSnapshotResponse;
    match m
    case RequestVote(_, _, _, _, _) => h' := HandleRequestVoteOK(u, h, n, m);
    case RequestVoteResponse(_, _, _, _) => h' := HandleRequestVoteResponseOK(u, h, n, m);
    case AppendEntries(_, _, _, _, _, _, _, _) => h' := HandleAppendEntriesOK(u, h, n, m);
    case AppendEntriesResponse(_, _, _, _, _, _, _) => h' := HandleAppendEntriesResponseOK(u, h, n, m);
    case InstallSnapshot(_, _, _, _, _) => h' := HandleInstallSnapshotOK(u, h, n, m);
    case InstallSnapshotResponse(_, _, _, _, _, _) => h' := HandleInstallSnapshotResponseOK(u, h, n, m);
  }

  lemma HandleMessageOK(u: Setup, h: History, n: Core, m: Message) returns (h': History)
    requires SetupOK(u) && HistoryOK(u, h) && Good(u, h, n) && Boundary(n) <= n.applied
    requires MessageOK(u, h, m)
    ensures OutcomeOK(u, h, h', n, HandleMessage(u, n, m))
  {
    hide HistoryOK, Good, SetupOK, MessageOK, Dispatch, OutcomeOK;
    if m.to != n.id || m.from == NO_NODE || m.from == n.id || m.from !in u.members {
      h' := h;
      FailedOK(u, h, n, InvalidInput);
    } else if m.term > n.state.term {
      h' := NewTermOK(u, h, n, m);
    } else {
      h' := DispatchOK(u, h, n, m);
    }
  }

  /** A message of a later term: first the node follows that term, then it handles the message. */
  lemma NewTermOK(u: Setup, h: History, n: Core, m: Message) returns (h': History)
    requires SetupOK(u) && HistoryOK(u, h) && Good(u, h, n) && Boundary(n) <= n.applied
    requires MessageOK(u, h, m) && m.to == n.id && m.from != n.id && m.from != NO_NODE && m.term > n.state.term
    requires m.from in u.members
    ensures OutcomeOK(u, h, h', n, HandleMessage(u, n, m))
  {
    hide HistoryOK, Good, SetupOK, MessageOK, Dispatch, GrowsBy, EffectsOK;
    var h1 := BumpOK(u, h, n, m.term, NO_NODE);
    var n1 := BecomeFollower(n, m.term, NO_NODE);
    MessageKept(u, h, h1, n.id, m);
    h' := DispatchOK(u, h1, n1, m);
    GrowsByTransitive(h, h1, h', n.id);
  }

  lemma MessageKept(u: Setup, a: History, b: History, n: NodeID, m: Message)
    requires GrowsBy(a, b, n) && MessageOK(u, a, m)
    ensures MessageOK(u, b, m)
  {
    hide MessageOK;
    MessageGrows(u, a, b, m);
  }

  lemma HeartbeatOK(u: Setup, h: History, n: Core)
    requires SetupOK(u) && HistoryOK(u, h) && Good(u, h, n) && Boundary(n) <= n.applied
    ensures OutcomeOK(u, h, h, n, React(u, n, HeartbeatTimeout))
  {
    hide HistoryOK, Good, SetupOK, GrowsBy, EffectsOK, BroadcastAppend, Delivered, Quiet;
    if !n.role.Leader? {
      NothingOK(u, h, n);
    } else {
      BroadcastOK(u, h, n, u.members);
      var (n1, sends) := BroadcastAppend(n, u.members);
      NoGrowth(h, n.id);
      NoEffects(u, h, n.id, n.applied);
      TimerOK(u, h, n.id, ResetHeartbeatTimer);
      EffectsCompose(u, h, n.id, [ResetHeartbeatTimer], [], sends, n.applied, n.applied);
      assert [ResetHeartbeatTimer] + [] + sends == [ResetHeartbeatTimer] + sends;
    }
  }

  lemma ElectionTimeoutOK(u: Setup, h: History, n: Core) returns (h': History)
    requires SetupOK(u) && HistoryOK(u, h) && Good(u, h, n) && Boundary(n) <= n.applied
    ensures OutcomeOK(u, h, h', n, React(u, n, ElectionTimeout))
  {
    hide HistoryOK, Good, SetupOK, OutcomeOK, StartElection;
    h' := h;
    if !n.membership.IsVoter(n.id) {
      NothingOK(u, h, n);
    } else if n.state.term == MAX_UINT64 {
      FailedOK(u, h, n, TermExhausted);
    } else {
      h' := StartElectionOK(u, h, n);
    }
  }

  /** THE NODE'S TRANSITION keeps every invariant, whatever the input. */
  lemma ReactOK(u: Setup, h: History, n: Core, input: Input) returns (h': History)
    requires SetupOK(u) && HistoryOK(u, h) && Good(u, h, n) && Boundary(n) <= n.applied
    requires input.Receive? ==> MessageOK(u, h, input.message)
    ensures OutcomeOK(u, h, h', n, React(u, n, input))
  {
    hide HistoryOK, Good, SetupOK, OutcomeOK, MessageOK, HandleMessage, HandleProposal, Compact,
      HandleBeginMembership, HandleFinalizeMembership;
    h' := h;
    match input
    case ElectionTimeout => h' := ElectionTimeoutOK(u, h, n);
    case HeartbeatTimeout => HeartbeatOK(u, h, n);
    case Receive(m) => h' := HandleMessageOK(u, h, n, m);
    case Propose(data) => h' := ProposalOK(u, h, n, data);
    case Persisted(_) => FailedOK(u, h, n, UnexpectedPersistence);
    case TakeSnapshot(index, data) => CompactOK(u, h, n, index, data);
    case BeginMembership(voters, learners) => h' := BeginMembershipOK(u, h, n, voters, learners);
    case FinalizeMembership => h' := FinalizeMembershipOK(u, h, n);
  }
}

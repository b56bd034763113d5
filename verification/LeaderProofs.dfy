/** The transitions of candidates and leaders keep the invariant. */
module LeaderProofs {
  import opened RaftTypes
  import opened Configuration
  import opened RaftHistory
  import opened LeaderCompleteness
  import opened RaftActions
  import opened NodeSpec
  import opened NodeRefinement

  // ----- applying -----

  lemma {:induction false} ConsecutiveDelivers(effects: seq<Effect>, applied: nat)
    requires forall i | 0 <= i < |effects| :: effects[i].Apply? && effects[i].entry.index == applied + i + 1
    ensures Delivered(effects, applied) == Some(applied + |effects|)
  {
    if effects != [] {
      ConsecutiveDelivers(effects[..|effects| - 1], applied);
    }
  }

  lemma IndexAt(h: History, log: Log, i: nat)
    requires LogOK(h, log) && i < |log|
    ensures log[i].index == i + 1
  {
  }

  /** Applying up to the commit index delivers exactly the missing committed entries, in order. */
  lemma ApplyOK(u: Setup, h: History, n: Core)
    requires StoredSnapshotOK(u, h, n.state.snapshot) && Applicable(n) && n.applied <= n.state.commit
    requires LogOK(h, Full(h, n.state)) && Full(h, n.state)[..n.state.commit] <= h.committed
    ensures EffectsOK(u, h, n.id, Unapplied(n))
    ensures Delivered(Unapplied(n), n.applied) == Some(n.state.commit)
    ensures |Unapplied(n)| == n.state.commit - n.applied
  {
    hide MessageOK, SnapshotOK, StoredSnapshotOK, Full, LogOK;
    FullLength(u, h, n.state);
    var full := Full(h, n.state);
    var effects := Unapplied(n);
    forall i | 0 <= i < |effects|
      ensures effects[i].Apply? && effects[i].entry.index == n.applied + i + 1
      ensures EffectOK(u, h, n.id, effects[i])
    {
      var x := n.applied + i;
      assert effects[i].entry == full[Boundary(n)..][x - Boundary(n)] == full[x];
      assert full[x] == full[..n.state.commit][x] == h.committed[x];
      IndexAt(h, full, x);
    }
    ConsecutiveDelivers(effects, n.applied);
  }

  // ----- committing -----

  lemma CommittableIsCommitted(u: Setup, h: History, n: Core, k: nat)
    requires SetupOK(u) && HistoryOK(u, h) && Good(u, h, n)
    requires n.state.commit < k <= LastIndex(n) && Committable(u, n, k)
    ensures var r := View(h, n);
      && k <= |r.log|
      && r.log[k - 1].term == r.term
      && Quorum(Config(u, r.log[..k]), Matched(r.match_, k))
  {
    FullLength(u, h, n.state);
    TermAtFull(u, h, n.state, k);
    MembershipAtFull(u, h, n.state, k);
    assert MatchedNodes(n, k) == Matched(n.matchIndex, k);
  }

  lemma AdvanceCommitOK(u: Setup, h: History, n: Core) returns (h': History)
    requires SetupOK(u) && HistoryOK(u, h) && Good(u, h, n) && n.role.Leader?
    ensures HistoryOK(u, h') && GrowsBy(h, h', n.id)
    ensures var (n1, effects) := AdvanceCommit(u, n);
      && Good(u, h', n1)
      && EffectsOK(u, h', n.id, effects)
      && Delivered(effects, n.applied) == Some(n1.applied)
      && (effects == [] ==> n1 == n)
      && n1.id == n.id
      && n1.membership == n.membership
      && (n.membership.IsVoter(n.id) ==> n1.role.Leader?)
  {
    hide HistoryOK, NodeOK, EffectsOK, GrowsBy, Delivered, Unapplied, Committable, HighestCommittable;
    assert n.membership == n.membership && Boundary(n) <= n.state.commit;
    var k := HighestCommittable(u, n, LastIndex(n));
    HighestCommittableBounds(u, n, LastIndex(n));
    if k == n.state.commit {
      h' := h;
      NoGrowth(h, n.id);
      NoEffects(u, h, n.id, n.applied);
    } else {
      CommittableIsCommitted(u, h, n, k);
      h' := LearnCommit(u, h, n.id, View(h, n), k);
      CommitDone(u, h, h', n, k);
    }
  }

  lemma NoGrowth(h: History, n: NodeID)
    ensures GrowsBy(h, h, n)
  {
  }

  lemma TimerOK(u: Setup, h: History, id: NodeID, timer: Effect)
    requires timer.ResetElectionTimer? || timer.ResetHeartbeatTimer?
    ensures EffectsOK(u, h, id, [timer]) && Quiet([timer])
  {
  }

  lemma NoEffects(u: Setup, h: History, id: NodeID, applied: nat)
    ensures EffectsOK(u, h, id, []) && Delivered([], applied) == Some(applied)
  {
  }

  lemma CommitDone(u: Setup, h: History, h': History, n: Core, k: nat)
    requires SetupOK(u) && HistoryOK(u, h') && GrowsBy(h, h', n.id)
    requires CoreOK(u, h, n) && n.state.commit < k <= LastIndex(n)
    requires NodeOK(u, h', n.id, View(h, n).(commit := k))
    ensures var n1 := n.(state := n.state.(commit := k));
      && Applicable(n1)
      && Good(u, h', ApplyCommitted(n1).0)
      && Good(u, h', BecomeFollower(ApplyCommitted(n1).0, n.state.term, NO_NODE))
      && EffectsOK(u, h', n.id, Unapplied(n1))
      && Delivered(Unapplied(n1), n.applied) == Some(k)
      && Unapplied(n1) != []
  {
    CoreGrows(u, h, h', n);
    var n1 := n.(state := n.state.(commit := k));
    var n2 := n1.(applied := k);
    assert View(h', n2) == View(h, n).(commit := k);
    ApplyOK(u, h', n1);
    StepDown(u, h', n.id, View(h', n2));
    var n3 := BecomeFollower(n2, n.state.term, NO_NODE);
    assert View(h', n3) == View(h', n2).(role := Follower, votes := {}, match_ := map[]);
  }

  // ----- sending -----

  /** No log outgrows the index space. */
  lemma LogFits(u: Setup, h: History, n: Core)
    requires HistoryOK(u, h) && Good(u, h, n)
    ensures LastIndex(n) <= MAX_UINT64
  {
    FullLength(u, h, n.state);
    var full := Full(h, n.state);
    if full != [] {
      LastEntryReachesReign(u, h, full);
      ReignIsOK(u, h, LastTerm(full));
    }
  }

  lemma RecordsWithin(u: Setup, h: History, n: Core, member: NodeID)
    requires CoreOK(u, h, n) && n.role.Leader?
    ensures Get(n.nextIndex, member) <= LastIndex(n) + 1 && Get(n.matchIndex, member) <= LastIndex(n)
    ensures StoredSnapshotOK(u, h, n.state.snapshot)
  {
    hide CommitPoint, Fold, Count, StoredSnapshotOK, Full;
  }

  /** What an AppendEntries ships is the leader's whole log past the previous index. */
  lemma AppendShipsSuffix(u: Setup, h: History, n: Core, member: NodeID)
    requires CoreOK(u, h, n) && n.role.Leader? && LastIndex(n) <= MAX_UINT64
    ensures var m := AppendFor(n, member);
      && m.from == n.id && m.term == n.state.term
      && (m.AppendEntries? ==>
          && m.leaderCommit == n.state.commit
          && m.prevIndex <= |Full(h, n.state)|
          && m.prevTerm == TermIn(Full(h, n.state), m.prevIndex)
          && m.entries == Full(h, n.state)[m.prevIndex..])
      && (!m.AppendEntries? ==> m.InstallSnapshot? && m.snapshot == n.state.snapshot && Boundary(n) > 0)
  {
    hide CoreOK, StoredSnapshotOK, Full, TermAt, TermIn, EntriesFrom;
    RecordsWithin(u, h, n, member);
    FullLength(u, h, n.state);
    var m := AppendFor(n, member);
    if m.AppendEntries? {
      TermAtFull(u, h, n.state, m.prevIndex);
      if m.prevIndex + 1 <= LastIndex(n) && m.prevIndex < MAX_UINT64 {
        EntriesFromFull(u, h, n.state, m.prevIndex + 1);
      }
    }
  }

  lemma AppendForOK(u: Setup, h: History, n: Core, member: NodeID)
    requires SetupOK(u) && HistoryOK(u, h) && Good(u, h, n) && n.role.Leader?
    ensures AppendFor(n, member).from == n.id && MessageOK(u, h, AppendFor(n, member))
  {
    LogFits(u, h, n);
    hide HistoryOK, NodeOK, MessageOK, SetupOK, CoreOK, AppendFor;
    AppendShipsSuffix(u, h, n, member);
    var m := AppendFor(n, member);
    if m.AppendEntries? {
      AppendIsJustified(u, h, n, m);
    } else {
      InstallIsJustified(u, h, n, m);
    }
  }

  lemma AppendIsJustified(u: Setup, h: History, n: Core, m: Message)
    requires NodeOK(u, h, n.id, View(h, n)) && n.role.Leader?
    requires m.AppendEntries? && m.from == n.id && m.term == n.state.term && m.leaderCommit == n.state.commit
    requires m.prevIndex <= |Full(h, n.state)| && m.prevTerm == TermIn(Full(h, n.state), m.prevIndex)
    requires m.entries == Full(h, n.state)[m.prevIndex..]
    ensures MessageOK(u, h, m)
  {
    hide CommitPoint, Fold, Count;
    var log := Full(h, n.state);
    assert log[m.prevIndex..] == log[m.prevIndex..m.prevIndex + |m.entries|];
    assert FinalsFollowCommit(log, n.state.commit);
  }

  lemma InstallIsJustified(u: Setup, h: History, n: Core, m: Message)
    requires CoreOK(u, h, n) && NodeOK(u, h, n.id, View(h, n)) && n.role.Leader?
    requires m.InstallSnapshot? && m.from == n.id && m.term == n.state.term && m.snapshot == n.state.snapshot
    requires Boundary(n) > 0
    ensures MessageOK(u, h, m)
  {
    var r := View(h, n);
    CommittedPrefix(u, h, r.log, r.log, r.commit, Boundary(n), r.term);
  }

  lemma SequencedGood(u: Setup, h: History, n: Core, appendSequence: map<NodeID, nat>)
    requires Good(u, h, n)
    ensures Good(u, h, n.(appendSequence := appendSequence))
  {
    hide NodeOK;
    assert View(h, n.(appendSequence := appendSequence)) == View(h, n);
  }

  lemma {:induction false} BroadcastOK(u: Setup, h: History, n: Core, members: seq<NodeID>)
    requires SetupOK(u) && HistoryOK(u, h) && Good(u, h, n) && n.role.Leader?
    ensures var (n1, effects) := BroadcastAppend(n, members);
      && n1 == n.(appendSequence := n1.appendSequence)
      && Good(u, h, n1)
      && EffectsOK(u, h, n.id, effects)
      && Quiet(effects)
  {
    hide HistoryOK, Good, MessageOK, SetupOK;
    if members != [] {
      var (n1, effects) := BroadcastAppend(n, members[..|members| - 1]);
      var member := members[|members| - 1];
      BroadcastOK(u, h, n, members[..|members| - 1]);
      AppendForOK(u, h, n1, member);
      SequencedGood(u, h, n1, Sequenced(n1, member).appendSequence);
    }
  }

  /** What committing and sending have in common: first apply effects, then quiet ones. */
  lemma EffectsCompose(u: Setup, h: History, id: NodeID, before: seq<Effect>, middle: seq<Effect>, after: seq<Effect>, a: nat, b: nat)
    requires EffectsOK(u, h, id, before) && EffectsOK(u, h, id, middle) && EffectsOK(u, h, id, after)
    requires Quiet(before) && Quiet(after) && Delivered(middle, a) == Some(b)
    ensures EffectsOK(u, h, id, before + middle + after)
    ensures Delivered(before + middle + after, a) == Some(b)
    ensures before + (middle + after) == before + middle + after
  {
    QuietDelivers(before, a);
    QuietDelivers(after, b);
    DeliveredConcat(before, middle, a);
    DeliveredConcat(before + middle, after, a);
    hide EffectOK;
  }

  /** A leader that appended an entry commits what it can and tells everyone. */
  lemma CommitAndBroadcastOK(u: Setup, h: History, n: Core) returns (h': History)
    requires SetupOK(u) && HistoryOK(u, h) && Good(u, h, n) && n.role.Leader?
    ensures HistoryOK(u, h') && GrowsBy(h, h', n.id)
    ensures var (n1, applied) := AdvanceCommit(u, n);
      && n1.id == n.id
      && Good(u, h', n1)
      && EffectsOK(u, h', n.id, applied)
      && Delivered(applied, n.applied) == Some(n1.applied)
      && (n.membership.IsVoter(n.id) ==> n1.role.Leader?)
      && (n1.role.Leader? ==>
          var (n2, sends) := BroadcastAppend(n1, u.members);
          && Good(u, h', n2)
          && n2.id == n.id
          && n2.applied == n1.applied
          && EffectsOK(u, h', n.id, applied + sends)
          && Delivered(applied + sends, n.applied) == Some(n2.applied)
          && EffectsOK(u, h', n.id, sends)
          && Quiet(sends))
  {
    h' := AdvanceCommitOK(u, h, n);
    var (n1, applied) := AdvanceCommit(u, n);
    if n1.role.Leader? {
      BroadcastOK(u, h', n1, u.members);
      hide Good, HistoryOK;
      var (n2, sends) := BroadcastAppend(n1, u.members);
      EffectsCompose(u, h', n.id, [], applied, sends, n.applied, n1.applied);
      assert [] + applied + sends == applied + sends;
    }
  }

  // ----- becoming leader -----

  lemma NoopKeepsConfig(u: Setup, log: Log, entry: Entry)
    requires !entry.IsConfig()
    ensures Config(u, log + [entry]) == Config(u, log)
  {
    assert (log + [entry])[..|log + [entry]| - 1] == log;
  }

  lemma FullAppend(u: Setup, h: History, state: PersistentState, entry: Entry)
    requires StoredSnapshotOK(u, h, state.snapshot)
    ensures Full(h, state.(log := state.log + [entry])) == Full(h, state) + [entry]
  {
    FullLength(u, h, state);
    assert h.committed[..state.snapshot.index] + (state.log + [entry]) == Full(h, state) + [entry];
  }

  lemma CoreGrowsBy(u: Setup, a: History, b: History, n: Core, actor: NodeID)
    requires GrowsBy(a, b, actor) && CoreOK(u, a, n)
    ensures CoreOK(u, b, n) && View(a, n) == View(b, n) && Full(a, n.state) == Full(b, n.state)
  {
    CoreGrows(u, a, b, n);
    FullGrows(u, a, b, n.state);
  }

  lemma CrownedOK(u: Setup, h: History, n: Core) returns (h': History)
    requires SetupOK(u) && HistoryOK(u, h) && Good(u, h, n) && n.role.Candidate?
    requires Quorum(n.membership, n.votes) && LastIndex(n) < MAX_UINT64
    ensures HistoryOK(u, h') && GrowsBy(h, h', n.id)
    ensures Good(u, h', Crowned(u, n))
  {
    FullLength(u, h, n.state);
    assert n.membership == Config(u, Full(h, n.state));
    hide NodeOK, HistoryOK, SetupOK, GrowsBy, Fold, CoreOK, Full, Quorum;
    var noop := Entry(LastIndex(n) + 1, n.state.term, Noop, [], ZERO_MEMBERSHIP);
    h' := Elect(u, h, n.id, View(h, n), noop, Crowned(u, n).matchIndex);
    CoreGrowsBy(u, h, h', n, n.id);
    CrownedCore(u, h', n);
  }

  lemma CrownedCore(u: Setup, h: History, n: Core)
    requires CoreOK(u, h, n) && LastIndex(n) == |Full(h, n.state)|
    ensures CoreOK(u, h, Crowned(u, n))
    ensures View(h, Crowned(u, n)) == View(h, n).(
              role := Leader,
              log := View(h, n).log + [Entry(LastIndex(n) + 1, n.state.term, Noop, [], ZERO_MEMBERSHIP)],
              match_ := Crowned(u, n).matchIndex)
  {
    var noop := Entry(LastIndex(n) + 1, n.state.term, Noop, [], ZERO_MEMBERSHIP);
    FullAppend(u, h, n.state, noop);
    NoopKeepsConfig(u, Full(h, n.state), noop);
    hide Fold, SnapshotOK, Full;
  }

  lemma BecomeLeaderOK(u: Setup, h: History, n: Core) returns (h': History)
    requires SetupOK(u) && HistoryOK(u, h) && Good(u, h, n) && n.role.Candidate?
    requires Quorum(n.membership, n.votes)
    ensures OutcomeOK(u, h, h', n, BecomeLeader(u, n))
    ensures BecomeLeader(u, n).Failed? ==> LastIndex(n) == MAX_UINT64
    ensures BecomeLeader(u, n).Done? ==> BecomeLeader(u, n).dirty
  {
    hide CommitPoint, Fold, Count;
    assert n.membership.IsVoter(n.id);
    LogFits(u, h, n);
    hide Good, HistoryOK, SetupOK, EffectsOK, GrowsBy, Delivered, Quorum;
    if LastIndex(n) == MAX_UINT64 {
      h' := h;
      NoGrowth(h, n.id);
    } else {
      var h1 := CrownedOK(u, h, n);
      var n1 := Crowned(u, n);
      h' := CommitAndBroadcastOK(u, h1, n1);
      GrowsByTransitive(h, h1, h', n.id);
      var (n2, applied) := AdvanceCommit(u, n1);
      var (n3, sends) := BroadcastAppend(n2, u.members);
      TimerOK(u, h', n.id, ResetHeartbeatTimer);
      EffectsCompose(u, h', n.id, [ResetHeartbeatTimer], applied, sends, n.applied, n2.applied);
    }
  }

  // ----- elections -----

  lemma CandidacyOK(u: Setup, h: History, n: Core) returns (h': History)
    requires SetupOK(u) && HistoryOK(u, h) && Good(u, h, n) && n.membership.IsVoter(n.id)
    ensures HistoryOK(u, h') && GrowsBy(h, h', n.id)
    ensures Good(u, h', Candidacy(n))
  {
    hide CommitPoint, Fold, Count;
    h' := Campaign(u, h, n.id, View(h, n));
    CoreGrows(u, h, h', n);
    hide NodeOK, HistoryOK;
    assert View(h', Candidacy(n)) ==
      Replica(n.state.term + 1, n.id, View(h, n).log, n.state.commit, Candidate, {n.id}, map[]);
  }

  lemma {:induction false} VoteRequestsOK(u: Setup, h: History, n: Core, members: seq<NodeID>)
    requires SetupOK(u) && HistoryOK(u, h) && Good(u, h, n) && n.role.Candidate?
    ensures EffectsOK(u, h, n.id, VoteRequests(n, members)) && Quiet(VoteRequests(n, members))
  {
    if members != [] {
      VoteRequestsOK(u, h, n, members[..|members| - 1]);
      FullLength(u, h, n.state);
      TermAtFull(u, h, n.state, LastIndex(n));
      hide HistoryOK;
    }
  }

  lemma StartElectionOK(u: Setup, h: History, n: Core) returns (h': History)
    requires SetupOK(u) && HistoryOK(u, h) && Good(u, h, n)
    ensures OutcomeOK(u, h, h', n, StartElection(u, n))
  {
    hide CommitPoint, Fold, Count;
    assert Boundary(n) <= n.applied;
    hide Good, HistoryOK, SetupOK, EffectsOK, GrowsBy, Delivered, Quorum;
    if !n.membership.IsVoter(n.id) || (Quorum(n.membership, {n.id}) && LastIndex(n) == MAX_UINT64) {
      h' := h;
      NoGrowth(h, n.id);
    } else {
      var n1 := Candidacy(n);
      var h1 := CandidacyOK(u, h, n);
      TimerOK(u, h1, n.id, ResetElectionTimer);
      if Quorum(n1.membership, n1.votes) {
        h' := BecomeLeaderOK(u, h1, n1);
        GrowsByTransitive(h, h1, h', n.id);
        var inner := BecomeLeader(u, n1);
        TimerFirst(u, h', n.id, inner.effects, n.applied, inner.node.applied);
      } else {
        h' := h1;
        var requests := VoteRequests(n1, VoterUnion(n1.membership));
        VoteRequestsOK(u, h1, n1, VoterUnion(n1.membership));
        QuietDelivers(requests, n.applied);
        TimerFirst(u, h', n.id, requests, n.applied, n.applied);
      }
    }
  }

  lemma TimerFirst(u: Setup, h: History, id: NodeID, effects: seq<Effect>, a: nat, b: nat)
    requires EffectsOK(u, h, id, effects) && Delivered(effects, a) == Some(b)
    ensures EffectsOK(u, h, id, [ResetElectionTimer] + effects)
    ensures Delivered([ResetElectionTimer] + effects, a) == Some(b)
  {
    TimerOK(u, h, id, ResetElectionTimer);
    EffectsCompose(u, h, id, [ResetElectionTimer], effects, [], a, b);
    assert [ResetElectionTimer] + effects + [] == [ResetElectionTimer] + effects;
  }

  lemma HandleRequestVoteResponseOK(u: Setup, h: History, n: Core, m: Message) returns (h': History)
    requires SetupOK(u) && HistoryOK(u, h) && Good(u, h, n)
    requires m.RequestVoteResponse? && MessageOK(u, h, m) && m.to == n.id
    ensures OutcomeOK(u, h, h', n, HandleRequestVoteResponse(u, n, m))
    ensures HandleRequestVoteResponse(u, n, m).Failed? ==> n.role.Candidate?
  {
    h' := h;
    if n.role.Candidate? && m.term == n.state.term && m.granted && m.from !in n.votes {
      CountVote(u, h, n.id, View(h, n), m);
      var n1 := n.(votes := n.votes + {m.from});
      assert View(h, n1) == View(h, n).(votes := n.votes + {m.from});
      assert Good(u, h, n1);
      if Quorum(n1.membership, n1.votes) {
        h' := BecomeLeaderOK(u, h, n1);
      }
    }
  }

  // ----- who is asked and told -----

  lemma {:induction false} RequestsGoTo(n: Core, members: seq<NodeID>, i: nat)
    ensures i < |VoteRequests(n, members)| ==>
      exists k :: 0 <= k < |members| && members[k] != n.id
        && VoteRequests(n, members)[i] == Send(RequestVote(n.id, members[k], n.state.term, LastIndex(n), LastTermOf(n)))
    ensures forall k | 0 <= k < |members| && members[k] != n.id ::
      Send(RequestVote(n.id, members[k], n.state.term, LastIndex(n), LastTermOf(n))) in VoteRequests(n, members)
  {
    if members != [] {
      var front := members[..|members| - 1];
      RequestsGoTo(n, front, i);
      var all, some := VoteRequests(n, members), VoteRequests(n, front);
      if i < |some| {
        assert all[i] == some[i];
      }
      forall k | 0 <= k < |members| && members[k] != n.id
        ensures Send(RequestVote(n.id, members[k], n.state.term, LastIndex(n), LastTermOf(n))) in all
      {
        if k < |front| {
          assert front[k] == members[k];
          var x :| 0 <= x < |some| && some[x] == Send(RequestVote(n.id, members[k], n.state.term, LastIndex(n), LastTermOf(n)));
          assert all[x] == some[x];
        } else {
          assert all[|all| - 1] == Send(RequestVote(n.id, members[k], n.state.term, LastIndex(n), LastTermOf(n)));
        }
      }
    }
  }

  /** A candidate asks exactly the other voters, of either set of a joint configuration. */
  lemma CandidateAsksVoters(n: Core, v: NodeID)
    ensures (exists e | e in VoteRequests(n, VoterUnion(n.membership)) :: e.Send? && e.message.to == v)
        <==> n.membership.IsVoter(v) && v != n.id
  {
    var m, voters := n.membership, VoterUnion(n.membership);
    var requests := VoteRequests(n, voters);
    var union := Extended(m.voters, m.votersOutgoing);
    SortedSorts(union);
    ExtendedMembers(m.voters, m.votersOutgoing, v);
    assert v in union <==> v in multiset(union);
    assert v in voters <==> v in multiset(voters);
    if v in voters && v != n.id {
      RequestsGoTo(n, voters, 0);
      var k :| 0 <= k < |voters| && voters[k] == v;
      assert Send(RequestVote(n.id, voters[k], n.state.term, LastIndex(n), LastTermOf(n))) in requests;
    }
    if e :| e in requests && e.Send? && e.message.to == v {
      var i :| 0 <= i < |requests| && requests[i] == e;
      RequestsGoTo(n, voters, i);
    }
  }
}

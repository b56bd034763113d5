/** Voting, replication and snapshot installation keep the invariant. */
module FollowerProofs {
  import opened RaftTypes
  import opened Configuration
  import opened RaftHistory
  import opened LeaderCompleteness
  import opened RaftActions
  import opened NodeSpec
  import opened NodeRefinement
  import opened LeaderProofs

  // ----- changing role -----

  lemma YieldOK(u: Setup, h: History, n: Core, leader: NodeID)
    requires Good(u, h, n)
    ensures Good(u, h, BecomeFollower(n, n.state.term, leader))
  {
    StepDown(u, h, n.id, View(h, n));
    hide NodeOK, Fold;
    var n1 := BecomeFollower(n, n.state.term, leader);
    assert View(h, n1) == View(h, n).(role := Follower, votes := {}, match_ := map[]);
  }

  lemma FollowLeaderOK(u: Setup, h: History, n: Core, m: Message)
    requires Good(u, h, n) && m.term == n.state.term
    ensures Good(u, h, FollowLeader(n, m))
    ensures FollowLeader(n, m).role.Follower? && FollowLeader(n, m).state == n.state
    ensures FollowLeader(n, m).id == n.id && FollowLeader(n, m).applied == n.applied
    ensures FollowLeader(n, m).membership == n.membership
  {
    YieldOK(u, h, n, m.from);
    hide Good;
  }

  lemma BumpOK(u: Setup, h: History, n: Core, term: nat, leader: NodeID) returns (h': History)
    requires SetupOK(u) && HistoryOK(u, h) && Good(u, h, n) && term > n.state.term
    ensures HistoryOK(u, h') && GrowsBy(h, h', n.id)
    ensures Good(u, h', BecomeFollower(n, term, leader))
  {
    hide HistoryOK, NodeOK, Fold, SnapshotOK, GrowsBy;
    h' := Bump(u, h, n.id, View(h, n), term);
    CoreGrowsBy(u, h, h', n, n.id);
    var n1 := BecomeFollower(n, term, leader);
    assert View(h', n1) == Replica(term, NO_NODE, View(h, n).log, n.state.commit, Follower, {}, map[]);
  }

  // ----- voting -----

  lemma UpToDateView(u: Setup, h: History, n: Core, m: Message)
    requires StoredSnapshotOK(u, h, n.state.snapshot)
    requires m.RequestVote? && MessageOK(u, h, m)
    requires CandidateLogIsUpToDate(n, m.lastLogIndex, m.lastLogTerm)
    ensures Ran(h, m.term, m.from, {}) && UpToDate(RunLog(h, m.term, m.from), Full(h, n.state))
  {
    FullLength(u, h, n.state);
    TermAtFull(u, h, n.state, LastIndex(n));
  }

  lemma UnvotedIsFollower(u: Setup, h: History, n: NodeID, r: Replica)
    requires HistoryOK(u, h) && NodeOK(u, h, n, r) && r.vote == NO_NODE
    ensures r.role.Follower?
  {
    NotYetLeader(u, h, n, r);
  }

  lemma BallotTermPositive(u: Setup, h: History, m: Message)
    requires HistoryOK(u, h) && m.RequestVote? && MessageOK(u, h, m)
    ensures 0 < m.term
  {
    assert LedgerOK(h, m.from);
    assert BallotOK(h, m.from, m.term);
  }

  lemma VoteAlreadyCast(u: Setup, h: History, n: Core)
    requires Good(u, h, n) && n.state.votedFor != NO_NODE
    ensures MessageOK(u, h, RequestVoteResponse(n.id, n.state.votedFor, n.state.term, true))
  {
  }

  lemma GrantOK(u: Setup, h: History, n: Core, m: Message) returns (h': History)
    requires SetupOK(u) && HistoryOK(u, h) && Good(u, h, n)
    requires m.RequestVote? && MessageOK(u, h, m) && m.from != n.id && m.from != NO_NODE
    requires GrantsVote(n, m)
    ensures HistoryOK(u, h') && GrowsBy(h, h', n.id)
    ensures Good(u, h', n.(state := n.state.(votedFor := m.from)))
  {
    hide CommitPoint, Fold, Count;
    if n.state.votedFor == m.from {
      h' := h;
    } else {
      UpToDateView(u, h, n, m);
      BallotTermPositive(u, h, m);
      UnvotedIsFollower(u, h, n.id, View(h, n));
      hide HistoryOK, NodeOK, Fold, SnapshotOK, GrowsBy, MessageOK;
      h' := CastBallot(u, h, n.id, View(h, n), m.from);
      CoreGrowsBy(u, h, h', n, n.id);
      assert View(h', n.(state := n.state.(votedFor := m.from))) == View(h, n).(vote := m.from);
    }
  }

  /** A refusal claims nothing. */
  lemma RefusalOK(u: Setup, h: History, n: Core, m: Message)
    requires Good(u, h, n)
    requires m.from == n.id && m.term == n.state.term
    requires (m.RequestVoteResponse? && !m.granted)
          || (m.AppendEntriesResponse? && !m.success)
          || (m.InstallSnapshotResponse? && !m.success)
    ensures EffectsOK(u, h, n.id, [Send(m)]) && Quiet([Send(m)])
  {
  }

  lemma JustifiedOK(u: Setup, h: History, id: NodeID, m: Message)
    requires MessageOK(u, h, m) && m.from == id
    ensures EffectsOK(u, h, id, [Send(m)]) && Quiet([Send(m)])
  {
  }

  /** An outcome that sends at most quiet effects after possibly resetting the election timer. */
  lemma QuietOutcome(u: Setup, h: History, h': History, n: Core, out: Outcome, effects: seq<Effect>)
    requires HistoryOK(u, h') && GrowsBy(h, h', n.id)
    requires out.Done? && out.node.id == n.id && Good(u, h', out.node)
    requires out.node.applied == n.applied && (!out.dirty ==> out.node.state == n.state)
    requires EffectsOK(u, h', n.id, effects) && Quiet(effects)
    requires out.effects == effects || out.effects == [ResetElectionTimer] + effects
    ensures OutcomeOK(u, h, h', n, out)
  {
    QuietDelivers(effects, n.applied);
    TimerFirst(u, h', n.id, effects, n.applied, n.applied);
    hide EffectsOK, Good, HistoryOK, GrowsBy, Delivered;
  }

  lemma HandleRequestVoteOK(u: Setup, h: History, n: Core, m: Message) returns (h': History)
    requires SetupOK(u) && HistoryOK(u, h) && Good(u, h, n)
    requires m.RequestVote? && MessageOK(u, h, m) && m.from != n.id && m.from != NO_NODE
    ensures OutcomeOK(u, h, h', n, HandleRequestVote(n, m))
    ensures HandleRequestVote(n, m).Done?
  {
    hide HistoryOK, Good, SetupOK, GrowsBy, MessageOK, EffectsOK;
    var out := HandleRequestVote(n, m);
    if GrantsVote(n, m) {
      h' := GrantOK(u, h, n, m);
      VoteAlreadyCast(u, h', out.node);
      var response := RequestVoteResponse(n.id, m.from, n.state.term, true);
      JustifiedOK(u, h', n.id, response);
      QuietOutcome(u, h, h', n, out, [Send(response)]);
    } else {
      h' := h;
      NoGrowth(h, n.id);
      var response := RequestVoteResponse(n.id, m.from, n.state.term, false);
      RefusalOK(u, h, n, response);
      QuietOutcome(u, h, h, n, out, [Send(response)]);
    }
  }

  // ----- merging entries -----

  predicate Known(state: PersistentState, prev: nat, entries: seq<Entry>, i: nat)
    requires i < |entries|
  {
    prev + i + 1 <= state.LastIndex() && TermAt(state, prev + i + 1) == entries[i].term
  }

  lemma {:induction false} FirstNewMeaning(state: PersistentState, prev: nat, entries: seq<Entry>, o: nat)
    requires o <= |entries|
    ensures var r := FirstNew(state, prev, entries, o);
      && (forall i | o <= i < r :: Known(state, prev, entries, i))
      && (r < |entries| ==> !Known(state, prev, entries, r))
    decreases |entries| - o
  {
    if o < |entries| && Known(state, prev, entries, o) {
      FirstNewMeaning(state, prev, entries, o + 1);
    }
  }

  /** Where two logs have equal terms they are equal up to there. */
  ghost predicate MatchAt(a: Log, b: Log, x: nat)
    requires 0 < x <= |a| && x <= |b|
  {
    a[x - 1].term == b[x - 1].term ==> a[..x] == b[..x]
  }

  ghost predicate LogsMatch(a: Log, b: Log) {
    forall x {:trigger MatchAt(a, b, x)} | 0 < x <= |a| && x <= |b| :: MatchAt(a, b, x)
  }

  lemma LogsOKMatch(h: History, a: Log, b: Log)
    requires LogOK(h, a) && LogOK(h, b)
    ensures LogsMatch(a, b)
  {
    forall x | 0 < x <= |a| && x <= |b|
      ensures MatchAt(a, b, x)
    {
      if a[x - 1].term == b[x - 1].term {
        LogMatching(h, a, b, x);
      }
    }
  }

  /** `full` is what `state` stores past its snapshot, with something before it. */
  ghost predicate Stores(state: PersistentState, full: Log) {
    && |full| == state.LastIndex()
    && full[state.snapshot.index..] == state.log
    && (state.snapshot.index > 0 ==> state.snapshot.term == full[state.snapshot.index - 1].term)
  }

  lemma StoresFull(u: Setup, h: History, state: PersistentState)
    requires StoredSnapshotOK(u, h, state.snapshot)
    ensures Stores(state, Full(h, state))
    ensures Full(h, state)[..state.snapshot.index] == h.committed[..state.snapshot.index]
    ensures state.snapshot.index <= |h.committed|
  {
    FullLength(u, h, state);
  }

  lemma StoredTerm(state: PersistentState, full: Log, index: nat)
    requires Stores(state, full) && index >= state.snapshot.index
    ensures TermAt(state, index) == TermIn(full, index)
  {
    if state.snapshot.index < index <= state.LastIndex() {
      assert full[index - 1] == full[state.snapshot.index..][index - 1 - state.snapshot.index];
    }
  }

  /** Log matching at the previous index, as an accepted AppendEntries establishes it. */
  lemma PreviousMatches(state: PersistentState, full: Log, log: Log, prev: nat)
    requires Stores(state, full) && LogsMatch(full, log)
    requires forall i | 0 <= i < |log| :: log[i].term > 0
    requires state.snapshot.index <= prev <= |log| && TermAt(state, prev) == TermIn(log, prev)
    ensures prev <= |full| && full[..prev] == log[..prev]
  {
    StoredTerm(state, full, prev);
    if prev > 0 {
      assert log[prev - 1].term > 0;
      assert MatchAt(full, log, prev);
    }
  }

  lemma MatchedUpTo(state: PersistentState, full: Log, log: Log, prev: nat, entries: seq<Entry>, o: nat)
    requires Stores(state, full) && LogsMatch(full, log)
    requires state.snapshot.index <= prev <= |full| && prev <= |log| && full[..prev] == log[..prev]
    requires prev + |entries| <= |log| && entries == log[prev..prev + |entries|]
    requires o <= |entries|
    requires o > 0 ==> Known(state, prev, entries, o - 1)
    ensures prev + o <= |full| && full[..prev + o] == log[..prev + o]
  {
    if o > 0 {
      StoredTerm(state, full, prev + o);
      assert log[prev + o - 1] == entries[o - 1];
      assert MatchAt(full, log, prev + o);
    }
  }

  /** Replacing everything past the first difference gives the leader's entries. */
  lemma Spliced(full: Log, log: Log, q: nat, x: nat, tail: seq<Entry>)
    requires x < q <= |log| && x <= |full| && full[..x] == log[..x]
    requires x < |full| ==> full[x].term != log[x].term
    requires tail == log[x..q]
    ensures full[..x] + tail == Adopted(full, log, q)
  {
    assert log[..q][x] == log[x];
    assert !(log[..q] <= full);
    assert log[..x] + log[x..q] == log[..q];
  }

  /** Merging an AppendEntries is adopting the leader's log up to its last entry. */
  lemma MergeAdopts(state: PersistentState, full: Log, log: Log, prev: nat, entries: seq<Entry>) returns (merged: seq<Entry>)
    requires Stores(state, full) && LogsMatch(full, log)
    requires state.snapshot.index <= prev <= |full| && prev <= |log| && full[..prev] == log[..prev]
    requires prev + |entries| <= |log| && entries == log[prev..prev + |entries|]
    ensures Merge(state, prev, entries) == Some(merged)
    ensures full[..state.snapshot.index] + merged == Adopted(full, log, prev + |entries|)
    ensures FirstNew(state, prev, entries, 0) == |entries| ==> merged == state.log
  {
    hide FirstNew, Adopted, Known, TermAt, LogsMatch;
    var b := state.snapshot.index;
    FirstNewMeaning(state, prev, entries, 0);
    var o := FirstNew(state, prev, entries, 0);
    MatchedUpTo(state, full, log, prev, entries, o);
    assert full[b..] == state.log;
    hide Stores;
    if o < |entries| {
      DiffersAt(state, full, prev, entries, o);
      assert entries[o] == log[prev + o];
      Spliced(full, log, prev + |entries|, prev + o, entries[o..]);
      Respliced(full, state.log, b, prev + o, entries[o..]);
      merged := state.log[..prev + o - b] + entries[o..];
    } else {
      AlreadyThere(full, log, prev + |entries|);
      assert full[..b] + full[b..] == full;
      merged := state.log;
    }
  }

  lemma AlreadyThere(full: Log, log: Log, q: nat)
    requires q <= |full| && q <= |log| && full[..q] == log[..q]
    ensures Adopted(full, log, q) == full
  {
  }

  lemma DiffersAt(state: PersistentState, full: Log, prev: nat, entries: seq<Entry>, o: nat)
    requires Stores(state, full) && state.snapshot.index <= prev
    requires o < |entries| && !Known(state, prev, entries, o)
    ensures prev + o < |full| ==> full[prev + o].term != entries[o].term
  {
    StoredTerm(state, full, prev + o + 1);
  }

  lemma Respliced(full: Log, suffix: Log, b: nat, x: nat, tail: Log)
    requires b <= x <= |full| && full[b..] == suffix
    ensures full[..b] + (suffix[..x - b] + tail) == full[..x] + tail
  {
    assert full[..x] == full[..b] + full[b..][..x - b];
  }

  // ----- AppendEntries -----

  lemma FinalsInAdopted(full: Log, log: Log, prev: nat, entries: seq<Entry>, commit: nat, leaderCommit: nat)
    requires FinalsFollowCommit(full, commit)
    requires prev <= |full| && prev <= |log| && full[..prev] == log[..prev]
    requires prev + |entries| <= |log| && entries == log[prev..prev + |entries|]
    requires forall i | 0 <= i < |entries| :: entries[i].kind.ConfigFinal? ==> prev + i <= leaderCommit
    ensures forall i | 0 <= i < prev + |entries| :: log[i].kind.ConfigFinal? ==> i <= Max(commit, leaderCommit)
  {
    forall i | 0 <= i < prev + |entries| && log[i].kind.ConfigFinal?
      ensures i <= Max(commit, leaderCommit)
    {
      if i < prev {
        assert full[..prev][i] == log[..prev][i];
      } else {
        assert entries[i - prev] == log[i];
      }
    }
  }

  /** An AppendEntries is a stretch of the leader's log. */
  ghost predicate ShipsFrom(m: Message, log: Log)
    requires m.AppendEntries?
  {
    && m.prevIndex + |m.entries| <= |log|
    && m.entries == log[m.prevIndex..m.prevIndex + |m.entries|]
    && m.prevTerm == TermIn(log, m.prevIndex)
    && (forall i | 0 <= i < |m.entries| :: m.entries[i].kind.ConfigFinal? ==> m.prevIndex + i <= m.leaderCommit)
  }

  /** What an AppendEntries with a matching previous entry does to a stored log. */
  lemma MergeMeaning(state: PersistentState, full: Log, log: Log, m: Message) returns (merged: seq<Entry>)
    requires Stores(state, full) && LogsMatch(full, log) && FinalsFollowCommit(full, state.commit)
    requires forall i | 0 <= i < |log| :: log[i].term > 0
    requires m.AppendEntries? && ShipsFrom(m, log)
    requires state.snapshot.index <= m.prevIndex && TermAt(state, m.prevIndex) == m.prevTerm
    ensures forall i | 0 <= i < m.prevIndex + |m.entries| ::
              log[i].kind.ConfigFinal? ==> i <= Max(state.commit, m.leaderCommit)
    ensures Merge(state, m.prevIndex, m.entries) == Some(merged)
    ensures state.snapshot.index <= |full|
    ensures full[..state.snapshot.index] + merged == Adopted(full, log, m.prevIndex + |m.entries|)
    ensures FirstNew(state, m.prevIndex, m.entries, 0) == |m.entries| ==> merged == state.log
  {
    hide LogsMatch, Stores, FirstNew, Merge, Adopted, TermAt, FinalsFollowCommit;
    PreviousMatches(state, full, log, m.prevIndex);
    merged := MergeAdopts(state, full, log, m.prevIndex, m.entries);
    FinalsInAdopted(full, log, m.prevIndex, m.entries, state.commit, m.leaderCommit);
  }

  /** Everything `MergeMeaning` asks of a good node and a justified message. */
  lemma ReadyToMerge(u: Setup, h: History, n: Core, m: Message)
    requires HistoryOK(u, h) && Good(u, h, n)
    requires m.AppendEntries? && AppendOK(u, h, m)
    ensures var full := Full(h, n.state);
      var log := h.reigns[m.term].log;
      && Stores(n.state, full) && LogsMatch(full, log) && FinalsFollowCommit(full, n.state.commit)
      && (forall i | 0 <= i < |log| :: log[i].term > 0)
      && ShipsFrom(m, log)
      && Boundary(n) <= |h.committed| && Boundary(n) <= |full|
      && full[..Boundary(n)] == h.committed[..Boundary(n)]
  {
    var full := Full(h, n.state);
    ReignLogOK(u, h, m.term);
    TermsPositive(u, h, h.reigns[m.term].log);
    LogsOKMatch(h, full, h.reigns[m.term].log);
    StoresFull(u, h, n.state);
  }

  lemma TermsPositive(u: Setup, h: History, log: Log)
    requires HistoryOK(u, h) && LogOK(h, log)
    ensures forall i | 0 <= i < |log| :: log[i].term > 0
  {
    forall i | 0 <= i < |log|
      ensures log[i].term > 0
    {
      ReignIsOK(u, h, log[i].term);
    }
  }

  /** The protocol action behind an accepted AppendEntries. */
  lemma AdoptEntries(u: Setup, h: History, n: Core, m: Message) returns (h': History, merged: seq<Entry>)
    requires SetupOK(u) && HistoryOK(u, h) && Good(u, h, n) && n.role.Follower?
    requires m.AppendEntries? && MessageOK(u, h, m) && m.term == n.state.term && m.from != n.id
    requires Boundary(n) <= m.prevIndex && TermAt(n.state, m.prevIndex) == m.prevTerm
    ensures HistoryOK(u, h') && GrowsBy(h, h', n.id) && CoreOK(u, h', n)
    ensures Acked(h', n.id, m.term, m.prevIndex + |m.entries|)
    ensures m.leaderCommit <= m.prevIndex + |m.entries| <= |Full(h', n.state.(log := merged))|
    ensures Merge(n.state, m.prevIndex, m.entries) == Some(merged)
    ensures NodeOK(u, h', n.id, View(h', n).(log := Full(h', n.state.(log := merged)), commit := Max(n.state.commit, m.leaderCommit)))
    ensures FirstNew(n.state, m.prevIndex, m.entries, 0) == |m.entries| ==> merged == n.state.log
  {
    hide HistoryOK, NodeOK, Good, Fold, SnapshotOK, GrowsBy, Merge, FirstNew, Adopted, Committed, CoreOK, SetupOK, TermAt, Stores,
      LogsMatch, Full, Acked, FinalsFollowCommit;
    GoodParts(u, h, n);
    ReadyToMerge(u, h, n, m);
    merged := MergeMeaning(n.state, Full(h, n.state), h.reigns[m.term].log, m);
    FullSpliced(h, n.state, merged);
    AdoptedLength(Full(h, n.state), h.reigns[m.term].log, m.prevIndex + |m.entries|);
    h' := Adopt(u, h, n.id, View(h, n), m.prevIndex + |m.entries|, m.leaderCommit);
    CoreGrowsBy(u, h, h', n, n.id);
    FullSame(h, h', n.state);
    FullSame(h, h', n.state.(log := merged));
  }

  lemma FullSpliced(h: History, state: PersistentState, log: seq<Entry>)
    requires state.snapshot.index <= |h.committed|
    requires state.snapshot.index <= |Full(h, state)|
    requires Full(h, state)[..state.snapshot.index] == h.committed[..state.snapshot.index]
    ensures Full(h, state.(log := log)) == Full(h, state)[..state.snapshot.index] + log
  {
  }

  lemma FullSame(a: History, b: History, state: PersistentState)
    requires a.committed == b.committed
    ensures Full(a, state) == Full(b, state)
  {
  }

  /** With the action done, what the code computes is good. */
  lemma AcceptEntriesOK(u: Setup, h: History, h': History, n: Core, m: Message, log: seq<Entry>)
    requires SetupOK(u) && HistoryOK(u, h') && GrowsBy(h, h', n.id) && CoreOK(u, h', n) && n.role.Follower?
    requires m.AppendEntries? && m.term == n.state.term
    requires var q := m.prevIndex + |m.entries|;
      && Acked(h', n.id, m.term, q)
      && m.leaderCommit <= q <= |Full(h', n.state.(log := log))|
      && NodeOK(u, h', n.id, View(h', n).(log := Full(h', n.state.(log := log)), commit := Max(n.state.commit, m.leaderCommit)))
    requires FirstNew(n.state, m.prevIndex, m.entries, 0) == |m.entries| ==> log == n.state.log
    ensures OutcomeOK(u, h, h', n, AcceptEntries(u, n, m, log))
    ensures AcceptEntries(u, n, m, log).Done?
  {
    hide CommitPoint, Fold, Count, ConfigsLegal;
    var state1 := n.state.(log := log);
    FullLength(u, h', state1);
    var r := View(h', n).(log := Full(h', state1), commit := Max(n.state.commit, m.leaderCommit));
    assert LogOK(h', r.log) && r.log[..r.commit] <= h'.committed;
    LogChained(u, h', r.log);
    SuffixChain(u, h', state1);
    LastMembership(u, h', state1);
    LegalConfigs(u, BaseMembership(u, state1), log);
    hide HistoryOK, NodeOK, Fold, SnapshotOK, GrowsBy, FirstNew, LogOK, ChainOK, BaseMembership, Full;
    var commit := Max(n.state.commit, m.leaderCommit);
    var n1 := n.(state := state1.(commit := commit), membership := MembershipAt(u, state1, state1.LastIndex()));
    FullIgnoresCommit(h', state1, commit);
    assert CoreOK(u, h', n1.(applied := commit));
    assert View(h', n1.(applied := commit)) == r;
    ApplyOK(u, h', n1);
    AcceptedEffects(u, h', n1, m);
    AcceptedOutcome(u, h, h', n, n1, m, log);
  }

  lemma LegalConfigs(u: Setup, m: Membership, entries: seq<Entry>)
    requires ChainOK(u, m, entries)
    ensures ConfigsLegal(u, m, entries)
  {
    forall i | 0 <= i < |entries| && entries[i].IsConfig()
      ensures LegalAt(u, m, entries, i)
    {
    }
  }

  lemma FullIgnoresCommit(h: History, state: PersistentState, commit: nat)
    ensures Full(h, state.(commit := commit)) == Full(h, state)
  {
  }

  lemma AcceptedEffects(u: Setup, h: History, n1: Core, m: Message)
    requires m.AppendEntries? && Acked(h, n1.id, m.term, m.prevIndex + |m.entries|)
    requires n1.id in h.ledgers && h.ledgers[n1.id].term >= m.term == n1.state.term
    requires Applicable(n1) && n1.applied <= n1.state.commit
    requires EffectsOK(u, h, n1.id, Unapplied(n1)) && Delivered(Unapplied(n1), n1.applied) == Some(n1.state.commit)
    ensures var response := AppendResponse(n1, m.from, m.sequence, true, m.prevIndex + |m.entries|, 0);
      && EffectsOK(u, h, n1.id, [ResetElectionTimer] + Unapplied(n1) + [response])
      && Delivered([ResetElectionTimer] + Unapplied(n1) + [response], n1.applied) == Some(n1.state.commit)
      && EffectsOK(u, h, n1.id, [ResetElectionTimer, response])
      && Delivered([ResetElectionTimer, response], n1.applied) == Some(n1.applied)
  {
    var message := AppendEntriesResponse(n1.id, m.from, n1.state.term, m.sequence, true, m.prevIndex + |m.entries|, 0);
    assert MessageOK(u, h, message);
    JustifiedOK(u, h, n1.id, message);
    hide EffectsOK, MessageOK, Unapplied;
    TimerOK(u, h, n1.id, ResetElectionTimer);
    EffectsCompose(u, h, n1.id, [ResetElectionTimer], Unapplied(n1), [Send(message)], n1.applied, n1.state.commit);
    QuietDelivers([Send(message)], n1.applied);
    TimerFirst(u, h, n1.id, [Send(message)], n1.applied, n1.applied);
    assert [ResetElectionTimer] + [Send(message)] == [ResetElectionTimer, Send(message)];
  }

  lemma AcceptedOutcome(u: Setup, h: History, h': History, n: Core, n1: Core, m: Message, log: seq<Entry>)
    requires HistoryOK(u, h') && GrowsBy(h, h', n.id) && n.applied == n.state.commit && Boundary(n) <= n.applied
    requires m.AppendEntries?
    requires var state1 := n.state.(log := log);
      n1 == n.(state := state1.(commit := Max(n.state.commit, m.leaderCommit)),
               membership := MembershipAt(u, state1, state1.LastIndex()))
    requires n1.state.commit <= LastIndex(n1)
    requires FirstNew(n.state, m.prevIndex, m.entries, 0) == |m.entries| ==> log == n.state.log && n1.membership == n.membership
    requires ConfigsLegal(u, BaseMembership(u, n1.state), log)
    requires Good(u, h', n1.(applied := n1.state.commit))
    requires var response := AppendResponse(n1, m.from, m.sequence, true, m.prevIndex + |m.entries|, 0);
      && EffectsOK(u, h', n1.id, [ResetElectionTimer] + Unapplied(n1) + [response])
      && Delivered([ResetElectionTimer] + Unapplied(n1) + [response], n1.applied) == Some(n1.state.commit)
      && EffectsOK(u, h', n1.id, [ResetElectionTimer, response])
      && Delivered([ResetElectionTimer, response], n1.applied) == Some(n1.applied)
    ensures OutcomeOK(u, h, h', n, AcceptEntries(u, n, m, log))
    ensures AcceptEntries(u, n, m, log).Done?
  {
    hide HistoryOK, GrowsBy, Good, EffectsOK, Delivered, Unapplied, ConfigsLegal, MembershipAt, FirstNew;
  }

  lemma RejectedOK(u: Setup, h: History, n0: Core, n: Core, m: Message, hint: nat)
    requires HistoryOK(u, h) && Good(u, h, n) && n.id == n0.id && n.applied == n0.applied && n.state == n0.state
    requires m.AppendEntries?
    ensures OutcomeOK(u, h, h, n0, Rejected(n, m, hint))
  {
    NoGrowth(h, n.id);
    var response := AppendEntriesResponse(n.id, m.from, n.state.term, m.sequence, false, 0, hint);
    RefusalOK(u, h, n, response);
    hide HistoryOK, GrowsBy, Good, EffectsOK;
    QuietOutcome(u, h, h, n0, Rejected(n, m, hint), [Send(response)]);
  }

  lemma HandleAppendEntriesOK(u: Setup, h: History, n0: Core, m: Message) returns (h': History)
    requires SetupOK(u) && HistoryOK(u, h) && Good(u, h, n0)
    requires m.AppendEntries? && MessageOK(u, h, m) && m.from != n0.id && m.term <= n0.state.term
    ensures OutcomeOK(u, h, h', n0, HandleAppendEntries(u, n0, m))
    ensures HandleAppendEntries(u, n0, m).Done?
  {
    assert Boundary(n0) <= n0.applied;
    hide HistoryOK, Good, SetupOK, GrowsBy, MessageOK, EffectsOK, AcceptEntries, ValidIncoming, MembershipAt, FirstNew, Merge;
    var out := HandleAppendEntries(u, n0, m);
    if m.term < n0.state.term {
      h' := h;
      NoGrowth(h, n0.id);
      var response := AppendEntriesResponse(n0.id, m.from, n0.state.term, m.sequence, false, 0, NextIndexAfter(LastIndex(n0)));
      RefusalOK(u, h, n0, response);
      QuietOutcome(u, h, h, n0, out, [Send(response)]);
    } else {
      FollowLeaderOK(u, h, n0, m);
      h' := FromLeaderOK(u, h, n0, FollowLeader(n0, m), m);
    }
  }

  /** Accepting an AppendEntries whose previous entry matches. */
  lemma AcceptOK(u: Setup, h: History, n: Core, m: Message) returns (h': History)
    requires SetupOK(u) && HistoryOK(u, h) && Good(u, h, n) && n.role.Follower?
    requires m.AppendEntries? && MessageOK(u, h, m) && m.term == n.state.term && m.from != n.id
    requires Boundary(n) <= m.prevIndex && TermAt(n.state, m.prevIndex) == m.prevTerm
    ensures Boundary(n) <= n.applied && Merge(n.state, m.prevIndex, m.entries).Some?
    ensures var out := AcceptEntries(u, n, m, Merge(n.state, m.prevIndex, m.entries).value);
      OutcomeOK(u, h, h', n, out) && out.Done?
  {
    assert Boundary(n) <= n.applied;
    hide HistoryOK, Good, SetupOK, GrowsBy, MessageOK, AcceptEntries, FirstNew, Merge, CoreOK, NodeOK, Acked, OutcomeOK, Full, Adopted;
    var merged;
    h', merged := AdoptEntries(u, h, n, m);
    AcceptEntriesOK(u, h, h', n, m, merged);
  }

  /** The part of HandleAppendEntries after the leader is recognized. */
  lemma FromLeaderOK(u: Setup, h: History, n0: Core, n: Core, m: Message) returns (h': History)
    requires SetupOK(u) && HistoryOK(u, h) && Good(u, h, n) && n.role.Follower?
    requires n == FollowLeader(n0, m) && n.id == n0.id && n.applied == n0.applied && n.state == n0.state
    requires m.AppendEntries? && MessageOK(u, h, m) && m.from != n0.id && m.term == n0.state.term
    requires Boundary(n0) <= n0.applied
    ensures OutcomeOK(u, h, h', n0, HandleAppendEntries(u, n0, m))
    ensures HandleAppendEntries(u, n0, m).Done?
  {
    hide HistoryOK, Good, SetupOK, MessageOK, AcceptEntries, MembershipAt, Merge, FollowLeader, OutcomeOK, TermAt, FirstInvalid, RejectHint;
    if m.prevIndex < Boundary(n) || TermAt(n.state, m.prevIndex) != m.prevTerm {
      h' := h;
      RejectedOK(u, h, n0, n, m, RejectHint(n, m));
    } else if m.prevIndex + |m.entries| > MAX_UINT64 {
      h' := h;
      RejectedOK(u, h, n0, n, m, NextIndexAfter(LastIndex(n)));
    } else if FirstInvalid(u, m, MembershipAt(u, n.state, m.prevIndex), 0) < |m.entries| {
      h' := h;
      RejectedOK(u, h, n0, n, m, m.prevIndex + FirstInvalid(u, m, MembershipAt(u, n.state, m.prevIndex), 0) + 1);
    } else {
      h' := AcceptOK(u, h, n, m);
      SameStart(u, h, h', n0, n, AcceptEntries(u, n, m, Merge(n.state, m.prevIndex, m.entries).value));
    }
  }

  /** An outcome is judged against the durable state, applied index and identity it started from. */
  lemma SameStart(u: Setup, h: History, h': History, n0: Core, n: Core, out: Outcome)
    requires n.id == n0.id && n.applied == n0.applied && n.state == n0.state
    requires OutcomeOK(u, h, h', n, out)
    ensures OutcomeOK(u, h, h', n0, out)
  {
    hide HistoryOK, Good, GrowsBy, EffectsOK;
  }

  lemma AdoptedLength(log: Log, leaderLog: Log, q: nat)
    requires q <= |leaderLog|
    ensures q <= |Adopted(log, leaderLog, q)|
  {
  }
}

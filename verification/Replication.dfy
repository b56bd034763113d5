/**
 * What replication does, exactly: what a leader sends, what a follower takes or refuses, and what
 * an answer counts for at the leader.
 */
module Replication {
  import opened RaftTypes
  import opened Configuration
  import opened RaftHistory
  import opened LeaderCompleteness
  import opened RaftActions
  import opened NodeSpec
  import opened NodeRefinement
  import opened LeaderProofs
  import opened FollowerProofs
  import opened NodeProofs
  import opened Answers

  // ----- what a leader sends -----

  /** A message with all that comes after the member's next index, or with the snapshot if that is gone. */
  ghost predicate Ships(h: History, n: Core, member: NodeID, m: Message) {
    var log := Full(h, n.state);
    var prev := if Get(n.matchIndex, member) == MAX_UINT64 then MAX_UINT64 else Get(n.nextIndex, member) - 1;
    var sequence := Get(n.appendSequence, member) + 1;
    if prev < Boundary(n) then m == InstallSnapshot(n.id, member, n.state.term, sequence, n.state.snapshot)
    else
      prev <= |log|
      && m == AppendEntries(n.id, member, n.state.term, sequence, prev, TermIn(log, prev), log[prev..], n.state.commit)
  }

  lemma IndexesOf(u: Setup, h: History, n: Core, member: NodeID)
    requires Good(u, h, n) && n.role.Leader?
    ensures Get(n.nextIndex, member) <= LastIndex(n) + 1 && Get(n.matchIndex, member) <= LastIndex(n)
    ensures member in u.members ==> Get(n.nextIndex, member) > 0
  {
    hide NodeOK, StoredSnapshotOK, Fold, Full;
  }

  /** Shipping depends on the log, the commit index, and the member's own record and numbers. */
  lemma ShipsWhere(u: Setup, h: History, n: Core, member: NodeID)
    requires StoredSnapshotOK(u, h, n.state.snapshot) && LastIndex(n) <= MAX_UINT64
    requires 0 < Get(n.nextIndex, member) <= LastIndex(n) + 1 && Get(n.matchIndex, member) <= LastIndex(n)
    ensures Ships(h, n, member, AppendFor(n, member))
  {
    hide Full, TermIn, TermAt, EntriesFrom, StoredSnapshotOK;
    FullLength(u, h, n.state);
    var m := AppendFor(n, member);
    if m.AppendEntries? {
      TermAtFull(u, h, n.state, m.prevIndex);
      if m.prevIndex < LastIndex(n) {
        EntriesFromFull(u, h, n.state, m.prevIndex + 1);
      }
    }
  }

  lemma ShipsExactly(u: Setup, h: History, n: Core, member: NodeID)
    requires HistoryOK(u, h) && Good(u, h, n) && n.role.Leader? && member in u.members
    ensures Ships(h, n, member, AppendFor(n, member))
  {
    hide Good, HistoryOK, Full, StoredSnapshotOK, AppendFor, Ships;
    IndexesOf(u, h, n, member);
    LogFits(u, h, n);
    StoredOK(u, h, n);
    ShipsWhere(u, h, n, member);
  }

  function Others(members: seq<NodeID>, id: NodeID): seq<NodeID> {
    if members == [] then []
    else Others(members[..|members| - 1], id) + if members[|members| - 1] == id then [] else [members[|members| - 1]]
  }

  /** One message for each of these nodes, in order, that ships what the node lacks. */
  ghost predicate ShipsToAll(h: History, n: Core, nodes: seq<NodeID>, messages: seq<Message>) {
    |messages| == |nodes| && forall i {:trigger messages[i]} | 0 <= i < |nodes| :: Ships(h, n, nodes[i], messages[i])
  }

  lemma ShipsToOneMore(h: History, n: Core, nodes: seq<NodeID>, messages: seq<Message>, node: NodeID, m: Message)
    requires ShipsToAll(h, n, nodes, messages) && Ships(h, n, node, m)
    ensures ShipsToAll(h, n, nodes + [node], messages + [m])
  {
    hide Ships;
  }

  /** Every other member's messages are numbered on by one. */
  lemma {:induction false} BroadcastNumbers(n: Core, members: seq<NodeID>)
    requires NoRepeats(members)
    ensures forall x :: Get(BroadcastAppend(n, members).0.appendSequence, x) ==
                        Get(n.appendSequence, x) + if x in members && x != n.id then 1 else 0
  {
    hide AppendFor;
    if members != [] {
      var front, member := members[..|members| - 1], members[|members| - 1];
      assert members == front + [member];
      BroadcastNumbers(n, front);
      BroadcastKeeps(n, front);
    }
  }

  lemma {:induction false} BroadcastShips(u: Setup, h: History, n: Core, members: seq<NodeID>)
    requires HistoryOK(u, h) && Good(u, h, n) && n.role.Leader?
    requires NoRepeats(members) && forall x | x in members :: x in u.members
    ensures ShipsToAll(h, n, Others(members, n.id), Messages(BroadcastAppend(n, members).1))
    ensures Good(u, h, BroadcastAppend(n, members).0)
  {
    hide HistoryOK, Good, Ships, AppendFor, ShipsToAll;
    if members == [] {
      NothingShipped(h, n);
    } else {
      var front, member := members[..|members| - 1], members[|members| - 1];
      assert members == front + [member];
      BroadcastShips(u, h, n, front);
      var (n1, effects) := BroadcastAppend(n, front);
      if member == n.id {
        assert Others(front, n.id) + [] == Others(front, n.id);
      } else {
        BroadcastKeeps(n, front);
        BroadcastNumbers(n, front);
        ShipsExactly(u, h, n1, member);
        SameShipment(h, n, n1, member, AppendFor(n1, member));
        ShipsToOneMore(h, n, Others(front, n.id), Messages(effects), member, AppendFor(n1, member));
        MessageAlone(Send(AppendFor(n1, member)));
        MessagesConcat(effects, [Send(AppendFor(n1, member))]);
        SequencedGood(u, h, n1, Sequenced(n1, member).appendSequence);
      }
    }
  }

  lemma NothingShipped(h: History, n: Core)
    ensures ShipsToAll(h, n, [], [])
  {
  }

  /** Numbers given to other members do not matter. */
  lemma SameShipment(h: History, n: Core, n1: Core, member: NodeID, m: Message)
    requires n1 == n.(appendSequence := n1.appendSequence) && Get(n1.appendSequence, member) == Get(n.appendSequence, member)
    requires Ships(h, n1, member, m)
    ensures Ships(h, n, member, m)
  {
  }

  /** A BROADCAST goes to every other member once, and ships to each what it lacks. */
  lemma BroadcastsExactly(u: Setup, h: History, n: Core)
    requires HistoryOK(u, h) && Good(u, h, n) && n.role.Leader? && NoRepeats(u.members)
    ensures Boundary(n) <= n.applied
    ensures var out := React(u, n, HeartbeatTimeout);
      && out.Done? && !out.dirty && out.node.state == n.state && ResetHeartbeatTimer in out.effects
      && ShipsToAll(h, n, Others(u.members, n.id), Messages(out.effects))
      && forall x | x in u.members && x != n.id :: Get(out.node.appendSequence, x) == Get(n.appendSequence, x) + 1
  {
    hide HistoryOK, Good, CoreOK, NodeOK, ShipsToAll, Full;
    GoodParts(u, h, n);
    BroadcastShips(u, h, n, u.members);
    BroadcastKeeps(n, u.members);
    BroadcastNumbers(n, u.members);
    var sends := BroadcastAppend(n, u.members).1;
    MessageAlone(ResetHeartbeatTimer);
    MessagesConcat([ResetHeartbeatTimer], sends);
    assert [] + Messages(sends) == Messages(sends);
  }

  // ----- what a follower takes -----

  /** The entries of a justified message are a legal continuation of any log that agrees with the leader's before them. */
  lemma EntriesContinue(u: Setup, h: History, full: Log, m: Message)
    requires HistoryOK(u, h) && m.AppendEntries? && AppendOK(u, h, m)
    requires m.prevIndex <= |full| && full[..m.prevIndex] == h.reigns[m.term].log[..m.prevIndex]
    ensures ChainOK(u, Config(u, full[..m.prevIndex]), m.entries)
    ensures |m.entries| > 0 ==> m.prevIndex + |m.entries| <= MAX_UINT64
    ensures m.prevIndex + |m.entries| <= MAX_UINT64
  {
    hide CommitPoint, Committed, LegalAt, ConfigsSpaced, Elected;
    ReignIsOK(u, h, m.term);
    var log := h.reigns[m.term].log;
    var q := m.prevIndex + |m.entries|;
    ChainPrefix(u, u.initial, log, q);
    assert log[..q] == log[..m.prevIndex] + m.entries;
    ChainConcat(u, u.initial, log[..m.prevIndex], m.entries);
  }

  lemma EntryInOrder(u: Setup, h: History, m: Message, o: nat)
    requires HistoryOK(u, h) && MessageOK(u, h, m) && m.AppendEntries? && o < |m.entries|
    ensures m.entries[o].index == m.prevIndex + o + 1 && 0 < m.entries[o].term <= m.term
    ensures m.entries[o].term >= if o == 0 then m.prevTerm else m.entries[o - 1].term
  {
    hide HistoryOK, LogOK, Committed;
    var log := h.reigns[m.term].log;
    ShipsStretch(u, h, m);
    var x := m.prevIndex + o;
    if x > 0 {
      TermsMonotone(u, h, log, x - 1, x);
    }
  }

  lemma ShipsStretch(u: Setup, h: History, m: Message)
    requires HistoryOK(u, h) && MessageOK(u, h, m) && m.AppendEntries?
    ensures m.term in h.reigns && h.reigns[m.term].leader == m.from && AppendOK(u, h, m)
    ensures var log := h.reigns[m.term].log;
      && LogOK(h, log) && m.prevIndex + |m.entries| <= |log| && m.prevTerm == TermIn(log, m.prevIndex)
      && forall x | 0 <= x < |m.entries| ::
           m.entries[x] == log[m.prevIndex + x] && m.entries[x].index == m.prevIndex + x + 1 && 0 < m.entries[x].term <= m.term
  {
    ReignLogOK(u, h, m.term);
    TermsPositive(u, h, h.reigns[m.term].log);
    hide HistoryOK, Committed;
    forall x | 0 <= x < |m.entries|
      ensures m.entries[x] == h.reigns[m.term].log[m.prevIndex + x] && m.entries[x].index == m.prevIndex + x + 1
    {
      IndexAt(h, h.reigns[m.term].log, m.prevIndex + x);
    }
  }

  lemma {:induction false} AllValid(u: Setup, m: Message, base: Membership, o: nat)
    requires m.AppendEntries? && o <= |m.entries|
    requires forall i | 0 <= i < |m.entries| :: ValidIncoming(u, m, base, i)
    ensures FirstInvalid(u, m, base, o) == |m.entries|
    decreases |m.entries| - o
  {
    hide ValidIncoming;
    if o < |m.entries| {
      AllValid(u, m, base, o + 1);
    }
  }

  /** A justified message is never found malformed where it fits. */
  lemma WellFormed(u: Setup, h: History, n: Core, m: Message)
    requires SetupOK(u) && HistoryOK(u, h) && Good(u, h, n) && m.AppendEntries? && MessageOK(u, h, m)
    requires Boundary(n) <= m.prevIndex <= |Full(h, n.state)| && m.term in h.reigns && m.prevIndex <= |h.reigns[m.term].log|
    requires Full(h, n.state)[..m.prevIndex] == h.reigns[m.term].log[..m.prevIndex]
    ensures FirstInvalid(u, m, MembershipAt(u, n.state, m.prevIndex), 0) == |m.entries|
    ensures m.prevIndex + |m.entries| <= MAX_UINT64
  {
    hide SetupOK, HistoryOK, Good, LogOK, MembershipAt, Full, Fold, StoredSnapshotOK, TransitionMembership, MessageOK;
    StoredOK(u, h, n);
    FullLength(u, h, n.state);
    ShipsStretch(u, h, m);
    var full := Full(h, n.state);
    EntriesContinue(u, h, full, m);
    MembershipAtFull(u, h, n.state, m.prevIndex);
    var base := MembershipAt(u, n.state, m.prevIndex);
    forall o | 0 <= o < |m.entries|
      ensures ValidIncoming(u, m, base, o)
    {
      EntryInOrder(u, h, m, o);
      assert LegalAt(u, base, m.entries, o);
    }
    AllValid(u, m, base, 0);
  }

  /** The log is in place: what is stored, and what is said. */
  lemma AcceptShape(u: Setup, n: Core, m: Message, log: seq<Entry>)
    requires m.AppendEntries? && Boundary(n) <= n.applied
    requires AcceptEntries(u, n, m, log).Done?
    requires m.leaderCommit <= Boundary(n) + |log|
    requires FirstNew(n.state, m.prevIndex, m.entries, 0) == |m.entries| ==> log == n.state.log
    ensures var out := AcceptEntries(u, n, m, log);
      && out.node.id == n.id && out.node.role == n.role && out.node.leader == n.leader
      && out.node.state == n.state.(log := log, commit := Max(n.state.commit, m.leaderCommit))
      && Messages(out.effects) ==
           [AppendEntriesResponse(n.id, m.from, n.state.term, m.sequence, true, m.prevIndex + |m.entries|, 0)]
      && ResetElectionTimer in out.effects
  {
    hide ConfigsLegal, MembershipAt, BaseMembership, FirstNew, Messages;
    var response := AppendEntriesResponse(n.id, m.from, n.state.term, m.sequence, true, m.prevIndex + |m.entries|, 0);
    var out := AcceptEntries(u, n, m, log);
    MessageAlone(ResetElectionTimer);
    MessageAlone(Send(response));
    var middle := out.effects[1..|out.effects| - 1];
    assert out.effects == [ResetElectionTimer] + middle + [Send(response)];
    NoMessages(middle);
    MessagesConcat([ResetElectionTimer], middle);
    MessagesConcat([ResetElectionTimer] + middle, [Send(response)]);
  }

  /** Where two logs agree, so do their terms there. */
  lemma AgreeingTerms(full: Log, log: Log, prev: nat)
    requires prev <= |full| && prev <= |log| && full[..prev] == log[..prev]
    ensures TermIn(full, prev) == TermIn(log, prev)
  {
    if prev > 0 {
      assert full[prev - 1] == full[..prev][prev - 1];
    }
  }

  /** The code's test of the previous entry is agreement with the leader's log up to there. */
  lemma FitsExactly(u: Setup, h: History, n: Core, m: Message)
    requires HistoryOK(u, h) && Good(u, h, n) && m.AppendEntries? && MessageOK(u, h, m) && Boundary(n) <= m.prevIndex
    ensures m.term in h.reigns && m.prevIndex <= |h.reigns[m.term].log|
    ensures TermAt(n.state, m.prevIndex) == m.prevTerm <==>
            m.prevIndex <= |Full(h, n.state)| && Full(h, n.state)[..m.prevIndex] == h.reigns[m.term].log[..m.prevIndex]
  {
    hide HistoryOK, Good, LogOK, MessageOK, Full, TermAt, TermIn, Stores, LogsMatch, FinalsFollowCommit, StoredSnapshotOK;
    ShipsStretch(u, h, m);
    ReadyToMerge(u, h, n, m);
    var full, log := Full(h, n.state), h.reigns[m.term].log;
    StoredOK(u, h, n);
    TermAtFull(u, h, n.state, m.prevIndex);
    if TermAt(n.state, m.prevIndex) == m.prevTerm {
      PreviousMatches(n.state, full, log, m.prevIndex);
    }
    if m.prevIndex <= |full| && full[..m.prevIndex] == log[..m.prevIndex] {
      AgreeingTerms(full, log, m.prevIndex);
    }
  }

  /** An AppendEntries that fits. */
  lemma TakesEntries(u: Setup, h: History, n: Core, m: Message)
    requires SetupOK(u) && HistoryOK(u, h) && Good(u, h, n) && n.role.Follower?
    requires m.AppendEntries? && MessageOK(u, h, m) && m.term == n.state.term && m.from != n.id
    requires Boundary(n) <= m.prevIndex && TermAt(n.state, m.prevIndex) == m.prevTerm
    ensures m.term in h.reigns && m.prevIndex + |m.entries| <= |h.reigns[m.term].log|
    ensures Boundary(n) <= n.applied && Merge(n.state, m.prevIndex, m.entries).Some?
    ensures var full, q := Full(h, n.state), m.prevIndex + |m.entries|;
      var out := AcceptEntries(u, n, m, Merge(n.state, m.prevIndex, m.entries).value);
      && out.Done? && out.node.id == n.id && out.node.role == n.role && out.node.leader == n.leader
      && out.node.state.snapshot == n.state.snapshot && out.node.state.term == n.state.term
      && out.node.state.votedFor == n.state.votedFor
      && Full(h, out.node.state) == Adopted(full, h.reigns[m.term].log, q)
      && out.node.state.commit == Max(n.state.commit, m.leaderCommit)
      && Messages(out.effects) == [AppendEntriesResponse(n.id, m.from, m.term, m.sequence, true, q, 0)]
      && ResetElectionTimer in out.effects
  {
    hide HistoryOK, Good, SetupOK, LogOK, MessageOK, Full, TermAt, TermIn, Stores, LogsMatch, FinalsFollowCommit, Adopted, OutcomeOK,
      AcceptEntries, FirstNew, Merge, Committed;
    ShipsStretch(u, h, m);
    ReadyToMerge(u, h, n, m);
    var full, log, q := Full(h, n.state), h.reigns[m.term].log, m.prevIndex + |m.entries|;
    var merged := MergeMeaning(n.state, full, log, m);
    var h' := AcceptOK(u, h, n, m);
    AdoptedLength(full, log, q);
    AcceptShape(u, n, m, merged);
    FullSpliced(h, n.state, merged);
    FullIgnoresCommit(h, n.state.(log := merged), Max(n.state.commit, m.leaderCommit));
  }

  /** A leader's message in the node's own term. */
  lemma AppendsInTerm(u: Setup, h: History, n: Core, m: Message)
    requires SetupOK(u) && HistoryOK(u, h) && Good(u, h, n)
    requires m.AppendEntries? && MessageOK(u, h, m) && m.term == n.state.term && m.from != n.id
    ensures m.term in h.reigns && m.prevIndex + |m.entries| <= |h.reigns[m.term].log| && Boundary(n) <= n.applied
    ensures var full, log, q := Full(h, n.state), h.reigns[m.term].log, m.prevIndex + |m.entries|;
      var out := HandleAppendEntries(u, n, m);
      && out.Done? && out.node.id == n.id && out.node.role.Follower? && out.node.leader == m.from && ResetElectionTimer in out.effects
      && if Boundary(n) <= m.prevIndex <= |full| && full[..m.prevIndex] == log[..m.prevIndex] then
           && out.node.state.snapshot == n.state.snapshot && out.node.state.term == n.state.term
           && out.node.state.votedFor == n.state.votedFor
           && Full(h, out.node.state) == Adopted(full, log, q)
           && out.node.state.commit == Max(n.state.commit, m.leaderCommit)
           && Messages(out.effects) == [AppendEntriesResponse(n.id, m.from, m.term, m.sequence, true, q, 0)]
         else
           && out.node.state == n.state
           && Messages(out.effects) == [AppendEntriesResponse(n.id, m.from, m.term, m.sequence, false, 0, RejectHint(n, m))]
  {
    hide HistoryOK, Good, SetupOK, MessageOK, Full, TermAt, Adopted, AcceptEntries, Merge, MembershipAt, FirstInvalid, RejectHint;
    GoodParts(u, h, n);
    FollowLeaderOK(u, h, n, m);
    ShipsStretch(u, h, m);
    var n1 := FollowLeader(n, m);
    assert n1.leader == m.from;
    SameHint(n, n1, m);
    if Boundary(n) <= m.prevIndex {
      FitsExactly(u, h, n1, m);
      if TermAt(n1.state, m.prevIndex) == m.prevTerm {
        WellFormed(u, h, n1, m);
        TakesEntries(u, h, n1, m);
      }
    }
    var response := AppendEntriesResponse(n.id, m.from, m.term, m.sequence, false, 0, RejectHint(n, m));
    TwoEffects(ResetElectionTimer, response);
  }

  lemma SameHint(n: Core, n1: Core, m: Message)
    requires n.state.snapshot == n1.state.snapshot && n.state.log == n1.state.log && m.AppendEntries?
    ensures RejectHint(n, m) == RejectHint(n1, m)
  {
  }

  lemma TwoEffects(timer: Effect, m: Message)
    requires !timer.Send?
    ensures Messages([timer, Send(m)]) == [m]
  {
    MessageAlone(timer);
    MessageAlone(Send(m));
    MessagesConcat([timer], [Send(m)]);
    assert [timer] + [Send(m)] == [timer, Send(m)];
  }

  /** Where a refused leader is told to go on: past the follower's boundary, or no further than its log reaches. */
  lemma HintIs(u: Setup, h: History, n: Core, m: Message)
    requires HistoryOK(u, h) && Good(u, h, n) && m.AppendEntries? && MessageOK(u, h, m)
    requires m.prevIndex > 0 || Boundary(n) > 0
    ensures RejectHint(n, m) ==
            if m.prevIndex < Boundary(n) then NextIndexAfter(Boundary(n)) else Min(m.prevIndex, |Full(h, n.state)| + 1)
  {
    hide HistoryOK, Good, LogOK, MessageOK, Full, StoredSnapshotOK;
    StoredOK(u, h, n);
    FullLength(u, h, n.state);
    ShipsStretch(u, h, m);
    ReignFits(u, h, m.term);
  }

  lemma ReignFits(u: Setup, h: History, t: nat)
    requires HistoryOK(u, h) && t in h.reigns
    ensures |h.reigns[t].log| <= MAX_UINT64
  {
    ReignIsOK(u, h, t);
  }

  lemma SameFull(a: History, b: History, s: PersistentState, t: PersistentState)
    requires a.committed <= b.committed && s.snapshot.index <= |a.committed|
    requires t.snapshot.index == s.snapshot.index && t.log == s.log
    ensures Full(a, s) == Full(b, t)
  {
    assert a.committed[..s.snapshot.index] == b.committed[..s.snapshot.index];
  }

  /** A node that follows a later term, and the history of that. */
  lemma FollowsTerm(u: Setup, h: History, n: Core, m: Message) returns (h1: History, n1: Core)
    requires SetupOK(u) && HistoryOK(u, h) && Good(u, h, n)
    requires MessageOK(u, h, m) && Routed(u, n, m) && m.term >= n.state.term
    ensures n1 == if m.term > n.state.term then BecomeFollower(n, m.term, NO_NODE) else n
    ensures HistoryOK(u, h1) && GrowsBy(h, h1, n.id) && Good(u, h1, n1) && MessageOK(u, h1, m)
    ensures Full(h1, n1.state) == Full(h, n.state) && n.state.snapshot.index <= |h.committed| && h.committed <= h1.committed
  {
    hide HistoryOK, Good, SetupOK, MessageOK, GrowsBy, Full, StoredSnapshotOK;
    StoredOK(u, h, n);
    FullLength(u, h, n.state);
    if m.term > n.state.term {
      h1 := BumpOK(u, h, n, m.term, NO_NODE);
      n1 := BecomeFollower(n, m.term, NO_NODE);
      MessageKept(u, h, h1, n.id, m);
      CommittedKept(h, h1, n.id);
      SameFull(h, h1, n.state, n1.state);
    } else {
      h1, n1 := h, n;
      NoGrowth(h, n.id);
    }
  }

  lemma CommittedKept(a: History, b: History, n: NodeID)
    requires GrowsBy(a, b, n)
    ensures a.committed <= b.committed
    ensures forall t | t in a.reigns && a.reigns[t].leader != n :: t in b.reigns && b.reigns[t] == a.reigns[t]
  {
  }

  /**
   * A FOLLOWER TAKES a leader's message of its term or a later one exactly when its log agrees with
   * the leader's up to the previous index and is not compacted past it.  Then it holds all the
   * message reaches, and has committed as far; otherwise its log is as it was, and it says where to go on.
   */
  lemma AppendsExactly(u: Setup, h: History, n: Core, m: Message)
    requires SetupOK(u) && HistoryOK(u, h) && Good(u, h, n)
    requires m.AppendEntries? && MessageOK(u, h, m) && Routed(u, n, m) && m.term >= n.state.term
    ensures m.term in h.reigns && m.prevIndex + |m.entries| <= |h.reigns[m.term].log| && Boundary(n) <= n.applied
    ensures
      var full, log, q := Full(h, n.state), h.reigns[m.term].log, m.prevIndex + |m.entries|;
      var vote := if m.term > n.state.term then NO_NODE else n.state.votedFor;
      var out := React(u, n, Receive(m));
      && out.Done? && out.node.id == n.id && out.node.role.Follower? && out.node.leader == m.from && ResetElectionTimer in out.effects
      && out.node.state.term == m.term && out.node.state.votedFor == vote && out.node.state.snapshot == n.state.snapshot
      && if Boundary(n) <= m.prevIndex <= |full| && full[..m.prevIndex] == log[..m.prevIndex] then
           && Full(h, out.node.state) == (if log[..q] <= full then full else log[..q])
           && out.node.state.commit == Max(n.state.commit, m.leaderCommit)
           && Messages(out.effects) == [AppendEntriesResponse(n.id, m.from, m.term, m.sequence, true, q, 0)]
         else
           && out.node.state == n.state.(term := m.term, votedFor := vote)
           && Messages(out.effects) == [AppendEntriesResponse(n.id, m.from, m.term, m.sequence, false, 0,
                if m.prevIndex < Boundary(n) then NextIndexAfter(Boundary(n)) else Min(m.prevIndex, |full| + 1))]
  {
    hide HistoryOK, Good, SetupOK, MessageOK, Full, HandleAppendEntries, Dispatch, React, Messages, RejectHint, GrowsBy;
    GoodParts(u, h, n);
    ShipsStretch(u, h, m);
    var h1, n1 := FollowsTerm(u, h, n, m);
    CommittedKept(h, h1, n.id);
    Dispatched(u, n, m);
    DispatchesTo(u, n1, m);
    AppendsInTerm(u, h1, n1, m);
    var out := HandleAppendEntries(u, n1, m);
    SameFull(h, h1, out.node.state, out.node.state);
    SameHint(n, n1, m);
    if !(Boundary(n) <= m.prevIndex <= |Full(h, n.state)| && Full(h, n.state)[..m.prevIndex] == h.reigns[m.term].log[..m.prevIndex]) {
      HintIs(u, h, n, m);
    }
  }

  // ----- installing a snapshot -----

  /** A justified snapshot is never found unacceptable. */
  lemma SnapshotAcceptable(u: Setup, h: History, n: Core, m: Message)
    requires SetupOK(u) && HistoryOK(u, h) && Good(u, h, n) && m.InstallSnapshot? && MessageOK(u, h, m)
    ensures AcceptableSnapshot(u, m)
  {
    hide HistoryOK, Good, SetupOK, LogOK, CommitPoint, Committed, Fold, Full, Stores, ValidateMembership;
    ReadyToInstall(u, h, n, m);
    var s, log := m.snapshot, h.reigns[m.term].log;
    ReignLogOK(u, h, m.term);
    assert log[s.index - 1] == log[..s.index][s.index - 1] == h.committed[s.index - 1];
    CommittedLogOK(u, h);
    LogPrefixOK(h, h.committed, s.index);
    ConfigValid(u, h, h.committed[..s.index]);
    NotZero(s.membership, u.members);
  }

  lemma NotZero(m: Membership, members: seq<NodeID>)
    requires ValidateMembership(m, members)
    ensures !m.IsZero()
  {
  }

  /** What is kept of the log is a legal continuation of the snapshot. */
  lemma SuffixLegal(u: Setup, h: History, n: Core, m: Message)
    requires SetupOK(u) && HistoryOK(u, h) && Good(u, h, n) && n.role.Follower?
    requires m.InstallSnapshot? && MessageOK(u, h, m) && m.term == n.state.term && m.from != n.id
    requires m.snapshot.index > n.state.commit
    ensures ChainOK(u, SnapshotMembership(m.snapshot), SuffixAfter(n.state, m.snapshot))
  {
    hide HistoryOK, Good, SetupOK, MessageOK, SuffixAfter, SnapshotMembership, ChainOK;
    var h' := NewSnapshotOK(u, h, n, m);
    GoodIsWF(u, h', Installed(u, n, m.snapshot));
  }

  lemma InstallsInTerm(u: Setup, h: History, n: Core, m: Message)
    requires SetupOK(u) && HistoryOK(u, h) && Good(u, h, n)
    requires m.InstallSnapshot? && MessageOK(u, h, m) && m.term == n.state.term && m.from != n.id
    ensures m.term in h.reigns && m.snapshot.index <= |h.reigns[m.term].log| && m.snapshot.index <= |h.committed|
    ensures var full, log, i := Full(h, n.state), h.reigns[m.term].log, m.snapshot.index;
      var out := HandleInstallSnapshot(u, n, m);
      && out.Done? && out.node.id == n.id && out.node.role.Follower? && out.node.leader == m.from && ResetElectionTimer in out.effects
      && Messages(out.effects) == [InstallSnapshotResponse(n.id, m.from, m.term, m.sequence, true, i)]
      && if i <= n.state.commit then out.node.state == n.state
         else
           && out.node.state.term == n.state.term && out.node.state.votedFor == n.state.votedFor
           && out.node.state.snapshot == m.snapshot && out.node.state.commit == i && out.node.applied == i
           && Full(h, out.node.state) == Adopted(full, log, i)
           && RestoreSnapshot(m.snapshot) in out.effects
  {
    hide HistoryOK, Good, SetupOK, MessageOK, SuffixAfter, SnapshotMembership, ChainOK, AcceptableSnapshot, Adopted, MembershipAt,
      Stores, Committed, TermIn, Full, MatchAt;
    FollowLeaderOK(u, h, n, m);
    var n1 := FollowLeader(n, m);
    assert n1.leader == m.from;
    SnapshotAcceptable(u, h, n1, m);
    InstallsOn(u, h, n1, m);
    var response := InstallSnapshotResponse(n.id, m.from, m.term, m.sequence, true, m.snapshot.index);
    TwoEffects(ResetElectionTimer, response);
    ThreeEffects(ResetElectionTimer, RestoreSnapshot(m.snapshot), response);
    if m.snapshot.index > n.state.commit {
      SuffixLegal(u, h, n1, m);
    }
  }

  lemma ThreeEffects(first: Effect, second: Effect, m: Message)
    requires !first.Send? && !second.Send?
    ensures Messages([first, second, Send(m)]) == [m]
  {
    TwoEffects(second, m);
    MessageAlone(first);
    MessagesConcat([first], [second, Send(m)]);
    assert [first] + [second, Send(m)] == [first, second, Send(m)];
  }

  /** The whole log once the snapshot and what agrees with it are in place. */
  lemma InstallsOn(u: Setup, h: History, n: Core, m: Message)
    requires SetupOK(u) && HistoryOK(u, h) && Good(u, h, n) && m.InstallSnapshot? && MessageOK(u, h, m) && m.from != n.id
    ensures m.term in h.reigns && m.snapshot.index <= |h.reigns[m.term].log| && m.snapshot.index <= |h.committed|
    ensures m.snapshot.index > n.state.commit ==>
      Full(h, n.state.(snapshot := m.snapshot, log := SuffixAfter(n.state, m.snapshot), commit := m.snapshot.index)) ==
      Adopted(Full(h, n.state), h.reigns[m.term].log, m.snapshot.index)
  {
    hide HistoryOK, Good, SetupOK, Adopted, SuffixAfter, Stores, Committed, MatchAt;
    GoodParts(u, h, n);
    ReadyToInstall(u, h, n, m);
    if m.snapshot.index > n.state.commit {
      SnapshotAdopts(n.state, Full(h, n.state), h.reigns[m.term].log, h.committed, m.snapshot);
    }
  }

  /**
   * A FOLLOWER INSTALLS a leader's snapshot of its term or a later one unless it has committed as
   * far already, and keeps what its log has past the snapshot if it agrees with it.  It always says
   * that it holds the snapshot.
   */
  lemma InstallsExactly(u: Setup, h: History, n: Core, m: Message)
    requires SetupOK(u) && HistoryOK(u, h) && Good(u, h, n)
    requires m.InstallSnapshot? && MessageOK(u, h, m) && Routed(u, n, m) && m.term >= n.state.term
    ensures m.term in h.reigns && m.snapshot.index <= |h.reigns[m.term].log| && Boundary(n) <= n.applied
    ensures
      var full, log, i := Full(h, n.state), h.reigns[m.term].log, m.snapshot.index;
      var vote := if m.term > n.state.term then NO_NODE else n.state.votedFor;
      var out := React(u, n, Receive(m));
      && out.Done? && out.node.id == n.id && out.node.role.Follower? && out.node.leader == m.from && ResetElectionTimer in out.effects
      && out.node.state.term == m.term && out.node.state.votedFor == vote
      && Messages(out.effects) == [InstallSnapshotResponse(n.id, m.from, m.term, m.sequence, true, i)]
      && if i <= n.state.commit then out.node.state == n.state.(term := m.term, votedFor := vote)
         else
           && out.node.state.snapshot == m.snapshot && out.node.state.commit == i
           && Full(h, out.node.state) == (if log[..i] <= full then full else log[..i])
           && RestoreSnapshot(m.snapshot) in out.effects
  {
    hide HistoryOK, Good, SetupOK, MessageOK, Full, HandleInstallSnapshot, Dispatch, React, Messages, GrowsBy;
    GoodParts(u, h, n);
    InstallsOn(u, h, n, m);
    var h1, n1 := FollowsTerm(u, h, n, m);
    LeaderSent(u, h, m);
    CommittedKept(h, h1, n.id);
    Dispatched(u, n, m);
    DispatchesTo(u, n1, m);
    InstallsInTerm(u, h1, n1, m);
    var out := HandleInstallSnapshot(u, n1, m);
    if m.snapshot.index > n.state.commit {
      SameFull(h, h1, out.node.state, out.node.state);
    }
  }

  lemma LeaderSent(u: Setup, h: History, m: Message)
    requires m.InstallSnapshot? && MessageOK(u, h, m)
    ensures m.term in h.reigns && h.reigns[m.term].leader == m.from
  {
  }

  // ----- what an answer counts for -----

  /** The nodes recorded to hold the first k entries, and the one that says it holds `upTo`. */
  function Holding(n: Core, from: NodeID, upTo: nat, k: nat): set<NodeID> {
    (set x | x in n.matchIndex && n.matchIndex[x] >= k) + if upTo >= k then {from} else {}
  }

  /** Entry k is of the leader's own term, and a quorum of the configuration at it holds it. */
  ghost predicate MayCommit(u: Setup, h: History, n: Core, from: NodeID, upTo: nat, k: nat) {
    var log := Full(h, n.state);
    && n.state.commit < k <= |log|
    && log[k - 1].term == n.state.term
    && Quorum(Config(u, log[..k]), Holding(n, from, upTo, k))
  }

  lemma RecordedHold(n: Core, from: NodeID, upTo: nat, k: nat)
    requires 0 < k <= LastIndex(n)
    ensures MatchedNodes(RecordMatch(n, from, upTo), k) == Holding(n, from, upTo, k)
  {
    hide LastIndex;
    var n1 := RecordMatch(n, from, upTo);
    assert LastIndex(n1) == LastIndex(n) by { RecordKeeps(n, from, upTo); }
    forall x
      ensures x in MatchedNodes(n1, k) <==> x in Holding(n, from, upTo, k)
    {
    }
  }

  lemma RecordKeeps(n: Core, from: NodeID, upTo: nat)
    ensures var n1 := RecordMatch(n, from, upTo);
      n1 == n.(matchIndex := n1.matchIndex, nextIndex := n1.nextIndex) && LastIndex(n1) == LastIndex(n)
  {
  }

  lemma CommittableIs(u: Setup, h: History, n: Core, from: NodeID, upTo: nat, k: nat)
    requires SetupOK(u) && HistoryOK(u, h) && Good(u, h, n) && n.state.commit < k <= LastIndex(n)
    ensures Committable(u, RecordMatch(n, from, upTo), k) <==> MayCommit(u, h, n, from, upTo, k)
  {
    hide SetupOK, HistoryOK, Good, CoreOK, NodeOK, Full, Fold, StoredSnapshotOK, MatchedNodes, Holding, Quorum, TermAt, MembershipAt;
    GoodParts(u, h, n);
    StoredOK(u, h, n);
    FullLength(u, h, n.state);
    TermAtFull(u, h, n.state, k);
    MembershipAtFull(u, h, n.state, k);
    RecordKeeps(n, from, upTo);
    RecordedHold(n, from, upTo, k);
  }

  /** The commit index after an acknowledgement: the highest that may be committed, if there is one. */
  lemma CommitsAsFar(u: Setup, h: History, n: Core, from: NodeID, upTo: nat)
    requires SetupOK(u) && HistoryOK(u, h) && Good(u, h, n)
    ensures Boundary(n) <= n.applied
    ensures var c := AdvanceCommit(u, RecordMatch(n, from, upTo)).0.state.commit;
      && n.state.commit <= c
      && (c > n.state.commit ==> MayCommit(u, h, n, from, upTo, c))
      && forall k: nat {:trigger MayCommit(u, h, n, from, upTo, k)} | MayCommit(u, h, n, from, upTo, k) :: k <= c
  {
    hide SetupOK, HistoryOK, Good, CoreOK, NodeOK, Full, Committable, Unapplied, StoredSnapshotOK, HighestCommittable, Fold, Quorum, Holding;
    GoodParts(u, h, n);
    StoredOK(u, h, n);
    FullLength(u, h, n.state);
    RecordKeeps(n, from, upTo);
    var n0 := RecordMatch(n, from, upTo);
    var k := HighestCommittable(u, n0, LastIndex(n0));
    HighestCommittableBounds(u, n0, LastIndex(n0));
    if k > n.state.commit {
      CommittableIs(u, h, n, from, upTo, k);
    }
    forall i: nat | MayCommit(u, h, n, from, upTo, i)
      ensures i <= k
    {
      if i > k {
        assert i <= LastIndex(n);
        CommittableIs(u, h, n, from, upTo, i);
      }
    }
  }

  /** What a leader records of one member. */
  lemma RecordsExactly(n: Core, from: NodeID, upTo: nat)
    requires Get(n.matchIndex, from) <= LastIndex(n)
    ensures var n1 := RecordMatch(n, from, upTo);
      && (forall x :: Get(n1.matchIndex, x) == if x == from then Max(Get(n.matchIndex, x), Min(upTo, LastIndex(n))) else Get(n.matchIndex, x))
      && (forall x :: Get(n1.nextIndex, x) ==
            if x == from && upTo > Get(n.matchIndex, x) then NextIndexAfter(Min(upTo, LastIndex(n))) else Get(n.nextIndex, x))
  {
    hide LastIndex;
  }

  /** The shape of what follows an acknowledgement. */
  lemma AfterAckShape(u: Setup, n: Core, from: NodeID, upTo: nat)
    requires Boundary(n) <= n.applied == n.state.commit
    ensures
      var n0 := RecordMatch(n, from, upTo);
      var c := AdvanceCommit(u, n0).0.state.commit;
      var out := AfterAck(u, n, from, upTo);
      && out.Done? && out.node.state == n.state.(commit := c) && out.node.id == n.id && (out.dirty <==> c != n.state.commit)
      && (n.membership.IsVoter(n.id) || c == n.state.commit ==>
            var n1 := n0.(state := n.state.(commit := c), applied := out.node.applied);
            if n.role.Leader? && Get(n0.matchIndex, from) < LastIndex(n) then
              out.node == Sequenced(n1, from) && Messages(out.effects) == [AppendFor(n1, from)]
            else out.node == n1 && Messages(out.effects) == [])
      && (!n.membership.IsVoter(n.id) && c != n.state.commit && n.role.Leader? ==> out.node.role.Follower? && Messages(out.effects) == [])
  {
    hide Committable, AppendFor, LastIndex, TermAt, MembershipAt, HighestCommittable;
    var n0 := RecordMatch(n, from, upTo);
    RecordKeeps(n, from, upTo);
    var (n1, effects) := AdvanceCommit(u, n0);
    CommitAmount(u, n0);
    NoMessages(effects);
    MessageAlone(Send(AppendFor(n1, from)));
    MessagesConcat(effects, [Send(AppendFor(n1, from))]);
    assert [] + [AppendFor(n1, from)] == [AppendFor(n1, from)];
  }

  lemma CommitAmount(u: Setup, n: Core)
    requires Boundary(n) <= n.applied == n.state.commit
    ensures var (n1, effects) := AdvanceCommit(u, n);
      var k := n1.state.commit;
      && n.state.commit <= k && n1.state == n.state.(commit := k) && n1.id == n.id && LastIndex(n1) == LastIndex(n)
      && n1.membership == n.membership
      && (forall i | 0 <= i < |effects| :: effects[i].Apply?)
      && (k == n.state.commit <==> effects == [])
      && (k == n.state.commit ==> n1 == n)
      && (n.membership.IsVoter(n.id) ==> n1 == n.(state := n.state.(commit := k), applied := n1.applied))
      && (!n.membership.IsVoter(n.id) && k != n.state.commit && n.role.Leader? ==> n1.role.Follower?)
  {
    hide Committable;
    HighestCommittableBounds(u, n, LastIndex(n));
  }

  /** A leader's record of a member, and where it goes on with it, once the member answered that it holds `upTo`. */
  ghost predicate Recorded(n: Core, n1: Core, from: NodeID, upTo: nat) {
    && (forall x :: Get(n1.matchIndex, x) == if x == from then Max(Get(n.matchIndex, x), Min(upTo, LastIndex(n))) else Get(n.matchIndex, x))
    && (forall x :: Get(n1.nextIndex, x) ==
          if x == from && upTo > Get(n.matchIndex, x) then NextIndexAfter(Min(upTo, LastIndex(n))) else Get(n.nextIndex, x))
  }

  /** A member answered that it holds so much: a success of either kind. */
  predicate Acknowledges(m: Message) {
    (m.AppendEntriesResponse? || m.InstallSnapshotResponse?) && m.success
  }

  /**
   * AN ACKNOWLEDGEMENT COUNTS: the leader's record of the sender rises to what it acknowledged, no
   * other record changes, and the commit index becomes the highest that the record allows, if any
   * is higher than it was.  It goes on with what the sender still lacks.  Only a leader that is no
   * longer a voter stops leading, and only when it commits.
   */
  lemma AcksExactly(u: Setup, h: History, n: Core, m: Message)
    requires SetupOK(u) && HistoryOK(u, h) && Good(u, h, n) && n.role.Leader?
    requires Acknowledges(m) && Routed(u, n, m) && m.term == n.state.term
    ensures Boundary(n) <= n.applied
    ensures
      var log := Full(h, n.state);
      var out := React(u, n, Receive(m));
      var c := if out.Done? then out.node.state.commit else 0;
      && out.Done? && out.node.id == n.id && out.node.state == n.state.(commit := c) && (out.dirty <==> c != n.state.commit)
      && n.state.commit <= c
      && (c > n.state.commit ==> MayCommit(u, h, n, m.from, m.matchIndex, c))
      && (forall k: nat {:trigger MayCommit(u, h, n, m.from, m.matchIndex, k)} | MayCommit(u, h, n, m.from, m.matchIndex, k) :: k <= c)
      && (out.node.role.Leader? <==> c == n.state.commit || Config(u, log).IsVoter(n.id))
      && if out.node.role.Leader? then
           && Recorded(n, out.node, m.from, m.matchIndex)
           && out.node.membership == n.membership
           && if Get(out.node.matchIndex, m.from) < |log| then
                && out.node.appendSequence == n.appendSequence[m.from := Get(n.appendSequence, m.from) + 1]
                && |Messages(out.effects)| == 1
                && Ships(h, out.node.(appendSequence := n.appendSequence), m.from, Messages(out.effects)[0])
              else out.node.appendSequence == n.appendSequence && Messages(out.effects) == []
         else Messages(out.effects) == []
  {
    hide SetupOK, HistoryOK, Good, CoreOK, NodeOK, Full, Fold, AfterAck, Dispatch, React, Messages, AdvanceCommit, RecordMatch, Ships,
      MayCommit, LastIndex, StoredSnapshotOK, AppendFor;
    GoodParts(u, h, n);
    StoredOK(u, h, n);
    FullLength(u, h, n.state);
    assert LastIndex(n) == |Full(h, n.state)| by { LastTermIs(u, h, n); }
    Dispatched(u, n, m);
    DispatchesTo(u, n, m);
    AckHandled(u, n, m);
    RecordKeeps(n, m.from, m.matchIndex);
    IndexesOf(u, h, n, m.from);
    RecordsExactly(n, m.from, m.matchIndex);
    CommitsAsFar(u, h, n, m.from, m.matchIndex);
    AfterAckShape(u, n, m.from, m.matchIndex);
    var n0 := RecordMatch(n, m.from, m.matchIndex);
    var c := AdvanceCommit(u, n0).0.state.commit;
    if n.membership.IsVoter(n.id) || c == n.state.commit {
      var n1 := n0.(state := n.state.(commit := c), applied := AfterAck(u, n, m.from, m.matchIndex).node.applied);
      NextFits(n, m.from, m.matchIndex);
      ShipsAfterAck(u, h, n, n1, m.from);
    }
  }

  lemma NextFits(n: Core, from: NodeID, upTo: nat)
    requires 0 < Get(n.nextIndex, from) <= LastIndex(n) + 1
    ensures 0 < Get(RecordMatch(n, from, upTo).nextIndex, from) <= LastIndex(n) + 1
  {
    hide LastIndex;
  }

  lemma AckHandled(u: Setup, n: Core, m: Message)
    requires Acknowledges(m) && n.role.Leader? && m.term == n.state.term && Boundary(n) <= n.applied
    ensures m.AppendEntriesResponse? ==> HandleAppendEntriesResponse(u, n, m) == AfterAck(u, n, m.from, m.matchIndex)
    ensures m.InstallSnapshotResponse? ==> HandleInstallSnapshotResponse(u, n, m) == AfterAck(u, n, m.from, m.matchIndex)
  {
    hide AfterAck;
  }

  /** A leader that recorded an answer ships what the member still lacks. */
  lemma ShipsAfterAck(u: Setup, h: History, n: Core, n1: Core, from: NodeID)
    requires HistoryOK(u, h) && Good(u, h, n) && n.role.Leader? && from in u.members
    requires n1.state == n.state.(commit := n1.state.commit)
    requires 0 < Get(n1.nextIndex, from) <= LastIndex(n) + 1 && Get(n1.matchIndex, from) <= LastIndex(n)
    ensures Ships(h, n1, from, AppendFor(n1, from))
  {
    hide HistoryOK, Good, Full, StoredSnapshotOK, AppendFor, Ships;
    StoredOK(u, h, n);
    LogFits(u, h, n);
    ShipsWhere(u, h, n1, from);
  }

  /** Where a leader goes on after a rejection: one entry back, or where the follower says if that is further back. */
  function BackFrom(next: nat, hint: nat): nat {
    if next <= 1 then 1 else if 0 < hint < next - 1 then hint else next - 1
  }

  /** A REJECTION of the latest message makes the leader go back and send again; any other is ignored. */
  lemma BacksOffExactly(u: Setup, h: History, n: Core, m: Message)
    requires HistoryOK(u, h) && Good(u, h, n) && n.role.Leader?
    requires m.AppendEntriesResponse? && !m.success && Routed(u, n, m) && m.term == n.state.term
    ensures Boundary(n) <= n.applied
    ensures
      var out := React(u, n, Receive(m));
      if m.sequence != Get(n.appendSequence, m.from) then out == Done(n, false, [])
      else
        var n1 := n.(nextIndex := n.nextIndex[m.from := BackFrom(Get(n.nextIndex, m.from), m.rejectHint)]);
        && out.Done? && !out.dirty
        && out.node == n1.(appendSequence := n.appendSequence[m.from := m.sequence + 1])
        && |Messages(out.effects)| == 1
        && Ships(h, n1, m.from, Messages(out.effects)[0])
  {
    hide HistoryOK, Good, CoreOK, NodeOK, Full, Dispatch, React, Ships, AppendFor, StoredSnapshotOK, LastIndex;
    GoodParts(u, h, n);
    Dispatched(u, n, m);
    DispatchesTo(u, n, m);
    IndexesOf(u, h, n, m.from);
    var n1 := n.(nextIndex := n.nextIndex[m.from := BackFrom(Get(n.nextIndex, m.from), m.rejectHint)]);
    assert LastIndex(n1) == LastIndex(n) by { SameLast(n, n1); }
    ShipsAfterAck(u, h, n, n1, m.from);
    MessageAlone(Send(AppendFor(n1, m.from)));
  }

  lemma SameLast(n: Core, n1: Core)
    requires n.state == n1.state
    ensures LastIndex(n) == LastIndex(n1)
  {
  }

  /** Until it is back at the first entry, each rejection takes the leader further back, or to its snapshot. */
  lemma EachRejectionGoesBack(u: Setup, h: History, n: Core, m: Message)
    requires HistoryOK(u, h) && Good(u, h, n) && n.role.Leader?
    requires m.AppendEntriesResponse? && !m.success && Routed(u, n, m) && m.term == n.state.term
    requires m.sequence == Get(n.appendSequence, m.from) && Get(n.matchIndex, m.from) < MAX_UINT64
    ensures Boundary(n) <= n.applied && React(u, n, Receive(m)).Done? && |Messages(React(u, n, Receive(m)).effects)| == 1
    ensures var sent := Messages(React(u, n, Receive(m)).effects)[0];
      sent.InstallSnapshot? || (sent.AppendEntries? && (sent.prevIndex == 0 || sent.prevIndex < Get(n.nextIndex, m.from) - 1))
  {
    hide HistoryOK, Good, Full, React, StoredSnapshotOK, LastIndex, TermIn;
    BacksOffExactly(u, h, n, m);
  }

  /** The term a message is answered in when it is of an earlier one. */
  predicate Refuses(n: Core, m: Message, reply: Message) {
    match m
    case RequestVote(_, _, _, _, _) => reply == RequestVoteResponse(n.id, m.from, n.state.term, false)
    case AppendEntries(_, _, _, _, _, _, _, _) =>
      reply == AppendEntriesResponse(n.id, m.from, n.state.term, m.sequence, false, 0, NextIndexAfter(LastIndex(n)))
    case InstallSnapshot(_, _, _, _, _) => reply == InstallSnapshotResponse(n.id, m.from, n.state.term, m.sequence, false, Boundary(n))
    case _ => false
  }

  /** A MESSAGE OF AN EARLIER TERM changes nothing: a request is refused in the present term, an answer ignored. */
  lemma OldTermsExactly(u: Setup, n: Core, m: Message)
    requires Routed(u, n, m) && m.term < n.state.term && Boundary(n) <= n.applied
    ensures var out := React(u, n, Receive(m));
      && out.Done? && out.node == n && !out.dirty && ResetElectionTimer !in out.effects
      && (m.RequestVoteResponse? || m.AppendEntriesResponse? || m.InstallSnapshotResponse? ==> out.effects == [])
      && (m.RequestVote? || m.AppendEntries? || m.InstallSnapshot? ==>
           |Messages(out.effects)| == 1 && Refuses(n, m, Messages(out.effects)[0]))
  {
    hide React, Dispatch, BecomeLeader, AfterAck, AcceptEntries, LastIndex, Messages, TermAt, MembershipAt, FirstInvalid, Merge;
    Dispatched(u, n, m);
    DispatchesTo(u, n, m);
    var out := Dispatch(u, n, m);
    if m.RequestVote? || m.AppendEntries? || m.InstallSnapshot? {
      MessageAlone(out.effects[0]);
    }
  }
}

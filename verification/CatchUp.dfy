/**
 * A leader and a follower left alone: how their exchange of messages and answers ends.  A follower
 * that has not compacted its log past where the leader goes on gets the whole log in a bounded
 * number of rounds; one that has never does.
 */
module CatchUp {
  import opened RaftTypes
  import opened Configuration
  import opened RaftHistory
  import opened LeaderCompleteness
  import opened RaftActions
  import opened NodeSpec
  import opened NodeRefinement
  import opened LeaderProofs
  import opened FollowerProofs
  import opened NodeProofs
  import opened ClusterInvariant
  import opened Answers
  import opened Replication

  /** A leader, a follower, and the leader's latest message on its way. */
  datatype Talk = Talk(leader: Core, follower: Core, flight: Option<Message>)

  function Reached(u: Setup, n: Core, m: Message): Core {
    if Boundary(n) <= n.applied then React(u, n, Receive(m)).node else n
  }

  /** One round: the message reaches the follower, its answer reaches the leader, and the leader may send again. */
  function Round(u: Setup, t: Talk): Talk {
    if t.flight.None? then t
    else
      var reply := Reply(u, t.follower, t.flight.value);
      var follower := Reached(u, t.follower, t.flight.value);
      if reply.None? then Talk(t.leader, follower, None)
      else Talk(Reached(u, t.leader, reply.value), follower, Reply(u, t.leader, reply.value))
  }

  function Rounds(u: Setup, t: Talk, r: nat): Talk
    decreases r
  {
    if r == 0 then t else Rounds(u, Round(u, t), r - 1)
  }

  /** A leader that turns to a member, at a heartbeat say. */
  function Opening(n: Core, f: Core): Talk {
    Talk(Sequenced(n, f.id), f, Some(AppendFor(n, f.id)))
  }

  /** The follower is not compacted past where the leader goes on with it, be it an entry or the leader's snapshot. */
  predicate CanCatchUp(n: Core, f: Core) {
    var next := Get(n.nextIndex, f.id);
    if next > Boundary(n) then Boundary(f) < next else Get(n.matchIndex, f.id) < Boundary(n) && Boundary(f) <= Boundary(n)
  }

  // ----- what holds of a talk -----

  ghost predicate InFlight(h: History, n: Core, id: NodeID, m: Message) {
    Get(n.appendSequence, id) > 0 && Ships(h, n.(appendSequence := map[id := Get(n.appendSequence, id) - 1]), id, m)
  }

  ghost predicate TalkOK(u: Setup, h: History, t: Talk) {
    && HistoryOK(u, h)
    && Good(u, h, t.leader) && Good(u, h, t.follower)
    && t.leader.id != t.follower.id
    && t.follower.state.term <= t.leader.state.term
    && (t.flight.Some? ==>
         t.leader.role.Leader? && MessageOK(u, h, t.flight.value) && InFlight(h, t.leader, t.follower.id, t.flight.value))
  }

  lemma Launched(h: History, n: Core, n1: Core, id: NodeID, m: Message)
    requires Ships(h, n, id, m) && n1 == n.(appendSequence := n1.appendSequence)
    requires Get(n1.appendSequence, id) == Get(n.appendSequence, id) + 1
    ensures InFlight(h, n1, id, m)
  {
    SameShipment(h, n1.(appendSequence := map[id := Get(n1.appendSequence, id) - 1]), n, id, m);
  }

  /** What is on its way, on the leader's whole log. */
  lemma FlightIs(h: History, n: Core, id: NodeID, m: Message)
    requires InFlight(h, n, id, m) && Get(n.matchIndex, id) < MAX_UINT64
    ensures var next := Get(n.nextIndex, id);
      if next <= Boundary(n) then m == InstallSnapshot(n.id, id, n.state.term, Get(n.appendSequence, id), n.state.snapshot)
      else
        next - 1 <= |Full(h, n.state)|
        && m == AppendEntries(n.id, id, n.state.term, Get(n.appendSequence, id), next - 1, TermIn(Full(h, n.state), next - 1),
                              Full(h, n.state)[next - 1..], n.state.commit)
  {
    hide Full, TermIn;
  }

  lemma LeaderLog(u: Setup, h: History, n: Core)
    requires Good(u, h, n) && n.role.Leader?
    ensures n.state.term in h.reigns && h.reigns[n.state.term].log == Full(h, n.state)
    ensures LastIndex(n) == |Full(h, n.state)| && n.id in u.members && n.id != NO_NODE
  {
    FullLength(u, h, n.state);
  }

  lemma Member(u: Setup, h: History, n: Core)
    requires Good(u, h, n)
    ensures n.id in u.members && n.id != NO_NODE && n.applied == n.state.commit && Boundary(n) <= n.applied
  {
  }

  /** Whatever a node of no later term committed is in the leader's log. */
  lemma CommittedInLeader(u: Setup, h: History, n: Core, f: Core)
    requires HistoryOK(u, h) && Good(u, h, n) && n.role.Leader? && Good(u, h, f) && f.state.term <= n.state.term
    ensures Boundary(f) <= f.state.commit <= |Full(h, f.state)| == LastIndex(f)
    ensures f.state.commit <= |Full(h, n.state)| && Full(h, f.state)[..f.state.commit] == Full(h, n.state)[..f.state.commit]
  {
    hide HistoryOK, Good, Full, LogOK, Committed, StoredSnapshotOK;
    LeaderLog(u, h, n);
    GoodLog(u, h, f);
    GoodParts(u, h, f);
    CommittedInReign(u, h, Full(h, f.state), f.state.commit, f.state.term, n.state.term);
  }

  /** Whatever the leader has on record for the follower is in the follower's log. */
  lemma RecordIsHeld(u: Setup, h: History, n: Core, f: Core)
    requires HistoryOK(u, h) && Good(u, h, n) && n.role.Leader? && Good(u, h, f) && f.state.term <= n.state.term
    ensures var k := Get(n.matchIndex, f.id);
      k <= |Full(h, f.state)| && k <= |Full(h, n.state)| && Full(h, f.state)[..k] == Full(h, n.state)[..k]
  {
    var k := Get(n.matchIndex, f.id);
    hide HistoryOK, Good, Full, LogOK, Committed, StoredSnapshotOK, Acked;
    LeaderLog(u, h, n);
    IndexesOf(u, h, n, f.id);
    if k > 0 {
      RecordIsAcked(u, h, n, f.id);
      HeldInTerm(u, h, n.state.term, f, k);
    }
  }

  lemma RecordIsAcked(u: Setup, h: History, n: Core, id: NodeID)
    requires Good(u, h, n) && n.role.Leader? && Get(n.matchIndex, id) > 0
    ensures Acked(h, id, n.state.term, Get(n.matchIndex, id))
  {
  }

  lemma HeldInTerm(u: Setup, h: History, t: nat, f: Core, k: nat)
    requires HistoryOK(u, h) && Good(u, h, f) && f.state.term <= t && Acked(h, f.id, t, k) && t in h.reigns
    ensures k <= |h.reigns[t].log| && h.reigns[t].log[..k] <= Full(h, f.state)
  {
    AcksAreOK(u, h, f.id, t);
    FullLength(u, h, f.state);
    hide HistoryOK, Fold, CommitPoint;
    assert f.state.term == t;
    assert NodeHolds(h, f.id, t, Full(h, f.state), t);
    assert Held(h, t, k, Full(h, f.state), t, None);
  }

  // ----- the follower's half of a round -----

  lemma FlightRouted(u: Setup, h: History, t: Talk)
    requires TalkOK(u, h, t) && t.flight.Some?
    ensures var m := t.flight.value;
      && (m.AppendEntries? || m.InstallSnapshot?) && Routed(u, t.follower, m) && m.from == t.leader.id
      && m.term == t.leader.state.term && m.sequence == Get(t.leader.appendSequence, t.follower.id)
  {
    hide Good, HistoryOK, MessageOK, Full, TermIn;
    Member(u, h, t.leader);
    Member(u, h, t.follower);
  }

  /** The answer is one message, back to the leader, in its term and with the number of the message. */
  predicate AnswerTo(m: Message, f: Core, term: nat, reply: Message) {
    && reply.from == f.id && reply.to == m.from && reply.term == term
    && (m.AppendEntries? ==> reply.AppendEntriesResponse? && reply.sequence == m.sequence)
    && (m.InstallSnapshot? ==> reply.InstallSnapshotResponse? && reply.sequence == m.sequence && reply.success)
  }

  lemma FollowerHears(u: Setup, h: History, t: Talk) returns (h1: History, reply: Message)
    requires SetupOK(u) && TalkOK(u, h, t) && t.flight.Some?
    ensures Boundary(t.follower) <= t.follower.applied
    ensures var m := t.flight.value;
      var f1 := Reached(u, t.follower, m);
      && React(u, t.follower, Receive(m)).Done?
      && HistoryOK(u, h1) && GrowsBy(h, h1, t.follower.id)
      && Good(u, h1, f1) && f1.id == t.follower.id && f1.state.term == t.leader.state.term
      && Good(u, h1, t.leader) && Full(h1, t.leader.state) == Full(h, t.leader.state)
      && Reply(u, t.follower, m) == Some(reply) && Messages(React(u, t.follower, Receive(m)).effects) == [reply]
      && MessageOK(u, h1, reply)
      && AnswerTo(m, t.follower, t.leader.state.term, reply)
      && Routed(u, t.leader, reply)
  {
    hide SetupOK, HistoryOK, Good, MessageOK, Full, TermIn, React, InFlight, GrowsBy, EffectsOK, Delivered, AtLeastAsNew, CoreOK, NodeOK, Messages;
    var f, m := t.follower, t.flight.value;
    Member(u, h, t.leader);
    Member(u, h, f);
    FlightRouted(u, h, t);
    h1 := ReactOK(u, h, f, Receive(m));
    var out := React(u, f, Receive(m));
    if m.AppendEntries? {
      AppendsExactly(u, h, f, m);
    } else {
      InstallsExactly(u, h, f, m);
    }
    reply := Messages(out.effects)[0];
    FirstIsJustified(u, h1, f.id, out.effects);
    GoodFrame(u, h, h1, f.id, t.leader);
    FullStays(u, h, h1, f.id, t.leader);
  }

  lemma FirstIsJustified(u: Setup, h: History, id: NodeID, effects: seq<Effect>)
    requires EffectsOK(u, h, id, effects) && Messages(effects) != []
    ensures MessageOK(u, h, Messages(effects)[0])
  {
    hide MessageOK;
    MessageIsSent(effects, Messages(effects)[0]);
  }

  lemma FullStays(u: Setup, a: History, b: History, actor: NodeID, n: Core)
    requires GrowsBy(a, b, actor) && Good(u, a, n)
    ensures Full(a, n.state) == Full(b, n.state)
  {
    hide NodeOK;
    CoreGrowsBy(u, a, b, n, actor);
  }

  // ----- the leader's half -----

  lemma LeaderHears(u: Setup, h: History, h1: History, t: Talk, reply: Message) returns (h2: History)
    requires SetupOK(u) && TalkOK(u, h, t) && t.flight.Some?
    requires HistoryOK(u, h1) && Good(u, h1, t.leader) && MessageOK(u, h1, reply) && Routed(u, t.leader, reply)
    requires Reply(u, t.follower, t.flight.value) == Some(reply)
    requires var f1 := Reached(u, t.follower, t.flight.value);
      Good(u, h1, f1) && f1.id == t.follower.id && f1.state.term == t.leader.state.term
    requires AnswerTo(t.flight.value, t.follower, t.leader.state.term, reply)
    ensures var t1 := Round(u, t);
      && Boundary(t.leader) <= t.leader.applied
      && React(u, t.leader, Receive(reply)).Done? && t1.leader == React(u, t.leader, Receive(reply)).node
      && t1.follower == Reached(u, t.follower, t.flight.value)
      && (t1.flight.None? <==> Messages(React(u, t.leader, Receive(reply)).effects) == [])
      && (t1.flight.Some? ==> Messages(React(u, t.leader, Receive(reply)).effects) == [t1.flight.value])
      && GrowsBy(h1, h2, t.leader.id) && TalkOK(u, h2, t1)
      && Full(h2, t1.follower.state) == Full(h1, t1.follower.state)
  {
    hide SetupOK, HistoryOK, Good, MessageOK, Full, TermIn, React, InFlight, GrowsBy, EffectsOK, Delivered, CoreOK, NodeOK, Messages, MayCommit,
      Ships;
    var n, f1 := t.leader, Reached(u, t.follower, t.flight.value);
    FlightRouted(u, h, t);
    Member(u, h1, n);
    h2 := ReactOK(u, h1, n, Receive(reply));
    var out := React(u, n, Receive(reply));
    GoodFrame(u, h1, h2, n.id, f1);
    FullStays(u, h1, h2, n.id, f1);
    if Acknowledges(reply) {
      AcksExactly(u, h1, n, reply);
      if Messages(out.effects) != [] {
        Launched(h1, out.node.(appendSequence := n.appendSequence), out.node, reply.from, Messages(out.effects)[0]);
      }
    } else {
      BacksOffExactly(u, h1, n, reply);
      var n1 := n.(nextIndex := n.nextIndex[reply.from := BackFrom(Get(n.nextIndex, reply.from), reply.rejectHint)]);
      Launched(h1, n1, out.node, reply.from, Messages(out.effects)[0]);
    }
    if Messages(out.effects) != [] {
      FirstIsJustified(u, h2, n.id, out.effects);
      BoundaryIsCommitted(u, h1, n);
      FlightKept(u, h1, h2, n.id, out.node, reply.from, Messages(out.effects)[0]);
    }
  }

  lemma FlightKept(u: Setup, a: History, b: History, actor: NodeID, n: Core, id: NodeID, m: Message)
    requires GrowsBy(a, b, actor) && InFlight(a, n, id, m) && n.state.snapshot.index <= |a.committed|
    ensures InFlight(b, n, id, m)
  {
    CommittedKept(a, b, actor);
    SameFull(a, b, n.state, n.state);
  }

  lemma BoundaryIsCommitted(u: Setup, h: History, n: Core)
    requires Good(u, h, n)
    ensures n.state.snapshot.index <= |h.committed|
  {
    hide NodeOK, Fold;
  }

  // ----- how the exchange ends -----

  /** Nothing is on its way any more; a leader that still leads knows that the follower holds its whole log. */
  ghost predicate Settled(u: Setup, h: History, t: Talk, n: Core, id: NodeID, log: Log) {
    && TalkOK(u, h, t) && t.flight.None? && t.follower.id == id
    && (t.leader.role.Leader? ==>
         && Full(h, t.leader.state) == log && log <= Full(h, t.follower.state)
         && Get(t.leader.matchIndex, id) == |log|)
    && (n.membership.IsVoter(n.id) ==> t.leader.role.Leader?)
  }

  /** The message fits: the follower takes it all, and the leader learns that. */
  ghost predicate Fitting(h: History, t: Talk) {
    t.flight.Some? && t.flight.value.AppendEntries?
    && var prev, full, log := t.flight.value.prevIndex, Full(h, t.follower.state), Full(h, t.leader.state);
       && Boundary(t.follower) <= prev <= |full| && prev <= |log| && full[..prev] == log[..prev]
  }

  /** The leader's log and configuration are as they were, whatever it committed. */
  lemma LeaderKeeps(u: Setup, a: History, b: History, n: Core, n1: Core)
    requires GrowsBy(a, b, n.id) && Good(u, a, n) && Good(u, b, n1) && n1.id == n.id
    requires n1.state == n.state.(commit := n1.state.commit)
    ensures Full(b, n1.state) == Full(a, n.state) && n1.membership == n.membership
    ensures n.membership == Config(u, Full(a, n.state))
  {
    hide Good, NodeOK, CoreOK, Full, Fold;
    BoundaryIsCommitted(u, a, n);
    CommittedKept(a, b, n.id);
    SameFull(a, b, n.state, n1.state);
    GoodParts(u, a, n);
    GoodParts(u, b, n1);
  }

  /** What the follower's log became is the same in the later history. */
  lemma FollowerKeeps(u: Setup, h: History, h1: History, f: Core, f1: Core)
    requires GrowsBy(h, h1, f.id) && Good(u, h, f) && f1.state.snapshot.index <= |h.committed|
    ensures Full(h1, f1.state) == Full(h, f1.state)
  {
    hide Full;
    CommittedKept(h, h1, f.id);
    SameFull(h, h1, f1.state, f1.state);
  }

  lemma FittingSettles(u: Setup, h: History, t: Talk) returns (h2: History)
    requires SetupOK(u) && TalkOK(u, h, t) && Fitting(h, t) && Get(t.leader.matchIndex, t.follower.id) < LastIndex(t.leader)
    ensures Settled(u, h2, Round(u, t), t.leader, t.follower.id, Full(h, t.leader.state))
  {
    hide SetupOK, HistoryOK, Good, MessageOK, Full, TermIn, React, InFlight, GrowsBy, MayCommit, Ships, Messages, Round;
    var n, f, m := t.leader, t.follower, t.flight.value;
    var log := Full(h, n.state);
    FlightRouted(u, h, t);
    LeaderLog(u, h, n);
    LeaderFits(u, h, n);
    FlightIs(h, n, f.id, m);
    AppendsExactly(u, h, f, m);
    assert m.prevIndex + |m.entries| == |log|;
    var h1, reply := FollowerHears(u, h, t);
    AcksExactly(u, h1, n, reply);
    h2 := LeaderHears(u, h, h1, t, reply);
    BoundaryIsCommitted(u, h, f);
    FollowerKeeps(u, h, h1, f, Reached(u, f, m));
    LeaderKeeps(u, h1, h2, n, Round(u, t).leader);
  }

  lemma LeaderFits(u: Setup, h: History, n: Core)
    requires HistoryOK(u, h) && Good(u, h, n) && n.role.Leader?
    ensures LastIndex(n) <= MAX_UINT64
  {
    hide Good, HistoryOK;
    LogFits(u, h, n);
  }

  /** Where the leader goes on after a message that did not fit. */
  ghost function NextAfterRejection(h: History, t: Talk): nat {
    var next := Get(t.leader.nextIndex, t.follower.id);
    BackFrom(next, if next <= Boundary(t.follower) then NextIndexAfter(Boundary(t.follower))
                   else Min(next - 1, |Full(h, t.follower.state)| + 1))
  }

  /** A round with a message that does not fit. */
  lemma RejectionRound(u: Setup, h: History, t: Talk) returns (h2: History)
    requires SetupOK(u) && TalkOK(u, h, t) && t.flight.Some? && t.flight.value.AppendEntries? && !Fitting(h, t)
    requires Get(t.leader.matchIndex, t.follower.id) < LastIndex(t.leader)
    ensures var t1 := Round(u, t);
      && TalkOK(u, h2, t1) && t1.flight.Some?
      && t1.leader == t.leader.(nextIndex := t.leader.nextIndex[t.follower.id := NextAfterRejection(h, t)],
                                appendSequence := t1.leader.appendSequence)
      && t1.follower.id == t.follower.id && Boundary(t1.follower) == Boundary(t.follower)
      && Full(h2, t1.leader.state) == Full(h, t.leader.state)
  {
    hide SetupOK, HistoryOK, Good, MessageOK, Full, TermIn, React, InFlight, GrowsBy, MayCommit, Ships, Messages, Round, AnswerTo;
    var n, f, m := t.leader, t.follower, t.flight.value;
    FlightRouted(u, h, t);
    LeaderLog(u, h, n);
    LeaderFits(u, h, n);
    FlightIs(h, n, f.id, m);
    AppendsExactly(u, h, f, m);
    var h1, reply := FollowerHears(u, h, t);
    assert reply.AppendEntriesResponse? && !reply.success && reply.sequence == m.sequence;
    BacksOffExactly(u, h1, n, reply);
    h2 := LeaderHears(u, h, h1, t, reply);
    LeaderKeeps(u, h1, h2, n, Round(u, t).leader);
  }

  /** Going back within the follower's reach leaves everything committed behind, and what the leader has on record. */
  lemma RejectionGoesBack(u: Setup, h: History, t: Talk)
    requires TalkOK(u, h, t) && t.flight.Some? && t.flight.value.AppendEntries? && !Fitting(h, t)
    requires Get(t.leader.matchIndex, t.follower.id) < LastIndex(t.leader) && CanCatchUp(t.leader, t.follower)
    ensures var next := NextAfterRejection(h, t);
      && next < Get(t.leader.nextIndex, t.follower.id)
      && Boundary(t.follower) < next && Get(t.leader.matchIndex, t.follower.id) < next
  {
    hide HistoryOK, Good, MessageOK, Full, TermIn, InFlight, React, Ships;
    var n, f, m := t.leader, t.follower, t.flight.value;
    LeaderLog(u, h, n);
    LeaderFits(u, h, n);
    FlightIs(h, n, f.id, m);
    CommittedInLeader(u, h, n, f);
    RecordIsHeld(u, h, n, f);
    var full, log := Full(h, f.state), Full(h, n.state);
    AgreeBelow(full, log, f.state.commit);
    AgreeBelow(full, log, Get(n.matchIndex, f.id));
  }

  lemma AgreeBelow(a: Log, b: Log, k: nat)
    requires k <= |a| && k <= |b| && a[..k] == b[..k]
    ensures forall i: nat | i <= k :: a[..i] == b[..i]
  {
    forall i: nat | i <= k
      ensures a[..i] == b[..i]
    {
      assert a[..i] == a[..k][..i] && b[..i] == b[..k][..i];
    }
  }

  /** A round with the leader's snapshot, which reaches past what it has on record and at least as far as the follower's. */
  lemma SnapshotRound(u: Setup, h: History, t: Talk) returns (h2: History)
    requires SetupOK(u) && TalkOK(u, h, t) && t.flight.Some? && t.flight.value.InstallSnapshot?
    requires Get(t.leader.matchIndex, t.follower.id) < Boundary(t.leader) && Boundary(t.follower) <= Boundary(t.leader)
    ensures var t1 := Round(u, t);
      && TalkOK(u, h2, t1)
      && (t1.flight.None? ==> Settled(u, h2, t1, t.leader, t.follower.id, Full(h, t.leader.state)))
      && t1.follower.id == t.follower.id
      && (t1.flight.Some? ==>
           && t1.leader.membership == t.leader.membership && t1.leader.id == t.leader.id
           && Fitting(h2, t1) && Full(h2, t1.leader.state) == Full(h, t.leader.state)
           && Get(t1.leader.matchIndex, t1.follower.id) < LastIndex(t1.leader) == LastIndex(t.leader))
  {
    hide SetupOK, HistoryOK, Good, MessageOK, Full, TermIn, React, InFlight, GrowsBy, MayCommit, Ships, Messages, Round;
    var n, f, m := t.leader, t.follower, t.flight.value;
    var log, i := Full(h, n.state), Boundary(n);
    FlightRouted(u, h, t);
    LeaderLog(u, h, n);
    LeaderFits(u, h, n);
    BoundaryInLog(u, h, n);
    FlightIs(h, n, f.id, m);
    InstallsExactly(u, h, f, m);
    CommittedInLeader(u, h, n, f);
    var h1, reply := FollowerHears(u, h, t);
    var f1 := Reached(u, f, m);
    AcksExactly(u, h1, n, reply);
    h2 := LeaderHears(u, h, h1, t, reply);
    var t1 := Round(u, t);
    BoundaryIsCommitted(u, h, f);
    BoundaryIsCommitted(u, h, n);
    FollowerKeeps(u, h, h1, f, f1);
    LeaderKeeps(u, h1, h2, n, t1.leader);
    if i <= f.state.commit { SameFull(h, h, f.state, f1.state); }
    SnapshotInFull(Full(h, f.state), log, f.state.commit, i, Full(h, f1.state));
    assert Boundary(f1) <= i;
    if t1.flight.Some? {
      LeaderLog(u, h2, t1.leader);
      FlightIs(h2, t1.leader, f.id, t1.flight.value);
    }
  }

  lemma BoundaryInLog(u: Setup, h: History, n: Core)
    requires Good(u, h, n)
    ensures Boundary(n) <= n.state.commit <= LastIndex(n)
  {
    hide Good, LogOK, Committed, Full;
    GoodLog(u, h, n);
    GoodParts(u, h, n);
  }

  lemma SnapshotInFull(full: Log, log: Log, commit: nat, i: nat, full1: Log)
    requires commit <= |full| && commit <= |log| && full[..commit] == log[..commit] && i <= |log|
    requires if i <= commit then full1 == full else full1 == if log[..i] <= full then full else log[..i]
    ensures i <= |full1| && full1[..i] == log[..i]
  {
    if i <= commit {
      assert full[..i] == full[..commit][..i] == log[..i];
    }
  }

  /** The exchange from a talk that can still be caught up. */
  lemma {:induction false} RunsOut(u: Setup, h: History, t: Talk) returns (r: nat, h': History)
    requires SetupOK(u) && TalkOK(u, h, t) && t.flight.Some?
    requires Get(t.leader.matchIndex, t.follower.id) < LastIndex(t.leader) && CanCatchUp(t.leader, t.follower)
    ensures r <= Get(t.leader.nextIndex, t.follower.id) + 2
    ensures Settled(u, h', Rounds(u, t, r), t.leader, t.follower.id, Full(h, t.leader.state))
    decreases Get(t.leader.nextIndex, t.follower.id)
  {
    hide SetupOK, TalkOK, Full, Round, Fitting, NextAfterRejection;
    var t1 := Round(u, t);
    assert Rounds(u, t1, 0) == t1;
    assert Rounds(u, t, 1) == Rounds(u, t1, 0);
    KindOfFlight(u, h, t);
    if t.flight.value.InstallSnapshot? {
      h' := SnapshotRound(u, h, t);
      r := 1;
      if t1.flight.Some? {
        h' := FittingSettles(u, h', t1);
        assert Rounds(u, t1, 1) == Rounds(u, Round(u, t1), 0);
        assert Rounds(u, t, 2) == Rounds(u, t1, 1);
        r := 2;
      }
    } else if Fitting(h, t) {
      h' := FittingSettles(u, h, t);
      r := 1;
    } else {
      var h2 := RejectionRound(u, h, t);
      RejectionGoesBack(u, h, t);
      r, h' := RunsOut(u, h2, t1);
      r := r + 1;
      assert Rounds(u, t, r) == Rounds(u, t1, r - 1);
    }
  }

  lemma KindOfFlight(u: Setup, h: History, t: Talk)
    requires TalkOK(u, h, t) && t.flight.Some? && Get(t.leader.matchIndex, t.follower.id) < LastIndex(t.leader)
    ensures t.flight.value.InstallSnapshot? <==> Get(t.leader.nextIndex, t.follower.id) <= Boundary(t.leader)
    ensures t.flight.value.InstallSnapshot? || t.flight.value.AppendEntries?
  {
    hide HistoryOK, Good, MessageOK, Full, TermIn, InFlight, React, Ships;
    LeaderLog(u, h, t.leader);
    LeaderFits(u, h, t.leader);
    FlightIs(h, t.leader, t.follower.id, t.flight.value);
  }

  lemma OpeningOK(u: Setup, h: History, n: Core, f: Core)
    requires SetupOK(u) && HistoryOK(u, h) && Good(u, h, n) && n.role.Leader? && Good(u, h, f)
    requires n.id != f.id && f.state.term <= n.state.term
    ensures TalkOK(u, h, Opening(n, f))
  {
    hide SetupOK, HistoryOK, Good, MessageOK, Full, Ships, AppendFor, InFlight;
    Member(u, h, f);
    ShipsExactly(u, h, n, f.id);
    AppendForOK(u, h, n, f.id);
    SequencedGood(u, h, n, Sequenced(n, f.id).appendSequence);
    Launched(h, n, Sequenced(n, f.id), f.id, AppendFor(n, f.id));
  }

  /**
   * A FOLLOWER CATCHES UP: from a leader's next message on, if nothing else happens, the follower
   * holds the leader's whole log and the leader knows it, after at most as many rounds as the leader
   * can go back and two more; unless the leader is no voter any more and steps down on the way.
   */
  lemma CatchesUp(u: Setup, h: History, n: Core, f: Core) returns (r: nat, h': History)
    requires SetupOK(u) && HistoryOK(u, h) && Good(u, h, n) && n.role.Leader? && Good(u, h, f)
    requires n.id != f.id && f.state.term <= n.state.term
    requires Get(n.matchIndex, f.id) < LastIndex(n) && CanCatchUp(n, f)
    ensures r <= Get(n.nextIndex, f.id) + 2
    ensures var t := Rounds(u, Opening(n, f), r);
      var log := Full(h, n.state);
      && t.flight.None?
      && (t.leader.role.Leader? ==>
           && Full(h', t.leader.state) == log && log <= Full(h', t.follower.state)
           && Get(t.leader.matchIndex, f.id) == |log| == LastIndex(t.leader))
      && (Config(u, log).IsVoter(n.id) ==> t.leader.role.Leader?)
  {
    hide SetupOK, HistoryOK, Good, Full, Rounds, CoreOK, NodeOK, Fold;
    OpeningOK(u, h, n, f);
    GoodParts(u, h, n);
    r, h' := RunsOut(u, h, Opening(n, f));
    var t := Rounds(u, Opening(n, f), r);
    if t.leader.role.Leader? { LeaderLog(u, h', t.leader); }
  }

  // ----- a follower that is left behind -----

  ghost predicate Behind(u: Setup, h: History, t: Talk) {
    && TalkOK(u, h, t)
    && (t.leader.role.Leader? ==>
         t.flight.Some? && !CanCatchUp(t.leader, t.follower) && Get(t.leader.matchIndex, t.follower.id) < LastIndex(t.leader))
    && (t.flight.Some? ==> t.leader.role.Leader?)
  }

  /** A message before the follower's boundary. */
  lemma RefusedBehind(u: Setup, h: History, t: Talk) returns (h2: History)
    requires SetupOK(u) && Behind(u, h, t) && t.flight.Some? && t.flight.value.AppendEntries?
    ensures Behind(u, h2, Round(u, t))
  {
    hide SetupOK, HistoryOK, Good, MessageOK, Full, TermIn, React, InFlight, GrowsBy, Ships, Round;
    FlightRouted(u, h, t);
    KindOfFlight(u, h, t);
    LeaderLog(u, h, t.leader);
    LeaderFits(u, h, t.leader);
    FlightIs(h, t.leader, t.follower.id, t.flight.value);
    h2 := RejectionRound(u, h, t);
  }

  /** A snapshot that is not past the leader's record, or not as far as the follower's own. */
  lemma InstalledBehind(u: Setup, h: History, t: Talk) returns (h2: History)
    requires SetupOK(u) && Behind(u, h, t) && t.flight.Some? && t.flight.value.InstallSnapshot?
    ensures Behind(u, h2, Round(u, t))
  {
    hide SetupOK, HistoryOK, Good, MessageOK, Full, TermIn, React, InFlight, GrowsBy, MayCommit, Ships, Messages, Round;
    var n, f, m := t.leader, t.follower, t.flight.value;
    var i := Boundary(n);
    FlightRouted(u, h, t);
    KindOfFlight(u, h, t);
    LeaderLog(u, h, n);
    LeaderFits(u, h, n);
    BoundaryInLog(u, h, n);
    FlightIs(h, n, f.id, m);
    InstallsExactly(u, h, f, m);
    CommittedInLeader(u, h, n, f);
    var h1, reply := FollowerHears(u, h, t);
    AcksExactly(u, h1, n, reply);
    h2 := LeaderHears(u, h, h1, t, reply);
    assert LastIndex(Round(u, t).leader) == LastIndex(n);
  }

  lemma {:induction false} BehindForever(u: Setup, h: History, t: Talk, r: nat)
    requires SetupOK(u) && Behind(u, h, t)
    ensures var t1 := Rounds(u, t, r);
      t1.leader.role.Leader? ==> t1.follower.id == t.follower.id && Get(t1.leader.matchIndex, t1.follower.id) < LastIndex(t1.leader)
    decreases r
  {
    hide SetupOK, TalkOK, Round, CanCatchUp;
    if r > 0 && t.flight.Some? {
      var h2;
      KindOfFlight(u, h, t);
      if t.flight.value.AppendEntries? { h2 := RefusedBehind(u, h, t); } else { h2 := InstalledBehind(u, h, t); }
      FollowerStays(u, h, t);
      BehindForever(u, h2, Round(u, t), r - 1);
    } else if r > 0 {
      assert Round(u, t) == t by { NothingMoves(u, t); }
      BehindForever(u, h, t, r - 1);
    }
  }

  lemma NothingMoves(u: Setup, t: Talk)
    requires t.flight.None?
    ensures Round(u, t) == t
  {
  }

  lemma FollowerStays(u: Setup, h: History, t: Talk)
    requires SetupOK(u) && TalkOK(u, h, t) && t.flight.Some?
    ensures Round(u, t).follower.id == t.follower.id
  {
    hide SetupOK, TalkOK, React;
    var h1, reply := FollowerHears(u, h, t);
  }

  /**
   * A FOLLOWER STAYS BEHIND, exactly otherwise: if it has compacted its log past where the leader
   * goes on with it, then however long they exchange messages, a leader that still leads never
   * learns that the follower holds its log.
   */
  lemma StaysBehind(u: Setup, h: History, n: Core, f: Core, r: nat)
    requires SetupOK(u) && HistoryOK(u, h) && Good(u, h, n) && n.role.Leader? && Good(u, h, f)
    requires n.id != f.id && f.state.term <= n.state.term
    requires Get(n.matchIndex, f.id) < LastIndex(n) && !CanCatchUp(n, f)
    ensures var t := Rounds(u, Opening(n, f), r);
      t.leader.role.Leader? ==> Get(t.leader.matchIndex, f.id) < LastIndex(t.leader)
  {
    hide SetupOK, HistoryOK, Good, TalkOK, Rounds, AppendFor;
    OpeningOK(u, h, n, f);
    BehindForever(u, h, Opening(n, f), r);
  }

  /** The leader knows that the follower holds its whole log. */
  predicate KnowsAll(t: Talk, id: NodeID) {
    t.leader.role.Leader? && Get(t.leader.matchIndex, id) == LastIndex(t.leader)
  }

  /** CATCHING UP, exactly: a leader that is a voter gets to know it if and only if the follower is not compacted too far. */
  lemma CatchesUpExactly(u: Setup, h: History, n: Core, f: Core)
    requires SetupOK(u) && HistoryOK(u, h) && Good(u, h, n) && n.role.Leader? && Good(u, h, f)
    requires n.id != f.id && f.state.term <= n.state.term && Config(u, Full(h, n.state)).IsVoter(n.id)
    requires Get(n.matchIndex, f.id) < LastIndex(n)
    ensures (exists r: nat :: KnowsAll(Rounds(u, Opening(n, f), r), f.id)) <==> CanCatchUp(n, f)
  {
    hide SetupOK, HistoryOK, Good, Full, Rounds, Opening, CanCatchUp, Fold;
    if CanCatchUp(n, f) {
      var r, h' := CatchesUp(u, h, n, f);
      var t := Rounds(u, Opening(n, f), r);
      assert KnowsAll(t, f.id);
    } else if r: nat :| KnowsAll(Rounds(u, Opening(n, f), r), f.id) {
      StaysBehind(u, h, n, f, r);
    }
  }
}

/**
 * What a caller's requests do, exactly: proposing, changing the configuration, compacting; and when
 * timers are armed again.
 */
module Requests {
  import opened RaftTypes
  import opened Configuration
  import opened RaftHistory
  import opened LeaderCompleteness
  import opened RaftActions
  import opened NodeSpec
  import opened NodeRefinement
  import opened LeaderProofs
  import opened FollowerProofs
  import opened NodeProofs
  import opened Answers
  import opened Replication

  // ----- a leader's own entry -----

  /** An entry of the leader's own term that a quorum of the configuration at it is recorded to hold. */
  ghost predicate Ripe(u: Setup, h: History, n: Core, k: nat) {
    var log := Full(h, n.state);
    && n.state.commit < k <= |log|
    && log[k - 1].term == n.state.term
    && Quorum(Config(u, log[..k]), set x | x in n.matchIndex && n.matchIndex[x] >= k)
  }

  ghost predicate NothingRipe(u: Setup, h: History, n: Core) {
    forall k: nat {:trigger Ripe(u, h, n, k)} :: !Ripe(u, h, n, k)
  }

  lemma RipeIsCommittable(u: Setup, h: History, n: Core, k: nat)
    requires SetupOK(u) && HistoryOK(u, h) && Good(u, h, n)
    ensures Ripe(u, h, n, k) <==> n.state.commit < k <= LastIndex(n) && Committable(u, n, k)
  {
    hide SetupOK, HistoryOK, Good, CoreOK, NodeOK, Full, Fold, StoredSnapshotOK, Quorum, TermAt, MembershipAt;
    GoodParts(u, h, n);
    StoredOK(u, h, n);
    FullLength(u, h, n.state);
    if n.state.commit < k <= LastIndex(n) {
      TermAtFull(u, h, n.state, k);
      MembershipAtFull(u, h, n.state, k);
    }
  }

  /** Once a leader looked at its records, nothing is left to commit. */
  lemma CommitsAll(u: Setup, h: History, n: Core)
    requires SetupOK(u) && HistoryOK(u, h) && Boundary(n) <= n.applied && AdvanceCommit(u, n).0.role.Leader?
    requires Good(u, h, AdvanceCommit(u, n).0)
    ensures NothingRipe(u, h, AdvanceCommit(u, n).0)
  {
    hide SetupOK, HistoryOK, Good, Quorum, TermAt, MembershipAt, HighestCommittable, Unapplied, LastIndex, Ripe;
    var n1 := AdvanceCommit(u, n).0;
    CommitAmountOnly(u, n);
    HighestCommittableBounds(u, n, LastIndex(n));
    forall k: nat
      ensures !Ripe(u, h, n1, k)
    {
      RipeIsCommittable(u, h, n1, k);
      if n1.state.commit < k <= LastIndex(n1) {
        SameCommittable(u, n, n1, k);
      }
    }
  }

  lemma CommitAmountOnly(u: Setup, n: Core)
    requires Boundary(n) <= n.applied && AdvanceCommit(u, n).0.role.Leader?
    ensures var n1 := AdvanceCommit(u, n).0;
      && n1 == n.(state := n.state.(commit := n1.state.commit), applied := n1.applied) && LastIndex(n1) == LastIndex(n)
      && n1.state.commit == HighestCommittable(u, n, LastIndex(n))
  {
    hide HighestCommittable, Unapplied;
  }

  lemma SameCommittable(u: Setup, n: Core, n1: Core, k: nat)
    requires n1 == n.(state := n.state.(commit := n1.state.commit), applied := n1.applied)
    ensures Committable(u, n1, k) == Committable(u, n, k)
  {
    hide Fold, Quorum;
    assert MatchedNodes(n1, k) == MatchedNodes(n, k);
  }

  /** A leader appended an entry of its own, counted itself, committed what it may, and told everyone. */
  ghost predicate AppendsOwn(u: Setup, h: History, h': History, n: Core, entry: Entry, out: Outcome) {
    && HistoryOK(u, h') && GrowsBy(h, h', n.id)
    && out.Done? && out.dirty && out.node.id == n.id && Good(u, h', out.node)
    && Full(h', out.node.state) == Full(h, n.state) + [entry]
    && out.node.state.term == n.state.term && out.node.state.votedFor == n.state.votedFor
    && out.node.state.snapshot == n.state.snapshot
    && if out.node.role.Leader? then
         && (forall x :: Get(out.node.matchIndex, x) == if x == n.id then entry.index else Get(n.matchIndex, x))
         && out.node.nextIndex == n.nextIndex
         && NothingRipe(u, h', out.node)
         && ShipsToAll(h', out.node.(appendSequence := n.appendSequence), Others(u.members, n.id), Messages(out.effects))
       else !out.node.membership.IsVoter(n.id) && out.node.state.commit > n.state.commit && Messages(out.effects) == []
  }

  /** What a leader does once its own entry is in place. */
  function Publish(u: Setup, n: Core): Outcome
    requires Boundary(n) <= n.applied
  {
    var (n1, applied) := AdvanceCommit(u, n);
    if n1.role.Leader? then
      var (n2, sends) := BroadcastAppend(n1, u.members);
      Done(n2, true, applied + sends)
    else Done(n1, true, applied)
  }

  lemma PublishesAll(u: Setup, h: History, n: Core) returns (h': History)
    requires SetupOK(u) && HistoryOK(u, h) && Good(u, h, n) && n.role.Leader? && NoRepeats(u.members)
    requires Boundary(n) <= n.applied == n.state.commit
    ensures HistoryOK(u, h') && GrowsBy(h, h', n.id)
    ensures var out := Publish(u, n);
      && out.Done? && out.dirty && out.node.id == n.id && Good(u, h', out.node)
      && out.node.state == n.state.(commit := out.node.state.commit)
      && (if out.node.role.Leader? then
           && out.node.matchIndex == n.matchIndex && out.node.nextIndex == n.nextIndex
           && NothingRipe(u, h', out.node)
           && ShipsToAll(h', out.node.(appendSequence := n.appendSequence), Others(u.members, n.id), Messages(out.effects))
         else !out.node.membership.IsVoter(n.id) && out.node.state.commit > n.state.commit && Messages(out.effects) == [])
  {
    hide SetupOK, HistoryOK, Good, EffectsOK, GrowsBy, Delivered, Full, AdvanceCommit, Messages, ShipsToAll, Ripe, LastIndex;
    h' := CommitAndBroadcastOK(u, h, n);
    var (n1, applied) := AdvanceCommit(u, n);
    CommitAmount(u, n);
    NoMessages(applied);
    if n1.role.Leader? {
      CommitAmountOnly(u, n);
      CommitsAll(u, h', n);
      BroadcastShips(u, h', n1, u.members);
      BroadcastKeeps(n1, u.members);
      var (n2, sends) := BroadcastAppend(n1, u.members);
      MessagesConcat(applied, sends);
      assert [] + Messages(sends) == Messages(sends);
      RipenessIgnoresNumbers(u, h', n1, n2);
    }
  }

  lemma RipenessIgnoresNumbers(u: Setup, h: History, n: Core, n1: Core)
    requires NothingRipe(u, h, n) && n1 == n.(appendSequence := n1.appendSequence)
    ensures NothingRipe(u, h, n1)
  {
    hide Full, Quorum, Fold;
    forall k: nat
      ensures !Ripe(u, h, n1, k)
    {
      assert !Ripe(u, h, n, k);
    }
  }

  lemma OwnEntry(u: Setup, h: History, n: Core, entry: Entry) returns (h': History)
    requires SetupOK(u) && HistoryOK(u, h) && Good(u, h, n) && n.role.Leader? && NoRepeats(u.members)
    requires entry.index == LastIndex(n) + 1 <= MAX_UINT64 && entry.term == n.state.term
    requires TransitionMembership(n.membership, entry, u.members).Some?
    requires entry.IsConfig() ==> !HasUncommittedConfiguration(n)
    requires entry.kind.ConfigFinal? ==> n.state.commit == LastIndex(n)
    ensures Boundary(n) <= n.applied
    ensures AppendsOwn(u, h, h', n, entry, Publish(u, Refresh(u, Appended(n, entry))))
    ensures !entry.IsConfig() ==> Refresh(u, Appended(n, entry)) == Appended(n, entry)
  {
    hide SetupOK, HistoryOK, Good, CoreOK, NodeOK, GrowsBy, Full, MembershipAt, TransitionMembership, HasUncommittedConfiguration, Publish,
      NothingRipe, ShipsToAll, Messages, LastIndex;
    GoodParts(u, h, n);
    var h1 := AppendedOK(u, h, n, entry);
    var n0 := Refresh(u, Appended(n, entry));
    h' := PublishesAll(u, h1, n0);
    GrowsByTransitive(h, h1, h', n.id);
    var out := Publish(u, n0);
    BoundaryCommitted(u, h, n);
    CommittedKept(h, h', n.id);
    FullOfOwn(h, h', n.state, out.node.state, entry);
    OwnRecord(n, entry);
  }

  lemma BoundaryCommitted(u: Setup, h: History, n: Core)
    requires Good(u, h, n)
    ensures n.state.snapshot.index <= |h.committed|
  {
    hide NodeOK, Fold;
  }

  lemma FullOfOwn(a: History, b: History, s: PersistentState, t: PersistentState, entry: Entry)
    requires a.committed <= b.committed && s.snapshot.index <= |a.committed|
    requires t.snapshot == s.snapshot && t.log == s.log + [entry]
    ensures Full(b, t) == Full(a, s) + [entry]
  {
    assert a.committed[..s.snapshot.index] == b.committed[..s.snapshot.index];
  }

  lemma OwnRecord(n: Core, entry: Entry)
    ensures forall x :: Get(Appended(n, entry).matchIndex, x) == if x == n.id then entry.index else Get(n.matchIndex, x)
    ensures Appended(n, entry).nextIndex == n.nextIndex
  {
  }

  // ----- proposing -----

  lemma UncommittedExactly(u: Setup, h: History, n: Core)
    requires Good(u, h, n)
    ensures HasUncommittedConfiguration(n) <==>
            exists i :: n.state.commit <= i < |Full(h, n.state)| && Full(h, n.state)[i].IsConfig()
  {
    GoodParts(u, h, n);
    UncommittedConfigs(u, h, n);
    GoodLog(u, h, n);
    StoredOK(u, h, n);
    hide Good, NodeOK, CoreOK, Fold, StoredSnapshotOK, Full, Committed;
    FullLength(u, h, n.state);
    var full := Full(h, n.state);
    if HasUncommittedConfiguration(n) {
      var i :| 0 <= i < |n.state.log| && n.state.log[i].index > n.state.commit && n.state.log[i].IsConfig();
      var x := Boundary(n) + i;
      assert full[x] == full[Boundary(n)..][i] == n.state.log[i];
      IndexAt(h, full, x);
      assert n.state.commit <= x < |full| && full[x].IsConfig();
    }
  }

  /**
   * A PROPOSAL IS ACCEPTED exactly by a leader that votes, has no configuration change under way, and
   * has an index left; then its log ends in the command, and every other member is told.
   */
  lemma ProposesExactly(u: Setup, h: History, n: Core, data: Bytes) returns (h': History)
    requires SetupOK(u) && HistoryOK(u, h) && Good(u, h, n) && NoRepeats(u.members)
    ensures Boundary(n) <= n.applied
    ensures
      var log := Full(h, n.state);
      var out := React(u, n, Propose(data));
      if !n.role.Leader? then out == Failed(n, NotLeader)
      else if !Config(u, log).IsVoter(n.id) then out == Failed(n, NotVoter)
      else if exists i :: n.state.commit <= i < |log| && log[i].IsConfig() then out == Failed(n, MembershipInProgress)
      else if |log| == MAX_UINT64 then out == Failed(n, IndexExhausted)
      else
        && AppendsOwn(u, h, h', n, Entry(|log| + 1, n.state.term, Command, data, ZERO_MEMBERSHIP), out)
        && out.node.role.Leader?
  {
    hide SetupOK, HistoryOK, Good, CoreOK, NodeOK, Full, Fold, HasUncommittedConfiguration, TransitionMembership, GrowsBy,
      NothingRipe, ShipsToAll, Messages, AdvanceCommit, Refresh, Appended;
    GoodParts(u, h, n);
    LastTermIs(u, h, n);
    LogFits(u, h, n);
    UncommittedExactly(u, h, n);
    h' := h;
    if n.role.Leader? && n.membership.IsVoter(n.id) && !HasUncommittedConfiguration(n) && LastIndex(n) < MAX_UINT64 {
      var entry := Entry(LastIndex(n) + 1, n.state.term, Command, data, ZERO_MEMBERSHIP);
      CommandLegal(u, n.membership, entry);
      h' := OwnEntry(u, h, n, entry);
      StillLeads(u, n, entry);
    }
  }

  lemma StillLeads(u: Setup, n: Core, entry: Entry)
    requires n.role.Leader? && n.membership.IsVoter(n.id) && Boundary(n) <= n.applied
    ensures Publish(u, Appended(n, entry)).node.role.Leader?
  {
    CommitKeeps(u, Appended(n, entry));
    hide AdvanceCommit;
    BroadcastKeeps(AdvanceCommit(u, Appended(n, entry)).0, u.members);
  }

  // ----- changing the configuration -----

  lemma CanonicalSnoc(nodes: seq<NodeID>, x: NodeID, universe: seq<NodeID>)
    ensures CanonicalNodeSet(nodes + [x], universe) <==>
            CanonicalNodeSet(nodes, universe) && x != NO_NODE && x in universe && (nodes != [] ==> nodes[|nodes| - 1] < x)
  {
    var all := nodes + [x];
    assert all[|nodes|] == x;
    assert forall i | 0 <= i < |nodes| :: all[i] == nodes[i];
    if CanonicalNodeSet(all, universe) {
      assert forall i | 0 < i < |nodes| :: all[i - 1] <= all[i] && all[i] != all[i - 1];
    }
  }

  lemma {:induction false} WithoutKeeps(nodes: seq<NodeID>, excluded: seq<NodeID>, universe: seq<NodeID>)
    requires CanonicalNodeSet(nodes, universe)
    ensures var r := Without(nodes, excluded);
      && CanonicalNodeSet(r, universe)
      && (forall x :: x in r <==> x in nodes && x !in excluded)
      && (r != [] ==> nodes != [] && r[|r| - 1] <= nodes[|nodes| - 1])
  {
    hide CanonicalNodeSet;
    if nodes != [] {
      var front, last := nodes[..|nodes| - 1], nodes[|nodes| - 1];
      assert nodes == front + [last];
      CanonicalSnoc(front, last, universe);
      WithoutKeeps(front, excluded, universe);
      CanonicalSnoc(Without(front, excluded), last, universe);
    }
  }

  /** Between two legal stable configurations lies a legal joint one. */
  lemma JointIsLegal(u: Setup, current: Membership, target: Membership, entry: Entry)
    requires ValidateMembership(current, u.members) && !current.Joint()
    requires ValidateMembership(target, u.members) && !target.Joint()
    requires entry.kind.ConfigJoint? && entry.data == [] && entry.membership == JointMembership(current, target)
    ensures TransitionMembership(current, entry, u.members) == Some(JointMembership(current, target))
  {
    hide CanonicalNodeSet, Without;
    WithoutKeeps(target.learners, current.voters, u.members);
  }

  /** A legal joint configuration can be finalized. */
  lemma FinalIsLegal(u: Setup, current: Membership, entry: Entry)
    requires ValidateMembership(current, u.members) && current.Joint()
    requires entry.kind.ConfigFinal? && entry.data == [] && entry.membership == StableMembership(current.voters, current.learnersNext)
    ensures TransitionMembership(current, entry, u.members) == Some(Membership(current.voters, [], current.learnersNext, []))
  {
    SortedIsFixed(current.voters);
    SortedIsFixed(current.learnersNext);
  }

  /** What a caller may ask for: some voters, nobody twice, nobody from outside. */
  ghost predicate LegalTarget(u: Setup, voters: seq<NodeID>, learners: seq<NodeID>) {
    && voters != [] && NoRepeats(voters + learners)
    && (forall x | x in voters :: x in u.members) && (forall x | x in learners :: x in u.members)
  }

  /** It differs from the configuration in force. */
  ghost predicate Differs(m: Membership, voters: seq<NodeID>, learners: seq<NodeID>) {
    multiset(voters) != multiset(m.voters) || multiset(learners) != multiset(m.learners)
  }

  lemma DiffersExactly(u: Setup, m: Membership, voters: seq<NodeID>, learners: seq<NodeID>)
    requires ValidateMembership(m, u.members) && !m.Joint()
    ensures StableMembership(voters, learners) != m <==> Differs(m, voters, learners)
  {
    SameSorted(voters, m.voters);
    SameSorted(learners, m.learners);
  }

  lemma {:induction false} SameSorted(a: seq<NodeID>, b: seq<NodeID>)
    requires IsSorted(b)
    ensures Sorted(a) == b <==> multiset(a) == multiset(b)
  {
    SortedSorts(a);
    if multiset(a) == multiset(b) {
      OneSorting(Sorted(a), b);
    }
  }

  lemma LastMatches(a: seq<NodeID>, b: seq<NodeID>)
    requires a != [] && IsSorted(a) && IsSorted(b) && multiset(a) == multiset(b)
    ensures b != [] && a[|a| - 1] == b[|b| - 1]
  {
    assert a[|a| - 1] in multiset(a);
    assert b == [] ==> multiset(b) == multiset{};
    assert b[|b| - 1] in multiset(b);
    GreatestLast(a, b[|b| - 1]);
    GreatestLast(b, a[|a| - 1]);
  }

  lemma WithoutLast(a: seq<NodeID>)
    requires a != []
    ensures multiset(a[..|a| - 1]) == multiset(a) - multiset{a[|a| - 1]}
  {
    assert a == a[..|a| - 1] + [a[|a| - 1]];
  }

  lemma {:induction false} OneSorting(a: seq<NodeID>, b: seq<NodeID>)
    requires IsSorted(a) && IsSorted(b) && multiset(a) == multiset(b)
    ensures a == b
  {
    if a == [] {
      assert |b| == |multiset(b)| == |multiset(a)| == 0;
    } else {
      LastMatches(a, b);
      WithoutLast(a);
      WithoutLast(b);
      OneSorting(a[..|a| - 1], b[..|b| - 1]);
      assert a == a[..|a| - 1] + [a[|a| - 1]] && b == b[..|b| - 1] + [b[|b| - 1]];
    }
  }

  lemma {:induction false} GreatestLast(a: seq<NodeID>, x: NodeID)
    requires IsSorted(a) && x in multiset(a)
    ensures x <= a[|a| - 1]
  {
    var n := |a| - 1;
    assert a == a[..n] + [a[n]];
    if x != a[n] {
      assert x in multiset(a[..n]);
      GreatestLast(a[..n], x);
    }
  }

  /** A configuration entry of a leader's own, once it is known to be legal. */
  lemma MembershipEntry(u: Setup, h: History, n: Core, kind: EntryType, membership: Membership) returns (h': History)
    requires SetupOK(u) && HistoryOK(u, h) && Good(u, h, n) && n.role.Leader? && NoRepeats(u.members)
    requires LastIndex(n) < MAX_UINT64 && !HasUncommittedConfiguration(n)
    requires kind.ConfigJoint? || (kind.ConfigFinal? && n.state.commit == LastIndex(n))
    requires TransitionMembership(n.membership, Entry(LastIndex(n) + 1, n.state.term, kind, [], membership), u.members).Some?
    ensures Boundary(n) <= n.applied
    ensures AppendsOwn(u, h, h', n, Entry(LastIndex(n) + 1, n.state.term, kind, [], membership),
                       AppendMembershipEntry(u, n, kind, membership))
  {
    hide SetupOK, HistoryOK, Good, CoreOK, NodeOK, HasUncommittedConfiguration, TransitionMembership, AppendsOwn, LastIndex, Refresh,
      AdvanceCommit, BroadcastAppend, Appended;
    GoodParts(u, h, n);
    h' := OwnEntry(u, h, n, Entry(LastIndex(n) + 1, n.state.term, kind, [], membership));
  }

  lemma ConfigIsLegal(u: Setup, h: History, n: Core)
    requires SetupOK(u) && HistoryOK(u, h) && Good(u, h, n)
    ensures ValidateMembership(n.membership, u.members) && NO_NODE !in u.members
  {
    hide HistoryOK, Good, LogOK, Committed, Fold, Full, NodeOK, CoreOK, ValidateMembership;
    GoodLog(u, h, n);
    GoodParts(u, h, n);
    ConfigValid(u, h, Full(h, n.state));
  }

  /** The entry that begins a change from one configuration to other voters and learners. */
  function JointEntry(index: nat, term: nat, current: Membership, voters: seq<NodeID>, learners: seq<NodeID>): Entry {
    Entry(index, term, ConfigJoint, [], Membership(Sorted(voters), current.voters, Without(Sorted(learners), current.voters), Sorted(learners)))
  }

  /**
   * A CONFIGURATION CHANGE BEGINS exactly when a leader that votes is asked for a legal configuration
   * other than the present one, with no change under way and an index left; then its log ends in the
   * joint configuration of both, in which learners that still vote wait.
   */
  lemma BeginsExactly(u: Setup, h: History, n: Core, voters: seq<NodeID>, learners: seq<NodeID>) returns (h': History)
    requires SetupOK(u) && HistoryOK(u, h) && Good(u, h, n) && NoRepeats(u.members)
    ensures Boundary(n) <= n.applied
    ensures
      var log := Full(h, n.state);
      var m := Config(u, log);
      var out := React(u, n, BeginMembership(voters, learners));
      if !n.role.Leader? then out == Failed(n, NotLeader)
      else if !m.IsVoter(n.id) then out == Failed(n, NotVoter)
      else if m.Joint() || exists i :: n.state.commit <= i < |log| && log[i].IsConfig() then out == Failed(n, MembershipInProgress)
      else if |log| == MAX_UINT64 then out == Failed(n, IndexExhausted)
      else if !LegalTarget(u, voters, learners) || !Differs(m, voters, learners) then out == Failed(n, InvalidInput)
      else AppendsOwn(u, h, h', n, JointEntry(|log| + 1, n.state.term, m, voters, learners), out)
  {
    hide SetupOK, HistoryOK, Good, CoreOK, NodeOK, Full, Fold, HasUncommittedConfiguration, TransitionMembership, GrowsBy, AppendsOwn,
      ValidateMembership, LegalTarget, Differs, AppendMembershipEntry, Sorted, Without;
    GoodParts(u, h, n);
    LastTermIs(u, h, n);
    LogFits(u, h, n);
    UncommittedExactly(u, h, n);
    ConfigIsLegal(u, h, n);
    TargetExactly(u, voters, learners);
    h' := h;
    if n.role.Leader? && n.membership.IsVoter(n.id) && !n.membership.Joint() && !HasUncommittedConfiguration(n) && LastIndex(n) < MAX_UINT64 {
      DiffersExactly(u, n.membership, voters, learners);
      if LegalTarget(u, voters, learners) && Differs(n.membership, voters, learners) {
        var entry := JointEntry(LastIndex(n) + 1, n.state.term, n.membership, voters, learners);
        JointIsLegal(u, n.membership, StableMembership(voters, learners), entry);
        h' := MembershipEntry(u, h, n, ConfigJoint, entry.membership);
      }
    }
  }

  lemma TargetExactly(u: Setup, voters: seq<NodeID>, learners: seq<NodeID>)
    requires NO_NODE !in u.members
    ensures LegalTarget(u, voters, learners) <==> ValidateMembership(StableMembership(voters, learners), u.members)
  {
    hide ValidateMembership, StableMembership;
    StableExactly(voters, learners, u.members);
  }

  /**
   * A CHANGE IS FINALIZED exactly by a leader in a joint configuration whose whole log is committed,
   * with an index left; then its log ends in the new voters with the learners that waited.
   */
  lemma FinalizesExactly(u: Setup, h: History, n: Core) returns (h': History)
    requires SetupOK(u) && HistoryOK(u, h) && Good(u, h, n) && NoRepeats(u.members)
    ensures Boundary(n) <= n.applied
    ensures
      var log := Full(h, n.state);
      var m := Config(u, log);
      var out := React(u, n, FinalizeMembership);
      if !n.role.Leader? then out == Failed(n, NotLeader)
      else if !m.Joint() || n.state.commit != |log| then out == Failed(n, MembershipInProgress)
      else if |log| == MAX_UINT64 then out == Failed(n, IndexExhausted)
      else AppendsOwn(u, h, h', n, Entry(|log| + 1, n.state.term, ConfigFinal, [], Membership(m.voters, [], m.learnersNext, [])), out)
  {
    hide SetupOK, HistoryOK, Good, CoreOK, NodeOK, Full, Fold, HasUncommittedConfiguration, TransitionMembership, GrowsBy, AppendsOwn,
      ValidateMembership, AppendMembershipEntry;
    GoodParts(u, h, n);
    LastTermIs(u, h, n);
    LogFits(u, h, n);
    UncommittedExactly(u, h, n);
    ConfigIsLegal(u, h, n);
    h' := h;
    if n.role.Leader? && n.membership.Joint() && n.state.commit == LastIndex(n) && LastIndex(n) < MAX_UINT64 {
      var final := StableMembership(n.membership.voters, n.membership.learnersNext);
      var entry := Entry(LastIndex(n) + 1, n.state.term, ConfigFinal, [], final);
      FinalIsLegal(u, n.membership, entry);
      FinalInOrder(u, n.membership);
      h' := MembershipEntry(u, h, n, ConfigFinal, final);
    }
  }

  lemma FinalInOrder(u: Setup, m: Membership)
    requires ValidateMembership(m, u.members)
    ensures StableMembership(m.voters, m.learnersNext) == Membership(m.voters, [], m.learnersNext, [])
  {
    SortedIsFixed(m.voters);
    SortedIsFixed(m.learnersNext);
  }

  // ----- compacting -----

  lemma TermNotZero(u: Setup, h: History, n: Core, index: nat)
    requires HistoryOK(u, h) && Good(u, h, n) && Boundary(n) < index <= n.state.commit
    ensures index <= LastIndex(n) == |Full(h, n.state)|
    ensures TermAt(n.state, index) == TermIn(Full(h, n.state), index) != 0
  {
    hide HistoryOK, Good, LogOK, Committed, Full, StoredSnapshotOK, TermAt;
    GoodLog(u, h, n);
    StoredOK(u, h, n);
    TermAtFull(u, h, n.state, index);
    TermsPositive(u, h, Full(h, n.state));
  }

  /**
   * A SNAPSHOT IS TAKEN exactly past the last one and up to what is applied; it stands for the
   * entries up to its index, with the term and configuration there, and nothing else changes.
   */
  lemma CompactsExactly(u: Setup, h: History, n: Core, index: nat, data: Bytes)
    requires SetupOK(u) && HistoryOK(u, h) && Good(u, h, n)
    ensures Boundary(n) <= n.applied
    ensures
      var log := Full(h, n.state);
      var out := React(u, n, TakeSnapshot(index, data));
      if !(Boundary(n) < index <= n.applied) then out == Failed(n, InvalidInput)
      else
        && index <= |log|
        && out.Done? && out.dirty && out.effects == []
        && out.node.state.snapshot == Snapshot(index, TermIn(log, index), u.members, data, Config(u, log[..index]))
        && Full(h, out.node.state) == log
        && out.node == n.(state := n.state.(snapshot := out.node.state.snapshot, log := out.node.state.log))
  {
    hide SetupOK, HistoryOK, Good, CoreOK, NodeOK, Full, Fold, TermAt, TermIn, MembershipAt, EntriesFrom, StoredSnapshotOK;
    GoodParts(u, h, n);
    if Boundary(n) < index <= n.applied {
      TermNotZero(u, h, n, index);
      StoredOK(u, h, n);
      MembershipAtFull(u, h, n.state, index);
      CompactedCore(u, h, n, index, data);
      var n1 := Compact(u, n, index, data).node;
      GoodParts(u, h, n);
      SameConfig(u, h, n, n1);
    }
  }

  lemma SameConfig(u: Setup, h: History, n: Core, n1: Core)
    requires CoreOK(u, h, n) && CoreOK(u, h, n1) && View(h, n) == View(h, n1)
    ensures n.membership == n1.membership && Full(h, n.state) == Full(h, n1.state)
  {
    hide Fold, Full;
  }

  // ----- timers -----

  predicate NoTimers(effects: seq<Effect>) {
    forall e | e in effects :: !e.ResetElectionTimer? && !e.ResetHeartbeatTimer?
  }

  lemma CommitsQuietly(u: Setup, n: Core, members: seq<NodeID>)
    requires Boundary(n) <= n.applied
    ensures NoTimers(AdvanceCommit(u, n).1) && NoTimers(BroadcastAppend(n, members).1)
  {
    hide AdvanceCommit;
    CommitKeeps(u, n);
    BroadcastKeeps(n, members);
  }

  lemma PublishesQuietly(u: Setup, n: Core)
    requires Boundary(n) <= n.applied
    ensures NoTimers(Publish(u, n).effects)
  {
    hide AdvanceCommit, BroadcastAppend;
    CommitsQuietly(u, n, u.members);
    CommitsQuietly(u, AdvanceCommit(u, n).0, u.members) by { CommitKeeps(u, n); }
  }

  lemma {:induction false} RequestsAreQuiet(n: Core, members: seq<NodeID>)
    ensures NoTimers(VoteRequests(n, members))
  {
    if members != [] {
      RequestsAreQuiet(n, members[..|members| - 1]);
    }
  }

  /** A message that shows a node that its leader, or its candidate, is alive. */
  predicate ShowsLife(n: Core, m: Message, effects: seq<Effect>) {
    || ((m.AppendEntries? || m.InstallSnapshot?) && m.term >= n.state.term)
    || (m.RequestVote? && exists e | e in effects :: e.Send? && e.message.RequestVoteResponse? && e.message.granted)
  }

  lemma FromLeaderTimers(u: Setup, n: Core, m: Message)
    requires Boundary(n) <= n.applied && m.term <= n.state.term && (m.AppendEntries? || m.InstallSnapshot?)
    ensures var out := Dispatch(u, n, m);
      out.Done? ==>
        && (ResetElectionTimer in out.effects <==> m.term >= n.state.term)
        && ResetHeartbeatTimer !in out.effects && (out.node.role.Leader? ==> n.role.Leader?)
  {
    hide Dispatch, TermAt, MembershipAt, FirstInvalid, Merge, FirstNew, ConfigsLegal, AcceptableSnapshot, SuffixAfter, ChainOK, BaseMembership,
      RejectHint, LastIndex;
    DispatchesTo(u, n, m);
  }

  lemma AnswerTimers(u: Setup, n: Core, m: Message)
    requires Boundary(n) <= n.applied && m.term <= n.state.term
    requires n.role.Candidate? ==> n.membership.IsVoter(n.id)
    requires m.RequestVoteResponse? || m.AppendEntriesResponse? || m.InstallSnapshotResponse?
    ensures var out := Dispatch(u, n, m);
      out.Done? ==>
        && ResetElectionTimer !in out.effects
        && (ResetHeartbeatTimer in out.effects <==> out.node.role.Leader? && !n.role.Leader?)
        && (n.role.Follower? ==> out.node == n)
  {
    hide Dispatch, Quorum, AdvanceCommit, BroadcastAppend, AppendFor, Filled, LastIndex, RecordMatch;
    DispatchesTo(u, n, m);
    RecordKeeps(n, m.from, if m.RequestVoteResponse? then 0 else m.matchIndex);
    CommitsQuietly(u, RecordMatch(n, m.from, if m.RequestVoteResponse? then 0 else m.matchIndex), u.members);
    if m.RequestVoteResponse? && n.role.Candidate? {
      var n1 := n.(votes := n.votes + {m.from});
      WinnerTimers(u, n1);
    }
  }

  lemma WinnerTimers(u: Setup, n: Core)
    requires Boundary(n) <= n.applied && n.role.Candidate? && n.membership.IsVoter(n.id)
    ensures var out := BecomeLeader(u, n);
      out.Done? ==> ResetElectionTimer !in out.effects && ResetHeartbeatTimer in out.effects && out.node.role.Leader?
  {
    hide AdvanceCommit, BroadcastAppend, Filled;
    var n1 := Crowned(u, n);
    CommitsQuietly(u, n1, u.members);
    CommitKeeps(u, n1);
    CommitsQuietly(u, AdvanceCommit(u, n1).0, u.members);
    BroadcastKeeps(AdvanceCommit(u, n1).0, u.members);
  }

  lemma VoteTimers(u: Setup, n: Core, m: Message)
    requires Boundary(n) <= n.applied && m.term <= n.state.term && m.RequestVote?
    ensures var out := Dispatch(u, n, m);
      && out.Done? && out.node.role == n.role && ResetHeartbeatTimer !in out.effects
      && (ResetElectionTimer in out.effects <==> ShowsLife(n, m, out.effects))
  {
    hide Dispatch, LastTermOf, LastIndex;
    DispatchesTo(u, n, m);
    var out := HandleRequestVote(n, m);
    var last := out.effects[|out.effects| - 1];
    assert last.message.granted ==> exists e | e in out.effects :: e.Send? && e.message.RequestVoteResponse? && e.message.granted;
  }

  /**
   * TIMERS: the election timer is armed again exactly by a campaign and by a sign of life of a leader
   * or of a candidate that gets the vote; the heartbeat timer by a leader's heartbeat and on winning.
   */
  lemma TimersExactly(u: Setup, n: Core, input: Input)
    requires Boundary(n) <= n.applied && !Obsolete(n, input)
    requires n.role.Candidate? ==> n.membership.IsVoter(n.id)
    requires input.Receive? ==> Routed(u, n, input.message)
    ensures var out := React(u, n, input);
      out.Done? ==>
        && (ResetElectionTimer in out.effects <==>
             (input.ElectionTimeout? && n.membership.IsVoter(n.id)) || (input.Receive? && ShowsLife(n, input.message, out.effects)))
        && (ResetHeartbeatTimer in out.effects <==>
             input.HeartbeatTimeout? || (out.node.role.Leader? && !n.role.Leader?))
  {
    hide React, Dispatch, Messages, AdvanceCommit, BroadcastAppend, StartElection, HandleProposal, HandleBeginMembership, ShowsLife,
      HandleFinalizeMembership;
    match input
    case ElectionTimeout => CampaignTimers(u, n);
    case HeartbeatTimeout => HeartbeatTimers(u, n);
    case Receive(m) =>
      Dispatched(u, n, m);
      var n1 := if m.term > n.state.term then BecomeFollower(n, m.term, NO_NODE) else n;
      SameLife(n, n1, m, if Dispatch(u, n1, m).Done? then Dispatch(u, n1, m).effects else []);
      if m.RequestVote? {
        VoteTimers(u, n1, m);
      } else if m.AppendEntries? || m.InstallSnapshot? {
        FromLeaderTimers(u, n1, m);
      } else {
        AnswerTimers(u, n1, m);
      }
    case Propose(_) => RequestTimers(u, n, input);
    case Persisted(_) => RequestTimers(u, n, input);
    case TakeSnapshot(_, _) => RequestTimers(u, n, input);
    case BeginMembership(_, _) => RequestTimers(u, n, input);
    case FinalizeMembership => RequestTimers(u, n, input);
  }

  lemma SameLife(n: Core, n1: Core, m: Message, effects: seq<Effect>)
    requires n1 == if m.term > n.state.term then BecomeFollower(n, m.term, NO_NODE) else n
    ensures ShowsLife(n, m, effects) == ShowsLife(n1, m, effects)
    ensures (m.AppendEntries? || m.InstallSnapshot?) ==> (ShowsLife(n, m, effects) <==> m.term >= n1.state.term)
    ensures (m.RequestVoteResponse? || m.AppendEntriesResponse? || m.InstallSnapshotResponse?) ==> !ShowsLife(n, m, effects)
    ensures n.role.Leader? && m.term <= n.state.term ==> n1.role.Leader?
  {
  }

  lemma CampaignTimers(u: Setup, n: Core)
    requires Boundary(n) <= n.applied && !n.role.Leader?
    ensures var out := React(u, n, ElectionTimeout);
      out.Done? ==>
        && (ResetElectionTimer in out.effects <==> n.membership.IsVoter(n.id))
        && (ResetHeartbeatTimer in out.effects <==> out.node.role.Leader?)
  {
    hide BecomeLeader, Quorum, VoterUnion, LastIndex;
    var n1 := Candidacy(n);
    RequestsAreQuiet(n1, VoterUnion(n1.membership));
    if n.membership.IsVoter(n.id) {
      WinnerTimers(u, n1);
    }
  }

  lemma HeartbeatTimers(u: Setup, n: Core)
    requires Boundary(n) <= n.applied && n.role.Leader?
    ensures var out := React(u, n, HeartbeatTimeout);
      out.Done? && out.node.role.Leader? && ResetElectionTimer !in out.effects && ResetHeartbeatTimer in out.effects
  {
    hide BroadcastAppend;
    BroadcastKeeps(n, u.members);
  }

  lemma RequestTimers(u: Setup, n: Core, input: Input)
    requires Boundary(n) <= n.applied && !input.ElectionTimeout? && !input.HeartbeatTimeout? && !input.Receive?
    ensures var out := React(u, n, input);
      out.Done? ==> NoTimers(out.effects) && (out.node.role.Leader? ==> n.role.Leader?)
  {
    hide React, Publish;
    if React(u, n, input).Done? {
      var n0 := RequestPublishes(u, n, input);
      if n.role.Leader? && !input.TakeSnapshot? {
        PublishesQuietly(u, n0);
      }
    }
  }

  /** Whatever a caller asks of a leader comes to publishing an entry; a snapshot comes to no effect at all. */
  lemma RequestPublishes(u: Setup, n: Core, input: Input) returns (n0: Core)
    requires Boundary(n) <= n.applied && !input.ElectionTimeout? && !input.HeartbeatTimeout? && !input.Receive?
    requires React(u, n, input).Done?
    ensures Boundary(n0) <= n0.applied
    ensures var out := React(u, n, input);
      if input.TakeSnapshot? then out.effects == [] && out.node.role == n.role
      else n.role.Leader? && out == Publish(u, n0)
  {
    hide AdvanceCommit, BroadcastAppend, HasUncommittedConfiguration, TransitionMembership, ValidateMembership, StableMembership, MembershipAt,
      TermAt, EntriesFrom;
    n0 := n;
    var index, term := LastIndex(n) + 1, n.state.term;
    match input
    case Propose(data) => n0 := Appended(n, Entry(index, term, Command, data, ZERO_MEMBERSHIP));
      CommitKeeps(u, n0);
      assert React(u, n, input) == Publish(u, n0);
    case BeginMembership(voters, learners) =>
      n0 := Refresh(u, Appended(n, Entry(index, term, ConfigJoint, [], JointMembership(n.membership, StableMembership(voters, learners)))));
      assert React(u, n, input) == Publish(u, n0);
    case FinalizeMembership =>
      n0 := Refresh(u, Appended(n, Entry(index, term, ConfigFinal, [], StableMembership(n.membership.voters, n.membership.learnersNext))));
      assert React(u, n, input) == Publish(u, n0);
    case _ =>
  }

  // ----- the write barrier -----

  /**
   * THE BARRIER: while a write is outstanding nothing but its own acknowledgement is accepted, and that
   * releases what waited.  An input that changes durable state asks for its write alone, under a
   * number of its own; one that does not releases its effects at once.
   */
  lemma StepsExactly(u: Setup, n: Node, input: Input)
    requires Boundary(n.core) <= n.core.applied
    ensures var r := Step(u, n, input);
      if input.Persisted? then
        if n.pending.Some? && input.token == n.pending.value.token && input.token != 0
        then r == Stepped(n.(pending := None), n.pending.value.effects)
        else r == Refused(n, UnexpectedPersistence)
      else if n.pending.Some? then r == Refused(n, AwaitingPersistence)
      else
        var out := React(u, n.core, input);
        if out.Failed? then r == Refused(n.(core := out.node), out.error)
        else if !out.dirty then r == Stepped(n.(core := out.node), out.effects)
        else
          && r.Stepped? && r.effects == [Persist(n.nextToken, out.node.state)] && r.node.core == out.node
          && r.node.nextToken > n.nextToken
          && r.node.pending == Some(PendingWrite(n.nextToken, out.effects))
  {
    hide React;
  }

  // ----- starting -----

  function Applications(log: Log, from: nat, to: nat): seq<Effect>
    requires from <= to <= |log|
  {
    seq(to - from, i requires 0 <= i < to - from => Apply(log[from + i]))
  }

  /**
   * A NODE STARTS as a follower of its store: it restores a snapshot the application lacks, applies in
   * order what is committed past that, and arms the election timer if it votes.
   */
  lemma StartsExactly(u: Setup, h: History, id: NodeID, state: PersistentState, applied: nat)
    requires SetupOK(u) && HistoryOK(u, h) && applied <= state.commit
    requires Good(u, h, Fresh(u, id, state, state.commit))
    ensures state.snapshot.index <= state.commit <= state.LastIndex() == |Full(h, state)|
    ensures var (n, effects) := Start(Fresh(u, id, state, applied));
      var log := Full(h, state);
      && n.id == id && n.role.Follower? && n.state == state && n.applied == state.commit
      && effects ==
           (if applied < state.snapshot.index then [RestoreSnapshot(state.snapshot)] else [])
           + Applications(log, Max(applied, state.snapshot.index), state.commit)
           + (if Config(u, log).IsVoter(id) then [ResetElectionTimer] else [])
  {
    hide SetupOK, HistoryOK, Good, CoreOK, NodeOK, Fold, Full, LogOK, Committed, MembershipAt, StoredSnapshotOK;
    var r := Fresh(u, id, state, state.commit);
    GoodParts(u, h, r);
    GoodLog(u, h, r);
    StoredOK(u, h, r);
    FullLength(u, h, state);
    var log, from := Full(h, state), Max(applied, state.snapshot.index);
    var n := Fresh(u, id, state, from);
    var commits := Unapplied(n);
    assert |commits| == state.commit - from;
    forall i | 0 <= i < |commits|
      ensures commits[i] == Applications(log, from, state.commit)[i]
    {
      assert log[from + i] == log[state.snapshot.index..][from + i - state.snapshot.index];
    }
    assert commits == Applications(log, from, state.commit);
  }
}

/** What a node accepts as configuration and durable state when it is built or restarted (raft/types.go). */
module Validation {
  import opened RaftTypes
  import opened Configuration
  import opened NodeSpec
  import opened MembershipLoops

  /** One node of the universe; without voters and learners every member is a voter. */
  datatype NodeConfig = NodeConfig(id: NodeID, members: seq<NodeID>, voters: seq<NodeID>, learners: seq<NodeID>, applied: nat)

  function InitialMembership(config: NodeConfig): Membership {
    if config.voters == [] && config.learners == [] then StableMembership(Sorted(config.members), [])
    else StableMembership(config.voters, config.learners)
  }

  function SetupOf(config: NodeConfig): Setup {
    Setup(Sorted(config.members), InitialMembership(config))
  }

  predicate Distinct(nodes: seq<NodeID>) {
    forall i | 0 < i < |nodes| :: nodes[i] != nodes[i - 1]
  }

  predicate ValidConfig(config: NodeConfig) {
    var members := Sorted(config.members);
    && config.id != NO_NODE
    && members != []
    && NO_NODE !in members
    && Distinct(members)
    && config.id in members
    && ((config.voters == [] && config.learners == []) || ValidateMembership(InitialMembership(config), members))
  }

  predicate ValidSnapshot(u: Setup, state: PersistentState) {
    var s := state.snapshot;
    if s.index == 0 then s == NO_SNAPSHOT
    else
      && 0 < s.term <= state.term
      && s.members == u.members
      && (if s.membership.IsZero() then u.initial == StableMembership(u.members, [])
          else ValidateMembership(s.membership, u.members))
  }

  /** Entry i of a stored log: contiguous, terms in order, a legal transition, and no final configuration ahead of its commits. */
  predicate ValidEntry(u: Setup, state: PersistentState, i: nat)
    requires i < |state.log|
  {
    var e := state.log[i];
    && e.index == state.snapshot.index + i + 1
    && 0 < e.term <= state.term
    && e.term >= (if i == 0 then state.snapshot.term else state.log[i - 1].term)
    && (e.kind.ConfigFinal? ==> state.commit >= e.index - 1)
    && LegalAt(u, BaseMembership(u, state), state.log, i)
  }

  predicate ValidState(u: Setup, state: PersistentState, applied: nat) {
    && ValidSnapshot(u, state)
    && state.LastIndex() <= MAX_UINT64
    && (forall i {:trigger ValidEntry(u, state, i)} | 0 <= i < |state.log| :: ValidEntry(u, state, i))
    && state.snapshot.index <= state.commit <= state.LastIndex()
    && applied <= state.commit
  }

  /** The error that building a node reports, if any; a bad configuration is reported before a bad state. */
  function Validate(config: NodeConfig, state: PersistentState): Option<Error> {
    if !ValidConfig(config) then Some(InvalidConfig)
    else if !ValidState(SetupOf(config), state, config.applied) then Some(InvalidState)
    else None
  }

  /** An accepted configuration is a universe in canonical order with a legal initial membership. */
  lemma AcceptedConfig(config: NodeConfig)
    requires ValidConfig(config)
    ensures var u := SetupOf(config);
      && IsSorted(u.members) && NO_NODE !in u.members && config.id in u.members
      && ValidateMembership(u.initial, u.members)
  {
    var members := Sorted(config.members);
    SortedSorts(config.members);
    if config.voters == [] && config.learners == [] {
      SortedIsFixed(members);
      assert Sorted([]) == [];
    }
  }

  /**
   * WHICH CONFIGURATIONS ARE ACCEPTED, on the lists as given: the node is one of the members, which are
   * named once each; and either all vote, or some voters and learners are given, nobody twice, all of
   * them members.
   */
  lemma AcceptsExactly(config: NodeConfig)
    ensures ValidConfig(config) <==>
      && config.id in config.members && NO_NODE !in config.members && NoRepeats(config.members)
      && ((config.voters == [] && config.learners == [])
          || (config.voters != [] && NoRepeats(config.voters + config.learners)
              && (forall x | x in config.voters :: x in config.members) && (forall x | x in config.learners :: x in config.members)))
  {
    hide ValidateMembership, StableMembership, NoRepeats, IsSorted;
    var members := Sorted(config.members);
    SortedSorts(config.members);
    SameMembers(config.members, members);
    SortedOnce(config.members);
    if NO_NODE !in members {
      StableExactly(config.voters, config.learners, members);
    }
  }

  lemma SameMembers(a: seq<NodeID>, b: seq<NodeID>)
    requires multiset(a) == multiset(b)
    ensures forall x :: x in a <==> x in b
  {
    assert forall x :: (x in a <==> x in multiset(a)) && (x in b <==> x in multiset(b));
  }

  lemma SortedOnce(nodes: seq<NodeID>)
    ensures NoRepeats(nodes) <==> Distinct(Sorted(nodes))
  {
    SortedSorts(nodes);
    NoRepeatsCounted(nodes);
    NoRepeatsCounted(Sorted(nodes));
    SortedDistinct(Sorted(nodes));
  }

  /** AN ACCEPTED STATE is one a node can go on from: contiguous, legal, in term order, nothing committed missing. */
  lemma AcceptedState(config: NodeConfig, state: PersistentState)
    requires Validate(config, state) == None
    ensures config.applied <= state.commit <= state.LastIndex() <= MAX_UINT64
    ensures WF(SetupOf(config), Fresh(SetupOf(config), config.id, state, state.commit))
    ensures forall i | 0 <= i < |state.log| :: state.log[i].index == state.snapshot.index + i + 1 && 0 < state.log[i].term <= state.term
    ensures forall i | 0 < i < |state.log| :: state.log[i - 1].term <= state.log[i].term
    ensures state.log != [] ==> state.snapshot.term <= state.log[0].term
    ensures forall i | 0 <= i < |state.log| && state.log[i].kind.ConfigFinal? :: state.log[i].index <= state.commit + 1
    ensures state.snapshot.index > 0 ==> state.snapshot.members == Sorted(config.members) && 0 < state.snapshot.term <= state.term
  {
    hide Fold, TransitionMembership, Sorted, ValidConfig;
    var u := SetupOf(config);
    AcceptedVoters(config, state);
    forall i | 0 <= i < |state.log|
      ensures state.log[i].index == state.snapshot.index + i + 1 && 0 < state.log[i].term <= state.term
      ensures LegalAt(u, BaseMembership(u, state), state.log, i)
      ensures i > 0 ==> state.log[i - 1].term <= state.log[i].term
      ensures i == 0 ==> state.snapshot.term <= state.log[i].term
      ensures state.log[i].kind.ConfigFinal? ==> state.log[i].index <= state.commit + 1
    {
      assert ValidEntry(u, state, i);
    }
  }

  lemma AcceptedVoters(config: NodeConfig, state: PersistentState)
    requires ValidConfig(config) && ValidSnapshot(SetupOf(config), state)
    ensures |BaseMembership(SetupOf(config), state).voters| > 0
  {
    AcceptedConfig(config);
    SortedSorts(config.members);
    SortedIsFixed(Sorted(config.members));
    assert |StableMembership(Sorted(config.members), []).voters| == |Sorted(config.members)|;
  }

  // ----- the check itself -----

  method CheckSnapshot(u: Setup, state: PersistentState) returns (r: bool)
    ensures r == ValidSnapshot(u, state)
  {
    var s := state.snapshot;
    if s.index == 0 {
      return s.term == 0 && |s.members| == 0 && |s.data| == 0 && s.membership.IsZero();
    }
    if s.term == 0 || s.term > state.term || s.members != u.members {
      return false;
    }
    if !s.membership.IsZero() {
      r := IsValidMembership(s.membership, u.members);
    } else {
      r := u.initial == StableMembership(u.members, []);
    }
  }

  /** One pass over the log, carrying the previous term and the configuration so far. */
  method CheckLog(u: Setup, state: PersistentState) returns (r: bool)
    requires ValidSnapshot(u, state)
    ensures r <==> forall i {:trigger ValidEntry(u, state, i)} | 0 <= i < |state.log| :: ValidEntry(u, state, i)
  {
    var previousTerm := state.snapshot.term;
    var membership := BaseMembership(u, state);
    for i := 0 to |state.log|
      invariant forall k {:trigger ValidEntry(u, state, k)} | 0 <= k < i :: ValidEntry(u, state, k)
      invariant previousTerm == if i == 0 then state.snapshot.term else state.log[i - 1].term
      invariant membership == Fold(u, BaseMembership(u, state), state.log[..i])
    {
      var entry := state.log[i];
      assert state.log[..i + 1][..i] == state.log[..i];
      var next := TransitionMembership(membership, entry, u.members);
      if entry.index != state.snapshot.index + i + 1 || entry.term == 0 || entry.term > state.term
         || entry.term < previousTerm || (entry.kind.ConfigFinal? && state.commit < entry.index - 1) || next.None?
      {
        assert !ValidEntry(u, state, i);
        return false;
      }
      membership := next.value;
      previousTerm := entry.term;
    }
    return true;
  }

  method Check(config: NodeConfig, state: PersistentState) returns (error: Option<Error>)
    ensures error == Validate(config, state)
  {
    var members := Sorted(config.members);
    if config.id == NO_NODE || |members| == 0 || NO_NODE in members {
      return Some(InvalidConfig);
    }
    for i := 1 to |members|
      invariant forall k | 0 < k < i :: members[k] != members[k - 1]
    {
      if members[i] == members[i - 1] {
        return Some(InvalidConfig);
      }
    }
    var u := SetupOf(config);
    var valid := true;
    if config.voters != [] || config.learners != [] {
      valid := IsValidMembership(u.initial, members);
    }
    if config.id !in members || !valid {
      return Some(InvalidConfig);
    }
    var snapshotOK := CheckSnapshot(u, state);
    if !snapshotOK || state.LastIndex() > MAX_UINT64 {
      return Some(InvalidState);
    }
    var logOK := CheckLog(u, state);
    if !logOK || state.commit < state.snapshot.index || state.commit > state.LastIndex() || config.applied > state.commit {
      return Some(InvalidState);
    }
    return None;
  }
}

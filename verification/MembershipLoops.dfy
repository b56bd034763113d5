/** The loops of raft/membership.go, against the functions that specify them. */
module MembershipLoops {
  import opened RaftTypes
  import opened Configuration

  method MajorityMatches(voters: seq<NodeID>, matches: NodeID -> bool, ghost nodes: set<NodeID>) returns (r: bool)
    requires forall v | v in voters :: matches(v) <==> v in nodes
    ensures r == Majority(voters, nodes)
  {
    var count := 0;
    for i := 0 to |voters|
      invariant count == Count(voters[..i], nodes)
    {
      assert voters[..i + 1][..i] == voters[..i];
      assert voters[i] in voters;
      if matches(voters[i]) {
        count := count + 1;
      }
    }
    assert voters[..|voters|] == voters;
    r := count >= |voters| / 2 + 1;
  }

  method HasQuorum(m: Membership, matches: NodeID -> bool, ghost nodes: set<NodeID>) returns (r: bool)
    requires forall v | m.IsVoter(v) :: matches(v) <==> v in nodes
    ensures r == Quorum(m, nodes)
  {
    r := MajorityMatches(m.voters, matches, nodes);
    if r && |m.votersOutgoing| > 0 {
      r := MajorityMatches(m.votersOutgoing, matches, nodes);
    }
  }

  /** The voters of both sets, each once, in order: first collected, then sorted. */
  method VoterUnion(m: Membership) returns (r: seq<NodeID>)
    ensures r == Sorted(Extended(m.voters, m.votersOutgoing))
    ensures IsSorted(r) && forall v :: v in r <==> m.IsVoter(v)
  {
    var result := m.voters;
    for i := 0 to |m.votersOutgoing|
      invariant result == Extended(m.voters, m.votersOutgoing[..i])
    {
      assert m.votersOutgoing[..i + 1][..i] == m.votersOutgoing[..i];
      if m.votersOutgoing[i] !in result {
        result := result + [m.votersOutgoing[i]];
      }
    }
    assert m.votersOutgoing[..|m.votersOutgoing|] == m.votersOutgoing;
    r := Sorted(result);
    SortedSorts(result);
    forall v
      ensures v in r <==> m.IsVoter(v)
    {
      ExtendedMembers(m.voters, m.votersOutgoing, v);
      assert v in r <==> v in multiset(r);
      assert v in result <==> v in multiset(result);
    }
  }

  method IsCanonicalNodeSet(nodes: seq<NodeID>, universe: seq<NodeID>) returns (r: bool)
    ensures r == CanonicalNodeSet(nodes, universe)
  {
    if !IsSorted(nodes) {
      return false;
    }
    for i := 0 to |nodes|
      invariant forall k | 0 <= k < i ::
          nodes[k] != NO_NODE && nodes[k] in universe && (k > 0 ==> nodes[k] != nodes[k - 1])
    {
      if nodes[i] == NO_NODE || nodes[i] !in universe || (i > 0 && nodes[i] == nodes[i - 1]) {
        return false;
      }
    }
    return true;
  }

  method IsValidMembership(m: Membership, universe: seq<NodeID>) returns (r: bool)
    ensures r == ValidateMembership(m, universe)
  {
    if |m.voters| == 0 {
      return false;
    }
    var a := IsCanonicalNodeSet(m.voters, universe);
    var b := IsCanonicalNodeSet(m.votersOutgoing, universe);
    var c := IsCanonicalNodeSet(m.learners, universe);
    var d := IsCanonicalNodeSet(m.learnersNext, universe);
    if !a || !b || !c || !d || (!m.Joint() && |m.learnersNext| != 0) {
      return false;
    }
    for i := 0 to |m.voters|
      invariant forall k | 0 <= k < i :: m.voters[k] !in m.learners && m.voters[k] !in m.learnersNext
    {
      if m.voters[i] in m.learners || m.voters[i] in m.learnersNext {
        return false;
      }
    }
    for i := 0 to |m.votersOutgoing|
      invariant forall k | 0 <= k < i :: m.votersOutgoing[k] !in m.learners
    {
      if m.votersOutgoing[i] in m.learners {
        return false;
      }
    }
    return true;
  }
}

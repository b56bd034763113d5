/**
 * Voting configurations (raft/membership.go): canonical form, legal transitions, quorums, and the
 * reason reconfiguration is safe, which is that the quorums of adjacent configurations meet.
 */
module Configuration {
  import opened RaftTypes

  // ----- canonical node sets -----

  predicate IsSorted(nodes: seq<NodeID>) {
    forall i | 0 < i < |nodes| :: nodes[i - 1] <= nodes[i]
  }

  function InsertSorted(nodes: seq<NodeID>, node: NodeID): seq<NodeID> {
    if nodes == [] || node <= nodes[0] then [node] + nodes
    else [nodes[0]] + InsertSorted(nodes[1..], node)
  }

  /** `slices.Sort` on a fresh copy. */
  function Sorted(nodes: seq<NodeID>): seq<NodeID> {
    if nodes == [] then [] else InsertSorted(Sorted(nodes[1..]), nodes[0])
  }

  lemma {:induction false} InsertKeepsOrder(nodes: seq<NodeID>, node: NodeID)
    requires IsSorted(nodes)
    ensures IsSorted(InsertSorted(nodes, node))
    ensures multiset(InsertSorted(nodes, node)) == multiset(nodes) + multiset{node}
  {
    if nodes != [] && node > nodes[0] {
      var tail := nodes[1..];
      InsertKeepsOrder(tail, node);
      var r := InsertSorted(tail, node);
      assert nodes == [nodes[0]] + tail;
      assert r[0] == node || r[0] == nodes[1];
      assert InsertSorted(nodes, node) == [nodes[0]] + r;
      assert multiset([nodes[0]] + r) == multiset{nodes[0]} + multiset(r);
      assert multiset([nodes[0]] + tail) == multiset{nodes[0]} + multiset(tail);
    }
  }

  /** Sorting is a sorted permutation. */
  lemma {:induction false} SortedSorts(nodes: seq<NodeID>)
    ensures IsSorted(Sorted(nodes)) && multiset(Sorted(nodes)) == multiset(nodes)
  {
    if nodes != [] {
      SortedSorts(nodes[1..]);
      InsertKeepsOrder(Sorted(nodes[1..]), nodes[0]);
      assert nodes == [nodes[0]] + nodes[1..];
    }
  }

  lemma {:induction false} SortedIsFixed(nodes: seq<NodeID>)
    requires IsSorted(nodes)
    ensures Sorted(nodes) == nodes
  {
    if nodes != [] {
      SortedIsFixed(nodes[1..]);
      if |nodes| > 1 {
        assert nodes[0] <= nodes[1] == nodes[1..][0];
      }
    }
  }

  predicate NoRepeats(nodes: seq<NodeID>) {
    forall i, j | 0 <= i < j < |nodes| :: nodes[i] != nodes[j]
  }

  predicate CanonicalNodeSet(nodes: seq<NodeID>, universe: seq<NodeID>) {
    && IsSorted(nodes)
    && forall i | 0 <= i < |nodes| ::
        nodes[i] != NO_NODE && nodes[i] in universe && (i > 0 ==> nodes[i] != nodes[i - 1])
  }

  function StableMembership(voters: seq<NodeID>, learners: seq<NodeID>): Membership {
    Membership(Sorted(voters), [], Sorted(learners), [])
  }

  predicate ValidateMembership(m: Membership, universe: seq<NodeID>) {
    && |m.voters| > 0
    && CanonicalNodeSet(m.voters, universe)
    && CanonicalNodeSet(m.votersOutgoing, universe)
    && CanonicalNodeSet(m.learners, universe)
    && CanonicalNodeSet(m.learnersNext, universe)
    && (m.Joint() || |m.learnersNext| == 0)
    && (forall v | v in m.voters :: v !in m.learners && v !in m.learnersNext)
    && (forall v | v in m.votersOutgoing :: v !in m.learners)
  }

  /** The elements of `nodes` that are not in `excluded`, in order. */
  function Without(nodes: seq<NodeID>, excluded: seq<NodeID>): seq<NodeID> {
    if nodes == [] then []
    else if nodes[|nodes| - 1] in excluded then Without(nodes[..|nodes| - 1], excluded)
    else Without(nodes[..|nodes| - 1], excluded) + [nodes[|nodes| - 1]]
  }

  /** `nodes`, then whatever `more` adds to it, each once. */
  function Extended(nodes: seq<NodeID>, more: seq<NodeID>): seq<NodeID> {
    if more == [] then nodes
    else
      var r := Extended(nodes, more[..|more| - 1]);
      if more[|more| - 1] in r then r else r + [more[|more| - 1]]
  }

  lemma {:induction false} ExtendedMembers(nodes: seq<NodeID>, more: seq<NodeID>, v: NodeID)
    ensures v in Extended(nodes, more) <==> v in nodes || v in more
  {
    if more != [] {
      ExtendedMembers(nodes, more[..|more| - 1], v);
      assert more == more[..|more| - 1] + [more[|more| - 1]];
    }
  }

  // ----- canonical form of a request -----

  lemma {:induction false} NoRepeatsCounted(nodes: seq<NodeID>)
    ensures NoRepeats(nodes) <==> forall x :: multiset(nodes)[x] <= 1
  {
    if nodes != [] {
      var front, last := nodes[..|nodes| - 1], nodes[|nodes| - 1];
      NoRepeatsCounted(front);
      assert nodes == front + [last];
      assert forall x :: multiset(nodes)[x] == multiset(front)[x] + if x == last then 1 else 0;
      assert last in front <==> multiset(front)[last] > 0;
      if !(forall x :: multiset(front)[x] <= 1) {
        var x :| multiset(front)[x] > 1;
        assert multiset(nodes)[x] > 1;
        var i, j :| 0 <= i < j < |front| && front[i] == front[j];
        assert nodes[i] == nodes[j];
      } else if last in front {
        assert multiset(nodes)[last] > 1;
        var i :| 0 <= i < |front| && front[i] == last;
        assert nodes[i] == nodes[|nodes| - 1];
      }
    }
  }

  /** In a sorted listing without repetition each is greater than the one before, and the other way round. */
  lemma {:induction false} SortedDistinct(nodes: seq<NodeID>)
    requires IsSorted(nodes)
    ensures NoRepeats(nodes) <==> forall i | 0 < i < |nodes| :: nodes[i] != nodes[i - 1]
  {
    if forall i | 0 < i < |nodes| :: nodes[i] != nodes[i - 1] {
      forall i, j | 0 <= i < j < |nodes|
        ensures nodes[i] != nodes[j]
      {
        Ascends(nodes, i, j);
      }
    }
  }

  lemma {:induction false} Ascends(nodes: seq<NodeID>, i: nat, j: nat)
    requires IsSorted(nodes) && i < j < |nodes| && forall k | 0 < k < |nodes| :: nodes[k] != nodes[k - 1]
    ensures nodes[i] < nodes[j]
  {
    if i < j - 1 {
      Ascends(nodes, i, j - 1);
    }
    assert nodes[j - 1] <= nodes[j];
  }

  lemma SortedHolds(nodes: seq<NodeID>, x: NodeID)
    ensures x in Sorted(nodes) <==> x in nodes
  {
    SortedSorts(nodes);
    assert x in nodes <==> x in multiset(nodes);
    assert x in Sorted(nodes) <==> x in multiset(Sorted(nodes));
  }

  /** A node set, sorted, is canonical exactly when it has no repetition and is within the universe. */
  lemma CanonicalExactly(nodes: seq<NodeID>, universe: seq<NodeID>)
    requires NO_NODE !in universe
    ensures CanonicalNodeSet(Sorted(nodes), universe) <==> NoRepeats(nodes) && forall x | x in nodes :: x in universe
  {
    hide Sorted;
    var s := Sorted(nodes);
    assert NoRepeats(nodes) <==> NoRepeats(s) by {
      SortedSorts(nodes);
      NoRepeatsCounted(nodes);
      NoRepeatsCounted(s);
    }
    assert IsSorted(s) by { SortedSorts(nodes); }
    SortedDistinct(s);
    forall x
      ensures x in s <==> x in nodes
    {
      SortedHolds(nodes, x);
    }
    if forall x | x in nodes :: x in universe {
      assert forall i | 0 <= i < |s| :: s[i] in s;
    }
  }

  /** A STABLE CONFIGURATION IS LEGAL exactly when it has a voter, repeats nobody, and keeps within the universe. */
  lemma StableExactly(voters: seq<NodeID>, learners: seq<NodeID>, universe: seq<NodeID>)
    requires NO_NODE !in universe
    ensures ValidateMembership(StableMembership(voters, learners), universe) <==>
            && voters != [] && NoRepeats(voters + learners)
            && (forall x | x in voters :: x in universe) && (forall x | x in learners :: x in universe)
  {
    hide CanonicalNodeSet;
    SortedSorts(voters);
    SortedSorts(learners);
    CanonicalExactly(voters, universe);
    CanonicalExactly(learners, universe);
    NothingCanonical(universe);
    assert forall x :: x in voters <==> x in multiset(voters);
    assert forall x :: x in learners <==> x in multiset(learners);
    assert forall x :: x in Sorted(voters) <==> x in multiset(Sorted(voters));
    assert forall x :: x in Sorted(learners) <==> x in multiset(Sorted(learners));
    assert |voters| == |multiset(voters)| == |multiset(Sorted(voters))| == |Sorted(voters)|;
    Apart(voters, learners);
  }

  lemma NothingCanonical(universe: seq<NodeID>)
    ensures CanonicalNodeSet([], universe)
  {
  }

  lemma Apart(a: seq<NodeID>, b: seq<NodeID>)
    ensures NoRepeats(a + b) <==> NoRepeats(a) && NoRepeats(b) && forall x | x in a :: x !in b
  {
    var all := a + b;
    if NoRepeats(all) {
      forall i, j | 0 <= i < j < |a|
        ensures a[i] != a[j]
      {
        assert all[i] != all[j];
      }
      forall i, j | 0 <= i < j < |b|
        ensures b[i] != b[j]
      {
        assert all[|a| + i] != all[|a| + j];
      }
      forall i, j | 0 <= i < |a| && 0 <= j < |b|
        ensures a[i] != b[j]
      {
        assert all[i] != all[|a| + j];
      }
    }
    if NoRepeats(a) && NoRepeats(b) && forall x | x in a :: x !in b {
      forall i, j | 0 <= i < j < |all|
        ensures all[i] != all[j]
      {
        if i < |a| <= j {
          assert all[i] in a && all[j] in b;
        }
      }
    }
  }

  // ----- transitions -----

  function TransitionMembership(current: Membership, entry: Entry, universe: seq<NodeID>): Option<Membership> {
    var next := entry.membership;
    match entry.kind
    case ConfigJoint =>
      if |entry.data| != 0 || current.Joint() || !next.Joint() || !ValidateMembership(next, universe)
         || next.votersOutgoing != current.voters
         || next.learners != Without(next.learnersNext, next.votersOutgoing)
      then None
      else Some(next)
    case ConfigFinal =>
      if |entry.data| != 0 || !current.Joint() || next.Joint() || !ValidateMembership(next, universe)
         || next.voters != current.voters || next.learners != current.learnersNext
      then None
      else Some(next)
    case _ =>
      if !next.IsZero() then None else Some(current)
  }

  /** One step of the walk over a log; an illegal transition never survives `ChainOK`. */
  function NextMembership(u: Setup, current: Membership, entry: Entry): Membership {
    if !entry.IsConfig() then current
    else match TransitionMembership(current, entry, u.members)
         case Some(next) => next
         case None => current
  }

  /** The configuration in force after `entries`, starting from `m`. */
  function Fold(u: Setup, m: Membership, entries: seq<Entry>): Membership {
    if entries == [] then m
    else NextMembership(u, Fold(u, m, entries[..|entries| - 1]), entries[|entries| - 1])
  }

  predicate LegalAt(u: Setup, m: Membership, entries: seq<Entry>, i: nat)
    requires i < |entries|
  {
    TransitionMembership(Fold(u, m, entries[..i]), entries[i], u.members).Some?
  }

  /** Every entry is a legal transition from the configuration before it. */
  predicate ChainOK(u: Setup, m: Membership, entries: seq<Entry>) {
    forall i {:trigger LegalAt(u, m, entries, i)} | 0 <= i < |entries| :: LegalAt(u, m, entries, i)
  }

  /** The configuration at the end of a log that starts at index one. */
  function Config(u: Setup, log: seq<Entry>): Membership {
    Fold(u, u.initial, log)
  }

  lemma {:induction false} FoldConcat(u: Setup, m: Membership, a: seq<Entry>, b: seq<Entry>)
    ensures Fold(u, m, a + b) == Fold(u, Fold(u, m, a), b)
  {
    if b == [] {
      assert a + b == a;
    } else {
      var c := b[..|b| - 1];
      FoldConcat(u, m, a, c);
      assert (a + b)[..|a + b| - 1] == a + c;
    }
  }

  lemma ChainPrefix(u: Setup, m: Membership, entries: seq<Entry>, n: nat)
    requires n <= |entries| && ChainOK(u, m, entries)
    ensures ChainOK(u, m, entries[..n])
  {
    forall i | 0 <= i < n
      ensures LegalAt(u, m, entries[..n], i)
    {
      assert LegalAt(u, m, entries, i);
      assert entries[..n][..i] == entries[..i];
    }
  }

  lemma LegalInConcat(u: Setup, m: Membership, a: seq<Entry>, b: seq<Entry>, i: nat)
    requires i < |a + b|
    ensures i < |a| ==> LegalAt(u, m, a + b, i) == LegalAt(u, m, a, i)
    ensures i >= |a| ==> LegalAt(u, m, a + b, i) == LegalAt(u, Fold(u, m, a), b, i - |a|)
  {
    if i < |a| {
      assert (a + b)[..i] == a[..i];
    } else {
      assert (a + b)[..i] == a + b[..i - |a|];
      FoldConcat(u, m, a, b[..i - |a|]);
    }
  }

  lemma ChainConcat(u: Setup, m: Membership, a: seq<Entry>, b: seq<Entry>)
    ensures ChainOK(u, m, a + b) <==> ChainOK(u, m, a) && ChainOK(u, Fold(u, m, a), b)
  {
    forall i | 0 <= i < |a + b|
      ensures i < |a| ==> LegalAt(u, m, a + b, i) == LegalAt(u, m, a, i)
      ensures i >= |a| ==> LegalAt(u, m, a + b, i) == LegalAt(u, Fold(u, m, a), b, i - |a|)
    {
      LegalInConcat(u, m, a, b, i);
    }
    if ChainOK(u, m, a + b) {
      forall i | 0 <= i < |a| ensures LegalAt(u, m, a, i) { assert LegalAt(u, m, a + b, i); }
      forall i | 0 <= i < |b| ensures LegalAt(u, Fold(u, m, a), b, i) { assert LegalAt(u, m, a + b, |a| + i); }
    }
  }

  /** Legal transitions never leave a configuration without voters. */
  lemma {:induction false} FoldHasVoters(u: Setup, m: Membership, log: seq<Entry>)
    requires ChainOK(u, m, log) && |m.voters| > 0
    ensures |Fold(u, m, log).voters| > 0
  {
    if log != [] {
      ChainPrefix(u, m, log, |log| - 1);
      FoldHasVoters(u, m, log[..|log| - 1]);
      assert LegalAt(u, m, log, |log| - 1);
    }
  }

  // ----- quorums -----

  function Count(voters: seq<NodeID>, nodes: set<NodeID>): nat {
    if voters == [] then 0
    else Count(voters[..|voters| - 1], nodes) + (if voters[|voters| - 1] in nodes then 1 else 0)
  }

  predicate Majority(voters: seq<NodeID>, nodes: set<NodeID>) {
    Count(voters, nodes) >= |voters| / 2 + 1
  }

  predicate Quorum(m: Membership, nodes: set<NodeID>) {
    Majority(m.voters, nodes) && (|m.votersOutgoing| == 0 || Majority(m.votersOutgoing, nodes))
  }

  lemma {:induction false} CountMonotone(voters: seq<NodeID>, a: set<NodeID>, b: set<NodeID>)
    requires forall v | v in voters && v in a :: v in b
    ensures Count(voters, a) <= Count(voters, b)
  {
    if voters != [] {
      CountMonotone(voters[..|voters| - 1], a, b);
    }
  }

  lemma QuorumMonotone(m: Membership, a: set<NodeID>, b: set<NodeID>)
    requires Quorum(m, a)
    requires forall v | v in a && m.IsVoter(v) :: v in b
    ensures Quorum(m, b)
  {
    CountMonotone(m.voters, a, b);
    CountMonotone(m.votersOutgoing, a, b);
  }

  lemma {:induction false} Pigeonhole(voters: seq<NodeID>, a: set<NodeID>, b: set<NodeID>) returns (v: NodeID)
    requires Count(voters, a) + Count(voters, b) > |voters|
    ensures v in voters && v in a && v in b
  {
    var last := voters[|voters| - 1];
    if last in a && last in b {
      v := last;
    } else {
      v := Pigeonhole(voters[..|voters| - 1], a, b);
    }
  }

  function Among(voters: seq<NodeID>, nodes: set<NodeID>): set<NodeID> {
    set v | v in voters && v in nodes
  }

  lemma AmongSnoc(front: seq<NodeID>, last: NodeID, nodes: set<NodeID>)
    requires last !in front
    ensures |Among(front + [last], nodes)| == |Among(front, nodes)| + if last in nodes then 1 else 0
  {
    assert Among(front + [last], nodes) == Among(front, nodes) + if last in nodes then {last} else {};
  }

  lemma {:induction false} CountIsSize(voters: seq<NodeID>, nodes: set<NodeID>)
    requires NoRepeats(voters)
    ensures Count(voters, nodes) == |Among(voters, nodes)|
  {
    if voters == [] {
      assert Among(voters, nodes) == {};
    } else {
      var front, last := voters[..|voters| - 1], voters[|voters| - 1];
      assert voters == front + [last];
      CountIsSize(front, nodes);
      AmongSnoc(front, last, nodes);
    }
  }

  /** A QUORUM, exactly: more than half of the voters, and during a change more than half of the outgoing ones too. */
  lemma QuorumExactly(m: Membership, nodes: set<NodeID>)
    requires NoRepeats(m.voters) && NoRepeats(m.votersOutgoing)
    ensures Quorum(m, nodes) <==>
      && 2 * |Among(m.voters, nodes)| > |m.voters|
      && (m.votersOutgoing != [] ==> 2 * |Among(m.votersOutgoing, nodes)| > |m.votersOutgoing|)
  {
    CountIsSize(m.voters, nodes);
    CountIsSize(m.votersOutgoing, nodes);
  }

  /** `next` is `base`, or what one configuration entry can turn `base` into. */
  predicate Adjacent(base: Membership, next: Membership) {
    || next == base
    || (!base.Joint() && next.Joint() && next.votersOutgoing == base.voters)
    || (base.Joint() && !next.Joint() && next.voters == base.voters)
  }

  /** Whatever one configuration entry does, a quorum afterwards holds a majority of the voters before. */
  lemma QuorumHoldsBaseMajority(base: Membership, next: Membership, nodes: set<NodeID>)
    requires Adjacent(base, next) && Quorum(next, nodes)
    ensures Majority(base.voters, nodes)
  {
  }

  /** Two quorums one configuration entry away from a common configuration share a voter. */
  lemma AdjacentQuorumsMeet(base: Membership, m1: Membership, m2: Membership, a: set<NodeID>, b: set<NodeID>)
    returns (v: NodeID)
    requires Adjacent(base, m1) && Adjacent(base, m2)
    requires Quorum(m1, a) && Quorum(m2, b)
    ensures v in a && v in b
  {
    QuorumHoldsBaseMajority(base, m1, a);
    QuorumHoldsBaseMajority(base, m2, b);
    v := Pigeonhole(base.voters, a, b);
  }

  /** At most one configuration entry leaves the configuration adjacent. */
  lemma {:induction false} OneConfigIsAdjacent(u: Setup, m: Membership, entries: seq<Entry>)
    requires ChainOK(u, m, entries)
    requires forall i, j | 0 <= i < j < |entries| :: !(entries[i].IsConfig() && entries[j].IsConfig())
    ensures Adjacent(m, Fold(u, m, entries))
    ensures (forall i | 0 <= i < |entries| :: !entries[i].IsConfig()) ==> Fold(u, m, entries) == m
  {
    if entries != [] {
      var front := entries[..|entries| - 1];
      ChainPrefix(u, m, entries, |entries| - 1);
      OneConfigIsAdjacent(u, m, front);
      var last := entries[|entries| - 1];
      assert LegalAt(u, m, entries, |entries| - 1);
      if last.IsConfig() {
        forall i | 0 <= i < |front|
          ensures !front[i].IsConfig()
        {
          assert front[i] == entries[i];
        }
      }
    }
  }
}

/**
 * Runs that reach the two corners: a store that cannot be recovered from, and two snapshots of one
 * index with different data.  One voter leads, one learner follows.
 */
module Corners {
  import opened RaftTypes
  import opened Configuration
  import opened NodeSpec
  import opened NodeRefinement
  import opened Validation
  import opened ClusterSpec
  import opened ClusterTheorems
  import opened Vouching
  import opened Application
  import opened ApplicationTheorems
  import opened Watching
  import opened RaftHistory
  import opened ClusterInvariant
  import opened ClusterSafety
  import opened CatchUp

  const M0: Membership := Membership([1], [], [2], [])
  const U: Setup := Setup([1, 2], M0)
  const E1: Entry := Entry(1, 1, Noop, [], ZERO_MEMBERSHIP)

  function E2(c: Bytes): Entry {
    Entry(2, 1, Command, c, ZERO_MEMBERSHIP)
  }

  function Snap(index: nat, data: Bytes): Snapshot {
    Snapshot(index, 1, [1, 2], data, M0)
  }

  lemma UniverseIsFine()
    ensures SetupOK(U)
  {
  }

  // ----- the leader -----

  function LeaderWith(commit: nat, snapshot: Snapshot, log: seq<Entry>, sent: nat): Core {
    Core(1, Leader, 1, PersistentState(1, 1, commit, snapshot, log), commit, M0, {1},
         Filled([1, 2], 1), Filled([1, 2], 0)[1 := commit], map[2 := sent])
  }

  function NewNode(id: NodeID): Core {
    Core(id, Follower, NO_NODE, EMPTY_STATE, 0, M0, {}, map[], map[], map[])
  }

  lemma SoleVoterIsQuorum(nodes: set<NodeID>)
    requires 1 in nodes
    ensures Quorum(M0, nodes)
  {
    assert Count([], nodes) == 0;
    assert [1][..0] == [];
  }

  lemma NoConfigs(m: Membership, e: Entry)
    requires !e.IsConfig()
    ensures Fold(U, m, [e]) == m && Fold(U, m, []) == m
  {
    assert [e][..0] == [];
  }

  lemma Commits(n: Core, k: nat)
    requires n.state.commit < k == LastIndex(n) && TermAt(n.state, k) == n.state.term
    requires Quorum(MembershipAt(U, n.state, k), MatchedNodes(n, k))
    ensures HighestCommittable(U, n, k) == k
  {
  }

  lemma OneUnapplied(n: Core)
    requires Applicable(n) && n.applied + 1 == n.state.commit
    ensures Unapplied(n) == [Apply(n.state.log[n.applied - Boundary(n)])]
  {
    assert Unapplied(n)[0] == Apply(n.state.log[n.applied - Boundary(n)]);
  }

  /** A lone voter commits its own new entry at once. */
  lemma CommitsAlone(n: Core, k: nat)
    requires n.id == 1 && n.membership == M0 && n.state.commit + 1 == n.applied + 1 == k == LastIndex(n) && Boundary(n) < k
    requires TermAt(n.state, k) == n.state.term && MembershipAt(U, n.state, k) == M0 && 1 in n.matchIndex && n.matchIndex[1] == k
    ensures AdvanceCommit(U, n) ==
            (n.(state := n.state.(commit := k), applied := k), [Apply(n.state.log[k - 1 - Boundary(n)])])
  {
    hide Quorum, TermAt, MembershipAt;
    assert 1 in MatchedNodes(n, k);
    SoleVoterIsQuorum(MatchedNodes(n, k));
    Commits(n, k);
    OneUnapplied(n.(state := n.state.(commit := k)));
  }

  /** What a broadcast to the two members is. */
  lemma BroadcastToTwo(n: Core)
    requires n.id == 1
    ensures BroadcastAppend(n, [1, 2]) == (Sequenced(n, 2), [Send(AppendFor(n, 2))])
  {
    assert [1, 2][..1] == [1] && [1][..0] == [];
    assert BroadcastAppend(n, []) == (n, []);
    assert BroadcastAppend(n, [1]) == (n, []);
    assert [1, 2][1] == 2 && [] + [Send(AppendFor(n, 2))] == [Send(AppendFor(n, 2))];
  }

  const HELLO: Message := AppendEntries(1, 2, 1, 1, 0, 0, [E1], 1)

  /** The new leader, before it sent anything. */
  function Crown(): Core {
    LeaderWith(1, NO_SNAPSHOT, [E1], 1).(appendSequence := map[])
  }

  lemma CommitsNoop(n: Core)
    requires n == Candidacy(NewNode(1))
    ensures AdvanceCommit(U, Crowned(U, n)) == (Crown(), [Apply(E1)])
  {
    hide AdvanceCommit, Quorum, TransitionMembership, Filled;
    var crowned := Crowned(U, n);
    assert [] + [E1] == [E1];
    NoConfigs(M0, E1);
    assert crowned.state.log[..1] == [E1];
    assert MembershipAt(U, crowned.state, 1) == M0;
    CommitsAlone(crowned, 1);
  }

  lemma Greets()
    ensures Crown().id == 1 && AppendFor(Crown(), 2) == HELLO && Sequenced(Crown(), 2) == LeaderWith(1, NO_SNAPSHOT, [E1], 1)
  {
    hide Filled;
    assert Crown().state.log[0..] == [E1];
  }

  lemma CrownsAlone(n: Core)
    requires n == Candidacy(NewNode(1))
    ensures BecomeLeader(U, n) ==
            Done(LeaderWith(1, NO_SNAPSHOT, [E1], 1), true, [ResetHeartbeatTimer, Apply(E1), Send(HELLO)])
  {
    hide AdvanceCommit, BroadcastAppend, AppendFor, Sequenced, LeaderWith, Crowned;
    CommitsNoop(n);
    Greets();
    BroadcastToTwo(Crown());
    assert [ResetHeartbeatTimer] + [Apply(E1)] + [Send(HELLO)] == [ResetHeartbeatTimer, Apply(E1), Send(HELLO)];
  }

  lemma Elects()
    ensures React(U, NewNode(1), ElectionTimeout) ==
            Done(LeaderWith(1, NO_SNAPSHOT, [E1], 1), true, [ResetElectionTimer, ResetHeartbeatTimer, Apply(E1), Send(HELLO)])
  {
    hide BecomeLeader, Quorum, LeaderWith;
    SoleVoterIsQuorum({1});
    CrownsAlone(Candidacy(NewNode(1)));
    assert [ResetElectionTimer] + [ResetHeartbeatTimer, Apply(E1), Send(HELLO)]
        == [ResetElectionTimer, ResetHeartbeatTimer, Apply(E1), Send(HELLO)];
  }

  lemma CompactsFirst(data: Bytes)
    ensures React(U, LeaderWith(1, NO_SNAPSHOT, [E1], 1), TakeSnapshot(1, data)) ==
            Done(LeaderWith(1, Snap(1, data), [], 1), true, [])
  {
    var n := LeaderWith(1, NO_SNAPSHOT, [E1], 1);
    NoConfigs(M0, E1);
    assert n.state.log[..1] == [E1];
    assert MembershipAt(U, n.state, 1) == M0;
  }

  function Ship(sequence: nat, s: Snapshot): Message {
    InstallSnapshot(1, 2, 1, sequence, s)
  }

  lemma Ships(index: nat, data: Bytes, sent: nat)
    requires index > 0
    ensures React(U, LeaderWith(index, Snap(index, data), [], sent), HeartbeatTimeout) ==
            Done(LeaderWith(index, Snap(index, data), [], sent + 1), false, [ResetHeartbeatTimer, Send(Ship(sent + 1, Snap(index, data)))])
  {
    var n := LeaderWith(index, Snap(index, data), [], sent);
    BroadcastToTwo(n);
    assert [ResetHeartbeatTimer] + [Send(Ship(sent + 1, Snap(index, data)))] == [ResetHeartbeatTimer, Send(Ship(sent + 1, Snap(index, data)))];
  }

  lemma NothingUncommitted(n: Core)
    requires n.state.log == []
    ensures !HasUncommittedConfiguration(n)
  {
  }

  lemma ProposalCommits(data: Bytes, c: Bytes, sent: nat)
    ensures AdvanceCommit(U, Appended(LeaderWith(1, Snap(1, data), [], sent), E2(c))) ==
            (LeaderWith(2, Snap(1, data), [E2(c)], sent), [Apply(E2(c))])
  {
    hide AdvanceCommit, Quorum, TransitionMembership, Filled;
    var appended := Appended(LeaderWith(1, Snap(1, data), [], sent), E2(c));
    assert [] + [E2(c)] == [E2(c)];
    NoConfigs(M0, E2(c));
    assert appended.state.log[..1] == [E2(c)];
    assert MembershipAt(U, appended.state, 2) == M0;
    CommitsAlone(appended, 2);
    assert Filled([1, 2], 0)[1 := 1][1 := 2] == Filled([1, 2], 0)[1 := 2];
  }

  lemma Proposes(data: Bytes, c: Bytes, sent: nat)
    ensures React(U, LeaderWith(1, Snap(1, data), [], sent), Propose(c)) ==
            Done(LeaderWith(2, Snap(1, data), [E2(c)], sent + 1), true, [Apply(E2(c)), Send(Ship(sent + 1, Snap(1, data)))])
  {
    hide AdvanceCommit, BroadcastAppend, Appended, Filled, HasUncommittedConfiguration;
    NothingUncommitted(LeaderWith(1, Snap(1, data), [], sent));
    var led := LeaderWith(2, Snap(1, data), [E2(c)], sent);
    ProposalCommits(data, c, sent);
    BroadcastToTwo(led);
    assert [Apply(E2(c))] + [Send(Ship(sent + 1, Snap(1, data)))] == [Apply(E2(c)), Send(Ship(sent + 1, Snap(1, data)))];
  }

  lemma CompactsSecond(older: Bytes, data: Bytes, c: Bytes, sent: nat)
    ensures React(U, LeaderWith(2, Snap(1, older), [E2(c)], sent), TakeSnapshot(2, data)) ==
            Done(LeaderWith(2, Snap(2, data), [], sent), true, [])
  {
    var n := LeaderWith(2, Snap(1, older), [E2(c)], sent);
    NoConfigs(M0, E2(c));
    assert n.state.log[..1] == [E2(c)];
    assert MembershipAt(U, n.state, 2) == M0;
  }

  // ----- the learner -----

  function LearnerWith(commit: nat, snapshot: Snapshot, log: seq<Entry>): Core {
    Core(2, Follower, 1, PersistentState(1, NO_NODE, commit, snapshot, log), commit, M0, {}, map[], map[], map[])
  }

  lemma Installs(n: Core, sequence: nat, index: nat, data: Bytes)
    requires n == NewNode(2) || (n.state.snapshot.index == n.state.commit && n == LearnerWith(n.state.commit, n.state.snapshot, []))
    requires n.state.commit < index < MAX_UINT64
    ensures React(U, n, Receive(Ship(sequence, Snap(index, data)))) ==
            Done(LearnerWith(index, Snap(index, data), []), true,
                 [ResetElectionTimer, RestoreSnapshot(Snap(index, data)), Send(InstallSnapshotResponse(2, 1, 1, sequence, true, index))])
  {
    UniverseIsFine();
    NoConfigs(M0, E1);
  }

  lemma Follows()
    ensures React(U, NewNode(2), Receive(HELLO)) ==
            Done(LearnerWith(1, NO_SNAPSHOT, [E1]), true,
                 [ResetElectionTimer, Apply(E1), Send(AppendEntriesResponse(2, 1, 1, 1, true, 1, 0))])
  {
    var n := BecomeFollower(BecomeFollower(NewNode(2), 1, NO_NODE), 1, 1);
    assert n == LearnerWith(0, NO_SNAPSHOT, []);
    assert FollowLeader(BecomeFollower(NewNode(2), 1, NO_NODE), HELLO) == n;
    NoConfigs(M0, E1);
    assert [E1][..0] == [];
    assert n.state.log[..0] == [] && MembershipAt(U, n.state, 0) == M0;
    assert ValidIncoming(U, HELLO, M0, 0);
    assert FirstInvalid(U, HELLO, M0, 0) == FirstInvalid(U, HELLO, M0, 1) == 1;
    assert FirstNew(n.state, 0, [E1], 0) == 0;
    assert Merge(n.state, 0, [E1]) == Some([E1]) by { assert [] + [E1][0..] == [E1]; }
    var n1 := n.(state := n.state.(log := [E1]));
    assert n1.state.log[..1] == [E1];
    assert Refresh(U, n1) == n1;
    assert ConfigsLegal(U, BaseMembership(U, n1.state), [E1]);
    OneUnapplied(n1.(state := n1.state.(commit := 1)));
    assert AcceptEntries(U, n, HELLO, [E1]) == Done(LearnerWith(1, NO_SNAPSHOT, [E1]), true,
      [ResetElectionTimer] + [Apply(E1)] + [Send(AppendEntriesResponse(2, 1, 1, 1, true, 1, 0))]);
    assert [ResetElectionTimer] + [Apply(E1)] + [Send(AppendEntriesResponse(2, 1, 1, 1, true, 1, 0))]
        == [ResetElectionTimer, Apply(E1), Send(AppendEntriesResponse(2, 1, 1, 1, true, 1, 0))];
  }

  lemma LearnerCompacts(data: Bytes)
    ensures React(U, LearnerWith(1, NO_SNAPSHOT, [E1]), TakeSnapshot(1, data)) ==
            Done(LearnerWith(1, Snap(1, data), []), true, [])
  {
    var n := LearnerWith(1, NO_SNAPSHOT, [E1]);
    NoConfigs(M0, E1);
    assert n.state.log[..1] == [E1];
    assert MembershipAt(U, n.state, 1) == M0;
  }

  // ----- the turns of a process -----

  /** A process that is up, with nothing outstanding. */
  function Resting(n: Core, token: nat, store: Store): Process {
    Up(Node(n, token, None), ClusterSpec.Idle, [], false, store)
  }

  function Busy(n: Core, token: nat, effects: seq<Effect>, store: Store): Process {
    Up(Node(n, token + 1, Some(PendingWrite(token, effects))), Writing(token, n.state), [], false, store)
  }

  ghost predicate Writes(n: Core, token: nat, input: Input, n1: Core, effects: seq<Effect>) {
    && token > 0 && Current(n, input) && !input.Persisted? && Boundary(n) <= n.applied
    && React(U, n, input) == Done(n1, true, effects)
  }

  /** An input that needs a write, its completion, and its acknowledgement. */
  lemma WriteTurns(n: Core, token: nat, store: Store, input: Input, n1: Core, effects: seq<Effect>)
    requires Writes(n, token, input, n1, effects)
    requires Boundary(n1) <= n1.applied
    requires Perform(Resting(n1, token + 1, store.(state := n1.state)), effects).fault.None?
    ensures Submit(U, Resting(n, token, store), input) == Turn(Busy(n1, token, effects, store), [], None)
    ensures Acknowledge(U, CompleteWrite(Busy(n1, token, effects, store))) ==
            Perform(Resting(n1, token + 1, store.(state := n1.state)), effects)
  {
    hide React, Perform;
    DirtyTurn(U, Resting(n, token, store), input);
    var p := Resting(n1, token + 1, store.(state := n1.state));
    PerformKeeps(p, effects);
    var t := Perform(p, effects);
    assert t.sent + [] == t.sent;
  }

  lemma BootsEmpty(id: NodeID)
    requires id == 1 || id == 2
    ensures Boot(U, id, EMPTY_STORE) == Turn(Resting(NewNode(id), 1, EMPTY_STORE), [], None)
  {
    NoConfigs(M0, E1);
    assert EMPTY_STATE.log[..0] == [];
    var n := NewNode(id);
    assert Fresh(U, id, EMPTY_STATE, 0) == n && ValidState(U, EMPTY_STATE, 0);
    var p := Resting(n, 1, EMPTY_STORE);
    assert Unapplied(n) == [];
    if id == 1 {
      assert Start(n).1 == [ResetElectionTimer];
      assert [ResetElectionTimer][..0] == [] && Perform(p, []) == Turn(p, [], None);
    } else {
      assert Start(n).1 == [];
    }
  }

  /** The store after the leader's first write: one entry applied. */
  function Led(state: PersistentState): Store {
    Store(state, 1, [E1], NO_SNAPSHOT)
  }

  lemma PerformsElection(n: Core, state: PersistentState)
    ensures Perform(Resting(n, 2, EMPTY_STORE.(state := state)), [ResetElectionTimer, ResetHeartbeatTimer, Apply(E1), Send(HELLO)]) ==
            Turn(Resting(n, 2, Led(state)), [HELLO], None)
  {
    var p := Resting(n, 2, EMPTY_STORE.(state := state));
    var es := [ResetElectionTimer, ResetHeartbeatTimer, Apply(E1), Send(HELLO)];
    assert es[..3] == [ResetElectionTimer, ResetHeartbeatTimer, Apply(E1)] && es[..3][..2] == [ResetElectionTimer, ResetHeartbeatTimer];
    assert es[..3][..2][..1] == [ResetElectionTimer] && es[..3][..2][..1][..0] == [];
    assert Perform(p, []) == Turn(p, [], None) && Perform(p, es[..3][..2][..1]) == Turn(p, [], None);
    assert Perform(p, es[..3][..2]) == Turn(p, [], None);
    assert Perform(p, es[..3]) == Turn(Resting(n, 2, Led(state)), [], None) by { assert [] + [E1] == [E1]; }
    assert [] + [HELLO] == [HELLO];
  }

  // ----- two snapshots of one index with different data -----

  lemma More(run: seq<Cluster>, actions: seq<Action>, action: Action, t: Turn) returns (r: seq<Cluster>, a: seq<Action>)
    requires Performs(U, run, actions)
    requires var c := run[|run| - 1]; Enabled(c, action) && TurnOf(U, c, action) == t
    ensures Performs(U, r, a) && |r| == |run| + 1
    ensures var c, c' := run[|run| - 1], r[|r| - 1];
      c'.processes == c.processes[Actor(action) := t.process] && c'.network == c.network + set m | m in t.sent
  {
    hide TurnOf, Enabled;
    var c := run[|run| - 1];
    r, a := run + [After(U, c, action)], actions + [action];
    forall i | 0 <= i < |a|
      ensures Enabled(r[i], a[i]) && r[i + 1] == After(U, r[i], a[i])
    {
      if i < |actions| { assert a[i] == actions[i]; }
    }
  }

  /** An input that needs a write, and its completion. */
  lemma Stores(run: seq<Cluster>, actions: seq<Action>, action: Action, input: Input, n: Core, token: nat, store: Store, n1: Core,
               effects: seq<Effect>) returns (r: seq<Cluster>, a: seq<Action>)
    requires Performs(U, run, actions) && Enabled(run[|run| - 1], action)
    requires action == Ask(Actor(action), input) || (action.Deliver? && input == Receive(action.message))
    requires run[|run| - 1].processes[Actor(action)] == Resting(n, token, store)
    requires Writes(n, token, input, n1, effects) && Boundary(n1) <= n1.applied
    requires Perform(Resting(n1, token + 1, store.(state := n1.state)), effects).fault.None?
    ensures Performs(U, r, a) && |r| == |run| + 2
    ensures var c, c' := run[|run| - 1], r[|r| - 1];
      && c'.processes == c.processes[Actor(action) := CompleteWrite(Busy(n1, token, effects, store))]
      && c'.network == c.network
  {
    hide Performs, Submit, Perform, Writes;
    WriteTurns(n, token, store, input, n1, effects);
    r, a := More(run, actions, action, Turn(Busy(n1, token, effects, store), [], None));
    r, a := More(r, a, WriteDone(Actor(action)), Turn(CompleteWrite(Busy(n1, token, effects, store)), [], None));
  }

  lemma Acknowledges(run: seq<Cluster>, actions: seq<Action>, id: NodeID, n: Core, token: nat, store: Store, input: Input, n1: Core,
                     effects: seq<Effect>, t: Turn) returns (r: seq<Cluster>, a: seq<Action>)
    requires Performs(U, run, actions) && id in run[|run| - 1].processes
    requires run[|run| - 1].processes[id] == CompleteWrite(Busy(n1, token, effects, store))
    requires Writes(n, token, input, n1, effects) && Boundary(n1) <= n1.applied
    requires t == Perform(Resting(n1, token + 1, store.(state := n1.state)), effects) && t.fault.None?
    ensures Performs(U, r, a) && |r| == |run| + 1
    ensures var c, c' := run[|run| - 1], r[|r| - 1];
      c'.processes == c.processes[id := t.process] && c'.network == c.network + set m | m in t.sent
  {
    hide Performs, Perform, Writes, Submit;
    WriteTurns(n, token, store, input, n1, effects);
    r, a := More(run, actions, AckDone(id), t);
  }

  lemma Starts(run: seq<Cluster>, actions: seq<Action>, id: NodeID) returns (r: seq<Cluster>, a: seq<Action>)
    requires Performs(U, run, actions) && (id == 1 || id == 2)
    requires id in run[|run| - 1].processes && run[|run| - 1].processes[id] == Down(EMPTY_STORE)
    ensures Performs(U, r, a)
    ensures var c, c' := run[|run| - 1], r[|r| - 1];
      c'.processes == c.processes[id := Resting(NewNode(id), 1, EMPTY_STORE)] && c'.network == c.network
  {
    hide Performs, Boot;
    BootsEmpty(id);
    r, a := More(run, actions, Restart(id), Turn(Resting(NewNode(id), 1, EMPTY_STORE), [], None));
  }

  lemma PerformsFollowing(n: Core, state: PersistentState, response: Message)
    ensures Perform(Resting(n, 2, EMPTY_STORE.(state := state)), [ResetElectionTimer, Apply(E1), Send(response)]) ==
            Turn(Resting(n, 2, Led(state)), [response], None)
  {
    var p := Resting(n, 2, EMPTY_STORE.(state := state));
    var es := [ResetElectionTimer, Apply(E1), Send(response)];
    assert es[..2] == [ResetElectionTimer, Apply(E1)] && es[..2][..1] == [ResetElectionTimer] && es[..2][..1][..0] == [];
    assert Perform(p, []) == Turn(p, [], None) && Perform(p, es[..2][..1]) == Turn(p, [], None);
    assert Perform(p, es[..2]) == Turn(Resting(n, 2, Led(state)), [], None) by { assert [] + [E1] == [E1]; }
    assert [] + [response] == [response];
  }

  lemma Provisions()
    ensures Performs(U, [Provisioned(U)], []) && Provisioned(U).processes == map[1 := Down(EMPTY_STORE), 2 := Down(EMPTY_STORE)]
  {
  }

  /** A leader that was elected alone, its follower down and the first message to it in the network. */
  lemma LeaderElected() returns (r: seq<Cluster>, a: seq<Action>)
    ensures Performs(U, r, a) && |r| > 0
    ensures var c, led := r[|r| - 1], LeaderWith(1, NO_SNAPSHOT, [E1], 1);
      c.processes == map[1 := Resting(led, 2, Led(led.state)), 2 := Down(EMPTY_STORE)] && HELLO in c.network
  {
    hide Performs, React, Perform, Provisioned, Submit;
    Provisions();
    r, a := Starts([Provisioned(U)], [], 1);
    var led := LeaderWith(1, NO_SNAPSHOT, [E1], 1);
    var es := [ResetElectionTimer, ResetHeartbeatTimer, Apply(E1), Send(HELLO)];
    Elects();
    PerformsElection(led, led.state);
    r, a := Stores(r, a, Ask(1, ElectionTimeout), ElectionTimeout, NewNode(1), 1, EMPTY_STORE, led, es);
    r, a := Acknowledges(r, a, 1, NewNode(1), 1, EMPTY_STORE, ElectionTimeout, led, es, Turn(Resting(led, 2, Led(led.state)), [HELLO], None));
    assert HELLO in r[|r| - 1].network;
  }

  /** A leader that compacted its first entry with this data, and its follower's first message in the network. */
  lemma LeaderCompacts(data: Bytes) returns (r: seq<Cluster>, a: seq<Action>)
    ensures Performs(U, r, a) && |r| > 0
    ensures var c := r[|r| - 1];
      && c.processes.Keys == {1, 2} && c.processes[2] == Down(EMPTY_STORE) && HELLO in c.network
      && c.processes[1].store.state.snapshot == Snap(1, data)
  {
    hide Performs, React, Perform, Submit;
    r, a := LeaderElected();
    var led := LeaderWith(1, NO_SNAPSHOT, [E1], 1);
    CompactsFirst(data);
    var compact := LeaderWith(1, Snap(1, data), [], 1);
    PerformsNothing(compact, 3, Led(led.state).(state := compact.state));
    r, a := Stores(r, a, Ask(1, TakeSnapshot(1, data)), TakeSnapshot(1, data), led, 2, Led(led.state), compact, []);
  }

  lemma PerformsNothing(n: Core, token: nat, store: Store)
    ensures Perform(Resting(n, token, store), []) == Turn(Resting(n, token, store), [], None)
  {
  }

  /** The follower starts, takes the first message, and compacts it with this data. */
  lemma FollowerCompacts(run: seq<Cluster>, actions: seq<Action>, data: Bytes) returns (r: seq<Cluster>, a: seq<Action>)
    requires Performs(U, run, actions) && HELLO in run[|run| - 1].network
    requires 2 in run[|run| - 1].processes && run[|run| - 1].processes[2] == Down(EMPTY_STORE)
    ensures Performs(U, r, a) && |r| > 0
    ensures var compact := LearnerWith(1, Snap(1, data), []);
      r[|r| - 1].processes == run[|run| - 1].processes[2 := Resting(compact, 3, Led(compact.state))]
  {
    hide Performs, React, Perform, Submit;
    r, a := Starts(run, actions, 2);
    var n := LearnerWith(1, NO_SNAPSHOT, [E1]);
    var response := AppendEntriesResponse(2, 1, 1, 1, true, 1, 0);
    var es := [ResetElectionTimer, Apply(E1), Send(response)];
    Follows();
    PerformsFollowing(n, n.state, response);
    r, a := Stores(r, a, Deliver(HELLO), Receive(HELLO), NewNode(2), 1, EMPTY_STORE, n, es);
    r, a := Acknowledges(r, a, 2, NewNode(2), 1, EMPTY_STORE, Receive(HELLO), n, es, Turn(Resting(n, 2, Led(n.state)), [response], None));
    LearnerCompacts(data);
    var compact := LearnerWith(1, Snap(1, data), []);
    PerformsNothing(compact, 3, Led(compact.state));
    r, a := Stores(r, a, Ask(2, TakeSnapshot(1, data)), TakeSnapshot(1, data), n, 2, Led(n.state), compact, []);
    r, a := Acknowledges(r, a, 2, n, 2, Led(n.state), TakeSnapshot(1, data), compact, [], Turn(Resting(compact, 3, Led(compact.state)), [], None));
    assert r[|r| - 1].processes[2] == Resting(compact, 3, Led(compact.state));
  }

  /** SNAPSHOTS CAN CONFLICT IN DATA: for any two data there is a run that stores snapshots of one index with them. */
  lemma SnapshotsCanConflict(x: Bytes, y: Bytes) returns (r: seq<Cluster>, a: seq<Action>)
    requires x != y
    ensures SetupOK(U) && Performs(U, r, a) && DataDiffers(r, 1)
  {
    hide Performs;
    UniverseIsFine();
    r, a := LeaderCompacts(x);
    var one := r[|r| - 1].processes[1];
    r, a := FollowerCompacts(r, a, y);
    var i := |r| - 1;
    assert r[i].processes[1] == one;
    assert At(r, i, 1) && At(r, i, 2);
    assert StateAt(r, i, 1).snapshot == Snap(1, x) && StateAt(r, i, 2).snapshot == Snap(1, y);
  }

  // ----- a follower that never catches up -----

  predicate Rests(c: Cluster, id: NodeID) {
    IsUp(c, id) && c.processes[id].node.pending.None?
  }

  lemma GoodAtRest(run: seq<Cluster>, actions: seq<Action>) returns (h: History)
    requires Performs(U, run, actions) && |run| > 0
    ensures HistoryOK(U, h)
    ensures forall id {:trigger Rests(run[|run| - 1], id)} | Rests(run[|run| - 1], id) ::
      Good(U, h, run[|run| - 1].processes[id].node.core)
  {
    hide SetupOK, HistoryOK, ProcessOK, Good, Performs;
    UniverseIsFine();
    PerformedIsRun(U, run, actions);
    var hs := RunOK(U, run);
    h := hs[|run| - 1];
    var c := run[|run| - 1];
    assert ClusterOK(U, h, c);
    forall id | Rests(c, id)
      ensures Good(U, h, c.processes[id].node.core)
    {
      ProcessIsOK(U, h, c, id);
      IdleParts(U, h, id, c.processes[id]);
    }
  }

  /**
   * CATCHING UP CAN STALL: a run after which the leader's messages to its follower are refused for
   * ever.  The follower took the first entry and compacted it, and the leader never heard of it.
   */
  lemma CatchingUpCanStall(data: Bytes, rounds: nat) returns (r: seq<Cluster>, a: seq<Action>)
    ensures SetupOK(U) && Performs(U, r, a) && |r| > 0
    ensures IsUp(r[|r| - 1], 1) && IsUp(r[|r| - 1], 2)
    ensures var n, f := r[|r| - 1].processes[1].node.core, r[|r| - 1].processes[2].node.core;
      && n.role.Leader? && n.membership.IsVoter(1) && f.leader == 1 && !CanCatchUp(n, f)
      && var t := Rounds(U, Opening(n, f), rounds);
         t.leader.role.Leader? ==> Get(t.leader.matchIndex, 2) < LastIndex(t.leader)
  {
    hide Performs, SetupOK, HistoryOK, Good, Rounds, Opening;
    UniverseIsFine();
    r, a := LeaderElected();
    r, a := FollowerCompacts(r, a, data);
    var n, f := LeaderWith(1, NO_SNAPSHOT, [E1], 1), LearnerWith(1, Snap(1, data), []);
    assert r[|r| - 1].processes[1].node.core == n && r[|r| - 1].processes[2].node.core == f;
    var h := GoodAtRest(r, a);
    assert Rests(r[|r| - 1], 1) && Rests(r[|r| - 1], 2);
    StaysBehind(U, h, n, f, rounds);
  }

  // ----- a store that cannot be recovered from -----

  lemma Goes<M>(app: App<M>, run: seq<World<M>>, action: Action, t: Turn, live: Live<M>) returns (r: seq<World<M>>)
    requires IsWorldRun(app, U, run)
    requires var x := run[|run| - 1];
      && Enabled(x.c, action) && Actor(action) in x.live && TakesCheckpoint(app, x, action)
      && TurnOf(U, x.c, action) == t && TurnApp(app, U, x, action) == live && !live.Broken?
    ensures IsWorldRun(app, U, r) && |r| > 0
    ensures var x, x' := run[|run| - 1], r[|r| - 1];
      && x'.c.processes == x.c.processes[Actor(action) := t.process]
      && x'.c.network == x.c.network + (set m | m in t.sent)
      && x'.live == x.live[Actor(action) := live]
  {
    hide TurnOf, Enabled, TurnApp, TakesCheckpoint, Beginning;
    var x := run[|run| - 1];
    var x' := World(After(U, x.c, action), x.live[Actor(action) := live]);
    r := run + [x'];
    assert WorldStep(app, U, x, x', action);
    forall i | 0 < i < |r|
      ensures WorldNext(app, U, r, i)
    {
      if i < |run| { assert WorldNext(app, U, run, i); }
    }
  }

  /** The caller's or the network's input of an action. */
  predicate Gives(action: Action, id: NodeID, input: Input) {
    || (action == Ask(id, input) && !input.Receive?)
    || (action.Deliver? && action.message.to == id && input == Receive(action.message))
  }

  /** The live application through a write and its acknowledgement. */
  lemma WriteApps<M>(app: App<M>, n: Core, token: nat, store: Store, input: Input, n1: Core, effects: seq<Effect>, m: M)
    requires Writes(n, token, input, n1, effects) && Boundary(n1) <= n1.applied
    requires Perform(Resting(n1, token + 1, store.(state := n1.state)), effects).fault.None?
    ensures SubmitApp(app, U, Resting(n, token, store), Some(m), input) == Some(m)
    ensures AcknowledgeApp(app, U, CompleteWrite(Busy(n1, token, effects, store)), Some(m)) ==
            PerformApp(app, Resting(n1, token + 1, store.(state := n1.state)), Some(m), effects)
  {
    hide React, Perform;
    var p := Resting(n, token, store);
    DirtyTurn(U, p, input);
    var r := Advance(U, p.node, input);
    assert r.effects[..0] == [];
    assert PerformApp(app, p.(node := r.node), Some(m), []) == Some(m);
    PerformKeeps(Resting(n1, token + 1, store.(state := n1.state)), effects);
  }

  /** An input, its write and its completion, with the application waiting. */
  lemma StoresLive<M>(app: App<M>, run: seq<World<M>>, action: Action, id: NodeID, input: Input, n: Core, token: nat, store: Store,
                      n1: Core, effects: seq<Effect>, m: M) returns (r: seq<World<M>>)
    requires IsWorldRun(app, U, run) && Gives(action, id, input)
    requires var x := run[|run| - 1];
      && id in x.c.processes && x.c.processes[id] == Resting(n, token, store) && id in x.live && x.live[id] == Running(m)
      && Enabled(x.c, action) && TakesCheckpoint(app, x, action)
    requires Writes(n, token, input, n1, effects) && Boundary(n1) <= n1.applied
    requires Perform(Resting(n1, token + 1, store.(state := n1.state)), effects).fault.None?
    ensures IsWorldRun(app, U, r) && |r| > 0
    ensures var x, x' := run[|run| - 1], r[|r| - 1];
      && x'.c.processes == x.c.processes[id := CompleteWrite(Busy(n1, token, effects, store))]
      && x'.c.network == x.c.network && x'.live == x.live
  {
    hide IsWorldRun, Submit, SubmitApp, Perform, Writes;
    WriteTurns(n, token, store, input, n1, effects);
    WriteApps(app, n, token, store, input, n1, effects, m);
    r := Goes(app, run, action, Turn(Busy(n1, token, effects, store), [], None), Running(m));
    r := Goes(app, r, WriteDone(id), Turn(CompleteWrite(Busy(n1, token, effects, store)), [], None), Running(m));
  }

  lemma AcknowledgesLive<M>(app: App<M>, run: seq<World<M>>, id: NodeID, n: Core, token: nat, store: Store, input: Input, n1: Core,
                            effects: seq<Effect>, t: Turn, m: M, m1: M) returns (r: seq<World<M>>)
    requires IsWorldRun(app, U, run)
    requires var x := run[|run| - 1];
      && id in x.c.processes && x.c.processes[id] == CompleteWrite(Busy(n1, token, effects, store))
      && id in x.live && x.live[id] == Running(m)
    requires Writes(n, token, input, n1, effects) && Boundary(n1) <= n1.applied
    requires t == Perform(Resting(n1, token + 1, store.(state := n1.state)), effects) && t.fault.None?
    requires PerformApp(app, Resting(n1, token + 1, store.(state := n1.state)), Some(m), effects) == Some(m1)
    ensures IsWorldRun(app, U, r) && |r| > 0
    ensures var x, x' := run[|run| - 1], r[|r| - 1];
      && x'.c.processes == x.c.processes[id := t.process]
      && x'.c.network == x.c.network + (set m | m in t.sent) && x'.live == x.live[id := Running(m1)]
  {
    hide IsWorldRun, Perform, PerformApp, Writes, Submit;
    WriteTurns(n, token, store, input, n1, effects);
    WriteApps(app, n, token, store, input, n1, effects, m);
    r := Goes(app, run, AckDone(id), t, Running(m1));
  }

  lemma StartsLive<M>(app: App<M>, run: seq<World<M>>, id: NodeID) returns (r: seq<World<M>>)
    requires IsWorldRun(app, U, run) && (id == 1 || id == 2)
    requires var x := run[|run| - 1];
      id in x.c.processes && x.c.processes[id] == Down(EMPTY_STORE) && id in x.live
    ensures IsWorldRun(app, U, r) && |r| > 0
    ensures var x, x' := run[|run| - 1], r[|r| - 1];
      && x'.c.processes == x.c.processes[id := Resting(NewNode(id), 1, EMPTY_STORE)]
      && x'.c.network == x.c.network && x'.live == x.live[id := Running(app.initial)]
  {
    hide IsWorldRun, Boot, BootApp;
    BootsEmpty(id);
    BootsApp(app, id);
    r := Goes(app, run, Restart(id), Turn(Resting(NewNode(id), 1, EMPTY_STORE), [], None), Running(app.initial));
  }

  lemma BootsApp<M>(app: App<M>, id: NodeID)
    requires id == 1 || id == 2
    ensures BootApp(app, U, id, EMPTY_STORE) == Some(app.initial)
  {
    var n := NewNode(id);
    assert EMPTY_STATE.log[..0] == [];
    assert Fresh(U, id, EMPTY_STATE, 0) == n && ValidState(U, EMPTY_STATE, 0);
    assert Recover(app, EMPTY_STORE) == Some(app.initial);
    var p := Resting(n, 1, EMPTY_STORE);
    assert Unapplied(n) == [];
    if id == 1 {
      assert Start(n).1 == [ResetElectionTimer];
      assert [ResetElectionTimer][..0] == [] && PerformApp(app, p, Some(app.initial), []) == Some(app.initial);
    } else {
      assert Start(n).1 == [];
    }
  }

  /** The leader ships its snapshot. */
  lemma ShipsLive<M>(app: App<M>, run: seq<World<M>>, index: nat, data: Bytes, sent: nat, token: nat, store: Store, m: M)
    returns (r: seq<World<M>>)
    requires IsWorldRun(app, U, run) && |run| > 0 && index > 0
    requires var x := run[|run| - 1];
      && 1 in x.c.processes && x.c.processes[1] == Resting(LeaderWith(index, Snap(index, data), [], sent), token, store)
      && 1 in x.live && x.live[1] == Running(m)
    ensures IsWorldRun(app, U, r) && |r| > 0
    ensures var x, x' := run[|run| - 1], r[|r| - 1];
      && x'.c.processes == x.c.processes[1 := Resting(LeaderWith(index, Snap(index, data), [], sent + 1), token, store)]
      && x'.c.network == x.c.network + {Ship(sent + 1, Snap(index, data))} && x'.live == x.live
  {
    hide IsWorldRun, React;
    Ships(index, data, sent);
    var n, n1 := LeaderWith(index, Snap(index, data), [], sent), LeaderWith(index, Snap(index, data), [], sent + 1);
    var p, p1 := Resting(n, token, store), Resting(n1, token, store);
    var message := Ship(sent + 1, Snap(index, data));
    var es := [ResetHeartbeatTimer, Send(message)];
    assert es[..1] == [ResetHeartbeatTimer] && es[..1][..0] == [];
    assert Perform(p1, []) == Turn(p1, [], None) && Perform(p1, es[..1]) == Turn(p1, [], None);
    assert [] + [message] == [message];
    assert Perform(p1, es) == Turn(p1, [message], None);
    assert PerformApp(app, p1, Some(m), []) == Some(m) && PerformApp(app, p1, Some(m), es[..1]) == Some(m);
    assert PerformApp(app, p1, Some(m), es) == Some(m);
    assert Submit(U, p, HeartbeatTimeout) == Turn(p1, [message], None);
    assert SubmitApp(app, U, p, Some(m), HeartbeatTimeout) == Some(m);
    r := Goes(app, run, Ask(1, HeartbeatTimeout), Turn(p1, [message], None), Running(m));
    assert (set m | m in [message]) == {message};
    assert run[|run| - 1].live[1 := Running(m)] == run[|run| - 1].live;
  }

  lemma ElectionApps<M>(app: App<M>, n: Core, state: PersistentState, m: M)
    ensures PerformApp(app, Resting(n, 2, EMPTY_STORE.(state := state)), Some(m),
                       [ResetElectionTimer, ResetHeartbeatTimer, Apply(E1), Send(HELLO)]) == Some(m)
  {
    var p := Resting(n, 2, EMPTY_STORE.(state := state));
    var es := [ResetElectionTimer, ResetHeartbeatTimer, Apply(E1), Send(HELLO)];
    assert es[..3] == [ResetElectionTimer, ResetHeartbeatTimer, Apply(E1)] && es[..3][..2] == [ResetElectionTimer, ResetHeartbeatTimer];
    assert es[..3][..2][..1] == [ResetElectionTimer] && es[..3][..2][..1][..0] == [];
    assert PerformApp(app, p, Some(m), []) == Some(m) && PerformApp(app, p, Some(m), es[..3][..2][..1]) == Some(m);
    assert PerformApp(app, p, Some(m), es[..3][..2]) == Some(m) && PerformApp(app, p, Some(m), es[..3]) == Some(m);
  }

  /** A command is applied, and the snapshot shipped once more. */
  lemma ProposalTurns<M>(app: App<M>, n: Core, token: nat, state: PersistentState, c: Bytes, message: Message, m: M, m1: M)
    requires app.apply(m, c) == Some(m1)
    ensures var p, es := Resting(n, token, Led(state)), [Apply(E2(c)), Send(message)];
      && Perform(p, es) == Turn(Resting(n, token, Store(state, 2, [E1, E2(c)], NO_SNAPSHOT)), [message], None)
      && PerformApp(app, p, Some(m), es) == Some(m1)
  {
    var p, es := Resting(n, token, Led(state)), [Apply(E2(c)), Send(message)];
    assert es[..1] == [Apply(E2(c))] && es[..1][..0] == [];
    assert Perform(p, []) == Turn(p, [], None) && [E1] + [E2(c)] == [E1, E2(c)] && [] + [message] == [message];
    assert Perform(p, es[..1]) == Turn(Resting(n, token, Store(state, 2, [E1, E2(c)], NO_SNAPSHOT)), [], None);
    assert PerformApp(app, p, Some(m), []) == Some(m) && PerformApp(app, p, Some(m), es[..1]) == Some(m1);
  }

  /** A snapshot is installed into an empty store. */
  lemma InstallTurns<M>(app: App<M>, n: Core, state: PersistentState, s: Snapshot, message: Message, m: M, m1: M)
    requires app.restore(s.data) == Some(m1) && s.index > 0
    ensures var p, es := Resting(n, 2, EMPTY_STORE.(state := state)), [ResetElectionTimer, RestoreSnapshot(s), Send(message)];
      && Perform(p, es) == Turn(Resting(n, 2, Store(state, s.index, [], s)), [message], None)
      && PerformApp(app, p, Some(m), es) == Some(m1)
  {
    var p, es := Resting(n, 2, EMPTY_STORE.(state := state)), [ResetElectionTimer, RestoreSnapshot(s), Send(message)];
    assert es[..2] == [ResetElectionTimer, RestoreSnapshot(s)] && es[..2][..1] == [ResetElectionTimer] && es[..2][..1][..0] == [];
    assert Perform(p, []) == Turn(p, [], None) && Perform(p, es[..2][..1]) == Turn(p, [], None) && [] + [message] == [message];
    assert Perform(p, es[..2]) == Turn(Resting(n, 2, Store(state, s.index, [], s)), [], None);
    assert PerformApp(app, p, Some(m), []) == Some(m) && PerformApp(app, p, Some(m), es[..2][..1]) == Some(m);
    assert PerformApp(app, p, Some(m), es[..2]) == Some(m1);
  }

  lemma NothingApps<M>(app: App<M>, p: Process, m: M)
    requires p.Up?
    ensures PerformApp(app, p, Some(m), []) == Some(m)
  {
  }

  lemma BeginsLive<M>(app: App<M>)
    ensures IsWorldRun(app, U, [Beginning(U)])
    ensures var x: World<M> := Beginning(U);
      x.c.processes == map[1 := Down(EMPTY_STORE), 2 := Down(EMPTY_STORE)] && x.live == map[1 := Gone, 2 := Gone]
  {
  }

  lemma ElectionWrites()
    ensures var led := LeaderWith(1, NO_SNAPSHOT, [E1], 1);
      && Boundary(led) <= led.applied
      && Writes(NewNode(1), 1, ElectionTimeout, led, [ResetElectionTimer, ResetHeartbeatTimer, Apply(E1), Send(HELLO)])
  {
    hide React;
    Elects();
  }

  lemma SendingKeepsState(commit: nat, s: Snapshot, log: seq<Entry>, a: nat, b: nat)
    ensures LeaderWith(commit, s, log, a).state == LeaderWith(commit, s, log, b).state
  {
  }

  lemma FirstCompactionWrites(d1: Bytes)
    ensures var n := LeaderWith(1, Snap(1, d1), [], 1);
      && Boundary(n) <= n.applied
      && Writes(LeaderWith(1, NO_SNAPSHOT, [E1], 1), 2, TakeSnapshot(1, d1), n, [])
  {
    hide React;
    CompactsFirst(d1);
  }

  lemma ProposalWrites(d1: Bytes, c: Bytes)
    ensures var n := LeaderWith(2, Snap(1, d1), [E2(c)], 3);
      && Boundary(n) <= n.applied
      && Writes(LeaderWith(1, Snap(1, d1), [], 2), 3, Propose(c), n, [Apply(E2(c)), Send(Ship(3, Snap(1, d1)))])
  {
    hide React;
    Proposes(d1, c, 2);
  }

  lemma SecondCompactionWrites(d1: Bytes, c: Bytes, d2: Bytes)
    ensures var n := LeaderWith(2, Snap(2, d2), [], 3);
      && Boundary(n) <= n.applied
      && Writes(LeaderWith(2, Snap(1, d1), [E2(c)], 3), 4, TakeSnapshot(2, d2), n, [])
  {
    hide React;
    CompactsSecond(d1, d2, c, 3);
  }

  /** A node that was elected alone, and its follower, which is still down. */
  lemma FirstElection<M>(app: App<M>) returns (r: seq<World<M>>)
    ensures IsWorldRun(app, U, r) && |r| > 0
    ensures var x, n := r[|r| - 1], LeaderWith(1, NO_SNAPSHOT, [E1], 1);
      && x.c.processes == map[1 := Resting(n, 2, Led(n.state)), 2 := Down(EMPTY_STORE)]
      && x.live == map[1 := Running(app.initial), 2 := Gone]
  {
    hide IsWorldRun, React, Perform, PerformApp, Writes, LeaderWith, NewNode, Boundary, Ship, Beginning;
    var m := app.initial;
    BeginsLive(app);
    r := StartsLive(app, [Beginning(U)], 1);
    var led := LeaderWith(1, NO_SNAPSHOT, [E1], 1);
    var es := [ResetElectionTimer, ResetHeartbeatTimer, Apply(E1), Send(HELLO)];
    ElectionWrites();
    PerformsElection(led, led.state);
    ElectionApps(app, led, led.state, m);
    r := StoresLive(app, r, Ask(1, ElectionTimeout), 1, ElectionTimeout, NewNode(1), 1, EMPTY_STORE, led, es, m);
    r := AcknowledgesLive(app, r, 1, NewNode(1), 1, EMPTY_STORE, ElectionTimeout, led, es,
                          Turn(Resting(led, 2, Led(led.state)), [HELLO], None), m, m);
  }

  /** It compacted its first entry and shipped the snapshot. */
  lemma FirstShipment<M>(app: App<M>, d1: Bytes) returns (r: seq<World<M>>)
    requires app.save(app.initial) == Some(d1)
    ensures IsWorldRun(app, U, r) && |r| > 0
    ensures var x, n := r[|r| - 1], LeaderWith(1, Snap(1, d1), [], 2);
      && x.c.processes == map[1 := Resting(n, 3, Led(n.state)), 2 := Down(EMPTY_STORE)]
      && x.live == map[1 := Running(app.initial), 2 := Gone] && Ship(2, Snap(1, d1)) in x.c.network
  {
    hide IsWorldRun, React, Perform, PerformApp, Writes, LeaderWith, NewNode, Boundary, Ship;
    var m := app.initial;
    r := FirstElection(app);
    var led := LeaderWith(1, NO_SNAPSHOT, [E1], 1);
    FirstCompactionWrites(d1);
    var n := LeaderWith(1, Snap(1, d1), [], 1);
    var p := Resting(n, 3, Led(n.state));
    PerformsNothing(n, 3, Led(n.state));
    NothingApps(app, p, m);
    r := StoresLive(app, r, Ask(1, TakeSnapshot(1, d1)), 1, TakeSnapshot(1, d1), led, 2, Led(led.state), n, [], m);
    r := AcknowledgesLive(app, r, 1, led, 2, Led(led.state), TakeSnapshot(1, d1), n, [], Turn(p, [], None), m, m);
    r := ShipsLive(app, r, 1, d1, 1, 3, Led(n.state), m);
    SendingKeepsState(1, Snap(1, d1), [], 1, 2);
  }

  function Proposed(c: Bytes, n: Core): Store {
    Store(n.state, 2, [E1, E2(c)], NO_SNAPSHOT)
  }

  /** What applying the first command does, and the shipment it goes with. */
  function CommandEffects(c: Bytes, d1: Bytes): seq<Effect> {
    [Apply(E2(c)), Send(Ship(3, Snap(1, d1)))]
  }

  /** The leader stored a command. */
  lemma CommandStored<M>(app: App<M>, c: Bytes, m1: M, d1: Bytes) returns (r: seq<World<M>>)
    requires app.save(app.initial) == Some(d1) && app.apply(app.initial, c) == Some(m1)
    ensures IsWorldRun(app, U, r) && |r| > 0
    ensures var x, n, n1 := r[|r| - 1], LeaderWith(1, Snap(1, d1), [], 2), LeaderWith(2, Snap(1, d1), [E2(c)], 3);
      && x.c.processes == map[1 := CompleteWrite(Busy(n1, 3, CommandEffects(c, d1), Led(n.state))), 2 := Down(EMPTY_STORE)]
      && x.live == map[1 := Running(app.initial), 2 := Gone] && Ship(2, Snap(1, d1)) in x.c.network
  {
    hide IsWorldRun, React, Perform, PerformApp, Writes, LeaderWith, NewNode, Boundary, Ship;
    r := FirstShipment(app, d1);
    var n, n1 := LeaderWith(1, Snap(1, d1), [], 2), LeaderWith(2, Snap(1, d1), [E2(c)], 3);
    ProposalWrites(d1, c);
    ProposalTurns(app, n1, 4, n1.state, c, Ship(3, Snap(1, d1)), app.initial, m1);
    r := StoresLive(app, r, Ask(1, Propose(c)), 1, Propose(c), n, 3, Led(n.state), n1, CommandEffects(c, d1), app.initial);
  }

  ghost predicate CommandApplied<M>(x: World<M>, c: Bytes, m1: M, d1: Bytes) {
    var n := LeaderWith(2, Snap(1, d1), [E2(c)], 3);
    && x.c.processes == map[1 := Resting(n, 4, Proposed(c, n)), 2 := Down(EMPTY_STORE)]
    && x.live == map[1 := Running(m1), 2 := Gone] && Ship(2, Snap(1, d1)) in x.c.network
  }

  /** A run that ends with the command applied. */
  ghost predicate EndsApplied<M>(app: App<M>, r: seq<World<M>>, c: Bytes, m1: M, d1: Bytes) {
    IsWorldRun(app, U, r) && |r| > 0 && CommandApplied(r[|r| - 1], c, m1, d1)
  }

  /** What the leader's effects do once the command is stored. */
  lemma CommandTurns<M>(app: App<M>, c: Bytes, m1: M, d1: Bytes)
    requires app.apply(app.initial, c) == Some(m1)
    ensures var n, n1 := LeaderWith(1, Snap(1, d1), [], 2), LeaderWith(2, Snap(1, d1), [E2(c)], 3);
      var p := Resting(n1, 4, Led(n.state).(state := n1.state));
      && Boundary(n1) <= n1.applied && Writes(n, 3, Propose(c), n1, CommandEffects(c, d1))
      && Perform(p, CommandEffects(c, d1)) == Turn(Resting(n1, 4, Proposed(c, n1)), [Ship(3, Snap(1, d1))], None)
      && PerformApp(app, p, Some(app.initial), CommandEffects(c, d1)) == Some(m1)
  {
    hide React, Perform, PerformApp, Writes, LeaderWith, NewNode, Boundary, Ship;
    ProposalWrites(d1, c);
    ProposalTurns(app, LeaderWith(2, Snap(1, d1), [E2(c)], 3), 4, LeaderWith(2, Snap(1, d1), [E2(c)], 3).state, c, Ship(3, Snap(1, d1)),
                  app.initial, m1);
  }

  /** One of two entries is replaced. */
  lemma ReplacesOne<V>(m: map<NodeID, V>, v1: V, v2: V, w: V)
    requires m == map[1 := v1, 2 := v2]
    ensures m[1 := w] == map[1 := w, 2 := v2]
  {
  }

  /** The leader applied a command. */
  lemma FirstCommand<M>(app: App<M>, c: Bytes, m1: M, d1: Bytes) returns (r: seq<World<M>>)
    requires app.save(app.initial) == Some(d1) && app.apply(app.initial, c) == Some(m1)
    ensures EndsApplied(app, r, c, m1, d1)
  {
    hide IsWorldRun, React, Perform, PerformApp, Writes, LeaderWith, NewNode, Boundary, Ship, CompleteWrite, CommandEffects, Led, E2, Snap,
      Proposed;
    r := CommandStored(app, c, m1, d1);
    var n, n1 := LeaderWith(1, Snap(1, d1), [], 2), LeaderWith(2, Snap(1, d1), [E2(c)], 3);
    CommandTurns(app, c, m1, d1);
    var x, p := r[|r| - 1], Resting(n1, 4, Proposed(c, n1));
    ReplacesOne(x.c.processes, x.c.processes[1], Down(EMPTY_STORE), p);
    ReplacesOne(x.live, Running(app.initial), Gone, Running(m1));
    r := AcknowledgesLive(app, r, 1, n, 3, Led(n.state), Propose(c), n1, CommandEffects(c, d1),
                          Turn(p, [Ship(3, Snap(1, d1))], None), app.initial, m1);
  }

  /** It compacted that too, and shipped the newer snapshot. */
  lemma SecondShipment<M>(app: App<M>, c: Bytes, m1: M, d1: Bytes, d2: Bytes) returns (r: seq<World<M>>)
    requires app.save(app.initial) == Some(d1) && app.apply(app.initial, c) == Some(m1) && app.save(m1) == Some(d2)
    ensures IsWorldRun(app, U, r) && |r| > 0
    ensures var x := r[|r| - 1];
      && x.c.processes.Keys == {1, 2} && x.c.processes[2] == Down(EMPTY_STORE) && x.live.Keys == {1, 2}
      && Ship(2, Snap(1, d1)) in x.c.network && Ship(4, Snap(2, d2)) in x.c.network
  {
    hide IsWorldRun, React, Perform, PerformApp, Writes, LeaderWith, NewNode, Boundary, Ship;
    r := FirstCommand(app, c, m1, d1);
    var n1 := LeaderWith(2, Snap(1, d1), [E2(c)], 3);
    SecondCompactionWrites(d1, c, d2);
    var n2 := LeaderWith(2, Snap(2, d2), [], 3);
    var store, after := Proposed(c, n1), Proposed(c, n2);
    PerformsNothing(n2, 5, after);
    NothingApps(app, Resting(n2, 5, after), m1);
    r := StoresLive(app, r, Ask(1, TakeSnapshot(2, d2)), 1, TakeSnapshot(2, d2), n1, 4, store, n2, [], m1);
    r := AcknowledgesLive(app, r, 1, n1, 4, store, TakeSnapshot(2, d2), n2, [], Turn(Resting(n2, 5, after), [], None), m1, m1);
    r := ShipsLive(app, r, 2, d2, 3, 5, after, m1);
  }

  /** The learner's store with its first snapshot. */
  function Installed(d1: Bytes): Store {
    Store(LearnerWith(1, Snap(1, d1), []).state, 1, [], Snap(1, d1))
  }

  /** The learner installed the first snapshot. */
  lemma FirstInstalled<M>(app: App<M>, c: Bytes, m1: M, d1: Bytes, d2: Bytes) returns (r: seq<World<M>>)
    requires app.restore(d1) == Some(app.initial)
    requires app.save(app.initial) == Some(d1) && app.apply(app.initial, c) == Some(m1) && app.save(m1) == Some(d2)
    ensures IsWorldRun(app, U, r) && |r| > 0
    ensures var x := r[|r| - 1];
      && 2 in x.c.processes && x.c.processes[2] == Resting(LearnerWith(1, Snap(1, d1), []), 2, Installed(d1))
      && 2 in x.live && x.live[2] == Running(app.initial) && Ship(4, Snap(2, d2)) in x.c.network
  {
    hide IsWorldRun, React, Perform, PerformApp, Submit;
    var m := app.initial;
    r := SecondShipment(app, c, m1, d1, d2);
    r := StartsLive(app, r, 2);
    var n := LearnerWith(1, Snap(1, d1), []);
    var response := InstallSnapshotResponse(2, 1, 1, 2, true, 1);
    var es := [ResetElectionTimer, RestoreSnapshot(Snap(1, d1)), Send(response)];
    Installs(NewNode(2), 2, 1, d1);
    InstallTurns(app, n, n.state, Snap(1, d1), response, m, m);
    var first := Ship(2, Snap(1, d1));
    r := StoresLive(app, r, Deliver(first), 2, Receive(first), NewNode(2), 1, EMPTY_STORE, n, es, m);
    r := AcknowledgesLive(app, r, 2, NewNode(2), 1, EMPTY_STORE, Receive(first), n, es,
                          Turn(Resting(n, 2, Installed(d1)), [response], None), m, m);
  }

  lemma SavedIsRestored<M>(app: App<M>, data: Bytes)
    requires Faithful(app) && app.save(app.initial) == Some(data)
    ensures app.restore(data) == Some(app.initial)
  {
    assert MachineAfter(app, []) == Some(app.initial);
  }

  /**
   * RECOVERY CAN FAIL: whatever the application, if it accepts one command and can be saved before
   * and after it, there is a run with one voter and one learner that ends with the learner down and
   * its store not recoverable: it crashed between the write and the acknowledgement of its second
   * snapshot.
   */
  lemma RecoveryCanFail<M>(app: App<M>, c: Bytes, m1: M, d1: Bytes, d2: Bytes) returns (r: seq<World<M>>)
    requires Faithful(app)
    requires app.save(app.initial) == Some(d1) && app.apply(app.initial, c) == Some(m1) && app.save(m1) == Some(d2)
    ensures SetupOK(U) && IsWorldRun(app, U, r) && LiveAt(r, |r| - 1, 2)
    ensures var p := r[|r| - 1].c.processes[2];
      p.Down? && !Recoverable(p.store) && Recover(app, p.store) == None
  {
    hide IsWorldRun, React, Perform, PerformApp, Submit, Recover, Faithful, SetupOK;
    UniverseIsFine();
    SavedIsRestored(app, d1);
    r := FirstInstalled(app, c, m1, d1, d2);
    var n, n2 := LearnerWith(1, Snap(1, d1), []), LearnerWith(2, Snap(2, d2), []);
    var store, second := Installed(d1), Ship(4, Snap(2, d2));
    var es := [ResetElectionTimer, RestoreSnapshot(Snap(2, d2)), Send(InstallSnapshotResponse(2, 1, 1, 4, true, 2))];
    Installs(n, 4, 2, d2);
    InstallsAgain(n2, store.(state := n2.state), es);
    r := StoresLive(app, r, Deliver(second), 2, Receive(second), n, 2, store, n2, es, app.initial);
    r := Goes(app, r, Crash(2), Turn(Down(store.(state := n2.state)), [], None), Gone);
    UnrecoverableStore(app, Snap(2, d2), Snap(1, d1), n2.state);
  }

  lemma InstallsAgain(n: Core, store: Store, effects: seq<Effect>)
    requires |effects| == 3 && effects[0].ResetElectionTimer? && effects[1].RestoreSnapshot? && effects[2].Send?
    requires effects[1].snapshot.index >= store.applied
    ensures Perform(Resting(n, 3, store), effects).fault.None?
  {
    var p := Resting(n, 3, store);
    assert effects[..2][..1] == effects[..1] && effects[..1][..0] == [];
    assert Perform(p, []) == Turn(p, [], None) && Perform(p, effects[..1]) == Turn(p, [] + [], None);
    assert Perform(p, effects[..2]).fault.None?;
  }
}

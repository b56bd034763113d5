/**
 * The theorems of the Raft paper (Figure 3, and sections 5.2 to 5.4, 6 and 7), for this code:
 * about durable stores, released leaders and messages, at any two moments of any run.
 */
module ClusterTheorems {
  import opened RaftTypes
  import opened Configuration
  import opened RaftHistory
  import opened LeaderCompleteness
  import opened RaftActions
  import opened NodeSpec
  import opened NodeRefinement
  import opened LeaderProofs
  import opened FollowerProofs
  import opened Validation
  import opened ClusterSpec
  import opened ClusterInvariant
  import opened ClusterSafety

  /** The log entry at an index, if it was not compacted away. */
  function EntryAt(state: PersistentState, index: nat): Option<Entry> {
    if state.snapshot.index < index <= state.LastIndex() then Some(state.log[index - state.snapshot.index - 1]) else None
  }

  predicate At(run: seq<Cluster>, i: nat, id: NodeID) {
    i < |run| && id in run[i].processes
  }

  function StoreAt(run: seq<Cluster>, i: nat, id: NodeID): Store
    requires At(run, i, id)
  {
    run[i].processes[id].store
  }

  function StateAt(run: seq<Cluster>, i: nat, id: NodeID): PersistentState
    requires At(run, i, id)
  {
    StoreAt(run, i, id).state
  }

  /** A leader whose election is durable: up, and not in the middle of a write. */
  predicate Leads(p: Process) {
    p.Up? && !p.stage.Writing? && p.node.core.role.Leader?
  }

  predicate LeadsAt(run: seq<Cluster>, i: nat, id: NodeID, term: nat) {
    At(run, i, id) && Leads(run[i].processes[id]) && StateAt(run, i, id).term == term
  }

  // ----- what the invariant says about a store -----

  lemma ExplainedAt(u: Setup, run: seq<Cluster>, hs: seq<History>, i: nat, id: NodeID) returns (n: Core)
    requires Explains(u, run, hs) && At(run, i, id)
    ensures HistoryOK(u, hs[i]) && StoreOK(u, hs[i], id, StoreAt(run, i, id))
    ensures n == Recovered(u, id, StateAt(run, i, id)) && n.state == StateAt(run, i, id) && Good(u, hs[i], n)
  {
    hide HistoryOK, Good, AppliedOK, RunningOK, Grows;
    assert ClusterOK(u, hs[i], run[i]);
    ProcessIsOK(u, hs[i], run[i], id);
    n := Recovered(u, id, StateAt(run, i, id));
  }

  lemma FullEntryAt(u: Setup, h: History, n: Core, index: nat)
    requires Good(u, h, n) && n.state.snapshot.index < index <= n.state.LastIndex()
    ensures |Full(h, n.state)| == n.state.LastIndex()
    ensures EntryAt(n.state, index) == Some(Full(h, n.state)[index - 1])
  {
    hide NodeOK, Fold;
    FullLength(u, h, n.state);
    var full := Full(h, n.state);
    assert full[index - 1] == full[n.state.snapshot.index..][index - 1 - n.state.snapshot.index];
  }

  lemma CommittedEntry(u: Setup, h: History, n: Core, index: nat)
    requires Good(u, h, n) && n.state.snapshot.index < index <= n.state.commit
    ensures index <= n.state.LastIndex() && index <= |h.committed|
    ensures EntryAt(n.state, index) == Some(h.committed[index - 1])
  {
    GoodLog(u, h, n);
    hide Good, CommitPoint;
    FullEntryAt(u, h, n, index);
    var full := Full(h, n.state);
    assert full[index - 1] == full[..n.state.commit][index - 1];
  }

  lemma LaterCommitted(u: Setup, run: seq<Cluster>, hs: seq<History>, i: nat, m: nat)
    requires Explains(u, run, hs) && i <= m < |run|
    ensures hs[i].committed <= hs[m].committed
  {
    assert Grows(hs[i], hs[m]);
  }

  // ----- state machine safety -----

  /** STATE MACHINE SAFETY: committed entries agree, on any two nodes, at any two moments. */
  lemma StateMachineSafety(u: Setup, run: seq<Cluster>, i: nat, j: nat, a: NodeID, b: NodeID, index: nat)
    requires SetupOK(u) && IsRun(u, run) && At(run, i, a) && At(run, j, b)
    requires StateAt(run, i, a).snapshot.index < index <= StateAt(run, i, a).commit
    requires StateAt(run, j, b).snapshot.index < index <= StateAt(run, j, b).commit
    ensures EntryAt(StateAt(run, i, a), index).Some?
    ensures EntryAt(StateAt(run, i, a), index) == EntryAt(StateAt(run, j, b), index)
  {
    hide SetupOK, IsRun, Explains, Good, HistoryOK, StoreOK;
    var hs := RunOK(u, run);
    var na := ExplainedAt(u, run, hs, i, a);
    var nb := ExplainedAt(u, run, hs, j, b);
    CommittedEntry(u, hs[i], na, index);
    CommittedEntry(u, hs[j], nb, index);
    if i <= j { LaterCommitted(u, run, hs, i, j); } else { LaterCommitted(u, run, hs, j, i); }
  }

  /** What applications took agrees too, with each other and with every committed log. */
  lemma ApplicationsAgree(u: Setup, run: seq<Cluster>, i: nat, j: nat, a: NodeID, b: NodeID, index: nat)
    requires SetupOK(u) && IsRun(u, run) && At(run, i, a) && At(run, j, b)
    requires StoreAt(run, i, a).installed.index < index <= StoreAt(run, i, a).applied
    ensures var sa := StoreAt(run, i, a);
      |sa.entries| == sa.applied - sa.installed.index && sa.entries[index - sa.installed.index - 1].index == index
    ensures var sb := StoreAt(run, j, b);
      sb.installed.index < index <= sb.applied ==>
      |sb.entries| == sb.applied - sb.installed.index &&
      StoreAt(run, i, a).entries[index - StoreAt(run, i, a).installed.index - 1] == sb.entries[index - sb.installed.index - 1]
    ensures var tb := StateAt(run, j, b);
      tb.snapshot.index < index <= tb.commit ==>
      EntryAt(tb, index) == Some(StoreAt(run, i, a).entries[index - StoreAt(run, i, a).installed.index - 1])
  {
    hide SetupOK, IsRun, Explains, Good, HistoryOK;
    var hs := RunOK(u, run);
    var na := ExplainedAt(u, run, hs, i, a);
    var nb := ExplainedAt(u, run, hs, j, b);
    TakenEntry(hs[i], StoreAt(run, i, a), index);
    if StoreAt(run, j, b).installed.index < index <= StoreAt(run, j, b).applied {
      TakenEntry(hs[j], StoreAt(run, j, b), index);
    }
    if StateAt(run, j, b).snapshot.index < index <= StateAt(run, j, b).commit {
      CommittedEntry(u, hs[j], nb, index);
    }
    if i <= j { LaterCommitted(u, run, hs, i, j); } else { LaterCommitted(u, run, hs, j, i); }
  }

  lemma TakenEntry(h: History, s: Store, index: nat)
    requires AppliedOK(h, s) && s.installed.index < index <= s.applied
    ensures |s.entries| == s.applied - s.installed.index && index <= |h.committed|
    ensures s.entries[index - s.installed.index - 1] == h.committed[index - 1]
    ensures s.entries[index - s.installed.index - 1].index == index
  {
    assert s.entries[index - s.installed.index - 1].index == index;
  }

  /** Snapshots at one index stand for the same prefix: same boundary term, same configuration. */
  lemma SnapshotsAgree(u: Setup, run: seq<Cluster>, i: nat, j: nat, a: NodeID, b: NodeID)
    requires SetupOK(u) && IsRun(u, run) && At(run, i, a) && At(run, j, b)
    requires StateAt(run, i, a).snapshot.index > 0
    ensures var sa, tb := StateAt(run, i, a).snapshot, StateAt(run, j, b);
      && (tb.snapshot.index == sa.index ==> tb.snapshot.term == sa.term && tb.snapshot.membership == sa.membership)
      && (tb.snapshot.index < sa.index <= tb.commit ==>
           && EntryAt(tb, sa.index).Some? && EntryAt(tb, sa.index).value.term == sa.term
           && MembershipAt(u, tb, sa.index) == sa.membership)
  {
    hide SetupOK, IsRun, Explains, Good, HistoryOK, StoreOK, Fold;
    var hs := RunOK(u, run);
    var na := ExplainedAt(u, run, hs, i, a);
    var nb := ExplainedAt(u, run, hs, j, b);
    StoredBoundary(u, hs[i], na);
    var sa, tb := StateAt(run, i, a).snapshot, StateAt(run, j, b);
    if i <= j { LaterCommitted(u, run, hs, i, j); } else { LaterCommitted(u, run, hs, j, i); }
    if tb.snapshot.index == sa.index {
      StoredBoundary(u, hs[j], nb);
      assert hs[i].committed[..sa.index] == hs[j].committed[..sa.index];
    } else if tb.snapshot.index < sa.index <= tb.commit {
      CommittedEntry(u, hs[j], nb, sa.index);
      CommittedMembership(u, hs[j], nb, sa.index);
      assert hs[i].committed[..sa.index] == hs[j].committed[..sa.index];
    }
  }

  lemma StoredBoundary(u: Setup, h: History, n: Core)
    requires Good(u, h, n) && n.state.snapshot.index > 0
    ensures 0 < n.state.snapshot.index <= |h.committed|
    ensures n.state.snapshot.term == h.committed[n.state.snapshot.index - 1].term
    ensures n.state.snapshot.membership == Config(u, h.committed[..n.state.snapshot.index])
  {
    hide NodeOK, Fold;
  }

  lemma CommittedMembership(u: Setup, h: History, n: Core, index: nat)
    requires SetupOK(u) && HistoryOK(u, h) && Good(u, h, n) && n.state.snapshot.index <= index <= n.state.commit
    ensures index <= |h.committed| && MembershipAt(u, n.state, index) == Config(u, h.committed[..index])
  {
    hide Good, CommitPoint, HistoryOK, SetupOK, Fold, StoredSnapshotOK, Full, LogOK, TermsUpTo;
    GoodLog(u, h, n);
    StoredOK(u, h, n);
    MembershipAtFull(u, h, n.state, index);
    var full := Full(h, n.state);
    assert full[..index] == full[..n.state.commit][..index] == h.committed[..index];
  }

  // ----- leaders -----

  lemma LeaderReign(u: Setup, h: History, id: NodeID, p: Process)
    requires ProcessOK(u, h, id, p) && Leads(p)
    ensures p.node.core.id == id && p.node.core.state == p.store.state && Good(u, h, p.node.core)
    ensures p.store.state.term in h.reigns && h.reigns[p.store.state.term].leader == id
    ensures h.reigns[p.store.state.term].log == Full(h, p.store.state)
  {
    hide React, EffectsOK, Delivered, InputOK, HistoryOK, CoreOK, AppliedOK;
  }

  lemma ReignKept(u: Setup, run: seq<Cluster>, hs: seq<History>, i: nat, m: nat, t: nat)
    requires Explains(u, run, hs) && i <= m < |run| && t in hs[i].reigns
    ensures t in hs[m].reigns && ReignGrows(hs[i].reigns[t], hs[m].reigns[t])
  {
    assert Grows(hs[i], hs[m]);
  }

  /** ELECTION SAFETY: a term has at most one leader, ever, through any reconfiguration. */
  lemma ElectionSafety(u: Setup, run: seq<Cluster>, i: nat, j: nat, a: NodeID, b: NodeID, term: nat)
    requires SetupOK(u) && IsRun(u, run) && LeadsAt(run, i, a, term) && LeadsAt(run, j, b, term)
    ensures a == b
  {
    hide SetupOK, IsRun, Explains, ClusterOK;
    var hs := RunOK(u, run);
    LeaderAt(u, run, hs, i, a, term);
    LeaderAt(u, run, hs, j, b, term);
    if i <= j { ReignKept(u, run, hs, i, j, term); } else { ReignKept(u, run, hs, j, i, term); }
  }

  lemma LeaderAt(u: Setup, run: seq<Cluster>, hs: seq<History>, i: nat, id: NodeID, term: nat)
    requires Explains(u, run, hs) && LeadsAt(run, i, id, term)
    ensures HistoryOK(u, hs[i]) && term in hs[i].reigns && hs[i].reigns[term].leader == id
    ensures hs[i].reigns[term].log == Full(hs[i], StateAt(run, i, id))
  {
    hide HistoryOK, ProcessOK, Grows;
    assert ClusterOK(u, hs[i], run[i]);
    ProcessIsOK(u, hs[i], run[i], id);
    LeaderReign(u, hs[i], id, run[i].processes[id]);
  }

  /**
   * LEADER COMPLETENESS: a leader holds every entry that any node committed in an earlier term,
   * whichever came first; and every entry committed before in its own term.
   */
  lemma LeadersAreComplete(u: Setup, run: seq<Cluster>, i: nat, j: nat, a: NodeID, b: NodeID, term: nat, index: nat)
    requires SetupOK(u) && IsRun(u, run) && At(run, i, a) && LeadsAt(run, j, b, term)
    requires StateAt(run, i, a).term < term || (StateAt(run, i, a).term == term && i <= j)
    requires StateAt(run, i, a).snapshot.index < index <= StateAt(run, i, a).commit
    ensures index <= StateAt(run, j, b).LastIndex()
    ensures StateAt(run, j, b).snapshot.index < index ==>
              EntryAt(StateAt(run, j, b), index) == EntryAt(StateAt(run, i, a), index)
  {
    hide SetupOK, IsRun, Explains, Good, HistoryOK, StoreOK, Committed;
    var hs := RunOK(u, run);
    var na := ExplainedAt(u, run, hs, i, a);
    var nb := ExplainedAt(u, run, hs, j, b);
    LeaderAt(u, run, hs, j, b, term);
    var fa, fb := Full(hs[i], na.state), Full(hs[j], nb.state);
    var m := Max(i, j);
    CommitReachesLeader(u, run, hs, i, j, na, term);
    GoodLog(u, hs[j], nb);
    FullEntryAt(u, hs[i], na, index);
    assert fa[index - 1] == fa[..na.state.commit][index - 1] == fb[index - 1];
    if nb.state.snapshot.index < index {
      FullEntryAt(u, hs[j], nb, index);
    }
  }

  lemma CommitReachesLeader(u: Setup, run: seq<Cluster>, hs: seq<History>, i: nat, j: nat, n: Core, term: nat)
    requires Explains(u, run, hs) && i < |run| && j < |run|
    requires HistoryOK(u, hs[i]) && HistoryOK(u, hs[j]) && Good(u, hs[i], n) && term in hs[j].reigns
    requires n.state.term < term || (n.state.term == term && i <= j)
    ensures n.state.commit <= n.state.LastIndex() == |Full(hs[i], n.state)|
    ensures Full(hs[i], n.state)[..n.state.commit] <= hs[j].reigns[term].log
  {
    GoodLog(u, hs[i], n);
    hide Good, HistoryOK, Committed, ClusterOK;
    var full, c := Full(hs[i], n.state), n.state.commit;
    var m := Max(i, j);
    GrowthBetween(u, run, hs, i, m);
    GrowthBetween(u, run, hs, j, m);
    CommittedGrows(u, hs[i], hs[m], full, c, n.state.term, n.state.term);
    ReignKept(u, run, hs, j, m, term);
    CommittedInReign(u, hs[m], full, c, n.state.term, term);
    if n.state.term < term {
      BaseInLog(u, hs[j], term);
    }
  }

  lemma GrowthBetween(u: Setup, run: seq<Cluster>, hs: seq<History>, i: nat, m: nat)
    requires Explains(u, run, hs) && i <= m < |run|
    ensures Grows(hs[i], hs[m]) && HistoryOK(u, hs[m])
  {
    hide Grows, HistoryOK;
    assert ClusterOK(u, hs[m], run[m]);
  }

  lemma BaseInLog(u: Setup, h: History, t: nat)
    requires HistoryOK(u, h) && t in h.reigns
    ensures h.reigns[t].base <= h.reigns[t].log
  {
    ReignIsOK(u, h, t);
  }

  // ----- log matching -----

  /** Logs that agree on a term at an index, agree on every entry up to it that both still hold. */
  lemma MatchingLogs(u: Setup, h: History, a: Log, b: Log, index: nat, k: nat)
    requires LogOK(h, a) && LogOK(h, b) && 0 < index <= |a| && index <= |b|
    requires a[index - 1].term == b[index - 1].term && 0 < k <= index
    ensures a[k - 1] == b[k - 1]
  {
    hide LogOK;
    LogMatching(h, a, b, index);
    assert a[k - 1] == a[..index][k - 1];
  }

  /** LOG MATCHING, durable logs: whatever their compaction, on any two nodes, at any two moments. */
  lemma DurableLogsMatch(u: Setup, run: seq<Cluster>, i: nat, j: nat, a: NodeID, b: NodeID, index: nat, k: nat)
    requires SetupOK(u) && IsRun(u, run) && At(run, i, a) && At(run, j, b)
    requires var (sa, sb) := (StateAt(run, i, a), StateAt(run, j, b));
      && EntryAt(sa, index).Some? && EntryAt(sb, index).Some?
      && EntryAt(sa, index).value.term == EntryAt(sb, index).value.term
      && EntryAt(sa, k).Some? && EntryAt(sb, k).Some? && k <= index
    ensures EntryAt(StateAt(run, i, a), k) == EntryAt(StateAt(run, j, b), k)
  {
    hide SetupOK, IsRun, Explains, Good, HistoryOK, StoreOK, LogOK;
    var hs := RunOK(u, run);
    var na := ExplainedAt(u, run, hs, i, a);
    var nb := ExplainedAt(u, run, hs, j, b);
    var m := Max(i, j);
    LogAt(u, run, hs, i, m, na);
    LogAt(u, run, hs, j, m, nb);
    FullEntryAt(u, hs[i], na, index);
    FullEntryAt(u, hs[j], nb, index);
    FullEntryAt(u, hs[i], na, k);
    FullEntryAt(u, hs[j], nb, k);
    MatchingLogs(u, hs[m], Full(hs[i], na.state), Full(hs[j], nb.state), index, k);
  }

  lemma LogAt(u: Setup, run: seq<Cluster>, hs: seq<History>, i: nat, m: nat, n: Core)
    requires Explains(u, run, hs) && i <= m < |run| && |hs| == |run| && Good(u, hs[i], n)
    ensures LogOK(hs[m], Full(hs[i], n.state))
  {
    GoodLog(u, hs[i], n);
    hide Good, LogOK, ClusterOK;
    GrowthBetween(u, run, hs, i, m);
    LogOKGrows(hs[i], hs[m], Full(hs[i], n.state));
  }

  /** The message invariant that makes it sound for a follower to commit up to its own last entry. */
  lemma AppendsCarryTheirCommits(u: Setup, run: seq<Cluster>, i: nat, m: Message)
    requires SetupOK(u) && IsRun(u, run) && i < |run| && m in run[i].network && m.AppendEntries?
    ensures m.leaderCommit <= m.prevIndex + |m.entries|
    ensures forall x | 0 <= x < |m.entries| :: m.entries[x].index == m.prevIndex + x + 1 && 0 < m.entries[x].term <= m.term
    ensures forall x | 0 <= x < |m.entries| :: m.entries[x].kind.ConfigFinal? ==> m.entries[x].index <= m.leaderCommit + 1
  {
    hide SetupOK, IsRun, Explains, HistoryOK;
    var hs := RunOK(u, run);
    MessageAt(u, run, hs, i, m);
    ShippedFrom(u, hs[i], m);
  }

  lemma MessageAt(u: Setup, run: seq<Cluster>, hs: seq<History>, i: nat, m: Message)
    requires Explains(u, run, hs) && |hs| == |run| && i < |run| && m in run[i].network
    ensures HistoryOK(u, hs[i]) && MessageOK(u, hs[i], m)
  {
    hide HistoryOK, MessageOK, Grows;
    assert ClusterOK(u, hs[i], run[i]);
  }

  /** The entries of a message are a stretch of its sender's log, all of it legal. */
  lemma ShippedFrom(u: Setup, h: History, m: Message)
    requires HistoryOK(u, h) && MessageOK(u, h, m) && m.AppendEntries?
    ensures m.term in h.reigns && LogOK(h, h.reigns[m.term].log)
    ensures m.prevIndex + |m.entries| <= |h.reigns[m.term].log|
    ensures forall x | 0 <= x < |m.entries| :: m.entries[x] == h.reigns[m.term].log[m.prevIndex + x]
    ensures forall x | 0 <= x < |m.entries| :: m.entries[x].index == m.prevIndex + x + 1 && 0 < m.entries[x].term <= m.term
    ensures forall x | 0 <= x < |m.entries| :: m.entries[x].kind.ConfigFinal? ==> m.prevIndex + x <= m.leaderCommit
    ensures m.leaderCommit <= m.prevIndex + |m.entries|
  {
    ReignLogOK(u, h, m.term);
    TermsPositive(u, h, h.reigns[m.term].log);
    hide HistoryOK, Committed;
    forall x | 0 <= x < |m.entries|
      ensures m.entries[x] == h.reigns[m.term].log[m.prevIndex + x]
      ensures m.entries[x].index == m.prevIndex + x + 1
    {
      IndexAt(h, h.reigns[m.term].log, m.prevIndex + x);
    }
  }

  /** LOG MATCHING, messages: entries in flight agree with every durable log that has an entry's term. */
  lemma AppendsMatchLogs(u: Setup, run: seq<Cluster>, i: nat, j: nat, m: Message, b: NodeID, x: nat, y: nat)
    requires SetupOK(u) && IsRun(u, run) && i < |run| && m in run[i].network && m.AppendEntries? && At(run, j, b)
    requires y <= x < |m.entries|
    requires EntryAt(StateAt(run, j, b), m.prevIndex + x + 1).Some?
    requires EntryAt(StateAt(run, j, b), m.prevIndex + x + 1).value.term == m.entries[x].term
    requires EntryAt(StateAt(run, j, b), m.prevIndex + y + 1).Some?
    ensures EntryAt(StateAt(run, j, b), m.prevIndex + y + 1) == Some(m.entries[y])
  {
    hide SetupOK, IsRun, Explains, Good, HistoryOK, StoreOK, LogOK, MessageOK;
    var hs := RunOK(u, run);
    var nb := ExplainedAt(u, run, hs, j, b);
    MessageAt(u, run, hs, i, m);
    var k := Max(i, j);
    LogAt(u, run, hs, j, k, nb);
    GrowthOfMessage(u, run, hs, i, k, m);
    ShippedFrom(u, hs[k], m);
    FullEntryAt(u, hs[j], nb, m.prevIndex + x + 1);
    FullEntryAt(u, hs[j], nb, m.prevIndex + y + 1);
    MatchingLogs(u, hs[k], hs[k].reigns[m.term].log, Full(hs[j], nb.state), m.prevIndex + x + 1, m.prevIndex + y + 1);
  }

  lemma GrowthOfMessage(u: Setup, run: seq<Cluster>, hs: seq<History>, i: nat, k: nat, m: Message)
    requires Explains(u, run, hs) && |hs| == |run| && i <= k < |run| && MessageOK(u, hs[i], m)
    ensures HistoryOK(u, hs[k]) && MessageOK(u, hs[k], m)
  {
    hide MessageOK, Grows;
    GrowthBetween(u, run, hs, i, k);
    MessageGrows(u, hs[i], hs[k], m);
  }

  // ----- the persistence barrier -----

  /** With no write outstanding, a running node is exactly its store, and its application is up to date. */
  lemma NothingPendingMeansDurable(u: Setup, run: seq<Cluster>, i: nat, id: NodeID)
    requires SetupOK(u) && IsRun(u, run) && At(run, i, id)
    ensures var p := run[i].processes[id];
      p.Up? && p.node.pending.None? ==>
        && p.stage.Idle?
        && p.node.core.state == p.store.state
        && p.node.core.applied == p.store.applied == p.store.state.commit
        && WF(u, p.node.core)
  {
    hide SetupOK, IsRun, ClusterOK, Good, HistoryOK, WF, AppliedOK;
    var hs := RunOK(u, run);
    var p := run[i].processes[id];
    ProcessAt(u, run, hs, i, id);
    if p.Up? && p.node.pending.None? {
      IdleParts(u, hs[i], id, p);
      GoodParts(u, hs[i], p.node.core);
      GoodIsWF(u, hs[i], p.node.core);
    }
  }

  lemma ProcessAt(u: Setup, run: seq<Cluster>, hs: seq<History>, i: nat, id: NodeID)
    requires Explains(u, run, hs) && |hs| == |run| && At(run, i, id)
    ensures HistoryOK(u, hs[i]) && ProcessOK(u, hs[i], id, run[i].processes[id])
  {
    hide HistoryOK, ProcessOK, Grows;
    assert ClusterOK(u, hs[i], run[i]);
    ProcessIsOK(u, hs[i], run[i], id);
  }

  // ----- restarts, applications, faults -----

  /** RESTART IS NEVER REFUSED: every store, at every moment, passes the check that building a node makes. */
  lemma RestartAccepted(u: Setup, run: seq<Cluster>, i: nat, id: NodeID)
    requires SetupOK(u) && IsRun(u, run) && At(run, i, id)
    ensures ValidState(u, StateAt(run, i, id), StoreAt(run, i, id).applied)
    ensures Boot(u, id, StoreAt(run, i, id)).fault.None?
    ensures var p := Boot(u, id, StoreAt(run, i, id)).process;
      p.Up? && p.node.core.state == StateAt(run, i, id) && p.store.applied == p.node.core.applied == StateAt(run, i, id).commit
  {
    hide SetupOK, IsRun, Explains, Good, HistoryOK, ValidState, Boot;
    var hs := RunOK(u, run);
    var n := ExplainedAt(u, run, hs, i, id);
    StoredStateValid(u, hs[i], n, StoreAt(run, i, id).applied);
    Booted(u, hs[i], id, StoreAt(run, i, id));
  }

  lemma Booted(u: Setup, h: History, id: NodeID, s: Store)
    requires SetupOK(u) && HistoryOK(u, h) && StoreOK(u, h, id, s)
    ensures var t := Boot(u, id, s);
      t.fault.None? && t.process.Up? && t.process.node.core.state == s.state
      && t.process.store.applied == t.process.node.core.applied == s.state.commit
  {
    hide HistoryOK, SetupOK, EffectsOK, Delivered, Good, AppliedOK, Start, ValidSnapshot, ValidEntry, Perform;
    var r := Recovered(u, id, s.state);
    GoodParts(u, h, r);
    StoredStateValid(u, h, r, s.applied);
    StartOK(u, h, id, s);
    var (core, effects) := Start(Fresh(u, id, s.state, s.applied));
    PerformOK(u, h, Up(Node(core, 1, None), Idle, [], false, s), id, effects, core.applied);
  }

  /**
   * APPLY EXACTLY ONCE: across all steps, crashes and restarts each application took the entries
   * after its last snapshot in order, without a gap or a repeat; and no event ever met an entry
   * out of order, overlapping writes, an unexpected acknowledgement, a refused start or a panic.
   */
  lemma AppliedExactlyOnce(u: Setup, run: seq<Cluster>, i: nat, id: NodeID)
    requires SetupOK(u) && IsRun(u, run) && At(run, i, id)
    ensures FaultOK(run[i].fault)
    ensures var s := StoreAt(run, i, id);
      && s.installed.index <= s.applied <= s.state.commit
      && |s.entries| == s.applied - s.installed.index
      && forall x | 0 <= x < |s.entries| :: s.entries[x].index == s.installed.index + x + 1
  {
    hide SetupOK, IsRun, Good, HistoryOK, ProcessesOK, NetworkOK, FaultOK;
    var hs := RunOK(u, run);
    assert ClusterOK(u, hs[i], run[i]);
    var n := ExplainedAt(u, run, hs, i, id);
  }

  // ----- nothing goes back -----

  /** A node's durable term, commit index and application index never decrease. */
  lemma {:induction false} StoresMoveForward(u: Setup, run: seq<Cluster>, i: nat, j: nat, id: NodeID)
    requires SetupOK(u) && IsRun(u, run) && i <= j < |run| && At(run, i, id)
    ensures At(run, j, id) && Forward(StoreAt(run, i, id), StoreAt(run, j, id))
  {
    hide SetupOK, ClusterOK, Next, Provisioned;
    if i < j {
      StoresMoveForward(u, run, i, j - 1, id);
      assert NextAt(u, run, j);
      var hs := RunOK(u, run);
      assert ClusterOK(u, hs[j - 1], run[j - 1]);
      NextForward(u, hs[j - 1], run[j - 1], run[j], id);
    }
  }

  lemma NextForward(u: Setup, h: History, c: Cluster, c': Cluster, id: NodeID)
    requires SetupOK(u) && ClusterOK(u, h, c) && Next(u, c, c') && id in c.processes
    ensures id in c'.processes && Forward(c.processes[id].store, c'.processes[id].store)
  {
    hide SetupOK, ClusterOK, Enabled, After, Forward, Grows;
    var action :| Enabled(c, action) && c' == After(u, c, action);
    var h' := AfterOK(u, h, c, action);
    assert id in c.processes.Keys;
    assert id in c'.processes.Keys;
  }

  /** A node's store never shows two votes in one term. */
  lemma OneVotePerTerm(u: Setup, run: seq<Cluster>, i: nat, j: nat, id: NodeID)
    requires SetupOK(u) && IsRun(u, run) && i <= j && At(run, i, id) && At(run, j, id)
    requires StateAt(run, i, id).term == StateAt(run, j, id).term
    requires StateAt(run, i, id).votedFor != NO_NODE
    ensures StateAt(run, j, id).votedFor == StateAt(run, i, id).votedFor
  {
    hide SetupOK, IsRun, Explains, Good, HistoryOK, StoreOK;
    var hs := RunOK(u, run);
    var n := ExplainedAt(u, run, hs, i, id);
    var n1 := ExplainedAt(u, run, hs, j, id);
    GrowthBetween(u, run, hs, i, j);
    VoteIsKept(u, hs[i], hs[j], n, n1);
  }

  lemma VoteIsKept(u: Setup, a: History, b: History, n: Core, n1: Core)
    requires Grows(a, b) && Good(u, a, n) && Good(u, b, n1) && n.id == n1.id
    requires n.state.term == n1.state.term && n.state.votedFor != NO_NODE
    ensures n1.state.votedFor == n.state.votedFor
  {
    assert LedgerGrows(a.ledgers[n.id], b.ledgers[n.id]);
  }

  /** Every member has a process at every moment. */
  lemma AlwaysThere(u: Setup, run: seq<Cluster>, i: nat, id: NodeID)
    requires SetupOK(u) && IsRun(u, run) && i < |run| && id in u.members
    ensures At(run, i, id)
  {
    StoresMoveForward(u, run, 0, i, id);
  }
}

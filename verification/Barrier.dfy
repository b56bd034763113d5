/**
 * The persistence barrier over whole runs: what a node says, its store bears out when it says it,
 * and ever after.
 */
module Barrier {
  import opened RaftTypes
  import opened Configuration
  import opened RaftHistory
  import opened LeaderCompleteness
  import opened RaftActions
  import opened NodeSpec
  import opened NodeRefinement
  import opened LeaderProofs
  import opened FollowerProofs
  import opened ClusterSpec
  import opened ClusterInvariant
  import opened ClusterSafety
  import opened ClusterTheorems

  // ----- the moment of sending -----

  /** A message is first in the network right after its sender sent it, in the sender's durable term. */
  lemma {:induction false} FirstSent(u: Setup, run: seq<Cluster>, i: nat, m: Message) returns (k: nat)
    requires SetupOK(u) && IsRun(u, run) && i < |run| && m in run[i].network
    ensures 0 < k <= i && m in run[k].network && m !in run[k - 1].network
    ensures At(run, k, m.from) && StateAt(run, k, m.from).term == m.term
  {
    hide SetupOK, Next, ClusterOK;
    assert i > 0;
    if m in run[i - 1].network {
      k := FirstSent(u, run, i - 1, m);
    } else {
      k := i;
      assert NextAt(u, run, i);
      var hs := RunOK(u, run);
      assert ClusterOK(u, hs[i - 1], run[i - 1]);
      SentByNext(u, hs[i - 1], run[i - 1], run[i], m);
    }
  }

  lemma SentByNext(u: Setup, h: History, c: Cluster, c': Cluster, m: Message)
    requires SetupOK(u) && ClusterOK(u, h, c) && Next(u, c, c') && m in c'.network && m !in c.network
    ensures m.from in c'.processes && c'.processes[m.from].store.state.term == m.term
  {
    hide SetupOK, ClusterOK, HistoryOK, ProcessOK, SentOK, GrowsBy, TurnOf;
    var action :| Enabled(c, action) && c' == After(u, c, action);
    var h' := TurnOfOK(u, h, c, action);
    var sent := TurnOf(u, c, action).sent;
    var i :| 0 <= i < |sent| && sent[i] == m;
  }

  // ----- what a store bears out -----

  /** Two logs have the same entry wherever both still hold one, up to an index. */
  ghost predicate AgreeUpTo(a: PersistentState, b: PersistentState, n: nat) {
    forall index: nat {:trigger EntryAt(a, index)} | index <= n && EntryAt(a, index).Some? && EntryAt(b, index).Some? ::
      EntryAt(a, index) == EntryAt(b, index)
  }

  /** An acknowledged prefix: the log reaches it, and agrees on it with the leader of the term whenever it leads. */
  ghost predicate Holds(run: seq<Cluster>, s: PersistentState, term: nat, n: nat) {
    && n <= s.LastIndex()
    && forall x: nat, b {:trigger LeadsAt(run, x, b, term)} | LeadsAt(run, x, b, term) :: AgreeUpTo(s, StateAt(run, x, b), n)
  }

  /** What a message says in its own term: the vote, or the prefix of the leader's log that the sender has stored. */
  ghost predicate BornOut(run: seq<Cluster>, s: PersistentState, m: Message) {
    && (m.RequestVote? ==> s.votedFor == m.from)
    && (m.RequestVoteResponse? && m.granted ==> s.votedFor == m.to)
    && (m.AppendEntriesResponse? && m.success ==> Holds(run, s, m.term, m.matchIndex))
    && (m.InstallSnapshotResponse? && m.success ==> Holds(run, s, m.term, m.matchIndex))
  }

  lemma VotesBornOut(u: Setup, h: History, n: Core, m: Message)
    requires HistoryOK(u, h) && Good(u, h, n) && MessageOK(u, h, m) && m.from == n.id
    ensures m.term <= n.state.term
    ensures m.RequestVote? && m.term == n.state.term ==> n.state.votedFor == m.from
    ensures m.RequestVoteResponse? && m.granted && m.term == n.state.term ==> n.state.votedFor == m.to
  {
  }

  /** What a node acknowledged in its current term is in its log, the same as in the leader's. */
  lemma AckedIsHeld(u: Setup, h: History, n: Core, k: nat)
    requires HistoryOK(u, h) && Good(u, h, n) && Acked(h, n.id, n.state.term, k)
    ensures k <= n.state.LastIndex()
    ensures n.state.term in h.reigns && k <= |h.reigns[n.state.term].log|
    ensures h.reigns[n.state.term].log[..k] <= Full(h, n.state)
  {
    AcksAreOK(u, h, n.id, n.state.term);
    FullLength(u, h, n.state);
    hide HistoryOK, Fold, CommitPoint;
    assert NodeHolds(h, n.id, n.state.term, Full(h, n.state), n.state.term);
    assert Held(h, n.state.term, k, Full(h, n.state), n.state.term, None);
  }

  lemma LeadsThere(run: seq<Cluster>, x: nat, b: NodeID, term: nat)
    requires LeadsAt(run, x, b, term)
    ensures At(run, x, b) && StateAt(run, x, b).term == term
  {
  }

  lemma EntryInside(s: PersistentState, index: nat)
    requires EntryAt(s, index).Some?
    ensures s.snapshot.index < index <= s.LastIndex()
  {
  }

  /** Two stages of one leader's log agree where both reach. */
  lemma GrownLogs(a: Reign, b: Reign, c: Reign)
    requires ReignGrows(a, c) && ReignGrows(b, c)
    ensures forall i | 0 <= i < |a.log| && i < |b.log| :: a.log[i] == b.log[i]
  {
  }

  lemma AckedAgrees(u: Setup, run: seq<Cluster>, hs: seq<History>, j: nat, n: Core, k: nat, x: nat, b: NodeID)
    requires Explains(u, run, hs) && |hs| == |run| && j < |run|
    requires HistoryOK(u, hs[j]) && Good(u, hs[j], n) && Acked(hs[j], n.id, n.state.term, k)
    requires LeadsAt(run, x, b, n.state.term)
    ensures AgreeUpTo(n.state, StateAt(run, x, b), k)
  {
    hide Good, HistoryOK, ClusterOK, Grows, Full, Acked, StoreOK, EntryAt, LeadsAt, Explains;
    AckedIsHeld(u, hs[j], n, k);
    LeadsThere(run, x, b, n.state.term);
    var t := n.state.term;
    var nb := ExplainedAt(u, run, hs, x, b);
    LeaderAt(u, run, hs, x, b, t);
    var m := Max(j, x);
    ReignKept(u, run, hs, j, m, t);
    ReignKept(u, run, hs, x, m, t);
    var mine, theirs := hs[j].reigns[t].log, hs[x].reigns[t].log;
    GrownLogs(hs[j].reigns[t], hs[x].reigns[t], hs[m].reigns[t]);
    forall index: nat | index <= k && EntryAt(n.state, index).Some? && EntryAt(nb.state, index).Some?
      ensures EntryAt(n.state, index) == EntryAt(nb.state, index)
    {
      EntryInside(n.state, index);
      EntryInside(nb.state, index);
      FullEntryAt(u, hs[j], n, index);
      FullEntryAt(u, hs[x], nb, index);
      assert Full(hs[j], n.state)[index - 1] == mine[..k][index - 1] == mine[index - 1];
    }
  }

  lemma MessageBornOut(u: Setup, run: seq<Cluster>, hs: seq<History>, j: nat, m: Message)
    requires Explains(u, run, hs) && |hs| == |run| && At(run, j, m.from)
    requires HistoryOK(u, hs[j]) && MessageOK(u, hs[j], m)
    ensures m.term <= StateAt(run, j, m.from).term
    ensures m.term == StateAt(run, j, m.from).term ==> BornOut(run, StateAt(run, j, m.from), m)
  {
    hide Good, HistoryOK, Explains, StoreOK, EntryAt, AgreeUpTo, Acked;
    var n := ExplainedAt(u, run, hs, j, m.from);
    VotesBornOut(u, hs[j], n, m);
    if m.term == n.state.term && (m.AppendEntriesResponse? || m.InstallSnapshotResponse?) && m.success {
      assert Acked(hs[j], n.id, n.state.term, m.matchIndex);
      AckedIsHeld(u, hs[j], n, m.matchIndex);
      forall x: nat, b | LeadsAt(run, x, b, m.term)
        ensures AgreeUpTo(n.state, StateAt(run, x, b), m.matchIndex)
      {
        AckedAgrees(u, run, hs, j, n, m.matchIndex, x, b);
      }
    }
  }

  /**
   * PERSISTENCE BARRIER: every message was sent at a moment when the sender's store was in its term
   * and bore it out: the vote was stored, and the acknowledged prefix of the leader's log too.
   */
  lemma MessagesAreBornOut(u: Setup, run: seq<Cluster>, i: nat, m: Message) returns (k: nat)
    requires SetupOK(u) && IsRun(u, run) && i < |run| && m in run[i].network
    ensures 0 < k <= i && m in run[k].network && m !in run[k - 1].network
    ensures At(run, k, m.from) && StateAt(run, k, m.from).term == m.term
    ensures BornOut(run, StateAt(run, k, m.from), m)
  {
    hide SetupOK, IsRun, Explains, BornOut, HistoryOK, MessageOK;
    k := FirstSent(u, run, i, m);
    var hs := RunOK(u, run);
    MessageAt(u, run, hs, k, m);
    MessageBornOut(u, run, hs, k, m);
  }

  /** It stays so: at every later moment, through any crash, the store's term is as high, and bears the message out within that term. */
  lemma MessagesStayBornOut(u: Setup, run: seq<Cluster>, i: nat, j: nat, m: Message)
    requires SetupOK(u) && IsRun(u, run) && i <= j < |run| && m in run[i].network && At(run, j, m.from)
    ensures m.term <= StateAt(run, j, m.from).term
    ensures m.term == StateAt(run, j, m.from).term ==> BornOut(run, StateAt(run, j, m.from), m)
  {
    hide SetupOK, IsRun, Explains, BornOut, HistoryOK, MessageOK;
    var hs := RunOK(u, run);
    MessageAt(u, run, hs, i, m);
    GrowthOfMessage(u, run, hs, i, j, m);
    MessageBornOut(u, run, hs, j, m);
  }
}

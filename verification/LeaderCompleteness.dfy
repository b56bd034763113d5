/**
 * Leader completeness and election safety, for every history (sections 5.2, 5.4 and 6 of the
 * extended Raft paper), with candidates free to hold different stable or joint configurations.
 */
module LeaderCompleteness {
  import opened RaftTypes
  import opened Configuration
  import opened RaftHistory

  // ----- comparing two logs -----

  function CommonPrefix(a: Log, b: Log): (d: nat)
    ensures d <= |a| && d <= |b| && a[..d] == b[..d]
    ensures d < |a| && d < |b| ==> a[d] != b[d]
  {
    if a == [] || b == [] || a[0] != b[0] then 0
    else
      var d := CommonPrefix(a[1..], b[1..]);
      assert a[..d + 1] == [a[0]] + a[1..][..d];
      assert b[..d + 1] == [b[0]] + b[1..][..d];
      d + 1
  }

  lemma {:induction false} CommonPrefixSymmetric(a: Log, b: Log)
    ensures CommonPrefix(a, b) == CommonPrefix(b, a)
  {
    if a != [] && b != [] && a[0] == b[0] {
      CommonPrefixSymmetric(a[1..], b[1..]);
    }
  }

  /** No two configuration entries at or past d. */
  ghost predicate OneConfigFrom(log: Log, d: nat) {
    forall i, j | d <= i < j < |log| :: !(log[i].IsConfig() && log[j].IsConfig())
  }

  ghost predicate ChainedLog(u: Setup, log: Log) {
    ChainOK(u, u.initial, log)
  }

  lemma ConfigAdjacentToPrefix(u: Setup, log: Log, d: nat)
    requires d <= |log| && ChainedLog(u, log) && OneConfigFrom(log, d)
    ensures Adjacent(Config(u, log[..d]), Config(u, log))
  {
    assert log == log[..d] + log[d..];
    ChainConcat(u, u.initial, log[..d], log[d..]);
    FoldConcat(u, u.initial, log[..d], log[d..]);
    OneConfigIsAdjacent(u, Config(u, log[..d]), log[d..]);
  }

  /** Quorums of two logs' configurations meet when each has at most one configuration entry past their common prefix. */
  lemma QuorumsOfCloseLogsMeet(u: Setup, p: Log, q: Log, a: set<NodeID>, b: set<NodeID>) returns (v: NodeID)
    requires ChainedLog(u, p) && ChainedLog(u, q)
    requires OneConfigFrom(p, CommonPrefix(p, q)) && OneConfigFrom(q, CommonPrefix(p, q))
    requires Quorum(Config(u, p), a) && Quorum(Config(u, q), b)
    ensures v in a && v in b
  {
    var d := CommonPrefix(p, q);
    ConfigAdjacentToPrefix(u, p, d);
    ConfigAdjacentToPrefix(u, q, d);
    v := AdjacentQuorumsMeet(Config(u, p[..d]), Config(u, p), Config(u, q), a, b);
  }

  lemma LogChained(u: Setup, h: History, log: Log)
    requires HistoryOK(u, h) && LogOK(h, log)
    ensures ChainedLog(u, log)
  {
    if log != [] {
      LastEntryReachesReign(u, h, log);
      assert ReignOK(u, h, LastTerm(log));
      ChainPrefix(u, u.initial, h.reigns[LastTerm(log)].log, |log|);
      assert h.reigns[LastTerm(log)].log[..|log|] == log;
    }
  }

  /** Between two configuration entries of any log lies a commit point. */
  lemma CommitPointBetween(u: Setup, h: History, log: Log, i: nat, j: nat) returns (s: nat, n: nat)
    requires HistoryOK(u, h) && LogOK(h, log)
    requires i < j < |log| && log[i].IsConfig() && log[j].IsConfig()
    ensures CommitPoint(u, h, s, n) && s <= log[j].term && i < n <= j
    ensures h.reigns[s].log[..n] == log[..n]
  {
    var t := log[j].term;
    assert t in h.reigns && log[..j + 1] <= h.reigns[t].log;
    assert ReignOK(u, h, t);
    var rlog := h.reigns[t].log;
    assert rlog[i] == log[..j + 1][i] && rlog[j] == log[..j + 1][j];
    assert rlog[i].IsConfig() && rlog[j].IsConfig() && rlog[j].term == t;
    assert CommittedBetween(u, h, t, i, j);
    s, n :| CommitPoint(u, h, s, n) && s <= t && i < n <= j && h.reigns[s].log[..n] <= rlog;
    assert h.reigns[s].log[..n] == rlog[..n];
    assert rlog[..n] == log[..j + 1][..n] == log[..n];
  }

  // ----- candidates -----

  /** c ran for term t, and exactly the nodes in `voters` are known to have chosen it. */
  ghost predicate Ran(h: History, t: nat, c: NodeID, voters: set<NodeID>) {
    && c in h.ledgers
    && t in h.ledgers[c].ballots
    && h.ledgers[c].ballots[t].choice == c
    && (forall v | v in voters ::
        v in h.ledgers && t in h.ledgers[v].ballots && h.ledgers[v].ballots[t].choice == c)
  }

  function RunLog(h: History, t: nat, c: NodeID): Log
    requires c in h.ledgers && t in h.ledgers[c].ballots
  {
    h.ledgers[c].ballots[t].log
  }

  /** c ran for term t and a quorum of the configuration in its own log chose it. */
  ghost predicate Won(u: Setup, h: History, t: nat, c: NodeID, voters: set<NodeID>) {
    Ran(h, t, c, voters) && Quorum(Config(u, RunLog(h, t, c)), voters)
  }

  ghost predicate IsReign(h: History, t: nat, c: NodeID, voters: set<NodeID>) {
    t in h.reigns && h.reigns[t].leader == c && h.reigns[t].voters == voters
  }

  lemma ReignWon(u: Setup, h: History, t: nat)
    requires HistoryOK(u, h) && t in h.reigns
    ensures Won(u, h, t, h.reigns[t].leader, h.reigns[t].voters)
    ensures RunLog(h, t, h.reigns[t].leader) == h.reigns[t].base
  {
    assert ReignOK(u, h, t);
  }

  lemma RunLogOK(u: Setup, h: History, t: nat, c: NodeID)
    requires HistoryOK(u, h) && Ran(h, t, c, {})
    ensures LogOK(h, RunLog(h, t, c))
    ensures forall i | 0 <= i < |RunLog(h, t, c)| :: RunLog(h, t, c)[i].term < t
  {
    assert LedgerOK(h, c);
    assert BallotOK(h, c, t);
  }

  /** A commit-point prefix has the shape of any other log. */
  lemma CommitPrefixOK(u: Setup, h: History, s: nat, k: nat)
    requires HistoryOK(u, h) && CommitPoint(u, h, s, k)
    ensures LogOK(h, h.reigns[s].log[..k]) && TermsUpTo(h.reigns[s].log[..k], s)
    ensures LastTerm(h.reigns[s].log[..k]) == s
  {
    ReignLogOK(u, h, s);
    LogPrefixOK(h, h.reigns[s].log, k);
  }

  /**
   * LEADER COMPLETENESS.  Everything committed in a term before t is in the log of whoever wins
   * term t, whatever configurations the commit and the election used.
   */
  lemma {:induction false} Complete(u: Setup, h: History, s: nat, k: nat, t: nat, c: NodeID, voters: set<NodeID>)
    requires HistoryOK(u, h)
    requires CommitPoint(u, h, s, k) && s < t
    requires Won(u, h, t, c, voters)
    ensures h.reigns[s].log[..k] <= RunLog(h, t, c)
    decreases t, (if IsReign(h, t, c, voters) then 0 else 2), k
  {
    var p := h.reigns[s].log[..k];
    var run := RunLog(h, t, c);
    if !(p <= run) {
      CommitPrefixOK(u, h, s, k);
      RunLogOK(u, h, t, c);
      var d := CommonPrefix(p, run);
      if !OneConfigFrom(p, d) {
        var i: nat, j: nat :| d <= i < j < |p| && p[i].IsConfig() && p[j].IsConfig();
        var s0, n := CommitPointBetween(u, h, p, i, j);
        Complete(u, h, s0, n, t, c, voters);
        PastCommonPrefix(p, run, n);
      } else if !OneConfigFrom(run, d) {
        var i: nat, j: nat :| d <= i < j < |run| && run[i].IsConfig() && run[j].IsConfig();
        var s0, n := CommitPointBetween(u, h, run, i, j);
        CommitPointsComparable(u, h, s, k, s0, n);
        PastCommonPrefixBoth(p, run, n);
      } else {
        LogChained(u, h, p);
        LogChained(u, h, run);
        var v := QuorumsOfCloseLogsMeet(u, p, run, Ackers(h, s, k), voters);
        CommonVoter(u, h, s, k, t, c, voters, v);
      }
    }
  }

  lemma PastCommonPrefix(p: Log, run: Log, n: nat)
    requires CommonPrefix(p, run) < n <= |p|
    ensures !(p[..n] <= run)
  {
    var d := CommonPrefix(p, run);
    if d < |run| {
      assert p[..n][d] != run[d];
    }
  }

  lemma PastCommonPrefixBoth(p: Log, run: Log, n: nat)
    requires !(p <= run) && CommonPrefix(p, run) < n <= |run|
    ensures !(p <= run[..n]) && !(run[..n] <= p)
  {
    var d := CommonPrefix(p, run);
    assert run[..n][d] == run[d];
    assert p <= run[..n] ==> p <= run;
  }

  /** Two commit points below term t: one's log extends the other's. */
  lemma CommitPointsComparable(u: Setup, h: History, s: nat, k: nat, s0: nat, n: nat)
    requires HistoryOK(u, h)
    requires CommitPoint(u, h, s, k) && CommitPoint(u, h, s0, n)
    ensures h.reigns[s].log[..k] <= h.reigns[s0].log[..n] || h.reigns[s0].log[..n] <= h.reigns[s].log[..k]
    decreases Max(s, s0), 2, 0
  {
    if s < s0 {
      CompleteInReign(u, h, s, k, s0);
    } else if s0 < s {
      CompleteInReign(u, h, s0, n, s);
    }
  }

  lemma CompleteInReign(u: Setup, h: History, s: nat, k: nat, s2: nat)
    requires HistoryOK(u, h)
    requires CommitPoint(u, h, s, k) && s < s2 && s2 in h.reigns
    ensures h.reigns[s].log[..k] <= h.reigns[s2].base
    ensures h.reigns[s].log[..k] <= h.reigns[s2].log
    decreases s2, 1, 0
  {
    ReignWon(u, h, s2);
    Complete(u, h, s, k, s2, h.reigns[s2].leader, h.reigns[s2].voters);
    assert ReignOK(u, h, s2);
  }

  /** A voter that acknowledged the commit and then chose c would not have chosen a log without it. */
  lemma CommonVoter(u: Setup, h: History, s: nat, k: nat, t: nat, c: NodeID, voters: set<NodeID>, v: NodeID)
    requires HistoryOK(u, h)
    requires CommitPoint(u, h, s, k) && s < t
    requires Won(u, h, t, c, voters)
    requires v in Ackers(h, s, k) && v in voters
    ensures h.reigns[s].log[..k] <= RunLog(h, t, c)
    decreases t, (if IsReign(h, t, c, voters) then 0 else 2), 0
  {
    var p := h.reigns[s].log[..k];
    var run := RunLog(h, t, c);
    var vlog := h.ledgers[v].ballots[t].log;
    assert Acked(h, v, s, k);
    assert LedgerOK(h, v);
    assert BallotOK(h, v, t);
    assert AckOK(h, v, s);
    assert BallotHolds(h, v, t, s);
    assert Held(h, s, k, vlog, t, Some(v));
    if !(p <= vlog) {
      var s2: nat :| s < s2 <= t && Missed(h, s, k, s2) && (s2 == t ==> v !in h.reigns[s2].voters);
      CompleteInReign(u, h, s, k, s2);
      assert false;
    }
    CommitPrefixOK(u, h, s, k);
    RunLogOK(u, h, t, c);
    assert vlog[k - 1] == p[k - 1];
    TermsMonotone(u, h, vlog, k - 1, |vlog| - 1);
    assert LastTerm(vlog) >= s >= 1 by { assert ReignOK(u, h, s); }
    assert run != [];
    LastEntryReachesReign(u, h, run);
    LastEntryReachesReign(u, h, vlog);
    if LastTerm(run) > LastTerm(vlog) {
      CompleteInReign(u, h, s, k, LastTerm(run));
    } else {
      assert vlog <= run;
    }
  }

  // ----- election safety -----

  /**
   * ELECTION SAFETY.  Whoever wins an elected term is its leader: two winners of one term would
   * need quorums without a common voter.
   */
  lemma UniqueWinner(u: Setup, h: History, t: nat, c: NodeID, voters: set<NodeID>)
    requires HistoryOK(u, h) && t in h.reigns
    requires Won(u, h, t, c, voters)
    ensures c == h.reigns[t].leader
  {
    var r := h.reigns[t];
    var run := RunLog(h, t, c);
    ReignWon(u, h, t);
    RunLogOK(u, h, t, c);
    RunLogOK(u, h, t, r.leader);
    var d := CommonPrefix(run, r.base);
    CommonPrefixSymmetric(run, r.base);
    if !OneConfigFrom(run, d) {
      var i: nat, j: nat :| d <= i < j < |run| && run[i].IsConfig() && run[j].IsConfig();
      var s, n := CommitPointBetween(u, h, run, i, j);
      Complete(u, h, s, n, t, r.leader, r.voters);
      PastCommonPrefix(run, r.base, n);
    } else if !OneConfigFrom(r.base, d) {
      var i: nat, j: nat :| d <= i < j < |r.base| && r.base[i].IsConfig() && r.base[j].IsConfig();
      var s, n := CommitPointBetween(u, h, r.base, i, j);
      Complete(u, h, s, n, t, c, voters);
      PastCommonPrefix(r.base, run, n);
    } else {
      LogChained(u, h, run);
      LogChained(u, h, r.base);
      var v := QuorumsOfCloseLogsMeet(u, run, r.base, voters, r.voters);
    }
  }

  // ----- consequences -----

  /** The global committed log extends or is extended by every commit point. */
  lemma CommitPointVersusCommitted(u: Setup, h: History, s: nat, k: nat)
    requires HistoryOK(u, h) && CommitPoint(u, h, s, k)
    ensures h.reigns[s].log[..k] <= h.committed || h.committed <= h.reigns[s].log[..k]
  {
    if h.committed != [] {
      var s0: nat, n: nat :| CommitPoint(u, h, s0, n) && h.committed == h.reigns[s0].log[..n];
      CommitPointsComparable(u, h, s, k, s0, n);
    }
  }

  /** What a node of term up to t knows committed is in term t's log; for an earlier term, it was there at the election. */
  lemma CommittedInReign(u: Setup, h: History, log: Log, c: nat, t: nat, t': nat)
    requires HistoryOK(u, h) && Committed(u, h, log, c, t) && t <= t' && t' in h.reigns
    ensures log[..c] <= h.reigns[t'].log
    ensures t < t' ==> log[..c] <= h.reigns[t'].base
  {
    if c > 0 {
      var s: nat, k: nat :| CommitPoint(u, h, s, k) && s <= t && c <= k && log[..c] <= h.reigns[s].log;
      assert log[..c] <= h.reigns[s].log[..k];
      if s < t' {
        CompleteInReign(u, h, s, k, t');
      }
    }
  }

  /** The commit point that vouches for a prefix lies inside the log of any later or equal term. */
  lemma CommitPointInReign(u: Setup, h: History, log: Log, c: nat, t: nat) returns (s: nat, k: nat)
    requires HistoryOK(u, h) && t in h.reigns
    requires Committed(u, h, log, c, t) && c > 0
    ensures CommitPoint(u, h, s, k) && s <= t && c <= k
    ensures h.reigns[s].log[..k] <= h.reigns[t].log
    ensures log[..c] == h.reigns[s].log[..c]
  {
    s, k :| CommitPoint(u, h, s, k) && s <= t && c <= k && log[..c] <= h.reigns[s].log;
    if s < t {
      CompleteInReign(u, h, s, k, t);
    }
  }

  lemma CommittedLogOK(u: Setup, h: History)
    requires HistoryOK(u, h)
    ensures LogOK(h, h.committed) && ChainedLog(u, h.committed) && |h.committed| <= MAX_UINT64
  {
    if h.committed != [] {
      var s: nat, k: nat :| CommitPoint(u, h, s, k) && h.committed == h.reigns[s].log[..k];
      CommitPrefixOK(u, h, s, k);
      LogChained(u, h, h.committed);
      assert ReignOK(u, h, s);
    }
  }
}

/**
 * The history of a Raft cluster, and what every reachable history satisfies.
 *
 * A history remembers, beyond the current state: each node's term, every vote it cast together
 * with its log when it voted, how far it acknowledged each leader's log, and for each elected
 * term the leader, its voters, its log when elected and its log since.  None of this exists in
 * the program; it is what the invariants are about.  Leader completeness and election safety are
 * not invariants here, they are consequences (module LeaderCompleteness).
 */
module RaftHistory {
  import opened RaftTypes
  import opened Configuration

  type Log = seq<Entry>

  /** A vote, with the voter's own log when it was cast.  A candidate's vote for itself records the log it ran with. */
  datatype Ballot = Ballot(choice: NodeID, log: Log)

  /** One node's durable record: its term, its votes by term, and how much of each term's log it acknowledged. */
  datatype Ledger = Ledger(term: nat, ballots: map<nat, Ballot>, acks: map<nat, nat>)

  /** An elected term. */
  datatype Reign = Reign(leader: NodeID, voters: set<NodeID>, base: Log, log: Log)

  datatype History = History(ledgers: map<NodeID, Ledger>, reigns: map<nat, Reign>, committed: Log)

  function TermIn(log: Log, index: nat): nat {
    if 0 < index <= |log| then log[index - 1].term else 0
  }

  function LastTerm(log: Log): nat {
    TermIn(log, |log|)
  }

  predicate UpToDate(candidate: Log, voter: Log) {
    || LastTerm(candidate) > LastTerm(voter)
    || (LastTerm(candidate) == LastTerm(voter) && |candidate| >= |voter|)
  }

  // ----- commitment -----

  ghost predicate Acked(h: History, v: NodeID, s: nat, k: nat) {
    v in h.ledgers && s in h.ledgers[v].acks && h.ledgers[v].acks[s] >= k
  }

  ghost function Ackers(h: History, s: nat, k: nat): set<NodeID> {
    set v | v in h.ledgers && Acked(h, v, s, k)
  }

  /**
   * The first k entries of term s's log are committed: entry k belongs to term s, and a quorum of
   * the configuration in force at entry k acknowledged it in term s.
   */
  ghost predicate CommitPoint(u: Setup, h: History, s: nat, k: nat) {
    && s in h.reigns
    && 0 < k <= |h.reigns[s].log|
    && h.reigns[s].log[k - 1].term == s
    && Quorum(Config(u, h.reigns[s].log[..k]), Ackers(h, s, k))
  }

  /** The first c entries of `log` lie below a commit point of a term up to t. */
  ghost predicate Committed(u: Setup, h: History, log: Log, c: nat, t: nat) {
    && c <= |log|
    && log[..c] <= h.committed
    && (c > 0 ==> exists s: nat, k: nat ::
        CommitPoint(u, h, s, k) && s <= t && c <= k && log[..c] <= h.reigns[s].log)
  }

  // ----- logs -----

  /** Log matching: any log agrees, up to each of its entries, with the log of that entry's leader. */
  ghost predicate LogOK(h: History, log: Log) {
    forall i {:trigger log[i]} | 0 <= i < |log| ::
      && log[i].index == i + 1
      && log[i].term in h.reigns
      && log[..i + 1] <= h.reigns[log[i].term].log
  }

  ghost predicate TermsUpTo(log: Log, t: nat) {
    forall i | 0 <= i < |log| :: log[i].term <= t
  }

  /** P is the acknowledged prefix k of term s; it is in `log`, or a later leader did not have it. */
  ghost predicate Held(h: History, s: nat, k: nat, log: Log, bound: nat, voter: Option<NodeID>)
    requires s in h.reigns && k <= |h.reigns[s].log|
  {
    || h.reigns[s].log[..k] <= log
    || exists s2: nat :: s < s2 <= bound && Missed(h, s, k, s2)
                    && (voter.Some? && s2 == bound ==> voter.value !in h.reigns[s2].voters)
  }

  ghost predicate Missed(h: History, s: nat, k: nat, s2: nat)
    requires s in h.reigns && k <= |h.reigns[s].log|
  {
    s2 in h.reigns && !(h.reigns[s].log[..k] <= h.reigns[s2].base)
  }

  // ----- what every history satisfies -----

  /** In the log of its own term, a configuration entry has a commit point between it and each earlier configuration entry. */
  ghost predicate ConfigsSpaced(u: Setup, h: History, t: nat)
    requires t in h.reigns
  {
    var log := h.reigns[t].log;
    forall i, j {:trigger CommittedBetween(u, h, t, i, j)} |
      0 <= i < j < |log| && log[i].IsConfig() && log[j].IsConfig() && log[j].term == t ::
      CommittedBetween(u, h, t, i, j)
  }

  ghost predicate CommittedBetween(u: Setup, h: History, t: nat, i: nat, j: nat)
    requires t in h.reigns
  {
    exists s: nat, n: nat ::
      CommitPoint(u, h, s, n) && s <= t && i < n <= j && h.reigns[s].log[..n] <= h.reigns[t].log
  }

  ghost predicate ReignShape(h: History, t: nat)
    requires t in h.reigns
  {
    var r := h.reigns[t];
    && 0 < t
    && |r.base| < |r.log| <= MAX_UINT64
    && r.base <= r.log
    && LogOK(h, r.base)
    && (forall i | 0 <= i < |r.base| :: r.base[i].term < t)
    && (forall i | |r.base| <= i < |r.log| :: r.log[i].term == t && r.log[i].index == i + 1)
  }

  ghost predicate Elected(u: Setup, h: History, t: nat)
    requires t in h.reigns
  {
    var r := h.reigns[t];
    && r.leader in h.ledgers
    && t in h.ledgers[r.leader].ballots
    && h.ledgers[r.leader].ballots[t] == Ballot(r.leader, r.base)
    && t in h.ledgers[r.leader].acks
    && h.ledgers[r.leader].acks[t] == |r.log|
    && (forall v | v in r.voters ::
        v in h.ledgers && t in h.ledgers[v].ballots && h.ledgers[v].ballots[t].choice == r.leader)
    && Quorum(Config(u, r.base), r.voters)
  }

  ghost predicate ReignOK(u: Setup, h: History, t: nat)
    requires t in h.reigns
  {
    ReignShape(h, t) && Elected(u, h, t) && ChainOK(u, u.initial, h.reigns[t].log) && ConfigsSpaced(u, h, t)
  }

  ghost predicate BallotOK(h: History, v: NodeID, t: nat)
    requires v in h.ledgers && t in h.ledgers[v].ballots
  {
    var b := h.ledgers[v].ballots[t];
    && 0 < t
    && t <= h.ledgers[v].term
    && LogOK(h, b.log)
    && TermsUpTo(b.log, t)
    && (b.choice == v ==> forall i | 0 <= i < |b.log| :: b.log[i].term < t)
    && b.choice in h.ledgers
    && b.choice != NO_NODE
    && t in h.ledgers[b.choice].ballots
    && h.ledgers[b.choice].ballots[t].choice == b.choice
    && UpToDate(h.ledgers[b.choice].ballots[t].log, b.log)
  }

  ghost predicate AckOK(h: History, v: NodeID, s: nat)
    requires v in h.ledgers && s in h.ledgers[v].acks
  {
    && s <= h.ledgers[v].term
    && s in h.reigns
    && h.ledgers[v].acks[s] <= |h.reigns[s].log|
  }

  /** Whatever v acknowledged before voting in term t was in its log when it voted, or had been overwritten. */
  ghost predicate BallotHolds(h: History, v: NodeID, t: nat, s: nat)
    requires v in h.ledgers && t in h.ledgers[v].ballots && s in h.ledgers[v].acks && AckOK(h, v, s)
  {
    forall k {:trigger Held(h, s, k, h.ledgers[v].ballots[t].log, t, Some(v))} |
      0 <= k <= h.ledgers[v].acks[s] :: Held(h, s, k, h.ledgers[v].ballots[t].log, t, Some(v))
  }

  ghost predicate LedgerOK(h: History, v: NodeID)
    requires v in h.ledgers
  {
    && (forall t {:trigger BallotOK(h, v, t)} | t in h.ledgers[v].ballots :: BallotOK(h, v, t))
    && (forall s {:trigger AckOK(h, v, s)} | s in h.ledgers[v].acks :: AckOK(h, v, s))
    && (forall t, s {:trigger BallotHolds(h, v, t, s)} |
        t in h.ledgers[v].ballots && s in h.ledgers[v].acks && s < t :: BallotHolds(h, v, t, s))
  }

  ghost predicate CommittedOK(u: Setup, h: History) {
    h.committed == [] || exists s: nat, k: nat :: CommitPoint(u, h, s, k) && h.committed == h.reigns[s].log[..k]
  }

  ghost predicate HistoryOK(u: Setup, h: History) {
    && (forall t {:trigger ReignOK(u, h, t)} | t in h.reigns :: ReignOK(u, h, t))
    && (forall v {:trigger LedgerOK(h, v)} | v in h.ledgers :: LedgerOK(h, v))
    && CommittedOK(u, h)
  }

  // ----- growth -----

  ghost predicate LedgerGrows(a: Ledger, b: Ledger) {
    && a.term <= b.term
    && (forall t | t in a.ballots :: t in b.ballots && b.ballots[t] == a.ballots[t])
    && (forall s | s in a.acks :: s in b.acks && a.acks[s] <= b.acks[s])
  }

  ghost predicate ReignGrows(a: Reign, b: Reign) {
    a.leader == b.leader && a.voters == b.voters && a.base == b.base && a.log <= b.log
  }

  /** b is a later history than a. */
  ghost predicate Grows(a: History, b: History) {
    && a.ledgers.Keys == b.ledgers.Keys
    && (forall v | v in a.ledgers :: LedgerGrows(a.ledgers[v], b.ledgers[v]))
    && (forall t | t in a.reigns :: t in b.reigns && ReignGrows(a.reigns[t], b.reigns[t]))
    && a.committed <= b.committed
  }

  /** b is a later history than a, and the difference is node n's doing. */
  ghost predicate GrowsBy(a: History, b: History, n: NodeID) {
    && Grows(a, b)
    && (forall v | v in a.ledgers && v != n :: b.ledgers[v] == a.ledgers[v])
    && (forall t | t in a.reigns && a.reigns[t].leader != n :: b.reigns[t] == a.reigns[t])
    && (forall t | t in b.reigns && t !in a.reigns :: b.reigns[t].leader == n)
  }

  lemma GrowsTransitive(a: History, b: History, c: History)
    requires Grows(a, b) && Grows(b, c)
    ensures Grows(a, c)
  {
    forall v | v in a.ledgers
      ensures LedgerGrows(a.ledgers[v], c.ledgers[v])
    {
      assert LedgerGrows(a.ledgers[v], b.ledgers[v]) && LedgerGrows(b.ledgers[v], c.ledgers[v]);
    }
    forall t | t in a.reigns
      ensures t in c.reigns && ReignGrows(a.reigns[t], c.reigns[t])
    {
      assert ReignGrows(a.reigns[t], b.reigns[t]) && ReignGrows(b.reigns[t], c.reigns[t]);
    }
  }

  lemma GrowsByTransitive(a: History, b: History, c: History, n: NodeID)
    requires GrowsBy(a, b, n) && GrowsBy(b, c, n)
    ensures GrowsBy(a, c, n)
  {
    GrowsTransitive(a, b, c);
  }

  // ----- logs agree -----

  lemma PrefixSlice(a: Log, b: Log, k: nat)
    requires a <= b && k <= |a|
    ensures a[..k] == b[..k]
  {
  }

  lemma ShapeGivesLogOK(h: History, t: nat)
    requires t in h.reigns && ReignShape(h, t)
    ensures LogOK(h, h.reigns[t].log) && TermsUpTo(h.reigns[t].log, t)
  {
    var r := h.reigns[t];
    forall i | 0 <= i < |r.log|
      ensures r.log[i].index == i + 1 && r.log[i].term in h.reigns && r.log[i].term <= t
      ensures r.log[..i + 1] <= h.reigns[r.log[i].term].log
    {
      if i < |r.base| {
        assert r.log[i] == r.base[i];
        assert r.log[..i + 1] == r.base[..i + 1];
      }
    }
  }

  lemma ReignLogOK(u: Setup, h: History, t: nat)
    requires HistoryOK(u, h) && t in h.reigns
    ensures LogOK(h, h.reigns[t].log) && TermsUpTo(h.reigns[t].log, t)
  {
    assert ReignOK(u, h, t);
    ShapeGivesLogOK(h, t);
  }

  lemma LogPrefixOK(h: History, log: Log, k: nat)
    requires LogOK(h, log) && k <= |log|
    ensures LogOK(h, log[..k])
  {
    forall i | 0 <= i < k
      ensures log[..k][i].index == i + 1 && log[..k][i].term in h.reigns
      ensures log[..k][..i + 1] <= h.reigns[log[..k][i].term].log
    {
      assert log[..k][..i + 1] == log[..i + 1];
      assert log[..k][i] == log[i];
    }
  }

  /** Log matching, as the protocol uses it: equal terms at an index mean equal logs up to it. */
  lemma LogMatching(h: History, a: Log, b: Log, index: nat)
    requires LogOK(h, a) && LogOK(h, b)
    requires 0 < index <= |a| && index <= |b|
    requires a[index - 1].term == b[index - 1].term
    ensures a[..index] == b[..index]
  {
    var i := index - 1;
    var t := a[i].term;
    assert a[..i + 1] <= h.reigns[t].log;
    assert b[i].term == t;
    assert b[..i + 1] <= h.reigns[t].log;
    assert a[..i + 1] == h.reigns[t].log[..i + 1];
    assert b[..i + 1] == h.reigns[t].log[..i + 1];
  }

  /** Terms never decrease along a log. */
  lemma TermsMonotone(u: Setup, h: History, log: Log, i: nat, j: nat)
    requires HistoryOK(u, h) && LogOK(h, log) && i <= j < |log|
    ensures log[i].term <= log[j].term
  {
    var t := log[j].term;
    assert t in h.reigns && log[..j + 1] <= h.reigns[t].log;
    ReignLogOK(u, h, t);
    assert log[..j + 1][i] == h.reigns[t].log[i];
  }

  /** A log that ends in term s is a prefix of term s's log and reaches past what its leader was elected with. */
  lemma LastEntryReachesReign(u: Setup, h: History, log: Log)
    requires HistoryOK(u, h) && LogOK(h, log) && log != []
    ensures LastTerm(log) in h.reigns
    ensures log <= h.reigns[LastTerm(log)].log
    ensures h.reigns[LastTerm(log)].base <= log
  {
    var s := LastTerm(log);
    assert log[|log| - 1].term == s;
    assert log[..|log|] == log;
    assert ReignOK(u, h, s);
    var r := h.reigns[s];
    assert forall i | 0 <= i < |r.base| :: r.log[i] == r.base[i];
  }

  // ----- monotonicity -----

  lemma LogOKGrows(a: History, b: History, log: Log)
    requires Grows(a, b) && LogOK(a, log)
    ensures LogOK(b, log)
  {
    forall i | 0 <= i < |log|
      ensures log[i].index == i + 1 && log[i].term in b.reigns && log[..i + 1] <= b.reigns[log[i].term].log
    {
      assert log[i].term in a.reigns;
      assert ReignGrows(a.reigns[log[i].term], b.reigns[log[i].term]);
    }
  }

  lemma CommitPointGrows(u: Setup, a: History, b: History, s: nat, k: nat)
    requires Grows(a, b) && CommitPoint(u, a, s, k)
    ensures CommitPoint(u, b, s, k)
    ensures a.reigns[s].log[..k] == b.reigns[s].log[..k]
  {
    assert ReignGrows(a.reigns[s], b.reigns[s]);
    PrefixSlice(a.reigns[s].log, b.reigns[s].log, k);
    forall v | v in Ackers(a, s, k)
      ensures v in Ackers(b, s, k)
    {
      assert Acked(a, v, s, k);
      assert LedgerGrows(a.ledgers[v], b.ledgers[v]);
      assert Acked(b, v, s, k);
    }
    QuorumMonotone(Config(u, a.reigns[s].log[..k]), Ackers(a, s, k), Ackers(b, s, k));
  }

  lemma CommittedGrows(u: Setup, a: History, b: History, log: Log, c: nat, t: nat, t': nat)
    requires Grows(a, b) && Committed(u, a, log, c, t) && t <= t'
    ensures Committed(u, b, log, c, t')
  {
    if c > 0 {
      var s: nat, k: nat :| CommitPoint(u, a, s, k) && s <= t && c <= k && log[..c] <= a.reigns[s].log;
      CommitPointGrows(u, a, b, s, k);
      assert ReignGrows(a.reigns[s], b.reigns[s]);
      assert log[..c] <= b.reigns[s].log;
    }
  }

  /** Being committed is about the first c entries only. */
  lemma CommittedPrefix(u: Setup, h: History, log: Log, log': Log, c: nat, c': nat, t: nat)
    requires Committed(u, h, log, c, t) && c' <= c
    requires c' <= |log'| && log'[..c'] == log[..c']
    ensures Committed(u, h, log', c', t)
  {
    assert log'[..c'] <= log[..c];
    if c' > 0 {
      var s: nat, k: nat :| CommitPoint(u, h, s, k) && s <= t && c <= k && log[..c] <= h.reigns[s].log;
      assert CommitPoint(u, h, s, k) && s <= t && c' <= k && log'[..c'] <= h.reigns[s].log;
    }
  }

  lemma HeldGrows(a: History, b: History, s: nat, k: nat, log: Log, bound: nat, voter: Option<NodeID>)
    requires Grows(a, b) && s in a.reigns && k <= |a.reigns[s].log|
    requires Held(a, s, k, log, bound, voter)
    ensures s in b.reigns && k <= |b.reigns[s].log|
    ensures Held(b, s, k, log, bound, voter)
  {
    assert ReignGrows(a.reigns[s], b.reigns[s]);
    PrefixSlice(a.reigns[s].log, b.reigns[s].log, k);
    if !(a.reigns[s].log[..k] <= log) {
      var s2: nat :| s < s2 <= bound && Missed(a, s, k, s2)
                && (voter.Some? && s2 == bound ==> voter.value !in a.reigns[s2].voters);
      assert ReignGrows(a.reigns[s2], b.reigns[s2]);
      assert Missed(b, s, k, s2);
    }
  }
}

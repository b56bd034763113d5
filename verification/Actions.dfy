/**
 * The protocol seen abstractly: what a node's state and a message must have to do with the
 * history, and the atomic actions that keep it so.  Every handler of the node is a sequence of
 * these actions (module NodeRefinement).
 */
module RaftActions {
  import opened RaftTypes
  import opened Configuration
  import opened RaftHistory
  import opened LeaderCompleteness

  /** A node as the protocol sees it: `log` is the whole log, from index one, whatever was compacted. */
  datatype Replica = Replica(
    term: nat,
    vote: NodeID,
    log: Log,
    commit: nat,
    role: Role,
    votes: set<NodeID>,
    match_: map<NodeID, nat>)

  /** The nodes a leader believes to hold its first k entries. */
  function Matched(match_: map<NodeID, nat>, k: nat): set<NodeID> {
    set m | m in match_ && match_[m] >= k
  }

  // ----- invariants -----

  /** A final configuration is only ever stored once everything before it is committed. */
  ghost predicate FinalsFollowCommit(log: Log, commit: nat) {
    forall i | 0 <= i < |log| :: log[i].kind.ConfigFinal? ==> i <= commit
  }

  ghost predicate NodeHolds(h: History, n: NodeID, s: nat, log: Log, term: nat)
    requires n in h.ledgers && s in h.ledgers[n].acks && AckOK(h, n, s)
  {
    forall k {:trigger Held(h, s, k, log, term, None)} |
      0 <= k <= h.ledgers[n].acks[s] :: Held(h, s, k, log, term, None)
  }

  ghost predicate CandidateOK(h: History, n: NodeID, r: Replica)
    requires n in h.ledgers
  {
    && r.term in h.ledgers[n].ballots
    && h.ledgers[n].ballots[r.term] == Ballot(n, r.log)
    && (forall v | v in r.votes ::
        v in h.ledgers && r.term in h.ledgers[v].ballots && h.ledgers[v].ballots[r.term].choice == n)
    && (r.term in h.reigns ==> h.reigns[r.term].leader != n)
  }

  ghost predicate LeaderOK(h: History, n: NodeID, r: Replica)
    requires n in h.ledgers
  {
    && r.term in h.reigns
    && h.reigns[r.term].leader == n
    && h.reigns[r.term].log == r.log
    && (forall m | m in r.match_ :: r.match_[m] == 0 || Acked(h, m, r.term, r.match_[m]))
  }

  ghost predicate VoteOK(h: History, n: NodeID, r: Replica)
    requires n in h.ledgers
  {
    && (r.vote == NO_NODE <==> r.term !in h.ledgers[n].ballots)
    && (r.vote != NO_NODE ==> h.ledgers[n].ballots[r.term].choice == r.vote)
  }

  /** A node's log: matched, with its commit index vouched for, and holding what the node acknowledged. */
  ghost predicate NodeLogOK(u: Setup, h: History, n: NodeID, log: Log, commit: nat, term: nat)
    requires n in h.ledgers
  {
    && LogOK(h, log)
    && TermsUpTo(log, term)
    && Committed(u, h, log, commit, term)
    && FinalsFollowCommit(log, commit)
    && (forall s {:trigger NodeHolds(h, n, s, log, term)} |
        s in h.ledgers[n].acks && AckOK(h, n, s) :: NodeHolds(h, n, s, log, term))
  }

  ghost predicate NodeOK(u: Setup, h: History, n: NodeID, r: Replica) {
    && n in h.ledgers
    && n != NO_NODE
    && r.term == h.ledgers[n].term
    && NodeLogOK(u, h, n, r.log, r.commit, r.term)
    && VoteOK(h, n, r)
    && (r.role.Candidate? ==> CandidateOK(h, n, r))
    && (r.role.Leader? ==> LeaderOK(h, n, r))
  }

  /** A snapshot is a checkpoint of the global committed log. */
  ghost predicate SnapshotOK(u: Setup, h: History, snapshot: Snapshot) {
    && 0 < snapshot.index <= |h.committed|
    && snapshot.term == h.committed[snapshot.index - 1].term
    && snapshot.members == u.members
    && snapshot.membership == Config(u, h.committed[..snapshot.index])
  }

  ghost predicate AppendOK(u: Setup, h: History, m: Message)
    requires m.AppendEntries?
  {
    && m.term in h.reigns
    && h.reigns[m.term].leader == m.from
    && var log := h.reigns[m.term].log;
    && m.prevIndex + |m.entries| <= |log|
    && m.entries == log[m.prevIndex..m.prevIndex + |m.entries|]
    && m.prevTerm == TermIn(log, m.prevIndex)
    && m.leaderCommit <= m.prevIndex + |m.entries|
    && Committed(u, h, log, m.leaderCommit, m.term)
    && (forall i | 0 <= i < |m.entries| :: m.entries[i].kind.ConfigFinal? ==> m.prevIndex + i <= m.leaderCommit)
  }

  ghost predicate InstallOK(u: Setup, h: History, m: Message)
    requires m.InstallSnapshot?
  {
    && m.term in h.reigns
    && h.reigns[m.term].leader == m.from
    && SnapshotOK(u, h, m.snapshot)
    && Committed(u, h, h.reigns[m.term].log, m.snapshot.index, m.term)
  }

  /** What every message ever sent says about the history; it stays true forever. */
  ghost predicate MessageOK(u: Setup, h: History, m: Message) {
    && m.from in h.ledgers
    && m.term <= h.ledgers[m.from].term
    && match m
       case RequestVote(from, _, term, lastIndex, lastTerm) =>
         && term in h.ledgers[from].ballots
         && h.ledgers[from].ballots[term].choice == from
         && lastIndex == |h.ledgers[from].ballots[term].log|
         && lastTerm == LastTerm(h.ledgers[from].ballots[term].log)
       case RequestVoteResponse(from, to, term, granted) =>
         granted ==> term in h.ledgers[from].ballots && h.ledgers[from].ballots[term].choice == to
       case AppendEntries(_, _, _, _, _, _, _, _) => AppendOK(u, h, m)
       case AppendEntriesResponse(from, _, term, _, success, matchIndex, _) =>
         success ==> Acked(h, from, term, matchIndex)
       case InstallSnapshot(_, _, _, _, _) => InstallOK(u, h, m)
       case InstallSnapshotResponse(from, _, term, _, success, matchIndex) =>
         success ==> Acked(h, from, term, matchIndex)
  }

  // ----- frames -----

  lemma CommittedInGrownReign(u: Setup, a: History, b: History, t: nat, c: nat)
    requires Grows(a, b) && t in a.reigns && Committed(u, a, a.reigns[t].log, c, t)
    ensures t in b.reigns && Committed(u, b, b.reigns[t].log, c, t)
  {
    assert ReignGrows(a.reigns[t], b.reigns[t]);
    CommittedGrows(u, a, b, a.reigns[t].log, c, t, t);
    CommittedPrefix(u, b, a.reigns[t].log, b.reigns[t].log, c, c, t);
  }

  lemma AppendGrows(u: Setup, a: History, b: History, m: Message)
    requires Grows(a, b) && m.AppendEntries? && AppendOK(u, a, m)
    ensures AppendOK(u, b, m)
  {
    assert ReignGrows(a.reigns[m.term], b.reigns[m.term]);
    CommittedInGrownReign(u, a, b, m.term, m.leaderCommit);
  }

  lemma InstallGrows(u: Setup, a: History, b: History, m: Message)
    requires Grows(a, b) && m.InstallSnapshot? && InstallOK(u, a, m)
    ensures InstallOK(u, b, m)
  {
    assert ReignGrows(a.reigns[m.term], b.reigns[m.term]);
    CommittedInGrownReign(u, a, b, m.term, m.snapshot.index);
    assert b.committed[..m.snapshot.index] == a.committed[..m.snapshot.index];
  }

  /** A message stays justified as the history grows. */
  lemma MessageGrows(u: Setup, a: History, b: History, m: Message)
    requires Grows(a, b) && MessageOK(u, a, m)
    ensures MessageOK(u, b, m)
  {
    assert LedgerGrows(a.ledgers[m.from], b.ledgers[m.from]);
    match m
    case RequestVote(_, _, _, _, _) =>
    case RequestVoteResponse(_, _, _, _) =>
    case AppendEntries(_, _, _, _, _, _, _, _) =>
      AppendGrows(u, a, b, m);
    case AppendEntriesResponse(_, _, _, _, _, _, _) =>
    case InstallSnapshot(_, _, _, _, _) =>
      InstallGrows(u, a, b, m);
    case InstallSnapshotResponse(_, _, _, _, _, _) =>
  }

  lemma AckedGrows(a: History, b: History, v: NodeID, s: nat, k: nat)
    requires Grows(a, b) && Acked(a, v, s, k)
    ensures Acked(b, v, s, k)
  {
    assert LedgerGrows(a.ledgers[v], b.ledgers[v]);
  }

  lemma ReignIsOK(u: Setup, h: History, t: nat)
    requires HistoryOK(u, h) && t in h.reigns
    ensures ReignOK(u, h, t)
  {
    assert ReignOK(u, h, t);
  }

  lemma AcksAreOK(u: Setup, h: History, v: NodeID, s: nat)
    requires HistoryOK(u, h) && v in h.ledgers && s in h.ledgers[v].acks
    ensures AckOK(h, v, s)
  {
    assert LedgerOK(h, v);
  }

  lemma NodeHoldsGrows(a: History, b: History, n: NodeID, s: nat, log: Log, term: nat)
    requires Grows(a, b)
    requires n in a.ledgers && s in a.ledgers[n].acks && AckOK(a, n, s)
    requires s in b.ledgers[n].acks && AckOK(b, n, s) && a.ledgers[n].acks[s] == b.ledgers[n].acks[s]
    requires NodeHolds(a, n, s, log, term)
    ensures NodeHolds(b, n, s, log, term)
  {
    forall k | 0 <= k <= b.ledgers[n].acks[s]
      ensures Held(b, s, k, log, term, None)
    {
      assert Held(a, s, k, log, term, None);
      HeldGrows(a, b, s, k, log, term, None);
    }
  }

  /** What another node does leaves this node's invariant alone. */
  lemma NodeFrame(u: Setup, a: History, b: History, actor: NodeID, n: NodeID, r: Replica)
    requires GrowsBy(a, b, actor) && n != actor
    requires HistoryOK(u, a) && HistoryOK(u, b)
    requires NodeOK(u, a, n, r)
    ensures NodeOK(u, b, n, r)
  {
    LogOKGrows(a, b, r.log);
    CommittedGrows(u, a, b, r.log, r.commit, r.term, r.term);
    assert b.ledgers[n] == a.ledgers[n];
    forall s | s in b.ledgers[n].acks && AckOK(b, n, s)
      ensures NodeHolds(b, n, s, r.log, r.term)
    {
      assert LedgerOK(a, n) && AckOK(a, n, s);
      assert NodeHolds(a, n, s, r.log, r.term);
      NodeHoldsGrows(a, b, n, s, r.log, r.term);
    }
    if r.role.Candidate? {
      forall v | v in r.votes
        ensures v in b.ledgers && r.term in b.ledgers[v].ballots && b.ledgers[v].ballots[r.term].choice == n
      {
        assert LedgerGrows(a.ledgers[v], b.ledgers[v]);
      }
    }
    if r.role.Leader? {
      forall m | m in r.match_
        ensures r.match_[m] == 0 || Acked(b, m, r.term, r.match_[m])
      {
        if r.match_[m] != 0 {
          AckedGrows(a, b, m, r.term, r.match_[m]);
        }
      }
    }
  }

  lemma BallotGrows(a: History, b: History, v: NodeID, t: nat)
    requires Grows(a, b) && v in a.ledgers && t in a.ledgers[v].ballots && BallotOK(a, v, t)
    ensures BallotOK(b, v, t)
  {
    assert LedgerGrows(a.ledgers[v], b.ledgers[v]);
    var c := a.ledgers[v].ballots[t].choice;
    assert LedgerGrows(a.ledgers[c], b.ledgers[c]);
    LogOKGrows(a, b, a.ledgers[v].ballots[t].log);
  }

  lemma BallotHoldsGrows(a: History, b: History, v: NodeID, t: nat, s: nat)
    requires Grows(a, b)
    requires v in a.ledgers && t in a.ledgers[v].ballots && s in a.ledgers[v].acks && AckOK(a, v, s)
    requires s in b.ledgers[v].acks && AckOK(b, v, s) && a.ledgers[v].acks[s] == b.ledgers[v].acks[s]
    requires BallotHolds(a, v, t, s)
    ensures BallotHolds(b, v, t, s)
  {
    assert LedgerGrows(a.ledgers[v], b.ledgers[v]);
    var log := a.ledgers[v].ballots[t].log;
    forall k | 0 <= k <= b.ledgers[v].acks[s]
      ensures Held(b, s, k, log, t, Some(v))
    {
      assert Held(a, s, k, log, t, Some(v));
      HeldGrows(a, b, s, k, log, t, Some(v));
    }
  }

  lemma LedgerFrame(a: History, b: History, v: NodeID)
    requires Grows(a, b) && v in a.ledgers && LedgerOK(a, v) && a.ledgers[v] == b.ledgers[v]
    ensures LedgerOK(b, v)
  {
    forall t | t in b.ledgers[v].ballots
      ensures BallotOK(b, v, t)
    {
      assert BallotOK(a, v, t);
      BallotGrows(a, b, v, t);
    }
    forall s | s in b.ledgers[v].acks
      ensures AckOK(b, v, s)
    {
      assert AckOK(a, v, s);
      assert ReignGrows(a.reigns[s], b.reigns[s]);
    }
    forall t, s | t in b.ledgers[v].ballots && s in b.ledgers[v].acks && s < t
      ensures BallotHolds(b, v, t, s)
    {
      assert AckOK(a, v, s) && AckOK(b, v, s);
      assert BallotHolds(a, v, t, s);
      BallotHoldsGrows(a, b, v, t, s);
    }
  }

  lemma ReignFrame(u: Setup, a: History, b: History, t: nat)
    requires Grows(a, b) && t in a.reigns && ReignOK(u, a, t) && a.reigns[t] == b.reigns[t]
    requires a.reigns[t].leader in b.ledgers
    requires t in b.ledgers[a.reigns[t].leader].acks
    requires b.ledgers[a.reigns[t].leader].acks[t] == |a.reigns[t].log|
    ensures ReignOK(u, b, t)
  {
    var r := a.reigns[t];
    LogOKGrows(a, b, r.base);
    assert LedgerGrows(a.ledgers[r.leader], b.ledgers[r.leader]);
    forall v | v in r.voters
      ensures v in b.ledgers && t in b.ledgers[v].ballots && b.ledgers[v].ballots[t].choice == r.leader
    {
      assert LedgerGrows(a.ledgers[v], b.ledgers[v]);
    }
    SpacedFrame(u, a, b, t);
  }

  lemma SpacedFrame(u: Setup, a: History, b: History, t: nat)
    requires Grows(a, b) && t in a.reigns && ConfigsSpaced(u, a, t) && t in b.reigns && a.reigns[t].log == b.reigns[t].log
    ensures ConfigsSpaced(u, b, t)
  {
    var log := a.reigns[t].log;
    forall i, j | 0 <= i < j < |log| && log[i].IsConfig() && log[j].IsConfig() && log[j].term == t
      ensures CommittedBetween(u, b, t, i, j)
    {
      assert CommittedBetween(u, a, t, i, j);
      BetweenGrows(u, a, b, t, i, j);
    }
  }

  lemma BetweenGrows(u: Setup, a: History, b: History, t: nat, i: nat, j: nat)
    requires Grows(a, b) && t in a.reigns && CommittedBetween(u, a, t, i, j)
    ensures t in b.reigns && CommittedBetween(u, b, t, i, j)
  {
    var s: nat, n: nat :| CommitPoint(u, a, s, n) && s <= t && i < n <= j && a.reigns[s].log[..n] <= a.reigns[t].log;
    CommitPointGrows(u, a, b, s, n);
    assert ReignGrows(a.reigns[t], b.reigns[t]);
  }

  lemma CommittedOKGrows(u: Setup, a: History, b: History)
    requires Grows(a, b) && CommittedOK(u, a) && a.committed == b.committed
    ensures CommittedOK(u, b)
  {
    if a.committed != [] {
      var s: nat, k: nat :| CommitPoint(u, a, s, k) && a.committed == a.reigns[s].log[..k];
      CommitPointGrows(u, a, b, s, k);
    }
  }

  /** Only one node's ledger changed. */
  lemma HistoryAfterLedger(u: Setup, a: History, b: History, n: NodeID)
    requires HistoryOK(u, a)
    requires n in a.ledgers && n in b.ledgers
    requires b == a.(ledgers := a.ledgers[n := b.ledgers[n]])
    requires LedgerGrows(a.ledgers[n], b.ledgers[n]) && LedgerOK(b, n)
    requires forall t | t in a.reigns && a.reigns[t].leader == n && t in a.ledgers[n].acks ::
               b.ledgers[n].acks[t] == a.ledgers[n].acks[t]
    ensures HistoryOK(u, b) && GrowsBy(a, b, n)
  {
    assert GrowsBy(a, b, n);
    forall t | t in b.reigns
      ensures ReignOK(u, b, t)
    {
      assert ReignOK(u, a, t);
      ReignFrame(u, a, b, t);
    }
    forall v | v in b.ledgers
      ensures LedgerOK(b, v)
    {
      if v != n {
        assert LedgerOK(a, v);
        LedgerFrame(a, b, v);
      }
    }
    CommittedOKGrows(u, a, b);
  }

  /** n's own reign in its current term began or grew. */
  lemma HistoryAfterReign(u: Setup, a: History, b: History, n: NodeID)
    requires HistoryOK(u, a)
    requires n in a.ledgers && n in b.ledgers
    requires var t := a.ledgers[n].term;
      && t in b.reigns
      && b.reigns[t].leader == n
      && b == History(
                a.ledgers[n := a.ledgers[n].(acks := a.ledgers[n].acks[t := |b.reigns[t].log|])],
                a.reigns[t := b.reigns[t]],
                a.committed)
      && (t in a.reigns ==> ReignGrows(a.reigns[t], b.reigns[t]))
      && (t in a.ledgers[n].acks ==> a.ledgers[n].acks[t] <= |b.reigns[t].log|)
      && ReignOK(u, b, t)
    ensures HistoryOK(u, b) && GrowsBy(a, b, n)
  {
    hide CommitPoint, Fold, Count;
    var t := a.ledgers[n].term;
    assert GrowsBy(a, b, n);
    forall t2 | t2 in b.reigns
      ensures ReignOK(u, b, t2)
    {
      if t2 != t {
        assert ReignOK(u, a, t2);
        ReignFrame(u, a, b, t2);
      }
    }
    forall v | v in b.ledgers
      ensures LedgerOK(b, v)
    {
      assert LedgerOK(a, v);
      if v != n {
        LedgerFrame(a, b, v);
      } else {
        OwnLedgerAfterAck(a, b, n, t);
      }
    }
    CommittedOKGrows(u, a, b);
  }

  /** Acknowledging more of the current term disturbs no vote already cast. */
  lemma OwnLedgerAfterAck(a: History, b: History, n: NodeID, t: nat)
    requires Grows(a, b) && n in a.ledgers && LedgerOK(a, n)
    requires a.ledgers[n].term == t == b.ledgers[n].term
    requires b.ledgers[n].ballots == a.ledgers[n].ballots
    requires t in b.ledgers[n].acks && b.ledgers[n].acks == a.ledgers[n].acks[t := b.ledgers[n].acks[t]]
    requires AckOK(b, n, t)
    ensures LedgerOK(b, n)
  {
    forall t2 | t2 in b.ledgers[n].ballots
      ensures BallotOK(b, n, t2)
    {
      assert BallotOK(a, n, t2);
      BallotGrows(a, b, n, t2);
    }
    forall s | s in b.ledgers[n].acks
      ensures AckOK(b, n, s)
    {
      if s != t {
        assert AckOK(a, n, s);
        assert ReignGrows(a.reigns[s], b.reigns[s]);
      }
    }
    forall t2, s | t2 in b.ledgers[n].ballots && s in b.ledgers[n].acks && s < t2
      ensures BallotHolds(b, n, t2, s)
    {
      assert BallotOK(a, n, t2) && AckOK(b, n, s);
      assert AckOK(a, n, s);
      assert BallotHolds(a, n, t2, s);
      BallotHoldsGrows(a, b, n, t2, s);
    }
  }

  // ----- actions that change no history -----

  /** Losing every volatile role: a crash, or yielding within a term. */
  lemma StepDown(u: Setup, h: History, n: NodeID, r: Replica)
    requires NodeOK(u, h, n, r)
    ensures NodeOK(u, h, n, r.(role := Follower, votes := {}, match_ := map[]))
  {
  }

  lemma CountVote(u: Setup, h: History, n: NodeID, r: Replica, m: Message)
    requires NodeOK(u, h, n, r) && r.role.Candidate?
    requires MessageOK(u, h, m) && m.RequestVoteResponse? && m.granted && m.term == r.term && m.to == n
    ensures NodeOK(u, h, n, r.(votes := r.votes + {m.from}))
  {
  }

  lemma CountAck(u: Setup, h: History, n: NodeID, r: Replica, v: NodeID, k: nat, k': nat)
    requires NodeOK(u, h, n, r) && r.role.Leader?
    requires Acked(h, v, r.term, k) && k' <= k
    ensures NodeOK(u, h, n, r.(match_ := r.match_[v := k']))
  {
    var r' := r.(match_ := r.match_[v := k']);
    assert Acked(h, v, r.term, k');
    forall m | m in r'.match_
      ensures r'.match_[m] == 0 || Acked(h, m, r'.term, r'.match_[m])
    {
    }
  }

  // ----- actions that extend the history -----

  /** Learning of a later term. */
  lemma Bump(u: Setup, h: History, n: NodeID, r: Replica, t: nat) returns (h': History)
    requires HistoryOK(u, h) && NodeOK(u, h, n, r) && t > r.term
    ensures HistoryOK(u, h') && GrowsBy(h, h', n)
    ensures NodeOK(u, h', n, Replica(t, NO_NODE, r.log, r.commit, Follower, {}, map[]))
  {
    h' := h.(ledgers := h.ledgers[n := h.ledgers[n].(term := t)]);
    var r' := Replica(t, NO_NODE, r.log, r.commit, Follower, {}, map[]);
    assert LedgerOK(h, n);
    assert GrowsBy(h, h', n);
    LedgerAfterNewTerm(h, h', n);
    HistoryAfterLedger(u, h, h', n);
    NodeAfterNewTerm(u, h, h', n, r, t);
    assert forall b | b in h.ledgers[n].ballots :: BallotOK(h, n, b);
    forall b | b in h.ledgers[n].ballots
      ensures b < t
    {
      assert BallotOK(h, n, b);
    }
  }

  lemma LedgerAfterNewTerm(a: History, b: History, n: NodeID)
    requires Grows(a, b) && n in a.ledgers && LedgerOK(a, n)
    requires b.ledgers[n].ballots == a.ledgers[n].ballots && b.ledgers[n].acks == a.ledgers[n].acks
    ensures LedgerOK(b, n)
  {
    assert LedgerGrows(a.ledgers[n], b.ledgers[n]);
    forall t | t in b.ledgers[n].ballots
      ensures BallotOK(b, n, t)
    {
      assert BallotOK(a, n, t);
      BallotGrows(a, b, n, t);
    }
    forall s | s in b.ledgers[n].acks
      ensures AckOK(b, n, s)
    {
      assert AckOK(a, n, s);
      assert ReignGrows(a.reigns[s], b.reigns[s]);
    }
    forall t, s | t in b.ledgers[n].ballots && s in b.ledgers[n].acks && s < t
      ensures BallotHolds(b, n, t, s)
    {
      assert BallotOK(a, n, t) && AckOK(a, n, s) && AckOK(b, n, s);
      assert BallotHolds(a, n, t, s);
      BallotHoldsGrows(a, b, n, t, s);
    }
  }

  /** The log-related part of a node's invariant when its term grows and its log stays. */
  lemma NodeAfterNewTerm(u: Setup, a: History, b: History, n: NodeID, r: Replica, t: nat)
    requires Grows(a, b) && NodeOK(u, a, n, r) && t >= r.term
    requires LedgerOK(a, n) && b.ledgers[n].acks == a.ledgers[n].acks
    ensures NodeLogOK(u, b, n, r.log, r.commit, t)
  {
    LogOKGrows(a, b, r.log);
    CommittedGrows(u, a, b, r.log, r.commit, r.term, t);
    forall s | s in b.ledgers[n].acks && AckOK(b, n, s)
      ensures NodeHolds(b, n, s, r.log, t)
    {
      assert AckOK(a, n, s);
      assert NodeHolds(a, n, s, r.log, r.term);
      forall k | 0 <= k <= b.ledgers[n].acks[s]
        ensures Held(b, s, k, r.log, t, None)
      {
        assert Held(a, s, k, r.log, r.term, None);
        HeldGrows(a, b, s, k, r.log, r.term, None);
      }
    }
  }

  /** A node votes, for itself or for a candidate whose log is up to date, in a term it has not voted in. */
  lemma CastBallot(u: Setup, h: History, n: NodeID, r: Replica, c: NodeID) returns (h': History)
    requires HistoryOK(u, h) && NodeOK(u, h, n, r) && r.role.Follower?
    requires 0 < r.term && r.vote == NO_NODE
    requires c != NO_NODE
    requires c == n ==> TermsUpTo(r.log, r.term - 1)
    requires c != n ==> Ran(h, r.term, c, {}) && UpToDate(RunLog(h, r.term, c), r.log)
    ensures HistoryOK(u, h') && GrowsBy(h, h', n)
    ensures h'.ledgers[n].ballots == h.ledgers[n].ballots[r.term := Ballot(c, r.log)]
    ensures NodeOK(u, h', n, r.(vote := c))
    ensures h'.reigns == h.reigns
  {
    hide CommitPoint, Fold, Count;
    h' := h.(ledgers := h.ledgers[n := h.ledgers[n].(ballots := h.ledgers[n].ballots[r.term := Ballot(c, r.log)])]);
    var t := r.term;
    assert LedgerOK(h, n);
    assert GrowsBy(h, h', n);
    NodeAfterNewTerm(u, h, h', n, r, t);
    LedgerAfterBallot(u, h, h', n, r, c);
    HistoryAfterLedger(u, h, h', n);
  }

  lemma LedgerAfterBallot(u: Setup, h: History, h': History, n: NodeID, r: Replica, c: NodeID)
    requires HistoryOK(u, h) && NodeOK(u, h, n, r) && GrowsBy(h, h', n)
    requires 0 < r.term && r.vote == NO_NODE && c != NO_NODE
    requires c == n ==> TermsUpTo(r.log, r.term - 1)
    requires c != n ==> Ran(h, r.term, c, {}) && UpToDate(RunLog(h, r.term, c), r.log)
    requires h'.reigns == h.reigns
    requires h'.ledgers[n] == h.ledgers[n].(ballots := h.ledgers[n].ballots[r.term := Ballot(c, r.log)])
    ensures LedgerOK(h', n)
  {
    var t := r.term;
    assert LedgerOK(h, n);
    forall t2 | t2 in h'.ledgers[n].ballots
      ensures BallotOK(h', n, t2)
    {
      if t2 != t {
        assert BallotOK(h, n, t2);
        BallotGrows(h, h', n, t2);
      } else {
        LogOKGrows(h, h', r.log);
      }
    }
    forall s | s in h'.ledgers[n].acks
      ensures AckOK(h', n, s)
    {
      assert AckOK(h, n, s);
    }
    forall t2, s | t2 in h'.ledgers[n].ballots && s in h'.ledgers[n].acks && s < t2
      ensures BallotHolds(h', n, t2, s)
    {
      assert AckOK(h, n, s) && AckOK(h', n, s) && BallotOK(h', n, t2);
      if t2 != t {
        assert BallotHolds(h, n, t2, s);
        BallotHoldsGrows(h, h', n, t2, s);
      } else {
        NewBallotHolds(u, h, h', n, r, s);
      }
    }
  }

  lemma NewBallotHolds(u: Setup, h: History, h': History, n: NodeID, r: Replica, s: nat)
    requires HistoryOK(u, h) && NodeOK(u, h, n, r) && GrowsBy(h, h', n)
    requires r.vote == NO_NODE && h'.reigns == h.reigns
    requires r.term in h'.ledgers[n].ballots && h'.ledgers[n].ballots[r.term].log == r.log
    requires s in h.ledgers[n].acks && h'.ledgers[n].acks == h.ledgers[n].acks
    requires AckOK(h, n, s) && AckOK(h', n, s)
    ensures BallotHolds(h', n, r.term, s)
  {
    assert NodeHolds(h, n, s, r.log, r.term);
    forall k | 0 <= k <= h'.ledgers[n].acks[s]
      ensures Held(h', s, k, r.log, r.term, Some(n))
    {
      assert Held(h, s, k, r.log, r.term, None);
      if !(h.reigns[s].log[..k] <= r.log) {
        var s2: nat :| s < s2 <= r.term && Missed(h, s, k, s2);
        assert Missed(h', s, k, s2);
        if s2 == r.term {
          assert ReignOK(u, h, s2);
        }
      }
    }
  }

  /** A follower that just voted for itself is a candidate. */
  lemma VotedForSelf(u: Setup, h: History, n: NodeID, r: Replica)
    requires NodeOK(u, h, n, r) && r.role.Follower?
    requires r.term in h.ledgers[n].ballots && h.ledgers[n].ballots[r.term] == Ballot(n, r.log)
    requires r.term in h.reigns ==> h.reigns[r.term].leader != n
    ensures NodeOK(u, h, n, r.(role := Candidate, votes := {n}))
  {
  }

  /** Nobody has been elected by a node that has not voted in the term. */
  lemma NotYetLeader(u: Setup, h: History, n: NodeID, r: Replica)
    requires HistoryOK(u, h) && NodeOK(u, h, n, r) && r.vote == NO_NODE
    ensures r.term in h.reigns ==> h.reigns[r.term].leader != n
  {
    if r.term in h.reigns {
      assert ReignOK(u, h, r.term);
    }
  }

  /** A node starts an election in the next term. */
  lemma Campaign(u: Setup, h: History, n: NodeID, r: Replica) returns (h': History)
    requires HistoryOK(u, h) && NodeOK(u, h, n, r)
    ensures HistoryOK(u, h') && GrowsBy(h, h', n)
    ensures NodeOK(u, h', n, Replica(r.term + 1, n, r.log, r.commit, Candidate, {n}, map[]))
  {
    assert n in h.ledgers && n != NO_NODE && TermsUpTo(r.log, r.term);
    var h1 := Bump(u, h, n, r, r.term + 1);
    var r1 := Replica(r.term + 1, NO_NODE, r.log, r.commit, Follower, {}, map[]);
    hide HistoryOK, NodeOK;
    NotYetLeader(u, h1, n, r1);
    h' := CastBallot(u, h1, n, r1, n);
    GrowsByTransitive(h, h1, h', n);
    VotedForSelf(u, h', n, r1.(vote := n));
  }

  /** A candidate with a quorum of its own configuration becomes leader and appends the term's first entry. */
  lemma Elect(u: Setup, h: History, n: NodeID, r: Replica, noop: Entry, match_: map<NodeID, nat>) returns (h': History)
    requires HistoryOK(u, h) && NodeOK(u, h, n, r) && r.role.Candidate?
    requires Quorum(Config(u, r.log), r.votes)
    requires noop == Entry(|r.log| + 1, r.term, Noop, [], ZERO_MEMBERSHIP)
    requires |r.log| < MAX_UINT64
    requires forall m | m in match_ :: match_[m] == 0 || (m == n && match_[m] <= |r.log| + 1)
    ensures HistoryOK(u, h') && GrowsBy(h, h', n)
    ensures NodeOK(u, h', n, r.(role := Leader, log := r.log + [noop], match_ := match_))
    ensures Acked(h', n, r.term, |r.log| + 1)
  {
    hide CommitPoint, Fold, Count;
    var t := r.term;
    assert Won(u, h, t, n, r.votes);
    if t in h.reigns {
      UniqueWinner(u, h, t, n, r.votes);
      assert false;
    }
    var log' := r.log + [noop];
    h' := History(
      h.ledgers[n := h.ledgers[n].(acks := h.ledgers[n].acks[t := |log'|])],
      h.reigns[t := Reign(n, r.votes, r.log, log')],
      h.committed);
    assert LedgerOK(h, n);
    if t in h.ledgers[n].acks {
      AcksAreOK(u, h, n, t);
      assert false;
    }
    assert GrowsBy(h, h', n);
    RunLogOK(u, h, t, n);
    assert BallotOK(h, n, t);
    LogOKGrows(h, h', r.log);
    NewReignOK(u, h, h', n, r, noop);
    HistoryAfterReign(u, h, h', n);
    LeaderAfterAppend(u, h, h', n, r, noop, match_);
  }

  lemma NewReignOK(u: Setup, h: History, h': History, n: NodeID, r: Replica, noop: Entry)
    requires HistoryOK(u, h) && NodeOK(u, h, n, r) && r.role.Candidate? && GrowsBy(h, h', n)
    requires Quorum(Config(u, r.log), r.votes) && |r.log| < MAX_UINT64 && r.term > 0
    requires noop == Entry(|r.log| + 1, r.term, Noop, [], ZERO_MEMBERSHIP)
    requires TermsUpTo(r.log, r.term - 1) && LogOK(h', r.log)
    requires r.term in h'.reigns && h'.reigns[r.term] == Reign(n, r.votes, r.log, r.log + [noop])
    requires r.term in h'.ledgers[n].acks && h'.ledgers[n].acks[r.term] == |r.log| + 1
    requires h'.ledgers[n].ballots == h.ledgers[n].ballots
    ensures ReignOK(u, h', r.term)
  {
    hide CommitPoint, Fold, Count;
    var t := r.term;
    var log' := r.log + [noop];
    forall v | v in r.votes
      ensures v in h'.ledgers && t in h'.ledgers[v].ballots && h'.ledgers[v].ballots[t].choice == n
    {
      assert LedgerGrows(h.ledgers[v], h'.ledgers[v]);
    }
    LogChained(u, h, r.log);
    ChainConcat(u, u.initial, r.log, [noop]);
    assert ChainOK(u, Config(u, r.log), [noop]) by {
      assert LegalAt(u, Config(u, r.log), [noop], 0);
    }
    assert forall j | 0 <= j < |log'| && log'[j].IsConfig() :: log'[j].term < t;
  }

  lemma LeaderLogAfterAppend(u: Setup, h: History, h': History, n: NodeID, r: Replica, entry: Entry)
    requires HistoryOK(u, h) && HistoryOK(u, h') && NodeOK(u, h, n, r) && Grows(h, h')
    requires r.term in h'.reigns && h'.reigns[r.term].log == r.log + [entry]
    requires entry.kind.ConfigFinal? ==> r.commit == |r.log|
    requires h'.ledgers[n] == h.ledgers[n].(acks := h.ledgers[n].acks[r.term := |r.log| + 1])
    ensures NodeLogOK(u, h', n, r.log + [entry], r.commit, r.term)
  {
    hide CommitPoint, Fold, Count;
    var t := r.term;
    var log' := r.log + [entry];
    ReignLogOK(u, h', t);
    CommittedGrows(u, h, h', r.log, r.commit, t, t);
    assert log'[..r.commit] == r.log[..r.commit];
    CommittedPrefix(u, h', r.log, log', r.commit, r.commit, t);
    forall s | s in h'.ledgers[n].acks && AckOK(h', n, s)
      ensures NodeHolds(h', n, s, log', t)
    {
      HoldsAfterAppend(u, h, h', n, r, entry, s);
    }
  }

  /** The acting leader's own invariant after one entry joined its log. */
  lemma LeaderAfterAppend(u: Setup, h: History, h': History, n: NodeID, r: Replica, entry: Entry, match_: map<NodeID, nat>)
    requires HistoryOK(u, h) && HistoryOK(u, h') && NodeOK(u, h, n, r) && Grows(h, h')
    requires r.term in h'.reigns && h'.reigns[r.term].leader == n && h'.reigns[r.term].log == r.log + [entry]
    requires entry.kind.ConfigFinal? ==> r.commit == |r.log|
    requires h'.ledgers[n] == h.ledgers[n].(acks := h.ledgers[n].acks[r.term := |r.log| + 1])
    requires forall m | m in match_ :: match_[m] == 0 || Acked(h', m, r.term, match_[m])
    ensures NodeOK(u, h', n, r.(role := Leader, log := r.log + [entry], match_ := match_))
    ensures Acked(h', n, r.term, |r.log| + 1)
  {
    hide NodeLogOK, HistoryOK;
    LeaderLogAfterAppend(u, h, h', n, r, entry);
  }

  lemma HoldsAfterAppend(u: Setup, h: History, h': History, n: NodeID, r: Replica, entry: Entry, s: nat)
    requires HistoryOK(u, h) && NodeOK(u, h, n, r) && Grows(h, h')
    requires r.term in h'.reigns && h'.reigns[r.term].log == r.log + [entry]
    requires h'.ledgers[n] == h.ledgers[n].(acks := h.ledgers[n].acks[r.term := |r.log| + 1])
    requires s in h'.ledgers[n].acks && AckOK(h', n, s)
    ensures NodeHolds(h', n, s, r.log + [entry], r.term)
  {
    var log' := r.log + [entry];
    if s != r.term {
      AcksAreOK(u, h, n, s);
      assert NodeHolds(h, n, s, r.log, r.term);
    }
    forall k | 0 <= k <= h'.ledgers[n].acks[s]
      ensures Held(h', s, k, log', r.term, None)
    {
      if s != r.term {
        assert Held(h, s, k, r.log, r.term, None);
        HeldGrows(h, h', s, k, r.log, r.term, None);
        assert r.log <= log';
      }
    }
  }

  /** A leader appends an entry of its own. */
  lemma Append(u: Setup, h: History, n: NodeID, r: Replica, entry: Entry) returns (h': History)
    requires HistoryOK(u, h) && NodeOK(u, h, n, r) && r.role.Leader?
    requires entry.index == |r.log| + 1 && entry.term == r.term
    requires |r.log| < MAX_UINT64
    requires LegalAt(u, Config(u, r.log), [entry], 0)
    requires entry.IsConfig() ==> forall i | r.commit <= i < |r.log| :: !r.log[i].IsConfig()
    requires entry.kind.ConfigFinal? ==> r.commit == |r.log|
    ensures HistoryOK(u, h') && GrowsBy(h, h', n)
    ensures NodeOK(u, h', n, r.(log := r.log + [entry], match_ := r.match_[n := |r.log| + 1]))
  {
    hide CommitPoint, Fold, Count;
    hide HistoryOK, NodeLogOK;
    var t := r.term;
    var log' := r.log + [entry];
    var match' := r.match_[n := |log'|];
    h' := History(
      h.ledgers[n := h.ledgers[n].(acks := h.ledgers[n].acks[t := |log'|])],
      h.reigns[t := h.reigns[t].(log := log')],
      h.committed);
    ReignIsOK(u, h, t);
    assert GrowsBy(h, h', n);
    GrownReignOK(u, h, h', n, r, entry);
    HistoryAfterReign(u, h, h', n);
    assert Acked(h', n, t, |log'|);
    forall m | m in match'
      ensures match'[m] == 0 || Acked(h', m, t, match'[m])
    {
      if m != n && match'[m] != 0 {
        AckedGrows(h, h', m, t, match'[m]);
      }
    }
    LeaderAfterAppend(u, h, h', n, r, entry, match');
  }

  lemma GrownReignOK(u: Setup, h: History, h': History, n: NodeID, r: Replica, entry: Entry)
    requires HistoryOK(u, h) && NodeOK(u, h, n, r) && r.role.Leader? && GrowsBy(h, h', n)
    requires entry.index == |r.log| + 1 && entry.term == r.term && |r.log| < MAX_UINT64
    requires LegalAt(u, Config(u, r.log), [entry], 0)
    requires entry.IsConfig() ==> forall i | r.commit <= i < |r.log| :: !r.log[i].IsConfig()
    requires h'.reigns[r.term] == h.reigns[r.term].(log := r.log + [entry])
    requires h'.ledgers[n] == h.ledgers[n].(acks := h.ledgers[n].acks[r.term := |r.log| + 1])
    ensures ReignOK(u, h', r.term)
  {
    hide CommitPoint, Fold, Count;
    GrownReignSpaced(u, h, h', n, r, entry);
    ReignIsOK(u, h, r.term);
    hide HistoryOK, NodeLogOK, ConfigsSpaced;
    var t := r.term;
    var g := h.reigns[t];
    LogOKGrows(h, h', g.base);
    forall v | v in g.voters
      ensures v in h'.ledgers && t in h'.ledgers[v].ballots && h'.ledgers[v].ballots[t].choice == n
    {
      assert LedgerGrows(h.ledgers[v], h'.ledgers[v]);
    }
    ChainConcat(u, u.initial, r.log, [entry]);
  }

  lemma GrownReignSpaced(u: Setup, h: History, h': History, n: NodeID, r: Replica, entry: Entry)
    requires HistoryOK(u, h) && NodeOK(u, h, n, r) && r.role.Leader? && GrowsBy(h, h', n)
    requires entry.IsConfig() ==> forall i | r.commit <= i < |r.log| :: !r.log[i].IsConfig()
    requires h'.reigns[r.term] == h.reigns[r.term].(log := r.log + [entry])
    ensures ConfigsSpaced(u, h', r.term)
  {
    var t := r.term;
    var log' := r.log + [entry];
    ReignIsOK(u, h, t);
    hide HistoryOK, NodeLogOK;
    forall i, j | 0 <= i < j < |log'| && log'[i].IsConfig() && log'[j].IsConfig() && log'[j].term == t
      ensures CommittedBetween(u, h', t, i, j)
    {
      if j < |r.log| {
        assert CommittedBetween(u, h, t, i, j);
        BetweenGrows(u, h, h', t, i, j);
      } else {
        NewConfigSpaced(u, h, h', n, r, entry, i);
      }
    }
  }

  lemma NewConfigSpaced(u: Setup, h: History, h': History, n: NodeID, r: Replica, entry: Entry, i: nat)
    requires HistoryOK(u, h) && NodeOK(u, h, n, r) && r.role.Leader? && GrowsBy(h, h', n)
    requires forall i | r.commit <= i < |r.log| :: !r.log[i].IsConfig()
    requires h'.reigns[r.term] == h.reigns[r.term].(log := r.log + [entry])
    requires i < |r.log| && r.log[i].IsConfig()
    ensures CommittedBetween(u, h', r.term, i, |r.log|)
  {
    assert i < r.commit;
    var s, k := CommitPointInReign(u, h, r.log, r.commit, r.term);
    CommitPointGrows(u, h, h', s, k);
    assert h'.reigns[s].log[..k] <= r.log <= h'.reigns[r.term].log;
  }

  /**
   * A node takes the first q entries of its term's leader, keeping its own log when it already has
   * them, learns that the first c are committed, and acknowledges q.
   */
  function Adopted(log: Log, leaderLog: Log, q: nat): Log
    requires q <= |leaderLog|
  {
    if leaderLog[..q] <= log then log else leaderLog[..q]
  }

  lemma Adopt(u: Setup, h: History, n: NodeID, r: Replica, q: nat, c: nat) returns (h': History)
    requires HistoryOK(u, h) && NodeOK(u, h, n, r) && r.role.Follower?
    requires r.term in h.reigns && h.reigns[r.term].leader != n
    requires c <= q <= |h.reigns[r.term].log|
    requires Committed(u, h, h.reigns[r.term].log, c, r.term)
    requires forall i | 0 <= i < q :: h.reigns[r.term].log[i].kind.ConfigFinal? ==> i <= Max(r.commit, c)
    ensures HistoryOK(u, h') && GrowsBy(h, h', n)
    ensures NodeOK(u, h', n, r.(log := Adopted(r.log, h.reigns[r.term].log, q), commit := Max(r.commit, c)))
    ensures Acked(h', n, r.term, q)
    ensures h'.reigns == h.reigns && h'.committed == h.committed
  {
    hide CommitPoint, Fold, Count;
    var t := r.term;
    var acks := h.ledgers[n].acks;
    var a := if t in acks then Max(acks[t], q) else q;
    h' := h.(ledgers := h.ledgers[n := h.ledgers[n].(acks := acks[t := a])]);
    if t in acks {
      AcksAreOK(u, h, n, t);
    }
    assert LedgerOK(h, n);
    assert GrowsBy(h, h', n);
    OwnLedgerAfterAck(h, h', n, t);
    HistoryAfterLedger(u, h, h', n);
    AdoptedLogOK(u, h, h', n, r, q, c);
    hide NodeLogOK, HistoryOK;
  }

  lemma AdoptedLogOK(u: Setup, h: History, h': History, n: NodeID, r: Replica, q: nat, c: nat)
    requires HistoryOK(u, h) && HistoryOK(u, h') && NodeOK(u, h, n, r) && Grows(h, h')
    requires h'.reigns == h.reigns
    requires r.term in h.reigns && c <= q <= |h.reigns[r.term].log|
    requires Committed(u, h, h.reigns[r.term].log, c, r.term)
    requires forall i | 0 <= i < q :: h.reigns[r.term].log[i].kind.ConfigFinal? ==> i <= Max(r.commit, c)
    requires r.term in h'.ledgers[n].acks
    requires h'.ledgers[n].acks == h.ledgers[n].acks[r.term := h'.ledgers[n].acks[r.term]]
    requires h'.ledgers[n].acks[r.term] == (if r.term in h.ledgers[n].acks then Max(h.ledgers[n].acks[r.term], q) else q)
    ensures NodeLogOK(u, h', n, Adopted(r.log, h.reigns[r.term].log, q), Max(r.commit, c), r.term)
  {
    var t := r.term;
    var leaderLog := h.reigns[t].log;
    var log' := Adopted(r.log, leaderLog, q);
    ReignLogOK(u, h', t);
    LogOKGrows(h, h', r.log);
    CommittedInReign(u, h, r.log, r.commit, t, t);
    CommittedGrows(u, h, h', r.log, r.commit, t, t);
    CommittedGrows(u, h, h', leaderLog, c, t, t);
    hide HistoryOK, LogOK, Committed;
    AdoptedLogShape(u, h', r.log, leaderLog, t, q, r.commit, c);
    forall s | s in h'.ledgers[n].acks && AckOK(h', n, s)
      ensures NodeHolds(h', n, s, log', t)
    {
      HoldsAfterAdopt(u, h, h', n, r, q, s);
    }
  }

  lemma AdoptedLogShape(u: Setup, h: History, log: Log, leaderLog: Log, t: nat, q: nat, commit: nat, c: nat)
    requires LogOK(h, log) && TermsUpTo(log, t) && FinalsFollowCommit(log, commit)
    requires LogOK(h, leaderLog) && TermsUpTo(leaderLog, t)
    requires Committed(u, h, log, commit, t) && Committed(u, h, leaderLog, c, t)
    requires c <= q <= |leaderLog| && log[..commit] <= leaderLog
    requires forall i | 0 <= i < q :: leaderLog[i].kind.ConfigFinal? ==> i <= Max(commit, c)
    ensures var log' := Adopted(log, leaderLog, q);
      && LogOK(h, log')
      && TermsUpTo(log', t)
      && Committed(u, h, log', Max(commit, c), t)
      && FinalsFollowCommit(log', Max(commit, c))
  {
    var log' := Adopted(log, leaderLog, q);
    LogPrefixOK(h, leaderLog, q);
    AdoptKeepsCommitted(log, leaderLog, q, commit);
    assert log'[..c] == leaderLog[..q][..c];
    hide LogOK, Committed;
    CommittedPrefix(u, h, log, log', commit, commit, t);
    CommittedPrefix(u, h, leaderLog, log', c, c, t);
  }

  /** What a node has committed it shares with the leader, so taking the leader's entries cannot remove it. */
  lemma AdoptKeepsCommitted(log: Log, leaderLog: Log, q: nat, c: nat)
    requires c <= |log| && log[..c] <= leaderLog && q <= |leaderLog|
    ensures c <= |Adopted(log, leaderLog, q)| && Adopted(log, leaderLog, q)[..c] == log[..c]
  {
    if q <= c {
      PrefixSlice(log[..c], leaderLog, q);
      assert leaderLog[..q] <= log[..c];
    }
  }

  lemma HoldsAfterAdopt(u: Setup, h: History, h': History, n: NodeID, r: Replica, q: nat, s: nat)
    requires HistoryOK(u, h) && NodeOK(u, h, n, r) && Grows(h, h') && h'.reigns == h.reigns
    requires r.term in h.reigns && q <= |h.reigns[r.term].log|
    requires r.term in h'.ledgers[n].acks
    requires h'.ledgers[n].acks == h.ledgers[n].acks[r.term := h'.ledgers[n].acks[r.term]]
    requires h'.ledgers[n].acks[r.term] == (if r.term in h.ledgers[n].acks then Max(h.ledgers[n].acks[r.term], q) else q)
    requires s in h'.ledgers[n].acks && AckOK(h', n, s)
    ensures NodeHolds(h', n, s, Adopted(r.log, h.reigns[r.term].log, q), r.term)
  {
    hide CommitPoint, Fold, Count;
    var t := r.term;
    var leaderLog := h.reigns[t].log;
    var log' := Adopted(r.log, leaderLog, q);
    if s in h.ledgers[n].acks {
      AcksAreOK(u, h, n, s);
      assert NodeHolds(h, n, s, r.log, t);
    }
    forall k | 0 <= k <= h'.ledgers[n].acks[s]
      ensures Held(h', s, k, log', t, None)
    {
      if s == t && k <= q {
        assert leaderLog[..k] == leaderLog[..q][..k];
        assert leaderLog[..q] <= log';
      } else {
        assert Held(h, s, k, r.log, t, None);
        HeldAfterAdopt(u, h, h', s, k, r.log, q, t);
      }
    }
  }

  /** An acknowledged prefix the leader's entries overwrite is one the leader was elected without. */
  lemma HeldAfterAdopt(u: Setup, h: History, h': History, s: nat, k: nat, log: Log, q: nat, t: nat)
    requires HistoryOK(u, h) && Grows(h, h') && h'.reigns == h.reigns
    requires s in h.reigns && k <= |h.reigns[s].log| && s <= t
    requires t in h.reigns && q <= |h.reigns[t].log|
    requires Held(h, s, k, log, t, None)
    requires s == t ==> q < k
    ensures Held(h', s, k, Adopted(log, h.reigns[t].log, q), t, None)
  {
    var p := h.reigns[s].log[..k];
    var leaderLog := h.reigns[t].log;
    assert p <= leaderLog && q <= |p| ==> leaderLog[..q] <= p;
    if p <= log {
      if !(leaderLog[..q] <= log) && !(p <= leaderLog[..q]) {
        assert !(p <= leaderLog);
        assert ReignOK(u, h, t);
        assert Missed(h', s, k, t);
      }
    } else {
      var s2: nat :| s < s2 <= t && Missed(h, s, k, s2);
      assert Missed(h', s, k, s2);
    }
  }

  /** A leader learns that a quorum of the configuration at entry k acknowledged entry k of its own term. */
  lemma LearnCommit(u: Setup, h: History, n: NodeID, r: Replica, k: nat) returns (h': History)
    requires HistoryOK(u, h) && NodeOK(u, h, n, r) && r.role.Leader?
    requires r.commit < k <= |r.log| && r.log[k - 1].term == r.term
    requires Quorum(Config(u, r.log[..k]), Matched(r.match_, k))
    ensures HistoryOK(u, h') && GrowsBy(h, h', n)
    ensures NodeOK(u, h', n, r.(commit := k))
  {
    var t := r.term;
    forall m | m in Matched(r.match_, k)
      ensures m in Ackers(h, t, k)
    {
      assert Acked(h, m, t, r.match_[m]);
      assert Acked(h, m, t, k);
    }
    QuorumMonotone(Config(u, r.log[..k]), Matched(r.match_, k), Ackers(h, t, k));
    assert CommitPoint(u, h, t, k);
    CommitPointVersusCommitted(u, h, t, k);
    h' := h.(committed := if k > |h.committed| then r.log[..k] else h.committed);
    assert GrowsBy(h, h', n);
    CommitPointGrows(u, h, h', t, k);
    HistoryAfterCommit(u, h, h', t, k);
    LogAfterCommit(u, h, h', n, r, k);
    RolesAfterCommit(u, h, h', n, r, k);
  }

  lemma HistoryAfterCommit(u: Setup, h: History, h': History, t: nat, k: nat)
    requires HistoryOK(u, h) && Grows(h, h')
    requires h'.ledgers == h.ledgers && h'.reigns == h.reigns
    requires CommitPoint(u, h', t, k)
    requires h'.committed == h.committed || h'.committed == h.reigns[t].log[..k]
    ensures HistoryOK(u, h')
  {
    forall t | t in h'.reigns
      ensures ReignOK(u, h', t)
    {
      assert ReignOK(u, h, t);
      ReignFrame(u, h, h', t);
    }
    forall v | v in h'.ledgers
      ensures LedgerOK(h', v)
    {
      assert LedgerOK(h, v);
      LedgerFrame(h, h', v);
    }
    if h'.committed == h.committed {
      CommittedOKGrows(u, h, h');
    }
  }

  lemma LogAfterCommit(u: Setup, h: History, h': History, n: NodeID, r: Replica, k: nat)
    requires HistoryOK(u, h) && NodeOK(u, h, n, r) && Grows(h, h') && h'.ledgers == h.ledgers
    requires r.commit < k <= |r.log| && r.term in h'.reigns && h'.reigns[r.term].log == r.log
    requires CommitPoint(u, h', r.term, k) && r.log[..k] <= h'.committed
    ensures NodeLogOK(u, h', n, r.log, k, r.term)
  {
    LogOKGrows(h, h', r.log);
    assert r.log[..k] <= r.log;
    assert Committed(u, h', r.log, k, r.term);
    forall s | s in h'.ledgers[n].acks && AckOK(h', n, s)
      ensures NodeHolds(h', n, s, r.log, r.term)
    {
      AcksAreOK(u, h, n, s);
      assert NodeHolds(h, n, s, r.log, r.term);
      NodeHoldsGrows(h, h', n, s, r.log, r.term);
    }
  }

  lemma RolesAfterCommit(u: Setup, h: History, h': History, n: NodeID, r: Replica, k: nat)
    requires NodeOK(u, h, n, r) && h'.ledgers == h.ledgers && h'.reigns == h.reigns
    requires NodeLogOK(u, h', n, r.log, k, r.term)
    ensures NodeOK(u, h', n, r.(commit := k))
  {
    if r.role.Leader? {
      forall m | m in r.match_
        ensures r.match_[m] == 0 || Acked(h', m, r.term, r.match_[m])
      {
        assert r.match_[m] == 0 || Acked(h, m, r.term, r.match_[m]);
      }
    }
    hide NodeLogOK;
  }
}

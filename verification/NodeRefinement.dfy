/**
 * Every transition of the node is a sequence of abstract actions.  A node that compacted its log
 * is viewed with the whole log: the committed entries its snapshot stands for, then its suffix.
 */
module NodeRefinement {
  import opened RaftTypes
  import opened Configuration
  import opened RaftHistory
  import opened LeaderCompleteness
  import opened RaftActions
  import opened NodeSpec

  // ----- the whole log behind a compacted one -----

  ghost function Full(h: History, state: PersistentState): Log {
    if state.snapshot.index <= |h.committed| then h.committed[..state.snapshot.index] + state.log else state.log
  }

  ghost function View(h: History, n: Core): Replica {
    Replica(n.state.term, n.state.votedFor, Full(h, n.state), n.state.commit, n.role, n.votes, n.matchIndex)
  }

  /** A universe in canonical order with a legal initial configuration. */
  ghost predicate SetupOK(u: Setup) {
    && IsSorted(u.members)
    && NO_NODE !in u.members
    && ValidateMembership(u.initial, u.members)
  }

  /** A stored snapshot is empty or a checkpoint of the global committed log. */
  ghost predicate StoredSnapshotOK(u: Setup, h: History, snapshot: Snapshot) {
    snapshot == NO_SNAPSHOT || SnapshotOK(u, h, snapshot)
  }

  ghost predicate IndexesOK(u: Setup, n: Core) {
    n.role.Leader? ==>
      forall m :: Get(n.nextIndex, m) <= LastIndex(n) + 1 && Get(n.matchIndex, m) <= LastIndex(n)
                  && (m in u.members ==> Get(n.nextIndex, m) > 0)
  }

  /** The concrete part of a node's invariant. */
  ghost predicate CoreOK(u: Setup, h: History, n: Core) {
    && n.id in u.members
    && StoredSnapshotOK(u, h, n.state.snapshot)
    && Boundary(n) <= n.state.commit
    && n.applied == n.state.commit
    && n.membership == Config(u, Full(h, n.state))
    && IndexesOK(u, n)
    && (n.role.Candidate? ==> n.membership.IsVoter(n.id))
  }

  ghost predicate Good(u: Setup, h: History, n: Core) {
    CoreOK(u, h, n) && NodeOK(u, h, n.id, View(h, n))
  }

  lemma GoodParts(u: Setup, h: History, n: Core)
    requires Good(u, h, n)
    ensures CoreOK(u, h, n) && NodeOK(u, h, n.id, View(h, n))
    ensures n.applied == n.state.commit && Boundary(n) <= n.state.commit
    ensures n.membership == Config(u, Full(h, n.state))
  {
    hide NodeOK, StoredSnapshotOK, Fold, Full;
  }

  lemma MakeGood(u: Setup, h: History, n: Core, r: Replica)
    requires CoreOK(u, h, n) && NodeOK(u, h, n.id, r) && View(h, n) == r
    ensures Good(u, h, n)
  {
    hide CoreOK, NodeOK;
  }

  lemma FullLength(u: Setup, h: History, state: PersistentState)
    requires StoredSnapshotOK(u, h, state.snapshot)
    ensures state.snapshot.index <= |h.committed|
    ensures |Full(h, state)| == state.LastIndex()
    ensures Full(h, state)[..state.snapshot.index] == h.committed[..state.snapshot.index]
    ensures Full(h, state)[state.snapshot.index..] == state.log
  {
  }

  lemma GoodLog(u: Setup, h: History, n: Core)
    requires Good(u, h, n)
    ensures n.state.commit <= n.state.LastIndex() == |Full(h, n.state)|
    ensures LogOK(h, Full(h, n.state)) && TermsUpTo(Full(h, n.state), n.state.term)
    ensures Committed(u, h, Full(h, n.state), n.state.commit, n.state.term)
    ensures n.id in h.ledgers && n.state.term == h.ledgers[n.id].term
  {
    hide CommitPoint, Fold;
    FullLength(u, h, n.state);
  }

  lemma StoredOK(u: Setup, h: History, n: Core)
    requires Good(u, h, n)
    ensures StoredSnapshotOK(u, h, n.state.snapshot)
  {
    hide NodeOK, StoredSnapshotOK;
  }

  /** The view does not depend on how much more was committed since. */
  lemma FullGrows(u: Setup, a: History, b: History, state: PersistentState)
    requires Grows(a, b) && StoredSnapshotOK(u, a, state.snapshot)
    ensures StoredSnapshotOK(u, b, state.snapshot) && Full(a, state) == Full(b, state)
  {
    if state.snapshot != NO_SNAPSHOT {
      assert a.committed[..state.snapshot.index] == b.committed[..state.snapshot.index];
    }
  }

  lemma CoreGrows(u: Setup, a: History, b: History, n: Core)
    requires Grows(a, b) && CoreOK(u, a, n)
    ensures CoreOK(u, b, n) && View(a, n) == View(b, n)
  {
    FullGrows(u, a, b, n.state);
  }

  lemma TermAtFull(u: Setup, h: History, state: PersistentState, index: nat)
    requires StoredSnapshotOK(u, h, state.snapshot) && index >= state.snapshot.index
    ensures TermAt(state, index) == TermIn(Full(h, state), index)
  {
    hide CommitPoint, Fold, Count;
    FullLength(u, h, state);
    var full := Full(h, state);
    if index != 0 && index == state.snapshot.index {
      assert full[index - 1] == h.committed[index - 1];
    } else if state.snapshot.index < index <= state.LastIndex() {
      assert full[index - 1] == full[state.snapshot.index..][index - 1 - state.snapshot.index];
    }
  }

  lemma EntriesFromFull(u: Setup, h: History, state: PersistentState, index: nat)
    requires StoredSnapshotOK(u, h, state.snapshot) && state.snapshot.index < index <= state.LastIndex() + 1
    ensures EntriesFrom(state, index) == Full(h, state)[index - 1..]
  {
  }

  // ----- configurations of the view -----

  lemma {:induction false} FoldValid(u: Setup, m: Membership, log: seq<Entry>)
    requires ChainOK(u, m, log) && ValidateMembership(m, u.members)
    ensures ValidateMembership(Fold(u, m, log), u.members)
  {
    if log != [] {
      ChainPrefix(u, m, log, |log| - 1);
      FoldValid(u, m, log[..|log| - 1]);
      assert LegalAt(u, m, log, |log| - 1);
    }
  }

  lemma ConfigValid(u: Setup, h: History, log: Log)
    requires SetupOK(u) && HistoryOK(u, h) && LogOK(h, log)
    ensures ValidateMembership(Config(u, log), u.members)
  {
    LogChained(u, h, log);
    FoldValid(u, u.initial, log);
  }

  lemma BaseIsConfig(u: Setup, h: History, state: PersistentState)
    requires SetupOK(u) && HistoryOK(u, h) && StoredSnapshotOK(u, h, state.snapshot)
    ensures BaseMembership(u, state) == Config(u, h.committed[..state.snapshot.index])
  {
    if state.snapshot != NO_SNAPSHOT {
      CommittedLogOK(u, h);
      LogPrefixOK(h, h.committed, state.snapshot.index);
      ConfigValid(u, h, h.committed[..state.snapshot.index]);
    }
  }

  lemma MembershipAtFull(u: Setup, h: History, state: PersistentState, index: nat)
    requires SetupOK(u) && HistoryOK(u, h) && StoredSnapshotOK(u, h, state.snapshot)
    requires state.snapshot.index <= index
    ensures MembershipAt(u, state, index) == Config(u, Full(h, state)[..Min(index, state.LastIndex())])
  {
    BaseIsConfig(u, h, state);
    FullLength(u, h, state);
    var b := state.snapshot.index;
    var k := Covered(state, index);
    FoldConcat(u, u.initial, h.committed[..b], state.log[..k]);
    assert Full(h, state)[..Min(index, state.LastIndex())] == h.committed[..b] + state.log[..k];
  }

  lemma LastMembership(u: Setup, h: History, state: PersistentState)
    requires SetupOK(u) && HistoryOK(u, h) && StoredSnapshotOK(u, h, state.snapshot)
    ensures MembershipAt(u, state, state.LastIndex()) == Config(u, Full(h, state))
  {
    MembershipAtFull(u, h, state, state.LastIndex());
    FullLength(u, h, state);
    assert Full(h, state)[..state.LastIndex()] == Full(h, state);
  }

  /** The part of a log past a snapshot is legal exactly when the whole is. */
  lemma SuffixChain(u: Setup, h: History, state: PersistentState)
    requires SetupOK(u) && HistoryOK(u, h) && StoredSnapshotOK(u, h, state.snapshot)
    requires ChainedLog(u, Full(h, state))
    ensures ChainOK(u, BaseMembership(u, state), state.log)
  {
    BaseIsConfig(u, h, state);
    FullLength(u, h, state);
    ChainConcat(u, u.initial, h.committed[..state.snapshot.index], state.log);
  }

  lemma BaseHasVoters(u: Setup, h: History, state: PersistentState)
    requires SetupOK(u) && HistoryOK(u, h) && StoredSnapshotOK(u, h, state.snapshot)
    ensures |BaseMembership(u, state).voters| > 0
  {
    BaseIsConfig(u, h, state);
    CommittedLogOK(u, h);
    LogPrefixOK(h, h.committed, state.snapshot.index);
    ConfigValid(u, h, h.committed[..state.snapshot.index]);
  }

  /** A good node meets every condition its transitions rely on. */
  lemma GoodIsWF(u: Setup, h: History, n: Core)
    requires SetupOK(u) && HistoryOK(u, h) && Good(u, h, n)
    ensures WF(u, n) && LastIndex(n) == |Full(h, n.state)|
  {
    FullLength(u, h, n.state);
    LogChained(u, h, Full(h, n.state));
    SuffixChain(u, h, n.state);
    LastMembership(u, h, n.state);
    BaseHasVoters(u, h, n.state);
    forall i | 0 <= i < |n.state.log|
      ensures n.state.log[i].index == Boundary(n) + i + 1
    {
      assert n.state.log[i] == Full(h, n.state)[Boundary(n) + i];
    }
  }

  // ----- what a transition establishes -----

  /** What the world learns from an effect is true. */
  ghost predicate EffectOK(u: Setup, h: History, id: NodeID, effect: Effect) {
    match effect
    case Send(m) => m.from == id && MessageOK(u, h, m)
    case Apply(entry) => 0 < entry.index <= |h.committed| && h.committed[entry.index - 1] == entry
    case RestoreSnapshot(snapshot) => SnapshotOK(u, h, snapshot)
    case Persist(_, _) => false
    case ResetElectionTimer => true
    case ResetHeartbeatTimer => true
  }

  ghost predicate EffectsOK(u: Setup, h: History, id: NodeID, effects: seq<Effect>) {
    forall i {:trigger effects[i]} | 0 <= i < |effects| :: EffectOK(u, h, id, effects[i])
  }

  lemma EffectsGrow(u: Setup, a: History, b: History, id: NodeID, effects: seq<Effect>)
    requires Grows(a, b) && EffectsOK(u, a, id, effects)
    ensures EffectsOK(u, b, id, effects)
  {
    forall i | 0 <= i < |effects|
      ensures EffectOK(u, b, id, effects[i])
    {
      assert EffectOK(u, a, id, effects[i]);
      match effects[i]
      case Send(m) => MessageGrows(u, a, b, m);
      case Apply(entry) =>
      case RestoreSnapshot(snapshot) =>
        assert a.committed[..snapshot.index] == b.committed[..snapshot.index];
      case ResetElectionTimer =>
      case ResetHeartbeatTimer =>
    }
  }

  /**
   * The application's index after the effects: entries must come in order without a gap, and a
   * snapshot never steps back.
   */
  function Delivered(effects: seq<Effect>, applied: nat): Option<nat> {
    if effects == [] then Some(applied)
    else
      match Delivered(effects[..|effects| - 1], applied)
      case None => None
      case Some(a) =>
        match effects[|effects| - 1]
        case Apply(entry) => if entry.index == a + 1 then Some(a + 1) else None
        case RestoreSnapshot(snapshot) => if snapshot.index >= a then Some(snapshot.index) else None
        case _ => Some(a)
  }

  lemma {:induction false} DeliveredConcat(a: seq<Effect>, b: seq<Effect>, applied: nat)
    ensures Delivered(a + b, applied)
         == (match Delivered(a, applied) case None => None case Some(k) => Delivered(b, k))
  {
    if b == [] {
      assert a + b == a;
    } else {
      DeliveredConcat(a, b[..|b| - 1], applied);
      assert (a + b)[..|a + b| - 1] == a + b[..|b| - 1];
    }
  }

  /** Effects that are not for the application. */
  predicate Quiet(effects: seq<Effect>) {
    forall i | 0 <= i < |effects| :: !effects[i].Apply? && !effects[i].RestoreSnapshot?
  }

  lemma {:induction false} QuietDelivers(effects: seq<Effect>, applied: nat)
    requires Quiet(effects)
    ensures Delivered(effects, applied) == Some(applied)
  {
    if effects != [] {
      QuietDelivers(effects[..|effects| - 1], applied);
    }
  }

  /**
   * The outcome of a transition: never a panic; a good node with a later history; justified
   * effects; the application advanced exactly to the commit index; and nothing durable changed
   * unless the step asks for a write.
   */
  ghost predicate OutcomeOK(u: Setup, h: History, h': History, n: Core, out: Outcome) {
    && HistoryOK(u, h')
    && GrowsBy(h, h', n.id)
    && out.node.id == n.id
    && Good(u, h', out.node)
    && match out
       case Failed(n1, error) => error != Panic && n1.state == n.state && n1.applied == n.applied
       case Done(n1, dirty, effects) =>
         && EffectsOK(u, h', n.id, effects)
         && Delivered(effects, n.applied) == Some(n1.applied)
         && (!dirty ==> n1.state == n.state)
  }
}

/**
 * Compaction is invisible: a node and its compacted twin agree on everything from the compacted
 * boundary on, and answer every AppendEntries that starts there, and every vote request, alike.
 */
module Compaction {
  import opened RaftTypes
  import opened Configuration
  import opened NodeSpec

  /** b is a, with a prefix of its log replaced by a snapshot that stands for it. */
  predicate Twin(u: Setup, a: Core, b: Core) {
    && b == a.(state := a.state.(snapshot := b.state.snapshot, log := b.state.log))
    && Boundary(a) <= Boundary(b) <= a.applied
    && Boundary(b) <= LastIndex(a)
    && b.state.log == a.state.log[Boundary(b) - Boundary(a)..]
    && b.state.snapshot.term == TermAt(a.state, Boundary(b))
    && BaseMembership(u, b.state) == MembershipAt(u, a.state, Boundary(b))
  }

  /** What compacting makes is a twin. */
  lemma CompactionMakesTwins(u: Setup, n: Core, index: nat, data: Bytes)
    requires WF(u, n) && LastIndex(n) <= MAX_UINT64 && Compact(u, n, index, data).Done?
    ensures Twin(u, n, Compact(u, n, index, data).node)
  {
    var base, k := BaseMembership(u, n.state), index - Boundary(n);
    var b := Compact(u, n, index, data).node;
    assert b.state.log == n.state.log[k..];
    ChainPrefix(u, base, n.state.log, k);
    FoldHasVoters(u, base, n.state.log[..k]);
    assert BaseMembership(u, b.state) == MembershipAt(u, n.state, index);
    FoldConcat(u, base, n.state.log[..k], n.state.log[k..]);
    assert n.state.log == n.state.log[..k] + n.state.log[k..];
    assert b.state.log[..|b.state.log|] == b.state.log && n.state.log[..|n.state.log|] == n.state.log;
  }

  lemma TwinTerms(u: Setup, a: Core, b: Core, index: nat)
    requires Twin(u, a, b) && index >= Boundary(b)
    ensures LastIndex(a) == LastIndex(b)
    ensures TermAt(a.state, index) == TermAt(b.state, index)
  {
    hide BaseMembership, MembershipAt;
    if Boundary(b) < index <= LastIndex(a) {
      assert b.state.log[index - Boundary(b) - 1] == a.state.log[index - Boundary(a) - 1];
    }
  }

  lemma TwinEntries(u: Setup, a: Core, b: Core, index: nat)
    requires Twin(u, a, b) && index > Boundary(b)
    ensures EntriesFrom(a.state, index) == EntriesFrom(b.state, index)
  {
    hide BaseMembership, MembershipAt, TermAt;
    if index <= LastIndex(a) {
      SliceOfSlice(a.state.log, Boundary(b) - Boundary(a), index - Boundary(b) - 1);
    }
  }

  lemma SliceOfSlice(log: seq<Entry>, d: nat, k: nat)
    requires d + k <= |log|
    ensures log[d..][k..] == log[d + k..]
  {
  }

  lemma TwinMemberships(u: Setup, a: Core, b: Core, index: nat)
    requires Twin(u, a, b) && index >= Boundary(b)
    ensures MembershipAt(u, a.state, index) == MembershipAt(u, b.state, index)
  {
    hide TermAt, BaseMembership;
    var d := Boundary(b) - Boundary(a);
    var k := Covered(b.state, index);
    FoldConcat(u, BaseMembership(u, a.state), a.state.log[..d], b.state.log[..k]);
    assert a.state.log[..d + k] == a.state.log[..d] + b.state.log[..k];
  }

  /** Last index, terms, entries and configurations from the boundary on are unchanged. */
  lemma TwinsAgree(u: Setup, a: Core, b: Core, index: nat)
    requires Twin(u, a, b) && index >= Boundary(b)
    ensures LastIndex(a) == LastIndex(b)
    ensures TermAt(a.state, index) == TermAt(b.state, index)
    ensures index > Boundary(b) ==> EntriesFrom(a.state, index) == EntriesFrom(b.state, index)
    ensures MembershipAt(u, a.state, index) == MembershipAt(u, b.state, index)
  {
    hide Twin, TermAt, EntriesFrom, MembershipAt;
    TwinTerms(u, a, b, index);
    TwinMemberships(u, a, b, index);
    if index > Boundary(b) {
      TwinEntries(u, a, b, index);
    }
  }

  lemma {:induction false} TwinsKnowTheSame(u: Setup, a: Core, b: Core, prev: nat, entries: seq<Entry>, o: nat)
    requires Twin(u, a, b) && prev >= Boundary(b) && o <= |entries|
    ensures FirstNew(a.state, prev, entries, o) == FirstNew(b.state, prev, entries, o)
    decreases |entries| - o
  {
    TwinsAgree(u, a, b, prev + o + 1);
    if o < |entries| {
      TwinsKnowTheSame(u, a, b, prev, entries, o + 1);
    }
  }

  lemma TwinsMergeAlike(u: Setup, a: Core, b: Core, prev: nat, entries: seq<Entry>)
    requires Twin(u, a, b) && prev >= Boundary(b)
    ensures Boundary(b) - Boundary(a) <= |a.state.log|
    ensures var (x, y) := (Merge(a.state, prev, entries), Merge(b.state, prev, entries));
      x.Some? == y.Some? && (x.Some? ==> x.value == a.state.log[..Boundary(b) - Boundary(a)] + y.value)
  {
    hide FirstNew, TermAt, BaseMembership, MembershipAt, EntriesFrom;
    TwinsAgree(u, a, b, prev);
    TwinsKnowTheSame(u, a, b, prev, entries, 0);
    MergeWithPrefix(a.state, b.state, prev, entries);
  }

  /** Merging into a log and into its suffix differ by the prefix. */
  lemma MergeWithPrefix(a: PersistentState, b: PersistentState, prev: nat, entries: seq<Entry>)
    requires a.snapshot.index <= b.snapshot.index <= prev && a.LastIndex() == b.LastIndex()
    requires b.snapshot.index - a.snapshot.index <= |a.log| && b.log == a.log[b.snapshot.index - a.snapshot.index..]
    requires FirstNew(a, prev, entries, 0) == FirstNew(b, prev, entries, 0)
    ensures var (x, y) := (Merge(a, prev, entries), Merge(b, prev, entries));
      x.Some? == y.Some? && (x.Some? ==> x.value == a.log[..b.snapshot.index - a.snapshot.index] + y.value)
  {
    hide FirstNew;
    var d := b.snapshot.index - a.snapshot.index;
    var o := FirstNew(a, prev, entries, 0);
    if o < |entries| && prev + o <= a.LastIndex() {
      CutThere(a.log, d, prev + o - b.snapshot.index, entries[o..]);
    } else {
      CutThere(a.log, d, |b.log|, []);
      assert a.log[..d + |b.log|] + [] == a.log && a.log[d..][..|b.log|] + [] == b.log;
    }
  }

  lemma CutThere(log: seq<Entry>, d: nat, k: nat, tail: seq<Entry>)
    requires d + k <= |log|
    ensures log[..d + k] + tail == log[..d] + (log[d..][..k] + tail)
  {
  }

  lemma LegalPartsAgree(u: Setup, m: Membership, a: seq<Entry>, b: seq<Entry>)
    requires ChainOK(u, m, a)
    ensures ConfigsLegal(u, m, a + b) == ConfigsLegal(u, Fold(u, m, a), b)
  {
    forall i | 0 <= i < |a + b|
      ensures i < |a| ==> LegalAt(u, m, a + b, i)
      ensures i >= |a| ==> LegalAt(u, m, a + b, i) == LegalAt(u, Fold(u, m, a), b, i - |a|) && (a + b)[i] == b[i - |a|]
    {
      LegalInConcat(u, m, a, b, i);
      if i < |a| {
        assert LegalAt(u, m, a, i);
      }
    }
    forall i | 0 <= i < |b|
      ensures b[i] == (a + b)[|a| + i] && LegalAt(u, m, a + b, |a| + i) == LegalAt(u, Fold(u, m, a), b, i)
    {
      LegalInConcat(u, m, a, b, |a| + i);
    }
  }

  /** The same effects, the same need to write, and twins again. */
  predicate SameOutcome(u: Setup, x: Outcome, y: Outcome) {
    match x
    case Done(a, dirty, effects) => y.Done? && Twin(u, a, y.node) && y.dirty == dirty && y.effects == effects
    case Failed(a, error) => y.Failed? && y.error == error
  }

  lemma TwinsAccept(u: Setup, a: Core, b: Core, m: Message, x: seq<Entry>, y: seq<Entry>)
    requires Twin(u, a, b) && WF(u, a) && m.AppendEntries? && m.prevIndex >= Boundary(b)
    requires Merge(a.state, m.prevIndex, m.entries) == Some(x) && Merge(b.state, m.prevIndex, m.entries) == Some(y)
    ensures SameOutcome(u, AcceptEntries(u, a, m, x), AcceptEntries(u, b, m, y))
  {
    hide Fold, ConfigsLegal, TransitionMembership, ChainOK, MembershipAt, Merge, FirstNew, BaseMembership, TermAt, Unapplied;
    TwinsMergeAlike(u, a, b, m.prevIndex, m.entries);
    TwinsKnowTheSame(u, a, b, m.prevIndex, m.entries, 0);
    TwinsEquallyLegal(u, a, b, x, y);
    var a1, b1 := a.(state := a.state.(log := x)), b.(state := b.state.(log := y));
    StillTwins(u, a, b, x, y);
    TwinsAgree(u, a1, b1, LastIndex(a1));
    OtherFieldsDoNotMatter(u, a1, b1, Refresh(u, a1), Refresh(u, b1));
    CommitAlike(u, a1, b1, m);
    CommitAlike(u, Refresh(u, a1), Refresh(u, b1), m);
  }

  /** Whether reading the merged log would stop the program is the same for both. */
  lemma TwinsEquallyLegal(u: Setup, a: Core, b: Core, x: seq<Entry>, y: seq<Entry>)
    requires Twin(u, a, b) && WF(u, a) && x == a.state.log[..Boundary(b) - Boundary(a)] + y
    ensures var (s, t) := (a.state.(log := x), b.state.(log := y));
      ConfigsLegal(u, BaseMembership(u, s), x) == ConfigsLegal(u, BaseMembership(u, t), y)
  {
    hide ConfigsLegal, Fold;
    var d, base := Boundary(b) - Boundary(a), BaseMembership(u, a.state);
    ChainPrefix(u, base, a.state.log, d);
    LegalPartsAgree(u, base, a.state.log[..d], y);
  }

  lemma StillTwins(u: Setup, a: Core, b: Core, x: seq<Entry>, y: seq<Entry>)
    requires Twin(u, a, b) && |x| >= Boundary(b) - Boundary(a) && x == a.state.log[..Boundary(b) - Boundary(a)] + y
    ensures Twin(u, a.(state := a.state.(log := x)), b.(state := b.state.(log := y)))
  {
    var d := Boundary(b) - Boundary(a);
    assert x[..d] == a.state.log[..d];
  }

  lemma UnappliedAt(n: Core, i: nat)
    requires Applicable(n) && i < n.state.commit - n.applied
    ensures |Unapplied(n)| == n.state.commit - n.applied
    ensures Unapplied(n)[i] == Apply(n.state.log[n.applied + i - Boundary(n)])
  {
  }

  /** Following the leader's commit index applies the same entries. */
  lemma CommitAlike(u: Setup, a: Core, b: Core, m: Message)
    requires Twin(u, a, b) && m.AppendEntries?
    ensures var (a1, b1) := (a.(state := a.state.(commit := Min(m.leaderCommit, LastIndex(a)))),
                             b.(state := b.state.(commit := Min(m.leaderCommit, LastIndex(b)))));
      && Applicable(a1) && Applicable(b1) && Unapplied(a1) == Unapplied(b1)
      && Twin(u, ApplyCommitted(a1).0, ApplyCommitted(b1).0)
  {
    hide BaseMembership, MembershipAt, TermAt;
    var c := Min(m.leaderCommit, LastIndex(a));
    var a1, b1 := a.(state := a.state.(commit := c)), b.(state := b.state.(commit := c));
    assert LastIndex(a) == LastIndex(b);
    forall i | 0 <= i < |Unapplied(a1)|
      ensures i < |Unapplied(b1)| && Unapplied(a1)[i] == Unapplied(b1)[i]
    {
      UnappliedAt(a1, i);
      UnappliedAt(b1, i);
      assert b.state.log[a.applied + i - Boundary(b)] == a.state.log[Boundary(b) - Boundary(a)..][a.applied + i - Boundary(b)];
    }
    assert |Unapplied(a1)| == |Unapplied(b1)|;
    CommitKeepsTwins(u, a, b, c);
  }

  lemma CommitKeepsTwins(u: Setup, a: Core, b: Core, c: nat)
    requires Twin(u, a, b)
    ensures Twin(u, a.(state := a.state.(commit := c), applied := Max(a.applied, c)),
                    b.(state := b.state.(commit := c), applied := Max(b.applied, c)))
  {
    var a1 := a.(state := a.state.(commit := c), applied := Max(a.applied, c));
    var b1 := b.(state := b.state.(commit := c), applied := Max(b.applied, c));
    OtherFieldsDoNotMatter(u, a, b, a1, b1);
  }

  lemma SameLogSameReadings(u: Setup, s: PersistentState, t: PersistentState, index: nat)
    requires s.snapshot == t.snapshot && s.log == t.log
    ensures TermAt(s, index) == TermAt(t, index) && BaseMembership(u, s) == BaseMembership(u, t)
    ensures MembershipAt(u, s, index) == MembershipAt(u, t, index)
  {
  }

  /** Being twins is about logs; whatever else changes on both alike leaves them twins. */
  lemma OtherFieldsDoNotMatter(u: Setup, a: Core, b: Core, a1: Core, b1: Core)
    requires Twin(u, a, b)
    requires a1.state.snapshot == a.state.snapshot && a1.state.log == a.state.log && a1.applied >= a.applied
    requires b1 == a1.(state := a1.state.(snapshot := b.state.snapshot, log := b.state.log))
    ensures Twin(u, a1, b1)
  {
    hide TermAt, BaseMembership, MembershipAt;
    SameLogSameReadings(u, a.state, a1.state, Boundary(b));
    SameLogSameReadings(u, b.state, b1.state, Boundary(b));
  }

  lemma FollowingKeepsTwins(u: Setup, a: Core, b: Core, m: Message)
    requires Twin(u, a, b)
    ensures Twin(u, FollowLeader(a, m), FollowLeader(b, m))
    ensures WF(u, a) ==> WF(u, FollowLeader(a, m))
  {
    hide TermAt, BaseMembership, MembershipAt;
    OtherFieldsDoNotMatter(u, a, b, FollowLeader(a, m), FollowLeader(b, m));
    SameLogSameReadings(u, a.state, FollowLeader(a, m).state, LastIndex(a));
  }

  /** COMPACTION IS INVISIBLE to a leader: from the boundary on, twins answer AppendEntries alike. */
  lemma TwinsAnswerAlike(u: Setup, a: Core, b: Core, m: Message)
    requires Twin(u, a, b) && WF(u, a) && Boundary(b) <= b.applied
    requires m.AppendEntries? && m.prevIndex >= Boundary(b)
    ensures SameOutcome(u, HandleAppendEntries(u, a, m), HandleAppendEntries(u, b, m))
  {
    hide WF, AcceptEntries, Merge, FirstInvalid, MembershipAt, BaseMembership, TermAt;
    TwinsAgree(u, a, b, m.prevIndex);
    TwinsAgree(u, a, b, LastIndex(a));
    if m.term >= a.state.term {
      FollowingKeepsTwins(u, a, b, m);
      var c, d := FollowLeader(a, m), FollowLeader(b, m);
      TwinsAgree(u, c, d, m.prevIndex);
      TwinsMergeAlike(u, c, d, m.prevIndex, m.entries);
      if Merge(c.state, m.prevIndex, m.entries).Some? {
        TwinsAccept(u, c, d, m, Merge(c.state, m.prevIndex, m.entries).value, Merge(d.state, m.prevIndex, m.entries).value);
      }
    }
  }

  /** And to a candidate: twins give a vote request the same answer. */
  lemma TwinsVoteAlike(u: Setup, a: Core, b: Core, m: Message)
    requires Twin(u, a, b) && m.RequestVote?
    ensures SameOutcome(u, HandleRequestVote(a, m), HandleRequestVote(b, m))
  {
    hide TermAt, BaseMembership, MembershipAt;
    TwinTerms(u, a, b, LastIndex(a));
    var granted := a.state.(votedFor := m.from);
    OtherFieldsDoNotMatter(u, a, b, a.(state := granted), b.(state := b.state.(votedFor := m.from)));
  }
}

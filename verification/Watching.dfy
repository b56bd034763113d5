/**
 * The checker watching the cluster (raftsim/cluster.go, check/check.go): over every run it stays
 * silent, but for snapshots of one index that were taken with different data.
 */
module Watching {
  import opened RaftTypes
  import opened Configuration
  import opened NodeSpec
  import opened NodeRefinement
  import opened Validation
  import opened ClusterSpec
  import opened Vouching
  import opened ClusterTheorems
  import opened Checker

  // ----- what the cluster shows -----

  function ViewOf(n: Node): StatusView {
    var s := n.core.state;
    StatusView(n.core.role, s.term, s.votedFor, s.commit, s.snapshot, s.log, n.pending.Some?)
  }

  function ObservedNode(c: Cluster, id: NodeID): NodeObservation
    requires id in c.processes
  {
    var p := c.processes[id];
    NodeObservation(id, if p.Up? then Some(ViewOf(p.node)) else None, p.store.state, p.store.applied, p.store.entries)
  }

  /** All nodes, in the order of the members. */
  function Observed(c: Cluster, ids: seq<NodeID>): (r: seq<NodeObservation>)
    requires forall id | id in ids :: id in c.processes
    ensures |r| == |ids| && forall i | 0 <= i < |r| :: r[i] == ObservedNode(c, ids[i])
  {
    if ids == [] then [] else Observed(c, ids[..|ids| - 1]) + [ObservedNode(c, ids[|ids| - 1])]
  }

  ghost predicate Populated(u: Setup, run: seq<Cluster>) {
    forall i, id | 0 <= i < |run| && id in u.members :: id in run[i].processes
  }

  /** Everything observed in the first n states. */
  ghost function Seen(u: Setup, run: seq<Cluster>, n: nat): seq<NodeObservation>
    requires Populated(u, run) && n <= |run|
  {
    if n == 0 then [] else Seen(u, run, n - 1) + Observed(run[n - 1], u.members)
  }

  lemma RunIsPopulated(u: Setup, run: seq<Cluster>)
    requires SetupOK(u) && IsRun(u, run)
    ensures Populated(u, run)
  {
    forall i, id | 0 <= i < |run| && id in u.members
      ensures id in run[i].processes
    {
      AlwaysThere(u, run, i, id);
    }
  }

  /** Where in the run an observation was made. */
  lemma {:induction false} SeenAt(u: Setup, run: seq<Cluster>, n: nat, x: nat) returns (i: nat, id: NodeID)
    requires Populated(u, run) && n <= |run| && x < |Seen(u, run, n)|
    ensures i < n && id in u.members && Seen(u, run, n)[x] == ObservedNode(run[i], id)
  {
    var before := Seen(u, run, n - 1);
    if x < |before| {
      i, id := SeenAt(u, run, n - 1, x);
    } else {
      i, id := n - 1, u.members[x - |before|];
    }
  }

  /** Later observations were made no earlier in the run. */
  lemma {:induction false} SeenInOrder(u: Setup, run: seq<Cluster>, n: nat, x: nat, y: nat)
    returns (i: nat, a: NodeID, j: nat, b: NodeID)
    requires Populated(u, run) && n <= |run| && x < y < |Seen(u, run, n)|
    ensures i <= j < n && a in u.members && b in u.members
    ensures Seen(u, run, n)[x] == ObservedNode(run[i], a) && Seen(u, run, n)[y] == ObservedNode(run[j], b)
  {
    var before := Seen(u, run, n - 1);
    if y < |before| {
      i, a, j, b := SeenInOrder(u, run, n - 1, x, y);
    } else {
      i, a := SeenAt(u, run, n, x);
      j, b := n - 1, u.members[y - |before|];
    }
  }

  // ----- the history is quiet -----

  lemma {:induction false} OneRecordEach(history: seq<NodeObservation>, records: NodeObservation -> seq<(NodeID, nat)>)
    requires forall o :: |records(o)| == 1
    ensures |Flat(history, records)| == |history|
    ensures forall i | 0 <= i < |history| :: Flat(history, records)[i] == records(history[i])[0]
  {
    if history != [] {
      OneRecordEach(history[..|history| - 1], records);
    }
  }

  lemma MarksNeverDrop(u: Setup, run: seq<Cluster>, n: nat, id: NodeID)
    requires SetupOK(u) && IsRun(u, run) && Populated(u, run) && n <= |run|
    ensures !Dropped(Flat(Seen(u, run, n), TermRecords), id)
    ensures !Dropped(Flat(Seen(u, run, n), CommitRecords), id)
    ensures !Dropped(Flat(Seen(u, run, n), AppliedRecords), id)
  {
    hide SetupOK, IsRun;
    var seen := Seen(u, run, n);
    OneRecordEach(seen, TermRecords);
    OneRecordEach(seen, CommitRecords);
    OneRecordEach(seen, AppliedRecords);
    forall x, y | 0 <= x < y < |seen| && seen[x].id == id == seen[y].id
      ensures seen[x].durable.term <= seen[y].durable.term
      ensures seen[x].durable.commit <= seen[y].durable.commit
      ensures seen[x].applied <= seen[y].applied
    {
      var i, a, j, b := SeenInOrder(u, run, n, x, y);
      AlwaysThere(u, run, i, id);
      StoresMoveForward(u, run, i, j, id);
    }
  }

  /** Records that conflict come from two moments of the run. */
  lemma ConflictAt<K(!new), V(!new)>(u: Setup, run: seq<Cluster>, n: nat, records: NodeObservation -> seq<(K, V)>, k: K)
    returns (i: nat, a: NodeID, j: nat, b: NodeID, v: V, w: V)
    requires Populated(u, run) && n <= |run| && Conflict(Flat(Seen(u, run, n), records), k)
    ensures i <= j < n && a in u.members && b in u.members && v != w
    ensures (k, v) in records(ObservedNode(run[i], a)) && (k, w) in records(ObservedNode(run[j], b))
  {
    var seen := Seen(u, run, n);
    var flat := Flat(seen, records);
    var x, y :| 0 <= x < |flat| && 0 <= y < |flat| && flat[x].0 == k == flat[y].0 && flat[x].1 != flat[y].1;
    var p := FlatFrom(seen, records, x);
    var q := FlatFrom(seen, records, y);
    i, a := SeenAt(u, run, n, p);
    j, b := SeenAt(u, run, n, q);
    v, w := flat[x].1, flat[y].1;
    assert flat[x] == (k, v) && flat[y] == (k, w);
    if i > j {
      i, a, j, b, v, w := j, b, i, a, w, v;
    }
  }

  lemma VotesNeverConflict(u: Setup, run: seq<Cluster>, n: nat, k: (NodeID, nat))
    requires SetupOK(u) && IsRun(u, run) && Populated(u, run) && n <= |run|
    ensures !Conflict(Flat(Seen(u, run, n), VoteRecords), k)
  {
    hide SetupOK, IsRun, Conflict, Flat, Seen;
    if Conflict(Flat(Seen(u, run, n), VoteRecords), k) {
      var i, a, j, b, v, w := ConflictAt(u, run, n, VoteRecords, k);
      OneVotePerTerm(u, run, i, j, a);
    }
  }

  lemma LeadersNeverConflict(u: Setup, run: seq<Cluster>, n: nat, term: nat)
    requires SetupOK(u) && IsRun(u, run) && Populated(u, run) && n <= |run|
    ensures !Conflict(Flat(Seen(u, run, n), LeaderRecords), term)
  {
    hide SetupOK, IsRun, Conflict, Flat, Seen;
    if Conflict(Flat(Seen(u, run, n), LeaderRecords), term) {
      var i, a, j, b, v, w := ConflictAt(u, run, n, LeaderRecords, term);
      ShownLeaderLeads(u, run, i, a);
      ShownLeaderLeads(u, run, j, b);
      ElectionSafety(u, run, i, j, a, b, term);
    }
  }

  /** A leader that the checker looks at is one whose election is durable, and shows its durable log. */
  lemma ShownLeaderLeads(u: Setup, run: seq<Cluster>, i: nat, id: NodeID)
    requires SetupOK(u) && IsRun(u, run) && At(run, i, id) && ShowsLeader(ObservedNode(run[i], id))
    ensures var s := ObservedNode(run[i], id).status.value;
      && LeadsAt(run, i, id, s.term) && s.term == StateAt(run, i, id).term
      && s.snapshot == StateAt(run, i, id).snapshot && s.log == StateAt(run, i, id).log
  {
    hide SetupOK, IsRun, WF;
    NothingPendingMeansDurable(u, run, i, id);
  }

  lemma {:induction false} PartMember(log: seq<Entry>, commit: nat, e: Entry) returns (x: nat)
    requires e in CommittedPart(log, commit)
    ensures x < |log| && log[x] == e && e.index <= commit
  {
    if e == log[0] {
      x := 0;
    } else {
      x := PartMember(log[1..], commit, e);
      x := x + 1;
    }
  }

  /** An entry that the checker takes for committed is committed, at its own index. */
  lemma CommittedWhereShown(u: Setup, run: seq<Cluster>, i: nat, id: NodeID, e: Entry)
    requires SetupOK(u) && IsRun(u, run) && At(run, i, id)
    requires e in CommittedPart(StateAt(run, i, id).log, StateAt(run, i, id).commit)
    ensures var s := StateAt(run, i, id);
      s.snapshot.index < e.index <= s.commit && EntryAt(s, e.index) == Some(e)
  {
    hide SetupOK, IsRun, Boot;
    RestartAccepted(u, run, i, id);
    var s := StateAt(run, i, id);
    var x := PartMember(s.log, s.commit, e);
    hide ValidSnapshot, LegalAt;
    assert ValidEntry(u, s, x);
  }

  lemma CommittedNeverConflicts(u: Setup, run: seq<Cluster>, n: nat, index: nat)
    requires SetupOK(u) && IsRun(u, run) && Populated(u, run) && n <= |run|
    ensures !Conflict(Flat(Seen(u, run, n), CommittedRecords), index)
  {
    hide SetupOK, IsRun, Conflict, Flat, Seen, CommittedPart;
    if Conflict(Flat(Seen(u, run, n), CommittedRecords), index) {
      var i, a, j, b, v, w := ConflictAt(u, run, n, CommittedRecords, index);
      CommittedWhereShown(u, run, i, a, v);
      CommittedWhereShown(u, run, j, b, w);
      StateMachineSafety(u, run, i, j, a, b, index);
    }
  }

  lemma AppliedNeverConflicts(u: Setup, run: seq<Cluster>, n: nat, index: nat)
    requires SetupOK(u) && IsRun(u, run) && Populated(u, run) && n <= |run|
    ensures !Conflict(Flat(Seen(u, run, n), AppliedEntryRecords), index)
  {
    hide SetupOK, IsRun, Conflict, Flat, Seen;
    if Conflict(Flat(Seen(u, run, n), AppliedEntryRecords), index) {
      var i, a, j, b, v, w := ConflictAt(u, run, n, AppliedEntryRecords, index);
      var x := TakenAt(u, run, i, a, index, v);
      var y := TakenAt(u, run, j, b, index, w);
      ApplicationsAgree(u, run, i, j, a, b, index);
    }
  }

  lemma TakenAt(u: Setup, run: seq<Cluster>, i: nat, id: NodeID, index: nat, e: Entry) returns (x: nat)
    requires SetupOK(u) && IsRun(u, run) && At(run, i, id)
    requires (index, e) in ByIndex(StoreAt(run, i, id).entries)
    ensures var s := StoreAt(run, i, id);
      && s.installed.index < index <= s.applied && |s.entries| == s.applied - s.installed.index
      && x == index - s.installed.index - 1 && s.entries[x] == e
  {
    hide SetupOK, IsRun;
    AppliedExactlyOnce(u, run, i, id);
    var s := StoreAt(run, i, id);
    var k :| 0 <= k < |s.entries| && ByIndex(s.entries)[k] == (index, e);
    x := k;
  }

  /** Snapshots of one index can only differ in the data that the application put in them. */
  lemma SnapshotsConflictInData(u: Setup, run: seq<Cluster>, n: nat, index: nat) returns (i: nat, a: NodeID, j: nat, b: NodeID)
    requires SetupOK(u) && IsRun(u, run) && Populated(u, run) && n <= |run|
    requires Conflict(Flat(Seen(u, run, n), SnapshotRecords), index)
    ensures i < n && j < n && At(run, i, a) && At(run, j, b)
    ensures var s, t := StateAt(run, i, a).snapshot, StateAt(run, j, b).snapshot;
      index > 0 && s.index == t.index == index && s.data != t.data
  {
    hide SetupOK, IsRun, Conflict, Flat, Seen, Boot;
    var v, w;
    i, a, j, b, v, w := ConflictAt(u, run, n, SnapshotRecords, index);
    SnapshotsAgree(u, run, i, j, a, b);
    RestartAccepted(u, run, i, a);
    RestartAccepted(u, run, j, b);
  }

  lemma NodeInStep(u: Setup, run: seq<Cluster>, i: nat, id: NodeID)
    requires SetupOK(u) && IsRun(u, run) && At(run, i, id)
    ensures !OutOfStep(ObservedNode(run[i], id))
    ensures LegalMemberships(u.members, u.initial, StateAt(run, i, id))
  {
    hide SetupOK, IsRun, WF, Boot;
    NothingPendingMeansDurable(u, run, i, id);
    RestartAccepted(u, run, i, id);
    var s := StateAt(run, i, id);
    hide ValidateMembership, LegalAt;
    assert u == Setup(u.members, u.initial);
    assert ValidState(u, s, StoreAt(run, i, id).applied);
    var given := s.snapshot.index > 0 && !s.snapshot.membership.IsZero();
    assert BaseMembership(u, s) == if given then s.snapshot.membership else u.initial;
    forall x | 0 <= x < |s.log|
      ensures LegalAt(u, BaseMembership(u, s), s.log, x)
    {
      assert ValidEntry(u, s, x);
    }
  }

  lemma LogsNeverMismatch(u: Setup, run: seq<Cluster>, i: nat, a: NodeID, b: NodeID)
    requires SetupOK(u) && IsRun(u, run) && At(run, i, a) && At(run, i, b)
    ensures !Mismatched(StateAt(run, i, a), StateAt(run, i, b))
  {
    hide SetupOK, IsRun;
    var l, r := StateAt(run, i, a), StateAt(run, i, b);
    if Mismatched(l, r) {
      var index, k :| k <= index && SameTerm(l, r, index) && Differ(l, r, k);
      DurableLogsMatch(u, run, i, i, a, b, index, k);
    }
  }

  /** What the checker remembers as committed was committed by some node, earlier or just now. */
  ghost predicate FromRun(run: seq<Cluster>, n: nat, k: nat, w: EntryWitness) {
    exists i: nat, id :: i < n && At(run, i, id) && Remembered(w, k, ObservedNode(run[i], id))
  }

  lemma LeadersLackNothing(u: Setup, run: seq<Cluster>, i: nat, id: NodeID, k: nat, w: EntryWitness)
    requires SetupOK(u) && IsRun(u, run) && At(run, i, id) && ShowsLeader(ObservedNode(run[i], id))
    requires FromRun(run, i + 1, k, w)
    ensures !Lacks(w, ObservedNode(run[i], id), k)
  {
    hide SetupOK, IsRun;
    var j: nat, b :| j < i + 1 && At(run, j, b) && Remembered(w, k, ObservedNode(run[j], b));
    ShownLeaderLeads(u, run, i, id);
    CommittedWhereShown(u, run, j, b, w.entry);
    var term := StateAt(run, i, id).term;
    if term >= w.commitTerm && k > StateAt(run, i, id).snapshot.index {
      LeadersAreComplete(u, run, j, i, b, id, term, k);
    }
  }

  // ----- the watch -----

  /** Two snapshots of one index, taken with different data. */
  ghost predicate DataDiffers(run: seq<Cluster>, index: nat) {
    exists i: nat, a, j: nat, b :: At(run, i, a) && At(run, j, b)
      && StateAt(run, i, a).snapshot.index == StateAt(run, j, b).snapshot.index == index
      && StateAt(run, i, a).snapshot.data != StateAt(run, j, b).snapshot.data
  }

  ghost predicate OnlyData(run: seq<Cluster>, alarms: set<Alarm>) {
    forall x | x in alarms :: x.SnapshotConflict? && DataDiffers(run, x.index)
  }

  /** A history of a run accounts for no alarm but differing snapshot data. */
  lemma QuietHistory(u: Setup, run: seq<Cluster>, n: nat, c: Checker, x: Alarm)
    requires SetupOK(u) && IsRun(u, run) && Populated(u, run) && n <= |run|
    requires c.Knows(Of(Seen(u, run, n), Seen(u, run, n))) && x in Alarms(c.violations) && Historical(x)
    ensures x.SnapshotConflict? && DataDiffers(run, x.index)
  {
    hide SetupOK, IsRun, Populated, Conflict, Dropped, First, Marks, Witnesses, Flat, Seen, Alarms;
    match x
    case TwoLeaders(t) => LeadersNeverConflict(u, run, n, t);
    case DoubleVote(id, t) => VotesNeverConflict(u, run, n, (id, t));
    case CommittedConflict(k) => CommittedNeverConflicts(u, run, n, k);
    case AppliedConflict(k) => AppliedNeverConflicts(u, run, n, k);
    case SnapshotConflict(k) =>
      var i, a, j, b := SnapshotsConflictInData(u, run, n, k);
    case TermMonotonic(id) => MarksNeverDrop(u, run, n, id);
    case CommitMonotonic(id) => MarksNeverDrop(u, run, n, id);
    case AppliedMonotonic(id) => MarksNeverDrop(u, run, n, id);
  }

  lemma QuietNode(u: Setup, run: seq<Cluster>, i: nat, x: Alarm)
    requires SetupOK(u) && IsRun(u, run) && Populated(u, run) && i < |run|
    requires NodesAllowed(x, Observed(run[i], u.members), u.members, u.initial)
    ensures Historical(x)
  {
    hide SetupOK, IsRun, OutOfStep, LegalMemberships, Historical;
    var nodes := Observed(run[i], u.members);
    var k :| 0 <= k < |nodes| && Allowed(x, nodes[k], u.members, u.initial);
    assert nodes[k] == ObservedNode(run[i], u.members[k]);
    NodeInStep(u, run, i, u.members[k]);
  }

  lemma QuietPair(u: Setup, run: seq<Cluster>, i: nat, x: Alarm)
    requires SetupOK(u) && IsRun(u, run) && Populated(u, run) && i < |run|
    ensures var nodes := Observed(run[i], u.members); x !in Mismatches(nodes, |nodes|)
  {
    hide SetupOK, IsRun, Mismatched;
    var nodes := Observed(run[i], u.members);
    if x in Mismatches(nodes, |nodes|) {
      MismatchesKind(nodes, |nodes|);
      var a, b :| 0 <= a < b < |nodes| && x == LogMismatch(nodes[a].id, nodes[b].id)
                && Mismatched(nodes[a].durable, nodes[b].durable);
      LogsNeverMismatch(u, run, i, u.members[a], u.members[b]);
    }
  }

  lemma QuietLeader(u: Setup, run: seq<Cluster>, i: nat, x: Alarm, committed: map<nat, EntryWitness>)
    requires SetupOK(u) && IsRun(u, run) && Populated(u, run) && i < |run|
    requires forall k | k in committed :: FromRun(run, i + 1, k, committed[k])
    requires LeadersAllowed(x, Observed(run[i], u.members), committed)
    ensures x.TwoLeaders?
  {
    hide SetupOK, IsRun, Lacks, FromRun;
    var nodes := Observed(run[i], u.members);
    var k :| 0 <= k < |nodes| && LeaderAllowed(x, nodes[k], committed);
    assert nodes[k] == ObservedNode(run[i], u.members[k]);
    if !x.TwoLeaders? {
      LeadersLackNothing(u, run, i, u.members[k], x.index, committed[x.index]);
    }
  }

  lemma StillFromRun(run: seq<Cluster>, n: nat, k: nat, w: EntryWitness)
    requires FromRun(run, n, k, w)
    ensures FromRun(run, n + 1, k, w)
  {
    hide Remembered;
  }

  lemma JustFromRun(u: Setup, run: seq<Cluster>, i: nat, k: nat, w: EntryWitness)
    requires Populated(u, run) && i < |run|
    requires var nodes := Observed(run[i], u.members); exists x :: 0 <= x < |nodes| && Remembered(w, k, nodes[x])
    ensures FromRun(run, i + 1, k, w)
  {
    hide Remembered;
    var nodes := Observed(run[i], u.members);
    var x :| 0 <= x < |nodes| && Remembered(w, k, nodes[x]);
    assert nodes[x] == ObservedNode(run[i], u.members[x]) && At(run, i, u.members[x]);
  }

  /** Whatever one observation of a run adds is a conflict of snapshot data. */
  lemma NewAlarm(u: Setup, run: seq<Cluster>, i: nat, c: Checker, x: Alarm)
    requires SetupOK(u) && IsRun(u, run) && Populated(u, run) && i < |run|
    requires c.Knows(Of(Seen(u, run, i + 1), Seen(u, run, i + 1))) && x in Alarms(c.violations)
    requires forall k | k in c.committed :: FromRun(run, i + 1, k, c.committed[k])
    requires var nodes := Observed(run[i], u.members);
      NodesAllowed(x, nodes, u.members, u.initial) || x in Mismatches(nodes, |nodes|) || LeadersAllowed(x, nodes, c.committed)
    ensures x.SnapshotConflict? && DataDiffers(run, x.index)
  {
    hide SetupOK, IsRun, Seen, Alarms, Mismatches, NodesAllowed, LeadersAllowed, FromRun, Of, Flat;
    var nodes := Observed(run[i], u.members);
    QuietPair(u, run, i, x);
    if NodesAllowed(x, nodes, u.members, u.initial) {
      QuietNode(u, run, i, x);
    } else {
      QuietLeader(u, run, i, x, c.committed);
    }
    QuietHistory(u, run, i + 1, c, x);
  }

  lemma SomeAlarm(violations: seq<Violation>)
    requires violations != []
    ensures violations[0].alarm in Alarms(violations)
  {
  }

  lemma KnowsNothing(c: Checker)
    requires c.violations == [] && c.votes == map[] && c.leaders == map[] && c.snapshots == map[]
    requires c.committed == map[] && c.applied == map[]
    requires c.durableTerms == map[] && c.commitIndexes == map[] && c.appliedIndexes == map[]
    ensures c.Knows(Of([], [])) && Alarms(c.violations) == {}
  {
  }

  /** What the watch keeps: the checker knows the first n states, and accuses nothing but snapshot data. */
  ghost predicate Silent(u: Setup, run: seq<Cluster>, n: nat, c: Checker)
    requires Populated(u, run) && n <= |run|
    reads c
  {
    && c.members == u.members && c.initial == u.initial
    && c.Knows(Of(Seen(u, run, n), Seen(u, run, n)))
    && OnlyData(run, Alarms(c.violations))
    && forall k | k in c.committed :: FromRun(run, n, k, c.committed[k])
  }

  /** The checker's memory of one more state comes from the run. */
  lemma MemoryFromRun(u: Setup, run: seq<Cluster>, i: nat, known: map<nat, EntryWitness>, now: map<nat, EntryWitness>)
    requires Populated(u, run) && i < |run|
    requires forall k | k in known :: FromRun(run, i, k, known[k])
    requires Recalls(known, now, Observed(run[i], u.members))
    ensures forall k | k in now :: FromRun(run, i + 1, k, now[k])
  {
    hide FromRun, Remembered;
    forall k | k in now
      ensures FromRun(run, i + 1, k, now[k])
    {
      if k in known {
        StillFromRun(run, i, k, known[k]);
      } else {
        JustFromRun(u, run, i, k, now[k]);
      }
    }
  }

  lemma StaysSilent(u: Setup, run: seq<Cluster>, i: nat, c: Checker, before: set<Alarm>)
    requires SetupOK(u) && IsRun(u, run) && Populated(u, run) && i < |run|
    requires c.members == u.members && c.initial == u.initial
    requires c.Knows(Of(Seen(u, run, i + 1), Seen(u, run, i + 1))) && OnlyData(run, before)
    requires Explained(before, Alarms(c.violations), Observed(run[i], u.members), u.members, u.initial, c.committed)
    requires forall k | k in c.committed :: FromRun(run, i + 1, k, c.committed[k])
    ensures Silent(u, run, i + 1, c)
  {
    hide SetupOK, IsRun, Alarms, Seen, Of, Flat, Mismatches, NodesAllowed, LeadersAllowed, FromRun;
    forall x | x in Alarms(c.violations)
      ensures x.SnapshotConflict? && DataDiffers(run, x.index)
    {
      if x !in before {
        NewAlarm(u, run, i, c, x);
      }
    }
  }

  method WatchState(checker: Checker, u: Setup, run: seq<Cluster>, i: nat)
    requires SetupOK(u) && IsRun(u, run) && Populated(u, run) && i < |run|
    requires Silent(u, run, i, checker)
    modifies checker
    ensures Silent(u, run, i + 1, checker)
  {
    hide SetupOK, IsRun, Alarms, Of, Flat, Explained, FromRun, Recalls, OnlyData, DataDiffers;
    ghost var before, known := Alarms(checker.violations), checker.committed;
    var nodes := Observed(run[i], u.members);
    checker.Observe(nodes, Seen(u, run, i), Seen(u, run, i));
    MemoryFromRun(u, run, i, known, checker.committed);
    StaysSilent(u, run, i, checker, before);
  }

  lemma SilentAtStart(u: Setup, run: seq<Cluster>, c: Checker)
    requires Populated(u, run) && c.members == u.members && c.initial == u.initial
    requires c.violations == [] && c.votes == map[] && c.leaders == map[] && c.snapshots == map[]
    requires c.committed == map[] && c.applied == map[]
    requires c.durableTerms == map[] && c.commitIndexes == map[] && c.appliedIndexes == map[]
    ensures Silent(u, run, 0, c)
  {
    KnowsNothing(c);
  }

  lemma SilentThroughout(u: Setup, run: seq<Cluster>, c: Checker)
    requires Populated(u, run) && Silent(u, run, |run|, c)
    ensures OnlyData(run, Alarms(c.violations))
    ensures (forall index :: !DataDiffers(run, index)) ==> c.violations == []
  {
    hide Alarms, Of, Flat, DataDiffers, Populated;
    if c.violations != [] {
      SomeAlarm(c.violations);
    }
  }

  /**
   * THE CHECKER IS SILENT: fed with every state of any run, it raises nothing but conflicts of
   * snapshot data; so if snapshots of one index carry the same data, it raises nothing at all.
   */
  method Watch(u: Setup, run: seq<Cluster>) returns (violations: seq<Violation>)
    requires SetupOK(u) && IsRun(u, run)
    ensures OnlyData(run, Alarms(violations))
    ensures (forall index :: !DataDiffers(run, index)) ==> violations == []
  {
    hide SetupOK, IsRun, Populated, Silent, OnlyData, DataDiffers, Alarms;
    RunIsPopulated(u, run);
    var checker := new Checker(u.members, u.initial);
    SilentAtStart(u, run, checker);
    for i := 0 to |run|
      invariant fresh(checker)
      invariant Silent(u, run, i, checker)
    {
      WatchState(checker, u, run, i);
    }
    SilentThroughout(u, run, checker);
    violations := checker.violations;
  }

  // ----- where differing data come from -----

  /** DATA DIFFER ONLY IF TOLD: two snapshots of one index differ in data only if nodes were told to take them with different data. */
  lemma DataWasTold(u: Setup, run: seq<Cluster>, actions: seq<Action>, index: nat) returns (a: Bytes, b: Bytes)
    requires SetupOK(u) && Performs(u, run, actions) && DataDiffers(run, index)
    ensures a != b && (index, a) in ToldBy(actions) && (index, b) in ToldBy(actions)
  {
    hide SetupOK, Performs, ToldBy, VouchedMessage;
    var i: nat, x, j: nat, y :| At(run, i, x) && At(run, j, y)
      && StateAt(run, i, x).snapshot.index == StateAt(run, j, y).snapshot.index == index
      && StateAt(run, i, x).snapshot.data != StateAt(run, j, y).snapshot.data;
    RunVouched(u, run, actions, i);
    RunVouched(u, run, actions, j);
    assert VouchedProcess(ToldBy(actions), run[i].processes[x]) && VouchedProcess(ToldBy(actions), run[j].processes[y]);
    a, b := StateAt(run, i, x).snapshot.data, StateAt(run, j, y).snapshot.data;
  }

  /** So with one data per index the checker raises nothing at all. */
  method WatchTold(u: Setup, run: seq<Cluster>, actions: seq<Action>) returns (violations: seq<Violation>)
    requires SetupOK(u) && Performs(u, run, actions)
    requires forall s, t | s in ToldBy(actions) && t in ToldBy(actions) && s.0 == t.0 :: s.1 == t.1
    ensures violations == []
  {
    hide SetupOK, Performs, IsRun, OnlyData, DataDiffers, ToldBy;
    PerformedIsRun(u, run, actions);
    violations := Watch(u, run);
    forall index: nat
      ensures !DataDiffers(run, index)
    {
      if DataDiffers(run, index) {
        var a, b := DataWasTold(u, run, actions, index);
      }
    }
  }
}

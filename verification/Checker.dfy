/**
 * The online safety checker (check/check.go): it keeps the first value seen for each key and the
 * highest seen for each node, and raises an alarm exactly when two observations disagree.
 */
module Checker {
  import opened RaftTypes
  import opened Configuration

  /** What a live node shows. */
  datatype StatusView = StatusView(
    role: Role, term: nat, votedFor: NodeID, commit: nat, snapshot: Snapshot, log: seq<Entry>, awaiting: bool)

  /** One node at one moment: its store, and its status if it is up. */
  datatype NodeObservation = NodeObservation(
    id: NodeID, status: Option<StatusView>, durable: PersistentState, applied: nat, entries: seq<Entry>)

  datatype EntryWitness = EntryWitness(node: NodeID, entry: Entry, commitTerm: nat)

  /** What an alarm is about; the fingerprint of a violation is the violation itself. */
  datatype Alarm =
    | TwoLeaders(term: nat)
    | DoubleVote(node: NodeID, term: nat)
    | CommittedConflict(index: nat)
    | AppliedConflict(index: nat)
    | SnapshotConflict(index: nat)
    | TermMonotonic(node: NodeID)
    | CommitMonotonic(node: NodeID)
    | AppliedMonotonic(node: NodeID)
    | DurableMatch(node: NodeID)
    | LogMismatch(left: NodeID, right: NodeID)
    | LeaderIncomplete(leader: NodeID, index: nat)
    | MembershipTransition(node: NodeID)

  datatype Evidence =
    | Nodes(first: NodeID, second: NodeID)
    | Values(previous: nat, current: nat)
    | Entries(one: EntryWitness, other: EntryWitness)
    | Snapshots(before: Snapshot, after: Snapshot)
    | Match(matching: nat, conflicting: nat, term: nat)
    | Missing(committed: EntryWitness)
    | Illegal

  datatype Violation = Violation(alarm: Alarm, evidence: Evidence)

  /** What has been raised so far. */
  ghost function Alarms(violations: seq<Violation>): set<Alarm> {
    set i | 0 <= i < |violations| :: violations[i].alarm
  }

  // ----- first values and conflicts -----

  /** The first value recorded for each key. */
  function First<K, V>(records: seq<(K, V)>): map<K, V> {
    if records == [] then map[]
    else
      var m, last := First(records[..|records| - 1]), records[|records| - 1];
      if last.0 in m then m else m[last.0 := last.1]
  }

  /** Two records of one key differ. */
  ghost predicate Conflict<K(!new), V(!new)>(records: seq<(K, V)>, k: K) {
    exists i, j :: 0 <= i < |records| && 0 <= j < |records| && records[i].0 == k == records[j].0 && records[i].1 != records[j].1
  }

  lemma {:induction false} FirstIsRecorded<K, V>(records: seq<(K, V)>, k: K)
    ensures k in First(records) <==> exists i :: 0 <= i < |records| && records[i].0 == k
    ensures k in First(records) ==> exists i :: 0 <= i < |records| && records[i] == (k, First(records)[k])
  {
    if records != [] {
      var front := records[..|records| - 1];
      FirstIsRecorded(front, k);
      if k in First(front) {
        var i :| 0 <= i < |front| && front[i] == (k, First(front)[k]);
        assert records[i] == front[i];
      } else if i :| 0 <= i < |records| && records[i].0 == k {
        assert !(i < |front| && front[i].0 == k);
      }
    }
  }

  /** Comparing each new value with the first one finds every conflict. */
  lemma FirstFindsConflicts<K(!new), V(!new)>(records: seq<(K, V)>, k: K, v: V, x: K)
    ensures Conflict(records + [(k, v)], x) <==>
            Conflict(records, x) || (x == k && k in First(records) && First(records)[k] != v)
  {
    var all := records + [(k, v)];
    FirstIsRecorded(records, k);
    if Conflict(all, x) && !Conflict(records, x) {
      var i, j :| 0 <= i < |all| && 0 <= j < |all| && all[i].0 == x == all[j].0 && all[i].1 != all[j].1;
      assert i == |records| || j == |records|;
      var other := if i == |records| then j else i;
      assert records[other].0 == k;
      var f :| 0 <= f < |records| && records[f] == (k, First(records)[k]);
      assert !(records[f].1 != records[other].1);
    }
    if Conflict(records, x) {
      var i, j :| 0 <= i < |records| && 0 <= j < |records| && records[i].0 == x == records[j].0 && records[i].1 != records[j].1;
      assert all[i] == records[i] && all[j] == records[j];
    }
    if x == k && k in First(records) && First(records)[k] != v {
      var f :| 0 <= f < |records| && records[f] == (k, First(records)[k]);
      assert all[f] == records[f] && all[|records|] == (k, v);
    }
  }

  // ----- highest values and drops -----

  function Peak<K(==)>(records: seq<(K, nat)>, k: K): nat {
    if records == [] then 0
    else
      var p, last := Peak(records[..|records| - 1], k), records[|records| - 1];
      if last.0 == k && last.1 > p then last.1 else p
  }

  /** A later record of a key is lower than an earlier one. */
  ghost predicate Dropped<K(!new)>(records: seq<(K, nat)>, k: K) {
    exists i, j :: 0 <= i < j < |records| && records[i].0 == k == records[j].0 && records[j].1 < records[i].1
  }

  lemma {:induction false} PeakIsHighest<K>(records: seq<(K, nat)>, k: K)
    ensures forall i | 0 <= i < |records| && records[i].0 == k :: records[i].1 <= Peak(records, k)
    ensures Peak(records, k) > 0 ==> exists i :: 0 <= i < |records| && records[i] == (k, Peak(records, k))
  {
    if records != [] {
      var front := records[..|records| - 1];
      PeakIsHighest(front, k);
      forall i | 0 <= i < |records| && records[i].0 == k
        ensures records[i].1 <= Peak(records, k)
      {
        assert i < |front| ==> front[i] == records[i];
      }
      if Peak(records, k) == Peak(front, k) > 0 {
        var i :| 0 <= i < |front| && front[i] == (k, Peak(front, k));
        assert records[i] == front[i];
      } else if Peak(records, k) > 0 {
        assert records[|records| - 1] == (k, Peak(records, k));
      }
    }
  }

  /** Comparing each new value with the highest one finds every drop. */
  lemma PeakFindsDrops<K(!new)>(records: seq<(K, nat)>, k: K, v: nat, x: K)
    ensures Dropped(records + [(k, v)], x) <==> Dropped(records, x) || (x == k && v < Peak(records, k))
  {
    var all := records + [(k, v)];
    PeakIsHighest(records, k);
    if Dropped(all, x) && !Dropped(records, x) {
      var i, j :| 0 <= i < j < |all| && all[i].0 == x == all[j].0 && all[j].1 < all[i].1;
      assert j == |records| && all[i] == records[i];
    }
    if Dropped(records, x) {
      var i, j :| 0 <= i < j < |records| && records[i].0 == x == records[j].0 && records[j].1 < records[i].1;
      assert all[i] == records[i] && all[j] == records[j];
    }
    if x == k && v < Peak(records, k) {
      var i :| 0 <= i < |records| && records[i] == (k, Peak(records, k));
      assert all[i] == records[i] && all[|records|] == (k, v);
    }
  }

  // ----- what an observation records -----

  function VoteRecords(o: NodeObservation): seq<((NodeID, nat), NodeID)> {
    if o.durable.votedFor == NO_NODE then [] else [((o.id, o.durable.term), o.durable.votedFor)]
  }

  function TermRecords(o: NodeObservation): seq<(NodeID, nat)> {
    [(o.id, o.durable.term)]
  }

  function CommitRecords(o: NodeObservation): seq<(NodeID, nat)> {
    [(o.id, o.durable.commit)]
  }

  function AppliedRecords(o: NodeObservation): seq<(NodeID, nat)> {
    [(o.id, o.applied)]
  }

  /** The committed entries of a log: those before the first whose index is past the commit index. */
  function CommittedPart(log: seq<Entry>, commit: nat): seq<Entry> {
    if log == [] || log[0].index > commit then [] else [log[0]] + CommittedPart(log[1..], commit)
  }

  function ByIndex(entries: seq<Entry>): (r: seq<(nat, Entry)>)
    ensures |r| == |entries| && forall i | 0 <= i < |r| :: r[i] == (entries[i].index, entries[i])
  {
    seq(|entries|, i requires 0 <= i < |entries| => (entries[i].index, entries[i]))
  }

  function CommittedRecords(o: NodeObservation): seq<(nat, Entry)> {
    ByIndex(CommittedPart(o.durable.log, o.durable.commit))
  }

  function AppliedEntryRecords(o: NodeObservation): seq<(nat, Entry)> {
    ByIndex(o.entries)
  }

  function SnapshotRecords(o: NodeObservation): seq<(nat, Snapshot)> {
    if o.durable.snapshot.index == 0 then [] else [(o.durable.snapshot.index, o.durable.snapshot)]
  }

  /** A live leader that is not waiting for a write. */
  predicate ShowsLeader(o: NodeObservation) {
    o.status.Some? && o.status.value.role.Leader? && !o.status.value.awaiting
  }

  function LeaderRecords(o: NodeObservation): seq<(nat, NodeID)> {
    if ShowsLeader(o) then [(o.status.value.term, o.id)] else []
  }

  /** All the records that a history of observations makes, in order. */
  function Flat<R>(history: seq<NodeObservation>, records: NodeObservation -> seq<R>): seq<R> {
    if history == [] then []
    else Flat(history[..|history| - 1], records) + records(history[|history| - 1])
  }

  lemma {:induction false} FlatConcat<R>(a: seq<NodeObservation>, b: seq<NodeObservation>, records: NodeObservation -> seq<R>)
    ensures Flat(a + b, records) == Flat(a, records) + Flat(b, records)
  {
    if b == [] {
      assert a + b == a;
    } else {
      FlatConcat(a, b[..|b| - 1], records);
      assert (a + b)[..|a + b| - 1] == a + b[..|b| - 1];
    }
  }

  lemma {:induction false} FlatFrom<R>(history: seq<NodeObservation>, records: NodeObservation -> seq<R>, i: nat) returns (n: nat)
    requires i < |Flat(history, records)|
    ensures n < |history| && Flat(history, records)[i] in records(history[n])
  {
    var front, last := history[..|history| - 1], |history| - 1;
    if i < |Flat(front, records)| {
      n := FlatFrom(front, records, i);
      assert history[n] == front[n];
    } else {
      n := last;
    }
  }

  // ----- what each kind of alarm means -----

  ghost predicate VotesOK(alarms: set<Alarm>, votes: map<(NodeID, nat), NodeID>, records: seq<((NodeID, nat), NodeID)>) {
    votes == First(records) && forall n, t :: DoubleVote(n, t) in alarms <==> Conflict(records, (n, t))
  }

  ghost predicate LeadersOK(alarms: set<Alarm>, leaders: map<nat, NodeID>, records: seq<(nat, NodeID)>) {
    leaders == First(records) && forall t :: TwoLeaders(t) in alarms <==> Conflict(records, t)
  }

  ghost predicate SnapshotsOK(alarms: set<Alarm>, snapshots: map<nat, Snapshot>, records: seq<(nat, Snapshot)>) {
    snapshots == First(records) && forall i :: SnapshotConflict(i) in alarms <==> Conflict(records, i)
  }

  ghost predicate Witnesses(witnesses: map<nat, EntryWitness>, records: seq<(nat, Entry)>) {
    && (forall k :: k in witnesses <==> k in First(records))
    && (forall k | k in witnesses :: witnesses[k].entry == First(records)[k])
  }

  ghost predicate CommittedOK(alarms: set<Alarm>, committed: map<nat, EntryWitness>, records: seq<(nat, Entry)>) {
    Witnesses(committed, records) && forall i :: CommittedConflict(i) in alarms <==> Conflict(records, i)
  }

  ghost predicate AppliedOK(alarms: set<Alarm>, applied: map<nat, EntryWitness>, records: seq<(nat, Entry)>) {
    Witnesses(applied, records) && forall i :: AppliedConflict(i) in alarms <==> Conflict(records, i)
  }

  function Get(m: map<NodeID, nat>, id: NodeID): nat {
    if id in m then m[id] else 0
  }

  ghost predicate Marks(marks: map<NodeID, nat>, records: seq<(NodeID, nat)>) {
    forall n :: Get(marks, n) == Peak(records, n)
  }

  ghost predicate TermsOK(alarms: set<Alarm>, marks: map<NodeID, nat>, records: seq<(NodeID, nat)>) {
    Marks(marks, records) && forall n :: TermMonotonic(n) in alarms <==> Dropped(records, n)
  }

  ghost predicate CommitsOK(alarms: set<Alarm>, marks: map<NodeID, nat>, records: seq<(NodeID, nat)>) {
    Marks(marks, records) && forall n :: CommitMonotonic(n) in alarms <==> Dropped(records, n)
  }

  ghost predicate AppliedMarksOK(alarms: set<Alarm>, marks: map<NodeID, nat>, records: seq<(NodeID, nat)>) {
    Marks(marks, records) && forall n :: AppliedMonotonic(n) in alarms <==> Dropped(records, n)
  }

  /** b is a with alarms of one kind added. */
  ghost predicate Adds(a: set<Alarm>, b: set<Alarm>, kind: Alarm -> bool) {
    a <= b && forall x | x in b && x !in a :: kind(x)
  }

  // ----- recording one value -----

  lemma RecordMark(marks: map<NodeID, nat>, records: seq<(NodeID, nat)>, id: NodeID, value: nat)
    requires Marks(marks, records)
    ensures Marks(if value > Get(marks, id) then marks[id := value] else marks, records + [(id, value)])
    ensures forall n :: Dropped(records + [(id, value)], n) <==> Dropped(records, n) || (n == id && value < Get(marks, id))
  {
    hide Dropped;
    var all := records + [(id, value)];
    assert all[..|all| - 1] == records;
    forall n
      ensures Dropped(all, n) <==> Dropped(records, n) || (n == id && value < Get(marks, id))
      ensures Peak(all, n) == if n == id && value > Peak(records, n) then value else Peak(records, n)
    {
      PeakFindsDrops(records, id, value, n);
    }
  }

  lemma RecordFirst<K(!new), V(!new)>(m: map<K, V>, records: seq<(K, V)>, k: K, v: V)
    requires m == First(records)
    ensures (if k in m then m else m[k := v]) == First(records + [(k, v)])
    ensures forall x :: Conflict(records + [(k, v)], x) <==> Conflict(records, x) || (x == k && k in m && m[k] != v)
  {
    hide Conflict;
    var all := records + [(k, v)];
    assert all[..|all| - 1] == records;
    forall x
      ensures Conflict(all, x) <==> Conflict(records, x) || (x == k && k in m && m[k] != v)
    {
      FirstFindsConflicts(records, k, v, x);
    }
  }

  lemma RecordWitness(m: map<nat, EntryWitness>, records: seq<(nat, Entry)>, w: EntryWitness)
    requires Witnesses(m, records)
    ensures Witnesses(if w.entry.index in m then m else m[w.entry.index := w], records + [(w.entry.index, w.entry)])
    ensures forall x :: Conflict(records + [(w.entry.index, w.entry)], x) <==>
              Conflict(records, x) || (x == w.entry.index && w.entry.index in m && m[w.entry.index].entry != w.entry)
  {
    RecordFirst(First(records), records, w.entry.index, w.entry);
  }

  // ----- log matching -----

  function StateEntryAt(state: PersistentState, index: nat): Option<Entry> {
    if state.snapshot.index < index <= state.snapshot.index + |state.log|
    then Some(state.log[index - state.snapshot.index - 1]) else None
  }

  /** The indexes at which both logs still hold an entry. */
  predicate InWindow(left: PersistentState, right: PersistentState, index: nat) {
    Max(left.snapshot.index, right.snapshot.index) < index <= Min(left.LastIndex(), right.LastIndex())
  }

  ghost predicate Differ(left: PersistentState, right: PersistentState, index: nat) {
    InWindow(left, right, index) && StateEntryAt(left, index) != StateEntryAt(right, index)
  }

  predicate SameTerm(left: PersistentState, right: PersistentState, index: nat) {
    && InWindow(left, right, index)
    && StateEntryAt(left, index).Some? && StateEntryAt(right, index).Some?
    && StateEntryAt(left, index).value.term == StateEntryAt(right, index).value.term
  }

  /** Two logs agree on a term at an index, but not on every entry up to it. */
  ghost predicate Mismatched(left: PersistentState, right: PersistentState) {
    exists index, k {:trigger SameTerm(left, right, index), Differ(left, right, k)} ::
      k <= index && SameTerm(left, right, index) && Differ(left, right, k)
  }

  // ----- the checker -----

  class Checker {
    const members: seq<NodeID>
    const initial: Membership
    var leaders: map<nat, NodeID>
    var votes: map<(NodeID, nat), NodeID>
    var durableTerms: map<NodeID, nat>
    var commitIndexes: map<NodeID, nat>
    var appliedIndexes: map<NodeID, nat>
    var committed: map<nat, EntryWitness>
    var applied: map<nat, EntryWitness>
    var snapshots: map<nat, Snapshot>
    var violations: seq<Violation>

    constructor (members: seq<NodeID>, initial: Membership)
      ensures this.members == members && this.initial == initial && violations == []
      ensures votes == map[] && leaders == map[] && snapshots == map[] && committed == map[] && applied == map[]
      ensures durableTerms == map[] && commitIndexes == map[] && appliedIndexes == map[]
    {
      this.members, this.initial := members, initial;
      leaders, votes, snapshots := map[], map[], map[];
      durableTerms, commitIndexes, appliedIndexes := map[], map[], map[];
      committed, applied := map[], map[];
      violations := [];
    }

    /** Equivalent evidence is reported once. */
    method Add(alarm: Alarm, evidence: Evidence)
      modifies this`violations
      ensures Alarms(violations) == Alarms(old(violations)) + {alarm}
      ensures old(violations) <= violations && |violations| <= |old(violations)| + 1
    {
      var v := Violation(alarm, evidence);
      if v in violations {
        return;
      }
      violations := violations + [v];
      AlarmsSnoc(violations[..|violations| - 1], v);
      assert violations[..|violations| - 1] == old(violations);
    }

    method CheckVote(o: NodeObservation, ghost records: seq<((NodeID, nat), NodeID)>)
      requires VotesOK(Alarms(violations), votes, records)
      modifies this`votes, this`violations
      ensures VotesOK(Alarms(violations), votes, records + VoteRecords(o))
      ensures Adds(Alarms(old(violations)), Alarms(violations), (a: Alarm) => a.DoubleVote?)
    {
      hide Conflict, First, Alarms;
      var vote := o.durable.votedFor;
      if vote == NO_NODE {
        assert records + VoteRecords(o) == records;
        return;
      }
      var k := (o.id, o.durable.term);
      RecordFirst(votes, records, k, vote);
      if k in votes && votes[k] != vote {
        Add(DoubleVote(o.id, o.durable.term), Nodes(votes[k], vote));
      } else {
        votes := votes[k := vote];
        assert k in old(votes) ==> votes == old(votes);
      }
    }

    method CheckTerm(o: NodeObservation, ghost records: seq<(NodeID, nat)>)
      requires TermsOK(Alarms(violations), durableTerms, records)
      modifies this`durableTerms, this`violations
      ensures TermsOK(Alarms(violations), durableTerms, records + TermRecords(o))
      ensures Adds(Alarms(old(violations)), Alarms(violations), (a: Alarm) => a.TermMonotonic?)
    {
      hide Dropped, Marks, Alarms;
      var term := o.durable.term;
      RecordMark(durableTerms, records, o.id, term);
      if o.id in durableTerms && term < durableTerms[o.id] {
        Add(TermMonotonic(o.id), Values(durableTerms[o.id], term));
      }
      if term > Get(durableTerms, o.id) {
        durableTerms := durableTerms[o.id := term];
      }
    }

    method CheckCommit(o: NodeObservation, ghost records: seq<(NodeID, nat)>)
      requires CommitsOK(Alarms(violations), commitIndexes, records)
      modifies this`commitIndexes, this`violations
      ensures CommitsOK(Alarms(violations), commitIndexes, records + CommitRecords(o))
      ensures Adds(Alarms(old(violations)), Alarms(violations), (a: Alarm) => a.CommitMonotonic?)
    {
      hide Dropped, Marks, Alarms;
      var commit := o.durable.commit;
      RecordMark(commitIndexes, records, o.id, commit);
      if commit < Get(commitIndexes, o.id) {
        Add(CommitMonotonic(o.id), Values(Get(commitIndexes, o.id), commit));
      }
      if commit > Get(commitIndexes, o.id) {
        commitIndexes := commitIndexes[o.id := commit];
      }
    }

    method CheckAppliedIndex(o: NodeObservation, ghost records: seq<(NodeID, nat)>)
      requires AppliedMarksOK(Alarms(violations), appliedIndexes, records)
      modifies this`appliedIndexes, this`violations
      ensures AppliedMarksOK(Alarms(violations), appliedIndexes, records + AppliedRecords(o))
      ensures Adds(Alarms(old(violations)), Alarms(violations), (a: Alarm) => a.AppliedMonotonic?)
    {
      hide Dropped, Marks, Alarms;
      RecordMark(appliedIndexes, records, o.id, o.applied);
      if o.applied < Get(appliedIndexes, o.id) {
        Add(AppliedMonotonic(o.id), Values(Get(appliedIndexes, o.id), o.applied));
      }
      if o.applied > Get(appliedIndexes, o.id) {
        appliedIndexes := appliedIndexes[o.id := o.applied];
      }
    }

    method CheckCommittedEntry(w: EntryWitness, ghost records: seq<(nat, Entry)>)
      requires CommittedOK(Alarms(violations), committed, records)
      modifies this`committed, this`violations
      ensures CommittedOK(Alarms(violations), committed, records + [(w.entry.index, w.entry)])
      ensures Adds(Alarms(old(violations)), Alarms(violations), (a: Alarm) => a.CommittedConflict?)
      ensures committed == if w.entry.index in old(committed) then old(committed) else old(committed)[w.entry.index := w]
    {
      hide Conflict, Alarms, Witnesses;
      RecordWitness(committed, records, w);
      if w.entry.index in committed {
        if committed[w.entry.index].entry != w.entry {
          Add(CommittedConflict(w.entry.index), Entries(committed[w.entry.index], w));
        }
      } else {
        committed := committed[w.entry.index := w];
      }
    }

    /** Each witness remembers the term in which its entry was first seen committed. */
    method CheckCommittedEntries(o: NodeObservation, ghost records: seq<(nat, Entry)>)
      requires CommittedOK(Alarms(violations), committed, records)
      modifies this`committed, this`violations
      ensures CommittedOK(Alarms(violations), committed, records + CommittedRecords(o))
      ensures Adds(Alarms(old(violations)), Alarms(violations), (a: Alarm) => a.CommittedConflict?)
      ensures Remembers(old(committed), committed, o)
    {
      hide Conflict, Alarms, CommittedOK, ByIndex, Remembers;
      ghost var part := CommittedPart(o.durable.log, o.durable.commit);
      NothingRemembered(committed, o);
      var log := o.durable.log;
      var i: nat := 0;
      NothingByIndex(records, part);
      assert part == part[..0] + CommittedPart(log[0..], o.durable.commit);
      while i < |log|
        invariant i <= |log| && i <= |part| && part == part[..i] + CommittedPart(log[i..], o.durable.commit)
        invariant CommittedOK(Alarms(violations), committed, records + ByIndex(part[..i]))
        invariant Adds(Alarms(old(violations)), Alarms(violations), (a: Alarm) => a.CommittedConflict?)
        invariant Remembers(old(committed), committed, o)
      {
        var entry := log[i];
        if entry.index > o.durable.commit {
          assert CommittedPart(log[i..], o.durable.commit) == [];
          break;
        }
        PartStep(log, o.durable.commit, part, i);
        ByIndexSnoc(records, part, i);
        RemembersOneMore(old(committed), committed, o, part[i]);
        CheckCommittedEntry(EntryWitness(o.id, entry, o.durable.term), records + ByIndex(part[..i]));
        i := i + 1;
      }
      assert log[|log|..] == [];
      assert part[..i] == part;
    }

    method CheckAppliedEntry(w: EntryWitness, ghost records: seq<(nat, Entry)>)
      requires AppliedOK(Alarms(violations), applied, records)
      modifies this`applied, this`violations
      ensures AppliedOK(Alarms(violations), applied, records + [(w.entry.index, w.entry)])
      ensures Adds(Alarms(old(violations)), Alarms(violations), (a: Alarm) => a.AppliedConflict?)
    {
      hide Conflict, Alarms, Witnesses;
      RecordWitness(applied, records, w);
      if w.entry.index in applied {
        if applied[w.entry.index].entry != w.entry {
          Add(AppliedConflict(w.entry.index), Entries(applied[w.entry.index], w));
        }
      } else {
        applied := applied[w.entry.index := w];
      }
    }

    method CheckAppliedEntries(o: NodeObservation, ghost records: seq<(nat, Entry)>)
      requires AppliedOK(Alarms(violations), applied, records)
      modifies this`applied, this`violations
      ensures AppliedOK(Alarms(violations), applied, records + AppliedEntryRecords(o))
      ensures Adds(Alarms(old(violations)), Alarms(violations), (a: Alarm) => a.AppliedConflict?)
    {
      hide Conflict, Alarms, AppliedOK, ByIndex;
      NothingByIndex(records, o.entries);
      for i := 0 to |o.entries|
        invariant AppliedOK(Alarms(violations), applied, records + ByIndex(o.entries[..i]))
        invariant Adds(Alarms(old(violations)), Alarms(violations), (a: Alarm) => a.AppliedConflict?)
      {
        ByIndexSnoc(records, o.entries, i);
        CheckAppliedEntry(EntryWitness(o.id, o.entries[i], 0), records + ByIndex(o.entries[..i]));
      }
      assert o.entries[..|o.entries|] == o.entries;
    }

    method CheckSnapshot(o: NodeObservation, ghost records: seq<(nat, Snapshot)>)
      requires SnapshotsOK(Alarms(violations), snapshots, records)
      modifies this`snapshots, this`violations
      ensures SnapshotsOK(Alarms(violations), snapshots, records + SnapshotRecords(o))
      ensures Adds(Alarms(old(violations)), Alarms(violations), (a: Alarm) => a.SnapshotConflict?)
    {
      hide Conflict, First, Alarms;
      var s := o.durable.snapshot;
      if s.index == 0 {
        assert records + SnapshotRecords(o) == records;
        return;
      }
      RecordFirst(snapshots, records, s.index, s);
      if s.index in snapshots {
        if snapshots[s.index] != s {
          Add(SnapshotConflict(s.index), Snapshots(snapshots[s.index], s));
        }
      } else {
        snapshots := snapshots[s.index := s];
      }
    }

    method CheckLeaderOfTerm(o: NodeObservation, ghost records: seq<(nat, NodeID)>)
      requires LeadersOK(Alarms(violations), leaders, records) && ShowsLeader(o)
      modifies this`leaders, this`violations
      ensures LeadersOK(Alarms(violations), leaders, records + LeaderRecords(o))
      ensures Adds(Alarms(old(violations)), Alarms(violations), (a: Alarm) => a.TwoLeaders?)
    {
      hide Conflict, First, Alarms;
      var term := o.status.value.term;
      RecordFirst(leaders, records, term, o.id);
      if term in leaders && leaders[term] != o.id {
        Add(TwoLeaders(term), Nodes(leaders[term], o.id));
      } else {
        leaders := leaders[term := o.id];
        assert term in old(leaders) ==> leaders == old(leaders);
      }
    }

    method CheckDurableMatch(o: NodeObservation)
      modifies this`violations
      ensures Alarms(violations) == Alarms(old(violations)) + (if OutOfStep(o) then {DurableMatch(o.id)} else {})
    {
      hide Alarms;
      if o.status.Some? && !o.status.value.awaiting {
        var s := o.status.value;
        if s.term != o.durable.term || s.votedFor != o.durable.votedFor || s.commit != o.durable.commit {
          Add(DurableMatch(o.id), Illegal);
        }
      }
    }

    method CheckMembership(o: NodeObservation)
      modifies this`violations
      ensures Alarms(violations) ==
              Alarms(old(violations)) + (if LegalMemberships(members, initial, o.durable) then {} else {MembershipTransition(o.id)})
    {
      hide Alarms, ValidateMembership;
      var membership := initial;
      var s := o.durable.snapshot;
      if s.index > 0 && !s.membership.IsZero() {
        if !ValidateMembership(s.membership, members) {
          Add(MembershipTransition(o.id), Illegal);
          return;
        }
        membership := s.membership;
      }
      ghost var base := membership;
      for i := 0 to |o.durable.log|
        invariant membership == Fold(Setup(members, initial), base, o.durable.log[..i])
        invariant violations == old(violations)
        invariant forall k {:trigger LegalAt(Setup(members, initial), base, o.durable.log, k)} | 0 <= k < i ::
            LegalAt(Setup(members, initial), base, o.durable.log, k)
      {
        assert o.durable.log[..i + 1][..i] == o.durable.log[..i];
        var next := TransitionMembership(membership, o.durable.log[i], members);
        if next.None? {
          assert !LegalAt(Setup(members, initial), base, o.durable.log, i);
          Add(MembershipTransition(o.id), Illegal);
          return;
        }
        membership := next.value;
      }
    }

    /** One pass over the common window: the first difference, then every agreement of terms from there on. */
    method CheckPair(left: NodeObservation, right: NodeObservation)
      modifies this`violations
      ensures Alarms(violations) ==
              Alarms(old(violations)) + (if Mismatched(left.durable, right.durable) then {LogMismatch(left.id, right.id)} else {})
    {
      hide Alarms;
      var l, r := left.durable, right.durable;
      var start := Max(l.snapshot.index, r.snapshot.index) + 1;
      var limit := Min(l.LastIndex(), r.LastIndex());
      var firstConflict: nat, hasConflict := start, false;
      ghost var raised := false;
      for index := start to Max(start, limit + 1)
        invariant hasConflict ==> firstConflict < index && Differ(l, r, firstConflict)
        invariant !hasConflict ==> forall k: nat | k < index :: !Differ(l, r, k)
        invariant hasConflict ==> forall k: nat | k < firstConflict :: !Differ(l, r, k)
        invariant raised <==> exists i: nat, k: nat :: k <= i < index && SameTerm(l, r, i) && Differ(l, r, k)
        invariant Alarms(violations) == Alarms(old(violations)) + (if raised then {LogMismatch(left.id, right.id)} else {})
      {
        var a, b := StateEntryAt(l, index), StateEntryAt(r, index);
        if !hasConflict && (a.None? || b.None? || a != b) {
          firstConflict, hasConflict := index, true;
        }
        if hasConflict && a.Some? && b.Some? && a.value.term == b.value.term {
          assert SameTerm(l, r, index) && Differ(l, r, firstConflict);
          raised := true;
          Add(LogMismatch(left.id, right.id), Match(index, firstConflict, a.value.term));
        }
      }
    }

    method CheckLogs(nodes: seq<NodeObservation>)
      modifies this`violations
      ensures Alarms(violations) == Alarms(old(violations)) + Mismatches(nodes, |nodes|)
    {
      hide Alarms, Mismatched;
      for i := 0 to |nodes|
        invariant Alarms(violations) == Alarms(old(violations)) + Mismatches(nodes, i)
      {
        ghost var before := Alarms(violations);
        for j := i + 1 to |nodes|
          invariant Alarms(violations) == before + MismatchesOf(nodes, i, j)
        {
          CheckPair(nodes[i], nodes[j]);
        }
      }
    }

    // ----- the history -----

    /** All that some records made the checker remember and raise. */
    ghost predicate Knows(r: Records)
      reads this
    {
      var alarms := Alarms(violations);
      && VotesOK(alarms, votes, r.votes)
      && TermsOK(alarms, durableTerms, r.terms)
      && CommitsOK(alarms, commitIndexes, r.commits)
      && AppliedMarksOK(alarms, appliedIndexes, r.appliedIndexes)
      && CommittedOK(alarms, committed, r.committed)
      && AppliedOK(alarms, applied, r.applied)
      && SnapshotsOK(alarms, snapshots, r.snapshots)
      && LeadersOK(alarms, leaders, r.leaders)
    }

    method ObserveTerms(o: NodeObservation, ghost r: Records)
      requires Knows(r)
      modifies this`durableTerms, this`votes, this`violations
      ensures Knows(r.(terms := r.terms + TermRecords(o), votes := r.votes + VoteRecords(o)))
      ensures Adds(Alarms(old(violations)), Alarms(violations), (a: Alarm) => Allowed(a, o, members, initial))
      ensures OutOfStep(o) ==> DurableMatch(o.id) in Alarms(violations)
    {
      hide Alarms, Conflict, Dropped, First, Marks, Witnesses, VoteRecords, TermRecords, OutOfStep, LegalMemberships;
      CheckTerm(o, r.terms);
      CheckVote(o, r.votes);
      CheckDurableMatch(o);
    }

    method ObserveCommits(o: NodeObservation, ghost r: Records)
      requires Knows(r)
      modifies this`commitIndexes, this`committed, this`violations
      ensures Knows(r.(commits := r.commits + CommitRecords(o), committed := r.committed + CommittedRecords(o)))
      ensures Remembers(old(committed), committed, o)
      ensures Adds(Alarms(old(violations)), Alarms(violations), (a: Alarm) => Allowed(a, o, members, initial))
    {
      hide Alarms, Conflict, Dropped, First, Marks, Witnesses, CommitRecords, CommittedRecords, OutOfStep, LegalMemberships, Remembers;
      CheckCommit(o, r.commits);
      CheckCommittedEntries(o, r.committed);
    }

    method ObserveApplied(o: NodeObservation, ghost r: Records)
      requires Knows(r)
      modifies this`appliedIndexes, this`applied, this`violations
      ensures Knows(r.(appliedIndexes := r.appliedIndexes + AppliedRecords(o), applied := r.applied + AppliedEntryRecords(o)))
      ensures Adds(Alarms(old(violations)), Alarms(violations), (a: Alarm) => Allowed(a, o, members, initial))
    {
      hide Alarms, Conflict, Dropped, First, Marks, Witnesses, AppliedRecords, AppliedEntryRecords, OutOfStep, LegalMemberships;
      CheckAppliedIndex(o, r.appliedIndexes);
      CheckAppliedEntries(o, r.applied);
    }

    method ObserveSnapshot(o: NodeObservation, ghost r: Records)
      requires Knows(r)
      modifies this`snapshots, this`violations
      ensures Knows(r.(snapshots := r.snapshots + SnapshotRecords(o)))
      ensures Adds(Alarms(old(violations)), Alarms(violations), (a: Alarm) => Allowed(a, o, members, initial))
      ensures !LegalMemberships(members, initial, o.durable) ==> MembershipTransition(o.id) in Alarms(violations)
    {
      hide Alarms, Conflict, Dropped, First, Marks, Witnesses, SnapshotRecords, OutOfStep, LegalMemberships;
      CheckSnapshot(o, r.snapshots);
      CheckMembership(o);
    }

    /** Everything one node shows, against everything seen before. */
    method ObserveNode(o: NodeObservation, ghost seen: seq<NodeObservation>, ghost led: seq<NodeObservation>)
      requires Knows(Of(seen, led))
      modifies this
      ensures Knows(Of(seen + [o], led))
      ensures Remembers(old(committed), committed, o)
      ensures Adds(Alarms(old(violations)), Alarms(violations), (a: Alarm) => Allowed(a, o, members, initial))
      ensures NodeRaised(Alarms(violations), o, members, initial)
    {
      hide Alarms, Knows, Allowed, Remembers, OutOfStep, LegalMemberships, VoteRecords, TermRecords, CommitRecords, AppliedRecords,
        CommittedRecords, AppliedEntryRecords, SnapshotRecords, LeaderRecords, Flat;
      ghost var r := Of(seen, led);
      OfSnoc(seen, led, o);
      ObserveTerms(o, r);
      ghost var r1 := r.(terms := r.terms + TermRecords(o), votes := r.votes + VoteRecords(o));
      ObserveCommits(o, r1);
      ghost var r2 := r1.(commits := r1.commits + CommitRecords(o), committed := r1.committed + CommittedRecords(o));
      ObserveApplied(o, r2);
      ghost var r3 := r2.(appliedIndexes := r2.appliedIndexes + AppliedRecords(o), applied := r2.applied + AppliedEntryRecords(o));
      ObserveSnapshot(o, r3);
    }

    /** Every entry that was seen committed in the leader's term or before, the leader must hold. */
    method CheckLeaderEntries(o: NodeObservation)
      requires ShowsLeader(o)
      modifies this`violations
      ensures forall a :: a in Alarms(violations) <==> a in Alarms(old(violations)) || Incomplete(a, committed, committed.Keys, o)
    {
      hide Alarms, Lacks;
      var left := committed.Keys;
      ghost var done: set<nat> := {};
      while left != {}
        invariant left + done == committed.Keys
        invariant forall a :: a in Alarms(violations) <==> a in Alarms(old(violations)) || Incomplete(a, committed, done, o)
        decreases |left|
      {
        var k :| k in left;
        left := left - {k};
        done := done + {k};
        if Lacks(committed[k], o, k) {
          Add(LeaderIncomplete(o.id, k), Missing(committed[k]));
        }
      }
      assert done == committed.Keys;
    }

    method CheckLeader(o: NodeObservation, ghost seen: seq<NodeObservation>, ghost led: seq<NodeObservation>)
      requires Knows(Of(seen, led))
      modifies this`leaders, this`violations
      ensures Knows(Of(seen, led + [o]))
      ensures AddsForLeader(Alarms(old(violations)), Alarms(violations), o, committed)
      ensures LeaderRaised(Alarms(violations), o, committed)
    {
      FlatSnoc(led, o, LeaderRecords);
      hide Alarms, Conflict, Dropped, First, Marks, Witnesses, Flat, VoteRecords, TermRecords, CommitRecords, AppliedRecords,
        CommittedRecords, AppliedEntryRecords, SnapshotRecords, Lacks;
      if ShowsLeader(o) {
        CheckLeaderOfTerm(o, Flat(led, LeaderRecords));
        CheckLeaderEntries(o);
      } else {
        assert Flat(led, LeaderRecords) + [] == Flat(led, LeaderRecords);
      }
    }

    /** One observation of the whole cluster: every node, every pair of logs, then every leader. */
    method Observe(nodes: seq<NodeObservation>, ghost seen: seq<NodeObservation>, ghost led: seq<NodeObservation>)
      requires Knows(Of(seen, led))
      modifies this
      ensures Knows(Of(seen + nodes, led + nodes))
      ensures Explained(Alarms(old(violations)), Alarms(violations), nodes, members, initial, committed)
      ensures Recalls(old(committed), committed, nodes)
      ensures Raised(Alarms(violations), nodes, members, initial, committed)
    {
      hide Alarms, Knows, Allowed, Remembers, Flat, Of, LeaderAllowed, Remembered, NodeRaised, LeaderRaised, Mismatches;
      assert seen + nodes[..0] == seen;
      for i := 0 to |nodes|
        invariant Knows(Of(seen + nodes[..i], led))
        invariant Adds(Alarms(old(violations)), Alarms(violations), (a: Alarm) => NodesAllowed(a, nodes, members, initial))
        invariant forall k | k in committed && k !in old(committed) ::
            exists j :: 0 <= j < i && Remembered(committed[k], k, nodes[j])
        invariant forall k | k in old(committed) :: k in committed && committed[k] == old(committed)[k]
        invariant forall j | 0 <= j < i :: NodeRaised(Alarms(violations), nodes[j], members, initial)
      {
        ghost var known := committed;
        ghost var before := Alarms(violations);
        ObserveNode(nodes[i], seen + nodes[..i], led);
        RemembersMeans(known, committed, nodes[i]);
        StayRaised(before, Alarms(violations), nodes[..i], members, initial, committed);
        assert seen + nodes[..i] + [nodes[i]] == seen + nodes[..i + 1];
      }
      assert nodes[..|nodes|] == nodes;
      ghost var checked := Alarms(violations);
      LogsKeep(nodes, Of(seen + nodes, led));
      StayRaised(checked, Alarms(violations), nodes, members, initial, committed);
      assert led + nodes[..0] == led;
      ghost var known := committed;
      for i := 0 to |nodes|
        invariant Knows(Of(seen + nodes, led + nodes[..i]))
        invariant Explained(Alarms(old(violations)), Alarms(violations), nodes, members, initial, committed)
        invariant committed == known
        invariant forall j | 0 <= j < |nodes| :: NodeRaised(Alarms(violations), nodes[j], members, initial)
        invariant forall j | 0 <= j < i :: LeaderRaised(Alarms(violations), nodes[j], committed)
        invariant Mismatches(nodes, |nodes|) <= Alarms(violations)
      {
        ghost var before := Alarms(violations);
        CheckLeader(nodes[i], seen + nodes, led + nodes[..i]);
        StayRaised(before, Alarms(violations), nodes, members, initial, committed);
        StayRaised(before, Alarms(violations), nodes[..i], members, initial, committed);
        assert led + nodes[..i] + [nodes[i]] == led + nodes[..i + 1];
      }
    }

    /** The log check raises nothing that the history accounts for. */
    method LogsKeep(nodes: seq<NodeObservation>, ghost r: Records)
      requires Knows(r)
      modifies this`violations
      ensures Knows(r)
      ensures Adds(Alarms(old(violations)), Alarms(violations), (a: Alarm) => a in Mismatches(nodes, |nodes|))
      ensures Mismatches(nodes, |nodes|) <= Alarms(violations)
    {
      hide Alarms, Conflict, Dropped, First, Marks, Witnesses, Mismatches;
      CheckLogs(nodes);
      MismatchesKind(nodes, |nodes|);
    }
  }

  /** A leader lacks an entry that was committed in its term or an earlier one. */
  predicate Lacks(w: EntryWitness, o: NodeObservation, k: nat) {
    && o.status.Some?
    && o.status.value.term >= w.commitTerm
    && k > o.status.value.snapshot.index
    && StatusEntryAt(o.status.value, k) != Some(w.entry)
  }

  function StatusEntryAt(s: StatusView, index: nat): Option<Entry> {
    if s.snapshot.index < index <= s.snapshot.index + |s.log| then Some(s.log[index - s.snapshot.index - 1]) else None
  }

  ghost predicate Incomplete(a: Alarm, committed: map<nat, EntryWitness>, keys: set<nat>, o: NodeObservation) {
    && a.LeaderIncomplete? && a.leader == o.id
    && a.index in keys && a.index in committed && Lacks(committed[a.index], o, a.index)
  }

  ghost predicate LeaderAllowed(a: Alarm, o: NodeObservation, committed: map<nat, EntryWitness>) {
    a.TwoLeaders? || (ShowsLeader(o) && Incomplete(a, committed, committed.Keys, o))
  }

  ghost predicate AddsForLeader(a: set<Alarm>, b: set<Alarm>, o: NodeObservation, committed: map<nat, EntryWitness>) {
    a <= b && forall x | x in b && x !in a :: LeaderAllowed(x, o, committed)
  }

  /** Every new alarm is the history's, or one of these nodes', or one of these leaders', or a pair's whose logs do not match. */
  ghost predicate Explained(a: set<Alarm>, b: set<Alarm>, nodes: seq<NodeObservation>, members: seq<NodeID>, initial: Membership,
                            committed: map<nat, EntryWitness>)
  {
    && a <= b
    && forall x | x in b && x !in a ::
         NodesAllowed(x, nodes, members, initial) || x in Mismatches(nodes, |nodes|) || LeadersAllowed(x, nodes, committed)
  }

  /** What this node shows by itself was raised. */
  ghost predicate NodeRaised(alarms: set<Alarm>, o: NodeObservation, members: seq<NodeID>, initial: Membership) {
    && (OutOfStep(o) ==> DurableMatch(o.id) in alarms)
    && (!LegalMemberships(members, initial, o.durable) ==> MembershipTransition(o.id) in alarms)
  }

  ghost predicate LeaderRaised(alarms: set<Alarm>, o: NodeObservation, committed: map<nat, EntryWitness>) {
    ShowsLeader(o) ==> forall a | Incomplete(a, committed, committed.Keys, o) :: a in alarms
  }

  /** Every alarm that this observation alone accounts for was raised. */
  ghost predicate Raised(alarms: set<Alarm>, nodes: seq<NodeObservation>, members: seq<NodeID>, initial: Membership,
                         committed: map<nat, EntryWitness>)
  {
    && (forall i | 0 <= i < |nodes| :: NodeRaised(alarms, nodes[i], members, initial))
    && (forall i | 0 <= i < |nodes| :: LeaderRaised(alarms, nodes[i], committed))
    && Mismatches(nodes, |nodes|) <= alarms
  }

  /** Nothing raised is taken back. */
  lemma StayRaised(a: set<Alarm>, b: set<Alarm>, nodes: seq<NodeObservation>, members: seq<NodeID>, initial: Membership,
                   committed: map<nat, EntryWitness>)
    requires a <= b
    ensures forall i | 0 <= i < |nodes| && NodeRaised(a, nodes[i], members, initial) :: NodeRaised(b, nodes[i], members, initial)
    ensures forall i | 0 <= i < |nodes| && LeaderRaised(a, nodes[i], committed) :: LeaderRaised(b, nodes[i], committed)
  {
    hide OutOfStep, LegalMemberships, ShowsLeader, Incomplete;
  }

  /**
   * EVERY ALARM, exactly: after an observation an alarm is raised if and only if it was before, or
   * two records of the history witness it, or this observation does by itself.
   */
  lemma AlarmsAreExact(before: set<Alarm>, after: set<Alarm>, nodes: seq<NodeObservation>, members: seq<NodeID>, initial: Membership,
                       committed: map<nat, EntryWitness>, a: Alarm)
    requires Explained(before, after, nodes, members, initial, committed)
    requires Raised(after, nodes, members, initial, committed) && !Historical(a)
    ensures a in after <==>
      || a in before
      || (exists i, j :: 0 <= i < j < |nodes| && a == LogMismatch(nodes[i].id, nodes[j].id) && Disagree(nodes[i].durable, nodes[j].durable))
      || exists i :: 0 <= i < |nodes| && NodeShows(a, nodes[i], members, initial, committed)
  {
    hide OutOfStep, LegalMemberships, ShowsLeader, Incomplete, Mismatches, NodeShows, Disagree;
    MismatchesMean(nodes, a);
    forall i | 0 <= i < |nodes|
      ensures NodeShows(a, nodes[i], members, initial, committed) <==>
           || (a == DurableMatch(nodes[i].id) && OutOfStep(nodes[i]))
           || (a == MembershipTransition(nodes[i].id) && !LegalMemberships(members, initial, nodes[i].durable))
           || (ShowsLeader(nodes[i]) && Incomplete(a, committed, committed.Keys, nodes[i]))
    {
      ShownExactly(a, nodes[i], members, initial, committed);
    }
  }

  /** Both logs hold entries of one term at an index, and different entries at it or below. */
  ghost predicate Disagree(l: PersistentState, r: PersistentState) {
    exists index: nat, k: nat {:trigger StateEntryAt(l, index), StateEntryAt(l, k)} ::
      && k <= index
      && StateEntryAt(l, index).Some? && StateEntryAt(r, index).Some?
      && StateEntryAt(l, index).value.term == StateEntryAt(r, index).value.term
      && StateEntryAt(l, k).Some? && StateEntryAt(r, k).Some?
      && StateEntryAt(l, k) != StateEntryAt(r, k)
  }

  /**
   * What one node shows by itself: a status that differs from its store in term, vote or commit index;
   * a snapshot and log that are no legal chain; or, as a leader, that it lacks an entry past its
   * snapshot that was seen committed in its term or an earlier one.
   */
  ghost predicate NodeShows(a: Alarm, o: NodeObservation, members: seq<NodeID>, initial: Membership, committed: map<nat, EntryWitness>) {
    match a
    case DurableMatch(id) =>
      && id == o.id && o.status.Some? && !o.status.value.awaiting
      && (o.status.value.term, o.status.value.votedFor, o.status.value.commit) != (o.durable.term, o.durable.votedFor, o.durable.commit)
    case MembershipTransition(id) => id == o.id && !LegalMemberships(members, initial, o.durable)
    case LeaderIncomplete(id, index) =>
      && id == o.id && o.status.Some? && o.status.value.role == Leader && !o.status.value.awaiting
      && index in committed && committed[index].commitTerm <= o.status.value.term && index > o.status.value.snapshot.index
      && !(index <= o.status.value.snapshot.index + |o.status.value.log|
           && o.status.value.log[index - o.status.value.snapshot.index - 1] == committed[index].entry)
    case _ => false
  }

  lemma ShownExactly(a: Alarm, o: NodeObservation, members: seq<NodeID>, initial: Membership, committed: map<nat, EntryWitness>)
    ensures NodeShows(a, o, members, initial, committed) <==>
         || (a == DurableMatch(o.id) && OutOfStep(o))
         || (a == MembershipTransition(o.id) && !LegalMemberships(members, initial, o.durable))
         || (ShowsLeader(o) && Incomplete(a, committed, committed.Keys, o))
  {
    hide LegalMemberships;
  }

  lemma DisagreeExactly(l: PersistentState, r: PersistentState)
    ensures Mismatched(l, r) <==> Disagree(l, r)
  {
    hide StateEntryAt;
    forall index: nat
      ensures InWindow(l, r, index) <==> StateEntryAt(l, index).Some? && StateEntryAt(r, index).Some?
    {
      WindowIs(l, r, index);
    }
    if Mismatched(l, r) {
      var index: nat, k: nat :| k <= index && SameTerm(l, r, index) && Differ(l, r, k);
      assert StateEntryAt(l, index).Some? && StateEntryAt(l, k).Some?;
    }
    if Disagree(l, r) {
      var index: nat, k: nat :|
        && k <= index
        && StateEntryAt(l, index).Some? && StateEntryAt(r, index).Some?
        && StateEntryAt(l, index).value.term == StateEntryAt(r, index).value.term
        && StateEntryAt(l, k).Some? && StateEntryAt(r, k).Some?
        && StateEntryAt(l, k) != StateEntryAt(r, k);
      assert SameTerm(l, r, index) && Differ(l, r, k);
    }
  }

  lemma WindowIs(l: PersistentState, r: PersistentState, index: nat)
    ensures InWindow(l, r, index) <==> StateEntryAt(l, index).Some? && StateEntryAt(r, index).Some?
  {
  }

  lemma {:induction false} PairsMean(nodes: seq<NodeObservation>, i: nat, j: nat, a: Alarm)
    requires i < j <= |nodes|
    ensures a in MismatchesOf(nodes, i, j) <==>
      exists k :: i < k < j && a == LogMismatch(nodes[i].id, nodes[k].id) && Disagree(nodes[i].durable, nodes[k].durable)
  {
    hide Mismatched, Disagree;
    if j > i + 1 {
      PairsMean(nodes, i, j - 1, a);
      DisagreeExactly(nodes[i].durable, nodes[j - 1].durable);
    }
  }

  lemma {:induction false} MismatchesMeanUpTo(nodes: seq<NodeObservation>, n: nat, a: Alarm)
    requires n <= |nodes|
    ensures a in Mismatches(nodes, n) <==>
      exists i, j :: 0 <= i < n && i < j < |nodes| && a == LogMismatch(nodes[i].id, nodes[j].id) && Disagree(nodes[i].durable, nodes[j].durable)
  {
    hide Mismatched, Disagree, MismatchesOf;
    if n > 0 {
      MismatchesMeanUpTo(nodes, n - 1, a);
      PairsMean(nodes, n - 1, |nodes|, a);
    }
  }

  lemma MismatchesMean(nodes: seq<NodeObservation>, a: Alarm)
    ensures a in Mismatches(nodes, |nodes|) <==>
      exists i, j :: 0 <= i < j < |nodes| && a == LogMismatch(nodes[i].id, nodes[j].id) && Disagree(nodes[i].durable, nodes[j].durable)
  {
    hide Mismatches, Disagree;
    MismatchesMeanUpTo(nodes, |nodes|, a);
  }

  ghost predicate LeadersAllowed(a: Alarm, nodes: seq<NodeObservation>, committed: map<nat, EntryWitness>) {
    exists i :: 0 <= i < |nodes| && LeaderAllowed(a, nodes[i], committed)
  }

  ghost predicate NodesAllowed(a: Alarm, nodes: seq<NodeObservation>, members: seq<NodeID>, initial: Membership) {
    exists i :: 0 <= i < |nodes| && Allowed(a, nodes[i], members, initial)
  }

  ghost predicate Remembered(w: EntryWitness, k: nat, o: NodeObservation) {
    w.commitTerm == o.durable.term && w.entry in CommittedPart(o.durable.log, o.durable.commit) && w.entry.index == k
  }

  /** Nothing is forgotten, and what is new was committed by one of these nodes. */
  ghost predicate Recalls(known: map<nat, EntryWitness>, now: map<nat, EntryWitness>, nodes: seq<NodeObservation>) {
    && (forall k | k in known :: k in now && now[k] == known[k])
    && (forall k | k in now && k !in known :: exists i :: 0 <= i < |nodes| && Remembered(now[k], k, nodes[i]))
  }

  lemma RemembersMeans(old_: map<nat, EntryWitness>, new_: map<nat, EntryWitness>, o: NodeObservation)
    requires Remembers(old_, new_, o)
    ensures forall k | k in old_ :: k in new_ && new_[k] == old_[k]
    ensures forall k | k in new_ && k !in old_ :: Remembered(new_[k], k, o)
  {
  }

  lemma {:induction false} MismatchesOfKind(nodes: seq<NodeObservation>, i: nat, j: nat)
    requires i < j <= |nodes|
    ensures forall a | a in MismatchesOf(nodes, i, j) :: a.LogMismatch?
    ensures forall a | a in MismatchesOf(nodes, i, j) ::
              exists k :: i < k < j && a == LogMismatch(nodes[i].id, nodes[k].id) && Mismatched(nodes[i].durable, nodes[k].durable)
  {
    hide Mismatched;
    if j > i + 1 {
      MismatchesOfKind(nodes, i, j - 1);
    }
  }

  /** Every log alarm of an observation is a pair whose logs do not match. */
  lemma {:induction false} MismatchesKind(nodes: seq<NodeObservation>, i: nat)
    requires i <= |nodes|
    ensures forall a | a in Mismatches(nodes, i) :: a.LogMismatch?
    ensures forall a | a in Mismatches(nodes, i) ::
              exists x, y :: 0 <= x < y < |nodes| && a == LogMismatch(nodes[x].id, nodes[y].id)
                && Mismatched(nodes[x].durable, nodes[y].durable)
  {
    hide Mismatched;
    if i > 0 {
      MismatchesKind(nodes, i - 1);
      MismatchesOfKind(nodes, i - 1, |nodes|);
    }
  }

  /** The records of a history, by kind; leaders are looked at after the nodes of an observation. */
  datatype Records = Records(
    votes: seq<((NodeID, nat), NodeID)>,
    terms: seq<(NodeID, nat)>,
    commits: seq<(NodeID, nat)>,
    appliedIndexes: seq<(NodeID, nat)>,
    committed: seq<(nat, Entry)>,
    applied: seq<(nat, Entry)>,
    snapshots: seq<(nat, Snapshot)>,
    leaders: seq<(nat, NodeID)>)

  function Of(seen: seq<NodeObservation>, led: seq<NodeObservation>): Records {
    Records(Flat(seen, VoteRecords), Flat(seen, TermRecords), Flat(seen, CommitRecords), Flat(seen, AppliedRecords),
            Flat(seen, CommittedRecords), Flat(seen, AppliedEntryRecords), Flat(seen, SnapshotRecords), Flat(led, LeaderRecords))
  }

  lemma OfSnoc(seen: seq<NodeObservation>, led: seq<NodeObservation>, o: NodeObservation)
    ensures var r, r' := Of(seen, led), Of(seen + [o], led);
      r' == Records(r.votes + VoteRecords(o), r.terms + TermRecords(o), r.commits + CommitRecords(o),
                    r.appliedIndexes + AppliedRecords(o), r.committed + CommittedRecords(o), r.applied + AppliedEntryRecords(o),
                    r.snapshots + SnapshotRecords(o), r.leaders)
  {
    FlatSnoc(seen, o, VoteRecords);
    FlatSnoc(seen, o, TermRecords);
    FlatSnoc(seen, o, CommitRecords);
    FlatSnoc(seen, o, AppliedRecords);
    FlatSnoc(seen, o, CommittedRecords);
    FlatSnoc(seen, o, AppliedEntryRecords);
    FlatSnoc(seen, o, SnapshotRecords);
  }

  /** What observing one node may raise. */
  ghost predicate Allowed(a: Alarm, o: NodeObservation, members: seq<NodeID>, initial: Membership) {
    || Historical(a)
    || (a == DurableMatch(o.id) && OutOfStep(o))
    || (a == MembershipTransition(o.id) && !LegalMemberships(members, initial, o.durable))
  }

  /** Alarms that two observations of the history account for. */
  predicate Historical(a: Alarm) {
    || a.TwoLeaders? || a.DoubleVote? || a.CommittedConflict? || a.AppliedConflict? || a.SnapshotConflict?
    || a.TermMonotonic? || a.CommitMonotonic? || a.AppliedMonotonic?
  }

  lemma FlatSnoc<R>(history: seq<NodeObservation>, o: NodeObservation, records: NodeObservation -> seq<R>)
    ensures Flat(history + [o], records) == Flat(history, records) + records(o)
  {
    assert (history + [o])[..|history|] == history;
  }

  predicate OutOfStep(o: NodeObservation) {
    && o.status.Some? && !o.status.value.awaiting
    && (o.status.value.term != o.durable.term || o.status.value.votedFor != o.durable.votedFor
        || o.status.value.commit != o.durable.commit)
  }

  ghost predicate LegalMemberships(members: seq<NodeID>, initial: Membership, state: PersistentState) {
    var s := state.snapshot;
    var given := s.index > 0 && !s.membership.IsZero();
    && (given ==> ValidateMembership(s.membership, members))
    && ChainOK(Setup(members, initial), if given then s.membership else initial, state.log)
  }

  /** The pairs of node i with those after it and before j whose logs do not match. */
  ghost function MismatchesOf(nodes: seq<NodeObservation>, i: nat, j: nat): set<Alarm>
    requires i < j <= |nodes|
  {
    if j == i + 1 then {}
    else MismatchesOf(nodes, i, j - 1)
         + if Mismatched(nodes[i].durable, nodes[j - 1].durable) then {LogMismatch(nodes[i].id, nodes[j - 1].id)} else {}
  }

  ghost function Mismatches(nodes: seq<NodeObservation>, i: nat): set<Alarm>
    requires i <= |nodes|
  {
    if i == 0 then {} else Mismatches(nodes, i - 1) + MismatchesOf(nodes, i - 1, |nodes|)
  }

  /** What was first seen committed in this observation is remembered with this node's term. */
  ghost predicate Remembers(old_: map<nat, EntryWitness>, new_: map<nat, EntryWitness>, o: NodeObservation) {
    && (forall k | k in old_ :: k in new_ && new_[k] == old_[k])
    && (forall k | k in new_ && k !in old_ ::
          && new_[k].commitTerm == o.durable.term
          && new_[k].entry in CommittedPart(o.durable.log, o.durable.commit)
          && new_[k].entry.index == k)
  }

  lemma NothingRemembered(committed: map<nat, EntryWitness>, o: NodeObservation)
    ensures Remembers(committed, committed, o)
  {
  }

  lemma RemembersOneMore(old_: map<nat, EntryWitness>, committed: map<nat, EntryWitness>, o: NodeObservation, entry: Entry)
    requires Remembers(old_, committed, o) && entry in CommittedPart(o.durable.log, o.durable.commit)
    ensures Remembers(old_, if entry.index in committed then committed
                            else committed[entry.index := EntryWitness(o.id, entry, o.durable.term)], o)
  {
  }

  lemma NothingByIndex(records: seq<(nat, Entry)>, part: seq<Entry>)
    ensures records + ByIndex(part[..0]) == records
  {
  }

  lemma AlarmsSnoc(violations: seq<Violation>, v: Violation)
    ensures Alarms(violations + [v]) == Alarms(violations) + {v.alarm}
  {
    var all := violations + [v];
    forall a
      ensures a in Alarms(all) <==> a in Alarms(violations) || a == v.alarm
    {
      if a in Alarms(violations) {
        var i :| 0 <= i < |violations| && violations[i].alarm == a;
        assert all[i].alarm == a;
      }
      assert all[|violations|] == v;
    }
  }

  lemma PartStep(log: seq<Entry>, commit: nat, part: seq<Entry>, i: nat)
    requires i < |log| && i <= |part| && part == part[..i] + CommittedPart(log[i..], commit) && log[i].index <= commit
    ensures i < |part| && part[i] == log[i] && part == part[..i + 1] + CommittedPart(log[i + 1..], commit)
  {
    assert log[i..][1..] == log[i + 1..];
    assert CommittedPart(log[i..], commit) == [log[i]] + CommittedPart(log[i + 1..], commit);
    assert part[..i + 1] == part[..i] + [log[i]];
  }

  lemma ByIndexSnoc(records: seq<(nat, Entry)>, part: seq<Entry>, i: nat)
    requires i < |part|
    ensures records + ByIndex(part[..i + 1]) == records + ByIndex(part[..i]) + [(part[i].index, part[i])]
  {
    assert ByIndex(part[..i + 1]) == ByIndex(part[..i]) + [(part[i].index, part[i])];
  }

  // ----- what the history of alarms means, on the observations themselves -----

  lemma {:induction false} FlatHas<R>(history: seq<NodeObservation>, records: NodeObservation -> seq<R>, r: R)
    ensures r in Flat(history, records) <==> exists o :: o in history && r in records(o)
  {
    if history != [] {
      var front, last := history[..|history| - 1], history[|history| - 1];
      FlatHas(front, records, r);
      assert history == front + [last];
    }
  }

  lemma ConflictPairs<K(!new), V(!new)>(all: seq<(K, V)>, k: K)
    ensures Conflict(all, k) <==> exists x, y :: (k, x) in all && (k, y) in all && x != y
  {
    if Conflict(all, k) {
      var i, j :| 0 <= i < |all| && 0 <= j < |all| && all[i].0 == k == all[j].0 && all[i].1 != all[j].1;
      assert all[i] == (k, all[i].1) && all[j] == (k, all[j].1);
    }
    if x, y :| (k, x) in all && (k, y) in all && x != y {
      var i :| 0 <= i < |all| && all[i] == (k, x);
      var j :| 0 <= j < |all| && all[j] == (k, y);
      assert all[i].1 != all[j].1;
    }
  }

  /** Two different values of a key show in the observations that made the records. */
  lemma ConflictShown<K(!new), V(!new)>(history: seq<NodeObservation>, records: NodeObservation -> seq<(K, V)>, k: K)
    ensures Conflict(Flat(history, records), k) <==>
      exists a, b, x, y :: a in history && b in history && (k, x) in records(a) && (k, y) in records(b) && x != y
  {
    hide Conflict, Flat;
    var all := Flat(history, records);
    ConflictPairs(all, k);
    forall x
      ensures (k, x) in all <==> exists o :: o in history && (k, x) in records(o)
    {
      FlatHas(history, records, (k, x));
    }
  }

  lemma {:induction false} FlatOne<R>(history: seq<NodeObservation>, records: NodeObservation -> seq<R>)
    requires forall o :: |records(o)| == 1
    ensures |Flat(history, records)| == |history|
    ensures forall i | 0 <= i < |history| :: Flat(history, records)[i] == records(history[i])[0]
  {
    if history != [] { FlatOne(history[..|history| - 1], records); }
  }

  /** A later observation of a node is lower than an earlier one. */
  ghost predicate Falls(history: seq<NodeObservation>, value: NodeObservation -> nat, n: NodeID) {
    exists i, j :: 0 <= i < j < |history| && history[i].id == n == history[j].id && value(history[j]) < value(history[i])
  }

  lemma DroppedShown(history: seq<NodeObservation>, records: NodeObservation -> seq<(NodeID, nat)>, value: NodeObservation -> nat, n: NodeID)
    requires forall o :: records(o) == [(o.id, value(o))]
    ensures Dropped(Flat(history, records), n) <==> Falls(history, value, n)
  {
    FlatOne(history, records);
    var all := Flat(history, records);
    if Dropped(all, n) {
      var i, j :| 0 <= i < j < |all| && all[i].0 == n == all[j].0 && all[j].1 < all[i].1;
      assert value(history[j]) < value(history[i]);
    }
    if Falls(history, value, n) {
      var i, j :| 0 <= i < j < |history| && history[i].id == n == history[j].id && value(history[j]) < value(history[i]);
      assert all[j].1 < all[i].1;
    }
  }

  /** A log holds this entry with everything up to it committed. */
  ghost predicate HoldsCommitted(o: NodeObservation, e: Entry) {
    exists i :: 0 <= i < |o.durable.log| && o.durable.log[i] == e && forall j | 0 <= j <= i :: o.durable.log[j].index <= o.durable.commit
  }

  lemma {:induction false} CommittedPartIs(log: seq<Entry>, commit: nat)
    ensures var part := CommittedPart(log, commit);
      && part <= log
      && (forall i | 0 <= i < |part| :: log[i].index <= commit)
      && (|part| < |log| ==> log[|part|].index > commit)
  {
    if log != [] && log[0].index <= commit {
      CommittedPartIs(log[1..], commit);
      assert log == [log[0]] + log[1..];
      var part := CommittedPart(log, commit);
      forall i | 0 <= i < |part|
        ensures log[i].index <= commit && part[i] == log[i]
      {
        if i > 0 { assert part[i] == part[1..][i - 1]; }
      }
    }
  }

  lemma CommittedShown(o: NodeObservation, e: Entry)
    ensures (e.index, e) in CommittedRecords(o) <==> HoldsCommitted(o, e)
  {
    var log := o.durable.log;
    var part := CommittedPart(log, o.durable.commit);
    CommittedPartIs(log, o.durable.commit);
    if (e.index, e) in CommittedRecords(o) {
      var i :| 0 <= i < |part| && (part[i].index, part[i]) == (e.index, e);
      assert log[i] == e;
    }
    if HoldsCommitted(o, e) {
      var i :| 0 <= i < |log| && log[i] == e && forall j | 0 <= j <= i :: log[j].index <= o.durable.commit;
      assert i < |part| && part[i] == e;
      assert CommittedRecords(o)[i] == (e.index, e);
    }
  }

  // ----- the alarms -----

  ghost predicate VotedTwice(seen: seq<NodeObservation>, n: NodeID, t: nat) {
    exists a, b :: a in seen && b in seen && a.id == n == b.id && a.durable.term == t == b.durable.term
      && a.durable.votedFor != NO_NODE && b.durable.votedFor != NO_NODE && a.durable.votedFor != b.durable.votedFor
  }

  predicate LeadsIn(o: NodeObservation, t: nat) {
    o.status.Some? && o.status.value.role == Leader && !o.status.value.awaiting && o.status.value.term == t
  }

  ghost predicate LedTwice(led: seq<NodeObservation>, t: nat) {
    exists a, b :: a in led && b in led && LeadsIn(a, t) && LeadsIn(b, t) && a.id != b.id
  }

  ghost predicate CommittedTwice(seen: seq<NodeObservation>, index: nat) {
    exists a, b, x: Entry, y: Entry :: a in seen && b in seen && HoldsCommitted(a, x) && HoldsCommitted(b, y) && x.index == index == y.index && x != y
  }

  ghost predicate AppliedTwice(seen: seq<NodeObservation>, index: nat) {
    exists a, b, x: Entry, y: Entry :: a in seen && b in seen && x in a.entries && y in b.entries && x.index == index == y.index && x != y
  }

  ghost predicate SnappedTwice(seen: seq<NodeObservation>, index: nat) {
    exists a, b :: a in seen && b in seen && a.durable.snapshot.index == index == b.durable.snapshot.index > 0
      && a.durable.snapshot != b.durable.snapshot
  }

  lemma VotesShown(seen: seq<NodeObservation>, n: NodeID, t: nat)
    ensures Conflict(Flat(seen, VoteRecords), (n, t)) <==> VotedTwice(seen, n, t)
  {
    ConflictShown(seen, VoteRecords, (n, t));
    if VotedTwice(seen, n, t) {
      var a, b :| a in seen && b in seen && a.id == n == b.id && a.durable.term == t == b.durable.term
        && a.durable.votedFor != NO_NODE && b.durable.votedFor != NO_NODE && a.durable.votedFor != b.durable.votedFor;
      assert ((n, t), a.durable.votedFor) in VoteRecords(a) && ((n, t), b.durable.votedFor) in VoteRecords(b);
    }
  }

  lemma LeadersShown(led: seq<NodeObservation>, t: nat)
    ensures Conflict(Flat(led, LeaderRecords), t) <==> LedTwice(led, t)
  {
    ConflictShown(led, LeaderRecords, t);
    if LedTwice(led, t) {
      var a, b :| a in led && b in led && LeadsIn(a, t) && LeadsIn(b, t) && a.id != b.id;
      assert (t, a.id) in LeaderRecords(a) && (t, b.id) in LeaderRecords(b);
    }
  }

  lemma SnapshotsShown(seen: seq<NodeObservation>, index: nat)
    ensures Conflict(Flat(seen, SnapshotRecords), index) <==> SnappedTwice(seen, index)
  {
    ConflictShown(seen, SnapshotRecords, index);
    if SnappedTwice(seen, index) {
      var a, b :| a in seen && b in seen && a.durable.snapshot.index == index == b.durable.snapshot.index > 0
        && a.durable.snapshot != b.durable.snapshot;
      assert (index, a.durable.snapshot) in SnapshotRecords(a) && (index, b.durable.snapshot) in SnapshotRecords(b);
    }
  }

  lemma CommitsShown(seen: seq<NodeObservation>, index: nat)
    ensures Conflict(Flat(seen, CommittedRecords), index) <==> CommittedTwice(seen, index)
  {
    hide HoldsCommitted, Conflict, Flat, CommittedRecords;
    ConflictShown(seen, CommittedRecords, index);
    forall o, e: Entry
      ensures (index, e) in CommittedRecords(o) <==> HoldsCommitted(o, e) && e.index == index
    {
      CommittedKey(o, index, e);
    }
  }

  lemma CommittedKey(o: NodeObservation, index: nat, e: Entry)
    ensures (index, e) in CommittedRecords(o) <==> HoldsCommitted(o, e) && e.index == index
  {
    hide HoldsCommitted;
    KeyedByIndex(CommittedPart(o.durable.log, o.durable.commit), index, e);
    if e.index == index { CommittedShown(o, e); }
  }

  lemma KeyedByIndex(entries: seq<Entry>, index: nat, e: Entry)
    ensures (index, e) in ByIndex(entries) <==> e in entries && e.index == index
  {
    if e in entries && e.index == index {
      var i :| 0 <= i < |entries| && entries[i] == e;
      assert ByIndex(entries)[i] == (index, e);
    }
  }

  lemma AppliedShown(seen: seq<NodeObservation>, index: nat)
    ensures Conflict(Flat(seen, AppliedEntryRecords), index) <==> AppliedTwice(seen, index)
  {
    hide ByIndex;
    ConflictShown(seen, AppliedEntryRecords, index);
    forall o, e: Entry
      ensures (index, e) in AppliedEntryRecords(o) <==> e in o.entries && e.index == index
    {
      KeyedByIndex(o.entries, index, e);
    }
  }

  /** What each alarm about a history of observations means. */
  ghost predicate Means(alarms: set<Alarm>, seen: seq<NodeObservation>, led: seq<NodeObservation>) {
    && (forall n, t :: DoubleVote(n, t) in alarms <==> VotedTwice(seen, n, t))
    && (forall t :: TwoLeaders(t) in alarms <==> LedTwice(led, t))
    && (forall i :: CommittedConflict(i) in alarms <==> CommittedTwice(seen, i))
    && (forall i :: AppliedConflict(i) in alarms <==> AppliedTwice(seen, i))
    && (forall i :: SnapshotConflict(i) in alarms <==> SnappedTwice(seen, i))
    && (forall n :: TermMonotonic(n) in alarms <==> Falls(seen, (o: NodeObservation) => o.durable.term, n))
    && (forall n :: CommitMonotonic(n) in alarms <==> Falls(seen, (o: NodeObservation) => o.durable.commit, n))
    && (forall n :: AppliedMonotonic(n) in alarms <==> Falls(seen, (o: NodeObservation) => o.applied, n))
  }

  /**
   * WHAT THE HISTORICAL ALARMS SAY, exactly: a checker that observed these nodes, and looked at those
   * as leaders, has raised each alarm if and only if two of the observations contradict each other.
   */
  lemma AlarmsMean(c: Checker, seen: seq<NodeObservation>, led: seq<NodeObservation>)
    requires c.Knows(Of(seen, led))
    ensures Means(Alarms(c.violations), seen, led)
  {
    hide Alarms, Conflict, Dropped, First, Marks, Witnesses, Flat, Falls, VotedTwice, LedTwice, CommittedTwice, AppliedTwice, SnappedTwice,
      VoteRecords, LeaderRecords, CommittedRecords, AppliedEntryRecords, SnapshotRecords;
    forall n, t ensures Conflict(Flat(seen, VoteRecords), (n, t)) <==> VotedTwice(seen, n, t) { VotesShown(seen, n, t); }
    forall t ensures Conflict(Flat(led, LeaderRecords), t) <==> LedTwice(led, t) { LeadersShown(led, t); }
    forall i ensures Conflict(Flat(seen, CommittedRecords), i) <==> CommittedTwice(seen, i) { CommitsShown(seen, i); }
    forall i ensures Conflict(Flat(seen, AppliedEntryRecords), i) <==> AppliedTwice(seen, i) { AppliedShown(seen, i); }
    forall i ensures Conflict(Flat(seen, SnapshotRecords), i) <==> SnappedTwice(seen, i) { SnapshotsShown(seen, i); }
    forall n
      ensures Dropped(Flat(seen, TermRecords), n) <==> Falls(seen, (o: NodeObservation) => o.durable.term, n)
      ensures Dropped(Flat(seen, CommitRecords), n) <==> Falls(seen, (o: NodeObservation) => o.durable.commit, n)
      ensures Dropped(Flat(seen, AppliedRecords), n) <==> Falls(seen, (o: NodeObservation) => o.applied, n)
    {
      DroppedShown(seen, TermRecords, (o: NodeObservation) => o.durable.term, n);
      DroppedShown(seen, CommitRecords, (o: NodeObservation) => o.durable.commit, n);
      DroppedShown(seen, AppliedRecords, (o: NodeObservation) => o.applied, n);
    }
  }
}

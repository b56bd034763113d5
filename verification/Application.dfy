/**
 * The portable application inside the cluster (raftsim/cluster.go): a deterministic machine per
 * running process, fed by the node's effects, saved into snapshots, and rebuilt after a crash.
 */
module Application {
  import opened RaftTypes
  import opened NodeSpec
  import opened Validation
  import opened ClusterSpec

  /** A deterministic machine with checkpoints; None is an error. */
  datatype App<!M> = App(
    initial: M,
    apply: (M, Bytes) -> Option<M>,
    save: M -> Option<Bytes>,
    restore: Bytes -> Option<M>,
    agree: (M, M) -> bool)

  function ApplyEntry<M>(app: App<M>, m: M, e: Entry): Option<M> {
    if e.kind.Command? then app.apply(m, e.data) else Some(m)
  }

  /** The machine after the commands of a log, or None where one was refused. */
  function MachineAfter<M>(app: App<M>, log: seq<Entry>): Option<M> {
    if log == [] then Some(app.initial)
    else
      match MachineAfter(app, log[..|log| - 1])
      case None => None
      case Some(m) => ApplyEntry(app, m, log[|log| - 1])
  }

  /** Checkpoints of machines that a log can lead to restore the machine, which agrees with itself. */
  ghost predicate Faithful<M>(app: App<M>) {
    forall log {:trigger MachineAfter(app, log)} | MachineAfter(app, log).Some? ::
      var m := MachineAfter(app, log).value;
      app.agree(m, m) && (app.save(m).Some? ==> app.restore(app.save(m).value) == Some(m))
  }

  // ----- recovery -----

  datatype Replay<M> = NoReplay | Reached(machine: M, last: nat)

  /** Entries past the boundary, which must come without a gap and not pass the applied index. */
  function ReplayFrom<M>(app: App<M>, m: M, boundary: nat, applied: nat, entries: seq<Entry>): Replay<M> {
    if entries == [] then Reached(m, boundary)
    else
      match ReplayFrom(app, m, boundary, applied, entries[..|entries| - 1])
      case NoReplay => NoReplay
      case Reached(m1, last) =>
        var e := entries[|entries| - 1];
        if e.index <= boundary then Reached(m1, last)
        else if last == MAX_UINT64 || e.index != last + 1 || e.index > applied then NoReplay
        else
          match ApplyEntry(app, m1, e)
          case None => NoReplay
          case Some(m2) => Reached(m2, e.index)
  }

  /** The store has a snapshot that its application already took. */
  predicate SnapshotUsable(s: Store) {
    0 < s.state.snapshot.index <= s.applied
  }

  function Recover<M>(app: App<M>, s: Store): Option<M> {
    match (if SnapshotUsable(s) then app.restore(s.state.snapshot.data) else Some(app.initial))
    case None => None
    case Some(m) =>
      match ReplayFrom(app, m, if SnapshotUsable(s) then s.state.snapshot.index else 0, s.applied, s.entries)
      case NoReplay => None
      case Reached(m1, last) => if last == s.applied then Some(m1) else None
  }

  lemma {:induction false} NoReplayStays<M>(app: App<M>, m: M, boundary: nat, applied: nat, entries: seq<Entry>, i: nat)
    requires i <= |entries| && ReplayFrom(app, m, boundary, applied, entries[..i]).NoReplay?
    ensures ReplayFrom(app, m, boundary, applied, entries).NoReplay?
    decreases |entries|
  {
    if i < |entries| {
      assert entries[..|entries| - 1][..i] == entries[..i];
      NoReplayStays(app, m, boundary, applied, entries[..|entries| - 1], i);
    } else {
      assert entries[..i] == entries;
    }
  }

  method ReplayEntries<M>(app: App<M>, start: M, boundary: nat, applied: nat, entries: seq<Entry>) returns (r: Replay<M>)
    ensures r == ReplayFrom(app, start, boundary, applied, entries)
  {
    hide ApplyEntry;
    var application, last := start, boundary;
    for i := 0 to |entries|
      invariant ReplayFrom(app, start, boundary, applied, entries[..i]) == Reached(application, last)
    {
      var entry := entries[i];
      assert entries[..i + 1][..i] == entries[..i] && entries[..i + 1][i] == entry;
      if entry.index <= boundary { continue; }
      if last == MAX_UINT64 || entry.index != last + 1 || entry.index > applied {
        NoReplayStays(app, start, boundary, applied, entries, i + 1);
        return NoReplay;
      }
      var next := ApplyEntry(app, application, entry);
      if next.None? {
        NoReplayStays(app, start, boundary, applied, entries, i + 1);
        return NoReplay;
      }
      application := next.value;
      last := entry.index;
    }
    assert entries[..|entries|] == entries;
    r := Reached(application, last);
  }

  method RecoverApplication<M>(app: App<M>, s: Store) returns (r: Option<M>)
    ensures r == Recover(app, s)
  {
    hide ReplayFrom;
    var application, boundary: nat := app.initial, 0;
    var snapshot := s.state.snapshot;
    if snapshot.index > 0 && snapshot.index <= s.applied {
      var restored := app.restore(snapshot.data);
      if restored.None? { return None; }
      application := restored.value;
      boundary := snapshot.index;
    }
    var replayed := ReplayEntries(app, application, boundary, s.applied, s.entries);
    if replayed.NoReplay? || replayed.last != s.applied { return None; }
    r := Some(replayed.machine);
  }

  // ----- the live application -----

  /** What the effects do to it, beside what they do to the store; a checkpoint at the applied index must agree with it. */
  function PerformApp<M>(app: App<M>, p: Process, m: Option<M>, effects: seq<Effect>): Option<M>
    requires p.Up?
  {
    if effects == [] then m
    else
      var front := effects[..|effects| - 1];
      match PerformApp(app, p, m, front)
      case None => None
      case Some(m1) =>
        var applied := Perform(p, front).process.store.applied;
        match effects[|effects| - 1]
        case Apply(entry) => ApplyEntry(app, m1, entry)
        case RestoreSnapshot(snapshot) =>
          (match app.restore(snapshot.data)
           case None => None
           case Some(m2) => if snapshot.index == applied && !app.agree(m2, m1) then None else Some(m2))
        case Send(_) => Some(m1)
        case Persist(_, _) => Some(m1)
        case ResetElectionTimer => Some(m1)
        case ResetHeartbeatTimer => Some(m1)
  }

  function SubmitApp<M>(app: App<M>, u: Setup, p: Process, m: Option<M>, input: Input): Option<M>
    requires p.Up?
  {
    if p.node.pending.Some? || !Current(p.node.core, input) then m
    else
      match Advance(u, p.node, input)
      case Refused(node, error) => m
      case Stepped(node, effects) => PerformApp(app, p.(node := node), m, effects)
  }

  function DrainApp<M>(app: App<M>, u: Setup, p: Process, m: Option<M>): Option<M>
    requires p.Up?
    decreases if p.Up? then |p.mailbox| else 0
  {
    if p.node.pending.Some? || p.mailbox == [] then m
    else
      var p1 := p.(mailbox := p.mailbox[1..]);
      var m1 := SubmitApp(app, u, p1, m, p.mailbox[0]);
      var t := Submit(u, p1, p.mailbox[0]);
      if t.fault.Some? || m1.None? then m1 else DrainApp(app, u, t.process, m1)
  }

  function AcknowledgeApp<M>(app: App<M>, u: Setup, p: Process, m: Option<M>): Option<M>
    requires p.Up? && p.stage.Stored?
  {
    match Advance(u, p.node, Persisted(p.stage.token))
    case Refused(node, error) => m
    case Stepped(node, effects) =>
      var p1 := p.(node := node, stage := Idle);
      var t := Perform(p1, effects);
      var m1 := PerformApp(app, p1, m, effects);
      if t.fault.Some? || m1.None? then m1 else DrainApp(app, u, t.process, m1)
  }

  /** A restarted process rebuilds its application before its node starts. */
  function BootApp<M>(app: App<M>, u: Setup, id: NodeID, store: Store): Option<M> {
    match Recover(app, store)
    case None => None
    case Some(m) =>
      if !ValidState(u, store.state, store.applied) then None
      else
        var (core, effects) := Start(Fresh(u, id, store.state, store.applied));
        PerformApp(app, Up(Node(core, 1, None), ClusterSpec.Idle, [], false, store), Some(m), effects)
  }

  // ----- runs -----

  /** A process's application: gone with the process, running, or broken by an error, at which the program stops. */
  datatype Live<M> = Gone | Running(machine: M) | Broken

  function FromOption<M>(m: Option<M>): Live<M> {
    if m.None? then Broken else Running(m.value)
  }

  datatype World<M> = World(c: Cluster, live: map<NodeID, Live<M>>)

  function LiveTurn<M>(app: App<M>, u: Setup, p: Process, m: M, action: Action): Live<M>
    requires p.Up? && !action.Restart? && (action.AckDone? ==> p.stage.Stored?)
  {
    match action
    case Deliver(message) => FromOption(SubmitApp(app, u, p, Some(m), Receive(message)))
    case Ask(_, input) => FromOption(SubmitApp(app, u, p, Some(m), input))
    case WriteDone(_) => if p.crashAfterPersist then Gone else Running(m)
    case AckDone(_) => FromOption(AcknowledgeApp(app, u, p, Some(m)))
    case ArmCrash(_) => Running(m)
    case Crash(_) => Gone
  }

  function TurnApp<M>(app: App<M>, u: Setup, x: World<M>, action: Action): Live<M>
    requires Enabled(x.c, action) && Actor(action) in x.live
  {
    var p, live := x.c.processes[Actor(action)], x.live[Actor(action)];
    if action.Restart? then FromOption(BootApp(app, u, action.id, p.store))
    else if live.Running? then LiveTurn(app, u, p, live.machine, action)
    else Broken
  }

  /** With an application, a snapshot is taken at the applied index and holds the live application's checkpoint. */
  predicate TakesCheckpoint<M>(app: App<M>, x: World<M>, action: Action) {
    action.Ask? && action.input.TakeSnapshot? && action.id in x.c.processes && action.id in x.live ==>
      && action.input.index == x.c.processes[action.id].store.applied
      && x.live[action.id].Running?
      && app.save(x.live[action.id].machine) == Some(action.input.data)
  }

  ghost predicate WorldStep<M>(app: App<M>, u: Setup, x: World<M>, x': World<M>, action: Action) {
    && Enabled(x.c, action) && Actor(action) in x.live
    && TakesCheckpoint(app, x, action)
    && !TurnApp(app, u, x, action).Broken?
    && x' == World(After(u, x.c, action), x.live[Actor(action) := TurnApp(app, u, x, action)])
  }

  ghost predicate Steps<M>(app: App<M>, u: Setup, x: World<M>, x': World<M>) {
    exists action :: WorldStep(app, u, x, x', action)
  }

  ghost predicate WorldNext<M>(app: App<M>, u: Setup, run: seq<World<M>>, i: nat)
    requires 0 < i < |run|
  {
    Steps(app, u, run[i - 1], run[i])
  }

  function Beginning<M>(u: Setup): World<M> {
    World(Provisioned(u), map id | id in u.members :: Gone)
  }

  /** A run of the cluster with its applications, for as long as none of them meets an error. */
  ghost predicate IsWorldRun<M>(app: App<M>, u: Setup, run: seq<World<M>>) {
    && |run| > 0
    && run[0] == Beginning(u)
    && forall i {:trigger WorldNext(app, u, run, i)} | 0 < i < |run| :: WorldNext(app, u, run, i)
  }
}

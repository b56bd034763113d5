/**
 * The cluster around the nodes (raftsim/cluster.go): durable stores whose writes complete and are
 * acknowledged by separate events, a mailbox while a write is outstanding, crashes before and
 * after a write, and restarts.  The network is the set of all messages ever sent; delivering one
 * leaves it there, so loss, duplication and reordering need no steps of their own.
 */
module ClusterSpec {
  import opened RaftTypes
  import opened Configuration
  import opened NodeSpec
  import opened Validation

  /** What survives a crash: the node's state, and what its application has taken. */
  datatype Store = Store(state: PersistentState, applied: nat, entries: seq<Entry>, installed: Snapshot)

  const EMPTY_STORE := Store(EMPTY_STATE, 0, [], NO_SNAPSHOT)

  /** Where the outstanding write is: scheduled, or stored with its acknowledgement scheduled. */
  datatype Stage = Idle | Writing(token: nat, state: PersistentState) | Stored(token: nat)

  datatype Process =
    | Up(node: Node, stage: Stage, mailbox: seq<Input>, crashAfterPersist: bool, store: Store)
    | Down(store: Store)

  datatype Fault = ApplyOrder | OverlappingPersistence | StepFailed(error: Error) | StartRejected(error: Error)

  /** What one event did to one process: its new state, the messages it sent, and the error it stopped at. */
  datatype Turn = Turn(process: Process, sent: seq<Message>, fault: Option<Fault>)

  datatype Cluster = Cluster(processes: map<NodeID, Process>, network: set<Message>, fault: Option<Fault>)

  // ----- effects -----

  function Trim(entries: seq<Entry>, index: nat): seq<Entry> {
    if entries == [] then []
    else
      var front := Trim(entries[..|entries| - 1], index);
      if entries[|entries| - 1].index <= index then front else front + [entries[|entries| - 1]]
  }

  function PerformOne(p: Process, effect: Effect): Turn
    requires p.Up?
  {
    match effect
    case Persist(token, state) =>
      if !p.stage.Idle? then Turn(p, [], Some(OverlappingPersistence))
      else Turn(p.(stage := Writing(token, state)), [], None)
    case Send(message) => Turn(p, [message], None)
    case ResetElectionTimer => Turn(p, [], None)
    case ResetHeartbeatTimer => Turn(p, [], None)
    case Apply(entry) =>
      if entry.index != p.store.applied + 1 then Turn(p, [], Some(ApplyOrder))
      else Turn(p.(store := p.store.(applied := entry.index, entries := p.store.entries + [entry])), [], None)
    case RestoreSnapshot(snapshot) =>
      if snapshot.index < p.store.applied then Turn(p, [], Some(ApplyOrder))
      else Turn(p.(store := p.store.(applied := snapshot.index, entries := Trim(p.store.entries, snapshot.index),
                                     installed := snapshot)), [], None)
  }

  /** The effects in order, up to the first that fails. */
  function Perform(p: Process, effects: seq<Effect>): (t: Turn)
    requires p.Up?
    ensures t.process.Up? && t.process.mailbox == p.mailbox
  {
    if effects == [] then Turn(p, [], None)
    else
      var t := Perform(p, effects[..|effects| - 1]);
      if t.fault.Some? then t
      else
        var t1 := PerformOne(t.process, effects[|effects| - 1]);
        Turn(t1.process, t.sent + t1.sent, t1.fault)
  }

  // ----- inputs -----

  /** Step, where a state whose committed entries are unavailable stops the program. */
  function Advance(u: Setup, n: Node, input: Input): StepResult {
    if Boundary(n.core) <= n.core.applied then Step(u, n, input) else Refused(n, Panic)
  }

  /** A timer that the node's role made obsolete is dropped. */
  predicate Current(n: Core, input: Input) {
    && (input.ElectionTimeout? ==> !n.role.Leader?)
    && (input.HeartbeatTimeout? ==> n.role.Leader?)
  }

  /** An input waits in the mailbox while a write is outstanding. */
  function Submit(u: Setup, p: Process, input: Input): (t: Turn)
    requires p.Up?
    ensures t.process.Up?
    ensures p.node.pending.None? ==> t.process.mailbox == p.mailbox
  {
    if p.node.pending.Some? then Turn(p.(mailbox := p.mailbox + [input]), [], None)
    else if !Current(p.node.core, input) then Turn(p, [], None)
    else
      match Advance(u, p.node, input)
      case Refused(node, error) => Turn(p.(node := node), [], Some(StepFailed(error)))
      case Stepped(node, effects) => Perform(p.(node := node), effects)
  }

  /** The mailbox in order, until a write is outstanding again or an input fails. */
  function Drain(u: Setup, p: Process): (t: Turn)
    requires p.Up?
    ensures t.process.Up?
    decreases if p.Up? then |p.mailbox| else 0
  {
    if p.node.pending.Some? || p.mailbox == [] then Turn(p, [], None)
    else
      var t := Submit(u, p.(mailbox := p.mailbox[1..]), p.mailbox[0]);
      if t.fault.Some? then t
      else
        var t1 := Drain(u, t.process);
        Turn(t1.process, t.sent + t1.sent, t1.fault)
  }

  // ----- storage -----

  /** The write reaches the store; an armed crash strikes before it is acknowledged. */
  function CompleteWrite(p: Process): Process
    requires p.Up? && p.stage.Writing?
  {
    var store := p.store.(state := p.stage.state);
    if p.crashAfterPersist then Down(store) else p.(stage := Stored(p.stage.token), store := store)
  }

  /** The acknowledgement releases the effects that waited for the write, then the mailbox. */
  function Acknowledge(u: Setup, p: Process): Turn
    requires p.Up? && p.stage.Stored?
  {
    match Advance(u, p.node, Persisted(p.stage.token))
    case Refused(node, error) => Turn(p.(node := node, stage := Idle), [], Some(StepFailed(error)))
    case Stepped(node, effects) =>
      var t := Perform(p.(node := node, stage := Idle), effects);
      if t.fault.Some? then t
      else
        var t1 := Drain(u, t.process);
        Turn(t1.process, t.sent + t1.sent, t1.fault)
  }

  /** A fresh follower from the durable store alone. */
  function Boot(u: Setup, id: NodeID, store: Store): Turn {
    if !ValidState(u, store.state, store.applied) then Turn(Down(store), [], Some(StartRejected(InvalidState)))
    else
      var (core, effects) := Start(Fresh(u, id, store.state, store.applied));
      Perform(Up(Node(core, 1, None), Idle, [], false, store), effects)
  }

  // ----- the cluster -----

  datatype Action =
    | Deliver(message: Message)
    | Ask(id: NodeID, input: Input)
    | WriteDone(id: NodeID)
    | AckDone(id: NodeID)
    | ArmCrash(id: NodeID)
    | Crash(id: NodeID)
    | Restart(id: NodeID)

  predicate IsUp(c: Cluster, id: NodeID) {
    id in c.processes && c.processes[id].Up?
  }

  predicate Enabled(c: Cluster, action: Action) {
    match action
    case Deliver(m) => m in c.network && IsUp(c, m.to)
    case Ask(id, input) => IsUp(c, id) && !input.Receive? && !input.Persisted?
    case WriteDone(id) => IsUp(c, id) && c.processes[id].stage.Writing?
    case AckDone(id) => IsUp(c, id) && c.processes[id].stage.Stored?
    case ArmCrash(id) => IsUp(c, id)
    case Crash(id) => IsUp(c, id)
    case Restart(id) => id in c.processes && c.processes[id].Down?
  }

  /** The process an action is about. */
  function Actor(action: Action): NodeID {
    match action
    case Deliver(m) => m.to
    case Ask(id, _) => id
    case WriteDone(id) => id
    case AckDone(id) => id
    case ArmCrash(id) => id
    case Crash(id) => id
    case Restart(id) => id
  }

  function TurnOf(u: Setup, c: Cluster, action: Action): Turn
    requires Enabled(c, action)
  {
    var p := c.processes[Actor(action)];
    match action
    case Deliver(m) => Submit(u, p, Receive(m))
    case Ask(_, input) => Submit(u, p, input)
    case WriteDone(_) => Turn(CompleteWrite(p), [], None)
    case AckDone(_) => Acknowledge(u, p)
    case ArmCrash(_) => Turn(p.(crashAfterPersist := true), [], None)
    case Crash(_) => Turn(Down(p.store), [], None)
    case Restart(id) => Boot(u, id, p.store)
  }

  function After(u: Setup, c: Cluster, action: Action): Cluster
    requires Enabled(c, action)
  {
    var t := TurnOf(u, c, action);
    Cluster(c.processes[Actor(action) := t.process],
            c.network + (set m | m in t.sent),
            if c.fault.Some? then c.fault else t.fault)
  }

  /** Every node of the universe, down with an empty store. */
  function Provisioned(u: Setup): Cluster {
    Cluster(map id | id in u.members :: Down(EMPTY_STORE), {}, None)
  }

  ghost predicate Next(u: Setup, c: Cluster, c': Cluster) {
    exists action :: Enabled(c, action) && c' == After(u, c, action)
  }

  ghost predicate NextAt(u: Setup, run: seq<Cluster>, i: nat)
    requires 0 < i < |run|
  {
    Next(u, run[i - 1], run[i])
  }

  /** A run of the cluster from its provisioning, through boots, deliveries, writes and crashes. */
  ghost predicate IsRun(u: Setup, run: seq<Cluster>) {
    && |run| > 0
    && run[0] == Provisioned(u)
    && forall i {:trigger NextAt(u, run, i)} | 0 < i < |run| :: NextAt(u, run, i)
  }
}

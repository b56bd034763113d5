/**
 * Where snapshots come from: over every run, each snapshot anywhere is one that some node was told
 * to take, with just that data.
 */
module Vouching {
  import opened RaftTypes
  import opened Configuration
  import opened RaftHistory
  import opened LeaderCompleteness
  import opened RaftActions
  import opened NodeSpec
  import opened NodeRefinement
  import opened LeaderProofs
  import opened NodeProofs
  import opened Validation
  import opened ClusterSpec
  import opened ClusterInvariant
  import opened ClusterSafety
  import opened Checkpoints

  /** The indexes and data of the snapshots that nodes were told to take. */
  type Told = set<(nat, Bytes)>

  predicate Vouched(told: Told, s: Snapshot) {
    s == NO_SNAPSHOT || (s.index > 0 && (s.index, s.data) in told)
  }

  predicate VouchedMessage(told: Told, m: Message) {
    m.InstallSnapshot? ==> Vouched(told, m.snapshot)
  }

  predicate VouchedInput(told: Told, input: Input) {
    && (input.Receive? ==> VouchedMessage(told, input.message))
    && (input.TakeSnapshot? ==> (input.index, input.data) in told)
  }

  ghost predicate VouchedMail(told: Told, mailbox: seq<Input>) {
    forall i {:trigger mailbox[i]} | 0 <= i < |mailbox| :: VouchedInput(told, mailbox[i])
  }

  ghost predicate VouchedSent(told: Told, sent: seq<Message>) {
    forall i {:trigger sent[i]} | 0 <= i < |sent| :: VouchedMessage(told, sent[i])
  }

  /** Its snapshots are vouched for, and none was installed past the stored one. */
  ghost predicate VouchedProcess(told: Told, p: Process) {
    && Vouched(told, p.store.state.snapshot)
    && p.store.installed.index <= p.store.state.snapshot.index
    && (p.Up? ==>
         && Vouched(told, p.node.core.state.snapshot)
         && p.store.state.snapshot.index <= p.node.core.state.snapshot.index
         && VouchedMail(told, p.mailbox))
  }

  ghost predicate VouchedCluster(told: Told, c: Cluster) {
    && (forall id {:trigger c.processes[id]} | id in c.processes :: VouchedProcess(told, c.processes[id]))
    && (forall m {:trigger VouchedMessage(told, m)} | m in c.network :: VouchedMessage(told, m))
  }

  lemma VouchedGrows(a: Told, b: Told, c: Cluster)
    requires a <= b && VouchedCluster(a, c)
    ensures VouchedCluster(b, c)
  {
    forall id | id in c.processes
      ensures VouchedProcess(b, c.processes[id])
    {
      assert VouchedProcess(a, c.processes[id]);
    }
    forall m | m in c.network
      ensures VouchedMessage(b, m)
    {
      assert VouchedMessage(a, m);
    }
  }

  // ----- turns -----

  /** Performing effects installs and sends no snapshot but the one they carry. */
  lemma {:induction false} PerformVouched(told: Told, p: Process, effects: seq<Effect>, term: nat, s: Snapshot)
    requires p.Up? && Carries(effects, term, s) && Vouched(told, s)
    ensures Perform(p, effects).process.store.installed in {p.store.installed, s}
    ensures VouchedSent(told, Perform(p, effects).sent)
  {
    hide Vouched;
    if effects != [] {
      PerformVouched(told, p, effects[..|effects| - 1], term, s);
      assert CarriesOne(effects[|effects| - 1], term, s);
    }
  }

  lemma ReactVouched(told: Told, u: Setup, n: Core, input: Input)
    requires Boundary(n) <= n.applied && Boundary(n) <= n.state.commit
    requires Vouched(told, n.state.snapshot) && VouchedInput(told, input)
    ensures var out := React(u, n, input);
      out.Done? ==>
        && Vouched(told, out.node.state.snapshot)
        && n.state.snapshot.index <= out.node.state.snapshot.index
        && Carries(out.effects, out.node.state.term, out.node.state.snapshot)
  {
    hide React, Carries;
    ReactTraced(u, n, input);
  }

  lemma QueuedVouched(told: Told, p: Process, input: Input)
    requires p.Up? && VouchedProcess(told, p) && VouchedInput(told, input)
    ensures VouchedProcess(told, p.(mailbox := p.mailbox + [input])) && VouchedSent(told, [])
  {
    hide Vouched, VouchedInput;
  }

  lemma SubmitVouched(told: Told, u: Setup, h: History, id: NodeID, p: Process, input: Input)
    requires SetupOK(u) && HistoryOK(u, h) && p.Up? && ProcessOK(u, h, id, p) && InputOK(u, h, input)
    requires VouchedProcess(told, p) && VouchedInput(told, input)
    ensures VouchedProcess(told, Submit(u, p, input).process) && VouchedSent(told, Submit(u, p, input).sent)
  {
    hide SetupOK, HistoryOK, ProcessOK, InputOK, VouchedInput, VouchedProcess, Perform, Advance, Current;
    QueuedVouched(told, p, input);
    if p.node.pending.None? && Current(p.node.core, input) {
      StepVouched(told, u, h, id, p, input);
    }
  }

  lemma StepVouched(told: Told, u: Setup, h: History, id: NodeID, p: Process, input: Input)
    requires SetupOK(u) && HistoryOK(u, h) && p.Up? && ProcessOK(u, h, id, p) && InputOK(u, h, input)
    requires p.node.pending.None? && Current(p.node.core, input)
    requires VouchedProcess(told, p) && VouchedInput(told, input)
    ensures VouchedProcess(told, Submit(u, p, input).process) && VouchedSent(told, Submit(u, p, input).sent)
  {
    hide SetupOK, HistoryOK, ProcessOK, Good, React, Perform, Vouched, VouchedInput, VouchedMail, EffectsOK, Carries, Delivered,
      GrowsBy, MessageOK, AppliedOK;
    IdleParts(u, h, id, p);
    GoodParts(u, h, p.node.core);
    var out := React(u, p.node.core, input);
    ReactVouched(told, u, p.node.core, input);
    var h' := ReactOK(u, h, p.node.core, input);
    if out.Failed? {
      assert Submit(u, p, input) == Turn(p.(node := p.node.(core := out.node)), [], Some(StepFailed(out.error)));
    } else if out.dirty {
      DirtyOK(u, h, id, p, input);
      DirtyTurn(u, p, input);
    } else {
      var p1 := p.(node := p.node.(core := out.node));
      assert Submit(u, p, input) == Perform(p1, out.effects);
      PerformVouched(told, p1, out.effects, out.node.state.term, out.node.state.snapshot);
      PerformKeeps(p1, out.effects);
    }
  }

  lemma {:induction false} PerformKeeps(p: Process, effects: seq<Effect>)
    requires p.Up?
    ensures var t := Perform(p, effects);
      t.process.node == p.node && t.process.mailbox == p.mailbox && t.process.store.state == p.store.state
  {
    if effects != [] {
      PerformKeeps(p, effects[..|effects| - 1]);
    }
  }

  /** An input that needs a write starts it, and does nothing else. */
  lemma DirtyTurn(u: Setup, p: Process, input: Input)
    requires p.Up? && p.stage.Idle? && p.node.pending.None? && Current(p.node.core, input) && !input.Persisted?
    requires Boundary(p.node.core) <= p.node.core.applied
    requires React(u, p.node.core, input).Done? && React(u, p.node.core, input).dirty
    ensures var out := React(u, p.node.core, input);
      var persist := Persist(p.node.nextToken, out.node.state);
      var node := Node(out.node, p.node.nextToken + 1, Some(PendingWrite(p.node.nextToken, out.effects)));
      && Advance(u, p.node, input) == Stepped(node, [persist])
      && Submit(u, p, input) == Turn(p.(node := node, stage := Writing(persist.token, out.node.state)), [], None)
  {
    hide React;
    var out := React(u, p.node.core, input);
    var persist := Persist(p.node.nextToken, out.node.state);
    var node := Node(out.node, p.node.nextToken + 1, Some(PendingWrite(p.node.nextToken, out.effects)));
    assert Advance(u, p.node, input) == Stepped(node, [persist]);
    var p1 := p.(node := node);
    assert [persist][..0] == [];
    assert Perform(p1, []) == Turn(p1, [], None);
    assert Perform(p1, [persist]) == Turn(p1.(stage := Writing(persist.token, out.node.state)), [] + [], None);
  }

  lemma PopVouched(told: Told, p: Process)
    requires p.Up? && p.mailbox != [] && VouchedProcess(told, p)
    ensures VouchedProcess(told, p.(mailbox := p.mailbox[1..])) && VouchedInput(told, p.mailbox[0])
  {
    hide Vouched, VouchedInput;
  }

  lemma VouchedConcat(told: Told, a: seq<Message>, b: seq<Message>)
    requires VouchedSent(told, a) && VouchedSent(told, b)
    ensures VouchedSent(told, a + b)
  {
    hide VouchedMessage;
  }

  lemma {:induction false} DrainVouched(told: Told, u: Setup, h: History, id: NodeID, p: Process)
    requires SetupOK(u) && HistoryOK(u, h) && p.Up? && ProcessOK(u, h, id, p) && VouchedProcess(told, p)
    ensures VouchedProcess(told, Drain(u, p).process) && VouchedSent(told, Drain(u, p).sent)
    decreases if p.Up? then |p.mailbox| else 0
  {
    hide SetupOK, HistoryOK, ProcessOK, InputOK, Submit, GrowsBy, SentOK, SentIn, VouchedProcess, VouchedInput, VouchedMessage;
    if p.node.pending.None? && p.mailbox != [] {
      PopMail(u, h, id, p);
      PopVouched(told, p);
      var p1 := p.(mailbox := p.mailbox[1..]);
      var h1 := SubmitOK(u, h, id, p1, p.mailbox[0]);
      SubmitVouched(told, u, h, id, p1, p.mailbox[0]);
      var t := Submit(u, p1, p.mailbox[0]);
      if t.fault.None? {
        DrainVouched(told, u, h1, id, t.process);
        VouchedConcat(told, t.sent, Drain(u, t.process).sent);
      }
    }
  }

  lemma AcknowledgeVouched(told: Told, u: Setup, h: History, id: NodeID, p: Process)
    requires SetupOK(u) && HistoryOK(u, h) && p.Up? && ProcessOK(u, h, id, p) && p.stage.Stored? && VouchedProcess(told, p)
    ensures VouchedProcess(told, Acknowledge(u, p).process) && VouchedSent(told, Acknowledge(u, p).sent)
  {
    hide SetupOK, HistoryOK, Good, EffectsOK, AppliedOK, MailOK, MessageOK, Delivered, Drain, React, Perform, Vouched, VouchedMail,
      VouchedMessage, Carries;
    var core, effects := p.node.core, p.node.pending.value.effects;
    GoodParts(u, h, core);
    assert Advance(u, p.node, Persisted(p.stage.token)) == Stepped(p.node.(pending := None), effects);
    var p1 := p.(node := p.node.(pending := None), stage := Idle);
    PerformOK(u, h, p1, id, effects, core.applied);
    PerformVouched(told, p1, effects, core.state.term, core.state.snapshot);
    var t := Perform(p1, effects);
    IdleWhole(u, h, id, t.process);
    DrainVouched(told, u, h, id, t.process);
    VouchedConcat(told, t.sent, Drain(u, t.process).sent);
  }

  lemma BootVouched(told: Told, u: Setup, id: NodeID, s: Store)
    requires VouchedProcess(told, Down(s))
    ensures VouchedProcess(told, Boot(u, id, s).process) && VouchedSent(told, Boot(u, id, s).sent)
  {
    hide Start, ValidEntry, ValidSnapshot, Perform, Carries, Vouched, VouchedMessage;
    if ValidState(u, s.state, s.applied) {
      StartKeeps(Fresh(u, id, s.state, s.applied));
      var (core, effects) := Start(Fresh(u, id, s.state, s.applied));
      var p := Up(Node(core, 1, None), Idle, [], false, s);
      PerformVouched(told, p, effects, s.state.term, s.state.snapshot);
      PerformKeeps(p, effects);
    }
  }

  lemma StartKeeps(n: Core)
    requires n.state.commit <= LastIndex(n)
    ensures Start(n).0.state == n.state && Carries(Start(n).1, n.state.term, n.state.snapshot)
  {
    hide Carries;
    StartCarries(n);
  }

  /** What the caller tells a node in this action. */
  function ToldIn(action: Action): Told {
    if action.Ask? && action.input.TakeSnapshot? then {(action.input.index, action.input.data)} else {}
  }

  lemma TurnVouched(told: Told, u: Setup, h: History, c: Cluster, action: Action)
    requires SetupOK(u) && ClusterOK(u, h, c) && Enabled(c, action) && VouchedCluster(told, c) && ToldIn(action) <= told
    ensures VouchedProcess(told, TurnOf(u, c, action).process) && VouchedSent(told, TurnOf(u, c, action).sent)
  {
    hide HistoryOK, SetupOK, ProcessOK, MessageOK, Submit, CompleteWrite, Acknowledge, Boot, VouchedProcess, VouchedMessage;
    var id := Actor(action);
    var p := c.processes[id];
    ProcessIsOK(u, h, c, id);
    assert VouchedProcess(told, p);
    match action
    case Deliver(m) =>
      assert MessageOK(u, h, m) && VouchedMessage(told, m);
      SubmitVouched(told, u, h, id, p, Receive(m));
    case Ask(_, input) =>
      assert input.TakeSnapshot? ==> (input.index, input.data) in ToldIn(action);
      SubmitVouched(told, u, h, id, p, input);
    case WriteDone(_) => WriteVouched(told, u, h, id, p);
    case AckDone(_) => AcknowledgeVouched(told, u, h, id, p);
    case ArmCrash(_) => StillVouched(told, p);
    case Crash(_) => StillVouched(told, p);
    case Restart(_) =>
      StillVouched(told, p);
      BootVouched(told, u, id, p.store);
  }

  lemma StillVouched(told: Told, p: Process)
    requires VouchedProcess(told, p)
    ensures VouchedProcess(told, Down(p.store)) && VouchedSent(told, [])
    ensures p.Up? ==> VouchedProcess(told, p.(crashAfterPersist := true))
  {
    hide Vouched, VouchedMail;
  }

  lemma WriteVouched(told: Told, u: Setup, h: History, id: NodeID, p: Process)
    requires p.Up? && ProcessOK(u, h, id, p) && p.stage.Writing? && VouchedProcess(told, p)
    ensures VouchedProcess(told, CompleteWrite(p)) && VouchedSent(told, [])
  {
    hide ProcessOK, Vouched, VouchedMail, Underway;
    var before, input := WritingParts(u, h, id, p);
  }

  lemma AfterVouched(told: Told, u: Setup, h: History, c: Cluster, action: Action)
    requires SetupOK(u) && ClusterOK(u, h, c) && Enabled(c, action) && VouchedCluster(told, c) && ToldIn(action) <= told
    ensures VouchedCluster(told, After(u, c, action))
  {
    hide ClusterOK, SetupOK, TurnOf, VouchedProcess, VouchedMessage;
    TurnVouched(told, u, h, c, action);
    var sent := TurnOf(u, c, action).sent;
    forall m | m in After(u, c, action).network
      ensures VouchedMessage(told, m)
    {
      if m !in c.network {
        var i :| 0 <= i < |sent| && sent[i] == m;
      }
    }
  }

  // ----- runs -----

  /** A run together with its actions. */
  ghost predicate Performs(u: Setup, run: seq<Cluster>, actions: seq<Action>) {
    && |run| == |actions| + 1
    && run[0] == Provisioned(u)
    && forall i {:trigger actions[i]} | 0 <= i < |actions| :: Enabled(run[i], actions[i]) && run[i + 1] == After(u, run[i], actions[i])
  }

  function ToldBy(actions: seq<Action>): Told {
    if actions == [] then {} else ToldBy(actions[..|actions| - 1]) + ToldIn(actions[|actions| - 1])
  }

  lemma PerformedIsRun(u: Setup, run: seq<Cluster>, actions: seq<Action>)
    requires Performs(u, run, actions)
    ensures IsRun(u, run)
  {
    hide Enabled, After;
    forall i | 0 < i < |run|
      ensures NextAt(u, run, i)
    {
      assert Enabled(run[i - 1], actions[i - 1]) && run[i] == After(u, run[i - 1], actions[i - 1]);
    }
  }

  lemma {:induction false} ToldEarlier(actions: seq<Action>, i: nat)
    requires i <= |actions|
    ensures ToldBy(actions[..i]) <= ToldBy(actions)
    decreases |actions|
  {
    if i < |actions| {
      assert actions[..|actions| - 1][..i] == actions[..i];
      ToldEarlier(actions[..|actions| - 1], i);
    } else {
      assert actions[..i] == actions;
    }
  }

  lemma BeginningVouched(told: Told, u: Setup)
    ensures VouchedCluster(told, Provisioned(u))
  {
  }

  /** EVERY SNAPSHOT WAS TOLD: at every moment each holds the data that some node was told to take it with. */
  lemma {:induction false} RunVouched(u: Setup, run: seq<Cluster>, actions: seq<Action>, i: nat)
    requires SetupOK(u) && Performs(u, run, actions) && i < |run|
    ensures VouchedCluster(ToldBy(actions), run[i])
  {
    hide SetupOK, Enabled, After, VouchedCluster, ClusterOK, Provisioned, ToldBy, ToldIn;
    if i == 0 {
      BeginningVouched(ToldBy(actions), u);
    } else {
      RunVouched(u, run, actions, i - 1);
      PerformedIsRun(u, run, actions);
      var hs := RunOK(u, run);
      assert ClusterOK(u, hs[i - 1], run[i - 1]);
      assert Enabled(run[i - 1], actions[i - 1]);
      ToldAt(actions, i - 1);
      AfterVouched(ToldBy(actions), u, hs[i - 1], run[i - 1], actions[i - 1]);
    }
  }

  lemma ToldAt(actions: seq<Action>, i: nat)
    requires i < |actions|
    ensures ToldIn(actions[i]) <= ToldBy(actions)
  {
    ToldEarlier(actions, i + 1);
    assert actions[..i + 1][i] == actions[i];
  }
}

/**
 * Every application is the committed log run from the beginning: live ones, checkpoints and the
 * ones rebuilt after a crash, over every run; and exactly which stores can be rebuilt from.
 */
module ApplicationSafety {
  import opened RaftTypes
  import opened Configuration
  import opened RaftHistory
  import opened LeaderCompleteness
  import opened RaftActions
  import opened NodeSpec
  import opened NodeRefinement
  import opened LeaderProofs
  import opened NodeProofs
  import opened Validation
  import opened ClusterSpec
  import opened ClusterInvariant
  import opened ClusterSafety
  import opened Checkpoints
  import opened Vouching
  import opened Application

  // ----- honest checkpoints -----

  /** The data is the checkpoint of the machine that the first `index` entries of the log lead to. */
  ghost predicate HonestData<M>(app: App<M>, log: Log, index: nat, data: Bytes) {
    && index <= |log|
    && MachineAfter(app, log[..index]).Some?
    && app.save(MachineAfter(app, log[..index]).value) == Some(data)
  }

  ghost predicate Honest<M>(app: App<M>, log: Log, s: Snapshot) {
    s == NO_SNAPSHOT || (s.index > 0 && HonestData(app, log, s.index, s.data))
  }

  /** Every snapshot that was told is an honest checkpoint. */
  ghost predicate AllHonest<M>(app: App<M>, log: Log, told: Told) {
    forall t {:trigger t in told} | t in told :: HonestData(app, log, t.0, t.1)
  }

  lemma HonestDataGrows<M>(app: App<M>, a: Log, b: Log, index: nat, data: Bytes)
    requires a <= b && HonestData(app, a, index, data)
    ensures HonestData(app, b, index, data)
  {
    assert a[..index] == b[..index];
  }

  lemma HonestGrows<M>(app: App<M>, a: Log, b: Log, s: Snapshot)
    requires a <= b && Honest(app, a, s)
    ensures Honest(app, b, s)
  {
    if s != NO_SNAPSHOT { HonestDataGrows(app, a, b, s.index, s.data); }
  }

  lemma AllHonestGrows<M>(app: App<M>, a: Log, b: Log, told: Told)
    requires a <= b && AllHonest(app, a, told)
    ensures AllHonest(app, b, told)
  {
    forall t | t in told
      ensures HonestData(app, b, t.0, t.1)
    {
      HonestDataGrows(app, a, b, t.0, t.1);
    }
  }

  lemma VouchedIsHonest<M>(app: App<M>, log: Log, told: Told, s: Snapshot)
    requires AllHonest(app, log, told) && Vouched(told, s)
    ensures Honest(app, log, s)
  {
    if s != NO_SNAPSHOT {
      assert (s.index, s.data) in told;
    }
  }

  // ----- the machine of a log -----

  lemma MachineStep<M>(app: App<M>, log: Log, k: nat)
    requires k < |log|
    ensures MachineAfter(app, log[..k + 1]) ==
            match MachineAfter(app, log[..k]) case None => None case Some(m) => ApplyEntry(app, m, log[k])
  {
    assert log[..k + 1][..k] == log[..k];
  }

  /** A machine that refused a command never recovers. */
  lemma {:induction false} MachineStaysNone<M>(app: App<M>, log: Log, i: nat, j: nat)
    requires i <= j <= |log| && MachineAfter(app, log[..i]).None?
    ensures MachineAfter(app, log[..j]).None?
  {
    if i < j {
      MachineStaysNone(app, log, i, j - 1);
      MachineStep(app, log, j - 1);
    }
  }

  // ----- processes -----

  /** A running process's application is the log up to its applied index. */
  ghost predicate LiveOK<M>(app: App<M>, log: Log, p: Process, m: Option<M>)
    requires p.Up?
  {
    p.store.applied <= |log| && m == MachineAfter(app, log[..p.store.applied])
  }

  lemma LiveGrows<M>(app: App<M>, a: Log, b: Log, p: Process, m: Option<M>)
    requires p.Up? && a <= b && LiveOK(app, a, p, m)
    ensures LiveOK(app, b, p, m)
  {
    assert a[..p.store.applied] == b[..p.store.applied];
  }

  // ----- performing effects -----

  /** One effect moves the application along the log. */
  lemma PerformOneApplies<M>(app: App<M>, u: Setup, h: History, id: NodeID, effect: Effect, k: nat, a: nat, m: Option<M>, term: nat, s: Snapshot)
    requires Faithful(app) && EffectOK(u, h, id, effect) && k <= |h.committed|
    requires CarriesOne(effect, term, s) && Honest(app, h.committed, s)
    requires effect.Apply? ==> effect.entry.index == k + 1 == a
    requires effect.RestoreSnapshot? ==> k <= effect.snapshot.index == a
    requires !effect.Apply? && !effect.RestoreSnapshot? ==> a == k
    requires m == MachineAfter(app, h.committed[..k])
    ensures a <= |h.committed|
    ensures MachineAfter(app, h.committed[..a]) ==
      match m
      case None => None
      case Some(m1) =>
        match effect
        case Apply(entry) => ApplyEntry(app, m1, entry)
        case RestoreSnapshot(snapshot) =>
          (match app.restore(snapshot.data)
           case None => None
           case Some(m2) => if snapshot.index == k && !app.agree(m2, m1) then None else Some(m2))
        case _ => m
  {
    hide MachineAfter, MessageOK, Config;
    match effect
    case Apply(entry) => MachineStep(app, h.committed, k);
    case RestoreSnapshot(snapshot) =>
      assert HonestData(app, h.committed, s.index, s.data);
      var m2 := MachineAfter(app, h.committed[..s.index]);
      if m.None? { MachineStaysNone(app, h.committed, k, s.index); }
    case _ =>
  }

  /** The effects of a step move the application as far along the log as they move the store. */
  lemma {:induction false} PerformApplies<M>(app: App<M>, u: Setup, h: History, id: NodeID, p: Process, m: Option<M>,
                                             effects: seq<Effect>, a: nat, term: nat, s: Snapshot)
    requires Faithful(app) && p.Up? && AppliedOK(h, p.store) && EffectsOK(u, h, id, effects)
    requires Delivered(effects, p.store.applied) == Some(a)
    requires Carries(effects, term, s) && Honest(app, h.committed, s)
    requires m == MachineAfter(app, h.committed[..p.store.applied])
    ensures a <= |h.committed| && PerformApp(app, p, m, effects) == MachineAfter(app, h.committed[..a])
  {
    hide EffectOK, AppliedOK, MachineAfter, Faithful, CarriesOne, Honest;
    if effects == [] {
      AppliedFits(h, p.store);
    } else {
      var front, last := effects[..|effects| - 1], effects[|effects| - 1];
      assert effects == front + [last];
      DeliveredConcat(front, [last], p.store.applied);
      assert [last][..0] == [];
      forall i | 0 <= i < |front|
        ensures EffectOK(u, h, id, front[i]) && CarriesOne(front[i], term, s)
      {
        assert front[i] == effects[i];
      }
      var k := Delivered(front, p.store.applied).value;
      PerformApplies(app, u, h, id, p, m, front, k, term, s);
      PerformOK(u, h, p, id, front, k);
      PerformOneApplies(app, u, h, id, last, k, a, PerformApp(app, p, m, front), term, s);
    }
  }

  lemma AppliedFits(h: History, s: Store)
    requires AppliedOK(h, s)
    ensures s.applied <= |h.committed|
  {
  }

  // ----- inputs -----

  /** Submitting an input keeps the application on the log. */
  lemma SubmitApplies<M>(app: App<M>, told: Told, u: Setup, h: History, id: NodeID, p: Process, m: Option<M>, input: Input)
    returns (h': History)
    requires Faithful(app) && SetupOK(u) && HistoryOK(u, h) && p.Up? && ProcessOK(u, h, id, p) && InputOK(u, h, input)
    requires AllHonest(app, h.committed, told) && VouchedProcess(told, p) && VouchedInput(told, input)
    requires LiveOK(app, h.committed, p, m)
    ensures TurnOK(u, h, h', id, p, Submit(u, p, input))
    ensures LiveOK(app, h'.committed, Submit(u, p, input).process, SubmitApp(app, u, p, m, input))
  {
    hide SetupOK, HistoryOK, ProcessOK, InputOK, VouchedProcess, VouchedInput, MachineAfter, Faithful, Perform, PerformApp, Advance,
      Current, GrowsBy, AllHonest;
    if p.node.pending.Some? || !Current(p.node.core, input) {
      h' := SubmitOK(u, h, id, p, input);
      GrowsByIsGrowth(h, h', id);
      GrowsCommitted(h, h');
      LiveGrows(app, h.committed, h'.committed, p, m);
    } else {
      h' := StepApplies(app, told, u, h, id, p, m, input);
    }
  }

  lemma StepApplies<M>(app: App<M>, told: Told, u: Setup, h: History, id: NodeID, p: Process, m: Option<M>, input: Input)
    returns (h': History)
    requires Faithful(app) && SetupOK(u) && HistoryOK(u, h) && p.Up? && ProcessOK(u, h, id, p) && InputOK(u, h, input)
    requires p.node.pending.None? && Current(p.node.core, input)
    requires AllHonest(app, h.committed, told) && VouchedProcess(told, p) && VouchedInput(told, input)
    requires LiveOK(app, h.committed, p, m)
    ensures TurnOK(u, h, h', id, p, Submit(u, p, input))
    ensures LiveOK(app, h'.committed, Submit(u, p, input).process, SubmitApp(app, u, p, m, input))
  {
    hide SetupOK, HistoryOK, Good, React, GrowsBy, Perform, PerformApp, ProcessOK, EffectsOK, AppliedOK, MailOK, MessageOK,
      SentOK, SentIn, Delivered, LiveOK, VouchedInput, VouchedMail, Vouched, MachineAfter, Faithful, AllHonest, Carries;
    IdleParts(u, h, id, p);
    var core := p.node.core;
    GoodParts(u, h, core);
    var out := React(u, core, input);
    ReactVouched(told, u, core, input);
    h' := ReactOK(u, h, core, input);
    if out.Done? && out.dirty {
      h' := h;
      NoGrowth(h, id);
      DirtyOK(u, h, id, p, input);
      NothingSent(u, h, id, p.store.state.term);
      DirtyApplies(app, u, h, p, m, input);
    } else {
      if out.Failed? {
        ReactErrors(u, core, input);
      }
      CleanOK(u, h, h', id, p, out);
      GrowsByIsGrowth(h, h', id);
      CleanApplies(app, told, u, h, h', id, p, m, input, out);
    }
  }

  /** An input that needs a write waits for it, with its application as before. */
  lemma DirtyApplies<M>(app: App<M>, u: Setup, h: History, p: Process, m: Option<M>, input: Input)
    requires p.Up? && p.stage.Idle? && p.node.pending.None? && Current(p.node.core, input) && !input.Persisted?
    requires Boundary(p.node.core) <= p.node.core.applied
    requires React(u, p.node.core, input).Done? && React(u, p.node.core, input).dirty
    requires LiveOK(app, h.committed, p, m)
    ensures LiveOK(app, h.committed, Submit(u, p, input).process, SubmitApp(app, u, p, m, input))
  {
    hide React, MachineAfter;
    DirtyTurn(u, p, input);
    var r := Advance(u, p.node, input);
    assert r.effects[..0] == [];
    assert PerformApp(app, p.(node := r.node), m, []) == m;
  }

  /** An input that needs no write moves the application at once. */
  lemma CleanApplies<M>(app: App<M>, told: Told, u: Setup, h: History, h': History, id: NodeID, p: Process, m: Option<M>, input: Input,
                        out: Outcome)
    requires Faithful(app) && p.Up? && AppliedOK(h, p.store) && p.node.core.id == id && !input.Persisted?
    requires p.node.pending.None? && Current(p.node.core, input) && Boundary(p.node.core) <= p.node.core.applied
    requires p.node.core.applied == p.store.applied
    requires out == React(u, p.node.core, input) && (out.Done? ==> !out.dirty)
    requires OutcomeOK(u, h, h', p.node.core, out) && Grows(h, h')
    requires out.Done? ==> Vouched(told, out.node.state.snapshot)
                           && Carries(out.effects, out.node.state.term, out.node.state.snapshot)
    requires AllHonest(app, h.committed, told) && LiveOK(app, h.committed, p, m)
    ensures LiveOK(app, h'.committed, Submit(u, p, input).process, SubmitApp(app, u, p, m, input))
  {
    hide HistoryOK, Good, React, GrowsBy, Perform, PerformApp, EffectsOK, AppliedOK, Delivered, Honest, AllHonest, MachineAfter,
      Faithful, Carries, Vouched;
    GrowsCommitted(h, h');
    LiveGrows(app, h.committed, h'.committed, p, m);
    AllHonestGrows(app, h.committed, h'.committed, told);
    AppliedGrows(h, h', p.store);
    var p1 := p.(node := p.node.(core := out.node));
    if out.Done? {
      var s := out.node.state;
      VouchedIsHonest(app, h'.committed, told, s.snapshot);
      PerformApplies(app, u, h', id, p1, m, out.effects, out.node.applied, s.term, s.snapshot);
      PerformOK(u, h', p1, id, out.effects, out.node.applied);
      assert Submit(u, p, input) == Perform(p1, out.effects);
      assert SubmitApp(app, u, p, m, input) == PerformApp(app, p1, m, out.effects);
    } else {
      assert Submit(u, p, input) == Turn(p1, [], Some(StepFailed(out.error)));
      assert SubmitApp(app, u, p, m, input) == m;
    }
  }

  lemma GrowsCommitted(a: History, b: History)
    requires Grows(a, b)
    ensures a.committed <= b.committed
  {
  }

  // ----- the mailbox and acknowledgements -----

  /** A machine that broke earlier in a turn is the one that the log leads to at the end of it. */
  lemma StaysBroken<M>(app: App<M>, a: Log, b: Log, i: nat, j: nat)
    requires a <= b && i <= |a| && i <= j <= |b| && MachineAfter(app, a[..i]).None?
    ensures MachineAfter(app, b[..j]).None?
  {
    assert a[..i] == b[..i];
    MachineStaysNone(app, b, i, j);
  }

  lemma {:induction false} DrainApplies<M>(app: App<M>, told: Told, u: Setup, h: History, id: NodeID, p: Process, m: Option<M>)
    returns (h': History)
    requires Faithful(app) && SetupOK(u) && HistoryOK(u, h) && p.Up? && ProcessOK(u, h, id, p)
    requires AllHonest(app, h.committed, told) && VouchedProcess(told, p) && LiveOK(app, h.committed, p, m)
    ensures TurnOK(u, h, h', id, p, Drain(u, p))
    ensures LiveOK(app, h'.committed, Drain(u, p).process, DrainApp(app, u, p, m))
    decreases if p.Up? then |p.mailbox| else 0
  {
    hide SetupOK, HistoryOK, ProcessOK, SentOK, SentIn, Submit, SubmitApp, GrowsBy, InputOK, VouchedProcess, VouchedInput,
      MachineAfter, Faithful, AllHonest;
    if p.node.pending.Some? || p.mailbox == [] {
      h' := h;
      NoGrowth(h, id);
      NothingSent(u, h, id, p.store.state.term);
    } else {
      PopMail(u, h, id, p);
      PopVouched(told, p);
      var p1 := p.(mailbox := p.mailbox[1..]);
      var m1 := SubmitApp(app, u, p1, m, p.mailbox[0]);
      h' := SubmitApplies(app, told, u, h, id, p1, m, p.mailbox[0]);
      SubmitVouched(told, u, h, id, p1, p.mailbox[0]);
      var t := Submit(u, p1, p.mailbox[0]);
      if t.fault.None? {
        var h1 := h';
        GrowsByIsGrowth(h, h1, id);
        GrowsCommitted(h, h1);
        AllHonestGrows(app, h.committed, h1.committed, told);
        h' := DrainApplies(app, told, u, h1, id, t.process, m1);
        DrainKeepsState(u, t.process);
        TurnsCompose(u, h, h1, h', id, p, t, Drain(u, t.process));
        if m1.None? {
          GrowsByIsGrowth(h1, h', id);
          GrowsCommitted(h1, h');
          StaysBroken(app, h1.committed, h'.committed, t.process.store.applied, Drain(u, t.process).process.store.applied);
        }
      }
    }
  }

  lemma AcknowledgeApplies<M>(app: App<M>, told: Told, u: Setup, h: History, id: NodeID, p: Process, m: Option<M>) returns (h': History)
    requires Faithful(app) && SetupOK(u) && HistoryOK(u, h) && p.Up? && ProcessOK(u, h, id, p) && p.stage.Stored?
    requires AllHonest(app, h.committed, told) && VouchedProcess(told, p) && LiveOK(app, h.committed, p, m)
    ensures TurnOK(u, h, h', id, p, Acknowledge(u, p)) && Acknowledge(u, p).process.Up?
    ensures LiveOK(app, h'.committed, Acknowledge(u, p).process, AcknowledgeApp(app, u, p, m))
  {
    hide SetupOK, HistoryOK, Good, GrowsBy, EffectsOK, AppliedOK, MailOK, MessageOK, SentOK, SentIn, Delivered, Drain, DrainApp, React,
      Perform, PerformApp, Honest, AllHonest, Vouched, VouchedMail, VouchedSent, MachineAfter, Carries, Faithful;
    var core, effects := p.node.core, p.node.pending.value.effects;
    GoodParts(u, h, core);
    assert Advance(u, p.node, Persisted(p.stage.token)) == Stepped(p.node.(pending := None), effects);
    var p1 := p.(node := p.node.(pending := None), stage := Idle);
    PerformOK(u, h, p1, id, effects, core.applied);
    PerformSends(u, h, id, p1, effects, core.state.term, core.state.snapshot);
    VouchedIsHonest(app, h.committed, told, core.state.snapshot);
    PerformApplies(app, u, h, id, p1, m, effects, core.applied, core.state.term, core.state.snapshot);
    PerformVouched(told, p1, effects, core.state.term, core.state.snapshot);
    DeliveredMonotone(effects, p.store.applied);
    var t := Perform(p1, effects);
    IdleWhole(u, h, id, t.process);
    var m1 := PerformApp(app, p1, m, effects);
    h' := DrainApplies(app, told, u, h, id, t.process, m1);
    DrainKeepsState(u, t.process);
    NoGrowth(h, id);
    TurnsCompose(u, h, h, h', id, p, t, Drain(u, t.process));
    if m1.None? {
      GrowsByIsGrowth(h, h', id);
      GrowsCommitted(h, h');
      StaysBroken(app, h.committed, h'.committed, t.process.store.applied, Drain(u, t.process).process.store.applied);
    }
  }

  // ----- recovery -----

  /** Replaying a store's entries past a boundary they reach down to follows the log. */
  lemma {:induction false} ReplayFollows<M>(app: App<M>, h: History, s: Store, b: nat, m: M, k: nat)
    requires AppliedOK(h, s) && s.installed.index <= b <= s.applied && k <= |s.entries|
    requires s.applied <= MAX_UINT64
    requires MachineAfter(app, h.committed[..b]) == Some(m)
    ensures var e := Max(b, s.installed.index + k);
      e <= s.applied &&
      ReplayFrom(app, m, b, s.applied, s.entries[..k]) ==
        match MachineAfter(app, h.committed[..e]) case None => NoReplay case Some(m1) => Reached(m1, e)
  {
    hide MachineAfter;
    if k > 0 {
      ReplayFollows(app, h, s, b, m, k - 1);
      assert s.entries[..k][..k - 1] == s.entries[..k - 1];
      var x := s.installed.index + k;
      assert s.entries[k - 1] == h.committed[x - 1] && s.entries[k - 1].index == x;
      if x > b {
        MachineStep(app, h.committed, x - 1);
      }
    } else {
      assert s.entries[..0] == [];
    }
  }

  /** Entries that start past the first index cannot be replayed from the beginning. */
  lemma ReplayNeedsAll<M>(app: App<M>, h: History, s: Store)
    requires AppliedOK(h, s) && 0 < s.installed.index
    ensures match ReplayFrom(app, app.initial, 0, s.applied, s.entries)
            case NoReplay => true
            case Reached(_, last) => last != s.applied
  {
    if s.entries != [] {
      assert s.entries[..1][..0] == [];
      assert s.entries[..1][0].index == s.installed.index + 1;
      NoReplayStays(app, app.initial, 0, s.applied, s.entries, 1);
    }
  }

  /**
   * RECOVERY, exactly: an application can be rebuilt from a store if and only if the store's
   * snapshot is not ahead of what was applied, or none was ever installed; and then it is the one
   * that the whole log up to the applied index leads to.
   */
  lemma RecoverIsMachine<M>(app: App<M>, h: History, s: Store)
    requires Faithful(app) && AppliedOK(h, s) && Honest(app, h.committed, s.state.snapshot) && s.installed.index <= s.state.snapshot.index
    requires s.applied <= MAX_UINT64
    ensures Recover(app, s) ==
      if s.state.snapshot.index <= s.applied || s.installed.index == 0 then MachineAfter(app, h.committed[..s.applied]) else None
  {
    hide ReplayFrom;
    var b := if SnapshotUsable(s) then s.state.snapshot.index else 0;
    assert h.committed[..0] == [];
    assert s.entries[..|s.entries|] == s.entries;
    if SnapshotUsable(s) {
      assert HonestData(app, h.committed, b, s.state.snapshot.data);
      ReplayFollows(app, h, s, b, MachineAfter(app, h.committed[..b]).value, |s.entries|);
    } else if s.installed.index == 0 {
      ReplayFollows(app, h, s, 0, app.initial, |s.entries|);
    } else {
      ReplayNeedsAll(app, h, s);
    }
  }

  lemma StoreFits(u: Setup, h: History, id: NodeID, s: Store)
    requires SetupOK(u) && HistoryOK(u, h) && StoreOK(u, h, id, s)
    ensures s.applied <= MAX_UINT64 && AppliedOK(h, s) && s.state.commit <= s.state.LastIndex()
  {
    hide HistoryOK, SetupOK, Good, AppliedOK;
    var n := Recovered(u, id, s.state);
    GoodLog(u, h, n);
    LogFits(u, h, n);
  }

  /** Booting from a store that can be recovered from leads the application along the log; from another it fails. */
  lemma BootApplies<M>(app: App<M>, told: Told, u: Setup, h: History, id: NodeID, s: Store)
    requires Faithful(app) && SetupOK(u) && HistoryOK(u, h) && StoreOK(u, h, id, s)
    requires AllHonest(app, h.committed, told) && VouchedProcess(told, Down(s))
    ensures TurnOK(u, h, h, id, Down(s), Boot(u, id, s)) && Boot(u, id, s).process.Up?
    ensures Recover(app, s).None? ==> BootApp(app, u, id, s).None?
    ensures Recover(app, s).Some? ==> LiveOK(app, h.committed, Boot(u, id, s).process, BootApp(app, u, id, s))
    ensures Boot(u, id, s).process.store.applied <= |h.committed|
  {
    hide HistoryOK, SetupOK, EffectsOK, Delivered, Good, AppliedOK, Start, ValidEntry, ValidSnapshot, Perform, PerformApp, GrowsBy,
      Recover, Honest, AllHonest, Vouched, MachineAfter, Carries, SentOK, SentIn, Faithful;
    BootOK(u, h, id, s);
    StoreFits(u, h, id, s);
    VouchedIsHonest(app, h.committed, told, s.state.snapshot);
    RecoverIsMachine(app, h, s);
    StoredIsValid(u, h, id, s);
    StartOK(u, h, id, s);
    StartKeeps(Fresh(u, id, s.state, s.applied));
    var (core, effects) := Start(Fresh(u, id, s.state, s.applied));
    var p := Up(Node(core, 1, None), ClusterSpec.Idle, [], false, s);
    PerformOK(u, h, p, id, effects, core.applied);
    AppliedFits(h, Perform(p, effects).process.store);
    if Recover(app, s).Some? {
      PerformApplies(app, u, h, id, p, Recover(app, s), effects, core.applied, s.state.term, s.state.snapshot);
    }
  }

  lemma StoredIsValid(u: Setup, h: History, id: NodeID, s: Store)
    requires SetupOK(u) && HistoryOK(u, h) && StoreOK(u, h, id, s)
    ensures ValidState(u, s.state, s.applied)
  {
    hide HistoryOK, SetupOK, Good, AppliedOK, ValidState;
    StoredStateValid(u, h, Recovered(u, id, s.state), s.applied);
  }

  // ----- worlds -----

  ghost predicate ProcessLive<M>(app: App<M>, log: Log, p: Process, live: Live<M>) {
    match p
    case Up(_, _, _, _, _) => live.Running? && LiveOK(app, log, p, Some(live.machine))
    case Down(s) => live.Gone? && s.applied <= |log| && MachineAfter(app, log[..s.applied]).Some?
  }

  ghost predicate WorldOK<M>(app: App<M>, u: Setup, h: History, told: Told, x: World<M>) {
    && ClusterOK(u, h, x.c)
    && VouchedCluster(told, x.c)
    && AllHonest(app, h.committed, told)
    && x.live.Keys == x.c.processes.Keys
    && (forall id {:trigger x.live[id]} | id in x.live :: ProcessLive(app, h.committed, x.c.processes[id], x.live[id]))
  }

  lemma ProcessLiveGrows<M>(app: App<M>, a: Log, b: Log, p: Process, live: Live<M>)
    requires a <= b && ProcessLive(app, a, p, live)
    ensures ProcessLive(app, b, p, live)
  {
    assert a[..p.store.applied] == b[..p.store.applied];
  }

  /** What a turn makes of the application: the machine of the log up to the new applied index, or gone with its process. */
  ghost predicate Follows<M>(app: App<M>, log: Log, p: Process, live: Live<M>) {
    && p.store.applied <= |log|
    && live == (if p.Up? then FromOption(MachineAfter(app, log[..p.store.applied])) else Gone)
    && (p.Down? ==> MachineAfter(app, log[..p.store.applied]).Some?)
  }

  lemma LiveFollows<M>(app: App<M>, log: Log, p: Process, m: Option<M>)
    requires p.Up? && LiveOK(app, log, p, m)
    ensures Follows(app, log, p, FromOption(m))
  {
  }

  /** What is told in a checkpointing action is honest. */
  lemma ToldIsHonest<M>(app: App<M>, u: Setup, h: History, told: Told, x: World<M>, action: Action)
    requires WorldOK(app, u, h, told, x) && Enabled(x.c, action) && TakesCheckpoint(app, x, action) && Actor(action) in x.live
    ensures AllHonest(app, h.committed, told + ToldIn(action))
  {
    hide ClusterOK, VouchedCluster, MachineAfter, HonestData;
    if action.Ask? && action.input.TakeSnapshot? {
      var p := x.c.processes[action.id];
      assert ProcessLive(app, h.committed, p, x.live[action.id]);
      CheckpointIsHonest(app, h.committed, p, x.live[action.id].machine, action.input.data);
    }
  }

  lemma CheckpointIsHonest<M>(app: App<M>, log: Log, p: Process, machine: M, data: Bytes)
    requires p.Up? && LiveOK(app, log, p, Some(machine)) && app.save(machine) == Some(data)
    ensures HonestData(app, log, p.store.applied, data)
  {
  }

  /** THE TURN, exactly: every event but a restart without recovery leads the application along the log. */
  lemma TurnApplies<M>(app: App<M>, u: Setup, h: History, told: Told, x: World<M>, action: Action) returns (h': History)
    requires Faithful(app) && SetupOK(u) && WorldOK(app, u, h, told, x) && Enabled(x.c, action) && TakesCheckpoint(app, x, action)
    requires Actor(action) in x.live
    ensures TurnOK(u, h, h', Actor(action), x.c.processes[Actor(action)], TurnOf(u, x.c, action))
    ensures var store := x.c.processes[Actor(action)].store;
      if action.Restart? && Recover(app, store).None?
      then TurnApp(app, u, x, action).Broken? && TurnOf(u, x.c, action).process.store.applied <= |h'.committed|
      else Follows(app, h'.committed, TurnOf(u, x.c, action).process, TurnApp(app, u, x, action))
  {
    hide HistoryOK, SetupOK, ProcessOK, MessageOK, TurnOK, Submit, CompleteWrite, Acknowledge, Boot, SubmitApp, AcknowledgeApp,
      BootApp, LiveOK, Faithful, VouchedProcess, VouchedMessage, AllHonest, Recover, Follows, MachineAfter;
    var id := Actor(action);
    var p := x.c.processes[id];
    var all := told + ToldIn(action);
    ProcessIsOK(u, h, x.c, id);
    VouchedGrows(told, all, x.c);
    ToldIsHonest(app, u, h, told, x, action);
    assert VouchedProcess(all, p);
    assert ProcessLive(app, h.committed, p, x.live[id]);
    match action
    case Deliver(message) =>
      assert MessageOK(u, h, message) && VouchedMessage(all, message);
      h' := SubmitApplies(app, all, u, h, id, p, Some(x.live[id].machine), Receive(message));
      LiveFollows(app, h'.committed, Submit(u, p, Receive(message)).process, SubmitApp(app, u, p, Some(x.live[id].machine), Receive(message)));
    case Ask(_, input) =>
      assert input.TakeSnapshot? ==> (input.index, input.data) in ToldIn(action);
      h' := SubmitApplies(app, all, u, h, id, p, Some(x.live[id].machine), input);
      LiveFollows(app, h'.committed, Submit(u, p, input).process, SubmitApp(app, u, p, Some(x.live[id].machine), input));
    case WriteDone(_) =>
      h' := CompleteWriteOK(u, h, id, p);
      WriteFollows(app, u, h, h', id, p, x.live[id].machine);
    case AckDone(_) =>
      h' := AcknowledgeApplies(app, all, u, h, id, p, Some(x.live[id].machine));
      LiveFollows(app, h'.committed, Acknowledge(u, p).process, AcknowledgeApp(app, u, p, Some(x.live[id].machine)));
    case ArmCrash(_) =>
      h' := h;
      StillOK(u, h, id, p, p.(crashAfterPersist := true));
      StillFollows(app, h.committed, p, x.live[id].machine);
    case Crash(_) =>
      h' := h;
      StillOK(u, h, id, p, Down(p.store));
      StillFollows(app, h.committed, p, x.live[id].machine);
    case Restart(_) =>
      h' := h;
      DownIsOK(u, h, id, p);
      BootApplies(app, all, u, h, id, p.store);
      if Recover(app, p.store).Some? {
        LiveFollows(app, h.committed, Boot(u, id, p.store).process, BootApp(app, u, id, p.store));
      }
  }

  lemma DownIsOK(u: Setup, h: History, id: NodeID, p: Process)
    requires ProcessOK(u, h, id, p) && p.Down?
    ensures StoreOK(u, h, id, p.store) && p == Down(p.store)
  {
    hide StoreOK;
  }

  lemma StillFollows<M>(app: App<M>, log: Log, p: Process, machine: M)
    requires p.Up? && LiveOK(app, log, p, Some(machine))
    ensures Follows(app, log, Down(p.store), Gone)
    ensures Follows(app, log, p.(crashAfterPersist := true), Running(machine))
  {
  }

  lemma WriteFollows<M>(app: App<M>, u: Setup, h: History, h': History, id: NodeID, p: Process, machine: M)
    requires p.Up? && p.stage.Writing? && LiveOK(app, h.committed, p, Some(machine))
    requires TurnOK(u, h, h', id, p, Turn(CompleteWrite(p), [], None))
    ensures Follows(app, h'.committed, CompleteWrite(p), if p.crashAfterPersist then Gone else Running(machine))
  {
    hide HistoryOK, GrowsBy, SentOK, SentIn, ProcessOK, MachineAfter;
    GrowsByIsGrowth(h, h', id);
    GrowsCommitted(h, h');
    LiveGrows(app, h.committed, h'.committed, p, Some(machine));
  }

  lemma FollowsIsLive<M>(app: App<M>, log: Log, p: Process, live: Live<M>)
    requires Follows(app, log, p, live) && !live.Broken?
    ensures ProcessLive(app, log, p, live)
  {
  }

  /** One event that breaks no application. */
  lemma WorldAfter<M>(app: App<M>, u: Setup, h: History, told: Told, x: World<M>, action: Action, x': World<M>) returns (h': History)
    requires Faithful(app) && SetupOK(u) && WorldOK(app, u, h, told, x) && WorldStep(app, u, x, x', action)
    ensures WorldOK(app, u, h', told + ToldIn(action), x') && Grows(h, h')
  {
    hide HistoryOK, SetupOK, ProcessOK, MessageOK, TurnOf, SentOK, Grows, TurnApp, ProcessLive, TakesCheckpoint, Faithful, TurnOK,
      AllHonest, VouchedCluster, Follows, Recover;
    var actor := Actor(action);
    var all := told + ToldIn(action);
    h' := TurnApplies(app, u, h, told, x, action);
    TurnReaches(u, h, h', x.c, action);
    VouchedGrows(told, all, x.c);
    AfterVouched(all, u, h, x.c, action);
    ToldIsHonest(app, u, h, told, x, action);
    GrowsCommitted(h, h');
    AllHonestGrows(app, h.committed, h'.committed, all);
    FollowsIsLive(app, h'.committed, TurnOf(u, x.c, action).process, TurnApp(app, u, x, action));
    forall id | id in x'.live
      ensures ProcessLive(app, h'.committed, x'.c.processes[id], x'.live[id])
    {
      if id != actor {
        assert ProcessLive(app, h.committed, x.c.processes[id], x.live[id]);
        ProcessLiveGrows(app, h.committed, h'.committed, x.c.processes[id], x.live[id]);
      }
    }
  }
}

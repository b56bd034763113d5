/** What holds of every process, store and message of a cluster, and why each event keeps it. */
module ClusterInvariant {
  import opened RaftTypes
  import opened Configuration
  import opened RaftHistory
  import opened LeaderCompleteness
  import opened RaftActions
  import opened NodeSpec
  import opened NodeRefinement
  import opened LeaderProofs
  import opened FollowerProofs
  import opened NodeProofs
  import opened Validation
  import opened ClusterSpec
  import opened Checkpoints

  /** The node a restart makes of durable state, once it applied what was committed. */
  function Recovered(u: Setup, id: NodeID, state: PersistentState): Core {
    Fresh(u, id, state, state.commit)
  }

  /** The application took the committed entries from its last installed snapshot on, in order and without a gap. */
  ghost predicate AppliedOK(h: History, s: Store) {
    && s.installed.index <= s.applied <= |h.committed|
    && s.entries == h.committed[s.installed.index..s.applied]
    && forall i {:trigger s.entries[i]} | 0 <= i < |s.entries| :: s.entries[i].index == s.installed.index + i + 1
  }

  ghost predicate StoreOK(u: Setup, h: History, id: NodeID, s: Store) {
    && Good(u, h, Recovered(u, id, s.state))
    && s.applied <= s.state.commit
    && AppliedOK(h, s)
  }

  ghost predicate InputOK(u: Setup, h: History, input: Input) {
    && !input.Persisted?
    && (input.Receive? ==> MessageOK(u, h, input.message))
  }

  /** The step behind an outstanding write, which takes place for the rest of the world once it is stored. */
  ghost predicate Underway(u: Setup, h: History, before: Core, input: Input, store: Store, after: Core, effects: seq<Effect>) {
    && Good(u, h, before)
    && InputOK(u, h, input)
    && before.state == store.state
    && before.applied == store.applied
    && before.id == after.id
    && Boundary(before) <= before.applied
    && React(u, before, input) == Done(after, true, effects)
  }

  ghost predicate StageOK(u: Setup, h: History, p: Process)
    requires p.Up?
  {
    var core := p.node.core;
    match p.stage
    case Idle =>
      && p.node.pending.None?
      && Good(u, h, core)
      && core.state == p.store.state
      && core.applied == p.store.applied
    case Writing(token, state) =>
      && p.node.pending.Some?
      && p.node.pending.value.token == token
      && state == core.state
      && exists before, input :: Underway(u, h, before, input, p.store, core, p.node.pending.value.effects)
    case Stored(token) =>
      && p.node.pending.Some?
      && p.node.pending.value.token == token
      && Good(u, h, core)
      && core.state == p.store.state
      && EffectsOK(u, h, core.id, p.node.pending.value.effects)
      && Delivered(p.node.pending.value.effects, p.store.applied) == Some(core.applied)
      && Carries(p.node.pending.value.effects, core.state.term, core.state.snapshot)
  }

  ghost predicate MailOK(u: Setup, h: History, mailbox: seq<Input>) {
    forall i {:trigger mailbox[i]} | 0 <= i < |mailbox| :: InputOK(u, h, mailbox[i])
  }

  ghost predicate RunningOK(u: Setup, h: History, id: NodeID, p: Process)
    requires p.Up?
  {
    && p.node.core.id == id
    && p.node.nextToken > 0
    && (p.node.pending.Some? ==> p.node.pending.value.token > 0)
    && StageOK(u, h, p)
    && MailOK(u, h, p.mailbox)
  }

  ghost predicate ProcessOK(u: Setup, h: History, id: NodeID, p: Process) {
    StoreOK(u, h, id, p.store) && (p.Up? ==> RunningOK(u, h, id, p))
  }

  ghost predicate SentOK(u: Setup, h: History, sent: seq<Message>) {
    forall i {:trigger sent[i]} | 0 <= i < |sent| :: MessageOK(u, h, sent[i])
  }

  /** Every message is this node's, in this term. */
  ghost predicate SentIn(sent: seq<Message>, id: NodeID, term: nat) {
    forall i {:trigger sent[i]} | 0 <= i < |sent| :: sent[i].from == id && sent[i].term == term
  }

  /** Errors a caller or an exhausted counter can cause; the others mean that a node or its driver broke its own rules. */
  predicate Benign(error: Error) {
    || error.InvalidInput? || error.NotLeader? || error.NotVoter? || error.MembershipInProgress?
    || error.TermExhausted? || error.IndexExhausted?
  }

  predicate FaultOK(fault: Option<Fault>) {
    fault.Some? ==> fault.value.StepFailed? && Benign(fault.value.error)
  }

  /** Durable terms, commit indexes and application indexes never go back. */
  predicate Forward(a: Store, b: Store) {
    a.state.term <= b.state.term && a.state.commit <= b.state.commit && a.applied <= b.applied
  }

  ghost predicate TurnOK(u: Setup, h: History, h': History, id: NodeID, p: Process, t: Turn) {
    && HistoryOK(u, h')
    && GrowsBy(h, h', id)
    && Forward(p.store, t.process.store)
    && ProcessOK(u, h', id, t.process)
    && SentOK(u, h', t.sent)
    && SentIn(t.sent, id, t.process.store.state.term)
    && FaultOK(t.fault)
  }

  // ----- frames -----

  lemma GoodFrame(u: Setup, a: History, b: History, actor: NodeID, n: Core)
    requires GrowsBy(a, b, actor) && n.id != actor && HistoryOK(u, a) && HistoryOK(u, b)
    requires Good(u, a, n)
    ensures Good(u, b, n)
  {
    hide HistoryOK, NodeOK, CoreOK, Full, GrowsBy;
    CoreGrowsBy(u, a, b, n, actor);
    NodeFrame(u, a, b, actor, n.id, View(a, n));
    MakeGood(u, b, n, View(a, n));
  }

  lemma AppliedGrows(a: History, b: History, s: Store)
    requires Grows(a, b) && AppliedOK(a, s)
    ensures AppliedOK(b, s)
  {
    assert a.committed[s.installed.index..s.applied] == b.committed[s.installed.index..s.applied];
  }

  lemma InputGrows(u: Setup, a: History, b: History, input: Input)
    requires Grows(a, b) && InputOK(u, a, input)
    ensures InputOK(u, b, input)
  {
    if input.Receive? {
      MessageGrows(u, a, b, input.message);
    }
  }

  lemma MailGrows(u: Setup, a: History, b: History, mailbox: seq<Input>)
    requires Grows(a, b) && MailOK(u, a, mailbox)
    ensures MailOK(u, b, mailbox)
  {
    forall i | 0 <= i < |mailbox|
      ensures InputOK(u, b, mailbox[i])
    {
      InputGrows(u, a, b, mailbox[i]);
    }
  }

  lemma SentGrows(u: Setup, a: History, b: History, sent: seq<Message>)
    requires Grows(a, b) && SentOK(u, a, sent)
    ensures SentOK(u, b, sent)
  {
    forall i | 0 <= i < |sent|
      ensures MessageOK(u, b, sent[i])
    {
      MessageGrows(u, a, b, sent[i]);
    }
  }

  lemma StageFrame(u: Setup, a: History, b: History, actor: NodeID, p: Process)
    requires p.Up? && p.node.core.id != actor && StageOK(u, a, p)
    requires GrowsBy(a, b, actor) && HistoryOK(u, a) && HistoryOK(u, b)
    ensures StageOK(u, b, p)
  {
    hide HistoryOK, Good, EffectsOK, InputOK, React, Grows, Delivered;
    match p.stage
    case Idle => GoodFrame(u, a, b, actor, p.node.core);
    case Stored(token) =>
      GoodFrame(u, a, b, actor, p.node.core);
      EffectsGrow(u, a, b, p.node.core.id, p.node.pending.value.effects);
    case Writing(token, state) =>
      var before, input :| Underway(u, a, before, input, p.store, p.node.core, p.node.pending.value.effects);
      GoodFrame(u, a, b, actor, before);
      InputGrows(u, a, b, input);
      assert Underway(u, b, before, input, p.store, p.node.core, p.node.pending.value.effects);
  }

  /** An event at one process leaves the others' invariants alone. */
  lemma ProcessFrame(u: Setup, a: History, b: History, actor: NodeID, id: NodeID, p: Process)
    requires GrowsBy(a, b, actor) && id != actor && HistoryOK(u, a) && HistoryOK(u, b)
    requires ProcessOK(u, a, id, p)
    ensures ProcessOK(u, b, id, p)
  {
    hide HistoryOK, Good, StageOK, MailOK, Grows, AppliedOK;
    GoodFrame(u, a, b, actor, Recovered(u, id, p.store.state));
    AppliedGrows(a, b, p.store);
    if p.Up? {
      StageFrame(u, a, b, actor, p);
      MailGrows(u, a, b, p.mailbox);
    }
  }

  // ----- crash recovery -----

  /** Losing everything volatile loses nothing the protocol relies on. */
  lemma RecoverOK(u: Setup, h: History, n: Core)
    requires SetupOK(u) && HistoryOK(u, h) && Good(u, h, n)
    ensures Good(u, h, Recovered(u, n.id, n.state))
  {
    hide HistoryOK, NodeOK, SetupOK, Fold, StoredSnapshotOK, Full;
    var r := Recovered(u, n.id, n.state);
    LastMembership(u, h, n.state);
    StepDown(u, h, n.id, View(h, n));
    assert View(h, r) == View(h, n).(role := Follower, votes := {}, match_ := map[]);
  }

  // ----- effects -----

  lemma {:induction false} TrimAll(entries: seq<Entry>, index: nat)
    requires forall i | 0 <= i < |entries| :: entries[i].index <= index
    ensures Trim(entries, index) == []
  {
    if entries != [] {
      TrimAll(entries[..|entries| - 1], index);
    }
  }

  /** One justified effect that the application expects next. */
  lemma PerformOneOK(u: Setup, h: History, p: Process, id: NodeID, effect: Effect, a: nat)
    requires p.Up? && AppliedOK(h, p.store) && EffectOK(u, h, id, effect)
    requires Delivered([effect], p.store.applied) == Some(a)
    ensures var t := PerformOne(p, effect);
      && t.fault.None?
      && t.process == p.(store := t.process.store)
      && t.process.store.state == p.store.state
      && t.process.store.applied == a
      && AppliedOK(h, t.process.store)
      && SentOK(u, h, t.sent)
  {
    hide MessageOK, Config;
    assert [effect][..0] == [];
    assert Delivered([], p.store.applied) == Some(p.store.applied);
    var s := p.store;
    match effect
    case Apply(entry) =>
      assert h.committed[s.installed.index..s.applied] + [h.committed[s.applied]] == h.committed[s.installed.index..s.applied + 1];
    case RestoreSnapshot(snapshot) =>
      TrimAll(s.entries, snapshot.index);
    case Send(m) =>
    case ResetElectionTimer =>
    case ResetHeartbeatTimer =>
  }

  /** APPLY EXACTLY ONCE: performing justified effects never fails, and moves the application just as they say. */
  lemma {:induction false} PerformOK(u: Setup, h: History, p: Process, id: NodeID, effects: seq<Effect>, a: nat)
    requires p.Up? && AppliedOK(h, p.store) && EffectsOK(u, h, id, effects)
    requires Delivered(effects, p.store.applied) == Some(a)
    ensures var t := Perform(p, effects);
      && t.fault.None?
      && t.process == p.(store := t.process.store)
      && t.process.store.state == p.store.state
      && t.process.store.applied == a
      && AppliedOK(h, t.process.store)
      && SentOK(u, h, t.sent)
  {
    hide EffectOK, AppliedOK, MessageOK, PerformOne;
    if effects != [] {
      var front, last := effects[..|effects| - 1], effects[|effects| - 1];
      assert effects == front + [last];
      DeliveredConcat(front, [last], p.store.applied);
      forall i | 0 <= i < |front|
        ensures EffectOK(u, h, id, front[i])
      {
        assert front[i] == effects[i];
      }
      PerformOK(u, h, p, id, front, Delivered(front, p.store.applied).value);
      PerformOneOK(u, h, Perform(p, front).process, id, last, a);
    }
  }

  /** What performing effects sends are the messages among them. */
  lemma {:induction false} PerformSends(u: Setup, h: History, id: NodeID, p: Process, effects: seq<Effect>, term: nat, s: Snapshot)
    requires p.Up? && EffectsOK(u, h, id, effects) && Carries(effects, term, s)
    ensures SentIn(Perform(p, effects).sent, id, term)
  {
    hide MessageOK, SnapshotOK;
    if effects != [] {
      var front, last := effects[..|effects| - 1], effects[|effects| - 1];
      forall i | 0 <= i < |front|
        ensures EffectOK(u, h, id, front[i]) && CarriesOne(front[i], term, s)
      {
        assert front[i] == effects[i];
      }
      PerformSends(u, h, id, p, front, term, s);
      assert EffectOK(u, h, id, last) && CarriesOne(last, term, s);
    }
  }

  lemma {:induction false} PerformKeepsState(p: Process, effects: seq<Effect>)
    requires p.Up?
    ensures Perform(p, effects).process.store.state == p.store.state
  {
    if effects != [] {
      PerformKeepsState(p, effects[..|effects| - 1]);
    }
  }

  lemma SubmitKeepsState(u: Setup, p: Process, input: Input)
    requires p.Up?
    ensures Submit(u, p, input).process.store.state == p.store.state
  {
    hide Perform, Advance, Current;
    if p.node.pending.None? && Current(p.node.core, input) && Advance(u, p.node, input).Stepped? {
      var r := Advance(u, p.node, input);
      PerformKeepsState(p.(node := r.node), r.effects);
    }
  }

  lemma {:induction false} DrainKeepsState(u: Setup, p: Process)
    requires p.Up?
    ensures Drain(u, p).process.store.state == p.store.state
    decreases if p.Up? then |p.mailbox| else 0
  {
    hide Submit;
    if p.node.pending.None? && p.mailbox != [] {
      var p1 := p.(mailbox := p.mailbox[1..]);
      SubmitKeepsState(u, p1, p.mailbox[0]);
      var t := Submit(u, p1, p.mailbox[0]);
      if t.fault.None? { DrainKeepsState(u, t.process); }
    }
  }

  // ----- inputs -----

  /** Errors of the protocol are benign; only a broken caller sees the others. */
  lemma ReactErrors(u: Setup, n: Core, input: Input)
    requires Boundary(n) <= n.applied && !input.Persisted?
    requires React(u, n, input).Failed? && React(u, n, input).error != Panic
    ensures Benign(React(u, n, input).error)
  {
    hide AdvanceCommit, BroadcastAppend, Quorum, ValidateMembership, TransitionMembership, Refresh, MembershipAt, TermAt,
      EntriesFrom, HasUncommittedConfiguration, StableMembership, FirstInvalid, Merge, FirstNew, ApplyCommitted, ChainOK;
  }

  /** An input that needs a write: nothing happens for the world until it is stored. */
  lemma DirtyOK(u: Setup, h: History, id: NodeID, p: Process, input: Input)
    requires p.Up? && ProcessOK(u, h, id, p) && p.stage.Idle? && InputOK(u, h, input)
    requires Boundary(p.node.core) <= p.node.core.applied
    requires React(u, p.node.core, input).Done? && React(u, p.node.core, input).dirty
    requires React(u, p.node.core, input).node.id == id
    requires Advance(u, p.node, input).Stepped?
    ensures var r := Advance(u, p.node, input);
      var t := Perform(p.(node := r.node), r.effects);
      ProcessOK(u, h, id, t.process) && t.sent == [] && t.fault.None? && t.process.store == p.store
  {
    hide Good, InputOK, AppliedOK, React, MailOK;
    var core := p.node.core;
    var out := React(u, core, input);
    var r := Advance(u, p.node, input);
    var persist := Persist(p.node.nextToken, out.node.state);
    assert r.effects == [persist];
    var p1 := p.(node := r.node);
    assert [persist][..0] == [];
    assert Perform(p1, []) == Turn(p1, [], None);
    assert Perform(p1, [persist]) == Turn(p1.(stage := Writing(persist.token, out.node.state)), [] + [], None);
    assert Underway(u, h, core, input, p.store, out.node, out.effects);
  }

  lemma SubmitOK(u: Setup, h: History, id: NodeID, p: Process, input: Input) returns (h': History)
    requires SetupOK(u) && HistoryOK(u, h) && p.Up? && ProcessOK(u, h, id, p) && InputOK(u, h, input)
    ensures TurnOK(u, h, h', id, p, Submit(u, p, input))
  {
    hide SetupOK, HistoryOK, Good, StoreOK, InputOK, React, GrowsBy, Perform, Carries;
    if p.node.pending.Some? || !Current(p.node.core, input) {
      h' := h;
      NoGrowth(h, id);
    } else {
      h' := StepOK(u, h, id, p, input);
    }
  }

  lemma IdleParts(u: Setup, h: History, id: NodeID, p: Process)
    requires p.Up? && ProcessOK(u, h, id, p) && p.node.pending.None?
    ensures p.stage.Idle? && Good(u, h, p.node.core) && p.node.core.id == id
    ensures p.node.core.state == p.store.state && p.node.core.applied == p.store.applied
    ensures Boundary(p.node.core) <= p.node.core.applied
    ensures AppliedOK(h, p.store) && MailOK(u, h, p.mailbox) && p.node.nextToken > 0
  {
    hide Good, AppliedOK, InputOK;
    GoodParts(u, h, p.node.core);
  }

  lemma IdleWhole(u: Setup, h: History, id: NodeID, p: Process)
    requires SetupOK(u) && HistoryOK(u, h)
    requires p.Up? && p.node.pending.None? && p.stage.Idle? && Good(u, h, p.node.core) && p.node.core.id == id
    requires p.node.core.state == p.store.state && p.node.core.applied == p.store.applied
    requires AppliedOK(h, p.store) && MailOK(u, h, p.mailbox) && p.node.nextToken > 0
    ensures ProcessOK(u, h, id, p)
  {
    hide Good, AppliedOK, HistoryOK, SetupOK, MailOK;
    RecoverOK(u, h, p.node.core);
    GoodParts(u, h, p.node.core);
  }

  /** An input that needs no write takes place at once. */
  lemma CleanOK(u: Setup, h: History, h': History, id: NodeID, p: Process, out: Outcome)
    requires SetupOK(u) && HistoryOK(u, h) && p.Up? && ProcessOK(u, h, id, p) && p.node.pending.None?
    requires OutcomeOK(u, h, h', p.node.core, out)
    requires out.Failed? ==> Benign(out.error)
    requires out.Done? ==> !out.dirty && Carries(out.effects, out.node.state.term, out.node.state.snapshot)
    ensures var p1 := p.(node := p.node.(core := out.node));
      TurnOK(u, h, h', id, p, if out.Failed? then Turn(p1, [], Some(StepFailed(out.error))) else Perform(p1, out.effects))
  {
    hide SetupOK, HistoryOK, Good, GrowsBy, Perform, ProcessOK, EffectsOK, AppliedOK, MailOK, MessageOK, SentOK, Delivered, SentIn,
      Carries;
    IdleParts(u, h, id, p);
    GrowsByIsGrowth(h, h', id);
    AppliedGrows(h, h', p.store);
    MailGrows(u, h, h', p.mailbox);
    var p1 := p.(node := p.node.(core := out.node));
    if out.Failed? {
      NothingSent(u, h', id, p.store.state.term);
      IdleWhole(u, h', id, p1);
    } else {
      PerformOK(u, h', p1, id, out.effects, out.node.applied);
      PerformSends(u, h', id, p1, out.effects, out.node.state.term, out.node.state.snapshot);
      DeliveredMonotone(out.effects, p.store.applied);
      IdleWhole(u, h', id, Perform(p1, out.effects).process);
    }
  }

  lemma StepOK(u: Setup, h: History, id: NodeID, p: Process, input: Input) returns (h': History)
    requires SetupOK(u) && HistoryOK(u, h) && p.Up? && ProcessOK(u, h, id, p) && InputOK(u, h, input)
    requires p.node.pending.None? && Current(p.node.core, input)
    ensures TurnOK(u, h, h', id, p, Submit(u, p, input))
  {
    hide SetupOK, HistoryOK, Good, React, GrowsBy, Perform, ProcessOK, EffectsOK, AppliedOK, MailOK, MessageOK, SentOK, Delivered,
      SentIn, Carries;
    IdleParts(u, h, id, p);
    var core := p.node.core;
    GoodParts(u, h, core);
    ReactTraced(u, core, input);
    var out := React(u, core, input);
    h' := ReactOK(u, h, core, input);
    if out.Done? && out.dirty {
      h' := h;
      NoGrowth(h, id);
      DirtyOK(u, h, id, p, input);
      NothingSent(u, h, id, p.store.state.term);
    } else {
      if out.Failed? {
        ReactErrors(u, core, input);
      }
      CleanOK(u, h, h', id, p, out);
    }
  }

  lemma NothingSent(u: Setup, h: History, id: NodeID, term: nat)
    ensures SentOK(u, h, []) && SentIn([], id, term)
  {
  }

  lemma GrowsByIsGrowth(a: History, b: History, n: NodeID)
    requires GrowsBy(a, b, n)
    ensures Grows(a, b)
  {
  }

  // ----- the mailbox -----

  lemma TurnsCompose(u: Setup, a: History, b: History, c: History, id: NodeID, p: Process, t: Turn, t1: Turn)
    requires GrowsBy(a, b, id) && SentOK(u, b, t.sent) && TurnOK(u, b, c, id, t.process, t1)
    requires Forward(p.store, t.process.store)
    requires SentIn(t.sent, id, t.process.store.state.term) && t1.process.store.state == t.process.store.state
    ensures TurnOK(u, a, c, id, p, Turn(t1.process, t.sent + t1.sent, t1.fault))
  {
    hide HistoryOK, MessageOK, ProcessOK, GrowsBy;
    GrowsByIsGrowth(b, c, id);
    GrowsByTransitive(a, b, c, id);
    SentGrows(u, b, c, t.sent);
  }

  lemma PopMail(u: Setup, h: History, id: NodeID, p: Process)
    requires p.Up? && ProcessOK(u, h, id, p) && p.mailbox != []
    ensures ProcessOK(u, h, id, p.(mailbox := p.mailbox[1..]))
    ensures InputOK(u, h, p.mailbox[0])
  {
    hide StoreOK, InputOK, Good;
    assert InputOK(u, h, p.mailbox[0]);
    forall i | 0 <= i < |p.mailbox| - 1
      ensures InputOK(u, h, p.mailbox[1..][i])
    {
      assert InputOK(u, h, p.mailbox[i + 1]);
    }
  }

  lemma {:induction false} DrainOK(u: Setup, h: History, id: NodeID, p: Process) returns (h': History)
    requires SetupOK(u) && HistoryOK(u, h) && p.Up? && ProcessOK(u, h, id, p)
    ensures TurnOK(u, h, h', id, p, Drain(u, p))
    decreases if p.Up? then |p.mailbox| else 0
  {
    hide SetupOK, HistoryOK, ProcessOK, SentOK, Submit, GrowsBy, InputOK, SentIn;
    if p.node.pending.Some? || p.mailbox == [] {
      h' := h;
      NoGrowth(h, id);
      NothingSent(u, h, id, p.store.state.term);
    } else {
      PopMail(u, h, id, p);
      var p1 := p.(mailbox := p.mailbox[1..]);
      h' := SubmitOK(u, h, id, p1, p.mailbox[0]);
      var t := Submit(u, p1, p.mailbox[0]);
      if t.fault.None? {
        var h1 := h';
        h' := DrainOK(u, h1, id, t.process);
        DrainKeepsState(u, t.process);
        TurnsCompose(u, h, h1, h', id, p, t, Drain(u, t.process));
      }
    }
  }

  // ----- storage -----

  lemma {:induction false} DeliveredMonotone(effects: seq<Effect>, a: nat)
    requires Delivered(effects, a).Some?
    ensures Delivered(effects, a).value >= a
  {
    if effects != [] {
      DeliveredMonotone(effects[..|effects| - 1], a);
    }
  }

  lemma WritingParts(u: Setup, h: History, id: NodeID, p: Process) returns (before: Core, input: Input)
    requires p.Up? && ProcessOK(u, h, id, p) && p.stage.Writing?
    ensures p.node.pending.Some? && p.node.core.id == id && p.stage.state == p.node.core.state
    ensures p.node.pending.value.token == p.stage.token > 0 && p.node.nextToken > 0
    ensures Underway(u, h, before, input, p.store, p.node.core, p.node.pending.value.effects)
    ensures AppliedOK(h, p.store) && MailOK(u, h, p.mailbox)
  {
    hide Underway, Good, AppliedOK, InputOK;
    before, input :| Underway(u, h, before, input, p.store, p.node.core, p.node.pending.value.effects);
  }

  lemma StoredWhole(u: Setup, h: History, id: NodeID, p: Process)
    requires SetupOK(u) && HistoryOK(u, h)
    requires p.Up? && p.stage.Writing? && p.node.pending.Some? && p.node.pending.value.token == p.stage.token > 0
    requires p.node.nextToken > 0 && p.stage.state == p.node.core.state && p.node.core.id == id
    requires Good(u, h, p.node.core) && EffectsOK(u, h, id, p.node.pending.value.effects)
    requires Delivered(p.node.pending.value.effects, p.store.applied) == Some(p.node.core.applied)
    requires Carries(p.node.pending.value.effects, p.node.core.state.term, p.node.core.state.snapshot)
    requires AppliedOK(h, p.store) && MailOK(u, h, p.mailbox)
    ensures ProcessOK(u, h, id, CompleteWrite(p))
    ensures CompleteWrite(p).store == p.store.(state := p.node.core.state)
  {
    hide SetupOK, HistoryOK, Good, EffectsOK, AppliedOK, MailOK, Delivered, Carries;
    RecoverOK(u, h, p.node.core);
    GoodParts(u, h, p.node.core);
    DeliveredMonotone(p.node.pending.value.effects, p.store.applied);
    SameApplied(h, p.store, p.node.core.state);
  }

  /** Storing a write is the moment its step takes place. */
  lemma CompleteWriteOK(u: Setup, h: History, id: NodeID, p: Process) returns (h': History)
    requires SetupOK(u) && HistoryOK(u, h) && p.Up? && ProcessOK(u, h, id, p) && p.stage.Writing?
    ensures TurnOK(u, h, h', id, p, Turn(CompleteWrite(p), [], None))
  {
    hide SetupOK, HistoryOK, Good, React, GrowsBy, EffectsOK, AppliedOK, MailOK, MessageOK, Delivered, ProcessOK, CompleteWrite,
      Carries, SentIn;
    var before, input := WritingParts(u, h, id, p);
    GoodParts(u, h, before);
    ReactTraced(u, before, input);
    h' := ReactOK(u, h, before, input);
    GrowsByIsGrowth(h, h', id);
    NothingSent(u, h', id, p.node.core.state.term);
    AppliedGrows(h, h', p.store);
    MailGrows(u, h, h', p.mailbox);
    StoredWhole(u, h', id, p);
    GoodParts(u, h', p.node.core);
    DeliveredMonotone(p.node.pending.value.effects, before.applied);
    TermGrows(u, h, h', before, p.node.core);
  }

  lemma TermGrows(u: Setup, a: History, b: History, n: Core, n1: Core)
    requires Grows(a, b) && Good(u, a, n) && Good(u, b, n1) && n.id == n1.id
    ensures n.state.term <= n1.state.term
  {
    assert LedgerGrows(a.ledgers[n.id], b.ledgers[n.id]);
  }

  lemma SameApplied(h: History, s: Store, state: PersistentState)
    requires AppliedOK(h, s)
    ensures AppliedOK(h, s.(state := state))
  {
  }

  lemma AcknowledgeOK(u: Setup, h: History, id: NodeID, p: Process) returns (h': History)
    requires SetupOK(u) && HistoryOK(u, h) && p.Up? && ProcessOK(u, h, id, p) && p.stage.Stored?
    ensures TurnOK(u, h, h', id, p, Acknowledge(u, p))
  {
    hide SetupOK, HistoryOK, Good, GrowsBy, EffectsOK, AppliedOK, MailOK, MessageOK, Delivered, Drain, React, Perform, Carries, SentIn;
    var core, effects := p.node.core, p.node.pending.value.effects;
    GoodParts(u, h, core);
    assert Advance(u, p.node, Persisted(p.stage.token)) == Stepped(p.node.(pending := None), effects);
    var p1 := p.(node := p.node.(pending := None), stage := Idle);
    PerformOK(u, h, p1, id, effects, core.applied);
    PerformSends(u, h, id, p1, effects, core.state.term, core.state.snapshot);
    DeliveredMonotone(effects, p.store.applied);
    var t := Perform(p1, effects);
    IdleWhole(u, h, id, t.process);
    h' := DrainOK(u, h, id, t.process);
    DrainKeepsState(u, t.process);
    NoGrowth(h, id);
    TurnsCompose(u, h, h, h', id, p, t, Drain(u, t.process));
  }

  // ----- restart -----

  lemma StoredSnapshotValid(u: Setup, h: History, n: Core)
    requires SetupOK(u) && HistoryOK(u, h) && Good(u, h, n)
    ensures ValidSnapshot(u, n.state)
  {
    var s := n.state.snapshot;
    if s != NO_SNAPSHOT {
      CommittedLogOK(u, h);
      LogPrefixOK(h, h.committed, s.index);
      ConfigValid(u, h, h.committed[..s.index]);
      FullLength(u, h, n.state);
      var full := Full(h, n.state);
      assert h.committed[s.index - 1] == full[..s.index][s.index - 1] == full[s.index - 1];
      assert TermsUpTo(full, n.state.term);
      assert ReignOK(u, h, full[s.index - 1].term);
    }
  }

  lemma FullEntry(u: Setup, h: History, n: Core, i: nat)
    requires SetupOK(u) && HistoryOK(u, h) && Good(u, h, n) && i < |n.state.log|
    ensures var full := Full(h, n.state);
      var x := n.state.snapshot.index + i;
      && x < |full| && n.state.log[i] == full[x]
      && TermAt(n.state, x) == TermIn(full, x)
      && LogOK(h, full)
      && 0 < full[x].term <= n.state.term
      && (full[x].kind.ConfigFinal? ==> x <= n.state.commit)
      && (n.state.snapshot.index == 0 ==> n.state.snapshot.term == 0)
  {
    hide Good, HistoryOK, SetupOK, LogOK, StoredSnapshotOK, TermAt, TermIn, Full;
    var full := Full(h, n.state);
    var b := n.state.snapshot.index;
    GoodLog(u, h, n);
    StoredOK(u, h, n);
    FullLength(u, h, n.state);
    TermAtFull(u, h, n.state, b + i);
    FinalsOf(u, h, n);
    assert n.state.log[i] == full[b..][i] == full[b + i];
    TermsPositive(u, h, full);
  }

  lemma FinalsOf(u: Setup, h: History, n: Core)
    requires Good(u, h, n)
    ensures FinalsFollowCommit(Full(h, n.state), n.state.commit)
    ensures n.state.snapshot.index == 0 ==> n.state.snapshot.term == 0
  {
    hide Fold, CommitPoint;
  }

  lemma StoredEntryValid(u: Setup, h: History, n: Core, i: nat)
    requires SetupOK(u) && HistoryOK(u, h) && Good(u, h, n) && WF(u, n)
    requires i < |n.state.log|
    ensures ValidEntry(u, n.state, i)
  {
    hide HistoryOK, SetupOK, Good, Full, LogOK, LegalAt, Fold;
    var x := n.state.snapshot.index + i;
    FullEntry(u, h, n, i);
    assert n.state.log[i].index == x + 1;
    assert LegalAt(u, BaseMembership(u, n.state), n.state.log, i);
    if x > 0 {
      TermsMonotone(u, h, Full(h, n.state), x - 1, x);
    }
  }

  /** RESTART IS NEVER REFUSED: whatever a node stored passes the check that a restart makes of it. */
  lemma StoredStateValid(u: Setup, h: History, n: Core, applied: nat)
    requires SetupOK(u) && HistoryOK(u, h) && Good(u, h, n) && applied <= n.state.commit
    ensures ValidState(u, n.state, applied)
  {
    hide CoreOK, NodeOK, HistoryOK, SetupOK, Full, ValidSnapshot, ValidEntry;
    GoodIsWF(u, h, n);
    LogFits(u, h, n);
    StoredSnapshotValid(u, h, n);
    forall i | 0 <= i < |n.state.log|
      ensures ValidEntry(u, n.state, i)
    {
      StoredEntryValid(u, h, n, i);
    }
  }

  /** What a restarted node first does brings its application up to its commit index. */
  lemma StartOK(u: Setup, h: History, id: NodeID, s: Store)
    requires SetupOK(u) && HistoryOK(u, h) && StoreOK(u, h, id, s)
    requires s.state.commit <= s.state.LastIndex()
    ensures var (core, effects) := Start(Fresh(u, id, s.state, s.applied));
      && core == Recovered(u, id, s.state)
      && EffectsOK(u, h, id, effects)
      && Delivered(effects, s.applied) == Some(core.applied)
  {
    hide HistoryOK, SetupOK, EffectsOK, Delivered, Unapplied, SnapshotOK, AppliedOK, LogOK, Full;
    var r := Recovered(u, id, s.state);
    GoodParts(u, h, r);
    var behind := s.applied < s.state.snapshot.index;
    var n1 := Fresh(u, id, s.state, if behind then s.state.snapshot.index else s.applied);
    assert View(h, r) == View(h, n1.(applied := s.state.commit));
    ApplyOK(u, h, n1);
    var restore := if behind then [RestoreSnapshot(s.state.snapshot)] else [];
    var timer := if r.membership.IsVoter(id) then [ResetElectionTimer] else [];
    if behind {
      RestoreDelivers(u, h, id, s.state.snapshot, s.applied);
    } else {
      NoEffects(u, h, id, s.applied);
    }
    NoEffects(u, h, id, r.applied);
    TimerOK(u, h, id, ResetElectionTimer);
    if timer != [] {
      QuietDelivers(timer, r.applied);
    }
    DeliveredConcat(restore, Unapplied(n1), s.applied);
    DeliveredConcat(restore + Unapplied(n1), timer, s.applied);
    EffectsConcat(u, h, id, restore, Unapplied(n1));
    EffectsConcat(u, h, id, restore + Unapplied(n1), timer);
  }

  lemma EffectsConcat(u: Setup, h: History, id: NodeID, a: seq<Effect>, b: seq<Effect>)
    requires EffectsOK(u, h, id, a) && EffectsOK(u, h, id, b)
    ensures EffectsOK(u, h, id, a + b)
  {
    hide EffectOK;
  }

  lemma BootOK(u: Setup, h: History, id: NodeID, s: Store)
    requires SetupOK(u) && HistoryOK(u, h) && StoreOK(u, h, id, s)
    ensures TurnOK(u, h, h, id, Down(s), Boot(u, id, s))
  {
    hide HistoryOK, SetupOK, EffectsOK, Delivered, Good, AppliedOK, Start, ValidSnapshot, ValidEntry, Perform, GrowsBy, Carries, SentIn;
    var r := Recovered(u, id, s.state);
    GoodParts(u, h, r);
    StoredStateValid(u, h, r, s.applied);
    StartOK(u, h, id, s);
    NoGrowth(h, id);
    var (core, effects) := Start(Fresh(u, id, s.state, s.applied));
    var p := Up(Node(core, 1, None), Idle, [], false, s);
    PerformOK(u, h, p, id, effects, core.applied);
    StartCarries(Fresh(u, id, s.state, s.applied));
    PerformSends(u, h, id, p, effects, s.state.term, s.state.snapshot);
    DeliveredMonotone(effects, s.applied);
    IdleWhole(u, h, id, Perform(p, effects).process);
  }
}

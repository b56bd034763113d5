/**
 * A process with its write barrier and its mailbox behaves like a node that takes its inputs one
 * after another: none is lost, repeated or overtaken, and what it sends is what they ask for.
 */
module Mailbox {
  import opened RaftTypes
  import opened NodeSpec
  import opened NodeRefinement
  import opened RaftHistory
  import opened RaftActions
  import opened Validation
  import opened ClusterSpec
  import opened ClusterInvariant
  import opened ClusterSafety
  import opened Vouching
  import opened Answers

  /** What happened to a process since it last started: how it started, what it was given, and what it sent. */
  datatype Story = Story(first: Core, begun: seq<Effect>, given: seq<Input>, sent: seq<Message>)

  function GivenIn(action: Action): seq<Input> {
    match action
    case Deliver(m) => [Receive(m)]
    case Ask(_, input) => [input]
    case _ => []
  }

  /** The story of a process up to moment i of a run. */
  ghost function StoryOf(u: Setup, run: seq<Cluster>, actions: seq<Action>, id: NodeID, i: nat): Option<Story>
    requires Performs(u, run, actions) && i < |run|
  {
    if i == 0 then None
    else
      var before, action := StoryOf(u, run, actions, id, i - 1), actions[i - 1];
      if Actor(action) != id then before
      else
        var sent := TurnOf(u, run[i - 1], action).sent;
        if action.Restart? then
          var store := run[i - 1].processes[id].store;
          if store.state.commit > store.state.LastIndex() then None
          else
            var (first, begun) := Start(Fresh(u, id, store.state, store.applied));
            Some(Story(first, begun, [], sent))
        else if before.None? then None
        else Some(before.value.(given := before.value.given + GivenIn(action), sent := before.value.sent + sent))
  }

  /** The messages that wait for the outstanding write. */
  function Waiting(p: Process): seq<Message>
    requires p.Up?
  {
    if p.node.pending.Some? then Messages(p.node.pending.value.effects) else []
  }

  /** The node is where these inputs take it, one after another, and what they ask to send was sent or waits. */
  ghost predicate Tally(u: Setup, first: Core, begun: seq<Effect>, handled: seq<Input>, sent: seq<Message>, p: Process) {
    && p.Up?
    && Serial(u, first, handled).Some?
    && Serial(u, first, handled).value.0 == p.node.core
    && Messages(begun + Serial(u, first, handled).value.1) == sent + Waiting(p)
  }

  predicate Plain(inputs: seq<Input>) {
    forall i | 0 <= i < |inputs| :: !inputs[i].Persisted?
  }

  lemma {:induction false} PerformExactly(p: Process, effects: seq<Effect>)
    requires p.Up? && Perform(p, effects).fault.None?
    ensures var t := Perform(p, effects);
      t.sent == Messages(effects) && t.process.node == p.node && t.process.mailbox == p.mailbox
      && t.process.crashAfterPersist == p.crashAfterPersist
  {
    if effects != [] {
      PerformExactly(p, effects[..|effects| - 1]);
    }
  }

  lemma SerialStep(u: Setup, first: Core, handled: seq<Input>, input: Input)
    ensures var before, after := Serial(u, first, handled), Serial(u, first, handled + [input]);
      if before.None? then after.None?
      else if Obsolete(before.value.0, input) then after == before
      else if Boundary(before.value.0) > before.value.0.applied then after.None?
      else
        var out := React(u, before.value.0, input);
        if out.Failed? then after.None? else after == Some((out.node, before.value.1 + out.effects))
  {
    hide React;
    assert (handled + [input])[..|handled|] == handled;
  }

  lemma TallyMessages(begun: seq<Effect>, done: seq<Effect>, more: seq<Effect>)
    ensures Messages(begun + (done + more)) == Messages(begun + done) + Messages(more)
  {
    assert begun + (done + more) == begun + done + more;
    MessagesConcat(begun + done, more);
  }

  /** An input that is not kept waiting. */
  lemma SubmitTally(u: Setup, first: Core, begun: seq<Effect>, handled: seq<Input>, sent: seq<Message>, p: Process, input: Input)
    requires Tally(u, first, begun, handled, sent, p) && p.node.pending.None? && !input.Persisted?
    requires Submit(u, p, input).fault.None?
    ensures var t := Submit(u, p, input);
      Tally(u, first, begun, handled + [input], sent + t.sent, t.process) && t.process.mailbox == p.mailbox
      && t.process.crashAfterPersist == p.crashAfterPersist
  {
    hide React, Perform, Messages, Serial;
    SerialStep(u, first, handled, input);
    var n := p.node.core;
    if Obsolete(n, input) {
      assert sent + [] == sent;
    } else {
      var out, r := React(u, n, input), Advance(u, p.node, input);
      assert r.Stepped?;
      PerformExactly(p.(node := r.node), r.effects);
      TallyMessages(begun, Serial(u, first, handled).value.1, out.effects);
      if out.dirty {
        MessageAlone(r.effects[0]);
        assert sent + [] == sent;
      } else {
        assert sent + [] + Messages(out.effects) == sent + Messages(out.effects) + [];
      }
    }
  }

  /** The mailbox, in order, up to where a write is outstanding again. */
  lemma {:induction false} DrainTally(u: Setup, first: Core, begun: seq<Effect>, handled: seq<Input>, sent: seq<Message>, p: Process) returns (j: nat)
    requires Tally(u, first, begun, handled, sent, p) && Plain(p.mailbox) && Drain(u, p).fault.None?
    ensures j <= |p.mailbox|
    ensures var t := Drain(u, p);
      && Tally(u, first, begun, handled + p.mailbox[..j], sent + t.sent, t.process)
      && t.process.mailbox == p.mailbox[j..]
      && (t.process.node.pending.None? ==> t.process.mailbox == [])
      && t.process.crashAfterPersist == p.crashAfterPersist
    decreases if p.Up? then |p.mailbox| else 0
  {
    hide Submit, Serial, Messages;
    if p.node.pending.Some? || p.mailbox == [] {
      j := 0;
      assert handled + p.mailbox[..0] == handled && sent + [] == sent && p.mailbox[0..] == p.mailbox;
    } else {
      var p1 := p.(mailbox := p.mailbox[1..]);
      var t := Submit(u, p1, p.mailbox[0]);
      SubmitTally(u, first, begun, handled, sent, p1, p.mailbox[0]);
      var k := DrainTally(u, first, begun, handled + [p.mailbox[0]], sent + t.sent, t.process);
      j := k + 1;
      assert p.mailbox[1..][..k] == p.mailbox[1..j] && p.mailbox[1..][k..] == p.mailbox[j..];
      assert handled + [p.mailbox[0]] + p.mailbox[1..j] == handled + p.mailbox[..j];
      assert sent + t.sent + Drain(u, t.process).sent == sent + (t.sent + Drain(u, t.process).sent);
    }
  }

  lemma AcknowledgeTally(u: Setup, first: Core, begun: seq<Effect>, handled: seq<Input>, sent: seq<Message>, p: Process) returns (j: nat)
    requires Tally(u, first, begun, handled, sent, p) && Plain(p.mailbox) && p.stage.Stored? && Acknowledge(u, p).fault.None?
    ensures j <= |p.mailbox|
    ensures var t := Acknowledge(u, p);
      && Tally(u, first, begun, handled + p.mailbox[..j], sent + t.sent, t.process)
      && t.process.mailbox == p.mailbox[j..]
      && (t.process.node.pending.None? ==> t.process.mailbox == [])
      && t.process.crashAfterPersist == p.crashAfterPersist
  {
    hide Drain, Serial, Messages, Perform, React;
    var r := Advance(u, p.node, Persisted(p.stage.token));
    assert r.Stepped? && r.node == p.node.(pending := None) && r.effects == p.node.pending.value.effects;
    var p1 := p.(node := r.node, stage := Idle);
    PerformExactly(p1, r.effects);
    var t := Perform(p1, r.effects);
    assert sent + t.sent + [] == sent + t.sent;
    j := DrainTally(u, first, begun, handled, sent + t.sent, t.process);
    assert sent + t.sent + Drain(u, t.process).sent == sent + (t.sent + Drain(u, t.process).sent);
  }

  // ----- over runs -----

  /** The first k inputs were handled; the rest is the mailbox, which is empty unless a write is outstanding. */
  ghost predicate HandledUpTo(u: Setup, s: Story, p: Process, k: nat) {
    && k <= |s.given| && Tally(u, s.first, s.begun, s.given[..k], s.sent, p)
    && p.mailbox == s.given[k..]
    && (p.node.pending.None? ==> p.mailbox == [])
  }

  ghost predicate Follows(u: Setup, s: Story, p: Process) {
    Plain(s.given) && exists k: nat :: HandledUpTo(u, s, p, k)
  }

  lemma GivenFollows(u: Setup, s: Story, p: Process, input: Input)
    requires p.Up? && Follows(u, s, p) && !input.Persisted? && Submit(u, p, input).fault.None?
    ensures Follows(u, s.(given := s.given + [input], sent := s.sent + Submit(u, p, input).sent), Submit(u, p, input).process)
  {
    hide Serial, Messages, React, Perform;
    var k: nat :| HandledUpTo(u, s, p, k);
    var t := Submit(u, p, input);
    var s1 := s.(given := s.given + [input], sent := s.sent + t.sent);
    assert s1.given[..k] == s.given[..k];
    if p.node.pending.Some? {
      assert s.given[k..] + [input] == s1.given[k..];
      assert s.sent + [] == s.sent;
      assert HandledUpTo(u, s1, t.process, k);
    } else {
      assert k == |s.given| by { assert |s.given[k..]| == 0; }
      assert s.given[..k] == s.given;
      SubmitTally(u, s.first, s.begun, s.given, s.sent, p, input);
      assert s1.given[..k + 1] == s1.given && s1.given[k + 1..] == [];
      assert HandledUpTo(u, s1, t.process, k + 1);
    }
  }

  lemma AcknowledgedFollows(u: Setup, s: Story, p: Process)
    requires p.Up? && Follows(u, s, p) && p.stage.Stored? && Acknowledge(u, p).fault.None?
    ensures Follows(u, s.(sent := s.sent + Acknowledge(u, p).sent), Acknowledge(u, p).process)
  {
    hide Serial, Messages, React, Acknowledge;
    var k: nat :| HandledUpTo(u, s, p, k);
    assert Plain(p.mailbox);
    var j := AcknowledgeTally(u, s.first, s.begun, s.given[..k], s.sent, p);
    var t := Acknowledge(u, p);
    assert s.given[..k] + s.given[k..][..j] == s.given[..k + j] && s.given[k..][j..] == s.given[k + j..];
    assert HandledUpTo(u, s.(sent := s.sent + t.sent), t.process, k + j);
  }

  lemma StartedFollows(u: Setup, id: NodeID, store: Store)
    requires Boot(u, id, store).fault.None?
    ensures store.state.commit <= store.state.LastIndex()
    ensures var t := Boot(u, id, store);
      var (first, begun) := Start(Fresh(u, id, store.state, store.applied));
      t.process.Up? && Follows(u, Story(first, begun, [], t.sent), t.process) && !t.process.crashAfterPersist
  {
    hide Messages, Perform, Start, ValidSnapshot, ValidEntry, MembershipAt;
    var (first, begun) := Start(Fresh(u, id, store.state, store.applied));
    var p := Up(Node(first, 1, None), Idle, [], false, store);
    PerformExactly(p, begun);
    var t := Perform(p, begun);
    assert begun + [] == begun && Messages(begun) + [] == Messages(begun);
    var s := Story(first, begun, [], t.sent);
    assert s.given[..0] == [] && Serial(u, first, []) == Some((first, []));
    assert HandledUpTo(u, s, t.process, 0);
  }

  lemma SameFollows(u: Setup, s: Story, p: Process, p1: Process)
    requires p.Up? && Follows(u, s, p) && p1.Up? && p1.node == p.node && p1.mailbox == p.mailbox
    ensures Follows(u, s.(given := s.given + [], sent := s.sent + []), p1)
  {
    hide Serial, Messages;
    var k: nat :| HandledUpTo(u, s, p, k);
    assert s.given + [] == s.given && s.sent + [] == s.sent;
    assert HandledUpTo(u, s, p1, k);
  }

  /** A crash was armed since the process last started. */
  function Armed(actions: seq<Action>, id: NodeID): bool {
    if actions == [] then false
    else
      var last := actions[|actions| - 1];
      if last == ArmCrash(id) then true
      else if last == Restart(id) then false
      else Armed(actions[..|actions| - 1], id)
  }

  ghost predicate Told(u: Setup, run: seq<Cluster>, actions: seq<Action>, id: NodeID, i: nat)
    requires Performs(u, run, actions) && i < |run| && IsUp(run[i], id)
  {
    var s := StoryOf(u, run, actions, id, i);
    && s.Some? && Follows(u, s.value, run[i].processes[id])
    && run[i].processes[id].crashAfterPersist == Armed(actions[..i], id)
  }

  lemma TurnTold(u: Setup, run: seq<Cluster>, actions: seq<Action>, id: NodeID, i: nat)
    requires Performs(u, run, actions) && 0 < i < |run| && Actor(actions[i - 1]) == id
    requires run[i].fault.None? && IsUp(run[i], id)
    requires IsUp(run[i - 1], id) ==> Told(u, run, actions, id, i - 1)
    ensures Told(u, run, actions, id, i)
  {
    hide Follows, Acknowledge, Submit, Boot, CompleteWrite;
    var action := actions[i - 1];
    assert Enabled(run[i - 1], action) && run[i] == After(u, run[i - 1], action);
    assert actions[..i][..i - 1] == actions[..i - 1] && actions[..i][i - 1] == action;
    var p := run[i - 1].processes[id];
    var t := TurnOf(u, run[i - 1], action);
    assert t.fault.None? && run[i].processes[id] == t.process;
    if action.Restart? {
      StartedFollows(u, id, p.store);
    } else {
      var s := StoryOf(u, run, actions, id, i - 1).value;
      match action
      case Deliver(m) =>
        GivenFollows(u, s, p, Receive(m));
        SubmitArmed(u, p, Receive(m));
      case Ask(_, input) =>
        GivenFollows(u, s, p, input);
        SubmitArmed(u, p, input);
      case WriteDone(_) => StoredFollows(u, s, p);
      case AckDone(_) =>
        assert s.given + [] == s.given;
        AcknowledgedFollows(u, s, p);
        AcknowledgeArmed(u, s, p);
      case ArmCrash(_) => SameFollows(u, s, p, t.process);
      case Crash(_) =>
      case Restart(_) =>
    }
  }

  lemma StoredFollows(u: Setup, s: Story, p: Process)
    requires p.Up? && Follows(u, s, p) && p.stage.Writing? && CompleteWrite(p).Up?
    ensures Follows(u, s.(given := s.given + [], sent := s.sent + []), CompleteWrite(p))
    ensures CompleteWrite(p).crashAfterPersist == p.crashAfterPersist
  {
    SameFollows(u, s, p, CompleteWrite(p));
  }

  lemma SubmitArmed(u: Setup, p: Process, input: Input)
    requires p.Up? && Submit(u, p, input).fault.None?
    ensures Submit(u, p, input).process.crashAfterPersist == p.crashAfterPersist
  {
    hide Perform, Advance, Current;
    if p.node.pending.None? && Current(p.node.core, input) && Advance(u, p.node, input).Stepped? {
      var r := Advance(u, p.node, input);
      PerformExactly(p.(node := r.node), r.effects);
    }
  }

  lemma AcknowledgeArmed(u: Setup, s: Story, p: Process)
    requires p.Up? && Follows(u, s, p) && p.stage.Stored? && Acknowledge(u, p).fault.None?
    ensures Acknowledge(u, p).process.crashAfterPersist == p.crashAfterPersist
  {
    hide Serial, Messages, React, Acknowledge;
    var k: nat :| HandledUpTo(u, s, p, k);
    var j := AcknowledgeTally(u, s.first, s.begun, s.given[..k], s.sent, p);
  }

  /**
   * NOTHING IS LOST OR OVERTAKEN: at every moment of every run, as long as no event met an error, a
   * running process is where a node comes to that takes the inputs given to it since its start one
   * after another, but for those in its mailbox, which wait behind an outstanding write; and what
   * it sent is what they ask for, but for what waits for that write.
   */
  lemma {:induction false} HandledInOrder(u: Setup, run: seq<Cluster>, actions: seq<Action>, id: NodeID, i: nat)
    requires Performs(u, run, actions) && i < |run| && run[i].fault.None? && IsUp(run[i], id)
    ensures StoryOf(u, run, actions, id, i).Some?
    ensures var s, p := StoryOf(u, run, actions, id, i).value, run[i].processes[id];
      exists k: nat {:trigger s.given[..k]} :: k <= |s.given|
        && p.mailbox == s.given[k..] && (p.node.pending.None? ==> p.mailbox == [])
        && var end := Serial(u, s.first, s.given[..k]);
           && end.Some? && end.value.0 == p.node.core
           && Messages(s.begun + end.value.1) == s.sent + Waiting(p)
  {
    TellsTrue(u, run, actions, id, i);
    var s, p := StoryOf(u, run, actions, id, i).value, run[i].processes[id];
    var k: nat :| HandledUpTo(u, s, p, k);
    assert s.given[..k] == s.given[..k];
  }

  lemma {:induction false} TellsTrue(u: Setup, run: seq<Cluster>, actions: seq<Action>, id: NodeID, i: nat)
    requires Performs(u, run, actions) && i < |run| && run[i].fault.None? && IsUp(run[i], id)
    ensures Told(u, run, actions, id, i)
  {
    hide TurnOf, Follows;
    if i > 0 {
      var action := actions[i - 1];
      assert Enabled(run[i - 1], action) && run[i] == After(u, run[i - 1], action);
      assert run[i - 1].fault.None?;
      if IsUp(run[i - 1], id) {
        TellsTrue(u, run, actions, id, i - 1);
      }
      if Actor(action) == id {
        TurnTold(u, run, actions, id, i);
      } else {
        assert actions[..i][..i - 1] == actions[..i - 1] && actions[..i][i - 1] == action;
      }
    }
  }

  /** What a process sent is in the network. */
  lemma {:induction false} SentIsOut(u: Setup, run: seq<Cluster>, actions: seq<Action>, id: NodeID, i: nat)
    requires Performs(u, run, actions) && i < |run| && StoryOf(u, run, actions, id, i).Some?
    ensures forall m | m in StoryOf(u, run, actions, id, i).value.sent :: m in run[i].network
  {
    hide TurnOf, Start;
    if i > 0 {
      var action := actions[i - 1];
      assert Enabled(run[i - 1], action) && run[i] == After(u, run[i - 1], action);
      if StoryOf(u, run, actions, id, i - 1).Some? {
        SentIsOut(u, run, actions, id, i - 1);
      }
    }
  }

  /**
   * A WRITE REACHES THE STORE whole; the process survives it exactly if no crash was armed since it
   * started, and then goes on where it was.
   */
  lemma WriteReachesStore(u: Setup, run: seq<Cluster>, actions: seq<Action>, id: NodeID, i: nat)
    requires SetupOK(u) && Performs(u, run, actions) && i < |actions| && actions[i] == WriteDone(id) && run[i].fault.None?
    ensures IsUp(run[i], id) && id in run[i + 1].processes
    ensures var p, p1 := run[i].processes[id], run[i + 1].processes[id];
      && p1.store == p.store.(state := p.node.core.state)
      && (p1.Up? <==> !Armed(actions[..i], id))
      && (p1.Up? ==> p1.node == p.node && p1.mailbox == p.mailbox && p1.stage.Stored?)
  {
    hide TurnOf, Follows, SetupOK, ProcessOK, ClusterOK;
    assert Enabled(run[i], actions[i]) && run[i + 1] == After(u, run[i], actions[i]);
    TellsTrue(u, run, actions, id, i);
    PerformedIsRun(u, run, actions);
    var hs := RunOK(u, run);
    assert ClusterOK(u, hs[i], run[i]);
    WritesItsState(u, hs[i], run[i], id);
    WriteTurn(u, run[i], id);
  }

  /** A CRASH loses an outstanding write and the mailbox, and nothing that is stored or sent. */
  lemma CrashesExactly(u: Setup, run: seq<Cluster>, actions: seq<Action>, id: NodeID, i: nat)
    requires Performs(u, run, actions) && i < |actions| && actions[i] == Crash(id)
    ensures IsUp(run[i], id) && run[i + 1].processes == run[i].processes[id := Down(run[i].processes[id].store)]
    ensures run[i + 1].network == run[i].network && run[i + 1].fault == run[i].fault
  {
    assert Enabled(run[i], actions[i]) && run[i + 1] == After(u, run[i], actions[i]);
  }

  lemma WriteTurn(u: Setup, c: Cluster, id: NodeID)
    requires Enabled(c, WriteDone(id))
    ensures TurnOf(u, c, WriteDone(id)).process == CompleteWrite(c.processes[id])
  {
  }

  lemma WritesItsState(u: Setup, h: History, c: Cluster, id: NodeID)
    requires ClusterOK(u, h, c) && IsUp(c, id) && c.processes[id].stage.Writing?
    ensures c.processes[id].stage.state == c.processes[id].node.core.state
  {
    hide ProcessOK, HistoryOK, MessageOK;
    ProcessIsOK(u, h, c, id);
    var before, input := WritingParts(u, h, id, c.processes[id]);
  }
}

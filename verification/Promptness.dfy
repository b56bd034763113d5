/**
 * Leaders commit promptly: at no moment of a run does a leader hold back an entry that its records
 * allow it to commit.
 */
module Promptness {
  import opened RaftTypes
  import opened Configuration
  import opened RaftHistory
  import opened RaftActions
  import opened NodeSpec
  import opened NodeRefinement
  import opened LeaderProofs
  import opened NodeProofs
  import opened Validation
  import opened ClusterSpec
  import opened ClusterInvariant
  import opened ClusterSafety
  import opened ClusterTheorems
  import opened Checkpoints
  import opened Vouching
  import opened Compaction
  import opened Answers
  import opened Replication
  import opened Requests

  /** An entry of the leader's own term that it has on record as held by a quorum of the configuration at it. */
  ghost predicate Overdue(u: Setup, n: Core, k: nat) {
    && n.state.commit < k <= LastIndex(n)
    && TermAt(n.state, k) == n.state.term
    && Quorum(MembershipAt(u, n.state, k), set x | x in n.matchIndex && n.matchIndex[x] >= k)
  }

  ghost predicate Prompt(u: Setup, n: Core) {
    n.role.Leader? ==> forall k: nat {:trigger Overdue(u, n, k)} :: !Overdue(u, n, k)
  }

  lemma OverdueIsCommittable(u: Setup, n: Core, k: nat)
    ensures Overdue(u, n, k) <==> n.state.commit < k <= LastIndex(n) && Committable(u, n, k)
  {
    hide Quorum, TermAt, MembershipAt;
    assert MatchedNodes(n, k) == set x | x in n.matchIndex && n.matchIndex[x] >= k;
  }

  lemma AdvancePrompt(u: Setup, n: Core)
    requires Boundary(n) <= n.applied
    ensures Prompt(u, AdvanceCommit(u, n).0)
  {
    hide Overdue, Committable, Unapplied, HighestCommittable, LastIndex;
    var n1 := AdvanceCommit(u, n).0;
    HighestCommittableBounds(u, n, LastIndex(n));
    if n1.role.Leader? {
      CommitAmountOnly(u, n);
      forall k: nat
        ensures !Overdue(u, n1, k)
      {
        OverdueIsCommittable(u, n1, k);
        SameCommittable(u, n, n1, k);
      }
    }
  }

  /** Only the log, the records, the term and the commit index matter. */
  lemma StaysPrompt(u: Setup, n: Core, n1: Core)
    requires Prompt(u, n) && n1.role == n.role && n1.matchIndex == n.matchIndex
    requires n1.state == n.state.(votedFor := n1.state.votedFor)
    ensures Prompt(u, n1)
  {
    hide Quorum, Fold;
    forall k: nat | n1.role.Leader?
      ensures !Overdue(u, n1, k)
    {
      assert !Overdue(u, n, k);
    }
  }

  lemma PublishPrompt(u: Setup, n: Core)
    requires Boundary(n) <= n.applied
    ensures Prompt(u, Publish(u, n).node)
  {
    hide AdvanceCommit, BroadcastAppend, Prompt;
    AdvancePrompt(u, n);
    BroadcastKeeps(AdvanceCommit(u, n).0, u.members);
    StaysPrompt(u, AdvanceCommit(u, n).0, BroadcastAppend(AdvanceCommit(u, n).0, u.members).0);
  }

  lemma WinnerPrompt(u: Setup, n: Core)
    requires Boundary(n) <= n.applied && !n.role.Leader?
    ensures Prompt(u, BecomeLeader(u, n).node)
  {
    hide AdvanceCommit, BroadcastAppend, Filled, Overdue;
    var n1 := Crowned(u, n);
    AdvancePrompt(u, n1);
    BroadcastKeeps(AdvanceCommit(u, n1).0, u.members);
    StaysPrompt(u, AdvanceCommit(u, n1).0, BroadcastAppend(AdvanceCommit(u, n1).0, u.members).0);
  }

  lemma AckPrompt(u: Setup, n: Core, from: NodeID, upTo: nat)
    requires Boundary(n) <= n.applied
    ensures AfterAck(u, n, from, upTo).Done? && Prompt(u, AfterAck(u, n, from, upTo).node)
  {
    hide AdvanceCommit, AppendFor, Prompt, LastIndex;
    var n0 := RecordMatch(n, from, upTo);
    RecordKeeps(n, from, upTo);
    AdvancePrompt(u, n0);
    var n1 := AdvanceCommit(u, n0).0;
    StaysPrompt(u, n1, Sequenced(n1, from));
  }

  /** A leader that compacts has the same log, as far as it is not committed. */
  lemma CompactPrompt(u: Setup, h: History, n: Core, index: nat, data: Bytes)
    requires SetupOK(u) && HistoryOK(u, h) && Good(u, h, n) && Prompt(u, n)
    ensures Prompt(u, Compact(u, n, index, data).node)
  {
    hide SetupOK, HistoryOK, Good, Quorum, TermAt, MembershipAt, EntriesFrom, Twin, WF;
    var out := Compact(u, n, index, data);
    GoodParts(u, h, n);
    if out.Done? && n.role.Leader? {
      GoodIsWF(u, h, n);
      LogFits(u, h, n);
      CompactionMakesTwins(u, n, index, data);
      forall k: nat
        ensures !Overdue(u, out.node, k)
      {
        assert !Overdue(u, n, k);
        if k > n.state.commit {
          TwinsAgree(u, n, out.node, k);
        }
      }
    }
  }

  lemma DispatchPrompt(u: Setup, n: Core, m: Message)
    requires Boundary(n) <= n.applied && Prompt(u, n) && m.term <= n.state.term
    ensures Prompt(u, Dispatch(u, n, m).node)
  {
    hide Overdue, AdvanceCommit, BroadcastAppend, AppendFor, AfterAck, BecomeLeader, Quorum, LastIndex, AcceptEntries, TermAt, MembershipAt,
      FirstInvalid, Merge, AcceptableSnapshot, ChainOK, SuffixAfter, Dispatch, RejectHint, GrantsVote;
    DispatchesTo(u, n, m);
    match m
    case RequestVote(_, _, _, _, _) => StaysPrompt(u, n, HandleRequestVote(n, m).node);
    case RequestVoteResponse(_, _, _, _) =>
      if n.role.Candidate? {
        WinnerPrompt(u, n.(votes := n.votes + {m.from}));
      }
    case AppendEntries(_, _, _, _, _, _, _, _) => FollowerPrompt(u, n, m);
    case AppendEntriesResponse(_, _, _, _, _, _, _) =>
      AckPrompt(u, n, m.from, m.matchIndex);
      if !m.success && n.role.Leader? && m.term == n.state.term { StaysPrompt(u, n, HandleAppendEntriesResponse(u, n, m).node); }
    case InstallSnapshot(_, _, _, _, _) => FollowerPrompt(u, n, m);
    case InstallSnapshotResponse(_, _, _, _, _, _) => AckPrompt(u, n, m.from, m.matchIndex);
  }

  lemma FollowerPrompt(u: Setup, n: Core, m: Message)
    requires Boundary(n) <= n.applied && m.term <= n.state.term && (m.AppendEntries? || m.InstallSnapshot?)
    ensures Dispatch(u, n, m).node == n || Dispatch(u, n, m).node.role.Follower?
  {
    hide Dispatch, TermAt, MembershipAt, FirstInvalid, Merge, FirstNew, ConfigsLegal, AcceptableSnapshot, SuffixAfter, ChainOK, BaseMembership,
      RejectHint, LastIndex, Unapplied;
    DispatchesTo(u, n, m);
  }

  lemma MessagePrompt(u: Setup, n: Core, m: Message)
    requires Boundary(n) <= n.applied && Prompt(u, n)
    ensures Prompt(u, React(u, n, Receive(m)).node)
  {
    hide Overdue, Dispatch, React;
    if Routed(u, n, m) {
      Dispatched(u, n, m);
      var n1 := if m.term > n.state.term then BecomeFollower(n, m.term, NO_NODE) else n;
      DispatchPrompt(u, n1, m);
    } else {
      NotRouted(u, n, m);
    }
  }

  lemma NotRouted(u: Setup, n: Core, m: Message)
    requires Boundary(n) <= n.applied && !Routed(u, n, m)
    ensures React(u, n, Receive(m)) == Failed(n, InvalidInput)
  {
    hide Dispatch;
  }

  /** No input leaves a leader with something to commit. */
  lemma ReactPrompt(u: Setup, h: History, n: Core, input: Input)
    requires SetupOK(u) && HistoryOK(u, h) && Good(u, h, n) && Boundary(n) <= n.applied && Prompt(u, n)
    requires !Obsolete(n, input)
    ensures Prompt(u, React(u, n, input).node)
  {
    hide SetupOK, HistoryOK, Good, Prompt, React, Compact, StartElection, HandleProposal, HandleBeginMembership, HandleFinalizeMembership;
    match input
    case ElectionTimeout => CampaignPrompt(u, n);
    case HeartbeatTimeout => HeartbeatPrompt(u, n);
    case Receive(m) => MessagePrompt(u, n, m);
    case Propose(_) => RequestPrompt(u, n, input);
    case Persisted(_) => RequestPrompt(u, n, input);
    case TakeSnapshot(index, data) =>
      CompactPrompt(u, h, n, index, data);
      assert React(u, n, input) == Compact(u, n, index, data) by { TakesSnapshot(u, n, index, data); }
    case BeginMembership(_, _) => RequestPrompt(u, n, input);
    case FinalizeMembership => RequestPrompt(u, n, input);
  }

  lemma TakesSnapshot(u: Setup, n: Core, index: nat, data: Bytes)
    requires Boundary(n) <= n.applied
    ensures React(u, n, TakeSnapshot(index, data)) == Compact(u, n, index, data)
  {
    hide Compact;
  }

  lemma CampaignPrompt(u: Setup, n: Core)
    requires Boundary(n) <= n.applied && !n.role.Leader?
    ensures Prompt(u, React(u, n, ElectionTimeout).node)
  {
    hide BecomeLeader, Quorum, VoterUnion, LastIndex, Overdue;
    WinnerPrompt(u, Candidacy(n));
  }

  lemma HeartbeatPrompt(u: Setup, n: Core)
    requires Boundary(n) <= n.applied && n.role.Leader? && Prompt(u, n)
    ensures Prompt(u, React(u, n, HeartbeatTimeout).node)
  {
    hide BroadcastAppend, Overdue;
    BroadcastKeeps(n, u.members);
    StaysPrompt(u, n, BroadcastAppend(n, u.members).0);
  }

  lemma RequestPrompt(u: Setup, n: Core, input: Input)
    requires Boundary(n) <= n.applied && Prompt(u, n)
    requires !input.ElectionTimeout? && !input.HeartbeatTimeout? && !input.Receive? && !input.TakeSnapshot?
    ensures Prompt(u, React(u, n, input).node)
  {
    hide React, Publish, Prompt;
    if React(u, n, input).Done? {
      var n0 := RequestPublishes(u, n, input);
      PublishPrompt(u, n0);
    } else {
      RequestFails(u, n, input);
    }
  }

  lemma RequestFails(u: Setup, n: Core, input: Input)
    requires Boundary(n) <= n.applied && React(u, n, input).Failed?
    requires !input.ElectionTimeout? && !input.HeartbeatTimeout? && !input.Receive? && !input.TakeSnapshot?
    ensures React(u, n, input).node == n
  {
    hide AdvanceCommit, BroadcastAppend, HasUncommittedConfiguration, TransitionMembership, ValidateMembership, StableMembership, MembershipAt,
      TermAt, LastIndex;
  }

  // ----- over runs -----

  ghost predicate PromptProcess(u: Setup, p: Process) {
    p.Up? ==> Prompt(u, p.node.core)
  }

  lemma SubmitPrompt(u: Setup, h: History, id: NodeID, p: Process, input: Input)
    requires SetupOK(u) && HistoryOK(u, h) && p.Up? && ProcessOK(u, h, id, p) && InputOK(u, h, input)
    requires PromptProcess(u, p)
    ensures PromptProcess(u, Submit(u, p, input).process)
  {
    hide SetupOK, HistoryOK, ProcessOK, Good, InputOK, React, Perform, Prompt, AppliedOK, MailOK;
    if p.node.pending.None? && Current(p.node.core, input) {
      IdleParts(u, h, id, p);
      ReactPrompt(u, h, p.node.core, input);
      var r := Advance(u, p.node, input);
      assert !input.Persisted? by { NotPersisted(u, h, input); }
      if r.Stepped? {
        PerformKeeps(p.(node := r.node), r.effects);
      }
    }
  }

  lemma NotPersisted(u: Setup, h: History, input: Input)
    requires InputOK(u, h, input)
    ensures !input.Persisted?
  {
  }

  lemma {:induction false} DrainPrompt(u: Setup, h: History, id: NodeID, p: Process)
    requires SetupOK(u) && HistoryOK(u, h) && p.Up? && ProcessOK(u, h, id, p) && PromptProcess(u, p)
    ensures PromptProcess(u, Drain(u, p).process)
    decreases if p.Up? then |p.mailbox| else 0
  {
    hide SetupOK, HistoryOK, ProcessOK, InputOK, Submit, GrowsBy, SentOK, SentIn, Prompt;
    if p.node.pending.None? && p.mailbox != [] {
      PopMail(u, h, id, p);
      var p1 := p.(mailbox := p.mailbox[1..]);
      var h1 := SubmitOK(u, h, id, p1, p.mailbox[0]);
      SubmitPrompt(u, h, id, p1, p.mailbox[0]);
      var t := Submit(u, p1, p.mailbox[0]);
      if t.fault.None? {
        DrainPrompt(u, h1, id, t.process);
      }
    }
  }

  lemma AcknowledgePrompt(u: Setup, h: History, id: NodeID, p: Process)
    requires SetupOK(u) && HistoryOK(u, h) && p.Up? && ProcessOK(u, h, id, p) && p.stage.Stored? && PromptProcess(u, p)
    ensures PromptProcess(u, Acknowledge(u, p).process)
  {
    hide SetupOK, HistoryOK, Good, EffectsOK, AppliedOK, MailOK, MessageOK, Delivered, Drain, React, Perform, Prompt, Carries;
    var core, effects := p.node.core, p.node.pending.value.effects;
    GoodParts(u, h, core);
    assert Advance(u, p.node, Persisted(p.stage.token)) == Stepped(p.node.(pending := None), effects);
    var p1 := p.(node := p.node.(pending := None), stage := Idle);
    PerformOK(u, h, p1, id, effects, core.applied);
    PerformKeeps(p1, effects);
    var t := Perform(p1, effects);
    IdleWhole(u, h, id, t.process);
    DrainPrompt(u, h, id, t.process);
  }

  lemma BootPrompt(u: Setup, id: NodeID, s: Store)
    ensures PromptProcess(u, Boot(u, id, s).process)
  {
    hide ValidEntry, ValidSnapshot, Perform, MembershipAt, Unapplied;
    if ValidState(u, s.state, s.applied) {
      var (core, effects) := Start(Fresh(u, id, s.state, s.applied));
      PerformKeeps(Up(Node(core, 1, None), ClusterSpec.Idle, [], false, s), effects);
    }
  }

  lemma TurnPrompt(u: Setup, h: History, c: Cluster, action: Action)
    requires SetupOK(u) && ClusterOK(u, h, c) && Enabled(c, action) && PromptProcess(u, c.processes[Actor(action)])
    ensures PromptProcess(u, TurnOf(u, c, action).process)
  {
    hide HistoryOK, SetupOK, ProcessOK, MessageOK, Submit, Acknowledge, Boot, Prompt;
    var id := Actor(action);
    var p := c.processes[id];
    ProcessIsOK(u, h, c, id);
    match action
    case Deliver(m) => SubmitPrompt(u, h, id, p, Receive(m));
    case Ask(_, input) => SubmitPrompt(u, h, id, p, input);
    case WriteDone(_) =>
    case AckDone(_) => AcknowledgePrompt(u, h, id, p);
    case ArmCrash(_) =>
    case Crash(_) =>
    case Restart(_) => BootPrompt(u, id, p.store);
  }

  lemma {:induction false} AlwaysPrompt(u: Setup, run: seq<Cluster>, i: nat)
    requires SetupOK(u) && IsRun(u, run) && i < |run|
    ensures forall id | id in run[i].processes :: PromptProcess(u, run[i].processes[id])
  {
    hide SetupOK, ClusterOK, Enabled, After, PromptProcess;
    if i == 0 {
      BeginsPrompt(u);
    } else {
      AlwaysPrompt(u, run, i - 1);
      assert NextAt(u, run, i);
      var hs := RunOK(u, run);
      assert ClusterOK(u, hs[i - 1], run[i - 1]);
      NextPrompt(u, hs[i - 1], run[i - 1], run[i]);
    }
  }

  lemma BeginsPrompt(u: Setup)
    ensures forall id | id in Provisioned(u).processes :: PromptProcess(u, Provisioned(u).processes[id])
  {
  }

  lemma NextPrompt(u: Setup, h: History, c: Cluster, c': Cluster)
    requires SetupOK(u) && ClusterOK(u, h, c) && Next(u, c, c')
    requires forall id | id in c.processes :: PromptProcess(u, c.processes[id])
    ensures forall id | id in c'.processes :: PromptProcess(u, c'.processes[id])
  {
    hide SetupOK, ClusterOK, TurnOf, PromptProcess;
    var action :| Enabled(c, action) && c' == After(u, c, action);
    TurnPrompt(u, h, c, action);
  }

  /**
   * LEADERS COMMIT PROMPTLY: at every moment of every run, a running leader has committed every entry
   * of its term that it has on record as held by a quorum of the configuration at it.
   */
  lemma LeadersCommitPromptly(u: Setup, run: seq<Cluster>, i: nat, id: NodeID, k: nat)
    requires SetupOK(u) && IsRun(u, run) && i < |run| && IsUp(run[i], id)
    requires var n := run[i].processes[id].node.core;
      && n.role.Leader? && Boundary(n) < k <= LastIndex(n)
      && n.state.log[k - Boundary(n) - 1].term == n.state.term
      && Quorum(MembershipAt(u, n.state, k), set x | x in n.matchIndex && n.matchIndex[x] >= k)
    ensures k <= run[i].processes[id].node.core.state.commit
  {
    hide SetupOK, IsRun, Quorum, MembershipAt;
    AlwaysPrompt(u, run, i);
    var n := run[i].processes[id].node.core;
    assert PromptProcess(u, run[i].processes[id]);
    assert !Overdue(u, n, k);
  }
}

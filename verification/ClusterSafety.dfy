/**
 * Safety over whole runs: any interleaving of deliveries, timers, client inputs, write
 * completions, acknowledgements, crashes and restarts, compaction and reconfiguration included.
 */
module ClusterSafety {
  import opened RaftTypes
  import opened Configuration
  import opened RaftHistory
  import opened LeaderCompleteness
  import opened RaftActions
  import opened NodeSpec
  import opened NodeRefinement
  import opened LeaderProofs
  import opened Validation
  import opened ClusterSpec
  import opened ClusterInvariant

  ghost predicate ProcessesOK(u: Setup, h: History, c: Cluster) {
    forall id {:trigger ProcessOK(u, h, id, c.processes[id])} | id in c.processes :: ProcessOK(u, h, id, c.processes[id])
  }

  ghost predicate NetworkOK(u: Setup, h: History, c: Cluster) {
    forall m {:trigger MessageOK(u, h, m)} | m in c.network :: MessageOK(u, h, m)
  }

  ghost predicate ClusterOK(u: Setup, h: History, c: Cluster) {
    HistoryOK(u, h) && ProcessesOK(u, h, c) && NetworkOK(u, h, c) && FaultOK(c.fault)
  }

  lemma ProcessIsOK(u: Setup, h: History, c: Cluster, id: NodeID)
    requires ClusterOK(u, h, c) && id in c.processes
    ensures ProcessOK(u, h, id, c.processes[id])
  {
  }

  // ----- one event -----

  lemma TurnOfOK(u: Setup, h: History, c: Cluster, action: Action) returns (h': History)
    requires SetupOK(u) && ClusterOK(u, h, c) && Enabled(c, action)
    ensures TurnOK(u, h, h', Actor(action), c.processes[Actor(action)], TurnOf(u, c, action))
  {
    hide HistoryOK, SetupOK, ProcessOK, MessageOK, TurnOK, Submit, CompleteWrite, Acknowledge, Boot;
    var id := Actor(action);
    var p := c.processes[id];
    ProcessIsOK(u, h, c, id);
    match action
    case Deliver(m) => h' := SubmitOK(u, h, id, p, Receive(m));
    case Ask(_, input) => h' := SubmitOK(u, h, id, p, input);
    case WriteDone(_) => h' := CompleteWriteOK(u, h, id, p);
    case AckDone(_) => h' := AcknowledgeOK(u, h, id, p);
    case ArmCrash(_) =>
      h' := h;
      StillOK(u, h, id, p, p.(crashAfterPersist := true));
    case Crash(_) =>
      h' := h;
      StillOK(u, h, id, p, Down(p.store));
    case Restart(_) =>
      h' := h;
      BootOK(u, h, id, p.store);
  }

  /** Arming a crash and crashing change nothing durable. */
  lemma StillOK(u: Setup, h: History, id: NodeID, p: Process, p': Process)
    requires HistoryOK(u, h) && ProcessOK(u, h, id, p) && p.Up?
    requires p' == Down(p.store) || p' == p.(crashAfterPersist := true)
    ensures TurnOK(u, h, h, id, p, Turn(p', [], None))
  {
    hide HistoryOK, Good, AppliedOK, React, EffectsOK, InputOK;
    NoGrowth(h, id);
    NothingSent(u, h, id, p.store.state.term);
  }

  /** The cluster's invariant after an event, from the turn of its process. */
  lemma TurnReaches(u: Setup, h: History, h': History, c: Cluster, action: Action)
    requires SetupOK(u) && ClusterOK(u, h, c) && Enabled(c, action)
    requires TurnOK(u, h, h', Actor(action), c.processes[Actor(action)], TurnOf(u, c, action))
    ensures ClusterOK(u, h', After(u, c, action)) && Grows(h, h')
    ensures After(u, c, action).processes.Keys == c.processes.Keys
    ensures forall id | id in c.processes :: Forward(c.processes[id].store, After(u, c, action).processes[id].store)
  {
    hide HistoryOK, SetupOK, ProcessOK, MessageOK, TurnOf, SentOK, Grows;
    var actor := Actor(action);
    var t := TurnOf(u, c, action);
    var c' := After(u, c, action);
    forall id | id in c'.processes
      ensures ProcessOK(u, h', id, c'.processes[id])
    {
      if id != actor {
        ProcessIsOK(u, h, c, id);
        ProcessFrame(u, h, h', actor, id, c.processes[id]);
      }
    }
    forall m | m in c'.network
      ensures MessageOK(u, h', m)
    {
      if m in c.network {
        MessageGrows(u, h, h', m);
      } else {
        SentIsOK(u, h', t.sent, m);
      }
    }
  }

  lemma AfterOK(u: Setup, h: History, c: Cluster, action: Action) returns (h': History)
    requires SetupOK(u) && ClusterOK(u, h, c) && Enabled(c, action)
    ensures ClusterOK(u, h', After(u, c, action)) && Grows(h, h')
    ensures After(u, c, action).processes.Keys == c.processes.Keys
    ensures forall id | id in c.processes :: Forward(c.processes[id].store, After(u, c, action).processes[id].store)
  {
    hide HistoryOK, SetupOK, ClusterOK, TurnOK, TurnOf, Grows;
    h' := TurnOfOK(u, h, c, action);
    TurnReaches(u, h, h', c, action);
  }

  lemma SentIsOK(u: Setup, h: History, sent: seq<Message>, m: Message)
    requires SentOK(u, h, sent) && m in sent
    ensures MessageOK(u, h, m)
  {
    hide MessageOK;
  }

  // ----- the beginning -----

  ghost function Genesis(u: Setup): History {
    History(map id | id in u.members :: Ledger(0, map[], map[]), map[], [])
  }

  lemma EmptyNodeOK(u: Setup, id: NodeID)
    requires SetupOK(u) && id in u.members
    ensures Good(u, Genesis(u), Recovered(u, id, EMPTY_STATE))
  {
    hide ValidateMembership;
    var n := Recovered(u, id, EMPTY_STATE);
    var h := Genesis(u);
    assert Full(h, n.state) == [];
    assert View(h, n) == Replica(0, NO_NODE, [], 0, Follower, {}, map[]);
    assert Committed(u, h, [], 0, 0);
  }

  lemma ProvisionedOK(u: Setup)
    requires SetupOK(u)
    ensures ClusterOK(u, Genesis(u), Provisioned(u))
  {
    hide Good, SetupOK, Recovered;
    var h := Genesis(u);
    forall id | id in u.members
      ensures ProcessOK(u, h, id, Down(EMPTY_STORE))
    {
      EmptyNodeOK(u, id);
    }
  }

  // ----- every run -----

  /** Histories that explain a run, one per state, each a later one of the one before. */
  ghost predicate Explains(u: Setup, run: seq<Cluster>, hs: seq<History>) {
    && |hs| == |run|
    && (forall i {:trigger hs[i]} | 0 <= i < |run| :: ClusterOK(u, hs[i], run[i]))
    && (forall i, j | 0 <= i <= j < |run| :: Grows(hs[i], hs[j]))
  }

  /** THE INVARIANT over every run. */
  lemma {:induction false} RunOK(u: Setup, run: seq<Cluster>) returns (hs: seq<History>)
    requires SetupOK(u) && IsRun(u, run)
    ensures Explains(u, run, hs) && |hs| == |run|
  {
    hide ClusterOK, SetupOK, Grows, Next, Provisioned;
    if |run| == 1 {
      hs := [Genesis(u)];
      ProvisionedOK(u);
      GrowsRefl(Genesis(u));
    } else {
      var front := run[..|run| - 1];
      assert front[0] == run[0];
      forall i | 0 < i < |front|
        ensures NextAt(u, front, i)
      {
        assert NextAt(u, run, i);
        assert front[i] == run[i] && front[i - 1] == run[i - 1];
      }
      var gs := RunOK(u, front);
      var last := |run| - 1;
      assert NextAt(u, run, last);
      assert ClusterOK(u, gs[last - 1], front[last - 1]);
      assert front[last - 1] == run[last - 1];
      var h := NextOK(u, gs[last - 1], run[last - 1], run[last]);
      hs := gs + [h];
      ExtendExplains(u, front, gs, run[last], h);
      assert run == front + [run[last]];
    }
  }

  lemma GrowsRefl(h: History)
    ensures Grows(h, h)
  {
  }

  lemma NextOK(u: Setup, h: History, c: Cluster, c': Cluster) returns (h': History)
    requires SetupOK(u) && ClusterOK(u, h, c) && Next(u, c, c')
    ensures ClusterOK(u, h', c') && Grows(h, h')
  {
    hide ClusterOK, SetupOK, Grows, Enabled, After;
    var action :| Enabled(c, action) && c' == After(u, c, action);
    h' := AfterOK(u, h, c, action);
  }

  lemma ExtendExplains(u: Setup, run: seq<Cluster>, hs: seq<History>, c: Cluster, h: History)
    requires Explains(u, run, hs) && |run| > 0
    requires ClusterOK(u, h, c) && Grows(hs[|hs| - 1], h)
    ensures Explains(u, run + [c], hs + [h])
  {
    hide ClusterOK, Grows;
    GrowsRefl(h);
    forall i | 0 <= i < |run|
      ensures Grows(hs[i], h)
    {
      assert Grows(hs[i], hs[|hs| - 1]);
      GrowsTransitive(hs[i], hs[|hs| - 1], h);
    }
  }
}

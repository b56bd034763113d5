/**
 * The theorems about applications, over every run of a cluster whose snapshots are checkpoints:
 * one log behind every machine and every checkpoint; recovery, exactly; what breaks an
 * application, exactly; and, snapshots agreeing in their data too, a silent checker.
 */
module ApplicationTheorems {
  import opened RaftTypes
  import opened Configuration
  import opened RaftHistory
  import opened NodeSpec
  import opened NodeRefinement
  import opened Validation
  import opened ClusterSpec
  import opened ClusterInvariant
  import opened ClusterSafety
  import opened ClusterTheorems
  import opened Application
  import opened ApplicationSafety
  import opened Vouching
  import opened Checker
  import opened Watching

  /** A store from which an application can be rebuilt. */
  predicate Recoverable(s: Store) {
    s.state.snapshot.index <= s.applied || s.installed.index == 0
  }

  /** What one log says about a process: its entries, its checkpoint, its machine, and the machine it would rebuild. */
  ghost predicate FollowsLog<M>(app: App<M>, log: seq<Entry>, s: Store, live: Live<M>) {
    && s.installed.index <= s.applied <= |log|
    && s.entries == log[s.installed.index..s.applied]
    && MachineAfter(app, log[..s.applied]).Some?
    && (live.Running? ==> MachineAfter(app, log[..s.applied]) == Some(live.machine))
    && Recover(app, s) == (if Recoverable(s) then MachineAfter(app, log[..s.applied]) else None)
    && Honest(app, log, s.state.snapshot)
  }

  ghost predicate AllFollow<M>(app: App<M>, log: seq<Entry>, run: seq<World<M>>) {
    forall i, id {:trigger run[i].live[id]} | 0 <= i < |run| && id in run[i].live ::
      id in run[i].c.processes && FollowsLog(app, log, run[i].c.processes[id].store, run[i].live[id])
  }

  lemma FollowsGrows<M>(app: App<M>, a: seq<Entry>, b: seq<Entry>, s: Store, live: Live<M>)
    requires a <= b && FollowsLog(app, a, s, live)
    ensures FollowsLog(app, b, s, live)
  {
    hide MachineAfter, Recover;
    assert a[..s.applied] == b[..s.applied];
    assert a[s.installed.index..s.applied] == b[s.installed.index..s.applied];
    HonestGrows(app, a, b, s.state.snapshot);
  }

  lemma ProcessFollows<M>(app: App<M>, told: Told, u: Setup, h: History, id: NodeID, p: Process, live: Live<M>)
    requires Faithful(app) && SetupOK(u) && HistoryOK(u, h) && ProcessOK(u, h, id, p)
    requires ProcessLive(app, h.committed, p, live) && VouchedProcess(told, p) && AllHonest(app, h.committed, told)
    ensures FollowsLog(app, h.committed, p.store, live)
  {
    hide SetupOK, HistoryOK, Good, MachineAfter, Recover, RunningOK, Faithful, Honest, AllHonest, Vouched, VouchedMail;
    StoreFits(u, h, id, p.store);
    VouchedIsHonest(app, h.committed, told, p.store.state.snapshot);
    RecoverIsMachine(app, h, p.store);
  }

  lemma WorldFollows<M>(app: App<M>, told: Told, u: Setup, h: History, x: World<M>)
    requires Faithful(app) && SetupOK(u) && WorldOK(app, u, h, told, x)
    ensures AllFollow(app, h.committed, [x])
  {
    hide SetupOK, HistoryOK, ProcessOK, ProcessLive, FollowsLog, VouchedProcess, AllHonest, Faithful;
    forall id | id in x.live
      ensures FollowsLog(app, h.committed, x.c.processes[id].store, x.live[id])
    {
      ProcessIsOK(u, h, x.c, id);
      assert VouchedProcess(told, x.c.processes[id]);
      ProcessFollows(app, told, u, h, id, x.c.processes[id], x.live[id]);
    }
  }

  lemma BeginningOK<M>(app: App<M>, u: Setup)
    requires SetupOK(u)
    ensures WorldOK(app, u, Genesis(u), {}, Beginning(u))
  {
    hide ClusterOK, SetupOK, VouchedCluster;
    ProvisionedOK(u);
    BeginningVouched({}, u);
  }

  /** ONE LOG is behind every application at every moment. */
  lemma {:induction false} OneLog<M>(app: App<M>, u: Setup, run: seq<World<M>>) returns (h: History, told: Told)
    requires Faithful(app) && SetupOK(u) && IsWorldRun(app, u, run)
    ensures WorldOK(app, u, h, told, run[|run| - 1])
    ensures AllFollow(app, h.committed, run)
  {
    hide WorldOK, SetupOK, Beginning, WorldStep, FollowsLog, Faithful;
    var n := |run| - 1;
    if n == 0 {
      h, told := Genesis(u), {};
      BeginningOK(app, u);
      WorldFollows(app, told, u, h, run[0]);
      assert run == [run[0]];
    } else {
      var front := run[..n];
      assert front[0] == run[0];
      forall i | 0 < i < n
        ensures WorldNext(app, u, front, i)
      {
        assert WorldNext(app, u, run, i);
        assert front[i] == run[i] && front[i - 1] == run[i - 1];
      }
      var g, before := OneLog(app, u, front);
      assert front[n - 1] == run[n - 1];
      assert WorldNext(app, u, run, n);
      var action :| WorldStep(app, u, run[n - 1], run[n], action);
      h := WorldAfter(app, u, g, before, run[n - 1], action, run[n]);
      told := before + ToldIn(action);
      WorldFollows(app, told, u, h, run[n]);
      AllFollowExtend(app, g, h, front, run[n]);
      assert run == front + [run[n]];
    }
  }

  lemma AllFollowExtend<M>(app: App<M>, g: History, h: History, run: seq<World<M>>, x: World<M>)
    requires Grows(g, h) && AllFollow(app, g.committed, run) && AllFollow(app, h.committed, [x])
    ensures AllFollow(app, h.committed, run + [x])
  {
    hide FollowsLog;
    GrowsCommitted(g, h);
    var all := run + [x];
    forall i, id | 0 <= i < |all| && id in all[i].live
      ensures id in all[i].c.processes && FollowsLog(app, h.committed, all[i].c.processes[id].store, all[i].live[id])
    {
      if i < |run| {
        assert all[i] == run[i] && id in run[i].live;
        FollowsGrows(app, g.committed, h.committed, run[i].c.processes[id].store, run[i].live[id]);
      } else {
        assert all[i] == [x][0] && id in [x][0].live;
      }
    }
  }

  predicate LiveAt<M>(run: seq<World<M>>, i: nat, id: NodeID) {
    i < |run| && id in run[i].live && id in run[i].c.processes
  }

  /** Machines that applied equally far are equal, on any two nodes, at any two moments. */
  lemma EqualIndexEqualMachine<M>(app: App<M>, u: Setup, run: seq<World<M>>, i: nat, j: nat, a: NodeID, b: NodeID)
    requires Faithful(app) && SetupOK(u) && IsWorldRun(app, u, run) && LiveAt(run, i, a) && LiveAt(run, j, b)
    requires run[i].live[a].Running? && run[j].live[b].Running?
    requires run[i].c.processes[a].store.applied == run[j].c.processes[b].store.applied
    ensures run[i].live[a] == run[j].live[b]
  {
    hide SetupOK, IsWorldRun, WorldOK, Recover, MachineAfter;
    var h, told := OneLog(app, u, run);
    assert FollowsLog(app, h.committed, run[i].c.processes[a].store, run[i].live[a]);
    assert FollowsLog(app, h.committed, run[j].c.processes[b].store, run[j].live[b]);
  }

  /**
   * RECOVERY, over every run: the application can be rebuilt from a store exactly when the store is
   * recoverable, and then it is the machine that any node that applied as far was running.
   */
  lemma RecoveryIsExact<M>(app: App<M>, u: Setup, run: seq<World<M>>, i: nat, j: nat, a: NodeID, b: NodeID)
    requires Faithful(app) && SetupOK(u) && IsWorldRun(app, u, run) && LiveAt(run, i, a) && LiveAt(run, j, b)
    ensures Recover(app, run[i].c.processes[a].store).Some? <==> Recoverable(run[i].c.processes[a].store)
    ensures Recoverable(run[i].c.processes[a].store) && run[j].live[b].Running?
            && run[i].c.processes[a].store.applied == run[j].c.processes[b].store.applied ==>
              Recover(app, run[i].c.processes[a].store) == Some(run[j].live[b].machine)
  {
    hide SetupOK, IsWorldRun, WorldOK, Recover, MachineAfter;
    var h, told := OneLog(app, u, run);
    assert FollowsLog(app, h.committed, run[i].c.processes[a].store, run[i].live[a]);
    assert FollowsLog(app, h.committed, run[j].c.processes[b].store, run[j].live[b]);
  }

  /** A snapshot written but not acknowledged before a crash, after an earlier one was installed, cannot be recovered from. */
  lemma UnrecoverableStore<M>(app: App<M>, newer: Snapshot, older: Snapshot, state: PersistentState)
    requires state.snapshot == newer && 0 < older.index < newer.index
    ensures Recover(app, Store(state, older.index, [], older)) == None
  {
  }

  lemma ProcessRecoverable(u: Setup, h: History, id: NodeID, p: Process)
    requires ProcessOK(u, h, id, p) && p.Up? && !Recoverable(p.store)
    ensures p.stage.Stored?
  {
    hide Good, ClusterInvariant.AppliedOK, React, InputOK, EffectsOK, Delivered, MailOK;
    if p.stage.Idle? {
      GoodParts(u, h, p.node.core);
    }
  }

  /** A crash can leave an unrecoverable store only between a stored write and its acknowledgement. */
  lemma UnrecoverableWindow(u: Setup, run: seq<Cluster>, i: nat, id: NodeID)
    requires SetupOK(u) && IsRun(u, run) && At(run, i, id) && run[i].processes[id].Up?
    requires !Recoverable(StoreAt(run, i, id))
    ensures run[i].processes[id].stage.Stored?
  {
    hide SetupOK, IsRun, HistoryOK, ProcessOK, Recoverable;
    var hs := RunOK(u, run);
    assert ClusterOK(u, hs[i], run[i]);
    ProcessIsOK(u, hs[i], run[i], id);
    ProcessRecoverable(u, hs[i], id, run[i].processes[id]);
  }

  /** Checkpoints of one index carry the same data. */
  lemma CheckpointsAgree<M>(app: App<M>, u: Setup, run: seq<World<M>>, i: nat, j: nat, a: NodeID, b: NodeID)
    requires Faithful(app) && SetupOK(u) && IsWorldRun(app, u, run) && LiveAt(run, i, a) && LiveAt(run, j, b)
    requires var s, t := run[i].c.processes[a].store.state.snapshot, run[j].c.processes[b].store.state.snapshot; s.index == t.index
    ensures run[i].c.processes[a].store.state.snapshot.data == run[j].c.processes[b].store.state.snapshot.data
  {
    hide SetupOK, IsWorldRun, WorldOK, Recover, MachineAfter;
    var h, told := OneLog(app, u, run);
    assert FollowsLog(app, h.committed, run[i].c.processes[a].store, run[i].live[a]);
    assert FollowsLog(app, h.committed, run[j].c.processes[b].store, run[j].live[b]);
  }

  // ----- what can break an application -----

  lemma FollowLater<M>(app: App<M>, a: seq<Entry>, b: seq<Entry>, run: seq<World<M>>)
    requires a <= b && AllFollow(app, a, run)
    ensures AllFollow(app, b, run)
  {
    hide FollowsLog;
    forall i, id | 0 <= i < |run| && id in run[i].live
      ensures id in run[i].c.processes && FollowsLog(app, b, run[i].c.processes[id].store, run[i].live[id])
    {
      FollowsGrows(app, a, b, run[i].c.processes[id].store, run[i].live[id]);
    }
  }

  /**
   * WHAT BREAKS AN APPLICATION, exactly: an event does if and only if it is a restart from a store
   * that is not recoverable, or it makes the store apply a command of the one log that the machine
   * refuses.  Checkpoints never fail to restore and never conflict.
   */
  lemma WhatBreaks<M>(app: App<M>, u: Setup, run: seq<World<M>>, action: Action) returns (log: seq<Entry>)
    requires Faithful(app) && SetupOK(u) && IsWorldRun(app, u, run)
    requires var x := run[|run| - 1];
      Enabled(x.c, action) && Actor(action) in x.live && TakesCheckpoint(app, x, action)
    ensures AllFollow(app, log, run)
    ensures var x := run[|run| - 1];
      var before, after := x.c.processes[Actor(action)].store, TurnOf(u, x.c, action).process.store;
      && after.installed.index <= after.applied <= |log|
      && after.entries == log[after.installed.index..after.applied]
      && (TurnApp(app, u, x, action).Broken? <==>
            (action.Restart? && !Recoverable(before)) || MachineAfter(app, log[..after.applied]).None?)
  {
    hide SetupOK, Beginning, WorldNext, WorldOK, TurnApp, TurnOf, Recover, Faithful, MachineAfter;
    var h, told := OneLog(app, u, run);
    var n := |run| - 1;
    var x := run[n];
    var h' := EventFollows(app, u, h, told, x, action);
    log := h'.committed;
    FollowLater(app, h.committed, log, run);
    assert Actor(action) in run[n].live && FollowsLog(app, log, x.c.processes[Actor(action)].store, x.live[Actor(action)]);
  }

  lemma EventFollows<M>(app: App<M>, u: Setup, h: History, told: Told, x: World<M>, action: Action) returns (h': History)
    requires Faithful(app) && SetupOK(u) && WorldOK(app, u, h, told, x) && Enabled(x.c, action) && TakesCheckpoint(app, x, action)
    requires Actor(action) in x.live
    ensures h.committed <= h'.committed
    ensures var before, after := x.c.processes[Actor(action)].store, TurnOf(u, x.c, action).process.store;
      && after.installed.index <= after.applied <= |h'.committed|
      && after.entries == h'.committed[after.installed.index..after.applied]
      && (TurnApp(app, u, x, action).Broken? <==>
            (action.Restart? && Recover(app, before).None?) || MachineAfter(app, h'.committed[..after.applied]).None?)
  {
    hide SetupOK, WorldOK, HistoryOK, TurnApp, TurnOf, Recover, Faithful, Good, RunningOK, GrowsBy, SentOK, SentIn;
    h' := TurnApplies(app, u, h, told, x, action);
    GrowsByIsGrowth(h, h', Actor(action));
    GrowsCommitted(h, h');
  }

  // ----- the checker -----

  function Clusters<M>(run: seq<World<M>>): (r: seq<Cluster>)
    ensures |r| == |run| && forall i | 0 <= i < |run| :: r[i] == run[i].c
  {
    seq(|run|, i requires 0 <= i < |run| => run[i].c)
  }

  lemma ClustersRun<M>(app: App<M>, u: Setup, run: seq<World<M>>)
    requires IsWorldRun(app, u, run)
    ensures IsRun(u, Clusters(run))
  {
    hide TurnApp, TurnOf, TakesCheckpoint;
    var cs := Clusters(run);
    forall i | 0 < i < |cs|
      ensures NextAt(u, cs, i)
    {
      assert WorldNext(app, u, run, i);
      var action :| WorldStep(app, u, run[i - 1], run[i], action);
      assert Enabled(cs[i - 1], action) && cs[i] == After(u, cs[i - 1], action);
    }
  }

  lemma SameProcesses<M>(app: App<M>, u: Setup, run: seq<World<M>>, i: nat)
    requires IsWorldRun(app, u, run) && i < |run|
    ensures run[i].live.Keys == run[i].c.processes.Keys
  {
    hide TurnApp, TurnOf, TakesCheckpoint;
    if i > 0 {
      SameProcesses(app, u, run, i - 1);
      assert WorldNext(app, u, run, i);
    }
  }

  /** WITH AN APPLICATION THE CHECKER IS SILENT altogether, on every run. */
  method WatchApplication<M>(app: App<M>, u: Setup, run: seq<World<M>>) returns (violations: seq<Violation>)
    requires Faithful(app) && SetupOK(u) && IsWorldRun(app, u, run)
    ensures violations == []
  {
    hide SetupOK, IsWorldRun, Faithful, IsRun, OnlyData;
    ClustersRun(app, u, run);
    violations := Watch(u, Clusters(run));
    forall index: nat
      ensures !DataDiffers(Clusters(run), index)
    {
      NoDataDiffers(app, u, run, index);
    }
  }

  lemma NoDataDiffers<M>(app: App<M>, u: Setup, run: seq<World<M>>, index: nat)
    requires Faithful(app) && SetupOK(u) && IsWorldRun(app, u, run)
    ensures !DataDiffers(Clusters(run), index)
  {
    hide SetupOK, IsWorldRun, Faithful;
    var cs := Clusters(run);
    if DataDiffers(cs, index) {
      var i: nat, a, j: nat, b :| At(cs, i, a) && At(cs, j, b)
        && StateAt(cs, i, a).snapshot.index == StateAt(cs, j, b).snapshot.index == index
        && StateAt(cs, i, a).snapshot.data != StateAt(cs, j, b).snapshot.data;
      SameProcesses(app, u, run, i);
      SameProcesses(app, u, run, j);
      CheckpointsAgree(app, u, run, i, j, a, b);
    }
  }
}

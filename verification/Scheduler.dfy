/**
 * The virtual-time scheduler (simulator.go), first as operations on a value that knows nothing of
 * heap layouts, with what holds over any interleaving of them.
 */
module Scheduler {
  import opened EventQueue

  const MAX_TIME: nat := 0x7FFF_FFFF_FFFF_FFFF
  const MAX_ID: nat := 0xFFFF_FFFF_FFFF_FFFF

  datatype Error = NegativeTime | Past | TimeOverflow | Exhausted

  datatype Pending = Pending(when: nat, tag: Tag)

  /** Every future-relevant field, events by identifier: what two simulators have in common when their canonical states are equal. */
  datatype Schedule = Schedule(now: nat, nextID: nat, exhausted: bool, events: map<nat, Pending>)

  const EMPTY := Schedule(0, 1, false, map[])

  datatype Scheduled = Accepted(schedule: Schedule, id: nat) | Refused(error: Error)

  datatype Op = ScheduleAfter(delay: int, tag: Tag) | ScheduleAt(when: int, tag: Tag) | Cancel(id: nat)

  function KeyOf(s: Schedule, id: nat): Key
    requires id in s.events
  {
    Key(s.events[id].when, id)
  }

  // ----- operations -----

  function AddAt(s: Schedule, when: int, tag: Tag): Scheduled {
    if when < 0 then Refused(NegativeTime)
    else if when < s.now then Refused(Past)
    else if s.exhausted then Refused(Exhausted)
    else
      var id := if s.nextID == 0 then 1 else s.nextID;
      Accepted(s.(nextID := if id == MAX_ID then id else id + 1,
                  exhausted := id == MAX_ID,
                  events := s.events[id := Pending(when, tag)]), id)
  }

  function AddAfter(s: Schedule, delay: int, tag: Tag): Scheduled {
    if delay < 0 then Refused(NegativeTime)
    else if s.now > MAX_TIME - delay then Refused(TimeOverflow)
    else AddAt(s, s.now + delay, tag)
  }

  function Without(s: Schedule, id: nat): Schedule {
    s.(events := s.events - {id})
  }

  function Apply(s: Schedule, op: Op): Schedule {
    match op
    case ScheduleAfter(delay, tag) => (match AddAfter(s, delay, tag) case Accepted(s1, _) => s1 case Refused(_) => s)
    case ScheduleAt(when, tag) => (match AddAt(s, when, tag) case Accepted(s1, _) => s1 case Refused(_) => s)
    case Cancel(id) => Without(s, id)
  }

  function ApplyAll(s: Schedule, ops: seq<Op>): Schedule {
    if ops == [] then s else Apply(ApplyAll(s, ops[..|ops| - 1]), ops[|ops| - 1])
  }

  /** No pending event comes before this one. */
  ghost predicate IsNext(s: Schedule, id: nat) {
    id in s.events && forall other | other in s.events :: !Before(KeyOf(s, other), KeyOf(s, id))
  }

  lemma NextIsUnique(s: Schedule, a: nat, b: nat)
    requires IsNext(s, a) && IsNext(s, b)
    ensures a == b
  {
  }

  lemma {:induction false} NextExists(s: Schedule, ids: set<nat>) returns (id: nat)
    requires ids <= s.events.Keys && ids != {}
    ensures id in ids && forall other | other in ids :: !Before(KeyOf(s, other), KeyOf(s, id))
    decreases |ids|
  {
    var x :| x in ids;
    if ids == {x} {
      id := x;
    } else {
      var y := NextExists(s, ids - {x});
      id := if Before(KeyOf(s, x), KeyOf(s, y)) then x else y;
    }
  }

  /** The event that runs next; which one does not depend on how events are laid out. */
  ghost function Next(s: Schedule): (id: nat)
    requires s.events != map[]
    ensures IsNext(s, id)
  {
    assert exists id :: IsNext(s, id) by {
      assert s.events.Keys != {};
      var id := NextExists(s, s.events.Keys);
      assert IsNext(s, id);
    }
    var id :| IsNext(s, id);
    id
  }

  /** Taking the next event off the queue moves the clock to it. */
  ghost function Popped(s: Schedule): Schedule
    requires s.events != map[]
  {
    Without(s, Next(s)).(now := s.events[Next(s)].when)
  }

  /** Executing the next event, whose action is `react` of its tag. */
  ghost function StepOf(s: Schedule, react: Tag -> seq<Op>): (Schedule, seq<Key>) {
    if s.events == map[] then (s, [])
    else (ApplyAll(Popped(s), react(s.events[Next(s)].tag)), [KeyOf(s, Next(s))])
  }

  /** Executing n times. */
  ghost function RunFrom(s: Schedule, n: nat, react: Tag -> seq<Op>): (Schedule, seq<Key>) {
    if n == 0 then (s, [])
    else
      var (s1, ran) := RunFrom(s, n - 1, react);
      var (s2, more) := StepOf(s1, react);
      (s2, ran + more)
  }

  lemma RunFromStep(s: Schedule, n: nat, react: Tag -> seq<Op>)
    ensures var (s1, ran) := RunFrom(s, n, react);
      var (s2, more) := StepOf(s1, react);
      RunFrom(s, n + 1, react) == (s2, ran + more) && |more| <= 1 && (|more| == 0 <==> s1.events == map[])
  {
  }

  /** Something is left to run up to the end. */
  ghost predicate Due(s: Schedule, end: int) {
    exists id :: id in s.events && s.events[id].when <= end
  }

  // ----- programs that run inside their own events -----

  /**
   * What a caller does, and what the action of an executed event does, which gets the simulator too:
   * schedule and cancel, execute an event, or run until an end.  The calls of each executed
   * event's action come with it.
   */
  datatype Call = Do(op: Op) | Step(action: Action) | RunUntil(end: int, actions: seq<Action>)

  datatype Action = Action(calls: seq<Call>)

  /** A schedule, what was executed, and whether the clock was set back behind that while events can still be scheduled. */
  datatype Trail = Trail(s: Schedule, ran: seq<Key>, behind: bool)

  const START: Trail := Trail(EMPTY, [], false)

  function Last(first: Key, keys: seq<Key>): Key {
    if keys == [] then first else keys[|keys| - 1]
  }

  ghost function Taken(x: Trail): Trail
    requires x.s.events != map[]
  {
    x.(s := Popped(x.s), ran := x.ran + [KeyOf(x.s, Next(x.s))])
  }

  /** The end of RunUntil, when nothing is due any more: the clock is set, even if something inside moved it further. */
  ghost function Finished(x: Trail, end: nat): Trail {
    Trail(x.s.(now := end), x.ran, x.behind || (end < Last(Key(0, 0), x.ran).when && !x.s.exhausted))
  }

  ghost function Play(x: Trail, calls: seq<Call>): Trail
    decreases calls, 0
  {
    if calls == [] then x else PlayOne(Play(x, calls[..|calls| - 1]), calls[|calls| - 1])
  }

  ghost function PlayOne(x: Trail, call: Call): Trail
    decreases call, 0
  {
    match call
    case Do(op) => x.(s := Apply(x.s, op))
    case Step(action) => if x.s.events == map[] then x else Play(Taken(x), action.calls)
    case RunUntil(end, actions) =>
      if end < 0 || end < x.s.now then x
      else
        var y := PlayDue(x, end, actions);
        if Due(y.s, end) then y else Finished(y, end)
  }

  /** Executes what is due, one event for each action given. */
  ghost function PlayDue(x: Trail, end: int, actions: seq<Action>): Trail
    decreases actions, 0
  {
    if actions == [] then x
    else
      var y := PlayDue(x, end, actions[..|actions| - 1]);
      if Due(y.s, end) then Play(Taken(y), actions[|actions| - 1].calls) else y
  }

  // ----- what holds over any interleaving -----

  /** Pending events are in the future of the clock and of everything executed, and so is whatever can still be scheduled. */
  ghost predicate Sane(s: Schedule, last: Key) {
    && (last.when <= s.now || s.exhausted)
    && (last.id < s.nextID || s.exhausted || s.nextID == 0)
    && (s.nextID == 0 ==> s.events == map[] && last.id == 0)
    && (forall id | id in s.events :: 0 < id && (id < s.nextID || s.exhausted))
    && (forall id | id in s.events :: s.events[id].when >= s.now && Before(last, KeyOf(s, id)))
  }

  lemma AddKeepsSane(s: Schedule, last: Key, when: int, tag: Tag)
    requires Sane(s, last)
    ensures AddAt(s, when, tag).Accepted? ==>
              Sane(AddAt(s, when, tag).schedule, last) && AddAt(s, when, tag).id !in s.events
  {
  }

  lemma ApplyKeepsSane(s: Schedule, last: Key, op: Op)
    requires Sane(s, last)
    ensures Sane(Apply(s, op), last)
  {
    hide Before;
    match op
    case ScheduleAfter(delay, tag) => AddKeepsSane(s, last, s.now + delay, tag);
    case ScheduleAt(when, tag) => AddKeepsSane(s, last, when, tag);
    case Cancel(id) =>
  }

  lemma {:induction false} ApplyAllKeepsSane(s: Schedule, last: Key, ops: seq<Op>)
    requires Sane(s, last)
    ensures Sane(ApplyAll(s, ops), last)
  {
    hide Sane;
    if ops != [] {
      ApplyAllKeepsSane(s, last, ops[..|ops| - 1]);
      ApplyKeepsSane(ApplyAll(s, ops[..|ops| - 1]), last, ops[|ops| - 1]);
    }
  }

  lemma PopKeepsSane(s: Schedule, last: Key)
    requires Sane(s, last) && s.events != map[]
    ensures Before(last, KeyOf(s, Next(s))) && Sane(Popped(s), KeyOf(s, Next(s)))
  {
    var id := Next(s);
    forall other | other in s.events && other != id
      ensures Before(KeyOf(s, id), KeyOf(s, other))
    {
      assert !Before(KeyOf(s, other), KeyOf(s, id));
    }
  }

  predicate Increasing(keys: seq<Key>) {
    forall i, j | 0 <= i < j < |keys| :: Before(keys[i], keys[j])
  }

  /** Executed in order so far, and in order whatever comes, unless the clock fell behind. */
  ghost predicate InOrder(x: Trail) {
    x.behind || (Increasing(x.ran) && Sane(x.s, Last(Key(0, 0), x.ran)))
  }

  lemma TakenInOrder(x: Trail)
    requires InOrder(x) && x.s.events != map[]
    ensures InOrder(Taken(x))
  {
    hide Before, Sane;
    if !x.behind {
      var last := Last(Key(0, 0), x.ran);
      PopKeepsSane(x.s, last);
      AppendIncreasing(Key(0, 0), x.ran, [KeyOf(x.s, Next(x.s))]);
    }
  }

  lemma FinishedInOrder(x: Trail, end: nat)
    requires InOrder(x) && !Due(x.s, end)
    ensures InOrder(Finished(x, end))
  {
    hide Before, Increasing;
  }

  lemma {:induction false} PlayInOrder(x: Trail, calls: seq<Call>)
    requires InOrder(x)
    ensures InOrder(Play(x, calls))
    decreases calls, 0
  {
    hide InOrder;
    if calls != [] {
      PlayInOrder(x, calls[..|calls| - 1]);
      PlayOneInOrder(Play(x, calls[..|calls| - 1]), calls[|calls| - 1]);
    }
  }

  lemma {:induction false} PlayOneInOrder(x: Trail, call: Call)
    requires InOrder(x)
    ensures InOrder(PlayOne(x, call))
    decreases call, 0
  {
    hide Before, Sane, Increasing, Due;
    match call
    case Do(op) => if !x.behind { ApplyKeepsSane(x.s, Last(Key(0, 0), x.ran), op); }
    case Step(action) =>
      if x.s.events != map[] {
        TakenInOrder(x);
        PlayInOrder(Taken(x), action.calls);
      }
    case RunUntil(end, actions) =>
      if end >= 0 && end >= x.s.now {
        PlayDueInOrder(x, end, actions);
        var y := PlayDue(x, end, actions);
        if !Due(y.s, end) { FinishedInOrder(y, end); }
      }
  }

  lemma {:induction false} PlayDueInOrder(x: Trail, end: int, actions: seq<Action>)
    requires InOrder(x)
    ensures InOrder(PlayDue(x, end, actions))
    decreases actions, 0
  {
    hide InOrder;
    if actions != [] {
      PlayDueInOrder(x, end, actions[..|actions| - 1]);
      var y := PlayDue(x, end, actions[..|actions| - 1]);
      if Due(y.s, end) {
        TakenInOrder(y);
        PlayInOrder(Taken(y), actions[|actions| - 1].calls);
      }
    }
  }

  /**
   * Over any program, running inside its own events as it likes, executed events strictly increase
   * in (time, identifier), unless some RunUntil set the clock back behind them.
   */
  lemma ExecutionIsOrdered(calls: seq<Call>)
    ensures !Play(START, calls).behind ==> Increasing(Play(START, calls).ran)
  {
    EmptyIsSane();
    PlayInOrder(START, calls);
  }

  lemma EmptyIsSane()
    ensures Sane(EMPTY, Key(0, 0))
  {
  }

  lemma AppendIncreasing(first: Key, keys: seq<Key>, more: seq<Key>)
    requires Increasing(keys) && |more| <= 1 && forall k | k in more :: Before(Last(first, keys), k)
    ensures Increasing(keys + more) && Last(first, keys + more) == Last(Last(first, keys), more)
  {
    var all := keys + more;
    forall i, j | 0 <= i < j < |all|
      ensures Before(all[i], all[j])
    {
      if j == |keys| {
        assert more[0] in more;
        if i < |keys| - 1 {
          assert Before(keys[i], keys[|keys| - 1]);
        }
      }
    }
  }

  // ----- when a scheduled event runs -----

  /** Identifiers in use are behind the next one, or no more are given out. */
  ghost predicate Tidy(s: Schedule) {
    s.nextID > 0 && forall id | id in s.events :: id < s.nextID || s.exhausted
  }

  /**
   * SCHEDULING AT A TIME is accepted exactly for a time that is not past, while there are identifiers;
   * then one event is added, under a new identifier, due at that time.
   */
  lemma AddsAtExactly(s: Schedule, when: int, tag: Tag)
    requires Tidy(s)
    ensures var r := AddAt(s, when, tag);
      && (r.Accepted? <==> 0 <= when && s.now <= when && !s.exhausted)
      && (r.Accepted? ==>
           && r.id !in s.events && r.id >= s.nextID && Tidy(r.schedule) && (r.id < r.schedule.nextID || r.schedule.exhausted)
           && r.schedule.now == s.now && r.schedule.events == s.events[r.id := Pending(when, tag)])
      && (r.Refused? ==> r.error == if when < 0 then NegativeTime else if when < s.now then Past else Exhausted)
  {
  }

  /**
   * SCHEDULING AFTER A DELAY is accepted exactly for a delay that is not negative and does not
   * overflow the clock, while there are identifiers; then one event is added, under a new identifier,
   * due that long after the present.
   */
  lemma AddsAfterExactly(s: Schedule, delay: int, tag: Tag)
    requires Tidy(s)
    ensures var r := AddAfter(s, delay, tag);
      && (r.Accepted? <==> 0 <= delay && s.now + delay <= MAX_TIME && !s.exhausted)
      && (r.Accepted? ==>
           && r.id !in s.events && r.id >= s.nextID && Tidy(r.schedule) && (r.id < r.schedule.nextID || r.schedule.exhausted)
           && r.schedule.now == s.now && r.schedule.events == s.events[r.id := Pending(s.now + delay, tag)])
      && (r.Refused? ==> r.error == if delay < 0 then NegativeTime else if s.now + delay > MAX_TIME then TimeOverflow else Exhausted)
  {
    if 0 <= delay && s.now + delay <= MAX_TIME {
      AddsAtExactly(s, s.now + delay, tag);
    }
  }

  /** How often an event was executed. */
  function Runs(ran: seq<Key>, id: nat): nat {
    if ran == [] then 0 else Runs(ran[..|ran| - 1], id) + if ran[|ran| - 1].id == id then 1 else 0
  }

  /** These calls, and those inside them, do not cancel the event. */
  ghost predicate Spares(calls: seq<Call>, id: nat)
    decreases calls, 0
  {
    calls == [] || (Spares(calls[..|calls| - 1], id) && SparesOne(calls[|calls| - 1], id))
  }

  ghost predicate SparesOne(call: Call, id: nat)
    decreases call, 0
  {
    match call
    case Do(op) => op != Cancel(id)
    case Step(action) => Spares(action.calls, id)
    case RunUntil(_, actions) => SparesAll(actions, id)
  }

  ghost predicate SparesAll(actions: seq<Action>, id: nat)
    decreases actions, 0
  {
    actions == [] || (SparesAll(actions[..|actions| - 1], id) && Spares(actions[|actions| - 1].calls, id))
  }

  /** What became of an event since so much was executed: it waits as it was scheduled, or was executed at its time, or cancelled. */
  ghost predicate Fate(x: Trail, before: nat, id: nat, e: Pending, spared: bool) {
    && x.s.nextID > 0 && (id < x.s.nextID || x.s.exhausted)
    && before <= |x.ran|
    && (forall i | before <= i < |x.ran| && x.ran[i].id == id :: x.ran[i].when == e.when)
    && (if id in x.s.events then x.s.events[id] == e && Runs(x.ran[before..], id) == 0
        else Runs(x.ran[before..], id) <= 1 && (spared ==> Runs(x.ran[before..], id) == 1))
  }

  lemma ApplyKeepsFate(x: Trail, before: nat, id: nat, e: Pending, spared: bool, op: Op)
    requires Fate(x, before, id, e, spared)
    ensures Fate(x.(s := Apply(x.s, op)), before, id, e, spared && op != Cancel(id))
    ensures Fate(x, before, id, e, spared && op != Cancel(id))
  {
  }

  lemma TakenKeepsFate(x: Trail, before: nat, id: nat, e: Pending, spared: bool)
    requires Fate(x, before, id, e, spared) && x.s.events != map[]
    ensures Fate(Taken(x), before, id, e, spared) && x.ran <= Taken(x).ran
  {
    var y, next := Taken(x), Next(x.s);
    assert y.ran[before..] == x.ran[before..] + [KeyOf(x.s, next)];
    assert y.ran[before..][..|x.ran| - before] == x.ran[before..];
  }

  lemma {:induction false} PlayKeepsFate(x: Trail, before: nat, id: nat, e: Pending, spared: bool, calls: seq<Call>)
    requires Fate(x, before, id, e, spared)
    ensures Fate(Play(x, calls), before, id, e, spared && Spares(calls, id)) && x.ran <= Play(x, calls).ran
    decreases calls, 0
  {
    hide Fate;
    if calls != [] {
      var front, last := calls[..|calls| - 1], calls[|calls| - 1];
      PlayKeepsFate(x, before, id, e, spared, front);
      PlayOneKeepsFate(Play(x, front), before, id, e, spared && Spares(front, id), last);
    }
  }

  lemma {:induction false} PlayOneKeepsFate(x: Trail, before: nat, id: nat, e: Pending, spared: bool, call: Call)
    requires Fate(x, before, id, e, spared)
    ensures Fate(PlayOne(x, call), before, id, e, spared && SparesOne(call, id)) && x.ran <= PlayOne(x, call).ran
    decreases call, 0
  {
    hide Fate, Due;
    match call
    case Do(op) => ApplyKeepsFate(x, before, id, e, spared, op);
    case Step(action) =>
      if x.s.events == map[] {
        LessSpared(x, before, id, e, spared, SparesOne(call, id));
      } else {
        TakenKeepsFate(x, before, id, e, spared);
        PlayKeepsFate(Taken(x), before, id, e, spared, action.calls);
      }
    case RunUntil(end, actions) =>
      if end < 0 || end < x.s.now {
        LessSpared(x, before, id, e, spared, SparesOne(call, id));
      } else {
        PlayDueKeepsFate(x, before, id, e, spared, end, actions);
        ClockKeepsFate(PlayDue(x, end, actions), before, id, e, spared && SparesOne(call, id), end);
      }
  }

  lemma LessSpared(x: Trail, before: nat, id: nat, e: Pending, spared: bool, less: bool)
    requires Fate(x, before, id, e, spared)
    ensures Fate(x, before, id, e, spared && less)
  {
  }

  lemma ClockKeepsFate(x: Trail, before: nat, id: nat, e: Pending, spared: bool, end: nat)
    requires Fate(x, before, id, e, spared)
    ensures Fate(Finished(x, end), before, id, e, spared) && Finished(x, end).ran == x.ran
  {
  }

  lemma {:induction false} PlayDueKeepsFate(x: Trail, before: nat, id: nat, e: Pending, spared: bool, end: int, actions: seq<Action>)
    requires Fate(x, before, id, e, spared)
    ensures Fate(PlayDue(x, end, actions), before, id, e, spared && SparesAll(actions, id)) && x.ran <= PlayDue(x, end, actions).ran
    decreases actions, 0
  {
    hide Fate;
    if actions != [] {
      var front, last := actions[..|actions| - 1], actions[|actions| - 1];
      PlayDueKeepsFate(x, before, id, e, spared, end, front);
      var y := PlayDue(x, end, front);
      if Due(y.s, end) {
        TakenKeepsFate(y, before, id, e, spared && SparesAll(front, id));
        PlayKeepsFate(Taken(y), before, id, e, spared && SparesAll(front, id), last.calls);
      } else {
        LessSpared(y, before, id, e, spared && SparesAll(front, id), Spares(last.calls, id));
      }
    }
  }

  /** Executed at this time and never again; or it still waits; or, unless it was spared, it may have been cancelled. */
  ghost predicate RunsAt(before: Trail, after: Trail, id: nat, when: int, tag: Tag, spared: bool) {
    && before.ran <= after.ran
    && (forall i | |before.ran| <= i < |after.ran| && after.ran[i].id == id :: after.ran[i].when == when)
    && (if id in after.s.events then
          after.s.events[id].when == when && after.s.events[id].tag == tag && Runs(after.ran[|before.ran|..], id) == 0
        else Runs(after.ran[|before.ran|..], id) <= 1 && (spared ==> Runs(after.ran[|before.ran|..], id) == 1))
  }

  lemma ScheduledRuns(x: Trail, s: Schedule, id: nat, e: Pending, more: seq<Call>)
    requires Tidy(s) && id in s.events && s.events[id] == e && (id < s.nextID || s.exhausted)
    ensures RunsAt(x, Play(x.(s := s), more), id, e.when, e.tag, Spares(more, id))
  {
    assert x.ran[|x.ran|..] == [];
    PlayKeepsFate(x.(s := s), |x.ran|, id, e, true, more);
  }

  /**
   * AN EVENT RUNS WHEN IT IS DUE: whatever happens after it was scheduled after a delay, it is
   * executed with its time that long after the moment of scheduling, at most once; and it waits or was
   * executed unless something cancels it.
   */
  lemma RunsAfterDelay(x: Trail, delay: int, tag: Tag, more: seq<Call>)
    requires Tidy(x.s) && AddAfter(x.s, delay, tag).Accepted?
    ensures var id := AddAfter(x.s, delay, tag).id;
      RunsAt(x, Play(PlayOne(x, Do(ScheduleAfter(delay, tag))), more), id, x.s.now + delay, tag, Spares(more, id))
  {
    hide AddAfter, Play, RunsAt;
    AddsAfterExactly(x.s, delay, tag);
    var r := AddAfter(x.s, delay, tag);
    ScheduledRuns(x, r.schedule, r.id, Pending(x.s.now + delay, tag), more);
  }

  /** The same of an event scheduled at a time. */
  lemma RunsAtTime(x: Trail, when: int, tag: Tag, more: seq<Call>)
    requires Tidy(x.s) && AddAt(x.s, when, tag).Accepted?
    ensures var id := AddAt(x.s, when, tag).id;
      RunsAt(x, Play(PlayOne(x, Do(ScheduleAt(when, tag))), more), id, when, tag, Spares(more, id))
  {
    hide AddAt, Play, RunsAt;
    AddsAtExactly(x.s, when, tag);
    var r := AddAt(x.s, when, tag);
    ScheduledRuns(x, r.schedule, r.id, Pending(when, tag), more);
  }

  /** Whatever a program does, its identifiers stay tidy. */
  lemma {:induction false} PlayIsTidy(x: Trail, calls: seq<Call>)
    requires Tidy(x.s)
    ensures Tidy(Play(x, calls).s)
    decreases calls, 0
  {
    hide Tidy;
    if calls != [] {
      PlayIsTidy(x, calls[..|calls| - 1]);
      PlayOneIsTidy(Play(x, calls[..|calls| - 1]), calls[|calls| - 1]);
    }
  }

  lemma {:induction false} PlayOneIsTidy(x: Trail, call: Call)
    requires Tidy(x.s)
    ensures Tidy(PlayOne(x, call).s)
    decreases call, 0
  {
    hide Due;
    match call
    case Do(op) =>
    case Step(action) => if x.s.events != map[] { PlayIsTidy(Taken(x), action.calls); }
    case RunUntil(end, actions) => PlayDueIsTidy(x, end, actions);
  }

  lemma {:induction false} PlayDueIsTidy(x: Trail, end: int, actions: seq<Action>)
    requires Tidy(x.s)
    ensures Tidy(PlayDue(x, end, actions).s)
    decreases actions, 0
  {
    hide Due;
    if actions != [] {
      PlayDueIsTidy(x, end, actions[..|actions| - 1]);
      var y := PlayDue(x, end, actions[..|actions| - 1]);
      if y.s.events != map[] { PlayIsTidy(Taken(y), actions[|actions| - 1].calls); }
    }
  }

  // ----- cancelling, stepping and running until an end, exactly -----

  /** CANCELLING takes away exactly the event with that identifier, if it waits. */
  lemma CancelsExactly(s: Schedule, id: nat)
    ensures var s1 := Apply(s, Cancel(id));
      && s1.now == s.now && s1.nextID == s.nextID && s1.exhausted == s.exhausted
      && id !in s1.events
      && forall other: nat | other != id :: (other in s1.events <==> other in s.events) && (other in s.events ==> s1.events[other] == s.events[other])
  {
  }

  /** Neither waiting nor executed since, and its identifier is used up. */
  ghost predicate Gone(x: Trail, before: nat, id: nat) {
    && x.s.nextID > 0 && (id < x.s.nextID || x.s.exhausted)
    && before <= |x.ran| && Runs(x.ran[before..], id) == 0 && id !in x.s.events
  }

  lemma TakenStaysGone(x: Trail, before: nat, id: nat)
    requires Gone(x, before, id) && x.s.events != map[]
    ensures Gone(Taken(x), before, id)
  {
    var y := Taken(x);
    assert y.ran[before..] == x.ran[before..] + [KeyOf(x.s, Next(x.s))];
    assert y.ran[before..][..|x.ran| - before] == x.ran[before..];
  }

  lemma ApplyStaysGone(x: Trail, before: nat, id: nat, op: Op)
    requires Gone(x, before, id)
    ensures Gone(x.(s := Apply(x.s, op)), before, id)
  {
  }

  lemma {:induction false} PlayStaysGone(x: Trail, before: nat, id: nat, calls: seq<Call>)
    requires Gone(x, before, id)
    ensures Gone(Play(x, calls), before, id)
    decreases calls, 0
  {
    hide Gone;
    if calls != [] {
      PlayStaysGone(x, before, id, calls[..|calls| - 1]);
      PlayOneStaysGone(Play(x, calls[..|calls| - 1]), before, id, calls[|calls| - 1]);
    }
  }

  lemma {:induction false} PlayOneStaysGone(x: Trail, before: nat, id: nat, call: Call)
    requires Gone(x, before, id)
    ensures Gone(PlayOne(x, call), before, id)
    decreases call, 0
  {
    hide Due;
    match call
    case Do(op) => ApplyStaysGone(x, before, id, op);
    case Step(action) =>
      if x.s.events != map[] {
        TakenStaysGone(x, before, id);
        PlayStaysGone(Taken(x), before, id, action.calls);
      }
    case RunUntil(end, actions) => PlayDueStaysGone(x, before, id, end, actions);
  }

  lemma {:induction false} PlayDueStaysGone(x: Trail, before: nat, id: nat, end: int, actions: seq<Action>)
    requires Gone(x, before, id)
    ensures Gone(PlayDue(x, end, actions), before, id)
    decreases actions, 0
  {
    hide Gone;
    if actions != [] {
      PlayDueStaysGone(x, before, id, end, actions[..|actions| - 1]);
      var y := PlayDue(x, end, actions[..|actions| - 1]);
      if Due(y.s, end) {
        TakenStaysGone(y, before, id);
        PlayStaysGone(Taken(y), before, id, actions[|actions| - 1].calls);
      }
    }
  }

  /** A CANCELLED EVENT NEVER RUNS, whatever follows. */
  lemma CancelledNeverRuns(x: Trail, id: nat, more: seq<Call>)
    requires Tidy(x.s) && id in x.s.events
    ensures var y := Play(PlayOne(x, Do(Cancel(id))), more);
      id !in y.s.events && forall i | |x.ran| <= i < |y.ran| :: y.ran[i].id != id
  {
    var z := PlayOne(x, Do(Cancel(id)));
    assert x.ran[|x.ran|..] == [];
    assert Gone(z, |x.ran|, id);
    PlayStaysGone(z, |x.ran|, id, more);
    var y := Play(z, more);
    forall i | |x.ran| <= i < |y.ran|
      ensures y.ran[i].id != id
    {
      NotAmong(y.ran[|x.ran|..], id, i - |x.ran|);
    }
  }

  lemma {:induction false} NotAmong(ran: seq<Key>, id: nat, i: nat)
    requires Runs(ran, id) == 0 && i < |ran|
    ensures ran[i].id != id
  {
    if i < |ran| - 1 {
      NotAmong(ran[..|ran| - 1], id, i);
    }
  }

  /** A STEP executes the earliest event, of equal times the one scheduled first, and takes the clock to it. */
  lemma StepsExactly(x: Trail)
    ensures var y := PlayOne(x, Step(Action([])));
      if x.s.events == map[] then y == x
      else exists id ::
        && id in x.s.events && y.ran == x.ran + [Key(x.s.events[id].when, id)]
        && y.s == x.s.(now := x.s.events[id].when, events := x.s.events - {id})
        && forall other | other in x.s.events && other != id ::
             x.s.events[id].when < x.s.events[other].when || (x.s.events[id].when == x.s.events[other].when && id < other)
  {
    if x.s.events != map[] {
      var id := Next(x.s);
      assert id in x.s.events;
      forall other | other in x.s.events && other != id
        ensures x.s.events[id].when < x.s.events[other].when || (x.s.events[id].when == x.s.events[other].when && id < other)
      {
        assert !Before(KeyOf(x.s, other), KeyOf(x.s, id));
      }
    }
  }

  /** Executed events are never taken back. */
  lemma {:induction false} PlayExtends(x: Trail, calls: seq<Call>)
    ensures x.ran <= Play(x, calls).ran
    decreases calls, 0
  {
    if calls != [] {
      PlayExtends(x, calls[..|calls| - 1]);
      PlayOneExtends(Play(x, calls[..|calls| - 1]), calls[|calls| - 1]);
    }
  }

  lemma {:induction false} PlayOneExtends(x: Trail, call: Call)
    ensures x.ran <= PlayOne(x, call).ran
    decreases call, 0
  {
    hide Due;
    match call
    case Do(_) =>
    case Step(action) => if x.s.events != map[] { PlayExtends(Taken(x), action.calls); }
    case RunUntil(end, actions) => PlayDueExtends(x, end, actions);
  }

  lemma {:induction false} PlayDueExtends(x: Trail, end: int, actions: seq<Action>)
    ensures x.ran <= PlayDue(x, end, actions).ran
    ensures Due(PlayDue(x, end, actions).s, end) ==> |PlayDue(x, end, actions).ran| >= |x.ran| + |actions|
    decreases actions, 0
  {
    hide Due;
    if actions != [] {
      PlayDueExtends(x, end, actions[..|actions| - 1]);
      var y := PlayDue(x, end, actions[..|actions| - 1]);
      if Due(y.s, end) {
        assert y.s.events != map[] by { DueIsSomething(y.s, end); }
        PlayExtends(Taken(y), actions[|actions| - 1].calls);
      }
    }
  }

  lemma DueIsSomething(s: Schedule, end: int)
    requires Due(s, end)
    ensures s.events != map[]
  {
  }

  /** These actions only schedule and cancel. */
  predicate Plain(actions: seq<Action>) {
    forall i, j | 0 <= i < |actions| && 0 <= j < |actions[i].calls| :: actions[i].calls[j].Do?
  }

  lemma {:induction false} DoingRunsNothing(x: Trail, calls: seq<Call>)
    requires forall j | 0 <= j < |calls| :: calls[j].Do?
    ensures Play(x, calls).ran == x.ran
  {
    if calls != [] {
      DoingRunsNothing(x, calls[..|calls| - 1]);
    }
  }

  lemma NextIsDue(s: Schedule, end: int)
    requires Due(s, end)
    ensures s.events != map[] && s.events[Next(s)].when <= end
  {
    var id :| id in s.events && s.events[id].when <= end;
    assert !Before(KeyOf(s, id), KeyOf(s, Next(s)));
  }

  lemma {:induction false} OnlyDueRun(x: Trail, end: int, actions: seq<Action>)
    requires Plain(actions)
    ensures x.ran <= PlayDue(x, end, actions).ran && |PlayDue(x, end, actions).ran| <= |x.ran| + |actions|
    ensures forall i | |x.ran| <= i < |PlayDue(x, end, actions).ran| :: PlayDue(x, end, actions).ran[i].when <= end
  {
    hide Due;
    if actions != [] {
      var front, last := actions[..|actions| - 1], actions[|actions| - 1];
      OnlyDueRun(x, end, front);
      var y := PlayDue(x, end, front);
      if Due(y.s, end) {
        NextIsDue(y.s, end);
        DoingRunsNothing(Taken(y), last.calls);
      }
    }
  }

  /**
   * RUNNING UNTIL AN END, exactly: unless the end is past, it ends with the clock at the end and all
   * that is pending later than that, or it goes on: as many events ran as actions are given, and
   * something is still due.  A pending event that nothing cancels has run then, if it was due; and
   * nothing that is not due runs unless an action runs it.
   */
  lemma RunsUntilExactly(x: Trail, end: int, actions: seq<Action>)
    requires Tidy(x.s)
    ensures var y := PlayOne(x, RunUntil(end, actions));
      if end < 0 || end < x.s.now then y == x
      else
        && x.ran <= y.ran
        && (if forall id | id in y.s.events :: y.s.events[id].when > end then
              && y.s.now == end
              && forall id | id in x.s.events && x.s.events[id].when <= end && SparesAll(actions, id) :: Runs(y.ran[|x.ran|..], id) == 1
            else |y.ran| >= |x.ran| + |actions|)
        && (Plain(actions) ==>
             |y.ran| <= |x.ran| + |actions| && forall i | |x.ran| <= i < |y.ran| :: y.ran[i].when <= end)
  {
    if 0 <= end && x.s.now <= end {
      var z, y := PlayDue(x, end, actions), PlayOne(x, RunUntil(end, actions));
      PlayDueExtends(x, end, actions);
      if Plain(actions) { OnlyDueRun(x, end, actions); }
      if !Due(z.s, end) {
        forall id | id in x.s.events && x.s.events[id].when <= end && SparesAll(actions, id)
          ensures Runs(y.ran[|x.ran|..], id) == 1
        {
          assert x.ran[|x.ran|..] == [];
          assert Fate(x, |x.ran|, id, x.s.events[id], true);
          PlayDueKeepsFate(x, |x.ran|, id, x.s.events[id], true, end, actions);
        }
      }
    }
  }

  // ----- the object's steps are such calls -----

  function Calls(ops: seq<Op>): seq<Call> {
    seq(|ops|, i requires 0 <= i < |ops| => Do(ops[i]))
  }

  lemma {:induction false} OpsPlay(x: Trail, ops: seq<Op>)
    ensures Play(x, Calls(ops)) == x.(s := ApplyAll(x.s, ops))
  {
    if ops != [] {
      OpsPlay(x, ops[..|ops| - 1]);
      assert Calls(ops)[..|ops| - 1] == Calls(ops[..|ops| - 1]);
    }
  }

  /** A step whose action schedules and cancels is the step of the object. */
  lemma StepIsCall(x: Trail, react: Tag -> seq<Op>)
    requires x.s.events != map[]
    ensures var (s, ran) := StepOf(x.s, react);
      PlayOne(x, Step(Action(Calls(react(x.s.events[Next(x.s)].tag))))) == Trail(s, x.ran + ran, x.behind)
  {
    OpsPlay(Taken(x), react(x.s.events[Next(x.s)].tag));
  }

  // ----- exactly when the order can break -----

  /** Whatever comes next that sets the clock back no further, executed events increase. */
  ghost predicate StaysOrdered(x: Trail) {
    forall more: seq<Call> {:trigger Play(x, more)} :: !Play(x, more).behind ==> Increasing(Play(x, more).ran)
  }

  /**
   * THE ORDER, exactly: a run that was in order stays so after a RunUntil ends, if and only if the
   * end is not before the last executed event, or no event can be scheduled any more.
   */
  lemma OrderedExactly(x: Trail, end: nat)
    requires !x.behind && Increasing(x.ran) && Sane(x.s, Last(Key(0, 0), x.ran)) && !Due(x.s, end)
    ensures StaysOrdered(Finished(x, end).(behind := false)) <==> end >= Last(Key(0, 0), x.ran).when || x.s.exhausted
  {
    var z := Finished(x, end).(behind := false);
    if end >= Last(Key(0, 0), x.ran).when || x.s.exhausted {
      FinishedInOrder(x, end);
      forall more: seq<Call>
        ensures !Play(z, more).behind ==> Increasing(Play(z, more).ran)
      {
        PlayInOrder(z, more);
      }
    } else {
      SetBackBreaksOrder(x, end);
    }
  }

  ghost function Intruder(end: nat): seq<Call> {
    [Do(ScheduleAt(end, [])), Step(Action([]))]
  }

  lemma SetBackBreaksOrder(x: Trail, end: nat)
    requires !x.behind && Sane(x.s, Last(Key(0, 0), x.ran)) && !Due(x.s, end)
    requires end < Last(Key(0, 0), x.ran).when && !x.s.exhausted
    ensures var z := Play(Finished(x, end).(behind := false), Intruder(end)); !z.behind && !Increasing(z.ran)
  {
    hide Increasing;
    var z := Finished(x, end).(behind := false);
    var calls := Intruder(end);
    assert calls[..1] == [calls[0]] && calls[..1][..0] == [];
    var y := PlayOne(z, calls[0]);
    assert Play(z, calls[..1]) == y;
    var id := AddAt(z.s, end, []).id;
    assert y.s.events == x.s.events[id := Pending(end, [])];
    assert IsNext(y.s, id);
    NextIsUnique(y.s, Next(y.s), id);
    assert Play(z, calls) == Play(Taken(y), []);
    var ran := Taken(y).ran;
    assert ran[|ran| - 2] == Last(Key(0, 0), x.ran) && ran[|ran| - 1] == Key(end, id);
    NotIncreasing(ran);
  }

  lemma NotIncreasing(keys: seq<Key>)
    requires |keys| >= 2 && !Before(keys[|keys| - 2], keys[|keys| - 1])
    ensures !Increasing(keys)
  {
  }

  /** A step inside an event's own action takes the clock past the end of the run around it, which then sets it back. */
  const NESTED: seq<Call> := [Do(ScheduleAt(1, [])), Do(ScheduleAt(10, [])), RunUntil(5, [Action([Step(Action([]))])]), Do(ScheduleAt(6, [])),
    Step(Action([]))]

  lemma NestedRunBreaksOrder()
    ensures Play(START, NESTED).ran == [Key(1, 1), Key(10, 2), Key(6, 3)]
    ensures !Increasing(Play(START, NESTED).ran)
  {
    var e := Pending(1, []);
    var s2 := Schedule(0, 3, false, map[1 := Pending(1, []), 2 := Pending(10, [])]);
    assert NESTED[..5] == NESTED && NESTED[..4][..3] == NESTED[..3] && NESTED[..3][..2] == NESTED[..2] && NESTED[..2][..1] == NESTED[..1];
    assert NESTED[..1][..0] == [] && NESTED[..5][..4] == NESTED[..4];
    assert Play(START, NESTED[..0]) == START;
    assert Play(START, NESTED[..1]) == Trail(Schedule(0, 2, false, map[1 := Pending(1, [])]), [], false);
    assert Play(START, NESTED[..2]) == Trail(s2, [], false);
    NestedRun(s2);
    var x3 := Trail(Schedule(5, 3, false, map[]), [Key(1, 1), Key(10, 2)], true);
    assert Play(START, NESTED[..3]) == x3;
    var x4 := x3.(s := Schedule(5, 4, false, map[3 := Pending(6, [])]));
    assert Play(START, NESTED[..4]) == x4;
    RunsNext(x4, 3, Action([]));
    assert Play(START, NESTED) == PlayOne(x4, Step(Action([])));
    assert x3.ran + [Key(6, 3)] == [Key(1, 1), Key(10, 2), Key(6, 3)];
    NotIncreasing(Play(START, NESTED).ran);
  }

  lemma NestedRun(s: Schedule)
    requires s == Schedule(0, 3, false, map[1 := Pending(1, []), 2 := Pending(10, [])])
    ensures PlayOne(Trail(s, [], false), RunUntil(5, [Action([Step(Action([]))])])) ==
            Trail(Schedule(5, 3, false, map[]), [Key(1, 1), Key(10, 2)], true)
  {
    var x := Trail(s, [], false);
    assert s.events[1].when == 1 && Due(s, 5);
    assert IsNext(s, 1);
    NextIsUnique(s, Next(s), 1);
    assert s.events - {1} == map[2 := Pending(10, [])];
    var x1 := Trail(Schedule(1, 3, false, map[2 := Pending(10, [])]), [Key(1, 1)], false);
    assert Taken(x) == x1;
    assert IsNext(x1.s, 2);
    RunsNext(x1, 2, Action([]));
    var x2 := Trail(Schedule(10, 3, false, map[]), [Key(1, 1), Key(10, 2)], false);
    assert x1.s.events - {2} == map[];
    assert PlayOne(x1, Step(Action([]))) == x2;
    var inner := [Step(Action([]))];
    assert inner[..0] == [] && Play(x1, []) == x1;
    assert Play(x1, inner) == x2;
    var actions := [Action(inner)];
    assert actions[..0] == [] && PlayDue(x, 5, []) == x;
    assert PlayDue(x, 5, actions) == x2;
    assert !Due(x2.s, 5);
  }

  lemma RunsNext(x: Trail, id: nat, action: Action)
    requires IsNext(x.s, id)
    ensures PlayOne(x, Step(action)) == Play(x.(s := Without(x.s, id).(now := x.s.events[id].when), ran := x.ran + [KeyOf(x.s, id)]), action.calls)
  {
    NextIsUnique(x.s, Next(x.s), id);
  }
}

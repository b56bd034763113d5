/**
 * The simulator object (simulator.go): its heap, its pending table and its clock, proved to do to
 * their contents exactly what module Scheduler says.
 */
module Simulator {
  import opened EventQueue
  import S = Scheduler

  class Simulator {
    const queue: EventHeap
    var now: nat
    var nextID: nat
    var exhausted: bool
    var pending: map<nat, ScheduledEvent>
    /** The pending events as values. */
    ghost var contents: map<nat, S.Pending>

    ghost predicate Valid()
      reads this, queue, queue.events
    {
      && Linked()
      && nextID <= S.MAX_ID
      && (!exhausted ==> forall id | id in pending :: id < nextID)
    }

    /** The queue, the table and the contents hold the same events. */
    ghost predicate Linked()
      reads this`pending, this`contents, queue, queue.events
    {
      && queue.Valid()
      && contents.Keys == pending.Keys
      && (forall e | e in queue.Footprint() :: e.id in pending && pending[e.id] == e)
      && (forall id | id in pending ::
            && pending[id] in queue.Footprint()
            && pending[id].id == id
            && contents[id] == S.Pending(pending[id].when, pending[id].tag))
    }

    ghost function Value(): S.Schedule
      reads this
    {
      S.Schedule(now, nextID, exhausted, contents)
    }

    constructor ()
      ensures Valid() && Value() == S.EMPTY && fresh(queue) && queue.Footprint() == {}
    {
      queue := new EventHeap();
      now, nextID, exhausted := 0, 1, false;
      pending, contents := map[], map[];
    }

    /** Every pending event has a place, and the table knows which. */
    lemma PlaceOf(id: nat) returns (i: nat)
      requires Valid() && id in pending
      ensures i < |queue.events| && queue.events[i] == pending[id] && pending[id].index == i
    {
      i :| 0 <= i < |queue.events| && queue.events[i] == pending[id];
    }

    method Insert(id: nat, when: nat, tag: Tag)
      requires Linked() && id !in pending
      modifies this`pending, this`contents, queue, queue.Footprint()
      ensures Linked() && fresh(queue.Footprint() - old(queue.Footprint()))
      ensures contents == old(contents)[id := S.Pending(when, tag)] && pending.Keys == old(pending).Keys + {id}
    {
      var event := new ScheduledEvent(id, when, tag);
      pending := pending[id := event];
      contents := contents[id := S.Pending(when, tag)];
      queue.Push(event);
    }

    method AddAt(when: int, tag: Tag) returns (id: nat, error: EventError)
      requires Valid()
      modifies this, queue, queue.Footprint()
      ensures Valid() && fresh(queue.Footprint() - old(queue.Footprint()))
      ensures match S.AddAt(old(Value()), when, tag)
              case Accepted(s, newID) => error == NoError && id == newID && Value() == s
              case Refused(e) => error == Rejected(e) && Value() == old(Value())
    {
      hide Linked;
      if when < 0 {
        return 0, Rejected(S.NegativeTime);
      }
      if when < now {
        return 0, Rejected(S.Past);
      }
      if exhausted {
        return 0, Rejected(S.Exhausted);
      }
      if nextID == 0 {
        nextID := 1;
      }
      id := nextID;
      Insert(id, when, tag);
      if id == S.MAX_ID {
        exhausted := true;
      } else {
        nextID := nextID + 1;
      }
      error := NoError;
    }

    method AddAfter(delay: int, tag: Tag) returns (id: nat, error: EventError)
      requires Valid()
      modifies this, queue, queue.Footprint()
      ensures Valid() && fresh(queue.Footprint() - old(queue.Footprint()))
      ensures match S.AddAfter(old(Value()), delay, tag)
              case Accepted(s, newID) => error == NoError && id == newID && Value() == s
              case Refused(e) => error == Rejected(e) && Value() == old(Value())
    {
      if delay < 0 {
        return 0, Rejected(S.NegativeTime);
      }
      if now > S.MAX_TIME - delay {
        return 0, Rejected(S.TimeOverflow);
      }
      id, error := AddAt(now + delay, tag);
    }

    /** False if the identifier is not pending, or not any more. */
    method Cancel(id: nat) returns (canceled: bool)
      requires Valid()
      modifies this, queue, queue.Footprint()
      ensures Valid() && queue.Footprint() <= old(queue.Footprint())
      ensures canceled == (id in old(contents)) && Value() == S.Without(old(Value()), id)
    {
      if id !in pending {
        assert contents - {id} == contents;
        return false;
      }
      var event := pending[id];
      var place := PlaceOf(id);
      pending := pending - {id};
      contents := contents - {id};
      var removed := queue.Remove(event.index);
      return true;
    }

    /** What Step does before it runs the action: the event that comes first, whatever the heap's layout. */
    method Pop() returns (event: ScheduledEvent)
      requires Valid() && |queue.events| > 0
      modifies this, queue, queue.Footprint()
      ensures Valid() && queue.Footprint() <= old(queue.Footprint())
      ensures old(contents) != map[]
      ensures event.id == S.Next(old(Value())) && event.tag == old(contents)[event.id].tag
      ensures event.when == old(contents)[event.id].when
      ensures Value() == S.Popped(old(Value()))
    {
      ghost var s := Value();
      event := queue.Pop();
      assert event in old(queue.Footprint());
      assert S.IsNext(s, event.id) by {
        forall other | other in s.events
          ensures !Before(S.KeyOf(s, other), S.KeyOf(s, event.id))
        {
          var e := pending[other];
          assert e in old(queue.Footprint()) && e.Rank() == S.KeyOf(s, other);
          if e != event {
            assert e in queue.Footprint();
          }
        }
      }
      S.NextIsUnique(s, event.id, S.Next(s));
      pending := pending - {event.id};
      contents := contents - {event.id};
      now := event.when;
    }

    method PerformAll(ops: seq<S.Op>)
      requires Valid()
      modifies this, queue, queue.Footprint()
      ensures Valid() && fresh(queue.Footprint() - old(queue.Footprint()))
      ensures Value() == S.ApplyAll(old(Value()), ops)
    {
      for i := 0 to |ops|
        invariant Valid() && fresh(queue.Footprint() - old(queue.Footprint()))
        invariant Value() == S.ApplyAll(old(Value()), ops[..i])
      {
        assert ops[..i + 1][..i] == ops[..i];
        match ops[i] {
          case ScheduleAfter(delay, tag) => var id, error := AddAfter(delay, tag);
          case ScheduleAt(when, tag) => var id, error := AddAt(when, tag);
          case Cancel(id) => var canceled := Cancel(id);
        }
      }
      assert ops[..|ops|] == ops;
    }

    /** Executes the next event, whose action is `react` of its tag. */
    method Step(react: Tag -> seq<S.Op>) returns (ran: bool, executed: seq<Key>)
      requires Valid()
      modifies this, queue, queue.Footprint()
      ensures Valid() && fresh(queue.Footprint() - old(queue.Footprint()))
      ensures (Value(), executed) == S.StepOf(old(Value()), react)
      ensures ran == (old(contents) != map[])
    {
      if |queue.events| == 0 {
        assert contents.Keys == {};
        return false, [];
      }
      var event := Pop();
      executed := [event.Rank()];
      PerformAll(react(event.tag));
      ran := true;
    }

    /** At most `limit` events; a negative limit runs none. */
    method RunSteps(limit: int, react: Tag -> seq<S.Op>) returns (count: int, executed: seq<Key>)
      requires Valid()
      modifies this, queue, queue.Footprint()
      ensures Valid() && fresh(queue.Footprint() - old(queue.Footprint()))
      ensures 0 <= count && (limit >= 0 ==> count <= limit) && |executed| == count
      ensures (Value(), executed) == S.RunFrom(old(Value()), count, react)
      ensures count < limit ==> contents == map[]
    {
      count, executed := 0, [];
      while count < limit
        invariant Valid() && fresh(queue.Footprint() - old(queue.Footprint()))
        invariant 0 <= count && (limit >= 0 ==> count <= limit) && |executed| == count
        invariant (Value(), executed) == S.RunFrom(old(Value()), count, react)
      {
        var ran, key := Step(react);
        if !ran {
          break;
        }
        executed := executed + key;
        count := count + 1;
      }
    }

    /** The root of the heap tells whether anything is due. */
    lemma RootTells(end: int)
      requires Valid()
      ensures S.Due(Value(), end) <==> |queue.events| > 0 && queue.events[0].when <= end
    {
      if |queue.events| > 0 {
        var root := queue.events[0];
        assert root in queue.Footprint() && contents[root.id].when == root.when;
        forall id | id in contents
          ensures contents[id].when >= root.when
        {
          var i := PlaceOf(id);
          RootIsFirst(Keys(queue.events), i);
        }
      } else {
        forall id | id in contents
          ensures false
        {
          var i := PlaceOf(id);
        }
      }
    }

    lemma RunFromNothing(react: Tag -> seq<S.Op>)
      ensures S.RunFrom(Value(), 0, react) == (Value(), [])
    {
    }

    /** What is due up to `end`, but at most `limit` events; then, if nothing is due any more, the clock is set to it. */
    method RunUntil(end: int, limit: nat, react: Tag -> seq<S.Op>)
      returns (count: nat, done: bool, error: EventError, executed: seq<Key>)
      requires Valid()
      modifies this, queue, queue.Footprint()
      ensures Valid() && fresh(queue.Footprint() - old(queue.Footprint()))
      ensures error == if end < 0 then Rejected(S.NegativeTime) else if end < old(now) then Rejected(S.Past) else NoError
      ensures error != NoError ==> Value() == old(Value()) && count == 0
      ensures error == NoError ==>
        var (s, ran) := S.RunFrom(old(Value()), count, react);
        && executed == ran && count <= limit
        && (forall i: nat | i < count :: S.Due(S.RunFrom(old(Value()), i, react).0, end))
        && (if done then !S.Due(s, end) && Value() == s.(now := end) else count == limit && Value() == s)
    {
      hide Linked, S.RunFrom, S.StepOf, S.Due;
      count, done, executed := 0, false, [];
      RunFromNothing(react);
      if end < 0 { return 0, false, Rejected(S.NegativeTime), []; }
      if end < now { return 0, false, Rejected(S.Past), []; }
      error := NoError;
      RootTells(end);
      while count < limit && |queue.events| > 0 && queue.events[0].when <= end
        invariant Valid() && fresh(queue.Footprint() - old(queue.Footprint()))
        invariant count <= limit && (Value(), executed) == S.RunFrom(old(Value()), count, react)
        invariant S.Due(Value(), end) <==> |queue.events| > 0 && queue.events[0].when <= end
        invariant forall i: nat | i < count :: S.Due(S.RunFrom(old(Value()), i, react).0, end)
        decreases limit - count
      {
        S.RunFromStep(old(Value()), count, react);
        var ran, key := Step(react);
        executed := executed + key;
        count := count + 1;
        RootTells(end);
      }
      if |queue.events| == 0 || queue.events[0].when > end {
        done := true;
        now := end;
      }
    }
  }

  datatype EventError = NoError | Rejected(error: S.Error)
}

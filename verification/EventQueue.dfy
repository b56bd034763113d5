/**
 * The event queue of the simulator (queue.go): an in-place binary heap of event objects that
 * remember their own position, so that any of them can be removed.
 */
module EventQueue {

  /** Events run by time, and at one time in the order they were scheduled. */
  datatype Key = Key(when: nat, id: nat)

  predicate Before(a: Key, b: Key) {
    a.when < b.when || (a.when == b.when && a.id < b.id)
  }

  type Tag = seq<char>

  class ScheduledEvent {
    const id: nat
    const when: nat
    const tag: Tag
    var index: int

    constructor (id: nat, when: nat, tag: Tag)
      ensures this.id == id && this.when == when && this.tag == tag
    {
      this.id := id;
      this.when := when;
      this.tag := tag;
      this.index := -1;
    }

    function Rank(): Key {
      Key(when, id)
    }
  }

  // ----- heap order, on keys -----

  function Parent(i: nat): nat
    requires i > 0
  {
    (i - 1) / 2
  }

  predicate OrderedAt(k: seq<Key>, i: nat)
    requires 0 < i < |k|
  {
    !Before(k[i], k[Parent(i)])
  }

  predicate Ordered(k: seq<Key>) {
    forall i {:trigger OrderedAt(k, i)} | 0 < i < |k| :: OrderedAt(k, i)
  }

  /** Ordered but for the place x: everything else is, and what is below x is not before what is above it. */
  predicate OrderedBut(k: seq<Key>, x: nat) {
    && (forall i {:trigger OrderedAt(k, i)} | 0 < i < |k| :: i != x && Parent(i) != x ==> OrderedAt(k, i))
    && (forall i {:trigger k[i]} | 0 < i < |k| :: Parent(i) == x && 0 < x ==> !Before(k[i], k[Parent(x)]))
  }

  predicate ChildrenOK(k: seq<Key>, x: nat) {
    forall i {:trigger OrderedAt(k, i)} | 0 < i < |k| :: Parent(i) == x ==> OrderedAt(k, i)
  }

  function Swapped(k: seq<Key>, i: nat, j: nat): seq<Key>
    requires i < |k| && j < |k|
  {
    k[i := k[j]][j := k[i]]
  }

  lemma OrderedEverywhere(k: seq<Key>, x: nat)
    requires OrderedBut(k, x) && ChildrenOK(k, x)
    requires 0 < x < |k| ==> OrderedAt(k, x)
    ensures Ordered(k)
  {
    forall i | 0 < i < |k|
      ensures OrderedAt(k, i)
    {
    }
  }

  /** Swapping with a later parent moves the fault up. */
  lemma SwapUp(k: seq<Key>, x: nat)
    requires 0 < x < |k| && OrderedBut(k, x) && ChildrenOK(k, x)
    requires Before(k[x], k[Parent(x)])
    ensures var k' := Swapped(k, x, Parent(x)); OrderedBut(k', Parent(x)) && ChildrenOK(k', Parent(x))
  {
    var p := Parent(x);
    var k' := Swapped(k, x, p);
    forall i | 0 < i < |k|
      ensures i != p && Parent(i) != p ==> OrderedAt(k', i)
      ensures Parent(i) == p ==> OrderedAt(k', i)
      ensures Parent(i) == p && 0 < p ==> !Before(k'[i], k'[Parent(p)])
    {
      assert Parent(i) < i;
      if i != x && Parent(i) != x {
        assert OrderedAt(k, i);
      } else if Parent(i) == x {
        assert OrderedAt(k, i) && k[i] == k'[i];
      }
      if 0 < p {
        assert OrderedAt(k, p);
      }
    }
  }

  /** Swapping with the first child moves the fault down, and mends what is above it. */
  lemma SwapDown(k: seq<Key>, x: nat, s: nat)
    requires 0 < s < |k| && Parent(s) == x && OrderedBut(k, x)
    requires Before(k[s], k[x])
    requires forall i | 0 < i < |k| && Parent(i) == x :: !Before(k[i], k[s])
    ensures var k' := Swapped(k, x, s); OrderedBut(k', s) && OrderedAt(k', s) && (0 < x ==> OrderedAt(k', x))
  {
    var k' := Swapped(k, x, s);
    assert 0 < x ==> !Before(k[s], k[Parent(x)]);
    forall i | 0 < i < |k|
      ensures i != s && Parent(i) != s ==> OrderedAt(k', i)
      ensures Parent(i) == s ==> !Before(k'[i], k'[Parent(s)])
    {
      assert Parent(i) < i;
      if Parent(i) == s {
        assert OrderedAt(k, i);
      } else if i != s && i != x && Parent(i) != x {
        assert OrderedAt(k, i);
      }
    }
  }

  /** The smaller child of a place, which is all of its children's lower bound. */
  lemma SmallestChild(k: seq<Key>, x: nat, s: nat)
    requires x < |k| && 2 * x + 1 < |k|
    requires s == if 2 * x + 2 < |k| && Before(k[2 * x + 2], k[2 * x + 1]) then 2 * x + 2 else 2 * x + 1
    ensures Parent(s) == x && forall i | 0 < i < |k| && Parent(i) == x :: !Before(k[i], k[s])
    ensures !Before(k[s], k[x]) ==> ChildrenOK(k, x)
  {
    forall i | 0 < i < |k| && Parent(i) == x
      ensures i == 2 * x + 1 || i == 2 * x + 2
    {
    }
  }

  /** The root of a heap comes before everything else in it. */
  lemma {:induction false} RootIsFirst(k: seq<Key>, i: nat)
    requires Ordered(k) && i < |k|
    ensures !Before(k[i], k[0])
  {
    if i > 0 {
      RootIsFirst(k, Parent(i));
      assert OrderedAt(k, i);
    }
  }

  /** Taking the last place off leaves an ordered heap. */
  lemma WithoutLast(k: seq<Key>)
    requires |k| > 0 && Ordered(k)
    ensures Ordered(k[..|k| - 1])
  {
    var k' := k[..|k| - 1];
    forall i | 0 < i < |k'|
      ensures OrderedAt(k', i)
    {
      assert OrderedAt(k, i);
    }
  }

  /** Putting the last element in the place of another, and taking the last place off, spoils only that place. */
  lemma LastInto(k: seq<Key>, x: nat)
    requires Ordered(k) && x < |k| - 1
    ensures OrderedBut(Swapped(k, x, |k| - 1)[..|k| - 1], x)
  {
    var k' := Swapped(k, x, |k| - 1)[..|k| - 1];
    forall i | 0 < i < |k'|
      ensures i != x && Parent(i) != x ==> OrderedAt(k', i)
      ensures Parent(i) == x && 0 < x ==> !Before(k'[i], k'[Parent(x)])
    {
      assert OrderedAt(k, i);
      if 0 < x {
        assert OrderedAt(k, x);
      }
    }
  }

  lemma AppendedSpoilsLast(k: seq<Key>, e: Key)
    requires Ordered(k)
    ensures OrderedBut(k + [e], |k|) && ChildrenOK(k + [e], |k|)
  {
    var k' := k + [e];
    forall i | 0 < i < |k'|
      ensures i != |k| ==> OrderedAt(k', i)
    {
      if i != |k| {
        assert OrderedAt(k, i);
      }
    }
  }

  // ----- the heap itself -----

  function Keys(h: seq<ScheduledEvent>): (k: seq<Key>)
    ensures |k| == |h| && forall i | 0 <= i < |h| :: k[i] == h[i].Rank()
  {
    seq(|h|, i requires 0 <= i < |h| => h[i].Rank())
  }

  function Exchange(h: seq<ScheduledEvent>, i: nat, j: nat): (r: seq<ScheduledEvent>)
    requires i < |h| && j < |h|
    ensures |r| == |h| && Keys(r) == Swapped(Keys(h), i, j)
    ensures (set e | e in r) == (set e | e in h)
  {
    var r := h[i := h[j]][j := h[i]];
    assert forall x | 0 <= x < |h| :: h[x] == r[if x == i then j else if x == j then i else x];
    r
  }

  /** Every event knows its own place; so no event has two. */
  ghost predicate Placed(h: seq<ScheduledEvent>)
    reads h
  {
    forall i {:trigger h[i]} | 0 <= i < |h| :: h[i].index == i
  }

  class EventHeap {
    var events: seq<ScheduledEvent>

    constructor ()
      ensures events == []
    {
      events := [];
    }

    ghost predicate Valid()
      reads this, events
    {
      Placed(events) && Ordered(Keys(events))
    }

    ghost function Footprint(): set<ScheduledEvent>
      reads this
    {
      set e | e in events
    }

    predicate Less(i: nat, j: nat)
      requires i < |events| && j < |events|
      reads this
    {
      Before(events[i].Rank(), events[j].Rank())
    }

    method Swap(i: nat, j: nat)
      requires i < |events| && j < |events| && Placed(events)
      modifies this, Footprint()
      ensures events == Exchange(old(events), i, j) && Placed(events)
      ensures Footprint() == old(Footprint())
    {
      ghost var was := events;
      events := events[i := events[j]][j := events[i]];
      events[i].index := i;
      events[j].index := j;
      assert forall x | 0 <= x < |was| && x != i && x != j :: events[x] == was[x] && was[x].index == x;
    }

    /** Sifts the event at a place towards the root. */
    method Up(start: nat)
      requires start < |events| && Placed(events)
      requires OrderedBut(Keys(events), start) && ChildrenOK(Keys(events), start)
      modifies this, Footprint()
      ensures Valid() && Footprint() == old(Footprint())
    {
      var index: nat := start;
      while index > 0
        invariant index < |events| && Placed(events)
        invariant Footprint() == old(Footprint())
        invariant OrderedBut(Keys(events), index) && ChildrenOK(Keys(events), index)
      {
        var parent := (index - 1) / 2;
        if !Less(index, parent) {
          assert OrderedAt(Keys(events), index);
          break;
        }
        SwapUp(Keys(events), index);
        Swap(index, parent);
        index := parent;
      }
      OrderedEverywhere(Keys(events), index);
    }

    method SmallerChild(index: nat) returns (smallest: nat)
      requires 2 * index + 1 < |events|
      ensures index < smallest < |events| && Parent(smallest) == index
      ensures forall i | 0 < i < |events| && Parent(i) == index :: !Before(Keys(events)[i], Keys(events)[smallest])
      ensures !Before(Keys(events)[smallest], Keys(events)[index]) ==> ChildrenOK(Keys(events), index)
    {
      var left := 2 * index + 1;
      smallest := left;
      var right := left + 1;
      if right < |events| && Less(right, left) {
        smallest := right;
      }
      SmallestChild(Keys(events), index, smallest);
    }

    /** Sifts the event at a place towards the leaves; says whether it moved. */
    method Down(start: nat) returns (moved: bool)
      requires start < |events| && Placed(events) && OrderedBut(Keys(events), start)
      modifies this, Footprint()
      ensures Placed(events) && Footprint() == old(Footprint())
      ensures moved ==> Ordered(Keys(events))
      ensures !moved ==> events == old(events) && ChildrenOK(Keys(events), start)
    {
      var index: nat := start;
      while true
        invariant start <= index < |events| && Placed(events)
        invariant Footprint() == old(Footprint())
        invariant OrderedBut(Keys(events), index)
        invariant index == start ==> events == old(events)
        invariant index > start ==> OrderedAt(Keys(events), index)
        decreases |events| - index
      {
        if 2 * index + 1 >= |events| {
          break;
        }
        var smallest := SmallerChild(index);
        if !Less(smallest, index) {
          break;
        }
        SwapDown(Keys(events), index, smallest);
        Swap(index, smallest);
        index := smallest;
      }
      assert ChildrenOK(Keys(events), index);
      moved := index != start;
      if moved {
        OrderedEverywhere(Keys(events), index);
      }
    }

    method Push(event: ScheduledEvent)
      requires Valid() && event !in events
      modifies this, Footprint(), event
      ensures Valid() && Footprint() == old(Footprint()) + {event}
    {
      event.index := |events|;
      AppendedSpoilsLast(Keys(events), event.Rank());
      assert Keys(events + [event]) == Keys(events) + [event.Rank()];
      events := events + [event];
      Up(event.index);
    }

    /** Takes the event at a place out, with the last one in its place. */
    method Detach(index: nat) returns (event: ScheduledEvent)
      requires Placed(events) && index < |events|
      modifies this, Footprint()
      ensures var was, last := old(events), |old(events)| - 1;
        events == Exchange(was, index, last)[..last] && event == was[index]
      ensures Placed(events) && event !in events && event.index == -1
      ensures Footprint() == old(Footprint()) - {event}
    {
      var last := |events| - 1;
      Swap(index, last);
      ghost var swapped := events;
      event := events[last];
      events := events[..last];
      assert swapped == events + [event];
      assert forall i | 0 <= i < last :: events[i] == swapped[i] && swapped[i].index == i;
      event.index := -1;
    }

    /** Removes the event at a place, which then has none. */
    method Remove(index: nat) returns (event: ScheduledEvent)
      requires Valid() && index < |events|
      modifies this, Footprint()
      ensures Valid() && event == old(events[index]) && event !in events && event.index == -1
      ensures Footprint() == old(Footprint()) - {event}
    {
      ghost var was := Keys(events);
      var last := |events| - 1;
      event := Detach(index);
      assert Keys(events) == Swapped(was, index, last)[..last];
      if index != last {
        LastInto(was, index);
        var moved := Down(index);
        if !moved {
          Up(index);
        }
      } else {
        WithoutLast(was);
        assert Keys(events) == was[..last];
      }
    }

    method Pop() returns (event: ScheduledEvent)
      requires Valid() && |events| > 0
      modifies this, Footprint()
      ensures Valid() && event == old(events[0]) && event !in events && event.index == -1
      ensures Footprint() == old(Footprint()) - {event}
      ensures forall e | e in events :: !Before(e.Rank(), event.Rank())
    {
      ghost var was := events;
      event := Remove(0);
      forall e | e in events
        ensures !Before(e.Rank(), event.Rank())
      {
        assert e in Footprint();
        var i :| 0 <= i < |was| && was[i] == e;
        RootIsFirst(Keys(was), i);
      }
    }
  }
}

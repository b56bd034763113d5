/**
 * Reduction of failing runs (minimize/minimize.go): scenario actions, then guidance entries, then
 * single selections, for any deterministic evaluator, within a budget of evaluations.
 */
module Minimize {
  import R = RaftTypes
  import opened Decision

  /** A recorded run: the actions it performed, the decisions it made, and the violations it showed. */
  datatype Trial<A> = Trial(actions: seq<A>, tape: seq<Entry>, violations: set<string>)

  /** Performs actions under a guide; None is an error. */
  type Evaluator<!A> = (seq<A>, seq<Entry>) -> R.Option<Trial<A>>

  /** A trial performs the actions it was given, and records a valid tape. */
  ghost predicate Regular<A(!new)>(evaluate: Evaluator<A>) {
    forall actions, guide {:trigger evaluate(actions, guide)} ::
      var t := evaluate(actions, guide);
      t.Some? ==> t.value.actions == actions && ValidTape(t.value.tape)
  }

  /** Where evaluations are made, one after another. */
  class Bench<A(!new)> {
    const evaluate: Evaluator<A>
    ghost var made: seq<(seq<A>, seq<Entry>)>

    constructor (evaluate: Evaluator<A>)
      ensures this.evaluate == evaluate && made == []
    {
      this.evaluate, made := evaluate, [];
    }

    method Try(actions: seq<A>, guide: seq<Entry>) returns (t: R.Option<Trial<A>>)
      modifies this
      ensures t == evaluate(actions, guide) && made == old(made) + [(actions, guide)]
    {
      t := evaluate(actions, guide);
      made := made + [(actions, guide)];
    }
  }

  /** The evaluator reports an error on some input. */
  ghost predicate Fails<A(!new)>(evaluate: Evaluator<A>) {
    exists actions, guide :: evaluate(actions, guide).None?
  }

  // ----- removing items -----

  function Without<T>(items: seq<T>, start: nat, end: nat): seq<T>
    requires start <= end <= |items|
  {
    items[..start] + items[end..]
  }

  ghost predicate Subsequence<T>(a: seq<T>, b: seq<T>) {
    || a == []
    || (b != [] && a[|a| - 1] == b[|b| - 1] && Subsequence(a[..|a| - 1], b[..|b| - 1]))
    || (b != [] && Subsequence(a, b[..|b| - 1]))
  }

  lemma {:induction false} SubsequenceRefl<T>(a: seq<T>)
    ensures Subsequence(a, a)
  {
    if a != [] { SubsequenceRefl(a[..|a| - 1]); }
  }

  lemma {:induction false} SubsequenceTransitive<T>(a: seq<T>, b: seq<T>, c: seq<T>)
    requires Subsequence(a, b) && Subsequence(b, c)
    ensures Subsequence(a, c)
    decreases |a| + |b| + |c|
  {
    if a != [] {
      if Subsequence(b, c[..|c| - 1]) {
        SubsequenceTransitive(a, b, c[..|c| - 1]);
      } else if Subsequence(a, b[..|b| - 1]) {
        SubsequenceTransitive(a, b[..|b| - 1], c[..|c| - 1]);
      } else {
        SubsequenceTransitive(a[..|a| - 1], b[..|b| - 1], c[..|c| - 1]);
      }
    }
  }

  lemma {:induction false} WithoutIsSubsequence<T>(items: seq<T>, start: nat, end: nat)
    requires start <= end <= |items|
    ensures Subsequence(Without(items, start, end), items)
    decreases |items|
  {
    if items != [] {
      var n := |items| - 1;
      if end < |items| {
        assert Without(items, start, end)[..|Without(items, start, end)| - 1] == Without(items[..n], start, end);
        WithoutIsSubsequence(items[..n], start, end);
      } else if start < |items| {
        assert Without(items, start, end) == Without(items[..n], start, n);
        WithoutIsSubsequence(items[..n], start, n);
      } else {
        assert Without(items, start, end) == items;
        SubsequenceRefl(items);
      }
    } else {
      assert Without(items, start, end) == [];
    }
  }

  function Chunk(length: nat, granularity: nat): (r: nat)
    requires 0 < length && 0 < granularity
    ensures 0 < r
    ensures granularity >= length ==> r == 1
  {
    ChunkBounds(length, granularity);
    (length + granularity - 1) / granularity
  }

  lemma ChunkBounds(length: nat, granularity: nat)
    requires 0 < length && 0 < granularity
    ensures (length + granularity - 1) / granularity >= 1
    ensures granularity >= length ==> (length + granularity - 1) / granularity == 1
  {
    var q, r := (length + granularity - 1) / granularity, (length + granularity - 1) % granularity;
    assert q * granularity + r == length + granularity - 1;
    assert q <= 0 ==> q * granularity <= 0;
    if q >= 2 { assert q * granularity >= 2 * granularity; }
  }

  /** Every attempt to leave out one single item was made, and does not show the target. */
  ghost predicate OneMinimal<T, A>(items: seq<T>, attempt: seq<T> -> R.Option<Trial<A>>, target: string) {
    forall k {:trigger Without(items, k, k + 1)} | 0 <= k < |items| ::
      var t := attempt(Without(items, k, k + 1));
      t.Some? && target !in t.value.violations
  }

  datatype Attempt<T, A> = Broken | Removed(rest: seq<T>, trial: Trial<A>, runs: nat) | Nothing(runs: nat)

  /** What remains without the k-th chunk. */
  function WithoutChunk<T>(items: seq<T>, chunk: nat, k: nat): seq<T>
    requires k * chunk <= |items| && chunk > 0
  {
    Without(items, k * chunk, if (k + 1) * chunk <= |items| then (k + 1) * chunk else |items|)
  }

  /** The evaluations of a sweep: the chunks from the first on, each left out once. */
  ghost predicate Swept<T, A>(before: seq<(seq<A>, seq<Entry>)>, after: seq<(seq<A>, seq<Entry>)>, items: seq<T>, chunk: nat, n: nat,
                              inputs: seq<T> -> (seq<A>, seq<Entry>))
    requires chunk > 0
  {
    && |after| == |before| + n && before <= after
    && forall k: nat {:trigger after[|before| + k]} | k < n ::
         k * chunk < |items| && after[|before| + k] == inputs(WithoutChunk(items, chunk, k))
  }

  lemma SweptOne<T, A>(before: seq<(seq<A>, seq<Entry>)>, after: seq<(seq<A>, seq<Entry>)>, items: seq<T>, chunk: nat, n: nat,
                       inputs: seq<T> -> (seq<A>, seq<Entry>), one: (seq<A>, seq<Entry>))
    requires chunk > 0 && Swept(before, after, items, chunk, n, inputs)
    requires n * chunk < |items| && one == inputs(WithoutChunk(items, chunk, n))
    ensures Swept(before, after + [one], items, chunk, n + 1, inputs)
  {
    hide WithoutChunk;
    var more := after + [one];
    forall k: nat | k < n + 1
      ensures k * chunk < |items| && more[|before| + k] == inputs(WithoutChunk(items, chunk, k))
    {
      if k < n { assert more[|before| + k] == after[|before| + k]; }
    }
  }

  lemma NextChunk(n: nat, chunk: nat)
    ensures (n + 1) * chunk == n * chunk + chunk
  {
  }

  /** One sweep: leaves out chunk after chunk until the target shows, the budget is spent, or an evaluation fails. */
  method Sweep<T, A(!new)>(items: seq<T>, granularity: nat, spent: nat, max: nat, target: string, bench: Bench<A>,
                           inputs: seq<T> -> (seq<A>, seq<Entry>), ghost attempt: seq<T> -> R.Option<Trial<A>>)
    returns (found: Attempt<T, A>)
    requires |items| > 0 && granularity >= 2 && spent < max
    requires forall x :: attempt(x) == bench.evaluate(inputs(x).0, inputs(x).1)
    modifies bench
    ensures found.Broken? ==> Fails(bench.evaluate)
    ensures !found.Broken? ==> spent < found.runs <= max
    ensures !found.Broken? ==>
      Swept(old(bench.made), bench.made, items, Chunk(|items|, granularity), found.runs - spent, inputs)
    ensures found.Removed? ==> |found.rest| < |items| && Subsequence(found.rest, items)
    ensures found.Removed? ==> attempt(found.rest) == R.Some(found.trial) && target in found.trial.violations
    ensures found.Nothing? && granularity >= |items| && found.runs < max ==> OneMinimal(items, attempt, target)
  {
    hide Swept, WithoutChunk, Chunk;
    var length, runs := |items|, spent;
    var chunk := Chunk(length, granularity);
    var start := 0;
    ghost var before := bench.made;
    assert Swept(before, bench.made, items, chunk, 0, inputs) by { NothingSwept(before, items, chunk, inputs); }
    while start < length && runs < max
      invariant spent <= runs <= max && (start > 0 ==> spent < runs)
      invariant start == (runs - spent) * chunk
      invariant Swept(before, bench.made, items, chunk, runs - spent, inputs)
      invariant chunk == 1 ==> forall k {:trigger Without(items, k, k + 1)} | 0 <= k < start && k < length ::
        attempt(Without(items, k, k + 1)).Some? && target !in attempt(Without(items, k, k + 1)).value.violations
      decreases length - start
    {
      var end := if start + chunk <= length then start + chunk else length;
      var rest := Without(items, start, end);
      ChunkAt(items, chunk, runs - spent, start, end);
      var (actions, guide) := inputs(rest);
      var candidate := bench.Try(actions, guide);
      SweptOne(before, bench.made[..|bench.made| - 1], items, chunk, runs - spent, inputs, (actions, guide));
      assert bench.made[..|bench.made| - 1] + [(actions, guide)] == bench.made;
      NextChunk(runs - spent, chunk);
      runs := runs + 1;
      if candidate.None? { return Broken; }
      if target in candidate.value.violations {
        WithoutIsSubsequence(items, start, end);
        return Removed(rest, candidate.value, runs);
      }
      start := start + chunk;
    }
    found := Nothing(runs);
  }

  lemma NothingSwept<T, A>(before: seq<(seq<A>, seq<Entry>)>, items: seq<T>, chunk: nat, inputs: seq<T> -> (seq<A>, seq<Entry>))
    requires chunk > 0
    ensures Swept(before, before, items, chunk, 0, inputs)
  {
  }

  lemma ChunkAt<T>(items: seq<T>, chunk: nat, n: nat, start: nat, end: nat)
    requires chunk > 0 && start == n * chunk < |items| && end == if start + chunk <= |items| then start + chunk else |items|
    ensures WithoutChunk(items, chunk, n) == Without(items, start, end)
  {
    NextChunk(n, chunk);
  }

  // ----- the three phases -----

  /** The run reached, the guide in force, and the evaluations spent. */
  datatype Progress<A> = Progress(current: Trial<A>, guide: seq<Entry>, runs: nat)

  /** The run is the input, or what the evaluator made of its actions; it shows the target with some of the input's actions. */
  ghost predicate Sound<A>(input: Trial<A>, p: Progress<A>, max: nat, target: string, evaluate: Evaluator<A>) {
    && target in p.current.violations
    && Subsequence(p.current.actions, input.actions)
    && (p.current == input || exists guide :: evaluate(p.current.actions, guide) == R.Some(p.current))
    && ValidTape(p.guide)
    && p.runs <= max
  }

  ghost predicate ActionsMinimal<A>(p: Progress<A>, target: string, evaluate: Evaluator<A>) {
    OneMinimal(p.current.actions, (actions: seq<A>) => evaluate(actions, p.guide), target)
  }

  ghost predicate GuideMinimal<A>(p: Progress<A>, target: string, evaluate: Evaluator<A>) {
    OneMinimal(p.guide, (guide: seq<Entry>) => evaluate(p.current.actions, guide), target)
  }

  function Finer(granularity: nat, length: nat): nat {
    if granularity * 2 <= length then granularity * 2 else length
  }

  function Coarser(granularity: nat): nat {
    if granularity > 3 then granularity - 1 else 2
  }

  method ReduceActions<A(!new)>(input: Trial<A>, max: nat, target: string, bench: Bench<A>) returns (r: R.Option<Progress<A>>)
    requires Regular(bench.evaluate) && target in input.violations && ValidTape(input.tape)
    modifies bench
    ensures r.None? ==> Fails(bench.evaluate)
    ensures r.Some? ==> |bench.made| == |old(bench.made)| + r.value.runs
    ensures r.Some? ==> Sound(input, r.value, max, target, bench.evaluate)
    ensures r.Some? && r.value.runs < max ==> ActionsMinimal(r.value, target, bench.evaluate)
  {
    hide ValidTape, Subsequence, Fails;
    ghost var evaluate := bench.evaluate;
    var current, guide, runs, granularity: nat := input, input.tape, 0, 2;
    SubsequenceRefl(input.actions);
    while |current.actions| > 0 && runs < max
      invariant Sound(input, Progress(current, guide, runs), max, target, evaluate) && granularity >= 2
      invariant |bench.made| == |old(bench.made)| + runs
      decreases max - runs
    {
      var length := |current.actions|;
      var found := Sweep(current.actions, granularity, runs, max, target, bench, (actions: seq<A>) => (actions, guide),
                         (actions: seq<A>) => evaluate(actions, guide));
      match found {
        case Broken => return R.None;
        case Removed(rest, candidate, spent) =>
          SubsequenceTransitive(rest, current.actions, input.actions);
          assert evaluate(rest, guide) == R.Some(candidate);
          current, guide, runs, granularity := candidate, candidate.tape, spent, Coarser(granularity);
        case Nothing(spent) =>
          runs := spent;
          if granularity >= length { break; }
          granularity := Finer(granularity, length);
      }
    }
    r := R.Some(Progress(current, guide, runs));
  }

  method ReduceGuide<A(!new)>(input: Trial<A>, p: Progress<A>, max: nat, target: string, bench: Bench<A>)
    returns (r: R.Option<Progress<A>>)
    requires Regular(bench.evaluate) && Sound(input, p, max, target, bench.evaluate)
    modifies bench
    ensures r.None? ==> Fails(bench.evaluate)
    ensures r.Some? ==> |bench.made| == |old(bench.made)| + r.value.runs - p.runs
    ensures r.Some? ==> Sound(input, r.value, max, target, bench.evaluate) && p.runs <= r.value.runs
    ensures r.Some? ==> r.value.current.actions == p.current.actions && Subsequence(r.value.guide, p.guide)
    ensures r.Some? && r.value.runs < max ==> GuideMinimal(r.value, target, bench.evaluate)
  {
    hide ValidTape, Subsequence, Fails;
    ghost var evaluate := bench.evaluate;
    var current, guide, runs, granularity: nat := p.current, p.guide, p.runs, 2;
    SubsequenceRefl(guide);
    while |guide| > 0 && runs < max
      invariant Sound(input, Progress(current, guide, runs), max, target, evaluate) && granularity >= 2 && p.runs <= runs
      invariant current.actions == p.current.actions && Subsequence(guide, p.guide)
      invariant |bench.made| == |old(bench.made)| + runs - p.runs
      decreases max - runs
    {
      var length := |guide|;
      var actions := current.actions;
      var found := Sweep(guide, granularity, runs, max, target, bench, (rest: seq<Entry>) => (actions, rest),
                         (rest: seq<Entry>) => evaluate(actions, rest));
      match found {
        case Broken => return R.None;
        case Removed(rest, candidate, spent) =>
          SubsequenceTransitive(rest, guide, p.guide);
          SubsequenceValid(rest, guide);
          assert evaluate(actions, rest) == R.Some(candidate);
          current, guide, runs, granularity := candidate, rest, spent, Coarser(granularity);
        case Nothing(spent) =>
          runs := spent;
          if granularity >= length { break; }
          granularity := Finer(granularity, length);
      }
    }
    r := R.Some(Progress(current, guide, runs));
  }

  lemma {:induction false} SubsequenceValid(a: seq<Entry>, b: seq<Entry>)
    requires Subsequence(a, b) && ValidTape(b)
    ensures ValidTape(a)
    decreases |a| + |b|
  {
    hide ValidEntry;
    if a != [] {
      if Subsequence(a, b[..|b| - 1]) {
        SubsequenceValid(a, b[..|b| - 1]);
      } else {
        SubsequenceValid(a[..|a| - 1], b[..|b| - 1]);
        forall i | 0 <= i < |a|
          ensures ValidEntry(a[i])
        {
          if i < |a| - 1 { assert a[i] == a[..|a| - 1][i]; } else { assert a[i] == b[|b| - 1]; }
        }
      }
    }
  }

  // ----- simpler selections -----

  predicate HasOption(c: Choice, id: string) {
    exists i | 0 <= i < |c.options| :: c.options[i].id == id
  }

  /** Numbers from a cursor on towards the original, each halving what is left. */
  function Halvings(cursor: int, minimum: int, original: int): seq<int>
    decreases original - cursor
  {
    if !(minimum < cursor < original) then []
    else [cursor] + if original - cursor <= 1 then [] else Halvings(cursor + (original - cursor) / 2, minimum, original)
  }

  /** Preferred replacements for a selection, simplest first. */
  function Simpler(e: Entry): seq<Selection>
    requires ValidEntry(e)
  {
    var c, s := e.choice, e.selection;
    if |c.options| > 0 then
      var drop := if "drop" != s.option && HasOption(c, "drop") then [Selection("drop", R.None)] else [];
      var first := c.options[0].id;
      drop + if first != s.option && first != "drop" then [Selection(first, R.None)] else []
    else if s.number.value <= c.min.value then []
    else
      var low, high := c.min.value, s.number.value;
      Numbers([low] + Halvings(low + (high - low) / 2, low, high))
  }

  function Numbers(values: seq<int>): (r: seq<Selection>)
    ensures |r| == |values| && forall i | 0 <= i < |r| :: r[i] == Selection("", R.Some(values[i]))
  {
    seq(|values|, i requires 0 <= i < |values| => Selection("", R.Some(values[i])))
  }

  ghost predicate Rising(v: seq<int>, low: int, minimum: int, original: int) {
    && (forall i | 0 <= i < |v| :: low <= v[i] && minimum < v[i] < original)
    && (forall i, j | 0 <= i < j < |v| :: v[i] < v[j])
  }

  lemma {:induction false} HalvingsRise(cursor: int, minimum: int, original: int)
    ensures Rising(Halvings(cursor, minimum, original), cursor, minimum, original)
    decreases original - cursor
  {
    if minimum < cursor < original && original - cursor > 1 {
      var next := cursor + (original - cursor) / 2;
      HalvingsRise(next, minimum, original);
      assert Halvings(cursor, minimum, original) == [cursor] + Halvings(next, minimum, original);
    }
  }

  /** Every replacement is a valid selection of the choice, other than the present one, and a smaller number if a number. */
  lemma SimplerIsSimpler(e: Entry, i: nat)
    requires ValidEntry(e) && i < |Simpler(e)|
    ensures ValidEntry(e.(selection := Simpler(e)[i])) && Simpler(e)[i] != e.selection
    ensures |e.choice.options| == 0 ==> e.choice.min.value <= Simpler(e)[i].number.value < e.selection.number.value
    ensures forall j | 0 <= j < i :: Simpler(e)[j] != Simpler(e)[i]
  {
    var c, s := e.choice, e.selection;
    if |c.options| > 0 {
      assert c.options[0].id == c.options[0].id;
    } else {
      var low, high := c.min.value, s.number.value;
      var halves := Halvings(low + (high - low) / 2, low, high);
      HalvingsRise(low + (high - low) / 2, low, high);
      var values := [low] + halves;
      assert Simpler(e) == Numbers(values);
      forall j | 0 <= j < |values|
        ensures low <= values[j] < high && (j < i ==> values[j] < values[i])
      {
        if j > 0 { assert values[j] == halves[j - 1]; }
        if i > 0 { assert values[i] == halves[i - 1]; }
      }
    }
  }

  /** The distance to the goal is halved, rounding up. */
  predicate Halved(a: int, b: int, goal: int) {
    0 <= 2 * (goal - b) - (goal - a) <= 1
  }

  ghost predicate Approaches(v: seq<int>, goal: int) {
    forall i {:trigger v[i]} | 0 < i < |v| :: Halved(v[i - 1], v[i], goal)
  }

  lemma ApproachesOn(a: int, v: seq<int>, goal: int)
    requires v == [] || (Halved(a, v[0], goal) && Approaches(v, goal))
    ensures Approaches([a] + v, goal)
  {
    hide Halved;
    var all := [a] + v;
    forall i | 0 < i < |all|
      ensures Halved(all[i - 1], all[i], goal)
    {
      assert all[i] == v[i - 1] && (i > 1 ==> all[i - 1] == v[i - 2]);
    }
  }

  lemma {:induction false} HalvingsApproach(cursor: int, minimum: int, original: int)
    requires minimum < cursor < original
    ensures var v := Halvings(cursor, minimum, original);
      |v| > 0 && v[0] == cursor && v[|v| - 1] == original - 1 && Approaches(v, original)
    decreases original - cursor
  {
    if original - cursor > 1 {
      var next := cursor + (original - cursor) / 2;
      HalvingsApproach(next, minimum, original);
      ApproachesOn(cursor, Halvings(next, minimum, original), original);
    }
  }

  /** Of options: dropping, if that is one and is not selected, then the first option, if it is another. */
  lemma ProposesOptions(e: Entry)
    requires ValidEntry(e) && |e.choice.options| > 0
    ensures var r, c, s := Simpler(e), e.choice, e.selection;
      var drop := s.option != "drop" && exists i :: 0 <= i < |c.options| && c.options[i].id == "drop";
      var first := c.options[0].id != s.option && c.options[0].id != "drop";
      && |r| == (if drop then 1 else 0) + (if first then 1 else 0)
      && (drop ==> r[0] == Selection("drop", R.None))
      && (first ==> r[|r| - 1] == Selection(c.options[0].id, R.None))
  {
  }

  /** Of numbers above the minimum: the minimum, then numbers that halve the distance each time, down to the one next to it. */
  lemma ProposesNumbers(e: Entry)
    requires ValidEntry(e) && |e.choice.options| == 0
    ensures var low, high := e.choice.min.value, e.selection.number.value;
      if high <= low then Simpler(e) == []
      else exists v: seq<int> {:trigger Numbers(v)} ::
        Simpler(e) == Numbers(v) && |v| > 0 && v[0] == low && v[|v| - 1] == high - 1 && Approaches(v, high)
  {
    hide Approaches, Halvings;
    var low, high := e.choice.min.value, e.selection.number.value;
    if high > low {
      var cursor := low + (high - low) / 2;
      var rest := Halvings(cursor, low, high);
      if cursor > low {
        HalvingsApproach(cursor, low, high);
      } else {
        NoHalvings(low, high);
      }
      ApproachesOn(low, rest, high);
      assert Simpler(e) == Numbers([low] + rest);
    }
  }

  lemma NoHalvings(low: int, high: int)
    ensures Halvings(low, low, high) == []
  {
  }

  method SmallerNumbers(minimum: int, original: int) returns (values: seq<int>)
    ensures values == [minimum] + Halvings(minimum + (original - minimum) / 2, minimum, original)
  {
    values := [minimum];
    var cursor := minimum + (original - minimum) / 2;
    ghost var all := [minimum] + Halvings(cursor, minimum, original);
    while minimum < cursor < original
      invariant values + Halvings(cursor, minimum, original) == all
      decreases original - cursor
    {
      ghost var rest := if original - cursor <= 1 then [] else Halvings(cursor + (original - cursor) / 2, minimum, original);
      assert values + ([cursor] + rest) == values + [cursor] + rest;
      values := values + [cursor];
      if original - cursor <= 1 {
        assert values + [] == values;
        break;
      }
      cursor := cursor + (original - cursor) / 2;
    }
    assert values == all;
  }

  method SimplerSelections(e: Entry) returns (r: seq<Selection>)
    requires ValidEntry(e)
    ensures r == Simpler(e)
  {
    var c, s := e.choice, e.selection;
    if |c.options| > 0 {
      r := [];
      if "drop" != s.option && HasOption(c, "drop") { r := r + [Selection("drop", R.None)]; }
      var first := c.options[0].id;
      if first != s.option && first != "drop" { r := r + [Selection(first, R.None)]; }
      return;
    }
    if s.number.value <= c.min.value { return []; }
    var values := SmallerNumbers(c.min.value, s.number.value);
    r := Numbers(values);
  }

  // ----- shrinking selections -----

  /** Entry i of the guide, shrunk to the first simpler selection that still shows the target, if there is one. */
  ghost predicate ShrunkAt<A>(before: seq<Entry>, after: seq<Entry>, i: nat, actions: seq<A>, target: string, evaluate: Evaluator<A>)
    requires i < |before| == |after| && ValidEntry(before[i])
  {
    var options := Simpler(before[i]);
    var guide := after[..i] + before[i..];
    exists n {:trigger Tried(guide, i, n, actions, target, evaluate)} | 0 <= n <= |options| ::
      && Tried(guide, i, n, actions, target, evaluate)
      && after[i] == if n < |options| then before[i].(selection := options[n]) else before[i]
  }

  /** The first n replacements of entry i do not show the target under this guide. */
  ghost predicate Tried<A>(guide: seq<Entry>, i: nat, n: nat, actions: seq<A>, target: string, evaluate: Evaluator<A>)
    requires i < |guide| && ValidEntry(guide[i]) && n <= |Simpler(guide[i])|
  {
    forall x {:trigger Simpler(guide[i])[x]} | 0 <= x < n ::
      var t := evaluate(actions, guide[i := guide[i].(selection := Simpler(guide[i])[x])]);
      t.Some? && target !in t.value.violations
  }

  function Changed(before: seq<Entry>, after: seq<Entry>): nat
    requires |before| == |after|
  {
    if before == [] then 0
    else Changed(before[..|before| - 1], after[..|after| - 1]) + if before[|before| - 1] != after[|after| - 1] then 1 else 0
  }

  datatype Trying<A> = Fault | Found(n: nat, trial: Trial<A>, runs: nat) | NoneFound(n: nat, runs: nat)

  /** Tries the simpler selections of one entry in order. */
  method TrySelections<A(!new)>(guide: seq<Entry>, index: nat, actions: seq<A>, spent: nat, max: nat, target: string, bench: Bench<A>)
    returns (r: Trying<A>)
    requires index < |guide| && ValidEntry(guide[index]) && spent < max
    modifies bench
    ensures r.Fault? ==> Fails(bench.evaluate)
    ensures !r.Fault? ==> |bench.made| == |old(bench.made)| + r.runs - spent
    ensures !r.Fault? ==> r.runs - spent == if r.Found? then r.n + 1 else r.n
    ensures !r.Fault? ==>
      r.n <= |Simpler(guide[index])| && spent <= r.runs <= max && Tried(guide, index, r.n, actions, target, bench.evaluate)
    ensures r.Found? ==>
      && r.n < |Simpler(guide[index])|
      && bench.evaluate(actions, guide[index := guide[index].(selection := Simpler(guide[index])[r.n])]) == R.Some(r.trial)
      && target in r.trial.violations
    ensures r.NoneFound? && r.runs < max ==> r.n == |Simpler(guide[index])|
  {
    hide ValidEntry;
    var runs := spent;
    var options := SimplerSelections(guide[index]);
    for n := 0 to |options|
      invariant spent <= runs < max && Tried(guide, index, n, actions, target, bench.evaluate)
      invariant runs - spent == n && |bench.made| == |old(bench.made)| + n
    {
      var candidate := bench.Try(actions, guide[index := guide[index].(selection := options[n])]);
      runs := runs + 1;
      if candidate.None? { return Fault; }
      if target in candidate.value.violations { return Found(n, candidate.value, runs); }
      if runs >= max { return NoneFound(n + 1, runs); }
    }
    r := NoneFound(|options|, runs);
  }

  lemma ShrunkStays<A>(before: seq<Entry>, after: seq<Entry>, later: seq<Entry>, i: nat, actions: seq<A>, target: string,
                       evaluate: Evaluator<A>)
    requires i < |before| == |after| == |later| && ValidEntry(before[i]) && after[..i + 1] == later[..i + 1]
    requires ShrunkAt(before, after, i, actions, target, evaluate)
    ensures ShrunkAt(before, later, i, actions, target, evaluate)
  {
    hide Tried, ValidEntry, Simpler;
    assert after[..i] == after[..i + 1][..i] == later[..i];
    assert after[i] == after[..i + 1][i] == later[i];
  }

  lemma ChangedStep(before: seq<Entry>, after: seq<Entry>, i: nat)
    requires i < |before| == |after|
    ensures Changed(before[..i + 1], after[..i + 1]) == Changed(before[..i], after[..i]) + if before[i] != after[i] then 1 else 0
  {
    assert before[..i + 1][..i] == before[..i] && after[..i + 1][..i] == after[..i];
  }

  lemma ShrunkNow<A>(before: seq<Entry>, was: seq<Entry>, after: seq<Entry>, i: nat, n: nat, actions: seq<A>, target: string,
                     evaluate: Evaluator<A>)
    requires i < |before| == |was| == |after| && before[i..] == was[i..] && ValidEntry(before[i])
    requires after[..i] == was[..i] && was[i] == before[i] && n <= |Simpler(before[i])|
    requires Tried(was, i, n, actions, target, evaluate)
    requires after[i] == if n < |Simpler(before[i])| then before[i].(selection := Simpler(before[i])[n]) else before[i]
    ensures ShrunkAt(before, after, i, actions, target, evaluate)
  {
    hide Tried, ValidEntry, Simpler;
    assert was == was[..i] + was[i..] == after[..i] + before[i..];
  }

  lemma FoundIsSound<A>(input: Trial<A>, p: Progress<A>, q: Progress<A>, max: nat, target: string, evaluate: Evaluator<A>)
    requires Sound(input, p, max, target, evaluate) && target in q.current.violations && ValidTape(q.guide) && q.runs <= max
    requires q.current.actions == p.current.actions && evaluate(p.current.actions, q.guide) == R.Some(q.current)
    ensures Sound(input, q, max, target, evaluate)
  {
    hide ValidTape, Subsequence;
  }

  lemma ValidWith(guide: seq<Entry>, i: nat, e: Entry)
    requires ValidTape(guide) && i < |guide| && ValidEntry(e)
    ensures ValidTape(guide[i := e])
  {
    hide ValidEntry;
  }

  lemma SoundParts<A>(input: Trial<A>, p: Progress<A>, max: nat, target: string, evaluate: Evaluator<A>)
    requires Sound(input, p, max, target, evaluate)
    ensures ValidTape(p.guide) && p.runs <= max && forall i | 0 <= i < |p.guide| :: ValidEntry(p.guide[i])
    ensures forall runs: nat | runs <= max :: Sound(input, p.(runs := runs), max, target, evaluate)
  {
    hide ValidEntry, Subsequence;
  }

  lemma NothingChanged(before: seq<Entry>, after: seq<Entry>)
    requires |before| == |after|
    ensures Changed(before[..0], after[..0]) == 0
  {
  }

  ghost predicate ShrunkUpTo<A>(before: seq<Entry>, after: seq<Entry>, n: nat, actions: seq<A>, target: string, evaluate: Evaluator<A>)
    requires n <= |before| == |after| && forall i | 0 <= i < n :: ValidEntry(before[i])
  {
    forall i | 0 <= i < n :: ShrunkAt(before, after, i, actions, target, evaluate)
  }

  lemma ShrunkFurther<A>(before: seq<Entry>, was: seq<Entry>, after: seq<Entry>, n: nat, actions: seq<A>, target: string,
                         evaluate: Evaluator<A>)
    requires n < |before| == |was| == |after| && forall i | 0 <= i <= n :: ValidEntry(before[i])
    requires ShrunkUpTo(before, was, n, actions, target, evaluate) && after[..n] == was[..n]
    requires ShrunkAt(before, after, n, actions, target, evaluate)
    ensures ShrunkUpTo(before, after, n + 1, actions, target, evaluate)
  {
    hide ShrunkAt, ValidEntry;
    forall i | 0 <= i < n
      ensures ShrunkAt(before, after, i, actions, target, evaluate)
    {
      assert was[..i + 1] == was[..n][..i + 1] == after[..i + 1];
      ShrunkStays(before, was, after, i, actions, target, evaluate);
    }
  }

  method ShrinkSelections<A(!new)>(input: Trial<A>, p: Progress<A>, max: nat, target: string, bench: Bench<A>)
    returns (r: R.Option<Progress<A>>, shrunk: nat)
    requires Regular(bench.evaluate) && Sound(input, p, max, target, bench.evaluate)
    modifies bench
    ensures r.None? ==> Fails(bench.evaluate)
    ensures r.Some? ==> |bench.made| == |old(bench.made)| + r.value.runs - p.runs
    ensures r.Some? ==> Sound(input, r.value, max, target, bench.evaluate) && r.value.current.actions == p.current.actions
    ensures r.Some? ==> |r.value.guide| == |p.guide| && shrunk == Changed(p.guide, r.value.guide)
    ensures ValidTape(p.guide)
    ensures r.Some? && r.value.runs < max ==>
      ShrunkUpTo(p.guide, r.value.guide, |p.guide|, p.current.actions, target, bench.evaluate)
  {
    hide ValidEntry, Subsequence, Tried, Simpler, Sound, ShrunkAt, Changed, ValidTape, Fails;
    ghost var evaluate := bench.evaluate;
    var current, guide, runs: nat := p.current, p.guide, p.runs;
    shrunk := 0;
    SoundParts(input, p, max, target, evaluate);
    NothingChanged(p.guide, guide);
    var index: nat := 0;
    while index < |guide| && runs < max
      invariant 0 <= index <= |guide| == |p.guide| && guide[index..] == p.guide[index..] && runs <= max
      invariant Sound(input, Progress(current, guide, runs), max, target, evaluate)
      invariant current.actions == p.current.actions && shrunk == Changed(p.guide[..index], guide[..index])
      invariant runs < max ==> ShrunkUpTo(p.guide, guide, index, p.current.actions, target, evaluate)
      invariant |bench.made| == |old(bench.made)| + runs - p.runs
      decreases |guide| - index
    {
      SoundParts(input, Progress(current, guide, runs), max, target, evaluate);
      assert guide[index] == guide[index..][0] == p.guide[index];
      var tried := TrySelections(guide, index, p.current.actions, runs, max, target, bench);
      ghost var was := guide;
      match tried {
        case Fault =>
          r := R.None;
          return;
        case Found(n, candidate, spent) =>
          SimplerIsSimpler(guide[index], n);
          var e := guide[index].(selection := Simpler(guide[index])[n]);
          ValidWith(guide, index, e);
          guide := guide[index := e];
          CandidateKeeps(p.current.actions, guide, evaluate);
          FoundIsSound(input, Progress(current, was, runs), Progress(candidate, guide, spent), max, target, evaluate);
          current, runs, shrunk := candidate, spent, shrunk + 1;
          ShrunkNow(p.guide, was, guide, index, n, p.current.actions, target, evaluate);
        case NoneFound(n, spent) =>
          runs := spent;
          if runs < max {
            ShrunkNow(p.guide, was, guide, index, n, p.current.actions, target, evaluate);
          }
      }
      if runs < max {
        ShrunkFurther(p.guide, was, guide, index, p.current.actions, target, evaluate);
      }
      ChangedStep(p.guide, guide, index);
      assert guide[..index] == was[..index];
      index := index + 1;
    }
    UnchangedRest(p.guide, guide, index);
    r := R.Some(Progress(current, guide, runs));
  }

  lemma CandidateKeeps<A(!new)>(actions: seq<A>, guide: seq<Entry>, evaluate: Evaluator<A>)
    requires Regular(evaluate) && evaluate(actions, guide).Some?
    ensures evaluate(actions, guide).value.actions == actions
  {
  }

  lemma {:induction false} UnchangedRest(before: seq<Entry>, after: seq<Entry>, i: nat)
    requires i <= |before| == |after| && before[i..] == after[i..]
    ensures Changed(before, after) == Changed(before[..i], after[..i])
  {
    var n := |before| - 1;
    if i <= n {
      assert before[n] == before[i..][n - i] == after[i..][n - i] == after[n];
      assert before[..n][i..] == before[i..][..n - i] && after[..n][i..] == after[i..][..n - i];
      UnchangedRest(before[..n], after[..n], i);
      assert before[..n][..i] == before[..i] && after[..n][..i] == after[..i];
    } else {
      assert before[..i] == before && after[..i] == after;
    }
  }

  // ----- the whole reduction -----

  datatype Report<A> = Report(run: Trial<A>, runs: nat, actionsRemoved: int, guidanceRemoved: int, selectionsShrunk: nat, truncated: bool)

  /**
   * REDUCTION is sound and 1-minimal: the reported run shows the target with a subsequence of the
   * input's actions, within the budget.  If the first phase left budget, no single remaining action
   * can go under the guide it ended with; if the second did, no single entry of its guide can; if
   * the third did, every selection is the simplest one that showed the target in its turn.
   */
  method Reduce<A(!new)>(input: Trial<A>, max: nat, target: string, evaluate: Evaluator<A>)
    returns (r: R.Option<Report<A>>, ghost first: Progress<A>, ghost second: Progress<A>, ghost third: Progress<A>,
             ghost made: seq<(seq<A>, seq<Entry>)>)
    requires Regular(evaluate) && target in input.violations && ValidTape(input.tape)
    ensures r.None? ==> Fails(evaluate)
    ensures r.Some? ==> r.value.runs == |made|
    ensures r.Some? ==>
      && target in r.value.run.violations
      && Subsequence(r.value.run.actions, input.actions)
      && (r.value.run == input || exists guide :: evaluate(r.value.run.actions, guide) == R.Some(r.value.run))
      && r.value.runs <= max
    ensures r.Some? ==>
      && r.value.run == third.current && r.value.run.actions == second.current.actions == first.current.actions
      && r.value.actionsRemoved == |input.actions| - |r.value.run.actions|
      && r.value.guidanceRemoved == |first.guide| - |third.guide|
      && r.value.truncated == (r.value.runs >= max)
      && Subsequence(second.guide, first.guide) && |third.guide| == |second.guide|
      && r.value.selectionsShrunk == Changed(second.guide, third.guide)
      && ValidTape(second.guide)
    ensures r.Some? && first.runs < max ==> ActionsMinimal(first, target, evaluate)
    ensures r.Some? && second.runs < max ==> GuideMinimal(second, target, evaluate)
    ensures r.Some? && r.value.runs < max ==>
      ShrunkUpTo(second.guide, third.guide, |second.guide|, r.value.run.actions, target, evaluate)
  {
    hide Subsequence, ActionsMinimal, GuideMinimal, Changed, ShrunkAt, ValidEntry, Fails;
    first := Progress(input, input.tape, 0);
    second, third, made := first, first, [];
    r := R.None;
    var bench := new Bench(evaluate);
    var p := ReduceActions(input, max, target, bench);
    if p.None? { return; }
    var q := ReduceGuide(input, p.value, max, target, bench);
    if q.None? { return; }
    var s, shrunk := ShrinkSelections(input, q.value, max, target, bench);
    if s.None? { return; }
    made := bench.made;
    first, second, third := p.value, q.value, s.value;
    r := R.Some(Report(s.value.current, s.value.runs, |input.actions| - |s.value.current.actions|,
                       |p.value.guide| - |s.value.guide|, shrunk, s.value.runs >= max));
  }
}

/**
 * Bounded depth-first exploration by clean reruns (explore/explore.go), with and without the
 * state cache.  If canonical states determine the future, then for any hash and any cache bounds
 * a search that was not cut short finds exactly the outcomes that the tree of choices has.
 */
module Explore {
  import R = RaftTypes
  import opened Decision
  import opened Octets
  import opened StateCache

  datatype OutcomeStatus = CompletedRun | ViolationRun | ErrorRun | BudgetExhausted

  datatype Outcome = Outcome(status: OutcomeStatus, violations: seq<string>)

  datatype Bounds = Bounds(
    maxRuns: nat, maxDepth: nat, maxBranches: nat, rangeSamples: nat, stopOnViolation: bool, target: string)

  /**
   * A deterministic system under exploration: what it does next after some selections, its
   * canonical state at an open choice, and the outcome of completing a run with a fresh seeded
   * decider.
   */
  datatype System = System(
    program: Program<Outcome>,
    state: seq<Selection> -> Bytes,
    fallback: seq<Selection> -> Outcome)

  /** How a choice is written into a cache identity: identifiers, canonical domain and canonical context. */
  datatype Encoding = Encoding(text: string -> Bytes, domain: Domain -> Bytes)

  predicate ValidBounds(b: Bounds) {
    && 0 < b.maxRuns <= 100_000
    && b.maxDepth <= 64
    && 0 < b.maxBranches <= 64
    && 0 < b.rangeSamples <= 3
  }

  predicate OutcomeMatches(outcome: Outcome, target: string) {
    exists i | 0 <= i < |outcome.violations| :: target == "" || outcome.violations[i] == target
  }

  function Minimum(a: nat, b: nat): nat {
    if a <= b then a else b
  }

  function OptionSelections(options: seq<WeightedOption>, limit: nat): (r: seq<Selection>)
    requires limit <= |options|
    ensures |r| == limit
  {
    if limit == 0 then []
    else OptionSelections(options, limit - 1) + [Selection(options[limit - 1].id, R.None)]
  }

  function NumberSelections(first: int, count: nat): (r: seq<Selection>)
    ensures |r| == count
  {
    if count == 0 then []
    else NumberSelections(first, count - 1) + [Selection("", R.Some(first + count - 1))]
  }

  /** The selections tried at a choice, and whether they are only a sample of its domain. */
  function Candidates(c: Choice, b: Bounds): (r: (seq<Selection>, bool))
    requires ValidChoice(c) && ValidBounds(b)
    ensures |r.0| > 0
    ensures forall i | 0 <= i < |r.0| :: ValidSelection(c, r.0[i])
  {
    if |c.options| > 0 then
      var limit := Minimum(|c.options|, b.maxBranches);
      OptionSelectionsValid(c, limit);
      (OptionSelections(c.options, limit), limit < |c.options|)
    else
      var lo, hi := c.min.value, c.max.value;
      var span := hi - lo + 1;
      var count := Minimum(b.rangeSamples, b.maxBranches);
      if span <= count then
        NumberSelectionsValid(c, span);
        (NumberSelections(lo, span), false)
      else
        ([Selection("", R.Some(lo))]
         + (if count >= 3 then [Selection("", R.Some(lo + (hi - lo) / 2))] else [])
         + (if count >= 2 then [Selection("", R.Some(hi))] else []), true)
  }

  lemma {:induction false} OptionSelectionsValid(c: Choice, limit: nat)
    requires ValidChoice(c) && limit <= |c.options|
    ensures forall i | 0 <= i < limit :: ValidSelection(c, OptionSelections(c.options, limit)[i])
  {
    if limit > 0 {
      OptionSelectionsValid(c, limit - 1);
    }
  }

  lemma {:induction false} NumberSelectionsValid(c: Choice, count: nat)
    requires ValidChoice(c) && |c.options| == 0 && count <= c.max.value - c.min.value + 1
    ensures forall i | 0 <= i < count :: ValidSelection(c, NumberSelections(c.min.value, count)[i])
  {
    if count > 0 {
      NumberSelectionsValid(c, count - 1);
    }
  }

  // ----- the tree of choices -----

  /** An outcome, or where the tree leaves something out: a domain only sampled, a choice past the depth bound. */
  datatype Finding = Reached(outcome: Outcome) | Sampled | Cut

  ghost function EndsIn(outcome: Outcome, cut: bool): set<Finding> {
    if cut then {Reached(outcome), Cut} else {Reached(outcome)}
  }

  ghost function SampledAt(c: Choice, b: Bounds): set<Finding>
    requires ValidChoice(c) && ValidBounds(b)
  {
    if Candidates(c, b).1 then {Sampled} else {}
  }

  /** What is below a point of the tree, with so many systematic choices left. */
  ghost function Leaves(sys: System, b: Bounds, h: seq<Selection>, remaining: nat): set<Finding>
    requires ValidBounds(b)
    decreases remaining, 0
  {
    if remaining == 0 then EndsIn(sys.fallback(h), sys.program(h).Ask?)
    else
      match sys.program(h)
      case Done(outcome) => EndsIn(outcome, false)
      case Ask(c) =>
        if !ValidChoice(c) then {} else LeavesBelow(sys, b, h, Candidates(c, b).0, remaining - 1) + SampledAt(c, b)
  }

  ghost function LeavesBelow(sys: System, b: Bounds, h: seq<Selection>, selections: seq<Selection>, remaining: nat): set<Finding>
    requires ValidBounds(b)
    decreases remaining, |selections|
  {
    if selections == [] then {}
    else
      LeavesBelow(sys, b, h, selections[..|selections| - 1], remaining)
      + Leaves(sys, b, h + [selections[|selections| - 1]], remaining)
  }

  /** Two choices that a cache identity does not tell apart. */
  predicate SameChoice(c: Choice, d: Choice) {
    c.id == d.id && CanonicalDomain(c) == CanonicalDomain(d) && CanonicalContext(c) == CanonicalContext(d)
  }

  /** Whatever is selected from here on, the two points go on alike. */
  ghost predicate SameFuture(sys: System, g: seq<Selection>, h: seq<Selection>) {
    forall x: seq<Selection> ::
      && sys.fallback(g + x) == sys.fallback(h + x)
      && match sys.program(g + x)
         case Done(outcome) => sys.program(h + x) == Done(outcome)
         case Ask(c) => sys.program(h + x).Ask? && SameChoice(c, sys.program(h + x).choice)
  }

  /** Canonical states are Markov-complete: at the same open choice, equal states have the same future. */
  ghost predicate StatesDecide(sys: System) {
    forall g, h | sys.program(g).Ask? && sys.program(h).Ask? && sys.state(g) == sys.state(h)
                  && SameChoice(sys.program(g).choice, sys.program(h).choice) :: SameFuture(sys, g, h)
  }

  lemma SameChoiceSameCandidates(c: Choice, d: Choice, b: Bounds)
    requires SameChoice(c, d) && ValidBounds(b)
    ensures ValidChoice(c) == ValidChoice(d)
    ensures ValidChoice(c) ==> Candidates(c, b) == Candidates(d, b)
  {
  }

  lemma FutureGoesOn(sys: System, g: seq<Selection>, h: seq<Selection>, s: Selection)
    requires SameFuture(sys, g, h)
    ensures SameFuture(sys, g + [s], h + [s])
  {
    forall x: seq<Selection>
      ensures sys.fallback(g + [s] + x) == sys.fallback(h + [s] + x)
      ensures match sys.program(g + [s] + x)
              case Done(outcome) => sys.program(h + [s] + x) == Done(outcome)
              case Ask(c) => sys.program(h + [s] + x).Ask? && SameChoice(c, sys.program(h + [s] + x).choice)
    {
      assert g + [s] + x == g + ([s] + x) && h + [s] + x == h + ([s] + x);
    }
  }

  /** Points with the same future have the same outcomes below them, to any depth. */
  lemma {:induction false} SameFutureSameLeaves(sys: System, b: Bounds, g: seq<Selection>, h: seq<Selection>, remaining: nat)
    requires ValidBounds(b) && SameFuture(sys, g, h)
    ensures Leaves(sys, b, g, remaining) == Leaves(sys, b, h, remaining)
    decreases remaining, 0
  {
    hide SameFuture;
    SameNow(sys, g, h);
    if remaining > 0 && sys.program(g).Ask? {
      var c, d := sys.program(g).choice, sys.program(h).choice;
      SameChoiceSameCandidates(c, d, b);
      if ValidChoice(c) {
        SameFutureSameBelow(sys, b, g, h, Candidates(c, b).0, remaining - 1);
      }
    }
  }

  lemma {:induction false} SameFutureSameBelow(sys: System, b: Bounds, g: seq<Selection>, h: seq<Selection>,
                                               selections: seq<Selection>, remaining: nat)
    requires ValidBounds(b) && SameFuture(sys, g, h)
    ensures LeavesBelow(sys, b, g, selections, remaining) == LeavesBelow(sys, b, h, selections, remaining)
    decreases remaining, |selections|
  {
    hide SameFuture;
    if selections != [] {
      var last := selections[|selections| - 1];
      SameFutureSameBelow(sys, b, g, h, selections[..|selections| - 1], remaining);
      FutureGoesOn(sys, g, h, last);
      SameFutureSameLeaves(sys, b, g + [last], h + [last], remaining);
    }
  }

  lemma SameNow(sys: System, g: seq<Selection>, h: seq<Selection>)
    requires SameFuture(sys, g, h)
    ensures sys.fallback(g) == sys.fallback(h)
    ensures match sys.program(g)
            case Done(outcome) => sys.program(h) == Done(outcome)
            case Ask(c) => sys.program(h).Ask? && SameChoice(c, sys.program(h).choice)
  {
    assert g + [] == g && h + [] == h;
  }

  // ----- cache identities -----

  function CacheIdentity(e: Encoding, state: Bytes, c: Choice, remaining: nat): Bytes {
    Identity(e.text("d-raft.explore-cache/v1"), state, e.text(c.id), e.text(c.kind), e.domain(CanonicalDomain(c)),
             e.text(CanonicalContext(c)), remaining)
  }

  /** The parts of an identity at an open choice. */
  function Parts(e: Encoding, state: Bytes, c: Choice): seq<Bytes> {
    [state, e.text(c.id), e.text(c.kind), e.domain(CanonicalDomain(c)), e.text(CanonicalContext(c))]
  }

  /** Encodings that lose nothing, and states and choices whose encodings have lengths that fit eight bytes. */
  ghost predicate Faithful(e: Encoding, sys: System) {
    && (forall s, t :: e.text(s) == e.text(t) ==> s == t)
    && (forall d, f :: e.domain(d) == e.domain(f) ==> d == f)
    && |e.text("d-raft.explore-cache/v1")| < Power256(8)
    && (forall h | |h| <= 64 && sys.program(h).Ask? :: Short(Parts(e, sys.state(h), sys.program(h).choice)))
  }

  /** Equal identities mean equal states at the same choice with the same depth left. */
  lemma IdentityTellsApart(e: Encoding, sys: System, g: seq<Selection>, h: seq<Selection>, c: Choice, d: Choice, m: nat, n: nat)
    requires Faithful(e, sys) && m <= 64 && n <= 64 && |g| <= 64 && |h| <= 64
    requires sys.program(g) == Ask(c) && sys.program(h) == Ask(d)
    requires CacheIdentity(e, sys.state(g), c, m) == CacheIdentity(e, sys.state(h), d, n)
    ensures sys.state(g) == sys.state(h) && SameChoice(c, d) && m == n
  {
    var a, x := Parts(e, sys.state(g), c), Parts(e, sys.state(h), d);
    assert Power256(8) == 0x1_0000_0000_0000_0000;
    hide Identity, Power256, Short;
    IdentityInjective(e.text("d-raft.explore-cache/v1"), a, x, m, n);
    assert a[0] == x[0] && a[1] == x[1] && a[3] == x[3] && a[4] == x[4];
  }

  // ----- clean reruns of a prefix -----

  function Selections(tape: seq<Entry>): (r: seq<Selection>)
    ensures |r| == |tape| && forall i | 0 <= i < |tape| :: r[i] == tape[i].selection
  {
    if tape == [] then [] else Selections(tape[..|tape| - 1]) + [tape[|tape| - 1].selection]
  }

  /** A tape of choices that the program really presents, each answered from its domain. */
  ghost predicate OnPath(sys: System, tape: seq<Entry>) {
    tape != [] ==>
      var front, last := tape[..|tape| - 1], tape[|tape| - 1];
      && OnPath(sys, front)
      && sys.program(Selections(front)).Ask?
      && NewEntry(sys.program(Selections(front)).choice, last.selection) == R.Some(last)
  }

  datatype Rerun = Open(choice: Choice) | Finished(outcome: Outcome, consumed: bool) | Broken(error: Error)

  /** What a clean run with a prefix decider comes to. */
  function RunPrefix(sys: System, tape: seq<Entry>): Rerun {
    var r := Replay(sys.program, tape, |tape|);
    match r.status
    case Completed(outcome) => Finished(outcome, |r.history| == |tape|)
    case Stopped(error) => Broken(error)
    case Running =>
      match sys.program(r.history)
      case Done(outcome) => Finished(outcome, |r.history| == |tape|)
      case Ask(c) => if ValidChoice(c) then Open(c) else Broken(InvalidChoice)
  }

  lemma {:induction false} ReplayOfLonger(sys: System, tape: seq<Entry>, more: seq<Entry>, n: nat)
    requires n <= |tape|
    ensures Replay(sys.program, tape + more, n) == Replay(sys.program, tape, n)
    ensures |Replay(sys.program, tape, n).history| <= n
  {
    if n > 0 {
      ReplayOfLonger(sys, tape, more, n - 1);
    }
  }

  /** A clean rerun of a prefix retraces it: no mismatch, and nothing left unconsumed. */
  lemma {:induction false} RerunsRetrace(sys: System, tape: seq<Entry>)
    requires OnPath(sys, tape)
    ensures Replay(sys.program, tape, |tape|) == Run(Selections(tape), Running)
  {
    hide ReplayChoose, NewEntry;
    if tape != [] {
      var front, last := tape[..|tape| - 1], tape[|tape| - 1];
      RerunsRetrace(sys, front);
      ReplayOfLonger(sys, front, [last], |front|);
      assert tape == front + [last];
      NewEntryReplays(sys.program(Selections(front)).choice, last.selection, tape, |front|);
    }
  }

  /** So a prefix on the tree of choices comes to exactly what the program does there. */
  lemma PrefixReaches(sys: System, tape: seq<Entry>)
    requires OnPath(sys, tape)
    ensures RunPrefix(sys, tape) == match sys.program(Selections(tape))
                                    case Done(outcome) => Finished(outcome, true)
                                    case Ask(c) => if ValidChoice(c) then Open(c) else Broken(InvalidChoice)
  {
    hide Replay;
    RerunsRetrace(sys, tape);
  }

  // ----- what a search still has to do -----

  ghost function Below(sys: System, b: Bounds, tape: seq<Entry>): set<Finding>
    requires ValidBounds(b) && |tape| <= b.maxDepth
  {
    Leaves(sys, b, Selections(tape), b.maxDepth - |tape|)
  }

  ghost predicate StackOK(sys: System, b: Bounds, stack: seq<seq<Entry>>)
    requires ValidBounds(b)
  {
    forall i {:trigger stack[i]} | 0 <= i < |stack| ::
      && |stack[i]| <= b.maxDepth
      && OnPath(sys, stack[i])
      && Below(sys, b, stack[i]) <= Leaves(sys, b, [], b.maxDepth)
  }

  /** An outcome was found, or is below something on the stack with less than `bound` choices left. */
  ghost predicate Pending(sys: System, b: Bounds, o: Finding, found: set<Finding>, stack: seq<seq<Entry>>, bound: int)
    requires ValidBounds(b)
  {
    o in found || exists i :: 0 <= i < |stack| && |stack[i]| <= b.maxDepth && b.maxDepth - |stack[i]| < bound && o in Below(sys, b, stack[i])
  }

  ghost predicate Covered(sys: System, b: Bounds, outcomes: set<Finding>, found: set<Finding>, stack: seq<seq<Entry>>, bound: int)
    requires ValidBounds(b)
  {
    forall o {:trigger Pending(sys, b, o, found, stack, bound)} | o in outcomes :: Pending(sys, b, o, found, stack, bound)
  }

  /** Replacing the top of the stack by what covers it with fewer choices left keeps everything covered. */
  lemma ReplaceTop(sys: System, b: Bounds, outcomes: set<Finding>, bound: int, top: seq<Entry>,
                   found: set<Finding>, stack: seq<seq<Entry>>, found': set<Finding>, stack': seq<seq<Entry>>)
    requires ValidBounds(b) && |top| <= b.maxDepth
    requires Covered(sys, b, outcomes, found, stack + [top], bound)
    requires Covered(sys, b, Below(sys, b, top), found', stack', b.maxDepth - |top|)
    requires found <= found' && stack <= stack'
    ensures Covered(sys, b, outcomes, found', stack', bound)
  {
    hide Leaves, Selections;
    forall o | o in outcomes
      ensures Pending(sys, b, o, found', stack', bound)
    {
      assert Pending(sys, b, o, found, stack + [top], bound);
      if o !in found {
        var all := stack + [top];
        var i :| 0 <= i < |all| && |all[i]| <= b.maxDepth && b.maxDepth - |all[i]| < bound && o in Below(sys, b, all[i]);
        if i < |stack| {
          assert all[i] == stack'[i];
        } else {
          assert Pending(sys, b, o, found', stack', b.maxDepth - |top|);
        }
      }
    }
  }

  lemma FoundIsCovered(sys: System, b: Bounds, outcomes: set<Finding>, found: set<Finding>, stack: seq<seq<Entry>>, bound: int)
    requires ValidBounds(b) && outcomes <= found
    ensures Covered(sys, b, outcomes, found, stack, bound)
  {
  }

  /** The extensions of a prefix by some selections, last selection first, as they are pushed. */
  function Children(prefix: seq<Entry>, c: Choice, selections: seq<Selection>): (r: seq<seq<Entry>>)
    requires ValidChoice(c) && forall i | 0 <= i < |selections| :: ValidSelection(c, selections[i])
    ensures |r| == |selections|
  {
    if selections == [] then []
    else
      var last := |selections| - 1;
      [prefix + [NewEntry(c, selections[last]).value]] + Children(prefix, c, selections[..last])
  }

  lemma ChildPath(sys: System, prefix: seq<Entry>, c: Choice, s: Selection)
    requires OnPath(sys, prefix) && sys.program(Selections(prefix)) == Ask(c) && ValidChoice(c) && ValidSelection(c, s)
    ensures var child := prefix + [NewEntry(c, s).value];
      OnPath(sys, child) && Selections(child) == Selections(prefix) + [s]
  {
    var child := prefix + [NewEntry(c, s).value];
    assert child[..|child| - 1] == prefix;
  }

  lemma {:induction false} ChildrenCover(sys: System, b: Bounds, prefix: seq<Entry>, c: Choice, selections: seq<Selection>,
                                         stack: seq<seq<Entry>>, found: set<Finding>)
    requires ValidBounds(b) && |prefix| < b.maxDepth
    requires OnPath(sys, prefix) && sys.program(Selections(prefix)) == Ask(c) && ValidChoice(c)
    requires forall i | 0 <= i < |selections| :: ValidSelection(c, selections[i])
    ensures var below := LeavesBelow(sys, b, Selections(prefix), selections, b.maxDepth - |prefix| - 1);
      && Covered(sys, b, below, found, stack + Children(prefix, c, selections), b.maxDepth - |prefix|)
      && (StackOK(sys, b, stack) && below <= Leaves(sys, b, [], b.maxDepth) ==>
            StackOK(sys, b, stack + Children(prefix, c, selections)))
  {
    hide Leaves, OnPath, Selections;
    if selections == [] {
      assert stack + Children(prefix, c, selections) == stack;
    } else {
      var last := |selections| - 1;
      var front := selections[..last];
      var child := prefix + [NewEntry(c, selections[last]).value];
      ChildPath(sys, prefix, c, selections[last]);
      ChildrenCover(sys, b, prefix, c, front, stack + [child], found);
      assert stack + [child] + Children(prefix, c, front) == stack + Children(prefix, c, selections);
      var all := stack + Children(prefix, c, selections);
      assert all[|stack|] == child;
      var below := LeavesBelow(sys, b, Selections(prefix), selections, b.maxDepth - |prefix| - 1);
      forall o | o in below
        ensures Pending(sys, b, o, found, all, b.maxDepth - |prefix|)
      {
        if o in Below(sys, b, child) {
          assert o in Below(sys, b, all[|stack|]);
        }
      }
    }
  }

  // ----- the tree, without its bounds -----

  /** The program asks a valid choice here, and this answers it. */
  ghost predicate ValidAt(sys: System, h: seq<Selection>, s: Selection) {
    sys.program(h).Ask? && ValidChoice(sys.program(h).choice) && ValidSelection(sys.program(h).choice, s)
  }

  /** From a point on, each of these selections answers a choice that the program really asks. */
  ghost predicate ValidFrom(sys: System, h: seq<Selection>, x: seq<Selection>) {
    forall i {:trigger x[i]} | 0 <= i < |x| :: ValidAt(sys, h + x[..i], x[i])
  }

  lemma FirstValid(sys: System, h: seq<Selection>, x: seq<Selection>)
    requires ValidFrom(sys, h, x) && x != []
    ensures ValidAt(sys, h, x[0])
  {
    hide ValidAt;
    assert h + x[..0] == h;
  }

  ghost predicate AttainableFrom(sys: System, h: seq<Selection>, o: Outcome) {
    exists x: seq<Selection> :: ValidFrom(sys, h, x) && sys.program(h + x) == Done(o)
  }

  /** Some way of answering the program's choices ends in this outcome. */
  ghost predicate Attainable(sys: System, o: Outcome) {
    AttainableFrom(sys, [], o)
  }

  /** The program never asks again after so many choices. */
  ghost predicate NoDeeper(sys: System, depth: nat) {
    forall x: seq<Selection> | ValidFrom(sys, [], x) && |x| == depth :: sys.program(x).Done?
  }

  /** Completing a run that has ended already changes nothing. */
  ghost predicate FallbackAgrees(sys: System) {
    forall h: seq<Selection> {:trigger sys.fallback(h)} :: sys.program(h).Done? ==> sys.fallback(h) == sys.program(h).outcome
  }

  /** The program asks something that is no valid choice, within the depth bound. */
  ghost predicate Meets(sys: System, b: Bounds) {
    exists x: seq<Selection> :: ValidFrom(sys, [], x) && |x| < b.maxDepth && sys.program(x).Ask? && !ValidChoice(sys.program(x).choice)
  }

  lemma {:induction false} PathIsValid(sys: System, tape: seq<Entry>)
    requires OnPath(sys, tape)
    ensures ValidFrom(sys, [], Selections(tape))
  {
    if tape != [] {
      var front, h := tape[..|tape| - 1], Selections(tape);
      PathIsValid(sys, front);
      assert h[..|tape| - 1] == Selections(front);
      forall i | 0 <= i < |h|
        ensures ValidAt(sys, [] + h[..i], h[i])
      {
        assert [] + h[..i] == h[..i];
        if i < |front| {
          assert h[..i] == Selections(front)[..i] && [] + Selections(front)[..i] == Selections(front)[..i];
          assert h[i] == Selections(front)[i];
        }
      }
    }
  }

  lemma BrokenMeets(sys: System, b: Bounds, tape: seq<Entry>)
    requires OnPath(sys, tape) && |tape| < b.maxDepth && RunPrefix(sys, tape).Broken?
    ensures Meets(sys, b)
  {
    hide OnPath, RunPrefix, ValidFrom;
    PrefixReaches(sys, tape);
    PathIsValid(sys, tape);
    var x := Selections(tape);
    assert ValidFrom(sys, [], x) && sys.program(x).Ask? && !ValidChoice(sys.program(x).choice);
  }

  // ----- what is tried at a choice -----

  lemma {:induction false} OptionsInOrder(options: seq<WeightedOption>, limit: nat)
    requires limit <= |options|
    ensures forall i | 0 <= i < limit :: OptionSelections(options, limit)[i] == Selection(options[i].id, R.None)
  {
    if limit > 0 {
      OptionsInOrder(options, limit - 1);
    }
  }

  lemma {:induction false} NumbersInOrder(first: int, count: nat)
    ensures forall i | 0 <= i < count :: NumberSelections(first, count)[i] == Selection("", R.Some(first + i))
  {
    if count > 0 {
      NumbersInOrder(first, count - 1);
    }
  }

  /** Of options the first ones are tried, in order, as many as the bound allows. */
  lemma OptionsTried(c: Choice, b: Bounds)
    requires ValidChoice(c) && ValidBounds(b) && |c.options| > 0
    ensures |Candidates(c, b).0| == Minimum(|c.options|, b.maxBranches)
    ensures forall i | 0 <= i < |Candidates(c, b).0| :: Candidates(c, b).0[i] == Selection(c.options[i].id, R.None)
  {
    OptionsInOrder(c.options, Minimum(|c.options|, b.maxBranches));
  }

  /** Of a range that is only sampled the least number is tried, the greatest from two samples on, and the middle of three. */
  lemma RangeTried(c: Choice, b: Bounds)
    requires ValidChoice(c) && ValidBounds(b) && |c.options| == 0 && Candidates(c, b).1
    ensures |Candidates(c, b).0| == Minimum(b.rangeSamples, b.maxBranches) <= c.max.value - c.min.value
    ensures Selection("", R.Some(c.min.value)) in Candidates(c, b).0
    ensures b.rangeSamples >= 2 && b.maxBranches >= 2 ==> Selection("", R.Some(c.max.value)) in Candidates(c, b).0
    ensures b.rangeSamples >= 3 && b.maxBranches >= 3 ==>
      exists v | c.min.value <= v <= c.max.value && -1 <= (c.max.value - v) - (v - c.min.value) <= 1 ::
        Selection("", R.Some(v)) in Candidates(c, b).0
  {
    var middle := c.min.value + (c.max.value - c.min.value) / 2;
    var r := Candidates(c, b).0;
    if Minimum(b.rangeSamples, b.maxBranches) >= 3 {
      assert r[1] == Selection("", R.Some(middle));
      assert -1 <= (c.max.value - middle) - (middle - c.min.value) <= 1;
    }
    assert r[0] == Selection("", R.Some(c.min.value));
    if Minimum(b.rangeSamples, b.maxBranches) >= 2 {
      assert r[|r| - 1] == Selection("", R.Some(c.max.value));
    }
  }

  /** A domain counts as sampled exactly when some selection of it is not tried. */
  lemma SampledExactly(c: Choice, b: Bounds)
    requires ValidChoice(c) && ValidBounds(b)
    ensures !Candidates(c, b).1 <==> forall s | ValidSelection(c, s) :: s in Candidates(c, b).0
  {
    var (r, sampled) := Candidates(c, b);
    if |c.options| > 0 {
      OptionsTried(c, b);
      if sampled {
        var missed := Selection(c.options[|r|].id, R.None);
        assert ValidSelection(c, missed) && missed !in r;
      } else {
        forall s | ValidSelection(c, s)
          ensures s in r
        {
          var i :| 0 <= i < |c.options| && c.options[i].id == s.option;
          assert r[i] == s;
        }
      }
    } else {
      SampledRange(c, b);
    }
  }

  lemma SampledRange(c: Choice, b: Bounds)
    requires ValidChoice(c) && ValidBounds(b) && |c.options| == 0
    ensures !Candidates(c, b).1 <==> forall s | ValidSelection(c, s) :: s in Candidates(c, b).0
  {
    var (r, sampled) := Candidates(c, b);
    var lo, hi := c.min.value, c.max.value;
    if sampled {
      var v := if |r| == 1 then hi else if |r| == 2 || r[1].number.value != lo + 1 then lo + 1 else lo + 2;
      var missed := Selection("", R.Some(v));
      assert ValidSelection(c, missed) && missed !in r;
    } else {
      NumbersInOrder(lo, hi - lo + 1);
      forall s | ValidSelection(c, s)
        ensures s in r
      {
        assert r[s.number.value - lo] == s;
      }
    }
  }

  // ----- an unbounded tree is the program -----

  lemma {:induction false} BelowHas(sys: System, b: Bounds, h: seq<Selection>, selections: seq<Selection>, remaining: nat, f: Finding)
    requires ValidBounds(b)
    ensures f in LeavesBelow(sys, b, h, selections, remaining) <==>
            exists i :: 0 <= i < |selections| && f in Leaves(sys, b, h + [selections[i]], remaining)
    decreases |selections|
  {
    hide Leaves;
    if selections != [] {
      var last := |selections| - 1;
      BelowHas(sys, b, h, selections[..last], remaining, f);
      if f in LeavesBelow(sys, b, h, selections[..last], remaining) {
        var i :| 0 <= i < last && f in Leaves(sys, b, h + [selections[..last][i]], remaining);
        assert f in Leaves(sys, b, h + [selections[i]], remaining);
      } else if i :| 0 <= i < |selections| && f in Leaves(sys, b, h + [selections[i]], remaining) {
        assert i < last ==> selections[..last][i] == selections[i];
      }
    }
  }

  lemma StepsInto(sys: System, h: seq<Selection>, s: Selection, x: seq<Selection>)
    ensures h + ([s] + x) == h + [s] + x
    ensures ValidFrom(sys, h, [s] + x) <==> ValidAt(sys, h, s) && ValidFrom(sys, h + [s], x)
  {
    hide ValidAt;
    var all := [s] + x;
    assert all[0] == s && h + all[..0] == h;
    forall i | 0 <= i < |x|
      ensures all[i + 1] == x[i] && h + all[..i + 1] == h + [s] + x[..i]
    {
      assert all[..i + 1] == [s] + x[..i];
    }
    if ValidFrom(sys, h, all) {
      forall i | 0 <= i < |x|
        ensures ValidAt(sys, h + [s] + x[..i], x[i])
      {
        assert ValidAt(sys, h + all[..i + 1], all[i + 1]);
      }
    }
    if ValidAt(sys, h, s) && ValidFrom(sys, h + [s], x) {
      forall i | 0 <= i < |all|
        ensures ValidAt(sys, h + all[..i], all[i])
      {
        if i > 0 { assert ValidAt(sys, h + [s] + x[..i - 1], x[i - 1]); }
      }
    }
  }

  lemma EndsHere(sys: System, h: seq<Selection>, o: Outcome)
    requires sys.program(h).Ask? ==> !ValidChoice(sys.program(h).choice)
    ensures AttainableFrom(sys, h, o) <==> sys.program(h) == Done(o)
  {
    if AttainableFrom(sys, h, o) {
      var x: seq<Selection> :| ValidFrom(sys, h, x) && sys.program(h + x) == Done(o);
      if x != [] {
        FirstValid(sys, h, x);
        assert false;
      }
      assert h + x == h;
    }
    if sys.program(h) == Done(o) {
      var x: seq<Selection> := [];
      assert h + x == h && ValidFrom(sys, h, x);
    }
  }

  /** Where nothing is left out, the outcomes of the tree are those of the program. */
  lemma {:induction false} TreeReaches(sys: System, b: Bounds, h: seq<Selection>, remaining: nat, o: Outcome)
    requires ValidBounds(b) && FallbackAgrees(sys)
    requires Sampled !in Leaves(sys, b, h, remaining) && Cut !in Leaves(sys, b, h, remaining)
    ensures Reached(o) in Leaves(sys, b, h, remaining) <==> AttainableFrom(sys, h, o)
    decreases remaining, 0
  {
    hide Candidates, AttainableFrom, ValidFrom, ValidChoice, ValidSelection, LeavesBelow;
    if remaining == 0 || sys.program(h).Done? || !ValidChoice(sys.program(h).choice) {
      EndsHere(sys, h, o);
    } else {
      TreeSteps(sys, b, h, remaining - 1, o);
    }
  }

  lemma {:induction false} TreeSteps(sys: System, b: Bounds, h: seq<Selection>, remaining: nat, o: Outcome)
    requires ValidBounds(b) && FallbackAgrees(sys) && sys.program(h).Ask? && ValidChoice(sys.program(h).choice)
    requires var all := LeavesBelow(sys, b, h, Candidates(sys.program(h).choice, b).0, remaining) + SampledAt(sys.program(h).choice, b);
      Sampled !in all && Cut !in all
    ensures Reached(o) in LeavesBelow(sys, b, h, Candidates(sys.program(h).choice, b).0, remaining) <==> AttainableFrom(sys, h, o)
    decreases remaining, 1
  {
    hide Candidates, Leaves, ValidFrom, ValidChoice, ValidSelection, FallbackAgrees, LeavesBelow;
    var c := sys.program(h).choice;
    var selections := Candidates(c, b).0;
    SampledExactly(c, b);
    forall i | 0 <= i < |selections|
      ensures Reached(o) in Leaves(sys, b, h + [selections[i]], remaining) <==> AttainableFrom(sys, h + [selections[i]], o)
    {
      if Sampled in Leaves(sys, b, h + [selections[i]], remaining) { BelowHas(sys, b, h, selections, remaining, Sampled); }
      if Cut in Leaves(sys, b, h + [selections[i]], remaining) { BelowHas(sys, b, h, selections, remaining, Cut); }
      TreeReaches(sys, b, h + [selections[i]], remaining, o);
    }
    BelowHas(sys, b, h, selections, remaining, Reached(o));
    if i :| 0 <= i < |selections| && Reached(o) in Leaves(sys, b, h + [selections[i]], remaining) {
      var x: seq<Selection> :| ValidFrom(sys, h + [selections[i]], x) && sys.program(h + [selections[i]] + x) == Done(o);
      StepsInto(sys, h, selections[i], x);
      assert ValidFrom(sys, h, [selections[i]] + x);
    }
    if AttainableFrom(sys, h, o) {
      var x: seq<Selection> :| ValidFrom(sys, h, x) && sys.program(h + x) == Done(o);
      assert x != [] by { if x == [] { AppendNothing(h, x); assert false; } }
      StepsInto(sys, h, x[0], x[1..]);
      assert x == [x[0]] + x[1..];
      var i :| 0 <= i < |selections| && selections[i] == x[0];
      assert AttainableFrom(sys, h + [selections[i]], o);
    }
  }

  /** What is cut is asked past the depth bound. */
  lemma {:induction false} CutIsDeep(sys: System, b: Bounds, h: seq<Selection>, remaining: nat) returns (x: seq<Selection>)
    requires ValidBounds(b) && Cut in Leaves(sys, b, h, remaining)
    ensures ValidFrom(sys, h, x) && |x| == remaining && sys.program(h + x).Ask?
    decreases remaining
  {
    hide Candidates, ValidFrom, ValidChoice, ValidSelection, LeavesBelow;
    if remaining == 0 {
      x := [];
      assert h + x == h && ValidFrom(sys, h, x) by { EmptyPath(sys, h); }
    } else {
      var selections := Candidates(sys.program(h).choice, b).0;
      BelowHas(sys, b, h, selections, remaining - 1, Cut);
      var i :| 0 <= i < |selections| && Cut in Leaves(sys, b, h + [selections[i]], remaining - 1);
      var rest := CutIsDeep(sys, b, h + [selections[i]], remaining - 1);
      x := [selections[i]] + rest;
      StepsInto(sys, h, selections[i], rest);
    }
  }

  lemma EmptyPath(sys: System, h: seq<Selection>)
    ensures ValidFrom(sys, h, [])
  {
  }

  lemma NothingCut(sys: System, b: Bounds)
    requires ValidBounds(b) && NoDeeper(sys, b.maxDepth)
    ensures Cut !in Leaves(sys, b, [], b.maxDepth)
  {
    hide Leaves, ValidFrom;
    if Cut in Leaves(sys, b, [], b.maxDepth) {
      var x := CutIsDeep(sys, b, [], b.maxDepth);
      FromTheStart(x);
      assert false;
    }
  }

  lemma AppendNothing(h: seq<Selection>, x: seq<Selection>)
    requires x == []
    ensures h + x == h
  {
  }

  lemma FromTheStart(x: seq<Selection>)
    ensures [] + x == x
  {
  }

  /** THE TREE IS THE PROGRAM where no domain is sampled and no choice is past the depth bound. */
  lemma TreeIsWhole(sys: System, b: Bounds)
    requires ValidBounds(b) && FallbackAgrees(sys) && NoDeeper(sys, b.maxDepth)
    requires Sampled !in Leaves(sys, b, [], b.maxDepth)
    ensures forall o :: Reached(o) in Leaves(sys, b, [], b.maxDepth) <==> Attainable(sys, o)
  {
    hide Leaves, ValidFrom, AttainableFrom, FallbackAgrees, NoDeeper;
    NothingCut(sys, b);
    forall o
      ensures Reached(o) in Leaves(sys, b, [], b.maxDepth) <==> Attainable(sys, o)
    {
      TreeReaches(sys, b, [], b.maxDepth, o);
    }
  }

  // ----- the search -----

  datatype Result = Result(
    runs: nat,
    openChoices: nat,
    completed: nat,
    prunedPrefixes: nat,
    depthBoundHits: nat,
    statePruned: nat,
    sampledDomains: nat,
    violatingRuns: nat,
    truncated: bool,
    firstViolation: R.Option<Outcome>)

  const NOTHING := Result(0, 0, 0, 0, 0, 0, 0, 0, false, R.None)

  /** Every stored identity stands for a point whose outcomes were found or wait on the stack, strictly deeper. */
  ghost predicate StoredOK(sys: System, b: Bounds, e: Encoding, stored: set<Bytes>, found: set<Finding>, stack: seq<seq<Entry>>)
    requires ValidBounds(b)
  {
    forall s {:trigger s in stored} | s in stored ::
      exists g: seq<Entry> :: StandsCovered(sys, b, e, s, g, found, stack)
  }

  ghost predicate StandsCovered(sys: System, b: Bounds, e: Encoding, s: Bytes, g: seq<Entry>, found: set<Finding>, stack: seq<seq<Entry>>)
    requires ValidBounds(b)
  {
    Stands(sys, b, e, s, g) && Covered(sys, b, Below(sys, b, g), found, stack, b.maxDepth - |g|)
  }

  ghost predicate Stands(sys: System, b: Bounds, e: Encoding, s: Bytes, g: seq<Entry>)
    requires ValidBounds(b)
  {
    && |g| < b.maxDepth
    && sys.program(Selections(g)).Ask?
    && s == CacheIdentity(e, sys.state(Selections(g)), sys.program(Selections(g)).choice, b.maxDepth - |g|)
  }

  /** A point whose identity is stored has outcomes that are covered already. */
  lemma SeenIsCovered(sys: System, b: Bounds, e: Encoding, s: Bytes, h: seq<Entry>, g: seq<Entry>)
    requires ValidBounds(b) && Faithful(e, sys) && StatesDecide(sys)
    requires Stands(sys, b, e, s, g) && Stands(sys, b, e, s, h)
    ensures |g| == |h| && Below(sys, b, g) == Below(sys, b, h)
  {
    hide Leaves, Faithful, CacheIdentity;
    var x, y := Selections(g), Selections(h);
    IdentityTellsApart(e, sys, x, y, sys.program(x).choice, sys.program(y).choice, b.maxDepth - |g|, b.maxDepth - |h|);
    assert SameFuture(sys, x, y);
    SameFutureSameLeaves(sys, b, x, y, b.maxDepth - |g|);
  }

  lemma StoredKept(sys: System, b: Bounds, e: Encoding, stored: set<Bytes>, top: seq<Entry>,
                   found: set<Finding>, stack: seq<seq<Entry>>, found': set<Finding>, stack': seq<seq<Entry>>)
    requires ValidBounds(b) && |top| <= b.maxDepth
    requires StoredOK(sys, b, e, stored, found, stack + [top])
    requires Covered(sys, b, Below(sys, b, top), found', stack', b.maxDepth - |top|)
    requires found <= found' && stack <= stack'
    ensures StoredOK(sys, b, e, stored, found', stack')
  {
    hide Covered, Below;
    forall s | s in stored
      ensures exists g: seq<Entry> :: StandsCovered(sys, b, e, s, g, found', stack')
    {
      var g: seq<Entry> :| StandsCovered(sys, b, e, s, g, found, stack + [top]);
      ReplaceTop(sys, b, Below(sys, b, g), b.maxDepth - |g|, top, found, stack, found', stack');
      assert StandsCovered(sys, b, e, s, g, found', stack');
    }
  }

  /** What the search has yet to do, and what it did, as one invariant. */
  ghost predicate SearchOK(sys: System, b: Bounds, e: Encoding, stored: set<Bytes>, found: set<Finding>, stack: seq<seq<Entry>>)
    requires ValidBounds(b)
  {
    var all := Leaves(sys, b, [], b.maxDepth);
    && StackOK(sys, b, stack)
    && found <= all
    && Covered(sys, b, all, found, stack, b.maxDepth + 1)
    && StoredOK(sys, b, e, stored, found, stack)
  }

  lemma SearchStarts(sys: System, b: Bounds, e: Encoding)
    requires ValidBounds(b)
    ensures SearchOK(sys, b, e, {}, {}, [[]])
  {
    var stack: seq<seq<Entry>> := [[]];
    assert stack[0] == [] && Selections([]) == [];
    assert Below(sys, b, stack[0]) == Leaves(sys, b, [], b.maxDepth);
  }

  lemma SearchIsComplete(sys: System, b: Bounds, e: Encoding, stored: set<Bytes>, found: set<Finding>)
    requires ValidBounds(b) && SearchOK(sys, b, e, stored, found, [])
    ensures found == Leaves(sys, b, [], b.maxDepth)
  {
    hide Leaves;
    forall o | o in Leaves(sys, b, [], b.maxDepth)
      ensures o in found
    {
      assert Pending(sys, b, o, found, [], b.maxDepth + 1);
    }
  }

  /** The top of the stack led to outcomes that are now found. */
  lemma TopFound(sys: System, b: Bounds, e: Encoding, stored: set<Bytes>, found: set<Finding>, stack: seq<seq<Entry>>, top: seq<Entry>)
    requires ValidBounds(b) && SearchOK(sys, b, e, stored, found, stack + [top])
    ensures |top| <= b.maxDepth && OnPath(sys, top)
    ensures SearchOK(sys, b, e, stored, found + Below(sys, b, top), stack)
  {
    hide Leaves, OnPath, Covered, StoredOK;
    var all := stack + [top];
    assert all[|stack|] == top;
    var found' := found + Below(sys, b, top);
    FoundIsCovered(sys, b, Below(sys, b, top), found', stack, b.maxDepth - |top|);
    ReplaceTop(sys, b, Leaves(sys, b, [], b.maxDepth), b.maxDepth + 1, top, found, stack, found', stack);
    StoredKept(sys, b, e, stored, top, found, stack, found', stack);
    StackFront(sys, b, stack, top);
  }

  lemma StackFront(sys: System, b: Bounds, stack: seq<seq<Entry>>, top: seq<Entry>)
    requires ValidBounds(b) && StackOK(sys, b, stack + [top])
    ensures StackOK(sys, b, stack)
    ensures |top| <= b.maxDepth && OnPath(sys, top) && Below(sys, b, top) <= Leaves(sys, b, [], b.maxDepth)
  {
    hide Leaves, OnPath, Below;
    var all := stack + [top];
    assert all[|stack|] == top;
    forall i | 0 <= i < |stack|
      ensures |stack[i]| <= b.maxDepth && OnPath(sys, stack[i]) && Below(sys, b, stack[i]) <= Leaves(sys, b, [], b.maxDepth)
    {
      assert all[i] == stack[i];
    }
  }

  /** The top of the stack was seen before: whatever is below it is covered by the rest. */
  lemma TopSeen(sys: System, b: Bounds, e: Encoding, stored: set<Bytes>, found: set<Finding>, stack: seq<seq<Entry>>,
                top: seq<Entry>, s: Bytes)
    requires ValidBounds(b) && SearchOK(sys, b, e, stored, found, stack + [top])
    requires Faithful(e, sys) && StatesDecide(sys) && s in stored && Stands(sys, b, e, s, top)
    ensures SearchOK(sys, b, e, stored, found, stack)
  {
    hide Leaves, OnPath, Stands, Faithful, StatesDecide, Below;
    StackFront(sys, b, stack, top);
    var g: seq<Entry> :| StandsCovered(sys, b, e, s, g, found, stack + [top]);
    SeenIsCovered(sys, b, e, s, top, g);
    // Only strictly deeper points cover it, and the top is not one of them.
    forall o | o in Below(sys, b, top)
      ensures Pending(sys, b, o, found, stack, b.maxDepth - |top|)
    {
      assert Pending(sys, b, o, found, stack + [top], b.maxDepth - |g|);
      var all := stack + [top];
      if o !in found {
        var i :| 0 <= i < |all| && |all[i]| <= b.maxDepth && b.maxDepth - |all[i]| < b.maxDepth - |g| && o in Below(sys, b, all[i]);
        assert all[i] == stack[i];
      }
    }
    assert Covered(sys, b, Below(sys, b, top), found, stack, b.maxDepth - |top|);
    ReplaceTop(sys, b, Leaves(sys, b, [], b.maxDepth), b.maxDepth + 1, top, found, stack, found, stack);
    StoredKept(sys, b, e, stored, top, found, stack, found, stack);
  }

  lemma OpenedBelow(sys: System, b: Bounds, top: seq<Entry>, c: Choice)
    requires ValidBounds(b) && |top| < b.maxDepth && sys.program(Selections(top)) == Ask(c) && ValidChoice(c)
    ensures Below(sys, b, top) == LeavesBelow(sys, b, Selections(top), Candidates(c, b).0, b.maxDepth - |top| - 1) + SampledAt(c, b)
  {
    hide Candidates, Selections, LeavesBelow;
  }

  lemma StoreOne(sys: System, b: Bounds, e: Encoding, stored: set<Bytes>, s: Bytes, g: seq<Entry>, found: set<Finding>,
                 stack: seq<seq<Entry>>)
    requires ValidBounds(b) && StoredOK(sys, b, e, stored, found, stack) && StandsCovered(sys, b, e, s, g, found, stack)
    ensures StoredOK(sys, b, e, stored + {s}, found, stack)
  {
    hide StandsCovered;
  }

  /** The top of the stack is replaced by its children, and may be stored. */
  lemma TopOpened(sys: System, b: Bounds, e: Encoding, stored: set<Bytes>, stored': set<Bytes>, found: set<Finding>,
                  stack: seq<seq<Entry>>, top: seq<Entry>, c: Choice, s: Bytes)
    requires ValidBounds(b) && SearchOK(sys, b, e, stored, found, stack + [top])
    requires |top| < b.maxDepth && sys.program(Selections(top)) == Ask(c) && ValidChoice(c)
    requires stored' == stored || (stored' == stored + {s} && Stands(sys, b, e, s, top))
    ensures SearchOK(sys, b, e, stored', found + SampledAt(c, b), stack + Children(top, c, Candidates(c, b).0))
  {
    hide OnPath, Stands, Candidates, Covered, Leaves, LeavesBelow, Below, StackOK, StoredOK, Selections, SampledAt;
    StackFront(sys, b, stack, top);
    OpenedBelow(sys, b, top, c);
    var found' := found + SampledAt(c, b);
    var stack' := stack + Children(top, c, Candidates(c, b).0);
    ChildrenCover(sys, b, top, c, Candidates(c, b).0, stack, found');
    var below := LeavesBelow(sys, b, Selections(top), Candidates(c, b).0, b.maxDepth - |top| - 1);
    CoveredToo(sys, b, below, SampledAt(c, b), found', stack', b.maxDepth - |top|);
    ReplaceTop(sys, b, Leaves(sys, b, [], b.maxDepth), b.maxDepth + 1, top, found, stack, found', stack');
    StoredKept(sys, b, e, stored, top, found, stack, found', stack');
    if stored' != stored {
      assert StandsCovered(sys, b, e, s, top, found', stack');
      StoreOne(sys, b, e, stored, s, top, found', stack');
    }
  }

  lemma CoveredToo(sys: System, b: Bounds, some: set<Finding>, more: set<Finding>, found: set<Finding>, stack: seq<seq<Entry>>, bound: int)
    requires ValidBounds(b) && Covered(sys, b, some, found, stack, bound) && more <= found
    ensures Covered(sys, b, some + more, found, stack, bound)
  {
    hide Below;
  }

  /** How many of these outcomes match the target, and which one came first. */
  function Matching(order: seq<Outcome>, target: string): nat {
    if order == [] then 0 else Matching(order[..|order| - 1], target) + if OutcomeMatches(order[|order| - 1], target) then 1 else 0
  }

  function FirstMatching(order: seq<Outcome>, target: string): R.Option<Outcome> {
    if order == [] then R.None
    else
      var first := FirstMatching(order[..|order| - 1], target);
      if first.Some? then first
      else if OutcomeMatches(order[|order| - 1], target) then R.Some(order[|order| - 1]) else R.None
  }

  /** The result counts the completed runs, in the order in which they completed. */
  ghost predicate CountsRuns(r: Result, order: seq<Outcome>, found: set<Finding>, b: Bounds) {
    && r.completed == |order|
    && r.violatingRuns == Matching(order, b.target)
    && r.firstViolation == FirstMatching(order, b.target)
    && forall o :: Reached(o) in found <==> o in order
  }

  /** Counts that always add up. */
  predicate Consistent(r: Result, b: Bounds) {
    && r.runs == r.openChoices + r.completed + r.prunedPrefixes
    && r.runs <= b.maxRuns
    && r.statePruned <= r.openChoices
    && r.violatingRuns <= r.completed
    && (r.violatingRuns > 0 <==> r.firstViolation.Some?)
    && (r.firstViolation.Some? ==> OutcomeMatches(r.firstViolation.value, b.target))
  }

  /** A completed run is counted, and kept if it is the first that matches the target. */
  function Recorded(r: Result, outcome: Outcome, b: Bounds): Result {
    var r1 := r.(completed := r.completed + 1);
    if !OutcomeMatches(outcome, b.target) then r1
    else r1.(violatingRuns := r1.violatingRuns + 1,
             firstViolation := if r1.firstViolation.None? then R.Some(outcome) else r1.firstViolation)
  }

  /** What was found shows in the result: an outcome that matches the target, and what was left out. */
  ghost predicate Reported(r: Result, found: set<Finding>, b: Bounds) {
    && (r.violatingRuns > 0 ==> r.firstViolation.Some? && Reached(r.firstViolation.value) in found)
    && (r.violatingRuns == 0 ==> forall o | Reached(o) in found :: !OutcomeMatches(o, b.target))
    && (r.sampledDomains > 0 <==> Sampled in found)
    && (Cut in found ==> r.depthBoundHits > 0)
  }

  class Explorer {
    const sys: System
    const bounds: Bounds
    const encoding: Encoding
    const cache: StateCache?
    var stack: seq<seq<Entry>>
    var result: Result
    /** The outcomes of completed runs, and what was left out on the way. */
    ghost var found: set<Finding>
    /** The outcomes of completed runs, as they came. */
    ghost var order: seq<Outcome>

    ghost predicate Valid()
      reads this, cache
    {
      && ValidBounds(bounds)
      && Consistent(result, bounds)
      && Reported(result, found, bounds)
      && CountsRuns(result, order, found, bounds)
      && (cache != null ==> cache.Valid() && Faithful(encoding, sys) && StatesDecide(sys))
      && SearchOK(sys, bounds, encoding, Stored(), found, stack)
    }

    ghost function Stored(): set<Bytes>
      reads this, cache
    {
      if cache == null then {} else cache.stored
    }

    constructor (sys: System, bounds: Bounds, encoding: Encoding, cache: StateCache?)
      requires ValidBounds(bounds)
      requires cache != null ==> cache.Valid() && cache.stored == {} && Faithful(encoding, sys) && StatesDecide(sys)
      ensures Valid() && stack == [[]] && this.sys == sys && this.bounds == bounds && this.cache == cache && result == NOTHING
    {
      this.sys, this.bounds, this.encoding, this.cache := sys, bounds, encoding, cache;
      stack, result, found, order := [[]], NOTHING, {}, [];
      new;
      SearchStarts(sys, bounds, encoding);
    }

    method PushChildren(prefix: seq<Entry>, c: Choice, selections: seq<Selection>)
      requires ValidChoice(c) && forall i | 0 <= i < |selections| :: ValidSelection(c, selections[i])
      modifies this`stack
      ensures stack == old(stack) + Children(prefix, c, selections)
    {
      hide NewEntry, ValidSelection, ValidChoice;
      var i: nat := |selections|;
      assert selections[..i] == selections;
      while i > 0
        invariant i <= |selections|
        invariant stack + Children(prefix, c, selections[..i]) == old(stack) + Children(prefix, c, selections)
      {
        ghost var rest := Children(prefix, c, selections[..i - 1]);
        EntryExists(c, selections[i - 1]);
        var child := prefix + [NewEntry(c, selections[i - 1]).value];
        assert selections[..i][..i - 1] == selections[..i - 1];
        assert Children(prefix, c, selections[..i]) == [child] + rest;
        assert stack + ([child] + rest) == (stack + [child]) + rest;
        stack := stack + [child];
        i := i - 1;
      }
      assert selections[..0] == [];
    }

    /** A run that completed with this outcome, perhaps past the depth bound. */
    method Complete(outcome: Outcome, ghost cut: bool) returns (stop: bool)
      requires ValidBounds(bounds) && Consistent(result, bounds) && Reported(result, found, bounds)
      requires CountsRuns(result, order, found, bounds)
      requires result.runs < bounds.maxRuns && (cut ==> result.depthBoundHits > 0)
      modifies this`result, this`found, this`order
      ensures Consistent(result, bounds) && Reported(result, found, bounds) && CountsRuns(result, order, found, bounds)
      ensures order == old(order) + [outcome]
      ensures found == old(found) + EndsIn(outcome, cut) && result.runs == old(result).runs + 1
      ensures stop == (bounds.stopOnViolation && OutcomeMatches(outcome, bounds.target))
      ensures stop ==> result.violatingRuns > 0
    {
      result := Recorded(result.(runs := result.runs + 1), outcome, bounds);
      found := found + EndsIn(outcome, cut);
      order := order + [outcome];
      assert order[..|order| - 1] == old(order);
      stop := bounds.stopOnViolation && OutcomeMatches(outcome, bounds.target);
    }

    /** A run that came to an open choice; true if the cache had seen its state before. */
    method LookUp(prefix: seq<Entry>, c: Choice) returns (seen: bool, ghost identity: Bytes)
      requires cache != null ==> cache.Valid()
      requires ValidBounds(bounds) && |prefix| < bounds.maxDepth && sys.program(Selections(prefix)) == Ask(c)
      modifies cache
      ensures cache == null ==> !seen && Stored() == old(Stored())
      ensures cache != null ==> cache.Valid() && (seen <==> identity in old(Stored()))
      ensures cache != null ==> Stands(sys, bounds, encoding, identity, prefix)
      ensures Stored() == old(Stored()) || (cache != null && !seen && Stored() == old(Stored()) + {identity})
    {
      hide CacheIdentity, Selections;
      seen, identity := false, [];
      if cache != null {
        var bytes := CacheIdentity(encoding, sys.state(Selections(prefix)), c, bounds.maxDepth - |prefix|);
        identity := bytes;
        seen := cache.Seen(bytes);
      }
    }

    method VisitOpen(prefix: seq<Entry>, c: Choice, ghost rest: seq<seq<Entry>>)
      requires ValidBounds(bounds) && Consistent(result, bounds) && Reported(result, found, bounds)
      requires CountsRuns(result, order, found, bounds)
      requires cache != null ==> cache.Valid() && Faithful(encoding, sys) && StatesDecide(sys)
      requires stack == rest && SearchOK(sys, bounds, encoding, Stored(), found, rest + [prefix])
      requires |prefix| < bounds.maxDepth && sys.program(Selections(prefix)) == Ask(c) && ValidChoice(c)
      requires result.runs < bounds.maxRuns
      modifies this`stack, this`result, this`found, cache
      ensures Valid() && result.runs == old(result).runs + 1
    {
      hide SearchOK, Faithful, StatesDecide, CacheIdentity, OutcomeMatches, Reported, Selections, ValidChoice, ValidBounds, Stands,
        Children, Candidates, SampledAt;
      result := result.(runs := result.runs + 1, openChoices := result.openChoices + 1);
      ghost var stored := Stored();
      var seen, identity := LookUp(prefix, c);
      StillReported(old(result), result, found, bounds);
      if seen {
        ghost var before := result;
        result := result.(statePruned := result.statePruned + 1);
        TopSeen(sys, bounds, encoding, stored, found, rest, prefix, identity);
        StillReported(before, result, found, bounds);
      } else {
        TopOpened(sys, bounds, encoding, stored, Stored(), found, rest, prefix, c, identity);
        Expand(prefix, c);
      }
    }

    /** Pushes the prefix with each selection to try. */
    method Expand(prefix: seq<Entry>, c: Choice)
      requires ValidBounds(bounds) && ValidChoice(c) && Reported(result, found, bounds)
      modifies this`stack, this`result, this`found
      ensures stack == old(stack) + Children(prefix, c, Candidates(c, bounds).0)
      ensures result == old(result).(sampledDomains := result.sampledDomains)
      ensures found == old(found) + SampledAt(c, bounds) && Reported(result, found, bounds)
      ensures CountsRuns(old(result), order, old(found), bounds) ==> CountsRuns(result, order, found, bounds)
    {
      hide Candidates, ValidChoice, ValidBounds, Children, OutcomeMatches;
      var (selections, sampled) := Candidates(c, bounds);
      found := found + SampledAt(c, bounds);
      if sampled {
        result := result.(sampledDomains := result.sampledDomains + 1);
      }
      PushChildren(prefix, c, selections);
    }

    /** Runs one prefix; `stop` when the search is to end at a violation, an error at a choice that is not valid. */
    method Visit() returns (stop: bool, error: R.Option<Error>)
      requires Valid() && |stack| > 0 && result.runs < bounds.maxRuns
      modifies this, cache
      ensures error.None? ==> Valid() && result.runs == old(result.runs) + 1
      ensures error.Some? ==> Meets(sys, bounds)
      ensures stop ==> bounds.stopOnViolation && result.violatingRuns > 0
    {
      hide OutcomeMatches, Reported, Faithful, StatesDecide, Covered, StoredOK, StackOK, OnPath, RunPrefix, SampledAt, Meets;
      var prefix := stack[|stack| - 1];
      ghost var rest := stack[..|stack| - 1];
      assert stack == rest + [prefix];
      TopFound(sys, bounds, encoding, Stored(), found, rest, prefix);
      stack := stack[..|stack| - 1];
      stop, error := false, R.None;
      if |prefix| >= bounds.maxDepth {
        result := result.(depthBoundHits := result.depthBoundHits + 1);
        StillReported(old(result), result, found, bounds);
        BelowBound(sys, bounds, prefix);
        stop := Complete(sys.fallback(Selections(prefix)), sys.program(Selections(prefix)).Ask?);
        return;
      }
      PrefixReaches(sys, prefix);
      match RunPrefix(sys, prefix) {
        case Broken(e) =>
          result := result.(runs := result.runs + 1);
          BrokenMeets(sys, bounds, prefix);
          error := R.Some(e);
        case Finished(outcome, consumed) =>
          stop := Complete(outcome, false);
        case Open(c) =>
          VisitOpen(prefix, c, rest);
      }
    }

    /**
     * The whole search; it is truncated if prefixes are left when it ends, which is when the runs
     * are used up or at a violation where it is to stop.
     */
    method Search() returns (error: R.Option<Error>)
      requires Valid() && result == NOTHING
      modifies this, cache
      ensures error.None? ==> Valid()
      ensures error.Some? ==> Meets(sys, bounds)
      ensures error.None? && result.truncated ==>
        result.runs == bounds.maxRuns || (bounds.stopOnViolation && result.violatingRuns > 0)
      ensures error.None? && !result.truncated ==> found == Leaves(sys, bounds, [], bounds.maxDepth)
      ensures error.None? && !result.truncated ==>
        (result.violatingRuns > 0 <==>
          exists o :: Reached(o) in Leaves(sys, bounds, [], bounds.maxDepth) && OutcomeMatches(o, bounds.target))
      ensures error.None? && !result.truncated && result.sampledDomains == 0
              && FallbackAgrees(sys) && NoDeeper(sys, bounds.maxDepth) ==>
        && (forall o :: Reached(o) in found <==> Attainable(sys, o))
        && (result.violatingRuns > 0 <==> exists o :: Attainable(sys, o) && OutcomeMatches(o, bounds.target))
    {
      hide OutcomeMatches, Faithful, StatesDecide, SearchOK, Leaves, FallbackAgrees, NoDeeper, Attainable, Meets;
      error := R.None;
      while |stack| > 0 && result.runs < bounds.maxRuns
        invariant Valid() && error.None?
        decreases bounds.maxRuns - result.runs
      {
        var stop;
        stop, error := Visit();
        if error.Some? {
          return;
        }
        if stop {
          break;
        }
      }
      ghost var r := result;
      result := result.(truncated := |stack| > 0);
      StillReported(r, result, found, bounds);
      if |stack| == 0 {
        SearchIsComplete(sys, bounds, encoding, Stored(), found);
        if result.sampledDomains == 0 && FallbackAgrees(sys) && NoDeeper(sys, bounds.maxDepth) {
          TreeIsWhole(sys, bounds);
        }
      }
    }
  }

  lemma BelowBound(sys: System, b: Bounds, tape: seq<Entry>)
    requires ValidBounds(b) && |tape| == b.maxDepth
    ensures Below(sys, b, tape) == EndsIn(sys.fallback(Selections(tape)), sys.program(Selections(tape)).Ask?)
  {
  }

  lemma EntryExists(c: Choice, s: Selection)
    requires ValidChoice(c) && ValidSelection(c, s)
    ensures NewEntry(c, s).Some?
  {
  }

  lemma StillReported(r: Result, r': Result, found: set<Finding>, b: Bounds)
    requires Reported(r, found, b) && r'.violatingRuns == r.violatingRuns && r'.firstViolation == r.firstViolation
    requires r'.sampledDomains == r.sampledDomains && r'.depthBoundHits >= r.depthBoundHits
    ensures Reported(r', found, b)
  {
  }

  /**
   * THE CACHE LOSES NOTHING: for any hash and any bounds on the cache, a cached and an uncached
   * search that were both not cut short found the same outcomes.
   */
  method SearchBothWays(sys: System, b: Bounds, e: Encoding, hash: Bytes -> nat, maxEntries: nat, maxBytes: nat)
    returns (plain: Result, cached: Result, ok: bool, ghost plainFound: set<Finding>, ghost cachedFound: set<Finding>)
    requires ValidBounds(b) && Faithful(e, sys) && StatesDecide(sys)
    ensures ok && !plain.truncated && !cached.truncated ==>
      plainFound == cachedFound && (plain.violatingRuns > 0 <==> cached.violatingRuns > 0)
    ensures ok ==> Consistent(plain, b) && Consistent(cached, b)
    ensures !ok ==> Meets(sys, b)
  {
    hide SearchOK, Faithful, StatesDecide, Leaves, OutcomeMatches, Reported, Meets;
    var first := new Explorer(sys, b, e, null);
    var error1 := first.Search();
    var cache := new StateCache(maxEntries, maxBytes, hash);
    var second := new Explorer(sys, b, e, cache);
    var error2 := second.Search();
    plain, cached, ok := first.result, second.result, error1.None? && error2.None?;
    plainFound, cachedFound := first.found, second.found;
  }
}

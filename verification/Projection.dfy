/**
 * Semantic projection (semanticplan/projector.go, semanticplan/execution.go): directives taken
 * from one run pin the choices of another by portable identity, and an independent re-check
 * reconstructs the account from the recorded choices.
 */
module Projection {
  import R = RaftTypes
  import opened Decision

  const ELECTION_TIMEOUT := "election_timeout"
  const STORAGE_LATENCY := "storage_latency"
  const NETWORK_LOSS := "network_loss"
  const NETWORK_LATENCY := "network_latency"

  const MAX_DECISIONS: nat := 100_000

  datatype PortableKey = PortableKey(kind: string, node: string, source: string, target: string, incarnation: nat, occurrence: nat)

  datatype Directive = Directive(key: PortableKey, sourceIndex: nat, selection: Selection)

  datatype ProjectionError = InvalidProjection | DuplicateTarget

  datatype Reply = Selected(selection: Selection) | Rejected(error: ProjectionError)

  datatype Fidelity = Exact | Partial | Failed

  /** Keys that were chosen without a directive, and directives that were not used, each as it is listed. */
  datatype Report = Report(fidelity: Fidelity, directives: nat, projected: nat, fixed: nat,
                           additional: set<PortableKey>, unmatched: seq<Directive>)

  // ----- keys, choices, directives -----

  predicate Supported(kind: string) {
    kind == ELECTION_TIMEOUT || kind == STORAGE_LATENCY || kind == NETWORK_LOSS || kind == NETWORK_LATENCY
  }

  predicate ValidKey(k: PortableKey) {
    && Supported(k.kind)
    && k.incarnation != 0 && k.occurrence != 0
    && if k.kind == ELECTION_TIMEOUT || k.kind == STORAGE_LATENCY
       then k.node != "" && k.source == "" && k.target == ""
       else k.node == "" && k.source != "" && k.target != ""
  }

  predicate PortableChoice(c: Choice) {
    && ValidChoice(c)
    && Supported(c.kind)
    && if c.kind == NETWORK_LOSS
       then |c.options| > 0 && forall i | 0 <= i < |c.options| :: c.options[i].id == "deliver" || c.options[i].id == "drop"
       else c.min.Some? && c.max.Some?
  }

  /** The only selection of a domain of one. */
  function FixedSelection(c: Choice): R.Option<Selection> {
    if |c.options| == 1 then R.Some(Selection(c.options[0].id, R.None))
    else if c.min.Some? && c.max.Some? && c.min.value == c.max.value then R.Some(Selection("", c.min))
    else R.None
  }

  predicate DirectiveShape(d: Directive) {
    if d.key.kind == NETWORK_LOSS
    then d.selection.number.None? && (d.selection.option == "deliver" || d.selection.option == "drop")
    else d.selection.number.Some? && d.selection.option == "" && d.selection.number.value >= 0
  }

  predicate ValidDirectives(ds: seq<Directive>) {
    && (forall i | 0 <= i < |ds| :: ds[i].sourceIndex < MAX_DECISIONS && ValidKey(ds[i].key) && DirectiveShape(ds[i]))
    && (forall i, j | 0 <= i < j < |ds| :: ds[i].sourceIndex < ds[j].sourceIndex)
    && (forall i, j | 0 <= i < j < |ds| :: ds[i].key != ds[j].key)
  }

  /** The portable identity in a choice's context, if it has one. */
  type Keying = Choice -> R.Option<PortableKey>

  ghost predicate Sensible(keyOf: Keying) {
    forall c {:trigger keyOf(c)} :: keyOf(c).Some? ==> ValidKey(keyOf(c).value) && keyOf(c).value.kind == c.kind
  }

  // ----- the projector -----

  /** What does not change: the directives, the keys of choices, and a deterministic fallback with a state. */
  datatype Plan = Plan(directives: seq<Directive>, keyOf: Keying, fallback: (nat, Choice) -> (R.Option<Selection>, nat), seed: nat)

  datatype State = State(consumed: set<PortableKey>, seen: set<PortableKey>, random: nat, additional: set<PortableKey>,
                         projected: nat, fixed: nat, failed: R.Option<ProjectionError>)

  function Fresh(plan: Plan): State {
    State({}, {}, plan.seed, {}, 0, 0, R.None)
  }

  function DirectiveFor(ds: seq<Directive>, k: PortableKey): R.Option<Directive> {
    if ds == [] then R.None
    else if ds[|ds| - 1].key == k then R.Some(ds[|ds| - 1])
    else DirectiveFor(ds[..|ds| - 1], k)
  }

  function Fail(s: State, error: ProjectionError): (Reply, State) {
    (Rejected(error), s.(failed := R.Some(error)))
  }

  function Project(plan: Plan, s: State, c: Choice): (Reply, State) {
    if s.failed.Some? then (Rejected(s.failed.value), s)
    else if !PortableChoice(c) || plan.keyOf(c).None? then Fail(s, InvalidProjection)
    else
      var k := plan.keyOf(c).value;
      if k in s.seen then Fail(s, DuplicateTarget)
      else ProjectNew(plan, s.(seen := s.seen + {k}), c, k)
  }

  function ProjectNew(plan: Plan, s: State, c: Choice, k: PortableKey): (Reply, State)
    requires ValidChoice(c)
  {
    if FixedSelection(c).Some? then (Selected(FixedSelection(c).value), s.(fixed := s.fixed + 1))
    else
      match DirectiveFor(plan.directives, k)
      case Some(d) =>
        if !ValidSelection(c, d.selection) then Fail(s, InvalidProjection)
        else (Selected(d.selection), s.(consumed := s.consumed + {k}, projected := s.projected + 1))
      case None =>
        var (selection, random) := plan.fallback(s.random, c);
        var s1 := s.(random := random);
        if selection.None? then Fail(s1, InvalidProjection)
        else (Selected(selection.value), s1.(additional := s.additional + {k}))
  }

  /** The directives that were not used, in order. */
  function Unmatched(ds: seq<Directive>, consumed: set<PortableKey>): seq<Directive> {
    if ds == [] then []
    else Unmatched(ds[..|ds| - 1], consumed) + if ds[|ds| - 1].key in consumed then [] else [ds[|ds| - 1]]
  }

  function ReportOf(plan: Plan, s: State): Report {
    var unmatched := Unmatched(plan.directives, s.consumed);
    Report(if s.failed.Some? then Failed else if s.additional != {} || unmatched != [] then Partial else Exact,
           |plan.directives|, s.projected, s.fixed, s.additional, unmatched)
  }

  /** The projector as an object. */
  class Projector {
    const plan: Plan
    var directives: map<PortableKey, Directive>
    var consumed: set<PortableKey>
    var seen: set<PortableKey>
    var random: nat
    var additional: set<PortableKey>
    var projected: nat
    var fixed: nat
    var failed: R.Option<ProjectionError>

    ghost predicate Valid()
      reads this
    {
      forall k :: (k in directives <==> DirectiveFor(plan.directives, k).Some?)
                  && (k in directives ==> DirectiveFor(plan.directives, k) == R.Some(directives[k]))
    }

    function Value(): State
      reads this
    {
      State(consumed, seen, random, additional, projected, fixed, failed)
    }

    constructor (plan: Plan)
      requires ValidDirectives(plan.directives)
      ensures Valid() && this.plan == plan && Value() == Fresh(plan)
    {
      this.plan := plan;
      directives := map[];
      consumed, seen, random, additional, projected, fixed, failed := {}, {}, plan.seed, {}, 0, 0, R.None;
      new;
      for i := 0 to |plan.directives|
        invariant this.plan == plan && Value() == Fresh(plan)
        invariant forall k :: (k in directives <==> DirectiveFor(plan.directives[..i], k).Some?)
                              && (k in directives ==> DirectiveFor(plan.directives[..i], k) == R.Some(directives[k]))
      {
        assert plan.directives[..i + 1][..i] == plan.directives[..i];
        directives := directives[plan.directives[i].key := plan.directives[i]];
      }
      assert plan.directives[..|plan.directives|] == plan.directives;
    }

    method Choose(c: Choice) returns (r: Reply)
      requires Valid()
      modifies this
      ensures Valid() && (r, Value()) == Project(plan, old(Value()), c)
    {
      hide PortableChoice, FixedSelection, ValidSelection, DirectiveFor;
      if failed.Some? { return Rejected(failed.value); }
      if !PortableChoice(c) || plan.keyOf(c).None? {
        failed := R.Some(InvalidProjection);
        return Rejected(InvalidProjection);
      }
      PortableIsValid(c);
      var k := plan.keyOf(c).value;
      if k in seen {
        failed := R.Some(DuplicateTarget);
        return Rejected(DuplicateTarget);
      }
      seen := seen + {k};
      var only := FixedSelection(c);
      if only.Some? {
        fixed := fixed + 1;
        return Selected(only.value);
      }
      if k in directives {
        var d := directives[k];
        if !ValidSelection(c, d.selection) {
          failed := R.Some(InvalidProjection);
          return Rejected(InvalidProjection);
        }
        consumed := consumed + {k};
        projected := projected + 1;
        return Selected(d.selection);
      }
      var (selection, next) := plan.fallback(random, c);
      random := next;
      if selection.None? {
        failed := R.Some(InvalidProjection);
        return Rejected(InvalidProjection);
      }
      additional := additional + {k};
      r := Selected(selection.value);
    }

    method Finish() returns (report: Report)
      requires Valid()
      ensures report == ReportOf(plan, Value())
    {
      var unmatched := [];
      for i := 0 to |plan.directives|
        invariant unmatched == Unmatched(plan.directives[..i], consumed)
      {
        assert plan.directives[..i + 1][..i] == plan.directives[..i];
        if plan.directives[i].key !in consumed { unmatched := unmatched + [plan.directives[i]]; }
      }
      assert plan.directives[..|plan.directives|] == plan.directives;
      var fidelity := Exact;
      if failed.Some? { fidelity := Failed; } else if |additional| != 0 || |unmatched| != 0 { fidelity := Partial; }
      report := Report(fidelity, |plan.directives|, projected, fixed, additional, unmatched);
    }
  }

  lemma PortableIsValid(c: Choice)
    requires PortableChoice(c)
    ensures ValidChoice(c)
  {
  }

  predicate Directs(ds: seq<Directive>, k: PortableKey, d: Directive) {
    d in ds && d.key == k
  }

  lemma {:induction false} DirectiveForExactly(ds: seq<Directive>, k: PortableKey)
    requires forall i, j | 0 <= i < j < |ds| :: ds[i].key != ds[j].key
    ensures DirectiveFor(ds, k).Some? ==> Directs(ds, k, DirectiveFor(ds, k).value)
    ensures forall d | Directs(ds, k, d) :: DirectiveFor(ds, k) == R.Some(d)
  {
    if ds != [] {
      var front, last := ds[..|ds| - 1], ds[|ds| - 1];
      DirectiveForExactly(front, k);
      assert ds == front + [last];
      forall d | Directs(ds, k, d)
        ensures DirectiveFor(ds, k) == R.Some(d)
      {
        if d in front {
          var i :| 0 <= i < |front| && front[i] == d;
          assert ds[i].key != ds[|ds| - 1].key;
          assert Directs(front, k, d);
        }
      }
    }
  }

  /** A choice that projects: a timeout or a latency from a range, or a loss between delivering and dropping. */
  ghost predicate Projects(c: Choice) {
    && ValidChoice(c)
    && if c.options != [] then c.kind == "network_loss" && forall i | 0 <= i < |c.options| :: c.options[i].id in {"deliver", "drop"}
       else c.kind in {"election_timeout", "storage_latency", "network_latency"}
  }

  lemma ProjectsExactly(c: Choice)
    ensures PortableChoice(c) <==> Projects(c)
  {
  }

  /** It leaves something to choose. */
  predicate Varies(c: Choice) {
    |c.options| > 1 || (c.options == [] && c.min.Some? && c.max.Some? && c.min.value < c.max.value)
  }

  lemma FixedExactly(c: Choice)
    requires Projects(c)
    ensures FixedSelection(c).None? <==> Varies(c)
    ensures FixedSelection(c).Some? ==> forall s | InDomain(c, s) :: s.option == FixedSelection(c).value.option && s.number == FixedSelection(c).value.number
  {
  }

  /** How a projector answers a choice under a key that it has not seen. */
  ghost predicate AnswersNew(plan: Plan, s: State, c: Choice, k: PortableKey, r: Reply, s1: State)
    requires ValidChoice(c)
  {
    && (!Varies(c) ==> r.Selected? && ValidSelection(c, r.selection) && s1 == s.(seen := s.seen + {k}, fixed := s.fixed + 1))
    && (forall d | Varies(c) && Directs(plan.directives, k, d) ::
         if ValidSelection(c, d.selection) then
           r == Selected(d.selection) && s1 == s.(seen := s.seen + {k}, consumed := s.consumed + {k}, projected := s.projected + 1)
         else r == Rejected(InvalidProjection) && s1 == s.(seen := s.seen + {k}, failed := R.Some(InvalidProjection)))
    && (Varies(c) && (forall d :: !Directs(plan.directives, k, d)) ==>
         var left := plan.fallback(s.random, c);
         if left.0.Some? then
           r == Selected(left.0.value) && s1 == s.(seen := s.seen + {k}, random := left.1, additional := s.additional + {k})
         else r == Rejected(InvalidProjection) && s1 == s.(seen := s.seen + {k}, random := left.1, failed := R.Some(InvalidProjection)))
  }

  /**
   * WHAT A PROJECTOR ANSWERS, exactly: once failed, always the same failure; a choice that does not
   * project, or under a key seen before, fails; one that leaves nothing to choose gets its only
   * selection; one with a directive gets that, if it is in its domain; any other is left to the fallback.
   */
  lemma AnswersExactly(plan: Plan, s: State, c: Choice)
    requires ValidDirectives(plan.directives)
    ensures var (r, s1) := Project(plan, s, c);
      if s.failed.Some? then r == Rejected(s.failed.value) && s1 == s
      else if !Projects(c) || plan.keyOf(c).None? then r == Rejected(InvalidProjection) && s1 == s.(failed := R.Some(InvalidProjection))
      else if plan.keyOf(c).value in s.seen then r == Rejected(DuplicateTarget) && s1 == s.(failed := R.Some(DuplicateTarget))
      else AnswersNew(plan, s, c, plan.keyOf(c).value, r, s1)
  {
    hide DirectiveFor, PortableChoice, FixedSelection, ValidKey, DirectiveShape, Projects, Directs, Varies, ValidSelection;
    ProjectsExactly(c);
    if s.failed.None? && Projects(c) && plan.keyOf(c).Some? && plan.keyOf(c).value !in s.seen {
      var k := plan.keyOf(c).value;
      ProjectsValid(c);
      NewAnswered(plan, s, c, k);
    }
  }

  lemma NewAnswered(plan: Plan, s: State, c: Choice, k: PortableKey)
    requires ValidDirectives(plan.directives) && Projects(c) && ValidChoice(c)
    ensures var (r, s1) := ProjectNew(plan, s.(seen := s.seen + {k}), c, k);
      AnswersNew(plan, s, c, k, r, s1)
  {
    hide DirectiveFor, PortableChoice, FixedSelection, ValidKey, DirectiveShape, Projects, Directs, Varies, ValidSelection, ValidChoice;
    FixedExactly(c);
    DirectiveForExactly(plan.directives, k);
    var (r, s1) := ProjectNew(plan, s.(seen := s.seen + {k}), c, k);
    if FixedSelection(c).Some? {
      FixedInDomain(c);
      assert AnswersNew(plan, s, c, k, r, s1);
    } else if DirectiveFor(plan.directives, k).Some? {
      var d := DirectiveFor(plan.directives, k).value;
      assert Directs(plan.directives, k, d);
      assert AnswersNew(plan, s, c, k, r, s1);
    } else {
      assert forall d :: !Directs(plan.directives, k, d);
      assert AnswersNew(plan, s, c, k, r, s1);
    }
  }

  lemma ProjectsValid(c: Choice)
    requires Projects(c)
    ensures ValidChoice(c)
  {
  }

  lemma FixedInDomain(c: Choice)
    requires Projects(c) && FixedSelection(c).Some?
    ensures ValidSelection(c, FixedSelection(c).value)
  {
    if |c.options| == 1 { assert c.options[0].id == FixedSelection(c).value.option; }
  }

  // ----- runs of the projector -----

  /** The selections for a sequence of choices, up to the first that is rejected, and the final state. */
  function Projected(plan: Plan, choices: seq<Choice>): (seq<Selection>, State) {
    if choices == [] then ([], Fresh(plan))
    else
      var (selections, s) := Projected(plan, choices[..|choices| - 1]);
      match Project(plan, s, choices[|choices| - 1])
      case (Selected(x), s1) => (selections + [x], s1)
      case (Rejected(_), s1) => (selections, s1)
  }

  /** Until a failure there is a selection for every choice; a failure stays, and spends nothing more. */
  lemma {:induction false} ProjectedPrefix(plan: Plan, choices: seq<Choice>)
    ensures var (selections, s) := Projected(plan, choices);
      && |selections| <= |choices|
      && Projected(plan, choices[..|selections|]).0 == selections
      && Projected(plan, choices[..|selections|]).1.failed.None?
      && (s.failed.None? ==> |selections| == |choices|)
      && ReportOf(plan, s) == ReportOf(plan, Projected(plan, choices[..|selections|]).1)
           .(fidelity := if s.failed.Some? then Failed else ReportOf(plan, s).fidelity)
  {
    hide PortableChoice, FixedSelection, DirectiveFor;
    if choices == [] {
      assert choices[..0] == choices;
    } else {
      var front := choices[..|choices| - 1];
      ProjectedPrefix(plan, front);
      var (selections, s) := Projected(plan, front);
      assert choices[..|selections|] == front[..|selections|];
      if s.failed.None? {
        assert front[..|front|] == front;
        assert choices[..|choices|] == choices;
      }
    }
  }

  /** The directives of a plan are distinct keys, so what is used and what is not add up. */
  lemma {:induction false} UnmatchedCount(ds: seq<Directive>, consumed: set<PortableKey>)
    requires forall i, j | 0 <= i < j < |ds| :: ds[i].key != ds[j].key
    requires forall k | k in consumed :: DirectiveFor(ds, k).Some?
    ensures |Unmatched(ds, consumed)| + |consumed| == |ds|
  {
    if ds == [] {
      assert consumed == {};
    } else {
      var front, last := ds[..|ds| - 1], ds[|ds| - 1];
      var rest := consumed - {last.key};
      forall k | k in rest
        ensures DirectiveFor(front, k).Some?
      {
        assert DirectiveFor(ds, k).Some?;
      }
      UnmatchedCount(front, rest);
      SameUnmatched(front, consumed, last.key);
    }
  }

  lemma {:induction false} SameUnmatched(ds: seq<Directive>, consumed: set<PortableKey>, k: PortableKey)
    requires forall i | 0 <= i < |ds| :: ds[i].key != k
    ensures Unmatched(ds, consumed) == Unmatched(ds, consumed - {k})
  {
    if ds != [] { SameUnmatched(ds[..|ds| - 1], consumed, k); }
  }

  ghost predicate Accounted(plan: Plan, selections: seq<Selection>, s: State) {
    && s.projected == |s.consumed|
    && |selections| == s.projected + s.fixed + |s.additional|
    && s.consumed <= s.seen && s.additional <= s.seen
    && (forall k | k in s.consumed :: DirectiveFor(plan.directives, k).Some?)
    && (forall k | k in s.additional :: ValidKey(k) && DirectiveFor(plan.directives, k).None?)
  }

  lemma {:induction false} ProjectedIsAccounted(plan: Plan, choices: seq<Choice>)
    requires Sensible(plan.keyOf)
    ensures Accounted(plan, Projected(plan, choices).0, Projected(plan, choices).1)
  {
    hide Project, Accounted;
    if choices == [] {
      NothingAccounted(plan);
    } else {
      ProjectedIsAccounted(plan, choices[..|choices| - 1]);
      var (selections, s) := Projected(plan, choices[..|choices| - 1]);
      AccountedStep(plan, selections, s, choices[|choices| - 1]);
    }
  }

  lemma NothingAccounted(plan: Plan)
    ensures Accounted(plan, [], Fresh(plan))
  {
  }

  lemma AccountedStep(plan: Plan, selections: seq<Selection>, s: State, c: Choice)
    requires Sensible(plan.keyOf) && Accounted(plan, selections, s)
    ensures match Project(plan, s, c)
            case (Selected(x), s1) => Accounted(plan, selections + [x], s1)
            case (Rejected(_), s1) => Accounted(plan, selections, s1)
  {
    hide PortableChoice, FixedSelection, DirectiveFor, ValidKey, ValidSelection, ValidChoice, Accounted, ProjectNew, Sensible;
    if s.failed.Some? || !PortableChoice(c) || plan.keyOf(c).None? || plan.keyOf(c).value in s.seen {
      FailureAccounted(plan, selections, s, s.failed);
      FailureAccounted(plan, selections, s, R.Some(InvalidProjection));
      FailureAccounted(plan, selections, s, R.Some(DuplicateTarget));
    } else {
      PortableIsValid(c);
      KeyIsValid(plan.keyOf, c);
      NewAccounted(plan, selections, s, c, plan.keyOf(c).value);
    }
  }

  lemma KeyIsValid(keyOf: Keying, c: Choice)
    requires Sensible(keyOf) && keyOf(c).Some?
    ensures ValidKey(keyOf(c).value)
  {
    hide ValidKey;
  }

  lemma FailureAccounted(plan: Plan, selections: seq<Selection>, s: State, failed: R.Option<ProjectionError>)
    requires Accounted(plan, selections, s)
    ensures Accounted(plan, selections, s.(failed := failed))
  {
  }

  lemma FixedAccounted(plan: Plan, selections: seq<Selection>, s: State, x: Selection, k: PortableKey)
    requires Accounted(plan, selections, s)
    ensures Accounted(plan, selections + [x], s.(seen := s.seen + {k}, fixed := s.fixed + 1))
  {
    hide DirectiveFor, ValidKey;
  }

  lemma DirectedAccounted(plan: Plan, selections: seq<Selection>, s: State, x: Selection, k: PortableKey)
    requires Accounted(plan, selections, s) && k !in s.seen && DirectiveFor(plan.directives, k).Some?
    ensures Accounted(plan, selections + [x],
                      s.(seen := s.seen + {k}, consumed := s.consumed + {k}, projected := s.projected + 1))
  {
    hide DirectiveFor, ValidKey;
    assert |s.consumed + {k}| == |s.consumed| + 1;
  }

  lemma AdditionalAccounted(plan: Plan, selections: seq<Selection>, s: State, x: Selection, k: PortableKey, random: nat)
    requires Accounted(plan, selections, s) && k !in s.seen && ValidKey(k) && DirectiveFor(plan.directives, k).None?
    ensures Accounted(plan, selections + [x], s.(seen := s.seen + {k}, random := random, additional := s.additional + {k}))
  {
    hide DirectiveFor, ValidKey;
    assert |s.additional + {k}| == |s.additional| + 1;
  }

  lemma RejectedAccounted(plan: Plan, selections: seq<Selection>, s: State, k: PortableKey, random: nat, failed: R.Option<ProjectionError>)
    requires Accounted(plan, selections, s)
    ensures Accounted(plan, selections, s.(seen := s.seen + {k}, random := random, failed := failed))
  {
    hide DirectiveFor, ValidKey;
  }

  /** A choice with a new key goes to exactly one of the three counts, or fails. */
  lemma NewAccounted(plan: Plan, selections: seq<Selection>, s: State, c: Choice, k: PortableKey)
    requires Accounted(plan, selections, s) && ValidKey(k) && k !in s.seen && ValidChoice(c)
    ensures match ProjectNew(plan, s.(seen := s.seen + {k}), c, k)
            case (Selected(x), s1) => Accounted(plan, selections + [x], s1)
            case (Rejected(_), s1) => Accounted(plan, selections, s1)
  {
    hide FixedSelection, DirectiveFor, ValidKey, ValidSelection, ValidChoice, Accounted;
    var (selection, random) := plan.fallback(s.random, c);
    RejectedAccounted(plan, selections, s, k, s.random, R.Some(InvalidProjection));
    RejectedAccounted(plan, selections, s, k, random, R.Some(InvalidProjection));
    if FixedSelection(c).Some? {
      FixedAccounted(plan, selections, s, FixedSelection(c).value, k);
    } else if DirectiveFor(plan.directives, k).Some? {
      DirectedAccounted(plan, selections, s, DirectiveFor(plan.directives, k).value.selection, k);
    } else if selection.Some? {
      AdditionalAccounted(plan, selections, s, selection.value, k, random);
    }
  }

  /** What the validator of reports demands, given how many choices were recorded. */
  ghost predicate ValidReport(r: Report, recorded: nat) {
    && r.projected <= r.directives
    && r.directives <= MAX_DECISIONS && r.projected <= MAX_DECISIONS && r.fixed <= MAX_DECISIONS
    && |r.additional| <= MAX_DECISIONS && |r.unmatched| <= MAX_DECISIONS
    && (forall k | k in r.additional :: ValidKey(k))
    && ValidDirectives(r.unmatched)
    && recorded == r.projected + r.fixed + |r.additional|
    && match r.fidelity
       case Exact => r.additional == {} && r.unmatched == [] && r.projected == r.directives
       case Partial => |r.additional| + |r.unmatched| != 0 && r.projected + |r.unmatched| == r.directives
       case Failed => r.projected + |r.unmatched| <= r.directives
  }

  lemma {:induction false} UnmatchedValid(ds: seq<Directive>, consumed: set<PortableKey>)
    requires ValidDirectives(ds)
    ensures ValidDirectives(Unmatched(ds, consumed))
    ensures forall i | 0 <= i < |Unmatched(ds, consumed)| :: Unmatched(ds, consumed)[i] in ds
  {
    if ds != [] {
      var front := ds[..|ds| - 1];
      UnmatchedValid(front, consumed);
      forall i | 0 <= i < |Unmatched(front, consumed)|
        ensures Unmatched(front, consumed)[i].sourceIndex < ds[|ds| - 1].sourceIndex
        ensures Unmatched(front, consumed)[i].key != ds[|ds| - 1].key
      {
        var x := Unmatched(front, consumed)[i];
        assert x in front;
      }
    }
  }

  lemma {:induction false} LastDirective(ds: seq<Directive>, n: nat)
    requires 0 < n <= |ds| && ValidDirectives(ds)
    ensures n - 1 <= ds[n - 1].sourceIndex < MAX_DECISIONS
  {
    hide ValidKey, DirectiveShape;
    if n > 1 { LastDirective(ds, n - 1); }
  }

  /** Source indexes are distinct and bounded, so valid directives are not too many. */
  lemma DirectivesAreFew(ds: seq<Directive>)
    requires ValidDirectives(ds)
    ensures |ds| <= MAX_DECISIONS
  {
    hide ValidKey, DirectiveShape;
    if ds != [] { LastDirective(ds, |ds|); }
  }

  /**
   * THE ACCOUNT ADDS UP: the report of any run of a projector, failed or not, passes the validator
   * if and only if it counts no more fixed and no more additional choices than a tape may hold.
   */
  lemma ReportsAreValid(plan: Plan, choices: seq<Choice>)
    requires Sensible(plan.keyOf) && ValidDirectives(plan.directives)
    ensures var (selections, s) := Projected(plan, choices);
      ValidReport(ReportOf(plan, s), |selections|) <==> s.fixed <= MAX_DECISIONS && |s.additional| <= MAX_DECISIONS
  {
    hide ValidKey, DirectiveFor, Project;
    ProjectedIsAccounted(plan, choices);
    var s := Projected(plan, choices).1;
    UnmatchedCount(plan.directives, s.consumed);
    UnmatchedValid(plan.directives, s.consumed);
    DirectivesAreFew(plan.directives);
  }

  lemma {:induction false} UnmatchedExactly(ds: seq<Directive>, consumed: set<PortableKey>, d: Directive)
    ensures d in Unmatched(ds, consumed) <==> d in ds && d.key !in consumed
  {
    if ds != [] { UnmatchedExactly(ds[..|ds| - 1], consumed, d); }
  }

  /**
   * WHAT A REPORT SAYS, exactly: it failed if a choice did; otherwise it is exact if and only if
   * nothing was left to the fallback and every directive was used; it lists the unused directives,
   * each once, in the order of their source.
   */
  lemma ReportsExactly(plan: Plan, s: State)
    requires ValidDirectives(plan.directives)
    ensures var r := ReportOf(plan, s);
      && (r.fidelity.Failed? <==> s.failed.Some?)
      && (r.fidelity.Exact? <==> s.failed.None? && s.additional == {} && forall d | d in plan.directives :: d.key in s.consumed)
      && r.directives == |plan.directives| && r.projected == s.projected && r.fixed == s.fixed && r.additional == s.additional
      && ValidDirectives(r.unmatched) && forall d :: d in r.unmatched <==> d in plan.directives && d.key !in s.consumed
  {
    hide ValidKey, DirectiveShape;
    UnmatchedValid(plan.directives, s.consumed);
    forall d
      ensures d in Unmatched(plan.directives, s.consumed) <==> d in plan.directives && d.key !in s.consumed
    {
      UnmatchedExactly(plan.directives, s.consumed, d);
    }
    if Unmatched(plan.directives, s.consumed) != [] {
      var d := Unmatched(plan.directives, s.consumed)[0];
      assert d in Unmatched(plan.directives, s.consumed);
    }
  }

  /** So it passes whenever the recorded tape is within the limit itself. */
  lemma RecordedReportsAreValid(plan: Plan, choices: seq<Choice>)
    requires Sensible(plan.keyOf) && ValidDirectives(plan.directives) && |Projected(plan, choices).0| <= MAX_DECISIONS
    ensures var (selections, s) := Projected(plan, choices); ValidReport(ReportOf(plan, s), |selections|)
  {
    hide ValidReport, ReportOf, Project;
    ProjectedIsAccounted(plan, choices);
    ReportsAreValid(plan, choices);
  }

  /** A choice with one option, and a portable key of its own. */
  function OneOption(i: nat): Choice {
    Choice(seq(i + 1, _ => 'x'), NETWORK_LOSS, [WeightedOption("deliver", 1)], R.None, R.None, "")
  }

  function OneOptions(n: nat): (r: seq<Choice>)
    ensures |r| == n && forall i | 0 <= i < n :: r[i] == OneOption(i)
  {
    seq(n, i requires 0 <= i < n => OneOption(i))
  }

  function KeyByLength(c: Choice): R.Option<PortableKey> {
    if c.kind == NETWORK_LOSS && |c.id| > 0 then R.Some(PortableKey(NETWORK_LOSS, "", "a", "b", 1, |c.id|)) else R.None
  }

  lemma FixedStep(plan: Plan, s: State, n: nat)
    requires plan.keyOf == KeyByLength && n > 0 && s.failed.None? && forall k | k in s.seen :: 0 < k.occurrence < n
    ensures var k := PortableKey(NETWORK_LOSS, "", "a", "b", 1, n);
      Project(plan, s, OneOption(n - 1)) ==
        (Selected(Selection("deliver", R.None)), s.(seen := s.seen + {k}, fixed := s.fixed + 1))
  {
    var c := OneOption(n - 1);
    assert |c.id| == n && c.id != "" && PortableChoice(c);
    assert plan.keyOf(c) == KeyByLength(c) == R.Some(PortableKey(NETWORK_LOSS, "", "a", "b", 1, n));
  }

  lemma {:induction false} FixedRun(plan: Plan, n: nat)
    requires plan.directives == [] && plan.keyOf == KeyByLength
    ensures var (selections, s) := Projected(plan, OneOptions(n));
      && |selections| == n && s.fixed == n && s.failed.None?
      && forall k | k in s.seen :: 0 < k.occurrence <= n
  {
    if n > 0 {
      FixedRun(plan, n - 1);
      var choices := OneOptions(n);
      assert choices[..n - 1] == OneOptions(n - 1) && choices[n - 1] == OneOption(n - 1);
      FixedStep(plan, Projected(plan, choices[..n - 1]).1, n);
    }
  }

  /** A longer run of choices with one option each makes a report that the validator refuses. */
  lemma TooManyFixed(plan: Plan)
    requires plan.directives == [] && plan.keyOf == KeyByLength
    ensures var (selections, s) := Projected(plan, OneOptions(MAX_DECISIONS + 1));
      s.failed.None? && !ValidReport(ReportOf(plan, s), |selections|)
  {
    hide Project;
    FixedRun(plan, MAX_DECISIONS + 1);
  }

  // ----- the re-check -----

  /** A recorded choice and what was selected. */
  datatype Recorded = Recorded(choice: Choice, selection: Selection)

  function ChoicesOf(records: seq<Recorded>): seq<Choice> {
    seq(|records|, i requires 0 <= i < |records| => records[i].choice)
  }

  function SelectionsOf(records: seq<Recorded>): seq<Selection> {
    seq(|records|, i requires 0 <= i < |records| => records[i].selection)
  }

  /** A fresh projector selects for the recorded choices what was recorded, and accounts for them as reported. */
  predicate Rechecks(plan: Plan, records: seq<Recorded>, report: Report) {
    var (selections, s) := Projected(plan, ChoicesOf(records));
    && ValidDirectives(plan.directives)
    && s.failed.None? && selections == SelectionsOf(records)
    && report == ReportOf(plan, s).(fidelity := if report.fidelity.Failed? then Failed else ReportOf(plan, s).fidelity)
  }

  method VerifyProjection(plan: Plan, records: seq<Recorded>, report: Report) returns (ok: bool)
    ensures ok == Rechecks(plan, records, report)
  {
    if !ValidDirectives(plan.directives) { return false; }
    var projector := new Projector(plan);
    for i := 0 to |records|
      invariant fresh(projector) && projector.Valid() && projector.plan == plan
      invariant projector.failed.None?
      invariant Projected(plan, ChoicesOf(records)[..i]) == (SelectionsOf(records)[..i], projector.Value())
    {
      hide Project, ReportOf;
      assert ChoicesOf(records)[..i + 1][..i] == ChoicesOf(records)[..i];
      assert SelectionsOf(records)[..i + 1] == SelectionsOf(records)[..i] + [records[i].selection];
      ReplyKeepsGoing(plan, projector.Value(), records[i].choice);
      var reply := projector.Choose(records[i].choice);
      if reply.Rejected? || reply.selection != records[i].selection {
        if reply.Selected? {
          assert Projected(plan, ChoicesOf(records)[..i + 1]).0[i] == reply.selection;
        }
        MismatchStays(plan, records, i + 1);
        return false;
      }
    }
    assert ChoicesOf(records)[..|records|] == ChoicesOf(records) && SelectionsOf(records)[..|records|] == SelectionsOf(records);
    var want := projector.Finish();
    if report.fidelity.Failed? { want := want.(fidelity := Failed); }
    ok := want == report;
  }

  lemma ReplyKeepsGoing(plan: Plan, s: State, c: Choice)
    requires s.failed.None?
    ensures Project(plan, s, c).0.Selected? <==> Project(plan, s, c).1.failed.None?
  {
    hide PortableChoice, FixedSelection, DirectiveFor;
  }

  lemma {:induction false} FailureStays(plan: Plan, choices: seq<Choice>, i: nat)
    requires i <= |choices|
    ensures |Projected(plan, choices[..i]).0| <= i
    ensures Projected(plan, choices[..i]).0 <= Projected(plan, choices).0
    ensures Projected(plan, choices[..i]).1.failed.Some? ==> Projected(plan, choices).1.failed.Some?
    decreases |choices|
  {
    hide PortableChoice, FixedSelection, DirectiveFor;
    if i < |choices| {
      assert choices[..|choices| - 1][..i] == choices[..i];
      FailureStays(plan, choices[..|choices| - 1], i);
    } else {
      assert choices[..i] == choices;
      ProjectedPrefix(plan, choices);
    }
  }

  /** A record that does not match is never made good by later ones. */
  lemma MismatchStays(plan: Plan, records: seq<Recorded>, i: nat)
    requires i <= |records|
    requires Projected(plan, ChoicesOf(records)[..i]).1.failed.Some?
          || Projected(plan, ChoicesOf(records)[..i]).0 != SelectionsOf(records)[..i]
    ensures Projected(plan, ChoicesOf(records)).1.failed.Some? || Projected(plan, ChoicesOf(records)).0 != SelectionsOf(records)
  {
    hide Project;
    FailureStays(plan, ChoicesOf(records), i);
    ProjectedPrefix(plan, ChoicesOf(records)[..i]);
  }

  /**
   * THE RE-CHECK, exactly: it accepts a record and a report if and only if some run of a projector
   * with this valid plan made that record and that report, whether or not it failed in the end.
   */
  lemma RechecksExactly(plan: Plan, records: seq<Recorded>, report: Report)
    ensures Rechecks(plan, records, report) <==>
      ValidDirectives(plan.directives) && exists choices :: Made(plan, choices, records, report)
  {
    hide Project, ReportOf, ValidDirectives;
    if Rechecks(plan, records, report) {
      var choices := ChoicesOf(records);
      if report.fidelity.Failed? {
        var bad := Choice("", "", [], R.None, R.None, "");
        assert (choices + [bad])[..|choices|] == choices;
        BadChoiceFails(plan, Projected(plan, choices).1, bad);
        assert Made(plan, choices + [bad], records, report);
      } else {
        assert choices[..|choices|] == choices;
        assert Made(plan, choices, records, report);
      }
    }
    if exists choices :: Made(plan, choices, records, report) {
      var choices :| Made(plan, choices, records, report);
      ProjectedPrefix(plan, choices);
      FidelityKept(plan, Projected(plan, choices).1);
      assert |SelectionsOf(records)| == |records|;
      assert choices[..|choices|] == choices;
    }
  }

  /** A run over these choices selected what is recorded, for the recorded choices, and reported this. */
  ghost predicate Made(plan: Plan, choices: seq<Choice>, records: seq<Recorded>, report: Report) {
    var (selections, s) := Projected(plan, choices);
    && |records| <= |choices| && ChoicesOf(records) == choices[..|records|]
    && SelectionsOf(records) == selections
    && report == ReportOf(plan, s)
  }

  lemma FidelityKept(plan: Plan, s: State)
    ensures ReportOf(plan, s).fidelity.Failed? <==> s.failed.Some?
  {
  }

  lemma BadChoiceFails(plan: Plan, s: State, c: Choice)
    requires s.failed.None? && c.id == ""
    ensures Project(plan, s, c).0.Rejected? && Project(plan, s, c).1.failed.Some?
    ensures ReportOf(plan, Project(plan, s, c).1) == ReportOf(plan, s).(fidelity := Failed)
  {
  }

  // ----- directives of a tape -----

  /** The variable choices of a tape, each with its position; None for a tape that cannot be projected. */
  function Directives(keyOf: Keying, tape: seq<Entry>): R.Option<(seq<Directive>, set<PortableKey>)> {
    if tape == [] then R.Some(([], {}))
    else
      match Directives(keyOf, tape[..|tape| - 1])
      case None => R.None
      case Some((ds, seen)) =>
        var c := tape[|tape| - 1].choice;
        if !PortableChoice(c) || keyOf(c).None? || keyOf(c).value in seen then R.None
        else
          var k := keyOf(c).value;
          R.Some((if FixedSelection(c).Some? then ds else ds + [Directive(k, |tape| - 1, tape[|tape| - 1].selection)], seen + {k}))
  }

  method DirectivesFromTape(keyOf: Keying, tape: seq<Entry>) returns (r: R.Option<seq<Directive>>)
    requires Sensible(keyOf) && |tape| <= MAX_DECISIONS
    ensures r.Some? <==> ValidTape(tape) && Directives(keyOf, tape).Some?
    ensures r.Some? ==> r.value == Directives(keyOf, tape).value.0 && ValidDirectives(r.value)
  {
    hide PortableChoice, FixedSelection, ValidEntry;
    if !ValidTape(tape) { return R.None; }
    var ds, seen := [], {};
    for i := 0 to |tape|
      invariant Directives(keyOf, tape[..i]) == R.Some((ds, seen))
    {
      assert tape[..i + 1][..i] == tape[..i];
      var c := tape[i].choice;
      if !PortableChoice(c) || keyOf(c).None? || keyOf(c).value in seen {
        NoDirectives(keyOf, tape, i + 1);
        return R.None;
      }
      if FixedSelection(c).None? { ds := ds + [Directive(keyOf(c).value, i, tape[i].selection)]; }
      seen := seen + {keyOf(c).value};
    }
    assert tape[..|tape|] == tape;
    DirectivesAreValid(keyOf, tape);
    r := R.Some(ds);
  }

  lemma {:induction false} NoDirectives(keyOf: Keying, tape: seq<Entry>, i: nat)
    requires i <= |tape| && Directives(keyOf, tape[..i]).None?
    ensures Directives(keyOf, tape).None?
    decreases |tape|
  {
    if i < |tape| {
      assert tape[..|tape| - 1][..i] == tape[..i];
      NoDirectives(keyOf, tape[..|tape| - 1], i);
    } else {
      assert tape[..i] == tape;
    }
  }

  /** Directives of a valid tape pass the validator; the final check of the extraction never fails. */
  lemma {:induction false} DirectivesAreValid(keyOf: Keying, tape: seq<Entry>)
    requires Sensible(keyOf) && ValidTape(tape) && Directives(keyOf, tape).Some? && |tape| <= MAX_DECISIONS
    ensures var (ds, seen) := Directives(keyOf, tape).value;
      && ValidDirectives(ds)
      && forall i | 0 <= i < |ds| :: ds[i].sourceIndex < |tape| && ds[i].key in seen
  {
    if tape != [] {
      var front, last := tape[..|tape| - 1], tape[|tape| - 1];
      forall i | 0 <= i < |front|
        ensures ValidEntry(front[i])
      {
        assert front[i] == tape[i];
      }
      DirectivesAreValid(keyOf, front);
      assert ValidEntry(last);
      ShapeOfSelection(last, keyOf(last.choice).value, |tape| - 1);
    }
  }

  lemma ShapeOfSelection(e: Entry, k: PortableKey, i: nat)
    requires ValidEntry(e) && PortableChoice(e.choice) && k.kind == e.choice.kind
    ensures DirectiveShape(Directive(k, i, e.selection))
  {
  }

  /** Every choice of the tape projects, under a key of its own. */
  ghost predicate Extractable(keyOf: Keying, tape: seq<Entry>) {
    && (forall i | 0 <= i < |tape| :: Projects(tape[i].choice) && keyOf(tape[i].choice).Some?)
    && forall i, j | 0 <= i < j < |tape| :: keyOf(tape[i].choice) != keyOf(tape[j].choice)
  }

  /** The positions of the choices that leave something to choose. */
  function Open(tape: seq<Entry>): seq<nat> {
    if tape == [] then []
    else
      var c := tape[|tape| - 1].choice;
      Open(tape[..|tape| - 1]) + if Varies(c) then [|tape| - 1] else []
  }

  /** One directive for each choice that leaves something to choose, in order, with its key, its position and its selection; and all keys. */
  ghost predicate ExtractedFrom(keyOf: Keying, tape: seq<Entry>, ds: seq<Directive>, seen: set<PortableKey>) {
    && (forall k :: k in seen <==> exists i :: 0 <= i < |tape| && keyOf(tape[i].choice) == R.Some(k))
    && |ds| == |Open(tape)|
    && forall i | 0 <= i < |ds| ::
         && Open(tape)[i] < |tape|
         && keyOf(tape[Open(tape)[i]].choice) == R.Some(ds[i].key)
         && ds[i].sourceIndex == Open(tape)[i] && ds[i].selection == tape[Open(tape)[i]].selection
  }

  lemma ExtractsOneMore(keyOf: Keying, front: seq<Entry>, last: Entry, ds: seq<Directive>, seen: set<PortableKey>, k: PortableKey)
    requires ExtractedFrom(keyOf, front, ds, seen) && keyOf(last.choice) == R.Some(k)
    ensures ExtractedFrom(keyOf, front + [last], ds + if Varies(last.choice) then [Directive(k, |front|, last.selection)] else [], seen + {k})
  {
    hide Varies;
    var all := front + [last];
    assert all[..|front|] == front && all[|front|] == last;
    assert forall i | 0 <= i < |front| :: all[i] == front[i];
    forall x
      ensures x in seen + {k} <==> exists i :: 0 <= i < |all| && keyOf(all[i].choice) == R.Some(x)
    {
      if x in seen {
        var i :| 0 <= i < |front| && keyOf(front[i].choice) == R.Some(x);
        assert keyOf(all[i].choice) == R.Some(x);
      } else if x == k {
        assert keyOf(all[|front|].choice) == R.Some(x);
      }
    }
  }

  /**
   * WHAT IS EXTRACTED, exactly: a tape gives directives if and only if all its choices project under
   * keys of their own; they are one for each choice that leaves something to choose, in order, with
   * its key, its position and its selection.
   */
  lemma {:induction false} ExtractsExactly(keyOf: Keying, tape: seq<Entry>)
    ensures Directives(keyOf, tape).Some? <==> Extractable(keyOf, tape)
    ensures Directives(keyOf, tape).Some? ==>
      ExtractedFrom(keyOf, tape, Directives(keyOf, tape).value.0, Directives(keyOf, tape).value.1)
  {
    hide PortableChoice, FixedSelection, Projects, Varies, Extractable, ExtractedFrom;
    if tape == [] {
      NothingToExtract(keyOf);
    } else {
      var front, last := tape[..|tape| - 1], tape[|tape| - 1];
      assert tape == front + [last];
      ExtractsExactly(keyOf, front);
      ProjectsExactly(last.choice);
      ExtractableStep(keyOf, front, last);
      if Directives(keyOf, front).Some? && keyOf(last.choice).Some? {
        var (ds, seen) := Directives(keyOf, front).value;
        KeysSeen(keyOf, front, ds, seen, keyOf(last.choice).value);
        ExtractsOneMore(keyOf, front, last, ds, seen, keyOf(last.choice).value);
        assert ds + [] == ds;
        if Projects(last.choice) { FixedExactly(last.choice); }
      }
    }
  }

  lemma KeysSeen(keyOf: Keying, tape: seq<Entry>, ds: seq<Directive>, seen: set<PortableKey>, k: PortableKey)
    requires ExtractedFrom(keyOf, tape, ds, seen)
    ensures k in seen <==> exists i :: 0 <= i < |tape| && keyOf(tape[i].choice) == R.Some(k)
  {
  }

  lemma NothingToExtract(keyOf: Keying)
    ensures Extractable(keyOf, []) && ExtractedFrom(keyOf, [], [], {})
  {
  }

  lemma ExtractableStep(keyOf: Keying, front: seq<Entry>, last: Entry)
    ensures Extractable(keyOf, front + [last]) <==>
      && Extractable(keyOf, front) && Projects(last.choice) && keyOf(last.choice).Some?
      && forall i | 0 <= i < |front| :: keyOf(front[i].choice) != keyOf(last.choice)
  {
    hide Projects;
    var all := front + [last];
    assert all[|front|] == last && forall i | 0 <= i < |front| :: all[i] == front[i];
    if Extractable(keyOf, all) {
      forall i | 0 <= i < |front|
        ensures Projects(front[i].choice) && keyOf(front[i].choice).Some? && keyOf(front[i].choice) != keyOf(last.choice)
      {
        assert Projects(all[i].choice) && keyOf(all[i].choice) != keyOf(all[|front|].choice);
      }
      forall i, j | 0 <= i < j < |front|
        ensures keyOf(front[i].choice) != keyOf(front[j].choice)
      {
        assert keyOf(all[i].choice) != keyOf(all[j].choice);
      }
    }
  }

  function ChoicesIn(tape: seq<Entry>): seq<Choice> {
    seq(|tape|, i requires 0 <= i < |tape| => tape[i].choice)
  }

  function SelectionsIn(tape: seq<Entry>): seq<Selection> {
    seq(|tape|, i requires 0 <= i < |tape| => tape[i].selection)
  }

  lemma FixedIsForced(e: Entry)
    requires ValidEntry(e) && FixedSelection(e.choice).Some?
    ensures FixedSelection(e.choice).value == e.selection
  {
  }

  /** A directive is found by its key among all of a tape's. */
  lemma {:induction false} DirectiveOf(keyOf: Keying, tape: seq<Entry>, i: nat)
    requires Directives(keyOf, tape).Some? && i < |tape|
    ensures var (ds, seen) := Directives(keyOf, tape).value;
      var c := tape[i].choice;
      && PortableChoice(c) && keyOf(c).Some? && keyOf(c).value in seen
      && DirectiveFor(ds, keyOf(c).value) ==
         if FixedSelection(c).Some? then R.None else R.Some(Directive(keyOf(c).value, i, tape[i].selection))
  {
    hide PortableChoice, FixedSelection;
    var front := tape[..|tape| - 1];
    var (ds, seen) := Directives(keyOf, front).value;
    if i < |tape| - 1 {
      assert front[i] == tape[i];
      DirectiveOf(keyOf, front, i);
    } else {
      UnseenHasNone(keyOf, front, keyOf(tape[i].choice).value);
    }
    var all := Directives(keyOf, tape).value.0;
    if all != ds { assert all[..|all| - 1] == ds; }
  }

  lemma {:induction false} UnseenHasNone(keyOf: Keying, tape: seq<Entry>, k: PortableKey)
    requires Directives(keyOf, tape).Some? && k !in Directives(keyOf, tape).value.1
    ensures DirectiveFor(Directives(keyOf, tape).value.0, k).None?
  {
    hide PortableChoice, FixedSelection;
    if tape != [] {
      UnseenHasNone(keyOf, tape[..|tape| - 1], k);
      var ds, all := Directives(keyOf, tape[..|tape| - 1]).value.0, Directives(keyOf, tape).value.0;
      if all != ds { assert all[..|all| - 1] == ds; }
    }
  }

  /** What a projector with a tape's own directives has done after its first n choices. */
  ghost predicate InStep(plan: Plan, tape: seq<Entry>, n: nat)
    requires n <= |tape| && Directives(plan.keyOf, tape[..n]).Some?
  {
    var (selections, s) := Projected(plan, ChoicesIn(tape)[..n]);
    var (ds, seen) := Directives(plan.keyOf, tape[..n]).value;
    && selections == SelectionsIn(tape)[..n]
    && s.failed.None? && s.additional == {} && s.seen == seen
    && s.consumed == set i | 0 <= i < |ds| :: ds[i].key
  }

  lemma DirectivesOfPrefix(keyOf: Keying, tape: seq<Entry>, n: nat)
    requires n <= |tape| && Directives(keyOf, tape).Some?
    ensures Directives(keyOf, tape[..n]).Some?
  {
    if Directives(keyOf, tape[..n]).None? { NoDirectives(keyOf, tape, n); }
  }

  lemma {:induction false} StaysInStep(plan: Plan, tape: seq<Entry>, n: nat)
    requires n <= |tape| && ValidTape(tape) && Directives(plan.keyOf, tape).Some?
    requires plan.directives == Directives(plan.keyOf, tape).value.0
    requires Directives(plan.keyOf, tape[..n]).Some?
    ensures InStep(plan, tape, n)
  {
    hide PortableChoice, FixedSelection, DirectiveFor, ValidEntry;
    if n == 0 {
      assert tape[..0] == [] && ChoicesIn(tape)[..0] == [] && SelectionsIn(tape)[..0] == [];
    } else {
      DirectivesOfPrefix(plan.keyOf, tape, n - 1);
      StaysInStep(plan, tape, n - 1);
      assert tape[..n][..n - 1] == tape[..n - 1] && ChoicesIn(tape)[..n][..n - 1] == ChoicesIn(tape)[..n - 1];
      assert SelectionsIn(tape)[..n] == SelectionsIn(tape)[..n - 1] + [tape[n - 1].selection];
      DirectiveOf(plan.keyOf, tape, n - 1);
      NextInStep(plan, tape, n);
    }
  }

  lemma NextInStep(plan: Plan, tape: seq<Entry>, n: nat)
    requires 0 < n <= |tape| && ValidTape(tape)
    requires Directives(plan.keyOf, tape[..n - 1]).Some? && Directives(plan.keyOf, tape[..n]).Some?
    requires tape[..n][..n - 1] == tape[..n - 1] && ChoicesIn(tape)[..n][..n - 1] == ChoicesIn(tape)[..n - 1]
    requires SelectionsIn(tape)[..n] == SelectionsIn(tape)[..n - 1] + [tape[n - 1].selection]
    requires InStep(plan, tape, n - 1)
    requires var c := tape[n - 1].choice;
      && plan.keyOf(c).Some?
      && DirectiveFor(plan.directives, plan.keyOf(c).value) ==
         if FixedSelection(c).Some? then R.None else R.Some(Directive(plan.keyOf(c).value, n - 1, tape[n - 1].selection))
    ensures InStep(plan, tape, n)
  {
    hide PortableChoice, DirectiveFor, FixedSelection, ValidSelection, ValidChoice;
    var e := tape[n - 1];
    assert ValidEntry(e);
    if FixedSelection(e.choice).Some? { FixedIsForced(e); }
    var (ds, seen) := Directives(plan.keyOf, tape[..n - 1]).value;
    var (all, seen') := Directives(plan.keyOf, tape[..n]).value;
    assert tape[..n][n - 1] == e && ChoicesIn(tape)[..n][n - 1] == e.choice;
    var k := plan.keyOf(e.choice).value;
    if all != ds {
      assert (set i | 0 <= i < |all| :: all[i].key) == (set i | 0 <= i < |ds| :: ds[i].key) + {k} by {
        assert all[|ds|].key == k;
        assert forall i | 0 <= i < |ds| :: all[i] == ds[i];
      }
    }
  }

  lemma WholeTape(tape: seq<Entry>)
    ensures |ChoicesIn(tape)| == |SelectionsIn(tape)| == |tape|
    ensures tape[..|tape|] == tape && ChoicesIn(tape)[..|tape|] == ChoicesIn(tape) && SelectionsIn(tape)[..|tape|] == SelectionsIn(tape)
  {
  }

  /** PROJECTION ROUND TRIP: a tape's own directives, projected onto its choices, reproduce it exactly. */
  lemma ProjectionRoundTrip(plan: Plan, tape: seq<Entry>)
    requires Sensible(plan.keyOf) && ValidTape(tape) && |tape| <= MAX_DECISIONS
    requires Directives(plan.keyOf, tape).Some? && plan.directives == Directives(plan.keyOf, tape).value.0
    ensures var (selections, s) := Projected(plan, ChoicesIn(tape));
      && selections == SelectionsIn(tape)
      && ReportOf(plan, s).fidelity.Exact?
      && s.projected == |plan.directives| && s.fixed == |tape| - |plan.directives|
  {
    hide Project, DirectiveFor, PortableChoice, FixedSelection, ValidEntry, Directives, ChoicesIn, SelectionsIn, Unmatched;
    WholeTape(tape);
    StaysInStep(plan, tape, |tape|);
    ProjectedIsAccounted(plan, ChoicesIn(tape));
    DirectivesAreValid(plan.keyOf, tape);
    var s := Projected(plan, ChoicesIn(tape)).1;
    UnmatchedCount(plan.directives, s.consumed);
    AllConsumed(plan.directives, s.consumed);
  }

  lemma {:induction false} AllConsumed(ds: seq<Directive>, consumed: set<PortableKey>)
    requires forall i | 0 <= i < |ds| :: ds[i].key in consumed
    ensures Unmatched(ds, consumed) == []
  {
    if ds != [] { AllConsumed(ds[..|ds| - 1], consumed); }
  }
}

/**
 * Semantic decisions (decision/decision.go, decision/control.go): choices, tapes, and why a tape
 * recorded from any run of a deterministic program replays that run.  A digest is the canonical
 * value that it is the digest of, and contexts are taken to be compact already.
 */
module Decision {
  import R = RaftTypes
  import Rand

  datatype WeightedOption = WeightedOption(id: string, weight: nat)

  /** A discrete domain of options, or an inclusive range. */
  datatype Choice = Choice(
    id: string,
    kind: string,
    options: seq<WeightedOption>,
    min: R.Option<int>,
    max: R.Option<int>,
    context: string)

  datatype Selection = Selection(option: string, number: R.Option<int>)

  datatype Domain = Domain(kind: string, options: seq<WeightedOption>, min: R.Option<int>, max: R.Option<int>)

  datatype Entry = Entry(choice: Choice, domainDigest: Domain, contextDigest: string, selection: Selection)

  datatype Error = InvalidChoice | TapeExhausted | TapeMismatch | TapeNotConsumed

  datatype Answer = Chosen(selection: Selection) | Failure(error: Error)

  // ----- domains -----

  predicate DistinctOptions(options: seq<WeightedOption>) {
    forall i, j | 0 <= i < j < |options| :: options[i].id != options[j].id
  }

  predicate ValidChoice(c: Choice) {
    var hasRange := c.min.Some? || c.max.Some?;
    && c.id != "" && c.kind != ""
    && (|c.options| > 0) != hasRange
    && (hasRange ==> c.min.Some? && c.max.Some? && 0 <= c.min.value <= c.max.value)
    && (forall i | 0 <= i < |c.options| :: c.options[i].id != "" && c.options[i].weight > 0)
    && DistinctOptions(c.options)
  }

  predicate ValidSelection(c: Choice, s: Selection)
    requires ValidChoice(c)
  {
    if |c.options| > 0 then
      s.number.None? && s.option != "" && exists i | 0 <= i < |c.options| :: c.options[i].id == s.option
    else
      s.number.Some? && s.option == "" && c.min.value <= s.number.value <= c.max.value
  }

  function CanonicalDomain(c: Choice): Domain {
    Domain(c.kind, c.options, c.min, c.max)
  }

  function CanonicalContext(c: Choice): string {
    if c.context == "" then "null" else c.context
  }

  function NewEntry(c: Choice, s: Selection): R.Option<Entry> {
    if ValidChoice(c) && ValidSelection(c, s)
    then R.Some(Entry(c, CanonicalDomain(c), CanonicalContext(c), s))
    else R.None
  }

  /** What building a tape decider checks of every entry. */
  predicate ValidEntry(e: Entry) {
    && ValidChoice(e.choice)
    && CanonicalDomain(e.choice) == e.domainDigest
    && CanonicalContext(e.choice) == e.contextDigest
    && ValidSelection(e.choice, e.selection)
  }

  predicate ValidTape(tape: seq<Entry>) {
    forall i {:trigger tape[i]} | 0 <= i < |tape| :: ValidEntry(tape[i])
  }

  /** The presented choice is the recorded one: identity, kind, domain and context. */
  predicate Matches(e: Entry, c: Choice) {
    && e.choice.id == c.id && e.choice.kind == c.kind
    && CanonicalDomain(e.choice) == CanonicalDomain(c)
    && CanonicalContext(e.choice) == CanonicalContext(c)
    && e.domainDigest == CanonicalDomain(c)
    && e.contextDigest == CanonicalContext(c)
  }

  function ReplayChoose(tape: seq<Entry>, index: nat, c: Choice): Answer {
    if index >= |tape| then Failure(TapeExhausted)
    else if !ValidChoice(c) then Failure(InvalidChoice)
    else if !Matches(tape[index], c) || !ValidSelection(c, tape[index].selection) then Failure(TapeMismatch)
    else Chosen(tape[index].selection)
  }

  // ----- programs -----

  /** What a deterministic program does next, given the selections so far: end, or ask. */
  datatype Next<Out> = Done(outcome: Out) | Ask(choice: Choice)

  type Program<!Out> = seq<Selection> -> Next<Out>

  /** Any source of answers; it may depend on everything chosen before. */
  type Decider = (seq<Selection>, Choice) -> Answer

  datatype Status<Out> = Running | Completed(outcome: Out) | Stopped(error: Error)

  datatype Run<Out> = Run(history: seq<Selection>, status: Status<Out>)

  function Ask1<Out>(r: Run<Out>, answer: Answer): Run<Out> {
    match answer
    case Failure(error) => r.(status := Stopped(error))
    case Chosen(s) => r.(history := r.history + [s])
  }

  /** At most n steps of a program against a recorder around any decider, with the recorded tape. */
  function Record<Out>(program: Program<Out>, base: Decider, n: nat): (Run<Out>, seq<Entry>) {
    if n == 0 then (Run([], Running), [])
    else
      var (r, tape) := Record(program, base, n - 1);
      if !r.status.Running? then (r, tape)
      else
        match program(r.history)
        case Done(out) => (r.(status := Completed(out)), tape)
        case Ask(c) =>
          match base(r.history, c)
          case Failure(error) => (r.(status := Stopped(error)), tape)
          case Chosen(s) =>
            match NewEntry(c, s)
            case None => (r.(status := Stopped(InvalidChoice)), tape)
            case Some(e) => (r.(history := r.history + [s]), tape + [e])
  }

  /** At most n steps of a program against a tape; the tape's index is the number of answers given. */
  function Replay<Out>(program: Program<Out>, tape: seq<Entry>, n: nat): Run<Out> {
    if n == 0 then Run([], Running)
    else
      var r := Replay(program, tape, n - 1);
      if !r.status.Running? then r
      else
        match program(r.history)
        case Done(out) => r.(status := Completed(out))
        case Ask(c) => Ask1(r, ReplayChoose(tape, |r.history|, c))
  }

  // ----- record and replay -----

  lemma {:induction false} RecordingGrows<Out>(program: Program<Out>, base: Decider, m: nat, n: nat)
    requires m <= n
    ensures Record(program, base, m).1 <= Record(program, base, n).1
    ensures !Record(program, base, m).0.status.Running? ==> Record(program, base, n) == Record(program, base, m)
  {
    if m < n {
      RecordingGrows(program, base, m, n - 1);
    }
  }

  /** A recording has one valid entry for every answer. */
  lemma {:induction false} RecordingIsValid<Out>(program: Program<Out>, base: Decider, n: nat)
    ensures var (r, tape) := Record(program, base, n);
      ValidTape(tape) && |tape| == |r.history| && forall i | 0 <= i < |tape| :: tape[i].selection == r.history[i]
  {
    if n > 0 {
      RecordingIsValid(program, base, n - 1);
    }
  }

  lemma NewEntryReplays(c: Choice, s: Selection, tape: seq<Entry>, i: nat)
    requires i < |tape| && NewEntry(c, s) == R.Some(tape[i])
    ensures ReplayChoose(tape, i, c) == Chosen(s)
  {
  }

  /** The m-th step of a recording, and what it added to the tape that n steps left. */
  lemma RecordingStep<Out>(program: Program<Out>, base: Decider, m: nat, n: nat)
    requires 0 < m <= n
    ensures var (before, partial) := Record(program, base, m - 1);
      var (after, tape) := (Record(program, base, m).0, Record(program, base, n).1);
      && |partial| == |before.history|
      && (before.status.Running? && program(before.history).Ask? ==>
           var c := program(before.history).choice;
           if after.status.Running? then
             |partial| < |tape| && after.history == before.history + [after.history[|before.history|]]
             && NewEntry(c, after.history[|before.history|]) == R.Some(tape[|partial|])
           else after.status.Stopped? && after.history == before.history && tape == partial)
  {
    hide NewEntry;
    RecordingIsValid(program, base, m - 1);
    RecordingGrows(program, base, m, n);
    var (before, partial) := Record(program, base, m - 1);
    var (after, longer) := Record(program, base, m);
    if before.status.Running? && program(before.history).Ask? && after.status.Running? {
      assert longer[|partial|] == Record(program, base, n).1[|partial|];
    }
  }

  /** Replaying what an n-step recording left retraces each of its steps. */
  lemma {:induction false} ReplayFollows<Out>(program: Program<Out>, base: Decider, m: nat, n: nat)
    requires m <= n
    ensures var (r, tape) := Record(program, base, n);
      var was := Record(program, base, m).0;
      var again := Replay(program, tape, m);
      && again.history == was.history
      && (!was.status.Stopped? ==> again.status == was.status)
      && (was.status.Stopped? ==> again.status == Stopped(TapeExhausted))
  {
    hide NewEntry, ReplayChoose;
    if m > 0 {
      ReplayFollows(program, base, m - 1, n);
      RecordingStep(program, base, m, n);
      var before, tape := Record(program, base, m - 1).0, Record(program, base, n).1;
      if before.status.Running? && program(before.history).Ask? {
        var c := program(before.history).choice;
        if Record(program, base, m).0.status.Running? {
          var s := Record(program, base, m).0.history[|before.history|];
          NewEntryReplays(c, s, tape, |before.history|);
        } else {
          NothingLeft(tape, c);
        }
      }
    }
  }

  lemma NothingLeft(tape: seq<Entry>, c: Choice)
    ensures ReplayChoose(tape, |tape|, c) == Failure(TapeExhausted)
  {
  }

  /**
   * RECORD AND REPLAY: replaying a recorded tape gives the same selections and, if the run ended,
   * the same outcome with every entry consumed.
   */
  lemma ReplayReproduces<Out>(program: Program<Out>, base: Decider, n: nat)
    ensures var (r, tape) := Record(program, base, n);
      var again := Replay(program, tape, n);
      && again.history == r.history && |again.history| == |tape|
      && (r.status.Completed? ==> again == r)
  {
    ReplayFollows(program, base, n, n);
    RecordingIsValid(program, base, n);
  }

  /** A replay never answers a choice but with the entry that recorded that very choice. */
  lemma {:induction false} ReplayImpliesMatch<Out>(program: Program<Out>, tape: seq<Entry>, n: nat, i: nat)
    requires i < |Replay(program, tape, n).history|
    ensures i < |tape|
    ensures var h := Replay(program, tape, n).history;
      && h[i] == tape[i].selection
      && program(h[..i]).Ask?
      && ValidChoice(program(h[..i]).choice)
      && Matches(tape[i], program(h[..i]).choice)
      && ValidSelection(program(h[..i]).choice, h[i])
  {
    var r := Replay(program, tape, n - 1);
    if i < |r.history| {
      ReplayImpliesMatch(program, tape, n - 1, i);
      var h := Replay(program, tape, n).history;
      assert h[..i] == r.history[..i];
    } else {
      assert Replay(program, tape, n).history[..i] == r.history;
    }
  }

  /** Two choices present the same: identity, kind, options with their weights, range, and context. */
  predicate SamePresented(c: Choice, d: Choice) {
    && c.id == d.id && c.kind == d.kind && c.options == d.options && c.min == d.min && c.max == d.max
    && (c.context == d.context || (c.context in {"", "null"} && d.context in {"", "null"}))
  }

  /** In the domain of a choice: one of its options, or a number within its range. */
  ghost predicate InDomain(c: Choice, s: Selection) {
    || (c.options != [] && s.number.None? && exists i :: 0 <= i < |c.options| && c.options[i].id == s.option)
    || (c.options == [] && s.option == "" && s.number.Some? && c.min.Some? && c.max.Some? && c.min.value <= s.number.value <= c.max.value)
  }

  /**
   * A TAPE ANSWERS ONLY ITS OWN CHOICES, exactly: a valid tape answers a valid choice if and only if
   * the entry that is due recorded the same choice, and then with what is recorded, which is in the
   * choice's domain.
   */
  lemma AnswersOwnChoices(tape: seq<Entry>, index: nat, c: Choice)
    requires ValidTape(tape) && ValidChoice(c)
    ensures var r := ReplayChoose(tape, index, c);
      && (r.Chosen? <==> index < |tape| && SamePresented(tape[index].choice, c))
      && (r.Chosen? ==> r.selection == tape[index].selection && InDomain(c, r.selection))
      && (r.Failure? ==> r.error == if index >= |tape| then TapeExhausted else TapeMismatch)
  {
    if index < |tape| {
      assert ValidEntry(tape[index]);
    }
  }

  // ----- the deciders -----

  class Recorder {
    var entries: seq<Entry>
    var error: R.Option<Error>

    constructor ()
      ensures entries == [] && error == R.None
    {
      entries, error := [], R.None;
    }

    /** Records the base decider's answer to a choice; the first error is kept and repeated. */
    method Choose(c: Choice, answer: Answer) returns (r: Answer)
      modifies this
      ensures old(error).Some? ==> r == Failure(old(error).value) && entries == old(entries) && error == old(error)
      ensures old(error).None? ==>
        match answer
        case Failure(e) => r == answer && error == R.Some(e) && entries == old(entries)
        case Chosen(s) =>
          match NewEntry(c, s)
          case None => r == Failure(InvalidChoice) && error == R.Some(InvalidChoice) && entries == old(entries)
          case Some(e) => r == answer && error == R.None && entries == old(entries) + [e]
    {
      if error.Some? {
        return Failure(error.value);
      }
      if answer.Failure? {
        error := R.Some(answer.error);
        return answer;
      }
      var entry := NewEntry(c, answer.selection);
      if entry.None? {
        error := R.Some(InvalidChoice);
        return Failure(InvalidChoice);
      }
      entries := entries + [entry.value];
      r := answer;
    }
  }

  class TapeDecider {
    const tape: seq<Entry>
    var index: nat

    constructor (tape: seq<Entry>)
      requires ValidTape(tape)
      ensures this.tape == tape && index == 0
    {
      this.tape := tape;
      index := 0;
    }

    method Choose(c: Choice) returns (r: Answer)
      modifies this
      ensures r == ReplayChoose(tape, old(index), c)
      ensures index == if r.Chosen? then old(index) + 1 else old(index)
    {
      if index >= |tape| {
        return Failure(TapeExhausted);
      }
      if !ValidChoice(c) {
        return Failure(InvalidChoice);
      }
      var entry := tape[index];
      if !Matches(entry, c) || !ValidSelection(c, entry.selection) {
        return Failure(TapeMismatch);
      }
      index := index + 1;
      r := Chosen(entry.selection);
    }

    method Finish() returns (error: R.Option<Error>)
      ensures error == if index == |tape| then R.None else R.Some(TapeNotConsumed)
    {
      return if index != |tape| then R.Some(TapeNotConsumed) else R.None;
    }
  }

  /** A run of the program with a recorder around its decider. */
  method RecordRun<Out>(program: Program<Out>, base: Decider, n: nat) returns (selections: seq<Selection>, tape: seq<Entry>)
    ensures selections == Record(program, base, n).0.history && tape == Record(program, base, n).1
  {
    var recorder := new Recorder();
    selections := [];
    var running := true;
    for i := 0 to n
      invariant fresh(recorder)
      invariant recorder.entries == Record(program, base, i).1 && selections == Record(program, base, i).0.history
      invariant running == Record(program, base, i).0.status.Running?
      invariant running ==> recorder.error.None?
    {
      if running {
        match program(selections) {
          case Done(_) => running := false;
          case Ask(c) =>
            var r := recorder.Choose(c, base(selections, c));
            if r.Chosen? { selections := selections + [r.selection]; } else { running := false; }
        }
      }
    }
    tape := recorder.entries;
  }

  /** A run of the program that takes its selections from a tape. */
  method ReplayRun<Out>(program: Program<Out>, tape: seq<Entry>, n: nat) returns (selections: seq<Selection>, leftover: R.Option<Error>)
    requires ValidTape(tape)
    ensures selections == Replay(program, tape, n).history
    ensures leftover == if |selections| == |tape| then R.None else R.Some(TapeNotConsumed)
  {
    hide ReplayChoose, ValidTape;
    var replay := new TapeDecider(tape);
    selections := [];
    var running := true;
    for i := 0 to n
      invariant fresh(replay) && replay.tape == tape
      invariant selections == Replay(program, tape, i).history && replay.index == |selections|
      invariant running == Replay(program, tape, i).status.Running?
    {
      if running {
        match program(selections) {
          case Done(_) => running := false;
          case Ask(c) =>
            var r := replay.Choose(c);
            if r.Chosen? { selections := selections + [r.selection]; } else { running := false; }
        }
      }
    }
    leftover := replay.Finish();
  }

  /** A run recorded and then replayed by the decider objects: the same selections, and nothing left over. */
  method RecordThenReplay<Out>(program: Program<Out>, base: Decider, n: nat) returns (first: seq<Selection>, second: seq<Selection>)
    ensures second == first == Record(program, base, n).0.history
  {
    var tape, leftover;
    first, tape := RecordRun(program, base, n);
    RecordingIsValid(program, base, n);
    second, leftover := ReplayRun(program, tape, n);
    ReplayReproduces(program, base, n);
    assert leftover.None?;
  }
}

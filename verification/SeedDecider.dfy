/** Seeded answers to choices (decision/decision.go): each option gets exactly its weight. */
module SeedDecider {
  import R = RaftTypes
  import opened Rand
  import opened Decision

  /** The sum of the weights before option i. */
  function WeightBefore(options: seq<WeightedOption>, i: nat): nat
    requires i <= |options|
  {
    if i == 0 then 0 else WeightBefore(options, i - 1) + options[i - 1].weight
  }

  function TotalWeight(options: seq<WeightedOption>): nat {
    WeightBefore(options, |options|)
  }

  lemma {:induction false} WeightsGrow(options: seq<WeightedOption>, i: nat, j: nat)
    requires i <= j <= |options|
    ensures WeightBefore(options, i) <= WeightBefore(options, j)
  {
    if i < j {
      WeightsGrow(options, i, j - 1);
    }
  }

  /** The option whose stretch of the weights a draw falls into, counting from option i. */
  function Pick(options: seq<WeightedOption>, draw: nat, i: nat): (r: nat)
    requires i < |options| && draw < TotalWeight(options) - WeightBefore(options, i)
    ensures i <= r < |options|
    decreases |options| - i
  {
    if draw < options[i].weight then i
    else if i + 1 < |options| then Pick(options, draw - options[i].weight, i + 1)
    else i
  }

  /** A draw picks an option exactly when it falls into the option's own stretch. */
  lemma {:induction false} PickIsStretch(options: seq<WeightedOption>, draw: nat, i: nat, r: nat)
    requires i < |options| && draw < TotalWeight(options) - WeightBefore(options, i) && i <= r < |options|
    ensures Pick(options, draw, i) == r <==>
            WeightBefore(options, r) <= WeightBefore(options, i) + draw < WeightBefore(options, r + 1)
    decreases |options| - i
  {
    assert WeightBefore(options, i + 1) == WeightBefore(options, i) + options[i].weight;
    if draw < options[i].weight {
      if r > i {
        WeightsGrow(options, i + 1, r);
      }
    } else {
      assert i + 1 < |options|;
      if r > i {
        PickIsStretch(options, draw - options[i].weight, i + 1, r);
      } else {
        var other := Pick(options, draw - options[i].weight, i + 1);
        assert other != r;
      }
    }
  }

  /** The words whose accepted draw picks option i. */
  ghost function WordsFor(options: seq<WeightedOption>, i: nat): set<nat>
    requires i < |options| && 0 < TotalWeight(options) < WORD
  {
    set x | x in Words() && Accepted(x, TotalWeight(options)) && High(x, TotalWeight(options)) < TotalWeight(options)
            && Pick(options, High(x, TotalWeight(options)), 0) == i
  }

  /** EXACT WEIGHTS: of all 64-bit words, each option is picked by its weight times the same number of them. */
  lemma EachOptionGetsItsWeight(options: seq<WeightedOption>, i: nat)
    requires i < |options| && 0 < TotalWeight(options) < WORD
    ensures |WordsFor(options, i)| == options[i].weight * (WORD / TotalWeight(options))
  {
    hide Accepted, High, Pick;
    var n, lo, hi := TotalWeight(options), WeightBefore(options, i), WeightBefore(options, i + 1);
    WeightsGrow(options, i, i + 1);
    WeightsGrow(options, i + 1, |options|);
    WordsForIsBand(options, i);
    assert AcceptedBelow(n, lo) <= AcceptedBelow(n, hi);
    AcceptedBelowSize(n, lo);
    AcceptedBelowSize(n, hi);
    BandSize(AcceptedBelow(n, hi), AcceptedBelow(n, lo), hi, lo, WORD / n);
  }

  lemma BandSize(a: set<nat>, b: set<nat>, hi: nat, lo: nat, q: nat)
    requires b <= a && lo <= hi && |a| == hi * q && |b| == lo * q
    ensures |a - b| == (hi - lo) * q
  {
    assert a == (a - b) + b;
    Distribute(q, lo, hi - lo);
  }

  lemma WordsForIsBand(options: seq<WeightedOption>, i: nat)
    requires i < |options| && 0 < TotalWeight(options) < WORD
    ensures WordsFor(options, i) ==
            AcceptedBelow(TotalWeight(options), WeightBefore(options, i + 1)) - AcceptedBelow(TotalWeight(options), WeightBefore(options, i))
  {
    hide Accepted, High, Pick;
    var n := TotalWeight(options);
    WeightsGrow(options, i, i + 1);
    WeightsGrow(options, i + 1, |options|);
    forall x | x in Words()
      ensures High(x, n) < n
      ensures Pick(options, High(x, n), 0) == i <==> WeightBefore(options, i) <= High(x, n) < WeightBefore(options, i + 1)
    {
      HighFits(x, n);
      PickIsStretch(options, High(x, n), 0, i);
    }
  }

  class SeedDecider {
    const random: Rand

    constructor (seed: nat)
      requires seed < WORD
      ensures fresh(random) && random.Valid() && random.state == seed
    {
      random := new Rand(seed);
    }

    /** A lone option or a point range takes no draw; otherwise one accepted draw decides. */
    method Choose(c: Choice) returns (r: Answer, ghost draws: nat)
      requires random.Valid() && (c.min.Some? && c.max.Some? ==> c.max.value < WORD / 2)
      modifies random
      ensures random.Valid() && (draws > 0 ==> random.state == StateAfter(old(random.state), draws))
      ensures r.Failure? <==> !ValidChoice(c) || (|c.options| > 1 && TotalWeight(c.options) >= WORD)
      ensures r.Failure? ==> r.error == InvalidChoice
      ensures r.Chosen? ==> ValidSelection(c, r.selection)
      ensures r.Chosen? && |c.options| == 0 && c.min.value < c.max.value ==>
        var n := c.max.value - c.min.value + 1;
        && draws >= 1
        && Accepted(Draw(old(random.state), draws), n)
        && r.selection.number == R.Some(c.min.value + High(Draw(old(random.state), draws), n))
      ensures r.Chosen? && |c.options| > 1 ==>
        && draws >= 1
        && 0 < TotalWeight(c.options) < WORD
        && Accepted(Draw(old(random.state), draws), TotalWeight(c.options))
        && exists i | 0 <= i < |c.options| ::
             c.options[i].id == r.selection.option && Draw(old(random.state), draws) in WordsFor(c.options, i)
    {
      hide Draw, StateAfter, WordsFor, Accepted;
      draws := 0;
      if !ValidChoice(c) {
        return Failure(InvalidChoice), 0;
      }
      if |c.options| > 0 {
        if |c.options| == 1 {
          return Chosen(Selection(c.options[0].id, R.None)), 0;
        }
        r, draws := Weigh(c);
        return;
      }
      if c.min.value == c.max.value {
        return Chosen(Selection("", R.Some(c.min.value))), 0;
      }
      var value;
      value, draws := random.Uint64N(c.max.value - c.min.value + 1);
      r := Chosen(Selection("", R.Some(c.min.value + value)));
    }

    method Weigh(c: Choice) returns (r: Answer, ghost draws: nat)
      requires random.Valid() && ValidChoice(c) && |c.options| > 1
      modifies random
      ensures random.Valid() && (draws > 0 ==> random.state == StateAfter(old(random.state), draws))
      ensures r.Failure? <==> TotalWeight(c.options) >= WORD
      ensures r.Failure? ==> r.error == InvalidChoice
      ensures r.Chosen? ==> ValidSelection(c, r.selection)
      ensures r.Chosen? ==>
        && draws >= 1
        && 0 < TotalWeight(c.options) < WORD
        && Accepted(Draw(old(random.state), draws), TotalWeight(c.options))
        && exists i | 0 <= i < |c.options| ::
             c.options[i].id == r.selection.option && Draw(old(random.state), draws) in WordsFor(c.options, i)
    {
      hide Draw, StateAfter, Accepted, High, Pick;
      var fits, total := SumWeights(c.options);
      if !fits {
        return Failure(InvalidChoice), 0;
      }
      WeightsGrow(c.options, 1, |c.options|);
      ghost var seed := random.state;
      var draw;
      draw, draws := random.Uint64N(total);
      var i := PickOption(c.options, draw);
      assert Draw(seed, draws) in WordsFor(c.options, i);
      r := Chosen(Selection(c.options[i].id, R.None));
    }
  }

  method SumWeights(options: seq<WeightedOption>) returns (fits: bool, total: nat)
    ensures fits <==> TotalWeight(options) < WORD
    ensures fits ==> total == TotalWeight(options)
  {
    total := 0;
    for i := 0 to |options|
      invariant total == WeightBefore(options, i) < WORD
    {
      if WORD - 1 - total < options[i].weight {
        WeightsGrow(options, i + 1, |options|);
        return false, total;
      }
      total := total + options[i].weight;
    }
    fits := true;
  }

  /** Walks the options, taking each weight off the draw until it falls within one. */
  method PickOption(options: seq<WeightedOption>, draw: nat) returns (r: nat)
    requires |options| > 0 && draw < TotalWeight(options)
    ensures r == Pick(options, draw, 0)
  {
    var left: nat := draw;
    for i := 0 to |options|
      invariant left < TotalWeight(options) - WeightBefore(options, i)
      invariant i < |options| ==> Pick(options, draw, 0) == Pick(options, left, i)
    {
      if left < options[i].weight {
        return i;
      }
      left := left - options[i].weight;
    }
    assert false;
  }
}

/**
 * The deterministic generator (rand.go): SplitMix64 on 64-bit words, written out as naturals with
 * explicit wrap-around, and bounded draws by multiply-shift with rejection.  Bounded draws are
 * exactly uniform, and the rejection loop ends, because no word repeats within a period.
 */
module Rand {

  const WORD: nat := 0x1_0000_0000_0000_0000

  const GAMMA: nat := 0x9e37_79b9_7f4a_7c15
  const MIX1: nat := 0xbf58_476d_1ce4_e5b9
  const MIX2: nat := 0x94d0_49bb_1331_11eb

  // The inverses of the constants modulo 2^64, and the multiples of 2^64 their products overshoot one by.
  const GAMMA_INVERSE: nat := 0xf1de_83e1_9937_733d
  const MIX1_INVERSE: nat := 0x96de_1b17_3f11_9089
  const MIX2_INVERSE: nat := 0x3196_42b2_d24d_8ec3

  // ----- exclusive or -----

  function Xor(a: nat, b: nat): nat
    decreases a + b
  {
    if a == 0 && b == 0 then 0 else 2 * Xor(a / 2, b / 2) + (a % 2 + b % 2) % 2
  }

  function Pow2(n: nat): (r: nat)
    ensures r > 0
  {
    if n == 0 then 1 else 2 * Pow2(n - 1)
  }

  /** z ^ (z >> n) */
  function XorShift(z: nat, n: nat): nat {
    QuotientFits(z, Pow2(n));
    Xor(z, z / Pow2(n))
  }

  // ----- arithmetic -----

  lemma Distribute(a: int, b: int, c: int)
    ensures a * (b + c) == a * b + a * c
  {
  }

  lemma Reassociate(a: int, b: int, c: int)
    ensures a * (b * c) == (a * b) * c
  {
  }

  lemma MulMono(a: nat, x: int, y: int)
    requires x <= y
    ensures a * x <= a * y
  {
    Distribute(a, x, y - x);
    assert a * (y - x) >= 0;
  }

  lemma BelowProduct(a: nat, b: nat, x: nat, r: nat)
    requires x < b && r < a
    ensures a * x + r < a * b
  {
    Distribute(a, x, 1);
    MulMono(a, x + 1, b);
  }

  lemma DivUnique(z: int, d: nat, q: int, r: int)
    requires d > 0 && 0 <= r < d && z == d * q + r
    ensures z / d == q && z % d == r
  {
    var q2, r2 := z / d, z % d;
    assert z == d * q2 + r2;
    if q > q2 {
      Distribute(d, q2, 1);
      MulMono(d, q2 + 1, q);
    } else if q < q2 {
      Distribute(d, q, 1);
      MulMono(d, q + 1, q2);
    }
  }

  lemma QuotientFits(z: nat, d: nat)
    requires d > 0
    ensures 0 <= z / d <= z
  {
    MulMono(z / d, 1, d);
  }

  lemma DivDiv(z: nat, a: nat, b: nat)
    requires a > 0 && b > 0
    ensures a * b > 0 && z / a / b == z / (a * b)
  {
    var q, r := z / a, z % a;
    var q', r' := q / b, q % b;
    assert z == a * q + r && q == b * q' + r';
    Distribute(a, b * q', r');
    Reassociate(a, b, q');
    BelowProduct(a, b, r', r);
    DivUnique(z, a * b, q', a * r' + r);
  }

  lemma HalfOfShift(z: nat, n: nat)
    requires n > 0
    ensures z / Pow2(n) / 2 == (z / 2) / Pow2(n)
    ensures z / Pow2(n) == (z / 2) / Pow2(n - 1)
  {
    DivDiv(z, Pow2(n), 2);
    DivDiv(z, 2, Pow2(n));
    DivDiv(z, 2, Pow2(n - 1));
  }

  lemma XorSplits(a: nat, b: nat)
    ensures Xor(a, b) / 2 == Xor(a / 2, b / 2) && Xor(a, b) % 2 == (a % 2 + b % 2) % 2
  {
  }

  /** The halves of an xor-shifted number: the xor-shift of the half, and a low bit mixed with a higher one. */
  lemma XorShiftSplits(z: nat, n: nat)
    requires n > 0
    ensures XorShift(z, n) / 2 == XorShift(z / 2, n)
    ensures XorShift(z, n) % 2 == (z % 2 + (z / 2 / Pow2(n - 1)) % 2) % 2
  {
    hide Pow2;
    HalfOfShift(z, n);
    XorSplits(z, z / Pow2(n));
  }

  /** Shifting right and mixing in loses nothing: the high bits give back the low ones. */
  lemma {:induction false} XorShiftInjective(y: nat, z: nat, n: nat)
    requires n > 0 && XorShift(y, n) == XorShift(z, n)
    ensures y == z
    decreases y + z
  {
    hide XorShift, Pow2;
    if y > 0 || z > 0 {
      XorShiftSplits(y, n);
      XorShiftSplits(z, n);
      XorShiftInjective(y / 2, z / 2, n);
    }
  }

  lemma {:induction false} XorFits(a: nat, b: nat, n: nat)
    requires a < Pow2(n) && b < Pow2(n)
    ensures Xor(a, b) < Pow2(n)
    decreases n
  {
    if n > 0 {
      XorFits(a / 2, b / 2, n - 1);
    }
  }

  lemma WordIsPow2()
    ensures WORD == Pow2(64)
  {
    PowAdd(8, 8);
    PowAdd(16, 16);
    PowAdd(32, 32);
    assert Pow2(8) == 256;
  }

  lemma {:induction false} PowAdd(a: nat, b: nat)
    ensures Pow2(a + b) == Pow2(a) * Pow2(b)
  {
    if a > 0 {
      PowAdd(a - 1, b);
    }
  }

  // ----- the stream -----

  function XorShiftWord(z: nat, n: nat): (r: nat)
    requires z < WORD
    ensures r < WORD
  {
    WordIsPow2();
    ShiftFits(z, n);
    XorFits(z, z / Pow2(n), 64);
    XorShift(z, n)
  }

  lemma ShiftFits(z: nat, n: nat)
    ensures z / Pow2(n) <= z
  {
    hide Pow2;
    QuotientFits(z, Pow2(n));
  }

  function Mix(z: nat): (r: nat)
    requires z < WORD
    ensures r < WORD
  {
    var a := (XorShiftWord(z, 30) * MIX1) % WORD;
    var b := (XorShiftWord(a, 27) * MIX2) % WORD;
    XorShiftWord(b, 31)
  }

  /** Multiplying by a constant with an inverse modulo 2^64 loses nothing. */
  lemma MultiplyInjective(y: nat, z: nat, c: nat, inverse: nat, k: nat)
    requires y < WORD && z < WORD && c * inverse == 1 + k * WORD
    requires (y * c) % WORD == (z * c) % WORD
    ensures y == z
  {
    Unmultiply(y, c, inverse, k);
    Unmultiply(z, c, inverse, k);
  }

  lemma Unmultiply(y: nat, c: nat, inverse: nat, k: nat)
    requires y < WORD && c * inverse == 1 + k * WORD
    ensures (((y * c) % WORD) * inverse) % WORD == y
  {
    var q, r := (y * c) / WORD, (y * c) % WORD;
    assert y * c == WORD * q + r;
    CancelInverse(y, c, inverse, k);
    assert r * inverse == (y * c) * inverse - (WORD * q) * inverse by { Distribute(inverse, WORD * q, r); }
    Reassociate(WORD, q, inverse);
    Distribute(WORD, y * k, -(q * inverse));
    DivUnique(r * inverse, WORD, y * k - q * inverse, y);
  }

  lemma CancelInverse(y: int, c: int, inverse: int, k: int)
    requires c * inverse == 1 + k * WORD
    ensures (y * c) * inverse == WORD * (y * k) + y
  {
    Reassociate(y, c, inverse);
    Distribute(y, 1, k * WORD);
    Reassociate(y, k, WORD);
  }

  /** SplitMix64's output function is one-to-one on 64-bit words. */
  lemma MixInjective(y: nat, z: nat)
    requires y < WORD && z < WORD && Mix(y) == Mix(z)
    ensures y == z
  {
    var a1, a2 := (XorShiftWord(y, 30) * MIX1) % WORD, (XorShiftWord(z, 30) * MIX1) % WORD;
    var b1, b2 := (XorShiftWord(a1, 27) * MIX2) % WORD, (XorShiftWord(a2, 27) * MIX2) % WORD;
    XorShiftInjective(b1, b2, 31);
    MultiplyInjective(XorShiftWord(a1, 27), XorShiftWord(a2, 27), MIX2, MIX2_INVERSE, 2077064247507883091);
    XorShiftInjective(a1, a2, 27);
    MultiplyInjective(XorShiftWord(y, 30), XorShiftWord(z, 30), MIX1, MIX1_INVERSE, 8125545580553827436);
    XorShiftInjective(y, z, 30);
  }

  /** The state after k draws. */
  function StateAfter(seed: nat, k: nat): (r: nat)
    requires seed < WORD
    ensures r < WORD
  {
    (seed + k * GAMMA) % WORD
  }

  /** The k-th word of the stream, counting from one. */
  function Draw(seed: nat, k: nat): (r: nat)
    requires seed < WORD
    ensures r < WORD
  {
    Mix(StateAfter(seed, k))
  }

  lemma NextState(seed: nat, k: nat)
    requires seed < WORD
    ensures StateAfter(seed, k + 1) == (StateAfter(seed, k) + GAMMA) % WORD
  {
    var t := seed + k * GAMMA;
    Distribute(GAMMA, k, 1);
    var u := t % WORD + GAMMA;
    Distribute(WORD, t / WORD, u / WORD);
    DivUnique(t + GAMMA, WORD, t / WORD + u / WORD, u % WORD);
  }

  /** A multiple of an invertible constant is a multiple of 2^64 only if the factor is. */
  lemma OnlyMultiples(d: int, c: int, inverse: int, k: int, q: int)
    requires c * inverse == 1 + k * WORD && d * c == WORD * q
    ensures d == WORD * (q * inverse - d * k)
  {
    CancelInverse(d, c, inverse, k);
    Reassociate(WORD, q, inverse);
    Distribute(WORD, q * inverse, -(d * k));
  }

  /** FULL PERIOD: within 2^64 draws no word comes twice. */
  lemma DrawsDistinct(seed: nat, i: nat, j: nat)
    requires seed < WORD && i < j < i + WORD
    ensures Draw(seed, i) != Draw(seed, j)
  {
    hide Mix;
    if Draw(seed, i) == Draw(seed, j) {
      MixInjective(StateAfter(seed, i), StateAfter(seed, j));
      var a, b := seed + i * GAMMA, seed + j * GAMMA;
      var d, q := j - i, b / WORD - a / WORD;
      Distribute(GAMMA, i, d);
      Distribute(WORD, a / WORD, q);
      OnlyMultiples(d, GAMMA, GAMMA_INVERSE, 10771413168148108919, q);
      var m := q * GAMMA_INVERSE - d * 10771413168148108919;
      if m >= 1 {
        MulMono(WORD, 1, m);
      } else {
        MulMono(WORD, m, 0);
      }
    }
  }

  // ----- bounded draws -----

  /** The high and low words of a product. */
  function High(x: nat, n: nat): nat {
    x * n / WORD
  }

  function Low(x: nat, n: nat): nat {
    x * n % WORD
  }

  /** -n % n on 64-bit words. */
  function Threshold(n: nat): nat
    requires 0 < n < WORD
  {
    (WORD - n) % n
  }

  predicate Accepted(x: nat, n: nat)
    requires 0 < n < WORD
  {
    Low(x, n) >= Threshold(n)
  }

  lemma ThresholdIsRemainder(n: nat)
    requires 0 < n < WORD
    ensures Threshold(n) == WORD % n && WORD == n * (WORD / n) + Threshold(n)
    ensures Threshold(n) < n
  {
    var q, r := (WORD - n) / n, (WORD - n) % n;
    Distribute(n, q, 1);
    DivUnique(WORD, n, q + 1, r);
  }

  /** The least x with x * n at least y. */
  function Ceiling(y: nat, n: nat): (c: nat)
    requires n > 0
    ensures c * n >= y && (c > 0 ==> (c - 1) * n < y)
  {
    var q := y / n;
    Distribute(n, q, 1);
    Distribute(n, q, -1);
    if q * n == y then q else q + 1
  }

  lemma AtLeast(x: nat, y: nat, n: nat)
    requires n > 0
    ensures x * n >= y <==> x >= Ceiling(y, n)
  {
    var c := Ceiling(y, n);
    if x >= c {
      MulMono(n, c, x);
    } else {
      MulMono(n, x, c - 1);
    }
  }

  /** The first word that is accepted with result r. */
  function FirstWord(r: nat, n: nat): nat
    requires 0 < n < WORD
  {
    Ceiling(r * WORD + Threshold(n), n)
  }

  /**
   * EXACT UNIFORMITY: for every bound n and every result r below it, the words accepted with
   * result r are exactly WORD / n consecutive ones.
   */
  lemma ExactlyUniform(x: nat, r: nat, n: nat)
    requires 0 < n < WORD && r < n && x < WORD
    ensures Accepted(x, n) && High(x, n) == r <==> FirstWord(r, n) <= x < FirstWord(r, n) + WORD / n
    ensures FirstWord(r, n) + WORD / n <= WORD
  {
    var t, q := Threshold(n), WORD / n;
    ThresholdIsRemainder(n);
    var y := r * WORD + t;
    var c := Ceiling(y, n);
    AcceptedInterval(x, r, n);
    AtLeast(x, y, n);
    // The interval ends where the products reach the next multiple of 2^64.
    assert y + n * q == (r + 1) * WORD by { Distribute(WORD, r, 1); }
    CeilingShift(y, n, q);
    AtLeast(x, (r + 1) * WORD, n);
    MulMono(WORD, r + 1, n);
    AtLeast(WORD, (r + 1) * WORD, n);
  }

  lemma CeilingShift(y: nat, n: nat, q: nat)
    requires n > 0
    ensures Ceiling(y + n * q, n) == Ceiling(y, n) + q
  {
    Distribute(n, y / n, q);
    DivUnique(y + n * q, n, y / n + q, y % n);
  }

  lemma AcceptedInterval(x: nat, r: nat, n: nat)
    requires 0 < n < WORD
    ensures Accepted(x, n) && High(x, n) == r <==> r * WORD + Threshold(n) <= x * n < (r + 1) * WORD
  {
    var p := x * n;
    Distribute(WORD, r, 1);
    ThresholdIsRemainder(n);
    if r * WORD <= p < (r + 1) * WORD {
      DivUnique(p, WORD, r, p - r * WORD);
    }
  }

  // ----- counting -----

  lemma {:induction false} IntervalSize(a: nat, n: nat, s: set<nat>)
    requires forall x :: x in s <==> a <= x < a + n
    ensures |s| == n
  {
    if n == 0 {
      assert s == {};
    } else {
      IntervalSize(a, n - 1, s - {a + n - 1});
    }
  }

  predicate IsWord(x: nat) {
    x < WORD
  }

  ghost function Words(): set<nat> {
    set x: nat | x < WORD && IsWord(x)
  }

  ghost function AcceptedWith(n: nat, r: nat): set<nat>
    requires 0 < n < WORD
  {
    set x | x in Words() && Accepted(x, n) && High(x, n) == r
  }

  ghost function AcceptedBelow(n: nat, r: nat): set<nat>
    requires 0 < n < WORD
  {
    set x | x in Words() && Accepted(x, n) && High(x, n) < r
  }

  ghost function Rejected(n: nat): set<nat>
    requires 0 < n < WORD
  {
    set x | x in Words() && !Accepted(x, n)
  }

  lemma AcceptedSize(n: nat, r: nat)
    requires 0 < n < WORD && r < n
    ensures |AcceptedWith(n, r)| == WORD / n
  {
    hide Accepted, High, FirstWord;
    forall x: nat
      ensures x in AcceptedWith(n, r) <==> FirstWord(r, n) <= x < FirstWord(r, n) + WORD / n
    {
      if x < WORD {
        ExactlyUniform(x, r, n);
      } else {
        ExactlyUniform(0, r, n);
      }
    }
    IntervalSize(FirstWord(r, n), WORD / n, AcceptedWith(n, r));
  }

  lemma {:induction false} AcceptedBelowSize(n: nat, r: nat)
    requires 0 < n < WORD && r <= n
    ensures |AcceptedBelow(n, r)| == r * (WORD / n)
  {
    hide Accepted, High;
    if r == 0 {
      assert AcceptedBelow(n, r) == {};
    } else {
      AcceptedBelowSize(n, r - 1);
      AcceptedSize(n, r - 1);
      assert AcceptedBelow(n, r) == AcceptedBelow(n, r - 1) + AcceptedWith(n, r - 1);
      assert AcceptedBelow(n, r - 1) !! AcceptedWith(n, r - 1);
      Distribute(WORD / n, r - 1, 1);
    }
  }

  lemma HighFits(x: nat, n: nat)
    requires 0 < n < WORD && x < WORD
    ensures High(x, n) < n
  {
    var q := High(x, n);
    BelowProduct(n, WORD, x, 0);
    if q >= n {
      MulMono(WORD, n, q);
    }
  }

  /** Fewer words are rejected than the bound: exactly 2^64 mod n of them. */
  lemma RejectedSize(n: nat)
    requires 0 < n < WORD
    ensures |Rejected(n)| == WORD % n < n
  {
    hide Accepted, High;
    forall x | x in Words()
      ensures High(x, n) < n
    {
      HighFits(x, n);
    }
    AcceptedBelowSize(n, n);
    assert Words() == AcceptedBelow(n, n) + Rejected(n);
    assert AcceptedBelow(n, n) !! Rejected(n);
    IntervalSize(0, WORD, Words());
    ThresholdIsRemainder(n);
  }

  // ----- the loop ends -----

  ghost function Drawn(seed: nat, first: nat, last: nat): set<nat>
    requires seed < WORD && first <= last
  {
    set k | first <= k < last :: Draw(seed, k)
  }

  lemma {:induction false} DrawnSize(seed: nat, first: nat, last: nat)
    requires seed < WORD && first <= last <= first + WORD
    ensures |Drawn(seed, first, last)| == last - first
    decreases last
  {
    hide Draw;
    if first == last {
      assert Drawn(seed, first, last) == {};
    } else {
      DrawnSize(seed, first, last - 1);
      assert Drawn(seed, first, last) == Drawn(seed, first, last - 1) + {Draw(seed, last - 1)};
      forall k | first <= k < last - 1
        ensures Draw(seed, k) != Draw(seed, last - 1)
      {
        DrawsDistinct(seed, k, last - 1);
      }
    }
  }

  lemma {:induction false} SubsetSize<T>(a: set<T>, b: set<T>)
    requires a <= b
    ensures |a| <= |b|
  {
    if a != {} {
      var x :| x in a;
      SubsetSize(a - {x}, b - {x});
    }
  }

  /** At most 2^64 mod n draws in a row are rejected. */
  lemma RejectionsEnd(seed: nat, n: nat, k: nat)
    requires seed < WORD && 0 < n < WORD
    requires forall i | 1 <= i <= k :: !Accepted(Draw(seed, i), n)
    ensures k <= WORD % n
  {
    hide Accepted, Draw;
    RejectedSize(n);
    var m := if k <= WORD % n + 1 then k else WORD % n + 1;
    DrawnSize(seed, 1, m + 1);
    assert Drawn(seed, 1, m + 1) <= Rejected(n);
    SubsetSize(Drawn(seed, 1, m + 1), Rejected(n));
  }

  // ----- the generator -----

  class Rand {
    var state: nat
    var splitCount: nat

    ghost predicate Valid()
      reads this
    {
      state < WORD
    }

    constructor (seed: nat)
      requires seed < WORD
      ensures Valid() && state == seed && splitCount == 0
    {
      state, splitCount := seed, 0;
    }

    method NextUint64() returns (r: nat)
      requires Valid()
      modifies this`state
      ensures Valid() && r == Draw(old(state), 1) && state == StateAfter(old(state), 1)
    {
      state := (state + GAMMA) % WORD;
      var z := (XorShiftWord(state, 30) * MIX1) % WORD;
      z := (XorShiftWord(z, 27) * MIX2) % WORD;
      r := XorShiftWord(z, 31);
    }

    /**
     * The first accepted word decides; the rejected ones before it are fewer than the bound, so
     * the loop ends.
     */
    method Uint64N(n: nat) returns (r: nat, ghost draws: nat)
      requires Valid() && 0 < n < WORD
      modifies this`state
      ensures Valid() && r < n
      ensures 1 <= draws <= WORD % n + 1 && state == StateAfter(old(state), draws)
      ensures Accepted(Draw(old(state), draws), n) && r == High(Draw(old(state), draws), n)
      ensures forall i | 1 <= i < draws :: !Accepted(Draw(old(state), i), n)
    {
      hide Draw, XorShiftWord;
      ghost var seed := state;
      var x := NextUint64();
      draws := 1;
      ThresholdIsRemainder(n);
      var hi, lo := High(x, n), Low(x, n);
      if lo < n {
        var threshold := Threshold(n);
        while lo < threshold
          invariant Valid() && threshold == Threshold(n) && draws >= 1
          invariant state == StateAfter(seed, draws) && x == Draw(seed, draws)
          invariant hi == High(x, n) && lo == Low(x, n)
          invariant forall i | 1 <= i < draws :: !Accepted(Draw(seed, i), n)
          decreases WORD % n + 1 - draws
        {
          RejectionsEnd(seed, n, draws);
          Following(seed, draws);
          x := NextUint64();
          draws := draws + 1;
          hi, lo := High(x, n), Low(x, n);
        }
      }
      HighFits(x, n);
      RejectionsEnd(seed, n, draws - 1);
      r := hi;
    }

    /** A uniformly distributed duration in [min, max]; a single point takes no draw. */
    method Duration(min: nat, max: nat) returns (r: nat, ghost draws: nat)
      requires Valid() && min <= max < WORD / 2
      modifies this`state
      ensures Valid() && min <= r <= max
      ensures min == max ==> draws == 0 && state == old(state)
      ensures min < max ==> 1 <= draws && state == StateAfter(old(state), draws)
      ensures min < max ==> Accepted(Draw(old(state), draws), max - min + 1)
      ensures min < max ==> r - min == High(Draw(old(state), draws), max - min + 1)
    {
      if min == max {
        return min, 0;
      }
      var span := max - min + 1;
      var value;
      value, draws := Uint64N(span);
      r := min + value;
    }

    /** A child stream, seeded by one draw of this one. */
    method Split() returns (child: Rand)
      requires Valid()
      modifies this
      ensures Valid() && state == StateAfter(old(state), 1) && splitCount == old(splitCount) + 1
      ensures fresh(child) && child.Valid() && child.state == Draw(old(state), 1)
    {
      var seed := NextUint64();
      splitCount := splitCount + 1;
      child := new Rand(seed);
    }
  }

  /** Drawing on from where k draws led is drawing the next of the same stream. */
  lemma Following(seed: nat, k: nat)
    requires seed < WORD
    ensures StateAfter(StateAfter(seed, k), 1) == StateAfter(seed, k + 1)
    ensures Draw(StateAfter(seed, k), 1) == Draw(seed, k + 1)
  {
    NextState(seed, k);
  }
}

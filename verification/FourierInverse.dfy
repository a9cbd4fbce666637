/** Evaluation and interpolation undo each other on points that fold. */
module FourierInverse {
  import opened NumberTheory
  import opened Fourier
  import opened Sequences

  /** Neighbouring points are invertible negatives of each other. */
  predicate Opposites(xs: seq<nat>, p: nat)
    requires p >= 2
    decreases |xs|
  {
    |xs| >= 2 ==>
      Unit(xs[0], p) && Congruent(xs[0] + xs[1], 0, p) && Opposites(Rest(xs), p)
  }

  /** `2^k` points that pair up at every squaring level. */
  predicate Folds(xs: seq<nat>, k: nat, p: nat)
    requires p >= 2
    decreases k
  {
    && |xs| == Two(k)
    && (k > 0 ==> Opposites(xs, p) && Folds(NextPoints(xs, Two(k - 1), p), k - 1, p))
  }

  lemma DifferenceCongruent(a: nat, b: nat, p: nat)
    requires p > 0 && b <= a + p
    ensures Congruent(Difference(a, b, p), a - b, p)
  {
    ModShift(a - b, 1, p);
  }

  lemma ReducedIs(r: nat, p: nat)
    requires r < p
    ensures r % p == r
  {
    ModUnique(r, 0, r, p);
  }

  // ---- The two values of a pair -----------------------------------------

  lemma NegatedProduct(e: int, o: int, x: int, y: int, p: nat)
    requires p > 0 && Congruent(x + y, 0, p)
    ensures Congruent(e + y * o, e - x * o, p)
    ensures Congruent(y * y, x * x, p)
  {
    CongruentMul(x + y, 0, o, o, p);
    assert (x + y) * o == (e + y * o) - (e - x * o);
    CongruentDifference(e + y * o, e - x * o, p);
    CongruentMul(x + y, 0, y - x, y - x, p);
    assert (x + y) * (y - x) == y * y - x * x;
    CongruentDifference(y * y, x * x, p);
    ModMultiple(0, p);
  }

  lemma EvalPoint(e: seq<nat>, x: nat, z: nat, p: nat)
    requires p > 0 && |e| % 2 == 0 && Congruent(x * x, z, p)
    ensures Congruent(Eval(e, x), Eval(Evens(e), z) + x * Eval(Odds(e), z), p)
  {
    var xx := x * x;
    EvalSplit(e, x);
    EvalCongruent(Evens(e), xx, z, p);
    EvalCongruent(Odds(e), xx, z, p);
    CongruentMul(x, x, Eval(Odds(e), xx), Eval(Odds(e), z), p);
    CongruentAdd(Eval(Evens(e), xx), Eval(Evens(e), z), x * Eval(Odds(e), xx), x * Eval(Odds(e), z), p);
  }

  /** A coefficient list at a pair of points, through its even and odd halves at the square. */
  lemma EvalPair(e: seq<nat>, x: nat, y: nat, p: nat) returns (even: nat, odd: nat)
    requires p > 0 && |e| % 2 == 0 && Congruent(x + y, 0, p)
    ensures Value(Evens(e), ModPow(x, 2, p), p) == even % p
    ensures Value(Odds(e), ModPow(x, 2, p), p) == odd % p
    ensures Congruent(Value(e, x, p), even + x * odd, p)
    ensures Congruent(Value(e, y, p), even - x * odd, p)
  {
    var z := ModPow(x, 2, p);
    even, odd := Eval(Evens(e), z), Eval(Odds(e), z);
    Square(x);
    CongruentMod(x * x, p);
    EvalPoint(e, x, z, p);
    NegatedProduct(even, odd, x, y, p);
    EvalPoint(e, y, z, p);
    CongruentMod(Eval(e, x), p);
    CongruentMod(Eval(e, y), p);
  }

  lemma Square(x: int)
    ensures Pow(x, 2) == x * x
  {
    assert Pow(x, 2) == x * Pow(x, 1) == x * (x * Pow(x, 0));
  }

  lemma Doubled(o: int, x: int)
    ensures o * (2 * x) == x * o + x * o
  {
  }

  /** Half-sum and half-difference of a pair of values recover the two halves. */
  lemma PairToHalves(even: nat, odd: nat, x: nat, a: nat, b: nat, p: nat)
    requires p >= 2 && Unit(2, p) && Unit(x, p) && b <= a + p
    requires Congruent(a, even + x * odd, p) && Congruent(b, even - x * odd, p)
    ensures DivMod(a + b, 2, p) == even % p
    ensures DivMod(Difference(a, b, p), 2 * x, p) == odd % p
  {
    var w := x * odd;
    CongruentAdd(a, even + w, b, even - w, p);
    CongruentMod(even, p);
    CongruentMul(even % p, even, 2, 2, p);
    DivModIs(a + b, 2, p, even % p);

    UnitProduct(2, x, p);
    DifferenceCongruent(a, b, p);
    CongruentMod(odd, p);
    CongruentMul(odd % p, odd, 2 * x, 2 * x, p);
    Doubled(odd, x);
    DivModIs(Difference(a, b, p), 2 * x, p, odd % p);
  }

  /** Halves that come from a pair of values evaluate back to that pair. */
  lemma HalvesToPair(even: nat, odd: nat, x: nat, a: nat, b: nat, p: nat)
    requires p >= 2 && Unit(2, p) && Unit(x, p) && b <= a + p
    requires even % p == DivMod(a + b, 2, p)
    requires odd % p == DivMod(Difference(a, b, p), 2 * x, p)
    ensures Congruent(even + x * odd, a, p)
    ensures Congruent(even - x * odd, b, p)
  {
    var s, d, w := DivMod(a + b, 2, p), DivMod(Difference(a, b, p), 2 * x, p), x * odd;
    UnitProduct(2, x, p);
    DivModTimes(a + b, 2, p);
    DivModTimes(Difference(a, b, p), 2 * x, p);
    DifferenceCongruent(a, b, p);
    CongruentMod(even, p);
    CongruentMod(odd, p);
    CongruentMul(s, even, 2, 2, p);
    CongruentMul(d, odd, 2 * x, 2 * x, p);
    Doubled(odd, x);
    CongruentAdd(even * 2, a + b, w + w, a - b, p);
    assert even * 2 + (w + w) == (even + w) * 2 && even * 2 - (w + w) == (even - w) * 2;
    CancelUnit(even + w, a, 2, p);
    CancelUnit(even - w, b, 2, p);
  }

  lemma FoldPairValues(e: seq<nat>, x: nat, y: nat, p: nat)
    requires p >= 2 && Unit(2, p) && |e| % 2 == 0
    requires Unit(x, p) && Congruent(x + y, 0, p)
    ensures var a, b := Value(e, x, p), Value(e, y, p);
            && DivMod(a + b, 2, p) == Value(Evens(e), ModPow(x, 2, p), p)
            && DivMod(Difference(a, b, p), 2 * x, p) == Value(Odds(e), ModPow(x, 2, p), p)
  {
    hide Value, DivMod, Unit, ModPow, Congruent, Difference;
    var even, odd := EvalPair(e, x, y, p);
    PairToHalves(even, odd, x, Value(e, x, p), Value(e, y, p), p);
  }

  lemma UnfoldPairValues(m0: seq<nat>, m1: seq<nat>, x: nat, y: nat, a: nat, b: nat, p: nat)
    requires p >= 2 && Unit(2, p) && |m0| == |m1| && a < p && b < p
    requires Unit(x, p) && Congruent(x + y, 0, p)
    requires Value(m0, ModPow(x, 2, p), p) == DivMod(a + b, 2, p)
    requires Value(m1, ModPow(x, 2, p), p) == DivMod(Difference(a, b, p), 2 * x, p)
    ensures Value(Merge(m0, m1), x, p) == a && Value(Merge(m0, m1), y, p) == b
  {
    hide Value, DivMod, Unit, ModPow, Difference;
    MergeSplits(m0, m1);
    var even, odd := EvalPair(Merge(m0, m1), x, y, p);
    HalvesToPair(even, odd, x, a, b, p);
    ReducedIs(a, p);
    ReducedIs(b, p);
    ReducedIs(Value(Merge(m0, m1), x, p), p);
    ReducedIs(Value(Merge(m0, m1), y, p), p);
  }

  // ---- One level --------------------------------------------------------

  lemma ValuesPair(e: seq<nat>, xs: seq<nat>, p: nat)
    requires p > 0 && |xs| >= 2
    ensures Values(e, xs, p) == [Value(e, xs[0], p), Value(e, xs[1], p)] + Values(e, Rest(xs), p)
  {
    ValuesTwice(e, xs, p);
    TailOfTail(xs);
  }

  lemma ValuesTwice(e: seq<nat>, xs: seq<nat>, p: nat)
    requires p > 0 && |xs| >= 2
    ensures Values(e, xs, p) == [Value(e, xs[0], p), Value(e, xs[1], p)] + Values(e, xs[1..][1..], p)
  {
  }

  lemma TailOfTail(xs: seq<nat>)
    requires |xs| >= 2
    ensures xs[1..][1..] == Rest(xs)
  {
  }

  lemma HalvesOfPair(a: nat, b: nat, rest: seq<nat>, xs: seq<nat>, p: nat)
    requires p >= 2 && |rest| % 2 == 0 && |xs| == |rest| + 2 && b <= a + p && Subtractable(rest, p)
    ensures Subtractable([a, b] + rest, p)
    ensures HalfSums([a, b] + rest, p) == [DivMod(a + b, 2, p)] + HalfSums(rest, p)
    ensures HalfDifferences([a, b] + rest, xs, p) ==
            [DivMod(Difference(a, b, p), 2 * xs[0], p)] + HalfDifferences(rest, Rest(xs), p)
  {
    hide DivMod, Difference;
    RestOfPair(a, b, rest);
  }

  lemma RestOfPair(a: nat, b: nat, rest: seq<nat>)
    ensures Rest([a, b] + rest) == rest
  {
  }

  lemma NextPointsPair(xs: seq<nat>, p: nat)
    requires p > 0 && |xs| >= 2
    ensures NextPoints(xs, |xs| / 2, p) == [ModPow(xs[0], 2, p)] + NextPoints(Rest(xs), |Rest(xs)| / 2, p)
  {
  }

  lemma ValuesCons(e: seq<nat>, x: nat, xs: seq<nat>, p: nat)
    requires p > 0
    ensures Values(e, [x] + xs, p) == [Value(e, x, p)] + Values(e, xs, p)
  {
    assert ([x] + xs)[1..] == xs;
  }

  lemma OppositesPair(xs: seq<nat>, p: nat)
    requires p >= 2 && |xs| >= 2 && Opposites(xs, p)
    ensures Unit(xs[0], p) && Congruent(xs[0] + xs[1], 0, p) && Opposites(Rest(xs), p)
  {
  }

  lemma FoldNothing(e: seq<nat>, p: nat)
    requires p >= 2
    ensures Subtractable(Values(e, [], p), p)
    ensures HalfSums(Values(e, [], p), p) == Values(Evens(e), NextPoints([], 0, p), p)
    ensures HalfDifferences(Values(e, [], p), [], p) == Values(Odds(e), NextPoints([], 0, p), p)
  {
  }

  /** Folding the values of `e` gives the values of its two halves at the squared points. */
  lemma {:induction false} FoldValues(e: seq<nat>, xs: seq<nat>, p: nat)
    requires p >= 2 && Unit(2, p) && |e| % 2 == 0 && |xs| % 2 == 0 && Opposites(xs, p)
    ensures Subtractable(Values(e, xs, p), p)
    ensures HalfSums(Values(e, xs, p), p) == Values(Evens(e), NextPoints(xs, |xs| / 2, p), p)
    ensures HalfDifferences(Values(e, xs, p), xs, p) == Values(Odds(e), NextPoints(xs, |xs| / 2, p), p)
    decreases |xs|
  {
    hide *;
    if xs == [] {
      FoldNothing(e, p);
    } else {
      var x, points := ModPow(xs[0], 2, p), NextPoints(Rest(xs), |Rest(xs)| / 2, p);
      OppositesPair(xs, p);
      FoldValues(e, Rest(xs), p);
      FoldPairValues(e, xs[0], xs[1], p);
      ValuesPair(e, xs, p);
      HalvesOfPair(Value(e, xs[0], p), Value(e, xs[1], p), Values(e, Rest(xs), p), xs, p);
      NextPointsPair(xs, p);
      ValuesCons(Evens(e), x, points, p);
      ValuesCons(Odds(e), x, points, p);
    }
  }

  lemma PairAndRest(a: seq<nat>)
    requires |a| >= 2
    ensures a == [a[0], a[1]] + Rest(a)
  {
  }

  /** Merged halves whose values are the folded list have the list itself as values. */
  lemma {:induction false} UnfoldValues(a: seq<nat>, xs: seq<nat>, m0: seq<nat>, m1: seq<nat>, p: nat)
    requires p >= 2 && Unit(2, p) && |a| == |xs| && |xs| % 2 == 0 && Opposites(xs, p)
    requires Reduced(a, p) && Subtractable(a, p) && |m0| == |m1|
    requires Values(m0, NextPoints(xs, |xs| / 2, p), p) == HalfSums(a, p)
    requires Values(m1, NextPoints(xs, |xs| / 2, p), p) == HalfDifferences(a, xs, p)
    ensures Values(Merge(m0, m1), xs, p) == a
    decreases |xs|
  {
    hide Value, DivMod, Unit, ModPow, Difference;
    if xs != [] {
      var x, points := ModPow(xs[0], 2, p), NextPoints(Rest(xs), |Rest(xs)| / 2, p);
      PairAndRest(a);
      HalvesOfPair(a[0], a[1], Rest(a), xs, p);
      NextPointsPair(xs, p);
      ValuesCons(m0, x, points, p);
      ValuesCons(m1, x, points, p);
      ConsInjective(Value(m0, x, p), Values(m0, points, p), DivMod(a[0] + a[1], 2, p), HalfSums(Rest(a), p));
      ConsInjective(Value(m1, x, p), Values(m1, points, p),
                      DivMod(Difference(a[0], a[1], p), 2 * xs[0], p), HalfDifferences(Rest(a), Rest(xs), p));
      UnfoldValues(Rest(a), Rest(xs), m0, m1, p);
      UnfoldPairValues(m0, m1, xs[0], xs[1], a[0], a[1], p);
      ValuesPair(Merge(m0, m1), xs, p);
    }
  }

  lemma {:induction false} TwoIsPower(k: nat)
    ensures PowerOfTwo(Two(k))
    ensures k > 0 ==> Two(k) % 2 == 0 && Two(k) / 2 == Two(k - 1)
  {
    if k > 0 { TwoIsPower(k - 1); }
  }

  lemma ConstantValues(e: seq<nat>, xs: seq<nat>, p: nat)
    requires p >= 2 && |e| == 1 == |xs| && Reduced(e, p)
    ensures Values(e, xs, p) == e
    ensures Foldable(e, xs, p) && Interpolation(e, xs, p) == e
  {
    assert Eval(e[1..], xs[0]) == 0;
    ReducedIs(e[0], p);
  }

  lemma {:induction false} HalvesReduced(e: seq<nat>, p: nat)
    requires Reduced(e, p)
    ensures Reduced(Evens(e), p) && Reduced(Odds(e), p)
    decreases |e|
  {
    if |e| >= 2 { HalvesReduced(Rest(e), p); }
  }

  /** One level of the recursion. */
  lemma InterpolationStep(arr: seq<nat>, xs: seq<nat>, p: nat)
    requires Foldable(arr, xs, p) && |arr| > 1
    ensures var points := NextPoints(xs, |arr| / 2, p);
            && Foldable(HalfSums(arr, p), points, p)
            && Foldable(HalfDifferences(arr, xs, p), points, p)
            && Interpolation(arr, xs, p) ==
               Merge(Interpolation(HalfSums(arr, p), points, p),
                     Interpolation(HalfDifferences(arr, xs, p), points, p))
  {
    var points := NextPoints(xs, |arr| / 2, p);
    ReducedFoldable(HalfSums(arr, p), points, p);
    ReducedFoldable(HalfDifferences(arr, xs, p), points, p);
  }

  // ---- Interpolating values ---------------------------------------------

  ghost predicate AreValues(v: seq<nat>, e: seq<nat>, xs: seq<nat>, p: nat) {
    p >= 2 && v == Values(e, xs, p)
  }

  /** The values of `e` interpolate to `e`. */
  ghost predicate Interpolates(e: seq<nat>, xs: seq<nat>, p: nat) {
    forall v :: AreValues(v, e, xs, p) ==> Foldable(v, xs, p) && Interpolation(v, xs, p) == e
  }

  lemma {:induction false} InterpolateValues(e: seq<nat>, xs: seq<nat>, k: nat, p: nat)
    requires p >= 2 && Unit(2, p) && Folds(xs, k, p)
    requires |e| == Two(k) && Reduced(e, p)
    ensures Interpolates(e, xs, p)
    decreases k
  {
    if k == 0 {
      ConstantValues(e, xs, p);
    } else {
      var points := NextPoints(xs, Two(k - 1), p);
      TwoIsPower(k);
      HalvesReduced(e, p);
      InterpolateValues(Evens(e), points, k - 1, p);
      InterpolateValues(Odds(e), points, k - 1, p);
      RecoverJoined(e, xs, k, p);
    }
  }

  lemma RecoverJoined(e: seq<nat>, xs: seq<nat>, k: nat, p: nat)
    requires p >= 2 && Unit(2, p) && k > 0 && Folds(xs, k, p) && |e| == Two(k)
    requires Interpolates(Evens(e), NextPoints(xs, Two(k - 1), p), p)
    requires Interpolates(Odds(e), NextPoints(xs, Two(k - 1), p), p)
    ensures Interpolates(e, xs, p)
  {
    TwoIsPower(k);
    var v, points := Values(e, xs, p), NextPoints(xs, Two(k - 1), p);
    FoldValues(e, xs, p);
    assert AreValues(Values(Evens(e), points, p), Evens(e), points, p);
    assert AreValues(Values(Odds(e), points, p), Odds(e), points, p);
    ReducedFoldable(v, xs, p);
    InterpolationStep(v, xs, p);
    SplitMerges(e);
  }

  /** Interpolating the values of a polynomial gives back its coefficients. */
  lemma RecoverCoefficients(e: seq<nat>, xs: seq<nat>, k: nat, p: nat)
    requires p >= 2 && Unit(2, p) && Folds(xs, k, p)
    requires |e| == Two(k) && Reduced(e, p)
    ensures Foldable(Values(e, xs, p), xs, p)
    ensures Interpolation(Values(e, xs, p), xs, p) == e
  {
    InterpolateValues(e, xs, k, p);
    assert AreValues(Values(e, xs, p), e, xs, p);
  }

  // ---- Evaluating interpolations ----------------------------------------

  ghost predicate IsInterpolation(m: seq<nat>, a: seq<nat>, xs: seq<nat>, p: nat) {
    Foldable(a, xs, p) && m == Interpolation(a, xs, p)
  }

  /** The interpolation of `a` evaluates to `a`. */
  ghost predicate Reevaluated(a: seq<nat>, xs: seq<nat>, p: nat)
    requires p > 0
  {
    forall m :: IsInterpolation(m, a, xs, p) ==> Values(m, xs, p) == a
  }

  lemma {:induction false} EvaluateInterpolation(a: seq<nat>, xs: seq<nat>, k: nat, p: nat)
    requires p >= 2 && Unit(2, p) && Folds(xs, k, p)
    requires |a| == Two(k) && Reduced(a, p)
    ensures Reevaluated(a, xs, p)
    decreases k
  {
    if k == 0 {
      ConstantValues(a, xs, p);
    } else {
      var points := NextPoints(xs, Two(k - 1), p);
      forall s: seq<nat> | |s| == Two(k - 1) && Reduced(s, p) ensures Reevaluated(s, points, p) {
        EvaluateInterpolation(s, points, k - 1, p);
      }
      ReevaluateJoined(a, xs, k, p);
    }
  }

  lemma ReevaluateJoined(a: seq<nat>, xs: seq<nat>, k: nat, p: nat)
    requires p >= 2 && Unit(2, p) && k > 0 && Folds(xs, k, p) && |a| == Two(k) && Reduced(a, p)
    requires forall s: seq<nat> :: |s| == Two(k - 1) && Reduced(s, p) ==>
               Reevaluated(s, NextPoints(xs, Two(k - 1), p), p)
    ensures Reevaluated(a, xs, p)
  {
    TwoIsPower(k);
    var points := NextPoints(xs, Two(k - 1), p);
    ReducedFoldable(a, xs, p);
    InterpolationStep(a, xs, p);
    var sums, diffs := HalfSums(a, p), HalfDifferences(a, xs, p);
    var m0, m1 := Interpolation(sums, points, p), Interpolation(diffs, points, p);
    assert Reevaluated(sums, points, p) && Reevaluated(diffs, points, p);
    assert IsInterpolation(m0, sums, points, p) && IsInterpolation(m1, diffs, points, p);
    UnfoldValues(a, xs, m0, m1, p);
  }

  /** Evaluating an interpolated polynomial gives back the values. */
  lemma RecoverValues(a: seq<nat>, xs: seq<nat>, k: nat, p: nat)
    requires p >= 2 && Unit(2, p) && Folds(xs, k, p)
    requires |a| == Two(k) && Reduced(a, p)
    ensures Foldable(a, xs, p)
    ensures Values(Interpolation(a, xs, p), xs, p) == a
  {
    EvaluateInterpolation(a, xs, k, p);
    TwoIsPower(k);
    ReducedFoldable(a, xs, p);
    assert IsInterpolation(Interpolation(a, xs, p), a, xs, p);
  }

  // ---- Prime moduli -----------------------------------------------------

  /** Neighbouring points are non-zero negatives of each other. */
  predicate NonZeroNegatives(xs: seq<nat>, p: nat)
    requires p > 0
    decreases |xs|
  {
    |xs| >= 2 ==>
      xs[0] % p != 0 && Congruent(xs[0] + xs[1], 0, p) && NonZeroNegatives(Rest(xs), p)
  }

  /** Non-zero points whose neighbours are negatives of each other at every squaring level. */
  predicate Paired(xs: seq<nat>, k: nat, p: nat)
    requires p > 0
    decreases k
  {
    && |xs| == Two(k)
    && (k > 0 ==> NonZeroNegatives(xs, p) && Paired(NextPoints(xs, Two(k - 1), p), k - 1, p))
  }

  lemma {:induction false} NegativesAreOpposites(xs: seq<nat>, p: nat)
    requires Prime(p) && NonZeroNegatives(xs, p)
    ensures Opposites(xs, p)
    decreases |xs|
  {
    if |xs| >= 2 {
      Fermat(xs[0], p);
      NegativesAreOpposites(Rest(xs), p);
    }
  }

  /** Modulo a prime, pairing is all that folding asks. */
  lemma {:induction false} PairedFolds(xs: seq<nat>, k: nat, p: nat)
    requires Prime(p) && Paired(xs, k, p)
    ensures Folds(xs, k, p)
    decreases k
  {
    if k > 0 {
      NegativesAreOpposites(xs, p);
      PairedFolds(NextPoints(xs, Two(k - 1), p), k - 1, p);
    }
  }

  lemma OddPrimeUnit(p: nat)
    requires Prime(p) && p % 2 == 1
    ensures Unit(2, p)
  {
    ReducedIs(2, p);
    Fermat(2, p);
  }

  /** For every odd prime and every paired list of points, the two transforms are mutually inverse. */
  lemma TransformsInverse(e: seq<nat>, xs: seq<nat>, k: nat, p: nat)
    requires Prime(p) && p % 2 == 1 && Paired(xs, k, p)
    requires |e| == Two(k) && Reduced(e, p)
    ensures Foldable(Values(e, xs, p), xs, p)
    ensures Interpolation(Values(e, xs, p), xs, p) == e
    ensures Foldable(e, xs, p)
    ensures Values(Interpolation(e, xs, p), xs, p) == e
  {
    OddPrimeUnit(p);
    PairedFolds(xs, k, p);
    RecoverCoefficients(e, xs, k, p);
    RecoverValues(e, xs, k, p);
  }
}

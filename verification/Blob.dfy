/** Blob transform and recovery at the bit-reversed roots of unity. */
module Blob {
  import opened NumberTheory
  import opened Fourier
  import opened FourierInverse
  import opened Bits
  import opened BlsCertificate
  import opened Outcomes

  const BLOB_LEN: nat := 4096

  /** Evaluation point `i`: the printed index, reversed character by character, is the exponent. */
  function Point(i: nat): nat {
    ModPow(GENERATOR, FromBinary(Reverse(FormatBinary(i, 12))), BLS_MODULUS)
  }

  function Points(): (xs: seq<nat>)
    ensures |xs| == BLOB_LEN
  {
    seq(BLOB_LEN, i requires 0 <= i => Point(i))
  }

  /** What `transform` returns: the values of the data polynomial at the first points. */
  function Transformed(data: seq<nat>): seq<nat>
    requires |data| <= BLOB_LEN
  {
    Values(data, Points()[..|data|], BLS_MODULUS)
  }

  /** What `recover` returns, if it returns. */
  function Recovered(data: seq<nat>): Option<seq<nat>> {
    TryIfft(data, Points(), BLS_MODULUS)
  }

  method Transform(data: seq<nat>) returns (values: seq<nat>)
    requires |data| <= BLOB_LEN
    ensures values == Transformed(data)
  {
    values := Fft(data, Points(), BLS_MODULUS);
  }

  method Recover(data: seq<nat>) returns (words: Option<seq<nat>>)
    ensures words == Recovered(data)
  {
    words := Ifft(data, Points(), BLS_MODULUS);
  }

  // ---- Bit-reversed powers fold -----------------------------------------

  /** `xs` lists the powers of `w` in bit-reversed order. */
  predicate BitReversedPowers(xs: seq<nat>, w: nat, k: nat, p: nat)
    requires p > 0
  {
    |xs| == Two(k) && forall i :: 0 <= i < |xs| ==> xs[i] == ModPow(w, BitReverse(i, k), p)
  }

  /** `w` has `w^(2^(k-1)) = -1`, so that it generates `2^k` points. */
  predicate HalfTurnRoot(w: nat, k: nat, p: nat)
    requires p >= 2
  {
    Unit(w, p) && (k > 0 ==> Congruent(Pow(w, Two(k - 1)) + 1, 0, p))
  }

  predicate OppositeAt(xs: seq<nat>, i: nat, p: nat)
    requires p >= 2 && 2 * i + 1 < |xs|
  {
    Unit(xs[2 * i], p) && Congruent(xs[2 * i] + xs[2 * i + 1], 0, p)
  }

  lemma {:induction false} OppositesFromPairs(xs: seq<nat>, p: nat)
    requires p >= 2 && |xs| % 2 == 0
    requires forall i :: 0 <= i < |xs| / 2 ==> OppositeAt(xs, i, p)
    ensures Opposites(xs, p)
    decreases |xs|
  {
    hide Unit;
    if xs != [] {
      assert OppositeAt(xs, 0, p);
      forall i | 0 <= i < |Rest(xs)| / 2 ensures OppositeAt(Rest(xs), i, p) {
        assert OppositeAt(xs, i + 1, p);
      }
      OppositesFromPairs(Rest(xs), p);
    }
  }

  lemma BitReversePair(i: nat, k: nat)
    requires k > 0
    ensures BitReverse(2 * i, k) == BitReverse(i, k - 1)
    ensures BitReverse(2 * i + 1, k) == Two(k - 1) + BitReverse(i, k - 1)
  {
    assert (2 * i) % 2 == 0 && (2 * i) / 2 == i;
    assert (2 * i + 1) % 2 == 1 && (2 * i + 1) / 2 == i;
  }

  /** Exponents that differ by the half turn give opposite points. */
  lemma HalfTurnOpposite(w: nat, t: nat, r: nat, p: nat)
    requires p >= 2 && Unit(w, p) && Congruent(Pow(w, t) + 1, 0, p)
    ensures Unit(ModPow(w, r, p), p)
    ensures Congruent(ModPow(w, r, p) + ModPow(w, t + r, p), 0, p)
  {
    hide Pow, Unit;
    var y, z := Pow(w, r), Pow(w, t);
    UnitPower(w, r, p);
    CongruentMod(y, p);
    UnitCongruent(y, ModPow(w, r, p), p);
    PowAdd(w, t, r);
    CongruentMod(z * y, p);
    CongruentAdd(ModPow(w, r, p), y, ModPow(w, t + r, p), z * y, p);
    CongruentMul(z + 1, 0, y, y, p);
    assert y + z * y == (z + 1) * y;
    ModMultiple(0, p);
  }

  lemma TwoDoubles(k: nat)
    requires k > 0
    ensures Two(k) == 2 * Two(k - 1)
  {
  }

  lemma PowersAreOpposites(xs: seq<nat>, w: nat, k: nat, p: nat)
    requires p >= 2 && k > 0 && BitReversedPowers(xs, w, k, p) && HalfTurnRoot(w, k, p)
    ensures Opposites(xs, p)
  {
    TwoDoubles(k);
    hide Unit, ModPow, Pow, Two;
    TwoIsPower(k);
    forall i | 0 <= i < |xs| / 2 ensures OppositeAt(xs, i, p) {
      BitReversePair(i, k);
      HalfTurnOpposite(w, Two(k - 1), BitReverse(i, k - 1), p);
    }
    OppositesFromPairs(xs, p);
  }

  lemma SquareOfPower(w: nat, r: nat, p: nat)
    requires p > 0
    ensures ModPow(ModPow(w, r, p), 2, p) == ModPow(w * w, r, p)
  {
    var y := Pow(w, r);
    Square(ModPow(w, r, p));
    CongruentMod(y, p);
    CongruentMul(ModPow(w, r, p), y, ModPow(w, r, p), y, p);
    PowProduct(w, w, r);
  }

  /** The squared even-indexed points are again bit-reversed powers, of the squared root. */
  lemma SquaredPowers(xs: seq<nat>, w: nat, k: nat, p: nat)
    requires p >= 2 && k > 0 && BitReversedPowers(xs, w, k, p)
    ensures BitReversedPowers(NextPoints(xs, Two(k - 1), p), w * w, k - 1, p)
  {
    hide ModPow;
    var next := NextPoints(xs, Two(k - 1), p);
    forall i | 0 <= i < |next| ensures next[i] == ModPow(w * w, BitReverse(i, k - 1), p) {
      NextPointsAt(xs, Two(k - 1), p, i);
      BitReversePair(i, k);
      SquareOfPower(w, BitReverse(i, k - 1), p);
    }
  }

  lemma SquaredRoot(w: nat, k: nat, p: nat)
    requires p >= 2 && k > 0 && HalfTurnRoot(w, k, p)
    ensures HalfTurnRoot(w * w, k - 1, p)
  {
    UnitProduct(w, w, p);
    if k > 1 {
      PowProduct(w, w, Two(k - 2));
      PowAdd(w, Two(k - 2), Two(k - 2));
    }
  }

  /** The pairing holds through the whole recursion, for every root that makes a half turn. */
  lemma {:induction false} PowersFold(xs: seq<nat>, w: nat, k: nat, p: nat)
    requires p >= 2 && BitReversedPowers(xs, w, k, p) && HalfTurnRoot(w, k, p)
    ensures Folds(xs, k, p)
    decreases k
  {
    hide Unit, ModPow, BitReversedPowers, HalfTurnRoot;
    PowersCount(xs, w, k, p);
    if k > 0 {
      PowersAreOpposites(xs, w, k, p);
      SquaredPowers(xs, w, k, p);
      SquaredRoot(w, k, p);
      PowersFold(NextPoints(xs, Two(k - 1), p), w * w, k - 1, p);
    }
  }

  lemma PowersCount(xs: seq<nat>, w: nat, k: nat, p: nat)
    requires p > 0 && BitReversedPowers(xs, w, k, p)
    ensures |xs| == Two(k)
  {
  }

  // ---- The EIP-4844 points ----------------------------------------------

  lemma PointIs(i: nat)
    requires i < BLOB_LEN
    ensures Point(i) == ModPow(GENERATOR, BitReverse(i, 12), BLS_MODULUS)
  {
    BlobLength();
    FormatIsLow(i, 12);
    ParseReversed(i, 12);
  }

  lemma BlobLength()
    ensures Two(12) == BLOB_LEN && Two(11) == 2048
  {
    assert Two(4) == 16;
    assert Two(8) == 256;
    assert Two(11) == 2048;
  }

  /** Reversing more bits than the index has only shifts the reversal. */
  lemma {:induction false} BitReverseShift(i: nat, j: nat, k: nat)
    requires j <= k && i < Two(j)
    ensures BitReverse(i, k) == Two(k - j) * BitReverse(i, j)
    decreases k
  {
    if j == 0 {
      if k > 0 { BitReverseShift(0, 0, k - 1); }
    } else {
      BitReverseShift(i / 2, j - 1, k - 1);
      TwoProduct(k - j, j - 1);
      ShiftAlgebra(i % 2, Two(k - j), Two(j - 1), BitReverse(i / 2, j - 1));
    }
  }

  lemma ShiftAlgebra(d: int, s: int, t: int, r: int)
    ensures d * (s * t) + s * r == s * (d * t + r)
  {
  }

  lemma GeneratorIsUnit()
    ensures Unit(GENERATOR, BLS_MODULUS)
  {
    var p, q := BLS_MODULUS, (BLS_MODULUS - 1) / 4096;
    FullTurn(p, q);
  }

  lemma FullTurn(p: nat, q: nat)
    requires p == BLS_MODULUS && 4096 * q == p - 1
    ensures Pow(GENERATOR, p - 1) % p == 1
  {
    hide Pow;
    var h := Pow(GENERATOR, 2048);
    GeneratorHalfTurn();
    CongruentAdd(h + 1, 0, 1, 1, p);
    CongruentMul(h, -1, h, -1, p);
    PowAdd(GENERATOR, 2048, 2048);
    CongruentPow(Pow(GENERATOR, 4096), 1, q, p);
    PowOne(q);
    PowPow(GENERATOR, 4096, q);
    ModUnique(1, 0, 1, p);
  }

  /** The root whose bit-reversed powers are the first `2^j` points. */
  function Root(j: nat): (w: nat)
    requires j <= 12
  {
    PowNonNegative(GENERATOR, Two(12 - j));
    Pow(GENERATOR, Two(12 - j))
  }

  lemma RootHalfTurn(j: nat)
    requires j <= 12
    ensures HalfTurnRoot(Root(j), j, BLS_MODULUS)
  {
    hide Pow, Unit;
    GeneratorIsUnit();
    UnitPower(GENERATOR, Two(12 - j), BLS_MODULUS);
    if j > 0 {
      PowPow(GENERATOR, Two(12 - j), Two(j - 1));
      TwoProduct(12 - j, j - 1);
      BlobLength();
      GeneratorHalfTurn();
    }
  }

  lemma FirstPoints(j: nat)
    requires j <= 12 && Two(j) <= BLOB_LEN
    ensures BitReversedPowers(Points()[..Two(j)], Root(j), j, BLS_MODULUS)
  {
    hide ModPow, Pow, BitReverse, Point;
    var xs := Points()[..Two(j)];
    forall i | 0 <= i < |xs| ensures xs[i] == ModPow(Root(j), BitReverse(i, j), BLS_MODULUS) {
      PointIs(i);
      BitReverseShift(i, j, 12);
      PowerOfPower(GENERATOR, Two(12 - j), BitReverse(i, j), BLS_MODULUS);
    }
  }

  lemma PowerOfPower(w: nat, m: nat, n: nat, p: nat)
    requires p > 0
    ensures m * n >= 0
    ensures ModPow(w, m * n, p) == ModPow(Pow(w, m), n, p)
  {
    PowPow(w, m, n);
  }

  lemma FirstPointsFold(j: nat)
    requires j <= 12 && Two(j) <= BLOB_LEN
    ensures Folds(Points()[..Two(j)], j, BLS_MODULUS)
  {
    hide BitReversedPowers, HalfTurnRoot, Folds;
    RootHalfTurn(j);
    FirstPoints(j);
    PowersFold(Points()[..Two(j)], Root(j), j, BLS_MODULUS);
  }

  // ---- Only the first points matter -------------------------------------

  lemma {:induction false} PrefixDifferences(arr: seq<nat>, xs: seq<nat>, ys: seq<nat>, p: nat)
    requires p >= 2 && 2 * (|arr| / 2) <= |ys| + 1 && ys <= xs && Subtractable(arr, p)
    ensures HalfDifferences(arr, xs, p) == HalfDifferences(arr, ys, p)
    ensures NextPoints(xs, |arr| / 2, p) == NextPoints(ys, |arr| / 2, p)
    decreases |arr|
  {
    hide DivMod, ModPow, Difference;
    if |arr| >= 2 {
      RestPrefix(xs, ys);
      PrefixDifferences(Rest(arr), Rest(xs), Rest(ys), p);
    }
  }

  lemma RestPrefix(xs: seq<nat>, ys: seq<nat>)
    requires ys <= xs
    ensures Rest(ys) <= Rest(xs)
  {
  }

  lemma PrefixInterpolation(arr: seq<nat>, xs: seq<nat>, ys: seq<nat>, p: nat)
    requires Foldable(arr, ys, p) && ys <= xs
    ensures Foldable(arr, xs, p) && Interpolation(arr, xs, p) == Interpolation(arr, ys, p)
  {
    hide DivMod, ModPow, Difference, HalfSums, HalfDifferences, NextPoints;
    if |arr| > 1 {
      PrefixDifferences(arr, xs, ys, p);
      InterpolationStep(arr, xs, p);
      InterpolationStep(arr, ys, p);
    }
  }

  // ---- Round trips ------------------------------------------------------

  lemma {:induction false} ExponentOf(n: nat) returns (k: nat)
    requires PowerOfTwo(n)
    ensures n == Two(k)
  {
    if n == 1 {
      k := 0;
    } else {
      k := ExponentOf(n / 2);
      k := k + 1;
    }
  }

  lemma {:induction false} TwoMonotone(j: nat, k: nat)
    requires Two(j) <= Two(k)
    ensures j <= k
  {
    if j > 0 && k > 0 { TwoMonotone(j - 1, k - 1); }
  }

  lemma BlobExponent(n: nat) returns (k: nat)
    requires PowerOfTwo(n) && n <= BLOB_LEN
    ensures n == Two(k) && k <= 12
  {
    k := ExponentOf(n);
    BlobLength();
    TwoMonotone(k, 12);
  }

  /** Recovering transformed data gives the data back, for every power-of-two length up to a blob. */
  lemma RecoverTransform(data: seq<nat>)
    requires PowerOfTwo(|data|) && |data| <= BLOB_LEN && Reduced(data, BLS_MODULUS)
    ensures Recovered(Transformed(data)) == Some(data)
  {
    hide Folds, Interpolation, Values, Points, Point, TryIfft, Foldable;
    var k := BlobExponent(|data|);
    var xs := Points()[..Two(k)];
    TwoIsUnit();
    FirstPointsFold(k);
    RecoverCoefficients(data, xs, k, BLS_MODULUS);
    PrefixInterpolation(Transformed(data), Points(), xs, BLS_MODULUS);
    IfftReturnsIff(Transformed(data), Points(), BLS_MODULUS);
  }

  /** Transforming recovered values gives the values back. */
  lemma TransformRecover(values: seq<nat>)
    requires PowerOfTwo(|values|) && |values| <= BLOB_LEN && Reduced(values, BLS_MODULUS)
    ensures Recovered(values).Some? && |Recovered(values).value| == |values|
    ensures Transformed(Recovered(values).value) == values
  {
    hide Folds, Interpolation, Values, Points, Point, TryIfft, Foldable;
    var k := BlobExponent(|values|);
    var xs := Points()[..Two(k)];
    TwoIsUnit();
    FirstPointsFold(k);
    RecoverValues(values, xs, k, BLS_MODULUS);
    PrefixInterpolation(values, Points(), xs, BLS_MODULUS);
    IfftReturnsIff(values, Points(), BLS_MODULUS);
    TwoIsPower(k);
  }

  lemma {:induction false} MergeReduced(a: seq<nat>, b: seq<nat>, p: nat)
    requires |a| == |b| && Reduced(a, p) && Reduced(b, p)
    ensures Reduced(Merge(a, b), p)
  {
    if a != [] { MergeReduced(a[1..], b[1..], p); }
  }

  lemma {:induction false} InterpolationReduced(arr: seq<nat>, xs: seq<nat>, p: nat)
    requires Foldable(arr, xs, p) && Reduced(arr, p)
    ensures Reduced(Interpolation(arr, xs, p), p)
    decreases |arr|
  {
    hide DivMod, ModPow, Difference;
    if |arr| > 1 {
      var points := NextPoints(xs, |arr| / 2, p);
      InterpolationStep(arr, xs, p);
      InterpolationReduced(HalfSums(arr, p), points, p);
      InterpolationReduced(HalfDifferences(arr, xs, p), points, p);
      MergeReduced(Interpolation(HalfSums(arr, p), points, p), Interpolation(HalfDifferences(arr, xs, p), points, p), p);
    }
  }

  /** `recover` returns exactly for the lengths below, as long as the blob has points and no value is far above its neighbour. */
  lemma RecoverReturnsIff(data: seq<nat>)
    ensures Recovered(data).Some? <==>
            |data| == 1 || (FoldableLength(|data|) && |data| <= BLOB_LEN + 1 && Subtractable(data, BLS_MODULUS))
  {
    hide Interpolation, Point, TryIfft, Points, Subtractable, PowerOfTwo;
    IfftReturnsIff(data, Points(), BLS_MODULUS);
    if FoldableLength(|data|) && |data| > BLOB_LEN + 1 { LongerThanBlob(|data|); }
  }

  lemma LongerThanBlob(n: nat)
    requires n > BLOB_LEN + 1
    ensures 2 * (n / 2) > BLOB_LEN + 1
  {
  }

  /**
    Recovery undoes the transform exactly for reduced data of power-of-two length. On other lengths it does not
    return, or it loses the last word; larger words come back reduced.
   */
  lemma RecoverTransformExactly(data: seq<nat>)
    requires |data| <= BLOB_LEN
    ensures Recovered(Transformed(data)) == Some(data) <==> PowerOfTwo(|data|) && Reduced(data, BLS_MODULUS)
  {
    hide Folds, Interpolation, Values, Points, Point, TryIfft;
    var v := Transformed(data);
    IfftReturnsIff(v, Points(), BLS_MODULUS);
    if PowerOfTwo(|data|) && Reduced(data, BLS_MODULUS) {
      RecoverTransform(data);
    }
    if Recovered(v) == Some(data) {
      InterpolationReduced(v, Points(), BLS_MODULUS);
      EvenLength(|data|);
    }
  }

  lemma EvenLength(n: nat)
    requires FoldableLength(n) && (n == 1 || n == 2 * (n / 2))
    ensures PowerOfTwo(n)
  {
  }
}

/**
  The evaluation and interpolation routines of the blob codec.

  `Fft` evaluates a polynomial at given points by Horner's rule; `Ifft` folds
  neighbouring values and recurses on half-length lists.
 */
module Fourier {
  import opened NumberTheory
  import opened Outcomes

  function Two(k: nat): (r: nat)
    ensures r >= 1
  {
    PowPositive(k);
    Pow(2, k)
  }

  lemma PowPositive(k: nat)
    ensures Pow(2, k) >= 1
  {
  }

  lemma TwoProduct(m: nat, n: nat)
    ensures Two(m) * Two(n) == Two(m + n)
  {
    PowAdd(2, m, n);
  }

  predicate Reduced(s: seq<nat>, p: nat) {
    forall i :: 0 <= i < |s| ==> s[i] < p
  }

  // ---- Evaluation -------------------------------------------------------

  /** The polynomial with coefficients `e`, lowest degree first, at `x`. */
  function Eval(e: seq<nat>, x: nat): nat {
    if e == [] then 0 else e[0] + x * Eval(e[1..], x)
  }

  function Value(e: seq<nat>, x: nat, p: nat): (r: nat)
    requires p > 0
    ensures r < p
  {
    Eval(e, x) % p
  }

  /** The values of `e` at each of the points. */
  function Values(e: seq<nat>, points: seq<nat>, p: nat): (r: seq<nat>)
    requires p > 0
    ensures |r| == |points| && Reduced(r, p)
  {
    if points == [] then [] else [Value(e, points[0], p)] + Values(e, points[1..], p)
  }

  lemma {:induction false} ValuesAt(e: seq<nat>, points: seq<nat>, p: nat, i: nat)
    requires p > 0 && i < |points|
    ensures Values(e, points, p)[i] == Value(e, points[i], p)
  {
    if i > 0 { ValuesAt(e, points[1..], p, i - 1); }
  }

  lemma HornerStep(v: nat, w: nat, x: nat, c: nat, p: nat)
    requires p > 0 && v == w % p
    ensures (v * x + c) % p == (c + x * w) % p
  {
    CongruentMod(w, p);
    CongruentMul(v, w, x, x, p);
    CongruentAdd(v * x, w * x, c, c, p);
  }

  method Fft(elements: seq<nat>, xs: seq<nat>, p: nat) returns (values: seq<nat>)
    requires p > 0 && |elements| <= |xs|
    ensures values == Values(elements, xs[..|elements|], p)
  {
    var n := |elements|;
    var transform := new nat[n](_ => 0);
    for i := 0 to n
      invariant forall k :: 0 <= k < i ==> transform[k] == Value(elements, xs[k], p)
      invariant forall k :: i <= k < n ==> transform[k] == 0
    {
      var j := n;
      ModMultiple(0, p);
      while j > 0
        invariant 0 <= j <= n
        invariant transform[i] == Value(elements[j..], xs[i], p)
        invariant forall k :: 0 <= k < i ==> transform[k] == Value(elements, xs[k], p)
        invariant forall k :: i < k < n ==> transform[k] == 0
      {
        j := j - 1;
        assert elements[j..][1..] == elements[j + 1..];
        HornerStep(transform[i], Eval(elements[j + 1..], xs[i]), xs[i], elements[j], p);
        transform[i] := (transform[i] * xs[i] + elements[j]) % p;
      }
      assert elements[0..] == elements;
    }
    values := transform[..];
    forall i | 0 <= i < n ensures values[i] == Values(elements, xs[..n], p)[i] {
      ValuesAt(elements, xs[..n], p, i);
    }
  }

  // ---- Splitting by parity ----------------------------------------------

  /** What is left after the first pair. */
  function Rest(s: seq<nat>): (r: seq<nat>)
    ensures |r| == if |s| <= 2 then 0 else |s| - 2
  {
    if |s| <= 2 then [] else s[2..]
  }

  function Evens(s: seq<nat>): (r: seq<nat>)
    ensures |r| == |s| / 2
    decreases |s|
  {
    if |s| < 2 then [] else [s[0]] + Evens(Rest(s))
  }

  function Odds(s: seq<nat>): (r: seq<nat>)
    ensures |r| == |s| / 2
    decreases |s|
  {
    if |s| < 2 then [] else [s[1]] + Odds(Rest(s))
  }

  function Merge(a: seq<nat>, b: seq<nat>): (r: seq<nat>)
    requires |a| == |b|
    ensures |r| == 2 * |a|
  {
    if a == [] then [] else [a[0], b[0]] + Merge(a[1..], b[1..])
  }

  lemma {:induction false} MergeSplits(a: seq<nat>, b: seq<nat>)
    requires |a| == |b|
    ensures Evens(Merge(a, b)) == a && Odds(Merge(a, b)) == b
  {
    if a != [] {
      MergeSplits(a[1..], b[1..]);
      assert Rest(Merge(a, b)) == Merge(a[1..], b[1..]);
    }
  }

  lemma {:induction false} SplitMerges(s: seq<nat>)
    requires |s| % 2 == 0
    ensures Merge(Evens(s), Odds(s)) == s
    decreases |s|
  {
    if s != [] {
      SplitMerges(Rest(s));
      assert Evens(s)[1..] == Evens(Rest(s)) && Odds(s)[1..] == Odds(Rest(s));
      assert s == [s[0], s[1]] + Rest(s);
    }
  }

  lemma SplitAlgebra(x: int, a: int, b: int, e: int, o: int)
    ensures a + x * (b + x * (e + x * o)) == (a + (x * x) * e) + x * (b + (x * x) * o)
  {
  }

  /** A polynomial is its even part at `x * x` plus `x` times its odd part there. */
  lemma {:induction false} EvalSplit(e: seq<nat>, x: nat)
    requires |e| % 2 == 0
    ensures Eval(e, x) == Eval(Evens(e), x * x) + x * Eval(Odds(e), x * x)
    decreases |e|
  {
    if e != [] {
      var rest := Rest(e);
      EvalSplit(rest, x);
      assert Evens(e)[1..] == Evens(rest) && Odds(e)[1..] == Odds(rest);
      assert e[1..][1..] == rest;
      SplitAlgebra(x, e[0], e[1], Eval(Evens(rest), x * x), Eval(Odds(rest), x * x));
    }
  }

  lemma {:induction false} EvalCongruent(e: seq<nat>, x: nat, y: nat, p: nat)
    requires p > 0 && Congruent(x, y, p)
    ensures Congruent(Eval(e, x), Eval(e, y), p)
  {
    if e != [] {
      EvalCongruent(e[1..], x, y, p);
      CongruentMul(x, y, Eval(e[1..], x), Eval(e[1..], y), p);
      CongruentAdd(e[0], e[0], x * Eval(e[1..], x), y * Eval(e[1..], y), p);
    }
  }

  // ---- Interpolation ----------------------------------------------------

  predicate PowerOfTwo(n: nat) {
    n == 1 || (n > 1 && n % 2 == 0 && PowerOfTwo(n / 2))
  }

  /** A length on which `ifft` returns: a power of two, or one more than a power of two. */
  predicate FoldableLength(n: nat) {
    n == 1 || PowerOfTwo(n / 2)
  }

  /** No subtraction of neighbours underflows. */
  predicate Subtractable(arr: seq<nat>, p: nat)
    decreases |arr|
  {
    |arr| >= 2 ==> arr[1] <= arr[0] + p && Subtractable(Rest(arr), p)
  }

  /** The loop over the pairs neither runs out of points nor underflows. */
  predicate PairsFold(arr: seq<nat>, xs: seq<nat>, p: nat) {
    p >= 2 && 2 * (|arr| / 2) <= |xs| + 1 && Subtractable(arr, p)
  }

  /** The arguments on which `ifft` returns; see `IfftReturnsIff`. */
  predicate Foldable(arr: seq<nat>, xs: seq<nat>, p: nat) {
    |arr| == 1 || (FoldableLength(|arr|) && PairsFold(arr, xs, p))
  }

  function Difference(a: nat, b: nat, p: nat): nat
    requires b <= a + p
  {
    if b > a then p - (b - a) else a - b
  }

  function HalfSums(arr: seq<nat>, p: nat): (r: seq<nat>)
    requires p >= 2
    ensures |r| == |arr| / 2 && Reduced(r, p)
    decreases |arr|
  {
    if |arr| < 2 then []
    else [DivMod(arr[0] + arr[1], 2, p)] + HalfSums(Rest(arr), p)
  }

  function HalfDifferences(arr: seq<nat>, xs: seq<nat>, p: nat): (r: seq<nat>)
    requires p >= 2 && 2 * (|arr| / 2) <= |xs| + 1 && Subtractable(arr, p)
    ensures |r| == |arr| / 2 && Reduced(r, p)
    decreases |arr|
  {
    if |arr| < 2 then []
    else [DivMod(Difference(arr[0], arr[1], p), 2 * xs[0], p)] + HalfDifferences(Rest(arr), Rest(xs), p)
  }

  function NextPoints(xs: seq<nat>, n: nat, p: nat): (r: seq<nat>)
    requires p > 0 && 2 * n <= |xs| + 1
    ensures |r| == n
    decreases n
  {
    if n == 0 then [] else [ModPow(xs[0], 2, p)] + NextPoints(Rest(xs), n - 1, p)
  }

  lemma {:induction false} ReducedSubtractable(arr: seq<nat>, p: nat)
    requires Reduced(arr, p)
    ensures Subtractable(arr, p)
    decreases |arr|
  {
    if |arr| >= 2 { ReducedSubtractable(Rest(arr), p); }
  }

  lemma ReducedFoldable(arr: seq<nat>, xs: seq<nat>, p: nat)
    requires p >= 2 && Reduced(arr, p) && PowerOfTwo(|arr|) && |arr| <= |xs| + 1
    ensures Foldable(arr, xs, p)
  {
    ReducedSubtractable(arr, p);
  }

  /** The recursion of `ifft`. An odd last value is dropped. */
  function Interpolation(arr: seq<nat>, xs: seq<nat>, p: nat): (r: seq<nat>)
    requires Foldable(arr, xs, p)
    ensures |r| == if |arr| == 1 then 1 else 2 * (|arr| / 2)
    decreases |arr|
  {
    if |arr| == 1 then arr
    else
      var n := |arr| / 2;
      var sums, diffs, points := HalfSums(arr, p), HalfDifferences(arr, xs, p), NextPoints(xs, n, p);
      ReducedFoldable(sums, points, p);
      ReducedFoldable(diffs, points, p);
      Merge(Interpolation(sums, points, p), Interpolation(diffs, points, p))
  }

  lemma RestAt(s: seq<nat>, j: nat)
    requires 2 <= j < |s|
    ensures Rest(s)[j - 2] == s[j]
  {
  }

  lemma HalfSumsUnfold(arr: seq<nat>, p: nat)
    requires p >= 2 && |arr| >= 2
    ensures HalfSums(arr, p) == [DivMod(arr[0] + arr[1], 2, p)] + HalfSums(Rest(arr), p)
  {
  }

  lemma {:induction false} HalfSumsAt(arr: seq<nat>, p: nat, i: nat)
    requires p >= 2 && i < |arr| / 2
    ensures HalfSums(arr, p)[i] == DivMod(arr[2 * i] + arr[2 * i + 1], 2, p)
    decreases i
  {
    hide *;
    HalfSumsUnfold(arr, p);
    if i > 0 {
      HalfSumsAt(Rest(arr), p, i - 1);
      RestAt(arr, 2 * i);
      RestAt(arr, 2 * i + 1);
    }
  }

  lemma HalfDifferencesUnfold(arr: seq<nat>, xs: seq<nat>, p: nat)
    requires p >= 2 && 2 * (|arr| / 2) <= |xs| + 1 && Subtractable(arr, p) && |arr| >= 2
    ensures arr[1] <= arr[0] + p && Subtractable(Rest(arr), p)
    ensures HalfDifferences(arr, xs, p) ==
            [DivMod(Difference(arr[0], arr[1], p), 2 * xs[0], p)] + HalfDifferences(Rest(arr), Rest(xs), p)
  {
  }

  lemma {:induction false} HalfDifferencesAt(arr: seq<nat>, xs: seq<nat>, p: nat, i: nat)
    requires p >= 2 && 2 * (|arr| / 2) <= |xs| + 1 && Subtractable(arr, p) && i < |arr| / 2
    ensures arr[2 * i + 1] <= arr[2 * i] + p
    ensures HalfDifferences(arr, xs, p)[i] == DivMod(Difference(arr[2 * i], arr[2 * i + 1], p), 2 * xs[2 * i], p)
    decreases i
  {
    hide *;
    HalfDifferencesUnfold(arr, xs, p);
    if i > 0 {
      HalfDifferencesAt(Rest(arr), Rest(xs), p, i - 1);
      RestAt(arr, 2 * i);
      RestAt(arr, 2 * i + 1);
      RestAt(xs, 2 * i);
    }
  }

  lemma NextPointsUnfold(xs: seq<nat>, n: nat, p: nat)
    requires p > 0 && 2 * n <= |xs| + 1 && n > 0
    ensures NextPoints(xs, n, p) == [ModPow(xs[0], 2, p)] + NextPoints(Rest(xs), n - 1, p)
  {
  }

  lemma {:induction false} NextPointsAt(xs: seq<nat>, n: nat, p: nat, i: nat)
    requires p > 0 && 2 * n <= |xs| + 1 && i < n
    ensures NextPoints(xs, n, p)[i] == ModPow(xs[2 * i], 2, p)
    decreases i
  {
    hide *;
    NextPointsUnfold(xs, n, p);
    if i > 0 {
      NextPointsAt(Rest(xs), n - 1, p, i - 1);
      RestAt(xs, 2 * i);
    }
  }

  lemma TakeNext(s: seq<nat>, k: nat)
    requires k < |s|
    ensures s[..k + 1] == s[..k] + [s[k]]
  {
  }

  lemma TakeAll(s: seq<nat>)
    ensures s[..|s|] == s
  {
  }

  // ---- Where the recursion returns --------------------------------------

  datatype Folded = Folded(sums: seq<nat>, quotients: seq<nat>, points: seq<nat>)

  /** The loop over the pairs; absent when it runs out of points or underflows. */
  function TryFold(arr: seq<nat>, xs: seq<nat>, p: nat): (r: Option<Folded>)
    ensures r.Some? ==> |r.value.sums| == |r.value.quotients| == |arr| / 2
    decreases |arr|
  {
    if |arr| < 2 then Some(Folded([], [], []))
    else if xs == [] || p < 2 || arr[1] > arr[0] + p then None
    else match TryFold(Rest(arr), Rest(xs), p)
      case None => None
      case Some(f) =>
        Some(Folded([DivMod(arr[0] + arr[1], 2, p)] + f.sums,
                    [DivMod(Difference(arr[0], arr[1], p), 2 * xs[0], p)] + f.quotients,
                    [ModPow(xs[0], 2, p)] + f.points))
  }

  /**
    The whole recursion; absent when it never ends, which is the case of the empty list, when the loop over the
    pairs fails, and when a recursive result is too short to be merged.
   */
  function TryIfft(arr: seq<nat>, xs: seq<nat>, p: nat): Option<seq<nat>>
    decreases |arr|
  {
    if arr == [] then None
    else if |arr| == 1 then Some(arr)
    else match TryFold(arr, xs, p)
      case None => None
      case Some(f) => TryMerge(TryIfft(f.sums, f.points, p), TryIfft(f.quotients, f.points, p), |arr| / 2)
  }

  function TryMerge(a: Option<seq<nat>>, b: Option<seq<nat>>, n: nat): Option<seq<nat>> {
    if a.Some? && b.Some? && |a.value| >= n && |b.value| >= n then Some(Merge(a.value[..n], b.value[..n])) else None
  }

  lemma {:induction false} TryFoldIs(arr: seq<nat>, xs: seq<nat>, p: nat)
    requires |arr| >= 2
    ensures TryFold(arr, xs, p).Some? <==> PairsFold(arr, xs, p)
    ensures PairsFold(arr, xs, p) ==>
              TryFold(arr, xs, p) ==
              Some(Folded(HalfSums(arr, p), HalfDifferences(arr, xs, p), NextPoints(xs, |arr| / 2, p)))
    decreases |arr|
  {
    hide DivMod, ModPow, Difference;
    if |arr| >= 4 {
      TryFoldIs(Rest(arr), Rest(xs), p);
    } else {
      assert TryFold(Rest(arr), Rest(xs), p) == Some(Folded([], [], [])) && Subtractable(Rest(arr), p);
    }
  }

  lemma HalvesFoldable(arr: seq<nat>, points: seq<nat>, p: nat)
    requires p >= 2 && Reduced(arr, p) && |points| == |arr| >= 1
    ensures Foldable(arr, points, p) <==> FoldableLength(|arr|)
  {
    ReducedSubtractable(arr, p);
  }

  lemma MergeableLength(n: nat)
    requires n >= 1
    ensures PowerOfTwo(n) <==> FoldableLength(n) && (n == 1 || 2 * (n / 2) >= n)
  {
  }

  /**
    `ifft` returns if and only if the length is a power of two or one more than one, there are enough points and
    no subtraction underflows; then it returns the interpolation.
   */
  lemma {:induction false} IfftReturnsIff(arr: seq<nat>, xs: seq<nat>, p: nat)
    ensures TryIfft(arr, xs, p) == if Foldable(arr, xs, p) then Some(Interpolation(arr, xs, p)) else None
    decreases |arr|
  {
    hide DivMod, ModPow, Difference, HalfSums, HalfDifferences, NextPoints, TryFold, PairsFold, PowerOfTwo;
    if |arr| >= 2 {
      TryFoldIs(arr, xs, p);
      if PairsFold(arr, xs, p) {
        FoldIsGood(arr, xs, p);
        var n := |arr| / 2;
        var f := TryFold(arr, xs, p).value;
        HalvesFoldable(f.sums, f.points, p);
        HalvesFoldable(f.quotients, f.points, p);
        IfftReturnsIff(f.sums, f.points, p);
        IfftReturnsIff(f.quotients, f.points, p);
        MergeableLength(n);
        if PowerOfTwo(n) {
          MergeWhole(Interpolation(f.sums, f.points, p), Interpolation(f.quotients, f.points, p), n);
        }
      }
    } else if arr == [] {
      NotPowerOfTwo();
    }
  }

  lemma FoldIsGood(arr: seq<nat>, xs: seq<nat>, p: nat)
    requires |arr| >= 2 && PairsFold(arr, xs, p)
    ensures p >= 2 && TryFold(arr, xs, p).Some?
    ensures var f := TryFold(arr, xs, p).value;
            && Reduced(f.sums, p) && Reduced(f.quotients, p)
            && |f.sums| == |f.quotients| == |f.points| == |arr| / 2
  {
    TryFoldIs(arr, xs, p);
  }

  lemma NotPowerOfTwo()
    ensures !PowerOfTwo(0)
  {
  }

  lemma MergeWhole(a: seq<nat>, b: seq<nat>, n: nat)
    requires |a| == |b| == n
    ensures TryMerge(Some(a), Some(b), n) == Some(Merge(a, b))
  {
    assert a[..n] == a && b[..n] == b;
  }

  /** On the empty list the recursion never ends. */
  lemma IfftOfNothing(xs: seq<nat>, p: nat)
    ensures TryIfft([], xs, p) == None
  {
  }

  /** On six values it merges past the end of a recursive result, whatever the values. */
  lemma IfftOfSix(arr: seq<nat>, xs: seq<nat>, p: nat)
    requires |arr| == 6
    ensures TryIfft(arr, xs, p) == None
  {
    IfftReturnsIff(arr, xs, p);
    assert !PowerOfTwo(3);
  }

  /** The pair of values at index `2 * k`. */
  method FoldPair(arr: seq<nat>, xs: seq<nat>, p: nat, k: nat) returns (sum: nat, quotient: nat, square: nat)
    requires p >= 2 && k < |arr| / 2 && 2 * k < |xs| && arr[2 * k + 1] <= arr[2 * k] + p
    ensures sum == HalfSums(arr, p)[k]
    ensures PairsFold(arr, xs, p) ==> quotient == HalfDifferences(arr, xs, p)[k]
    ensures PairsFold(arr, xs, p) ==> square == NextPoints(xs, |arr| / 2, p)[k]
  {
    hide DivMod, ModPow;
    var i := 2 * k;
    HalfSumsAt(arr, p, k);
    if PairsFold(arr, xs, p) {
      HalfDifferencesAt(arr, xs, p, k);
      NextPointsAt(xs, |arr| / 2, p, k);
    }
    var a, b, x := arr[i], arr[i + 1], xs[i];
    sum := DivMod(a + b, 2, p);
    var diff := if b > a then p - (b - a) else a - b;
    quotient := DivMod(diff, 2 * x, p);
    square := ModPow(x, 2, p);
  }

  lemma SubtractableAt(arr: seq<nat>, p: nat, k: nat)
    requires Subtractable(arr, p) && k < |arr| / 2
    ensures arr[2 * k + 1] <= arr[2 * k] + p
    decreases k
  {
    if k > 0 {
      SubtractableAt(Rest(arr), p, k - 1);
      RestAt(arr, 2 * k);
      RestAt(arr, 2 * k + 1);
    }
  }

  lemma {:induction false} SubtractableFrom(arr: seq<nat>, p: nat)
    requires forall k :: 0 <= k < |arr| / 2 ==> arr[2 * k + 1] <= arr[2 * k] + p
    ensures Subtractable(arr, p)
    decreases |arr|
  {
    if |arr| >= 2 {
      assert arr[2 * 0 + 1] <= arr[2 * 0] + p;
      forall k | 0 <= k < |Rest(arr)| / 2 ensures Rest(arr)[2 * k + 1] <= Rest(arr)[2 * k] + p {
        assert arr[2 * (k + 1) + 1] <= arr[2 * (k + 1)] + p;
        RestAt(arr, 2 * (k + 1));
        RestAt(arr, 2 * (k + 1) + 1);
      }
      SubtractableFrom(Rest(arr), p);
    }
  }

  /** The first loop of `ifft`: one half-sum, half-difference and squared point per pair. */
  method FoldPairs(arr: seq<nat>, xs: seq<nat>, p: nat) returns (r: Option<Folded>)
    requires |arr| >= 2
    ensures r == TryFold(arr, xs, p)
  {
    hide DivMod, ModPow, HalfSums, HalfDifferences, NextPoints, TryFold;
    TryFoldIs(arr, xs, p);
    var n := |arr| / 2;
    var res0, res1, newXs := [], [], [];
    for k := 0 to n
      invariant k > 0 ==> p >= 2
      invariant 2 * k <= |xs| + 1
      invariant forall j :: 0 <= j < k ==> arr[2 * j + 1] <= arr[2 * j] + p
      invariant PairsFold(arr, xs, p) ==>
        && res0 == HalfSums(arr, p)[..k]
        && res1 == HalfDifferences(arr, xs, p)[..k]
        && newXs == NextPoints(xs, n, p)[..k]
    {
      if 2 * k >= |xs| || p < 2 {
        return None;
      }
      if arr[2 * k + 1] > arr[2 * k] + p {
        if Subtractable(arr, p) { SubtractableAt(arr, p, k); }
        return None;
      }
      var sum, quotient, square := FoldPair(arr, xs, p, k);
      if PairsFold(arr, xs, p) {
        TakeNext(HalfSums(arr, p), k);
        TakeNext(HalfDifferences(arr, xs, p), k);
        TakeNext(NextPoints(xs, n, p), k);
      }
      res0 := res0 + [sum];
      res1 := res1 + [quotient];
      newXs := newXs + [square];
    }
    SubtractableFrom(arr, p);
    TakeAll(HalfSums(arr, p));
    TakeAll(HalfDifferences(arr, xs, p));
    TakeAll(NextPoints(xs, n, p));
    r := Some(Folded(res0, res1, newXs));
  }

  lemma {:induction false} MergeAppend(a: seq<nat>, b: seq<nat>, x: nat, y: nat)
    requires |a| == |b|
    ensures Merge(a + [x], b + [y]) == Merge(a, b) + [x, y]
  {
    if a == [] {
      assert Merge([x], [y]) == [x, y] + Merge([], []);
    } else {
      MergeAppend(a[1..], b[1..], x, y);
      assert (a + [x])[1..] == a[1..] + [x] && (b + [y])[1..] == b[1..] + [y];
    }
  }

  /** The last loop of `ifft`; it takes the first `n` values of each list. */
  method Interleave(res0: seq<nat>, res1: seq<nat>, n: nat) returns (merged: Option<seq<nat>>)
    ensures merged == TryMerge(Some(res0), Some(res1), n)
  {
    var list: seq<nat> := [];
    for i := 0 to n
      invariant i <= |res0| && i <= |res1| && list == Merge(res0[..i], res1[..i])
    {
      if i >= |res0| || i >= |res1| {
        return None;
      }
      MergeAppend(res0[..i], res1[..i], res0[i], res1[i]);
      TakeNext(res0, i);
      TakeNext(res1, i);
      list := list + [res0[i]];
      list := list + [res1[i]];
    }
    merged := Some(list);
  }

  method Ifft(arr: seq<nat>, xs: seq<nat>, p: nat) returns (r: Option<seq<nat>>)
    ensures r == TryIfft(arr, xs, p)
    decreases |arr|
  {
    hide TryFold, TryMerge;
    if arr == [] {
      return None;
    }
    if |arr| == 1 {
      return Some(arr);
    }
    var folded := FoldPairs(arr, xs, p);
    if folded.None? {
      return None;
    }
    var f := folded.value;
    var merged0 := Ifft(f.sums, f.points, p);
    var merged1 := Ifft(f.quotients, f.points, p);
    MergeFails(merged0, merged1, |arr| / 2);
    if merged0.None? || merged1.None? {
      return None;
    }
    r := Interleave(merged0.value, merged1.value, |arr| / 2);
  }

  lemma MergeFails(a: Option<seq<nat>>, b: Option<seq<nat>>, n: nat)
    ensures a.None? || b.None? ==> TryMerge(a, b, n) == None
  {
  }
}

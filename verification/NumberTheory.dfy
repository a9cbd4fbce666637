/**
  Modular arithmetic over unbounded integers, up to Fermat's little theorem.

  The data-availability code divides modulo a prime by raising the divisor to
  the power `p - 2`. Everything that makes this a division is proved here.
 */
module NumberTheory {

  // ---- Congruence -------------------------------------------------------

  /** `a` and `b` leave the same remainder modulo `p`. */
  predicate Congruent(a: int, b: int, p: nat)
    requires p > 0
  {
    a % p == b % p
  }

  lemma SmallMultiple(d: int, p: int)
    requires p > 0 && d * p < p && d * p + p > 0
    ensures d == 0
  {
    assert d >= 1 ==> d * p >= p;
    assert d <= -1 ==> d * p <= -p;
  }

  lemma ModUnique(x: int, q: int, r: int, p: nat)
    requires p > 0 && 0 <= r < p && x == q * p + r
    ensures x % p == r
  {
    var d := x / p - q;
    assert d * p == r - x % p;
    assert d * p < p && d * p + p > 0;
    SmallMultiple(d, p);
  }

  lemma ModShift(x: int, k: int, p: nat)
    requires p > 0
    ensures (x + k * p) % p == x % p
  {
    assert x + k * p == (x / p + k) * p + x % p;
    ModUnique(x + k * p, x / p + k, x % p, p);
  }

  lemma ModMultiple(k: int, p: nat)
    requires p > 0
    ensures (k * p) % p == 0
  {
    ModUnique(k * p, k, 0, p);
  }

  /** Congruent numbers differ by a multiple of the modulus. */
  lemma Multiple(a: int, b: int, p: nat) returns (k: int)
    requires p > 0 && Congruent(a, b, p)
    ensures a == b + k * p
  {
    k := a / p - b / p;
  }

  lemma CongruentAdd(a: int, a': int, b: int, b': int, p: nat)
    requires p > 0 && Congruent(a, a', p) && Congruent(b, b', p)
    ensures Congruent(a + b, a' + b', p)
    ensures Congruent(a - b, a' - b', p)
  {
    hide Congruent;
    var j := Multiple(a, a', p);
    var k := Multiple(b, b', p);
    SumShift(a, a', b, b', j, k, p);
    SumShift(a, a', -b, -b', j, -k, p) by { NegatedMultiple(k, p); }
  }

  lemma SumShift(a: int, a': int, b: int, b': int, j: int, k: int, p: nat)
    requires p > 0 && a == a' + j * p && b == b' + k * p
    ensures Congruent(a + b, a' + b', p)
  {
    SumAlgebra(j, k, p);
    ModShift(a' + b', j + k, p);
  }

  lemma SumAlgebra(j: int, k: int, p: int)
    ensures j * p + k * p == (j + k) * p
  {
  }

  lemma NegatedMultiple(k: int, p: int)
    ensures (-k) * p == -(k * p)
  {
  }

  lemma CongruentMul(a: int, a': int, b: int, b': int, p: nat)
    requires p > 0 && Congruent(a, a', p) && Congruent(b, b', p)
    ensures Congruent(a * b, a' * b', p)
  {
    var j := Multiple(a, a', p);
    var k := Multiple(b, b', p);
    ProductAlgebra(a', b', j, k, p);
    ModShift(a' * b', a' * k + j * b' + j * k * p, p);
  }

  lemma ProductAlgebra(a: int, b: int, j: int, k: int, p: int)
    ensures (a + j * p) * (b + k * p) == a * b + (a * k + j * b + j * k * p) * p
  {
  }

  /** A remainder is congruent to the number it is the remainder of. */
  lemma CongruentMod(a: int, p: nat)
    requires p > 0
    ensures Congruent(a % p, a, p)
  {
    ModUnique(a % p, 0, a % p, p);
  }

  lemma CongruentDifference(a: int, b: int, p: nat)
    requires p > 0
    ensures Congruent(a, b, p) <==> (a - b) % p == 0
  {
    if Congruent(a, b, p) {
      CongruentAdd(a, b, b, b, p);
      ModMultiple(0, p);
    }
    if (a - b) % p == 0 {
      ModShift(b, (a - b) / p, p);
    }
  }

  // ---- Powers -----------------------------------------------------------

  function Pow(b: int, e: nat): int {
    if e == 0 then 1 else b * Pow(b, e - 1)
  }

  lemma {:induction false} PowAdd(b: int, m: nat, n: nat)
    ensures Pow(b, m + n) == Pow(b, m) * Pow(b, n)
  {
    if m > 0 {
      PowAdd(b, m - 1, n);
      assert Pow(b, m + n) == b * (Pow(b, m - 1) * Pow(b, n));
    }
  }

  lemma {:induction false} PowPow(b: int, m: nat, n: nat)
    ensures 0 <= m * n
    ensures Pow(Pow(b, m), n) == Pow(b, m * n)
  {
    if n == 0 {
      assert m * n == 0;
    } else {
      PowPow(b, m, n - 1);
      assert m * n == m + m * (n - 1);
      PowAdd(b, m, m * (n - 1));
    }
  }

  lemma Regroup(a: int, b: int, x: int, y: int)
    ensures (a * b) * (x * y) == (a * x) * (b * y)
  {
  }

  lemma {:induction false} PowProduct(a: int, b: int, n: nat)
    ensures Pow(a * b, n) == Pow(a, n) * Pow(b, n)
  {
    if n > 0 {
      PowProduct(a, b, n - 1);
      Regroup(a, b, Pow(a, n - 1), Pow(b, n - 1));
    }
  }

  lemma {:induction false} PowOne(n: nat)
    ensures Pow(1, n) == 1
  {
    if n > 0 { PowOne(n - 1); }
  }

  lemma {:induction false} PowNonNegative(b: nat, n: nat)
    ensures Pow(b, n) >= 0
    ensures b > 0 ==> Pow(b, n) > 0
  {
    if n > 0 { PowNonNegative(b, n - 1); }
  }

  lemma {:induction false} CongruentPow(a: int, a': int, n: nat, p: nat)
    requires p > 0 && Congruent(a, a', p)
    ensures Congruent(Pow(a, n), Pow(a', n), p)
  {
    if n > 0 {
      CongruentPow(a, a', n - 1, p);
      CongruentMul(a, a', Pow(a, n - 1), Pow(a', n - 1), p);
    }
  }

  /** `b^e mod p`, the library's modular power. */
  function ModPow(b: int, e: nat, p: nat): (r: nat)
    requires p > 0
    ensures r < p
  {
    Pow(b, e) % p
  }

  // ---- Primes -----------------------------------------------------------

  predicate Divides(d: int, n: int)
    requires d != 0
  {
    n % d == 0
  }

  predicate Prime(p: nat) {
    p >= 2 && forall d :: 1 < d < p ==> !Divides(d, p)
  }

  /** Euclid's lemma, by descent on the reduced first factor. */
  lemma {:induction false} EuclidReduced(a: nat, b: int, p: nat)
    requires Prime(p) && 0 < a < p && (a * b) % p == 0
    ensures b % p == 0
    decreases a
  {
    if a > 1 {
      var q, r := p / a, p % a;
      assert r != 0 by { assert !Divides(a, p); }
      assert p == q * a + r;
      assert r * b == b * p - q * (a * b);
      ModMultiple(b, p);
      assert a * b == (a * b / p) * p;
      assert q * (a * b) == (q * (a * b / p)) * p;
      assert r * b == (b - q * (a * b / p)) * p;
      ModMultiple(b - q * (a * b / p), p);
      EuclidReduced(r, b, p);
    }
  }

  lemma Euclid(a: int, b: int, p: nat)
    requires Prime(p) && (a * b) % p == 0
    ensures a % p == 0 || b % p == 0
  {
    if a % p != 0 {
      CongruentMod(a, p);
      CongruentMul(a % p, a, b, b, p);
      EuclidReduced(a % p, b, p);
    }
  }

  // ---- Binomial coefficients --------------------------------------------

  function Choose(n: nat, k: nat): nat {
    if k == 0 then 1
    else if n == 0 then 0
    else Choose(n - 1, k - 1) + Choose(n - 1, k)
  }

  lemma {:induction false} ChooseBeyond(n: nat, k: nat)
    requires k > n
    ensures Choose(n, k) == 0
  {
    if n > 0 {
      ChooseBeyond(n - 1, k - 1);
      ChooseBeyond(n - 1, k);
    }
  }

  lemma {:induction false} ChooseAll(n: nat)
    ensures Choose(n, n) == 1
  {
    if n > 0 {
      ChooseAll(n - 1);
      ChooseBeyond(n - 1, n);
    }
  }

  lemma {:induction false} ChooseAbsorb(n: nat, k: nat)
    requires n > 0 && k > 0
    ensures k * Choose(n, k) == n * Choose(n - 1, k - 1)
  {
    if n == 1 {
      if k > 1 { ChooseBeyond(1, k); }
    } else {
      ChooseAbsorb(n - 1, k);
      if k > 1 {
        ChooseAbsorb(n - 1, k - 1);
        AbsorbAlgebra(n, k, Choose(n - 1, k), Choose(n - 2, k - 2), Choose(n - 2, k - 1));
      }
    }
  }

  lemma AbsorbAlgebra(n: int, k: int, d: int, c1: int, c2: int)
    requires k * d == (n - 1) * c2
    requires (k - 1) * (c1 + c2) == (n - 1) * c1
    ensures k * (c1 + c2 + d) == n * (c1 + c2)
  {
    assert k * (c1 + c2 + d) == (k - 1) * (c1 + c2) + (c1 + c2) + k * d;
    assert (n - 1) * c1 + (n - 1) * c2 == (n - 1) * (c1 + c2);
  }

  lemma PrimeDividesChoose(p: nat, k: nat)
    requires Prime(p) && 0 < k < p
    ensures Choose(p, k) % p == 0
  {
    ChooseAbsorb(p, k);
    var c, c' := Choose(p, k), Choose(p - 1, k - 1);
    ModMultiple(c', p);
    assert k * c == c' * p;
    ModUnique(k, 0, k, p);
    Euclid(k, c, p);
  }

  /** The first `k + 1` terms of the expansion of `(1 + a)^n`. */
  function Expansion(n: nat, k: nat, a: int): int {
    Choose(n, k) * Pow(a, k) + if k == 0 then 0 else Expansion(n, k - 1, a)
  }

  lemma {:induction false} ExpansionStep(n: nat, k: nat, a: int)
    requires k > 0
    ensures Expansion(n + 1, k, a) == Expansion(n, k, a) + a * Expansion(n, k - 1, a)
  {
    var c, d, y := Choose(n, k - 1), Choose(n, k), Pow(a, k - 1);
    assert Pow(a, k) == a * y && Choose(n + 1, k) == c + d;
    var e := if k == 1 then 0 else Expansion(n, k - 2, a);
    if k > 1 {
      ExpansionStep(n, k - 1, a);
    } else {
      assert Expansion(n + 1, 0, a) == Expansion(n, 0, a);
    }
    assert Expansion(n, k - 1, a) == c * y + e;
    PascalAlgebra(a, c, d, y, e);
  }

  lemma PascalAlgebra(a: int, c: int, d: int, y: int, e: int)
    ensures (c + d) * (a * y) + a * e == d * (a * y) + a * (c * y + e)
  {
  }

  lemma {:induction false} BinomialTheorem(n: nat, a: int)
    ensures Expansion(n, n, a) == Pow(1 + a, n)
  {
    if n > 0 {
      BinomialTheorem(n - 1, a);
      ExpansionStep(n - 1, n, a);
      ChooseBeyond(n - 1, n);
      var y := Expansion(n - 1, n - 1, a);
      assert Expansion(n - 1, n, a) == y;
      assert y + a * y == (1 + a) * y;
    }
  }

  lemma {:induction false} ExpansionModPrime(p: nat, k: nat, a: int)
    requires Prime(p) && k < p
    ensures Congruent(Expansion(p, k, a), 1, p)
  {
    if k > 0 {
      ExpansionModPrime(p, k - 1, a);
      PrimeDividesChoose(p, k);
      ModMultiple(0, p);
      CongruentMul(Choose(p, k), 0, Pow(a, k), Pow(a, k), p);
      CongruentAdd(Choose(p, k) * Pow(a, k), 0, Expansion(p, k - 1, a), 1, p);
    }
  }

  // ---- Fermat's little theorem ------------------------------------------

  lemma {:induction false} FermatPower(a: nat, p: nat)
    requires Prime(p)
    ensures Congruent(Pow(a, p), a, p)
  {
    if a == 0 {
      assert Pow(0, p) == 0;
    } else {
      FermatPower(a - 1, p);
      BinomialTheorem(p, a - 1);
      ExpansionModPrime(p, p - 1, a - 1);
      ChooseAll(p);
      CongruentAdd(Pow(a - 1, p), a - 1, Expansion(p, p - 1, a - 1), 1, p);
    }
  }

  /** `b` raised to `p - 1` is one: the condition under which `p - 2` inverts. */
  predicate Unit(b: int, p: nat)
    requires p >= 2
  {
    Pow(b, p - 1) % p == 1
  }

  /** Fermat's little theorem, as an equivalence: units are the non-multiples. */
  lemma Fermat(b: nat, p: nat)
    requires Prime(p)
    ensures Unit(b, p) <==> b % p != 0
  {
    if b % p != 0 {
      var y := Pow(b, p - 1);
      FermatPower(b, p);
      CongruentDifference(Pow(b, p), b, p);
      assert b * y - b == b * (y - 1);
      Euclid(b, y - 1, p);
      CongruentDifference(y, 1, p);
      ModUnique(1, 0, 1, p);
    } else {
      ModMultiple(0, p);
      CongruentMul(b, 0, Pow(b, p - 2), Pow(b, p - 2), p);
    }
  }

  lemma UnitCongruent(b: int, b': int, p: nat)
    requires p >= 2 && Unit(b, p) && Congruent(b, b', p)
    ensures Unit(b', p)
  {
    CongruentPow(b, b', p - 1, p);
  }

  lemma UnitProduct(a: int, b: int, p: nat)
    requires p >= 2 && Unit(a, p) && Unit(b, p)
    ensures Unit(a * b, p)
  {
    PowProduct(a, b, p - 1);
    ModUnique(1, 0, 1, p);
    CongruentMul(Pow(a, p - 1), 1, Pow(b, p - 1), 1, p);
  }

  lemma UnitPower(b: int, n: nat, p: nat)
    requires p >= 2 && Unit(b, p)
    ensures Unit(Pow(b, n), p)
  {
    PowPow(b, n, p - 1);
    PowPow(b, p - 1, n);
    assert n * (p - 1) == (p - 1) * n;
    ModUnique(1, 0, 1, p);
    CongruentPow(Pow(b, p - 1), 1, n, p);
    PowOne(n);
  }

  // ---- Modular division -------------------------------------------------

  /** Division modulo `p` through the power `p - 2`. */
  function DivMod(a: nat, b: nat, p: nat): (r: nat)
    requires p >= 2
    ensures r < p
  {
    a * ModPow(b, p - 2, p) % p
  }

  /** Multiplying back recovers the dividend, for every unit divisor. */
  lemma DivModTimes(a: nat, b: nat, p: nat)
    requires p >= 2 && Unit(b, p)
    ensures Congruent(DivMod(a, b, p) * b, a, p)
  {
    var i, y := ModPow(b, p - 2, p), Pow(b, p - 2);
    CongruentMod(a * i, p);
    CongruentMul(DivMod(a, b, p), a * i, b, b, p);
    CongruentMod(y, p);
    CongruentMul(i, y, a * b, a * b, p);
    InverseAlgebra(a, b, i);
    InverseAlgebra(a, b, y);
    ModUnique(1, 0, 1, p);
    CongruentMul(b * y, 1, a, a, p);
  }

  lemma InverseAlgebra(a: int, b: int, y: int)
    ensures (a * y) * b == y * (a * b) == (b * y) * a == (a * b) * y
  {
  }

  /** Cancelling a unit factor. */
  lemma CancelUnit(r: int, s: int, b: int, p: nat)
    requires p >= 2 && Unit(b, p) && Congruent(r * b, s * b, p)
    ensures Congruent(r, s, p)
  {
    var y := Pow(b, p - 2);
    CongruentMul(r * b, s * b, y, y, p);
    InverseAlgebra(r, b, y);
    InverseAlgebra(s, b, y);
    ModUnique(1, 0, 1, p);
    CongruentMul(b * y, 1, r, r, p);
    CongruentMul(b * y, 1, s, s, p);
  }

  /** A reduced number that multiplies back to `a` is the quotient. */
  lemma DivModIs(a: nat, b: nat, p: nat, r: nat)
    requires p >= 2 && Unit(b, p) && r < p && Congruent(r * b, a, p)
    ensures DivMod(a, b, p) == r
  {
    DivModTimes(a, b, p);
    CancelUnit(DivMod(a, b, p), r, b, p);
    ModUnique(r, 0, r, p);
    ModUnique(DivMod(a, b, p), 0, DivMod(a, b, p), p);
  }

  /** Modulo a prime, `DivMod` divides exactly when the divisor is not a multiple of it. */
  lemma DivModPrime(b: nat, p: nat)
    requires Prime(p)
    ensures b % p != 0 <==> forall a: nat :: Congruent(DivMod(a, b, p) * b, a, p)
  {
    Fermat(b, p);
    if b % p != 0 {
      forall a: nat ensures Congruent(DivMod(a, b, p) * b, a, p) {
        DivModTimes(a, b, p);
      }
    } else {
      var r := DivMod(1, b, p);
      ModMultiple(0, p);
      CongruentMul(r, r, b, 0, p);
      ModUnique(1, 0, 1, p);
      assert !Congruent(r * b, 1, p);
    }
  }
}

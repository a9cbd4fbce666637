/** Binary digit strings, most significant digit first, as `format!` prints and `from_str_radix` reads them. */
module Bits {
  import opened Fourier

  /** `{:b}`: no leading zeros, and a single zero for zero. */
  function ToBinary(n: nat): (s: seq<bool>)
    ensures |s| >= 1
  {
    if n < 2 then [n == 1] else ToBinary(n / 2) + [n % 2 == 1]
  }

  function Zeros(k: nat): (s: seq<bool>)
    ensures |s| == k
  {
    seq(k, _ => false)
  }

  /** `{:0>w$b}`: left-padded with zeros to at least `w` digits. */
  function FormatBinary(n: nat, w: nat): (s: seq<bool>)
    ensures |s| >= w
  {
    var s := ToBinary(n);
    if |s| >= w then s else Zeros(w - |s|) + s
  }

  function Reverse(s: seq<bool>): (r: seq<bool>)
    ensures |r| == |s|
  {
    if s == [] then [] else Reverse(s[1..]) + [s[0]]
  }

  function Digit(b: bool): nat {
    if b then 1 else 0
  }

  /** `from_str_radix(_, 2)`. */
  function FromBinary(s: seq<bool>): nat {
    if s == [] then 0 else 2 * FromBinary(s[..|s| - 1]) + Digit(s[|s| - 1])
  }

  /** The lowest `k` digits of `n`. */
  function Low(n: nat, k: nat): (s: seq<bool>)
    ensures |s| == k
  {
    if k == 0 then [] else Low(n / 2, k - 1) + [n % 2 == 1]
  }

  // ---- Formatting -------------------------------------------------------

  lemma {:induction false} LowOfZero(k: nat)
    ensures Low(0, k) == Zeros(k)
  {
    if k > 0 { LowOfZero(k - 1); }
  }

  lemma {:induction false} LowExtends(n: nat, k: nat)
    requires |ToBinary(n)| <= k
    ensures Low(n, k) == Zeros(k - |ToBinary(n)|) + ToBinary(n)
    decreases k
  {
    if n < 2 {
      assert n / 2 == 0 && n % 2 == n;
      LowOfZero(k - 1);
    } else {
      LowExtends(n / 2, k - 1);
    }
  }

  lemma {:induction false} ShortBinary(n: nat, k: nat)
    requires n < Two(k) && k > 0
    ensures |ToBinary(n)| <= k
  {
    if n >= 2 { ShortBinary(n / 2, k - 1); }
  }

  /** Padding to `k` digits prints the lowest `k` digits of any number that fits. */
  lemma FormatIsLow(n: nat, k: nat)
    requires n < Two(k) && k > 0
    ensures FormatBinary(n, k) == Low(n, k)
  {
    ShortBinary(n, k);
    LowExtends(n, k);
    assert Zeros(0) == [];
  }

  // ---- Parsing ----------------------------------------------------------

  lemma {:induction false} ParseLow(n: nat, k: nat)
    ensures FromBinary(Low(n, k)) == n % Two(k)
  {
    if k > 0 {
      ParseLow(n / 2, k - 1);
      var s := Low(n, k);
      assert s[..k - 1] == Low(n / 2, k - 1);
      HalfRemainder(n, Two(k - 1));
    }
  }

  lemma HalfRemainder(n: nat, m: nat)
    requires m > 0
    ensures 2 * ((n / 2) % m) + n % 2 == n % (2 * m)
  {
    var q, r := n / 2 / m, (n / 2) % m;
    assert n == 2 * (q * m + r) + n % 2;
    assert n == q * (2 * m) + (2 * r + n % 2);
    NumberTheory.ModUnique(n, q, 2 * r + n % 2, 2 * m);
  }

  /** The first digits are those of the number shifted right. */
  lemma {:induction false} LowPrefix(n: nat, k: nat, j: nat)
    requires j <= k
    ensures Low(n, k)[..j] == Low(n / Two(k - j), j)
    decreases k - j
  {
    if j < k {
      LowPrefix(n / 2, k - 1, j);
      assert Low(n, k)[..k - 1] == Low(n / 2, k - 1);
      assert Low(n, k)[..j] == Low(n, k)[..k - 1][..j];
      DivideTwice(n, Two(k - 1 - j));
    }
  }

  lemma DivideTwice(n: nat, m: nat)
    requires m > 0
    ensures n / 2 / m == n / (2 * m)
  {
    var q, r := n / 2 / m, (n / 2) % m;
    assert n == q * (2 * m) + (2 * r + n % 2);
    QuotientUnique(n, q, 2 * r + n % 2, 2 * m);
  }

  lemma QuotientUnique(x: int, q: int, r: int, p: nat)
    requires p > 0 && 0 <= r < p && x == q * p + r
    ensures x / p == q
  {
    var d := x / p - q;
    assert d * p == r - x % p;
    NumberTheory.SmallMultiple(d, p);
  }

  /** The last digits are the lowest ones. */
  lemma {:induction false} LowSuffix(n: nat, k: nat, j: nat)
    requires j <= k
    ensures Low(n, k)[j..] == Low(n, k - j)
  {
    if j < k {
      LowSuffix(n / 2, k - 1, j);
      assert Low(n, k)[j..] == Low(n / 2, k - 1)[j..] + [n % 2 == 1];
    }
  }

  /** A slice of the printed digits parses to the corresponding bit field. */
  lemma ParseSlice(n: nat, k: nat, a: nat, b: nat)
    requires a <= b <= k
    ensures FromBinary(Low(n, k)[a..b]) == (n / Two(k - b)) % Two(b - a)
  {
    hide Two, Low, FromBinary;
    var shifted := n / Two(k - b);
    LowPrefix(n, k, b);
    LowSuffix(shifted, b, a);
    assert Low(n, k)[a..b] == Low(n, k)[..b][a..];
    ParseLow(shifted, b - a);
  }

  // ---- Bit reversal -----------------------------------------------------

  /** `i` with its lowest `k` bits in the opposite order. */
  function BitReverse(i: nat, k: nat): nat {
    if k == 0 then 0 else (i % 2) * Two(k - 1) + BitReverse(i / 2, k - 1)
  }

  lemma {:induction false} ParseCons(b: bool, s: seq<bool>)
    ensures FromBinary([b] + s) == Digit(b) * Two(|s|) + FromBinary(s)
  {
    var t := [b] + s;
    if s == [] {
      assert t[..0] == [];
    } else {
      ParseCons(b, s[..|s| - 1]);
      assert t[..|t| - 1] == [b] + s[..|s| - 1];
    }
  }

  lemma {:induction false} ReverseSnoc(s: seq<bool>, b: bool)
    ensures Reverse(s + [b]) == [b] + Reverse(s)
  {
    if s != [] {
      ReverseSnoc(s[1..], b);
      assert (s + [b])[1..] == s[1..] + [b];
    }
  }

  /** Printing, reversing the characters and parsing back reverses the bits. */
  lemma {:induction false} ParseReversed(i: nat, k: nat)
    ensures FromBinary(Reverse(Low(i, k))) == BitReverse(i, k)
  {
    if k > 0 {
      ParseReversed(i / 2, k - 1);
      ReverseSnoc(Low(i / 2, k - 1), i % 2 == 1);
      ParseCons(i % 2 == 1, Reverse(Low(i / 2, k - 1)));
    }
  }

  // ---- Disjunction of bit fields ----------------------------------------

  function BitOr(a: nat, b: nat): nat {
    if a == 0 then b
    else if b == 0 then a
    else 2 * BitOr(a / 2, b / 2) + (if a % 2 == 1 || b % 2 == 1 then 1 else 0)
  }

  /** Fields that do not overlap are simply added. */
  lemma {:induction false} BitOrDisjoint(a: nat, b: nat, k: nat)
    requires b < Two(k)
    ensures BitOr(a * Two(k), b) == a * Two(k) + b
    decreases k
  {
    if k == 0 || a == 0 {
    } else if b == 0 {
    } else {
      var m := Two(k - 1);
      assert a * Two(k) == 2 * (a * m);
      BitOrDisjoint(a, b / 2, k - 1);
      assert a * m > 0;
    }
  }
}

/** The bit-packed word that describes one contract's changes. */
module MetadataWord {
  import opened Outcomes
  import opened Fourier
  import opened Bits
  import opened StateDiff

  datatype Metadata = Metadata(classFlag: bool, nonce: Option<nat>, storageCount: nat)

  /** The values that the three bit fields can hold. */
  predicate Packable(m: Metadata) {
    (m.nonce.Some? ==> m.nonce.value < WORD) && m.storageCount < WORD
  }

  function EncodeMetadata(m: Metadata): nat {
    var flagged := if m.classFlag then BitOr(0, Two(128)) else 0;
    var nonced := if m.nonce.Some? then BitOr(flagged, m.nonce.value * Two(64)) else flagged;
    BitOr(nonced, m.storageCount)
  }

  /** The fields are cut out of the printed binary digits of the word. */
  function DecodeMetadata(word: nat): Metadata {
    var bits := FormatBinary(word, 256);
    var nonce := FromBinary(bits[128..192]);
    Metadata(FromBinary(bits[127..128]) == 1, if nonce == 0 then None else Some(nonce), FromBinary(bits[192..256]))
  }

  /** A nonce of zero is indistinguishable from no nonce. */
  function Unpacked(m: Metadata): Metadata {
    m.(nonce := if m.nonce == Some(0) then None else m.nonce)
  }

  /** The three fields as one number. */
  function Packed(m: Metadata): nat {
    (if m.classFlag then Two(128) else 0) + (if m.nonce.Some? then m.nonce.value * Two(64) else 0) + m.storageCount
  }

  lemma WordIsTwo()
    ensures Two(64) == WORD
    ensures Two(128) == WORD * WORD
  {
    assert Two(8) == 256;
    hide *;
    TwoSquare(8, 256);
    TwoSquare(16, 0x10000);
    TwoSquare(32, 0x1_0000_0000);
    TwoSquare(64, WORD);
  }

  lemma TwoSquare(n: nat, v: nat)
    requires Two(n) == v
    ensures Two(2 * n) == v * v
  {
    TwoProduct(n, n);
  }

  lemma EncodeMetadataIs(m: Metadata)
    requires Packable(m)
    ensures EncodeMetadata(m) == Packed(m)
  {
    hide Two, BitOr;
    WordIsTwo();
    var f, n := if m.classFlag then 1 else 0, if m.nonce.Some? then m.nonce.value else 0;
    OrZero(Two(128));
    TwoProduct(64, 64);
    BitOrDisjoint(f * Two(64), n * Two(64) / Two(64), 64);
    FieldsDisjoint(f, n);
    BitOrDisjoint(f * Two(64) + n, m.storageCount, 64);
    FieldAlgebra(f, n, Two(64));
    FieldAlgebra(f, 0, Two(64));
  }

  lemma OrZero(x: nat)
    ensures BitOr(0, x) == x && BitOr(x, 0) == x
  {
  }

  lemma FieldAlgebra(f: int, n: int, t: int)
    ensures (f * t + n) * t == f * (t * t) + n * t
  {
  }

  /** The shifted nonce field does not overlap the flag. */
  lemma FieldsDisjoint(f: nat, n: nat)
    requires n < Two(64)
    ensures BitOr(f * Two(64) * Two(64), n * Two(64)) == (f * Two(64) + n) * Two(64)
  {
    OrShift(f * Two(64), n, 64);
    BitOrDisjoint(f, n, 64);
  }

  lemma {:induction false} OrShift(a: nat, b: nat, k: nat)
    ensures BitOr(a * Two(k), b * Two(k)) == BitOr(a, b) * Two(k)
  {
    hide BitOr;
    if k == 0 {
    } else if a == 0 {
      OrZero(b);
      OrZero(b * Two(k));
    } else if b == 0 {
      OrZero(a);
      OrZero(a * Two(k));
    } else {
      OrShift(a, b, k - 1);
      OrShiftStep(a, b, Two(k - 1));
    }
  }

  lemma OrShiftStep(a: nat, b: nat, m: nat)
    requires a > 0 && b > 0 && m > 0
    requires BitOr(a * m, b * m) == BitOr(a, b) * m
    ensures BitOr(a * (2 * m), b * (2 * m)) == BitOr(a, b) * (2 * m)
  {
    hide *;
    DoubleAlgebra(a, m);
    DoubleAlgebra(b, m);
    DoubleAlgebra(BitOr(a, b), m);
    OrDouble(a * m, b * m);
  }

  lemma DoubleAlgebra(a: nat, m: nat)
    requires m > 0
    ensures a * (2 * m) == 2 * (a * m)
    ensures a > 0 ==> a * m > 0
  {
  }

  lemma OrDouble(a: nat, b: nat)
    requires a > 0 && b > 0
    ensures BitOr(2 * a, 2 * b) == 2 * BitOr(a, b)
  {
  }

  /** The metadata word unpacks to exactly what was packed. */
  lemma MetadataRoundTrip(m: Metadata)
    requires Packable(m)
    ensures DecodeMetadata(EncodeMetadata(m)) == Unpacked(m)
  {
    hide Two, BitOr, Low, FromBinary, FormatBinary;
    EncodeMetadataIs(m);
    PackedFields(m);
    var word := Packed(m);
    FormatIsLow(word, 256);
    ParseSlice(word, 256, 127, 128);
    ParseSlice(word, 256, 128, 192);
    ParseSlice(word, 256, 192, 256);
  }

  lemma PackedFields(m: Metadata)
    requires Packable(m)
    ensures Packed(m) < Two(256)
    ensures (Packed(m) / Two(128)) % Two(1) == if m.classFlag then 1 else 0
    ensures (Packed(m) / Two(64)) % Two(64) == if m.nonce.Some? then m.nonce.value else 0
    ensures (Packed(m) / Two(0)) % Two(64) == m.storageCount
  {
    hide Two;
    var t := Two(64);
    assert Two(0) == 1 && Two(1) == 2 by { SmallTwos(); }
    WordIsTwo();
    TwoProduct(64, 64);
    TwoProduct(128, 128);
    var f, n, c := if m.classFlag then 1 else 0, if m.nonce.Some? then m.nonce.value else 0, m.storageCount;
    Fields(f, n, c);
  }

  lemma SmallTwos()
    ensures Two(0) == 1 && Two(1) == 2
  {
    assert Two(1) == 2 * Two(0);
  }

  lemma Fields(f: nat, n: nat, c: nat)
    requires f < 2 && n < WORD && c < WORD
    ensures var x := f * (WORD * WORD) + n * WORD + c;
            && x / (WORD * WORD) % 2 == f
            && x / WORD % WORD == n
            && x % WORD == c
            && x < 2 * (WORD * WORD)
  {
  }
}

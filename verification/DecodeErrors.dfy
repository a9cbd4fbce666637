/** What decoding says about words that are missing, and what every decoded diff is like. */
module DecodeErrors {
  import opened Bits
  import opened Encoding
  import opened Fourier
  import opened MetadataWord
  import opened Outcomes
  import opened Sorted
  import opened StateDiff

  // ---- Which word is missing --------------------------------------------

  /** What a word of an encoding is. */
  datatype Word = ContractCount | Address | MetadataBits | NewClass | Key | Value | ClassCount | Class | CompiledClass

  /** The error when the words end before this one; without the first there is nothing to decode. */
  function ErrorOf(w: Word): DecodeError
    requires !w.ContractCount?
  {
    match w
    case Address => MissingAddress
    case MetadataBits => MissingMetadata
    case NewClass => MissingNewClassHash
    case Key => MissingStorageKey
    case Value => MissingStorageValue
    case ClassCount => MissingDeclarationsCount
    case Class => MissingClassHash
    case CompiledClass => MissingCompiledClassHash
  }

  function PairWords(n: nat, key: Word, value: Word): (r: seq<Word>)
    ensures |r| == 2 * n && forall i :: 0 <= i < 2 * n ==> r[i] == if i % 2 == 0 then key else value
  {
    if n == 0 then [] else [key, value] + PairWords(n - 1, key, value)
  }

  function ContractWords(u: ContractUpdate): seq<Word> {
    [Address, MetadataBits] + (if u.classHash.Some? then [NewClass] else []) + PairWords(|u.storage|, Key, Value)
  }

  function ContractsWords(m: map<nat, ContractUpdate>, ks: seq<nat>): seq<Word>
    requires forall k :: k in ks ==> k in m
  {
    if ks == [] then [] else ContractWords(m[ks[0]]) + ContractsWords(m, ks[1..])
  }

  /** What the words of an encoded diff are. */
  function WordsOf(s: StateUpdates): seq<Word> {
    [ContractCount] + ContractsWords(ContractUpdates(s), Ascending(ContractUpdates(s).Keys))
    + [ClassCount] + PairWords(|s.declared|, Class, CompiledClass)
  }

  // ---- Truncated parts --------------------------------------------------

  lemma {:induction false} PairsCut(
      m: map<nat, nat>, ks: seq<nat>, n: nat, acc: map<nat, nat>, key: DecodeError, value: DecodeError)
    requires (forall k :: k in ks ==> k in m) && n < 2 * |ks|
    ensures DecodePairs(Pairs(m, ks)[..n], |ks|, acc, key, value) == Err(if n % 2 == 0 then key else value)
    decreases |ks|
  {
    hide ToFelt, Pairs;
    var words := Pairs(m, ks)[..n];
    if n >= 2 {
      PairsTail(m, ks);
      assert words[2..] == Pairs(m, ks)[2..][..n - 2];
      PairsCut(m, ks[1..], n - 2, acc[ToFelt(words[0]) := ToFelt(words[1])], key, value);
    }
  }

  lemma PairsTail(m: map<nat, nat>, ks: seq<nat>)
    requires ks != [] && forall k :: k in ks ==> k in m
    ensures Pairs(m, ks)[2..] == Pairs(m, ks[1..])
  {
  }

  lemma ContractSizes(a: nat, u: ContractUpdate)
    ensures |[a] + EncodeUpdate(u)| == |ContractWords(u)| == 2 + (if u.classHash.Some? then 1 else 0) + 2 * |u.storage|
  {
    hide EncodeMetadata;
  }

  /** The number of words of a contract before its storage entries. */
  function HeadSize(u: ContractUpdate): nat {
    if u.classHash.Some? then 3 else 2
  }

  lemma CutInHead(a: nat, u: ContractUpdate, n: nat, acc: StateUpdates)
    requires UpdateFits(u) && n < HeadSize(u)
    ensures n <= |[a] + EncodeUpdate(u)|
    ensures DecodeContract(([a] + EncodeUpdate(u))[..n], acc) ==
            Err(if n == 0 then MissingAddress else if n == 1 then MissingMetadata else MissingNewClassHash)
  {
    hide EncodeMetadata, DecodeMetadata, DecodePairs, ToFelt, ToAddress, Entries;
    MetadataRoundTrip(u.metadata);
  }

  lemma CutInEntries(a: nat, u: ContractUpdate, n: nat, acc: StateUpdates)
    requires UpdateFits(u) && n < 2 * |u.storage|
    ensures HeadSize(u) + n <= |[a] + EncodeUpdate(u)|
    ensures DecodeContract(([a] + EncodeUpdate(u))[..HeadSize(u) + n], acc) ==
            Err(if n % 2 == 0 then MissingStorageKey else MissingStorageValue)
  {
    hide EncodeMetadata, DecodeMetadata, DecodePairs, ToFelt, ToAddress, Pairs, Ascending;
    var words, ks := ([a] + EncodeUpdate(u))[..HeadSize(u) + n], Ascending(u.storage.Keys);
    MetadataRoundTrip(u.metadata);
    assert words[1] == EncodeMetadata(u.metadata);
    assert words[HeadSize(u)..] == Pairs(u.storage, ks)[..n];
    PairsCut(u.storage, ks, n, map[], MissingStorageKey, MissingStorageValue);
  }

  lemma ContractCut(a: nat, u: ContractUpdate, n: nat, acc: StateUpdates)
    requires UpdateFits(u) && n < |ContractWords(u)|
    ensures n <= |[a] + EncodeUpdate(u)|
    ensures DecodeContract(([a] + EncodeUpdate(u))[..n], acc) == Err(ErrorOf(ContractWords(u)[n]))
  {
    hide EncodeUpdate, DecodeContract, UpdateFits;
    ContractSizes(a, u);
    if n < HeadSize(u) { CutInHead(a, u, n, acc); } else { CutInEntries(a, u, n - HeadSize(u), acc); }
  }

  lemma {:induction false} ContractsCut(m: map<nat, ContractUpdate>, ks: seq<nat>, n: nat, acc: StateUpdates)
    requires forall k :: k in ks ==> k in m && k < ADDRESS_BOUND && UpdateFits(m[k])
    requires n < |ContractsWords(m, ks)|
    ensures |EncodeContracts(m, ks)| == |ContractsWords(m, ks)| && !ContractsWords(m, ks)[n].ContractCount?
    ensures DecodeContracts(EncodeContracts(m, ks)[..n], |ks|, acc) == Err(ErrorOf(ContractsWords(m, ks)[n]))
    decreases |ks|
  {
    hide DecodeContract, EncodeUpdate, Apply, UpdateFits, ContractWords;
    var a, u := ks[0], m[ks[0]];
    assert a in ks;
    var head, rest := [a] + EncodeUpdate(u), EncodeContracts(m, ks[1..]);
    ContractSizes(a, u);
    ContractsSize(m, ks[1..]);
    WordKinds(u);
    assert EncodeContracts(m, ks) == head + rest;
    if n < |head| {
      assert (head + rest)[..n] == head[..n];
      ContractCut(a, u, n, acc);
    } else {
      var k := n - |head|;
      assert (head + rest)[..n] == head + rest[..k];
      ContractRoundTrip(a, u, rest[..k], acc);
      ContractsCut(m, ks[1..], k, Apply(acc, a, Unpacked(u.metadata), u.classHash, u.storage));
    }
  }

  lemma WordKinds(u: ContractUpdate)
    ensures forall i :: 0 <= i < |ContractWords(u)| ==> !ContractWords(u)[i].ContractCount?
  {
  }

  lemma {:induction false} ContractsSize(m: map<nat, ContractUpdate>, ks: seq<nat>)
    requires forall k :: k in ks ==> k in m
    ensures |EncodeContracts(m, ks)| == |ContractsWords(m, ks)|
  {
    hide EncodeUpdate, ContractWords;
    if ks != [] {
      ContractSizes(ks[0], m[ks[0]]);
      ContractsSize(m, ks[1..]);
    }
  }

  // ---- Truncated encodings ----------------------------------------------

  lemma CutInContracts(total: nat, words: seq<nat>, e: DecodeError)
    requires total < WORD && DecodeContracts(words, total, EMPTY) == Err(e)
    ensures Decoded([total] + words) == Err(e)
  {
    hide DecodeContracts, DecodePairs;
    assert ([total] + words)[1..] == words;
  }

  lemma CutInClasses(total: nat, contracts: seq<nat>, after: seq<nat>, t: StateUpdates, e: DecodeError)
    requires total < WORD && DecodeContracts(contracts + after, total, EMPTY) == Ok(Parsed(t, after))
    requires if after == [] then e == MissingDeclarationsCount
             else after[0] < WORD &&
                  DecodePairs(after[1..], after[0], map[], MissingClassHash, MissingCompiledClassHash) == Err(e)
    ensures Decoded([total] + (contracts + after)) == Err(e)
  {
    hide DecodeContracts, DecodePairs;
    assert ([total] + (contracts + after))[1..] == contracts + after;
  }

  lemma EncodedIs(s: StateUpdates)
    ensures var m := ContractUpdates(s);
            Encoded(s) == [|m|] + (EncodeContracts(m, Ascending(m.Keys)) + ([|s.declared|] + Entries(s.declared)))
    ensures |Encoded(s)| == |WordsOf(s)|
  {
    hide EncodeContracts, ContractUpdates, ContractsWords, Entries;
    var m := ContractUpdates(s);
    ContractsSize(m, Ascending(m.Keys));
    assert Encoded(s) + [] == Encoded(s) && Entries(s.declared) + [] == Entries(s.declared);
    EncodedSections(s, []);
  }

  lemma WordAt(s: StateUpdates, n: nat)
    requires 0 < n < |WordsOf(s)|
    ensures var m := ContractUpdates(s);
            var words := ContractsWords(m, Ascending(m.Keys));
            WordsOf(s)[n] ==
            if n - 1 < |words| then words[n - 1]
            else if n - 1 == |words| then ClassCount
            else if (n - 1 - |words|) % 2 == 1 then Class else CompiledClass
  {
    hide ContractUpdates, ContractsWords;
  }

  lemma CutAt(head: nat, contracts: seq<nat>, classes: seq<nat>, n: nat)
    requires 0 < n <= 1 + |contracts| + |classes|
    ensures ([head] + (contracts + classes))[..n] ==
            [head] + if n - 1 < |contracts| then contracts[..n - 1] else contracts + classes[..n - 1 - |contracts|]
  {
  }

  lemma CutEarly(m: map<nat, ContractUpdate>, ks: seq<nat>, n: nat)
    requires |m| < WORD && |ks| == |m| && forall k :: k in ks ==> k in m && k < ADDRESS_BOUND && UpdateFits(m[k])
    requires n < |ContractsWords(m, ks)|
    ensures n <= |EncodeContracts(m, ks)| && !ContractsWords(m, ks)[n].ContractCount?
    ensures Decoded([|m|] + EncodeContracts(m, ks)[..n]) == Err(ErrorOf(ContractsWords(m, ks)[n]))
  {
    hide Decoded, EncodeContracts, ContractsWords, DecodeContracts, UpdateFits;
    ContractsCut(m, ks, n, EMPTY);
    CutInContracts(|m|, EncodeContracts(m, ks)[..n], ErrorOf(ContractsWords(m, ks)[n]));
  }

  lemma CutLate(m: map<nat, ContractUpdate>, ks: seq<nat>, declared: map<nat, nat>, n: nat, after: seq<nat>)
    requires |m| < WORD && |ks| == |m| && forall k :: k in ks ==> k in m && k < ADDRESS_BOUND && UpdateFits(m[k])
    requires n < 1 + 2 * |declared| && after == ([|declared|] + Entries(declared))[..n] && |declared| < WORD
    ensures Decoded([|m|] + (EncodeContracts(m, ks) + after)) ==
            Err(if n == 0 then MissingDeclarationsCount
                else if n % 2 == 1 then MissingClassHash else MissingCompiledClassHash)
  {
    hide Decoded, EncodeContracts, DecodePairs, DecodeContracts, Entries, UpdateFits, ApplyAll;
    ContractsRoundTrip(m, ks, after, EMPTY);
    ClassesCut(declared, n);
    CutInClasses(|m|, EncodeContracts(m, ks), after, ApplyAll(EMPTY, m, ks),
                 if n == 0 then MissingDeclarationsCount
                 else if n % 2 == 1 then MissingClassHash else MissingCompiledClassHash);
  }

  /** When the words end too early, the error names exactly the word that is missing. */
  lemma TruncationError(s: StateUpdates, n: nat)
    requires Encodable(s) && 0 < n < |Encoded(s)|
    ensures |WordsOf(s)| == |Encoded(s)| && !WordsOf(s)[n].ContractCount?
    ensures Decoded(Encoded(s)[..n]) == Err(ErrorOf(WordsOf(s)[n]))
  {
    hide Encoded, Encodable, Decoded, ContractUpdates, EncodeContracts, ContractsWords, Entries, WordsOf, UpdateFits;
    var m := ContractUpdates(s);
    var ks := Ascending(m.Keys);
    var contracts := EncodeContracts(m, ks);
    EncodedIs(s);
    ContractsSize(m, ks);
    WordAt(s, n);
    CutAt(|m|, contracts, [|s.declared|] + Entries(s.declared), n);
    UpdatesFit(s);
    DeclaredFits(s);
    if n - 1 < |contracts| {
      CutEarly(m, ks, n - 1);
    } else {
      var k := n - 1 - |contracts|;
      CutLate(m, ks, s.declared, k, ([|s.declared|] + Entries(s.declared))[..k]);
    }
  }

  lemma ClassesCut(declared: map<nat, nat>, n: nat)
    requires n < 1 + 2 * |declared|
    ensures var after := ([|declared|] + Entries(declared))[..n];
            n > 0 ==>
              && after[0] == |declared|
              && DecodePairs(after[1..], after[0], map[], MissingClassHash, MissingCompiledClassHash) ==
                 Err(if n % 2 == 1 then MissingClassHash else MissingCompiledClassHash)
  {
    hide DecodePairs, Pairs;
    if n > 0 {
      var ks := Ascending(declared.Keys);
      assert ([|declared|] + Entries(declared))[..n][1..] == Pairs(declared, ks)[..n - 1];
      PairsCut(declared, ks, n - 1, map[], MissingClassHash, MissingCompiledClassHash);
    }
  }

  // ---- Every decoded diff -----------------------------------------------

  lemma {:induction false} BinaryBounded(bits: seq<bool>)
    ensures FromBinary(bits) < Two(|bits|)
  {
    if bits != [] {
      BinaryBounded(bits[..|bits| - 1]);
      assert Two(|bits|) == 2 * Two(|bits| - 1);
    }
  }

  lemma MetadataBounded(word: nat)
    ensures var m := DecodeMetadata(word);
            && m.storageCount < WORD && (m.nonce.Some? ==> 0 < m.nonce.value < WORD)
  {
    hide Two, FromBinary, FormatBinary;
    WordIsTwo();
    var bits := FormatBinary(word, 256);
    BinaryBounded(bits[128..192]);
    BinaryBounded(bits[192..256]);
  }

  predicate AllFelts(m: map<nat, nat>) {
    forall k :: k in m ==> k < FELT_PRIME && m[k] < FELT_PRIME
  }

  lemma {:induction false} PairsFit(words: seq<nat>, n: nat, acc: map<nat, nat>, key: DecodeError, value: DecodeError)
    requires AllFelts(acc) && DecodePairs(words, n, acc, key, value).Ok?
    ensures var m := DecodePairs(words, n, acc, key, value).value.value; AllFelts(m) && |m| <= |acc| + n
    decreases n
  {
    if n > 0 {
      var k, v := ToFelt(words[0]), ToFelt(words[1]);
      GrowsByOne(acc, k, v);
      PairsFit(words[2..], n - 1, acc[k := v], key, value);
    }
  }

  lemma GrowsByOne<V>(m: map<nat, V>, k: nat, v: V)
    ensures |m[k := v]| <= |m| + 1
  {
    assert m[k := v].Keys == m.Keys + {k};
    assert |m.Keys + {k}| <= |m.Keys| + 1;
  }

  predicate NoncesFit(m: map<nat, nat>) {
    forall a :: a in m ==> a < ADDRESS_BOUND && 0 < m[a] < WORD
  }

  predicate DeployedFit(m: map<nat, nat>) {
    forall a :: a in m ==> a < ADDRESS_BOUND && m[a] < FELT_PRIME
  }

  predicate StorageFits(m: map<nat, map<nat, nat>>) {
    forall a :: a in m ==> a < ADDRESS_BOUND && m[a] != map[] && FeltMap(m[a])
  }

  /** A diff that a decoder can return: in the range of its types, and without anything that encoding would drop. */
  predicate DecoderFits(s: StateUpdates) {
    && s.deprecated == {} && s.replaced == map[]
    && NoncesFit(s.nonces) && DeployedFit(s.deployed) && StorageFits(s.storage)
  }

  lemma UpdatedFit(s: StateUpdates, a: nat, nonce: nat, hash: nat, storage: map<nat, nat>)
    requires DecoderFits(s) && a < ADDRESS_BOUND
    ensures 0 < nonce < WORD ==> NoncesFit(s.nonces[a := nonce])
    ensures hash < FELT_PRIME ==> DeployedFit(s.deployed[a := hash])
    ensures storage != map[] && FeltMap(storage) ==> StorageFits(s.storage[a := storage])
  {
    hide FeltMap, ADDRESS_BOUND, FELT_PRIME;
  }

  lemma ApplyFits(acc: StateUpdates, a: nat, metadata: Metadata, classHash: Option<nat>, storage: map<nat, nat>)
    requires DecoderFits(acc) && a < ADDRESS_BOUND && FeltMap(storage)
    requires metadata.nonce.Some? ==> 0 < metadata.nonce.value < WORD
    requires classHash.Some? ==> classHash.value < FELT_PRIME
    ensures var r := Apply(acc, a, metadata, classHash, storage);
            DecoderFits(r) && r.declared == acc.declared && |Touched(r)| <= |Touched(acc)| + 1
  {
    UpdatedFit(acc, a, if metadata.nonce.Some? then metadata.nonce.value else 0,
               if classHash.Some? then classHash.value else 0, storage);
    ApplyTouches(acc, a, metadata, classHash, storage);
    hide NoncesFit, DeployedFit, StorageFits, FeltMap, Touched;
  }

  lemma ApplyTouches(acc: StateUpdates, a: nat, metadata: Metadata, classHash: Option<nat>, storage: map<nat, nat>)
    ensures |Touched(Apply(acc, a, metadata, classHash, storage))| <= |Touched(acc)| + 1
  {
    var r := Apply(acc, a, metadata, classHash, storage);
    KeysAdded(acc.nonces, a, if metadata.nonce.Some? then metadata.nonce.value else 0);
    KeysAdded(acc.deployed, a, if classHash.Some? then classHash.value else 0);
    KeysAdded(acc.storage, a, storage);
    assert r.nonces.Keys <= acc.nonces.Keys + {a} && r.deployed.Keys <= acc.deployed.Keys + {a}
        && r.storage.Keys <= acc.storage.Keys + {a};
    hide Apply;
    ThreeParts(r.nonces.Keys, r.deployed.Keys, r.storage.Keys, acc.nonces.Keys, acc.deployed.Keys, acc.storage.Keys, a);
  }

  lemma KeysAdded<V>(m: map<nat, V>, a: nat, v: V)
    ensures m[a := v].Keys == m.Keys + {a}
  {
  }

  lemma ThreeParts(x: set<nat>, y: set<nat>, z: set<nat>, p: set<nat>, q: set<nat>, r: set<nat>, a: nat)
    requires x <= p + {a} && y <= q + {a} && z <= r + {a}
    ensures |x + y + z| <= |p + q + r| + 1
  {
    assert x + y + z <= p + q + r + {a};
    Smaller(x + y + z, p + q + r + {a});
  }

  lemma {:induction false} Smaller(s: set<nat>, t: set<nat>)
    requires s <= t
    ensures |s| <= |t|
  {
    if s != {} {
      var x :| x in s;
      Smaller(s - {x}, t - {x});
    }
  }

  lemma ContractFits(words: seq<nat>, acc: StateUpdates)
    requires DecoderFits(acc) && DecodeContract(words, acc).Ok?
    ensures var r := DecodeContract(words, acc).value.value;
            DecoderFits(r) && r.declared == acc.declared && |Touched(r)| <= |Touched(acc)| + 1
  {
    hide DecodePairs, DecodeMetadata, Apply, DecoderFits, Touched;
    var metadata := DecodeMetadata(words[1]);
    MetadataBounded(words[1]);
    var rest := if metadata.classFlag then words[3..] else words[2..];
    PairsFit(rest, metadata.storageCount, map[], MissingStorageKey, MissingStorageValue);
    var storage := DecodePairs(rest, metadata.storageCount, map[], MissingStorageKey, MissingStorageValue).value.value;
    ApplyFits(acc, ToAddress(words[0]), metadata, if metadata.classFlag then Some(ToFelt(words[2])) else None, storage);
  }

  lemma {:induction false} ContractsFit(words: seq<nat>, n: nat, acc: StateUpdates)
    requires DecoderFits(acc) && DecodeContracts(words, n, acc).Ok?
    ensures var r := DecodeContracts(words, n, acc).value.value;
            DecoderFits(r) && r.declared == acc.declared && |Touched(r)| <= |Touched(acc)| + n
    decreases n
  {
    hide DecodeContract, DecoderFits, Touched;
    if n > 0 {
      var p := DecodeContract(words, acc).value;
      ContractFits(words, acc);
      ContractsFit(p.rest, n - 1, p.value);
    }
  }

  /** Whatever words are decoded, the result can be encoded, and is its own normal form. */
  lemma DecodedIsCanonical(words: seq<nat>)
    requires Decoded(words).Ok?
    ensures var s := Decoded(words).value; Encodable(s) && NormalForm(s) == s
  {
    hide DecodeContracts, DecodePairs;
    var s := Decoded(words).value;
    if words == [] {
      NothingFits();
    } else {
      var p := DecodeContracts(words[1..], words[0], EMPTY).value;
      NothingFits();
      ContractsFit(words[1..], words[0], EMPTY);
      PairsFit(p.rest[1..], p.rest[0], map[], MissingClassHash, MissingCompiledClassHash);
      hide Decoded, DecodePrefix;
      FitsEncodable(p.value, s.declared);
    }
  }

  lemma NothingFits()
    ensures DecoderFits(EMPTY) && Touched(EMPTY) == {} && Encodable(EMPTY) && NormalForm(EMPTY) == EMPTY
  {
  }

  lemma FitsEncodable(t: StateUpdates, declared: map<nat, nat>)
    requires DecoderFits(t) && |Touched(t)| < WORD && FeltMap(declared)
    ensures var s := t.(declared := declared); Encodable(s) && NormalForm(s) == s
  {
    var s := t.(declared := declared);
    FitsTyped(s);
    FitsNormal(s);
    assert Touched(s) == Touched(t);
    hide WellTyped, FeltMap, DeployedFit, StorageFits;
  }

  lemma FitsTyped(s: StateUpdates)
    requires DecoderFits(s) && |Touched(s)| < WORD && FeltMap(s.declared)
    ensures WellTyped(s)
  {
    NoncesTyped(s.nonces, Touched(s));
    DeployedTyped(s.deployed, Touched(s));
    StorageTyped(s.storage, Touched(s));
    hide NoncesFit, DeployedFit, StorageFits, Touched;
    assert FeltMap(s.replaced) && AreAddresses(s.replaced.Keys) && AreFelts(s.deprecated);
  }

  lemma NoncesTyped(m: map<nat, nat>, all: set<nat>)
    requires NoncesFit(m) && m.Keys <= all && |all| < WORD
    ensures FeltMap(m) && AreAddresses(m.Keys)
  {
    Smaller(m.Keys, all);
    assert |m| == |m.Keys|;
    SmallIsFelt();
  }

  lemma DeployedTyped(m: map<nat, nat>, all: set<nat>)
    requires DeployedFit(m) && m.Keys <= all && |all| < WORD
    ensures FeltMap(m) && AreAddresses(m.Keys)
  {
    Smaller(m.Keys, all);
    assert |m| == |m.Keys|;
    SmallIsFelt();
  }

  lemma StorageTyped(m: map<nat, map<nat, nat>>, all: set<nat>)
    requires StorageFits(m) && m.Keys <= all && |all| < WORD
    ensures |m| < WORD && AreAddresses(m.Keys) && forall a :: a in m ==> FeltMap(m[a])
  {
    hide FeltMap;
    Smaller(m.Keys, all);
    assert |m| == |m.Keys|;
  }

  lemma SmallIsFelt()
    ensures WORD < ADDRESS_BOUND < FELT_PRIME
  {
  }

  lemma FitsNormal(s: StateUpdates)
    requires DecoderFits(s)
    ensures NormalForm(s) == s
  {
    hide FeltMap, ADDRESS_BOUND, FELT_PRIME, DeployedFit;
    assert NormalForm(s).nonces == s.nonces;
    assert NormalForm(s).storage == s.storage;
  }

  /** So decoding is onto the diffs that survive encoding: what is decoded from any words is decoded again from its encoding. */
  lemma DecodeEncodeDecode(words: seq<nat>)
    requires Decoded(words).Ok?
    ensures Decoded(Encoded(Decoded(words).value)) == Decoded(words)
  {
    hide Decoded, Encoded, Encodable, NormalForm;
    DecodedIsCanonical(words);
    var s := Decoded(words).value;
    RoundTrip(s, []);
    assert Encoded(s) + [] == Encoded(s);
  }
}

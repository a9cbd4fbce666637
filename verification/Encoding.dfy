/** The word format in which state diffs are published for data availability. */
module Encoding {
  import opened Outcomes
  import opened Sorted
  import opened StateDiff
  import opened MetadataWord

  // ---- Encoding ---------------------------------------------------------

  datatype ContractUpdate = ContractUpdate(metadata: Metadata, classHash: Option<nat>, storage: map<nat, nat>)

  const DEFAULT_UPDATE: ContractUpdate := ContractUpdate(Metadata(false, None, 0), None, map[])

  /** The contracts that get an entry. */
  function Touched(s: StateUpdates): set<nat> {
    s.nonces.Keys + s.deployed.Keys + s.storage.Keys
  }

  /** The changes of one contract. */
  function UpdateOf(s: StateUpdates, a: nat): ContractUpdate {
    var storage := if a in s.storage then s.storage[a] else map[];
    ContractUpdate(
      Metadata(a in s.deployed, if a in s.nonces then Some(s.nonces[a]) else None, |storage|),
      if a in s.deployed then Some(s.deployed[a]) else None,
      storage)
  }

  function ContractUpdates(s: StateUpdates): map<nat, ContractUpdate> {
    map a | a in Touched(s) :: UpdateOf(s, a)
  }

  function EncodeUpdate(u: ContractUpdate): seq<nat> {
    [EncodeMetadata(u.metadata)] + (if u.classHash.Some? then [u.classHash.value] else []) + Entries(u.storage)
  }

  function EncodeContracts(m: map<nat, ContractUpdate>, ks: seq<nat>): seq<nat>
    requires forall k :: k in ks ==> k in m
  {
    if ks == [] then [] else [ks[0]] + EncodeUpdate(m[ks[0]]) + EncodeContracts(m, ks[1..])
  }

  /** The entries of all contracts, in ascending address order. */
  function EncodeUpdates(m: map<nat, ContractUpdate>): seq<nat> {
    EncodeContracts(m, Ascending(m.Keys))
  }

  function EncodeSections(m: map<nat, ContractUpdate>, declared: map<nat, nat>): seq<nat> {
    [|m|] + EncodeUpdates(m) + [|declared|] + Entries(declared)
  }

  /** The encoding of a state diff. */
  function Encoded(s: StateUpdates): seq<nat> {
    EncodeSections(ContractUpdates(s), s.declared)
  }

  /** What the encoder asks of its callers: `to_u64().unwrap()` on every nonce. */
  predicate Encodable(s: StateUpdates) {
    WellTyped(s) && |Touched(s)| < WORD && forall a :: a in s.nonces ==> s.nonces[a] < WORD
  }

  // ---- Decoding ---------------------------------------------------------

  datatype DecodeError =
    | MissingDeclarationsCount
    | MissingAddress
    | MissingMetadata
    | MissingStorageKey
    | MissingStorageValue
    | MissingNewClassHash
    | MissingClassHash
    | MissingCompiledClassHash
    | InvalidValue

  function ToFelt(word: nat): nat {
    word % FELT_PRIME
  }

  function ToAddress(word: nat): nat {
    ToFelt(word) % ADDRESS_BOUND
  }

  /** A decoded value together with the words that were not consumed. */
  datatype Parsed<+T> = Parsed(value: T, rest: seq<nat>)

  /** `n` key-value pairs, whose absence is reported as `key` or `value`. */
  function DecodePairs(words: seq<nat>, n: nat, acc: map<nat, nat>, key: DecodeError, value: DecodeError)
    : Result<Parsed<map<nat, nat>>, DecodeError>
    decreases n
  {
    if n == 0 then Ok(Parsed(acc, words))
    else if |words| == 0 then Err(key)
    else if |words| == 1 then Err(value)
    else DecodePairs(words[2..], n - 1, acc[ToFelt(words[0]) := ToFelt(words[1])], key, value)
  }

  /** The diff `acc` with the decoded changes of contract `a`. */
  function Apply(acc: StateUpdates, a: nat, metadata: Metadata, classHash: Option<nat>, storage: map<nat, nat>)
    : StateUpdates
  {
    var s := if storage != map[] then acc.(storage := acc.storage[a := storage]) else acc;
    var n := if metadata.nonce.Some? then s.(nonces := s.nonces[a := metadata.nonce.value]) else s;
    if classHash.Some? then n.(deployed := n.deployed[a := classHash.value]) else n
  }

  function DecodeContract(words: seq<nat>, acc: StateUpdates): Result<Parsed<StateUpdates>, DecodeError> {
    if |words| == 0 then Err(MissingAddress)
    else if |words| == 1 then Err(MissingMetadata)
    else
      var metadata := DecodeMetadata(words[1]);
      if metadata.classFlag && |words| == 2 then Err(MissingNewClassHash)
      else
        var classHash := if metadata.classFlag then Some(ToFelt(words[2])) else None;
        var rest := if metadata.classFlag then words[3..] else words[2..];
        match DecodePairs(rest, metadata.storageCount, map[], MissingStorageKey, MissingStorageValue)
        case Err(e) => Err(e)
        case Ok(p) => Ok(Parsed(Apply(acc, ToAddress(words[0]), metadata, classHash, p.value), p.rest))
  }

  function DecodeContracts(words: seq<nat>, n: nat, acc: StateUpdates): Result<Parsed<StateUpdates>, DecodeError>
    decreases n
  {
    if n == 0 then Ok(Parsed(acc, words))
    else
      match DecodeContract(words, acc)
      case Err(e) => Err(e)
      case Ok(p) => DecodeContracts(p.rest, n - 1, p.value)
  }

  /** A whole diff and the words after it. The empty list is the empty diff. */
  function DecodePrefix(words: seq<nat>): Result<Parsed<StateUpdates>, DecodeError> {
    if words == [] then Ok(Parsed(EMPTY, []))
    else if words[0] >= WORD then Err(InvalidValue)
    else
      match DecodeContracts(words[1..], words[0], EMPTY)
      case Err(e) => Err(e)
      case Ok(p) =>
        if p.rest == [] then Err(MissingDeclarationsCount)
        else if p.rest[0] >= WORD then Err(InvalidValue)
        else
          match DecodePairs(p.rest[1..], p.rest[0], map[], MissingClassHash, MissingCompiledClassHash)
          case Err(e) => Err(e)
          case Ok(d) => Ok(Parsed(p.value.(declared := d.value), d.rest))
  }

  /** What `decode_state_updates` returns. */
  function Decoded(words: seq<nat>): Result<StateUpdates, DecodeError> {
    match DecodePrefix(words)
    case Err(e) => Err(e)
    case Ok(p) => Ok(p.value)
  }

  // ---- Round trip -------------------------------------------------------

  /** What survives encoding: zero nonces, empty storage maps and the last two fields do not. */
  function NormalForm(s: StateUpdates): StateUpdates {
    StateUpdates(
      map a | a in s.nonces && s.nonces[a] != 0 :: s.nonces[a],
      map a | a in s.storage && s.storage[a] != map[] :: s.storage[a],
      s.deployed,
      s.declared,
      {},
      map[])
  }

  lemma FeltIs(w: nat)
    requires w < FELT_PRIME
    ensures ToFelt(w) == w
    ensures w < ADDRESS_BOUND ==> ToAddress(w) == w
  {
  }

  lemma DecodePair(k: nat, v: nat, tail: seq<nat>, n: nat, acc: map<nat, nat>, key: DecodeError, value: DecodeError)
    requires n > 0 && k < FELT_PRIME && v < FELT_PRIME
    ensures DecodePairs([k, v] + tail, n, acc, key, value) == DecodePairs(tail, n - 1, acc[k := v], key, value)
  {
    hide ToFelt;
    FeltIs(k);
    FeltIs(v);
    assert ([k, v] + tail)[2..] == tail;
  }

  lemma PairsCons(m: map<nat, nat>, ks: seq<nat>, rest: seq<nat>)
    requires ks != [] && forall k :: k in ks ==> k in m
    ensures Pairs(m, ks) + rest == [ks[0], m[ks[0]]] + (Pairs(m, ks[1..]) + rest)
  {
  }

  lemma {:induction false} PairsRoundTrip(
      m: map<nat, nat>, ks: seq<nat>, rest: seq<nat>, acc: map<nat, nat>, key: DecodeError, value: DecodeError)
    requires FeltMap(m) && forall k :: k in ks ==> k in m
    ensures DecodePairs(Pairs(m, ks) + rest, |ks|, acc, key, value) == Ok(Parsed(Inserted(acc, m, ks), rest))
    decreases |ks|
  {
    if ks == [] {
      assert [] + rest == rest;
    } else {
      var k, tail := ks[0], Pairs(m, ks[1..]) + rest;
      assert k < FELT_PRIME && m[k] < FELT_PRIME;
      hide DecodePairs, Pairs, FeltMap;
      PairsCons(m, ks, rest);
      DecodePair(k, m[k], tail, |ks|, acc, key, value);
      PairsRoundTrip(m, ks[1..], rest, acc[k := m[k]], key, value);
    }
  }

  /** A flattened map decodes to itself and leaves the following words alone. */
  lemma EntriesRoundTrip(m: map<nat, nat>, rest: seq<nat>, key: DecodeError, value: DecodeError)
    requires FeltMap(m)
    ensures DecodePairs(Entries(m) + rest, |m|, map[], key, value) == Ok(Parsed(m, rest))
  {
    PairsRoundTrip(m, Ascending(m.Keys), rest, map[], key, value);
    InsertAll(m);
  }

  predicate UpdateFits(u: ContractUpdate) {
    && Packable(u.metadata)
    && FeltMap(u.storage)
    && u.metadata.storageCount == |u.storage|
    && u.metadata.classFlag == u.classHash.Some?
    && (u.classHash.Some? ==> u.classHash.value < FELT_PRIME)
  }

  lemma ContractRoundTrip(a: nat, u: ContractUpdate, rest: seq<nat>, acc: StateUpdates)
    requires a < ADDRESS_BOUND && UpdateFits(u)
    ensures DecodeContract([a] + EncodeUpdate(u) + rest, acc) ==
            Ok(Parsed(Apply(acc, a, Unpacked(u.metadata), u.classHash, u.storage), rest))
  {
    hide EncodeMetadata, DecodeMetadata, DecodePairs, Entries, ToFelt, ToAddress;
    FeltIs(a);
    if u.classHash.Some? { FeltIs(u.classHash.value); }
    var words := [a] + EncodeUpdate(u) + rest;
    var tail := Entries(u.storage) + rest;
    MetadataRoundTrip(u.metadata);
    EntriesRoundTrip(u.storage, rest, MissingStorageKey, MissingStorageValue);
    assert words[0] == a && words[1] == EncodeMetadata(u.metadata);
    if u.classHash.Some? {
      assert words[2] == u.classHash.value && words[3..] == tail;
    } else {
      assert words[2..] == tail;
    }
  }

  /** `acc` with the changes of the contracts `ks`. */
  function ApplyAll(acc: StateUpdates, m: map<nat, ContractUpdate>, ks: seq<nat>): StateUpdates
    requires forall k :: k in ks ==> k in m
    decreases |ks|
  {
    if ks == [] then acc
    else
      var u := m[ks[0]];
      ApplyAll(Apply(acc, ks[0], Unpacked(u.metadata), u.classHash, u.storage), m, ks[1..])
  }

  lemma {:induction false} ContractsRoundTrip(
      m: map<nat, ContractUpdate>, ks: seq<nat>, rest: seq<nat>, acc: StateUpdates)
    requires forall k :: k in ks ==> k in m && k < ADDRESS_BOUND && UpdateFits(m[k])
    ensures DecodeContracts(EncodeContracts(m, ks) + rest, |ks|, acc) == Ok(Parsed(ApplyAll(acc, m, ks), rest))
    decreases |ks|
  {
    hide DecodeContract, EncodeUpdate, Apply, UpdateFits;
    var words := EncodeContracts(m, ks) + rest;
    if ks == [] {
      assert words == rest;
    } else {
      var a, u, more := ks[0], m[ks[0]], EncodeContracts(m, ks[1..]) + rest;
      assert words == [a] + EncodeUpdate(u) + more;
      ContractRoundTrip(a, u, more, acc);
      ContractsRoundTrip(m, ks[1..], rest, Apply(acc, a, Unpacked(u.metadata), u.classHash, u.storage));
    }
  }

  // ---- What the applied changes amount to -------------------------------

  function Lookup<V>(m: map<nat, V>, k: nat): Option<V> {
    if k in m then Some(m[k]) else None
  }

  lemma MapsEqual<V>(m: map<nat, V>, n: map<nat, V>)
    requires forall k :: Lookup(m, k) == Lookup(n, k)
    ensures m == n
  {
    forall k ensures k in m <==> k in n {
      assert Lookup(m, k) == Lookup(n, k);
    }
    forall k | k in m ensures m[k] == n[k] {
      assert Lookup(m, k) == Lookup(n, k);
    }
  }

  function Else<V>(x: Option<V>, y: Option<V>): Option<V> {
    if x.Some? then x else y
  }

  function NonEmpty(m: map<nat, nat>): Option<map<nat, nat>> {
    if m == map[] then None else Some(m)
  }

  /** One contract's changes, looked up at any address. */
  lemma ApplyAt(acc: StateUpdates, a: nat, u: ContractUpdate, k: nat)
    ensures var r := Apply(acc, a, Unpacked(u.metadata), u.classHash, u.storage);
            && Lookup(r.nonces, k) ==
               (if k == a then Else(Unpacked(u.metadata).nonce, Lookup(acc.nonces, k)) else Lookup(acc.nonces, k))
            && Lookup(r.storage, k) ==
               (if k == a then Else(NonEmpty(u.storage), Lookup(acc.storage, k)) else Lookup(acc.storage, k))
            && Lookup(r.deployed, k) ==
               (if k == a then Else(u.classHash, Lookup(acc.deployed, k)) else Lookup(acc.deployed, k))
            && r.declared == acc.declared && r.deprecated == acc.deprecated && r.replaced == acc.replaced
  {
    var metadata := Unpacked(u.metadata);
    hide Unpacked;
    LookupUpdate(acc.storage, a, u.storage, k);
    if metadata.nonce.Some? { LookupUpdate(acc.nonces, a, metadata.nonce.value, k); }
    if u.classHash.Some? { LookupUpdate(acc.deployed, a, u.classHash.value, k); }
    hide Lookup;
  }

  lemma LookupUpdate<V>(m: map<nat, V>, a: nat, v: V, k: nat)
    ensures Lookup(m[a := v], k) == if k == a then Some(v) else Lookup(m, k)
  {
  }

  /** All contracts' changes, looked up at any address. */
  lemma {:induction false} ApplyAllAt(acc: StateUpdates, m: map<nat, ContractUpdate>, ks: seq<nat>, k: nat)
    requires forall j :: j in ks ==> j in m
    ensures var r := ApplyAll(acc, m, ks);
            && Lookup(r.nonces, k) ==
               (if k in ks then Else(Unpacked(m[k].metadata).nonce, Lookup(acc.nonces, k)) else Lookup(acc.nonces, k))
            && Lookup(r.storage, k) ==
               (if k in ks then Else(NonEmpty(m[k].storage), Lookup(acc.storage, k)) else Lookup(acc.storage, k))
            && Lookup(r.deployed, k) ==
               (if k in ks then Else(m[k].classHash, Lookup(acc.deployed, k)) else Lookup(acc.deployed, k))
            && r.declared == acc.declared && r.deprecated == acc.deprecated && r.replaced == acc.replaced
    decreases |ks|
  {
    hide Apply, Lookup, NonEmpty, Unpacked;
    if ks != [] {
      var u := m[ks[0]];
      ApplyAt(acc, ks[0], u, k);
      ApplyAllAt(Apply(acc, ks[0], Unpacked(u.metadata), u.classHash, u.storage), m, ks[1..], k);
      assert k in ks <==> k == ks[0] || k in ks[1..];
    }
  }

  lemma NormalFormAt(s: StateUpdates, k: nat)
    ensures var u, n := UpdateOf(s, k), NormalForm(s);
            && Lookup(n.nonces, k) == Unpacked(u.metadata).nonce
            && Lookup(n.storage, k) == NonEmpty(u.storage)
            && Lookup(n.deployed, k) == u.classHash
            && (k !in Touched(s) ==> u == DEFAULT_UPDATE)
  {
  }

  /** Applying every contract's changes to the empty diff gives the normal form. */
  lemma AppliedIsNormalForm(s: StateUpdates)
    ensures var m := ContractUpdates(s);
            ApplyAll(EMPTY, m, Ascending(m.Keys)).(declared := s.declared) == NormalForm(s)
  {
    var m, n := ContractUpdates(s), NormalForm(s);
    var ks := Ascending(m.Keys);
    var r := ApplyAll(EMPTY, m, ks);
    forall k
      ensures Lookup(r.nonces, k) == Lookup(n.nonces, k)
      ensures Lookup(r.storage, k) == Lookup(n.storage, k)
      ensures Lookup(r.deployed, k) == Lookup(n.deployed, k)
      ensures r.declared == map[] && r.deprecated == {} && r.replaced == map[]
    {
      AppliedAtIsNormalForm(s, k);
    }
    assert Lookup(r.nonces, 0) == Lookup(n.nonces, 0);
    MapsEqual(r.nonces, n.nonces);
    MapsEqual(r.storage, n.storage);
    MapsEqual(r.deployed, n.deployed);
  }

  lemma AppliedAtIsNormalForm(s: StateUpdates, k: nat)
    ensures var m, n := ContractUpdates(s), NormalForm(s);
            var r := ApplyAll(EMPTY, m, Ascending(m.Keys));
            && Lookup(r.nonces, k) == Lookup(n.nonces, k)
            && Lookup(r.storage, k) == Lookup(n.storage, k)
            && Lookup(r.deployed, k) == Lookup(n.deployed, k)
            && r.declared == map[] && r.deprecated == {} && r.replaced == map[]
  {
    hide ApplyAll, NormalForm, UpdateOf;
    var m := ContractUpdates(s);
    ApplyAllAt(EMPTY, m, Ascending(m.Keys), k);
    NormalFormAt(s, k);
  }

  lemma UpdateFitsAt(s: StateUpdates, a: nat)
    requires Encodable(s) && a in Touched(s)
    ensures a < ADDRESS_BOUND && UpdateFits(UpdateOf(s, a))
  {
  }

  lemma UpdatesFit(s: StateUpdates)
    requires Encodable(s)
    ensures |ContractUpdates(s)| < WORD
    ensures forall a :: a in ContractUpdates(s) ==> a < ADDRESS_BOUND && UpdateFits(ContractUpdates(s)[a])
  {
    hide UpdateFits, UpdateOf, WellTyped;
    assert ContractUpdates(s).Keys == Touched(s);
    forall a | a in ContractUpdates(s) ensures a < ADDRESS_BOUND && UpdateFits(ContractUpdates(s)[a]) {
      UpdateFitsAt(s, a);
    }
  }

  lemma DecodeSections(total: nat, contracts: seq<nat>, count: nat, classes: seq<nat>, s: StateUpdates, d: Parsed<map<nat, nat>>)
    requires total < WORD && count < WORD
    requires DecodeContracts(contracts + ([count] + classes), total, EMPTY) == Ok(Parsed(s, [count] + classes))
    requires DecodePairs(classes, count, map[], MissingClassHash, MissingCompiledClassHash) == Ok(d)
    ensures DecodePrefix([total] + (contracts + ([count] + classes))) == Ok(Parsed(s.(declared := d.value), d.rest))
  {
    hide DecodeContracts, DecodePairs;
    var after := [count] + classes;
    assert ([total] + (contracts + after))[1..] == contracts + after;
    assert after[1..] == classes;
  }

  lemma Regroup(x: nat, a: seq<nat>, y: nat, b: seq<nat>, rest: seq<nat>)
    ensures [x] + a + [y] + b + rest == [x] + (a + ([y] + (b + rest)))
  {
  }

  /** Decoding an encoded diff, whatever follows it, gives its normal form and consumes exactly its words. */
  lemma RoundTrip(s: StateUpdates, rest: seq<nat>)
    requires Encodable(s)
    ensures DecodePrefix(Encoded(s) + rest) == Ok(Parsed(NormalForm(s), rest))
    ensures Decoded(Encoded(s) + rest) == Ok(NormalForm(s))
  {
    hide *;
    var m := ContractUpdates(s);
    var ks, classes, after := Ascending(m.Keys), Entries(s.declared) + rest, [|s.declared|] + (Entries(s.declared) + rest);
    DeclaredFits(s);
    UpdatesFit(s);
    EncodedSections(s, rest);
    ContractsRoundTrip(m, ks, after, EMPTY);
    EntriesRoundTrip(s.declared, rest, MissingClassHash, MissingCompiledClassHash);
    AppliedIsNormalForm(s);
    DecodeSections(|m|, EncodeContracts(m, ks), |s.declared|, classes, ApplyAll(EMPTY, m, ks), Parsed(s.declared, rest));
    DecodedIs(Encoded(s) + rest);
  }

  lemma DeclaredFits(s: StateUpdates)
    requires Encodable(s)
    ensures FeltMap(s.declared) && |s.declared| < WORD
  {
  }

  lemma EncodedSections(s: StateUpdates, rest: seq<nat>)
    ensures var m := ContractUpdates(s);
            Encoded(s) + rest == [|m|] + (EncodeContracts(m, Ascending(m.Keys)) + ([|s.declared|] + (Entries(s.declared) + rest)))
  {
    hide EncodeContracts, Entries, ContractUpdates;
    Regroup(|ContractUpdates(s)|, EncodeUpdates(ContractUpdates(s)), |s.declared|, Entries(s.declared), rest);
  }

  lemma DecodedIs(words: seq<nat>)
    requires DecodePrefix(words).Ok?
    ensures Decoded(words) == Ok(DecodePrefix(words).value.value)
  {
  }

  // ---- Truncated encodings ----------------------------------------------

  lemma {:induction false} PairsExtend(
      words: seq<nat>, n: nat, acc: map<nat, nat>, key: DecodeError, value: DecodeError, more: seq<nat>)
    requires DecodePairs(words, n, acc, key, value).Ok?
    ensures var p := DecodePairs(words, n, acc, key, value).value;
            DecodePairs(words + more, n, acc, key, value) == Ok(Parsed(p.value, p.rest + more))
    decreases n
  {
    hide ToFelt;
    if n > 0 {
      PairsExtend(words[2..], n - 1, acc[ToFelt(words[0]) := ToFelt(words[1])], key, value, more);
      assert (words + more)[2..] == words[2..] + more;
    }
  }

  lemma ContractExtends(words: seq<nat>, acc: StateUpdates, more: seq<nat>)
    requires DecodeContract(words, acc).Ok?
    ensures var p := DecodeContract(words, acc).value;
            DecodeContract(words + more, acc) == Ok(Parsed(p.value, p.rest + more))
  {
    hide ToFelt, ToAddress, DecodeMetadata, DecodePairs, Apply;
    var metadata := DecodeMetadata(words[1]);
    var rest := if metadata.classFlag then words[3..] else words[2..];
    assert (words + more)[2..] == words[2..] + more;
    assert metadata.classFlag ==> (words + more)[3..] == words[3..] + more;
    PairsExtend(rest, metadata.storageCount, map[], MissingStorageKey, MissingStorageValue, more);
  }

  lemma {:induction false} ContractsExtend(words: seq<nat>, n: nat, acc: StateUpdates, more: seq<nat>)
    requires DecodeContracts(words, n, acc).Ok?
    ensures var p := DecodeContracts(words, n, acc).value;
            DecodeContracts(words + more, n, acc) == Ok(Parsed(p.value, p.rest + more))
    decreases n
  {
    hide DecodeContract;
    if n > 0 {
      var p := DecodeContract(words, acc).value;
      ContractExtends(words, acc, more);
      ContractsExtend(p.rest, n - 1, p.value, more);
    }
  }

  /** Words after a successfully decoded diff do not change it. */
  lemma PrefixExtends(words: seq<nat>, more: seq<nat>)
    requires words != [] && DecodePrefix(words).Ok?
    ensures var p := DecodePrefix(words).value;
            DecodePrefix(words + more) == Ok(Parsed(p.value, p.rest + more))
  {
    hide DecodeContracts, DecodePairs;
    var p := DecodeContracts(words[1..], words[0], EMPTY).value;
    ContractsExtend(words[1..], words[0], EMPTY, more);
    assert (words + more)[1..] == words[1..] + more;
    PairsExtend(p.rest[1..], p.rest[0], map[], MissingClassHash, MissingCompiledClassHash, more);
    assert (p.rest + more)[1..] == p.rest[1..] + more;
  }

  /** No proper non-empty prefix of an encoding decodes: the words are exhausted in the middle. */
  lemma TruncationFails(s: StateUpdates, n: nat)
    requires Encodable(s) && 0 < n < |Encoded(s)|
    ensures Decoded(Encoded(s)[..n]).Err?
  {
    hide DecodePrefix, Encoded, NormalForm;
    var kept, cut := Encoded(s)[..n], Encoded(s)[n..];
    assert kept + cut == Encoded(s) && Encoded(s) + [] == Encoded(s);
    RoundTrip(s, []);
    if DecodePrefix(kept).Ok? {
      PrefixExtends(kept, cut);
      assert false;
    }
  }

  /** Diffs with the same encoding have the same normal form. */
  lemma EncodingInjective(s: StateUpdates, t: StateUpdates)
    requires Encodable(s) && Encodable(t) && Encoded(s) == Encoded(t)
    ensures NormalForm(s) == NormalForm(t)
  {
    RoundTrip(s, []);
    RoundTrip(t, []);
  }
}

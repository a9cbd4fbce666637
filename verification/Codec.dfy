/** The encoder and decoder as they run: maps filled entry by entry, one output buffer, one input cursor. */
module Codec {
  import opened Outcomes
  import opened Sorted
  import opened StateDiff
  import opened MetadataWord
  import opened Encoding

  // ---- Encoder ----------------------------------------------------------

  /** The entries of `m` whose keys are listed. */
  function Restrict<V>(m: map<nat, V>, ks: seq<nat>): map<nat, V> {
    map k | k in m && k in ks :: m[k]
  }

  lemma RestrictNext<V>(m: map<nat, V>, ks: seq<nat>, i: nat)
    requires i < |ks| && ks[i] in m
    ensures Restrict(m, ks[..i + 1]) == Restrict(m, ks[..i])[ks[i] := m[ks[i]]]
  {
    assert ks[..i + 1] == ks[..i] + [ks[i]];
  }

  lemma RestrictAll<V>(m: map<nat, V>)
    ensures Restrict(m, Ascending(m.Keys)[..|m|]) == m
  {
    var ks := Ascending(m.Keys);
    assert |m| == |m.Keys| && ks[..|m|] == ks;
  }

  function EntryOrDefault(m: map<nat, ContractUpdate>, a: nat): ContractUpdate {
    if a in m then m[a] else DEFAULT_UPDATE
  }

  /** Touching one contract changes one entry. */
  lemma OneEntryChanges(s: StateUpdates, t: StateUpdates, a: nat)
    requires Touched(t) == Touched(s) + {a}
    requires forall b :: b != a ==> UpdateOf(t, b) == UpdateOf(s, b)
    ensures ContractUpdates(t) == ContractUpdates(s)[a := UpdateOf(t, a)]
  {
    hide UpdateOf;
  }

  lemma EntryIs(s: StateUpdates, a: nat)
    ensures EntryOrDefault(ContractUpdates(s), a) == UpdateOf(s, a)
  {
  }

  lemma AddNonce(s: StateUpdates, a: nat, nonce: nat)
    ensures var m := ContractUpdates(s);
            var u := EntryOrDefault(m, a);
            ContractUpdates(s.(nonces := s.nonces[a := nonce])) ==
            m[a := u.(metadata := u.metadata.(nonce := Some(nonce)))]
  {
    hide *;
    EntryIs(s, a);
    NonceTouches(s, a, nonce);
    forall b { NonceAt(s, a, nonce, b); }
    OneEntryChanges(s, s.(nonces := s.nonces[a := nonce]), a);
  }

  lemma NonceTouches(s: StateUpdates, a: nat, nonce: nat)
    ensures Touched(s.(nonces := s.nonces[a := nonce])) == Touched(s) + {a}
  {
  }

  lemma NonceAt(s: StateUpdates, a: nat, nonce: nat, b: nat)
    ensures UpdateOf(s.(nonces := s.nonces[a := nonce]), b) ==
            var u := UpdateOf(s, b);
            if b == a then u.(metadata := u.metadata.(nonce := Some(nonce))) else u
  {
  }

  lemma AddDeployed(s: StateUpdates, a: nat, hash: nat)
    ensures var m := ContractUpdates(s);
            var u := EntryOrDefault(m, a);
            ContractUpdates(s.(deployed := s.deployed[a := hash])) ==
            m[a := u.(metadata := u.metadata.(classFlag := true), classHash := Some(hash))]
  {
    hide *;
    EntryIs(s, a);
    DeployedTouches(s, a, hash);
    forall b { DeployedAt(s, a, hash, b); }
    OneEntryChanges(s, s.(deployed := s.deployed[a := hash]), a);
  }

  lemma DeployedTouches(s: StateUpdates, a: nat, hash: nat)
    ensures Touched(s.(deployed := s.deployed[a := hash])) == Touched(s) + {a}
  {
  }

  lemma DeployedAt(s: StateUpdates, a: nat, hash: nat, b: nat)
    ensures UpdateOf(s.(deployed := s.deployed[a := hash]), b) ==
            var u := UpdateOf(s, b);
            if b == a then u.(metadata := u.metadata.(classFlag := true), classHash := Some(hash)) else u
  {
  }

  lemma AddStorage(s: StateUpdates, a: nat, storage: map<nat, nat>)
    ensures var m := ContractUpdates(s);
            var u := EntryOrDefault(m, a);
            ContractUpdates(s.(storage := s.storage[a := storage])) ==
            m[a := u.(metadata := u.metadata.(storageCount := |storage|), storage := storage)]
  {
    hide *;
    EntryIs(s, a);
    StorageTouches(s, a, storage);
    forall b { StorageAt(s, a, storage, b); }
    OneEntryChanges(s, s.(storage := s.storage[a := storage]), a);
  }

  lemma StorageTouches(s: StateUpdates, a: nat, storage: map<nat, nat>)
    ensures Touched(s.(storage := s.storage[a := storage])) == Touched(s) + {a}
  {
  }

  lemma StorageAt(s: StateUpdates, a: nat, storage: map<nat, nat>, b: nat)
    ensures UpdateOf(s.(storage := s.storage[a := storage]), b) ==
            var u := UpdateOf(s, b);
            if b == a then u.(metadata := u.metadata.(storageCount := |storage|), storage := storage) else u
  {
  }

  /** The loop over the nonces. */
  method CollectNonces(s: StateUpdates) returns (updates: map<nat, ContractUpdate>)
    requires s.deployed == map[] && s.storage == map[]
    ensures updates == ContractUpdates(s)
  {
    hide ContractUpdates, Restrict, EntryOrDefault;
    var ks := Ascending(s.nonces.Keys);
    updates := map[];
    NothingTouched(s, ks);
    for i := 0 to |ks|
      invariant updates == ContractUpdates(s.(nonces := Restrict(s.nonces, ks[..i])))
    {
      var a := ks[i];
      var entry := EntryOrDefault(updates, a);
      AddNonce(s.(nonces := Restrict(s.nonces, ks[..i])), a, s.nonces[a]);
      RestrictNext(s.nonces, ks, i);
      updates := updates[a := entry.(metadata := entry.metadata.(nonce := Some(s.nonces[a])))];
    }
    RestrictAll(s.nonces);
  }

  /** The loop over the deployed contracts. */
  method CollectDeployed(s: StateUpdates, nonces: map<nat, ContractUpdate>) returns (updates: map<nat, ContractUpdate>)
    requires s.storage == map[] && nonces == ContractUpdates(s.(deployed := map[]))
    ensures updates == ContractUpdates(s)
  {
    hide ContractUpdates, Restrict, EntryOrDefault;
    var ks := Ascending(s.deployed.Keys);
    updates := nonces;
    RestrictNone(s.deployed, ks);
    for i := 0 to |ks|
      invariant updates == ContractUpdates(s.(deployed := Restrict(s.deployed, ks[..i])))
    {
      var a := ks[i];
      var entry := EntryOrDefault(updates, a);
      AddDeployed(s.(deployed := Restrict(s.deployed, ks[..i])), a, s.deployed[a]);
      RestrictNext(s.deployed, ks, i);
      updates := updates[a := entry.(metadata := entry.metadata.(classFlag := true), classHash := Some(s.deployed[a]))];
    }
    RestrictAll(s.deployed);
  }

  /** The loop over the storage updates. */
  method CollectStorage(s: StateUpdates, others: map<nat, ContractUpdate>) returns (updates: map<nat, ContractUpdate>)
    requires others == ContractUpdates(s.(storage := map[]))
    ensures updates == ContractUpdates(s)
  {
    hide ContractUpdates, Restrict, EntryOrDefault;
    var ks := Ascending(s.storage.Keys);
    updates := others;
    RestrictNone(s.storage, ks);
    for i := 0 to |ks|
      invariant updates == ContractUpdates(s.(storage := Restrict(s.storage, ks[..i])))
    {
      var a := ks[i];
      var entry := EntryOrDefault(updates, a);
      AddStorage(s.(storage := Restrict(s.storage, ks[..i])), a, s.storage[a]);
      RestrictNext(s.storage, ks, i);
      updates := updates[a := entry.(metadata := entry.metadata.(storageCount := |s.storage[a]|), storage := s.storage[a])];
    }
    RestrictAll(s.storage);
  }

  /** Every map contributes its part to the contract's entry. */
  method CollectUpdates(s: StateUpdates) returns (updates: map<nat, ContractUpdate>)
    ensures updates == ContractUpdates(s)
  {
    hide ContractUpdates;
    updates := CollectNonces(s.(deployed := map[], storage := map[]));
    updates := CollectDeployed(s.(storage := map[]), updates);
    updates := CollectStorage(s, updates);
  }

  lemma RestrictNone<V>(m: map<nat, V>, ks: seq<nat>)
    ensures Restrict(m, ks[..0]) == map[]
  {
  }

  lemma NothingTouched(s: StateUpdates, ks: seq<nat>)
    requires s.deployed == map[] && s.storage == map[]
    ensures ContractUpdates(s.(nonces := Restrict(s.nonces, ks[..0]))) == map[]
  {
  }

  method PushEntries(buffer: seq<nat>, m: map<nat, nat>) returns (out: seq<nat>)
    ensures out == buffer + Entries(m)
  {
    var ks := Ascending(m.Keys);
    out := buffer;
    for i := 0 to |ks|
      invariant out + Pairs(m, ks[i..]) == buffer + Entries(m)
    {
      assert ks[i..][1..] == ks[i + 1..];
      out := out + [ks[i]];
      out := out + [m[ks[i]]];
    }
    assert Pairs(m, ks[|ks|..]) == [];
  }

  method PushUpdate(buffer: seq<nat>, u: ContractUpdate) returns (out: seq<nat>)
    ensures out == buffer + EncodeUpdate(u)
  {
    hide EncodeMetadata, Entries;
    out := buffer + [EncodeMetadata(u.metadata)];
    if u.classHash.Some? {
      out := out + [u.classHash.value];
    }
    out := PushEntries(out, u.storage);
  }

  method EncodeStateUpdates(s: StateUpdates) returns (buffer: seq<nat>)
    requires forall a :: a in s.nonces ==> s.nonces[a] < WORD
    ensures buffer == Encoded(s)
  {
    hide EncodeUpdate, ContractUpdates, Entries, EncodeContracts, EncodeUpdates;
    var updates := CollectUpdates(s);
    buffer := [|updates|];
    buffer := PushUpdates(buffer, updates);
    buffer := buffer + [|s.declared|];
    buffer := PushEntries(buffer, s.declared);
  }

  method PushUpdates(buffer: seq<nat>, updates: map<nat, ContractUpdate>) returns (out: seq<nat>)
    ensures out == buffer + EncodeUpdates(updates)
  {
    hide EncodeUpdate, EncodeContracts;
    var ks := Ascending(updates.Keys);
    out := buffer;
    assert ks[0..] == ks;
    for i := 0 to |ks|
      invariant out + EncodeContracts(updates, ks[i..]) == buffer + EncodeUpdates(updates)
    {
      ContractsFrom(out, updates, ks, i);
      out := out + [ks[i]];
      out := PushUpdate(out, updates[ks[i]]);
    }
    NoMoreContracts(out, updates, ks);
  }

  lemma ContractsFrom(out: seq<nat>, m: map<nat, ContractUpdate>, ks: seq<nat>, i: nat)
    requires i < |ks| && forall k :: k in ks ==> k in m
    ensures out + EncodeContracts(m, ks[i..]) ==
            out + [ks[i]] + EncodeUpdate(m[ks[i]]) + EncodeContracts(m, ks[i + 1..])
  {
    hide EncodeUpdate;
    assert ks[i..][1..] == ks[i + 1..];
  }

  lemma NoMoreContracts(out: seq<nat>, m: map<nat, ContractUpdate>, ks: seq<nat>)
    requires forall k :: k in ks ==> k in m
    ensures out + EncodeContracts(m, ks[|ks|..]) == out
  {
  }

  // ---- Decoder ----------------------------------------------------------

  /** `n` pairs read off the cursor into a map. */
  method ReadPairs(words: seq<nat>, n: nat, key: DecodeError, value: DecodeError)
    returns (r: Result<Parsed<map<nat, nat>>, DecodeError>)
    ensures r == DecodePairs(words, n, map[], key, value)
  {
    hide ToFelt;
    var iter := words;
    var pairs: map<nat, nat> := map[];
    for i := 0 to n
      invariant DecodePairs(iter, n - i, pairs, key, value) == DecodePairs(words, n, map[], key, value)
    {
      if iter == [] { return Err(key); }
      var k := ToFelt(iter[0]);
      if |iter| == 1 { return Err(value); }
      var v := ToFelt(iter[1]);
      iter := iter[2..];
      pairs := pairs[k := v];
    }
    r := Ok(Parsed(pairs, iter));
  }

  method ReadContract(words: seq<nat>, acc: StateUpdates) returns (r: Result<Parsed<StateUpdates>, DecodeError>)
    ensures r == DecodeContract(words, acc)
  {
    hide ToFelt, ToAddress, DecodePairs, DecodeMetadata;
    if words == [] { return Err(MissingAddress); }
    var address := ToAddress(words[0]);
    if |words| == 1 { return Err(MissingMetadata); }
    var metadata := DecodeMetadata(words[1]);
    var iter, classHash := words[2..], None;
    if metadata.classFlag {
      if iter == [] { return Err(MissingNewClassHash); }
      classHash := Some(ToFelt(iter[0]));
      iter := iter[1..];
    }
    assert iter == if metadata.classFlag then words[3..] else words[2..];
    var storages := ReadPairs(iter, metadata.storageCount, MissingStorageKey, MissingStorageValue);
    if storages.Err? { return Err(storages.error); }
    var updates := acc;
    if storages.value.value != map[] {
      updates := updates.(storage := updates.storage[address := storages.value.value]);
    }
    if metadata.nonce.Some? {
      updates := updates.(nonces := updates.nonces[address := metadata.nonce.value]);
    }
    if classHash.Some? {
      updates := updates.(deployed := updates.deployed[address := classHash.value]);
    }
    r := Ok(Parsed(updates, storages.value.rest));
  }

  method DecodeStateUpdates(words: seq<nat>) returns (r: Result<StateUpdates, DecodeError>)
    ensures r == Decoded(words)
  {
    hide DecodeContract, DecodePairs;
    var updates := EMPTY;
    if words == [] { return Ok(updates); }
    var total, iter := words[0], words[1..];
    if total >= WORD { return Err(InvalidValue); }
    for i := 0 to total
      invariant DecodeContracts(iter, total - i, updates) == DecodeContracts(words[1..], words[0], EMPTY)
    {
      var contract := ReadContract(iter, updates);
      if contract.Err? { return Err(contract.error); }
      updates, iter := contract.value.value, contract.value.rest;
    }
    if iter == [] { return Err(MissingDeclarationsCount); }
    var declarations := iter[0];
    if declarations >= WORD { return Err(InvalidValue); }
    var classes := ReadPairs(iter[1..], declarations, MissingClassHash, MissingCompiledClassHash);
    if classes.Err? { return Err(classes.error); }
    r := Ok(updates.(declared := classes.value.value));
  }
}

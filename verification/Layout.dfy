/** Where every word of an encoding stands, without reference to how it is written. */
module Layout {
  import opened Encoding
  import opened MetadataWord
  import opened Outcomes
  import opened Sequences
  import opened Sorted
  import opened StateDiff
  import opened StateDiffHash
  import opened Text

  // ---- Lists in order ---------------------------------------------------

  /** Two increasing lists with the same elements are equal. */
  lemma {:induction false} IncreasingUnique(s: seq<nat>, t: seq<nat>)
    requires Increasing(s) && Increasing(t) && forall x :: x in s <==> x in t
    ensures s == t
  {
    NoMembers(s);
    NoMembers(t);
    if s != [] && t != [] {
      assert s[0] in t;
      var i :| 0 <= i < |t| && t[i] == s[0];
      assert t[0] in s;
      var j :| 0 <= j < |s| && s[j] == t[0];
      assert s[0] <= s[j] == t[0] <= t[i] == s[0];
      assert s == [s[0]] + s[1..] && t == [t[0]] + t[1..];
      forall x ensures x in s[1..] <==> x in t[1..] {
        TailMember(s, x);
        TailMember(t, x);
      }
      IncreasingUnique(s[1..], t[1..]);
    }
  }

  lemma NoMembers(s: seq<nat>)
    ensures s == [] <==> forall x :: x !in s
  {
    if s != [] { assert s[0] in s; }
  }

  lemma TailMember(s: seq<nat>, x: nat)
    requires s != [] && Increasing(s)
    ensures x in s[1..] <==> x in s && x != s[0]
  {
    if x in s[1..] {
      var i :| 0 <= i < |s[1..]| && s[1..][i] == x;
      assert s[i + 1] == x && s[0] < s[i + 1];
    }
    if x in s && x != s[0] {
      var i :| 0 <= i < |s| && s[i] == x;
      assert s[1..][i - 1] == x;
    }
  }

  function Members(s: seq<nat>): set<nat> {
    set x | x in s
  }

  lemma {:induction false} IncreasingCount(s: seq<nat>)
    requires Increasing(s)
    ensures |Members(s)| == |s|
  {
    if s != [] {
      IncreasingCount(s[1..]);
      forall x ensures x in Members(s[1..]) <==> x in s && x != s[0] {
        TailMember(s, x);
      }
      assert Members(s) == Members(s[1..]) + {s[0]} && s[0] !in Members(s[1..]);
    }
  }

  /** An increasing list of as many elements of a set as it has is its enumeration. */
  lemma IncreasingIsAscending(ks: seq<nat>, s: set<nat>)
    requires Increasing(ks) && |ks| == |s| && forall x :: x in ks ==> x in s
    ensures ks == Ascending(s)
  {
    hide Ascending;
    IncreasingCount(ks);
    assert Members(ks) <= s;
    SubsetEqual(Members(ks), s);
    AscendingIncreases(s);
    forall x ensures x in ks <==> x in Ascending(s) {
      assert x in Ascending(s) <==> x in s;
      assert x in ks <==> x in Members(ks);
    }
    IncreasingUnique(ks, Ascending(s));
  }

  lemma {:induction false} SubsetEqual(a: set<nat>, b: set<nat>)
    requires a <= b && |a| == |b|
    ensures a == b
  {
    if a != b {
      var x :| x in b && x !in a;
      assert a <= b - {x};
      SubsetCount(a, b - {x});
    }
  }

  lemma {:induction false} SubsetCount(a: set<nat>, b: set<nat>)
    requires a <= b
    ensures |a| <= |b|
  {
    if a != {} {
      var x :| x in a;
      SubsetCount(a - {x}, b - {x});
    }
  }

  // ---- Maps and sets as lists of words ----------------------------------

  function KeyAt(words: seq<nat>, i: nat): nat
    requires 2 * i < |words|
  {
    words[2 * i]
  }

  function ValueAt(words: seq<nat>, i: nat): nat
    requires 2 * i + 1 < |words|
  {
    words[2 * i + 1]
  }

  /** The words are the entries of `m`: its keys, in increasing order, each followed by its value. */
  predicate ListsMap(words: seq<nat>, m: map<nat, nat>) {
    && |words| == 2 * |m|
    && (forall i: nat :: i < |m| ==> KeyAt(words, i) in m && ValueAt(words, i) == m[KeyAt(words, i)])
    && (forall i: nat, j: nat :: i < j < |m| ==> KeyAt(words, i) < KeyAt(words, j))
  }

  /** The words are the elements of `s`, in increasing order. */
  predicate ListsSet(words: seq<nat>, s: set<nat>) {
    |words| == |s| && Increasing(words) && forall x :: x in words ==> x in s
  }

  lemma {:induction false} PairsAt(m: map<nat, nat>, ks: seq<nat>, i: nat)
    requires (forall k :: k in ks ==> k in m) && i < |ks|
    ensures KeyAt(Pairs(m, ks), i) == ks[i] && ValueAt(Pairs(m, ks), i) == m[ks[i]]
  {
    if i > 0 {
      PairsAt(m, ks[1..], i - 1);
      assert Pairs(m, ks)[2..] == Pairs(m, ks[1..]);
    }
  }

  lemma WordsEqual(a: seq<nat>, b: seq<nat>, n: nat)
    requires |a| == |b| == 2 * n
    requires forall i: nat :: i < n ==> KeyAt(a, i) == KeyAt(b, i) && ValueAt(a, i) == ValueAt(b, i)
    ensures a == b
  {
    forall w | 0 <= w < |a| ensures a[w] == b[w] {
      var i := w / 2;
      assert KeyAt(a, i) == KeyAt(b, i) && ValueAt(a, i) == ValueAt(b, i);
    }
  }

  lemma EntriesAre(m: map<nat, nat>)
    ensures Entries(m) == Pairs(m, Ascending(m.Keys))
  {
  }

  /** The entries of a map are the only words that list it. */
  lemma ListsMapIff(words: seq<nat>, m: map<nat, nat>)
    ensures ListsMap(words, m) <==> words == Entries(m)
  {
    hide Entries, Pairs, Ascending, KeyAt, ValueAt;
    EntriesAre(m);
    if ListsMap(words, m) {
      KeysAscend(words, m);
      forall i: nat | i < |m|
        ensures KeyAt(words, i) == KeyAt(Entries(m), i) && ValueAt(words, i) == ValueAt(Entries(m), i)
      {
        PairsAt(m, Ascending(m.Keys), i);
      }
      WordsEqual(words, Entries(m), |m|);
    }
    AscendingIncreases(m.Keys);
    forall i: nat | i < |m|
      ensures var e := Entries(m); KeyAt(e, i) == Ascending(m.Keys)[i] && KeyAt(e, i) in m && ValueAt(e, i) == m[KeyAt(e, i)]
    {
      assert Ascending(m.Keys)[i] in Ascending(m.Keys);
      PairsAt(m, Ascending(m.Keys), i);
    }
  }

  lemma KeysAscend(words: seq<nat>, m: map<nat, nat>)
    requires ListsMap(words, m)
    ensures forall i: nat :: i < |m| ==> KeyAt(words, i) == Ascending(m.Keys)[i]
  {
    hide Ascending, KeyAt, ValueAt;
    var ks := seq(|m|, i requires 0 <= i < |m| => KeyAt(words, i));
    assert Increasing(ks);
    forall x | x in ks ensures x in m.Keys {
      var i: nat :| i < |ks| && ks[i] == x;
      assert KeyAt(words, i) in m;
    }
    IncreasingIsAscending(ks, m.Keys);
    assert forall i: nat :: i < |m| ==> ks[i] == KeyAt(words, i);
  }

  lemma ListsSetIff(words: seq<nat>, s: set<nat>)
    ensures ListsSet(words, s) <==> words == Ascending(s)
  {
    hide Ascending;
    if ListsSet(words, s) { IncreasingIsAscending(words, s); }
    AscendingIncreases(s);
  }

  // ---- The published encoding -------------------------------------------

  function StorageAt(s: StateUpdates, a: nat): map<nat, nat> {
    if a in s.storage then s.storage[a] else map[]
  }

  /** The number of words before a contract's storage entries. */
  function Head(s: StateUpdates, a: nat): nat {
    if a in s.deployed then 3 else 2
  }

  /** Address, metadata word, class hash if there is one, then the storage entries. */
  predicate ContractLaid(words: seq<nat>, a: nat, s: StateUpdates) {
    && |words| >= Head(s, a) && words[0] == a
    && words[1] == Packed(
         Metadata(a in s.deployed, if a in s.nonces then Some(s.nonces[a]) else None, |StorageAt(s, a)|))
    && (a in s.deployed ==> words[2] == s.deployed[a])
    && ListsMap(words[Head(s, a)..], StorageAt(s, a))
  }

  /** The contracts one after the other. */
  predicate ContractsLaid(words: seq<nat>, addresses: seq<nat>, s: StateUpdates)
    decreases |addresses|
  {
    if addresses == [] then words == []
    else
      var n := Head(s, addresses[0]) + 2 * |StorageAt(s, addresses[0])|;
      && n <= |words| && ContractLaid(words[..n], addresses[0], s)
      && ContractsLaid(words[n..], addresses[1..], s)
  }

  /** The addresses that have changed, in increasing order. */
  ghost predicate ListsTouched(addresses: seq<nat>, s: StateUpdates) {
    Increasing(addresses) && forall a :: a in addresses <==> a in s.nonces || a in s.deployed || a in s.storage
  }

  ghost predicate SectionsLaid(
      words: seq<nat>, addresses: seq<nat>, contracts: seq<nat>, classes: seq<nat>, s: StateUpdates)
  {
    && words == [|addresses|] + contracts + [|s.declared|] + classes
    && ListsTouched(addresses, s) && ContractsLaid(contracts, addresses, s) && ListsMap(classes, s.declared)
  }

  /** The count of contracts, the contracts by increasing address, the count of classes, the classes by increasing hash. */
  ghost predicate EncodingLaid(words: seq<nat>, s: StateUpdates) {
    exists addresses, contracts, classes :: SectionsLaid(words, addresses, contracts, classes, s)
  }

  lemma HeadSplit(words: seq<nat>, a: nat, metadata: nat, hash: seq<nat>, entries: seq<nat>)
    requires |hash| <= 1
    ensures words == [a] + ([metadata] + hash + entries) <==>
            && |words| >= 2 + |hash| && words[0] == a && words[1] == metadata
            && (|hash| == 1 ==> words[2] == hash[0])
            && words[2 + |hash|..] == entries
  {
    var all := [a] + ([metadata] + hash + entries);
    assert all[2 + |hash|..] == entries;
    if |words| >= 2 + |hash| { assert words == words[..2 + |hash|] + words[2 + |hash|..]; }
  }

  lemma ContractLaidIff(words: seq<nat>, a: nat, s: StateUpdates)
    requires Encodable(s) && a in Touched(s)
    ensures ContractLaid(words, a, s) <==> words == [a] + EncodeUpdate(UpdateOf(s, a))
  {
    hide Encodable, Entries, EncodeMetadata, Packed, ListsMap, Touched, UpdateFits;
    UpdateFitsAt(s, a);
    var u := UpdateOf(s, a);
    assert Packable(u.metadata) by { FitsPackable(u); }
    EncodeMetadataIs(u.metadata);
    HeadSplit(words, a, Packed(u.metadata), if a in s.deployed then [s.deployed[a]] else [], Entries(u.storage));
    if |words| >= Head(s, a) { ListsMapIff(words[Head(s, a)..], u.storage); }
  }

  lemma FitsPackable(u: ContractUpdate)
    requires UpdateFits(u)
    ensures Packable(u.metadata)
  {
  }

  lemma CutIff(words: seq<nat>, head: seq<nat>, rest: seq<nat>)
    ensures words == head + rest <==> |head| <= |words| && words[..|head|] == head && words[|head|..] == rest
  {
    assert (head + rest)[..|head|] == head && (head + rest)[|head|..] == rest;
    if |head| <= |words| { assert words == words[..|head|] + words[|head|..]; }
  }

  lemma {:induction false} ContractsLaidIff(words: seq<nat>, ks: seq<nat>, s: StateUpdates)
    requires Encodable(s) && forall k :: k in ks ==> k in ContractUpdates(s)
    ensures ContractsLaid(words, ks, s) <==> words == EncodeContracts(ContractUpdates(s), ks)
    decreases |ks|
  {
    hide Encodable, ContractLaid, EncodeUpdate, ContractUpdates, EncodeContracts, UpdateOf, StorageAt;
    ContractsAre(ContractUpdates(s), ks);
    if ks != [] {
      var a, m := ks[0], ContractUpdates(s);
      assert a in ks;
      UpdatesAt(s, a);
      var head, n := [a] + EncodeUpdate(m[a]), Head(s, a) + 2 * |StorageAt(s, a)|;
      ContractSize(s, a);
      var rest := EncodeContracts(m, ks[1..]);
      CutIff(words, head, rest);
      if n <= |words| {
        ContractLaidIff(words[..n], a, s);
        ContractsLaidIff(words[n..], ks[1..], s);
      }
    }
  }

  lemma ContractsAre(m: map<nat, ContractUpdate>, ks: seq<nat>)
    requires forall k :: k in ks ==> k in m
    ensures EncodeContracts(m, ks) ==
            if ks == [] then [] else ([ks[0]] + EncodeUpdate(m[ks[0]])) + EncodeContracts(m, ks[1..])
  {
    hide EncodeUpdate;
  }

  lemma UpdatesAt(s: StateUpdates, a: nat)
    ensures a in ContractUpdates(s) <==> a in Touched(s)
    ensures a in ContractUpdates(s) ==> ContractUpdates(s)[a] == UpdateOf(s, a)
  {
  }

  lemma ContractSize(s: StateUpdates, a: nat)
    ensures |[a] + EncodeUpdate(UpdateOf(s, a))| == Head(s, a) + 2 * |StorageAt(s, a)|
  {
    hide EncodeMetadata;
  }

  lemma TouchedIs(addresses: seq<nat>, s: StateUpdates)
    ensures ListsTouched(addresses, s) <==> addresses == Ascending(ContractUpdates(s).Keys)
    ensures |Ascending(ContractUpdates(s).Keys)| == |ContractUpdates(s)|
  {
    hide Ascending, UpdateOf;
    var ks := ContractUpdates(s).Keys;
    AscendingIncreases(ks);
    assert forall a :: a in ks <==> a in s.nonces || a in s.deployed || a in s.storage;
    if ListsTouched(addresses, s) { IncreasingUnique(addresses, Ascending(ks)); }
  }

  /**
    The encoding of a diff is the only list of words that is laid out like this: every count, address, metadata word,
    class hash, key and value stands where it should, and addresses, keys and class hashes increase.
   */
  lemma EncodingLaidIff(words: seq<nat>, s: StateUpdates)
    requires Encodable(s)
    ensures EncodingLaid(words, s) <==> words == Encoded(s)
  {
    hide Encodable, ListsTouched, ContractsLaid, ListsMap, ContractUpdates, EncodeContracts, Entries;
    var m := ContractUpdates(s);
    var ks := Ascending(m.Keys);
    if EncodingLaid(words, s) {
      var addresses, contracts, classes :| SectionsLaid(words, addresses, contracts, classes, s);
      TouchedIs(addresses, s);
      ContractsLaidIff(contracts, addresses, s);
      ListsMapIff(classes, s.declared);
    }
    if words == Encoded(s) {
      TouchedIs(ks, s);
      ContractsLaidIff(EncodeContracts(m, ks), ks, s);
      ListsMapIff(Entries(s.declared), s.declared);
      assert SectionsLaid(words, ks, EncodeContracts(m, ks), Entries(s.declared), s);
    }
  }

  // ---- The hashed list --------------------------------------------------

  /** The contracts with changed storage: address, number of entries, entries. */
  predicate StoragesLaid(words: seq<nat>, addresses: seq<nat>, storage: map<nat, map<nat, nat>>)
    requires forall a :: a in addresses ==> a in storage
    decreases |addresses|
  {
    if addresses == [] then words == []
    else
      var m := storage[addresses[0]];
      && 2 + 2 * |m| <= |words| && words[0] == addresses[0] && words[1] == |m|
      && ListsMap(words[2..2 + 2 * |m|], m)
      && StoragesLaid(words[2 + 2 * |m|..], addresses[1..], storage)
  }

  lemma StorageNone(storage: map<nat, map<nat, nat>>)
    ensures StorageElements(storage, []) == []
  {
  }

  /** The prefix, then the counted sections, with a one and a zero before the storage. */
  function Joined(
      prefix: nat, deployed: seq<nat>, replaced: seq<nat>, declared: seq<nat>, deprecated: seq<nat>,
      storages: seq<nat>, nonces: seq<nat>, s: StateUpdates): seq<nat>
  {
    [prefix, |s.deployed| + |s.replaced|] + deployed + replaced
    + [|s.declared|] + declared + [|s.deprecated|] + deprecated + [1, 0]
    + [|s.storage|] + storages + [|s.nonces|] + nonces
  }

  ghost predicate ElementsCut(
      words: seq<nat>, deployed: seq<nat>, replaced: seq<nat>, declared: seq<nat>, deprecated: seq<nat>,
      addresses: seq<nat>, storages: seq<nat>, nonces: seq<nat>, s: StateUpdates)
  {
    && words == Joined(ShortString("STARKNET_STATE_DIFF0"), deployed, replaced, declared, deprecated, storages, nonces, s)
    && ListsMap(deployed, s.deployed) && ListsMap(replaced, s.replaced)
    && ListsMap(declared, s.declared) && ListsSet(deprecated, s.deprecated)
    && ListsSet(addresses, s.storage.Keys) && StoragesLaid(storages, addresses, s.storage)
    && ListsMap(nonces, s.nonces)
  }

  /** Every map and set is listed in its section, in increasing order. */
  ghost predicate ElementsLaid(words: seq<nat>, s: StateUpdates) {
    exists deployed, replaced, declared, deprecated, addresses, storages, nonces ::
      ElementsCut(words, deployed, replaced, declared, deprecated, addresses, storages, nonces, s)
  }

  lemma {:induction false} StoragesLaidIff(words: seq<nat>, ks: seq<nat>, storage: map<nat, map<nat, nat>>)
    requires forall a :: a in ks ==> a in storage
    ensures StoragesLaid(words, ks, storage) <==> words == StorageElements(storage, ks)
    decreases |ks|
  {
    hide ListsMap, Entries, StorageElements;
    StorageNone(storage);
    if ks != [] {
      var m := storage[ks[0]];
      var n, rest := 2 + 2 * |m|, StorageElements(storage, ks[1..]);
      StorageUnfold(storage, ks);
      var head := [ks[0], |m|] + Entries(m);
      CutIff(words, head, rest);
      if n <= |words| {
        CutIff(words[..n], [ks[0], |m|], Entries(m));
        assert words[..n][2..] == words[2..n] && words[..n][..2] == [words[0], words[1]];
        ListsMapIff(words[2..n], m);
        StoragesLaidIff(words[n..], ks[1..], storage);
      }
    }
  }

  lemma MagicIs()
    ensures MAGIC == ShortString("STARKNET_STATE_DIFF0")
  {
    hide ShortString;
    var text := "STARKNET_STATE_DIFF0";
    assert ShortString("") == 0 by { NothingShort(); }
    FiveMore("", 'S', 'T', 'A', 'R', 'K');
    FiveMore("" + ['S', 'T', 'A', 'R', 'K'], 'N', 'E', 'T', '_', 'S');
    var half := "" + ['S', 'T', 'A', 'R', 'K'] + ['N', 'E', 'T', '_', 'S'];
    FiveMore(half, 'T', 'A', 'T', 'E', '_');
    FiveMore(half + ['T', 'A', 'T', 'E', '_'], 'D', 'I', 'F', 'F', '0');
    assert half + ['T', 'A', 'T', 'E', '_'] + ['D', 'I', 'F', 'F', '0'] == text;
  }

  lemma ElementsAre(s: StateUpdates)
    ensures Elements(s) ==
            Joined(MAGIC, Entries(s.deployed), Entries(s.replaced), Entries(s.declared), Ascending(s.deprecated),
                   StorageElements(s.storage, Ascending(s.storage.Keys)), Entries(s.nonces), s)
  {
    hide Entries, StorageElements, Ascending, Section;
    var top := [MAGIC, |s.deployed| + |s.replaced|] + Entries(s.deployed) + Entries(s.replaced);
    var classes := top + [|s.declared|] + Entries(s.declared);
    var earlier := classes + [|s.deprecated|] + Ascending(s.deprecated);
    var storages := StorageElements(s.storage, Ascending(s.storage.Keys));
    TopIs(MAGIC, |s.deployed| + |s.replaced|, Entries(s.deployed), Entries(s.replaced), DeclaredSection(s));
    SectionAfter(top, |s.declared|, Entries(s.declared), DeprecatedSection(s));
    SectionAfter(classes, |s.deprecated|, Ascending(s.deprecated), [1, 0] + StorageSection(s));
    Associates(earlier, [1, 0], StorageSection(s));
    SectionAfter(earlier + [1, 0], |s.storage|, storages, NonceSection(s));
    SectionAfter(earlier + [1, 0] + [|s.storage|] + storages, |s.nonces|, Entries(s.nonces), []);
  }

  lemma TopIs(magic: nat, n: nat, a: seq<nat>, b: seq<nat>, rest: seq<nat>)
    ensures [magic] + Section(n, a + b, rest) == [magic, n] + a + b + rest
  {
  }

  lemma SectionAfter(before: seq<nat>, n: nat, items: seq<nat>, rest: seq<nat>)
    ensures before + Section(n, items, rest) == before + [n] + items + rest
    ensures before + [n] + items + [] == before + [n] + items
  {
  }

  /** The hashed list of a diff is the only list that is laid out like this. */
  lemma ElementsLaidIff(words: seq<nat>, s: StateUpdates)
    ensures ElementsLaid(words, s) <==> words == Elements(s)
  {
    hide Elements, ListsMap, ListsSet, StoragesLaid, StorageElements, Entries, Ascending, ShortString, MAGIC, Joined;
    MagicIs();
    ElementsAre(s);
    var ks := Ascending(s.storage.Keys);
    if ElementsLaid(words, s) {
      var deployed, replaced, declared, deprecated, addresses, storages, nonces :|
        ElementsCut(words, deployed, replaced, declared, deprecated, addresses, storages, nonces, s);
      ListsMapIff(deployed, s.deployed);
      ListsMapIff(replaced, s.replaced);
      ListsMapIff(declared, s.declared);
      ListsSetIff(deprecated, s.deprecated);
      ListsSetIff(addresses, s.storage.Keys);
      StoragesLaidIff(storages, ks, s.storage);
      ListsMapIff(nonces, s.nonces);
    }
    if words == Elements(s) {
      ListsMapIff(Entries(s.deployed), s.deployed);
      ListsMapIff(Entries(s.replaced), s.replaced);
      ListsMapIff(Entries(s.declared), s.declared);
      ListsSetIff(Ascending(s.deprecated), s.deprecated);
      ListsSetIff(ks, s.storage.Keys);
      StoragesLaidIff(StorageElements(s.storage, ks), ks, s.storage);
      ListsMapIff(Entries(s.nonces), s.nonces);
      assert ElementsCut(words, Entries(s.deployed), Entries(s.replaced), Entries(s.declared), Ascending(s.deprecated),
                         ks, StorageElements(s.storage, ks), Entries(s.nonces), s);
    }
  }
}

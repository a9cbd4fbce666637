/** The list of field elements that a state-diff commitment hashes. */
module StateDiffHash {
  import opened Sequences
  import opened Sorted
  import opened StateDiff

  /** The short string "STARKNET_STATE_DIFF0". */
  const MAGIC: nat := 0x535441524b4e45545f53544154455f4449464630

  /** Address, entry count and entries of each contract's storage. */
  function StorageElements(m: map<nat, map<nat, nat>>, ks: seq<nat>): seq<nat>
    requires forall k :: k in ks ==> k in m
  {
    if ks == [] then []
    else [ks[0], |m[ks[0]]|] + Entries(m[ks[0]]) + StorageElements(m, ks[1..])
  }

  /** The deployed contracts followed by the replaced classes. */
  function UpdatedContracts(s: StateUpdates): seq<nat> {
    Entries(s.deployed) + Entries(s.replaced)
  }

  /** A counted list, then what follows it. */
  function Section(n: nat, items: seq<nat>, rest: seq<nat>): seq<nat> {
    [n] + items + rest
  }

  function NonceSection(s: StateUpdates): seq<nat> {
    Section(|s.nonces|, Entries(s.nonces), [])
  }

  function StorageSection(s: StateUpdates): seq<nat> {
    Section(|s.storage|, StorageElements(s.storage, Ascending(s.storage.Keys)), NonceSection(s))
  }

  function DeprecatedSection(s: StateUpdates): seq<nat> {
    Section(|s.deprecated|, Ascending(s.deprecated), [1, 0] + StorageSection(s))
  }

  function DeclaredSection(s: StateUpdates): seq<nat> {
    Section(|s.declared|, Entries(s.declared), DeprecatedSection(s))
  }

  /** The whole list, in the order in which it is chained. */
  function Elements(s: StateUpdates): seq<nat> {
    [MAGIC] + Section(|s.deployed| + |s.replaced|, UpdatedContracts(s), DeclaredSection(s))
  }

  // ---- Unique parsing ---------------------------------------------------

  lemma SectionParses(n: nat, a: seq<nat>, x: seq<nat>, m: nat, b: seq<nat>, y: seq<nat>, width: nat)
    requires |a| == width * n && |b| == width * m
    requires Section(n, a, x) == Section(m, b, y)
    ensures n == m && a == b && x == y
  {
    var s, t := Section(n, a, x), Section(m, b, y);
    assert s[0] == n && t[0] == m;
    assert s[1..1 + |a|] == a && t[1..1 + |b|] == b;
    assert s[1 + |a|..] == x && t[1 + |b|..] == y;
  }

  lemma {:induction false} PairsParse(m: map<nat, nat>, ks: seq<nat>, n: map<nat, nat>, js: seq<nat>)
    requires (forall k :: k in ks ==> k in m) && (forall k :: k in js ==> k in n)
    requires Pairs(m, ks) == Pairs(n, js)
    ensures ks == js && forall k :: k in ks ==> m[k] == n[k]
  {
    var p, q := Pairs(m, ks), Pairs(n, js);
    assert |ks| == |js|;
    if ks != [] {
      assert p[0] == ks[0] && q[0] == js[0] && p[1] == m[ks[0]] && q[1] == n[js[0]];
      assert p[2..] == Pairs(m, ks[1..]) && q[2..] == Pairs(n, js[1..]);
      PairsParse(m, ks[1..], n, js[1..]);
      assert forall k :: k in ks ==> k == ks[0] || k in ks[1..];
    }
  }

  lemma KeysListed(m: set<nat>, n: set<nat>)
    requires Ascending(m) == Ascending(n)
    ensures m == n
  {
    forall x ensures x in m <==> x in n {
      assert x in Ascending(m) <==> x in m;
      assert x in Ascending(n) <==> x in n;
    }
  }

  /** A map is determined by its flattened entries. */
  lemma EntriesInjective(m: map<nat, nat>, n: map<nat, nat>)
    requires Entries(m) == Entries(n)
    ensures m == n
  {
    hide Pairs;
    PairsParse(m, Ascending(m.Keys), n, Ascending(n.Keys));
    KeysListed(m.Keys, n.Keys);
  }

  lemma {:induction false} StorageParses(
      m: map<nat, map<nat, nat>>, ks: seq<nat>, x: seq<nat>, n: map<nat, map<nat, nat>>, js: seq<nat>, y: seq<nat>)
    requires (forall k :: k in ks ==> k in m) && (forall k :: k in js ==> k in n)
    requires |ks| == |js|
    requires StorageElements(m, ks) + x == StorageElements(n, js) + y
    ensures ks == js && x == y && forall k :: k in ks ==> m[k] == n[k]
    decreases |ks|
  {
    if ks == [] {
      assert [] + x == x && [] + y == y;
    } else {
      var a, b := m[ks[0]], n[js[0]];
      var restA, restB := StorageElements(m, ks[1..]) + x, StorageElements(n, js[1..]) + y;
      StorageHead(m, ks, x);
      StorageHead(n, js, y);
      ConsInjective(ks[0], Section(|a|, Entries(a), restA), js[0], Section(|b|, Entries(b), restB));
      SectionParses(|a|, Entries(a), restA, |b|, Entries(b), restB, 2);
      EntriesInjective(a, b);
      StorageParses(m, ks[1..], x, n, js[1..], y);
      assert forall k :: k in ks ==> k == ks[0] || k in ks[1..];
    }
  }

  lemma StorageHead(m: map<nat, map<nat, nat>>, ks: seq<nat>, x: seq<nat>)
    requires ks != [] && forall k :: k in ks ==> k in m
    ensures StorageElements(m, ks) + x ==
            [ks[0]] + Section(|m[ks[0]]|, Entries(m[ks[0]]), StorageElements(m, ks[1..]) + x)
  {
    hide *;
    StorageUnfold(m, ks);
    Regrouped(ks[0], |m[ks[0]]|, Entries(m[ks[0]]), StorageElements(m, ks[1..]), x);
  }

  lemma StorageUnfold(m: map<nat, map<nat, nat>>, ks: seq<nat>)
    requires ks != [] && forall k :: k in ks ==> k in m
    ensures StorageElements(m, ks) == [ks[0], |m[ks[0]]|] + Entries(m[ks[0]]) + StorageElements(m, ks[1..])
  {
    hide Entries;
  }

  lemma Regrouped(k: nat, n: nat, entries: seq<nat>, rest: seq<nat>, x: seq<nat>)
    ensures [k, n] + entries + rest + x == [k] + Section(n, entries, rest + x)
  {
  }

  lemma StorageSectionParses(s: StateUpdates, t: StateUpdates)
    requires StorageSection(s) == StorageSection(t)
    ensures s.storage == t.storage && s.nonces == t.nonces
  {
    hide Entries, StorageElements;
    var ks, js := Ascending(s.storage.Keys), Ascending(t.storage.Keys);
    SectionSplit(|s.storage|, StorageElements(s.storage, ks), NonceSection(s));
    SectionSplit(|t.storage|, StorageElements(t.storage, js), NonceSection(t));
    ConsInjective(|s.storage|, StorageElements(s.storage, ks) + NonceSection(s),
               |t.storage|, StorageElements(t.storage, js) + NonceSection(t));
    StorageParses(s.storage, ks, NonceSection(s), t.storage, js, NonceSection(t));
    KeysListed(s.storage.Keys, t.storage.Keys);
    SectionParses(|s.nonces|, Entries(s.nonces), [], |t.nonces|, Entries(t.nonces), [], 2);
    EntriesInjective(s.nonces, t.nonces);
  }

  lemma SectionSplit(n: nat, items: seq<nat>, rest: seq<nat>)
    ensures Section(n, items, rest) == [n] + (items + rest)
  {
  }

  /**
    The list is uniquely parseable: it fixes every part of the diff except where
    the deployed contracts end and the replaced classes begin.
   */
  lemma ElementsParse(s: StateUpdates, t: StateUpdates)
    ensures Elements(s) == Elements(t) <==>
            && UpdatedContracts(s) == UpdatedContracts(t)
            && s.declared == t.declared && s.deprecated == t.deprecated
            && s.storage == t.storage && s.nonces == t.nonces
  {
    hide *;
    if Elements(s) == Elements(t) {
      ElementsSplit(s, t);
      DeclaredSectionParses(s, t);
    }
    if UpdatedContracts(s) == UpdatedContracts(t) && s.declared == t.declared && s.deprecated == t.deprecated
       && s.storage == t.storage && s.nonces == t.nonces {
      ElementsAgree(s, t);
    }
  }

  lemma ElementsSplit(s: StateUpdates, t: StateUpdates)
    requires Elements(s) == Elements(t)
    ensures UpdatedContracts(s) == UpdatedContracts(t) && DeclaredSection(s) == DeclaredSection(t)
  {
    hide Entries, StorageElements, Section, DeclaredSection;
    UpdatedCount(s);
    UpdatedCount(t);
    ConsInjective(MAGIC, Section(|s.deployed| + |s.replaced|, UpdatedContracts(s), DeclaredSection(s)),
               MAGIC, Section(|t.deployed| + |t.replaced|, UpdatedContracts(t), DeclaredSection(t)));
    SectionParses(|s.deployed| + |s.replaced|, UpdatedContracts(s), DeclaredSection(s),
                  |t.deployed| + |t.replaced|, UpdatedContracts(t), DeclaredSection(t), 2);
  }

  lemma UpdatedCount(s: StateUpdates)
    ensures |UpdatedContracts(s)| == 2 * (|s.deployed| + |s.replaced|)
  {
    hide Entries;
  }

  lemma ElementsAgree(s: StateUpdates, t: StateUpdates)
    requires UpdatedContracts(s) == UpdatedContracts(t)
    requires s.declared == t.declared && s.deprecated == t.deprecated
    requires s.storage == t.storage && s.nonces == t.nonces
    ensures Elements(s) == Elements(t)
  {
    hide UpdatedContracts, Entries, StorageElements, Section;
    UpdatedCount(s);
    UpdatedCount(t);
    assert DeclaredSection(s) == DeclaredSection(t);
  }

  lemma DeclaredSectionParses(s: StateUpdates, t: StateUpdates)
    requires DeclaredSection(s) == DeclaredSection(t)
    ensures s.declared == t.declared && s.deprecated == t.deprecated
    ensures s.storage == t.storage && s.nonces == t.nonces
  {
    hide Entries, StorageElements, Section, StorageSection;
    SectionParses(|s.declared|, Entries(s.declared), DeprecatedSection(s),
                  |t.declared|, Entries(t.declared), DeprecatedSection(t), 2);
    EntriesInjective(s.declared, t.declared);
    SectionParses(|s.deprecated|, Ascending(s.deprecated), [1, 0] + StorageSection(s),
                  |t.deprecated|, Ascending(t.deprecated), [1, 0] + StorageSection(t), 1);
    KeysListed(s.deprecated, t.deprecated);
    assert ([1, 0] + StorageSection(s))[2..] == StorageSection(s);
    assert ([1, 0] + StorageSection(t))[2..] == StorageSection(t);
    StorageSectionParses(s, t);
  }

  /** Without replaced classes the list determines the diff. */
  lemma ElementsInjective(s: StateUpdates, t: StateUpdates)
    requires Elements(s) == Elements(t) && s.replaced == map[] && t.replaced == map[]
    ensures s == t
  {
    ElementsParse(s, t);
    assert UpdatedContracts(s) == Entries(s.deployed) && UpdatedContracts(t) == Entries(t.deployed);
    EntriesInjective(s.deployed, t.deployed);
  }

  /** With replaced classes it does not: a deployment and a replacement look alike. */
  lemma ElementsCollide()
    ensures var s := EMPTY.(deployed := map[1 := 5]);
            var t := EMPTY.(replaced := map[1 := 5]);
            s != t && Elements(s) == Elements(t)
  {
    var s, t := EMPTY.(deployed := map[1 := 5]), EMPTY.(replaced := map[1 := 5]);
    assert Ascending({}) == [];
    assert Entries(map[]) == [];
    assert UpdatedContracts(s) == UpdatedContracts(t) == Entries(map[1 := 5]);
    ElementsParse(s, t);
  }

  // ---- Length of a diff -------------------------------------------------

  function StorageCount(m: map<nat, map<nat, nat>>, ks: seq<nat>): nat
    requires forall k :: k in ks ==> k in m
  {
    if ks == [] then 0 else |m[ks[0]]| + StorageCount(m, ks[1..])
  }

  /** The number of changed entries, the `state_diff_length` of a header. */
  function DiffLength(s: StateUpdates): nat {
    |s.deployed| + |s.replaced| + |s.declared| + |s.deprecated| + |s.nonces|
    + StorageCount(s.storage, Ascending(s.storage.Keys))
  }

  method StorageLen(m: map<nat, map<nat, nat>>, ks: seq<nat>) returns (len: nat)
    requires forall k :: k in ks ==> k in m
    ensures len == StorageCount(m, ks)
  {
    hide StorageCount;
    len := 0;
    assert ks[0..] == ks;
    StorageCountEnd(m, ks);
    for i := 0 to |ks|
      invariant len + StorageCount(m, ks[i..]) == StorageCount(m, ks)
    {
      StorageCountHead(m, ks, i);
      len := len + |m[ks[i]]|;
    }
  }

  method Len(s: StateUpdates) returns (len: nat)
    ensures len == DiffLength(s)
  {
    hide StorageCount;
    len := 0;
    len := len + |s.deployed|;
    len := len + |s.replaced|;
    len := len + |s.declared|;
    len := len + |s.deprecated|;
    len := len + |s.nonces|;
    var storage := StorageLen(s.storage, Ascending(s.storage.Keys));
    len := len + storage;
  }

  lemma {:induction false} StorageLength(m: map<nat, map<nat, nat>>, ks: seq<nat>)
    requires forall k :: k in ks ==> k in m
    ensures |StorageElements(m, ks)| == 2 * |ks| + 2 * StorageCount(m, ks)
  {
    if ks != [] { StorageLength(m, ks[1..]); }
  }

  lemma StorageCountHead(m: map<nat, map<nat, nat>>, ks: seq<nat>, i: nat)
    requires (forall k :: k in ks ==> k in m) && i < |ks|
    ensures StorageCount(m, ks[i..]) == |m[ks[i]]| + StorageCount(m, ks[i + 1..])
  {
    assert ks[i..][1..] == ks[i + 1..];
  }

  lemma StorageCountEnd(m: map<nat, map<nat, nat>>, ks: seq<nat>)
    requires forall k :: k in ks ==> k in m
    ensures StorageCount(m, ks[|ks|..]) == 0
  {
  }

  /** The hashed list and the length agree: two words an entry, one for a deprecated class, plus the counts. */
  lemma ElementCount(s: StateUpdates)
    ensures |Elements(s)| == 8 + 2 * DiffLength(s) - |s.deprecated| + 2 * |s.storage|
  {
    hide Entries, StorageElements, StorageCount;
    StorageLength(s.storage, Ascending(s.storage.Keys));
    UpdatedCount(s);
    assert |StorageSection(s)| == 2 + 2 * |s.nonces| + |StorageElements(s.storage, Ascending(s.storage.Keys))|;
    assert |DeclaredSection(s)| == 4 + 2 * |s.declared| + |s.deprecated| + |StorageSection(s)|;
  }
}

/** State diffs: the values that a block's execution changes. */
module StateDiff {
  import opened Sorted

  /** The Stark field prime. */
  const FELT_PRIME: nat := 0x800000000000011000000000000000000000000000000000000000000000001
  /** Contract addresses are normalised modulo this bound. */
  const ADDRESS_BOUND: nat := 0x7ffffffffffffffffffffffffffffffffffffffffffffffffffffffffffff00
  /** One more than the largest `u64` or `usize`. */
  const WORD: nat := 0x1_0000_0000_0000_0000

  datatype StateUpdates = StateUpdates(
    nonces: map<nat, nat>,
    storage: map<nat, map<nat, nat>>,
    deployed: map<nat, nat>,
    declared: map<nat, nat>,
    deprecated: set<nat>,
    replaced: map<nat, nat>)

  const EMPTY: StateUpdates := StateUpdates(map[], map[], map[], map[], {}, map[])

  predicate AreFelts(s: set<nat>) {
    forall x :: x in s ==> x < FELT_PRIME
  }

  predicate AreAddresses(s: set<nat>) {
    forall x :: x in s ==> x < ADDRESS_BOUND
  }

  predicate FeltMap(m: map<nat, nat>) {
    |m| < WORD && forall k :: k in m ==> k < FELT_PRIME && m[k] < FELT_PRIME
  }

  /** What the field types, address normalisation and `usize` lengths guarantee of every diff. */
  predicate WellTyped(s: StateUpdates) {
    && FeltMap(s.nonces) && FeltMap(s.deployed) && FeltMap(s.declared) && FeltMap(s.replaced)
    && AreFelts(s.deprecated) && |s.deprecated| < WORD
    && |s.storage| < WORD
    && (forall a :: a in s.storage ==> FeltMap(s.storage[a]))
    && AreAddresses(s.nonces.Keys) && AreAddresses(s.deployed.Keys)
    && AreAddresses(s.storage.Keys) && AreAddresses(s.replaced.Keys)
  }

  // ---- Flattened maps ---------------------------------------------------

  /** The entries of `m` for the keys `ks`, key before value. */
  function Pairs(m: map<nat, nat>, ks: seq<nat>): (r: seq<nat>)
    requires forall k :: k in ks ==> k in m
    ensures |r| == 2 * |ks|
  {
    if ks == [] then [] else [ks[0], m[ks[0]]] + Pairs(m, ks[1..])
  }

  /** All the entries of `m`, in ascending key order. */
  function Entries(m: map<nat, nat>): (r: seq<nat>)
    ensures |r| == 2 * |m|
  {
    Pairs(m, Ascending(m.Keys))
  }

  /** `acc` with the entries of `m` for the keys `ks` inserted in order. */
  function Inserted(acc: map<nat, nat>, m: map<nat, nat>, ks: seq<nat>): map<nat, nat>
    requires forall k :: k in ks ==> k in m
    decreases |ks|
  {
    if ks == [] then acc else Inserted(acc[ks[0] := m[ks[0]]], m, ks[1..])
  }

  lemma {:induction false} InsertedIs(acc: map<nat, nat>, m: map<nat, nat>, ks: seq<nat>)
    requires forall k :: k in ks ==> k in m
    ensures Inserted(acc, m, ks).Keys == acc.Keys + (set k | k in ks)
    ensures forall k :: k in Inserted(acc, m, ks) ==>
              Inserted(acc, m, ks)[k] == if k in ks then m[k] else acc[k]
    decreases |ks|
  {
    if ks != [] {
      InsertedIs(acc[ks[0] := m[ks[0]]], m, ks[1..]);
      assert forall k :: k in ks <==> k == ks[0] || k in ks[1..];
    }
  }

  /** Inserting every entry of a map rebuilds the map. */
  lemma InsertAll(m: map<nat, nat>)
    ensures Inserted(map[], m, Ascending(m.Keys)) == m
  {
    InsertedIs(map[], m, Ascending(m.Keys));
  }
}

/** What the header of every mined block commits to. */
module BlockCommitments {
  import opened Backend
  import opened Blocks
  import opened MinedBlocks
  import opened Outcomes
  import opened StateDiff
  import opened StateDiffHash

  /** What is taken from an executor when its block is mined. */
  datatype Mining = Mining(env: BlockEnv, transactions: seq<Executed>, updates: StateUpdates)

  type Storage = map<nat, map<nat, nat>>

  /** The value of a storage cell, if it has been set. */
  function Cell(storage: Storage, contract: nat, key: nat): Option<nat> {
    if contract in storage && key in storage[contract] then Some(storage[contract][key]) else None
  }

  /** `after` is `before` with the cells of the diff written over it. */
  ghost predicate Overlaid(before: Storage, d: StateUpdates, after: Storage) {
    forall a: nat, k: nat ::
      Cell(after, a, k) == if Cell(d.storage, a, k).Some? then Cell(d.storage, a, k) else Cell(before, a, k)
  }

  /** The hash of an old block, or zero before genesis. */
  function OldHash(store: Store, g: nat, k: nat): nat {
    if g <= k && k in store.blocks then store.blocks[k].hash else 0
  }

  /** The diff of block `k` is what was executed, and the hash of the block ten before it in contract 0x1. */
  ghost predicate Registers(store: Store, g: nat, k: nat, executed: StateUpdates, d: StateUpdates) {
    && d.nonces == executed.nonces && d.deployed == executed.deployed && d.declared == executed.declared
    && d.deprecated == executed.deprecated && d.replaced == executed.replaced
    && forall a: nat, key: nat ::
         Cell(d.storage, a, key) ==
         if a == 1 && key + 10 == k then Some(OldHash(store, g, key)) else Cell(executed.storage, a, key)
  }

  /** The receipts of a block with the hashes of its transactions. */
  function ReceiptsOf(b: Block): (r: seq<HashedReceipt>)
    requires Aligned(b)
    ensures |r| == |b.body|
    ensures forall i :: 0 <= i < |r| ==> r[i] == HashedReceipt(b.body[i].hash, b.receipts[i])
  {
    seq(|b.body|, i requires 0 <= i < |b.body| => HashedReceipt(b.body[i].hash, b.receipts[i]))
  }

  /** The header commits to the state before, the body, the receipts and the diff. */
  ghost predicate CommitsTo(c: Crypto, b: Block, before: Storage, d: StateUpdates) {
    && Aligned(b)
    && b.header.roots == c.roots(before, b.body, ReceiptsOf(b), d)
    && b.header.stateDiffLength == DiffLength(d) % 0x1_0000_0000
  }

  /** Block `k`: what it holds, what its header says, and how it changes the storage. */
  ghost predicate BlockIs(
      c: Crypto, store: Store, g: nat, k: nat, m: Mining, before: Storage, d: StateUpdates, after: Storage)
  {
    && k in store.blocks && CommitsTo(c, store.blocks[k], before, d)
    && store.blocks[k].header.env == m.env && BlockEntries(store.blocks[k]) == Successes(m.transactions)
    && Registers(store, g, k, m.updates, d) && Overlaid(before, d, after)
  }

  /** The blocks after `lo` are those mined from `minings`, each with one diff between two storages. */
  ghost predicate Recorded(
      c: Crypto, store: Store, g: nat, lo: nat, minings: seq<Mining>, storages: seq<Storage>, diffs: seq<StateUpdates>)
  {
    && |storages| == |minings| + 1 && |diffs| == |minings| && storages[|minings|] == store.storage
    && forall i: nat :: i < |minings| ==>
         BlockIs(c, store, g, lo + 1 + i, minings[i], storages[i], diffs[i], storages[i + 1])
  }

  // ---- Mining one block -------------------------------------------------

  lemma OverlayOverlays(before: Storage, d: StateUpdates)
    ensures Overlaid(before, d, Overlay(before, d.storage))
  {
  }

  lemma RegisteredRegisters(store: Store, t: Store, g: nat, n: nat, updates: StateUpdates)
    requires Consecutive(store, g, n) && forall k :: k in store.blocks ==> k in t.blocks && t.blocks[k] == store.blocks[k]
    ensures Registers(t, g, n + 1, updates, Registered(store, updates, n + 1))
  {
    var d := Registered(store, updates, n + 1);
    if n + 1 >= 10 {
      var past := n + 1 - 10;
      var hash := if past in store.blocks then store.blocks[past].hash else 0;
      assert OldHash(t, g, past) == hash;
      forall a: nat, key: nat
        ensures Cell(d.storage, a, key) == if a == 1 && key == past then Some(hash) else Cell(updates.storage, a, key)
      {
        CellWritten(updates.storage, 1, past, hash, a, key);
      }
      hide Cell, Consecutive;
    }
  }

  lemma CellWritten(storage: Storage, contract: nat, key: nat, value: nat, a: nat, k: nat)
    ensures Cell(storage[contract := StorageOf(storage, contract)[key := value]], a, k) ==
            if a == contract && k == key then Some(value) else Cell(storage, a, k)
  {
  }

  lemma ReceiptsAre(b: Block, es: seq<Executed>)
    requires AllSucceeded(es) && Aligned(b) && b.body == Transactions(es) && b.receipts == Stripped(Hashed(es))
    ensures ReceiptsOf(b) == Hashed(es)
  {
  }

  lemma SealedCommits(c: Crypto, store: Store, env: BlockEnv, es: seq<Executed>, d: StateUpdates)
    requires store.blocks != map[] && AllSucceeded(es)
    ensures var b := Sealed(c, store, env, es, d);
            CommitsTo(c, b, store.storage, d) && b.header.env == env && BlockEntries(b) == es
  {
    hide BlockEntries, Transactions, Hashed, Stripped, Traces, DiffLength, EventCount;
    SealedAligned(c, store, env, es, d);
    ReceiptsAre(Sealed(c, store, env, es, d), es);
  }

  /** Mining on the tip adds a block whose header commits to the registered diff that is written. */
  lemma MinedIs(c: Crypto, store: Store, g: nat, n: nat, m: Mining)
    requires Chain(c, store, g, n) && m.env.number == n + 1
    ensures var t := Mined(c, store, m.env, Output(m.transactions, m.updates));
            BlockIs(c, t, g, n + 1, m, store.storage, Registered(store, m.updates, n + 1), t.storage)
  {
    hide BlockEntries, Sealed, Successes, Overlay, Registered, CommitsTo, Registers, Overlaid, PointsBack, WellFormed;
    SuccessesSucceeded(m.transactions);
    var d := Registered(store, m.updates, n + 1);
    var t := Mined(c, store, m.env, Output(m.transactions, m.updates));
    SealedCommits(c, store, m.env, Successes(m.transactions), d);
    OverlayOverlays(store.storage, d);
    RegisteredRegisters(store, t, g, n, m.updates);
  }

  /** A block that was there before stays what it is. */
  lemma BlockStays(
      c: Crypto, store: Store, g: nat, n: nat, m: Mining,
      k: nat, was: Mining, before: Storage, d: StateUpdates, after: Storage)
    requires Chain(c, store, g, n) && m.env.number == n + 1 && k <= n
    requires BlockIs(c, store, g, k, was, before, d, after)
    ensures BlockIs(c, Mined(c, store, m.env, Output(m.transactions, m.updates)), g, k, was, before, d, after)
  {
    hide BlockEntries, Mined, Successes, CommitsTo, Overlaid, PointsBack, WellFormed;
    MinedKeeps(c, store, m.env, Output(m.transactions, m.updates), k);
    var t := Mined(c, store, m.env, Output(m.transactions, m.updates));
    forall key: nat | key + 10 == k ensures OldHash(t, g, key) == OldHash(store, g, key) {
      if key in store.blocks { MinedKeeps(c, store, m.env, Output(m.transactions, m.updates), key); }
    }
  }

  lemma RecordedStep(
      c: Crypto, store: Store, g: nat, lo: nat, n: nat, minings: seq<Mining>, storages: seq<Storage>,
      diffs: seq<StateUpdates>, m: Mining)
    requires Chain(c, store, g, n) && n == lo + |minings| && m.env.number == n + 1
    requires Recorded(c, store, g, lo, minings, storages, diffs)
    ensures var t := Mined(c, store, m.env, Output(m.transactions, m.updates));
            Recorded(c, t, g, lo, minings + [m], storages + [t.storage], diffs + [Registered(store, m.updates, n + 1)])
  {
    hide BlockIs, Mined, Registered, PointsBack, WellFormed;
    var t := Mined(c, store, m.env, Output(m.transactions, m.updates));
    MinedIs(c, store, g, n, m);
    forall i: nat | i < |minings|
      ensures BlockIs(c, t, g, lo + 1 + i, minings[i], storages[i], diffs[i], storages[i + 1])
    {
      BlockStays(c, store, g, n, m, lo + 1 + i, minings[i], storages[i], diffs[i], storages[i + 1]);
    }
  }

  /** There are storages, from `first` on, and diffs between them that the mined blocks commit to. */
  ghost predicate AllCommitted(c: Crypto, store: Store, g: nat, lo: nat, first: Storage, minings: seq<Mining>) {
    exists storages, diffs :: RecordedFrom(c, store, g, lo, first, minings, storages, diffs)
  }

  ghost predicate RecordedFrom(
      c: Crypto, store: Store, g: nat, lo: nat, first: Storage, minings: seq<Mining>, storages: seq<Storage>,
      diffs: seq<StateUpdates>)
  {
    Recorded(c, store, g, lo, minings, storages, diffs) && storages[0] == first
  }

  lemma CommittedMined(
      c: Crypto, store: Store, g: nat, lo: nat, n: nat, first: Storage, minings: seq<Mining>, m: Mining)
    requires Chain(c, store, g, n) && n == lo + |minings| && m.env.number == n + 1
    requires AllCommitted(c, store, g, lo, first, minings)
    ensures AllCommitted(c, Mined(c, store, m.env, Output(m.transactions, m.updates)), g, lo, first, minings + [m])
  {
    hide BlockIs, Mined, Registered, PointsBack, WellFormed;
    var storages, diffs :| RecordedFrom(c, store, g, lo, first, minings, storages, diffs);
    RecordedStep(c, store, g, lo, n, minings, storages, diffs, m);
    var t := Mined(c, store, m.env, Output(m.transactions, m.updates));
    assert RecordedFrom(c, t, g, lo, first, minings + [m], storages + [t.storage],
                        diffs + [Registered(store, m.updates, n + 1)]);
  }

  lemma NothingCommitted(c: Crypto, store: Store, g: nat, lo: nat)
    ensures AllCommitted(c, store, g, lo, store.storage, [])
  {
    assert RecordedFrom(c, store, g, lo, store.storage, [], [store.storage], []);
  }

  /** The events of a block are those of its receipts together. */
  lemma {:induction false} EventsAdd(a: seq<Receipt>, b: seq<Receipt>)
    ensures EventCount(a + b) == EventCount(a) + EventCount(b)
  {
    if a == [] {
      assert a + b == b;
    } else {
      assert (a + b)[1..] == a[1..] + b;
      EventsAdd(a[1..], b);
    }
  }

  lemma EventsOfOne(r: Receipt)
    ensures EventCount([r]) == r.events && EventCount([]) == 0
  {
    assert [r][1..] == [];
  }
}

/** Sealing executed transactions into blocks and appending them to the chain. */
module Backend {
  import opened Blocks
  import opened Outcomes
  import opened Sequences
  import opened Sorted
  import opened StateDiff
  import opened StateDiffHash

  const STORED_BLOCK_HASH_BUFFER: nat := 10
  /** The contract that records old block hashes. */
  const REGISTRY: nat := 1
  const U32: nat := 0x1_0000_0000

  // ---- Looking things up ------------------------------------------------

  /** The largest stored block number. */
  function Latest(s: Store): (n: nat)
    requires s.blocks != map[]
    ensures n in s.blocks
  {
    var ns := Ascending(s.blocks.Keys);
    assert ns != [] by {
      var k :| k in s.blocks;
      assert k in ns;
    }
    assert ns[|ns| - 1] in ns;
    ns[|ns| - 1]
  }

  lemma LatestIs(s: Store, n: nat)
    requires n in s.blocks && forall k :: k in s.blocks ==> k <= n
    ensures Latest(s) == n
  {
    var ns := Ascending(s.blocks.Keys);
    AscendingIncreases(s.blocks.Keys);
    assert n in ns;
    var i :| 0 <= i < |ns| && ns[i] == n;
    assert ns[|ns| - 1] in ns;
  }

  function StorageOf(storage: map<nat, map<nat, nat>>, contract: nat): map<nat, nat> {
    if contract in storage then storage[contract] else map[]
  }

  /** `storage` after the storage part of a diff. */
  function Overlay(storage: map<nat, map<nat, nat>>, updates: map<nat, map<nat, nat>>): map<nat, map<nat, nat>> {
    map a | a in storage.Keys + updates.Keys :: StorageOf(storage, a) + StorageOf(updates, a)
  }

  // ---- Sealing a block --------------------------------------------------

  /** The diff with the hash of the block ten back recorded in the registry contract. */
  function Registered(s: Store, updates: StateUpdates, number: nat): StateUpdates {
    if number < STORED_BLOCK_HASH_BUFFER then updates
    else
      var past := number - STORED_BLOCK_HASH_BUFFER;
      var hash := if past in s.blocks then s.blocks[past].hash else 0;
      updates.(storage := updates.storage[REGISTRY := StorageOf(updates.storage, REGISTRY)[past := hash]])
  }

  function Hashed(es: seq<Executed>): (r: seq<HashedReceipt>)
    requires AllSucceeded(es)
    ensures |r| == |es|
    ensures forall i :: 0 <= i < |es| ==> r[i] == HashedReceipt(es[i].tx.hash, es[i].outcome.receipt)
  {
    if es == [] then [] else [HashedReceipt(es[0].tx.hash, es[0].outcome.receipt)] + Hashed(es[1..])
  }

  function Traces(es: seq<Executed>): (r: seq<TypedTrace>)
    requires AllSucceeded(es)
    ensures |r| == |es|
    ensures forall i :: 0 <= i < |es| ==> r[i] == TypedTrace(es[i].outcome.receipt.kind, es[i].outcome.trace)
  {
    if es == [] then [] else [TypedTrace(es[0].outcome.receipt.kind, es[0].outcome.trace)] + Traces(es[1..])
  }

  function EventCount(receipts: seq<Receipt>): nat {
    if receipts == [] then 0 else receipts[0].events + EventCount(receipts[1..])
  }

  /** The receipts without their transaction hashes. */
  function Stripped(receipts: seq<HashedReceipt>): (r: seq<Receipt>)
    ensures |r| == |receipts|
    ensures forall i :: 0 <= i < |receipts| ==> r[i] == receipts[i].receipt
  {
    if receipts == [] then [] else [receipts[0].receipt] + Stripped(receipts[1..])
  }

  /** The block that holds the successful entries `es` and extends the tip of `s`. */
  function Sealed(c: Crypto, s: Store, env: BlockEnv, es: seq<Executed>, updates: StateUpdates): Block
    requires s.blocks != map[] && AllSucceeded(es)
  {
    var header := Header(
      env, s.blocks[Latest(s)].hash,
      |es| % U32, EventCount(Stripped(Hashed(es))) % U32, DiffLength(updates) % U32,
      c.roots(s.storage, Transactions(es), Hashed(es), updates));
    Block(c.hash(header), header, Transactions(es), Stripped(Hashed(es)), Traces(es))
  }

  /** The store after mining `output` in the block environment `env`. */
  function Mined(c: Crypto, s: Store, env: BlockEnv, output: Output): Store
    requires s.blocks != map[]
  {
    SuccessesSucceeded(output.transactions);
    var updates := Registered(s, output.updates, env.number);
    var block := Sealed(c, s, env, Successes(output.transactions), updates);
    Store(s.blocks[env.number := block], Overlay(s.storage, updates.storage))
  }

  datatype Outcome = Outcome(number: nat, txs: seq<nat>)

  datatype BackendError = MissingLatestBlock

  function TxHashes(txs: seq<Transaction>): (r: seq<nat>)
    ensures |r| == |txs|
    ensures forall i :: 0 <= i < |txs| ==> r[i] == txs[i].hash
  {
    if txs == [] then [] else [txs[0].hash] + TxHashes(txs[1..])
  }

  // ---- The chain invariant ----------------------------------------------

  /** The stored numbers are exactly `g` to `n`. */
  ghost predicate Consecutive(s: Store, g: nat, n: nat) {
    g <= n && s.blocks != map[] && forall k: nat :: k in s.blocks <==> g <= k <= n
  }

  /** Every block carries its own number and lines up. */
  predicate WellFormed(s: Store) {
    forall k :: k in s.blocks ==> s.blocks[k].header.env.number == k && Aligned(s.blocks[k])
  }

  /** The block after genesis `k` is hashed from its header and points at the stored hash of its predecessor. */
  predicate PointsBack(c: Crypto, s: Store, k: nat)
    requires k > 0 && k in s.blocks && k - 1 in s.blocks
  {
    var b := s.blocks[k];
    && b.header.parentHash == s.blocks[k - 1].hash
    && b.hash == c.hash(b.header)
    && b.header.transactionCount == |b.body| % U32 && b.header.eventsCount == EventCount(b.receipts) % U32
  }

  ghost predicate Chain(c: Crypto, s: Store, g: nat, n: nat) {
    && Consecutive(s, g, n)
    && WellFormed(s)
    && forall k :: g < k <= n ==> PointsBack(c, s, k)
  }

  lemma ChainLatest(s: Store, g: nat, n: nat)
    requires Consecutive(s, g, n)
    ensures s.blocks != map[] && Latest(s) == n
  {
    assert n in s.blocks;
    LatestIs(s, n);
  }

  lemma SealedAligned(c: Crypto, s: Store, env: BlockEnv, es: seq<Executed>, updates: StateUpdates)
    requires s.blocks != map[] && AllSucceeded(es)
    ensures var b := Sealed(c, s, env, es, updates);
            Aligned(b) && b.body == Transactions(es) && BlockEntries(b) == es
  {
    var b := Sealed(c, s, env, es, updates);
    assert |BlockEntries(b)| == |es|;
    forall i | 0 <= i < |es| ensures BlockEntries(b)[i] == es[i] {
      assert es[i].outcome.Success?;
    }
  }

  /** Mining on top of the tip extends the chain by one block and leaves the others alone. */
  lemma MinedExtends(c: Crypto, s: Store, g: nat, n: nat, env: BlockEnv, output: Output)
    requires Chain(c, s, g, n) && env.number == n + 1
    ensures Chain(c, Mined(c, s, env, output), g, n + 1)
    ensures Aligned(Mined(c, s, env, output).blocks[n + 1])
    ensures BlockEntries(Mined(c, s, env, output).blocks[n + 1]) == Successes(output.transactions)
  {
    hide BlockEntries, Sealed, Aligned, Overlay, Registered;
    ChainLatest(s, g, n);
    SuccessesSucceeded(output.transactions);
    var es := Successes(output.transactions);
    var updates := Registered(s, output.updates, env.number);
    SealedAligned(c, s, env, es, updates);
    SealedPointsBack(c, s, env, es, updates);
    var t := Mined(c, s, env, output);
    assert t.blocks == s.blocks[n + 1 := Sealed(c, s, env, es, updates)];
    forall k | g < k <= n + 1 ensures PointsBack(c, t, k) {
      if k <= n { assert PointsBack(c, s, k); }
    }
  }

  lemma SealedPointsBack(c: Crypto, s: Store, env: BlockEnv, es: seq<Executed>, updates: StateUpdates)
    requires s.blocks != map[] && AllSucceeded(es)
    ensures var b := Sealed(c, s, env, es, updates);
            && b.header.env == env && b.header.parentHash == s.blocks[Latest(s)].hash
            && b.hash == c.hash(b.header) && b.header.transactionCount == |b.body| % U32
            && b.header.eventsCount == EventCount(b.receipts) % U32
  {
  }

  lemma MinedKeeps(c: Crypto, s: Store, env: BlockEnv, output: Output, k: nat)
    requires s.blocks != map[] && k in s.blocks && k != env.number
    ensures k in Mined(c, s, env, output).blocks && Mined(c, s, env, output).blocks[k] == s.blocks[k]
  {
    hide Sealed, Overlay, Registered;
  }

  // ---- The block hash registry ------------------------------------------

  /** The first key the registry gets in a chain from genesis `g`. */
  function FirstKey(g: nat): nat {
    (if g + 1 < STORED_BLOCK_HASH_BUFFER then STORED_BLOCK_HASH_BUFFER else g + 1) - STORED_BLOCK_HASH_BUFFER
  }

  function RecordedHash(s: Store, g: nat, k: nat): nat {
    if k in s.blocks && g <= k then s.blocks[k].hash else 0
  }

  /** The registry has exactly the keys from `FirstKey(g)` to ten below the tip, each with the hash of its block. */
  ghost predicate RegistryHolds(s: Store, g: nat, n: nat) {
    var registry := StorageOf(s.storage, REGISTRY);
    && (forall k: nat :: k in registry <==> FirstKey(g) <= k && k + STORED_BLOCK_HASH_BUFFER <= n)
    && (forall k: nat :: k in registry ==> registry[k] == RecordedHash(s, g, k))
  }

  lemma GenesisRegistry(s: Store, g: nat)
    requires StorageOf(s.storage, REGISTRY) == map[]
    ensures RegistryHolds(s, g, g)
  {
  }

  lemma MinedRegistry(c: Crypto, s: Store, g: nat, n: nat, env: BlockEnv, output: Output)
    requires Chain(c, s, g, n) && RegistryHolds(s, g, n) && env.number == n + 1
    requires REGISTRY !in output.updates.storage
    ensures RegistryHolds(Mined(c, s, env, output), g, n + 1)
  {
    hide Mined, PointsBack, WellFormed, StorageOf;
    var t := Mined(c, s, env, output);
    MinedRegistryStep(c, s, env, output);
    forall k: nat | k in s.blocks ensures k in t.blocks && t.blocks[k] == s.blocks[k] {
      MinedKeeps(c, s, env, output, k);
    }
  }

  /** Mining block `n` writes at most the key `n - 10`. */
  lemma MinedRegistryStep(c: Crypto, s: Store, env: BlockEnv, output: Output)
    requires s.blocks != map[] && REGISTRY !in output.updates.storage
    ensures var before := StorageOf(s.storage, REGISTRY);
            StorageOf(Mined(c, s, env, output).storage, REGISTRY) ==
            if env.number < STORED_BLOCK_HASH_BUFFER then before
            else before[env.number - STORED_BLOCK_HASH_BUFFER :=
                          RecordedHash(s, 0, env.number - STORED_BLOCK_HASH_BUFFER)]
  {
    hide Sealed, Registered;
    var before := StorageOf(s.storage, REGISTRY);
    var written := Registered(s, output.updates, env.number).storage;
    RegisteredStorage(s, output.updates, env.number);
    OverlayAt(s.storage, written, REGISTRY);
    assert before + map[] == before;
  }

  lemma OverlayAt(storage: map<nat, map<nat, nat>>, updates: map<nat, map<nat, nat>>, a: nat)
    ensures StorageOf(Overlay(storage, updates), a) == StorageOf(storage, a) + StorageOf(updates, a)
  {
  }

  lemma RegisteredStorage(s: Store, updates: StateUpdates, number: nat)
    requires REGISTRY !in updates.storage
    ensures StorageOf(Registered(s, updates, number).storage, REGISTRY) ==
            if number < STORED_BLOCK_HASH_BUFFER then map[]
            else map[number - STORED_BLOCK_HASH_BUFFER := RecordedHash(s, 0, number - STORED_BLOCK_HASH_BUFFER)]
  {
  }

  // ---- The backend ------------------------------------------------------

  /** Reinterpretation of a `u64` as an `i64`, and back. */
  function AsI64(x: nat): int {
    if x < WORD / 2 then x else x - WORD
  }

  function AsU64(x: int): nat {
    x % WORD
  }

  class Backend {
    const crypto: Crypto
    var blocks: map<nat, Block>
    var storage: map<nat, map<nat, nat>>
    var nextBlockStartTime: nat
    var timestampOffset: int

    constructor (crypto: Crypto, store: Store)
      ensures this.crypto == crypto && Contents() == store
      ensures nextBlockStartTime == 0 && timestampOffset == 0
    {
      this.crypto := crypto;
      blocks, storage := store.blocks, store.storage;
      nextBlockStartTime, timestampOffset := 0, 0;
    }

    function Contents(): Store
      reads this
    {
      Store(blocks, storage)
    }

    /** Keeps the successful transactions, with their receipts and traces. */
    static method CollectSuccesses(executed: seq<Executed>)
      returns (transactions: seq<Transaction>, receipts: seq<HashedReceipt>, traces: seq<TypedTrace>)
      ensures AllSucceeded(Successes(executed))
      ensures transactions == Transactions(Successes(executed))
      ensures receipts == Hashed(Successes(executed))
      ensures traces == Traces(Successes(executed))
    {
      hide *;
      transactions, receipts, traces := [], [], [];
      ghost var kept: seq<Executed> := [];
      NothingKept(executed);
      for i := 0 to |executed|
        invariant kept + Successes(executed[i..]) == Successes(executed)
        invariant AllSucceeded(kept)
        invariant transactions == Transactions(kept) && receipts == Hashed(kept) && traces == Traces(kept)
      {
        var e := executed[i];
        NextKept(kept, executed, i);
        if e.outcome.Success? {
          traces := traces + [TypedTrace(e.outcome.receipt.kind, e.outcome.trace)];
          receipts := receipts + [HashedReceipt(e.tx.hash, e.outcome.receipt)];
          transactions := transactions + [e.tx];
          kept := kept + [e];
        }
      }
      AllKept(kept, executed);
    }

    method RegisterBlockHash(updates: StateUpdates, number: nat) returns (registered: StateUpdates)
      ensures registered == Registered(Contents(), updates, number)
    {
      registered := updates;
      if number >= STORED_BLOCK_HASH_BUFFER {
        var past := number - STORED_BLOCK_HASH_BUFFER;
        var hash := if past in blocks then blocks[past].hash else 0;
        var storages := if REGISTRY in updates.storage then updates.storage[REGISTRY] else map[];
        storages := storages[past := hash];
        registered := registered.(storage := registered.storage[REGISTRY := storages]);
      }
    }

    /** Seals the successful part of `output` into a block and stores it under the number of `env`. */
    method DoMineBlock(env: BlockEnv, output: Output) returns (r: Result<Outcome, BackendError>)
      modifies this`blocks, this`storage
      ensures r.Ok? <==> old(blocks) != map[]
      ensures r.Err? ==> Contents() == old(Contents())
      ensures r.Ok? ==> Contents() == Mined(crypto, old(Contents()), env, output)
      ensures r.Ok? ==> r.value == Outcome(env.number, TxHashes(Transactions(Successes(output.transactions))))
    {
      hide Transactions, Hashed, Traces, Successes, Stripped, EventCount, Registered, Overlay, DiffLength, TxHashes;
      var transactions, receipts, traces := CollectSuccesses(output.transactions);
      if blocks == map[] {
        return Err(MissingLatestBlock);
      }
      var parentHash := blocks[Latest(Contents())].hash;
      var updates := RegisterBlockHash(output.updates, env.number);
      var stateDiffLength := Len(updates);
      var header := Header(
        env, parentHash,
        |transactions| % U32, EventCount(Stripped(receipts)) % U32, stateDiffLength % U32,
        crypto.roots(storage, transactions, receipts, updates));
      var block := Block(crypto.hash(header), header, transactions, Stripped(receipts), traces);
      blocks := blocks[env.number := block];
      storage := Overlay(storage, updates.storage);
      return Ok(Outcome(env.number, TxHashes(transactions)));
    }

    /** The environment of the block after `env`, at clock reading `now`. */
    method UpdateBlockEnv(env: BlockEnv, now: nat, prices: nat) returns (next: BlockEnv)
      modifies this`nextBlockStartTime, this`timestampOffset
      ensures next.number == env.number + 1 && next.sequencer == env.sequencer && next.prices == prices
      ensures nextBlockStartTime == 0
      ensures old(nextBlockStartTime) == 0 ==>
                timestampOffset == old(timestampOffset) && next.timestamp == AsU64(now + timestampOffset)
      ensures old(nextBlockStartTime) != 0 ==> next.timestamp == old(nextBlockStartTime)
      ensures 0 < old(nextBlockStartTime) < WORD ==> next.timestamp == AsU64(now + timestampOffset)
    {
      var timestamp: nat;
      if nextBlockStartTime == 0 {
        timestamp := AsU64(now + timestampOffset);
      } else {
        timestamp := nextBlockStartTime;
        timestampOffset := AsI64(timestamp) - now;
        nextBlockStartTime := 0;
      }
      next := BlockEnv(env.number + 1, timestamp, env.sequencer, prices);
    }
  }

  lemma NothingKept(es: seq<Executed>)
    ensures AllSucceeded([]) && [] + Successes(es[0..]) == Successes(es)
    ensures Transactions([]) == [] && Hashed([]) == [] && Traces([]) == []
  {
    assert es[0..] == es;
  }

  lemma AllKept(kept: seq<Executed>, es: seq<Executed>)
    ensures kept + Successes(es[|es|..]) == kept
  {
  }

  lemma NextKept(kept: seq<Executed>, es: seq<Executed>, i: nat)
    requires i < |es| && AllSucceeded(kept)
    ensures var e := es[i];
            if e.outcome.Success? then
              && AllSucceeded(kept + [e])
              && kept + [e] + Successes(es[i + 1..]) == kept + Successes(es[i..])
              && Transactions(kept + [e]) == Transactions(kept) + [e.tx]
              && Hashed(kept + [e]) == Hashed(kept) + [HashedReceipt(e.tx.hash, e.outcome.receipt)]
              && Traces(kept + [e]) == Traces(kept) + [TypedTrace(e.outcome.receipt.kind, e.outcome.trace)]
            else kept + Successes(es[i + 1..]) == kept + Successes(es[i..])
  {
    hide Successes, Transactions, Hashed, Traces;
    SuccessesUnfold(es[i..]);
    assert es[i..][1..] == es[i + 1..];
    Associates(kept, Kept(es[i]), Successes(es[i + 1..]));
    assert [] + Successes(es[i + 1..]) == Successes(es[i + 1..]);
  }
}

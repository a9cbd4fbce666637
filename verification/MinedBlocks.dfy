/** What the blocks of a chain contain. */
module MinedBlocks {
  import opened Backend
  import opened Blocks

  ghost predicate Holds(store: Store, lo: nat, hi: nat) {
    lo <= hi && forall k: nat :: lo < k <= hi ==> k in store.blocks && Aligned(store.blocks[k])
  }

  /** The entries of the blocks `lo + 1` to `hi`. */
  ghost function MinedEntries(store: Store, lo: nat, hi: nat): seq<Executed>
    requires Holds(store, lo, hi)
    decreases hi
  {
    if hi == lo then []
    else
      assert Aligned(store.blocks[hi]);
      MinedEntries(store, lo, hi - 1) + BlockEntries(store.blocks[hi])
  }

  lemma {:induction false} MinedEntriesFrame(store: Store, later: Store, lo: nat, hi: nat)
    requires Holds(store, lo, hi)
    requires forall k: nat :: lo < k <= hi ==> k in later.blocks && later.blocks[k] == store.blocks[k]
    ensures Holds(later, lo, hi) && MinedEntries(later, lo, hi) == MinedEntries(store, lo, hi)
    decreases hi
  {
    if hi != lo { MinedEntriesFrame(store, later, lo, hi - 1); }
  }

  lemma ChainHolds(c: Crypto, store: Store, g: nat, lo: nat, n: nat)
    requires Chain(c, store, g, n) && g <= lo <= n
    ensures Holds(store, lo, n)
  {
    hide PointsBack, Aligned;
  }

  /** Mining appends exactly the successful part of the output. */
  lemma MinedEntriesStep(c: Crypto, store: Store, g: nat, lo: nat, n: nat, env: BlockEnv, output: Output)
    requires Chain(c, store, g, n) && g <= lo <= n && env.number == n + 1
    ensures var t := Mined(c, store, env, output);
            && Holds(store, lo, n) && Holds(t, lo, n + 1)
            && MinedEntries(t, lo, n + 1) == MinedEntries(store, lo, n) + Successes(output.transactions)
  {
    hide Mined, Successes, PointsBack, Aligned, BlockEntries;
    var t := Mined(c, store, env, output);
    ChainHolds(c, store, g, lo, n);
    MinedExtends(c, store, g, n, env, output);
    ChainHolds(c, t, g, lo, n + 1);
    forall k: nat | lo < k <= n ensures k in t.blocks && t.blocks[k] == store.blocks[k] {
      MinedKeeps(c, store, env, output, k);
    }
    MinedEntriesFrame(store, t, lo, n);
  }

  /** The environment of the block after the tip. */
  function NextEnv(store: Store, timestamp: nat, prices: nat): BlockEnv
    requires store.blocks != map[]
  {
    var latest := store.blocks[Latest(store)].header.env;
    BlockEnv(latest.number + 1, timestamp, latest.sequencer, prices)
  }
}

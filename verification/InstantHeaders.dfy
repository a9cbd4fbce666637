/** The headers of the blocks that runs of the instant producer mine. */
module InstantHeaders {
  import opened Backend
  import opened Batches
  import opened BlockCommitments
  import opened Blocks
  import opened Instant
  import opened InstantSafety
  import opened MinedBlocks
  import opened Outcomes

  function MiningOf(store: Store, txs: seq<Transaction>, work: Work): Mining
    requires store.blocks != map[] && |work.outcomes| <= |txs|
  {
    var latest := store.blocks[Latest(store)].header.env;
    Mining(BlockEnv(latest.number + 1, work.timestamp, latest.sequencer, work.prices),
           ExecutedPrefix(txs, work.outcomes), work.updates)
  }

  /** What a step mines. */
  function Takes(s: State, e: Event): seq<Mining>
    requires Enabled(s, e)
  {
    if e.Commit? then [MiningOf(s.store, Flatten(s.mining.value.batches), e.work)]
    else if e.ForceMine? && s.mining.None? then [MiningOf(s.store, Flatten(s.queued), e.forced)]
    else []
  }

  /** What is mined in a run, block by block. */
  function MinedIn(c: Crypto, s: State, es: seq<Event>): seq<Mining>
    requires Possible(c, s, es)
    decreases |es|
  {
    if es == [] then [] else Takes(s, es[0]) + MinedIn(c, Step(c, s, es[0]), es[1..])
  }

  lemma CommittedStep(c: Crypto, s: State, e: Event, g: nat, lo: nat, n: nat, first: Storage, minings: seq<Mining>)
    requires Enabled(s, e) && OnTip(c, s, g, n) && n == lo + |minings|
    requires AllCommitted(c, s.store, g, lo, first, minings)
    ensures AllCommitted(c, Step(c, s, e).store, g, lo, first, minings + Takes(s, e))
    ensures Tip(s, n, e) == lo + |minings + Takes(s, e)|
  {
    hide Mined, Latest, Flatten, ExecutedPrefix, Chain, AllCommitted, OutcomeOf;
    TipIs(c, s.store, g, n);
    if e.Commit? {
      CommittedMined(c, s.store, g, lo, n, first, minings, MiningOf(s.store, Flatten(s.mining.value.batches), e.work));
    } else if e.ForceMine? && s.mining.None? {
      CommittedMined(c, s.store, g, lo, n, first, minings, MiningOf(s.store, Flatten(s.queued), e.forced));
    } else {
      assert minings + [] == minings;
    }
  }

  lemma TipIs(c: Crypto, store: Store, g: nat, n: nat)
    requires Chain(c, store, g, n)
    ensures store.blocks != map[] && Latest(store) == n && n in store.blocks && store.blocks[n].header.env.number == n
  {
    hide PointsBack;
    ChainLatest(store, g, n);
  }

  lemma {:induction false} CommittedRun(
      c: Crypto, s: State, log: Log, es: seq<Event>, g: nat, lo: nat, n: nat, first: Storage, minings: seq<Mining>)
    requires Invariant(c, s, log, g, lo, n) && Possible(c, s, es) && n == lo + |minings|
    requires AllCommitted(c, s.store, g, lo, first, minings)
    ensures AllCommitted(c, After(c, s, es).store, g, lo, first, minings + MinedIn(c, s, es))
    ensures TipAfter(c, s, n, es) == n + |MinedIn(c, s, es)|
    decreases |es|
  {
    hide Step, Logged, Enabled, Tip, Takes, AllCommitted, OnTip, Conserved, Accounted;
    if es == [] {
      assert minings + [] == minings;
    } else {
      var t, more := Step(c, s, es[0]), minings + Takes(s, es[0]);
      InvariantStep(c, s, log, es[0], g, lo, n);
      CommittedStep(c, s, es[0], g, lo, n, first, minings);
      CommittedRun(c, t, Logged(s, log, es[0]), es[1..], g, lo, Tip(s, n, es[0]), first, more);
      assert more + MinedIn(c, t, es[1..]) == minings + MinedIn(c, s, es);
    }
  }

  /**
    Over every run of a new producer: each mined block has one diff, by which the storage changes and to which its header
    commits, as for the interval producer; its environment follows that of the block before it.
   */
  lemma HeadersCommit(c: Crypto, s: State, es: seq<Event>, g: nat, n: nat)
    requires Initial(c, s, g, n) && Possible(c, s, es)
    ensures AllCommitted(c, After(c, s, es).store, g, n, s.store.storage, MinedIn(c, s, es))
    ensures TipAfter(c, s, n, es) == n + |MinedIn(c, s, es)|
  {
    hide Initial, Possible, After, Invariant, MinedIn, AllCommitted, TipAfter;
    InitialInvariant(c, s, g, n);
    NothingCommitted(c, s.store, g, n);
    CommittedRun(c, s, EMPTY_LOG, es, g, n, n, s.store.storage, []);
    assert [] + MinedIn(c, s, es) == MinedIn(c, s, es);
  }

  // ---- Returned outcomes ------------------------------------------------

  predicate BlockWaits(s: State) {
    s.mining.Some? && (s.mining.value.stage.Sealed? || s.mining.value.stage.Done?)
  }

  /** An outcome that waits to be returned names the tip and its transactions. */
  ghost predicate OutcomeWaits(s: State, n: nat) {
    BlockWaits(s) ==>
      && s.mining.value.stage.outcome.number == n && n in s.store.blocks
      && s.mining.value.stage.outcome.txs == TxHashes(s.store.blocks[n].body)
  }

  lemma ProducedBody(c: Crypto, store: Store, g: nat, n: nat, txs: seq<Transaction>, work: Work)
    requires Chain(c, store, g, n) && |work.outcomes| <= |txs|
    ensures var t, o := Produced(c, store, txs, work), OutcomeOf(store, txs, work);
            o.number == n + 1 && n + 1 in t.blocks && o.txs == TxHashes(t.blocks[n + 1].body)
  {
    hide Successes, Transactions, Overlay, Registered, ExecutedPrefix, PointsBack, TxHashes;
    TipIs(c, store, g, n);
  }

  lemma OutcomeStep(c: Crypto, s: State, e: Event, g: nat, n: nat)
    requires Enabled(s, e) && OnTip(c, s, g, n) && OutcomeWaits(s, n)
    ensures OutcomeWaits(Step(c, s, e), Tip(s, n, e))
  {
    hide Produced, OutcomeOf, Latest, Flatten, Chain, TxHashes;
    if e.Commit? { ProducedBody(c, s.store, g, n, Flatten(s.mining.value.batches), e.work); }
  }

  lemma {:induction false} OutcomeRun(c: Crypto, s: State, log: Log, es: seq<Event>, g: nat, lo: nat, n: nat)
    requires Invariant(c, s, log, g, lo, n) && Possible(c, s, es) && OutcomeWaits(s, n)
    ensures OutcomeWaits(After(c, s, es), TipAfter(c, s, n, es))
    decreases |es|
  {
    hide Step, Logged, Enabled, Tip, OutcomeWaits, OnTip, Conserved, Accounted;
    if es != [] {
      InvariantStep(c, s, log, es[0], g, lo, n);
      OutcomeStep(c, s, es[0], g, n);
      OutcomeRun(c, Step(c, s, es[0]), Logged(s, log, es[0]), es[1..], g, lo, Tip(s, n, es[0]));
    }
  }

  /** Over every run of a new producer: an outcome that is about to be returned names the tip and its transactions. */
  lemma OutcomesAreBlocks(c: Crypto, s: State, es: seq<Event>, g: nat, n: nat)
    requires Initial(c, s, g, n) && Possible(c, s, es)
    ensures OutcomeWaits(After(c, s, es), TipAfter(c, s, n, es))
  {
    InitialInvariant(c, s, g, n);
    hide Possible, After, Chain, TipAfter;
    OutcomeRun(c, s, EMPTY_LOG, es, g, n, n);
  }
}

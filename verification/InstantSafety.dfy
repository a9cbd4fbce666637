/** What every run of the instant producer keeps. */
module InstantSafety {
  import opened Backend
  import opened Batches
  import opened Blocks
  import opened Instant
  import opened MinedBlocks
  import opened Outcomes
  import opened Sequences
  import opened StateDiff

  // ---- One step ---------------------------------------------------------

  /** The batch that has been taken from the queue but not executed. */
  function InFlight(mining: Option<MiningTask>): seq<Transaction> {
    if mining.Some? && (mining.value.stage.Waiting? || mining.value.stage.Holding?)
    then Flatten(mining.value.batches) else []
  }

  /** Handed, running and queued transactions are everything queued, in order; handed ones are executed or dropped. */
  predicate Conserved(s: State, log: Log) {
    && log.handed + InFlight(s.mining) + Flatten(s.queued) == log.queued
    && |log.handed| == |log.executed| + |log.dropped|
    && (log.dropped == [] ==> Transactions(log.executed) == log.handed)
  }

  lemma WorkedSplits(log: Log, txs: seq<Transaction>, work: Work)
    requires |work.outcomes| <= |txs| && |log.handed| == |log.executed| + |log.dropped|
    requires log.dropped == [] ==> Transactions(log.executed) == log.handed
    ensures var after := Worked(log, txs, work);
            && |after.handed| == |after.executed| + |after.dropped|
            && (after.dropped == [] ==> Transactions(after.executed) == after.handed)
  {
    hide Transactions, ExecutedPrefix;
    var after := Worked(log, txs, work);
    if after.dropped == [] {
      assert log.dropped == [] && |work.outcomes| == |txs|;
      TransactionsConcat(log.executed, ExecutedPrefix(txs, work.outcomes));
      PrefixTransactions(txs, work.outcomes);
      assert txs[..|txs|] == txs;
    }
  }

  lemma ConservedStep(c: Crypto, s: State, log: Log, e: Event)
    requires Enabled(s, e) && Conserved(s, log)
    ensures Conserved(Step(c, s, e), Logged(s, log, e))
  {
    hide Produced, OutcomeOf, Latest, Flatten, Transactions, ExecutedPrefix;
    NothingQueued();
    match e
    case Queue(batch) =>
      FlattenAppend(s.queued, batch);
      Associates(log.handed + InFlight(s.mining), Flatten(s.queued), batch);
    case Commit(work) =>
      WorkedSplits(log, Flatten(s.mining.value.batches), work);
    case ForceMine(work) =>
      if s.mining.None? { WorkedSplits(log, Flatten(s.queued), work); }
    case _ =>
  }

  lemma NothingQueued()
    ensures Flatten<Transaction>([]) == []
  {
  }

  /** The number of the tip after a step. */
  function Tip(s: State, n: nat, e: Event): nat {
    if e.Commit? || (e.ForceMine? && s.mining.None?) then n + 1 else n
  }

  /** The chain is linked, and unless a task is between commit and release the validator is on its tip. */
  ghost predicate OnTip(c: Crypto, s: State, g: nat, n: nat) {
    && Chain(c, s.store, g, n)
    && (s.permitFree <==> s.mining.None? || s.mining.value.stage.Waiting? || s.mining.value.stage.Done?)
    && (s.mining.None? || !s.mining.value.stage.Sealed? ==> s.view == n)
  }

  lemma ProducedExtends(c: Crypto, store: Store, g: nat, lo: nat, n: nat, txs: seq<Transaction>, work: Work)
    requires Chain(c, store, g, n) && g <= lo <= n && |work.outcomes| <= |txs|
    ensures var t := Produced(c, store, txs, work);
            && Chain(c, t, g, n + 1)
            && Holds(store, lo, n) && Holds(t, lo, n + 1)
            && MinedEntries(t, lo, n + 1) == MinedEntries(store, lo, n) + Successes(ExecutedPrefix(txs, work.outcomes))
  {
    hide Mined, Successes, PointsBack, MinedEntries, Holds, Aligned;
    ChainLatest(store, g, n);
    assert n in store.blocks;
    var env := NextEnv(store, work.timestamp, work.prices);
    var output := Output(ExecutedPrefix(txs, work.outcomes), work.updates);
    MinedExtends(c, store, g, n, env, output);
    MinedEntriesStep(c, store, g, lo, n, env, output);
  }

  /** The mined blocks hold exactly the successful executions. */
  ghost predicate Accounted(s: State, log: Log, lo: nat, n: nat) {
    Holds(s.store, lo, n) && MinedEntries(s.store, lo, n) == Successes(log.executed)
  }

  ghost predicate Invariant(c: Crypto, s: State, log: Log, g: nat, lo: nat, n: nat) {
    Conserved(s, log) && OnTip(c, s, g, n) && g <= lo <= n && Accounted(s, log, lo, n)
  }

  lemma OnTipStep(c: Crypto, s: State, e: Event, g: nat, n: nat)
    requires Enabled(s, e) && OnTip(c, s, g, n)
    ensures OnTip(c, Step(c, s, e), g, Tip(s, n, e))
  {
    hide Produced, OutcomeOf, Latest, Flatten, ExecutedPrefix, Chain;
    match e
    case Commit(work) =>
      ChainOrdered(c, s.store, g, n);
      ProducedExtends(c, s.store, g, g, n, Flatten(s.mining.value.batches), work);
    case Release => ChainTip(c, s.store, g, n);
    case ForceMine(work) =>
      if s.mining.None? {
        ChainOrdered(c, s.store, g, n);
        ProducedExtends(c, s.store, g, g, n, Flatten(s.queued), work);
        ChainTip(c, Step(c, s, e).store, g, n + 1);
      }
    case _ =>
  }

  lemma ChainOrdered(c: Crypto, store: Store, g: nat, n: nat)
    requires Chain(c, store, g, n)
    ensures g <= n
  {
  }

  lemma ChainTip(c: Crypto, store: Store, g: nat, n: nat)
    requires Chain(c, store, g, n)
    ensures store.blocks != map[] && Latest(store) == n
  {
    ChainLatest(store, g, n);
  }

  lemma AccountedStep(c: Crypto, s: State, log: Log, e: Event, g: nat, lo: nat, n: nat)
    requires Enabled(s, e) && OnTip(c, s, g, n) && g <= lo <= n && Accounted(s, log, lo, n)
    ensures Accounted(Step(c, s, e), Logged(s, log, e), lo, Tip(s, n, e))
  {
    hide Produced, OutcomeOf, Latest, Flatten, ExecutedPrefix, Chain, Holds, MinedEntries, Successes;
    if e.Commit? || (e.ForceMine? && s.mining.None?) {
      var txs := if e.Commit? then Flatten(s.mining.value.batches) else Flatten(s.queued);
      var work := if e.Commit? then e.work else e.forced;
      ProducedExtends(c, s.store, g, lo, n, txs, work);
      SuccessesConcat(log.executed, ExecutedPrefix(txs, work.outcomes));
    }
  }

  lemma InvariantStep(c: Crypto, s: State, log: Log, e: Event, g: nat, lo: nat, n: nat)
    requires Enabled(s, e) && Invariant(c, s, log, g, lo, n)
    ensures Invariant(c, Step(c, s, e), Logged(s, log, e), g, lo, Tip(s, n, e))
  {
    hide Conserved, OnTip, Accounted, Step, Logged, Enabled;
    ConservedStep(c, s, log, e);
    OnTipStep(c, s, e, g, n);
    AccountedStep(c, s, log, e, g, lo, n);
  }

  // ---- Whole runs -------------------------------------------------------

  function TipAfter(c: Crypto, s: State, n: nat, es: seq<Event>): nat
    requires Possible(c, s, es)
    decreases |es|
  {
    if es == [] then n else TipAfter(c, Step(c, s, es[0]), Tip(s, n, es[0]), es[1..])
  }

  lemma {:induction false} InvariantRun(c: Crypto, s: State, log: Log, es: seq<Event>, g: nat, lo: nat, n: nat)
    requires Invariant(c, s, log, g, lo, n) && Possible(c, s, es)
    ensures Invariant(c, After(c, s, es), LogAfter(c, s, log, es), g, lo, TipAfter(c, s, n, es))
    decreases |es|
  {
    hide Invariant, Step, Logged, Enabled, Tip;
    if es != [] {
      InvariantStep(c, s, log, es[0], g, lo, n);
      InvariantRun(c, Step(c, s, es[0]), Logged(s, log, es[0]), es[1..], g, lo, Tip(s, n, es[0]));
    }
  }

  lemma InitialInvariant(c: Crypto, s: State, g: nat, n: nat)
    requires Initial(c, s, g, n)
    ensures Invariant(c, s, EMPTY_LOG, g, n, n)
  {
    hide PointsBack, WellFormed;
    assert Flatten<Transaction>([]) == [];
    assert Holds(s.store, n, n);
  }

  lemma InvariantHolds(c: Crypto, s: State, es: seq<Event>, g: nat, n: nat)
    requires Initial(c, s, g, n) && Possible(c, s, es)
    ensures Invariant(c, After(c, s, es), LogAfter(c, s, EMPTY_LOG, es), g, n, TipAfter(c, s, n, es))
  {
    hide *;
    InitialInvariant(c, s, g, n);
    InvariantRun(c, s, EMPTY_LOG, es, g, n, n);
  }

  /** Every run extends the chain, and its new blocks hold exactly the successful executions, in order. */
  lemma ChainGrows(c: Crypto, s: State, es: seq<Event>, g: nat, n: nat)
    requires Initial(c, s, g, n) && Possible(c, s, es)
    ensures var t, m := After(c, s, es), TipAfter(c, s, n, es);
            && Chain(c, t.store, g, m) && Holds(t.store, n, m)
            && MinedEntries(t.store, n, m) == Successes(LogAfter(c, s, EMPTY_LOG, es).executed)
  {
    hide Chain, Possible, After, LogAfter, TipAfter, MinedEntries, Successes, Flatten, Transactions, Holds;
    InvariantHolds(c, s, es, g, n);
  }

  /** Whenever the permit is free, the validator looks at the latest committed state. */
  lemma ViewIsLatest(c: Crypto, s: State, es: seq<Event>, g: nat, n: nat)
    requires Initial(c, s, g, n) && Possible(c, s, es)
    ensures var t := After(c, s, es);
            t.permitFree ==> t.store.blocks != map[] && t.view == Latest(t.store)
  {
    hide Chain, Possible, After, LogAfter, TipAfter, MinedEntries, Successes, Flatten, Transactions, Holds;
    InvariantHolds(c, s, es, g, n);
    ChainTip(c, After(c, s, es).store, g, TipAfter(c, s, n, es));
  }

  /**
    The queue order is kept and nothing is lost if and only if no executor ran out of room: what does not fit
    into an instant block is dropped.
   */
  lemma LosslessIff(c: Crypto, s: State, es: seq<Event>, g: nat, n: nat)
    requires Initial(c, s, g, n) && Possible(c, s, es)
    ensures var t, log := After(c, s, es), LogAfter(c, s, EMPTY_LOG, es);
            Transactions(log.executed) + InFlight(t.mining) + Flatten(t.queued) == log.queued <==> log.dropped == []
  {
    hide Chain, Possible, After, LogAfter, TipAfter, MinedEntries, Successes, Flatten, Transactions, Holds;
    InvariantHolds(c, s, es, g, n);
    var t, log := After(c, s, es), LogAfter(c, s, EMPTY_LOG, es);
    assert |Transactions(log.executed) + InFlight(t.mining) + Flatten(t.queued)| + |log.dropped| == |log.queued|;
  }

  /** Nothing is dropped exactly when every executor finished its batch. */
  predicate NeverFull(c: Crypto, s: State, es: seq<Event>)
    requires Possible(c, s, es)
    decreases |es|
  {
    es == [] || (!RanFull(s, es[0]) && NeverFull(c, Step(c, s, es[0]), es[1..]))
  }

  predicate RanFull(s: State, e: Event)
    requires Enabled(s, e)
  {
    match e
    case Commit(work) => |work.outcomes| < |Flatten(s.mining.value.batches)|
    case ForceMine(work) => s.mining.None? && |work.outcomes| < |Flatten(s.queued)|
    case _ => false
  }

  lemma DroppedStep(s: State, log: Log, e: Event)
    requires Enabled(s, e)
    ensures Logged(s, log, e).dropped == [] <==> log.dropped == [] && !RanFull(s, e)
  {
    hide Flatten, ExecutedPrefix;
  }

  lemma {:induction false} DroppedIff(c: Crypto, s: State, log: Log, es: seq<Event>)
    requires Possible(c, s, es)
    ensures LogAfter(c, s, log, es).dropped == [] <==> log.dropped == [] && NeverFull(c, s, es)
    decreases |es|
  {
    if es != [] {
      hide Step, Enabled, Logged, RanFull;
      DroppedIff(c, Step(c, s, es[0]), Logged(s, log, es[0]), es[1..]);
      DroppedStep(s, log, es[0]);
    }
  }

  lemma LosslessWhenNeverFull(c: Crypto, s: State, es: seq<Event>, g: nat, n: nat)
    requires Initial(c, s, g, n) && Possible(c, s, es)
    ensures var t, log := After(c, s, es), LogAfter(c, s, EMPTY_LOG, es);
            Transactions(log.executed) + InFlight(t.mining) + Flatten(t.queued) == log.queued <==> NeverFull(c, s, es)
  {
    assert EMPTY_LOG.dropped == [];
    hide *;
    LosslessIff(c, s, es, g, n);
    DroppedIff(c, s, EMPTY_LOG, es);
  }

  function DroppingRun(tx: Transaction, updates: StateUpdates): seq<Event> {
    [Queue([tx]), ForceMine(Work([], updates, 0, 0))]
  }

  /** A new producer can drop a transaction: it is queued, does not fit, and is gone. */
  lemma TransactionDropped(c: Crypto, s: State, g: nat, n: nat, tx: Transaction, updates: StateUpdates)
    requires Initial(c, s, g, n)
    ensures var es := DroppingRun(tx, updates);
            && Possible(c, s, es)
            && var t, log := After(c, s, es), LogAfter(c, s, EMPTY_LOG, es);
            && log.queued == [tx] && log.dropped == [tx] && log.executed == [] && t.queued == [] && t.mining.None?
  {
    hide Produced, Latest;
    var es := DroppingRun(tx, updates);
    var queued := Step(c, s, es[0]);
    assert s.queued + [[tx]] == [[tx]];
    assert Flatten([[tx]]) == [tx] by { assert [[tx]][1..] == []; assert [tx] + [] == [tx]; }
    assert s.store.blocks != map[];
    assert es[1..] == [es[1]] && es[1..][1..] == [];
    var forced := Step(c, queued, es[1]);
    assert Possible(c, forced, []) && Possible(c, queued, es[1..]);
    assert After(c, queued, es[1..]) == forced;
    var log := Logged(s, EMPTY_LOG, es[0]);
    assert [] + [tx] == [tx];
    assert log == EMPTY_LOG.(queued := [tx]);
    var last := Logged(queued, log, es[1]);
    assert LogAfter(c, queued, log, es[1..]) == last;
    assert LogAfter(c, s, EMPTY_LOG, es) == last;
  }

  // ---- The block hash registry over runs --------------------------------

  predicate CleanWork(work: Work) {
    REGISTRY !in work.updates.storage
  }

  /** No executed transaction writes the registry contract. */
  predicate CleanRun(es: seq<Event>) {
    forall i :: 0 <= i < |es| ==>
      (es[i].Commit? ==> CleanWork(es[i].work)) && (es[i].ForceMine? ==> CleanWork(es[i].forced))
  }

  lemma RegistryStep(c: Crypto, s: State, e: Event, g: nat, n: nat)
    requires Enabled(s, e) && OnTip(c, s, g, n) && RegistryHolds(s.store, g, n) && CleanRun([e])
    ensures RegistryHolds(Step(c, s, e).store, g, Tip(s, n, e))
  {
    hide Mined, OutcomeOf, Latest, Flatten, ExecutedPrefix, Chain, RegistryHolds;
    assert CleanRun([e]) && [e][0] == e;
    if e.Commit? || (e.ForceMine? && s.mining.None?) {
      var txs := if e.Commit? then Flatten(s.mining.value.batches) else Flatten(s.queued);
      var work := if e.Commit? then e.work else e.forced;
      NextEnvNumber(c, s.store, work, g, n);
      MinedRegistry(c, s.store, g, n, NextEnv(s.store, work.timestamp, work.prices),
                    Output(ExecutedPrefix(txs, work.outcomes), work.updates));
    }
  }

  lemma NextEnvNumber(c: Crypto, store: Store, work: Work, g: nat, n: nat)
    requires Chain(c, store, g, n)
    ensures store.blocks != map[] && NextEnv(store, work.timestamp, work.prices).number == n + 1
  {
    hide PointsBack, Aligned;
    ChainLatest(store, g, n);
    assert n in store.blocks;
  }

  lemma {:induction false} RegistryRun(c: Crypto, s: State, log: Log, es: seq<Event>, g: nat, lo: nat, n: nat)
    requires Invariant(c, s, log, g, lo, n) && RegistryHolds(s.store, g, n) && Possible(c, s, es) && CleanRun(es)
    ensures RegistryHolds(After(c, s, es).store, g, TipAfter(c, s, n, es))
    decreases |es|
  {
    hide Step, Logged, Enabled, Tip, RegistryHolds, OnTip, Conserved, Accounted, CleanWork;
    if es != [] {
      assert CleanRun([es[0]]) && CleanRun(es[1..]);
      InvariantStep(c, s, log, es[0], g, lo, n);
      RegistryStep(c, s, es[0], g, n);
      RegistryRun(c, Step(c, s, es[0]), Logged(s, log, es[0]), es[1..], g, lo, Tip(s, n, es[0]));
    }
  }

  /** Contract 0x1 after any run holds the hashes of the blocks up to ten below the tip, and nothing else. */
  lemma RegistryTracksChain(c: Crypto, s: State, es: seq<Event>, g: nat, n: nat)
    requires Initial(c, s, g, n) && RegistryHolds(s.store, g, n) && Possible(c, s, es) && CleanRun(es)
    ensures RegistryHolds(After(c, s, es).store, g, TipAfter(c, s, n, es))
  {
    hide *;
    InitialInvariant(c, s, g, n);
    RegistryRun(c, s, EMPTY_LOG, es, g, n, n);
  }
}

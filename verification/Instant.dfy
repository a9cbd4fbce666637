/** Instant block production: one task executes a batch on the latest state and mines it, holding the permit throughout. */
module Instant {
  import opened Backend
  import opened Batches
  import opened Blocks
  import opened MinedBlocks
  import opened Outcomes
  import opened StateDiff

  datatype Stage = Waiting | Holding | Sealed(outcome: Outcome) | Done(outcome: Outcome)

  datatype MiningTask = MiningTask(batches: seq<seq<Transaction>>, stage: Stage)

  /** `view` is the number of the block whose state the validator looks at. */
  datatype State = State(
    queued: seq<seq<Transaction>>, mining: Option<MiningTask>, permitFree: bool, view: nat, store: Store)

  /** What the executor does with a batch: the outcomes of the prefix that fits, and the resulting diff. */
  datatype Work = Work(outcomes: seq<Execution>, updates: StateUpdates, timestamp: nat, prices: nat)

  datatype Event =
    | Queue(batch: seq<Transaction>)
    | Start
    | Lock
    | Commit(work: Work)
    | Release
    | Finish
    | ForceMine(forced: Work)
    | Validate

  // ---- The transition system --------------------------------------------

  /** The store after executing `work` on `txs` and mining the result. */
  function Produced(c: Crypto, store: Store, txs: seq<Transaction>, work: Work): Store
    requires store.blocks != map[] && |work.outcomes| <= |txs|
  {
    Mined(c, store, NextEnv(store, work.timestamp, work.prices),
          Output(ExecutedPrefix(txs, work.outcomes), work.updates))
  }

  function OutcomeOf(store: Store, txs: seq<Transaction>, work: Work): Outcome
    requires store.blocks != map[] && |work.outcomes| <= |txs|
  {
    Outcome(NextEnv(store, work.timestamp, work.prices).number,
            TxHashes(Transactions(Successes(ExecutedPrefix(txs, work.outcomes)))))
  }

  predicate Enabled(s: State, e: Event) {
    && s.store.blocks != map[]
    && match e
       case Queue(_) => true
       case Start => s.queued != [] && s.mining.None?
       case Lock => s.mining.Some? && s.mining.value.stage.Waiting? && s.permitFree
       case Commit(work) =>
         s.mining.Some? && s.mining.value.stage.Holding? && |work.outcomes| <= |Flatten(s.mining.value.batches)|
       case Release => s.mining.Some? && s.mining.value.stage.Sealed?
       case Finish => s.mining.Some? && s.mining.value.stage.Done?
       case ForceMine(work) => s.mining.None? ==> s.permitFree && |work.outcomes| <= |Flatten(s.queued)|
       case Validate => s.permitFree
  }

  function Step(c: Crypto, s: State, e: Event): State
    requires Enabled(s, e)
  {
    match e
    case Queue(batch) => s.(queued := s.queued + [batch])
    case Start => s.(queued := [], mining := Some(MiningTask(s.queued, Waiting)))
    case Lock => s.(mining := Some(s.mining.value.(stage := Holding)), permitFree := false)
    case Commit(work) =>
      var txs := Flatten(s.mining.value.batches);
      s.(store := Produced(c, s.store, txs, work),
         mining := Some(s.mining.value.(stage := Sealed(OutcomeOf(s.store, txs, work)))))
    case Release =>
      s.(view := Latest(s.store), permitFree := true,
         mining := Some(s.mining.value.(stage := Done(s.mining.value.stage.outcome))))
    case Finish => s.(mining := None)
    case ForceMine(work) =>
      if s.mining.Some? then s
      else
        var store := Produced(c, s.store, Flatten(s.queued), work);
        ProducedNotEmpty(c, s.store, Flatten(s.queued), work);
        s.(queued := [], store := store, view := Latest(store))
    case Validate => s
  }

  lemma ProducedNotEmpty(c: Crypto, store: Store, txs: seq<Transaction>, work: Work)
    requires store.blocks != map[] && |work.outcomes| <= |txs|
    ensures Produced(c, store, txs, work).blocks != map[]
  {
    assert NextEnv(store, work.timestamp, work.prices).number in Produced(c, store, txs, work).blocks;
  }

  // ---- Runs and their logs ----------------------------------------------

  /** Everything queued, everything handed to an executor, everything executed, and what the executor left over. */
  datatype Log = Log(queued: seq<Transaction>, handed: seq<Transaction>, executed: seq<Executed>, dropped: seq<Transaction>)

  const EMPTY_LOG: Log := Log([], [], [], [])

  function Worked(log: Log, txs: seq<Transaction>, work: Work): Log
    requires |work.outcomes| <= |txs|
  {
    Log(log.queued, log.handed + txs, log.executed + ExecutedPrefix(txs, work.outcomes),
        log.dropped + txs[|work.outcomes|..])
  }

  function Logged(s: State, log: Log, e: Event): Log
    requires Enabled(s, e)
  {
    match e
    case Queue(batch) => log.(queued := log.queued + batch)
    case Commit(work) => Worked(log, Flatten(s.mining.value.batches), work)
    case ForceMine(work) => if s.mining.Some? then log else Worked(log, Flatten(s.queued), work)
    case _ => log
  }

  predicate Possible(c: Crypto, s: State, es: seq<Event>)
    decreases |es|
  {
    es == [] || (Enabled(s, es[0]) && Possible(c, Step(c, s, es[0]), es[1..]))
  }

  function After(c: Crypto, s: State, es: seq<Event>): State
    requires Possible(c, s, es)
    decreases |es|
  {
    if es == [] then s else After(c, Step(c, s, es[0]), es[1..])
  }

  function LogAfter(c: Crypto, s: State, log: Log, es: seq<Event>): Log
    requires Possible(c, s, es)
    decreases |es|
  {
    if es == [] then log else LogAfter(c, Step(c, s, es[0]), Logged(s, log, es[0]), es[1..])
  }

  /** A new producer on a chain from `g` to `n`. */
  ghost predicate Initial(c: Crypto, s: State, g: nat, n: nat) {
    && Chain(c, s.store, g, n)
    && s.queued == [] && s.mining.None? && s.permitFree && s.view == n
  }
}

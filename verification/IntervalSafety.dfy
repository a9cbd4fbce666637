/** What every run of the interval producer keeps. */
module IntervalSafety {
  import opened Backend
  import opened Batches
  import opened Blocks
  import opened MinedBlocks
  import opened Interval
  import opened Outcomes
  import opened Sequences
  import opened StateDiff

  // ---- Runs -------------------------------------------------------------

  /** Everything ever queued, and everything ever executed, in order. */
  datatype Log = Log(queued: seq<Transaction>, executed: seq<Executed>)

  predicate ExecutionPending(s: State) {
    s.execution.Some? && s.execution.value.result.None?
  }

  /** An execution that was spawned before a block is taken gets the executor lock first. */
  predicate LockOrder(s: State, e: Event) {
    e.Mine? || e.ForceMine? ==> !ExecutionPending(s)
  }

  /** A block is forced only while no mining is in flight. */
  predicate NoOverlap(s: State, e: Event) {
    e.ForceMine? ==> s.mining.None?
  }

  predicate Allowed(s: State, e: Event) {
    Sane(s) && Enabled(s, e) && LockOrder(s, e) && NoOverlap(s, e)
  }

  predicate Possible(c: Crypto, s: State, es: seq<Event>)
    decreases |es|
  {
    es == [] || (Sane(s) && Enabled(s, es[0]) && Possible(c, Step(c, s, es[0]), es[1..]))
  }

  function After(c: Crypto, s: State, es: seq<Event>): State
    requires Possible(c, s, es)
    decreases |es|
  {
    if es == [] then s else After(c, Step(c, s, es[0]), es[1..])
  }

  /** Every step of the run keeps the lock order and forces no block during mining. */
  predicate Guarded(c: Crypto, s: State, es: seq<Event>)
    requires Possible(c, s, es)
    decreases |es|
  {
    es == [] || (LockOrder(s, es[0]) && NoOverlap(s, es[0]) && Guarded(c, Step(c, s, es[0]), es[1..]))
  }

  function Logged(s: State, log: Log, e: Event): Log
    requires Enabled(s, e)
  {
    match e
    case Queue(batch) => log.(queued := log.queued + batch)
    case RunExecution(outcomes, _, _) =>
      log.(executed := log.executed + ExecutedPrefix(s.execution.value.transactions, outcomes))
    case _ => log
  }

  function LogAfter(c: Crypto, s: State, log: Log, es: seq<Event>): Log
    requires Possible(c, s, es)
    decreases |es|
  {
    if es == [] then log else LogAfter(c, Step(c, s, es[0]), Logged(s, log, es[0]), es[1..])
  }

  /** A new producer on a chain from `g` to `n`. */
  ghost predicate Initial(c: Crypto, s: State, g: nat, n: nat) {
    && Chain(c, s.store, g, n)
    && s.queued == [] && !s.timer && s.execution.None? && s.mining.None? && !s.full
    && s.permitFree && s.executor == 0 && s.view == 0 && |s.executors| == 1
    && s.executors[0].base == n && s.executors[0].env.number == n + 1
    && s.executors[0].transactions == [] && s.executors[0].updates == EMPTY
  }

  // ---- The control invariant --------------------------------------------

  predicate Control(s: State) {
    && Sane(s)
    && (s.timer ==> s.blockTime.Some?)
    && (s.mining.Some? ==> !s.timer && s.mining.value.executor == s.executor)
    && (s.permitFree <==> s.mining.None? || s.mining.value.stage.Waiting?)
    && s.view == s.executor
    && (ExecutionPending(s) ==> s.execution.value.executor == s.executor)
    && (s.mining.Some? && s.mining.value.stage.Finished? ==> !ExecutionPending(s))
  }

  lemma ControlStep(c: Crypto, s: State, e: Event)
    requires Control(s) && Allowed(s, e)
    ensures Control(Step(c, s, e))
  {
    hide Mined, Latest, Flatten, Successes, Transactions, TxHashes, ExecutedPrefix;
    StepSane(c, s, e);
  }

  // ---- Order and conservation of transactions ---------------------------

  /** The part of the running batch that has not been executed. */
  function InFlight(task: Option<ExecutionTask>): seq<Transaction> {
    if task.None? then []
    else match task.value.result
      case None => task.value.transactions
      case Some(None) => []
      case Some(Some(leftovers)) => leftovers
  }

  /** Executed, running and queued transactions are everything queued, in order. */
  predicate Conserved(s: State, log: Log) {
    Transactions(log.executed) + InFlight(s.execution) + Flatten(s.queued) == log.queued
  }

  lemma ConservedStep(c: Crypto, s: State, log: Log, e: Event)
    requires Control(s) && Allowed(s, e) && Conserved(s, log)
    ensures Conserved(Step(c, s, e), Logged(s, log, e))
  {
    hide Mined, Latest, Flatten, Successes, Transactions, TxHashes, ExecutedPrefix;
    match e
    case Queue(batch) =>
      FlattenAppend(s.queued, batch);
      Associates(Transactions(log.executed) + InFlight(s.execution), Flatten(s.queued), batch);
    case StartExecution =>
      StartConserves(s.queued, Transactions(log.executed));
    case FinishExecution =>
      if s.execution.value.result.value.Some? {
        var leftovers := s.execution.value.result.value.value;
        FlattenPush(s.queued, leftovers);
        assert Transactions(log.executed) + [] + (leftovers + Flatten(s.queued)) ==
               Transactions(log.executed) + leftovers + Flatten(s.queued);
      }
    case RunExecution(outcomes, updates, limited) =>
      RunConserves(s, log, outcomes, limited);
    case _ =>
  }

  lemma StartConserves(queued: seq<seq<Transaction>>, done: seq<Transaction>)
    ensures done + [] + Flatten(queued) == done + Flatten(queued) + Flatten([])
  {
    assert Flatten<Transaction>([]) == [];
  }

  lemma RunConserves(s: State, log: Log, outcomes: seq<Execution>, limited: bool)
    requires ExecutionPending(s) && |outcomes| <= |s.execution.value.transactions|
    requires !limited ==> |outcomes| == |s.execution.value.transactions|
    ensures var txs := s.execution.value.transactions;
            Transactions(log.executed + ExecutedPrefix(txs, outcomes)) + (if limited then txs[|outcomes|..] else [])
            == Transactions(log.executed) + txs
  {
    hide Transactions, ExecutedPrefix;
    var txs := s.execution.value.transactions;
    TransactionsConcat(log.executed, ExecutedPrefix(txs, outcomes));
    PrefixTransactions(txs, outcomes);
    SplitAppend(Transactions(log.executed), txs, |outcomes|);
  }

  // ---- Chain and pending block ------------------------------------------

  predicate BlockTaken(s: State) {
    s.mining.Some? && s.mining.value.stage.Finished?
  }

  /** The current executor's block is the one after the tip, or the tip itself once it has been taken. */
  ghost predicate OnTip(c: Crypto, s: State, g: nat, n: nat)
    requires Sane(s)
  {
    var x := s.executors[s.executor];
    && Chain(c, s.store, g, n)
    && x.env.number == x.base + 1
    && x.base == (if BlockTaken(s) then n - 1 else n)
    && (BlockTaken(s) ==> x.transactions == [])
  }

  /** The number of the tip after a step. */
  function Tip(n: nat, e: Event): nat {
    if e.Mine? || e.ForceMine? then n + 1 else n
  }

  lemma SwappedOnTip(c: Crypto, s: State, timestamp: nat, prices: nat, g: nat, n: nat)
    requires Sane(s) && Chain(c, s.store, g, n) && s.mining.None?
    ensures OnTip(c, Swapped(s, timestamp, prices), g, n)
  {
    hide PointsBack;
    ChainLatest(s.store, g, n);
    assert n in s.store.blocks;
  }

  lemma CommittedChain(c: Crypto, s: State, id: nat, g: nat, n: nat)
    requires Sane(s) && id < |s.executors| && Chain(c, s.store, g, n) && s.executors[id].env.number == n + 1
    ensures Chain(c, Committed(c, s, id).store, g, n + 1)
  {
    hide Chain, Mined;
    var x := s.executors[id];
    MinedExtends(c, s.store, g, n, x.env, Output(x.transactions, x.updates));
  }

  lemma OnTipStep(c: Crypto, s: State, e: Event, g: nat, n: nat)
    requires Control(s) && Allowed(s, e) && OnTip(c, s, g, n)
    ensures Sane(Step(c, s, e)) && OnTip(c, Step(c, s, e), g, Tip(n, e))
  {
    hide Mined, Latest, Flatten, Successes, Transactions, TxHashes, ExecutedPrefix, Chain;
    StepSane(c, s, e);
    match e
    case ForceMine(timestamp, prices) =>
      CommittedChain(c, s, s.executor, g, n);
      CommittedSane(c, s, s.executor);
      SwappedOnTip(c, Committed(c, s, s.executor), timestamp, prices, g, n + 1);
    case FinishMining(timestamp, prices) =>
      SwappedOnTip(c, s.(mining := None, full := false), timestamp, prices, g, n);
    case Mine =>
      CommittedChain(c, s, s.executor, g, n);
    case _ =>
  }

  lemma CommittedSane(c: Crypto, s: State, id: nat)
    requires Sane(s) && id < |s.executors|
    ensures Sane(Committed(c, s, id))
  {
    hide Mined;
    MinedNotEmpty(c, s.store, s.executors[id]);
  }

  // ---- What the blocks contain ------------------------------------------

  /** Mined entries, then the successes of the pending block, are the successful part of the executed log. */
  ghost predicate Accounted(s: State, log: Log, lo: nat, n: nat) {
    && s.executor < |s.executors| && Holds(s.store, lo, n)
    && MinedEntries(s.store, lo, n) + Successes(s.executors[s.executor].transactions) == Successes(log.executed)
  }

  lemma AccountedStep(c: Crypto, s: State, log: Log, e: Event, g: nat, lo: nat, n: nat)
    requires Control(s) && Allowed(s, e) && OnTip(c, s, g, n) && g <= lo <= n
    requires Accounted(s, log, lo, n)
    ensures Accounted(Step(c, s, e), Logged(s, log, e), lo, Tip(n, e))
  {
    hide Mined, Latest, Flatten, Successes, Transactions, TxHashes, ExecutedPrefix, Chain, Holds, MinedEntries;
    assert Successes([]) == [] by { NothingSucceeded(); }
    var x := s.executors[s.executor];
    match e
    case ForceMine(_, _) =>
      MinedEntriesStep(c, s.store, g, lo, n, x.env, Output(x.transactions, x.updates));
    case Mine =>
      MinedEntriesStep(c, s.store, g, lo, n, x.env, Output(x.transactions, x.updates));
    case RunExecution(outcomes, _, _) =>
      var executed := ExecutedPrefix(s.execution.value.transactions, outcomes);
      SuccessesConcat(x.transactions, executed);
      SuccessesConcat(log.executed, executed);
      Associates(MinedEntries(s.store, lo, n), Successes(x.transactions), Successes(executed));
    case _ =>
  }

  // ---- Whole runs -------------------------------------------------------

  function BlocksMined(es: seq<Event>): nat {
    if es == [] then 0 else (if es[0].Mine? || es[0].ForceMine? then 1 else 0) + BlocksMined(es[1..])
  }

  ghost predicate Invariant(c: Crypto, s: State, log: Log, g: nat, lo: nat, n: nat) {
    && Control(s) && Conserved(s, log)
    && OnTip(c, s, g, n) && g <= lo <= n
    && Accounted(s, log, lo, n)
  }

  lemma InvariantStep(c: Crypto, s: State, log: Log, e: Event, g: nat, lo: nat, n: nat)
    requires Invariant(c, s, log, g, lo, n) && Allowed(s, e)
    ensures Invariant(c, Step(c, s, e), Logged(s, log, e), g, lo, Tip(n, e))
  {
    hide Control, Conserved, OnTip, Accounted, Step, Logged;
    ControlStep(c, s, e);
    ConservedStep(c, s, log, e);
    OnTipStep(c, s, e, g, n);
    AccountedStep(c, s, log, e, g, lo, n);
  }

  lemma {:induction false} InvariantRun(c: Crypto, s: State, log: Log, es: seq<Event>, g: nat, lo: nat, n: nat)
    requires Invariant(c, s, log, g, lo, n) && Possible(c, s, es) && Guarded(c, s, es)
    ensures Invariant(c, After(c, s, es), LogAfter(c, s, log, es), g, lo, n + BlocksMined(es))
    decreases |es|
  {
    hide *;
    if es == [] {
      RunEmpty(c, s, log);
    } else {
      RunUnfold(c, s, log, es, n);
      InvariantStep(c, s, log, es[0], g, lo, n);
      InvariantRun(c, Step(c, s, es[0]), Logged(s, log, es[0]), es[1..], g, lo, Tip(n, es[0]));
    }
  }

  lemma RunEmpty(c: Crypto, s: State, log: Log)
    ensures Possible(c, s, []) && Guarded(c, s, [])
    ensures After(c, s, []) == s && LogAfter(c, s, log, []) == log && BlocksMined([]) == 0
  {
  }

  lemma RunUnfold(c: Crypto, s: State, log: Log, es: seq<Event>, n: nat)
    requires es != [] && Possible(c, s, es) && Guarded(c, s, es)
    ensures Allowed(s, es[0]) && Sane(s) && Enabled(s, es[0])
    ensures Possible(c, Step(c, s, es[0]), es[1..]) && Guarded(c, Step(c, s, es[0]), es[1..])
    ensures After(c, s, es) == After(c, Step(c, s, es[0]), es[1..])
    ensures LogAfter(c, s, log, es) == LogAfter(c, Step(c, s, es[0]), Logged(s, log, es[0]), es[1..])
    ensures n + BlocksMined(es) == Tip(n, es[0]) + BlocksMined(es[1..])
  {
    hide Step, Logged, LockOrder, NoOverlap, Enabled, Sane;
  }

  lemma InitialInvariant(c: Crypto, s: State, g: nat, n: nat)
    requires Initial(c, s, g, n)
    ensures Invariant(c, s, Log([], []), g, n, n)
  {
    hide PointsBack, WellFormed;
    assert Flatten<Transaction>([]) == [];
    assert Holds(s.store, n, n);
  }

  lemma InvariantHolds(c: Crypto, s: State, es: seq<Event>, g: nat, n: nat)
    requires Initial(c, s, g, n) && Possible(c, s, es) && Guarded(c, s, es)
    ensures Invariant(c, After(c, s, es), LogAfter(c, s, Log([], []), es), g, n, n + BlocksMined(es))
  {
    hide *;
    InitialInvariant(c, s, g, n);
    InvariantRun(c, s, Log([], []), es, g, n, n);
  }

  /** No transaction is lost, duplicated or reordered on the way from the queue to the executor. */
  lemma OrderKept(c: Crypto, s: State, es: seq<Event>, g: nat, n: nat)
    requires Initial(c, s, g, n) && Possible(c, s, es) && Guarded(c, s, es)
    ensures var t, log := After(c, s, es), LogAfter(c, s, Log([], []), es);
            Transactions(log.executed) + InFlight(t.execution) + Flatten(t.queued) == log.queued
  {
    hide Chain, Possible, Guarded, After, LogAfter, BlocksMined, MinedEntries, Successes, Flatten, Transactions;
    InvariantHolds(c, s, es, g, n);
  }

  /** The blocks mined in a run, followed by the pending block, hold exactly the successful executions, in order. */
  lemma BlocksHoldSuccesses(c: Crypto, s: State, es: seq<Event>, g: nat, n: nat)
    requires Initial(c, s, g, n) && Possible(c, s, es) && Guarded(c, s, es)
    ensures var t, m := After(c, s, es), n + BlocksMined(es);
            && t.executor < |t.executors| && Holds(t.store, n, m)
            && MinedEntries(t.store, n, m) + Successes(t.executors[t.executor].transactions)
               == Successes(LogAfter(c, s, Log([], []), es).executed)
  {
    hide Chain, Possible, Guarded, After, LogAfter, BlocksMined, MinedEntries, Successes, Flatten, Transactions;
    InvariantHolds(c, s, es, g, n);
  }

  /** Every run extends the chain by one linked block per mining, numbered consecutively. */
  lemma ChainGrows(c: Crypto, s: State, es: seq<Event>, g: nat, n: nat)
    requires Initial(c, s, g, n) && Possible(c, s, es) && Guarded(c, s, es)
    ensures Chain(c, After(c, s, es).store, g, n + BlocksMined(es))
  {
    hide Chain, Possible, Guarded, After, LogAfter, BlocksMined, MinedEntries, Successes, Flatten, Transactions;
    InvariantHolds(c, s, es, g, n);
  }

  /**
    Whenever the permit is free, the validator looks at the current executor, and that
    executor is built on the tip. So no validation falls between a commit and the swap.
   */
  lemma ViewIsCurrent(c: Crypto, s: State, es: seq<Event>, g: nat, n: nat)
    requires Initial(c, s, g, n) && Possible(c, s, es) && Guarded(c, s, es)
    ensures var t := After(c, s, es);
            t.permitFree ==>
              && t.view == t.executor < |t.executors|
              && t.executors[t.view].base == n + BlocksMined(es)
              && t.executors[t.view].env.number == n + BlocksMined(es) + 1
  {
    hide Chain, Possible, Guarded, After, LogAfter, BlocksMined, MinedEntries, Successes, Flatten, Transactions;
    InvariantHolds(c, s, es, g, n);
  }

  /** Timer and tasks: the timer needs a block time and no mining; mining works on the current executor. */
  lemma TasksAreConfined(c: Crypto, s: State, es: seq<Event>, g: nat, n: nat)
    requires Initial(c, s, g, n) && Possible(c, s, es) && Guarded(c, s, es)
    ensures var t := After(c, s, es);
            && (t.timer ==> t.blockTime.Some? && t.mining.None?)
            && (t.mining.Some? ==> t.mining.value.executor == t.executor)
            && (ExecutionPending(t) ==> t.execution.value.executor == t.executor && !BlockTaken(t))
  {
    hide Chain, Possible, Guarded, After, LogAfter, BlocksMined, MinedEntries, Successes, Flatten, Transactions;
    InvariantHolds(c, s, es, g, n);
  }

  /** With no mining in flight, the timer check closes a block that is full, or whose time is up, and no other. */
  lemma BlockClosesIff(c: Crypto, s: State, tick: bool)
    requires Sane(s) && s.mining.None?
    ensures var t := Step(c, s, CheckTimer(tick));
            if s.full || (tick && s.timer) then
              t.mining == Some(MiningTask(s.executor, Waiting)) && !t.full && !t.timer
            else t == s
  {
  }

  // ---- The block hash registry over runs --------------------------------

  predicate Clean(updates: StateUpdates) {
    REGISTRY !in updates.storage
  }

  /** No executed transaction writes the registry contract. */
  predicate CleanRun(es: seq<Event>) {
    forall i :: 0 <= i < |es| && es[i].RunExecution? ==> Clean(es[i].updates)
  }

  ghost predicate Registering(s: State, g: nat, n: nat) {
    && s.executor < |s.executors| && Clean(s.executors[s.executor].updates)
    && RegistryHolds(s.store, g, n)
  }

  lemma RegisteringStep(c: Crypto, s: State, e: Event, g: nat, n: nat)
    requires Control(s) && Allowed(s, e) && OnTip(c, s, g, n) && Registering(s, g, n)
    requires e.RunExecution? ==> Clean(e.updates)
    ensures Registering(Step(c, s, e), g, Tip(n, e))
  {
    hide Mined, Latest, Flatten, Successes, Transactions, TxHashes, ExecutedPrefix, Chain, RegistryHolds;
    var x := s.executors[s.executor];
    if e.Mine? || e.ForceMine? {
      MinedRegistry(c, s.store, g, n, x.env, Output(x.transactions, x.updates));
    }
  }

  lemma {:induction false} RegisteringRun(c: Crypto, s: State, log: Log, es: seq<Event>, g: nat, lo: nat, n: nat)
    requires Invariant(c, s, log, g, lo, n) && Registering(s, g, n)
    requires Possible(c, s, es) && Guarded(c, s, es) && CleanRun(es)
    ensures Registering(After(c, s, es), g, n + BlocksMined(es))
    decreases |es|
  {
    hide Possible, Guarded, After, BlocksMined, LogAfter, Step, Logged, Control, OnTip, Conserved, Accounted, Registering;
    if es == [] {
      RunEmpty(c, s, log);
    } else {
      RunUnfold(c, s, log, es, n);
      RegisteringStep(c, s, es[0], g, n);
      InvariantStep(c, s, log, es[0], g, lo, n);
      RegisteringRun(c, Step(c, s, es[0]), Logged(s, log, es[0]), es[1..], g, lo, Tip(n, es[0]));
    }
  }

  /**
    Contract 0x1 after any run: the key `k` is there exactly for `FirstKey(g) <= k <= tip - 10`, holding the
    stored hash of block `k`, or zero when `k` lies before the genesis block.
   */
  lemma RegistryTracksChain(c: Crypto, s: State, es: seq<Event>, g: nat, n: nat, k: nat)
    requires Initial(c, s, g, n) && RegistryHolds(s.store, g, n)
    requires Possible(c, s, es) && Guarded(c, s, es) && CleanRun(es)
    ensures var t, tip := After(c, s, es).store, n + BlocksMined(es);
            var registry := StorageOf(t.storage, REGISTRY);
            && (k in registry <==> FirstKey(g) <= k && k + STORED_BLOCK_HASH_BUFFER <= tip)
            && (k in registry && g <= k ==> k in t.blocks && registry[k] == t.blocks[k].hash)
            && (k in registry && k < g ==> registry[k] == 0)
  {
    hide Possible, Guarded, After, BlocksMined, LogAfter, Invariant, PointsBack, WellFormed, StorageOf;
    InitialInvariant(c, s, g, n);
    RegisteringRun(c, s, Log([], []), es, g, n, n);
    ChainGrows(c, s, es, g, n);
  }
}

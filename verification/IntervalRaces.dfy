/** Why the interval producer needs its two guards: what goes wrong, and exactly when, without them. */
module IntervalRaces {
  import opened Backend
  import opened Batches
  import opened Blocks
  import opened MinedBlocks
  import opened Interval
  import opened IntervalRuns
  import opened IntervalSafety
  import opened Outcomes
  import opened StateDiff

  // ---- Mining that overtakes an execution -------------------------------

  /**
    An execution that gets the lock only after its block was taken runs on a dead executor: once the
    executor is swapped, the books balance exactly when none of its transactions succeeded.
   */
  lemma OvertakenLoss(
      c: Crypto, s: State, log: Log, lo: nat, n: nat,
      outcomes: seq<Execution>, updates: StateUpdates, limited: bool, timestamp: nat, prices: nat)
    requires Sane(s) && BlockTaken(s) && ExecutionPending(s) && Accounted(s, log, lo, n)
    requires s.execution.value.executor == s.executor && s.executors[s.executor].transactions == []
    requires Enabled(s, RunExecution(outcomes, updates, limited))
    ensures var run := RunExecution(outcomes, updates, limited);
            var executed := ExecutedPrefix(s.execution.value.transactions, outcomes);
            var t := Swapped(ExecutionRun(s, outcomes, updates, limited).(mining := None, full := false), timestamp, prices);
            && t == Step(c, Step(c, s, run), FinishMining(timestamp, prices))
            && (Accounted(t, Logged(s, log, run), lo, n) <==> Successes(executed) == [])
  {
    hide Mined, Latest, Successes, Transactions, ExecutedPrefix, Chain, Holds, MinedEntries;
    var executed := ExecutedPrefix(s.execution.value.transactions, outcomes);
    NothingSucceeded();
    SuccessesConcat(log.executed, executed);
    Unbalanced(MinedEntries(s.store, lo, n), Successes(executed));
  }

  function OvertakingRun(
      outcomes: seq<Execution>, updates: StateUpdates, limited: bool, timestamp: nat, prices: nat): seq<Event>
  {
    [Mine, RunExecution(outcomes, updates, limited), FinishMining(timestamp, prices)]
  }

  /** In any reachable state where mining holds the permit and an execution is pending, mining first loses the batch's successes. */
  lemma OvertakingRunLoses(
      c: Crypto, s: State, log: Log, g: nat, lo: nat, n: nat,
      outcomes: seq<Execution>, updates: StateUpdates, limited: bool, timestamp: nat, prices: nat)
    requires Invariant(c, s, log, g, lo, n) && ExecutionPending(s)
    requires s.mining.Some? && s.mining.value.stage.Holding?
    requires Enabled(s, RunExecution(outcomes, updates, limited))
    ensures var es := OvertakingRun(outcomes, updates, limited, timestamp, prices);
            && Possible(c, s, es)
            && (Accounted(After(c, s, es), LogAfter(c, s, log, es), lo, n + 1) <==>
                Successes(ExecutedPrefix(s.execution.value.transactions, outcomes)) == [])
  {
    hide Mined, Latest, Successes, Transactions, TxHashes, ExecutedPrefix, Chain, Holds, MinedEntries,
      Possible, After, LogAfter, Conserved;
    var es := OvertakingRun(outcomes, updates, limited, timestamp, prices);
    var t := Step(c, s, Mine);
    StepSane(c, s, Mine);
    var x := s.executors[s.executor];
    MinedEntriesStep(c, s.store, g, lo, n, x.env, Output(x.transactions, x.updates));
    NothingSucceeded();
    Emptied(MinedEntries(t.store, lo, n + 1));
    OvertakenLoss(c, t, log, lo, n + 1, outcomes, updates, limited, timestamp, prices);
    StepSane(c, t, es[1]);
    RunOfThree(c, s, log, t, Step(c, t, es[1]), es);
  }

  function HoldingRun(batch: seq<Transaction>): seq<Event> {
    StartedRun(batch) + [CheckTimer(true)] + [LockPermit]
  }

  /** A new producer with a block time gets there: a batch is started, the interval ends, mining locks the permit. */
  lemma HoldingReached(c: Crypto, s: State, g: nat, n: nat, batch: seq<Transaction>)
    requires Initial(c, s, g, n) && s.blockTime.Some?
    ensures Possible(c, s, HoldingRun(batch)) && Guarded(c, s, HoldingRun(batch))
    ensures var t := After(c, s, HoldingRun(batch));
            && ExecutionPending(t) && t.execution.value.transactions == batch
            && t.mining.Some? && t.mining.value.stage.Holding?
  {
    hide Chain, Possible, Guarded, After;
    InitialControl(c, s, g, n);
    StartReached(c, s, g, n, batch);
    var started := StartedState(s, batch);
    ReachesStep(c, s, StartedRun(batch), started, CheckTimer(true));
    var t := Step(c, started, CheckTimer(true));
    ReachesStep(c, s, StartedRun(batch) + [CheckTimer(true)], t, LockPermit);
  }

  /** So a new producer can lose a transaction: it succeeds, and is neither in a block nor pending. */
  lemma TransactionOvertaken(c: Crypto, s: State, g: nat, n: nat, tx: Transaction, receipt: Receipt, trace: nat)
    requires Initial(c, s, g, n) && s.blockTime.Some?
    ensures var es := HoldingRun([tx]) + OvertakingRun([Success(receipt, trace)], EMPTY, false, 0, 0);
            && Possible(c, s, es)
            && !Accounted(After(c, s, es), LogAfter(c, s, Log([], []), es), n, n + 1)
  {
    hide Chain, Possible, Guarded, After, LogAfter, HoldingRun, OvertakingRun, Accounted, Invariant, Initial, BlocksMined;
    var es := HoldingRun([tx]);
    var outcomes := [Success(receipt, trace)];
    HoldingReached(c, s, g, n, [tx]);
    InvariantHolds(c, s, es, g, n);
    HoldingMinesNothing([tx]);
    var t, log := After(c, s, es), LogAfter(c, s, Log([], []), es);
    OvertakingRunLoses(c, t, log, g, n, n, outcomes, EMPTY, false, 0, 0);
    OneSuccess(tx, receipt, trace);
    RunConcat(c, s, Log([], []), es, OvertakingRun(outcomes, EMPTY, false, 0, 0));
  }

  lemma {:induction false} NothingMined(es: seq<Event>)
    requires forall i :: 0 <= i < |es| ==> !es[i].Mine? && !es[i].ForceMine?
    ensures BlocksMined(es) == 0
  {
    if es != [] { NothingMined(es[1..]); }
  }

  lemma HoldingMinesNothing(batch: seq<Transaction>)
    ensures BlocksMined(HoldingRun(batch)) == 0
  {
    NothingMined(HoldingRun(batch));
  }

  lemma WaitingMinesNothing(tx: Transaction, receipt: Receipt, trace: nat)
    ensures BlocksMined(WaitingRun(tx, receipt, trace)) == 0
  {
    NothingMined(WaitingRun(tx, receipt, trace));
  }

  lemma OneSuccess(tx: Transaction, receipt: Receipt, trace: nat)
    ensures Successes(ExecutedPrefix([tx], [Success(receipt, trace)])) == [Executed(tx, Success(receipt, trace))]
  {
    var e := Executed(tx, Success(receipt, trace));
    assert ExecutedPrefix([tx], [Success(receipt, trace)]) == [e];
    SuccessesUnfold([e]);
    assert [e][1..] == [];
  }

  lemma Emptied<T>(a: seq<T>)
    ensures a + [] == a
  {
  }

  lemma Unbalanced<T>(a: seq<T>, b: seq<T>)
    ensures a + [] + [] == a + [] + b <==> b == []
    ensures a + [] == a
  {
    if b != [] { assert |a + [] + []| < |a + [] + b|; }
  }

  // ---- A block forced during mining -------------------------------------

  function OverlapRun(timestamp: nat, prices: nat): seq<Event> {
    [ForceMine(timestamp, prices), LockPermit, Mine]
  }

  /**
    Forcing a block while a mining task is waiting for the permit makes the task seal the same block number
    again, from an executor that is already empty. The forced block is overwritten by an empty one, so its
    transactions are gone unless there were none.
   */
  lemma OverlapLoss(c: Crypto, s: State, log: Log, g: nat, lo: nat, n: nat, timestamp: nat, prices: nat)
    requires Invariant(c, s, log, g, lo, n)
    requires s.mining.Some? && s.mining.value.stage.Waiting?
    ensures Possible(c, s, OverlapRun(timestamp, prices))
    ensures var t := After(c, s, OverlapRun(timestamp, prices));
            && Consecutive(t.store, g, n + 1) && t.store.blocks[n + 1].body == []
            && (Accounted(t, log, lo, n + 1) <==>
                Successes(s.executors[s.mining.value.executor].transactions) == [])
  {
    hide Mined, Latest, Successes, Transactions, ExecutedPrefix, Chain, Holds, MinedEntries, Consecutive,
      Possible, After, OverlapRun, Conserved;
    var x := s.executors[s.executor];
    OverlapReaches(c, s, timestamp, prices);
    TwiceSealed(c, s.store, g, n, x.env, Output(x.transactions, x.updates), Output([], x.updates));
    TwiceEntries(c, s.store, g, lo, n, x.env, Output(x.transactions, x.updates), Output([], x.updates));
    NothingSucceeded();
    Unbalanced(MinedEntries(s.store, lo, n), Successes(x.transactions));
  }

  function WaitingRun(tx: Transaction, receipt: Receipt, trace: nat): seq<Event> {
    StartedRun([tx]) + [RunExecution([Success(receipt, trace)], EMPTY, false)] + [CheckTimer(true)]
  }

  /** A new producer gets there: a transaction succeeds and the interval ends. */
  lemma WaitingReached(c: Crypto, s: State, g: nat, n: nat, tx: Transaction, receipt: Receipt, trace: nat)
    requires Initial(c, s, g, n) && s.blockTime.Some?
    ensures var es := WaitingRun(tx, receipt, trace);
            && Possible(c, s, es) && Guarded(c, s, es)
            && var t := After(c, s, es);
            && t.mining == Some(MiningTask(t.executor, Waiting)) && t.executor < |t.executors|
            && t.executors[t.executor].transactions == [Executed(tx, Success(receipt, trace))]
  {
    hide Chain, Possible, Guarded, After;
    InitialControl(c, s, g, n);
    StartReached(c, s, g, n, [tx]);
    var started := StartedState(s, [tx]);
    var run := RunExecution([Success(receipt, trace)], EMPTY, false);
    ReachesStep(c, s, StartedRun([tx]), started, run);
    var ran := Step(c, started, run);
    var executed := Executed(tx, Success(receipt, trace));
    assert [] + ExecutedPrefix([tx], [Success(receipt, trace)]) == [executed];
    assert ran.executors[s.executor].transactions == [executed];
    ReachesStep(c, s, StartedRun([tx]) + [run], ran, CheckTimer(true));
  }

  /** So a new producer can lose a mined block: the block forced for a transaction ends up empty. */
  lemma BlockOverwritten(c: Crypto, s: State, g: nat, n: nat, tx: Transaction, receipt: Receipt, trace: nat)
    requires Initial(c, s, g, n) && s.blockTime.Some?
    ensures var es := WaitingRun(tx, receipt, trace) + OverlapRun(0, 0);
            && Possible(c, s, es)
            && var t := After(c, s, es);
            && Consecutive(t.store, g, n + 1) && t.store.blocks[n + 1].body == []
            && !Accounted(t, LogAfter(c, s, Log([], []), es), n, n + 1)
  {
    hide Chain, Possible, Guarded, After, LogAfter, WaitingRun, OverlapRun, Accounted, Invariant, Initial,
      BlocksMined, Consecutive;
    var es := WaitingRun(tx, receipt, trace);
    WaitingReached(c, s, g, n, tx, receipt, trace);
    InvariantHolds(c, s, es, g, n);
    WaitingMinesNothing(tx, receipt, trace);
    var t, log := After(c, s, es), LogAfter(c, s, Log([], []), es);
    OverlapLoss(c, t, log, g, n, n, 0, 0);
    OneSuccess(tx, receipt, trace);
    assert ExecutedPrefix([tx], [Success(receipt, trace)]) == [Executed(tx, Success(receipt, trace))];
    RunConcat(c, s, Log([], []), es, OverlapRun(0, 0));
    OverlapLogsNothing(c, t, log, 0, 0);
  }

  lemma OverlapLogsNothing(c: Crypto, s: State, log: Log, timestamp: nat, prices: nat)
    requires Possible(c, s, OverlapRun(timestamp, prices))
    ensures LogAfter(c, s, log, OverlapRun(timestamp, prices)) == log
  {
    hide Step, Enabled, Sane;
    var es := OverlapRun(timestamp, prices);
    var t := Step(c, s, es[0]);
    assert es[1..][1..] == es[2..] && es[2..][1..] == [];
    var u := Step(c, t, es[1..][0]);
    assert LogAfter(c, u, log, es[2..]) == log;
    assert LogAfter(c, t, log, es[1..]) == log;
  }

  /** Where the overlapping steps lead. */
  lemma OverlapReaches(c: Crypto, s: State, timestamp: nat, prices: nat)
    requires Control(s) && s.mining.Some? && s.mining.value.stage.Waiting?
    ensures Possible(c, s, OverlapRun(timestamp, prices))
    ensures var x := s.executors[s.executor];
            var t := After(c, s, OverlapRun(timestamp, prices));
            var first := Mined(c, s.store, x.env, Output(x.transactions, x.updates));
            && first.blocks != map[]
            && t.store == Mined(c, first, x.env, Output([], x.updates))
            && t.executor < |t.executors| && t.executors[t.executor].transactions == []
  {
    hide Mined, Latest, Successes, Transactions, TxHashes, Possible, After;
    var x := s.executors[s.executor];
    var es := OverlapRun(timestamp, prices);
    StepSane(c, s, es[0]);
    var forced := Step(c, s, es[0]);
    assert forced.executors[s.executor] == x.(transactions := []);
    StepSane(c, forced, es[1]);
    var held := Step(c, forced, es[1]);
    RunOfThree(c, s, Log([], []), forced, held, es);
  }

  lemma RunOfThree(c: Crypto, s: State, log: Log, t: State, u: State, es: seq<Event>)
    requires |es| == 3
    requires Sane(s) && Enabled(s, es[0]) && t == Step(c, s, es[0])
    requires Sane(t) && Enabled(t, es[1]) && u == Step(c, t, es[1])
    requires Sane(u) && Enabled(u, es[2])
    ensures Possible(c, s, es) && After(c, s, es) == Step(c, u, es[2])
    ensures LogAfter(c, s, log, es) == Logged(u, Logged(t, Logged(s, log, es[0]), es[1]), es[2])
  {
    hide Step, Sane, Enabled, Logged;
    assert es[1..][1..] == es[2..];
    assert es[2..][1..] == [];
    assert Possible(c, u, es[2..]) && After(c, u, es[2..]) == Step(c, u, es[2]);
    assert Possible(c, t, es[1..]) && After(c, t, es[1..]) == After(c, u, es[2..]);
    var first := Logged(s, log, es[0]);
    var second := Logged(t, first, es[1]);
    assert LogAfter(c, u, second, es[2..]) == Logged(u, second, es[2]);
    assert LogAfter(c, t, first, es[1..]) == LogAfter(c, u, second, es[2..]);
  }

  /** Mining the same number twice leaves the second block only. */
  lemma TwiceSealed(c: Crypto, store: Store, g: nat, n: nat, env: BlockEnv, first: Output, second: Output)
    requires Chain(c, store, g, n) && env.number == n + 1 && second.transactions == []
    ensures var s := Mined(c, store, env, first);
            && s.blocks != map[] && n + 1 in s.blocks
            && var t := Mined(c, s, env, second);
            && Consecutive(t, g, n + 1)
            && t.blocks[n + 1].body == [] && t.blocks[n + 1].header.parentHash == s.blocks[n + 1].hash
            && Aligned(t.blocks[n + 1]) && BlockEntries(t.blocks[n + 1]) == []
  {
    hide Mined, Successes, PointsBack, WellFormed, Aligned, BlockEntries;
    MinedExtends(c, store, g, n, env, first);
    var s := Mined(c, store, env, first);
    ChainLatest(s, g, n + 1);
    assert n + 1 in s.blocks;
    Resealed(c, s, env, second);
  }

  lemma TwiceEntries(c: Crypto, store: Store, g: nat, lo: nat, n: nat, env: BlockEnv, first: Output, second: Output)
    requires Chain(c, store, g, n) && g <= lo <= n && env.number == n + 1 && second.transactions == []
    ensures var s := Mined(c, store, env, first);
            && s.blocks != map[]
            && var t := Mined(c, s, env, second);
            && Holds(store, lo, n) && Holds(t, lo, n + 1)
            && MinedEntries(t, lo, n + 1) == MinedEntries(store, lo, n) + []
  {
    hide Mined, Successes, PointsBack, WellFormed, Aligned, BlockEntries;
    var s := Mined(c, store, env, first);
    TwiceSealed(c, store, g, n, env, first, second);
    var t := Mined(c, s, env, second);
    ChainHolds(c, store, g, lo, n);
    forall k: nat | lo < k <= n ensures k in t.blocks && t.blocks[k] == store.blocks[k] {
      MinedKeeps(c, store, env, first, k);
      MinedKeeps(c, s, env, second, k);
    }
    MinedEntriesFrame(store, t, lo, n);
  }

  lemma Resealed(c: Crypto, s: Store, env: BlockEnv, output: Output)
    requires s.blocks != map[] && output.transactions == []
    ensures var t := Mined(c, s, env, output);
            && t.blocks.Keys == s.blocks.Keys + {env.number}
            && var b := t.blocks[env.number];
            && b.body == [] && b.header.parentHash == s.blocks[Latest(s)].hash
            && Aligned(b) && BlockEntries(b) == []
  {
  }
}

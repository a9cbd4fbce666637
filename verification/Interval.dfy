/**
  Interval block production as a transition system. The producer's own steps are
  interleaved with those of the tasks it spawns on the blocking pool.
 */
module Interval {
  import opened Backend
  import opened Batches
  import opened Blocks
  import opened MinedBlocks
  import opened Outcomes
  import opened StateDiff

  /** A pending block: built on the state of block `base`, executing in `env`. */
  datatype Executor = Executor(base: nat, env: BlockEnv, transactions: seq<Executed>, updates: StateUpdates)

  /** `result` is absent until the task has run; then it holds the transactions that did not fit, if the block is full. */
  datatype ExecutionTask = ExecutionTask(
    executor: nat, transactions: seq<Transaction>, result: Option<Option<seq<Transaction>>>)

  datatype Stage = Waiting | Holding | Finished(outcome: Outcome)

  datatype MiningTask = MiningTask(executor: nat, stage: Stage)

  /** Executors are shared by reference: `executor`, `view` and the tasks index into `executors`. */
  datatype State = State(
    blockTime: Option<nat>,
    queued: seq<seq<Transaction>>,
    timer: bool,
    execution: Option<ExecutionTask>,
    mining: Option<MiningTask>,
    full: bool,
    executor: nat,
    permitFree: bool,
    view: nat,
    executors: seq<Executor>,
    store: Store)

  datatype Event =
    | Queue(batch: seq<Transaction>)
    | CheckTimer(tick: bool)
    | StartExecution
    | FinishExecution
    | FinishMining(timestamp: nat, prices: nat)
    | ForceMine(timestamp: nat, prices: nat)
    | RunExecution(outcomes: seq<Execution>, updates: StateUpdates, limited: bool)
    | LockPermit
    | Mine
    | Validate

  /** Every reference is valid. */
  predicate Sane(s: State) {
    && s.executor < |s.executors| && s.view < |s.executors|
    && (s.execution.Some? ==> s.execution.value.executor < |s.executors|)
    && (s.mining.Some? ==> s.mining.value.executor < |s.executors|)
    && s.store.blocks != map[]
  }

  // ---- The pieces of a step ---------------------------------------------

  /** A fresh executor for the next block becomes current, and the validator is moved to it before the permit is freed. */
  function Swapped(s: State, timestamp: nat, prices: nat): State
    requires Sane(s)
  {
    var next := Executor(Latest(s.store), NextEnv(s.store, timestamp, prices), [], EMPTY);
    s.(executors := s.executors + [next], executor := |s.executors|, view := |s.executors|, permitFree := true)
  }

  /** Takes the output of executor `id` and mines it. */
  function Committed(c: Crypto, s: State, id: nat): State
    requires Sane(s) && id < |s.executors|
  {
    var x := s.executors[id];
    s.(executors := s.executors[id := x.(transactions := [])],
       store := Mined(c, s.store, x.env, Output(x.transactions, x.updates)))
  }

  function StartMining(s: State): State {
    s.(mining := Some(MiningTask(s.executor, Waiting)), full := false, timer := false)
  }

  function TimerChecked(s: State, tick: bool): State {
    if s.timer then if (tick || s.full) && s.mining.None? then StartMining(s) else s
    else if s.full && s.mining.None? then StartMining(s) else s
  }

  function ExecutionStarted(s: State): State {
    s.(execution := Some(ExecutionTask(s.executor, Flatten(s.queued), None)), queued := [],
       timer := s.timer || s.blockTime.Some?)
  }

  function ExecutionFinished(s: State): State
    requires s.execution.Some? && s.execution.value.result.Some?
  {
    match s.execution.value.result.value
    case None => s.(execution := None)
    case Some(leftovers) => s.(execution := None, full := true, queued := [leftovers] + s.queued)
  }

  function ExecutionRun(s: State, outcomes: seq<Execution>, updates: StateUpdates, limited: bool): State
    requires Sane(s) && s.execution.Some? && |outcomes| <= |s.execution.value.transactions|
  {
    var task := s.execution.value;
    var x := s.executors[task.executor];
    var executed := ExecutedPrefix(task.transactions, outcomes);
    var result := if limited then Some(task.transactions[|outcomes|..]) else None;
    s.(executors := s.executors[task.executor := x.(transactions := x.transactions + executed, updates := updates)],
       execution := Some(task.(result := Some(result))))
  }

  function MineTaskRun(c: Crypto, s: State): State
    requires Sane(s) && s.mining.Some?
  {
    var id := s.mining.value.executor;
    var x := s.executors[id];
    var outcome := Outcome(x.env.number, TxHashes(Transactions(Successes(x.transactions))));
    Committed(c, s, id).(mining := Some(MiningTask(id, Finished(outcome))))
  }

  // ---- The transition system --------------------------------------------

  predicate Enabled(s: State, e: Event) {
    match e
    case Queue(_) => true
    case CheckTimer(_) => true
    case StartExecution => s.queued != [] && s.execution.None? && s.mining.None?
    case FinishExecution => s.execution.Some? && s.execution.value.result.Some?
    case FinishMining(_, _) => s.mining.Some? && s.mining.value.stage.Finished?
    case ForceMine(_, _) => s.permitFree
    case RunExecution(outcomes, _, limited) =>
      && s.execution.Some? && s.execution.value.result.None?
      && |outcomes| <= |s.execution.value.transactions|
      && (!limited ==> |outcomes| == |s.execution.value.transactions|)
    case LockPermit => s.mining.Some? && s.mining.value.stage.Waiting? && s.permitFree
    case Mine => s.mining.Some? && s.mining.value.stage.Holding?
    case Validate => s.permitFree
  }

  function Step(c: Crypto, s: State, e: Event): State
    requires Sane(s) && Enabled(s, e)
  {
    match e
    case Queue(batch) => s.(queued := s.queued + [batch])
    case CheckTimer(tick) => TimerChecked(s, tick)
    case StartExecution => ExecutionStarted(s)
    case FinishExecution => ExecutionFinished(s)
    case FinishMining(timestamp, prices) => Swapped(s.(mining := None, full := false), timestamp, prices)
    case ForceMine(timestamp, prices) => Swapped(Committed(c, s, s.executor), timestamp, prices)
    case RunExecution(outcomes, updates, limited) => ExecutionRun(s, outcomes, updates, limited)
    case LockPermit => s.(mining := Some(s.mining.value.(stage := Holding)), permitFree := false)
    case Mine => MineTaskRun(c, s)
    case Validate => s
  }

  lemma StepSane(c: Crypto, s: State, e: Event)
    requires Sane(s) && Enabled(s, e)
    ensures Sane(Step(c, s, e))
  {
    hide Mined, Latest, Flatten, Successes, Transactions, TxHashes, ExecutedPrefix;
    if e.Mine? { MinedNotEmpty(c, s.store, s.executors[s.mining.value.executor]); }
    if e.ForceMine? { MinedNotEmpty(c, s.store, s.executors[s.executor]); }
  }

  lemma MinedNotEmpty(c: Crypto, store: Store, x: Executor)
    requires store.blocks != map[]
    ensures Mined(c, store, x.env, Output(x.transactions, x.updates)).blocks != map[]
  {
    assert x.env.number in Mined(c, store, x.env, Output(x.transactions, x.updates)).blocks;
  }
}

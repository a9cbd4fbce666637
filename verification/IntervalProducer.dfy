/** The interval block producer: its polling code is a run of the transition system. */
module IntervalProducer {
  import opened Backend
  import opened Batches
  import opened Blocks
  import opened MinedBlocks
  import opened Interval
  import opened IntervalRuns
  import opened IntervalSafety
  import opened Outcomes
  import opened StateDiff

  /** A step that a spawned task takes on the blocking pool. */
  predicate OfTask(e: Event) {
    e.RunExecution? || e.LockPermit? || e.Mine?
  }

  /** A step that happens during a poll. */
  predicate OfPoll(e: Event) {
    OfTask(e) || e.CheckTimer? || e.StartExecution? || e.FinishExecution? || e.FinishMining?
  }

  /** What the blocking pool does meanwhile, and whether a finished task is seen to be ready. */
  datatype Meanwhile = Meanwhile(tasks: seq<Event>, observed: bool)

  /** Mining is in flight now exactly if it was, and on the same executor. */
  predicate SameMining(now: Option<MiningTask>, was: Option<MiningTask>) {
    now.Some? == was.Some? && (now.Some? ==> now.value.executor == was.value.executor)
  }

  class IntervalBlockProducer {
    const blockTime: Option<nat>
    const backend: Backend
    var queued: seq<seq<Transaction>>
    var timer: bool
    var ongoingExecution: Option<ExecutionTask>
    var ongoingMining: Option<MiningTask>
    var isBlockFull: bool
    var executor: nat
    var permitFree: bool
    var view: nat
    var executors: seq<Executor>

    constructor (backend: Backend, blockTime: Option<nat>, now: nat, prices: nat)
      requires backend.blocks != map[]
      modifies backend`nextBlockStartTime, backend`timestampOffset
      ensures this.backend == backend && this.blockTime == blockTime
      ensures Valid() && backend.Contents() == old(backend.Contents())
      ensures forall g, n :: Chain(backend.crypto, backend.Contents(), g, n) ==>
                Initial(backend.crypto, Snapshot(), g, n)
    {
      hide Latest, PointsBack;
      this.backend := backend;
      this.blockTime := blockTime;
      queued, timer, ongoingExecution, ongoingMining, isBlockFull := [], false, None, None, false;
      permitFree, view, executor := true, 0, 0;
      var latest := Latest(backend.Contents());
      var env := backend.UpdateBlockEnv(backend.blocks[latest].header.env, now, prices);
      executors := [Executor(latest, env, [], EMPTY)];
      new;
      forall g, n | Chain(backend.crypto, backend.Contents(), g, n)
        ensures Initial(backend.crypto, Snapshot(), g, n)
      {
        ChainLatest(backend.Contents(), g, n);
        assert n in backend.blocks;
      }
    }

    function Snapshot(): State
      reads this, backend
    {
      State(blockTime, queued, timer, ongoingExecution, ongoingMining, isBlockFull,
            executor, permitFree, view, executors, backend.Contents())
    }

    predicate Valid()
      reads this, backend
    {
      Sane(Snapshot())
    }

    /** A waiting queue has a task in flight, or a full block that the next poll closes. */
    predicate Occupied()
      reads this
    {
      queued == [] || ongoingExecution.Some? || ongoingMining.Some? || isBlockFull
    }

    method Queue(batch: seq<Transaction>)
      requires Valid()
      modifies this`queued
      ensures Valid() && Snapshot() == Step(backend.crypto, old(Snapshot()), Event.Queue(batch))
    {
      queued := queued + [batch];
    }

    /** Runs a prefix of the batch, and returns the new successes. What does not fit is left in the task. */
    method ExecuteTransactions(outcomes: seq<Execution>, updates: StateUpdates, limited: bool)
      returns (results: seq<Executed>)
      requires Valid() && Enabled(Snapshot(), RunExecution(outcomes, updates, limited))
      modifies this`executors, this`ongoingExecution
      ensures Valid()
      ensures Snapshot() == Step(backend.crypto, old(Snapshot()), RunExecution(outcomes, updates, limited))
      ensures results == Successes(ExecutedPrefix(old(ongoingExecution).value.transactions, outcomes))
    {
      hide ExecutedPrefix, Successes;
      var task := ongoingExecution.value;
      var x := executors[task.executor];
      var executed := ExecutedPrefix(task.transactions, outcomes);
      var all := x.transactions + executed;
      executors := executors[task.executor := x.(transactions := all, updates := updates)];
      assert all[|all| - |outcomes|..] == executed;
      results := Successes(all[|all| - |outcomes|..]);
      var nonExecuted := if limited then Some(task.transactions[|outcomes|..]) else None;
      ongoingExecution := Some(task.(result := Some(nonExecuted)));
    }

    /** Takes the output of an executor and stores it as a block. */
    method TakeAndMine(id: nat) returns (outcome: Outcome)
      requires Valid() && id < |executors|
      modifies this`executors, backend`blocks, backend`storage
      ensures Valid() && Snapshot() == Committed(backend.crypto, old(Snapshot()), id)
      ensures var x := old(executors)[id];
              outcome == Outcome(x.env.number, TxHashes(Transactions(Successes(x.transactions))))
    {
      hide Mined, TxHashes, Transactions, Successes;
      CommittedSane(backend.crypto, Snapshot(), id);
      var x := executors[id];
      executors := executors[id := x.(transactions := [])];
      var r := backend.DoMineBlock(x.env, Output(x.transactions, x.updates));
      outcome := r.value;
    }

    /** Opens the block after the tip and shows it to the validator, then frees the permit. */
    method SwapExecutor(now: nat, prices: nat) returns (timestamp: nat)
      requires Valid()
      modifies this`executors, this`executor, this`view, this`permitFree
      modifies backend`nextBlockStartTime, backend`timestampOffset
      ensures Valid() && Snapshot() == Swapped(old(Snapshot()), timestamp, prices)
    {
      hide Latest;
      var latest := Latest(backend.Contents());
      var env := backend.UpdateBlockEnv(backend.blocks[latest].header.env, now, prices);
      timestamp := env.timestamp;
      var next := Executor(latest, env, [], EMPTY);
      executors := executors + [next];
      view := |executors| - 1;
      executor := |executors| - 1;
      permitFree := true;
    }

    /** Mines the pending block at once. */
    method ForceMine(now: nat, prices: nat) returns (timestamp: nat)
      requires Valid() && permitFree
      modifies this`executors, this`executor, this`view, this`permitFree
      modifies backend`blocks, backend`storage, backend`nextBlockStartTime, backend`timestampOffset
      ensures Valid()
      ensures Snapshot() == Step(backend.crypto, old(Snapshot()), Event.ForceMine(timestamp, prices))
    {
      hide Mined, Latest;
      permitFree := false;
      var _ := TakeAndMine(executor);
      timestamp := SwapExecutor(now, prices);
    }

    /** Steps of the blocking pool; those that cannot be taken now are passed over. */
    method RunTasks(tasks: seq<Event>) returns (ghost ran: seq<Event>)
      requires Valid()
      modifies this`executors, this`ongoingExecution, this`ongoingMining, this`permitFree
      modifies backend`blocks, backend`storage
      ensures Valid() && Reaches(backend.crypto, old(Snapshot()), ran, Snapshot())
      ensures forall i :: 0 <= i < |ran| ==> OfTask(ran[i])
      ensures ongoingExecution.Some? == old(ongoingExecution).Some?
      ensures SameMining(ongoingMining, old(ongoingMining))
    {
      hide Reaches, Step, Enabled, LockOrder, NoOverlap, Sane, OfTask;
      ran := [];
      ReachesNothing(backend.crypto, Snapshot());
      for i := 0 to |tasks|
        invariant Valid() && Reaches(backend.crypto, old(Snapshot()), ran, Snapshot())
        invariant forall j :: 0 <= j < |ran| ==> OfTask(ran[j])
        invariant ongoingExecution.Some? == old(ongoingExecution).Some?
        invariant SameMining(ongoingMining, old(ongoingMining))
        invariant queued == old(queued) && timer == old(timer)
      {
        if OfTask(tasks[i]) && Allowed(Snapshot(), tasks[i]) {
          ghost var before := Snapshot();
          RunTask(tasks[i]);
          ReachesStep(backend.crypto, old(Snapshot()), ran, before, tasks[i]);
          ran := ran + [tasks[i]];
        }
      }
    }

    method RunTask(e: Event)
      requires Valid() && OfTask(e) && Enabled(Snapshot(), e)
      modifies this`executors, this`ongoingExecution, this`ongoingMining, this`permitFree
      modifies backend`blocks, backend`storage
      ensures Valid() && Snapshot() == Step(backend.crypto, old(Snapshot()), e)
      ensures ongoingExecution.Some? == old(ongoingExecution).Some?
      ensures SameMining(ongoingMining, old(ongoingMining))
    {
      hide Mined, ExecutedPrefix, Successes, Transactions, TxHashes;
      match e
      case RunExecution(outcomes, updates, limited) =>
        var _ := ExecuteTransactions(outcomes, updates, limited);
      case LockPermit =>
        permitFree := false;
        ongoingMining := Some(ongoingMining.value.(stage := Holding));
      case Mine =>
        var id := ongoingMining.value.executor;
        var outcome := TakeAndMine(id);
        ongoingMining := Some(MiningTask(id, Finished(outcome)));
    }

    /** Starts mining when the interval is over or the block is full. */
    method CheckTimer(tick: bool)
      requires Valid()
      modifies this`timer, this`isBlockFull, this`ongoingMining
      ensures Valid() && Snapshot() == Step(backend.crypto, old(Snapshot()), Event.CheckTimer(tick))
    {
      if timer {
        timer := false;
        if (tick || isBlockFull) && ongoingMining.None? {
          if isBlockFull {
            isBlockFull := false;
          }
          ongoingMining := Some(MiningTask(executor, Waiting));
        } else {
          timer := true;
        }
      } else if isBlockFull && ongoingMining.None? {
        ongoingMining := Some(MiningTask(executor, Waiting));
        isBlockFull := false;
        timer := false;
      }
    }

    /** Hands everything queued to an execution task, starting the interval if it is not running. */
    method StartExecution()
      requires Valid() && queued != [] && ongoingExecution.None? && ongoingMining.None?
      modifies this`queued, this`ongoingExecution, this`timer
      ensures Valid() && Snapshot() == Step(backend.crypto, old(Snapshot()), Event.StartExecution)
      ensures queued == [] && ongoingExecution.Some?
    {
      var transactions := Flatten(queued);
      queued := [];
      ongoingExecution := Some(ExecutionTask(executor, transactions, None));
      if !timer {
        timer := blockTime.Some?;
      }
    }

    /** One round of the execution loop; `again` tells whether it goes on. */
    method PollExecution(meanwhile: Meanwhile) returns (again: bool, ghost trace: seq<Event>)
      requires Valid()
      modifies this`queued, this`timer, this`ongoingExecution, this`ongoingMining, this`isBlockFull,
               this`permitFree, this`executors, backend`blocks, backend`storage
      ensures Valid() && Reaches(backend.crypto, old(Snapshot()), trace, Snapshot())
      ensures forall i :: 0 <= i < |trace| ==> OfPoll(trace[i]) && !trace[i].FinishMining?
      ensures old(queued) != [] && old(ongoingExecution).None? && old(ongoingMining).None? ==>
                trace != [] && trace[0] == Event.StartExecution
      ensures SameMining(ongoingMining, old(ongoingMining))
      ensures meanwhile.observed ==> ongoingExecution.None? || ongoingExecution.value.result.None?
      ensures !again ==> Occupied()
      ensures again ==> Backlog(queued, ongoingExecution) < Backlog(old(queued), old(ongoingExecution))
    {
      hide Reaches, Step, Sane, Flatten;
      trace := [];
      ReachesNothing(backend.crypto, Snapshot());
      if queued != [] && ongoingExecution.None? && ongoingMining.None? {
        ghost var before := Snapshot();
        StartExecution();
        StepReaches(backend.crypto, before, Event.StartExecution);
        trace := [Event.StartExecution];
      }
      ghost var started := Snapshot();
      ghost var ran := RunTasks(meanwhile.tasks);
      ReachesConcat(backend.crypto, old(Snapshot()), trace, started, ran, Snapshot());
      trace := trace + ran;
      again := false;
      if meanwhile.observed && ongoingExecution.Some? && ongoingExecution.value.result.Some? {
        ghost var before := Snapshot();
        again := FinishExecution();
        StepReaches(backend.crypto, before, Event.FinishExecution);
        ReachesConcat(backend.crypto, old(Snapshot()), trace, before, [Event.FinishExecution], Snapshot());
        trace := trace + [Event.FinishExecution];
      }
    }

    /** Takes back what did not fit into the block, in front of the queue. */
    method FinishExecution() returns (again: bool)
      requires Valid() && Enabled(Snapshot(), Event.FinishExecution)
      modifies this`queued, this`ongoingExecution, this`isBlockFull
      ensures Valid() && Snapshot() == Step(backend.crypto, old(Snapshot()), Event.FinishExecution)
      ensures ongoingExecution.None? && (again ==> queued == old(queued))
      ensures again <==> old(ongoingExecution).value.result.value.None?
      ensures !again ==> isBlockFull
    {
      var leftovers := ongoingExecution.value.result.value;
      ongoingExecution := None;
      again := leftovers.None?;
      if leftovers.Some? {
        isBlockFull := true;
        queued := [leftovers.value] + queued;
      }
    }

    /** Polls the timer, then the execution, then the mining task; returns the outcome of a block that is done. */
    method PollNext(tick: bool, rounds: seq<Meanwhile>, meanwhile: Meanwhile, now: nat, prices: nat)
      returns (r: Option<Outcome>, ghost trace: seq<Event>)
      requires Valid()
      modifies this, backend
      ensures Valid() && Reaches(backend.crypto, old(Snapshot()), trace, Snapshot())
      ensures trace != [] && trace[0] == Event.CheckTimer(tick)
      ensures forall i :: 0 <= i < |trace| ==> OfPoll(trace[i])
      ensures forall i :: 0 <= i < |trace| && trace[i].FinishMining? ==> i == |trace| - 1
      ensures r.Some? <==> trace[|trace| - 1].FinishMining?
      ensures r.None? ==> Occupied()
      ensures r.Some? ==> ongoingMining.None? && !isBlockFull
      ensures r.None? && meanwhile.observed ==> !BlockTaken(Snapshot())
      ensures old(ongoingMining).None? ==>
                (r.Some? || ongoingMining.Some? <==> old(isBlockFull) || (tick && old(timer)))
      ensures (old(isBlockFull) || (tick && old(timer))) && old(ongoingMining).None? ==>
                && Sane(old(Snapshot()))
                && Step(backend.crypto, old(Snapshot()), trace[0]).mining == Some(MiningTask(old(executor), Waiting))
                && (r.Some? || (ongoingMining.Some? && ongoingMining.value.executor == old(executor)))
      ensures Possible(backend.crypto, old(Snapshot()), trace)
      ensures FinishedOutcomes(backend.crypto, old(Snapshot()), trace) == if r.Some? then [r.value] else []
    {
      hide Reaches, Step, Sane, OfPoll, Possible, FinishedOutcomes;
      ghost var first := Event.CheckTimer(tick);
      if ongoingMining.None? { BlockClosesIff(backend.crypto, Snapshot(), tick); }
      assert OfPoll(first) by { CheckIsOfPoll(tick); }
      CheckTimer(tick);
      StepReaches(backend.crypto, old(Snapshot()), first);
      ghost var checked := Snapshot();
      ghost var rest := PollExecutions(rounds);
      ReachesConcat(backend.crypto, old(Snapshot()), [first], checked, rest, Snapshot());
      ghost var polled := Snapshot();
      ghost var last;
      r, last := PollMining(meanwhile, now, prices);
      FinishedLater(backend.crypto, old(Snapshot()), [first] + rest, polled, last, Snapshot());
      trace := [first] + rest + last;
    }

    /** The execution loop, round after round. */
    method PollExecutions(rounds: seq<Meanwhile>) returns (ghost trace: seq<Event>)
      requires Valid()
      modifies this`queued, this`timer, this`ongoingExecution, this`ongoingMining, this`isBlockFull,
               this`permitFree, this`executors, backend`blocks, backend`storage
      ensures Valid() && Reaches(backend.crypto, old(Snapshot()), trace, Snapshot())
      ensures forall i :: 0 <= i < |trace| ==> OfPoll(trace[i]) && !trace[i].FinishMining?
      ensures Occupied() && SameMining(ongoingMining, old(ongoingMining))
    {
      hide Reaches, Step, Sane, OfPoll, Occupied;
      trace := [];
      ReachesNothing(backend.crypto, Snapshot());
      var again, i := true, 0;
      while again
        invariant Valid() && Reaches(backend.crypto, old(Snapshot()), trace, Snapshot())
        invariant !again ==> Occupied()
        invariant SameMining(ongoingMining, old(ongoingMining))
        invariant forall j :: 0 <= j < |trace| ==> OfPoll(trace[j]) && !trace[j].FinishMining?
        decreases again, Backlog(queued, ongoingExecution)
      {
        ghost var before := Snapshot();
        ghost var round;
        again, round := PollExecution(if i < |rounds| then rounds[i] else Meanwhile([], false));
        ReachesConcat(backend.crypto, old(Snapshot()), trace, before, round, Snapshot());
        trace := trace + round;
        i := i + 1;
      }
    }

    /** The mining task, if it is seen to be done. */
    method PollMining(meanwhile: Meanwhile, now: nat, prices: nat) returns (r: Option<Outcome>, ghost trace: seq<Event>)
      requires Valid()
      modifies this`executors, this`ongoingExecution, this`ongoingMining, this`permitFree,
               this`isBlockFull, this`executor, this`view, backend
      ensures Valid() && Reaches(backend.crypto, old(Snapshot()), trace, Snapshot())
      ensures forall i :: 0 <= i < |trace| ==> OfPoll(trace[i]) && (trace[i].FinishMining? ==> i == |trace| - 1)
      ensures r.Some? <==> trace != [] && trace[|trace| - 1].FinishMining?
      ensures r.Some? ==> old(ongoingMining).Some? && ongoingMining.None? && !isBlockFull
      ensures r.None? ==> SameMining(ongoingMining, old(ongoingMining)) && isBlockFull == old(isBlockFull)
      ensures r.None? ==> ongoingExecution.Some? == old(ongoingExecution).Some?
      ensures r.None? && meanwhile.observed ==> !BlockTaken(Snapshot())
      ensures Possible(backend.crypto, old(Snapshot()), trace)
      ensures FinishedOutcomes(backend.crypto, old(Snapshot()), trace) == if r.Some? then [r.value] else []
    {
      hide Reaches, Step, Sane;
      r := None;
      trace := RunTasks(meanwhile.tasks);
      NoneFinished(backend.crypto, old(Snapshot()), trace, Snapshot());
      if meanwhile.observed && ongoingMining.Some? && ongoingMining.value.stage.Finished? {
        ghost var before := Snapshot();
        var timestamp;
        r, timestamp := FinishMining(now, prices);
        ghost var e := Event.FinishMining(timestamp, prices);
        OneFinished(backend.crypto, old(Snapshot()), trace, before, e);
        trace := trace + [e];
      }
    }

    /** Opens the next block after a mined one. */
    method FinishMining(now: nat, prices: nat) returns (r: Option<Outcome>, timestamp: nat)
      requires Valid() && ongoingMining.Some? && ongoingMining.value.stage.Finished?
      modifies this`ongoingMining, this`isBlockFull, this`executors, this`executor, this`view, this`permitFree
      modifies backend`nextBlockStartTime, backend`timestampOffset
      ensures Valid()
      ensures Snapshot() == Step(backend.crypto, old(Snapshot()), Event.FinishMining(timestamp, prices))
      ensures r == Some(old(ongoingMining).value.stage.outcome) && ongoingMining.None? && !isBlockFull
    {
      hide Latest;
      r := Some(ongoingMining.value.stage.outcome);
      ongoingMining := None;
      isBlockFull := false;
      timestamp := SwapExecutor(now, prices);
    }
  }

  lemma CheckIsOfPoll(tick: bool)
    ensures OfPoll(Event.CheckTimer(tick))
  {
  }

  /** How many rounds the execution loop may still take. */
  function Backlog(queued: seq<seq<Transaction>>, execution: Option<ExecutionTask>): nat {
    (if queued != [] then 2 else 0) + if execution.Some? then 1 else 0
  }
}

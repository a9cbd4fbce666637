/** When the interval producer's timer runs, and when it does so for a block that has executed a transaction. */
module IntervalTimer {
  import opened Backend
  import opened Batches
  import opened Blocks
  import opened Interval
  import opened IntervalRuns
  import opened IntervalSafety
  import opened MinedBlocks
  import opened Outcomes
  import opened StateDiff

  /** The open block has executed a transaction. */
  predicate Opened(s: State)
    requires Sane(s)
  {
    s.executors[s.executor].transactions != []
  }

  /** The timer runs only once the open block has executed a transaction. */
  predicate Earned(s: State)
    requires Sane(s)
  {
    s.timer ==> Opened(s)
  }

  /** The timer runs only once the open block has executed a transaction, or while one is about to be executed. */
  predicate Backed(s: State)
    requires Sane(s)
  {
    s.timer ==> Opened(s) || ExecutionPending(s)
  }

  // ---- One step ---------------------------------------------------------

  /** A batch is started on an empty block with a block time, or a block is forced while the timer runs. */
  predicate Unearns(s: State, e: Event)
    requires Sane(s)
  {
    || (e.StartExecution? && s.blockTime.Some? && !Opened(s))
    || (e.ForceMine? && s.timer)
  }

  /** A block is forced while the timer runs, or nothing of the first batch fits while it runs. */
  predicate Unbacks(s: State, e: Event)
    requires Sane(s)
  {
    s.timer && (e.ForceMine? || (e.RunExecution? && e.outcomes == [] && !Opened(s)))
  }

  lemma EarnedStep(c: Crypto, s: State, e: Event)
    requires Control(s) && Allowed(s, e) && Earned(s)
    ensures Sane(Step(c, s, e)) && (Earned(Step(c, s, e)) <==> !Unearns(s, e))
  {
    hide Mined, Latest, Flatten, Successes, Transactions, TxHashes, ExecutedPrefix;
    StepSane(c, s, e);
  }

  lemma BackedStep(c: Crypto, s: State, e: Event)
    requires Control(s) && Allowed(s, e) && Backed(s)
    ensures Sane(Step(c, s, e)) && (Backed(Step(c, s, e)) <==> !Unbacks(s, e))
  {
    hide Mined, Latest, Flatten, Successes, Transactions, TxHashes, ExecutedPrefix;
    StepSane(c, s, e);
  }

  // ---- Whole runs -------------------------------------------------------

  predicate AlwaysEarned(c: Crypto, s: State, es: seq<Event>)
    requires Sane(s) && Possible(c, s, es)
    decreases |es|
  {
    Earned(s) && (es == [] || (StepSane(c, s, es[0]); AlwaysEarned(c, Step(c, s, es[0]), es[1..])))
  }

  predicate NeverUnearns(c: Crypto, s: State, es: seq<Event>)
    requires Possible(c, s, es)
    decreases |es|
  {
    es == [] || (!Unearns(s, es[0]) && NeverUnearns(c, Step(c, s, es[0]), es[1..]))
  }

  predicate AlwaysBacked(c: Crypto, s: State, es: seq<Event>)
    requires Sane(s) && Possible(c, s, es)
    decreases |es|
  {
    Backed(s) && (es == [] || (StepSane(c, s, es[0]); AlwaysBacked(c, Step(c, s, es[0]), es[1..])))
  }

  predicate NeverUnbacks(c: Crypto, s: State, es: seq<Event>)
    requires Possible(c, s, es)
    decreases |es|
  {
    es == [] || (!Unbacks(s, es[0]) && NeverUnbacks(c, Step(c, s, es[0]), es[1..]))
  }

  lemma {:induction false} EarnedRun(c: Crypto, s: State, es: seq<Event>)
    requires Control(s) && Earned(s) && Possible(c, s, es) && Guarded(c, s, es)
    ensures AlwaysEarned(c, s, es) <==> NeverUnearns(c, s, es)
    decreases |es|
  {
    hide Control, Earned, Unearns, Step, Enabled, Sane, LockOrder, NoOverlap;
    if es != [] {
      RunUnfold(c, s, Log([], []), es, 0);
      ControlStep(c, s, es[0]);
      EarnedStep(c, s, es[0]);
      if !Unearns(s, es[0]) { EarnedRun(c, Step(c, s, es[0]), es[1..]); }
    }
  }

  lemma {:induction false} BackedRun(c: Crypto, s: State, es: seq<Event>)
    requires Control(s) && Backed(s) && Possible(c, s, es) && Guarded(c, s, es)
    ensures AlwaysBacked(c, s, es) <==> NeverUnbacks(c, s, es)
    decreases |es|
  {
    hide Control, Backed, Unbacks, Step, Enabled, Sane, LockOrder, NoOverlap;
    if es != [] {
      RunUnfold(c, s, Log([], []), es, 0);
      ControlStep(c, s, es[0]);
      BackedStep(c, s, es[0]);
      if !Unbacks(s, es[0]) { BackedRun(c, Step(c, s, es[0]), es[1..]); }
    }
  }

  /**
    From a new producer, every state of a guarded run has its timer backed if and only if no block is forced while the
    timer runs and no execution on an empty block ends with nothing executed while it runs.
   */
  lemma TimerBackedIff(c: Crypto, s: State, es: seq<Event>, g: nat, n: nat)
    requires Initial(c, s, g, n) && Possible(c, s, es) && Guarded(c, s, es)
    ensures Sane(s) && (AlwaysBacked(c, s, es) <==> NeverUnbacks(c, s, es))
  {
    hide Chain, Possible, Guarded, AlwaysBacked, NeverUnbacks;
    InitialControl(c, s, g, n);
    BackedRun(c, s, es);
  }

  predicate NeverStarts(es: seq<Event>) {
    forall i :: 0 <= i < |es| ==> !es[i].StartExecution?
  }

  /** Nothing has been started: the block is empty and the timer is off. */
  predicate Unstarted(s: State)
    requires Sane(s)
  {
    s.execution.None? && !Opened(s) && !s.timer
  }

  lemma UnstartedStep(c: Crypto, s: State, e: Event)
    requires Control(s) && Allowed(s, e) && Unstarted(s)
    ensures Sane(Step(c, s, e)) && Step(c, s, e).blockTime == s.blockTime
    ensures !e.StartExecution? ==> Unstarted(Step(c, s, e))
    ensures e.StartExecution? ==> (Earned(Step(c, s, e)) <==> s.blockTime.None?)
  {
    hide Mined, Latest, Flatten, Successes, Transactions, TxHashes, ExecutedPrefix;
    StepSane(c, s, e);
  }

  lemma BlockTimeStep(c: Crypto, s: State, e: Event)
    requires Control(s) && Allowed(s, e)
    ensures Step(c, s, e).blockTime == s.blockTime
  {
    hide Mined, Latest, Flatten, Successes, Transactions, TxHashes, ExecutedPrefix;
  }

  lemma NoTimer(s: State)
    requires Control(s) && s.blockTime.None?
    ensures Earned(s)
  {
  }

  lemma {:induction false} EarnedWithoutBlockTime(c: Crypto, s: State, es: seq<Event>)
    requires Control(s) && s.blockTime.None? && Possible(c, s, es) && Guarded(c, s, es)
    ensures Sane(s) && AlwaysEarned(c, s, es)
    decreases |es|
  {
    hide Control, Earned, Step, Enabled, Sane, LockOrder, NoOverlap;
    ControlSane(s);
    NoTimer(s);
    if es != [] {
      RunUnfold(c, s, Log([], []), es, 0);
      ControlStep(c, s, es[0]);
      BlockTimeStep(c, s, es[0]);
      EarnedWithoutBlockTime(c, Step(c, s, es[0]), es[1..]);
    }
  }

  lemma ControlSane(s: State)
    requires Control(s)
    ensures Sane(s)
  {
  }

  lemma UnstartedEarned(s: State)
    requires Sane(s) && Unstarted(s)
    ensures Earned(s)
  {
  }

  lemma {:induction false} EarnedFromUnstarted(c: Crypto, s: State, es: seq<Event>)
    requires Control(s) && Sane(s) && Unstarted(s) && s.blockTime.Some? && Possible(c, s, es) && Guarded(c, s, es)
    ensures AlwaysEarned(c, s, es) <==> NeverStarts(es)
    decreases |es|
  {
    hide Control, Earned, Unstarted, Step, Enabled, Sane, LockOrder, NoOverlap;
    UnstartedEarned(s);
    if es != [] {
      RunUnfold(c, s, Log([], []), es, 0);
      ControlStep(c, s, es[0]);
      UnstartedStep(c, s, es[0]);
      assert NeverStarts(es) <==> !es[0].StartExecution? && NeverStarts(es[1..]) by {
        assert es == [es[0]] + es[1..];
      }
      if !es[0].StartExecution? { EarnedFromUnstarted(c, Step(c, s, es[0]), es[1..]); }
    }
  }

  /**
    Taken literally, the timer is earned in every state of a guarded run of a new producer if and only if it has no
    block time or never starts an execution: the timer starts with the batch, before any of it is executed.
   */
  lemma TimerEarnedIff(c: Crypto, s: State, es: seq<Event>, g: nat, n: nat)
    requires Initial(c, s, g, n) && Possible(c, s, es) && Guarded(c, s, es)
    ensures Sane(s) && (AlwaysEarned(c, s, es) <==> s.blockTime.None? || NeverStarts(es))
  {
    hide Chain, Possible, Guarded, AlwaysEarned, NeverStarts;
    InitialControl(c, s, g, n);
    if s.blockTime.None? {
      EarnedWithoutBlockTime(c, s, es);
    } else {
      EarnedFromUnstarted(c, s, es);
    }
  }

  // ---- The ways it fails, reached from a new producer -------------------

  /** The timer runs before the first transaction of the block is executed. */
  lemma TimerBeforeFirstOutcome(c: Crypto, s: State, g: nat, n: nat, batch: seq<Transaction>)
    requires Initial(c, s, g, n) && s.blockTime.Some?
    ensures var t := StartedState(s, batch);
            Reaches(c, s, StartedRun(batch), t) && Sane(t) && !Earned(t) && Backed(t)
  {
    hide Chain, Reaches;
    InitialControl(c, s, g, n);
    StartReached(c, s, g, n, batch);
  }

  /** It goes on running when nothing of the batch fitted. */
  lemma TimerAfterEmptyExecution(c: Crypto, s: State, g: nat, n: nat, batch: seq<Transaction>, updates: StateUpdates)
    requires Initial(c, s, g, n) && s.blockTime.Some?
    ensures var e := RunExecution([], updates, true);
            && Enabled(StartedState(s, batch), e) && Sane(StartedState(s, batch))
            && var t := Step(c, StartedState(s, batch), e);
            && Reaches(c, s, StartedRun(batch) + [e], t) && Sane(t) && !Backed(t)
  {
    hide Chain, Reaches;
    InitialControl(c, s, g, n);
    StartReached(c, s, g, n, batch);
    ReachesStep(c, s, StartedRun(batch), StartedState(s, batch), RunExecution([], updates, true));
  }

  function ForcedRun(tx: Transaction, outcome: Execution, timestamp: nat, prices: nat): seq<Event> {
    StartedRun([tx]) + [RunExecution([outcome], EMPTY, false)] + [ForceMine(timestamp, prices)]
  }

  /** It outlives a forced block, although the next one holds no transaction yet. */
  lemma TimerOutlivesForcedBlock(
      c: Crypto, s: State, g: nat, n: nat, tx: Transaction, outcome: Execution, timestamp: nat, prices: nat)
    requires Initial(c, s, g, n) && s.blockTime.Some?
    ensures var es := ForcedRun(tx, outcome, timestamp, prices);
            && Possible(c, s, es) && Guarded(c, s, es)
            && Sane(After(c, s, es)) && !Backed(After(c, s, es))
  {
    hide Chain, Mined, Latest, Possible, Guarded, After, ExecutedPrefix;
    InitialControl(c, s, g, n);
    StartReached(c, s, g, n, [tx]);
    var run, force := RunExecution([outcome], EMPTY, false), ForceMine(timestamp, prices);
    var started := StartedState(s, [tx]);
    ReachesStep(c, s, StartedRun([tx]), started, run);
    var ran := Step(c, started, run);
    ReachesStep(c, s, StartedRun([tx]) + [run], ran, force);
    StepSane(c, ran, force);
  }
}

/** The headers of the blocks that runs of the interval producer mine. */
module IntervalHeaders {
  import opened Backend
  import opened Batches
  import opened BlockCommitments
  import opened Blocks
  import opened Interval
  import opened IntervalRuns
  import opened IntervalSafety
  import opened MinedBlocks
  import opened StateDiff

  function MiningOf(x: Executor): Mining {
    Mining(x.env, x.transactions, x.updates)
  }

  /** What a step takes from an executor. */
  function Takes(s: State, e: Event): seq<Mining>
    requires Sane(s) && Enabled(s, e)
  {
    if e.Mine? then [MiningOf(s.executors[s.mining.value.executor])]
    else if e.ForceMine? then [MiningOf(s.executors[s.executor])]
    else []
  }

  /** What is mined in a run, block by block. */
  function MinedIn(c: Crypto, s: State, es: seq<Event>): seq<Mining>
    requires Possible(c, s, es)
    decreases |es|
  {
    if es == [] then [] else Takes(s, es[0]) + MinedIn(c, Step(c, s, es[0]), es[1..])
  }

  lemma CommittedStep(c: Crypto, s: State, e: Event, g: nat, lo: nat, n: nat, first: Storage, minings: seq<Mining>)
    requires Control(s) && Allowed(s, e) && OnTip(c, s, g, n) && n == lo + |minings|
    requires AllCommitted(c, s.store, g, lo, first, minings)
    ensures AllCommitted(c, Step(c, s, e).store, g, lo, first, minings + Takes(s, e))
    ensures Tip(n, e) == lo + |minings + Takes(s, e)|
  {
    hide Mined, Latest, Flatten, Successes, Transactions, TxHashes, ExecutedPrefix, Chain, AllCommitted;
    if e.Mine? || e.ForceMine? {
      CommittedMined(c, s.store, g, lo, n, first, minings, MiningOf(s.executors[s.executor]));
    } else {
      assert minings + [] == minings;
    }
  }

  lemma {:induction false} CommittedRun(
      c: Crypto, s: State, log: Log, es: seq<Event>, g: nat, lo: nat, n: nat, first: Storage, minings: seq<Mining>)
    requires Invariant(c, s, log, g, lo, n) && Possible(c, s, es) && Guarded(c, s, es) && n == lo + |minings|
    requires AllCommitted(c, s.store, g, lo, first, minings)
    ensures AllCommitted(c, After(c, s, es).store, g, lo, first, minings + MinedIn(c, s, es))
    ensures |MinedIn(c, s, es)| == BlocksMined(es)
    decreases |es|
  {
    hide Possible, Guarded, After, BlocksMined, LogAfter, Step, Logged, Control, OnTip, Conserved, Accounted, AllCommitted,
      Takes, MinedIn;
    if es == [] {
      RunEmpty(c, s, log);
      NothingMinedIn(c, s);
      assert minings + [] == minings;
    } else {
      RunUnfold(c, s, log, es, n);
      var t, more := Step(c, s, es[0]), minings + Takes(s, es[0]);
      InvariantStep(c, s, log, es[0], g, lo, n);
      CommittedStep(c, s, es[0], g, lo, n, first, minings);
      CommittedRun(c, t, Logged(s, log, es[0]), es[1..], g, lo, Tip(n, es[0]), first, more);
      MinedUnfold(c, s, es);
      assert more + MinedIn(c, t, es[1..]) == minings + MinedIn(c, s, es);
    }
  }

  lemma NothingMinedIn(c: Crypto, s: State)
    ensures Possible(c, s, []) && MinedIn(c, s, []) == []
  {
  }

  lemma MinedUnfold(c: Crypto, s: State, es: seq<Event>)
    requires es != [] && Possible(c, s, es)
    ensures Sane(s) && Enabled(s, es[0]) && Possible(c, Step(c, s, es[0]), es[1..])
    ensures MinedIn(c, s, es) == Takes(s, es[0]) + MinedIn(c, Step(c, s, es[0]), es[1..])
  {
    hide Step, Enabled, Sane, Takes;
  }

  /**
    Over every guarded run of a new producer: each mined block has one diff, which is what its executor executed and, from
    block ten on, the hash of the block ten before it in contract 0x1. The storage changes by that diff, and the header
    commits to the storage before, to the body and its receipts, and to that diff and its length.
   */
  lemma HeadersCommit(c: Crypto, s: State, es: seq<Event>, g: nat, n: nat)
    requires Initial(c, s, g, n) && Possible(c, s, es) && Guarded(c, s, es)
    ensures AllCommitted(c, After(c, s, es).store, g, n, s.store.storage, MinedIn(c, s, es))
    ensures |MinedIn(c, s, es)| == BlocksMined(es)
  {
    hide Initial, Possible, Guarded, After, BlocksMined, Invariant, MinedIn, AllCommitted;
    InitialInvariant(c, s, g, n);
    NothingCommitted(c, s.store, g, n);
    CommittedRun(c, s, Log([], []), es, g, n, n, s.store.storage, []);
    assert [] + MinedIn(c, s, es) == MinedIn(c, s, es);
  }

  // ---- Block environments -----------------------------------------------

  /** The clock reading and the gas prices with which an executor is opened. */
  datatype Opening = Opening(timestamp: nat, prices: nat)

  function Opens(e: Event): seq<Opening> {
    if e.FinishMining? || e.ForceMine? then [Opening(e.timestamp, e.prices)] else []
  }

  function OpenedIn(es: seq<Event>): seq<Opening> {
    if es == [] then [] else Opens(es[0]) + OpenedIn(es[1..])
  }

  /** The environment that follows `env` when the next block is opened. */
  function EnvAfter(env: BlockEnv, o: Opening): BlockEnv {
    BlockEnv(env.number + 1, o.timestamp, env.sequencer, o.prices)
  }

  /** From the first on, each block's environment follows that of the block before it. */
  predicate EnvsFollow(minings: seq<Mining>, openings: seq<Opening>) {
    forall i :: 0 < i < |minings| ==> FollowsAt(minings, openings, i)
  }

  predicate FollowsAt(minings: seq<Mining>, openings: seq<Opening>, i: nat) {
    0 < i < |minings| && i <= |openings| && minings[i].env == EnvAfter(minings[i - 1].env, openings[i - 1])
  }

  /** What was mined and opened so far agrees with the state. */
  ghost predicate EnvsAgree(s: State, n: nat, minings: seq<Mining>, openings: seq<Opening>)
    requires Sane(s)
  {
    && EnvsFollow(minings, openings)
    && |minings| == |openings| + (if BlockTaken(s) then 1 else 0)
    && (minings != [] ==>
          n in s.store.blocks && s.store.blocks[n].header.env == minings[|minings| - 1].env)
    && (!BlockTaken(s) && openings != [] ==>
          s.executors[s.executor].env == EnvAfter(minings[|minings| - 1].env, openings[|openings| - 1]))
  }

  lemma FollowsOn(minings: seq<Mining>, openings: seq<Opening>, m: Mining)
    requires EnvsFollow(minings, openings) && |minings| == |openings|
    requires minings != [] ==> m.env == EnvAfter(minings[|minings| - 1].env, openings[|openings| - 1])
    ensures EnvsFollow(minings + [m], openings)
  {
    hide EnvAfter;
    forall i | 0 < i < |minings + [m]| ensures FollowsAt(minings + [m], openings, i) {
      if i < |minings| { assert FollowsAt(minings, openings, i); }
    }
  }

  lemma FollowsStill(minings: seq<Mining>, openings: seq<Opening>, o: Opening)
    requires EnvsFollow(minings, openings)
    ensures EnvsFollow(minings, openings + [o])
  {
    hide EnvAfter;
    forall i | 0 < i < |minings| ensures FollowsAt(minings, openings + [o], i) {
      assert FollowsAt(minings, openings, i);
    }
  }

  lemma MinedEnv(c: Crypto, store: Store, env: BlockEnv, output: Output)
    requires store.blocks != map[]
    ensures var t := Mined(c, store, env, output); env.number in t.blocks && t.blocks[env.number].header.env == env
  {
    hide Successes, Overlay, Registered;
  }

  lemma NextEnvIs(store: Store, g: nat, n: nat, c: Crypto, timestamp: nat, prices: nat)
    requires Chain(c, store, g, n)
    ensures store.blocks != map[] && n in store.blocks
    ensures NextEnv(store, timestamp, prices) == EnvAfter(store.blocks[n].header.env, Opening(timestamp, prices))
  {
    hide PointsBack;
    ChainLatest(store, g, n);
  }

  lemma EnvsMine(c: Crypto, s: State, g: nat, n: nat, minings: seq<Mining>, openings: seq<Opening>)
    requires Control(s) && Allowed(s, Mine) && OnTip(c, s, g, n) && EnvsAgree(s, n, minings, openings)
    ensures Sane(Step(c, s, Mine)) && EnvsAgree(Step(c, s, Mine), n + 1, minings + Takes(s, Mine), openings)
  {
    hide Mined, Latest, Successes, Transactions, TxHashes, Chain, EnvsFollow, EnvAfter;
    var x := s.executors[s.executor];
    StepSane(c, s, Mine);
    MinedEnv(c, s.store, x.env, Output(x.transactions, x.updates));
    FollowsOn(minings, openings, MiningOf(x));
  }

  lemma EnvsFinish(c: Crypto, s: State, e: Event, g: nat, n: nat, minings: seq<Mining>, openings: seq<Opening>)
    requires Control(s) && Allowed(s, e) && e.FinishMining? && OnTip(c, s, g, n) && EnvsAgree(s, n, minings, openings)
    ensures Sane(Step(c, s, e)) && EnvsAgree(Step(c, s, e), n, minings, openings + Opens(e))
  {
    hide Latest, Chain, EnvsFollow, EnvAfter, NextEnv;
    StepSane(c, s, e);
    NextEnvIs(s.store, g, n, c, e.timestamp, e.prices);
    FollowsStill(minings, openings, Opening(e.timestamp, e.prices));
  }

  lemma EnvsForce(c: Crypto, s: State, e: Event, g: nat, n: nat, minings: seq<Mining>, openings: seq<Opening>)
    requires Control(s) && Allowed(s, e) && e.ForceMine? && OnTip(c, s, g, n) && EnvsAgree(s, n, minings, openings)
    ensures Sane(Step(c, s, e)) && EnvsAgree(Step(c, s, e), n + 1, minings + Takes(s, e), openings + Opens(e))
  {
    hide Mined, Latest, Chain, EnvsFollow, EnvAfter, NextEnv;
    var x := s.executors[s.executor];
    StepSane(c, s, e);
    MinedEnv(c, s.store, x.env, Output(x.transactions, x.updates));
    CommittedChain(c, s, s.executor, g, n);
    NextEnvIs(Committed(c, s, s.executor).store, g, n + 1, c, e.timestamp, e.prices);
    FollowsOn(minings, openings, MiningOf(x));
    FollowsStill(minings + [MiningOf(x)], openings, Opening(e.timestamp, e.prices));
  }

  lemma EnvsQuiet(c: Crypto, s: State, e: Event, n: nat, minings: seq<Mining>, openings: seq<Opening>)
    requires Control(s) && Allowed(s, e) && !e.Mine? && !e.FinishMining? && !e.ForceMine? && EnvsAgree(s, n, minings, openings)
    ensures Sane(Step(c, s, e)) && EnvsAgree(Step(c, s, e), n, minings, openings)
  {
    hide Flatten, ExecutedPrefix, EnvsFollow, EnvAfter;
    StepSane(c, s, e);
  }

  lemma EnvsStep(c: Crypto, s: State, e: Event, g: nat, n: nat, minings: seq<Mining>, openings: seq<Opening>)
    requires Control(s) && Allowed(s, e) && OnTip(c, s, g, n) && EnvsAgree(s, n, minings, openings)
    ensures Sane(Step(c, s, e)) && EnvsAgree(Step(c, s, e), Tip(n, e), minings + Takes(s, e), openings + Opens(e))
  {
    hide Step, Control, OnTip, EnvsAgree, LockOrder, NoOverlap;
    assert minings + [] == minings && openings + [] == openings;
    if e.Mine? {
      EnvsMine(c, s, g, n, minings, openings);
    } else if e.FinishMining? {
      EnvsFinish(c, s, e, g, n, minings, openings);
    } else if e.ForceMine? {
      EnvsForce(c, s, e, g, n, minings, openings);
    } else {
      EnvsQuiet(c, s, e, n, minings, openings);
    }
  }

  lemma {:induction false} EnvsRun(
      c: Crypto, s: State, log: Log, es: seq<Event>, g: nat, lo: nat, n: nat, minings: seq<Mining>, openings: seq<Opening>)
    requires Invariant(c, s, log, g, lo, n) && Possible(c, s, es) && Guarded(c, s, es) && Sane(s)
    requires EnvsAgree(s, n, minings, openings)
    ensures EnvsFollow(minings + MinedIn(c, s, es), openings + OpenedIn(es))
    decreases |es|
  {
    hide Possible, Guarded, After, BlocksMined, LogAfter, Step, Logged, Control, OnTip, Conserved, Accounted,
      Takes, MinedIn, Opens, EnvsFollow;
    if es == [] {
      NothingMinedIn(c, s);
      assert minings + [] == minings && openings + [] == openings;
    } else {
      RunUnfold(c, s, log, es, n);
      var t, more, later := Step(c, s, es[0]), minings + Takes(s, es[0]), openings + Opens(es[0]);
      InvariantStep(c, s, log, es[0], g, lo, n);
      hide EnvsAgree;
      EnvsStep(c, s, es[0], g, n, minings, openings);
      EnvsRun(c, t, Logged(s, log, es[0]), es[1..], g, lo, Tip(n, es[0]), more, later);
      MinedUnfold(c, s, es);
      assert more + MinedIn(c, t, es[1..]) == minings + MinedIn(c, s, es);
      assert later + OpenedIn(es[1..]) == openings + OpenedIn(es);
    }
  }

  /**
    Over every guarded run of a new producer: each block it mines after the first has the next number, the sequencer of
    the block before it, and the clock reading and prices with which its executor was opened.
   */
  lemma EnvironmentsFollow(c: Crypto, s: State, es: seq<Event>, g: nat, n: nat)
    requires Initial(c, s, g, n) && Possible(c, s, es) && Guarded(c, s, es)
    ensures EnvsFollow(MinedIn(c, s, es), OpenedIn(es))
  {
    InitialInvariant(c, s, g, n);
    hide Possible, Guarded, MinedIn, OpenedIn, Chain;
    EnvsRun(c, s, Log([], []), es, g, n, n, [], []);
    assert [] + MinedIn(c, s, es) == MinedIn(c, s, es) && [] + OpenedIn(es) == OpenedIn(es);
  }

  // ---- Executed diffs ---------------------------------------------------

  /** The diff of the open block after a step: that of its latest execution, and none for a new block. */
  function OpenDiff(d: StateUpdates, e: Event): StateUpdates {
    if e.RunExecution? then e.updates else if e.FinishMining? || e.ForceMine? then EMPTY else d
  }

  /** The diff of the open block at each mining, read off the events. */
  function DiffsMined(d: StateUpdates, es: seq<Event>): seq<StateUpdates>
    decreases |es|
  {
    if es == [] then []
    else (if es[0].Mine? || es[0].ForceMine? then [d] else []) + DiffsMined(OpenDiff(d, es[0]), es[1..])
  }

  function UpdatesOf(minings: seq<Mining>): (r: seq<StateUpdates>)
    ensures |r| == |minings| && forall i :: 0 <= i < |minings| ==> r[i] == minings[i].updates
  {
    seq(|minings|, i requires 0 <= i < |minings| => minings[i].updates)
  }

  lemma DiffStep(c: Crypto, s: State, e: Event)
    requires Control(s) && Allowed(s, e)
    ensures var t, d := Step(c, s, e), s.executors[s.executor].updates;
            && Sane(t) && t.executors[t.executor].updates == OpenDiff(d, e)
            && UpdatesOf(Takes(s, e)) == if e.Mine? || e.ForceMine? then [d] else []
  {
    hide Mined, Latest, Flatten, Successes, Transactions, TxHashes, ExecutedPrefix;
    StepSane(c, s, e);
  }

  lemma {:induction false} DiffsRun(c: Crypto, s: State, es: seq<Event>)
    requires Control(s) && Possible(c, s, es) && Guarded(c, s, es)
    ensures Sane(s) && UpdatesOf(MinedIn(c, s, es)) == DiffsMined(s.executors[s.executor].updates, es)
    decreases |es|
  {
    hide Step, Enabled, LockOrder, NoOverlap, Takes, OpenDiff, Control;
    ControlSane(s);
    if es != [] {
      var t := Step(c, s, es[0]);
      DiffStep(c, s, es[0]);
      ControlStep(c, s, es[0]);
      DiffsRun(c, t, es[1..]);
      assert UpdatesOf(MinedIn(c, s, es)) == UpdatesOf(Takes(s, es[0])) + UpdatesOf(MinedIn(c, t, es[1..]));
    }
  }

  lemma ControlSane(s: State)
    requires Control(s)
    ensures Sane(s)
  {
  }

  /** Over every guarded run of a new producer: what a block's diff is made from is the diff of its latest execution. */
  lemma MinedDiffsAre(c: Crypto, s: State, es: seq<Event>, g: nat, n: nat)
    requires Initial(c, s, g, n) && Possible(c, s, es) && Guarded(c, s, es)
    ensures UpdatesOf(MinedIn(c, s, es)) == DiffsMined(EMPTY, es)
  {
    hide Possible, Guarded, MinedIn, DiffsMined, Chain;
    InitialInvariant(c, s, g, n);
    DiffsRun(c, s, es);
  }

  // ---- Returned outcomes ------------------------------------------------

  /** The outcome names a block of the chain and the hashes of its transactions, in order. */
  ghost predicate OutcomeStored(store: Store, n: nat, o: Outcome) {
    o.number <= n && o.number in store.blocks && o.txs == TxHashes(store.blocks[o.number].body)
  }

  /** A block that has been taken is the tip, and the outcome waiting to be returned is about it. */
  ghost predicate OutcomeWaits(s: State, n: nat) {
    BlockTaken(s) ==> s.mining.value.stage.outcome.number == n && OutcomeStored(s.store, n, s.mining.value.stage.outcome)
  }

  lemma MinedBody(c: Crypto, store: Store, env: BlockEnv, output: Output)
    requires store.blocks != map[]
    ensures var t := Mined(c, store, env, output);
            env.number in t.blocks && t.blocks[env.number].body == Transactions(Successes(output.transactions))
  {
    hide Successes, Transactions, Overlay, Registered;
  }

  lemma OutcomeStep(c: Crypto, s: State, e: Event, g: nat, n: nat)
    requires Control(s) && Allowed(s, e) && OnTip(c, s, g, n) && OutcomeWaits(s, n)
    ensures OutcomeWaits(Step(c, s, e), Tip(n, e))
    ensures forall o: Outcome :: OutcomeStored(s.store, n, o) ==> OutcomeStored(Step(c, s, e).store, Tip(n, e), o)
  {
    hide Mined, Latest, Flatten, Successes, Transactions, TxHashes, ExecutedPrefix, Chain;
    var x := s.executors[s.executor];
    if e.Mine? || e.ForceMine? {
      MinedBody(c, s.store, x.env, Output(x.transactions, x.updates));
      forall o: Outcome | OutcomeStored(s.store, n, o) ensures OutcomeStored(Step(c, s, e).store, n + 1, o) {
        MinedKeeps(c, s.store, x.env, Output(x.transactions, x.updates), o.number);
      }
    }
  }

  ghost predicate OutcomesStored(store: Store, n: nat, outcomes: seq<Outcome>) {
    forall i :: 0 <= i < |outcomes| ==> OutcomeStored(store, n, outcomes[i])
  }

  lemma {:induction false} OutcomesRun(
      c: Crypto, s: State, log: Log, es: seq<Event>, g: nat, lo: nat, n: nat, outcomes: seq<Outcome>)
    requires Invariant(c, s, log, g, lo, n) && Possible(c, s, es) && Guarded(c, s, es)
    requires OutcomeWaits(s, n) && OutcomesStored(s.store, n, outcomes)
    ensures OutcomesStored(After(c, s, es).store, n + BlocksMined(es), outcomes + FinishedOutcomes(c, s, es))
    decreases |es|
  {
    hide Possible, Guarded, After, BlocksMined, LogAfter, Step, Logged, Control, OnTip, Conserved, Accounted,
      OutcomeStored, FinishedOutcomes;
    if es == [] {
      RunEmpty(c, s, log);
      NothingFinished(c, s);
      assert outcomes + [] == outcomes;
    } else {
      RunUnfold(c, s, log, es, n);
      var t, more := Step(c, s, es[0]), outcomes + Finishes(s, es[0]);
      InvariantStep(c, s, log, es[0], g, lo, n);
      OutcomeStep(c, s, es[0], g, n);
      FinishesWaiting(s, es[0]);
      assert OutcomesStored(t.store, Tip(n, es[0]), more);
      OutcomesRun(c, t, Logged(s, log, es[0]), es[1..], g, lo, Tip(n, es[0]), more);
      FinishedUnfold(c, s, es);
      assert more + FinishedOutcomes(c, t, es[1..]) == outcomes + FinishedOutcomes(c, s, es);
    }
  }

  lemma FinishesWaiting(s: State, e: Event)
    requires Sane(s) && Enabled(s, e)
    ensures Finishes(s, e) == if e.FinishMining? then [s.mining.value.stage.outcome] else []
    ensures e.FinishMining? ==> BlockTaken(s)
  {
  }

  lemma NothingFinished(c: Crypto, s: State)
    ensures Possible(c, s, []) && FinishedOutcomes(c, s, []) == []
  {
  }

  lemma FinishedUnfold(c: Crypto, s: State, es: seq<Event>)
    requires es != [] && Possible(c, s, es)
    ensures Sane(s) && Enabled(s, es[0]) && Possible(c, Step(c, s, es[0]), es[1..])
    ensures FinishedOutcomes(c, s, es) == Finishes(s, es[0]) + FinishedOutcomes(c, Step(c, s, es[0]), es[1..])
  {
    hide Step, Enabled, Sane, Finishes;
  }

  /** Over every guarded run of a new producer: each outcome that is returned names a mined block and its transactions. */
  lemma OutcomesAreBlocks(c: Crypto, s: State, es: seq<Event>, g: nat, n: nat)
    requires Initial(c, s, g, n) && Possible(c, s, es) && Guarded(c, s, es)
    ensures OutcomesStored(After(c, s, es).store, n + BlocksMined(es), FinishedOutcomes(c, s, es))
  {
    InitialInvariant(c, s, g, n);
    hide Possible, Guarded, After, BlocksMined, FinishedOutcomes, Chain, OutcomeStored;
    OutcomesRun(c, s, Log([], []), es, g, n, n, []);
    assert [] + FinishedOutcomes(c, s, es) == FinishedOutcomes(c, s, es);
  }
}

/** What the interval producer loses without its two guards, over every run. */
module IntervalLosses {
  import opened Backend
  import opened Batches
  import opened Blocks
  import opened Interval
  import opened IntervalRuns
  import opened IntervalSafety
  import opened MinedBlocks
  import opened Outcomes
  import opened Sequences

  // ---- A store whose blocks may be replaced -----------------------------

  /** The blocks `g` to `n` are there and lined up; they need not point back. */
  ghost predicate Stocked(store: Store, g: nat, n: nat) {
    Consecutive(store, g, n) && WellFormed(store)
  }

  lemma StockedHolds(store: Store, g: nat, lo: nat, n: nat)
    requires Stocked(store, g, n) && g <= lo <= n
    ensures Holds(store, lo, n)
  {
    hide Aligned;
  }

  /** Mining puts a block with the successes of its output at its number, and leaves the others alone. */
  lemma MinedBlock(c: Crypto, store: Store, env: BlockEnv, output: Output)
    requires store.blocks != map[]
    ensures var t, b := Mined(c, store, env, output), Mined(c, store, env, output).blocks[env.number];
            && t.blocks == store.blocks[env.number := b]
            && b.header.env == env && Aligned(b) && BlockEntries(b) == Successes(output.transactions)
  {
    hide BlockEntries, Sealed, Aligned, Overlay, Registered, Successes;
    SuccessesSucceeded(output.transactions);
    var updates := Registered(store, output.updates, env.number);
    SealedAligned(c, store, env, Successes(output.transactions), updates);
    SealedPointsBack(c, store, env, Successes(output.transactions), updates);
  }

  lemma MinedStocked(c: Crypto, store: Store, g: nat, n: nat, env: BlockEnv, output: Output)
    requires Stocked(store, g, n) && g <= env.number <= n + 1
    ensures Stocked(Mined(c, store, env, output), g, if env.number <= n then n else n + 1)
  {
    hide BlockEntries, Aligned, Mined, Successes;
    MinedBlock(c, store, env, output);
  }

  /** The blocks after `k`, up to `n`, are empty. */
  ghost predicate EmptyAfter(store: Store, k: nat, n: nat) {
    forall j: nat :: k < j <= n ==> j in store.blocks && store.blocks[j].body == []
  }

  lemma {:induction false} EntriesUpTo(store: Store, lo: nat, k: nat, n: nat)
    requires Holds(store, lo, n) && lo <= k <= n && EmptyAfter(store, k, n)
    ensures Holds(store, lo, k) && MinedEntries(store, lo, n) == MinedEntries(store, lo, k)
    decreases n
  {
    hide Aligned;
    if n > k {
      EntriesUpTo(store, lo, k, n - 1);
      assert Aligned(store.blocks[n]);
      NothingIn(store.blocks[n]);
    }
  }

  lemma NothingIn(b: Block)
    requires Aligned(b) && b.body == []
    ensures BlockEntries(b) == []
  {
  }

  lemma BodyIs(b: Block)
    requires Aligned(b)
    ensures |BlockEntries(b)| == |b.body|
  {
  }

  /** Mining at the next number appends the successes. */
  lemma Appended(c: Crypto, store: Store, g: nat, lo: nat, n: nat, env: BlockEnv, output: Output)
    requires Stocked(store, g, n) && g <= lo <= n && env.number == n + 1
    ensures var t := Mined(c, store, env, output);
            && Holds(store, lo, n) && Holds(t, lo, n + 1)
            && MinedEntries(t, lo, n + 1) == MinedEntries(store, lo, n) + Successes(output.transactions)
  {
    hide Mined, Successes, Aligned, BlockEntries;
    var t := Mined(c, store, env, output);
    MinedBlock(c, store, env, output);
    MinedStocked(c, store, g, n, env, output);
    StockedHolds(store, g, lo, n);
    StockedHolds(t, g, lo, n + 1);
    MinedEntriesFrame(store, t, lo, n);
  }

  lemma EntriesBefore(store: Store, lo: nat, k: nat, n: nat)
    requires Holds(store, lo, n) && lo < k <= n && EmptyAfter(store, k, n)
    ensures Holds(store, lo, k - 1) && k in store.blocks && Aligned(store.blocks[k])
    ensures MinedEntries(store, lo, n) == MinedEntries(store, lo, k - 1) + BlockEntries(store.blocks[k])
  {
    hide Aligned, BlockEntries;
    EntriesUpTo(store, lo, k, n);
  }

  /** Replacing a block after which all blocks are empty replaces its entries. */
  lemma Replaced(store: Store, t: Store, b: Block, g: nat, lo: nat, k: nat, n: nat)
    requires Stocked(store, g, n) && Stocked(t, g, n) && g <= lo < k <= n && EmptyAfter(store, k, n)
    requires t.blocks == store.blocks[k := b] && Aligned(b)
    ensures Holds(store, lo, n) && Holds(t, lo, n) && EmptyAfter(t, k, n)
    ensures Holds(store, lo, k - 1) && k in store.blocks && Aligned(store.blocks[k])
    ensures MinedEntries(store, lo, n) == MinedEntries(store, lo, k - 1) + BlockEntries(store.blocks[k])
    ensures MinedEntries(t, lo, n) == MinedEntries(store, lo, k - 1) + BlockEntries(b)
  {
    hide BlockEntries, Aligned, MinedEntries, WellFormed, Holds;
    StockedHolds(store, g, lo, n);
    StockedHolds(t, g, lo, n);
    EntriesBefore(store, lo, k, n);
    EntriesBefore(t, lo, k, n);
    MinedEntriesFrame(store, t, lo, k - 1);
  }

  // ---- What is not lost -------------------------------------------------

  /** The mining task works on an executor that a forced block has already replaced. */
  predicate Overlaps(s: State) {
    s.mining.Some? && s.mining.value.executor != s.executor
  }

  /** The current executor's block has been taken. */
  predicate Taken(s: State) {
    BlockTaken(s) && !Overlaps(s)
  }

  /** What the current executor runs will be in a block. */
  function Pending(s: State): seq<Executed>
    requires Sane(s)
  {
    if Taken(s) then [] else s.executors[s.executor].transactions
  }

  /** What the mining task will still take from an executor that has been replaced. */
  function Limbo(s: State): seq<Executed>
    requires Sane(s)
  {
    if Overlaps(s) && !BlockTaken(s) then s.executors[s.mining.value.executor].transactions else []
  }

  /** Successes that are in a block or on the way into one. */
  ghost function InBooks(s: State, lo: nat, n: nat): seq<Executed>
    requires Sane(s) && Holds(s.store, lo, n)
  {
    MinedEntries(s.store, lo, n) + Successes(Limbo(s)) + Successes(Pending(s))
  }

  /** What an execution does on this executor gets into a block. */
  predicate Alive(s: State, id: nat) {
    (id == s.executor && !Taken(s)) || (s.mining.Some? && !BlockTaken(s) && s.mining.value.executor == id)
  }

  /** How many successes a step loses: those of an overtaken execution, or of a block that is overwritten. */
  ghost function Loss(s: State, e: Event): nat
    requires Sane(s) && Enabled(s, e)
  {
    if e.RunExecution? && !Alive(s, s.execution.value.executor) then
      |Successes(ExecutedPrefix(s.execution.value.transactions, e.outcomes))|
    else if e.Mine? && Overlaps(s) then
      var k := s.executors[s.mining.value.executor].env.number;
      if k in s.store.blocks then |s.store.blocks[k].body| else 0
    else 0
  }

  /** The number of the tip after a step. */
  function TipAfter(s: State, n: nat, e: Event): nat {
    if e.ForceMine? || (e.Mine? && !Overlaps(s)) then n + 1 else n
  }

  // ---- What every run keeps ---------------------------------------------

  ghost predicate Loose(s: State, g: nat, lo: nat, n: nat) {
    && Sane(s) && Stocked(s.store, g, n) && g <= lo <= n
    && (s.permitFree <==> s.mining.None? || s.mining.value.stage.Waiting?)
    && s.executors[s.executor].env.number == (if Taken(s) then n else n + 1)
    && (Overlaps(s) ==>
          && lo < s.executors[s.mining.value.executor].env.number <= n
          && EmptyAfter(s.store, s.executors[s.mining.value.executor].env.number, n)
          && s.executors[s.executor].transactions == []
          && (ExecutionPending(s) ==> s.execution.value.executor != s.executor))
  }

  /** What a step executes. */
  function Executes(s: State, e: Event): seq<Executed>
    requires Enabled(s, e)
  {
    if e.RunExecution? then ExecutedPrefix(s.execution.value.transactions, e.outcomes) else []
  }

  /** The successes of a step get into the books, except for what the step loses; without a loss, in order. */
  ghost predicate Booked(s: State, e: Event, t: State, lo: nat, n: nat)
    requires Sane(s) && Enabled(s, e) && Holds(s.store, lo, n)
    requires Sane(t) && Holds(t.store, lo, TipAfter(s, n, e))
  {
    var before, after, added := InBooks(s, lo, n), InBooks(t, lo, TipAfter(s, n, e)), Successes(Executes(s, e));
    && |after| + Loss(s, e) == |before| + |added|
    && (Loss(s, e) == 0 ==> after == before + added)
  }

  ghost predicate Keeps(c: Crypto, s: State, e: Event, g: nat, lo: nat, n: nat) {
    && Sane(s) && Enabled(s, e) && Holds(s.store, lo, n)
    && var t := Step(c, s, e);
    && Loose(t, g, lo, TipAfter(s, n, e)) && Holds(t.store, lo, TipAfter(s, n, e))
    && Booked(s, e, t, lo, n)
  }

  lemma BookedQuietly(s: State, e: Event, t: State, lo: nat, n: nat)
    requires Sane(s) && Enabled(s, e) && Holds(s.store, lo, n) && Sane(t) && Holds(t.store, lo, TipAfter(s, n, e))
    requires InBooks(t, lo, TipAfter(s, n, e)) == InBooks(s, lo, n) && !e.RunExecution? && Loss(s, e) == 0
    ensures Booked(s, e, t, lo, n)
  {
    hide InBooks, Loss, Holds;
    NothingSucceeded();
    assert InBooks(s, lo, n) + [] == InBooks(s, lo, n);
  }

  /** A step of the producer's own that touches neither executors nor blocks. */
  predicate Quiet(e: Event) {
    e.Queue? || e.CheckTimer? || e.StartExecution? || e.FinishExecution? || e.LockPermit? || e.Validate?
  }

  /** Mining goes on as it was, is started on the current executor, or gets the permit. */
  predicate MiningGoesOn(s: State, t: State) {
    || (t.mining == s.mining && t.permitFree == s.permitFree)
    || (s.mining.None? && t.mining == Some(MiningTask(s.executor, Waiting)) && t.permitFree == s.permitFree)
    || (s.mining.Some? && s.mining.value.stage.Waiting?
        && t.mining == Some(s.mining.value.(stage := Holding)) && !t.permitFree)
  }

  predicate QuietChange(s: State, t: State) {
    && t.store == s.store && t.executors == s.executors && t.executor == s.executor && t.view == s.view
    && MiningGoesOn(s, t)
    && (t.execution == s.execution || t.execution.None? ||
        (s.mining.None? && t.mining.None? && t.execution.value.executor == s.executor))
  }

  lemma QuietIs(c: Crypto, s: State, e: Event)
    requires Sane(s) && Enabled(s, e) && Quiet(e)
    ensures QuietChange(s, Step(c, s, e))
  {
    hide Flatten, Swapped, Committed, ExecutionRun, MineTaskRun, Sane;
    match e
    case Queue(_) =>
    case CheckTimer(tick) =>
    case StartExecution =>
    case FinishExecution =>
    case LockPermit =>
    case Validate =>
  }

  lemma QuietLoose(s: State, t: State, g: nat, lo: nat, n: nat)
    requires Loose(s, g, lo, n) && QuietChange(s, t)
    ensures Loose(t, g, lo, n)
  {
    hide Stocked, EmptyAfter;
  }

  lemma QuietSame(s: State, t: State)
    requires Sane(s) && QuietChange(s, t)
    ensures Sane(t) && Pending(t) == Pending(s) && Limbo(t) == Limbo(s)
  {
  }

  lemma QuietLosesNothing(s: State, e: Event)
    requires Sane(s) && Enabled(s, e) && Quiet(e)
    ensures Loss(s, e) == 0
  {
  }

  lemma QuietStep(c: Crypto, s: State, e: Event, g: nat, lo: nat, n: nat)
    requires Loose(s, g, lo, n) && Enabled(s, e) && Quiet(e)
    ensures Keeps(c, s, e, g, lo, n)
  {
    hide Step, Loose, Holds, MinedEntries, Successes, Booked, Sane, Enabled, Pending, Limbo, Loss, MiningGoesOn;
    LooseHolds(s, g, lo, n);
    QuietIs(c, s, e);
    QuietLoose(s, Step(c, s, e), g, lo, n);
    QuietSame(s, Step(c, s, e));
    QuietLosesNothing(s, e);
    BookedQuietly(s, e, Step(c, s, e), lo, n);
  }

  lemma LooseHolds(s: State, g: nat, lo: nat, n: nat)
    requires Loose(s, g, lo, n)
    ensures Sane(s) && Holds(s.store, lo, n)
  {
    StockedHolds(s.store, g, lo, n);
  }

  lemma FinishStep(c: Crypto, s: State, e: Event, g: nat, lo: nat, n: nat)
    requires Loose(s, g, lo, n) && Enabled(s, e) && e.FinishMining?
    ensures Keeps(c, s, e, g, lo, n)
  {
    hide EmptyAfter, Holds, MinedEntries, Successes, Booked, WellFormed, Latest;
    StepSane(c, s, e);
    StockedHolds(s.store, g, lo, n);
    ChainLatest(s.store, g, n);
    TipNumber(s.store, g, n);
    NothingSucceeded();
    BookedQuietly(s, e, Step(c, s, e), lo, n);
  }

  lemma TipNumber(store: Store, g: nat, n: nat)
    requires Stocked(store, g, n)
    ensures n in store.blocks && store.blocks[n].header.env.number == n
  {
  }

  lemma ExecutionStep(c: Crypto, s: State, e: Event, g: nat, lo: nat, n: nat)
    requires Loose(s, g, lo, n) && Enabled(s, e) && e.RunExecution?
    ensures Keeps(c, s, e, g, lo, n)
  {
    hide Stocked, EmptyAfter, Holds, MinedEntries, Successes, ExecutedPrefix, Booked;
    StepSane(c, s, e);
    StockedHolds(s.store, g, lo, n);
    ExecutionBooked(c, s, e, lo, n);
  }

  lemma ExecutionBooked(c: Crypto, s: State, e: Event, lo: nat, n: nat)
    requires Sane(s) && Enabled(s, e) && e.RunExecution? && Holds(s.store, lo, n) && Sane(Step(c, s, e))
    requires Overlaps(s) ==>
               && s.executors[s.executor].transactions == []
               && s.execution.value.executor != s.executor
    ensures Step(c, s, e).store == s.store && Booked(s, e, Step(c, s, e), lo, n)
  {
    hide Holds, MinedEntries, Successes, ExecutedPrefix;
    var t, added, id := Step(c, s, e), Executes(s, e), s.execution.value.executor;
    var mined := MinedEntries(s.store, lo, n);
    NothingSucceeded();
    SuccessesConcat(s.executors[id].transactions, added);
    if Alive(s, id) {
      if id == s.executor {
        assert Pending(t) == Pending(s) + added && Limbo(t) == Limbo(s);
        Associates(mined + Successes(Limbo(s)), Successes(Pending(s)), Successes(added));
      } else {
        assert Limbo(t) == Limbo(s) + added && Pending(t) == Pending(s) == [];
        Associates(mined, Successes(Limbo(s)), Successes(added));
        assert InBooks(t, lo, n) == mined + (Successes(Limbo(s)) + Successes(added)) + [];
        assert InBooks(s, lo, n) == mined + Successes(Limbo(s)) + [];
      }
    } else {
      assert Pending(t) == Pending(s) && Limbo(t) == Limbo(s);
      if |Successes(added)| == 0 { assert InBooks(s, lo, n) + Successes(added) == InBooks(s, lo, n); }
    }
  }

  /** The block of the current executor is taken at the next number. */
  lemma MineCurrent(c: Crypto, s: State, e: Event, g: nat, lo: nat, n: nat)
    requires Loose(s, g, lo, n) && Enabled(s, e) && e.Mine? && !Overlaps(s)
    ensures Keeps(c, s, e, g, lo, n)
  {
    hide Mined, EmptyAfter, Holds, MinedEntries, Successes, Stocked, Booked, Transactions, TxHashes;
    StepSane(c, s, e);
    LooseHolds(s, g, lo, n);
    var x := s.executors[s.executor];
    Appended(c, s.store, g, lo, n, x.env, Output(x.transactions, x.updates));
    MinedStocked(c, s.store, g, n, x.env, Output(x.transactions, x.updates));
    NothingSucceeded();
    var t, mined := Step(c, s, e), MinedEntries(s.store, lo, n);
    assert InBooks(s, lo, n) == mined + [] + Successes(x.transactions);
    assert InBooks(t, lo, n + 1) == mined + Successes(x.transactions) + [] + [];
    BookedQuietly(s, e, t, lo, n);
  }

  /** A block that was forced before is overwritten. */
  lemma MineAgain(c: Crypto, s: State, e: Event, g: nat, lo: nat, n: nat)
    requires Loose(s, g, lo, n) && Enabled(s, e) && e.Mine? && Overlaps(s)
    ensures Keeps(c, s, e, g, lo, n)
  {
    hide Mined, EmptyAfter, Holds, MinedEntries, Successes, Stocked, Transactions, TxHashes, BlockEntries;
    StepSane(c, s, e);
    LooseHolds(s, g, lo, n);
    var x := s.executors[s.mining.value.executor];
    var k := x.env.number;
    MinedStocked(c, s.store, g, n, x.env, Output(x.transactions, x.updates));
    MinedBlock(c, s.store, x.env, Output(x.transactions, x.updates));
    var after := Mined(c, s.store, x.env, Output(x.transactions, x.updates));
    Replaced(s.store, after, after.blocks[k], g, lo, k, n);
    BodyIs(s.store.blocks[k]);
    NothingSucceeded();
    var t, front := Step(c, s, e), MinedEntries(s.store, lo, k - 1);
    assert t.executors[t.executor].transactions == [];
    assert InBooks(s, lo, n) == front + BlockEntries(s.store.blocks[k]) + Successes(x.transactions) + [];
    assert InBooks(t, lo, n) == front + Successes(x.transactions) + [] + [];
    if Loss(s, e) == 0 { assert BlockEntries(s.store.blocks[k]) == []; }
  }

  /** What a forced block changes: the current executor is emptied, and a new one takes its place. */
  predicate AfterForce(s: State, t: State, n: nat)
    requires Sane(s)
  {
    && Sane(t) && t.mining == s.mining && t.execution == s.execution && t.permitFree
    && t.executor == |s.executors| && |t.executors| == |s.executors| + 1
    && t.executors[t.executor].transactions == [] && t.executors[t.executor].env.number == n + 2
    && t.executors[s.executor] == s.executors[s.executor].(transactions := [])
    && (s.mining.Some? && s.mining.value.executor != s.executor ==>
          t.executors[s.mining.value.executor] == s.executors[s.mining.value.executor])
  }

  lemma ForceIs(c: Crypto, s: State, e: Event, g: nat, lo: nat, n: nat)
    requires Loose(s, g, lo, n) && Enabled(s, e) && e.ForceMine?
    ensures var x := s.executors[s.executor];
            && Step(c, s, e).store == Mined(c, s.store, x.env, Output(x.transactions, x.updates))
            && AfterForce(s, Step(c, s, e), n)
  {
    hide Mined, Latest, Stocked, EmptyAfter;
    StepSane(c, s, e);
    var x := s.executors[s.executor];
    MinedStocked(c, s.store, g, n, x.env, Output(x.transactions, x.updates));
    var store := Mined(c, s.store, x.env, Output(x.transactions, x.updates));
    StockedTip(store, g, n + 1);
  }

  lemma StockedTip(store: Store, g: nat, n: nat)
    requires Stocked(store, g, n)
    ensures store.blocks != map[] && Latest(store) == n && n in store.blocks && store.blocks[n].header.env.number == n
  {
    ChainLatest(store, g, n);
  }

  lemma EmptyStill(c: Crypto, store: Store, env: BlockEnv, output: Output, k: nat, n: nat)
    requires store.blocks != map[] && EmptyAfter(store, k, n) && env.number == n + 1 && Successes(output.transactions) == []
    ensures EmptyAfter(Mined(c, store, env, output), k, n + 1)
  {
    hide Mined, Successes, BlockEntries;
    MinedBlock(c, store, env, output);
    var t := Mined(c, store, env, output);
    BodyIs(t.blocks[n + 1]);
    forall j: nat | k < j <= n + 1 ensures j in t.blocks && t.blocks[j].body == [] {
      if j <= n { assert j in store.blocks; }
    }
  }

  lemma ForceLoose(s: State, t: State, g: nat, lo: nat, n: nat)
    requires Loose(s, g, lo, n) && s.permitFree && AfterForce(s, t, n) && Stocked(t.store, g, n + 1)
    requires Overlaps(s) ==> EmptyAfter(t.store, s.executors[s.mining.value.executor].env.number, n + 1)
    ensures Loose(t, g, lo, n + 1)
  {
    hide Stocked, EmptyAfter;
    if s.mining.Some? && !Overlaps(s) { NothingAfter(t.store, n + 1); }
  }

  lemma NothingAfter(store: Store, n: nat)
    ensures EmptyAfter(store, n, n)
  {
  }

  lemma ForceBooks(s: State, t: State, g: nat, lo: nat, n: nat)
    requires Loose(s, g, lo, n) && s.permitFree && AfterForce(s, t, n)
    ensures Pending(s) == s.executors[s.executor].transactions && Pending(t) == [] && Limbo(t) == Limbo(s)
    ensures Overlaps(s) ==> Pending(s) == []
    ensures !Overlaps(s) ==> Limbo(s) == []
  {
    hide Stocked, EmptyAfter;
  }

  lemma ForceMoves(mined: seq<Executed>, limbo: seq<Executed>, pending: seq<Executed>)
    requires limbo == [] || pending == []
    ensures mined + pending + limbo + [] == mined + limbo + pending
  {
  }

  lemma ForceStep(c: Crypto, s: State, e: Event, g: nat, lo: nat, n: nat)
    requires Loose(s, g, lo, n) && Enabled(s, e) && e.ForceMine?
    ensures Keeps(c, s, e, g, lo, n)
  {
    ForceIs(c, s, e, g, lo, n);
    ForceAllowed(s, e, g, lo, n);
    hide *;
    LooseHolds(s, g, lo, n);
    var x, t := s.executors[s.executor], Step(c, s, e);
    var output := Output(x.transactions, x.updates);
    Appended(c, s.store, g, lo, n, x.env, output);
    MinedStocked(c, s.store, g, n, x.env, output);
    NothingSucceeded();
    ForceBooks(s, t, g, lo, n);
    if Overlaps(s) { EmptyStill(c, s.store, x.env, output, s.executors[s.mining.value.executor].env.number, n); }
    ForceLoose(s, t, g, lo, n);
    ForceMoves(MinedEntries(s.store, lo, n), Successes(Limbo(s)), Successes(Pending(s)));
    ForceKeeps(c, s, e, g, lo, n);
  }

  lemma ForceAllowed(s: State, e: Event, g: nat, lo: nat, n: nat)
    requires Loose(s, g, lo, n) && Enabled(s, e) && e.ForceMine?
    ensures Sane(s) && s.permitFree && Stocked(s.store, g, n) && g <= lo <= n && s.store.blocks != map[]
    ensures s.executor < |s.executors| && s.executors[s.executor].env.number == n + 1
    ensures Overlaps(s) ==>
              && s.mining.Some? && s.mining.value.executor < |s.executors|
              && EmptyAfter(s.store, s.executors[s.mining.value.executor].env.number, n)
  {
    hide Stocked, EmptyAfter;
  }

  lemma ForceKeeps(c: Crypto, s: State, e: Event, g: nat, lo: nat, n: nat)
    requires Sane(s) && Enabled(s, e) && e.ForceMine? && Holds(s.store, lo, n)
    requires Loose(Step(c, s, e), g, lo, n + 1) && Sane(Step(c, s, e)) && Holds(Step(c, s, e).store, lo, n + 1)
    requires var t := Step(c, s, e);
             MinedEntries(t.store, lo, n + 1) + Successes(Limbo(t)) + Successes(Pending(t)) ==
             MinedEntries(s.store, lo, n) + Successes(Limbo(s)) + Successes(Pending(s))
    ensures Keeps(c, s, e, g, lo, n)
  {
    hide Step, Sane, Enabled, Loose, Holds, MinedEntries, Successes, Limbo, Pending, Booked;
    BookedQuietly(s, e, Step(c, s, e), lo, n);
  }

  lemma AnyStep(c: Crypto, s: State, e: Event, g: nat, lo: nat, n: nat)
    requires Loose(s, g, lo, n) && Enabled(s, e)
    ensures Keeps(c, s, e, g, lo, n)
  {
    hide Loose, Enabled, Keeps;
    if e.RunExecution? {
      ExecutionStep(c, s, e, g, lo, n);
    } else if e.FinishMining? {
      FinishStep(c, s, e, g, lo, n);
    } else if e.ForceMine? {
      ForceStep(c, s, e, g, lo, n);
    } else if e.Mine? {
      if Overlaps(s) { MineAgain(c, s, e, g, lo, n); } else { MineCurrent(c, s, e, g, lo, n); }
    } else {
      QuietStep(c, s, e, g, lo, n);
    }
  }

  // ---- Whole runs, guarded or not ---------------------------------------

  /** How many successes the run loses. */
  ghost function LostIn(c: Crypto, s: State, es: seq<Event>): nat
    requires Possible(c, s, es)
    decreases |es|
  {
    if es == [] then 0 else Loss(s, es[0]) + LostIn(c, Step(c, s, es[0]), es[1..])
  }

  /** The number of the tip after the run. */
  function TipOf(c: Crypto, s: State, es: seq<Event>, n: nat): nat
    requires Possible(c, s, es)
    decreases |es|
  {
    if es == [] then n else TipOf(c, Step(c, s, es[0]), es[1..], TipAfter(s, n, es[0]))
  }

  /** The books hold all successes but the lost ones; if none is lost, in order. */
  ghost predicate Reckoned(s: State, log: Log, lo: nat, n: nat, lost: nat)
    requires Sane(s) && Holds(s.store, lo, n)
  {
    && |InBooks(s, lo, n)| + lost == |Successes(log.executed)|
    && (lost == 0 ==> InBooks(s, lo, n) == Successes(log.executed))
  }

  lemma ReckonedStep(c: Crypto, s: State, log: Log, e: Event, g: nat, lo: nat, n: nat, lost: nat)
    requires Sane(s) && Holds(s.store, lo, n) && Reckoned(s, log, lo, n, lost) && Keeps(c, s, e, g, lo, n)
    ensures Reckoned(Step(c, s, e), Logged(s, log, e), lo, TipAfter(s, n, e), lost + Loss(s, e))
  {
    hide Step, Sane, Holds, InBooks, Loss, Loose, Successes, ExecutedPrefix;
    SuccessesConcat(log.executed, Executes(s, e));
    NothingSucceeded();
    assert Logged(s, log, e).executed == log.executed + Executes(s, e);
  }

  lemma {:induction false} ReckonedRun(
      c: Crypto, s: State, log: Log, es: seq<Event>, g: nat, lo: nat, n: nat, lost: nat)
    requires Loose(s, g, lo, n) && Holds(s.store, lo, n) && Possible(c, s, es)
    requires Sane(s) && Reckoned(s, log, lo, n, lost)
    ensures var t, m := After(c, s, es), TipOf(c, s, es, n);
            && Loose(t, g, lo, m) && Sane(t) && Holds(t.store, lo, m)
            && Reckoned(t, LogAfter(c, s, log, es), lo, m, lost + LostIn(c, s, es))
    decreases |es|
  {
    hide Step, Sane, Holds, Enabled, Loss, Loose, Reckoned, Booked, Logged, TipAfter;
    if es != [] {
      AnyStep(c, s, es[0], g, lo, n);
      ReckonedStep(c, s, log, es[0], g, lo, n, lost);
      var t, m := Step(c, s, es[0]), TipAfter(s, n, es[0]);
      LooseSane(t, g, lo, m);
      ReckonedRun(c, t, Logged(s, log, es[0]), es[1..], g, lo, m, lost + Loss(s, es[0]));
    }
  }

  lemma LooseSane(s: State, g: nat, lo: nat, n: nat)
    requires Loose(s, g, lo, n)
    ensures Sane(s)
  {
  }

  lemma InitialReckoned(c: Crypto, s: State, g: nat, n: nat)
    requires Initial(c, s, g, n)
    ensures Loose(s, g, n, n) && Sane(s) && Holds(s.store, n, n) && Reckoned(s, Log([], []), n, n, 0)
  {
    hide PointsBack, WellFormed;
    NothingSucceeded();
    assert MinedEntries(s.store, n, n) == [];
    assert InBooks(s, n, n) == [] + [] + [];
  }

  /**
    Over every run of a new producer, guarded or not: blocks are numbered consecutively, every success that is not lost
    is in a block or on the way into one, and the books balance, in order, if and only if no overtaken execution and no
    overwritten block held a success.
   */
  lemma BooksBalanceIff(c: Crypto, s: State, es: seq<Event>, g: nat, n: nat)
    requires Initial(c, s, g, n) && Possible(c, s, es)
    ensures var t, m := After(c, s, es), TipOf(c, s, es, n);
            var succeeded := Successes(LogAfter(c, s, Log([], []), es).executed);
            && Sane(t) && Stocked(t.store, g, m) && Holds(t.store, n, m)
            && |InBooks(t, n, m)| + LostIn(c, s, es) == |succeeded|
            && (InBooks(t, n, m) == succeeded <==> LostIn(c, s, es) == 0)
  {
    hide Initial, Possible, After, LogAfter, LostIn, TipOf, InBooks, Successes, Holds, Stocked, Sane, EmptyAfter;
    InitialReckoned(c, s, g, n);
    ReckonedRun(c, s, Log([], []), es, g, n, n, 0);
  }

  // ---- Guarded runs lose nothing ----------------------------------------

  lemma GuardedStep(s: State, e: Event)
    requires Control(s) && Allowed(s, e)
    ensures Loss(s, e) == 0
  {
    hide Successes, ExecutedPrefix;
  }

  lemma {:induction false} GuardedRun(c: Crypto, s: State, es: seq<Event>)
    requires Control(s) && Possible(c, s, es) && Guarded(c, s, es)
    ensures LostIn(c, s, es) == 0
    decreases |es|
  {
    hide Control, Step, Loss, LockOrder, NoOverlap, Enabled, Sane;
    if es != [] {
      GuardedStep(s, es[0]);
      ControlStep(c, s, es[0]);
      GuardedRun(c, Step(c, s, es[0]), es[1..]);
    }
  }

  /** The two guards are enough. */
  lemma GuardsSuffice(c: Crypto, s: State, es: seq<Event>, g: nat, n: nat)
    requires Initial(c, s, g, n) && Possible(c, s, es) && Guarded(c, s, es)
    ensures LostIn(c, s, es) == 0
  {
    InitialControl(c, s, g, n);
    GuardedRun(c, s, es);
  }
}

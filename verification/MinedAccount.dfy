/** Which mined transactions the pool is told about: those of finished blocks, and not those of forced ones. */
module MinedAccount {
  import opened Backend
  import opened Batches
  import opened Blocks
  import opened Interval
  import opened IntervalRuns
  import opened IntervalSafety
  import opened MinedBlocks
  import opened StateDiff

  /** The hashes of the transactions of some entries, with repetitions. */
  function Hashes(es: seq<Executed>): multiset<nat> {
    multiset(TxHashes(Transactions(es)))
  }

  function OutcomeHashes(outcomes: seq<Outcome>): multiset<nat> {
    if outcomes == [] then multiset{} else multiset(outcomes[0].txs) + OutcomeHashes(outcomes[1..])
  }

  /** The hashes of a block that has been mined but not been seen by a poll. */
  function WaitingHashes(s: State): multiset<nat> {
    if BlockTaken(s) then multiset(s.mining.value.stage.outcome.txs) else multiset{}
  }

  function Forces(s: State, e: Event): multiset<nat>
    requires Sane(s)
  {
    if e.ForceMine? then Hashes(Successes(s.executors[s.executor].transactions)) else multiset{}
  }

  /** The hashes of the blocks that were forced in a run. */
  function ForcedHashes(c: Crypto, s: State, es: seq<Event>): multiset<nat>
    requires Possible(c, s, es)
    decreases |es|
  {
    if es == [] then multiset{} else Forces(s, es[0]) + ForcedHashes(c, Step(c, s, es[0]), es[1..])
  }

  // ---- The account ------------------------------------------------------

  lemma HashesConcat(a: seq<Executed>, b: seq<Executed>)
    ensures Hashes(a + b) == Hashes(a) + Hashes(b)
  {
    hide TxHashes, Transactions;
    assert TxHashes(Transactions(a + b)) == TxHashes(Transactions(a)) + TxHashes(Transactions(b));
  }

  /** What the pool has been told, what was forced and what is waiting make up the mined blocks. */
  ghost predicate HashesBalance(s: State, lo: nat, n: nat, settled: multiset<nat>) {
    Holds(s.store, lo, n) && Hashes(MinedEntries(s.store, lo, n)) == settled + WaitingHashes(s)
  }

  /** What a step settles: a finished block that the pool is told about, or a forced one that it is not. */
  function Settles(s: State, e: Event): multiset<nat>
    requires Sane(s) && Enabled(s, e)
  {
    OutcomeHashes(Finishes(s, e)) + Forces(s, e)
  }

  lemma TakeHashes(c: Crypto, s: State, e: Event, g: nat, lo: nat, n: nat, settled: multiset<nat>)
    requires Control(s) && Allowed(s, e) && OnTip(c, s, g, n) && g <= lo <= n && HashesBalance(s, lo, n, settled)
    requires e.Mine? || e.ForceMine?
    ensures var t := Step(c, s, e);
            && Holds(t.store, lo, n + 1)
            && Hashes(MinedEntries(t.store, lo, n + 1)) ==
               settled + Hashes(Successes(s.executors[s.executor].transactions))
  {
    hide Mined, Latest, Successes, Transactions, TxHashes, Chain, Holds, MinedEntries, Hashes;
    var x := s.executors[s.executor];
    MinedEntriesStep(c, s.store, g, lo, n, x.env, Output(x.transactions, x.updates));
    HashesConcat(MinedEntries(s.store, lo, n), Successes(x.transactions));
    assert settled + multiset{} == settled;
  }

  lemma SettlesNothing(c: Crypto, s: State, e: Event)
    requires Sane(s) && Enabled(s, e) && !e.Mine? && !e.ForceMine? && !e.FinishMining?
    ensures Step(c, s, e).store == s.store && WaitingHashes(Step(c, s, e)) == WaitingHashes(s)
    ensures Settles(s, e) == multiset{}
  {
    hide Flatten, ExecutedPrefix, Mined, Latest, Settles;
    NothingToSettle(s, e);
  }

  lemma NothingToSettle(s: State, e: Event)
    requires Sane(s) && Enabled(s, e) && !e.Mine? && !e.ForceMine? && !e.FinishMining?
    ensures Settles(s, e) == multiset{}
  {
    hide Enabled, Sane, Hashes, Successes;
  }

  lemma SettlesFinished(c: Crypto, s: State, e: Event)
    requires Sane(s) && Enabled(s, e) && e.FinishMining?
    ensures Step(c, s, e).store == s.store && WaitingHashes(Step(c, s, e)) == multiset{}
    ensures Settles(s, e) == WaitingHashes(s)
  {
    hide Latest;
    OneOutcome(s.mining.value.stage.outcome);
  }

  lemma SettlesMined(c: Crypto, s: State, e: Event)
    requires Control(s) && Allowed(s, e) && (e.Mine? || e.ForceMine?)
    ensures WaitingHashes(s) == multiset{}
    ensures Settles(s, e) + WaitingHashes(Step(c, s, e)) == Hashes(Successes(s.executors[s.executor].transactions))
  {
    hide Mined, Latest, Successes, Hashes;
    if e.Mine? { MinedOutcome(c, s); }
  }

  lemma Regrouped(a: multiset<nat>, b: multiset<nat>, c: multiset<nat>)
    ensures (a + b) + c == a + (b + c) && a + multiset{} == a && multiset{} + a == a
  {
  }

  lemma HashesStep(c: Crypto, s: State, e: Event, g: nat, lo: nat, n: nat, settled: multiset<nat>)
    requires Control(s) && Allowed(s, e) && OnTip(c, s, g, n) && g <= lo <= n && HashesBalance(s, lo, n, settled)
    ensures HashesBalance(Step(c, s, e), lo, Tip(n, e), settled + Settles(s, e))
  {
    hide Step, Successes, Hashes, WaitingHashes, Settles, OnTip, Control, Holds, MinedEntries;
    AllowedSane(s, e);
    Regrouped(settled, Settles(s, e), WaitingHashes(Step(c, s, e)));
    if e.Mine? || e.ForceMine? {
      TakeHashes(c, s, e, g, lo, n, settled);
      SettlesMined(c, s, e);
    } else if e.FinishMining? {
      SettlesFinished(c, s, e);
      Regrouped(settled, WaitingHashes(s), multiset{});
    } else {
      SettlesNothing(c, s, e);
    }
  }

  lemma AllowedSane(s: State, e: Event)
    requires Allowed(s, e)
    ensures Sane(s) && Enabled(s, e)
  {
  }

  lemma OneOutcome(outcome: Outcome)
    ensures OutcomeHashes([outcome]) == multiset(outcome.txs)
  {
    assert [outcome][1..] == [];
  }

  lemma MinedOutcome(c: Crypto, s: State)
    requires Sane(s) && Enabled(s, Mine)
    ensures WaitingHashes(Step(c, s, Mine)) == Hashes(Successes(s.executors[s.mining.value.executor].transactions))
  {
    hide Mined, Latest, Successes, Transactions, TxHashes;
  }

  // ---- Whole runs -------------------------------------------------------

  function SettledHashes(c: Crypto, s: State, es: seq<Event>): multiset<nat>
    requires Possible(c, s, es)
    decreases |es|
  {
    if es == [] then multiset{} else Settles(s, es[0]) + SettledHashes(c, Step(c, s, es[0]), es[1..])
  }

  lemma {:induction false} OutcomeHashesConcat(a: seq<Outcome>, b: seq<Outcome>)
    ensures OutcomeHashes(a + b) == OutcomeHashes(a) + OutcomeHashes(b)
  {
    if a == [] {
      assert a + b == b;
    } else {
      assert (a + b)[1..] == a[1..] + b;
      OutcomeHashesConcat(a[1..], b);
    }
  }

  lemma {:induction false} SettledIs(c: Crypto, s: State, es: seq<Event>)
    requires Possible(c, s, es)
    ensures SettledHashes(c, s, es) == OutcomeHashes(FinishedOutcomes(c, s, es)) + ForcedHashes(c, s, es)
    decreases |es|
  {
    hide Step, Enabled, Sane, Finishes, Forces;
    if es != [] {
      var t := Step(c, s, es[0]);
      SettledIs(c, t, es[1..]);
      OutcomeHashesConcat(Finishes(s, es[0]), FinishedOutcomes(c, t, es[1..]));
    }
  }

  lemma {:induction false} HashesRun(c: Crypto, s: State, log: Log, es: seq<Event>, g: nat, lo: nat, n: nat, settled: multiset<nat>)
    requires Invariant(c, s, log, g, lo, n) && Possible(c, s, es) && Guarded(c, s, es)
    requires HashesBalance(s, lo, n, settled)
    ensures HashesBalance(After(c, s, es), lo, n + BlocksMined(es), settled + SettledHashes(c, s, es))
    decreases |es|
  {
    hide Possible, Guarded, After, BlocksMined, LogAfter, Step, Logged, Control, OnTip, Conserved, Accounted,
      HashesBalance, Settles, SettledHashes;
    if es == [] {
      RunEmpty(c, s, log);
      NothingSettled(c, s);
      Regrouped(settled, multiset{}, multiset{});
    } else {
      RunUnfold(c, s, log, es, n);
      InvariantStep(c, s, log, es[0], g, lo, n);
      HashesStep(c, s, es[0], g, lo, n, settled);
      SettledUnfold(c, s, es);
      Regrouped(settled, Settles(s, es[0]), SettledHashes(c, Step(c, s, es[0]), es[1..]));
      HashesRun(c, Step(c, s, es[0]), Logged(s, log, es[0]), es[1..], g, lo, Tip(n, es[0]), settled + Settles(s, es[0]));
    }
  }

  lemma NothingSettled(c: Crypto, s: State)
    ensures Possible(c, s, []) && SettledHashes(c, s, []) == multiset{}
  {
  }

  lemma SettledUnfold(c: Crypto, s: State, es: seq<Event>)
    requires es != [] && Possible(c, s, es)
    ensures Sane(s) && Enabled(s, es[0]) && Possible(c, Step(c, s, es[0]), es[1..])
    ensures SettledHashes(c, s, es) == Settles(s, es[0]) + SettledHashes(c, Step(c, s, es[0]), es[1..])
  {
    hide Step, Enabled, Sane, Settles;
  }

  lemma InitialHashes(c: Crypto, s: State, g: nat, n: nat)
    requires Initial(c, s, g, n)
    ensures HashesBalance(s, n, n, multiset{})
  {
    hide Chain;
    assert Holds(s.store, n, n);
    assert MinedEntries(s.store, n, n) == [];
  }

  /** The mined hashes of a run, from a new producer. */
  ghost function MinedHashes(c: Crypto, s: State, es: seq<Event>, n: nat): multiset<nat>
    requires Possible(c, s, es) && Holds(After(c, s, es).store, n, n + BlocksMined(es))
  {
    Hashes(MinedEntries(After(c, s, es).store, n, n + BlocksMined(es)))
  }

  /** The mined transactions are those of finished blocks, of forced blocks and of a block that is waiting. */
  lemma MinedHashesAre(c: Crypto, s: State, es: seq<Event>, g: nat, n: nat)
    requires Initial(c, s, g, n) && Possible(c, s, es) && Guarded(c, s, es)
    ensures Holds(After(c, s, es).store, n, n + BlocksMined(es))
    ensures MinedHashes(c, s, es, n) ==
            OutcomeHashes(FinishedOutcomes(c, s, es)) + ForcedHashes(c, s, es) + WaitingHashes(After(c, s, es))
  {
    hide Initial, Possible, Guarded, After, BlocksMined, Invariant, Hashes, MinedEntries, OutcomeHashes,
      FinishedOutcomes, ForcedHashes, WaitingHashes, SettledHashes, Holds;
    InitialInvariant(c, s, g, n);
    InitialHashes(c, s, g, n);
    HashesRun(c, s, Log([], []), es, g, n, n, multiset{});
    SettledIs(c, s, es);
    Regrouped(SettledHashes(c, s, es), multiset{}, multiset{});
  }

  /**
    Every mined transaction leaves the pool, which is told about finished blocks only, if and only if the pool is
    told of every transaction in a forced block or in one that is waiting.
   */
  lemma MinedLeaveIff(c: Crypto, s: State, es: seq<Event>, g: nat, n: nat)
    requires Initial(c, s, g, n) && Possible(c, s, es) && Guarded(c, s, es)
    ensures Holds(After(c, s, es).store, n, n + BlocksMined(es))
    ensures var told := OutcomeHashes(FinishedOutcomes(c, s, es));
            (forall h :: h in MinedHashes(c, s, es, n) ==> h in told) <==>
            (forall h :: h in ForcedHashes(c, s, es) + WaitingHashes(After(c, s, es)) ==> h in told)
  {
    hide Initial, Possible, Guarded, After, BlocksMined, OutcomeHashes, FinishedOutcomes, ForcedHashes,
      WaitingHashes, Holds, MinedHashes;
    MinedHashesAre(c, s, es, g, n);
  }

  /** When no transaction is mined twice: if and only if no forced block held one, and no block is waiting that does. */
  lemma DistinctMinedLeaveIff(c: Crypto, s: State, es: seq<Event>, g: nat, n: nat)
    requires Initial(c, s, g, n) && Possible(c, s, es) && Guarded(c, s, es)
    requires Holds(After(c, s, es).store, n, n + BlocksMined(es))
    requires forall h :: MinedHashes(c, s, es, n)[h] <= 1
    ensures var told := OutcomeHashes(FinishedOutcomes(c, s, es));
            (forall h :: h in MinedHashes(c, s, es, n) ==> h in told) <==>
            ForcedHashes(c, s, es) == multiset{} && WaitingHashes(After(c, s, es)) == multiset{}
  {
    hide Initial, Possible, Guarded, After, BlocksMined, OutcomeHashes, FinishedOutcomes, ForcedHashes,
      WaitingHashes, Holds, MinedHashes;
    MinedHashesAre(c, s, es, g, n);
    Disjoint(MinedHashes(c, s, es, n), OutcomeHashes(FinishedOutcomes(c, s, es)), ForcedHashes(c, s, es),
             WaitingHashes(After(c, s, es)));
  }

  lemma Disjoint(all: multiset<nat>, told: multiset<nat>, forced: multiset<nat>, waiting: multiset<nat>)
    requires all == told + forced + waiting && forall h :: all[h] <= 1
    ensures (forall h :: h in all ==> h in told) <==> forced == multiset{} && waiting == multiset{}
  {
    if forall h :: h in all ==> h in told {
      forall h ensures forced[h] == 0 && waiting[h] == 0 {
        assert all[h] == told[h] + forced[h] + waiting[h];
      }
    }
  }

  // ---- A transaction that stays -----------------------------------------

  lemma {:induction false} ForcedNone(c: Crypto, s: State, es: seq<Event>)
    requires Possible(c, s, es) && forall i :: 0 <= i < |es| ==> !es[i].ForceMine?
    ensures ForcedHashes(c, s, es) == multiset{}
    decreases |es|
  {
    hide Step, Enabled, Sane;
    if es != [] { ForcedNone(c, Step(c, s, es[0]), es[1..]); }
  }

  lemma {:induction false} ForcedLast(c: Crypto, s: State, es: seq<Event>, t: State, e: Event)
    requires Reaches(c, s, es, t) && Allowed(t, e)
    ensures Possible(c, s, es + [e]) && ForcedHashes(c, s, es + [e]) == ForcedHashes(c, s, es) + Forces(t, e)
    decreases |es|
  {
    hide Step, Enabled, Sane, LockOrder, NoOverlap, Forces;
    ReachesStep(c, s, es, t, e);
    if es == [] {
      assert [] + [e] == [e] && [e][1..] == [];
      assert ForcedHashes(c, Step(c, s, e), []) == multiset{};
    } else {
      ForcedLast(c, Step(c, s, es[0]), es[1..], t, e);
      assert (es + [e])[1..] == es[1..] + [e];
    }
  }

  function SuccessRun(tx: Transaction, receipt: Receipt, trace: nat): seq<Event> {
    StartedRun([tx]) + [RunExecution([Success(receipt, trace)], EMPTY, false)]
  }

  /** A new producer that executes a transaction and is forced to mine it never tells the pool. */
  lemma ForcedTransactionStays(
      c: Crypto, s: State, g: nat, n: nat, tx: Transaction, receipt: Receipt, trace: nat, timestamp: nat, prices: nat)
    requires Initial(c, s, g, n)
    ensures var es := SuccessRun(tx, receipt, trace) + [ForceMine(timestamp, prices)];
            && Possible(c, s, es) && Guarded(c, s, es) && Holds(After(c, s, es).store, n, n + BlocksMined(es))
            && tx.hash in MinedHashes(c, s, es, n) && FinishedOutcomes(c, s, es) == []
  {
    hide *;
    var es, force := SuccessRun(tx, receipt, trace), ForceMine(timestamp, prices);
    var t := SuccessReached(c, s, g, n, tx, receipt, trace);
    assert Allowed(t, force);
    AllowedSane(t, force);
    ReachesStep(c, s, es, t, force);
    ForcedLast(c, s, es, t, force);
    ReachedRun(c, s, es, t);
    ReachedRun(c, s, es + [force], Step(c, t, force));
    MinedHashesAre(c, s, es + [force], g, n);
    NothingFinished(tx, receipt, trace, timestamp, prices);
    NoOutcomes(c, s, es + [force]);
    ForcesSuccess(t, tx, receipt, trace, timestamp, prices);
    InSum(OutcomeHashes(FinishedOutcomes(c, s, es + [force])), ForcedHashes(c, s, es), Forces(t, force),
          WaitingHashes(After(c, s, es + [force])), tx.hash);
  }

  lemma InSum(a: multiset<nat>, b: multiset<nat>, c: multiset<nat>, d: multiset<nat>, h: nat)
    requires h in c
    ensures h in a + (b + c) + d
  {
  }

  lemma NothingFinished(tx: Transaction, receipt: Receipt, trace: nat, timestamp: nat, prices: nat)
    ensures var es := SuccessRun(tx, receipt, trace) + [ForceMine(timestamp, prices)];
            forall i :: 0 <= i < |es| ==> !es[i].FinishMining?
  {
  }

  lemma ForcesSuccess(t: State, tx: Transaction, receipt: Receipt, trace: nat, timestamp: nat, prices: nat)
    requires Sane(t) && t.executors[t.executor].transactions == [Executed(tx, Success(receipt, trace))]
    ensures tx.hash in Forces(t, ForceMine(timestamp, prices))
  {
    hide Hashes, Successes;
    SuccessHashed(tx, receipt, trace);
  }

  lemma ReachedRun(c: Crypto, s: State, es: seq<Event>, t: State)
    requires Reaches(c, s, es, t)
    ensures Possible(c, s, es) && Guarded(c, s, es) && After(c, s, es) == t
  {
  }

  lemma SuccessHashed(tx: Transaction, receipt: Receipt, trace: nat)
    ensures tx.hash in Hashes(Successes([Executed(tx, Success(receipt, trace))]))
  {
    var e := Executed(tx, Success(receipt, trace));
    SuccessesUnfold([e]);
    assert [e][1..] == [] && Successes([e]) == [e];
    assert TxHashes(Transactions([e]))[0] == tx.hash;
  }

  lemma SuccessReached(c: Crypto, s: State, g: nat, n: nat, tx: Transaction, receipt: Receipt, trace: nat)
    returns (t: State)
    requires Initial(c, s, g, n)
    ensures Reaches(c, s, SuccessRun(tx, receipt, trace), t)
    ensures forall timestamp, prices :: Allowed(t, ForceMine(timestamp, prices))
    ensures Sane(t) && t.executors[t.executor].transactions == [Executed(tx, Success(receipt, trace))]
  {
    hide Chain, Reaches;
    InitialControl(c, s, g, n);
    StartReached(c, s, g, n, [tx]);
    var started := StartedState(s, [tx]);
    var run := RunExecution([Success(receipt, trace)], EMPTY, false);
    ReachesStep(c, s, StartedRun([tx]), started, run);
    StepSane(c, started, run);
    t := Step(c, started, run);
    assert [] + ExecutedPrefix([tx], [Success(receipt, trace)]) == [Executed(tx, Success(receipt, trace))];
  }
}

/** What the pool still holds of the transactions that have been mined. */
module MinedPool {
  import opened Backend
  import opened Batches
  import opened Blocks
  import opened Interval
  import opened IntervalRuns
  import opened IntervalSafety
  import opened MinedAccount
  import opened MinedBlocks
  import opened PoolOrder
  import P = PoolRuns
  import opened Sequences
  import opened Service

  // ---- What is in the pool, read off its history ------------------------

  lemma InPoolIff(history: seq<P.Event>, x: PendingTx)
    requires P.Run(history)
    ensures x in P.After(history).transactions <==> P.Present(history, x) > 0
  {
    hide P.Run, P.After, P.Present;
    P.RunMatches(history);
    var txs := P.After(history).transactions;
    assert multiset(txs)[x] == P.Present(history, x);
    assert x in txs <==> x in multiset(txs);
  }

  /** No transaction is added again after its hash was removed. */
  predicate NoneAddedAgain(history: seq<P.Event>) {
    history == [] || (
      && NoneAddedAgain(P.Earlier(history))
      && (P.Last(history).Insert? ==> P.Last(history).tx.hash !in RemovedIn(P.Earlier(history))))
  }

  lemma RemovedSoFar(history: seq<P.Event>)
    requires history != []
    ensures RemovedIn(history) == RemovedIn(P.Earlier(history)) + Removes(P.Last(history))
  {
    var last := [P.Last(history)];
    assert history == P.Earlier(history) + last;
    RemovedConcat(P.Earlier(history), last);
    assert last[1..] == [];
    assert RemovedIn(last) == Removes(last[0]) + RemovedIn([]);
  }

  /** Then what was inserted is in the pool exactly when its hash was not removed. */
  lemma {:induction false} PresentIs(history: seq<P.Event>, x: PendingTx)
    requires NoneAddedAgain(history)
    ensures P.Present(history, x) == if x.hash in RemovedIn(history) then 0 else P.Insertions(history, x)
  {
    hide RemovedIn;
    if history != [] {
      PresentIs(P.Earlier(history), x);
      RemovedSoFar(history);
    } else {
      NothingRemoved();
    }
  }

  lemma NothingRemoved()
    ensures RemovedIn([]) == {}
  {
  }

  /** Everything a stream has yielded was inserted before. */
  lemma YieldedInserted(history: seq<P.Event>, k: nat, x: PendingTx)
    requires P.Run(history) && P.Snapshotted(history, k)
    ensures k in P.After(history).streams
    ensures x in P.After(history).streams[k].yielded ==> P.Insertions(history, x) > 0
  {
    hide P.Run, P.After, P.Snapshotted, P.PresentAtSnapshot, P.NotifiedSince, P.Insertions, P.Notifications;
    P.StreamYieldsAtMost(history, k, x);
    P.SnapshotInserted(history, k, x);
    P.NotifiedSinceNotified(history, k, x);
    P.NotifiedInserted(history, x);
    var yielded := P.After(history).streams[k].yielded;
    assert x in yielded <==> x in multiset(yielded);
  }

  // ---- What was mined was fed -------------------------------------------

  lemma {:induction false} SuccessExecuted(es: seq<Executed>, e: Executed)
    requires e in Successes(es)
    ensures e in es
  {
    if es != [] {
      if e in Successes(es[1..]) { SuccessExecuted(es[1..], e); }
    }
  }

  lemma HashListed(es: seq<Executed>, h: nat) returns (e: Executed)
    requires h in Hashes(es)
    ensures e in es && e.tx.hash == h
  {
    var hashes := TxHashes(Transactions(es));
    assert h in hashes;
    var i :| 0 <= i < |hashes| && hashes[i] == h;
    e := es[i];
  }

  /** A mined transaction is one that was fed to the producer. */
  lemma MinedFed(
      c: Crypto, s: State, es: seq<Event>, t: State, fed: seq<Transaction>, mined: multiset<nat>, g: nat, n: nat, h: nat)
    returns (tx: Transaction)
    requires Initial(c, s, g, n) && Drives(c, s, es, t, fed, mined)
    requires Possible(c, s, es) && Holds(After(c, s, es).store, n, n + BlocksMined(es)) && h in MinedHashes(c, s, es, n)
    ensures tx in fed && tx.hash == h
  {
    hide Initial, After, LogAfter, Flatten, Transactions, Successes, QueuedIn, OutcomeHashes, FinishedOutcomes, InFlight,
      BlocksMined, Holds, MinedEntries, Hashes;
    BlocksHoldSuccesses(c, s, es, g, n);
    FedInOrder(c, s, es, t, fed, mined, g, n);
    var entries, executed := MinedEntries(t.store, n, n + BlocksMined(es)), LogAfter(c, s, Log([], []), es).executed;
    var e := HashListed(entries, h);
    assert e in Successes(executed);
    SuccessExecuted(executed, e);
    tx := e.tx;
    TransactionListed(executed, e);
    assert tx in Transactions(executed) + InFlight(t.execution) + Flatten(t.queued);
  }

  lemma TransactionListed(es: seq<Executed>, e: Executed)
    requires e in es
    ensures e.tx in Transactions(es)
  {
    var i :| 0 <= i < |es| && es[i] == e;
    assert Transactions(es)[i] == e.tx;
  }

  lemma BodyOf(entries: seq<PendingTx>, tx: Transaction) returns (x: PendingTx)
    requires tx in Bodies(entries)
    ensures x in entries && x.hash == tx.hash
  {
    var i :| 0 <= i < |entries| && Bodies(entries)[i] == tx;
    x := entries[i];
  }

  // ---- The pool and the blocks ------------------------------------------

  /** No entry of the pool has one of the hashes. */
  ghost predicate FreeOf(q: P.State, hashes: multiset<nat>) {
    forall x :: x in q.transactions ==> x.hash !in hashes
  }

  /**
    A producer, started anew, that is fed with everything stream `k` of a pool has yielded, and a pool from which the
    transactions of the blocks that polls have finished are removed.
   */
  ghost predicate Serviced(
      c: Crypto, s: State, es: seq<Event>, t: State, mined: multiset<nat>, g: nat, n: nat, history: seq<P.Event>, k: nat)
  {
    && Initial(c, s, g, n) && P.Run(history) && P.Snapshotted(history, k) && k in P.After(history).streams
    && Drives(c, s, es, t, Bodies(P.After(history).streams[k].yielded), mined)
    && RemovedIn(history) == HashSet(mined)
  }

  /** A new producer and a pool from which nothing was removed, with a stream that has yielded nothing. */
  lemma ServicedStart(c: Crypto, s: State, g: nat, n: nat, history: seq<P.Event>, k: nat)
    requires Initial(c, s, g, n) && P.Run(history) && P.Snapshotted(history, k) && RemovedIn(history) == {}
    requires k in P.After(history).streams && P.After(history).streams[k].yielded == []
    ensures Serviced(c, s, [], s, multiset{}, g, n, history, k)
  {
    hide Initial, P.Run, P.After, P.Snapshotted, RemovedIn, Drives;
    NothingDriven(c, s);
    NothingYielded();
    HashSetSum(multiset{}, multiset{});
  }

  /** A poll of the service goes on from there, and so does everything else that drives the producer and tends the pool. */
  lemma ServicedOn(
      c: Crypto, s: State, es: seq<Event>, t: State, mined: multiset<nat>, g: nat, n: nat, history: seq<P.Event>, k: nat,
      fs: seq<Event>, u: State, finished: multiset<nat>, steps: seq<P.Event>, yielded: seq<PendingTx>)
    requires Serviced(c, s, es, t, mined, g, n, history, k)
    requires Drives(c, t, fs, u, Bodies(yielded), finished) && RemovedIn(steps) == HashSet(finished)
    requires P.Run(history + steps) && P.Snapshotted(history + steps, k) && k in P.After(history + steps).streams
    requires P.After(history + steps).streams[k].yielded == P.After(history).streams[k].yielded + yielded
    ensures Serviced(c, s, es + fs, u, mined + finished, g, n, history + steps, k)
  {
    hide Initial, P.Run, P.After, P.Snapshotted, RemovedIn, Drives, Bodies, HashSet;
    var before := P.After(history).streams[k].yielded;
    DrivesConcat(c, s, es, t, Bodies(before), mined, fs, u, Bodies(yielded), finished);
    BodiesConcat(before, yielded);
    RemovedConcat(history, steps);
    HashSetSum(mined, finished);
  }

  /** Every mined transaction had been inserted into the pool. */
  lemma MinedInserted(
      c: Crypto, s: State, es: seq<Event>, t: State, mined: multiset<nat>, g: nat, n: nat, history: seq<P.Event>, k: nat,
      h: nat)
    returns (x: PendingTx)
    requires Serviced(c, s, es, t, mined, g, n, history, k)
    requires Possible(c, s, es) && Holds(After(c, s, es).store, n, n + BlocksMined(es)) && h in MinedHashes(c, s, es, n)
    ensures x.hash == h && P.Insertions(history, x) > 0
  {
    hide Initial, Drives, Possible, After, P.Run, P.After, P.Snapshotted, P.Insertions, Bodies, RemovedIn, MinedHashes,
      Holds, BlocksMined;
    var yielded := P.After(history).streams[k].yielded;
    var tx := MinedFed(c, s, es, t, Bodies(yielded), mined, g, n, h);
    x := BodyOf(yielded, tx);
    YieldedInserted(history, k, x);
  }

  lemma ServicedMined(
      c: Crypto, s: State, es: seq<Event>, t: State, mined: multiset<nat>, g: nat, n: nat, history: seq<P.Event>, k: nat)
    requires Serviced(c, s, es, t, mined, g, n, history, k)
    ensures Possible(c, s, es) && Holds(After(c, s, es).store, n, n + BlocksMined(es))
    ensures MinedHashes(c, s, es, n) == mined + ForcedHashes(c, s, es) + WaitingHashes(t)
  {
    hide Initial, After, P.Run, P.After, P.Snapshotted, Bodies, RemovedIn, MinedHashes, Holds, BlocksMined,
      ForcedHashes, WaitingHashes, OutcomeHashes, FinishedOutcomes, QueuedIn, Possible, Guarded;
    MinedHashesAre(c, s, es, g, n);
  }

  /**
    Over every run: the pool holds nothing that was mined if and only if it holds nothing of a forced block or of one
    that no poll has seen, and nothing of a finished block has been added again since it was removed.
   */
  lemma PoolHoldsMinedIff(
      c: Crypto, s: State, es: seq<Event>, t: State, mined: multiset<nat>, g: nat, n: nat, history: seq<P.Event>, k: nat)
    requires Serviced(c, s, es, t, mined, g, n, history, k)
    ensures Possible(c, s, es) && Holds(After(c, s, es).store, n, n + BlocksMined(es))
    ensures var q := P.After(history);
            FreeOf(q, MinedHashes(c, s, es, n)) <==>
            && FreeOf(q, ForcedHashes(c, s, es) + WaitingHashes(t))
            && (forall x: PendingTx :: x.hash in mined ==> P.Present(history, x) == 0)
  {
    ServicedMined(c, s, es, t, mined, g, n, history, k);
    hide *;
    var q, all, unseen := P.After(history), MinedHashes(c, s, es, n), ForcedHashes(c, s, es) + WaitingHashes(t);
    ServicedRun(c, s, es, t, mined, g, n, history, k);
    forall x: PendingTx ensures x in q.transactions <==> P.Present(history, x) > 0 {
      InPoolIff(history, x);
    }
    assert forall h :: h in all <==> h in mined || h in unseen;
    FreeOfSum(history, q, all, mined, unseen);
  }

  lemma ServicedRun(
      c: Crypto, s: State, es: seq<Event>, t: State, mined: multiset<nat>, g: nat, n: nat, history: seq<P.Event>, k: nat)
    requires Serviced(c, s, es, t, mined, g, n, history, k)
    ensures P.Run(history) && RemovedIn(history) == HashSet(mined)
  {
  }

  lemma FreeOfSum(history: seq<P.Event>, q: P.State, all: multiset<nat>, mined: multiset<nat>, unseen: multiset<nat>)
    requires forall h :: h in all <==> h in mined || h in unseen
    requires forall x: PendingTx :: x in q.transactions <==> P.Present(history, x) > 0
    ensures FreeOf(q, all) <==> FreeOf(q, unseen) && forall x: PendingTx :: x.hash in mined ==> P.Present(history, x) == 0
  {
    hide P.Present;
    if FreeOf(q, all) {
      forall x: PendingTx | x.hash in mined ensures P.Present(history, x) == 0 {
        assert x.hash in all;
      }
    }
  }

  /**
    When nothing is added again after its removal: the pool holds nothing that was mined if and only if it holds
    nothing of forced and unseen blocks; that is, if and only if finished blocks hold all of that as well. When nothing
    is mined twice, there must have been no such transaction.
   */
  lemma PoolForgetsMinedIff(
      c: Crypto, s: State, es: seq<Event>, t: State, mined: multiset<nat>, g: nat, n: nat, history: seq<P.Event>, k: nat)
    requires Serviced(c, s, es, t, mined, g, n, history, k) && NoneAddedAgain(history)
    ensures Possible(c, s, es) && Holds(After(c, s, es).store, n, n + BlocksMined(es))
    ensures var q, unseen := P.After(history), ForcedHashes(c, s, es) + WaitingHashes(t);
            && (FreeOf(q, MinedHashes(c, s, es, n)) <==> FreeOf(q, unseen))
            && (FreeOf(q, unseen) <==> forall h :: h in unseen ==> h in mined)
            && ((forall h :: MinedHashes(c, s, es, n)[h] <= 1) ==> (FreeOf(q, unseen) <==> unseen == multiset{}))
  {
    ServicedMined(c, s, es, t, mined, g, n, history, k);
    PoolHoldsMinedIff(c, s, es, t, mined, g, n, history, k);
    ServicedRun(c, s, es, t, mined, g, n, history, k);
    hide *;
    var q, all, unseen := P.After(history), MinedHashes(c, s, es, n), ForcedHashes(c, s, es) + WaitingHashes(t);
    assert all == mined + unseen;
    forall x: PendingTx
      ensures P.Present(history, x) == if x.hash in RemovedIn(history) then 0 else P.Insertions(history, x)
      ensures x in q.transactions <==> P.Present(history, x) > 0
    {
      PresentIs(history, x);
      InPoolIff(history, x);
    }
    assert forall h :: h in RemovedIn(history) <==> h in mined by { HashSetIs(mined); }
    forall h | h in unseen && h !in mined ensures exists x :: x in q.transactions && x.hash == h {
      var x := MinedInserted(c, s, es, t, mined, g, n, history, k, h);
      assert x in q.transactions;
    }
    FreeOfIff(q, unseen, mined);
    if forall h :: all[h] <= 1 { DisjointSum(all, mined, unseen); }
  }

  lemma HashSetIs(hashes: multiset<nat>)
    ensures forall h :: h in HashSet(hashes) <==> h in hashes
  {
  }

  lemma FreeOfIff(q: P.State, unseen: multiset<nat>, mined: multiset<nat>)
    requires forall x :: x in q.transactions ==> x.hash !in mined
    requires forall h :: h in unseen && h !in mined ==> exists x :: x in q.transactions && x.hash == h
    ensures FreeOf(q, unseen) <==> forall h :: h in unseen ==> h in mined
  {
  }

  lemma DisjointSum(all: multiset<nat>, mined: multiset<nat>, unseen: multiset<nat>)
    requires all == mined + unseen && forall h :: all[h] <= 1
    ensures (forall h :: h in unseen ==> h in mined) <==> unseen == multiset{}
  {
    if forall h :: h in unseen ==> h in mined {
      forall h ensures unseen[h] == 0 {
        assert all[h] == mined[h] + unseen[h];
      }
    }
  }

  // ---- A transaction that is still there --------------------------------

  /** A stream is opened, the entry is added, and the stream yields it. */
  function AddingRun(x: PendingTx): seq<P.Event> {
    [P.Event.Subscribe, P.TakeSnapshot(0), P.Event.Insert(x, 0), P.Event.Notify(x), P.Receive(0), P.Yield(0, x)]
  }

  lemma AddingSubscribed(x: PendingTx)
    ensures var es := [P.Event.Subscribe, P.TakeSnapshot(0)];
            P.Run(es) && P.After(es) ==
            P.State([], {0}, [P.Channel(true, [], 0)], map[0 := []], map[0 := P.Stream([], multiset{}, [])])
  {
    hide P.Run, P.After;
    EmptyRun();
    P.RunStep([], P.Event.Subscribe);
    assert [] + [P.Event.Subscribe] == [P.Event.Subscribe];
    var one := [P.Event.Subscribe];
    assert P.After(one) == P.State([], {0}, [P.Channel(true, [], 0)], map[], map[]);
    assert P.Earlier(one) == [];
    P.RunStep(one, P.TakeSnapshot(0));
    assert one + [P.TakeSnapshot(0)] == [P.Event.Subscribe, P.TakeSnapshot(0)];
  }

  lemma EmptyRun()
    ensures P.Run([]) && P.After([]) == P.EMPTY_POOL
  {
  }

  lemma AddingReceived(x: PendingTx)
    ensures var es := [P.Event.Subscribe, P.TakeSnapshot(0), P.Event.Insert(x, 0), P.Event.Notify(x)];
            P.Run(es) && P.After(es) == Offering(x, 0, multiset{}, [])
  {
    hide P.Run, P.After;
    var two := [P.Event.Subscribe, P.TakeSnapshot(0)];
    AddingSubscribed(x);
    P.RunStep(two, P.Event.Insert(x, 0));
    var three := two + [P.Event.Insert(x, 0)];
    assert P.After(three).transactions == [x];
    InsertedOnce(two, x);
    P.RunStep(three, P.Event.Notify(x));
    assert three + [P.Event.Notify(x)] == [P.Event.Subscribe, P.TakeSnapshot(0), P.Event.Insert(x, 0), P.Event.Notify(x)];
    var t := P.Step(P.After(three), P.Event.Notify(x));
    assert t.channels[0].sent == [] + [x] == [x];
    assert t.channels == [P.Channel(true, [x], 0)] && t.subscribers == {0};
  }

  lemma InsertedOnce(es: seq<P.Event>, x: PendingTx)
    requires P.Run(es)
    ensures P.InProtocol(es + [P.Event.Insert(x, 0)], P.Event.Notify(x))
  {
    hide P.Run;
    var fs := es + [P.Event.Insert(x, 0)];
    assert P.Earlier(fs) == es && P.Last(fs) == P.Event.Insert(x, 0);
    P.NotifiedInserted(es, x);
  }

  /** The pool with the entry, which the stream has received, and yielded if `yielded` is not empty. */
  function Offering(x: PendingTx, taken: nat, drained: multiset<PendingTx>, yielded: seq<PendingTx>): P.State {
    P.State([x], {0}, [P.Channel(true, [x], taken)], map[0 := []], map[0 := P.Stream([], drained, yielded)])
  }

  lemma ReceivesIt(x: PendingTx)
    ensures var s := Offering(x, 0, multiset{}, []);
            P.Enabled(s, P.Receive(0)) && P.Step(s, P.Receive(0)) == Offering(x, 1, multiset{x}, [])
  {
    var s := Offering(x, 0, multiset{}, []);
    var t := P.Step(s, P.Receive(0));
    assert t.channels == [P.Channel(true, [x], 1)];
    assert multiset{} + multiset{x} == multiset{x};
    assert t.streams == map[0 := P.Stream([], multiset{x}, [])];
  }

  lemma YieldsIt(x: PendingTx)
    ensures var s := Offering(x, 1, multiset{x}, []);
            P.Enabled(s, P.Yield(0, x)) && P.Step(s, P.Yield(0, x)) == Offering(x, 1, multiset{}, [x])
  {
    var s := Offering(x, 1, multiset{x}, []);
    var t := P.Step(s, P.Yield(0, x));
    assert multiset{x} - multiset{x} == multiset{} && [] + [x] == [x];
    assert t.streams == map[0 := P.Stream([], multiset{}, [x])];
  }

  lemma AddingYields(x: PendingTx)
    ensures P.Run(AddingRun(x)) && P.After(AddingRun(x)) == Offering(x, 1, multiset{}, [x])
  {
    hide P.Run, P.After, P.Step;
    AddingReceived(x);
    var four := [P.Event.Subscribe, P.TakeSnapshot(0), P.Event.Insert(x, 0), P.Event.Notify(x)];
    ReceivesIt(x);
    P.RunStep(four, P.Receive(0));
    YieldsIt(x);
    var five := four + [P.Receive(0)];
    P.RunStep(five, P.Yield(0, x));
    assert five + [P.Yield(0, x)] == AddingRun(x);
  }

  /** The service runs from the start, no poll has seen a block, and the entry is both mined and in the pool. */
  ghost predicate MinedAndPresent(
      c: Crypto, s: State, es: seq<Event>, g: nat, n: nat, history: seq<P.Event>, x: PendingTx)
  {
    && Possible(c, s, es) && Serviced(c, s, es, After(c, s, es), multiset{}, g, n, history, 0)
    && Holds(After(c, s, es).store, n, n + BlocksMined(es))
    && x in P.After(history).transactions && x.hash in MinedHashes(c, s, es, n)
  }

  /** A transaction whose block is forced right after it was executed is mined, and still in the pool. */
  lemma ForcedStillThere(
      c: Crypto, s: State, g: nat, n: nat, x: PendingTx, receipt: Receipt, trace: nat, timestamp: nat, prices: nat)
    requires Initial(c, s, g, n)
    ensures var tx, history := Transaction(x.hash, x.payload), AddingRun(x);
            var es := SuccessRun(tx, receipt, trace) + [ForceMine(timestamp, prices)];
            MinedAndPresent(c, s, es, g, n, history, x) && NoneAddedAgain(history)
  {
    hide *;
    var tx, history := Transaction(x.hash, x.payload), AddingRun(x);
    var es := SuccessRun(tx, receipt, trace) + [ForceMine(timestamp, prices)];
    ForcedTransactionStays(c, s, g, n, tx, receipt, trace, timestamp, prices);
    AddingYields(x);
    OfferingHas(x);
    StreamIsOpen(history, 0);
    QueuedOnce(tx, receipt, trace, timestamp, prices);
    BodiesOfOne(x);
    NothingRemovedYet(x);
    IsServiced(c, s, es, g, n, history, [x]);
    IsPresent(c, s, es, g, n, history, x);
  }

  lemma IsPresent(c: Crypto, s: State, es: seq<Event>, g: nat, n: nat, history: seq<P.Event>, x: PendingTx)
    requires Possible(c, s, es) && Serviced(c, s, es, After(c, s, es), multiset{}, g, n, history, 0)
    requires Holds(After(c, s, es).store, n, n + BlocksMined(es))
    requires P.Run(history) && x in P.After(history).transactions && x.hash in MinedHashes(c, s, es, n)
    ensures MinedAndPresent(c, s, es, g, n, history, x)
  {
    hide Possible, Serviced, After, Holds, BlocksMined, MinedHashes, P.Run, P.After;
  }

  lemma OfferingHas(x: PendingTx)
    ensures var q := Offering(x, 1, multiset{}, [x]);
            x in q.transactions && 0 in q.streams && q.streams[0].yielded == [x] && |q.channels| == 1 && q.channels[0].open
  {
  }

  lemma IsServiced(c: Crypto, s: State, es: seq<Event>, g: nat, n: nat, history: seq<P.Event>, yielded: seq<PendingTx>)
    requires Initial(c, s, g, n) && P.Run(history) && P.Snapshotted(history, 0) && 0 in P.After(history).streams
    requires P.After(history).streams[0].yielded == yielded && QueuedIn(es) == Bodies(yielded)
    requires Possible(c, s, es) && Guarded(c, s, es) && FinishedOutcomes(c, s, es) == []
    requires OutcomeHashes([]) == multiset{} && RemovedIn(history) == HashSet(multiset{})
    ensures Serviced(c, s, es, After(c, s, es), multiset{}, g, n, history, 0)
  {
    hide Initial, P.Run, P.After, P.Snapshotted, QueuedIn, Bodies, Possible, Guarded, FinishedOutcomes, OutcomeHashes,
      RemovedIn, HashSet, After;
  }

  lemma QueuedOnce(tx: Transaction, receipt: Receipt, trace: nat, timestamp: nat, prices: nat)
    ensures QueuedIn(SuccessRun(tx, receipt, trace) + [ForceMine(timestamp, prices)]) == [tx]
    ensures OutcomeHashes([]) == multiset{}
  {
    var es := SuccessRun(tx, receipt, trace) + [ForceMine(timestamp, prices)];
    assert es[0] == Queue([tx]);
    QueuedNone(es[1..]);
    FlatMapUnfold(BatchOf, es);
    assert [tx] + [] == [tx];
  }

  lemma BodiesOfOne(x: PendingTx)
    ensures Bodies([x]) == [Transaction(x.hash, x.payload)]
  {
    assert [x][1..] == [];
  }

  lemma NothingRemovedYet(x: PendingTx)
    ensures RemovedIn(AddingRun(x)) == {} == HashSet(multiset{}) && NoneAddedAgain(AddingRun(x))
  {
    RemovedNone(AddingRun(x));
    NeverRemoved(AddingRun(x));
  }

  lemma {:induction false} NeverRemoved(history: seq<P.Event>)
    requires forall i :: 0 <= i < |history| ==> !history[i].Remove?
    ensures NoneAddedAgain(history)
  {
    if history != [] {
      NeverRemoved(P.Earlier(history));
      RemovedNone(P.Earlier(history));
    }
  }
}

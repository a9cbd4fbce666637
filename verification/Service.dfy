/** The block production task: feeds the producer from the pool and removes what was mined. */
module Service {
  import opened Backend
  import opened Batches
  import opened Blocks
  import opened Interval
  import opened IntervalProducer
  import opened IntervalRuns
  import opened IntervalSafety
  import opened MinedAccount
  import opened Notification
  import opened Outcomes
  import opened Pool
  import opened PoolOrder
  import P = PoolRuns
  import opened Sequences
  import opened Streams

  /** What a poll of the producer meets: see `PollNext`. */
  datatype Input = Input(tick: bool, rounds: seq<Meanwhile>, meanwhile: Meanwhile, now: nat, prices: nat)

  function Bodies(entries: seq<PendingTx>): (r: seq<Transaction>)
    ensures |r| == |entries|
    ensures forall i :: 0 <= i < |entries| ==> r[i] == Transaction(entries[i].hash, entries[i].payload)
  {
    if entries == [] then [] else [Transaction(entries[0].hash, entries[0].payload)] + Bodies(entries[1..])
  }

  function BatchOf(e: Event): seq<Transaction> {
    if e.Queue? then e.batch else []
  }

  /** Everything a run puts on the queue, in order. */
  function QueuedIn(es: seq<Event>): seq<Transaction> {
    FlatMap(BatchOf, es)
  }

  lemma {:induction false} QueuedNone(es: seq<Event>)
    requires forall i :: 0 <= i < |es| ==> !es[i].Queue?
    ensures QueuedIn(es) == []
  {
    if es != [] { QueuedNone(es[1..]); }
  }

  /**
    A run of the producer that has queued `queued` and finished mining the blocks whose transactions are `mined`.
   */
  predicate Drives(c: Crypto, s: State, es: seq<Event>, t: State, queued: seq<Transaction>, mined: multiset<nat>) {
    && Reaches(c, s, es, t)
    && QueuedIn(es) == queued
    && OutcomeHashes(FinishedOutcomes(c, s, es)) == mined
  }

  lemma DrivesConcat(
      c: Crypto, s: State, es: seq<Event>, t: State, queued: seq<Transaction>, mined: multiset<nat>,
      fs: seq<Event>, u: State, more: seq<Transaction>, finished: multiset<nat>)
    requires Drives(c, s, es, t, queued, mined) && Drives(c, t, fs, u, more, finished)
    ensures Drives(c, s, es + fs, u, queued + more, mined + finished)
  {
    hide FlatMap, OutcomeHashes, FinishedOutcomes, After, Possible, Guarded;
    Reachable(c, s, es, t);
    Reachable(c, t, fs, u);
    FlatMapConcat(BatchOf, es, fs);
    OutcomesConcat(c, s, es, t, fs, u);
    OutcomeHashesConcat(FinishedOutcomes(c, s, es), FinishedOutcomes(c, t, fs));
  }

  lemma DrivesOn(
      c: Crypto, s: State, es: seq<Event>, t: State, queued: seq<Transaction>, mined: multiset<nat>,
      fs: seq<Event>, u: State, finished: multiset<nat>)
    requires Drives(c, s, es, t, queued, mined) && Drives(c, t, fs, u, [], finished)
    ensures Drives(c, s, es + fs, u, queued, mined + finished)
  {
    hide Drives;
    DrivesConcat(c, s, es, t, queued, mined, fs, u, [], finished);
    assert queued + [] == queued;
  }

  lemma Reachable(c: Crypto, s: State, es: seq<Event>, t: State)
    requires Reaches(c, s, es, t)
    ensures Possible(c, s, es)
  {
  }

  lemma PollDrives(c: Crypto, s: State, es: seq<Event>, t: State, r: Option<Outcome>)
    requires Reaches(c, s, es, t) && (forall i :: 0 <= i < |es| ==> OfPoll(es[i]))
    requires FinishedOutcomes(c, s, es) == if r.Some? then [r.value] else []
    ensures Drives(c, s, es, t, [], BlockHashes(r))
  {
    hide Reaches, Possible, After, Guarded, FinishedOutcomes, QueuedIn, OutcomeHashes;
    QueuedNone(es);
    OneMined(r);
  }

  /** The transactions of a block that is done. */
  function BlockHashes(r: Option<Outcome>): multiset<nat> {
    if r.Some? then multiset(r.value.txs) else multiset{}
  }

  lemma OneMined(r: Option<Outcome>)
    ensures OutcomeHashes(if r.Some? then [r.value] else []) == BlockHashes(r)
  {
    if r.Some? { OneOutcome(r.value); }
  }

  lemma QueueDrives(c: Crypto, s: State, batch: seq<Transaction>)
    requires Sane(s)
    ensures Drives(c, s, [Event.Queue(batch)], Step(c, s, Event.Queue(batch)), batch, multiset{})
  {
    var es := [Event.Queue(batch)];
    StepReaches(c, s, es[0]);
    NoOutcomes(c, s, es);
    FlatMapUnfold(BatchOf, es);
    assert es[1..] == [];
    assert QueuedIn(es) == batch + [];
  }

  lemma NothingDriven(c: Crypto, s: State)
    ensures Drives(c, s, [], s, [], multiset{})
  {
  }

  lemma {:induction false} QueuedLogged(c: Crypto, s: State, log: Log, es: seq<Event>)
    requires Possible(c, s, es)
    ensures LogAfter(c, s, log, es).queued == log.queued + QueuedIn(es)
    decreases |es|
  {
    hide Step, Enabled, Sane, ExecutedPrefix;
    if es != [] {
      FlatMapUnfold(BatchOf, es);
      QueuedLogged(c, Step(c, s, es[0]), Logged(s, log, es[0]), es[1..]);
    }
  }

  /** What the task has fed to the producer is executed in that order, and nothing of it is lost. */
  lemma FedInOrder(c: Crypto, s: State, es: seq<Event>, t: State, fed: seq<Transaction>, mined: multiset<nat>, g: nat, n: nat)
    requires Initial(c, s, g, n) && Drives(c, s, es, t, fed, mined)
    ensures Possible(c, s, es)
    ensures Transactions(LogAfter(c, s, Log([], []), es).executed) + InFlight(t.execution) + Flatten(t.queued) == fed
  {
    hide Initial, After, LogAfter, Flatten, Transactions, QueuedIn, OutcomeHashes, FinishedOutcomes, InFlight;
    OrderKept(c, s, es, g, n);
    QueuedLogged(c, s, Log([], []), es);
    assert [] + QueuedIn(es) == QueuedIn(es);
  }

  // ---- The pool meanwhile -----------------------------------------------

  function Removes(e: P.Event): set<nat> {
    if e.Remove? then e.hashes else {}
  }

  /** Every hash that was removed from the pool. */
  function RemovedIn(es: seq<P.Event>): set<nat> {
    if es == [] then {} else Removes(es[0]) + RemovedIn(es[1..])
  }

  lemma {:induction false} RemovedConcat(es: seq<P.Event>, fs: seq<P.Event>)
    ensures RemovedIn(es + fs) == RemovedIn(es) + RemovedIn(fs)
  {
    if es == [] {
      assert es + fs == fs;
    } else {
      assert (es + fs)[1..] == es[1..] + fs;
      RemovedConcat(es[1..], fs);
    }
  }

  lemma {:induction false} RemovedNone(es: seq<P.Event>)
    requires forall i :: 0 <= i < |es| ==> !es[i].Remove?
    ensures RemovedIn(es) == {}
  {
    if es != [] { RemovedNone(es[1..]); }
  }

  function HashSet(hashes: multiset<nat>): set<nat> {
    set h | h in hashes
  }

  /** The steps `es` lead the pool from `s` to `t` and remove the hashes `removed`. */
  predicate Tends(s: P.State, es: seq<P.Event>, t: P.State, removed: set<nat>) {
    P.Leads(s, es, t) && RemovedIn(es) == removed
  }

  lemma TendsConcat(
      s: P.State, es: seq<P.Event>, t: P.State, removed: set<nat>, fs: seq<P.Event>, u: P.State, more: set<nat>)
    requires Tends(s, es, t, removed) && Tends(t, fs, u, more)
    ensures Tends(s, es + fs, u, removed + more)
  {
    hide P.Leads, RemovedIn;
    P.LeadsConcat(s, es, t, fs, u);
    RemovedConcat(es, fs);
  }

  lemma TendsNothing(s: P.State)
    ensures Tends(s, [], s, {})
  {
  }

  lemma TendsQuietly(s: P.State, es: seq<P.Event>, t: P.State)
    requires P.Leads(s, es, t) && forall i :: 0 <= i < |es| ==> !es[i].Remove?
    ensures Tends(s, es, t, {})
  {
    RemovedNone(es);
  }

  lemma TendsRemove(s: P.State, hashes: set<nat>)
    ensures Tends(s, [P.Event.Remove(hashes)], P.Step(s, P.Event.Remove(hashes)), hashes)
  {
    hide P.Step;
    var es := [P.Event.Remove(hashes)];
    P.LeadsNowhere(s);
    P.LeadsStep(s, [], s, es[0]);
    assert [] + es == es && es[1..] == [];
    assert RemovedIn(es) == hashes + RemovedIn([]);
  }

  lemma TendsOn(s: P.State, es: seq<P.Event>, t: P.State, removed: set<nat>, fs: seq<P.Event>, u: P.State)
    requires Tends(s, es, t, removed) && Tends(t, fs, u, {})
    ensures Tends(s, es + fs, u, removed)
  {
    hide Tends;
    TendsConcat(s, es, t, removed, fs, u, {});
    assert removed + {} == removed;
  }

  lemma HashSetSum(a: multiset<nat>, b: multiset<nat>)
    ensures HashSet(a + b) == HashSet(a) + HashSet(b) && HashSet(multiset{}) == {}
  {
  }

  // ---- What the stream has yielded --------------------------------------

  /**
    The stream has yielded exactly what was in the pool at its snapshot and what was announced since its subscription:
    every completed addition, except for copies that were removed before the snapshot.
   */
  ghost predicate YieldedAll(history: seq<P.Event>, k: nat, yielded: seq<PendingTx>) {
    forall t: PendingTx ::
      && multiset(yielded)[t] == P.PresentAtSnapshot(history, k, t) + P.NotifiedSince(history, k, t)
      && P.Notifications(history, t) <= multiset(yielded)[t] + P.RemovedBeforeSnapshot(history, k, t)
  }

  lemma ExhaustedYields(history: seq<P.Event>, k: nat)
    requires P.Run(history)
    requires var s := P.After(history);
             k in s.streams && k < |s.channels| && s.channels[k].open && P.Exhausted(s, k)
    ensures YieldedAll(history, k, P.After(history).streams[k].yielded)
  {
    hide P.Run, P.After, P.PresentAtSnapshot, P.NotifiedSince, P.Notifications, P.RemovedBeforeSnapshot, P.Snapshotted,
      P.Closed, P.Exhausted;
    StreamIsOpen(history, k);
    forall t: PendingTx
      ensures var yielded := P.After(history).streams[k].yielded;
              && multiset(yielded)[t] == P.PresentAtSnapshot(history, k, t) + P.NotifiedSince(history, k, t)
              && P.Notifications(history, t) <= multiset(yielded)[t] + P.RemovedBeforeSnapshot(history, k, t)
    {
      P.StreamYields(history, k, t);
    }
  }

  lemma StreamIsOpen(history: seq<P.Event>, k: nat)
    requires P.Run(history)
    requires var s := P.After(history); k in s.streams && k < |s.channels| && s.channels[k].open
    ensures P.Snapshotted(history, k) && !P.Closed(history, k)
  {
    hide P.Run, P.After, P.PresentAtSnapshot, P.NotifiedSince, P.Snapshotted, P.Closed;
    P.RunMatches(history);
    P.StreamConserves(history, k);
    assert P.SnapshotMatches(P.After(history), history, k) && P.ChannelMatches(P.After(history), history, k);
  }

  class BlockProductionTask {
    const producer: IntervalBlockProducer
    const miner: TransactionMiner
    const pool: Pool

    constructor (producer: IntervalBlockProducer, miner: TransactionMiner, pool: Pool)
      ensures this.producer == producer && this.miner == miner && this.pool == pool
    {
      this.producer, this.miner, this.pool := producer, miner, pool;
    }

    ghost predicate Valid()
      reads this, pool, producer, producer.backend
      reads miner, miner.pending, miner.pending.subscription, miner.pending.subscription.pool
    {
      producer.Valid() && miner.Valid() && miner.Pool() == pool
    }

    /** Polls the producer once; the transactions of a block that is done leave the pool. */
    method PollOnce(i: Input)
      returns (ready: bool, ghost trace: seq<Event>, ghost steps: seq<P.Event>, ghost mined: multiset<nat>)
      requires Valid()
      modifies producer, producer.backend, pool`transactions, pool`history
      ensures Valid()
      ensures Drives(producer.backend.crypto, old(producer.Snapshot()), trace, producer.Snapshot(), [], mined)
      ensures Tends(old(pool.Contents()), steps, pool.Contents(), HashSet(mined))
      ensures pool.history == old(pool.history) + steps
    {
      hide Drives, Reaches, Possible, FinishedOutcomes, OfPoll, Sane, Tends, Listed, AsSet, P.Run, P.After, P.Step;
      var r;
      r, trace := producer.PollNext(i.tick, i.rounds, i.meanwhile, i.now, i.prices);
      PollDrives(producer.backend.crypto, old(producer.Snapshot()), trace, producer.Snapshot(), r);
      mined, steps := BlockHashes(r), [];
      TendsNothing(pool.Contents());
      HashSetSum(multiset{}, multiset{});
      if r.Some? {
        var hashes := set h | h in r.value.txs;
        TendsRemove(pool.Contents(), hashes);
        pool.RemoveTransactions(hashes);
        steps := [P.Event.Remove(hashes)];
        assert hashes == HashSet(mined);
      }
      ready := r.Some?;
    }

    /** Polls the producer until it is pending. */
    method PollProducer(inputs: seq<Input>, start: nat)
      returns (next: nat, ghost trace: seq<Event>, ghost steps: seq<P.Event>, ghost mined: multiset<nat>)
      requires Valid() && start <= |inputs|
      modifies producer, producer.backend, pool`transactions, pool`history
      ensures Valid() && start <= next <= |inputs|
      ensures Drives(producer.backend.crypto, old(producer.Snapshot()), trace, producer.Snapshot(), [], mined)
      ensures Tends(old(pool.Contents()), steps, pool.Contents(), HashSet(mined))
      ensures pool.history == old(pool.history) + steps
    {
      hide Drives, Sane, Tends, HashSet, Listed, AsSet, P.Run, P.After;
      next, trace, steps, mined := start, [], [], multiset{};
      ghost var c, before := producer.backend.crypto, pool.Contents();
      NothingDriven(c, producer.Snapshot());
      TendsNothing(before);
      HashSetSum(multiset{}, multiset{});
      var ready := true;
      while ready && next < |inputs|
        invariant Valid() && start <= next <= |inputs|
        invariant Drives(c, old(producer.Snapshot()), trace, producer.Snapshot(), [], mined)
        invariant Tends(before, steps, pool.Contents(), HashSet(mined)) && pool.history == old(pool.history) + steps
        decreases |inputs| - next
      {
        ghost var middle, contents := producer.Snapshot(), pool.Contents();
        ghost var more, moves, finished;
        ready, more, moves, finished := PollOnce(inputs[next]);
        DrivesOn(c, old(producer.Snapshot()), trace, middle, [], mined, more, producer.Snapshot(), finished);
        TendsConcat(before, steps, contents, HashSet(mined), moves, pool.Contents(), HashSet(finished));
        HashSetSum(mined, finished);
        Associates(old(pool.history), steps, moves);
        trace, steps, mined := trace + more, steps + moves, mined + finished;
        next := next + 1;
      }
    }

    /** Other callers add transactions meanwhile. */
    method Admit(arrivals: seq<PendingTx>) returns (ghost steps: seq<P.Event>)
      requires Valid()
      modifies pool`transactions, pool`listeners, pool`inboxes, pool`subscribers, pool`channels, pool`history
      ensures Valid() && Tends(old(pool.Contents()), steps, pool.Contents(), {})
      ensures pool.history == old(pool.history) + steps
      ensures arrivals == [] ==> pool.channels == old(pool.channels)
    {
      hide Tends, Sane, Listed, AsSet, P.Run, P.After, P.Leads, P.Delivered, P.Step;
      steps := [];
      TendsNothing(pool.Contents());
      for i := 0 to |arrivals|
        invariant Valid() && Tends(old(pool.Contents()), steps, pool.Contents(), {})
        invariant pool.history == old(pool.history) + steps
        invariant i == 0 ==> pool.channels == old(pool.channels)
      {
        ghost var before := pool.Contents();
        var hash;
        ghost var more;
        hash, more := pool.AddTransaction(arrivals[i], Accepted);
        TendsQuietly(before, more, pool.Contents());
        TendsOn(old(pool.Contents()), steps, before, {}, more, pool.Contents());
        Associates(old(pool.history), steps, more);
        steps := steps + more;
      }
    }

    /** One round: the producer is polled, and fed with everything the stream has to offer. */
    method Round(inputs: seq<Input>, start: nat, arrivals: seq<PendingTx>)
      returns (next: nat, batch: seq<PendingTx>, ghost trace: seq<Event>, ghost steps: seq<P.Event>, ghost mined: multiset<nat>)
      requires Valid() && start <= |inputs|
      modifies producer, producer.backend, pool, miner.pending`all, miner.pending.subscription`txs
      ensures Valid() && start <= next <= |inputs| && miner.pending.Offered() == Offer([], [], [])
      ensures P.Exhausted(pool.Contents(), miner.Stream())
      ensures arrivals == [] && old(miner.pending.Offered()) == Offer([], [], []) ==> batch == []
      ensures Drives(producer.backend.crypto, old(producer.Snapshot()), trace, producer.Snapshot(), Bodies(batch), mined)
      ensures Tends(old(pool.Contents()), steps, pool.Contents(), HashSet(mined))
      ensures pool.history == old(pool.history) + steps
      ensures pool.streams[miner.Stream()].yielded == old(pool.streams[miner.Stream()].yielded) + batch
    {
      hide Drives, Sane, Tends, HashSet, Listed, AsSet, P.Run, P.After, Bodies, Builds, Step, Polls, P.Step;
      ghost var c, before := producer.backend.crypto, pool.Contents();
      next, trace, steps, mined := PollProducer(inputs, start);
      ghost var polled := pool.Contents();
      ghost var added := Admit(arrivals);
      TendsOn(before, steps, polled, HashSet(mined), added, pool.Contents());
      ghost var admitted := pool.Contents();
      ghost var states, taken;
      batch, states, taken := miner.Poll();
      PollsQuietly(admitted, taken, pool.Contents(), miner.Stream());
      TendsOn(before, steps + added, admitted, HashSet(mined), taken, pool.Contents());
      Associates(old(pool.history), steps, added);
      Associates(old(pool.history), steps + added, taken);
      steps := steps + added + taken;
      BuildsNothing(states);
      if batch == [] {
        NothingYielded();
      } else {
        ghost var fed := producer.Snapshot();
        producer.Queue(Bodies(batch));
        QueueDrives(c, fed, Bodies(batch));
        DrivesConcat(c, old(producer.Snapshot()), trace, fed, [], mined,
                     [Event.Queue(Bodies(batch))], producer.Snapshot(), Bodies(batch), multiset{});
        trace := trace + [Event.Queue(Bodies(batch))];
        assert [] + Bodies(batch) == Bodies(batch) && mined + multiset{} == mined;
      }
    }

    /**
      Drives the producer and feeds it, round after round, until the stream has nothing more to offer; `arrivals` are
      added by other callers, one batch in each round. The producer is fed exactly what the stream yields, in the
      order in which it is yielded, and exactly the transactions of the blocks that are done are removed from the pool.
     */
    method Poll(inputs: seq<Input>, arrivals: seq<seq<PendingTx>>)
      returns (ghost trace: seq<Event>, ghost steps: seq<P.Event>, ghost mined: multiset<nat>, ghost yielded: seq<PendingTx>)
      requires Valid()
      modifies producer, producer.backend, pool, miner.pending`all, miner.pending.subscription`txs
      ensures Valid() && miner.pending.Offered() == Offer([], [], [])
      ensures P.Exhausted(pool.Contents(), miner.Stream())
      ensures Drives(producer.backend.crypto, old(producer.Snapshot()), trace, producer.Snapshot(), Bodies(yielded), mined)
      ensures Tends(old(pool.Contents()), steps, pool.Contents(), HashSet(mined))
      ensures pool.history == old(pool.history) + steps
      ensures pool.streams[miner.Stream()].yielded == old(pool.streams[miner.Stream()].yielded) + yielded
      ensures YieldedAll(pool.history, miner.Stream(), pool.streams[miner.Stream()].yielded)
    {
      hide Drives, Sane, Tends, HashSet, Listed, AsSet, P.Run, P.After, Bodies, Step, P.Step, YieldedAll;
      trace, steps, mined, yielded := [], [], multiset{}, [];
      ghost var c, before := producer.backend.crypto, pool.Contents();
      NothingDriven(c, producer.Snapshot());
      NothingYielded();
      TendsNothing(before);
      HashSetSum(multiset{}, multiset{});
      var more, i, round := true, 0, 0;
      while more
        invariant Valid() && i <= |inputs|
        invariant Drives(c, old(producer.Snapshot()), trace, producer.Snapshot(), Bodies(yielded), mined)
        invariant Tends(before, steps, pool.Contents(), HashSet(mined)) && pool.history == old(pool.history) + steps
        invariant pool.streams[miner.Stream()].yielded == old(pool.streams[miner.Stream()].yielded) + yielded
        invariant round > 0 ==>
                    miner.pending.Offered() == Offer([], [], []) && P.Exhausted(pool.Contents(), miner.Stream())
        invariant !more ==> round > 0
        decreases more, if round < |arrivals| then |arrivals| - round else 0, round == 0
      {
        ghost var middle, contents := producer.Snapshot(), pool.Contents();
        var batch;
        ghost var run, moves, finished;
        i, batch, run, moves, finished := Round(inputs, i, if round < |arrivals| then arrivals[round] else []);
        DrivesConcat(c, old(producer.Snapshot()), trace, middle, Bodies(yielded), mined,
                     run, producer.Snapshot(), Bodies(batch), finished);
        BodiesConcat(yielded, batch);
        TendsConcat(before, steps, contents, HashSet(mined), moves, pool.Contents(), HashSet(finished));
        HashSetSum(mined, finished);
        Associates(old(pool.history), steps, moves);
        trace, steps, mined, yielded := trace + run, steps + moves, mined + finished, yielded + batch;
        more := batch != [];
        round := round + 1;
      }
      ExhaustedYields(pool.history, miner.Stream());
    }
  }

  lemma BodiesConcat(a: seq<PendingTx>, b: seq<PendingTx>)
    ensures Bodies(a + b) == Bodies(a) + Bodies(b)
  {
    hide Bodies;
  }

  lemma PollsQuietly(s: P.State, es: seq<P.Event>, t: P.State, k: nat)
    requires Polls(s, es, t, k)
    ensures Tends(s, es, t, {})
  {
    hide P.Leads;
    TendsQuietly(s, es, t);
  }

  lemma BuildsNothing(states: seq<seq<PendingTx>>)
    ensures Builds([], states) ==> |states| == 1 && states[0] == []
  {
  }

  lemma NothingYielded()
    ensures Bodies([]) == []
  {
  }
}

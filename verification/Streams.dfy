/** Streams of pending transactions: a snapshot of the pool first, then the subscription. */
module Streams {
  import opened Notification
  import opened Outcomes
  import opened Pool
  import opened PoolOrder
  import opened PoolRuns
  import opened Sequences

  lemma BuildsMore(xs: seq<PendingTx>, states: seq<seq<PendingTx>>, x: PendingTx, t: seq<PendingTx>)
    requires Builds(xs, states) && IsInsertion(states[|xs|], x, t)
    ensures Builds(xs + [x], states + [t])
  {
    hide IsInsertion;
  }

  /** An entry, nothing for now, or nothing ever again. */
  datatype Next = Item(tx: PendingTx) | Pending | Ended

  function Items(next: Next): seq<PendingTx> {
    if next.Item? then [next.tx] else []
  }

  /** The steps of polling stream `k`. */
  predicate OfStream(es: seq<Event>, k: nat) {
    forall i :: 0 <= i < |es| ==> es[i] == Event.Receive(k) || (es[i].Yield? && es[i].source == k)
  }

  /** The steps `es` of stream `k` lead from `s` to `t`. */
  predicate Polls(s: State, es: seq<Event>, t: State, k: nat) {
    Leads(s, es, t) && OfStream(es, k)
  }

  lemma PollsNothing(s: State, k: nat)
    ensures Polls(s, [], s, k)
  {
    LeadsNowhere(s);
  }

  lemma PollsConcat(s: State, es: seq<Event>, t: State, fs: seq<Event>, u: State, k: nat)
    requires Polls(s, es, t, k) && Polls(t, fs, u, k)
    ensures Polls(s, es + fs, u, k)
  {
    hide Leads;
    LeadsConcat(s, es, t, fs, u);
  }

  lemma PollsReceive(s: State, k: nat)
    requires Enabled(s, Event.Receive(k))
    ensures Polls(s, [Event.Receive(k)], Step(s, Event.Receive(k)), k)
  {
    hide Leads, Enabled, Step;
    LeadsNowhere(s);
    LeadsStep(s, [], s, Event.Receive(k));
    assert [] + [Event.Receive(k)] == [Event.Receive(k)];
  }

  lemma PollsYield(s: State, k: nat, item: PendingTx)
    requires Enabled(s, Event.Yield(k, item))
    ensures Polls(s, [Event.Yield(k, item)], Step(s, Event.Yield(k, item)), k)
  {
    hide Leads, Enabled, Step;
    LeadsNowhere(s);
    LeadsStep(s, [], s, Event.Yield(k, item));
    assert [] + [Event.Yield(k, item)] == [Event.Yield(k, item)];
  }

  class Subscription {
    const pool: Pool
    const stream: nat
    var txs: seq<PendingTx>

    constructor (pool: Pool, stream: nat)
      ensures this.pool == pool && this.stream == stream && txs == []
    {
      this.pool, this.stream, txs := pool, stream, [];
    }

    ghost predicate Valid()
      reads this, pool
    {
      pool.Valid() && pool.Live(stream) && multiset(txs) == pool.streams[stream].drained
    }

    ghost function Unread(): seq<PendingTx>
      requires Valid()
      reads this, pool
    {
      pool.Unread(stream)
    }

    /** Moves one entry from the channel into its place in the ordered set. */
    method TakeOne() returns (took: bool, ghost entry: PendingTx, ghost trace: seq<Event>)
      requires Valid() && pool.streams[stream].rest == []
      modifies this`txs, pool`channels, pool`streams, pool`history
      ensures Valid() && pool.streams[stream].rest == []
      ensures took <==> old(Unread()) != []
      ensures took ==> entry == old(Unread())[0] && Unread() == old(Unread())[1..] && IsInsertion(old(txs), entry, txs)
      ensures !took ==> txs == old(txs) && Unread() == []
      ensures Polls(old(pool.Contents()), trace, pool.Contents(), stream) && pool.history == old(pool.history) + trace
      ensures pool.streams[stream].yielded == old(pool.streams[stream].yielded)
    {
      hide IsInsertion, CanStand, InsertAt, Polls, Step, Listed, AsSet, Run, After;
      ghost var before := pool.Contents();
      var next := pool.Receive(stream);
      took := next.Some?;
      if took {
        PollsReceive(before, stream);
        trace := [Event.Receive(stream)];
        entry := next.value;
        var position;
        txs, position := PoolOrder.Insert(txs, next.value);
        InsertionGrows(old(txs), entry, txs);
      } else {
        PollsNothing(before, stream);
        trace := [];
        entry := PendingTx(TxId(0, 0), 0, 0, 0);
      }
    }

    /** Empties the channel into the ordered set. */
    method Drain() returns (ghost states: seq<seq<PendingTx>>, ghost trace: seq<Event>)
      requires Valid() && txs == [] && pool.streams[stream].rest == []
      modifies this`txs, pool`channels, pool`streams, pool`history
      ensures Valid() && Unread() == []
      ensures Builds(old(Unread()), states) && txs == states[|old(Unread())|]
      ensures Polls(old(pool.Contents()), trace, pool.Contents(), stream) && pool.history == old(pool.history) + trace
      ensures pool.streams[stream].rest == [] && pool.streams[stream].yielded == old(pool.streams[stream].yielded)
    {
      hide Builds, IsInsertion, Polls, Step, Listed, AsSet, Run, After;
      ghost var unread, n, before := Unread(), 0, pool.Contents();
      states, trace := [[]], [];
      NothingBuilt();
      PollsNothing(before, stream);
      assert unread[..0] == [] && unread[0..] == unread;
      var took := true;
      while took
        invariant Valid() && 0 <= n <= |unread| && Unread() == unread[n..]
        invariant !took ==> n == |unread|
        invariant Builds(unread[..n], states) && |states| == n + 1 && txs == states[n]
        invariant Polls(before, trace, pool.Contents(), stream) && pool.history == old(pool.history) + trace
        invariant pool.streams[stream].rest == [] && pool.streams[stream].yielded == old(pool.streams[stream].yielded)
        decreases took, |unread| - n
      {
        ghost var entry, steps, middle := *, *, pool.Contents();
        took, entry, steps := TakeOne();
        PollsConcat(before, trace, middle, steps, pool.Contents(), stream);
        Associates(old(pool.history), trace, steps);
        trace := trace + steps;
        if took {
          BuildsMore(unread[..n], states, entry, txs);
          assert unread[..n + 1] == unread[..n] + [unread[n]] && unread[n..][1..] == unread[n + 1..];
          states := states + [txs];
          n := n + 1;
        }
      }
      assert unread[..n] == unread;
    }

    /** The first entry in order; the channel is looked at only when nothing is left over. */
    method PollNext() returns (r: Next, ghost states: seq<seq<PendingTx>>, ghost trace: seq<Event>)
      requires Valid() && pool.streams[stream].rest == []
      modifies this`txs, pool`channels, pool`streams, pool`history
      ensures Valid() && pool.streams[stream].rest == []
      ensures old(txs) != [] ==> r == Item(old(txs)[0]) && txs == old(txs)[1..] && Unread() == old(Unread())
      ensures old(txs) == [] && old(Unread()) == [] ==>
                && r == (if stream in pool.subscribers then Pending else Ended)
                && txs == [] && Unread() == []
      ensures old(txs) == [] && old(Unread()) != [] ==>
                && r.Item? && Unread() == []
                && Builds(old(Unread()), states) && [r.tx] + txs == states[|old(Unread())|]
      ensures Polls(old(pool.Contents()), trace, pool.Contents(), stream) && pool.history == old(pool.history) + trace
      ensures pool.streams[stream].yielded == old(pool.streams[stream].yielded) + Items(r)
    {
      hide Polls, Step, Builds, Listed, AsSet, Run, After;
      states, trace := [], [];
      PollsNothing(pool.Contents(), stream);
      if txs == [] {
        states, trace := Drain();
        BuiltContents(old(Unread()), states, |old(Unread())|);
      }
      if txs != [] {
        ghost var before := pool.Contents();
        r := Item(txs[0]);
        ghost var steps := YieldFirst();
        PollsConcat(old(pool.Contents()), trace, before, steps, pool.Contents(), stream);
        Associates(old(pool.history), trace, steps);
        trace := trace + steps;
      } else if stream in pool.subscribers {
        r := Pending;
      } else {
        r := Ended;
      }
    }

    /** Pops the first entry of the ordered set. */
    method YieldFirst() returns (ghost trace: seq<Event>)
      requires Valid() && pool.streams[stream].rest == [] && txs != []
      modifies this`txs, pool`streams, pool`history
      ensures Valid() && pool.streams[stream].rest == [] && txs == old(txs)[1..]
      ensures Polls(old(pool.Contents()), trace, pool.Contents(), stream) && pool.history == old(pool.history) + trace
      ensures pool.streams[stream].yielded == old(pool.streams[stream].yielded) + [old(txs)[0]]
    {
      hide Polls, Step, Listed, AsSet, Run, After;
      ghost var before, item := pool.Contents(), txs[0];
      TailElements(txs);
      PollsYield(before, stream, item);
      YieldKeeps(before, stream, item);
      pool.RecordYield(stream, item);
      trace := [Event.Yield(stream, item)];
      txs := txs[1..];
    }
  }

  /** What a stream has to offer: the rest of the snapshot, what it has drained, what is unread. */
  datatype Offer = Offer(all: seq<PendingTx>, txs: seq<PendingTx>, unread: seq<PendingTx>)

  /** One poll: `r` comes from the first part that is not empty, and the unread part is put in order when it is reached. */
  ghost predicate NextOf(was: Offer, r: Next, now: Offer, states: seq<seq<PendingTx>>) {
    if was.all != [] then r == Item(was.all[0]) && now == was.(all := was.all[1..])
    else if was.txs != [] then r == Item(was.txs[0]) && now == was.(txs := was.txs[1..])
    else if was.unread == [] then !r.Item? && now == was
    else r.Item? && now == Offer([], now.txs, []) && Builds(was.unread, states) && [r.tx] + now.txs == states[|was.unread|]
  }

  /** What has been taken since the offer was `start`; `states` tells how the unread part was put in order. */
  ghost predicate TakenSoFar(
      start: Offer, batch: seq<PendingTx>, now: Offer, drained: bool, states: seq<seq<PendingTx>>)
  {
    if !drained then now.unread == start.unread && batch + now.all + now.txs == start.all + start.txs && states == [[]]
    else
      && now.unread == [] && now.all == [] && Builds(start.unread, states)
      && batch + now.txs == start.all + start.txs + states[|start.unread|]
  }

  lemma TakeNext(
      start: Offer, batch: seq<PendingTx>, was: Offer, drained: bool, states: seq<seq<PendingTx>>,
      r: Next, now: Offer, built: seq<seq<PendingTx>>)
    requires TakenSoFar(start, batch, was, drained, states) && NextOf(was, r, now, built) && r.Item?
    ensures var emptied := was.all == [] && was.txs == [];
            && TakenSoFar(start, batch + [r.tx], now, drained || emptied, if emptied then built else states)
            && (emptied ==> !drained)
            && (!emptied ==> |now.all| + |now.txs| < |was.all| + |was.txs|)
  {
    hide Builds;
    if was.all != [] {
      Moved(batch, was.all, was.txs);
    } else if was.txs != [] {
      Moved(batch, was.txs, []);
    }
  }

  lemma TakenAll(
      start: Offer, batch: seq<PendingTx>, was: Offer, drained: bool, states: seq<seq<PendingTx>>, r: Next, now: Offer,
      built: seq<seq<PendingTx>>)
    requires TakenSoFar(start, batch, was, drained, states) && NextOf(was, r, now, built) && !r.Item?
    ensures now == Offer([], [], []) && Builds(start.unread, states)
    ensures batch == start.all + start.txs + states[|start.unread|]
  {
    NothingBuilt();
  }

  lemma NothingTaken(start: Offer)
    ensures TakenSoFar(start, [], start, false, [[]])
  {
    assert [] + start.all + start.txs == start.all + start.txs;
  }

  /** Yielding touches nothing but the stream. */
  lemma YieldKeeps(s: State, k: nat, item: PendingTx)
    requires CanYield(s, k, item)
    ensures var t, was := Step(s, Event.Yield(k, item)), s.streams[k];
            && t.channels == s.channels && k in t.streams
            && t.streams[k].yielded == was.yielded + [item]
            && t.streams[k].rest == (if was.rest != [] then was.rest[1..] else [])
            && t.streams[k].drained == if was.rest != [] then was.drained else was.drained - multiset{item}
  {
  }

  lemma NothingBuilt()
    ensures Builds([], [[]])
  {
  }

  class PendingTransactions {
    var all: seq<PendingTx>
    const subscription: Subscription

    /** Subscribes first and takes the snapshot afterwards. */
    constructor (pool: Pool)
      requires pool.Valid()
      modifies pool`subscribers, pool`channels, pool`snapshots, pool`streams, pool`history
      ensures Valid() && fresh(subscription) && subscription.pool == pool
      ensures all == pool.transactions == old(pool.transactions) && subscription.txs == []
      ensures subscription.stream == |old(pool.channels)| && subscription.Unread() == []
      ensures pool.Contents() == Step(Step(old(pool.Contents()), Event.Subscribe), Event.TakeSnapshot(subscription.stream))
    {
      hide Run, After, Listed, AsSet;
      NoSnapshotYet(pool.history);
      var stream := pool.Subscribe();
      subscription := new Subscription(pool, stream);
      var snapshot := pool.TakeSnapshot(stream);
      all := snapshot;
    }

    ghost predicate Valid()
      reads this, subscription, subscription.pool
    {
      subscription.Valid() && all == subscription.pool.streams[subscription.stream].rest
    }

    ghost function Offered(): Offer
      requires Valid()
      reads this, subscription, subscription.pool
    {
      Offer(all, subscription.txs, subscription.Unread())
    }

    method PollNext() returns (r: Next, ghost states: seq<seq<PendingTx>>, ghost trace: seq<Event>)
      requires Valid()
      modifies this`all, subscription`txs, subscription.pool`channels, subscription.pool`streams,
               subscription.pool`history
      ensures Valid()
      ensures NextOf(old(Offered()), r, Offered(), states)
      ensures r.Ended? ==> subscription.stream !in subscription.pool.subscribers
      ensures r.Pending? ==> subscription.stream in subscription.pool.subscribers
      ensures Polls(old(subscription.pool.Contents()), trace, subscription.pool.Contents(), subscription.stream)
      ensures subscription.pool.history == old(subscription.pool.history) + trace
      ensures subscription.pool.streams[subscription.stream].yielded ==
                old(subscription.pool.streams[subscription.stream].yielded) + Items(r)
    {
      hide Polls, Step, Builds, Listed, AsSet, Run, After;
      states := [];
      if all != [] {
        ghost var before, stream := subscription.pool.Contents(), subscription.stream;
        r := Item(all[0]);
        PollsYield(before, stream, r.tx);
        YieldKeeps(before, stream, r.tx);
        subscription.pool.RecordYield(stream, r.tx);
        trace := [Event.Yield(stream, r.tx)];
        all := all[1..];
      } else {
        r, states, trace := subscription.PollNext();
      }
    }
  }

  /** Feeds the block producer from a stream. */
  class TransactionMiner {
    const pending: PendingTransactions

    constructor (pending: PendingTransactions)
      ensures this.pending == pending
    {
      this.pending := pending;
    }

    ghost predicate Valid()
      reads this, pending, pending.subscription, pending.subscription.pool
    {
      pending.Valid()
    }

    ghost function Pool(): Pool {
      pending.subscription.pool
    }

    ghost function Stream(): nat {
      pending.subscription.stream
    }

    /**
      Takes everything the stream has to offer: the rest of the snapshot, then what is left of the last drain,
      then the unread entries in pool order.
     */
    method Poll() returns (batch: seq<PendingTx>, ghost states: seq<seq<PendingTx>>, ghost trace: seq<Event>)
      requires Valid()
      modifies pending`all, pending.subscription`txs, Pool()`channels, Pool()`streams, Pool()`history
      ensures Valid() && Exhausted(Pool().Contents(), Stream()) && pending.Offered() == Offer([], [], [])
      ensures Builds(old(pending.Offered()).unread, states)
      ensures var was := old(pending.Offered()); batch == was.all + was.txs + states[|was.unread|]
      ensures Polls(old(Pool().Contents()), trace, Pool().Contents(), Stream())
      ensures Pool().history == old(Pool().history) + trace
      ensures Pool().streams[Stream()].yielded == old(Pool().streams[Stream()].yielded) + batch
    {
      hide Builds, Polls, Step, Listed, AsSet, Run, After, TakenSoFar, NextOf;
      batch, states, trace := [], [[]], [];
      ghost var start, before, drained := pending.Offered(), Pool().Contents(), false;
      PollsNothing(before, Stream());
      NothingTaken(start);
      while true
        invariant Valid()
        invariant TakenSoFar(start, batch, pending.Offered(), drained, states)
        invariant Polls(before, trace, Pool().Contents(), Stream())
        invariant Pool().history == old(Pool().history) + trace
        invariant Pool().streams[Stream()].yielded == old(Pool().streams[Stream()].yielded) + batch
        decreases !drained, |pending.all| + |pending.subscription.txs|
      {
        ghost var was, middle := pending.Offered(), Pool().Contents();
        var next;
        ghost var built, steps;
        next, built, steps := pending.PollNext();
        PollsConcat(before, trace, middle, steps, Pool().Contents(), Stream());
        Associates(old(Pool().history), trace, steps);
        trace := trace + steps;
        if !next.Item? {
          TakenAll(start, batch, was, drained, states, next, pending.Offered(), built);
          break;
        }
        TakeNext(start, batch, was, drained, states, next, pending.Offered(), built);
        batch := batch + [next.tx];
        if was.all == [] && was.txs == [] {
          drained, states := true, built;
        }
      }
    }
  }

  lemma Moved<T>(a: seq<T>, b: seq<T>, c: seq<T>)
    requires b != []
    ensures a + [b[0]] + b[1..] + c == a + b + c
  {
  }

  /** A stream that has not been opened has no snapshot. */
  lemma NoSnapshotYet(es: seq<Event>)
    requires Run(es)
    ensures |After(es).channels| !in After(es).snapshots
  {
    hide Run, After;
    StreamConserves(es, |After(es).channels|);
  }
}

/** The transaction pool and the streams it opens. */
module Pool {
  import opened Notification
  import opened Outcomes
  import opened PoolOrder
  import opened PoolRuns

  datatype Verdict = Accepted | Rejected(error: nat) | Dependent(nonce: nat, current: nat) | Failed

  datatype PoolError = InvalidTransaction(error: nat) | InvalidNonce(nonce: nat, current: nat) | Internal

  /** A bounded channel of hashes; the receiver has taken the first `taken` of `sent`. */
  datatype Inbox = Inbox(open: bool, sent: seq<nat>, taken: nat)

  /** A buffer of 2048 hashes, and one slot of the sender's own. */
  const LISTENER_SLOTS: nat := 2049

  /** A hash is sent while there is a free slot, and otherwise left out. */
  function Told(inbox: Inbox, hash: nat): Inbox {
    if inbox.open && |inbox.sent| < inbox.taken + LISTENER_SLOTS then inbox.(sent := inbox.sent + [hash]) else inbox
  }

  function OpenInboxes(inboxes: seq<Inbox>): set<nat> {
    set k | 0 <= k < |inboxes| && inboxes[k].open
  }

  function OpenChannels(channels: seq<Channel>): set<nat> {
    set k | 0 <= k < |channels| && channels[k].open
  }

  method Retain(transactions: seq<PendingTx>, hashes: set<nat>) returns (kept: seq<PendingTx>)
    ensures kept == Retained(transactions, hashes)
  {
    kept := [];
    assert transactions[0..] == transactions;
    for i := 0 to |transactions|
      invariant kept + Retained(transactions[i..], hashes) == Retained(transactions, hashes)
    {
      assert transactions[i..][1..] == transactions[i + 1..];
      if transactions[i].hash !in hashes {
        kept := kept + [transactions[i]];
      }
    }
  }

  class Pool {
    var transactions: seq<PendingTx>
    var listeners: seq<nat>
    var inboxes: seq<Inbox>
    var subscribers: seq<nat>
    var channels: seq<Channel>
    ghost var snapshots: map<nat, seq<PendingTx>>
    ghost var streams: map<nat, Stream>
    ghost var history: seq<Event>

    constructor ()
      ensures Valid() && Contents() == EMPTY_POOL && listeners == [] && inboxes == [] && history == []
    {
      transactions, listeners, inboxes, subscribers, channels := [], [], [], [], [];
      snapshots, streams, history := map[], map[], [];
    }

    /** No channel has two senders, and none has been read past its end. */
    ghost predicate Wired()
      reads this
    {
      && Listed(listeners, |inboxes|) && Listed(subscribers, |channels|)
      && (forall k :: 0 <= k < |channels| ==> channels[k].taken <= |channels[k].sent|)
    }

    /** Besides, the pool is where its history has led it. */
    ghost predicate Valid()
      reads this
    {
      Wired() && Run(history) && After(history) == Contents()
    }

    ghost function Contents(): State
      reads this
    {
      State(transactions, AsSet(subscribers), channels, snapshots, streams)
    }

    /** A channel for the hashes of new transactions. */
    method AddListener() returns (listener: nat)
      requires Valid()
      modifies this`listeners, this`inboxes
      ensures Valid() && listener == |old(inboxes)|
      ensures inboxes == old(inboxes) + [Inbox(true, [], 0)] && listeners == old(listeners) + [listener]
    {
      hide Run, After;
      listener := |inboxes|;
      assert multiset(listeners)[listener] == 0;
      inboxes := inboxes + [Inbox(true, [], 0)];
      listeners := listeners + [listener];
    }

    /** Sends the hash to every listener with a free slot, dropping only those that have gone away. */
    method NotifyListener(hash: nat)
      requires Valid()
      modifies this`listeners, this`inboxes
      ensures Valid()
      ensures Kept(listeners, old(listeners), OpenInboxes(old(inboxes)))
      ensures Served(inboxes, old(inboxes), old(listeners), inbox => Told(inbox, hash))
    {
      hide Kept, Served, SwapRemove, Run, After;
      ghost var before, was, open := listeners, inboxes, OpenInboxes(inboxes);
      ghost var serve := inbox => Told(inbox, hash);
      var n: nat := |listeners|;
      NoneServed(before, was, open, serve);
      while n > 0
        invariant n <= |listeners| && n <= |before| && listeners[..n] == before[..n]
        invariant Kept(listeners[n..], before[n..], open)
        invariant Served(inboxes, was, before[n..], serve)
      {
        n := n - 1;
        var sender := listeners[n];
        ListedOnce(before, n, |was|);
        ServedStep(inboxes, was, before, n, serve);
        KeptStep(listeners, before, n, open);
        listeners := SwapRemove(listeners, n);
        var inbox := inboxes[sender];
        inboxes := inboxes[sender := Told(inbox, hash)];
        if inbox.open {
          listeners := listeners + [sender];
        }
      }
      AllServed(listeners, inboxes, before, was, open, serve);
    }

    /** Sends the entry to every subscriber, dropping those that have gone away. */
    method NotifySubscribers(tx: PendingTx)
      requires Wired()
      modifies this`subscribers, this`channels
      ensures Wired() && Contents() == Step(old(Contents()), Event.Notify(tx))
      ensures Kept(subscribers, old(subscribers), OpenChannels(old(channels)))
    {
      hide Kept, Served, SwapRemove, DeliveredTo;
      ghost var before, was, open := subscribers, channels, OpenChannels(channels);
      ghost var serve := channel => DeliveredTo(channel, true, tx);
      var n: nat := |subscribers|;
      NoneServed(before, was, open, serve);
      while n > 0
        invariant n <= |subscribers| && n <= |before| && subscribers[..n] == before[..n]
        invariant Kept(subscribers[n..], before[n..], open)
        invariant Served(channels, was, before[n..], serve)
      {
        n := n - 1;
        var sender := subscribers[n];
        ListedOnce(before, n, |was|);
        ServedStep(channels, was, before, n, serve);
        DeliveryIs(channels, sender, tx);
        KeptStep(subscribers, before, n, open);
        subscribers := SwapRemove(subscribers, n);
        if channels[sender].open {
          channels := channels[sender := channels[sender].(sent := channels[sender].sent + [tx])];
          subscribers := subscribers + [sender];
        }
      }
      AllServed(subscribers, channels, before, was, open, serve);
      ServedIsDelivered(channels, was, before, tx, serve);
    }

    /** The announcement of an entry that has been inserted. */
    method Announce(tx: PendingTx)
      requires Valid() && InProtocol(history, Event.Notify(tx))
      modifies this`subscribers, this`channels, this`history
      ensures Valid() && Contents() == Step(old(Contents()), Event.Notify(tx))
      ensures history == old(history) + [Event.Notify(tx)]
      ensures Kept(subscribers, old(subscribers), OpenChannels(old(channels)))
    {
      hide Kept, Run, After, InProtocol, Step, Listed, AsSet;
      RunStep(history, Event.Notify(tx));
      NotifySubscribers(tx);
      history := history + [Event.Notify(tx)];
    }

    /** Puts an entry into its place in the set. */
    method InsertEntry(tx: PendingTx) returns (position: nat)
      requires Valid()
      modifies this`transactions, this`history
      ensures Valid() && Enabled(old(Contents()), Event.Insert(tx, position))
      ensures history == old(history) + [Event.Insert(tx, position)]
      ensures Contents() == Step(old(Contents()), Event.Insert(tx, position))
    {
      hide Run, After, Listed, AsSet;
      transactions, position := PoolOrder.Insert(transactions, tx);
      RunStep(history, Event.Insert(tx, position));
      history := history + [Event.Insert(tx, position)];
    }

    /** Adds a transaction that the validator found valid; any other verdict leaves the pool alone. */
    method AddTransaction(tx: PendingTx, verdict: Verdict)
      returns (r: Result<nat, PoolError>, ghost trace: seq<Event>)
      requires Valid()
      modifies this`transactions, this`listeners, this`inboxes, this`subscribers, this`channels,
               this`history
      ensures Valid()
      ensures r == match verdict
                   case Accepted => Ok(tx.hash)
                   case Rejected(error) => Err(InvalidTransaction(error))
                   case Dependent(nonce, current) => Err(InvalidNonce(nonce, current))
                   case Failed => Err(Internal)
      ensures Leads(old(Contents()), trace, Contents())
      ensures history == old(history) + trace
      ensures r.Err? ==> trace == []
      ensures r.Ok? ==> |trace| == 2 && trace[0].Insert? && trace[0].tx == tx && trace[1] == Event.Notify(tx)
      ensures r.Err? ==> Contents() == old(Contents()) && listeners == old(listeners) && inboxes == old(inboxes)
      ensures r.Ok? ==> IsInsertion(old(transactions), tx, transactions)
      ensures r.Ok? ==> Kept(listeners, old(listeners), OpenInboxes(old(inboxes)))
      ensures r.Ok? ==> Served(inboxes, old(inboxes), old(listeners), inbox => Told(inbox, tx.hash))
      ensures r.Ok? ==> Kept(subscribers, old(subscribers), OpenChannels(old(channels)))
      ensures r.Ok? ==> channels == Delivered(old(channels), AsSet(old(subscribers)), tx)
    {
      hide Kept, Served, Delivered, AsSet, Leads, Run, After, Listed;
      trace := [];
      LeadsNowhere(Contents());
      match verdict
      case Accepted =>
        var position := InsertEntry(tx);
        assert CanStand(old(transactions), tx, position);
        LeadsStep(old(Contents()), trace, old(Contents()), Event.Insert(tx, position));
        NotifyNext(old(history), tx, position);
        NotifyListener(tx.hash);
        LeadsStep(old(Contents()), trace + [Event.Insert(tx, position)], Contents(), Event.Notify(tx));
        Announce(tx);
        trace := trace + [Event.Insert(tx, position)] + [Event.Notify(tx)];
        r := Ok(tx.hash);
      case Rejected(error) => r := Err(InvalidTransaction(error));
      case Dependent(nonce, current) => r := Err(InvalidNonce(nonce, current));
      case Failed => r := Err(Internal);
    }

    method Subscribe() returns (stream: nat)
      requires Valid()
      modifies this`subscribers, this`channels, this`history
      ensures Valid() && Contents() == Step(old(Contents()), Event.Subscribe)
      ensures history == old(history) + [Event.Subscribe]
      ensures stream == |old(channels)| < |channels| && channels[stream] == Channel(true, [], 0)
    {
      hide Run, After;
      RunStep(history, Event.Subscribe);
      stream := |channels|;
      assert multiset(subscribers)[stream] == 0;
      channels := channels + [Channel(true, [], 0)];
      subscribers := subscribers + [stream];
      assert AsSet(subscribers) == AsSet(old(subscribers)) + {stream};
      history := history + [Event.Subscribe];
    }

    method TakeSnapshot(stream: nat) returns (all: seq<PendingTx>)
      requires Valid() && stream < |channels| && stream !in snapshots
      modifies this`snapshots, this`streams, this`history
      ensures Valid() && Contents() == Step(old(Contents()), Event.TakeSnapshot(stream))
      ensures history == old(history) + [Event.TakeSnapshot(stream)]
      ensures all == transactions
    {
      hide Run, After, Listed, AsSet;
      SnapshotNext(history, stream);
      RunStep(history, Event.TakeSnapshot(stream));
      all := transactions;
      snapshots := snapshots[stream := transactions];
      streams := streams[stream := Stream(transactions, multiset{}, [])];
      history := history + [Event.TakeSnapshot(stream)];
    }

    /** Drops the entries whose hash is listed. */
    method RemoveTransactions(hashes: set<nat>)
      requires Valid()
      modifies this`transactions, this`history
      ensures history == old(history) + [Event.Remove(hashes)]
      ensures Valid() && Contents() == Step(old(Contents()), Event.Remove(hashes))
    {
      hide Run, After, Listed, AsSet, Retained;
      RunStep(history, Event.Remove(hashes));
      transactions := Retain(transactions, hashes);
      history := history + [Event.Remove(hashes)];
    }

    /** The first entry with the given hash. */
    method Get(hash: nat) returns (r: Option<PendingTx>)
      ensures r.Some? ==> r.value in transactions && r.value.hash == hash
      ensures r.None? ==> forall i :: 0 <= i < |transactions| ==> transactions[i].hash != hash
    {
      for i := 0 to |transactions|
        invariant forall j :: 0 <= j < i ==> transactions[j].hash != hash
      {
        if transactions[i].hash == hash {
          return Some(transactions[i]);
        }
      }
      r := None;
    }

    /** Everything sent on a channel that its receiver has not taken yet. */
    function Unread(stream: nat): seq<PendingTx>
      requires stream < |channels| && channels[stream].taken <= |channels[stream].sent|
      reads this
    {
      channels[stream].sent[channels[stream].taken..]
    }

    /** A stream that is used: its receiver is there. */
    ghost predicate Live(stream: nat)
      reads this
    {
      stream in streams && stream < |channels| && channels[stream].open
    }

    /** Takes the next entry off a channel, once the snapshot has been used up. */
    method Receive(stream: nat) returns (r: Option<PendingTx>)
      requires Valid() && Live(stream) && streams[stream].rest == []
      modifies this`channels, this`streams, this`history
      ensures Valid() && Live(stream)
      ensures old(Unread(stream)) == [] <==> r.None?
      ensures history == old(history) + if r.Some? then [Event.Receive(stream)] else []
      ensures r.None? ==> Contents() == old(Contents())
      ensures r.Some? ==>
                && Enabled(old(Contents()), Event.Receive(stream))
                && Contents() == Step(old(Contents()), Event.Receive(stream))
                && r.value == old(Unread(stream))[0] && Unread(stream) == old(Unread(stream))[1..]
                && streams[stream] == old(streams)[stream].(drained := old(streams)[stream].drained + multiset{r.value})
    {
      hide Run, After, Listed, AsSet;
      var c := channels[stream];
      if c.taken < |c.sent| {
        RunStep(history, Event.Receive(stream));
        history := history + [Event.Receive(stream)];
        r := Some(c.sent[c.taken]);
        channels := channels[stream := c.(taken := c.taken + 1)];
        streams := streams[stream := streams[stream].(drained := streams[stream].drained + multiset{r.value})];
      } else {
        r := None;
      }
    }

    /** Records that a stream yields an entry. */
    ghost method RecordYield(stream: nat, item: PendingTx)
      requires Valid() && Enabled(Contents(), Event.Yield(stream, item))
      modifies this`streams, this`history
      ensures history == old(history) + [Event.Yield(stream, item)]
      ensures Valid() && Contents() == Step(old(Contents()), Event.Yield(stream, item))
    {
      hide Run, After, Listed, AsSet;
      RunStep(history, Event.Yield(stream, item));
      streams := Yielded(Contents(), stream, item).streams;
      history := history + [Event.Yield(stream, item)];
    }
  }

  lemma DeliveryIs(channels: seq<Channel>, k: nat, tx: PendingTx)
    requires k < |channels|
    ensures var c := channels[k];
            channels[k := DeliveredTo(c, true, tx)] ==
            if c.open then channels[k := c.(sent := c.sent + [tx])] else channels
  {
  }

  lemma ServedIsDelivered(channels: seq<Channel>, was: seq<Channel>, before: seq<nat>, tx: PendingTx, serve: Channel -> Channel)
    requires Served(channels, was, before, serve) && forall c :: serve(c) == DeliveredTo(c, true, tx)
    requires forall k :: 0 <= k < |was| ==> was[k].taken <= |was[k].sent|
    ensures channels == Delivered(was, AsSet(before), tx)
    ensures forall k :: 0 <= k < |channels| ==> channels[k].taken <= |channels[k].sent|
    ensures AsSet(before) * OpenChannels(was) == set k | k in AsSet(before) && k < |was| && was[k].open
  {
  }

  /** An announcement follows its insertion. */
  lemma NotifyNext(es: seq<Event>, tx: PendingTx, position: nat)
    requires Run(es)
    ensures InProtocol(es + [Event.Insert(tx, position)], Event.Notify(tx))
  {
    var fs := es + [Event.Insert(tx, position)];
    assert Earlier(fs) == es && Last(fs) == Event.Insert(tx, position);
    NotifiedInserted(es, tx);
  }

  lemma SnapshotNext(es: seq<Event>, k: nat)
    requires Run(es) && k < |After(es).channels| && k !in After(es).snapshots
    ensures InProtocol(es, Event.TakeSnapshot(k))
  {
    hide Run, After, Streams, Snapshotted;
    RunMatches(es);
    assert SnapshotMatches(After(es), es, k);
  }
}

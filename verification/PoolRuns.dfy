/**
  The pool under interleaving: adding a transaction inserts and then notifies, opening a stream
  subscribes and then takes a snapshot, polling a stream receives and yields, and every other step
  may come in between.
 */
module PoolRuns {
  import opened PoolOrder

  /** `sent` is everything ever sent on the channel; the receiver has taken the first `taken` of it. */
  datatype Channel = Channel(open: bool, sent: seq<PendingTx>, taken: nat)

  /** What is left of the snapshot, what has been received but not yielded, and everything yielded so far. */
  datatype Stream = Stream(rest: seq<PendingTx>, drained: multiset<PendingTx>, yielded: seq<PendingTx>)

  datatype State = State(
    transactions: seq<PendingTx>, subscribers: set<nat>, channels: seq<Channel>,
    snapshots: map<nat, seq<PendingTx>>, streams: map<nat, Stream>)

  const EMPTY_POOL: State := State([], {}, [], map[], map[])

  datatype Event =
    | Insert(tx: PendingTx, position: nat)
    | Notify(note: PendingTx)
    | Subscribe
    | TakeSnapshot(stream: nat)
    | Remove(hashes: set<nat>)
    | Close(closed: nat)
    | Receive(receiver: nat)
    | Yield(source: nat, item: PendingTx)

  // ---- Steps ------------------------------------------------------------

  /** Every open channel with a subscriber gets one copy. */
  function Delivered(channels: seq<Channel>, subscribers: set<nat>, tx: PendingTx): (r: seq<Channel>)
    ensures |r| == |channels|
    ensures forall k :: 0 <= k < |channels| ==> r[k] == DeliveredTo(channels[k], k in subscribers, tx)
  {
    seq(|channels|, k requires 0 <= k < |channels| => DeliveredTo(channels[k], k in subscribers, tx))
  }

  function DeliveredTo(channel: Channel, subscribed: bool, tx: PendingTx): Channel {
    if subscribed && channel.open then channel.(sent := channel.sent + [tx]) else channel
  }

  /** The entries whose hash is not listed. */
  function Retained(s: seq<PendingTx>, hashes: set<nat>): seq<PendingTx> {
    if s == [] then [] else (if s[0].hash in hashes then [] else [s[0]]) + Retained(s[1..], hashes)
  }

  predicate Enabled(s: State, e: Event) {
    match e
    case Insert(tx, p) => CanStand(s.transactions, tx, p)
    case TakeSnapshot(k) => k < |s.channels|
    case Close(k) => k < |s.channels|
    case Receive(k) => CanReceive(s, k)
    case Yield(k, item) => CanYield(s, k, item)
    case _ => true
  }

  /** The channel is looked at only once the snapshot has been used up. */
  predicate CanReceive(s: State, k: nat) {
    && k in s.streams && k < |s.channels|
    && s.channels[k].open && s.channels[k].taken < |s.channels[k].sent| && s.streams[k].rest == []
  }

  /** The snapshot comes in order, then anything received. */
  predicate CanYield(s: State, k: nat, item: PendingTx) {
    && k in s.streams && k < |s.channels| && s.channels[k].open
    && if s.streams[k].rest != [] then item == s.streams[k].rest[0] else item in s.streams[k].drained
  }

  function Received(s: State, k: nat): State
    requires CanReceive(s, k)
  {
    var c, stream := s.channels[k], s.streams[k];
    s.(channels := s.channels[k := c.(taken := c.taken + 1)],
       streams := s.streams[k := stream.(drained := stream.drained + multiset{c.sent[c.taken]})])
  }

  function Yielded(s: State, k: nat, item: PendingTx): State
    requires CanYield(s, k, item)
  {
    var stream := s.streams[k];
    var next := if stream.rest != [] then stream.(rest := stream.rest[1..])
      else stream.(drained := stream.drained - multiset{item});
    s.(streams := s.streams[k := next.(yielded := stream.yielded + [item])])
  }

  function Step(s: State, e: Event): State
    requires Enabled(s, e)
  {
    match e
    case Insert(tx, p) => s.(transactions := InsertAt(s.transactions, tx, p))
    case Notify(tx) =>
      s.(channels := Delivered(s.channels, s.subscribers, tx),
         subscribers := set k | k in s.subscribers && k < |s.channels| && s.channels[k].open)
    case Subscribe => s.(subscribers := s.subscribers + {|s.channels|}, channels := s.channels + [Channel(true, [], 0)])
    case TakeSnapshot(k) =>
      s.(snapshots := s.snapshots[k := s.transactions],
         streams := s.streams[k := Stream(s.transactions, multiset{}, [])])
    case Remove(hashes) => s.(transactions := Retained(s.transactions, hashes))
    case Close(k) => s.(channels := s.channels[k := s.channels[k].(open := false)])
    case Receive(k) => Received(s, k)
    case Yield(k, item) => Yielded(s, k, item)
  }

  /** The steps `es` lead from `s` to `t`. */
  predicate Leads(s: State, es: seq<Event>, t: State)
    decreases |es|
  {
    if es == [] then s == t else Enabled(s, es[0]) && Leads(Step(s, es[0]), es[1..], t)
  }

  lemma {:induction false} LeadsConcat(s: State, es: seq<Event>, t: State, fs: seq<Event>, u: State)
    requires Leads(s, es, t) && Leads(t, fs, u)
    ensures Leads(s, es + fs, u)
    decreases |es|
  {
    hide Step, Enabled;
    if es == [] {
      assert es + fs == fs;
    } else {
      LeadsConcat(Step(s, es[0]), es[1..], t, fs, u);
      assert (es + fs)[1..] == es[1..] + fs;
    }
  }

  lemma LeadsStep(s: State, es: seq<Event>, t: State, e: Event)
    requires Leads(s, es, t) && Enabled(t, e)
    ensures Leads(s, es + [e], Step(t, e))
  {
    hide Step, Enabled;
    assert [e][1..] == [];
    assert Leads(Step(t, e), [], Step(t, e));
    LeadsConcat(s, es, t, [e], Step(t, e));
  }

  lemma LeadsNowhere(s: State)
    ensures Leads(s, [], s)
  {
  }

  // ---- What happened, read off the events -------------------------------

  function Last(es: seq<Event>): Event
    requires es != []
  {
    es[|es| - 1]
  }

  function Earlier(es: seq<Event>): seq<Event>
    requires es != []
  {
    es[..|es| - 1]
  }

  /** How often `t` has been inserted; entries can be equal, when ranks are tips and not arrival numbers. */
  function Insertions(es: seq<Event>, t: PendingTx): nat {
    if es == [] then 0 else One(Last(es).Insert? && Last(es).tx == t) + Insertions(Earlier(es), t)
  }

  /** How many additions of `t` have completed. */
  function Notifications(es: seq<Event>, t: PendingTx): nat {
    if es == [] then 0 else One(Last(es) == Notify(t)) + Notifications(Earlier(es), t)
  }

  /** How often `t` has been inserted since its hash was last removed. */
  function Present(es: seq<Event>, t: PendingTx): nat {
    if es == [] || (Last(es).Remove? && t.hash in Last(es).hashes) then 0
    else One(Last(es).Insert? && Last(es).tx == t) + Present(Earlier(es), t)
  }

  function One(b: bool): nat {
    if b then 1 else 0
  }

  function Streams(es: seq<Event>): nat {
    if es == [] then 0 else (if Last(es).Subscribe? then 1 else 0) + Streams(Earlier(es))
  }

  predicate Closed(es: seq<Event>, k: nat) {
    es != [] && (Last(es) == Close(k) || Closed(Earlier(es), k))
  }

  predicate Snapshotted(es: seq<Event>, k: nat) {
    es != [] && (Last(es) == TakeSnapshot(k) || Snapshotted(Earlier(es), k))
  }

  /** How often `t` was in the pool when stream `k` took its snapshot. */
  function PresentAtSnapshot(es: seq<Event>, k: nat, t: PendingTx): nat {
    if es == [] then 0
    else if Last(es) == TakeSnapshot(k) then Present(Earlier(es), t)
    else PresentAtSnapshot(Earlier(es), k, t)
  }

  /** How often `t` had been inserted when stream `k` took its snapshot, whether or not it was still there. */
  function InsertedBeforeSnapshot(es: seq<Event>, k: nat, t: PendingTx): nat {
    if es == [] then 0
    else if Last(es) == TakeSnapshot(k) then Insertions(Earlier(es), t)
    else InsertedBeforeSnapshot(Earlier(es), k, t)
  }

  /** How often `t` was announced after stream `k` subscribed, and before it was closed. */
  function NotifiedSince(es: seq<Event>, k: nat, t: PendingTx): nat {
    if es == [] then 0
    else One(Last(es) == Notify(t) && k < Streams(Earlier(es)) && !Closed(Earlier(es), k)) +
         NotifiedSince(Earlier(es), k, t)
  }

  // ---- Runs -------------------------------------------------------------

  /** The order of steps within one call: insert, then notify; subscribe, then take one snapshot. */
  predicate InProtocol(es: seq<Event>, e: Event) {
    match e
    case Notify(t) => Notifications(es, t) < Insertions(es, t)
    case TakeSnapshot(k) => k < Streams(es) && !Snapshotted(es, k)
    case Close(k) => k < Streams(es)
    case _ => true
  }

  predicate Run(es: seq<Event>)
    decreases |es|, 0
  {
    es == [] || (Run(Earlier(es)) && InProtocol(Earlier(es), Last(es)) && Enabled(After(Earlier(es)), Last(es)))
  }

  function After(es: seq<Event>): State
    requires Run(es)
    decreases |es|, 1
  {
    if es == [] then EMPTY_POOL else Step(After(Earlier(es)), Last(es))
  }

  // ---- The invariant ----------------------------------------------------

  ghost predicate PoolMatches(s: State, es: seq<Event>) {
    forall t :: multiset(s.transactions)[t] == Present(es, t)
  }

  ghost predicate ChannelMatches(s: State, es: seq<Event>, k: nat)
    requires k < |s.channels|
  {
    && s.channels[k].open == !Closed(es, k)
    && (s.channels[k].open ==> k in s.subscribers)
    && forall t :: multiset(s.channels[k].sent)[t] == NotifiedSince(es, k, t)
  }

  ghost predicate SnapshotMatches(s: State, es: seq<Event>, k: nat) {
    && (k in s.snapshots <==> Snapshotted(es, k))
    && (k in s.snapshots ==> forall t :: multiset(s.snapshots[k])[t] == PresentAtSnapshot(es, k, t))
  }

  ghost predicate Matches(s: State, es: seq<Event>) {
    && PoolMatches(s, es)
    && |s.channels| == Streams(es)
    && (forall k: nat :: k < |s.channels| ==> ChannelMatches(s, es, k))
    && (forall k: nat :: SnapshotMatches(s, es, k))
  }

  lemma {:induction false} PresentInserted(es: seq<Event>, t: PendingTx)
    ensures Present(es, t) <= Insertions(es, t)
  {
    if es != [] { PresentInserted(Earlier(es), t); }
  }

  lemma {:induction false} NotifiedSinceNotified(es: seq<Event>, k: nat, t: PendingTx)
    ensures NotifiedSince(es, k, t) <= Notifications(es, t)
  {
    if es != [] { NotifiedSinceNotified(Earlier(es), k, t); }
  }

  lemma {:induction false} ClosedSubscribed(es: seq<Event>, k: nat)
    requires Run(es) && Closed(es, k)
    ensures k < Streams(es)
  {
    hide Step, Enabled;
    if Last(es) != Close(k) { ClosedSubscribed(Earlier(es), k); }
  }

  lemma {:induction false} NotifiedSubscribed(es: seq<Event>, k: nat, t: PendingTx)
    requires NotifiedSince(es, k, t) > 0
    ensures k < Streams(es)
  {
    if NotifiedSince(Earlier(es), k, t) > 0 { NotifiedSubscribed(Earlier(es), k, t); }
  }

  lemma {:induction false} RetainedCount(s: seq<PendingTx>, hashes: set<nat>, t: PendingTx)
    ensures multiset(Retained(s, hashes))[t] == if t.hash in hashes then 0 else multiset(s)[t]
  {
    if s != [] {
      RetainedCount(s[1..], hashes, t);
      assert s == [s[0]] + s[1..];
    }
  }

  lemma InsertAtCount(s: seq<PendingTx>, x: PendingTx, p: nat, t: PendingTx)
    requires p <= |s|
    ensures multiset(InsertAt(s, x, p))[t] == multiset(s)[t] + One(t == x)
  {
    assert s == s[..p] + s[p..];
  }

  lemma PoolStep(s: State, es: seq<Event>)
    requires es != [] && PoolMatches(s, Earlier(es)) && InProtocol(Earlier(es), Last(es)) && Enabled(s, Last(es))
    ensures PoolMatches(Step(s, Last(es)), es)
  {
    hide InsertAt, CanStand, Retained, Delivered;
    var e := Last(es);
    forall t ensures multiset(Step(s, e).transactions)[t] == Present(es, t) {
      assert multiset(s.transactions)[t] == Present(Earlier(es), t);
      if e.Insert? {
        PositionInRange(s, e);
        InsertAtCount(s.transactions, e.tx, e.position, t);
      }
      if e.Remove? { RetainedCount(s.transactions, e.hashes, t); }
    }
  }

  lemma PositionInRange(s: State, e: Event)
    requires e.Insert? && Enabled(s, e)
    ensures e.position <= |s.transactions|
  {
  }

  lemma ChannelStep(s: State, es: seq<Event>, k: nat)
    requires es != [] && InProtocol(Earlier(es), Last(es)) && Enabled(s, Last(es))
    requires |s.channels| == Streams(Earlier(es)) && k < |s.channels| && ChannelMatches(s, Earlier(es), k)
    ensures k < |Step(s, Last(es)).channels| && ChannelMatches(Step(s, Last(es)), es, k)
  {
    hide InsertAt, CanStand, Retained, Delivered;
    var e := Last(es);
    var t := Step(s, e);
    assert t.channels[k] == if e.Notify? then DeliveredTo(s.channels[k], k in s.subscribers, e.note)
                            else if e == Close(k) then s.channels[k].(open := false)
                            else if e == Receive(k) then s.channels[k].(taken := s.channels[k].taken + 1)
                            else s.channels[k];
    forall x ensures multiset(t.channels[k].sent)[x] == NotifiedSince(es, k, x) {
      assert multiset(s.channels[k].sent)[x] == NotifiedSince(Earlier(es), k, x);
    }
  }

  lemma NewChannel(s: State, es: seq<Event>)
    requires es != [] && Run(es) && Last(es).Subscribe? && |s.channels| == Streams(Earlier(es))
    ensures var t := Step(s, Last(es));
            |s.channels| < |t.channels| && ChannelMatches(t, es, |s.channels|)
  {
    hide InsertAt, CanStand, Retained, Delivered;
    var k := |s.channels|;
    if Closed(Earlier(es), k) { ClosedSubscribed(Earlier(es), k); }
    var t := Step(s, Last(es));
    assert t.channels[k] == Channel(true, [], 0);
    forall x ensures multiset(t.channels[k].sent)[x] == NotifiedSince(es, k, x) {
      if NotifiedSince(Earlier(es), k, x) > 0 { NotifiedSubscribed(Earlier(es), k, x); }
    }
  }

  lemma SnapshotStep(s: State, es: seq<Event>, k: nat)
    requires es != [] && Enabled(s, Last(es)) && PoolMatches(s, Earlier(es)) && SnapshotMatches(s, Earlier(es), k)
    ensures SnapshotMatches(Step(s, Last(es)), es, k)
  {
    hide InsertAt, CanStand, Retained, Delivered, Present;
  }

  lemma {:induction false} RunMatches(es: seq<Event>)
    requires Run(es)
    ensures Matches(After(es), es)
  {
    hide Step, Enabled, InProtocol, PoolMatches, ChannelMatches, SnapshotMatches;
    if es == [] {
      EmptyMatches();
    } else {
      var s := After(Earlier(es));
      RunMatches(Earlier(es));
      PoolStep(s, es);
      ChannelCount(s, es);
      forall k: nat | k < |After(es).channels| ensures ChannelMatches(After(es), es, k) {
        if k < |s.channels| { ChannelStep(s, es, k); } else { NewChannel(s, es); }
      }
      forall k: nat ensures SnapshotMatches(After(es), es, k) {
        SnapshotStep(s, es, k);
      }
    }
  }

  lemma EmptyMatches()
    ensures Matches(EMPTY_POOL, [])
  {
  }

  lemma ChannelCount(s: State, es: seq<Event>)
    requires es != [] && Enabled(s, Last(es)) && |s.channels| == Streams(Earlier(es))
    ensures |Step(s, Last(es)).channels| == Streams(es)
    ensures |Step(s, Last(es)).channels| == |s.channels| + One(Last(es).Subscribe?)
  {
    hide InsertAt, CanStand, Retained, Delivered;
  }

  // ---- What a stream receives -------------------------------------------

  /** How often `t` reaches stream `k`: from its snapshot and from its channel. */
  function Copies(s: State, k: nat, t: PendingTx): nat
    requires k < |s.channels| && k in s.snapshots
  {
    multiset(s.snapshots[k])[t] + multiset(s.channels[k].sent)[t]
  }

  /** A copy for each that was in the pool at the snapshot, and for each that was announced after the subscription. */
  lemma CopiesReceived(es: seq<Event>, k: nat, t: PendingTx)
    requires Run(es) && k < Streams(es) && Snapshotted(es, k)
    ensures k < |After(es).channels| && k in After(es).snapshots
    ensures Copies(After(es), k, t) == PresentAtSnapshot(es, k, t) + NotifiedSince(es, k, t)
  {
    hide Run, After, PresentAtSnapshot, NotifiedSince, Snapshotted, Streams;
    RunMatches(es);
    assert ChannelMatches(After(es), es, k) && SnapshotMatches(After(es), es, k);
  }

  /** What was not announced after the subscription had been inserted before the snapshot. */
  lemma {:induction false} NotifiedOrInserted(es: seq<Event>, k: nat, t: PendingTx)
    requires Run(es) && Snapshotted(es, k) && !Closed(es, k)
    ensures Notifications(es, t) <= InsertedBeforeSnapshot(es, k, t) + NotifiedSince(es, k, t)
  {
    hide Step, Enabled;
    if Last(es) == TakeSnapshot(k) {
      NotifiedInserted(Earlier(es), t);
    } else {
      NotifiedOrInserted(Earlier(es), k, t);
      SnapshottedSubscribed(Earlier(es), k);
    }
  }

  lemma {:induction false} SnapshottedSubscribed(es: seq<Event>, k: nat)
    requires Run(es) && Snapshotted(es, k)
    ensures k < Streams(es)
  {
    hide Step, Enabled;
    if Last(es) != TakeSnapshot(k) { SnapshottedSubscribed(Earlier(es), k); }
  }

  lemma {:induction false} NotifiedInserted(es: seq<Event>, t: PendingTx)
    requires Run(es)
    ensures Notifications(es, t) <= Insertions(es, t)
  {
    hide Step, Enabled;
    if es != [] { NotifiedInserted(Earlier(es), t); }
  }

  lemma {:induction false} SnapshotInserted(es: seq<Event>, k: nat, t: PendingTx)
    ensures PresentAtSnapshot(es, k, t) <= InsertedBeforeSnapshot(es, k, t) <= Insertions(es, t)
  {
    if es != [] {
      SnapshotInserted(Earlier(es), k, t);
      PresentInserted(Earlier(es), t);
    }
  }

  /** How many copies were removed from the pool before stream `k` took its snapshot. */
  function RemovedBeforeSnapshot(es: seq<Event>, k: nat, t: PendingTx): nat {
    SnapshotInserted(es, k, t);
    InsertedBeforeSnapshot(es, k, t) - PresentAtSnapshot(es, k, t)
  }

  /**
    Every completed addition reaches every open stream, except for copies that were removed before the snapshot; and
    nothing reaches it more than twice for each time it was inserted.
   */
  lemma NothingMissed(es: seq<Event>, k: nat, t: PendingTx)
    requires Run(es) && Snapshotted(es, k) && !Closed(es, k)
    ensures k < |After(es).channels| && k in After(es).snapshots
    ensures Notifications(es, t) <= Copies(After(es), k, t) + RemovedBeforeSnapshot(es, k, t)
    ensures Copies(After(es), k, t) <= 2 * Insertions(es, t)
  {
    hide Run, After, PresentAtSnapshot, NotifiedSince, Snapshotted, InsertedBeforeSnapshot, Notifications, Insertions,
      Closed, Copies;
    SnapshottedSubscribed(es, k);
    CopiesReceived(es, k, t);
    NotifiedOrInserted(es, k, t);
    SnapshotInserted(es, k, t);
    NotifiedSinceNotified(es, k, t);
    NotifiedInserted(es, t);
  }

  /** The sender of an open stream is kept, so the stream never ends. */
  lemma OpenStreamLasts(es: seq<Event>, k: nat)
    requires Run(es) && k < Streams(es) && !Closed(es, k)
    ensures k in After(es).subscribers
  {
    hide Run, After, Closed, Streams;
    RunMatches(es);
    assert ChannelMatches(After(es), es, k);
  }

  // ---- What a stream yields ---------------------------------------------

  /** Everything a stream got, from its snapshot and its channel, has been yielded or is still waiting in it. */
  ghost predicate Balanced(s: State, k: nat)
    requires k < |s.channels| && k in s.streams && k in s.snapshots && s.channels[k].taken <= |s.channels[k].sent|
  {
    var c, stream := s.channels[k], s.streams[k];
    multiset(stream.yielded) + multiset(stream.rest) + stream.drained + multiset(c.sent[c.taken..])
    == multiset(s.snapshots[k]) + multiset(c.sent)
  }

  ghost predicate StreamAccount(s: State, k: nat) {
    && (k in s.streams <==> k in s.snapshots)
    && (k in s.streams ==> k < |s.channels|)
    && (k < |s.channels| ==> s.channels[k].taken <= |s.channels[k].sent|)
    && (k < |s.channels| && k !in s.streams ==> s.channels[k].taken == 0)
    && (k in s.streams ==> Balanced(s, k))
  }

  lemma ReceiveBalanced(s: State, k: nat)
    requires CanReceive(s, k) && StreamAccount(s, k)
    ensures StreamAccount(Received(s, k), k)
  {
    var c := s.channels[k];
    assert c.sent[c.taken..] == [c.sent[c.taken]] + c.sent[c.taken + 1..];
    var t := Received(s, k);
    assert t.channels[k] == c.(taken := c.taken + 1);
  }

  lemma YieldBalanced(s: State, k: nat, item: PendingTx)
    requires CanYield(s, k, item) && StreamAccount(s, k)
    ensures StreamAccount(Yielded(s, k, item), k)
  {
    var stream, t := s.streams[k], Yielded(s, k, item);
    assert multiset(t.streams[k].yielded) == multiset(stream.yielded) + multiset{item};
    if stream.rest != [] {
      assert stream.rest == [item] + stream.rest[1..];
    }
  }

  lemma BothGrow<T>(a: multiset<T>, b: multiset<T>, c: multiset<T>, d: multiset<T>, x: T)
    requires a + b == c + d
    ensures a + (b + multiset{x}) == c + (d + multiset{x})
  {
    assert a + (b + multiset{x}) == (a + b) + multiset{x};
    assert c + (d + multiset{x}) == (c + d) + multiset{x};
  }

  lemma NotifyBalanced(s: State, k: nat, tx: PendingTx)
    requires StreamAccount(s, k)
    ensures StreamAccount(Step(s, Notify(tx)), k)
  {
    hide Delivered;
    if k < |s.channels| {
      var c, t := s.channels[k], Step(s, Notify(tx));
      var d := t.channels[k];
      assert d == DeliveredTo(c, k in s.subscribers, tx);
      if d != c {
        assert d.sent == c.sent + [tx] && d.taken == c.taken;
        assert d.sent[d.taken..] == c.sent[c.taken..] + [tx];
        assert multiset(d.sent) == multiset(c.sent) + multiset{tx};
        assert multiset(d.sent[d.taken..]) == multiset(c.sent[c.taken..]) + multiset{tx};
        if k in s.streams {
          assert Balanced(s, k) && t.streams[k] == s.streams[k] && t.snapshots[k] == s.snapshots[k];
          var stream := s.streams[k];
          BothGrow(multiset(stream.yielded) + multiset(stream.rest) + stream.drained, multiset(c.sent[c.taken..]),
                   multiset(s.snapshots[k]), multiset(c.sent), tx);
          assert Balanced(t, k);
        }
      }
    }
  }

  lemma SnapshotBalanced(s: State, k: nat)
    requires StreamAccount(s, k) && k < |s.channels| && k !in s.snapshots
    ensures StreamAccount(Step(s, TakeSnapshot(k)), k)
  {
    var c := s.channels[k];
    assert c.sent[0..] == c.sent;
  }

  /** Every other step leaves the stream as it is. */
  lemma OtherBalanced(s: State, e: Event, k: nat)
    requires Enabled(s, e) && StreamAccount(s, k)
    requires !e.Notify? && e != TakeSnapshot(k) && e != Receive(k) && !(e.Yield? && e.source == k)
    ensures StreamAccount(Step(s, e), k)
  {
    hide InsertAt, CanStand, Retained;
  }

  lemma AccountStep(s: State, es: seq<Event>, k: nat)
    requires es != [] && InProtocol(Earlier(es), Last(es)) && Enabled(s, Last(es))
    requires SnapshotMatches(s, Earlier(es), k) && StreamAccount(s, k)
    ensures StreamAccount(Step(s, Last(es)), k)
  {
    hide StreamAccount, Received, Yielded, Delivered, InsertAt, CanStand, Retained, CanReceive, CanYield;
    var e := Last(es);
    if e.Notify? {
      NotifyBalanced(s, k, e.note);
    } else if e == TakeSnapshot(k) {
      SnapshotBalanced(s, k);
    } else if e == Receive(k) {
      ReceiveBalanced(s, k);
    } else if e.Yield? && e.source == k {
      YieldBalanced(s, k, e.item);
    } else {
      OtherBalanced(s, e, k);
    }
  }

  /**
    Over every run: what a stream has yielded, what is left of its snapshot, what it has received but not yielded
    and what is unread in its channel are together its snapshot and everything sent to it.
   */
  lemma {:induction false} StreamConserves(es: seq<Event>, k: nat)
    requires Run(es)
    ensures StreamAccount(After(es), k)
  {
    hide Step, Enabled, InProtocol, StreamAccount, PoolMatches, ChannelMatches, SnapshotMatches;
    if es == [] {
      EmptyAccount(k);
    } else {
      StreamConserves(Earlier(es), k);
      RunMatches(Earlier(es));
      assert SnapshotMatches(After(Earlier(es)), Earlier(es), k);
      AccountStep(After(Earlier(es)), es, k);
    }
  }

  lemma EmptyAccount(k: nat)
    ensures StreamAccount(EMPTY_POOL, k)
  {
  }

  /** Nothing is waiting in the stream. */
  predicate Exhausted(s: State, k: nat)
    requires k < |s.channels| && k in s.streams
  {
    s.streams[k].rest == [] && s.streams[k].drained == multiset{} && s.channels[k].taken == |s.channels[k].sent|
  }

  lemma YieldedCount(s: State, k: nat, t: PendingTx)
    requires StreamAccount(s, k) && k in s.streams
    ensures k < |s.channels| && k in s.snapshots
    ensures multiset(s.streams[k].yielded)[t] <= Copies(s, k, t)
    ensures Exhausted(s, k) ==> multiset(s.streams[k].yielded)[t] == Copies(s, k, t)
  {
    var c, stream := s.channels[k], s.streams[k];
    assert Balanced(s, k);
    var left := multiset(stream.yielded) + multiset(stream.rest) + stream.drained + multiset(c.sent[c.taken..]);
    assert left[t] == Copies(s, k, t);
    if Exhausted(s, k) { assert c.sent[c.taken..] == []; }
  }

  /**
    An exhausted open stream has yielded exactly what was in the pool at its snapshot and what was announced after its
    subscription: every completed addition, except for copies that were removed before the snapshot.
   */
  lemma StreamYields(es: seq<Event>, k: nat, t: PendingTx)
    requires Run(es) && Snapshotted(es, k) && !Closed(es, k)
    requires k < |After(es).channels| && k in After(es).streams && Exhausted(After(es), k)
    ensures var yielded := multiset(After(es).streams[k].yielded)[t];
            && yielded == PresentAtSnapshot(es, k, t) + NotifiedSince(es, k, t)
            && Notifications(es, t) <= yielded + RemovedBeforeSnapshot(es, k, t)
  {
    hide Run, After, Notifications, Snapshotted, Closed, RemovedBeforeSnapshot, PresentAtSnapshot, NotifiedSince,
      StreamAccount, Copies;
    SnapshottedSubscribed(es, k);
    CopiesReceived(es, k, t);
    NothingMissed(es, k, t);
    StreamConserves(es, k);
    YieldedCount(After(es), k, t);
  }

  /**
    So an entry that was added once, and not removed before the snapshot, is yielded once, or twice exactly when it was
    in the snapshot and was announced after the subscription.
   */
  lemma StreamYieldsOnce(es: seq<Event>, k: nat, t: PendingTx)
    requires Run(es) && Snapshotted(es, k) && !Closed(es, k)
    requires k < |After(es).channels| && k in After(es).streams && Exhausted(After(es), k)
    requires Notifications(es, t) == Insertions(es, t) == 1 && RemovedBeforeSnapshot(es, k, t) == 0
    ensures var yielded := multiset(After(es).streams[k].yielded)[t];
            && 1 <= yielded <= 2
            && (yielded == 2 <==> PresentAtSnapshot(es, k, t) == 1 && NotifiedSince(es, k, t) == 1)
  {
    hide Run, After, Notifications, Insertions, Snapshotted, Closed, InsertedBeforeSnapshot, PresentAtSnapshot,
      NotifiedSince, Exhausted;
    StreamYields(es, k, t);
    SnapshotInserted(es, k, t);
    NotifiedSinceNotified(es, k, t);
  }

  /** Nothing else is yielded, and nothing more often than that, however far the stream has been polled. */
  lemma StreamYieldsAtMost(es: seq<Event>, k: nat, t: PendingTx)
    requires Run(es) && Snapshotted(es, k)
    ensures k in After(es).streams
    ensures multiset(After(es).streams[k].yielded)[t] <= PresentAtSnapshot(es, k, t) + NotifiedSince(es, k, t)
  {
    hide Run, After, Snapshotted, PresentAtSnapshot, NotifiedSince, Copies;
    SnapshottedSubscribed(es, k);
    CopiesReceived(es, k, t);
    StreamConserves(es, k);
    YieldedCount(After(es), k, t);
  }

  // ---- Extending a run --------------------------------------------------

  lemma RunStep(es: seq<Event>, e: Event)
    requires Run(es) && InProtocol(es, e) && Enabled(After(es), e)
    ensures Run(es + [e]) && After(es + [e]) == Step(After(es), e)
  {
    hide Step, Enabled, InProtocol;
    assert Earlier(es + [e]) == es && Last(es + [e]) == e;
  }

  /** The steps `fs` come in the order of the protocol after the steps `es`. */
  predicate InOrder(es: seq<Event>, fs: seq<Event>)
    decreases |fs|
  {
    fs == [] || (InProtocol(es, fs[0]) && InOrder(es + [fs[0]], fs[1..]))
  }

  /** Steps that lead on from a run, in the order of the protocol, extend the run. */
  lemma {:induction false} LeadsRun(es: seq<Event>, fs: seq<Event>, t: State)
    requires Run(es) && Leads(After(es), fs, t) && InOrder(es, fs)
    ensures Run(es + fs) && After(es + fs) == t
    decreases |fs|
  {
    hide Step, Enabled, InProtocol, Run, After;
    if fs == [] {
      assert es + fs == es;
    } else {
      RunStep(es, fs[0]);
      LeadsRun(es + [fs[0]], fs[1..], t);
      assert es + [fs[0]] + fs[1..] == es + fs;
    }
  }
}

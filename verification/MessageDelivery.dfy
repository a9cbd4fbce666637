/** Which messages the messaging service delivers, event by event. */
module MessageDelivery {
  import opened Messaging
  import opened Outcomes
  import opened Sequences

  /** The event with index `index` of block `block`. */
  datatype Place = Place(block: nat, index: nat)

  predicate Earlier(p: Place, q: Place) {
    p.block < q.block || (p.block == q.block && p.index < q.index)
  }

  /** The event at `p` is in a block of the settlement chain and carries a message. */
  predicate CarriesMessage(chain: Settlement, p: Place) {
    && p.index < |chain(p.block)|
    && chain(p.block)[p.index].block.Some? && chain(p.block)[p.index].message.Some?
  }

  function MessageAt(chain: Settlement, p: Place): Message
    requires CarriesMessage(chain, p)
  {
    chain(p.block)[p.index].message.value
  }

  predicate Between(p: Place, lo: nat, hi: nat) {
    lo <= p.block < hi
  }

  /** The messages are those at the places, one for one, and the places are in order. */
  predicate ComeFrom(chain: Settlement, lo: nat, hi: nat, messages: seq<Message>, places: seq<Place>) {
    && |places| == |messages|
    && (forall j :: 0 <= j < |places| ==>
          Between(places[j], lo, hi) && CarriesMessage(chain, places[j]) && messages[j] == MessageAt(chain, places[j]))
    && (forall i, j :: 0 <= i < j < |places| ==> Earlier(places[i], places[j]))
  }

  /** Besides, no place between `lo` and `hi` that carries a message is left out. */
  ghost predicate DeliversAll(chain: Settlement, lo: nat, hi: nat, messages: seq<Message>, places: seq<Place>) {
    && ComeFrom(chain, lo, hi, messages, places)
    && forall p :: Between(p, lo, hi) && CarriesMessage(chain, p) ==> p in places
  }

  // ---- Events of a page -------------------------------------------------

  predicate Rising(indices: seq<nat>) {
    forall i, j :: 0 <= i < j < |indices| ==> indices[i] < indices[j]
  }

  /** The located events of a list are those at `indices`, in order, and no located event is left out. */
  ghost predicate LocatedAt(events: seq<Event>, located: seq<Event>, indices: seq<nat>) {
    && |indices| == |located| && Rising(indices)
    && (forall j :: 0 <= j < |indices| ==> indices[j] < |events| && located[j] == events[indices[j]])
    && forall i: nat :: i < |events| ==> (events[i].block.Some? <==> i in indices)
  }

  lemma LocatedNext(events: seq<Event>, e: Event, located: seq<Event>, indices: seq<nat>)
    requires LocatedAt(events, located, indices)
    ensures if e.block.Some? then LocatedAt(events + [e], located + [e], indices + [|events|])
            else LocatedAt(events + [e], located, indices)
  {
  }

  /** What is fetched are exactly the events that are located in a block, in order. */
  lemma {:induction false} LocatedEvents(events: seq<Event>) returns (indices: seq<nat>)
    ensures LocatedAt(events, Located(events), indices)
  {
    if events == [] {
      indices := [];
    } else {
      hide LocatedAt, FlatMap;
      var n := |events| - 1;
      var before, e := events[..n], events[n];
      assert events == before + [e];
      var earlier := LocatedEvents(before);
      FlatMapConcat(IfLocated, before, [e]);
      JustOne(e);
      LocatedNext(before, e, Located(before), earlier);
      assert Located(before) + [] == Located(before);
      indices := if e.block.Some? then earlier + [n] else earlier;
    }
  }

  lemma JustOne(e: Event)
    ensures Located([e]) == if e.block.Some? then [e] else []
  {
    assert [e][1..] == [];
    assert Located([e]) == IfLocated(e) + Located([]);
  }

  // ---- One block --------------------------------------------------------

  /** The messages of the first `n` events of a block, in order. */
  ghost predicate BlockDelivers(chain: Settlement, b: nat, n: nat, messages: seq<Message>, places: seq<Place>) {
    && ComeFrom(chain, b, b + 1, messages, places)
    && (forall j :: 0 <= j < |places| ==> places[j].index < n)
    && forall p: Place :: p.block == b && p.index < n && CarriesMessage(chain, p) ==> p in places
  }

  lemma {:induction false} BlockPlaces(chain: Settlement, b: nat, n: nat) returns (places: seq<Place>)
    requires n <= |chain(b)|
    ensures BlockDelivers(chain, b, n, Messages(Located(chain(b)[..n])), places)
  {
    if n == 0 {
      places := [];
      assert chain(b)[..0] == [];
    } else {
      hide FlatMap, BlockDelivers, CarriesMessage;
      var before := BlockPlaces(chain, b, n - 1);
      var e := chain(b)[n - 1];
      assert chain(b)[..n] == chain(b)[..n - 1] + [e];
      FlatMapConcat(IfLocated, chain(b)[..n - 1], [e]);
      FlatMapConcat(IfMessage, Located(chain(b)[..n - 1]), Located([e]));
      OneEvent(e);
      var p := Place(b, n - 1);
      places := if CarriesMessage(chain, p) then before + [p] else before;
      var messages := Messages(Located(chain(b)[..n - 1]));
      NextEvent(chain, b, n, messages, before);
      assert messages + [] == messages;
    }
  }

  lemma OneEvent(e: Event)
    ensures Messages(Located([e])) == if e.block.Some? && e.message.Some? then [e.message.value] else []
  {
    assert [e][1..] == [];
    assert Located([e]) == IfLocated(e) + Located([]);
    assert Located([e]) == IfLocated(e);
    assert Messages([e]) == IfMessage(e) + Messages([]);
  }

  lemma OneMore(chain: Settlement, lo: nat, hi: nat, messages: seq<Message>, places: seq<Place>, p: Place)
    requires ComeFrom(chain, lo, hi, messages, places) && Between(p, lo, hi) && CarriesMessage(chain, p)
    requires forall j :: 0 <= j < |places| ==> Earlier(places[j], p)
    ensures ComeFrom(chain, lo, hi, messages + [MessageAt(chain, p)], places + [p])
  {
    hide CarriesMessage, MessageAt, Between, Earlier;
  }

  lemma NextEvent(chain: Settlement, b: nat, n: nat, messages: seq<Message>, places: seq<Place>)
    requires 0 < n <= |chain(b)| && BlockDelivers(chain, b, n - 1, messages, places)
    ensures var e, p := chain(b)[n - 1], Place(b, n - 1);
            if CarriesMessage(chain, p) then
              && e.block.Some? && e.message.Some?
              && BlockDelivers(chain, b, n, messages + [e.message.value], places + [p])
            else
              !(e.block.Some? && e.message.Some?) && BlockDelivers(chain, b, n, messages, places)
  {
    var p := Place(b, n - 1);
    AtLast(chain, b, n);
    hide CarriesMessage, MessageAt;
    if CarriesMessage(chain, p) {
      forall j | 0 <= j < |places| ensures Earlier(places[j], p) {
        assert Between(places[j], b, b + 1);
      }
      OneMore(chain, b, b + 1, messages, places, p);
    }
    forall q: Place | q.block == b && q.index < n && CarriesMessage(chain, q) && q != p ensures q in places {
      assert q.index < n - 1;
    }
  }

  lemma AtLast(chain: Settlement, b: nat, n: nat)
    requires 0 < n <= |chain(b)|
    ensures var e, p := chain(b)[n - 1], Place(b, n - 1);
            && (CarriesMessage(chain, p) <==> e.block.Some? && e.message.Some?)
            && (CarriesMessage(chain, p) ==> MessageAt(chain, p) == e.message.value)
  {
  }

  // ---- All blocks -------------------------------------------------------

  lemma JoinComeFrom(
      chain: Settlement, lo: nat, hi: nat, a: seq<Message>, ps: seq<Place>, b: seq<Message>, qs: seq<Place>)
    requires lo <= hi && ComeFrom(chain, lo, hi, a, ps) && ComeFrom(chain, hi, hi + 1, b, qs)
    ensures ComeFrom(chain, lo, hi + 1, a + b, ps + qs)
  {
    hide CarriesMessage, MessageAt;
    var rs := ps + qs;
    forall i, j | 0 <= i < j < |rs| ensures Earlier(rs[i], rs[j]) {
      if i < |ps| <= j { assert Between(ps[i], lo, hi) && Between(qs[j - |ps|], hi, hi + 1); }
    }
  }

  lemma JoinPlaces(
      chain: Settlement, lo: nat, hi: nat, a: seq<Message>, ps: seq<Place>, b: seq<Message>, qs: seq<Place>)
    requires lo <= hi && DeliversAll(chain, lo, hi, a, ps) && BlockDelivers(chain, hi, |chain(hi)|, b, qs)
    ensures DeliversAll(chain, lo, hi + 1, a + b, ps + qs)
  {
    hide CarriesMessage, MessageAt;
    JoinComeFrom(chain, lo, hi, a, ps, b, qs);
    forall p | Between(p, lo, hi + 1) && CarriesMessage(chain, p) ensures p in ps + qs {
      if p.block == hi { WithinBlock(chain, p); }
    }
  }

  lemma WithinBlock(chain: Settlement, p: Place)
    requires CarriesMessage(chain, p)
    ensures p.index < |chain(p.block)|
  {
  }

  lemma {:induction false} DeliverablePlaces(chain: Settlement, lo: nat, hi: nat) returns (places: seq<Place>)
    ensures DeliversAll(chain, lo, hi, Deliverable(chain, lo, hi), places)
    decreases hi
  {
    hide *;
    if hi <= lo {
      places := [];
      NothingThere(chain, lo, hi);
    } else {
      var before := DeliverablePlaces(chain, lo, hi - 1);
      var block := BlockPlaces(chain, hi - 1, |chain(hi - 1)|);
      assert chain(hi - 1)[..|chain(hi - 1)|] == chain(hi - 1);
      DeliverableConcat(chain, lo, hi - 1, hi);
      OneBlock(chain, hi - 1);
      JoinPlaces(chain, lo, hi - 1, Deliverable(chain, lo, hi - 1), before, Deliverable(chain, hi - 1, hi), block);
      places := before + block;
    }
  }

  lemma NothingThere(chain: Settlement, lo: nat, hi: nat)
    requires hi <= lo
    ensures DeliversAll(chain, lo, hi, Deliverable(chain, lo, hi), [])
  {
  }

  lemma OneBlock(chain: Settlement, b: nat)
    ensures Deliverable(chain, b, b + 1) == Messages(Located(chain(b)))
  {
    assert EventsIn(chain, b, b) == [] && [] + chain(b) == chain(b);
    assert EventsIn(chain, b, b + 1) == chain(b);
  }

  // ---- Over runs --------------------------------------------------------

  /**
    Over every run of a new service with a tip that does not decrease: what is delivered are the messages of exactly the
    events, of the blocks from the start to the cursor, that are located in a block and can be read as a message, each
    once, in the order of their blocks and of their places in them.
   */
  lemma DeliversEveryMessage(chain: Settlement, start: nat, polls: seq<Poll>, tip: nat) returns (places: seq<Place>)
    requires start <= tip + 1 && TipsGrow(polls, tip)
    ensures var t := After(chain, State(start, None, []), polls);
            start <= t.cursor && DeliversAll(chain, start, t.cursor, t.delivered, places)
  {
    hide Deliverable, DeliversAll;
    DeliversExactlyOnce(chain, start, polls, tip);
    places := DeliverablePlaces(chain, start, After(chain, State(start, None, []), polls).cursor);
  }

  // ---- How often a message is delivered ---------------------------------

  /** Where a message stands in the blocks from `lo` to `hi`. */
  ghost function PlacesOf(chain: Settlement, lo: nat, hi: nat, m: Message): set<Place> {
    set b: nat, i: nat | lo <= b < hi && i < |chain(b)| && CarriesMessage(chain, Place(b, i))
                         && MessageAt(chain, Place(b, i)) == m :: Place(b, i)
  }

  function Holding(chain: Settlement, places: seq<Place>, m: Message): set<Place> {
    set p | p in places && CarriesMessage(chain, p) && MessageAt(chain, p) == m
  }

  lemma {:induction false} CountIs(chain: Settlement, lo: nat, hi: nat, messages: seq<Message>, places: seq<Place>, m: Message)
    requires ComeFrom(chain, lo, hi, messages, places)
    ensures multiset(messages)[m] == |Holding(chain, places, m)|
    decreases |messages|
  {
    hide CarriesMessage, Earlier, MessageAt;
    if messages != [] {
      var n := |messages| - 1;
      CountIs(chain, lo, hi, messages[..n], places[..n], m);
      assert messages == messages[..n] + [messages[n]];
      LastPlace(chain, lo, hi, messages, places, m);
    }
  }

  lemma LastPlace(chain: Settlement, lo: nat, hi: nat, messages: seq<Message>, places: seq<Place>, m: Message)
    requires ComeFrom(chain, lo, hi, messages, places) && messages != []
    ensures var n := |messages| - 1;
            |Holding(chain, places, m)| == |Holding(chain, places[..n], m)| + if messages[n] == m then 1 else 0
  {
    hide CarriesMessage, MessageAt;
    var n := |messages| - 1;
    var p, before := places[n], Holding(chain, places[..n], m);
    assert places == places[..n] + [p];
    forall i | 0 <= i < n ensures places[..n][i] != p {
      assert Earlier(places[i], places[n]);
    }
    if messages[n] == m {
      assert Holding(chain, places, m) == before + {p};
    } else {
      assert Holding(chain, places, m) == before;
    }
  }

  /** Over every such run a message is delivered as often as it stands in the gathered blocks. */
  lemma DeliveredCount(chain: Settlement, start: nat, polls: seq<Poll>, tip: nat, m: Message)
    requires start <= tip + 1 && TipsGrow(polls, tip)
    ensures var t := After(chain, State(start, None, []), polls);
            multiset(t.delivered)[m] == |PlacesOf(chain, start, t.cursor, m)|
  {
    hide After, TipsGrow, CarriesMessage, MessageAt, Earlier;
    var t := After(chain, State(start, None, []), polls);
    var places := DeliversEveryMessage(chain, start, polls, tip);
    CountIs(chain, start, t.cursor, t.delivered, places, m);
    forall p ensures p in Holding(chain, places, m) <==> p in PlacesOf(chain, start, t.cursor, m) {
      if p in Holding(chain, places, m) {
        WithinBlock(chain, p);
        assert Between(p, start, t.cursor);
        assert Place(p.block, p.index) == p;
      }
    }
    assert Holding(chain, places, m) == PlacesOf(chain, start, t.cursor, m);
  }
}

/** Gathering messages from the settlement chain. */
module Messaging {
  import opened Outcomes
  import opened Sequences

  const MAX_BLOCKS: nat := 200
  const CHUNK_SIZE: nat := 200

  /** A message to the contract `target`. */
  datatype Message = Message(hash: nat, target: nat, nonce: nat)

  /** An event of the messaging contract, and the message it carries if it can be read as one. */
  datatype Event = Event(block: Option<nat>, message: Option<Message>)

  // ---- Pages of events --------------------------------------------------

  datatype Page = Page(events: seq<Event>, next: Option<nat>)

  /** A page of at most `CHUNK_SIZE` events, and a token for the rest if there is any. */
  function GetEvents(all: seq<Event>, token: nat): Page
    requires token <= |all|
  {
    if token + CHUNK_SIZE < |all| then Page(all[token..token + CHUNK_SIZE], Some(token + CHUNK_SIZE))
    else Page(all[token..], None)
  }

  function IfLocated(e: Event): seq<Event> {
    if e.block.Some? then [e] else []
  }

  /** The events that are in a block. */
  function Located(events: seq<Event>): seq<Event> {
    FlatMap(IfLocated, events)
  }

  method PushLocated(events: seq<Event>, page: seq<Event>) returns (r: seq<Event>)
    ensures r == events + Located(page)
  {
    r := events;
    assert page[0..] == page;
    for i := 0 to |page|
      invariant r + Located(page[i..]) == events + Located(page)
    {
      FlatMapUnfold(IfLocated, page[i..]);
      assert page[i..][1..] == page[i + 1..];
      if page[i].block.Some? {
        r := r + [page[i]];
      }
    }
  }

  /** Follows the continuation tokens to the end: every located event once, in order. */
  method FetchEvents(all: seq<Event>) returns (events: seq<Event>)
    ensures events == Located(all)
  {
    hide Located;
    events := [];
    var token, more := 0, true;
    LocatedStart(all);
    while more
      invariant token <= |all|
      invariant more ==> events == Located(all[..token])
      invariant !more ==> events == Located(all)
      decreases more, |all| - token
    {
      var page := GetEvents(all, token);
      LocatedPage(all, token);
      events := PushLocated(events, page.events);
      match page.next
      case Some(next) => token := next;
      case None => more := false;
    }
  }

  lemma LocatedStart(all: seq<Event>)
    ensures Located(all[..0]) == []
  {
  }

  lemma LocatedPage(all: seq<Event>, token: nat)
    requires token <= |all|
    ensures var page := GetEvents(all, token);
            Located(all[..token]) + Located(page.events) ==
            if page.next.Some? then Located(all[..page.next.value]) else Located(all)
  {
    hide FlatMap;
    var page := GetEvents(all, token);
    FlatMapConcat(IfLocated, all[..token], page.events);
    assert all == all[..token] + all[token..];
    if page.next.Some? { assert all[..page.next.value] == all[..token] + page.events; }
  }

  // ---- The range of a gathering -----------------------------------------

  /** The last block to look at; the first one counts as one block fetched. */
  function ToBlock(from: nat, tip: nat, max: nat): nat {
    if from + max + 1 < tip then from + max else tip
  }

  /** Where the next gathering starts. */
  function NextFrom(from: nat, tip: nat, max: nat): nat {
    ToBlock(from, tip, max) + 1
  }

  /** A gathering never passes the tip, and spans at most `max + 2` blocks; past the tip it spans none. */
  lemma RangeBounded(from: nat, tip: nat, max: nat)
    ensures ToBlock(from, tip, max) <= tip && ToBlock(from, tip, max) + 1 <= from + max + 2
    ensures from <= ToBlock(from, tip, max) <==> from <= tip
  {
  }

  /** The cursor stays or advances exactly when it is at most one past the tip; otherwise it falls back. */
  lemma NoRegressIff(from: nat, tip: nat, max: nat)
    ensures NextFrom(from, tip, max) >= from <==> from <= tip + 1
    ensures from > tip + 1 ==> NextFrom(from, tip, max) == tip + 1
  {
  }

  /** A start block in the future is forgotten: blocks before it are gathered afterwards. */
  lemma StartBlockForgotten()
    ensures NextFrom(1000, 10, MAX_BLOCKS) == 11
  {
  }

  /** `n` successful gatherings with the same tip. */
  function Rounds(from: nat, tip: nat, max: nat, n: nat): nat
    decreases n
  {
    if n == 0 then from else Rounds(NextFrom(from, tip, max), tip, max, n - 1)
  }

  /** Every gathering makes at least `max + 1` blocks of progress until the tip is passed. */
  lemma {:induction false} Progress(from: nat, tip: nat, max: nat, n: nat)
    requires from <= tip + 1
    ensures from <= Rounds(from, tip, max, n) <= tip + 1
    ensures Rounds(from, tip, max, n) == tip + 1 || Rounds(from, tip, max, n) >= from + n * (max + 1)
    decreases n
  {
    if n > 0 {
      var next := NextFrom(from, tip, max);
      Progress(next, tip, max, n - 1);
      assert n * (max + 1) == (n - 1) * (max + 1) + (max + 1);
    }
  }

  /** In fact each success but the last moves exactly `max + 1` blocks, and the last may move one more. */
  lemma {:induction false} ProgressExactly(from: nat, tip: nat, max: nat, n: nat)
    requires from <= tip + 1 && n > 0
    ensures Rounds(from, tip, max, n) == if from + n * (max + 1) < tip then from + n * (max + 1) else tip + 1
    decreases n
  {
    if n > 1 {
      var next := NextFrom(from, tip, max);
      ProgressExactly(next, tip, max, n - 1);
      Product(n, max + 1);
      Grows(n - 1, max);
      assert (n - 1) * (max + 1) > 0;
    } else {
      assert Rounds(NextFrom(from, tip, max), tip, max, 0) == NextFrom(from, tip, max);
      assert n * (max + 1) == max + 1;
    }
  }

  lemma Product(n: nat, k: nat)
    requires n > 0
    ensures n * k == (n - 1) * k + k
  {
  }

  /** So with a fixed tip the cursor comes to rest one past it. */
  lemma ReachesTip(from: nat, tip: nat, max: nat, n: nat)
    requires from <= tip + 1 && n >= tip + 1 - from
    ensures Rounds(from, tip, max, n) == tip + 1
  {
    Progress(from, tip, max, n);
    assert n * (max + 1) >= n by { Grows(n, max); }
  }

  lemma Grows(n: nat, k: nat)
    ensures n * (k + 1) >= n
  {
  }

  // ---- The service ------------------------------------------------------

  /** The events of the messaging contract, block by block. */
  type Settlement = nat -> seq<Event>

  /** The events of the blocks `lo` up to `hi`, exclusive. */
  function EventsIn(chain: Settlement, lo: nat, hi: nat): seq<Event>
    decreases hi
  {
    if hi <= lo then [] else EventsIn(chain, lo, hi - 1) + chain(hi - 1)
  }

  lemma {:induction false} EventsConcat(chain: Settlement, lo: nat, mid: nat, hi: nat)
    requires lo <= mid <= hi
    ensures EventsIn(chain, lo, hi) == EventsIn(chain, lo, mid) + EventsIn(chain, mid, hi)
    decreases hi
  {
    if hi > mid {
      EventsConcat(chain, lo, mid, hi - 1);
      Associates(EventsIn(chain, lo, mid), EventsIn(chain, mid, hi - 1), chain(hi - 1));
    }
  }

  function IfMessage(e: Event): seq<Message> {
    if e.message.Some? then [e.message.value] else []
  }

  /** The messages that can be read from some events. */
  function Messages(events: seq<Event>): seq<Message> {
    FlatMap(IfMessage, events)
  }

  /** Everything there is to deliver from the blocks `lo` up to `hi`, exclusive. */
  function Deliverable(chain: Settlement, lo: nat, hi: nat): seq<Message> {
    Messages(Located(EventsIn(chain, lo, hi)))
  }

  lemma DeliverableConcat(chain: Settlement, lo: nat, mid: nat, hi: nat)
    requires lo <= mid <= hi
    ensures Deliverable(chain, lo, hi) == Deliverable(chain, lo, mid) + Deliverable(chain, mid, hi)
  {
    hide EventsIn, FlatMap;
    EventsConcat(chain, lo, mid, hi);
    FlatMapConcat(IfLocated, EventsIn(chain, lo, mid), EventsIn(chain, mid, hi));
    FlatMapConcat(IfMessage, Located(EventsIn(chain, lo, mid)), Located(EventsIn(chain, mid, hi)));
  }

  /** What comes back from a gathering: an error, or the tip of the settlement chain it met. */
  datatype Reply = Failed | Tip(tip: nat)

  datatype State = State(cursor: nat, gathering: Option<nat>, delivered: seq<Message>)

  /** One poll: a tick starts a gathering unless one is running; a reply ends the running one. */
  datatype Poll = Poll(tick: bool, reply: Option<Reply>)

  function Ticked(s: State, tick: bool): State {
    if tick && s.gathering.None? then s.(gathering := Some(s.cursor)) else s
  }

  function Replied(chain: Settlement, s: State, reply: Reply): State
    requires s.gathering.Some?
  {
    match reply
    case Failed => s.(gathering := None)
    case Tip(tip) =>
      var from := s.gathering.value;
      var to := ToBlock(from, tip, MAX_BLOCKS);
      State(to + 1, None, s.delivered + Deliverable(chain, from, to + 1))
  }

  function Polled(chain: Settlement, s: State, poll: Poll): State {
    var t := Ticked(s, poll.tick);
    if t.gathering.Some? && poll.reply.Some? then Replied(chain, t, poll.reply.value) else t
  }

  class MessagingService {
    const settlement: Settlement
    var gatherFromBlock: nat
    var gathering: Option<nat>
    var delivered: seq<Message>

    constructor (settlement: Settlement, from: nat)
      ensures this.settlement == settlement && Contents() == State(from, None, [])
    {
      this.settlement, gatherFromBlock, gathering, delivered := settlement, from, None, [];
    }

    function Contents(): State
      reads this
    {
      State(gatherFromBlock, gathering, delivered)
    }

    /** Fetches the messages from a block on, and the number of the last block looked at. */
    method GatherMessages(from: nat, tip: nat) returns (last: nat, messages: seq<Message>)
      ensures last == ToBlock(from, tip, MAX_BLOCKS)
      ensures messages == Deliverable(settlement, from, last + 1)
    {
      hide FlatMap;
      if from > tip {
        NothingToFetch(settlement, from, tip);
        return tip, [];
      }
      last := if from + MAX_BLOCKS + 1 < tip then from + MAX_BLOCKS else tip;
      var events := FetchEvents(EventsIn(settlement, from, last + 1));
      messages := [];
      assert events[0..] == events;
      for i := 0 to |events|
        invariant messages + Messages(events[i..]) == Messages(events)
      {
        FlatMapUnfold(IfMessage, events[i..]);
        assert events[i..][1..] == events[i + 1..];
        if events[i].message.Some? {
          messages := messages + [events[i].message.value];
        }
      }
      NoMessages(events);
    }

    /** Returns the last block of a gathering that is done. */
    method PollNext(tick: bool, reply: Option<Reply>) returns (r: Option<nat>)
      modifies this
      ensures Contents() == Polled(settlement, old(Contents()), Poll(tick, reply))
      ensures r.Some? <==> (tick || old(gathering).Some?) && reply.Some? && reply.value.Tip?
      ensures r.Some? ==> gatherFromBlock == r.value + 1
    {
      hide Deliverable;
      r := None;
      if tick && gathering.None? {
        gathering := Some(gatherFromBlock);
      }
      if gathering.Some? && reply.Some? {
        var from := gathering.value;
        gathering := None;
        match reply.value
        case Failed =>
        case Tip(tip) =>
          var last, messages := GatherMessages(from, tip);
          gatherFromBlock := last + 1;
          delivered := delivered + messages;
          r := Some(last);
      }
    }
  }

  lemma NothingToFetch(chain: Settlement, from: nat, tip: nat)
    requires from > tip
    ensures ToBlock(from, tip, MAX_BLOCKS) == tip && Deliverable(chain, from, tip + 1) == []
  {
  }

  lemma NoMessages(events: seq<Event>)
    ensures Messages(events[|events|..]) == []
  {
  }

  // ---- Whole runs -------------------------------------------------------

  function After(chain: Settlement, s: State, polls: seq<Poll>): State
    decreases |polls|
  {
    if polls == [] then s else After(chain, Polled(chain, s, polls[0]), polls[1..])
  }

  /** The tips that are seen do not decrease, starting from `tip`. */
  predicate TipsGrow(polls: seq<Poll>, tip: nat)
    decreases |polls|
  {
    polls == [] || (tip <= TipAfter(tip, polls[0]) && TipsGrow(polls[1..], TipAfter(tip, polls[0])))
  }

  function TipAfter(tip: nat, poll: Poll): nat {
    if poll.reply.Some? && poll.reply.value.Tip? then poll.reply.value.tip else tip
  }

  /** The blocks from `start` up to the cursor have been gathered, each once and in order. */
  predicate Gathered(chain: Settlement, s: State, start: nat, tip: nat) {
    && start <= s.cursor <= tip + 1
    && (s.gathering.Some? ==> s.gathering.value == s.cursor)
    && s.delivered == Deliverable(chain, start, s.cursor)
  }

  lemma GatheredStep(chain: Settlement, s: State, poll: Poll, start: nat, tip: nat)
    requires Gathered(chain, s, start, tip) && tip <= TipAfter(tip, poll)
    ensures Gathered(chain, Polled(chain, s, poll), start, TipAfter(tip, poll))
    ensures s.cursor <= Polled(chain, s, poll).cursor
  {
    hide Deliverable;
    if poll.reply.Some? && poll.reply.value.Tip? {
      DeliverableConcat(chain, start, s.cursor, NextFrom(s.cursor, poll.reply.value.tip, MAX_BLOCKS));
    }
  }

  /**
    As long as the tip never decreases and the start block is at most one past it, every mix of errors, retries
    and successes delivers the messages of the blocks from the start to the cursor, each exactly once and in order.
   */
  lemma {:induction false} GatheredRun(chain: Settlement, s: State, polls: seq<Poll>, start: nat, tip: nat) returns (last: nat)
    requires Gathered(chain, s, start, tip) && TipsGrow(polls, tip)
    ensures tip <= last && Gathered(chain, After(chain, s, polls), start, last)
    ensures s.cursor <= After(chain, s, polls).cursor
    decreases |polls|
  {
    hide Polled, Gathered;
    last := tip;
    if polls != [] {
      GatheredStep(chain, s, polls[0], start, tip);
      last := GatheredRun(chain, Polled(chain, s, polls[0]), polls[1..], start, TipAfter(tip, polls[0]));
    }
  }

  lemma NothingDeliverable(chain: Settlement, start: nat)
    ensures Deliverable(chain, start, start) == []
  {
  }

  /** For a new service: what it has delivered is exactly what the blocks before its cursor hold. */
  lemma DeliversExactlyOnce(chain: Settlement, start: nat, polls: seq<Poll>, tip: nat)
    requires start <= tip + 1 && TipsGrow(polls, tip)
    ensures var t := After(chain, State(start, None, []), polls);
            start <= t.cursor && t.delivered == Deliverable(chain, start, t.cursor)
  {
    hide Deliverable;
    NothingDeliverable(chain, start);
    var last := GatheredRun(chain, State(start, None, []), polls, start, tip);
  }
}

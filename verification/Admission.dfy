/** What the validator lets into the pool, and when the pool serves it in the order of acceptance. */
module Admission {
  import opened PoolOrder
  import opened PoolServing
  import opened Sequences
  import opened StateDiff
  import opened Validator

  predicate Admits(s: State, call: Call) {
    call.Validate? && Verdict(s, call.tx, call.accountValidation, call.account).Valid?
  }

  /** The accepted transactions, in order. */
  function AcceptedTxs(s: State, calls: seq<Call>): seq<Tx>
    decreases |calls|
  {
    if calls == [] then []
    else (if Admits(s, calls[0]) then [calls[0].tx] else []) + AcceptedTxs(Step(s, calls[0]), calls[1..])
  }

  function EntryOf(tx: Tx, rank: nat): PendingTx {
    PendingTx(TxId(tx.sender, tx.nonce), tx.hash, 0, rank)
  }

  /** The entries of transactions that are added one after the other, with arrival numbers from `rank` on. */
  function EntriesFrom(txs: seq<Tx>, rank: nat): (r: seq<PendingTx>)
    ensures |r| == |txs| && forall i :: 0 <= i < |txs| ==> r[i] == EntryOf(txs[i], rank + i)
  {
    seq(|txs|, i requires 0 <= i < |txs| => EntryOf(txs[i], rank + i))
  }

  // ---- One sender's nonces ----------------------------------------------

  /** The nonces of one sender's transactions, in order. */
  function NoncesOf(txs: seq<Tx>, sender: nat): seq<nat> {
    if txs == [] then []
    else (if txs[0].sender == sender then [txs[0].nonce] else []) + NoncesOf(txs[1..], sender)
  }

  predicate NeverFalls(s: seq<nat>) {
    forall i, j :: 0 <= i < j < |s| ==> s[i] <= s[j]
  }

  /** No sender's nonces fall along the list. */
  predicate NoncesNeverFall(txs: seq<Tx>) {
    forall i, j :: 0 <= i < j < |txs| && txs[i].sender == txs[j].sender ==> txs[i].nonce <= txs[j].nonce
  }

  /** The nonce is one of the sender's. */
  predicate HasNonce(txs: seq<Tx>, sender: nat, nonce: nat) {
    exists i :: 0 <= i < |txs| && txs[i].sender == sender && txs[i].nonce == nonce
  }

  lemma {:induction false} NonceListed(txs: seq<Tx>, sender: nat, nonce: nat)
    ensures nonce in NoncesOf(txs, sender) <==> HasNonce(txs, sender, nonce)
  {
    if txs != [] {
      NonceListed(txs[1..], sender, nonce);
      if HasNonce(txs, sender, nonce) && !(txs[0].sender == sender && txs[0].nonce == nonce) {
        var i :| 0 <= i < |txs| && txs[i].sender == sender && txs[i].nonce == nonce;
        assert txs[1..][i - 1] == txs[i];
      }
      if HasNonce(txs[1..], sender, nonce) {
        var i :| 0 <= i < |txs[1..]| && txs[1..][i].sender == sender && txs[1..][i].nonce == nonce;
        assert txs[i + 1] == txs[1..][i];
      }
    }
  }

  lemma NeverFallsCons(x: nat, s: seq<nat>)
    ensures NeverFalls([x] + s) <==> NeverFalls(s) && forall v :: v in s ==> x <= v
  {
    var t := [x] + s;
    if NeverFalls(t) {
      forall v | v in s ensures x <= v {
        var i :| 0 <= i < |s| && s[i] == v;
        assert t[0] <= t[i + 1];
      }
      forall i, j | 0 <= i < j < |s| ensures s[i] <= s[j] {
        assert t[i + 1] <= t[j + 1];
      }
    }
    if NeverFalls(s) && forall v :: v in s ==> x <= v {
      forall i, j | 0 <= i < j < |t| ensures t[i] <= t[j] {
        if i == 0 { assert s[j - 1] in s; }
      }
    }
  }

  lemma NoncesCons(txs: seq<Tx>)
    requires txs != []
    ensures NoncesNeverFall(txs) <==>
            && NoncesNeverFall(txs[1..])
            && forall nonce :: HasNonce(txs[1..], txs[0].sender, nonce) ==> txs[0].nonce <= nonce
  {
    var rest := txs[1..];
    if NoncesNeverFall(txs) {
      forall i, j | 0 <= i < j < |rest| && rest[i].sender == rest[j].sender ensures rest[i].nonce <= rest[j].nonce {
        assert rest[i] == txs[i + 1] && rest[j] == txs[j + 1];
      }
      forall nonce | HasNonce(rest, txs[0].sender, nonce) ensures txs[0].nonce <= nonce {
        var i :| 0 <= i < |rest| && rest[i].sender == txs[0].sender && rest[i].nonce == nonce;
        assert txs[i + 1] == rest[i];
      }
    }
    if NoncesNeverFall(rest) && forall nonce :: HasNonce(rest, txs[0].sender, nonce) ==> txs[0].nonce <= nonce {
      forall i, j | 0 <= i < j < |txs| && txs[i].sender == txs[j].sender ensures txs[i].nonce <= txs[j].nonce {
        assert txs[j] == rest[j - 1];
        if i > 0 {
          assert txs[i] == rest[i - 1];
        } else {
          assert HasNonce(rest, txs[0].sender, txs[j].nonce);
        }
      }
    }
  }

  ghost predicate EverySenderNeverFalls(txs: seq<Tx>) {
    forall a: nat :: NeverFalls(NoncesOf(txs, a))
  }

  lemma {:induction false} NeverFallIff(txs: seq<Tx>)
    ensures NoncesNeverFall(txs) <==> EverySenderNeverFalls(txs)
  {
    hide NeverFalls, NoncesNeverFall, HasNonce;
    if txs == [] {
      NothingFalls();
    } else {
      var x, rest := txs[0], txs[1..];
      NeverFallIff(rest);
      NoncesCons(txs);
      NeverFallsCons(x.nonce, NoncesOf(rest, x.sender));
      forall nonce ensures nonce in NoncesOf(rest, x.sender) <==> HasNonce(rest, x.sender, nonce) {
        NonceListed(rest, x.sender, nonce);
      }
      assert NoncesOf(txs, x.sender) == [x.nonce] + NoncesOf(rest, x.sender);
      forall a: nat | a != x.sender ensures NoncesOf(txs, a) == NoncesOf(rest, a) {
        assert [] + NoncesOf(rest, a) == NoncesOf(rest, a);
      }
      if EverySenderNeverFalls(txs) {
        forall a: nat ensures NeverFalls(NoncesOf(rest, a)) {
          assert NeverFalls(NoncesOf(txs, a));
        }
      }
    }
  }

  lemma NothingFalls()
    ensures NoncesNeverFall([]) && EverySenderNeverFalls([])
  {
  }

  // ---- One addition after the other -------------------------------------

  lemma {:induction false} TxNonces(s: State, calls: seq<Call>, sender: nat)
    ensures NoncesOf(AcceptedTxs(s, calls), sender) == AcceptedNonces(s, calls, sender)
    decreases |calls|
  {
    if calls != [] {
      hide Step, Verdict, AcceptedNonces, AcceptedTxs;
      AcceptedUnfold(s, calls, sender);
      TxsUnfold(s, calls);
      TxNonces(Step(s, calls[0]), calls[1..], sender);
      var rest := AcceptedTxs(Step(s, calls[0]), calls[1..]);
      if calls[0].Validate? { assert ([calls[0].tx] + rest)[1..] == rest; }
    }
  }

  lemma TxsUnfold(s: State, calls: seq<Call>)
    requires calls != []
    ensures var rest := AcceptedTxs(Step(s, calls[0]), calls[1..]);
            AcceptedTxs(s, calls) == if Admits(s, calls[0]) then [calls[0].tx] + rest else rest
  {
    hide Step, Admits;
  }

  /** No sender's accepted nonces fall. */
  ghost predicate AcceptedNeverFall(s: State, calls: seq<Call>) {
    forall a: nat :: NeverFalls(AcceptedNonces(s, calls, a))
  }

  lemma AcceptedFallIff(s: State, calls: seq<Call>)
    ensures AcceptedNeverFall(s, calls) <==> NoncesNeverFall(AcceptedTxs(s, calls))
  {
    hide AcceptedTxs, AcceptedNonces, NoncesOf, NeverFalls;
    var txs := AcceptedTxs(s, calls);
    NeverFallIff(txs);
    forall a: nat ensures NoncesOf(txs, a) == AcceptedNonces(s, calls, a) {
      TxNonces(s, calls, a);
    }
    if EverySenderNeverFalls(txs) {
      forall a: nat ensures NeverFalls(AcceptedNonces(s, calls, a)) {
        assert NeverFalls(NoncesOf(txs, a));
      }
    }
    if AcceptedNeverFall(s, calls) {
      forall a: nat ensures NeverFalls(NoncesOf(txs, a)) {
        assert NeverFalls(AcceptedNonces(s, calls, a));
      }
    }
  }

  lemma RankedIff(txs: seq<Tx>, rank: nat)
    ensures ArrivalRanked(EntriesFrom(txs, rank)) <==> NoncesNeverFall(txs)
    ensures NoneOvertakes(EntriesFrom(txs, rank)) <==> NoncesNeverFall(txs)
    ensures NoRepeats(EntriesFrom(txs, rank))
  {
    var xs := EntriesFrom(txs, rank);
    forall i, j | 0 <= i < j < |xs| ensures xs[i].rank < xs[j].rank && xs[i] != xs[j] {
    }
    if NoneOvertakes(xs) {
      forall i, j | 0 <= i < j < |txs| && txs[i].sender == txs[j].sender ensures txs[i].nonce <= txs[j].nonce {
        assert !Before(xs[j], xs[i]);
      }
    }
    if ArrivalRanked(xs) {
      forall i, j | 0 <= i < j < |txs| && txs[i].sender == txs[j].sender ensures txs[i].nonce <= txs[j].nonce {
        assert xs[i].id.nonce <= xs[j].id.nonce;
      }
    }
  }

  /** The arrival numbers of what a run of the validator accepts rank it exactly when no sender's accepted nonces fall. */
  lemma AdmissionRankedIff(s: State, calls: seq<Call>, rank: nat)
    ensures ArrivalRanked(EntriesFrom(AcceptedTxs(s, calls), rank)) <==> AcceptedNeverFall(s, calls)
  {
    hide AcceptedTxs, AcceptedNeverFall, ArrivalRanked, NoncesNeverFall;
    AcceptedFallIff(s, calls);
    RankedIff(AcceptedTxs(s, calls), rank);
  }

  /**
    Whatever the tree, the pool serves what a run of the validator accepts in the order of acceptance if and only if
    no sender's accepted nonces fall.
   */
  lemma AdmissionServedIff(s: State, calls: seq<Call>, rank: nat)
    ensures var xs := EntriesFrom(AcceptedTxs(s, calls), rank);
            (forall states :: Builds(xs, states) ==> states[|xs|] == xs) <==> AcceptedNeverFall(s, calls)
  {
    hide AcceptedTxs, AcceptedNeverFall, NoneOvertakes, NoncesNeverFall, NoRepeats;
    AcceptedFallIff(s, calls);
    RankedIff(AcceptedTxs(s, calls), rank);
    FirstServedIff(EntriesFrom(AcceptedTxs(s, calls), rank));
  }

  const NEW_CHAIN := State(View(map[], {}, {}), map[])
  const FIRST := Tx(1, 7, 0, Invoke)
  const SECOND := Tx(2, 7, 1, Invoke)

  /** The transaction with nonce zero is sent again after the one with nonce one. */
  function StaleCalls(check: bool -> Check): seq<Call> {
    [Validate(FIRST, true, check), Validate(SECOND, true, check), Validate(FIRST, true, check)]
  }

  /** When the account's own check lets it pass, the stale transaction is accepted. */
  lemma StaleAccepted(check: bool -> Check)
    requires forall skip :: check(skip) == Passes
    ensures AcceptedTxs(NEW_CHAIN, StaleCalls(check)) == [FIRST, SECOND, FIRST]
    ensures AcceptedNonces(NEW_CHAIN, StaleCalls(check), 7) == [0, 1, 0]
  {
    hide AcceptedTxs, AcceptedNonces;
    AcceptedThree(NEW_CHAIN, FIRST, SECOND, FIRST, check);
    TxNonces(NEW_CHAIN, StaleCalls(check), 7);
    var txs := [FIRST, SECOND, FIRST];
    assert txs[1..] == [SECOND, FIRST] && [SECOND, FIRST][1..] == [FIRST] && [FIRST][1..] == [];
    assert NoncesOf([FIRST], 7) == [0] + NoncesOf([], 7);
    assert NoncesOf([SECOND, FIRST], 7) == [1] + NoncesOf([FIRST], 7);
    assert NoncesOf(txs, 7) == [0] + NoncesOf([SECOND, FIRST], 7);
  }

  /** Then it overtakes the one before it. */
  lemma StaleOvertakes()
    ensures var xs := EntriesFrom([FIRST, SECOND, FIRST], 0);
            Builds(xs, [[], [xs[0]], [xs[0], xs[1]], [xs[0], xs[2], xs[1]]])
  {
    var a, b, c := EntryOf(FIRST, 0), EntryOf(SECOND, 1), EntryOf(FIRST, 2);
    StandsAt([], a, 0, [a]);
    StandsAt([a], b, 1, [a, b]);
    StandsAt([a, b], c, 1, [a, c, b]);
    hide IsInsertion;
  }

  lemma StandsAt(s: seq<PendingTx>, x: PendingTx, p: nat, t: seq<PendingTx>)
    requires CanStand(s, x, p) && t == InsertAt(s, x, p)
    ensures IsInsertion(s, x, t)
  {
  }

  /** Three transactions in turn or behind, whose accounts pass them, are accepted. */
  lemma AcceptedThree(s: State, a: Tx, b: Tx, c: Tx, check: bool -> Check)
    requires s == State(View(map[], {}, {}), map[]) && (forall skip :: check(skip) == Passes)
    requires a.kind.Invoke? && b.kind.Invoke? && c.kind.Invoke?
    requires a.nonce == 0 && b.nonce == (if b.sender == a.sender then 1 else 0) && c.nonce == 0
    ensures AcceptedTxs(s, [Validate(a, true, check), Validate(b, true, check), Validate(c, true, check)]) == [a, b, c]
  {
    var x, y, z := Validate(a, true, check), Validate(b, true, check), Validate(c, true, check);
    var t := Step(s, x);
    var u := Step(t, y);
    assert Admits(s, x) && Admits(t, y) && Admits(u, z);
    assert [x, y, z][1..] == [y, z] && [y, z][1..] == [z] && [z][1..] == [];
    TxsUnfold(s, [x, y, z]);
    TxsUnfold(t, [y, z]);
    TxsUnfold(u, [z]);
    assert AcceptedTxs(Step(u, z), []) == [];
  }

  // ---- Exactly in turn --------------------------------------------------

  predicate StrictlyIncreasing(s: seq<nat>) {
    forall i, j :: 0 <= i < j < |s| ==> s[i] < s[j]
  }

  /** Every accepted transaction of the account carries the nonce that is its turn. */
  predicate InTurn(s: State, calls: seq<Call>, address: nat) {
    forall i :: 0 <= i < |AcceptedNonces(s, calls, address)| ==>
      AcceptedNonces(s, calls, address)[i] == BaseNonce(s, calls, address) + i
  }

  lemma {:induction false} IncreasingGrows(s: seq<nat>, i: nat)
    requires StrictlyIncreasing(s) && i < |s|
    ensures s[0] + i <= s[i]
  {
    if i > 0 { IncreasingGrows(s, i - 1); }
  }

  /**
    The validator accepts no nonce ahead of its turn. So for an account whose first accepted transaction is not behind,
    no two accepted transactions share a nonce or come in the wrong order if and only if every one of them is in turn.
   */
  lemma IncreasingIffInTurn(s: State, calls: seq<Call>, address: nat)
    requires WellTypedState(s) && FeltViews(calls)
    requires var nonces := AcceptedNonces(s, calls, address);
             nonces != [] ==>
               nonces[0] >= BaseNonce(s, calls, address) && BaseNonce(s, calls, address) + |nonces| <= FELT_PRIME
    ensures StrictlyIncreasing(AcceptedNonces(s, calls, address)) <==> InTurn(s, calls, address)
  {
    hide AcceptedNonces, BaseNonce, WellTypedState, FeltViews;
    var nonces, base := AcceptedNonces(s, calls, address), BaseNonce(s, calls, address);
    if StrictlyIncreasing(nonces) {
      forall i | 0 <= i < |nonces| ensures nonces[i] == base + i {
        AcceptedAtMostCurrent(s, calls, address, i);
        Unwrapped(base + i);
        IncreasingGrows(nonces, i);
      }
    }
  }

  lemma Unwrapped(x: nat)
    requires x < FELT_PRIME
    ensures x % FELT_PRIME == x
  {
  }

  // ---- Additions that overlap -------------------------------------------

  /**
    An addition validates, draws its arrival number and inserts, and other additions may come in between. `Draw(i)` and
    `Put(i)` are steps of the addition of the transaction that was accepted as number `i`.
   */
  datatype Move = Check(call: Call) | Draw(i: nat) | Put(i: nat)

  /** `inserted` lists the numbers of the transactions in the order in which they were inserted. */
  datatype Additions = Additions(validator: State, accepted: seq<Tx>, ranks: map<nat, nat>, next: nat, inserted: seq<nat>)

  predicate CanMove(a: Additions, m: Move) {
    match m
    case Check(_) => true
    case Draw(i) => i < |a.accepted| && i !in a.ranks
    case Put(i) => i in a.ranks && i !in a.inserted
  }

  function Moved(a: Additions, m: Move): Additions
    requires CanMove(a, m)
  {
    match m
    case Check(call) =>
      a.(validator := Step(a.validator, call),
         accepted := if Admits(a.validator, call) then a.accepted + [call.tx] else a.accepted)
    case Draw(i) => a.(ranks := a.ranks[i := a.next], next := a.next + 1)
    case Put(i) => a.(inserted := a.inserted + [i])
  }

  /** The moves lead from `a` to `b`. */
  predicate Moves(a: Additions, ms: seq<Move>, b: Additions)
    decreases |ms|
  {
    if ms == [] then a == b else CanMove(a, ms[0]) && Moves(Moved(a, ms[0]), ms[1..], b)
  }

  function Idle(s: State, rank: nat): Additions {
    Additions(s, [], map[], rank, [])
  }

  function CallsOf(ms: seq<Move>): seq<Call> {
    if ms == [] then [] else (if ms[0].Check? then [ms[0].call] else []) + CallsOf(ms[1..])
  }

  /** Arrival numbers are unique, and only what has one is inserted, once. */
  predicate Orderly(a: Additions) {
    && (forall i :: i in a.ranks ==> i < |a.accepted| && a.ranks[i] < a.next)
    && (forall i, j :: i in a.ranks && j in a.ranks && i != j ==> a.ranks[i] != a.ranks[j])
    && (forall m :: 0 <= m < |a.inserted| ==> a.inserted[m] in a.ranks)
    && (forall m, n :: 0 <= m < n < |a.inserted| ==> a.inserted[m] != a.inserted[n])
  }

  lemma OrderlyStep(a: Additions, m: Move)
    requires Orderly(a) && CanMove(a, m)
    ensures Orderly(Moved(a, m))
  {
    hide Step, Admits;
  }

  lemma {:induction false} OrderlyRun(a: Additions, ms: seq<Move>, b: Additions)
    requires Orderly(a) && Moves(a, ms, b)
    ensures Orderly(b)
    decreases |ms|
  {
    hide Orderly, CanMove, Moved;
    if ms != [] {
      OrderlyStep(a, ms[0]);
      OrderlyRun(Moved(a, ms[0]), ms[1..], b);
    }
  }

  /** What has been accepted, and what the moves to come accept, stay the same along a run. */
  lemma AcceptedStep(a: Additions, ms: seq<Move>)
    requires ms != [] && CanMove(a, ms[0])
    ensures var b := Moved(a, ms[0]);
            b.accepted + AcceptedTxs(b.validator, CallsOf(ms[1..])) == a.accepted + AcceptedTxs(a.validator, CallsOf(ms))
  {
    hide Step, Verdict, AcceptedTxs, CallsOf;
    CallsUnfold(ms);
    var later := CallsOf(ms[1..]);
    if ms[0].Check? {
      var call := ms[0].call;
      assert ([call] + later)[1..] == later;
      TxsUnfold(a.validator, [call] + later);
      if Admits(a.validator, call) {
        Associates(a.accepted, [call.tx], AcceptedTxs(Step(a.validator, call), later));
      }
    }
  }

  lemma CallsUnfold(ms: seq<Move>)
    requires ms != []
    ensures CallsOf(ms) == if ms[0].Check? then [ms[0].call] + CallsOf(ms[1..]) else CallsOf(ms[1..])
  {
  }

  /** Drawing and inserting do not interfere with validation. */
  lemma {:induction false} AcceptedRun(a: Additions, ms: seq<Move>, b: Additions)
    requires Moves(a, ms, b)
    ensures b.accepted == a.accepted + AcceptedTxs(a.validator, CallsOf(ms))
    decreases |ms|
  {
    hide CanMove, Moved, AcceptedTxs;
    if ms == [] {
      NoneAccepted(a.validator);
    } else {
      hide CallsOf;
      AcceptedRun(Moved(a, ms[0]), ms[1..], b);
      AcceptedStep(a, ms);
    }
  }

  lemma NoneAccepted(s: State)
    ensures AcceptedTxs(s, []) == []
  {
  }

  /** Every addition is done. */
  predicate AllIn(a: Additions) {
    Orderly(a) && forall i: nat :: i < |a.accepted| ==> i in a.inserted
  }

  lemma WhenInserted(a: Additions, i: nat) returns (m: nat)
    requires AllIn(a) && i < |a.accepted|
    ensures m < |a.inserted| && a.inserted[m] == i
  {
    assert i in a.inserted;
    m :| 0 <= m < |a.inserted| && a.inserted[m] == i;
  }

  lemma AllRanked(a: Additions)
    requires AllIn(a)
    ensures forall i :: 0 <= i < |a.accepted| ==> i in a.ranks
  {
    forall i | 0 <= i < |a.accepted| ensures i in a.ranks {
      var m := WhenInserted(a, i);
    }
  }

  function EntryAt(a: Additions, i: nat): PendingTx
    requires i < |a.accepted| && i in a.ranks
  {
    EntryOf(a.accepted[i], a.ranks[i])
  }

  /** The entries in the order of acceptance. */
  function InOrderOfAcceptance(a: Additions): (r: seq<PendingTx>)
    requires AllIn(a)
    ensures |r| == |a.accepted| && forall i :: 0 <= i < |r| ==> i in a.ranks && r[i] == EntryAt(a, i)
  {
    AllRanked(a);
    seq(|a.accepted|, i requires 0 <= i < |a.accepted| => EntryAt(a, i))
  }

  /** The entries in the order of insertion. */
  function InOrderOfInsertion(a: Additions): (r: seq<PendingTx>)
    requires AllIn(a)
    ensures |r| == |a.inserted|
    ensures forall m :: 0 <= m < |r| ==>
              a.inserted[m] in a.ranks && a.inserted[m] < |a.accepted| && r[m] == EntryAt(a, a.inserted[m])
  {
    seq(|a.inserted|, m requires 0 <= m < |a.inserted| => EntryAt(a, a.inserted[m]))
  }

  predicate InsertedBefore(a: Additions, i: nat, j: nat) {
    exists m, n :: 0 <= m < n < |a.inserted| && a.inserted[m] == i && a.inserted[n] == j
  }

  /**
    Transactions of different senders drew their numbers in the order of acceptance. Those of one sender were accepted
    with rising nonces; where a nonce repeats, they were inserted in that order.
   */
  predicate KeptInOrder(a: Additions)
    requires AllIn(a)
  {
    AllRanked(a);
    forall i, j :: 0 <= i < j < |a.accepted| ==>
      if a.accepted[i].sender != a.accepted[j].sender then a.ranks[i] < a.ranks[j]
      else a.accepted[i].nonce < a.accepted[j].nonce ||
           (a.accepted[i].nonce == a.accepted[j].nonce && InsertedBefore(a, i, j))
  }

  lemma AcceptanceDistinct(a: Additions)
    requires AllIn(a)
    ensures NoRepeats(InOrderOfAcceptance(a)) && NoRepeats(InOrderOfInsertion(a))
  {
    var xs, ys := InOrderOfAcceptance(a), InOrderOfInsertion(a);
    forall i, j | 0 <= i < j < |xs| ensures xs[i] != xs[j] {
      assert xs[i].rank == a.ranks[i] && xs[j].rank == a.ranks[j];
    }
    forall m, n | 0 <= m < n < |ys| ensures ys[m] != ys[n] {
      assert ys[m].rank == a.ranks[a.inserted[m]] && ys[n].rank == a.ranks[a.inserted[n]];
    }
  }

  lemma SameMembers(a: Additions, x: PendingTx)
    requires AllIn(a)
    ensures x in InOrderOfAcceptance(a) <==> x in InOrderOfInsertion(a)
  {
    hide EntryAt;
    var xs, ys := InOrderOfAcceptance(a), InOrderOfInsertion(a);
    if x in xs {
      var i :| 0 <= i < |xs| && xs[i] == x;
      var m := WhenInserted(a, i);
      assert ys[m] == EntryAt(a, i);
    }
    if x in ys {
      var m :| 0 <= m < |ys| && ys[m] == x;
      assert xs[a.inserted[m]] == x;
    }
  }

  lemma SameEntries(a: Additions)
    requires AllIn(a)
    ensures multiset(InOrderOfAcceptance(a)) == multiset(InOrderOfInsertion(a))
  {
    hide AllIn, InOrderOfAcceptance, InOrderOfInsertion, NoRepeats;
    var xs, ys := InOrderOfAcceptance(a), InOrderOfInsertion(a);
    AcceptanceDistinct(a);
    forall x ensures multiset(xs)[x] == multiset(ys)[x] {
      OnlyOnce(xs, x);
      OnlyOnce(ys, x);
      SameMembers(a, x);
      assert x in xs <==> x in multiset(xs);
      assert x in ys <==> x in multiset(ys);
    }
  }

  /** The comparisons that count: each inserted transaction with those inserted before it. */
  predicate KeepsPlaces(a: Additions)
    requires AllIn(a)
  {
    var ys := InOrderOfInsertion(a);
    forall m, n :: 0 <= m < n < |a.inserted| ==> (Before(ys[n], ys[m]) <==> a.inserted[n] < a.inserted[m])
  }

  lemma PlacesAgree(a: Additions)
    requires AllIn(a)
    ensures KeepsPlaces(a) <==> Agrees(InOrderOfInsertion(a), InOrderOfAcceptance(a))
  {
    hide Before, Place, EntryAt, NoRepeats, Orderly;
    var xs, ys := InOrderOfAcceptance(a), InOrderOfInsertion(a);
    AcceptanceDistinct(a);
    forall m, n | 0 <= m < n < |ys| ensures Precedes(xs, ys[n], ys[m]) <==> a.inserted[n] < a.inserted[m] {
      PlaceAt(xs, a.inserted[m]);
      PlaceAt(xs, a.inserted[n]);
      assert xs[a.inserted[m]] == ys[m] && xs[a.inserted[n]] == ys[n];
    }
  }

  lemma PlacesKept(a: Additions)
    requires AllIn(a) && KeepsPlaces(a)
    ensures KeptInOrder(a)
  {
    AllRanked(a);
    var ys := InOrderOfInsertion(a);
    forall i, j | 0 <= i < j < |a.accepted|
      ensures if a.accepted[i].sender != a.accepted[j].sender then a.ranks[i] < a.ranks[j]
              else a.accepted[i].nonce < a.accepted[j].nonce ||
                   (a.accepted[i].nonce == a.accepted[j].nonce && InsertedBefore(a, i, j))
    {
      var m := WhenInserted(a, i);
      var n := WhenInserted(a, j);
      if m < n {
        assert !Before(ys[n], ys[m]) && InsertedBefore(a, i, j);
      } else {
        assert Before(ys[m], ys[n]);
      }
    }
  }

  lemma KeptPlaces(a: Additions)
    requires AllIn(a) && KeptInOrder(a)
    ensures KeepsPlaces(a)
  {
    AllRanked(a);
    var ys := InOrderOfInsertion(a);
    forall m, n | 0 <= m < n < |a.inserted| ensures Before(ys[n], ys[m]) <==> a.inserted[n] < a.inserted[m] {
      var i, j := a.inserted[m], a.inserted[n];
      if j < i { OnlyBefore(a, m, n); }
      assert a.ranks[i] != a.ranks[j];
    }
  }

  lemma OnlyBefore(a: Additions, m: nat, n: nat)
    requires Orderly(a) && m < n < |a.inserted|
    ensures !InsertedBefore(a, a.inserted[n], a.inserted[m])
  {
  }

  /**
    For additions that overlap in any way: whatever the tree, the pool serves them in the order of acceptance if and
    only if senders who differ drew their numbers in that order, each sender was accepted with rising nonces, and
    transactions that share a nonce were inserted in that order.
   */
  lemma OverlappingServedIff(s: State, rank: nat, ms: seq<Move>, a: Additions)
    requires Moves(Idle(s, rank), ms, a) && AllIn(a)
    ensures a.accepted == AcceptedTxs(s, CallsOf(ms))
    ensures Serves(InOrderOfInsertion(a), InOrderOfAcceptance(a)) <==> KeptInOrder(a)
  {
    hide Moves, AllIn, InOrderOfAcceptance, InOrderOfInsertion, NoRepeats, Serves, Agrees, KeptInOrder, KeepsPlaces,
      AcceptedTxs, CallsOf;
    AcceptedRun(Idle(s, rank), ms, a);
    AcceptanceDistinct(a);
    SameEntries(a);
    ServesExactly(InOrderOfInsertion(a), InOrderOfAcceptance(a));
    PlacesAgree(a);
    if KeptInOrder(a) { KeptPlaces(a); }
    if KeepsPlaces(a) { PlacesKept(a); }
  }

  lemma {:induction false} MovesConcat(a: Additions, ms: seq<Move>, b: Additions, ns: seq<Move>, c: Additions)
    requires Moves(a, ms, b) && Moves(b, ns, c)
    ensures Moves(a, ms + ns, c)
    decreases |ms|
  {
    hide CanMove, Moved;
    if ms == [] {
      assert ms + ns == ns;
    } else {
      MovesConcat(Moved(a, ms[0]), ms[1..], b, ns, c);
      assert (ms + ns)[1..] == ms[1..] + ns;
    }
  }

  lemma MovesOne(a: Additions, m: Move)
    requires CanMove(a, m)
    ensures Moves(a, [m], Moved(a, m))
  {
    hide Moved, CanMove;
    assert [m][1..] == [];
  }

  lemma MovesOn(a: Additions, ms: seq<Move>, b: Additions, m: Move, more: seq<Move>)
    requires Moves(a, ms, b) && CanMove(b, m) && more == ms + [m]
    ensures Moves(a, more, Moved(b, m))
  {
    hide Moved, CanMove, Moves;
    MovesOne(b, m);
    MovesConcat(a, ms, b, [m], Moved(b, m));
  }

  lemma ThreeDrawn(a: Additions)
    requires |a.accepted| == 3 && a.ranks == map[] && a.next == 0 && a.inserted == []
    ensures Moves(a, [Draw(1), Draw(2), Draw(0), Put(0), Put(1), Put(2)],
                  a.(ranks := map[1 := 0, 2 := 1, 0 := 2], next := 3, inserted := [0, 1, 2]))
  {
    hide Moves;
    MovesOne(a, Draw(1));
    var b := Moved(a, Draw(1));
    MovesOn(a, [Draw(1)], b, Draw(2), [Draw(1), Draw(2)]);
    var c := Moved(b, Draw(2));
    MovesOn(a, [Draw(1), Draw(2)], c, Draw(0), [Draw(1), Draw(2), Draw(0)]);
    var d := Moved(c, Draw(0));
    assert d.ranks == map[1 := 0, 2 := 1, 0 := 2];
    MovesOn(a, [Draw(1), Draw(2), Draw(0)], d, Put(0), [Draw(1), Draw(2), Draw(0), Put(0)]);
    var e := Moved(d, Put(0));
    MovesOn(a, [Draw(1), Draw(2), Draw(0), Put(0)], e, Put(1), [Draw(1), Draw(2), Draw(0), Put(0), Put(1)]);
    var f := Moved(e, Put(1));
    MovesOn(a, [Draw(1), Draw(2), Draw(0), Put(0), Put(1)], f, Put(2),
            [Draw(1), Draw(2), Draw(0), Put(0), Put(1), Put(2)]);
    assert Moved(f, Put(2)).inserted == [0, 1, 2];
  }

  lemma ThreeChecked(s: State, x: Call, y: Call, z: Call)
    requires x.Validate? && y.Validate? && z.Validate?
    requires Admits(s, x) && Admits(Step(s, x), y) && Admits(Step(Step(s, x), y), z)
    ensures Moves(Idle(s, 0), [Check(x), Check(y), Check(z)],
                  Additions(Step(Step(Step(s, x), y), z), [x.tx, y.tx, z.tx], map[], 0, []))
  {
    hide Moves, Step, Admits;
    var a := Idle(s, 0);
    MovesOne(a, Check(x));
    var b := Moved(a, Check(x));
    MovesOn(a, [Check(x)], b, Check(y), [Check(x), Check(y)]);
    MovesOn(a, [Check(x), Check(y)], Moved(b, Check(y)), Check(z), [Check(x), Check(y), Check(z)]);
    assert Moved(Moved(b, Check(y)), Check(z)).accepted == [x.tx, y.tx, z.tx];
  }

  lemma CallsOfThree(x: Call, y: Call, z: Call, rest: seq<Move>)
    requires forall i :: 0 <= i < |rest| ==> !rest[i].Check?
    ensures CallsOf([Check(x), Check(y), Check(z)] + rest) == [x, y, z]
  {
    NoCallsIn(rest);
    var ms := [Check(x), Check(y), Check(z)] + rest;
    assert ms[1..] == [Check(y), Check(z)] + rest && ms[1..][1..] == [Check(z)] + rest && ms[1..][1..][1..] == rest;
    assert CallsOf(ms[1..][1..]) == [z] + CallsOf(rest);
    assert CallsOf(ms[1..]) == [y] + CallsOf(ms[1..][1..]);
  }

  lemma {:induction false} NoCallsIn(ms: seq<Move>)
    requires forall i :: 0 <= i < |ms| ==> !ms[i].Check?
    ensures CallsOf(ms) == []
  {
    if ms != [] { NoCallsIn(ms[1..]); }
  }

  lemma AfterThree(s: State, x: Call, y: Call, z: Call)
    ensures After(s, [x, y, z]) == Step(Step(Step(s, x), y), z)
  {
    hide Step;
    assert [x, y, z][1..] == [y, z] && [y, z][1..] == [z] && [z][1..] == [];
    assert After(Step(s, x), [y, z]) == After(Step(Step(s, x), y), [z]);
  }

  const EARLY := Tx(1, 7, 0, Invoke)
  const LATE := Tx(2, 7, 1, Invoke)
  const OTHER := Tx(3, 8, 0, Invoke)

  /** Three accepted transactions; the first sender's two draw their numbers in the wrong order, around the other's. */
  function WedgingRun(check: bool -> Check): seq<Move> {
    [Check(Validate(EARLY, true, check)), Check(Validate(LATE, true, check)), Check(Validate(OTHER, true, check))] +
    [Draw(1), Draw(2), Draw(0), Put(0), Put(1), Put(2)]
  }

  function WedgedBy(t: State): Additions {
    Additions(t, [EARLY, LATE, OTHER], map[1 := 0, 2 := 1, 0 := 2], 3, [0, 1, 2])
  }

  lemma ThreeAdmitted(check: bool -> Check)
    requires forall skip :: check(skip) == Passes
    ensures var x, y, z := Validate(EARLY, true, check), Validate(LATE, true, check), Validate(OTHER, true, check);
            Admits(NEW_CHAIN, x) && Admits(Step(NEW_CHAIN, x), y) && Admits(Step(Step(NEW_CHAIN, x), y), z)
  {
  }

  lemma WedgeReached(check: bool -> Check)
    requires forall skip :: check(skip) == Passes
    ensures Moves(Idle(NEW_CHAIN, 0), WedgingRun(check), WedgedBy(After(NEW_CHAIN, CallsOf(WedgingRun(check)))))
  {
    hide Step, Admits, Moves, CallsOf, After;
    var x, y, z := Validate(EARLY, true, check), Validate(LATE, true, check), Validate(OTHER, true, check);
    ThreeAdmitted(check);
    ThreeChecked(NEW_CHAIN, x, y, z);
    var t := Step(Step(Step(NEW_CHAIN, x), y), z);
    var accepted := Additions(t, [EARLY, LATE, OTHER], map[], 0, []);
    ThreeDrawn(accepted);
    var rest := [Draw(1), Draw(2), Draw(0), Put(0), Put(1), Put(2)];
    MovesConcat(Idle(NEW_CHAIN, 0), [Check(x), Check(y), Check(z)], accepted, rest, WedgedBy(t));
    CallsOfThree(x, y, z, rest);
    AfterThree(NEW_CHAIN, x, y, z);
  }

  /** That is a wedge: the order in which the pool serves the three depends on the tree. */
  lemma WedgeUncertain(t: State)
    ensures AllIn(WedgedBy(t))
    ensures var early, late, other := EntryOf(EARLY, 2), EntryOf(LATE, 0), EntryOf(OTHER, 1);
            && InOrderOfInsertion(WedgedBy(t)) == [early, late, other] && Wedge(early, late, other)
            && Builds([early, late, other], [[], [early], [early, late], [early, late, other]])
            && Builds([early, late, other], [[], [early], [early, late], [other, early, late]])
  {
    var early, late, other := EntryOf(EARLY, 2), EntryOf(LATE, 0), EntryOf(OTHER, 1);
    StandsAt([], early, 0, [early]);
    StandsAt([early], late, 1, [early, late]);
    StandsAt([early, late], other, 2, [early, late, other]);
    StandsAt([early, late], other, 0, [other, early, late]);
    WedgedIn(t);
    hide IsInsertion;
  }

  lemma WedgedIn(t: State)
    ensures AllIn(WedgedBy(t))
    ensures InOrderOfInsertion(WedgedBy(t)) == [EntryOf(EARLY, 2), EntryOf(LATE, 0), EntryOf(OTHER, 1)]
  {
    var a := WedgedBy(t);
    assert a.inserted[0] == 0 && a.inserted[1] == 1 && a.inserted[2] == 2;
  }
}

/** Which of the messages that are handed over to the pool the validator accepts. */
module MessageAdmission {
  import M = Messaging
  import opened Outcomes
  import opened StateDiff
  import opened Validator

  function TxOf(m: M.Message): Tx {
    Tx(m.hash, m.target, m.nonce, L1Handler)
  }

  predicate IsMessage(call: Call) {
    call.Validate? && call.tx.kind.L1Handler?
  }

  function MessageOf(call: Call): M.Message
    requires IsMessage(call)
  {
    M.Message(call.tx.hash, call.tx.sender, call.tx.nonce)
  }

  /** The messages among the calls of the validator, in order. */
  function MessagesIn(calls: seq<Call>): seq<M.Message> {
    if calls == [] then []
    else (if IsMessage(calls[0]) then [MessageOf(calls[0])] else []) + MessagesIn(calls[1..])
  }

  /** The nonces of the messages to one contract. */
  function NoncesTo(messages: seq<M.Message>, target: nat): seq<nat> {
    if messages == [] then []
    else (if messages[0].target == target then [messages[0].nonce] else []) + NoncesTo(messages[1..], target)
  }

  // ---- One message ------------------------------------------------------

  /** The view after some calls. */
  function ViewAfter(v: View, calls: seq<Call>): View
    decreases |calls|
  {
    if calls == [] then v else ViewAfter(if calls[0].Update? then calls[0].to else v, calls[1..])
  }

  lemma {:induction false} ViewIs(s: State, calls: seq<Call>)
    ensures After(s, calls).view == ViewAfter(s.view, calls)
    decreases |calls|
  {
    hide Verdict;
    if calls != [] { ViewIs(Step(s, calls[0]), calls[1..]); }
  }

  /** The nonce whose turn it is, read off the calls. */
  function Turn(s: State, calls: seq<Call>, target: nat): nat {
    var n := |AcceptedNonces(s, calls, target)|;
    if n > 0 then (BaseNonce(s, calls, target) + n) % FELT_PRIME
    else if target in s.pool then s.pool[target]
    else StateNonce(ViewAfter(s.view, calls), target)
  }

  /**
    At any point of any run, a message is accepted if and only if its nonce is at most the number of its target's
    transactions accepted so far, counted from the nonce the target had at the first of them.
   */
  lemma MessageAcceptedIff(s: State, calls: seq<Call>, m: M.Message, accountValidation: bool, account: bool -> Check)
    ensures Accepts(After(s, calls), Validate(TxOf(m), accountValidation, account), m.target) <==>
            m.nonce <= Turn(s, calls, m.target)
  {
    hide Step, AcceptedNonces, BaseNonce, ViewAfter;
    NonceCountsAccepted(s, calls, m.target);
    ViewIs(s, calls);
    L1HandlerValidIff(After(s, calls), TxOf(m), accountValidation, account);
  }

  // ---- A contract that only gets messages -------------------------------

  /** Of the nonces `sent` to a contract whose turn is `turn`, those that are accepted. */
  function Taken(turn: nat, sent: seq<nat>): seq<nat>
    decreases |sent|
  {
    if sent == [] then []
    else if sent[0] <= turn then [sent[0]] + Taken(turn + 1, sent[1..])
    else Taken(turn, sent[1..])
  }

  /** The target sends nothing of its own, and its nonce in the state stays as it is. */
  predicate OnlyReceives(s: State, calls: seq<Call>, target: nat) {
    forall i :: 0 <= i < |calls| ==>
      if calls[i].Update? then StateNonce(calls[i].to, target) == StateNonce(s.view, target)
      else calls[i].tx.sender == target ==> calls[i].tx.kind.L1Handler?
  }

  /** The message is next, and moves the turn if it is accepted. */
  lemma TurnStep(s: State, call: Call, target: nat)
    requires CurrentNonce(s, target) + 1 < FELT_PRIME
    requires if call.Update? then StateNonce(call.to, target) == StateNonce(s.view, target)
             else call.tx.sender == target ==> call.tx.kind.L1Handler?
    ensures Accepts(s, call, target) <==>
            IsMessage(call) && call.tx.sender == target && call.tx.nonce <= CurrentNonce(s, target)
    ensures CurrentNonce(Step(s, call), target) ==
            CurrentNonce(s, target) + if Accepts(s, call, target) then 1 else 0
    ensures StateNonce(Step(s, call).view, target) == StateNonce(s.view, target)
  {
  }

  lemma SentUnfold(calls: seq<Call>, target: nat)
    requires calls != []
    ensures var rest := NoncesTo(MessagesIn(calls[1..]), target);
            NoncesTo(MessagesIn(calls), target) ==
            if IsMessage(calls[0]) && calls[0].tx.sender == target then [calls[0].tx.nonce] + rest else rest
  {
    var rest := MessagesIn(calls[1..]);
    if IsMessage(calls[0]) {
      var all := [MessageOf(calls[0])] + rest;
      assert MessagesIn(calls) == all && all[1..] == rest;
    } else {
      assert MessagesIn(calls) == rest;
    }
  }

  lemma ReceivesStep(s: State, calls: seq<Call>, target: nat)
    requires calls != [] && OnlyReceives(s, calls, target)
    requires StateNonce(Step(s, calls[0]).view, target) == StateNonce(s.view, target)
    ensures OnlyReceives(Step(s, calls[0]), calls[1..], target)
  {
    hide Step, StateNonce;
    forall i | 0 <= i < |calls[1..]| ensures calls[1..][i] == calls[i + 1] {
    }
  }

  lemma FirstReceives(s: State, calls: seq<Call>, target: nat)
    requires calls != [] && OnlyReceives(s, calls, target)
    ensures if calls[0].Update? then StateNonce(calls[0].to, target) == StateNonce(s.view, target)
            else calls[0].tx.sender == target ==> calls[0].tx.kind.L1Handler?
  {
  }

  /** Over every run: the accepted messages to a contract are those whose nonce is not ahead of its turn. */
  lemma {:induction false} TakenIs(s: State, calls: seq<Call>, target: nat)
    requires OnlyReceives(s, calls, target)
    requires CurrentNonce(s, target) + |NoncesTo(MessagesIn(calls), target)| + 1 < FELT_PRIME
    ensures AcceptedNonces(s, calls, target) == Taken(CurrentNonce(s, target), NoncesTo(MessagesIn(calls), target))
    decreases |calls|
  {
    hide Step, Accepts, OnlyReceives, CurrentNonce, StateNonce, FELT_PRIME;
    if calls != [] {
      hide AcceptedNonces, MessagesIn, NoncesTo;
      FirstReceives(s, calls, target);
      TurnStep(s, calls[0], target);
      ReceivesStep(s, calls, target);
      SentUnfold(calls, target);
      AcceptedUnfold(s, calls, target);
      TakenIs(Step(s, calls[0]), calls[1..], target);
      var rest := NoncesTo(MessagesIn(calls[1..]), target);
      TakenCons(CurrentNonce(s, target), if IsMessage(calls[0]) then calls[0].tx.nonce else 0, rest);
    }
  }

  lemma TakenCons(turn: nat, nonce: nat, rest: seq<nat>)
    ensures Taken(turn, [nonce] + rest) == if nonce <= turn then [nonce] + Taken(turn + 1, rest) else Taken(turn, rest)
  {
    assert ([nonce] + rest)[1..] == rest;
  }

  /** Every nonce is at most the turn it meets when all before it are accepted. */
  predicate NeverAhead(turn: nat, sent: seq<nat>) {
    forall k :: 0 <= k < |sent| ==> sent[k] <= turn + k
  }

  lemma {:induction false} TakenBounded(turn: nat, sent: seq<nat>)
    ensures |Taken(turn, sent)| <= |sent|
    decreases |sent|
  {
    if sent != [] {
      TakenBounded(turn + 1, sent[1..]);
      TakenBounded(turn, sent[1..]);
    }
  }

  lemma {:induction false} AllTakenIff(turn: nat, sent: seq<nat>)
    ensures Taken(turn, sent) == sent <==> NeverAhead(turn, sent)
    decreases |sent|
  {
    if sent != [] {
      AllTakenIff(turn + 1, sent[1..]);
      if sent[0] <= turn {
        assert sent == [sent[0]] + sent[1..];
        assert Taken(turn, sent)[1..] == Taken(turn + 1, sent[1..]);
        NeverAheadCons(turn, sent);
      } else {
        TakenBounded(turn, sent[1..]);
        assert !NeverAhead(turn, sent) by { assert sent[0] > turn + 0; }
      }
    }
  }

  lemma NeverAheadCons(turn: nat, sent: seq<nat>)
    requires sent != []
    ensures NeverAhead(turn, sent) <==> sent[0] <= turn && NeverAhead(turn + 1, sent[1..])
  {
    if NeverAhead(turn, sent) {
      forall k | 0 <= k < |sent[1..]| ensures sent[1..][k] <= turn + 1 + k {
        assert sent[1..][k] == sent[k + 1];
      }
    }
    if sent[0] <= turn && NeverAhead(turn + 1, sent[1..]) {
      forall k | 0 <= k < |sent| ensures sent[k] <= turn + k {
        if k > 0 { assert sent[k] == sent[1..][k - 1]; }
      }
    }
  }

  /** Everything from the first nonce that is ahead is lost, when nonces increase. */
  lemma {:induction false} GapLosesRest(turn: nat, sent: seq<nat>, k: nat)
    requires k < |sent| && (forall i, j :: 0 <= i < j < |sent| ==> sent[i] < sent[j])
    requires sent[k] > turn + k && NeverAhead(turn, sent[..k])
    ensures Taken(turn, sent) == sent[..k]
    decreases k
  {
    if k == 0 {
      NoneTaken(turn, sent);
    } else {
      NeverAheadCons(turn, sent[..k]);
      assert sent[..k][1..] == sent[1..][..k - 1] && sent[1..][k - 1] == sent[k];
      GapLosesRest(turn + 1, sent[1..], k - 1);
      assert sent[..k] == [sent[0]] + sent[1..][..k - 1];
    }
  }

  lemma {:induction false} NoneTaken(turn: nat, sent: seq<nat>)
    requires forall i :: 0 <= i < |sent| ==> sent[i] > turn
    ensures Taken(turn, sent) == []
    decreases |sent|
  {
    if sent != [] { NoneTaken(turn, sent[1..]); }
  }

  // ---- From the settlement chain to the pool ----------------------------

  /**
    For every run of a new messaging service and every run of the validator in which the messages it hands over are
    validated: the accepted messages to a contract that only receives are determined by the blocks gathered, and all
    of them are accepted if and only if none is ahead of its turn.
   */
  lemma DeliveredAcceptedIff(
      chain: M.Settlement, start: nat, polls: seq<M.Poll>, tip: nat, s: State, calls: seq<Call>, target: nat)
    requires start <= tip + 1 && M.TipsGrow(polls, tip)
    requires MessagesIn(calls) == M.After(chain, M.State(start, None, []), polls).delivered
    requires OnlyReceives(s, calls, target)
    requires CurrentNonce(s, target) + |NoncesTo(MessagesIn(calls), target)| + 1 < FELT_PRIME
    ensures var cursor := M.After(chain, M.State(start, None, []), polls).cursor;
            var sent := NoncesTo(M.Deliverable(chain, start, cursor), target);
            && AcceptedNonces(s, calls, target) == Taken(CurrentNonce(s, target), sent)
            && (AcceptedNonces(s, calls, target) == sent <==> NeverAhead(CurrentNonce(s, target), sent))
  {
    hide OnlyReceives, CurrentNonce, NoncesTo, MessagesIn, AcceptedNonces, Taken, M.After, M.Deliverable, FELT_PRIME;
    M.DeliversExactlyOnce(chain, start, polls, tip);
    TakenIs(s, calls, target);
    AllTakenIff(CurrentNonce(s, target), NoncesTo(MessagesIn(calls), target));
  }
}

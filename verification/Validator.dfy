/** The stateful validator of the pool, and the nonces it tracks. */
module Validator {
  import opened NumberTheory
  import opened Outcomes
  import opened StateDiff

  datatype Kind = Declare(classHash: nat) | DeployAccount | Invoke | L1Handler

  datatype Tx = Tx(hash: nat, sender: nat, nonce: nat, kind: Kind)

  /** What running the account's validation says. */
  datatype Check = Passes | Fails(error: nat) | Breaks(error: nat)

  datatype Invalidity = ClassAlreadyDeclared(classHash: nat) | Refused(error: nat)

  datatype Outcome = Valid | Invalid(reason: Invalidity) | Dependent(current: nat, nonce: nat) | Broken(error: nat)

  /** The state the validator looks at; looking up an `unreadable` class fails. */
  datatype View = View(nonces: map<nat, nat>, classes: set<nat>, unreadable: set<nat>)

  const PROVIDER_ERROR: nat := 0

  datatype State = State(view: View, pool: map<nat, nat>)

  /** The nonce in the state, or zero for an unknown account. */
  function StateNonce(v: View, address: nat): nat {
    if address in v.nonces then v.nonces[address] else 0
  }

  /** The nonce the next transaction of an account should have. */
  function CurrentNonce(s: State, address: nat): nat {
    if address in s.pool then s.pool[address] else StateNonce(s.view, address)
  }

  predicate SkipsValidation(tx: Tx, current: nat) {
    !tx.kind.DeployAccount? && !tx.kind.Declare? && tx.nonce == 1 && current == 0
  }

  predicate FeltNonces(v: View) {
    forall a :: a in v.nonces ==> v.nonces[a] < FELT_PRIME
  }

  /** Every nonce is a field element. */
  predicate WellTypedState(s: State) {
    FeltNonces(s.view) && forall a :: a in s.pool ==> s.pool[a] < FELT_PRIME
  }

  /** The verdict; `account` runs the account's validation, told whether to skip its signature check. */
  function Verdict(s: State, tx: Tx, accountValidation: bool, account: bool -> Check): Outcome {
    var current := CurrentNonce(s, tx.sender);
    if tx.kind.Declare? && tx.kind.classHash in s.view.unreadable then Broken(PROVIDER_ERROR)
    else if tx.kind.Declare? && tx.kind.classHash in s.view.classes then Invalid(ClassAlreadyDeclared(tx.kind.classHash))
    else if tx.nonce > current then Dependent(current, tx.nonce)
    else if tx.kind.L1Handler? then Valid
    else match account(!accountValidation || SkipsValidation(tx, current))
      case Passes => Valid
      case Fails(error) => Invalid(Refused(error))
      case Breaks(error) => Broken(error)
  }

  /** A valid transaction moves its sender's nonce in the pool by one. */
  function Validated(s: State, tx: Tx, outcome: Outcome): State {
    if outcome.Valid? then s.(pool := s.pool[tx.sender := (CurrentNonce(s, tx.sender) + 1) % FELT_PRIME]) else s
  }

  /**
    The signature check is never skipped for an account that is being deployed: a transaction with nonce one
    on an account with nonce zero has already been turned away as dependent.
   */
  lemma NeverSkipped(s: State, tx: Tx, accountValidation: bool, account: bool -> Check)
    ensures Verdict(s, tx, accountValidation, account) == Verdict(s, tx, accountValidation, _ => account(!accountValidation))
    ensures SkipsValidation(tx, CurrentNonce(s, tx.sender)) &&
            !(tx.kind.Declare? && tx.kind.classHash in s.view.classes + s.view.unreadable) ==>
              Verdict(s, tx, accountValidation, account).Dependent?
  {
  }

  /** The class of a declaration can be looked up and is new. */
  predicate ClassIsNew(s: State, tx: Tx) {
    tx.kind.Declare? ==> tx.kind.classHash !in s.view.classes && tx.kind.classHash !in s.view.unreadable
  }

  /** The nonce is at most the one in the pool, or else in the state, or else zero. */
  predicate NotAhead(s: State, tx: Tx) {
    tx.nonce <= if tx.sender in s.pool then s.pool[tx.sender]
                else if tx.sender in s.view.nonces then s.view.nonces[tx.sender]
                else 0
  }

  /** What the account says when its validation is run, without a signature check if validation is turned off. */
  function Answer(tx: Tx, accountValidation: bool, account: bool -> Check): Check {
    if tx.kind.L1Handler? then Passes else account(!accountValidation)
  }

  /** Valid: the class is new, the nonce not ahead, and the account agrees unless it is a message. */
  lemma ValidIff(s: State, tx: Tx, accountValidation: bool, account: bool -> Check)
    ensures Verdict(s, tx, accountValidation, account).Valid? <==>
            ClassIsNew(s, tx) && NotAhead(s, tx) && Answer(tx, accountValidation, account) == Passes
  {
    NeverSkipped(s, tx, accountValidation, account);
  }

  /** Invalid: a known class is declared again, or the account refuses. */
  lemma InvalidIff(s: State, tx: Tx, accountValidation: bool, account: bool -> Check, reason: Invalidity)
    ensures Verdict(s, tx, accountValidation, account) == Invalid(reason) <==>
            match reason
            case ClassAlreadyDeclared(h) => tx.kind == Declare(h) && h in s.view.classes && h !in s.view.unreadable
            case Refused(error) =>
              ClassIsNew(s, tx) && NotAhead(s, tx) && Answer(tx, accountValidation, account) == Fails(error)
  {
    NeverSkipped(s, tx, accountValidation, account);
  }

  /** Dependent: the nonce is ahead. */
  lemma DependentIff(s: State, tx: Tx, accountValidation: bool, account: bool -> Check)
    ensures Verdict(s, tx, accountValidation, account).Dependent? <==> ClassIsNew(s, tx) && !NotAhead(s, tx)
    ensures Verdict(s, tx, accountValidation, account).Dependent? ==>
              Verdict(s, tx, accountValidation, account) == Dependent(CurrentNonce(s, tx.sender), tx.nonce)
  {
    NeverSkipped(s, tx, accountValidation, account);
  }

  /** Broken: the class cannot be looked up, or the validation itself fails. */
  lemma BrokenIff(s: State, tx: Tx, accountValidation: bool, account: bool -> Check, error: nat)
    ensures Verdict(s, tx, accountValidation, account) == Broken(error) <==>
            || (tx.kind.Declare? && tx.kind.classHash in s.view.unreadable && error == PROVIDER_ERROR)
            || (ClassIsNew(s, tx) && NotAhead(s, tx) && Answer(tx, accountValidation, account) == Breaks(error))
  {
    NeverSkipped(s, tx, accountValidation, account);
  }

  /** A message from the settlement chain is accepted exactly when its nonce is not ahead of its target's. */
  lemma L1HandlerValidIff(s: State, tx: Tx, accountValidation: bool, account: bool -> Check)
    requires tx.kind.L1Handler?
    ensures Verdict(s, tx, accountValidation, account).Valid? <==> tx.nonce <= CurrentNonce(s, tx.sender)
  {
  }

  /** So the gatherer, which ignores the verdict, loses a message with nonce five to a contract that has had none. */
  lemma MessageLost(account: bool -> Check)
    ensures Verdict(State(View(map[], {}, {}), map[]), Tx(1, 7, 5, L1Handler), true, account) == Dependent(0, 5)
  {
  }

  class TxValidator {
    const accountValidation: bool
    var view: View
    var poolNonces: map<nat, nat>

    constructor (view: View, accountValidation: bool)
      ensures Contents() == State(view, map[]) && this.accountValidation == accountValidation
    {
      this.view, this.accountValidation, poolNonces := view, accountValidation, map[];
    }

    function Contents(): State
      reads this
    {
      State(view, poolNonces)
    }

    /** Looks at a new state; the nonces of the pool stay. */
    method Update(view: View)
      modifies this`view
      ensures Contents() == old(Contents()).(view := view)
    {
      this.view := view;
    }

    method PoolNonce(address: nat) returns (r: Option<nat>)
      ensures r == if address in poolNonces then Some(poolNonces[address])
                   else if address in view.nonces then Some(view.nonces[address])
                   else None
      ensures CurrentNonce(Contents(), address) == if r.Some? then r.value else 0
    {
      if address in poolNonces {
        r := Some(poolNonces[address]);
      } else if address in view.nonces {
        r := Some(view.nonces[address]);
      } else {
        r := None;
      }
    }

    method Validate(tx: Tx, account: bool -> Check) returns (outcome: Outcome)
      modifies this`poolNonces
      ensures outcome == Verdict(old(Contents()), tx, accountValidation, account)
      ensures Contents() == Validated(old(Contents()), tx, outcome)
    {
      if tx.kind.Declare? && tx.kind.classHash in view.unreadable {
        return Broken(PROVIDER_ERROR);
      }
      if tx.kind.Declare? && tx.kind.classHash in view.classes {
        return Invalid(ClassAlreadyDeclared(tx.kind.classHash));
      }
      var current := 0;
      if tx.sender in poolNonces {
        current := poolNonces[tx.sender];
      } else if tx.sender in view.nonces {
        current := view.nonces[tx.sender];
      }
      if tx.nonce > current {
        return Dependent(current, tx.nonce);
      }
      var skip := match tx.kind
        case DeployAccount => false
        case Declare(_) => false
        case _ => tx.nonce == 1 && current == 0;
      outcome := Valid;
      if !tx.kind.L1Handler? {
        match account(!accountValidation || skip)
        case Passes => outcome := Valid;
        case Fails(error) => outcome := Invalid(Refused(error));
        case Breaks(error) => outcome := Broken(error);
      }
      if outcome.Valid? {
        poolNonces := poolNonces[tx.sender := (current + 1) % FELT_PRIME];
      }
    }
  }

  // ---- Runs -------------------------------------------------------------

  /** A call: an update, or a validation and the check it makes. */
  datatype Call = Update(to: View) | Validate(tx: Tx, accountValidation: bool, account: bool -> Check)

  function Step(s: State, call: Call): State {
    match call
    case Update(view) => s.(view := view)
    case Validate(tx, accountValidation, account) =>
      Validated(s, tx, Verdict(s, tx, accountValidation, account))
  }

  function After(s: State, calls: seq<Call>): State
    decreases |calls|
  {
    if calls == [] then s else After(Step(s, calls[0]), calls[1..])
  }

  predicate Accepts(s: State, call: Call, address: nat) {
    && call.Validate? && call.tx.sender == address
    && Verdict(s, call.tx, call.accountValidation, call.account).Valid?
  }

  /** The nonces of the accepted transactions of an account, in order. */
  function AcceptedNonces(s: State, calls: seq<Call>, address: nat): seq<nat>
    decreases |calls|
  {
    if calls == [] then []
    else (if Accepts(s, calls[0], address) then [calls[0].tx.nonce] else [])
         + AcceptedNonces(Step(s, calls[0]), calls[1..], address)
  }

  /** The nonce the account starts from: the one it has when its first transaction is accepted. */
  function BaseNonce(s: State, calls: seq<Call>, address: nat): nat
    decreases |calls|
  {
    if calls == [] || Accepts(s, calls[0], address) then CurrentNonce(s, address)
    else BaseNonce(Step(s, calls[0]), calls[1..], address)
  }

  predicate FeltViews(calls: seq<Call>) {
    forall i :: 0 <= i < |calls| && calls[i].Update? ==> FeltNonces(calls[i].to)
  }

  lemma ModSuccessor(base: nat, n: nat, p: nat)
    requires p > 0
    ensures ((base + 1) % p + n) % p == (base + 1 + n) % p
  {
    CongruentMod(base + 1, p);
    CongruentAdd((base + 1) % p, base + 1, n, n, p);
  }

  /** Once the pool tracks an account, only its own accepted transactions move its nonce. */
  lemma StepNonce(s: State, call: Call, address: nat)
    ensures Accepts(s, call, address) ==>
              address in Step(s, call).pool && Step(s, call).pool[address] == (CurrentNonce(s, address) + 1) % FELT_PRIME
    ensures !Accepts(s, call, address) ==>
              && (address in Step(s, call).pool <==> address in s.pool)
              && (address in s.pool ==> Step(s, call).pool[address] == s.pool[address])
  {
    hide Verdict;
  }

  lemma {:induction false} BaseInPool(s: State, calls: seq<Call>, address: nat)
    requires address in s.pool
    ensures BaseNonce(s, calls, address) == s.pool[address]
    decreases |calls|
  {
    hide Step, Accepts;
    if calls != [] && !Accepts(s, calls[0], address) {
      StepNonce(s, calls[0], address);
      BaseInPool(Step(s, calls[0]), calls[1..], address);
    }
  }

  lemma AcceptedUnfold(s: State, calls: seq<Call>, address: nat)
    requires calls != []
    ensures var rest := AcceptedNonces(Step(s, calls[0]), calls[1..], address);
            AcceptedNonces(s, calls, address) ==
            if Accepts(s, calls[0], address) then [calls[0].tx.nonce] + rest else rest
  {
    hide Step, Accepts;
  }

  /**
    The nonce of an account in the pool is the nonce it had when its first transaction was accepted, plus the number
    of its accepted transactions, whatever was refused and however often the state was replaced in between.
   */
  lemma {:induction false} NonceCountsAccepted(s: State, calls: seq<Call>, address: nat)
    ensures var n, t := |AcceptedNonces(s, calls, address)|, After(s, calls);
            && (n == 0 ==> (address in t.pool <==> address in s.pool) && (address in s.pool ==> t.pool[address] == s.pool[address]))
            && (n > 0 ==> address in t.pool && t.pool[address] == (BaseNonce(s, calls, address) + n) % FELT_PRIME)
    decreases |calls|
  {
    if calls != [] {
      hide Step, Accepts, AcceptedNonces, FELT_PRIME;
      var u := Step(s, calls[0]);
      AcceptedUnfold(s, calls, address);
      StepNonce(s, calls[0], address);
      NonceCountsAccepted(u, calls[1..], address);
      if Accepts(s, calls[0], address) {
        BaseInPool(u, calls[1..], address);
        ModSuccessor(CurrentNonce(s, address), |AcceptedNonces(u, calls[1..], address)|, FELT_PRIME);
      }
    } else {
      assert AcceptedNonces(s, calls, address) == [];
    }
  }

  /** The nonce of every accepted transaction is at most the nonce its account has in the pool at that moment. */
  lemma {:induction false} AcceptedAtMostCurrent(s: State, calls: seq<Call>, address: nat, i: nat)
    requires WellTypedState(s) && FeltViews(calls) && i < |AcceptedNonces(s, calls, address)|
    ensures AcceptedNonces(s, calls, address)[i] <= (BaseNonce(s, calls, address) + i) % FELT_PRIME
    decreases |calls|
  {
    hide *;
    if calls == [] {
      NoCalls(s, address);
    } else {
      var call, u := calls[0], Step(s, calls[0]);
      AcceptedUnfold(s, calls, address);
      BaseUnfold(s, calls, address);
      StepTyped(s, calls);
      if Accepts(s, call, address) {
        AcceptsAtMost(s, call, address);
        if i > 0 {
          AcceptedAtMostCurrent(u, calls[1..], address, i - 1);
          StepNonce(s, call, address);
          BaseInPool(u, calls[1..], address);
          ModSuccessor(CurrentNonce(s, address), i - 1, FELT_PRIME);
        }
      } else {
        AcceptedAtMostCurrent(u, calls[1..], address, i);
      }
    }
  }

  lemma NoCalls(s: State, address: nat)
    ensures AcceptedNonces(s, [], address) == []
  {
  }

  lemma BaseUnfold(s: State, calls: seq<Call>, address: nat)
    requires calls != []
    ensures BaseNonce(s, calls, address) ==
            if Accepts(s, calls[0], address) then CurrentNonce(s, address)
            else BaseNonce(Step(s, calls[0]), calls[1..], address)
  {
    hide Step, Accepts, CurrentNonce;
  }

  lemma AcceptsAtMost(s: State, call: Call, address: nat)
    requires WellTypedState(s) && Accepts(s, call, address)
    ensures FELT_PRIME > 0 && call.tx.nonce <= CurrentNonce(s, address) == CurrentNonce(s, address) % FELT_PRIME
  {
  }

  lemma StepTyped(s: State, calls: seq<Call>)
    requires calls != [] && WellTypedState(s) && FeltViews(calls)
    ensures WellTypedState(Step(s, calls[0])) && FeltViews(calls[1..]) && FELT_PRIME > 0
  {
    hide Verdict;
  }

  // ---- What refused transactions leave behind ---------------------------

  /** The call is an update, or validates a transaction that is accepted. */
  predicate Counts(s: State, call: Call) {
    call.Update? || (
      && ClassIsNew(s, call.tx) && NotAhead(s, call.tx)
      && Answer(call.tx, call.accountValidation, call.account) == Passes)
  }

  /** The calls without the validations of refused transactions. */
  function Counted(s: State, calls: seq<Call>): seq<Call>
    decreases |calls|
  {
    if calls == [] then []
    else if Counts(s, calls[0]) then [calls[0]] + Counted(Step(s, calls[0]), calls[1..])
    else Counted(s, calls[1..])
  }

  lemma RefusedStep(s: State, call: Call)
    requires !Counts(s, call)
    ensures Step(s, call) == s
  {
    ValidIff(s, call.tx, call.accountValidation, call.account);
  }

  /**
    Over every run: a refused transaction leaves no trace. The state is the same as if only updates and transactions that
    meet every condition, the account's own validation among them, had been seen.
   */
  lemma {:induction false} RefusedLeaveNoTrace(s: State, calls: seq<Call>)
    ensures After(s, calls) == After(s, Counted(s, calls))
    decreases |calls|
  {
    hide Step, Counts;
    if calls != [] {
      if Counts(s, calls[0]) {
        var rest := Counted(Step(s, calls[0]), calls[1..]);
        RefusedLeaveNoTrace(Step(s, calls[0]), calls[1..]);
        assert ([calls[0]] + rest)[1..] == rest;
      } else {
        RefusedStep(s, calls[0]);
        RefusedLeaveNoTrace(s, calls[1..]);
      }
    }
  }

  lemma {:induction false} AfterPrefix(s: State, calls: seq<Call>, i: nat)
    requires i < |calls|
    ensures After(s, calls[..i + 1]) == Step(After(s, calls[..i]), calls[i])
    decreases i
  {
    hide Step;
    if i == 0 {
      assert calls[..1][1..] == [];
    } else {
      AfterPrefix(Step(s, calls[0]), calls[1..], i - 1);
      assert calls[..i + 1][1..] == calls[1..][..i] && calls[..i][1..] == calls[1..][..i - 1];
    }
  }

  /**
    At every point of every run: a validated transaction that moves its sender's nonce in the pool had a new class, a
    nonce that was not ahead and its account's consent; otherwise no nonce changes.
   */
  lemma AcceptedPassed(s: State, calls: seq<Call>, i: nat)
    requires i < |calls| && calls[i].Validate?
    ensures var before, after, call := After(s, calls[..i]), After(s, calls[..i + 1]), calls[i];
            if Counts(before, call) then
              after.pool == before.pool[call.tx.sender := (CurrentNonce(before, call.tx.sender) + 1) % FELT_PRIME]
            else after == before
  {
    hide After;
    AfterPrefix(s, calls, i);
    var before, call := After(s, calls[..i]), calls[i];
    ValidIff(before, call.tx, call.accountValidation, call.account);
  }
}

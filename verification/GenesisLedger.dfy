/** Replaying the genesis transactions on a ledger that checks nonces, declarations and deployments. */
module GenesisLedger {
  import opened Genesis
  import opened Outcomes
  import opened Sequences
  import opened Text

  /** The fee token, as its constructor is told. */
  datatype Token = Token(address: nat, name: nat, symbol: nat, decimals: nat)

  datatype Deploy = Deploy(class_: nat, salt: nat, args: seq<nat>)

  /** `built` tells how each contract was deployed, and `balances` are amounts of the fee token. */
  datatype Ledger = Ledger(
    declared: set<nat>, deployed: set<nat>, built: map<nat, Deploy>, nonces: map<nat, nat>, balances: map<nat, int>,
    token: Option<Token>)

  const EMPTY_LEDGER: Ledger := Ledger({}, {}, map[], map[], map[], None)

  /** The largest `u256`. */
  const SUPPLY: nat := U128 * U128 - 1

  function NonceOf(l: Ledger, address: nat): nat {
    if address in l.nonces then l.nonces[address] else 0
  }

  function BalanceOf(l: Ledger, address: nat): int {
    if address in l.balances then l.balances[address] else 0
  }

  /** Runs a constructor: the one of the fee token records name, symbol and decimals and mints the supply to its holder. */
  function Constructed(g: Setup, l: Ledger, address: nat, class_: nat, salt: nat, args: seq<nat>): Ledger {
    var m := l.(built := l.built[address := Deploy(class_, salt, args)]);
    if class_ == g.tokenClass && |args| == 6 then
      m.(token := Some(Token(address, args[0], args[1], args[2])),
         balances := l.balances[args[5] := BalanceOf(l, args[5]) + args[3] + args[4] * U128])
    else m
  }

  /** `l` with the amount taken from one address and given to another. */
  function Moved(l: Ledger, sender: nat, recipient: nat, amount: nat): Ledger {
    var debited := l.(balances := l.balances[sender := BalanceOf(l, sender) - amount]);
    debited.(balances := debited.balances[recipient := BalanceOf(debited, recipient) + amount])
  }

  /** A transfer fails if the sender has too little. */
  function Transferred(l: Ledger, sender: nat, recipient: nat, amount: nat): Option<Ledger> {
    if BalanceOf(l, sender) < amount then None else Some(Moved(l, sender, recipient, amount))
  }

  /** Reads the arguments of a deployment. */
  function ParseDeploy(args: seq<nat>): Option<Deploy> {
    if |args| >= 4 && |args| == args[2] + 4 && args[|args| - 1] == 1
    then Some(Deploy(args[0], args[1], args[3..|args| - 1])) else None
  }

  lemma DeployArgsParse(class_: nat, salt: nat, args: seq<nat>)
    ensures ParseDeploy(DeployArgs(class_, salt, args)) == Some(Deploy(class_, salt, args))
  {
    var all := DeployArgs(class_, salt, args);
    assert all[3..|all| - 1] == args;
  }

  predicate Fresh(l: Ledger, class_: nat, address: nat) {
    class_ in l.declared && address !in l.deployed
  }

  /** The call, made by `sender`; absent when it fails. */
  function Called(g: Setup, l: Ledger, sender: nat, contract: nat, function_: Function, args: seq<nat>): Option<Ledger> {
    match function_
    case DeployContract =>
      var d := ParseDeploy(args);
      if contract == sender && d.Some? && Fresh(l, d.value.class_, g.address(d.value.salt, d.value.class_, d.value.args))
      then
        var address := g.address(d.value.salt, d.value.class_, d.value.args);
        Some(Constructed(g, l.(deployed := l.deployed + {address}), address, d.value.class_, d.value.salt, d.value.args))
      else None
    case TransferTokens =>
      if l.token.Some? && contract == l.token.value.address && |args| == 3 && args[0] in l.deployed
      then Transferred(l, sender, args[0], args[1] + args[2] * U128) else None
  }

  function Apply(g: Setup, l: Ledger, tx: Tx): Option<Ledger> {
    match tx
    case LegacyDeclare(class_) =>
      if class_ in l.declared then None else Some(l.(declared := l.declared + {class_}))
    case Declare(sender, nonce, class_) =>
      if sender in l.deployed && NonceOf(l, sender) == nonce && class_ !in l.declared
      then Some(l.(declared := l.declared + {class_}, nonces := l.nonces[sender := nonce + 1])) else None
    case DeployAccount(address, class_, salt, args) =>
      if Fresh(l, class_, address) && address == g.address(salt, class_, args) && NonceOf(l, address) == 0
      then
        Some(Constructed(g, l.(deployed := l.deployed + {address}, nonces := l.nonces[address := 1]),
                         address, class_, salt, args))
      else None
    case Invoke(sender, nonce, contract, function_, args) =>
      if sender in l.deployed && NonceOf(l, sender) == nonce && contract in l.deployed
      then Called(g, l.(nonces := l.nonces[sender := nonce + 1]), sender, contract, function_, args) else None
  }

  function Replay(g: Setup, l: Ledger, txs: seq<Tx>): Option<Ledger>
    decreases |txs|
  {
    if txs == [] then Some(l)
    else match Apply(g, l, txs[0])
      case None => None
      case Some(m) => Replay(g, m, txs[1..])
  }

  lemma {:induction false} ReplayConcat(g: Setup, l: Ledger, a: seq<Tx>, b: seq<Tx>)
    ensures Replay(g, l, a + b) == match Replay(g, l, a) { case None => None case Some(m) => Replay(g, m, b) }
    decreases |a|
  {
    hide Apply;
    if a == [] {
      assert a + b == b;
    } else {
      assert (a + b)[1..] == a[1..] + b;
      match Apply(g, l, a[0])
      case None =>
      case Some(m) => ReplayConcat(g, m, a[1..], b);
    }
  }

  lemma ReplayOne(g: Setup, l: Ledger, tx: Tx)
    ensures Replay(g, l, [tx]) == Apply(g, l, tx)
  {
    hide Apply;
    assert [tx][1..] == [];
  }

  // ---- Master account and core contracts --------------------------------

  predicate CoreDistinct(g: Setup) {
    MasterAddress(g) != UdcAddress(g) && MasterAddress(g) != TokenAddress(g) && UdcAddress(g) != TokenAddress(g)
  }

  lemma LegacyReplays(g: Setup, l: Ledger, class_: nat)
    ensures Replay(g, l, LegacyDeclared(l.declared, class_)) == Some(l.(declared := l.declared + {class_}))
  {
    if class_ in l.declared {
      assert l.declared + {class_} == l.declared;
    } else {
      ReplayOne(g, l, LegacyDeclare(class_));
    }
  }

  lemma DeploymentReplays(g: Setup, l: Ledger, nonce: nat, class_: nat, salt: nat, args: seq<nat>)
    requires MasterAddress(g) in l.deployed && NonceOf(l, MasterAddress(g)) == nonce
    requires Fresh(l, class_, g.address(salt, class_, args))
    ensures Apply(g, l, Deployment(g, nonce, class_, salt, args)) ==
            Some(Constructed(
                   g, l.(deployed := l.deployed + {g.address(salt, class_, args)},
                         nonces := l.nonces[MasterAddress(g) := nonce + 1]),
                   g.address(salt, class_, args), class_, salt, args))
  {
    hide DeployArgs, ParseDeploy, MasterAddress, Constructed;
    DeployArgsParse(class_, salt, args);
  }

  /** How the core contracts are deployed. */
  function CoreBuilt(g: Setup): map<nat, Deploy> {
    map[MasterAddress(g) := Deploy(g.masterClass, 1, [g.masterKey]), UdcAddress(g) := Deploy(g.udcClass, 0, []),
        TokenAddress(g) := Deploy(g.tokenClass, 0, TokenArgs(g))]
  }

  /** The ledger once the core contracts are there and the master account has sent two transactions. */
  function CoreLedger(g: Setup): Ledger {
    Ledger(LegacyClasses(g), {MasterAddress(g), UdcAddress(g), TokenAddress(g)}, CoreBuilt(g), map[MasterAddress(g) := 3],
           map[MasterAddress(g) := SUPPLY],
           Some(Token(TokenAddress(g), ShortString("Starknet Token"), ShortString("STRK"), 18)))
  }

  function MasterTxs(g: Setup): seq<Tx> {
    [LegacyDeclare(g.masterClass), DeployAccount(MasterAddress(g), g.masterClass, 1, [g.masterKey])]
  }

  function MasterLedger(g: Setup): Ledger {
    Ledger({g.masterClass}, {MasterAddress(g)}, map[MasterAddress(g) := Deploy(g.masterClass, 1, [g.masterKey])],
           map[MasterAddress(g) := 1], map[], None)
  }

  lemma MasterReplays(g: Setup)
    ensures Replay(g, EMPTY_LEDGER, MasterTxs(g)) == Some(MasterLedger(g))
  {
    var txs := MasterTxs(g);
    var l := EMPTY_LEDGER.(declared := {g.masterClass});
    assert txs == [txs[0]] + [txs[1]];
    ReplayConcat(g, EMPTY_LEDGER, [txs[0]], [txs[1]]);
    ReplayOne(g, EMPTY_LEDGER, txs[0]);
    ReplayOne(g, l, txs[1]);
    assert EMPTY_LEDGER.declared + {g.masterClass} == {g.masterClass};
    assert l.deployed + {MasterAddress(g)} == {MasterAddress(g)};
    assert l.nonces[MasterAddress(g) := 1] == map[MasterAddress(g) := 1];
    assert l.built[MasterAddress(g) := Deploy(g.masterClass, 1, [g.masterKey])] == MasterLedger(g).built;
  }

  /** One core contract: its class is declared if need be, and the master account deploys it. */
  lemma ContractReplays(g: Setup, l: Ledger, nonce: nat, class_: nat, args: seq<nat>)
    requires MasterAddress(g) in l.deployed && NonceOf(l, MasterAddress(g)) == nonce
    requires g.address(0, class_, args) !in l.deployed
    ensures Replay(g, l, LegacyDeclared(l.declared, class_) + [Deployment(g, nonce, class_, 0, args)]) ==
            Some(Constructed(
                   g, l.(declared := l.declared + {class_}, deployed := l.deployed + {g.address(0, class_, args)},
                         nonces := l.nonces[MasterAddress(g) := nonce + 1]),
                   g.address(0, class_, args), class_, 0, args))
  {
    hide Replay, Apply, Deployment, LegacyDeclared, MasterAddress, Constructed;
    var m := l.(declared := l.declared + {class_});
    LegacyReplays(g, l, class_);
    ReplayConcat(g, l, LegacyDeclared(l.declared, class_), [Deployment(g, nonce, class_, 0, args)]);
    ReplayOne(g, m, Deployment(g, nonce, class_, 0, args));
    DeploymentReplays(g, m, nonce, class_, 0, args);
  }

  lemma CoreReplays(g: Setup)
    requires CoreDistinct(g)
    ensures Replay(g, EMPTY_LEDGER, CoreTxs(g)) == Some(CoreLedger(g))
  {
    hide Replay, Apply, Deployment, LegacyDeclared, MasterAddress, UdcAddress, TokenAddress, TokenArgs;
    var udc := LegacyDeclared({g.masterClass}, g.udcClass) + [Deployment(g, 1, g.udcClass, 0, [])];
    var token := LegacyDeclared({g.masterClass, g.udcClass}, g.tokenClass)
                 + [Deployment(g, 2, g.tokenClass, 0, TokenArgs(g))];
    CoreSplit(g);
    var l := MasterLedger(g);
    var m := Ledger(
      {g.masterClass, g.udcClass}, {MasterAddress(g), UdcAddress(g)},
      map[MasterAddress(g) := Deploy(g.masterClass, 1, [g.masterKey]), UdcAddress(g) := Deploy(g.udcClass, 0, [])],
      map[MasterAddress(g) := 2], map[], None);
    CoreAddresses(g);
    MasterReplays(g);
    ContractReplays(g, l, 1, g.udcClass, []);
    assert l.declared + {g.udcClass} == m.declared && l.deployed + {UdcAddress(g)} == m.deployed;
    assert l.nonces[MasterAddress(g) := 2] == m.nonces;
    assert l.built[UdcAddress(g) := Deploy(g.udcClass, 0, [])] == m.built;
    ContractReplays(g, m, 2, g.tokenClass, TokenArgs(g));
    assert m.declared + {g.tokenClass} == LegacyClasses(g);
    assert m.deployed + {TokenAddress(g)} == CoreLedger(g).deployed;
    assert m.nonces[MasterAddress(g) := 3] == CoreLedger(g).nonces;
    TokenConstructed(g, m.(declared := LegacyClasses(g), deployed := CoreLedger(g).deployed, nonces := CoreLedger(g).nonces));
    ReplayConcat(g, EMPTY_LEDGER, MasterTxs(g), udc + token);
    ReplayConcat(g, l, udc, token);
  }

  /** The constructor of the fee token mints the whole supply to the master account. */
  lemma TokenConstructed(g: Setup, l: Ledger)
    requires l.balances == map[]
    ensures Constructed(g, l, TokenAddress(g), g.tokenClass, 0, TokenArgs(g)) ==
            l.(built := l.built[TokenAddress(g) := Deploy(g.tokenClass, 0, TokenArgs(g))],
               balances := map[MasterAddress(g) := SUPPLY],
               token := Some(Token(TokenAddress(g), ShortString("Starknet Token"), ShortString("STRK"), 18)))
  {
    hide MasterAddress, ShortString;
    TokenNames();
    assert U128 - 1 + (U128 - 1) * U128 == SUPPLY;
    assert map[][MasterAddress(g) := SUPPLY] == map[MasterAddress(g) := SUPPLY];
  }

  lemma TokenNames()
    ensures ShortString("Starknet Token") == 0x537461726b6e657420546f6b656e
    ensures ShortString("STRK") == 0x5354524b
  {
    hide ShortString;
    NothingShort();
    FiveMore("", 'S', 't', 'a', 'r', 'k');
    FiveMore("" + ['S', 't', 'a', 'r', 'k'], 'n', 'e', 't', ' ', 'T');
    var name := "" + ['S', 't', 'a', 'r', 'k'] + ['n', 'e', 't', ' ', 'T'];
    OneMore(name, 'o');
    OneMore(name + ['o'], 'k');
    OneMore(name + ['o'] + ['k'], 'e');
    OneMore(name + ['o'] + ['k'] + ['e'], 'n');
    assert name + ['o'] + ['k'] + ['e'] + ['n'] == "Starknet Token";
    OneMore("", 'S');
    OneMore("" + ['S'], 'T');
    OneMore("" + ['S'] + ['T'], 'R');
    OneMore("" + ['S'] + ['T'] + ['R'], 'K');
    assert "" + ['S'] + ['T'] + ['R'] + ['K'] == "STRK";
  }

  lemma CoreAddresses(g: Setup)
    ensures UdcAddress(g) == g.address(0, g.udcClass, []) && TokenAddress(g) == g.address(0, g.tokenClass, TokenArgs(g))
  {
  }

  lemma CoreSplit(g: Setup)
    ensures CoreTxs(g) == MasterTxs(g) + (
              LegacyDeclared({g.masterClass}, g.udcClass) + [Deployment(g, 1, g.udcClass, 0, [])]
              + (LegacyDeclared({g.masterClass, g.udcClass}, g.tokenClass) + [Deployment(g, 2, g.tokenClass, 0, TokenArgs(g))]))
  {
    hide Deployment, LegacyDeclared, TokenArgs, MasterAddress;
  }

  // ---- Allocated accounts -----------------------------------------------

  function Addresses(g: Setup, accounts: seq<Account>): set<nat> {
    set i | 0 <= i < |accounts| :: AccountAddress(g, accounts[i])
  }

  /** No two contracts get the same address. */
  predicate DistinctAddresses(g: Setup, accounts: seq<Account>, taken: set<nat>) {
    && (forall i :: 0 <= i < |accounts| ==> AccountAddress(g, accounts[i]) !in taken)
    && (forall i, j :: 0 <= i < j < |accounts| ==> AccountAddress(g, accounts[i]) != AccountAddress(g, accounts[j]))
  }

  function Balance(a: Account): nat {
    if a.balance.Some? then a.balance.value else 0
  }

  /** What all accounts together are to get. */
  function Total(accounts: seq<Account>): nat {
    if accounts == [] then 0 else Balance(accounts[0]) + Total(accounts[1..])
  }

  predicate UsesMaster(a: Account) {
    a.PlainAccount? || a.balance.Some?
  }

  /** The ledger is ready for accounts: the master account and the fee token are there, the account class is known. */
  predicate Ready(g: Setup, l: Ledger) {
    && MasterAddress(g) in l.deployed && TokenAddress(g) in l.deployed && g.accountClass in l.declared
    && l.token.Some? && l.token.value.address == TokenAddress(g) && BalanceOf(l, MasterAddress(g)) >= 0
    && (forall a :: a in l.nonces ==> a in l.deployed) && (forall a :: a in l.balances ==> a in l.deployed)
  }

  lemma Halves(amount: nat)
    ensures amount % U128 + amount / U128 * U128 == amount
  {
  }

  lemma TransferReplays(g: Setup, l: Ledger, nonce: nat, recipient: nat, amount: nat)
    requires MasterAddress(g) in l.deployed && TokenAddress(g) in l.deployed && recipient in l.deployed
    requires l.token.Some? && l.token.value.address == TokenAddress(g)
    ensures Apply(g, l, Transfer(g, nonce, recipient, amount)) ==
            if NonceOf(l, MasterAddress(g)) == nonce
            then Transferred(l.(nonces := l.nonces[MasterAddress(g) := nonce + 1]), MasterAddress(g), recipient, amount)
            else None
  {
    hide MasterAddress, TokenAddress, Transferred;
    Halves(amount);
  }

  /** The key an account is deployed with. */
  function KeyOf(g: Setup, a: Account): nat {
    match a
    case DevAccount(_, _, privateKey, _) => g.publicKey(privateKey)
    case PlainAccount(_, _, key, _) => key
  }

  /** The ledger with the account deployed. */
  function Placed(g: Setup, l: Ledger, a: Account): Ledger {
    l.(deployed := l.deployed + {AccountAddress(g, a)},
       built := l.built[AccountAddress(g, a) := Deploy(g.accountClass, a.salt, [KeyOf(g, a)])])
  }

  lemma AccountDeploymentReplays(g: Setup, l: Ledger, nonce: nat, a: Account)
    requires Ready(g, l) && AccountAddress(g, a) !in l.deployed
    ensures Apply(g, l, AccountDeployment(g, nonce, a)) ==
            if a.DevAccount? then
              Some(Placed(g, l, a).(nonces := l.nonces[AccountAddress(g, a) := 1]))
            else if NonceOf(l, MasterAddress(g)) == nonce then
              Some(Placed(g, l, a).(nonces := l.nonces[MasterAddress(g) := nonce + 1]))
            else None
  {
    hide MasterAddress, TokenAddress, DeployArgs, ParseDeploy;
    if a.PlainAccount? && NonceOf(l, MasterAddress(g)) == nonce {
      DeploymentReplays(g, l, nonce, g.accountClass, a.salt, [a.key]);
    }
  }

  /** The ledger after the transactions of one account. */
  function WithAccount(g: Setup, l: Ledger, nonce: nat, a: Account): Ledger {
    var address := AccountAddress(g, a);
    var deployed := if a.DevAccount? then Placed(g, l, a).(nonces := l.nonces[address := 1])
      else Placed(g, l, a).(nonces := l.nonces[MasterAddress(g) := nonce + 1]);
    if a.balance.None? then deployed
    else Moved(deployed.(nonces := deployed.nonces[MasterAddress(g) := NonceAfter(nonce, a)]), MasterAddress(g), address,
               a.balance.value)
  }

  /**
    One account replays if the master nonce is right, or if the account does not need the master account, and the
    master account has what the account is to get.
   */
  lemma OneAccountReplays(g: Setup, l: Ledger, nonce: nat, a: Account)
    requires Ready(g, l) && AccountAddress(g, a) !in l.deployed
    ensures Replay(g, l, OneAccount(g, nonce, a)) ==
            if (NonceOf(l, MasterAddress(g)) == nonce || !UsesMaster(a)) && Balance(a) <= BalanceOf(l, MasterAddress(g))
            then Some(WithAccount(g, l, nonce, a)) else None
  {
    hide Replay, Apply, MasterAddress, TokenAddress, AccountAddress, AccountDeployment, Transfer;
    var address := AccountAddress(g, a);
    var first := AccountDeployment(g, nonce, a);
    AccountDeploymentReplays(g, l, nonce, a);
    ReplayOne(g, l, first);
    if a.balance.None? {
      assert OneAccount(g, nonce, a) == [first];
    } else {
      var second := Transfer(g, NonceAfterDeployment(nonce, a), address, a.balance.value);
      assert OneAccount(g, nonce, a) == [first] + [second];
      ReplayConcat(g, l, [first], [second]);
      match Apply(g, l, first)
      case None =>
      case Some(m) =>
        ReplayOne(g, m, second);
        TransferReplays(g, m, NonceAfterDeployment(nonce, a), address, a.balance.value);
    }
  }

  lemma WithAccountFacts(g: Setup, l: Ledger, nonce: nat, a: Account)
    requires Ready(g, l) && AccountAddress(g, a) !in l.deployed && Balance(a) <= BalanceOf(l, MasterAddress(g))
    ensures var m := WithAccount(g, l, nonce, a);
            && Ready(g, m) && m.deployed == l.deployed + {AccountAddress(g, a)}
            && NonceOf(m, MasterAddress(g)) ==
               (if UsesMaster(a) then NonceAfter(nonce, a) else NonceOf(l, MasterAddress(g)))
            && m.built == l.built[AccountAddress(g, a) := Deploy(g.accountClass, a.salt, [KeyOf(g, a)])]
            && m.token == l.token && BalanceOf(m, AccountAddress(g, a)) == Balance(a)
            && BalanceOf(m, MasterAddress(g)) == BalanceOf(l, MasterAddress(g)) - Balance(a)
            && forall other :: other != AccountAddress(g, a) && other != MasterAddress(g) ==>
                 BalanceOf(m, other) == BalanceOf(l, other)
  {
    hide MasterAddress, TokenAddress, AccountAddress;
  }

  function WithAccounts(g: Setup, l: Ledger, nonce: nat, accounts: seq<Account>): Ledger
    decreases |accounts|
  {
    if accounts == [] then l
    else WithAccounts(g, WithAccount(g, l, nonce, accounts[0]), NonceAfter(nonce, accounts[0]), accounts[1..])
  }

  predicate NoneUsesMaster(accounts: seq<Account>) {
    forall i :: 0 <= i < |accounts| ==> !UsesMaster(accounts[i])
  }

  lemma DistinctTail(g: Setup, l: Ledger, nonce: nat, accounts: seq<Account>)
    requires accounts != [] && Ready(g, l) && DistinctAddresses(g, accounts, l.deployed)
    requires Balance(accounts[0]) <= BalanceOf(l, MasterAddress(g))
    ensures AccountAddress(g, accounts[0]) !in l.deployed
    ensures DistinctAddresses(g, accounts[1..], WithAccount(g, l, nonce, accounts[0]).deployed)
  {
    hide WithAccount, AccountAddress, Ready;
    WithAccountFacts(g, l, nonce, accounts[0]);
  }

  /**
    The accounts replay exactly when the master nonce is right, or no account needs the master account, and the
    master account has enough for all of them.
   */
  lemma {:induction false} AccountsReplay(g: Setup, l: Ledger, nonce: nat, accounts: seq<Account>)
    requires Ready(g, l) && DistinctAddresses(g, accounts, l.deployed)
    ensures Replay(g, l, AccountTxs(g, nonce, accounts)) ==
            if (NonceOf(l, MasterAddress(g)) == nonce || NoneUsesMaster(accounts)) &&
               Total(accounts) <= BalanceOf(l, MasterAddress(g))
            then Some(WithAccounts(g, l, nonce, accounts)) else None
    decreases |accounts|
  {
    if accounts != [] {
      hide Apply, Replay, OneAccount, WithAccount, Ready, DistinctAddresses, MasterAddress, NonceOf, BalanceOf;
      var a := accounts[0];
      assert AccountAddress(g, a) !in l.deployed by { FirstDistinct(g, accounts, l.deployed); }
      OneAccountReplays(g, l, nonce, a);
      ReplayConcat(g, l, OneAccount(g, nonce, a), AccountTxs(g, NonceAfter(nonce, a), accounts[1..]));
      assert NoneUsesMaster(accounts) <==> !UsesMaster(a) && NoneUsesMaster(accounts[1..]) by {
        assert accounts == [a] + accounts[1..];
      }
      if (NonceOf(l, MasterAddress(g)) == nonce || !UsesMaster(a)) && Balance(a) <= BalanceOf(l, MasterAddress(g)) {
        DistinctTail(g, l, nonce, accounts);
        WithAccountFacts(g, l, nonce, a);
        AccountsReplay(g, WithAccount(g, l, nonce, a), NonceAfter(nonce, a), accounts[1..]);
      }
    } else {
      ReadyPays(g, l);
    }
  }

  lemma FirstDistinct(g: Setup, accounts: seq<Account>, taken: set<nat>)
    requires accounts != [] && DistinctAddresses(g, accounts, taken)
    ensures AccountAddress(g, accounts[0]) !in taken
  {
  }

  lemma ReadyPays(g: Setup, l: Ledger)
    requires Ready(g, l)
    ensures BalanceOf(l, MasterAddress(g)) >= 0
  {
  }

  /** The accounts were deployed with their salts and keys, and everything else as before. */
  ghost predicate BuiltFor(g: Setup, l: Ledger, m: Ledger, accounts: seq<Account>) {
    && (forall i :: 0 <= i < |accounts| ==>
          && AccountAddress(g, accounts[i]) in m.built
          && m.built[AccountAddress(g, accounts[i])] == Deploy(g.accountClass, accounts[i].salt, [KeyOf(g, accounts[i])]))
    && (forall other :: other !in Addresses(g, accounts) ==>
          (other in m.built <==> other in l.built) && (other in l.built ==> m.built[other] == l.built[other]))
  }

  lemma BuiltNext(g: Setup, l: Ledger, k: Ledger, m: Ledger, accounts: seq<Account>)
    requires accounts != [] && BuiltFor(g, k, m, accounts[1..])
    requires k.built == l.built[AccountAddress(g, accounts[0]) :=
                                  Deploy(g.accountClass, accounts[0].salt, [KeyOf(g, accounts[0])])]
    requires AccountAddress(g, accounts[0]) !in Addresses(g, accounts[1..])
    ensures BuiltFor(g, l, m, accounts)
  {
    hide AccountAddress, KeyOf;
    AddressesSplit(g, accounts);
    forall i | 0 <= i < |accounts|
      ensures AccountAddress(g, accounts[i]) in m.built
      ensures m.built[AccountAddress(g, accounts[i])] == Deploy(g.accountClass, accounts[i].salt, [KeyOf(g, accounts[i])])
    {
      if i > 0 { assert accounts[i] == accounts[1..][i - 1]; }
    }
  }

  lemma {:induction false} WithAccountsFacts(g: Setup, l: Ledger, nonce: nat, accounts: seq<Account>)
    requires Ready(g, l) && DistinctAddresses(g, accounts, l.deployed) && Total(accounts) <= BalanceOf(l, MasterAddress(g))
    ensures var m := WithAccounts(g, l, nonce, accounts);
            && m.deployed == l.deployed + Addresses(g, accounts)
            && (forall i :: 0 <= i < |accounts| ==> BalanceOf(m, AccountAddress(g, accounts[i])) == Balance(accounts[i]))
            && BuiltFor(g, l, m, accounts)
            && m.token == l.token && BalanceOf(m, MasterAddress(g)) == BalanceOf(l, MasterAddress(g)) - Total(accounts)
            && (forall other :: other !in Addresses(g, accounts) && other != MasterAddress(g) ==>
                  BalanceOf(m, other) == BalanceOf(l, other))
    decreases |accounts|
  {
    hide WithAccount, Ready, AccountAddress, BalanceOf, MasterAddress, KeyOf;
    if accounts != [] {
      var a, rest := accounts[0], accounts[1..];
      DistinctTail(g, l, nonce, accounts);
      WithAccountFacts(g, l, nonce, a);
      WithAccountsFacts(g, WithAccount(g, l, nonce, a), NonceAfter(nonce, a), rest);
      AddressesSplit(g, accounts);
      BuiltNext(g, l, WithAccount(g, l, nonce, a), WithAccounts(g, l, nonce, accounts), accounts);
      forall i | 0 <= i < |accounts|
        ensures BalanceOf(WithAccounts(g, l, nonce, accounts), AccountAddress(g, accounts[i])) == Balance(accounts[i])
      {
        if i > 0 {
          assert accounts[i] == rest[i - 1];
        } else {
          assert AccountAddress(g, a) !in Addresses(g, rest);
          NotMaster(g, l, a);
        }
      }
    }
  }

  lemma NotMaster(g: Setup, l: Ledger, a: Account)
    requires Ready(g, l) && AccountAddress(g, a) !in l.deployed
    ensures AccountAddress(g, a) != MasterAddress(g)
  {
  }

  lemma AddressesSplit(g: Setup, accounts: seq<Account>)
    requires accounts != []
    ensures Addresses(g, accounts) == {AccountAddress(g, accounts[0])} + Addresses(g, accounts[1..])
  {
    hide AccountAddress;
    forall x ensures x in Addresses(g, accounts) <==> x == AccountAddress(g, accounts[0]) || x in Addresses(g, accounts[1..]) {
      if x in Addresses(g, accounts) {
        var i :| 0 <= i < |accounts| && x == AccountAddress(g, accounts[i]);
        if i > 0 { assert accounts[i] == accounts[1..][i - 1]; }
      }
      if x in Addresses(g, accounts[1..]) {
        var i :| 0 <= i < |accounts[1..]| && x == AccountAddress(g, accounts[1..][i]);
        assert accounts[1..][i] == accounts[i + 1];
      }
    }
  }

  // ---- The whole list ---------------------------------------------------

  function CoreContracts(g: Setup): set<nat> {
    {MasterAddress(g), UdcAddress(g), TokenAddress(g)}
  }

  /** The ledger the accounts start from: the account class is declared, by the master account if it was not there. */
  function AccountsLedger(g: Setup): Ledger {
    var l := CoreLedger(g);
    if g.accountClass in LegacyClasses(g) then l
    else l.(declared := l.declared + {g.accountClass}, nonces := l.nonces[MasterAddress(g) := 4])
  }

  lemma AccountClassReplays(g: Setup)
    ensures Replay(g, CoreLedger(g), AccountClassTx(g)) == Some(AccountsLedger(g))
    ensures Ready(g, AccountsLedger(g)) && AccountsLedger(g).deployed == CoreContracts(g)
    ensures NonceOf(AccountsLedger(g), MasterAddress(g)) == 4 <==> g.accountClass !in LegacyClasses(g)
    ensures BalanceOf(AccountsLedger(g), MasterAddress(g)) == SUPPLY && AccountsLedger(g).built == CoreBuilt(g)
    ensures AccountsLedger(g).token == Some(Token(TokenAddress(g), ShortString("Starknet Token"), ShortString("STRK"), 18))
  {
    hide MasterAddress, UdcAddress, TokenAddress;
    if g.accountClass !in LegacyClasses(g) {
      ReplayOne(g, CoreLedger(g), Declare(MasterAddress(g), 3, g.accountClass));
    }
  }

  /**
    The genesis block replays exactly when the account class is not one of the legacy classes, or no account needs
    the master account, and the supply covers all allocations: declaring a known class moves the builder's nonce
    without a transaction, and the supply is the largest amount there is.
   */
  lemma GenesisReplaysIff(g: Setup, accounts: seq<Account>)
    requires CoreDistinct(g) && DistinctAddresses(g, accounts, CoreContracts(g))
    ensures Replay(g, EMPTY_LEDGER, GenesisTxs(g, accounts)) ==
            if (g.accountClass !in LegacyClasses(g) || NoneUsesMaster(accounts)) && Total(accounts) <= SUPPLY
            then Some(WithAccounts(g, AccountsLedger(g), 4, accounts)) else None
  {
    hide Replay, CoreTxs, AccountClassTx, AccountTxs, CoreLedger, AccountsLedger, WithAccounts, LegacyClasses,
      MasterAddress, CoreContracts, DistinctAddresses, NoneUsesMaster, CoreDistinct;
    CoreReplays(g);
    AccountClassReplays(g);
    AccountsReplay(g, AccountsLedger(g), 4, accounts);
    ReplayConcat(g, EMPTY_LEDGER, CoreTxs(g) + AccountClassTx(g), AccountTxs(g, 4, accounts));
    ReplayConcat(g, EMPTY_LEDGER, CoreTxs(g), AccountClassTx(g));
  }

  /** A setup in which the account class is the class of the master account. */
  function SharedClass(): Setup {
    Setup(1, 2, 3, 1, 10, key => key, (salt, class_, args) => 100 * class_ + 10 * salt + |args|)
  }

  /** There the replay breaks off at the first account that the master account deploys. */
  lemma SharedClassRefused()
    ensures Replay(SharedClass(), EMPTY_LEDGER, GenesisTxs(SharedClass(), [PlainAccount(1, 5, 20, None)])) == None
  {
    var g, accounts := SharedClass(), [PlainAccount(1, 5, 20, None)];
    assert MasterAddress(g) == 111 && UdcAddress(g) == 200 && TokenAddress(g) == 306;
    assert AccountAddress(g, accounts[0]) == 151;
    assert UsesMaster(accounts[0]);
    GenesisReplaysIff(g, accounts);
  }

  /** A setup in which all classes and addresses differ. */
  function PlainSetup(): Setup {
    Setup(1, 2, 3, 4, 10, key => key, (salt, class_, args) => 100 * class_ + 10 * salt + |args|)
  }

  /** The supply is the largest amount, so two accounts can be allocated more than there is: the second transfer fails. */
  lemma OverdrawnRefused()
    ensures Replay(PlainSetup(), EMPTY_LEDGER,
                   GenesisTxs(PlainSetup(), [DevAccount(4, 5, 20, Some(SUPPLY)), DevAccount(4, 6, 21, Some(1))])) == None
  {
    var g, accounts := PlainSetup(), [DevAccount(4, 5, 20, Some(SUPPLY)), DevAccount(4, 6, 21, Some(1))];
    assert MasterAddress(g) == 111 && UdcAddress(g) == 200 && TokenAddress(g) == 306;
    assert AccountAddress(g, accounts[0]) == 451 && AccountAddress(g, accounts[1]) == 461;
    assert accounts[1..] == [accounts[1]] && accounts[1..][1..] == [];
    assert Total(accounts[1..]) == 1 + Total([]) && Total(accounts) == SUPPLY + Total(accounts[1..]);
    GenesisReplaysIff(g, accounts);
  }

  /**
    If the replay goes through, exactly the core contracts and the accounts are deployed, each with its class, salt and
    arguments, a dev account with the public key of its private key. Every account holds exactly its allocation, and the master account holds the rest of the supply of the fee token.
   */
  lemma GenesisAllocates(g: Setup, accounts: seq<Account>)
    requires CoreDistinct(g) && DistinctAddresses(g, accounts, CoreContracts(g))
    ensures var r := Replay(g, EMPTY_LEDGER, GenesisTxs(g, accounts));
            r.Some? ==>
              && r.value.deployed == CoreContracts(g) + Addresses(g, accounts)
              && BuiltFor(g, AccountsLedger(g), r.value, accounts) && AccountsLedger(g).built == CoreBuilt(g)
              && (forall i :: 0 <= i < |accounts| ==>
                    BalanceOf(r.value, AccountAddress(g, accounts[i])) == Balance(accounts[i]))
              && BalanceOf(r.value, MasterAddress(g)) == SUPPLY - Total(accounts)
              && r.value.token == Some(Token(TokenAddress(g), ShortString("Starknet Token"), ShortString("STRK"), 18))
  {
    hide Replay, GenesisTxs, AccountsLedger, WithAccounts, LegacyClasses, CoreContracts, DistinctAddresses, CoreDistinct,
      AccountAddress, BalanceOf, Ready, MasterAddress, TokenAddress, ShortString, BuiltFor, CoreBuilt;
    GenesisReplaysIff(g, accounts);
    AccountClassReplays(g);
    if Total(accounts) <= SUPPLY { WithAccountsFacts(g, AccountsLedger(g), 4, accounts); }
  }

  function FundedCount(accounts: seq<Account>): nat {
    if accounts == [] then 0 else (if accounts[0].balance.Some? then 1 else 0) + FundedCount(accounts[1..])
  }

  lemma {:induction false} AccountTxsLength(g: Setup, nonce: nat, accounts: seq<Account>)
    ensures |AccountTxs(g, nonce, accounts)| == |accounts| + FundedCount(accounts)
    decreases |accounts|
  {
    if accounts != [] { AccountTxsLength(g, NonceAfter(nonce, accounts[0]), accounts[1..]); }
  }

  predicate ClassesDistinct(g: Setup) {
    && g.masterClass != g.udcClass && g.masterClass != g.tokenClass && g.udcClass != g.tokenClass
    && g.accountClass !in LegacyClasses(g)
  }

  /** Seven transactions, one more for each account, and one more for each account with a balance. */
  lemma GenesisLength(g: Setup, accounts: seq<Account>)
    requires ClassesDistinct(g)
    ensures |GenesisTxs(g, accounts)| == 7 + |accounts| + FundedCount(accounts)
  {
    hide Deployment, TokenArgs, AccountTxs;
    AccountTxsLength(g, 4, accounts);
  }

  // ---- Nonces of the master account -------------------------------------

  /** The nonce of a declaration or an invocation; the master account sends all of them. */
  function SentNonce(tx: Tx): seq<nat> {
    if tx.Declare? || tx.Invoke? then [tx.nonce] else []
  }

  predicate CountsFrom(s: seq<nat>, n: nat) {
    forall i :: 0 <= i < |s| ==> s[i] == n + i
  }

  lemma OneAccountNonces(g: Setup, nonce: nat, a: Account)
    ensures var s := FlatMap(SentNonce, OneAccount(g, nonce, a));
            CountsFrom(s, nonce) && nonce + |s| == NonceAfter(nonce, a)
  {
    hide MasterAddress, TokenAddress, AccountAddress, DeployArgs;
    var txs := OneAccount(g, nonce, a);
    assert txs[1..] == if a.balance.Some? then [txs[1]] else [];
    FlatMapUnfold(SentNonce, txs);
    if a.balance.Some? {
      FlatMapUnfold(SentNonce, txs[1..]);
      assert txs[1..][1..] == [];
    }
  }

  lemma {:induction false} AccountNonces(g: Setup, nonce: nat, accounts: seq<Account>)
    ensures CountsFrom(FlatMap(SentNonce, AccountTxs(g, nonce, accounts)), nonce)
    decreases |accounts|
  {
    if accounts != [] {
      hide OneAccount, FlatMap;
      var rest := AccountTxs(g, NonceAfter(nonce, accounts[0]), accounts[1..]);
      OneAccountNonces(g, nonce, accounts[0]);
      AccountNonces(g, NonceAfter(nonce, accounts[0]), accounts[1..]);
      FlatMapConcat(SentNonce, OneAccount(g, nonce, accounts[0]), rest);
    }
  }

  /** After its own deployment with nonce zero, the master account sends with nonces one, two, three and so on. */
  lemma MasterNoncesConsecutive(g: Setup, accounts: seq<Account>)
    requires ClassesDistinct(g)
    ensures CountsFrom(FlatMap(SentNonce, GenesisTxs(g, accounts)), 1)
  {
    hide AccountTxs, FlatMap;
    AccountNonces(g, 4, accounts);
    CoreNonces(g);
    FlatMapConcat(SentNonce, CoreTxs(g) + AccountClassTx(g), AccountTxs(g, 4, accounts));
  }

  lemma CoreNonces(g: Setup)
    requires ClassesDistinct(g)
    ensures FlatMap(SentNonce, CoreTxs(g) + AccountClassTx(g)) == [1, 2, 3]
  {
    hide FlatMap, MasterAddress, TokenArgs, DeployArgs;
    var txs := CoreTxs(g) + AccountClassTx(g);
    assert |txs| == 7;
    NoncesFrom(txs, 0);
    NoncesFrom(txs, 1);
    NoncesFrom(txs, 2);
    NoncesFrom(txs, 3);
    NoncesFrom(txs, 4);
    NoncesFrom(txs, 5);
    NoncesFrom(txs, 6);
    assert txs[0..] == txs;
  }

  lemma NoncesFrom(txs: seq<Tx>, i: nat)
    requires i < |txs|
    ensures FlatMap(SentNonce, txs[i..]) == SentNonce(txs[i]) + FlatMap(SentNonce, txs[i + 1..])
    ensures i + 1 == |txs| ==> FlatMap(SentNonce, txs[i + 1..]) == []
  {
    assert txs[i..][1..] == txs[i + 1..];
  }
}

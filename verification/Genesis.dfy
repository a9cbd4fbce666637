/** The transactions of a rollup's genesis block. */
module Genesis {
  import opened Outcomes
  import opened Sequences

  /** Class hashes, the master key, and the address of a contract given salt, class and constructor arguments. */
  datatype Setup = Setup(
    masterClass: nat, udcClass: nat, tokenClass: nat, accountClass: nat,
    masterKey: nat, publicKey: nat -> nat, address: (nat, nat, seq<nat>) -> nat)

  datatype Account =
    | DevAccount(class_: nat, salt: nat, privateKey: nat, balance: Option<nat>)
    | PlainAccount(class_: nat, salt: nat, key: nat, balance: Option<nat>)

  datatype Function = DeployContract | TransferTokens

  datatype Tx =
    | LegacyDeclare(classHash: nat)
    | Declare(sender: nat, nonce: nat, classHash: nat)
    | DeployAccount(address: nat, classHash: nat, salt: nat, args: seq<nat>)
    | Invoke(sender: nat, nonce: nat, contract: nat, function_: Function, args: seq<nat>)

  const U128: nat := 0x1_0000_0000_0000_0000_0000_0000_0000_0000

  // ---- The list that is built -------------------------------------------

  function MasterAddress(g: Setup): nat {
    g.address(1, g.masterClass, [g.masterKey])
  }

  function UdcAddress(g: Setup): nat {
    g.address(0, g.udcClass, [])
  }

  /** Name, symbol, decimals, the two halves of the supply, and its holder. */
  function TokenArgs(g: Setup): seq<nat> {
    [0x537461726b6e657420546f6b656e, 0x5354524b, 0x12, U128 - 1, U128 - 1, MasterAddress(g)]
  }

  function TokenAddress(g: Setup): nat {
    g.address(0, g.tokenClass, TokenArgs(g))
  }

  /** The arguments of a deployment: class, salt, the counted constructor arguments, and deployment from zero. */
  function DeployArgs(class_: nat, salt: nat, args: seq<nat>): seq<nat> {
    [class_, salt, |args|] + args + [1]
  }

  function Deployment(g: Setup, nonce: nat, class_: nat, salt: nat, args: seq<nat>): Tx {
    Invoke(MasterAddress(g), nonce, MasterAddress(g), DeployContract, DeployArgs(class_, salt, args))
  }

  /** An amount is passed in two halves. */
  function Transfer(g: Setup, nonce: nat, recipient: nat, amount: nat): Tx {
    Invoke(MasterAddress(g), nonce, TokenAddress(g), TransferTokens, [recipient, amount % U128, amount / U128])
  }

  function LegacyDeclared(declared: set<nat>, class_: nat): seq<Tx> {
    if class_ in declared then [] else [LegacyDeclare(class_)]
  }

  /** The master account and the core contracts. */
  function CoreTxs(g: Setup): seq<Tx> {
    [LegacyDeclare(g.masterClass), DeployAccount(MasterAddress(g), g.masterClass, 1, [g.masterKey])]
    + LegacyDeclared({g.masterClass}, g.udcClass) + [Deployment(g, 1, g.udcClass, 0, [])]
    + LegacyDeclared({g.masterClass, g.udcClass}, g.tokenClass) + [Deployment(g, 2, g.tokenClass, 0, TokenArgs(g))]
  }

  function LegacyClasses(g: Setup): set<nat> {
    {g.masterClass, g.udcClass, g.tokenClass}
  }

  function AccountKey(g: Setup, a: Account): nat {
    if a.DevAccount? then g.publicKey(a.privateKey) else a.key
  }

  function AccountAddress(g: Setup, a: Account): nat {
    g.address(a.salt, g.accountClass, [AccountKey(g, a)])
  }

  /** A dev account deploys itself; a plain one is deployed by the master account. */
  function AccountDeployment(g: Setup, nonce: nat, a: Account): Tx {
    if a.DevAccount? then DeployAccount(AccountAddress(g, a), g.accountClass, a.salt, [AccountKey(g, a)])
    else Deployment(g, nonce, g.accountClass, a.salt, [a.key])
  }

  function NonceAfterDeployment(nonce: nat, a: Account): nat {
    if a.DevAccount? then nonce else nonce + 1
  }

  function NonceAfter(nonce: nat, a: Account): nat {
    NonceAfterDeployment(nonce, a) + if a.balance.Some? then 1 else 0
  }

  /** The transactions of one account, the master account being at `nonce`. */
  function OneAccount(g: Setup, nonce: nat, a: Account): seq<Tx> {
    [AccountDeployment(g, nonce, a)]
    + if a.balance.Some? then [Transfer(g, NonceAfterDeployment(nonce, a), AccountAddress(g, a), a.balance.value)] else []
  }

  function AccountTxs(g: Setup, nonce: nat, accounts: seq<Account>): seq<Tx>
    decreases |accounts|
  {
    if accounts == [] then []
    else OneAccount(g, nonce, accounts[0]) + AccountTxs(g, NonceAfter(nonce, accounts[0]), accounts[1..])
  }

  function AccountClassTx(g: Setup): seq<Tx> {
    if g.accountClass in LegacyClasses(g) then [] else [Declare(MasterAddress(g), 3, g.accountClass)]
  }

  /** The whole list. The master nonce has moved past the account class even when it is not declared again. */
  function GenesisTxs(g: Setup, accounts: seq<Account>): seq<Tx> {
    CoreTxs(g) + AccountClassTx(g) + AccountTxs(g, 4, accounts)
  }

  // ---- The builder ------------------------------------------------------

  class GenesisTransactionsBuilder {
    const setup: Setup
    var feeToken: Option<nat>
    var masterAddress: Option<nat>
    var masterNonce: nat
    var transactions: seq<Tx>
    var declaredClasses: set<nat>

    constructor (setup: Setup)
      ensures this.setup == setup && feeToken.None? && masterAddress.None? && masterNonce == 0
      ensures transactions == [] && declaredClasses == {}
    {
      this.setup := setup;
      feeToken, masterAddress, masterNonce, transactions, declaredClasses := None, None, 0, [], {};
    }

    method LegacyDeclare(class_: nat)
      modifies this`transactions, this`declaredClasses
      ensures transactions == old(transactions) + LegacyDeclared(old(declaredClasses), class_)
      ensures declaredClasses == old(declaredClasses) + {class_}
    {
      if class_ in declaredClasses {
        return;
      }
      declaredClasses := declaredClasses + {class_};
      transactions := transactions + [Tx.LegacyDeclare(class_)];
    }

    method Declare(class_: nat)
      requires masterAddress.Some?
      modifies this`transactions, this`declaredClasses, this`masterNonce
      ensures masterNonce == old(masterNonce) + 1
      ensures declaredClasses == old(declaredClasses) + {class_}
      ensures transactions == old(transactions) +
                if class_ in old(declaredClasses) then []
                else [Tx.Declare(masterAddress.value, old(masterNonce), class_)]
    {
      var nonce := masterNonce;
      masterNonce := masterNonce + 1;
      if class_ in declaredClasses {
        return;
      }
      transactions := transactions + [Tx.Declare(masterAddress.value, nonce, class_)];
      declaredClasses := declaredClasses + {class_};
    }

    method Invoke(contract: nat, function_: Function, args: seq<nat>)
      requires masterAddress.Some?
      modifies this`transactions, this`masterNonce
      ensures masterNonce == old(masterNonce) + 1
      ensures transactions == old(transactions) + [Tx.Invoke(masterAddress.value, old(masterNonce), contract, function_, args)]
    {
      var nonce := masterNonce;
      masterNonce := masterNonce + 1;
      transactions := transactions + [Tx.Invoke(masterAddress.value, nonce, contract, function_, args)];
    }

    method Deploy(class_: nat, args: seq<nat>, salt: nat) returns (address: nat)
      requires masterAddress == Some(MasterAddress(setup))
      modifies this`transactions, this`masterNonce
      ensures masterNonce == old(masterNonce) + 1 && address == setup.address(salt, class_, args)
      ensures transactions == old(transactions) + [Deployment(setup, old(masterNonce), class_, salt, args)]
    {
      address := setup.address(salt, class_, args);
      var calldata := [class_] + [salt] + [|args|] + args + [1];
      assert calldata == DeployArgs(class_, salt, args);
      Invoke(masterAddress.value, DeployContract, calldata);
    }

    method BuildMasterAccount()
      requires masterAddress.None? && masterNonce == 0 && transactions == [] && declaredClasses == {}
      modifies this`transactions, this`declaredClasses, this`masterAddress, this`masterNonce
      ensures masterAddress == Some(MasterAddress(setup)) && masterNonce == 1
      ensures declaredClasses == {setup.masterClass}
      ensures transactions ==
                [Tx.LegacyDeclare(setup.masterClass), DeployAccount(MasterAddress(setup), setup.masterClass, 1, [setup.masterKey])]
    {
      LegacyDeclare(setup.masterClass);
      var address := setup.address(1, setup.masterClass, [setup.masterKey]);
      masterAddress := Some(address);
      transactions := transactions + [DeployAccount(address, setup.masterClass, 1, [setup.masterKey])];
      masterNonce := 1;
    }

    method BuildCoreContracts()
      requires masterAddress == Some(MasterAddress(setup)) && masterNonce == 1 && feeToken.None?
      requires declaredClasses == {setup.masterClass}
      requires transactions ==
                 [Tx.LegacyDeclare(setup.masterClass), DeployAccount(MasterAddress(setup), setup.masterClass, 1, [setup.masterKey])]
      modifies this`transactions, this`declaredClasses, this`masterNonce, this`feeToken
      ensures masterNonce == 3 && declaredClasses == LegacyClasses(setup)
      ensures feeToken == Some(TokenAddress(setup)) && transactions == CoreTxs(setup)
    {
      hide DeployArgs, TokenArgs;
      LegacyDeclare(setup.udcClass);
      var _ := Deploy(setup.udcClass, [], 0);
      assert declaredClasses == {setup.masterClass, setup.udcClass};
      LegacyDeclare(setup.tokenClass);
      var token := Deploy(setup.tokenClass, TokenArgs(setup), 0);
      assert declaredClasses == LegacyClasses(setup);
      feeToken := Some(token);
    }

    method DeployAccountOf(a: Account) returns (address: nat)
      requires masterAddress == Some(MasterAddress(setup)) && a.class_ == setup.accountClass
      modifies this`transactions, this`masterNonce
      ensures address == AccountAddress(setup, a)
      ensures masterNonce == NonceAfterDeployment(old(masterNonce), a)
      ensures transactions == old(transactions) + [AccountDeployment(setup, old(masterNonce), a)]
    {
      match a
      case DevAccount(class_, salt, privateKey, _) =>
        var key := setup.publicKey(privateKey);
        address := setup.address(salt, class_, [key]);
        transactions := transactions + [DeployAccount(address, class_, salt, [key])];
      case PlainAccount(_, salt, key, _) =>
        address := Deploy(setup.accountClass, [key], salt);
    }

    method TransferBalance(recipient: nat, amount: nat)
      requires masterAddress == Some(MasterAddress(setup)) && feeToken == Some(TokenAddress(setup))
      modifies this`transactions, this`masterNonce
      ensures masterNonce == old(masterNonce) + 1
      ensures transactions == old(transactions) + [Transfer(setup, old(masterNonce), recipient, amount)]
    {
      Invoke(feeToken.value, TransferTokens, [recipient, amount % U128, amount / U128]);
    }

    method BuildAllocatedAccounts(accounts: seq<Account>)
      requires masterAddress == Some(MasterAddress(setup)) && feeToken == Some(TokenAddress(setup))
      requires masterNonce == 3 && declaredClasses == LegacyClasses(setup) && transactions == CoreTxs(setup)
      requires forall a :: a in accounts ==> a.class_ == setup.accountClass
      modifies this`transactions, this`declaredClasses, this`masterNonce
      ensures transactions == GenesisTxs(setup, accounts)
    {
      hide CoreTxs, Deployment, Transfer, AccountDeployment, AccountAddress;
      Declare(setup.accountClass);
      ghost var before := transactions;
      assert before == CoreTxs(setup) + AccountClassTx(setup);
      assert accounts[0..] == accounts;
      for i := 0 to |accounts|
        invariant transactions + AccountTxs(setup, masterNonce, accounts[i..]) == before + AccountTxs(setup, 4, accounts)
      {
        var a := accounts[i];
        ghost var was, nonce := transactions, masterNonce;
        assert accounts[i..][1..] == accounts[i + 1..];
        var address := DeployAccountOf(a);
        if a.balance.Some? {
          TransferBalance(address, a.balance.value);
        }
        assert transactions == was + OneAccount(setup, nonce, a);
        Associates(was, OneAccount(setup, nonce, a), AccountTxs(setup, masterNonce, accounts[i + 1..]));
      }
    }

    method Build(accounts: seq<Account>) returns (txs: seq<Tx>)
      requires masterAddress.None? && feeToken.None? && masterNonce == 0 && transactions == [] && declaredClasses == {}
      requires forall a :: a in accounts ==> a.class_ == setup.accountClass
      modifies this
      ensures txs == GenesisTxs(setup, accounts)
    {
      hide GenesisTxs, CoreTxs;
      BuildMasterAccount();
      BuildCoreContracts();
      BuildAllocatedAccounts(accounts);
      txs := transactions;
    }
  }
}
